/** Where the mempool does not do what one would expect, shown by runs from the empty pool: the last nonce can be
    included again after a prune, and the count of a principal can fall below its pending transactions. */
module MempoolReplay {
  import opened Common
  import opened Types
  import opened Mempool
  import opened MempoolInv
  import opened MempoolSafe
  import opened MempoolRun
  import opened MempoolHistory

  const FREE: Config := Config(0, 0, 0)

  /** A bid of nothing by `who`, from an account whose nonce is the transaction's. */
  function Bid(id: TxId, who: Principal): Request { Request(false, false, true, who, 0, None, id.nonce) }

  ghost predicate Idle(p: Pool) { Inv(p) && p.pending == map[] && p.cfg == FREE }

  /** The transaction is not known and carries its sender's next nonce, or its sender is not known. */
  predicate Next(p: Pool, id: TxId) {
    id.nonce <= U64_MAX && id !in p.txs.seen && (id.sender in p.expected ==> p.expected[id.sender] == id.nonce)
  }

  function SubmitOne(id: TxId, who: Principal): Op { OpSubmit(id, Bid(id, who)) }

  function NoAccount(s: Sender): nat { 0 }

  function IncludeOne(id: TxId, number: nat): Op { OpBlock([], [id], number, NoAccount, 0) }

  // ---------------------------------------------------------------- one transaction alone in the pool

  lemma IdleIsEmpty(p: Pool)
    requires Idle(p)
    ensures p.meta == map[] && p.current == map[] && p.principals == map[]
  {
    assert forall w: Principal :: Mine(map[], p.txs, w) == {};
  }

  lemma IdleAccepts(p: Pool, id: TxId, who: Principal)
    requires Idle(p) && Next(p, id)
    ensures Screen(p, id, Bid(id, who)) == Ok(0) && Submit(p, id, Bid(id, who)).1.Ok?
  {
    IdleIsEmpty(p);
    assert SlotsOf(CacheExpected(p, id.sender, id.nonce), id.sender) == {};
  }

  /** The pool with `id` accepted into an idle one. */
  function Joined(p: Pool, id: TxId, who: Principal): Pool {
    Added(CacheExpected(p, id.sender, id.nonce), id, PayloadOf(id, Bid(id, who)), 0)
  }

  lemma JoinedParts(p: Pool, id: TxId, who: Principal)
    requires p.pending == map[]
    ensures var q := Joined(p, id, who); |q.pending| == 1 && id in q.ready.key && id in q.meta && q.cfg == p.cfg
  {
  }

  lemma IdleSubmits(p: Pool, id: TxId, who: Principal)
    requires Idle(p) && Next(p, id)
    ensures Submit(p, id, Bid(id, who)).0 == Joined(p, id, who) && Inv(Joined(p, id, who))
  {
    IdleIsEmpty(p);
    IdleAccepts(p, id, who);
    hide Inv, Submit, Added, Screen, CacheExpected, CountsExact, NotOutbid, PushedOut, Joined;
    var victim := SubmitSpec(p, id, Bid(id, who));
    if victim.Some? { NoneToPushOut(p, victim.value, id); }
    AcceptedJoins(p, id, who);
  }

  lemma AcceptedJoins(p: Pool, id: TxId, who: Principal)
    ensures Accepted(p, id, Bid(id, who), 0, None) == Joined(p, id, who)
  {
  }

  lemma IdleJoins(p: Pool, id: TxId, who: Principal)
    requires Idle(p) && Next(p, id)
    ensures Step(p, SubmitOne(id, who)) == Joined(p, id, who) && Alone(Joined(p, id, who), id)
    ensures Inv(Joined(p, id, who)) && Enabled(p, SubmitOne(id, who))
  {
    hide Inv, Submit, Joined;
    IdleSubmits(p, id, who);
    JoinedParts(p, id, who);
  }

  lemma NoneToPushOut(p: Pool, v: TxId, id: TxId)
    requires p.meta == map[]
    ensures forall price :: !PushedOut(p, v, id, price)
  {
  }

  /** `id` is the one pending transaction. */
  ghost predicate Alone(q: Pool, id: TxId) {
    Inv(q) && |q.pending| == 1 && id in q.ready.key && id in q.meta && q.cfg == FREE
  }

  lemma OneStaged(q: Pool, id: TxId)
    requires id in q.ready.key
    ensures Staged(q, [], [id])
  {
  }

  lemma BlockOfOne(q: Pool, id: TxId, number: nat)
    ensures Step(q, IncludeOne(id, number))
         == var r := Include(q, id, number, 0, 0); r.(cfg := r.cfg.(baseFee := 0), fees := RebuildFees(r, 0))
  {
    hide Include, RebuildFees;
    assert ApplyDrops(q, []) == q;
    assert ApplyIncludes(q, [id], number, 0, IncludeOne(id, number).accounts) == Include(q, id, number, 0, 0);
  }

  /** A block with the one pending transaction leaves an idle pool and the sender one nonce on, if there is one. */
  lemma AloneIsIncluded(q: Pool, id: TxId, number: nat)
    requires Alone(q, id)
    ensures Enabled(q, IncludeOne(id, number))
    ensures var r := Step(q, IncludeOne(id, number));
            && Idle(r) && r.txs == q.txs.(locs := q.txs.locs[id := Included(number, 0)])
            && r.expected == q.expected[id.sender := SatAdd(id.nonce, 1, U64_MAX)]
  {
    hide Inv, Include, RebuildFees, Staged, Step, CountsExact, Removed;
    OneStaged(q, id);
    StepInv(q, IncludeOne(id, number));
    BlockOfOne(q, id, number);
    IncludeStep(q, id, number, 0, 0);
    IncludeInv(q, id, number, 0, 0);
  }

  lemma JoinedRecords(p: Pool, id: TxId, who: Principal)
    ensures var q := Joined(p, id, who);
            && q.txs.seen == p.txs.seen + {id} && q.txs.store == p.txs.store[id := PayloadOf(id, Bid(id, who))]
            && q.expected == (if id.sender in p.expected then p.expected else p.expected[id.sender := id.nonce])
  {
  }

  /** `id` submitted to an idle pool, then included. */
  ghost function Settle(p: Pool, id: TxId, who: Principal, number: nat): Pool {
    Step(Step(p, SubmitOne(id, who)), IncludeOne(id, number))
  }

  lemma OneSettles(p: Pool, id: TxId, who: Principal, number: nat)
    requires Idle(p) && Next(p, id)
    ensures Enabled(p, SubmitOne(id, who)) && Enabled(Step(p, SubmitOne(id, who)), IncludeOne(id, number))
    ensures var r := Settle(p, id, who, number);
            && Idle(r) && r.txs.seen == p.txs.seen + {id}
            && r.txs.store == p.txs.store[id := PayloadOf(id, Bid(id, who))]
            && Get(r.txs.locs, id) == Some(Included(number, 0))
            && r.expected == p.expected[id.sender := SatAdd(id.nonce, 1, U64_MAX)]
  {
    hide Inv, Step, Alone, Joined, Idle, PayloadOf;
    IdleJoins(p, id, who);
    JoinedRecords(p, id, who);
    AloneIsIncluded(Joined(p, id, who), id, number);
  }

  /** Pruning one included transaction forgets it and nothing else. */
  lemma OneIsPruned(r: Pool, id: TxId)
    requires Inv(r) && id in r.txs.locs && r.txs.locs[id].Included?
    ensures Enabled(r, OpPrune([id])) && Step(r, OpPrune([id])) == Forget(r, id)
    ensures Inv(Forget(r, id)) && id !in r.meta && Forget(r, id).txs.seen == r.txs.seen - {id}
  {
    hide Inv, Forget;
    IncludedNotPending(r, [id]);
    ForgetAllInv(r, [id]);
    ForgetOne(r, id);
  }

  lemma ForgetOne(r: Pool, id: TxId)
    ensures ForgetAll(r, [id]) == Forget(r, id)
    ensures Forget(r, id).txs.seen == r.txs.seen - {id}
  {
    assert [id][1..] == [];
    hide DecrementPrincipal, RemoveFee;
  }

  lemma FreshIsIdle(id: TxId)
    ensures Idle(Fresh(FREE)) && (id.nonce <= U64_MAX ==> Next(Fresh(FREE), id))
  {
    FreshInv(FREE);
  }

  // ---------------------------------------------------------------- the last nonce

  /** Submission and inclusion of `id` from an idle pool. */
  lemma Round(h: Hist, id: TxId, who: Principal) returns (ops: seq<Op>, k: Hist)
    requires Idle(h.pool) && Next(h.pool, id)
    ensures HistRuns(h, ops, k) && k.log == h.log + [id] && k.pool == Settle(h.pool, id, who, 1)
  {
    hide Inv, Step, HistRuns, Enabled, Idle, Next;
    OneSettles(h.pool, id, who, 1);
    var mid := HistStep(h, SubmitOne(id, who));
    k := HistStep(mid, IncludeOne(id, 1));
    RunNil(k);
    RunCons(mid, IncludeOne(id, 1), [], k);
    RunCons(h, SubmitOne(id, who), [IncludeOne(id, 1)] + [], k);
    ops := [SubmitOne(id, who)] + ([IncludeOne(id, 1)] + []);
  }

  lemma PrunedRound(h: Hist, id: TxId) returns (ops: seq<Op>, k: Hist)
    requires Idle(h.pool) && Get(h.pool.txs.locs, id) == Some(Included(1, 0))
    requires id.nonce == U64_MAX && Get(h.pool.expected, id.sender) == Some(U64_MAX)
    ensures HistRuns(h, ops, k) && k.log == h.log + [id]
  {
    hide Inv, Step, HistRuns, HistStep, Enabled, Settle;
    var prune := OpPrune([id]);
    OneIsPruned(h.pool, id);
    QuietLog(h, prune);
    ops, k := Round(HistStep(h, prune), id, EMPTY_PRINCIPAL);
    RunCons(h, prune, ops, k);
    ops := [prune] + ops;
  }

  /** At the last nonce the counter does not move, so once its block is pruned the same transaction is accepted
      and included again. */
  lemma LastNonceTwice(id: TxId) returns (ops: seq<Op>, k: Hist)
    requires id.nonce == U64_MAX
    ensures HistRuns(Hist(Fresh(FREE), [], map[]), ops, k) && k.log == [id, id]
  {
    var h := Hist(Fresh(FREE), [], map[]);
    FreshIsIdle(id);
    hide Idle, Next, HistRuns, Settle, Inv, Step, Fresh, PayloadOf;
    OneSettles(h.pool, id, EMPTY_PRINCIPAL, 1);
    var first, mid := Round(h, id, EMPTY_PRINCIPAL);
    var second;
    second, k := PrunedRound(mid, id);
    ops := first + second;
    RunsAppend(h, first, mid, second, k);
  }

  /** The run from the empty pool includes `id` at both places. */
  ghost predicate Twice(cfg: Config, ops: seq<Op>, k: Hist, i: nat, j: nat, id: TxId) {
    HistRuns(Hist(Fresh(cfg), [], map[]), ops, k) && i < j < |k.log| && k.log[i] == id && k.log[j] == id
  }

  /** A transaction can be included twice exactly when it carries the last nonce. */
  lemma IncludedTwiceIff(id: TxId)
    ensures (exists cfg, ops, k, i, j :: Twice(cfg, ops, k, i, j, id)) <==> id.nonce == U64_MAX
  {
    hide HistRuns;
    if cfg, ops, k, i, j :| Twice(cfg, ops, k, i, j, id) { IncludedOnce(cfg, ops, k, i, j); }
    if id.nonce == U64_MAX {
      var ops, k := LastNonceTwice(id);
      assert Twice(FREE, ops, k, 0, 1, id);
    }
  }

  // ---------------------------------------------------------------- counts that fall below

  /** Two transactions of one principal from different senders, the first included and pruned while the second is
      pending: the principal counts as having none. */
  lemma CountFallsBelow(a: TxId, b: TxId, who: Principal) returns (ops: seq<Op>, q: Pool)
    requires a.sender != b.sender && a.nonce <= U64_MAX && b.nonce <= U64_MAX
    ensures Runs(Fresh(FREE), ops, q)
    ensures Mine(q.meta, q.txs, who) == {b} && CountOf(q.principals, who) == 0
  {
    hide Idle, Step, Runs, Enabled, Settle, Mine, PayloadOf;
    var p0 := Fresh(FREE);
    FreshIsIdle(a);
    OneSettles(p0, a, who, 1);
    var p1, p2 := Step(p0, SubmitOne(a, who)), Settle(p0, a, who, 1);
    SecondPruned(p2, a, b, who);
    var p3 := Step(p2, SubmitOne(b, who));
    q := Step(p3, OpPrune([a]));
    ops := [SubmitOne(a, who), IncludeOne(a, 1), SubmitOne(b, who), OpPrune([a])];
    SettleIs(p0, a, who);
    FourSteps(p0, ops, p1, p2, p3, q);
  }

  lemma SettleIs(p: Pool, id: TxId, who: Principal)
    ensures Settle(p, id, who, 1) == Step(Step(p, SubmitOne(id, who)), IncludeOne(id, 1))
  {
  }

  lemma SecondPruned(p: Pool, a: TxId, b: TxId, who: Principal)
    requires Idle(p) && Next(p, b) && a != b && Get(p.txs.locs, a) == Some(Included(1, 0))
    requires a in p.txs.store && p.txs.store[a] == PayloadOf(a, Bid(a, who))
    ensures Enabled(p, SubmitOne(b, who)) && Enabled(Step(p, SubmitOne(b, who)), OpPrune([a]))
    ensures var q := Step(Step(p, SubmitOne(b, who)), OpPrune([a]));
            Mine(q.meta, q.txs, who) == {b} && CountOf(q.principals, who) == 0
  {
    hide Inv, Step, Alone, Mine, Forget, Joined, PayloadOf;
    IdleIsEmpty(p);
    IdleJoins(p, b, who);
    JoinedLocs(p, b, who, a);
    OneIsPruned(Joined(p, b, who), a);
    CountsNone(p, a, b, who);
  }

  lemma JoinedLocs(p: Pool, id: TxId, who: Principal, a: TxId)
    requires a != id
    ensures Get(Joined(p, id, who).txs.locs, a) == Get(p.txs.locs, a)
  {
  }

  lemma CountsNone(p: Pool, a: TxId, b: TxId, who: Principal)
    requires a != b && p.meta == map[] && p.principals == map[]
    requires a in p.txs.store && p.txs.store[a] == PayloadOf(a, Bid(a, who))
    ensures var q := Forget(Joined(p, b, who), a); Mine(q.meta, q.txs, who) == {b} && CountOf(q.principals, who) == 0
  {
    JoinedNone(p, b, who);
    hide Joined;
    MineOne(Joined(p, b, who), a, b, who);
  }

  lemma MineOne(q: Pool, a: TxId, b: TxId, who: Principal)
    requires a != b && q.meta == map[b := SlotOf(b)] && q.principals == map[who := 1]
    requires a in q.txs.store && q.txs.store[a] == PayloadOf(a, Bid(a, who))
    requires b in q.txs.store && q.txs.store[b] == PayloadOf(b, Bid(b, who))
    ensures Mine(Forget(q, a).meta, Forget(q, a).txs, who) == {b} && CountOf(Forget(q, a).principals, who) == 0
  {
    hide RemoveFee;
    assert Forget(q, a).txs.store == q.txs.store - {a};
  }

  lemma JoinedNone(p: Pool, b: TxId, who: Principal)
    requires p.meta == map[] && p.principals == map[]
    ensures var q := Joined(p, b, who);
            && q.meta == map[b := SlotOf(b)] && q.principals == map[who := 1]
            && q.txs.store == p.txs.store[b := PayloadOf(b, Bid(b, who))]
  {
  }

  lemma FourSteps(p0: Pool, ops: seq<Op>, p1: Pool, p2: Pool, p3: Pool, q: Pool)
    requires |ops| == 4 && Enabled(p0, ops[0]) && p1 == Step(p0, ops[0]) && Enabled(p1, ops[1])
             && p2 == Step(p1, ops[1])
    requires Enabled(p2, ops[2]) && p3 == Step(p2, ops[2]) && Enabled(p3, ops[3]) && q == Step(p3, ops[3])
    ensures Runs(p0, ops, q)
  {
    hide Enabled, Step;
    assert Runs(q, ops[4..], q);
    assert Runs(p3, ops[3..], q);
    assert Runs(p2, ops[2..], q);
    assert Runs(p1, ops[1..], q);
  }
}
