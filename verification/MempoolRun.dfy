/** Blocks, pruning and index rebuilding on the mempool, and what holds over whole runs. */
module MempoolRun {
  import opened Common
  import opened Types
  import opened Mempool
  import opened MempoolInv
  import opened MempoolSafe

  // ---------------------------------------------------------------- blocks

  function DropIds(drops: seq<StagedDrop>): seq<TxId> {
    if drops == [] then [] else [drops[0].id] + DropIds(drops[1..])
  }

  /** `ids` are members of `s`, each at most once. */
  ghost predicate Takes(s: set<TxId>, ids: seq<TxId>)
    decreases |ids|
  {
    ids == [] || (ids[0] in s && Takes(s - {ids[0]}, ids[1..]))
  }

  lemma {:induction false} TakesMeaning(s: set<TxId>, ids: seq<TxId>)
    ensures Takes(s, ids)
            <==> (forall id :: id in ids ==> id in s) && forall i, j :: 0 <= i < j < |ids| ==> ids[i] != ids[j]
    decreases |ids|
  {
    if ids != [] {
      TakesMeaning(s - {ids[0]}, ids[1..]);
      var head, rest := ids[0], ids[1..];
      assert forall id :: id in ids <==> id == head || id in rest;
      if (forall id :: id in ids ==> id in s) && forall i, j :: 0 <= i < j < |ids| ==> ids[i] != ids[j] {
        assert forall i, j :: 0 <= i < j < |rest| ==> rest[i] == ids[i + 1] && rest[j] == ids[j + 1];
        assert forall i :: 0 <= i < |rest| ==> rest[i] == ids[i + 1] && rest[i] != head;
      }
      if Takes(s, ids) {
        forall i, j | 0 <= i < j < |ids| ensures ids[i] != ids[j] {
          assert ids[j] == rest[j - 1] && rest[j - 1] in rest;
          if i > 0 { assert ids[i] == rest[i - 1]; }
        }
      }
    }
  }

  /** The transactions a block drops or includes come from the ready view, each once. */
  ghost predicate Staged(p: Pool, drops: seq<StagedDrop>, ids: seq<TxId>) {
    Takes(p.ready.key.Keys, DropIds(drops) + ids)
  }

  lemma {:induction false} TakesMore(s: set<TxId>, t: set<TxId>, ids: seq<TxId>)
    requires Takes(s, ids) && s <= t
    ensures Takes(t, ids)
    decreases |ids|
  {
    if ids != [] { TakesMore(s - {ids[0]}, t - {ids[0]}, ids[1..]); }
  }

  lemma DropStep(p: Pool, d: StagedDrop)
    requires Inv(p) && d.id in p.meta
    ensures var q := Drop(p, d.id, d.over, d.code);
            && Inv(q) && (CountsExact(p) ==> CountsExact(q))
            && q.meta == p.meta - {d.id} && q.expected == p.expected && q.txs.seen == p.txs.seen && q.cfg == p.cfg
  {
    DropInv(p, d.id, d.over, d.code);
    PurgeKeeps(p.txs, d.id, d.code);
    hide Inv, CountsExact, Drop, Purge, RemoveReady, RemoveFee, DecrementPrincipal;
  }

  lemma {:induction false} ApplyDropsInv(p: Pool, drops: seq<StagedDrop>, ids: seq<TxId>)
    requires Inv(p) && Takes(p.meta.Keys, DropIds(drops) + ids)
    ensures var q := ApplyDrops(p, drops);
            && Inv(q) && (CountsExact(p) ==> CountsExact(q))
            && Takes(q.meta.Keys, ids) && q.expected == p.expected && q.txs.seen == p.txs.seen && q.cfg == p.cfg
    decreases |drops|
  {
    hide Inv, CountsExact, Drop;
    if drops == [] {
      assert DropIds(drops) + ids == ids;
    } else {
      var all := DropIds(drops) + ids;
      assert all[0] == drops[0].id && all[1..] == DropIds(drops[1..]) + ids;
      hide DropIds;
      DropStep(p, drops[0]);
      hide Takes;
      var q := Drop(p, drops[0].id, drops[0].over, drops[0].code);
      assert q.meta.Keys == p.meta.Keys - {drops[0].id};
      ApplyDropsInv(q, drops[1..], ids);
    }
  }

  lemma IncludeStep(p: Pool, id: TxId, number: nat, index: nat, account: nat)
    requires Inv(p) && id in p.meta
    ensures var q := Include(p, id, number, index, account);
            && Inv(q) && (CountsExact(p) ==> CountsExact(q))
            && q.meta == p.meta - {id} && q.txs.seen == p.txs.seen && q.cfg == p.cfg
            && q.expected == p.expected[id.sender := SatAdd(id.nonce, 1, U64_MAX)]
            && Get(p.expected, id.sender) == Some(id.nonce)
            && q.txs.locs == p.txs.locs[id := Included(number, index)] && q.txs.store == p.txs.store
  {
    IncludeInv(p, id, number, index, account);
    ExpectedOf(p, id);
    hide Inv, CountsExact, Include, RemoveReady, RemoveFee, DecrementPrincipal;
  }

  /** Where the block put each of its transactions. */
  ghost predicate Placed(t: Records, ids: seq<TxId>, number: nat, index: nat) {
    forall i :: 0 <= i < |ids| ==> ids[i] in t.locs && t.locs[ids[i]] == Included(number, index + i)
  }

  lemma {:induction false} ApplyIncludesInv(p: Pool, ids: seq<TxId>, number: nat, index: nat, accounts: Sender -> nat)
    requires Inv(p) && Takes(p.meta.Keys, ids)
    ensures var q := ApplyIncludes(p, ids, number, index, accounts);
            && Inv(q) && (CountsExact(p) ==> CountsExact(q))
            && q.txs.seen == p.txs.seen && q.cfg == p.cfg && q.txs.store == p.txs.store
            && Placed(q.txs, ids, number, index)
            && (forall id :: id !in ids && id in p.txs.locs ==> id in q.txs.locs && q.txs.locs[id] == p.txs.locs[id])
            && (forall id :: id in q.txs.locs ==> id in ids || id in p.txs.locs)
    decreases |ids|
  {
    hide Inv, CountsExact, Include;
    if ids != [] {
      var account := accounts(ids[0].sender);
      IncludeStep(p, ids[0], number, index, account);
      var q := Include(p, ids[0], number, index, account);
      assert q.meta.Keys == p.meta.Keys - {ids[0]};
      ApplyIncludesInv(q, ids[1..], number, index + 1, accounts);
      TakesMeaning(p.meta.Keys, ids);
      hide Takes;
      assert forall i :: 1 <= i < |ids| ==> ids[i] == ids[1..][i - 1];
      assert ids[0] !in ids[1..];
      assert forall id :: id in ids <==> id == ids[0] || id in ids[1..];
    }
  }

  // ---------------------------------------------------------------- the fee index

  lemma RebuildFeesFiled(p: Pool, baseFee: nat)
    requires Paired(p.pending, p.meta) && forall id :: id in p.meta ==> Readable(p.txs, id)
    ensures FeesAgree(RebuildFees(p, baseFee)) && Filed(p.meta, RebuildFees(p, baseFee), p.txs, baseFee)
  {
    var ids := set k | k in p.pending && Readable(p.txs, p.pending[k]) :: p.pending[k];
    forall id ensures id in ids <==> id in p.meta {
      if id in p.meta { assert p.pending[p.meta[id]] == id; }
    }
    assert RebuildFees(p, baseFee).key.Keys == p.meta.Keys;
  }

  /** The prices and the pending set determine both fee views. */
  lemma FiledUnique(meta: map<TxId, Slot>, f: Fees, g: Fees, t: Records, baseFee: nat)
    requires FeesAgree(f) && FeesAgree(g) && Filed(meta, f, t, baseFee) && Filed(meta, g, t, baseFee)
    requires forall id :: id in meta ==> Readable(t, id)
    ensures f == g
  {
  }

  lemma CommitParts(p: Pool)
    requires Inv(p)
    ensures Core(p) && Paired(p.pending, p.meta) && FeesAgree(p.fees) && Filed(p.meta, p.fees, p.txs, p.cfg.baseFee)
    ensures forall id :: id in p.meta ==> Readable(p.txs, id)
  {
  }

  /** Rebuilding for the current base fee changes nothing: the index is always up to date. */
  lemma RebuildFeesIdentity(p: Pool)
    requires Inv(p)
    ensures RebuildFees(p, p.cfg.baseFee) == p.fees
  {
    CommitParts(p);
    hide Inv, Paired, FeesAgree, Filed, RebuildFees;
    RebuildFeesFiled(p, p.cfg.baseFee);
    FiledUnique(p.meta, p.fees, RebuildFees(p, p.cfg.baseFee), p.txs, p.cfg.baseFee);
  }

  lemma CoreWithFees(p: Pool, f: Fees)
    requires Core(p) && FeesAgree(f) && f.key.Keys == p.meta.Keys
    ensures Core(p.(fees := f))
  {
  }

  lemma CountsFrame(p: Pool, q: Pool)
    requires p.pending == q.pending && p.meta == q.meta && p.expected == q.expected && p.current == q.current
             && p.principals == q.principals && p.txs == q.txs
    ensures OnePerSender(p) ==> OnePerSender(q)
    ensures CountsAtMost(p) ==> CountsAtMost(q)
    ensures CountsExact(p) ==> CountsExact(q)
  {
  }

  lemma NewBaseFeeInv(p: Pool, baseFee: nat)
    requires Inv(p)
    ensures var q := p.(cfg := p.cfg.(baseFee := baseFee), fees := RebuildFees(p, baseFee));
            Inv(q) && (CountsExact(p) ==> CountsExact(q))
  {
    CommitParts(p);
    hide Core, OnePerSender, Named, Recorded, ReadyKeysOk, CountsAtMost, CountsExact, RebuildFees, FeesAgree, Paired;
    var f := RebuildFees(p, baseFee);
    RebuildFeesFiled(p, baseFee);
    assert f.key.Keys == p.meta.Keys;
    hide Filed;
    CoreWithFees(p, f);
    CoreIgnoresRecords(p.(fees := f), p.txs, p.cfg.(baseFee := baseFee), p.expected);
    CountsFrame(p, p.(cfg := p.cfg.(baseFee := baseFee), fees := f));
  }

  lemma StagedPending(p: Pool, drops: seq<StagedDrop>, ids: seq<TxId>)
    requires Inv(p) && Staged(p, drops, ids)
    ensures Takes(p.meta.Keys, DropIds(drops) + ids)
  {
    TakesMore(p.ready.key.Keys, p.meta.Keys, DropIds(drops) + ids);
  }

  /** A block's bookkeeping keeps the invariant and puts every included transaction where the block has it. */
  lemma CommitBlockInv(p: Pool, drops: seq<StagedDrop>, ids: seq<TxId>, number: nat, accounts: Sender -> nat,
                       nextBaseFee: nat)
    requires Inv(p) && Staged(p, drops, ids)
    ensures var q := CommitBlock(p, drops, ids, number, accounts, nextBaseFee);
            && Inv(q) && (CountsExact(p) ==> CountsExact(q))
            && q.txs.seen == p.txs.seen && q.cfg == p.cfg.(baseFee := nextBaseFee)
            && Placed(q.txs, ids, number, 0)
  {
    hide Inv, CountsExact, RebuildFees, Takes, Placed, Staged;
    StagedPending(p, drops, ids);
    ApplyDropsInv(p, drops, ids);
    var q := ApplyDrops(p, drops);
    ApplyIncludesInv(q, ids, number, 0, accounts);
    NewBaseFeeInv(ApplyIncludes(q, ids, number, 0, accounts), nextBaseFee);
  }

  // ---------------------------------------------------------------- pruning

  /** Pruning a transaction that has left the queue. */
  lemma ForgetInv(p: Pool, id: TxId)
    requires Inv(p) && id !in p.meta
    ensures Inv(Forget(p, id))
    ensures Forget(p, id).meta == p.meta && Forget(p, id).expected == p.expected
    ensures CountsExact(p) ==> (CountsExact(Forget(p, id))
            <==> !Readable(p.txs, id) || Mine(p.meta, p.txs, p.txs.store[id].principal) == {})
  {
    hide Core, OnePerSender, Named, Recorded, ReadyKeysOk, Filed, CountsAtMost, CountsExact, Mine, DecrementPrincipal,
         RemoveEthIndex, ReadyAgree, FeesAgree, Paired;
    CoreParts(p);
    var q := Forget(p, id);
    assert id !in p.fees.key;
    ForgetRecords(p, id);
    ForgetCounts(p, id);
    CoreIgnoresRecords(p, q.txs, p.cfg, p.expected);
    OnePerSenderIgnoresRecords(p, q.txs);
    ForgetCore(p.(txs := q.txs), q);
  }

  lemma ForgetCore(p: Pool, q: Pool)
    requires q == p.(principals := q.principals)
    ensures Core(p) ==> Core(q)
    ensures OnePerSender(p) ==> OnePerSender(q)
  {
  }

  lemma ForgetRecords(p: Pool, id: TxId)
    requires Recorded(p.meta, p.txs) && ReadyKeysOk(p.ready, p.txs) && p.ready.key.Keys <= p.meta.Keys && id !in p.meta
    requires Filed(p.meta, p.fees, p.txs, p.cfg.baseFee)
    ensures var u := Forget(p, id).txs;
            Recorded(p.meta, u) && ReadyKeysOk(p.ready, u) && Filed(p.meta, p.fees, u, p.cfg.baseFee)
  {
    var u := Forget(p, id).txs;
    assert u.locs == p.txs.locs - {id} && u.store == p.txs.store - {id} && u.seen == p.txs.seen - {id};
    forall x ensures x in p.meta <==> IsQueued(u, x) { assert x in p.meta <==> IsQueued(p.txs, x); }
    assert forall x :: x in p.meta ==> Readable(p.txs, x);
  }

  lemma ForgetCounts(p: Pool, id: TxId)
    requires CountsAtMost(p) && id !in p.meta
    ensures CountsAtMost(Forget(p, id))
    ensures CountsExact(p) ==> (CountsExact(Forget(p, id))
            <==> !Readable(p.txs, id) || Mine(p.meta, p.txs, p.txs.store[id].principal) == {})
  {
    var q := Forget(p, id);
    assert q.txs.store == p.txs.store - {id};
    forall w: Principal ensures Mine(q.meta, q.txs, w) == Mine(p.meta, p.txs, w) {}
    assert CountsExact(p) ==> forall w: Principal :: CountOf(p.principals, w) == |Mine(p.meta, p.txs, w)|;
    hide Mine;
    if CountsExact(p) && Readable(p.txs, id) {
      var w := p.txs.store[id].principal;
      assert CountsExact(q) ==> CountOf(q.principals, w) == |Mine(q.meta, q.txs, w)|;
    }
  }

  lemma {:induction false} ForgetAllInv(p: Pool, ids: seq<TxId>)
    requires Inv(p) && forall id :: id in ids ==> id !in p.meta
    ensures var q := ForgetAll(p, ids); Inv(q) && q.meta == p.meta && q.expected == p.expected
    decreases |ids|
  {
    hide Inv, Forget;
    if ids != [] {
      ForgetInv(p, ids[0]);
      ForgetAllInv(Forget(p, ids[0]), ids[1..]);
    }
  }

  // ---------------------------------------------------------------- rebuilding the runtime indexes

  ghost function Recount(p: Pool): map<Principal, nat> {
    map w | w in (set id | id in p.meta && Readable(p.txs, id) :: p.txs.store[id].principal) :: |Mine(p.meta, p.txs, w)|
  }

  function SeqView(key: map<TxId, ReadyKey>): map<SeqKey, TxId> {
    map id | id in key :: SeqKey(key[id].sn, id) := id
  }

  /** `rebuild_pending_runtime_indexes` where every pending payload decodes. */
  ghost function RebuildRuntime(p: Pool): Pool {
    p.(principals := Recount(p), fees := RebuildFees(p, p.cfg.baseFee),
        ready := p.ready.(bySeq := SeqView(p.ready.key)))
  }

  lemma SeqViewSame(r: Ready)
    requires ReadyAgree(r)
    ensures SeqView(r.key) == r.bySeq
  {
  }

  lemma RecountExact(p: Pool)
    ensures CountsAtMost(p.(principals := Recount(p))) && CountsExact(p.(principals := Recount(p)))
    ensures CountsAtMost(p) && CountsExact(p) ==> Recount(p) == p.principals
  {
    var q := p.(principals := Recount(p));
    forall w: Principal
      ensures (w in q.principals <==> Mine(p.meta, p.txs, w) != {})
              && CountOf(q.principals, w) == |Mine(p.meta, p.txs, w)|
    {
      if w in q.principals {
        var id :| id in p.meta && Readable(p.txs, id) && p.txs.store[id].principal == w;
        assert id in Mine(p.meta, p.txs, w);
      } else {
        assert Mine(p.meta, p.txs, w) == {};
      }
    }
    if CountsAtMost(p) && CountsExact(p) {
      forall w: Principal ensures w in p.principals <==> w in q.principals {
        assert CountOf(p.principals, w) == |Mine(p.meta, p.txs, w)|;
      }
      forall w | w in p.principals ensures p.principals[w] == q.principals[w] {
        assert CountOf(p.principals, w) == |Mine(p.meta, p.txs, w)|;
      }
    }
  }

  /** Rebuilding repairs the per-principal counts and touches nothing else; it changes nothing exactly when the
      counts were right, as they are as long as nothing was pruned. */
  lemma RebuildRuntimeSpec(p: Pool)
    requires Inv(p)
    ensures var q := RebuildRuntime(p);
            && q == p.(principals := Recount(p)) && Inv(q) && CountsExact(q)
            && (q == p <==> CountsExact(p))
  {
    RebuildFeesIdentity(p);
    CoreParts(p);
    SeqViewSame(p.ready);
    RecountExact(p);
    hide Recorded, ReadyKeysOk, Filed, Core, CountsExact, CountsAtMost, Recount, RebuildFees, SeqView, ReadyAgree,
         FeesAgree, Paired,
         OnePerSender, Named;
    ForgetCore(p, p.(principals := Recount(p)));
    assert RebuildRuntime(p) == p.(principals := Recount(p));
  }

  // ---------------------------------------------------------------- whole runs

  datatype Op =
    | OpSubmit(id: TxId, req: Request)
    | OpBlock(drops: seq<StagedDrop>, ids: seq<TxId>, number: nat, accounts: Sender -> nat, nextBaseFee: nat)
    | OpPrune(pruned: seq<TxId>)
    | OpRebuild

  /** A block takes its transactions from the ready view; pruning takes those of an included block. */
  ghost predicate Enabled(p: Pool, op: Op) {
    match op
    case OpSubmit(id, req) => id.nonce <= U64_MAX && req.account <= U64_MAX
    case OpBlock(drops, ids, _, _, _) => Staged(p, drops, ids)
    case OpPrune(ids) => forall id :: id in ids ==> id in p.txs.locs && p.txs.locs[id].Included?
    case OpRebuild => true
  }

  ghost function Step(p: Pool, op: Op): Pool {
    match op
    case OpSubmit(id, req) => Submit(p, id, req).0
    case OpBlock(drops, ids, number, accounts, fee) => CommitBlock(p, drops, ids, number, accounts, fee)
    case OpPrune(ids) => ForgetAll(p, ids)
    case OpRebuild => RebuildRuntime(p)
  }

  lemma StepInv(p: Pool, op: Op)
    requires Inv(p) && Enabled(p, op)
    ensures Inv(Step(p, op))
    ensures CountsExact(p) && !op.OpPrune? ==> CountsExact(Step(p, op))
  {
    match op
    case OpSubmit(id, req) => var _ := SubmitSpec(p, id, req);
    case OpBlock(drops, ids, number, accounts, fee) => CommitBlockInv(p, drops, ids, number, accounts, fee);
    case OpPrune(ids) =>
      IncludedNotPending(p, ids);
      ForgetAllInv(p, ids);
    case OpRebuild => RebuildRuntimeSpec(p);
  }

  lemma IncludedNotPending(p: Pool, ids: seq<TxId>)
    requires Inv(p) && forall id :: id in ids ==> id in p.txs.locs && p.txs.locs[id].Included?
    ensures forall id :: id in ids ==> id !in p.meta
  {
  }

  ghost predicate Runs(p: Pool, ops: seq<Op>, q: Pool)
    decreases |ops|
  {
    if ops == [] then p == q else Enabled(p, ops[0]) && Runs(Step(p, ops[0]), ops[1..], q)
  }

  /** Every state that any run reaches satisfies the invariant; without pruning the principal counts stay exact
      and rebuilding the runtime indexes is the identity. */
  lemma {:induction false} RunInv(p: Pool, ops: seq<Op>, q: Pool)
    requires Inv(p) && Runs(p, ops, q)
    ensures Inv(q)
    ensures CountsExact(p) && (forall i :: 0 <= i < |ops| ==> !ops[i].OpPrune?)
            ==> CountsExact(q) && RebuildRuntime(q) == q
    decreases |ops|
  {
    hide Inv, CountsExact, Step, Enabled;
    if ops == [] {
      RebuildRuntimeSpec(q);
    } else {
      StepInv(p, ops[0]);
      RunInv(Step(p, ops[0]), ops[1..], q);
    }
  }
}
