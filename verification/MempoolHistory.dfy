/** Which transactions a run includes, and in which order: replay safety of the nonce rule. */
module MempoolHistory {
  import opened Common
  import opened Types
  import opened Mempool
  import opened MempoolInv
  import opened MempoolSafe
  import opened MempoolRun

  /** The pool, everything included so far, and each sender's first expected nonce. */
  datatype Hist = Hist(pool: Pool, log: seq<TxId>, first: map<Sender, nat>)

  ghost function HistStep(h: Hist, op: Op): Hist {
    var q := Step(h.pool, op);
    Hist(q, if op.OpBlock? then h.log + op.ids else h.log,
         map s | s in q.expected :: if s in h.first then h.first[s] else q.expected[s])
  }

  ghost predicate HistRuns(h: Hist, ops: seq<Op>, k: Hist)
    decreases |ops|
  {
    if ops == [] then h == k else Enabled(h.pool, ops[0]) && HistRuns(HistStep(h, ops[0]), ops[1..], k)
  }

  /** How many of the logged transactions are the sender's. */
  function CountBy(log: seq<TxId>, s: Sender): nat {
    if log == [] then 0
    else CountBy(log[..|log| - 1], s) + (if log[|log| - 1].sender == s then 1 else 0)
  }

  /** The sender's next nonce is its first one moved up once per inclusion, saturating, and each logged
      transaction carried exactly the nonce that was next for its sender. */
  ghost predicate InOrder(expected: map<Sender, nat>, log: seq<TxId>, first: map<Sender, nat>) {
    && first.Keys == expected.Keys
    && (forall s :: s in first ==> first[s] <= U64_MAX && expected[s] == SatAdd(first[s], CountBy(log, s), U64_MAX))
    && (forall i :: 0 <= i < |log| ==>
          log[i].sender in first
              && log[i].nonce == SatAdd(first[log[i].sender], CountBy(log[..i], log[i].sender), U64_MAX))
    && (forall s :: s !in first ==> CountBy(log, s) == 0)
  }

  ghost predicate HistInv(h: Hist) { Inv(h.pool) && InOrder(h.pool.expected, h.log, h.first) }

  lemma FreshHist(cfg: Config)
    ensures HistInv(Hist(Fresh(cfg), [], map[]))
  {
    FreshInv(cfg);
  }

  lemma IncludeInOrder(expected: map<Sender, nat>, log: seq<TxId>, first: map<Sender, nat>, id: TxId)
    requires InOrder(expected, log, first) && Get(expected, id.sender) == Some(id.nonce)
    ensures InOrder(expected[id.sender := SatAdd(id.nonce, 1, U64_MAX)], log + [id], first)
  {
    var more := log + [id];
    assert more[..|log|] == log;
    assert forall s: Sender :: CountBy(more, s) == CountBy(log, s) + (if id.sender == s then 1 else 0);
    forall i | 0 <= i < |more|
      ensures more[i].sender in first
              && more[i].nonce == SatAdd(first[more[i].sender], CountBy(more[..i], more[i].sender), U64_MAX)
    {
      if i < |log| { assert more[..i] == log[..i]; }
    }
  }

  lemma {:induction false} IncludesInOrder(p: Pool, ids: seq<TxId>, number: nat, index: nat, accounts: Sender -> nat,
                                           log: seq<TxId>, first: map<Sender, nat>)
    requires Inv(p) && Takes(p.meta.Keys, ids) && InOrder(p.expected, log, first)
    ensures InOrder(ApplyIncludes(p, ids, number, index, accounts).expected, log + ids, first)
    decreases |ids|
  {
    hide Inv, Include, InOrder;
    if ids == [] {
      assert log + ids == log;
    } else {
      var q := Include(p, ids[0], number, index, accounts(ids[0].sender));
      IncludeStep(p, ids[0], number, index, accounts(ids[0].sender));
      assert q.meta.Keys == p.meta.Keys - {ids[0]};
      IncludeInOrder(p.expected, log, first, ids[0]);
      IncludesInOrder(q, ids[1..], number, index + 1, accounts, log + [ids[0]], first);
      assert log + [ids[0]] + ids[1..] == log + ids;
    }
  }

  lemma AcceptedExpected(p: Pool, id: TxId, req: Request, price: nat, victim: Option<TxId>)
    ensures Accepted(p, id, req, price, victim).expected == CacheExpected(p, id.sender, req.account).expected
  {
  }

  /** Only inclusion moves an expected nonce; a submission at most fixes the sender's first one. */
  lemma SubmitExpected(p: Pool, id: TxId, req: Request)
    requires Inv(p) && id.nonce <= U64_MAX
    ensures Submit(p, id, req).0.expected == p.expected
         || (id.sender !in p.expected && Submit(p, id, req).0.expected == p.expected[id.sender := req.account])
  {
    hide Inv, Submit, Accepted, PushedOut, Screen;
    var victim := SubmitSpec(p, id, req);
    if Screen(p, id, req).Ok? { AcceptedExpected(p, id, req, Screen(p, id, req).value, victim); }
  }

  function FirstFor(first: map<Sender, nat>, expected: map<Sender, nat>): map<Sender, nat> {
    map s | s in expected :: if s in first then first[s] else expected[s]
  }

  lemma SameOrder(expected: map<Sender, nat>, log: seq<TxId>, first: map<Sender, nat>)
    requires InOrder(expected, log, first)
    ensures FirstFor(first, expected) == first
  {
  }

  lemma FirstNonceInOrder(expected: map<Sender, nat>, log: seq<TxId>, first: map<Sender, nat>, s: Sender, account: nat)
    requires InOrder(expected, log, first) && s !in expected && account <= U64_MAX
    ensures InOrder(expected[s := account], log, FirstFor(first, expected[s := account]))
  {
  }

  lemma BlockInOrder(h: Hist, op: Op)
    requires HistInv(h) && op.OpBlock? && Enabled(h.pool, op)
    ensures InOrder(Step(h.pool, op).expected, h.log + op.ids, h.first)
  {
    hide Inv, InOrder, Takes, RebuildFees, Staged;
    StagedPending(h.pool, op.drops, op.ids);
    ApplyDropsInv(h.pool, op.drops, op.ids);
    IncludesInOrder(ApplyDrops(h.pool, op.drops), op.ids, op.number, 0, op.accounts, h.log, h.first);
  }

  lemma SubmitInOrder(h: Hist, op: Op)
    requires HistInv(h) && op.OpSubmit? && Enabled(h.pool, op)
    ensures var e := Step(h.pool, op).expected; InOrder(e, h.log, FirstFor(h.first, e))
  {
    hide Inv, InOrder, Submit;
    SubmitExpected(h.pool, op.id, op.req);
    if Submit(h.pool, op.id, op.req).0.expected == h.pool.expected {
      SameOrder(h.pool.expected, h.log, h.first);
    } else {
      FirstNonceInOrder(h.pool.expected, h.log, h.first, op.id.sender, op.req.account);
    }
  }

  lemma QuietExpected(p: Pool, op: Op)
    requires Inv(p) && Enabled(p, op) && (op.OpPrune? || op.OpRebuild?)
    ensures Step(p, op).expected == p.expected
  {
    match op
    case OpPrune(ids) =>
      IncludedNotPending(p, ids);
      ForgetAllInv(p, ids);
    case OpRebuild =>
  }

  lemma HistStepInv(h: Hist, op: Op)
    requires HistInv(h) && Enabled(h.pool, op)
    ensures HistInv(HistStep(h, op))
  {
    hide Inv, InOrder, Step, Enabled;
    StepInv(h.pool, op);
    var e := Step(h.pool, op).expected;
    assert HistStep(h, op).first == FirstFor(h.first, e);
    match op
    case OpSubmit(_, _) => SubmitInOrder(h, op);
    case OpBlock(_, ids, _, _, _) =>
      BlockInOrder(h, op);
      SameOrder(e, h.log + ids, h.first);
    case _ =>
      QuietExpected(h.pool, op);
      SameOrder(e, h.log, h.first);
  }

  lemma {:induction false} HistRunInv(h: Hist, ops: seq<Op>, k: Hist)
    requires HistInv(h) && HistRuns(h, ops, k)
    ensures HistInv(k)
    decreases |ops|
  {
    hide HistInv, HistStep, Enabled;
    if ops != [] {
      HistStepInv(h, ops[0]);
      HistRunInv(HistStep(h, ops[0]), ops[1..], k);
    }
  }

  lemma {:induction false} CountByGrows(log: seq<TxId>, i: nat, j: nat, s: Sender)
    requires i <= j <= |log|
    ensures CountBy(log[..i], s) <= CountBy(log[..j], s)
    ensures i < j && log[i].sender == s ==> CountBy(log[..i], s) < CountBy(log[..j], s)
    decreases j
  {
    if i < j {
      assert log[..j][..j - 1] == log[..j - 1] && log[..j][j - 1] == log[j - 1];
      CountByGrows(log, i, j - 1, s);
    }
  }

  lemma OrderedOnce(expected: map<Sender, nat>, log: seq<TxId>, first: map<Sender, nat>, i: nat, j: nat)
    requires InOrder(expected, log, first) && i < j < |log| && log[i].sender == log[j].sender
    ensures log[i].nonce == U64_MAX || log[i].nonce < log[j].nonce
    ensures log[j].nonce < U64_MAX ==>
              log[j].nonce - log[i].nonce == CountBy(log[..j], log[j].sender) - CountBy(log[..i], log[i].sender)
  {
    CountByGrows(log, i, j, log[i].sender);
  }

  /** Over whole runs, pruning included, no transaction is included twice and each sender's nonces are included
      in order and without a gap. The one exception is nonce `u64::MAX`, where the counter saturates. */
  lemma IncludedOnce(cfg: Config, ops: seq<Op>, k: Hist, i: nat, j: nat)
    requires HistRuns(Hist(Fresh(cfg), [], map[]), ops, k) && i < j < |k.log|
    ensures k.log[i] == k.log[j] ==> k.log[i].nonce == U64_MAX
    ensures k.log[i].sender == k.log[j].sender && k.log[j].nonce < U64_MAX
            ==> k.log[j].nonce - k.log[i].nonce
                == CountBy(k.log[..j], k.log[j].sender) - CountBy(k.log[..i], k.log[i].sender)
    ensures CountBy(k.log[..i], k.log[i].sender) == 0 ==> Get(k.first, k.log[i].sender) == Some(k.log[i].nonce)
  {
    hide Inv, HistRuns;
    FreshHist(cfg);
    HistRunInv(Hist(Fresh(cfg), [], map[]), ops, k);
    if k.log[i].sender == k.log[j].sender { OrderedOnce(k.pool.expected, k.log, k.first, i, j); }
  }

  // ---------------------------------------------------------------- putting runs together

  lemma {:induction false} RunsAppend(h: Hist, a: seq<Op>, mid: Hist, b: seq<Op>, k: Hist)
    requires HistRuns(h, a, mid) && HistRuns(mid, b, k)
    ensures HistRuns(h, a + b, k)
    decreases |a|
  {
    hide HistStep, Enabled;
    if a == [] {
      assert a + b == b;
    } else {
      assert (a + b)[1..] == a[1..] + b;
      RunsAppend(HistStep(h, a[0]), a[1..], mid, b, k);
    }
  }

  lemma QuietLog(h: Hist, op: Op)
    requires !op.OpBlock?
    ensures HistStep(h, op).log == h.log && HistStep(h, op).pool == Step(h.pool, op)
  {
  }

  lemma RunNil(h: Hist)
    ensures HistRuns(h, [], h)
  {
  }

  lemma RunCons(h: Hist, op: Op, rest: seq<Op>, k: Hist)
    requires Enabled(h.pool, op) && HistRuns(HistStep(h, op), rest, k)
    ensures HistRuns(h, [op] + rest, k)
  {
  }
}
