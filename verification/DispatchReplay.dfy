/** The one way a request can be dispatched twice, shown on the chain and the queue together: a transaction of the last
    nonce is committed, its request dispatched and trimmed, its block pruned, and it is committed again. */
module DispatchReplay {
  import opened Common
  import opened Types
  import opened Ledger
  import opened Dispatch
  import opened DispatchCount
  import opened DispatchChain
  import P = Prune
  import R = ChainRun
  import H = ChainHistory
  import X = ChainReplay
  import K = BlockCodec
  import Y = MempoolReplay
  import M = Mempool
  import S = DispatchSafe

  // ---------------------------------------------------------------- logs and their ids

  /** The logs of a transaction whose only intent is at index `log`. */
  function OnlyAt(log: nat): seq<bool> { seq(log + 1, i => i == log) }

  /** As many intents as requests are kept. */
  function Many(): seq<bool> { seq(MAX_REQUESTS, _ => true) }

  lemma {:induction false} OnlyIds(derive: Deriver, tx: TxId, log: nat, at: nat)
    requires at <= log <= U32_MAX
    ensures IdsOfTx(derive, tx, OnlyAt(log), at) == [Id(derive(tx, log), tx, log)]
    decreases log - at
  {
    if at < log {
      OnlyIds(derive, tx, log, at + 1);
    } else {
      assert IdsOfTx(derive, tx, OnlyAt(log), log + 1) == [];
    }
  }

  lemma {:induction false} ManyIds(derive: Deriver, tx: TxId, at: nat)
    requires at <= MAX_REQUESTS
    ensures |IdsOfTx(derive, tx, Many(), at)| == MAX_REQUESTS - at
    decreases MAX_REQUESTS - at
  {
    if at < MAX_REQUESTS { ManyIds(derive, tx, at + 1); }
  }

  // ---------------------------------------------------------------- trimmed

  /** `x` is the only completed request. */
  predicate OnlyCompleted(requests: map<Id, Req>, x: Id) {
    forall y :: y in requests ==> (requests[y].status.Completed() <==> y == x)
  }

  lemma TrimsIt(requests: map<Id, Req>, queue: map<nat, Id>, x: Id)
    requires x in requests && OnlyCompleted(requests, x) && |requests| == MAX_REQUESTS + 1
    ensures x !in Trim(requests, queue).0
  {
    Shrinks(requests, x);
    assert OldestCompleted(requests) == Some(x);
  }

  /** New requests up to one more than are kept push the completed one out. */
  lemma {:induction false} FillUp(d: State, ids: seq<Id>, now: nat, x: Id)
    requires x in d.requests && OnlyCompleted(d.requests, x) && ids != [] && |d.requests| + |ids| == MAX_REQUESTS + 1
    requires forall y :: y in ids ==> y !in d.requests && multiset(ids)[y] <= 1
    ensures x !in RecordAll(d, ids, now).requests
    decreases |ids|
  {
    var rest := ids[1..];
    assert ids == [ids[0]] + rest;
    assert ids[0] in multiset(ids);
    var stored := d.requests[ids[0] := NewReq(now)];
    assert stored - {ids[0]} == d.requests;
    Shrinks(stored, ids[0]);
    if rest == [] {
      TrimsIt(stored, d.queue[d.tail := ids[0]], x);
    } else {
      assert Record(d, ids[0], now).requests == stored;
      forall y | y in rest ensures y !in stored && multiset(rest)[y] <= 1 {
        assert y in ids && y in multiset(rest);
      }
      FillUp(Record(d, ids[0], now), rest, now, x);
    }
  }

  // ---------------------------------------------------------------- the queue's part

  /** The one request there is has been dispatched and answered. */
  ghost predicate Answered(d: State, id: Id) {
    && S.Inv(d) && d.requests.Keys == {id} && d.requests[id].status.Completed()
    && d.log == [id] && d.tail == 1 && d.recorded == multiset{id}
  }

  const FIRE: Op := OpFire(0)

  lemma FirstDispatch(id: Id)
    ensures var q := Step(EMPTY, OpBlock([id], 0));
            && Enabled(q, FIRE) && Enabled(Step(q, FIRE), OpAnswer(id, 0, DONE))
            && Answered(Step(Step(q, FIRE), OpAnswer(id, 0, DONE)), id)
  {
    var q := FirstRecorded(id);
    FirstFired(id, q);
    hide S.Inv, Fire;
    FirstAnswered(id, Step(q, FIRE));
  }

  lemma FirstAnswered(id: Id, f: State)
    requires S.Inv(f) && f.requests.Keys == {id} && f.queue == map[] && f.tail == 1 && f.inFlight == multiset{id}
    requires f.recorded == multiset{id} && f.log == [id]
    ensures Enabled(f, OpAnswer(id, 0, DONE)) && Answered(Step(f, OpAnswer(id, 0, DONE)), id)
  {
    hide S.Inv;
    S.AnswerInv(f, id, 0, DONE);
  }

  lemma FirstRecorded(id: Id) returns (q: State)
    ensures q == Step(EMPTY, OpBlock([id], 0)) && S.Inv(q)
    ensures q == State(map[id := NewReq(0)], map[0 := id], 0, 1, true, 1, multiset{}, multiset{id}, q.trimmed, [])
  {
    q := Step(EMPTY, OpBlock([id], 0));
    RecordAllOne(EMPTY, id, 0);
    hide RecordAll;
    assert |map[id := NewReq(0)]| == 1;
    S.EmptyInv();
    S.RecordInv(EMPTY, id, 0);
  }

  lemma FirstFired(id: Id, q: State)
    requires q == State(map[id := NewReq(0)], map[0 := id], 0, 1, true, 1, multiset{}, multiset{id}, q.trimmed, [])
             && S.Inv(q)
    ensures Enabled(q, FIRE)
    ensures var f := Step(q, FIRE);
            && S.Inv(f) && f.requests.Keys == {id} && f.queue == map[] && f.tail == 1 && f.inFlight == multiset{id}
            && f.recorded == multiset{id} && f.log == [id]
  {
    S.FireInv(q, 0);
    var e := q.(timers := 0);
    assert Pop(e, 0).1 == Got(id);
  }

  lemma ManyRecorded(d: State, ids: seq<Id>, id: Id)
    requires Answered(d, id) && Sane(d) && |ids| == MAX_REQUESTS
    requires forall y :: y in ids ==> y != id && multiset(ids)[y] <= 1
    ensures Enabled(d, OpBlock(ids, 0))
    ensures var e := Step(d, OpBlock(ids, 0));
            S.Inv(e) && id !in e.requests && id in e.log && e.log == d.log && e.tail < U64_MAX
  {
    hide S.Inv, Core, RecordAll;
    FreshWhenOnce(d, ids, 0);
    S.StepInv(d, OpBlock(ids, 0));
    RecordAllCore(d, ids, 0);
    assert |d.requests| == 1 by { assert |d.requests| == |d.requests.Keys|; }
    FillUp(d, ids, 0, id);
  }

  // ---------------------------------------------------------------- runs of both

  lemma SysNone(derive: Deriver, s: Sys)
    ensures SysRuns(derive, s, [], s)
  {
  }

  lemma SysCons(derive: Deriver, s: Sys, op: SysOp, ops: seq<SysOp>, e: Sys)
    requires SysCan(derive, s, op) && SysRuns(derive, SysStep(derive, s, op), ops, e)
    ensures SysRuns(derive, s, [op] + ops, e)
  {
    hide SysCan, SysStep;
  }

  lemma {:induction false} SysAppend(derive: Deriver, s: Sys, a: seq<SysOp>, mid: Sys, b: seq<SysOp>, e: Sys)
    requires SysRuns(derive, s, a, mid) && SysRuns(derive, mid, b, e)
    ensures SysRuns(derive, s, a + b, e)
    decreases |a|
  {
    hide SysCan, SysStep;
    if a == [] {
      assert a + b == b;
    } else {
      assert (a + b)[1..] == a[1..] + b;
      SysAppend(derive, SysStep(derive, s, a[0]), a[1..], mid, b, e);
    }
  }

  function QueueOps(ops: seq<Op>): seq<SysOp> { seq(|ops|, i requires 0 <= i < |ops| => OnQueue(ops[i])) }

  lemma {:induction false} SysQueue(derive: Deriver, c: P.Chain, q: State, ops: seq<Op>, e: State)
    requires NoBlocks(ops) && Runs(q, ops, e)
    ensures SysRuns(derive, Sys(c, q), QueueOps(ops), Sys(c, e))
    decreases |ops|
  {
    hide Enabled, Step;
    if ops != [] {
      assert QueueOps(ops) == [OnQueue(ops[0])] + QueueOps(ops[1..]);
      SysQueue(derive, c, Step(q, ops[0]), ops[1..], e);
      SysCons(derive, Sys(c, q), OnQueue(ops[0]), QueueOps(ops[1..]), Sys(c, e));
    }
  }

  lemma BlockOfOneIds(derive: Deriver, tx: TxId, intents: seq<bool>)
    ensures IdsOfBlock(derive, [tx], [intents]) == IdsOfTx(derive, tx, intents, 0)
  {
    assert IdsOfBlock(derive, [tx][1..], [intents][1..]) == [];
    hide IdsOfTx;
  }

  /** An operation of the chain that commits nothing leaves the queue alone. */
  lemma SysQuiet(derive: Deriver, c: P.Chain, q: State, op: R.ChainOp, ops: seq<SysOp>, e: Sys)
    requires R.Can(c, op) && H.Committed(c, op) == [] && q.tail <= U64_MAX
    requires SysRuns(derive, Sys(R.ChainStep(c, op), q), ops, e)
    ensures SysRuns(derive, Sys(c, q), [OnChain(op, [], 0)] + ops, e)
  {
    hide R.Can, R.ChainStep, H.Committed, SysRuns, Step;
    SysCons(derive, Sys(c, q), OnChain(op, [], 0), ops, e);
  }

  function RoundOps(tx: TxId, intents: seq<bool>): seq<SysOp> {
    [OnChain(X.Sub(tx), [], 0)] + ([OnChain(X.Blk(tx), [intents], 0)] + [])
  }

  /** A submission and its block, on both. */
  lemma SysRound(derive: Deriver, c: P.Chain, tx: TxId, d: P.Chain, q: State, intents: seq<bool>)
    requires X.Rounds(c, tx, d) && Enabled(q, OpBlock(IdsOfTx(derive, tx, intents, 0), 0))
    ensures SysRuns(derive, Sys(c, q), RoundOps(tx, intents),
            Sys(d, Step(q, OpBlock(IdsOfTx(derive, tx, intents, 0), 0))))
  {
    hide R.Can, R.ChainStep, H.Committed, SysRuns, Step, IdsOfTx, X.Sub, X.Blk, RecordAll;
    var mid := R.ChainStep(c, X.Sub(tx));
    var e := Sys(d, Step(q, OpBlock(IdsOfTx(derive, tx, intents, 0), 0)));
    BlockOfOneIds(derive, tx, intents);
    SysNone(derive, e);
    SysCons(derive, Sys(mid, q), OnChain(X.Blk(tx), [intents], 0), [], e);
    SubCommitsNone(c, tx);
    SysQuiet(derive, c, q, X.Sub(tx), [OnChain(X.Blk(tx), [intents], 0)] + [], e);
  }

  lemma SubCommitsNone(c: P.Chain, tx: TxId)
    ensures H.Committed(c, X.Sub(tx)) == []
  {
    X.NothingCommitted(c, X.Sub(tx));
  }

  // ---------------------------------------------------------------- twice

  /** The queue through the run: one request dispatched, answered, and pushed out by the many of the next block. */
  ghost function QueueOnce(id: Id): State {
    Step(EMPTY, OpBlock([id], 0))
  }

  ghost function QueueAnswered(id: Id): State
    requires Enabled(QueueOnce(id), FIRE) && Enabled(Step(QueueOnce(id), FIRE), OpAnswer(id, 0, DONE))
  {
    Step(Step(QueueOnce(id), FIRE), OpAnswer(id, 0, DONE))
  }

  lemma AnsweredSane(id: Id)
    requires Enabled(QueueOnce(id), FIRE) && Enabled(Step(QueueOnce(id), FIRE), OpAnswer(id, 0, DONE))
    ensures Sane(QueueAnswered(id)) && Runs(QueueOnce(id), [FIRE, OpAnswer(id, 0, DONE)], QueueAnswered(id))
    ensures NoBlocks([FIRE, OpAnswer(id, 0, DONE)])
  {
    hide Sane, Step, Enabled;
    EmptySane();
    assert Enabled(EMPTY, OpBlock([id], 0)) by { OneFits(id); }
    StepSane(EMPTY, OpBlock([id], 0));
    StepSane(QueueOnce(id), FIRE);
    StepSane(Step(QueueOnce(id), FIRE), OpAnswer(id, 0, DONE));
    RunsTwo(QueueOnce(id), FIRE, OpAnswer(id, 0, DONE));
  }

  lemma RunsTwo(d: State, a: Op, b: Op)
    requires Enabled(d, a) && Enabled(Step(d, a), b)
    ensures Runs(d, [a, b], Step(Step(d, a), b))
  {
    hide Enabled, Step;
    var e := Step(Step(d, a), b);
    assert Runs(e, [], e);
    assert [b][1..] == [] && [a, b][1..] == [b];
    assert Runs(Step(d, a), [b], e);
  }

  lemma OneFits(id: Id)
    ensures Enabled(EMPTY, OpBlock([id], 0))
  {
  }

  lemma ManyOthers(derive: Deriver, tx: TxId, id: Id)
    requires tx != id.tx
    ensures var ids := IdsOfTx(derive, tx, Many(), 0);
            |ids| == MAX_REQUESTS && forall y :: y in ids ==> y != id && multiset(ids)[y] <= 1
  {
    var ids := IdsOfTx(derive, tx, Many(), 0);
    ManyIds(derive, tx, 0);
    forall y | y in ids ensures y != id && multiset(ids)[y] <= 1 {
      TxIdsOnce(derive, tx, Many(), 0, y);
      assert y in multiset(ids);
    }
  }

  /** From the pushed-out request on: recorded again, and dispatched again. */
  lemma Again(derive: Deriver, c: P.Chain, d: P.Chain, q: State, id: Id) returns (ops: seq<SysOp>, e: State)
    requires R.Can(c, X.PRUNE) && H.Committed(c, X.PRUNE) == [] && X.Rounds(R.ChainStep(c, X.PRUNE), id.tx, d)
    requires S.Inv(q) && id !in q.requests && id in q.log && q.tail < U64_MAX
    requires id.log <= U32_MAX && id.hash == derive(id.tx, id.log)
    ensures SysRuns(derive, Sys(c, q), ops, Sys(d, e)) && multiset(e.log)[id] > 1
  {
    hide R.Can, R.ChainStep, H.Committed, X.Rounds, SysRuns, S.Inv, Step, Runs, Drainable;
    OnlyIds(derive, id.tx, id.log, 0);
    hide IdsOfTx;
    var cut := R.ChainStep(c, X.PRUNE);
    assert Enabled(q, OpBlock([id], 0));
    SysRound(derive, cut, id.tx, d, q, OnlyAt(id.log));
    RecordedAgain(q, id, 0);
    var s := Step(q, OpBlock([id], 0));
    var drain;
    drain, e := Drain(s, q.tail);
    assert id in multiset(q.log);
    SysQueue(derive, d, s, drain, e);
    SysAppend(derive, Sys(cut, q), RoundOps(id.tx, OnlyAt(id.log)), Sys(d, s), QueueOps(drain), Sys(d, e));
    SysQuiet(derive, c, q, X.PRUNE, RoundOps(id.tx, OnlyAt(id.log)) + QueueOps(drain), Sys(d, e));
    ops := [OnChain(X.PRUNE, [], 0)] + (RoundOps(id.tx, OnlyAt(id.log)) + QueueOps(drain));
  }

  /** Up to the point where the request is pushed out. */
  lemma UntilPushedOut(derive: Deriver, c: P.Chain, one: P.Chain, two: P.Chain, id: Id)
    returns (ops: seq<SysOp>, q: State)
    requires X.Rounds(c, id.tx, one) && X.Rounds(one, K.Other(id.tx), two)
    requires id.log <= U32_MAX && id.hash == derive(id.tx, id.log)
    ensures SysRuns(derive, Sys(c, EMPTY), ops, Sys(two, q))
    ensures S.Inv(q) && id !in q.requests && id in q.log && q.log == [id] && q.tail < U64_MAX
  {
    hide X.Rounds, SysRuns, S.Inv, Step, Runs, Enabled, Answered, Sane, Many;
    OnlyIds(derive, id.tx, id.log, 0);
    hide IdsOfTx;
    OneFits(id);
    FirstDispatch(id);
    AnsweredSane(id);
    var first, answered := QueueOnce(id), QueueAnswered(id);
    var tail := [FIRE, OpAnswer(id, 0, DONE)];
    SysRound(derive, c, id.tx, one, EMPTY, OnlyAt(id.log));
    SysQueue(derive, one, first, tail, answered);
    var ids := IdsOfTx(derive, K.Other(id.tx), Many(), 0);
    ManyOthers(derive, K.Other(id.tx), id);
    ManyRecorded(answered, ids, id);
    SysRound(derive, one, K.Other(id.tx), two, answered, Many());
    q := Step(answered, OpBlock(ids, 0));
    var more := QueueOps(tail) + RoundOps(K.Other(id.tx), Many());
    SysAppend(derive, Sys(one, first), QueueOps(tail), Sys(one, answered), RoundOps(K.Other(id.tx), Many()),
        Sys(two, q));
    SysAppend(derive, Sys(c, EMPTY), RoundOps(id.tx, OnlyAt(id.log)), Sys(one, first), more, Sys(two, q));
    ops := RoundOps(id.tx, OnlyAt(id.log)) + more;
    assert q.log == [id] by { AnsweredLog(answered, id); }
  }

  lemma AnsweredLog(d: State, id: Id)
    requires Answered(d, id)
    ensures d.log == [id]
  {
  }

  /** The run from the empty system dispatches `id` more than once. */
  ghost predicate DispatchesTwice(derive: Deriver, cfg: M.Config, codec: Codec, ops: seq<SysOp>, e: Sys, id: Id) {
    SysRuns(derive, FreshSys(cfg, codec), ops, e) && multiset(e.queue.log)[id] > 1
  }

  lemma LastNonceDispatchedTwice(derive: Deriver, codec: Codec, id: Id) returns (ops: seq<SysOp>, e: Sys)
    requires RoundTrips(codec) && K.SmallBlocks(codec, id.tx) && id.tx.nonce == U64_MAX
    requires id.log <= U32_MAX && id.hash == derive(id.tx, id.log)
    ensures DispatchesTwice(derive, Y.FREE, codec, ops, e, id)
  {
    hide SysRuns, RoundTrips, K.SmallBlocks, X.Rounds, R.Can, R.ChainStep, H.Committed, S.Inv, M.Fresh, FreshLedger;
    var one, two, d := X.Stations(codec, id.tx);
    var c := P.Chain(M.Fresh(Y.FREE), FreshLedger(codec));
    var first, q := UntilPushedOut(derive, c, one, two, id);
    var second, last := Again(derive, two, d, q, id);
    e := Sys(d, last);
    SysAppend(derive, FreshSys(Y.FREE, codec), first, Sys(two, q), second, e);
    ops := first + second;
  }

  /** A request can be dispatched more than once by some run exactly when its transaction carries the last nonce. */
  lemma DispatchedTwiceIff(derive: Deriver, codec: Codec, id: Id)
    requires RoundTrips(codec) && K.SmallBlocks(codec, id.tx) && id.log <= U32_MAX && id.hash == derive(id.tx, id.log)
    ensures (exists cfg, ops, e :: DispatchesTwice(derive, cfg, codec, ops, e, id)) <==> id.tx.nonce == U64_MAX
  {
    hide SysRuns, RoundTrips, K.SmallBlocks;
    if cfg, ops, e :| DispatchesTwice(derive, cfg, codec, ops, e, id) {
      if id.tx.nonce != U64_MAX { AtMostOnce(derive, cfg, codec, ops, e, id); }
    }
    if id.tx.nonce == U64_MAX {
      var ops, e := LastNonceDispatchedTwice(derive, codec, id);
    }
  }

  /** The same without naming a codec. */
  lemma SomeSystemDispatchesTwiceIff(derive: Deriver, id: Id)
    requires id.log <= U32_MAX && id.hash == derive(id.tx, id.log)
    ensures (exists cfg, codec, ops, e :: RoundTrips(codec) && DispatchesTwice(derive, cfg, codec, ops, e, id))
            <==> id.tx.nonce == U64_MAX
  {
    hide SysRuns, RoundTrips, K.SmallBlocks, DispatchesTwice;
    if cfg, codec, ops, e :| RoundTrips(codec) && DispatchesTwice(derive, cfg, codec, ops, e, id) {
      OnlyLastNonce(derive, cfg, codec, ops, e, id);
    }
    if id.tx.nonce == U64_MAX {
      K.CodecMeetsBoth(id.tx);
      DispatchedTwiceIff(derive, K.CodecFor(id.tx), id);
    }
  }

  lemma OnlyLastNonce(derive: Deriver, cfg: M.Config, codec: Codec, ops: seq<SysOp>, e: Sys, id: Id)
    requires RoundTrips(codec) && DispatchesTwice(derive, cfg, codec, ops, e, id)
    ensures id.tx.nonce == U64_MAX
  {
    hide SysRuns, RoundTrips;
    if id.tx.nonce != U64_MAX { AtMostOnce(derive, cfg, codec, ops, e, id); }
  }
}
