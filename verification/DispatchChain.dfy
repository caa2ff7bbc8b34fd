/** The update queue driven by the chain: block production records the intents of the transactions it commits, so the
    replay safety of the nonce rule bounds how often a request is dispatched. */
module DispatchChain {
  import opened Common
  import opened Types
  import opened Ledger
  import opened Prune
  import opened PruneSpec
  import opened ChainRun
  import opened ChainHistory
  import opened ChainReplay
  import Dispatch
  import M = Mempool
  import C = DispatchCount
  import S = DispatchSafe

  type Id = Dispatch.Id
  type Deriver = (TxId, nat) -> nat

  // ---------------------------------------------------------------- the ids of a block

  lemma {:induction false} TxIdsOnce(derive: Deriver, tx: TxId, intents: seq<bool>, at: nat, id: Id)
    requires at <= |intents|
    ensures multiset(Dispatch.IdsOfTx(derive, tx, intents, at))[id] <= (if id.tx == tx && at <= id.log then 1 else 0)
    decreases |intents| - at
  {
    if at < |intents| { TxIdsOnce(derive, tx, intents, at + 1, id); }
  }

  /** A block names an id at most once for each time it lists the transaction. */
  lemma {:induction false} BlockIdsOnce(derive: Deriver, txs: seq<TxId>, intents: seq<seq<bool>>, id: Id)
    requires |intents| == |txs|
    ensures multiset(Dispatch.IdsOfBlock(derive, txs, intents))[id] <= multiset(txs)[id.tx]
    decreases |txs|
  {
    if txs != [] {
      TxIdsOnce(derive, txs[0], intents[0], 0, id);
      BlockIdsOnce(derive, txs[1..], intents[1..], id);
      assert txs == [txs[0]] + txs[1..];
    }
  }

  // ---------------------------------------------------------------- chain and queue together

  datatype Sys = Sys(chain: Chain, queue: Dispatch.State)

  /** An operation of the chain, with the intents in the logs of what it commits, or of the queue. */
  datatype SysOp = OnChain(op: ChainOp, intents: seq<seq<bool>>, now: nat) | OnQueue(step: Dispatch.Op)

  /** What a committed block has the queue do, if the operation commits one. */
  ghost function Recording(derive: Deriver, c: Chain, op: SysOp): Dispatch.Op
    requires op.OnChain? && |op.intents| == |Committed(c, op.op)|
  {
    Dispatch.OpBlock(Dispatch.IdsOfBlock(derive, Committed(c, op.op), op.intents), op.now)
  }

  ghost predicate SysCan(derive: Deriver, s: Sys, op: SysOp) {
    match op
    case OnChain(c, intents, _) =>
      && Can(s.chain, c) && |intents| == |Committed(s.chain, c)|
      && Dispatch.Enabled(s.queue, Recording(derive, s.chain, op))
    case OnQueue(q) => !q.OpBlock? && Dispatch.Enabled(s.queue, q)
  }

  /** `mining_tick` records and schedules after every block it produces; nothing else on the chain touches the queue. */
  ghost function SysStep(derive: Deriver, s: Sys, op: SysOp): Sys
    requires SysCan(derive, s, op)
  {
    match op
    case OnChain(c, _, _) =>
      Sys(ChainStep(s.chain, c),
          if Committed(s.chain, c) == [] then s.queue else Dispatch.Step(s.queue, Recording(derive, s.chain, op)))
    case OnQueue(q) => s.(queue := Dispatch.Step(s.queue, q))
  }

  ghost predicate SysRuns(derive: Deriver, s: Sys, ops: seq<SysOp>, e: Sys)
    decreases |ops|
  {
    if ops == [] then s == e else SysCan(derive, s, ops[0]) && SysRuns(derive, SysStep(derive, s, ops[0]), ops[1..], e)
  }

  /** The operations of the chain in a run. */
  function ChainPart(ops: seq<SysOp>): seq<ChainOp>
    decreases |ops|
  {
    if ops == [] then []
    else if ops[0].OnChain? then [ops[0].op] + ChainPart(ops[1..])
    else ChainPart(ops[1..])
  }

  /** Every transaction a run commits, in order. */
  ghost function TxLog(s: Sys, ops: seq<SysOp>): seq<TxId> { ChainLog(s.chain, ChainPart(ops)) }

  ghost function CommittedBy(s: Sys, op: SysOp): seq<TxId> { if op.OnChain? then Committed(s.chain, op.op) else [] }

  lemma TxLogHead(derive: Deriver, s: Sys, ops: seq<SysOp>)
    requires ops != [] && SysCan(derive, s, ops[0])
    ensures TxLog(s, ops) == CommittedBy(s, ops[0]) + TxLog(SysStep(derive, s, ops[0]), ops[1..])
  {
    hide Can, ChainStep, Committed, Dispatch.Step, Dispatch.Enabled;
    if ops[0].OnChain? {
      assert ChainPart(ops)[0] == ops[0].op && ChainPart(ops)[1..] == ChainPart(ops[1..]);
    }
  }

  lemma {:induction false} SysChainRuns(derive: Deriver, s: Sys, ops: seq<SysOp>, e: Sys)
    requires SysRuns(derive, s, ops, e)
    ensures ChainRuns(s.chain, ChainPart(ops), e.chain)
    decreases |ops|
  {
    hide Can, ChainStep, Committed, Dispatch.Step, Dispatch.Enabled;
    if ops != [] {
      SysChainRuns(derive, SysStep(derive, s, ops[0]), ops[1..], e);
      if ops[0].OnChain? { assert ChainPart(ops)[0] == ops[0].op && ChainPart(ops)[1..] == ChainPart(ops[1..]); }
    }
  }

  /** A step keeps the queue sane and records each id at most as often as it commits the transaction. */
  lemma SysStepSane(derive: Deriver, s: Sys, op: SysOp)
    requires C.Sane(s.queue) && SysCan(derive, s, op)
    ensures var t := SysStep(derive, s, op);
            && C.Sane(t.queue)
            && forall id :: t.queue.recorded[id] <= s.queue.recorded[id] + multiset(CommittedBy(s, op))[id.tx]
  {
    hide C.Sane, Can, ChainStep, Committed, Dispatch.Step, Dispatch.Enabled, Dispatch.IdsOfBlock;
    match op
    case OnChain(c, intents, now) =>
      var block := Recording(derive, s.chain, op);
      C.StepSane(s.queue, block);
      forall id ensures multiset(block.ids)[id] <= multiset(Committed(s.chain, c))[id.tx] {
        BlockIdsOnce(derive, Committed(s.chain, c), intents, id);
      }
    case OnQueue(q) =>
      C.StepSane(s.queue, q);
  }

  lemma {:induction false} SysRunSane(derive: Deriver, s: Sys, ops: seq<SysOp>, e: Sys, id: Id)
    requires C.Sane(s.queue) && SysRuns(derive, s, ops, e)
    ensures C.Sane(e.queue) && e.queue.recorded[id] <= s.queue.recorded[id] + multiset(TxLog(s, ops))[id.tx]
    decreases |ops|
  {
    hide C.Sane, SysCan, SysStep, CommittedBy, TxLog;
    if ops != [] {
      SysStepSane(derive, s, ops[0]);
      TxLogHead(derive, s, ops);
      SysRunSane(derive, SysStep(derive, s, ops[0]), ops[1..], e, id);
    }
  }

  ghost function FreshSys(cfg: M.Config, codec: Codec): Sys {
    Sys(Chain(M.Fresh(cfg), FreshLedger(codec)), Dispatch.EMPTY)
  }

  lemma {:induction false} CountOne(log: seq<TxId>, tx: TxId)
    requires forall i, j :: 0 <= i < j < |log| ==> log[i] != tx || log[j] != tx
    ensures multiset(log)[tx] <= 1
    decreases |log|
  {
    if log != [] {
      var n := |log| - 1;
      CountOne(log[..n], tx);
      assert log == log[..n] + [log[n]];
      if log[n] == tx { assert tx !in log[..n]; }
    }
  }

  /** The whole run commits a transaction at most once unless it carries the last nonce. */
  lemma TxOnce(derive: Deriver, cfg: M.Config, codec: Codec, ops: seq<SysOp>, e: Sys, tx: TxId)
    requires RoundTrips(codec) && SysRuns(derive, FreshSys(cfg, codec), ops, e) && tx.nonce != U64_MAX
    ensures multiset(TxLog(FreshSys(cfg, codec), ops))[tx] <= 1
  {
    hide RoundTrips, SysRuns, ChainLog, ChainRuns, ChainPart;
    SysChainRuns(derive, FreshSys(cfg, codec), ops, e);
    var log := TxLog(FreshSys(cfg, codec), ops);
    forall i, j | 0 <= i < j < |log| ensures log[i] != tx || log[j] != tx {
      CommittedOnce(cfg, codec, ChainPart(ops), e.chain, i, j);
    }
    CountOne(log, tx);
  }

  /** Over any run of the chain and the queue together, with trims, repairs, upgrades and prunes anywhere in it, a
      request is recorded at most once and enters dispatch at most once, unless its transaction carries the last
      nonce. */
  lemma AtMostOnce(derive: Deriver, cfg: M.Config, codec: Codec, ops: seq<SysOp>, e: Sys, id: Id)
    requires RoundTrips(codec) && SysRuns(derive, FreshSys(cfg, codec), ops, e) && id.tx.nonce != U64_MAX
    ensures multiset(e.queue.log)[id] <= e.queue.recorded[id] <= 1
  {
    hide RoundTrips, SysRuns, TxLog;
    C.EmptySane();
    SysRunSane(derive, FreshSys(cfg, codec), ops, e, id);
    TxOnce(derive, cfg, codec, ops, e, id.tx);
    assert multiset(e.queue.log)[id] + C.Waiting(e.queue.queue, id) <= e.queue.recorded[id];
  }

  // ---------------------------------------------------------------- without the last nonce

  /** Ids never recorded before, each once, are fresh at their turn. */
  lemma {:induction false} FreshWhenOnce(d: Dispatch.State, ids: seq<Id>, now: nat)
    requires forall x :: x in ids ==> d.recorded[x] + multiset(ids)[x] <= 1
    ensures S.Fresh(d, ids, now)
    decreases |ids|
  {
    if ids != [] {
      var e := Dispatch.Record(d, ids[0], now);
      assert ids == [ids[0]] + ids[1..];
      assert ids[0] in multiset(ids);
      forall x | x in ids[1..] ensures e.recorded[x] + multiset(ids[1..])[x] <= 1 {
        assert x in ids && x in multiset(ids[1..]);
        assert e.recorded[x] <= d.recorded[x] + multiset{ids[0]}[x];
      }
      FreshWhenOnce(e, ids[1..], now);
    }
  }

  lemma StepStrict(derive: Deriver, s: Sys, op: SysOp, done: seq<TxId>)
    requires S.Inv(s.queue) && C.Sane(s.queue) && SysCan(derive, s, op)
    requires forall id: Id :: s.queue.recorded[id] <= multiset(done)[id.tx]
    requires forall tx :: multiset(done + CommittedBy(s, op))[tx] <= 1
    ensures var t := SysStep(derive, s, op);
            S.Inv(t.queue) && C.Sane(t.queue)
            && forall id: Id :: t.queue.recorded[id] <= multiset(done + CommittedBy(s, op))[id.tx]
  {
    hide S.Inv, C.Sane, Can, ChainStep, Committed, Dispatch.Step, Dispatch.Enabled, Dispatch.IdsOfBlock;
    SysStepSane(derive, s, op);
    match op
    case OnChain(c, intents, now) =>
      var block := Recording(derive, s.chain, op);
      forall x | x in block.ids ensures s.queue.recorded[x] + multiset(block.ids)[x] <= 1 {
        BlockIdsOnce(derive, Committed(s.chain, c), intents, x);
        assert multiset(done + CommittedBy(s, op))[x.tx] <= 1;
      }
      FreshWhenOnce(s.queue, block.ids, now);
      S.StepInv(s.queue, block);
    case OnQueue(q) =>
      S.StepInv(s.queue, q);
  }

  lemma {:induction false} RunStrict(derive: Deriver, s: Sys, ops: seq<SysOp>, e: Sys, done: seq<TxId>)
    requires S.Inv(s.queue) && C.Sane(s.queue) && SysRuns(derive, s, ops, e)
    requires forall id: Id :: s.queue.recorded[id] <= multiset(done)[id.tx]
    requires forall tx :: multiset(done + TxLog(s, ops))[tx] <= 1
    ensures S.Inv(e.queue)
    decreases |ops|
  {
    hide S.Inv, C.Sane, SysCan, SysStep, CommittedBy, TxLog;
    if ops != [] {
      TxLogHead(derive, s, ops);
      var now, rest := CommittedBy(s, ops[0]), TxLog(SysStep(derive, s, ops[0]), ops[1..]);
      assert done + TxLog(s, ops) == (done + now) + rest;
      forall tx ensures multiset(done + now)[tx] <= 1 {
        assert multiset((done + now) + rest)[tx] == multiset(done + now)[tx] + multiset(rest)[tx];
      }
      StepStrict(derive, s, ops[0], done);
      RunStrict(derive, SysStep(derive, s, ops[0]), ops[1..], e, done + now);
    }
  }

  /** As long as no transaction of the last nonce is committed, the queue is exact: a request is Queued exactly when it
      has one queue entry, no request entered dispatch twice, one tick at most is alive and the pop meets no error. */
  lemma QueueExact(derive: Deriver, cfg: M.Config, codec: Codec, ops: seq<SysOp>, e: Sys)
    requires RoundTrips(codec) && SysRuns(derive, FreshSys(cfg, codec), ops, e)
    requires forall tx :: tx in TxLog(FreshSys(cfg, codec), ops) ==> tx.nonce != U64_MAX
    ensures S.Inv(e.queue) && S.OneEach(e.queue)
  {
    hide RoundTrips, SysRuns, TxLog, S.Inv, S.OneEach;
    var s := FreshSys(cfg, codec);
    S.EmptyInv();
    C.EmptySane();
    forall tx ensures multiset([] + TxLog(s, ops))[tx] <= 1 {
      assert [] + TxLog(s, ops) == TxLog(s, ops);
      if tx in TxLog(s, ops) { TxOnce(derive, cfg, codec, ops, e, tx); }
    }
    RunStrict(derive, s, ops, e, []);
    S.InvMeans(e.queue);
  }
}
