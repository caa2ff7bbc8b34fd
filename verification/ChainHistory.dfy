/** What a whole chain includes over any run: every run of the chain is a run of its mempool, so the replay safety of
    the nonce rule holds for the chain, through pruning. */
module ChainHistory {
  import opened Common
  import opened Types
  import opened Ledger
  import opened Mempool
  import opened Prune
  import opened PruneSpec
  import opened ChainRun
  import R = MempoolRun
  import H = MempoolHistory
  import S = MempoolSafe

  /** The transactions of the block an operation committed. */
  ghost function Committed(c: Chain, op: ChainOp): seq<TxId> {
    if op.Block? && Commit(c.ledger, op.txs, op.now, op.growOk).Some? then Ids(op.txs) else []
  }

  /** Every transaction a run included, in order. */
  ghost function ChainLog(c: Chain, ops: seq<ChainOp>): seq<TxId>
    decreases |ops|
  {
    if ops == [] || !Can(c, ops[0]) then [] else Committed(c, ops[0]) + ChainLog(ChainStep(c, ops[0]), ops[1..])
  }

  lemma OneOp(h: H.Hist, op: R.Op)
    requires R.Enabled(h.pool, op)
    ensures H.HistRuns(h, [op], H.HistStep(h, op))
  {
  }

  /** Releasing blocks is pruning their transactions one block after the other. */
  lemma {:induction false} SweptHist(c: Chain, bs: map<nat, BlockData>, first: nat, upto: nat, h: H.Hist)
    returns (ops: seq<R.Op>, k: H.Hist)
    requires Intact(c, bs, first) && upto <= c.ledger.head + 1 && h.pool == c.pool
    ensures H.HistRuns(h, ops, k) && k.pool == Swept(c, bs, first, upto).pool && k.log == h.log
    decreases upto - first
  {
    hide Intact, H.HistRuns, Release, Chained, LoadBlock;
    IntactParts(c, bs, first);
    ops, k := [], h;
    if first < upto {
      var ids := bs[first].txIds;
      assert forall id :: id in ids ==> InBlock(c.pool.txs, id) by { IntactIncluded(c, bs, first); }
      var op := R.OpPrune(ids);
      var mid := H.HistStep(h, op);
      H.QuietLog(h, op);
      ReleasePool(c, first, ids);
      var st := PruneState(Some(first), 0, None);
      ReleaseIntact(c, bs, first, st);
      var d := WithPrune(Release(c, first, ids), st);
      ReleaseHead(c, first, ids);
      ops, k := SweptHist(d, bs - {first}, first + 1, upto, mid);
      SweptFrame(Release(c, first, ids), st, bs, bs - {first}, first + 1, upto);
      H.RunCons(h, op, ops, k);
      ops := [op] + ops;
    } else {
      H.RunNil(h);
    }
  }

  lemma IntactIncluded(c: Chain, bs: map<nat, BlockData>, n: nat)
    requires Intact(c, bs, n) && n in bs
    ensures forall id :: id in bs[n].txIds ==> InBlock(c.pool.txs, id)
  {
    hide Sound;
    BlockIncluded(c.pool.txs, bs, n);
  }

  lemma ReleasePool(c: Chain, n: nat, ids: seq<TxId>)
    ensures Release(c, n, ids).pool == ForgetAll(c.pool, ids)
  {
  }

  /** To the mempool, drops without inclusions are a block of none under an unchanged base fee. */
  lemma DropsAreABlock(p: Pool, drops: seq<StagedDrop>)
    requires S.Inv(p) && R.Staged(p, drops, [])
    ensures forall accounts ::
              CommitBlock(p, drops, [], 0, accounts, ApplyDrops(p, drops).cfg.baseFee) == ApplyDrops(p, drops)
  {
    hide S.Inv, R.Staged, R.Takes, RebuildFees;
    R.StagedPending(p, drops, []);
    R.ApplyDropsInv(p, drops, []);
    R.RebuildFeesIdentity(ApplyDrops(p, drops));
  }

  lemma SettledPool(c: Chain, bs: map<nat, BlockData>, first: nat)
    requires Settled(c, bs, first)
    ensures S.Inv(c.pool)
  {
    hide S.Inv, Sound, Linked, OldestOk;
  }

  /** One operation of the chain as a run of the mempool. */
  lemma StepHist(c: Chain, bs: map<nat, BlockData>, first: nat, op: ChainOp, h: H.Hist) returns (ops: seq<R.Op>,
                 k: H.Hist)
    requires Settled(c, bs, first) && Can(c, op) && h.pool == c.pool
    ensures H.HistRuns(h, ops, k) && k.pool == ChainStep(c, op).pool && k.log == h.log + Committed(c, op)
  {
    hide Settled, H.HistRuns, PruneBlocks, Commit, Submit, CommitBlock, Ids, R.Staged, Intact;
    ops, k := [], h;
    match op
    case Submission(id, req) =>
      var p := R.OpSubmit(id, req);
      ops, k := [p], H.HistStep(h, p);
      OneOp(h, p);
    case Block(drops, txs, accounts, fee, now, growOk) =>
      if Commit(c.ledger, txs, now, growOk).Some? {
        var p := R.OpBlock(drops, Ids(txs), Commit(c.ledger, txs, now, growOk).value.head, accounts, fee);
        ops, k := [p], H.HistStep(h, p);
        OneOp(h, p);
      } else {
        H.RunNil(h);
      }
    case DropsOnly(drops) =>
      var p := R.OpBlock(drops, [], 0, _ => 0, ApplyDrops(c.pool, drops).cfg.baseFee);
      ops, k := [p], H.HistStep(h, p);
      SettledPool(c, bs, first);
      DropsAreABlock(c.pool, drops);
      OneOp(h, p);
    case Prune(retain, maxOps) =>
      H.RunNil(h);
      var f := PruneBlocksSpec(c, bs, first, retain, maxOps);
      if retain > 0 && maxOps > 0 && c.ledger.head > retain {
        SettledParts(c, bs, first);
        assert f <= c.ledger.head by { hide Swept; IntactParts(c, bs, first); }
        ops, k := SweptHist(c, bs, first, f, h);
      }
    case Rebuild =>
      ops, k := [R.OpRebuild], H.HistStep(h, R.OpRebuild);
      OneOp(h, R.OpRebuild);
  }

  lemma {:induction false} RunHist(c: Chain, bs: map<nat, BlockData>, first: nat, ops: seq<ChainOp>, d: Chain,
                                   h: H.Hist)
    returns (pops: seq<R.Op>, k: H.Hist)
    requires Settled(c, bs, first) && ChainRuns(c, ops, d) && h.pool == c.pool
    ensures H.HistRuns(h, pops, k) && k.pool == d.pool && k.log == h.log + ChainLog(c, ops)
    decreases |ops|
  {
    hide Settled, H.HistRuns, ChainStep, Can, Committed;
    pops, k := [], h;
    if ops == [] {
      H.RunNil(h);
    } else {
      var a, mid := StepHist(c, bs, first, ops[0], h);
      var bs', first' := ChainStepSettled(c, bs, first, ops[0]);
      var b;
      b, k := RunHist(ChainStep(c, ops[0]), bs', first', ops[1..], d, mid);
      H.RunsAppend(h, a, mid, b, k);
      pops := a + b;
    }
  }

  /** Over any run of the chain, pruning included, no transaction is committed in two blocks or twice in one, and the
      nonces of each sender's committed transactions follow each other without a gap. The one exception is nonce
      `u64::MAX`. */
  lemma CommittedOnce(cfg: Config, codec: Codec, ops: seq<ChainOp>, d: Chain, i: nat, j: nat)
    requires RoundTrips(codec) && ChainRuns(Chain(Fresh(cfg), FreshLedger(codec)), ops, d)
    requires i < j < |ChainLog(Chain(Fresh(cfg), FreshLedger(codec)), ops)|
    ensures var log := ChainLog(Chain(Fresh(cfg), FreshLedger(codec)), ops);
            && (log[i] == log[j] ==> log[i].nonce == U64_MAX)
            && (log[i].sender == log[j].sender && log[j].nonce < U64_MAX ==>
                  log[j].nonce - log[i].nonce
                      == H.CountBy(log[..j], log[j].sender) - H.CountBy(log[..i], log[i].sender))
  {
    hide Settled, H.HistRuns, ChainRuns, ChainLog, RoundTrips;
    var c := Chain(Fresh(cfg), FreshLedger(codec));
    FreshSettled(cfg, codec);
    var h := H.Hist(Fresh(cfg), [], map[]);
    var pops, k := RunHist(c, map[], 1, ops, d, h);
    assert [] + ChainLog(c, ops) == ChainLog(c, ops);
    H.IncludedOnce(cfg, pops, k, i, j);
  }
}
