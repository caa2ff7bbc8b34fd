/** Whole runs of the chain: submissions, blocks, index rebuilding and pruning in any order over the mempool and
    the ledger together. */
module ChainRun {
  import opened Common
  import opened Types
  import opened Ledger
  import opened Mempool
  import opened Prune
  import opened PruneSpec
  import B = BlobStore
  import S = MempoolSafe
  import I = MempoolInv
  import R = MempoolRun

  // ---------------------------------------------------------------- what stays included

  predicate InBlock(t: Records, id: TxId) { id in t.locs && t.locs[id].Included? }

  ghost predicate SameIncluded(t: Records, u: Records) {
    forall id :: (InBlock(t, id) <==> InBlock(u, id)) && (InBlock(t, id) ==> u.locs[id] == t.locs[id])
  }

  lemma PurgeSameIncluded(t: Records, id: TxId, code: nat)
    requires !InBlock(t, id)
    ensures SameIncluded(t, Purge(t, id, code))
  {
  }

  lemma PendingNotInBlock(p: Pool, id: TxId)
    requires S.Inv(p) && id in p.meta
    ensures !InBlock(p.txs, id)
  {
  }

  lemma SubmitSameIncluded(p: Pool, id: TxId, req: Request)
    requires S.Inv(p) && id.nonce <= U64_MAX
    ensures SameIncluded(p.txs, Submit(p, id, req).0.txs)
  {
    hide S.Inv, Submit, S.Accepted, Screen, SameIncluded;
    var victim := S.SubmitSpec(p, id, req);
    if Submit(p, id, req).1.Ok? {
      if victim.Some? { PendingNotInBlock(p, victim.value); }
      AcceptedSameIncluded(p, id, req, Screen(p, id, req).value, victim);
    } else {
      SameIncludedRefl(p.txs);
    }
  }

  lemma SameIncludedRefl(t: Records)
    ensures SameIncluded(t, t)
  {
  }

  lemma AcceptedRecords(p: Pool, id: TxId, req: Request, price: nat, victim: Option<TxId>)
    ensures S.Accepted(p, id, req, price, victim).txs
         == AddedRecords(if victim.Some? then Purge(p.txs, victim.value, DROP_CODE_REPLACED) else p.txs,
                           id, PayloadOf(id, req), p.tail)
  {
  }

  lemma AddedSameIncluded(t: Records, u: Records, id: TxId, pay: Payload, sn: nat)
    requires SameIncluded(t, u) && !InBlock(t, id) && pay.Good?
    ensures SameIncluded(t, AddedRecords(u, id, pay, sn))
  {
  }

  lemma AcceptedSameIncluded(p: Pool, id: TxId, req: Request, price: nat, victim: Option<TxId>)
    requires S.Inv(p) && id !in p.txs.seen && (victim.Some? ==> !InBlock(p.txs, victim.value))
    ensures SameIncluded(p.txs, S.Accepted(p, id, req, price, victim).txs)
  {
    assert !InBlock(p.txs, id);
    hide S.Inv, S.Accepted, Purge, SameIncluded, InBlock, AddedRecords;
    AcceptedRecords(p, id, req, price, victim);
    SameIncludedRefl(p.txs);
    if victim.Some? { PurgeSameIncluded(p.txs, victim.value, DROP_CODE_REPLACED); }
    AddedSameIncluded(p.txs, if victim.Some? then Purge(p.txs, victim.value, DROP_CODE_REPLACED) else p.txs,
                      id, PayloadOf(id, req), p.tail);
  }

  lemma {:induction false} DropsSameIncluded(p: Pool, drops: seq<StagedDrop>, ids: seq<TxId>)
    requires S.Inv(p) && R.Takes(p.meta.Keys, R.DropIds(drops) + ids)
    ensures SameIncluded(p.txs, ApplyDrops(p, drops).txs)
    decreases |drops|
  {
    hide S.Inv, Drop;
    if drops != [] {
      var d := drops[0];
      var all := R.DropIds(drops) + ids;
      assert all[0] == d.id && all[1..] == R.DropIds(drops[1..]) + ids;
      R.DropStep(p, d);
      DropSameIncluded(p, d);
      var q := Drop(p, d.id, d.over, d.code);
      assert q.meta.Keys == p.meta.Keys - {d.id};
      DropsSameIncluded(q, drops[1..], ids);
    }
  }

  lemma DropSameIncluded(p: Pool, d: StagedDrop)
    requires S.Inv(p) && d.id in p.meta
    ensures SameIncluded(p.txs, Drop(p, d.id, d.over, d.code).txs)
  {
    S.DropInv(p, d.id, d.over, d.code);
    PendingNotInBlock(p, d.id);
    PurgeSameIncluded(p.txs, d.id, d.code);
    hide S.Inv, Drop, Purge;
  }

  lemma LinkedSame(t: Records, u: Records, bs: map<nat, BlockData>)
    requires Linked(t, bs) && SameIncluded(t, u)
    ensures Linked(u, bs)
  {
  }

  lemma LinkedMore(t: Records, u: Records, bs: map<nat, BlockData>, b: BlockData)
    requires Linked(t, bs) && b.number !in bs && forall id :: id in b.txIds ==> !InBlock(t, id)
    requires R.Placed(u, b.txIds, b.number, 0)
    requires forall id :: id !in b.txIds && id in t.locs ==> id in u.locs && u.locs[id] == t.locs[id]
    requires forall id :: id in u.locs ==> id in b.txIds || id in t.locs
    ensures Linked(u, bs[b.number := b])
  {
  }

  /** Pending transactions are in no stored block. */
  lemma PendingInNoBlock(p: Pool, bs: map<nat, BlockData>, id: TxId)
    requires S.Inv(p) && Linked(p.txs, bs) && id in p.meta
    ensures !InSomeBlock(bs, id)
  {
  }

  lemma StoredIsIncluded(t: Records, bs: map<nat, BlockData>, id: TxId)
    requires Linked(t, bs)
    ensures InSomeBlock(bs, id) <==> InBlock(t, id)
  {
  }

  // ---------------------------------------------------------------- the steps

  datatype ChainOp =
    | Submission(id: TxId, req: Request)
    | Block(drops: seq<StagedDrop>, txs: seq<StagedTx>, accounts: Sender -> nat, nextBaseFee: nat, now: nat,
            growOk: bool)
    | DropsOnly(drops: seq<StagedDrop>)
    | Prune(retain: nat, maxOps: nat)
    | Rebuild

  ghost predicate Can(c: Chain, op: ChainOp) {
    && c.ledger.head < U64_MAX && c.ledger.headTime < U64_MAX
    && match op
       case Submission(id, req) => id.nonce <= U64_MAX && req.account <= U64_MAX
       case Block(drops, txs, _, _, _, _) => txs != [] && R.Staged(c.pool, drops, Ids(txs))
       case DropsOnly(drops) => R.Staged(c.pool, drops, [])
       case Prune(_, _) => Mapped(c)
       case Rebuild => true
  }

  /** `produce_block` once its transactions are decided; a trap while storing undoes all of it. */
  ghost function Produce(c: Chain, op: ChainOp): Chain
    requires op.Block?
  {
    match Commit(c.ledger, op.txs, op.now, op.growOk)
    case None => c
    case Some(l) => Chain(CommitBlock(c.pool, op.drops, Ids(op.txs), l.head, op.accounts, op.nextBaseFee), l)
  }

  /** A submission; a block of at least one transaction; the tick of `produce_block` that includes none, which applies
      its drops and makes no block; a prune; an index rebuild. */
  ghost function ChainStep(c: Chain, op: ChainOp): Chain
    requires Can(c, op)
  {
    match op
    case Submission(id, req) => c.(pool := Submit(c.pool, id, req).0)
    case Block(_, _, _, _, _, _) => Produce(c, op)
    case DropsOnly(drops) => c.(pool := ApplyDrops(c.pool, drops))
    case Prune(retain, maxOps) => PruneBlocks(c, retain, maxOps).0
    case Rebuild => c.(pool := R.RebuildRuntime(c.pool))
  }

  /** Which transactions a block includes: pending, distinct, in no stored block. */
  lemma StagedAreNew(c: Chain, bs: map<nat, BlockData>, drops: seq<StagedDrop>, ids: seq<TxId>)
    requires S.Inv(c.pool) && Linked(c.pool.txs, bs) && R.Staged(c.pool, drops, ids)
    ensures Distinct(ids)
    ensures forall id :: id in ids ==> id in c.pool.meta && !InBlock(c.pool.txs, id) && !InSomeBlock(bs, id)
  {
    hide S.Inv, Linked;
    R.StagedPending(c.pool, drops, ids);
    var all := R.DropIds(drops) + ids;
    R.TakesMeaning(c.pool.meta.Keys, all);
    hide R.Takes;
    forall i, j | 0 <= i < j < |ids| ensures ids[i] != ids[j] {
      assert all[|R.DropIds(drops)| + i] == ids[i] && all[|R.DropIds(drops)| + j] == ids[j];
    }
    forall id | id in ids ensures id in c.pool.meta && !InBlock(c.pool.txs, id) && !InSomeBlock(bs, id) {
      assert id in all;
      PendingNotInBlock(c.pool, id);
      PendingInNoBlock(c.pool, bs, id);
    }
  }

  lemma CommitLinked(c: Chain, bs: map<nat, BlockData>, drops: seq<StagedDrop>, b: BlockData, accounts: Sender -> nat,
                     fee: nat)
    requires S.Inv(c.pool) && Linked(c.pool.txs, bs) && R.Staged(c.pool, drops, b.txIds) && b.number !in bs
    ensures Linked(CommitBlock(c.pool, drops, b.txIds, b.number, accounts, fee).txs, bs[b.number := b])
  {
    hide S.Inv, Linked, R.Staged, R.Takes, RebuildFees, SameIncluded, R.Placed;
    R.StagedPending(c.pool, drops, b.txIds);
    DropsSameIncluded(c.pool, drops, b.txIds);
    R.ApplyDropsInv(c.pool, drops, b.txIds);
    var q := ApplyDrops(c.pool, drops);
    LinkedSame(c.pool.txs, q.txs, bs);
    R.ApplyIncludesInv(q, b.txIds, b.number, 0, accounts);
    R.TakesMeaning(q.meta.Keys, b.txIds);
    forall id | id in b.txIds ensures !InBlock(q.txs, id) { PendingNotInBlock(q, id); }
    LinkedMore(q.txs, ApplyIncludes(q, b.txIds, b.number, 0, accounts).txs, bs, b);
  }

  /** A block adds itself to the stored blocks, or nothing happens. */
  lemma ProduceSettled(c: Chain, bs: map<nat, BlockData>, first: nat, op: ChainOp)
    requires Settled(c, bs, first) && op.Block? && Can(c, op)
    ensures Commit(c.ledger, op.txs, op.now, op.growOk).None? ==> Produce(c, op) == c
    ensures Commit(c.ledger, op.txs, op.now, op.growOk).Some? ==>
              var b := Produced(c.ledger, op.txs, op.now);
              b.number == c.ledger.head + 1 && c.ledger.headTime < b.timestamp
                  && Settled(Produce(c, op), bs[b.number := b], first)
  {
    hide S.Inv, Sound, Linked, R.Staged, Ids, Distinct, InSomeBlock, InBlock, OldestOk;
    if Commit(c.ledger, op.txs, op.now, op.growOk).Some? {
      var b := Produced(c.ledger, op.txs, op.now);
      StagedAreNew(c, bs, op.drops, b.txIds);
      CommitSound(c.ledger, bs, first, op.txs, op.now, op.growOk);
      CommitLinked(c, bs, op.drops, b, op.accounts, op.nextBaseFee);
      R.CommitBlockInv(c.pool, op.drops, b.txIds, b.number, op.accounts, op.nextBaseFee);
    }
  }

  lemma SubmissionSettled(c: Chain, bs: map<nat, BlockData>, first: nat, id: TxId, req: Request)
    requires Settled(c, bs, first) && id.nonce <= U64_MAX
    ensures Settled(c.(pool := Submit(c.pool, id, req).0), bs, first)
  {
    hide S.Inv, Submit, Sound, OldestOk, Linked, SameIncluded;
    SubmitSameIncluded(c.pool, id, req);
    LinkedSame(c.pool.txs, Submit(c.pool, id, req).0.txs, bs);
    var _ := S.SubmitSpec(c.pool, id, req);
  }

  /** A tick without an included transaction leaves the ledger alone and keeps the chain settled. */
  lemma DropsOnlySettled(c: Chain, bs: map<nat, BlockData>, first: nat, drops: seq<StagedDrop>)
    requires Settled(c, bs, first) && R.Staged(c.pool, drops, [])
    ensures Settled(c.(pool := ApplyDrops(c.pool, drops)), bs, first)
  {
    hide S.Inv, Sound, OldestOk, Linked, R.Staged, R.Takes, SameIncluded;
    R.StagedPending(c.pool, drops, []);
    R.ApplyDropsInv(c.pool, drops, []);
    DropsSameIncluded(c.pool, drops, []);
    LinkedSame(c.pool.txs, ApplyDrops(c.pool, drops).txs, bs);
  }

  /** Every operation keeps the chain settled. */
  lemma ChainStepSettled(c: Chain, bs: map<nat, BlockData>, first: nat, op: ChainOp)
    returns (bs': map<nat, BlockData>, first': nat)
    requires Settled(c, bs, first) && Can(c, op)
    ensures Settled(ChainStep(c, op), bs', first') && first <= first'
  {
    bs', first' := bs, first;
    match op
    case Submission(id, req) =>
      hide Settled, Submit;
      SubmissionSettled(c, bs, first, id, req);
    case Block(_, txs, _, _, now, growOk) =>
      hide Settled, Produce, Can, Commit, Linked;
      ProduceSettled(c, bs, first, op);
      if Commit(c.ledger, txs, now, growOk).Some? {
        bs' := bs[Produced(c.ledger, txs, now).number := Produced(c.ledger, txs, now)];
      }
    case DropsOnly(drops) =>
      hide Settled;
      DropsOnlySettled(c, bs, first, drops);
    case Prune(retain, maxOps) =>
      hide Settled, PruneBlocks;
      bs', first' := PruneSettled(c, bs, first, retain, maxOps);
    case Rebuild =>
      hide Settled, R.RebuildRuntime;
      RebuildSettled(c, bs, first);
  }

  lemma PruneSettled(c: Chain, bs: map<nat, BlockData>, first: nat, retain: nat, maxOps: nat)
    returns (bs': map<nat, BlockData>, first': nat)
    requires Settled(c, bs, first) && c.ledger.head < U64_MAX
    ensures Mapped(c) && Settled(PruneBlocks(c, retain, maxOps).0, bs', first') && first <= first'
  {
    hide Settled, PruneBlocks, OpsForBlock, Goal, Swept, From;
    bs', first' := bs, first;
    var f := PruneBlocksSpec(c, bs, first, retain, maxOps);
    if retain > 0 && maxOps > 0 && c.ledger.head > retain { bs', first' := From(bs, f), f; }
  }

  lemma RebuildSettled(c: Chain, bs: map<nat, BlockData>, first: nat)
    requires Settled(c, bs, first)
    ensures Settled(c.(pool := R.RebuildRuntime(c.pool)), bs, first)
  {
    R.RebuildRuntimeSpec(c.pool);
    hide S.Inv, Sound, OldestOk, Linked, R.RebuildRuntime;
  }

  // ---------------------------------------------------------------- whole runs

  ghost predicate ChainRuns(c: Chain, ops: seq<ChainOp>, d: Chain)
    decreases |ops|
  {
    if ops == [] then c == d else Can(c, ops[0]) && ChainRuns(ChainStep(c, ops[0]), ops[1..], d)
  }

  lemma {:induction false} ChainRunSettled(c: Chain, bs: map<nat, BlockData>, first: nat, ops: seq<ChainOp>, d: Chain)
    returns (ds: map<nat, BlockData>, last: nat)
    requires Settled(c, bs, first) && ChainRuns(c, ops, d)
    ensures Settled(d, ds, last) && first <= last
    decreases |ops|
  {
    hide Settled, ChainStep, Can;
    ds, last := bs, first;
    if ops != [] {
      ds, last := ChainStepSettled(c, bs, first, ops[0]);
      ds, last := ChainRunSettled(ChainStep(c, ops[0]), ds, last, ops[1..], d);
    }
  }

  lemma FreshSettled(cfg: Config, codec: Codec)
    requires RoundTrips(codec)
    ensures Settled(Chain(Fresh(cfg), FreshLedger(codec)), map[], 1)
  {
    hide S.Inv, Sound, OldestOk, RoundTrips, S.CountsExact;
    S.FreshInv(cfg);
    FreshSound(codec);
  }

  /** A slot is Used exactly when one key of the four pointer maps owns it, no two keys share one, every pointer
      reads, and the running totals equal the scan. */
  ghost predicate SlotsMatch(a: B.Arena, m: map<Owner, B.BlobPtr>) {
    && B.Inv(a) && a.end <= |a.bytes|
    && (forall k :: k in a.table ==> (a.table[k].state == B.Used <==> HasOwner(m, k)))
    && (forall o, q :: o in m && q in m && m[o].Key() == m[q].Key() ==> o == q)
    && (forall o :: o in m ==> B.Read(a, m[o]).Ok?)
  }

  /** A transaction counts as included exactly when a stored block lists it, at the block and place its location
      names, and then its receipt and index entry are stored; exactly the blocks from `first` to the head load. */
  ghost predicate BlocksMatch(d: Chain, bs: map<nat, BlockData>, first: nat)
    requires Mapped(d)
  {
    && (forall n: nat :: n in bs <==> first <= n <= d.ledger.head)
    && (forall n: nat :: LoadBlock(d.ledger, n) == if n in bs then Some(bs[n]) else None)
    && (forall id :: InBlock(d.pool.txs, id) <==> InSomeBlock(bs, id))
    && (forall n, i :: n in bs && 0 <= i < |bs[n].txIds| ==> Stored(d, bs[n].txIds[i], n, i))
  }

  predicate Stored(d: Chain, id: TxId, n: nat, i: nat) {
    Get(d.pool.txs.locs, id) == Some(Included(n, i)) && OReceipt(id) in d.ledger.ptrs && OIndex(id) in d.ledger.ptrs
  }

  /** Slot ownership and block bookkeeping in every state any run of submissions, blocks, rebuilds and prunings
      reaches. */
  lemma ReachedChain(cfg: Config, codec: Codec, ops: seq<ChainOp>, d: Chain)
    returns (bs: map<nat, BlockData>, first: nat)
    requires RoundTrips(codec) && ChainRuns(Chain(Fresh(cfg), FreshLedger(codec)), ops, d)
    ensures Mapped(d) && Settled(d, bs, first) && SlotsMatch(d.ledger.arena, d.ledger.ptrs) && BlocksMatch(d, bs, first)
  {
    hide Settled, SlotsMatch, BlocksMatch, ChainRuns;
    FreshSettled(cfg, codec);
    bs, first := ChainRunSettled(Chain(Fresh(cfg), FreshLedger(codec)), map[], 1, ops, d);
    SettledOwned(d, bs, first);
    SettledLinked(d, bs, first);
  }

  lemma SettledOwned(d: Chain, bs: map<nat, BlockData>, first: nat)
    requires Settled(d, bs, first)
    ensures SlotsMatch(d.ledger.arena, d.ledger.ptrs)
  {
    hide S.Inv, Linked, OldestOk, Indexed, Loads, Chained, B.Inv, B.Read;
    var (a, m) := (d.ledger.arena, d.ledger.ptrs);
    Roomy(a);
    forall o | o in m ensures B.Read(a, m[o]).Ok? { B.ReadOfLive(a, m[o]); }
  }

  lemma SettledLinked(d: Chain, bs: map<nat, BlockData>, first: nat)
    requires Settled(d, bs, first)
    ensures Mapped(d) && BlocksMatch(d, bs, first)
  {
    hide S.Inv, B.Inv, Owned, Loads, Chained, OldestOk, LoadBlock;
    IntactParts(d, bs, first);
    forall id ensures InBlock(d.pool.txs, id) <==> InSomeBlock(bs, id) { StoredIsIncluded(d.pool.txs, bs, id); }
    forall n, i | n in bs && 0 <= i < |bs[n].txIds| ensures Stored(d, bs[n].txIds[i], n, i) {
      assert bs[n].txIds[i] in bs[n].txIds;
    }
  }
}
