/** The failing recovery of `PruneReuse` on a chain that a run reaches: two blocks, a prune of the first cut after one
    slot, one blob stored, and a recovery that reports an error. */
module PruneReplay {
  import opened Common
  import opened Types
  import opened Ledger
  import opened Prune
  import opened PruneSpec
  import opened PruneRecovery
  import opened PruneReuse
  import opened BlockCodec
  import opened ChainHistory
  import opened ChainRun
  import opened ChainReplay
  import B = BlobStore
  import G = PruneProgress
  import M = Mempool
  import Y = MempoolReplay

  // ---------------------------------------------------------------- a ledger never pruned

  ghost predicate AllUsed(a: B.Arena) { B.Inv(a) && forall k :: k in a.table ==> a.table[k].state == B.Used }

  /** No slot was ever freed, the cursor never moved, and every block's slot is of its own size class. */
  ghost predicate Unpruned(l: Ledger) {
    && AllUsed(l.arena)
    && l.prune == PruneState(None, 0, None)
    && (forall o :: o in l.ptrs && o.OBlock? ==> B.SmallestClass(l.ptrs[o].len) == Ok(l.ptrs[o].cls))
  }

  lemma StoreAllUsed(a: B.Arena, data: seq<B.byte>)
    requires AllUsed(a) && B.StoreBytes(a, data, true).1.Ok?
    ensures AllUsed(B.StoreBytes(a, data, true).0)
    ensures var p := B.StoreBytes(a, data, true).1.value; B.SmallestClass(p.len) == Ok(p.cls)
  {
    B.StoreSpec(a, data, true);
    B.AllocateSpec(a, |data|, true);
    hide B.Inv, B.Allocate, B.Write, B.Read;
  }

  /** What a committed block of one transaction leaves: three blobs stored one after the other. */
  lemma CommitParts(l: Ledger, id: TxId, m: Ledger)
    requires Adds(l, id, m)
    ensures B.StoreBytes(l.arena, DATA, true).1.Ok?
    ensures var a := B.StoreBytes(l.arena, DATA, true).0;
            var b := B.StoreBytes(a, DATA, true);
            var c := B.StoreBytes(b.0, l.codec.encode(Produced(l, [TxOf(id)], 0)), true);
            && b.1.Ok? && c.1.Ok? && m.arena == c.0 && m.prune == l.prune
            && forall o :: o in m.ptrs && o.OBlock? ==>
                 if o == OBlock(NextNumber(l)) then m.ptrs[o] == c.1.value else o in l.ptrs && m.ptrs[o] == l.ptrs[o]
  {
    hide B.StoreBytes;
    var a := B.StoreBytes(l.arena, DATA, true);
    assert StoreTxs(l.arena, [TxOf(id)], true).Some?;
    StoreTxsHead(l.arena, [TxOf(id)], true);
    StoreOne(l.arena, id);
    var ts := StoreTxs(l.arena, [TxOf(id)], true).value.1;
    assert |ts| == 1 by { assert [TxOf(id)][1..] == []; }
    assert AddAllPtrs(l.ptrs, ts) == AddPtrs(l.ptrs, ts[0]) by { assert ts[1..] == []; }
  }

  lemma CommitUnpruned(l: Ledger, id: TxId, m: Ledger)
    requires Unpruned(l) && Adds(l, id, m)
    ensures Unpruned(m)
  {
    hide B.Inv, B.StoreBytes, B.SmallestClass, Adds;
    CommitParts(l, id, m);
    StoreAllUsed(l.arena, DATA);
    var a := B.StoreBytes(l.arena, DATA, true).0;
    StoreAllUsed(a, DATA);
    StoreAllUsed(B.StoreBytes(a, DATA, true).0, l.codec.encode(Produced(l, [TxOf(id)], 0)));
  }

  lemma FreshUnpruned(codec: Codec)
    ensures Unpruned(FreshLedger(codec))
  {
    B.EmptyInv();
  }

  // ---------------------------------------------------------------- the cut

  const CUT: Attempt := Cut(10, 1, Draining(1))

  /** The first call on a chain never pruned steps over block 0, which is not stored, and arrives at block 1. */
  lemma ArrivesAtOne(c: Chain, bs: map<nat, BlockData>)
    requires Settled(c, bs, 1) && c.ledger.prune == PruneState(None, 0, None) && c.ledger.head < U64_MAX
    ensures Mapped(c) && Recover(c).0 == c
    ensures var st := PruneState(Some(0), 0, None); Arrived(c, 1, 10) == Sweep(c, st, 1, 0, true)
  {
    hide Intact, Settled, LoadBlock, Chained, OldestOk, Recover, OpsForBlock, PruneOne;
    SettledParts(c, bs, 1);
    IntactParts(c, bs, 1);
    RecoverIdle(c, bs, 1);
    assert WithPrune(c, Normalized(c.ledger.prune)) == c;
    assert LoadBlock(c.ledger, 0) == None;
    var after := Sweep(c, PruneState(Some(0), 0, None), 1, 0, true);
    assert PruneLoop(after, 0, 10) == (after, Ok(()));
    assert PruneLoop(Start(c), 0, 10) == PruneLoop(after, 0, 10);
  }

  lemma FirstSlot(c: Chain, bs: map<nat, BlockData>)
    requires Intact(c, bs, 1) && 1 in bs
    ensures OBlock(1) in c.ledger.ptrs
    ensures var ps := CollectPtrs(c.ledger, 1, bs[1].txIds); |ps| > 0 && ps[0] == c.ledger.ptrs[OBlock(1)]
  {
    hide B.Inv, Owned, Loads, Chained, RoundTrips, CursorOk, Linked;
  }

  /** The call gets to block 1 and is cut after its first slot. */
  ghost predicate CutsAt(c: Chain, ids: seq<TxId>) {
    && Fits(c, 1, CUT) && |CollectPtrs(c.ledger, 1, ids)| > 0
    && Attempted(c, 1, CUT) == Interrupted(c, PruneState(Some(0), 0, None), 1, ids, Draining(1))
  }

  lemma CutFits(c: Chain, bs: map<nat, BlockData>)
    requires Settled(c, bs, 1) && c.ledger.prune == PruneState(None, 0, None) && c.ledger.head == 2
    requires 1 in bs && |bs[1].txIds| == 1
    ensures CutsAt(c, bs[1].txIds)
  {
    hide Intact, Settled, LoadBlock, Chained, OldestOk, Recover, OpsForBlock, CollectPtrs, Arrived, Interrupted;
    SettledParts(c, bs, 1);
    IntactParts(c, bs, 1);
    ArrivesAtOne(c, bs);
    FirstSlot(c, bs);
    G.BlockCost(c, 1, bs[1].txIds);
  }

  /** As many bytes as the first slot was allocated for. */
  ghost function Refill(c: Chain): seq<B.byte> {
    if OBlock(1) in c.ledger.ptrs then B.Zeros(c.ledger.ptrs[OBlock(1)].len) else DATA
  }

  lemma RefillFits(c: Chain, bs: map<nat, BlockData>)
    requires Intact(c, bs, 1) && 1 in bs && Unpruned(c.ledger)
    ensures Storable(Refill(c))
    ensures var ps := CollectPtrs(c.ledger, 1, bs[1].txIds);
            |ps| > 0 && B.SmallestClass(|Refill(c)|) == Ok(ps[0].cls)
  {
    hide B.Inv, Indexed, Loads, Chained, RoundTrips, CursorOk, Linked, B.SmallestClass, CollectPtrs;
    FirstSlot(c, bs);
    B.SmallestClassFits(|Refill(c)|);
  }

  lemma DrainedModest(a: B.Arena, ps: seq<B.BlobPtr>, k: nat)
    requires Modest(a, k) && B.Inv(ReclaimAll(a, ps).0)
    ensures Modest(ReclaimAll(a, ps).0, k)
  {
    hide B.Inv, ReclaimAll;
    DrainKeepsGens(a, ps);
  }

  lemma RefillTakesSlot(c: Chain, bs: map<nat, BlockData>, k: nat)
    requires Intact(c, bs, 1) && 1 in bs && Unpruned(c.ledger) && Modest(c.ledger.arena, k) && k <= 1000
    ensures |CollectPtrs(c.ledger, 1, bs[1].txIds)| > 0
    ensures SlotTaken(c, 1, bs[1].txIds, 1, Refill(c), true).Some?
  {
    hide Intact, Modest, ReclaimAll, CollectPtrs, B.StoreBytes, B.Inv, Recordable, Unpruned, Storable, Refill;
    RefillFits(c, bs);
    var ps := CollectPtrs(c.ledger, 1, bs[1].txIds);
    CutArena(c, bs, 1, 1);
    DrainedModest(c.ledger.arena, ps[..1], k);
    StoreModest(ReclaimAll(c.ledger.arena, ps[..1]).0, k, Refill(c));
  }

  // ---------------------------------------------------------------- the run

  function WithArena(c: Chain, a: B.Arena): Chain { c.(ledger := c.ledger.(arena := a)) }

  /** A call on `c` can be cut after one reclaimed slot, and with `data` stored the recovery that follows reports an
      error. */
  ghost predicate StopsRecovery(c: Chain, data: seq<B.byte>) {
    && Fits(c, 1, CUT)
    && var x := Attempted(c, 1, CUT);
       var (a, r) := B.StoreBytes(x.ledger.arena, data, true);
       r.Ok? && Mapped(WithArena(x, a)) && Recover(WithArena(x, a)).1 == Err(ExecFailed)
  }

  lemma CutThenStored(c: Chain, bs: map<nat, BlockData>, w: TxId)
    requires HasBoth(c, bs, w) && Unpruned(c.ledger)
    ensures StopsRecovery(c, Refill(c))
  {
    hide Settled, Intact, Modest, CollectPtrs, ReclaimAll, B.StoreBytes, B.Inv, Recover, Fits, B.SmallestClass, Refill,
         Storable, M.ForgetAll, Remove, BlockOwners, OldestOk, Arrived;
    SettledParts(c, bs, 1);
    CutFits(c, bs);
    hide Attempted;
    RefillFits(c, bs);
    RefillTakesSlot(c, bs, 6);
    FirstStoreStopsRecovery(c, bs, 1, PruneState(Some(0), 0, None), 1, 0, Refill(c), true);
  }

  /** A chain that a run reaches, for any transaction and any codec fit for the run: cut in the middle of its first
      prune and asked to store one blob before it recovers, it recovers with an error. */
  lemma SomeRecoveryStops(codec: Codec, w: TxId) returns (ops: seq<ChainOp>, c: Chain, data: seq<B.byte>)
    requires RoundTrips(codec) && SmallBlocks(codec, w) && w.nonce <= U64_MAX
    ensures ChainRuns(Chain(M.Fresh(Y.FREE), FreshLedger(codec)), ops, c) && StopsRecovery(c, data)
  {
    hide RoundTrips, SmallBlocks, HasFirst, HasBoth, Rounds, M.Fresh, FreshLedger, ChainRuns, Unpruned, Adds,
         StopsRecovery, ChainLog, Refill, Sub, Blk;
    var one, bs1 := FirstBlock(codec, w);
    var bs;
    c, bs := SecondBlock(one, bs1, w);
    FreshUnpruned(codec);
    CommitUnpruned(FreshLedger(codec), w, one.ledger);
    CommitUnpruned(one.ledger, Other(w), c.ledger);
    CutThenStored(c, bs, w);
    RoundReaches(Chain(M.Fresh(Y.FREE), FreshLedger(codec)), w, one);
    RoundReaches(one, Other(w), c);
    var more := [Sub(Other(w)), Blk(Other(w))];
    ops := [Sub(w), Blk(w)] + more;
    ReachesAppend(Chain(M.Fresh(Y.FREE), FreshLedger(codec)), [Sub(w), Blk(w)], one, [w], more, c, [Other(w)]);
    data := Refill(c);
  }
}
