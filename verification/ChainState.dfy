/** The stable state of `crates/evm-core/src/chain.rs` updated in place: persisting a block, pruning, recovering the
    prune journal. Each method is proved equal to the function of `Ledger` or `Prune` it implements. */
module ChainState {
  import opened Common
  import opened Types
  import opened L = Ledger
  import opened M = Mempool
  import opened P = Prune
  import opened BlobArena
  import opened MempoolState
  import opened ChainRun
  import B = BlobStore
  import S = MempoolSafe
  import R = MempoolRun
  import Retention

  /** The pointers of the four maps. */
  datatype PtrMaps = PtrMaps(
    blocks: map<nat, B.BlobPtr>, receipts: map<TxId, B.BlobPtr>, txIndex: map<TxId, B.BlobPtr>,
    traces: map<TxId, B.BlobPtr>)
  {
    function At(o: Owner): Option<B.BlobPtr> {
      match o
      case OBlock(n) => Get(blocks, n)
      case OReceipt(id) => Get(receipts, id)
      case OIndex(id) => Get(txIndex, id)
      case OTraces(id) => Get(traces, id)
    }

    ghost function Keys(): set<Owner> {
      (set n | n in blocks :: OBlock(n)) + (set id | id in receipts :: OReceipt(id))
      + (set id | id in txIndex :: OIndex(id)) + (set id | id in traces :: OTraces(id))
    }

    /** The four maps as one, keyed by owner. */
    ghost function Merged(): map<Owner, B.BlobPtr> { map o | o in Keys() && At(o).Some? :: At(o).value }

    lemma MergedAt()
      ensures forall o :: Get(Merged(), o) == At(o)
    {
    }
  }

  /** Maps that agree under every key are one map. */
  lemma SameMap(m: map<Owner, B.BlobPtr>, n: map<Owner, B.BlobPtr>)
    requires forall o :: Get(m, o) == Get(n, o)
    ensures m == n
  {
    assert forall o :: o in m <==> Get(m, o).Some?;
    assert forall o :: o in n <==> Get(n, o).Some?;
    assert forall o :: o in m ==> Get(m, o) == Some(m[o]) && Get(n, o) == Some(n[o]);
  }

  lemma LessBlock(m: PtrMaps, n: nat)
    ensures m.(blocks := m.blocks - {n}).Merged() == m.Merged() - {OBlock(n)}
  {
    hide PtrMaps.Merged;
    var k := m.(blocks := m.blocks - {n});
    m.MergedAt();
    k.MergedAt();
    var less := m.Merged() - {OBlock(n)};
    forall o ensures Get(k.Merged(), o) == Get(less, o) {
      assert Get(k.Merged(), o) == k.At(o) && Get(m.Merged(), o) == m.At(o);
    }
    SameMap(k.Merged(), less);
  }

  lemma LessTx(m: PtrMaps, id: TxId)
    ensures m.(receipts := m.receipts - {id}, txIndex := m.txIndex - {id}, traces := m.traces - {id}).Merged()
         == m.Merged() - {OReceipt(id)} - {OIndex(id)} - {OTraces(id)}
  {
    hide PtrMaps.Merged;
    var k := m.(receipts := m.receipts - {id}, txIndex := m.txIndex - {id}, traces := m.traces - {id});
    m.MergedAt();
    k.MergedAt();
    var less := m.Merged() - {OReceipt(id)} - {OIndex(id)} - {OTraces(id)};
    forall o ensures Get(k.Merged(), o) == Get(less, o) {
      assert Get(k.Merged(), o) == k.At(o) && Get(m.Merged(), o) == m.At(o);
    }
    SameMap(k.Merged(), less);
  }

  lemma MoreBlock(m: PtrMaps, n: nat, p: B.BlobPtr)
    ensures m.(blocks := m.blocks[n := p]).Merged() == m.Merged()[OBlock(n) := p]
  {
    hide PtrMaps.Merged;
    var k, more := m.(blocks := m.blocks[n := p]), m.Merged()[OBlock(n) := p];
    m.MergedAt();
    k.MergedAt();
    forall o ensures Get(k.Merged(), o) == Get(more, o) {
      assert Get(k.Merged(), o) == k.At(o) && Get(m.Merged(), o) == m.At(o);
    }
    SameMap(k.Merged(), more);
  }

  lemma MoreTx(m: PtrMaps, t: TxPtrs)
    ensures m.(txIndex := m.txIndex[t.id := t.index], receipts := m.receipts[t.id := t.receipt],
               traces := if t.traces.Some? then m.traces[t.id := t.traces.value] else m.traces).Merged()
         == AddPtrs(m.Merged(), t)
  {
    hide PtrMaps.Merged;
    var k := m.(txIndex := m.txIndex[t.id := t.index], receipts := m.receipts[t.id := t.receipt],
                traces := if t.traces.Some? then m.traces[t.id := t.traces.value] else m.traces);
    var more := AddPtrs(m.Merged(), t);
    m.MergedAt();
    k.MergedAt();
    forall o ensures Get(k.Merged(), o) == Get(more, o) {
      assert Get(k.Merged(), o) == k.At(o) && Get(m.Merged(), o) == m.At(o);
    }
    SameMap(k.Merged(), more);
  }

  lemma {:induction false} AddAllPtrsAt(m: map<Owner, B.BlobPtr>, ts: seq<TxPtrs>, i: nat)
    requires i < |ts|
    ensures AddAllPtrs(m, ts[i..]) == AddAllPtrs(AddPtrs(m, ts[i]), ts[i + 1..])
  {
  }

  lemma AllAdded(m: map<Owner, B.BlobPtr>, ts: seq<TxPtrs>)
    ensures AddAllPtrs(m, ts[|ts|..]) == m
  {
  }

  /** Storing `txs` from `a` comes to storing `rest` from `b` after `staged`. */
  ghost predicate StagedSoFar(a: B.Arena, txs: seq<StagedTx>, growOk: bool, b: B.Arena, rest: seq<StagedTx>,
                              staged: seq<TxPtrs>) {
    match StoreTxs(b, rest, growOk)
    case None => StoreTxs(a, txs, growOk).None?
    case Some(q) => StoreTxs(a, txs, growOk) == Some((q.0, staged + q.1))
  }

  lemma StagedAll(a: B.Arena, txs: seq<StagedTx>, growOk: bool)
    ensures StagedSoFar(a, txs, growOk, a, txs, [])
  {
    hide StoreTxs;
    match StoreTxs(a, txs, growOk)
    case None =>
    case Some(q) => assert [] + q.1 == q.1;
  }

  lemma {:induction false} StagedNext(a: B.Arena, txs: seq<StagedTx>, growOk: bool, b: B.Arena, i: nat,
                                      staged: seq<TxPtrs>)
    requires i < |txs| && StagedSoFar(a, txs, growOk, b, txs[i..], staged)
    ensures match StoreTx(b, txs[i], growOk)
            case None => StoreTxs(a, txs, growOk).None?
            case Some(p) => StagedSoFar(a, txs, growOk, p.0, txs[i + 1..], staged + [p.1])
  {
    hide StoreTx;
    var whole := StoreTxs(a, txs, growOk);
    assert txs[i..][1..] == txs[i + 1..];
    match StoreTx(b, txs[i], growOk)
    case None =>
    case Some(p) =>
      match StoreTxs(p.0, txs[i + 1..], growOk)
      case None =>
      case Some(q) => assert staged + ([p.1] + q.1) == staged + [p.1] + q.1;
  }

  lemma StagedDone(a: B.Arena, txs: seq<StagedTx>, growOk: bool, b: B.Arena, staged: seq<TxPtrs>)
    requires StagedSoFar(a, txs, growOk, b, txs[|txs|..], staged)
    ensures StoreTxs(a, txs, growOk) == Some((b, staged))
  {
    assert staged + [] == staged;
  }

  lemma ReclaimInv(a: B.Arena, p: B.BlobPtr)
    requires B.Inv(a)
    ensures B.Inv(B.ReclaimForPrune(a, p).0)
  {
    if B.ReclaimForPrune(a, p).0 != a { B.MoveInv(a, p.Key(), p.gen, B.Free); }
  }

  lemma {:induction false} ForgetAllAt(p: Pool, ids: seq<TxId>, i: nat)
    requires i < |ids|
    ensures ForgetAll(p, ids[i..]) == ForgetAll(Forget(p, ids[i]), ids[i + 1..])
  {
  }

  lemma TxOwnersAt(ids: seq<TxId>, i: nat)
    requires i < |ids|
    ensures TxOwners(ids[i..]) == [OReceipt(ids[i]), OIndex(ids[i]), OTraces(ids[i])] + TxOwners(ids[i + 1..])
  {
  }

  lemma {:induction false} RemoveThree(m: map<Owner, B.BlobPtr>, a: Owner, b: Owner, c: Owner, os: seq<Owner>)
    ensures Remove(m, [a, b, c] + os) == Remove(m - {a} - {b} - {c}, os)
  {
    var all := [a, b, c] + os;
    assert all[1..] == [b, c] + os && ([b, c] + os)[1..] == [c] + os && ([c] + os)[1..] == os;
    assert Remove(m - {a}, [b, c] + os) == Remove(m - {a} - {b}, [c] + os);
    assert Remove(m - {a} - {b}, [c] + os) == Remove(m - {a} - {b} - {c}, os);
  }

  lemma RemoveBlock(m: map<Owner, B.BlobPtr>, n: nat, ids: seq<TxId>)
    ensures Remove(m, BlockOwners(n, ids)) == Remove(m - {OBlock(n)}, TxOwners(ids))
  {
  }

  function PickOne(m: map<Owner, B.BlobPtr>, o: Owner): seq<B.BlobPtr> { if o in m then [m[o]] else [] }

  lemma {:induction false} PickThree(m: map<Owner, B.BlobPtr>, a: Owner, b: Owner, c: Owner, os: seq<Owner>)
    ensures Pick(m, [a, b, c] + os) == PickOne(m, a) + PickOne(m, b) + PickOne(m, c) + Pick(m, os)
  {
    var all := [a, b, c] + os;
    assert all[1..] == [b, c] + os && ([b, c] + os)[1..] == [c] + os && ([c] + os)[1..] == os;
    assert Pick(m, [c] + os) == PickOne(m, c) + Pick(m, os);
    assert Pick(m, [b, c] + os) == PickOne(m, b) + Pick(m, [c] + os);
  }

  lemma MergedHas(m: PtrMaps, id: TxId)
    ensures (OReceipt(id) in m.Merged() <==> id in m.receipts) && (OIndex(id) in m.Merged() <==> id in m.txIndex)
    ensures OTraces(id) in m.Merged() <==> id in m.traces
  {
  }

  lemma MergedHasBlock(m: PtrMaps, n: nat)
    ensures Get(m.Merged(), OBlock(n)) == Get(m.blocks, n)
  {
  }

  lemma PickOneGet(m: map<Owner, B.BlobPtr>, o: Owner)
    ensures PickOne(m, o) == match Get(m, o) case Some(p) => [p] case None => []
  {
  }

  lemma PickBlock(m: map<Owner, B.BlobPtr>, n: nat, ids: seq<TxId>)
    ensures Pick(m, BlockOwners(n, ids))
            == (match Get(m, OBlock(n)) case Some(p) => [p] case None => []) + Pick(m, TxOwners(ids))
  {
  }

  lemma AppendAssoc<T>(a: seq<T>, b: seq<T>, c: seq<T>)
    ensures a + (b + c) == (a + b) + c
  {
  }

  lemma NoneLeft(m: map<Owner, B.BlobPtr>, ids: seq<TxId>, ps: seq<B.BlobPtr>)
    ensures ps + Pick(m, TxOwners(ids[|ids|..])) == ps
  {
  }

  lemma AllGone(m: map<Owner, B.BlobPtr>, p: Pool, ids: seq<TxId>)
    ensures Remove(m, TxOwners(ids[|ids|..])) == m && ForgetAll(p, ids[|ids|..]) == p
  {
  }

  lemma {:induction false} ReclaimAllAt(a: B.Arena, ps: seq<B.BlobPtr>, i: nat)
    requires i < |ps|
    ensures var (b, r) := B.ReclaimForPrune(a, ps[i]);
            ReclaimAll(a, ps[i..]) == if r.Err? then (b, r) else ReclaimAll(b, ps[i + 1..])
  {
  }

  lemma {:induction false} OpsAt(c: Chain, ids: seq<TxId>, i: nat, sum: nat)
    requires i < |ids|
    ensures OpsForTxs(c, ids[i..], sum)
         == OpsForTxs(c, ids[i + 1..], SatAdd(sum, OpsForTx(c.pool, c.ledger.ptrs, ids[i]), U64_MAX))
  {
  }

  lemma OpsNone(c: Chain, ids: seq<TxId>, sum: nat)
    ensures OpsForTxs(c, ids[|ids|..], sum) == sum
  {
  }

  /** A commit as its two stores, the new pointers and the new head. */
  lemma CommitInSteps(l: L.Ledger, txs: seq<StagedTx>, now: nat, growOk: bool)
    ensures match StoreTxs(l.arena, txs, growOk)
            case None => Commit(l, txs, now, growOk).None?
            case Some(p) =>
              var b := Produced(l, txs, now);
              var (a, r) := B.StoreBytes(p.0, l.codec.encode(b), growOk);
              && (r.Err? ==> Commit(l, txs, now, growOk).None?)
              && (r.Ok? ==>
                    Commit(l, txs, now, growOk)
                    == Some(l.(arena := a, ptrs := AddAllPtrs(l.ptrs, p.1)[OBlock(b.number) := r.value],
                               head := b.number, headTime := b.timestamp,
                               oldest := if l.oldest.None? then Some((b.number, b.timestamp)) else l.oldest)))
  {
    hide StoreTxs, B.StoreBytes, AddAllPtrs, Ids;
  }

  /** A call by its outcomes: a limit refused, a failed recovery, nothing to prune, or the loop. */
  lemma PruneBlocksParts(c: Chain, retain: nat, maxOps: nat)
    requires Mapped(c) && c.ledger.head <= U64_MAX
    ensures Mapped(Recover(c).0) && Recover(c).0.ledger.head == c.ledger.head
    ensures retain == 0 || maxOps == 0 ==> P.PruneBlocks(c, retain, maxOps) == (c, Err(InvalidLimit))
    ensures retain > 0 && maxOps > 0 ==>
              var (d, q) := Recover(c);
              && (q.Err? ==> P.PruneBlocks(c, retain, maxOps) == (d, Err(q.error)))
              && (q.Ok? && c.ledger.head <= retain ==>
                    P.PruneBlocks(c, retain, maxOps) == (d, Ok(PruneResult(false, 0, d.ledger.prune.prunedBefore))))
              && (q.Ok? && c.ledger.head > retain ==>
                    var (s, l) := PruneLoop(Start(d), c.ledger.head - retain, maxOps);
                    && Mapped(s.chain)
                    && (l.Err? ==> P.PruneBlocks(c, retain, maxOps) == (s.chain, Err(l.error)))
                    && (l.Ok? ==> var (e, res) := Finish(s, c.ledger.head - retain);
                                  P.PruneBlocks(c, retain, maxOps) == (e, Ok(res))))
  {
    hide Recover, PruneLoop, Finish;
    RecoverMapped(c);
    RecoverHead(c);
    if c.ledger.head > retain > 0 { LoopMapped(Start(Recover(c).0), c.ledger.head - retain, maxOps); }
  }

  class State {
    const pool: Maps
    const blobStore: Store
    const codec: Codec
    var blocks: map<nat, B.BlobPtr>
    var receipts: map<TxId, B.BlobPtr>
    var txIndex: map<TxId, B.BlobPtr>
    var internalTraces: map<TxId, B.BlobPtr>
    var pruneJournal: map<nat, seq<B.BlobPtr>>
    var pruneState: PruneState
    var head: nat
    var headTime: nat
    var oldest: Option<(nat, nat)>

    constructor (cfg: Config, codec: Codec)
      ensures View() == Chain(Fresh(cfg), FreshLedger(codec))
      ensures fresh(pool) && fresh(blobStore)
    {
      pool := new Maps(cfg);
      blobStore := new Store([], 0, map[], {});
      this.codec := codec;
      blocks, receipts, txIndex, internalTraces := map[], map[], map[], map[];
      pruneJournal, pruneState := map[], PruneState(None, 0, None);
      head, headTime, oldest := 0, 0, None;
      new;
      Maps().MergedAt();
      SameMap(Maps().Merged(), map[]);
    }

    function Maps(): PtrMaps
      reads this
    {
      PtrMaps(blocks, receipts, txIndex, internalTraces)
    }

    ghost function LedgerView(): L.Ledger
      reads this, blobStore
    {
      L.Ledger(blobStore.View(), Maps().Merged(), pruneJournal, pruneState, head, headTime, oldest, codec)
    }

    ghost function View(): Chain
      reads this, pool, blobStore
    {
      Chain(pool.View(), LedgerView())
    }

    /** `load_block` */
    method LoadBlock(n: nat) returns (r: Option<BlockData>)
      requires B.Inv(blobStore.View())
      ensures Mapped(View()) && r == L.LoadBlock(LedgerView(), n)
    {
      Roomy(blobStore.View());
      hide B.Inv, PtrMaps.Merged, B.Read;
      MergedHasBlock(Maps(), n);
      if n !in blocks { return None; }
      var bytes := blobStore.Read(blocks[n]);
      match bytes
      case Err(_) => r := None;
      case Ok(data) => r := codec.decode(data);
    }

    /** `collect_ptrs_for_block` */
    method CollectPtrsForBlock(n: nat, ids: seq<TxId>) returns (ps: seq<B.BlobPtr>)
      ensures ps == CollectPtrs(LedgerView(), n, ids)
    {
      hide PtrMaps.Merged, Pick, TxOwners;
      ghost var m := Maps().Merged();
      Maps().MergedAt();
      ps := if n in blocks then [blocks[n]] else [];
      PickBlock(m, n, ids);
      assert ids[0..] == ids;
      for i := 0 to |ids|
        invariant ps + Pick(m, TxOwners(ids[i..])) == Pick(m, BlockOwners(n, ids))
      {
        TxOwnersAt(ids, i);
        PickThree(m, OReceipt(ids[i]), OIndex(ids[i]), OTraces(ids[i]), TxOwners(ids[i + 1..]));
        var more := PtrsForTx(ids[i]);
        AppendAssoc(ps, more, Pick(m, TxOwners(ids[i + 1..])));
        ps := ps + more;
      }
      NoneLeft(m, ids, ps);
    }

    method PtrsForTx(id: TxId) returns (ps: seq<B.BlobPtr>)
      ensures var m := Maps().Merged();
              ps == PickOne(m, OReceipt(id)) + PickOne(m, OIndex(id)) + PickOne(m, OTraces(id))
    {
      hide PtrMaps.Merged;
      Maps().MergedAt();
      PickOneGet(Maps().Merged(), OReceipt(id));
      PickOneGet(Maps().Merged(), OIndex(id));
      PickOneGet(Maps().Merged(), OTraces(id));
      ps := [];
      if id in receipts { ps := ps + [receipts[id]]; }
      if id in txIndex { ps := ps + [txIndex[id]]; }
      if id in internalTraces { ps := ps + [internalTraces[id]]; }
    }

    /** `prune_ops_needed_for_block` */
    method PruneOpsNeededForBlock(n: nat, ids: seq<TxId>) returns (needed: nat)
      ensures needed == OpsForBlock(View(), n, ids)
    {
      hide PtrMaps.Merged, OpsForTxs, OpsForTx;
      MergedHasBlock(Maps(), n);
      needed := if n in blocks then 1 else 0;
      assert ids[0..] == ids;
      for i := 0 to |ids|
        invariant OpsForTxs(View(), ids[i..], needed) == OpsForBlock(View(), n, ids)
      {
        OpsAt(View(), ids, i, needed);
        var one := PruneOpsNeededForTx(ids[i]);
        needed := SatAdd(needed, one, U64_MAX);
      }
      OpsNone(View(), ids, needed);
    }

    /** `prune_ops_needed_for_tx` */
    method PruneOpsNeededForTx(id: TxId) returns (needed: nat)
      ensures needed == OpsForTx(pool.View(), Maps().Merged(), id)
    {
      hide PtrMaps.Merged, TxLocsGet, PtrMaps.At;
      MergedHas(Maps(), id);
      var records := pool.txs;
      needed := PrincipalAndHashOps(id);
      hide Flag, Readable;
      needed := needed + Flag(id in records.store);
      needed := needed + Flag(id in receipts) + Flag(id in txIndex) + Flag(id in internalTraces);
      needed := needed + Flag(TxLocsGet(records, id).Some?);
      needed := needed + Flag(id in records.seen);
    }

    /** The fee entry, the principal's count and the hash index entry. */
    method PrincipalAndHashOps(id: TxId) returns (needed: nat)
      ensures var t := pool.txs;
              needed == Flag(id in pool.fees.key)
                        + Flag(Readable(t, id) && t.store[id].principal in pool.principalPendingCount)
                        + Flag(Readable(t, id) && t.store[id].kind == EthSigned && id in t.ethIndex)
    {
      var records := pool.txs;
      needed := 0;
      if id in pool.fees.key { needed := needed + 1; }
      if id in records.store && records.store[id].Good? {
        if records.store[id].principal in pool.principalPendingCount { needed := needed + 1; }
        if records.store[id].kind == EthSigned && id in records.ethIndex { needed := needed + 1; }
      }
    }

    /** The deletes that go with a pruned block. */
    method DeleteBlock(n: nat, ids: seq<TxId>)
      modifies pool, this`blocks, this`receipts, this`txIndex, this`internalTraces
      ensures View() == Deleted(old(View()), n, ids)
    {
      hide Forget, ForgetAll, PtrMaps.Merged, Remove, TxOwners;
      ghost var m, p := Maps().Merged(), pool.View();
      LessBlock(Maps(), n);
      RemoveBlock(m, n, ids);
      blocks := blocks - {n};
      assert ids[0..] == ids;
      for i := 0 to |ids|
        invariant ForgetAll(pool.View(), ids[i..]) == ForgetAll(p, ids)
        invariant Remove(Maps().Merged(), TxOwners(ids[i..])) == Remove(m, BlockOwners(n, ids))
      {
        ForgetAllAt(pool.View(), ids, i);
        TxOwnersAt(ids, i);
        RemoveThree(Maps().Merged(), OReceipt(ids[i]), OIndex(ids[i]), OTraces(ids[i]), TxOwners(ids[i + 1..]));
        LessTx(Maps(), ids[i]);
        pool.ForgetTx(ids[i]);
        receipts := receipts - {ids[i]};
        txIndex := txIndex - {ids[i]};
        internalTraces := internalTraces - {ids[i]};
      }
      AllGone(Maps().Merged(), pool.View(), ids);
    }

    /** The drain of `prune_blocks` and of the recovery. */
    method DrainPtrs(ps: seq<B.BlobPtr>) returns (r: Result<(), B.BlobError>)
      requires B.Inv(blobStore.View())
      modifies blobStore
      ensures (blobStore.View(), r) == ReclaimAll(old(blobStore.View()), ps)
      ensures B.Inv(blobStore.View())
    {
      hide B.Inv;
      assert ps[0..] == ps;
      for i := 0 to |ps|
        invariant B.Inv(blobStore.View())
        invariant ReclaimAll(blobStore.View(), ps[i..]) == ReclaimAll(old(blobStore.View()), ps)
      {
        ReclaimAllAt(blobStore.View(), ps, i);
        ReclaimInv(blobStore.View(), ps[i]);
        r := blobStore.ReclaimForPrune(ps[i]);
        if r.Err? { return; }
      }
      r := Ok(());
    }

    // -------------------------------------------------------------- persisting a block

    /** `store_tx_index_entry`, `store_receipt` and `store_internal_traces`; None is a trap. */
    method StoreIncluded(tx: StagedTx, growOk: bool) returns (r: Option<TxPtrs>)
      requires B.Inv(blobStore.View())
      modifies blobStore
      ensures B.Inv(blobStore.View())
      ensures match StoreTx(old(blobStore.View()), tx, growOk)
              case None => r == None
              case Some(p) => r == Some(p.1) && blobStore.View() == p.0
    {
      hide B.Inv, B.StoreBytes;
      var index := blobStore.StoreBytes(tx.index, growOk);
      if index.Err? { return None; }
      var receipt := blobStore.StoreBytes(tx.receipt, growOk);
      if receipt.Err? { return None; }
      if tx.traces.None? { return Some(TxPtrs(tx.id, index.value, receipt.value, None)); }
      var traces := blobStore.StoreBytes(tx.traces.value, growOk);
      if traces.Err? { return None; }
      r := Some(TxPtrs(tx.id, index.value, receipt.value, Some(traces.value)));
    }

    method StoreAllIncluded(txs: seq<StagedTx>, growOk: bool) returns (r: Option<seq<TxPtrs>>)
      requires B.Inv(blobStore.View())
      modifies blobStore
      ensures B.Inv(blobStore.View())
      ensures match StoreTxs(old(blobStore.View()), txs, growOk)
              case None => r == None
              case Some(p) => r == Some(p.1) && blobStore.View() == p.0
    {
      hide B.Inv, StoreTx, StoreTxs;
      ghost var a := blobStore.View();
      var staged: seq<TxPtrs> := [];
      assert txs[0..] == txs;
      StagedAll(a, txs, growOk);
      for i := 0 to |txs|
        invariant B.Inv(blobStore.View())
        invariant StagedSoFar(a, txs, growOk, blobStore.View(), txs[i..], staged)
      {
        StagedNext(a, txs, growOk, blobStore.View(), i, staged);
        var ptrs := StoreIncluded(txs[i], growOk);
        if ptrs.None? { return None; }
        staged := staged + [ptrs.value];
      }
      StagedDone(a, txs, growOk, blobStore.View(), staged);
      r := Some(staged);
    }

    method InsertPtrs(ts: seq<TxPtrs>)
      modifies this`receipts, this`txIndex, this`internalTraces
      ensures Maps().Merged() == AddAllPtrs(old(Maps().Merged()), ts)
    {
      hide PtrMaps.Merged, AddPtrs, AddAllPtrs;
      ghost var m := Maps().Merged();
      assert ts[0..] == ts;
      for i := 0 to |ts|
        invariant AddAllPtrs(Maps().Merged(), ts[i..]) == AddAllPtrs(m, ts)
      {
        AddAllPtrsAt(Maps().Merged(), ts, i);
        MoreTx(Maps(), ts[i]);
        txIndex := txIndex[ts[i].id := ts[i].index];
        receipts := receipts[ts[i].id := ts[i].receipt];
        if ts[i].traces.Some? { internalTraces := internalTraces[ts[i].id := ts[i].traces.value]; }
      }
      AllAdded(Maps().Merged(), ts);
    }

    /** The bookkeeping of `produce_block` for the transactions it decided on. When storing traps the platform
        restores the state from before the call, which is not shown here. */
    method PersistBlock(drops: seq<StagedDrop>, txs: seq<StagedTx>, accounts: Sender -> nat, nextBaseFee: nat,
                        now: nat, growOk: bool) returns (ok: bool)
      requires S.Inv(pool.View()) && B.Inv(blobStore.View()) && R.Staged(pool.View(), drops, Ids(txs))
      modifies this, pool, blobStore
      ensures ok == Commit(old(LedgerView()), txs, now, growOk).Some?
      ensures ok ==> View() == Produce(old(View()), Block(drops, txs, accounts, nextBaseFee, now, growOk))
      ensures ok ==> S.Inv(pool.View()) && B.Inv(blobStore.View())
    {
      hide B.Inv, S.Inv, R.Staged, PtrMaps.Merged, M.CommitBlock, Ids, Commit;
      ok := StoreBlock(txs, now, growOk);
      if ok { pool.CommitBlock(drops, Ids(txs), head, accounts, nextBaseFee); }
    }

    /** Blobs, pointers and head of a new block. */
    method StoreBlock(txs: seq<StagedTx>, now: nat, growOk: bool) returns (ok: bool)
      requires B.Inv(blobStore.View())
      modifies this, blobStore
      ensures ok == Commit(old(LedgerView()), txs, now, growOk).Some?
      ensures ok ==> Commit(old(LedgerView()), txs, now, growOk) == Some(LedgerView())
      ensures B.Inv(blobStore.View())
    {
      hide B.Inv, PtrMaps.Merged, StoreTxs, AddAllPtrs, B.StoreBytes, Ids;
      ghost var l := LedgerView();
      CommitInSteps(l, txs, now, growOk);
      hide Commit;
      var staged := StoreAllIncluded(txs, growOk);
      if staged.None? { return false; }
      var block := BlockData(SatAdd(head, 1, U64_MAX), Max(SatAdd(headTime, 1, U64_MAX), now), Ids(txs));
      var stored := blobStore.StoreBytes(codec.encode(block), growOk);
      if stored.Err? { return false; }
      if oldest.None? { oldest := Some((block.number, block.timestamp)); }
      InsertPtrs(staged.value);
      MoreBlock(Maps(), block.number, stored.value);
      blocks := blocks[block.number := stored.value];
      head := block.number;
      headTime := block.timestamp;
      ok := true;
    }

    /** `apply_drops_only`: what `produce_block` does when no transaction is included. */
    method ApplyDropsOnly(drops: seq<StagedDrop>)
      requires S.Inv(pool.View()) && R.Staged(pool.View(), drops, [])
      modifies pool
      ensures View() == old(View()).(pool := ApplyDrops(old(pool.View()), drops)) && S.Inv(pool.View())
    {
      hide S.Inv, R.Staged, R.Takes, ApplyDrops;
      R.StagedPending(pool.View(), drops, []);
      pool.ApplyStagedDrops(drops, []);
    }

    // -------------------------------------------------------------- pruning

    /** The body of the loop of `prune_blocks` for a block that loads. */
    method PruneOneBlock(st: PruneState, n: nat, ids: seq<TxId>) returns (r: Result<(), PruneError>)
      requires B.Inv(blobStore.View())
      modifies this, pool, blobStore
      ensures (View(), r) == PruneOne(old(View()), st, n, ids)
      ensures B.Inv(blobStore.View()) && head == old(head)
    {
      hide B.Inv, PtrMaps.Merged, CollectPtrs, ReclaimAll, Remove, BlockOwners, ForgetAll;
      var ps := CollectPtrsForBlock(n, ids);
      pruneJournal := pruneJournal[n := ps];
      pruneState := st.(journalBlock := Some(n));
      DeleteBlock(n, ids);
      var drained := DrainPtrs(ps);
      if drained.Err? { return Err(ExecFailed); }
      pruneJournal := pruneJournal - {n};
      pruneState := st.(prunedBefore := Some(n), journalBlock := None);
      r := Ok(());
    }

    /** `find_next_existing_block` */
    method FindNextExistingBlock(start: nat) returns (r: Option<(nat, nat)>)
      requires B.Inv(blobStore.View())
      ensures Mapped(View())
      ensures match NextExisting(LedgerView(), start)
              case None => r == None
              case Some(n) => r == Some((n, L.LoadBlock(LedgerView(), n).value.timestamp))
    {
      Roomy(blobStore.View());
      hide B.Inv, L.LoadBlock, PtrMaps.Merged;
      ghost var l := LedgerView();
      AbsentDoesNotLoad(l, Maps());
      var rest := set n | n in blocks && start <= n;
      while rest != {}
        invariant forall n :: n in rest ==> n in blocks && start <= n
        invariant forall n :: n in blocks && start <= n && n !in rest ==> L.LoadBlock(l, n).None?
        decreases |rest|
      {
        var n := Least(rest);
        var block := LoadBlock(n);
        if block.Some? {
          assert IsNextExisting(l, start, n);
          NextExistingUnique(l, start);
          return Some((n, block.value.timestamp));
        }
        rest := rest - {n};
      }
      r := None;
    }

    /** `refresh_oldest` */
    method RefreshOldest()
      requires B.Inv(blobStore.View())
      modifies this`oldest
      ensures Mapped(old(View())) && View() == old(View()).(ledger := P.RefreshOldest(old(LedgerView())))
    {
      Roomy(blobStore.View());
      hide B.Inv, L.LoadBlock, PtrMaps.Merged, NextExisting;
      var start := match pruneState.prunedBefore case Some(p) => SatAdd(p, 1, U64_MAX) case None => 0;
      var found := FindNextExistingBlock(start);
      if found.Some? { oldest := found; }
    }

    /** `find_block_at_timestamp` */
    method FindBlockAtTimestamp(cutoff: nat) returns (best: Option<(nat, nat)>)
      requires B.Inv(blobStore.View()) && head < U64_MAX
      ensures Mapped(View()) && best == Retention.FindBlockAtTimestamp(LedgerView(), cutoff)
    {
      Roomy(blobStore.View());
      hide B.Inv, L.LoadBlock, PtrMaps.Merged;
      var low: nat := match oldest case Some(o) => o.0 case None => 0;
      var high: nat := head;
      best := None;
      while low <= high
        invariant high < U64_MAX
        invariant Retention.Search(LedgerView(), low, high, cutoff, best)
               == Retention.FindBlockAtTimestamp(LedgerView(), cutoff)
        decreases high + 1 - low
      {
        var mid := Retention.Middle(low, high);
        var block := LoadBlock(mid);
        if block.None? { break; }
        if block.value.timestamp <= cutoff {
          best := Some((mid, block.value.timestamp));
          low := SatAdd(mid, 1, U64_MAX);
        } else if mid == 0 {
          break;
        } else {
          high := SatSub(mid, 1);
        }
      }
    }

    /** `recover_prune_journal` */
    method RecoverPruneJournal() returns (r: Result<(), PruneError>)
      requires B.Inv(blobStore.View())
      modifies this, pool, blobStore
      ensures Mapped(old(View())) && (View(), r) == Recover(old(View()))
      ensures B.Inv(blobStore.View())
    {
      Roomy(blobStore.View());
      hide B.Inv, PtrMaps.Merged, Replay, P.RefreshOldest;
      ghost var c := View();
      if pruneState.journalBlock.None? && pruneJournal == map[] {
        pruneState := Normalized(pruneState);
        return Ok(());
      }
      var n: nat;
      if pruneState.journalBlock.Some? {
        n := pruneState.journalBlock.value;
      } else {
        n := Least(pruneJournal.Keys);
        OldestEntry(c.ledger, n);
      }
      assert JournalBlock(c.ledger) == Some(n);
      hide JournalBlock;
      var st := pruneState.(journalBlock := Some(n));
      pruneState := st;
      if n in pruneJournal {
        st, r := ReplayEntry(st, n);
        if r.Err? { return; }
      }
      pruneState := Normalized(st.(journalBlock := None));
      RefreshOldest();
      r := Ok(());
    }

    method ReplayEntry(st0: PruneState, n: nat) returns (st: PruneState, r: Result<(), PruneError>)
      requires B.Inv(blobStore.View()) && n in pruneJournal
      modifies this, pool, blobStore
      ensures Mapped(old(View())) && (View(), st, r) == Replay(old(View()), st0, n)
      ensures B.Inv(blobStore.View())
    {
      Roomy(blobStore.View());
      hide B.Inv, PtrMaps.Merged, L.LoadBlock, ReclaimAll, Deleted;
      st := st0;
      var ps := pruneJournal[n];
      var block := LoadBlock(n);
      if block.Some? {
        DeleteBlock(n, block.value.txIds);
        assert View() == Deleted(old(View()), n, block.value.txIds);
        DeletedKeeps(old(View()), n, block.value.txIds);
        st := st.(prunedBefore := RecoverPrunedBefore(st.prunedBefore, n));
      }
      var drained := DrainPtrs(ps);
      if drained.Err? { return st, Err(ExecFailed); }
      pruneJournal := pruneJournal - {n};
      r := Ok(());
    }

    /** `prune_blocks` */
    method PruneBlocks(retain: nat, maxOps: nat) returns (r: Result<PruneResult, PruneError>)
      requires B.Inv(blobStore.View()) && head <= U64_MAX
      modifies this, pool, blobStore
      ensures Mapped(old(View())) && (View(), r) == P.PruneBlocks(old(View()), retain, maxOps)
      ensures B.Inv(blobStore.View())
    {
      Roomy(blobStore.View());
      hide B.Inv, PtrMaps.Merged, Recover, PruneLoop, P.RefreshOldest, P.PruneBlocks, Finish;
      ghost var c := View();
      PruneBlocksParts(c, retain, maxOps);
      if retain == 0 || maxOps == 0 { return Err(InvalidLimit); }
      var recovered := RecoverPruneJournal();
      RecoverHead(c);
      RecoverMapped(c);
      if recovered.Err? { return Err(recovered.error); }
      if head <= retain { return Ok(PruneResult(false, 0, pruneState.prunedBefore)); }
      ghost var d := View();
      LoopMapped(Start(d), head - retain, maxOps);
      r := PruneToBound(head - retain, maxOps);
    }

    /** The rest of `prune_blocks` once the bound is known. */
    method PruneToBound(bound: nat, maxOps: nat) returns (r: Result<PruneResult, PruneError>)
      requires B.Inv(blobStore.View()) && bound < U64_MAX
      modifies this, pool, blobStore
      ensures Mapped(old(View()))
      ensures var (s, q) := PruneLoop(Start(old(View())), bound, maxOps);
              && Mapped(s.chain)
              && (q.Err? ==> View() == s.chain && r == Err(q.error))
              && (q.Ok? ==> View() == Finish(s, bound).0 && r == Ok(Finish(s, bound).1))
      ensures B.Inv(blobStore.View())
    {
      Roomy(blobStore.View());
      hide B.Inv, PtrMaps.Merged, PruneLoop, P.RefreshOldest;
      LoopMapped(Start(View()), bound, maxOps);
      var st, next, worked, swept := Sweeping(bound, maxOps);
      if swept.Err? { return Err(swept.error); }
      st := st.(next := next);
      pruneState := st;
      RefreshOldest();
      r := Ok(PruneResult(worked, Remaining(next, bound), st.prunedBefore));
    }

    /** The loop of `prune_blocks`. */
    method Sweeping(bound: nat, maxOps: nat)
      returns (st: PruneState, next: nat, worked: bool, r: Result<(), PruneError>)
      requires B.Inv(blobStore.View()) && bound < U64_MAX
      modifies this, pool, blobStore
      ensures Mapped(old(View()))
      ensures var (e, q) := PruneLoop(Start(old(View())), bound, maxOps);
              q == r && View() == e.chain && (r.Ok? ==> st == e.st && next == e.next && worked == e.worked)
      ensures B.Inv(blobStore.View())
    {
      Roomy(blobStore.View());
      hide B.Inv, PtrMaps.Merged, PruneOne, L.LoadBlock, OpsForBlock;
      ghost var whole := PruneLoop(Start(View()), bound, maxOps);
      st := pruneState;
      next := Normalize(st);
      worked := false;
      var used := 0;
      r := Ok(());
      while next <= bound
        invariant B.Inv(blobStore.View()) && Mapped(View())
        invariant PruneLoop(Sweep(View(), st, next, used, worked), bound, maxOps) == whole
        decreases bound + 1 - next
      {
        Roomy(blobStore.View());
        var block := LoadBlock(next);
        if block.None? {
          st := st.(prunedBefore := Some(next));
          next := SatAdd(next, 1, U64_MAX);
          worked := true;
          continue;
        }
        var needed := PruneOpsNeededForBlock(next, block.value.txIds);
        if SatAdd(used, needed, U64_MAX) > maxOps { return; }
        var pruned := PruneOneBlock(st, next, block.value.txIds);
        if pruned.Err? {
          r := pruned;
          return;
        }
        Roomy(blobStore.View());
        used := SatAdd(used, needed, U64_MAX);
        st := st.(prunedBefore := Some(next), journalBlock := None);
        next := SatAdd(next, 1, U64_MAX);
        worked := true;
      }
    }
  }

  /** `range(..).next()` on a set of numbers. */
  method Least(s: set<nat>) returns (n: nat)
    requires s != {}
    ensures n in s && forall m :: m in s ==> n <= m
  {
    n :| n in s;
    var rest := s - {n};
    while rest != {}
      invariant n in s && rest <= s && forall m :: m in s && m !in rest ==> n <= m
      decreases |rest|
    {
      var m :| m in rest;
      if m < n { n := m; }
      rest := rest - {m};
    }
  }

  lemma OldestEntry(l: L.Ledger, n: nat)
    requires l.prune.journalBlock.None? && n in l.journal.Keys && forall m :: m in l.journal.Keys ==> n <= m
    ensures JournalBlock(l) == Some(n)
  {
  }

  lemma DeletedKeeps(c: Chain, n: nat, ids: seq<TxId>)
    ensures Deleted(c, n, ids).ledger.arena == c.ledger.arena && Deleted(c, n, ids).ledger.journal == c.ledger.journal
  {
  }

  lemma AbsentDoesNotLoad(l: L.Ledger, m: PtrMaps)
    requires l.arena.end <= |l.arena.bytes| && l.ptrs == m.Merged()
    ensures forall n :: n !in m.blocks ==> L.LoadBlock(l, n).None?
  {
  }
}
