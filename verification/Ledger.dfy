/** Who owns the blob slots: blocks, receipts, index entries and traces of `crates/evm-core/src/chain.rs` over the
    arena, block persistence, and what pruning one block releases. */
module Ledger {
  import opened Common
  import opened Types
  import opened B = BlobStore

  datatype BlockData = BlockData(number: nat, timestamp: nat, txIds: seq<TxId>)

  /** The block codec, kept abstract: bytes and back, None for bytes that are not a block. */
  datatype Codec = Codec(encode: BlockData -> seq<byte>, decode: seq<byte> -> Option<BlockData>)

  ghost predicate RoundTrips(c: Codec) { forall b: BlockData :: c.decode(c.encode(b)) == Some(b) }

  /** One key of one of the four pointer maps: blocks, receipts, tx_index, internal_traces. */
  datatype Owner = OBlock(number: nat) | OReceipt(id: TxId) | OIndex(id: TxId) | OTraces(id: TxId)

  datatype PruneState = PruneState(prunedBefore: Option<nat>, next: nat, journalBlock: Option<nat>)

  datatype Ledger = Ledger(
    arena: Arena,
    ptrs: map<Owner, BlobPtr>,
    journal: map<nat, seq<BlobPtr>>,
    prune: PruneState,
    head: nat, headTime: nat,
    oldest: Option<(nat, nat)>,
    codec: Codec)

  // ---------------------------------------------------------------- slot ownership

  /** Used slots and owners correspond one to one: nothing leaks, nothing dangles, nothing is shared. */
  ghost predicate Owned(a: Arena, m: map<Owner, BlobPtr>) {
    && (forall o :: o in m
         ==> m[o].Fits() && m[o].Key() in a.table && a.table[m[o].Key()] == AllocEntry(m[o].gen, Used))
    && (forall o, q :: o in m && q in m && o != q ==> m[o].Key() != m[q].Key())
    && (forall k :: k in a.table ==> a.table[k].state != Quarantine && (a.table[k].state == Used ==> HasOwner(m, k)))
  }

  ghost predicate HasOwner(m: map<Owner, BlobPtr>, k: AllocKey) { exists o :: o in m && m[o].Key() == k }

  ghost predicate SameReads(a: Arena, b: Arena, m: map<Owner, BlobPtr>)
    requires a.end <= |a.bytes| && b.end <= |b.bytes|
  {
    forall o :: o in m ==> Read(b, m[o]) == Read(a, m[o])
  }

  /** Storing a blob for a new owner. */
  lemma StoreOwned(a: Arena, m: map<Owner, BlobPtr>, o: Owner, data: seq<byte>, growOk: bool)
    requires Inv(a) && Owned(a, m) && o !in m && StoreBytes(a, data, growOk).1.Ok?
    ensures var (b, r) := StoreBytes(a, data, growOk);
            && Inv(b) && Owned(b, m[o := r.value]) && Read(b, r.value) == Ok(data)
            && SameReads(a, b, m)
  {
    hide Inv, StoreBytes, Read;
    StoreSpec(a, data, growOk);
    var (b, r) := StoreBytes(a, data, growOk);
    Roomy(a);
    Roomy(b);
    var n := m[o := r.value];
    forall k | k in b.table && b.table[k].state == Used ensures HasOwner(n, k) {
      if k == r.value.Key() {
        assert o in n && n[o].Key() == k;
      } else {
        assert HasOwner(m, k);
        var q :| q in m && m[q].Key() == k;
        assert q in n && n[q].Key() == k;
      }
    }
    forall q | q in m ensures Read(b, m[q]) == Read(a, m[q]) {
      StepKeepsLive(a, m[q], OpStore(data, growOk));
    }
  }

  /** Reclaiming an owner's slot succeeds and releases exactly that slot. */
  lemma ReclaimOwned(a: Arena, m: map<Owner, BlobPtr>, o: Owner)
    requires Inv(a) && Owned(a, m) && o in m
    ensures var (b, r) := ReclaimForPrune(a, m[o]);
            r.Ok? && Inv(b) && Owned(b, m - {o}) && Dead(b, m[o]) && SameReads(a, b, m - {o})
  {
    hide Inv, Read;
    var b := ReclaimForPrune(a, m[o]).0;
    StepInv(a, OpReclaim(m[o]));
    Roomy(a);
    Roomy(b);
    forall k | k in b.table && b.table[k].state == Used ensures HasOwner(m - {o}, k) {
      assert HasOwner(m, k);
      var q :| q in m && m[q].Key() == k;
      assert q in m - {o} && (m - {o})[q].Key() == k;
    }
    forall q | q in m - {o} ensures Read(b, m[q]) == Read(a, m[q]) {
      StepKeepsLive(a, m[q], OpReclaim(m[o]));
    }
  }

  // ---------------------------------------------------------------- persisting a block

  datatype StagedTx = StagedTx(id: TxId, index: seq<byte>, receipt: seq<byte>, traces: Option<seq<byte>>)

  /** The pointers one included transaction gets. */
  datatype TxPtrs = TxPtrs(id: TxId, index: BlobPtr, receipt: BlobPtr, traces: Option<BlobPtr>)

  /** Index entry, receipt, then traces if there are any; None is a trap, which undoes everything. */
  ghost function StoreTx(a: Arena, tx: StagedTx, growOk: bool): Option<(Arena, TxPtrs)> {
    var (a1, i) := StoreBytes(a, tx.index, growOk);
    if i.Err? then None
    else
      var (a2, r) := StoreBytes(a1, tx.receipt, growOk);
      if r.Err? then None
      else if tx.traces.None? then Some((a2, TxPtrs(tx.id, i.value, r.value, None)))
      else
        var (a3, t) := StoreBytes(a2, tx.traces.value, growOk);
        if t.Err? then None else Some((a3, TxPtrs(tx.id, i.value, r.value, Some(t.value))))
  }

  ghost function StoreTxs(a: Arena, txs: seq<StagedTx>, growOk: bool): Option<(Arena, seq<TxPtrs>)>
    decreases |txs|
  {
    if txs == [] then Some((a, []))
    else
      match StoreTx(a, txs[0], growOk)
      case None => None
      case Some(p) =>
        match StoreTxs(p.0, txs[1..], growOk)
        case None => None
        case Some(q) => Some((q.0, [p.1] + q.1))
  }

  function AddPtrs(m: map<Owner, BlobPtr>, t: TxPtrs): map<Owner, BlobPtr> {
    var n := m[OIndex(t.id) := t.index][OReceipt(t.id) := t.receipt];
    if t.traces.Some? then n[OTraces(t.id) := t.traces.value] else n
  }

  function AddAllPtrs(m: map<Owner, BlobPtr>, ts: seq<TxPtrs>): map<Owner, BlobPtr>
    decreases |ts|
  {
    if ts == [] then m else AddAllPtrs(AddPtrs(m, ts[0]), ts[1..])
  }

  function Ids(txs: seq<StagedTx>): (r: seq<TxId>)
    ensures |r| == |txs| && forall i :: 0 <= i < |txs| ==> r[i] == txs[i].id
  {
    if txs == [] then [] else [txs[0].id] + Ids(txs[1..])
  }

  function NextNumber(l: Ledger): nat { SatAdd(l.head, 1, U64_MAX) }

  /** `next_block_timestamp`: strictly after the head's, and not before the clock. */
  function NextTime(l: Ledger, now: nat): nat { Max(SatAdd(l.headTime, 1, U64_MAX), now) }

  /** The persisting half of `produce_block`; None is a trap, which undoes everything. */
  ghost function Commit(l: Ledger, txs: seq<StagedTx>, now: nat, growOk: bool): Option<Ledger> {
    match StoreTxs(l.arena, txs, growOk)
    case None => None
    case Some(p) =>
      var data := BlockData(NextNumber(l), NextTime(l, now), Ids(txs));
      var (a, b) := StoreBytes(p.0, l.codec.encode(data), growOk);
      if b.Err? then None
      else Some(l.(arena := a, ptrs := AddAllPtrs(l.ptrs, p.1)[OBlock(data.number) := b.value],
                   head := data.number, headTime := data.timestamp,
                   oldest := if l.oldest.None? then Some((data.number, data.timestamp)) else l.oldest))
  }

  /** `load_block` */
  function LoadBlock(l: Ledger, n: nat): Option<BlockData>
    requires l.arena.end <= |l.arena.bytes|
  {
    if OBlock(n) !in l.ptrs then None
    else match Read(l.arena, l.ptrs[OBlock(n)])
      case Err(_) => None
      case Ok(bytes) => l.codec.decode(bytes)
  }

  // ---------------------------------------------------------------- the ledger's invariant

  predicate Distinct(ids: seq<TxId>) { forall i, j :: 0 <= i < j < |ids| ==> ids[i] != ids[j] }

  /** The stored blocks: every number from the first unpruned one to the head, timestamps strictly increasing,
      and no transaction twice. */
  ghost predicate Chained(bs: map<nat, BlockData>, first: nat, head: nat, headTime: nat) {
    && 1 <= first <= head + 1
    && (forall n :: n in bs <==> first <= n <= head)
    && (forall n :: n in bs ==> bs[n].number == n && Distinct(bs[n].txIds) && bs[n].timestamp <= headTime)
    && (forall n, m :: n in bs && m in bs && n < m ==> bs[n].timestamp < bs[m].timestamp)
    && (forall n, m, id :: n in bs && m in bs && id in bs[n].txIds && id in bs[m].txIds ==> n == m)
  }

  /** The pointer maps name exactly the stored blocks and their transactions. */
  ghost predicate Indexed(m: map<Owner, BlobPtr>, bs: map<nat, BlockData>) {
    && (forall n :: OBlock(n) in m <==> n in bs)
    && (forall n, id :: n in bs && id in bs[n].txIds ==> OReceipt(id) in m && OIndex(id) in m)
    && (forall o :: o in m && !o.OBlock? ==> InSomeBlock(bs, o.id))
  }

  ghost predicate InSomeBlock(bs: map<nat, BlockData>, id: TxId) { exists n :: n in bs && id in bs[n].txIds }

  ghost predicate Loads(l: Ledger, bs: map<nat, BlockData>)
    requires l.arena.end <= |l.arena.bytes|
  {
    forall n :: n in bs ==> LoadBlock(l, n) == Some(bs[n])
  }

  /** A ledger between calls: `bs` are the blocks it stores, from number `first` on. The pruning cursor may lag
      behind `first`, as it does after a recovery that found its block already gone. */
  ghost predicate Sound(l: Ledger, bs: map<nat, BlockData>, first: nat) {
    && Inv(l.arena)
    && RoundTrips(l.codec)
    && Owned(l.arena, l.ptrs)
    && Indexed(l.ptrs, bs)
    && Loads(l, bs)
    && Chained(bs, first, l.head, l.headTime)
    && CursorOk(l.prune, first)
    && l.journal == map[]
  }

  ghost predicate CursorOk(st: PruneState, first: nat) {
    && (match st.prunedBefore case None => st.next == 0 case Some(p) => st.next <= p + 1 && p < first)
    && st.journalBlock == None
  }

  /** The recorded oldest block is the first one stored. */
  ghost predicate OldestOk(l: Ledger, bs: map<nat, BlockData>, first: nat) {
    && (first in bs ==> l.oldest == Some((first, bs[first].timestamp)))
    && (first !in bs ==> l.oldest == None && l.head == 0)
  }

  function FreshLedger(c: Codec): Ledger {
    Ledger(EMPTY, map[], map[], PruneState(None, 0, None), 0, 0, None, c)
  }

  lemma FreshSound(c: Codec)
    requires RoundTrips(c)
    ensures Sound(FreshLedger(c), map[], 1) && OldestOk(FreshLedger(c), map[], 1)
  {
    EmptyInv();
    hide Inv, RoundTrips;
    assert Owned(EMPTY, map[]);
    assert Chained(map[], 1, 0, 0);
    hide Owned, Chained, Indexed, Loads;
  }

  // ---------------------------------------------------------------- committing keeps it

  /** Nothing is stored yet for the transaction. */
  predicate IsNew(m: map<Owner, BlobPtr>, id: TxId) { OIndex(id) !in m && OReceipt(id) !in m && OTraces(id) !in m }

  lemma SameReadsTrans(a: Arena, b: Arena, c: Arena, m: map<Owner, BlobPtr>, n: map<Owner, BlobPtr>)
    requires a.end <= |a.bytes| && b.end <= |b.bytes| && c.end <= |c.bytes|
    requires SameReads(a, b, m) && SameReads(b, c, n) && forall o :: o in m ==> o in n && n[o] == m[o]
    ensures SameReads(a, c, m)
  {
  }

  lemma Roomy(a: Arena)
    requires Inv(a)
    ensures a.end <= |a.bytes|
  {
  }

  lemma StoreTxOwned(a: Arena, m: map<Owner, BlobPtr>, tx: StagedTx, growOk: bool)
    requires Inv(a) && Owned(a, m) && IsNew(m, tx.id) && StoreTx(a, tx, growOk).Some?
    ensures var (b, t) := StoreTx(a, tx, growOk).value;
            Inv(b) && Owned(b, AddPtrs(m, t)) && t.id == tx.id && SameReads(a, b, m)
  {
    hide Inv, Owned, StoreBytes, SameReads, Read;
    StoreOwned(a, m, OIndex(tx.id), tx.index, growOk);
    var (a1, i) := StoreBytes(a, tx.index, growOk);
    var m1 := m[OIndex(tx.id) := i.value];
    StoreOwned(a1, m1, OReceipt(tx.id), tx.receipt, growOk);
    var (a2, r) := StoreBytes(a1, tx.receipt, growOk);
    var m2 := m1[OReceipt(tx.id) := r.value];
    Roomy(a); Roomy(a1); Roomy(a2);
    SameReadsTrans(a, a1, a2, m, m1);
    if tx.traces.Some? {
      StoreOwned(a2, m2, OTraces(tx.id), tx.traces.value, growOk);
      Roomy(StoreBytes(a2, tx.traces.value, growOk).0);
      SameReadsTrans(a, a2, StoreBytes(a2, tx.traces.value, growOk).0, m, m2);
    }
  }

  /** What storing the transactions left: one more owned slot per pointer, the old pointers reading as before. */
  ghost predicate StoredAll(a: Arena, m: map<Owner, BlobPtr>, ids: seq<TxId>, b: Arena, n: map<Owner, BlobPtr>) {
    && Inv(b) && Owned(b, n) && a.end <= |a.bytes| && b.end <= |b.bytes| && SameReads(a, b, m)
    && (forall o :: o in m ==> o in n && n[o] == m[o])
    && (forall id :: id in ids ==> OIndex(id) in n && OReceipt(id) in n)
    && (forall o :: o in n && o !in m ==> !o.OBlock? && o.id in ids)
  }

  lemma {:induction false} StoreTxsOwned(a: Arena, m: map<Owner, BlobPtr>, txs: seq<StagedTx>, growOk: bool)
    requires Inv(a) && Owned(a, m) && Distinct(Ids(txs)) && StoreTxs(a, txs, growOk).Some?
    requires forall id :: id in Ids(txs) ==> IsNew(m, id)
    ensures var (b, ts) := StoreTxs(a, txs, growOk).value; StoredAll(a, m, Ids(txs), b, AddAllPtrs(m, ts))
    decreases |txs|
  {
    hide Inv, Owned, StoreTx, SameReads, Read;
    Roomy(a);
    if txs == [] {
      ReadsSelf(a, m);
    } else {
      hide StoredAll, IsNew, Ids, Distinct, StoreTxs, AddPtrs, AddAllPtrs;
      IdsTail(txs);
      StoreTxsHead(a, txs, growOk);
      StoreTxOwned(a, m, txs[0], growOk);
      var (a1, t) := StoreTx(a, txs[0], growOk).value;
      StillNew(m, t, Ids(txs[1..]));
      StoreTxsOwned(a1, AddPtrs(m, t), txs[1..], growOk);
      var (b, ts) := StoreTxs(a1, txs[1..], growOk).value;
      AddAllHead(m, t, ts);
      Roomy(a1);
      StoredOneMore(a, m, Ids(txs), a1, t, Ids(txs[1..]), b, AddAllPtrs(AddPtrs(m, t), ts));
    }
  }

  lemma StoreTxsHead(a: Arena, txs: seq<StagedTx>, growOk: bool)
    requires txs != [] && StoreTxs(a, txs, growOk).Some?
    ensures StoreTx(a, txs[0], growOk).Some?
    ensures var (a1, t) := StoreTx(a, txs[0], growOk).value;
            var rest := StoreTxs(a1, txs[1..], growOk);
            rest.Some? && StoreTxs(a, txs, growOk).value == (rest.value.0, [t] + rest.value.1)
  {
  }

  lemma AddAllHead(m: map<Owner, BlobPtr>, t: TxPtrs, ts: seq<TxPtrs>)
    ensures AddAllPtrs(m, [t] + ts) == AddAllPtrs(AddPtrs(m, t), ts)
  {
  }

  lemma StillNew(m: map<Owner, BlobPtr>, t: TxPtrs, ids: seq<TxId>)
    requires t.id !in ids && forall id :: id in ids ==> IsNew(m, id)
    ensures forall id :: id in ids ==> IsNew(AddPtrs(m, t), id)
  {
  }

  lemma StoredOneMore(a: Arena, m: map<Owner, BlobPtr>, ids: seq<TxId>, a1: Arena, t: TxPtrs, rest: seq<TxId>, b: Arena,
                      n: map<Owner, BlobPtr>)
    requires Inv(a) && Inv(a1) && a.end <= |a.bytes| && a1.end <= |a1.bytes| && IsNew(m, t.id) && SameReads(a, a1, m)
    requires StoredAll(a1, AddPtrs(m, t), rest, b, n)
    requires forall id :: id in ids <==> id == t.id || id in rest
    ensures StoredAll(a, m, ids, b, n)
  {
    hide Inv, Owned, SameReads, Read;
    Roomy(a1);
    SameReadsTrans(a, a1, b, m, AddPtrs(m, t));
  }

  lemma {:induction false} IdsTail(txs: seq<StagedTx>)
    requires txs != [] && Distinct(Ids(txs))
    ensures Distinct(Ids(txs[1..])) && txs[0].id !in Ids(txs[1..])
    ensures forall id :: id in Ids(txs) <==> id == txs[0].id || id in Ids(txs[1..])
  {
  }

  lemma ReadsSelf(a: Arena, m: map<Owner, BlobPtr>)
    requires a.end <= |a.bytes|
    ensures SameReads(a, a, m)
  {
  }

  function Produced(l: Ledger, txs: seq<StagedTx>, now: nat): BlockData {
    BlockData(NextNumber(l), NextTime(l, now), Ids(txs))
  }

  lemma ChainedMore(bs: map<nat, BlockData>, first: nat, head: nat, headTime: nat, b: BlockData)
    requires Chained(bs, first, head, headTime) && b.number == head + 1 && headTime < b.timestamp && Distinct(b.txIds)
    requires forall id :: id in b.txIds ==> !InSomeBlock(bs, id)
    ensures Chained(bs[b.number := b], first, b.number, b.timestamp)
  {
  }

  lemma IndexedMore(m: map<Owner, BlobPtr>, n: map<Owner, BlobPtr>, bs: map<nat, BlockData>, b: BlockData, p: BlobPtr)
    requires Indexed(m, bs) && b.number !in bs
    requires forall o :: o in m ==> o in n
    requires forall id :: id in b.txIds ==> OIndex(id) in n && OReceipt(id) in n
    requires forall o :: o in n && o !in m ==> !o.OBlock? && o.id in b.txIds
    ensures Indexed(n[OBlock(b.number) := p], bs[b.number := b])
  {
    var bs' := bs[b.number := b];
    forall o | o in n && !o.OBlock? ensures InSomeBlock(bs', o.id) {
      if o in m {
        assert InSomeBlock(bs, o.id);
        var k :| k in bs && o.id in bs[k].txIds;
        assert k in bs' && o.id in bs'[k].txIds;
      } else {
        assert b.number in bs' && o.id in bs'[b.number].txIds;
      }
    }
  }

  lemma NewToPtrs(m: map<Owner, BlobPtr>, bs: map<nat, BlockData>, ids: seq<TxId>)
    requires Indexed(m, bs) && forall id :: id in ids ==> !InSomeBlock(bs, id)
    ensures forall id :: id in ids ==> IsNew(m, id)
  {
  }

  lemma LoadsMore(l: Ledger, l': Ledger, bs: map<nat, BlockData>, b: BlockData)
    requires l.arena.end <= |l.arena.bytes| && l'.arena.end <= |l'.arena.bytes|
    requires Loads(l, bs) && SameReads(l.arena, l'.arena, l.ptrs) && b.number !in bs && l'.codec == l.codec
    requires forall o :: o in l.ptrs ==> o in l'.ptrs && l'.ptrs[o] == l.ptrs[o]
    requires LoadBlock(l', b.number) == Some(b)
    ensures Loads(l', bs[b.number := b])
  {
  }

  /** Where the pointers and the readable blocks are after a commit. */
  lemma CommitArena(l: Ledger, bs: map<nat, BlockData>, first: nat, txs: seq<StagedTx>, now: nat, growOk: bool)
    requires Sound(l, bs, first) && NextNumber(l) !in bs
    requires Distinct(Ids(txs)) && forall id :: id in Ids(txs) ==> !InSomeBlock(bs, id)
    requires Commit(l, txs, now, growOk).Some?
    ensures var l' := Commit(l, txs, now, growOk).value;
            var b := Produced(l, txs, now);
            && Inv(l'.arena) && Owned(l'.arena, l'.ptrs)
            && Indexed(l'.ptrs, bs[b.number := b]) && Loads(l', bs[b.number := b])
  {
    hide Inv, Owned, StoreBytes, StoreTxs, SameReads, Read, Indexed, Loads, Chained, RoundTrips, LoadBlock, AddAllPtrs,
         Distinct, Ids;
    var b := Produced(l, txs, now);
    var l' := Commit(l, txs, now, growOk).value;
    NewToPtrs(l.ptrs, bs, b.txIds);
    StoreTxsOwned(l.arena, l.ptrs, txs, growOk);
    var (a, ts) := StoreTxs(l.arena, txs, growOk).value;
    var m := AddAllPtrs(l.ptrs, ts);
    assert StoredAll(l.arena, l.ptrs, b.txIds, a, m);
    assert OBlock(b.number) !in m by { BlockIsNew(l.ptrs, bs, b.number); }
    StoreOwned(a, m, OBlock(b.number), l.codec.encode(b), growOk);
    Roomy(l.arena); Roomy(a); Roomy(l'.arena);
    SameReadsTrans(l.arena, a, l'.arena, l.ptrs, m);
    IndexedMore(l.ptrs, m, bs, b, l'.ptrs[OBlock(b.number)]);
    DecodesBack(l', b);
    LoadsMore(l, l', bs, b);
  }

  /** A committed block: one more slot per pointer, the block readable under its number, everything else as it
      was, timestamps still strictly increasing. */
  lemma CommitSound(l: Ledger, bs: map<nat, BlockData>, first: nat, txs: seq<StagedTx>, now: nat, growOk: bool)
    requires Sound(l, bs, first) && l.head < U64_MAX && l.headTime < U64_MAX
    requires Distinct(Ids(txs)) && forall id :: id in Ids(txs) ==> !InSomeBlock(bs, id)
    requires Commit(l, txs, now, growOk).Some?
    ensures var l' := Commit(l, txs, now, growOk).value;
            var b := Produced(l, txs, now);
            Sound(l', bs[b.number := b], first) && b.number !in bs && l'.head == b.number
            && (OldestOk(l, bs, first) ==> OldestOk(l', bs[b.number := b], first))
  {
    HeadIsLast(l, bs, first);
    hide Inv, Owned, StoreBytes, StoreTxs, Indexed, Loads, Chained, RoundTrips, AddAllPtrs, Distinct, Ids;
    var b := Produced(l, txs, now);
    CommitArena(l, bs, first, txs, now, growOk);
    ChainedMore(bs, first, l.head, l.headTime, b);
  }

  lemma HeadIsLast(l: Ledger, bs: map<nat, BlockData>, first: nat)
    requires Sound(l, bs, first)
    ensures l.head + 1 !in bs && (first in bs || first == l.head + 1)
  {
  }

  lemma BlockIsNew(m: map<Owner, BlobPtr>, bs: map<nat, BlockData>, n: nat)
    requires Indexed(m, bs) && n !in bs
    ensures OBlock(n) !in m
  {
  }

  lemma DecodesBack(l: Ledger, b: BlockData)
    requires l.arena.end <= |l.arena.bytes| && RoundTrips(l.codec) && OBlock(b.number) in l.ptrs
    requires Read(l.arena, l.ptrs[OBlock(b.number)]) == Ok(l.codec.encode(b))
    ensures LoadBlock(l, b.number) == Some(b)
  {
  }

  // ---------------------------------------------------------------- releasing a block

  function TxOwners(ids: seq<TxId>): seq<Owner> {
    if ids == [] then [] else [OReceipt(ids[0]), OIndex(ids[0]), OTraces(ids[0])] + TxOwners(ids[1..])
  }

  /** The keys pruning removes with a block, in the order it removes them. */
  function BlockOwners(n: nat, ids: seq<TxId>): seq<Owner> { [OBlock(n)] + TxOwners(ids) }

  function Pick(m: map<Owner, BlobPtr>, os: seq<Owner>): seq<BlobPtr>
    decreases |os|
  {
    if os == [] then [] else (if os[0] in m then [m[os[0]]] else []) + Pick(m, os[1..])
  }

  /** `collect_ptrs_for_block` */
  function CollectPtrs(l: Ledger, n: nat, ids: seq<TxId>): seq<BlobPtr> { Pick(l.ptrs, BlockOwners(n, ids)) }

  function Remove(m: map<Owner, BlobPtr>, os: seq<Owner>): map<Owner, BlobPtr>
    decreases |os|
  {
    if os == [] then m else Remove(m - {os[0]}, os[1..])
  }

  /** The drain of a prune: reclaims one pointer after the other, up to the first error. */
  function ReclaimAll(a: Arena, ps: seq<BlobPtr>): (r: (Arena, Result<(), BlobError>))
    ensures r.0.bytes == a.bytes && r.0.end == a.end
    decreases |ps|
  {
    if ps == [] then (a, Ok(()))
    else
      var (b, r) := ReclaimForPrune(a, ps[0]);
      if r.Err? then (b, r) else ReclaimAll(b, ps[1..])
  }

  ghost predicate NoDup(os: seq<Owner>)
    decreases |os|
  {
    os == [] || (os[0] !in os[1..] && NoDup(os[1..]))
  }

  lemma {:induction false} PickSkips(m: map<Owner, BlobPtr>, os: seq<Owner>, o: Owner)
    requires o !in os
    ensures Pick(m - {o}, os) == Pick(m, os)
    decreases |os|
  {
    if os != [] { PickSkips(m, os[1..], o); }
  }

  lemma {:induction false} RemoveMeaning(m: map<Owner, BlobPtr>, os: seq<Owner>)
    ensures forall o :: o in Remove(m, os) <==> o in m && o !in os
    ensures forall o :: o in Remove(m, os) ==> Remove(m, os)[o] == m[o]
    decreases |os|
  {
    if os != [] {
      RemoveMeaning(m - {os[0]}, os[1..]);
      assert forall o :: o in os <==> o == os[0] || o in os[1..];
    }
  }

  /** Draining the collected pointers cannot fail, and releases exactly the slots of the removed keys. */
  lemma {:induction false} ReclaimAllOwned(a: Arena, m: map<Owner, BlobPtr>, os: seq<Owner>)
    requires Inv(a) && Owned(a, m) && NoDup(os)
    ensures var (b, r) := ReclaimAll(a, Pick(m, os));
            r.Ok? && Inv(b) && Owned(b, Remove(m, os)) && SameReads(a, b, Remove(m, os))
    decreases |os|
  {
    hide Inv, Owned, ReclaimForPrune, SameReads, Read;
    Roomy(a);
    if os == [] {
      ReadsSelf(a, m);
    } else if os[0] in m {
      ReclaimOwned(a, m, os[0]);
      var b := ReclaimForPrune(a, m[os[0]]).0;
      var n := m - {os[0]};
      PickSkips(m, os[1..], os[0]);
      assert Pick(m, os) == [m[os[0]]] + Pick(n, os[1..]);
      ReclaimAllOwned(b, n, os[1..]);
      RemoveMeaning(n, os[1..]);
      Roomy(b);
      var c := ReclaimAll(b, Pick(n, os[1..])).0;
      Roomy(c);
      SameReadsSub(a, b, n, Remove(m, os));
      SameReadsTrans(a, b, c, Remove(m, os), Remove(n, os[1..]));
    } else {
      assert Pick(m, os) == Pick(m, os[1..]) && m - {os[0]} == m;
      ReclaimAllOwned(a, m, os[1..]);
    }
  }

  lemma SameReadsSub(a: Arena, b: Arena, m: map<Owner, BlobPtr>, n: map<Owner, BlobPtr>)
    requires a.end <= |a.bytes| && b.end <= |b.bytes| && SameReads(a, b, m)
    requires forall o :: o in n ==> o in m && n[o] == m[o]
    ensures SameReads(a, b, n)
  {
  }

  // ---------------------------------------------------------------- draining twice

  predicate Freed(a: Arena, p: BlobPtr) {
    p.Key() in a.table && a.table[p.Key()].gen == p.gen && a.table[p.Key()].state == Free
  }

  lemma {:induction false} ReclaimAllFrees(a: Arena, ps: seq<BlobPtr>)
    requires ReclaimAll(a, ps).1.Ok?
    ensures forall i :: 0 <= i < |ps| ==> Freed(ReclaimAll(a, ps).0, ps[i])
    ensures forall q :: Freed(a, q) ==> Freed(ReclaimAll(a, ps).0, q)
    decreases |ps|
  {
    if ps != [] {
      var b := ReclaimForPrune(a, ps[0]).0;
      assert Freed(b, ps[0]) && forall q :: Freed(a, q) ==> Freed(b, q);
      ReclaimAllFrees(b, ps[1..]);
    }
  }

  lemma {:induction false} ReclaimFreed(a: Arena, ps: seq<BlobPtr>)
    requires forall i :: 0 <= i < |ps| ==> Freed(a, ps[i])
    ensures ReclaimAll(a, ps) == (a, Ok(()))
    decreases |ps|
  {
    if ps != [] { ReclaimFreed(a, ps[1..]); }
  }

  lemma {:induction false} ReclaimAppend(a: Arena, ps: seq<BlobPtr>, qs: seq<BlobPtr>)
    requires ReclaimAll(a, ps).1.Ok?
    ensures ReclaimAll(a, ps + qs) == ReclaimAll(ReclaimAll(a, ps).0, qs)
    decreases |ps|
  {
    if ps == [] {
      assert ps + qs == qs;
    } else {
      assert (ps + qs)[0] == ps[0] && (ps + qs)[1..] == ps[1..] + qs;
      ReclaimAppend(ReclaimForPrune(a, ps[0]).0, ps[1..], qs);
    }
  }

  /** Starting the drain over after any part of it ends where one uninterrupted drain ends. */
  lemma DrainAgain(a: Arena, ps: seq<BlobPtr>, i: nat)
    requires i <= |ps| && ReclaimAll(a, ps[..i]).1.Ok?
    ensures ReclaimAll(ReclaimAll(a, ps[..i]).0, ps) == ReclaimAll(a, ps)
  {
    var x := ReclaimAll(a, ps[..i]).0;
    ReclaimAllFrees(a, ps[..i]);
    ReclaimFreed(x, ps[..i]);
    ReclaimAppend(x, ps[..i], ps[i..]);
    ReclaimAppend(a, ps[..i], ps[i..]);
    assert ps[..i] + ps[i..] == ps;
  }

  // ---------------------------------------------------------------- pruning keeps it

  lemma {:induction false} TxOwnersHas(ids: seq<TxId>, o: Owner)
    ensures o in TxOwners(ids) <==> !o.OBlock? && o.id in ids
    decreases |ids|
  {
    if ids != [] {
      TxOwnersHas(ids[1..], o);
      var head := [OReceipt(ids[0]), OIndex(ids[0]), OTraces(ids[0])];
      assert o in TxOwners(ids) <==> o in head || o in TxOwners(ids[1..]);
      assert !o.OBlock? ==> (o.id in ids <==> o.id == ids[0] || o.id in ids[1..]);
    }
  }

  lemma {:induction false} TxOwnersMeaning(ids: seq<TxId>)
    ensures forall o :: o in TxOwners(ids) <==> !o.OBlock? && o.id in ids
    ensures Distinct(ids) ==> NoDup(TxOwners(ids))
    decreases |ids|
  {
    forall o ensures o in TxOwners(ids) <==> !o.OBlock? && o.id in ids { TxOwnersHas(ids, o); }
    if ids != [] && Distinct(ids) {
      var id, rest := ids[0], ids[1..];
      TxOwnersMeaning(rest);
      assert Distinct(rest) by { assert forall i :: 0 <= i < |rest| ==> rest[i] == ids[i + 1]; }
      assert id !in rest;
      NoDupThree(OReceipt(id), OIndex(id), OTraces(id), TxOwners(rest));
    }
  }

  lemma {:induction false} NoDupThree(a: Owner, b: Owner, c: Owner, os: seq<Owner>)
    requires a != b && b != c && a != c && a !in os && b !in os && c !in os && NoDup(os)
    ensures NoDup([a, b, c] + os)
  {
  }

  lemma BlockOwnersMeaning(n: nat, ids: seq<TxId>)
    ensures forall o :: o in BlockOwners(n, ids) <==> o == OBlock(n) || (!o.OBlock? && o.id in ids)
    ensures Distinct(ids) ==> NoDup(BlockOwners(n, ids))
  {
    TxOwnersMeaning(ids);
    assert BlockOwners(n, ids)[1..] == TxOwners(ids);
  }

  lemma OnlyInOne(bs: map<nat, BlockData>, first: nat, head: nat, headTime: nat, n: nat)
    requires Chained(bs, first, head, headTime) && n in bs
    ensures forall k, id :: k in bs && k != n && id in bs[k].txIds ==> id !in bs[n].txIds
  {
  }

  lemma IndexedLess(m: map<Owner, BlobPtr>, bs: map<nat, BlockData>, first: nat, head: nat, headTime: nat, n: nat)
    requires Indexed(m, bs) && Chained(bs, first, head, headTime) && n in bs
    ensures Indexed(Remove(m, BlockOwners(n, bs[n].txIds)), bs - {n})
  {
    hide Remove, BlockOwners, Chained;
    OnlyInOne(bs, first, head, headTime, n);
    BlockOwnersMeaning(n, bs[n].txIds);
    RemoveMeaning(m, BlockOwners(n, bs[n].txIds));
    IndexedWithout(m, Remove(m, BlockOwners(n, bs[n].txIds)), bs, n);
  }

  lemma IndexedWithout(m: map<Owner, BlobPtr>, m': map<Owner, BlobPtr>, bs: map<nat, BlockData>, n: nat)
    requires Indexed(m, bs) && n in bs
    requires forall o :: o in m' <==> o in m && o != OBlock(n) && (o.OBlock? || o.id !in bs[n].txIds)
    requires forall k, id :: k in bs && k != n && id in bs[k].txIds ==> id !in bs[n].txIds
    ensures Indexed(m', bs - {n})
  {
  }

  /** Block `n` gone: its keys removed and their slots reclaimed. */
  function Released(l: Ledger, n: nat, ids: seq<TxId>): Ledger {
    l.(ptrs := Remove(l.ptrs, BlockOwners(n, ids)), arena := ReclaimAll(l.arena, CollectPtrs(l, n, ids)).0)
  }

  lemma ChainedLess(bs: map<nat, BlockData>, head: nat, headTime: nat, n: nat)
    requires Chained(bs, n, head, headTime) && n in bs
    ensures Chained(bs - {n}, n + 1, head, headTime) && Distinct(bs[n].txIds)
  {
  }

  /** Draining the first stored block: no reclaim error, and what is left of the maps and the arena agrees. */
  lemma ReleaseArena(l: Ledger, bs: map<nat, BlockData>, n: nat)
    requires Sound(l, bs, n) && n in bs
    ensures ReclaimAll(l.arena, CollectPtrs(l, n, bs[n].txIds)).1.Ok?
    ensures var l' := Released(l, n, bs[n].txIds);
            Inv(l'.arena) && Owned(l'.arena, l'.ptrs) && Indexed(l'.ptrs, bs - {n}) && Loads(l', bs - {n})
  {
    hide Inv, Owned, SameReads, Read, Loads, ReclaimAll, Remove, BlockOwners, NoDup, RoundTrips, Chained, Indexed,
         CursorOk;
    var ids := bs[n].txIds;
    var l' := Released(l, n, ids);
    var os := BlockOwners(n, ids);
    ChainedLess(bs, l.head, l.headTime, n);
    BlockOwnersMeaning(n, ids);
    ReclaimAllOwned(l.arena, l.ptrs, os);
    RemoveMeaning(l.ptrs, os);
    IndexedLess(l.ptrs, bs, n, l.head, l.headTime, n);
    Roomy(l.arena);
    Roomy(l'.arena);
    LoadsLess(l, l', bs, n);
  }

  /** Pruning the first stored block never meets a reclaim error and leaves a sound ledger without it, wherever
      the cursor ends up between the old place and the released block. */
  lemma ReleaseSound(l: Ledger, bs: map<nat, BlockData>, n: nat, st: PruneState)
    requires Sound(l, bs, n) && n in bs && CursorOk(st, n + 1)
    ensures ReclaimAll(l.arena, CollectPtrs(l, n, bs[n].txIds)).1.Ok?
    ensures Sound(Released(l, n, bs[n].txIds).(prune := st), bs - {n}, n + 1)
  {
    hide Inv, Owned, Loads, ReclaimAll, Remove, CollectPtrs, RoundTrips, Chained, Indexed, CursorOk;
    ReleaseArena(l, bs, n);
    ChainedLess(bs, l.head, l.headTime, n);
    var l' := Released(l, n, bs[n].txIds);
    Roomy(l'.arena);
    LoadsSame(l', l'.(prune := st), bs - {n});
  }

  /** Loading looks at the arena, the pointers and the codec only. */
  lemma LoadsSame(l: Ledger, l': Ledger, bs: map<nat, BlockData>)
    requires l.arena.end <= |l.arena.bytes| && Loads(l, bs)
    requires l'.arena == l.arena && l'.ptrs == l.ptrs && l'.codec == l.codec
    ensures Loads(l', bs)
  {
  }

  lemma LoadsLess(l: Ledger, l': Ledger, bs: map<nat, BlockData>, n: nat)
    requires l.arena.end <= |l.arena.bytes| && l'.arena.end <= |l'.arena.bytes|
    requires Loads(l, bs) && Indexed(l.ptrs, bs) && Indexed(l'.ptrs, bs - {n}) && l'.codec == l.codec
    requires SameReads(l.arena, l'.arena, l'.ptrs)
    requires forall o :: o in l'.ptrs ==> o in l.ptrs && l'.ptrs[o] == l.ptrs[o]
    ensures Loads(l', bs - {n})
  {
  }
}
