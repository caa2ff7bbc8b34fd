/** Recovery of an interrupted prune when blobs were stored in between: the journal records slot generations, and a slot
    taken again carries the next one. */
module PruneReuse {
  import opened Common
  import opened Types
  import opened Ledger
  import opened Prune
  import opened PruneSpec
  import opened PruneRecovery
  import B = BlobStore
  import M = Mempool

  /** Every slot the entry names still carries the generation the entry recorded. */
  ghost predicate EntryMatches(a: B.Arena, ps: seq<B.BlobPtr>) {
    forall i :: 0 <= i < |ps| ==> ps[i].Key() in a.table && a.table[ps[i].Key()].gen == ps[i].gen
  }

  lemma {:induction false} DrainSucceedsIff(a: B.Arena, ps: seq<B.BlobPtr>)
    ensures ReclaimAll(a, ps).1.Ok? <==> EntryMatches(a, ps)
    decreases |ps|
  {
    if ps != [] {
      var b := B.ReclaimForPrune(a, ps[0]).0;
      assert forall k :: (k in b.table <==> k in a.table) && (k in a.table ==> b.table[k].gen == a.table[k].gen);
      DrainSucceedsIff(b, ps[1..]);
      assert forall i :: 0 < i < |ps| ==> ps[i] == ps[1..][i - 1];
    }
  }

  /** Recovery succeeds exactly when there is no entry to replay or the entry still matches the arena, whatever
      happened to the maps since it was written. */
  lemma RecoverSucceedsIff(x: Chain)
    requires Mapped(x)
    ensures var n := JournalBlock(x.ledger);
            Recover(x).1.Ok? <==>
              n.None? || n.value !in x.ledger.journal || EntryMatches(x.ledger.arena, x.ledger.journal[n.value])
    ensures Recover(x).1.Err? ==> Recover(x).1 == Err(ExecFailed)
  {
    hide ReclaimAll, EntryMatches, JournalBlock, RefreshOldest, LoadBlock, M.ForgetAll, Remove, BlockOwners;
    if JournalBlock(x.ledger).Some? && JournalBlock(x.ledger).value in x.ledger.journal {
      DrainSucceedsIff(x.ledger.arena, x.ledger.journal[JournalBlock(x.ledger).value]);
    }
  }

  // ---------------------------------------------------------------- what a partial drain leaves

  /** Pointers of distinct Used slots, as the journal records them. */
  ghost predicate Recordable(a: B.Arena, ps: seq<B.BlobPtr>) {
    && (forall i :: 0 <= i < |ps| ==>
          ps[i].Fits() && ps[i].Key() in a.table && a.table[ps[i].Key()] == B.AllocEntry(ps[i].gen, B.Used))
    && (forall i, j :: 0 <= i < j < |ps| ==> ps[i].Key() != ps[j].Key())
  }

  lemma {:induction false} PickedIn(m: map<Owner, B.BlobPtr>, os: seq<Owner>, i: nat)
    requires i < |Pick(m, os)|
    ensures exists o :: o in os && o in m && m[o] == Pick(m, os)[i]
    decreases |os|
  {
    if os[0] in m && i == 0 {
      assert os[0] in os;
    } else {
      PickedIn(m, os[1..], if os[0] in m then i - 1 else i);
    }
  }

  lemma {:induction false} PickRecordable(a: B.Arena, m: map<Owner, B.BlobPtr>, os: seq<Owner>)
    requires Owned(a, m) && NoDup(os)
    ensures Recordable(a, Pick(m, os))
    decreases |os|
  {
    if os != [] {
      var rest := Pick(m, os[1..]);
      PickRecordable(a, m, os[1..]);
      if os[0] in m {
        forall i | 0 <= i < |rest| ensures rest[i].Key() != m[os[0]].Key() { PickedIn(m, os[1..], i); }
        assert forall i :: 0 < i < |rest| + 1 ==> Pick(m, os)[i] == rest[i - 1];
      }
    }
  }

  ghost predicate Among(ps: seq<B.BlobPtr>, k: B.AllocKey) { exists j :: 0 <= j < |ps| && ps[j].Key() == k }

  /** What draining the first `i` pointers leaves: their slots Free, every other as it was, no generation moved. */
  ghost predicate FreedFirst(a: B.Arena, b: B.Arena, ps: seq<B.BlobPtr>, i: nat)
    requires i <= |ps|
  {
    && B.Inv(b) && b.table.Keys == a.table.Keys
    && (forall k :: k in b.table ==> b.table[k].gen == a.table[k].gen)
    && (forall k :: k in b.table ==> b.table[k].state == if Among(ps[..i], k) then B.Free else a.table[k].state)
  }

  lemma ReclaimUsed(a: B.Arena, p: B.BlobPtr)
    requires B.Inv(a) && p.Fits() && p.Key() in a.table && a.table[p.Key()] == B.AllocEntry(p.gen, B.Used)
    ensures var (b, r) := B.ReclaimForPrune(a, p);
            r.Ok? && B.Inv(b) && b.table == a.table[p.Key() := B.AllocEntry(p.gen, B.Free)]
  {
    B.StepInv(a, B.OpReclaim(p));
  }

  lemma {:induction false} DrainFreesFirst(a: B.Arena, ps: seq<B.BlobPtr>, i: nat)
    requires B.Inv(a) && Recordable(a, ps) && i <= |ps|
    ensures FreedFirst(a, ReclaimAll(a, ps[..i]).0, ps, i)
    decreases |ps|
  {
    hide B.Inv, B.ReclaimForPrune;
    if i > 0 {
      var b, rest := B.ReclaimForPrune(a, ps[0]).0, ps[1..];
      ReclaimUsed(a, ps[0]);
      assert forall j :: 0 <= j < |rest| ==> rest[j] == ps[j + 1];
      DrainFreesFirst(b, rest, i - 1);
      assert ps[..i][0] == ps[0] && ps[..i][1..] == rest[..i - 1];
      forall k ensures Among(ps[..i], k) <==> k == ps[0].Key() || Among(rest[..i - 1], k) { AmongHead(ps[..i], k); }
    }
  }

  lemma AmongHead(ps: seq<B.BlobPtr>, k: B.AllocKey)
    requires ps != []
    ensures Among(ps, k) <==> k == ps[0].Key() || Among(ps[1..], k)
  {
    assert forall j :: 0 <= j < |ps| - 1 ==> ps[1..][j] == ps[j + 1];
    if j :| 0 < j < |ps| && ps[j].Key() == k { assert ps[1..][j - 1].Key() == k; }
  }

  // ---------------------------------------------------------------- a store in between

  /** A store matters to the entry exactly when it takes one of the slots drained already. */
  lemma StoreBreaksEntry(a: B.Arena, b: B.Arena, ps: seq<B.BlobPtr>, i: nat, data: seq<B.byte>, growOk: bool)
    requires Recordable(a, ps) && i <= |ps| && FreedFirst(a, b, ps, i)
    ensures var (d, r) := B.StoreBytes(b, data, growOk);
            B.Inv(d) && (EntryMatches(d, ps) <==> !(r.Ok? && Among(ps[..i], r.value.Key())))
  {
    hide B.Inv, B.StoreBytes, B.Read;
    B.StoreSpec(b, data, growOk);
    var (d, r) := B.StoreBytes(b, data, growOk);
    if r.Ok? && Among(ps[..i], r.value.Key()) {
      var j :| 0 <= j < i && ps[..i][j].Key() == r.value.Key();
      assert ps[j] == ps[..i][j];
    } else if r.Ok? {
      assert forall j :: 0 <= j < |ps| ==> Among(ps[..i], ps[j].Key()) || b.table[ps[j].Key()].state == B.Used;
    }
  }

  /** The chain of a prune of block `n` cut with `i` slots reclaimed, after a blob was stored. */
  ghost function StoredBetween(c: Chain, st: PruneState, n: nat, ids: seq<TxId>, i: nat, data: seq<B.byte>,
                               growOk: bool): Chain
    requires i <= |CollectPtrs(c.ledger, n, ids)|
  {
    var x := Interrupted(c, st, n, ids, Draining(i));
    x.(ledger := x.ledger.(arena := B.StoreBytes(x.ledger.arena, data, growOk).0))
  }

  /** The slot the blob got, if it was stored. */
  ghost function SlotTaken(c: Chain, n: nat, ids: seq<TxId>, i: nat, data: seq<B.byte>,
                           growOk: bool): Option<B.AllocKey>
    requires i <= |CollectPtrs(c.ledger, n, ids)|
  {
    var r := B.StoreBytes(ReclaimAll(c.ledger.arena, CollectPtrs(c.ledger, n, ids)[..i]).0, data, growOk).1;
    if r.Ok? then Some(r.value.Key()) else None
  }

  lemma CutArena(c: Chain, bs: map<nat, BlockData>, n: nat, i: nat)
    requires Intact(c, bs, n) && n in bs && i <= |CollectPtrs(c.ledger, n, bs[n].txIds)|
    ensures var ps := CollectPtrs(c.ledger, n, bs[n].txIds);
            Recordable(c.ledger.arena, ps) && FreedFirst(c.ledger.arena, ReclaimAll(c.ledger.arena, ps[..i]).0, ps, i)
  {
    hide Recordable, FreedFirst, B.Inv, Owned, Indexed, Loads, RoundTrips, CursorOk, BlockOwners, ReclaimAll, NoDup,
         Linked;
    var ids := bs[n].txIds;
    ChainedLess(bs, c.ledger.head, c.ledger.headTime, n);
    BlockOwnersMeaning(n, ids);
    PickRecordable(c.ledger.arena, c.ledger.ptrs, BlockOwners(n, ids));
    DrainFreesFirst(c.ledger.arena, CollectPtrs(c.ledger, n, ids), i);
  }

  /** Recovery assumes that nothing was stored since the interruption: it reports an error exactly when a blob stored
      in between took one of the slots already reclaimed. */
  lemma ReuseStopsRecovery(c: Chain, bs: map<nat, BlockData>, n: nat, st: PruneState, i: nat, data: seq<B.byte>,
                           growOk: bool)
    requires Intact(c, bs, n) && n in bs && i <= |CollectPtrs(c.ledger, n, bs[n].txIds)|
    ensures var y := StoredBetween(c, st, n, bs[n].txIds, i, data, growOk);
            var slot := SlotTaken(c, n, bs[n].txIds, i, data, growOk);
            && Mapped(y)
            && (Recover(y).1 == Err(ExecFailed) <==>
                  slot.Some? && Among(CollectPtrs(c.ledger, n, bs[n].txIds)[..i], slot.value))
  {
    hide Intact, Recordable, FreedFirst, Recover, CollectPtrs, ReclaimAll, B.StoreBytes, B.Inv, EntryMatches, Among,
         M.ForgetAll, Remove, BlockOwners;
    var ids := bs[n].txIds;
    var ps := CollectPtrs(c.ledger, n, ids);
    var b := ReclaimAll(c.ledger.arena, ps[..i]).0;
    CutArena(c, bs, n, i);
    StoreBreaksEntry(c.ledger.arena, b, ps, i, data, growOk);
    Roomy(B.StoreBytes(b, data, growOk).0);
    RecoverSucceedsIff(StoredBetween(c, st, n, ids, i, data, growOk));
  }

  /** It always happens where the arena had no Free slot of the size class to spare: the first blob stored in a class of
      which a slot was reclaimed takes such a slot, and the recovery fails. */
  lemma FirstStoreStopsRecovery(c: Chain, bs: map<nat, BlockData>, n: nat, st: PruneState, i: nat, j: nat,
                                data: seq<B.byte>, growOk: bool)
    requires Intact(c, bs, n) && n in bs && j < i <= |CollectPtrs(c.ledger, n, bs[n].txIds)|
    requires B.SmallestClass(|data|) == Ok(CollectPtrs(c.ledger, n, bs[n].txIds)[j].cls)
    requires forall k :: k in c.ledger.arena.table && B.SmallestClass(|data|) == Ok(k.cls)
                         ==> c.ledger.arena.table[k].state != B.Free
    requires SlotTaken(c, n, bs[n].txIds, i, data, growOk).Some?
    ensures Mapped(StoredBetween(c, st, n, bs[n].txIds, i, data, growOk))
    ensures Recover(StoredBetween(c, st, n, bs[n].txIds, i, data, growOk)).1 == Err(ExecFailed)
  {
    hide Intact, Recover, CollectPtrs, ReclaimAll, B.Inv, EntryMatches, StoredBetween, B.Allocate;
    var ps := CollectPtrs(c.ledger, n, bs[n].txIds);
    CutArena(c, bs, n, i);
    ReuseStopsRecovery(c, bs, n, st, i, data, growOk);
    var b := ReclaimAll(c.ledger.arena, ps[..i]).0;
    assert ps[..i][j] == ps[j] && Among(ps[..i], ps[j].Key());
    B.AllocateSpec(b, |data|, growOk);
  }
}
