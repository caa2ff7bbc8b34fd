/** The in-place form of the arena: the store's fields and the methods that update them. Each method is proved
    equal to the function of the same name in `BlobStore`, where the properties are proved. */
module BlobArena {
  import opened Common
  import opened B = BlobStore

  class Store {
    var arena: seq<byte>
    var arenaEnd: nat
    var allocTable: map<AllocKey, AllocEntry>
    var freeListByClass: set<AllocKey>
    var usageTotals: Usage

    ghost function View(): Arena
      reads this
    {
      Arena(arena, arenaEnd, allocTable, freeListByClass, usageTotals)
    }

    /** `BlobStore::new`: the running totals start from a scan of the table found in stable memory. */
    constructor (arena: seq<byte>, arenaEnd: nat, allocTable: map<AllocKey, AllocEntry>, freeListByClass: set<AllocKey>)
      requires Bytes(allocTable, Used, allocTable.Keys) + Bytes(allocTable, Quarantine, allocTable.Keys)
                 + Bytes(allocTable, Free, allocTable.Keys) <= U64_MAX
      ensures View() == Arena(arena, arenaEnd, allocTable, freeListByClass,
                              Usage(Bytes(allocTable, Used, allocTable.Keys),
                                    Bytes(allocTable, Quarantine, allocTable.Keys),
                                    Bytes(allocTable, Free, allocTable.Keys)))
    {
      var totals := ScanUsageTotals(allocTable);
      this.arena, this.arenaEnd := arena, arenaEnd;
      this.allocTable, this.freeListByClass := allocTable, freeListByClass;
      usageTotals := totals;
    }

    method Allocate(len: nat, growOk: bool) returns (r: Result<BlobPtr, BlobError>)
      requires Inv(View())
      modifies this
      ensures (View(), r) == B.Allocate(old(View()), len, growOk)
    {
      hide Inv, EnsureCapacity, FreeKeys;
      PopFreeInv(View(), SmallestClass(len).GetOr(0));
      var size := SmallestClass(len);
      if size.Err? { return Err(size.error); }
      var cls := size.value;
      var popped := PopFreeSlot(cls);
      var offset: nat;
      match popped {
        case Some(k) =>
          if k !in allocTable { return Err(MissingAllocEntry); }
          var entry := allocTable[k];
          if entry.state != Free { return Err(InvalidState); }
          if entry.gen + 1 > U32_MAX { return Err(Overflow); }
          allocTable := allocTable[k := AllocEntry(entry.gen + 1, Used)];
          usageTotals := usageTotals.(free := SatSub(usageTotals.free, cls));
          usageTotals := usageTotals.(used := SatAdd(usageTotals.used, cls, U64_MAX));
          offset := k.offset;
        case None =>
          var current := arenaEnd;
          if current + cls > U64_MAX { return Err(Overflow); }
          var grown := EnsureCapacity(arena, current + cls, growOk);
          if grown.Err? { return Err(grown.error); }
          arena := grown.value;
          arenaEnd := current + cls;
          allocTable := allocTable[AllocKey(cls, current) := AllocEntry(1, Used)];
          usageTotals := usageTotals.(used := SatAdd(usageTotals.used, cls, U64_MAX));
          offset := current;
      }
      r := Ok(BlobPtr(offset, len, cls, allocTable[AllocKey(cls, offset)].gen));
    }

    method PopFreeSlot(cls: nat) returns (r: Option<AllocKey>)
      modifies this`freeListByClass
      ensures (View(), r) == PopFree(old(View()), cls)
    {
      var listed := First(freeListByClass, cls);
      if listed.Some? {
        freeListByClass := freeListByClass - {listed.value};
        return listed;
      }
      r := First(FreeKeys(allocTable), cls);
    }

    method StoreBytes(data: seq<byte>, growOk: bool) returns (r: Result<BlobPtr, BlobError>)
      requires Inv(View())
      modifies this
      ensures (View(), r) == B.StoreBytes(old(View()), data, growOk)
      ensures Inv(View())
    {
      AllocateSpec(View(), |data|, growOk);
      StoreSpec(View(), data, growOk);
      SmallestClassFits(|data|);
      r := Allocate(|data|, growOk);
      if r.Ok? {
        var w := Write(r.value, data, growOk);
        if w.Err? { r := Err(w.error); }
      }
    }

    method Read(p: BlobPtr) returns (r: Result<seq<byte>, BlobError>)
      requires Inv(View())
      ensures r == B.Read(View(), p)
      ensures p.Fits() ==> (r.Ok? <==> Live(View(), p))
    {
      if p.Fits() { ReadOfLive(View(), p); }
      if p.Key() !in allocTable { return Err(MissingAllocEntry); }
      if allocTable[p.Key()].gen != p.gen { return Err(InvalidPointer); }
      if allocTable[p.Key()].state == Free { return Err(InvalidState); }
      if p.offset + p.len > U64_MAX { return Err(Overflow); }
      if p.offset + p.len > arenaEnd { return Err(InvalidPointer); }
      r := Ok(arena[p.offset .. p.offset + p.len]);
    }

    method Write(p: BlobPtr, data: seq<byte>, growOk: bool) returns (r: Result<(), BlobError>)
      requires p.Fits()
      modifies this`arena
      ensures (View(), r) == B.Write(old(View()), p, data, growOk)
    {
      if |data| != p.len { return Err(LengthMismatch); }
      if p.Key() !in allocTable { return Err(MissingAllocEntry); }
      var entry := allocTable[p.Key()];
      if entry.gen != p.gen || entry.state != Used { return Err(InvalidState); }
      if p.offset + p.cls > U64_MAX { return Err(Overflow); }
      var grown := EnsureCapacity(arena, p.offset + p.cls, growOk);
      if grown.Err? { return Err(grown.error); }
      CapacityGranted(arena, p.offset + p.cls, growOk);
      arena := Overlay(grown.value, p.offset, data);
      r := Ok(());
    }

    method MarkQuarantine(p: BlobPtr) returns (r: Result<(), BlobError>)
      modifies this`allocTable, this`usageTotals
      ensures (View(), r) == B.MarkQuarantine(old(View()), p)
    {
      var k := p.Key();
      if k !in allocTable { return Err(MissingAllocEntry); }
      if allocTable[k].gen != p.gen { return Err(InvalidPointer); }
      if allocTable[k].state == Quarantine { return Ok(()); }
      if allocTable[k].state != Used { return Err(InvalidState); }
      allocTable := allocTable[k := AllocEntry(p.gen, Quarantine)];
      usageTotals := usageTotals.(used := SatSub(usageTotals.used, p.cls));
      usageTotals := usageTotals.(quarantine := SatAdd(usageTotals.quarantine, p.cls, U64_MAX));
      r := Ok(());
    }

    method MarkFree(p: BlobPtr) returns (r: Result<(), BlobError>)
      modifies this`allocTable, this`usageTotals, this`freeListByClass
      ensures (View(), r) == B.MarkFree(old(View()), p)
    {
      var k := p.Key();
      if k !in allocTable { return Err(MissingAllocEntry); }
      if allocTable[k].gen != p.gen { return Err(InvalidPointer); }
      if allocTable[k].state == Free { return Ok(()); }
      if allocTable[k].state != Quarantine { return Err(InvalidState); }
      if k in freeListByClass { return Err(DuplicateFree); }
      allocTable := allocTable[k := AllocEntry(p.gen, Free)];
      freeListByClass := freeListByClass + {k};
      usageTotals := usageTotals.(quarantine := SatSub(usageTotals.quarantine, p.cls));
      usageTotals := usageTotals.(free := SatAdd(usageTotals.free, p.cls, U64_MAX));
      r := Ok(());
    }

    method ReclaimForPrune(p: BlobPtr) returns (r: Result<(), BlobError>)
      modifies this`allocTable, this`usageTotals
      ensures (View(), r) == B.ReclaimForPrune(old(View()), p)
    {
      var k := p.Key();
      if k !in allocTable { return Err(MissingAllocEntry); }
      if allocTable[k].gen != p.gen { return Err(InvalidPointer); }
      match allocTable[k].state {
        case Free => return Ok(());
        case Used => usageTotals := usageTotals.(used := SatSub(usageTotals.used, p.cls));
        case Quarantine => usageTotals := usageTotals.(quarantine := SatSub(usageTotals.quarantine, p.cls));
      }
      allocTable := allocTable[k := AllocEntry(p.gen, Free)];
      usageTotals := usageTotals.(free := SatAdd(usageTotals.free, p.cls, U64_MAX));
      r := Ok(());
    }
  }

  /** `range((cls, 0)..=(cls, MAX)).next()` over a key set: the lowest offset of the class. */
  method First(keys: set<AllocKey>, cls: nat) returns (r: Option<AllocKey>)
    ensures r == FirstOfClass(keys, cls)
  {
    var rest := keys;
    r := None;
    while rest != {}
      invariant rest <= keys
      invariant r.None? ==> forall k :: k in keys - rest ==> k.cls != cls
      invariant r.Some? ==> IsFirst(keys - rest, cls, r.value)
      decreases |rest|
    {
      var k :| k in rest;
      if k.cls == cls && (r.None? || k.offset < r.value.offset) { r := Some(k); }
      rest := rest - {k};
    }
    assert keys - rest == keys;
  }

  /** `scan_usage_totals`: one pass over the allocation table. */
  method ScanUsageTotals(table: map<AllocKey, AllocEntry>) returns (t: Usage)
    requires Bytes(table, Used, table.Keys) + Bytes(table, Quarantine, table.Keys)
               + Bytes(table, Free, table.Keys) <= U64_MAX
    ensures t == Usage(Bytes(table, Used, table.Keys), Bytes(table, Quarantine, table.Keys),
                       Bytes(table, Free, table.Keys))
  {
    t := Usage(0, 0, 0);
    var rest := table.Keys;
    while rest != {}
      invariant rest <= table.Keys
      invariant t.used + Bytes(table, Used, rest) == Bytes(table, Used, table.Keys)
      invariant t.quarantine + Bytes(table, Quarantine, rest) == Bytes(table, Quarantine, table.Keys)
      invariant t.free + Bytes(table, Free, rest) == Bytes(table, Free, table.Keys)
      decreases |rest|
    {
      var k :| k in rest;
      BytesPick(table, Used, rest, k);
      BytesPick(table, Quarantine, rest, k);
      BytesPick(table, Free, rest, k);
      t := Add(t, table[k].state, k.cls);
      rest := rest - {k};
    }
  }
}
