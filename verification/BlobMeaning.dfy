/** What the arena's operations answer and write, in the plain fields of the table. */
module BlobMeaning {
  import opened Common
  import opened BlobStore

  // ---------------------------------------------------------------- size classes

  predicate IsClass(c: nat) {
    c in {8192, 16384, 32768, 65536, 131072, 262144, 524288, 1048576, 2097152, 4194304}
  }

  /** The class of a length is the least of the ten that holds it; nothing and more than 4 MiB have none. */
  lemma SizeClassMeans(len: nat)
    ensures SmallestClass(len).Err? <==> len == 0 || len > 4194304
    ensures SmallestClass(len).Err? ==> SmallestClass(len).error == (if len == 0 then ZeroLength else TooLarge)
    ensures SmallestClass(len).Ok? ==>
              var c := SmallestClass(len).value; IsClass(c) && len <= c && forall d :: IsClass(d) && len <= d ==> c <= d
  {
  }

  // ---------------------------------------------------------------- growing

  /** The bytes of the arena grow to the least whole number of 64 KiB pages that holds `end`, and only when they must;
      what is added is zero. */
  lemma GrowthMeans(bytes: seq<byte>, end: nat, growOk: bool)
    requires |bytes| % 65536 == 0 && end + 65535 <= U64_MAX
    ensures EnsureCapacity(bytes, end, growOk).Err? <==> end > |bytes| && !growOk
    ensures EnsureCapacity(bytes, end, growOk).Err? ==> EnsureCapacity(bytes, end, growOk).error == GrowFailed
    ensures EnsureCapacity(bytes, end, growOk).Ok? ==>
              var b := EnsureCapacity(bytes, end, growOk).value;
              && (end <= |bytes| ==> b == bytes)
              && (end > |bytes| ==> end <= |b| < end + 65536 && |b| % 65536 == 0 && b[..|bytes|] == bytes
                                    && forall i :: |bytes| <= i < |b| ==> b[i] == 0)
  {
  }

  // ---------------------------------------------------------------- allocation

  /** The slot a reuse takes: the lowest listed one of the class, or, with none listed, the lowest free one at all. */
  ghost predicate Taken(a: Arena, cls: nat, k: AllocKey) {
    && k.cls == cls && k in a.table && a.table[k].state == Free
    && (if exists j :: j in a.freeList && j.cls == cls
        then k in a.freeList && forall j :: j in a.freeList && j.cls == cls ==> k.offset <= j.offset
        else forall j :: j in a.table && j.cls == cls && a.table[j].state == Free ==> k.offset <= j.offset)
  }

  predicate NoneFree(a: Arena, cls: nat) { forall j :: j in a.table && j.cls == cls ==> a.table[j].state != Free }

  lemma PopMeans(a: Arena, cls: nat)
    requires Inv(a)
    ensures var (b, popped) := PopFree(a, cls);
            && (popped.Some? ==> Taken(a, cls, popped.value) && b == a.(freeList := a.freeList - {popped.value}))
            && (popped.None? ==> NoneFree(a, cls) && b == a)
  {
    hide Tiled, Counted;
  }

  /** Slot `k` is handed out one generation on, unless its generations have run out. */
  ghost predicate Reused(a: Arena, k: AllocKey, len: nat, b: Arena, r: Result<BlobPtr, BlobError>)
    requires k in a.table
  {
    && b.freeList == a.freeList - {k} && b.bytes == a.bytes && b.end == a.end
    && if a.table[k].gen >= 0xFFFF_FFFF then r == Err(Overflow) && b.table == a.table
       else r == Ok(BlobPtr(k.offset, len, k.cls, a.table[k].gen + 1))
            && b.table == a.table[k := AllocEntry(a.table[k].gen + 1, Used)]
  }

  /** A new slot starts at the end of the arena with generation one, or nothing happens. */
  ghost predicate Grown(a: Arena, cls: nat, len: nat, growOk: bool, b: Arena, r: Result<BlobPtr, BlobError>) {
    if a.end + cls + 65535 > U64_MAX then b == a && r == Err(Overflow)
    else if a.end + cls > |a.bytes| && !growOk then b == a && r == Err(GrowFailed)
    else
      && r == Ok(BlobPtr(a.end, len, cls, 1)) && b.end == a.end + cls && a.bytes <= b.bytes
      && b.table == a.table[AllocKey(cls, a.end) := AllocEntry(1, Used)] && b.freeList == a.freeList
  }

  /** A free slot of the class is reused before the arena grows. */
  ghost predicate Granted(a: Arena, cls: nat, len: nat, growOk: bool, b: Arena, r: Result<BlobPtr, BlobError>) {
    || (exists k :: Taken(a, cls, k) && k in a.table && Reused(a, k, len, b, r))
    || (NoneFree(a, cls) && Grown(a, cls, len, growOk, b, r))
  }

  lemma ReuseMeans(a: Arena, cls: nat, len: nat, growOk: bool, k: AllocKey)
    requires SmallestClass(len) == Ok(cls) && Taken(a, cls, k)
    requires PopFree(a, cls) == (a.(freeList := a.freeList - {k}), Some(k))
    ensures Reused(a, k, len, Allocate(a, len, growOk).0, Allocate(a, len, growOk).1)
  {
    hide SmallestClass, PopFree, EnsureCapacity, Add, Sub;
  }

  lemma FreshMeans(a: Arena, cls: nat, len: nat, growOk: bool)
    requires SmallestClass(len) == Ok(cls) && PopFree(a, cls) == (a, None) && |a.bytes| % 65536 == 0 && cls > 0
    requires a.end <= |a.bytes|
    ensures Grown(a, cls, len, growOk, Allocate(a, len, growOk).0, Allocate(a, len, growOk).1)
  {
    hide SmallestClass, PopFree, EnsureCapacity, Add;
    if a.end + cls + 65535 <= U64_MAX {
      GrowthMeans(a.bytes, a.end + cls, growOk);
      assert a.end + cls > |a.bytes| || EnsureCapacity(a.bytes, a.end + cls, growOk).Ok?;
    } else {
      TooFar(a.bytes, a.end + cls, growOk);
    }
  }

  lemma TooFar(bytes: seq<byte>, end: nat, growOk: bool)
    requires end > 0 && end + 65535 > U64_MAX
    ensures EnsureCapacity(bytes, end, growOk) == Err(Overflow)
  {
  }

  lemma AllocateMeans(a: Arena, len: nat, growOk: bool)
    requires Inv(a)
    ensures match SmallestClass(len)
            case Err(e) => Allocate(a, len, growOk) == (a, Err(e))
            case Ok(cls) => Granted(a, cls, len, growOk, Allocate(a, len, growOk).0, Allocate(a, len, growOk).1)
  {
    if SmallestClass(len).Ok? {
      var cls := SmallestClass(len).value;
      SmallestClassFits(len);
      hide Allocate, SmallestClass, PopFree, Taken, NoneFree, Reused, Grown, Tiled, Counted;
      PopMeans(a, cls);
      var (a1, popped) := PopFree(a, cls);
      if popped.Some? {
        assert popped.value in a.table by { TakenIsSlot(a, cls, popped.value); }
        ReuseMeans(a, cls, len, growOk, popped.value);
      } else {
        FreshMeans(a, cls, len, growOk);
      }
    }
  }

  lemma TakenIsSlot(a: Arena, cls: nat, k: AllocKey)
    requires Taken(a, cls, k)
    ensures k in a.table
  {
  }

  // ---------------------------------------------------------------- the states of a slot

  /** The slot that `p` stands for, when there is one. */
  function SlotOf(a: Arena, p: BlobPtr): Option<AllocEntry> { Get(a.table, AllocKey(p.cls, p.offset)) }

  /** Only the slot's state changes, to `s`. */
  predicate Became(a: Arena, b: Arena, p: BlobPtr, s: BlobState) {
    b.bytes == a.bytes && b.end == a.end && b.table == a.table[AllocKey(p.cls, p.offset) := AllocEntry(p.gen, s)]
  }

  /** Quarantine takes a used slot out of use, changes nothing in quarantine, and refuses the rest. */
  lemma QuarantineMeans(a: Arena, p: BlobPtr)
    ensures var (b, r) := MarkQuarantine(a, p);
            match SlotOf(a, p)
            case None => b == a && r == Err(MissingAllocEntry)
            case Some(e) =>
              if e.gen != p.gen then b == a && r == Err(InvalidPointer)
              else if e.state == Used then Became(a, b, p, Quarantine) && b.freeList == a.freeList && r == Ok(())
              else b == a && r == if e.state == Quarantine then Ok(()) else Err(InvalidState)
  {
  }

  /** A slot gets onto the free list from quarantine only, once. */
  lemma FreeMeans(a: Arena, p: BlobPtr)
    requires Inv(a)
    ensures var (b, r) := MarkFree(a, p);
            match SlotOf(a, p)
            case None => b == a && r == Err(MissingAllocEntry)
            case Some(e) =>
              if e.gen != p.gen then b == a && r == Err(InvalidPointer)
              else if e.state == Quarantine
              then Became(a, b, p, Free) && b.freeList == a.freeList + {AllocKey(p.cls, p.offset)} && r == Ok(())
              else b == a && r == if e.state == Free then Ok(()) else Err(InvalidState)
  {
    hide Tiled, Counted;
  }

  /** Pruning frees a slot in use or in quarantine without listing it. */
  lemma ReclaimMeans(a: Arena, p: BlobPtr)
    ensures var (b, r) := ReclaimForPrune(a, p);
            match SlotOf(a, p)
            case None => b == a && r == Err(MissingAllocEntry)
            case Some(e) =>
              if e.gen != p.gen then b == a && r == Err(InvalidPointer)
              else if e.state == Free then b == a && r == Ok(())
              else Became(a, b, p, Free) && b.freeList == a.freeList && r == Ok(())
  {
  }

  /** A slot reads under its own generation until it is free. */
  lemma ReadMeans(a: Arena, p: BlobPtr)
    requires Inv(a) && p.Fits()
    ensures Read(a, p)
         == match SlotOf(a, p)
            case None => Err(MissingAllocEntry)
            case Some(e) =>
              if e.gen != p.gen then Err(InvalidPointer)
              else if e.state == Free then Err(InvalidState)
              else Ok(a.bytes[p.offset .. p.offset + p.len])
  {
    ReadOfLive(a, p);
    hide Tiled, Counted;
  }

  /** A write needs the slot in use and exactly the pointer's length; it puts the data at the pointer's offset. */
  lemma WriteMeans(a: Arena, p: BlobPtr, data: seq<byte>, growOk: bool)
    requires Inv(a) && p.Fits()
    ensures var (b, r) := Write(a, p, data, growOk);
            && b == a.(bytes := b.bytes) && |b.bytes| == |a.bytes|
            && r == (if |data| != p.len then Err(LengthMismatch)
                     else match SlotOf(a, p)
                          case None => Err(MissingAllocEntry)
                          case Some(e) => if e == AllocEntry(p.gen, Used) then Ok(()) else Err(InvalidState))
            && forall i :: 0 <= i < |a.bytes| ==>
                 b.bytes[i] == if r.Ok? && p.offset <= i < p.offset + |data| then data[i - p.offset] else a.bytes[i]
  {
    WriteSpec(a, p, data, growOk);
    hide Tiled, Counted;
  }
}
