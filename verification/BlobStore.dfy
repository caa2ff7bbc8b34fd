/** The arena allocator of `crates/evm-db/src/blob_store.rs`.

    `Arena` is the value of the store's five fields and the functions on it say what each operation
    does; class `BlobArena.Store` updates the fields in place and is proved equal to those functions. */
module BlobStore {
  import opened Common

  const PAGE_SIZE: nat := 65536
  const MIN_CLASS: nat := 8192
  const MAX_CLASS: nat := 4194304

  type byte = bv8

  datatype BlobState = Used | Quarantine | Free

  datatype AllocKey = AllocKey(cls: nat, offset: nat) {
    function End(): nat { offset + cls }
  }

  datatype AllocEntry = AllocEntry(gen: nat, state: BlobState)

  datatype BlobPtr = BlobPtr(offset: nat, len: nat, cls: nat, gen: nat) {
    function Key(): AllocKey { AllocKey(cls, offset) }
    // Every pointer handed out by `allocate` fits its slot; a forged one need not.
    predicate Fits() { 0 < len <= cls }
  }

  datatype Usage = Usage(used: nat, quarantine: nat, free: nat)

  datatype BlobError =
    | ZeroLength | TooLarge | Overflow | GrowFailed | MissingAllocEntry
    | InvalidState | InvalidPointer | LengthMismatch | DuplicateFree

  datatype Arena = Arena(
    bytes: seq<byte>, end: nat, table: map<AllocKey, AllocEntry>, freeList: set<AllocKey>, totals: Usage)

  // ---------------------------------------------------------------- size classes

  function DoubleUntil(len: nat, cls: nat): (r: Result<nat, BlobError>)
    requires MIN_CLASS <= cls
    decreases MAX_CLASS + 1 - cls
  {
    if cls > MAX_CLASS then Err(TooLarge)
    else if len <= cls then Ok(cls)
    else DoubleUntil(len, 2 * cls)
  }

  /** The ten classes are the doublings of 8 KiB up to 4 MiB. */
  function SmallestClass(len: nat): Result<nat, BlobError> {
    if len == 0 then Err(ZeroLength) else DoubleUntil(len, MIN_CLASS)
  }

  lemma {:induction false} DoubleUntilFits(len: nat, cls: nat)
    requires MIN_CLASS <= cls
    ensures DoubleUntil(len, cls).Ok? ==> len <= DoubleUntil(len, cls).value <= MAX_CLASS
    ensures DoubleUntil(len, cls).Ok? ==> DoubleUntil(len, cls).value == cls || DoubleUntil(len, cls).value < 2 * len
    ensures DoubleUntil(len, cls).Ok? ==> cls <= DoubleUntil(len, cls).value
    decreases MAX_CLASS + 1 - cls
  {
    if cls <= MAX_CLASS && len > cls { DoubleUntilFits(len, 2 * cls); }
  }

  /** A slot wastes less than half of itself, except in the smallest class. */
  lemma SmallestClassFits(len: nat)
    ensures SmallestClass(len).Ok? ==>
              var c := SmallestClass(len).value;
              0 < len <= c <= MAX_CLASS && MIN_CLASS <= c && (c == MIN_CLASS || c < 2 * len)
  {
  }

  // ---------------------------------------------------------------- what the operations do

  /** First key of the class in key order: `range((class, 0)..=(class, MAX)).next()`. */
  ghost predicate IsFirst(keys: set<AllocKey>, cls: nat, k: AllocKey) {
    k in keys && k.cls == cls && forall k' :: k' in keys && k'.cls == cls ==> k.offset <= k'.offset
  }

  ghost function FirstOfClass(keys: set<AllocKey>, cls: nat): (r: Option<AllocKey>)
    ensures r.Some? ==> IsFirst(keys, cls, r.value)
    ensures r.None? ==> forall k :: k in keys ==> k.cls != cls
  {
    var mine := set k | k in keys && k.cls == cls;
    assert forall k :: k in keys && k.cls == cls ==> k in mine;
    if mine == {} then None
    else
      MinExists(mine, cls);
      var k :| IsFirst(mine, cls, k);
      Some(k)
  }

  lemma {:induction false} MinExists(keys: set<AllocKey>, cls: nat)
    requires keys != {} && forall k :: k in keys ==> k.cls == cls
    ensures exists k :: IsFirst(keys, cls, k)
  {
    var k :| k in keys;
    if keys == {k} {
      assert IsFirst(keys, cls, k);
    } else {
      MinExists(keys - {k}, cls);
      var m :| IsFirst(keys - {k}, cls, m);
      assert IsFirst(keys, cls, if k.offset <= m.offset then k else m);
    }
  }

  function FreeKeys(table: map<AllocKey, AllocEntry>): set<AllocKey> {
    set k | k in table && table[k].state == Free
  }

  /** `pop_free`: the free list first, then a scan of the allocation table. */
  ghost function PopFree(a: Arena, cls: nat): (Arena, Option<AllocKey>) {
    var listed := FirstOfClass(a.freeList, cls);
    if listed.Some? then (a.(freeList := a.freeList - {listed.value}), listed)
    else (a, FirstOfClass(FreeKeys(a.table), cls))
  }

  function PagesRequired(end: nat): Result<nat, BlobError> {
    if end == 0 then Ok(0)
    else if end + (PAGE_SIZE - 1) > U64_MAX then Err(Overflow)
    else Ok((end + (PAGE_SIZE - 1)) / PAGE_SIZE)
  }

  function Zeros(n: nat): seq<byte> { seq(n, _ => 0) }

  /** `ensure_capacity`; `growOk` says whether the memory system grants more pages. */
  function EnsureCapacity(bytes: seq<byte>, end: nat, growOk: bool): Result<seq<byte>, BlobError> {
    match PagesRequired(end)
    case Err(e) => Err(e)
    case Ok(pages) =>
      if pages <= |bytes| / PAGE_SIZE then Ok(bytes)
      else if !growOk then Err(GrowFailed)
      else Ok(bytes + Zeros((pages - |bytes| / PAGE_SIZE) * PAGE_SIZE))
  }

  function Add(t: Usage, s: BlobState, n: nat): Usage {
    match s
    case Used => t.(used := SatAdd(t.used, n, U64_MAX))
    case Quarantine => t.(quarantine := SatAdd(t.quarantine, n, U64_MAX))
    case Free => t.(free := SatAdd(t.free, n, U64_MAX))
  }

  function Sub(t: Usage, s: BlobState, n: nat): Usage {
    match s
    case Used => t.(used := SatSub(t.used, n))
    case Quarantine => t.(quarantine := SatSub(t.quarantine, n))
    case Free => t.(free := SatSub(t.free, n))
  }

  /** Moves slot `k` to state `s` under generation `gen`, keeping the running totals. */
  function Move(a: Arena, k: AllocKey, gen: nat, s: BlobState): Arena
    requires k in a.table
  {
    a.(table := a.table[k := AllocEntry(gen, s)],
       totals := Add(Sub(a.totals, a.table[k].state, k.cls), s, k.cls))
  }

  ghost function Allocate(a: Arena, len: nat, growOk: bool): (Arena, Result<BlobPtr, BlobError>) {
    match SmallestClass(len)
    case Err(e) => (a, Err(e))
    case Ok(cls) =>
      var (a1, popped) := PopFree(a, cls);
      match popped
      case Some(k) =>
        if k !in a1.table then (a1, Err(MissingAllocEntry))
        else if a1.table[k].state != Free then (a1, Err(InvalidState))
        else if a1.table[k].gen + 1 > U32_MAX then (a1, Err(Overflow))
        else
          var gen := a1.table[k].gen + 1;
          (Move(a1, k, gen, Used), Ok(BlobPtr(k.offset, len, cls, gen)))
      case None =>
        var end := a.end + cls;
        if end > U64_MAX then (a1, Err(Overflow))
        else
          match EnsureCapacity(a1.bytes, end, growOk)
          case Err(e) => (a1, Err(e))
          case Ok(bytes) =>
            var k := AllocKey(cls, a.end);
            (a1.(bytes := bytes, end := end, table := a1.table[k := AllocEntry(1, Used)],
                 totals := Add(a1.totals, Used, cls)),
             Ok(BlobPtr(a.end, len, cls, 1)))
  }

  function Read(a: Arena, p: BlobPtr): Result<seq<byte>, BlobError>
    requires a.end <= |a.bytes|
  {
    if p.Key() !in a.table then Err(MissingAllocEntry)
    else if a.table[p.Key()].gen != p.gen then Err(InvalidPointer)
    else if a.table[p.Key()].state == Free then Err(InvalidState)
    else if p.offset + p.len > U64_MAX then Err(Overflow)
    else if p.offset + p.len > a.end then Err(InvalidPointer)
    else Ok(a.bytes[p.offset .. p.offset + p.len])
  }

  /** `bytes` with `data` laid over it from `at` on. */
  function Overlay(bytes: seq<byte>, at: nat, data: seq<byte>): (r: seq<byte>)
    requires at + |data| <= |bytes|
  {
    bytes[..at] + data + bytes[at + |data|..]
  }

  function Write(a: Arena, p: BlobPtr, data: seq<byte>, growOk: bool): (Arena, Result<(), BlobError>)
    requires p.len <= p.cls
  {
    if |data| != p.len then (a, Err(LengthMismatch))
    else if p.Key() !in a.table then (a, Err(MissingAllocEntry))
    else if a.table[p.Key()].gen != p.gen || a.table[p.Key()].state != Used then (a, Err(InvalidState))
    else if p.offset + p.cls > U64_MAX then (a, Err(Overflow))
    else
      match EnsureCapacity(a.bytes, p.offset + p.cls, growOk)
      case Err(e) => (a, Err(e))
      case Ok(bytes) => CapacityGranted(a.bytes, p.offset + p.cls, growOk);
                        (a.(bytes := Overlay(bytes, p.offset, data)), Ok(()))
  }

  lemma CapacityGranted(bytes: seq<byte>, end: nat, growOk: bool)
    ensures EnsureCapacity(bytes, end, growOk).Ok? ==>
              end <= |EnsureCapacity(bytes, end, growOk).value| && bytes <= EnsureCapacity(bytes, end, growOk).value
  {
  }

  ghost function StoreBytes(a: Arena, data: seq<byte>, growOk: bool): (Arena, Result<BlobPtr, BlobError>) {
    var (a1, r) := Allocate(a, |data|, growOk);
    match r
    case Err(e) => (a1, Err(e))
    case Ok(p) =>
      SmallestClassFits(|data|);
      var (a2, w) := Write(a1, p, data, growOk);
      (a2, if w.Ok? then Ok(p) else Err(w.error))
  }

  function MarkQuarantine(a: Arena, p: BlobPtr): (Arena, Result<(), BlobError>) {
    if p.Key() !in a.table then (a, Err(MissingAllocEntry))
    else if a.table[p.Key()].gen != p.gen then (a, Err(InvalidPointer))
    else match a.table[p.Key()].state
      case Quarantine => (a, Ok(()))
      case Free => (a, Err(InvalidState))
      case Used => (Move(a, p.Key(), p.gen, Quarantine), Ok(()))
  }

  function MarkFree(a: Arena, p: BlobPtr): (Arena, Result<(), BlobError>) {
    if p.Key() !in a.table then (a, Err(MissingAllocEntry))
    else if a.table[p.Key()].gen != p.gen then (a, Err(InvalidPointer))
    else match a.table[p.Key()].state
      case Free => (a, Ok(()))
      case Used => (a, Err(InvalidState))
      case Quarantine =>
        if p.Key() in a.freeList then (a, Err(DuplicateFree))
        else (Move(a, p.Key(), p.gen, Free).(freeList := a.freeList + {p.Key()}), Ok(()))
  }

  /** Frees from Used or Quarantine without listing the slot in the free list. */
  function ReclaimForPrune(a: Arena, p: BlobPtr): (Arena, Result<(), BlobError>) {
    if p.Key() !in a.table then (a, Err(MissingAllocEntry))
    else if a.table[p.Key()].gen != p.gen then (a, Err(InvalidPointer))
    else if a.table[p.Key()].state == Free then (a, Ok(()))
    else (Move(a, p.Key(), p.gen, Free), Ok(()))
  }

  datatype Op =
    | OpAllocate(size: nat, growOk: bool)
    | OpStore(data: seq<byte>, growOk: bool)
    | OpWrite(p: BlobPtr, data: seq<byte>, growOk: bool)
    | OpQuarantine(p: BlobPtr)
    | OpFree(p: BlobPtr)
    | OpReclaim(p: BlobPtr)
  {
    // Only pointers that `allocate` built can be presented, so they fit their slots.
    predicate Legal() { OpAllocate? || OpStore? || p.Fits() }

    predicate Targets(k: AllocKey) { !OpAllocate? && !OpStore? && p.Key() == k }
  }

  ghost function Step(a: Arena, op: Op): Arena
    requires op.Legal()
  {
    match op
    case OpAllocate(n, g) => Allocate(a, n, g).0
    case OpStore(d, g) => StoreBytes(a, d, g).0
    case OpWrite(p, d, g) => Write(a, p, d, g).0
    case OpQuarantine(p) => MarkQuarantine(a, p).0
    case OpFree(p) => MarkFree(a, p).0
    case OpReclaim(p) => ReclaimForPrune(a, p).0
  }

  ghost predicate AllLegal(ops: seq<Op>) { forall i :: 0 <= i < |ops| ==> ops[i].Legal() }

  ghost function Run(a: Arena, ops: seq<Op>): Arena
    requires AllLegal(ops)
    decreases |ops|
  {
    if ops == [] then a else Run(Step(a, ops[0]), ops[1..])
  }

  // ---------------------------------------------------------------- the full scan

  ghost function Weight(table: map<AllocKey, AllocEntry>, s: BlobState, k: AllocKey): nat
    requires k in table
  {
    if table[k].state == s then k.cls else 0
  }

  /** Bytes of the slots among `keys` that are in state `s`. */
  ghost function Bytes(table: map<AllocKey, AllocEntry>, s: BlobState, keys: set<AllocKey>): nat
    requires keys <= table.Keys
  {
    if keys == {} then 0
    else var k :| k in keys; Weight(table, s, k) + Bytes(table, s, keys - {k})
  }

  lemma {:induction false} BytesPick(table: map<AllocKey, AllocEntry>, s: BlobState, keys: set<AllocKey>, k: AllocKey)
    requires keys <= table.Keys && k in keys
    ensures Bytes(table, s, keys) == Weight(table, s, k) + Bytes(table, s, keys - {k})
  {
    var j :| j in keys && Bytes(table, s, keys) == Weight(table, s, j) + Bytes(table, s, keys - {j});
    if j != k {
      BytesPick(table, s, keys - {j}, k);
      BytesPick(table, s, keys - {k}, j);
      assert keys - {j} - {k} == keys - {k} - {j};
    }
  }

  lemma {:induction false} BytesSame(t: map<AllocKey, AllocEntry>, t': map<AllocKey, AllocEntry>, s: BlobState,
                                     keys: set<AllocKey>)
    requires keys <= t.Keys && keys <= t'.Keys
    requires forall k :: k in keys ==> t[k].state == t'[k].state
    ensures Bytes(t, s, keys) == Bytes(t', s, keys)
  {
    if keys != {} {
      var k :| k in keys;
      BytesPick(t, s, keys, k);
      BytesPick(t', s, keys, k);
      BytesSame(t, t', s, keys - {k});
    }
  }

  lemma BytesSet(t: map<AllocKey, AllocEntry>, k: AllocKey, e: AllocEntry, s: BlobState)
    ensures Bytes(t[k := e], s, t[k := e].Keys)
         == Bytes(t, s, t.Keys) - (if k in t then Weight(t, s, k) else 0) + (if e.state == s then k.cls else 0)
  {
    var t' := t[k := e];
    BytesPick(t', s, t'.Keys, k);
    BytesSame(t, t', s, t.Keys - {k});
    assert t'.Keys - {k} == t.Keys - {k};
    if k in t { BytesPick(t, s, t.Keys, k); } else { assert t.Keys - {k} == t.Keys; }
  }

  // ---------------------------------------------------------------- invariant

  predicate Apart(j: AllocKey, k: AllocKey) { j.End() <= k.offset || k.End() <= j.offset }

  ghost predicate Covered(table: map<AllocKey, AllocEntry>, x: nat) {
    exists k :: k in table && k.offset <= x < k.End()
  }

  /** Slots are inside the arena, pairwise apart, and leave no hole: they tile `[0, end)`. */
  ghost predicate Tiled(a: Arena) {
    && (forall k :: k in a.table ==> 0 < k.cls && k.End() <= a.end)
    && (forall j, k :: j in a.table && k in a.table && j != k ==> Apart(j, k))
    && (forall x: nat :: x < a.end ==> Covered(a.table, x))
  }

  /** Running totals equal the full scan, and every byte of the arena is counted once. */
  ghost predicate Counted(a: Arena) {
    && a.totals.used == Bytes(a.table, Used, a.table.Keys)
    && a.totals.quarantine == Bytes(a.table, Quarantine, a.table.Keys)
    && a.totals.free == Bytes(a.table, Free, a.table.Keys)
    && a.totals.used + a.totals.quarantine + a.totals.free == a.end
  }

  ghost predicate Inv(a: Arena) {
    && a.end <= |a.bytes| && |a.bytes| % PAGE_SIZE == 0 && a.end + (PAGE_SIZE - 1) <= U64_MAX
    && Tiled(a)
    && Counted(a)
    && (forall k :: k in a.freeList ==> k in a.table && a.table[k].state == Free)
  }

  const EMPTY: Arena := Arena([], 0, map[], {}, Usage(0, 0, 0))

  lemma EmptyInv()
    ensures Inv(EMPTY)
  {
  }

  lemma MoveCounted(a: Arena, k: AllocKey, gen: nat, s: BlobState)
    requires Counted(a) && k in a.table && a.end <= U64_MAX
    ensures Counted(Move(a, k, gen, s))
  {
    var e := AllocEntry(gen, s);
    BytesSet(a.table, k, e, Used);
    BytesSet(a.table, k, e, Quarantine);
    BytesSet(a.table, k, e, Free);
    BytesPick(a.table, a.table[k].state, a.table.Keys, k);
    hide Bytes;
    MovedTotals(a.totals, a.table[k].state, s, k.cls);
  }

  /** Bytes that leave one total for another, where the totals fit 64 bits together. */
  lemma MovedTotals(t: Usage, from: BlobState, to: BlobState, n: nat)
    requires t.used + t.quarantine + t.free <= U64_MAX
    requires n <= (match from case Used => t.used case Quarantine => t.quarantine case Free => t.free)
    ensures var u := Add(Sub(t, from, n), to, n);
            && u.used == t.used - (if from == Used then n else 0) + (if to == Used then n else 0)
            && u.quarantine
               == t.quarantine - (if from == Quarantine then n else 0) + (if to == Quarantine then n else 0)
            && u.free == t.free - (if from == Free then n else 0) + (if to == Free then n else 0)
  {
  }

  lemma MoveTiled(a: Arena, k: AllocKey, gen: nat, s: BlobState)
    requires Tiled(a) && k in a.table
    ensures Tiled(Move(a, k, gen, s))
  {
    var b := Move(a, k, gen, s);
    forall x: nat | x < b.end ensures Covered(b.table, x) {
      assert Covered(a.table, x);
      var j :| j in a.table && j.offset <= x < j.End();
      assert j in b.table;
    }
  }

  lemma MoveInv(a: Arena, k: AllocKey, gen: nat, s: BlobState)
    requires Inv(a) && k in a.table
    requires k in a.freeList ==> s == Free
    ensures Inv(Move(a, k, gen, s))
  {
    MoveCounted(a, k, gen, s);
    MoveTiled(a, k, gen, s);
    hide Counted, Tiled;
  }

  lemma GrowInv(a: Arena, bytes: seq<byte>, cls: nat)
    requires Inv(a) && 0 < cls && a.bytes <= bytes && a.end + cls <= |bytes| && |bytes| % PAGE_SIZE == 0
    requires a.end + cls + (PAGE_SIZE - 1) <= U64_MAX
    ensures Inv(Arena(bytes, a.end + cls, a.table[AllocKey(cls, a.end) := AllocEntry(1, Used)],
                      a.freeList, Add(a.totals, Used, cls)))
    ensures AllocKey(cls, a.end) !in a.table
  {
    var k := AllocKey(cls, a.end);
    var e := AllocEntry(1, Used);
    BytesSet(a.table, k, e, Used);
    BytesSet(a.table, k, e, Quarantine);
    BytesSet(a.table, k, e, Free);
    var table := a.table[k := e];
    forall x: nat | x < a.end + cls ensures Covered(table, x) {
      if x < a.end {
        assert Covered(a.table, x);
        var j :| j in a.table && j.offset <= x < j.End();
        assert j in table;
      } else {
        assert k in table && k.offset <= x < k.End();
      }
    }
  }

  /** `ensure_capacity` never shrinks the memory and keeps it a whole number of pages. */
  lemma CapacityPages(bytes: seq<byte>, end: nat, growOk: bool)
    requires |bytes| % PAGE_SIZE == 0
    ensures EnsureCapacity(bytes, end, growOk).Ok? ==>
              |EnsureCapacity(bytes, end, growOk).value| % PAGE_SIZE == 0
              && (end == 0 || end + (PAGE_SIZE - 1) <= U64_MAX)
    ensures end <= |bytes| && end + (PAGE_SIZE - 1) <= U64_MAX ==> EnsureCapacity(bytes, end, growOk) == Ok(bytes)
  {
  }

  lemma PopFreeInv(a: Arena, cls: nat)
    requires Inv(a)
    ensures
      var (b, popped) := PopFree(a, cls);
      && Inv(b)
      && b == a.(freeList := b.freeList)
      && (popped.Some? ==> popped.value in a.table && a.table[popped.value].state == Free
                           && popped.value.cls == cls && popped.value !in b.freeList)
      && (popped.None? ==> forall k :: k in a.table && k.cls == cls ==> a.table[k].state != Free)
  {
  }

  /** Reusing slot `k` that `pop_free` returned. */
  lemma ReuseInv(a: Arena, k: AllocKey)
    requires Inv(a) && k in a.table && a.table[k].state == Free && k !in a.freeList
    ensures Inv(Move(a, k, a.table[k].gen + 1, Used)) && k.offset + k.cls <= a.end
  {
    MoveInv(a, k, a.table[k].gen + 1, Used);
  }

  /** Growing by a class whose pages the memory system grants. */
  lemma GrantedGrowInv(a: Arena, cls: nat, growOk: bool)
    requires Inv(a) && 0 < cls && EnsureCapacity(a.bytes, a.end + cls, growOk).Ok?
    ensures var bytes := EnsureCapacity(a.bytes, a.end + cls, growOk).value;
            a.bytes <= bytes && AllocKey(cls, a.end) !in a.table
            && Inv(Arena(bytes, a.end + cls, a.table[AllocKey(cls, a.end) := AllocEntry(1, Used)],
                         a.freeList, Add(a.totals, Used, cls)))
  {
    CapacityGranted(a.bytes, a.end + cls, growOk);
    CapacityPages(a.bytes, a.end + cls, growOk);
    GrowInv(a, EnsureCapacity(a.bytes, a.end + cls, growOk).value, cls);
  }

  /** What `allocate` did when it returned `p`: it reused a Free slot one generation later, or it grew the
      arena because no slot of the class was Free, listed or not. */
  ghost predicate Allocated(a: Arena, b: Arena, p: BlobPtr) {
    && b.table == a.table[p.Key() := AllocEntry(p.gen, Used)]
    && (if p.Key() in a.table
        then a.table[p.Key()].state == Free && p.gen == a.table[p.Key()].gen + 1 && b.end == a.end
        else p.offset == a.end && p.gen == 1 && b.end == a.end + p.cls
             && forall k :: k in a.table && k.cls == p.cls ==> a.table[k].state != Free)
  }

  /** Everything a caller of `allocate` can rely on. A failure leaves the slots alone, and the two defensive
      errors about the popped slot cannot happen. */
  lemma AllocateSpec(a: Arena, len: nat, growOk: bool)
    requires Inv(a)
    ensures
      var (b, r) := Allocate(a, len, growOk);
      && Inv(b)
      && a.bytes <= b.bytes
      && (r.Err? ==> b == a.(freeList := b.freeList) && !r.error.MissingAllocEntry? && !r.error.InvalidState?)
      && (r.Ok? ==>
            var p := r.value;
            && p.len == len && p.Fits() && SmallestClass(len) == Ok(p.cls) && p.offset + p.cls <= b.end
            && Allocated(a, b, p))
  {
    hide Inv;
    if SmallestClass(len).Err? { return; }
    SmallestClassFits(len);
    var cls := SmallestClass(len).value;
    PopFreeInv(a, cls);
    var (a1, popped) := PopFree(a, cls);
    if popped.Some? {
      ReuseInv(a1, popped.value);
    } else if a.end + cls <= U64_MAX && EnsureCapacity(a.bytes, a.end + cls, growOk).Ok? {
      GrantedGrowInv(a1, cls, growOk);
    }
  }

  /** A live pointer: its slot still carries its generation and has not been freed. */
  predicate Live(a: Arena, p: BlobPtr) {
    p.Key() in a.table && a.table[p.Key()].gen == p.gen && a.table[p.Key()].state != Free
  }

  /** A dead pointer: its slot exists, but was freed or has moved on to a later generation. */
  predicate Dead(a: Arena, p: BlobPtr) {
    p.Key() in a.table
    && (p.gen < a.table[p.Key()].gen || (p.gen == a.table[p.Key()].gen && a.table[p.Key()].state == Free))
  }

  lemma ReadOfLive(a: Arena, p: BlobPtr)
    requires Inv(a) && p.Fits()
    ensures Live(a, p) <==> Read(a, p).Ok?
    ensures Live(a, p) ==> Read(a, p).value == a.bytes[p.offset .. p.offset + p.len]
  {
  }

  lemma WriteSpec(a: Arena, p: BlobPtr, data: seq<byte>, growOk: bool)
    requires Inv(a) && p.Fits()
    ensures
      var (b, r) := Write(a, p, data, growOk);
      && Inv(b)
      && b == a.(bytes := b.bytes)
      && |a.bytes| == |b.bytes|
      && (r.Err? ==> b == a)
      && (r.Ok? ==> Read(b, p) == Ok(data))
      && (r.Ok? <==> |data| == p.len && Live(a, p) && a.table[p.Key()].state == Used)
      && (forall x: nat :: x < |a.bytes| && !(p.offset <= x < p.offset + p.cls) ==> b.bytes[x] == a.bytes[x])
  {
    if Live(a, p) { CapacityPages(a.bytes, p.offset + p.cls, growOk); }
  }

  /** `store_bytes` is all or nothing: it leaves a live pointer that reads back the data and changes no other
      slot, or it leaves every slot as it was. */
  lemma StoreSpec(a: Arena, data: seq<byte>, growOk: bool)
    requires Inv(a)
    ensures
      var (b, r) := StoreBytes(a, data, growOk);
      && Inv(b)
      && (r.Err? ==> b == a.(freeList := b.freeList))
      && (r.Ok? ==>
            var p := r.value;
            && p.Fits() && Read(b, p) == Ok(data) && !Live(a, p) && !Dead(a, p)
            && (p.Key() in a.table ==> a.table[p.Key()].state == Free)
            && b.table == a.table[p.Key() := AllocEntry(p.gen, Used)])
      && |a.bytes| <= |b.bytes|
      && (forall x: nat :: x < |a.bytes| && (r.Ok? ==> !(r.value.offset <= x < r.value.offset + r.value.cls))
            ==> b.bytes[x] == a.bytes[x])
  {
    AllocateSpec(a, |data|, growOk);
    SmallestClassFits(|data|);
    var (a1, r) := Allocate(a, |data|, growOk);
    if r.Ok? { WriteSpec(a1, r.value, data, growOk); }
  }

  lemma StepInv(a: Arena, op: Op)
    requires Inv(a) && op.Legal()
    ensures Inv(Step(a, op))
  {
    match op
    case OpAllocate(n, g) => AllocateSpec(a, n, g);
    case OpStore(d, g) => StoreSpec(a, d, g);
    case OpWrite(p, d, g) => WriteSpec(a, p, d, g);
    case OpQuarantine(p) => if MarkQuarantine(a, p).0 != a { MoveInv(a, p.Key(), p.gen, Quarantine); }
    case OpFree(p) => if MarkFree(a, p).0 != a { MoveInv(a, p.Key(), p.gen, Free); }
    case OpReclaim(p) => if ReclaimForPrune(a, p).0 != a { MoveInv(a, p.Key(), p.gen, Free); }
  }

  /** Conservation over whole runs: every reachable arena is tiled by its slots and fully accounted for. */
  lemma {:induction false} RunInv(a: Arena, ops: seq<Op>)
    requires Inv(a) && AllLegal(ops)
    ensures Inv(Run(a, ops))
    decreases |ops|
  {
    if ops != [] {
      StepInv(a, ops[0]);
      RunInv(Step(a, ops[0]), ops[1..]);
    }
  }

  // ---------------------------------------------------------------- pointers over whole runs

  /** Bytes outside slot `k` are the same in both arenas. */
  ghost predicate SameOutside(a: Arena, b: Arena, k: AllocKey) {
    |a.bytes| <= |b.bytes| && forall x: nat :: x < |a.bytes| && !(k.offset <= x < k.End()) ==> b.bytes[x] == a.bytes[x]
  }

  lemma SlotUntouched(a: Arena, b: Arena, p: BlobPtr, k: AllocKey)
    requires Inv(a) && Inv(b) && p.Fits() && Live(a, p) && k != p.Key() && SameOutside(a, b, k)
    requires p.Key() in b.table && b.table[p.Key()] == a.table[p.Key()] && k in b.table
    ensures Live(b, p) && Read(b, p) == Read(a, p)
  {
    assert Apart(p.Key(), k);
    assert b.bytes[p.offset .. p.offset + p.len] == a.bytes[p.offset .. p.offset + p.len];
  }

  /** One step that is not aimed at the slot of a live pointer leaves what it reads alone. */
  ghost predicate KeepsLive(a: Arena, b: Arena, p: BlobPtr) {
    a.end <= |a.bytes| && b.end <= |b.bytes| && Live(b, p) && Read(b, p) == Read(a, p)
  }

  lemma InvRoomy(a: Arena)
    requires Inv(a)
    ensures a.end <= |a.bytes|
  {
  }

  lemma AllocateKeepsLive(a: Arena, p: BlobPtr, n: nat, g: bool)
    requires Inv(a) && p.Fits() && Live(a, p)
    ensures KeepsLive(a, Allocate(a, n, g).0, p)
  {
    AllocateSpec(a, n, g);
    var (b, r) := Allocate(a, n, g);
    hide Inv, Allocate, Read;
    InvRoomy(a);
    InvRoomy(b);
    if r.Ok? { SlotUntouched(a, b, p, r.value.Key()); }
  }

  lemma StoreKeepsLive(a: Arena, p: BlobPtr, d: seq<byte>, g: bool)
    requires Inv(a) && p.Fits() && Live(a, p)
    ensures KeepsLive(a, StoreBytes(a, d, g).0, p)
  {
    StoreSpec(a, d, g);
    var (b, r) := StoreBytes(a, d, g);
    hide Inv, StoreBytes, Read;
    InvRoomy(a);
    InvRoomy(b);
    if r.Ok? { SlotUntouched(a, b, p, r.value.Key()); }
  }

  lemma WriteKeepsLive(a: Arena, p: BlobPtr, q: BlobPtr, d: seq<byte>, g: bool)
    requires Inv(a) && p.Fits() && q.Fits() && Live(a, p) && q.Key() != p.Key()
    ensures KeepsLive(a, Write(a, q, d, g).0, p)
  {
    WriteSpec(a, q, d, g);
    var (b, r) := Write(a, q, d, g);
    hide Inv, Write, Read;
    InvRoomy(a);
    InvRoomy(b);
    if r.Ok? { SlotUntouched(a, b, p, q.Key()); }
  }

  /** Moving other slots between states leaves a live pointer's bytes alone. */
  lemma TableKeepsLive(a: Arena, b: Arena, p: BlobPtr)
    requires a.end <= |a.bytes| && Live(a, p) && b.bytes == a.bytes && b.end == a.end
    requires p.Key() in b.table && b.table[p.Key()] == a.table[p.Key()]
    ensures Live(b, p) && Read(b, p) == Read(a, p)
  {
  }

  lemma StepKeepsLive(a: Arena, p: BlobPtr, op: Op)
    requires Inv(a) && op.Legal() && p.Fits() && Live(a, p) && !op.Targets(p.Key())
    ensures Live(Step(a, op), p) && Inv(Step(a, op)) && Read(Step(a, op), p) == Read(a, p)
  {
    StepInv(a, op);
    InvRoomy(a);
    hide Inv, Allocate, StoreBytes, Write, Read;
    if op.OpAllocate? {
      AllocateKeepsLive(a, p, op.size, op.growOk);
    } else if op.OpStore? {
      StoreKeepsLive(a, p, op.data, op.growOk);
    } else if op.OpWrite? {
      WriteKeepsLive(a, p, op.p, op.data, op.growOk);
    } else {
      TableKeepsLive(a, Step(a, op), p);
    }
  }

  /** A live pointer reads back the same bytes after any run of operations on other slots. */
  lemma {:induction false} ReadsBack(a: Arena, p: BlobPtr, ops: seq<Op>)
    requires Inv(a) && p.Fits() && Live(a, p) && AllLegal(ops)
    requires forall i :: 0 <= i < |ops| ==> !ops[i].Targets(p.Key())
    ensures Inv(Run(a, ops)) && Live(Run(a, ops), p) && Read(Run(a, ops), p) == Read(a, p)
    decreases |ops|
  {
    if ops != [] {
      StepKeepsLive(a, p, ops[0]);
      ReadsBack(Step(a, ops[0]), p, ops[1..]);
    }
  }

  /** Stored data survives: the pointer `store_bytes` returns reads exactly the data, however the rest of the
      arena is used, until an operation is aimed at its slot. */
  lemma StoredDataReadsBack(a: Arena, data: seq<byte>, growOk: bool, ops: seq<Op>)
    requires Inv(a) && AllLegal(ops) && StoreBytes(a, data, growOk).1.Ok?
    requires forall i :: 0 <= i < |ops| ==> !ops[i].Targets(StoreBytes(a, data, growOk).1.value.Key())
    ensures var (b, r) := StoreBytes(a, data, growOk);
            Inv(Run(b, ops)) && Read(Run(b, ops), r.value) == Ok(data)
  {
    StoreSpec(a, data, growOk);
    ReadsBack(StoreBytes(a, data, growOk).0, StoreBytes(a, data, growOk).1.value, ops);
  }

  /** Generations never go back, and a freed slot comes back into use only under a later one. */
  lemma StepKeepsDead(a: Arena, p: BlobPtr, op: Op)
    requires Inv(a) && op.Legal() && Dead(a, p)
    ensures Dead(Step(a, op), p)
  {
    match op
    case OpAllocate(n, g) => AllocateSpec(a, n, g);
    case OpStore(d, g) => StoreSpec(a, d, g); AllocateSpec(a, |d|, g);
    case OpWrite(q, d, g) => WriteSpec(a, q, d, g);
    case OpQuarantine(q) =>
    case OpFree(q) =>
    case OpReclaim(q) =>
  }

  /** A freed pointer never reads again, whatever happens to its slot, and is never handed out again. */
  lemma {:induction false} DeadForever(a: Arena, p: BlobPtr, ops: seq<Op>)
    requires Inv(a) && Dead(a, p) && AllLegal(ops)
    ensures Inv(Run(a, ops)) && Dead(Run(a, ops), p) && Read(Run(a, ops), p).Err?
    ensures forall data, growOk :: StoreBytes(Run(a, ops), data, growOk).1 != Ok(p)
    decreases |ops|
  {
    if ops != [] {
      StepInv(a, ops[0]);
      StepKeepsDead(a, p, ops[0]);
      DeadForever(Step(a, ops[0]), p, ops[1..]);
    } else {
      forall data, growOk ensures StoreBytes(a, data, growOk).1 != Ok(p) { StoreSpec(a, data, growOk); }
    }
  }

  /** Freeing is final: after `mark_free` or `reclaim_for_prune` accepts a pointer, no later run reads it. */
  lemma FreedNeverReads(a: Arena, p: BlobPtr, viaPrune: bool, ops: seq<Op>)
    requires Inv(a) && p.Fits() && AllLegal(ops)
    requires if viaPrune then ReclaimForPrune(a, p).1.Ok? else MarkFree(a, p).1.Ok?
    ensures var b := if viaPrune then ReclaimForPrune(a, p).0 else MarkFree(a, p).0;
            Inv(Run(b, ops)) && Read(Run(b, ops), p).Err?
  {
    StepInv(a, if viaPrune then OpReclaim(p) else OpFree(p));
    var b := if viaPrune then ReclaimForPrune(a, p).0 else MarkFree(a, p).0;
    assert Dead(b, p);
    hide Inv, Run, Dead, MarkFree, ReclaimForPrune, StoreBytes;
    DeadForever(b, p, ops);
  }
}
