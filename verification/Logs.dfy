/** Log paging of `crates/ic-evm-rpc/src/lib.rs`: pages cut by a limit or by the scan cap put together are the one
    filtered list, and its log numbers are those of the receipt view. */
module Logs {
  import opened Common

  const DEFAULT_LIMIT: nat := 200
  const MAX_LIMIT: nat := 2000
  const MAX_BLOCK_SPAN: nat := 1000
  const MAX_SCANNED_RECEIPTS: nat := 20_000

  type byte = bv8
  type TxHash = nat

  datatype Log = Log(address: seq<byte>, topics: seq<seq<byte>>, data: seq<byte>)

  datatype Receipt = Receipt(txId: TxHash, blockNumber: nat, txIndex: nat, logs: seq<Log>)

  datatype View = View(head: nat, prunedBefore: Option<nat>, blocks: map<nat, seq<TxHash>>,
                       receipts: map<TxHash, Receipt>)

  /** Lists shorter than 2^32, as every stored block and receipt is. */
  ghost predicate Narrow(v: View) {
    && v.head < U64_MAX
    && (forall n :: n in v.blocks ==> |v.blocks[n]| <= U32_MAX)
    && (forall id :: id in v.receipts ==> |v.receipts[id].logs| < U32_MAX)
  }

  datatype Filter = Filter(
    fromBlock: Option<nat>, toBlock: Option<nat>, limit: Option<nat>,
    address: Option<seq<byte>>, topic0: Option<seq<byte>>, topic1: Option<seq<byte>>)

  datatype Cursor = Cursor(block: nat, tx: nat, log: nat)

  datatype Item = Item(blockNumber: nat, txIndex: nat, logIndex: nat, txHash: TxHash, log: Log)

  datatype Page = Page(items: seq<Item>, next: Option<Cursor>)

  datatype LogsError = UnsupportedFilter | InvalidArgument | RangeTooLarge | TooManyResults

  predicate Matches(f: Filter, log: Log) {
    && (f.address.Some? ==> log.address == f.address.value)
    && (f.topic0.Some? ==> log.topics != [] && log.topics[0] == f.topic0.value)
  }

  // ---------------------------------------------------------------- the list

  function LogCount(v: View, id: TxHash): nat { if id in v.receipts then |v.receipts[id].logs| else 0 }

  /** How many logs the first `pos` transactions of the block have, in the saturating 32-bit count of the scan. */
  function Offset(v: View, ids: seq<TxHash>, pos: nat): nat
    requires pos <= |ids|
  {
    if pos == 0 then 0 else SatAdd(Offset(v, ids, pos - 1), Min(LogCount(v, ids[pos - 1]), U32_MAX), U32_MAX)
  }

  function ItemOf(r: Receipt, k: nat, base: nat): Item
    requires k < |r.logs|
  {
    Item(r.blockNumber, r.txIndex, SatAdd(base, Min(k, U32_MAX), U32_MAX), r.txId, r.logs[k])
  }

  /** The receipt's matching logs from number `k` on. */
  function LogItems(f: Filter, r: Receipt, k: nat, base: nat): seq<Item>
    decreases |r.logs| - k
  {
    if k >= |r.logs| then []
    else (if Matches(f, r.logs[k]) then [ItemOf(r, k, base)] else []) + LogItems(f, r, k + 1, base)
  }

  /** The block's matching logs from log `k` of transaction `pos` on; missing blocks and receipts have none. */
  function BlockItems(v: View, f: Filter, n: nat, pos: nat, k: nat): seq<Item>
    decreases if n in v.blocks then |v.blocks[n]| - pos else 0
  {
    if n !in v.blocks || pos >= |v.blocks[n]| then []
    else TxItems(v, f, n, pos, k) + BlockItems(v, f, n, pos + 1, 0)
  }

  function TxItems(v: View, f: Filter, n: nat, pos: nat, k: nat): seq<Item>
    requires n in v.blocks && pos < |v.blocks[n]|
  {
    var id := v.blocks[n][pos];
    if id in v.receipts then LogItems(f, v.receipts[id], k, Offset(v, v.blocks[n], pos)) else []
  }

  /** Every matching log from a position on, up to block `to`. */
  function Items(v: View, f: Filter, c: Cursor, to: nat): seq<Item>
    decreases to + 1 - c.block
  {
    if c.block > to then [] else BlockItems(v, f, c.block, c.tx, c.log) + Items(v, f, Cursor(c.block + 1, 0, 0), to)
  }

  predicate Before(a: Cursor, b: Cursor) {
    a.block < b.block || (a.block == b.block && (a.tx < b.tx || (a.tx == b.tx && a.log < b.log)))
  }

  function OrElse(o: Option<nat>, default: nat): nat { match o case Some(x) => x case None => default }

  // ---------------------------------------------------------------- the request

  datatype Plan = Plan(start: Cursor, to: nat, limit: nat)

  /** The checks before the scan, in order, and what it will scan. */
  function Planned(v: View, f: Filter, cursor: Option<Cursor>, limit: nat): Result<Plan, LogsError> {
    var from := OrElse(f.fromBlock, 0);
    var to := OrElse(f.toBlock, v.head);
    var wanted := Max(if limit == 0 then OrElse(f.limit, DEFAULT_LIMIT) else limit, 1);
    if f.topic1.Some? then Err(UnsupportedFilter)
    else if from > to then Err(InvalidArgument)
    else if to - from > MAX_BLOCK_SPAN then Err(RangeTooLarge)
    else if wanted > MAX_LIMIT then Err(TooManyResults)
    else if f.address.Some? && |f.address.value| != 20 then Err(InvalidArgument)
    else if f.topic0.Some? && |f.topic0.value| != 32 then Err(InvalidArgument)
    else
      var first := match v.prunedBefore
        case Some(p) => if from <= p then SatAdd(p, 1, U64_MAX) else from
        case None => from;
      var last := Min(to, v.head);
      match cursor
      case None => Ok(Plan(Cursor(first, 0, 0), last, wanted))
      case Some(c) => if c.block < first || c.block > last then Err(InvalidArgument) else Ok(Plan(c, last, wanted))
  }

  /** What a page is: the next matching logs, at most the limit, and a cursor strictly further on from which exactly
      the others follow, or none when there are no others. */
  ghost predicate PageOk(v: View, f: Filter, p: Plan, page: Page) {
    && |page.items| <= p.limit
    && (match page.next
        case None => page.items == Items(v, f, p.start, p.to)
        case Some(c) =>
          && Before(p.start, c) && c.block <= p.to
          && page.items + Items(v, f, c, p.to) == Items(v, f, p.start, p.to))
  }

  /** A page ends at its limit, at the end of the range, or once exactly 20000 receipts were looked at. */
  ghost predicate CutShort(v: View, p: Plan, page: Page) {
    page.next.Some? && |page.items| < p.limit ==> Between(v, p.start, page.next.value) == 20_000
  }

  // ---------------------------------------------------------------- the receipts looked at

  /** How many of the listed transactions from `from` up to `upto` have a receipt. */
  function Receipts(v: View, ids: seq<TxHash>, from: nat, upto: nat): nat
    requires upto <= |ids|
  {
    if upto <= from then 0 else Receipts(v, ids, from, upto - 1) + if ids[upto - 1] in v.receipts then 1 else 0
  }

  /** The receipts of block `n` from transaction `from` up to `upto`. */
  function InBlock(v: View, n: nat, from: nat, upto: nat): nat {
    if n in v.blocks then Receipts(v, v.blocks[n], from, Min(upto, |v.blocks[n]|)) else 0
  }

  function FirstTx(start: Cursor, n: nat): nat { if n == start.block then start.tx else 0 }

  /** The receipts from a position up to block `n`. */
  function UpToBlock(v: View, start: Cursor, n: nat): nat
    decreases n
  {
    if n <= start.block then 0 else UpToBlock(v, start, n - 1) + InBlock(v, n - 1, FirstTx(start, n - 1), U32_MAX)
  }

  /** The receipts between two positions. */
  function Between(v: View, start: Cursor, end: Cursor): nat {
    UpToBlock(v, start, end.block) + InBlock(v, end.block, FirstTx(start, end.block), end.tx)
  }

  // ---------------------------------------------------------------- the loops

  lemma Assoc(a: seq<Item>, b: seq<Item>, c: seq<Item>)
    ensures a + (b + c) == a + b + c
  {
  }

  /** The innermost loop: the logs of one receipt. */
  method ScanReceipt(f: Filter, r: Receipt, k0: nat, base: nat, out0: seq<Item>, limit: nat)
    returns (out: seq<Item>, stop: Option<nat>)
    requires |out0| < limit
    ensures stop.None? ==> out == out0 + LogItems(f, r, k0, base) && |out| < limit
    ensures stop.Some? ==> k0 < stop.value <= |r.logs| && |out| == limit
                           && out + LogItems(f, r, stop.value, base) == out0 + LogItems(f, r, k0, base)
  {
    hide Matches, ItemOf;
    out := out0;
    var k := k0;
    while k < |r.logs|
      invariant k0 <= k && (k0 < k ==> k <= |r.logs|)
      invariant |out| < limit && out + LogItems(f, r, k, base) == out0 + LogItems(f, r, k0, base)
      decreases |r.logs| - k
    {
      var hit := if Matches(f, r.logs[k]) then [ItemOf(r, k, base)] else [];
      Assoc(out, hit, LogItems(f, r, k + 1, base));
      out := out + hit;
      k := k + 1;
      if |hit| > 0 && |out| == limit { return out, Some(k); }
    }
    stop := None;
  }

  /** The logs of the transactions a cursor skips. */
  method OffsetOf(v: View, ids: seq<TxHash>, pos: nat) returns (offset: nat)
    requires pos <= |ids|
    ensures offset == Offset(v, ids, pos)
  {
    hide Offset;
    offset := 0;
    OffsetNone(v, ids);
    for i := 0 to pos
      invariant offset == Offset(v, ids, i)
    {
      OffsetAt(v, ids, i);
      if ids[i] in v.receipts { offset := SatAdd(offset, Min(|v.receipts[ids[i]].logs|, U32_MAX), U32_MAX); }
    }
  }

  lemma OffsetNone(v: View, ids: seq<TxHash>)
    ensures Offset(v, ids, 0) == 0
  {
  }

  lemma OffsetAt(v: View, ids: seq<TxHash>, pos: nat)
    requires pos < |ids|
    ensures Offset(v, ids, pos + 1) == SatAdd(Offset(v, ids, pos), Min(LogCount(v, ids[pos]), U32_MAX), U32_MAX)
    ensures Offset(v, ids, pos) <= U32_MAX
  {
  }

  lemma BlockItemsAt(v: View, f: Filter, n: nat, pos: nat, k: nat)
    requires n in v.blocks && pos < |v.blocks[n]|
    ensures BlockItems(v, f, n, pos, k) == TxItems(v, f, n, pos, k) + BlockItems(v, f, n, pos + 1, 0)
  {
  }

  lemma BlockItemsPast(v: View, f: Filter, n: nat, pos: nat, k: nat)
    requires n in v.blocks && pos >= |v.blocks[n]|
    ensures BlockItems(v, f, n, pos, k) == []
  {
  }

  /** The middle loop: the transactions of one block. */
  method ScanBlock(v: View, f: Filter, n: nat, pos0: nat, k0: nat, out0: seq<Item>, scanned0: nat, limit: nat)
    returns (out: seq<Item>, scanned: nat, next: Option<Cursor>)
    requires Narrow(v) && n in v.blocks && |out0| < limit && (scanned0 == 0 || k0 == 0)
    ensures next.None? ==> out == out0 + BlockItems(v, f, n, pos0, k0) && |out| < limit
    ensures next.Some? ==>
              && next.value.block == n && |out| <= limit
              && out + BlockItems(v, f, n, next.value.tx, next.value.log) == out0 + BlockItems(v, f, n, pos0, k0)
              && (scanned0 == 0 ==> Before(Cursor(n, pos0, k0), next.value))
    ensures scanned0 <= 20_000 ==> scanned <= 20_000
    ensures next.None? ==> scanned == scanned0 + InBlock(v, n, pos0, U32_MAX)
    ensures next.Some? && |out| < limit ==>
              scanned >= 20_000 && scanned == scanned0 + InBlock(v, n, pos0, next.value.tx)
  {
    hide LogItems, Matches, BlockItems, Offset;
    var ids := v.blocks[n];
    var offset := OffsetOf(v, ids, Min(pos0, |ids|));
    out, scanned := out0, scanned0;
    var pos := pos0;
    while pos < |ids|
      invariant pos0 <= pos && (pos < |ids| ==> offset == Offset(v, ids, pos))
      invariant |out| < limit && scanned0 <= scanned && (scanned0 == 0 && pos == pos0 ==> scanned == 0)
      invariant out + BlockItems(v, f, n, pos, if pos == pos0 then k0 else 0) == out0 + BlockItems(v, f, n, pos0, k0)
      invariant (scanned0 <= 20_000 ==> scanned <= 20_000) && (pos0 < pos ==> pos <= |ids|)
      invariant scanned == scanned0 + Receipts(v, ids, pos0, Min(pos, |ids|))
      decreases |ids| - pos
    {
      if scanned >= MAX_SCANNED_RECEIPTS { return out, scanned, Some(Cursor(n, Min(pos, U32_MAX), 0)); }
      var k := if pos == pos0 then k0 else 0;
      BlockItemsAt(v, f, n, pos, k);
      OffsetAt(v, ids, pos);
      Assoc(out, TxItems(v, f, n, pos, k), BlockItems(v, f, n, pos + 1, 0));
      if ids[pos] in v.receipts {
        var r := v.receipts[ids[pos]];
        scanned := scanned + 1;
        var stop;
        out, stop := ScanReceipt(f, r, k, offset, out, limit);
        if stop.Some? {
          BlockItemsAt(v, f, n, pos, stop.value);
          Assoc(out, TxItems(v, f, n, pos, stop.value), BlockItems(v, f, n, pos + 1, 0));
          return out, scanned, Some(Cursor(n, Min(pos, U32_MAX), Min(stop.value, U32_MAX)));
        }
        offset := SatAdd(offset, Min(|r.logs|, U32_MAX), U32_MAX);
      }
      pos := pos + 1;
    }
    BlockItemsPast(v, f, n, pos, if pos == pos0 then k0 else 0);
    next := None;
  }

  /** `rpc_eth_get_logs_paged` */
  method GetLogsPaged(v: View, f: Filter, cursor: Option<Cursor>, limit: nat) returns (r: Result<Page, LogsError>)
    requires Narrow(v)
    ensures match Planned(v, f, cursor, limit)
            case Err(e) => r == Err(e)
            case Ok(p) => r.Ok? && PageOk(v, f, p, r.value) && CutShort(v, p, r.value)
  {
    hide BlockItems;
    var planned := Planned(v, f, cursor, limit);
    if planned.Err? { return Err(planned.error); }
    var p := planned.value;
    var out: seq<Item> := [];
    var scanned := 0;
    var n := p.start.block;
    while n <= p.to
      invariant p.start.block <= n && |out| < p.limit && (n == p.start.block ==> scanned == 0)
      invariant var c := if n == p.start.block then p.start else Cursor(n, 0, 0);
                out + Items(v, f, c, p.to) == Items(v, f, p.start, p.to)
      invariant scanned == UpToBlock(v, p.start, n) <= 20_000
      decreases p.to + 1 - n
    {
      var at := if n == p.start.block then p.start else Cursor(n, 0, 0);
      Assoc(out, BlockItems(v, f, n, at.tx, at.log), Items(v, f, Cursor(n + 1, 0, 0), p.to));
      if n in v.blocks {
        var next;
        out, scanned, next := ScanBlock(v, f, n, at.tx, at.log, out, scanned, p.limit);
        if next.Some? {
          Assoc(out, BlockItems(v, f, n, next.value.tx, next.value.log), Items(v, f, Cursor(n + 1, 0, 0), p.to));
          return Ok(Page(out, next));
        }
      } else {
        NoBlockNoItems(v, f, n, at.tx, at.log);
      }
      n := n + 1;
    }
    r := Ok(Page(out, None));
  }

  lemma NoBlockNoItems(v: View, f: Filter, n: nat, pos: nat, k: nat)
    requires n !in v.blocks
    ensures BlockItems(v, f, n, pos, k) == []
  {
  }

  // ---------------------------------------------------------------- any sequence of cuts

  datatype Call = Call(limit: nat, page: Page)

  /** Pages to a row of calls, each starting at the cursor the one before it returned. */
  ghost predicate Session(v: View, f: Filter, start: Cursor, to: nat, calls: seq<Call>)
    decreases |calls|
  {
    calls == []
    || (PageOk(v, f, Plan(start, to, calls[0].limit), calls[0].page)
        && (match calls[0].page.next case None => |calls| == 1 case Some(c) => Session(v, f, c, to, calls[1..])))
  }

  function AllItems(calls: seq<Call>): seq<Item>
    decreases |calls|
  {
    if calls == [] then [] else calls[0].page.items + AllItems(calls[1..])
  }

  /** Whatever the limits, the pages put together are the filtered list up to the last cursor, and all of it once a
      page comes without a cursor. Every cursor is strictly further on than the one before it. */
  lemma {:induction false} SessionItems(v: View, f: Filter, start: Cursor, to: nat, calls: seq<Call>)
    requires Session(v, f, start, to, calls) && calls != []
    ensures match calls[|calls| - 1].page.next
            case None => AllItems(calls) == Items(v, f, start, to)
            case Some(c) => AllItems(calls) + Items(v, f, c, to) == Items(v, f, start, to) && Before(start, c)
    decreases |calls|
  {
    hide Items;
    assert AllItems(calls) == calls[0].page.items + AllItems(calls[1..]);
    match calls[0].page.next
    case None => assert calls[1..] == [] && calls[0].page.items + [] == calls[0].page.items;
    case Some(c) =>
      if |calls| > 1 {
        SessionItems(v, f, c, to, calls[1..]);
        assert calls[1..][|calls| - 2] == calls[|calls| - 1];
        match calls[|calls| - 1].page.next
        case None =>
        case Some(d) => Assoc(calls[0].page.items, AllItems(calls[1..]), Items(v, f, d, to));
      } else {
        assert calls[0].page.items + [] == calls[0].page.items;
      }
  }

  /** A returned cursor is never refused: the next request, with any limit the checks allow, scans on from it to the
      same last block; a limit of 0 stands for the filter's or the default one. */
  lemma NextIsAccepted(v: View, f: Filter, cursor: Option<Cursor>, limit: nat, page: Page, nextLimit: nat)
    requires Planned(v, f, cursor, limit).Ok? && PageOk(v, f, Planned(v, f, cursor, limit).value, page)
    requires page.next.Some?
    ensures var wanted := Max(if nextLimit == 0 then OrElse(f.limit, DEFAULT_LIMIT) else nextLimit, 1);
            Planned(v, f, page.next, nextLimit)
            == if wanted > MAX_LIMIT then Err(TooManyResults)
               else Ok(Plan(page.next.value, Planned(v, f, cursor, limit).value.to, wanted))
    ensures nextLimit == limit || 0 < nextLimit <= MAX_LIMIT ==> Planned(v, f, page.next, nextLimit).Ok?
  {
    hide Items;
  }

  // ---------------------------------------------------------------- the numbering

  function LogTotal(v: View, ids: seq<TxHash>, pos: nat): nat
    requires pos <= |ids|
  {
    if pos == 0 then 0 else LogTotal(v, ids, pos - 1) + LogCount(v, ids[pos - 1])
  }

  lemma {:induction false} OffsetIsTotal(v: View, ids: seq<TxHash>, pos: nat)
    requires pos <= |ids|
    ensures Offset(v, ids, pos) == Min(LogTotal(v, ids, pos), U32_MAX)
  {
    if pos > 0 { OffsetIsTotal(v, ids, pos - 1); }
  }

  predicate FirstAt(ids: seq<TxHash>, id: TxHash, pos: nat) {
    pos < |ids| && ids[pos] == id && forall j :: 0 <= j < pos ==> ids[j] != id
  }

  /** The place of the transaction in the block's list, or the length of the list. */
  function PlaceOf(ids: seq<TxHash>, id: TxHash): (pos: nat)
    ensures pos <= |ids| && (pos < |ids| ==> FirstAt(ids, id, pos)) && (pos == |ids| ==> id !in ids)
  {
    if ids == [] then 0
    else
      var before := PlaceOf(ids[..|ids| - 1], id);
      if before < |ids| - 1 || ids[|ids| - 1] == id then before else |ids|
  }

  /** What `base_log_index_for_receipt` returns: the number of logs before the receipt's first place in its block,
      clamped to 32 bits; 0 when the block or the place is missing. */
  function BaseLogIndex(v: View, r: Receipt): nat {
    if r.blockNumber !in v.blocks || r.txId !in v.blocks[r.blockNumber] then 0
    else Min(LogTotal(v, v.blocks[r.blockNumber], PlaceOf(v.blocks[r.blockNumber], r.txId)), U32_MAX)
  }

  /** `base_log_index_for_receipt`: one pass over the block with a saturating 64-bit count. */
  method BaseLogIndexForReceipt(v: View, r: Receipt) returns (base: nat)
    ensures base == BaseLogIndex(v, r)
  {
    if r.blockNumber !in v.blocks { return 0; }
    var ids := v.blocks[r.blockNumber];
    var offset: nat := 0;
    for i := 0 to |ids|
      invariant offset == Min(LogTotal(v, ids, i), U64_MAX)
      invariant forall j :: 0 <= j < i ==> ids[j] != r.txId
    {
      if ids[i] == r.txId {
        assert FirstAt(ids, r.txId, i) && PlaceOf(ids, r.txId) == i;
        return Min(offset, U32_MAX);
      }
      if ids[i] in v.receipts { offset := SatAdd(offset, Min(|v.receipts[ids[i]].logs|, U64_MAX), U64_MAX); }
    }
    base := 0;
  }

  /** The receipt view numbers log `k` of a receipt `base + k`, with the base that method returns; the pages give the
      log the same number, wherever in its block the receipt stands. */
  lemma LogIndexAgrees(v: View, r: Receipt, pos: nat, k: nat)
    requires r.blockNumber in v.blocks && FirstAt(v.blocks[r.blockNumber], r.txId, pos) && k < |r.logs|
    ensures ItemOf(r, k, Offset(v, v.blocks[r.blockNumber], pos)).logIndex
         == SatAdd(BaseLogIndex(v, r), Min(k, U32_MAX), U32_MAX)
  {
    hide Offset, LogTotal, PlaceOf;
    OffsetIsTotal(v, v.blocks[r.blockNumber], pos);
    assert PlaceOf(v.blocks[r.blockNumber], r.txId) == pos;
  }

  // ---------------------------------------------------------------- what is listed

  /** The log comes from the filter's address, if it names one, and its first topic is the filter's, if it names one. */
  predicate Wanted(f: Filter, log: Log) {
    && (f.address == None || f.address == Some(log.address))
    && (f.topic0 == None || (|log.topics| > 0 && f.topic0 == Some(log.topics[0])))
  }

  /** Exactly the wanted logs of a receipt are listed, each with its block, its place, its hash and its number. */
  lemma {:induction false} ListedIff(f: Filter, r: Receipt, k: nat, base: nat, x: Item)
    ensures x in LogItems(f, r, k, base)
            <==> exists j :: k <= j < |r.logs| && Wanted(f, r.logs[j])
                             && x == Item(r.blockNumber, r.txIndex, Min(base + j, 0xFFFF_FFFF), r.txId, r.logs[j])
    decreases |r.logs| - k
  {
    if k < |r.logs| {
      ListedIff(f, r, k + 1, base, x);
      var hit := if Matches(f, r.logs[k]) then [ItemOf(r, k, base)] else [];
      assert x in LogItems(f, r, k, base) <==> x in hit || x in LogItems(f, r, k + 1, base);
      assert Matches(f, r.logs[k]) <==> Wanted(f, r.logs[k]);
    }
  }

  /** `x` is wanted log `j` of the receipt of transaction `pos` of block `n`, numbered across the block's logs. */
  predicate IsLog(v: View, f: Filter, n: nat, pos: nat, j: nat, x: Item) {
    && n in v.blocks && pos < |v.blocks[n]| && v.blocks[n][pos] in v.receipts
    && var r := v.receipts[v.blocks[n][pos]];
       && j < |r.logs| && Wanted(f, r.logs[j])
       && x == Item(r.blockNumber, r.txIndex, Min(LogTotal(v, v.blocks[n], pos) + j, 0xFFFF_FFFF), r.txId, r.logs[j])
  }

  lemma TxListed(v: View, f: Filter, n: nat, pos: nat, k: nat, x: Item)
    requires n in v.blocks && pos < |v.blocks[n]|
    ensures x in TxItems(v, f, n, pos, k) <==> exists j :: k <= j && IsLog(v, f, n, pos, j, x)
  {
    hide LogItems, Wanted, Offset, LogTotal;
    OffsetIsTotal(v, v.blocks[n], pos);
    var id := v.blocks[n][pos];
    if id in v.receipts {
      var r, base := v.receipts[id], Offset(v, v.blocks[n], pos);
      ListedIff(f, r, k, base, x);
      if j :| k <= j < |r.logs| && Wanted(f, r.logs[j])
              && x == Item(r.blockNumber, r.txIndex, Min(base + j, 0xFFFF_FFFF), r.txId, r.logs[j]) {
        assert IsLog(v, f, n, pos, j, x);
      }
    }
  }

  lemma {:induction false} BlockListed(v: View, f: Filter, n: nat, pos: nat, k: nat, x: Item)
    ensures x in BlockItems(v, f, n, pos, k)
            <==> exists p: nat, j: nat :: (p > pos || (p == pos && j >= k)) && IsLog(v, f, n, p, j, x)
    decreases if n in v.blocks then |v.blocks[n]| - pos else 0
  {
    if n in v.blocks && pos < |v.blocks[n]| {
      hide TxItems, IsLog;
      TxListed(v, f, n, pos, k, x);
      BlockListed(v, f, n, pos + 1, 0, x);
      BlockItemsAt(v, f, n, pos, k);
      hide BlockItems;
      if p: nat, j: nat :| (p > pos || (p == pos && j >= k)) && IsLog(v, f, n, p, j, x) {
        assert p > pos ==> p > pos + 1 || (p == pos + 1 && j >= 0);
      }
      if p: nat, j: nat :| (p > pos + 1 || (p == pos + 1 && j >= 0)) && IsLog(v, f, n, p, j, x) {
        assert p > pos;
      }
    } else {
      hide LogTotal, Wanted;
    }
  }

  /** Log `j` of transaction `p` of block `n` is at the cursor or after it. */
  predicate NotBefore(c: Cursor, n: nat, p: nat, j: nat) { c == Cursor(n, p, j) || Before(c, Cursor(n, p, j)) }

  /** The list of a request: exactly the wanted logs of the stored receipts from the cursor on, up to the last block. */
  lemma {:induction false} ItemsListed(v: View, f: Filter, c: Cursor, last: nat, x: Item)
    ensures x in Items(v, f, c, last)
            <==> exists n: nat, p: nat, j: nat :: n <= last && NotBefore(c, n, p, j) && IsLog(v, f, n, p, j, x)
    decreases last + 1 - c.block
  {
    hide BlockItems, IsLog;
    if c.block <= last {
      var next := Cursor(c.block + 1, 0, 0);
      BlockListed(v, f, c.block, c.tx, c.log, x);
      ItemsListed(v, f, next, last, x);
      assert Items(v, f, c, last) == BlockItems(v, f, c.block, c.tx, c.log) + Items(v, f, next, last);
      hide Items;
      if n: nat, p: nat, j: nat :| n <= last && NotBefore(next, n, p, j) && IsLog(v, f, n, p, j, x) {
        assert NotBefore(c, n, p, j);
      }
      if p: nat, j: nat :| (p > c.tx || (p == c.tx && j >= c.log)) && IsLog(v, f, c.block, p, j, x) {
        assert NotBefore(c, c.block, p, j);
      }
      if n: nat, p: nat, j: nat :| n <= last && NotBefore(c, n, p, j) && IsLog(v, f, n, p, j, x) {
        assert n > c.block ==> NotBefore(next, n, p, j);
        assert n == c.block ==> p > c.tx || (p == c.tx && j >= c.log);
      }
    }
  }

  /** The limit a request asks for: its own, else the filter's, else 200, and one for zero. */
  function AskedFor(f: Filter, limit: nat): nat {
    var wanted := if limit > 0 then limit else if f.limit.Some? then f.limit.value else 200;
    if wanted == 0 then 1 else wanted
  }

  /** The blocks asked for, first and last. */
  function Range(v: View, f: Filter): (nat, nat) {
    (if f.fromBlock.Some? then f.fromBlock.value else 0, if f.toBlock.Some? then f.toBlock.value else v.head)
  }

  /** A request passes when it filters by no second topic, its range is in order and spans at most 1000 blocks more than
      one, it asks for at most 2000 logs, its address has 20 bytes and its topic 32, and its cursor lies in the range;
      the scan then starts at the cursor, or at the first block not pruned. */
  lemma PlannedMeans(v: View, f: Filter, cursor: Option<Cursor>, limit: nat)
    requires v.head < U64_MAX && (v.prunedBefore.Some? ==> v.prunedBefore.value < U64_MAX)
    ensures var (from, to) := Range(v, f);
            var first := if v.prunedBefore.Some? && from <= v.prunedBefore.value then v.prunedBefore.value + 1
                         else from;
            var last := if to <= v.head then to else v.head;
            var r := Planned(v, f, cursor, limit);
            && (f.topic1.Some? <==> r == Err(UnsupportedFilter))
            && (r == Err(RangeTooLarge) <==> f.topic1.None? && from <= to && to > from + 1000)
            && (r == Err(TooManyResults) <==> f.topic1.None? && from <= to <= from + 1000 && AskedFor(f, limit) > 2000)
            && (r.Ok? <==>
                  && f.topic1.None? && from <= to <= from + 1000 && AskedFor(f, limit) <= 2000
                  && (f.address.Some? ==> |f.address.value| == 20) && (f.topic0.Some? ==> |f.topic0.value| == 32)
                  && (cursor.Some? ==> first <= cursor.value.block <= last))
            && (r.Ok? ==>
                  r.value == Plan(if cursor.Some? then cursor.value else Cursor(first, 0, 0), last, AskedFor(f, limit)))
            && (r.Err? && !r.error.UnsupportedFilter? && !r.error.RangeTooLarge? && !r.error.TooManyResults?
                ==> r.error == InvalidArgument)
  {
  }
}
