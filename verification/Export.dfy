/** `export_blocks` of `crates/evm-core/src/export.rs`: the stream of block payloads cut into responses, and why any
    sequence of cuts yields the same stream. */
module Export {
  import opened Common

  const MAX_EXPORT_BYTES: nat := 1_500_000
  const MAX_EXPORT_BLOCKS: nat := 64
  const MAX_SEGMENT_LEN: nat := 8 * 1024 * 1024

  type byte = bv8

  datatype ExportError = InvalidCursor | Pruned(prunedBefore: nat) | MissingData | Limit

  datatype Cursor = Cursor(block: nat, segment: nat, offset: nat)

  datatype Chunk = Chunk(segment: nat, start: nat, bytes: seq<byte>, payloadLen: nat)

  datatype Response = Response(chunks: seq<Chunk>, next: Cursor)

  /** The stored chain as the export sees it: `payload(n, s)` is segment `s` of block `n` (block, receipts, index,
      traces) or the error of building it. */
  datatype Source = Source(head: nat, prunedBefore: Option<nat>, payload: (nat, nat) -> Result<seq<byte>, ExportError>)
  {
    function Seg(n: nat, s: nat): seq<byte> { payload(n, s).GetOr([]) }

    /** `segment_len`: the payload must build and fit. */
    function Checked(n: nat, s: nat): Result<seq<byte>, ExportError> {
      match payload(n, s)
      case Err(e) => Err(e)
      case Ok(bytes) => if |bytes| > MAX_SEGMENT_LEN then Err(InvalidCursor) else Ok(bytes)
    }

    predicate Kept(n: nat) { match prunedBefore case Some(p) => p < n case None => true }

    function FirstKept(): nat { match prunedBefore case Some(p) => SatAdd(p, 1, U64_MAX) case None => 0 }

    /** Every block from `n` to the head builds, and no block is empty. */
    ghost predicate ReadableFrom(n: nat) {
      forall m, s :: n <= m <= head && s <= 3 ==> Checked(m, s).Ok? && (s == 0 ==> |Seg(m, s)| > 0)
    }

    /** The rest of block `n`. */
    ghost function BlockRest(n: nat, s: nat, off: nat): seq<byte>
      requires s <= 3 && off <= |Seg(n, s)|
      decreases 3 - s
    {
      Seg(n, s)[off..] + if s < 3 then BlockRest(n, s + 1, 0) else []
    }

    /** The stream from a position on. */
    ghost function RestFrom(n: nat): seq<byte>
      decreases head + 1 - n
    {
      if n > head then [] else BlockRest(n, 0, 0) + RestFrom(n + 1)
    }

    predicate Valid(c: Cursor) {
      c.segment <= 3 && Kept(c.block) && (c.block > head || c.offset <= |Seg(c.block, c.segment)|)
    }

    ghost function Rest(c: Cursor): seq<byte>
      requires Valid(c)
    {
      if c.block > head then [] else BlockRest(c.block, c.segment, c.offset) + RestFrom(c.block + 1)
    }
  }

  /** A segment builds and has at most 8 MiB; a longer one is refused like a wrong cursor. */
  lemma CheckedMeans(src: Source, n: nat, s: nat)
    ensures src.Checked(n, s)
         == if src.payload(n, s).Ok? && |src.payload(n, s).value| > 8_388_608 then Err(InvalidCursor)
            else src.payload(n, s)
  {
  }

  function Bytes(chunks: seq<Chunk>): seq<byte> {
    if chunks == [] then [] else Bytes(chunks[..|chunks| - 1]) + chunks[|chunks| - 1].bytes
  }

  lemma BytesPush(chunks: seq<Chunk>, c: Chunk)
    ensures Bytes(chunks + [c]) == Bytes(chunks) + c.bytes
  {
  }

  /** Segment `x` of block `m` lies at or after the cursor and before the position. */
  predicate Passed(c: Cursor, n: nat, s: nat, off: nat, m: nat, x: nat) {
    && (m > c.block || (m == c.block && x >= c.segment))
    && (m < n || (m == n && (x < s || (x == s && off > 0))))
  }

  /** Every segment the stream passes between the cursor and the position builds, and so does the cursor's block:
      nothing is skipped for want of being readable. */
  ghost predicate ReadTo(src: Source, c: Cursor, n: nat, s: nat, off: nat) {
    && src.Checked(c.block, 0).Ok?
    && forall m: nat, x: nat {:trigger Passed(c, n, s, off, m, x)} ::
         Passed(c, n, s, off, m, x) && m <= src.head && x <= 3 ==> src.Checked(m, x).Ok?
  }

  /** The chunk is a piece of block `n`, labelled with its segment, its place and the segment's length. */
  predicate Labelled(src: Source, n: nat, c: Chunk) {
    && c.segment <= 3 && src.Checked(n, c.segment).Ok? && c.payloadLen == |src.Seg(n, c.segment)|
    && c.start + |c.bytes| <= c.payloadLen && c.bytes == src.Seg(n, c.segment)[c.start .. c.start + |c.bytes|]
  }

  ghost predicate AllLabelled(src: Source, chunks: seq<Chunk>, at: seq<nat>) {
    |at| == |chunks| && forall i :: 0 <= i < |chunks| ==> Labelled(src, at[i], chunks[i])
  }

  /** What a response from a cursor at or below the head is: the bytes between the two cursors, at most the budget,
      not empty, from at most 64 blocks, stopping short of both limits only at the head, every segment in between read,
      and the traces too where it stops before them, each chunk correctly labelled, and the next cursor usable. */
  ghost predicate Resumes(src: Source, c: Cursor, budget: nat, r: Response, at: seq<nat>) {
    && src.Valid(c) && src.Valid(r.next) && c.block <= src.head
    && Bytes(r.chunks) + src.Rest(r.next) == src.Rest(c)
    && ReadTo(src, c, r.next.block, r.next.segment, r.next.offset)
    && 0 < |Bytes(r.chunks)| <= Min(budget, 1_500_000)
    && c.block <= r.next.block <= c.block + 64
    && (|Bytes(r.chunks)| == Min(budget, 1_500_000) || r.next.block == src.head + 1 || r.next.block == c.block + 64)
    && (r.next.block > src.head ==> r.next == Cursor(src.head + 1, 0, 0))
    && (r.next.segment == 3 ==> src.Checked(r.next.block, 3).Ok?)
    && AllLabelled(src, r.chunks, at)
  }

  // ---------------------------------------------------------------- the loops

  /** Where the two loops are. */
  ghost predicate Streaming(src: Source, c: Cursor, max: nat, n: nat, s: nat, off: nat, chunks: seq<Chunk>,
                            at: seq<nat>, remaining: nat)
    requires src.Valid(c)
  {
    && src.Valid(Cursor(n, s, off))
    && ReadTo(src, c, n, s, off)
    && Bytes(chunks) + src.Rest(Cursor(n, s, off)) == src.Rest(c)
    && |Bytes(chunks)| + remaining == max
    && AllLabelled(src, chunks, at)
  }

  lemma Reassociate(a: seq<byte>, b: seq<byte>, c: seq<byte>)
    ensures a + (b + c) == a + b + c
  {
  }

  lemma RestAdvances(src: Source, n: nat, s: nat, off: nat, take: nat)
    requires src.Valid(Cursor(n, s, off)) && n <= src.head && off + take <= |src.Seg(n, s)|
    ensures src.Rest(Cursor(n, s, off)) == src.Seg(n, s)[off .. off + take] + src.Rest(Cursor(n, s, off + take))
  {
  }

  lemma AllLabelledPush(src: Source, chunks: seq<Chunk>, at: seq<nat>, n: nat, c: Chunk)
    requires AllLabelled(src, chunks, at) && Labelled(src, n, c)
    ensures AllLabelled(src, chunks + [c], at + [n])
  {
  }

  /** Moving on within a segment that builds, or past its end. */
  lemma ReadMore(src: Source, c: Cursor, n: nat, s: nat, off: nat, n': nat, s': nat, off': nat)
    requires ReadTo(src, c, n, s, off) && src.Checked(n, s).Ok?
    requires (n' == n && s' == s) || (n' == n && s' == s + 1 && off' == 0)
             || (s == 3 && n' == n + 1 && s' == 0 && off' == 0)
    ensures ReadTo(src, c, n', s', off')
  {
    hide Source.Checked;
    forall m: nat, x: nat {:trigger Passed(c, n', s', off', m, x)}
        | Passed(c, n', s', off', m, x) && m <= src.head && x <= 3
      ensures src.Checked(m, x).Ok?
    {
      assert Passed(c, n, s, off, m, x) || (m == n && x == s);
    }
  }

  lemma StreamChunk(src: Source, c: Cursor, max: nat, n: nat, s: nat, off: nat, chunks: seq<Chunk>, at: seq<nat>,
                    remaining: nat, take: nat)
    requires src.Valid(c) && Streaming(src, c, max, n, s, off, chunks, at, remaining) && n <= src.head
    requires off + take <= |src.Seg(n, s)| && take <= remaining && src.Checked(n, s).Ok?
    ensures var more := chunks + [Chunk(s, off, src.Seg(n, s)[off .. off + take], |src.Seg(n, s)|)];
            Streaming(src, c, max, n, s, off + take, more, at + [n], remaining - take)
  {
    hide Source.Rest, AllLabelled, Bytes, ReadTo, Source.Checked, Source.Seg, Streaming, Labelled, Source.Valid;
    var chunk := Chunk(s, off, src.Seg(n, s)[off .. off + take], |src.Seg(n, s)|);
    StreamEnds(src, c, max, n, s, off, chunks, at, remaining);
    ChunkFits(src, n, s, off, take);
    ReadMore(src, c, n, s, off, n, s, off + take);
    AllLabelledPush(src, chunks, at, n, chunk);
    StreamPush(src, c, max, Cursor(n, s, off), Cursor(n, s, off + take), chunks, at, remaining, chunk);
  }

  /** A piece of a segment is a chunk of its block, and what follows it is the rest. */
  lemma ChunkFits(src: Source, n: nat, s: nat, off: nat, take: nat)
    requires src.Valid(Cursor(n, s, off)) && n <= src.head && off + take <= |src.Seg(n, s)| && src.Checked(n, s).Ok?
    ensures src.Valid(Cursor(n, s, off + take))
    ensures var piece := src.Seg(n, s)[off .. off + take];
            && |piece| == take && Labelled(src, n, Chunk(s, off, piece, |src.Seg(n, s)|))
            && src.Rest(Cursor(n, s, off)) == piece + src.Rest(Cursor(n, s, off + take))
  {
    RestAdvances(src, n, s, off, take);
    hide Source.Rest;
  }

  lemma StreamPush(src: Source, c: Cursor, max: nat, from: Cursor, to: Cursor, chunks: seq<Chunk>, at: seq<nat>,
                   remaining: nat, chunk: Chunk)
    requires src.Valid(c) && Streaming(src, c, max, from.block, from.segment, from.offset, chunks, at, remaining)
    requires src.Valid(from) && src.Valid(to) && src.Rest(from) == chunk.bytes + src.Rest(to)
    requires ReadTo(src, c, to.block, to.segment, to.offset)
    requires AllLabelled(src, chunks + [chunk], at + [from.block]) && |chunk.bytes| <= remaining
    ensures Streaming(src, c, max, to.block, to.segment, to.offset, chunks + [chunk], at + [from.block],
                      remaining - |chunk.bytes|)
  {
    hide Source.Rest, Source.Valid, AllLabelled, Bytes, ReadTo;
    BytesPush(chunks, chunk);
    Reassociate(Bytes(chunks), chunk.bytes, src.Rest(to));
  }

  lemma StreamSegment(src: Source, c: Cursor, max: nat, n: nat, s: nat, chunks: seq<Chunk>, at: seq<nat>,
                      remaining: nat)
    requires src.Valid(c) && s < 3 && n <= src.head && src.Checked(n, s).Ok?
    requires Streaming(src, c, max, n, s, |src.Seg(n, s)|, chunks, at, remaining)
    ensures Streaming(src, c, max, n, s + 1, 0, chunks, at, remaining)
  {
    SegmentDone(src, n, s);
    hide Source.Rest, AllLabelled, Bytes, ReadTo, Source.Checked;
    ReadMore(src, c, n, s, |src.Seg(n, s)|, n, s + 1, 0);
    hide Source.Seg;
  }

  lemma SegmentDone(src: Source, n: nat, s: nat)
    requires src.Valid(Cursor(n, s, |src.Seg(n, s)|)) && n <= src.head && s < 3
    ensures src.Rest(Cursor(n, s, |src.Seg(n, s)|)) == src.Rest(Cursor(n, s + 1, 0))
  {
    hide Source.RestFrom, Source.Seg;
    var end := src.Seg(n, s)[|src.Seg(n, s)|..];
    assert end == [] && end + src.BlockRest(n, s + 1, 0) == src.BlockRest(n, s + 1, 0);
  }

  lemma StreamBlock(src: Source, c: Cursor, max: nat, n: nat, chunks: seq<Chunk>, at: seq<nat>, remaining: nat)
    requires src.Valid(c) && n <= src.head && src.Checked(n, 3).Ok?
    requires Streaming(src, c, max, n, 3, |src.Seg(n, 3)|, chunks, at, remaining)
    ensures Streaming(src, c, max, n + 1, 0, 0, chunks, at, remaining)
  {
    assert src.Rest(Cursor(n, 3, |src.Seg(n, 3)|)) == src.Rest(Cursor(n + 1, 0, 0));
    hide Source.Rest, Source.RestFrom, Source.BlockRest, AllLabelled, Bytes, ReadTo, Source.Checked;
    ReadMore(src, c, n, 3, |src.Seg(n, 3)|, n + 1, 0, 0);
  }

  /** The inner loop over one block from segment `s0` and offset `off0` on. */
  method EmitBlock(src: Source, ghost c: Cursor, ghost max: nat, n: nat, s0: nat, off0: nat, chunks0: seq<Chunk>,
                   ghost at0: seq<nat>, remaining0: nat)
    returns (err: Option<ExportError>, s: nat, off: nat, chunks: seq<Chunk>, ghost at: seq<nat>, remaining: nat)
    requires src.Valid(c) && n <= src.head && remaining0 > 0
    requires Streaming(src, c, max, n, s0, off0, chunks0, at0, remaining0)
    ensures err.None? ==>
              && Streaming(src, c, max, n, s, off, chunks, at, remaining)
              && (remaining > 0 ==> s == 3 && off == |src.Seg(n, 3)| && src.Checked(n, 3).Ok?)
              && |Bytes(chunks0)| <= |Bytes(chunks)|
              && (off0 < |src.Seg(n, s0)| ==> |Bytes(chunks)| > |Bytes(chunks0)|)
    ensures err.Some? ==> exists x :: s0 <= x <= 3 && src.Checked(n, x) == Err(err.value)
  {
    hide Streaming;
    err, s, off, chunks, at, remaining := None, s0, off0, chunks0, at0, remaining0;
    assert src.Valid(Cursor(n, s, off)) && |Bytes(chunks)| + remaining == max by {
      StreamFacts(src, c, max, n, s, off, chunks, at, remaining);
    }
    var isFirst := true;
    while remaining > 0 && s <= 3
      invariant Streaming(src, c, max, n, s, off, chunks, at, remaining)
      invariant s0 <= s <= 3 && off <= |src.Seg(n, s)| && |Bytes(chunks)| + remaining == max
      invariant |Bytes(chunks0)| <= |Bytes(chunks)|
      invariant off0 < |src.Seg(n, s0)| ==> (s == s0 && off == off0) || |Bytes(chunks)| > |Bytes(chunks0)|
      decreases 3 - s, |src.Seg(n, s)| - off
    {
      var payload := src.Checked(n, s);
      if payload.Err? {
        err := Some(payload.error);
        return;
      }
      if off == |payload.value| {
        if isFirst {
          StreamChunk(src, c, max, n, s, off, chunks, at, remaining, 0);
          BytesPush(chunks, Chunk(s, off, [], |payload.value|));
          assert src.Seg(n, s)[off .. off + 0] == [];
          chunks := chunks + [Chunk(s, off, [], |payload.value|)];
          at := at + [n];
          isFirst := false;
        }
        if s == 3 { break; }
        StreamSegment(src, c, max, n, s, chunks, at, remaining);
        s, off := s + 1, 0;
        continue;
      }
      var take := Min(|payload.value| - off, remaining);
      StreamChunk(src, c, max, n, s, off, chunks, at, remaining, take);
      BytesPush(chunks, Chunk(s, off, payload.value[off .. off + take], |payload.value|));
      chunks := chunks + [Chunk(s, off, payload.value[off .. off + take], |payload.value|)];
      at := at + [n];
      isFirst := false;
      remaining := remaining - take;
      off := off + take;
      if off == |payload.value| {
        if s == 3 { break; }
        StreamSegment(src, c, max, n, s, chunks, at, remaining);
        s, off := s + 1, 0;
      }
    }
  }

  lemma StreamFacts(src: Source, c: Cursor, max: nat, n: nat, s: nat, off: nat, chunks: seq<Chunk>, at: seq<nat>,
                    remaining: nat)
    requires src.Valid(c) && Streaming(src, c, max, n, s, off, chunks, at, remaining)
    ensures src.Valid(Cursor(n, s, off)) && |Bytes(chunks)| + remaining == max
  {
  }

  /** Building segment `x` of some block from `n` on fails with `e`. */
  ghost predicate FailsFrom(src: Source, n: nat, e: ExportError) {
    exists m, x :: n <= m <= src.head && x <= 3 && src.Checked(m, x) == Err(e)
  }

  function Asked(src: Source, cursor: Option<Cursor>): Cursor {
    match cursor case Some(c) => c case None => Cursor(src.FirstKept(), 0, 0)
  }

  /** What `export_blocks` answers, over any source. Below the checks: an Ok response resumes the stream; the error of
      the cursor's own block is reported; and where everything from the cursor on is readable, the answer is Ok exactly
      when bytes are left, Limit when none are, and InvalidCursor exactly for an offset past its segment. */
  ghost predicate Exported(src: Source, cursor: Option<Cursor>, maxBytes: nat, r: Result<Response, ExportError>,
                           at: seq<nat>)
  {
    var c := Asked(src, cursor);
    if maxBytes == 0 then r == Err(Limit)
    else if !src.Kept(c.block) then r == Err(Pruned(src.prunedBefore.value))
    else if c.segment > 3 then r == Err(InvalidCursor)
    else if c.block > src.head then r == Ok(Response([], c))
    else if src.Checked(c.block, 0).Err? then r == Err(src.Checked(c.block, 0).error)
    else
      && (r.Ok? ==> Resumes(src, c, maxBytes, r.value, at))
      && (r.Err? ==>
            r.error == Limit || (r.error == InvalidCursor && !src.Valid(c)) || FailsFrom(src, c.block, r.error))
      && (src.ReadableFrom(c.block) && src.Valid(c) ==> (r.Ok? <==> src.Rest(c) != []) && (r.Err? ==> r.error == Limit))
      && (src.ReadableFrom(c.block) && !src.Valid(c) ==> r == Err(InvalidCursor))
  }

  /** `export_blocks` */
  method ExportBlocks(src: Source, cursor: Option<Cursor>, maxBytes: nat)
    returns (r: Result<Response, ExportError>, ghost at: seq<nat>)
    requires src.head < U64_MAX
    ensures Exported(src, cursor, maxBytes, r, at)
  {
    hide Streaming, Bytes, AllLabelled, ReadTo, Source.Rest;
    at := [];
    if maxBytes == 0 { return Err(Limit), at; }
    var max := Min(maxBytes, MAX_EXPORT_BYTES);
    var c := Asked(src, cursor);
    if src.prunedBefore.Some? && c.block <= src.prunedBefore.value { return Err(Pruned(src.prunedBefore.value)), at; }
    if c.segment > 3 { return Err(InvalidCursor), at; }
    if c.block > src.head { return Ok(Response([], c)), at; }
    var chunks: seq<Chunk> := [];
    var remaining, n, s, off := max, c.block, c.segment, c.offset;
    var blocksEmitted: nat := 0;
    while remaining > 0 && blocksEmitted < MAX_EXPORT_BLOCKS
      invariant n == c.block + blocksEmitted <= src.head + 1 && blocksEmitted <= MAX_EXPORT_BLOCKS
      invariant remaining > 0
      invariant blocksEmitted == 0 ==> s == c.segment && off == c.offset && chunks == [] && at == [] && remaining == max
      invariant blocksEmitted > 0 ==>
                  && src.Valid(c) && src.Checked(c.block, 0).Ok? && s == 0 && off == 0
                  && Streaming(src, c, max, n, s, off, chunks, at, remaining)
      invariant blocksEmitted > 1 && src.ReadableFrom(c.block) ==> |Bytes(chunks)| > 0
      decreases src.head + 1 - n
    {
      if n > src.head { break; }
      if src.prunedBefore.Some? && n <= src.prunedBefore.value { assert false; }
      if s > 3 { assert false; }
      var loaded := src.Checked(n, 0);
      if loaded.Err? { return Err(loaded.error), at; }
      var segment := src.Checked(n, s);
      if segment.Err? { return Err(segment.error), at; }
      if off > |segment.value| { return Err(InvalidCursor), at; }
      if blocksEmitted == 0 { StreamStart(src, c, max); }
      var err;
      err, s, off, chunks, at, remaining := EmitBlock(src, c, max, n, s, off, chunks, at, remaining);
      if err.Some? { return Err(err.value), at; }
      StreamFacts(src, c, max, n, s, off, chunks, at, remaining);
      blocksEmitted := blocksEmitted + 1;
      var blockDone := false;
      if s == 3 {
        var last := src.Checked(n, 3);
        if last.Err? { return Err(last.error), at; }
        blockDone := off == |last.value|;
      }
      if remaining == 0 || !blockDone { break; }
      StreamBlock(src, c, max, n, chunks, at, remaining);
      n, s, off := SatAdd(n, 1, U64_MAX), 0, 0;
    }
    StreamFacts(src, c, max, n, s, off, chunks, at, remaining);
    var total := Bytes(chunks);
    StreamEnds(src, c, max, n, s, off, chunks, at, remaining);
    if |total| == 0 { return Err(Limit), at; }
    r := Ok(Response(chunks, Cursor(n, s, off)));
  }

  lemma StreamStart(src: Source, c: Cursor, max: nat)
    requires src.Valid(c) && src.Checked(c.block, 0).Ok? && src.Checked(c.block, c.segment).Ok?
    ensures Streaming(src, c, max, c.block, c.segment, c.offset, [], [], max)
  {
  }

  lemma StreamEnds(src: Source, c: Cursor, max: nat, n: nat, s: nat, off: nat, chunks: seq<Chunk>, at: seq<nat>,
                   remaining: nat)
    requires src.Valid(c) && Streaming(src, c, max, n, s, off, chunks, at, remaining)
    ensures src.Valid(Cursor(n, s, off)) && Bytes(chunks) + src.Rest(Cursor(n, s, off)) == src.Rest(c)
    ensures AllLabelled(src, chunks, at) && ReadTo(src, c, n, s, off)
    ensures |Bytes(chunks)| > 0 ==> src.Rest(c) != []
    ensures |Bytes(chunks)| == 0 && n > src.head ==> src.Rest(c) == []
  {
  }

  // ---------------------------------------------------------------- any sequence of cuts

  datatype Call = Call(budget: nat, response: Response, at: seq<nat>)

  /** Responses to a row of calls, each starting where the one before it stopped. */
  ghost predicate Session(src: Source, c: Cursor, calls: seq<Call>)
    decreases |calls|
  {
    calls == []
    || (Resumes(src, c, calls[0].budget, calls[0].response, calls[0].at)
         && Session(src, calls[0].response.next, calls[1..]))
  }

  function Stop(c: Cursor, calls: seq<Call>): Cursor { if calls == [] then c else calls[|calls| - 1].response.next }

  function AllBytes(calls: seq<Call>): seq<byte>
    decreases |calls|
  {
    if calls == [] then [] else Bytes(calls[0].response.chunks) + AllBytes(calls[1..])
  }

  /** What is read up to a cursor and from it on is read throughout. */
  lemma ReadOn(src: Source, c: Cursor, mid: Cursor, end: Cursor)
    requires ReadTo(src, c, mid.block, mid.segment, mid.offset) && ReadTo(src, mid, end.block, end.segment, end.offset)
    ensures ReadTo(src, c, end.block, end.segment, end.offset)
  {
    forall m: nat, x: nat {:trigger Passed(c, end.block, end.segment, end.offset, m, x)}
      | Passed(c, end.block, end.segment, end.offset, m, x) && m <= src.head && x <= 3
      ensures src.Checked(m, x).Ok?
    {
      assert Passed(c, mid.block, mid.segment, mid.offset, m, x)
             || Passed(mid, end.block, end.segment, end.offset, m, x);
    }
  }

  /** Whatever the budgets, the responses put together are the stream up to the last cursor; two sessions that have
      reached the end carry the same bytes. */
  lemma {:induction false} SessionStream(src: Source, c: Cursor, calls: seq<Call>)
    requires src.Valid(c) && Session(src, c, calls)
    ensures src.Valid(Stop(c, calls)) && AllBytes(calls) + src.Rest(Stop(c, calls)) == src.Rest(c)
    ensures calls != [] ==> ReadTo(src, c, Stop(c, calls).block, Stop(c, calls).segment, Stop(c, calls).offset)
    ensures src.Rest(Stop(c, calls)) == [] ==> AllBytes(calls) == src.Rest(c)
    decreases |calls|
  {
    hide Source.Rest, Bytes, AllLabelled;
    if calls != [] {
      var next := calls[0].response.next;
      SessionStream(src, next, calls[1..]);
      assert Stop(c, calls) == Stop(next, calls[1..]);
      if |calls| > 1 { ReadOn(src, c, next, Stop(c, calls)); }
      Reassociate(Bytes(calls[0].response.chunks), AllBytes(calls[1..]), src.Rest(Stop(c, calls)));
    }
  }

  /** Each call moves on by at least one byte, so a session has at most as many calls as the stream has bytes. */
  lemma {:induction false} SessionEnds(src: Source, c: Cursor, calls: seq<Call>)
    requires src.Valid(c) && Session(src, c, calls)
    ensures |calls| <= |AllBytes(calls)| <= |src.Rest(c)|
    decreases |calls|
  {
    SessionStream(src, c, calls);
    hide Source.Rest, Bytes, AllLabelled;
    if calls != [] { SessionEnds(src, calls[0].response.next, calls[1..]); }
  }

  /** A later state of the chain: more blocks, the same payloads below. */
  ghost predicate Grows(src: Source, later: Source) {
    && src.head <= later.head && src.prunedBefore == later.prunedBefore
    && forall n: nat, s: nat :: n <= src.head ==> later.payload(n, s) == src.payload(n, s)
  }

  lemma {:induction false} GrowBlockRest(src: Source, later: Source, n: nat, s: nat, off: nat)
    requires Grows(src, later) && n <= src.head && s <= 3 && off <= |src.Seg(n, s)|
    ensures later.Seg(n, s) == src.Seg(n, s) && later.BlockRest(n, s, off) == src.BlockRest(n, s, off)
    decreases 3 - s
  {
    if s < 3 { GrowBlockRest(src, later, n, s + 1, 0); }
  }

  lemma {:induction false} GrowRestFrom(src: Source, later: Source, n: nat)
    requires Grows(src, later) && n <= src.head + 1
    ensures later.RestFrom(n) == src.RestFrom(n) + later.RestFrom(src.head + 1)
    decreases src.head + 1 - n
  {
    hide Source.BlockRest;
    if n <= src.head {
      GrowBlockRest(src, later, n, 0, 0);
      GrowRestFrom(src, later, n + 1);
      Reassociate(src.BlockRest(n, 0, 0), src.RestFrom(n + 1), later.RestFrom(src.head + 1));
    } else {
      assert src.RestFrom(n) == [];
    }
  }

  /** A response given before the chain grew carries the bytes between its cursors in the longer stream too. */
  lemma GrownChainResumes(src: Source, later: Source, c: Cursor, budget: nat, r: Response, at: seq<nat>)
    requires Grows(src, later) && Resumes(src, c, budget, r, at)
    ensures later.Valid(c) && later.Valid(r.next) && Bytes(r.chunks) + later.Rest(r.next) == later.Rest(c)
  {
    hide Bytes, AllLabelled;
    GrowRest(src, later, c);
    GrowRest(src, later, r.next);
    Reassociate(Bytes(r.chunks), src.Rest(r.next), later.RestFrom(src.head + 1));
  }

  lemma GrowRest(src: Source, later: Source, c: Cursor)
    requires Grows(src, later) && src.Valid(c) && (c.block > src.head ==> c == Cursor(src.head + 1, 0, 0))
    ensures later.Valid(c) && later.Rest(c) == src.Rest(c) + later.RestFrom(src.head + 1)
  {
    hide Source.BlockRest;
    if c.block <= src.head {
      GrowBlockRest(src, later, c.block, c.segment, c.offset);
      GrowRestFrom(src, later, c.block + 1);
      Reassociate(src.BlockRest(c.block, c.segment, c.offset), src.RestFrom(c.block + 1), later.RestFrom(src.head + 1));
    } else {
      assert later.Rest(c) == later.RestFrom(src.head + 1);
      assert [] + later.RestFrom(src.head + 1) == later.RestFrom(src.head + 1);
    }
  }
}
