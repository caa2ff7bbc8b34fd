/** The export over the stored chain: where it starts when it is given no cursor. */
module ChainExport {
  import opened Common
  import opened Types
  import opened Ledger
  import opened Prune
  import opened PruneSpec
  import B = BlobStore
  import S = MempoolSafe
  import E = Export

  type Builder = (nat, nat) -> Result<seq<E.byte>, E.ExportError>

  /** The block segment as `BlockPayloads::load` reads it. */
  function BlockBytes(l: Ledger, n: nat): Result<seq<E.byte>, E.ExportError>
    requires l.arena.end <= |l.arena.bytes|
  {
    if OBlock(n) !in l.ptrs then Err(E.MissingData)
    else match B.Read(l.arena, l.ptrs[OBlock(n)])
      case Err(_) => Err(E.MissingData)
      case Ok(bytes) => Ok(bytes)
  }

  /** The ledger as a source; the three segments after the block are built in whatever way from a block that loads. */
  function SourceOf(l: Ledger, build: Builder): E.Source
    requires l.arena.end <= |l.arena.bytes|
  {
    E.Source(l.head, l.prune.prunedBefore,
             (n: nat, s: nat) => if s == 0 || BlockBytes(l, n).Err? then BlockBytes(l, n) else build(n, s))
  }

  lemma MissingBlock(c: Chain, bs: map<nat, BlockData>, first: nat, build: Builder, n: nat)
    requires Intact(c, bs, first) && n !in bs
    ensures Mapped(c) && SourceOf(c.ledger, build).Checked(n, 0) == Err(E.MissingData)
  {
    hide S.Inv, Linked, B.Inv, Owned, Loads, Chained, RoundTrips;
    Roomy(c.ledger.arena);
    BlockIsNew(c.ledger.ptrs, bs, n);
    assert BlockBytes(c.ledger, n) == Err(E.MissingData);
    assert SourceOf(c.ledger, build).payload(n, 0) == BlockBytes(c.ledger, n);
  }

  /** Asked for no cursor, the export starts at the block after the boundary. Where that block is not stored it
      reports the missing block, whatever the budget. */
  lemma DefaultCursorMisses(c: Chain, bs: map<nat, BlockData>, first: nat, build: Builder, maxBytes: nat,
                            r: Result<E.Response, E.ExportError>, at: seq<nat>)
    requires Settled(c, bs, first) && first in bs && c.ledger.head < U64_MAX && maxBytes > 0
    requires Mapped(c) && E.Exported(SourceOf(c.ledger, build), None, maxBytes, r, at)
    requires c.ledger.prune.prunedBefore != Some(first - 1)
    ensures r == Err(E.MissingData)
  {
    hide Intact, Chained, E.Resumes, E.FailsFrom, E.Source.ReadableFrom, E.Source.Rest;
    SettledParts(c, bs, first);
    IntactParts(c, bs, first);
    MissingBlock(c, bs, first, build, SourceOf(c.ledger, build).FirstKept());
  }

  /** The code's answer against the promise that a call without a cursor starts at the oldest exportable block: over
      a settled chain whose blocks are all readable, such a call succeeds exactly when the boundary is the block
      before the oldest stored one. It fails on a chain that was never pruned, as block 0 is never stored, and while
      the boundary lags behind after a recovery that found its block gone. */
  lemma DefaultCursorIff(c: Chain, bs: map<nat, BlockData>, first: nat, build: Builder, maxBytes: nat,
                         r: Result<E.Response, E.ExportError>, at: seq<nat>)
    requires Settled(c, bs, first) && first in bs && c.ledger.head < U64_MAX && maxBytes > 0
    requires Mapped(c) && SourceOf(c.ledger, build).ReadableFrom(first)
    requires E.Exported(SourceOf(c.ledger, build), None, maxBytes, r, at)
    ensures r.Ok? <==> c.ledger.prune.prunedBefore == Some(first - 1)
    ensures SourceOf(c.ledger, build).FirstKept() in bs <==> c.ledger.prune.prunedBefore == Some(first - 1)
    ensures c.ledger.prune.prunedBefore == None ==> r == Err(E.MissingData)
    ensures r.Ok? ==> E.Resumes(SourceOf(c.ledger, build), E.Cursor(first, 0, 0), maxBytes, r.value, at)
  {
    hide Intact, Chained, E.Resumes, E.FailsFrom, E.Source.ReadableFrom, E.Source.Rest;
    SettledParts(c, bs, first);
    IntactParts(c, bs, first);
    if c.ledger.prune.prunedBefore == Some(first - 1) {
      OldestHasBytes(SourceOf(c.ledger, build), first);
    } else {
      DefaultCursorMisses(c, bs, first, build, maxBytes, r, at);
    }
  }

  lemma OldestHasBytes(src: E.Source, first: nat)
    requires src.ReadableFrom(first) && first <= src.head && src.Kept(first)
    ensures src.Checked(first, 0).Ok? && src.Valid(E.Cursor(first, 0, 0)) && src.Rest(E.Cursor(first, 0, 0)) != []
  {
    assert src.Checked(first, 0).Ok? && |src.Seg(first, 0)| > 0;
  }

  const ONE_BYTE: seq<E.byte> := [7]

  /** A never pruned chain of one block, as the export sees it. */
  const UNPRUNED: E.Source := E.Source(1, None, (n: nat, s: nat) => if n == 0 then Err(E.MissingData) else Ok(ONE_BYTE))

  /** The failure at one input: block 1 is there, and a call without a cursor reports missing data. */
  lemma UnprunedExportFails(maxBytes: nat, r: Result<E.Response, E.ExportError>, at: seq<nat>)
    requires maxBytes > 0 && E.Exported(UNPRUNED, None, maxBytes, r, at)
    ensures r == Err(E.MissingData) && UNPRUNED.ReadableFrom(1)
  {
  }
}
