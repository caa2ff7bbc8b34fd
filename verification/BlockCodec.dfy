/** A block codec that round-trips and is short on the blocks of the runs that show an exception, so that what is said
    of every such codec is said of some. */
module BlockCodec {
  import opened Common
  import opened Types
  import opened Ledger
  import B = BlobStore

  predicate Storable(data: seq<B.byte>) { 0 < |data| <= B.MAX_CLASS }

  /** A transaction of another sender, for the block that lets the first one be pruned. */
  function Other(w: TxId): TxId { TxId(0, EthSigned, w.sender + 1, 0) }

  /** One of the blocks the runs below make: one transaction, `w` or the other one, and small numbers. */
  predicate RunBlock(b: BlockData, w: TxId) {
    (b.txIds == [w] || b.txIds == [Other(w)]) && b.number <= 3 && b.timestamp <= 3
  }

  /** The blocks of the runs encode to something an arena slot takes. */
  ghost predicate SmallBlocks(codec: Codec, w: TxId) { forall b :: RunBlock(b, w) ==> Storable(codec.encode(b)) }

  // ---------------------------------------------------------------- the codec

  /** Numbers in unary, so that no encoding is the beginning of another. */
  function Num(n: nat): seq<B.byte> { if n == 0 then [0] else [1] + Num(n - 1) }

  function KindNum(id: TxId): nat { if id.kind.EthSigned? then 0 else 1 }

  function IdBytes(id: TxId): seq<B.byte> {
    Num(id.hash) + (Num(KindNum(id)) + (Num(id.sender) + Num(id.nonce)))
  }

  function IdsBytes(ids: seq<TxId>): seq<B.byte> {
    if ids == [] then [0] else [1] + (IdBytes(ids[0]) + IdsBytes(ids[1..]))
  }

  /** Four bytes for a block of the runs, the long form for every other. */
  function Encode(b: BlockData, w: TxId): seq<B.byte> {
    if RunBlock(b, w) then [0, if b.txIds == [w] then 0 else 1, b.number as B.byte, b.timestamp as B.byte]
    else [1] + (Num(b.number) + (Num(b.timestamp) + IdsBytes(b.txIds)))
  }

  lemma {:induction false} NumApart(m: nat, n: nat, x: seq<B.byte>, y: seq<B.byte>)
    requires Num(m) + x == Num(n) + y
    ensures m == n && x == y
    decreases m
  {
    assert (Num(m) + x)[0] == Num(m)[0] && (Num(n) + y)[0] == Num(n)[0];
    assert (Num(m) + x)[1..] == Num(m)[1..] + x && (Num(n) + y)[1..] == Num(n)[1..] + y;
    if m > 0 && n > 0 { NumApart(m - 1, n - 1, x, y); }
  }

  lemma IdThen(a: TxId, x: seq<B.byte>)
    ensures IdBytes(a) + x == Num(a.hash) + (Num(KindNum(a)) + (Num(a.sender) + (Num(a.nonce) + x)))
  {
    hide Num;
  }

  lemma IdApart(a: TxId, b: TxId, x: seq<B.byte>, y: seq<B.byte>)
    requires IdBytes(a) + x == IdBytes(b) + y
    ensures a == b && x == y
  {
    IdThen(a, x);
    IdThen(b, y);
    hide Num, IdBytes;
    var na, nb := Num(a.nonce) + x, Num(b.nonce) + y;
    var sa, sb := Num(a.sender) + na, Num(b.sender) + nb;
    NumApart(a.hash, b.hash, Num(KindNum(a)) + sa, Num(KindNum(b)) + sb);
    NumApart(KindNum(a), KindNum(b), sa, sb);
    NumApart(a.sender, b.sender, na, nb);
    NumApart(a.nonce, b.nonce, x, y);
  }

  lemma {:induction false} IdsApart(a: seq<TxId>, b: seq<TxId>)
    requires IdsBytes(a) == IdsBytes(b)
    ensures a == b
    decreases |a|
  {
    hide IdBytes;
    assert IdsBytes(a)[0] == (if a == [] then 0 else 1) && IdsBytes(b)[0] == (if b == [] then 0 else 1);
    if a != [] && b != [] {
      assert IdsBytes(a)[1..] == IdBytes(a[0]) + IdsBytes(a[1..]);
      assert IdsBytes(b)[1..] == IdBytes(b[0]) + IdsBytes(b[1..]);
      IdApart(a[0], b[0], IdsBytes(a[1..]), IdsBytes(b[1..]));
      IdsApart(a[1..], b[1..]);
      assert a == [a[0]] + a[1..] && b == [b[0]] + b[1..];
    }
  }

  /** Different blocks have different bytes. */
  lemma EncodeApart(a: BlockData, b: BlockData, w: TxId)
    requires Encode(a, w) == Encode(b, w)
    ensures a == b
  {
    hide Num, IdsBytes;
    assert Encode(a, w)[0] == Encode(b, w)[0];
    if RunBlock(a, w) {
      assert forall i :: 1 <= i < 4 ==> Encode(a, w)[i] == Encode(b, w)[i];
    } else {
      assert Encode(a, w)[1..] == Num(a.number) + (Num(a.timestamp) + IdsBytes(a.txIds));
      assert Encode(b, w)[1..] == Num(b.number) + (Num(b.timestamp) + IdsBytes(b.txIds));
      NumApart(a.number, b.number, Num(a.timestamp) + IdsBytes(a.txIds), Num(b.timestamp) + IdsBytes(b.txIds));
      NumApart(a.timestamp, b.timestamp, IdsBytes(a.txIds), IdsBytes(b.txIds));
      IdsApart(a.txIds, b.txIds);
    }
  }

  ghost function Decode(bytes: seq<B.byte>, w: TxId): Option<BlockData> {
    if b :| Encode(b, w) == bytes then Some(b) else None
  }

  ghost function CodecFor(w: TxId): Codec { Codec(b => Encode(b, w), bytes => Decode(bytes, w)) }

  /** The two premises can be met together, whatever the transaction. */
  lemma CodecMeetsBoth(w: TxId)
    ensures RoundTrips(CodecFor(w)) && SmallBlocks(CodecFor(w), w)
  {
    forall b: BlockData ensures CodecFor(w).decode(CodecFor(w).encode(b)) == Some(b) {
      var c := Decode(Encode(b, w), w).value;
      EncodeApart(b, c, w);
    }
  }
}
