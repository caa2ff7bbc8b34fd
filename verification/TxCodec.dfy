/** The IcSynthetic transaction encoding of `crates/evm-core/src/tx_decode.rs`: encoder and decoder undo each other. */
module TxCodec {
  import opened Common
  import opened Wire

  const BASE_HEADER_LEN: nat := 1 + 32 + 8 + 8 + 16 + 16 + 4
  const TO_LEN: nat := 20
  const MAX_TX_SIZE: nat := 128 * 1024

  datatype DecodeError = InvalidLength | InvalidVersion | DataTooLarge

  datatype Input = Input(
    to: Option<bytes>, value: bytes, gasLimit: nat, nonce: nat, maxFee: nat, maxPriority: nat, data: bytes)
  {
    /** What the field types of the source guarantee. */
    predicate Typed() {
      && (to.Some? ==> |to.value| == TO_LEN) && |value| == 32
      && gasLimit <= U64_MAX && nonce <= U64_MAX && maxFee <= U128_MAX && maxPriority <= U128_MAX
    }
  }

  // ---------------------------------------------------------------- the layout

  function Tail(x: Input): bytes { BigEndian(Min(|x.data|, U32_MAX), 4) + x.data }

  function Fees(x: Input): bytes { BigEndian(x.maxFee, 16) + (BigEndian(x.maxPriority, 16) + Tail(x)) }

  function Fields(x: Input): bytes { x.value + (BigEndian(x.gasLimit, 8) + (BigEndian(x.nonce, 8) + Fees(x))) }

  /** flag, destination if any, value, gas limit, nonce, the two fees, data length, data. */
  function Encoded(x: Input): bytes {
    match x.to case Some(to) => [1] + (to + Fields(x)) case None => [0] + Fields(x)
  }

  function DecodedFields(to: Option<bytes>, b: bytes): Result<Input, DecodeError>
    requires |b| >= BASE_HEADER_LEN - 1
  {
    var data := b[84..];
    var dataLen := FromBigEndian(b[80..84]);
    if |data| != dataLen then Err(InvalidLength)
    else if dataLen > MAX_TX_SIZE then Err(DataTooLarge)
    else Ok(Input(to, b[..32], FromBigEndian(b[32..40]), FromBigEndian(b[40..48]), FromBigEndian(b[48..64]),
                  FromBigEndian(b[64..80]), data))
  }

  function Decoded(b: bytes): Result<Input, DecodeError> {
    if |b| < BASE_HEADER_LEN then Err(InvalidLength)
    else if b[0] > 1 then Err(InvalidVersion)
    else if b[0] == 0 then DecodedFields(None, b[1..])
    else if |b| < BASE_HEADER_LEN + TO_LEN then Err(InvalidLength)
    else DecodedFields(Some(b[1..21]), b[21..])
  }

  /** `decode_ic_synthetic_header`: one pass with a moving offset. */
  method DecodeHeader(b: bytes) returns (r: Result<Input, DecodeError>)
    ensures r == Decoded(b)
  {
    if |b| < BASE_HEADER_LEN { return Err(InvalidLength); }
    if b[0] > 1 { return Err(InvalidVersion); }
    var toLen := if b[0] == 0 then 0 else TO_LEN;
    if |b| < BASE_HEADER_LEN + toLen { return Err(InvalidLength); }
    var offset := 1;
    var to := None;
    if toLen != 0 {
      to := Some(b[offset..offset + TO_LEN]);
      offset := offset + TO_LEN;
    }
    ghost var at := b[offset..];
    var value := b[offset..offset + 32];
    offset := offset + 32;
    var gasLimit := FromBigEndian(b[offset..offset + 8]);
    offset := offset + 8;
    var nonce := FromBigEndian(b[offset..offset + 8]);
    offset := offset + 8;
    var maxFee := FromBigEndian(b[offset..offset + 16]);
    offset := offset + 16;
    var maxPriority := FromBigEndian(b[offset..offset + 16]);
    offset := offset + 16;
    var dataLen := FromBigEndian(b[offset..offset + 4]);
    offset := offset + 4;
    Windows(b, offset - 84);
    if |b| - offset != dataLen { return Err(InvalidLength); }
    if dataLen > MAX_TX_SIZE { return Err(DataTooLarge); }
    r := Ok(Input(to, value, gasLimit, nonce, maxFee, maxPriority, b[offset..]));
  }

  lemma Windows(b: bytes, o: nat)
    requires o + 84 <= |b|
    ensures var at := b[o..];
            && at[..32] == b[o..o + 32] && at[32..40] == b[o + 32..o + 40] && at[40..48] == b[o + 40..o + 48]
            && at[48..64] == b[o + 48..o + 64] && at[64..80] == b[o + 64..o + 80] && at[80..84] == b[o + 80..o + 84]
            && at[84..] == b[o + 84..]
  {
  }

  /** `encode_ic_synthetic_input`: the fields appended one after the other. */
  method EncodeInput(x: Input) returns (out: bytes)
    ensures out == Encoded(x)
  {
    out := [];
    match x.to {
      case Some(to) =>
        out := out + [1];
        out := out + to;
      case None => out := out + [0];
    }
    ghost var flag := out;
    out := out + x.value;
    out := out + BigEndian(x.gasLimit, 8);
    out := out + BigEndian(x.nonce, 8);
    out := out + BigEndian(x.maxFee, 16);
    out := out + BigEndian(x.maxPriority, 16);
    out := out + BigEndian(Min(|x.data|, U32_MAX), 4);
    out := out + x.data;
    Appended(flag, x);
    if x.to.Some? { Glue([1], x.to.value, Fields(x)); }
  }

  lemma Appended(flag: bytes, x: Input)
    ensures flag + x.value + BigEndian(x.gasLimit, 8) + BigEndian(x.nonce, 8) + BigEndian(x.maxFee, 16)
              + BigEndian(x.maxPriority, 16) + BigEndian(Min(|x.data|, U32_MAX), 4) + x.data
         == flag + Fields(x)
  {
  }

  // ---------------------------------------------------------------- round trips

  /** The windows of six fields laid end to end. */
  lemma Laid(v: bytes, g: bytes, n: bytes, f: bytes, p: bytes, l: bytes, d: bytes)
    requires |v| == 32 && |g| == 8 && |n| == 8 && |f| == 16 && |p| == 16 && |l| == 4
    ensures var b := v + (g + (n + (f + (p + (l + d)))));
            && |b| == 84 + |d| && b[..32] == v && b[32..40] == g && b[40..48] == n && b[48..64] == f && b[64..80] == p
            && b[80..84] == l && b[84..] == d
  {
  }

  lemma LaidBack(b: bytes)
    requires |b| >= 84
    ensures b == b[..32] + (b[32..40] + (b[40..48] + (b[48..64] + (b[64..80] + (b[80..84] + b[84..])))))
  {
  }

  lemma FieldsDecode(x: Input)
    requires x.Typed()
    ensures |Fields(x)| == 84 + |x.data|
    ensures DecodedFields(x.to, Fields(x))
         == if |x.data| <= MAX_TX_SIZE then Ok(x) else if |x.data| <= U32_MAX then Err(DataTooLarge)
             else Err(InvalidLength)
  {
    var dataLen := Min(|x.data|, U32_MAX);
    Widths();
    BigEndianRoundTrip(x.gasLimit, 8);
    BigEndianRoundTrip(x.nonce, 8);
    BigEndianRoundTrip(x.maxFee, 16);
    BigEndianRoundTrip(x.maxPriority, 16);
    BigEndianRoundTrip(dataLen, 4);
    hide BigEndian, FromBigEndian, Pow256;
    Laid(x.value, BigEndian(x.gasLimit, 8), BigEndian(x.nonce, 8), BigEndian(x.maxFee, 16),
        BigEndian(x.maxPriority, 16),
         BigEndian(dataLen, 4), x.data);
  }

  /** Decoding what was encoded gives it back exactly up to the size limit, and says what is wrong beyond it. */
  lemma EncodeThenDecode(x: Input)
    requires x.Typed()
    ensures Decoded(Encoded(x)) == Ok(x) <==> |x.data| <= MAX_TX_SIZE
    ensures MAX_TX_SIZE < |x.data| <= U32_MAX ==> Decoded(Encoded(x)) == Err(DataTooLarge)
    ensures |x.data| > U32_MAX ==> Decoded(Encoded(x)) == Err(InvalidLength)
  {
    FieldsDecode(x);
    hide Fields, DecodedFields;
    var b := Encoded(x);
    match x.to
    case None =>
      assert b[1..] == Fields(x);
    case Some(to) =>
      assert b[1..21] == to && b[21..] == Fields(x);
  }

  /** What decodes was the encoding of what it decodes to: no two byte strings decode alike. */
  lemma DecodeThenEncode(b: bytes)
    requires Decoded(b).Ok?
    ensures Decoded(b).value.Typed() && |Decoded(b).value.data| <= MAX_TX_SIZE && Encoded(Decoded(b).value) == b
  {
    if b[0] == 0 {
      FieldsBack(None, b[1..]);
      hide Fields, DecodedFields;
      assert b == [0] + b[1..];
    } else {
      FieldsBack(Some(b[1..21]), b[21..]);
      hide Fields, DecodedFields;
      assert b == [1] + (b[1..21] + b[21..]);
    }
  }

  lemma FieldsBack(to: Option<bytes>, b: bytes)
    requires |b| >= 84 && DecodedFields(to, b).Ok? && (to.Some? ==> |to.value| == TO_LEN)
    ensures var x := DecodedFields(to, b).value;
            x.to == to && x.Typed() && |x.data| <= MAX_TX_SIZE && Fields(x) == b
  {
    Widths();
    FromBigEndianRoundTrip(b[32..40]);
    FromBigEndianRoundTrip(b[40..48]);
    FromBigEndianRoundTrip(b[48..64]);
    FromBigEndianRoundTrip(b[64..80]);
    FromBigEndianRoundTrip(b[80..84]);
    hide BigEndian, FromBigEndian, Pow256;
    LaidBack(b);
  }
}
