/** Bytes, big-endian integers and taking a prefix: what the codecs are built from. */
module Wire {
  import opened Common

  type byte = n: nat | n < 256 witness 0
  type bytes = seq<byte>

  function Pow256(k: nat): nat { if k == 0 then 1 else 256 * Pow256(k - 1) }

  /** `to_be_bytes` of a `k`-byte integer. */
  function BigEndian(n: nat, k: nat): (r: bytes)
    ensures |r| == k
  {
    if k == 0 then [] else BigEndian(n / 256, k - 1) + [n % 256]
  }

  /** `from_be_bytes` */
  function FromBigEndian(b: bytes): nat {
    if b == [] then 0 else 256 * FromBigEndian(b[..|b| - 1]) + b[|b| - 1]
  }

  lemma {:induction false} BigEndianRoundTrip(n: nat, k: nat)
    requires n < Pow256(k)
    ensures FromBigEndian(BigEndian(n, k)) == n
  {
    if k > 0 {
      BigEndianRoundTrip(n / 256, k - 1);
      assert BigEndian(n, k)[..k - 1] == BigEndian(n / 256, k - 1);
    }
  }

  lemma {:induction false} FromBigEndianRoundTrip(b: bytes)
    ensures FromBigEndian(b) < Pow256(|b|) && BigEndian(FromBigEndian(b), |b|) == b
    decreases |b|
  {
    if b != [] {
      var front, last := b[..|b| - 1], b[|b| - 1];
      FromBigEndianRoundTrip(front);
      var n := 256 * FromBigEndian(front) + last;
      assert n / 256 == FromBigEndian(front) && n % 256 == last;
      assert b == front + [last];
    }
  }

  lemma Widths()
    ensures Pow256(4) == U32_MAX + 1 && Pow256(8) == U64_MAX + 1 && Pow256(16) == U128_MAX + 1
  {
  }

  /** The first `n` bytes and the others. */
  function Take(s: bytes, n: nat): Option<(bytes, bytes)> { if n <= |s| then Some((s[..n], s[n..])) else None }

  lemma TakeAppended(a: bytes, rest: bytes)
    ensures Take(a + rest, |a|) == Some((a, rest))
  {
  }

  lemma TakeParts(s: bytes, n: nat)
    requires Take(s, n).Some?
    ensures var (a, rest) := Take(s, n).value; s == a + rest && |a| == n
  {
  }

  lemma Glue(a: bytes, b: bytes, c: bytes)
    ensures a + (b + c) == a + b + c
  {
  }
}
