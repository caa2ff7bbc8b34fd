/** The codecs byte by byte: what stands at which offset, and which error answers which fault. */
module CodecMeaning {
  import opened Common
  import opened Wire
  import T = TxCodec
  import opened IntentCodec

  // ---------------------------------------------------------------- integers

  /** The first byte of a big-endian number is its most significant one. */
  lemma {:induction false} FirstIsHighest(x: byte, b: bytes)
    ensures FromBigEndian([x] + b) == x * Pow256(|b|) + FromBigEndian(b)
    decreases |b|
  {
    var s := [x] + b;
    if b == [] {
      assert s[..0] == [];
    } else {
      var front := b[..|b| - 1];
      FirstIsHighest(x, front);
      assert s[..|s| - 1] == [x] + front && s[|s| - 1] == b[|b| - 1];
      Shifted(x, Pow256(|front|), FromBigEndian(front), b[|b| - 1]);
    }
  }

  lemma Shifted(x: nat, p: nat, f: nat, last: nat)
    ensures 256 * (x * p + f) + last == x * (256 * p) + (256 * f + last)
  {
  }

  // ---------------------------------------------------------------- transactions

  /** Where the fields begin: after the flag, and after the destination if there is one. */
  function FieldsAt(x: T.Input): nat { if x.to.Some? then 21 else 1 }

  lemma FieldsLayout(x: T.Input)
    requires x.Typed() && |x.data| <= U32_MAX
    ensures var b := T.Fields(x);
            && |b| == 84 + |x.data| && b[0..32] == x.value
            && FromBigEndian(b[32..40]) == x.gasLimit && FromBigEndian(b[40..48]) == x.nonce
            && FromBigEndian(b[48..64]) == x.maxFee && FromBigEndian(b[64..80]) == x.maxPriority
            && FromBigEndian(b[80..84]) == |x.data| && b[84..] == x.data
  {
    Widths();
    BigEndianRoundTrip(x.gasLimit, 8);
    BigEndianRoundTrip(x.nonce, 8);
    BigEndianRoundTrip(x.maxFee, 16);
    BigEndianRoundTrip(x.maxPriority, 16);
    BigEndianRoundTrip(|x.data|, 4);
    hide BigEndian, FromBigEndian, Pow256;
    T.Laid(x.value, BigEndian(x.gasLimit, 8), BigEndian(x.nonce, 8), BigEndian(x.maxFee, 16),
           BigEndian(x.maxPriority, 16), BigEndian(|x.data|, 4), x.data);
  }

  lemma EncodedIs(x: T.Input)
    requires x.to.Some? ==> |x.to.value| == 20
    ensures var b := T.Encoded(x);
            && |b| == FieldsAt(x) + |T.Fields(x)| && b[FieldsAt(x)..] == T.Fields(x)
            && b[0] == (if x.to.Some? then 1 else 0) && (x.to.Some? ==> b[1..21] == x.to.value)
  {
    hide T.Fields;
  }

  /** The encoding by offset: a flag byte, the destination, and from the fields' start on 32 bytes of value, 8 of gas
      limit, 8 of nonce, 16 of maximum fee, 16 of tip, 4 of data length, then the data. */
  lemma LayoutMeans(x: T.Input)
    requires x.Typed() && |x.data| <= U32_MAX
    ensures var b := T.Encoded(x);
            var o := FieldsAt(x);
            && |b| == o + 84 + |x.data| && b[0] == (if x.to.Some? then 1 else 0)
            && (x.to.Some? ==> b[1..21] == x.to.value)
            && b[o..o + 32] == x.value
            && FromBigEndian(b[o + 32..o + 40]) == x.gasLimit && FromBigEndian(b[o + 40..o + 48]) == x.nonce
            && FromBigEndian(b[o + 48..o + 64]) == x.maxFee && FromBigEndian(b[o + 64..o + 80]) == x.maxPriority
            && FromBigEndian(b[o + 80..o + 84]) == |x.data| && b[o + 84..] == x.data
  {
    FieldsLayout(x);
    EncodedIs(x);
    hide T.Fields, T.Encoded, T.Input.Typed, FromBigEndian;
    T.Windows(T.Encoded(x), FieldsAt(x));
  }

  /** Which fault decoding reports: too short for its header, a flag other than 0 and 1, too short for a destination, a
      length that is not that of what follows, and more than 128 KiB of data, in this order. */
  lemma DecodeFaults(b: bytes)
    ensures var o := if |b| > 0 && b[0] == 1 then 21 else 1;
            var r := T.Decoded(b);
            if |b| < 85 then r == Err(T.InvalidLength)
            else if b[0] != 0 && b[0] != 1 then r == Err(T.InvalidVersion)
            else if |b| < o + 84 then r == Err(T.InvalidLength)
            else if FromBigEndian(b[o + 80..o + 84]) != |b| - o - 84 then r == Err(T.InvalidLength)
            else if |b| - o - 84 > 131072 then r == Err(T.DataTooLarge)
            else r.Ok?
  {
    hide FromBigEndian;
    var o := if |b| > 0 && b[0] == 1 then 21 else 1;
    if |b| >= o + 84 { T.Windows(b, o); }
  }

  // ---------------------------------------------------------------- compact inputs

  lemma Slices(s: bytes, a: nat, n: nat)
    requires a + n <= |s|
    ensures s[a..][..n] == s[a..a + n] && s[a..][n..] == s[a + n..]
  {
  }

  /** What is wrong with the principal slot at `at`: its length is not 1 to 29, or a byte after it is not zero. */
  predicate BadLength(s: bytes, at: nat)
    requires at < |s|
  {
    s[at] == 0 || s[at] > 29
  }

  predicate BadPadding(s: bytes, at: nat)
    requires at + 30 <= |s|
  {
    exists i :: at + 1 + s[at] <= i < at + 30 && s[i] != 0
  }

  lemma SlotMeans(s: bytes, at: nat)
    requires at + 30 <= |s|
    ensures CompactPrincipal(s[at..])
         == if BadLength(s, at) then Err(PrincipalInvalid)
            else if BadPadding(s, at) then Err(PaddingInvalid)
            else Ok((s[at + 1..at + 1 + s[at]], s[at + 30..]))
  {
    var t := s[at..];
    assert forall i :: 0 <= i < 30 ==> t[i] == s[at + i];
    if !BadLength(s, at) {
      assert t[1..1 + t[0]] == s[at + 1..at + 1 + s[at]] && t[30..] == s[at + 30..];
      if BadPadding(s, at) {
        var i :| at + 1 + s[at] <= i < at + 30 && s[i] != 0;
        assert t[i - at] != 0;
      }
    }
  }

  /** An unwrap input has 93 bytes: the version 1, the asset's slot, 32 bytes of amount, the recipient's slot. */
  lemma UnwrapAnswer(s: bytes)
    ensures UnwrapInput(s)
         == if |s| != 93 || s[0] != 1 then Err(AbiInvalid)
            else if BadLength(s, 1) then Err(PrincipalInvalid)
            else if BadPadding(s, 1) then Err(PaddingInvalid)
            else if BadLength(s, 63) then Err(PrincipalInvalid)
            else if BadPadding(s, 63) then Err(PaddingInvalid)
            else Ok(Unwrap(s[2..2 + s[1]], s[31..63], s[64..64 + s[63]]))
  {
    if |s| == 93 && s[0] == 1 {
      SlotMeans(s, 1);
      SlotMeans(s, 63);
      Slices(s, 31, 32);
      assert s[93..] == [];
      hide CompactPrincipal, BadLength, BadPadding;
    }
  }

  /** A withdrawal input has 31 bytes: the version 1 and the recipient's slot; the anonymous recipient is refused. */
  lemma WithdrawAnswer(s: bytes)
    ensures WithdrawInput(s)
         == if |s| != 31 || s[0] != 1 then Err(AbiInvalid)
            else if BadLength(s, 1) then Err(PrincipalInvalid)
            else if BadPadding(s, 1) then Err(PaddingInvalid)
            else if s[1] == 1 && s[2] == 4 then Err(RecipientAnonymous)
            else Ok(s[2..2 + s[1]])
  {
    if |s| == 31 && s[0] == 1 {
      SlotMeans(s, 1);
      assert s[31..] == [];
      hide CompactPrincipal, BadPadding;
      if !BadLength(s, 1) {
        assert s[2..2 + s[1]] == [4] <==> s[1] == 1 && s[2] == 4;
      }
    }
  }

  /** The amount is the call's value in units of 10^10 wei, and only whole positive amounts are withdrawn. */
  lemma WithdrawAmount(s: bytes, wei: nat)
    ensures WithdrawOf(s, wei).Some? <==> WithdrawInput(s).Ok? && wei > 0 && wei % 10_000_000_000 == 0
  {
    hide WithdrawInput;
  }

  /** An update input: versions 1 and 1, the target with its length, the method with its, the argument with its; the
      first fault from the left is reported. */
  lemma UpdateAnswer(s: bytes)
    ensures var r := UpdateInput(s);
            if |s| < 8 then r == Err(AbiInvalid)
            else if s[0] != 1 then r == Err(VersionInvalid)
            else if s[1] != 1 then r == Err(KindInvalid)
            else if s[2] == 0 || s[2] > 29 then r == Err(TargetInvalid)
            else
              var m: nat := 3 + s[2];
              if |s| <= m then r == Err(AbiInvalid)
              else if s[m] == 0 || s[m] > 64 then r == Err(MethodInvalid)
              else
                var a: nat := m + 1 + s[m];
                if |s| < a || (exists i :: m < i < a && s[i] >= 128) then r == Err(MethodInvalid)
                else if |s| < a + 4 then r == Err(AbiInvalid)
                else if FromBigEndian(s[a..a + 4]) > 3997 then r == Err(ArgTooLarge)
                else if FromBigEndian(s[a..a + 4]) != |s| - a - 4 then r == Err(AbiInvalid)
                else r == Ok(Update(s[3..m], s[m + 1..a], s[a + 4..]))
  {
    hide FromBigEndian, MethodAndArg;
    if |s| >= 8 && s[0] == 1 && s[1] == 1 && 1 <= s[2] <= 29 && |s| >= 3 + s[2] {
      var m: nat := 3 + s[2];
      Slices(s, 3, s[2]);
      MethodAnswer(s, m, s[3..m]);
    }
  }

  lemma MethodAnswer(s: bytes, m: nat, target: bytes)
    requires m <= |s|
    ensures var r := MethodAndArg(target, s[m..]);
            if |s| <= m then r == Err(AbiInvalid)
            else if s[m] == 0 || s[m] > 64 then r == Err(MethodInvalid)
            else
              var a: nat := m + 1 + s[m];
              if |s| < a || (exists i :: m < i < a && s[i] >= 128) then r == Err(MethodInvalid)
              else if |s| < a + 4 then r == Err(AbiInvalid)
              else if FromBigEndian(s[a..a + 4]) > 3997 then r == Err(ArgTooLarge)
              else if FromBigEndian(s[a..a + 4]) != |s| - a - 4 then r == Err(AbiInvalid)
              else r == Ok(Update(target, s[m + 1..a], s[a + 4..]))
  {
    hide FromBigEndian, ArgToEnd, IsAscii;
    if |s| > m && 1 <= s[m] <= 64 && |s| >= m + 1 + s[m] {
      var a: nat := m + 1 + s[m];
      Slices(s, m, 1);
      Slices(s, m + 1, s[m]);
      AsciiMeans(s, m + 1, a);
      ArgAnswer(s, a);
    }
  }

  lemma AsciiMeans(s: bytes, from: nat, upto: nat)
    requires from <= upto <= |s|
    ensures IsAscii(s[from..upto]) <==> !exists i :: from <= i < upto && s[i] >= 128
  {
    var t := s[from..upto];
    assert forall i :: from <= i < upto ==> t[i - from] == s[i];
  }

  lemma ArgAnswer(s: bytes, a: nat)
    requires a <= |s|
    ensures ArgToEnd(s[a..])
         == if |s| < a + 4 then Err(AbiInvalid)
            else if FromBigEndian(s[a..a + 4]) > 3997 then Err(ArgTooLarge)
            else if FromBigEndian(s[a..a + 4]) != |s| - a - 4 then Err(AbiInvalid)
            else Ok(s[a + 4..])
  {
    hide FromBigEndian;
    if |s| >= a + 4 {
      var n := FromBigEndian(s[a..a + 4]);
      Slices(s, a, 4);
      if n <= |s| - a - 4 { Slices(s, a + 4, n); }
      if n == |s| - a - 4 { assert s[a + 4..a + 4 + n] == s[a + 4..] && s[a + 4 + n..] == []; }
    }
  }

  // ---------------------------------------------------------------- logs

  /** An unwrap log by offset: the asset with its length, 32 bytes of amount, the recipient with its length. */
  lemma UnwrapLogLayout(i: Unwrap)
    requires |i.assetId| < 256 && |i.amount| == 32 && |i.recipient| < 256
    ensures var b := UnwrapLogData(i);
            var o := 1 + |i.assetId|;
            && |b| == o + 33 + |i.recipient| && b[0] == |i.assetId| && b[1..o] == i.assetId
            && b[o..o + 32] == i.amount && b[o + 32] == |i.recipient| && b[o + 33..] == i.recipient
  {
    var b := UnwrapLogData(i);
    var o := 1 + |i.assetId|;
    assert b[o..] == i.amount + Prefixed(i.recipient);
    Slices(b, o, 32);
    Slices(b, o + 32, 1);
    assert b[o + 32..] == Prefixed(i.recipient);
  }

  /** A withdrawal log by offset: 32 bytes of amount, the recipient with its length. */
  lemma WithdrawLogLayout(i: Withdraw)
    requires |i.amountE8s| == 32 && |i.recipient| < 256
    ensures var b := WithdrawLogData(i);
            |b| == 33 + |i.recipient| && b[..32] == i.amountE8s && b[32] == |i.recipient| && b[33..] == i.recipient
  {
    Slices(WithdrawLogData(i), 32, 1);
    assert WithdrawLogData(i)[32..] == Prefixed(i.recipient);
  }

  /** A log is read back exactly when its fields have 1 to 120 bytes and its amount 32. */
  lemma UnwrapLogIff(i: Unwrap)
    ensures UnwrapLog(UnwrapLogData(i)) == Some(i)
            <==> 1 <= |i.assetId| <= 120 && |i.amount| == 32 && 1 <= |i.recipient| <= 120
  {
    if 1 <= |i.assetId| <= 120 && |i.amount| == 32 && 1 <= |i.recipient| <= 120 {
      hide LenPrefixed, Prefixed;
      PrefixedReads(i.assetId, i.amount + Prefixed(i.recipient));
      TakeAppended(i.amount, Prefixed(i.recipient));
      assert Prefixed(i.recipient) + [] == Prefixed(i.recipient);
      PrefixedReads(i.recipient, []);
    }
  }

  lemma WithdrawLogIff(i: Withdraw)
    ensures WithdrawLog(WithdrawLogData(i)) == Some(i) <==> |i.amountE8s| == 32 && 1 <= |i.recipient| <= 120
  {
    if |i.amountE8s| == 32 && 1 <= |i.recipient| <= 120 {
      hide LenPrefixed, Prefixed;
      TakeAppended(i.amountE8s, Prefixed(i.recipient));
      assert Prefixed(i.recipient) + [] == Prefixed(i.recipient);
      PrefixedReads(i.recipient, []);
    }
  }

  /** An update log is read back exactly when the target has 1 to 29 bytes, the method 1 to 64 ASCII ones, and the
      argument at most 3997. */
  lemma UpdateLogIff(i: Update)
    ensures UpdateLog(UpdateLogData(i)) == Some(i)
            <==> 1 <= |i.target| <= 29 && 1 <= |i.callee| <= 64
                 && (forall k :: 0 <= k < |i.callee| ==> i.callee[k] < 128) && |i.arg| <= 3997
  {
    hide ArgToEnd, ArgData;
    if 1 <= |i.target| <= 29 && 1 <= |i.callee| <= 64 && |i.arg| <= 3997 {
      hide LenPrefixed, Prefixed;
      PrefixedReads(i.target, Prefixed(i.callee) + ArgData(i.arg));
      PrefixedReads(i.callee, ArgData(i.arg));
      ArgReads(i.arg);
    } else if UpdateLog(UpdateLogData(i)) == Some(i) {
      LogShape(UpdateLogData(i));
    }
  }

  lemma LogShape(s: bytes)
    requires UpdateLog(s).Some?
    ensures var i := UpdateLog(s).value;
            1 <= |i.target| <= 29 && 1 <= |i.callee| <= 64 && IsAscii(i.callee) && |i.arg| <= 3997
  {
    hide Prefixed, ArgToEnd, ArgData, IsAscii;
    PrefixedParts(s);
    var r1 := LenPrefixed(s).value.1;
    PrefixedParts(r1);
    ArgParts(LenPrefixed(r1).value.1);
  }

  /** The allow-list key of a target shorter than 256 bytes: its length, the target, the method. */
  lemma AllowKeyMeans(target: bytes, callee: bytes)
    requires |target| < 256
    ensures var k := AllowKey(target, callee);
            && |k| == 1 + |target| + |callee| && k[0] == |target|
            && k[1..1 + |target|] == target && k[1 + |target|..] == callee
  {
  }
}
