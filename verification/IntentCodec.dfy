/** The compact precompile inputs, intent logs and allow-list key of `crates/evm-core/src/kasane_precompiles.rs`. */
module IntentCodec {
  import opened Common
  import opened Wire

  const MAX_FIELD_LEN: nat := 120
  const MAX_PRINCIPAL_LEN: nat := 29
  const MAX_METHOD_LEN: nat := 64
  const MAX_UPDATE_ARG_LEN: nat := 3997
  const UNWRAP_INPUT_LEN: nat := 1 + (1 + 29) * 2 + 32
  const WITHDRAW_INPUT_LEN: nat := 1 + (1 + 29)
  const WEI_PER_E8S: nat := 10_000_000_000
  const ANONYMOUS: bytes := [4]

  datatype ArgError =
    | AbiInvalid | PrincipalInvalid | PaddingInvalid | AmountInvalid | RecipientAnonymous
    | VersionInvalid | KindInvalid | TargetInvalid | MethodInvalid | ArgTooLarge

  datatype Unwrap = Unwrap(assetId: bytes, amount: bytes, recipient: bytes)

  datatype Withdraw = Withdraw(amountE8s: bytes, recipient: bytes)

  datatype Update = Update(target: bytes, callee: bytes, arg: bytes)

  predicate IsAscii(b: bytes) { forall i :: 0 <= i < |b| ==> b[i] < 128 }

  // ---------------------------------------------------------------- grammar: a value and the bytes after it

  /** `read_compact_principal`: a length, then a slot of 29 bytes padded with zeros. */
  function CompactPrincipal(s: bytes): Result<(bytes, bytes), ArgError> {
    if s == [] then Err(AbiInvalid)
    else if !(1 <= s[0] <= MAX_PRINCIPAL_LEN) then Err(PrincipalInvalid)
    else if |s| < 1 + MAX_PRINCIPAL_LEN then Err(AbiInvalid)
    else if exists i :: 1 + s[0] <= i < 1 + MAX_PRINCIPAL_LEN && s[i] != 0 then Err(PaddingInvalid)
    else Ok((s[1..1 + s[0]], s[1 + MAX_PRINCIPAL_LEN..]))
  }

  /** `parse_compact_input` */
  function UnwrapInput(s: bytes): Result<Unwrap, ArgError> {
    if |s| != UNWRAP_INPUT_LEN || s[0] != 1 then Err(AbiInvalid)
    else match CompactPrincipal(s[1..])
      case Err(e) => Err(e)
      case Ok((asset, r1)) =>
        match Take(r1, 32)
        case None => Err(AmountInvalid)
        case Some((amount, r2)) =>
          match CompactPrincipal(r2)
          case Err(e) => Err(e)
          case Ok((recipient, r3)) => if r3 != [] then Err(AbiInvalid) else Ok(Unwrap(asset, amount, recipient))
  }

  /** `parse_native_withdraw_input` */
  function WithdrawInput(s: bytes): Result<bytes, ArgError> {
    if |s| != WITHDRAW_INPUT_LEN || s[0] != 1 then Err(AbiInvalid)
    else match CompactPrincipal(s[1..])
      case Err(e) => Err(e)
      case Ok((recipient, rest)) =>
        if recipient == ANONYMOUS then Err(RecipientAnonymous)
        else if rest != [] then Err(AbiInvalid) else Ok(recipient)
  }

  /** The argument of an update call with its length, then nothing. */
  function ArgToEnd(s: bytes): Result<bytes, ArgError> {
    match Take(s, 4)
    case None => Err(AbiInvalid)
    case Some((len, r)) =>
      if FromBigEndian(len) > MAX_UPDATE_ARG_LEN then Err(ArgTooLarge)
      else match Take(r, FromBigEndian(len))
        case None => Err(AbiInvalid)
        case Some((arg, rest)) => if rest != [] then Err(AbiInvalid) else Ok(arg)
  }

  function MethodAndArg(target: bytes, s: bytes): Result<Update, ArgError> {
    if s == [] then Err(AbiInvalid)
    else if s[0] == 0 || s[0] > MAX_METHOD_LEN then Err(MethodInvalid)
    else match Take(s[1..], s[0])
      case None => Err(MethodInvalid)
      case Some((callee, r)) =>
        if !IsAscii(callee) then Err(MethodInvalid)
        else match ArgToEnd(r) case Err(e) => Err(e) case Ok(arg) => Ok(Update(target, callee, arg))
  }

  /** `parse_icp_update_intent_input` */
  function UpdateInput(s: bytes): Result<Update, ArgError> {
    if |s| < 8 then Err(AbiInvalid)
    else if s[0] != 1 then Err(VersionInvalid)
    else if s[1] != 1 then Err(KindInvalid)
    else if !(1 <= s[2] <= MAX_PRINCIPAL_LEN) then Err(TargetInvalid)
    else match Take(s[3..], s[2])
      case None => Err(AbiInvalid)
      case Some((target, r)) => MethodAndArg(target, r)
  }

  /** `read_len_prefixed` */
  function LenPrefixed(s: bytes): Option<(bytes, bytes)> {
    if s == [] || s[0] == 0 || s[0] > MAX_FIELD_LEN then None else Take(s[1..], s[0])
  }

  /** The data part of `unwrap_intent_from_log`. */
  function UnwrapLog(s: bytes): Option<Unwrap> {
    match LenPrefixed(s)
    case None => None
    case Some((asset, r1)) =>
      match Take(r1, 32)
      case None => None
      case Some((amount, r2)) =>
        match LenPrefixed(r2)
        case None => None
        case Some((recipient, r3)) => if r3 != [] then None else Some(Unwrap(asset, amount, recipient))
  }

  /** The data part of `native_withdraw_intent_from_log`. */
  function WithdrawLog(s: bytes): Option<Withdraw> {
    match Take(s, 32)
    case None => None
    case Some((amount, r1)) =>
      match LenPrefixed(r1)
      case None => None
      case Some((recipient, r2)) => if r2 != [] then None else Some(Withdraw(amount, recipient))
  }

  /** The data part of `icp_update_intent_from_log`. */
  function UpdateLog(s: bytes): Option<Update> {
    match LenPrefixed(s)
    case None => None
    case Some((target, r1)) =>
      if |target| > MAX_PRINCIPAL_LEN then None
      else match LenPrefixed(r1)
        case None => None
        case Some((callee, r2)) =>
          if |callee| > MAX_METHOD_LEN || !IsAscii(callee) then None
          else match ArgToEnd(r2) case Err(_) => None case Ok(arg) => Some(Update(target, callee, arg))
  }

  // ---------------------------------------------------------------- encoders

  function Prefixed(b: bytes): bytes { [|b| % 256] + b }

  /** `encode_log_data` */
  function UnwrapLogData(i: Unwrap): bytes { Prefixed(i.assetId) + (i.amount + Prefixed(i.recipient)) }

  /** `encode_native_withdraw_log_data` */
  function WithdrawLogData(i: Withdraw): bytes { i.amountE8s + Prefixed(i.recipient) }

  function ArgData(arg: bytes): bytes { BigEndian(|arg| % (U32_MAX + 1), 4) + arg }

  /** `encode_icp_update_intent_log_data` */
  function UpdateLogData(i: Update): bytes { Prefixed(i.target) + (Prefixed(i.callee) + ArgData(i.arg)) }

  function Zeros(n: nat): bytes { seq(n, _ => 0) }

  /** The one compact form of a principal. */
  function Padded(p: bytes): bytes
    requires |p| <= MAX_PRINCIPAL_LEN
  {
    [|p|] + (p + Zeros(MAX_PRINCIPAL_LEN - |p|))
  }

  // ---------------------------------------------------------------- pieces

  lemma PrefixedReads(b: bytes, rest: bytes)
    requires 1 <= |b| <= MAX_FIELD_LEN
    ensures LenPrefixed(Prefixed(b) + rest) == Some((b, rest))
  {
    assert (Prefixed(b) + rest)[1..] == b + rest;
    TakeAppended(b, rest);
  }

  lemma PrefixedParts(s: bytes)
    requires LenPrefixed(s).Some?
    ensures var (b, rest) := LenPrefixed(s).value; s == Prefixed(b) + rest && 1 <= |b| <= MAX_FIELD_LEN
  {
  }

  lemma ArgReads(arg: bytes)
    requires |arg| <= MAX_UPDATE_ARG_LEN
    ensures ArgToEnd(ArgData(arg)) == Ok(arg)
  {
    Widths();
    BigEndianRoundTrip(|arg|, 4);
    hide BigEndian, FromBigEndian, Pow256;
    TakeAppended(BigEndian(|arg|, 4), arg);
    assert |arg| % (U32_MAX + 1) == |arg|;
    TakeAppended(arg, []);
    assert arg + [] == arg;
  }

  lemma ArgParts(s: bytes)
    requires ArgToEnd(s).Ok?
    ensures |ArgToEnd(s).value| <= MAX_UPDATE_ARG_LEN && ArgData(ArgToEnd(s).value) == s
  {
    FromBigEndianRoundTrip(s[..4]);
    hide BigEndian, FromBigEndian, Pow256;
  }

  lemma PrincipalParts(s: bytes)
    requires CompactPrincipal(s).Ok?
    ensures var (p, rest) := CompactPrincipal(s).value;
            1 <= |p| <= MAX_PRINCIPAL_LEN && s == Padded(p) + rest
  {
  }

  // ---------------------------------------------------------------- logs and inputs undo each other

  /** An unwrap intent its parser accepts is recovered exactly from the log it is written to. */
  lemma UnwrapRecovered(input: bytes)
    requires UnwrapInput(input).Ok?
    ensures UnwrapLog(UnwrapLogData(UnwrapInput(input).value)) == Some(UnwrapInput(input).value)
  {
    var i := UnwrapInput(input).value;
    PrincipalParts(input[1..]);
    var r1 := CompactPrincipal(input[1..]).value.1;
    PrincipalParts(Take(r1, 32).value.1);
    hide LenPrefixed, Prefixed, CompactPrincipal, UnwrapInput;
    PrefixedReads(i.assetId, i.amount + Prefixed(i.recipient));
    TakeAppended(i.amount, Prefixed(i.recipient));
    assert Prefixed(i.recipient) + [] == Prefixed(i.recipient);
    PrefixedReads(i.recipient, []);
  }

  /** Log data that decodes is the encoding of what it decodes to. */
  lemma UnwrapLogBack(s: bytes)
    requires UnwrapLog(s).Some?
    ensures UnwrapLogData(UnwrapLog(s).value) == s
  {
  }

  /** No two accepted inputs parse alike: the padding leaves one form per intent. */
  lemma UnwrapInputBack(s: bytes)
    requires UnwrapInput(s).Ok?
    ensures var i := UnwrapInput(s).value;
            && |i.assetId| <= MAX_PRINCIPAL_LEN && |i.recipient| <= MAX_PRINCIPAL_LEN
            && s == [1] + (Padded(i.assetId) + (i.amount + Padded(i.recipient)))
  {
  }

  /** `native_value_to_e8s`, and zero refused as the precompile does. */
  function WithdrawOf(input: bytes, wei: nat): Option<Withdraw> {
    match WithdrawInput(input)
    case Err(_) => None
    case Ok(recipient) =>
      if wei % WEI_PER_E8S != 0 || wei / WEI_PER_E8S == 0 then None
      else Some(Withdraw(BigEndian(wei / WEI_PER_E8S, 32), recipient))
  }

  /** A withdrawal is recovered exactly from its log, and the logged amount is worth the call's value to the wei. */
  lemma WithdrawRecovered(input: bytes, wei: nat)
    requires WithdrawOf(input, wei).Some? && wei < Pow256(32)
    ensures var i := WithdrawOf(input, wei).value;
            && WithdrawLog(WithdrawLogData(i)) == Some(i) && i.recipient != ANONYMOUS
            && FromBigEndian(i.amountE8s) * WEI_PER_E8S == wei > 0
  {
    var i := WithdrawOf(input, wei).value;
    PrincipalParts(input[1..]);
    BigEndianRoundTrip(wei / WEI_PER_E8S, 32);
    hide BigEndian, FromBigEndian, Pow256, LenPrefixed, Prefixed, CompactPrincipal;
    TakeAppended(i.amountE8s, Prefixed(i.recipient));
    assert Prefixed(i.recipient) + [] == Prefixed(i.recipient);
    PrefixedReads(i.recipient, []);
  }

  lemma WithdrawLogBack(s: bytes)
    requires WithdrawLog(s).Some?
    ensures WithdrawLogData(WithdrawLog(s).value) == s
  {
  }

  lemma WithdrawInputBack(s: bytes)
    requires WithdrawInput(s).Ok?
    ensures |WithdrawInput(s).value| <= MAX_PRINCIPAL_LEN && s == [1] + Padded(WithdrawInput(s).value)
  {
  }

  lemma UpdateShape(s: bytes)
    requires UpdateInput(s).Ok?
    ensures var i := UpdateInput(s).value;
            && 1 <= |i.target| <= MAX_PRINCIPAL_LEN && 1 <= |i.callee| <= MAX_METHOD_LEN && IsAscii(i.callee)
            && |i.arg| <= MAX_UPDATE_ARG_LEN
                 && s == [1, 1] + (Prefixed(i.target) + (Prefixed(i.callee) + ArgData(i.arg)))
  {
    hide ArgToEnd, ArgData, MethodAndArg;
    TakeParts(s[3..], s[2]);
    var (target, r) := Take(s[3..], s[2]).value;
    MethodShape(target, r);
    Glue([s[2]], target, r);
    assert s == [1, 1] + ([s[2]] + s[3..]);
  }

  lemma MethodShape(target: bytes, r: bytes)
    requires MethodAndArg(target, r).Ok?
    ensures var i := MethodAndArg(target, r).value;
            && i.target == target && 1 <= |i.callee| <= MAX_METHOD_LEN && IsAscii(i.callee)
            && |i.arg| <= MAX_UPDATE_ARG_LEN && r == Prefixed(i.callee) + ArgData(i.arg)
  {
    hide ArgToEnd, ArgData, IsAscii;
    TakeParts(r[1..], r[0]);
    var (callee, q) := Take(r[1..], r[0]).value;
    ArgParts(q);
    Glue([r[0]], callee, q);
    assert r == [r[0]] + r[1..];
  }

  /** An update intent its parser accepts is recovered exactly from the log it is written to; and the log data is the
      input without its two leading bytes. */
  lemma UpdateRecovered(input: bytes)
    requires UpdateInput(input).Ok?
    ensures UpdateLog(UpdateLogData(UpdateInput(input).value)) == Some(UpdateInput(input).value)
    ensures input == [1, 1] + UpdateLogData(UpdateInput(input).value)
  {
    UpdateShape(input);
    var i := UpdateInput(input).value;
    hide LenPrefixed, Prefixed, ArgToEnd, ArgData, UpdateInput, IsAscii;
    PrefixedReads(i.target, Prefixed(i.callee) + ArgData(i.arg));
    PrefixedReads(i.callee, ArgData(i.arg));
    ArgReads(i.arg);
  }

  lemma UpdateLogBack(s: bytes)
    requires UpdateLog(s).Some?
    ensures UpdateLogData(UpdateLog(s).value) == s
  {
    hide LenPrefixed, Prefixed, ArgToEnd, ArgData, IsAscii;
    PrefixedParts(s);
    var r1 := LenPrefixed(s).value.1;
    PrefixedParts(r1);
    ArgParts(LenPrefixed(r1).value.1);
  }

  // ---------------------------------------------------------------- the allow-list key

  /** `precompile_allow_key`; the length byte is the target's length modulo 256. */
  function AllowKey(target: bytes, callee: bytes): bytes { [|target| % 256] + target + callee }

  /** Targets shorter than 256 bytes, and principals have at most 29, never share a key. */
  lemma AllowKeyInjective(t: bytes, m: bytes, t': bytes, m': bytes)
    requires |t| < 256 && |t'| < 256 && AllowKey(t, m) == AllowKey(t', m')
    ensures t == t' && m == m'
  {
    var k := AllowKey(t, m);
    assert k[0] == |t| && k[0] == |t'|;
    assert k[1..][..|t|] == t && k[1..][|t|..] == m;
    assert AllowKey(t', m')[1..][..|t'|] == t' && AllowKey(t', m')[1..][|t'|..] == m';
  }

  /** The key of a target and method belongs to no other pair at all exactly when both are shorter than 256 bytes. */
  lemma AllowKeyUniqueIff(t: bytes, m: bytes)
    ensures (forall t', m' :: AllowKey(t', m') == AllowKey(t, m) ==> t' == t && m' == m) <==> |t| < 256 && |m| < 256
  {
    if |t| >= 256 {
      MoveOut(t, m);
      assert t[..|t| - 256] != t;
    } else if |m| >= 256 {
      MoveIn(t, m);
      assert t + m[..256] != t;
    } else {
      forall t', m' | AllowKey(t', m') == AllowKey(t, m) ensures t' == t && m' == m {
        assert |t'| + |m'| == |t| + |m| < 512 by { assert |AllowKey(t', m')| == |AllowKey(t, m)|; }
        assert |t'| % 256 == |t| by { assert AllowKey(t', m')[0] == AllowKey(t, m)[0]; }
        assert |t'| < 256;
        AllowKeyInjective(t', m', t, m);
      }
    }
  }

  lemma MoveOut(t: bytes, m: bytes)
    requires |t| >= 256
    ensures AllowKey(t[..|t| - 256], t[|t| - 256..] + m) == AllowKey(t, m)
  {
  }

  lemma MoveIn(t: bytes, m: bytes)
    requires |m| >= 256
    ensures AllowKey(t + m[..256], m[256..]) == AllowKey(t, m)
  {
  }

  // ---------------------------------------------------------------- the readers with a moving offset

  method ReadLenPrefixed(data: bytes, offset: nat) returns (r: Option<bytes>, next: nat)
    requires offset <= |data|
    ensures match LenPrefixed(data[offset..])
            case None => r == None
            case Some((b, rest)) => r == Some(b) && next <= |data| && data[next..] == rest
  {
    next := offset;
    if next >= |data| { return None, next; }
    var len := data[next];
    next := next + 1;
    if len == 0 || len > MAX_FIELD_LEN { return None, next; }
    r, next := ReadExact(data, next, len);
  }

  method ReadExact(data: bytes, offset: nat, len: nat) returns (r: Option<bytes>, next: nat)
    requires offset <= |data|
    ensures match Take(data[offset..], len)
            case None => r == None
            case Some((b, rest)) => r == Some(b) && next <= |data| && data[next..] == rest
  {
    next := offset;
    var end := offset + len;
    if end > |data| { return None, next; }
    assert data[offset..end] == data[offset..][..len] && data[end..] == data[offset..][len..];
    r, next := Some(data[offset..end]), end;
  }

  method UnwrapIntentFromLog(data: bytes) returns (r: Option<Unwrap>)
    ensures r == UnwrapLog(data)
  {
    hide LenPrefixed;
    assert data[0..] == data;
    var offset: nat := 0;
    var asset, amount, recipient;
    asset, offset := ReadLenPrefixed(data, offset);
    if asset.None? { return None; }
    amount, offset := ReadExact(data, offset, 32);
    if amount.None? { return None; }
    recipient, offset := ReadLenPrefixed(data, offset);
    if recipient.None? || offset != |data| { return None; }
    r := Some(Unwrap(asset.value, amount.value, recipient.value));
  }

  method NativeWithdrawIntentFromLog(data: bytes) returns (r: Option<Withdraw>)
    ensures r == WithdrawLog(data)
  {
    hide LenPrefixed;
    assert data[0..] == data;
    var offset: nat := 0;
    var amount, recipient;
    amount, offset := ReadExact(data, offset, 32);
    if amount.None? { return None; }
    recipient, offset := ReadLenPrefixed(data, offset);
    if recipient.None? || offset != |data| { return None; }
    r := Some(Withdraw(amount.value, recipient.value));
  }

  method IcpUpdateIntentFromLog(data: bytes) returns (r: Option<Update>)
    ensures r == UpdateLog(data)
  {
    hide LenPrefixed, FromBigEndian;
    assert data[0..] == data;
    var offset: nat := 0;
    var target, callee, len, arg;
    target, offset := ReadLenPrefixed(data, offset);
    if target.None? || |target.value| > MAX_PRINCIPAL_LEN { return None; }
    callee, offset := ReadLenPrefixed(data, offset);
    if callee.None? || |callee.value| > MAX_METHOD_LEN || !IsAscii(callee.value) { return None; }
    len, offset := ReadExact(data, offset, 4);
    if len.None? || FromBigEndian(len.value) > MAX_UPDATE_ARG_LEN { return None; }
    arg, offset := ReadExact(data, offset, FromBigEndian(len.value));
    if arg.None? || offset != |data| { return None; }
    r := Some(Update(target.value, callee.value, arg.value));
  }

  method ReadCompactPrincipal(data: bytes, offset: nat) returns (r: Result<bytes, ArgError>, next: nat)
    requires offset <= |data|
    ensures match CompactPrincipal(data[offset..])
            case Err(e) => r == Err(e)
            case Ok((b, rest)) => r == Ok(b) && next <= |data| && data[next..] == rest
  {
    next := offset;
    if next >= |data| { return Err(AbiInvalid), next; }
    var len := data[next];
    next := next + 1;
    if !(1 <= len <= MAX_PRINCIPAL_LEN) { return Err(PrincipalInvalid), next; }
    var end := next + MAX_PRINCIPAL_LEN;
    if end > |data| { return Err(AbiInvalid), next; }
    var slot := data[next..end];
    assert forall i :: 0 <= i < MAX_PRINCIPAL_LEN ==> slot[i] == data[offset..][i + 1];
    for i := len to MAX_PRINCIPAL_LEN
      invariant forall j :: len <= j < i ==> slot[j] == 0
    {
      if slot[i] != 0 {
        assert data[offset..][i + 1] != 0;
        return Err(PaddingInvalid), next;
      }
    }
    assert forall i :: 1 + len <= i < 1 + MAX_PRINCIPAL_LEN ==> data[offset..][i] == slot[i - 1];
    assert slot[..len] == data[offset..][1..1 + len] && data[end..] == data[offset..][1 + MAX_PRINCIPAL_LEN..];
    r, next := Ok(slot[..len]), end;
  }

  method ParseCompactInput(input: bytes) returns (r: Result<Unwrap, ArgError>)
    ensures r == UnwrapInput(input)
  {
    hide CompactPrincipal;
    if |input| != UNWRAP_INPUT_LEN { return Err(AbiInvalid); }
    if input[0] != 1 { return Err(AbiInvalid); }
    var offset: nat := 1;
    var asset, amount, recipient;
    asset, offset := ReadCompactPrincipal(input, offset);
    if asset.Err? { return Err(asset.error); }
    amount, offset := ReadExact(input, offset, 32);
    if amount.None? { return Err(AmountInvalid); }
    recipient, offset := ReadCompactPrincipal(input, offset);
    if recipient.Err? { return Err(recipient.error); }
    if offset != |input| { return Err(AbiInvalid); }
    r := Ok(Unwrap(asset.value, amount.value, recipient.value));
  }

  method ParseIcpUpdateIntentInput(input: bytes) returns (r: Result<Update, ArgError>)
    ensures r == UpdateInput(input)
  {
    hide FromBigEndian, IsAscii;
    if |input| < 8 { return Err(AbiInvalid); }
    if input[0] != 1 { return Err(VersionInvalid); }
    if input[1] != 1 { return Err(KindInvalid); }
    if !(1 <= input[2] <= MAX_PRINCIPAL_LEN) { return Err(TargetInvalid); }
    var offset: nat := 3;
    var target, callee, len, arg;
    target, offset := ReadExact(input, offset, input[2]);
    if target.None? || offset >= |input| { return Err(AbiInvalid); }
    var calleeLen := input[offset];
    assert input[offset..][1..] == input[offset + 1..];
    if calleeLen == 0 || calleeLen > MAX_METHOD_LEN { return Err(MethodInvalid); }
    callee, offset := ReadExact(input, offset + 1, calleeLen);
    if callee.None? || !IsAscii(callee.value) { return Err(MethodInvalid); }
    len, offset := ReadExact(input, offset, 4);
    if len.None? { return Err(AbiInvalid); }
    if FromBigEndian(len.value) > MAX_UPDATE_ARG_LEN { return Err(ArgTooLarge); }
    arg, offset := ReadExact(input, offset, FromBigEndian(len.value));
    if arg.None? || offset != |input| { return Err(AbiInvalid); }
    r := Ok(Update(target.value, callee.value, arg.value));
  }
}
