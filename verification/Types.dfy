/** Identifiers and the pure decisions of `crates/verified-core` shared by the mempool and the ledger. */
module Types {
  import opened Common

  datatype TxKind = EthSigned | IcSynthetic

  type Sender = nat

  // The empty principal is not counted against the per-principal cap.
  type Principal = nat
  const EMPTY_PRINCIPAL: Principal := 0

  /** A transaction id is a hash of the raw transaction, so it determines the kind, the sender and the nonce;
      `hash` is the numeric value of its 32 bytes, which orders the ids. */
  datatype TxId = TxId(hash: nat, kind: TxKind, sender: Sender, nonce: nat)

  datatype Slot = Slot(sender: Sender, nonce: nat)

  function SlotOf(id: TxId): Slot { Slot(id.sender, id.nonce) }

  /** `effective_gas_price`: the base fee and the tip, capped by the maximum fee; None when the bid cannot pay the base
      fee or does not fit 64 bits. */
  function EffectiveGasPrice(maxFee: nat, maxPriority: nat, baseFee: nat): (r: Option<nat>)
    ensures r.Some? ==> r.value <= maxFee && r.value <= baseFee + maxPriority
    ensures r.Some? ==> r.value == maxFee || r.value == baseFee + maxPriority
    ensures r.Some? ==> baseFee <= r.value <= U64_MAX
    ensures r.None? <==> maxPriority > maxFee || maxFee < baseFee || Min(maxFee, baseFee + maxPriority) > U64_MAX
  {
    if maxPriority > maxFee || maxFee < baseFee then None
    else
      var capped := Min(maxFee, SatAdd(baseFee, maxPriority, U128_MAX));
      if capped > U64_MAX then None else Some(capped)
  }

  /** `min_fee_satisfied` */
  predicate MinFeeSatisfied(gasPrice: nat, priority: Option<nat>, baseFee: nat, minPriority: nat, minGasPrice: nat) {
    match priority
    case Some(p) =>
      p >= minPriority && gasPrice >= baseFee && gasPrice >= SatAdd(baseFee, minPriority, U128_MAX)
    case None => gasPrice >= minGasPrice
  }

  /** The order of the ids' bytes; what follows the hash only settles which of two equal hashes comes first. */
  predicate IdLess(a: TxId, b: TxId) {
    a.hash < b.hash
    || (a.hash == b.hash
        && (a.sender < b.sender
            || (a.sender == b.sender
                && (a.nonce < b.nonce || (a.nonce == b.nonce && a.kind.EthSigned? && b.kind.IcSynthetic?)))))
  }
}
