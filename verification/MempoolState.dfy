/** The mempool's maps as the source keeps them, updated in place. Every method is proved equal to the function
    of `Mempool` it implements; what those functions keep is proved in `MempoolInv`, `MempoolSafe`, `MempoolRun`. */
module MempoolState {
  import opened Common
  import opened Types
  import opened M = Mempool
  import opened MempoolInv
  import opened S = MempoolSafe
  import opened R = MempoolRun

  // ---------------------------------------------------------------- the loop against the recursion

  /** What the loop of `advance_sender_after_tx` needs: the sender/nonce maps agree and nothing pending has
      already been dropped. */
  ghost predicate Linked(p: Pool) {
    Paired(p.pending, p.meta) && forall id :: id in p.meta && id in p.txs.locs ==> !p.txs.locs[id].Dropped?
  }

  lemma DetachLinked(p: Pool, id: TxId, k: Slot, bump: bool, account: nat)
    requires Linked(p) && id in p.meta && p.meta[id] == k
    ensures Linked(Detach(p, id, k, bump, account))
  {
  }

  lemma MarkDroppedLinked(p: Pool, id: TxId, code: nat)
    requires Linked(p) && id !in p.meta
    ensures Linked(MarkDropped(p, id, code))
  {
  }

  lemma {:induction false} RefillLinked(p: Pool, s: Sender, cursor: nat)
    requires Linked(p)
    ensures Linked(Refill(p, s, cursor))
    decreases |p.pending|
  {
    RefillEnds(p, s, cursor);
    match NextPending(p.pending, s, cursor)
    case None =>
    case Some(n) =>
      var k := Slot(s, n);
      if !Loads(p, k) {
        RefillStep(p, s, cursor, n);
        hide Refill, Loads, Purge;
        var q := p.(minNonce := p.minNonce[s := n]);
        DetachLinked(q, p.pending[k], k, false, 0);
        var d := Detach(q, p.pending[k], k, false, 0);
        RefillLinked(d, s, n);
        RefillShrinks(d, s, n);
        MarkDroppedLinked(Refill(d, s, n), p.pending[k], DropCode(p, k));
      }
  }

  /** Refilling again from `cursor` would change nothing. */
  ghost predicate Settled(p: Pool, s: Sender, cursor: nat) {
    match NextPending(p.pending, s, cursor)
    case None => s !in p.minNonce
    case Some(n) =>
      && Get(p.minNonce, s) == Some(n)
      && var l := LoadFee(p.txs, p.pending[Slot(s, n)]);
         l.Fields? && InsertReady(p.ready, p.pending[Slot(s, n)], l.pay, l.sn) == p.ready
  }

  lemma SettledRefill(p: Pool, s: Sender, cursor: nat)
    requires Settled(p, s, cursor)
    ensures Refill(p, s, cursor) == p
  {
    RefillEnds(p, s, cursor);
    hide Refill, LoadFee, InsertReady;
    match NextPending(p.pending, s, cursor)
    case None => assert p.minNonce - {s} == p.minNonce;
    case Some(n) => assert p.minNonce[s := n] == p.minNonce;
  }

  lemma LoadFeeKept(t: Records, id: TxId, code: nat, other: TxId)
    requires other != id && (other in t.locs ==> !t.locs[other].Dropped?)
    ensures LoadFee(Purge(t, id, code), other) == LoadFee(t, other)
  {
    PurgeKeeps(t, id, code);
    hide Purge;
  }

  lemma MarkDroppedSettled(p: Pool, s: Sender, cursor: nat, id: TxId, code: nat)
    requires Linked(p) && id !in p.meta && Settled(p, s, cursor)
    ensures Settled(MarkDropped(p, id, code), s, cursor)
  {
    hide Purge, RemoveFee, LoadFee, InsertReady;
    match NextPending(p.pending, s, cursor)
    case None =>
    case Some(n) => LoadFeeKept(p.txs, id, code, p.pending[Slot(s, n)]);
  }

  lemma SettledSame(p: Pool, s: Sender, a: nat, b: nat)
    requires Settled(p, s, a) && NextPending(p.pending, s, a) == NextPending(p.pending, s, b)
    ensures Settled(p, s, b)
  {
  }

  lemma {:induction false} RefillShrinksPending(p: Pool, s: Sender, cursor: nat)
    ensures Refill(p, s, cursor).pending.Keys <= p.pending.Keys
    decreases |p.pending|
  {
    match NextPending(p.pending, s, cursor)
    case None =>
    case Some(n) =>
      var k := Slot(s, n);
      if !Loads(p, k) {
        RefillStep(p, s, cursor, n);
        hide Refill, Loads, Purge;
        RefillShrinksPending(Detach(p.(minNonce := p.minNonce[s := n]), p.pending[k], k, false, 0), s, n);
      }
  }

  lemma {:induction false} RefillSettles(p: Pool, s: Sender, cursor: nat)
    requires Linked(p)
    ensures Settled(Refill(p, s, cursor), s, cursor)
    decreases |p.pending|
  {
    RefillEnds(p, s, cursor);
    match NextPending(p.pending, s, cursor)
    case None =>
    case Some(n) =>
      if Loads(p, Slot(s, n)) { ReadySettled(p, s, cursor, n); } else { DroppedSettles(p, s, cursor, n); }
  }

  lemma ReadySettled(p: Pool, s: Sender, cursor: nat, n: nat)
    requires NextPending(p.pending, s, cursor) == Some(n) && Loads(p, Slot(s, n))
    ensures Settled(Refill(p, s, cursor), s, cursor)
  {
    RefillEnds(p, s, cursor);
    hide Refill, LoadFee;
  }

  /** After one unreadable successor is dropped, the loop's second look at the queue finds nothing to do. */
  lemma {:induction false} DroppedSettles(p: Pool, s: Sender, cursor: nat, n: nat)
    requires Linked(p) && NextPending(p.pending, s, cursor) == Some(n) && !Loads(p, Slot(s, n))
    ensures Settled(Refill(p, s, cursor), s, cursor) && Settled(Refill(p, s, cursor), s, n)
    decreases |p.pending|, 0
  {
    var k := Slot(s, n);
    RefillStep(p, s, cursor, n);
    hide Refill, Loads, Purge, Settled, LoadFee;
    var q := p.(minNonce := p.minNonce[s := n]);
    var d := Detach(q, p.pending[k], k, false, 0);
    DetachLinked(q, p.pending[k], k, false, 0);
    RefillSettles(d, s, n);
    RefillLinked(d, s, n);
    RefillShrinks(d, s, n);
    RefillShrinksPending(d, s, n);
    var mid := Refill(d, s, n);
    MarkDroppedSettled(mid, s, n, p.pending[k], DropCode(p, k));
    hide Linked;
    assert forall m :: Slot(s, m) in mid.pending ==> Slot(s, m) in p.pending && m != n;
    NextSame(mid.pending, s, n, cursor);
    SettledSame(MarkDropped(mid, p.pending[k], DropCode(p, k)), s, n, cursor);
  }

  /** One round of the loop over an unreadable successor: the drop it starts does the rest of the refill too,
      and leaves nothing for the next round. */
  lemma RefillRound(p: Pool, s: Sender, cursor: nat, n: nat)
    requires Linked(p) && NextPending(p.pending, s, cursor) == Some(n) && !Loads(p, Slot(s, n))
    ensures var q := p.(minNonce := p.minNonce[s := n]);
            var r := Refill(p, s, cursor);
            && Linked(q) && p.pending[Slot(s, n)] in q.meta && Linked(r)
            && r == Drop(q, p.pending[Slot(s, n)], None, DropCode(p, Slot(s, n)))
            && Refill(r, s, n) == r
            && |r.pending| < |p.pending|
  {
    var k := Slot(s, n);
    RefillStep(p, s, cursor, n);
    hide Refill, Purge, Loads, LoadFee, RemoveReady, RemoveFee, DecrementPrincipal, DropCode;
    var d := Detach(p.(minNonce := p.minNonce[s := n]), p.pending[k], k, false, 0);
    RefillShrinksPending(d, s, n);
    S.SubsetSize(Refill(d, s, n).pending.Keys, d.pending.Keys);
    DroppedSettles(p, s, cursor, n);
    hide Settled;
    SettledRefill(Refill(p, s, cursor), s, n);
    RefillLinked(p, s, cursor);
  }

  lemma SlotIsPending(p: Pool, id: TxId)
    requires Linked(p) && id in p.meta
    ensures p.meta[id] in p.pending
  {
  }

  lemma AdvanceParts(p: Pool, id: TxId, over: Option<Slot>, bump: bool, account: nat, k: Slot)
    requires Linked(p) && (if id in p.meta then p.meta[id] == k else over == Some(k) && k !in p.pending)
    ensures var d := Detach(p, id, k, bump, account);
            && Linked(d) && id !in d.meta
            && |d.pending| == |p.pending| - (if id in p.meta then 1 else 0)
            && Advance(p, id, over, bump, account)
               == if Get(d.minNonce, k.sender) == Some(k.nonce) then Refill(d, k.sender, k.nonce) else d
  {
    hide Refill, RemoveReady, RemoveFee, DecrementPrincipal, Linked, BumpExpected;
    if id in p.meta {
      DetachLinked(p, id, k, bump, account);
      SlotIsPending(p, id);
      Shrinks(p.pending, k);
    } else {
      DetachAbsent(p, id, k, bump, account);
    }
  }

  lemma DetachAbsent(p: Pool, id: TxId, k: Slot, bump: bool, account: nat)
    requires Linked(p) && id !in p.meta && k !in p.pending
    ensures var d := Detach(p, id, k, bump, account); Linked(d) && d.pending == p.pending
  {
  }

  // ---------------------------------------------------------------- the maps

  class Maps {
    var pendingBySenderNonce: map<Slot, TxId>
    var pendingMetaByTxId: map<TxId, Slot>
    var pendingMinNonce: map<Sender, nat>
    var pendingCurrentBySender: map<Sender, TxId>
    var senderExpectedNonce: map<Sender, nat>
    var principalPendingCount: map<Principal, nat>
    var ready: Ready
    var fees: Fees
    var txs: Records
    var queueTail: nat
    var chainConfig: Config

    function View(): Pool
      reads this
    {
      Pool(pendingBySenderNonce, pendingMetaByTxId, pendingMinNonce, pendingCurrentBySender, senderExpectedNonce,
           principalPendingCount, ready, fees, txs, queueTail, chainConfig)
    }

    constructor (cfg: Config)
      ensures View() == Fresh(cfg)
    {
      pendingBySenderNonce, pendingMetaByTxId, pendingMinNonce, pendingCurrentBySender := map[], map[], map[], map[];
      senderExpectedNonce, principalPendingCount := map[], map[];
      ready, fees := Ready(map[], map[], map[]), Fees(map[], map[]);
      txs := Records(map[], map[], {}, {}, map[], 0, 0);
      queueTail := 0;
      chainConfig := cfg;
    }

    method RemoveReadyByTxId(id: TxId)
      modifies this`ready
      ensures ready == RemoveReady(old(ready), id)
    {
      if id in ready.key {
        var k := ready.key[id];
        ready := ready.(key := ready.key - {id});
        ready := ready.(queue := ready.queue - {k});
        ready := ready.(bySeq := ready.bySeq - {SeqKey(k.sn, id)});
      }
    }

    method InsertReady(id: TxId, pay: Payload, sn: nat)
      requires pay.Good?
      modifies this`ready
      ensures ready == M.InsertReady(old(ready), id, pay, sn)
    {
      var key := ReadyKey(pay.maxFee, pay.Priority(), sn, id);
      ready := ready.(queue := ready.queue[key := id]);
      ready := ready.(bySeq := ready.bySeq[SeqKey(sn, id) := id]);
      ready := ready.(key := ready.key[id := key]);
    }

    method RemovePendingFeeIndexByTxId(id: TxId)
      modifies this`fees
      ensures fees == RemoveFee(old(fees), id)
    {
      if id in fees.key {
        var key := fees.key[id];
        fees := fees.(key := fees.key - {id});
        fees := fees.(index := fees.index - {key});
      }
    }

    method DecrementPrincipalPendingCountForTx(id: TxId)
      modifies this`principalPendingCount
      ensures principalPendingCount == DecrementPrincipal(old(principalPendingCount), txs, id)
    {
      if id in txs.store && txs.store[id].Good? {
        var who := txs.store[id].principal;
        var current := if who in principalPendingCount then principalPendingCount[who] else 0;
        if current <= 1 {
          principalPendingCount := principalPendingCount - {who};
        } else {
          principalPendingCount := principalPendingCount[who := current - 1];
        }
      }
    }

    method RemoveEthTxHashIndexForTxId(id: TxId)
      modifies this`txs
      ensures txs == RemoveEthIndex(old(txs), id)
    {
      if id in txs.store && txs.store[id].Good? && txs.store[id].kind == EthSigned {
        txs := txs.(ethIndex := txs.ethIndex - {id});
      }
    }

    method PushDroppedRing(id: TxId)
      modifies this`txs
      ensures txs == PushRing(old(txs), id)
    {
      var at := txs.ringNext;
      txs := txs.(ring := txs.ring[at := id], ringNext := SatAdd(at, 1, U64_MAX));
      if txs.ringLen < DROPPED_RING_CAPACITY {
        txs := txs.(ringLen := txs.ringLen + 1);
      } else {
        var evictAt := SatSub(at, DROPPED_RING_CAPACITY);
        if evictAt in txs.ring {
          var evicted := txs.ring[evictAt];
          txs := txs.(ring := txs.ring - {evictAt});
          var loc := TxLocsGet(txs, evicted);
          if loc.Some? && loc.value.Dropped? { txs := txs.(locs := txs.locs - {evicted}); }
        }
      }
    }

    method MarkDroppedAndPurgePayload(id: TxId, code: nat)
      modifies this`fees, this`txs
      ensures View() == MarkDropped(old(View()), id, code)
    {
      hide RemoveFee, RemoveEthIndex, PushRing;
      RemovePendingFeeIndexByTxId(id);
      RemoveEthTxHashIndexForTxId(id);
      txs := txs.(store := txs.store - {id});
      txs := txs.(locs := txs.locs[id := Dropped(code)]);
      PushDroppedRing(id);
    }

    method FinalizePendingForSender(sender: Sender, id: TxId, bump: bool, account: nat)
      modifies this`pendingCurrentBySender, this`senderExpectedNonce
      ensures pendingCurrentBySender == if Get(old(pendingCurrentBySender), sender) == Some(id)
                                        then old(pendingCurrentBySender) - {sender} else old(pendingCurrentBySender)
      ensures senderExpectedNonce == if bump then BumpExpected(old(senderExpectedNonce), sender, account)
              else old(senderExpectedNonce)
    {
      if sender in pendingCurrentBySender && pendingCurrentBySender[sender] == id {
        pendingCurrentBySender := pendingCurrentBySender - {sender};
      }
      if bump {
        var current := if sender in senderExpectedNonce then senderExpectedNonce[sender] else account;
        senderExpectedNonce := senderExpectedNonce[sender := SatAdd(current, 1, U64_MAX)];
      }
    }

    /** `range((sender, after + 1)..).next()`, if that entry is still the sender's. */
    method NextPendingForSender(sender: Sender, after: nat) returns (r: Option<(nat, TxId)>)
      ensures match NextPending(pendingBySenderNonce, sender, after)
              case None => r == None
              case Some(n) => r == Some((n, pendingBySenderNonce[Slot(sender, n)]))
    {
      var start := SatAdd(after, 1, U64_MAX);
      var rest := pendingBySenderNonce.Keys;
      r := None;
      while rest != {}
        invariant rest <= pendingBySenderNonce.Keys
        invariant r.None? ==>
                    forall k :: k in pendingBySenderNonce.Keys - rest ==> !(k.sender == sender && start <= k.nonce)
        invariant r.Some? ==>
                    && start <= r.value.0 && Slot(sender, r.value.0) in pendingBySenderNonce
                    && r.value.1 == pendingBySenderNonce[Slot(sender, r.value.0)]
                    && forall k :: k in pendingBySenderNonce.Keys - rest && k.sender == sender && start <= k.nonce
                         ==> r.value.0 <= k.nonce
        decreases |rest|
      {
        var k :| k in rest;
        if k.sender == sender && start <= k.nonce && (r.None? || k.nonce < r.value.0) {
          r := Some((k.nonce, pendingBySenderNonce[k]));
        }
        rest := rest - {k};
      }
      assert forall n ::
               Slot(sender, n) in pendingBySenderNonce ==> Slot(sender, n) in pendingBySenderNonce.Keys - rest;
    }

    method LoadFeeFieldsAndSeq(id: TxId) returns (r: Loaded)
      ensures r == LoadFee(txs, id)
    {
      if id !in txs.store { return Missing; }
      var envelope := txs.store[id];
      if envelope.Corrupt? { return Undecodable; }
      var loc := TxLocsGet(txs, id);
      if loc.None? { return Missing; }
      r := Fields(envelope, match loc.value case Queued(sn) => sn case _ => 0);
    }

    /** The straight-line part of `advance_sender_after_tx`. */
    method DetachFromQueue(id: TxId, key: Slot, bump: bool, account: nat)
      modifies this
      ensures View() == Detach(old(View()), id, key, bump, account)
    {
      hide RemoveReady, RemoveFee, DecrementPrincipal, BumpExpected;
      ghost var p := View();
      RemoveReadyByTxId(id);
      pendingMetaByTxId := pendingMetaByTxId - {id};
      pendingBySenderNonce := pendingBySenderNonce - {key};
      assert View() == p.(ready := RemoveReady(p.ready, id), meta := p.meta - {id}, pending := p.pending - {key});
      RemovePendingFeeIndexByTxId(id);
      DecrementPrincipalPendingCountForTx(id);
      FinalizePendingForSender(key.sender, id, bump, account);
    }

    /** `id` leaves the queue and its sender moves on to its next readable transaction. */
    method AdvanceSenderAfterTx(id: TxId, over: Option<Slot>, bump: bool, account: nat)
      requires Linked(View()) && (id in pendingMetaByTxId || over.None? || over.value !in pendingBySenderNonce)
      modifies this
      ensures View() == Advance(old(View()), id, over, bump, account)
      ensures Linked(View()) && id !in pendingMetaByTxId
      decreases |pendingBySenderNonce|, if id in pendingMetaByTxId then 0 else 1, 1
    {
      ghost var p := View();
      hide Linked, Detach, Refill, RemoveReady, RemoveFee, DecrementPrincipal;
      var key := if id in pendingMetaByTxId then Some(pendingMetaByTxId[id]) else over;
      if key.None? {
        LinkedIgnoresReady(p, RemoveReady(p.ready, id));
        RemoveReadyByTxId(id);
        return;
      }
      var k := key.value;
      AdvanceParts(p, id, over, bump, account, k);
      DetachFromQueue(id, k, bump, account);
      hide Advance;
      if Get(pendingMinNonce, k.sender) == Some(k.nonce) {
        RefillShrinks(View(), k.sender, k.nonce);
        ReadyNextPending(k.sender, k.nonce);
      }
    }

    /** The loop of `advance_sender_after_tx`: readies the sender's next readable transaction. A drop inside the
        loop advances the sender itself, so the loop's next round only confirms what that did. */
    method ReadyNextPending(sender: Sender, from: nat)
      requires Linked(View())
      modifies this
      ensures View() == Refill(old(View()), sender, from) && Linked(View())
      decreases |pendingBySenderNonce|, 1, 0
    {
      hide Linked, Refill, Drop, LoadFee, M.InsertReady;
      var cursor := from;
      RefillLinked(View(), sender, from);
      while true
        invariant Linked(View()) && |pendingBySenderNonce| <= old(|pendingBySenderNonce|)
        invariant Refill(View(), sender, cursor) == Refill(old(View()), sender, from)
        decreases |pendingBySenderNonce|
      {
        ghost var p := View();
        RefillEnds(p, sender, cursor);
        var next := NextPendingForSender(sender, cursor);
        if next.None? {
          pendingMinNonce := pendingMinNonce - {sender};
          return;
        }
        var (n, id) := next.value;
        var loaded := LoadFeeFieldsAndSeq(id);
        if !loaded.Fields? { RefillRound(p, sender, cursor, n); }
        pendingMinNonce := pendingMinNonce[sender := n];
        match loaded {
          case Fields(pay, sn) =>
            InsertReady(id, pay, sn);
            return;
          case Missing => DropInvalidFeePending(id, DROP_CODE_INVALID_FEE);
          case Undecodable => DropInvalidFeePending(id, DROP_CODE_DECODE);
        }
        cursor := n;
      }
    }

    /** `drop_invalid_fee_pending` and `drop_invalid_fee_pending_decode` */
    method DropInvalidFeePending(id: TxId, code: nat)
      requires Linked(View()) && id in pendingMetaByTxId
      modifies this
      ensures View() == Drop(old(View()), id, None, code) && Linked(View())
      decreases |pendingBySenderNonce|, 0, 2
    {
      hide Linked, Advance, MarkDropped;
      AdvanceSenderAfterTx(id, None, false, 0);
      MarkDroppedLinked(View(), id, code);
      MarkDroppedAndPurgePayload(id, code);
    }

    // -------------------------------------------------------------- submission

    method ReplacePendingForSender(sender: Sender, prev: TxId)
      modifies this
      ensures View() == Replace(old(View()), sender, prev)
    {
      hide RemoveReady, RemoveFee, DecrementPrincipal, Purge;
      ghost var p := View();
      RemoveReadyByTxId(prev);
      RemovePendingFeeIndexByTxId(prev);
      DecrementPrincipalPendingCountForTx(prev);
      assert View() == p.(ready := RemoveReady(p.ready, prev), fees := RemoveFee(p.fees, prev),
                          principals := DecrementPrincipal(p.principals, p.txs, prev));
      RemovePendingEntry(prev);
      pendingMinNonce := pendingMinNonce - {sender};
      pendingCurrentBySender := pendingCurrentBySender - {sender};
      MarkDroppedAndPurgePayload(prev, DROP_CODE_REPLACED);
    }

    method RemovePendingEntry(prev: TxId)
      modifies this`pendingBySenderNonce, this`pendingMetaByTxId
      ensures pendingBySenderNonce == if prev in old(pendingMetaByTxId)
              then old(pendingBySenderNonce) - {old(pendingMetaByTxId)[prev]}
                                      else old(pendingBySenderNonce)
      ensures pendingMetaByTxId == old(pendingMetaByTxId) - {prev}
    {
      if prev in pendingMetaByTxId {
        pendingBySenderNonce := pendingBySenderNonce - {pendingMetaByTxId[prev]};
        pendingMetaByTxId := pendingMetaByTxId - {prev};
      }
    }

    method ApplyNonceAndReplacement(sender: Sender, nonce: nat, price: nat, account: nat)
      returns (r: Result<Option<TxId>, ChainError>)
      modifies this
      ensures (View(), r) == ApplyNonce(old(View()), sender, nonce, price, account)
    {
      hide Replace;
      if sender !in senderExpectedNonce {
        senderExpectedNonce := senderExpectedNonce[sender := account];
      }
      var expected := senderExpectedNonce[sender];
      if nonce < expected { return Err(NonceTooLow); }
      if nonce > expected { return Err(NonceGap); }
      if sender !in pendingCurrentBySender { return Ok(None); }
      var prev := pendingCurrentBySender[sender];
      if prev !in txs.store || txs.store[prev].Corrupt? { return Err(NonceConflict); }
      var paid := txs.store[prev].Effective(chainConfig.baseFee);
      if paid.None? || price <= paid.value { return Err(NonceConflict); }
      ReplacePendingForSender(sender, prev);
      r := Ok(Some(prev));
    }

    method CountPendingForSender(sender: Sender) returns (n: nat)
      ensures n == |SlotsOf(View(), sender)|
    {
      var rest := pendingBySenderNonce.Keys;
      ghost var seen: set<Slot> := {};
      n := 0;
      while rest != {}
        invariant rest <= pendingBySenderNonce.Keys && n == |seen|
        invariant seen == set k | k in pendingBySenderNonce.Keys - rest && k.sender == sender
        decreases |rest|
      {
        var k :| k in rest;
        if k.sender == sender {
          n := n + 1;
          seen := seen + {k};
        }
        rest := rest - {k};
      }
      assert seen == SlotsOf(View(), sender);
    }

    method LowestFeeKey() returns (r: Option<FeeKey>)
      ensures r.None? ==> forall k :: k !in fees.index
      ensures r.Some? ==> IsLowestFee(fees.index, r.value)
    {
      var rest := fees.index.Keys;
      r := None;
      while rest != {}
        invariant rest <= fees.index.Keys
        invariant r.None? ==> rest == fees.index.Keys
        invariant r.Some? ==> r.value in fees.index.Keys - rest
                              && forall j :: j in fees.index.Keys - rest ==> j == r.value || FeeLess(r.value, j)
        decreases |rest|
      {
        var k :| k in rest;
        ghost var was := r;
        if r.None? || FeeLess(k, r.value) { r := Some(k); }
        forall j | j in fees.index.Keys - (rest - {k}) ensures j == r.value || FeeLess(r.value, j) {
          if was.Some? { FeeOrder(k, was.value, j); }
        }
        rest := rest - {k};
      }
    }

    /** `enforce_pending_caps`, with the eviction it may decide on. */
    method EnforcePendingCaps(sender: Sender, who: Principal, price: nat) returns (r: Result<(), ChainError>)
      requires Inv(View())
      modifies this
      ensures (View(), r) == EnforceCaps(old(View()), sender, who, price)
    {
      hide Inv, Drop, LowestFee;
      var senderCount := CountPendingForSender(sender);
      if senderCount >= MAX_PENDING_PER_SENDER { return Err(SenderQueueFull); }
      var principalCount := if who == EMPTY_PRINCIPAL || who !in principalPendingCount then 0
          else principalPendingCount[who];
      if principalCount >= MAX_PENDING_PER_PRINCIPAL { return Err(PrincipalQueueFull); }
      if |pendingBySenderNonce| < MAX_PENDING_GLOBAL { return Ok(()); }
      r := EvictLowestFeePending(price);
    }

    /** `evict_lowest_fee_pending` */
    method EvictLowestFeePending(price: nat) returns (r: Result<(), ChainError>)
      requires Inv(View())
      modifies this
      ensures var p := old(View());
              match LowestFee(p.fees.index)
              case None => View() == p && r == Err(QueueFull)
              case Some(low) =>
                if price <= low.price then View() == p && r == Err(QueueFull)
                else View() == Drop(p, p.fees.index[low], None, DROP_CODE_REPLACED) && r == Ok(())
    {
      ghost var p := View();
      InvLinked(p);
      hide Inv, Linked, Drop, Readable;
      var lowest := LowestFeeKey();
      LowestUnique(fees.index, lowest);
      if lowest.None? || price <= lowest.value.price { return Err(QueueFull); }
      LowestIsMinimal(p, lowest.value);
      DropInvalidFeePending(fees.index[lowest.value], DROP_CODE_REPLACED);
      r := Ok(());
    }

    method PromoteIfNextNonce(sender: Sender, id: TxId, nonce: nat, pay: Payload, sn: nat)
      requires pay.Good?
      modifies this`pendingMinNonce, this`ready
      ensures View() == Promote(old(View()), sender, id, nonce, pay, sn)
    {
      if sender !in pendingMinNonce {
        pendingMinNonce := pendingMinNonce[sender := nonce];
        InsertReady(id, pay, sn);
      } else if nonce < pendingMinNonce[sender] {
        var least := Slot(sender, pendingMinNonce[sender]);
        if least in pendingBySenderNonce { RemoveReadyByTxId(pendingBySenderNonce[least]); }
        pendingMinNonce := pendingMinNonce[sender := nonce];
        InsertReady(id, pay, sn);
      }
    }

    method TrackPendingIndexesOnInsert(id: TxId, who: Principal, price: nat)
      modifies this`principalPendingCount, this`fees
      ensures principalPendingCount == IncrementPrincipal(old(principalPendingCount), who)
      ensures fees == InsertFee(old(fees), id, price)
    {
      CountPrincipal(who);
      var key := FeeKey(price, id);
      fees := fees.(index := fees.index[key := id]);
      fees := fees.(key := fees.key[id := key]);
    }

    /** `submit_tx` and `submit_ic_tx_input` */
    method SubmitTx(id: TxId, req: Request) returns (r: Result<TxId, ChainError>)
      requires Inv(View()) && id.nonce <= U64_MAX
      modifies this
      ensures (View(), r) == Submit(old(View()), id, req)
      ensures Inv(View())
    {
      ghost var p := View();
      ghost var victim := SubmitSpec(p, id, req);
      CacheInv(p, id.sender, req.account);
      hide Inv, CountsExact, Submitted, ApplyNonce, EnforceCaps, Accept;
      var screened := Screen(View(), id, req);
      if screened.Err? { return Err(screened.error); }
      var price := screened.value;
      var replaced := ApplyNonceAndReplacement(id.sender, id.nonce, price, req.account);
      if replaced.Err? { return Err(replaced.error); }
      if replaced.value.None? {
        NotReplaced(p, id.sender, id.nonce, price, req.account);
        var room := EnforcePendingCaps(id.sender, req.principal, price);
        if room.Err? { return Err(room.error); }
      }
      if SlotOf(id) in pendingBySenderNonce { return Err(NonceConflict); }
      Enqueued(id, PayloadOf(id, req), price);
      r := Ok(id);
    }

    /** The writes of an accepted submission. */
    method Enqueued(id: TxId, pay: Payload, price: nat)
      requires pay.Good?
      modifies this
      ensures View() == Accept(old(View()), id, pay, price)
    {
      hide Promote, InsertFee, IncrementPrincipal, AddedRecords;
      ghost var p := View();
      pendingCurrentBySender := pendingCurrentBySender[id.sender := id];
      var sn := queueTail;
      queueTail := SatAdd(sn, 1, U64_MAX);
      RecordQueued(id, pay, sn);
      assert View() == p.(current := p.current[id.sender := id], tail := SatAdd(sn, 1, U64_MAX),
                          txs := AddedRecords(p.txs, id, pay, sn));
      ghost var q := View();
      pendingBySenderNonce := pendingBySenderNonce[SlotOf(id) := id];
      pendingMetaByTxId := pendingMetaByTxId[id := SlotOf(id)];
      TrackPendingIndexesOnInsert(id, pay.principal, price);
      assert View() == q.(pending := q.pending[SlotOf(id) := id], meta := q.meta[id := SlotOf(id)],
                          principals := IncrementPrincipal(q.principals, pay.principal),
                          fees := InsertFee(q.fees, id, price));
      PromoteIfNextNonce(id.sender, id, id.nonce, pay, sn);
    }

    method RecordQueued(id: TxId, pay: Payload, sn: nat)
      requires pay.Good?
      modifies this`txs
      ensures txs == AddedRecords(old(txs), id, pay, sn)
    {
      txs := txs.(seen := txs.seen + {id});
      txs := txs.(store := txs.store[id := pay]);
      if pay.kind == EthSigned { txs := txs.(ethIndex := txs.ethIndex + {id}); }
      txs := txs.(locs := txs.locs[id := Queued(sn)]);
    }

    // -------------------------------------------------------------- blocks, pruning, rebuilding

    /** `rebuild_pending_fee_index_for_base_fee` */
    method RebuildPendingFeeIndexForBaseFee(baseFee: nat)
      requires Paired(pendingBySenderNonce, pendingMetaByTxId)
      modifies this`fees
      ensures fees == RebuildFees(old(View()), baseFee)
    {
      hide RebuildFees, RebuiltSoFar, Paired;
      ghost var p := View();
      fees := Fees(map[], map[]);
      var rest := pendingBySenderNonce.Keys;
      RebuiltNone(p, baseFee);
      while rest != {}
        invariant rest <= pendingBySenderNonce.Keys && RebuiltSoFar(p, rest, fees, baseFee)
        decreases |rest|
      {
        var k :| k in rest;
        RebuiltStep(p, rest, fees, k, baseFee);
        var id := pendingBySenderNonce[k];
        rest := rest - {k};
        if id in txs.store && txs.store[id].Good? {
          var key := FeeKey(txs.store[id].Price(baseFee), id);
          fees := Fees(fees.index[key := id], fees.key[id := key]);
        }
      }
      RebuiltAll(p, fees, baseFee);
    }

    /** The staged drops of a block, in order. */
    method ApplyStagedDrops(drops: seq<StagedDrop>, ghost ids: seq<TxId>)
      requires Inv(View()) && Takes(View().meta.Keys, DropIds(drops) + ids)
      modifies this
      ensures View() == ApplyDrops(old(View()), drops) && Inv(View()) && Takes(View().meta.Keys, ids)
    {
      hide Inv, Takes, Drop, ApplyDrops;
      ghost var p := View();
      var i := 0;
      while i < |drops|
        invariant 0 <= i <= |drops| && Inv(View()) && Takes(View().meta.Keys, DropIds(drops[i..]) + ids)
        invariant ApplyDrops(View(), drops[i..]) == ApplyDrops(p, drops)
      {
        DropNext(View(), drops[i..], ids);
        assert drops[i..][1..] == drops[i + 1..];
        InvLinked(View());
        DropQueued(drops[i].id, drops[i].over, drops[i].code);
        i := i + 1;
      }
      NoMoreDrops(View(), ids);
      assert drops[i..] == [];
    }

    method DropQueued(id: TxId, over: Option<Slot>, code: nat)
      requires Linked(View()) && id in pendingMetaByTxId
      modifies this
      ensures View() == Drop(old(View()), id, over, code)
    {
      hide Linked, Advance, MarkDropped;
      AdvanceSenderAfterTx(id, over, false, 0);
      MarkDroppedAndPurgePayload(id, code);
    }

    method IncludeQueued(id: TxId, number: nat, index: nat, account: nat)
      requires Linked(View()) && id in pendingMetaByTxId
      modifies this
      ensures View() == Include(old(View()), id, number, index, account)
    {
      hide Linked, Advance;
      IncludedLinked(View(), id, number, index);
      txs := txs.(locs := txs.locs[id := Included(number, index)]);
      AdvanceSenderAfterTx(id, Some(SlotOf(id)), true, account);
    }

    /** The included transactions of a block, in order. */
    method ApplyIncluded(ids: seq<TxId>, number: nat, accounts: Sender -> nat)
      requires Inv(View()) && Takes(View().meta.Keys, ids)
      modifies this
      ensures View() == ApplyIncludes(old(View()), ids, number, 0, accounts) && Inv(View())
    {
      hide Inv, Takes, Include, ApplyIncludes;
      ghost var p := View();
      var i := 0;
      while i < |ids|
        invariant 0 <= i <= |ids| && Inv(View()) && Takes(View().meta.Keys, ids[i..])
        invariant ApplyIncludes(View(), ids[i..], number, i, accounts) == ApplyIncludes(p, ids, number, 0, accounts)
      {
        IncludeNext(View(), ids[i..], number, i, accounts);
        assert ids[i..][1..] == ids[i + 1..];
        InvLinked(View());
        IncludeQueued(ids[i], number, i, accounts(ids[i].sender));
        i := i + 1;
      }
      NoMoreIncludes(View(), number, i, accounts);
      assert ids[i..] == [];
    }

    /** What `produce_block` writes to the queue once it has decided which transactions to drop and include. */
    method CommitBlock(drops: seq<StagedDrop>, ids: seq<TxId>, number: nat, accounts: Sender -> nat, nextBaseFee: nat)
      requires Inv(View()) && Staged(View(), drops, ids)
      modifies this
      ensures View() == M.CommitBlock(old(View()), drops, ids, number, accounts, nextBaseFee)
      ensures Inv(View())
    {
      hide Inv, CountsExact, Staged, Takes, ApplyDrops, ApplyIncludes, RebuildFees, Placed, Paired;
      StagedPending(View(), drops, ids);
      CommitBlockInv(View(), drops, ids, number, accounts, nextBaseFee);
      ApplyStagedDrops(drops, ids);
      ApplyIncluded(ids, number, accounts);
      InvPaired(View());
      RebuildFeesIgnoresConfig(View(), chainConfig.(baseFee := nextBaseFee), nextBaseFee);
      chainConfig := chainConfig.(baseFee := nextBaseFee);
      RebuildPendingFeeIndexForBaseFee(nextBaseFee);
    }

    /** What pruning does to the queue's records of one transaction of the pruned block. */
    method ForgetTx(id: TxId)
      modifies this
      ensures View() == Forget(old(View()), id)
    {
      hide RemoveFee, DecrementPrincipal, RemoveEthIndex;
      RemovePendingFeeIndexByTxId(id);
      DecrementPrincipalPendingCountForTx(id);
      txs := txs.(locs := txs.locs - {id});
      RemoveEthTxHashIndexForTxId(id);
      txs := txs.(store := txs.store - {id});
      txs := txs.(seen := txs.seen - {id});
    }

    method CountPrincipal(who: Principal)
      modifies this`principalPendingCount
      ensures principalPendingCount == IncrementPrincipal(old(principalPendingCount), who)
    {
      var current := if who in principalPendingCount then principalPendingCount[who] else 0;
      principalPendingCount := principalPendingCount[who := SatAdd(current, 1, U32_MAX)];
    }

    /** One pass over the pending transactions counts them per principal. */
    method RecountPrincipals()
      requires Paired(pendingBySenderNonce, pendingMetaByTxId) && |pendingMetaByTxId| <= MAX_PENDING_GLOBAL
      requires forall id :: id in pendingMetaByTxId ==> Readable(txs, id)
      modifies this`principalPendingCount
      ensures principalPendingCount == Recount(old(View()))
    {
      hide Mine, Recount, IncrementPrincipal;
      ghost var p := View();
      principalPendingCount := map[];
      var rest := pendingBySenderNonce.Keys;
      ghost var done: map<TxId, Slot> := map[];
      MineNone(txs);
      while rest != {}
        invariant rest <= pendingBySenderNonce.Keys
        invariant forall id :: id in done <==> id in pendingMetaByTxId && pendingMetaByTxId[id] !in rest
        invariant forall id :: id in done ==> done[id] == pendingMetaByTxId[id]
        invariant forall w: Principal :: CountOf(principalPendingCount, w) == |Mine(done, txs, w)|
        invariant forall w :: w in principalPendingCount ==> principalPendingCount[w] >= 1
        decreases |rest|
      {
        var k :| k in rest;
        var id := pendingBySenderNonce[k];
        // A payload that is missing is skipped, one that does not decode is dropped, and so is skipped an id without
        // its entry: none of these is among the pending transactions of a reachable state.
        if id !in txs.store || txs.store[id].Corrupt? || id !in pendingMetaByTxId {
          assert false;
        } else {
          CountOneMore(done, txs, id, k);
          MineBound(done, txs, txs.store[id].principal);
          SubsetSize(done.Keys, pendingMetaByTxId.Keys);
          rest := rest - {k};
          done := done[id := k];
          CountIncrement(principalPendingCount, txs.store[id].principal);
          CountPrincipal(txs.store[id].principal);
        }
      }
      assert done == pendingMetaByTxId;
      RecountUnique(p, principalPendingCount);
    }

    /** The arrival view filled again from the entries by id. */
    method RefillReadyBySeq()
      modifies this`ready
      ensures ready == old(ready).(bySeq := SeqView(old(ready).key))
    {
      ready := ready.(bySeq := map[]);
      var rest := ready.key.Keys;
      while rest != {}
        invariant rest <= ready.key.Keys && ready == old(ready).(bySeq := ready.bySeq)
        invariant forall k :: k in ready.bySeq <==> k.id in ready.key && k.id !in rest && ready.key[k.id].sn == k.sn
        invariant forall k :: k in ready.bySeq ==> ready.bySeq[k] == k.id
        decreases |rest|
      {
        var id :| id in rest;
        ready := ready.(bySeq := ready.bySeq[SeqKey(ready.key[id].sn, id) := id]);
        rest := rest - {id};
      }
    }

    /** `rebuild_pending_runtime_indexes` */
    method RebuildPendingRuntimeIndexes()
      requires Inv(View())
      modifies this
      ensures View() == RebuildRuntime(old(View()))
    {
      hide Inv, Recount, RebuildFees, SeqView, Paired;
      ghost var p := View();
      RebuildNeeds(p);
      RecountPrincipals();
      RebuildFeesIgnoresCounts(p, principalPendingCount, chainConfig.baseFee);
      RebuildPendingFeeIndexForBaseFee(chainConfig.baseFee);
      RefillReadyBySeq();
    }
  }

  lemma RebuildNeeds(p: Pool)
    requires Inv(p)
    ensures Paired(p.pending, p.meta) && |p.meta| <= MAX_PENDING_GLOBAL
    ensures forall id :: id in p.meta ==> Readable(p.txs, id)
  {
    hide ReadyKeysOk, Filed, OnePerSender, CountsAtMost, Named;
    CoreParts(p);
  }

  lemma MineNone(t: Records)
    ensures forall w: Principal :: Mine(map[], t, w) == {}
  {
  }

  lemma CountIncrement(counts: map<Principal, nat>, who: Principal)
    requires CountOf(counts, who) < U32_MAX
    ensures forall w: Principal ::
              CountOf(IncrementPrincipal(counts, who), w) == CountOf(counts, w) + (if w == who then 1 else 0)
    ensures (forall w :: w in counts ==> counts[w] >= 1) ==>
              forall w :: w in IncrementPrincipal(counts, who) ==> IncrementPrincipal(counts, who)[w] >= 1
  {
  }

  lemma InvPaired(p: Pool)
    requires Inv(p)
    ensures Paired(p.pending, p.meta)
  {
  }

  lemma RebuildFeesIgnoresConfig(p: Pool, cfg: Config, baseFee: nat)
    ensures RebuildFees(p.(cfg := cfg), baseFee) == RebuildFees(p, baseFee)
  {
  }

  /** The fee views hold the pending transactions whose slots are not in `rest`. */
  ghost predicate RebuiltSoFar(p: Pool, rest: set<Slot>, f: Fees, baseFee: nat) {
    && FeesAgree(f)
    && (forall id :: id in f.key <==> id in p.meta && p.meta[id] !in rest && Readable(p.txs, id))
    && (forall id :: id in f.key && Readable(p.txs, id) ==> f.key[id] == FeeKey(p.txs.store[id].Price(baseFee), id))
  }

  lemma RebuiltNone(p: Pool, baseFee: nat)
    requires Paired(p.pending, p.meta)
    ensures RebuiltSoFar(p, p.pending.Keys, Fees(map[], map[]), baseFee)
  {
  }

  lemma RebuiltStep(p: Pool, rest: set<Slot>, f: Fees, k: Slot, baseFee: nat)
    requires Paired(p.pending, p.meta) && RebuiltSoFar(p, rest, f, baseFee) && k in rest && k in p.pending
    ensures var id := p.pending[k];
            RebuiltSoFar(p, rest - {k}, if Readable(p.txs, id) then InsertFee(f, id, p.txs.store[id].Price(baseFee))
                else f, baseFee)
  {
    hide Payload.Price;
    var id := p.pending[k];
    if Readable(p.txs, id) { InsertFeeAgree(f, id, p.txs.store[id].Price(baseFee)); }
    hide FeesAgree;
  }

  lemma RebuiltAll(p: Pool, f: Fees, baseFee: nat)
    requires Paired(p.pending, p.meta) && RebuiltSoFar(p, {}, f, baseFee)
    ensures f == RebuildFees(p, baseFee)
  {
    RebuiltFees(p, f, baseFee);
  }

  lemma RebuildFeesIgnoresCounts(p: Pool, counts: map<Principal, nat>, baseFee: nat)
    ensures RebuildFees(p.(principals := counts), baseFee) == RebuildFees(p, baseFee)
  {
  }

  lemma NoMoreDrops(p: Pool, ids: seq<TxId>)
    ensures ApplyDrops(p, []) == p && DropIds([]) + ids == ids
  {
  }

  lemma NoMoreIncludes(p: Pool, number: nat, index: nat, accounts: Sender -> nat)
    ensures ApplyIncludes(p, [], number, index, accounts) == p
  {
  }

  lemma RebuiltFees(p: Pool, f: Fees, baseFee: nat)
    requires Paired(p.pending, p.meta) && FeesAgree(f)
    requires forall id :: id in f.key <==> id in p.meta && Readable(p.txs, id)
    requires forall id :: id in f.key && Readable(p.txs, id) ==> f.key[id] == FeeKey(p.txs.store[id].Price(baseFee), id)
    ensures f == RebuildFees(p, baseFee)
  {
    var g := RebuildFees(p, baseFee);
    var ids := set k | k in p.pending && Readable(p.txs, p.pending[k]) :: p.pending[k];
    forall id ensures id in ids <==> id in p.meta && Readable(p.txs, id) {
      if id in p.meta { assert p.pending[p.meta[id]] == id; }
    }
    assert f.key == g.key;
    forall k ensures k in f.index <==> k in g.index {
      if k in f.index { assert f.key[k.id] == k; }
      if k in g.index { assert k == FeeKey(p.txs.store[k.id].Price(baseFee), k.id) && f.key[k.id] in f.index; }
    }
    assert f.index == g.index;
  }

  lemma TakesTail(s: set<TxId>, drops: seq<StagedDrop>, ids: seq<TxId>)
    requires drops != [] && Takes(s, DropIds(drops) + ids)
    ensures drops[0].id in s && Takes(s - {drops[0].id}, DropIds(drops[1..]) + ids)
  {
    var all := DropIds(drops) + ids;
    assert all[0] == drops[0].id && all[1..] == DropIds(drops[1..]) + ids;
  }

  lemma DropNext(p: Pool, drops: seq<StagedDrop>, ids: seq<TxId>)
    requires Inv(p) && drops != [] && Takes(p.meta.Keys, DropIds(drops) + ids)
    ensures var q := Drop(p, drops[0].id, drops[0].over, drops[0].code);
            && drops[0].id in p.meta && Inv(q) && Takes(q.meta.Keys, DropIds(drops[1..]) + ids)
            && ApplyDrops(q, drops[1..]) == ApplyDrops(p, drops)
  {
    hide Drop, Inv, CountsExact;
    TakesTail(p.meta.Keys, drops, ids);
    hide Takes, DropIds;
    DropStep(p, drops[0]);
    assert Drop(p, drops[0].id, drops[0].over, drops[0].code).meta.Keys == p.meta.Keys - {drops[0].id};
  }

  lemma IncludeNext(p: Pool, ids: seq<TxId>, number: nat, index: nat, accounts: Sender -> nat)
    requires Inv(p) && ids != [] && Takes(p.meta.Keys, ids)
    ensures var q := Include(p, ids[0], number, index, accounts(ids[0].sender));
            && ids[0] in p.meta && Inv(q) && Takes(q.meta.Keys, ids[1..])
            && ApplyIncludes(q, ids[1..], number, index + 1, accounts) == ApplyIncludes(p, ids, number, index, accounts)
  {
    hide Include, Inv, CountsExact;
    IncludeStep(p, ids[0], number, index, accounts(ids[0].sender));
    assert Include(p, ids[0], number, index, accounts(ids[0].sender)).meta.Keys == p.meta.Keys - {ids[0]};
  }

  lemma IncludedLinked(p: Pool, id: TxId, number: nat, index: nat)
    requires Linked(p)
    ensures Linked(p.(txs := p.txs.(locs := p.txs.locs[id := Included(number, index)])))
  {
  }

  lemma CountOneMore(done: map<TxId, Slot>, t: Records, id: TxId, k: Slot)
    requires id !in done && Readable(t, id)
    ensures forall w: Principal ::
              |Mine(done[id := k], t, w)| == |Mine(done, t, w)| + (if w == t.store[id].principal then 1 else 0)
  {
    forall w: Principal
      ensures |Mine(done[id := k], t, w)| == |Mine(done, t, w)| + (if w == t.store[id].principal then 1 else 0)
    {
      GrowByOne(Mine(done, t, w), Mine(done[id := k], t, w), id, w == t.store[id].principal);
    }
  }

  lemma RecountUnique(p: Pool, counts: map<Principal, nat>)
    requires forall w: Principal :: CountOf(counts, w) == |Mine(p.meta, p.txs, w)|
    requires forall w :: w in counts ==> counts[w] >= 1
    ensures counts == Recount(p)
  {
    var q := p.(principals := counts);
    assert CountsExact(q);
    assert CountsAtMost(q) by {
      forall w | w in counts ensures 1 <= counts[w] <= |Mine(q.meta, q.txs, w)| {
        assert CountOf(counts, w) == |Mine(p.meta, p.txs, w)|;
      }
    }
    RecountExact(q);
    assert Recount(q) == Recount(p);
  }

  lemma InvLinked(p: Pool)
    requires Inv(p)
    ensures Linked(p)
  {
  }

  lemma LowestUnique(idx: map<FeeKey, TxId>, r: Option<FeeKey>)
    requires r.None? ==> forall k :: k !in idx
    requires r.Some? ==> IsLowestFee(idx, r.value)
    ensures r == LowestFee(idx)
  {
  }

  lemma NotReplaced(p: Pool, sender: Sender, nonce: nat, price: nat, account: nat)
    requires ApplyNonce(p, sender, nonce, price, account).1 == Ok(None)
    ensures ApplyNonce(p, sender, nonce, price, account).0 == CacheExpected(p, sender, account)
  {
  }

  /** The fee index is strictly ordered. */
  lemma FeeOrder(a: FeeKey, b: FeeKey, c: FeeKey)
    ensures a == b || FeeLess(a, b) || FeeLess(b, a)
    ensures FeeLess(a, b) && FeeLess(b, c) ==> FeeLess(a, c)
    ensures FeeLess(a, b) ==> !FeeLess(b, a) && a != b
  {
  }

  lemma LinkedIgnoresReady(p: Pool, r: Ready)
    requires Linked(p)
    ensures Linked(p.(ready := r))
  {
  }
}
