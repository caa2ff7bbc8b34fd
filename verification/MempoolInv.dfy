/** What the mempool's maps have in common, in every state the operations reach. */
module MempoolInv {
  import opened Common
  import opened Types
  import opened Mempool

  // ---------------------------------------------------------------- the structural invariant

  /** Sender/nonce and reverse map are inverse. */
  ghost predicate Paired(pending: map<Slot, TxId>, meta: map<TxId, Slot>) {
    && (forall id :: id in meta ==> meta[id] in pending && pending[meta[id]] == id)
    && (forall k :: k in pending ==> pending[k] in meta && meta[pending[k]] == k && k.nonce <= U64_MAX)
  }

  lemma UnpairOne(pending: map<Slot, TxId>, meta: map<TxId, Slot>, k: Slot)
    requires Paired(pending, meta) && k in pending
    ensures Paired(pending - {k}, meta - {pending[k]})
  {
  }

  /** The three ready views hold the same set. */
  ghost predicate ReadyAgree(r: Ready) {
    && (forall id :: id in r.key ==>
          && r.key[id].id == id && r.key[id] in r.queue && SeqKey(r.key[id].sn, id) in r.bySeq)
    && (forall k :: k in r.queue ==> r.queue[k] == k.id && k.id in r.key && r.key[k.id] == k)
    && (forall k :: k in r.bySeq ==> r.bySeq[k] == k.id && k.id in r.key && r.key[k.id].sn == k.sn)
  }

  ghost predicate FeesAgree(f: Fees) {
    && (forall id :: id in f.key ==> f.key[id].id == id && f.key[id] in f.index)
    && (forall k :: k in f.index ==> f.index[k] == k.id && k.id in f.key && f.key[k.id] == k)
  }

  /** The sender's least pending nonce is recorded, and of its pending transactions exactly that one is ready. */
  ghost predicate SenderOk(p: Pool, s: Sender) {
    && (s in p.minNonce ==> Slot(s, p.minNonce[s]) in p.pending)
    && (forall n :: Slot(s, n) in p.pending ==>
          && s in p.minNonce && p.minNonce[s] <= n
          && (p.pending[Slot(s, n)] in p.ready.key <==> n == p.minNonce[s]))
  }

  ghost predicate CoreBut(p: Pool, except: Option<Sender>) {
    && Paired(p.pending, p.meta)
    && ReadyAgree(p.ready)
    && FeesAgree(p.fees)
    && p.ready.key.Keys <= p.meta.Keys
    && p.fees.key.Keys <= p.meta.Keys
    && (forall s: Sender :: except != Some(s) ==> SenderOk(p, s))
  }

  ghost predicate Core(p: Pool) { CoreBut(p, None) }

  /** None of the sender's pending transactions is ready, and all lie after `cursor`. */
  ghost predicate Awaiting(p: Pool, s: Sender, cursor: nat) {
    forall n :: Slot(s, n) in p.pending ==> SatAdd(cursor, 1, U64_MAX) <= n && p.pending[Slot(s, n)] !in p.ready.key
  }

  lemma RemoveReadyAgree(r: Ready, id: TxId)
    requires ReadyAgree(r)
    ensures ReadyAgree(RemoveReady(r, id)) && RemoveReady(r, id).key == r.key - {id}
  {
  }

  lemma InsertReadyAgree(r: Ready, id: TxId, pay: Payload, sn: nat)
    requires ReadyAgree(r) && pay.Good? && id !in r.key
    ensures ReadyAgree(InsertReady(r, id, pay, sn))
  {
  }

  lemma RemoveFeeAgree(f: Fees, id: TxId)
    requires FeesAgree(f)
    ensures FeesAgree(RemoveFee(f, id)) && RemoveFee(f, id).key == f.key - {id}
  {
  }

  /** Taking one transaction out of the queue disturbs nobody but its sender. */
  lemma DetachCore(p: Pool, id: TxId, key: Slot, bump: bool, account: nat, except: Option<Sender>)
    requires CoreBut(p, except) && id in p.meta && p.meta[id] == key
    requires except == None || except == Some(key.sender)
    ensures CoreBut(Detach(p, id, key, bump, account), Some(key.sender))
  {
    RemoveReadyAgree(p.ready, id);
    RemoveFeeAgree(p.fees, id);
    var q := Detach(p, id, key, bump, account);
    forall s: Sender | s != key.sender ensures SenderOk(q, s) {
      assert SenderOk(p, s);
    }
  }

  lemma MarkDroppedCore(p: Pool, id: TxId, code: nat)
    requires Core(p) && id !in p.meta
    ensures Core(MarkDropped(p, id, code)) && MarkDropped(p, id, code) == p.(txs := Purge(p.txs, id, code))
  {
  }

  /** `Refill` never adds to the queue. */
  lemma {:induction false} RefillShrinks(p: Pool, s: Sender, cursor: nat)
    ensures Refill(p, s, cursor).meta.Keys <= p.meta.Keys
    decreases |p.pending|
  {
    match NextPending(p.pending, s, cursor)
    case None =>
    case Some(n) =>
      var k := Slot(s, n);
      if !LoadFee(p.txs, p.pending[k]).Fields? {
        Shrinks(p.pending, k);
        RefillShrinks(Detach(p.(minNonce := p.minNonce[s := n]), p.pending[k], k, false, 0), s, n);
      }
  }

  function DropCode(p: Pool, k: Slot): nat
    requires k in p.pending
  {
    if LoadFee(p.txs, p.pending[k]).Missing? then DROP_CODE_INVALID_FEE else DROP_CODE_DECODE
  }

  predicate Loads(p: Pool, k: Slot)
    requires k in p.pending
  {
    LoadFee(p.txs, p.pending[k]).Fields?
  }

  lemma RefillEnds(p: Pool, s: Sender, cursor: nat)
    ensures match NextPending(p.pending, s, cursor)
            case None => Refill(p, s, cursor) == p.(minNonce := p.minNonce - {s})
            case Some(n) =>
              match LoadFee(p.txs, p.pending[Slot(s, n)])
              case Fields(pay, sn) =>
                Refill(p, s, cursor) == p.(minNonce := p.minNonce[s := n],
                                           ready := InsertReady(p.ready, p.pending[Slot(s, n)], pay, sn))
              case _ => true
  {
  }

  /** One unreadable successor: it is detached, the rest is refilled, and then its drop is recorded. */
  lemma RefillStep(p: Pool, s: Sender, cursor: nat, n: nat)
    requires NextPending(p.pending, s, cursor) == Some(n) && !Loads(p, Slot(s, n))
    ensures var k := Slot(s, n);
            var d := Detach(p.(minNonce := p.minNonce[s := n]), p.pending[k], k, false, 0);
            |d.pending| < |p.pending|
            && Refill(p, s, cursor) == MarkDropped(Refill(d, s, n), p.pending[k], DropCode(p, k))
  {
  }

  lemma NoneLeftCore(p: Pool, s: Sender, cursor: nat)
    requires CoreBut(p, Some(s)) && Awaiting(p, s, cursor) && NextPending(p.pending, s, cursor).None?
    ensures Core(p.(minNonce := p.minNonce - {s}))
  {
    var r := p.(minNonce := p.minNonce - {s});
    forall t: Sender ensures SenderOk(r, t) { if t != s { assert SenderOk(p, t); } }
  }

  lemma NextReadyCore(p: Pool, s: Sender, cursor: nat, n: nat, pay: Payload, sn: nat)
    requires CoreBut(p, Some(s)) && Awaiting(p, s, cursor) && IsNext(p.pending, s, cursor, n) && pay.Good?
    ensures Core(p.(minNonce := p.minNonce[s := n], ready := InsertReady(p.ready, p.pending[Slot(s, n)], pay, sn)))
  {
    var id := p.pending[Slot(s, n)];
    InsertReadyAgree(p.ready, id, pay, sn);
    var r := p.(minNonce := p.minNonce[s := n], ready := InsertReady(p.ready, id, pay, sn));
    assert r.ready.key.Keys == p.ready.key.Keys + {id};
    hide InsertReady, ReadyAgree;
    assert SenderOk(r, s) by { ReadySenderOk(p, r, s, cursor, n); }
    hide SenderOk, FeesAgree, Paired, Awaiting, IsNext;
    forall t: Sender | t != s ensures SenderOk(r, t) {
      OtherSenderOk(p, r, s, n, t);
    }
  }

  lemma ReadySenderOk(p: Pool, r: Pool, s: Sender, cursor: nat, n: nat)
    requires Awaiting(p, s, cursor) && IsNext(p.pending, s, cursor, n) && Paired(p.pending, p.meta)
    requires r.pending == p.pending && r.minNonce == p.minNonce[s := n]
    requires r.ready.key.Keys == p.ready.key.Keys + {p.pending[Slot(s, n)]}
    ensures SenderOk(r, s)
  {
  }

  /** Making one sender's transaction the ready one is nothing to the others. */
  lemma OtherSenderOk(p: Pool, r: Pool, s: Sender, n: nat, t: Sender)
    requires SenderOk(p, t) && t != s && Paired(p.pending, p.meta) && Slot(s, n) in p.pending
    requires r.pending == p.pending && r.minNonce == p.minNonce[s := n]
    requires r.ready.key.Keys == p.ready.key.Keys + {p.pending[Slot(s, n)]}
    ensures SenderOk(r, t)
  {
  }

  /** On any consistent pending set, with any number of nonces per sender and any payload readable or not,
      refilling restores the invariant for the sender. */
  lemma {:induction false} RefillCore(p: Pool, s: Sender, cursor: nat)
    requires CoreBut(p, Some(s)) && Awaiting(p, s, cursor)
    ensures Core(Refill(p, s, cursor))
    decreases |p.pending|
  {
    RefillEnds(p, s, cursor);
    match NextPending(p.pending, s, cursor)
    case None => NoneLeftCore(p, s, cursor);
    case Some(n) =>
      match LoadFee(p.txs, p.pending[Slot(s, n)])
      case Fields(pay, sn) => NextReadyCore(p, s, cursor, n, pay, sn);
      case _ =>
        RefillStep(p, s, cursor, n);
        var d := SkipNextCore(p, s, cursor, n);
        RefillCore(d, s, n);
        RefillShrinks(d, s, n);
        MarkDroppedCore(Refill(d, s, n), p.pending[Slot(s, n)], DropCode(p, Slot(s, n)));
  }

  lemma SkipNextCore(p: Pool, s: Sender, cursor: nat, n: nat) returns (d: Pool)
    requires CoreBut(p, Some(s)) && Awaiting(p, s, cursor) && IsNext(p.pending, s, cursor, n)
    ensures d == Detach(p.(minNonce := p.minNonce[s := n]), p.pending[Slot(s, n)], Slot(s, n), false, 0)
    ensures CoreBut(d, Some(s)) && Awaiting(d, s, n) && p.pending[Slot(s, n)] !in d.meta
  {
    var k := Slot(s, n);
    var q := p.(minNonce := p.minNonce[s := n]);
    forall t: Sender | t != s ensures SenderOk(q, t) { assert SenderOk(p, t); }
    d := Detach(q, p.pending[k], k, false, 0);
    DetachCore(q, p.pending[k], k, false, 0, Some(s));
    hide CoreBut, DecrementPrincipal, RemoveFee;
    assert d.ready.key.Keys <= p.ready.key.Keys;
    assert Paired(p.pending, p.meta);
  }

  /** `advance_sender_after_tx` keeps the maps in agreement on any consistent pending set. */
  lemma AdvanceCore(p: Pool, id: TxId, over: Option<Slot>, bump: bool, account: nat)
    requires Core(p) && id in p.meta
    ensures Core(Advance(p, id, over, bump, account)) && id !in Advance(p, id, over, bump, account).meta
  {
    var k := p.meta[id];
    var d := Detach(p, id, k, bump, account);
    DetachCore(p, id, k, bump, account, None);
    assert SenderOk(p, k.sender);
    if Get(d.minNonce, k.sender) == Some(k.nonce) {
      assert Awaiting(d, k.sender, k.nonce);
      RefillCore(d, k.sender, k.nonce);
      RefillShrinks(d, k.sender, k.nonce);
    } else {
      forall s: Sender ensures SenderOk(d, s) { assert SenderOk(p, s); }
    }
  }

  // ---------------------------------------------------------------- what a refill drops

  /** Slot `k` is one of the sender's after `cursor` and before `stop`. */
  predicate InRun(k: Slot, s: Sender, cursor: nat, stop: Option<nat>) {
    k.sender == s && SatAdd(cursor, 1, U64_MAX) <= k.nonce && (stop.Some? ==> k.nonce < stop.value)
  }

  lemma NextSame(pending: map<Slot, TxId>, s: Sender, a: nat, b: nat)
    requires forall m :: Slot(s, m) in pending ==> (SatAdd(a, 1, U64_MAX) <= m <==> SatAdd(b, 1, U64_MAX) <= m)
    ensures NextPending(pending, s, a) == NextPending(pending, s, b)
  {
  }

  /** Purging `id` touches no other payload, and no location except those of older drops. */
  lemma PurgeKeeps(t: Records, id: TxId, code: nat)
    ensures var u := Purge(t, id, code);
            && u.store == t.store - {id} && u.seen == t.seen
            && (id in u.locs ==> u.locs[id] == Dropped(code))
            && (forall x :: x in u.locs && x != id ==> x in t.locs && u.locs[x] == t.locs[x])
            && (forall x :: x in t.locs && x != id && !t.locs[x].Dropped? ==> x in u.locs)
  {
  }

  /** Out of every map, and its location, where it has one left, is the drop's code. */
  ghost predicate Gone(r: Pool, id: TxId, code: nat) {
    id !in r.meta && id !in r.txs.store && id !in r.fees.key && (id in r.txs.locs ==> r.txs.locs[id] == Dropped(code))
  }

  /** Why an unreadable transaction is dropped: 1 for a payload that does not decode, 5 for one that is missing. */
  function WhyDropped(t: Records, id: TxId): nat { if id in t.store && t.store[id].Corrupt? then 1 else 5 }

  /** From `p` to `r` exactly the leading run of missing or undecodable successors of `cursor` was dropped, and
      the next readable one, `stop`, became the sender's recorded minimum and was made ready. */
  ghost predicate RunDropped(p: Pool, r: Pool, s: Sender, cursor: nat, stop: Option<nat>) {
    && r.pending.Keys <= p.pending.Keys
    && (forall k :: k in p.pending && InRun(k, s, cursor, stop) ==>
          !Loads(p, k) && k !in r.pending && Gone(r, p.pending[k], WhyDropped(p.txs, p.pending[k])))
    && (forall k :: k in p.pending && !InRun(k, s, cursor, stop) ==> k in r.pending && r.pending[k] == p.pending[k])
    && match stop
       case None => r.minNonce == p.minNonce - {s}
       case Some(n) =>
         && SatAdd(cursor, 1, U64_MAX) <= n && Slot(s, n) in p.pending && Loads(p, Slot(s, n))
         && r.minNonce == p.minNonce[s := n]
         && p.pending[Slot(s, n)] in r.ready.key
  }

  lemma NothingDropped(p: Pool, s: Sender, cursor: nat)
    requires var next := NextPending(p.pending, s, cursor); next.Some? ==> Loads(p, Slot(s, next.value))
    ensures RunDropped(p, Refill(p, s, cursor), s, cursor, NextPending(p.pending, s, cursor))
  {
  }

  /** The second half of `advance_sender_after_tx` on any consistent pending set. */
  lemma {:induction false} RefillDropsLeadingRun(p: Pool, s: Sender, cursor: nat) returns (stop: Option<nat>)
    requires Paired(p.pending, p.meta)
    ensures RunDropped(p, Refill(p, s, cursor), s, cursor, stop)
    decreases |p.pending|
  {
    stop := NextPending(p.pending, s, cursor);
    if stop.None? || Loads(p, Slot(s, stop.value)) { NothingDropped(p, s, cursor); return; }
    var n := stop.value;
    var k := Slot(s, n);
    RefillStep(p, s, cursor, n);
    UnpairOne(p.pending, p.meta, k);
    hide Refill, RunDropped, Loads, Paired, IsNext;
    var d := Detach(p.(minNonce := p.minNonce[s := n]), p.pending[k], k, false, 0);
    stop := RefillDropsLeadingRun(d, s, n);
    RefillShrinks(d, s, n);
    DropsOneMore(p, d, Refill(d, s, n), s, cursor, n, stop);
  }

  lemma DropsOneMore(p: Pool, d: Pool, mid: Pool, s: Sender, cursor: nat, n: nat, stop: Option<nat>)
    requires Paired(p.pending, p.meta) && IsNext(p.pending, s, cursor, n) && !Loads(p, Slot(s, n))
    requires d.txs == p.txs && d.pending == p.pending - {Slot(s, n)} && d.minNonce == p.minNonce[s := n]
    requires RunDropped(d, mid, s, n, stop) && p.pending[Slot(s, n)] !in mid.meta
    ensures RunDropped(p, MarkDropped(mid, p.pending[Slot(s, n)], DropCode(p, Slot(s, n))), s, cursor, stop)
  {
    hide Purge, RemoveFee, LoadFee, DropCode, Gone, Paired;
    var id := p.pending[Slot(s, n)];
    var r := MarkDropped(mid, id, DropCode(p, Slot(s, n)));
    forall k | k in p.pending && InRun(k, s, cursor, stop)
      ensures !Loads(p, k) && k !in r.pending && Gone(r, p.pending[k], WhyDropped(p.txs, p.pending[k]))
    {
      DropsOneMoreAt(p, d, mid, s, cursor, n, stop, k);
    }
    forall k | k in p.pending && !InRun(k, s, cursor, stop)
      ensures k in r.pending && r.pending[k] == p.pending[k]
    {
      assert k in d.pending && !InRun(k, s, n, stop);
    }
  }

  lemma DropsOneMoreAt(p: Pool, d: Pool, mid: Pool, s: Sender, cursor: nat, n: nat, stop: Option<nat>, k: Slot)
    requires Paired(p.pending, p.meta) && IsNext(p.pending, s, cursor, n) && !Loads(p, Slot(s, n))
    requires d.txs == p.txs && d.pending == p.pending - {Slot(s, n)}
    requires RunDropped(d, mid, s, n, stop) && p.pending[Slot(s, n)] !in mid.meta
    requires k in p.pending && InRun(k, s, cursor, stop)
    ensures var r := MarkDropped(mid, p.pending[Slot(s, n)], DropCode(p, Slot(s, n)));
            !Loads(p, k) && k !in r.pending && Gone(r, p.pending[k], WhyDropped(p.txs, p.pending[k]))
  {
    PurgeKeeps(mid.txs, p.pending[Slot(s, n)], DropCode(p, Slot(s, n)));
    hide Purge, LoadFee, DropCode;
    assert k == Slot(s, k.nonce) && n <= k.nonce;
    if k.nonce != n {
      assert InRun(k, s, n, stop) && k in d.pending && Gone(mid, d.pending[k], WhyDropped(p.txs, d.pending[k]));
    }
  }
}
