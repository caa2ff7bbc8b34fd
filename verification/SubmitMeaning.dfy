/** What a submission answers and writes, in terms of the bid and of what is pending. */
module SubmitMeaning {
  import opened Common
  import opened Types
  import opened Mempool
  import opened MempoolInv
  import opened MempoolSafe

  // ---------------------------------------------------------------- what a bid pays

  /** A bid of at most `maxFee` per gas with a tip of `tip` can pay the base fee, in 64 bits. */
  predicate CanPay(maxFee: nat, tip: nat, baseFee: nat) {
    tip <= maxFee && baseFee <= maxFee && (maxFee <= U64_MAX || baseFee + tip <= U64_MAX)
  }

  /** What it then pays: the base fee and the tip, but never more than its maximum. */
  function Pays(maxFee: nat, tip: nat, baseFee: nat): nat {
    if baseFee + tip <= maxFee then baseFee + tip else maxFee
  }

  lemma PriceMeans(maxFee: nat, tip: nat, baseFee: nat)
    ensures EffectiveGasPrice(maxFee, tip, baseFee)
         == if CanPay(maxFee, tip, baseFee) then Some(Pays(maxFee, tip, baseFee)) else None
  {
  }

  /** A bid with a tip passes the fee check exactly when what it pays covers the base fee and the least tip; one without
      exactly when it offers the least gas price. */
  lemma FeeCheckMeans(maxFee: nat, tip: nat, baseFee: nat, leastTip: nat, leastPrice: nat)
    requires baseFee <= U64_MAX && leastTip <= U64_MAX && tip <= maxFee
    ensures MinFeeSatisfied(maxFee, Some(tip), baseFee, leastTip, leastPrice)
            <==> Pays(maxFee, tip, baseFee) >= baseFee + leastTip
    ensures MinFeeSatisfied(maxFee, None, baseFee, leastTip, leastPrice) <==> maxFee >= leastPrice
  {
  }

  /** More offered at both ends pays strictly more, capped or not. */
  lemma HigherPaysMore(maxFee: nat, tip: nat, more: nat, moreTip: nat, baseFee: nat)
    requires maxFee < more && tip < moreTip
    ensures Pays(maxFee, tip, baseFee) < Pays(more, moreTip, baseFee)
  {
  }

  function TipOf(pay: Payload): nat
    requires pay.Good?
  {
    if pay.dynamic then pay.maxPriority else 0
  }

  /** The price under which a stored payload is filed: what it pays, or nothing when it cannot pay. */
  lemma PayloadPays(pay: Payload, baseFee: nat)
    requires pay.Good?
    ensures pay.Effective(baseFee)
         == if CanPay(pay.maxFee, TipOf(pay), baseFee) then Some(Pays(pay.maxFee, TipOf(pay), baseFee)) else None
    ensures pay.Price(baseFee)
         == if CanPay(pay.maxFee, TipOf(pay), baseFee) then Pays(pay.maxFee, TipOf(pay), baseFee) else 0
  {
    PriceMeans(pay.maxFee, TipOf(pay), baseFee);
  }

  // ---------------------------------------------------------------- the answer

  function Tip(req: Request): nat { match req.priority case Some(t) => t case None => 0 }

  /** The fees are in order: the bid can pay, and offers the least tip or the least gas price. */
  predicate FeesInOrder(cfg: Config, req: Request) {
    && CanPay(req.maxFee, Tip(req), cfg.baseFee)
    && (req.priority.Some? ==> Pays(req.maxFee, Tip(req), cfg.baseFee) >= cfg.baseFee + cfg.minPriority)
    && (req.priority.None? ==> req.maxFee >= cfg.minGasPrice)
  }

  /** The nonce the sender is expected to use. */
  function ExpectedNonce(p: Pool, id: TxId, req: Request): nat {
    if id.sender in p.expected then p.expected[id.sender] else req.account
  }

  /** The newcomer pays more than the pending transaction `v` does now; one that can no longer pay is not outbid. */
  predicate Outbids(p: Pool, v: TxId, req: Request) {
    && v in p.txs.store && p.txs.store[v].Good?
    && var pay := p.txs.store[v];
       && CanPay(pay.maxFee, TipOf(pay), p.cfg.baseFee)
       && Pays(pay.maxFee, TipOf(pay), p.cfg.baseFee) < Pays(req.maxFee, Tip(req), p.cfg.baseFee)
  }

  /** Some pending transaction can be pushed out of a full pool: it pays less than the newcomer, one that can no longer
      pay counting as paying nothing. */
  ghost predicate SomeoneCheaper(p: Pool, req: Request) {
    exists x :: x in p.meta && x in p.txs.store && Underbid(p.txs.store[x], p.cfg.baseFee, req)
  }

  predicate Underbid(pay: Payload, baseFee: nat, req: Request) {
    pay.Good?
    && (if CanPay(pay.maxFee, TipOf(pay), baseFee) then Pays(pay.maxFee, TipOf(pay), baseFee) else 0)
       < Pays(req.maxFee, Tip(req), baseFee)
  }

  /** The answer from first check to last, once the fees are in order. */
  ghost function Placement(p: Pool, id: TxId, req: Request): Result<TxId, ChainError> {
    if id.nonce < ExpectedNonce(p, id, req) then Err(NonceTooLow)
    else if id.nonce > ExpectedNonce(p, id, req) then Err(NonceGap)
    else if id.sender in p.current then
      if Outbids(p, p.current[id.sender], req) then Ok(id) else Err(NonceConflict)
    else if req.principal != EMPTY_PRINCIPAL && CountOf(p.principals, req.principal) >= 32 then Err(PrincipalQueueFull)
    else if |p.pending| < 8192 || SomeoneCheaper(p, req) then Ok(id)
    else Err(QueueFull)
  }

  /** The answer to a submission, from first check to last. */
  ghost function Verdict(p: Pool, id: TxId, req: Request): Result<TxId, ChainError> {
    if req.suppressed then Err(DecodeRateLimited)
    else if req.tooLarge then Err(TxTooLarge)
    else if !req.decodes && id.kind.IcSynthetic? then Err(AddressDerivationFailed)
    else if id in p.txs.seen then Err(TxAlreadySeen)
    else if !req.decodes then Err(DecodeFailed)
    else if !FeesInOrder(p.cfg, req) then Err(InvalidFee)
    else Placement(p, id, req)
  }

  lemma ScreenMeans(p: Pool, id: TxId, req: Request)
    requires p.cfg.baseFee <= U64_MAX && p.cfg.minPriority <= U64_MAX
    ensures Screen(p, id, req).Ok? ==>
              Screen(p, id, req).value == Pays(req.maxFee, Tip(req), p.cfg.baseFee)
              && CanPay(req.maxFee, Tip(req), p.cfg.baseFee) && Verdict(p, id, req) == Placement(p, id, req)
    ensures Screen(p, id, req).Err? ==> Verdict(p, id, req) == Err(Screen(p, id, req).error)
  {
    PriceMeans(req.maxFee, Tip(req), p.cfg.baseFee);
    if Tip(req) <= req.maxFee {
      FeeCheckMeans(req.maxFee, Tip(req), p.cfg.baseFee, p.cfg.minPriority, p.cfg.minGasPrice);
    }
    hide Placement;
  }

  /** The nonce rule: the expected nonce only, and over a pending transaction only by outbidding it. */
  lemma NonceAnswer(p: Pool, id: TxId, req: Request, price: nat)
    requires Inv(p) && price == Pays(req.maxFee, Tip(req), p.cfg.baseFee)
    ensures ApplyNonce(p, id.sender, id.nonce, price, req.account).1
         == if id.nonce < ExpectedNonce(p, id, req) then Err(NonceTooLow)
            else if id.nonce > ExpectedNonce(p, id, req) then Err(NonceGap)
            else if id.sender !in p.current then Ok(None)
            else if Outbids(p, p.current[id.sender], req) then Ok(Some(p.current[id.sender]))
            else Err(NonceConflict)
  {
    hide Inv, CanPay, Pays, Replace, Payload.Effective;
    if id.sender in p.current {
      CurrentOf(p, id.sender);
      PayloadPays(p.txs.store[p.current[id.sender]], p.cfg.baseFee);
    }
  }

  /** A sender's pending transaction is replaced exactly when it is outbid. */
  lemma PlacedReplacing(p: Pool, id: TxId, req: Request, price: nat)
    requires Inv(p) && id.nonce <= U64_MAX && price == Pays(req.maxFee, Tip(req), p.cfg.baseFee)
    requires Screen(p, id, req) == Ok(price) && id.sender in p.current
    ensures SubmitScreened(p, id, req, price).1 == Placement(p, id, req)
  {
    hide Inv, Screen, Pays, CountsExact, ApplyNonce, EnforceCaps, Enqueue, Submitted, NotOutbid, SomeoneCheaper,
         Outbids;
    NonceAnswer(p, id, req, price);
    SubmitReplacing(p, id, req);
  }

  lemma NoSlots(p: Pool, sender: Sender)
    requires Inv(p) && sender !in p.current
    ensures |SlotsOf(p, sender)| == 0
  {
    NotCurrentNonePending(p, sender);
    assert SlotsOf(p, sender) == {};
  }

  /** A full pool has a lowest bid, and the newcomer gets in exactly when it pays more than that one does. */
  lemma LowestIsCheaper(p: Pool, req: Request)
    requires Inv(p) && |p.pending| >= 8192 && CanPay(req.maxFee, Tip(req), p.cfg.baseFee)
    ensures LowestFee(p.fees.index).Some?
    ensures SomeoneCheaper(p, req)
            <==> LowestFee(p.fees.index).value.price < Pays(req.maxFee, Tip(req), p.cfg.baseFee)
  {
    hide Core, OnePerSender, Named, ReadyKeysOk, CountsAtMost;
    assert p.pending.Keys != {};
    var k :| k in p.pending;
    CoreParts(p) by { assert Core(p); }
    assert p.pending[k] in p.meta && p.pending[k] in p.fees.key;
    assert p.fees.key[p.pending[k]] in p.fees.index;
    var low := LowestFee(p.fees.index).value;
    LowestIsMinimal(p, low);
    var v := p.fees.index[low];
    PayloadPays(p.txs.store[v], p.cfg.baseFee);
    assert Underbid(p.txs.store[v], p.cfg.baseFee, req) <==> low.price < Pays(req.maxFee, Tip(req), p.cfg.baseFee);
    forall x | x in p.meta && x in p.txs.store && Underbid(p.txs.store[x], p.cfg.baseFee, req)
      ensures low.price < Pays(req.maxFee, Tip(req), p.cfg.baseFee)
    {
      PayloadPays(p.txs.store[x], p.cfg.baseFee);
      assert Readable(p.txs, x);
    }
  }

  /** The caps: room for the principal, and room in the pool or someone cheaper to push out. */
  lemma CapsAnswer(p: Pool, sender: Sender, req: Request, price: nat)
    requires Inv(p) && sender !in p.current
    requires price == Pays(req.maxFee, Tip(req), p.cfg.baseFee) && CanPay(req.maxFee, Tip(req), p.cfg.baseFee)
    ensures EnforceCaps(p, sender, req.principal, price).1
         == if req.principal != EMPTY_PRINCIPAL && CountOf(p.principals, req.principal) >= 32
            then Err(PrincipalQueueFull)
            else if |p.pending| < 8192 || SomeoneCheaper(p, req) then Ok(()) else Err(QueueFull)
  {
    NoSlots(p, sender);
    if |p.pending| >= 8192 { LowestIsCheaper(p, req); }
    hide Inv, Drop, Pays, CanPay, SomeoneCheaper, LowestFee, SlotsOf;
  }

  /** A sender with nothing pending gets in when its principal has room and so has the pool, or makes room. */
  lemma PlacedAdding(p: Pool, id: TxId, req: Request, price: nat)
    requires Inv(p) && id.nonce <= U64_MAX && price == Pays(req.maxFee, Tip(req), p.cfg.baseFee)
    requires CanPay(req.maxFee, Tip(req), p.cfg.baseFee)
    requires Screen(p, id, req) == Ok(price) && id.sender !in p.current
    ensures SubmitScreened(p, id, req, price).1 == Placement(p, id, req)
  {
    hide Inv, Screen, Pays, CanPay, CountsExact, Enqueue, Submitted, EnforceCaps, Outbids;
    CacheInv(p, id.sender, req.account);
    NonceOfNew(p, id, price, req.account);
    NonceAnswer(p, id, req, price);
    CapsAnswer(CacheExpected(p, id.sender, req.account), id.sender, req, price);
    var victim := SubmitAdding(p, id, req);
    hide ApplyNonce, SomeoneCheaper;
    assert SomeoneCheaper(CacheExpected(p, id.sender, req.account), req) <==> SomeoneCheaper(p, req) by {
      CheaperSame(p, CacheExpected(p, id.sender, req.account), req);
    }
  }

  lemma CheaperSame(p: Pool, q: Pool, req: Request)
    requires p.meta == q.meta && p.txs == q.txs && p.cfg == q.cfg
    ensures SomeoneCheaper(p, req) <==> SomeoneCheaper(q, req)
  {
  }

  /** The answer to every submission, in the fields of the bid and of what is pending. */
  lemma SubmitVerdict(p: Pool, id: TxId, req: Request)
    requires Inv(p) && id.nonce <= U64_MAX && p.cfg.baseFee <= U64_MAX && p.cfg.minPriority <= U64_MAX
    ensures Submit(p, id, req).1 == Verdict(p, id, req)
  {
    hide Inv, Verdict, Placement, SubmitScreened, Screen, Pays, CanPay;
    ScreenMeans(p, id, req);
    if Screen(p, id, req).Ok? {
      if id.sender in p.current {
        PlacedReplacing(p, id, req, Screen(p, id, req).value);
      } else {
        PlacedAdding(p, id, req, Screen(p, id, req).value);
      }
    }
  }

  /** The sender's pending transaction can still pay; the newcomer carries its nonce and offers more at both ends. */
  ghost predicate RaisesBoth(p: Pool, id: TxId, req: Request) {
    && id.sender in p.current && p.current[id.sender].nonce == id.nonce
    && p.current[id.sender] in p.txs.store && p.txs.store[p.current[id.sender]].Good?
    && var pay := p.txs.store[p.current[id.sender]];
       CanPay(pay.maxFee, TipOf(pay), p.cfg.baseFee) && pay.maxFee < req.maxFee && TipOf(pay) < Tip(req)
  }

  lemma RaisesOutbids(p: Pool, id: TxId, req: Request)
    requires Inv(p) && RaisesBoth(p, id, req)
    ensures Outbids(p, p.current[id.sender], req) && ExpectedNonce(p, id, req) == id.nonce
  {
    var pay := p.txs.store[p.current[id.sender]];
    HigherPaysMore(pay.maxFee, TipOf(pay), req.maxFee, Tip(req), p.cfg.baseFee);
    CurrentOf(p, id.sender);
    hide Inv, CanPay, Pays;
  }

  /** A well-formed bid that raises both its maximum and its tip on the pending nonce replaces, capped or not. */
  lemma HigherBidReplaces(p: Pool, id: TxId, req: Request)
    requires Inv(p) && id.nonce <= U64_MAX && p.cfg.baseFee <= U64_MAX && p.cfg.minPriority <= U64_MAX
    requires !req.suppressed && !req.tooLarge && req.decodes && id !in p.txs.seen && FeesInOrder(p.cfg, req)
    requires RaisesBoth(p, id, req)
    ensures var (q, r) := Submit(p, id, req);
            r == Ok(id) && Entered(p, q, id, req) && Left(p, q, p.current[id.sender])
  {
    hide Inv, Submit, Entered, Left, Stays, Outbids, FeesInOrder, SomeoneCheaper;
    RaisesOutbids(p, id, req);
    SubmitVerdict(p, id, req);
    var victim := AcceptedMeans(p, id, req);
  }

  // ---------------------------------------------------------------- what an acceptance writes

  /** The newcomer's entries in every map. */
  ghost predicate Entered(p: Pool, q: Pool, id: TxId, req: Request) {
    && Get(q.txs.store, id) == Some(Good(id.kind, req.principal, req.maxFee, Tip(req), req.priority.Some?))
    && Get(q.txs.locs, id) == Some(Queued(p.tail))
    && id in q.txs.seen && (id.kind.EthSigned? ==> id in q.txs.ethIndex)
    && q.tail == (if p.tail < U64_MAX then p.tail + 1 else U64_MAX)
    && Get(q.pending, Slot(id.sender, id.nonce)) == Some(id) && Get(q.meta, id) == Some(Slot(id.sender, id.nonce))
    && Get(q.current, id.sender) == Some(id) && Get(q.minNonce, id.sender) == Some(id.nonce)
    && Get(q.expected, id.sender) == Some(id.nonce)
    && Get(q.ready.key, id) == Some(ReadyKey(req.maxFee, Tip(req), p.tail, id))
    && Get(q.fees.key, id) == Some(FeeKey(Pays(req.maxFee, Tip(req), p.cfg.baseFee), id))
  }

  /** Who left for the newcomer: its payload and its queue entries are gone, and it reads Dropped, as replaced. */
  ghost predicate Left(p: Pool, q: Pool, v: TxId) {
    && v in p.meta && v !in q.meta && v !in q.txs.store && v !in q.ready.key && v !in q.fees.key
    && (v in q.txs.locs ==> q.txs.locs[v] == Dropped(6))
    && q.txs.seen >= p.txs.seen
  }

  /** Every other pending transaction keeps its slot, payload, arrival number, ready key and price. */
  ghost predicate Stays(p: Pool, q: Pool, x: TxId) {
    && Get(q.meta, x) == Get(p.meta, x) && Get(q.txs.store, x) == Get(p.txs.store, x)
    && Get(q.txs.locs, x) == Get(p.txs.locs, x) && Get(q.ready.key, x) == Get(p.ready.key, x)
    && Get(q.fees.key, x) == Get(p.fees.key, x)
  }

  lemma PurgedRecords(meta: map<TxId, Slot>, t: Records, v: TxId)
    requires Recorded(meta, t) && v in meta
    ensures var u := Purge(t, v, 6);
            && v !in u.store && u.seen == t.seen && (v in u.locs ==> u.locs[v] == Dropped(6))
            && forall x :: x in meta && x != v ==>
                 Get(u.store, x) == Get(t.store, x) && Get(u.locs, x) == Get(t.locs, x)
  {
    PurgeKeeps(t, v, 6);
    var u := Purge(t, v, 6);
    assert v in u.locs ==> u.locs[v] == Dropped(6);
    hide Purge;
    forall x | x in meta && x != v ensures Get(u.store, x) == Get(t.store, x) && Get(u.locs, x) == Get(t.locs, x) {
      assert IsQueued(t, x);
    }
  }

  lemma WithoutLeft(p: Pool, victim: Option<TxId>)
    requires Inv(p) && (victim.Some? ==> victim.value in p.meta)
    ensures var w := Without(p, victim);
            && w.tail == p.tail && w.txs.seen == p.txs.seen && w.expected == p.expected && w.cfg == p.cfg
            && (victim.Some? ==> Left(p, w, victim.value))
            && forall x :: x in p.meta && Some(x) != victim ==> Stays(p, w, x)
  {
    hide Purge, RemoveReady, RemoveFee, DecrementPrincipal, Inv, ReadyAgree, FeesAgree, Paired, Core, Recorded;
    if victim.Some? {
      InvParts(p);
      CoreParts(p);
      RemoveReadyAgree(p.ready, victim.value);
      RemoveFeeAgree(p.fees, victim.value);
      PurgedRecords(p.meta, p.txs, victim.value);
    }
  }

  lemma InvParts(p: Pool)
    requires Inv(p)
    ensures Core(p) && Recorded(p.meta, p.txs)
  {
  }

  lemma AddedEntered(p: Pool, id: TxId, req: Request, price: nat)
    requires price == Pays(req.maxFee, Tip(req), p.cfg.baseFee) && Get(p.expected, id.sender) == Some(id.nonce)
    ensures Entered(p, Added(p, id, PayloadOf(id, req), price), id, req)
    ensures forall x :: x != id ==> Stays(p, Added(p, id, PayloadOf(id, req), price), x)
    ensures p.txs.seen <= Added(p, id, PayloadOf(id, req), price).txs.seen
  {
  }

  lemma StaysLeft(p: Pool, w: Pool, q: Pool, id: TxId, victim: Option<TxId>)
    requires id !in p.meta && (victim.Some? ==> victim.value != id && Left(p, w, victim.value))
    requires forall x :: x in p.meta && Some(x) != victim ==> Stays(p, w, x)
    requires forall x :: x != id ==> Stays(w, q, x)
    requires p.txs.seen <= w.txs.seen <= q.txs.seen
    ensures victim.Some? ==> Left(p, q, victim.value)
    ensures forall x :: x in p.meta && Some(x) != victim ==> Stays(p, q, x)
  {
    forall x | x in p.meta && Some(x) != victim ensures Stays(p, q, x) {
      assert Stays(p, w, x) && Stays(w, q, x);
    }
    if victim.Some? {
      assert Stays(w, q, victim.value);
    }
  }

  /** What an acceptance writes: the newcomer everywhere under its own fields, at most one transaction gone for it, and
      every other pending transaction as it was. */
  lemma AcceptedMeans(p: Pool, id: TxId, req: Request) returns (victim: Option<TxId>)
    requires Inv(p) && id.nonce <= U64_MAX && p.cfg.baseFee <= U64_MAX && p.cfg.minPriority <= U64_MAX
    requires Submit(p, id, req).1.Ok?
    ensures var q := Submit(p, id, req).0;
            && Entered(p, q, id, req)
            && (victim.Some? ==> Left(p, q, victim.value))
            && (forall x :: x in p.meta && Some(x) != victim ==> Stays(p, q, x))
            && (id.sender in p.current ==> victim == Some(p.current[id.sender]))
  {
    hide Inv, Submit, Without, Added, PushedOut, Stays, Left, Entered, Pays, CanPay, Screen, CountsExact, Verdict,
         PayloadOf;
    victim := SubmitSpec(p, id, req);
    ScreenMeans(p, id, req);
    assert id !in p.meta by { UnseenNotPending(p, id); }
    VictimOf(p, id, req, victim);
    var c := CacheExpected(p, id.sender, req.account);
    CacheInv(p, id.sender, req.account);
    WithoutLeft(c, victim);
    var w := Without(c, victim);
    AddedEntered(w, id, req, Screen(p, id, req).value);
    StaysLeft(c, w, Submit(p, id, req).0, id, victim);
    CacheStays(p, c, Submit(p, id, req).0);
    EnteredSame(p, w, Submit(p, id, req).0, id, req);
  }

  lemma EnteredSame(p: Pool, w: Pool, q: Pool, id: TxId, req: Request)
    requires p.tail == w.tail && p.cfg == w.cfg
    ensures Entered(p, q, id, req) <==> Entered(w, q, id, req)
  {
  }

  lemma VictimOf(p: Pool, id: TxId, req: Request, victim: Option<TxId>)
    requires Submitted(p, id, req, Submit(p, id, req).0, Submit(p, id, req).1, victim) && Submit(p, id, req).1.Ok?
    ensures victim.Some? ==> victim.value in p.meta
    ensures id.sender in p.current ==> victim == Some(p.current[id.sender])
    ensures Get(CacheExpected(p, id.sender, req.account).expected, id.sender) == Some(id.nonce)
    ensures id !in p.txs.seen && Screen(p, id, req).Ok?
    ensures Submit(p, id, req).0 == Accepted(p, id, req, Screen(p, id, req).value, victim)
  {
    hide Submit, Accepted, Screen;
  }

  lemma CacheStays(p: Pool, c: Pool, q: Pool)
    requires c == p.(expected := c.expected)
    ensures forall x :: Stays(c, q, x) <==> Stays(p, q, x)
    ensures forall v :: Left(c, q, v) <==> Left(p, q, v)
  {
  }

  lemma UnseenNotPending(p: Pool, id: TxId)
    requires Inv(p) && id !in p.txs.seen
    ensures id !in p.meta
  {
    assert id in p.meta ==> IsQueued(p.txs, id);
  }

  // ---------------------------------------------------------------- what a refusal leaves

  /** The submission got past the checks that look at it alone. */
  predicate Screened(p: Pool, id: TxId, req: Request) {
    !req.suppressed && !req.tooLarge && req.decodes && id !in p.txs.seen && FeesInOrder(p.cfg, req)
  }

  /** A refused submission changes nothing; only one that got past the first checks leaves the account's nonce as its
      sender's expected one, if there was none. */
  lemma RefusedMeans(p: Pool, id: TxId, req: Request)
    requires Inv(p) && id.nonce <= U64_MAX && p.cfg.baseFee <= U64_MAX && p.cfg.minPriority <= U64_MAX
    requires Submit(p, id, req).1.Err?
    ensures Submit(p, id, req).0
         == if Screened(p, id, req) && id.sender !in p.expected
            then p.(expected := p.expected[id.sender := req.account]) else p
  {
    hide Inv, Verdict, Placement, SubmitScreened, CountsExact, Accepted, PushedOut, FeesInOrder, Pays, CanPay;
    assert Screen(p, id, req).Ok? <==> Screened(p, id, req) by { ScreenedIff(p, id, req); }
    hide Screen, Screened;
    if Screen(p, id, req).Ok? {
      var victim := SubmitSpec(p, id, req);
      if id.sender !in p.expected {
        CurrentExpected(p);
        RefusedNew(p, id, req);
      }
    }
  }

  lemma ScreenedIff(p: Pool, id: TxId, req: Request)
    requires p.cfg.baseFee <= U64_MAX && p.cfg.minPriority <= U64_MAX
    ensures Screen(p, id, req).Ok? <==> Screened(p, id, req)
  {
    PriceMeans(req.maxFee, Tip(req), p.cfg.baseFee);
    if Tip(req) <= req.maxFee {
      FeeCheckMeans(req.maxFee, Tip(req), p.cfg.baseFee, p.cfg.minPriority, p.cfg.minGasPrice);
    }
  }

  lemma CurrentExpected(p: Pool)
    requires Inv(p)
    ensures forall s :: s in p.current ==> s in p.expected
  {
    forall s | s in p.current ensures s in p.expected { CurrentOf(p, s); }
  }

  lemma RefusedNew(p: Pool, id: TxId, req: Request)
    requires Inv(p) && id.nonce <= U64_MAX && Screen(p, id, req).Ok? && id.sender !in p.current
    requires Submit(p, id, req).1.Err?
    ensures Submit(p, id, req).0 == CacheExpected(p, id.sender, req.account)
  {
    hide Inv, Screen, CountsExact, Enqueue, Submitted, EnforceCaps, PushedOut;
    var price := Screen(p, id, req).value;
    var c := CacheExpected(p, id.sender, req.account);
    CacheInv(p, id.sender, req.account);
    NonceOfNew(p, id, price, req.account);
    var victim := CapsSpec(c, id, req.principal, price);
    var w := SubmitAdding(p, id, req);
    hide ApplyNonce, Without, CacheExpected;
  }
}
