/** The invariant of the states that submission, replacement, eviction, block production, fee rebuilding and
    pruning reach, and what each of these operations does to such a state. */
module MempoolSafe {
  import opened Common
  import opened Types
  import opened Mempool
  import opened MempoolInv

  /** Each sender has at most one pending transaction, at exactly its expected nonce. */
  ghost predicate OnePerSender(p: Pool) {
    && (forall k :: k in p.pending ==>
          && k.sender in p.expected && p.expected[k.sender] == k.nonce
          && k.sender in p.current && p.current[k.sender] == p.pending[k])
    && (forall s :: s in p.current ==> p.current[s] in p.meta && p.meta[p.current[s]].sender == s)
  }

  ghost predicate Named(meta: map<TxId, Slot>) { forall id :: id in meta ==> meta[id] == SlotOf(id) }

  predicate IsQueued(t: Records, id: TxId) { id in t.locs && t.locs[id].Queued? }

  /** A transaction is pending exactly when its location is Queued, and then its payload is stored and reads. */
  ghost predicate Recorded(meta: map<TxId, Slot>, t: Records) {
    && (forall id :: id in meta <==> IsQueued(t, id))
    && (forall id :: id in meta ==> Readable(t, id))
    && (forall id :: id in t.locs ==> id in t.seen)
  }

  /** Each ready entry is filed under the fees and arrival number its records hold. */
  ghost predicate ReadyKeysOk(r: Ready, t: Records) {
    forall id :: id in r.key ==>
      Readable(t, id) && IsQueued(t, id)
      && r.key[id] == ReadyKey(t.store[id].maxFee, t.store[id].Priority(), t.locs[id].sn, id)
  }

  /** Every pending transaction is in the fee index, at its effective price for the current base fee. */
  ghost predicate Filed(meta: map<TxId, Slot>, f: Fees, t: Records, baseFee: nat) {
    && f.key.Keys == meta.Keys
    && (forall id :: id in f.key && Readable(t, id) ==> f.key[id].price == t.store[id].Price(baseFee))
  }

  /** The principal's pending transactions. */
  ghost function Mine(meta: map<TxId, Slot>, t: Records, who: Principal): set<TxId> {
    set id | id in meta && Readable(t, id) && t.store[id].principal == who
  }

  ghost predicate CountsAtMost(p: Pool) {
    forall w :: w in p.principals ==> 1 <= p.principals[w] <= |Mine(p.meta, p.txs, w)|
  }

  function CountOf(counts: map<Principal, nat>, w: Principal): nat { if w in counts then counts[w] else 0 }

  ghost predicate CountsExact(p: Pool) {
    forall w: Principal :: CountOf(p.principals, w) == |Mine(p.meta, p.txs, w)|
  }

  ghost predicate Inv(p: Pool) {
    && Core(p)
    && OnePerSender(p)
    && Named(p.meta)
    && Recorded(p.meta, p.txs)
    && ReadyKeysOk(p.ready, p.txs)
    && Filed(p.meta, p.fees, p.txs, p.cfg.baseFee)
    && CountsAtMost(p)
    && |p.pending| <= MAX_PENDING_GLOBAL
  }

  lemma FreshInv(cfg: Config)
    ensures Inv(Fresh(cfg)) && CountsExact(Fresh(cfg))
  {
    assert forall w :: Mine(Fresh(cfg).meta, Fresh(cfg).txs, w) == {};
  }

  // ---------------------------------------------------------------- leaving the queue

  /** `id` out of every queue map, its sender left without pending transaction. */
  function Removed(p: Pool, id: TxId, bump: bool, account: nat): Pool {
    Detach(p, id, SlotOf(id), bump, account).(minNonce := p.minNonce - {id.sender})
  }

  /** With one pending transaction per sender, advancing past it drops nothing else. */
  lemma AdvanceSingle(p: Pool, id: TxId, over: Option<Slot>, bump: bool, account: nat)
    requires Core(p) && OnePerSender(p) && Named(p.meta) && id in p.meta
    ensures Advance(p, id, over, bump, account) == Removed(p, id, bump, account)
  {
    var k := p.meta[id];
    assert SenderOk(p, k.sender);
    assert Slot(k.sender, p.minNonce[k.sender]) in p.pending;
    var d := Detach(p, id, k, bump, account);
    assert forall n :: Slot(k.sender, n) in d.pending ==> Slot(k.sender, n) in p.pending;
    RefillEnds(d, k.sender, k.nonce);
  }

  /** The records of everything but `id` are as before, and `id` is no longer Queued. */
  ghost predicate OthersKept(meta: map<TxId, Slot>, t: Records, u: Records, id: TxId) {
    && (forall x :: x in meta && x != id ==> x in t.store && x in t.locs && x in u.store && x in u.locs
                                             && u.store[x] == t.store[x] && u.locs[x] == t.locs[x])
    && (forall x :: x in u.locs ==> x in u.seen)
    && (forall x :: IsQueued(u, x) ==> x in meta && x != id)
  }

  lemma PairCount(pending: map<Slot, TxId>, meta: map<TxId, Slot>)
    requires Paired(pending, meta)
    ensures |pending| == |meta|
    decreases |pending|
  {
    if k :| k in pending {
      UnpairOne(pending, meta, k);
      Shrinks(pending, k);
      Shrinks(meta, pending[k]);
      PairCount(pending - {k}, meta - {pending[k]});
    } else {
      assert forall id :: id !in meta;
    }
  }

  lemma MineBound(meta: map<TxId, Slot>, t: Records, w: Principal)
    ensures |Mine(meta, t, w)| <= |meta|
  {
    SubsetSize(Mine(meta, t, w), meta.Keys);
  }

  lemma {:induction false} SubsetSize<T>(a: set<T>, b: set<T>)
    requires a <= b
    ensures |a| <= |b|
  {
    if x :| x in a { SubsetSize(a - {x}, b - {x}); }
  }

  lemma MineWithout(meta: map<TxId, Slot>, t: Records, u: Records, id: TxId, w: Principal)
    requires id in meta && Readable(t, id)
    requires forall x :: x in meta && x != id ==> x in t.store && x in u.store && u.store[x] == t.store[x]
    ensures |Mine(meta - {id}, u, w)| == |Mine(meta, t, w)| - (if t.store[id].principal == w then 1 else 0)
  {
    assert Mine(meta - {id}, u, w) == Mine(meta, t, w) - {id};
  }

  lemma RemovedCounts(p: Pool, id: TxId, bump: bool, account: nat, u: Records)
    requires CountsAtMost(p) && id in p.meta && Readable(p.txs, id)
    requires forall x :: x in p.meta && x != id ==> x in p.txs.store && x in u.store && u.store[x] == p.txs.store[x]
    ensures CountsAtMost(Removed(p, id, bump, account).(txs := u))
    ensures CountsExact(p) ==> CountsExact(Removed(p, id, bump, account).(txs := u))
  {
    var q := Removed(p, id, bump, account).(txs := u);
    forall w: Principal
      ensures w in q.principals ==> 1 <= q.principals[w] <= |Mine(q.meta, u, w)|
      ensures CountsExact(p) ==> CountOf(q.principals, w) == |Mine(q.meta, u, w)|
    {
      MineWithout(p.meta, p.txs, u, id, w);
      assert CountsExact(p) ==> CountOf(p.principals, w) == |Mine(p.meta, p.txs, w)|;
    }
  }

  lemma RemovedCore(p: Pool, id: TxId, bump: bool, account: nat)
    requires Core(p) && OnePerSender(p) && Named(p.meta) && id in p.meta
    ensures var q := Removed(p, id, bump, account);
            Core(q) && OnePerSender(q) && Named(q.meta) && |q.pending| == |p.pending| - 1
            && (forall k :: k in q.pending ==> k.sender != id.sender)
  {
    AdvanceSingle(p, id, None, bump, account);
    AdvanceCore(p, id, None, bump, account);
    Shrinks(p.pending, SlotOf(id));
  }

  lemma CoreIgnoresRecords(p: Pool, u: Records, cfg: Config, expected: map<Sender, nat>)
    requires Core(p)
    ensures Core(p.(txs := u, cfg := cfg, expected := expected))
  {
  }

  lemma RemovedRecorded(meta: map<TxId, Slot>, t: Records, u: Records, id: TxId)
    requires Recorded(meta, t) && id in meta && OthersKept(meta, t, u, id)
    ensures Recorded(meta - {id}, u)
  {
  }

  lemma RemovedReadyKeys(meta: map<TxId, Slot>, r: Ready, t: Records, u: Records, id: TxId)
    requires ReadyKeysOk(r, t) && ReadyAgree(r) && r.key.Keys <= meta.Keys && OthersKept(meta, t, u, id)
    ensures ReadyKeysOk(RemoveReady(r, id), u)
  {
  }

  lemma RemovedFiled(meta: map<TxId, Slot>, f: Fees, t: Records, u: Records, id: TxId, baseFee: nat)
    requires Filed(meta, f, t, baseFee) && FeesAgree(f) && OthersKept(meta, t, u, id)
    ensures Filed(meta - {id}, RemoveFee(f, id), u, baseFee)
  {
  }

  lemma CoreParts(p: Pool)
    requires Core(p)
    ensures ReadyAgree(p.ready) && FeesAgree(p.fees) && p.ready.key.Keys <= p.meta.Keys
            && p.fees.key.Keys <= p.meta.Keys
    ensures Paired(p.pending, p.meta) && |p.pending| == |p.meta|
  {
    PairCount(p.pending, p.meta);
  }

  /** Dropping, including or replacing a pending transaction keeps the invariant, whatever the new records of
      that one transaction are. */
  lemma RemovedInv(p: Pool, id: TxId, bump: bool, account: nat, u: Records)
    requires Inv(p) && id in p.meta && OthersKept(p.meta, p.txs, u, id)
    ensures var q := Removed(p, id, bump, account).(txs := u);
            Inv(q) && |q.pending| == |p.pending| - 1
            && (CountsExact(p) ==> CountsExact(q))
  {
    hide Core, OnePerSender, Named, Recorded, ReadyKeysOk, Filed, CountsAtMost, CountsExact, OthersKept,
         RemoveReady, RemoveFee, DecrementPrincipal, ReadyAgree, FeesAgree, Paired;
    CoreParts(p);
    RemovedRecorded(p.meta, p.txs, u, id);
    RemovedReadyKeys(p.meta, p.ready, p.txs, u, id);
    RemovedFiled(p.meta, p.fees, p.txs, u, id, p.cfg.baseFee);
    RemovedCore(p, id, bump, account);
    assert Readable(p.txs, id)
           && forall x :: x in p.meta && x != id ==>
                x in p.txs.store && x in u.store && u.store[x] == p.txs.store[x]
      by { RemovedReadable(p, u, id); }
    RemovedCounts(p, id, bump, account, u);
    var q := Removed(p, id, bump, account);
    CoreIgnoresRecords(q, u, q.cfg, q.expected);
    assert OnePerSender(q.(txs := u)) by { OnePerSenderIgnoresRecords(q, u); }
  }

  lemma RemovedReadable(p: Pool, u: Records, id: TxId)
    requires Recorded(p.meta, p.txs) && id in p.meta && OthersKept(p.meta, p.txs, u, id)
    ensures Readable(p.txs, id)
    ensures forall x :: x in p.meta && x != id ==> x in p.txs.store && x in u.store && u.store[x] == p.txs.store[x]
  {
  }

  lemma OnePerSenderIgnoresRecords(p: Pool, u: Records)
    requires OnePerSender(p)
    ensures OnePerSender(p.(txs := u))
  {
  }

  // ---------------------------------------------------------------- drop, include, replace

  lemma PurgedOthersKept(meta: map<TxId, Slot>, t: Records, id: TxId, code: nat)
    requires Recorded(meta, t) && id in meta
    ensures OthersKept(meta, t, Purge(t, id, code), id)
  {
    PurgeKeeps(t, id, code);
    var u := Purge(t, id, code);
    hide Purge;
    forall x | x in u.locs ensures x in u.seen { assert x == id || x in t.locs; assert IsQueued(t, id); }
    forall x | IsQueued(u, x) ensures x in meta && x != id { assert IsQueued(t, x); }
    forall x | x in meta && x != id ensures x in t.locs && x in u.locs && x in t.store {
      assert IsQueued(t, x) && Readable(t, x);
    }
  }

  /** `advance_sender_after_tx` followed by `mark_dropped_and_purge_payload`. */
  lemma DropInv(p: Pool, id: TxId, over: Option<Slot>, code: nat)
    requires Inv(p) && id in p.meta
    ensures var q := Drop(p, id, over, code);
            && q == Removed(p, id, false, 0).(txs := Purge(p.txs, id, code))
            && Inv(q) && |q.pending| == |p.pending| - 1
            && (CountsExact(p) ==> CountsExact(q))
  {
    AdvanceSingle(p, id, over, false, 0);
    RemoveFeeAgree(p.fees, id);
    PurgedOthersKept(p.meta, p.txs, id, code);
    RemovedInv(p, id, false, 0, Purge(p.txs, id, code));
  }

  lemma IncludedOthersKept(meta: map<TxId, Slot>, t: Records, id: TxId, number: nat, index: nat)
    requires Recorded(meta, t) && id in meta
    ensures OthersKept(meta, t, t.(locs := t.locs[id := Included(number, index)]), id)
  {
  }

  lemma ExpectedOf(p: Pool, id: TxId)
    requires Core(p) && OnePerSender(p) && Named(p.meta) && id in p.meta
    ensures SlotOf(id) in p.pending && p.pending[SlotOf(id)] == id
    ensures id.sender in p.expected && p.expected[id.sender] == id.nonce && id.nonce <= U64_MAX
    ensures id.sender in p.current && p.current[id.sender] == id
  {
  }

  lemma RemovedIgnoresLocs(p: Pool, id: TxId, bump: bool, account: nat, u: Records)
    requires u.store == p.txs.store
    ensures Removed(p.(txs := u), id, bump, account) == Removed(p, id, bump, account).(txs := u)
  {
  }

  /** Inclusion is the only step that moves a sender's expected nonce, by one. */
  lemma IncludeInv(p: Pool, id: TxId, number: nat, index: nat, account: nat)
    requires Inv(p) && id in p.meta
    ensures var q := Include(p, id, number, index, account);
            var u := p.txs.(locs := p.txs.locs[id := Included(number, index)]);
            && q == Removed(p, id, true, account).(txs := u)
            && q.expected == p.expected[id.sender := SatAdd(id.nonce, 1, U64_MAX)]
            && Inv(q) && |q.pending| == |p.pending| - 1
            && (CountsExact(p) ==> CountsExact(q))
  {
    hide Core, OnePerSender, Named, Recorded, ReadyKeysOk, Filed, CountsAtMost, CountsExact, RemoveReady, RemoveFee,
         Advance,
         OthersKept, MarkDropped;
    ExpectedOf(p, id);
    var u := p.txs.(locs := p.txs.locs[id := Included(number, index)]);
    CoreIgnoresRecords(p, u, p.cfg, p.expected);
    OnePerSenderIgnoresRecords(p, u);
    AdvanceSingle(p.(txs := u), id, Some(SlotOf(id)), true, account);
    IncludedOthersKept(p.meta, p.txs, id, number, index);
    RemovedInv(p, id, true, account, u);
    RemovedIgnoresLocs(p, id, true, account, u);
  }

  /** Replacing a sender's transaction is dropping it. */
  lemma ReplaceIsDrop(p: Pool, sender: Sender)
    requires Inv(p) && sender in p.current
    ensures var prev := p.current[sender];
            prev in p.meta && prev.sender == sender
                && Replace(p, sender, prev) == Drop(p, prev, None, DROP_CODE_REPLACED)
  {
    var prev := p.current[sender];
    DropInv(p, prev, None, DROP_CODE_REPLACED);
    RemoveFeeAgree(p.fees, prev);
    hide Purge, Core, Recorded, Filed, CountsAtMost, ReadyKeysOk, RemoveReady, DecrementPrincipal;
  }

  // ---------------------------------------------------------------- loading

  /** The fee fields and arrival number of a pending transaction load, and are those the ready view files it under; the
      one number that reads as missing is the last. Nothing that was dropped loads. */
  lemma PendingLoads(p: Pool, id: TxId)
    requires Inv(p) && id in p.meta
    ensures var l := LoadFee(p.txs, id);
            && id in p.txs.store && IsQueued(p.txs, id)
            && (l.Fields? <==> p.txs.locs[id].sn != U64_MAX)
            && (l.Fields? ==> l.pay == p.txs.store[id] && l.sn == p.txs.locs[id].sn)
            && (l.Fields? && id in p.ready.key ==> InsertReady(p.ready, id, l.pay, l.sn) == p.ready)
    ensures forall over, code :: !LoadFee(Drop(p, id, over, code).txs, id).Fields?
  {
    hide Drop, Purge, Filed, CountsAtMost, Mine, OnePerSender, Named, Paired, FeesAgree, Core;
    CoreParts(p);
    forall over, code ensures !LoadFee(Drop(p, id, over, code).txs, id).Fields? { DroppedIsMissing(p, id, over, code); }
  }

  lemma DroppedIsMissing(p: Pool, id: TxId, over: Option<Slot>, code: nat)
    requires Inv(p) && id in p.meta
    ensures LoadFee(Drop(p, id, over, code).txs, id).Missing?
  {
    DropInv(p, id, over, code);
    PurgeKeeps(p.txs, id, code);
    hide Inv, Drop, Purge, Removed;
  }

  // ---------------------------------------------------------------- acceptance

  ghost predicate NonePending(p: Pool, s: Sender) { forall n :: Slot(s, n) !in p.pending }

  /** The maps an acceptance writes when its sender has nothing pending. */
  function Added(p: Pool, id: TxId, pay: Payload, price: nat): Pool
    requires pay.Good?
  {
    p.(pending := p.pending[SlotOf(id) := id], meta := p.meta[id := SlotOf(id)],
       minNonce := p.minNonce[id.sender := id.nonce], current := p.current[id.sender := id],
       ready := InsertReady(p.ready, id, pay, p.tail), fees := InsertFee(p.fees, id, price),
       principals := IncrementPrincipal(p.principals, pay.principal),
       txs := AddedRecords(p.txs, id, pay, p.tail), tail := SatAdd(p.tail, 1, U64_MAX))
  }

  lemma AcceptIsAdded(p: Pool, id: TxId, pay: Payload, price: nat)
    requires Core(p) && NonePending(p, id.sender) && pay.Good?
    ensures Accept(p, id, pay, price) == Added(p, id, pay, price)
  {
    assert SenderOk(p, id.sender);
  }

  lemma InsertFeeAgree(f: Fees, id: TxId, price: nat)
    requires FeesAgree(f) && id !in f.key
    ensures FeesAgree(InsertFee(f, id, price))
  {
  }

  lemma PairOne(pending: map<Slot, TxId>, meta: map<TxId, Slot>, id: TxId)
    requires Paired(pending, meta) && SlotOf(id) !in pending && id !in meta && id.nonce <= U64_MAX
    ensures Paired(pending[SlotOf(id) := id], meta[id := SlotOf(id)])
  {
  }

  lemma AddedSenders(p: Pool, id: TxId, pay: Payload, price: nat, s: Sender)
    requires SenderOk(p, s) && NonePending(p, id.sender) && id !in p.meta && pay.Good?
    requires Paired(p.pending, p.meta)
    ensures SenderOk(Added(p, id, pay, price), s)
  {
  }

  lemma AddedCore(p: Pool, id: TxId, pay: Payload, price: nat)
    requires Core(p) && NonePending(p, id.sender) && id !in p.meta && id.nonce <= U64_MAX && pay.Good?
    ensures Core(Added(p, id, pay, price))
  {
    InsertReadyAgree(p.ready, id, pay, p.tail);
    InsertFeeAgree(p.fees, id, price);
    PairOne(p.pending, p.meta, id);
    hide ReadyAgree, FeesAgree, IncrementPrincipal, Paired, AddedRecords;
    forall s: Sender ensures SenderOk(Added(p, id, pay, price), s) {
      assert SenderOk(p, s);
      AddedSenders(p, id, pay, price, s);
    }
    hide SenderOk;
  }

  /** The ready view after an acceptance at any nonce of the sender. */
  function ReadyAfter(p: Pool, id: TxId, pay: Payload): Ready
    requires pay.Good?
  {
    var s := id.sender;
    if s !in p.minNonce then InsertReady(p.ready, id, pay, p.tail)
    else if id.nonce < p.minNonce[s] then
      var least := Slot(s, p.minNonce[s]);
      InsertReady(if least in p.pending then RemoveReady(p.ready, p.pending[least]) else p.ready, id, pay, p.tail)
    else p.ready
  }

  lemma AcceptParts(p: Pool, id: TxId, pay: Payload, price: nat)
    requires pay.Good?
    ensures var q := Accept(p, id, pay, price);
            && q.pending == p.pending[SlotOf(id) := id] && q.meta == p.meta[id := SlotOf(id)]
            && q.fees == InsertFee(p.fees, id, price) && q.ready == ReadyAfter(p, id, pay)
            && q.minNonce == if id.sender in p.minNonce && p.minNonce[id.sender] <= id.nonce then p.minNonce
                             else p.minNonce[id.sender := id.nonce]
  {
    hide InsertReady, RemoveReady, InsertFee, AddedRecords, IncrementPrincipal;
  }

  /** Which transactions are ready, and each sender's least nonce, after an acceptance. */
  ghost predicate ReadyMoved(p: Pool, q: Pool, id: TxId) {
    var s := id.sender;
    && q.pending == p.pending[SlotOf(id) := id]
    && if s !in p.minNonce then
         q.minNonce == p.minNonce[s := id.nonce] && q.ready.key.Keys == p.ready.key.Keys + {id}
       else if id.nonce < p.minNonce[s] then
         && q.minNonce == p.minNonce[s := id.nonce]
         && Slot(s, p.minNonce[s]) in p.pending
         && q.ready.key.Keys == p.ready.key.Keys - {p.pending[Slot(s, p.minNonce[s])]} + {id}
       else q.minNonce == p.minNonce && q.ready.key.Keys == p.ready.key.Keys
  }

  lemma ReadyAfterAgrees(p: Pool, id: TxId, pay: Payload)
    requires ReadyAgree(p.ready) && SenderOk(p, id.sender) && id !in p.ready.key && pay.Good?
    ensures var s := id.sender;
            var r := ReadyAfter(p, id, pay);
            && ReadyAgree(r)
            && r.key.Keys == if s !in p.minNonce then p.ready.key.Keys + {id}
                             else if id.nonce < p.minNonce[s]
                             then p.ready.key.Keys - {p.pending[Slot(s, p.minNonce[s])]} + {id}
                             else p.ready.key.Keys
  {
    var s := id.sender;
    if s !in p.minNonce {
      InsertReadyAgree(p.ready, id, pay, p.tail);
    } else if id.nonce < p.minNonce[s] {
      RemoveReadyAgree(p.ready, p.pending[Slot(s, p.minNonce[s])]);
      InsertReadyAgree(RemoveReady(p.ready, p.pending[Slot(s, p.minNonce[s])]), id, pay, p.tail);
    }
    hide ReadyAgree, RemoveReady, SenderOk;
  }

  lemma AcceptReady(p: Pool, id: TxId, pay: Payload, price: nat)
    requires Core(p) && id !in p.meta && pay.Good?
    ensures var q := Accept(p, id, pay, price); ReadyMoved(p, q, id) && ReadyAgree(q.ready)
  {
    CoreParts(p);
    assert SenderOk(p, id.sender);
    hide Core, FeesAgree, Paired, InsertFee, ReadyAgree, Accept, ReadyAfter;
    AcceptParts(p, id, pay, price);
    ReadyAfterAgrees(p, id, pay);
  }

  lemma AcceptSender(p: Pool, q: Pool, id: TxId, t: Sender)
    requires Paired(p.pending, p.meta) && p.ready.key.Keys <= p.meta.Keys && SenderOk(p, t) && SenderOk(p, id.sender)
    requires ReadyMoved(p, q, id) && id !in p.meta && SlotOf(id) !in p.pending
    ensures SenderOk(q, t)
  {
  }

  /** An acceptance keeps the maps in agreement however many nonces its sender has pending: below all of them it becomes
      the ready one and the one that was waits, otherwise it waits itself. */
  lemma AcceptCore(p: Pool, id: TxId, pay: Payload, price: nat)
    requires Core(p) && id !in p.meta && SlotOf(id) !in p.pending && id.nonce <= U64_MAX && pay.Good?
    ensures Core(Accept(p, id, pay, price))
  {
    hide ReadyAgree, FeesAgree, Paired, Accept, InsertFee, ReadyAfter, SenderOk, ReadyMoved, Core;
    CoreSenders(p);
    CoreParts(p);
    AcceptParts(p, id, pay, price);
    AcceptReady(p, id, pay, price);
    InsertFeeAgree(p.fees, id, price);
    PairOne(p.pending, p.meta, id);
    var q := Accept(p, id, pay, price);
    SendersAfter(p, q, id);
    ReadyStays(p, q, id);
    FeeKeys(p.fees, id, price);
    CoreFrom(q);
  }

  lemma CoreSenders(p: Pool)
    requires Core(p)
    ensures forall t: Sender :: SenderOk(p, t)
  {
  }

  lemma CoreFrom(p: Pool)
    requires Paired(p.pending, p.meta) && ReadyAgree(p.ready) && FeesAgree(p.fees)
    requires p.ready.key.Keys <= p.meta.Keys && p.fees.key.Keys <= p.meta.Keys && forall t: Sender :: SenderOk(p, t)
    ensures Core(p)
  {
  }

  lemma SendersAfter(p: Pool, q: Pool, id: TxId)
    requires Paired(p.pending, p.meta) && p.ready.key.Keys <= p.meta.Keys && forall t: Sender :: SenderOk(p, t)
    requires ReadyMoved(p, q, id) && id !in p.meta && SlotOf(id) !in p.pending
    ensures forall t: Sender :: SenderOk(q, t)
  {
    hide SenderOk, Paired, ReadyMoved;
    forall t: Sender ensures SenderOk(q, t) { AcceptSender(p, q, id, t); }
  }

  lemma ReadyStays(p: Pool, q: Pool, id: TxId)
    requires ReadyMoved(p, q, id)
    ensures q.ready.key.Keys <= p.ready.key.Keys + {id}
  {
  }

  lemma FeeKeys(f: Fees, id: TxId, price: nat)
    ensures InsertFee(f, id, price).key.Keys == f.key.Keys + {id}
  {
  }

  lemma AddedOne(p: Pool, id: TxId, pay: Payload, price: nat)
    requires OnePerSender(p) && id !in p.meta && NonePending(p, id.sender)
             && Get(p.expected, id.sender) == Some(id.nonce) && pay.Good?
    ensures OnePerSender(Added(p, id, pay, price))
  {
  }

  lemma AddedRecorded(meta: map<TxId, Slot>, r: Ready, t: Records, id: TxId, pay: Payload, sn: nat)
    requires Recorded(meta, t) && ReadyKeysOk(r, t) && r.key.Keys <= meta.Keys && id !in t.seen && pay.Good?
    ensures Recorded(meta[id := SlotOf(id)], AddedRecords(t, id, pay, sn)) && id !in meta
    ensures ReadyKeysOk(InsertReady(r, id, pay, sn), AddedRecords(t, id, pay, sn))
  {
  }

  lemma AddedFiled(meta: map<TxId, Slot>, f: Fees, t: Records, id: TxId, pay: Payload, sn: nat, price: nat,
                   baseFee: nat)
    requires Filed(meta, f, t, baseFee) && id !in meta && pay.Good? && pay.Effective(baseFee) == Some(price)
    ensures Filed(meta[id := SlotOf(id)], InsertFee(f, id, price), AddedRecords(t, id, pay, sn), baseFee)
  {
  }

  lemma MineWith(meta: map<TxId, Slot>, t: Records, id: TxId, pay: Payload, sn: nat, w: Principal)
    requires id !in meta && pay.Good?
    ensures |Mine(meta[id := SlotOf(id)], AddedRecords(t, id, pay, sn), w)|
         == |Mine(meta, t, w)| + (if w == pay.principal then 1 else 0)
  {
    var u := AddedRecords(t, id, pay, sn);
    assert forall x :: x in meta ==> (x in u.store <==> x in t.store) && (x in u.store ==> u.store[x] == t.store[x]);
    assert id in u.store && u.store[id] == pay;
    hide AddedRecords;
    var before, after := Mine(meta, t, w), Mine(meta[id := SlotOf(id)], u, w);
    assert forall x :: x in after <==> x in before || (x == id && w == pay.principal);
    GrowByOne(before, after, id, w == pay.principal);
  }

  lemma GrowByOne<T>(a: set<T>, b: set<T>, x: T, grows: bool)
    requires x !in a && forall y :: y in b <==> y in a || (y == x && grows)
    ensures |b| == |a| + (if grows then 1 else 0)
  {
    assert b == if grows then a + {x} else a;
  }

  lemma AddedCounts(p: Pool, id: TxId, pay: Payload, price: nat)
    requires CountsAtMost(p) && id !in p.meta && pay.Good? && |p.meta| <= MAX_PENDING_GLOBAL
    ensures CountsAtMost(Added(p, id, pay, price))
    ensures CountsExact(p) ==> CountsExact(Added(p, id, pay, price))
  {
    var q := Added(p, id, pay, price);
    forall w: Principal
      ensures w in q.principals ==> 1 <= q.principals[w] <= |Mine(q.meta, q.txs, w)|
      ensures CountsExact(p) ==> CountOf(q.principals, w) == |Mine(q.meta, q.txs, w)|
    {
      MineBound(p.meta, p.txs, w);
      MineWith(p.meta, p.txs, id, pay, p.tail, w);
      assert CountsExact(p) ==> CountOf(p.principals, w) == |Mine(p.meta, p.txs, w)|;
      hide Mine, InsertReady, InsertFee, AddedRecords;
    }
  }

  lemma AcceptInv(p: Pool, id: TxId, pay: Payload, price: nat)
    requires Inv(p) && NonePending(p, id.sender) && id !in p.txs.seen && Get(p.expected, id.sender) == Some(id.nonce)
    requires id.nonce <= U64_MAX && pay.Good? && pay.Effective(p.cfg.baseFee) == Some(price)
    requires |p.pending| < MAX_PENDING_GLOBAL
    ensures var q := Accept(p, id, pay, price);
            && q == Added(p, id, pay, price) && Inv(q)
            && (CountsExact(p) ==> CountsExact(q))
  {
    hide Core, OnePerSender, Named, Recorded, ReadyKeysOk, Filed, CountsAtMost, CountsExact, InsertReady, InsertFee,
         AddedRecords, IncrementPrincipal, Paired, ReadyAgree, FeesAgree, Accept;
    CoreParts(p);
    AcceptIsAdded(p, id, pay, price);
    AddedRecorded(p.meta, p.ready, p.txs, id, pay, p.tail);
    AddedCore(p, id, pay, price);
    AddedOne(p, id, pay, price);
    AddedFiled(p.meta, p.fees, p.txs, id, pay, p.tail, price, p.cfg.baseFee);
    AddedCounts(p, id, pay, price);
    assert Named(p.meta[id := SlotOf(id)]) by { AddedNamed(p.meta, id); }
  }

  lemma AddedNamed(meta: map<TxId, Slot>, id: TxId)
    requires Named(meta)
    ensures Named(meta[id := SlotOf(id)])
  {
  }

  // ---------------------------------------------------------------- submission

  lemma CacheInv(p: Pool, s: Sender, account: nat)
    requires Inv(p)
    ensures Inv(CacheExpected(p, s, account))
    ensures CountsExact(p) ==> CountsExact(CacheExpected(p, s, account))
  {
    hide Core, OnePerSender, Recorded, Filed, ReadyKeysOk, Mine, Named;
    if s !in p.expected {
      var e := p.expected[s := account];
      CoreIgnoresRecords(p, p.txs, p.cfg, e);
      MoreExpected(p, e);
    }
  }

  lemma MoreExpected(p: Pool, e: map<Sender, nat>)
    requires OnePerSender(p) && forall s :: s in p.expected ==> s in e && e[s] == p.expected[s]
    ensures OnePerSender(p.(expected := e))
  {
  }

  lemma NotCurrentNonePending(p: Pool, s: Sender)
    requires OnePerSender(p) && s !in p.current
    ensures NonePending(p, s)
  {
  }

  lemma RemovedNonePending(p: Pool, id: TxId, s: Sender, u: Records)
    requires Core(p) && OnePerSender(p) && Named(p.meta) && id in p.meta && (s == id.sender || NonePending(p, s))
    ensures NonePending(Removed(p, id, false, 0).(txs := u), s)
  {
  }

  /** The first bid is lower, or ties and the first id's bytes come no later. */
  predicate LowerBid(a: nat, x: TxId, b: nat, y: TxId) { a < b || (a == b && x.hash <= y.hash) }

  /** The transaction an acceptance pushed out: the sender's own, outbid under the same nonce, or, when the pool
      is full, the one that bids least of all, the lowest id among equals; in both cases it bid strictly less than the
      newcomer. */
  ghost predicate PushedOut(p: Pool, v: TxId, id: TxId, price: nat) {
    && v in p.meta && Readable(p.txs, v) && p.txs.store[v].Price(p.cfg.baseFee) < price
    && (if id.sender in p.current then v == p.current[id.sender] && SlotOf(v) == SlotOf(id)
        else |p.pending| == MAX_PENDING_GLOBAL
             && forall x :: x in p.meta && Readable(p.txs, x) ==>
                  LowerBid(p.txs.store[v].Price(p.cfg.baseFee), v, p.txs.store[x].Price(p.cfg.baseFee), x))
  }

  /** `v` out of the queue with drop code REPLACED, or nothing. */
  function Without(p: Pool, v: Option<TxId>): Pool {
    match v
    case None => p
    case Some(id) => Removed(p, id, false, 0).(txs := Purge(p.txs, id, DROP_CODE_REPLACED))
  }

  /** The pool after an accepted submission that pushed out `victim`. */
  function Accepted(p: Pool, id: TxId, req: Request, price: nat, victim: Option<TxId>): Pool {
    Added(Without(CacheExpected(p, id.sender, req.account), victim), id, PayloadOf(id, req), price)
  }

  /** The cheapest entry of the fee index is a pending transaction no other underbids, the lowest id among equals. */
  lemma LowestIsMinimal(p: Pool, low: FeeKey)
    requires Inv(p) && IsLowestFee(p.fees.index, low)
    ensures var v := p.fees.index[low];
            v in p.meta && Readable(p.txs, v) && p.txs.store[v].Price(p.cfg.baseFee) == low.price
            && forall x :: x in p.meta && Readable(p.txs, x) ==>
                 LowerBid(low.price, v, p.txs.store[x].Price(p.cfg.baseFee), x)
  {
    hide ReadyKeysOk, OnePerSender, CountsAtMost, Named;
    var v := p.fees.index[low];
    forall x | x in p.meta && Readable(p.txs, x)
      ensures LowerBid(low.price, v, p.txs.store[x].Price(p.cfg.baseFee), x)
    {
      assert x in p.fees.key && p.fees.key[x] in p.fees.index;
    }
  }

  /** What makes room for an acceptance, and that the newcomer's slot is then free: the late conflict check in
      the submit paths cannot fire. */
  lemma MakeRoom(p: Pool, id: TxId, victim: Option<TxId>)
    requires Inv(p) && (victim.Some?
             ==> victim.value in p.meta && (id.sender in p.current ==> victim.value.sender == id.sender))
    requires victim.None? ==> id.sender !in p.current && |p.pending| < MAX_PENDING_GLOBAL
    ensures var q := Without(p, victim);
            && Inv(q) && (CountsExact(p) ==> CountsExact(q))
            && NonePending(q, id.sender) && SlotOf(id) !in q.pending && |q.pending| < MAX_PENDING_GLOBAL
            && q.txs.seen == p.txs.seen && q.expected == p.expected && q.cfg == p.cfg
            && (victim.Some? ==> q == Drop(p, victim.value, None, DROP_CODE_REPLACED))
  {
    hide Core, Recorded, ReadyKeysOk, Filed, CountsAtMost, CountsExact, RemoveReady, RemoveFee, DecrementPrincipal,
         Purge, Drop;
    if id.sender !in p.current { NotCurrentNonePending(p, id.sender); }
    hide OnePerSender, Named;
    match victim {
      case None =>
      case Some(v) =>
        DropInv(p, v, None, DROP_CODE_REPLACED);
        PurgeKeeps(p.txs, v, DROP_CODE_REPLACED);
        RemovedNonePending(p, v, id.sender, Purge(p.txs, v, DROP_CODE_REPLACED));
    }
  }

  lemma EnqueueSpec(p: Pool, id: TxId, req: Request, price: nat, victim: Option<TxId>)
    requires Inv(p) && id !in p.txs.seen && id.nonce <= U64_MAX && Get(p.expected, id.sender) == Some(id.nonce)
    requires PayloadOf(id, req).Effective(p.cfg.baseFee) == Some(price)
    requires victim.Some? ==> victim.value in p.meta && (id.sender in p.current ==> victim.value.sender == id.sender)
    requires victim.None? ==> id.sender !in p.current && |p.pending| < MAX_PENDING_GLOBAL
    ensures var (q, r) := Enqueue(Without(p, victim), id, req, price);
            && r == Ok(id) && Inv(q) && (CountsExact(p) ==> CountsExact(q))
            && q == Added(Without(p, victim), id, PayloadOf(id, req), price)
  {
    hide Inv, CountsExact, Without, Added, Drop, Accept;
    MakeRoom(p, id, victim);
    AcceptInv(Without(p, victim), id, PayloadOf(id, req), price);
  }

  lemma DropIsWithout(p: Pool, v: TxId)
    requires Inv(p) && v in p.meta
    ensures Drop(p, v, None, DROP_CODE_REPLACED) == Without(p, Some(v))
    ensures v.sender in p.current && p.current[v.sender] == v ==> Replace(p, v.sender, v) == Without(p, Some(v))
  {
    DropInv(p, v, None, DROP_CODE_REPLACED);
    if v.sender in p.current && p.current[v.sender] == v { ReplaceIsDrop(p, v.sender); }
    hide Inv, Drop, Replace, Removed, Purge;
  }

  /** A sender with a pending transaction gets its nonce only by outbidding it. */
  lemma ReplaceSpec(p: Pool, id: TxId, req: Request, price: nat)
    requires Inv(p) && id.sender in p.current && CacheExpected(p, id.sender, req.account) == p
    ensures var (q, r) := ApplyNonce(p, id.sender, id.nonce, price, req.account);
            var v := p.current[id.sender];
            && r != Ok(None)
            && (r.Err? ==> q == p)
            && (r.Ok? ==> r.value == Some(v) && v.nonce == id.nonce && PushedOut(p, v, id, price)
                          && q == Without(p, Some(v)) && Get(p.expected, id.sender) == Some(id.nonce))
            && (r == Err(NonceConflict) <==>
                  && id.nonce == v.nonce
                  && var bid := p.txs.store[v].Effective(p.cfg.baseFee); bid.None? || price <= bid.value)
  {
    hide Inv, Drop, Replace, Without, Removed, Purge;
    CurrentOf(p, id.sender);
    DropIsWithout(p, p.current[id.sender]);
  }

  lemma PoolBounded(p: Pool)
    requires Inv(p)
    ensures |p.pending| <= MAX_PENDING_GLOBAL
  {
  }

  /** A full pool makes room only by evicting a lowest bid below the newcomer's. */
  lemma CapsSpec(p: Pool, id: TxId, who: Principal, price: nat) returns (victim: Option<TxId>)
    requires Inv(p) && id.sender !in p.current
    ensures var (q, r) := EnforceCaps(p, id.sender, who, price);
            && (r.Err? ==> q == p && r.error != NonceConflict)
            && (r.Ok? ==> q == Without(p, victim) && (victim.Some? ==> PushedOut(p, victim.value, id, price)))
            && (r.Ok? && victim.None? ==> |p.pending| < MAX_PENDING_GLOBAL)
  {
    hide Inv, Drop, Removed, Purge;
    victim := None;
    PoolBounded(p);
    if EnforceCaps(p, id.sender, who, price).1.Ok? && |p.pending| >= MAX_PENDING_GLOBAL {
      var low := LowestFee(p.fees.index).value;
      LowestIsMinimal(p, low);
      victim := Some(p.fees.index[low]);
      DropIsWithout(p, p.fees.index[low]);
    }
  }

  /** What a submission did. */
  ghost predicate Submitted(p: Pool, id: TxId, req: Request, q: Pool, r: Result<TxId, ChainError>,
                            victim: Option<TxId>) {
    match r
    case Err(_) => q == p || q == CacheExpected(p, id.sender, req.account)
    case Ok(got) =>
      && got == id && id !in p.txs.seen && Screen(p, id, req).Ok?
      && Get(CacheExpected(p, id.sender, req.account).expected, id.sender) == Some(id.nonce)
      && (victim.Some? ==> PushedOut(p, victim.value, id, Screen(p, id, req).value))
      && (victim.None? ==> id.sender !in p.current && |p.pending| < MAX_PENDING_GLOBAL)
      && q == Accepted(p, id, req, Screen(p, id, req).value, victim)
  }

  /** The submission is well formed and its sender's pending transaction has its nonce and bids no less. */
  ghost predicate NotOutbid(p: Pool, id: TxId, req: Request) {
    && Screen(p, id, req).Ok? && id.sender in p.current && p.current[id.sender].nonce == id.nonce
    && Readable(p.txs, p.current[id.sender])
    && var bid := p.txs.store[p.current[id.sender]].Effective(p.cfg.baseFee);
       bid.None? || Screen(p, id, req).value <= bid.value
  }

  /** Submission is all or nothing: an error leaves every map alone but the cached nonce, and an acceptance
      replaces or evicts one lower bid, or finds room. The conflict error reports only that the sender's pending
      transaction is not outbid. */
  lemma SubmitSpec(p: Pool, id: TxId, req: Request) returns (victim: Option<TxId>)
    requires Inv(p) && id.nonce <= U64_MAX
    ensures var (q, r) := Submit(p, id, req);
            && Inv(q) && (CountsExact(p) ==> CountsExact(q))
            && Submitted(p, id, req, q, r, victim)
            && (r == Err(NonceConflict) <==> NotOutbid(p, id, req))
  {
    victim := None;
    hide Inv, CountsExact, Accepted, PushedOut, SubmitScreened, CacheExpected;
    if Screen(p, id, req).Err? { return; }
    if id.sender in p.current {
      victim := Some(p.current[id.sender]);
      SubmitReplacing(p, id, req);
    } else {
      victim := SubmitAdding(p, id, req);
    }
  }

  lemma ScreenPassed(p: Pool, id: TxId, req: Request)
    requires Screen(p, id, req).Ok?
    ensures id !in p.txs.seen && PayloadOf(id, req).Effective(p.cfg.baseFee) == Some(Screen(p, id, req).value)
  {
  }

  lemma SubmitReplacing(p: Pool, id: TxId, req: Request)
    requires Inv(p) && Screen(p, id, req).Ok? && id.sender in p.current && id.nonce <= U64_MAX
    ensures var (q, r) := SubmitScreened(p, id, req, Screen(p, id, req).value);
            && Inv(q) && (CountsExact(p) ==> CountsExact(q))
            && Submitted(p, id, req, q, r, Some(p.current[id.sender]))
            && (r == Err(NonceConflict) <==> NotOutbid(p, id, req))
    ensures var price := Screen(p, id, req).value;
            ApplyNonce(p, id.sender, id.nonce, price, req.account).1.Ok? ==>
              SubmitScreened(p, id, req, price).1 == Ok(id)
  {
    hide Inv, CountsExact, Without, Added, Drop, Accept, Replace, Removed, EnforceCaps, Enqueue, Screen;
    ScreenPassed(p, id, req);
    CurrentOf(p, id.sender);
    var price := Screen(p, id, req).value;
    var victim := Some(p.current[id.sender]);
    CacheInv(p, id.sender, req.account);
    ReplaceSpec(p, id, req, price);
    if ApplyNonce(p, id.sender, id.nonce, price, req.account).1.Ok? {
      EnqueueSpec(CacheExpected(p, id.sender, req.account), id, req, price, victim);
    }
  }

  lemma SubmitAdding(p: Pool, id: TxId, req: Request) returns (victim: Option<TxId>)
    requires Inv(p) && Screen(p, id, req).Ok? && id.sender !in p.current && id.nonce <= U64_MAX
    ensures var (q, r) := SubmitScreened(p, id, req, Screen(p, id, req).value);
            && Inv(q) && (CountsExact(p) ==> CountsExact(q))
            && Submitted(p, id, req, q, r, victim)
            && r != Err(NonceConflict)
    ensures var price := Screen(p, id, req).value;
            ApplyNonce(p, id.sender, id.nonce, price, req.account).1.Ok?
            && EnforceCaps(CacheExpected(p, id.sender, req.account), id.sender, req.principal, price).1.Ok? ==>
              SubmitScreened(p, id, req, price).1 == Ok(id)
  {
    hide Inv, CountsExact, Without, Added, EnforceCaps, Enqueue, Screen, PushedOut, ApplyNonce, SubmitScreened,
         Submitted, PayloadOf;
    ScreenPassed(p, id, req);
    var price := Screen(p, id, req).value;
    var p1 := CacheExpected(p, id.sender, req.account);
    CacheInv(p, id.sender, req.account);
    victim := CapsSpec(p1, id, req.principal, price);
    NonceOfNew(p, id, price, req.account);
    AddingIs(p, id, req, price);
    var refusal := ApplyNonce(p, id.sender, id.nonce, price, req.account).1;
    var capped := EnforceCaps(p1, id.sender, req.principal, price).1;
    if refusal.Err? {
      SubmittedErr(p, id, req, p1, refusal.error, victim);
    } else if capped.Err? {
      SubmittedErr(p, id, req, p1, capped.error, victim);
    } else {
      if victim.Some? { PushedOutCached(p, p1, victim.value, id, price); }
      EnqueueSpec(p1, id, req, price, victim);
      SubmittedOk(p, id, req, price, victim);
    }
  }

  lemma SubmittedErr(p: Pool, id: TxId, req: Request, q: Pool, e: ChainError, victim: Option<TxId>)
    requires q == p || q == CacheExpected(p, id.sender, req.account)
    ensures Submitted(p, id, req, q, Err(e), victim)
  {
  }

  lemma SubmittedOk(p: Pool, id: TxId, req: Request, price: nat, victim: Option<TxId>)
    requires Screen(p, id, req) == Ok(price) && id !in p.txs.seen
    requires var c := CacheExpected(p, id.sender, req.account);
             Get(c.expected, id.sender) == Some(id.nonce) && c.pending == p.pending
    requires victim.Some? ==> PushedOut(p, victim.value, id, price)
    requires victim.None? ==> id.sender !in p.current && |p.pending| < MAX_PENDING_GLOBAL
    ensures var c := CacheExpected(p, id.sender, req.account);
            Submitted(p, id, req, Added(Without(c, victim), id, PayloadOf(id, req), price), Ok(id), victim)
  {
    hide Screen, PushedOut, CacheExpected, Added, Without;
  }

  lemma AddingIs(p: Pool, id: TxId, req: Request, price: nat)
    ensures var (p1, e) := ApplyNonce(p, id.sender, id.nonce, price, req.account);
            var (p2, r) := EnforceCaps(p1, id.sender, req.principal, price);
            && (e.Err? ==> SubmitScreened(p, id, req, price) == (p1, Err(e.error)))
            && (e == Ok(None) && r.Err? ==> SubmitScreened(p, id, req, price) == (p2, Err(r.error)))
            && (e == Ok(None) && r.Ok? ==> SubmitScreened(p, id, req, price) == Enqueue(p2, id, req, price))
  {
    hide ApplyNonce, EnforceCaps, Enqueue;
  }

  lemma PushedOutCached(p: Pool, c: Pool, v: TxId, id: TxId, price: nat)
    requires c == p.(expected := c.expected)
    ensures PushedOut(c, v, id, price) <==> PushedOut(p, v, id, price)
    ensures PushedOut(c, v, id, price) ==> v in p.meta
  {
  }

  /** A sender with nothing pending meets only the nonce checks. */
  lemma NonceOfNew(p: Pool, id: TxId, price: nat, account: nat)
    requires id.sender !in p.current
    ensures var (q, r) := ApplyNonce(p, id.sender, id.nonce, price, account);
            && q == CacheExpected(p, id.sender, account) && q.current == p.current && q.txs.seen == p.txs.seen
            && q.cfg == p.cfg && (r.Ok? ==> r == Ok(None) && Get(q.expected, id.sender) == Some(id.nonce))
            && (r.Err? ==> r.error != NonceConflict)
  {
  }

  lemma CurrentOf(p: Pool, s: Sender)
    requires Inv(p) && s in p.current
    ensures var v := p.current[s];
            v in p.meta && v.sender == s && Readable(p.txs, v) && Get(p.expected, s) == Some(v.nonce)
  {
  }
}
