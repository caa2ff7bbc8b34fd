/** The pending-transaction maps of `crates/evm-core/src/chain.rs` and what the operations do to them.

    `Pool` is the value of the maps; the functions follow the source's helpers one by one, except that the
    mutual recursion of `advance_sender_after_tx` with `drop_invalid_fee_pending*` is `Refill` here. */
module Mempool {
  import opened Common
  import opened Types

  const MAX_PENDING_GLOBAL: nat := 8192
  const MAX_PENDING_PER_SENDER: nat := 64
  const MAX_PENDING_PER_PRINCIPAL: nat := 32
  const DROPPED_RING_CAPACITY: nat := 1000

  const DROP_CODE_DECODE: nat := 1
  const DROP_CODE_INVALID_FEE: nat := 5
  const DROP_CODE_REPLACED: nat := 6

  datatype ReadyKey = ReadyKey(maxFee: nat, priority: nat, sn: nat, id: TxId)

  datatype SeqKey = SeqKey(sn: nat, id: TxId)

  datatype FeeKey = FeeKey(price: nat, id: TxId)

  datatype TxLoc = Queued(sn: nat) | Included(block: nat, index: nat) | Dropped(code: nat)

  /** A stored envelope: its fields when it still decodes, Corrupt otherwise. */
  datatype Payload =
    | Good(kind: TxKind, principal: Principal, maxFee: nat, maxPriority: nat, dynamic: bool)
    | Corrupt
  {
    function Priority(): nat requires Good? { if dynamic then maxPriority else 0 }

    function Effective(baseFee: nat): Option<nat> requires Good? {
      EffectiveGasPrice(maxFee, Priority(), baseFee)
    }

    // The price under which the fee index files the payload.
    function Price(baseFee: nat): nat requires Good? {
      match Effective(baseFee) case Some(v) => v case None => 0
    }
  }

  datatype ChainError =
    | DecodeRateLimited | TxTooLarge | TxAlreadySeen | DecodeFailed | AddressDerivationFailed | InvalidFee
    | NonceTooLow | NonceGap | NonceConflict | SenderQueueFull | PrincipalQueueFull | QueueFull

  /** The three ready views: by priority, by arrival, and by id. */
  datatype Ready = Ready(
    queue: map<ReadyKey, TxId>,   // ready_queue
    bySeq: map<SeqKey, TxId>,     // ready_by_seq
    key: map<TxId, ReadyKey>)     // ready_key_by_tx_id

  /** The two fee views. */
  datatype Fees = Fees(
    index: map<FeeKey, TxId>,     // pending_fee_index
    key: map<TxId, FeeKey>)       // pending_fee_key_by_tx_id

  /** What is kept per transaction, queued or not. */
  datatype Records = Records(
    locs: map<TxId, TxLoc>,
    store: map<TxId, Payload>,    // tx_store
    seen: set<TxId>,              // seen_tx
    ethIndex: set<TxId>,          // eth_tx_hash_index, named by the id its hash belongs to
    ring: map<nat, TxId>, ringNext: nat, ringLen: nat)

  datatype Config = Config(baseFee: nat, minPriority: nat, minGasPrice: nat)

  datatype Pool = Pool(
    pending: map<Slot, TxId>,        // pending_by_sender_nonce
    meta: map<TxId, Slot>,           // pending_meta_by_tx_id
    minNonce: map<Sender, nat>,      // pending_min_nonce
    current: map<Sender, TxId>,      // pending_current_by_sender
    expected: map<Sender, nat>,      // sender_expected_nonce
    principals: map<Principal, nat>, // principal_pending_count
    ready: Ready,
    fees: Fees,
    txs: Records,
    tail: nat,                       // queue_meta.tail
    cfg: Config)

  // ---------------------------------------------------------------- small helpers

  function TxLocsGet(t: Records, id: TxId): Option<TxLoc> {
    if id !in t.locs || t.locs[id] == Queued(U64_MAX) then None else Some(t.locs[id])
  }

  function RemoveReady(r: Ready, id: TxId): Ready {
    if id !in r.key then r
    else Ready(r.queue - {r.key[id]}, r.bySeq - {SeqKey(r.key[id].sn, id)}, r.key - {id})
  }

  function InsertReady(r: Ready, id: TxId, pay: Payload, sn: nat): Ready
    requires pay.Good?
  {
    var k := ReadyKey(pay.maxFee, pay.Priority(), sn, id);
    Ready(r.queue[k := id], r.bySeq[SeqKey(sn, id) := id], r.key[id := k])
  }

  function RemoveFee(f: Fees, id: TxId): Fees {
    if id !in f.key then f else Fees(f.index - {f.key[id]}, f.key - {id})
  }

  function InsertFee(f: Fees, id: TxId, price: nat): Fees {
    var k := FeeKey(price, id);
    Fees(f.index[k := id], f.key[id := k])
  }

  /** `decrement_principal_pending_count_for_tx`: an entry never stays at zero. */
  function DecrementPrincipal(counts: map<Principal, nat>, t: Records, id: TxId): map<Principal, nat> {
    if id !in t.store || t.store[id].Corrupt? then counts
    else
      var who := t.store[id].principal;
      if who !in counts || counts[who] <= 1 then counts - {who} else counts[who := counts[who] - 1]
  }

  function RemoveEthIndex(t: Records, id: TxId): Records {
    if id in t.store && t.store[id].Good? && t.store[id].kind == EthSigned then t.(ethIndex := t.ethIndex - {id}) else t
  }

  /** `push_dropped_ring`: when the ring is full the oldest drop loses its location. */
  function PushRing(t: Records, id: TxId): Records {
    var at := t.ringNext;
    var u := t.(ring := t.ring[at := id], ringNext := SatAdd(at, 1, U64_MAX));
    if t.ringLen < DROPPED_RING_CAPACITY then u.(ringLen := t.ringLen + 1)
    else
      var oldest := SatSub(at, DROPPED_RING_CAPACITY);
      if oldest !in u.ring then u
      else
        var victim := u.ring[oldest];
        u.(ring := u.ring - {oldest},
           locs := if TxLocsGet(u, victim).Some? && u.locs[victim].Dropped? then u.locs - {victim} else u.locs)
  }

  /** Location, payload and hash index of a dropped transaction. */
  function Purge(t: Records, id: TxId, code: nat): Records {
    var u := RemoveEthIndex(t, id);
    PushRing(u.(store := u.store - {id}, locs := u.locs[id := Dropped(code)]), id)
  }

  /** `mark_dropped_and_purge_payload` */
  function MarkDropped(p: Pool, id: TxId, code: nat): Pool {
    p.(fees := RemoveFee(p.fees, id), txs := Purge(p.txs, id, code))
  }

  /** `bump_expected_nonce`; `account` is the nonce the account state holds. */
  function BumpExpected(expected: map<Sender, nat>, sender: Sender, account: nat): map<Sender, nat> {
    expected[sender := SatAdd(if sender in expected then expected[sender] else account, 1, U64_MAX)]
  }

  // ---------------------------------------------------------------- advancing a sender

  ghost predicate IsNext(pending: map<Slot, TxId>, sender: Sender, after: nat, n: nat) {
    && SatAdd(after, 1, U64_MAX) <= n
    && Slot(sender, n) in pending
    && forall m :: SatAdd(after, 1, U64_MAX) <= m && Slot(sender, m) in pending ==> n <= m
  }

  /** `next_pending_for_sender`: the sender's least pending nonce from `after + 1` on (saturating). */
  ghost function NextPending(pending: map<Slot, TxId>, sender: Sender, after: nat): (r: Option<nat>)
    ensures r.Some? ==> IsNext(pending, sender, after, r.value)
    ensures r.None? ==> forall n :: SatAdd(after, 1, U64_MAX) <= n ==> Slot(sender, n) !in pending
  {
    if n :| SatAdd(after, 1, U64_MAX) <= n && Slot(sender, n) in pending
    then NextExists(pending, sender, after, n); (var m :| IsNext(pending, sender, after, m); Some(m))
    else None
  }

  lemma {:induction false} NextExists(pending: map<Slot, TxId>, sender: Sender, after: nat, n: nat)
    requires SatAdd(after, 1, U64_MAX) <= n && Slot(sender, n) in pending
    ensures exists m :: IsNext(pending, sender, after, m)
    decreases n
  {
    if m :| SatAdd(after, 1, U64_MAX) <= m < n && Slot(sender, m) in pending {
      NextExists(pending, sender, after, m);
    } else {
      assert IsNext(pending, sender, after, n);
    }
  }

  datatype Loaded = Fields(pay: Payload, sn: nat) | Missing | Undecodable

  /** `load_fee_fields_and_seq`; a location that is not Queued carries sequence number 0. */
  function LoadFee(t: Records, id: TxId): (r: Loaded)
    ensures r.Fields? ==> r.pay.Good?
  {
    if id !in t.store then Missing
    else if t.store[id].Corrupt? then Undecodable
    else match TxLocsGet(t, id)
      case None => Missing
      case Some(loc) => Fields(t.store[id], if loc.Queued? then loc.sn else 0)
  }

  /** The straight-line part of `advance_sender_after_tx`: `id` leaves every queue map. */
  function Detach(p: Pool, id: TxId, key: Slot, bump: bool, account: nat): Pool {
    p.(ready := RemoveReady(p.ready, id),
       meta := p.meta - {id},
       pending := p.pending - {key},
       fees := RemoveFee(p.fees, id),
       principals := DecrementPrincipal(p.principals, p.txs, id),
       current := if Get(p.current, key.sender) == Some(id) then p.current - {key.sender} else p.current,
       expected := if bump then BumpExpected(p.expected, key.sender, account) else p.expected)
  }

  /** Makes the sender's next pending transaction after `cursor` the ready one, dropping those that cannot be
      read on the way. The drops are recorded from the last to the first, as the recursion unwinds. */
  ghost function Refill(p: Pool, sender: Sender, cursor: nat): Pool
    decreases |p.pending|
  {
    match NextPending(p.pending, sender, cursor)
    case None => p.(minNonce := p.minNonce - {sender})
    case Some(n) =>
      var k := Slot(sender, n);
      var id := p.pending[k];
      var q := p.(minNonce := p.minNonce[sender := n]);
      match LoadFee(p.txs, id)
      case Fields(pay, sn) => q.(ready := InsertReady(q.ready, id, pay, sn))
      case Missing => Shrinks(p.pending, k);
                      MarkDropped(Refill(Detach(q, id, k, false, 0), sender, n), id, DROP_CODE_INVALID_FEE)
      case Undecodable => Shrinks(p.pending, k);
                          MarkDropped(Refill(Detach(q, id, k, false, 0), sender, n), id, DROP_CODE_DECODE)
  }

  lemma Shrinks<K, V>(m: map<K, V>, k: K)
    requires k in m
    ensures |m - {k}| == |m| - 1
  {
  }

  /** `advance_sender_after_tx`; `over` is the sender and nonce the caller knows, used when `id` has no entry. */
  ghost function Advance(p: Pool, id: TxId, over: Option<Slot>, bump: bool, account: nat): Pool {
    match if id in p.meta then Some(p.meta[id]) else over
    case None => p.(ready := RemoveReady(p.ready, id))
    case Some(k) =>
      var d := Detach(p, id, k, bump, account);
      if Get(d.minNonce, k.sender) == Some(k.nonce) then Refill(d, k.sender, k.nonce) else d
  }

  ghost function Drop(p: Pool, id: TxId, over: Option<Slot>, code: nat): Pool {
    MarkDropped(Advance(p, id, over, false, 0), id, code)
  }

  // ---------------------------------------------------------------- submission

  /** `replace_pending_for_sender` */
  function Replace(p: Pool, sender: Sender, prev: TxId): Pool {
    MarkDropped(
      p.(ready := RemoveReady(p.ready, prev),
         fees := RemoveFee(p.fees, prev),
         principals := DecrementPrincipal(p.principals, p.txs, prev),
         pending := if prev in p.meta then p.pending - {p.meta[prev]} else p.pending,
         meta := p.meta - {prev},
         minNonce := p.minNonce - {sender},
         current := p.current - {sender}),
      prev, DROP_CODE_REPLACED)
  }

  function CacheExpected(p: Pool, sender: Sender, account: nat): Pool {
    if sender in p.expected then p else p.(expected := p.expected[sender := account])
  }

  /** `apply_nonce_and_replacement`: the id that was replaced, if any. */
  function ApplyNonce(p: Pool, sender: Sender, nonce: nat, price: nat, account: nat): (Pool, Result<Option<TxId>,
                      ChainError>) {
    var q := CacheExpected(p, sender, account);
    if nonce < q.expected[sender] then (q, Err(NonceTooLow))
    else if nonce > q.expected[sender] then (q, Err(NonceGap))
    else if sender !in q.current then (q, Ok(None))
    else
      var prev := q.current[sender];
      if prev !in q.txs.store || q.txs.store[prev].Corrupt? then (q, Err(NonceConflict))
      else match q.txs.store[prev].Effective(q.cfg.baseFee)
        case None => (q, Err(NonceConflict))
        case Some(paid) => if price <= paid then (q, Err(NonceConflict)) else (Replace(q, sender, prev), Ok(Some(prev)))
  }

  predicate FeeLess(a: FeeKey, b: FeeKey) { a.price < b.price || (a.price == b.price && IdLess(a.id, b.id)) }

  ghost predicate IsLowestFee(idx: map<FeeKey, TxId>, k: FeeKey) {
    k in idx && forall j :: j in idx ==> j == k || FeeLess(k, j)
  }

  /** First entry of the fee index: the lowest price, the lowest id among equals. */
  ghost function LowestFee(idx: map<FeeKey, TxId>): (r: Option<FeeKey>)
    ensures r.Some? ==> IsLowestFee(idx, r.value)
    ensures r.None? ==> forall k :: k !in idx
  {
    if k :| k in idx then LowestExists(idx, k); (var m :| IsLowestFee(idx, m); Some(m)) else None
  }

  lemma {:induction false} LowestExists(idx: map<FeeKey, TxId>, k: FeeKey)
    requires k in idx
    ensures exists m :: IsLowestFee(idx, m)
    decreases k.price, k.id.hash, k.id.sender, k.id.nonce, if k.id.kind.EthSigned? then 0 else 1
  {
    if j :| j in idx && FeeLess(j, k) {
      LowestExists(idx, j);
    } else {
      assert IsLowestFee(idx, k);
    }
  }

  ghost function SlotsOf(p: Pool, sender: Sender): set<Slot> {
    set k | k in p.pending && k.sender == sender
  }

  ghost function CountForPrincipal(p: Pool, who: Principal): nat {
    if who == EMPTY_PRINCIPAL || who !in p.principals then 0 else p.principals[who]
  }

  /** `enforce_pending_caps` with `classify_pending_caps` and `evict_lowest_fee_pending`. */
  ghost function EnforceCaps(p: Pool, sender: Sender, who: Principal, price: nat): (Pool, Result<(), ChainError>) {
    if |SlotsOf(p, sender)| >= MAX_PENDING_PER_SENDER then (p, Err(SenderQueueFull))
    else if CountForPrincipal(p, who) >= MAX_PENDING_PER_PRINCIPAL then (p, Err(PrincipalQueueFull))
    else if |p.pending| < MAX_PENDING_GLOBAL then (p, Ok(()))
    else match LowestFee(p.fees.index)
      case None => (p, Err(QueueFull))
      case Some(low) =>
        if price <= low.price then (p, Err(QueueFull))
        else (Drop(p, p.fees.index[low], None, DROP_CODE_REPLACED), Ok(()))
  }

  /** `promote_if_next_nonce` */
  function Promote(p: Pool, sender: Sender, id: TxId, nonce: nat, pay: Payload, sn: nat): Pool
    requires pay.Good?
  {
    if sender !in p.minNonce then
      p.(minNonce := p.minNonce[sender := nonce], ready := InsertReady(p.ready, id, pay, sn))
    else if nonce < p.minNonce[sender] then
      var least := Slot(sender, p.minNonce[sender]);
      var r := if least in p.pending then RemoveReady(p.ready, p.pending[least]) else p.ready;
      p.(minNonce := p.minNonce[sender := nonce], ready := InsertReady(r, id, pay, sn))
    else p
  }

  function IncrementPrincipal(counts: map<Principal, nat>, who: Principal): map<Principal, nat> {
    counts[who := SatAdd(if who in counts then counts[who] else 0, 1, U32_MAX)]
  }

  /** The records an accepted submission writes. */
  function AddedRecords(t: Records, id: TxId, pay: Payload, sn: nat): Records
    requires pay.Good?
  {
    t.(seen := t.seen + {id}, store := t.store[id := pay], locs := t.locs[id := Queued(sn)],
       ethIndex := if pay.kind == EthSigned then t.ethIndex + {id} else t.ethIndex)
  }

  /** The bookkeeping of an accepted submission. */
  function Accept(p: Pool, id: TxId, pay: Payload, price: nat): Pool
    requires pay.Good?
  {
    var sn := p.tail;
    var q := p.(
      txs := AddedRecords(p.txs, id, pay, sn),
      current := p.current[id.sender := id], tail := SatAdd(sn, 1, U64_MAX),
      pending := p.pending[SlotOf(id) := id], meta := p.meta[id := SlotOf(id)],
      principals := IncrementPrincipal(p.principals, pay.principal), fees := InsertFee(p.fees, id, price));
    Promote(q, id.sender, id, id.nonce, pay, sn)
  }

  /** What a submission carries besides its id: whether the principal is rate limited, whether the bytes are too
      long, whether they decode (for an IC call: whether the caller's address can be derived), the caller's
      principal, the fee fields, and the nonce in the sender's account. */
  datatype Request = Request(
    suppressed: bool, tooLarge: bool, decodes: bool, principal: Principal,
    maxFee: nat, priority: Option<nat>, account: nat)

  function PayloadOf(id: TxId, req: Request): (pay: Payload)
    ensures pay.Good? && pay.principal == req.principal && pay.kind == id.kind
  {
    Good(id.kind, req.principal, req.maxFee, if req.priority.Some? then req.priority.value else 0, req.priority.Some?)
  }

  /** The checks both submit paths make before they touch the queue, in the order each path makes them; the
      result is the effective price. */
  function Screen(p: Pool, id: TxId, req: Request): Result<nat, ChainError> {
    if req.suppressed then Err(DecodeRateLimited)
    else if req.tooLarge then Err(TxTooLarge)
    else if id.kind == IcSynthetic && !req.decodes then Err(AddressDerivationFailed)
    else if id in p.txs.seen then Err(TxAlreadySeen)
    else if !req.decodes then Err(DecodeFailed)
    else if !MinFeeSatisfied(req.maxFee, req.priority, p.cfg.baseFee, p.cfg.minPriority, p.cfg.minGasPrice)
        then Err(InvalidFee)
    else match PayloadOf(id, req).Effective(p.cfg.baseFee)
      case None => Err(InvalidFee)
      case Some(price) => Ok(price)
  }

  /** The tail of both submit paths: the last conflict check, then the bookkeeping. */
  function Enqueue(p: Pool, id: TxId, req: Request, price: nat): (Pool, Result<TxId, ChainError>) {
    if SlotOf(id) in p.pending then (p, Err(NonceConflict)) else (Accept(p, id, PayloadOf(id, req), price), Ok(id))
  }

  /** The nonce rule, then room in the queue unless a transaction was replaced, then the tail. */
  ghost function SubmitScreened(p: Pool, id: TxId, req: Request, price: nat): (Pool, Result<TxId, ChainError>) {
    var (p1, replaced) := ApplyNonce(p, id.sender, id.nonce, price, req.account);
    match replaced
    case Err(e) => (p1, Err(e))
    case Ok(Some(_)) => Enqueue(p1, id, req, price)
    case Ok(None) =>
      var (p2, capped) := EnforceCaps(p1, id.sender, req.principal, price);
      match capped
      case Err(e) => (p2, Err(e))
      case Ok(_) => Enqueue(p2, id, req, price)
  }

  /** `submit_tx` and `submit_ic_tx_input` */
  ghost function Submit(p: Pool, id: TxId, req: Request): (Pool, Result<TxId, ChainError>) {
    match Screen(p, id, req)
    case Err(e) => (p, Err(e))
    case Ok(price) => SubmitScreened(p, id, req, price)
  }

  // ---------------------------------------------------------------- blocks, pruning, rebuilding

  datatype StagedDrop = StagedDrop(id: TxId, over: Option<Slot>, code: nat)

  ghost function ApplyDrops(p: Pool, drops: seq<StagedDrop>): Pool
    decreases |drops|
  {
    if drops == [] then p else ApplyDrops(Drop(p, drops[0].id, drops[0].over, drops[0].code), drops[1..])
  }

  /** One included transaction: its location first, then it leaves the queue and its sender's nonce moves on. */
  ghost function Include(p: Pool, id: TxId, number: nat, index: nat, account: nat): Pool {
    Advance(p.(txs := p.txs.(locs := p.txs.locs[id := Included(number, index)])), id, Some(SlotOf(id)), true, account)
  }

  ghost function ApplyIncludes(p: Pool, ids: seq<TxId>, number: nat, index: nat, accounts: Sender -> nat): Pool
    decreases |ids|
  {
    if ids == [] then p
    else ApplyIncludes(Include(p, ids[0], number, index, accounts(ids[0].sender)), ids[1..], number, index + 1,
        accounts)
  }

  predicate Readable(t: Records, id: TxId) { id in t.store && t.store[id].Good? }

  /** `rebuild_pending_fee_index_for_base_fee` */
  function RebuildFees(p: Pool, baseFee: nat): Fees {
    var ids := set k | k in p.pending && Readable(p.txs, p.pending[k]) :: p.pending[k];
    Fees(map id | id in ids && Readable(p.txs, id) :: FeeKey(p.txs.store[id].Price(baseFee), id) := id,
         map id | id in ids && Readable(p.txs, id) :: FeeKey(p.txs.store[id].Price(baseFee), id))
  }

  /** What `produce_block` does to the pool once the block is decided: drops, inclusions, the new base fee and
      the fee index for it. */
  ghost function CommitBlock(p: Pool, drops: seq<StagedDrop>, ids: seq<TxId>, number: nat, accounts: Sender -> nat,
                             nextBaseFee: nat): Pool {
    var q := ApplyIncludes(ApplyDrops(p, drops), ids, number, 0, accounts);
    q.(cfg := q.cfg.(baseFee := nextBaseFee), fees := RebuildFees(q, nextBaseFee))
  }

  /** What pruning its block does to the pool's view of one transaction. */
  function Forget(p: Pool, id: TxId): Pool {
    var t := RemoveEthIndex(p.txs.(locs := p.txs.locs - {id}), id);
    p.(fees := RemoveFee(p.fees, id), principals := DecrementPrincipal(p.principals, p.txs, id),
       txs := t.(store := t.store - {id}, seen := t.seen - {id}))
  }

  function ForgetAll(p: Pool, ids: seq<TxId>): Pool
    decreases |ids|
  {
    if ids == [] then p else ForgetAll(Forget(p, ids[0]), ids[1..])
  }

  function Fresh(cfg: Config): Pool {
    Pool(map[], map[], map[], map[], map[], map[], Ready(map[], map[], map[]), Fees(map[], map[]),
         Records(map[], map[], {}, {}, map[], 0, 0), 0, cfg)
  }
}
