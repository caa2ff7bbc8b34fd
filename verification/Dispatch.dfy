/** The ICP update queue of `crates/ic-evm-gateway/src/lib.rs`: recording, popping, finalizing, stale repair,
    upgrade recovery, trimming and the single-flight tick. */
module Dispatch {
  import opened Common
  import opened Types

  const MAX_REQUESTS: nat := 10_000
  const STALE_OPERATION_NANOS: nat := 10 * 60 * 1_000_000_000

  /** A request id is the hash of a transaction id and a log index, so it determines both; `hash` is the numeric value
      of its bytes, which orders the ids. */
  datatype Id = Id(hash: nat, tx: TxId, log: nat)

  /** The order of the ids' bytes; what follows the hash only settles which of two equal hashes comes first. */
  predicate Before(a: Id, b: Id) {
    a.hash < b.hash || (a.hash == b.hash && (IdLess(a.tx, b.tx) || (a.tx == b.tx && a.log < b.log)))
  }

  /** `derive_log_request_id` for the logs of one transaction that carry an update intent; a log index beyond 32 bits
      gets none. */
  function IdsOfTx(derive: (TxId, nat) -> nat, tx: TxId, intents: seq<bool>, at: nat): seq<Id>
    requires at <= |intents|
    decreases |intents| - at
  {
    if at == |intents| then []
    else
      var here := if intents[at] && at <= U32_MAX then [Id(derive(tx, at), tx, at)] else [];
      here + IdsOfTx(derive, tx, intents, at + 1)
  }

  /** The ids of a block's update intents in order; `intents[i]` says which logs of its `i`th transaction are one. */
  function IdsOfBlock(derive: (TxId, nat) -> nat, txs: seq<TxId>, intents: seq<seq<bool>>): seq<Id>
    requires |intents| == |txs|
    decreases |txs|
  {
    if txs == [] then [] else IdsOfTx(derive, txs[0], intents[0], 0) + IdsOfBlock(derive, txs[1..], intents[1..])
  }

  datatype Status = Queued | Dispatching | Dispatched | DispatchFailed | DispatchUncertain {
    predicate Completed() { Dispatched? || DispatchFailed? || DispatchUncertain? }
  }

  datatype Code = DecodeFailure | Uncertain | AllowlistMiss | CallFailed | ReplyOmitted

  type Reply = seq<bv8>

  datatype Req = Req(status: Status, reply: Option<Reply>, code: Option<Code>, updatedAt: nat, callStartedAt: nat) {
    predicate DecodeFailed() { code == Some(DecodeFailure) }
  }

  /** What a dispatch attempt reports. */
  datatype Outcome = Outcome(status: Status, reply: Option<Reply>, code: Option<Code>)

  /** `dispatch_icp_update_request_internal` reports one of the three final statuses and never the decode code. */
  predicate Applicable(o: Outcome) { o.status.Completed() && o.code != Some(DecodeFailure) }

  /** Stable maps, the scheduled flag, the timers armed, the ids whose call is awaited; and for the proofs how often
      each id was recorded, how often trimmed, and every id dispatched so far, in order. */
  datatype State = State(
    requests: map<Id, Req>, queue: map<nat, Id>, head: nat, tail: nat,
    scheduled: bool, timers: nat, inFlight: multiset<Id>,
    recorded: multiset<Id>, trimmed: multiset<Id>, log: seq<Id>)

  const EMPTY: State := State(map[], map[], 0, 0, false, 0, multiset{}, multiset{}, multiset{}, [])

  // ---------------------------------------------------------------- trimming

  predicate Older(a: Id, b: Id, requests: map<Id, Req>)
    requires a in requests && b in requests
  {
    requests[a].updatedAt < requests[b].updatedAt || (requests[a].updatedAt == requests[b].updatedAt && Before(a, b))
  }

  ghost predicate IsOldestCompleted(requests: map<Id, Req>, id: Id) {
    && id in requests && requests[id].status.Completed()
    && forall x :: x in requests && requests[x].status.Completed() ==> x == id || Older(id, x, requests)
  }

  ghost function OldestCompleted(requests: map<Id, Req>): (r: Option<Id>)
    ensures r.Some? ==> IsOldestCompleted(requests, r.value)
    ensures r.None? ==> forall x :: x in requests ==> !requests[x].status.Completed()
  {
    if x :| x in requests && requests[x].status.Completed() then
      OldestExists(requests, x);
      (var id :| IsOldestCompleted(requests, id); Some(id))
    else None
  }

  lemma {:induction false} OldestExists(requests: map<Id, Req>, x: Id)
    requires x in requests && requests[x].status.Completed()
    ensures exists id :: IsOldestCompleted(requests, id)
    decreases requests[x].updatedAt, x.hash, x.tx.hash, x.tx.sender, x.tx.nonce,
              if x.tx.kind.EthSigned? then 0 else 1, x.log
  {
    if y :| y in requests && requests[y].status.Completed() && y != x && !Older(x, y, requests) {
      OldestExists(requests, y);
    } else {
      assert IsOldestCompleted(requests, x);
    }
  }

  function WithoutId(queue: map<nat, Id>, id: Id): map<nat, Id> { map n | n in queue && queue[n] != id :: queue[n] }

  /** `trim_icp_update_requests` */
  ghost function Trim(requests: map<Id, Req>, queue: map<nat, Id>): (map<Id, Req>, map<nat, Id>)
    decreases |requests|
  {
    if |requests| <= MAX_REQUESTS then (requests, queue)
    else match OldestCompleted(requests)
      case None => (requests, queue)
      case Some(id) =>
        Shrinks(requests, id);
        Trim(requests - {id}, WithoutId(queue, id))
  }

  lemma Shrinks<K, V>(m: map<K, V>, k: K)
    requires k in m
    ensures |m - {k}| == |m| - 1
  {
  }

  // ---------------------------------------------------------------- recording

  function NewReq(now: nat): Req { Req(Queued, None, None, now, 0) }

  /** One intent of a produced block. */
  ghost function Record(d: State, id: Id, now: nat): State {
    if id in d.requests then d
    else
      var stored := d.requests[id := NewReq(now)];
      var (requests, queue) := Trim(stored, d.queue[d.tail := id]);
      d.(requests := requests, queue := queue, tail := SatAdd(d.tail, 1, U64_MAX),
         recorded := d.recorded + multiset{id},
         trimmed := d.trimmed + multiset(stored.Keys - requests.Keys))
  }

  ghost function RecordAll(d: State, ids: seq<Id>, now: nat): State
    decreases |ids|
  {
    if ids == [] then d else RecordAll(Record(d, ids[0], now), ids[1..], now)
  }

  // ---------------------------------------------------------------- popping

  datatype Popped = Nothing | QueueMissing(sn: nat) | RequestMissing(id: Id) | Quarantined(id: Id) | Got(id: Id)

  /** `pop_next_icp_update_request` */
  function Pop(d: State, now: nat): (State, Popped) {
    if d.head == d.tail then (d, Nothing)
    else
      var d1 := d.(head := SatAdd(d.head, 1, U64_MAX));
      if d.head !in d.queue then (d1, QueueMissing(d.head))
      else
        var id := d.queue[d.head];
        var d2 := d1.(queue := d.queue - {d.head});
        if id !in d.requests then (d2, RequestMissing(id))
        else if d.requests[id].DecodeFailed() then
          (d2.(requests := d.requests[id := d.requests[id].(updatedAt := now, status := DispatchFailed, reply := None,
                                                          code := Some(DecodeFailure))]), Quarantined(id))
        else
          var r := d.requests[id];
          (d2.(requests := d.requests[id := r.(status := Dispatching, updatedAt := now,
                                              callStartedAt := if r.callStartedAt == 0 then now else r.callStartedAt)],
               log := d.log + [id]), Got(id))
  }

  /** The loop of the tick up to its await: corrupt entries are skipped. */
  function PopLoop(d: State, now: nat): (State, Option<Id>)
    requires d.head <= d.tail <= U64_MAX
    decreases d.tail - d.head
  {
    var (e, p) := Pop(d, now);
    match p
    case Nothing => (e, None)
    case Got(id) => (e, Some(id))
    case _ => PopLoop(e, now)
  }

  // ---------------------------------------------------------------- the tick

  /** `schedule_icp_update_dispatch` */
  function Schedule(d: State): State {
    if d.scheduled then d else d.(scheduled := true, timers := d.timers + 1)
  }

  /** `finish_icp_update_dispatch_tick` */
  function Finish(d: State): State {
    var e := d.(scheduled := false);
    if e.queue != map[] then Schedule(e) else e
  }

  /** `complete_icp_update_dispatch_tick` */
  function Complete(d: State): State { if d.queue != map[] then d.(timers := d.timers + 1) else Finish(d) }

  /** A timer fires and the tick runs up to its await. */
  function Fire(d: State, now: nat): State
    requires d.timers > 0 && d.head <= d.tail <= U64_MAX
  {
    var (e, got) := PopLoop(d.(timers := d.timers - 1), now);
    match got
    case None => Finish(e)
    case Some(id) => e.(inFlight := e.inFlight + multiset{id})
  }

  /** `finalize_icp_update_dispatch_attempt` */
  function Finalize(requests: map<Id, Req>, id: Id, now: nat, o: Outcome): map<Id, Req> {
    if id !in requests then requests
    else requests[id := requests[id].(updatedAt := now, reply := o.reply, status := o.status, code := o.code)]
  }

  /** The awaited call answers and the tick runs to its end. */
  function Answer(d: State, id: Id, now: nat, o: Outcome): State {
    Complete(d.(requests := Finalize(d.requests, id, now, o), inFlight := d.inFlight - multiset{id}))
  }

  // ---------------------------------------------------------------- repair and upgrade

  function MarkUncertain(r: Req, now: nat): Req { r.(status := DispatchUncertain, updatedAt := now,
                         code := Some(Uncertain)) }

  /** The ICP update part of `repair_stale_operations`. */
  function RepairRequests(requests: map<Id, Req>, now: nat): map<Id, Req> {
    map id | id in requests ::
      if requests[id].status == Dispatching && requests[id].updatedAt <= SatSub(now, STALE_OPERATION_NANOS)
      then MarkUncertain(requests[id], now) else requests[id]
  }

  function Repair(d: State, now: nat): State {
    var e := d.(requests := RepairRequests(d.requests, now));
    if e.queue != map[] then Schedule(e) else e
  }

  function UpgradeRequests(requests: map<Id, Req>, now: nat): map<Id, Req> {
    map id | id in requests ::
      if requests[id].status == Dispatching then MarkUncertain(requests[id], now) else requests[id]
  }

  /** The ids that recovery puts back: Queued without a queue entry. */
  function Strays(requests: map<Id, Req>, queue: map<nat, Id>): set<Id> {
    set id | id in requests && requests[id].status == Queued && id !in queue.Values
  }

  ghost predicate IsLeast(s: set<Id>, id: Id) { id in s && forall x :: x in s ==> x == id || Before(id, x) }

  ghost function Requeue(queue: map<nat, Id>, tail: nat, strays: set<Id>): (map<nat, Id>, nat)
    decreases |strays|
  {
    if strays == {} then (queue, tail)
    else
      LeastExists(strays);
      var id :| IsLeast(strays, id);
      Requeue(queue[tail := id], SatAdd(tail, 1, U64_MAX), strays - {id})
  }

  lemma {:induction false} LeastExists(s: set<Id>)
    requires s != {}
    ensures exists id :: IsLeast(s, id)
    decreases |s|
  {
    var x :| x in s;
    if s == {x} {
      assert IsLeast(s, x);
    } else {
      LeastExists(s - {x});
      var y :| IsLeast(s - {x}, y);
      assert forall z :: z in s ==> z == x || z in s - {x};
      assert IsLeast(s, if Before(x, y) then x else y);
    }
  }

  /** An upgrade: timers, awaits and the flag are gone, then `recover_icp_update_dispatch_state_after_upgrade` and,
      when the data plane is enabled, one schedule if the queue has entries. */
  ghost function Upgrade(d: State, now: nat, enabled: bool): State {
    var (queue, tail) := Requeue(d.queue, d.tail, Strays(d.requests, d.queue));
    var e := d.(requests := UpgradeRequests(d.requests, now), queue := queue, tail := tail,
                scheduled := false, timers := 0, inFlight := multiset{});
    if queue != map[] && enabled then Schedule(e) else e
  }

  // ---------------------------------------------------------------- steps

  datatype Op =
    | OpBlock(ids: seq<Id>, now: nat)
    | OpFire(now: nat)
    | OpAnswer(id: Id, now: nat, outcome: Outcome)
    | OpRepair(now: nat)
    | OpUpgrade(now: nat, enabled: bool)

  predicate NoRepeats(ids: seq<Id>) { forall i, j :: 0 <= i < j < |ids| ==> ids[i] != ids[j] }

  /** A block records any ids while queue numbers last; a timer fires when armed; an awaited call answers. */
  predicate Enabled(d: State, op: Op) {
    match op
    case OpBlock(ids, _) => d.tail + |ids| <= U64_MAX
    case OpFire(_) => d.timers > 0 && d.head <= d.tail <= U64_MAX
    case OpAnswer(id, _, o) => id in d.inFlight && Applicable(o)
    case OpRepair(_) => true
    case OpUpgrade(_, _) => true
  }

  ghost function Step(d: State, op: Op): State
    requires Enabled(d, op)
  {
    match op
    case OpBlock(ids, now) => Schedule(RecordAll(d, ids, now))
    case OpFire(now) => Fire(d, now)
    case OpAnswer(id, now, o) => Answer(d, id, now, o)
    case OpRepair(now) => Repair(d, now)
    case OpUpgrade(now, enabled) => Upgrade(d, now, enabled)
  }

  ghost predicate Runs(d: State, ops: seq<Op>, e: State)
    decreases |ops|
  {
    if ops == [] then d == e else Enabled(d, ops[0]) && Runs(Step(d, ops[0]), ops[1..], e)
  }
}
