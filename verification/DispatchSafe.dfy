/** The invariant of the ICP update queue and what follows from it over whole runs. */
module DispatchSafe {
  import opened Common
  import opened Dispatch

  /** The queue occupies exactly the numbers from head to tail, names no id twice, and names exactly the ids whose
      request is Queued. */
  ghost predicate QueueOk(requests: map<Id, Req>, queue: map<nat, Id>, head: nat, tail: nat) {
    && head <= tail <= U64_MAX
    && (forall n: nat :: n in queue <==> head <= n < tail)
    && (forall n, m :: n in queue && m in queue && queue[n] == queue[m] ==> n == m)
    && (forall n :: n in queue ==> IsQueued(requests, queue[n]))
    && (forall id :: IsQueued(requests, id) ==> InQueue(queue, id))
  }

  predicate IsQueued(requests: map<Id, Req>, id: Id) { id in requests && requests[id].status == Queued }

  ghost predicate InQueue(queue: map<nat, Id>, id: Id) { exists n :: n in queue && queue[n] == id }

  predicate InDispatch(requests: map<Id, Req>, id: Id) { id in requests && requests[id].status == Dispatching }

  ghost predicate NoDecodeFailure(requests: map<Id,
                                  Req>) { forall id :: id in requests ==> !requests[id].DecodeFailed() }

  /** One timer or one awaited call while the flag is set, none while it is not. */
  predicate SingleFlight(scheduled: bool, timers: nat, inFlight: multiset<Id>) {
    timers + |inFlight| == if scheduled then 1 else 0
  }

  /** What has been dispatched: recorded ids, each once, none of them Queued any more, and every request that is in
      dispatch is being awaited. */
  ghost predicate LogOk(requests: map<Id, Req>, inFlight: multiset<Id>, recorded: multiset<Id>, log: seq<Id>) {
    && (forall id :: id in requests ==> id in recorded)
    && (forall id :: id in log ==> id in recorded && !IsQueued(requests, id))
    && NoRepeats(log)
    && (forall id :: id in inFlight ==> id in log)
    && (forall id :: InDispatch(requests, id) ==> id in inFlight)
  }

  ghost predicate Inv(d: State) {
    && QueueOk(d.requests, d.queue, d.head, d.tail)
    && NoDecodeFailure(d.requests)
    && SingleFlight(d.scheduled, d.timers, d.inFlight)
    && LogOk(d.requests, d.inFlight, d.recorded, d.log)
  }

  lemma EmptyInv()
    ensures Inv(EMPTY)
  {
  }

  // ---------------------------------------------------------------- trimming

  /** What trimming does to requests and queue that agree: some of the oldest completed requests go, nothing else. */
  ghost predicate Trimmed(requests: map<Id, Req>, kept: map<Id, Req>) {
    && kept.Keys <= requests.Keys
    && (forall id :: id in kept ==> kept[id] == requests[id])
    && (forall id :: id in requests && id !in kept ==> requests[id].status.Completed())
    && (forall a, b :: a in requests && a !in kept && b in kept && requests[b].status.Completed()
         ==> Older(a, b, requests))
    && (|kept| <= MAX_REQUESTS || forall id :: id in kept ==> !kept[id].status.Completed())
    && |kept| >= Min(|requests|, MAX_REQUESTS)
  }

  lemma {:induction false} TrimSpec(requests: map<Id, Req>, queue: map<nat, Id>)
    requires forall n :: n in queue ==> IsQueued(requests, queue[n])
    ensures var (kept, q) := Trim(requests, queue); q == queue && Trimmed(requests, kept)
    decreases |requests|
  {
    if |requests| > MAX_REQUESTS {
      match OldestCompleted(requests)
      case None =>
      case Some(id) =>
        Shrinks(requests, id);
        assert WithoutId(queue, id) == queue;
        TrimSpec(requests - {id}, queue);
        TrimOneMore(requests, id, Trim(requests - {id}, queue).0);
    }
  }

  lemma TrimOneMore(requests: map<Id, Req>, id: Id, kept: map<Id, Req>)
    requires IsOldestCompleted(requests, id) && Trimmed(requests - {id}, kept) && |requests| > MAX_REQUESTS
    ensures Trimmed(requests, kept)
  {
    Shrinks(requests, id);
    assert forall x :: x in requests - {id} ==> (requests - {id})[x] == requests[x];
  }

  // ---------------------------------------------------------------- recording

  lemma RecordQueue(d: State, id: Id, now: nat)
    requires QueueOk(d.requests, d.queue, d.head, d.tail) && id !in d.requests && d.tail < U64_MAX
    ensures QueueOk(d.requests[id := NewReq(now)], d.queue[d.tail := id], d.head, d.tail + 1)
    ensures IsQueued(d.requests[id := NewReq(now)], id)
  {
    var requests, queue := d.requests[id := NewReq(now)], d.queue[d.tail := id];
    assert queue[d.tail] == id;
    forall x | IsQueued(requests, x) ensures InQueue(queue, x) {
      if x != id {
        assert IsQueued(d.requests, x) && InQueue(d.queue, x);
        var n :| n in d.queue && d.queue[n] == x;
        assert n in queue && queue[n] == x;
      }
    }
  }

  lemma TrimmedQueue(requests: map<Id, Req>, kept: map<Id, Req>, queue: map<nat, Id>, head: nat, tail: nat)
    requires QueueOk(requests, queue, head, tail) && Trimmed(requests, kept)
    ensures QueueOk(kept, queue, head, tail)
  {
  }

  lemma QueueNamesQueued(requests: map<Id, Req>, queue: map<nat, Id>, head: nat, tail: nat)
    requires QueueOk(requests, queue, head, tail)
    ensures forall n :: n in queue ==> IsQueued(requests, queue[n])
  {
  }

  lemma RecordRest(d: State, id: Id, now: nat)
    requires Inv(d) && id !in d.recorded
    ensures var requests := d.requests[id := NewReq(now)];
            LogOk(requests, d.inFlight, d.recorded + multiset{id}, d.log) && NoDecodeFailure(requests)
                && id !in d.requests
  {
  }

  lemma RecordInv(d: State, id: Id, now: nat)
    requires Inv(d) && id !in d.recorded && d.tail < U64_MAX
    ensures var e := Record(d, id, now);
            && Inv(e) && e.recorded == d.recorded + multiset{id} && e.tail == d.tail + 1 && e.log == d.log
            && IsQueued(e.requests, id) && e.scheduled == d.scheduled
  {
    hide QueueOk, Trim, LogOk, Trimmed, NoDecodeFailure;
    var requests, queue := d.requests[id := NewReq(now)], d.queue[d.tail := id];
    RecordRest(d, id, now);
    RecordQueue(d, id, now);
    QueueNamesQueued(requests, queue, d.head, d.tail + 1);
    TrimSpec(requests, queue);
    var kept := Trim(requests, queue).0;
    TrimmedQueue(requests, kept, queue, d.head, d.tail + 1);
    TrimmedLog(d, requests, kept, id);
  }

  lemma TrimmedLog(d: State, requests: map<Id, Req>, kept: map<Id, Req>, id: Id)
    requires LogOk(requests, d.inFlight, d.recorded + multiset{id}, d.log) && Trimmed(requests, kept)
             && NoDecodeFailure(requests)
    ensures LogOk(kept, d.inFlight, d.recorded + multiset{id}, d.log) && NoDecodeFailure(kept)
    ensures IsQueued(requests, id) ==> IsQueued(kept, id)
  {
  }

  /** No id is recorded again after its request was trimmed. */
  ghost predicate Fresh(d: State, ids: seq<Id>, now: nat)
    decreases |ids|
  {
    ids == [] || ((ids[0] in d.requests || ids[0] !in d.recorded) && Fresh(Record(d, ids[0], now), ids[1..], now))
  }

  lemma {:induction false} RecordAllInv(d: State, ids: seq<Id>, now: nat)
    requires Inv(d) && Fresh(d, ids, now) && d.tail + |ids| <= U64_MAX
    ensures var e := RecordAll(d, ids, now); Inv(e) && e.log == d.log && e.scheduled == d.scheduled
    decreases |ids|
  {
    hide Inv, Record;
    if ids != [] {
      if ids[0] in d.requests { RecordStored(d, ids[0], now); } else { RecordInv(d, ids[0], now); }
      RecordAllInv(Record(d, ids[0], now), ids[1..], now);
    }
  }

  /** A stored request is not recorded again. */
  lemma RecordStored(d: State, id: Id, now: nat)
    requires id in d.requests
    ensures Record(d, id, now) == d
  {
  }

  // ---------------------------------------------------------------- popping

  /** The three error branches of the pop are unreachable. */
  lemma PopSpec(d: State, now: nat)
    requires Inv(d)
    ensures var (e, p) := Pop(d, now);
            && (d.head == d.tail ==> p == Nothing && e == d)
            && (d.head < d.tail ==>
                  && d.head in d.queue && p == Got(d.queue[d.head]) && p.id !in d.log
                  && e.log == d.log + [p.id] && InDispatch(e.requests, p.id)
                  && QueueOk(e.requests, e.queue, e.head, e.tail) && NoDecodeFailure(e.requests)
                  && LogOk(e.requests, d.inFlight + multiset{p.id}, e.recorded, e.log))
            && e.timers == d.timers && e.scheduled == d.scheduled && e.inFlight == d.inFlight
  {
    if d.head < d.tail {
      var id := d.queue[d.head];
      assert IsQueued(d.requests, id);
      var e := Pop(d, now).0;
      PopQueue(d.requests, d.queue, d.head, d.tail, e.requests);
      hide QueueOk, InQueue;
      forall x | InDispatch(e.requests, x) ensures x in d.inFlight + multiset{id} {
        assert x == id || InDispatch(d.requests, x);
      }
    }
  }

  /** The head entry gone and its request out of Queued leave a queue that agrees. */
  lemma PopQueue(requests: map<Id, Req>, queue: map<nat, Id>, head: nat, tail: nat, after: map<Id, Req>)
    requires QueueOk(requests, queue, head, tail) && head < tail && after.Keys == requests.Keys
    requires !IsQueued(after, queue[head]) && forall x :: x in after && x != queue[head] ==> after[x] == requests[x]
    ensures QueueOk(after, queue - {head}, head + 1, tail)
  {
    var rest := queue - {head};
    forall x | IsQueued(after, x) ensures InQueue(rest, x) {
      assert IsQueued(requests, x) && InQueue(queue, x);
      var n :| n in queue && queue[n] == x;
      assert n in rest && rest[n] == x;
    }
  }

  lemma FireInv(d: State, now: nat)
    requires Inv(d) && d.timers > 0
    ensures var e := Fire(d, now);
            && Inv(e)
            && (e.log == d.log
                || (exists id :: e.log == d.log + [id] && id !in d.log && id in d.inFlight + e.inFlight))
            && (e.queue != map[] ==> e.scheduled)
  {
    var f := d.(timers := d.timers - 1);
    assert |d.inFlight| == 0;
    assert d.inFlight == multiset{};
    PopAt(d, now);
    hide QueueOk, NoDecodeFailure, LogOk;
    if d.head < d.tail {
      var id := Pop(d, now).1.id;
      assert Fire(d, now).log == d.log + [id] && id in d.inFlight + Fire(d, now).inFlight;
    } else {
      assert d.queue == map[] by { EmptyQueue(d); }
    }
  }

  lemma EmptyQueue(d: State)
    requires Inv(d)
    ensures d.queue == map[] <==> d.head == d.tail
  {
    if d.head < d.tail { assert d.head in d.queue; }
    if d.queue != map[] { var n :| n in d.queue; }
  }

  /** The pop looks at neither the timers nor the flag. */
  lemma PopAt(d: State, now: nat)
    requires Inv(d) && d.timers > 0
    ensures var f := d.(timers := d.timers - 1);
            && PopLoop(f, now) == (Pop(d, now).0.(timers := d.timers - 1),
                                   if d.head == d.tail then None else Some(Pop(d, now).1.id))
    ensures d.head <= d.tail <= U64_MAX
    ensures var (e, p) := Pop(d, now);
            && (d.head == d.tail ==> p == Nothing && e == d)
            && (d.head < d.tail ==>
                  && p.Got? && p.id !in d.log
                  && e.log == d.log + [p.id] 
                  && QueueOk(e.requests, e.queue, e.head, e.tail) && NoDecodeFailure(e.requests)
                  && LogOk(e.requests, d.inFlight + multiset{p.id}, e.recorded, e.log))
            && e.timers == d.timers && e.scheduled == d.scheduled && e.inFlight == d.inFlight
  {
    PopSpec(d, now);
  }

  // ---------------------------------------------------------------- the other steps

  lemma AnswerInv(d: State, id: Id, now: nat, o: Outcome)
    requires Inv(d) && id in d.inFlight && Applicable(o)
    ensures Inv(Answer(d, id, now, o)) && Answer(d, id, now, o).log == d.log
    ensures Answer(d, id, now, o).queue != map[] ==> Answer(d, id, now, o).scheduled
  {
    assert !IsQueued(d.requests, id);
    var requests := Finalize(d.requests, id, now, o);
    forall x ensures IsQueued(requests, x) <==> IsQueued(d.requests, x) {}
    assert |d.inFlight - multiset{id}| == 0;
    assert forall x :: InDispatch(requests, x) ==> x in d.inFlight && x != id;
    assert forall x :: x in d.inFlight && x != id ==> x in d.inFlight - multiset{id};
    assert forall x :: IsQueued(requests, x) ==> InQueue(d.queue, x);
  }

  /** Marking requests Uncertain is invisible to the queue. */
  lemma UncertainKeeps(d: State, requests: map<Id, Req>, now: nat)
    requires Inv(d) && requests.Keys == d.requests.Keys
    requires forall id :: id in requests ==>
               requests[id] == d.requests[id]
                   || (InDispatch(d.requests, id) && requests[id] == MarkUncertain(d.requests[id], now))
    ensures Inv(d.(requests := requests))
  {
    forall x ensures IsQueued(requests, x) <==> IsQueued(d.requests, x) {}
    forall x ensures InDispatch(requests, x) ==> InDispatch(d.requests, x) {}
  }

  lemma RepairInv(d: State, now: nat)
    requires Inv(d)
    ensures Inv(Repair(d, now)) && Repair(d, now).log == d.log
    ensures Repair(d, now).queue != map[] ==> Repair(d, now).scheduled
  {
    UncertainKeeps(d, RepairRequests(d.requests, now), now);
    hide QueueOk, NoDecodeFailure, LogOk, RepairRequests;
  }

  /** Recovery finds every Queued request in the queue, so it puts none back. */
  lemma NoStrays(d: State)
    requires Inv(d)
    ensures Strays(d.requests, d.queue) == {}
  {
    forall id | id in d.requests && d.requests[id].status == Queued ensures id in d.queue.Values {
      assert IsQueued(d.requests, id) && InQueue(d.queue, id);
    }
  }

  lemma UpgradeInv(d: State, now: nat, enabled: bool)
    requires Inv(d)
    ensures Inv(Upgrade(d, now, enabled)) && Upgrade(d, now, enabled).log == d.log
    ensures enabled && d.queue != map[] ==> Upgrade(d, now, enabled).scheduled
    ensures Upgrade(d, now, enabled).queue == d.queue
  {
    NoStrays(d);
    hide QueueOk, NoDecodeFailure, Strays;
    UpgradedInv(d, now);
    hide UpgradeRequests, LogOk;
  }

  /** Requests in dispatch marked Uncertain, with nothing awaited any more. */
  lemma UpgradedInv(d: State, now: nat)
    requires Inv(d)
    ensures var e := d.(requests := UpgradeRequests(d.requests, now), scheduled := false, timers := 0,
                        inFlight := multiset{});
            Inv(e) && Inv(Schedule(e))
  {
    var requests := UpgradeRequests(d.requests, now);
    assert requests.Keys == d.requests.Keys;
    UncertainKeeps(d, requests, now);
    assert forall id :: id in requests ==> requests[id].status != Dispatching;
    hide QueueOk, NoDecodeFailure, UpgradeRequests;
  }

  // ---------------------------------------------------------------- whole runs

  ghost predicate FreshOp(d: State, op: Op) { op.OpBlock? ==> Fresh(d, op.ids, op.now) }

  /** Every step that records no trimmed id again keeps the invariant, appends at most one id to the log, and leaves a
      tick alive while entries wait, except an upgrade with the data plane disabled. */
  lemma StepInv(d: State, op: Op)
    requires Inv(d) && Enabled(d, op) && FreshOp(d, op)
    ensures Inv(Step(d, op)) && d.log <= Step(d, op).log && |Step(d, op).log| <= |d.log| + 1
    ensures !(op.OpUpgrade? && !op.enabled) && Step(d, op).queue != map[] ==> Step(d, op).scheduled
  {
    match op
    case OpBlock(ids, now) =>
      RecordAllInv(d, ids, now);
      hide QueueOk, NoDecodeFailure, LogOk, RecordAll;
    case OpFire(now) =>
      FireInv(d, now);
      hide Inv, Fire;
    case OpAnswer(id, now, o) => AnswerInv(d, id, now, o); hide Inv, Answer;
    case OpRepair(now) => RepairInv(d, now); hide Inv, Repair;
    case OpUpgrade(now, enabled) => UpgradeInv(d, now, enabled); hide Inv, Upgrade;
  }

  /** A run in which no id is recorded again after its request was trimmed. */
  ghost predicate FreshRuns(d: State, ops: seq<Op>, e: State)
    decreases |ops|
  {
    if ops == [] then d == e
    else Enabled(d, ops[0]) && FreshOp(d, ops[0]) && FreshRuns(Step(d, ops[0]), ops[1..], e)
  }

  lemma {:induction false} RunInv(d: State, ops: seq<Op>, e: State)
    requires Inv(d) && FreshRuns(d, ops, e)
    ensures Inv(e)
    ensures (d.queue != map[] ==> d.scheduled) && (forall i :: 0 <= i < |ops| && ops[i].OpUpgrade? ==> ops[i].enabled)
            ==> e.queue != map[] ==> e.scheduled
    decreases |ops|
  {
    hide Inv, Enabled, Step, FreshOp;
    if ops != [] {
      StepInv(d, ops[0]);
      RunInv(Step(d, ops[0]), ops[1..], e);
    }
  }

  /** The queue as its readers see it: a request is Queued exactly when it has one queue entry, between head and tail;
      no request entered dispatch twice; at most one timer or awaited call is alive, exactly while the flag is set; at
      most one request is in dispatch; and the pop meets no error. */
  ghost predicate OneEach(e: State) {
    && (forall id :: IsQueued(e.requests, id) <==> InQueue(e.queue, id))
    && (forall n, m :: n in e.queue && m in e.queue && e.queue[n] == e.queue[m] ==> e.head <= n == m < e.tail)
    && NoRepeats(e.log)
    && e.timers + |e.inFlight| <= 1 && (e.scheduled <==> e.timers + |e.inFlight| == 1)
    && (forall a, b :: InDispatch(e.requests, a) && InDispatch(e.requests, b) ==> a == b)
    && (forall now :: Pop(e, now).1.Nothing? || Pop(e, now).1.Got?)
  }

  lemma InvMeans(e: State)
    requires Inv(e)
    ensures OneEach(e)
  {
    forall now ensures Pop(e, now).1.Nothing? || Pop(e, now).1.Got? { PopSpec(e, now); }
    hide Pop;
    forall a, b | InDispatch(e.requests, a) && InDispatch(e.requests, b) ensures a == b {
      TwoInOne(e.inFlight, a, b);
    }
  }

  lemma TwoInOne(s: multiset<Id>, a: Id, b: Id)
    requires a in s && b in s && |s| <= 1
    ensures a == b
  {
    assert a != b ==> s == multiset{a, b} + (s - multiset{a, b});
  }

  // ---------------------------------------------------------------- the single flight

  /** Scheduling leaves exactly one tick alive, whether or not one was, and a second call changes nothing. */
  lemma ScheduleOnce(d: State)
    requires SingleFlight(d.scheduled, d.timers, d.inFlight)
    ensures var e := Schedule(d);
            && e.timers + |e.inFlight| == 1 && SingleFlight(e.scheduled, e.timers, e.inFlight) && Schedule(e) == e
            && e.requests == d.requests && e.queue == d.queue && e.log == d.log
  {
  }

  /** A tick that ends leaves one alive exactly when entries wait. */
  lemma FinishAlive(d: State)
    requires d.scheduled && d.timers == 0 && d.inFlight == multiset{}
    ensures var e := Finish(d);
            && SingleFlight(e.scheduled, e.timers, e.inFlight) && (e.scheduled <==> d.queue != map[])
            && e.requests == d.requests && e.queue == d.queue && e.log == d.log
  {
  }
}
