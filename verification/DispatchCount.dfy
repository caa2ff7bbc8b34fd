/** How often a request enters dispatch, over any run at all: never more often than it was recorded, and it is recorded
    again only after it was trimmed. */
module DispatchCount {
  import opened Common
  import opened Types
  import opened Dispatch
  import opened DispatchSafe

  // ---------------------------------------------------------------- the invariant of any run

  /** Queue entries lie between head and tail, name stored requests, none twice; every Queued request has one. */
  ghost predicate Placed(requests: map<Id, Req>, queue: map<nat, Id>, head: nat, tail: nat) {
    && head <= tail <= U64_MAX
    && (forall n :: n in queue ==> head <= n < tail && queue[n] in requests)
    && (forall n, m :: n in queue && m in queue && queue[n] == queue[m] ==> n == m)
    && (forall id :: IsQueued(requests, id) ==> InQueue(queue, id))
  }

  ghost function Waiting(queue: map<nat, Id>, id: Id): nat { if InQueue(queue, id) then 1 else 0 }

  function Held(requests: map<Id, Req>, id: Id): nat { if id in requests then 1 else 0 }

  /** Every recording is spent by a dispatch or by a trim at most once, and is held until it is trimmed. */
  ghost predicate Counted(d: State) {
    forall id :: multiset(d.log)[id] + Waiting(d.queue, id) <= d.recorded[id] == d.trimmed[id] + Held(d.requests, id)
  }

  ghost predicate Core(d: State) {
    Placed(d.requests, d.queue, d.head, d.tail) && NoDecodeFailure(d.requests) && Counted(d)
  }

  ghost predicate Sane(d: State) { Core(d) && SingleFlight(d.scheduled, d.timers, d.inFlight) }

  lemma EmptySane()
    ensures Sane(EMPTY)
  {
  }

  // ---------------------------------------------------------------- recording

  lemma {:induction false} TrimPlaced(requests: map<Id, Req>, queue: map<nat, Id>, head: nat, tail: nat)
    requires Placed(requests, queue, head, tail)
    ensures var (kept, q) := Trim(requests, queue);
            && Placed(kept, q, head, tail)
            && (forall id :: id in kept ==> id in requests && kept[id] == requests[id])
            && (forall id :: InQueue(q, id) ==> InQueue(queue, id))
    decreases |requests|
  {
    if |requests| > MAX_REQUESTS {
      match OldestCompleted(requests)
      case None =>
      case Some(id) =>
        Shrinks(requests, id);
        WithoutPlaced(requests, queue, head, tail, id);
        TrimPlaced(requests - {id}, WithoutId(queue, id), head, tail);
    }
  }

  lemma WithoutPlaced(requests: map<Id, Req>, queue: map<nat, Id>, head: nat, tail: nat, id: Id)
    requires Placed(requests, queue, head, tail) && id in requests && requests[id].status.Completed()
    ensures Placed(requests - {id}, WithoutId(queue, id), head, tail)
    ensures forall x :: InQueue(WithoutId(queue, id), x) ==> InQueue(queue, x)
  {
    forall x | IsQueued(requests - {id}, x) ensures InQueue(WithoutId(queue, id), x) {
      assert IsQueued(requests, x) && InQueue(queue, x);
      var n :| n in queue && queue[n] == x;
      assert n in WithoutId(queue, id) && WithoutId(queue, id)[n] == x;
    }
    forall x | InQueue(WithoutId(queue, id), x) ensures InQueue(queue, x) {
      var n :| n in WithoutId(queue, id) && WithoutId(queue, id)[n] == x;
      assert n in queue && queue[n] == x;
    }
  }

  lemma AddedPlaced(requests: map<Id, Req>, queue: map<nat, Id>, head: nat, tail: nat, id: Id, now: nat)
    requires Placed(requests, queue, head, tail) && id !in requests && tail < U64_MAX
    ensures Placed(requests[id := NewReq(now)], queue[tail := id], head, tail + 1) && !InQueue(queue, id)
    ensures forall x :: InQueue(queue[tail := id], x) ==> x == id || InQueue(queue, x)
  {
    var r, q := requests[id := NewReq(now)], queue[tail := id];
    assert tail in q && q[tail] == id;
    forall x | IsQueued(r, x) ensures InQueue(q, x) {
      if x != id {
        assert IsQueued(requests, x) && InQueue(queue, x);
        var n :| n in queue && queue[n] == x;
        assert n in q && q[n] == x;
      }
    }
    forall x | InQueue(q, x) && x != id ensures InQueue(queue, x) {
      var n :| n in q && q[n] == x;
      assert n in queue && queue[n] == x;
    }
  }

  lemma RecordCore(d: State, id: Id, now: nat)
    requires Core(d) && d.tail < U64_MAX
    ensures var e := Record(d, id, now);
            && Core(e) && d.tail <= e.tail <= d.tail + 1 && e.log == d.log
            && (forall x :: e.recorded[x] <= d.recorded[x] + multiset{id}[x])
            && e.scheduled == d.scheduled && e.timers == d.timers && e.inFlight == d.inFlight
  {
    hide Placed, InQueue, Trim, NoDecodeFailure, Record, Counted;
    if id in d.requests {
      RecordStored(d, id, now);
    } else {
      RecordNew(d, id, now);
    }
  }

  lemma RecordNew(d: State, id: Id, now: nat)
    requires Core(d) && d.tail < U64_MAX && id !in d.requests
    ensures var e := Record(d, id, now);
            && Core(e) && e.tail == d.tail + 1 && e.log == d.log && e.recorded == d.recorded + multiset{id}
            && e.scheduled == d.scheduled && e.timers == d.timers && e.inFlight == d.inFlight
  {
    hide Placed, InQueue, Trim, NoDecodeFailure, Record, Counted;
    var stored, longer := d.requests[id := NewReq(now)], d.queue[d.tail := id];
    AddedPlaced(d.requests, d.queue, d.head, d.tail, id, now);
    TrimPlaced(stored, longer, d.head, d.tail + 1);
    RecordParts(d, id, now);
    var e := Record(d, id, now);
    RecordCounted(d, e, id, stored);
    StillDecode(d.requests, e.requests, id, now);
  }

  lemma RecordParts(d: State, id: Id, now: nat)
    requires id !in d.requests && d.tail < U64_MAX
    ensures var e := Record(d, id, now);
            var stored := d.requests[id := NewReq(now)];
            && (e.requests, e.queue) == Trim(stored, d.queue[d.tail := id])
            && e == d.(requests := e.requests, queue := e.queue, tail := d.tail + 1,
                       recorded := d.recorded + multiset{id},
                       trimmed := d.trimmed + multiset(stored.Keys - e.requests.Keys))
  {
    hide Trim;
  }

  lemma StillDecode(requests: map<Id, Req>, kept: map<Id, Req>, id: Id, now: nat)
    requires NoDecodeFailure(requests)
    requires forall x :: x in kept ==>
               if x == id then kept[x] == NewReq(now) else x in requests && kept[x] == requests[x]
    ensures NoDecodeFailure(kept)
  {
  }

  lemma RecordCounted(d: State, e: State, id: Id, stored: map<Id, Req>)
    requires Counted(d) && id !in d.requests && stored.Keys == d.requests.Keys + {id} && e.requests.Keys <= stored.Keys
    requires !InQueue(d.queue, id) && forall x :: InQueue(e.queue, x) ==> x == id || InQueue(d.queue, x)
    requires e.log == d.log && e.recorded == d.recorded + multiset{id}
    requires e.trimmed == d.trimmed + multiset(stored.Keys - e.requests.Keys)
    ensures Counted(e)
  {
    forall x ensures CountedAt(d, x) {}
    hide InQueue, Counted, CountedAt;
    forall x ensures CountedAt(e, x) { RecordCountedAt(d, e, id, stored.Keys - e.requests.Keys, x); }
    AllCounted(e);
  }

  ghost predicate CountedAt(d: State, x: Id) {
    multiset(d.log)[x] + Waiting(d.queue, x) <= d.recorded[x] == d.trimmed[x] + Held(d.requests, x)
  }

  lemma AllCounted(e: State)
    requires forall x :: CountedAt(e, x)
    ensures Counted(e)
  {
    forall x ensures multiset(e.log)[x] + Waiting(e.queue, x) <= e.recorded[x] == e.trimmed[x] + Held(e.requests, x) {
      assert CountedAt(e, x);
    }
  }

  lemma RecordCountedAt(d: State, e: State, id: Id, gone: set<Id>, x: Id)
    requires CountedAt(d, x) && id !in d.requests && !InQueue(d.queue, id)
    requires InQueue(e.queue, x) ==> x == id || InQueue(d.queue, x)
    requires x in gone <==> (x in d.requests || x == id) && x !in e.requests
    requires x in e.requests ==> x in d.requests || x == id
    requires e.log == d.log && e.recorded == d.recorded + multiset{id} && e.trimmed == d.trimmed + multiset(gone)
    ensures CountedAt(e, x)
  {
    hide InQueue;
    SetCount(gone, x);
    OneCount(id, x);
  }

  lemma SetCount(s: set<Id>, x: Id)
    ensures multiset(s)[x] == if x in s then 1 else 0
  {
  }

  lemma OneCount(id: Id, x: Id)
    ensures multiset{id}[x] == if x == id then 1 else 0
  {
  }

  lemma {:induction false} RecordAllCore(d: State, ids: seq<Id>, now: nat)
    requires Core(d) && d.tail + |ids| <= U64_MAX
    ensures var e := RecordAll(d, ids, now);
            && Core(e) && e.log == d.log && e.tail <= d.tail + |ids|
            && (forall x :: e.recorded[x] <= d.recorded[x] + multiset(ids)[x])
            && e.scheduled == d.scheduled && e.timers == d.timers && e.inFlight == d.inFlight
    decreases |ids|
  {
    hide Core, Record;
    if ids != [] {
      RecordCore(d, ids[0], now);
      RecordAllCore(Record(d, ids[0], now), ids[1..], now);
      assert ids == [ids[0]] + ids[1..];
    }
  }

  // ---------------------------------------------------------------- popping

  /** Whatever was trimmed or recorded again meanwhile, the pop meets no entry without a request and no decode failure:
      it takes the head entry, or skips a number whose entry a trim removed. */
  lemma PopCore(d: State, now: nat)
    requires Core(d)
    ensures var (e, p) := Pop(d, now);
            && Core(e) && e.requests.Keys == d.requests.Keys
            && (match p
                case Nothing => e == d && d.queue == map[]
                case QueueMissing(sn) => sn == d.head && e == d.(head := d.head + 1)
                case Got(id) => e.log == d.log + [id] && InQueue(d.queue, id)
                case _ => false)
            && e.timers == d.timers && e.scheduled == d.scheduled && e.inFlight == d.inFlight && e.tail == d.tail
            && e.recorded == d.recorded && e.trimmed == d.trimmed
  {
    if d.head == d.tail {
      assert forall n :: n !in d.queue;
    } else if d.head in d.queue {
      PopHead(d, now);
    } else {
      hide InQueue, Counted, Waiting;
    }
  }

  lemma PopHead(d: State, now: nat)
    requires Core(d) && d.head in d.queue
    ensures var (e, p) := Pop(d, now);
            var id := d.queue[d.head];
            && p == Got(id) && InQueue(d.queue, id) && Core(e) && e.requests.Keys == d.requests.Keys
            && e == d.(requests := e.requests, queue := e.queue, head := d.head + 1, log := d.log + [id])
  {
    var e, id := Pop(d, now).0, d.queue[d.head];
    HeadTaken(d.requests, d.queue, d.head, d.tail, e.requests);
    assert InQueue(d.queue, id);
    hide InQueue, Placed, Waiting;
    assert Counted(e) by { PopCounted(d, e, id); }
  }

  lemma PopCounted(d: State, e: State, id: Id)
    requires Counted(d) && InQueue(d.queue, id) && e.log == d.log + [id] && e.requests.Keys == d.requests.Keys
    requires e.recorded == d.recorded && e.trimmed == d.trimmed
    requires forall x :: InQueue(e.queue, x) <==> InQueue(d.queue, x) && x != id
    ensures Counted(e)
  {
    hide InQueue;
    forall x ensures multiset(e.log)[x] + Waiting(e.queue, x) <= e.recorded[x] == e.trimmed[x] + Held(e.requests, x) {
      assert multiset(d.log)[x] + Waiting(d.queue, x) <= d.recorded[x] == d.trimmed[x] + Held(d.requests, x);
    }
  }

  lemma HeadTaken(requests: map<Id, Req>, queue: map<nat, Id>, head: nat, tail: nat, after: map<Id, Req>)
    requires Placed(requests, queue, head, tail) && head in queue && after.Keys == requests.Keys
    requires !IsQueued(after, queue[head])
    requires forall id :: id in after && id != queue[head] ==> after[id] == requests[id]
    ensures head < tail && Placed(after, queue - {head}, head + 1, tail)
    ensures forall x :: InQueue(queue - {head}, x) <==> InQueue(queue, x) && x != queue[head]
  {
    var rest := queue - {head};
    forall x | InQueue(queue, x) && x != queue[head] ensures InQueue(rest, x) {
      var n :| n in queue && queue[n] == x;
      assert n in rest && rest[n] == x;
    }
    forall x | InQueue(rest, x) ensures InQueue(queue, x) && x != queue[head] {
      var n :| n in rest && rest[n] == x;
      assert n in queue && queue[n] == x;
    }
    assert forall x :: IsQueued(after, x) ==> IsQueued(requests, x) && x != queue[head];
  }

  lemma {:induction false} PopLoopCore(d: State, now: nat)
    requires Core(d)
    ensures d.head <= d.tail <= U64_MAX
    ensures var (e, got) := PopLoop(d, now);
            && Core(e)
            && e.log == d.log + (if got.Some? then [got.value] else []) && (got.None? ==> e.queue == map[])
            && e.timers == d.timers && e.scheduled == d.scheduled && e.inFlight == d.inFlight
            && e.recorded == d.recorded && e.trimmed == d.trimmed
    decreases d.tail - d.head
  {
    PopCore(d, now);
    if Pop(d, now).1.QueueMissing? {
      var e := Pop(d, now).0;
      hide Pop;
      PopLoopCore(e, now);
    }
  }

  /** Timers and the flag do not matter to the queue. */
  lemma CoreFrame(d: State, e: State)
    requires Core(d) && e == d.(scheduled := e.scheduled, timers := e.timers, inFlight := e.inFlight)
    ensures Core(e)
  {
  }

  lemma FireSane(d: State, now: nat)
    requires Sane(d) && d.timers > 0
    ensures d.head <= d.tail <= U64_MAX && Sane(Fire(d, now))
            && (Fire(d, now).queue != map[] ==> Fire(d, now).scheduled)
    ensures Fire(d, now).recorded == d.recorded
  {
    hide Core;
    assert d.inFlight == multiset{} && d.timers == 1;
    var f := d.(timers := d.timers - 1);
    CoreFrame(d, f);
    PopLoopCore(f, now);
    hide PopLoop;
    CoreFrame(PopLoop(f, now).0, Fire(d, now));
  }

  // ---------------------------------------------------------------- the other steps

  /** Requests rewritten in place, none becoming Queued or failing to decode. */
  lemma RewrittenCore(d: State, requests: map<Id, Req>)
    requires Core(d) && requests.Keys == d.requests.Keys
    requires forall id :: id in requests ==>
               requests[id] == d.requests[id] || (requests[id].status != Queued && !requests[id].DecodeFailed())
    ensures Core(d.(requests := requests))
  {
    assert forall id :: IsQueued(requests, id) ==> IsQueued(d.requests, id);
  }

  lemma AnswerSane(d: State, id: Id, now: nat, o: Outcome)
    requires Sane(d) && id in d.inFlight && Applicable(o)
    ensures var e := Answer(d, id, now, o);
            Sane(e) && (e.queue != map[] ==> e.scheduled) && e.recorded == d.recorded && e.log == d.log
  {
    hide Core;
    var requests := Finalize(d.requests, id, now, o);
    RewrittenCore(d, requests);
    hide Finalize;
    assert |d.inFlight - multiset{id}| == 0;
    CoreFrame(d.(requests := requests), Answer(d, id, now, o));
  }

  lemma RepairSane(d: State, now: nat)
    requires Sane(d)
    ensures var e := Repair(d, now);
            Sane(e) && (e.queue != map[] ==> e.scheduled) && e.recorded == d.recorded && e.log == d.log
  {
    hide Core;
    RewrittenCore(d, RepairRequests(d.requests, now));
    hide RepairRequests;
    CoreFrame(d.(requests := RepairRequests(d.requests, now)), Repair(d, now));
  }

  lemma CoreNoStrays(d: State)
    requires Core(d)
    ensures Strays(d.requests, d.queue) == {}
  {
    forall id | id in d.requests && d.requests[id].status == Queued ensures id in d.queue.Values {
      assert IsQueued(d.requests, id) && InQueue(d.queue, id);
    }
  }

  lemma UpgradeSane(d: State, now: nat, enabled: bool)
    requires Sane(d)
    ensures var e := Upgrade(d, now, enabled);
            Sane(e) && (enabled && e.queue != map[] ==> e.scheduled) && e.recorded == d.recorded && e.log == d.log
  {
    CoreNoStrays(d);
    hide Core, Strays;
    RewrittenCore(d, UpgradeRequests(d.requests, now));
    hide UpgradeRequests;
    CoreFrame(d.(requests := UpgradeRequests(d.requests, now)), Upgrade(d, now, enabled));
  }

  // ---------------------------------------------------------------- whole runs

  /** The ids an operation asks to record. */
  function Asked(op: Op): seq<Id> { if op.OpBlock? then op.ids else [] }

  lemma StepSane(d: State, op: Op)
    requires Sane(d) && Enabled(d, op)
    ensures Sane(Step(d, op))
    ensures forall x :: Step(d, op).recorded[x] <= d.recorded[x] + multiset(Asked(op))[x]
    ensures !(op.OpUpgrade? && !op.enabled) && Step(d, op).queue != map[] ==> Step(d, op).scheduled
  {
    match op
    case OpBlock(ids, now) =>
      RecordAllCore(d, ids, now);
      hide Core, RecordAll;
      CoreFrame(RecordAll(d, ids, now), Step(d, op));
    case OpFire(now) => FireSane(d, now); hide Sane, Fire;
    case OpAnswer(id, now, o) => AnswerSane(d, id, now, o); hide Sane, Answer;
    case OpRepair(now) => RepairSane(d, now); hide Sane, Repair;
    case OpUpgrade(now, enabled) => UpgradeSane(d, now, enabled); hide Sane, Upgrade;
  }

  lemma {:induction false} RunSane(d: State, ops: seq<Op>, e: State)
    requires Sane(d) && Runs(d, ops, e)
    ensures Sane(e)
    ensures (d.queue != map[] ==> d.scheduled) && (forall i :: 0 <= i < |ops| && ops[i].OpUpgrade? ==> ops[i].enabled)
            ==> e.queue != map[] ==> e.scheduled
    decreases |ops|
  {
    hide Sane, Enabled, Step;
    if ops != [] {
      StepSane(d, ops[0]);
      RunSane(Step(d, ops[0]), ops[1..], e);
    }
  }

  /** Over any run whatever of blocks, ticks, answers, stale repairs and upgrades, with any ids recorded in any order: a
      request enters dispatch at most once for each time it was recorded, and it was recorded once more than it was
      trimmed, or as often. At most one tick is alive, and entries do not wait without one unless an upgrade left the
      workers off. */
  lemma OncePerRecord(ops: seq<Op>, e: State, id: Id)
    requires Runs(EMPTY, ops, e)
    ensures multiset(e.log)[id] <= e.recorded[id] == e.trimmed[id] + Held(e.requests, id)
    ensures e.trimmed[id] == 0 ==> multiset(e.log)[id] <= 1
    ensures IsQueued(e.requests, id) ==> multiset(e.log)[id] <= e.trimmed[id]
    ensures SingleFlight(e.scheduled, e.timers, e.inFlight)
    ensures (forall i :: 0 <= i < |ops| && ops[i].OpUpgrade? ==> ops[i].enabled) && e.queue != map[] ==> e.scheduled
  {
    hide Runs;
    EmptySane();
    RunSane(EMPTY, ops, e);
    assert multiset(e.log)[id] + Waiting(e.queue, id) <= e.recorded[id] == e.trimmed[id] + Held(e.requests, id);
  }

  // ---------------------------------------------------------------- recorded again

  ghost predicate NoBlocks(ops: seq<Op>) { forall i :: 0 <= i < |ops| ==> !ops[i].OpBlock? }

  /** A queue without gaps whose entries can all be dispatched. */
  ghost predicate Drainable(d: State) {
    && d.head <= d.tail <= U64_MAX
    && (forall n: nat :: n in d.queue <==> d.head <= n < d.tail)
    && (forall n :: n in d.queue ==> d.queue[n] in d.requests)
    && NoDecodeFailure(d.requests) && SingleFlight(d.scheduled, d.timers, d.inFlight)
  }

  const DONE: Outcome := Outcome(Dispatched, None, None)

  lemma DrainAnswer(d: State, id: Id)
    requires Drainable(d) && id in d.inFlight && d.queue != map[]
    ensures var e := Answer(d, id, 0, DONE);
            Drainable(e) && e.queue == d.queue && e.head == d.head && e.log == d.log && e.timers == 1 && e.scheduled
  {
    assert |d.inFlight - multiset{id}| == 0;
  }

  lemma DrainFire(d: State)
    requires Drainable(d) && d.timers > 0 && d.head < d.tail
    ensures var e := Fire(d, 0);
            && Drainable(e) && e.queue == d.queue - {d.head} && e.head == d.head + 1
                 && e.log == d.log + [d.queue[d.head]]
            && e.inFlight == multiset{d.queue[d.head]} && e.scheduled
  {
    assert d.inFlight == multiset{};
    var f := d.(timers := d.timers - 1);
    assert Pop(f, 0).1 == Got(d.queue[d.head]);
    hide Older;
  }

  /** Ticks and answers bring every entry of such a queue to dispatch. */
  lemma {:induction false} Drain(d: State, n: nat) returns (ops: seq<Op>, e: State)
    requires Drainable(d) && d.scheduled && n in d.queue
    ensures NoBlocks(ops) && Runs(d, ops, e) && multiset(e.log)[d.queue[n]] > multiset(d.log)[d.queue[n]]
    decreases n - d.head, |d.inFlight|
  {
    hide Fire, Answer;
    if d.timers == 0 {
      assert |d.inFlight| == 1;
      var id :| id in d.inFlight;
      DrainAnswer(d, id);
      assert Enabled(d, OpAnswer(id, 0, DONE));
      ops, e := Drain(Answer(d, id, 0, DONE), n);
      ops := [OpAnswer(id, 0, DONE)] + ops;
    } else {
      DrainFire(d);
      var f := Fire(d, 0);
      if n == d.head {
        ops, e := [OpFire(0)], f;
        assert Runs(f, ops[1..], f);
      } else {
        ops, e := Drain(f, n);
        assert multiset(f.log)[d.queue[n]] >= multiset(d.log)[d.queue[n]];
        ops := [OpFire(0)] + ops;
      }
    }
  }

  lemma {:induction false} OnceInLog(log: seq<Id>, id: Id)
    requires NoRepeats(log)
    ensures multiset(log)[id] <= 1
    decreases |log|
  {
    if log != [] {
      var rest := log[..|log| - 1];
      OnceInLog(rest, id);
      assert log == rest + [log[|log| - 1]];
      assert id in multiset(rest) ==> id in rest;
    }
  }

  lemma {:induction false} QuietFresh(d: State, ops: seq<Op>, e: State)
    requires Runs(d, ops, e) && NoBlocks(ops)
    ensures FreshRuns(d, ops, e)
    decreases |ops|
  {
    hide Enabled, Step;
    if ops != [] { QuietFresh(Step(d, ops[0]), ops[1..], e); }
  }

  lemma QueueDrainable(d: State)
    requires QueueOk(d.requests, d.queue, d.head, d.tail) && NoDecodeFailure(d.requests)
    requires SingleFlight(d.scheduled, d.timers, d.inFlight)
    ensures Drainable(d)
  {
    hide InQueue;
  }

  lemma RecordMissing(d: State, id: Id, now: nat)
    requires Inv(d) && id !in d.requests && d.tail < U64_MAX
    ensures var e := Record(d, id, now);
            && QueueOk(e.requests, e.queue, e.head, e.tail) && NoDecodeFailure(e.requests)
            && e.queue == d.queue[d.tail := id]
            && e == d.(requests := e.requests, queue := e.queue, tail := d.tail + 1, recorded := e.recorded,
                 trimmed := e.trimmed)
  {
    hide QueueOk, LogOk;
    var stored, queue := d.requests[id := NewReq(now)], d.queue[d.tail := id];
    RecordQueue(d, id, now);
    QueueNamesQueued(stored, queue, d.head, d.tail + 1);
    TrimSpec(stored, queue);
    hide Trim;
    TrimmedQueue(stored, Trim(stored, queue).0, queue, d.head, d.tail + 1);
  }

  lemma RecordAllOne(d: State, id: Id, now: nat)
    ensures RecordAll(d, [id], now) == Record(d, id, now)
  {
    hide Record;
    assert [id][1..] == [];
  }

  lemma RecordedAgain(d: State, id: Id, now: nat)
    requires Inv(d) && id !in d.requests && d.tail < U64_MAX
    ensures var s := Step(d, OpBlock([id], now));
            Drainable(s) && s.scheduled && d.tail in s.queue && s.queue[d.tail] == id && s.log == d.log
  {
    hide Record, QueueOk, NoDecodeFailure, LogOk, Drainable;
    RecordMissing(d, id, now);
    var e := Record(d, id, now);
    RecordAllOne(d, id, now);
    QueueDrainable(Schedule(e));
  }

  lemma StoredIsFresh(d: State, id: Id, now: nat)
    requires id in d.requests
    ensures FreshOp(d, OpBlock([id], now))
  {
    assert [id][1..] == [];
  }

  /** When a second dispatch can happen: a request that was dispatched, named by a block again, is dispatched again by
      the ticks and answers that follow if and only if it was trimmed in between. The only guard is its presence. */
  lemma RedispatchIff(d: State, id: Id, now: nat)
    requires Inv(d) && id in d.log && d.tail < U64_MAX
    ensures (exists ops, e :: NoBlocks(ops) && Runs(Step(d, OpBlock([id], now)), ops, e)
                              && multiset(e.log)[id] > multiset(d.log)[id])
            <==> id !in d.requests
  {
    hide Inv, Runs, Drainable, Step;
    var op := OpBlock([id], now);
    var s := Step(d, op);
    if id !in d.requests {
      RecordedAgain(d, id, now);
      var ops, e := Drain(s, d.tail);
    } else {
      StoredIsFresh(d, id, now);
      StepInv(d, op);
      forall ops, e | NoBlocks(ops) && Runs(s, ops, e) ensures multiset(e.log)[id] <= multiset(d.log)[id] {
        QuietFresh(s, ops, e);
        RunInv(s, ops, e);
        assert NoRepeats(e.log) by { InvMeans(e); }
        OnceInLog(e.log, id);
        assert id in multiset(d.log);
      }
    }
  }
}
