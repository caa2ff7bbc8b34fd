/** The ICP update queue updated in place. Each method is proved equal to the function of `Dispatch` it implements. */
module DispatchState {
  import opened Common
  import opened D = Dispatch
  import opened DispatchSafe

  class Worker {
    var requests: map<Id, Req>
    var queue: map<nat, Id>
    var head: nat
    var tail: nat
    var scheduled: bool
    var timers: nat
    ghost var inFlight: multiset<Id>
    ghost var recorded: multiset<Id>
    ghost var trimmed: multiset<Id>
    ghost var log: seq<Id>

    ghost function View(): State
      reads this
    {
      State(requests, queue, head, tail, scheduled, timers, inFlight, recorded, trimmed, log)
    }

    constructor ()
      ensures View() == EMPTY
    {
      requests, queue, head, tail := map[], map[], 0, 0;
      scheduled, timers := false, 0;
      inFlight, recorded, trimmed, log := multiset{}, multiset{}, multiset{}, [];
    }

    /** `record_icp_update_requests_from_block` over the ids of the block's intents. */
    method RecordFromBlock(ids: seq<Id>, now: nat)
      modifies this
      ensures View() == RecordAll(old(View()), ids, now)
    {
      assert ids[0..] == ids;
      for i := 0 to |ids|
        invariant RecordAll(View(), ids[i..], now) == RecordAll(old(View()), ids, now)
      {
        assert ids[i..][1..] == ids[i + 1..];
        RecordOne(ids[i], now);
      }
    }

    method RecordOne(id: Id, now: nat)
      modifies this
      ensures View() == Record(old(View()), id, now)
    {
      hide Trim;
      if id in requests { return; }
      requests := requests[id := NewReq(now)];
      var sn := tail;
      tail := SatAdd(tail, 1, U64_MAX);
      queue := queue[sn := id];
      recorded := recorded + multiset{id};
      ghost var d := View();
      TrimRequests();
      ghost var t := Trim(d.requests, d.queue);
      assert View() == d.(requests := t.0, queue := t.1);
      trimmed := trimmed + multiset(d.requests.Keys - requests.Keys);
      assert View() == d.(requests := t.0, queue := t.1, trimmed := d.trimmed + multiset(d.requests.Keys - t.0.Keys));
    }

    /** `trim_icp_update_requests` */
    method TrimRequests()
      modifies this`requests, this`queue
      ensures (requests, queue) == Trim(old(requests), old(queue))
    {
      var size := |requests|;
      if size <= MAX_REQUESTS { return; }
      var completed := SortedCompleted(requests);
      var remaining := size;
      for i := 0 to |completed|
        invariant remaining == |requests|
        invariant IsSortedCompleted(requests, completed[i..])
        invariant Trim(requests, queue) == Trim(old(requests), old(queue))
      {
        if remaining <= MAX_REQUESTS { break; }
        SortedHead(requests, completed[i..]);
        Shrinks(requests, completed[i]);
        assert completed[i..][1..] == completed[i + 1..];
        requests := requests - {completed[i]};
        RemoveQueueEntries(completed[i]);
        remaining := remaining - 1;
      }
      if remaining > MAX_REQUESTS { SortedNone(requests, completed[|completed|..]); }
    }

    /** `remove_icp_update_queue_entries` */
    method RemoveQueueEntries(id: Id)
      modifies this`queue
      ensures queue == WithoutId(old(queue), id)
    {
      var seqs := set n | n in queue && queue[n] == id;
      queue := queue - seqs;
    }

    /** `pop_next_icp_update_request` */
    method PopNext(now: nat) returns (p: Popped)
      modifies this
      ensures (View(), p) == Pop(old(View()), now)
    {
      if head == tail { return Nothing; }
      var sn := head;
      head := SatAdd(head, 1, U64_MAX);
      if sn !in queue { return QueueMissing(sn); }
      var id := queue[sn];
      queue := queue - {sn};
      if id !in requests { return RequestMissing(id); }
      var req := requests[id];
      if req.DecodeFailed() {
        req := req.(updatedAt := now, status := DispatchFailed, reply := None, code := Some(DecodeFailure));
        requests := requests[id := req];
        return Quarantined(id);
      }
      req := req.(status := Dispatching, updatedAt := now);
      if req.callStartedAt == 0 { req := req.(callStartedAt := now); }
      requests := requests[id := req];
      log := log + [id];
      p := Got(id);
    }

    method ScheduleDispatch()
      modifies this`scheduled, this`timers
      ensures View() == Schedule(old(View()))
    {
      if scheduled { return; }
      scheduled := true;
      timers := timers + 1;
    }

    method FinishTick()
      modifies this`scheduled, this`timers
      ensures View() == Finish(old(View()))
    {
      scheduled := false;
      if queue != map[] { ScheduleDispatch(); }
    }

    method CompleteTick()
      modifies this`scheduled, this`timers
      ensures View() == Complete(old(View()))
    {
      if queue != map[] {
        timers := timers + 1;
      } else {
        FinishTick();
      }
    }

    /** `icp_update_dispatch_tick` up to its await; the id whose call it awaits, if any. */
    method TickStart(now: nat) returns (r: Option<Id>)
      requires timers > 0 && head <= tail <= U64_MAX
      modifies this
      ensures View() == Fire(old(View()), now)
    {
      hide Pop, Schedule;
      timers := timers - 1;
      ghost var start := View();
      while true
        invariant head <= tail <= U64_MAX
        invariant PopLoop(View(), now) == PopLoop(start, now)
        decreases tail - head
      {
        PopMoves(View(), now);
        var p := PopNext(now);
        match p
        case Nothing =>
          FinishTick();
          return None;
        case Got(id) =>
          inFlight := inFlight + multiset{id};
          return Some(id);
        case _ =>
      }
    }

    /** The rest of the tick, once the call has answered. */
    method TickEnd(id: Id, now: nat, o: Outcome)
      modifies this
      ensures View() == Answer(old(View()), id, now, o)
    {
      hide Finalize, Complete;
      inFlight := inFlight - multiset{id};
      FinalizeAttempt(id, now, o);
      CompleteTick();
    }

    method FinalizeAttempt(id: Id, now: nat, o: Outcome)
      modifies this`requests
      ensures requests == Finalize(old(requests), id, now, o)
    {
      if id !in requests { return; }
      var req := requests[id];
      req := req.(updatedAt := now);
      req := req.(reply := o.reply, status := o.status, code := o.code);
      requests := requests[id := req];
    }

    /** The ICP update part of `repair_stale_operations`. */
    method RepairStale(now: nat)
      modifies this
      ensures View() == Repair(old(View()), now)
    {
      MarkStale(now);
      if queue != map[] { ScheduleDispatch(); }
    }

    method MarkStale(now: nat)
      modifies this`requests
      ensures requests == RepairRequests(old(requests), now)
    {
      var cutoff := SatSub(now, STALE_OPERATION_NANOS);
      var rest := requests.Keys;
      while rest != {}
        invariant rest <= old(requests).Keys && requests.Keys == old(requests).Keys
        invariant forall id :: id in requests && id in rest ==> requests[id] == old(requests)[id]
        invariant forall id :: id in requests && id !in rest ==> requests[id] == RepairRequests(old(requests), now)[id]
        decreases |rest|
      {
        var id :| id in rest;
        if requests[id].status == Dispatching && requests[id].updatedAt <= cutoff {
          requests := requests[id := MarkUncertain(requests[id], now)];
        }
        rest := rest - {id};
      }
    }

    /** An upgrade with `recover_icp_update_dispatch_state_after_upgrade`. */
    method RecoverAfterUpgrade(now: nat, enabled: bool)
      modifies this
      ensures View() == Upgrade(old(View()), now, enabled)
    {
      hide UpgradeRequests, Strays, Requeue;
      scheduled, timers, inFlight := false, 0, multiset{};
      var candidates := SortOut(now);
      PutBack(candidates);
      if queue != map[] && enabled { ScheduleDispatch(); }
    }

    /** The pass over the requests: those in dispatch become Uncertain, the stray Queued ones are returned. */
    method SortOut(now: nat) returns (candidates: set<Id>)
      modifies this`requests
      ensures requests == UpgradeRequests(old(requests), now)
      ensures candidates == Strays(old(requests), queue)
    {
      candidates := {};
      var queuedIds := queue.Values;
      var rest := requests.Keys;
      while rest != {}
        invariant rest <= old(requests).Keys && requests.Keys == old(requests).Keys
        invariant forall id :: id in requests && id in rest ==> requests[id] == old(requests)[id]
        invariant forall id :: id in requests && id !in rest ==> requests[id] == UpgradeRequests(old(requests), now)[id]
        invariant forall id :: id in candidates <==>
                    id in old(requests) && id !in rest && old(requests)[id].status == Queued && id !in queuedIds
        decreases |rest|
      {
        var id :| id in rest;
        match requests[id].status {
          case Queued => if id !in queuedIds { candidates := candidates + {id}; }
          case Dispatching => requests := requests[id := MarkUncertain(requests[id], now)];
          case _ =>
        }
        rest := rest - {id};
      }
    }

    method PutBack(strays: set<Id>)
      modifies this`queue, this`tail
      ensures (queue, tail) == Requeue(old(queue), old(tail), strays)
    {
      var rest := strays;
      while rest != {}
        invariant Requeue(queue, tail, rest) == Requeue(old(queue), old(tail), strays)
        decreases |rest|
      {
        var id := LeastId(rest);
        queue := queue[tail := id];
        tail := SatAdd(tail, 1, U64_MAX);
        rest := rest - {id};
      }
    }
  }

  lemma PopMoves(d: State, now: nat)
    requires d.head <= d.tail <= U64_MAX
    ensures var (e, p) := Pop(d, now);
            && e.tail == d.tail && (p.Nothing? <==> d.head == d.tail)
            && e.head == (if p.Nothing? then d.head else d.head + 1)
  {
  }

  method LeastId(s: set<Id>) returns (id: Id)
    requires s != {}
    ensures IsLeast(s, id)
  {
    id :| id in s;
    var rest := s - {id};
    while rest != {}
      invariant id in s && rest <= s && forall m :: m in s && m !in rest ==> m == id || Before(id, m)
      decreases |rest|
    {
      var m :| m in rest;
      if Before(m, id) { id := m; }
      rest := rest - {m};
    }
  }

  /** Exactly the completed requests, oldest first. */
  ghost predicate IsSortedCompleted(requests: map<Id, Req>, ids: seq<Id>) {
    && (forall id :: id in ids <==> id in requests && requests[id].status.Completed())
    && (forall i, j :: 0 <= i < j < |ids|
         ==> ids[i] in requests && ids[j] in requests && Older(ids[i], ids[j], requests))
  }

  /** The completed requests sorted by `(updated_at, request_id)`. */
  method SortedCompleted(requests: map<Id, Req>) returns (ids: seq<Id>)
    ensures IsSortedCompleted(requests, ids)
  {
    ids := [];
    var rest := set id | id in requests && requests[id].status.Completed();
    while rest != {}
      invariant forall id :: id in rest ==> id in requests && requests[id].status.Completed()
      invariant forall id :: id in requests && requests[id].status.Completed() ==> id in rest || id in ids
      invariant forall id :: id in ids ==> id in requests && requests[id].status.Completed()
      invariant forall i, j :: 0 <= i < j < |ids| ==> Older(ids[i], ids[j], requests)
      invariant forall i, id :: 0 <= i < |ids| && id in rest ==> Older(ids[i], id, requests)
      decreases |rest|
    {
      var id := OldestOf(rest, requests);
      ids := ids + [id];
      rest := rest - {id};
    }
  }

  method OldestOf(s: set<Id>, requests: map<Id, Req>) returns (id: Id)
    requires s != {} && forall x :: x in s ==> x in requests
    ensures id in s && forall x :: x in s ==> x == id || Older(id, x, requests)
  {
    id :| id in s;
    var rest := s - {id};
    while rest != {}
      invariant id in s && rest <= s && forall m :: m in s && m !in rest ==> m == id || Older(id, m, requests)
      decreases |rest|
    {
      var m :| m in rest;
      if Older(m, id, requests) { id := m; }
      rest := rest - {m};
    }
  }

  lemma SortedHead(requests: map<Id, Req>, ids: seq<Id>)
    requires IsSortedCompleted(requests, ids) && ids != []
    ensures OldestCompleted(requests) == Some(ids[0])
    ensures IsSortedCompleted(requests - {ids[0]}, ids[1..])
  {
    assert IsOldestCompleted(requests, ids[0]);
    OldestUnique(requests, ids[0], OldestCompleted(requests).value);
    forall id | id in ids[1..] ensures id != ids[0] {
      assert !Older(ids[0], ids[0], requests);
    }
  }

  lemma OldestUnique(requests: map<Id, Req>, a: Id, b: Id)
    requires IsOldestCompleted(requests, a) && IsOldestCompleted(requests, b)
    ensures a == b
  {
    BeforeAsymmetric(a, b);
  }

  lemma BeforeAsymmetric(a: Id, b: Id)
    ensures !(Before(a, b) && Before(b, a))
  {
  }

  lemma SortedNone(requests: map<Id, Req>, ids: seq<Id>)
    requires IsSortedCompleted(requests, ids) && ids == []
    ensures OldestCompleted(requests) == None
  {
  }
}
