/** What each step of the ICP update queue writes, field by field, and what a stored request tells of its history. */
module DispatchMeaning {
  import opened Common
  import opened Types
  import opened Dispatch
  import opened DispatchSafe

  // ---------------------------------------------------------------- the ids of a block

  /** The update intents of one transaction, each under the id derived from it. */
  lemma {:induction false} TxIdsMeans(derive: (TxId, nat) -> nat, tx: TxId, intents: seq<bool>, at: nat)
    requires at <= |intents|
    ensures forall id :: id in IdsOfTx(derive, tx, intents, at) <==>
              && id.tx == tx && at <= id.log < |intents| && intents[id.log] && id.log <= 0xFFFF_FFFF
              && id.hash == derive(tx, id.log)
    decreases |intents| - at
  {
    if at < |intents| { TxIdsMeans(derive, tx, intents, at + 1); }
  }

  predicate Ascending(ids: seq<Id>) { forall i, j :: 0 <= i < j < |ids| ==> ids[i].log < ids[j].log }

  lemma AscendingCons(id: Id, ids: seq<Id>)
    requires Ascending(ids) && forall x :: x in ids ==> id.log < x.log
    ensures Ascending([id] + ids)
  {
  }

  /** They come by log index. */
  lemma {:induction false} TxIdsAscend(derive: (TxId, nat) -> nat, tx: TxId, intents: seq<bool>, at: nat)
    requires at <= |intents|
    ensures Ascending(IdsOfTx(derive, tx, intents, at))
    decreases |intents| - at
  {
    if at < |intents| {
      var rest := IdsOfTx(derive, tx, intents, at + 1);
      TxIdsAscend(derive, tx, intents, at + 1);
      TxIdsMeans(derive, tx, intents, at + 1);
      if intents[at] && at <= U32_MAX {
        AscendingCons(Id(derive(tx, at), tx, at), rest);
      } else {
        assert [] + rest == rest;
      }
    }
  }

  /** A block's ids are its transactions' ids, in the order of the transactions. */
  lemma {:induction false} BlockIdsMeans(derive: (TxId, nat) -> nat, txs: seq<TxId>, intents: seq<seq<bool>>, id: Id)
    requires |intents| == |txs|
    ensures id in IdsOfBlock(derive, txs, intents) <==>
            exists i :: 0 <= i < |txs| && id in IdsOfTx(derive, txs[i], intents[i], 0)
    decreases |txs|
  {
    if txs != [] {
      BlockIdsMeans(derive, txs[1..], intents[1..], id);
      var head, rest := IdsOfTx(derive, txs[0], intents[0], 0), IdsOfBlock(derive, txs[1..], intents[1..]);
      assert id in IdsOfBlock(derive, txs, intents) <==> id in head || id in rest;
      if i :| 0 <= i < |txs[1..]| && id in IdsOfTx(derive, txs[1..][i], intents[1..][i], 0) {
        assert id in IdsOfTx(derive, txs[i + 1], intents[i + 1], 0);
      }
      if i :| 0 < i < |txs| && id in IdsOfTx(derive, txs[i], intents[i], 0) {
        assert id in IdsOfTx(derive, txs[1..][i - 1], intents[1..][i - 1], 0);
      }
    }
  }

  lemma {:induction false} BlockIdsAppend(derive: (TxId, nat) -> nat, txs: seq<TxId>, intents: seq<seq<bool>>, tx: TxId,
                                          more: seq<bool>)
    requires |intents| == |txs|
    ensures IdsOfBlock(derive, txs + [tx], intents + [more])
         == IdsOfBlock(derive, txs, intents) + IdsOfTx(derive, tx, more, 0)
    decreases |txs|
  {
    hide IdsOfTx;
    var all, kinds := txs + [tx], intents + [more];
    var last := IdsOfTx(derive, tx, more, 0);
    if txs == [] {
      assert all[1..] == [] && kinds[1..] == [] && last + [] == last && [] + last == last;
    } else {
      BlockIdsAppend(derive, txs[1..], intents[1..], tx, more);
      assert all[1..] == txs[1..] + [tx] && kinds[1..] == intents[1..] + [more];
      var head, rest := IdsOfTx(derive, txs[0], intents[0], 0), IdsOfBlock(derive, txs[1..], intents[1..]);
      assert IdsOfBlock(derive, all, kinds) == head + (rest + last);
      assert head + (rest + last) == head + rest + last;
    }
  }

  // ---------------------------------------------------------------- the steps

  /** Every request but `id` is as it was. */
  ghost predicate SameBut(a: map<Id, Req>, b: map<Id, Req>, id: Id) {
    forall x :: x != id ==> Get(b, x) == Get(a, x)
  }

  /** `a` was last touched before `b`, or at the same time and its id comes first. */
  predicate TouchedFirst(requests: map<Id, Req>, a: Id, b: Id) {
    && a in requests && b in requests
    && (requests[a].updatedAt < requests[b].updatedAt
        || (requests[a].updatedAt == requests[b].updatedAt && a.hash <= b.hash))
  }

  predicate Final(s: Status) { s == Dispatched || s == DispatchFailed || s == DispatchUncertain }

  /** From `stored` to `kept` only requests that are over went, the longest untouched first, and no more of them than
      it takes to have ten thousand left. */
  ghost predicate Forgotten(stored: map<Id, Req>, kept: map<Id, Req>) {
    && (forall x :: x in kept ==> Get(stored, x) == Some(kept[x]))
    && (forall x :: x in stored && x !in kept ==> Final(stored[x].status))
    && (forall a, b :: a in stored && a !in kept && b in kept && Final(stored[b].status) ==> TouchedFirst(stored, a, b))
    && (|stored| <= 10_000 ==> kept == stored)
    && (|stored| > 10_000 ==> |kept| == 10_000 || (|kept| > 10_000 && forall x :: x in kept ==> !Final(kept[x].status)))
  }

  lemma TrimMeans(requests: map<Id, Req>, queue: map<nat, Id>)
    requires forall n :: n in queue ==> IsQueued(requests, queue[n])
    ensures Trim(requests, queue).1 == queue && Forgotten(requests, Trim(requests, queue).0)
  {
    SmallStays(requests, queue);
    hide Trim, IsQueued;
    TrimSpec(requests, queue);
  }

  lemma SmallStays(requests: map<Id, Req>, queue: map<nat, Id>)
    ensures |requests| <= 10_000 ==> Trim(requests, queue).0 == requests
  {
  }

  /** A new intent enters the queue at its tail as a fresh request; what it displaces is over. */
  lemma RecordMeans(d: State, id: Id, now: nat)
    requires Inv(d) && id !in d.recorded && d.tail < U64_MAX
    ensures var e := Record(d, id, now);
            && Get(e.requests, id) == Some(Req(Queued, None, None, now, 0))
            && e.queue == d.queue[d.tail := id] && e.head == d.head && e.tail == d.tail + 1
            && Forgotten(d.requests[id := Req(Queued, None, None, now, 0)], e.requests)
  {
    hide QueueOk, Trim, LogOk, NoDecodeFailure;
    var requests, queue := d.requests[id := NewReq(now)], d.queue[d.tail := id];
    assert id !in d.requests by { RecordRest(d, id, now); }
    RecordQueue(d, id, now);
    QueueNamesQueued(requests, queue, d.head, d.tail + 1);
    TrimMeans(requests, queue);
    hide InQueue;
  }

  /** After a block one tick is alive, whatever was recorded. */
  lemma BlockMeans(d: State, ids: seq<Id>, now: nat)
    requires Inv(d) && Fresh(d, ids, now) && d.tail + |ids| <= U64_MAX
    ensures var e := Step(d, OpBlock(ids, now)); e.scheduled && e.timers + |e.inFlight| == 1 && e.log == d.log
  {
    hide QueueOk, NoDecodeFailure, LogOk, RecordAll;
    RecordAllInv(d, ids, now);
    ScheduleOnce(RecordAll(d, ids, now));
    assert Schedule(RecordAll(d, ids, now)).scheduled;
  }

  /** A pop takes the head of the queue into dispatch and stamps it; its first start is kept. */
  lemma PopMeans(d: State, now: nat)
    requires Inv(d) && d.head < d.tail
    ensures var (e, p) := Pop(d, now);
            && d.head in d.queue && d.queue[d.head] in d.requests && p == Got(d.queue[d.head])
            && var id := d.queue[d.head];
               var r := d.requests[id];
               && Get(e.requests, id)
                  == Some(Req(Dispatching, r.reply, r.code, now, if r.callStartedAt == 0 then now else r.callStartedAt))
               && SameBut(d.requests, e.requests, id)
               && e.queue == d.queue - {d.head} && e.head == d.head + 1 && e.tail == d.tail && e.log == d.log + [id]
  {
    PopSpec(d, now);
  }

  /** A firing timer pops the head and awaits its call; with nothing queued the flag goes down and no timer is left. */
  lemma FireMeans(d: State, now: nat)
    requires Inv(d) && d.timers > 0
    ensures var e := Fire(d, now);
            && (d.head < d.tail ==>
                  && d.head in d.queue && e == Pop(d, now).0.(timers := 0, inFlight := multiset{d.queue[d.head]}))
            && (d.head == d.tail ==> e == d.(timers := 0, scheduled := false))
  {
    hide QueueOk, LogOk, NoDecodeFailure, PopLoop;
    assert |d.inFlight| == 0;
    assert d.inFlight == multiset{};
    PopAt(d, now);
    PopSpec(d, now);
    EmptyQueue(d);
    hide Pop;
  }

  /** The answer to an awaited call: the request carries what the call reported and when, every other request is as it
      was, and an id no longer stored adds nothing; the next timer is armed exactly when entries wait. */
  lemma AnswerMeans(d: State, id: Id, now: nat, o: Outcome)
    requires Inv(d) && id in d.inFlight
    ensures var e := Answer(d, id, now, o);
            && (id in d.requests ==>
                  Get(e.requests, id) == Some(Req(o.status, o.reply, o.code, now, d.requests[id].callStartedAt)))
            && (id !in d.requests ==> id !in e.requests)
            && SameBut(d.requests, e.requests, id)
            && e.queue == d.queue && e.head == d.head && e.tail == d.tail && e.log == d.log
            && e.inFlight == multiset{}
            && e.scheduled == (d.queue != map[]) && e.timers == (if d.queue != map[] then 1 else 0)
  {
    assert d.inFlight == multiset{id} + (d.inFlight - multiset{id});
    assert |d.inFlight - multiset{id}| == 0;
    hide QueueOk, LogOk, NoDecodeFailure;
  }

  /** Uncertain, with whatever reply and first start it had. */
  function Lost(r: Req, now: nat): Req { Req(DispatchUncertain, r.reply, Some(Uncertain), now, r.callStartedAt) }

  /** Repair gives up exactly the requests in dispatch that were last touched ten minutes ago or earlier; one without a
      time counts as such. */
  lemma RepairMeans(d: State, now: nat)
    requires Inv(d)
    ensures var e := Repair(d, now);
            && (forall x :: Get(e.requests, x)
                            == match Get(d.requests, x)
                               case None => None
                               case Some(r) =>
                                 if r.status == Dispatching
                                    && (r.updatedAt == 0 || r.updatedAt + 600_000_000_000 <= now)
                                 then Some(Lost(r, now)) else Some(r))
            && e.queue == d.queue && e.head == d.head && e.tail == d.tail && e.inFlight == d.inFlight
  {
  }

  /** An upgrade gives up exactly the requests in dispatch, keeps the queue, and starts over with one timer when entries
      wait and the data plane is on. */
  lemma UpgradeMeans(d: State, now: nat, enabled: bool)
    requires Inv(d)
    ensures var e := Upgrade(d, now, enabled);
            && (forall x :: Get(e.requests, x)
                            == match Get(d.requests, x)
                               case None => None
                               case Some(r) => if r.status == Dispatching then Some(Lost(r, now)) else Some(r))
            && e.queue == d.queue && e.head == d.head && e.tail == d.tail && e.inFlight == multiset{}
            && e.scheduled == (d.queue != map[] && enabled) && e.timers == (if e.scheduled then 1 else 0)
  {
    NoStrays(d);
    hide QueueOk, LogOk, NoDecodeFailure;
  }

  // ---------------------------------------------------------------- what a stored request tells

  /** The last thing an awaited call reported of an id, and when. */
  datatype Said = Said(now: nat, outcome: Outcome)

  function Hear(said: map<Id, Said>, op: Op): map<Id, Said> {
    match op case OpAnswer(id, now, o) => said[id := Said(now, o)] case _ => said
  }

  function Heard(said: map<Id, Said>, ops: seq<Op>): map<Id, Said>
    decreases |ops|
  {
    if ops == [] then said else Heard(Hear(said, ops[0]), ops[1..])
  }

  /** A request whose call answered carries what it reported; one whose call did not answer is fresh while it waits or
      is in dispatch, and marked Uncertain without a reply once it was given up. */
  predicate Tells(r: Req, said: Option<Said>) {
    match said
    case Some(s) =>
      r.status == s.outcome.status && r.reply == s.outcome.reply && r.code == s.outcome.code && r.updatedAt == s.now
    case None =>
      r.reply == None
      && match r.status
         case Queued => r.code == None && r.callStartedAt == 0
         case Dispatching => r.code == None
         case DispatchUncertain => r.code == Some(Uncertain)
         case _ => false
  }

  /** Every stored request tells its history; answers came for dispatched ids only. */
  ghost predicate AllTell(d: State, said: map<Id, Said>) {
    && (forall id :: id in d.requests ==> Tells(d.requests[id], Get(said, id)))
    && (forall id :: id in said ==> id in d.log && said[id].outcome.status.Completed())
    && (forall id :: id in d.requests && d.requests[id].status != Queued ==> id in d.log)
  }

  lemma RecordTells(d: State, id: Id, now: nat, said: map<Id, Said>)
    requires Inv(d) && id !in d.recorded && d.tail < U64_MAX && AllTell(d, said)
    ensures AllTell(Record(d, id, now), said)
  {
    hide Inv, Record, AllTell, Forgotten, IsQueued;
    NotHeard(d, id, said);
    RecordMeans(d, id, now);
    RecordInv(d, id, now);
    StoredTells(d, Record(d, id, now), id, now, said);
  }

  lemma StoredTells(d: State, e: State, id: Id, now: nat, said: map<Id, Said>)
    requires AllTell(d, said) && id !in said && e.log == d.log
    requires Forgotten(d.requests[id := Req(Queued, None, None, now, 0)], e.requests)
    ensures AllTell(e, said)
  {
    FreshTells(now);
    hide Tells;
    forall x | x in e.requests
      ensures Tells(e.requests[x], Get(said, x)) && (e.requests[x].status != Queued ==> x in e.log)
    {
      assert Get(d.requests[id := Req(Queued, None, None, now, 0)], x) == Some(e.requests[x]);
    }
  }

  lemma NotHeard(d: State, id: Id, said: map<Id, Said>)
    requires Inv(d) && AllTell(d, said) && (id !in d.recorded || IsQueued(d.requests, id))
    ensures id !in said
  {
    assert id in said ==> id in d.log;
  }

  lemma FreshTells(now: nat)
    ensures Tells(Req(Queued, None, None, now, 0), None)
  {
  }

  lemma {:induction false} RecordAllTells(d: State, ids: seq<Id>, now: nat, said: map<Id, Said>)
    requires Inv(d) && Fresh(d, ids, now) && d.tail + |ids| <= U64_MAX && AllTell(d, said)
    ensures AllTell(RecordAll(d, ids, now), said)
    decreases |ids|
  {
    hide Inv, Record, AllTell;
    if ids != [] {
      if ids[0] in d.requests {
        RecordStored(d, ids[0], now);
      } else {
        RecordInv(d, ids[0], now);
        RecordTells(d, ids[0], now, said);
      }
      RecordAllTells(Record(d, ids[0], now), ids[1..], now, said);
    }
  }

  lemma FireTells(d: State, now: nat, said: map<Id, Said>)
    requires Inv(d) && d.timers > 0 && AllTell(d, said)
    ensures AllTell(Fire(d, now), said)
  {
    hide Inv, Pop, Fire, AllTell;
    HeadBound(d);
    FireMeans(d, now);
    if d.head < d.tail {
      PopMeans(d, now);
      HeadQueued(d);
      NotHeard(d, d.queue[d.head], said);
      PoppedTells(d, Fire(d, now), d.queue[d.head], now, said);
    } else {
      SameTells(d, Fire(d, now), said);
    }
  }

  lemma HeadBound(d: State)
    requires Inv(d)
    ensures d.head <= d.tail <= U64_MAX
  {
  }

  lemma SameTells(d: State, e: State, said: map<Id, Said>)
    requires AllTell(d, said) && e.requests == d.requests && e.log == d.log
    ensures AllTell(e, said)
  {
  }

  lemma PoppedTells(d: State, e: State, id: Id, now: nat, said: map<Id, Said>)
    requires AllTell(d, said) && IsQueued(d.requests, id) && id !in said && e.log == d.log + [id]
    requires SameBut(d.requests, e.requests, id) && id in e.requests
    requires e.requests[id].(status := Queued, updatedAt := 0, callStartedAt := 0)
          == d.requests[id].(updatedAt := 0, callStartedAt := 0) && e.requests[id].status == Dispatching
    ensures AllTell(e, said)
  {
    forall x | x in e.requests
      ensures Tells(e.requests[x], Get(said, x)) && (e.requests[x].status != Queued ==> x in e.log)
    {
      assert x != id ==> Get(e.requests, x) == Get(d.requests, x);
      assert x in d.requests && Tells(d.requests[x], Get(said, x));
    }
  }

  lemma HeadQueued(d: State)
    requires Inv(d) && d.head < d.tail
    ensures d.head in d.queue && IsQueued(d.requests, d.queue[d.head])
  {
  }

  lemma AnswerTells(d: State, id: Id, now: nat, o: Outcome, said: map<Id, Said>)
    requires Inv(d) && id in d.inFlight && Applicable(o) && AllTell(d, said)
    ensures AllTell(Answer(d, id, now, o), said[id := Said(now, o)])
  {
    AnswerMeans(d, id, now, o);
    assert id in d.log;
    hide Inv, Answer;
  }

  /** Giving up what is in dispatch: no call has answered for it. */
  lemma LostTells(d: State, e: State, now: nat, said: map<Id, Said>)
    requires AllTell(d, said) && e.log == d.log
    requires forall x :: Get(e.requests, x) == Get(d.requests, x)
                         || (InDispatch(d.requests, x) && Get(e.requests, x) == Some(Lost(d.requests[x], now)))
    ensures AllTell(e, said)
  {
    forall x | x in e.requests
      ensures Tells(e.requests[x], Get(said, x)) && (e.requests[x].status != Queued ==> x in e.log)
    {
      assert Get(e.requests, x) == Some(e.requests[x]);
      assert x in d.requests && Tells(d.requests[x], Get(said, x));
    }
  }

  lemma StepTells(d: State, op: Op, said: map<Id, Said>)
    requires Inv(d) && Enabled(d, op) && FreshOp(d, op) && AllTell(d, said)
    ensures AllTell(Step(d, op), Hear(said, op))
  {
    hide Inv, AllTell, Fire, Answer, Repair, Upgrade, RecordAll;
    match op
    case OpBlock(ids, now) => RecordAllTells(d, ids, now, said); ScheduleTells(RecordAll(d, ids, now), said);
    case OpFire(now) => FireTells(d, now, said);
    case OpAnswer(id, now, o) => AnswerTells(d, id, now, o, said);
    case OpRepair(now) => RepairMeans(d, now); RepairInv(d, now); LostTells(d, Repair(d, now), now, said);
    case OpUpgrade(now, enabled) =>
      UpgradeMeans(d, now, enabled);
      UpgradeInv(d, now, enabled);
      LostTells(d, Upgrade(d, now, enabled), now, said);
  }

  lemma ScheduleTells(d: State, said: map<Id, Said>)
    requires AllTell(d, said)
    ensures AllTell(Schedule(d), said)
  {
  }

  lemma {:induction false} RunTells(d: State, ops: seq<Op>, e: State, said: map<Id, Said>)
    requires Inv(d) && FreshRuns(d, ops, e) && AllTell(d, said)
    ensures Inv(e) && AllTell(e, Heard(said, ops))
    decreases |ops|
  {
    hide Inv, Enabled, Step, FreshOp, AllTell, Hear;
    if ops != [] {
      StepInv(d, ops[0]);
      StepTells(d, ops[0], said);
      RunTells(Step(d, ops[0]), ops[1..], e, Hear(said, ops[0]));
    }
  }

  /** Over whole runs from the empty queue every stored request carries exactly what the last answer for it reported:
      its status, reply, code and time; and without an answer it waits, is in dispatch, or was given up. */
  lemma RepliesKept(ops: seq<Op>, e: State, id: Id)
    requires FreshRuns(EMPTY, ops, e) && id in e.requests
    ensures Tells(e.requests[id], Get(Heard(map[], ops), id))
    ensures e.requests[id].status == Queued <==> id !in e.log
  {
    hide FreshRuns, Tells;
    RunTells(EMPTY, ops, e, map[]);
    hide Heard;
  }

  /** What is heard of an id is what the last answer for it said. */
  lemma {:induction false} HeardLast(said: map<Id, Said>, ops: seq<Op>, id: Id)
    ensures match Get(Heard(said, ops), id)
            case None => id !in said && forall i :: 0 <= i < |ops| ==> !(ops[i].OpAnswer? && ops[i].id == id)
            case Some(s) =>
              || (Get(said, id) == Some(s) && forall i :: 0 <= i < |ops| ==> !(ops[i].OpAnswer? && ops[i].id == id))
              || exists i :: 0 <= i < |ops| && ops[i] == OpAnswer(id, s.now, s.outcome)
                             && forall j :: i < j < |ops| ==> !(ops[j].OpAnswer? && ops[j].id == id)
    decreases |ops|
  {
    if ops != [] {
      var rest := ops[1..];
      assert forall i :: 0 < i < |ops| ==> ops[i] == rest[i - 1];
      HeardLast(Hear(said, ops[0]), rest, id);
      var s := Get(Heard(said, ops), id);
      if s.Some? {
        if i :| 0 <= i < |rest| && rest[i] == OpAnswer(id, s.value.now, s.value.outcome)
                && forall j :: i < j < |rest| ==> !(rest[j].OpAnswer? && rest[j].id == id) {
          assert ops[i + 1] == OpAnswer(id, s.value.now, s.value.outcome);
        }
      }
    }
  }
}
