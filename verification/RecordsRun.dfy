/** The dropped ring and the hash index over whole runs: what stays readable of a transaction that was dropped. */
module RecordsRun {
  import opened Common
  import opened Types
  import opened Mempool
  import opened MempoolInv
  import opened MempoolSafe
  import opened MempoolRun

  /** The ring names the last drops, at most a thousand; a transaction reads Dropped only while the ring names it. */
  ghost predicate RingOk(t: Records) {
    && t.ringLen <= 1000 && t.ringLen <= t.ringNext
    && (forall i: nat :: i in t.ring <==> t.ringNext - t.ringLen <= i < t.ringNext)
    && (forall x :: x in t.locs && t.locs[x].Dropped? ==> exists i :: i in t.ring && t.ring[i] == x)
  }

  /** The hash index lists exactly the stored Ethereum transactions, and whatever is stored was seen. */
  ghost predicate HashIndexOk(t: Records) {
    && (forall x :: x in t.ethIndex <==> x in t.store && t.store[x].Good? && t.store[x].kind == EthSigned)
    && (forall x :: x in t.store ==> x in t.seen)
  }

  ghost predicate RecordsOk(t: Records) { RingOk(t) && HashIndexOk(t) }

  /** The ring is full and `x` is its oldest entry. */
  predicate Oldest(t: Records, x: TxId) { t.ringLen >= 1000 && Get(t.ring, t.ringNext - t.ringLen) == Some(x) }

  /** A drop enters the ring under the next number; a full ring lets its oldest entry go. */
  ghost predicate Rung(t: Records, u: Records, id: TxId) {
    && u.ringNext == t.ringNext + 1
    && u.ringLen == (if t.ringLen < 1000 then t.ringLen + 1 else 1000)
    && Get(u.ring, t.ringNext) == Some(id)
    && forall i :: i in u.ring && i != t.ringNext ==> i in t.ring && u.ring[i] == t.ring[i]
  }

  /** Its location reads the drop's code; only the ring's oldest entry, when it is a drop, loses its location. */
  ghost predicate Coded(t: Records, u: Records, id: TxId, code: nat) {
    && (forall x :: !Oldest(t, x) ==> Get(u.locs, x) == if x == id then Some(Dropped(code)) else Get(t.locs, x))
    && (forall x :: Oldest(t, x) && (x == id || (x in t.locs && t.locs[x].Dropped?)) ==> x !in u.locs)
  }

  /** Its payload goes and its hash with it; nothing else is forgotten. */
  ghost predicate Emptied(t: Records, u: Records, id: TxId) {
    && u.store == t.store - {id} && u.seen == t.seen
    && (forall x :: x != id ==> (x in u.ethIndex <==> x in t.ethIndex))
  }

  /** The records before the ring moves on. */
  function Marked(t: Records, id: TxId, code: nat): Records {
    var u := RemoveEthIndex(t, id);
    u.(store := u.store - {id}, locs := u.locs[id := Dropped(code)])
  }

  lemma PushRung(t: Records, id: TxId)
    requires t.ringLen <= 1000 && t.ringLen <= t.ringNext < U64_MAX
    requires forall i: nat :: i in t.ring <==> t.ringNext - t.ringLen <= i < t.ringNext
    requires id in t.locs && t.locs[id].Dropped?
    ensures Rung(t, PushRing(t, id), id)
    ensures var u := PushRing(t, id); forall i: nat :: i in u.ring <==> u.ringNext - u.ringLen <= i < u.ringNext
    ensures var u := PushRing(t, id);
            && (forall x :: !Oldest(t, x) ==> Get(u.locs, x) == Get(t.locs, x))
            && (forall x :: Oldest(t, x) && x in t.locs && t.locs[x].Dropped? ==> x !in u.locs)
            && (forall x :: Oldest(t, x) && x in u.locs ==> x in t.locs && u.locs[x] == t.locs[x])
            && u.store == t.store && u.seen == t.seen && u.ethIndex == t.ethIndex
  {
  }

  lemma StillNamed(t: Records, u: Records, id: TxId)
    requires RingOk(t) && Rung(t, u, id)
    requires forall i: nat :: i in u.ring <==> u.ringNext - u.ringLen <= i < u.ringNext
    requires forall x :: x in u.locs && u.locs[x].Dropped? && x != id ==>
               !Oldest(t, x) && x in t.locs && t.locs[x].Dropped?
    ensures RingOk(u)
  {
    forall x | x in u.locs && u.locs[x].Dropped? ensures exists i :: i in u.ring && u.ring[i] == x {
      if x == id {
        assert t.ringNext in u.ring;
      } else {
        var i :| i in t.ring && t.ring[i] == x;
        assert i in u.ring;
      }
    }
  }

  lemma MarkedCoded(t: Records, u: Records, id: TxId, code: nat)
    requires var m := Marked(t, id, code);
             && (forall x :: !Oldest(m, x) ==> Get(u.locs, x) == Get(m.locs, x))
             && (forall x :: Oldest(m, x) && x in m.locs && m.locs[x].Dropped? ==> x !in u.locs)
             && (forall x :: Oldest(m, x) && x in u.locs ==> x in m.locs && u.locs[x] == m.locs[x])
    ensures Coded(t, u, id, code)
    ensures RingOk(t) ==> forall x :: x in u.locs && u.locs[x].Dropped? && x != id ==>
                            !Oldest(t, x) && x in t.locs && t.locs[x].Dropped?
  {
    var m := Marked(t, id, code);
    assert m.locs == t.locs[id := Dropped(code)];
    assert forall x :: Oldest(t, x) <==> Oldest(m, x);
    hide Marked, RingOk;
  }

  lemma PurgeRing(t: Records, id: TxId, code: nat)
    requires RingOk(t) && t.ringNext < U64_MAX
    ensures var u := Purge(t, id, code); Rung(t, u, id) && Coded(t, u, id, code) && RingOk(u)
  {
    var m := Marked(t, id, code);
    var u := PushRing(m, id);
    assert m.ring == t.ring && m.ringNext == t.ringNext && m.ringLen == t.ringLen;
    assert u == Purge(t, id, code);
    hide PushRing, Oldest, Purge;
    PushRung(m, id);
    assert Rung(t, u, id);
    hide Marked, Rung;
    MarkedCoded(t, u, id, code);
    hide Coded;
    StillNamed(t, u, id);
  }

  lemma PurgeHash(t: Records, id: TxId, code: nat)
    requires RingOk(t) && HashIndexOk(t) && t.ringNext < U64_MAX
    ensures Emptied(t, Purge(t, id, code), id) && HashIndexOk(Purge(t, id, code))
  {
    PurgeKeeps(t, id, code);
    assert Purge(t, id, code).ethIndex == RemoveEthIndex(t, id).ethIndex;
    hide Purge, RingOk;
  }

  /** Purging a dropped transaction, in the fields of the records. */
  lemma PurgeMeans(t: Records, id: TxId, code: nat)
    requires RecordsOk(t) && t.ringNext < U64_MAX
    ensures var u := Purge(t, id, code);
            Rung(t, u, id) && Coded(t, u, id, code) && Emptied(t, u, id) && RecordsOk(u)
  {
    hide Purge, RingOk, HashIndexOk, Rung, Coded, Emptied;
    PurgeRing(t, id, code);
    PurgeHash(t, id, code);
  }

  lemma AddedRecordsOk(t: Records, id: TxId, pay: Payload, sn: nat)
    requires RecordsOk(t) && id !in t.seen && pay.Good?
    ensures RecordsOk(AddedRecords(t, id, pay, sn))
  {
  }

  lemma PlacedRecordsOk(t: Records, id: TxId, number: nat, index: nat)
    requires RecordsOk(t)
    ensures RecordsOk(t.(locs := t.locs[id := Included(number, index)]))
  {
  }

  lemma ForgottenRecordsOk(p: Pool, id: TxId)
    requires RecordsOk(p.txs)
    ensures RecordsOk(Forget(p, id).txs)
  {
  }

  // ---------------------------------------------------------------- whole runs

  lemma DropRecordsOk(p: Pool, d: StagedDrop)
    requires Inv(p) && d.id in p.meta && RecordsOk(p.txs) && p.txs.ringNext < U64_MAX
    ensures var q := Drop(p, d.id, d.over, d.code);
            RecordsOk(q.txs) && q.txs.ringNext == p.txs.ringNext + 1 && q.txs == Purge(p.txs, d.id, d.code)
  {
    hide Inv, Drop, Purge, RecordsOk, Coded, Emptied;
    DropInv(p, d.id, d.over, d.code);
    PurgeMeans(p.txs, d.id, d.code);
  }

  lemma {:induction false} DropsRecordsOk(p: Pool, drops: seq<StagedDrop>, ids: seq<TxId>)
    requires Inv(p) && Takes(p.meta.Keys, DropIds(drops) + ids)
    requires RecordsOk(p.txs) && p.txs.ringNext + |drops| < U64_MAX
    ensures var q := ApplyDrops(p, drops); RecordsOk(q.txs) && q.txs.ringNext == p.txs.ringNext + |drops|
    decreases |drops|
  {
    hide Inv, Drop, RecordsOk;
    if drops != [] {
      var d := drops[0];
      var all := DropIds(drops) + ids;
      assert all[0] == d.id && all[1..] == DropIds(drops[1..]) + ids;
      DropStep(p, d);
      DropRecordsOk(p, d);
      var q := Drop(p, d.id, d.over, d.code);
      assert q.meta.Keys == p.meta.Keys - {d.id};
      DropsRecordsOk(q, drops[1..], ids);
    }
  }

  lemma {:induction false} IncludesRecordsOk(p: Pool, ids: seq<TxId>, number: nat, index: nat, accounts: Sender -> nat)
    requires Inv(p) && Takes(p.meta.Keys, ids) && RecordsOk(p.txs)
    ensures var q := ApplyIncludes(p, ids, number, index, accounts);
            RecordsOk(q.txs) && q.txs.ringNext == p.txs.ringNext
    decreases |ids|
  {
    hide Inv, Include, RecordsOk;
    if ids != [] {
      var account := accounts(ids[0].sender);
      IncludeStep(p, ids[0], number, index, account);
      IncludeInv(p, ids[0], number, index, account);
      PlacedRecordsOk(p.txs, ids[0], number, index);
      var q := Include(p, ids[0], number, index, account);
      assert q.meta.Keys == p.meta.Keys - {ids[0]};
      IncludesRecordsOk(q, ids[1..], number, index + 1, accounts);
    }
  }

  lemma AcceptedRecords(p: Pool, id: TxId, req: Request, price: nat, victim: Option<TxId>)
    ensures Accepted(p, id, req, price, victim).txs
         == AddedRecords(if victim.Some? then Purge(p.txs, victim.value, DROP_CODE_REPLACED) else p.txs,
                           id, PayloadOf(id, req), p.tail)
  {
  }

  lemma SubmitRecordsOk(p: Pool, id: TxId, req: Request)
    requires Inv(p) && id.nonce <= U64_MAX && RecordsOk(p.txs) && p.txs.ringNext + 1 < U64_MAX
    ensures var q := Submit(p, id, req).0;
            RecordsOk(q.txs) && p.txs.ringNext <= q.txs.ringNext <= p.txs.ringNext + 1
  {
    hide Inv, Submit, Accepted, Screen, Purge, RecordsOk, Coded, PushedOut, AddedRecords;
    var victim := SubmitSpec(p, id, req);
    if Submit(p, id, req).1.Ok? {
      AcceptedRecords(p, id, req, Screen(p, id, req).value, victim);
      var t := if victim.Some? then Purge(p.txs, victim.value, DROP_CODE_REPLACED) else p.txs;
      if victim.Some? { PurgeMeans(p.txs, victim.value, DROP_CODE_REPLACED); }
      AddedRecordsOk(t, id, PayloadOf(id, req), p.tail);
      AddedRing(t, id, req, p.tail);
    }
  }

  lemma AddedRing(t: Records, id: TxId, req: Request, sn: nat)
    ensures AddedRecords(t, id, PayloadOf(id, req), sn).ringNext == t.ringNext
  {
  }

  lemma {:induction false} ForgetAllRecordsOk(p: Pool, ids: seq<TxId>)
    requires RecordsOk(p.txs)
    ensures RecordsOk(ForgetAll(p, ids).txs) && ForgetAll(p, ids).txs.ringNext == p.txs.ringNext
    decreases |ids|
  {
    hide RecordsOk, DecrementPrincipal, RemoveFee;
    if ids != [] {
      ForgottenRecordsOk(p, ids[0]);
      ForgetAllRecordsOk(Forget(p, ids[0]), ids[1..]);
    }
  }

  /** How many drops an operation can make. */
  function Drops(op: Op): nat {
    match op
    case OpSubmit(_, _) => 1
    case OpBlock(drops, _, _, _, _) => |drops|
    case _ => 0
  }

  function AllDrops(ops: seq<Op>): nat { if ops == [] then 0 else Drops(ops[0]) + AllDrops(ops[1..]) }

  lemma StepRecordsOk(p: Pool, op: Op)
    requires Inv(p) && Enabled(p, op) && RecordsOk(p.txs) && p.txs.ringNext + Drops(op) < U64_MAX
    ensures RecordsOk(Step(p, op).txs) && Step(p, op).txs.ringNext <= p.txs.ringNext + Drops(op)
  {
    hide Inv, RecordsOk, Takes, Submit, RebuildFees, Staged, Recount;
    match op
    case OpSubmit(id, req) => SubmitRecordsOk(p, id, req);
    case OpBlock(drops, ids, number, accounts, fee) =>
      StagedPending(p, drops, ids);
      ApplyDropsInv(p, drops, ids);
      DropsRecordsOk(p, drops, ids);
      IncludesRecordsOk(ApplyDrops(p, drops), ids, number, 0, accounts);
    case OpPrune(ids) => ForgetAllRecordsOk(p, ids);
    case OpRebuild =>
  }

  /** In every state a run reaches, before the drop counter runs out, the ring names exactly the last drops and every
      transaction that reads Dropped, and the hash index lists exactly the stored Ethereum transactions. */
  lemma {:induction false} RunRecordsOk(p: Pool, ops: seq<Op>, q: Pool)
    requires Inv(p) && RecordsOk(p.txs) && Runs(p, ops, q) && p.txs.ringNext + AllDrops(ops) < U64_MAX
    ensures RecordsOk(q.txs)
    decreases |ops|
  {
    hide Inv, RecordsOk, Step, Enabled, Drops;
    if ops != [] {
      StepRecordsOk(p, ops[0]);
      StepInv(p, ops[0]);
      RunRecordsOk(Step(p, ops[0]), ops[1..], q);
    }
  }

  lemma FreshRecordsOk(cfg: Config)
    ensures RecordsOk(Fresh(cfg).txs)
  {
  }
}
