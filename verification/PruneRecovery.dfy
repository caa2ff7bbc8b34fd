/** Interrupted pruning: wherever a call stops between its journal write and its clean-up, recovery finishes the
    block, and however often calls are cut short they lead to the end an uninterrupted call reaches. */
module PruneRecovery {
  import opened Common
  import opened Types
  import opened Ledger
  import opened Prune
  import opened PruneSpec
  import B = BlobStore
  import M = Mempool

  /** Where a call stopped while pruning a block: after the journal entry, after the cursor that names it, with
      `done` slots reclaimed, or with the entry removed and the cursor still set. */
  datatype Stop = Entered | Marked | Draining(done: nat) | EntryGone

  /** What the stopped call leaves in the maps; `st` is its local copy of the cursor. */
  function Interrupted(c: Chain, st: PruneState, n: nat, ids: seq<TxId>, stop: Stop): Chain
    requires stop.Draining? ==> stop.done <= |CollectPtrs(c.ledger, n, ids)|
  {
    var ps := CollectPtrs(c.ledger, n, ids);
    var marked := WithPrune(Logged(c, n, ids), st.(journalBlock := Some(n)));
    match stop
    case Entered => Logged(c, n, ids)
    case Marked => marked
    case Draining(done) => Drained(Deleted(marked, n, ids), ps[..done])
    case EntryGone => EntryRemoved(Drained(Deleted(marked, n, ids), ps), n)
  }

  /** The cursor after the recovery: moved past the block only when the recovery itself deleted it. */
  function CursorAfter(stored: PruneState, st: PruneState, n: nat, stop: Stop): PruneState {
    Normalized(match stop
               case Entered => stored.(prunedBefore := Some(n))
               case Marked => st.(prunedBefore := Some(n))
               case _ => st)
  }

  // ---------------------------------------------------------------- one recovery

  lemma {:induction false} PrefixDrains(a: B.Arena, ps: seq<B.BlobPtr>, i: nat)
    requires i <= |ps| && ReclaimAll(a, ps).1.Ok?
    ensures ReclaimAll(a, ps[..i]).1.Ok?
    decreases |ps|
  {
    if i > 0 {
      assert ps[..i][0] == ps[0] && ps[..i][1..] == ps[1..][..i - 1];
      PrefixDrains(B.ReclaimForPrune(a, ps[0]).0, ps[1..], i - 1);
    }
  }

  /** Replaying the entry with the block still there deletes and drains it. */
  lemma ReplayWhole(x: Chain, c: Chain, n: nat, block: BlockData, st: PruneState)
    requires Mapped(c)
    requires x.ledger == c.ledger.(journal := map[n := CollectPtrs(c.ledger, n, block.txIds)], prune := x.ledger.prune)
    requires x.pool == c.pool && LoadBlock(c.ledger, n) == Some(block) && c.ledger.journal == map[]
    requires ReclaimAll(c.ledger.arena, CollectPtrs(c.ledger, n, block.txIds)).1.Ok?
    ensures Replay(x, st, n) == (WithPrune(Release(c, n, block.txIds), x.ledger.prune),
                                 st.(prunedBefore := RecoverPrunedBefore(st.prunedBefore, n)), Ok(()))
  {
  }

  /** Replaying the entry with the block gone drains what is left. */
  lemma ReplayRest(x: Chain, c: Chain, n: nat, ids: seq<TxId>, st: PruneState, i: nat)
    requires i <= |CollectPtrs(c.ledger, n, ids)| && Mapped(x) && c.ledger.journal == map[]
    requires var ps := CollectPtrs(c.ledger, n, ids);
             && x == Drained(Deleted(WithPrune(Logged(c, n, ids), x.ledger.prune), n, ids), ps[..i])
             && ReclaimAll(c.ledger.arena, ps).1.Ok?
    ensures Replay(x, st, n) == (WithPrune(Release(c, n, ids), x.ledger.prune), st, Ok(()))
  {
    hide ReclaimAll, CollectPtrs, Remove, M.ForgetAll, B.Read;
    var ps := CollectPtrs(c.ledger, n, ids);
    PrefixDrains(c.ledger.arena, ps, i);
    DrainAgain(c.ledger.arena, ps, i);
    assert LoadBlock(x.ledger, n) == None by { BlockKeyGone(c.ledger.ptrs, n, ids); }
    assert x.ledger.journal[n] == ps && x.ledger.journal - {n} == map[];
  }

  lemma BlockKeyGone(m: map<Owner, B.BlobPtr>, n: nat, ids: seq<TxId>)
    ensures OBlock(n) !in Remove(m, BlockOwners(n, ids))
  {
    RemoveMeaning(m, BlockOwners(n, ids));
    BlockOwnersMeaning(n, ids);
  }

  lemma JournalNames(l: Ledger, n: nat)
    requires l.prune.journalBlock == Some(n) || (l.prune.journalBlock.None? && l.journal.Keys == {n})
    ensures JournalBlock(l) == Some(n)
  {
  }

  /** The recovery up to the normalised cursor. */
  lemma RecoverReplays(c: Chain, bs: map<nat, BlockData>, n: nat, st: PruneState, stop: Stop)
    requires Intact(c, bs, n) && n in bs && CursorOk(st, n)
    requires stop.Draining? ==> stop.done <= |CollectPtrs(c.ledger, n, bs[n].txIds)|
    ensures Mapped(c)
    ensures var x := Interrupted(c, st, n, bs[n].txIds, stop);
            var d := WithPrune(Release(c, n, bs[n].txIds), CursorAfter(c.ledger.prune, st, n, stop));
            Mapped(x) && Mapped(d) && Recover(x) == (d.(ledger := RefreshOldest(d.ledger)), Ok(()))
  {
    hide Intact, ReclaimAll, CollectPtrs, Remove, BlockOwners, M.ForgetAll, LoadBlock, RefreshOldest, Chained,
         JournalBlock;
    IntactParts(c, bs, n);
    var ids := bs[n].txIds;
    ReleaseDrains(c, bs, n);
    var x := Interrupted(c, st, n, ids, stop);
    JournalNames(x.ledger, n);
    var stored := x.ledger.prune.(journalBlock := Some(n));
    match stop
    case Entered =>
      assert x.ledger.journal == map[n := CollectPtrs(c.ledger, n, ids)];
      ReplayWhole(WithPrune(x, stored), c, n, bs[n], stored);
    case Marked =>
      assert x.ledger.journal == map[n := CollectPtrs(c.ledger, n, ids)];
      ReplayWhole(WithPrune(x, stored), c, n, bs[n], stored);
    case Draining(i) =>
      ReplayRest(WithPrune(x, stored), c, n, ids, stored, i);
    case EntryGone =>
      assert x.ledger.journal == map[];
  }

  lemma ReleaseDrains(c: Chain, bs: map<nat, BlockData>, n: nat)
    requires Intact(c, bs, n) && n in bs
    ensures ReclaimAll(c.ledger.arena, CollectPtrs(c.ledger, n, bs[n].txIds)).1.Ok?
  {
    hide Intact, ReclaimAll, CollectPtrs, Chained;
    IntactParts(c, bs, n);
    ReleaseIntact(c, bs, n, c.ledger.prune);
  }

  lemma CursorAfterOk(stored: PruneState, st: PruneState, n: nat, stop: Stop)
    requires CursorOk(stored, n) && CursorOk(st, n) && n < U64_MAX
    ensures var a := CursorAfter(stored, st, n, stop);
            CursorOk(a, n + 1) && Place(a) <= n + 1 && Normalized(a) == a
                && (Place(a) == n + 1 ==> a.prunedBefore == Some(n))
  {
  }

  /** Recovery of a call stopped anywhere in block `n` ends with the block released, as if it had not stopped. */
  lemma RecoverInterrupted(c: Chain, bs: map<nat, BlockData>, n: nat, st: PruneState, stop: Stop)
    requires Intact(c, bs, n) && n in bs && n + 1 in bs && CursorOk(st, n) && c.ledger.head < U64_MAX
    requires stop.Draining? ==> stop.done <= |CollectPtrs(c.ledger, n, bs[n].txIds)|
    ensures Mapped(Interrupted(c, st, n, bs[n].txIds, stop))
    ensures var (d, r) := Recover(Interrupted(c, st, n, bs[n].txIds, stop));
            && r == Ok(())
            && d == WithOldest(WithPrune(Release(c, n, bs[n].txIds), CursorAfter(c.ledger.prune, st, n, stop)),
                               n + 1, bs[n + 1].timestamp)
            && Settled(d, bs - {n}, n + 1)
  {
    hide Intact, Settled, CollectPtrs, Release, Interrupted, RefreshOldest, Chained, LoadBlock, Recover;
    IntactParts(c, bs, n);
    var a := CursorAfter(c.ledger.prune, st, n, stop);
    CursorAfterOk(c.ledger.prune, st, n, stop);
    RecoverReplays(c, bs, n, st, stop);
    ReleaseIntact(c, bs, n, a);
    ReleaseHead(c, n, bs[n].txIds);
    var d := WithPrune(Release(c, n, bs[n].txIds), a);
    RefreshSpec(d, bs - {n}, n + 1);
    IntactOldest(d, bs - {n}, n + 1, bs[n + 1].timestamp);
  }

  // ---------------------------------------------------------------- runs of cut and whole calls

  /** One call, run to its end or cut short in block `n`. */
  datatype Attempt = Whole(maxOps: nat) | Cut(maxOps: nat, n: nat, stop: Stop)

  /** The loop when its cursor arrives at block `n`. */
  ghost function Arrived(x: Chain, n: nat, maxOps: nat): (s: Sweep)
    requires Mapped(x) && 1 <= n <= U64_MAX
    ensures Mapped(s.chain)
  {
    var d := Recover(x).0;
    RecoverMapped(x);
    LoopMapped(Start(d), n - 1, maxOps);
    PruneLoop(Start(d), n - 1, maxOps).0
  }

  /** A cut can happen in block `n` when the call gets there: within the bound, block loaded, operations left. */
  ghost predicate Fits(x: Chain, retain: nat, at: Attempt) {
    && Mapped(x) && at.maxOps > 0 && x.ledger.head < U64_MAX
    && (at.Cut? ==>
          && 1 <= at.n && at.n + retain <= x.ledger.head
          && var s := Arrived(x, at.n, at.maxOps);
             && s.next == at.n && LoadBlock(s.chain.ledger, at.n).Some?
             && var ids := LoadBlock(s.chain.ledger, at.n).value.txIds;
                && SatAdd(s.used, OpsForBlock(s.chain, at.n, ids), U64_MAX) <= at.maxOps
                && (at.stop.Draining? ==> at.stop.done <= |CollectPtrs(s.chain.ledger, at.n, ids)|))
  }

  ghost function Attempted(x: Chain, retain: nat, at: Attempt): Chain
    requires Fits(x, retain, at)
  {
    match at
    case Whole(maxOps) => PruneBlocks(x, retain, maxOps).0
    case Cut(maxOps, n, stop) =>
      var s := Arrived(x, n, maxOps);
      Interrupted(s.chain, s.st, n, LoadBlock(s.chain.ledger, n).value.txIds, stop)
  }

  /** The loop passes through the state `Arrived` describes. */
  lemma {:induction false} LoopSplits(s: Sweep, mid: nat, bound: nat, maxOps: nat)
    requires Mapped(s.chain) && mid <= bound < U64_MAX
    requires PruneLoop(s, mid, maxOps).1.Ok? && PruneLoop(s, mid, maxOps).0.next > mid
    ensures Mapped(PruneLoop(s, mid, maxOps).0.chain)
    ensures PruneLoop(s, bound, maxOps) == PruneLoop(PruneLoop(s, mid, maxOps).0, bound, maxOps)
    decreases mid + 1 - s.next
  {
    hide OpsForBlock, LoadBlock, PruneOne;
    LoopMapped(s, mid, maxOps);
    if s.next <= mid {
      match LoadBlock(s.chain.ledger, s.next)
      case None =>
        LoopSplits(s.(st := s.st.(prunedBefore := Some(s.next)), next := s.next + 1, worked := true), mid, bound,
            maxOps);
      case Some(block) =>
        var used := SatAdd(s.used, OpsForBlock(s.chain, s.next, block.txIds), U64_MAX);
        var c := PruneOne(s.chain, s.st, s.next, block.txIds).0;
        PruneOneMapped(s.chain, s.st, s.next, block.txIds);
        LoopSplits(Sweep(c, s.st.(prunedBefore := Some(s.next), journalBlock := None), s.next + 1, used, true),
                   mid, bound, maxOps);
    }
  }

  lemma PruneOneMapped(c: Chain, st: PruneState, n: nat, ids: seq<TxId>)
    requires Mapped(c)
    ensures Mapped(PruneOne(c, st, n, ids).0)
  {
  }

  /** The blocks of `bs` are among those of `all`. */
  ghost predicate Within(bs: map<nat, BlockData>, all: map<nat, BlockData>) {
    forall n :: n in bs ==> n in all && all[n] == bs[n]
  }

  /** Recovery leads to a settled chain of blocks of `all` from which pruning to `bound` ends at `goal`. */
  ghost predicate OnTheWay(x: Chain, bound: nat, goal: Chain, all: map<nat, BlockData>) {
    && Mapped(x) && Recover(x).1.Ok?
    && exists bs, first :: LeadsTo(Recover(x).0, bs, first, bound, goal, all)
  }

  ghost predicate LeadsTo(d: Chain, bs: map<nat, BlockData>, first: nat, bound: nat, goal: Chain,
                          all: map<nat, BlockData>)
  {
    && Settled(d, bs, first) && Max(first, bound + 1) in bs && d.ledger.prune == Normalized(d.ledger.prune)
    && Goal(d, bs, first, bound) == goal
    && Within(bs, all)
  }

  lemma GoalIgnoresNext(c: Chain, bs: map<nat, BlockData>, first: nat, bound: nat)
    requires CursorOk(c.ledger.prune, first) && first <= U64_MAX && Max(first, bound + 1) in bs
    ensures Goal(WithPrune(c, Normalized(c.ledger.prune)), bs, first, bound) == Goal(c, bs, first, bound)
  {
    hide Release;
    SweptFrame(c, Normalized(c.ledger.prune), bs, bs, first, Max(first, bound + 1));
  }

  lemma SettledOnTheWay(c: Chain, bs: map<nat, BlockData>, first: nat, bound: nat, all: map<nat, BlockData>)
    requires Settled(c, bs, first) && c.ledger.head < U64_MAX && Max(first, bound + 1) in bs
    ensures Within(bs, all) ==> OnTheWay(c, bound, Goal(c, bs, first, bound), all)
  {
    hide Intact, OldestOk, LoadBlock, Chained, Recover, Settled, Goal;
    RecoverIdle(c, bs, first);
    SettledParts(c, bs, first);
    IntactParts(c, bs, first);
    GoalIgnoresNext(c, bs, first, bound);
    assert Within(bs, all) ==> LeadsTo(Recover(c).0, bs, first, bound, Goal(c, bs, first, bound), all);
  }

  /** Calling on the recovered chain or on the cut one is the same. */
  lemma RecoveredFirst(x: Chain, d: Chain, bs: map<nat, BlockData>, first: nat, retain: nat, maxOps: nat)
    requires Mapped(x) && x.ledger.head == d.ledger.head < U64_MAX && Recover(x).0 == d && Recover(x).1.Ok?
    requires Mapped(d) && Settled(d, bs, first) && d.ledger.prune == Normalized(d.ledger.prune)
    ensures retain > 0 && maxOps > 0 ==> PruneBlocks(x, retain, maxOps) == PruneBlocks(d, retain, maxOps)
  {
    hide Settled, PruneLoop, Finish, Recover;
    RecoverIdle(d, bs, first);
  }

  lemma WholeOnTheWay(x: Chain, retain: nat, maxOps: nat, goal: Chain, all: map<nat, BlockData>)
    requires Fits(x, retain, Whole(maxOps)) && 0 < retain < x.ledger.head
             && OnTheWay(x, x.ledger.head - retain, goal, all)
    ensures var (e, r) := PruneBlocks(x, retain, maxOps);
            && r.Ok? && e.ledger.head == x.ledger.head && OnTheWay(e, x.ledger.head - retain, goal, all)
            && (r.value.remaining == 0 ==> e == goal)
  {
    hide PruneBlocks, Settled, Recover, Goal;
    var bound := x.ledger.head - retain;
    var bs: map<nat, BlockData>, first :| LeadsTo(Recover(x).0, bs, first, bound, goal, all);
    RecoverHead(x);
    RecoverMapped(x);
    RecoveredFirst(x, Recover(x).0, bs, first, retain, maxOps);
    var f := PruneBlocksSpec(Recover(x).0, bs, first, retain, maxOps);
    SettledOnTheWay(PruneBlocks(x, retain, maxOps).0, From(bs, f), f, bound, all);
  }

  /** Where a cut call stood: everything below `n` released. */
  lemma ArrivedSpec(x: Chain, bs: map<nat, BlockData>, first: nat, n: nat, maxOps: nat)
    requires Mapped(x) && Settled(Recover(x).0, bs, first) && 1 <= n <= x.ledger.head < U64_MAX
    requires Recover(x).0.ledger.prune == Normalized(Recover(x).0.ledger.prune)
    requires Arrived(x, n, maxOps).next == n && LoadBlock(Arrived(x, n, maxOps).chain.ledger, n).Some?
    ensures SweptTo(Start(Recover(x).0), Arrived(x, n, maxOps), bs, first, n, n - 1)
    ensures first <= n && n in bs && n in From(bs, n)
    ensures LoadBlock(Arrived(x, n, maxOps).chain.ledger, n) == Some(From(bs, n)[n])
  {
    hide Intact, OldestOk, LoadBlock, Chained, Recover, PruneLoop;
    var d := Recover(x).0;
    RecoverHead(x);
    IntactParts(d, bs, first);
    PlaceIsNormalize(d.ledger.prune, first);
    var f := LoopSpec(Start(d), bs, first, n - 1, maxOps);
    IntactParts(Arrived(x, n, maxOps).chain, From(bs, f), f);
  }

  /** Releasing one block more, recorded in whatever way, does not change where pruning ends. */
  lemma GoalAfterRelease(d: Chain, c: Chain, bs: map<nat, BlockData>, first: nat, n: nat, a: PruneState, bound: nat)
    requires first <= n <= bound && bound + 1 in bs && forall k :: first <= k <= n ==> k in bs
    requires Place(d.ledger.prune) <= bound
    requires c == WithPrune(Swept(d, bs, first, n), c.ledger.prune)
    requires Place(a) <= n + 1 && (Place(a) == n + 1 ==> a.prunedBefore == Some(n))
    requires n + 1 in bs
    ensures var e := WithOldest(WithPrune(Release(c, n, bs[n].txIds), a), n + 1, bs[n + 1].timestamp);
            Goal(e, From(bs, n) - {n}, n + 1, bound) == Goal(d, bs, first, bound)
  {
    hide Release;
    var o := (n + 1, bs[n + 1].timestamp);
    ReleasedIsSwept(d, c, bs, first, n);
    SweptTwice(d, a, o, bs, first, n + 1, bound + 1);
    assert From(bs, n) - {n} == From(bs, n + 1);
  }

  lemma ReleasedIsSwept(d: Chain, c: Chain, bs: map<nat, BlockData>, first: nat, n: nat)
    requires first <= n && forall k :: first <= k <= n ==> k in bs
    requires c == WithPrune(Swept(d, bs, first, n), c.ledger.prune)
    ensures WithPrune(Release(c, n, bs[n].txIds), d.ledger.prune)
            == WithPrune(Swept(d, bs, first, n + 1), d.ledger.prune)
  {
    SweptSnoc(d, bs, first, n);
  }

  lemma {:induction false} SweptSnoc(d: Chain, bs: map<nat, BlockData>, first: nat, n: nat)
    requires first <= n && forall k :: first <= k <= n ==> k in bs
    ensures Swept(d, bs, first, n + 1) == Release(Swept(d, bs, first, n), n, bs[n].txIds)
    decreases n - first
  {
    hide Release;
    if first < n { SweptSnoc(Release(d, first, bs[first].txIds), bs, first + 1, n); }
  }

  lemma InterruptedHead(c: Chain, st: PruneState, n: nat, ids: seq<TxId>, stop: Stop)
    requires stop.Draining? ==> stop.done <= |CollectPtrs(c.ledger, n, ids)|
    ensures Interrupted(c, st, n, ids, stop).ledger.head == c.ledger.head
  {
  }

  lemma CutOnTheWay(x: Chain, retain: nat, at: Attempt, goal: Chain, all: map<nat, BlockData>)
    requires at.Cut? && Fits(x, retain, at) && 0 < retain < x.ledger.head
             && OnTheWay(x, x.ledger.head - retain, goal, all)
    ensures OnTheWay(Attempted(x, retain, at), x.ledger.head - retain, goal, all)
    ensures Attempted(x, retain, at).ledger.head == x.ledger.head
  {
    hide Settled, Recover, Goal, Intact, Arrived, Swept, Release, LoadBlock, CollectPtrs, CursorAfter, Interrupted,
         OpsForBlock,
         OldestOk, Chained, CursorOk;
    var bound := x.ledger.head - retain;
    var bs: map<nat, BlockData>, first :| LeadsTo(Recover(x).0, bs, first, bound, goal, all);
    var d := Recover(x).0;
    RecoverHead(x);
    SettledParts(d, bs, first);
    IntactParts(d, bs, first);
    ArrivedSpec(x, bs, first, at.n, at.maxOps);
    var s := Arrived(x, at.n, at.maxOps);
    IntactParts(s.chain, From(bs, at.n), at.n);
    SweptHead(d, bs, first, at.n);
    RecoverInterrupted(s.chain, From(bs, at.n), at.n, s.st, at.stop);
    CursorAfterOk(s.chain.ledger.prune, s.st, at.n, at.stop);
    var a := CursorAfter(s.chain.ledger.prune, s.st, at.n, at.stop);
    GoalAfterRelease(d, s.chain, bs, first, at.n, a, bound);
    var y := Attempted(x, retain, at);
    InterruptedHead(s.chain, s.st, at.n, From(bs, at.n)[at.n].txIds, at.stop);
    assert LeadsTo(Recover(y).0, From(bs, at.n) - {at.n}, at.n + 1, bound, goal, all);
  }

  ghost predicate AllFit(x: Chain, retain: nat, ats: seq<Attempt>)
    decreases |ats|
  {
    ats == [] || (Fits(x, retain, ats[0]) && AllFit(Attempted(x, retain, ats[0]), retain, ats[1..]))
  }

  ghost function AllAttempted(x: Chain, retain: nat, ats: seq<Attempt>): Chain
    requires AllFit(x, retain, ats)
    decreases |ats|
  {
    if ats == [] then x else AllAttempted(Attempted(x, retain, ats[0]), retain, ats[1..])
  }

  lemma {:induction false} AttemptsOnTheWay(x: Chain, retain: nat, ats: seq<Attempt>, goal: Chain,
                                            all: map<nat, BlockData>)
    requires AllFit(x, retain, ats) && 0 < retain < x.ledger.head && OnTheWay(x, x.ledger.head - retain, goal, all)
    ensures var y := AllAttempted(x, retain, ats);
            y.ledger.head == x.ledger.head && OnTheWay(y, x.ledger.head - retain, goal, all)
    decreases |ats|
  {
    hide Fits, Attempted, OnTheWay;
    if ats != [] {
      AttemptOnTheWay(x, retain, ats[0], goal, all);
      AttemptsOnTheWay(Attempted(x, retain, ats[0]), retain, ats[1..], goal, all);
    }
  }

  lemma AttemptOnTheWay(x: Chain, retain: nat, at: Attempt, goal: Chain, all: map<nat, BlockData>)
    requires Fits(x, retain, at) && 0 < retain < x.ledger.head && OnTheWay(x, x.ledger.head - retain, goal, all)
    ensures OnTheWay(Attempted(x, retain, at), x.ledger.head - retain, goal, all)
    ensures Attempted(x, retain, at).ledger.head == x.ledger.head
  {
    hide OnTheWay, Arrived, PruneBlocks, Interrupted, LoadBlock, CollectPtrs, OpsForBlock;
    match at
    case Whole(maxOps) => WholeOnTheWay(x, retain, maxOps, goal, all);
    case Cut(_, _, _) => CutOnTheWay(x, retain, at, goal, all);
  }

  /** `e` is the chain `c` with everything up to `bound` pruned. */
  ghost predicate AtGoal(c: Chain, bs: map<nat, BlockData>, first: nat, bound: nat, e: Chain) {
    Max(first, bound + 1) in bs && e == Goal(c, bs, first, bound)
  }

  /** However many calls were cut short before, wherever each was cut and whatever their budgets, the call that
      reports nothing remaining leaves the very chain an uninterrupted pruning leaves: the same maps, the same
      pool, the same boundary and the same arena. No call on the way reports an error. */
  lemma InterruptedRunsAgree(c: Chain, bs: map<nat, BlockData>, first: nat, retain: nat, ats: seq<Attempt>, maxOps: nat)
    requires Settled(c, bs, first) && 0 < retain < c.ledger.head < U64_MAX && maxOps > 0
    requires AllFit(c, retain, ats)
    ensures Mapped(AllAttempted(c, retain, ats)) && Max(first, c.ledger.head - retain + 1) in bs
    ensures AllAttempted(c, retain, ats).ledger.head == c.ledger.head
    ensures var (e, r) := PruneBlocks(AllAttempted(c, retain, ats), retain, maxOps);
            r.Ok? && (r.value.remaining == 0 ==> AtGoal(c, bs, first, c.ledger.head - retain, e))
  {
    hide AllFit, AllAttempted, PruneBlocks, Recover, Goal, Intact, OldestOk, Chained, LoadBlock;
    IntactParts(c, bs, first);
    assert first in bs by { SettledHasFirst(c, bs, first); }
    SettledOnTheWay(c, bs, first, c.ledger.head - retain, bs);
    AttemptsOnTheWay(c, retain, ats, Goal(c, bs, first, c.ledger.head - retain), bs);
    WholeOnTheWay(AllAttempted(c, retain, ats), retain, maxOps, Goal(c, bs, first, c.ledger.head - retain), bs);
  }

  lemma SettledHasFirst(c: Chain, bs: map<nat, BlockData>, first: nat)
    requires Settled(c, bs, first) && c.ledger.head > 0
    ensures first in bs
  {
    hide Intact;
  }
}
