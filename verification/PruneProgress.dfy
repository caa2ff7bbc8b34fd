/** What a prune costs, when it stalls, and that repeated calls reach the end. */
module PruneProgress {
  import opened Common
  import opened Types
  import opened Ledger
  import opened Mempool
  import opened Prune
  import opened PruneSpec
  import opened PruneRecovery
  import B = BlobStore

  // ---------------------------------------------------------------- the cost of a block

  /** The transaction has an entry left in one of the maps that pruning clears. */
  predicate HasEntry(p: Pool, m: map<Owner, B.BlobPtr>, id: TxId) {
    || id in p.fees.key || id in p.txs.store || id in p.txs.seen || TxLocsGet(p.txs, id).Some?
    || OReceipt(id) in m || OIndex(id) in m || OTraces(id) in m
  }

  /** A transaction costs at most nine operations, nothing exactly when it has no entry left, and nothing once its own
      deletes are done. */
  lemma TxCost(p: Pool, m: map<Owner, B.BlobPtr>, id: TxId)
    ensures OpsForTx(p, m, id) <= 9
    ensures OpsForTx(p, m, id) == 0 <==> !HasEntry(p, m, id)
    ensures OpsForTx(Forget(p, id), m - {OReceipt(id), OIndex(id), OTraces(id)}, id) == 0
  {
  }

  function Count(bs: seq<bool>): nat { if bs == [] then 0 else Flag(bs[0]) + Count(bs[1..]) }

  lemma CountThree(e: seq<bool>)
    requires |e| >= 3
    ensures Count(e) == Flag(e[0]) + Flag(e[1]) + Flag(e[2]) + Count(e[3..])
  {
    assert e[1..][1..][1..] == e[3..];
    assert Count(e) == Flag(e[0]) + Count(e[1..]) && Count(e[1..]) == Flag(e[1]) + Count(e[1..][1..]);
    assert Count(e[1..][1..]) == Flag(e[2]) + Count(e[1..][1..][1..]);
  }

  /** The entries that pruning a transaction removes: fee key, principal count, hash, payload, receipt, index entry,
      traces, location, and the mark that it was seen. */
  function Entries(p: Pool, m: map<Owner, B.BlobPtr>, id: TxId): seq<bool> {
    var stored := id in p.txs.store && p.txs.store[id].Good?;
    [id in p.fees.key, stored && p.txs.store[id].principal in p.principals,
     stored && p.txs.store[id].kind == EthSigned && id in p.txs.ethIndex, id in p.txs.store,
     OReceipt(id) in m, OIndex(id) in m, OTraces(id) in m, TxLocsGet(p.txs, id).Some?, id in p.txs.seen]
  }

  lemma CountNine(e: seq<bool>)
    requires |e| == 9
    ensures Count(e) == Flag(e[0]) + Flag(e[1]) + Flag(e[2]) + Flag(e[3]) + Flag(e[4]) + Flag(e[5]) + Flag(e[6])
                        + Flag(e[7]) + Flag(e[8])
  {
    var f, g := e[3..], e[6..];
    assert f[3..] == g && g[3..] == [] && Count([]) == 0;
    hide Count;
    CountThree(e);
    CountThree(f);
    CountThree(g);
  }

  /** A transaction costs one operation for each entry it has. */
  lemma TxCostIs(p: Pool, m: map<Owner, B.BlobPtr>, id: TxId)
    ensures OpsForTx(p, m, id) == Count(Entries(p, m, id))
  {
    CountNine(Entries(p, m, id));
    hide Count, TxLocsGet;
  }

  function TotalCost(c: Chain, ids: seq<TxId>): nat {
    if ids == [] then 0 else Count(Entries(c.pool, c.ledger.ptrs, ids[0])) + TotalCost(c, ids[1..])
  }

  lemma {:induction false} CostsAdd(c: Chain, ids: seq<TxId>, sum: nat)
    requires sum <= U64_MAX
    ensures OpsForTxs(c, ids, sum) == Min(sum + TotalCost(c, ids), U64_MAX)
    decreases |ids|
  {
    hide Count, Entries, OpsForTx;
    if ids != [] {
      TxCostIs(c.pool, c.ledger.ptrs, ids[0]);
      CostsAdd(c, ids[1..], SatAdd(sum, OpsForTx(c.pool, c.ledger.ptrs, ids[0]), U64_MAX));
    }
  }

  /** A block costs one operation for its own key and those of its transactions, within 64 bits. */
  lemma BlockCostIs(c: Chain, n: nat, ids: seq<TxId>)
    ensures OpsForBlock(c, n, ids)
         == Min((if OBlock(n) in c.ledger.ptrs then 1 else 0) + TotalCost(c, ids), 0xFFFF_FFFF_FFFF_FFFF)
  {
    hide TotalCost, OpsForTxs;
    CostsAdd(c, ids, Flag(OBlock(n) in c.ledger.ptrs));
  }

  lemma {:induction false} CostBound(c: Chain, ids: seq<TxId>, sum: nat)
    ensures OpsForTxs(c, ids, sum) <= sum + 9 * |ids|
    decreases |ids|
  {
    if ids != [] {
      TxCost(c.pool, c.ledger.ptrs, ids[0]);
      hide OpsForTx;
      CostBound(c, ids[1..], SatAdd(sum, OpsForTx(c.pool, c.ledger.ptrs, ids[0]), U64_MAX));
    }
  }

  /** A block costs at most one operation and nine for each of its transactions. */
  lemma BlockCost(c: Chain, n: nat, ids: seq<TxId>)
    ensures OpsForBlock(c, n, ids) <= 1 + 9 * |ids|
  {
    CostBound(c, ids, Flag(OBlock(n) in c.ledger.ptrs));
  }

  // ---------------------------------------------------------------- pruning makes nothing dearer

  /** Everything counted in `d` is there in `c`. */
  ghost predicate Fewer(d: Chain, c: Chain) {
    && d.pool.fees.key.Keys <= c.pool.fees.key.Keys && d.pool.principals.Keys <= c.pool.principals.Keys
    && d.pool.txs.ethIndex <= c.pool.txs.ethIndex && d.pool.txs.seen <= c.pool.txs.seen
    && (forall id :: id in d.pool.txs.store ==> id in c.pool.txs.store && d.pool.txs.store[id] == c.pool.txs.store[id])
    && (forall id :: id in d.pool.txs.locs ==> id in c.pool.txs.locs && d.pool.txs.locs[id] == c.pool.txs.locs[id])
    && d.ledger.ptrs.Keys <= c.ledger.ptrs.Keys
  }

  lemma ForgetFewer(p: Pool, l: Ledger, id: TxId)
    ensures Fewer(Chain(Forget(p, id), l), Chain(p, l))
  {
  }

  lemma FewerTrans(a: Chain, b: Chain, c: Chain)
    requires Fewer(a, b) && Fewer(b, c)
    ensures Fewer(a, c)
  {
  }

  lemma {:induction false} ForgetAllFewer(p: Pool, l: Ledger, ids: seq<TxId>)
    ensures Fewer(Chain(ForgetAll(p, ids), l), Chain(p, l))
    decreases |ids|
  {
    hide Forget, Fewer;
    if ids == [] {
      FewerRefl(Chain(p, l));
    } else {
      ForgetFewer(p, l, ids[0]);
      ForgetAllFewer(Forget(p, ids[0]), l, ids[1..]);
      FewerTrans(Chain(ForgetAll(p, ids), l), Chain(Forget(p, ids[0]), l), Chain(p, l));
    }
  }

  lemma FewerRefl(c: Chain)
    ensures Fewer(c, c)
  {
  }

  lemma ReleaseFewer(c: Chain, n: nat, ids: seq<TxId>)
    ensures Fewer(Release(c, n, ids), c)
  {
    hide Fewer, ForgetAll, Remove, BlockOwners, ReclaimAll;
    ForgetAllFewer(c.pool, c.ledger, ids);
    FewerPtrs(Chain(ForgetAll(c.pool, ids), c.ledger), Release(c, n, ids), BlockOwners(n, ids));
    FewerTrans(Release(c, n, ids), Chain(ForgetAll(c.pool, ids), c.ledger), c);
  }

  lemma FewerPtrs(c: Chain, d: Chain, os: seq<Owner>)
    requires d.pool == c.pool && d.ledger.ptrs == Remove(c.ledger.ptrs, os)
    ensures Fewer(d, c)
  {
    RemoveMeaning(c.ledger.ptrs, os);
    hide Remove;
  }

  lemma {:induction false} SweptFewer(c: Chain, bs: map<nat, BlockData>, first: nat, upto: nat)
    ensures Fewer(Swept(c, bs, first, upto), c)
    decreases upto - first
  {
    hide Fewer, Release;
    if first >= upto || first !in bs {
      FewerRefl(c);
    } else {
      var d := Release(c, first, bs[first].txIds);
      ReleaseFewer(c, first, bs[first].txIds);
      SweptFewer(d, bs, first + 1, upto);
      FewerTrans(Swept(d, bs, first + 1, upto), d, c);
    }
  }

  lemma {:induction false} FewerCosts(d: Chain, c: Chain, ids: seq<TxId>, less: nat, sum: nat)
    requires Fewer(d, c) && less <= sum
    ensures OpsForTxs(d, ids, less) <= OpsForTxs(c, ids, sum)
    decreases |ids|
  {
    if ids != [] {
      TxCostsLess(d, c, ids[0]);
      hide OpsForTx, Fewer;
      FewerCosts(d, c, ids[1..], SatAdd(less, OpsForTx(d.pool, d.ledger.ptrs, ids[0]), U64_MAX),
                 SatAdd(sum, OpsForTx(c.pool, c.ledger.ptrs, ids[0]), U64_MAX));
    }
  }

  lemma TxCostsLess(d: Chain, c: Chain, id: TxId)
    requires Fewer(d, c)
    ensures OpsForTx(d.pool, d.ledger.ptrs, id) <= OpsForTx(c.pool, c.ledger.ptrs, id)
  {
  }

  /** Releasing blocks makes no other block dearer. */
  lemma PrunedCostsLess(c: Chain, bs: map<nat, BlockData>, first: nat, bound: nat, e: Chain, res: PruneResult, f: nat,
                        n: nat, ids: seq<TxId>)
    requires Max(first, bound + 1) in bs && Pruned(c, bs, first, bound, e, res, f)
    ensures OpsForBlock(e, n, ids) <= OpsForBlock(c, n, ids)
  {
    hide Fewer, OpsForTxs, Settled, Goal, Swept;
    SweptFewer(c, bs, first, f);
    FewerSame(Swept(c, bs, first, f), e, c);
    BlockFlag(e, c, n);
    FewerCosts(e, c, ids, Flag(OBlock(n) in e.ledger.ptrs), Flag(OBlock(n) in c.ledger.ptrs));
  }

  lemma FewerSame(d: Chain, e: Chain, c: Chain)
    requires Fewer(d, c) && e.pool == d.pool && e.ledger.ptrs == d.ledger.ptrs
    ensures Fewer(e, c)
  {
  }

  lemma BlockFlag(d: Chain, c: Chain, n: nat)
    requires Fewer(d, c)
    ensures Flag(OBlock(n) in d.ledger.ptrs) <= Flag(OBlock(n) in c.ledger.ptrs)
  {
  }

  // ---------------------------------------------------------------- stalling and reaching the end

  /** A call with blocks left to prune releases nothing exactly when the oldest block alone costs more than the whole
      budget; and then it reports what remains. */
  lemma StallsIff(c: Chain, bs: map<nat, BlockData>, first: nat, retain: nat, maxOps: nat)
    requires Settled(c, bs, first) && 0 < retain && first + retain <= c.ledger.head < U64_MAX && maxOps > 0
    ensures Mapped(c) && first in bs && PruneBlocks(c, retain, maxOps).1.Ok?
    ensures var (e, r) := PruneBlocks(c, retain, maxOps);
            (OBlock(first) in e.ledger.ptrs <==> OpsForBlock(c, first, bs[first].txIds) > maxOps)
            && (OBlock(first) in e.ledger.ptrs ==> r.value.remaining > 0)
  {
    hide OpsForBlock, PruneBlocks, Pruned, Settled, Chained, OldestOk, Goal;
    SettledStart(c, bs, first);
    var f := PruneBlocksSpec(c, bs, first, retain, maxOps);
    PrunedStores(c, bs, first, c.ledger.head - retain, PruneBlocks(c, retain, maxOps).0,
                 PruneBlocks(c, retain, maxOps).1.value, f);
  }

  lemma SettledStart(c: Chain, bs: map<nat, BlockData>, first: nat)
    requires Settled(c, bs, first)
    ensures 1 <= first && forall n :: n in bs <==> first <= n <= c.ledger.head
  {
    hide Intact, Chained, OldestOk, LoadBlock;
    IntactParts(c, bs, first);
  }

  lemma PrunedStores(c: Chain, bs: map<nat, BlockData>, first: nat, bound: nat, e: Chain, res: PruneResult, f: nat)
    requires Max(first, bound + 1) in bs && Pruned(c, bs, first, bound, e, res, f) && first in bs && first <= bound
    ensures first <= f && (OBlock(first) in e.ledger.ptrs <==> f == first)
    ensures f == first ==> res.remaining > 0
  {
    hide Intact, Goal, Swept, OldestOk;
    SettledKeys(e, From(bs, f), f);
  }

  lemma SettledKeys(c: Chain, bs: map<nat, BlockData>, first: nat)
    requires Settled(c, bs, first)
    ensures forall n :: OBlock(n) in c.ledger.ptrs <==> n in bs
  {
    hide B.Inv, Owned, Loads, Chained, RoundTrips, OldestOk, Linked;
  }

  ghost function Repeated(c: Chain, retain: nat, budgets: seq<nat>): Chain
    decreases |budgets|
  {
    if budgets == [] || !Mapped(c) || c.ledger.head > U64_MAX then c
    else Repeated(PruneBlocks(c, retain, budgets[0]).0, retain, budgets[1..])
  }

  /** Each budget covers every block up to the bound, one at a time. */
  ghost predicate Covering(c: Chain, bs: map<nat, BlockData>, bound: nat, budgets: seq<nat>) {
    forall i :: 0 <= i < |budgets| ==>
      budgets[i] > 0 && forall n :: n in bs && n <= bound ==> OpsForBlock(c, n, bs[n].txIds) <= budgets[i]
  }

  lemma CoveringRest(c: Chain, bs: map<nat, BlockData>, first: nat, bound: nat, e: Chain, res: PruneResult, f: nat,
                     budgets: seq<nat>)
    requires Max(first, bound + 1) in bs && Pruned(c, bs, first, bound, e, res, f)
    requires Covering(c, bs, bound, budgets) && budgets != []
    ensures Covering(e, From(bs, f), bound, budgets[1..])
  {
    hide OpsForBlock, Pruned;
    forall n | n in From(bs, f) ensures OpsForBlock(e, n, bs[n].txIds) <= OpsForBlock(c, n, bs[n].txIds) {
      PrunedCostsLess(c, bs, first, bound, e, res, f, n, bs[n].txIds);
    }
  }

  /** Calls whose budgets cover each old block reach the end: as many calls as there are blocks to prune are enough,
      and every further one leaves it as it is. */
  lemma {:induction false} RepeatedReaches(c: Chain, bs: map<nat, BlockData>, first: nat, retain: nat,
                                           budgets: seq<nat>)
    requires Settled(c, bs, first) && 0 < retain < c.ledger.head < U64_MAX
    requires Covering(c, bs, c.ledger.head - retain, budgets)
    requires budgets != [] && |budgets| + first >= c.ledger.head - retain + 1
    ensures AtGoal(c, bs, first, c.ledger.head - retain, Repeated(c, retain, budgets))
    ensures var end := Max(first, c.ledger.head - retain + 1);
            Settled(Repeated(c, retain, budgets), From(bs, end), end)
    decreases |budgets|
  {
    hide PruneBlocks, Pruned, Settled, Goal, Covering, OldestOk;
    var bound := c.ledger.head - retain;
    SettledStart(c, bs, first);
    CoversFirst(c, bs, bound, first, budgets);
    var f := PruneBlocksSpec(c, bs, first, retain, budgets[0]);
    var e, res := PruneBlocks(c, retain, budgets[0]).0, PruneBlocks(c, retain, budgets[0]).1.value;
    PrunedParts(c, bs, first, bound, e, res, f);
    CoveringRest(c, bs, first, bound, e, res, f, budgets);
    if |budgets| == 1 {
      assert budgets[1..] == [];
    } else {
      RepeatedReaches(e, From(bs, f), f, retain, budgets[1..]);
      assert From(From(bs, f), Max(f, bound + 1)) == From(bs, Max(first, bound + 1));
    }
  }

  lemma CoversFirst(c: Chain, bs: map<nat, BlockData>, bound: nat, first: nat, budgets: seq<nat>)
    requires Covering(c, bs, bound, budgets) && budgets != []
    ensures budgets[0] > 0
    ensures first in bs && first <= bound ==> OpsForBlock(c, first, bs[first].txIds) <= budgets[0]
  {
  }

  lemma PrunedParts(c: Chain, bs: map<nat, BlockData>, first: nat, bound: nat, e: Chain, res: PruneResult, f: nat)
    requires Max(first, bound + 1) in bs && Pruned(c, bs, first, bound, e, res, f)
    ensures first <= f <= Max(first, bound + 1) && Settled(e, From(bs, f), f) && e.ledger.head == c.ledger.head
    ensures Max(f, bound + 1) in From(bs, f)
    ensures Goal(e, From(bs, f), f, bound) == Goal(c, bs, first, bound)
    ensures f == Max(first, bound + 1) ==> e == Goal(c, bs, first, bound) && res.remaining == 0
  {
    hide Settled, Goal, Swept;
  }

  lemma RepeatedIsRecoveredFirst(x: Chain, d: Chain, retain: nat, budgets: seq<nat>)
    requires Mapped(x) && Mapped(d) && x.ledger.head == d.ledger.head < U64_MAX && budgets != []
    requires PruneBlocks(x, retain, budgets[0]) == PruneBlocks(d, retain, budgets[0])
    ensures Repeated(x, retain, budgets) == Repeated(d, retain, budgets)
  {
    hide PruneBlocks;
  }

  /** Each budget is one operation and nine per transaction of any block. */
  ghost predicate Ample(bs: map<nat, BlockData>, budgets: seq<nat>) {
    forall i, n :: 0 <= i < |budgets| && n in bs ==> 1 + 9 * |bs[n].txIds| <= budgets[i]
  }

  /** Interrupted pruning ends: after any number of cut and whole calls, as many more whole calls as the bound is high,
      each with a budget of one operation and nine per transaction of any stored block, leave exactly what an
      uninterrupted prune leaves. */
  lemma InterruptedRunsEnd(c: Chain, bs: map<nat, BlockData>, first: nat, retain: nat, ats: seq<Attempt>,
                           budgets: seq<nat>)
    requires Settled(c, bs, first) && 0 < retain < c.ledger.head < U64_MAX && AllFit(c, retain, ats)
    requires |budgets| >= c.ledger.head - retain
    requires Ample(bs, budgets)
    ensures AtGoal(c, bs, first, c.ledger.head - retain, Repeated(AllAttempted(c, retain, ats), retain, budgets))
  {
    hide AllFit, AllAttempted, PruneBlocks, Recover, Goal, Settled, OldestOk, OpsForBlock, Repeated, OnTheWay, Covering;
    var bound := c.ledger.head - retain;
    var goal := EndOf(c, bs, first, retain, ats);
    var x := AllAttempted(c, retain, ats);
    var d, ds, from := WayOn(x, bound, goal, bs);
    SettledStart(c, bs, first);
    assert forall i :: 0 <= i < |budgets| ==> budgets[i] > 0 by { assert c.ledger.head in bs; }
    StaticCovers(d, ds, bs, bound, budgets);
    SettledStart(d, ds, from);
    RecoveredFirst(x, d, ds, from, retain, budgets[0]);
    RepeatedIsRecoveredFirst(x, d, retain, budgets);
    RepeatedReaches(d, ds, from, retain, budgets);
  }

  lemma EndOf(c: Chain, bs: map<nat, BlockData>, first: nat, retain: nat, ats: seq<Attempt>) returns (goal: Chain)
    requires Settled(c, bs, first) && 0 < retain < c.ledger.head < U64_MAX && AllFit(c, retain, ats)
    ensures AtGoal(c, bs, first, c.ledger.head - retain, goal)
    ensures var x := AllAttempted(c, retain, ats);
            x.ledger.head == c.ledger.head && OnTheWay(x, c.ledger.head - retain, goal, bs)
  {
    hide AllFit, AllAttempted, Goal, Settled, OldestOk, OnTheWay;
    SettledStart(c, bs, first);
    SettledHasFirst(c, bs, first);
    goal := Goal(c, bs, first, c.ledger.head - retain);
    SettledOnTheWay(c, bs, first, c.ledger.head - retain, bs);
    AttemptsOnTheWay(c, retain, ats, goal, bs);
  }

  lemma WayOn(x: Chain, bound: nat, goal: Chain, all: map<nat, BlockData>)
    returns (d: Chain, ds: map<nat, BlockData>, from: nat)
    requires OnTheWay(x, bound, goal, all)
    ensures Mapped(x) && Recover(x).0 == d && Recover(x).1.Ok? && Mapped(d) && d.ledger.head == x.ledger.head
    ensures LeadsTo(d, ds, from, bound, goal, all)
  {
    hide Recover, LeadsTo;
    d := Recover(x).0;
    ds, from :| LeadsTo(d, ds, from, bound, goal, all);
    RecoverMapped(x);
    RecoverHead(x);
  }

  lemma StaticCovers(d: Chain, ds: map<nat, BlockData>, all: map<nat, BlockData>, bound: nat, budgets: seq<nat>)
    requires Within(ds, all)
    requires Ample(all, budgets)
    requires forall i :: 0 <= i < |budgets| ==> budgets[i] > 0
    ensures Covering(d, ds, bound, budgets)
  {
    hide OpsForBlock;
    forall n | n in ds ensures OpsForBlock(d, n, ds[n].txIds) <= 1 + 9 * |ds[n].txIds| { BlockCost(d, n, ds[n].txIds); }
  }

  // ---------------------------------------------------------------- what a call reports

  lemma {:induction false} LoopWorked(s: Sweep, bound: nat, maxOps: nat)
    requires Mapped(s.chain) && bound < U64_MAX
    ensures var (e, r) := PruneLoop(s, bound, maxOps);
            r.Ok? ==> s.next <= e.next && (e.worked <==> s.worked || s.next < e.next)
    decreases bound + 1 - s.next
  {
    hide OpsForBlock, LoadBlock, PruneOne;
    LoopMapped(s, bound, maxOps);
    if s.next <= bound {
      var on := SatAdd(s.next, 1, U64_MAX);
      match LoadBlock(s.chain.ledger, s.next)
      case None => LoopWorked(s.(st := s.st.(prunedBefore := Some(s.next)), next := on, worked := true), bound, maxOps);
      case Some(block) =>
        var used := SatAdd(s.used, OpsForBlock(s.chain, s.next, block.txIds), U64_MAX);
        var (c, r) := PruneOne(s.chain, s.st, s.next, block.txIds);
        if used <= maxOps && r.Ok? {
          assert Mapped(c) by { OneMapped(s, block.txIds); }
          LoopWorked(Sweep(c, s.st.(prunedBefore := Some(s.next), journalBlock := None), on, used, true), bound,
              maxOps);
        }
    }
  }

  lemma OneMapped(s: Sweep, ids: seq<TxId>)
    requires Mapped(s.chain)
    ensures Mapped(PruneOne(s.chain, s.st, s.next, ids).0)
  {
  }

  /** What a call with something to prune reports: whether the boundary moved, how many numbers up to the bound are
      left, and the boundary, which is what it stored. */
  lemma ReportMeans(c: Chain, bs: map<nat, BlockData>, first: nat, retain: nat, maxOps: nat)
    requires Settled(c, bs, first) && 0 < retain < c.ledger.head < U64_MAX && maxOps > 0
    ensures Mapped(c) && PruneBlocks(c, retain, maxOps).1.Ok?
    ensures var (e, r) := PruneBlocks(c, retain, maxOps);
            var bound := c.ledger.head - retain;
            var left := Place(e.ledger.prune);
            r.value == PruneResult(Place(c.ledger.prune) < left, if left <= bound then bound + 1 - left else 0,
                                   e.ledger.prune.prunedBefore)
  {
    hide Intact, OldestOk, LoadBlock, Chained, Recover, PruneLoop, OpsForBlock, Swept, CursorOk;
    SettledParts(c, bs, first);
    IntactParts(c, bs, first);
    RecoverIdle(c, bs, first);
    var d := Recover(c).0;
    var bound := c.ledger.head - retain;
    SettledParts(d, bs, first);
    StartPlace(c.ledger.prune, first);
    var f := LoopSpec(Start(d), bs, first, bound, maxOps);
    LoopWorked(Start(d), bound, maxOps);
    LoopMapped(Start(d), bound, maxOps);
    var e := PruneLoop(Start(d), bound, maxOps).0;
    RefreshKeepsCursor(WithPrune(e.chain, e.st.(next := e.next)).ledger);
  }

  lemma StartPlace(st: PruneState, first: nat)
    requires CursorOk(st, first) && first <= U64_MAX
    ensures Normalize(Normalized(st)) == Place(st) == Place(Normalized(st)) && Normalize(st) == Place(st)
  {
  }

  lemma RefreshKeepsCursor(l: Ledger)
    requires l.arena.end <= |l.arena.bytes|
    ensures RefreshOldest(l).prune == l.prune
  {
  }
}
