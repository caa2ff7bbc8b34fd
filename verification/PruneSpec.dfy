/** What pruning and its recovery do to a sound chain: no reclaim error, exactly the old blocks released, and the
    same end whether or not it was interrupted. */
module PruneSpec {
  import opened Common
  import opened Types
  import opened Ledger
  import opened Mempool
  import opened Prune
  import B = BlobStore
  import S = MempoolSafe
  import R = MempoolRun

  /** The location of an included transaction names its block and its place in it, and nothing outside the stored
      blocks counts as included. */
  ghost predicate Linked(t: Records, bs: map<nat, BlockData>) {
    && (forall n, i :: n in bs && 0 <= i < |bs[n].txIds| ==> Get(t.locs, bs[n].txIds[i]) == Some(Included(n, i)))
    && (forall id :: id in t.locs && t.locs[id].Included? ==> InSomeBlock(bs, id))
  }

  /** A chain between calls that stores the blocks `bs`, from `first` on. */
  ghost predicate Intact(c: Chain, bs: map<nat, BlockData>, first: nat) {
    S.Inv(c.pool) && Sound(c.ledger, bs, first) && Linked(c.pool.txs, bs)
  }

  function Release(c: Chain, n: nat, ids: seq<TxId>): Chain {
    Chain(ForgetAll(c.pool, ids), Released(c.ledger, n, ids))
  }

  // ---------------------------------------------------------------- releasing one block

  lemma {:induction false} ForgetAllLocs(p: Pool, ids: seq<TxId>)
    ensures var u := ForgetAll(p, ids).txs;
            && (forall x :: x in u.locs <==> x in p.txs.locs && x !in ids)
            && (forall x :: x in u.locs ==> u.locs[x] == p.txs.locs[x])
    decreases |ids|
  {
    if ids != [] {
      ForgetAllLocs(Forget(p, ids[0]), ids[1..]);
      assert forall x :: x in ids <==> x == ids[0] || x in ids[1..];
    }
  }

  lemma LinkedLess(t: Records, u: Records, bs: map<nat, BlockData>, head: nat, headTime: nat, n: nat)
    requires Linked(t, bs) && Chained(bs, n, head, headTime) && n in bs
    requires forall x :: x in u.locs <==> x in t.locs && x !in bs[n].txIds
    requires forall x :: x in u.locs ==> u.locs[x] == t.locs[x]
    ensures Linked(u, bs - {n})
  {
  }

  lemma BlockIncluded(t: Records, bs: map<nat, BlockData>, n: nat)
    requires Linked(t, bs) && n in bs
    ensures forall id :: id in bs[n].txIds ==> id in t.locs && t.locs[id].Included?
  {
  }

  lemma ReleaseIntact(c: Chain, bs: map<nat, BlockData>, n: nat, st: PruneState)
    requires Intact(c, bs, n) && n in bs && CursorOk(st, n + 1)
    ensures Intact(WithPrune(Release(c, n, bs[n].txIds), st), bs - {n}, n + 1)
    ensures ReclaimAll(c.ledger.arena, CollectPtrs(c.ledger, n, bs[n].txIds)).1.Ok?
  {
    hide S.Inv, Released, Chained, Linked, ReclaimAll, CollectPtrs, CursorOk, B.Inv, Owned, Indexed, Loads, RoundTrips;
    var ids := bs[n].txIds;
    ReleaseSound(c.ledger, bs, n, st);
    BlockIncluded(c.pool.txs, bs, n);
    R.IncludedNotPending(c.pool, ids);
    R.ForgetAllInv(c.pool, ids);
    ForgetAllLocs(c.pool, ids);
    LinkedLess(c.pool.txs, ForgetAll(c.pool, ids).txs, bs, c.ledger.head, c.ledger.headTime, n);
  }

  lemma LoadsIt(l: Ledger, bs: map<nat, BlockData>, first: nat, n: nat)
    requires Sound(l, bs, first)
    ensures l.arena.end <= |l.arena.bytes|
    ensures LoadBlock(l, n) == (if n in bs then Some(bs[n]) else None)
    ensures n in bs <==> first <= n <= l.head
  {
  }

  lemma PruneOneIsRelease(c: Chain, st: PruneState, n: nat, ids: seq<TxId>)
    requires c.ledger.journal == map[] && ReclaimAll(c.ledger.arena, CollectPtrs(c.ledger, n, ids)).1.Ok?
    requires st.journalBlock == None
    ensures PruneOne(c, st, n, ids) == (WithPrune(Release(c, n, ids), st.(prunedBefore := Some(n))), Ok(()))
  {
  }

  /** One turn of the loop on the first stored block succeeds and releases exactly that block. */
  lemma PruneOneSpec(c: Chain, bs: map<nat, BlockData>, n: nat, st: PruneState)
    requires Intact(c, bs, n) && n in bs && CursorOk(st, n)
    ensures var st1 := st.(prunedBefore := Some(n));
            var d := WithPrune(Release(c, n, bs[n].txIds), st1);
            PruneOne(c, st, n, bs[n].txIds) == (d, Ok(())) && Intact(d, bs - {n}, n + 1) && CursorOk(st1, n + 1)
  {
    hide Intact, Release, PruneOne, ReclaimAll, CollectPtrs;
    ReleaseIntact(c, bs, n, st.(prunedBefore := Some(n)));
    assert c.ledger.journal == map[] by { IntactParts(c, bs, n); }
    PruneOneIsRelease(c, st, n, bs[n].txIds);
  }

  lemma IntactParts(c: Chain, bs: map<nat, BlockData>, first: nat)
    requires Intact(c, bs, first)
    ensures c.ledger.journal == map[] && CursorOk(c.ledger.prune, first) && Mapped(c)
    ensures Chained(bs, first, c.ledger.head, c.ledger.headTime)
    ensures forall n :: LoadBlock(c.ledger, n) == (if n in bs then Some(bs[n]) else None)
    ensures forall n :: n in bs <==> first <= n <= c.ledger.head
    ensures 1 <= first <= c.ledger.head + 1
  {
    hide S.Inv, Linked, B.Inv, Owned, Indexed, Loads, RoundTrips;
    Roomy(c.ledger.arena);
    forall n ensures c.ledger.arena.end <= |c.ledger.arena.bytes|
                     && LoadBlock(c.ledger, n) == (if n in bs then Some(bs[n]) else None)
    {
      LoadsIt(c.ledger, bs, first, n);
    }
  }

  // ---------------------------------------------------------------- the loop

  /** The blocks from `first` up to, not including, `upto` released one after the other. */
  ghost function Swept(c: Chain, bs: map<nat, BlockData>, first: nat, upto: nat): Chain
    decreases upto - first
  {
    if first >= upto || first !in bs then c else Swept(Release(c, first, bs[first].txIds), bs, first + 1, upto)
  }

  ghost function From(bs: map<nat, BlockData>, first: nat): map<nat, BlockData> {
    map n | n in bs && first <= n :: bs[n]
  }

  lemma {:induction false} SweptFrame(c: Chain, st: PruneState, bs: map<nat, BlockData>, cs: map<nat, BlockData>,
                                      first: nat, upto: nat)
    requires forall n :: first <= n ==> (n in bs <==> n in cs) && (n in bs ==> bs[n] == cs[n])
    ensures Swept(WithPrune(c, st), cs, first, upto) == WithPrune(Swept(c, bs, first, upto), st)
    decreases upto - first
  {
    if first < upto && first in bs {
      assert Release(WithPrune(c, st), first, bs[first].txIds) == WithPrune(Release(c, first, bs[first].txIds), st);
      SweptFrame(Release(c, first, bs[first].txIds), st, bs, cs, first + 1, upto);
    }
  }

  /** Where the loop's cursor stands. */
  function Place(st: PruneState): nat { match st.prunedBefore case None => 0 case Some(p) => p + 1 }

  lemma PlaceIsNormalize(st: PruneState, first: nat)
    requires CursorOk(st, first) && first <= U64_MAX
    ensures Normalize(st) == Place(st) <= Max(first, 0) && CursorOk(Normalized(st), first)
  {
  }

  /** What the loop left behind: released up to `f`, nothing else touched. */
  ghost predicate SweptTo(s: Sweep, e: Sweep, bs: map<nat, BlockData>, first: nat, f: nat, bound: nat) {
    && first <= f <= Max(first, bound + 1)
    && Intact(e.chain, From(bs, f), f) && CursorOk(e.st, f) && e.next == Place(e.st)
    && e.chain == WithPrune(Swept(s.chain, bs, first, f), e.chain.ledger.prune)
    && e.st.next == s.st.next
    && (e.next > bound <==> f == Max(first, bound + 1))
    && (s.next > bound ==> e == s)
    && (s.next <= bound && e.next > bound ==> e.next == bound + 1)
  }

  lemma SweepStays(s: Sweep, bs: map<nat, BlockData>, first: nat, bound: nat)
    requires Intact(s.chain, bs, first) && CursorOk(s.st, first) && s.next == Place(s.st)
    requires s.next > bound <==> first >= bound + 1
    ensures SweptTo(s, s, bs, first, first, bound)
  {
    hide S.Inv, Linked, Sound, Release, CursorOk;
    IntactParts(s.chain, bs, first);
    assert From(bs, first) == bs;
  }

  /** The loop meets no error and releases the oldest blocks in order, none above the bound, all of them when it
      runs to the end. */
  lemma {:induction false} LoopSpec(s: Sweep, bs: map<nat, BlockData>, first: nat, bound: nat,
                                    maxOps: nat) returns (f: nat)
    requires Intact(s.chain, bs, first) && CursorOk(s.st, first) && s.next == Place(s.st)
    requires bound < s.chain.ledger.head <= U64_MAX
    ensures Mapped(s.chain)
    ensures PruneLoop(s, bound, maxOps).1.Ok? && SweptTo(s, PruneLoop(s, bound, maxOps).0, bs, first, f, bound)
    ensures first <= bound && first in bs ==>
              (f > first <==> SatAdd(s.used, OpsForBlock(s.chain, first, bs[first].txIds), U64_MAX) <= maxOps)
    decreases bound + 1 - s.next
  {
    hide Intact, PruneOne, Release, SweptTo, OpsForBlock, LoadBlock, Chained;
    IntactParts(s.chain, bs, first);
    f := first;
    if s.next > bound {
      SweepStays(s, bs, first, bound);
    } else if s.next !in bs {
      var s1 := s.(st := s.st.(prunedBefore := Some(s.next)), next := s.next + 1, worked := true);
      f := LoopSpec(s1, bs, first, bound, maxOps);
      SweptSkip(s, s1, PruneLoop(s1, bound, maxOps).0, bs, first, f, bound);
    } else {
      var used := SatAdd(s.used, OpsForBlock(s.chain, first, bs[first].txIds), U64_MAX);
      if used > maxOps {
        SweepStays(s, bs, first, bound);
      } else {
        PruneOneSpec(s.chain, bs, first, s.st);
        var st1 := s.st.(prunedBefore := Some(first));
        var s1 := Sweep(WithPrune(Release(s.chain, first, bs[first].txIds), st1), st1, first + 1, used, true);
        assert s1.chain.ledger.head == s.chain.ledger.head by { ReleaseHead(s.chain, first, bs[first].txIds); }
        f := LoopSpec(s1, bs - {first}, first + 1, bound, maxOps);
        SweptMore(s, s1, PruneLoop(s1, bound, maxOps).0, bs, first, f, bound);
      }
    }
  }

  lemma ReleaseHead(c: Chain, n: nat, ids: seq<TxId>)
    ensures Release(c, n, ids).ledger.head == c.ledger.head && Release(c, n, ids).ledger.headTime == c.ledger.headTime
  {
  }

  lemma SweptSkip(s: Sweep, s1: Sweep, e: Sweep, bs: map<nat, BlockData>, first: nat, f: nat, bound: nat)
    requires SweptTo(s1, e, bs, first, f, bound)
    requires s1.chain == s.chain && s.next <= bound && s1.next == s.next + 1 && s1.st.next == s.st.next
    ensures SweptTo(s, e, bs, first, f, bound)
  {
    hide Intact, CursorOk, Swept, From;
  }

  lemma SweptMore(s: Sweep, s1: Sweep, e: Sweep, bs: map<nat, BlockData>, first: nat, f: nat, bound: nat)
    requires first in bs && first <= bound && SweptTo(s1, e, bs - {first}, first + 1, f, bound)
    requires s1.chain == WithPrune(Release(s.chain, first, bs[first].txIds), s1.st)
    requires s.next == first && s1.next == s.next + 1 && s1.st.next == s.st.next
    ensures SweptTo(s, e, bs, first, f, bound) && f > first
  {
    hide Intact, CursorOk, Release;
    SweptFrame(Release(s.chain, first, bs[first].txIds), s1.st, bs, bs - {first}, first + 1, f);
    assert From(bs - {first}, f) == From(bs, f);
  }

  // ---------------------------------------------------------------- a whole call

  /** A chain between calls, with its oldest block recorded. */
  ghost predicate Settled(c: Chain, bs: map<nat, BlockData>, first: nat) {
    Intact(c, bs, first) && OldestOk(c.ledger, bs, first)
  }

  function WithOldest(c: Chain, n: nat, time: nat): Chain { c.(ledger := c.ledger.(oldest := Some((n, time)))) }

  function GoalState(st: PruneState, bound: nat): PruneState {
    if Place(st) <= bound then PruneState(Some(bound), bound + 1, None)
        else PruneState(st.prunedBefore, Place(st), None)
  }

  /** The chain with everything up to `bound` pruned. */
  ghost function Goal(c: Chain, bs: map<nat, BlockData>, first: nat, bound: nat): Chain
    requires Max(first, bound + 1) in bs
  {
    var f := Max(first, bound + 1);
    WithOldest(WithPrune(Swept(c, bs, first, f), GoalState(c.ledger.prune, bound)), f, bs[f].timestamp)
  }

  lemma RefreshSpec(c: Chain, bs: map<nat, BlockData>, first: nat)
    requires Intact(c, bs, first) && first in bs && c.ledger.head <= U64_MAX
    ensures Mapped(c) && c.(ledger := RefreshOldest(c.ledger)) == WithOldest(c, first, bs[first].timestamp)
  {
    hide Intact, LoadBlock, Chained;
    IntactParts(c, bs, first);
    assert IsNextExisting(c.ledger, Place(c.ledger.prune), first);
    RefreshFinds(c.ledger, first);
  }

  lemma RefreshFinds(l: Ledger, n: nat)
    requires l.arena.end <= |l.arena.bytes| && Place(l.prune) <= U64_MAX && IsNextExisting(l, Place(l.prune), n)
    ensures RefreshOldest(l) == l.(oldest := Some((n, LoadBlock(l, n).value.timestamp)))
  {
  }

  lemma IntactCursor(c: Chain, bs: map<nat, BlockData>, first: nat, st: PruneState)
    requires Intact(c, bs, first) && CursorOk(st, first)
    ensures Intact(WithPrune(c, st), bs, first)
  {
    hide S.Inv, Linked, B.Inv, Owned, Indexed, Chained, RoundTrips, CursorOk, Loads;
    Roomy(c.ledger.arena);
    LoadsSame(c.ledger, c.ledger.(prune := st), bs);
  }

  lemma IntactOldest(c: Chain, bs: map<nat, BlockData>, first: nat, time: nat)
    requires Intact(c, bs, first) && first in bs && time == bs[first].timestamp
    ensures Settled(WithOldest(c, first, time), bs, first)
  {
    hide S.Inv, Linked, B.Inv, Owned, Indexed, Chained, RoundTrips, CursorOk, Loads;
    Roomy(c.ledger.arena);
    LoadsSame(c.ledger, WithOldest(c, first, time).ledger, bs);
  }

  /** Recovery has nothing to do between calls; it only normalises the cursor. */
  lemma RecoverIdle(c: Chain, bs: map<nat, BlockData>, first: nat)
    requires Settled(c, bs, first) && c.ledger.head < U64_MAX
    ensures Mapped(c) && Recover(c) == (WithPrune(c, Normalized(c.ledger.prune)), Ok(()))
    ensures Settled(Recover(c).0, bs, first) && Normalize(c.ledger.prune) == Place(c.ledger.prune)
    ensures CursorOk(Normalized(c.ledger.prune), first)
  {
    hide Intact, LoadBlock, Chained;
    IntactParts(c, bs, first);
    PlaceIsNormalize(c.ledger.prune, first);
    IntactCursor(c, bs, first, Normalized(c.ledger.prune));
  }

  lemma FinishSpec(s: Sweep, bs: map<nat, BlockData>, first: nat, bound: nat)
    requires Intact(s.chain, bs, first) && CursorOk(s.st, first) && s.next == Place(s.st) && s.st.next <= s.next
    requires first in bs && s.chain.ledger.head <= U64_MAX
    ensures Mapped(s.chain) && Settled(Finish(s, bound).0, bs, first)
    ensures Finish(s, bound).0 == WithOldest(WithPrune(s.chain, s.st.(next := s.next)), first, bs[first].timestamp)
  {
    hide Intact, Settled, Chained, LoadBlock;
    IntactParts(s.chain, bs, first);
    IntactCursor(s.chain, bs, first, s.st.(next := s.next));
    RefreshSpec(WithPrune(s.chain, s.st.(next := s.next)), bs, first);
    IntactOldest(WithPrune(s.chain, s.st.(next := s.next)), bs, first, bs[first].timestamp);
  }

  /** What a call did: it released the blocks from `first` up to `f`, none of the last `retain`, and whatever is
      left for later calls leads to the same end. */
  ghost predicate Pruned(c: Chain, bs: map<nat, BlockData>, first: nat, bound: nat, e: Chain, res: PruneResult, f: nat)
    requires Max(first, bound + 1) in bs
  {
    && first <= f <= Max(first, bound + 1) && f in bs
    && Settled(e, From(bs, f), f)
    && e == WithOldest(WithPrune(Swept(c, bs, first, f), e.ledger.prune), f, bs[f].timestamp)
    && Goal(e, From(bs, f), f, bound) == Goal(c, bs, first, bound)
    && (res.remaining == 0 <==> f == Max(first, bound + 1))
    && (res.remaining == 0 ==> e == Goal(c, bs, first, bound))
    && e.ledger.head == c.ledger.head
  }

  lemma {:induction false} SweptTwice(c: Chain, st: PruneState, o: (nat, nat), bs: map<nat, BlockData>, first: nat,
                                      f: nat, upto: nat)
    requires first <= f <= upto && forall n :: first <= n < f ==> n in bs
    ensures var d := WithOldest(WithPrune(Swept(c, bs, first, f), st), o.0, o.1);
            Swept(d, From(bs, f), f, upto) == WithOldest(WithPrune(Swept(c, bs, first, upto), st), o.0, o.1)
    decreases f - first
  {
    hide Release;
    if first < f {
      SweptTwice(Release(c, first, bs[first].txIds), st, o, bs, first + 1, f, upto);
    } else {
      SweptFrame(c, st, bs, From(bs, f), f, upto);
      SweptOldest(WithPrune(c, st), o, From(bs, f), f, upto);
    }
  }

  lemma {:induction false} SweptOldest(c: Chain, o: (nat, nat), bs: map<nat, BlockData>, first: nat, upto: nat)
    ensures Swept(WithOldest(c, o.0, o.1), bs, first, upto) == WithOldest(Swept(c, bs, first, upto), o.0, o.1)
    decreases upto - first
  {
    if first < upto && first in bs {
      var ids := bs[first].txIds;
      assert Release(WithOldest(c, o.0, o.1), first, ids) == WithOldest(Release(c, first, ids), o.0, o.1);
      SweptOldest(Release(c, first, ids), o, bs, first + 1, upto);
    }
  }

  lemma {:induction false} SweptHead(c: Chain, bs: map<nat, BlockData>, first: nat, upto: nat)
    ensures Swept(c, bs, first, upto).ledger.head == c.ledger.head
    decreases upto - first
  {
    if first < upto && first in bs {
      ReleaseHead(c, first, bs[first].txIds);
      hide Release;
      SweptHead(Release(c, first, bs[first].txIds), bs, first + 1, upto);
    }
  }

  lemma LoopToPruned(c: Chain, s: Sweep, e: Sweep, bs: map<nat, BlockData>, first: nat, bound: nat, f: nat)
    requires Settled(c, bs, first) && s == Start(WithPrune(c, Normalized(c.ledger.prune))) && c.ledger.head < U64_MAX
    requires SweptTo(s, e, bs, first, f, bound) && bound < c.ledger.head
    ensures Max(first, bound + 1) in bs && Mapped(e.chain)
    ensures var (d, res) := Finish(e, bound); Pruned(c, bs, first, bound, d, res, f)
  {
    hide Intact, LoadBlock, Chained, Release, RefreshOldest, Swept;
    IntactParts(c, bs, first);
    PlaceIsNormalize(c.ledger.prune, first);
    SweptHead(s.chain, bs, first, f);
    hide CursorOk;
    FinishSpec(e, From(bs, f), f, bound);
    var d := Finish(e, bound).0;
    SweptFrame(c, s.st, bs, bs, first, f);
    assert e.chain == WithPrune(Swept(c, bs, first, f), e.chain.ledger.prune);
    SweptTwice(c, d.ledger.prune, (f, bs[f].timestamp), bs, first, f, Max(first, bound + 1));
  }

  /** What a call of `prune_blocks` does: it fails on its limits only, has nothing to do below them, and otherwise
      prunes; it releases the oldest block exactly when that fits its budget. */
  ghost predicate Called(c: Chain, bs: map<nat, BlockData>, first: nat, retain: nat, maxOps: nat, f: nat)
    requires Mapped(c) && c.ledger.head <= U64_MAX
  {
    var (e, r) := PruneBlocks(c, retain, maxOps);
    if retain == 0 || maxOps == 0 then (e, r) == (c, Err(InvalidLimit))
    else if c.ledger.head <= retain then
      && r == Ok(PruneResult(false, 0, c.ledger.prune.prunedBefore))
      && e == WithPrune(c, Normalized(c.ledger.prune)) && Settled(e, bs, first)
    else
      && Max(first, c.ledger.head - retain + 1) in bs && r.Ok?
      && Pruned(c, bs, first, c.ledger.head - retain, e, r.value, f)
      && (first + retain <= c.ledger.head ==>
            first in bs && (f > first <==> OpsForBlock(c, first, bs[first].txIds) <= maxOps))
  }

  /** A call of `prune_blocks` on a settled chain never fails but for its limits, keeps the chain settled, keeps at
      least the last `retain` blocks, and with nothing remaining has reached the goal. */
  lemma PruneBlocksSpec(c: Chain, bs: map<nat, BlockData>, first: nat, retain: nat, maxOps: nat) returns (f: nat)
    requires Settled(c, bs, first) && c.ledger.head < U64_MAX
    ensures Mapped(c) && Called(c, bs, first, retain, maxOps, f)
  {
    f := first;
    hide Intact, OldestOk, LoadBlock, Chained, Recover, PruneLoop, SweptTo, Pruned, Finish, Settled, OpsForBlock, Goal;
    SettledParts(c, bs, first);
    IntactParts(c, bs, first);
    RecoverIdle(c, bs, first);
    if retain > 0 && maxOps > 0 && c.ledger.head > retain {
      var d := Recover(c).0;
      SettledParts(d, bs, first);
      f := LoopSpec(Start(d), bs, first, c.ledger.head - retain, maxOps);
      if first in bs { StartOps(c, first, bs[first].txIds); }
      LoopToPruned(c, Start(d), PruneLoop(Start(d), c.ledger.head - retain, maxOps).0, bs, first,
          c.ledger.head - retain, f);
    }
  }

  /** Counting operations looks at the pool and the pointers only, and stays within 64 bits. */
  lemma StartOps(c: Chain, n: nat, ids: seq<TxId>)
    ensures forall st :: OpsForBlock(WithPrune(c, st), n, ids) == OpsForBlock(c, n, ids)
    ensures OpsForBlock(c, n, ids) <= U64_MAX
  {
    OpsFit(c, ids, Flag(OBlock(n) in c.ledger.ptrs));
    forall st ensures OpsForBlock(WithPrune(c, st), n, ids) == OpsForBlock(c, n, ids) {
      OpsSame(c, WithPrune(c, st), ids, Flag(OBlock(n) in c.ledger.ptrs));
    }
  }

  lemma {:induction false} OpsFit(c: Chain, ids: seq<TxId>, sum: nat)
    requires sum <= U64_MAX
    ensures OpsForTxs(c, ids, sum) <= U64_MAX
    decreases |ids|
  {
    hide OpsForTx;
    if ids != [] { OpsFit(c, ids[1..], SatAdd(sum, OpsForTx(c.pool, c.ledger.ptrs, ids[0]), U64_MAX)); }
  }

  lemma {:induction false} OpsSame(c: Chain, d: Chain, ids: seq<TxId>, sum: nat)
    requires c.pool == d.pool && c.ledger.ptrs == d.ledger.ptrs
    ensures OpsForTxs(c, ids, sum) == OpsForTxs(d, ids, sum)
    decreases |ids|
  {
    hide OpsForTx;
    if ids != [] { OpsSame(c, d, ids[1..], SatAdd(sum, OpsForTx(c.pool, c.ledger.ptrs, ids[0]), U64_MAX)); }
  }

  lemma SettledParts(c: Chain, bs: map<nat, BlockData>, first: nat)
    requires Settled(c, bs, first)
    ensures Intact(c, bs, first) && OldestOk(c.ledger, bs, first)
  {
    hide Intact, OldestOk;
  }
}
