/** Retention by age in `crates/evm-core/src/chain.rs` and `crates/verified-core/src/prune.rs`: which block the
    search by timestamp finds, how many blocks are retained, and that a young block is never pruned. */
module Retention {
  import opened Common
  import opened Types
  import opened Ledger
  import opened Prune
  import opened PruneProgress
  import opened PruneRecovery
  import opened PruneSpec
  import B = BlobStore

  const SECONDS_PER_DAY: nat := 86400

  function Middle(low: nat, high: nat): (mid: nat)
    requires low <= high
    ensures low <= mid <= high
  {
    low + (high - low) / 2
  }

  /** `find_block_at_timestamp` from the bounds `low` and `high`, with `best` found so far. */
  function Search(l: Ledger, low: nat, high: nat, cutoff: nat, best: Option<(nat, nat)>): Option<(nat, nat)>
    requires l.arena.end <= |l.arena.bytes| && high < U64_MAX
    decreases high + 1 - low
  {
    if low > high then best
    else
      var mid := Middle(low, high);
      match LoadBlock(l, mid)
      case None => best
      case Some(block) =>
        if block.timestamp <= cutoff then Search(l, SatAdd(mid, 1, U64_MAX), high, cutoff, Some((mid, block.timestamp)))
        else if mid == 0 then best
        else Search(l, low, SatSub(mid, 1), cutoff, best)
  }

  function FindBlockAtTimestamp(l: Ledger, cutoff: nat): Option<(nat, nat)>
    requires l.arena.end <= |l.arena.bytes| && l.head < U64_MAX
  {
    Search(l, match l.oldest case Some(o) => o.0 case None => 0, l.head, cutoff, None)
  }

  /** `found` is the greatest stored block at or before the cutoff; None when there is no such block. */
  ghost predicate GreatestAtOrBefore(bs: map<nat, BlockData>, cutoff: nat, found: Option<(nat, nat)>) {
    match found
    case None => forall n :: n in bs ==> bs[n].timestamp > cutoff
    case Some(f) =>
      f.0 in bs && bs[f.0].timestamp == f.1 <= cutoff && forall n :: n in bs && n > f.0 ==> bs[n].timestamp > cutoff
  }

  lemma LaterIsYounger(bs: map<nat, BlockData>, first: nat, head: nat, headTime: nat, mid: nat)
    requires Chained(bs, first, head, headTime) && mid in bs
    ensures forall n :: n in bs && n > mid ==> bs[n].timestamp > bs[mid].timestamp
  {
  }

  lemma {:induction false} SearchSpec(c: Chain, bs: map<nat, BlockData>, first: nat, low: nat, high: nat, cutoff: nat,
                                      best: Option<(nat, nat)>)
    requires Intact(c, bs, first) && first <= low && high <= c.ledger.head < U64_MAX
    requires forall n :: n in bs && n > high ==> bs[n].timestamp > cutoff
    requires match best
             case None => low == first
             case Some(f) => f.0 + 1 == low && f.0 in bs && bs[f.0].timestamp == f.1 <= cutoff
    ensures Mapped(c) && GreatestAtOrBefore(bs, cutoff, Search(c.ledger, low, high, cutoff, best))
    decreases high + 1 - low
  {
    hide Intact, LoadBlock, Chained;
    IntactParts(c, bs, first);
    if low <= high {
      var mid := Middle(low, high);
      LaterIsYounger(bs, first, c.ledger.head, c.ledger.headTime, mid);
      if bs[mid].timestamp <= cutoff {
        SearchSpec(c, bs, first, mid + 1, high, cutoff, Some((mid, bs[mid].timestamp)));
      } else {
        SearchSpec(c, bs, first, low, mid - 1, cutoff, best);
      }
    }
  }

  /** On a settled chain the binary search finds the greatest stored block at or before the cutoff. */
  lemma FindsGreatest(c: Chain, bs: map<nat, BlockData>, first: nat, cutoff: nat)
    requires Settled(c, bs, first) && c.ledger.head < U64_MAX
    ensures Mapped(c) && GreatestAtOrBefore(bs, cutoff, FindBlockAtTimestamp(c.ledger, cutoff))
  {
    hide Intact, LoadBlock;
    IntactParts(c, bs, first);
    if first in bs { SearchSpec(c, bs, first, first, c.ledger.head, cutoff, None); }
  }

  /** The policy and the size figures `compute_retain_count` looks at. */
  datatype Policy = Policy(
    targetBytes: nat, retainDays: nat, retainBlocks: nat,
    estimatedKeptBytes: nat, highWaterBytes: nat, hardEmergencyBytes: nat)
  {
    predicate SizeTriggers() {
      targetBytes > 0 && (estimatedKeptBytes > hardEmergencyBytes || estimatedKeptBytes > highWaterBytes)
    }
  }

  /** `retain_count` */
  function RetainCount(head: nat, p: Policy, cutoffBlock: Option<nat>): nat {
    if p.SizeTriggers() then 1
    else
      var byBlocks := if p.retainBlocks > 0 then SatSub(head, SatSub(p.retainBlocks, 1)) else 0;
      var least := if p.retainDays > 0 && cutoffBlock.Some? then Max(byBlocks, cutoffBlock.value) else byBlocks;
      Max(SatAdd(SatSub(head, least), 1, U64_MAX), 1)
  }

  function Cutoff(l: Ledger, p: Policy): nat {
    SatSub(l.headTime, Min(p.retainDays * SECONDS_PER_DAY, U64_MAX))
  }

  /** `compute_retain_count` */
  function ComputeRetainCount(l: Ledger, p: Policy): nat
    requires l.arena.end <= |l.arena.bytes| && l.head < U64_MAX
  {
    var cutoffBlock := if p.retainDays > 0 then
                         match FindBlockAtTimestamp(l, Cutoff(l, p)) case Some(f) => Some(f.0) case None => None
                       else None;
    RetainCount(l.head, p, cutoffBlock)
  }

  /** Over the target size and above one of the two marks. */
  predicate Oversized(p: Policy) {
    0 < p.targetBytes && (p.hardEmergencyBytes < p.estimatedKeptBytes || p.highWaterBytes < p.estimatedKeptBytes)
  }

  /** The retain count: one block under a size trigger, else the least of the limits that are set, else everything. */
  lemma RetainCountMeans(head: nat, p: Policy, cutoffBlock: Option<nat>)
    requires head < U64_MAX && (cutoffBlock.Some? ==> cutoffBlock.value <= head)
    ensures RetainCount(head, p, cutoffBlock)
         == if Oversized(p) then 1
            else Min(head + 1,
                     Min(if p.retainBlocks > 0 then p.retainBlocks else head + 1,
                         if p.retainDays > 0 && cutoffBlock.Some? then head - cutoffBlock.value + 1 else head + 1))
  {
  }

  /** A block of time `t` is at most `retainDays` days older than the head. */
  predicate InDays(p: Policy, headTime: nat, t: nat) {
    p.retainDays == 0 || (0 < t && headTime < t + p.retainDays * 86400)
  }

  /** Block `n` is one of the last `retainBlocks`. */
  predicate InBlocks(p: Policy, head: nat, n: nat) { p.retainBlocks == 0 || head < n + p.retainBlocks }

  lemma YoungerThanCutoff(l: Ledger, p: Policy, t: nat)
    requires p.retainDays > 0 && l.headTime <= U64_MAX
    ensures t > Cutoff(l, p) <==> InDays(p, l.headTime, t)
  {
  }

  /** Where the retain count puts the bound between what goes and what stays. */
  ghost predicate BoundFits(bs: map<nat, BlockData>, p: Policy, head: nat, headTime: nat, retain: nat) {
    && 1 <= retain
    && (forall n :: n in bs && InDays(p, headTime, bs[n].timestamp) && InBlocks(p, head, n) ==> head < n + retain)
    && (forall n :: n in bs && head < n + retain ==> InBlocks(p, head, n))
    && (forall n :: n in bs && head + 1 < n + retain ==> InDays(p, headTime, bs[n].timestamp))
  }

  lemma RetainFits(c: Chain, bs: map<nat, BlockData>, first: nat, p: Policy)
    requires Settled(c, bs, first) && c.ledger.head < U64_MAX && c.ledger.headTime <= U64_MAX && !Oversized(p)
    ensures Mapped(c)
    ensures BoundFits(bs, p, c.ledger.head, c.ledger.headTime, ComputeRetainCount(c.ledger, p))
  {
    hide Intact, LoadBlock, FindBlockAtTimestamp, OldestOk, RetainCount, Cutoff;
    SettledParts(c, bs, first);
    IntactParts(c, bs, first);
    if p.retainDays > 0 {
      FindsGreatest(c, bs, first, Cutoff(c.ledger, p));
      var found := FindBlockAtTimestamp(c.ledger, Cutoff(c.ledger, p));
      forall n | n in bs ensures bs[n].timestamp > Cutoff(c.ledger, p)
                                 <==> InDays(p, c.ledger.headTime, bs[n].timestamp) {
        YoungerThanCutoff(c.ledger, p, bs[n].timestamp);
      }
      if found.Some? { LaterIsYounger(bs, first, c.ledger.head, c.ledger.headTime, found.value.0); }
      RetainCountMeans(c.ledger.head, p, if found.Some? then Some(found.value.0) else None);
    } else {
      RetainCountMeans(c.ledger.head, p, None);
    }
  }

  /** Without a size trigger pruning keeps every block within all limits that are set; and a call that leaves nothing
      remaining keeps only those, and for a limit in days the one block before them. */
  lemma YoungBlocksStay(c: Chain, bs: map<nat, BlockData>, first: nat, p: Policy, maxOps: nat)
    returns (kept: map<nat, BlockData>, from: nat)
    requires Settled(c, bs, first) && c.ledger.head < U64_MAX && c.ledger.headTime <= U64_MAX && maxOps > 0
    requires !Oversized(p)
    ensures Mapped(c)
    ensures var (e, r) := PruneBlocks(c, ComputeRetainCount(c.ledger, p), maxOps);
            && r.Ok? && Settled(e, kept, from)
            && (forall n :: n in kept ==> n in bs && kept[n] == bs[n])
            && (forall n :: n in bs && InDays(p, c.ledger.headTime, bs[n].timestamp) && InBlocks(p, c.ledger.head, n)
                  ==> n in kept)
            && (r.value.remaining == 0 ==>
                  forall n :: n in kept ==>
                    InBlocks(p, c.ledger.head, n)
                    && (n > from ==> InDays(p, c.ledger.headTime, kept[n].timestamp)))
  {
    hide Intact, LoadBlock, ComputeRetainCount, PruneBlocks, OldestOk, InDays, InBlocks;
    SettledParts(c, bs, first);
    IntactParts(c, bs, first);
    RetainFits(c, bs, first, p);
    var retain := ComputeRetainCount(c.ledger, p);
    kept, from := bs, first;
    var f := PruneBlocksSpec(c, bs, first, retain, maxOps);
    if c.ledger.head > retain { kept, from := From(bs, f), f; }
  }

  /** With no limit set, or no block old enough, and no size trigger, a prune releases nothing. */
  lemma NoLimitKeepsAll(c: Chain, bs: map<nat, BlockData>, first: nat, p: Policy, maxOps: nat)
    requires Settled(c, bs, first) && c.ledger.head < U64_MAX && c.ledger.headTime <= U64_MAX && maxOps > 0
    requires !Oversized(p) && p.retainBlocks == 0
    requires forall n :: n in bs ==> InDays(p, c.ledger.headTime, bs[n].timestamp)
    ensures Mapped(c)
    ensures var (e, r) := PruneBlocks(c, ComputeRetainCount(c.ledger, p), maxOps);
            && r == Ok(PruneResult(false, 0, c.ledger.prune.prunedBefore))
            && e == c.(ledger := c.ledger.(prune := e.ledger.prune)) && Settled(e, bs, first)
  {
    hide Intact, LoadBlock, FindBlockAtTimestamp, PruneBlocks, OldestOk, RetainCount, Cutoff;
    SettledParts(c, bs, first);
    IntactParts(c, bs, first);
    if p.retainDays > 0 {
      FindsGreatest(c, bs, first, Cutoff(c.ledger, p));
      forall n | n in bs ensures bs[n].timestamp > Cutoff(c.ledger, p) {
        YoungerThanCutoff(c.ledger, p, bs[n].timestamp);
      }
    }
    RetainCountMeans(c.ledger.head, p, None);
    var f := PruneBlocksSpec(c, bs, first, ComputeRetainCount(c.ledger, p), maxOps);
  }

  lemma FromHead(bs: map<nat, BlockData>, head: nat)
    requires forall n :: n in bs ==> n <= head
    ensures forall n :: n in From(bs, head) <==> n == head && n in bs
    ensures head in bs ==> From(bs, head)[head] == bs[head]
  {
  }

  lemma OversizedRetainsOne(l: Ledger, p: Policy)
    requires l.arena.end <= |l.arena.bytes| && l.head < U64_MAX && Oversized(p)
    ensures ComputeRetainCount(l, p) == 1
  {
    hide FindBlockAtTimestamp, Cutoff;
  }

  /** Under a size trigger, calls whose budgets cover each old block leave the head block and no other. */
  lemma SizeTriggerKeepsHead(c: Chain, bs: map<nat, BlockData>, first: nat, p: Policy, budgets: seq<nat>)
    requires Settled(c, bs, first) && 1 < c.ledger.head < U64_MAX && Oversized(p)
    requires Covering(c, bs, c.ledger.head - 1, budgets) && |budgets| >= c.ledger.head
    ensures Mapped(c)
    ensures var e := Repeated(c, ComputeRetainCount(c.ledger, p), budgets);
            && Mapped(e) && c.ledger.head in bs
            && forall n :: LoadBlock(e.ledger, n) == if n == c.ledger.head then Some(bs[n]) else None
  {
    hide Intact, LoadBlock, ComputeRetainCount, OldestOk, Covering, Repeated, Goal, Settled, Oversized, Chained, From;
    SettledParts(c, bs, first);
    IntactParts(c, bs, first);
    SettledStart(c, bs, first);
    OversizedRetainsOne(c.ledger, p);
    RepeatedReaches(c, bs, first, 1, budgets);
    var e := Repeated(c, 1, budgets);
    SettledParts(e, From(bs, c.ledger.head), c.ledger.head);
    IntactParts(e, From(bs, c.ledger.head), c.ledger.head);
    SettledStart(e, From(bs, c.ledger.head), c.ledger.head);
    FromHead(bs, c.ledger.head);
  }
}
