/** `prune_blocks` and `recover_prune_journal` of `crates/evm-core/src/chain.rs`: the journaled release of old
    blocks over the mempool and the ledger, and its recovery after an interruption. */
module Prune {
  import opened Common
  import opened Types
  import opened Ledger
  import opened Mempool
  import B = BlobStore
  import S = MempoolSafe

  datatype Chain = Chain(pool: Pool, ledger: Ledger)

  datatype PruneError = InvalidLimit | ExecFailed

  datatype PruneResult = PruneResult(didWork: bool, remaining: nat, prunedBefore: Option<nat>)

  predicate Mapped(c: Chain) { c.ledger.arena.end <= |c.ledger.arena.bytes| }

  function WithPrune(c: Chain, st: PruneState): Chain { c.(ledger := c.ledger.(prune := st)) }

  // ---------------------------------------------------------------- decisions

  /** `normalize_next_prune_block` */
  function Normalize(st: PruneState): nat {
    match st.prunedBefore
    case Some(p) => if st.next <= p then SatAdd(p, 1, U64_MAX) else st.next
    case None => st.next
  }

  function Normalized(st: PruneState): PruneState { st.(next := Normalize(st)) }

  /** `recover_pruned_before` */
  function RecoverPrunedBefore(current: Option<nat>, n: nat): Option<nat> {
    match current case Some(p) => Some(Max(p, n)) case None => Some(n)
  }

  function Flag(b: bool): nat { if b then 1 else 0 }

  /** `prune_ops_needed_for_tx` */
  function OpsForTx(p: Pool, m: map<Owner, B.BlobPtr>, id: TxId): nat {
    Flag(id in p.fees.key)
    + Flag(Readable(p.txs, id) && p.txs.store[id].principal in p.principals)
    + Flag(Readable(p.txs, id) && p.txs.store[id].kind == EthSigned && id in p.txs.ethIndex)
    + Flag(id in p.txs.store)
    + Flag(OReceipt(id) in m) + Flag(OIndex(id) in m) + Flag(OTraces(id) in m)
    + Flag(TxLocsGet(p.txs, id).Some?)
    + Flag(id in p.txs.seen)
  }

  function OpsForTxs(c: Chain, ids: seq<TxId>, sum: nat): nat
    decreases |ids|
  {
    if ids == [] then sum
    else OpsForTxs(c, ids[1..], SatAdd(sum, OpsForTx(c.pool, c.ledger.ptrs, ids[0]), U64_MAX))
  }

  /** `prune_ops_needed_for_block` */
  function OpsForBlock(c: Chain, n: nat, ids: seq<TxId>): nat { OpsForTxs(c, ids, Flag(OBlock(n) in c.ledger.ptrs)) }

  // ---------------------------------------------------------------- releasing one block

  function Logged(c: Chain, n: nat, ids: seq<TxId>): Chain {
    c.(ledger := c.ledger.(journal := c.ledger.journal[n := CollectPtrs(c.ledger, n, ids)]))
  }

  /** The keys of the block and of its transactions removed. */
  function Deleted(c: Chain, n: nat, ids: seq<TxId>): Chain {
    Chain(ForgetAll(c.pool, ids), c.ledger.(ptrs := Remove(c.ledger.ptrs, BlockOwners(n, ids))))
  }

  function Drained(c: Chain, ps: seq<B.BlobPtr>): Chain {
    c.(ledger := c.ledger.(arena := ReclaimAll(c.ledger.arena, ps).0))
  }

  function EntryRemoved(c: Chain, n: nat): Chain { c.(ledger := c.ledger.(journal := c.ledger.journal - {n})) }

  /** One turn of the loop of `prune_blocks`: journal entry, cursor, deletes, drain, clean-up. */
  function PruneOne(c: Chain, st: PruneState, n: nat, ids: seq<TxId>): (Chain, Result<(), PruneError>) {
    var ps := CollectPtrs(c.ledger, n, ids);
    var d := Deleted(WithPrune(Logged(c, n, ids), st.(journalBlock := Some(n))), n, ids);
    if ReclaimAll(d.ledger.arena, ps).1.Err? then (Drained(d, ps), Err(ExecFailed))
    else (WithPrune(EntryRemoved(Drained(d, ps), n), st.(prunedBefore := Some(n), journalBlock := None)), Ok(()))
  }

  // ---------------------------------------------------------------- the loop

  /** The loop's variables: the maps, the local copy of the cursor, the block to look at, the operations spent. */
  datatype Sweep = Sweep(chain: Chain, st: PruneState, next: nat, used: nat, worked: bool)

  function PruneLoop(s: Sweep, bound: nat, maxOps: nat): (Sweep, Result<(), PruneError>)
    requires Mapped(s.chain) && bound < U64_MAX
    decreases bound + 1 - s.next
  {
    if s.next > bound then (s, Ok(()))
    else
      var on := SatAdd(s.next, 1, U64_MAX);
      match LoadBlock(s.chain.ledger, s.next)
      case None => PruneLoop(s.(st := s.st.(prunedBefore := Some(s.next)), next := on, worked := true), bound, maxOps)
      case Some(block) =>
        var needed := OpsForBlock(s.chain, s.next, block.txIds);
        if SatAdd(s.used, needed, U64_MAX) > maxOps then (s, Ok(()))
        else
          var (c, r) := PruneOne(s.chain, s.st, s.next, block.txIds);
          if r.Err? then (s.(chain := c), r)
          else
            PruneLoop(Sweep(c, s.st.(prunedBefore := Some(s.next), journalBlock := None), on,
                            SatAdd(s.used, needed, U64_MAX), true), bound, maxOps)
  }

  // ---------------------------------------------------------------- the oldest block

  ghost predicate IsNextExisting(l: Ledger, start: nat, n: nat)
    requires l.arena.end <= |l.arena.bytes|
  {
    start <= n && LoadBlock(l, n).Some? && forall m :: start <= m < n ==> LoadBlock(l, m).None?
  }

  /** `find_next_existing_block` */
  ghost function NextExisting(l: Ledger, start: nat): (r: Option<nat>)
    requires l.arena.end <= |l.arena.bytes|
    ensures r.Some? ==> IsNextExisting(l, start, r.value)
    ensures r.None? ==> forall n :: !IsNextExisting(l, start, n)
  {
    if n :| IsNextExisting(l, start, n) then Some(n) else None
  }

  /** `refresh_oldest` */
  ghost function RefreshOldest(l: Ledger): Ledger
    requires l.arena.end <= |l.arena.bytes|
  {
    var start := match l.prune.prunedBefore case Some(p) => SatAdd(p, 1, U64_MAX) case None => 0;
    match NextExisting(l, start)
    case Some(n) => l.(oldest := Some((n, LoadBlock(l, n).value.timestamp)))
    case None => l
  }

  lemma NextExistingUnique(l: Ledger, start: nat)
    requires l.arena.end <= |l.arena.bytes|
    ensures forall n, m :: IsNextExisting(l, start, n) && IsNextExisting(l, start, m) ==> n == m
  {
  }

  // ---------------------------------------------------------------- recovery

  ghost predicate IsFirstEntry(journal: map<nat, seq<B.BlobPtr>>, n: nat) {
    n in journal && forall m :: m in journal ==> n <= m
  }

  lemma {:induction false} FirstEntryExists(journal: map<nat, seq<B.BlobPtr>>, n: nat)
    requires n in journal
    ensures exists m :: IsFirstEntry(journal, m)
    decreases n
  {
    if m :| m in journal && m < n { FirstEntryExists(journal, m); } else { assert IsFirstEntry(journal, n); }
  }

  /** The block the journal names: the cursor's, or the oldest entry when the cursor names none. */
  ghost function JournalBlock(l: Ledger): (r: Option<nat>)
    ensures r.None? <==> l.prune.journalBlock.None? && l.journal == map[]
  {
    if l.prune.journalBlock.Some? then l.prune.journalBlock
    else if n :| n in l.journal then FirstEntryExists(l.journal, n); (var m :| IsFirstEntry(l.journal, m); Some(m))
    else None
  }

  /** The part of the recovery that replays a journal entry. */
  function Replay(c: Chain, st: PruneState, n: nat): (Chain, PruneState, Result<(), PruneError>)
    requires Mapped(c) && n in c.ledger.journal
  {
    var ps := c.ledger.journal[n];
    var (d, st1) := match LoadBlock(c.ledger, n)
      case Some(block) => (Deleted(c, n, block.txIds), st.(prunedBefore := RecoverPrunedBefore(st.prunedBefore, n)))
      case None => (c, st);
    if ReclaimAll(d.ledger.arena, ps).1.Err? then (Drained(d, ps), st1, Err(ExecFailed))
    else (EntryRemoved(Drained(d, ps), n), st1, Ok(()))
  }

  /** `recover_prune_journal` */
  ghost function Recover(c: Chain): (Chain, Result<(), PruneError>)
    requires Mapped(c)
  {
    match JournalBlock(c.ledger)
    case None => (WithPrune(c, Normalized(c.ledger.prune)), Ok(()))
    case Some(n) =>
      var st := c.ledger.prune.(journalBlock := Some(n));
      var (d, st1, r) := if n in c.ledger.journal then Replay(WithPrune(c, st), st, n)
          else (WithPrune(c, st), st, Ok(()));
      if r.Err? then (d, r)
      else
        var e := WithPrune(d, Normalized(st1.(journalBlock := None)));
        (e.(ledger := RefreshOldest(e.ledger)), Ok(()))
  }

  // ---------------------------------------------------------------- a whole call

  function Start(c: Chain): Sweep { Sweep(c, c.ledger.prune, Normalize(c.ledger.prune), 0, false) }

  /** `remaining_blocks` */
  function Remaining(next: nat, bound: nat): nat {
    if next > bound then 0 else SatAdd(SatSub(bound, next), 1, U64_MAX)
  }

  ghost function Finish(s: Sweep, bound: nat): (Chain, PruneResult)
    requires Mapped(s.chain)
  {
    var c := WithPrune(s.chain, s.st.(next := s.next));
    (c.(ledger := RefreshOldest(c.ledger)), PruneResult(s.worked, Remaining(s.next, bound), s.st.prunedBefore))
  }

  lemma RecoverMapped(c: Chain)
    requires Mapped(c)
    ensures Mapped(Recover(c).0)
  {
  }

  lemma {:induction false} LoopMapped(s: Sweep, bound: nat, maxOps: nat)
    requires Mapped(s.chain) && bound < U64_MAX
    ensures Mapped(PruneLoop(s, bound, maxOps).0.chain)
    decreases bound + 1 - s.next
  {
    hide OpsForBlock, LoadBlock;
    if s.next <= bound {
      var on := SatAdd(s.next, 1, U64_MAX);
      match LoadBlock(s.chain.ledger, s.next)
      case None => LoopMapped(s.(st := s.st.(prunedBefore := Some(s.next)), next := on, worked := true), bound, maxOps);
      case Some(block) =>
        var needed := OpsForBlock(s.chain, s.next, block.txIds);
        var (c, r) := PruneOne(s.chain, s.st, s.next, block.txIds);
        if r.Ok? {
          LoopMapped(Sweep(c, s.st.(prunedBefore := Some(s.next), journalBlock := None), on,
                           SatAdd(s.used, needed, U64_MAX), true), bound, maxOps);
        }
    }
  }

  /** The loop never spends more than its budget, and stops short of the bound only before a block that does not fit
      into what is left of it. */
  lemma {:induction false} LoopBudget(s: Sweep, bound: nat, maxOps: nat)
    requires Mapped(s.chain) && bound < U64_MAX
    ensures Mapped(PruneLoop(s, bound, maxOps).0.chain)
    ensures var (e, r) := PruneLoop(s, bound, maxOps);
            && e.used <= Max(s.used, maxOps)
            && (r.Ok? && e.next <= bound ==>
                  var block := LoadBlock(e.chain.ledger, e.next);
                  block.Some? && SatAdd(e.used, OpsForBlock(e.chain, e.next, block.value.txIds), U64_MAX) > maxOps)
    decreases bound + 1 - s.next
  {
    hide OpsForBlock, LoadBlock;
    LoopMapped(s, bound, maxOps);
    if s.next <= bound {
      var on := SatAdd(s.next, 1, U64_MAX);
      match LoadBlock(s.chain.ledger, s.next)
      case None => LoopBudget(s.(st := s.st.(prunedBefore := Some(s.next)), next := on, worked := true), bound, maxOps);
      case Some(block) =>
        var used := SatAdd(s.used, OpsForBlock(s.chain, s.next, block.txIds), U64_MAX);
        var (c, r) := PruneOne(s.chain, s.st, s.next, block.txIds);
        if used <= maxOps && r.Ok? {
          LoopBudget(Sweep(c, s.st.(prunedBefore := Some(s.next), journalBlock := None), on, used, true), bound,
              maxOps);
        }
    }
  }

  /** `prune_blocks` */
  ghost function PruneBlocks(c: Chain, retain: nat, maxOps: nat): (Chain, Result<PruneResult, PruneError>)
    requires Mapped(c) && c.ledger.head <= U64_MAX
  {
    if retain == 0 || maxOps == 0 then (c, Err(InvalidLimit))
    else
      var (d, r) := Recover(c);
      RecoverMapped(c);
      if r.Err? then (d, Err(r.error))
      else if d.ledger.head <= retain then (d, Ok(PruneResult(false, 0, d.ledger.prune.prunedBefore)))
      else
        RecoverHead(c);
        var bound := d.ledger.head - retain;
        var (s, q) := PruneLoop(Start(d), bound, maxOps);
        LoopMapped(Start(d), bound, maxOps);
        if q.Err? then (s.chain, Err(q.error))
        else var (e, res) := Finish(s, bound); (e, Ok(res))
  }

  lemma RecoverHead(c: Chain)
    requires Mapped(c)
    ensures Recover(c).0.ledger.head == c.ledger.head && Recover(c).0.ledger.codec == c.ledger.codec
  {
  }
}
