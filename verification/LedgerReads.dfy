/** What the stored pointers read: a commit stores each transaction's index entry, receipt and traces under its own key,
    and every later operation keeps those readings until the block is pruned. */
module LedgerReads {
  import opened Common
  import opened Types
  import opened B = BlobStore
  import opened Ledger
  import M = Mempool
  import R = MempoolRun
  import S = MempoolSafe
  import opened Prune
  import opened PruneSpec
  import opened ChainRun

  // ---------------------------------------------------------------- what a commit stores

  /** The pointer under the key reads the bytes. */
  predicate Holds(a: Arena, m: map<Owner, BlobPtr>, o: Owner, bytes: seq<byte>)
    requires a.end <= |a.bytes|
  {
    o in m && Read(a, m[o]) == Ok(bytes)
  }

  /** The transaction's index entry, receipt and traces are stored under its id; without traces there is no entry. */
  predicate TxReads(a: Arena, m: map<Owner, BlobPtr>, tx: StagedTx)
    requires a.end <= |a.bytes|
  {
    && Holds(a, m, OIndex(tx.id), tx.index)
    && Holds(a, m, OReceipt(tx.id), tx.receipt)
    && match tx.traces
       case None => OTraces(tx.id) !in m
       case Some(traces) => Holds(a, m, OTraces(tx.id), traces)
  }

  lemma StoreTxReads(a: Arena, m: map<Owner, BlobPtr>, tx: StagedTx, growOk: bool)
    requires Inv(a) && Owned(a, m) && IsNew(m, tx.id) && StoreTx(a, tx, growOk).Some?
    ensures var (b, t) := StoreTx(a, tx, growOk).value; b.end <= |b.bytes| && TxReads(b, AddPtrs(m, t), tx)
  {
    hide Inv, Owned, StoreBytes, Read;
    StoreOwned(a, m, OIndex(tx.id), tx.index, growOk);
    var (a1, i) := StoreBytes(a, tx.index, growOk);
    var m1 := m[OIndex(tx.id) := i.value];
    StoreOwned(a1, m1, OReceipt(tx.id), tx.receipt, growOk);
    var (a2, r) := StoreBytes(a1, tx.receipt, growOk);
    var m2 := m1[OReceipt(tx.id) := r.value];
    Roomy(a1);
    Roomy(a2);
    assert Read(a2, m1[OIndex(tx.id)]) == Ok(tx.index);
    if tx.traces.Some? {
      StoreOwned(a2, m2, OTraces(tx.id), tx.traces.value, growOk);
      var a3 := StoreBytes(a2, tx.traces.value, growOk).0;
      Roomy(a3);
      assert Read(a3, m2[OIndex(tx.id)]) == Ok(tx.index) && Read(a3, m2[OReceipt(tx.id)]) == Ok(tx.receipt);
    }
  }

  /** Later stores keep what is stored, as they add keys of other transactions only. */
  lemma StillReads(a: Arena, m: map<Owner, BlobPtr>, b: Arena, n: map<Owner, BlobPtr>, tx: StagedTx)
    requires a.end <= |a.bytes| && b.end <= |b.bytes| && TxReads(a, m, tx) && SameReads(a, b, m)
    requires forall o :: o in m ==> o in n && n[o] == m[o]
    requires OTraces(tx.id) in n ==> OTraces(tx.id) in m
    ensures TxReads(b, n, tx)
  {
  }

  lemma {:induction false} StoreTxsReads(a: Arena, m: map<Owner, BlobPtr>, txs: seq<StagedTx>, growOk: bool)
    requires Inv(a) && Owned(a, m) && Distinct(Ids(txs)) && StoreTxs(a, txs, growOk).Some?
    requires forall id :: id in Ids(txs) ==> IsNew(m, id)
    ensures var (b, ts) := StoreTxs(a, txs, growOk).value;
            b.end <= |b.bytes| && forall i :: 0 <= i < |txs| ==> TxReads(b, AddAllPtrs(m, ts), txs[i])
    decreases |txs|
  {
    hide Inv, Owned, StoreTx, SameReads, Read;
    Roomy(a);
    if txs != [] {
      hide IsNew, Ids, Distinct, StoreTxs, AddPtrs, AddAllPtrs, TxReads;
      IdsTail(txs);
      StoreTxsHead(a, txs, growOk);
      StoreTxOwned(a, m, txs[0], growOk);
      StoreTxReads(a, m, txs[0], growOk);
      var (a1, t) := StoreTx(a, txs[0], growOk).value;
      StillNew(m, t, Ids(txs[1..]));
      StoreTxsOwned(a1, AddPtrs(m, t), txs[1..], growOk);
      StoreTxsReads(a1, AddPtrs(m, t), txs[1..], growOk);
      var (b, ts) := StoreTxs(a1, txs[1..], growOk).value;
      AddAllHead(m, t, ts);
      StillReads(a1, AddPtrs(m, t), b, AddAllPtrs(AddPtrs(m, t), ts), txs[0]);
    }
  }

  /** What a committed block leaves: the block under its number, one above the old head, later than it and not before
      the clock, and under each transaction's keys that transaction's own bytes. */
  ghost predicate BlockReads(l: Ledger, l': Ledger, txs: seq<StagedTx>, now: nat)
    requires l'.arena.end <= |l'.arena.bytes|
  {
    && l'.head == l.head + 1 && l'.headTime == (if now > l.headTime then now else l.headTime + 1)
    && Holds(l'.arena, l'.ptrs, OBlock(l'.head), l.codec.encode(BlockData(l'.head, l'.headTime, Ids(txs))))
    && forall i :: 0 <= i < |txs| ==> TxReads(l'.arena, l'.ptrs, txs[i])
  }

  lemma AllStillRead(a: Arena, m: map<Owner, BlobPtr>, b: Arena, n: map<Owner, BlobPtr>, txs: seq<StagedTx>)
    requires a.end <= |a.bytes| && b.end <= |b.bytes| && SameReads(a, b, m)
    requires forall o :: o in m ==> o in n && n[o] == m[o]
    requires forall o :: o in n && o !in m ==> o.OBlock?
    requires forall i :: 0 <= i < |txs| ==> TxReads(a, m, txs[i])
    ensures forall i :: 0 <= i < |txs| ==> TxReads(b, n, txs[i])
  {
    hide TxReads, SameReads;
    forall i | 0 <= i < |txs| ensures TxReads(b, n, txs[i]) { StillReads(a, m, b, n, txs[i]); }
  }

  lemma CommitIs(l: Ledger, txs: seq<StagedTx>, now: nat, growOk: bool)
    requires Commit(l, txs, now, growOk).Some?
    ensures StoreTxs(l.arena, txs, growOk).Some?
    ensures var (a, ts) := StoreTxs(l.arena, txs, growOk).value;
            var b := Produced(l, txs, now);
            var (c, p) := StoreBytes(a, l.codec.encode(b), growOk);
            var l' := Commit(l, txs, now, growOk).value;
            && p.Ok? && l'.arena == c && l'.ptrs == AddAllPtrs(l.ptrs, ts)[OBlock(b.number) := p.value]
            && l'.head == b.number && l'.headTime == b.timestamp && l'.codec == l.codec
  {
    hide StoreBytes, StoreTxs, AddAllPtrs;
    var (a, ts) := StoreTxs(l.arena, txs, growOk).value;
    var b := Produced(l, txs, now);
    var (c, p) := StoreBytes(a, l.codec.encode(b), growOk);
    assert p.Ok?;
    var l' := Commit(l, txs, now, growOk).value;
    assert l'.arena == c;
    assert l'.ptrs == AddAllPtrs(l.ptrs, ts)[OBlock(b.number) := p.value];
    assert l'.head == b.number;
    assert l'.headTime == b.timestamp;
  }

  lemma ProducedIs(l: Ledger, txs: seq<StagedTx>, now: nat)
    requires l.head < U64_MAX && l.headTime < U64_MAX
    ensures Produced(l, txs, now)
         == BlockData(l.head + 1, if now > l.headTime then now else l.headTime + 1, Ids(txs))
  {
  }

  /** The pool of pointers a commit starts from has room for the block's keys. */
  lemma CommitParts(l: Ledger, bs: map<nat, BlockData>, first: nat, txs: seq<StagedTx>)
    requires Sound(l, bs, first) && forall id :: id in Ids(txs) ==> !InSomeBlock(bs, id)
    ensures Inv(l.arena) && Owned(l.arena, l.ptrs) && OBlock(l.head + 1) !in l.ptrs
    ensures forall id :: id in Ids(txs) ==> IsNew(l.ptrs, id)
  {
    HeadIsLast(l, bs, first);
    hide Inv, Owned, Indexed, Loads, Chained, RoundTrips, Ids, IsNew;
    NewToPtrs(l.ptrs, bs, Ids(txs));
    BlockIsNew(l.ptrs, bs, l.head + 1);
  }

  lemma CommitReads(l: Ledger, bs: map<nat, BlockData>, first: nat, txs: seq<StagedTx>, now: nat, growOk: bool)
    requires Sound(l, bs, first) && l.head < U64_MAX && l.headTime < U64_MAX
    requires Distinct(Ids(txs)) && forall id :: id in Ids(txs) ==> !InSomeBlock(bs, id)
    requires Commit(l, txs, now, growOk).Some?
    ensures var l' := Commit(l, txs, now, growOk).value;
            l'.arena.end <= |l'.arena.bytes| && BlockReads(l, l', txs, now)
  {
    hide Sound, Inv, Owned, StoreBytes, StoreTxs, SameReads, Read, AddAllPtrs, Distinct, TxReads, Ids, IsNew, Commit,
         Produced, InSomeBlock;
    CommitParts(l, bs, first, txs);
    CommitIs(l, txs, now, growOk);
    ProducedIs(l, txs, now);
    StoreTxsOwned(l.arena, l.ptrs, txs, growOk);
    StoreTxsReads(l.arena, l.ptrs, txs, growOk);
    var b := Produced(l, txs, now);
    var l' := Commit(l, txs, now, growOk).value;
    var (a, ts) := StoreTxs(l.arena, txs, growOk).value;
    var m := AddAllPtrs(l.ptrs, ts);
    assert StoredAll(l.arena, l.ptrs, Ids(txs), a, m);
    assert Inv(a) && Owned(a, m) && OBlock(b.number) !in m;
    hide StoredAll;
    StoreOwned(a, m, OBlock(b.number), l.codec.encode(b), growOk);
    Roomy(a);
    Roomy(l'.arena);
    AllStillRead(a, m, l'.arena, l'.ptrs, txs);
  }

  // ---------------------------------------------------------------- later operations

  /** What the key reads is the same in both ledgers. */
  predicate SameAt(l: Ledger, l': Ledger, o: Owner)
    requires l.arena.end <= |l.arena.bytes| && l'.arena.end <= |l'.arena.bytes|
  {
    Get(l'.ptrs, o) == Get(l.ptrs, o) && (o in l.ptrs ==> Read(l'.arena, l.ptrs[o]) == Read(l.arena, l.ptrs[o]))
  }

  /** The key belongs to block `n` of `bs` or to one of its transactions. */
  predicate OwnedBy(bs: map<nat, BlockData>, n: nat, o: Owner) {
    n in bs && (o == OBlock(n) || (!o.OBlock? && o.id in bs[n].txIds))
  }

  /** Whatever the blocks from `from` on own reads as before. */
  ghost predicate KeepsFrom(l: Ledger, l': Ledger, bs: map<nat, BlockData>, from: nat) {
    && l.arena.end <= |l.arena.bytes| && l'.arena.end <= |l'.arena.bytes|
    && forall n, o :: from <= n && OwnedBy(bs, n, o) ==> SameAt(l, l', o)
  }

  lemma ReleaseKeeps(c: Chain, n: nat, ids: seq<TxId>, o: Owner)
    requires Inv(c.ledger.arena) && Owned(c.ledger.arena, c.ledger.ptrs) && Distinct(ids)
    requires o != OBlock(n) && (o.OBlock? || o.id !in ids)
    ensures var l' := Release(c, n, ids).ledger;
            && Inv(l'.arena) && Owned(l'.arena, l'.ptrs)
            && c.ledger.arena.end <= |c.ledger.arena.bytes| && l'.arena.end <= |l'.arena.bytes|
            && SameAt(c.ledger, l', o)
  {
    hide Inv, Owned, ReclaimAll, Read, Remove, BlockOwners, NoDup, M.ForgetAll, Distinct;
    var os := BlockOwners(n, ids);
    BlockOwnersMeaning(n, ids);
    ReclaimAllOwned(c.ledger.arena, c.ledger.ptrs, os);
    RemoveMeaning(c.ledger.ptrs, os);
    Roomy(c.ledger.arena);
    Roomy(Release(c, n, ids).ledger.arena);
  }

  /** Releasing old blocks keeps what the later ones own. */
  lemma {:induction false} SweptKeeps(c: Chain, bs: map<nat, BlockData>, first: nat, upto: nat, o: Owner)
    requires Inv(c.ledger.arena) && Owned(c.ledger.arena, c.ledger.ptrs)
    requires forall n :: n in bs && first <= n < upto ==>
               Distinct(bs[n].txIds) && o != OBlock(n) && (o.OBlock? || o.id !in bs[n].txIds)
    ensures var l' := Swept(c, bs, first, upto).ledger;
            c.ledger.arena.end <= |c.ledger.arena.bytes| && l'.arena.end <= |l'.arena.bytes| && SameAt(c.ledger, l', o)
    decreases upto - first
  {
    hide Inv, Owned, Release, Distinct, Read;
    Roomy(c.ledger.arena);
    if first < upto && first in bs {
      ReleaseKeeps(c, first, bs[first].txIds, o);
      SweptKeeps(Release(c, first, bs[first].txIds), bs, first + 1, upto, o);
    }
  }

  /** The transactions of a later block are in no earlier one. */
  lemma NotInEarlier(bs: map<nat, BlockData>, first: nat, head: nat, headTime: nat, upto: nat, n: nat, o: Owner)
    requires Chained(bs, first, head, headTime) && upto <= n && OwnedBy(bs, n, o)
    ensures forall k :: k in bs && first <= k < upto ==>
              Distinct(bs[k].txIds) && o != OBlock(k) && (o.OBlock? || o.id !in bs[k].txIds)
  {
  }

  lemma PruneKeeps(c: Chain, bs: map<nat, BlockData>, first: nat, bound: nat, e: Chain, res: PruneResult, f: nat)
    requires Settled(c, bs, first) && Max(first, bound + 1) in bs && Pruned(c, bs, first, bound, e, res, f)
    ensures KeepsFrom(c.ledger, e.ledger, bs, f)
  {
    hide Intact, OldestOk, Chained, Goal, Swept, Read, OwnedBy;
    ArenaParts(c, bs, first);
    hide Settled;
    SettledRoomy(e, From(bs, f), f);
    forall n, o | f <= n && OwnedBy(bs, n, o) ensures SameAt(c.ledger, e.ledger, o) {
      NotInEarlier(bs, first, c.ledger.head, c.ledger.headTime, f, n, o);
      SweptKeeps(c, bs, first, f, o);
    }
  }

  lemma ArenaParts(c: Chain, bs: map<nat, BlockData>, first: nat)
    requires Settled(c, bs, first)
    ensures Inv(c.ledger.arena) && Owned(c.ledger.arena, c.ledger.ptrs) && Indexed(c.ledger.ptrs, bs)
    ensures Chained(bs, first, c.ledger.head, c.ledger.headTime) && c.ledger.arena.end <= |c.ledger.arena.bytes|
  {
    hide Inv, Owned, Indexed, Chained, Loads;
    Roomy(c.ledger.arena);
  }

  lemma SettledRoomy(c: Chain, bs: map<nat, BlockData>, first: nat)
    requires Settled(c, bs, first)
    ensures c.ledger.arena.end <= |c.ledger.arena.bytes|
  {
    ArenaParts(c, bs, first);
    hide Settled;
  }

  /** A commit touches no key of an older block. */
  lemma CommitKeeps(l: Ledger, bs: map<nat, BlockData>, first: nat, txs: seq<StagedTx>, now: nat, growOk: bool)
    requires Sound(l, bs, first) && l.head < U64_MAX && l.headTime < U64_MAX
    requires Distinct(Ids(txs)) && forall id :: id in Ids(txs) ==> !InSomeBlock(bs, id)
    requires Commit(l, txs, now, growOk).Some?
    ensures KeepsFrom(l, Commit(l, txs, now, growOk).value, bs, first)
  {
    hide Sound, Inv, Owned, StoreBytes, StoreTxs, SameReads, Read, AddAllPtrs, Distinct, Ids, IsNew, Commit, Produced,
         OwnedBy, KeepsFrom;
    CommitParts(l, bs, first, txs);
    CommitIs(l, txs, now, growOk);
    ProducedIs(l, txs, now);
    StoreTxsOwned(l.arena, l.ptrs, txs, growOk);
    var b := Produced(l, txs, now);
    var l' := Commit(l, txs, now, growOk).value;
    var (a, ts) := StoreTxs(l.arena, txs, growOk).value;
    var m := AddAllPtrs(l.ptrs, ts);
    assert StoredAll(l.arena, l.ptrs, Ids(txs), a, m);
    StoreOwned(a, m, OBlock(b.number), l.codec.encode(b), growOk);
    Roomy(a);
    Roomy(l'.arena);
    SameReadsTrans(l.arena, a, l'.arena, l.ptrs, m);
    assert l.head + 1 !in bs by { HeadIsLast(l, bs, first); }
    AddedElsewhere(l, l', bs, first, Ids(txs), m);
  }

  lemma AddedElsewhere(l: Ledger, l': Ledger, bs: map<nat, BlockData>, first: nat, ids: seq<TxId>,
                       m: map<Owner, BlobPtr>)
    requires l.arena.end <= |l.arena.bytes| && l'.arena.end <= |l'.arena.bytes| && SameReads(l.arena, l'.arena, l.ptrs)
    requires forall o :: o in l.ptrs ==> o in m && m[o] == l.ptrs[o]
    requires forall o :: o in m && o !in l.ptrs ==> !o.OBlock? && o.id in ids
    requires l'.head !in bs && OBlock(l'.head) in l'.ptrs && l'.ptrs == m[OBlock(l'.head) := l'.ptrs[OBlock(l'.head)]]
    requires forall id :: id in ids ==> !InSomeBlock(bs, id)
    ensures KeepsFrom(l, l', bs, first)
  {
    hide Read;
    forall n, o | first <= n && OwnedBy(bs, n, o) ensures SameAt(l, l', o) {
      assert o != OBlock(l'.head);
      if !o.OBlock? { assert InSomeBlock(bs, o.id); }
    }
  }

  // ---------------------------------------------------------------- whole runs

  /** `ds` has every block of `bs` from `last` on. */
  ghost predicate StillThere(bs: map<nat, BlockData>, ds: map<nat, BlockData>, last: nat) {
    forall n :: n in bs && last <= n ==> n in ds && ds[n] == bs[n]
  }

  lemma KeepsSelf(l: Ledger, l': Ledger, bs: map<nat, BlockData>, from: nat)
    requires l.arena.end <= |l.arena.bytes| && l'.arena == l.arena && l'.ptrs == l.ptrs
    ensures KeepsFrom(l, l', bs, from)
  {
  }

  /** A block's transactions are new to the ledger. */
  lemma CommitMay(c: Chain, bs: map<nat, BlockData>, first: nat, op: ChainOp)
    requires Settled(c, bs, first) && op.Block? && Can(c, op)
    ensures Sound(c.ledger, bs, first) && c.ledger.head < U64_MAX && c.ledger.headTime < U64_MAX
    ensures Distinct(Ids(op.txs)) && forall id :: id in Ids(op.txs) ==> !InSomeBlock(bs, id)
  {
    hide Sound, Linked, OldestOk, S.Inv, R.Staged, Ids, Distinct, InSomeBlock, InBlock;
    StagedAreNew(c, bs, op.drops, Ids(op.txs));
  }

  lemma ProduceLedger(c: Chain, op: ChainOp)
    requires op.Block?
    ensures match Commit(c.ledger, op.txs, op.now, op.growOk)
            case None => Produce(c, op).ledger == c.ledger
            case Some(l) => Produce(c, op).ledger == l
  {
    hide Commit, M.CommitBlock;
  }

  lemma ProduceKeeps(c: Chain, bs: map<nat, BlockData>, first: nat, op: ChainOp) returns (bs': map<nat, BlockData>)
    requires Settled(c, bs, first) && op.Block? && Can(c, op)
    ensures Settled(Produce(c, op), bs', first) && StillThere(bs, bs', first)
    ensures KeepsFrom(c.ledger, Produce(c, op).ledger, bs, first)
  {
    hide Settled, Sound, Commit, Produce, Can, KeepsFrom, Produced, Distinct, Ids, InSomeBlock;
    bs' := bs;
    ProduceSettled(c, bs, first, op);
    ProduceLedger(c, op);
    if Commit(c.ledger, op.txs, op.now, op.growOk).Some? {
      CommitMay(c, bs, first, op);
      CommitKeeps(c.ledger, bs, first, op.txs, op.now, op.growOk);
      HeadIsLast(c.ledger, bs, first);
      bs' := bs[c.ledger.head + 1 := Produced(c.ledger, op.txs, op.now)];
    } else {
      SettledRoomy(c, bs, first);
      KeepsSelf(c.ledger, c.ledger, bs, first);
    }
  }

  lemma PruneStepKeeps(c: Chain, bs: map<nat, BlockData>, first: nat, retain: nat, maxOps: nat)
    returns (bs': map<nat, BlockData>, first': nat)
    requires Settled(c, bs, first) && c.ledger.head < U64_MAX
    ensures Mapped(c) && Settled(PruneBlocks(c, retain, maxOps).0, bs', first') && first <= first'
    ensures StillThere(bs, bs', first') && KeepsFrom(c.ledger, PruneBlocks(c, retain, maxOps).0.ledger, bs, first')
  {
    hide Settled, PruneBlocks, OpsForBlock, Goal, Swept, KeepsFrom;
    bs', first' := bs, first;
    SettledRoomy(c, bs, first);
    var f := PruneBlocksSpec(c, bs, first, retain, maxOps);
    if retain > 0 && maxOps > 0 && c.ledger.head > retain {
      bs', first' := From(bs, f), f;
      PruneKeeps(c, bs, first, c.ledger.head - retain, PruneBlocks(c, retain, maxOps).0,
                 PruneBlocks(c, retain, maxOps).1.value, f);
    } else {
      KeepsSelf(c.ledger, PruneBlocks(c, retain, maxOps).0.ledger, bs, first);
    }
  }

  /** Every operation keeps what the blocks that stay stored own. */
  lemma StepKeeps(c: Chain, bs: map<nat, BlockData>, first: nat, op: ChainOp)
    returns (bs': map<nat, BlockData>, first': nat)
    requires Settled(c, bs, first) && Can(c, op)
    ensures Settled(ChainStep(c, op), bs', first') && first <= first' && StillThere(bs, bs', first')
    ensures KeepsFrom(c.ledger, ChainStep(c, op).ledger, bs, first')
  {
    hide Settled, Produce, PruneBlocks, M.Submit, M.ApplyDrops, R.RebuildRuntime, KeepsFrom, R.Staged;
    bs', first' := bs, first;
    SettledRoomy(c, bs, first);
    match op
    case Submission(id, req) =>
      SubmissionSettled(c, bs, first, id, req);
      KeepsSelf(c.ledger, c.ledger, bs, first);
    case Block(_, _, _, _, _, _) => bs' := ProduceKeeps(c, bs, first, op);
    case DropsOnly(drops) =>
      DropsOnlySettled(c, bs, first, drops);
      KeepsSelf(c.ledger, c.ledger, bs, first);
    case Prune(retain, maxOps) => bs', first' := PruneStepKeeps(c, bs, first, retain, maxOps);
    case Rebuild =>
      RebuildSettled(c, bs, first);
      KeepsSelf(c.ledger, c.ledger, bs, first);
  }

  lemma KeepsTrans(a: Ledger, b: Ledger, c: Ledger, bs: map<nat, BlockData>, ds: map<nat, BlockData>, from: nat,
                   last: nat)
    requires KeepsFrom(a, b, bs, from) && KeepsFrom(b, c, ds, last) && StillThere(bs, ds, from) && from <= last
    ensures KeepsFrom(a, c, bs, last)
  {
    hide Read;
    forall n, o | last <= n && OwnedBy(bs, n, o) ensures SameAt(a, c, o) {
      assert OwnedBy(ds, n, o) && SameAt(a, b, o) && SameAt(b, c, o);
    }
  }

  /** Over whole runs: whatever the blocks still stored at the end own has been read as the same bytes all along. */
  lemma {:induction false} RunKeeps(c: Chain, bs: map<nat, BlockData>, first: nat, ops: seq<ChainOp>, d: Chain)
    returns (ds: map<nat, BlockData>, last: nat)
    requires Settled(c, bs, first) && ChainRuns(c, ops, d)
    ensures Settled(d, ds, last) && first <= last && StillThere(bs, ds, last)
    ensures KeepsFrom(c.ledger, d.ledger, bs, last)
    decreases |ops|
  {
    hide Settled, ChainStep, Can, KeepsFrom;
    if ops == [] {
      ds, last := bs, first;
      SettledRoomy(c, bs, first);
      KeepsSelf(c.ledger, c.ledger, bs, first);
    } else {
      var ms, mid := StepKeeps(c, bs, first, ops[0]);
      ds, last := RunKeeps(ChainStep(c, ops[0]), ms, mid, ops[1..], d);
      KeepsTrans(c.ledger, ChainStep(c, ops[0]).ledger, d.ledger, bs, ms, mid, last);
    }
  }

  /** The block `op` commits to `c`. */
  function NewBlock(c: Chain, op: ChainOp): BlockData
    requires op.Block?
  {
    BlockData(c.ledger.head + 1, if op.now > c.ledger.headTime then op.now else c.ledger.headTime + 1, Ids(op.txs))
  }

  ghost predicate Commits(c: Chain, op: ChainOp) {
    op.Block? && Can(c, op) && Commit(c.ledger, op.txs, op.now, op.growOk).Some?
  }

  /** The block loads, and each of its transactions' keys reads what was staged for it. */
  ghost predicate ReadsBack(d: Chain, b: BlockData, txs: seq<StagedTx>) {
    && Mapped(d) && LoadBlock(d.ledger, b.number) == Some(b)
    && forall i :: 0 <= i < |txs| ==> TxReads(d.ledger.arena, d.ledger.ptrs, txs[i])
  }

  lemma ReadsBackAtOnce(c: Chain, bs: map<nat, BlockData>, first: nat, op: ChainOp)
    requires Settled(c, bs, first) && Commits(c, op)
    ensures ReadsBack(ChainStep(c, op), NewBlock(c, op), op.txs)
    ensures ChainStep(c, op).ledger.head == c.ledger.head + 1
  {
    hide Settled, Sound, Commit, Produce, Can, Distinct, Ids, InSomeBlock, TxReads, Holds, Read;
    CommitMay(c, bs, first, op);
    ProduceLedger(c, op);
    CommitReads(c.ledger, bs, first, op.txs, op.now, op.growOk);
    var l := ChainStep(c, op).ledger;
    CodecSame(c, bs, first, op);
    LoadsHeld(l, NewBlock(c, op));
  }

  lemma CodecSame(c: Chain, bs: map<nat, BlockData>, first: nat, op: ChainOp)
    requires Settled(c, bs, first) && Commits(c, op)
    ensures var l := ChainStep(c, op).ledger; l.codec == c.ledger.codec && RoundTrips(l.codec)
  {
    CommitIs(c.ledger, op.txs, op.now, op.growOk);
    CommitMay(c, bs, first, op);
    ProduceLedger(c, op);
    hide Settled, Commit, Produce, Inv, Owned, Loads, Chained, Indexed, Can, RoundTrips;
  }

  lemma LoadsHeld(l: Ledger, b: BlockData)
    requires l.arena.end <= |l.arena.bytes| && RoundTrips(l.codec)
    requires Holds(l.arena, l.ptrs, OBlock(b.number), l.codec.encode(b))
    ensures LoadBlock(l, b.number) == Some(b)
  {
    DecodesBack(l, b);
  }

  lemma ReadsStay(l: Ledger, l': Ledger, bs: map<nat, BlockData>, n: nat, from: nat, tx: StagedTx)
    requires KeepsFrom(l, l', bs, from) && from <= n && n in bs && tx.id in bs[n].txIds
    requires l.arena.end <= |l.arena.bytes| && TxReads(l.arena, l.ptrs, tx)
    ensures l'.arena.end <= |l'.arena.bytes| && TxReads(l'.arena, l'.ptrs, tx)
  {
    hide Read;
    assert OwnedBy(bs, n, OIndex(tx.id)) && OwnedBy(bs, n, OReceipt(tx.id)) && OwnedBy(bs, n, OTraces(tx.id));
    assert SameAt(l, l', OIndex(tx.id)) && SameAt(l, l', OReceipt(tx.id)) && SameAt(l, l', OTraces(tx.id));
  }

  /** `op` commits a block to `c`, and `after` leads on to `d`. */
  ghost predicate CommitRun(c: Chain, op: ChainOp, after: seq<ChainOp>, d: Chain) {
    Commits(c, op) && ChainRuns(ChainStep(c, op), after, d)
  }

  /** Exactly the blocks from `last` to the head load. */
  ghost predicate StoresFrom(d: Chain, last: nat) {
    Mapped(d) && forall n: nat :: LoadBlock(d.ledger, n).Some? <==> last <= n <= d.ledger.head
  }

  /** What a block stored is read back after any further run, as long as the block is not pruned; and pruning goes by
      number, from the oldest block on. */
  lemma CommittedReads(c: Chain, bs: map<nat, BlockData>, first: nat, op: ChainOp, after: seq<ChainOp>, d: Chain)
    returns (last: nat)
    requires Settled(c, bs, first) && CommitRun(c, op, after, d)
    ensures StoresFrom(d, last) && (last <= c.ledger.head + 1 ==> op.Block? && ReadsBack(d, NewBlock(c, op), op.txs))
  {
    hide Settled, ChainStep, Can, Commit, ChainRuns, KeepsFrom, LoadBlock, TxReads, Chained;
    ReadsBackAtOnce(c, bs, first, op);
    var e := ChainStep(c, op);
    var es, mid := StepKeeps(c, bs, first, op);
    var ds, end := RunKeeps(e, es, mid, after, d);
    last := end;
    Loaded(e, es, mid);
    Loaded(d, ds, last);
    if last <= c.ledger.head + 1 {
      var n := c.ledger.head + 1;
      forall i | 0 <= i < |op.txs| ensures TxReads(d.ledger.arena, d.ledger.ptrs, op.txs[i]) {
        assert Ids(op.txs)[i] == op.txs[i].id && es[n].txIds == Ids(op.txs);
        ReadsStay(e.ledger, d.ledger, es, n, last, op.txs[i]);
      }
    }
  }

  lemma Loaded(c: Chain, bs: map<nat, BlockData>, first: nat)
    requires Settled(c, bs, first)
    ensures Mapped(c) && forall n :: LoadBlock(c.ledger, n) == (if n in bs then Some(bs[n]) else None)
    ensures forall n :: n in bs <==> first <= n <= c.ledger.head
  {
    hide Intact, OldestOk, LoadBlock, Chained;
    IntactParts(c, bs, first);
  }

  // ---------------------------------------------------------------- what a prune collects

  function PtrAt(l: Ledger, o: Owner): seq<BlobPtr> { if o in l.ptrs then [l.ptrs[o]] else [] }

  lemma {:induction false} PickAppend(m: map<Owner, BlobPtr>, a: seq<Owner>, b: seq<Owner>)
    ensures Pick(m, a + b) == Pick(m, a) + Pick(m, b)
    decreases |a|
  {
    if a == [] {
      assert a + b == b && [] + Pick(m, b) == Pick(m, b);
    } else {
      assert (a + b)[1..] == a[1..] + b;
      PickAppend(m, a[1..], b);
    }
  }

  lemma {:induction false} OwnersAppend(ids: seq<TxId>, id: TxId)
    ensures TxOwners(ids + [id]) == TxOwners(ids) + [OReceipt(id), OIndex(id), OTraces(id)]
    decreases |ids|
  {
    if ids == [] {
      assert ids + [id] == [id] && [id][1..] == [];
    } else {
      assert (ids + [id])[1..] == ids[1..] + [id];
      OwnersAppend(ids[1..], id);
    }
  }

  /** A prune collects the block's pointer first, then receipt, index entry and traces of one transaction after the
      other, each where there is one. */
  lemma CollectMeans(l: Ledger, n: nat, ids: seq<TxId>, id: TxId)
    ensures CollectPtrs(l, n, []) == PtrAt(l, OBlock(n))
    ensures CollectPtrs(l, n, ids + [id])
         == CollectPtrs(l, n, ids) + (PtrAt(l, OReceipt(id)) + PtrAt(l, OIndex(id)) + PtrAt(l, OTraces(id)))
  {
    assert BlockOwners(n, []) == [OBlock(n)];
    assert Pick(l.ptrs, [OBlock(n)]) == PtrAt(l, OBlock(n));
    OwnersAppend(ids, id);
    var more := [OReceipt(id), OIndex(id), OTraces(id)];
    assert BlockOwners(n, ids + [id]) == BlockOwners(n, ids) + more;
    PickAppend(l.ptrs, BlockOwners(n, ids), more);
    PickThree(l, OReceipt(id), OIndex(id), OTraces(id));
  }

  lemma PickThree(l: Ledger, a: Owner, b: Owner, c: Owner)
    ensures Pick(l.ptrs, [a, b, c]) == PtrAt(l, a) + PtrAt(l, b) + PtrAt(l, c)
  {
    assert [a, b, c] == [a] + ([b] + [c]);
    PickAppend(l.ptrs, [a], [b] + [c]);
    PickAppend(l.ptrs, [b], [c]);
    PickOne(l, a);
    PickOne(l, b);
    PickOne(l, c);
    hide Pick;
  }

  lemma PickOne(l: Ledger, o: Owner)
    ensures Pick(l.ptrs, [o]) == PtrAt(l, o)
  {
    assert [o][1..] == [];
  }
}
