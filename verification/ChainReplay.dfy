/** The one exception of `ChainHistory.CommittedOnce` on the whole chain: a run with a prune that commits a transaction
    of the last nonce in two blocks. */
module ChainReplay {
  import opened Common
  import opened Types
  import opened Ledger
  import opened Mempool
  import opened Prune
  import opened PruneSpec
  import opened ChainRun
  import opened ChainHistory
  import opened MempoolReplay
  import opened BlockCodec
  import B = BlobStore
  import G = PruneProgress
  import R = MempoolRun
  import S = MempoolSafe

  // ---------------------------------------------------------------- room in the arena

  /** At most `k` blobs stored so far. */
  ghost predicate Modest(a: B.Arena, k: nat) {
    B.Inv(a) && a.end <= k * B.MAX_CLASS && forall key :: key in a.table ==> a.table[key].gen <= k
  }

  lemma {:induction false} ClassExists(len: nat, cls: nat)
    requires cls in {8192, 16384, 32768, 65536, 131072, 262144, 524288, 1048576, 2097152, 4194304} && len <= B.MAX_CLASS
    ensures B.DoubleUntil(len, cls).Ok?
    decreases B.MAX_CLASS - cls
  {
    if len > cls { ClassExists(len, 2 * cls); }
  }

  /** A blob of permitted size is stored as long as the arena is small and memory grows. */
  lemma AllocateModest(a: B.Arena, k: nat, len: nat)
    requires Modest(a, k) && k <= 1000 && 0 < len <= B.MAX_CLASS
    ensures B.Allocate(a, len, true).1.Ok? && Modest(B.Allocate(a, len, true).0, k + 1)
  {
    hide B.Inv, B.FreeKeys, B.FirstOfClass, B.PopFree;
    Roomy(a);
    ClassExists(len, B.MIN_CLASS);
    B.SmallestClassFits(len);
    B.AllocateSpec(a, len, true);
    PopKeeps(a, B.SmallestClass(len).value);
  }

  lemma PopKeeps(a: B.Arena, cls: nat)
    ensures B.PopFree(a, cls).0 == a.(freeList := B.PopFree(a, cls).0.freeList)
  {
  }

  lemma StoreModest(a: B.Arena, k: nat, data: seq<B.byte>)
    requires Modest(a, k) && k <= 1000 && Storable(data)
    ensures B.StoreBytes(a, data, true).1.Ok? && Modest(B.StoreBytes(a, data, true).0, k + 1)
  {
    hide B.Inv, B.Allocate, B.Write, B.Read;
    AllocateModest(a, k, |data|);
    B.AllocateSpec(a, |data|, true);
    var (b, r) := B.Allocate(a, |data|, true);
    B.WriteSpec(b, r.value, data, true);
  }

  lemma {:induction false} DrainKeepsGens(a: B.Arena, ps: seq<B.BlobPtr>)
    ensures var b := ReclaimAll(a, ps).0;
            b.end == a.end && forall k :: k in b.table ==> k in a.table && b.table[k].gen == a.table[k].gen
    decreases |ps|
  {
    if ps != [] { DrainKeepsGens(B.ReclaimForPrune(a, ps[0]).0, ps[1..]); }
  }

  // ---------------------------------------------------------------- one block

  const DATA: seq<B.byte> := [0]

  function TxOf(id: TxId): StagedTx { StagedTx(id, DATA, DATA, None) }

  lemma CommitModest(l: Ledger, id: TxId, k: nat, w: TxId)
    requires Modest(l.arena, k) && k <= 100 && SmallBlocks(l.codec, w) && (id == w || id == Other(w))
    requires l.head <= 2 && l.headTime <= 2
    ensures Commit(l, [TxOf(id)], 0, true).Some?
    ensures Modest(Commit(l, [TxOf(id)], 0, true).value.arena, k + 3)
  {
    hide Modest, B.StoreBytes, SmallBlocks, Storable;
    var txs := [TxOf(id)];
    assert Storable(DATA) by { DataStorable(); }
    StoreModest(l.arena, k, DATA);
    var a := B.StoreBytes(l.arena, DATA, true).0;
    StoreModest(a, k + 1, DATA);
    var b := B.StoreBytes(a, DATA, true).0;
    StoreOne(l.arena, id);
    var data := Produced(l, txs, 0);
    assert Storable(l.codec.encode(data)) by {
      assert Ids(txs) == [id];
      OneSmall(l.codec, data, w);
    }
    StoreModest(b, k + 2, l.codec.encode(data));
  }

  lemma DataStorable()
    ensures Storable(DATA)
  {
  }

  lemma OneSmall(codec: Codec, b: BlockData, w: TxId)
    requires SmallBlocks(codec, w) && RunBlock(b, w)
    ensures Storable(codec.encode(b))
  {
  }

  lemma StoreOne(a: B.Arena, id: TxId)
    requires B.StoreBytes(a, DATA, true).1.Ok? && B.StoreBytes(B.StoreBytes(a, DATA, true).0, DATA, true).1.Ok?
    ensures var s := StoreTxs(a, [TxOf(id)], true);
            s.Some? && s.value.0 == B.StoreBytes(B.StoreBytes(a, DATA, true).0, DATA, true).0
  {
    hide B.StoreBytes;
    var t := StoreTx(a, TxOf(id), true).value;
    assert StoreTxs(t.0, [TxOf(id)][1..], true) == Some((t.0, []));
  }

  /** A settled chain with an idle pool that `id`, one of the run's two transactions, can join next. */
  ghost predicate Awaits(c: Chain, bs: map<nat, BlockData>, first: nat, id: TxId, k: nat, w: TxId) {
    && Settled(c, bs, first) && Idle(c.pool) && Next(c.pool, id) && (id == w || id == Other(w))
    && Modest(c.ledger.arena, k) && SmallBlocks(c.ledger.codec, w) && k <= 100
    && c.ledger.head <= 2 && c.ledger.headTime <= 2
  }

  function Sub(id: TxId): ChainOp { Submission(id, Bid(id, EMPTY_PRINCIPAL)) }

  function Blk(id: TxId): ChainOp { Block([], [TxOf(id)], NoAccount, 0, 0, true) }

  ghost predicate Reaches(c: Chain, ops: seq<ChainOp>, d: Chain, log: seq<TxId>) {
    ChainRuns(c, ops, d) && ChainLog(c, ops) == log
  }

  lemma ReachesNone(c: Chain)
    ensures Reaches(c, [], c, [])
  {
  }

  lemma ReachesCons(c: Chain, op: ChainOp, ops: seq<ChainOp>, d: Chain, log: seq<TxId>)
    requires Can(c, op) && Reaches(ChainStep(c, op), ops, d, log)
    ensures Reaches(c, [op] + ops, d, Committed(c, op) + log)
  {
    hide Can, ChainStep, Committed;
  }

  lemma {:induction false} ReachesAppend(c: Chain, a: seq<ChainOp>, mid: Chain, first: seq<TxId>, b: seq<ChainOp>,
                                         d: Chain, second: seq<TxId>)
    requires Reaches(c, a, mid, first) && Reaches(mid, b, d, second)
    ensures Reaches(c, a + b, d, first + second)
    decreases |a|
  {
    hide Can, ChainStep, Committed;
    if a == [] {
      assert a + b == b && first + second == second;
    } else {
      var next := ChainStep(c, a[0]);
      ReachesAppend(next, a[1..], mid, ChainLog(next, a[1..]), b, d, second);
      assert (a + b)[1..] == a[1..] + b;
      assert Committed(c, a[0]) + ChainLog(next, a[1..]) + second
             == Committed(c, a[0]) + (ChainLog(next, a[1..]) + second);
    }
  }

  lemma PoolSettles(c: Chain, id: TxId)
    requires Idle(c.pool) && Next(c.pool, id) && c.ledger.head <= 2 && c.ledger.headTime <= 2
    requires Commit(c.ledger, [TxOf(id)], 0, true).Some?
    ensures Can(c, Sub(id)) && Can(ChainStep(c, Sub(id)), Blk(id)) && Committed(ChainStep(c, Sub(id)), Blk(id)) == [id]
    ensures var d := ChainStep(ChainStep(c, Sub(id)), Blk(id));
            d == Chain(Settle(c.pool, id, EMPTY_PRINCIPAL, c.ledger.head + 1),
                Commit(c.ledger, [TxOf(id)], 0, true).value)
  {
    hide Idle, Next, Submit, CommitBlock, R.Staged, B.StoreBytes, StoreTxs;
    OneSettles(c.pool, id, EMPTY_PRINCIPAL, c.ledger.head + 1);
    assert Ids([TxOf(id)]) == [id];
    assert id.nonce <= U64_MAX by { NextInRange(c.pool, id); }
  }

  lemma NextInRange(p: Pool, id: TxId)
    requires Next(p, id)
    ensures id.nonce <= U64_MAX
  {
  }

  /** A submission of `id` and the block with it lead to `d`. */
  ghost predicate Rounds(c: Chain, id: TxId, d: Chain) {
    && Can(c, Sub(id)) && Can(ChainStep(c, Sub(id)), Blk(id)) && Committed(ChainStep(c, Sub(id)), Blk(id)) == [id]
    && d == ChainStep(ChainStep(c, Sub(id)), Blk(id))
  }

  lemma RoundReaches(c: Chain, id: TxId, d: Chain)
    requires Rounds(c, id, d)
    ensures Reaches(c, [Sub(id), Blk(id)], d, [id])
  {
    hide Can, ChainStep, Committed, Reaches;
    ReachesNone(d);
    ReachesCons(ChainStep(c, Sub(id)), Blk(id), [], d, []);
    ReachesCons(c, Sub(id), [Blk(id)] + [], d, [id] + []);
    assert [Sub(id)] + ([Blk(id)] + []) == [Sub(id), Blk(id)];
    assert Committed(c, Sub(id)) + ([id] + []) == [id] by { NothingCommitted(c, Sub(id)); }
  }

  /** `m` is the ledger with a block of `id` committed to it. */
  ghost predicate Adds(l: Ledger, id: TxId, m: Ledger) { Commit(l, [TxOf(id)], 0, true) == Some(m) }

  /** The transaction awaited can be submitted and included. */
  lemma Round(c: Chain, bs: map<nat, BlockData>, first: nat, id: TxId, k: nat, w: TxId)
    returns (d: Chain, b: BlockData)
    requires Awaits(c, bs, first, id, k, w)
    ensures Rounds(c, id, d) && d.pool == Settle(c.pool, id, EMPTY_PRINCIPAL, c.ledger.head + 1)
    ensures b.txIds == [id] && b.number == c.ledger.head + 1 && Settled(d, bs[b.number := b], first)
    ensures Modest(d.ledger.arena, k + 3) && d.ledger.codec == c.ledger.codec
    ensures d.ledger.head == c.ledger.head + 1 && d.ledger.headTime == c.ledger.headTime + 1
    ensures Adds(c.ledger, id, d.ledger)
  {
    hide Settled, Idle, Next, Modest, SmallBlocks, Can, ChainStep, Settle, StoreTxs, B.StoreBytes, Committed, Commit;
    CommitModest(c.ledger, id, k, w);
    PoolSettles(c, id);
    d := ChainStep(ChainStep(c, Sub(id)), Blk(id));
    b := Produced(c.ledger, [TxOf(id)], 0);
    RoundSettled(c, bs, first, id);
    CommitMoves(c.ledger, id);
  }

  lemma NothingCommitted(c: Chain, op: ChainOp)
    requires !op.Block?
    ensures Committed(c, op) == []
  {
  }

  lemma CommitMoves(l: Ledger, id: TxId)
    requires Commit(l, [TxOf(id)], 0, true).Some? && l.head <= 2 && l.headTime <= 2
    ensures var m := Commit(l, [TxOf(id)], 0, true).value;
            m.codec == l.codec && m.head == l.head + 1 && m.headTime == l.headTime + 1
    ensures Produced(l, [TxOf(id)], 0).txIds == [id] && Produced(l, [TxOf(id)], 0).number == l.head + 1
  {
    hide B.StoreBytes, StoreTxs;
    assert Ids([TxOf(id)]) == [id];
  }

  lemma RoundSettled(c: Chain, bs: map<nat, BlockData>, first: nat, id: TxId)
    requires Settled(c, bs, first) && Can(c, Sub(id)) && Can(ChainStep(c, Sub(id)), Blk(id))
    requires Commit(c.ledger, [TxOf(id)], 0, true).Some?
    ensures var b := Produced(c.ledger, [TxOf(id)], 0);
            Settled(ChainStep(ChainStep(c, Sub(id)), Blk(id)), bs[b.number := b], first)
  {
    hide Settled, Submit, Commit, Produce, R.Staged;
    SubmissionSettled(c, bs, first, id, Bid(id, EMPTY_PRINCIPAL));
    ProduceSettled(ChainStep(c, Sub(id)), bs, first, Blk(id));
  }

  // ---------------------------------------------------------------- pruning the first of two blocks

  lemma ReleasedOne(c: Chain, bs: map<nat, BlockData>, id: TxId, k: nat)
    requires 1 in bs && bs[1].txIds == [id] && Modest(c.ledger.arena, k)
    ensures var d := Swept(c, bs, 1, 2);
            && d.pool == Forget(c.pool, id) && d.ledger.codec == c.ledger.codec
                 && d.ledger.headTime == c.ledger.headTime
            && d.ledger.arena.end <= k * B.MAX_CLASS
            && forall key :: key in d.ledger.arena.table ==> d.ledger.arena.table[key].gen <= k
  {
    hide Forget, ReclaimAll, CollectPtrs, B.Inv, Remove, BlockOwners;
    DrainKeepsGens(c.ledger.arena, CollectPtrs(c.ledger, 1, [id]));
    assert Swept(c, bs, 1, 2) == Release(c, 1, [id]);
    assert ForgetAll(c.pool, [id]) == Forget(c.pool, id);
  }

  lemma SettledModest(c: Chain, bs: map<nat, BlockData>, first: nat, k: nat)
    requires Settled(c, bs, first) && c.ledger.arena.end <= k * B.MAX_CLASS
    requires forall key :: key in c.ledger.arena.table ==> c.ledger.arena.table[key].gen <= k
    ensures Modest(c.ledger.arena, k)
  {
    hide S.Inv, B.Inv, Owned, Indexed, Loads, Chained, RoundTrips, Linked, OldestOk, CursorOk;
  }

  /** A prune of the first of two blocks, when it holds one transaction. */
  lemma FirstPruned(c: Chain, bs: map<nat, BlockData>, id: TxId, k: nat)
    requires Settled(c, bs, 1) && c.ledger.head == 2 && c.ledger.headTime <= 2
    requires 1 in bs && bs[1].txIds == [id] && Modest(c.ledger.arena, k)
    ensures Can(c, Prune(1, 10))
    ensures var d := ChainStep(c, Prune(1, 10));
            && Settled(d, From(bs, 2), 2) && d.pool == Forget(c.pool, id) && Modest(d.ledger.arena, k)
            && d.ledger.head == 2 && d.ledger.headTime == c.ledger.headTime && d.ledger.codec == c.ledger.codec
  {
    hide Settled, PruneBlocks, OpsForBlock, Goal, Swept, Modest, Forget, From;
    var f := PruneBlocksSpec(c, bs, 1, 1, 10);
    G.BlockCost(c, 1, [id]);
    assert f == 2;
    ReleasedOne(c, bs, id, k);
    SettledModest(PruneBlocks(c, 1, 10).0, From(bs, 2), 2, k);
  }

  // ---------------------------------------------------------------- twice

  const PRUNE: ChainOp := Prune(1, 10)

  /** One block, with `id`, and another sender's transaction to come. */
  ghost predicate HasFirst(c: Chain, bs: map<nat, BlockData>, id: TxId) {
    && Awaits(c, bs, 1, Other(id), 3, id) && 1 in bs && bs[1].txIds == [id]
    && c.ledger.head == 1 && c.ledger.headTime == 1
    && Get(c.pool.expected, id.sender) == Some(SatAdd(id.nonce, 1, U64_MAX))
  }

  lemma FirstBlock(codec: Codec, id: TxId) returns (d: Chain, bs: map<nat, BlockData>)
    requires RoundTrips(codec) && SmallBlocks(codec, id) && id.nonce <= U64_MAX
    ensures Rounds(Chain(Fresh(FREE), FreshLedger(codec)), id, d) && HasFirst(d, bs, id)
    ensures Adds(FreshLedger(codec), id, d.ledger)
  {
    hide Settled, Idle, Next, Rounds, Modest, SmallBlocks, RoundTrips, Settle, Fresh, FreshLedger, Adds;
    var c := Chain(Fresh(FREE), FreshLedger(codec));
    FreshAwaits(codec, id);
    var b;
    d, b := Round(c, map[], 1, id, 0, id);
    FirstPool(id);
    bs := map[][b.number := b];
  }

  lemma FreshAwaits(codec: Codec, id: TxId)
    requires RoundTrips(codec) && SmallBlocks(codec, id) && id.nonce <= U64_MAX
    ensures Awaits(Chain(Fresh(FREE), FreshLedger(codec)), map[], 1, id, 0, id)
    ensures FreshLedger(codec).head == 0 && FreshLedger(codec).headTime == 0 && FreshLedger(codec).codec == codec
  {
    hide Settled, Idle, Next, Modest, SmallBlocks, RoundTrips, Fresh;
    FreshSettled(FREE, codec);
    FreshIsIdle(id);
    FreshModest();
  }

  lemma FirstPool(id: TxId)
    requires id.nonce <= U64_MAX
    ensures var p := Settle(Fresh(FREE), id, EMPTY_PRINCIPAL, 1);
            Idle(p) && Next(p, Other(id)) && Get(p.expected, id.sender) == Some(SatAdd(id.nonce, 1, U64_MAX))
  {
    hide Idle, Settle, Next;
    FreshIsIdle(id);
    OneSettles(Fresh(FREE), id, EMPTY_PRINCIPAL, 1);
    OtherNext(Fresh(FREE), Settle(Fresh(FREE), id, EMPTY_PRINCIPAL, 1), id);
  }

  /** Two blocks, with `id` in the first, and nothing pending. */
  ghost predicate HasBoth(c: Chain, bs: map<nat, BlockData>, id: TxId) {
    && Settled(c, bs, 1) && 1 in bs && bs[1].txIds == [id]
    && Modest(c.ledger.arena, 6) && SmallBlocks(c.ledger.codec, id)
    && c.ledger.head == 2 && c.ledger.headTime == 2 && Idle(c.pool)
    && Get(c.pool.expected, id.sender) == Some(SatAdd(id.nonce, 1, U64_MAX))
  }

  lemma SecondBlock(c: Chain, cs: map<nat, BlockData>, id: TxId) returns (d: Chain, bs: map<nat, BlockData>)
    requires HasFirst(c, cs, id)
    ensures Rounds(c, Other(id), d) && HasBoth(d, bs, id) && Adds(c.ledger, Other(id), d.ledger)
  {
    hide Settled, Idle, Next, Rounds, Modest, SmallBlocks, Settle, Adds;
    var b;
    d, b := Round(c, cs, 1, Other(id), 3, id);
    OneSettles(c.pool, Other(id), EMPTY_PRINCIPAL, 2);
    bs := cs[b.number := b];
  }

  /** With the first block pruned `id` is awaited again. */
  lemma AwaitedAgain(c: Chain, bs: map<nat, BlockData>, id: TxId)
    requires HasBoth(c, bs, id) && id.nonce == U64_MAX
    ensures Can(c, PRUNE) && Awaits(ChainStep(c, PRUNE), From(bs, 2), 2, id, 6, id) && Committed(c, PRUNE) == []
  {
    hide Settled, Idle, Next, Modest, SmallBlocks, ChainStep, Can, Forget, Committed;
    FirstPruned(c, bs, id, 6);
    SettledPool(ChainStep(c, PRUNE), From(bs, 2), 2);
    AgainNext(c.pool, id);
    NothingCommitted(c, PRUNE);
  }

  lemma FreshModest()
    ensures Modest(B.EMPTY, 0)
  {
    B.EmptyInv();
  }

  lemma OtherNext(p: Pool, q: Pool, id: TxId)
    requires p == Fresh(FREE) && q.txs.seen == p.txs.seen + {id} && q.expected.Keys == p.expected.Keys + {id.sender}
    ensures Next(q, Other(id))
  {
  }

  lemma AgainNext(p: Pool, id: TxId)
    requires id.nonce == U64_MAX && Idle(p) && Get(p.expected, id.sender) == Some(U64_MAX) && S.Inv(Forget(p, id))
    ensures Idle(Forget(p, id)) && Next(Forget(p, id), id)
  {
    hide S.Inv;
  }

  /** The stations of the run: after the block with `id`, after the other one, and after the block with `id` again. */
  lemma Stations(codec: Codec, id: TxId) returns (one: Chain, two: Chain, d: Chain)
    requires RoundTrips(codec) && SmallBlocks(codec, id) && id.nonce == U64_MAX
    ensures Rounds(Chain(Fresh(FREE), FreshLedger(codec)), id, one) && Rounds(one, Other(id), two)
    ensures Can(two, PRUNE) && Committed(two, PRUNE) == [] && Rounds(ChainStep(two, PRUNE), id, d)
  {
    hide SmallBlocks, RoundTrips, ChainStep, Can, HasFirst, HasBoth, Awaits, Rounds, Fresh, FreshLedger, Committed,
         Adds;
    var bs1, bs2, b;
    one, bs1 := FirstBlock(codec, id);
    two, bs2 := SecondBlock(one, bs1, id);
    AwaitedAgain(two, bs2, id);
    d, b := Round(ChainStep(two, PRUNE), From(bs2, 2), 2, id, 6, id);
  }

  /** A transaction of the last nonce committed, pruned, and committed again. */
  lemma LastNonceCommittedTwice(codec: Codec, id: TxId) returns (ops: seq<ChainOp>, d: Chain)
    requires RoundTrips(codec) && SmallBlocks(codec, id) && id.nonce == U64_MAX
    ensures Reaches(Chain(Fresh(FREE), FreshLedger(codec)), ops, d, [id, Other(id), id])
  {
    hide Reaches, SmallBlocks, RoundTrips, ChainStep, Can, Rounds, Fresh, FreshLedger, Committed, Sub, Blk;
    var c := Chain(Fresh(FREE), FreshLedger(codec));
    var one, two;
    one, two, d := Stations(codec, id);
    RoundReaches(c, id, one);
    RoundReaches(one, Other(id), two);
    RoundReaches(ChainStep(two, PRUNE), id, d);
    var y, again := [Sub(Other(id)), Blk(Other(id))], [PRUNE] + [Sub(id), Blk(id)];
    ReachesCons(two, PRUNE, [Sub(id), Blk(id)], d, [id]);
    assert Committed(two, PRUNE) + [id] == [id];
    ReachesAppend(one, y, two, [Other(id)], again, d, [id]);
    ReachesAppend(c, [Sub(id), Blk(id)], one, [id], y + again, d, [Other(id)] + [id]);
    assert [id] + ([Other(id)] + [id]) == [id, Other(id), id];
    ops := [Sub(id), Blk(id)] + (y + again);
  }

  /** The run from the empty chain commits `id` at both places of its log. */
  ghost predicate CommitsTwice(cfg: Config, codec: Codec, ops: seq<ChainOp>, d: Chain, i: nat, j: nat, id: TxId) {
    var c := Chain(Fresh(cfg), FreshLedger(codec));
    ChainRuns(c, ops, d) && i < j < |ChainLog(c, ops)| && ChainLog(c, ops)[i] == id && ChainLog(c, ops)[j] == id
  }

  /** A transaction can be committed twice exactly when it carries the last nonce. */
  lemma CommittedTwiceIff(codec: Codec, id: TxId)
    requires RoundTrips(codec) && SmallBlocks(codec, id)
    ensures (exists cfg, ops, d, i, j :: CommitsTwice(cfg, codec, ops, d, i, j, id)) <==> id.nonce == U64_MAX
  {
    hide ChainRuns, ChainLog, RoundTrips, SmallBlocks;
    if cfg, ops, d, i, j :| CommitsTwice(cfg, codec, ops, d, i, j, id) { CommittedOnce(cfg, codec, ops, d, i, j); }
    if id.nonce == U64_MAX {
      var ops, d := LastNonceCommittedTwice(codec, id);
      assert CommitsTwice(FREE, codec, ops, d, 0, 2, id);
    }
  }

  /** The same without naming a codec: some chain, with some block codec that round-trips, commits a transaction twice
      exactly when it carries the last nonce. */
  lemma SomeChainCommitsTwiceIff(id: TxId)
    ensures (exists cfg, codec, ops, d, i, j :: RoundTrips(codec) && CommitsTwice(cfg, codec, ops, d, i, j, id))
            <==> id.nonce == U64_MAX
  {
    hide ChainRuns, ChainLog, RoundTrips, SmallBlocks, CommitsTwice;
    if cfg, codec, ops, d, i, j :| RoundTrips(codec) && CommitsTwice(cfg, codec, ops, d, i, j, id) {
      OnlyLastNonce(cfg, codec, ops, d, i, j, id);
    }
    if id.nonce == U64_MAX {
      CodecMeetsBoth(id);
      CommittedTwiceIff(CodecFor(id), id);
    }
  }

  lemma OnlyLastNonce(cfg: Config, codec: Codec, ops: seq<ChainOp>, d: Chain, i: nat, j: nat, id: TxId)
    requires RoundTrips(codec) && CommitsTwice(cfg, codec, ops, d, i, j, id)
    ensures id.nonce == U64_MAX
  {
    hide ChainRuns, ChainLog, RoundTrips;
    CommittedOnce(cfg, codec, ops, d, i, j);
  }
}
