/** The bounded-heap selection of `crates/evm-core/src/chain.rs`: it picks and orders exactly the first `maxTxs`
    candidates of a full sort by priority. */
module TopK {
  import opened Common

  type Id = nat

  datatype Candidate = Candidate(id: Id, price: nat, sn: nat)

  /** `cmp_priority`: the higher price, then the earlier arrival, then the lower id. */
  predicate Higher(a: Candidate, b: Candidate) {
    a.price > b.price || (a.price == b.price && (a.sn < b.sn || (a.sn == b.sn && a.id < b.id)))
  }

  ghost predicate Ordered(s: seq<Candidate>) { forall i, j :: 0 <= i < j < |s| ==> !Higher(s[j], s[i]) }

  function Insert(x: Candidate, s: seq<Candidate>): seq<Candidate>
    decreases |s|
  {
    if s == [] then [x] else if Higher(x, s[0]) then [x] + s else [s[0]] + Insert(x, s[1..])
  }

  /** The full sort, highest priority first. */
  function Sorted(s: seq<Candidate>): seq<Candidate> {
    if s == [] then [] else Insert(s[|s| - 1], Sorted(s[..|s| - 1]))
  }

  function Ids(s: seq<Candidate>): (ids: seq<Id>)
    ensures |ids| == |s| && forall i :: 0 <= i < |s| ==> ids[i] == s[i].id
  {
    seq(|s|, i requires 0 <= i < |s| => s[i].id)
  }

  function Best(s: seq<Candidate>, k: nat): seq<Candidate> { Sorted(s)[..Min(k, |Sorted(s)|)] }

  // ---------------------------------------------------------------- the full sort

  lemma {:induction false} InsertHas(x: Candidate, s: seq<Candidate>)
    ensures forall y :: y in Insert(x, s) <==> y == x || y in s
    decreases |s|
  {
    hide Higher;
    if s != [] {
      InsertHas(x, s[1..]);
      assert s == [s[0]] + s[1..];
    }
  }

  lemma {:induction false} InsertBag(x: Candidate, s: seq<Candidate>)
    ensures multiset(Insert(x, s)) == multiset(s) + multiset{x} && |Insert(x, s)| == |s| + 1
    decreases |s|
  {
    hide Higher;
    if s != [] {
      InsertBag(x, s[1..]);
      assert s == [s[0]] + s[1..];
    }
  }

  lemma {:induction false} InsertSpec(x: Candidate, s: seq<Candidate>)
    requires Ordered(s)
    ensures Ordered(Insert(x, s)) && multiset(Insert(x, s)) == multiset(s) + multiset{x} && |Insert(x, s)| == |s| + 1
    decreases |s|
  {
    InsertBag(x, s);
    if s != [] && !Higher(x, s[0]) {
      InsertSpec(x, s[1..]);
      InsertHas(x, s[1..]);
      var r := Insert(x, s[1..]);
      hide Insert;
      assert forall y :: y in r ==> !Higher(y, s[0]);
      OrderedCons(s[0], r);
    } else if s != [] {
      assert forall i :: 0 <= i < |s| ==> !Higher(s[i], x);
    }
  }

  lemma OrderedCons(x: Candidate, s: seq<Candidate>)
    requires Ordered(s) && forall y :: y in s ==> !Higher(y, x)
    ensures Ordered([x] + s)
  {
  }

  lemma {:induction false} SortedSpec(s: seq<Candidate>)
    ensures Ordered(Sorted(s)) && multiset(Sorted(s)) == multiset(s) && |Sorted(s)| == |s|
  {
    if s != [] {
      SortedSpec(s[..|s| - 1]);
      InsertSpec(s[|s| - 1], Sorted(s[..|s| - 1]));
      assert s == s[..|s| - 1] + [s[|s| - 1]];
    }
  }

  /** The order is total, so a bag of candidates has one ordering. */
  lemma {:induction false} OrderingUnique(a: seq<Candidate>, b: seq<Candidate>)
    requires Ordered(a) && Ordered(b) && multiset(a) == multiset(b)
    ensures a == b
    decreases |a|
  {
    assert |a| == |multiset(a)| == |multiset(b)| == |b|;
    if a != [] {
      assert a[0] in multiset(b) && b[0] in multiset(a);
      assert a[0] == b[0];
      assert a == [a[0]] + a[1..] && b == [b[0]] + b[1..];
      assert multiset(a[1..]) == multiset(a) - multiset{a[0]};
      assert multiset(b[1..]) == multiset(b) - multiset{b[0]};
      OrderingUnique(a[1..], b[1..]);
    }
  }

  /** `a` goes before `b` or ties with it: it pays more, or the same and came earlier, or with both the same has the
      lower id. */
  predicate NoWorse(a: Candidate, b: Candidate) {
    a.price > b.price || (a.price == b.price && (a.sn < b.sn || (a.sn == b.sn && a.id <= b.id)))
  }

  lemma OrderedNoWorse(s: seq<Candidate>)
    requires Ordered(s)
    ensures forall i, j :: 0 <= i < j < |s| ==> NoWorse(s[i], s[j])
  {
  }

  lemma CutOrdered(all: seq<Candidate>, n: nat)
    requires n <= |all| && forall i, j :: 0 <= i < j < |all| ==> NoWorse(all[i], all[j])
    ensures forall i, j :: 0 <= i < j < n ==> NoWorse(all[..n][i], all[..n][j])
    ensures forall x, y :: x in all[..n] && y in all[n..] ==> NoWorse(x, y)
  {
    hide NoWorse;
    forall x, y | x in all[..n] && y in all[n..] ensures NoWorse(x, y) {
      var i :| 0 <= i < n && all[i] == x;
      var j :| n <= j < |all| && all[j] == y;
    }
  }

  lemma CutBags(all: seq<Candidate>, n: nat, bag: multiset<Candidate>)
    requires n <= |all| && multiset(all) == bag
    ensures multiset(all[..n]) <= bag && forall y :: y in bag - multiset(all[..n]) ==> y in all[n..]
  {
    assert all == all[..n] + all[n..];
    assert bag - multiset(all[..n]) == multiset(all[n..]);
  }

  /** The best `k`: as many of the candidates as there are up to `k`, in order, and none left out is better than one
      that is in. */
  lemma BestMeans(s: seq<Candidate>, k: nat)
    ensures var best := Best(s, k);
            && |best| == Min(k, |s|) && multiset(best) <= multiset(s)
            && (forall i, j :: 0 <= i < j < |best| ==> NoWorse(best[i], best[j]))
            && (forall x, y :: x in best && y in multiset(s) - multiset(best) ==> NoWorse(x, y))
  {
    SortedSpec(s);
    OrderedNoWorse(Sorted(s));
    hide Sorted, Ordered, NoWorse;
    CutOrdered(Sorted(s), Min(k, |s|));
    CutBags(Sorted(s), Min(k, |s|), multiset(s));
  }

  // ---------------------------------------------------------------- one push

  /** The bag after offering `x` to a full one whose worst element is `worst`. */
  function Offered(bag: multiset<Candidate>, x: Candidate, worst: Candidate): multiset<Candidate> {
    if Higher(x, worst) then bag - multiset{worst} + multiset{x} else bag
  }

  lemma InsertLength(x: Candidate, s: seq<Candidate>)
    ensures |Insert(x, s)| == |s| + 1
    decreases |s|
  {
  }

  lemma FirstBeatsAll(x: Candidate, s: seq<Candidate>, i: nat)
    requires Ordered(s) && i < |s| && Higher(x, s[0])
    ensures Higher(x, s[i])
  {
  }

  /** What one more candidate does to the best `k` of a sort that has at least `k`: it displaces the worst of them
      when it beats it, and is not among them otherwise. */
  lemma {:induction false} InsertTop(x: Candidate, s: seq<Candidate>, k: nat)
    requires Ordered(s) && 0 < k <= |s|
    ensures |Insert(x, s)| == |s| + 1 && multiset(Insert(x, s)[..k]) == Offered(multiset(s[..k]), x, s[k - 1])
    decreases |s|
  {
    InsertLength(x, s);
    if Higher(x, s[0]) {
      FirstBeatsAll(x, s, k - 1);
      hide Higher, Ordered;
      InFront(x, s, k);
    } else {
      var r := Insert(x, s[1..]);
      hide Higher;
      if k > 1 {
        InsertTop(x, s[1..], k - 1);
        hide Insert, Ordered;
        Behind(x, s, r, k);
      } else {
        assert s[..1] == [s[0]] && ([s[0]] + r)[..1] == [s[0]];
      }
    }
  }

  lemma InFront(x: Candidate, s: seq<Candidate>, k: nat)
    requires 0 < k <= |s|
    ensures multiset(([x] + s)[..k]) == multiset(s[..k]) - multiset{s[k - 1]} + multiset{x}
  {
    assert ([x] + s)[..k] == [x] + s[..k - 1];
    assert s[..k] == s[..k - 1] + [s[k - 1]];
  }

  lemma Behind(x: Candidate, s: seq<Candidate>, r: seq<Candidate>, k: nat)
    requires 1 < k <= |s| && |r| == |s|
    requires multiset(r[..k - 1]) == Offered(multiset(s[1..][..k - 1]), x, s[1..][k - 2])
    ensures multiset(([s[0]] + r)[..k]) == Offered(multiset(s[..k]), x, s[k - 1])
  {
    hide Offered;
    var a := s[1..][..k - 1];
    assert a[k - 2] == s[k - 1];
    PutFirst(s[0], a, r[..k - 1], x, s[k - 1]);
    assert s[..k] == [s[0]] + a && ([s[0]] + r)[..k] == [s[0]] + r[..k - 1];
  }

  lemma PutFirst(first: Candidate, a: seq<Candidate>, b: seq<Candidate>, x: Candidate, worst: Candidate)
    requires worst in a && multiset(b) == Offered(multiset(a), x, worst)
    ensures multiset([first] + b) == Offered(multiset([first] + a), x, worst)
  {
  }

  // ---------------------------------------------------------------- the selection

  ghost predicate IsWorst(bag: multiset<Candidate>, worst: Candidate) {
    worst in bag && forall x :: x in bag ==> !Higher(worst, x)
  }

  /** `push_top_k_candidate`; the heap is the bag of what it holds and gives up a least element. */
  method PushTopK(heap: multiset<Candidate>, c: Candidate, maxTxs: nat)
    returns (r: multiset<Candidate>, ghost worst: Candidate)
    requires maxTxs > 0
    ensures |heap| < maxTxs ==> r == heap + multiset{c}
    ensures |heap| >= maxTxs ==> IsWorst(heap, worst) && r == Offered(heap, c, worst)
  {
    worst := c;
    if |heap| < maxTxs { return heap + multiset{c}, c; }
    var peeked := Worst(heap);
    worst := peeked;
    r := if Higher(c, peeked) then heap - multiset{peeked} + multiset{c} else heap;
  }

  method Worst(heap: multiset<Candidate>) returns (worst: Candidate)
    requires |heap| > 0
    ensures IsWorst(heap, worst)
  {
    worst :| worst in heap;
    var rest := heap - multiset{worst};
    while |rest| > 0
      invariant worst in heap && forall x :: x in heap ==> x in rest || !Higher(worst, x)
      invariant rest <= heap
      decreases |rest|
    {
      var c :| c in rest;
      if Higher(worst, c) { worst := c; }
      rest := rest - multiset{c};
    }
  }

  /** The heap's content listed from the highest priority down. */
  method SortDescending(heap: multiset<Candidate>) returns (s: seq<Candidate>)
    ensures Ordered(s) && multiset(s) == heap
  {
    s := [];
    var rest := heap;
    while |rest| > 0
      invariant multiset(s) + rest == heap && Ordered(s)
      invariant forall i, x :: 0 <= i < |s| && x in rest ==> !Higher(x, s[i])
      decreases |rest|
    {
      var c := Highest(rest);
      s := s + [c];
      rest := rest - multiset{c};
    }
    assert rest == multiset{};
  }

  method Highest(bag: multiset<Candidate>) returns (best: Candidate)
    requires |bag| > 0
    ensures best in bag && forall x :: x in bag ==> !Higher(x, best)
  {
    best :| best in bag;
    var rest := bag - multiset{best};
    while |rest| > 0
      invariant best in bag && forall x :: x in bag ==> x in rest || !Higher(x, best)
      invariant rest <= bag
      decreases |rest|
    {
      var c :| c in rest;
      if Higher(c, best) { best := c; }
      rest := rest - multiset{c};
    }
  }

  lemma WorstIsLast(s: seq<Candidate>, worst: Candidate)
    requires Ordered(s) && s != [] && IsWorst(multiset(s), worst)
    ensures worst == s[|s| - 1]
  {
    assert s[|s| - 1] in multiset(s);
    var i :| 0 <= i < |s| && s[i] == worst;
    assert i < |s| - 1 ==> !Higher(s[|s| - 1], s[i]);
  }

  lemma OrderedPrefix(s: seq<Candidate>, k: nat)
    requires Ordered(s) && k <= |s|
    ensures Ordered(s[..k])
  {
  }

  /** `select_top_k_ready_candidates`: the ids of the first `maxTxs` of the full sort, in its order. */
  method SelectTopK(candidates: seq<Candidate>, maxTxs: nat) returns (ids: seq<Id>)
    ensures ids == Ids(Best(candidates, maxTxs))
  {
    if maxTxs == 0 { return []; }
    var heap: multiset<Candidate> := multiset{};
    for i := 0 to |candidates|
      invariant heap == multiset(Best(candidates[..i], maxTxs))
    {
      SortedSpec(candidates[..i]);
      assert candidates[..i + 1][..i] == candidates[..i];
      ghost var worst;
      ghost var before := heap;
      heap, worst := PushTopK(heap, candidates[i], maxTxs);
      PushKeepsBest(before, heap, Sorted(candidates[..i]), candidates[i], maxTxs, worst);
    }
    assert candidates[..|candidates|] == candidates;
    var selected := SortDescending(heap);
    SortedSpec(candidates);
    OrderingUnique(selected, Best(candidates, maxTxs));
    ids := Ids(selected);
  }

  lemma PushKeepsBest(before: multiset<Candidate>, after: multiset<Candidate>, s: seq<Candidate>, c: Candidate,
                      k: nat, worst: Candidate)
    requires Ordered(s) && k > 0 && before == multiset(s[..Min(k, |s|)])
    requires |before| < k ==> after == before + multiset{c}
    requires |before| >= k ==> IsWorst(before, worst) && after == Offered(before, c, worst)
    ensures after == multiset(Insert(c, s)[..Min(k, |Insert(c, s)|)])
  {
    hide Higher, Insert, Ordered, IsWorst, Offered;
    assert |before| == Min(k, |s|);
    if |s| >= k {
      InsertTop(c, s, k);
      OrderedPrefix(s, k);
      WorstIsLast(s[..k], worst);
    } else {
      InsertSpec(c, s);
      assert s[..|s|] == s && Insert(c, s)[..|s| + 1] == Insert(c, s);
    }
  }
}
