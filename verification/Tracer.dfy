/** The call-trace inspector of `crates/evm-core/src/revm_exec.rs`: a stack machine over call events that equals the
    recursive preorder of the call tree. */
module Tracer {
  import opened Common

  const MAX_TRACES: nat := 1024

  type Addr = nat

  datatype Kind = Call | CallCode | DelegateCall | StaticCall | Create | Create2 | Custom | Selfdestruct

  datatype Action = Action(kind: Kind, from: Addr, to: Option<Addr>, value: nat)

  datatype Outcome = Outcome(success: bool, error: Option<string>, created: Option<Addr>)

  datatype Trace = Trace(id: seq<nat>, depth: nat, action: Action, created: Option<Addr>, success: bool,
                         error: Option<string>)

  datatype Event = Start(action: Action) | End(outcome: Outcome) | Destroyed(action: Action)

  /** `InternalTraceInspector`; a path is None for the root frame. */
  datatype Inspector = Inspector(children: seq<nat>, paths: seq<Option<seq<nat>>>, traces: seq<Trace>, total: nat)

  const NEW: Inspector := Inspector([0], [], [], 0)

  // ---------------------------------------------------------------- the machine

  function Popped<T>(s: seq<T>): seq<T> { if s == [] then [] else s[..|s| - 1] }

  function Last<T>(s: seq<T>): T
    requires s != []
  {
    s[|s| - 1]
  }

  /** The path of the innermost frame; empty for the root frame. */
  function Top(paths: seq<Option<seq<nat>>>): seq<nat> {
    if paths == [] then [] else match Last(paths) case Some(p) => p case None => []
  }

  function Bumped(children: seq<nat>): seq<nat>
    requires children != []
  {
    Popped(children) + [SatAdd(Last(children), 1, U32_MAX)]
  }

  function Pending(id: seq<nat>, a: Action): Trace { Trace(id, |id| % 0x1_0000, a, None, false, Some("pending")) }

  function Destruction(id: seq<nat>, a: Action): Trace { Trace(id, |id| % 0x1_0000, a, None, true, None) }

  function Pushed(traces: seq<Trace>, t: Trace): seq<Trace> { if |traces| < MAX_TRACES then traces + [t] else traces }

  /** `start_action` */
  function OnStart(s: Inspector, a: Action): Inspector
    requires s.children != []
  {
    var id := Top(s.paths) + [Last(s.children)];
    var children := Bumped(s.children) + [0];
    if s.paths == [] then s.(children := children, paths := [None])
    else Inspector(children, s.paths + [Some(id)], Pushed(s.traces, Pending(id, a)), SatAdd(s.total, 1, U32_MAX))
  }

  function Settled(t: Trace, o: Outcome): Trace {
    t.(success := o.success, error := o.error, created := if o.created.Some? then o.created else t.created)
  }

  /** Settles the last trace with the id. */
  function Settle(traces: seq<Trace>, id: seq<nat>, o: Outcome): (r: seq<Trace>)
    ensures |r| == |traces|
  {
    if traces == [] then []
    else if Last(traces).id == id then Popped(traces) + [Settled(Last(traces), o)]
    else Settle(Popped(traces), id, o) + [Last(traces)]
  }

  /** `finish_action` */
  function OnEnd(s: Inspector, o: Outcome): Inspector {
    var traces := if s.paths != [] && Last(s.paths).Some? then Settle(s.traces, Last(s.paths).value, o) else s.traces;
    Inspector(Popped(s.children), Popped(s.paths), traces, s.total)
  }

  /** `record_selfdestruct` */
  function OnDestroyed(s: Inspector, a: Action): Inspector {
    if s.paths == [] || s.children == [] then s
    else
      var id := Top(s.paths) + [Last(s.children)];
      s.(children := Bumped(s.children), traces := Pushed(s.traces, Destruction(id, a)),
          total := SatAdd(s.total, 1, U32_MAX))
  }

  /** One event; None is the panic of a start without a frame counter. */
  function Step(s: Inspector, e: Event): Option<Inspector> {
    match e
    case Start(a) => if s.children == [] then None else Some(OnStart(s, a))
    case End(o) => Some(OnEnd(s, o))
    case Destroyed(a) => Some(OnDestroyed(s, a))
  }

  function Run(s: Inspector, events: seq<Event>): Option<Inspector>
    decreases |events|
  {
    if events == [] then Some(s)
    else match Step(s, events[0]) case None => None case Some(t) => Run(t, events[1..])
  }

  lemma {:induction false} RunAppend(s: Inspector, a: seq<Event>, b: seq<Event>)
    ensures Run(s, a + b) == match Run(s, a) case None => None case Some(t) => Run(t, b)
    decreases |a|
  {
    hide Step;
    if a == [] {
      assert a + b == b;
    } else {
      assert (a + b)[0] == a[0] && (a + b)[1..] == a[1..] + b;
      match Step(s, a[0])
      case None =>
      case Some(t) => RunAppend(t, a[1..], b);
    }
  }

  lemma RunOne(s: Inspector, e: Event)
    ensures Run(s, [e]) == Step(s, e)
  {
  }

  // ---------------------------------------------------------------- the call tree

  datatype Node = Frame(action: Action, kids: Nodes, outcome: Outcome) | Leaf(action: Action)

  datatype Nodes = Nil | Cons(head: Node, tail: Nodes)

  /** What the interpreter reports for a node: start, the kids' events, end; one event for a selfdestruct. */
  function Events(n: Node): seq<Event> {
    match n
    case Frame(a, kids, o) => [Start(a)] + EventsOf(kids) + [End(o)]
    case Leaf(a) => [Destroyed(a)]
  }

  function EventsOf(ns: Nodes): seq<Event> {
    match ns case Nil => [] case Cons(n, rest) => Events(n) + EventsOf(rest)
  }

  function Size(n: Node): nat { match n case Frame(_, kids, _) => 1 + SizeOf(kids) case Leaf(_) => 1 }

  function SizeOf(ns: Nodes): nat { match ns case Nil => 0 case Cons(n, rest) => Size(n) + SizeOf(rest) }

  function Count(ns: Nodes): nat { match ns case Nil => 0 case Cons(_, rest) => 1 + Count(rest) }

  /** The node's own trace, then its kids': each id is the parent's followed by the child's index. A frame's trace has
      its action and what its own outcome says; a selfdestruct's succeeded and created nothing. */
  function Number(n: Node, id: seq<nat>): seq<Trace> {
    match n
    case Frame(a, kids, o) =>
      [Trace(id, |id| % 0x1_0000, a, o.created, o.success, o.error)] + NumberOf(kids, id, 0)
    case Leaf(a) => [Trace(id, |id| % 0x1_0000, a, None, true, None)]
  }

  function NumberOf(ns: Nodes, path: seq<nat>, i: nat): seq<Trace> {
    match ns case Nil => [] case Cons(n, rest) => Number(n, path + [Min(i, 0xFFFF_FFFF)]) + NumberOf(rest, path, i + 1)
  }

  lemma {:induction false} NumberSize(n: Node, id: seq<nat>)
    ensures |Number(n, id)| == Size(n)
    decreases n
  {
    match n
    case Frame(_, kids, _) => NumberOfSize(kids, id, 0);
    case Leaf(_) =>
  }

  lemma {:induction false} NumberOfSize(ns: Nodes, path: seq<nat>, i: nat)
    ensures |NumberOf(ns, path, i)| == SizeOf(ns)
    decreases ns
  {
    match ns
    case Nil =>
    case Cons(n, rest) =>
      NumberSize(n, path + [Min(i, U32_MAX)]);
      NumberOfSize(rest, path, i + 1);
  }

  predicate Below(p: seq<nat>, traces: seq<Trace>) { forall t :: t in traces ==> p <= t.id }

  lemma {:induction false} NumberBelow(n: Node, id: seq<nat>)
    ensures Below(id, Number(n, id))
    decreases n
  {
    match n
    case Frame(_, kids, _) => NumberOfBelow(kids, id, 0);
    case Leaf(_) =>
  }

  lemma {:induction false} NumberOfBelow(ns: Nodes, path: seq<nat>, i: nat)
    ensures forall t :: t in NumberOf(ns, path, i) ==> path <= t.id && |path| < |t.id|
    decreases ns
  {
    match ns
    case Nil =>
    case Cons(n, rest) =>
      var id := path + [Min(i, U32_MAX)];
      NumberBelow(n, id);
      NumberOfBelow(rest, path, i + 1);
      forall t | t in NumberOf(ns, path, i) ensures path <= t.id && |path| < |t.id| {
        assert t in Number(n, id) || t in NumberOf(rest, path, i + 1);
      }
  }

  // ---------------------------------------------------------------- capturing

  /** `xs` captured after `traces` as far as the cap allows. */
  function Captured(traces: seq<Trace>, xs: seq<Trace>): seq<Trace> {
    traces + xs[..Min(|xs|, SatSub(MAX_TRACES, |traces|))]
  }

  lemma CapturedTwice(traces: seq<Trace>, xs: seq<Trace>, ys: seq<Trace>)
    ensures Captured(Captured(traces, xs), ys) == Captured(traces, xs + ys)
  {
  }

  lemma CapturedOne(traces: seq<Trace>, t: Trace)
    ensures Captured(traces, [t]) == Pushed(traces, t)
  {
  }

  predicate NoneBelow(traces: seq<Trace>, p: seq<nat>) { forall t :: t in traces ==> !(p <= t.id) }

  predicate UniqueIds(traces: seq<Trace>) { forall i, j :: 0 <= i < j < |traces| ==> traces[i].id != traces[j].id }

  lemma {:induction false} SettleNone(traces: seq<Trace>, id: seq<nat>, o: Outcome)
    requires forall t :: t in traces ==> t.id != id
    ensures Settle(traces, id, o) == traces
  {
    if traces != [] { SettleNone(Popped(traces), id, o); }
  }

  lemma {:induction false} SettleAt(a: seq<Trace>, t: Trace, b: seq<Trace>, o: Outcome)
    requires forall x :: x in b ==> x.id != t.id
    ensures Settle(a + [t] + b, t.id, o) == a + [Settled(t, o)] + b
    decreases |b|
  {
    var all := a + [t] + b;
    if b == [] {
      assert all == a + [t] && Popped(all) == a;
      assert a + [Settled(t, o)] + b == a + [Settled(t, o)];
    } else {
      assert Last(all) == Last(b) && Popped(all) == a + [t] + Popped(b);
      SettleAt(a, t, Popped(b), o);
      assert a + [Settled(t, o)] + Popped(b) + [Last(b)] == a + [Settled(t, o)] + b;
    }
  }

  /** Room for the trace below `path` with child number `i` on: none of theirs is captured yet, and either the cap is
      reached or the child number has not saturated. */
  ghost predicate Ready(traces: seq<Trace>, path: seq<nat>, i: nat) {
    && |traces| >= Min(MAX_TRACES, i)
    && forall j {:trigger path + [Min(j, U32_MAX)]} :: i <= j ==> NoneBelow(traces, path + [Min(j, U32_MAX)])
  }

  lemma ReadyNext(traces: seq<Trace>, path: seq<nat>, i: nat, n: Node)
    requires Ready(traces, path, i)
    ensures Ready(Captured(traces, Number(n, path + [Min(i, U32_MAX)])), path, i + 1)
  {
    var id := path + [Min(i, U32_MAX)];
    NumberBelow(n, id);
    NumberSize(n, id);
    var more := Captured(traces, Number(n, id));
    forall j {:trigger path + [Min(j, U32_MAX)]} | i + 1 <= j ensures NoneBelow(more, path + [Min(j, U32_MAX)]) {
      var q := path + [Min(j, U32_MAX)];
      assert NoneBelow(traces, q);
      if |traces| >= MAX_TRACES {
        assert more == traces;
      } else {
        assert i < MAX_TRACES;
        forall t | t in more ensures !(q <= t.id) {
          if t !in traces {
            assert t in Number(n, id) && id <= t.id;
            assert t.id[|path|] == i && q[|path|] != i;
          }
        }
      }
    }
  }

  lemma ReadyInside(traces: seq<Trace>, id: seq<nat>, a: Action)
    requires NoneBelow(traces, id)
    ensures Ready(Pushed(traces, Pending(id, a)), id, 0)
  {
  }

  // ---------------------------------------------------------------- the machine against the tree

  /** A state inside some frame. */
  predicate Inside(s: Inspector) { s.paths != [] && s.children != [] && s.total <= U32_MAX }

  /** The state after the node's events. */
  ghost predicate Ran(s: Inspector, n: Node, e: Option<Inspector>)
    requires Inside(s)
  {
    var id := Top(s.paths) + [Last(s.children)];
    && e.Some?
    && e.value == Inspector(Bumped(s.children), s.paths, Captured(s.traces, Number(n, id)),
                            SatAdd(s.total, Size(n), U32_MAX))
    && (UniqueIds(s.traces) ==> UniqueIds(e.value.traces))
  }

  ghost predicate RanAll(s: Inspector, ns: Nodes, i: nat, e: Option<Inspector>)
    requires Inside(s)
  {
    && e.Some?
    && e.value == Inspector(Popped(s.children) + [Min(i + Count(ns), U32_MAX)], s.paths,
                            Captured(s.traces, NumberOf(ns, Top(s.paths), i)), SatAdd(s.total, SizeOf(ns), U32_MAX))
    && (UniqueIds(s.traces) ==> UniqueIds(e.value.traces))
  }

  lemma {:induction false} RunNode(s: Inspector, n: Node)
    requires Inside(s) && NoneBelow(s.traces, Top(s.paths) + [Last(s.children)])
    ensures Ran(s, n, Run(s, Events(n)))
    decreases n
  {
    var id := Top(s.paths) + [Last(s.children)];
    match n
    case Leaf(a) =>
      RunOne(s, Destroyed(a));
      CapturedOne(s.traces, Destruction(id, a));
    case Frame(a, kids, o) =>
      hide Run, Number, NumberOf, Size, SizeOf, Ran, Captured;
      var started := OnStart(s, a);
      RunOne(s, Start(a));
      ReadyInside(s.traces, id, a);
      RunNodes(started, kids, 0);
      var middle := Run(started, EventsOf(kids)).value;
      RunOne(middle, End(o));
      RunAppend(s, [Start(a)], EventsOf(kids));
      RunAppend(s, [Start(a)] + EventsOf(kids), [End(o)]);
      FrameRan(s, a, kids, o, middle);
  }

  /** Ending the frame settles its own trace and leaves the frame's parent as it was. */
  lemma FrameRan(s: Inspector, a: Action, kids: Nodes, o: Outcome, middle: Inspector)
    requires Inside(s) && NoneBelow(s.traces, Top(s.paths) + [Last(s.children)])
    requires RanAll(OnStart(s, a), kids, 0, Some(middle))
    ensures Ran(s, Frame(a, kids, o), Some(OnEnd(middle, o)))
  {
    var id := Top(s.paths) + [Last(s.children)];
    var own := Pending(id, a);
    var rest := NumberOf(kids, id, 0);
    NumberOfBelow(kids, id, 0);
    assert Number(Frame(a, kids, o), id) == [Settled(own, o)] + rest;
    assert Size(Frame(a, kids, o)) == 1 + SizeOf(kids);
    hide NumberOf, Number, UniqueIds, SizeOf, Size, Captured, NoneBelow;
    assert middle.traces == Captured(Pushed(s.traces, own), rest);
    assert Popped(s.paths + [Some(id)]) == s.paths && Popped(Bumped(s.children) + [0]) == Bumped(s.children);
    SettleOwn(s.traces, own, rest, o);
    StartUnique(s.traces, own);
    SettleUnique(middle.traces, id, o);
  }

  lemma StartUnique(traces: seq<Trace>, own: Trace)
    requires NoneBelow(traces, own.id)
    ensures UniqueIds(traces) ==> UniqueIds(Pushed(traces, own))
  {
  }

  lemma {:induction false} SettleKeepsIds(traces: seq<Trace>, id: seq<nat>, o: Outcome, i: nat)
    requires i < |traces|
    ensures Settle(traces, id, o)[i].id == traces[i].id
  {
    if i < |traces| - 1 && Last(traces).id != id { SettleKeepsIds(Popped(traces), id, o, i); }
  }

  lemma SettleUnique(traces: seq<Trace>, id: seq<nat>, o: Outcome)
    ensures UniqueIds(traces) ==> UniqueIds(Settle(traces, id, o))
  {
    var r := Settle(traces, id, o);
    forall i | 0 <= i < |r| ensures r[i].id == traces[i].id { SettleKeepsIds(traces, id, o, i); }
  }

  lemma SettleOwn(traces: seq<Trace>, own: Trace, rest: seq<Trace>, o: Outcome)
    requires NoneBelow(traces, own.id)
    requires forall t :: t in rest ==> own.id <= t.id && |own.id| < |t.id|
    ensures Settle(Captured(Pushed(traces, own), rest), own.id, o) == Captured(traces, [Settled(own, o)] + rest)
  {
    if |traces| < MAX_TRACES {
      var kept := rest[..Min(|rest|, MAX_TRACES - |traces| - 1)];
      assert Captured(Pushed(traces, own), rest) == traces + [own] + kept;
      SettleAt(traces, own, kept, o);
      assert ([Settled(own, o)] + rest)[..|kept| + 1] == [Settled(own, o)] + kept;
      assert traces + [Settled(own, o)] + kept == traces + ([Settled(own, o)] + kept);
    } else {
      assert Captured(traces, rest) == traces;
      SettleNone(traces, own.id, o);
    }
  }

  lemma {:induction false} RunNodes(s: Inspector, ns: Nodes, i: nat)
    requires Inside(s) && Last(s.children) == Min(i, U32_MAX) && Ready(s.traces, Top(s.paths), i)
    ensures RanAll(s, ns, i, Run(s, EventsOf(ns)))
    decreases ns
  {
    match ns
    case Nil =>
      assert Popped(s.children) + [Last(s.children)] == s.children;
      assert s.traces + [] == s.traces;
    case Cons(n, rest) =>
      hide Run, Number, Captured, UniqueIds, Ready, NoneBelow, Size;
      var path := Top(s.paths);
      assert NoneBelow(s.traces, path + [Min(i, U32_MAX)]) by { ReadyHere(s.traces, path, i); }
      RunNode(s, n);
      var t := Run(s, Events(n)).value;
      ReadyNext(s.traces, path, i, n);
      assert Popped(t.children) == Popped(s.children);
      RunNodes(t, rest, i + 1);
      RunAppend(s, Events(n), EventsOf(rest));
      CapturedTwice(s.traces, Number(n, path + [Min(i, U32_MAX)]), NumberOf(rest, path, i + 1));
  }

  lemma ReadyHere(traces: seq<Trace>, path: seq<nat>, i: nat)
    requires Ready(traces, path, i)
    ensures NoneBelow(traces, path + [Min(i, U32_MAX)])
  {
  }

  /** A frame that starts inside another is captured as failed and pending until its end is reported; when the cap is
      reached it is only counted. */
  lemma StartCaptures(s: Inspector, a: Action)
    requires Inside(s)
    ensures var id := Top(s.paths) + [Last(s.children)];
            var e := OnStart(s, a);
            && e.traces == (if |s.traces| < 1024
                            then s.traces + [Trace(id, |id| % 0x1_0000, a, None, false, Some("pending"))] else s.traces)
            && e.total == (if s.total < 0xFFFF_FFFF then s.total + 1 else 0xFFFF_FFFF)
            && e.paths == s.paths + [Some(id)]
  {
  }

  /** `InternalTraceSet::new_with_counts` of a finished inspector. */
  function Truncated(s: Inspector): bool { s.total > Min(|s.traces|, U32_MAX) }

  /** For every call tree the inspector panics nowhere and ends with the recursive preorder of everything below the
      root: the first captured ones, each under its child-index path with its own outcome, no id twice; the count is
      that of all of them, and the truncation flag says whether some were not captured. */
  lemma InspectorIsPreorder(a: Action, kids: Nodes, o: Outcome)
    ensures var all := NumberOf(kids, [], 0);
            var e := Run(NEW, Events(Frame(a, kids, o)));
            && e.Some?
            && e.value.traces == all[..Min(|all|, 1024)]
            && e.value.total == Min(|all|, 0xFFFF_FFFF)
            && UniqueIds(e.value.traces)
            && (Truncated(e.value) <==> |all| > 1024)
            && e.value.paths == [] && e.value.children == [1]
  {
    var started := OnStart(NEW, a);
    RunOne(NEW, Start(a));
    assert started.children == [1, 0] && Popped(started.children) == [1];
    RunNodes(started, kids, 0);
    var middle := Run(started, EventsOf(kids)).value;
    RunOne(middle, End(o));
    RunAppend(NEW, [Start(a)], EventsOf(kids));
    RunAppend(NEW, [Start(a)] + EventsOf(kids), [End(o)]);
    NumberOfSize(kids, [], 0);
    assert Popped(middle.children) == [1];
    hide Run, NumberOf, EventsOf;
  }
}
