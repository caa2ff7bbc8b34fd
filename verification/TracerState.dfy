/** The inspector updated in place, each method equal to the step function of `Tracer`, and the text form of a trace
    id, which determines the id. */
module TracerState {
  import opened Common
  import opened T = Tracer

  class InternalTraceInspector {
    var frameChildren: seq<nat>
    var activePaths: seq<Option<seq<nat>>>
    var traces: seq<Trace>
    var totalCount: nat

    ghost function View(): T.Inspector
      reads this
    {
      T.Inspector(frameChildren, activePaths, traces, totalCount)
    }

    constructor ()
      ensures View() == NEW
    {
      frameChildren, activePaths, traces, totalCount := [0], [], [], 0;
    }

    /** The next id below the innermost frame; the frame's child counter moves on. */
    method AllocateEventTraceId() returns (id: seq<nat>)
      requires frameChildren != []
      modifies this`frameChildren
      ensures id == Top(activePaths) + [Last(old(frameChildren))]
      ensures frameChildren == Bumped(old(frameChildren))
    {
      var child := frameChildren[|frameChildren| - 1];
      frameChildren := frameChildren[|frameChildren| - 1 := SatAdd(child, 1, U32_MAX)];
      id := Top(activePaths) + [child];
    }

    method StartAction(a: Action)
      requires frameChildren != []
      modifies this
      ensures View() == OnStart(old(View()), a)
    {
      var id := AllocateEventTraceId();
      frameChildren := frameChildren + [0];
      if activePaths != [] {
        totalCount := SatAdd(totalCount, 1, U32_MAX);
        if |traces| < MAX_TRACES { traces := traces + [Pending(id, a)]; }
        activePaths := activePaths + [Some(id)];
        return;
      }
      activePaths := activePaths + [None];
    }

    method FinishAction(o: Outcome)
      modifies this
      ensures View() == OnEnd(old(View()), o)
    {
      var active := if activePaths == [] then None else activePaths[|activePaths| - 1];
      activePaths := Popped(activePaths);
      frameChildren := Popped(frameChildren);
      if active.Some? { SettleLast(active.value, o); }
    }

    /** `traces.iter_mut().rev().find(..)` and the update of what it finds. */
    method SettleLast(id: seq<nat>, o: Outcome)
      modifies this`traces
      ensures traces == Settle(old(traces), id, o)
    {
      var i := |traces|;
      while i > 0
        invariant 0 <= i <= |traces| && traces == old(traces)
        invariant forall j :: i <= j < |traces| ==> traces[j].id != id
      {
        i := i - 1;
        if traces[i].id == id {
          SettleIndex(traces, i, o);
          traces := traces[i := Settled(traces[i], o)];
          return;
        }
      }
      SettleNone(traces, id, o);
    }

    method RecordSelfdestruct(a: Action)
      modifies this
      ensures View() == OnDestroyed(old(View()), a)
    {
      if activePaths == [] || frameChildren == [] { return; }
      var id := AllocateEventTraceId();
      totalCount := SatAdd(totalCount, 1, U32_MAX);
      if |traces| < MAX_TRACES { traces := traces + [Destruction(id, a)]; }
    }
  }

  lemma SettleIndex(traces: seq<Trace>, i: nat, o: Outcome)
    requires i < |traces| && forall j :: i < j < |traces| ==> traces[j].id != traces[i].id
    ensures Settle(traces, traces[i].id, o) == traces[i := Settled(traces[i], o)]
  {
  }

  // ---------------------------------------------------------------- the text form of an id

  function Digit(d: nat): char
    requires d < 10
  {
    '0' + d as char
  }

  function Decimal(n: nat): string { if n < 10 then [Digit(n)] else Decimal(n / 10) + [Digit(n % 10)] }

  function Rendered(id: seq<nat>): string {
    if id == [] then ""
    else if |id| == 1 then Decimal(id[0])
    else Rendered(id[..|id| - 1]) + "_" + Decimal(id[|id| - 1])
  }

  /** `render_trace_id` */
  method RenderTraceId(id: seq<nat>) returns (out: string)
    ensures out == Rendered(id)
  {
    out := "";
    for i := 0 to |id|
      invariant out == Rendered(id[..i])
    {
      assert id[..i + 1][..i] == id[..i];
      if i > 0 { out := out + "_"; }
      out := out + Decimal(id[i]);
    }
    assert id[..|id|] == id;
  }

  predicate Digits(s: string) { forall i :: 0 <= i < |s| ==> '0' <= s[i] <= '9' }

  /** The number a text of decimal digits stands for. */
  function Read(s: string): nat
    requires Digits(s)
  {
    if s == "" then 0 else Read(s[..|s| - 1]) * 10 + (s[|s| - 1] as nat - '0' as nat)
  }

  /** The decimal text is made of digits, stands for the number, and starts with a zero only for zero. */
  lemma {:induction false} DecimalReads(n: nat)
    ensures var s := Decimal(n); s != "" && Digits(s) && Read(s) == n && (s[0] == '0' ==> n == 0)
  {
    if n >= 10 {
      DecimalReads(n / 10);
      var s := Decimal(n);
      assert s[..|s| - 1] == Decimal(n / 10);
    } else {
      assert Decimal(n)[..0] == "";
    }
  }

  /** A parent's text and its child's index, with a bar between. */
  lemma RenderExtends(id: seq<nat>, child: nat)
    requires id != []
    ensures Rendered(id + [child]) == Rendered(id) + "_" + Decimal(child) && Rendered([child]) == Decimal(child)
  {
    assert (id + [child])[..|id|] == id;
  }

  lemma {:induction false} DecimalHasNoBar(n: nat)
    ensures '_' !in Decimal(n) && |Decimal(n)| > 0
  {
    if n >= 10 { DecimalHasNoBar(n / 10); }
  }

  lemma {:induction false} DecimalInjective(a: nat, b: nat)
    requires Decimal(a) == Decimal(b)
    ensures a == b
  {
    var s, t := Decimal(a), Decimal(b);
    assert s[|s| - 1] == t[|t| - 1];
    if a >= 10 && b >= 10 {
      assert s[..|s| - 1] == Decimal(a / 10) && t[..|t| - 1] == Decimal(b / 10);
      DecimalInjective(a / 10, b / 10);
    } else {
      DecimalHasNoBar(a / 10);
      DecimalHasNoBar(b / 10);
    }
  }

  lemma LastChar(x: string, d: string)
    ensures var s := x + "_" + d; s[|s| - 1] == (if d == [] then '_' else d[|d| - 1])
  {
  }

  /** The part after the last separator and the part before it are determined by the whole. */
  lemma {:induction false} SplitAtLast(x: string, d: string, y: string, e: string)
    requires x + "_" + d == y + "_" + e && '_' !in d && '_' !in e
    ensures x == y && d == e
    decreases |d|
  {
    var s, t := x + "_" + d, y + "_" + e;
    LastChar(x, d);
    LastChar(y, e);
    assert d == [] <==> e == [];
    if d == [] {
      assert s[..|s| - 1] == x && t[..|t| - 1] == y;
    } else {
      assert s[..|s| - 1] == x + "_" + d[..|d| - 1] && t[..|t| - 1] == y + "_" + e[..|e| - 1];
      SplitAtLast(x, d[..|d| - 1], y, e[..|e| - 1]);
      assert d == d[..|d| - 1] + [d[|d| - 1]] && e == e[..|e| - 1] + [e[|e| - 1]];
    }
  }

  /** The text is empty exactly for the empty id and has a separator exactly when the id has more than one part. */
  lemma RenderShape(a: seq<nat>)
    ensures Rendered(a) == "" <==> a == []
    ensures '_' in Rendered(a) <==> |a| > 1
  {
    if a != [] { DecimalHasNoBar(a[|a| - 1]); }
  }

  /** Two trace ids with the same text are the same id. */
  lemma {:induction false} RenderInjective(a: seq<nat>, b: seq<nat>)
    requires Rendered(a) == Rendered(b)
    ensures a == b
    decreases |a|
  {
    RenderShape(a);
    RenderShape(b);
    if |a| == 1 {
      DecimalInjective(a[0], b[0]);
    } else if |a| > 1 {
      var m, n := a[|a| - 1], b[|b| - 1];
      DecimalHasNoBar(m);
      DecimalHasNoBar(n);
      SplitAtLast(Rendered(a[..|a| - 1]), Decimal(m), Rendered(b[..|b| - 1]), Decimal(n));
      DecimalInjective(m, n);
      RenderInjective(a[..|a| - 1], b[..|b| - 1]);
      assert a == a[..|a| - 1] + [m] && b == b[..|b| - 1] + [n];
    }
  }
}
