// Symmetry, attractor and differentiation detection (src/symmetry.rs):
// read-only searches over an agent's traces and the descriptions of their
// most recent interpretants.

module Symmetry {
  import opened Symbols
  import opened Agents

  /** A trace is mature for `window` when it holds at least `window + 1`
      interpretants. */
  predicate Mature(t: MemoryTrace, window: nat) {
    |t.interpretants| >= window + 1
  }

  /** The last `window` descriptions of a mature trace are all equal to the
      first of them. */
  predicate WindowStable(t: MemoryTrace, window: nat)
    requires window >= 1 && Mature(t, window)
  {
    var h := t.interpretants;
    forall j :: |h| - window <= j < |h| ==> h[j].description == h[|h| - window].description
  }

  /** Two consecutive descriptions among the last `window` of a mature trace
      differ. */
  predicate WindowChanges(t: MemoryTrace, window: nat)
    requires Mature(t, window)
  {
    var h := t.interpretants;
    exists j :: |h| - window <= j < |h| - 1 && h[j].description != h[j + 1].description
  }

  /** Every trace is mature and stable over the window; one immature trace
      vetoes the whole agent. */
  predicate Symmetric(a: Agent, window: nat)
    requires window >= 1
  {
    forall t :: t in a.memory.traces ==> Mature(t, window) && WindowStable(t, window)
  }

  /** Some mature trace changes within the window; immature traces are
      skipped. */
  predicate Differentiating(a: Agent, window: nat)
  {
    exists t :: t in a.memory.traces && Mature(t, window) && WindowChanges(t, window)
  }

  /** `detect_symmetry`: walks the traces, failing on the first one that is
      immature or whose window holds a description different from the
      window's first. A window of 0 panics in the source (`last[0]` on an
      empty slice), hence the precondition. */
  method DetectSymmetry(agent: Agent, window: nat) returns (r: bool)
    requires window >= 1
    ensures r == Symmetric(agent, window)
  {
    var traces := agent.memory.traces;
    var k := 0;
    while k < |traces|
      invariant 0 <= k <= |traces|
      invariant forall i :: 0 <= i < k ==> Mature(traces[i], window) && WindowStable(traces[i], window)
    {
      var meanings := traces[k].interpretants;
      if |meanings| < window + 1 {
        assert traces[k] in traces;
        return false;
      }
      var last := meanings[|meanings| - window..];
      var firstDesc := last[0].description;
      var j := 0;
      while j < |last|
        invariant 0 <= j <= |last|
        invariant forall i :: 0 <= i < j ==> last[i].description == firstDesc
      {
        if last[j].description != firstDesc {
          assert meanings[|meanings| - window + j] == last[j];
          assert !WindowStable(traces[k], window);
          assert traces[k] in traces;
          return false;
        }
        j := j + 1;
      }
      assert WindowStable(traces[k], window) by {
        forall m | |meanings| - window <= m < |meanings|
          ensures meanings[m].description == meanings[|meanings| - window].description
        {
          assert meanings[m] == last[m - (|meanings| - window)];
        }
      }
      k := k + 1;
    }
    return true;
  }

  /** `detect_differentiation`: skips immature traces and reports the first
      consecutive pair of differing descriptions within a window. */
  method DetectDifferentiation(agent: Agent, window: nat) returns (r: bool)
    requires window >= 1
    ensures r == Differentiating(agent, window)
  {
    var traces := agent.memory.traces;
    var k := 0;
    while k < |traces|
      invariant 0 <= k <= |traces|
      invariant forall i :: 0 <= i < k ==> !(Mature(traces[i], window) && WindowChanges(traces[i], window))
    {
      var meanings := traces[k].interpretants;
      if |meanings| < window + 1 {
        k := k + 1;
        continue;
      }
      var start := |meanings| - window;
      var last := meanings[start..];
      var prev := last[0];
      var j := 1;
      while j < |last|
        invariant 1 <= j <= |last|
        invariant prev == last[j - 1]
        invariant forall i :: start <= i < start + j - 1 ==> meanings[i].description == meanings[i + 1].description
      {
        var m := last[j];
        if m.description != prev.description {
          assert meanings[start + j - 1].description != meanings[start + j].description;
          assert WindowChanges(traces[k], window);
          return true;
        }
        prev := m;
        j := j + 1;
      }
      k := k + 1;
    }
    return false;
  }

  /** `detect_attractor` is `detect_symmetry` under another name. */
  method DetectAttractor(agent: Agent, window: nat) returns (r: bool)
    requires window >= 1
    ensures r == Symmetric(agent, window)
  {
    r := DetectSymmetry(agent, window);
  }

  lemma NoTracesSymmetricNotDifferentiating(a: Agent, window: nat)
    requires window >= 1 && a.memory.traces == []
    ensures Symmetric(a, window) && !Differentiating(a, window)
  {
  }

  lemma ImmatureTraceVetoesSymmetry(a: Agent, window: nat, t: MemoryTrace)
    requires window >= 1 && t in a.memory.traces && !Mature(t, window)
    ensures !Symmetric(a, window)
  {
  }

  /** Over a window, "all equal to the first" and "no consecutive pair
      differs" say the same thing. */
  lemma {:induction false} StableIffNoChange(t: MemoryTrace, window: nat)
    requires window >= 1 && Mature(t, window)
    ensures WindowStable(t, window) <==> !WindowChanges(t, window)
  {
    var h := t.interpretants;
    var s := |h| - window;
    if !WindowChanges(t, window) {
      forall j | s <= j < |h|
        ensures h[j].description == h[s].description
      {
        ConsecutiveEqualChain(h, s, j);
      }
    }
    if WindowStable(t, window) {
      forall j | s <= j < |h| - 1
        ensures h[j].description == h[j + 1].description
      {
        assert h[j].description == h[s].description;
        assert h[j + 1].description == h[s].description;
      }
    }
  }

  lemma {:induction false} ConsecutiveEqualChain(h: seq<Meaning>, s: nat, j: nat)
    requires s <= j < |h|
    requires forall i :: s <= i < j ==> h[i].description == h[i + 1].description
    ensures h[j].description == h[s].description
    decreases j - s
  {
    if j > s {
      ConsecutiveEqualChain(h, s, j - 1);
    }
  }

  /** When every trace is mature, the agent is differentiating exactly when
      it is not symmetric. */
  lemma {:induction false} AllMatureDichotomy(a: Agent, window: nat)
    requires window >= 1
    requires forall t :: t in a.memory.traces ==> Mature(t, window)
    ensures Differentiating(a, window) <==> !Symmetric(a, window)
  {
    forall t | t in a.memory.traces
      ensures WindowStable(t, window) <==> !WindowChanges(t, window)
    {
      StableIffNoChange(t, window);
    }
  }

  /** Two traces whose interpretants have the same descriptions, position
      by position. */
  predicate SameDescriptions(x: MemoryTrace, y: MemoryTrace) {
    |x.interpretants| == |y.interpretants|
    && forall i :: 0 <= i < |x.interpretants| ==> x.interpretants[i].description == y.interpretants[i].description
  }

  lemma SameDescriptionsSameWindow(x: MemoryTrace, y: MemoryTrace, window: nat)
    requires window >= 1 && SameDescriptions(x, y)
    ensures Mature(x, window) == Mature(y, window)
    ensures Mature(x, window) ==> WindowStable(x, window) == WindowStable(y, window)
    ensures Mature(x, window) ==> WindowChanges(x, window) == WindowChanges(y, window)
  {
  }

  /** Only descriptions are compared: two agents whose traces carry the same
      description histories (whatever their signs, taus and stabilities)
      get the same answers. */
  lemma SameDescriptionsSameAnswers(a: Agent, b: Agent, window: nat)
    requires window >= 1
    requires |a.memory.traces| == |b.memory.traces|
    requires forall k :: 0 <= k < |a.memory.traces| ==> SameDescriptions(a.memory.traces[k], b.memory.traces[k])
    ensures Symmetric(a, window) == Symmetric(b, window)
    ensures Differentiating(a, window) == Differentiating(b, window)
  {
    var ta, tb := a.memory.traces, b.memory.traces;
    if Symmetric(a, window) {
      forall t | t in tb ensures Mature(t, window) && WindowStable(t, window) {
        var k :| 0 <= k < |tb| && tb[k] == t;
        assert ta[k] in ta;
        SameDescriptionsSameWindow(ta[k], tb[k], window);
      }
    }
    if Symmetric(b, window) {
      forall t | t in ta ensures Mature(t, window) && WindowStable(t, window) {
        var k :| 0 <= k < |ta| && ta[k] == t;
        assert tb[k] in tb;
        SameDescriptionsSameWindow(ta[k], tb[k], window);
      }
    }
    if Differentiating(a, window) {
      var t :| t in ta && Mature(t, window) && WindowChanges(t, window);
      var k :| 0 <= k < |ta| && ta[k] == t;
      assert tb[k] in tb;
      SameDescriptionsSameWindow(ta[k], tb[k], window);
    }
    if Differentiating(b, window) {
      var t :| t in tb && Mature(t, window) && WindowChanges(t, window);
      var k :| 0 <= k < |tb| && tb[k] == t;
      assert ta[k] in ta;
      SameDescriptionsSameWindow(ta[k], tb[k], window);
    }
  }

  /** Descriptions embed tau, so a mature trace whose last two interpretants
      come from the same symbol at different indices is never stable, and an
      agent holding it is not in an attractor state. */
  lemma RecentTausDifferBreakSymmetry(a: Agent, window: nat, t: MemoryTrace, s: Symbol, t1: nat, t2: nat)
    requires window >= 2 && t in a.memory.traces && Mature(t, window)
    requires t1 != t2
    requires t.interpretants[|t.interpretants| - 2] == FromSymbol(s, t1)
    requires t.interpretants[|t.interpretants| - 1] == FromSymbol(s, t2)
    ensures !Symmetric(a, window)
  {
    DistinctTauDistinctDescription(s, t1, t2);
  }
}
