// The part of an agent that the tree and the symmetry analysis read
// (src/recursions.rs:94, src/symmetry.rs:7-8): `agent.memory.traces`, each
// trace with a stability and its history of interpretants. The rest of the
// agent (symbol table, admission, decay) is not part of this model.

/** Generic folds over sequences used by the tree operations. */
module Folds {
  /** `f` applied to every element, in order. */
  function Map<T, U>(s: seq<T>, f: T -> U): (r: seq<U>)
    ensures |r| == |s| && forall i :: 0 <= i < |s| ==> r[i] == f(s[i])
  {
    seq(|s|, i requires 0 <= i < |s| => f(s[i]))
  }

  /** The concatenation of a sequence of sequences. */
  function Flatten<T>(ss: seq<seq<T>>): seq<T>
  {
    if ss == [] then [] else ss[0] + Flatten(ss[1..])
  }

  /** Mapping each piece and then concatenating is mapping the
      concatenation. */
  lemma {:induction false} MapFlatten<T, U>(ss: seq<seq<T>>, mapped: seq<seq<U>>, f: T -> U)
    requires |mapped| == |ss| && forall j :: 0 <= j < |ss| ==> mapped[j] == Map(ss[j], f)
    ensures Flatten(mapped) == Map(Flatten(ss), f)
  {
    if ss != [] {
      MapFlatten(ss[1..], mapped[1..], f);
      assert Map(ss[0] + Flatten(ss[1..]), f) == Map(ss[0], f) + Map(Flatten(ss[1..]), f);
    }
  }

  /** Sum of `f` over a sequence, folded from the left. */
  function SumOf<T>(s: seq<T>, f: T -> real): real
  {
    if s == [] then 0.0 else f(s[0]) + SumOf(s[1..], f)
  }

  lemma {:induction false} SumOfAppend<T>(a: seq<T>, b: seq<T>, f: T -> real)
    ensures SumOf(a + b, f) == SumOf(a, f) + SumOf(b, f)
  {
    if a == [] {
      assert a + b == b;
    } else {
      assert (a + b)[1..] == a[1..] + b;
      SumOfAppend(a[1..], b, f);
    }
  }

  /** Taking out the element at `j` takes its term out of the sum. */
  lemma SumOfRemove<T>(b: seq<T>, j: nat, f: T -> real)
    requires j < |b|
    ensures SumOf(b, f) == f(b[j]) + SumOf(b[..j] + b[j + 1..], f)
  {
    assert b == b[..j] + [b[j]] + b[j + 1..];
    SumOfAppend(b[..j] + [b[j]], b[j + 1..], f);
    SumOfAppend(b[..j], [b[j]], f);
    SumOfAppend(b[..j], b[j + 1..], f);
    assert SumOf([b[j]], f) == f(b[j]) + SumOf([b[j]][1..], f);
  }

  /** Removing the first element of `a` and an equal element of `b` keeps
      the two multisets equal. */
  lemma RemoveMatching<T>(a: seq<T>, b: seq<T>, j: nat)
    requires multiset(a) == multiset(b) && a != [] && j < |b| && b[j] == a[0]
    ensures multiset(a[1..]) == multiset(b[..j] + b[j + 1..])
  {
    var x := a[0];
    assert a == [x] + a[1..];
    assert b == b[..j] + [x] + b[j + 1..];
    calc {
      multiset(a[1..]);
      multiset(a) - multiset{x};
      multiset(b) - multiset{x};
      multiset(b[..j] + [x] + b[j + 1..]) - multiset{x};
      multiset(b[..j] + b[j + 1..]);
    }
  }

  /** The sum does not depend on the order of the elements: a reduction in
      any order (as a parallel fan-in performs) gives the same value. */
  lemma {:induction false} SumOfPermutation<T>(a: seq<T>, b: seq<T>, f: T -> real)
    requires multiset(a) == multiset(b)
    ensures SumOf(a, f) == SumOf(b, f)
    decreases |a|
  {
    if a == [] {
      assert |b| == |multiset(b)| == 0;
    } else {
      var x := a[0];
      assert x in multiset(b);
      var j :| 0 <= j < |b| && b[j] == x;
      RemoveMatching(a, b, j);
      SumOfPermutation(a[1..], b[..j] + b[j + 1..], f);
      SumOfRemove(b, j, f);
    }
  }

  lemma {:induction false} SumOfBounds<T>(s: seq<T>, f: T -> real, bound: real)
    requires forall i :: 0 <= i < |s| ==> 0.0 <= f(s[i]) <= bound
    ensures 0.0 <= SumOf(s, f) <= bound * |s| as real
  {
    if s != [] {
      SumOfBounds(s[1..], f, bound);
    }
  }
}

module Agents {
  import opened Symbols
  import opened Folds

  /** A memory trace as far as it is read: its stability and the meanings
      appended to it, oldest first. */
  datatype MemoryTrace = MemoryTrace(stability: real, interpretants: seq<Meaning>)

  datatype MemoryField = MemoryField(traces: seq<MemoryTrace>)

  datatype Agent = Agent(memory: MemoryField)

  function TraceStability(t: MemoryTrace): real { t.stability }

  /** `agent.memory.traces.iter().map(|t| t.stability).sum()`. */
  function AgentStability(a: Agent): real
  {
    SumOf(a.memory.traces, TraceStability)
  }

  /** With every trace's stability in [0, 1] (the memory field's clamp), an
      agent's total stability lies between 0 and its number of traces. */
  lemma AgentStabilityBounds(a: Agent)
    requires forall i :: 0 <= i < |a.memory.traces| ==> 0.0 <= a.memory.traces[i].stability <= 1.0
    ensures 0.0 <= AgentStability(a) <= |a.memory.traces| as real
  {
    SumOfBounds(a.memory.traces, TraceStability, 1.0);
  }
}
