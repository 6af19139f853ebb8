// Signs and meanings (src/symbol.rs): a symbol is a token bound to a
// pattern; a meaning records the interpretation of a symbol at a recursion
// index tau. Both are immutable values.

module Symbols {
  import opened Text

  /** An opaque tag identifying a sign's shape; equal by value. */
  datatype Pattern = Pattern(tag: string)

  /** `Symbol::new(token, pattern)` is this constructor; equality compares
      the token and the pattern. */
  datatype Symbol = Symbol(token: string, pattern: Pattern)

  /** A meaning: the sign interpreted, the index `tau` (a `usize`) and a
      human-readable description. */
  datatype Meaning = Meaning(sign: Symbol, tau: nat, description: string)

  /** The marker `mutate` appends to a token. */
  const MutationMarker: char := '*'

  /** `Symbol::mutate`: a new symbol whose token is the old one with one
      marker appended and whose pattern is the same; the receiver is a value
      and so is left as it was. */
  function Mutate(s: Symbol): (m: Symbol)
    ensures |m.token| == |s.token| + 1
    ensures m.token[..|s.token|] == s.token && m.token[|s.token|] == MutationMarker
    ensures m.pattern == s.pattern
    ensures m != s
  {
    Symbol(s.token + [MutationMarker], s.pattern)
  }

  /** The original symbol can be read back from its mutation. */
  lemma MutateInjective(a: Symbol, b: Symbol)
    requires Mutate(a) == Mutate(b)
    ensures a == b
  {
    assert a.token == Mutate(a).token[..|a.token|];
    assert b.token == Mutate(b).token[..|b.token|];
  }

  /** The fixed text before the token in a description. */
  const DescriptionHead: string := "Interpretation of '"
  /** The fixed text between the token and the decimal tau. */
  const DescriptionMiddle: string := "' at \U{3C4}="

  /** `Meaning::from_symbol`: keeps the symbol and tau and describes them as
      `Interpretation of '<token>' at τ=<tau in decimal>`. */
  function FromSymbol(s: Symbol, tau: nat): (m: Meaning)
    ensures m.sign == s && m.tau == tau
    ensures m.description == DescriptionHead + s.token + DescriptionMiddle + DecimalString(tau)
  {
    Meaning(s, tau, DescriptionHead + s.token + DescriptionMiddle + DecimalString(tau))
  }

  /** Two interpretations of the same symbol at different indices are
      described differently. */
  lemma DistinctTauDistinctDescription(s: Symbol, t1: nat, t2: nat)
    requires t1 != t2
    ensures FromSymbol(s, t1).description != FromSymbol(s, t2).description
  {
    var p := DescriptionHead + s.token + DescriptionMiddle;
    DecimalStringInjective(t1, t2);
    assert FromSymbol(s, t1).description[|p|..] == DecimalString(t1);
    assert FromSymbol(s, t2).description[|p|..] == DecimalString(t2);
  }

  /** A description determines both the token and tau it was made from:
      tau is the digit run after the last `=`, the token what lies between
      the fixed texts. */
  lemma {:induction false} DescriptionDeterminesTokenAndTau(a: Symbol, t1: nat, b: Symbol, t2: nat)
    requires FromSymbol(a, t1).description == FromSymbol(b, t2).description
    ensures a.token == b.token && t1 == t2
  {
    var x := DescriptionHead + a.token + DescriptionMiddle;
    var y := DescriptionHead + b.token + DescriptionMiddle;
    var d1, d2 := DecimalString(t1), DecimalString(t2);
    var w := x + d1;
    assert w == y + d2;
    assert w[|w| - |d1| - 1] == '=' && w[|w| - |d2| - 1] == '=';
    assert forall i :: |w| - |d1| <= i < |w| ==> IsDigit(w[i]);
    assert forall i :: |w| - |d2| <= i < |w| ==> IsDigit(w[i]);
    assert d1 == w[|x|..] && d2 == w[|y|..];
    if t1 != t2 {
      DecimalStringInjective(t1, t2);
    }
    assert x == w[..|x|] && y == w[..|y|];
    assert a.token == x[|DescriptionHead|..|x| - |DescriptionMiddle|];
    assert b.token == y[|DescriptionHead|..|y| - |DescriptionMiddle|];
  }
}
