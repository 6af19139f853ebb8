// The statement-oriented front-end (src/sptl/mod.rs): a whitespace
// tokenizer and a recursive-descent parser that walks the token list with a
// cursor. Each parser step is specified as a function of the token list and
// the cursor position: it yields a value, or fails, together with the
// position the cursor has reached.

module Sptl {
  import opened Options
  import opened Text

  /** One statement of the language. The `f64` fields are reals, the
      `usize` fields naturals. */
  datatype Statement =
    | Field(name: string, size: nat)
    | Interpretation(name: string, values: seq<real>)
    | Project(target: string, interp: string, alpha: real, noise: real, steps: nat)
    | TraceDistance(name: string, field: string, interp: string)
    | Meaning(name: string, traceCmp: string, threshold: real)
    | NarrateReturn(tokens: seq<string>)
    | LogCoherence(field: string)
    | LogMeaning(name: string)
    | ExpressSymbol(token: string, intoField: string)
    | Modulate(token: string, intensity: real)

  // ---------------------------------------------------------------------
  // Tokenizer

  /** The characters `tokenize` trims from both ends of every word. */
  const TokenTrim: set<char> := {'"', ',', '[', ']'}

  /** A token as `tokenize` leaves it: empty, or neither end trimmable. */
  predicate Trimmed(t: string) {
    t == [] || (t[0] !in TokenTrim && t[|t| - 1] !in TokenTrim)
  }

  /** One word with the characters of `TokenTrim` removed from both ends. */
  function TrimToken(w: string): (t: string)
    ensures Trimmed(t)
  {
    TrimChars(w, TokenTrim)
  }

  /** `Tokenizer::tokenize`: one token per whitespace-separated word, with
      the characters of `TokenTrim` removed from both ends. */
  function Tokenize(input: string): (r: seq<string>)
    ensures |r| == |SplitWhitespace(input)|
    ensures forall k :: 0 <= k < |r| ==> Trimmed(r[k])
  {
    var words := SplitWhitespace(input);
    seq(|words|, k requires 0 <= k < |words| => TrimToken(words[k]))
  }

  /** The characters the evidently intended tokenizer cuts out as tokens
      of their own. */
  const Punctuation: set<char> := {'[', ']', ','}

  /** A token the intended tokenizer leaves whole: one punctuation
      character, or a non-empty text without any. */
  predicate Atomic(t: string) {
    (|t| == 1 && t[0] in Punctuation)
    || (t != [] && forall i :: 0 <= i < |t| ==> t[i] !in Punctuation)
  }

  /** Length of the run of characters other than punctuation at the start
      of `w`. */
  function PlainRun(w: string): (n: nat)
    ensures n <= |w|
    ensures forall i :: 0 <= i < n ==> w[i] !in Punctuation
    ensures n < |w| ==> w[n] in Punctuation
  {
    if w == [] || w[0] in Punctuation then 0 else 1 + PlainRun(w[1..])
  }

  /** `w` cut into its punctuation characters and the runs between them. */
  function Pieces(w: string): (r: seq<string>)
    ensures forall k :: 0 <= k < |r| ==> Atomic(r[k])
    decreases |w|
  {
    if w == [] then []
    else if w[0] in Punctuation then [[w[0]]] + Pieces(w[1..])
    else
      var n := PlainRun(w);
      [w[..n]] + Pieces(w[n..])
  }

  function SplitAll(words: seq<string>): (r: seq<string>)
    ensures forall k :: 0 <= k < |r| ==> Atomic(r[k])
  {
    if words == [] then [] else Pieces(words[0]) + SplitAll(words[1..])
  }

  /** The tokenizer as evidently intended: the whitespace-separated words
      with `[`, `]` and `,` cut out as tokens of their own, and `"` kept
      for the quoted-token loop of `narratereturn`. */
  function TokenizeIntended(input: string): (r: seq<string>)
    ensures forall k :: 0 <= k < |r| ==> Atomic(r[k])
  {
    SplitAll(SplitWhitespace(input))
  }

  // ---------------------------------------------------------------------
  // Parser steps

  /** The outcome of a parser step: a value and the cursor after it, or a
      failure and the cursor where it happened. The `:-` operator threads
      it like the `?` operator of the source. */
  datatype Res<T> = Ok(value: T, pos: nat) | Fail(pos: nat)
  {
    predicate IsFailure() { Fail? }

    function PropagateFailure<U>(): Res<U>
      requires Fail?
    {
      Fail(pos)
    }

    function Extract(): (T, nat)
      requires Ok?
    {
      (value, pos)
    }
  }

  /** An optional result of a method, paired with the cursor it leaves. */
  function AsRes<T>(o: Option<T>, pos: nat): (r: Res<T>)
    ensures r.pos == pos && (r.Ok? <==> o.Some?)
    ensures r.Ok? ==> r.value == o.value
  {
    match o
    case Some(v) => Ok(v, pos)
    case None => Fail(pos)
  }

  /** `next`: the token at the cursor, which advances by one; nothing, and
      the cursor unchanged, at the end. */
  function NextAt(ts: seq<string>, p: nat): (r: Res<string>)
    requires p <= |ts|
    ensures r.Ok? <==> p < |ts|
    ensures r.Ok? ==> r.value == ts[p] && r.pos == p + 1
    ensures r.Fail? ==> r.pos == p
  {
    if p < |ts| then Ok(ts[p], p + 1) else Fail(p)
  }

  /** `expect`: consumes one token and succeeds when it equals `expected`
      up to case. */
  function ExpectAt(ts: seq<string>, p: nat, expected: string): (r: Res<()>)
    requires p <= |ts|
    ensures r.Ok? <==> p < |ts| && ToLower(ts[p]) == ToLower(expected)
    ensures r.pos == if p < |ts| then p + 1 else p
  {
    var t :- NextAt(ts, p);
    if ToLower(t.0) == ToLower(expected) then Ok((), t.1) else Fail(t.1)
  }

  /** `next()?.parse::<f64>().ok()?`: consumes one token, which must read as
      a float. */
  function NumberAt(ts: seq<string>, p: nat): (r: Res<real>)
    requires p <= |ts|
    ensures r.Ok? <==> p < |ts| && ParseFloat(ts[p]).Some?
    ensures r.Ok? ==> r.value == ParseFloat(ts[p]).value
    ensures r.pos == if p < |ts| then p + 1 else p
  {
    var t :- NextAt(ts, p);
    match ParseFloat(t.0)
    case Some(v) => Ok(v, t.1)
    case None => Fail(t.1)
  }

  /** `next()?.parse::<usize>().ok()?` on a 64-bit target. */
  function SizeAt(ts: seq<string>, p: nat): (r: Res<nat>)
    requires p <= |ts|
    ensures r.Ok? <==> p < |ts| && ParseUnsigned(ts[p], U64Max).Some?
    ensures r.Ok? ==> r.value == ParseUnsigned(ts[p], U64Max).value && r.value <= U64Max
    ensures r.pos == if p < |ts| then p + 1 else p
  {
    var t :- NextAt(ts, p);
    match ParseUnsigned(t.0, U64Max)
    case Some(n) => Ok(n, t.1)
    case None => Fail(t.1)
  }

  /** `expect_value`: a token starting with `prefix`, then a token that
      reads as a float. A token without the prefix is consumed all the
      same. */
  function LabelledAt(ts: seq<string>, p: nat, prefix: string): (r: Res<real>)
    requires p <= |ts|
    ensures r.Ok? <==> p + 1 < |ts| && StartsWith(ts[p], prefix) && ParseFloat(ts[p + 1]).Some?
    ensures r.Ok? ==> r.value == ParseFloat(ts[p + 1]).value && r.pos == p + 2
    ensures p <= r.pos <= |ts|
  {
    var l :- NextAt(ts, p);
    if !StartsWith(l.0, prefix) then Fail(l.1) else NumberAt(ts, l.1)
  }

  /** Rust's `f64 as usize` on a 64-bit target: truncation towards zero,
      saturating at both ends of the range. */
  function CastToUsize(v: real): (n: nat)
    ensures n <= U64Max
    ensures v < 1.0 ==> n == 0
    ensures 1.0 <= v < U64Max as real ==> n as real <= v < n as real + 1.0
    ensures v >= U64Max as real ==> n == U64Max
  {
    if v < 1.0 then 0 else if v.Floor >= U64Max then U64Max else v.Floor
  }

  /** The value loop of `interpretation`: float tokens are collected until a
      `]`, which is consumed, or a token that is not a float, which is not;
      running out of tokens also ends it. */
  function ValuesAt(ts: seq<string>, p: nat): (r: (seq<real>, nat))
    requires p <= |ts|
    ensures p <= r.1 <= |ts|
    decreases |ts| - p
  {
    if p == |ts| then ([], p)
    else if ts[p] == "]" then ([], p + 1)
    else match ParseFloat(ts[p])
      case None => ([], p)
      case Some(v) =>
        var more := ValuesAt(ts, p + 1);
        ([v] + more.0, more.1)
  }

  /** `str::starts_with('"')`. */
  predicate Quoted(t: string) {
    t != [] && t[0] == '"'
  }

  /** The loop of `narratereturn`: tokens starting with `"` are collected,
      with every leading and trailing `"` removed, up to the first token
      that does not start with one. */
  function QuotedAt(ts: seq<string>, p: nat): (r: (seq<string>, nat))
    requires p <= |ts|
    ensures r.1 == p + |r.0| <= |ts|
    ensures r.1 < |ts| ==> !Quoted(ts[r.1])
    decreases |ts| - p
  {
    if p < |ts| && Quoted(ts[p]) then
      var more := QuotedAt(ts, p + 1);
      ([TrimChars(ts[p], {'"'})] + more.0, more.1)
    else ([], p)
  }

  // ---------------------------------------------------------------------
  // Statements, each read from the position after its keyword

  function FieldAt(ts: seq<string>, p: nat): (r: Res<Statement>)
    requires p <= |ts|
    ensures p <= r.pos <= |ts|
    ensures r.Ok? ==> r.value.Field?
  {
    var name :- NextAt(ts, p);
    var size :- SizeAt(ts, name.1);
    Ok(Field(name.0, size.0), size.1)
  }

  function InterpretationAt(ts: seq<string>, p: nat): (r: Res<Statement>)
    requires p <= |ts|
    ensures p <= r.pos <= |ts|
    ensures r.Ok? ==> r.value.Interpretation?
  {
    var name :- NextAt(ts, p);
    var eq :- ExpectAt(ts, name.1, "=");
    var open :- ExpectAt(ts, eq.1, "[");
    var values := ValuesAt(ts, open.1);
    Ok(Interpretation(name.0, values.0), values.1)
  }

  function ProjectAt(ts: seq<string>, p: nat): (r: Res<Statement>)
    requires p <= |ts|
    ensures p <= r.pos <= |ts|
    ensures r.Ok? ==> r.value.Project?
  {
    var target :- NextAt(ts, p);
    var arrow :- ExpectAt(ts, target.1, "<-");
    var interp :- NextAt(ts, arrow.1);
    var open :- ExpectAt(ts, interp.1, "{");
    var alpha :- LabelledAt(ts, open.1, "alpha:");
    var noise :- LabelledAt(ts, alpha.1, "noise:");
    var steps :- LabelledAt(ts, noise.1, "steps:");
    var close :- ExpectAt(ts, steps.1, "}");
    Ok(Project(target.0, interp.0, alpha.0, noise.0, CastToUsize(steps.0)), close.1)
  }

  /** `trace`: the function name between `=` and `(` is read and dropped. */
  function TraceAt(ts: seq<string>, p: nat): (r: Res<Statement>)
    requires p <= |ts|
    ensures p <= r.pos <= |ts|
    ensures r.Ok? ==> r.value.TraceDistance?
  {
    var name :- NextAt(ts, p);
    var eq :- ExpectAt(ts, name.1, "=");
    var func :- NextAt(ts, eq.1);
    var open :- ExpectAt(ts, func.1, "(");
    var field :- NextAt(ts, open.1);
    var comma :- ExpectAt(ts, field.1, ",");
    var interp :- NextAt(ts, comma.1);
    var close :- ExpectAt(ts, interp.1, ")");
    Ok(TraceDistance(name.0, field.0, interp.0), close.1)
  }

  /** `meaning`: like `trace`, with a float threshold as second argument. */
  function MeaningAt(ts: seq<string>, p: nat): (r: Res<Statement>)
    requires p <= |ts|
    ensures p <= r.pos <= |ts|
    ensures r.Ok? ==> r.value.Meaning?
  {
    var name :- NextAt(ts, p);
    var eq :- ExpectAt(ts, name.1, "=");
    var func :- NextAt(ts, eq.1);
    var open :- ExpectAt(ts, func.1, "(");
    var traceCmp :- NextAt(ts, open.1);
    var comma :- ExpectAt(ts, traceCmp.1, ",");
    var threshold :- NumberAt(ts, comma.1);
    var close :- ExpectAt(ts, threshold.1, ")");
    Ok(Meaning(name.0, traceCmp.0, threshold.0), close.1)
  }

  /** `narratereturn` never fails: it takes what the quoted-token loop
      collects, possibly nothing. */
  function NarrateReturnAt(ts: seq<string>, p: nat): (r: Res<Statement>)
    requires p <= |ts|
    ensures p <= r.pos <= |ts|
    ensures r.Ok? && r.value.NarrateReturn?
  {
    var quoted := QuotedAt(ts, p);
    Ok(NarrateReturn(quoted.0), quoted.1)
  }

  /** `logcoherence` and `logmeaning`: one word, any word. */
  function OneWordAt(ts: seq<string>, p: nat, coherence: bool): (r: Res<Statement>)
    requires p <= |ts|
    ensures p <= r.pos <= |ts|
    ensures r.Ok? <==> p < |ts|
    ensures r.Ok? ==> r.value == (if coherence then LogCoherence(ts[p]) else LogMeaning(ts[p]))
  {
    var word :- NextAt(ts, p);
    Ok(if coherence then LogCoherence(word.0) else LogMeaning(word.0), word.1)
  }

  /** `expresssymbol`: the word between the symbol and the field is
      skipped, whatever it is. */
  function ExpressSymbolAt(ts: seq<string>, p: nat): (r: Res<Statement>)
    requires p <= |ts|
    ensures p <= r.pos <= |ts|
    ensures r.Ok? ==> r.value.ExpressSymbol?
  {
    var token :- NextAt(ts, p);
    var skipped :- NextAt(ts, token.1);
    var field :- NextAt(ts, skipped.1);
    Ok(ExpressSymbol(token.0, field.0), field.1)
  }

  /** `modulate`: the word between the symbol and the value is skipped. */
  function ModulateAt(ts: seq<string>, p: nat): (r: Res<Statement>)
    requires p <= |ts|
    ensures p <= r.pos <= |ts|
    ensures r.Ok? ==> r.value.Modulate?
  {
    var token :- NextAt(ts, p);
    var skipped :- NextAt(ts, token.1);
    var intensity :- NumberAt(ts, skipped.1);
    Ok(Modulate(token.0, intensity.0), intensity.1)
  }

  /** The keywords, in lower case. */
  const Keywords: set<string> := {"field", "interpretation", "project", "trace", "meaning",
    "narratereturn", "logcoherence", "logmeaning", "expresssymbol", "modulate"}

  /** `parse_statement`: the token at the cursor, lower-cased, selects the
      statement; any other word fails after being consumed. */
  function StatementAt(ts: seq<string>, p: nat): (r: Res<Statement>)
    requires p <= |ts|
    ensures p <= r.pos <= |ts|
    ensures p < |ts| ==> p < r.pos
    ensures p < |ts| && ToLower(ts[p]) !in Keywords ==> r == Fail(p + 1)
  {
    var t :- NextAt(ts, p);
    var keyword := ToLower(t.0);
    var q := t.1;
    if keyword == "field" then FieldAt(ts, q)
    else if keyword == "interpretation" then InterpretationAt(ts, q)
    else if keyword == "project" then ProjectAt(ts, q)
    else if keyword == "trace" then TraceAt(ts, q)
    else if keyword == "meaning" then MeaningAt(ts, q)
    else if keyword == "narratereturn" then NarrateReturnAt(ts, q)
    else if keyword == "logcoherence" then OneWordAt(ts, q, true)
    else if keyword == "logmeaning" then OneWordAt(ts, q, false)
    else if keyword == "expresssymbol" then ExpressSymbolAt(ts, q)
    else if keyword == "modulate" then ModulateAt(ts, q)
    else Fail(q)
  }

  /** `parse`: statements one after another while tokens remain, up to the
      first that fails; the statements so far and where the cursor
      stopped. */
  function ParseAll(ts: seq<string>, p: nat): (r: (seq<Statement>, nat))
    requires p <= |ts|
    ensures p <= r.1 <= |ts|
    decreases |ts| - p
  {
    if p == |ts| then ([], p)
    else match StatementAt(ts, p)
      case Fail(q) => ([], q)
      case Ok(s, q) =>
        var more := ParseAll(ts, q);
        ([s] + more.0, more.1)
  }
}

/** The parser object of the source: the token list and a cursor into it,
    which every step advances. Each method is proved against the function
    of module `Sptl` that specifies it. */
module SptlMethods {
  import opened Options
  import opened Text
  import opened Sptl

  class Parser {
    var tokens: seq<string>
    var cursor: nat

    predicate Valid()
      reads this
    {
      cursor <= |tokens|
    }

    /** `Parser::new`: the cursor starts at the first token. */
    constructor (tokens: seq<string>)
      ensures this.tokens == tokens && cursor == 0 && Valid()
    {
      this.tokens := tokens;
      cursor := 0;
    }

    /** `peek`: the token at the cursor, if any. */
    function Peek(): (r: Option<string>)
      reads this
      requires Valid()
      ensures r.Some? <==> cursor < |tokens|
      ensures r.Some? ==> r.value == tokens[cursor]
    {
      if cursor < |tokens| then Some(tokens[cursor]) else None
    }

    method Next() returns (t: Option<string>)
      requires Valid()
      modifies this
      ensures Valid() && tokens == old(tokens)
      ensures AsRes(t, cursor) == NextAt(tokens, old(cursor))
    {
      if cursor < |tokens| {
        t := Some(tokens[cursor]);
        cursor := cursor + 1;
      } else {
        t := None;
      }
    }

    method Expect(expected: string) returns (r: Option<()>)
      requires Valid()
      modifies this
      ensures Valid() && tokens == old(tokens)
      ensures AsRes(r, cursor) == ExpectAt(tokens, old(cursor), expected)
    {
      var token := Next();
      if token.None? {
        return None;
      }
      r := if ToLower(token.value) == ToLower(expected) then Some(()) else None;
    }

    /** `next()?.parse::<f64>().ok()?`. */
    method NextNumber() returns (v: Option<real>)
      requires Valid()
      modifies this
      ensures Valid() && tokens == old(tokens)
      ensures AsRes(v, cursor) == NumberAt(tokens, old(cursor))
    {
      var token := Next();
      if token.None? {
        return None;
      }
      v := ParseFloat(token.value);
    }

    /** `next()?.parse::<usize>().ok()?`. */
    method NextSize() returns (n: Option<nat>)
      requires Valid()
      modifies this
      ensures Valid() && tokens == old(tokens)
      ensures AsRes(n, cursor) == SizeAt(tokens, old(cursor))
    {
      var token := Next();
      if token.None? {
        return None;
      }
      n := ParseUnsigned(token.value, U64Max);
    }

    method ExpectValue(prefix: string) returns (v: Option<real>)
      requires Valid()
      modifies this
      ensures Valid() && tokens == old(tokens)
      ensures AsRes(v, cursor) == LabelledAt(tokens, old(cursor), prefix)
    {
      var l := Next();
      if l.None? || !StartsWith(l.value, prefix) {
        return None;
      }
      v := NextNumber();
    }

    /** `parse`: statements while tokens remain, up to the first failure. */
    method Parse() returns (statements: seq<Statement>)
      requires Valid()
      modifies this
      ensures Valid() && tokens == old(tokens)
      ensures (statements, cursor) == ParseAll(tokens, old(cursor))
    {
      statements := [];
      assert ParseAll(tokens, cursor).0 == statements + ParseAll(tokens, cursor).0;
      while cursor < |tokens|
        invariant Valid() && tokens == old(tokens) && old(cursor) <= cursor
        invariant ParseAll(tokens, old(cursor)) == (statements + ParseAll(tokens, cursor).0, ParseAll(tokens, cursor).1)
        decreases |tokens| - cursor
      {
        var stmt := ParseStatement();
        if stmt.None? {
          assert statements + [] == statements;
          break;
        }
        assert statements + ([stmt.value] + ParseAll(tokens, cursor).0)
          == (statements + [stmt.value]) + ParseAll(tokens, cursor).0;
        statements := statements + [stmt.value];
      }
      assert statements + [] == statements;
    }

    /** `parse_statement`: the lower-cased keyword selects the statement. */
    method ParseStatement() returns (s: Option<Statement>)
      requires Valid()
      modifies this
      ensures Valid() && tokens == old(tokens)
      ensures AsRes(s, cursor) == StatementAt(tokens, old(cursor))
    {
      var t := Next();
      if t.None? {
        return None;
      }
      var keyword := ToLower(t.value);
      if keyword == "field" {
        s := ParseField();
      } else if keyword == "interpretation" {
        s := ParseInterpretation();
      } else if keyword == "project" {
        s := ParseProject();
      } else if keyword == "trace" {
        s := ParseTrace();
      } else if keyword == "meaning" {
        s := ParseMeaning();
      } else if keyword == "narratereturn" {
        s := ParseNarrateReturn();
      } else if keyword == "logcoherence" {
        s := ParseOneWord(true);
      } else if keyword == "logmeaning" {
        s := ParseOneWord(false);
      } else if keyword == "expresssymbol" {
        s := ParseExpressSymbol();
      } else if keyword == "modulate" {
        s := ParseModulate();
      } else {
        s := None;
      }
    }

    method ParseField() returns (s: Option<Statement>)
      requires Valid()
      modifies this
      ensures Valid() && tokens == old(tokens)
      ensures AsRes(s, cursor) == FieldAt(tokens, old(cursor))
    {
      var name := Next();
      if name.None? {
        return None;
      }
      var size := NextSize();
      if size.None? {
        return None;
      }
      s := Some(Field(name.value, size.value));
    }

    method ParseInterpretation() returns (s: Option<Statement>)
      requires Valid()
      modifies this
      ensures Valid() && tokens == old(tokens)
      ensures AsRes(s, cursor) == InterpretationAt(tokens, old(cursor))
    {
      var name := Next();
      if name.None? {
        return None;
      }
      var eq := Expect("=");
      if eq.None? {
        return None;
      }
      var open := Expect("[");
      if open.None? {
        return None;
      }
      var values := ReadValues();
      s := Some(Interpretation(name.value, values));
    }

    method ParseProject() returns (s: Option<Statement>)
      requires Valid()
      modifies this
      ensures Valid() && tokens == old(tokens)
      ensures AsRes(s, cursor) == ProjectAt(tokens, old(cursor))
    {
      var target := Next();
      if target.None? {
        return None;
      }
      var arrow := Expect("<-");
      if arrow.None? {
        return None;
      }
      var interp := Next();
      if interp.None? {
        return None;
      }
      var open := Expect("{");
      if open.None? {
        return None;
      }
      var alpha := ExpectValue("alpha:");
      if alpha.None? {
        return None;
      }
      var noise := ExpectValue("noise:");
      if noise.None? {
        return None;
      }
      var steps := ExpectValue("steps:");
      if steps.None? {
        return None;
      }
      var close := Expect("}");
      if close.None? {
        return None;
      }
      s := Some(Project(target.value, interp.value, alpha.value, noise.value, CastToUsize(steps.value)));
    }

    method ParseTrace() returns (s: Option<Statement>)
      requires Valid()
      modifies this
      ensures Valid() && tokens == old(tokens)
      ensures AsRes(s, cursor) == TraceAt(tokens, old(cursor))
    {
      var name := Next();
      if name.None? {
        return None;
      }
      var eq := Expect("=");
      if eq.None? {
        return None;
      }
      var func := Next();
      if func.None? {
        return None;
      }
      var open := Expect("(");
      if open.None? {
        return None;
      }
      var field := Next();
      if field.None? {
        return None;
      }
      var comma := Expect(",");
      if comma.None? {
        return None;
      }
      var interp := Next();
      if interp.None? {
        return None;
      }
      var close := Expect(")");
      if close.None? {
        return None;
      }
      s := Some(TraceDistance(name.value, field.value, interp.value));
    }

    method ParseMeaning() returns (s: Option<Statement>)
      requires Valid()
      modifies this
      ensures Valid() && tokens == old(tokens)
      ensures AsRes(s, cursor) == MeaningAt(tokens, old(cursor))
    {
      var name := Next();
      if name.None? {
        return None;
      }
      var eq := Expect("=");
      if eq.None? {
        return None;
      }
      var func := Next();
      if func.None? {
        return None;
      }
      var open := Expect("(");
      if open.None? {
        return None;
      }
      var traceCmp := Next();
      if traceCmp.None? {
        return None;
      }
      var comma := Expect(",");
      if comma.None? {
        return None;
      }
      var threshold := NextNumber();
      if threshold.None? {
        return None;
      }
      var close := Expect(")");
      if close.None? {
        return None;
      }
      s := Some(Meaning(name.value, traceCmp.value, threshold.value));
    }

    method ParseNarrateReturn() returns (s: Option<Statement>)
      requires Valid()
      modifies this
      ensures Valid() && tokens == old(tokens)
      ensures AsRes(s, cursor) == NarrateReturnAt(tokens, old(cursor))
    {
      var collected := ReadQuoted();
      s := Some(NarrateReturn(collected));
    }

    /** The value loop of `interpretation`. */
    method ReadValues() returns (values: seq<real>)
      requires Valid()
      modifies this
      ensures Valid() && tokens == old(tokens)
      ensures (values, cursor) == ValuesAt(tokens, old(cursor))
    {
      values := [];
      assert ValuesAt(tokens, cursor).0 == values + ValuesAt(tokens, cursor).0;
      while true
        invariant Valid() && tokens == old(tokens) && old(cursor) <= cursor
        invariant ValuesAt(tokens, old(cursor)) == (values + ValuesAt(tokens, cursor).0, ValuesAt(tokens, cursor).1)
        decreases |tokens| - cursor
      {
        var tok := Peek();
        if tok.None? {
          break;
        }
        if tok.value == "]" {
          var closing := Next();
          break;
        }
        var num := ParseFloat(tok.value);
        if num.None? {
          break;
        }
        assert values + ([num.value] + ValuesAt(tokens, cursor + 1).0)
          == (values + [num.value]) + ValuesAt(tokens, cursor + 1).0;
        values := values + [num.value];
        var consumed := Next();
      }
      assert values + [] == values;
    }

    /** The quoted-token loop of `narratereturn`. */
    method ReadQuoted() returns (collected: seq<string>)
      requires Valid()
      modifies this
      ensures Valid() && tokens == old(tokens)
      ensures (collected, cursor) == QuotedAt(tokens, old(cursor))
    {
      collected := [];
      assert QuotedAt(tokens, cursor).0 == collected + QuotedAt(tokens, cursor).0;
      while true
        invariant Valid() && tokens == old(tokens) && old(cursor) <= cursor
        invariant QuotedAt(tokens, old(cursor)) == (collected + QuotedAt(tokens, cursor).0, QuotedAt(tokens, cursor).1)
        decreases |tokens| - cursor
      {
        var tok := Peek();
        if tok.None? || !Quoted(tok.value) {
          break;
        }
        var text := TrimChars(tok.value, {'"'});
        assert collected + ([text] + QuotedAt(tokens, cursor + 1).0)
          == (collected + [text]) + QuotedAt(tokens, cursor + 1).0;
        collected := collected + [text];
        var consumed := Next();
      }
      assert collected + [] == collected;
    }

    /** `logcoherence` when `coherence` holds, `logmeaning` otherwise. */
    method ParseOneWord(coherence: bool) returns (s: Option<Statement>)
      requires Valid()
      modifies this
      ensures Valid() && tokens == old(tokens)
      ensures AsRes(s, cursor) == OneWordAt(tokens, old(cursor), coherence)
    {
      var word := Next();
      if word.None? {
        return None;
      }
      s := Some(if coherence then LogCoherence(word.value) else LogMeaning(word.value));
    }

    method ParseExpressSymbol() returns (s: Option<Statement>)
      requires Valid()
      modifies this
      ensures Valid() && tokens == old(tokens)
      ensures AsRes(s, cursor) == ExpressSymbolAt(tokens, old(cursor))
    {
      var token := Next();
      if token.None? {
        return None;
      }
      var skipped := Next();
      if skipped.None? {
        return None;
      }
      var field := Next();
      if field.None? {
        return None;
      }
      s := Some(ExpressSymbol(token.value, field.value));
    }

    method ParseModulate() returns (s: Option<Statement>)
      requires Valid()
      modifies this
      ensures Valid() && tokens == old(tokens)
      ensures AsRes(s, cursor) == ModulateAt(tokens, old(cursor))
    {
      var token := Next();
      if token.None? {
        return None;
      }
      var skipped := Next();
      if skipped.None? {
        return None;
      }
      var intensity := NextNumber();
      if intensity.None? {
        return None;
      }
      s := Some(Modulate(token.value, intensity.value));
    }
  }
}

/** Properties of the parser: keywords are read without regard to case,
    rendered statements parse back, parsing stops at the first failure, and
    the tokenizer's output never holds the punctuation some statements
    need. */
module SptlLemmas {
  import opened Options
  import opened Text
  import opened Sptl

  /** How `parse_statement` dispatches on the lower-cased keyword. */
  lemma StatementDispatch(ts: seq<string>, p: nat)
    requires p < |ts|
    ensures var k := ToLower(ts[p]); var q := p + 1;
      (k == "field" ==> StatementAt(ts, p) == FieldAt(ts, q))
      && (k == "interpretation" ==> StatementAt(ts, p) == InterpretationAt(ts, q))
      && (k == "project" ==> StatementAt(ts, p) == ProjectAt(ts, q))
      && (k == "trace" ==> StatementAt(ts, p) == TraceAt(ts, q))
      && (k == "meaning" ==> StatementAt(ts, p) == MeaningAt(ts, q))
      && (k == "narratereturn" ==> StatementAt(ts, p) == NarrateReturnAt(ts, q))
      && (k == "logcoherence" ==> StatementAt(ts, p) == OneWordAt(ts, q, true))
      && (k == "logmeaning" ==> StatementAt(ts, p) == OneWordAt(ts, q, false))
      && (k == "expresssymbol" ==> StatementAt(ts, p) == ExpressSymbolAt(ts, q))
      && (k == "modulate" ==> StatementAt(ts, p) == ModulateAt(ts, q))
  {
  }

  // ---------------------------------------------------------------------
  // Rendering

  /** A real with a decimal numeral: whole and not negative (a renderer
      for fractions is not modelled). */
  predicate Whole(v: real) {
    v >= 0.0 && v.Floor as real == v
  }

  /** The decimal numeral of a whole, non-negative real; any other real
      is spelled as `0` (such reals are outside the round trip). */
  function Numeral(v: real): (s: string)
    ensures s != [] && IsDigit(s[0])
  {
    DecimalString(if Whole(v) then v.Floor as nat else 0)
  }

  lemma NumeralParses(v: real)
    requires Whole(v)
    ensures ParseFloat(Numeral(v)) == Some(v)
  {
    ParseFloatDecimal(v.Floor as nat);
  }

  /** A quoted token: the text with one `"` on each side. */
  function Quote(t: string): string {
    "\"" + t + "\""
  }

  predicate QuotableText(t: string) {
    t == [] || (t[0] != '"' && t[|t| - 1] != '"')
  }

  /** A statement the renderer below can spell: whole numbers in range and
      narrated texts without `"` at their ends. */
  predicate Renderable(s: Statement) {
    match s
    case Field(_, size) => size <= U64Max
    case Interpretation(_, values) => forall i :: 0 <= i < |values| ==> Whole(values[i])
    case Project(_, _, alpha, noise, steps) => Whole(alpha) && Whole(noise) && steps <= U64Max
    case Meaning(_, _, threshold) => Whole(threshold)
    case NarrateReturn(tokens) => forall i :: 0 <= i < |tokens| ==> QuotableText(tokens[i])
    case Modulate(_, intensity) => Whole(intensity)
    case _ => true
  }

  /** A token sequence that spells `s` in the surface syntax the parser
      reads: lower-case keywords, and fixed words where the parser drops a
      word (the function name of `trace` and `meaning`, the middle word of
      `expresssymbol` and `modulate`). */
  function Render(s: Statement): seq<string> {
    [KeywordOf(s)] + Operands(s)
  }

  /** The keyword that introduces `s`, in lower case. */
  function KeywordOf(s: Statement): (k: string)
    ensures k in Keywords && !Quoted(k)
  {
    match s
    case Field(_, _) => "field"
    case Interpretation(_, _) => "interpretation"
    case Project(_, _, _, _, _) => "project"
    case TraceDistance(_, _, _) => "trace"
    case Meaning(_, _, _) => "meaning"
    case NarrateReturn(_) => "narratereturn"
    case LogCoherence(_) => "logcoherence"
    case LogMeaning(_) => "logmeaning"
    case ExpressSymbol(_, _) => "expresssymbol"
    case Modulate(_, _) => "modulate"
  }

  /** The tokens after the keyword. */
  function Operands(s: Statement): seq<string> {
    match s
    case Field(name, size) => [name, DecimalString(size)]
    case Interpretation(name, values) => [name, "=", "["] + Numerals(values) + ["]"]
    case Project(target, interp, alpha, noise, steps) =>
      [target, "<-", interp, "{", "alpha:", Numeral(alpha), "noise:", Numeral(noise),
       "steps:", DecimalString(steps), "}"]
    case TraceDistance(name, field, interp) => [name, "=", "trace_distance", "(", field, ",", interp, ")"]
    case Meaning(name, traceCmp, threshold) => [name, "=", "meaning", "(", traceCmp, ",", Numeral(threshold), ")"]
    case NarrateReturn(tokens) => Quotes(tokens)
    case LogCoherence(field) => [field]
    case LogMeaning(name) => [name]
    case ExpressSymbol(token, intoField) => [token, "into", intoField]
    case Modulate(token, intensity) => [token, "intensity", Numeral(intensity)]
  }

  function Numerals(values: seq<real>): (ts: seq<string>)
    ensures |ts| == |values|
  {
    seq(|values|, i requires 0 <= i < |values| => Numeral(values[i]))
  }

  function Quotes(tokens: seq<string>): (ts: seq<string>)
    ensures |ts| == |tokens|
  {
    seq(|tokens|, i requires 0 <= i < |tokens| => Quote(tokens[i]))
  }

  function RenderAll(stmts: seq<Statement>): seq<string> {
    if stmts == [] then [] else Render(stmts[0]) + RenderAll(stmts[1..])
  }

  /** The tokens of `ts` from position `p` on begin with `r`. */
  predicate Spells(ts: seq<string>, p: nat, r: seq<string>)
    decreases |r|
  {
    p + |r| <= |ts| && (r == [] || (ts[p] == r[0] && Spells(ts, p + 1, r[1..])))
  }

  lemma {:induction false} SpellsIndex(ts: seq<string>, p: nat, r: seq<string>)
    requires Spells(ts, p, r)
    ensures forall k :: 0 <= k < |r| ==> ts[p + k] == r[k]
    decreases |r|
  {
    if r != [] {
      SpellsIndex(ts, p + 1, r[1..]);
      forall k | 1 <= k < |r|
        ensures ts[p + k] == r[k]
      {
        assert ts[p + 1 + (k - 1)] == r[1..][k - 1];
      }
    }
  }

  lemma {:induction false} IndexSpells(ts: seq<string>, p: nat, r: seq<string>)
    requires p + |r| <= |ts| && forall k :: 0 <= k < |r| ==> ts[p + k] == r[k]
    ensures Spells(ts, p, r)
    decreases |r|
  {
    if r != [] {
      forall k | 0 <= k < |r[1..]|
        ensures ts[p + 1 + k] == r[1..][k]
      {
        assert ts[p + (k + 1)] == r[k + 1];
      }
      IndexSpells(ts, p + 1, r[1..]);
      assert ts[p + 0] == r[0];
    }
  }

  lemma {:induction false} SpellsSplit(ts: seq<string>, p: nat, a: seq<string>, b: seq<string>)
    requires Spells(ts, p, a + b)
    ensures Spells(ts, p, a) && Spells(ts, p + |a|, b)
    decreases |a|
  {
    if a == [] {
      assert a + b == b;
    } else {
      assert (a + b)[1..] == a[1..] + b;
      assert (a + b)[0] == a[0];
      SpellsSplit(ts, p + 1, a[1..], b);
    }
  }

  /** Position `q` is the end of the tokens or a token that does not start
      with `"`, where the quoted-token loop stops. */
  predicate StopsQuotes(ts: seq<string>, q: nat) {
    q <= |ts| && (q == |ts| || !Quoted(ts[q]))
  }

  // ---------------------------------------------------------------------
  // The loops and `expect_value` on rendered tokens

  /** A numeral is a value, not the closing `]`. */
  lemma ValuesNumeral(ts: seq<string>, p: nat, v: real)
    requires Whole(v) && p < |ts| && ts[p] == Numeral(v)
    ensures ValuesAt(ts, p) == ([v] + ValuesAt(ts, p + 1).0, ValuesAt(ts, p + 1).1)
  {
    assert ts[p] != "]" by {
      assert IsDigit(ts[p][0]);
    }
    NumeralParses(v);
  }

  /** The value loop reads numerals back as their values and consumes the
      closing `]`. */
  lemma {:induction false} ValuesRoundTrip(ts: seq<string>, p: nat, values: seq<real>)
    requires forall i :: 0 <= i < |values| ==> Whole(values[i])
    requires forall i :: 0 <= i < |values| ==> p + i < |ts| && ts[p + i] == Numeral(values[i])
    requires p + |values| < |ts| && ts[p + |values|] == "]"
    ensures ValuesAt(ts, p) == (values, p + |values| + 1)
    decreases |values|
  {
    if values != [] {
      ValuesNumeral(ts, p, values[0]);
      var more := values[1..];
      forall i | 0 <= i < |more|
        ensures p + 1 + i < |ts| && ts[p + 1 + i] == Numeral(more[i])
      {
        assert more[i] == values[i + 1];
      }
      ValuesRoundTrip(ts, p + 1, more);
      assert values == [values[0]] + more;
    }
  }

  lemma QuoteTrims(t: string)
    requires QuotableText(t)
    ensures TrimChars(Quote(t), {'"'}) == t
  {
    var q := Quote(t);
    TrimCharsIs(q, {'"'}, 1, |q| - 1);
    assert q[1..|q| - 1] == t;
  }

  /** The quoted-token loop strips the quotes and stops where the quoted
      tokens end. */
  lemma {:induction false} QuotedRoundTrip(ts: seq<string>, p: nat, tokens: seq<string>)
    requires forall i :: 0 <= i < |tokens| ==> QuotableText(tokens[i])
    requires forall i :: 0 <= i < |tokens| ==> p + i < |ts| && ts[p + i] == Quote(tokens[i])
    requires StopsQuotes(ts, p + |tokens|)
    ensures QuotedAt(ts, p) == (tokens, p + |tokens|)
    decreases |tokens|
  {
    if tokens != [] {
      assert ts[p] == Quote(tokens[0]);
      QuoteTrims(tokens[0]);
      var more := tokens[1..];
      forall i | 0 <= i < |more|
        ensures p + 1 + i < |ts| && ts[p + 1 + i] == Quote(more[i])
      {
        assert more[i] == tokens[i + 1];
      }
      QuotedRoundTrip(ts, p + 1, more);
      assert tokens == [tokens[0]] + more;
    }
  }

  /** `expect_value` reads a labelled numeral back. */
  lemma LabelledNumeral(ts: seq<string>, p: nat, prefix: string, v: real)
    requires Whole(v) && p + 1 < |ts| && ts[p] == prefix && ts[p + 1] == Numeral(v)
    ensures LabelledAt(ts, p, prefix) == Ok(v, p + 2)
  {
    NumeralParses(v);
    assert StartsWith(ts[p], prefix) by {
      assert ts[p][..|prefix|] == prefix;
    }
  }

  // ---------------------------------------------------------------------
  // Each statement reads back from its tokens. The keyword may be spelled
  // in any case, and the words the parser skips may be anything.

  lemma FieldParsesBack(ts: seq<string>, p: nat, name: string, size: nat)
    requires size <= U64Max
    requires p + 3 <= |ts| && ToLower(ts[p]) == "field"
    requires ts[p + 1] == name && ts[p + 2] == DecimalString(size)
    ensures StatementAt(ts, p) == Ok(Field(name, size), p + 3)
  {
    StatementDispatch(ts, p);
    ParseDecimalString(size, U64Max);
  }

  lemma InterpretationParsesBack(ts: seq<string>, p: nat, name: string, values: seq<real>)
    requires forall i :: 0 <= i < |values| ==> Whole(values[i])
    requires p + 4 + |values| < |ts| && ToLower(ts[p]) == "interpretation"
    requires ts[p + 1] == name && ts[p + 2] == "=" && ts[p + 3] == "["
    requires forall i :: 0 <= i < |values| ==> ts[p + 4 + i] == Numeral(values[i])
    requires ts[p + 4 + |values|] == "]"
    ensures StatementAt(ts, p) == Ok(Interpretation(name, values), p + 5 + |values|)
  {
    StatementDispatch(ts, p);
    LowerUnchanged("=");
    LowerUnchanged("[");
    forall i | 0 <= i < |values|
      ensures p + 4 + i < |ts| && ts[(p + 4) + i] == Numeral(values[i])
    {
    }
    ValuesRoundTrip(ts, p + 4, values);
  }

  /** The body of a `project` statement, from the position after the
      keyword. */
  lemma ProjectArm(ts: seq<string>, q: nat, target: string, interp: string, alpha: real, noise: real, steps: nat)
    requires Whole(alpha) && Whole(noise) && steps <= U64Max
    requires q + 11 <= |ts|
    requires ts[q] == target && ts[q + 1] == "<-" && ts[q + 2] == interp && ts[q + 3] == "{"
    requires LabelledAt(ts, q + 4, "alpha:") == Ok(alpha, q + 6)
    requires LabelledAt(ts, q + 6, "noise:") == Ok(noise, q + 8)
    requires LabelledAt(ts, q + 8, "steps:") == Ok(steps as real, q + 10)
    requires ts[q + 10] == "}"
    ensures ProjectAt(ts, q) == Ok(Project(target, interp, alpha, noise, steps), q + 11)
  {
    LowerUnchanged("<-");
    LowerUnchanged("{");
    LowerUnchanged("}");
  }

  lemma ProjectParsesBack(ts: seq<string>, p: nat, target: string, interp: string, alpha: real, noise: real, steps: nat)
    requires Whole(alpha) && Whole(noise) && steps <= U64Max
    requires p + 12 <= |ts| && ToLower(ts[p]) == "project"
    requires ts[p + 1] == target && ts[p + 2] == "<-" && ts[p + 3] == interp && ts[p + 4] == "{"
    requires ts[p + 5] == "alpha:" && ts[p + 6] == Numeral(alpha)
    requires ts[p + 7] == "noise:" && ts[p + 8] == Numeral(noise)
    requires ts[p + 9] == "steps:" && ts[p + 10] == DecimalString(steps)
    requires ts[p + 11] == "}"
    ensures StatementAt(ts, p) == Ok(Project(target, interp, alpha, noise, steps), p + 12)
  {
    StatementDispatch(ts, p);
    LabelledNumeral(ts, p + 5, "alpha:", alpha);
    LabelledNumeral(ts, p + 7, "noise:", noise);
    assert Numeral(steps as real) == DecimalString(steps);
    LabelledNumeral(ts, p + 9, "steps:", steps as real);
    ProjectArm(ts, p + 1, target, interp, alpha, noise, steps);
  }

  lemma TraceParsesBack(ts: seq<string>, p: nat, name: string, field: string, interp: string)
    requires p + 9 <= |ts| && ToLower(ts[p]) == "trace"
    requires ts[p + 1] == name && ts[p + 2] == "=" && ts[p + 4] == "("
    requires ts[p + 5] == field && ts[p + 6] == "," && ts[p + 7] == interp && ts[p + 8] == ")"
    ensures StatementAt(ts, p) == Ok(TraceDistance(name, field, interp), p + 9)
  {
    StatementDispatch(ts, p);
    LowerUnchanged("=");
    LowerUnchanged("(");
    LowerUnchanged(",");
    LowerUnchanged(")");
  }

  lemma MeaningParsesBack(ts: seq<string>, p: nat, name: string, traceCmp: string, threshold: real)
    requires Whole(threshold)
    requires p + 9 <= |ts| && ToLower(ts[p]) == "meaning"
    requires ts[p + 1] == name && ts[p + 2] == "=" && ts[p + 4] == "("
    requires ts[p + 5] == traceCmp && ts[p + 6] == "," && ts[p + 7] == Numeral(threshold) && ts[p + 8] == ")"
    ensures StatementAt(ts, p) == Ok(Meaning(name, traceCmp, threshold), p + 9)
  {
    StatementDispatch(ts, p);
    LowerUnchanged("=");
    LowerUnchanged("(");
    LowerUnchanged(",");
    LowerUnchanged(")");
    NumeralParses(threshold);
  }

  lemma NarrateParsesBack(ts: seq<string>, p: nat, tokens: seq<string>)
    requires forall i :: 0 <= i < |tokens| ==> QuotableText(tokens[i])
    requires p + 1 + |tokens| <= |ts| && ToLower(ts[p]) == "narratereturn"
    requires forall i :: 0 <= i < |tokens| ==> ts[p + 1 + i] == Quote(tokens[i])
    requires StopsQuotes(ts, p + 1 + |tokens|)
    ensures StatementAt(ts, p) == Ok(NarrateReturn(tokens), p + 1 + |tokens|)
  {
    StatementDispatch(ts, p);
    forall i | 0 <= i < |tokens|
      ensures p + 1 + i < |ts| && ts[(p + 1) + i] == Quote(tokens[i])
    {
    }
    QuotedRoundTrip(ts, p + 1, tokens);
  }

  lemma OneWordParsesBack(ts: seq<string>, p: nat, coherence: bool, word: string)
    requires p + 2 <= |ts| && ToLower(ts[p]) == (if coherence then "logcoherence" else "logmeaning")
    requires ts[p + 1] == word
    ensures StatementAt(ts, p) == Ok(if coherence then LogCoherence(word) else LogMeaning(word), p + 2)
  {
    StatementDispatch(ts, p);
  }

  lemma ExpressParsesBack(ts: seq<string>, p: nat, token: string, intoField: string)
    requires p + 4 <= |ts| && ToLower(ts[p]) == "expresssymbol"
    requires ts[p + 1] == token && ts[p + 3] == intoField
    ensures StatementAt(ts, p) == Ok(ExpressSymbol(token, intoField), p + 4)
  {
    StatementDispatch(ts, p);
  }

  lemma ModulateParsesBack(ts: seq<string>, p: nat, token: string, intensity: real)
    requires Whole(intensity)
    requires p + 4 <= |ts| && ToLower(ts[p]) == "modulate"
    requires ts[p + 1] == token && ts[p + 3] == Numeral(intensity)
    ensures StatementAt(ts, p) == Ok(Modulate(token, intensity), p + 4)
  {
    StatementDispatch(ts, p);
    NumeralParses(intensity);
  }

  // ---------------------------------------------------------------------
  // Rendered statements parse back

  lemma RenderedField(ts: seq<string>, p: nat, s: Statement)
    requires s.Field? && Renderable(s) && Spells(ts, p, Render(s))
    ensures StatementAt(ts, p) == Ok(s, p + |Render(s)|)
  {
    var r := Render(s);
    SpellsIndex(ts, p, r);
    assert ts[p] == r[0] && ts[p + 1] == r[1] && ts[p + 2] == r[2];
    LowerUnchanged("field");
    FieldParsesBack(ts, p, s.name, s.size);
  }

  lemma RenderedInterpretation(ts: seq<string>, p: nat, s: Statement)
    requires s.Interpretation? && Renderable(s) && Spells(ts, p, Render(s))
    ensures StatementAt(ts, p) == Ok(s, p + |Render(s)|)
  {
    var r := Render(s);
    SpellsIndex(ts, p, r);
    var values := s.values;
    assert ts[p] == r[0] && ts[p + 1] == r[1] && ts[p + 2] == r[2] && ts[p + 3] == r[3];
    assert ts[p + 4 + |values|] == r[4 + |values|];
    forall i | 0 <= i < |values|
      ensures ts[p + 4 + i] == Numeral(values[i])
    {
      assert ts[p + (4 + i)] == r[4 + i];
    }
    LowerUnchanged("interpretation");
    InterpretationParsesBack(ts, p, s.name, values);
  }

  lemma RenderedProject(ts: seq<string>, p: nat, s: Statement)
    requires s.Project? && Renderable(s) && Spells(ts, p, Render(s))
    ensures StatementAt(ts, p) == Ok(s, p + |Render(s)|)
  {
    var r := Render(s);
    SpellsIndex(ts, p, r);
    assert ts[p] == r[0] && ts[p + 1] == r[1] && ts[p + 2] == r[2] && ts[p + 3] == r[3] && ts[p + 4] == r[4];
    assert ts[p + 5] == r[5] && ts[p + 6] == r[6] && ts[p + 7] == r[7] && ts[p + 8] == r[8];
    assert ts[p + 9] == r[9] && ts[p + 10] == r[10] && ts[p + 11] == r[11];
    LowerUnchanged("project");
    ProjectParsesBack(ts, p, s.target, s.interp, s.alpha, s.noise, s.steps);
  }

  lemma RenderedTrace(ts: seq<string>, p: nat, s: Statement)
    requires s.TraceDistance? && Spells(ts, p, Render(s))
    ensures StatementAt(ts, p) == Ok(s, p + |Render(s)|)
  {
    var r := Render(s);
    SpellsIndex(ts, p, r);
    assert ts[p] == r[0] && ts[p + 1] == r[1] && ts[p + 2] == r[2] && ts[p + 4] == r[4];
    assert ts[p + 5] == r[5] && ts[p + 6] == r[6] && ts[p + 7] == r[7] && ts[p + 8] == r[8];
    LowerUnchanged("trace");
    TraceParsesBack(ts, p, s.name, s.field, s.interp);
  }

  lemma RenderedMeaning(ts: seq<string>, p: nat, s: Statement)
    requires s.Meaning? && Renderable(s) && Spells(ts, p, Render(s))
    ensures StatementAt(ts, p) == Ok(s, p + |Render(s)|)
  {
    var r := Render(s);
    SpellsIndex(ts, p, r);
    assert ts[p] == r[0] && ts[p + 1] == r[1] && ts[p + 2] == r[2] && ts[p + 4] == r[4];
    assert ts[p + 5] == r[5] && ts[p + 6] == r[6] && ts[p + 7] == r[7] && ts[p + 8] == r[8];
    LowerUnchanged("meaning");
    MeaningParsesBack(ts, p, s.name, s.traceCmp, s.threshold);
  }

  lemma RenderedNarrate(ts: seq<string>, p: nat, s: Statement)
    requires s.NarrateReturn? && Renderable(s) && Spells(ts, p, Render(s))
    requires StopsQuotes(ts, p + |Render(s)|)
    ensures StatementAt(ts, p) == Ok(s, p + |Render(s)|)
  {
    var r := Render(s);
    SpellsIndex(ts, p, r);
    var tokens := s.tokens;
    assert ts[p] == r[0];
    forall i | 0 <= i < |tokens|
      ensures ts[p + 1 + i] == Quote(tokens[i])
    {
      assert ts[p + (1 + i)] == r[1 + i];
    }
    LowerUnchanged("narratereturn");
    NarrateParsesBack(ts, p, tokens);
  }

  lemma RenderedLog(ts: seq<string>, p: nat, s: Statement)
    requires s.LogCoherence? || s.LogMeaning?
    requires Spells(ts, p, Render(s))
    ensures StatementAt(ts, p) == Ok(s, p + |Render(s)|)
  {
    var r := Render(s);
    SpellsIndex(ts, p, r);
    assert ts[p] == r[0] && ts[p + 1] == r[1];
    if s.LogCoherence? {
      LowerUnchanged("logcoherence");
      OneWordParsesBack(ts, p, true, s.field);
    } else {
      LowerUnchanged("logmeaning");
      OneWordParsesBack(ts, p, false, s.name);
    }
  }

  lemma RenderedExpress(ts: seq<string>, p: nat, s: Statement)
    requires s.ExpressSymbol?
    requires Spells(ts, p, Render(s))
    ensures StatementAt(ts, p) == Ok(s, p + |Render(s)|)
  {
    var r := Render(s);
    SpellsIndex(ts, p, r);
    assert ts[p] == r[0] && ts[p + 1] == r[1] && ts[p + 3] == r[3];
    LowerUnchanged("expresssymbol");
    ExpressParsesBack(ts, p, s.token, s.intoField);
  }

  lemma RenderedModulate(ts: seq<string>, p: nat, s: Statement)
    requires s.Modulate? && Renderable(s)
    requires Spells(ts, p, Render(s))
    ensures StatementAt(ts, p) == Ok(s, p + |Render(s)|)
  {
    var r := Render(s);
    SpellsIndex(ts, p, r);
    assert ts[p] == r[0] && ts[p + 1] == r[1] && ts[p + 3] == r[3];
    LowerUnchanged("modulate");
    ModulateParsesBack(ts, p, s.token, s.intensity);
  }

  /** A rendered statement parses back to itself and the cursor ends just
      after it, provided a `narratereturn` is not followed by a quoted
      token. */
  lemma StatementRoundTrip(ts: seq<string>, p: nat, s: Statement)
    requires Renderable(s)
    requires Spells(ts, p, Render(s))
    requires StopsQuotes(ts, p + |Render(s)|)
    ensures StatementAt(ts, p) == Ok(s, p + |Render(s)|)
  {
    if s.Field? {
      RenderedField(ts, p, s);
    } else if s.Interpretation? {
      RenderedInterpretation(ts, p, s);
    } else if s.Project? {
      RenderedProject(ts, p, s);
    } else if s.TraceDistance? {
      RenderedTrace(ts, p, s);
    } else if s.Meaning? {
      RenderedMeaning(ts, p, s);
    } else if s.NarrateReturn? {
      RenderedNarrate(ts, p, s);
    } else if s.LogCoherence? || s.LogMeaning? {
      RenderedLog(ts, p, s);
    } else if s.ExpressSymbol? {
      RenderedExpress(ts, p, s);
    } else {
      RenderedModulate(ts, p, s);
    }
  }

  /** One step of `parse`: a statement that parses is followed by the
      statements parsed after it. */
  lemma ParseAllOk(ts: seq<string>, p: nat, s: Statement, q: nat)
    requires p < |ts| && StatementAt(ts, p) == Ok(s, q)
    ensures q <= |ts| && ParseAll(ts, p) == ([s] + ParseAll(ts, q).0, ParseAll(ts, q).1)
  {
  }

  lemma RenderAllCons(stmts: seq<Statement>)
    requires stmts != []
    ensures RenderAll(stmts) == Render(stmts[0]) + RenderAll(stmts[1..])
  {
  }

  /** A rendered run does not start with a quoted token. */
  lemma RenderAllStarts(stmts: seq<Statement>)
    requires stmts != []
    ensures RenderAll(stmts) != [] && !Quoted(RenderAll(stmts)[0])
  {
    RenderAllCons(stmts);
    assert RenderAll(stmts)[0] == KeywordOf(stmts[0]);
  }

  /** The tokens from `p` on spell the run `stmts`, which ends at `q`. */
  predicate SpelledRun(ts: seq<string>, p: nat, stmts: seq<Statement>, q: nat) {
    Spells(ts, p, RenderAll(stmts)) && q == p + |RenderAll(stmts)|
  }

  /** A rendered run spells its first statement and then the rest. */
  lemma RenderedSplit(ts: seq<string>, p: nat, stmts: seq<Statement>, q0: nat, q: nat)
    requires stmts != [] && SpelledRun(ts, p, stmts, q)
    requires q0 == p + |Render(stmts[0])|
    ensures Spells(ts, p, Render(stmts[0])) && SpelledRun(ts, q0, stmts[1..], q)
  {
    RenderAllCons(stmts);
    SpellsSplit(ts, p, Render(stmts[0]), RenderAll(stmts[1..]));
  }

  /** The first statement of a rendered run is followed by the end or by
      an unquoted token. */
  lemma RenderedStops(ts: seq<string>, q0: nat, more: seq<Statement>, q: nat)
    requires SpelledRun(ts, q0, more, q) && StopsQuotes(ts, q)
    ensures StopsQuotes(ts, q0)
  {
    if more != [] {
      RenderAllStarts(more);
    }
  }

  /** From position `p`, the statements read one after another are
      `stmts`, and the last of them ends at `q`. */
  predicate ReadsRun(ts: seq<string>, p: nat, stmts: seq<Statement>, q: nat)
    requires p <= |ts|
    decreases |stmts|, 1
  {
    if stmts == [] then p == q else ReadsFirst(ts, p, stmts, q)
  }

  /** The first of `stmts` reads at `p`, and the rest read from where it
      ends. */
  predicate ReadsFirst(ts: seq<string>, p: nat, stmts: seq<Statement>, q: nat)
    requires p <= |ts| && stmts != []
    decreases |stmts|, 0
  {
    var r := StatementAt(ts, p);
    r.Ok? && r.value == stmts[0] && ReadsRun(ts, r.pos, stmts[1..], q)
  }

  /** The run `stmts` reads back from `p` and ends at `q`. */
  predicate ReadsBack(ts: seq<string>, p: nat, stmts: seq<Statement>, q: nat) {
    p <= |ts| && ReadsRun(ts, p, stmts, q)
  }

  lemma ReadsRunCons(ts: seq<string>, p: nat, stmts: seq<Statement>, q0: nat, q: nat)
    requires stmts != [] && p <= |ts| && StatementAt(ts, p) == Ok(stmts[0], q0)
    requires ReadsRun(ts, q0, stmts[1..], q)
    ensures ReadsRun(ts, p, stmts, q)
  {
    assert ReadsFirst(ts, p, stmts, q);
  }

  lemma ReadsRunHead(ts: seq<string>, p: nat, stmts: seq<Statement>, q: nat)
    requires stmts != [] && p <= |ts| && ReadsRun(ts, p, stmts, q)
    ensures StatementAt(ts, p).Ok? && StatementAt(ts, p).value == stmts[0]
    ensures ReadsRun(ts, StatementAt(ts, p).pos, stmts[1..], q)
  {
    assert ReadsFirst(ts, p, stmts, q);
  }

  /** A statement that reads back, followed by a run that reads back. */
  lemma ReadsAppend(ts: seq<string>, p: nat, s: Statement, more: seq<Statement>, q0: nat, q: nat)
    requires ReadsBack(ts, p, [s], q0) && ReadsBack(ts, q0, more, q)
    ensures ReadsBack(ts, p, [s] + more, q)
  {
    ReadsRunHead(ts, p, [s], q0);
    assert [s][1..] == [] && ([s] + more)[1..] == more;
    ReadsRunCons(ts, p, [s] + more, q0, q);
  }

  lemma ConsConcat<T>(a: seq<T>, b: seq<T>)
    requires a != []
    ensures a + b == [a[0]] + (a[1..] + b)
  {
    assert a == [a[0]] + a[1..];
  }

  /** `parse` collects a run of statements that read one after another. */
  lemma {:induction false} ParseRun(ts: seq<string>, p: nat, stmts: seq<Statement>, q: nat)
    requires ReadsBack(ts, p, stmts, q)
    ensures q <= |ts| && ParseAll(ts, p) == (stmts + ParseAll(ts, q).0, ParseAll(ts, q).1)
    decreases |stmts|
  {
    if stmts == [] {
      assert stmts + ParseAll(ts, p).0 == ParseAll(ts, p).0;
    } else {
      ReadsRunHead(ts, p, stmts, q);
      var r := StatementAt(ts, p);
      ParseAllOk(ts, p, r.value, r.pos);
      ParseRun(ts, r.pos, stmts[1..], q);
      ConsConcat(stmts, ParseAll(ts, q).0);
    }
  }

  /** A rendered statement reads back on its own, provided a
      `narratereturn` is not followed by a quoted token. */
  lemma HeadReads(ts: seq<string>, p: nat, s: Statement, q0: nat)
    requires Renderable(s) && Spells(ts, p, Render(s)) && q0 == p + |Render(s)|
    requires StopsQuotes(ts, q0)
    ensures ReadsBack(ts, p, [s], q0)
  {
    StatementRoundTrip(ts, p, s);
    ReadsRunCons(ts, p, [s], q0, q0);
  }

  /** A rendered run of statements reads back one by one. */
  lemma {:induction false} RenderedRun(ts: seq<string>, p: nat, stmts: seq<Statement>, q: nat)
    requires forall i :: 0 <= i < |stmts| ==> Renderable(stmts[i])
    requires SpelledRun(ts, p, stmts, q) && StopsQuotes(ts, q)
    ensures ReadsBack(ts, p, stmts, q)
    decreases |stmts|
  {
    if stmts == [] {
      assert ReadsRun(ts, p, stmts, q);
    } else {
      var q0 := p + |Render(stmts[0])|;
      RenderedSplit(ts, p, stmts, q0, q);
      RenderedStops(ts, q0, stmts[1..], q);
      HeadReads(ts, p, stmts[0], q0);
      RenderedRun(ts, q0, stmts[1..], q);
      ReadsAppend(ts, p, stmts[0], stmts[1..], q0, q);
      assert [stmts[0]] + stmts[1..] == stmts;
    }
  }

  /** Every rendered program parses back whole. */
  lemma ParseRoundTrip(stmts: seq<Statement>)
    requires forall i :: 0 <= i < |stmts| ==> Renderable(stmts[i])
    ensures ParseAll(RenderAll(stmts), 0) == (stmts, |RenderAll(stmts)|)
  {
    var ts := RenderAll(stmts);
    IndexSpells(ts, 0, ts);
    RenderedRun(ts, 0, stmts, |ts|);
    ParseRun(ts, 0, stmts, |ts|);
    assert ParseAll(ts, |ts|) == ([], |ts|);
    assert stmts + [] == stmts;
  }

  /** An unknown keyword ends `parse` with nothing parsed. */
  lemma UnknownKeywordStops(ts: seq<string>, q: nat)
    requires q < |ts| && ToLower(ts[q]) !in Keywords
    ensures ParseAll(ts, q) == ([], q + 1)
  {
  }

  /** A rendered run followed by a word that is not a keyword. */
  lemma ParseStopsAt(ts: seq<string>, stmts: seq<Statement>)
    requires forall i :: 0 <= i < |stmts| ==> Renderable(stmts[i])
    requires Spells(ts, 0, RenderAll(stmts)) && |RenderAll(stmts)| < |ts|
    requires ToLower(ts[|RenderAll(stmts)|]) !in Keywords && !Quoted(ts[|RenderAll(stmts)|])
    ensures ParseAll(ts, 0) == (stmts, |RenderAll(stmts)| + 1)
  {
    var q := |RenderAll(stmts)|;
    RenderedRun(ts, 0, stmts, q);
    ParseRun(ts, 0, stmts, q);
    UnknownKeywordStops(ts, q);
    RunThenStop(ParseAll(ts, 0), stmts, ParseAll(ts, q), q);
  }

  lemma RunThenStop(whole: (seq<Statement>, nat), stmts: seq<Statement>, tail: (seq<Statement>, nat), q: nat)
    requires whole == (stmts + tail.0, tail.1) && tail == ([], q + 1)
    ensures whole == (stmts, q + 1)
  {
    assert stmts + [] == stmts;
  }

  /** `parse` stops at the first word that is not a keyword: it returns the
      statements before it, in order, and leaves the cursor just past that
      word, whatever follows. */
  lemma ParseStopsAtUnknownKeyword(stmts: seq<Statement>, word: string, rest: seq<string>)
    requires forall i :: 0 <= i < |stmts| ==> Renderable(stmts[i])
    requires ToLower(word) !in Keywords && !Quoted(word)
    ensures var ts := RenderAll(stmts) + [word] + rest;
      ParseAll(ts, 0) == (stmts, |RenderAll(stmts)| + 1)
  {
    var rendered := RenderAll(stmts);
    var ts := rendered + [word] + rest;
    assert ts[|rendered|] == word;
    assert forall i :: 0 <= i < |rendered| ==> ts[0 + i] == rendered[i];
    IndexSpells(ts, 0, rendered);
    ParseStopsAt(ts, stmts);
  }

  // ---------------------------------------------------------------------
  // What the tokenizer's output can express

  /** No trimmed token reads as `[` or `,`, whatever its case. */
  lemma TrimmedIsNotPunctuation(t: string, punctuation: string)
    requires Trimmed(t)
    requires punctuation == "[" || punctuation == ","
    ensures ToLower(t) != ToLower(punctuation)
  {
    if |t| == 1 {
      assert t[0] !in TokenTrim;
      assert ToLower(t)[0] != ToLower(punctuation)[0];
    }
  }

  predicate AllTrimmed(ts: seq<string>) {
    forall k :: 0 <= k < |ts| ==> Trimmed(ts[k])
  }

  /** What a statement parsed from tokenizer output can be: anything but
      `interpretation`, `trace` and `meaning`, and a `narratereturn` only
      with no tokens. */
  predicate FromTrimmed(s: Statement) {
    !s.Interpretation? && !s.TraceDistance? && !s.Meaning? && (s.NarrateReturn? ==> s.tokens == [])
  }

  /** `expect("[")` never succeeds on trimmed tokens. */
  lemma TrimmedInterpretation(ts: seq<string>, q: nat)
    requires AllTrimmed(ts) && q <= |ts|
    ensures InterpretationAt(ts, q).Fail?
  {
    if q + 2 < |ts| {
      TrimmedIsNotPunctuation(ts[q + 2], "[");
    }
  }

  /** `expect(",")` never succeeds on trimmed tokens. */
  lemma TrimmedTrace(ts: seq<string>, q: nat)
    requires AllTrimmed(ts) && q <= |ts|
    ensures TraceAt(ts, q).Fail? && MeaningAt(ts, q).Fail?
  {
    if q + 5 < |ts| {
      TrimmedIsNotPunctuation(ts[q + 5], ",");
    }
  }

  /** No trimmed token starts with `"`. */
  lemma TrimmedNarrate(ts: seq<string>, q: nat)
    requires AllTrimmed(ts) && q <= |ts|
    ensures NarrateReturnAt(ts, q) == Ok(NarrateReturn([]), q)
  {
    if q < |ts| {
      assert !Quoted(ts[q]);
    }
  }

  /** On tokenizer output, `interpretation`, `trace` and `meaning` always
      fail, because `expect("[")` and `expect(",")` never succeed; and
      `narratereturn` never collects a token, because no token starts with
      a `"`. */
  lemma TrimmedStatement(ts: seq<string>, p: nat)
    requires AllTrimmed(ts) && p <= |ts|
    ensures StatementAt(ts, p).Ok? ==> FromTrimmed(StatementAt(ts, p).value)
  {
    if p < |ts| {
      StatementDispatch(ts, p);
      var k := ToLower(ts[p]);
      if k == "interpretation" {
        TrimmedInterpretation(ts, p + 1);
      } else if k == "trace" || k == "meaning" {
        TrimmedTrace(ts, p + 1);
      } else if k == "narratereturn" {
        TrimmedNarrate(ts, p + 1);
      }
    }
  }

  lemma {:induction false} TrimmedParse(ts: seq<string>, p: nat)
    requires AllTrimmed(ts) && p <= |ts|
    ensures var stmts := ParseAll(ts, p).0;
      forall i :: 0 <= i < |stmts| ==> FromTrimmed(stmts[i])
    decreases |ts| - p
  {
    if p < |ts| {
      var st := StatementAt(ts, p);
      if st.Ok? {
        TrimmedStatement(ts, p);
        TrimmedParse(ts, st.pos);
        ParseAllOk(ts, p, st.value, st.pos);
      }
    }
  }

  /** Whatever the input, the statements parsed from its tokens contain no
      `interpretation`, `trace` or `meaning` and only empty
      `narratereturn`s. */
  lemma TokenizedStatements(input: string)
    ensures var stmts := ParseAll(Tokenize(input), 0).0;
      forall i :: 0 <= i < |stmts| ==> FromTrimmed(stmts[i])
  {
    TrimmedParse(Tokenize(input), 0);
  }

  // ---------------------------------------------------------------------
  // The tokenizer as evidently intended

  /** A token that is already atomic is one piece. */
  lemma AtomicPieces(t: string)
    requires Atomic(t)
    ensures Pieces(t) == [t]
  {
    if t[0] in Punctuation {
      assert [t[0]] == t;
    } else {
      assert PlainRun(t) == |t|;
      assert t[..|t|] == t && t[|t|..] == [];
    }
  }

  /** Atomic tokens come through the intended splitting unchanged. */
  lemma {:induction false} AtomicSplitAll(ts: seq<string>)
    requires forall k :: 0 <= k < |ts| ==> Atomic(ts[k])
    ensures SplitAll(ts) == ts
  {
    if ts != [] {
      AtomicPieces(ts[0]);
      AtomicSplitAll(ts[1..]);
      assert [ts[0]] + ts[1..] == ts;
    }
  }

  /** With the intended splitting, every renderable run of statements whose
      names are free of punctuation reads back, `interpretation`, `trace`,
      `meaning` and quoted `narratereturn` tokens included. */
  lemma IntendedRoundTrip(stmts: seq<Statement>)
    requires forall i :: 0 <= i < |stmts| ==> Renderable(stmts[i])
    requires forall k :: 0 <= k < |RenderAll(stmts)| ==> Atomic(RenderAll(stmts)[k])
    ensures ParseAll(SplitAll(RenderAll(stmts)), 0) == (stmts, |RenderAll(stmts)|)
  {
    AtomicSplitAll(RenderAll(stmts));
    ParseRoundTrip(stmts);
  }

  /** A numeral has no punctuation. */
  lemma NumeralAtomic(v: real)
    ensures Atomic(Numeral(v))
  {
    var s := Numeral(v);
    assert forall i :: 0 <= i < |s| ==> IsDigit(s[i]);
  }

  lemma InterpretationWordsAtomic()
    ensures Atomic("interpretation") && Atomic("=") && Atomic("[") && Atomic("]")
  {
  }

  lemma InterpretationTokens(name: string, values: seq<real>)
    ensures RenderAll([Interpretation(name, values)]) == ["interpretation", name, "=", "["] + Numerals(values) + ["]"]
  {
    var st := Interpretation(name, values);
    assert RenderAll([st]) == Render(st) + RenderAll([]);
  }

  /** The rendered tokens of an interpretation with a plain name are
      atomic. */
  lemma InterpretationAtomic(name: string, values: seq<real>)
    requires Atomic(name)
    ensures forall k :: 0 <= k < |RenderAll([Interpretation(name, values)])| ==> Atomic(RenderAll([Interpretation(name, values)])[k])
  {
    InterpretationTokens(name, values);
    InterpretationWordsAtomic();
    var head := ["interpretation", name, "=", "["];
    var nums := Numerals(values);
    var ts := head + nums + ["]"];
    forall k | 0 <= k < |ts| ensures Atomic(ts[k]) {
      if k < 4 {
        assert ts[k] == head[k];
      } else if k < 4 + |values| {
        assert ts[k] == nums[k - 4] == Numeral(values[k - 4]);
        NumeralAtomic(values[k - 4]);
      } else {
        assert ts[k] == "]";
      }
    }
  }

  /** Where the source's tokenizer never yields an `interpretation`, the
      intended one reads back every interpretation whose name is free of
      punctuation. */
  lemma IntendedReadsInterpretation(name: string, values: seq<real>)
    requires Atomic(name)
    requires forall i :: 0 <= i < |values| ==> Whole(values[i])
    ensures ParseAll(SplitAll(RenderAll([Interpretation(name, values)])), 0).0 == [Interpretation(name, values)]
  {
    InterpretationAtomic(name, values);
    IntendedRoundTrip([Interpretation(name, values)]);
  }

  /** The same round trip from text: the rendered tokens written out with
      single blanks between them and read by the intended tokenizer. */
  lemma IntendedTextRoundTrip(stmts: seq<Statement>)
    requires forall i :: 0 <= i < |stmts| ==> Renderable(stmts[i])
    requires forall k :: 0 <= k < |RenderAll(stmts)| ==> Atomic(RenderAll(stmts)[k]) && IsWord(RenderAll(stmts)[k])
    ensures ParseAll(TokenizeIntended(JoinSpaced(RenderAll(stmts))), 0) == (stmts, |RenderAll(stmts)|)
  {
    SplitJoinSpaced(RenderAll(stmts));
    IntendedRoundTrip(stmts);
  }

  /** A numeral is a word. */
  lemma NumeralWord(v: real)
    ensures IsWord(Numeral(v))
  {
    var s := Numeral(v);
    assert forall i :: 0 <= i < |s| ==> IsDigit(s[i]);
  }

  /** The text `interpretation <name> = [ <v1> ... <vn> ] `, read by the
      intended tokenizer, parses to that interpretation whenever the name
      is a single word free of punctuation. */
  lemma IntendedReadsInterpretationText(name: string, values: seq<real>)
    requires Atomic(name) && IsWord(name)
    requires forall i :: 0 <= i < |values| ==> Whole(values[i])
    ensures ParseAll(TokenizeIntended(JoinSpaced(["interpretation", name, "=", "["] + Numerals(values) + ["]"])), 0).0
      == [Interpretation(name, values)]
  {
    var st := Interpretation(name, values);
    InterpretationTokens(name, values);
    InterpretationAtomic(name, values);
    var ts := RenderAll([st]);
    forall k | 0 <= k < |ts| ensures IsWord(ts[k]) {
      if 4 <= k < 4 + |values| {
        assert ts[k] == Numeral(values[k - 4]);
        NumeralWord(values[k - 4]);
      }
    }
    IntendedTextRoundTrip([st]);
  }

  /** The input of the finding about the tokenizer, read as intended. */
  lemma IntendedReadsExample()
    ensures ParseAll(TokenizeIntended("interpretation x = [ 1 ]"), 0).0 == [Interpretation("x", [1.0])]
  {
    assert Numeral(1.0) == "1" by {
      assert ToBase(1, 10) == [DigitChar(1)];
    }
    var words := ["interpretation", "x", "=", "["] + Numerals([1.0]) + ["]"];
    assert words == ["interpretation", "x", "=", "[", "1", "]"];
    assert JoinSpaced(words) == "interpretation x = [ 1 ]" by {
      assert JoinSpaced(words[5..]) == "]";
      assert JoinSpaced(words[4..]) == "1 ]";
      assert JoinSpaced(words[3..]) == "[ 1 ]";
      assert JoinSpaced(words[2..]) == "= [ 1 ]";
      assert JoinSpaced(words[1..]) == "x = [ 1 ]";
    }
    IntendedReadsInterpretationText("x", [1.0]);
  }
}
