// Line-and-indentation parser of the narrative language
// (src/narrative/parser.rs). A cursor holds the significant lines with
// their indentation; block parsers pop a header and then the maximal run of
// more deeply indented lines. A panic of the source (`unwrap` on a missing
// piece, a failed number parse, an unrecognised action) is `None` here.

module NarrativeParser {
  import opened Options
  import opened Text
  import opened NarrativeAst

  // -----------------------------------------------------------------------
  // Lines and the cursor

  /** A line as the cursor stores it: the byte length of its leading
      whitespace and the text after it. */
  datatype Line = Line(indent: nat, text: string)

  /** Drops one `\r` at the end of a line that was ended by `\n`. */
  function StripCr(l: string): (r: string)
    ensures r == l || (l == r + "\r")
  {
    if |l| > 0 && l[|l| - 1] == '\r' then l[..|l| - 1] else l
  }

  /** `str::lines`: the text split at each `\n`, a `\r` before the `\n`
      dropped, and no empty piece after a final `\n`. */
  function Lines(s: string): (r: seq<string>)
    ensures forall k :: 0 <= k < |r| ==> '\n' !in r[k]
    ensures s != [] <==> r != []
    decreases |s|
  {
    if s == [] then []
    else
      match Find(s, "\n")
      case None =>
        assert forall j :: 0 <= j < |s| ==> !OccursAt(s, "\n", j);
        assert forall c :: c in s ==> c != '\n' by {
          forall j | 0 <= j < |s| ensures s[j] != '\n' { assert !OccursAt(s, "\n", j); }
        }
        [s]
      case Some(i) =>
        var head := s[..i];
        assert '\n' !in head by {
          forall j | 0 <= j < i ensures s[j] != '\n' { assert !OccursAt(s, "\n", j); }
        }
        var rest := Lines(s[i + 1..]);
        assert forall k :: 1 <= k < |rest| + 1 ==> ([StripCr(head)] + rest)[k] == rest[k - 1];
        [StripCr(head)] + rest
  }

  /** The lines joined by `\n`. */
  function JoinLines(ls: seq<string>): string {
    if ls == [] then []
    else if |ls| == 1 then ls[0]
    else ls[0] + "\n" + JoinLines(ls[1..])
  }

  /** Joining the lines with `\n` gives the text back when it has no `\r`
      and does not end with `\n`. */
  lemma {:induction false} JoinLinesRoundTrip(s: string)
    requires '\r' !in s && (s == [] || s[|s| - 1] != '\n')
    ensures JoinLines(Lines(s)) == s
    decreases |s|
  {
    if s != [] {
      match Find(s, "\n")
      case None =>
      case Some(i) =>
        var head, rest := s[..i], s[i + 1..];
        assert s == head + "\n" + rest;
        assert StripCr(head) == head by {
          assert head != [] ==> head[|head| - 1] == s[i - 1];
        }
        assert rest != [] by {
          assert s[i] == '\n';
        }
        assert rest[|rest| - 1] == s[|s| - 1];
        JoinLinesRoundTrip(rest);
        assert Lines(s) == [head] + Lines(rest);
    }
  }

  /** A raw line is kept when, after leading whitespace, it is neither empty
      nor a `#` comment. */
  predicate Significant(raw: string) {
    var t := TrimStart(raw);
    t != [] && t[0] != '#'
  }

  /** The stored form of a raw line. */
  function Entry(raw: string): (l: Line)
    ensures |l.text| <= |raw| && raw == raw[..|raw| - |l.text|] + l.text
    ensures forall i :: 0 <= i < |raw| - |l.text| ==> IsWhitespace(raw[i])
    ensures l.text != [] ==> !IsWhitespace(l.text[0])
    ensures l.indent + Utf8Length(l.text) == Utf8Length(raw)
  {
    var t := TrimStart(raw);
    var lead := raw[..|raw| - |t|];
    assert raw == lead + t;
    Utf8LengthAppend(lead, t);
    Line(Utf8Length(lead), t)
  }

  lemma {:induction false} Utf8LengthAppend(a: string, b: string)
    ensures Utf8Length(a + b) == Utf8Length(a) + Utf8Length(b)
  {
    if a == [] {
      assert a + b == b;
    } else {
      assert (a + b)[1..] == a[1..] + b;
      Utf8LengthAppend(a[1..], b);
    }
  }

  /** The significant lines, in order, in their stored form. */
  function Collect(raws: seq<string>): (r: seq<Line>)
    ensures |r| <= |raws|
    ensures forall k :: 0 <= k < |r| ==> r[k].text != [] && !IsWhitespace(r[k].text[0]) && r[k].text[0] != '#'
  {
    if raws == [] then []
    else
      var front := Collect(raws[..|raws| - 1]);
      var last := raws[|raws| - 1];
      if Significant(last) then front + [Entry(last)] else front
  }

  /** Collecting a concatenation collects the parts; a single raw line
      yields its entry exactly when it is significant. */
  lemma {:induction false} CollectAppend(a: seq<string>, b: seq<string>)
    ensures Collect(a + b) == Collect(a) + Collect(b)
    decreases |b|
  {
    if b == [] {
      assert a + b == a;
    } else {
      assert (a + b)[..|a + b| - 1] == a + b[..|b| - 1];
      CollectAppend(a, b[..|b| - 1]);
    }
  }

  lemma CollectOne(raw: string)
    ensures Collect([raw]) == if Significant(raw) then [Entry(raw)] else []
  {
    assert [raw][..0] == [];
  }

  /** Collecting one more raw line. */
  lemma CollectStep(raws: seq<string>, i: nat)
    requires i < |raws|
    ensures Collect(raws[..i + 1]) == Collect(raws[..i]) + (if Significant(raws[i]) then [Entry(raws[i])] else [])
  {
    var p := raws[..i + 1];
    assert p[..|p| - 1] == raws[..i];
  }

  /** The lines of a script that the cursor holds. */
  function ScriptLines(script: string): seq<Line>
  {
    Collect(Lines(script))
  }

  /** `LineCursor`: a queue of significant lines. */
  class LineCursor {
    var lines: seq<Line>

    /** `LineCursor::from`: the significant lines of the script, in order,
        each with the byte length of its leading whitespace. */
    constructor From(script: string)
      ensures lines == ScriptLines(script)
    {
      var raws := Lines(script);
      var kept: seq<Line> := [];
      var i := 0;
      assert raws[..0] == [];
      while i < |raws|
        invariant 0 <= i <= |raws|
        invariant kept == Collect(raws[..i])
      {
        var raw := raws[i];
        CollectStep(raws, i);
        if Significant(raw) {
          kept := kept + [Entry(raw)];
        }
        i := i + 1;
      }
      assert raws[..|raws|] == raws;
      lines := kept;
    }

    /** `peek`: the front line, if any. */
    function Peek(): (r: Option<Line>)
      reads this
      ensures r.Some? <==> lines != []
      ensures r.Some? ==> r.value == lines[0]
    {
      if lines == [] then None else Some(lines[0])
    }

    /** `next`: removes and returns the front line, if any. */
    method Next() returns (r: Option<Line>)
      modifies this
      ensures old(lines) == [] ==> r.None? && lines == old(lines)
      ensures old(lines) != [] ==> r == Some(old(lines)[0]) && lines == old(lines)[1..]
    {
      if lines == [] {
        r := None;
      } else {
        r := Some(lines[0]);
        lines := lines[1..];
      }
    }
  }

  // -----------------------------------------------------------------------
  // Headers and actions (pure string classification)

  /** `parse_at_tau`'s header: every leading `at τ=` stripped, the text
      before the first `:` trimmed and read as a `u64`. */
  function AtTauHeader(text: string): (r: Option<nat>)
    ensures r.Some? ==> r.value <= U64Max
  {
    ParseUnsigned(Trim(Split(TrimStartMatches(text, "at τ="), ":")[0]), U64Max)
  }

  /** `parse_repeat`'s header: every leading `repeat` stripped, the text
      before the first `times` trimmed and read as a `u32`. */
  function RepeatHeader(text: string): (r: Option<nat>)
    ensures r.Some? ==> r.value <= U32Max
  {
    ParseUnsigned(Trim(Split(TrimStartMatches(text, "repeat"), "times")[0]), U32Max)
  }

  /** `parse_while`'s header: the condition between `while` and the
      trailing colons, trimmed. */
  function WhileHeader(text: string): (r: string)
    ensures r != [] ==> !IsWhitespace(r[0]) && !IsWhitespace(r[|r| - 1])
  {
    Trim(TrimEndMatches(TrimStartMatches(text, "while"), ":"))
  }

  /** Only the non-empty entries. */
  function NonEmpty(ss: seq<string>): (r: seq<string>)
    ensures |r| <= |ss|
    ensures forall k :: 0 <= k < |r| ==> r[k] != [] && r[k] in ss
  {
    if ss == [] then []
    else
      var rest := NonEmpty(ss[1..]);
      if ss[0] != [] then [ss[0]] + rest else rest
  }

  function TrimAll(ss: seq<string>): (r: seq<string>)
    ensures |r| == |ss| && forall k :: 0 <= k < |ss| ==> r[k] == Trim(ss[k])
  {
    seq(|ss|, k requires 0 <= k < |ss| => Trim(ss[k]))
  }

  /** A macro's parameters: the comma-separated pieces, trimmed, without the
      empty ones. */
  function MacroParams(text: string): (r: seq<string>)
    ensures forall k :: 0 <= k < |r| ==> r[k] != []
  {
    NonEmpty(TrimAll(Split(text, ",")))
  }

  /** `parse_macro_def`'s header: after every leading `macro` and trimming,
      the name before the first `(` and the parameters up to the first `)`.
      A missing parenthesis, or a `)` before the `(`, is a panic. */
  function MacroHeader(text: string): (r: Option<(string, seq<string>)>)
    ensures r.Some? ==> forall k :: 0 <= k < |r.value.1| ==> r.value.1[k] != []
  {
    var h := Trim(TrimStartMatches(text, "macro"));
    var open := Find(h, "(");
    var close := Find(h, ")");
    if open.None? || close.None? || close.value < open.value then None
    else Some((Trim(h[..open.value]), MacroParams(h[open.value + 1..close.value])))
  }

  /** The arguments of a macro call as the source reads them: every
      comma-separated piece, trimmed, empty ones included. An empty argument
      list therefore yields one empty argument. */
  function CallArgsAsWritten(text: string): (r: seq<string>)
    ensures |r| >= 1
  {
    TrimAll(Split(text, ","))
  }

  /** The arguments of a macro call as evidently intended: none for a blank
      argument list, otherwise as the source reads them. */
  function CallArgs(text: string): (r: seq<string>)
    ensures Trim(text) == [] <==> r == []
  {
    if Trim(text) == [] then [] else
      var r := CallArgsAsWritten(text);
      assert r[0] == Trim(Split(text, ",")[0]);
      TrimNonEmptyPiece(text);
      r
  }

  /** The first comma-separated piece of a non-blank text is blank only if
      a comma follows it. */
  lemma TrimNonEmptyPiece(text: string)
    requires Trim(text) != []
    ensures Trim(Split(text, ",")[0]) == [] ==> Find(text, ",").Some?
  {
  }

  /** A text that trims to nothing is all whitespace. */
  lemma BlankIsWhitespace(text: string)
    requires Trim(text) == []
    ensures forall i :: 0 <= i < |text| ==> IsWhitespace(text[i])
  {
    var t := TrimLeft(text, IsWhitespace);
    assert TrimRight(t, IsWhitespace) == [];
    forall i | 0 <= i < |text| ensures IsWhitespace(text[i]) {
      if i >= |text| - |t| {
        assert text[i] == t[i - (|text| - |t|)];
      }
    }
  }

  /** A blank text contains no comma, so splitting it gives one piece. */
  lemma BlankSplit(text: string)
    requires Trim(text) == []
    ensures Split(text, ",") == [text]
  {
    BlankIsWhitespace(text);
    forall j | 0 <= j <= |text| ensures !OccursAt(text, ",", j) {
      if j < |text| {
        assert text[j..j + 1] == [text[j]];
      }
    }
  }

  lemma {:induction false} NonEmptyKeepsAll(ss: seq<string>)
    requires forall k :: 0 <= k < |ss| ==> ss[k] != []
    ensures NonEmpty(ss) == ss
  {
    if ss != [] {
      NonEmptyKeepsAll(ss[1..]);
      assert [ss[0]] + ss[1..] == ss;
    }
  }

  /** A macro defined with a blank parameter list, as in `macro f():`, has
      no parameters. */
  lemma BlankParams(text: string)
    requires Trim(text) == []
    ensures MacroParams(text) == []
  {
    BlankSplit(text);
    assert TrimAll([text]) == [Trim(text)];
    assert NonEmpty([[]]) == [];
  }

  /** As written, a call whose argument list is blank, as in `f()` or
      `f( )`, passes one empty argument, while a definition whose parameter
      list is blank, as in `macro f():`, declares none. */
  lemma EmptyCallAsWritten(text: string)
    requires Trim(text) == []
    ensures CallArgsAsWritten(text) == [""]
    ensures MacroParams(text) == []
  {
    BlankSplit(text);
    BlankParams(text);
    assert TrimAll([text]) == [Trim(text)];
  }

  /** With the correction, the arguments of a call read exactly like the
      parameters of a definition with the same text whenever no argument
      is blank; in particular `f()` passes no argument. */
  lemma CallArgsMatchParams(text: string)
    requires Trim(text) == [] || forall k :: 0 <= k < |CallArgsAsWritten(text)| ==> CallArgsAsWritten(text)[k] != []
    ensures CallArgs(text) == MacroParams(text)
  {
    if Trim(text) == [] {
      BlankParams(text);
    } else {
      NonEmptyKeepsAll(CallArgsAsWritten(text));
    }
  }

  /** `create agent <name> <mem> <coh>`: the first three words after the
      prefix; later words are ignored. */
  function CreateAgentAction(rest: string): (r: Option<Action>)
    ensures r.Some? ==> r.value.CreateAgent? && r.value.mem <= U32Max
  {
    var parts := SplitWhitespace(rest);
    if |parts| < 3 then None
    else
      match (ParseUnsigned(parts[1], U32Max), ParseFloat(parts[2]))
      case (Some(mem), Some(coh)) => Some(CreateAgent(parts[0], mem, coh))
      case _ => None
  }

  /** `let <name> = <value>`, split at the first `=`. */
  function LetAction(rest: string): (r: Option<Action>)
    ensures r.Some? <==> Contains(rest, "=")
    ensures r.Some? ==> r.value.VariableAssignment?
  {
    match SplitOnce(rest, "=")
    case Some((name, value)) => Some(VariableAssignment(Trim(name), Trim(value)))
    case None => None
  }

  function TickAction(rest: string): (r: Option<Action>)
    ensures r.Some? ==> r.value.Tick? && r.value.ticks <= U32Max
  {
    match ParseUnsigned(Trim(rest), U32Max)
    case Some(n) => Some(Tick(n))
    case None => None
  }

  /** `<agent> says: <token> → <pattern>`. */
  function SayAction(agent: string, rest: string): (r: Option<Action>)
    ensures r.Some? ==> r.value.Say?
  {
    match SplitOnce(rest, " → ")
    case Some((token, pattern)) => Some(Say(Trim(agent), Trim(token), Trim(pattern)))
    case None => None
  }

  /** `<agent> hears: <token> → <anything>`. */
  function HearAction(agent: string, rest: string): (r: Option<Action>)
    ensures r.Some? ==> r.value.Interpret?
  {
    match SplitOnce(rest, " → ")
    case Some((token, _)) => Some(Interpret(Trim(agent), Trim(token)))
    case None => None
  }

  /** `<name>(<args>)`: the name before the first `(`, the arguments up to
      the first `)`; a `)` before the `(` is a panic. */
  function CallAction(line: string): (r: Option<Action>)
    requires Contains(line, "(")
    ensures r.Some? ==> r.value.MacroCall?
  {
    var open := Find(line, "(").value;
    match Find(line, ")")
    case Some(close) =>
      if close < open then None
      else Some(MacroCall(Trim(line[..open]), CallArgsAsWritten(line[open + 1..close])))
    case None => None
  }

  /** The call as evidently intended: the same callee, and no argument for
      a blank argument list. */
  function CallActionIntended(line: string): (r: Option<Action>)
    requires Contains(line, "(")
    ensures r.Some? <==> CallAction(line).Some?
    ensures r.Some? ==> r.value.MacroCall? && r.value.callee == CallAction(line).value.callee
  {
    var open := Find(line, "(").value;
    match Find(line, ")")
    case Some(close) =>
      if close < open then None
      else Some(MacroCall(Trim(line[..open]), CallArgs(line[open + 1..close])))
    case None => None
  }

  /** A call whose parentheses hold only blanks, as in `f()`, passes one
      empty argument as written, so it never matches a definition with a
      blank parameter list (see `EmptyCallAsWritten`). */
  lemma BlankCall(line: string, open: nat, close: nat)
    requires Find(line, "(") == Some(open) && Find(line, ")") == Some(close) && open < close
    requires Trim(line[open + 1..close]) == []
    ensures CallAction(line) == Some(MacroCall(Trim(line[..open]), [""]))
  {
    CallActionArgs(line, open, close);
    EmptyCallAsWritten(line[open + 1..close]);
  }

  lemma CallActionArgs(line: string, open: nat, close: nat)
    requires Find(line, "(") == Some(open) && Find(line, ")") == Some(close) && open < close
    ensures CallAction(line) == Some(MacroCall(Trim(line[..open]), CallArgsAsWritten(line[open + 1..close])))
  {
  }

  /** With the intended reading the same call passes no argument, exactly
      as many as the blank parameter list declares. */
  lemma BlankCallIntended(line: string, open: nat, close: nat)
    requires Find(line, "(") == Some(open) && Find(line, ")") == Some(close) && open < close
    requires Trim(line[open + 1..close]) == []
    ensures CallActionIntended(line) == Some(MacroCall(Trim(line[..open]), []))
  {
  }

  /** A line with a prefix starts with the prefix's first character; the
      action keywords all start differently, so at most one applies. */
  lemma StartsWithFirst(line: string, p: string)
    requires |p| > 0
    ensures StartsWith(line, p) ==> |line| > 0 && line[0] == p[0]
  {
    if StartsWith(line, p) {
      assert line[..|p|][0] == p[0];
    }
  }

  /** None of the four keyword prefixes starts the line. */
  predicate NoKeywordPrefix(line: string) {
    !StartsWith(line, "create agent ") && !StartsWith(line, "let ")
    && !StartsWith(line, "tick ") && !StartsWith(line, "assert ")
  }

  /** None of the three agent markers occurs in the line. */
  predicate NoAgentMarker(line: string) {
    !Contains(line, " says: ") && !Contains(line, " hears: ") && !Contains(line, " interprets: ")
  }

  /** The text after the first occurrence of `sep`, when there is one. */
  function After(line: string, sep: string): string {
    match SplitOnce(line, sep)
    case Some((_, rest)) => rest
    case None => []
  }

  /** `parse_action`: classification by a fixed priority order — the four
      keyword prefixes, then ` says: `, ` hears: `, ` interprets: `, a
      parenthesised call, a `#` comment, and otherwise a panic. */
  function ParseAction(line: string): (r: Option<Action>)
    ensures StartsWith(line, "create agent ") ==> r.None? || r.value.CreateAgent?
    ensures StartsWith(line, "let ") ==> r.None? || r.value.VariableAssignment?
    ensures StartsWith(line, "tick ") ==> r.None? || r.value.Tick?
    ensures StartsWith(line, "assert ") ==> r.None? || r.value.Assert?
    ensures r.Some? && r.value.Comment? ==> |line| > 0 && line[0] == '#'
    ensures r.Some? ==> !r.value.Conditional? && !r.value.Project?
  {
    StartsWithFirst(line, "create agent ");
    StartsWithFirst(line, "let ");
    StartsWithFirst(line, "tick ");
    StartsWithFirst(line, "assert ");
    StartsWithFirst(line, "#");
    if StartsWith(line, "create agent ") then CreateAgentAction(line[|"create agent "|..])
    else if StartsWith(line, "let ") then LetAction(line[|"let "|..])
    else if StartsWith(line, "tick ") then TickAction(line[|"tick "|..])
    else if StartsWith(line, "assert ") then Some(Assert(Trim(line[|"assert "|..])))
    else if Contains(line, " says: ") then
      var (agent, rest) := SplitOnce(line, " says: ").value;
      SayAction(agent, rest)
    else if Contains(line, " hears: ") then
      var (agent, rest) := SplitOnce(line, " hears: ").value;
      HearAction(agent, rest)
    else if Contains(line, " interprets: ") then
      var (agent, rest) := SplitOnce(line, " interprets: ").value;
      Some(Interpret(Trim(agent), Trim(rest)))
    else if Contains(line, "(") && EndsWith(line, ")") then CallAction(line)
    else if StartsWith(line, "#") then Some(Comment(Trim(line[1..])))
    else None
  }

  /** Which branch of `parse_action` a line takes, and when that branch
      succeeds: each case holds only when every earlier marker is absent,
      and a line with none of the markers is the source's panic. */
  lemma ParseActionOrder(line: string)
    ensures var r := ParseAction(line);
      && (StartsWith(line, "let ") ==> (r.Some? <==> Contains(line[4..], "=")))
      && (StartsWith(line, "tick ") ==> (r.Some? <==> ParseUnsigned(Trim(line[5..]), U32Max).Some?))
      && (StartsWith(line, "assert ") ==> r.Some?)
      && (NoKeywordPrefix(line) && Contains(line, " says: ") ==>
            (r.Some? <==> Contains(After(line, " says: "), " → ")) && (r.Some? ==> r.value.Say?))
      && (NoKeywordPrefix(line) && !Contains(line, " says: ") && Contains(line, " hears: ") ==>
            (r.Some? <==> Contains(After(line, " hears: "), " → ")) && (r.Some? ==> r.value.Interpret?))
      && (NoKeywordPrefix(line) && !Contains(line, " says: ") && !Contains(line, " hears: ") && Contains(line, " interprets: ") ==>
            r.Some? && r.value.Interpret?)
      && (NoKeywordPrefix(line) && NoAgentMarker(line) && Contains(line, "(") && EndsWith(line, ")") ==>
            (r.Some? <==> Contains(line, ")") && Find(line, "(").value < Find(line, ")").value) && (r.Some? ==> r.value.MacroCall?))
      && (NoKeywordPrefix(line) && NoAgentMarker(line) && !(Contains(line, "(") && EndsWith(line, ")")) ==>
            (r.Some? <==> StartsWith(line, "#")) && (r.Some? ==> r.value.Comment?))
  {
    StartsWithFirst(line, "create agent ");
    StartsWithFirst(line, "let ");
    StartsWithFirst(line, "tick ");
    StartsWithFirst(line, "assert ");
  }

  /** A line that starts with an agent word followed by a marker such as
      ` says: ` has none of the keyword prefixes, unless the agent is
      itself one of the keywords `let`, `tick` or `assert`. */
  lemma AgentLineNoKeyword(agent: string, marker: string, tail: string)
    requires IsWord(agent) && agent != "let" && agent != "tick" && agent != "assert"
    requires |marker| > 1 && marker[0] == ' ' && marker[1] != 'a'
    ensures NoKeywordPrefix(agent + marker + tail)
  {
    var line := agent + marker + tail;
    assert line == agent + " " + (marker[1..] + tail);
    WordBeforeBlank(agent, marker[1..] + tail, "create", "agent ");
    WordBeforeBlank(agent, marker[1..] + tail, "let", []);
    WordBeforeBlank(agent, marker[1..] + tail, "tick", []);
    WordBeforeBlank(agent, marker[1..] + tail, "assert", []);
    assert line[|agent| + 1] == marker[1];
  }

  /** A well-formed `says` line gives its Say, whatever follows the arrow:
      a ` hears: ` or ` interprets: ` in the pattern does not matter,
      because ` says: ` is tried first. */
  lemma SayLine(agent: string, token: string, pattern: string)
    requires IsWord(agent) && agent != "let" && agent != "tick" && agent != "assert"
    requires IsWord(token)
    ensures ParseAction(agent + " says: " + token + " → " + pattern) == Some(Say(agent, token, Trim(pattern)))
  {
    var rest := token + " → " + pattern;
    var line := agent + " says: " + rest;
    assert agent + " says: " + token + " → " + pattern == line;
    AgentLineNoKeyword(agent, " says: ", rest);
    FindAfterWord(agent, " says: ", rest);
    FindAfterWord(token, " → ", pattern);
    TrimWord(agent);
    TrimWord(token);
  }

  /** A well-formed `hears` line without ` says: ` gives the Interpret of
      its agent and token; what follows the arrow is dropped. */
  lemma HearLine(agent: string, token: string, tail: string)
    requires IsWord(agent) && agent != "let" && agent != "tick" && agent != "assert"
    requires IsWord(token)
    requires !Contains(agent + " hears: " + token + " → " + tail, " says: ")
    ensures ParseAction(agent + " hears: " + token + " → " + tail) == Some(Interpret(agent, token))
  {
    var rest := token + " → " + tail;
    var line := agent + " hears: " + rest;
    assert agent + " hears: " + token + " → " + tail == line;
    AgentLineNoKeyword(agent, " hears: ", rest);
    FindAfterWord(agent, " hears: ", rest);
    FindAfterWord(token, " → ", tail);
    TrimWord(agent);
    TrimWord(token);
  }

  /** `tick <n>` gives Tick(n) for every count that fits in a u32. */
  lemma TickLine(n: nat)
    requires n <= U32Max
    ensures ParseAction("tick " + DecimalString(n)) == Some(Tick(n))
  {
    var line := "tick " + DecimalString(n);
    assert line[..5] == "tick ";
    assert line[5..] == DecimalString(n);
    assert line[0] == 't';
    StartsWithFirst(line, "create agent ");
    StartsWithFirst(line, "let ");
    assert ParseAction(line) == TickAction(DecimalString(n));
    TrimWord(DecimalString(n));
    ParseDecimalString(n, U32Max);
  }

  /** `let` splits at the first `=`, so the value may itself contain `=`;
      both sides are trimmed. */
  lemma LetSplitsAtFirstEquals(name: string, value: string)
    requires '=' !in name
    ensures ParseAction("let " + name + "=" + value) == Some(VariableAssignment(Trim(name), Trim(value)))
  {
    var line := "let " + name + "=" + value;
    var rest := name + "=" + value;
    assert line[..4] == "let ";
    assert line[4..] == rest;
    StartsWithFirst(line, "create agent ");
    forall j | 0 <= j < |name| ensures !OccursAt(rest, "=", j) {
      assert rest[j..j + 1] == [name[j]];
    }
    assert rest[|name|..|name| + 1] == "=";
    FindIs(rest, "=", |name|);
    assert rest[..|name|] == name && rest[|name| + 1..] == value;
  }

  // -----------------------------------------------------------------------
  // Blocks over the line queue

  /** A parse result and the number of queue lines it consumed. */
  datatype Parsed<T> = Parsed(value: T, used: nat)

  /** How single lines are read: the condition of an `if ...:` action
      header, a plain action, and a top-level header together with its
      parsed body. The queue functions below depend on the lines only
      through these readers; the parser's own are `Narrative`. */
  datatype Readers = Readers(
    condition: string -> Option<string>,
    action: string -> Option<Action>,
    block: (string, seq<Action>) -> Option<Block>)

  /** `parse_action_block`'s test for a conditional: a line starting with
      `if ` and ending with `:`; the condition is what lies between, with
      every leading `if` and trailing `:` stripped, trimmed. */
  function IfHeader(text: string): (r: Option<string>)
    ensures r.Some? <==> StartsWith(text, "if ") && EndsWith(text, ":")
    ensures r.Some? && r.value != [] ==> !IsWhitespace(r.value[0])
  {
    if StartsWith(text, "if ") && EndsWith(text, ":") then
      Some(Trim(TrimEndMatches(TrimStartMatches(text, "if"), ":")))
    else None
  }

  /** `parse_action_block` on the queue `ls`: a header `if ...:` takes the
      lines indented deeper than itself as its body; any other line is one
      action. Consumes the first line and then only lines indented deeper
      than it. */
  function ActionBlockOf(ls: seq<Line>, rd: Readers): (r: Option<Parsed<seq<Action>>>)
    requires ls != []
    ensures r.Some? ==> 1 <= r.value.used <= |ls|
    ensures r.Some? ==> |r.value.value| == 1
    decreases |ls|, 0
  {
    var line := ls[0];
    match rd.condition(line.text)
    case Some(cond) =>
      (match BodyOf(ls[1..], line.indent, rd)
       case None => None
       case Some(p) =>
         Some(Parsed([Conditional(cond, p.value)], 1 + p.used)))
    case None =>
      match rd.action(line.text)
      case None => None
      case Some(a) => Some(Parsed([a], 1))
  }

  /** The body loop every block parser runs: action blocks while the front
      line is indented deeper than `base`. On success the consumed lines
      are exactly the maximal run of lines indented deeper than `base`. */
  function BodyOf(ls: seq<Line>, base: nat, rd: Readers): (r: Option<Parsed<seq<Action>>>)
    ensures r.Some? ==> r.value.used <= |ls|
    decreases |ls|, 1
  {
    if ls == [] || ls[0].indent <= base then Some(Parsed([], 0))
    else
      match ActionBlockOf(ls, rd)
      case None => None
      case Some(first) =>
        var k := first.used;
        match BodyOf(ls[k..], base, rd)
        case None => None
        case Some(more) =>
          Some(Parsed(first.value + more.value, k + more.used))
  }

  /** `parse_script`'s dispatch on a header line, given the parsed body:
      `macro `, `at τ=`, `repeat `, `while ` and `parallel:` headers in that
      order, and any other line read as an `at τ=` header. */
  function HeaderBlock(text: string, body: seq<Action>): (r: Option<Block>)
    ensures r.Some? && StartsWith(text, "macro ") ==> r.value.MacroDef?
    ensures r.Some? && StartsWith(text, "repeat ") ==> r.value.Repeat?
    ensures r.Some? && StartsWith(text, "while ") ==> r.value.While?
    ensures r.Some? && StartsWith(text, "parallel:") ==> r.value.Parallel?
    ensures r.Some? && !StartsWith(text, "macro ") && !StartsWith(text, "repeat ")
              && !StartsWith(text, "while ") && !StartsWith(text, "parallel:")
            ==> r.value.AtTau?
    ensures StartsWith(text, "while ") || StartsWith(text, "parallel:") ==> r.Some?
    ensures r.Some? ==> r.value.body == body
  {
    StartsWithFirst(text, "macro ");
    StartsWithFirst(text, "at τ=");
    StartsWithFirst(text, "repeat ");
    StartsWithFirst(text, "while ");
    StartsWithFirst(text, "parallel:");
    if StartsWith(text, "macro ") then
      match MacroHeader(text)
      case None => None
      case Some((name, params)) => Some(MacroDef(name, params, body))
    else if StartsWith(text, "at τ=") then
      match AtTauHeader(text)
      case None => None
      case Some(t) => Some(AtTau(t, body))
    else if StartsWith(text, "repeat ") then
      match RepeatHeader(text)
      case None => None
      case Some(n) => Some(Repeat(n, body))
    else if StartsWith(text, "while ") then Some(While(WhileHeader(text), body))
    else if StartsWith(text, "parallel:") then Some(Parallel(body))
    else
      match AtTauHeader(text)
      case None => None
      case Some(t) => Some(AtTau(t, body))
  }

  /** The readers of the narrative parser. */
  const Narrative := Readers(IfHeader, ParseAction, HeaderBlock)

  /** A block parser on the queue: the header line, then its body. */
  function BlockOf(ls: seq<Line>, rd: Readers): (r: Option<Parsed<Block>>)
    requires ls != []
    ensures r.Some? ==> 1 <= r.value.used <= |ls|
  {
    match BodyOf(ls[1..], ls[0].indent, rd)
    case None => None
    case Some(body) =>
      match rd.block(ls[0].text, body.value)
      case None => None
      case Some(b) => Some(Parsed(b, 1 + body.used))
  }

  /** `parse_script` on the queue: blocks until the queue is empty. */
  function ScriptOf(ls: seq<Line>, rd: Readers): (r: Option<seq<Block>>)
    ensures r.Some? ==> |r.value| <= |ls|
    ensures r.Some? && ls != [] ==> |r.value| >= 1
    decreases |ls|
  {
    if ls == [] then Some([])
    else
      match BlockOf(ls, rd)
      case None => None
      case Some(first) =>
        match ScriptOf(ls[first.used..], rd)
        case None => None
        case Some(more) => Some([first.value] + more)
  }

  /** An action block consumes its first line and then only lines indented
      deeper than it. */
  lemma {:induction false} ActionBlockRun(ls: seq<Line>, rd: Readers)
    requires ls != [] && ActionBlockOf(ls, rd).Some?
    ensures forall j :: 1 <= j < ActionBlockOf(ls, rd).value.used ==> ls[j].indent > ls[0].indent
    decreases |ls|, 0
  {
    if rd.condition(ls[0].text).Some? {
      var p := BodyOf(ls[1..], ls[0].indent, rd).value;
      BodyRun(ls[1..], ls[0].indent, rd);
      assert forall j :: 1 <= j < 1 + p.used ==> ls[j] == ls[1..][j - 1];
    }
  }

  /** A body consumes exactly the maximal run of lines indented deeper than
      `base`: every consumed line is deeper, and the line after it is not. */
  lemma {:induction false} BodyRun(ls: seq<Line>, base: nat, rd: Readers)
    requires BodyOf(ls, base, rd).Some?
    ensures forall j :: 0 <= j < BodyOf(ls, base, rd).value.used ==> ls[j].indent > base
    ensures var n := BodyOf(ls, base, rd).value.used; n == |ls| || ls[n].indent <= base
    decreases |ls|, 1
  {
    if ls != [] && ls[0].indent > base {
      var k := ActionBlockOf(ls, rd).value.used;
      ActionBlockRun(ls, rd);
      var more := BodyOf(ls[k..], base, rd).value;
      BodyRun(ls[k..], base, rd);
      assert BodyOf(ls, base, rd).value.used == k + more.used;
      JoinRuns(ls, base, k, more.used);
    }
  }

  /** Two runs of lines deeper than `base`, one after the other, form one. */
  lemma JoinRuns(ls: seq<Line>, base: nat, k: nat, m: nat)
    requires 1 <= k <= |ls| && m <= |ls| - k
    requires ls[0].indent > base && forall j :: 1 <= j < k ==> ls[j].indent > ls[0].indent
    requires forall j :: 0 <= j < m ==> ls[k..][j].indent > base
    requires m == |ls| - k || ls[k..][m].indent <= base
    ensures forall j :: 0 <= j < k + m ==> ls[j].indent > base
    ensures k + m == |ls| || ls[k + m].indent <= base
  {
    forall j | 0 <= j < k + m
      ensures ls[j].indent > base
    {
      if j >= k {
        assert ls[j] == ls[k..][j - k];
      }
    }
  }

  /** A top-level block is its header line and the maximal run of lines
      indented deeper than the header. */
  lemma BlockRun(ls: seq<Line>, rd: Readers)
    requires ls != [] && BlockOf(ls, rd).Some?
    ensures forall j :: 1 <= j < BlockOf(ls, rd).value.used ==> ls[j].indent > ls[0].indent
    ensures var n := BlockOf(ls, rd).value.used; n == |ls| || ls[n].indent <= ls[0].indent
  {
    var body := BodyOf(ls[1..], ls[0].indent, rd).value;
    BodyRun(ls[1..], ls[0].indent, rd);
    assert forall j :: 1 <= j < 1 + body.used ==> ls[j] == ls[1..][j - 1];
    assert 1 + body.used < |ls| ==> ls[1 + body.used] == ls[1..][body.used];
  }

  // -----------------------------------------------------------------------
  // Comments never reach the parsed script

  /** Every stored line is non-empty and does not start with `#`. */
  predicate NoHashLines(ls: seq<Line>) {
    forall k :: 0 <= k < |ls| ==> ls[k].text != [] && ls[k].text[0] != '#'
  }

  /** The action reader never yields a conditional, and yields a comment
      only for a line starting with `#`. */
  ghost predicate CommentsNeedHash(rd: Readers) {
    forall t :: rd.action(t).Some? ==>
      !rd.action(t).value.Conditional? && (rd.action(t).value.Comment? ==> t != [] && t[0] == '#')
  }

  /** The block reader keeps the body it is given. */
  ghost predicate KeepsBody(rd: Readers) {
    forall t, body :: rd.block(t, body).Some? ==> rd.block(t, body).value.body == body
  }

  lemma {:induction false} ActionBlockNoComment(ls: seq<Line>, rd: Readers)
    requires ls != [] && NoHashLines(ls) && CommentsNeedHash(rd)
    requires ActionBlockOf(ls, rd).Some?
    ensures NoCommentIn(ActionBlockOf(ls, rd).value.value)
    decreases |ls|, 0
  {
    var a := ActionBlockOf(ls, rd).value.value[0];
    if rd.condition(ls[0].text).Some? {
      assert NoHashLines(ls[1..]) by {
        forall k | 0 <= k < |ls| - 1 ensures ls[1..][k] == ls[k + 1] { }
      }
      BodyNoComment(ls[1..], ls[0].indent, rd);
      var p := BodyOf(ls[1..], ls[0].indent, rd).value;
      assert a == Conditional(rd.condition(ls[0].text).value, p.value);
    } else {
      assert NoComment(a);
    }
  }

  lemma {:induction false} BodyNoComment(ls: seq<Line>, base: nat, rd: Readers)
    requires NoHashLines(ls) && CommentsNeedHash(rd)
    requires BodyOf(ls, base, rd).Some?
    ensures NoCommentIn(BodyOf(ls, base, rd).value.value)
    decreases |ls|, 1
  {
    if ls != [] && ls[0].indent > base {
      var first := ActionBlockOf(ls, rd).value;
      ActionBlockNoComment(ls, rd);
      var k := first.used;
      assert NoHashLines(ls[k..]) by {
        forall j | 0 <= j < |ls| - k ensures ls[k..][j] == ls[k + j] { }
      }
      BodyNoComment(ls[k..], base, rd);
      var more := BodyOf(ls[k..], base, rd).value.value;
      var all := first.value + more;
      assert BodyOf(ls, base, rd).value.value == all;
      forall i | 0 <= i < |all| ensures NoComment(all[i]) {
        if i >= |first.value| {
          assert all[i] == more[i - |first.value|];
        }
      }
    }
  }

  lemma {:induction false} ScriptNoComment(ls: seq<Line>, rd: Readers)
    requires NoHashLines(ls) && CommentsNeedHash(rd) && KeepsBody(rd)
    requires ScriptOf(ls, rd).Some?
    ensures forall i :: 0 <= i < |ScriptOf(ls, rd).value| ==> NoCommentIn(ScriptOf(ls, rd).value[i].body)
    decreases |ls|
  {
    if ls != [] {
      var first := BlockOf(ls, rd).value;
      var body := BodyOf(ls[1..], ls[0].indent, rd).value;
      assert NoHashLines(ls[1..]) by {
        forall k | 0 <= k < |ls| - 1 ensures ls[1..][k] == ls[k + 1] { }
      }
      BodyNoComment(ls[1..], ls[0].indent, rd);
      assert first.value.body == body.value;
      var k := first.used;
      assert NoHashLines(ls[k..]) by {
        forall j | 0 <= j < |ls| - k ensures ls[k..][j] == ls[k + j] { }
      }
      ScriptNoComment(ls[k..], rd);
    }
  }

  /** `parse_script` on the text of a script. */
  function ParseScriptText(script: string): Option<seq<Block>>
  {
    ScriptOf(ScriptLines(script), Narrative)
  }

  /** `parse_script` never produces a `Comment` action: the cursor drops
      `#` lines before any action is read. */
  lemma CommentUnreachable(script: string)
    requires ParseScriptText(script).Some?
    ensures forall i :: 0 <= i < |ParseScriptText(script).value|
              ==> NoCommentIn(ParseScriptText(script).value[i].body)
  {
    assert CommentsNeedHash(Narrative) by {
      forall t | Narrative.action(t).Some?
        ensures !Narrative.action(t).value.Conditional?
        ensures Narrative.action(t).value.Comment? ==> t != [] && t[0] == '#'
      {
        assert Narrative.action(t) == ParseAction(t);
      }
    }
    assert KeepsBody(Narrative) by {
      forall t, body | Narrative.block(t, body).Some?
        ensures Narrative.block(t, body).value.body == body
      {
        assert Narrative.block(t, body) == HeaderBlock(t, body);
      }
    }
    ScriptNoComment(ScriptLines(script), Narrative);
  }
}

module NarrativeParserMethods {
  import opened Options
  import opened Text
  import opened NarrativeAst
  import opened NarrativeParser

  /** `acc` and `c` consumed lines, followed by the outcome `o`. */
  function Extend(acc: seq<Action>, c: nat, o: Option<Parsed<seq<Action>>>): Option<Parsed<seq<Action>>>
  {
    match o
    case None => None
    case Some(p) => Some(Parsed(acc + p.value, c + p.used))
  }

  /** One turn of the body loop: the front action block is followed by
      the rest of the body. */
  lemma BodyStep(here: seq<Line>, base: nat, rd: Readers, first: Parsed<seq<Action>>)
    requires here != [] && here[0].indent > base && ActionBlockOf(here, rd) == Some(first)
    ensures BodyOf(here, base, rd) == Extend(first.value, first.used, BodyOf(here[first.used..], base, rd))
  {
  }

  lemma ExtendTwice(acc: seq<Action>, c: nat, more: seq<Action>, k: nat, o: Option<Parsed<seq<Action>>>)
    ensures Extend(acc, c, Extend(more, k, o)) == Extend(acc + more, c + k, o)
  {
    if o.Some? {
      assert acc + (more + o.value.value) == (acc + more) + o.value.value;
    }
  }

  /** One turn of the body loop at line `c` of the queue: the action block
      read there is appended, and the lines it used are consumed. */
  lemma BodyTurn(ls: seq<Line>, base: nat, rd: Readers, body: seq<Action>, c: nat, more: seq<Action>, k: nat)
    requires c < |ls| && ls[c].indent > base
    requires ActionBlockOf(ls[c..], rd) == Some(Parsed(more, k))
    ensures c + k <= |ls| && ls[c..][k..] == ls[c + k..]
    ensures Extend(body, c, BodyOf(ls[c..], base, rd))
         == Extend(body + more, c + k, BodyOf(ls[c + k..], base, rd))
  {
    BodyStep(ls[c..], base, rd, Parsed(more, k));
    assert ls[c..][k..] == ls[c + k..];
    ExtendTwice(body, c, more, k, BodyOf(ls[c + k..], base, rd));
  }

  /** The body loop stops at a line not indented deeper than `base`, or at
      the end of the queue. */
  lemma BodyStops(ls: seq<Line>, base: nat, rd: Readers, body: seq<Action>, c: nat)
    requires ls == [] || ls[0].indent <= base
    ensures Extend(body, c, BodyOf(ls, base, rd)) == Some(Parsed(body, c))
  {
    assert body + [] == body;
  }

  /** The body loop fails where an action block in it fails. */
  lemma BodyFails(ls: seq<Line>, base: nat, rd: Readers, body: seq<Action>, c: nat)
    requires ls != [] && ls[0].indent > base && ActionBlockOf(ls, rd).None?
    ensures Extend(body, c, BodyOf(ls, base, rd)).None?
  {
  }

  /** With the parser's own readers, a block is the header read over its
      parsed body. */
  lemma NarrativeBlock(ls: seq<Line>)
    requires ls != []
    ensures var body := BodyOf(ls[1..], ls[0].indent, Narrative);
      var spec := if body.None? then None else HeaderBlock(ls[0].text, body.value.value);
      (BlockOf(ls, Narrative).Some? <==> spec.Some?)
      && (spec.Some? ==> BlockOf(ls, Narrative).value == Parsed(spec.value, 1 + body.value.used))
  {
  }

  /** Before the first turn nothing is read. */
  lemma BodyStarts(ls: seq<Line>, base: nat, rd: Readers)
    ensures ls[0..] == ls
    ensures BodyOf(ls, base, rd) == Extend([], 0, BodyOf(ls, base, rd))
  {
    assert ls[0..] == ls;
    if BodyOf(ls, base, rd).Some? {
      assert [] + BodyOf(ls, base, rd).value.value == BodyOf(ls, base, rd).value.value;
    }
  }

  /** The body loop shared by the block parsers: action blocks while the
      front line is indented deeper than `base`. */
  method ParseBody(cursor: LineCursor, base: nat) returns (r: Option<seq<Action>>)
    modifies cursor
    ensures var spec := BodyOf(old(cursor.lines), base, Narrative);
      (r.Some? <==> spec.Some?)
      && (spec.Some? ==> r.value == spec.value.value && cursor.lines == old(cursor.lines)[spec.value.used..])
    decreases |cursor.lines|, 1
  {
    ghost var ls := old(cursor.lines);
    ghost var c: nat := 0;
    var body: seq<Action> := [];
    BodyStarts(ls, base, Narrative);
    while cursor.Peek().Some? && cursor.Peek().value.indent > base
      invariant c <= |ls| && cursor.lines == ls[c..]
      invariant BodyOf(ls, base, Narrative) == Extend(body, c, BodyOf(ls[c..], base, Narrative))
      decreases |cursor.lines|
    {
      ghost var here := cursor.lines;
      var more := ParseActionBlock(cursor, base + 2);
      if more.None? {
        BodyFails(here, base, Narrative, body, c);
        return None;
      }
      ghost var k := ActionBlockOf(here, Narrative).value.used;
      BodyTurn(ls, base, Narrative, body, c, more.value, k);
      body := body + more.value;
      c := c + k;
    }
    BodyStops(cursor.lines, base, Narrative, body, c);
    r := Some(body);
  }

  /** An `if ...:` line followed by what `ParseBody` returned for the
      lines after it. */
  lemma IfBlockParsed(ls: seq<Line>, cond: string, subs: Option<seq<Action>>, after: seq<Line>)
    requires ls != [] && IfHeader(ls[0].text) == Some(cond)
    requires var body := BodyOf(ls[1..], ls[0].indent, Narrative);
      (subs.Some? <==> body.Some?)
      && (body.Some? ==> subs.value == body.value.value && after == ls[1..][body.value.used..])
    ensures subs.None? ==> ActionBlockOf(ls, Narrative).None?
    ensures subs.Some? ==>
      && ActionBlockOf(ls, Narrative).Some?
      && ActionBlockOf(ls, Narrative).value.value == [Conditional(cond, subs.value)]
      && after == ls[ActionBlockOf(ls, Narrative).value.used..]
  {
    var body := BodyOf(ls[1..], ls[0].indent, Narrative);
    assert Narrative.condition(ls[0].text) == Some(cond);
    if body.Some? {
      var k := 1 + body.value.used;
      assert ls[1..][body.value.used..] == ls[k..];
      assert ActionBlockOf(ls, Narrative) == Some(Parsed([Conditional(cond, body.value.value)], k));
    }
  }

  /** `parse_action_block`: pops one line; an `if ...:` line takes the
      deeper-indented lines after it as its body. `minIndent` is not used,
      as in the source. */
  method ParseActionBlock(cursor: LineCursor, minIndent: nat) returns (r: Option<seq<Action>>)
    requires cursor.lines != []
    modifies cursor
    ensures var spec := ActionBlockOf(old(cursor.lines), Narrative);
      (r.Some? <==> spec.Some?)
      && (spec.Some? ==> r.value == spec.value.value && cursor.lines == old(cursor.lines)[spec.value.used..])
    decreases |cursor.lines|, 0
  {
    ghost var ls := cursor.lines;
    var front := cursor.Next();
    var line := front.value;
    var cond := IfHeader(line.text);
    if cond.Some? {
      var subactions := ParseBody(cursor, line.indent);
      IfBlockParsed(ls, cond.value, subactions, cursor.lines);
      if subactions.None? {
        return None;
      }
      r := Some([Conditional(cond.value, subactions.value)]);
    } else {
      var a := ParseAction(line.text);
      if a.None? {
        return None;
      }
      r := Some([a.value]);
    }
  }

  /** `parse_macro_def`. */
  method ParseMacroDef(cursor: LineCursor) returns (r: Option<Block>)
    requires cursor.lines != []
    modifies cursor
    ensures var ls := old(cursor.lines);
      var header := MacroHeader(ls[0].text);
      var body := BodyOf(ls[1..], ls[0].indent, Narrative);
      (r.Some? <==> header.Some? && body.Some?)
      && (r.Some? ==> r.value == MacroDef(header.value.0, header.value.1, body.value.value)
                      && cursor.lines == ls[1 + body.value.used..])
  {
    ghost var ls := cursor.lines;
    var front := cursor.Next();
    var header := MacroHeader(front.value.text);
    if header.None? {
      return None;
    }
    var body := ParseBody(cursor, front.value.indent);
    if body.None? {
      return None;
    }
    assert ls[1..][BodyOf(ls[1..], ls[0].indent, Narrative).value.used..] == ls[1 + BodyOf(ls[1..], ls[0].indent, Narrative).value.used..];
    r := Some(MacroDef(header.value.0, header.value.1, body.value));
  }

  /** `parse_at_tau`, also used for a header that matches no keyword. */
  method ParseAtTau(cursor: LineCursor) returns (r: Option<Block>)
    requires cursor.lines != []
    modifies cursor
    ensures var ls := old(cursor.lines);
      var tau := AtTauHeader(ls[0].text);
      var body := BodyOf(ls[1..], ls[0].indent, Narrative);
      (r.Some? <==> tau.Some? && body.Some?)
      && (r.Some? ==> r.value == AtTau(tau.value, body.value.value) && cursor.lines == ls[1 + body.value.used..])
  {
    ghost var ls := cursor.lines;
    var front := cursor.Next();
    var tau := AtTauHeader(front.value.text);
    if tau.None? {
      return None;
    }
    var body := ParseBody(cursor, front.value.indent);
    if body.None? {
      return None;
    }
    assert ls[1..][BodyOf(ls[1..], ls[0].indent, Narrative).value.used..] == ls[1 + BodyOf(ls[1..], ls[0].indent, Narrative).value.used..];
    r := Some(AtTau(tau.value, body.value));
  }

  /** `parse_repeat`. */
  method ParseRepeat(cursor: LineCursor) returns (r: Option<Block>)
    requires cursor.lines != []
    modifies cursor
    ensures var ls := old(cursor.lines);
      var n := RepeatHeader(ls[0].text);
      var body := BodyOf(ls[1..], ls[0].indent, Narrative);
      (r.Some? <==> n.Some? && body.Some?)
      && (r.Some? ==> r.value == Repeat(n.value, body.value.value) && cursor.lines == ls[1 + body.value.used..])
  {
    ghost var ls := cursor.lines;
    var front := cursor.Next();
    var n := RepeatHeader(front.value.text);
    if n.None? {
      return None;
    }
    var body := ParseBody(cursor, front.value.indent);
    if body.None? {
      return None;
    }
    assert ls[1..][BodyOf(ls[1..], ls[0].indent, Narrative).value.used..] == ls[1 + BodyOf(ls[1..], ls[0].indent, Narrative).value.used..];
    r := Some(Repeat(n.value, body.value));
  }

  /** `parse_while`. */
  method ParseWhile(cursor: LineCursor) returns (r: Option<Block>)
    requires cursor.lines != []
    modifies cursor
    ensures var ls := old(cursor.lines);
      var body := BodyOf(ls[1..], ls[0].indent, Narrative);
      (r.Some? <==> body.Some?)
      && (r.Some? ==> r.value == While(WhileHeader(ls[0].text), body.value.value) && cursor.lines == ls[1 + body.value.used..])
  {
    ghost var ls := cursor.lines;
    var front := cursor.Next();
    var cond := WhileHeader(front.value.text);
    var body := ParseBody(cursor, front.value.indent);
    if body.None? {
      return None;
    }
    assert ls[1..][BodyOf(ls[1..], ls[0].indent, Narrative).value.used..] == ls[1 + BodyOf(ls[1..], ls[0].indent, Narrative).value.used..];
    r := Some(While(cond, body.value));
  }

  /** `parse_parallel`: the header's text is not read. */
  method ParseParallel(cursor: LineCursor) returns (r: Option<Block>)
    requires cursor.lines != []
    modifies cursor
    ensures var ls := old(cursor.lines);
      var body := BodyOf(ls[1..], ls[0].indent, Narrative);
      (r.Some? <==> body.Some?)
      && (r.Some? ==> r.value == Parallel(body.value.value) && cursor.lines == ls[1 + body.value.used..])
  {
    ghost var ls := cursor.lines;
    var front := cursor.Next();
    var body := ParseBody(cursor, front.value.indent);
    if body.None? {
      return None;
    }
    assert ls[1..][BodyOf(ls[1..], ls[0].indent, Narrative).value.used..] == ls[1 + BodyOf(ls[1..], ls[0].indent, Narrative).value.used..];
    r := Some(Parallel(body.value));
  }

  /** The dispatch in `parse_script`'s loop: the block parser chosen by the
      front line's prefix, `parse_at_tau` when none matches. */
  method ParseBlock(cursor: LineCursor) returns (b: Option<Block>)
    requires cursor.lines != []
    modifies cursor
    ensures var ls := old(cursor.lines);
      var body := BodyOf(ls[1..], ls[0].indent, Narrative);
      var spec := if body.None? then None else HeaderBlock(ls[0].text, body.value.value);
      (b.Some? <==> spec.Some?)
      && (b.Some? ==> b.value == spec.value && cursor.lines == ls[1 + body.value.used..])
  {
    var text := cursor.Peek().value.text;
    if StartsWith(text, "macro ") {
      b := ParseMacroDef(cursor);
    } else if StartsWith(text, "at τ=") {
      b := ParseAtTau(cursor);
    } else if StartsWith(text, "repeat ") {
      b := ParseRepeat(cursor);
    } else if StartsWith(text, "while ") {
      b := ParseWhile(cursor);
    } else if StartsWith(text, "parallel:") {
      b := ParseParallel(cursor);
    } else {
      b := ParseAtTau(cursor);
    }
  }

  /** `parse_script`: dispatches on each header until the queue is empty.
      Every block parser pops its header first, so the loop ends. */
  method ParseScript(script: string) returns (r: Option<seq<Block>>)
    ensures r == ParseScriptText(script)
  {
    var cursor := new LineCursor.From(script);
    ghost var ls := cursor.lines;
    var blocks: seq<Block> := [];
    ScriptStarts(ls);
    while cursor.Peek().Some?
      invariant ScriptOf(ls, Narrative) == Prepend(blocks, ScriptOf(cursor.lines, Narrative))
      decreases |cursor.lines|
    {
      ghost var here := cursor.lines;
      var b := ParseBlock(cursor);
      if b.None? {
        ScriptLoopFails(here, blocks, cursor.lines);
        return None;
      }
      ScriptLoopTurn(here, blocks, b.value, cursor.lines);
      blocks := blocks + [b.value];
    }
    ScriptEnds(blocks);
    return Some(blocks);
  }

  /** What `ParseBlock` returns is the block parser's outcome on the
      queue. */
  lemma ParsedBlock(here: seq<Line>, b: Option<Block>, after: seq<Line>)
    requires here != [] && BlockParsed(here, b, after)
    ensures b.None? ==> BlockOf(here, Narrative).None?
    ensures b.Some? ==> |after| < |here| && BlockOf(here, Narrative) == Some(Parsed(b.value, |here| - |after|))
    ensures b.Some? ==> after == here[|here| - |after|..]
  {
    NarrativeBlock(here);
    var body := BodyOf(here[1..], here[0].indent, Narrative);
    if b.Some? {
      var used := 1 + body.value.used;
      assert |after| == |here| - used;
      assert BlockOf(here, Narrative).value == Parsed(b.value, used);
    }
  }

  /** What `ParseBlock` promises about the queue `here` it was given and
      the queue `after` it left. */
  predicate BlockParsed(here: seq<Line>, b: Option<Block>, after: seq<Line>)
    requires here != []
  {
    var body := BodyOf(here[1..], here[0].indent, Narrative);
    var spec := if body.None? then None else HeaderBlock(here[0].text, body.value.value);
    (b.Some? <==> spec.Some?)
    && (b.Some? ==> b.value == spec.value && after == here[1 + body.value.used..])
  }

  /** A turn of `parse_script`'s loop whose block parser fails fails the
      script. */
  lemma ScriptLoopFails(here: seq<Line>, blocks: seq<Block>, after: seq<Line>)
    requires here != [] && BlockParsed(here, None, after)
    ensures Prepend(blocks, ScriptOf(here, Narrative)).None?
  {
    ParsedBlock(here, None, after);
    ScriptFails(here, blocks);
  }

  /** A turn of `parse_script`'s loop that reads block `b` from the queue
      `here` and leaves `after` on it. */
  lemma ScriptLoopTurn(here: seq<Line>, blocks: seq<Block>, b: Block, after: seq<Line>)
    requires here != [] && BlockParsed(here, Some(b), after)
    ensures |after| < |here|
    ensures Prepend(blocks, ScriptOf(here, Narrative)) == Prepend(blocks + [b], ScriptOf(after, Narrative))
  {
    ParsedBlock(here, Some(b), after);
    ScriptTurn(here, blocks, b, |here| - |after|);
  }

  /** Before the first turn no block is read. */
  lemma ScriptStarts(ls: seq<Line>)
    ensures ScriptOf(ls, Narrative) == Prepend([], ScriptOf(ls, Narrative))
  {
    if ScriptOf(ls, Narrative).Some? {
      assert [] + ScriptOf(ls, Narrative).value == ScriptOf(ls, Narrative).value;
    }
  }

  /** With the queue empty the blocks read are the script. */
  lemma ScriptEnds(blocks: seq<Block>)
    ensures Prepend(blocks, ScriptOf([], Narrative)) == Some(blocks)
  {
    assert blocks + [] == blocks;
  }

  /** The loop fails where a block parser fails. */
  lemma ScriptFails(here: seq<Line>, blocks: seq<Block>)
    requires here != [] && BlockOf(here, Narrative).None?
    ensures Prepend(blocks, ScriptOf(here, Narrative)).None?
  {
  }

  /** One turn of the loop: the block read at the front of the queue is
      appended, and the lines it used are consumed. */
  lemma ScriptTurn(here: seq<Line>, blocks: seq<Block>, b: Block, k: nat)
    requires here != [] && BlockOf(here, Narrative) == Some(Parsed(b, k))
    ensures Prepend(blocks, ScriptOf(here, Narrative)) == Prepend(blocks + [b], ScriptOf(here[k..], Narrative))
  {
    var rest := ScriptOf(here[k..], Narrative);
    if rest.Some? {
      assert ScriptOf(here, Narrative) == Some([b] + rest.value);
      assert blocks + ([b] + rest.value) == (blocks + [b]) + rest.value;
    }
  }

  /** `blocks` followed by the outcome `o`. */
  function Prepend(blocks: seq<Block>, o: Option<seq<Block>>): Option<seq<Block>>
  {
    match o
    case None => None
    case Some(more) => Some(blocks + more)
  }
}
