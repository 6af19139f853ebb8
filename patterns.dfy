// Named pattern abstraction of the shell (src/patterns.rs): a table from
// names to pattern text and a single-pass `[name]` expander.

module Patterns {
  import opened Options
  import opened Lookups

  /** Length of the bracketed name at the start of `s` (the text after a
      `[`): everything up to the first `]`, or all of `s` when none. */
  function NameLength(s: string): (k: nat)
    ensures k <= |s|
    ensures forall i :: 0 <= i < k ==> s[i] != ']'
    ensures k < |s| ==> s[k] == ']'
  {
    if s == [] || s[0] == ']' then 0 else 1 + NameLength(s[1..])
  }

  /** What `expand_patterns` produces: every character other than `[` is
      copied; a `[` starts a name running to the first `]` (consumed) or to
      the end of the text, and the name is replaced by its definition or,
      when undefined, written back as `[name]`. Replacement text is not
      scanned again. */
  function Expand(text: string, table: map<string, string>): string
    decreases |text|
  {
    if text == [] then []
    else if text[0] != '[' then [text[0]] + Expand(text[1..], table)
    else
      var rest := text[1..];
      var k := NameLength(rest);
      var name := rest[..k];
      var after := if k < |rest| then rest[k + 1..] else [];
      (if name in table then table[name] else "[" + name + "]") + Expand(after, table)
  }

  class PatternTable {
    var table: map<string, string>

    /** `PatternTable::new`: no pattern is defined. */
    constructor ()
      ensures table == map[]
    {
      table := map[];
    }

    /** `define`: stores `value` under `name`, replacing any earlier value;
        every other name keeps its value. */
    method Define(name: string, value: string)
      modifies this
      ensures table == old(table)[name := value]
      ensures Lookup(table, name) == Some(value)
      ensures forall other :: other != name ==> Lookup(table, other) == Lookup(old(table), other)
    {
      table := table[name := value];
    }

    /** `expand_patterns`: one pass over the characters, pushing onto an
        output buffer. */
    method ExpandPatterns(text: string) returns (out: string)
      ensures out == Expand(text, table)
    {
      out := "";
      var i := 0;
      while i < |text|
        invariant 0 <= i <= |text|
        invariant out + Expand(text[i..], table) == Expand(text, table)
        decreases |text| - i
      {
        var c := text[i];
        ghost var at := i;
        i := i + 1;
        if c == '[' {
          var name, end := ReadName(text, i);
          var closed := end < |text|;
          i := if closed then end + 1 else end;
          ExpandBracketAt(text, at, end, table);
          var piece := if name in table then table[name] else "[" + name + "]";
          assert out + Expand(text[at..], table) == (out + piece) + Expand(text[i..], table);
          out := out + piece;
        } else {
          assert text[at..][1..] == text[i..];
          assert out + Expand(text[at..], table) == (out + [c]) + Expand(text[i..], table);
          out := out + [c];
        }
      }
    }
  }

  /** The inner scan of `expand_patterns`: the characters from `start` up to
      the first `]` or the end of the text, and where the scan stopped. */
  method ReadName(text: string, start: nat) returns (name: string, end: nat)
    requires start <= |text|
    ensures start <= end <= |text| && name == text[start..end]
    ensures forall j :: start <= j < end ==> text[j] != ']'
    ensures end < |text| ==> text[end] == ']'
  {
    name := "";
    end := start;
    while end < |text| && text[end] != ']'
      invariant start <= end <= |text|
      invariant name == text[start..end]
      invariant forall j :: start <= j < end ==> text[j] != ']'
    {
      name := name + [text[end]];
      end := end + 1;
    }
  }

  /** One step of the expander at a `[` found at `at` whose name ends at
      `end` (the first `]` after it, or the end of the text). */
  lemma ExpandBracketAt(text: string, at: nat, end: nat, table: map<string, string>)
    requires at < end <= |text| || at + 1 == end <= |text|
    requires at < |text| && text[at] == '['
    requires forall j :: at + 1 <= j < end ==> text[j] != ']'
    requires end < |text| ==> text[end] == ']'
    ensures var name := text[at + 1..end];
      var next := if end < |text| then end + 1 else end;
      Expand(text[at..], table)
        == (if name in table then table[name] else "[" + name + "]") + Expand(text[next..], table)
  {
    var rest := text[at..][1..];
    assert rest == text[at + 1..];
    NameLengthIs(rest, end - at - 1);
    assert rest[..end - at - 1] == text[at + 1..end];
    if end < |text| {
      assert rest[end - at..] == text[end + 1..];
    } else {
      assert text[end..] == [];
    }
  }

  lemma {:induction false} NameLengthIs(s: string, k: nat)
    requires k <= |s|
    requires forall i :: 0 <= i < k ==> s[i] != ']'
    requires k < |s| ==> s[k] == ']'
    ensures NameLength(s) == k
  {
    if k > 0 {
      NameLengthIs(s[1..], k - 1);
    }
  }

  /** Text without `[` comes back unchanged. */
  lemma {:induction false} NoBracketUnchanged(text: string, table: map<string, string>)
    requires '[' !in text
    ensures Expand(text, table) == text
    decreases |text|
  {
    if text != [] {
      NoBracketUnchanged(text[1..], table);
    }
  }

  /** Text without `[` in front of the rest is copied ahead of the rest's
      expansion. */
  lemma {:induction false} PlainPrefix(a: string, b: string, table: map<string, string>)
    requires '[' !in a
    ensures Expand(a + b, table) == a + Expand(b, table)
    decreases |a|
  {
    if a != [] {
      var ab := a + b;
      assert a[0] in a && ab[0] == a[0] && a[0] != '[';
      assert ab[1..] == a[1..] + b;
      assert '[' !in a[1..] by {
        assert forall x :: x in a[1..] ==> x in a;
      }
      PlainPrefix(a[1..], b, table);
      calc {
        Expand(ab, table);
        [a[0]] + Expand(a[1..] + b, table);
        [a[0]] + (a[1..] + Expand(b, table));
        { assert a == [a[0]] + a[1..]; }
        a + Expand(b, table);
      }
    } else {
      assert a + b == b;
    }
  }

  /** `[name]` is replaced by the definition of `name`, verbatim (it is not
      expanded again), or written back as `[name]` when undefined. A `[`
      inside the brackets is part of the name. */
  lemma BracketedName(name: string, suffix: string, table: map<string, string>)
    requires ']' !in name
    ensures Expand("[" + name + "]" + suffix, table)
      == (if name in table then table[name] else "[" + name + "]") + Expand(suffix, table)
  {
    var text := "[" + name + "]" + suffix;
    var rest := text[1..];
    assert rest == name + "]" + suffix;
    NameLengthIs(rest, |name|);
    assert rest[..|name|] == name;
    assert rest[|name| + 1..] == suffix;
  }

  /** An unterminated `[` takes the rest of the text as the name; undefined,
      it comes back with a closing `]` added. */
  lemma Unterminated(name: string, table: map<string, string>)
    requires ']' !in name
    ensures Expand("[" + name, table) == if name in table then table[name] else "[" + name + "]"
  {
    var text := "[" + name;
    assert text[1..] == name;
    NameLengthIs(name, |name|);
    assert name[..|name|] == name;
  }

  /** Expansion is one pass: whatever the definitions contain, expanding a
      defined reference yields exactly the definition, and expanding an
      undefined reference is a fixed point. */
  lemma SinglePass(name: string, table: map<string, string>)
    requires ']' !in name
    ensures name in table ==> Expand("[" + name + "]", table) == table[name]
    ensures name !in table ==> Expand(Expand("[" + name + "]", table), table) == "[" + name + "]"
  {
    BracketedName(name, "", table);
    assert "[" + name + "]" + "" == "[" + name + "]";
    assert (if name in table then table[name] else "[" + name + "]") + "" == Expand("[" + name + "]", table);
  }
}
