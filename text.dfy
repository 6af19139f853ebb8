// Shared value helpers: the optional-result type and the pieces of Rust's
// `str` API that the modelled sources call (trimming, splitting, prefix
// tests, integer and float parsing, decimal and hexadecimal formatting).

module Options {
  /** `Option<T>` of the Rust sources; `None` also stands for a panic
      (`unwrap` on a missing value) in the parsers. */
  datatype Option<+T> = None | Some(value: T)
}

module Text {
  import opened Options

  // ---------------------------------------------------------------------
  // Characters

  /** Rust's `char::is_whitespace`: the Unicode White_Space property. */
  predicate IsWhitespace(c: char) {
    c == ' ' || ('\t' <= c <= '\r') || c == '\U{85}' || c == '\U{A0}' || c == '\U{1680}'
    || ('\U{2000}' <= c <= '\U{200A}') || c == '\U{2028}' || c == '\U{2029}'
    || c == '\U{202F}' || c == '\U{205F}' || c == '\U{3000}'
  }

  predicate IsDigit(c: char) { '0' <= c <= '9' }

  predicate IsHexDigit(c: char) { IsDigit(c) || 'a' <= c <= 'f' }

  /** Rust's `char::is_alphanumeric`, restricted to ASCII letters and digits. */
  predicate IsAlphanumeric(c: char) {
    ('0' <= c <= '9') || ('a' <= c <= 'z') || ('A' <= c <= 'Z')
  }

  /** Number of bytes of `c` in UTF-8, the unit of Rust's `str::len`. */
  function Utf8Len(c: char): (n: nat)
    ensures 1 <= n <= 4
    ensures c as int < 0x80 <==> n == 1
  {
    if c as int < 0x80 then 1
    else if c as int < 0x800 then 2
    else if c as int < 0x10000 then 3
    else 4
  }

  function Utf8Length(s: string): (n: nat)
    ensures n >= |s|
  {
    if s == [] then 0 else Utf8Len(s[0]) + Utf8Length(s[1..])
  }

  /** ASCII lower-casing; other characters are left as they are. */
  function LowerChar(c: char): (d: char)
    ensures 'A' <= c <= 'Z' ==> d as int == c as int + 32
    ensures !('A' <= c <= 'Z') ==> d == c
  {
    if 'A' <= c <= 'Z' then (c as int + 32) as char else c
  }

  function ToLower(s: string): (r: string)
    ensures |r| == |s|
    ensures forall i :: 0 <= i < |s| ==> r[i] == LowerChar(s[i])
  {
    seq(|s|, i requires 0 <= i < |s| => LowerChar(s[i]))
  }

  /** Text without upper-case ASCII letters is its own lower case. */
  lemma LowerUnchanged(s: string)
    requires forall i :: 0 <= i < |s| ==> !('A' <= s[i] <= 'Z')
    ensures ToLower(s) == s
  {
  }

  // ---------------------------------------------------------------------
  // Prefixes, suffixes and searching

  predicate StartsWith(s: string, p: string) {
    |p| <= |s| && s[..|p|] == p
  }

  predicate EndsWith(s: string, p: string) {
    |p| <= |s| && s[|s| - |p|..] == p
  }

  /** `str::strip_prefix`. */
  function StripPrefix(s: string, p: string): (r: Option<string>)
    ensures r.Some? <==> StartsWith(s, p)
    ensures r.Some? ==> s == p + r.value
  {
    if StartsWith(s, p) then Some(s[|p|..]) else None
  }

  /** True when `sep` occurs in `s` starting at index `i`. */
  predicate OccursAt(s: string, sep: string, i: nat) {
    i + |sep| <= |s| && s[i..i + |sep|] == sep
  }

  /** `str::find`: the first index at or after `from` where `sep` occurs. */
  function FindFrom(s: string, sep: string, from: nat): (r: Option<nat>)
    requires from <= |s|
    ensures r.Some? ==> from <= r.value && OccursAt(s, sep, r.value)
    ensures r.Some? ==> forall j :: from <= j < r.value ==> !OccursAt(s, sep, j)
    ensures r.None? ==> forall j :: from <= j <= |s| ==> !OccursAt(s, sep, j)
    decreases |s| - from
  {
    if OccursAt(s, sep, from) then Some(from)
    else if from == |s| then None
    else FindFrom(s, sep, from + 1)
  }

  function Find(s: string, sep: string): (r: Option<nat>)
    ensures r.Some? ==> r.value + |sep| <= |s| && s[r.value..r.value + |sep|] == sep
    ensures r.Some? ==> forall j :: 0 <= j < r.value ==> !OccursAt(s, sep, j)
    ensures r.None? ==> forall j :: 0 <= j <= |s| ==> !OccursAt(s, sep, j)
  {
    FindFrom(s, sep, 0)
  }

  /** The first occurrence is the one `Find` reports. */
  lemma {:induction false} FindFromIs(s: string, sep: string, from: nat, i: nat)
    requires from <= i && OccursAt(s, sep, i)
    requires forall j :: from <= j < i ==> !OccursAt(s, sep, j)
    ensures FindFrom(s, sep, from) == Some(i)
    decreases i - from
  {
    if from < i {
      FindFromIs(s, sep, from + 1, i);
    }
  }

  lemma FindIs(s: string, sep: string, i: nat)
    requires OccursAt(s, sep, i)
    requires forall j :: 0 <= j < i ==> !OccursAt(s, sep, j)
    ensures Find(s, sep) == Some(i)
  {
    FindFromIs(s, sep, 0, i);
  }

  predicate Contains(s: string, sep: string) {
    Find(s, sep).Some?
  }

  /** `str::split_once`: the text before and after the first `sep`. */
  function SplitOnce(s: string, sep: string): (r: Option<(string, string)>)
    ensures r.Some? <==> Find(s, sep).Some?
    ensures r.Some? ==> s == r.value.0 + sep + r.value.1
  {
    match Find(s, sep)
    case None => None
    case Some(i) =>
      assert s == s[..i] + s[i..i + |sep|] + s[i + |sep|..];
      Some((s[..i], s[i + |sep|..]))
  }

  /** `str::split` on a non-empty separator: the pieces between the
      non-overlapping occurrences of `sep`, searched from the left. */
  function Split(s: string, sep: string): (r: seq<string>)
    requires |sep| > 0
    ensures |r| >= 1
    ensures Find(s, sep).None? ==> r == [s]
    ensures Find(s, sep).Some? ==> |r| >= 2 && r[0] == s[..Find(s, sep).value]
    decreases |s|
  {
    match Find(s, sep)
    case None => [s]
    case Some(i) => [s[..i]] + Split(s[i + |sep|..], sep)
  }

  // ---------------------------------------------------------------------
  // Trimming

  /** Drops the longest prefix whose characters satisfy `drop`. */
  function TrimLeft(s: string, drop: char -> bool): (r: string)
    ensures |r| <= |s| && r == s[|s| - |r|..]
    ensures r != [] ==> !drop(r[0])
    ensures forall i :: 0 <= i < |s| - |r| ==> drop(s[i])
    decreases |s|
  {
    if s != [] && drop(s[0]) then TrimLeft(s[1..], drop) else s
  }

  /** Drops the longest suffix whose characters satisfy `drop`. */
  function TrimRight(s: string, drop: char -> bool): (r: string)
    ensures |r| <= |s| && r == s[..|r|]
    ensures r != [] ==> !drop(r[|r| - 1])
    ensures forall i :: |r| <= i < |s| ==> drop(s[i])
    decreases |s|
  {
    if s != [] && drop(s[|s| - 1]) then TrimRight(s[..|s| - 1], drop) else s
  }

  function TrimStart(s: string): (r: string)
    ensures |r| <= |s| && r == s[|s| - |r|..]
    ensures r != [] ==> !IsWhitespace(r[0])
    ensures forall i :: 0 <= i < |s| - |r| ==> IsWhitespace(s[i])
  {
    TrimLeft(s, IsWhitespace)
  }

  function Trim(s: string): (r: string)
    ensures r != [] ==> !IsWhitespace(r[0]) && !IsWhitespace(r[|r| - 1])
  {
    TrimRight(TrimLeft(s, IsWhitespace), IsWhitespace)
  }

  /** Number of leading characters of `s` that belong to `cs`. */
  function LeadingIn(s: string, cs: set<char>): (n: nat)
    ensures n <= |s|
    ensures forall k :: 0 <= k < n ==> s[k] in cs
    ensures n < |s| ==> s[n] !in cs
    decreases |s|
  {
    if s != [] && s[0] in cs then 1 + LeadingIn(s[1..], cs) else 0
  }

  /** Number of trailing characters of `s` that belong to `cs`. */
  function TrailingIn(s: string, cs: set<char>): (n: nat)
    ensures n <= |s|
    ensures forall k :: |s| - n <= k < |s| ==> s[k] in cs
    ensures n < |s| ==> s[|s| - n - 1] !in cs
    decreases |s|
  {
    if s != [] && s[|s| - 1] in cs then 1 + TrailingIn(s[..|s| - 1], cs) else 0
  }

  /** `str::trim_matches` with a set of characters. */
  function TrimChars(s: string, cs: set<char>): (r: string)
    ensures r != [] ==> r[0] !in cs && r[|r| - 1] !in cs
  {
    var rest := s[LeadingIn(s, cs)..];
    rest[..|rest| - TrailingIn(rest, cs)]
  }

  /** Whatever lies between a run of `cs` at the front and a run of `cs` at
      the back, with neither of its ends in `cs`, is what trimming leaves. */
  lemma TrimCharsIs(s: string, cs: set<char>, i: nat, j: nat)
    requires i <= j <= |s|
    requires forall k :: 0 <= k < i ==> s[k] in cs
    requires forall k :: j <= k < |s| ==> s[k] in cs
    requires i < j ==> s[i] !in cs && s[j - 1] !in cs
    ensures TrimChars(s, cs) == s[i..j]
  {
    var a := LeadingIn(s, cs);
    if i < j {
      assert a == i;
      var rest := s[a..];
      var b := TrailingIn(rest, cs);
      assert forall k :: |rest| - (|s| - j) <= k < |rest| ==> rest[k] == s[i + k];
      assert b == |s| - j;
      assert rest[..|rest| - b] == s[i..j];
    } else {
      assert a == |s|;
    }
  }

  /** `str::trim_start_matches` with a string pattern: strips `p` from the
      front as often as it occurs there. */
  function TrimStartMatches(s: string, p: string): (r: string)
    ensures |r| <= |s| && r == s[|s| - |r|..]
    ensures |p| > 0 ==> !StartsWith(r, p)
    decreases |s|
  {
    if |p| > 0 && StartsWith(s, p) then TrimStartMatches(s[|p|..], p) else s
  }

  /** `str::trim_end_matches` with a string pattern. */
  function TrimEndMatches(s: string, p: string): (r: string)
    ensures |r| <= |s| && r == s[..|r|]
    ensures |p| > 0 ==> !EndsWith(r, p)
    decreases |s|
  {
    if |p| > 0 && EndsWith(s, p) then TrimEndMatches(s[..|s| - |p|], p) else s
  }

  /** Length of the longest prefix of `s` without whitespace. */
  function WordLength(s: string): (n: nat)
    ensures n <= |s|
    ensures forall i :: 0 <= i < n ==> !IsWhitespace(s[i])
    ensures n < |s| ==> IsWhitespace(s[n])
  {
    if s == [] || IsWhitespace(s[0]) then 0 else 1 + WordLength(s[1..])
  }

  /** A non-empty run of characters none of which is whitespace. */
  predicate IsWord(w: string) {
    w != [] && forall i :: 0 <= i < |w| ==> !IsWhitespace(w[i])
  }

  lemma FirstWord(t: string)
    requires t != [] && !IsWhitespace(t[0])
    ensures 0 < WordLength(t) && IsWord(t[..WordLength(t)])
  {
  }

  lemma ConsWords(w: string, rest: seq<string>)
    requires IsWord(w) && forall k :: 0 <= k < |rest| ==> IsWord(rest[k])
    ensures forall k :: 0 <= k < |[w] + rest| ==> IsWord(([w] + rest)[k])
  {
  }

  /** Trimming leaves a word as it is. */
  lemma TrimWord(w: string)
    requires IsWord(w)
    ensures Trim(w) == w
  {
    assert TrimLeft(w, IsWhitespace) == w;
  }

  /** A separator starting with a blank is first found right after a
      leading word. */
  lemma FindAfterWord(w: string, sep: string, tail: string)
    requires IsWord(w) && |sep| > 0 && sep[0] == ' '
    ensures Find(w + sep + tail, sep) == Some(|w|)
    ensures SplitOnce(w + sep + tail, sep) == Some((w, tail))
  {
    var s := w + sep + tail;
    forall j | 0 <= j < |w| ensures !OccursAt(s, sep, j) {
      assert s[j] == w[j];
    }
    assert s[|w|..|w| + |sep|] == sep;
    FindIs(s, sep, |w|);
    assert s[..|w|] == w && s[|w| + |sep|..] == tail;
  }

  /** A line made of a word and a blank starts with `k + " "` (for a word
      `k`) only when the word is `k`. */
  lemma WordBeforeBlank(w: string, tail: string, k: string, ktail: string)
    requires IsWord(w) && IsWord(k)
    ensures StartsWith(w + " " + tail, k + " " + ktail) ==> w == k
  {
    var s := w + " " + tail;
    var p := k + " " + ktail;
    if StartsWith(s, p) {
      assert s[..|p|] == p;
      var m := if |k| < |w| then |k| else |w|;
      assert s[m] == p[m];
      assert s[..|w|] == w && p[..|k|] == k;
    }
  }

  /** `str::split_whitespace`: the maximal runs of non-whitespace. */
  function SplitWhitespace(s: string): (r: seq<string>)
    ensures forall k :: 0 <= k < |r| ==> IsWord(r[k])
    decreases |s|
  {
    var t := TrimStart(s);
    if t == [] then []
    else
      var n := WordLength(t);
      FirstWord(t);
      var rest := SplitWhitespace(t[n..]);
      ConsWords(t[..n], rest);
      [t[..n]] + rest
  }

  /** The words joined by single blanks. */
  function JoinSpaced(words: seq<string>): string {
    if words == [] then []
    else if |words| == 1 then words[0]
    else words[0] + " " + JoinSpaced(words[1..])
  }

  /** A leading blank does not change the split. */
  lemma SplitSkipsBlank(s: string)
    requires s != [] && IsWhitespace(s[0])
    ensures SplitWhitespace(s) == SplitWhitespace(s[1..])
  {
    assert TrimStart(s) == TrimStart(s[1..]);
  }

  /** A word ended by whitespace or by the end of the text is the first
      piece of the split. */
  lemma SplitLeadingWord(w: string, tail: string)
    requires IsWord(w) && (tail == [] || IsWhitespace(tail[0]))
    ensures SplitWhitespace(w + tail) == [w] + SplitWhitespace(tail)
  {
    var s := w + tail;
    assert s[0] == w[0];
    assert TrimStart(s) == s;
    LeadingWordLength(w, tail);
    assert s[..|w|] == w && s[|w|..] == tail;
  }

  lemma LeadingWordLength(w: string, tail: string)
    requires IsWord(w) && (tail == [] || IsWhitespace(tail[0]))
    ensures WordLength(w + tail) == |w|
  {
    var s := w + tail;
    assert forall i :: 0 <= i < |w| ==> s[i] == w[i];
    assert tail != [] ==> s[|w|] == tail[0];
  }

  /** Splitting at whitespace gives back the words that were joined by
      blanks, whenever each of them is a word. */
  lemma {:induction false} SplitJoinSpaced(words: seq<string>)
    requires forall k :: 0 <= k < |words| ==> IsWord(words[k])
    ensures SplitWhitespace(JoinSpaced(words)) == words
    decreases |words|
  {
    if |words| == 1 {
      SplitSingleWord(words[0]);
    } else if |words| > 1 {
      var ws := words[1..];
      WordsTail(words);
      SplitJoinStep(words);
      SplitJoinSpaced(ws);
      HeadTail(words);
    }
  }

  lemma HeadTail<T>(s: seq<T>)
    requires |s| > 0
    ensures [s[0]] + s[1..] == s
  {
  }

  lemma WordsTail(words: seq<string>)
    requires |words| > 0 && forall k :: 0 <= k < |words| ==> IsWord(words[k])
    ensures forall k :: 0 <= k < |words| - 1 ==> IsWord(words[1..][k])
  {
    forall k | 0 <= k < |words| - 1 ensures IsWord(words[1..][k]) {
      assert words[1..][k] == words[k + 1];
    }
  }

  lemma SplitSingleWord(w: string)
    requires IsWord(w)
    ensures SplitWhitespace(w) == [w]
  {
    SplitLeadingWord(w, []);
    assert w + [] == w;
  }

  lemma SplitJoinStep(words: seq<string>)
    requires |words| > 1 && IsWord(words[0])
    ensures SplitWhitespace(JoinSpaced(words)) == [words[0]] + SplitWhitespace(JoinSpaced(words[1..]))
  {
    var tail := " " + JoinSpaced(words[1..]);
    assert JoinSpaced(words) == words[0] + tail;
    SplitLeadingWord(words[0], tail);
    SplitSkipsBlank(tail);
    assert tail[1..] == JoinSpaced(words[1..]);
  }

  // ---------------------------------------------------------------------
  // Numbers as text

  function DigitChar(d: nat): (c: char)
    requires d < 16
    ensures IsHexDigit(c)
  {
    if d < 10 then ('0' as int + d) as char else ('a' as int + d - 10) as char
  }

  function DigitValue(c: char): (d: nat)
    requires IsHexDigit(c)
    ensures d < 16
    ensures IsDigit(c) ==> d < 10
  {
    if IsDigit(c) then c as int - '0' as int else c as int - 'a' as int + 10
  }

  lemma DigitRoundTrip(d: nat)
    requires d < 16
    ensures DigitValue(DigitChar(d)) == d
  {
  }

  /** Rust's `{}` / `{:x}` formatting of an unsigned integer in base 10 or
      16: no sign, no leading zeros, "0" for zero, lower-case digits. */
  function ToBase(n: nat, base: nat): (s: string)
    requires base == 10 || base == 16
    ensures |s| >= 1
    ensures forall i :: 0 <= i < |s| ==> IsHexDigit(s[i]) && DigitValue(s[i]) < base
    decreases n
  {
    if n < base then [DigitChar(n)] else ToBase(n / base, base) + [DigitChar(n % base)]
  }

  /** The value of a string of digits in the given base, most significant first. */
  function ValueOf(s: string, base: nat): nat
    requires forall i :: 0 <= i < |s| ==> IsHexDigit(s[i])
  {
    if s == [] then 0 else ValueOf(s[..|s| - 1], base) * base + DigitValue(s[|s| - 1])
  }

  lemma {:induction false} ToBaseRoundTrip(n: nat, base: nat)
    requires base == 10 || base == 16
    ensures ValueOf(ToBase(n, base), base) == n
    decreases n
  {
    var s := ToBase(n, base);
    if n < base {
      DigitRoundTrip(n);
      assert s[..|s| - 1] == [];
    } else {
      ToBaseRoundTrip(n / base, base);
      DigitRoundTrip(n % base);
      assert s[..|s| - 1] == ToBase(n / base, base);
    }
  }

  function DecimalString(n: nat): (s: string)
    ensures |s| >= 1 && forall i :: 0 <= i < |s| ==> IsDigit(s[i])
  {
    ToBase(n, 10)
  }

  function HexString(n: nat): (s: string)
    ensures |s| >= 1 && forall i :: 0 <= i < |s| ==> IsHexDigit(s[i])
  {
    ToBase(n, 16)
  }

  /** Distinct numbers print differently. */
  lemma DecimalStringInjective(a: nat, b: nat)
    requires a != b
    ensures DecimalString(a) != DecimalString(b)
  {
    ToBaseRoundTrip(a, 10);
    ToBaseRoundTrip(b, 10);
  }

  predicate AllDigits(s: string) {
    forall i :: 0 <= i < |s| ==> IsDigit(s[i])
  }

  /** `str::parse` for an unsigned integer type whose largest value is
      `max`: an optional `+`, then one or more decimal digits, in range. */
  function ParseUnsigned(s: string, max: nat): (r: Option<nat>)
    ensures r.Some? ==> r.value <= max
    ensures r.Some? ==> |s| >= 1 && (IsDigit(s[0]) || s[0] == '+')
  {
    var body := if |s| > 0 && s[0] == '+' then s[1..] else s;
    if |body| == 0 || !AllDigits(body) then None
    else
      var v := ValueOf(body, 10);
      if v <= max then Some(v) else None
  }

  lemma {:induction false} ParseDecimalString(n: nat, max: nat)
    requires n <= max
    ensures ParseUnsigned(DecimalString(n), max) == Some(n)
  {
    ToBaseRoundTrip(n, 10);
  }

  const U32Max: nat := 0xFFFF_FFFF
  const U64Max: nat := 0xFFFF_FFFF_FFFF_FFFF

  /** `m` times ten to the power `e`. */
  function Scale(m: real, e: int): (r: real)
    ensures e == 0 ==> r == m
    decreases if e >= 0 then e else -e
  {
    if e == 0 then m else if e > 0 then Scale(m * 10.0, e - 1) else Scale(m / 10.0, e + 1)
  }

  /** The exponent part `[+-]digits` of a float literal, if `s` is exactly that. */
  function ParseExponent(s: string): (r: Option<int>)
  {
    var neg := |s| > 0 && s[0] == '-';
    var body := if |s| > 0 && (s[0] == '+' || s[0] == '-') then s[1..] else s;
    if |body| == 0 || !AllDigits(body) then None
    else if neg then Some(-(ValueOf(body, 10) as int)) else Some(ValueOf(body, 10))
  }

  /** The scanner behind `ParseFloat`, standing at `s[i]`: `m` is the value
      of the digits read so far, `nf` how many of them came after the point,
      `point` whether the point was read and `digits` how many digits were
      read in all. */
  function FloatScan(s: string, i: nat, m: nat, nf: nat, point: bool, digits: nat): (r: Option<real>)
    requires i <= |s|
    decreases |s| - i
  {
    if i == |s| then
      if digits == 0 then None else Some(Scale(m as real, -(nf as int)))
    else if IsDigit(s[i]) then
      FloatScan(s, i + 1, m * 10 + DigitValue(s[i]), if point then nf + 1 else nf, point, digits + 1)
    else if s[i] == '.' && !point then
      FloatScan(s, i + 1, m, nf, true, digits)
    else if (s[i] == 'e' || s[i] == 'E') && digits > 0 then
      match ParseExponent(s[i + 1..])
      case None => None
      case Some(e) => Some(Scale(m as real, e - nf))
    else None
  }

  /** `str::parse::<f64>` on decimal literals: an optional sign, digits with
      an optional point (at least one digit in all), and an optional
      exponent; the value is the exact rational the literal denotes. */
  function ParseFloat(s: string): Option<real>
  {
    var start := if |s| > 0 && (s[0] == '+' || s[0] == '-') then 1 else 0;
    match FloatScan(s, start, 0, 0, false, 0)
    case None => None
    case Some(v) => Some(if start == 1 && s[0] == '-' then -v else v)
  }

  /** A run of digits, scanned from `i` with the value of the digits before
      `i` in hand, reads as the value of the whole run. */
  lemma {:induction false} ScanDigits(s: string, i: nat)
    requires 0 < |s| && i <= |s| && AllDigits(s)
    ensures FloatScan(s, i, ValueOf(s[..i], 10), 0, false, i) == Some(ValueOf(s, 10) as real)
    decreases |s| - i
  {
    if i == |s| {
      assert s[..i] == s;
    } else {
      assert s[..i + 1][..i] == s[..i];
      ScanDigits(s, i + 1);
    }
  }

  /** A decimal numeral reads back as the float of the same value. */
  lemma ParseFloatDecimal(n: nat)
    ensures ParseFloat(DecimalString(n)) == Some(n as real)
  {
    var s := DecimalString(n);
    ToBaseRoundTrip(n, 10);
    assert s[..0] == [];
    ScanDigits(s, 0);
  }
}
