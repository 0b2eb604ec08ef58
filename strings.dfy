/** Text operations of the Rust and JavaScript standard libraries that the tunnel
    supervisor relies on, written out over `string` (a sequence of Unicode scalar
    values): substring search, splitting, joining, trimming, line and whitespace
    splitting, integer parsing and decimal rendering. */
module Strings {
  import opened Wrappers

  // ---------------------------------------------------------------------------
  // Characters

  /** `char::is_whitespace`: the characters with the Unicode White_Space property. */
  predicate IsWhitespace(c: char) {
    || ('\t' <= c <= '\r')
    || c == ' '
    || c == '\U{0085}'
    || c == '\U{00A0}'
    || c == '\U{1680}'
    || ('\U{2000}' <= c <= '\U{200A}')
    || c == '\U{2028}'
    || c == '\U{2029}'
    || c == '\U{202F}'
    || c == '\U{205F}'
    || c == '\U{3000}'
  }

  predicate IsDigit(c: char) {
    '0' <= c <= '9'
  }

  predicate AllDigits(s: string) {
    forall i :: 0 <= i < |s| ==> IsDigit(s[i])
  }

  predicate NoWhitespace(s: string) {
    forall i :: 0 <= i < |s| ==> !IsWhitespace(s[i])
  }

  /** ASCII case folding, the part of `to_lowercase` the model keeps. */
  function LowerChar(c: char): char {
    if 'A' <= c <= 'Z' then (c as int + 32) as char else c
  }

  function ToLower(s: string): (r: string)
    ensures |r| == |s|
    ensures forall i :: 0 <= i < |s| ==> r[i] == LowerChar(s[i])
  {
    seq(|s|, i requires 0 <= i < |s| => LowerChar(s[i]))
  }

  // ---------------------------------------------------------------------------
  // Substrings

  /** `str::contains` with a string pattern. */
  predicate Contains(s: string, pat: string)
    decreases |s|
  {
    pat <= s || (s != [] && Contains(s[1..], pat))
  }

  /** An occurrence of `pat` at any offset is found by `Contains`. */
  lemma {:induction false} ContainsAt(s: string, pat: string, i: nat)
    requires i + |pat| <= |s| && s[i..i + |pat|] == pat
    ensures Contains(s, pat)
  {
    if i == 0 {
      assert pat <= s;
    } else {
      assert s[1..][i - 1..i - 1 + |pat|] == s[i..i + |pat|];
      ContainsAt(s[1..], pat, i - 1);
    }
  }

  /** ... and `Contains` finds nothing else: it holds exactly when some offset matches. */
  lemma {:induction false} ContainsOffset(s: string, pat: string) returns (i: nat)
    requires Contains(s, pat)
    ensures i + |pat| <= |s| && s[i..i + |pat|] == pat
    decreases |s|
  {
    if pat <= s {
      i := 0;
    } else {
      var j := ContainsOffset(s[1..], pat);
      assert s[1..][j..j + |pat|] == s[j + 1..j + 1 + |pat|];
      i := j + 1;
    }
  }

  lemma ContainsInfix(a: string, b: string, c: string)
    ensures Contains(a + b + c, b)
  {
    assert (a + b + c)[|a|..|a| + |b|] == b;
    ContainsAt(a + b + c, b, |a|);
  }

  /** An occurrence stays an occurrence when text is added on either side. */
  lemma ContainsExtend(s: string, pat: string, a: string, b: string)
    requires Contains(s, pat)
    ensures Contains(a + s + b, pat)
  {
    var i := ContainsOffset(s, pat);
    assert (a + s + b)[|a| + i..|a| + i + |pat|] == s[i..i + |pat|];
    ContainsAt(a + s + b, pat, |a| + i);
  }

  /** Every string contains the empty pattern. */
  lemma ContainsEmpty(s: string)
    ensures Contains(s, [])
  {
    assert [] <= s;
  }

  /** A pattern longer than the text is never contained. */
  lemma {:induction false} ContainsLonger(s: string, pat: string)
    requires |pat| > |s|
    ensures !Contains(s, pat)
    decreases |s|
  {
    if s != [] {
      ContainsLonger(s[1..], pat);
    }
  }

  // ---------------------------------------------------------------------------
  // Splitting and joining

  /** `str::split` on one character (also JavaScript's `String.prototype.split` with a
      one-character separator): the pieces between separators, at least one. */
  function Split(s: string, sep: char): (parts: seq<string>)
    ensures |parts| >= 1
    ensures forall i :: 0 <= i < |parts| ==> sep !in parts[i]
    decreases |s|
  {
    if s == [] then [[]]
    else
      var rest := Split(s[1..], sep);
      if s[0] == sep then [[]] + rest
      else [[s[0]] + rest[0]] + rest[1..]
  }

  /** `[String]::join` (and JavaScript's `Array.prototype.join`). */
  function Join(parts: seq<string>, sep: string): string
    decreases |parts|
  {
    if |parts| == 0 then []
    else if |parts| == 1 then parts[0]
    else parts[0] + sep + Join(parts[1..], sep)
  }

  /** Splitting a text without the separator yields the text itself. */
  lemma {:induction false} SplitNoSeparator(s: string, sep: char)
    requires sep !in s
    ensures Split(s, sep) == [s]
    decreases |s|
  {
    if s != [] {
      SplitNoSeparator(s[1..], sep);
      assert [s[0]] + s[1..] == s;
    }
  }

  /** The first separator of a text ends its first piece. */
  lemma {:induction false} SplitAtSeparator(a: string, sep: char, b: string)
    requires sep !in a
    ensures Split(a + [sep] + b, sep) == [a] + Split(b, sep)
    decreases |a|
  {
    var s := a + [sep] + b;
    if a == [] {
      assert s[1..] == b;
    } else {
      assert s[1..] == a[1..] + [sep] + b;
      SplitAtSeparator(a[1..], sep, b);
      assert [s[0]] + a[1..] == a;
    }
  }

  /** Joining separator-free pieces and splitting again gives the pieces back. */
  lemma {:induction false} SplitJoin(parts: seq<string>, sep: char)
    requires |parts| >= 1
    requires forall i :: 0 <= i < |parts| ==> sep !in parts[i]
    ensures Split(Join(parts, [sep]), sep) == parts
    decreases |parts|
  {
    if |parts| == 1 {
      SplitNoSeparator(parts[0], sep);
    } else {
      SplitJoin(parts[1..], sep);
      SplitAtSeparator(parts[0], sep, Join(parts[1..], [sep]));
    }
  }

  /** Splitting and joining again gives the text back. */
  lemma {:induction false} JoinSplit(s: string, sep: char)
    ensures Join(Split(s, sep), [sep]) == s
    decreases |s|
  {
    if s != [] {
      JoinSplit(s[1..], sep);
      var rest := Split(s[1..], sep);
      if s[0] == sep {
        assert Split(s, sep) == [[]] + rest;
      } else if |rest| == 1 {
        assert Split(s, sep) == [[s[0]] + rest[0]];
      } else {
        assert Split(s, sep) == [[s[0]] + rest[0]] + rest[1..];
        assert (([[s[0]] + rest[0]] + rest[1..])[1..]) == rest[1..];
        assert Join(rest, [sep]) == rest[0] + [sep] + Join(rest[1..], [sep]);
      }
    }
  }

  // ---------------------------------------------------------------------------
  // Searching from either end

  /** Position of the first `c`, or `|s|` when there is none. */
  function IndexOf(s: string, c: char): (i: nat)
    ensures i <= |s|
    ensures c !in s[..i]
    ensures i < |s| ==> s[i] == c
    decreases |s|
  {
    if s == [] then 0
    else if s[0] == c then 0
    else
      var j := IndexOf(s[1..], c);
      assert s[..j + 1] == [s[0]] + s[1..][..j];
      j + 1
  }

  /** `str::rsplit_once` on one character: the text before and after its last occurrence. */
  function RSplitOnce(s: string, c: char): (r: Option<(string, string)>)
    ensures r.None? <==> c !in s
    ensures r.Some? ==> s == r.value.0 + [c] + r.value.1 && c !in r.value.1
    decreases |s|
  {
    if s == [] then None
    else if s[|s| - 1] == c then
      assert s == s[..|s| - 1] + [c] + [];
      Some((s[..|s| - 1], []))
    else
      match RSplitOnce(s[..|s| - 1], c)
      case None =>
        assert s == s[..|s| - 1] + [s[|s| - 1]];
        None
      case Some((a, b)) =>
        assert s == s[..|s| - 1] + [s[|s| - 1]];
        Some((a, b + [s[|s| - 1]]))
  }

  /** Splitting `a + [c] + b` at its last `c`, where `b` holds no `c`, gives back `a` and `b`. */
  lemma {:induction false} RSplitOnceAt(a: string, c: char, b: string)
    requires c !in b
    ensures RSplitOnce(a + [c] + b, c) == Some((a, b))
    decreases |b|
  {
    var s := a + [c] + b;
    if b != [] {
      var init := b[..|b| - 1];
      RSplitOnceAt(a, c, init);
      assert s[|s| - 1] == b[|b| - 1] != c;
      assert s[..|s| - 1] == a + [c] + init;
      assert init + [b[|b| - 1]] == b;
    } else {
      assert s[..|s| - 1] == a;
    }
  }

  /** `str::strip_prefix`. */
  function StripPrefix(s: string, prefix: string): (r: Option<string>)
    ensures r.Some? <==> prefix <= s
    ensures r.Some? ==> s == prefix + r.value
  {
    if prefix <= s then Some(s[|prefix|..]) else None
  }

  // ---------------------------------------------------------------------------
  // Trimming, lines and whitespace-separated fields

  function TrimStart(s: string): (r: string)
    ensures |r| <= |s| && r == s[|s| - |r|..]
    ensures r == [] || !IsWhitespace(r[0])
    ensures forall k :: 0 <= k < |s| - |r| ==> IsWhitespace(s[k])
    decreases |s|
  {
    if s != [] && IsWhitespace(s[0]) then TrimStart(s[1..]) else s
  }

  function TrimEnd(s: string): (r: string)
    ensures |r| <= |s| && r == s[..|r|]
    ensures r == [] || !IsWhitespace(r[|r| - 1])
    decreases |s|
  {
    if s != [] && IsWhitespace(s[|s| - 1]) then TrimEnd(s[..|s| - 1]) else s
  }

  /** A text with no leading or trailing whitespace. */
  predicate IsTrimmed(s: string) {
    s == [] || (!IsWhitespace(s[0]) && !IsWhitespace(s[|s| - 1]))
  }

  /** `str::trim`. */
  function Trim(s: string): (r: string)
    ensures IsTrimmed(r)
    ensures |r| <= |s|
  {
    TrimEnd(TrimStart(s))
  }

  /** Trimming a trimmed text, even after one leading space, gives it back. */
  lemma TrimAfterSpace(s: string)
    requires IsTrimmed(s)
    ensures Trim(s) == s
    ensures Trim([' '] + s) == s
  {
    assert TrimStart(s) == s;
    assert TrimEnd(s) == s;
    var t := [' '] + s;
    assert t[1..] == s;
    assert TrimStart(t) == TrimStart(s);
  }

  /** Position of the first whitespace character, or `|s|`. */
  function FirstWhitespace(s: string): (i: nat)
    ensures i <= |s|
    ensures forall k :: 0 <= k < i ==> !IsWhitespace(s[k])
    ensures i < |s| ==> IsWhitespace(s[i])
    decreases |s|
  {
    if s == [] || IsWhitespace(s[0]) then 0 else FirstWhitespace(s[1..]) + 1
  }

  /** `str::split_whitespace`: the maximal runs of non-whitespace characters. */
  function SplitWhitespace(s: string): (fields: seq<string>)
    ensures forall i :: 0 <= i < |fields| ==> fields[i] != [] && NoWhitespace(fields[i])
    decreases |s|
  {
    var t := TrimStart(s);
    if t == [] then []
    else
      var i := FirstWhitespace(t);
      var word := t[..i];
      assert word != [] && NoWhitespace(word) by {
        assert forall k :: 0 <= k < |word| ==> word[k] == t[k];
      }
      FieldsPrepend(word, SplitWhitespace(t[i..]));
      [word] + SplitWhitespace(t[i..])
  }

  /** A field in front of fields keeps them all non-empty and free of whitespace. */
  lemma FieldsPrepend(word: string, fields: seq<string>)
    requires word != [] && NoWhitespace(word)
    requires forall i :: 0 <= i < |fields| ==> fields[i] != [] && NoWhitespace(fields[i])
    ensures forall i :: 0 <= i < |[word] + fields| ==> ([word] + fields)[i] != [] && NoWhitespace(([word] + fields)[i])
  {
  }

  /** The first whitespace after a leading word is where the word ends. */
  lemma {:induction false} FirstWhitespaceAfterWord(u: string, t: string)
    requires NoWhitespace(u) && (t == [] || IsWhitespace(t[0]))
    ensures FirstWhitespace(u + t) == |u|
    decreases |u|
  {
    if u == [] {
      assert u + t == t;
    } else {
      assert (u + t)[1..] == u[1..] + t;
      FirstWhitespaceAfterWord(u[1..], t);
    }
  }

  /** A leading word followed by whitespace (or nothing) is the first field. */
  lemma SplitWhitespaceWord(u: string, t: string)
    requires u != [] && NoWhitespace(u) && (t == [] || IsWhitespace(t[0]))
    ensures SplitWhitespace(u + t) == [u] + SplitWhitespace(t)
  {
    FirstWhitespaceAfterWord(u, t);
    assert TrimStart(u + t) == u + t;
    assert (u + t)[..|u|] == u;
    assert (u + t)[|u|..] == t;
  }

  /** Leading whitespace does not change the fields. */
  lemma SplitWhitespaceLeading(t: string)
    requires t != [] && IsWhitespace(t[0])
    ensures SplitWhitespace(t) == SplitWhitespace(t[1..])
  {
    assert TrimStart(t) == TrimStart(t[1..]);
  }

  /** A carriage return directly before a line feed belongs to the line ending. */
  function StripCarriageReturn(line: string): string {
    if line != [] && line[|line| - 1] == '\r' then line[..|line| - 1] else line
  }

  /** `str::lines`: pieces ended by `\n` or `\r\n`; the last line needs no ending and a
      final line ending does not start an empty line. */
  function Lines(s: string): (lines: seq<string>)
    ensures forall i :: 0 <= i < |lines| ==> '\n' !in lines[i]
    decreases |s|
  {
    if s == [] then []
    else
      var i := IndexOf(s, '\n');
      if i == |s| then [s]
      else [StripCarriageReturn(s[..i])] + Lines(s[i + 1..])
  }

  /** The pieces trimmed, with the empty ones dropped, in order
      (`map(trim).filter(|s| !s.is_empty())`). */
  function NonEmptyTrimmed(pieces: seq<string>): (r: seq<string>)
    ensures forall i :: 0 <= i < |r| ==> r[i] != [] && IsTrimmed(r[i])
    ensures |r| <= |pieces|
  {
    if pieces == [] then []
    else
      var t := Trim(pieces[0]);
      var rest := NonEmptyTrimmed(pieces[1..]);
      var head := if t == [] then [] else [t];
      AllTrimmedAppend(head, rest);
      head + rest
  }

  /** Texts that are all non-empty and trimmed stay so when two lists are joined. */
  lemma AllTrimmedAppend(a: seq<string>, b: seq<string>)
    requires forall i :: 0 <= i < |a| ==> a[i] != [] && IsTrimmed(a[i])
    requires forall i :: 0 <= i < |b| ==> b[i] != [] && IsTrimmed(b[i])
    ensures forall i :: 0 <= i < |a + b| ==> (a + b)[i] != [] && IsTrimmed((a + b)[i])
  {
  }

  // ---------------------------------------------------------------------------
  // Integers

  function DigitValue(c: char): nat
    requires IsDigit(c)
  {
    (c as int) - ('0' as int)
  }

  function DigitChar(d: nat): (c: char)
    requires d < 10
    ensures IsDigit(c) && DigitValue(c) == d
  {
    ('0' as int + d) as char
  }

  /** The value of a run of decimal digits, leading zeros allowed. */
  function DigitsValue(s: string): nat
    requires AllDigits(s)
    decreases |s|
  {
    if s == [] then 0 else DigitsValue(s[..|s| - 1]) * 10 + DigitValue(s[|s| - 1])
  }

  const U16Max: nat := 65535
  const U32Max: nat := 4294967295

  /** `str::parse` for an unsigned integer type whose largest value is `max`: an optional
      `+`, then at least one ASCII digit, and a value that fits. */
  function ParseUnsigned(s: string, max: nat): (r: Option<nat>)
    ensures r.Some? ==> r.value <= max && s != []
    ensures r.Some? ==> ':' !in s && !IsWhitespace(s[0])
  {
    var digits := if |s| > 1 && s[0] == '+' then s[1..] else s;
    if digits != [] && AllDigits(digits) && DigitsValue(digits) <= max then
      Some(DigitsValue(digits))
    else None
  }

  function ParseU16(s: string): Option<nat> {
    ParseUnsigned(s, U16Max)
  }

  function ParseU32(s: string): Option<nat> {
    ParseUnsigned(s, U32Max)
  }

  /** Decimal rendering of a natural number (`to_string`, `{}`). */
  function NatToString(n: nat): (s: string)
    ensures s != [] && AllDigits(s)
    decreases n
  {
    if n < 10 then [DigitChar(n)] else NatToString(n / 10) + [DigitChar(n % 10)]
  }

  /** Decimal rendering of an integer, with a minus sign when negative. */
  function IntToString(i: int): string {
    if i < 0 then "-" + NatToString(-i) else NatToString(i)
  }

  lemma {:induction false} NatToStringValue(n: nat)
    ensures DigitsValue(NatToString(n)) == n
    decreases n
  {
    if n >= 10 {
      NatToStringValue(n / 10);
      var s := NatToString(n);
      assert s[..|s| - 1] == NatToString(n / 10);
    }
  }

  /** Rendering a number in decimal and parsing it back gives the number. */
  lemma ParseNatToString(n: nat, max: nat)
    requires n <= max
    ensures ParseUnsigned(NatToString(n), max) == Some(n)
  {
    NatToStringValue(n);
    var s := NatToString(n);
    assert IsDigit(s[0]);
  }
}
