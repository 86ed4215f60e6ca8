/**
 * The Python `str` built-ins that the modelled code relies on: `strip`, `lstrip`,
 * `startswith`, `in`, `split`, `lower` and slicing after a prefix.
 * Strings are sequences of characters; only ASCII case folding and the ASCII
 * whitespace characters are modelled (see README).
 */
module Strings {

  /** The characters `str.strip()` removes (the ASCII ones among Python's whitespace). */
  const Whitespace: set<char> :=
    {' ', '\t', '\n', '\r', '\U{000B}', '\U{000C}', '\U{001C}', '\U{001D}', '\U{001E}', '\U{001F}'}

  /** How many characters at the start of `s` belong to `cs`: the first
      character after them, if any, does not. */
  function LeadingCount(s: string, cs: set<char>): (n: nat)
    ensures n <= |s|
    ensures forall i :: 0 <= i < n ==> s[i] in cs
    ensures n == |s| || s[n] !in cs
    decreases |s|
  {
    if s != [] && s[0] in cs then
      var n := LeadingCount(s[1..], cs);
      assert forall i :: 1 <= i < n + 1 ==> s[i] == s[1..][i - 1];
      n + 1
    else
      0
  }

  /** How many characters at the end of `s` belong to `cs`: the last
      character before them, if any, does not. */
  function TrailingCount(s: string, cs: set<char>): (n: nat)
    ensures n <= |s|
    ensures forall i :: |s| - n <= i < |s| ==> s[i] in cs
    ensures n == |s| || s[|s| - n - 1] !in cs
    decreases |s|
  {
    if s != [] && s[|s| - 1] in cs then
      var n := TrailingCount(s[..|s| - 1], cs);
      assert forall i :: |s| - 1 - n <= i < |s| - 1 ==> s[i] == s[..|s| - 1][i];
      n + 1
    else
      0
  }

  /** `s.lstrip(cs)`: drop the longest prefix made of characters in `cs`. */
  function TrimStart(s: string, cs: set<char>): (r: string)
    ensures |r| <= |s| && r == s[|s| - |r|..]
    ensures forall i :: 0 <= i < |s| - |r| ==> s[i] in cs
    ensures r == [] || r[0] !in cs
  {
    s[LeadingCount(s, cs)..]
  }

  /** `s.strip(cs)`: what is left of `s` after dropping its leading and
      trailing characters in `cs`. It is the slice of `s` that starts after
      the leading ones; everything before and after that slice is in `cs`, and
      the slice has no character of `cs` at either end. */
  function StripChars(s: string, cs: set<char>): (r: string)
    ensures var i := LeadingCount(s, cs);
      && i + |r| <= |s| && r == s[i..i + |r|]
      && (forall k :: 0 <= k < i ==> s[k] in cs)
      && (forall k :: i + |r| <= k < |s| ==> s[k] in cs)
    ensures r == [] || (r[0] !in cs && r[|r| - 1] !in cs)
  {
    var i := LeadingCount(s, cs);
    var j := TrailingCount(s, cs);
    if i == |s| then [] else s[i..|s| - j]
  }

  /** `s.strip()`: `s` without its leading and trailing whitespace, as
      `StripChars` describes. */
  function Strip(s: string): (r: string)
    ensures var i := LeadingCount(s, Whitespace);
      && i + |r| <= |s| && r == s[i..i + |r|]
      && (forall k :: 0 <= k < i ==> s[k] in Whitespace)
      && (forall k :: i + |r| <= k < |s| ==> s[k] in Whitespace)
    ensures r == [] || (r[0] !in Whitespace && r[|r| - 1] !in Whitespace)
  {
    StripChars(s, Whitespace)
  }

  /** What `s.strip()` keeps is a contiguous slice of `s`. */
  lemma StripIsSlice(s: string)
    ensures exists i {:trigger s[i..]} :: 0 <= i <= |s| - |Strip(s)| && Strip(s) == s[i..][..|Strip(s)|]
  {
    var i := LeadingCount(s, Whitespace);
    assert Strip(s) == s[i..][..|Strip(s)|];
  }

  /** `lstrip` and `strip` keep only characters of `s`. */
  lemma StripOmits(s: string, cs: set<char>, c: char)
    requires c !in s
    ensures c !in TrimStart(s, cs) && c !in Strip(s)
  {
    var t, r := TrimStart(s, cs), Strip(s);
    forall k | 0 <= k < |t|
      ensures t[k] != c
    {
      assert t[k] == s[|s| - |t| + k];
    }
    var i := LeadingCount(s, Whitespace);
    forall k | 0 <= k < |r|
      ensures r[k] != c
    {
      assert r[k] == s[i + k];
    }
  }

  /** `s.strip()` leaves a string that has no whitespace at either end unchanged. */
  lemma StripNoop(s: string)
    requires s == [] || (s[0] !in Whitespace && s[|s| - 1] !in Whitespace)
    ensures Strip(s) == s
  {
  }

  /** The leading characters in `cs` of `p + t` are those of `p` when `p` is
      made of them and `t` does not start with one. */
  lemma LeadingCountPrefix(p: string, t: string, cs: set<char>)
    requires forall i :: 0 <= i < |p| ==> p[i] in cs
    requires t == [] || t[0] !in cs
    ensures LeadingCount(p + t, cs) == |p|
  {
    var s := p + t;
    assert forall i :: 0 <= i < |p| ==> s[i] == p[i];
    if t != [] {
      assert s[|p|] == t[0];
    }
  }

  /** The trailing characters in `cs` of `t + q` are those of `q` when `q` is
      made of them and `t` does not end with one. */
  lemma TrailingCountSuffix(t: string, q: string, cs: set<char>)
    requires forall i :: 0 <= i < |q| ==> q[i] in cs
    requires t == [] || t[|t| - 1] !in cs
    ensures TrailingCount(t + q, cs) == |q|
  {
    var s := t + q;
    assert forall i :: |t| <= i < |s| ==> s[i] == q[i - |t|];
    if t != [] {
      assert s[|t| - 1] == t[|t| - 1];
    }
  }

  /** `lstrip` removes a prefix made of characters it strips, up to the first
      character it keeps. */
  lemma TrimStartPrefix(p: string, t: string, cs: set<char>)
    requires forall i :: 0 <= i < |p| ==> p[i] in cs
    requires t == [] || t[0] !in cs
    ensures TrimStart(p + t, cs) == t
  {
    LeadingCountPrefix(p, t, cs);
    assert (p + t)[|p|..] == t;
  }

  /** `s.strip()` of a text that has no whitespace at either end, with only
      whitespace around it. */
  lemma StripBetween(p: string, t: string, q: string)
    requires forall i :: 0 <= i < |p| ==> p[i] in Whitespace
    requires forall i :: 0 <= i < |q| ==> q[i] in Whitespace
    requires t != [] && t[0] !in Whitespace && t[|t| - 1] !in Whitespace
    ensures Strip(p + t + q) == t
  {
    var s := p + t + q;
    assert s == p + (t + q);
    LeadingCountPrefix(p, t + q, Whitespace);
    TrailingCountSuffix(p + t, q, Whitespace);
    assert s[|p|..|s| - |q|] == t;
  }

  /** `s.strip()` of a text that has no whitespace at either end, with a line
      break and a run of spaces on each side. */
  lemma StripAroundIndent(indent: string, t: string)
    requires forall i :: 0 <= i < |indent| ==> indent[i] == ' '
    requires t != [] && t[0] !in Whitespace && t[|t| - 1] !in Whitespace
    ensures Strip("\n" + indent + t + ("\n" + indent)) == t
  {
    var p := "\n" + indent;
    assert forall i :: 0 <= i < |p| ==> p[i] in Whitespace;
    StripBetween(p, t, p);
  }

  /** `s.strip()` of a string that has no whitespace at either end, after a
      run of spaces. */
  lemma StripAfterSpaces(p: string, t: string)
    requires forall i :: 0 <= i < |p| ==> p[i] == ' '
    requires t != [] && t[0] !in Whitespace && t[|t| - 1] !in Whitespace
    ensures Strip(p + t) == t
  {
    StripBetween(p, t, "");
    assert p + t + "" == p + t;
  }

  /** `s.startswith(p)`. */
  predicate StartsWith(s: string, p: string)
  {
    |p| <= |s| && s[..|p|] == p
  }

  /** `p in s`. */
  predicate Contains(s: string, p: string)
    decreases |s|
  {
    StartsWith(s, p) || (s != [] && Contains(s[1..], p))
  }

  /** A string contains every string it has in the middle. */
  lemma {:induction false} ContainsInfix(a: string, p: string, b: string)
    ensures Contains(a + p + b, p)
    decreases |a|
  {
    if a == [] {
      assert (a + p + b)[..|p|] == p;
    } else {
      assert (a + p + b)[1..] == a[1..] + p + b;
      ContainsInfix(a[1..], p, b);
    }
  }

  /** Where the first occurrence of `p` in `s` starts, or the length of `s`. */
  function FirstAt(s: string, p: string): (n: nat)
    requires p != []
    ensures n <= |s|
    ensures n == |s| || StartsWith(s[n..], p)
    ensures forall i :: 0 <= i < n ==> !StartsWith(s[i..], p)
    decreases |s|
  {
    if s == [] || StartsWith(s, p) then 0
    else
      var n := FirstAt(s[1..], p);
      FirstAtStep(s, p, n);
      n + 1
  }

  lemma FirstAtStep(s: string, p: string, n: nat)
    requires s != [] && !StartsWith(s, p) && n <= |s| - 1
    requires n == |s| - 1 || StartsWith(s[1..][n..], p)
    requires forall i :: 0 <= i < n ==> !StartsWith(s[1..][i..], p)
    ensures n + 1 == |s| || StartsWith(s[n + 1..], p)
    ensures forall i :: 0 <= i < n + 1 ==> !StartsWith(s[i..], p)
  {
    assert s[n + 1..] == s[1..][n..];
    forall i | 1 <= i < n + 1
      ensures !StartsWith(s[i..], p)
    {
      assert s[i..] == s[1..][i - 1..];
    }
  }

  /** The part of `s` before the first occurrence of `p`, or all of `s`. */
  function BeforeFirst(s: string, p: string): (r: string)
    requires p != []
    ensures |r| <= |s| && r == s[..|r|]
    ensures |r| == |s| || StartsWith(s[|r|..], p)
    ensures forall i :: 0 <= i < |r| ==> !StartsWith(s[i..], p)
  {
    s[..FirstAt(s, p)]
  }

  /** `s.split(p)[1]` for a string `s` that starts with `p`: the text after the
      prefix, up to the next occurrence of `p`. */
  function FieldAfter(s: string, p: string): (r: string)
    requires p != [] && StartsWith(s, p)
    ensures |p| + |r| <= |s| && r == s[|p|..|p| + |r|]
    ensures |p| + |r| == |s| || StartsWith(s[|p| + |r|..], p)
    ensures forall i :: |p| <= i < |p| + |r| ==> !StartsWith(s[i..], p)
  {
    var t := s[|p|..];
    var r := BeforeFirst(t, p);
    assert forall i :: |p| <= i <= |s| ==> s[i..] == t[i - |p|..];
    r
  }

  /** `sep.join(parts)` with a one-character separator. */
  function Join(parts: seq<string>, sep: char): string
    requires |parts| >= 1
  {
    if |parts| == 1 then parts[0] else parts[0] + [sep] + Join(parts[1..], sep)
  }

  /** `s.split(sep)` with a one-character separator: there is always at least one
      part and no part contains the separator (`JoinSplit` gives `s` back). */
  function Split(s: string, sep: char): (parts: seq<string>)
    ensures |parts| >= 1
    ensures forall i :: 0 <= i < |parts| ==> sep !in parts[i]
    decreases |s|
  {
    if s == [] then [[]]
    else
      var rest := Split(s[1..], sep);
      if s[0] == sep then [[]] + rest
      else [[s[0]] + rest[0]] + rest[1..]
  }

  /** Joining the parts of a split with the separator gives the string back. */
  lemma {:induction false} JoinSplit(s: string, sep: char)
    ensures Join(Split(s, sep), sep) == s
    decreases |s|
  {
    if s != [] {
      JoinSplit(s[1..], sep);
      var rest := Split(s[1..], sep);
      if s[0] == sep {
        assert ([[]] + rest)[1..] == rest;
      } else {
        var parts := [[s[0]] + rest[0]] + rest[1..];
        assert parts[1..] == rest[1..];
        if |rest| > 1 {
          assert rest[1..] == rest[1..];
        }
      }
    }
  }

  /** Splitting after a first part free of the separator yields that part first. */
  lemma {:induction false} SplitCons(a: string, b: string, sep: char)
    requires sep !in a
    ensures Split(a + [sep] + b, sep) == [a] + Split(b, sep)
    decreases |a|
  {
    if a == [] {
      assert ([] + [sep] + b)[1..] == b;
    } else {
      assert (a + [sep] + b)[1..] == a[1..] + [sep] + b;
      SplitCons(a[1..], b, sep);
      assert [a[0]] + a[1..] == a;
    }
  }

  /** A string without the separator splits into itself alone. */
  lemma {:induction false} SplitNone(a: string, sep: char)
    requires sep !in a
    ensures Split(a, sep) == [a]
    decreases |a|
  {
    if a != [] {
      SplitNone(a[1..], sep);
      assert [a[0]] + a[1..] == a;
    }
  }

  /** Splitting undoes joining when no part contains the separator. */
  lemma {:induction false} SplitJoin(parts: seq<string>, sep: char)
    requires |parts| >= 1
    requires forall i :: 0 <= i < |parts| ==> sep !in parts[i]
    ensures Split(Join(parts, sep), sep) == parts
    decreases |parts|
  {
    if |parts| == 1 {
      SplitNone(parts[0], sep);
    } else {
      SplitJoin(parts[1..], sep);
      SplitCons(parts[0], Join(parts[1..], sep), sep);
      assert [parts[0]] + parts[1..] == parts;
    }
  }

  /** Each part followed by a line break, as an f-string with one field per line. */
  function Lines(parts: seq<string>): string
  {
    if parts == [] then "" else parts[0] + "\n" + Lines(parts[1..])
  }

  /** Splitting at line breaks recovers the lines, when no line contains one. */
  lemma {:induction false} SplitLines(parts: seq<string>, tail: string)
    requires forall i :: 0 <= i < |parts| ==> '\n' !in parts[i]
    ensures Split(Lines(parts) + tail, '\n') == parts + Split(tail, '\n')
    decreases |parts|
  {
    if parts != [] {
      var rest := Lines(parts[1..]) + tail;
      SplitLines(parts[1..], tail);
      LinesCons(parts, tail);
      SplitCons(parts[0], rest, '\n');
      ConsSplit(parts, Split(tail, '\n'));
    } else {
      assert Lines(parts) + tail == tail;
    }
  }

  lemma LinesCons(parts: seq<string>, tail: string)
    requires parts != []
    ensures Lines(parts) + tail == parts[0] + ['\n'] + (Lines(parts[1..]) + tail)
  {
  }

  lemma ConsSplit<T>(xs: seq<T>, ys: seq<T>)
    requires xs != []
    ensures [xs[0]] + (xs[1..] + ys) == xs + ys
  {
    assert [xs[0]] + xs[1..] == xs;
  }

  /** ASCII `str.lower()` of one character. */
  function LowerChar(c: char): char
  {
    if 'A' <= c <= 'Z' then (c as int + 32) as char else c
  }

  /** The ASCII capital of a small letter; other characters are unchanged. */
  function UpperChar(c: char): char
  {
    if 'a' <= c <= 'z' then (c as int - 32) as char else c
  }

  predicate IsCapital(c: char)
  {
    'A' <= c <= 'Z'
  }

  /** `s.lower()`, for ASCII letters: same length, each character lowered, and
      no capital letter left. */
  function Lower(s: string): (r: string)
    ensures |r| == |s|
    ensures forall i :: 0 <= i < |s| ==> r[i] == LowerChar(s[i])
    ensures forall i :: 0 <= i < |r| ==> !IsCapital(r[i])
  {
    seq(|s|, i requires 0 <= i < |s| => LowerChar(s[i]))
  }

  /** Lowering twice is lowering once. */
  lemma LowerIdempotent(s: string)
    ensures Lower(Lower(s)) == Lower(s)
  {
  }

  /** A character lowers to a character `d` without capitals exactly when it is
      `d` or the capital of `d`. */
  lemma LowerCharIs(c: char, d: char)
    requires !IsCapital(d)
    ensures LowerChar(c) == d <==> c == d || c == UpperChar(d)
  {
  }

  /** `v.lower() == w` for a `w` without capitals holds exactly when `v` spells
      `w` with any of its letters in either case. */
  lemma LowerEqualsAnyCase(v: string, w: string)
    requires forall i :: 0 <= i < |w| ==> !IsCapital(w[i])
    ensures Lower(v) == w <==> |v| == |w| && forall i :: 0 <= i < |w| ==> v[i] == w[i] || v[i] == UpperChar(w[i])
  {
    if |v| == |w| {
      forall i | 0 <= i < |w|
        ensures Lower(v)[i] == w[i] <==> v[i] == w[i] || v[i] == UpperChar(w[i])
      {
        LowerCharIs(v[i], w[i]);
      }
    }
  }

  /** Each of `lines` after the same indentation, and one more line of just
      the indentation: the shape of an indented triple-quoted string literal
      after its opening line break. */
  function Indented(indent: string, lines: seq<string>): (block: seq<string>)
    ensures |block| == |lines| + 1
  {
    seq(|lines|, i requires 0 <= i < |lines| => indent + lines[i]) + [indent]
  }

  /** Joining with one more part adds the separator and the part. */
  lemma {:induction false} JoinSnoc(parts: seq<string>, x: string, sep: char)
    requires |parts| >= 1
    ensures Join(parts + [x], sep) == Join(parts, sep) + [sep] + x
    decreases |parts|
  {
    if |parts| == 1 {
      assert (parts + [x])[1..] == [x];
    } else {
      assert (parts + [x])[1..] == parts[1..] + [x];
      JoinSnoc(parts[1..], x, sep);
    }
  }

  /** A joined text starts with its first part and ends with its last. */
  lemma JoinEnds(parts: seq<string>, sep: char)
    requires |parts| >= 1
    ensures var j, first, last := Join(parts, sep), parts[0], parts[|parts| - 1];
      && |first| <= |j| && j[..|first|] == first
      && |last| <= |j| && j[|j| - |last|..] == last
  {
    if |parts| > 1 {
      JoinStart(parts, sep);
      JoinEnd(parts, sep);
    }
  }

  lemma JoinStart(parts: seq<string>, sep: char)
    requires |parts| > 1
    ensures var j, first := Join(parts, sep), parts[0]; |first| <= |j| && j[..|first|] == first
  {
    var first, tail := parts[0], [sep] + Join(parts[1..], sep);
    assert Join(parts, sep) == first + tail;
    assert (first + tail)[..|first|] == first;
  }

  lemma JoinEnd(parts: seq<string>, sep: char)
    requires |parts| > 1
    ensures var j, last := Join(parts, sep), parts[|parts| - 1]; |last| <= |j| && j[|j| - |last|..] == last
  {
    var n := |parts|;
    var init, last := parts[..n - 1], parts[n - 1];
    JoinSnoc(init, last, sep);
    assert init + [last] == parts;
    var head := Join(init, sep) + [sep];
    assert (head + last)[|head + last| - |last|..] == last;
  }

  /** Indenting the first part indents the joined text. */
  lemma JoinIndentFirst(indent: string, x: string, rest: seq<string>, sep: char)
    ensures Join([indent + x] + rest, sep) == indent + Join([x] + rest, sep)
  {
    if rest != [] {
      assert ([indent + x] + rest)[1..] == rest == ([x] + rest)[1..];
    }
  }
}
