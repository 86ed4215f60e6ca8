/**
 * The logic of the utilities module: whitespace normalisation of fetched page
 * text, the model-fit test and the per-source model choice, and the parser for
 * a language model's raw source summary.
 */
module Utils {
  import opened Wrappers
  import opened Sequences
  import opened Strings
  import opened Numerals
  import opened Schemas

  // ---------------------------------------------------------------------------
  // clean_content

  /** No two consecutive characters of `s` are both `c`. */
  predicate NoRun(s: string, c: char)
  {
    forall i :: 0 <= i < |s| - 1 ==> !(s[i] == c && s[i + 1] == c)
  }

  /** `s` with every `c` removed. */
  function Without(s: string, c: char): string
  {
    if s == [] then [] else (if s[0] == c then [] else [s[0]]) + Without(s[1..], c)
  }

  /** `re.sub(c + "+", c, s)`: every run of `c` becomes a single `c`. The result
      has no run left, is never longer than `s`, and keeps the first and last
      character (`CollapseRunsKeepsOthers` says what it keeps in between, and
      `CollapseRunsAround` with `CollapseRunsOfRun` pin the result down). */
  function CollapseRuns(s: string, c: char): (r: string)
    ensures |r| <= |s|
    ensures NoRun(r, c)
    ensures s != [] ==> r != [] && r[0] == s[0] && r[|r| - 1] == s[|s| - 1]
    decreases |s|
  {
    if |s| <= 1 then s
    else
      var rest := CollapseRuns(s[1..], c);
      if s[0] == c && s[1] == c then rest
      else
        var r := [s[0]] + rest;
        assert r[1..] == rest && rest[0] == s[1];
        assert forall i :: 1 <= i < |r| - 1 ==> r[i] == rest[i - 1] && r[i + 1] == rest[i];
        r
  }

  /** Collapsing runs of `c` keeps every other character, in order, and keeps
      a `c` exactly where `s` has one. */
  lemma {:induction false} CollapseRunsKeepsOthers(s: string, c: char)
    ensures Without(CollapseRuns(s, c), c) == Without(s, c)
    ensures (c in CollapseRuns(s, c)) <==> (c in s)
    decreases |s|
  {
    if |s| > 1 {
      var rest := CollapseRuns(s[1..], c);
      CollapseRunsKeepsOthers(s[1..], c);
      assert s == [s[0]] + s[1..];
      WithoutCons(s[0], s[1..], c);
      if !(s[0] == c && s[1] == c) {
        WithoutCons(s[0], rest, c);
      }
    }
  }

  /** A character other than `c` splits the collapsing: the runs on either
      side of it are collapsed separately, and it stays where it was. */
  lemma {:induction false} CollapseRunsAround(a: string, x: char, b: string, c: char)
    requires x != c
    ensures CollapseRuns(a + [x] + b, c) == CollapseRuns(a, c) + [x] + CollapseRuns(b, c)
    decreases |a|
  {
    if a == [] {
      assert a + [x] + b == [x] + b;
      if b != [] {
        CollapseRunsCons(x, b, c);
      }
    } else {
      var t := a[1..] + [x] + b;
      AroundShape(a, x, b);
      CollapseRunsAround(a[1..], x, b, c);
      CollapseRunsCons(a[0], t, c);
      if |a| > 1 {
        CollapseRunsCons(a[0], a[1..], c);
      }
      ConsAround(a[0], x, CollapseRuns(a[1..], c), CollapseRuns(b, c), CollapseRuns(t, c),
                 CollapseRuns(a, c), CollapseRuns(a + [x] + b, c), a[0] == c && t[0] == c);
    }
  }

  /** How `a + [x] + b` splits after the first character of a nonempty `a`. */
  lemma AroundShape(a: string, x: char, b: string)
    requires a != []
    ensures var t := a[1..] + [x] + b;
      && a + [x] + b == [a[0]] + t
      && t[0] == (if |a| == 1 then x else a[1])
      && a == [a[0]] + a[1..]
      && (|a| == 1 ==> a[1..] == [])
  {
  }

  /** The sequence arithmetic of the step of `CollapseRunsAround`, on plain
      strings: with `rt` the collapsed tail, the whole is `rt` or `y` before
      it, and so is the collapsed prefix. */
  lemma ConsAround(y: char, x: char, ra: string, rb: string, rt: string, rPre: string, rAll: string, drop: bool)
    requires rt == ra + [x] + rb
    requires rAll == if drop then rt else [y] + rt
    requires rPre == if drop then ra else [y] + ra
    ensures rAll == rPre + [x] + rb
  {
  }

  /** One step of the collapsing: the first character is dropped exactly when
      it starts a run of `c`. */
  lemma CollapseRunsCons(y: char, t: string, c: char)
    requires t != []
    ensures CollapseRuns([y] + t, c)
      == if y == c && t[0] == c then CollapseRuns(t, c) else [y] + CollapseRuns(t, c)
  {
    var s := [y] + t;
    assert s[0] == y && s[1] == t[0] && s[1..] == t;
  }

  /** A whole run of `c` collapses to a single `c`. */
  lemma {:induction false} CollapseRunsOfRun(k: nat, c: char)
    requires k >= 1
    ensures CollapseRuns(seq(k, _ => c), c) == [c]
  {
    if k > 1 {
      var s := seq(k, _ => c);
      assert s[1..] == seq(k - 1, _ => c);
      CollapseRunsOfRun(k - 1, c);
    }
  }

  lemma WithoutCons(x: char, t: string, c: char)
    ensures Without([x] + t, c) == (if x == c then [] else [x]) + Without(t, c)
    ensures (c in [x] + t) <==> x == c || c in t
  {
    assert ([x] + t)[1..] == t;
  }

  /** A string with no run of `c` is left as it is. */
  lemma {:induction false} CollapseRunsNoop(s: string, c: char)
    requires NoRun(s, c)
    ensures CollapseRuns(s, c) == s
    decreases |s|
  {
    if |s| > 1 {
      CollapseRunsNoop(s[1..], c);
      assert [s[0]] + s[1..] == s;
    }
  }

  /** Collapsing runs of one character creates no run of another. */
  lemma {:induction false} CollapseRunsKeepsNoRun(s: string, c: char, d: char)
    requires NoRun(s, d)
    ensures NoRun(CollapseRuns(s, c), d)
    decreases |s|
  {
    if |s| > 1 {
      CollapseRunsKeepsNoRun(s[1..], c, d);
    }
  }

  /** A slice of a string without runs has none either. */
  lemma NoRunSlice(s: string, c: char, i: nat, n: nat)
    requires NoRun(s, c) && i + n <= |s|
    ensures NoRun(s[i..i + n], c)
  {
    var t := s[i..i + n];
    assert forall k :: 0 <= k < |t| ==> t[k] == s[i + k];
  }

  /** Stripping creates no run: what it keeps is a slice. */
  lemma StripKeepsNoRun(s: string, c: char)
    requires NoRun(s, c)
    ensures NoRun(Strip(s), c)
  {
    NoRunSlice(s, c, LeadingCount(s, Whitespace), |Strip(s)|);
  }

  /** `clean_content`: newline runs collapsed, surrounding whitespace stripped,
      space runs collapsed. The result has no blank line ("\n\n"), no double
      space, no whitespace at either end, and is never longer than the input. */
  function CleanContent(content: string): (r: string)
    ensures NoRun(r, '\n') && NoRun(r, ' ')
    ensures r == [] || (r[0] !in Whitespace && r[|r| - 1] !in Whitespace)
    ensures |r| <= |content|
  {
    var a := CollapseRuns(content, '\n');
    var b := Strip(a);
    StripKeepsNoRun(a, '\n');
    CollapseRunsKeepsNoRun(b, ' ', '\n');
    CollapseRuns(b, ' ')
  }

  /** A string that is already clean (no blank line, no double space, no
      whitespace at either end) is left as it is. */
  lemma CleanContentFixpoint(content: string)
    requires NoRun(content, '\n') && NoRun(content, ' ')
    requires content == [] || (content[0] !in Whitespace && content[|content| - 1] !in Whitespace)
    ensures CleanContent(content) == content
  {
    CollapseRunsNoop(content, '\n');
    StripNoop(content);
    CollapseRunsNoop(content, ' ');
  }

  /** Cleaning twice is cleaning once. */
  lemma CleanContentIdempotent(content: string)
    ensures CleanContent(CleanContent(content)) == CleanContent(content)
  {
    CleanContentFixpoint(CleanContent(content));
  }

  /** The text of `s` with every whitespace character removed. */
  function Visible(s: string): string
  {
    if s == [] then [] else (if s[0] in Whitespace then [] else [s[0]]) + Visible(s[1..])
  }

  lemma {:induction false} VisibleAppend(a: string, b: string)
    ensures Visible(a + b) == Visible(a) + Visible(b)
    decreases |a|
  {
    if a != [] {
      var head := if a[0] in Whitespace then [] else [a[0]];
      assert (a + b)[0] == a[0] && (a + b)[1..] == a[1..] + b;
      assert Visible(a + b) == head + Visible(a[1..] + b);
      VisibleAppend(a[1..], b);
      assert head + (Visible(a[1..]) + Visible(b)) == (head + Visible(a[1..])) + Visible(b);
    } else {
      assert a + b == b;
    }
  }

  lemma {:induction false} VisibleBlank(s: string)
    requires forall i :: 0 <= i < |s| ==> s[i] in Whitespace
    ensures Visible(s) == []
    decreases |s|
  {
    if s != [] {
      VisibleBlank(s[1..]);
    }
  }

  /** Whitespace around a text adds nothing visible. */
  lemma VisibleAround(pre: string, r: string, post: string)
    requires forall k :: 0 <= k < |pre| ==> pre[k] in Whitespace
    requires forall k :: 0 <= k < |post| ==> post[k] in Whitespace
    ensures Visible(pre + (r + post)) == Visible(r)
  {
    VisibleBlank(pre);
    VisibleBlank(post);
    VisibleAppend(pre, r + post);
    VisibleAppend(r, post);
    assert Visible(pre + (r + post)) == [] + (Visible(r) + []);
  }

  /** A slice with only whitespace outside it shows all there is to see. */
  lemma VisibleSlice(s: string, i: nat, n: nat)
    requires i + n <= |s|
    requires forall k :: 0 <= k < i ==> s[k] in Whitespace
    requires forall k :: i + n <= k < |s| ==> s[k] in Whitespace
    ensures Visible(s[i..i + n]) == Visible(s)
  {
    var pre, rest := s[..i], s[i..];
    var r, post := rest[..n], rest[n..];
    assert s == pre + rest && rest == r + post && r == s[i..i + n];
    forall k | 0 <= k < |pre|
      ensures pre[k] in Whitespace
    {
      assert pre[k] == s[k];
    }
    forall k | 0 <= k < |post|
      ensures post[k] in Whitespace
    {
      assert post[k] == s[i + n + k];
    }
    VisibleAround(pre, r, post);
  }

  /** Stripping removes whitespace only. */
  lemma VisibleStrip(s: string)
    ensures Visible(Strip(s)) == Visible(s)
  {
    VisibleSlice(s, LeadingCount(s, Whitespace), |Strip(s)|);
  }

  /** Removing one whitespace character everywhere removes whitespace only. */
  lemma {:induction false} VisibleWithout(s: string, c: char)
    requires c in Whitespace
    ensures Visible(Without(s, c)) == Visible(s)
    decreases |s|
  {
    if s != [] {
      VisibleWithout(s[1..], c);
      var head := if s[0] == c then [] else [s[0]];
      VisibleAppend(head, Without(s[1..], c));
      if s[0] != c {
        assert ([s[0]] + Without(s[1..], c))[1..] == Without(s[1..], c);
      }
    }
  }

  /** Collapsing runs of a whitespace character removes whitespace only. */
  lemma VisibleCollapseRuns(s: string, c: char)
    requires c in Whitespace
    ensures Visible(CollapseRuns(s, c)) == Visible(s)
  {
    CollapseRunsKeepsOthers(s, c);
    VisibleWithout(CollapseRuns(s, c), c);
    VisibleWithout(s, c);
  }

  /** Cleaning changes whitespace only: every other character of the page is
      kept, in order. */
  lemma CleanContentKeepsText(content: string)
    ensures Visible(CleanContent(content)) == Visible(content)
  {
    var a := CollapseRuns(content, '\n');
    VisibleCollapseRuns(content, '\n');
    VisibleStrip(a);
    VisibleCollapseRuns(Strip(a), ' ');
  }

  // ---------------------------------------------------------------------------
  // parse_raw_summary

  /** The parsed summary. A header field is `None` when no line for it occurred
      (the key is absent from the source's dictionary); details and relevancy
      are always present. */
  datatype Summary = Summary(
    title: Option<string>,
    authors: Option<seq<string>>,
    date: Option<string>,
    details: seq<string>,
    relevancy: map<string, int>)

  /** The `ValueError`s a relevancy line can raise. */
  datatype ParseError =
    | UnpackError(line: string)  // `section, score = line.split(":")` without exactly two parts
    | IntError(text: string)     // `int(score.strip())` on a text that is not an integer

  /** The summary built so far, and whether a `Relevancy:` line has been seen. */
  datatype ParserState = ParserState(inRelevancy: bool, summary: Summary)

  const TitleKey := "Title:"
  const AuthorsKey := "Author(s):"
  const DateKey := "Date:"
  const RelevancyKey := "Relevancy:"
  const DetailMarker := "- "
  const NotFound := "not found"

  /** The characters `lstrip("- ")` removes from a relevancy section name. */
  const SectionPrefixChars: set<char> := {'-', ' '}

  /** The lines of the raw summary: the whole text stripped, split at line
      breaks, and each line stripped. */
  function SummaryLines(raw: string): (lines: seq<string>)
    ensures |lines| >= 1 && |lines| == |Split(Strip(raw), '\n')|
    ensures forall i :: 0 <= i < |lines| ==> lines[i] == Strip(Split(Strip(raw), '\n')[i])
    ensures forall i :: 0 <= i < |lines| ==>
      '\n' !in lines[i] && (lines[i] == [] || (lines[i][0] !in Whitespace && lines[i][|lines[i]| - 1] !in Whitespace))
  {
    var parts := Split(Strip(raw), '\n');
    seq(|parts|, i requires 0 <= i < |parts| => Strip(parts[i]))
  }

  /** The text of a header line after its key, up to any repetition of the key,
      stripped. */
  function HeaderValue(line: string, key: string): string
    requires key != [] && StartsWith(line, key)
  {
    Strip(FieldAfter(line, key))
  }

  /** The author list of an `Author(s):` value: empty exactly when the value is
      "not found" in any letter case; otherwise the comma-separated names, each
      stripped, so none holds a comma or surrounding whitespace. */
  function AuthorList(value: string): (authors: seq<string>)
    ensures authors == [] <==> Lower(value) == NotFound
    ensures forall i :: 0 <= i < |authors| ==>
      ',' !in authors[i] && (authors[i] == [] || (authors[i][0] !in Whitespace && authors[i][|authors[i]| - 1] !in Whitespace))
    ensures authors != [] ==> |authors| == |Split(value, ',')|
    ensures authors != [] ==> forall i :: 0 <= i < |authors| ==> authors[i] == Strip(Split(value, ',')[i])
  {
    if Lower(value) == NotFound then []
    else
      var names := Split(value, ',');
      seq(|names|, i requires 0 <= i < |names| => Strip(names[i]))
  }

  /** A value counts as "not found" exactly when it is those nine
      characters with any of its letters in upper case, such as "Not Found"
      or "NOT FOUND". */
  lemma NotFoundAnyCase(value: string)
    ensures Lower(value) == NotFound <==>
      |value| == |NotFound| && forall i :: 0 <= i < |NotFound| ==> value[i] == NotFound[i] || value[i] == UpperChar(NotFound[i])
  {
    assert forall i :: 0 <= i < |NotFound| ==> !IsCapital(NotFound[i]);
    LowerEqualsAnyCase(value, NotFound);
  }

  /** The date of a `Date:` value: empty for "not found" in any letter case,
      otherwise the value itself. */
  function DateValue(value: string): (r: string)
    ensures r == [] <==> Lower(value) == NotFound || value == []
    ensures r != [] ==> r == value
  {
    if Lower(value) == NotFound then "" else value
  }

  /** The key and score of a relevancy line, or the error it raises: an
      unpacking error unless the line has exactly one colon, otherwise an
      integer error unless the stripped text after the colon is an integer.
      The key is the text before the colon with leading dashes and spaces
      removed, then stripped, so it holds no colon and no whitespace at
      either end. */
  function ScoreEntry(line: string): (r: Result<(string, int), ParseError>)
    ensures |Split(line, ':')| != 2 <==> r == Err(UnpackError(line))
    ensures r.Err? <==> |Split(line, ':')| != 2 || ParseInt(Strip(Split(line, ':')[1])).None?
    ensures r.Ok? ==> r.value.0 == Strip(TrimStart(Split(line, ':')[0], SectionPrefixChars))
    ensures r.Ok? ==> Some(r.value.1) == ParseInt(Strip(Split(line, ':')[1]))
    ensures r.Ok? ==> var key := r.value.0;
      ':' !in key && (key == [] || (key[0] !in Whitespace && key[|key| - 1] !in Whitespace))
  {
    var parts := Split(line, ':');
    if |parts| != 2 then Err(UnpackError(line))
    else
      var score := Strip(parts[1]);
      match ParseInt(score)
      case None => Err(IntError(score))
      case Some(v) =>
        var section := TrimStart(parts[0], SectionPrefixChars);
        StripOmits(parts[0], SectionPrefixChars, ':');
        StripOmits(section, SectionPrefixChars, ':');
        Ok((Strip(section), v))
  }

  /** One pass of the loop of `parse_raw_summary`, its branches tried in order. */
  function Step(st: ParserState, line: string): Result<ParserState, ParseError>
  {
    var sm := st.summary;
    if StartsWith(line, TitleKey) then
      Ok(st.(summary := sm.(title := Some(HeaderValue(line, TitleKey)))))
    else if StartsWith(line, AuthorsKey) then
      Ok(st.(summary := sm.(authors := Some(AuthorList(HeaderValue(line, AuthorsKey))))))
    else if StartsWith(line, DateKey) then
      Ok(st.(summary := sm.(date := Some(DateValue(HeaderValue(line, DateKey))))))
    else if StartsWith(line, DetailMarker) && !st.inRelevancy then
      Ok(st.(summary := sm.(details := sm.details + [Strip(line[2..])])))
    else if StartsWith(line, RelevancyKey) then
      Ok(st.(inRelevancy := true))
    else if st.inRelevancy && Contains(line, ": ") then
      match ScoreEntry(line)
      case Err(e) => Err(e)
      case Ok(entry) => Ok(st.(summary := sm.(relevancy := sm.relevancy[entry.0 := entry.1])))
    else Ok(st)
  }

  const InitialState := ParserState(false, Summary(None, None, None, [], map[]))

  /** The loop of `parse_raw_summary` over a list of lines, stopping at the
      first error. */
  function Run(lines: seq<string>): Result<ParserState, ParseError>
  {
    if lines == [] then Ok(InitialState)
    else
      match Run(lines[..|lines| - 1])
      case Err(e) => Err(e)
      case Ok(st) => Step(st, lines[|lines| - 1])
  }

  /** What `parse_raw_summary` returns for a raw summary, or the error it raises. */
  function ParsedSummary(raw: string): Result<Summary, ParseError>
  {
    match Run(SummaryLines(raw))
    case Err(e) => Err(e)
    case Ok(st) => Ok(st.summary)
  }

  /** One more line of the prefix is one more pass of the loop. */
  lemma RunStep(lines: seq<string>, i: nat, st: ParserState)
    requires i < |lines| && Run(lines[..i]) == Ok(st)
    ensures Run(lines[..i + 1]) == Step(st, lines[i])
  {
    assert lines[..i + 1][..i] == lines[..i];
  }

  lemma RunErrorStep(lines: seq<string>, i: nat)
    requires i < |lines| && Run(lines[..i]).Err?
    ensures Run(lines[..i + 1]) == Run(lines[..i])
  {
    var prefix := lines[..i + 1];
    assert prefix[..|prefix| - 1] == lines[..i];
  }

  /** Once the loop has raised, the rest of the lines do not matter. */
  lemma {:induction false} RunErrorSticks(lines: seq<string>, i: nat)
    requires i <= |lines| && Run(lines[..i]).Err?
    ensures Run(lines) == Run(lines[..i])
    decreases |lines| - i
  {
    if i < |lines| {
      RunErrorStep(lines, i);
      RunErrorSticks(lines, i + 1);
    } else {
      assert lines[..i] == lines;
    }
  }

  /** The body of the loop of `parse_raw_summary` on one line: the first of its
      branches whose condition holds updates the parsed fields, the mode, the
      details or the relevancy map; the relevancy branch raises when the line
      does not unpack into a section and a score or the score is not an integer. */
  method ParseLine(st: ParserState, line: string) returns (r: Result<ParserState, ParseError>)
    ensures r == Step(st, line)
  {
    var sm := st.summary;
    if StartsWith(line, TitleKey) {
      sm := sm.(title := Some(Strip(FieldAfter(line, TitleKey))));
    } else if StartsWith(line, AuthorsKey) {
      var authors := Strip(FieldAfter(line, AuthorsKey));
      if Lower(authors) == NotFound {
        sm := sm.(authors := Some([]));
      } else {
        sm := sm.(authors := Some(AuthorList(authors)));
      }
    } else if StartsWith(line, DateKey) {
      var date := Strip(FieldAfter(line, DateKey));
      sm := sm.(date := Some(if Lower(date) == NotFound then "" else date));
    } else if StartsWith(line, DetailMarker) && !st.inRelevancy {
      sm := sm.(details := sm.details + [Strip(line[2..])]);
    } else if StartsWith(line, RelevancyKey) {
      return Ok(st.(inRelevancy := true));
    } else if st.inRelevancy && Contains(line, ": ") {
      var parts := Split(line, ':');
      if |parts| != 2 {
        return Err(UnpackError(line));
      }
      var score := Strip(parts[1]);
      var value := ParseInt(score);
      if value.None? {
        return Err(IntError(score));
      }
      sm := sm.(relevancy := sm.relevancy[Strip(TrimStart(parts[0], SectionPrefixChars)) := value.value]);
    }
    r := Ok(st.(summary := sm));
  }

  /** The loop of `parse_raw_summary` over the stripped lines, stopping at
      the first line that raises. */
  method RunLines(lines: seq<string>) returns (r: Result<ParserState, ParseError>)
    ensures r == Run(lines)
  {
    var st := InitialState;
    var i := 0;
    assert lines[..0] == [];
    while i < |lines|
      invariant 0 <= i <= |lines|
      invariant Run(lines[..i]) == Ok(st)
    {
      RunStep(lines, i, st);
      var next := ParseLine(st, lines[i]);
      if next.Err? {
        RunErrorSticks(lines, i + 1);
        return Err(next.error);
      }
      st := next.value;
      i := i + 1;
    }
    assert lines[..i] == lines;
    r := Ok(st);
  }

  /** `parse_raw_summary`: the summary the loop builds, or the error it raises. */
  method ParseRawSummary(raw: string) returns (r: Result<Summary, ParseError>)
    ensures r == ParsedSummary(raw)
  {
    var run := RunLines(SummaryLines(raw));
    match run {
      case Err(e) => r := Err(e);
      case Ok(st) => r := Ok(st.summary);
    }
  }

  // What the parse yields, stated line by line.

  predicate IsRelevancyLine(line: string)
  {
    StartsWith(line, RelevancyKey)
  }

  /** The index of the first `Relevancy:` line, or the number of lines. */
  function FirstRelevancy(lines: seq<string>): nat
  {
    FirstIndex(IsRelevancyLine, lines)
  }

  /** The keys of the header lines, the detail marker and the relevancy key
      begin with different characters, so a line starts with at most one. */
  lemma KeysExclusive(line: string)
    ensures StartsWith(line, TitleKey) ==> line[0] == 'T'
    ensures StartsWith(line, AuthorsKey) ==> line[0] == 'A'
    ensures StartsWith(line, DateKey) ==> line[0] == 'D'
    ensures StartsWith(line, RelevancyKey) ==> line[0] == 'R'
    ensures StartsWith(line, DetailMarker) ==> line[0] == '-'
  {
    assert StartsWith(line, TitleKey) ==> line[0] == line[..|TitleKey|][0];
    assert StartsWith(line, AuthorsKey) ==> line[0] == line[..|AuthorsKey|][0];
    assert StartsWith(line, DateKey) ==> line[0] == line[..|DateKey|][0];
    assert StartsWith(line, RelevancyKey) ==> line[0] == line[..|RelevancyKey|][0];
    assert StartsWith(line, DetailMarker) ==> line[0] == line[..|DetailMarker|][0];
  }

  /** A detail: a line starting with "- ", without the marker, stripped. */
  function DetailItem(line: string): Option<string>
  {
    if StartsWith(line, DetailMarker) then Some(Strip(line[2..])) else None
  }

  /** The details of a list of lines, in order. */
  function DetailItems(lines: seq<string>): seq<string>
  {
    FilterMap(DetailItem, lines)
  }

  /** A bullet written as "- " and a stripped text is read back as that text. */
  lemma DetailLine(d: string)
    requires d != [] && d[0] !in Whitespace && d[|d| - 1] !in Whitespace
    ensures DetailItem(DetailMarker + d) == Some(d) && !IsRelevancyLine(DetailMarker + d)
  {
    assert (DetailMarker + d)[..2] == DetailMarker && (DetailMarker + d)[2..] == d;
    KeysExclusive(DetailMarker + d);
    StripNoop(d);
  }

  /** A relevancy line written as "- section: score", for a section name with
      no colon and no leading dash or surrounding whitespace, is read back as
      that section and score. */
  lemma ScoreLine(section: string, n: int)
    requires section != [] && ':' !in section
    requires section[0] !in SectionPrefixChars && section[0] !in Whitespace
    requires section[|section| - 1] !in Whitespace
    ensures var line := DetailMarker + section + ": " + IntToString(n);
      IsScoreLine(line) && ScoreEntry(line) == Ok((section, n))
  {
    var num := IntToString(n);
    var head := DetailMarker + section;
    ScoreLineReached(head, num);
    IntToStringShape(n);
    ScoreLineParts(head, num);
    ScoreAfterSpace(num);
    ParseIntToString(n);
    TrimStartPrefix(DetailMarker, section, SectionPrefixChars);
    StripNoop(section);
  }

  lemma ScoreLineReached(head: string, num: string)
    requires head != [] && head[0] == '-'
    ensures IsScoreLine(head + ": " + num)
  {
    var line := head + ": " + num;
    assert line[0] == '-';
    KeysExclusive(line);
    ContainsInfix(head, ": ", num);
  }

  lemma ScoreAfterSpace(num: string)
    requires num != [] && (IsDigit(num[0]) || num[0] == '-') && IsDigit(num[|num| - 1])
    ensures Strip(" " + num) == num
  {
    var c, d := num[0], num[|num| - 1];
    assert c != ' ' && c != '\t' && c != '\n' && c != '\r';
    assert c !in Whitespace && d !in Whitespace;
    StripAfterSpaces(" ", num);
  }

  lemma ScoreLineParts(head: string, num: string)
    requires ':' !in head && ':' !in num
    ensures Split(head + ": " + num, ':') == [head, " " + num]
  {
    assert head + ": " + num == head + [':'] + (" " + num);
    assert ':' !in " " + num;
    SplitCons(head, " " + num, ':');
    SplitNone(" " + num, ':');
  }

  /** A line that, in relevancy mode, reaches the relevancy branch. */
  predicate IsScoreLine(line: string)
  {
    && !StartsWith(line, TitleKey) && !StartsWith(line, AuthorsKey) && !StartsWith(line, DateKey)
    && !StartsWith(line, RelevancyKey) && Contains(line, ": ")
  }

  /** A relevancy map after a well-formed score line: its section set to its
      score, replacing any earlier score of that section. */
  function ScoreUpdate(m: map<string, int>, line: string): map<string, int>
  {
    if IsScoreLine(line) && ScoreEntry(line).Ok? then
      m[ScoreEntry(line).value.0 := ScoreEntry(line).value.1]
    else m
  }

  /** The section scores of a list of lines, each later line overriding. */
  function Scores(lines: seq<string>): map<string, int>
  {
    FoldLeft(ScoreUpdate, map[], lines)
  }

  /** One pass of the loop changes the mode only at a `Relevancy:` line, and
      never leaves relevancy mode. */
  lemma StepMode(st: ParserState, line: string)
    requires Step(st, line).Ok?
    ensures Step(st, line).value.inRelevancy == (st.inRelevancy || StartsWith(line, RelevancyKey))
  {
    KeysExclusive(line);
  }

  /** One pass of the loop adds a detail exactly for a "- " line outside
      relevancy mode. */
  lemma StepDetails(st: ParserState, line: string)
    requires Step(st, line).Ok?
    ensures Step(st, line).value.summary.details
      == st.summary.details + (if st.inRelevancy then [] else OptionToSeq(DetailItem(line)))
  {
    KeysExclusive(line);
  }

  /** One pass of the loop adds a score exactly for a score line in relevancy
      mode. */
  lemma StepRelevancy(st: ParserState, line: string)
    requires Step(st, line).Ok?
    ensures Step(st, line).value.summary.relevancy
      == if st.inRelevancy then ScoreUpdate(st.summary.relevancy, line) else st.summary.relevancy
  {
    KeysExclusive(line);
    if StartsWith(line, TitleKey) || StartsWith(line, AuthorsKey) || StartsWith(line, DateKey)
      || StartsWith(line, RelevancyKey) {
      assert !IsScoreLine(line);
    } else if StartsWith(line, DetailMarker) && !st.inRelevancy {
    } else if st.inRelevancy && Contains(line, ": ") {
      assert IsScoreLine(line);
    } else {
      assert !(st.inRelevancy && IsScoreLine(line));
    }
  }

  /** One pass of the loop raises exactly at a score line in relevancy mode
      whose entry is malformed. */
  lemma StepFails(st: ParserState, line: string)
    ensures Step(st, line).Err? <==> st.inRelevancy && IsScoreLine(line) && ScoreEntry(line).Err?
  {
    KeysExclusive(line);
  }

  /** One pass of the loop sets a header field exactly at a line with its key. */
  lemma StepHeaders(st: ParserState, line: string)
    requires Step(st, line).Ok?
    ensures var sm, sm' := st.summary, Step(st, line).value.summary;
      && sm'.title == (if StartsWith(line, TitleKey) then Some(HeaderValue(line, TitleKey)) else sm.title)
      && sm'.authors == (if StartsWith(line, AuthorsKey) then Some(AuthorList(HeaderValue(line, AuthorsKey))) else sm.authors)
      && sm'.date == (if StartsWith(line, DateKey) then Some(DateValue(HeaderValue(line, DateKey))) else sm.date)
  {
    KeysExclusive(line);
  }

  /** The loop is in relevancy mode exactly when a `Relevancy:` line has been
      seen, and the details are the "- " lines before the first one. */
  predicate ModeAndDetails(st: ParserState, lines: seq<string>)
  {
    var k := FirstRelevancy(lines);
    st.inRelevancy == (k < |lines|) && st.summary.details == DetailItems(lines[..k])
  }

  /** The inductive step of `RunDetails`. */
  lemma DetailsStep(lines: seq<string>, st0: ParserState, st1: ParserState)
    requires lines != []
    requires ModeAndDetails(st0, lines[..|lines| - 1]) && Step(st0, lines[|lines| - 1]) == Ok(st1)
    ensures ModeAndDetails(st1, lines)
  {
    var line := lines[|lines| - 1];
    StepMode(st0, line);
    StepDetails(st0, line);
    KeysExclusive(line);
    FilterMapBeforeLast(DetailItem, IsRelevancyLine, lines);
    if IsRelevancyLine(line) {
      assert DetailItem(line) == None;
    }
  }

  /** The details are the "- " lines that come before the first `Relevancy:`
      line, in input order, with the marker removed and the rest stripped; the
      loop is in relevancy mode exactly when a `Relevancy:` line has been seen. */
  lemma {:induction false} RunDetails(lines: seq<string>)
    requires Run(lines).Ok?
    ensures var st := Run(lines).value; var k := FirstRelevancy(lines);
      st.inRelevancy == (k < |lines|) && st.summary.details == DetailItems(lines[..k])
    decreases |lines|
  {
    if lines != [] {
      var init := lines[..|lines| - 1];
      RunDetails(init);
      DetailsStep(lines, Run(init).value, Run(lines).value);
    }
  }

  /** The inductive step of `RunRelevancy`. */
  lemma RelevancyStep(lines: seq<string>, st0: ParserState, st1: ParserState)
    requires lines != []
    requires var init := lines[..|lines| - 1];
      ModeAndDetails(st0, init) && st0.summary.relevancy == Scores(init[FirstRelevancy(init)..])
    requires Step(st0, lines[|lines| - 1]) == Ok(st1)
    ensures st1.summary.relevancy == Scores(lines[FirstRelevancy(lines)..])
  {
    var line := lines[|lines| - 1];
    StepRelevancy(st0, line);
    KeysExclusive(line);
    FoldFromLast(ScoreUpdate, map[], IsRelevancyLine, lines);
  }

  /** The relevancy map holds the scores of the lines from the first `Relevancy:`
      line on; before it no line is read as a score. */
  lemma {:induction false} RunRelevancy(lines: seq<string>)
    requires Run(lines).Ok?
    ensures Run(lines).value.summary.relevancy == Scores(lines[FirstRelevancy(lines)..])
    decreases |lines|
  {
    if lines != [] {
      var init := lines[..|lines| - 1];
      RunRelevancy(init);
      RunDetails(init);
      RelevancyStep(lines, Run(init).value, Run(lines).value);
    }
  }

  /** Every score line from the first `Relevancy:` line on has exactly one colon
      and an integer score. */
  predicate ScoresWellFormed(lines: seq<string>)
  {
    forall i :: FirstRelevancy(lines) <= i < |lines| ==> ScoreLineOk(lines[i])
  }

  /** A line that the relevancy mode accepts: not a score line, or a well-formed one. */
  predicate ScoreLineOk(line: string)
  {
    IsScoreLine(line) ==> ScoreEntry(line).Ok?
  }

  /** Well-formedness of a list is that of the list without its last line and,
      once a `Relevancy:` line has been seen before it, of the last line. */
  lemma WellFormedLast(lines: seq<string>)
    requires lines != []
    ensures var init, line := lines[..|lines| - 1], lines[|lines| - 1];
      ScoresWellFormed(lines)
      <==> ScoresWellFormed(init) && (FirstRelevancy(init) < |init| ==> ScoreLineOk(line))
  {
    forall line | IsRelevancyLine(line)
      ensures ScoreLineOk(line)
    {
      assert !IsScoreLine(line);
    }
    AllFromFirstLast(IsRelevancyLine, ScoreLineOk, lines);
  }

  /** The parse raises exactly when some line in relevancy mode that contains
      ": " has other than one colon or a score that is not an integer. */
  lemma {:induction false} RunFailsIff(lines: seq<string>)
    ensures Run(lines).Ok? <==> ScoresWellFormed(lines)
    decreases |lines|
  {
    if lines != [] {
      var init := lines[..|lines| - 1];
      RunFailsIff(init);
      WellFormedLast(lines);
      if Run(init).Ok? {
        RunDetails(init);
        StepFails(Run(init).value, lines[|lines| - 1]);
      }
    }
  }

  /** The index of the last line that starts with `key`, or -1 if none does. */
  function LastWith(lines: seq<string>, key: string): (r: int)
    ensures -1 <= r < |lines|
    ensures r >= 0 ==> StartsWith(lines[r], key)
    ensures forall j :: r < j < |lines| ==> !StartsWith(lines[j], key)
  {
    if lines == [] then -1
    else if StartsWith(lines[|lines| - 1], key) then |lines| - 1
    else LastWith(lines[..|lines| - 1], key)
  }

  /** The value of a header field: from its last line, or absent. */
  function LastHeader(lines: seq<string>, key: string): Option<string>
    requires key != []
  {
    var r := LastWith(lines, key);
    if r < 0 then None else Some(HeaderValue(lines[r], key))
  }

  /** The header fields a summary holds after the given lines: each from the
      last line with its key, absent when there is none. */
  predicate HeadersFrom(sm: Summary, lines: seq<string>)
  {
    && sm.title == LastHeader(lines, TitleKey)
    && sm.authors == (match LastHeader(lines, AuthorsKey) case None => None case Some(v) => Some(AuthorList(v)))
    && sm.date == (match LastHeader(lines, DateKey) case None => None case Some(v) => Some(DateValue(v)))
  }

  /** The inductive step of `RunHeaders`: a pass over the last line updates
      the header fields as the last line carrying each key says. */
  lemma HeadersSnoc(lines: seq<string>, st0: ParserState, st1: ParserState)
    requires lines != []
    requires HeadersFrom(st0.summary, lines[..|lines| - 1]) && Step(st0, lines[|lines| - 1]) == Ok(st1)
    ensures HeadersFrom(st1.summary, lines)
  {
    var line := lines[|lines| - 1];
    StepHeaders(st0, line);
    LastHeaderStep(lines, TitleKey);
    LastHeaderStep(lines, AuthorsKey);
    LastHeaderStep(lines, DateKey);
  }

  /** The last line carrying `key` is the final line when it carries the key,
      and otherwise the last such line before it. */
  lemma LastHeaderStep(lines: seq<string>, key: string)
    requires lines != [] && key != []
    ensures var line := lines[|lines| - 1];
      LastHeader(lines, key) == if StartsWith(line, key) then Some(HeaderValue(line, key)) else LastHeader(lines[..|lines| - 1], key)
  {
  }

  /** Each header field comes from the last line that carries its key (any
      earlier one is overwritten), and is absent when no line does. */
  lemma {:induction false} RunHeaders(lines: seq<string>)
    requires Run(lines).Ok?
    ensures HeadersFrom(Run(lines).value.summary, lines)
    decreases |lines|
  {
    if lines != [] {
      var init := lines[..|lines| - 1];
      RunHeaders(init);
      HeadersSnoc(lines, Run(init).value, Run(lines).value);
    }
  }

  /** A text with no whitespace at either end, as `strip()` leaves it. */
  predicate IsStripped(d: string)
  {
    d != [] && d[0] !in Whitespace && d[|d| - 1] !in Whitespace
  }

  /** A section name that a relevancy line carries unchanged: no colon, and
      nothing at its start that `lstrip("- ")` or `strip()` would remove. */
  predicate IsSectionName(s: string)
  {
    IsStripped(s) && ':' !in s && s[0] !in SectionPrefixChars
  }

  /** The stripped lines of a summary laid out as in the parser's unit test:
      an author line, a date line, two details, the relevancy header and two
      section scores. */
  function LaidOutLines(authors: string, date: string, d1: string, d2: string,
                        s1: string, v1: int, s2: string, v2: int): seq<string>
  {
    [AuthorsKey + " " + authors, DateKey + " " + date, DetailMarker + d1, DetailMarker + d2,
     RelevancyKey, DetailMarker + s1 + ": " + IntToString(v1), DetailMarker + s2 + ": " + IntToString(v2)]
  }

  /** A summary laid out as in the unit test parses, with its two details in
      order and its two section scores. */
  lemma LaidOutSummary(authors: string, date: string, d1: string, d2: string,
                       s1: string, v1: int, s2: string, v2: int)
    requires IsStripped(d1) && IsStripped(d2) && IsSectionName(s1) && IsSectionName(s2)
    ensures var r := Run(LaidOutLines(authors, date, d1, d2, s1, v1, s2, v2));
      && r.Ok?
      && r.value.summary.details == [d1, d2]
      && r.value.summary.relevancy == map[s1 := v1, s2 := v2]
  {
    var lines := LaidOutLines(authors, date, d1, d2, s1, v1, s2, v2);
    LaidOutKinds(authors, date, d1, d2, s1, v1, s2, v2);
    SummaryOfKinds(lines, d1, d2, s1, v1, s2, v2);
  }

  lemma SummaryOfKinds(lines: seq<string>, d1: string, d2: string, s1: string, v1: int, s2: string, v2: int)
    requires |lines| == 7 && FirstRelevancy(lines) == 4
    requires DetailItem(lines[0]) == None && DetailItem(lines[1]) == None
    requires DetailItem(lines[2]) == Some(d1) && DetailItem(lines[3]) == Some(d2)
    requires !IsScoreLine(lines[4])
    requires IsScoreLine(lines[5]) && ScoreEntry(lines[5]) == Ok((s1, v1))
    requires IsScoreLine(lines[6]) && ScoreEntry(lines[6]) == Ok((s2, v2))
    ensures var r := Run(lines);
      && r.Ok?
      && r.value.summary.details == [d1, d2]
      && r.value.summary.relevancy == map[s1 := v1, s2 := v2]
  {
    WellFormedOfKinds(lines, s1, v1, s2, v2);
    RunFailsIff(lines);
    RunDetails(lines);
    RunRelevancy(lines);
    LaidOutDetails(lines[..4], d1, d2);
    LaidOutScores(lines[4..], s1, v1, s2, v2);
  }

  lemma WellFormedOfKinds(lines: seq<string>, s1: string, v1: int, s2: string, v2: int)
    requires |lines| == 7 && FirstRelevancy(lines) == 4 && !IsScoreLine(lines[4])
    requires ScoreEntry(lines[5]) == Ok((s1, v1)) && ScoreEntry(lines[6]) == Ok((s2, v2))
    ensures ScoresWellFormed(lines)
  {
    assert ScoreLineOk(lines[4]) && ScoreLineOk(lines[5]) && ScoreLineOk(lines[6]);
    LastThree(ScoreLineOk, lines);
  }

  lemma LaidOutKinds(authors: string, date: string, d1: string, d2: string,
                     s1: string, v1: int, s2: string, v2: int)
    requires IsStripped(d1) && IsStripped(d2) && IsSectionName(s1) && IsSectionName(s2)
    ensures var lines := LaidOutLines(authors, date, d1, d2, s1, v1, s2, v2);
      && FirstRelevancy(lines) == 4
      && DetailItem(lines[0]) == None && DetailItem(lines[1]) == None
      && DetailItem(lines[2]) == Some(d1) && DetailItem(lines[3]) == Some(d2)
      && !IsScoreLine(lines[4])
      && IsScoreLine(lines[5]) && ScoreEntry(lines[5]) == Ok((s1, v1))
      && IsScoreLine(lines[6]) && ScoreEntry(lines[6]) == Ok((s2, v2))
  {
    var lines := LaidOutLines(authors, date, d1, d2, s1, v1, s2, v2);
    LaidOutHead(lines, authors, date, d1, d2);
    LaidOutTail(lines, s1, v1, s2, v2);
  }

  lemma LaidOutTail(lines: seq<string>, s1: string, v1: int, s2: string, v2: int)
    requires IsSectionName(s1) && IsSectionName(s2) && |lines| == 7
    requires lines[5] == DetailMarker + s1 + ": " + IntToString(v1)
    requires lines[6] == DetailMarker + s2 + ": " + IntToString(v2)
    ensures IsScoreLine(lines[5]) && ScoreEntry(lines[5]) == Ok((s1, v1))
    ensures IsScoreLine(lines[6]) && ScoreEntry(lines[6]) == Ok((s2, v2))
  {
    ScoreLine(s1, v1);
    ScoreLine(s2, v2);
  }

  lemma LaidOutHead(lines: seq<string>, authors: string, date: string, d1: string, d2: string)
    requires IsStripped(d1) && IsStripped(d2) && |lines| == 7
    requires lines[0] == AuthorsKey + " " + authors && lines[1] == DateKey + " " + date
    requires lines[2] == DetailMarker + d1 && lines[3] == DetailMarker + d2 && lines[4] == RelevancyKey
    ensures FirstRelevancy(lines) == 4
    ensures DetailItem(lines[0]) == None && DetailItem(lines[1]) == None
    ensures DetailItem(lines[2]) == Some(d1) && DetailItem(lines[3]) == Some(d2)
    ensures !IsScoreLine(lines[4])
  {
    HeaderLine(AuthorsKey, authors);
    HeaderLine(DateKey, date);
    DetailLine(d1);
    DetailLine(d2);
    assert IsRelevancyLine(lines[4]) && !IsScoreLine(lines[4]);
    forall i | 0 <= i < 4
      ensures !IsRelevancyLine(lines[i])
    {
      assert i == 0 || i == 1 || i == 2 || i == 3;
    }
    FirstIndexIs(IsRelevancyLine, lines, 4);
  }

  /** An author or date line is neither a detail nor the relevancy header. */
  lemma HeaderLine(key: string, value: string)
    requires key == AuthorsKey || key == DateKey
    ensures DetailItem(key + " " + value) == None && !IsRelevancyLine(key + " " + value)
  {
    KeyLine(key, " " + value);
    assert key + " " + value == key + (" " + value);
    KeysExclusive(key + " " + value);
  }

  /** A line that starts with a key starts with that key's first character. */
  lemma KeyLine(key: string, rest: string)
    requires key != []
    ensures StartsWith(key + rest, key) && (key + rest)[0] == key[0]
  {
    assert (key + rest)[..|key|] == key;
  }

  lemma LaidOutDetails(head: seq<string>, d1: string, d2: string)
    requires |head| == 4
    requires DetailItem(head[0]) == None && DetailItem(head[1]) == None
    requires DetailItem(head[2]) == Some(d1) && DetailItem(head[3]) == Some(d2)
    ensures DetailItems(head) == [d1, d2]
  {
    assert head[..0] == [] && head[..4] == head;
    FilterMapStep(DetailItem, head, 0);
    assert FilterMap(DetailItem, head[..1]) == [];
    FilterMapStep(DetailItem, head, 1);
    assert FilterMap(DetailItem, head[..2]) == [];
    FilterMapStep(DetailItem, head, 2);
    assert FilterMap(DetailItem, head[..3]) == [d1];
    FilterMapStep(DetailItem, head, 3);
  }

  lemma LaidOutScores(tail: seq<string>, k1: string, v1: int, k2: string, v2: int)
    requires |tail| == 3 && !IsScoreLine(tail[0])
    requires IsScoreLine(tail[1]) && ScoreEntry(tail[1]) == Ok((k1, v1))
    requires IsScoreLine(tail[2]) && ScoreEntry(tail[2]) == Ok((k2, v2))
    ensures Scores(tail) == map[k1 := v1, k2 := v2]
  {
    FoldLeftThree(ScoreUpdate, map[], tail);
    ScoreUpdateSkip(map[], tail[0]);
    ScoreUpdateEntry(map[], tail[1], k1, v1);
    ScoreUpdateEntry(map[k1 := v1], tail[2], k2, v2);
  }

  lemma ScoreUpdateSkip(m: map<string, int>, line: string)
    requires !IsScoreLine(line)
    ensures ScoreUpdate(m, line) == m
  {
  }

  lemma ScoreUpdateEntry(m: map<string, int>, line: string, k: string, v: int)
    requires IsScoreLine(line) && ScoreEntry(line) == Ok((k, v))
    ensures ScoreUpdate(m, line) == m[k := v]
  {
  }

  /** The lines of an indented block once the whole text is stripped: the
      first loses its indentation, the others keep it. */
  function Reindented(indent: string, ls: seq<string>): (parts: seq<string>)
    requires |ls| >= 1
    ensures |parts| == |ls| && parts[0] == ls[0]
    ensures forall i :: 1 <= i < |ls| ==> parts[i] == indent + ls[i]
  {
    [ls[0]] + seq(|ls| - 1, i requires 0 <= i < |ls| - 1 => indent + ls[i + 1])
  }

  /** The indented block is the re-indented lines between two copies of a
      line break and the indentation. */
  lemma IndentedLayout(indent: string, ls: seq<string>)
    requires |ls| >= 1
    ensures var around := "\n" + indent;
      "\n" + Join(Indented(indent, ls), '\n') == around + Join(Reindented(indent, ls), '\n') + around
  {
    var block, parts := Indented(indent, ls), Reindented(indent, ls);
    IndentedParts(indent, ls);
    JoinSnoc(block[..|ls|], indent, '\n');
    JoinIndentFirst(indent, ls[0], parts[1..], '\n');
    Regroup('\n', indent, Join(parts, '\n'));
  }

  /** The indented block is the indented lines and the indentation; the
      indented lines are the re-indented ones with the first one indented. */
  lemma IndentedParts(indent: string, ls: seq<string>)
    requires |ls| >= 1
    ensures var block, parts := Indented(indent, ls), Reindented(indent, ls);
      && block == block[..|ls|] + [indent]
      && block[..|ls|] == [indent + ls[0]] + parts[1..]
      && parts == [ls[0]] + parts[1..]
  {
  }

  /** The joined re-indented lines start with the first line's first
      character and end with the last line's last character. */
  lemma ReindentedEnds(indent: string, ls: seq<string>)
    requires |ls| >= 1 && ls[0] != [] && ls[|ls| - 1] != []
    ensures var t, first, last := Join(Reindented(indent, ls), '\n'), ls[0], ls[|ls| - 1];
      t != [] && t[0] == first[0] && t[|t| - 1] == last[|last| - 1]
  {
    var parts := Reindented(indent, ls);
    var t := Join(parts, '\n');
    var first, last, lastLine := parts[0], parts[|parts| - 1], ls[|ls| - 1];
    JoinEnds(parts, '\n');
    SliceEnds(t, first, last);
    if |ls| > 1 {
      assert last == indent + lastLine;
      assert last[|last| - 1] == lastLine[|lastLine| - 1];
    }
  }

  lemma SliceEnds(t: string, first: string, last: string)
    requires first != [] && |first| <= |t| && t[..|first|] == first
    requires last != [] && |last| <= |t| && t[|t| - |last|..] == last
    ensures t[0] == first[0] && t[|t| - 1] == last[|last| - 1]
  {
    assert t[..|first|][0] == t[0];
    assert t[|t| - |last|..][|last| - 1] == t[|t| - 1];
  }

  /** Stripping the whole block leaves the joined re-indented lines. */
  lemma StripIndented(indent: string, ls: seq<string>)
    requires forall i :: 0 <= i < |indent| ==> indent[i] == ' '
    requires |ls| >= 1 && IsStripped(ls[0]) && IsStripped(ls[|ls| - 1])
    ensures var t := Join(Reindented(indent, ls), '\n');
      Strip("\n" + indent + t + ("\n" + indent)) == t
  {
    ReindentedEnds(indent, ls);
    StripAroundIndent(indent, Join(Reindented(indent, ls), '\n'));
  }

  /** A triple-quoted summary in the unit test's layout: a line break, then
      each line after the same run of spaces, and a last line of just those
      spaces. Its stripped lines are the lines themselves. */
  lemma IndentedSummaryLines(indent: string, ls: seq<string>)
    requires forall i :: 0 <= i < |indent| ==> indent[i] == ' '
    requires |ls| >= 1
    requires forall i :: 0 <= i < |ls| ==> PlainLine(ls[i])
    ensures SummaryLines("\n" + Join(Indented(indent, ls), '\n')) == ls
  {
    var parts := Reindented(indent, ls);
    IndentedLayout(indent, ls);
    StripIndented(indent, ls);
    forall i | 0 <= i < |ls|
      ensures '\n' !in parts[i] && Strip(parts[i]) == ls[i]
    {
      if i == 0 {
        StripNoop(ls[0]);
      } else {
        IndentedLine(indent, ls[i]);
      }
    }
    SplitJoin(parts, '\n');
  }

  /** A line of a summary as the parser sees it: stripped, and without a
      line break. */
  predicate PlainLine(line: string)
  {
    IsStripped(line) && '\n' !in line
  }

  /** An indented stripped line strips back to itself. */
  lemma IndentedLine(indent: string, line: string)
    requires forall i :: 0 <= i < |indent| ==> indent[i] == ' '
    requires IsStripped(line) && '\n' !in line
    ensures '\n' !in indent + line && Strip(indent + line) == line
  {
    StripAfterSpaces(indent, line);
  }

  /** Every laid-out line is stripped and holds no line break when the texts
      filled in are. */
  lemma LaidOutLinesShape(authors: string, date: string, d1: string, d2: string,
                          s1: string, v1: int, s2: string, v2: int)
    requires IsStripped(authors) && IsStripped(date) && IsStripped(d1) && IsStripped(d2)
    requires IsStripped(s1) && IsStripped(s2)
    requires '\n' !in authors && '\n' !in date && '\n' !in d1 && '\n' !in d2 && '\n' !in s1 && '\n' !in s2
    ensures var lines := LaidOutLines(authors, date, d1, d2, s1, v1, s2, v2);
      forall i :: 0 <= i < |lines| ==> PlainLine(lines[i])
  {
    var lines := LaidOutLines(authors, date, d1, d2, s1, v1, s2, v2);
    forall i | 0 <= i < |lines|
      ensures PlainLine(lines[i])
    {
      if i < 4 {
        HeadLineShape(authors, date, d1, d2, lines[..4], i);
      } else if i == 4 {
        assert PlainLine(RelevancyKey);
      } else if i == 5 {
        ScoreLineShape(s1, v1);
      } else {
        ScoreLineShape(s2, v2);
      }
    }
  }

  lemma HeadLineShape(authors: string, date: string, d1: string, d2: string, head: seq<string>, i: nat)
    requires IsStripped(authors) && IsStripped(date) && IsStripped(d1) && IsStripped(d2)
    requires '\n' !in authors && '\n' !in date && '\n' !in d1 && '\n' !in d2
    requires head == [AuthorsKey + " " + authors, DateKey + " " + date, DetailMarker + d1, DetailMarker + d2]
    requires i < 4
    ensures PlainLine(head[i])
  {
    KeyShapes();
    if i == 0 {
      AfterKeyShape(AuthorsKey + " ", authors);
    } else if i == 1 {
      AfterKeyShape(DateKey + " ", date);
    } else if i == 2 {
      AfterKeyShape(DetailMarker, d1);
    } else {
      AfterKeyShape(DetailMarker, d2);
    }
  }

  lemma KeyShapes()
    ensures '\n' !in AuthorsKey + " " && (AuthorsKey + " ")[0] == 'A'
    ensures '\n' !in DateKey + " " && (DateKey + " ")[0] == 'D'
    ensures '\n' !in DetailMarker && DetailMarker[0] == '-'
    ensures IsStripped(RelevancyKey) && '\n' !in RelevancyKey
  {
  }

  lemma ScoreLineShape(s: string, v: int)
    requires s != [] && '\n' !in s
    ensures PlainLine(DetailMarker + s + ": " + IntToString(v))
  {
    IntToStringShape(v);
    var key := DetailMarker + s + ": ";
    KeyShapes();
    assert key[0] == '-';
    AfterKeyShape(key, IntToString(v));
  }

  /** A stripped text without line breaks after a key that starts with a
      visible character and holds no line break. */
  lemma AfterKeyShape(key: string, x: string)
    requires key != [] && key[0] !in Whitespace && '\n' !in key
    requires x != [] && x[0] !in Whitespace && x[|x| - 1] !in Whitespace && '\n' !in x
    ensures PlainLine(key + x)
  {
    assert (key + x)[0] == key[0];
    assert (key + x)[|key + x| - 1] == x[|x| - 1];
  }

  /** A summary laid out as in the unit test, indented inside a triple-quoted
      literal, parses with its two details in order and its two section scores. */
  lemma LaidOutRawSummary(indent: string, authors: string, date: string, d1: string, d2: string,
                          s1: string, v1: int, s2: string, v2: int)
    requires forall i :: 0 <= i < |indent| ==> indent[i] == ' '
    requires IsStripped(authors) && IsStripped(date) && IsStripped(d1) && IsStripped(d2)
    requires IsSectionName(s1) && IsSectionName(s2)
    requires '\n' !in authors && '\n' !in date && '\n' !in d1 && '\n' !in d2 && '\n' !in s1 && '\n' !in s2
    ensures var r := ParsedSummary("\n" + Join(Indented(indent, LaidOutLines(authors, date, d1, d2, s1, v1, s2, v2)), '\n'));
      && r.Ok?
      && r.value.details == [d1, d2]
      && r.value.relevancy == map[s1 := v1, s2 := v2]
  {
    var lines := LaidOutLines(authors, date, d1, d2, s1, v1, s2, v2);
    LaidOutLinesShape(authors, date, d1, d2, s1, v1, s2, v2);
    IndentedSummaryLines(indent, lines);
    LaidOutSummary(authors, date, d1, d2, s1, v1, s2, v2);
  }

  /** The raw summary of the unit test `test_parse_valid_summary`: its lines
      after four spaces each, inside a triple-quoted literal. */
  const TestRawSummary: string :=
    "\n" + Join(Indented("    ", LaidOutLines("John Doe, Jane Smith", "2023-09-29", "Detail 1", "Detail 2",
                                               "Section1", 5, "Section2", 3)), '\n')

  /** The unit test's summary parses with the details and the section scores
      the test expects. */
  lemma WorkedExample()
    ensures var r := ParsedSummary(TestRawSummary);
      && r.Ok?
      && r.value.details == ["Detail 1", "Detail 2"]
      && r.value.relevancy == map["Section1" := 5, "Section2" := 3]
  {
    LaidOutRawSummary("    ", "John Doe, Jane Smith", "2023-09-29", "Detail 1", "Detail 2", "Section1", 5, "Section2", 3);
  }

  // ---------------------------------------------------------------------------
  // fits_in_model and the choice of summarising model

  /** The token count of a text under a model's tokenizer (tiktoken), which is
      not modelled: every operation that needs it takes it as a parameter. */
  type TokenCounter = (Model, string) -> nat

  /** `fits_in_model`: the context plus the padding fits the model's limit. */
  predicate FitsInModel(tokens: TokenCounter, context: string, model: Model, paddingTokens: int)
  {
    tokens(model, context) + paddingTokens <= model.Data().maxContext
  }

  /** Less padding, or a model with a larger limit that counts the context
      alike, never turns a fit into a misfit. */
  lemma FitsInModelMonotone(tokens: TokenCounter, context: string, model: Model, paddingTokens: int,
                            larger: Model, lessPadding: int)
    requires FitsInModel(tokens, context, model, paddingTokens)
    requires lessPadding <= paddingTokens
    requires model.Data().maxContext <= larger.Data().maxContext
    requires tokens(larger, context) <= tokens(model, context)
    ensures FitsInModel(tokens, context, model, lessPadding)
    ensures FitsInModel(tokens, context, larger, paddingTokens)
  {
  }

  /** Pages whose cleaned text is shorter than this are skipped. */
  const MinContentLength: nat := 10

  /** Tokens kept free for the summary when choosing a model. */
  const SummaryPadding: nat := 100

  /** The model chosen for summarising one source from its summary prompt:
      the 4K model when the prompt fits it, otherwise the 16K model when the
      prompt fits that, otherwise none and the source is dropped. */
  function ChooseModel(tokens: TokenCounter, prompt: string): (m: Option<Model>)
    ensures m == Some(Gpt3_5Turbo4K) <==> FitsInModel(tokens, prompt, Gpt3_5Turbo4K, SummaryPadding)
    ensures m == Some(Gpt3_5Turbo16K) <==>
      !FitsInModel(tokens, prompt, Gpt3_5Turbo4K, SummaryPadding)
      && FitsInModel(tokens, prompt, Gpt3_5Turbo16K, SummaryPadding)
    ensures m.None? <==>
      !FitsInModel(tokens, prompt, Gpt3_5Turbo4K, SummaryPadding)
      && !FitsInModel(tokens, prompt, Gpt3_5Turbo16K, SummaryPadding)
    ensures m.Some? ==> FitsInModel(tokens, prompt, m.value, SummaryPadding)
  {
    if FitsInModel(tokens, prompt, Gpt3_5Turbo4K, SummaryPadding) then Some(Gpt3_5Turbo4K)
    else if FitsInModel(tokens, prompt, Gpt3_5Turbo16K, SummaryPadding) then Some(Gpt3_5Turbo16K)
    else None
  }

  /** When both models count the prompt alike (they share one encoding), the
      choice is a pure length threshold: up to 3900 tokens the 4K model, up to
      15900 the 16K model, and beyond that the source is dropped. */
  lemma ChooseModelByLength(tokens: TokenCounter, prompt: string)
    requires tokens(Gpt3_5Turbo4K, prompt) == tokens(Gpt3_5Turbo16K, prompt)
    ensures var n := tokens(Gpt3_5Turbo4K, prompt);
      && (ChooseModel(tokens, prompt) == Some(Gpt3_5Turbo4K) <==> n <= 3900)
      && (ChooseModel(tokens, prompt) == Some(Gpt3_5Turbo16K) <==> 3900 < n <= 15900)
      && (ChooseModel(tokens, prompt) == None <==> 15900 < n)
  {
  }

  /** One search hit: its title and link, and the page text, or `None` when
      fetching the page raised. */
  datatype Hit = Hit(title: string, link: string, fetched: Option<string>)

  /** A source kept for summarising, with the model chosen for it. */
  datatype Source = Source(title: string, link: string, content: string, model: Model)

  /** The rendering of a source for the summary prompt, which is not modelled. */
  type SourceMaterial = Source -> string

  /** What becomes of one hit: dropped when the fetch failed, when the cleaned
      text is under ten characters or when no model fits; otherwise kept with
      the chosen model. The summary prompt is built while the record still
      names the 16K model. */
  function SelectHit(tokens: TokenCounter, summaryPrompt: string, material: SourceMaterial, hit: Hit): (r: Option<Source>)
    ensures r.Some? ==> Admissible(tokens, summaryPrompt, material, r.value)
    ensures r.Some? ==>
      hit.fetched.Some? && r.value.title == hit.title && r.value.link == hit.link
      && r.value.content == CleanContent(hit.fetched.value)
    ensures r.Some? <==>
      && hit.fetched.Some?
      && |CleanContent(hit.fetched.value)| >= MinContentLength
      && ChooseModel(tokens, summaryPrompt + material(Source(hit.title, hit.link, CleanContent(hit.fetched.value), Gpt3_5Turbo16K))).Some?
    ensures r.Some? ==>
      Some(r.value.model) == ChooseModel(tokens, summaryPrompt + material(Source(hit.title, hit.link, r.value.content, Gpt3_5Turbo16K)))
  {
    if hit.fetched.None? then None
    else
      var content := CleanContent(hit.fetched.value);
      if |content| < MinContentLength then None
      else
        var candidate := Source(hit.title, hit.link, content, Gpt3_5Turbo16K);
        var m := ChooseModel(tokens, summaryPrompt + material(candidate));
        if m.None? then None
        else
          assert candidate.(model := m.value).(model := Gpt3_5Turbo16K) == candidate;
          Some(candidate.(model := m.value))
  }

  /** The sources kept over all queries: every hit of every query, in query
      order and then hit order, that `SelectHit` keeps. */
  function SelectQueries(tokens: TokenCounter, summaryPrompt: string, material: SourceMaterial, hitsPerQuery: seq<seq<Hit>>): seq<Source>
  {
    FilterMap(h => SelectHit(tokens, summaryPrompt, material, h), Flatten(hitsPerQuery))
  }

  /** What holds of every kept source: its text is cleaned and at least ten
      characters long, its model is one of the two summarising models, and its
      summary prompt fits that model with the padding. */
  predicate Admissible(tokens: TokenCounter, summaryPrompt: string, material: SourceMaterial, s: Source)
  {
    && |s.content| >= MinContentLength
    && NoRun(s.content, '\n') && NoRun(s.content, ' ')
    && (s.model == Gpt3_5Turbo4K || s.model == Gpt3_5Turbo16K)
    && FitsInModel(tokens, summaryPrompt + material(s.(model := Gpt3_5Turbo16K)), s.model, SummaryPadding)
  }

  /** Every source kept over all queries is admissible, and no more sources are
      kept than there were hits. */
  lemma SelectQueriesAdmissible(tokens: TokenCounter, summaryPrompt: string, material: SourceMaterial, hitsPerQuery: seq<seq<Hit>>)
    ensures var r := SelectQueries(tokens, summaryPrompt, material, hitsPerQuery);
      |r| <= |Flatten(hitsPerQuery)|
      && forall i :: 0 <= i < |r| ==> Admissible(tokens, summaryPrompt, material, r[i])
  {
    var f := h => SelectHit(tokens, summaryPrompt, material, h);
    FilterMapKeeps(f, s => Admissible(tokens, summaryPrompt, material, s), Flatten(hitsPerQuery));
  }

  /** Selection keeps query order: the sources kept for two runs of queries in a
      row are those kept for the first followed by those kept for the second. */
  lemma SelectQueriesAppend(tokens: TokenCounter, summaryPrompt: string, material: SourceMaterial, a: seq<seq<Hit>>, b: seq<seq<Hit>>)
    ensures SelectQueries(tokens, summaryPrompt, material, a + b)
      == SelectQueries(tokens, summaryPrompt, material, a) + SelectQueries(tokens, summaryPrompt, material, b)
  {
    FlattenAppend(a, b);
    FilterMapAppend(h => SelectHit(tokens, summaryPrompt, material, h), Flatten(a), Flatten(b));
  }

  lemma {:induction false} FlattenAppend<T>(a: seq<seq<T>>, b: seq<seq<T>>)
    ensures Flatten(a + b) == Flatten(a) + Flatten(b)
    decreases |b|
  {
    if b == [] {
      assert a + b == a;
    } else {
      var b' := b[..|b| - 1];
      assert (a + b)[..|a + b| - 1] == a + b';
      assert (a + b)[|a + b| - 1] == b[|b| - 1];
      FlattenAppend(a, b');
    }
  }

  /** The body of the inner loop of `generate_search_results` for one hit:
      clean the page text, skip it when short, choose a model or drop it. */
  method ProcessHit(tokens: TokenCounter, summaryPrompt: string, material: SourceMaterial, hit: Hit)
    returns (kept: Option<Source>)
    ensures kept == SelectHit(tokens, summaryPrompt, material, hit)
  {
    if hit.fetched.None? {
      return None;
    }
    var content := CleanContent(hit.fetched.value);
    if |content| < MinContentLength {
      return None;
    }
    var newResult := Source(hit.title, hit.link, content, Gpt3_5Turbo16K);
    var prompt := summaryPrompt + material(newResult);
    ghost var choice := ChooseModel(tokens, prompt);
    assert SelectHit(tokens, summaryPrompt, material, hit)
      == if choice.None? then None else Some(newResult.(model := choice.value));
    if FitsInModel(tokens, prompt, Gpt3_5Turbo4K, SummaryPadding) {
      assert choice == Some(Gpt3_5Turbo4K);
      newResult := newResult.(model := Gpt3_5Turbo4K);
    } else if FitsInModel(tokens, prompt, Gpt3_5Turbo16K, SummaryPadding) {
      assert choice == Some(Gpt3_5Turbo16K);
      newResult := newResult.(model := Gpt3_5Turbo16K);
    } else {
      assert choice == None;
      return None;
    }
    return Some(newResult);
  }

  /** `generate_search_results` after the page fetches: for each query, for each
      of its hits, keep the hit's source when `ProcessHit` does, in order. */
  method GenerateSearchResults(tokens: TokenCounter, summaryPrompt: string, material: SourceMaterial, hitsPerQuery: seq<seq<Hit>>)
    returns (results: seq<Source>)
    ensures results == SelectQueries(tokens, summaryPrompt, material, hitsPerQuery)
    ensures forall i :: 0 <= i < |results| ==> Admissible(tokens, summaryPrompt, material, results[i])
  {
    ghost var f := h => SelectHit(tokens, summaryPrompt, material, h);
    results := [];
    var q := 0;
    while q < |hitsPerQuery|
      invariant 0 <= q <= |hitsPerQuery|
      invariant results == FilterMap(f, Flatten(hitsPerQuery[..q]))
    {
      var hits := hitsPerQuery[q];
      ghost var before := results;
      var j := 0;
      while j < |hits|
        invariant 0 <= j <= |hits|
        invariant results == before + FilterMap(f, hits[..j])
      {
        var kept := ProcessHit(tokens, summaryPrompt, material, hits[j]);
        FilterMapStep(f, hits, j);
        assert f(hits[j]) == kept;
        ghost var done := FilterMap(f, hits[..j]);
        if kept.Some? {
          AppendAssoc(before, done, [kept.value]);
          results := results + [kept.value];
        } else {
          assert done + OptionToSeq(kept) == done;
        }
        j := j + 1;
      }
      assert hits[..j] == hits;
      FlattenStep(hitsPerQuery, q);
      FilterMapAppend(f, Flatten(hitsPerQuery[..q]), hits);
      q := q + 1;
    }
    assert hitsPerQuery[..q] == hitsPerQuery;
    SelectQueriesAdmissible(tokens, summaryPrompt, material, hitsPerQuery);
  }
}
