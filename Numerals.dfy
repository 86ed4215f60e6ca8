/**
 * Python's `str(n)` and `int(s)` on integers, so that the source's numbered
 * prompts (`f"{n}:"`) and relevancy scores (`int(score.strip())`) are exact.
 */
module Numerals {
  import opened Wrappers

  predicate IsDigit(c: char)
  {
    '0' <= c <= '9'
  }

  function DigitChar(d: nat): (c: char)
    requires d < 10
    ensures IsDigit(c) && c as int - '0' as int == d
  {
    "0123456789"[d]
  }

  /** Decimal digits of `n`, most significant first, without leading zeros. */
  function NatToString(n: nat): (r: string)
    ensures r != [] && forall i :: 0 <= i < |r| ==> IsDigit(r[i])
    ensures |r| > 1 ==> r[0] != '0'
  {
    if n < 10 then [DigitChar(n)] else NatToString(n / 10) + [DigitChar(n % 10)]
  }

  /** `str(i)` for a Python `int`. */
  function IntToString(i: int): string
  {
    if i < 0 then "-" + NatToString(-i) else NatToString(i)
  }

  /** `str(i)` is a non-empty run of digits after an optional minus sign. */
  lemma IntToStringShape(i: int)
    ensures var s := IntToString(i);
      s != [] && IsDigit(s[|s| - 1]) && (IsDigit(s[0]) || s[0] == '-')
      && forall k :: 0 <= k < |s| ==> IsDigit(s[k]) || s[k] == '-'
  {
    if i < 0 {
      var ds := NatToString(-i);
      assert forall k :: 1 <= k < |"-" + ds| ==> ("-" + ds)[k] == ds[k - 1];
    }
  }

  /** The value of a string of decimal digits. */
  function DigitsValue(ds: string): nat
    requires forall i :: 0 <= i < |ds| ==> IsDigit(ds[i])
  {
    if ds == [] then 0
    else
      var last := ds[|ds| - 1];
      assert IsDigit(last);
      DigitsValue(ds[..|ds| - 1]) * 10 + (last as int - '0' as int)
  }

  /** `s` with its underscores removed. */
  function DropUnderscores(s: string): (r: string)
    ensures |r| <= |s|
    ensures forall i :: 0 <= i < |r| ==> r[i] != '_'
    ensures (forall i :: 0 <= i < |s| ==> IsDigit(s[i]) || s[i] == '_') ==>
              (forall i :: 0 <= i < |r| ==> IsDigit(r[i]))
  {
    if s == [] then []
    else if s[0] == '_' then DropUnderscores(s[1..])
    else [s[0]] + DropUnderscores(s[1..])
  }

  /** The digit body Python's `int()` accepts: digits, with single underscores
      allowed between two digits. */
  predicate IsDigitBody(s: string)
  {
    s != [] && IsDigit(s[0]) && IsDigit(s[|s| - 1])
    && (forall i :: 0 <= i < |s| ==> IsDigit(s[i]) || s[i] == '_')
    && (forall i :: 0 <= i < |s| - 1 ==> !(s[i] == '_' && s[i + 1] == '_'))
  }

  /** `int(s)`: `None` where Python raises `ValueError`. An optional sign, then
      a digit body; surrounding whitespace has already been stripped by the caller. */
  function ParseInt(s: string): (r: Option<int>)
    ensures r.Some? ==> s != []
  {
    if s != [] && (s[0] == '+' || s[0] == '-') then
      var body := s[1..];
      if IsDigitBody(body) then
        var v: int := DigitsValue(DropUnderscores(body));
        Some(if s[0] == '-' then -v else v)
      else None
    else if IsDigitBody(s) then Some(DigitsValue(DropUnderscores(s)))
    else None
  }

  lemma {:induction false} DropUnderscoresDigits(s: string)
    requires forall i :: 0 <= i < |s| ==> IsDigit(s[i])
    ensures DropUnderscores(s) == s
  {
    if s != [] {
      DropUnderscoresDigits(s[1..]);
    }
  }

  lemma {:induction false} DigitsValueOfNat(n: nat)
    ensures DigitsValue(NatToString(n)) == n
  {
    var r := NatToString(n);
    if n >= 10 {
      DigitsValueOfNat(n / 10);
      assert r[..|r| - 1] == NatToString(n / 10);
    }
  }

  /** `int(str(i)) == i`: Python's int parser reads back every integer it prints. */
  lemma ParseIntToString(i: int)
    ensures ParseInt(IntToString(i)) == Some(i)
  {
    var n: nat := if i < 0 then -i else i;
    var ds := NatToString(n);
    DropUnderscoresDigits(ds);
    DigitsValueOfNat(n);
    assert IsDigitBody(ds);
    var s := IntToString(i);
    if i < 0 {
      assert s[0] == '-' && s[1..] == ds;
    } else {
      assert s == ds && IsDigit(s[0]);
    }
  }

  /** A number with a sign in the middle or an empty body is rejected. */
  lemma ParseIntRejects()
    ensures ParseInt("") == None
    ensures ParseInt("-") == None
    ensures ParseInt("1_") == None
    ensures ParseInt("1__0") == None
    ensures ParseInt("five") == None
  {
  }

  /** A plain, a negative and a grouped number are read. */
  lemma ParseIntExamples()
    ensures ParseInt("5") == Some(5)
    ensures ParseInt("-12") == Some(-12)
    ensures ParseInt("1_0") == Some(10)
  {
    ParseIntToString(5);
    assert IntToString(5) == "5";
    ParseIntToString(-12);
    assert NatToString(12) == NatToString(1) + "2";
    assert IntToString(-12) == "-12";
    ParseIntGrouped();
  }

  lemma ParseIntGrouped()
    ensures ParseInt("1_0") == Some(10)
  {
    assert DropUnderscores("_0") == "0";
    assert DropUnderscores("1_0") == "10";
    assert NatToString(10) == "10";
    DigitsValueOfNat(10);
  }
}
