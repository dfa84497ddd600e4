/**
 * The few pieces of the Java standard library whose exact behaviour the bot
 * depends on: `Integer.parseInt`, decimal rendering of an `int`
 * (`String.valueOf`, string concatenation), `String.trim`, `String.join`,
 * and `String.replaceAll` with a pattern that contains no regex operator.
 */
module JavaLang {

  datatype Option<+T> = None | Some(value: T) {
    function GetOr(default: T): T {
      match this
      case Some(v) => v
      case None => default
    }
  }

  /** Range of a Java `int`. */
  const MinInt: int := -0x8000_0000
  const MaxInt: int := 0x7FFF_FFFF

  predicate IsInt(x: int) {
    MinInt <= x <= MaxInt
  }

  predicate IsDigit(c: char) {
    '0' <= c <= '9'
  }

  predicate AllDigits(s: string) {
    forall i :: 0 <= i < |s| ==> IsDigit(s[i])
  }

  function DigitValue(c: char): nat
    requires IsDigit(c)
  {
    c as int - '0' as int
  }

  function DigitChar(d: nat): (c: char)
    requires d < 10
    ensures IsDigit(c) && DigitValue(c) == d
  {
    ('0' as int + d) as char
  }

  /** Value of a string of decimal digits, most significant first. */
  function DigitsValue(s: string): nat
    requires AllDigits(s)
  {
    if s == [] then 0 else DigitsValue(s[..|s| - 1]) * 10 + DigitValue(s[|s| - 1])
  }

  /** Shortest decimal rendering of a natural number. */
  function NatDigits(n: nat): (s: string)
    ensures |s| > 0 && AllDigits(s)
  {
    if n < 10 then [DigitChar(n)] else NatDigits(n / 10) + [DigitChar(n % 10)]
  }

  /** `String.valueOf(n)`: an optional minus sign followed by the digits of |n|. */
  function IntToString(n: int): (s: string)
    ensures |s| > 0
    ensures s[0] == '-' <==> n < 0
    ensures s[0] == '-' || IsDigit(s[0])
  {
    if n < 0 then "-" + NatDigits(-n) else NatDigits(n)
  }

  lemma {:induction false} DigitsRoundTrip(n: nat)
    ensures DigitsValue(NatDigits(n)) == n
  {
    var s := NatDigits(n);
    if n >= 10 {
      DigitsRoundTrip(n / 10);
      assert s[..|s| - 1] == NatDigits(n / 10);
    }
  }

  /** Decimal rendering is injective on all integers. */
  lemma IntToStringInjective(a: int, b: int)
    requires IntToString(a) == IntToString(b)
    ensures a == b
  {
    var s := IntToString(a);
    if a < 0 && b < 0 {
      assert s == "-" + NatDigits(-a) && s == "-" + NatDigits(-b);
      assert NatDigits(-a) == s[1..] == NatDigits(-b);
      DigitsRoundTrip(-a);
      DigitsRoundTrip(-b);
    } else if a >= 0 && b >= 0 {
      assert NatDigits(a) == s == NatDigits(b);
      DigitsRoundTrip(a);
      DigitsRoundTrip(b);
    }
  }

  /**
   * `Integer.parseInt(s)` (radix 10): an optional leading `-` or `+`, then at
   * least one decimal digit and nothing else; the value must fit in an `int`,
   * otherwise `NumberFormatException` (here `None`).
   */
  function ParseInt(s: string): (r: Option<int>)
    ensures r.Some? ==> IsInt(r.value)
    ensures r.Some? ==> |s| > 0 && (IsDigit(s[0]) || s[0] == '-' || s[0] == '+')
  {
    if |s| == 0 then None
    else
      var signed := s[0] == '-' || s[0] == '+';
      var body := if signed then s[1..] else s;
      if |body| == 0 || !AllDigits(body) then None
      else
        var v: int := if s[0] == '-' then -(DigitsValue(body) as int) else DigitsValue(body);
        if IsInt(v) then Some(v) else None
  }

  /** Leading zeros do not change the value of a digit string. */
  lemma {:induction false} LeadingZerosValue(z: string, body: string)
    requires AllDigits(z) && AllDigits(body) && forall k :: 0 <= k < |z| ==> z[k] == '0'
    ensures AllDigits(z + body) && DigitsValue(z + body) == DigitsValue(body)
  {
    if body == [] {
      assert z + body == z;
      if z != [] {
        LeadingZerosValue(z[..|z| - 1], []);
        assert z[..|z| - 1] + [] == z[..|z| - 1];
      }
    } else {
      LeadingZerosValue(z, body[..|body| - 1]);
      assert (z + body)[..|z + body| - 1] == z + body[..|body| - 1];
    }
  }

  /**
   * What a parse returns: for a sign (none, `+` or `-`) followed by a
   * non-empty run of digits, the signed value of the digits when it fits in
   * an `int`, and `None` when it overflows.
   */
  lemma ParseIntValue(sign: string, body: string)
    requires sign == "" || sign == "+" || sign == "-"
    requires |body| > 0 && AllDigits(body)
    ensures var v: int := if sign == "-" then -(DigitsValue(body) as int) else DigitsValue(body);
            ParseInt(sign + body) == if IsInt(v) then Some(v) else None
  {
    if sign == "" {
      assert sign + body == body;
      assert IsDigit(body[0]);
    } else {
      var s := sign + body;
      assert s[0] == sign[0] && s[1..] == body;
      ParseIntSigned(s);
    }
  }

  lemma ParseIntSigned(s: string)
    requires |s| > 1 && (s[0] == '+' || s[0] == '-') && AllDigits(s[1..])
    ensures var v: int := if s[0] == '-' then -(DigitsValue(s[1..]) as int) else DigitsValue(s[1..]);
            ParseInt(s) == if IsInt(v) then Some(v) else None
  {
  }

  /** A zero-padded decimal number, with or without a `+`, parses to itself. */
  lemma ParseIntPadded(z: string, n: int)
    requires forall k :: 0 <= k < |z| ==> z[k] == '0'
    requires 0 <= n <= MaxInt
    ensures ParseInt(z + IntToString(n)) == Some(n)
    ensures ParseInt("+" + z + IntToString(n)) == Some(n)
  {
    LeadingZerosValue(z, NatDigits(n));
    DigitsRoundTrip(n);
    ParseIntValue("", z + NatDigits(n));
    ParseIntValue("+", z + NatDigits(n));
    assert "" + (z + NatDigits(n)) == z + IntToString(n);
    assert "+" + (z + NatDigits(n)) == "+" + z + IntToString(n);
  }

  /** A decimal number outside the `int` range does not parse. */
  lemma ParseIntOverflow(n: int)
    requires !IsInt(n)
    ensures ParseInt(IntToString(n)) == None
  {
    var s := IntToString(n);
    if n < 0 {
      DigitsRoundTrip(-n);
      ParseIntValue("-", NatDigits(-n));
      assert "-" + NatDigits(-n) == s;
    } else {
      DigitsRoundTrip(n);
      ParseIntValue("", NatDigits(n));
      assert "" + NatDigits(n) == s;
    }
  }

  /** Whatever `String.valueOf` renders, `Integer.parseInt` reads back. */
  lemma ParseIntOfIntToString(n: int)
    requires IsInt(n)
    ensures ParseInt(IntToString(n)) == Some(n)
  {
    var s := IntToString(n);
    if n < 0 {
      assert s[1..] == NatDigits(-n);
      DigitsRoundTrip(-n);
    } else {
      DigitsRoundTrip(n);
    }
  }

  /** Any character other than a digit (or a sign in front) makes the parse fail. */
  lemma ParseIntRejectsNonDigit(s: string, i: int)
    requires 0 <= i < |s| && !IsDigit(s[i])
    requires i > 0 || (s[0] != '-' && s[0] != '+')
    ensures ParseInt(s) == None
  {
    if s[0] == '-' || s[0] == '+' {
      assert !IsDigit(s[1..][i - 1]);
    }
  }

  /** `Character.isWhitespace` is not used: `String.trim` strips every char up to U+0020. */
  predicate IsTrimmed(c: char) {
    c <= ' '
  }

  function TrimStart(s: string): (r: string)
    ensures |r| <= |s|
    ensures r == [] || !IsTrimmed(r[0])
  {
    if s == [] || !IsTrimmed(s[0]) then s else TrimStart(s[1..])
  }

  function TrimEnd(s: string): (r: string)
    ensures |r| <= |s|
    ensures r == [] || !IsTrimmed(r[|r| - 1])
  {
    if s == [] || !IsTrimmed(s[|s| - 1]) then s else TrimEnd(s[..|s| - 1])
  }

  /** `TrimStart` keeps a suffix and drops only blank characters. */
  lemma {:induction false} TrimStartSuffix(s: string)
    ensures TrimStart(s) == s[|s| - |TrimStart(s)|..]
    ensures forall k :: 0 <= k < |s| - |TrimStart(s)| ==> IsTrimmed(s[k])
  {
    if s != [] && IsTrimmed(s[0]) {
      TrimStartSuffix(s[1..]);
      forall k | 1 <= k < |s| - |TrimStart(s)|
        ensures IsTrimmed(s[k])
      {
        assert s[k] == s[1..][k - 1];
      }
    }
  }

  /** `TrimEnd` keeps a prefix and drops only blank characters. */
  lemma {:induction false} TrimEndPrefix(s: string)
    ensures TrimEnd(s) == s[..|TrimEnd(s)|]
    ensures forall k :: |TrimEnd(s)| <= k < |s| ==> IsTrimmed(s[k])
  {
    if s != [] && IsTrimmed(s[|s| - 1]) {
      var init := s[..|s| - 1];
      TrimEndPrefix(init);
      assert init[..|TrimEnd(init)|] == s[..|TrimEnd(init)|];
      forall k | |TrimEnd(s)| <= k < |s| - 1
        ensures IsTrimmed(s[k])
      {
        assert s[k] == init[k];
      }
    }
  }

  /**
   * `String.trim`: the input with every leading and trailing character up
   * to U+0020 removed; the result is empty or starts and ends with a
   * visible character (`TrimIsSlice`: it is the slice of the input between
   * the removed ends).
   */
  function Trim(s: string): (r: string)
    ensures |r| <= |s|
    ensures r == [] || (!IsTrimmed(r[0]) && !IsTrimmed(r[|r| - 1]))
  {
    var t := TrimStart(s);
    TrimEndPrefix(t);
    TrimEnd(t)
  }

  /** The trim is the slice of the input left once a run of blank characters is cut from each end. */
  lemma TrimIsSlice(s: string)
    ensures exists i, j :: 0 <= i <= j <= |s| && Trim(s) == s[i..j] &&
                           (forall k :: 0 <= k < i ==> IsTrimmed(s[k])) &&
                           (forall k :: j <= k < |s| ==> IsTrimmed(s[k]))
  {
    var i := |s| - |TrimStart(s)|;
    TrimSlice(s, i, i + |TrimEnd(TrimStart(s))|);
  }

  /** The two halves of `Trim` cut the slice `s[i..j]` out of `s`. */
  lemma TrimSlice(s: string, i: int, j: int)
    requires i == |s| - |TrimStart(s)| && j == i + |TrimEnd(TrimStart(s))|
    ensures 0 <= i <= j <= |s| && TrimEnd(TrimStart(s)) == s[i..j]
    ensures forall k :: 0 <= k < i ==> IsTrimmed(s[k])
    ensures forall k :: j <= k < |s| ==> IsTrimmed(s[k])
  {
    var t := TrimStart(s);
    var r := TrimEnd(t);
    TrimStartSuffix(s);
    TrimEndPrefix(t);
    PrefixOfSuffix(s, t, r, i);
    assert i + |r| == j;
  }

  /** A prefix `r` of the suffix `t` of `s` that starts at `i` is a slice of `s`, and `t`'s tail is `s`'s tail. */
  lemma PrefixOfSuffix(s: string, t: string, r: string, i: int)
    requires 0 <= i <= |s| && t == s[i..] && |r| <= |t| && r == t[..|r|]
    requires forall k :: |r| <= k < |t| ==> IsTrimmed(t[k])
    ensures r == s[i..i + |r|]
    ensures forall k :: i + |r| <= k < |s| ==> IsTrimmed(s[k])
  {
    forall k | i + |r| <= k < |s|
      ensures IsTrimmed(s[k])
    {
      assert s[k] == t[k - i];
    }
  }

  /** A text that starts and ends with a visible character is its own trim. */
  lemma TrimOfTrimmed(s: string)
    requires s == [] || (!IsTrimmed(s[0]) && !IsTrimmed(s[|s| - 1]))
    ensures Trim(s) == s
  {
  }

  /** `String.trim` is idempotent. */
  lemma TrimIdempotent(s: string)
    ensures Trim(Trim(s)) == Trim(s)
  {
    TrimOfTrimmed(Trim(s));
  }

  /** `String.join(sep, parts)`. */
  function Join(parts: seq<string>, sep: string): (r: string)
    ensures |parts| == 0 ==> r == ""
    ensures |parts| == 1 ==> r == parts[0]
  {
    if |parts| == 0 then "" else if |parts| == 1 then parts[0] else parts[0] + sep + Join(parts[1..], sep)
  }

  /** Joining one more part appends the separator and that part. */
  lemma {:induction false} JoinAppend(parts: seq<string>, p: string, sep: string)
    requires |parts| >= 1
    ensures Join(parts + [p], sep) == Join(parts, sep) + sep + p
  {
    if |parts| > 1 {
      JoinAppend(parts[1..], p, sep);
      assert (parts + [p])[1..] == parts[1..] + [p];
    } else {
      assert (parts + [p])[1..] == [p];
    }
  }

  /** The joined text is the parts' lengths plus one separator between each two parts. */
  lemma {:induction false} JoinLength(parts: seq<string>, sep: string)
    requires |parts| >= 1
    ensures |Join(parts, sep)| == SumLengths(parts) + (|parts| - 1) * |sep|
  {
    if |parts| > 1 {
      JoinLength(parts[1..], sep);
    }
  }

  function SumLengths(parts: seq<string>): nat {
    if parts == [] then 0 else |parts[0]| + SumLengths(parts[1..])
  }

  predicate StartsWith(s: string, prefix: string) {
    |prefix| <= |s| && s[..|prefix|] == prefix
  }

  /**
   * `s.replaceAll(pat, rep)` for a pattern without regex operators and a
   * replacement without `$` or `\`: one left-to-right pass replacing
   * non-overlapping occurrences.
   */
  function ReplaceAll(s: string, pat: string, rep: string): (r: string)
    requires |pat| > 0
    ensures forall c :: c in r ==> c in s || c in rep
  {
    if |s| < |pat| then s
    else if s[..|pat|] == pat then rep + ReplaceAll(s[|pat|..], pat, rep)
    else [s[0]] + ReplaceAll(s[1..], pat, rep)
  }

  /** An occurrence at the start of the text is replaced, and the pass goes on after it. */
  lemma ReplaceAllAtStart(pat: string, rest: string, rep: string)
    requires |pat| > 0
    ensures ReplaceAll(pat + rest, pat, rep) == rep + ReplaceAll(rest, pat, rep)
  {
    var s := pat + rest;
    assert s[..|pat|] == pat && s[|pat|..] == rest;
  }

  /** A pattern whose first character does not occur leaves the text alone. */
  lemma {:induction false} ReplaceAllAbsent(s: string, pat: string, rep: string)
    requires |pat| > 0 && pat[0] !in s
    ensures ReplaceAll(s, pat, rep) == s
  {
    if |s| >= |pat| {
      assert s[..|pat|][0] == s[0];
      ReplaceAllAbsent(s[1..], pat, rep);
    }
  }
}
