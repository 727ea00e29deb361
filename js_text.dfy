/**
 * The few JavaScript built-ins the core relies on, over Dafny strings:
 * `parseInt(s, 10)`, `Number.prototype.toString` for integers and for ratings
 * kept in tenths, `Array.prototype.join`, and the whitespace that
 * `String.prototype.trim` and `parseInt` skip.
 */
module JsText {

  import opened Wrappers

  /** A JavaScript number as the core produces it: an integer, or NaN
      (what `parseInt` gives for text without leading digits). */
  datatype JsNumber = Num(value: int) | NaN

  /** ECMAScript WhiteSpace and LineTerminator characters. */
  predicate IsWhitespace(c: char) {
    || c == '\t' || c == '\n' || c == '\U{B}' || c == '\U{C}' || c == '\r'
    || c == ' ' || c == '\U{A0}' || c == '\U{1680}' || ('\U{2000}' <= c <= '\U{200A}')
    || c == '\U{2028}' || c == '\U{2029}' || c == '\U{202F}' || c == '\U{205F}'
    || c == '\U{3000}' || c == '\U{FEFF}'
  }

  /** `s.trim() === ''`: the text holds nothing but whitespace. */
  predicate IsBlank(s: string) {
    forall i :: 0 <= i < |s| ==> IsWhitespace(s[i])
  }

  predicate IsDigit(c: char) {
    '0' <= c <= '9'
  }

  predicate AllDigits(s: string) {
    forall i :: 0 <= i < |s| ==> IsDigit(s[i])
  }

  function DigitValue(c: char): (d: nat)
    requires IsDigit(c)
    ensures d < 10
  {
    c as int - '0' as int
  }

  function DigitChar(d: nat): (c: char)
    requires d < 10
    ensures IsDigit(c) && DigitValue(c) == d
  {
    ('0' as int + d) as char
  }

  /** What `parseInt` skips before the sign: the leading whitespace. */
  function TrimStart(s: string): (r: string)
    ensures |r| <= |s| && r == s[|s| - |r|..]
    ensures IsBlank(s[..|s| - |r|])
    ensures r == [] || !IsWhitespace(r[0])
  {
    if s != [] && IsWhitespace(s[0]) then TrimStart(s[1..]) else s
  }

  /** The longest prefix of `s` made of decimal digits. */
  function DigitPrefix(s: string): (r: string)
    ensures |r| <= |s| && r == s[..|r|]
    ensures AllDigits(r)
    ensures |r| == |s| || !IsDigit(s[|r|])
  {
    if s != [] && IsDigit(s[0]) then [s[0]] + DigitPrefix(s[1..]) else []
  }

  /** The value of a string of decimal digits, most significant first. */
  function DigitsValue(ds: string): nat
    requires AllDigits(ds)
  {
    if ds == [] then 0 else DigitsValue(ds[..|ds| - 1]) * 10 + DigitValue(ds[|ds| - 1])
  }

  /** `parseInt(s, 10)`: leading whitespace, an optional sign, then the longest
      run of decimal digits; NaN when that run is empty. */
  function ParseInt(s: string): JsNumber {
    ParseSigned(TrimStart(s))
  }

  function ParseSigned(t: string): JsNumber {
    if t != [] && t[0] == '-' then
      match ParseDigits(t[1..])
      case Num(v) => Num(-v)
      case NaN => NaN
    else if t != [] && t[0] == '+' then ParseDigits(t[1..])
    else ParseDigits(t)
  }

  function ParseDigits(u: string): JsNumber {
    var ds := DigitPrefix(u);
    if ds == [] then NaN else Num(DigitsValue(ds))
  }

  /** The decimal text of a natural number, without leading zeros. */
  function NatToString(n: nat): (r: string)
    ensures r != [] && AllDigits(r)
    ensures DigitsValue(r) == n
    ensures r[0] == '0' ==> n == 0
    ensures |r| > 1 ==> r[0] != '0'
  {
    if n < 10 then [DigitChar(n)]
    else
      var front := NatToString(n / 10);
      assert (front + [DigitChar(n % 10)])[..|front|] == front;
      front + [DigitChar(n % 10)]
  }

  /** `Number.prototype.toString` of an integer. */
  function IntToString(i: int): string {
    if i < 0 then "-" + NatToString(-i) else NatToString(i)
  }

  /** `Number.prototype.toString` of a page number as the core holds it. */
  function NumberToString(x: JsNumber): string {
    match x
    case Num(i) => IntToString(i)
    case NaN => "NaN"
  }

  lemma {:induction false} DigitPrefixOfDigits(ds: string, rest: string)
    requires AllDigits(ds)
    requires rest == [] || !IsDigit(rest[0])
    ensures DigitPrefix(ds + rest) == ds
  {
    if ds != [] {
      assert (ds + rest)[1..] == ds[1..] + rest;
      DigitPrefixOfDigits(ds[1..], rest);
    }
  }

  lemma ParseDigitsOfDigits(digits: string)
    requires digits != [] && AllDigits(digits)
    ensures ParseDigits(digits) == Num(DigitsValue(digits))
  {
    DigitPrefixOfDigits(digits, []);
    assert digits + [] == digits;
  }

  lemma DigitsParse(digits: string)
    requires digits != [] && AllDigits(digits)
    ensures ParseInt(digits) == Num(DigitsValue(digits))
    ensures ParseInt("-" + digits) == Num(-(DigitsValue(digits) as int))
  {
    ParseDigitsOfDigits(digits);
    assert IsDigit(digits[0]) && !IsWhitespace(digits[0]);
    assert TrimStart(digits) == digits;
    assert digits[0] != '-' && digits[0] != '+';
    assert ParseSigned(digits) == ParseDigits(digits);
    var minus := "-" + digits;
    assert minus[0] == '-' && !IsWhitespace(minus[0]);
    assert TrimStart(minus) == minus;
    ParseSignedNegative(digits, DigitsValue(digits));
  }

  /** A minus sign in front of digits that read as `v` reads as `-v`. */
  lemma {:induction false} ParseSignedNegative(u: string, v: nat)
    requires ParseDigits(u) == Num(v)
    ensures ParseSigned("-" + u) == Num(-(v as int))
  {
    var t := "-" + u;
    assert t[0] == '-' && t[1..] == u;
  }

  /** `parseInt` reads back exactly the integer `toString` wrote. */
  lemma ParseIntOfIntToString(i: int)
    ensures ParseInt(IntToString(i)) == Num(i)
  {
    if i < 0 {
      DigitsParse(NatToString(-i));
    } else {
      DigitsParse(NatToString(i));
    }
  }

  /** The default page text reads as 1. */
  lemma ParseIntOne()
    ensures ParseInt("1") == Num(1)
  {
    ParseIntOfIntToString(1);
    assert IntToString(1) == "1";
  }

  /** ... and `parseInt(String(x))` gives back every page number, NaN included. */
  lemma ParseIntOfNumberToString(x: JsNumber)
    ensures ParseInt(NumberToString(x)) == x
  {
    if x.Num? {
      ParseIntOfIntToString(x.value);
    } else {
      var nan := "NaN";
      assert nan[0] == 'N' && !IsWhitespace(nan[0]) && !IsDigit(nan[0]);
      assert TrimStart(nan) == nan;
      assert DigitPrefix(nan) == [];
      assert ParseSigned(nan) == ParseDigits(nan) == NaN;
    }
  }

  /** `Number.prototype.toString` of `t / 10` for a rating kept in tenths:
      6.5 prints as "6.5", 7.0 as "7". */
  function TenthsToString(t: nat): string {
    if t % 10 == 0 then NatToString(t / 10)
    else NatToString(t / 10) + "." + [DigitChar(t % 10)]
  }

  /** Reads a rating in tenths back from its decimal text: digits, optionally
      followed by a point and one non-zero digit. */
  function ParseTenths(s: string): Option<nat> {
    var whole := DigitPrefix(s);
    if whole == [] then None
    else if |whole| == |s| then Some(DigitsValue(whole) * 10)
    else if |s| == |whole| + 2 && s[|whole|] == '.' && IsDigit(s[|whole| + 1]) && s[|whole| + 1] != '0'
    then Some(DigitsValue(whole) * 10 + DigitValue(s[|whole| + 1]))
    else None
  }

  /** The text of a rating determines the rating. */
  lemma ParseTenthsOfTenthsToString(t: nat)
    ensures ParseTenths(TenthsToString(t)) == Some(t)
  {
    var whole := NatToString(t / 10);
    if t % 10 == 0 {
      DigitPrefixOfDigits(whole, []);
      assert whole + [] == whole;
    } else {
      var frac := "." + [DigitChar(t % 10)];
      DigitPrefixOfDigits(whole, frac);
      assert TenthsToString(t) == whole + frac;
    }
  }

  /** `xs.join(sep)` for an array of integers. */
  function JoinNumbers(xs: seq<int>, sep: string): string
    decreases |xs|
  {
    if xs == [] then ""
    else if |xs| == 1 then IntToString(xs[0])
    else IntToString(xs[0]) + sep + JoinNumbers(xs[1..], sep)
  }

  /** `s.split(sep)` for a one-character separator. */
  function Split(s: string, sep: char): (parts: seq<string>)
    ensures |parts| >= 1
  {
    if s == [] then [[]]
    else if s[0] == sep then [[]] + Split(s[1..], sep)
    else
      var parts := Split(s[1..], sep);
      [[s[0]] + parts[0]] + parts[1..]
  }

  lemma {:induction false} SplitWithoutSeparator(a: string, sep: char)
    requires sep !in a
    ensures Split(a, sep) == [a]
  {
    if a != [] {
      SplitWithoutSeparator(a[1..], sep);
      assert [a[0]] + a[1..] == a;
    }
  }

  lemma {:induction false} SplitAtFirstSeparator(a: string, sep: char, b: string)
    requires sep !in a
    ensures Split(a + [sep] + b, sep) == [a] + Split(b, sep)
  {
    if a == [] {
      assert a + [sep] + b == [sep] + b;
    } else {
      var s := a + [sep] + b;
      assert s[0] == a[0] != sep;
      assert s[1..] == a[1..] + [sep] + b;
      SplitAtFirstSeparator(a[1..], sep, b);
      assert [a[0]] + a[1..] == a;
    }
  }

  lemma IntToStringHasNoBar(i: int)
    ensures '|' !in IntToString(i)
  {
    var s := IntToString(i);
    forall k | 0 <= k < |s| ensures s[k] != '|' {
      if i < 0 && k > 0 {
        assert s[k] == NatToString(-i)[k - 1];
      }
    }
  }

  /** Splitting a `|`-joined list of integers and parsing each piece gives the list back. */
  lemma {:induction false} SplitJoinNumbers(xs: seq<int>)
    requires xs != []
    ensures |Split(JoinNumbers(xs, "|"), '|')| == |xs|
    ensures forall k :: 0 <= k < |xs| ==> ParseInt(Split(JoinNumbers(xs, "|"), '|')[k]) == Num(xs[k])
  {
    var head := IntToString(xs[0]);
    IntToStringHasNoBar(xs[0]);
    ParseIntOfIntToString(xs[0]);
    var parts := Split(JoinNumbers(xs, "|"), '|');
    if |xs| == 1 {
      SplitWithoutSeparator(head, '|');
      assert parts == [head];
    } else {
      var tail := JoinNumbers(xs[1..], "|");
      assert JoinNumbers(xs, "|") == head + ['|'] + tail;
      SplitAtFirstSeparator(head, '|', tail);
      assert parts == [head] + Split(tail, '|');
      SplitJoinNumbers(xs[1..]);
      forall k | 0 <= k < |xs| ensures ParseInt(parts[k]) == Num(xs[k]) {
        if k > 0 {
          assert parts[k] == Split(tail, '|')[k - 1];
          assert xs[k] == xs[1..][k - 1];
        }
      }
    }
  }
}
