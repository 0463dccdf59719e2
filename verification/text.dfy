/**
 * The string conversions MetalTensors relies on: int.ToString, string.Join,
 * string.Split on a set of separator characters with empty entries removed,
 * and int.Parse.  They render shapes ("(3, 5, 7)") and carry int arrays
 * through configuration attributes ("3, 5, 7").
 */
module Text {
  import opened Common

  predicate IsDigit(c: char) { '0' <= c <= '9' }

  predicate AllDigits(s: string) { forall i :: 0 <= i < |s| ==> IsDigit(s[i]) }

  function DigitChar(d: nat): (c: char)
    requires d < 10
    ensures IsDigit(c)
  {
    (('0' as int) + d) as char
  }

  function DigitValue(c: char): nat
    requires IsDigit(c)
  {
    (c as int) - ('0' as int)
  }

  /** Decimal digits of a natural number, most significant first, without leading zeros. */
  function NatToString(n: nat): (s: string)
    ensures |s| >= 1 && AllDigits(s)
    ensures n > 0 ==> s[0] != '0'
    decreases n
  {
    if n < 10 then [DigitChar(n)] else NatToString(n / 10) + [DigitChar(n % 10)]
  }

  /** int.ToString() in the invariant culture: a leading '-' for negative values. */
  function IntToString(i: int): (s: string)
    ensures |s| >= 1
    ensures i < 0 <==> s[0] == '-'
    ensures forall k :: 0 < k < |s| ==> IsDigit(s[k])
  {
    if i < 0 then "-" + NatToString(-i) else NatToString(i)
  }

  /** The value of a string of decimal digits, read most significant digit first. */
  function DigitsValue(s: string): nat
    requires AllDigits(s)
  {
    if s == [] then 0 else DigitsValue(s[..|s| - 1]) * 10 + DigitValue(s[|s| - 1])
  }

  /** The characters int.Parse skips around a number: U+0009 to U+000D and the space. */
  predicate IsNumberWhite(c: char) { c == ' ' || '\t' <= c <= '\r' }

  function TrimNumberWhite(s: string): (t: string)
    ensures |t| <= |s|
    ensures |s| > 0 && !IsNumberWhite(s[0]) && !IsNumberWhite(s[|s| - 1]) ==> t == s
    decreases |s|
  {
    if |s| > 0 && IsNumberWhite(s[0]) then TrimNumberWhite(s[1..])
    else if |s| > 0 && IsNumberWhite(s[|s| - 1]) then TrimNumberWhite(s[..|s| - 1])
    else s
  }

  /**
   * int.Parse with the default number style: optional surrounding white space,
   * an optional sign and at least one decimal digit; anything else is a FormatException.
   */
  function ParseInt(s: string): (r: Outcome<int>)
    ensures r.Fail? ==> r.error == Format
    ensures AllDigits(s) && |s| > 0 ==> r == Ok(DigitsValue(s))
  {
    var t := TrimNumberWhite(s);
    var negative := |t| > 0 && t[0] == '-';
    var digits := if |t| > 0 && (t[0] == '-' || t[0] == '+') then t[1..] else t;
    if |digits| == 0 || !AllDigits(digits) then Fail(Format)
    else
      var v: int := DigitsValue(digits);
      if negative then Ok(-v) else Ok(v)
  }

  /** string.Join(separator, parts). */
  function Join(separator: string, parts: seq<string>): (s: string)
    ensures |parts| == 1 ==> s == parts[0]
    ensures parts == [] ==> s == ""
  {
    if parts == [] then ""
    else if |parts| == 1 then parts[0]
    else parts[0] + separator + Join(separator, parts[1..])
  }

  function IntStrings(xs: seq<int>): (r: seq<string>)
    ensures |r| == |xs|
    ensures forall i :: 0 <= i < |xs| ==> r[i] == IntToString(xs[i])
  {
    if xs == [] then [] else [IntToString(xs[0])] + IntStrings(xs[1..])
  }

  /** string.Join(", ", ints) as used for int arrays. */
  function JoinInts(xs: seq<int>): string
  {
    Join(", ", IntStrings(xs))
  }

  /** The separators of the int-array reader: space and comma. */
  predicate IsSeparator(c: char) { c == ' ' || c == ',' }

  predicate NoSeparator(s: string) { forall i :: 0 <= i < |s| ==> !IsSeparator(s[i]) }

  /** Length of the run of non-separator characters that starts s. */
  function TokenLength(s: string): (n: nat)
    ensures n <= |s|
    ensures NoSeparator(s[..n])
    ensures n < |s| ==> IsSeparator(s[n])
    decreases |s|
  {
    if s == [] || IsSeparator(s[0]) then 0
    else 1 + TokenLength(s[1..])
  }

  /** s.Split(new[] { ' ', ',' }, StringSplitOptions.RemoveEmptyEntries). */
  function Tokens(s: string): (r: seq<string>)
    ensures forall i :: 0 <= i < |r| ==> |r[i]| > 0 && NoSeparator(r[i])
    decreases |s|
  {
    if s == [] then []
    else if IsSeparator(s[0]) then Tokens(s[1..])
    else
      var n := TokenLength(s);
      [s[..n]] + Tokens(s[n..])
  }

  /** Parses each token with int.Parse; the first failure is the result. */
  function ParseAll(tokens: seq<string>): (r: Outcome<seq<int>>)
    ensures r.Ok? ==> |r.value| == |tokens|
  {
    if tokens == [] then Ok([])
    else
      var head :- ParseInt(tokens[0]);
      var tail :- ParseAll(tokens[1..]);
      Ok([head] + tail)
  }

  /** Reading an int[] configuration value: split on spaces and commas, parse each piece. */
  function ReadInts(s: string): Outcome<seq<int>>
  {
    ParseAll(Tokens(s))
  }

  lemma {:induction false} DigitsValueSnoc(s: string, c: char)
    requires AllDigits(s) && IsDigit(c)
    ensures AllDigits(s + [c]) && DigitsValue(s + [c]) == DigitsValue(s) * 10 + DigitValue(c)
  {
    assert (s + [c])[..|s + [c]| - 1] == s;
  }

  /** Reading the digits of n back gives n. */
  lemma {:induction false} NatToStringValue(n: nat)
    ensures DigitsValue(NatToString(n)) == n
    decreases n
  {
    if n >= 10 {
      NatToStringValue(n / 10);
      DigitsValueSnoc(NatToString(n / 10), DigitChar(n % 10));
    }
  }

  /** int.Parse(i.ToString()) == i. */
  lemma ParseIntToString(i: int)
    ensures ParseInt(IntToString(i)) == Ok(i)
  {
    if i < 0 {
      ParseNegative(-i);
    } else {
      NatToStringValue(i);
    }
  }

  /** A minus sign followed by the digits of n is read as -n. */
  lemma ParseNegative(n: nat)
    requires n > 0
    ensures ParseInt("-" + NatToString(n)) == Ok(-(n as int))
  {
    NatToStringValue(n);
    ParseMinusDigitsOf(NatToString(n), n);
  }

  lemma ParseMinusDigitsOf(digits: string, v: nat)
    requires |digits| > 0 && AllDigits(digits) && DigitsValue(digits) == v
    ensures ParseInt("-" + digits) == Ok(-(v as int))
  {
    var s := "-" + digits;
    assert s[1..] == digits;
    ParseMinusDigits(s);
  }

  /** A minus sign followed by decimal digits is read as the negated value of the digits. */
  lemma ParseMinusDigits(s: string)
    requires |s| > 1 && s[0] == '-' && AllDigits(s[1..])
    ensures ParseInt(s) == Ok(-(DigitsValue(s[1..]) as int))
  {
    assert s[1..][|s| - 2] == s[|s| - 1];
    assert TrimNumberWhite(s) == s;
  }

  /** A token followed by a separator or by nothing is read off whole. */
  lemma TokenLengthOfPrefix(p: string, t: string)
    requires NoSeparator(p)
    requires t == [] || IsSeparator(t[0])
    ensures TokenLength(p + t) == |p|
    decreases |p|
  {
    if p != [] {
      assert (p + t)[1..] == p[1..] + t;
      TokenLengthOfPrefix(p[1..], t);
    } else {
      assert p + t == t;
    }
  }

  /** Splitting a ", "-joined list of non-empty separator-free parts gives the parts back. */
  lemma {:induction false} TokensOfJoin(parts: seq<string>)
    requires forall i :: 0 <= i < |parts| ==> |parts[i]| > 0 && NoSeparator(parts[i])
    ensures Tokens(Join(", ", parts)) == parts
    decreases |parts|
  {
    if parts == [] {
    } else if |parts| == 1 {
      var p := parts[0];
      TokenLengthOfPrefix(p, []);
      assert p + [] == p;
      assert p[|p|..] == [];
    } else {
      TokensJoinStep(parts[0], Join(", ", parts[1..]));
      TokensOfJoin(parts[1..]);
      assert parts == [parts[0]] + parts[1..];
    }
  }

  /** A part, the separator ", " and the rest split into the part and the rest's tokens. */
  lemma TokensJoinStep(p: string, rest: string)
    requires |p| > 0 && NoSeparator(p)
    ensures Tokens(p + ", " + rest) == [p] + Tokens(rest)
  {
    var s := p + ", " + rest;
    assert s == p + (", " + rest);
    TokenLengthOfPrefix(p, ", " + rest);
    assert s[..|p|] == p;
    assert s[|p|..] == ", " + rest;
    assert (", " + rest)[1..] == " " + rest;
    assert (" " + rest)[1..] == rest;
    assert !IsSeparator(s[0]);
    assert Tokens(s) == [p] + Tokens(", " + rest);
    assert Tokens(", " + rest) == Tokens(" " + rest);
  }

  lemma {:induction false} ParseAllOfIntStrings(xs: seq<int>)
    ensures ParseAll(IntStrings(xs)) == Ok(xs)
    decreases |xs|
  {
    if xs != [] {
      var tokens := IntStrings(xs);
      ParseIntToString(xs[0]);
      assert tokens[1..] == IntStrings(xs[1..]);
      ParseAllOfIntStrings(xs[1..]);
      ParseAllCons(tokens, xs[0], xs[1..]);
      assert [xs[0]] + xs[1..] == xs;
    }
  }

  /** ParseAll reads the first token, then the rest. */
  lemma ParseAllCons(tokens: seq<string>, head: int, tail: seq<int>)
    requires tokens != [] && ParseInt(tokens[0]) == Ok(head) && ParseAll(tokens[1..]) == Ok(tail)
    ensures ParseAll(tokens) == Ok([head] + tail)
  {
  }

  /** The int[] written by JoinInts is read back unchanged by ReadInts. */
  lemma IntsRoundTrip(xs: seq<int>)
    ensures ReadInts(JoinInts(xs)) == Ok(xs)
  {
    var parts := IntStrings(xs);
    forall i | 0 <= i < |parts|
      ensures |parts[i]| > 0 && NoSeparator(parts[i])
    {
    }
    TokensOfJoin(parts);
    ParseAllOfIntStrings(xs);
  }
}
