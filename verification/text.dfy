/**
 * Text rendering shared by the three outputs: integers as `std::ostream`
 * prints an `int` (decimal, a leading '-' when negative), booleans through
 * `BoolName`, and the decoders that show each rendering loses nothing.
 */
module Text {
  import opened Wrappers

  predicate IsDigit(c: char) {
    '0' <= c <= '9'
  }

  function DigitValue(c: char): (d: nat)
    requires IsDigit(c)
    ensures d < 10
  {
    c as int - '0' as int
  }

  function DigitChar(d: nat): (c: char)
    requires d < 10
    ensures IsDigit(c) && DigitValue(c) == d
  {
    ('0' as int + d) as char
  }

  predicate AllDigits(s: string) {
    forall i :: 0 <= i < |s| ==> IsDigit(s[i])
  }

  /** Decimal digits of `n`, most significant first, no leading zero. */
  function NatToString(n: nat): (s: string)
    ensures |s| > 0 && AllDigits(s)
    ensures s[0] == '0' ==> n == 0
    decreases n
  {
    if n < 10 then [DigitChar(n)] else NatToString(n / 10) + [DigitChar(n % 10)]
  }

  /** The number a non-empty run of decimal digits denotes. */
  function DigitsValue(s: string): nat
    requires AllDigits(s)
    decreases |s|
  {
    if |s| == 0 then 0 else DigitsValue(s[..|s| - 1]) * 10 + DigitValue(s[|s| - 1])
  }

  function ParseNat(s: string): Option<nat> {
    if |s| > 0 && AllDigits(s) then Some(DigitsValue(s)) else None
  }

  /** How `operator<<` renders an `int`. */
  function IntToString(i: int): (s: string)
    ensures |s| > 0
    ensures forall k :: 0 <= k < |s| ==> IsDigit(s[k]) || s[k] == '-'
    ensures i >= 0 <==> AllDigits(s)
    ensures i < 0 <==> s[0] == '-'
    ensures '-' !in s[1..]
    ensures i >= 0 && s[0] == '0' ==> i == 0
    ensures i < 0 ==> |s| > 1 && s[1] != '0'
    ensures ',' !in s && '\n' !in s
  {
    if i < 0 then
      var s := "-" + NatToString(-i);
      assert !IsDigit(s[0]);
      s
    else
      NatToString(i)
  }

  function ParseInt(s: string): Option<int> {
    if |s| > 0 && s[0] == '-' then
      var n :- ParseNat(s[1..]);
      var v: int := 0 - n as int;
      Some(v)
    else
      var n :- ParseNat(s);
      Some(n)
  }

  lemma {:induction false} NatRoundTrip(n: nat)
    ensures DigitsValue(NatToString(n)) == n
    decreases n
  {
    if n >= 10 {
      var s := NatToString(n / 10);
      assert NatToString(n) == s + [DigitChar(n % 10)];
      assert (s + [DigitChar(n % 10)])[..|s|] == s;
      NatRoundTrip(n / 10);
    }
  }

  /** Every rendered integer reads back as itself. */
  lemma IntRoundTrip(i: int)
    ensures ParseInt(IntToString(i)) == Some(i)
  {
    if i < 0 {
      var s := NatToString(-i);
      assert ("-" + s)[1..] == s;
      NatRoundTrip(-i);
    } else {
      NatRoundTrip(i);
    }
  }

  /** `BoolName` at TM/TM.hpp:56. */
  function BoolName(b: bool): (r: string)
    ensures (r == "true") == b && (r == "false") == !b
  {
    if b then "true" else "false"
  }

  function ParseBool(s: string): Option<bool> {
    if s == "true" then Some(true) else if s == "false" then Some(false) else None
  }

  lemma BoolRoundTrip(b: bool)
    ensures ParseBool(BoolName(b)) == Some(b)
  {
  }

  /** Position of the first `c` in `s`. */
  function IndexOf(s: string, c: char): (i: nat)
    requires c in s
    ensures i < |s| && s[i] == c && c !in s[..i]
  {
    if s[0] == c then 0 else 1 + IndexOf(s[1..], c)
  }

  /** Splits at the first `sep`: the part before it and the part after it. */
  function SplitFirst(s: string, sep: char): Option<(string, string)> {
    if sep in s then
      var i := IndexOf(s, sep);
      Some((s[..i], s[i + 1..]))
    else
      None
  }

  lemma SplitFirstOf(a: string, sep: char, b: string)
    requires sep !in a
    ensures SplitFirst(a + [sep] + b, sep) == Some((a, b))
  {
    var s := a + [sep] + b;
    assert s[|a|] == sep;
    assert s[..|a|] == a;
    assert IndexOf(s, sep) == |a|;
    assert s[|a| + 1..] == b;
  }

  /** The lines of `s` between newline characters. */
  function SplitLines(s: string): (ls: seq<string>)
    ensures |ls| > 0
    decreases |s|
  {
    match SplitFirst(s, '\n')
    case None => [s]
    case Some((line, rest)) => [line] + SplitLines(rest)
  }

  /** The lines joined by newline characters, with none after the last. */
  function JoinLines(ls: seq<string>): string
    requires |ls| > 0
  {
    if |ls| == 1 then ls[0] else ls[0] + "\n" + JoinLines(ls[1..])
  }

  lemma {:induction false} SplitJoinLines(ls: seq<string>)
    requires |ls| > 0
    requires forall i :: 0 <= i < |ls| ==> '\n' !in ls[i]
    ensures SplitLines(JoinLines(ls)) == ls
    decreases |ls|
  {
    if |ls| == 1 {
      assert SplitFirst(ls[0], '\n') == None;
    } else {
      SplitFirstOf(ls[0], '\n', JoinLines(ls[1..]));
      SplitJoinLines(ls[1..]);
      assert [ls[0]] + ls[1..] == ls;
    }
  }

  /** Writing one more line after a newline extends the joined text. */
  lemma {:induction false} JoinLinesSnoc(ls: seq<string>, x: string)
    requires |ls| > 0
    ensures JoinLines(ls + [x]) == JoinLines(ls) + "\n" + x
    decreases |ls|
  {
    if |ls| == 1 {
      assert (ls + [x])[1..] == [x];
    } else {
      assert (ls + [x])[1..] == ls[1..] + [x];
      JoinLinesSnoc(ls[1..], x);
    }
  }

  /** Each field followed by a comma, then `tail`. */
  function CommaFields(fields: seq<string>, tail: string): string
    decreases |fields|
  {
    if fields == [] then tail else fields[0] + "," + CommaFields(fields[1..], tail)
  }

  /** The first `n` comma-terminated fields of `s` and what follows them. */
  function SplitFields(s: string, n: nat): Option<(seq<string>, string)>
    decreases n
  {
    if n == 0 then Some(([], s))
    else
      var first :- SplitFirst(s, ',');
      var more :- SplitFields(first.1, n - 1);
      Some(([first.0] + more.0, more.1))
  }

  lemma {:induction false} SplitCommaFields(fields: seq<string>, tail: string)
    requires forall i :: 0 <= i < |fields| ==> ',' !in fields[i]
    ensures SplitFields(CommaFields(fields, tail), |fields|) == Some((fields, tail))
    decreases |fields|
  {
    if fields != [] {
      SplitFirstOf(fields[0], ',', CommaFields(fields[1..], tail));
      SplitCommaFields(fields[1..], tail);
      assert [fields[0]] + fields[1..] == fields;
    }
  }

  /** Joining one more line of `ls` extends the joined prefix. */
  lemma JoinLinesPrefix(ls: seq<string>, k: nat)
    requires 0 < k < |ls|
    ensures JoinLines(ls[..k + 1]) == JoinLines(ls[..k]) + "\n" + ls[k]
  {
    assert ls[..k + 1] == ls[..k] + [ls[k]];
    JoinLinesSnoc(ls[..k], ls[k]);
  }
}
