/** The small part of JavaScript's string and number behaviour the app relies on:
    `Number.prototype.toString` on naturals, `Number(s)` on digit strings,
    `padStart(2, '0')` and `String.prototype.split` on one separator character. */
module Text {
  import opened Optional

  predicate IsDigit(c: char) {
    '0' <= c <= '9'
  }

  predicate AllDigits(s: string) {
    forall i :: 0 <= i < |s| ==> IsDigit(s[i])
  }

  function DigitChar(d: nat): (c: char)
    requires d < 10
    ensures IsDigit(c) && DigitValue(c) == d
  {
    ('0' as int + d) as char
  }

  function DigitValue(c: char): nat
    requires IsDigit(c)
  {
    c as int - '0' as int
  }

  /** Decimal rendering of a natural number, without leading zeros. */
  function NatToString(n: nat): (s: string)
    ensures 1 <= |s| && AllDigits(s)
    ensures |s| == 1 <==> n < 10
    ensures n < 100 ==> |s| <= 2
    decreases n
  {
    if n < 10 then [DigitChar(n)] else NatToString(n / 10) + [DigitChar(n % 10)]
  }

  /** The value of a string of decimal digits, read most significant digit first. */
  function DigitsValue(s: string): nat
    requires AllDigits(s)
    decreases |s|
  {
    if s == [] then 0 else DigitsValue(s[..|s| - 1]) * 10 + DigitValue(s[|s| - 1])
  }

  /** `Number(s)` for strings made of decimal digits; JavaScript maps "" to 0.
      Every other string is taken to be `NaN`, here `None`. */
  function NumberOf(s: string): (r: Option<nat>)
    ensures r.Some? <==> AllDigits(s)
  {
    if AllDigits(s) then Some(DigitsValue(s)) else None
  }

  /** `s.padStart(2, '0')`. */
  function PadTwo(s: string): (r: string)
    ensures |r| == if |s| < 2 then 2 else |s|
    ensures r[|r| - |s|..] == s
    ensures forall i :: 0 <= i < |r| - |s| ==> r[i] == '0'
  {
    if |s| == 0 then "00" else if |s| == 1 then "0" + s else s
  }

  /** `s.split(sep)`: the maximal pieces of `s` between occurrences of `sep`. */
  function Split(s: string, sep: char): (parts: seq<string>)
    ensures 1 <= |parts|
    ensures sep !in s ==> parts == [s]
    decreases |s|
  {
    if s == [] then [[]]
    else
      var rest := Split(s[1..], sep);
      assert [s[0]] + s[1..] == s;
      if s[0] == sep then [[]] + rest
      else [[s[0]] + rest[0]] + rest[1..]
  }

  // ---------------------------------------------------------------------------
  // Lemmas

  /** Reading back the decimal rendering of `n` gives `n`. */
  lemma {:induction false} NatToStringRoundTrip(n: nat)
    ensures NumberOf(NatToString(n)) == Some(n)
    decreases n
  {
    var s := NatToString(n);
    if n >= 10 {
      NatToStringRoundTrip(n / 10);
      assert s[..|s| - 1] == NatToString(n / 10);
      assert s[|s| - 1] == DigitChar(n % 10);
      assert DigitsValue(s) == (n / 10) * 10 + n % 10;
    }
  }

  /** A leading zero does not change the value of a digit string. */
  lemma {:induction false} LeadingZero(s: string)
    requires AllDigits(s)
    ensures AllDigits("0" + s) && DigitsValue("0" + s) == DigitsValue(s)
    decreases |s|
  {
    var z := "0" + s;
    if s != [] {
      LeadingZero(s[..|s| - 1]);
      assert z[..|z| - 1] == "0" + s[..|s| - 1];
    }
  }

  /** Zero padding keeps a digit string's value. */
  lemma PadTwoValue(s: string)
    requires AllDigits(s)
    ensures NumberOf(PadTwo(s)) == NumberOf(s)
  {
    if |s| == 0 {
      assert "0" + "0" == "00";
      LeadingZero("0");
      assert DigitsValue("0") == 0;
    } else if |s| == 1 {
      LeadingZero(s);
    }
  }

  /** `padStart(2, '0')` of a rendered number reads back as that number. */
  lemma PaddedRoundTrip(n: nat)
    ensures AllDigits(PadTwo(NatToString(n)))
    ensures NumberOf(PadTwo(NatToString(n))) == Some(n)
  {
    NatToStringRoundTrip(n);
    PadTwoValue(NatToString(n));
  }

  /** A digit string does not contain a separator that is not a digit. */
  lemma DigitsAvoid(s: string, sep: char)
    requires AllDigits(s) && !IsDigit(sep)
    ensures sep !in s
  {
  }

  /** Splitting at the first separator peels off the piece before it. */
  lemma {:induction false} SplitFirst(a: string, sep: char, b: string)
    requires sep !in a
    ensures Split(a + [sep] + b, sep) == [a] + Split(b, sep)
    decreases |a|
  {
    var s := a + [sep] + b;
    if a == [] {
      assert s[1..] == b;
    } else {
      assert s[1..] == a[1..] + [sep] + b;
      SplitFirst(a[1..], sep, b);
      assert [a[0]] + a[1..] == a;
    }
  }

  /** Two separator-free pieces joined by the separator split back into themselves. */
  lemma SplitTwo(a: string, sep: char, b: string)
    requires sep !in a && sep !in b
    ensures Split(a + [sep] + b, sep) == [a, b]
  {
    SplitFirst(a, sep, b);
  }

  // ---------------------------------------------------------------------------
  // Two zero-padded numbers around a colon: the "HH:MM" and "MM:SS" texts.

  /** `${a.padStart(2,'0')}:${b.padStart(2,'0')}` for the decimal renderings of `a` and `b`. */
  function PaddedPair(a: nat, b: nat): (s: string)
    ensures a < 100 && b < 100 ==> |s| == 5
  {
    PadTwo(NatToString(a)) + ":" + PadTwo(NatToString(b))
  }

  /** `const [x, y] = s.split(':').map(Number)`: the first two pieces as numbers,
      `None` when either is `NaN` or missing. */
  function SplitPair(s: string): (r: Option<(nat, nat)>)
    ensures var p := Split(s, ':');
      r.Some? <==> 2 <= |p| && AllDigits(p[0]) && AllDigits(p[1])
    ensures var p := Split(s, ':');
      r.Some? ==> r.value == (DigitsValue(p[0]), DigitsValue(p[1]))
  {
    var parts := Split(s, ':');
    if |parts| < 2 then None
    else
      match (NumberOf(parts[0]), NumberOf(parts[1]))
      case (Some(x), Some(y)) => Some((x, y))
      case _ => None
  }

  /** Splitting a padded pair back at the colon recovers both numbers. */
  lemma PaddedPairRoundTrip(a: nat, b: nat)
    ensures SplitPair(PaddedPair(a, b)) == Some((a, b))
  {
    var x, y := PadTwo(NatToString(a)), PadTwo(NatToString(b));
    PaddedRoundTrip(a);
    PaddedRoundTrip(b);
    DigitsAvoid(x, ':');
    DigitsAvoid(y, ':');
    assert PaddedPair(a, b) == x + [':'] + y;
    SplitTwo(x, ':', y);
  }

  /** Below 100 on both sides, a padded pair is two digits, a colon and two
      digits, and each two-digit field reads as its number. */
  lemma PaddedPairFields(a: nat, b: nat)
    ensures var s := PaddedPair(a, b);
      a < 100 && b < 100 ==>
      |s| == 5 && s[2] == ':' && AllDigits(s[..2]) && AllDigits(s[3..]) &&
      DigitsValue(s[..2]) == a && DigitsValue(s[3..]) == b
  {
    if a < 100 && b < 100 {
      var x, y := PadTwo(NatToString(a)), PadTwo(NatToString(b));
      PaddedRoundTrip(a);
      PaddedRoundTrip(b);
      assert |x| == 2 && |y| == 2;
      assert DigitsValue(x) == a && DigitsValue(y) == b;
      assert PaddedPair(a, b) == x + ":" + y;
      ColonFields(x, y);
    }
  }

  lemma ColonFields(x: string, y: string)
    requires |x| == 2 && |y| == 2
    ensures var s := x + ":" + y;
      |s| == 5 && s[2] == ':' && s[..2] == x && s[3..] == y
  {
    var s := x + ":" + y;
    assert s[..2] == x;
    assert s[3..] == y;
  }
}
