/**
 The won amounts shown on the dashboard: the value is truncated toward zero
 to an integer and printed after the won sign, with a comma between every
 group of three digits counted from the right.
 */
module Currency {

  datatype Option<T> = None | Some(value: T)

  const WonSign: char := '₩'

  /** Conversion of a real to an integer by truncation toward zero. */
  function Truncate(v: real): (n: int)
    ensures 0.0 <= v ==> 0 <= n && n as real <= v < n as real + 1.0
    ensures v < 0.0 ==> n <= 0 && n as real - 1.0 < v <= n as real
  {
    if v >= 0.0 then v.Floor else -((-v).Floor)
  }

  predicate IsDigit(c: char) {
    '0' <= c <= '9'
  }

  predicate AllDigits(s: string) {
    forall i :: 0 <= i < |s| ==> IsDigit(s[i])
  }

  function DigitChar(d: nat): (c: char)
    requires d < 10
    ensures IsDigit(c)
  {
    "0123456789"[d]
  }

  function DigitValue(c: char): (d: nat)
    requires IsDigit(c)
    ensures d < 10
  {
    (c as int - '0' as int)
  }

  /** The decimal digits of `n`, most significant first, without leading zeros. */
  function DecimalDigits(n: nat): (s: string)
    ensures |s| >= 1 && AllDigits(s)
    ensures |s| > 1 ==> s[0] != '0'
    decreases n
  {
    if n < 10 then [DigitChar(n)] else DecimalDigits(n / 10) + [DigitChar(n % 10)]
  }

  /** Reads a string of decimal digits, most significant first. */
  function ParseDigits(s: string): nat
    requires AllDigits(s)
  {
    if s == [] then 0 else ParseDigits(s[..|s| - 1]) * 10 + DigitValue(s[|s| - 1])
  }

  /** Drops every comma. */
  function RemoveCommas(s: string): (r: string)
    ensures |r| <= |s|
  {
    if s == [] then [] else (if s[0] == ',' then [] else [s[0]]) + RemoveCommas(s[1..])
  }

  /** Inserts a comma between every group of three characters, counted from the right. */
  function GroupThousands(s: string): (r: string)
    ensures |s| > 0 ==> |r| > 0 && r[0] == s[0]
    decreases |s|
  {
    if |s| <= 3 then s else GroupThousands(s[..|s| - 3]) + "," + s[|s| - 3..]
  }

  /**
   The won display of an amount: the value is truncated toward zero and its
   digits are printed after the won sign with thousands separators; the
   minus sign of a negative value comes after the won sign.
   */
  function FormatCurrency(value: real): (r: string)
    ensures |r| >= 2 && r[0] == WonSign
  {
    var n := Truncate(value);
    var digits := GroupThousands(DecimalDigits(if n < 0 then -n else n));
    [WonSign] + (if n < 0 then "-" else "") + digits
  }

  /** Reads back a formatted amount: won sign, optional minus, digits and commas. */
  function ParseCurrency(s: string): Option<int> {
    if |s| == 0 || s[0] != WonSign then None
    else
      var body := s[1..];
      var negative := |body| > 0 && body[0] == '-';
      var digits := RemoveCommas(if negative then body[1..] else body);
      if |digits| == 0 || !AllDigits(digits) then None
      else
        var magnitude: int := ParseDigits(digits);
        Some(if negative then -magnitude else magnitude)
  }

  // ---------------------------------------------------------------------
  // Lemmas

  /** Reading the digits of `n` gives `n` back. */
  lemma {:induction false} DigitsRoundTrip(n: nat)
    ensures ParseDigits(DecimalDigits(n)) == n
    decreases n
  {
    var s := DecimalDigits(n);
    if n >= 10 {
      DigitsRoundTrip(n / 10);
      assert s[..|s| - 1] == DecimalDigits(n / 10);
    }
  }

  lemma {:induction false} RemoveCommasConcat(a: string, b: string)
    ensures RemoveCommas(a + b) == RemoveCommas(a) + RemoveCommas(b)
  {
    if a == [] {
      assert a + b == b;
    } else {
      assert (a + b)[0] == a[0];
      assert (a + b)[1..] == a[1..] + b;
      RemoveCommasConcat(a[1..], b);
    }
  }

  lemma {:induction false} NoCommas(s: string)
    requires AllDigits(s)
    ensures RemoveCommas(s) == s
  {
    if s != [] {
      assert IsDigit(s[0]);
      NoCommas(s[1..]);
    }
  }

  /**
   From position `from` on, `r` has a comma exactly where the distance to its
   end is a multiple of four, and nowhere else.
   */
  predicate GroupedByThrees(r: string, from: nat) {
    forall i :: from <= i < |r| ==> (r[i] == ',' <==> (|r| - i) % 4 == 0)
  }

  lemma AllDigitsSplit(s: string, k: nat)
    requires AllDigits(s) && k <= |s|
    ensures AllDigits(s[..k]) && AllDigits(s[k..])
  {
    assert forall i :: 0 <= i < k ==> s[..k][i] == s[i];
    assert forall i :: 0 <= i < |s| - k ==> s[k..][i] == s[k + i];
  }

  /** Grouping adds one comma per full group of three digits after the first group. */
  lemma {:induction false} GroupThousandsLength(s: string)
    requires |s| > 0
    ensures |GroupThousands(s)| == |s| + (|s| - 1) / 3
    decreases |s|
  {
    if |s| > 3 {
      GroupThousandsLength(s[..|s| - 3]);
    }
  }

  /**
   The commas of a grouped digit string stand exactly at the positions whose
   distance from the end is a multiple of four: the first group has one to
   three digits and every later group exactly three.
   */
  lemma {:induction false} GroupThousandsCommas(s: string)
    requires AllDigits(s) && |s| > 0
    ensures GroupedByThrees(GroupThousands(s), 0)
    decreases |s|
  {
    if |s| <= 3 {
      forall i | 0 <= i < |s| ensures s[i] != ',' && (|s| - i) % 4 != 0 {
        assert IsDigit(s[i]);
      }
    } else {
      AllDigitsSplit(s, |s| - 3);
      GroupThousandsCommas(s[..|s| - 3]);
      GroupedAppend(GroupThousands(s[..|s| - 3]), s[|s| - 3..]);
    }
  }

  /** One more comma and group of three digits keeps a grouped string grouped. */
  lemma GroupedAppend(g: string, tail: string)
    requires GroupedByThrees(g, 0) && AllDigits(tail) && |tail| == 3
    ensures GroupedByThrees(g + "," + tail, 0)
  {
    var r := g + "," + tail;
    forall i | 0 <= i < |r| ensures r[i] == ',' <==> (|r| - i) % 4 == 0 {
      if i < |g| {
        assert r[i] == g[i];
        assert (|r| - i) % 4 == (|g| - i) % 4 by {
          assert |r| - i == (|g| - i) + 4;
        }
      } else if i == |g| {
        assert r[i] == ',' && |r| - i == 4;
      } else {
        assert r[i] == tail[i - |g| - 1];
        assert IsDigit(tail[i - |g| - 1]);
      }
    }
  }

  /** Putting one character in front keeps the grouping of what follows it. */
  lemma GroupedPrefix(c: char, g: string)
    requires GroupedByThrees(g, 0)
    ensures GroupedByThrees([c] + g, 1)
  {
    var r := [c] + g;
    forall i | 1 <= i < |r| ensures r[i] == ',' <==> (|r| - i) % 4 == 0 {
      assert r[i] == g[i - 1];
    }
  }

  /** Removing the commas of a grouped digit string gives the digits back. */
  lemma {:induction false} GroupThousandsUngroup(s: string)
    requires AllDigits(s)
    ensures RemoveCommas(GroupThousands(s)) == s
    decreases |s|
  {
    if |s| <= 3 {
      NoCommas(s);
    } else {
      var head := s[..|s| - 3];
      var tail := s[|s| - 3..];
      AllDigitsSplit(s, |s| - 3);
      var g := GroupThousands(head);
      GroupThousandsUngroup(head);
      NoCommas(tail);
      RemoveCommasAround(g, tail);
      assert s == head + tail;
    }
  }

  /** A comma between two strings disappears with the others. */
  lemma RemoveCommasAround(a: string, b: string)
    ensures RemoveCommas(a + "," + b) == RemoveCommas(a) + RemoveCommas(b)
  {
    assert a + "," + b == a + ("," + b);
    RemoveCommasConcat(a, "," + b);
    assert ("," + b)[1..] == b;
  }

  /** Reading a formatted amount gives back the truncated value, for every real. */
  lemma FormatCurrencyRoundTrip(value: real)
    ensures ParseCurrency(FormatCurrency(value)) == Some(Truncate(value))
  {
    var n := Truncate(value);
    var m: nat := if n < 0 then -n else n;
    var d := DecimalDigits(m);
    DigitsRoundTrip(m);
    GroupThousandsUngroup(d);
    ParseGrouped(GroupThousands(d), d, n < 0);
  }

  /** Reading the won sign, an optional minus and a grouped digit string. */
  lemma ParseGrouped(g: string, d: string, negative: bool)
    requires AllDigits(d) && |d| > 0 && RemoveCommas(g) == d && |g| > 0 && g[0] == d[0]
    ensures ParseCurrency([WonSign] + (if negative then "-" else "") + g)
            == Some(if negative then -(ParseDigits(d) as int) else ParseDigits(d))
  {
    var s := [WonSign] + (if negative then "-" else "") + g;
    assert s[0] == WonSign;
    if negative {
      assert s[1..] == "-" + g;
      assert ("-" + g)[1..] == g;
    } else {
      assert s[1..] == g;
      assert IsDigit(d[0]);
    }
  }

  /**
   The layout of a formatted amount of a non-negative value: the won sign,
   then the digits of the truncated value grouped by threes from the right.
   */
  lemma FormatCurrencyLayout(value: real)
    requires 0.0 <= value
    ensures var r := FormatCurrency(value);
            var d := DecimalDigits(Truncate(value));
            && r == [WonSign] + GroupThousands(d)
            && |r| == 1 + |d| + (|d| - 1) / 3
            && GroupedByThrees(r, 1)
            && RemoveCommas(r[1..]) == d
  {
    var r := FormatCurrency(value);
    var d := DecimalDigits(Truncate(value));
    var g := GroupThousands(d);
    GroupThousandsLength(d);
    GroupThousandsCommas(d);
    GroupThousandsUngroup(d);
    GroupedPrefix(WonSign, g);
    assert r == [WonSign] + g;
    assert r[1..] == g;
  }

  /** Worked examples of the format. */
  lemma FormatSmallExample()
    ensures FormatCurrency(999.0) == "₩999"
    ensures FormatCurrency(-0.5) == "₩0"
  {
    assert DecimalDigits(9) == "9";
    assert DecimalDigits(99) == "99";
  }

  lemma FormatGroupedExample()
    ensures FormatCurrency(1234.7) == "₩1,234"
  {
    assert Truncate(1234.7) == 1234;
    DigitsOf1234();
    assert GroupThousands("1234") == "1,234";
  }

  lemma DigitsOf1234()
    ensures DecimalDigits(1234) == "1234"
  {
    assert DecimalDigits(1) == "1";
    assert DecimalDigits(12) == "12";
    assert DecimalDigits(123) == "123";
  }
}
