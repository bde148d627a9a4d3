/**
 * Decimal rendering of integers, as PHP's string interpolation writes an
 * integer id, and of money amounts as `number_format($amount, 2)` writes
 * them. Amounts are integer cents, so the two decimals are exact; each
 * renderer has a parser beside it and a lemma that the parser recovers the
 * number.
 */
module NumberFormat {
  import opened Wrappers

  predicate IsDigit(c: char) {
    '0' <= c <= '9'
  }

  predicate AllDigits(s: string) {
    forall i :: 0 <= i < |s| ==> IsDigit(s[i])
  }

  function DigitChar(d: nat): (c: char)
    requires d < 10
    ensures IsDigit(c)
  {
    ('0' as int + d) as char
  }

  function DigitValue(c: char): (d: nat)
    requires IsDigit(c)
    ensures d < 10 && DigitChar(d) == c
  {
    c as int - '0' as int
  }

  /** The value of a string of decimal digits, most significant first. */
  function Value(s: string): nat
    requires AllDigits(s)
  {
    if s == [] then 0 else Value(s[..|s| - 1]) * 10 + DigitValue(s[|s| - 1])
  }

  /** The decimal digits of `n` without leading zeros (`"0"` for zero). */
  function Digits(n: nat): (s: string)
    ensures s != [] && AllDigits(s)
    ensures |s| > 1 ==> s[0] != '0'
  {
    if n < 10 then [DigitChar(n)] else Digits(n / 10) + [DigitChar(n % 10)]
  }

  lemma {:induction false} ValueOfDigits(n: nat)
    ensures Value(Digits(n)) == n
  {
    if n >= 10 {
      var s := Digits(n);
      assert s[..|s| - 1] == Digits(n / 10);
      ValueOfDigits(n / 10);
    }
  }

  /** PHP's rendering of an integer: a minus sign for negatives, then the digits. */
  function IntToString(i: int): (s: string)
    ensures s != []
  {
    if i < 0 then "-" + Digits(-i) else Digits(i)
  }

  /** Reads back what `IntToString` writes; anything else is `None`. */
  function ParseInt(s: string): Option<int> {
    if |s| >= 2 && s[0] == '-' && AllDigits(s[1..]) then Some(0 - Value(s[1..]))
    else if s != [] && AllDigits(s) then Some(Value(s))
    else None
  }

  /** A digit string parses as its value. */
  lemma ParseDigits(ds: string)
    requires ds != [] && AllDigits(ds)
    ensures ParseInt(ds) == Some(Value(ds))
  {
  }

  /** A minus sign before a digit string parses as the negated value. */
  lemma ParseNegatedDigits(ds: string)
    requires ds != [] && AllDigits(ds)
    ensures ParseInt("-" + ds) == Some(0 - Value(ds))
  {
    assert ("-" + ds)[1..] == ds;
  }

  lemma IntRoundTrip(i: int)
    ensures ParseInt(IntToString(i)) == Some(i)
  {
    if i < 0 {
      assert IntToString(i) == "-" + Digits(-i);
      assert ParseInt("-" + Digits(-i)) == Some(0 - Value(Digits(-i))) by {
        ParseNegatedDigits(Digits(-i));
      }
      ValueOfDigits(-i);
    } else {
      assert IntToString(i) == Digits(i);
      assert ParseInt(Digits(i)) == Some(Value(Digits(i))) by {
        ParseDigits(Digits(i));
      }
      ValueOfDigits(i);
    }
  }

  /**
   * `number_format`'s thousands grouping: a `,` before every group of three
   * digits counted from the right.
   */
  function Group(ds: string): (r: string)
    ensures ds != [] ==> |r| == |ds| + (|ds| - 1) / 3
  {
    if |ds| <= 3 then ds else Group(ds[..|ds| - 3]) + "," + LastThree(ds)
  }

  /** The last three characters. */
  function LastThree(s: string): (r: string)
    requires |s| >= 3
    ensures |r| == 3
  {
    [s[|s| - 3], s[|s| - 2], s[|s| - 1]]
  }

  lemma LastThreeSplit(s: string)
    requires |s| >= 3
    ensures s[..|s| - 3] + LastThree(s) == s
    ensures AllDigits(s) ==> AllDigits(s[..|s| - 3]) && AllDigits(LastThree(s))
  {
    assert s[..|s| - 3] + LastThree(s) == s;
  }

  /**
   * What a grouped integer part looks like, stated without `Group`: it does
   * not start with a comma, and a character is a comma exactly when its
   * distance from the end is a multiple of four; every other one is a digit.
   */
  predicate WellGrouped(s: string) {
    s != [] && s[0] != ',' &&
    forall i :: 0 <= i < |s| ==> (s[i] == ',' <==> (|s| - i) % 4 == 0) && (s[i] != ',' ==> IsDigit(s[i]))
  }

  /** Removes every comma. */
  function StripCommas(s: string): (r: string)
    ensures |r| <= |s|
  {
    if s == [] then [] else StripCommas(s[..|s| - 1]) + (if s[|s| - 1] == ',' then [] else [s[|s| - 1]])
  }

  lemma {:induction false} StripCommasAppend(a: string, b: string)
    ensures StripCommas(a + b) == StripCommas(a) + StripCommas(b)
  {
    if b != [] {
      assert (a + b)[..|a + b| - 1] == a + b[..|b| - 1];
      StripCommasAppend(a, b[..|b| - 1]);
    } else {
      assert a + b == a;
    }
  }

  lemma {:induction false} StripCommasOfDigits(s: string)
    requires AllDigits(s)
    ensures StripCommas(s) == s
  {
    if s != [] {
      StripCommasOfDigits(s[..|s| - 1]);
    }
  }

  lemma StripComma()
    ensures StripCommas(",") == []
  {
    assert ","[..0] == [];
  }

  /** Stripping `x + "," + lo` for a digit string `lo`. */
  lemma StripCommasJoin(x: string, lo: string)
    requires AllDigits(lo)
    ensures StripCommas(x + "," + lo) == StripCommas(x) + lo
  {
    StripCommasAppend(x + ",", lo);
    StripCommasAppend(x, ",");
    StripComma();
    StripCommasOfDigits(lo);
  }

  /** Grouping only inserts commas: stripping them gives the digits back. */
  lemma {:induction false} StripGroup(ds: string)
    requires AllDigits(ds)
    ensures StripCommas(Group(ds)) == ds
  {
    if |ds| <= 3 {
      StripCommasOfDigits(ds);
    } else {
      var hi, lo := ds[..|ds| - 3], LastThree(ds);
      LastThreeSplit(ds);
      StripGroup(hi);
      StripCommasJoin(Group(hi), lo);
    }
  }

  /** Appending `,ddd` to a well-grouped string keeps it well grouped. */
  lemma AppendGroupWellGrouped(g: string, lo: string)
    requires WellGrouped(g)
    requires |lo| == 3 && AllDigits(lo)
    ensures WellGrouped(g + "," + lo)
  {
    var s := g + "," + lo;
    forall i | 0 <= i < |s|
      ensures (s[i] == ',' <==> (|s| - i) % 4 == 0) && (s[i] != ',' ==> IsDigit(s[i]))
    {
      if i < |g| {
        assert s[i] == g[i];
        assert (|g| - i + 4) % 4 == (|g| - i) % 4;
      } else if i > |g| {
        assert s[i] == lo[i - |g| - 1];
        assert 1 <= |s| - i <= 3;
      }
    }
  }

  /** Grouping a non-empty digit string gives a well-grouped string. */
  lemma {:induction false} GroupWellGrouped(ds: string)
    requires ds != [] && AllDigits(ds)
    ensures WellGrouped(Group(ds))
  {
    if |ds| > 3 {
      var hi, lo := ds[..|ds| - 3], LastThree(ds);
      assert AllDigits(hi) && AllDigits(lo);
      GroupWellGrouped(hi);
      AppendGroupWellGrouped(Group(hi), lo);
    }
  }

  /** The two decimals of a remainder below 100, with a leading zero. */
  function TwoDigits(k: nat): (s: string)
    requires k < 100
    ensures |s| == 2 && AllDigits(s) && Value(s) == k
  {
    var s := [DigitChar(k / 10), DigitChar(k % 10)];
    assert s[..1] == [DigitChar(k / 10)] && s[..1][..0] == [];
    assert Value(s[..1]) == k / 10;
    s
  }

  function Abs(x: int): nat {
    if x < 0 then -x else x
  }

  /** The unsigned part of `number_format(x, 2)`: grouped whole units, `.`, two decimals. */
  function FormatUnsigned(cents: nat): (s: string)
    ensures |s| >= 4 && s[|s| - 3] == '.' && IsDigit(s[|s| - 2]) && IsDigit(s[|s| - 1])
    ensures s[0] != '-'
  {
    var g := Group(Digits(cents / 100));
    GroupWellGrouped(Digits(cents / 100));
    var s := g + "." + TwoDigits(cents % 100);
    assert s[0] == g[0];
    s
  }

  /**
   * `number_format($amount, 2)` for an amount given in cents: a minus sign for
   * negative amounts, the whole units grouped in thousands with `,`, then `.`
   * and exactly two decimals.
   */
  function NumberFormat2(cents: int): (s: string)
    ensures |s| >= 4 && s[|s| - 3] == '.' && IsDigit(s[|s| - 2]) && IsDigit(s[|s| - 1])
    ensures (s[0] == '-') <==> cents < 0
  {
    if cents < 0 then "-" + FormatUnsigned(-cents) else FormatUnsigned(cents)
  }

  /** Reads back what `FormatUnsigned` writes; malformed input is `None`. */
  function ParseUnsigned(s: string): Option<nat> {
    if |s| < 4 || s[|s| - 3] != '.' then None
    else
      var whole := StripCommas(s[..|s| - 3]);
      var frac := [s[|s| - 2], s[|s| - 1]];
      if whole == [] || !AllDigits(whole) || !AllDigits(frac) then None
      else Some(Value(whole) * 100 + Value(frac))
  }

  /** Reads back what `NumberFormat2` writes, in cents; malformed input is `None`. */
  function ParseAmount(s: string): Option<int> {
    if s != [] && s[0] == '-' then
      match ParseUnsigned(s[1..])
      case Some(v) => Some(0 - v)
      case None => None
    else
      match ParseUnsigned(s)
      case Some(v) => Some(v)
      case None => None
  }

  /** The whole-unit part of a formatted amount is grouped in thousands. */
  lemma FormatUnsignedGrouped(cents: nat)
    ensures var s := FormatUnsigned(cents); WellGrouped(s[..|s| - 3])
  {
    var s := FormatUnsigned(cents);
    GroupWellGrouped(Digits(cents / 100));
    assert s[..|s| - 3] == Group(Digits(cents / 100));
  }

  lemma DigitsExamples()
    ensures Digits(299) == "299" && Digits(1234) == "1234"
  {
    assert DigitChar(1) == '1' && DigitChar(2) == '2' && DigitChar(3) == '3';
    assert DigitChar(4) == '4' && DigitChar(9) == '9';
    assert Digits(2) == "2";
    assert Digits(29) == Digits(2) + [DigitChar(9)] == "29";
    assert Digits(299) == Digits(29) + [DigitChar(9)] == "299";
    assert Digits(1) == "1";
    assert Digits(12) == Digits(1) + [DigitChar(2)] == "12";
    assert Digits(123) == Digits(12) + [DigitChar(3)] == "123";
    assert Digits(1234) == Digits(123) + [DigitChar(4)] == "1234";
  }

  /** An amount below a thousand units: no separator. */
  lemma SmallAmountExample()
    ensures NumberFormat2(29999) == "299.99"
  {
    DigitsExamples();
    assert DigitChar(9) == '9';
    assert TwoDigits(99) == "99";
    assert Group("299") == "299";
    FormatUnsignedParts(29999);
  }

  /** An amount above a thousand units: one `,` separator and a trailing zero decimal. */
  lemma ThousandsAmountExample()
    ensures NumberFormat2(123450) == "1,234.50"
  {
    DigitsExamples();
    assert DigitChar(5) == '5' && DigitChar(0) == '0';
    assert TwoDigits(50) == "50";
    assert Group("1234") == Group("1") + "," + "234" by {
      assert "1234"[..1] == "1";
    }
    assert Group("1234") == "1,234";
    FormatUnsignedParts(123450);
  }

  /** Where `ParseUnsigned` cuts a joined string: the whole part, the point, the two decimals. */
  lemma JoinedParts(g: string, tail: string)
    requires |tail| == 2
    ensures var s := g + "." + tail;
      |s| == |g| + 3 && s[|s| - 3] == '.' && s[..|s| - 3] == g && [s[|s| - 2], s[|s| - 1]] == tail
  {
    var s := g + "." + tail;
    assert s[..|s| - 3] == g;
  }

  /** Parsing a grouped whole part, `.` and two decimal digits. */
  lemma ParseUnsignedOf(g: string, tail: string)
    requires StripCommas(g) != [] && AllDigits(StripCommas(g))
    requires |tail| == 2 && AllDigits(tail)
    ensures ParseUnsigned(g + "." + tail) == Some(Value(StripCommas(g)) * 100 + Value(tail))
  {
    JoinedParts(g, tail);
  }

  lemma FormatUnsignedParts(cents: nat)
    ensures FormatUnsigned(cents) == Group(Digits(cents / 100)) + "." + TwoDigits(cents % 100)
  {
  }

  /** A string laid out as `FormatUnsigned` lays it out parses to the digits' value and the decimals. */
  lemma ParseFormatted(s: string, ds: string, k: nat)
    requires ds != [] && AllDigits(ds) && k < 100
    requires s == Group(ds) + "." + TwoDigits(k)
    ensures ParseUnsigned(s) == Some(Value(ds) * 100 + k)
  {
    StripGroup(ds);
    ParseUnsignedOf(Group(ds), TwoDigits(k));
  }

  lemma UnsignedRoundTrip(cents: nat)
    ensures ParseUnsigned(FormatUnsigned(cents)) == Some(cents)
  {
    FormatUnsignedParts(cents);
    ParseFormatted(FormatUnsigned(cents), Digits(cents / 100), cents % 100);
    ValueOfDigits(cents / 100);
  }

  lemma ParseAmountSigned(s: string)
    requires s != [] && s[0] != '-'
    ensures ParseAmount(s) == (match ParseUnsigned(s) case Some(v) => Some(v) case None => None)
    ensures ParseAmount("-" + s) == (match ParseUnsigned(s) case Some(v) => Some(0 - v) case None => None)
  {
    assert ("-" + s)[1..] == s;
  }

  /** The formatted amount determines the amount: parsing it gives the cents back. */
  lemma AmountRoundTrip(cents: int)
    ensures ParseAmount(NumberFormat2(cents)) == Some(cents)
  {
    var s := FormatUnsigned(Abs(cents));
    UnsignedRoundTrip(Abs(cents));
    ParseAmountSigned(s);
  }
}
