/**
 * The aggregation key of a worker (line 266): the interpolated string
 * `$"{BrandId}{ProductId}{StoreId}{yearWeek}"`. Integers are written as
 * int.ToString() writes them: decimal digits, most significant first,
 * with a leading minus sign for a negative number.
 */
module SummaryKeys {
  import opened Calendar
  import opened SalesTypes

  predicate IsDigit(c: char) {
    '0' <= c <= '9'
  }

  function DigitChar(n: int): char
    requires 0 <= n <= 9
  {
    (48 + n) as char
  }

  function DigitValue(c: char): int {
    c as int - 48
  }

  /** Decimal digits of a natural number: only digits, and no leading zero. */
  function NatToString(n: nat): (s: string)
    ensures |s| >= 1
    ensures forall i :: 0 <= i < |s| ==> IsDigit(s[i])
    ensures s[0] == '0' ==> n == 0
    decreases n
  {
    if n < 10 then [DigitChar(n)] else NatToString(n / 10) + [DigitChar(n % 10)]
  }

  function IntToString(n: int): string {
    if n < 0 then "-" + NatToString(-n) else NatToString(n)
  }

  /** Value of a string of decimal digits. */
  function DigitsValue(s: string): int
    decreases |s|
  {
    if s == [] then 0 else DigitsValue(s[..|s| - 1]) * 10 + DigitValue(s[|s| - 1])
  }

  /** int.Parse of the strings that IntToString produces. */
  function ParseInt(s: string): int {
    if |s| > 0 && s[0] == '-' then -DigitsValue(s[1..]) else DigitsValue(s)
  }

  lemma {:induction false} NatToStringRoundTrip(n: nat)
    ensures DigitsValue(NatToString(n)) == n
    decreases n
  {
    if n >= 10 {
      var s := NatToString(n / 10);
      NatToStringRoundTrip(n / 10);
      assert (s + [DigitChar(n % 10)])[..|s|] == s;
    }
  }

  lemma IntToStringRoundTrip(n: int)
    ensures ParseInt(IntToString(n)) == n
  {
    if n < 0 {
      NatToStringRoundTrip(-n);
      assert ("-" + NatToString(-n))[1..] == NatToString(-n);
    } else {
      NatToStringRoundTrip(n);
    }
  }

  /** Distinct integers are written as distinct strings. */
  lemma IntToStringInjective(a: int, b: int)
    ensures IntToString(a) == IntToString(b) <==> a == b
  {
    IntToStringRoundTrip(a);
    IntToStringRoundTrip(b);
  }

  function Pow10(k: nat): nat {
    if k == 0 then 1 else 10 * Pow10(k - 1)
  }

  /** A number from 10^k up to 10^(k+1) - 1 has k + 1 digits. */
  lemma {:induction false} NatToStringLength(n: nat, k: nat)
    requires Pow10(k) <= n < Pow10(k + 1)
    ensures |NatToString(n)| == k + 1
    decreases k
  {
    if k > 0 {
      NatToStringLength(n / 10, k - 1);
    }
  }

  /** The key of line 266: brand, product, store and year-week one after the other, with no separator. */
  function SummaryKey(d: Dto, yearWeek: int): string {
    d.brandId + IntToString(d.productId) + d.storeId + IntToString(yearWeek)
  }

  /** The key of a record as its worker computes it. */
  function KeyOf(d: Dto, nowMonth: int): string {
    SummaryKey(d, YearWeek(d.salesDate, nowMonth))
  }

  /** Without separators, distinct groups can share a key: brand A, product 1, store 2B and brand A, product 12, store B. */
  lemma KeyCollision(date: CalendarDate, yearWeek: int)
    ensures var d1 := Dto(1, "2B", "A", 0, date, 0.0, 0);
            var d2 := Dto(12, "B", "A", 0, date, 0.0, 0);
            d1.storeId != d2.storeId && d1.productId != d2.productId &&
            SummaryKey(d1, yearWeek) == SummaryKey(d2, yearWeek)
  {
    assert IntToString(1) == "1";
    assert IntToString(12) == "12";
  }

  /**
   * When brand codes have one length, store codes have one length and the
   * year-week numbers have one number of digits, the key determines brand,
   * product, store and year-week.
   */
  lemma {:induction false} SummaryKeyInjective(d1: Dto, yearWeek1: int, d2: Dto, yearWeek2: int)
    requires |d1.brandId| == |d2.brandId| && |d1.storeId| == |d2.storeId|
    requires |IntToString(yearWeek1)| == |IntToString(yearWeek2)|
    requires SummaryKey(d1, yearWeek1) == SummaryKey(d2, yearWeek2)
    ensures d1.brandId == d2.brandId && d1.productId == d2.productId
    ensures d1.storeId == d2.storeId && yearWeek1 == yearWeek2
  {
    var p1, p2 := IntToString(d1.productId), IntToString(d2.productId);
    var y1, y2 := IntToString(yearWeek1), IntToString(yearWeek2);
    var bp1, bp2 := d1.brandId + p1, d2.brandId + p2;
    assert |p1| == |p2| by {
      assert |SummaryKey(d1, yearWeek1)| == |d1.brandId| + |p1| + |d1.storeId| + |y1|;
      assert |SummaryKey(d2, yearWeek2)| == |d2.brandId| + |p2| + |d2.storeId| + |y2|;
    }
    ConcatSplit(bp1 + d1.storeId, y1, bp2 + d2.storeId, y2);
    ConcatSplit(bp1, d1.storeId, bp2, d2.storeId);
    ConcatSplit(d1.brandId, p1, d2.brandId, p2);
    IntToStringInjective(d1.productId, d2.productId);
    IntToStringInjective(yearWeek1, yearWeek2);
  }

  /** Two concatenations with equally long first parts are equal exactly when their parts are. */
  lemma ConcatSplit(a1: string, b1: string, a2: string, b2: string)
    requires |a1| == |a2| && a1 + b1 == a2 + b2
    ensures a1 == a2 && b1 == b2
  {
    assert a1 == (a1 + b1)[..|a1|];
    assert a2 == (a2 + b2)[..|a2|];
    assert b1 == (a1 + b1)[|a1|..];
    assert b2 == (a2 + b2)[|a2|..];
  }

  /** Dates after year 1000 have six-digit year-week numbers. */
  lemma YearWeekWidth(date: CalendarDate, nowMonth: int)
    requires date.year > 1000
    ensures |IntToString(YearWeek(date, nowMonth))| == 6
  {
    assert Pow10(5) == 100000 && Pow10(6) == 1000000;
    NatToStringLength(YearWeek(date, nowMonth), 5);
  }

  /**
   * The record codes of the sales source are five characters long, so for
   * dates after year 1000 two records share a key exactly when they agree on
   * brand, product, store and year-week.
   */
  lemma KeyOfInjective(d1: Dto, d2: Dto, nowMonth: int)
    requires |d1.brandId| == |d2.brandId| == 5 && |d1.storeId| == |d2.storeId| == 5
    requires d1.salesDate.year > 1000 && d2.salesDate.year > 1000
    ensures KeyOf(d1, nowMonth) == KeyOf(d2, nowMonth) <==>
      && d1.brandId == d2.brandId && d1.productId == d2.productId && d1.storeId == d2.storeId
      && YearWeek(d1.salesDate, nowMonth) == YearWeek(d2.salesDate, nowMonth)
  {
    YearWeekWidth(d1.salesDate, nowMonth);
    YearWeekWidth(d2.salesDate, nowMonth);
    if KeyOf(d1, nowMonth) == KeyOf(d2, nowMonth) {
      SummaryKeyInjective(d1, YearWeek(d1.salesDate, nowMonth), d2, YearWeek(d2.salesDate, nowMonth));
    }
  }
}
