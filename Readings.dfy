/** How the field texts that occur in the source's tests read: stripped keys
    and the numbers `_to_float` makes of short digit strings and decimals, and
    how the columns of a handful of records are read off cell by cell. */
module Readings {
  import opened Coercion
  import opened Rounding
  import opened Records

  lemma Digits1(s: string)
    requires |s| == 1 && AllDigits(s)
    ensures DigitsValue(s) == DigitValue(s[0])
  {
    assert PrefixValue(s, 0) == 0;
  }

  lemma Digits2(s: string)
    requires |s| == 2 && AllDigits(s)
    ensures DigitsValue(s) == 10 * DigitValue(s[0]) + DigitValue(s[1])
  {
    assert PrefixValue(s, 1) == DigitValue(s[0]);
  }

  lemma Digits3(s: string)
    requires |s| == 3 && AllDigits(s)
    ensures DigitsValue(s) == 100 * DigitValue(s[0]) + 10 * DigitValue(s[1]) + DigitValue(s[2])
  {
    assert PrefixValue(s, 1) == DigitValue(s[0]);
    assert PrefixValue(s, 2) == 10 * DigitValue(s[0]) + DigitValue(s[1]);
  }

  lemma Digits5(s: string)
    requires |s| == 5 && AllDigits(s)
    ensures DigitsValue(s)
         == 10000 * DigitValue(s[0]) + 1000 * DigitValue(s[1]) + 100 * DigitValue(s[2]) + 10 * DigitValue(s[3]) + DigitValue(s[4])
  {
    assert PrefixValue(s, 1) == DigitValue(s[0]);
    assert PrefixValue(s, 2) == 10 * DigitValue(s[0]) + DigitValue(s[1]);
    assert PrefixValue(s, 3) == 100 * DigitValue(s[0]) + 10 * DigitValue(s[1]) + DigitValue(s[2]);
    assert PrefixValue(s, 4) == 1000 * DigitValue(s[0]) + 100 * DigitValue(s[1]) + 10 * DigitValue(s[2]) + DigitValue(s[3]);
  }

  /** A bare run of digits reads as its value. */
  lemma WholeText(x: string)
    requires x != [] && AllDigits(x)
    ensures ToFloat(x) == DigitsValue(x) as real
  {
    assert "" + x + "" == x;
    ToFloatWhole(x, "", x, "");
  }

  /** `"7"` reads as 7. */
  lemma Units(x: string)
    requires |x| == 1 && IsDigit(x[0])
    ensures ToFloat(x) == DigitValue(x[0]) as real
  {
    Digits1(x);
    WholeText(x);
  }

  /** `"40"` reads as 40. */
  lemma Tens(x: string)
    requires |x| == 2 && IsDigit(x[0]) && IsDigit(x[1])
    ensures ToFloat(x) == (10 * DigitValue(x[0]) + DigitValue(x[1])) as real
  {
    Digits2(x);
    WholeText(x);
  }

  /** `"300"` reads as 300. */
  lemma Hundreds(x: string)
    requires |x| == 3 && IsDigit(x[0]) && IsDigit(x[1]) && IsDigit(x[2])
    ensures ToFloat(x) == (100 * DigitValue(x[0]) + 10 * DigitValue(x[1]) + DigitValue(x[2])) as real
  {
    Digits3(x);
    WholeText(x);
  }

  lemma PointSplit(x: string, p: nat)
    requires 0 < p < |x| && x[p] == '.'
    ensures x == "" + (x[..p] + "." + x[p + 1..]) + ""
  {
    assert x == x[..p] + [x[p]] + x[p + 1..];
  }

  lemma PointText(x: string, whole: string, fraction: string)
    requires whole != [] && AllDigits(whole) && AllDigits(fraction)
    requires x == "" + (whole + "." + fraction) + ""
    ensures ToFloat(x) == DigitsValue(whole) as real + Unshift(DigitsValue(fraction) as real, |fraction|)
  {
    ToFloatFraction(x, "", whole, fraction, "");
  }

  /** A bare decimal with its point at `p` reads as the digits before the
      point plus the digits after it scaled down by their number. */
  lemma DecimalText(x: string, p: nat)
    requires 0 < p < |x| && x[p] == '.' && AllDigits(x[..p]) && AllDigits(x[p + 1..])
    ensures ToFloat(x) == DigitsValue(x[..p]) as real + Unshift(DigitsValue(x[p + 1..]) as real, |x| - p - 1)
  {
    var whole, fraction := x[..p], x[p + 1..];
    assert whole != [];
    assert |fraction| == |x| - p - 1;
    PointSplit(x, p);
    PointText(x, whole, fraction);
  }

  /** `"0.2"` reads as 0.2. */
  lemma Tenths(x: string)
    requires |x| == 3 && IsDigit(x[0]) && x[1] == '.' && IsDigit(x[2])
    ensures ToFloat(x) == DigitValue(x[0]) as real + DigitValue(x[2]) as real / 10.0
  {
    DecimalText(x, 1);
    Digits1(x[..1]);
    Digits1(x[2..]);
    assert Unshift(DigitValue(x[2]) as real, 1) == DigitValue(x[2]) as real / 10.0;
  }

  // The whole numbers and discounts the tests use, one text each.

  lemma Reads0(x: string)
    requires x == "0"
    ensures ToFloat(x) == 0.0
  {
    Units(x);
  }

  lemma Reads5(x: string)
    requires x == "5"
    ensures ToFloat(x) == 5.0
  {
    Units(x);
  }

  lemma Reads10(x: string)
    requires x == "10"
    ensures ToFloat(x) == 10.0
  {
    Tens(x);
  }

  lemma Reads20(x: string)
    requires x == "20"
    ensures ToFloat(x) == 20.0
  {
    Tens(x);
  }

  lemma Reads30(x: string)
    requires x == "30"
    ensures ToFloat(x) == 30.0
  {
    Tens(x);
  }

  lemma Reads40(x: string)
    requires x == "40"
    ensures ToFloat(x) == 40.0
  {
    Tens(x);
  }

  lemma Reads50(x: string)
    requires x == "50"
    ensures ToFloat(x) == 50.0
  {
    Tens(x);
  }

  lemma Reads100(x: string)
    requires x == "100"
    ensures ToFloat(x) == 100.0
  {
    Hundreds(x);
  }

  lemma Reads200(x: string)
    requires x == "200"
    ensures ToFloat(x) == 200.0
  {
    Hundreds(x);
  }

  lemma Reads250(x: string)
    requires x == "250"
    ensures ToFloat(x) == 250.0
  {
    Hundreds(x);
  }

  lemma Reads300(x: string)
    requires x == "300"
    ensures ToFloat(x) == 300.0
  {
    Hundreds(x);
  }

  lemma ReadsNoDiscount(x: string)
    requires x == "0.0"
    ensures ToFloat(x) == 0.0
  {
    Tenths(x);
  }

  lemma ReadsDiscount1(x: string)
    requires x == "0.1"
    ensures ToFloat(x) == 0.1
  {
    Tenths(x);
  }

  lemma ReadsDiscount2(x: string)
    requires x == "0.2"
    ensures ToFloat(x) == 0.2
  {
    Tenths(x);
  }

  lemma ReadsDiscount3(x: string)
    requires x == "0.3"
    ensures ToFloat(x) == 0.3
  {
    Tenths(x);
  }

  /** `"25.0"` reads as 25. */
  lemma FractionReads(x: string)
    requires x == "25.0"
    ensures ToFloat(x) == 25.0
  {
    DecimalText(x, 2);
    Digits2(x[..2]);
    Digits1(x[3..]);
    assert Unshift(0.0, 1) == 0.0;
  }

  /** `"33.335"` reads as exactly 33.335: no binary approximation. */
  lemma SmallSalesReads(x: string)
    requires x == "33.335"
    ensures ToFloat(x) == 33.335
  {
    DecimalText(x, 2);
    Digits2(x[..2]);
    Digits3(x[3..]);
    assert Unshift(335.0, 3) == 0.335;
  }

  /** `"66.665"` reads as exactly 66.665. */
  lemma LargeSalesReads(x: string)
    requires x == "66.665"
    ensures ToFloat(x) == 66.665
  {
    DecimalText(x, 2);
    Digits2(x[..2]);
    Digits3(x[3..]);
    assert Unshift(665.0, 3) == 0.665;
  }

  /** `"0.12345"` reads as exactly 0.12345. */
  lemma LowDiscountReads(x: string)
    requires x == "0.12345"
    ensures ToFloat(x) == 0.12345
  {
    DecimalText(x, 1);
    Digits1(x[..1]);
    Digits5(x[2..]);
    assert Unshift(12345.0, 5) == 0.12345;
  }

  /** `"0.12355"` reads as exactly 0.12355. */
  lemma HighDiscountReads(x: string)
    requires x == "0.12355"
    ensures ToFloat(x) == 0.12355
  {
    DecimalText(x, 1);
    Digits1(x[..1]);
    Digits5(x[2..]);
    assert Unshift(12355.0, 5) == 0.12355;
  }

  /** `" 25 "` reads as 25: the padding is stripped. */
  lemma PaddedWholeReads(x: string)
    requires x == " 25 "
    ensures ToFloat(x) == 25.0
  {
    var digits := x[1..3];
    Digits2(digits);
    assert x == " " + digits + " ";
    ToFloatWhole(x, " ", digits, " ");
  }

  // Reading the columns of one, two or three records cell by cell.

  lemma KeyColumn1(data: seq<Record>, field: string, k0: string)
    requires |data| == 1
    requires KeyOf(data[0], field) == k0
    ensures KeyColumn(data, field) == [k0]
  {
    var ks := KeyColumn(data, field);
    assert ks == [ks[0]];
  }

  lemma KeyColumn2(data: seq<Record>, field: string, k0: string, k1: string)
    requires |data| == 2
    requires KeyOf(data[0], field) == k0 && KeyOf(data[1], field) == k1
    ensures KeyColumn(data, field) == [k0, k1]
  {
    var ks := KeyColumn(data, field);
    assert ks == [ks[0], ks[1]];
  }

  lemma KeyColumn3(data: seq<Record>, field: string, k0: string, k1: string, k2: string)
    requires |data| == 3
    requires KeyOf(data[0], field) == k0 && KeyOf(data[1], field) == k1 && KeyOf(data[2], field) == k2
    ensures KeyColumn(data, field) == [k0, k1, k2]
  {
    var ks := KeyColumn(data, field);
    assert ks[0] == k0 && ks[1] == k1 && ks[2] == k2;
    Three(ks);
  }

  lemma NumberColumn1(data: seq<Record>, field: string, v0: real)
    requires |data| == 1
    requires NumberOf(data[0], field) == v0
    ensures NumberColumn(data, field) == [v0]
  {
    var vs := NumberColumn(data, field);
    assert vs == [vs[0]];
  }

  lemma NumberColumn2(data: seq<Record>, field: string, v0: real, v1: real)
    requires |data| == 2
    requires NumberOf(data[0], field) == v0 && NumberOf(data[1], field) == v1
    ensures NumberColumn(data, field) == [v0, v1]
  {
    var vs := NumberColumn(data, field);
    assert vs == [vs[0], vs[1]];
  }

  lemma NumberColumn3(data: seq<Record>, field: string, v0: real, v1: real, v2: real)
    requires |data| == 3
    requires NumberOf(data[0], field) == v0 && NumberOf(data[1], field) == v1 && NumberOf(data[2], field) == v2
    ensures NumberColumn(data, field) == [v0, v1, v2]
  {
    var vs := NumberColumn(data, field);
    assert vs[0] == v0 && vs[1] == v1 && vs[2] == v2;
    Three(vs);
  }

  /** A sequence of three elements is the display of its elements. */
  lemma Three<T>(s: seq<T>)
    requires |s| == 3
    ensures s == [s[0], s[1], s[2]]
  {
  }
}
