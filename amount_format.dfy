/** Whole-Rupiah amounts as the summary sentence prints them (the `,.0f`
    format of an integer): decimal digits in groups of three separated by
    commas, with a leading minus sign for a negative value; and a reader that
    recovers the amount from the front of a string. */
module AmountFormat {

  datatype Option<T> = None | Some(value: T)

  predicate IsDigit(c: char) {
    '0' <= c <= '9'
  }

  function DigitValue(c: char): int {
    c as int - '0' as int
  }

  function DigitChar(d: nat): (c: char)
    requires d < 10
    ensures IsDigit(c) && DigitValue(c) == d
  {
    ('0' as int + d) as char
  }

  predicate AllDigits(s: string) {
    forall i :: 0 <= i < |s| ==> IsDigit(s[i])
  }

  /** Digits and commas only, every comma followed by a digit: the shape of a
      grouped number, which therefore neither starts a comma-space separator
      nor ends in a comma. */
  predicate Separated(s: string) {
    forall i {:trigger s[i]} :: 0 <= i < |s| ==> IsDigit(s[i]) || (s[i] == ',' && i + 1 < |s| && IsDigit(s[i + 1]))
  }

  /** The decimal digits of n, most significant first, without leading zeros. */
  function Digits(n: nat): (s: string)
    ensures |s| >= 1 && AllDigits(s)
  {
    if n < 10 then [DigitChar(n)] else Digits(n / 10) + [DigitChar(n % 10)]
  }

  /** The three digits of n < 1000, with leading zeros. */
  function Pad3(n: nat): (s: string)
    requires n < 1000
    ensures |s| == 3 && AllDigits(s)
  {
    [DigitChar(n / 100), DigitChar(n / 10 % 10), DigitChar(n % 10)]
  }

  /** The digits of n in groups of three, separated by commas. */
  function Grouped(n: nat): (s: string)
    ensures |s| >= 1 && IsDigit(s[0])
  {
    if n < 1000 then Digits(n) else Grouped(n / 1000) + "," + Pad3(n % 1000)
  }

  /** An amount as the summary prints it. */
  function FormatAmount(n: int): (s: string)
    ensures |s| >= 1
    ensures s[0] == '-' <==> n < 0
  {
    if n < 0 then "-" + Grouped(-n) else Grouped(n)
  }

  /** The value of a string of decimal digits (0 for the empty string). */
  function DigitsValue(s: string): int
    decreases |s|
  {
    if s == [] then 0 else DigitsValue(s[..|s| - 1]) * 10 + DigitValue(s[|s| - 1])
  }

  /** The string with its commas removed. */
  function StripCommas(s: string): (r: string)
    ensures |r| <= |s|
  {
    if s == [] then [] else (if s[0] == ',' then [] else [s[0]]) + StripCommas(s[1..])
  }

  /** The length of the longest prefix of s that has the shape Separated. */
  function NumberSpan(s: string): (k: nat)
    ensures k <= |s|
  {
    if s == [] then 0
    else if IsDigit(s[0]) || (s[0] == ',' && |s| > 1 && IsDigit(s[1])) then 1 + NumberSpan(s[1..])
    else 0
  }

  /** Reads an amount at the front of s: an optional minus sign, then grouped
      digits. Gives the amount and what follows it, or None when s does not
      start with a number. */
  function ReadAmount(s: string): Option<(int, string)> {
    var negative := |s| > 0 && s[0] == '-';
    var body := if negative then s[1..] else s;
    var k := NumberSpan(body);
    if k == 0 then None
    else
      var v := DigitsValue(StripCommas(body[..k]));
      Some((if negative then -v else v, body[k..]))
  }

  /** What may follow a number without being read as part of it. */
  predicate Stops(rest: string) {
    rest == [] || (!IsDigit(rest[0]) && !(rest[0] == ',' && |rest| > 1 && IsDigit(rest[1])))
  }

  lemma {:induction false} DigitsValueOfDigits(n: nat)
    ensures DigitsValue(Digits(n)) == n
  {
    if n >= 10 {
      DigitsValueOfDigits(n / 10);
      var s := Digits(n);
      assert s[..|s| - 1] == Digits(n / 10);
    }
  }

  /** Dividing 10 * a + d by ten splits off the digit d. */
  lemma DivTen(a: nat, d: nat)
    requires d < 10
    ensures (10 * a + d) / 10 == a && (10 * a + d) % 10 == d
  {
  }

  /** The last three digits of n >= 1000 are its low group. */
  lemma DigitsSplit(n: nat)
    requires n >= 1000
    ensures Digits(n) == Digits(n / 1000) + Pad3(n % 1000)
  {
    var q, r := n / 1000, n % 1000;
    var d2, d1, d0 := r / 100, r / 10 % 10, r % 10;
    assert r == 100 * d2 + 10 * d1 + d0;
    DivTen(100 * q + 10 * d2 + d1, d0);
    assert n == 10 * (100 * q + 10 * d2 + d1) + d0;
    DivTen(10 * q + d2, d1);
    DivTen(q, d2);
    calc {
      Digits(n);
      Digits(n / 10) + [DigitChar(d0)];
      Digits(n / 10 / 10) + [DigitChar(d1)] + [DigitChar(d0)];
      Digits(q) + [DigitChar(d2)] + [DigitChar(d1)] + [DigitChar(d0)];
      Digits(q) + Pad3(r);
    }
  }

  lemma {:induction false} StripCommasAppend(a: string, b: string)
    ensures StripCommas(a + b) == StripCommas(a) + StripCommas(b)
    decreases |a|
  {
    if a == [] {
      assert a + b == b;
    } else {
      assert (a + b)[1..] == a[1..] + b;
      StripCommasAppend(a[1..], b);
    }
  }

  lemma {:induction false} StripCommasOfDigits(s: string)
    requires AllDigits(s)
    ensures StripCommas(s) == s
    decreases |s|
  {
    if s != [] {
      StripCommasOfDigits(s[1..]);
    }
  }

  /** Removing the separators from the grouped form gives the plain digits. */
  lemma {:induction false} StripCommasGrouped(n: nat)
    ensures StripCommas(Grouped(n)) == Digits(n)
  {
    if n < 1000 {
      StripCommasOfDigits(Digits(n));
    } else {
      StripCommasGrouped(n / 1000);
      var g, p := Grouped(n / 1000), Pad3(n % 1000);
      StripCommasAppend(g, "," + p);
      StripCommasAppend(",", p);
      StripCommasOfDigits(p);
      assert g + "," + p == g + ("," + p);
      DigitsSplit(n);
    }
  }

  lemma SeparatedJoin(a: string, b: string)
    requires Separated(a) && Separated(b) && |b| >= 1 && IsDigit(b[0])
    ensures Separated(a + "," + b)
  {
    var s := a + "," + b;
    forall i | 0 <= i < |s|
      ensures IsDigit(s[i]) || (s[i] == ',' && i + 1 < |s| && IsDigit(s[i + 1]))
    {
      if i < |a| {
        assert s[i] == a[i];
        if !IsDigit(a[i]) { assert s[i + 1] == a[i + 1]; }
      } else if i == |a| {
        assert s[i + 1] == b[0];
      } else {
        assert s[i] == b[i - |a| - 1];
        if !IsDigit(s[i]) { assert s[i + 1] == b[i - |a|]; }
      }
    }
  }

  lemma {:induction false} GroupedSeparated(n: nat)
    ensures Separated(Grouped(n))
  {
    if n >= 1000 {
      GroupedSeparated(n / 1000);
      SeparatedJoin(Grouped(n / 1000), Pad3(n % 1000));
    }
  }

  /** A number followed by a stopping character is read up to its end. */
  lemma {:induction false} SpanOfSeparated(x: string, rest: string)
    requires Separated(x) && Stops(rest)
    ensures NumberSpan(x + rest) == |x|
    decreases |x|
  {
    if x == [] {
      assert x + rest == rest;
    } else {
      assert (x + rest)[1..] == x[1..] + rest;
      if x[0] == ',' {
        assert (x + rest)[1] == x[1];
      }
      var y := x[1..];
      forall i | 0 <= i < |y|
        ensures IsDigit(y[i]) || (y[i] == ',' && i + 1 < |y| && IsDigit(y[i + 1]))
      {
        assert y[i] == x[i + 1];
        if i + 1 < |y| { assert y[i + 1] == x[i + 2]; }
      }
      SpanOfSeparated(y, rest);
    }
  }

  /** The grouped digits of m followed by a stopping text: the number read
      is exactly the grouped digits, worth m. */
  lemma ReadGrouped(m: nat, rest: string)
    requires Stops(rest)
    ensures NumberSpan(Grouped(m) + rest) == |Grouped(m)|
    ensures DigitsValue(StripCommas((Grouped(m) + rest)[..|Grouped(m)|])) == m
    ensures (Grouped(m) + rest)[|Grouped(m)|..] == rest
  {
    var g := Grouped(m);
    GroupedSeparated(m);
    SpanOfSeparated(g, rest);
    StripCommasGrouped(m);
    DigitsValueOfDigits(m);
    assert (g + rest)[..|g|] == g;
  }

  /** Reading a printed amount gives back the amount and the text after it. */
  lemma ReadFormatted(n: int, rest: string)
    requires Stops(rest)
    ensures ReadAmount(FormatAmount(n) + rest) == Some((n, rest))
  {
    var s := FormatAmount(n) + rest;
    var m: nat := if n < 0 then -n else n;
    var g := Grouped(m);
    ReadGrouped(m, rest);
    var body := if n < 0 then s[1..] else s;
    assert body == g + rest;
    assert (|s| > 0 && s[0] == '-') == (n < 0);
    var k := NumberSpan(body);
    assert k == |g|;
    assert DigitsValue(StripCommas(body[..k])) == m;
    assert body[k..] == rest;
  }
}
