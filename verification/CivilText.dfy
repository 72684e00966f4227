/**
 The text of a timestamp, character by character, and which texts are read back.
 */
module CivilText {
  import opened Wrappers
  import opened Civil

  /** Digits in the positions of the usual form, and its separators between them. */
  ghost predicate UsualForm(t: string) {
    && |t| == 20
    && t[4] == '-' && t[7] == '-' && t[10] == 'T' && t[13] == ':' && t[16] == ':' && t[19] == 'Z'
    && forall i :: 0 <= i < 20 && i !in {4, 7, 10, 13, 16, 19} ==> '0' <= t[i] <= '9'
  }

  /** The value of a digit. */
  function Value(c: char): int {
    c as int - '0' as int
  }

  function Two(t: string, i: nat): int
    requires i + 1 < |t|
  {
    10 * Value(t[i]) + Value(t[i + 1])
  }

  function Four(t: string, i: nat): int
    requires i + 3 < |t|
  {
    100 * Two(t, i) + Two(t, i + 2)
  }

  lemma {:induction false} PaddedTwo(n: nat)
    requires n < 100
    ensures |Padded(n, 2)| == 2 && IsDigit(Padded(n, 2)[0]) && IsDigit(Padded(n, 2)[1])
    ensures Two(Padded(n, 2), 0) == n
  {
    if n < 10 {
      assert Decimal(n) == [DigitOf(n)];
      assert Zeros(1) == "0" + Zeros(0) == "0";
    } else {
      assert Decimal(n / 10) == [DigitOf(n / 10)];
      assert Decimal(n) == [DigitOf(n / 10)] + [DigitOf(n % 10)];
      assert Zeros(0) == "";
    }
  }

  lemma {:induction false} DecimalSplit(n: nat)
    requires 1000 <= n < 10000
    ensures Decimal(n) == [DigitOf(n / 1000), DigitOf(n / 100 % 10), DigitOf(n / 10 % 10), DigitOf(n % 10)]
  {
    assert Decimal(n / 1000) == [DigitOf(n / 1000)];
    assert n / 100 / 10 == n / 1000 && n / 10 / 10 == n / 100;
    assert Decimal(n / 100) == Decimal(n / 1000) + [DigitOf(n / 100 % 10)];
    assert Decimal(n / 10) == Decimal(n / 100) + [DigitOf(n / 10 % 10)];
    assert Decimal(n) == Decimal(n / 10) + [DigitOf(n % 10)];
  }

  lemma {:induction false} FourParts(n: nat)
    requires n < 10000
    ensures n / 1000 < 10
    ensures 100 * (10 * (n / 1000) + n / 100 % 10) + (10 * (n / 10 % 10) + n % 10) == n
  {
    var a, b, c := n / 1000, n / 100, n / 10;
    assert b / 10 == a && c / 10 == b;
    assert n == 10 * c + n % 10 && c == 10 * b + c % 10 && b == 10 * a + b % 10;
  }

  lemma {:induction false} PaddedFour(n: nat)
    requires 1000 <= n < 10000
    ensures |Padded(n, 4)| == 4 && forall i :: 0 <= i < 4 ==> IsDigit(Padded(n, 4)[i])
    ensures Four(Padded(n, 4), 0) == n
  {
    DecimalSplit(n);
    FourParts(n);
    assert Zeros(0) == "";
    hide Decimal, Zeros;
    assert Padded(n, 4) == [DigitOf(n / 1000), DigitOf(n / 100 % 10), DigitOf(n / 10 % 10), DigitOf(n % 10)];
    DigitValue(n / 1000);
    DigitValue(n / 100 % 10);
    DigitValue(n / 10 % 10);
    DigitValue(n % 10);
    hide DigitOf, IsDigit, Value, Padded;
  }

  lemma {:induction false} DigitValue(n: nat)
    requires n < 10
    ensures IsDigit(DigitOf(n)) && Value(DigitOf(n)) == n
  {
  }

  lemma {:induction false} LayoutIs(y: string, mo: string, d: string, h: string, mi: string, s: string)
    requires |y| == 4 && |mo| == |d| == |h| == |mi| == |s| == 2
    requires forall i :: 0 <= i < 4 ==> IsDigit(y[i])
    requires IsDigit(mo[0]) && IsDigit(mo[1]) && IsDigit(d[0]) && IsDigit(d[1]) && IsDigit(h[0]) && IsDigit(h[1])
    requires IsDigit(mi[0]) && IsDigit(mi[1]) && IsDigit(s[0]) && IsDigit(s[1])
    ensures var t := Layout(y, mo, d, h, mi, s);
      && UsualForm(t)
      && Four(t, 0) == Four(y, 0) && Two(t, 5) == Two(mo, 0) && Two(t, 8) == Two(d, 0)
      && Two(t, 11) == Two(h, 0) && Two(t, 14) == Two(mi, 0) && Two(t, 17) == Two(s, 0)
  {
    var t := Layout(y, mo, d, h, mi, s);
    assert t == [y[0], y[1], y[2], y[3], '-', mo[0], mo[1], '-', d[0], d[1], 'T', h[0], h[1], ':', mi[0], mi[1], ':',
      s[0], s[1], 'Z'];
  }

  /** The date and time of day a text of the usual form names. */
  function DateNamed(t: string): Date
    requires |t| == 20
  {
    Date(Four(t, 0), Two(t, 5), Two(t, 8))
  }

  function SecondsNamed(t: string): int
    requires |t| == 20
  {
    3600 * Two(t, 11) + 60 * Two(t, 14) + Two(t, 17)
  }

  lemma {:induction false} ClockSplit(rest: nat)
    requires rest < MS_PER_DAY
    ensures rest / 3600000 < 24 && rest % 3600000 / 60000 < 60 && rest % 60000 / 1000 < 60
    ensures 3600 * (rest / 3600000) + 60 * (rest % 3600000 / 60000) + rest % 60000 / 1000 == rest / 1000
  {
    var h, r := rest / 3600000, rest % 3600000;
    var m, q := r / 60000, r % 60000;
    assert rest == 3600000 * h + 60000 * m + q;
    assert rest % 60000 == q;
    assert q == 1000 * (q / 1000) + q % 1000;
    assert rest == 1000 * (3600 * h + 60 * m + q / 1000) + q % 1000;
  }

  /**
   Up to the year 10000 an instant is printed in the usual form: the date whose day number is that of the instant's
   day, and the hour, minute and second of its time of day.
   */
  lemma {:induction false} IsoForm(instant: int)
    requires instant < YEAR_10000
    ensures var t := Iso8601FromMs(instant);
      var ms := Max(instant, 0);
      && UsualForm(t)
      && ValidDate(DateNamed(t)) && DaysFromCivil(DateNamed(t)) == Some(ms / 86400000)
      && Two(t, 11) < 24 && Two(t, 14) < 60 && Two(t, 17) < 60
      && SecondsNamed(t) == ms % 86400000 / 1000
  {
    var ms := Max(instant, 0);
    var days := Quot(ms, MS_PER_DAY);
    var date := CivilFromDays(days);
    var rest := ms % MS_PER_DAY;
    DaysInverse(days);
    CivilYear(days);
    YearBefore10000(ms);
    ClockSplit(rest);
    PaddedFour(date.year);
    PaddedTwo(date.month);
    PaddedTwo(date.day);
    PaddedTwo(rest / 3600000);
    PaddedTwo(rest % 3600000 / 60000);
    PaddedTwo(rest % 60000 / 1000);
    hide CivilFromDays, DaysFromCivil, Padded, Layout, UsualForm, Two, Four, IsDigit;
    LayoutIs(Padded(date.year, 4), Padded(date.month, 2), Padded(date.day, 2), Padded(rest / 3600000, 2),
      Padded(rest % 3600000 / 60000, 2), Padded(rest % 60000 / 1000, 2));
  }

  // ---------------------------------------------------------------------
  // Which texts are read
  // ---------------------------------------------------------------------

  /** A sign or none, and digits only, one at least. */
  predicate IsNumber(s: string) {
    var body := if s != "" && (s[0] == '+' || s[0] == '-') then s[1..] else s;
    body != "" && AllDigits(body)
  }

  predicate AllDigits(s: string) {
    forall i :: 0 <= i < |s| ==> '0' <= s[i] <= '9'
  }

  lemma {:induction false} DigitsSome(s: string)
    ensures Digits(s).Some? <==> AllDigits(s)
  {
    if s != "" {
      DigitsSome(s[..|s| - 1]);
    }
  }

  lemma {:induction false} NumberSome(s: string)
    ensures Number(s).Some? <==> IsNumber(s)
  {
    if s != "" && (s[0] == '+' || s[0] == '-') {
      DigitsSome(s[1..]);
    } else {
      DigitsSome(s);
    }
    hide Digits, AllDigits;
  }

  /** Dates that are no dates count on from the first of their month. */
  lemma {:induction false} DaysFromFirst(year: int, month: int, day: int)
    requires 1 <= month <= 12
    ensures ValidDate(Date(year, month, 1)) && DaysFromCivil(Date(year, month, 1)).Some?
    ensures DaysFromCivil(Date(year, month, day))
      == if 1 <= day <= 31 then Some(DaysFromCivil(Date(year, month, 1)).value + day - 1) else None
  {
  }

  /** A text is read if it is long enough, its six fields are numbers, and its month and day are in range. */
  lemma {:induction false} ParseMeaning(text: string)
    ensures ParseIso8601Ms(text).Some? <==>
      && |text| >= 20
      && IsNumber(text[0..4]) && IsNumber(text[5..7]) && IsNumber(text[8..10])
      && IsNumber(text[11..13]) && IsNumber(text[14..16]) && IsNumber(text[17..19])
      && 1 <= Number(text[5..7]).GetOr(0) <= 12 && 1 <= Number(text[8..10]).GetOr(0) <= 31
    ensures ParseIso8601Ms(text).Some? ==>
      var first := Date(Number(text[0..4]).GetOr(0), Number(text[5..7]).GetOr(0), 1);
      && ValidDate(first) && DaysFromCivil(first).Some?
      && ParseIso8601Ms(text).value
        == (DaysFromCivil(first).value + Number(text[8..10]).GetOr(0) - 1) * 86400000
           + Number(text[11..13]).GetOr(0) * 3600000 + Number(text[14..16]).GetOr(0) * 60000
           + Number(text[17..19]).GetOr(0) * 1000
  {
    if |text| >= 20 {
      NumberSome(text[0..4]);
      NumberSome(text[5..7]);
      NumberSome(text[8..10]);
      NumberSome(text[11..13]);
      NumberSome(text[14..16]);
      NumberSome(text[17..19]);
      var month := Number(text[5..7]).GetOr(0);
      if 1 <= month <= 12 {
        DaysFromFirst(Number(text[0..4]).GetOr(0), month, Number(text[8..10]).GetOr(0));
      }
      hide Number, IsNumber;
    }
  }
}
