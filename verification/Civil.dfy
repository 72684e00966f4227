/**
 Calendar dates as day numbers and timestamps as text, in the proleptic Gregorian calendar with machine
 division that truncates toward zero.

 Models crates/openbad-pipeline/src/source.rs.
 */
module Civil {
  import opened Wrappers

  // ---------------------------------------------------------------------
  // The conversions
  // ---------------------------------------------------------------------

  /** Division that truncates toward zero. */
  function Quot(a: int, b: int): int
    requires b > 0
  {
    if a >= 0 then a / b else -(-a / b)
  }

  datatype Date = Date(year: int, month: int, day: int)

  function DaysFromCivil(d: Date): Option<int> {
    if !(1 <= d.month <= 12) || !(1 <= d.day <= 31) then None
    else
      var year := if d.month <= 2 then d.year - 1 else d.year;
      var era := Quot(if year >= 0 then year else year - 399, 400);
      var yearOfEra := year - era * 400;
      var monthShift := if d.month > 2 then d.month - 3 else d.month + 9;
      var dayOfYear := Quot(153 * monthShift + 2, 5) + d.day - 1;
      var dayOfEra := yearOfEra * 365 + Quot(yearOfEra, 4) - Quot(yearOfEra, 100) + dayOfYear;
      Some(era * 146097 + dayOfEra - 719468)
  }

  function CivilFromDays(days: int): Date {
    var z := days + 719468;
    var era := Quot(if z >= 0 then z else z - 146096, 146097);
    var dayOfEra := z - era * 146097;
    var yearOfEra := YearOfEra(dayOfEra);
    var year := yearOfEra + era * 400;
    var dayOfYear := dayOfEra - (365 * yearOfEra + Quot(yearOfEra, 4) - Quot(yearOfEra, 100));
    var monthShift := Quot(5 * dayOfYear + 2, 153);
    var day := dayOfYear - Quot(153 * monthShift + 2, 5) + 1;
    var month := if monthShift < 10 then monthShift + 3 else monthShift - 9;
    Date(if month <= 2 then year + 1 else year, month, day)
  }

  function YearOfEra(dayOfEra: int): int {
    Quot(dayOfEra - Quot(dayOfEra, 1460) + Quot(dayOfEra, 36524) - Quot(dayOfEra, 146096), 365)
  }

  // ---------------------------------------------------------------------
  // The calendar
  // ---------------------------------------------------------------------

  predicate Leap(year: int) {
    year % 4 == 0 && (year % 100 != 0 || year % 400 == 0)
  }

  function MonthLength(year: int, month: int): int {
    if month == 2 then (if Leap(year) then 29 else 28)
    else if month == 4 || month == 6 || month == 9 || month == 11 then 30
    else 31
  }

  predicate ValidDate(d: Date) {
    1 <= d.month <= 12 && 1 <= d.day <= MonthLength(d.year, d.month)
  }

  function NextDate(d: Date): Date {
    if d.day < MonthLength(d.year, d.month) then Date(d.year, d.month, d.day + 1)
    else if d.month < 12 then Date(d.year, d.month + 1, 1)
    else Date(d.year + 1, 1, 1)
  }

  const EPOCH := Date(1970, 1, 1)

  // ---------------------------------------------------------------------
  // Day numbers count days
  // ---------------------------------------------------------------------

  /** The branch for negative numbers makes the quotient a floor. */
  lemma QuotFloors(a: int, b: int)
    requires b > 0
    ensures Quot(if a >= 0 then a else a - (b - 1), b) == a / b
  {
    if a < 0 {
      var q := (b - 1 - a) / b;
      var r := (b - 1 - a) % b;
      assert b - 1 - a == q * b + r;
      assert a == -q * b + (b - 1 - r);
      FloorUnique(a, b, -q, b - 1 - r);
    }
  }

  lemma FloorUnique(a: int, b: int, q: int, r: int)
    requires b > 0 && a == q * b + r && 0 <= r < b
    ensures a / b == q
  {
    var q', r' := a / b, a % b;
    assert a == q' * b + r';
    if q > q' {
      ProductApart(q, q', b);
    } else if q < q' {
      ProductApart(q', q, b);
    }
  }

  lemma ProductApart(x: int, y: int, b: int)
    requires x > y && b > 0
    ensures x * b >= y * b + b
  {
    assert x * b - y * b == (x - y) * b;
    assert (x - y - 1) * b >= 0;
  }

  /** Days before the first of March of a year. */
  function MarchFirst(year: int): int {
    365 * year + year / 4 - year / 100 + year / 400 - 719468
  }

  function ShiftedYear(d: Date): int {
    if d.month <= 2 then d.year - 1 else d.year
  }

  function MonthShift(month: int): int {
    if month > 2 then month - 3 else month + 9
  }

  function DaysBeforeMonth(shift: int): int {
    (153 * shift + 2) / 5
  }

  lemma DaysClosed(d: Date)
    requires 1 <= d.month <= 12 && 1 <= d.day <= 31
    ensures DaysFromCivil(d)
      == Some(MarchFirst(ShiftedYear(d)) + DaysBeforeMonth(MonthShift(d.month)) + d.day - 1)
  {
    var year := ShiftedYear(d);
    QuotFloors(year, 400);
    var era, yoe := year / 400, year % 400;
    assert year == 400 * era + yoe;
    assert year / 4 == 100 * era + yoe / 4;
    assert year / 100 == 4 * era + yoe / 100;
  }

  lemma EpochIsZero()
    ensures DaysFromCivil(EPOCH) == Some(0)
  {
    assert MarchFirst(1969) == 719162 - 719468;
  }

  /** The number of the next calendar day is one more, from 0 on 1 January 1970. */
  lemma DaysSuccessive(d: Date)
    requires ValidDate(d)
    ensures DaysFromCivil(EPOCH) == Some(0)
    ensures ValidDate(NextDate(d))
    ensures DaysFromCivil(d).Some? && DaysFromCivil(NextDate(d)) == Some(DaysFromCivil(d).value + 1)
  {
    EpochIsZero();
    hide DaysFromCivil, MarchFirst;
    DaysClosed(d);
    DaysClosed(NextDate(d));
    if d.month == 2 && d.day == MonthLength(d.year, 2) {
      MarchFirstStep(d.year);
    }
  }

  lemma MarchFirstStep(year: int)
    ensures MarchFirst(year) - MarchFirst(year - 1) == if Leap(year) then 366 else 365
  {
    DivStep(year, 4);
    DivStep(year, 100);
    DivStep(year, 400);
    assert year % 400 == 0 ==> year % 100 == 0;
    assert year % 100 == 0 ==> year % 4 == 0;
  }

  lemma DivStep(a: int, b: int)
    requires b > 1
    ensures a / b - (a - 1) / b == if a % b == 0 then 1 else 0
  {
    var q, r := a / b, a % b;
    if r == 0 {
      assert a - 1 == (q - 1) * b + (b - 1);
      FloorUnique(a - 1, b, q - 1, b - 1);
    } else {
      FloorUnique(a - 1, b, q, r - 1);
    }
  }

  // ---------------------------------------------------------------------
  // The inverse
  // ---------------------------------------------------------------------

  // A year of a 400-year era split into centuries, four-year groups and years.
  ghost predicate EraDay(c: int, q: int, r: int, doy: int) {
    && 0 <= c <= 3 && 0 <= q <= 24 && 0 <= r <= 3 && 0 <= doy <= 365
    && (doy == 365 ==> r == 3 && (q != 24 || c == 3))
  }

  function DayInEra(c: int, q: int, r: int, doy: int): int {
    36524 * c + 1461 * q + 365 * r + doy
  }

  lemma YearFound(c: int, q: int, r: int, doy: int)
    requires EraDay(c, q, r, doy)
    ensures 0 <= DayInEra(c, q, r, doy) < 146097
    ensures YearOfEra(DayInEra(c, q, r, doy)) == 100 * c + 4 * q + r
  {
    var doe := DayInEra(c, q, r, doy);
    assert doe / 36524 - doe / 146096 == c;
    var extra := 24 * c + q + 365 * r + doy;
    assert doe == 1460 * (25 * c + q) + extra;
    var carry := if extra >= 1460 then 1 else 0;
    assert doe / 1460 == 25 * c + q + carry;
    assert doe - doe / 1460 + c == 365 * (100 * c + 4 * q + r) + (doy - carry);
  }

  lemma YearSplit(c: int, q: int, r: int)
    requires 0 <= c <= 3 && 0 <= q <= 24 && 0 <= r <= 3
    ensures var yoe := 100 * c + 4 * q + r;
      && 0 <= yoe < 400
      && 365 * yoe + Quot(yoe, 4) - Quot(yoe, 100) == 36524 * c + 1461 * q + 365 * r
  {
  }

  lemma MonthFound(shift: int, day: int)
    requires 0 <= shift <= 11 && 1 <= day <= MonthLength(4, if shift < 10 then shift + 3 else shift - 9)
    ensures Quot(5 * (DaysBeforeMonth(shift) + day - 1) + 2, 153) == shift
    ensures 0 <= DaysBeforeMonth(shift) + day - 1 <= 365
  {
  }

  lemma MarchInEra(era: int, c: int, q: int, r: int)
    requires 0 <= c <= 3 && 0 <= q <= 24 && 0 <= r <= 3
    ensures MarchFirst(400 * era + (100 * c + 4 * q + r))
      == 146097 * era + (36524 * c + 1461 * q + 365 * r) - 719468
  {
    var year := 400 * era + (100 * c + 4 * q + r);
    assert year / 4 == 100 * era + 25 * c + q;
    assert year / 100 == 4 * era + c;
    assert year / 400 == era;
  }

  /** A date's place in its era. */
  lemma DateInEra(d: Date) returns (era: int, c: int, q: int, r: int, doy: int)
    requires ValidDate(d)
    ensures doy == DaysBeforeMonth(MonthShift(d.month)) + d.day - 1 && EraDay(c, q, r, doy)
    ensures ShiftedYear(d) == 400 * era + (100 * c + 4 * q + r)
    ensures DaysFromCivil(d) == Some(146097 * era + DayInEra(c, q, r, doy) - 719468)
  {
    MonthFound(MonthShift(d.month), d.day);
    hide DaysFromCivil, MarchFirst, Leap;
    var year := ShiftedYear(d);
    DaysClosed(d);
    era, c, q, r := SplitYearNumber(year);
    doy := DaysBeforeMonth(MonthShift(d.month)) + d.day - 1;
    MarchInEra(era, c, q, r);
    LeapInEra(era, c, q, r);
  }

  lemma SplitYearNumber(year: int) returns (era: int, c: int, q: int, r: int)
    ensures 0 <= c <= 3 && 0 <= q <= 24 && 0 <= r <= 3
    ensures year == 400 * era + (100 * c + 4 * q + r)
  {
    era := year / 400;
    c := year % 400 / 100;
    q := year % 400 % 100 / 4;
    r := year % 400 % 100 % 4;
  }

  lemma LeapInEra(era: int, c: int, q: int, r: int)
    requires 0 <= c <= 3 && 0 <= q <= 24 && 0 <= r <= 3
    ensures Leap(400 * era + (100 * c + 4 * q + r) + 1) <==> r == 3 && (q != 24 || c == 3)
  {
    var yoe := 100 * c + 4 * q + r + 1;
    var year := 400 * era + yoe;
    ModShift(4, 100 * era + 25 * c + q, r + 1);
    ModShift(100, 4 * era + c, 4 * q + r + 1);
    ModShift(400, era, yoe);
    assert year == 4 * (100 * era + 25 * c + q) + (r + 1);
    assert year == 100 * (4 * era + c) + (4 * q + r + 1);
  }

  lemma ModShift(b: int, k: int, x: int)
    requires b > 0 && 0 <= x <= b
    ensures (b * k + x) % b == if x == b then 0 else x
  {
    if x == b {
      assert b * k + x == b * (k + 1);
      FloorUnique(b * k + x, b, k + 1, 0);
    } else {
      FloorUnique(b * k + x, b, k, x);
    }
  }

  lemma EraFound(era: int, doe: int)
    requires 0 <= doe < 146097
    ensures var z := 146097 * era + doe; Quot(if z >= 0 then z else z - 146096, 146097) == era
  {
    var z := 146097 * era + doe;
    QuotFloors(z, 146097);
    FloorUnique(z, 146097, era, doe);
  }

  lemma CivilAt(era: int, doe: int, yoe: int, doy: int, shift: int)
    requires 0 <= doe < 146097 && YearOfEra(doe) == yoe
    requires doe == 365 * yoe + Quot(yoe, 4) - Quot(yoe, 100) + doy
    requires Quot(5 * doy + 2, 153) == shift && 0 <= shift
    ensures var month := if shift < 10 then shift + 3 else shift - 9;
      var year := 400 * era + yoe;
      CivilFromDays(146097 * era + doe - 719468)
        == Date(if month <= 2 then year + 1 else year, month, doy - DaysBeforeMonth(shift) + 1)
  {
    EraFound(era, doe);
    assert Quot(153 * shift + 2, 5) == DaysBeforeMonth(shift);
    hide Quot, YearOfEra;
  }

  /** Reading back the number of a valid date gives the date. */
  lemma CivilInverse(d: Date)
    requires ValidDate(d)
    ensures DaysFromCivil(d).Some? && CivilFromDays(DaysFromCivil(d).value) == d
  {
    hide DaysFromCivil, CivilFromDays, YearOfEra, Quot, DaysBeforeMonth;
    var era, c, q, r, doy := DateInEra(d);
    var doe := DayInEra(c, q, r, doy);
    YearFound(c, q, r, doy);
    YearSplit(c, q, r);
    MonthFound(MonthShift(d.month), d.day);
    CivilAt(era, doe, 100 * c + 4 * q + r, doy, MonthShift(d.month));
  }

  lemma SplitEra(doe: int) returns (c: int, q: int, r: int, doy: int)
    requires 0 <= doe < 146097
    ensures EraDay(c, q, r, doy) && DayInEra(c, q, r, doy) == doe
  {
    c := if doe == 146096 then 3 else doe / 36524;
    var rest := doe - 36524 * c;
    q := rest / 1461;
    var last := rest - 1461 * q;
    r := if last == 1460 then 3 else last / 365;
    doy := last - 365 * r;
  }

  lemma SplitYear(doy: int) returns (shift: int, day: int)
    requires 0 <= doy <= 365
    ensures 0 <= shift <= 11 && day >= 1 && doy == DaysBeforeMonth(shift) + day - 1
    ensures day <= MonthLength(4, if shift < 10 then shift + 3 else shift - 9)
    ensures shift == 11 && day == 29 <==> doy == 365
  {
    shift := (5 * doy + 2) / 153;
    day := doy - DaysBeforeMonth(shift) + 1;
  }

  /** Every integer is the number of some valid date. */
  lemma EveryDayHasADate(days: int) returns (d: Date)
    ensures ValidDate(d) && DaysFromCivil(d) == Some(days)
  {
    var z := days + 719468;
    var era, doe := z / 146097, z % 146097;
    var c, q, r, doy := SplitEra(doe);
    var shift, day := SplitYear(doy);
    var month := if shift < 10 then shift + 3 else shift - 9;
    var year := 400 * era + (100 * c + 4 * q + r);
    d := Date(if month <= 2 then year + 1 else year, month, day);
    LeapInEra(era, c, q, r);
    hide DaysFromCivil, MarchFirst, Leap;
    DaysClosed(d);
    MarchInEra(era, c, q, r);
  }

  /** The two conversions are mutual inverses, between all day numbers and all valid dates. */
  lemma DaysInverse(days: int)
    ensures ValidDate(CivilFromDays(days))
    ensures DaysFromCivil(CivilFromDays(days)) == Some(days)
  {
    var d := EveryDayHasADate(days);
    CivilInverse(d);
  }

  // ---------------------------------------------------------------------
  // Timestamps as text
  // ---------------------------------------------------------------------

  const MS_PER_DAY := 86400000

  predicate IsDigit(c: char) {
    '0' <= c <= '9'
  }

  function DigitOf(n: nat): char
    requires n < 10
  {
    '0' + n as char
  }

  function Decimal(n: nat): (s: string)
    ensures s != ""
  {
    if n < 10 then [DigitOf(n)] else Decimal(n / 10) + [DigitOf(n % 10)]
  }

  function Zeros(n: nat): string {
    if n == 0 then "" else "0" + Zeros(n - 1)
  }

  function Padded(n: nat, width: nat): string {
    Zeros(SaturatingSub(width, |Decimal(n)|)) + Decimal(n)
  }

  // The layout: six fields between fixed separators.
  function Layout(y: string, mo: string, d: string, h: string, mi: string, s: string): string {
    y + "-" + mo + "-" + d + "T" + h + ":" + mi + ":" + s + "Z"
  }

  /** The text of an instant; one before the epoch prints as the epoch. */
  function Iso8601FromMs(instant: int): string {
    var ms := Max(instant, 0);
    var date := CivilFromDays(Quot(ms, MS_PER_DAY));
    var rest := ms % MS_PER_DAY;
    DaysInverse(Quot(ms, MS_PER_DAY));
    CivilYear(Quot(ms, MS_PER_DAY));
    Layout(Padded(date.year, 4), Padded(date.month, 2), Padded(date.day, 2),
           Padded(rest / 3600000, 2), Padded(rest % 3600000 / 60000, 2), Padded(rest % 60000 / 1000, 2))
  }

  lemma MonthPlace(shift: int, day: int)
    requires 0 <= shift <= 11 && 1 <= day <= MonthLength(4, if shift < 10 then shift + 3 else shift - 9)
    ensures shift >= 10 <==> DaysBeforeMonth(shift) + day - 1 >= 306
  {
  }

  /** A day's date: its year counted from March, and its place in that year. */
  lemma DayPlace(days: int) returns (doy: int)
    ensures var d := CivilFromDays(days);
      && ValidDate(d)
      && days == MarchFirst(ShiftedYear(d)) + doy
      && 0 <= doy <= 365
      && (d.month <= 2 <==> doy >= 306)
  {
    DaysInverse(days);
    var d := CivilFromDays(days);
    MonthFound(MonthShift(d.month), d.day);
    MonthPlace(MonthShift(d.month), d.day);
    DaysClosed(d);
    doy := DaysBeforeMonth(MonthShift(d.month)) + d.day - 1;
    hide *;
  }

  /** Days from the epoch on lie in 1970 or later. */
  lemma CivilYear(days: int)
    requires days >= 0
    ensures CivilFromDays(days).year >= 1970
  {
    var doy := DayPlace(days);
    var d := CivilFromDays(days);
    March1969();
    hide CivilFromDays, MarchFirst;
    if d.year <= 1969 {
      if ShiftedYear(d) <= 1968 {
        MarchFirstGrows(ShiftedYear(d), 1969);
      }
    }
  }

  lemma March1969()
    ensures MarchFirst(1969) == -306
  {
  }

  // Text is its bytes, one character each.
  function Digits(s: string): Option<nat> {
    if s == "" then Some(0)
    else if !IsDigit(s[|s| - 1]) then None
    else
      match Digits(s[..|s| - 1])
      case None => None
      case Some(n) => Some(10 * n + (s[|s| - 1] - '0') as nat)
  }

  /** A signed decimal number: one optional sign, then at least one digit. */
  function Number(s: string): Option<int> {
    var signed := s != "" && (s[0] == '+' || s[0] == '-');
    var body := if signed then s[1..] else s;
    if body == "" then None
    else
      match Digits(body)
      case None => None
      case Some(n) =>
        var value: int := n;
        Some(if signed && s[0] == '-' then -value else value)
  }

  function ParseIso8601Ms(text: string): Option<int> {
    if |text| < 20 then None
    else
      var year, month, day := Number(text[0..4]), Number(text[5..7]), Number(text[8..10]);
      var hour, minute, second := Number(text[11..13]), Number(text[14..16]), Number(text[17..19]);
      if year.None? || month.None? || day.None? || hour.None? || minute.None? || second.None? then None
      else
        match DaysFromCivil(Date(year.value, month.value, day.value))
        case None => None
        case Some(days) =>
          Some(days * MS_PER_DAY + hour.value * 3600000 + minute.value * 60000 + second.value * 1000)
  }

  lemma {:induction false} DigitsDecimal(n: nat)
    ensures Digits(Decimal(n)) == Some(n)
    ensures forall i :: 0 <= i < |Decimal(n)| ==> IsDigit(Decimal(n)[i])
  {
    if n < 10 {
      assert [DigitOf(n)][..0] == "";
    } else {
      DigitsDecimal(n / 10);
      var s := Decimal(n / 10) + [DigitOf(n % 10)];
      assert s[..|s| - 1] == Decimal(n / 10);
    }
  }

  lemma {:induction false} DigitsZeros(k: nat, s: string)
    requires s != "" && forall i :: 0 <= i < |s| ==> IsDigit(s[i])
    ensures Digits(Zeros(k) + s) == Digits(s)
    ensures forall i :: 0 <= i < |Zeros(k) + s| ==> IsDigit((Zeros(k) + s)[i])
  {
    if k == 0 {
      assert Zeros(0) + s == s;
    } else {
      DigitsZeros(k - 1, s);
      var t := Zeros(k - 1) + s;
      assert Zeros(k) + s == "0" + t;
      DigitsZero(t);
    }
  }

  lemma {:induction false} DigitsZero(s: string)
    ensures Digits("0" + s) == Digits(s)
  {
    if s == "" {
      assert ("0" + s)[..0] == "";
    } else {
      assert ("0" + s)[..|s|] == "0" + s[..|s| - 1];
      DigitsZero(s[..|s| - 1]);
    }
  }

  lemma {:induction false} ZerosLength(k: nat)
    ensures |Zeros(k)| == k
  {
    if k > 0 {
      ZerosLength(k - 1);
    }
  }

  lemma {:induction false} NumberUnsigned(s: string, n: nat)
    ensures s != "" && IsDigit(s[0]) && Digits(s) == Some(n) ==> Number(s) == Some(n)
  {
    hide Digits;
  }

  lemma {:induction false} NumberPadded(n: nat, width: nat)
    ensures Number(Padded(n, width)) == Some(n)
    ensures |Padded(n, width)| == Max(width, |Decimal(n)|)
  {
    var k := SaturatingSub(width, |Decimal(n)|);
    DigitsDecimal(n);
    hide Decimal, Zeros, Digits, Number, IsDigit;
    DigitsZeros(k, Decimal(n));
    ZerosLength(k);
    NumberUnsigned(Padded(n, width), n);
  }

  lemma {:induction false} DecimalLength(n: nat)
    ensures n < 100 ==> |Decimal(n)| <= 2
    ensures 1000 <= n < 10000 ==> |Decimal(n)| == 4
    ensures 10000 <= n < 100000 ==> |Decimal(n)| == 5
  {
    assert |Decimal(n)| == if n < 10 then 1 else |Decimal(n / 10)| + 1;
    var a := n / 10;
    assert |Decimal(a)| == if a < 10 then 1 else |Decimal(a / 10)| + 1;
    var b := a / 10;
    assert |Decimal(b)| == if b < 10 then 1 else |Decimal(b / 10)| + 1;
    var c := b / 10;
    assert |Decimal(c)| == if c < 10 then 1 else |Decimal(c / 10)| + 1;
  }

  lemma LayoutFields(y: string, mo: string, d: string, h: string, mi: string, s: string)
    requires |y| == 4 && |mo| == |d| == |h| == |mi| == |s| == 2
    ensures var t := Layout(y, mo, d, h, mi, s);
      && |t| == 20
      && t[0..4] == y && t[5..7] == mo && t[8..10] == d
      && t[11..13] == h && t[14..16] == mi && t[17..19] == s
  {
  }

  const YEAR_10000 := 253402300800000

  lemma Year10000()
    ensures MarchFirst(9999) + 306 == YEAR_10000 / MS_PER_DAY
    ensures YEAR_10000 % MS_PER_DAY == 0
  {
    assert MarchFirst(9999) == 365 * 9999 + 2499 - 99 + 24 - 719468;
  }

  /** An instant's calendar year has at most four digits exactly before the year 10000. */
  lemma YearBefore10000(ms: nat)
    ensures CivilFromDays(Quot(ms, MS_PER_DAY)).year <= 9999 <==> ms < YEAR_10000
  {
    var days := Quot(ms, MS_PER_DAY);
    var doy := DayPlace(days);
    var d := CivilFromDays(days);
    Year10000();
    hide CivilFromDays, MarchFirst;
    if ShiftedYear(d) < 9999 {
      MarchFirstGrows(ShiftedYear(d), 9999);
    } else if ShiftedYear(d) > 9999 {
      MarchFirstGrows(9999, ShiftedYear(d));
    }
  }

  // ---------------------------------------------------------------------
  // Reading back a printed timestamp
  // ---------------------------------------------------------------------

  /** The instant floored to its second. */
  function FloorToSecond(instant: int): int {
    Max(instant, 0) - Max(instant, 0) % 1000
  }

  lemma ClockParts(ms: nat)
    ensures var rest := ms % MS_PER_DAY;
      && rest / 3600000 < 24 && rest % 3600000 / 60000 < 60 && rest % 60000 / 1000 < 60
      && Quot(ms, MS_PER_DAY) * MS_PER_DAY
           + rest / 3600000 * 3600000 + rest % 3600000 / 60000 * 60000 + rest % 60000 / 1000 * 1000
         == FloorToSecond(ms)
  {
    var days, rest := ms / MS_PER_DAY, ms % MS_PER_DAY;
    assert ms == 1000 * (86400 * days) + rest;
    assert ms / 1000 == 86400 * days + rest / 1000;
    assert rest % 3600000 % 60000 == rest % 60000;
  }

  lemma ParseFields(t: string, date: Date, hour: int, minute: int, second: int)
    requires |t| >= 20
    requires Number(t[0..4]) == Some(date.year)
    requires Number(t[5..7]) == Some(date.month)
    requires Number(t[8..10]) == Some(date.day)
    requires Number(t[11..13]) == Some(hour)
    requires Number(t[14..16]) == Some(minute)
    requires Number(t[17..19]) == Some(second)
    requires DaysFromCivil(date).Some?
    ensures ParseIso8601Ms(t)
      == Some(DaysFromCivil(date).value * MS_PER_DAY + hour * 3600000 + minute * 60000 + second * 1000)
  {
    hide Number, DaysFromCivil;
  }

  lemma FieldPadded(n: nat)
    requires n < 100
    ensures |Padded(n, 2)| == 2 && Number(Padded(n, 2)) == Some(n)
  {
    DecimalLength(n);
    NumberPadded(n, 2);
  }

  lemma YearPadded(n: nat)
    requires n >= 1000
    ensures n < 10000 ==> |Padded(n, 4)| == 4 && Number(Padded(n, 4)) == Some(n)
    ensures 10000 <= n < 100000 ==> |Padded(n, 4)| == 5
  {
    DecimalLength(n);
    NumberPadded(n, 4);
  }

  lemma FourDigitYears(ms: nat)
    requires ms < YEAR_10000
    ensures ParseIso8601Ms(Iso8601FromMs(ms)) == Some(FloorToSecond(ms))
  {
    hide CivilFromDays, DaysFromCivil, Padded, Number, ParseIso8601Ms, Layout;
    var days := Quot(ms, MS_PER_DAY);
    var date := CivilFromDays(days);
    var rest := ms % MS_PER_DAY;
    DaysInverse(days);
    CivilYear(days);
    YearBefore10000(ms);
    ClockParts(ms);
    var h, mi, s := rest / 3600000, rest % 3600000 / 60000, rest % 60000 / 1000;
    YearPadded(date.year);
    FieldPadded(date.month);
    FieldPadded(date.day);
    FieldPadded(h);
    FieldPadded(mi);
    FieldPadded(s);
    LayoutFields(Padded(date.year, 4), Padded(date.month, 2), Padded(date.day, 2),
      Padded(h, 2), Padded(mi, 2), Padded(s, 2));
    ParseFields(Iso8601FromMs(ms), date, h, mi, s);
  }

  lemma NegativeMonth(c: char)
    ensures var n := Number(['-', c]); n.None? || n.value <= 0
  {
    assert ['-', c][1..] == [c];
  }

  /** A fifth year digit pushes a hyphen into the month, which is then no month. */
  lemma FiveDigitYears(ms: nat)
    requires 10000 <= CivilFromDays(Quot(ms, MS_PER_DAY)).year < 100000
    ensures ParseIso8601Ms(Iso8601FromMs(ms)) == None
  {
    hide CivilFromDays, Padded, Number;
    var date := CivilFromDays(Quot(ms, MS_PER_DAY));
    DaysInverse(Quot(ms, MS_PER_DAY));
    YearPadded(date.year);
    FieldPadded(date.month);
    var t := Iso8601FromMs(ms);
    assert t[5] == '-';
    assert t[5..7] == [t[5], t[6]];
    NegativeMonth(t[6]);
  }

  lemma {:induction false} DigitsBound(s: string)
    requires Digits(s).Some?
    ensures |s| == 0 ==> Digits(s).value == 0
    ensures |s| == 1 ==> Digits(s).value < 10
    ensures |s| == 2 ==> Digits(s).value < 100
    ensures |s| == 3 ==> Digits(s).value < 1000
    ensures |s| == 4 ==> Digits(s).value < 10000
  {
    if s != "" {
      DigitsBound(s[..|s| - 1]);
    }
  }

  lemma NumberBound(s: string)
    requires Number(s).Some?
    ensures |s| == 2 ==> Number(s).value < 100
    ensures |s| == 4 ==> Number(s).value < 10000
  {
    hide Digits;
    var signed := s[0] == '+' || s[0] == '-';
    DigitsBound(if signed then s[1..] else s);
  }

  const FAR := 1000000000000000

  lemma ParseBound(t: string)
    requires ParseIso8601Ms(t).Some?
    ensures ParseIso8601Ms(t).value < FAR
  {
    var date := Date(Number(t[0..4]).value, Number(t[5..7]).value, Number(t[8..10]).value);
    NumberBound(t[0..4]);
    NumberBound(t[11..13]);
    NumberBound(t[14..16]);
    NumberBound(t[17..19]);
    assert DaysFromCivil(date).Some?;
    DaysClosed(date);
    MarchFirstGrows(ShiftedYear(date), 9999);
    Year10000();
  }

  lemma FarYears(ms: nat)
    requires CivilFromDays(Quot(ms, MS_PER_DAY)).year >= 100000
    ensures FloorToSecond(ms) >= FAR
  {
    var days := Quot(ms, MS_PER_DAY);
    var doy := DayPlace(days);
    var d := CivilFromDays(days);
    Year10000();
    hide CivilFromDays, MarchFirst;
    MarchFirstGrows(9999, ShiftedYear(d));
  }

  /** Parsing a printed instant returns it, floored to the second, if and only if it lies before the year 10000. */
  lemma TimestampRoundTrip(instant: int)
    ensures ParseIso8601Ms(Iso8601FromMs(instant)) == Some(FloorToSecond(instant)) <==> instant < YEAR_10000
  {
    hide CivilFromDays, ParseIso8601Ms, Iso8601FromMs, FloorToSecond;
    var ms := Max(instant, 0);
    SameText(instant);
    YearBefore10000(ms);
    if ms < YEAR_10000 {
      FourDigitYears(ms);
    } else if CivilFromDays(Quot(ms, MS_PER_DAY)).year < 100000 {
      FiveDigitYears(ms);
    } else {
      FarYears(ms);
      if ParseIso8601Ms(Iso8601FromMs(ms)).Some? {
        ParseBound(Iso8601FromMs(ms));
      }
    }
  }

  lemma SameText(instant: int)
    ensures var ms := Max(instant, 0);
      && ms >= 0 && (ms < YEAR_10000 <==> instant < YEAR_10000)
      && Iso8601FromMs(instant) == Iso8601FromMs(ms)
      && FloorToSecond(instant) == FloorToSecond(ms)
  {
  }

  lemma {:induction false} MarchFirstGrows(a: int, b: int)
    requires a <= b
    ensures MarchFirst(a) + 365 * (b - a) <= MarchFirst(b)
    decreases b - a
  {
    if a < b {
      MarchFirstGrows(a, b - 1);
      MarchFirstStep(b);
    }
  }
}
