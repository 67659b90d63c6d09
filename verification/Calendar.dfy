/** Instants, civil UTC dates and their one ISO 8601 text, for the years 1 to 9999. */
module Calendar {
  import opened Common
  import opened Text

  const DAY := 86_400_000_000
  const MAX_YEAR := 9999

  datatype Civil = Civil(year: nat, month: nat, day: nat, hour: nat, minute: nat, second: nat, micro: nat)

  predicate Leap(year: nat) {
    year % 4 == 0 && (year % 100 != 0 || year % 400 == 0)
  }

  function DaysInMonth(year: nat, month: nat): (days: nat)
    ensures 28 <= days <= 31
  {
    if month == 2 then if Leap(year) then 29 else 28
    else if month in {4, 6, 9, 11} then 30
    else 31
  }

  function DaysBeforeMonth(year: nat, month: nat): nat
    requires 1 <= month <= 13
  {
    if month == 1 then 0 else DaysBeforeMonth(year, month - 1) + DaysInMonth(year, month - 1)
  }

  function DaysInYear(year: nat): nat {
    if Leap(year) then 366 else 365
  }

  /** Days before the first of January of `year`, counted from year 1. */
  function DaysBeforeYear(year: nat): int {
    var y := year - 1;
    365 * y + y / 4 - y / 100 + y / 400
  }

  predicate ValidCivil(c: Civil) {
    && 1 <= c.year <= MAX_YEAR && 1 <= c.month <= 12 && 1 <= c.day <= DaysInMonth(c.year, c.month)
    && c.hour < 24 && c.minute < 60 && c.second < 60 && c.micro < 1_000_000
  }

  function TimeOfDay(c: Civil): nat {
    ((c.hour * 60 + c.minute) * 60 + c.second) * 1_000_000 + c.micro
  }

  /** Microseconds since the first of January of year 1. */
  function Instant(c: Civil): int
    requires ValidCivil(c)
  {
    (DaysBeforeYear(c.year) + DaysBeforeMonth(c.year, c.month) + c.day - 1) * DAY + TimeOfDay(c)
  }

  // ---------------------------------------------------------------- and back

  function YearOf(days: nat, from: nat): (year: nat)
    requires 1 <= from <= MAX_YEAR && DaysBeforeYear(from) <= days < DaysBeforeYear(MAX_YEAR + 1)
    ensures from <= year <= MAX_YEAR && DaysBeforeYear(year) <= days < DaysBeforeYear(year + 1)
    decreases MAX_YEAR - from
  {
    if days < DaysBeforeYear(from + 1) then from else YearOf(days, from + 1)
  }

  function MonthOf(year: nat, days: nat, from: nat): (month: nat)
    requires 1 <= from <= 12 && DaysBeforeMonth(year, from) <= days < DaysBeforeMonth(year, 13)
    ensures from <= month <= 12 && DaysBeforeMonth(year, month) <= days < DaysBeforeMonth(year, month + 1)
    decreases 12 - from
  {
    if days < DaysBeforeMonth(year, from + 1) then from else MonthOf(year, days, from + 1)
  }

  lemma FirstMonths(year: nat)
    ensures DaysBeforeMonth(year, 4) == DaysInYear(year) - 275
  {
    assert DaysBeforeMonth(year, 2) == 31;
    assert DaysBeforeMonth(year, 3) == 31 + DaysInMonth(year, 2);
  }

  lemma LastMonths(year: nat)
    ensures DaysBeforeMonth(year, 13) == DaysBeforeMonth(year, 4) + 275
  {
    hide Leap;
    assert DaysBeforeMonth(year, 5) == DaysBeforeMonth(year, 4) + 30;
    assert DaysBeforeMonth(year, 6) == DaysBeforeMonth(year, 5) + 31;
    assert DaysBeforeMonth(year, 7) == DaysBeforeMonth(year, 6) + 30;
    assert DaysBeforeMonth(year, 8) == DaysBeforeMonth(year, 7) + 31;
    assert DaysBeforeMonth(year, 9) == DaysBeforeMonth(year, 8) + 31;
    assert DaysBeforeMonth(year, 10) == DaysBeforeMonth(year, 9) + 30;
    assert DaysBeforeMonth(year, 11) == DaysBeforeMonth(year, 10) + 31;
    assert DaysBeforeMonth(year, 12) == DaysBeforeMonth(year, 11) + 30;
  }

  lemma YearsAdd(year: nat)
    requires year >= 1
    ensures DaysBeforeYear(year + 1) == DaysBeforeYear(year) + DaysInYear(year)
    ensures DaysBeforeMonth(year, 13) == DaysInYear(year)
  {
    hide DaysBeforeMonth, DaysInMonth;
    FirstMonths(year);
    LastMonths(year);
    FourthYears(year);
    HundredthYears(year);
    FourHundredthYears(year);
  }

  lemma FourthYears(y: nat)
    ensures y / 4 - (y - 1) / 4 == if y % 4 == 0 then 1 else 0
  {
  }

  lemma HundredthYears(y: nat)
    ensures y / 100 - (y - 1) / 100 == if y % 100 == 0 then 1 else 0
    ensures y % 100 == 0 ==> y % 4 == 0
  {
    assert y == 4 * (25 * (y / 100)) + y % 100;
  }

  lemma FourHundredthYears(y: nat)
    ensures y / 400 - (y - 1) / 400 == if y % 400 == 0 then 1 else 0
    ensures y % 400 == 0 ==> y % 100 == 0
  {
    assert y == 100 * (4 * (y / 400)) + y % 400;
  }

  lemma {:induction false} YearsGrow(year: nat, later: nat)
    requires 1 <= year <= later
    ensures DaysBeforeYear(year) + (later - year) * 365 <= DaysBeforeYear(later)
    decreases later - year
  {
    if year < later {
      YearsAdd(later - 1);
      YearsGrow(year, later - 1);
    }
  }

  lemma {:induction false} MonthsGrow(year: nat, month: nat, later: nat)
    requires 1 <= month <= later <= 13
    ensures DaysBeforeMonth(year, month) + (later - month) * 28 <= DaysBeforeMonth(year, later)
    decreases later - month
  {
    if month < later {
      MonthsGrow(year, month, later - 1);
    }
  }

  /** `astimezone(UTC)`: the civil date of an instant, when the calendar reaches it. */
  function FromInstant(n: int): (c: Option<Civil>)
    ensures c.Some? <==> 0 <= n < DaysBeforeYear(MAX_YEAR + 1) * DAY
    ensures c.Some? ==> ValidCivil(c.value) && Instant(c.value) == n
  {
    if !(0 <= n < DaysBeforeYear(MAX_YEAR + 1) * DAY) then None
    else
      var days := n / DAY;
      var time := n % DAY;
      var year := YearOf(days, 1);
      YearsAdd(year);
      var month := MonthOf(year, days - DaysBeforeYear(year), 1);
      var c := Civil(year, month, days - DaysBeforeYear(year) - DaysBeforeMonth(year, month) + 1,
                     time / 3_600_000_000, time / 60_000_000 % 60, time / 1_000_000 % 60, time % 1_000_000);
      TimeSplits(time);
      Some(c)
  }

  lemma TimeSplits(time: nat)
    requires time < DAY
    ensures ((time / 3_600_000_000 * 60 + time / 60_000_000 % 60) * 60 + time / 1_000_000 % 60) * 1_000_000 + time % 1_000_000 == time
    ensures time / 3_600_000_000 < 24
  {
    var seconds := time / 1_000_000;
    var minutes := time / 60_000_000;
    assert seconds / 60 == minutes;
    assert minutes / 60 == time / 3_600_000_000;
  }

  /** Two civil dates of one instant are the same date. */
  lemma InstantsDiffer(c: Civil, d: Civil)
    requires ValidCivil(c) && ValidCivil(d) && Instant(c) == Instant(d)
    ensures c == d
  {
    DayFits(c);
    DayFits(d);
    var dayC := DaysBeforeYear(c.year) + DaysBeforeMonth(c.year, c.month) + c.day - 1;
    var dayD := DaysBeforeYear(d.year) + DaysBeforeMonth(d.year, d.month) + d.day - 1;
    assert dayC == dayD;
    SameYear(c, d);
    SameYear(d, c);
    SameMonth(c, d);
    SameMonth(d, c);
  }

  lemma DayFits(c: Civil)
    requires ValidCivil(c)
    ensures TimeOfDay(c) < DAY
    ensures 0 <= DaysBeforeMonth(c.year, c.month) + c.day - 1 < DaysInYear(c.year)
  {
    MonthsGrow(c.year, c.month + 1, 13);
    YearsAdd(c.year);
  }

  lemma SameYear(c: Civil, d: Civil)
    requires ValidCivil(c) && ValidCivil(d)
    requires DaysBeforeYear(c.year) + DaysBeforeMonth(c.year, c.month) + c.day
             == DaysBeforeYear(d.year) + DaysBeforeMonth(d.year, d.month) + d.day
    ensures c.year <= d.year
  {
    DayFits(c);
    DayFits(d);
    if d.year < c.year {
      YearsAdd(d.year);
      YearsGrow(d.year + 1, c.year);
    }
  }

  lemma SameMonth(c: Civil, d: Civil)
    requires ValidCivil(c) && ValidCivil(d) && c.year == d.year
    requires DaysBeforeMonth(c.year, c.month) + c.day == DaysBeforeMonth(d.year, d.month) + d.day
    ensures c.month <= d.month
  {
    if d.month < c.month {
      MonthsGrow(c.year, d.month + 1, c.month);
    }
  }

  // ---------------------------------------------------------------- the one text of a UTC date

  function Pad(n: nat, width: nat): (s: string)
    ensures |s| == width && AllDigits(s)
  {
    if width == 0 then [] else Pad(n / 10, width - 1) + [Digit(n % 10)]
  }

  lemma ValueOfLast(front: string, last: char)
    requires AllDigits(front) && IsDigit(last)
    ensures Value(front + [last]) == 10 * Value(front) + DigitValue(last)
  {
    assert (front + [last])[..|front|] == front;
  }

  lemma {:induction false} ValueOfPad(n: nat, width: nat)
    requires n < Pow10(width)
    ensures Value(Pad(n, width)) == n
  {
    if width > 0 {
      var front, last := Pad(n / 10, width - 1), Digit(n % 10);
      assert n / 10 < Pow10(width - 1);
      ValueOfPad(n / 10, width - 1);
      ValueOfLast(front, last);
    }
  }

  lemma LastDigit(n: nat, d: nat)
    requires d < 10
    ensures (10 * n + d) / 10 == n && (10 * n + d) % 10 == d
  {
  }

  lemma {:induction false} PadOfValue(s: string)
    requires AllDigits(s)
    ensures Pad(Value(s), |s|) == s && Value(s) < Pow10(|s|)
    decreases |s|
  {
    if s != [] {
      var front, last := s[..|s| - 1], s[|s| - 1];
      PadOfValue(front);
      LastDigit(Value(front), DigitValue(last));
      assert Digit(DigitValue(last)) == last;
      assert s == front + [last];
    }
  }

  /** A zero-padded number and what separates it from the rest. */
  function Put(n: nat, width: nat, mark: string, rest: string): string {
    Pad(n, width) + (mark + rest)
  }

  datatype Field = Field(n: nat, rest: string)

  function Take(s: string, width: nat, mark: string): Option<Field> {
    if |s| >= width + |mark| && AllDigits(s[..width]) && s[width..width + |mark|] == mark
    then Some(Field(Value(s[..width]), s[width + |mark|..]))
    else None
  }

  /** Reading takes exactly what writing puts. */
  lemma TakeIff(s: string, width: nat, mark: string, n: nat, rest: string)
    ensures Take(s, width, mark) == Some(Field(n, rest)) <==> n < Pow10(width) && s == Put(n, width, mark, rest)
  {
    if n < Pow10(width) && s == Put(n, width, mark, rest) {
      ValueOfPad(n, width);
      assert s[..width] == Pad(n, width) && s[width..] == mark + rest;
      assert s[width..width + |mark|] == s[width..][..|mark|] && s[width + |mark|..] == s[width..][|mark|..];
    }
    if Take(s, width, mark) == Some(Field(n, rest)) {
      PadOfValue(s[..width]);
      assert s == s[..width] + (s[width..width + |mark|] + s[width + |mark|..]);
    }
  }

  /** `isoformat(timespec="microseconds")` of a UTC date. */
  function Iso(c: Civil): string {
    Put(c.year, 4, "-", Put(c.month, 2, "-", Put(c.day, 2, "T", Time(c))))
  }

  function Time(c: Civil): string {
    Put(c.hour, 2, ":", Put(c.minute, 2, ":", Put(c.second, 2, ".", Put(c.micro, 6, "+00:00", []))))
  }

  /** `_decode_datetime`: only a valid date's own text is accepted. */
  function ParseIso(text: string): Option<Civil> {
    var year := Take(text, 4, "-");
    if year.None? then None
    else
      var month := Take(year.value.rest, 2, "-");
      if month.None? then None
      else
        var day := Take(month.value.rest, 2, "T");
        if day.None? then None else ParseTime(day.value.rest, year.value.n, month.value.n, day.value.n)
  }

  function ParseTime(text: string, year: nat, month: nat, day: nat): Option<Civil> {
    var hour := Take(text, 2, ":");
    if hour.None? then None
    else
      var minute := Take(hour.value.rest, 2, ":");
      if minute.None? then None
      else
        var second := Take(minute.value.rest, 2, ".");
        if second.None? then None
        else
          var micro := Take(second.value.rest, 6, "+00:00");
          if micro.None? || micro.value.rest != [] then None
          else
            var c := Civil(year, month, day, hour.value.n, minute.value.n, second.value.n, micro.value.n);
            if ValidCivil(c) then Some(c) else None
  }

  lemma SmallPowers()
    ensures Pow10(2) == 100 && Pow10(4) == 10_000 && Pow10(6) == 1_000_000
  {
    assert Pow10(3) == 1000 && Pow10(5) == 100_000;
  }

  lemma ParseTimeIff(text: string, c: Civil)
    ensures ParseTime(text, c.year, c.month, c.day) == Some(c) <==> ValidCivil(c) && text == Time(c)
  {
    hide Put, Take, Pow10;
    SmallPowers();
    var rest3 := Put(c.micro, 6, "+00:00", []);
    var rest2 := Put(c.second, 2, ".", rest3);
    var rest1 := Put(c.minute, 2, ":", rest2);
    TakeIff(text, 2, ":", c.hour, rest1);
    TakeIff(rest1, 2, ":", c.minute, rest2);
    TakeIff(rest2, 2, ".", c.second, rest3);
    TakeIff(rest3, 6, "+00:00", c.micro, []);
    if ParseTime(text, c.year, c.month, c.day) == Some(c) {
      var hour := Take(text, 2, ":").value;
      var minute := Take(hour.rest, 2, ":").value;
      var second := Take(minute.rest, 2, ".").value;
      TakeIff(text, 2, ":", hour.n, hour.rest);
      TakeIff(hour.rest, 2, ":", minute.n, minute.rest);
      TakeIff(minute.rest, 2, ".", second.n, second.rest);
      TakeIff(second.rest, 6, "+00:00", c.micro, []);
    }
  }

  /** The accepted texts are exactly the texts of valid dates, and each is read as its own date. */
  lemma ParseIsoIff(text: string, c: Civil)
    ensures ParseIso(text) == Some(c) <==> ValidCivil(c) && text == Iso(c)
  {
    hide Put, Take, Pow10, Time, ParseTime;
    SmallPowers();
    var rest2 := Put(c.day, 2, "T", Time(c));
    var rest1 := Put(c.month, 2, "-", rest2);
    TakeIff(text, 4, "-", c.year, rest1);
    TakeIff(rest1, 2, "-", c.month, rest2);
    TakeIff(rest2, 2, "T", c.day, Time(c));
    ParseTimeIff(Time(c), c);
    if ParseIso(text) == Some(c) {
      var year := Take(text, 4, "-").value;
      var month := Take(year.rest, 2, "-").value;
      var day := Take(month.rest, 2, "T").value;
      TakeIff(text, 4, "-", year.n, year.rest);
      TakeIff(year.rest, 2, "-", month.n, month.rest);
      TakeIff(month.rest, 2, "T", day.n, day.rest);
      ParseTimeKeepsDate(day.rest, year.n, month.n, day.n);
      ParseTimeIff(day.rest, c);
    }
  }

  lemma ParseTimeKeepsDate(text: string, year: nat, month: nat, day: nat)
    ensures var c := ParseTime(text, year, month, day);
            c.Some? ==> c.value.year == year && c.value.month == month && c.value.day == day
  {
  }

  lemma IsoIsPlain(c: Civil)
    ensures |Iso(c)| == 32
    ensures forall i :: 0 <= i < |Iso(c)| ==> IsDigit(Iso(c)[i]) || Iso(c)[i] in "-T:.+"
  {
    hide Pad;
    TimeIsPlain(c);
  }

  lemma TimeIsPlain(c: Civil)
    ensures |Time(c)| == 21
    ensures forall i :: 0 <= i < |Time(c)| ==> IsDigit(Time(c)[i]) || Time(c)[i] in "-T:.+"
  {
    hide Pad;
  }

  /** Where each number stands in the text. */
  lemma IsoShape(c: Civil)
    requires ValidCivil(c)
    ensures var s := Iso(c);
            && |s| == 32 && s[4] == '-' && s[7] == '-' && s[10] == 'T' && s[13] == ':' && s[16] == ':' && s[19] == '.'
            && s[26..] == "+00:00"
            && AllDigits(s[..4]) && Value(s[..4]) == c.year
            && AllDigits(s[5..7]) && Value(s[5..7]) == c.month && AllDigits(s[8..10]) && Value(s[8..10]) == c.day
            && AllDigits(s[11..13]) && Value(s[11..13]) == c.hour && AllDigits(s[14..16]) && Value(s[14..16]) == c.minute
            && AllDigits(s[17..19]) && Value(s[17..19]) == c.second && AllDigits(s[20..26]) && Value(s[20..26]) == c.micro
  {
    hide Pad, Value, Pow10, Put, Time;
    SmallPowers();
    var s, time := Iso(c), Time(c);
    TimeShape(c);
    PutShape(c.year, 4, "-", Put(c.month, 2, "-", Put(c.day, 2, "T", time)));
    PutShape(c.month, 2, "-", Put(c.day, 2, "T", time));
    PutShape(c.day, 2, "T", time);
    assert s[5..][..2] == s[5..7] && s[8..][..2] == s[8..10];
    assert s[11..] == time;
    assert time[..2] == s[11..13] && time[3..5] == s[14..16] && time[6..8] == s[17..19] && time[9..15] == s[20..26];
    assert time[15..] == s[26..];
  }

  lemma TimeShape(c: Civil)
    requires ValidCivil(c)
    ensures var s := Time(c);
            && |s| == 21 && s[2] == ':' && s[5] == ':' && s[8] == '.' && s[15..] == "+00:00"
            && AllDigits(s[..2]) && Value(s[..2]) == c.hour && AllDigits(s[3..5]) && Value(s[3..5]) == c.minute
            && AllDigits(s[6..8]) && Value(s[6..8]) == c.second && AllDigits(s[9..15]) && Value(s[9..15]) == c.micro
  {
    hide Pad, Value, Pow10, Put;
    SmallPowers();
    var s := Time(c);
    PutShape(c.hour, 2, ":", Put(c.minute, 2, ":", Put(c.second, 2, ".", Put(c.micro, 6, "+00:00", []))));
    PutShape(c.minute, 2, ":", Put(c.second, 2, ".", Put(c.micro, 6, "+00:00", [])));
    PutShape(c.second, 2, ".", Put(c.micro, 6, "+00:00", []));
    PutShape(c.micro, 6, "+00:00", []);
    assert s[3..][..2] == s[3..5] && s[6..][..2] == s[6..8] && s[9..][..6] == s[9..15] && s[9..][6..] == s[15..];
  }

  lemma PutShape(n: nat, width: nat, mark: string, rest: string)
    requires n < Pow10(width) && mark != []
    ensures var s := Put(n, width, mark, rest);
            && |s| == width + |mark| + |rest| && AllDigits(s[..width]) && Value(s[..width]) == n
            && s[width] == mark[0] && s[width..] == mark + rest && s[width + |mark|..] == rest
  {
    hide Value, Pow10;
    ValueOfPad(n, width);
    var s := Put(n, width, mark, rest);
    assert s[..width] == Pad(n, width) && s[width..] == mark + rest;
  }

  /** The Unix epoch is 719162 days after the first of January of year 1. */
  lemma KnownDays()
    ensures DaysBeforeYear(1970) == 719_162 && DaysBeforeYear(1) == 0
    ensures Leap(2000) && Leap(2024) && !Leap(1900) && !Leap(2023)
  {
  }
}
