/** The RFC 3339 text the store keeps for times: printed, compared as text, and read back. */
module Timestamps {
  import opened Prelude

  /** Nanoseconds after Go's zero time, 0001-01-01T00:00:00Z. */
  type Instant = int

  const ZERO_TIME: Instant := 0
  const SECOND := 1_000_000_000
  const DAY := 86_400
  const CYCLE := 146_097

  // ---- the proleptic Gregorian calendar ----

  predicate IsLeap(year: int) {
    year % 4 == 0 && (year % 100 != 0 || year % 400 == 0)
  }

  /** Days from 0001-01-01 to the first day of the year. */
  function YearStart(year: int): int {
    365 * (year - 1) + (year - 1) / 4 - (year - 1) / 100 + (year - 1) / 400
  }

  lemma Every(x: int, m: int)
    requires m == 4 || m == 100 || m == 400
    ensures x / m == (x - 1) / m + (if x % m == 0 then 1 else 0)
  {
    if m == 4 {
    } else if m == 100 {
    } else {
    }
  }

  lemma Multiples(k: int)
    ensures 100 * k % 100 == 0 && 4 * k % 4 == 0
  {
  }

  lemma CenturiesNest(year: int)
    ensures year % 400 == 0 ==> year % 100 == 0
    ensures year % 100 == 0 ==> year % 4 == 0
  {
    Multiples(4 * (year / 400));
    Multiples(25 * (year / 100));
  }

  lemma YearLength(year: int)
    ensures YearStart(year + 1) == YearStart(year) + (if IsLeap(year) then 366 else 365)
  {
    CenturiesNest(year);
    Every(year, 4);
    Every(year, 100);
    Every(year, 400);
  }

  lemma CycleShift(q: int, x: int)
    ensures (400 * q + x) / 4 == 100 * q + x / 4 && (400 * q + x) % 4 == x % 4
    ensures (400 * q + x) / 100 == 4 * q + x / 100 && (400 * q + x) % 100 == x % 100
    ensures (400 * q + x) / 400 == q + x / 400 && (400 * q + x) % 400 == x % 400
  {
  }

  lemma YearCycle(q: int, y: int)
    ensures YearStart(400 * q + y) == CYCLE * q + YearStart(y)
    ensures IsLeap(400 * q + y) == IsLeap(y)
  {
    CycleShift(q, y - 1);
    CycleShift(q, y);
    assert 400 * q + y - 1 == 400 * q + (y - 1);
  }

  /** The year of the cycle's day r, searched for from year y on. */
  function YearIn(r: int, y: int): (year: int)
    requires 1 <= y <= 400 && YearStart(y) <= r < CYCLE
    ensures y <= year <= 400 && YearStart(year) <= r < YearStart(year + 1)
    decreases 400 - y
  {
    if y == 400 || r < YearStart(y + 1) then y else YearIn(r, y + 1)
  }

  lemma YearInCycle(q: int, r: int, y: int)
    requires YearStart(y) <= r < YearStart(y + 1)
    ensures YearStart(400 * q + y) <= CYCLE * q + r < YearStart(400 * q + y + 1)
  {
    YearCycle(q, y);
    YearCycle(q, y + 1);
    assert 400 * q + (y + 1) == 400 * q + y + 1;
  }

  function YearOf(day: int): (year: int)
    ensures YearStart(year) <= day < YearStart(year + 1)
  {
    var y := YearIn(day % CYCLE, 1);
    YearInCycle(day / CYCLE, day % CYCLE, y);
    400 * (day / CYCLE) + y
  }

  lemma {:induction false} YearStartMonotone(a: int, b: int)
    ensures a <= b ==> YearStart(a) <= YearStart(b)
    decreases if a < b then b - a else 0
  {
    if a < b {
      YearLength(a);
      YearStartMonotone(a + 1, b);
    }
  }

  const MONTHS: seq<int> := [0, 31, 59, 90, 120, 151, 181, 212, 243, 273, 304, 334, 365]

  /** Days of the year before month m; month 13 is the year's end. */
  function MonthStart(leap: bool, m: int): int
    requires 1 <= m <= 13
  {
    MONTHS[m - 1] + if leap && m > 2 then 1 else 0
  }

  function MonthIn(leap: bool, dayOfYear: int, m: int): (month: int)
    requires 1 <= m <= 12 && MonthStart(leap, m) <= dayOfYear < MonthStart(leap, 13)
    ensures m <= month <= 12 && MonthStart(leap, month) <= dayOfYear < MonthStart(leap, month + 1)
    decreases 12 - m
  {
    if m == 12 || dayOfYear < MonthStart(leap, m + 1) then m else MonthIn(leap, dayOfYear, m + 1)
  }

  lemma {:induction false} MonthStartMonotone(leap: bool, a: int, b: int)
    requires 1 <= a <= 13 && 1 <= b <= 13
    ensures a <= b ==> MonthStart(leap, a) <= MonthStart(leap, b)
    decreases if a < b then b - a else 0
  {
    if a < b {
      MonthStartMonotone(leap, a + 1, b);
    }
  }

  /** fs is the year, month and day of the day number. */
  predicate IsDate(fs: seq<int>, day: int) {
    && |fs| == 3 && 1 <= fs[1] <= 12 && 1 <= fs[2] <= 31
    && YearStart(fs[0]) <= day < YearStart(fs[0] + 1)
    && day - YearStart(fs[0]) < MonthStart(IsLeap(fs[0]), fs[1] + 1)
    && YearStart(fs[0]) + MonthStart(IsLeap(fs[0]), fs[1]) + fs[2] - 1 == day
  }

  function DateInYear(day: int, year: int): (fs: seq<int>)
    requires YearStart(year) <= day < YearStart(year + 1)
    ensures IsDate(fs, day)
  {
    YearLength(year);
    var dayOfYear := day - YearStart(year);
    var month := MonthIn(IsLeap(year), dayOfYear, 1);
    [year, month, dayOfYear - MonthStart(IsLeap(year), month) + 1]
  }

  function DateFields(day: int): (fs: seq<int>)
    ensures IsDate(fs, day)
  {
    DateInYear(day, YearOf(day))
  }

  predicate IsClock(fs: seq<int>, inDay: int) {
    && |fs| == 3 && 0 <= fs[0] < 24 && 0 <= fs[1] < 60 && 0 <= fs[2] < 60
    && fs[0] * 3600 + fs[1] * 60 + fs[2] == inDay
  }

  function ClockFields(inDay: int): (fs: seq<int>)
    requires 0 <= inDay < DAY
    ensures IsClock(fs, inDay)
  {
    [inDay / 3600, inDay % 3600 / 60, inDay % 60]
  }

  /** The civil fields of a count of seconds: year, month, day, hour, minute, second. */
  function Fields(seconds: int): (fs: seq<int>)
    ensures |fs| == 6
  {
    DateFields(seconds / DAY) + ClockFields(seconds % DAY)
  }

  /** What Go's time.Date makes of fields in range. */
  function SecondsOf(fs: seq<int>): int
    requires |fs| == 6 && 1 <= fs[1] <= 12
  {
    (YearStart(fs[0]) + MonthStart(IsLeap(fs[0]), fs[1]) + fs[2] - 1) * DAY
    + fs[3] * 3600 + fs[4] * 60 + fs[5]
  }

  lemma FieldsDenoteSeconds(seconds: int)
    ensures 1 <= Fields(seconds)[1] <= 12 && SecondsOf(Fields(seconds)) == seconds
  {
    var date, clock := DateFields(seconds / DAY), ClockFields(seconds % DAY);
    var fs := Fields(seconds);
    assert fs[0] == date[0] && fs[1] == date[1] && fs[2] == date[2];
    assert fs[3] == clock[0] && fs[4] == clock[1] && fs[5] == clock[2];
  }

  predicate NumbersLess(a: seq<int>, b: seq<int>)
    requires |a| == |b|
  {
    a != [] && (a[0] < b[0] || (a[0] == b[0] && NumbersLess(a[1..], b[1..])))
  }

  lemma ThreeNumbersLess(a: seq<int>, b: seq<int>)
    requires |a| == |b| == 3
    ensures NumbersLess(a, b) <==>
      a[0] < b[0] || (a[0] == b[0] && (a[1] < b[1] || (a[1] == b[1] && a[2] < b[2])))
  {
    assert a[1..][1..] == a[2..] && b[1..][1..] == b[2..];
    assert NumbersLess(a[2..], b[2..]) <==> a[2] < b[2];
  }

  lemma {:induction false} NumbersLessAppend(a: seq<int>, b: seq<int>, x: seq<int>, y: seq<int>)
    requires |a| == |b| && |x| == |y|
    ensures NumbersLess(a + x, b + y) <==> NumbersLess(a, b) || (a == b && NumbersLess(x, y))
  {
    if a == [] {
      assert a + x == x && b + y == y;
    } else {
      NumbersLessAppend(a[1..], b[1..], x, y);
      assert (a + x)[1..] == a[1..] + x && (b + y)[1..] == b[1..] + y;
      assert a == [a[0]] + a[1..] && b == [b[0]] + b[1..];
    }
  }

  lemma DatesOrdered(fa: seq<int>, fb: seq<int>, a: int, b: int)
    requires IsDate(fa, a) && IsDate(fb, b) && a < b
    ensures NumbersLess(fa, fb)
  {
    ThreeNumbersLess(fa, fb);
    YearStartMonotone(fb[0] + 1, fa[0]);
    MonthStartMonotone(IsLeap(fa[0]), fb[1] + 1, fa[1]);
  }

  lemma DatesUnique(fa: seq<int>, fb: seq<int>, day: int)
    requires IsDate(fa, day) && IsDate(fb, day)
    ensures fa == fb
  {
    YearStartMonotone(fa[0] + 1, fb[0]);
    YearStartMonotone(fb[0] + 1, fa[0]);
    assert fa[0] == fb[0];
    MonthStartMonotone(IsLeap(fa[0]), fa[1] + 1, fb[1]);
    MonthStartMonotone(IsLeap(fa[0]), fb[1] + 1, fa[1]);
    assert fa[1] == fb[1];
  }

  /** Civil fields are ordered as the instants they denote. */
  lemma FieldsOrdered(a: int, b: int)
    requires a < b
    ensures NumbersLess(Fields(a), Fields(b))
  {
    SplitFieldsOrdered(a / DAY, b / DAY, a % DAY, b % DAY,
                       DateFields(a / DAY), DateFields(b / DAY), ClockFields(a % DAY), ClockFields(b % DAY));
  }

  lemma SplitFieldsOrdered(dayA: int, dayB: int, clockA: int, clockB: int,
                           da: seq<int>, db: seq<int>, ca: seq<int>, cb: seq<int>)
    requires dayA < dayB || (dayA == dayB && clockA < clockB)
    requires IsDate(da, dayA) && IsDate(db, dayB) && IsClock(ca, clockA) && IsClock(cb, clockB)
    ensures NumbersLess(da + ca, db + cb)
  {
    NumbersLessAppend(da, db, ca, cb);
    if dayA < dayB {
      DatesOrdered(da, db, dayA, dayB);
    } else {
      DatesUnique(da, db, dayA);
      ThreeNumbersLess(ca, cb);
    }
  }

  // ---- printing ----

  /** n in exactly `width` digits (the low ones when it does not fit). */
  function Pad(n: nat, width: nat): (s: string)
    ensures |s| == width && AllDigits(s)
  {
    if width == 0 then "" else Pad(n / 10, width - 1) + [Digit(n % 10)]
  }

  function Zeros(k: nat): (s: string)
    ensures |s| == k && AllDigits(s)
  {
    if k == 0 then "" else "0" + Zeros(k - 1)
  }

  function TrimZeros(s: string): (r: string)
    ensures r <= s
  {
    if s != "" && s[|s| - 1] == '0' then TrimZeros(s[..|s| - 1]) else s
  }

  /** Each field's width and the text after it. */
  const LAYOUT: seq<(nat, string)> := [(4, "-"), (2, "-"), (2, "T"), (2, ":"), (2, ":"), (2, "")]

  predicate NonNegative(ns: seq<int>) {
    forall i :: 0 <= i < |ns| ==> 0 <= ns[i]
  }

  function FieldsText(ns: seq<int>, layout: seq<(nat, string)>): string
    requires |ns| == |layout| && NonNegative(ns)
  {
    if ns == [] then ""
    else Pad(ns[0], layout[0].0) + layout[0].1 + FieldsText(ns[1..], layout[1..])
  }

  function Abs(x: int): nat { if x < 0 then -x else x }

  /** Years are padded to four digits and may be longer, or signed. */
  function YearText(year: int): string {
    var digits := if -10_000 < year < 10_000 then Pad(Abs(year), 4) else Decimal(Abs(year));
    if year < 0 then "-" + digits else digits
  }

  /** The fraction's digits without trailing zeros; none for a whole second. */
  function FractionDigits(nanos: nat): (s: string)
    ensures |s| <= 9 && AllDigits(s)
  {
    TrimZeros(Pad(nanos, 9))
  }

  /** The text after the whole seconds: a point and the digits if there are any, and the zone. */
  function Ending(digits: string): string {
    if digits == "" then "Z" else "." + (digits + "Z")
  }

  function WholeSecond(t: Instant): int { t / SECOND }

  function Nanos(t: Instant): nat { t % SECOND }

  /** Whether the UTC year is one RFC 3339 can write. */
  predicate FourDigitYear(t: Instant) {
    0 <= Fields(WholeSecond(t))[0] <= 9999
  }

  function SecondText(seconds: int): string {
    var fs := Fields(seconds);
    FieldsDenoteSeconds(seconds);
    YearText(fs[0]) + "-" + FieldsText(fs[1..], LAYOUT[1..])
  }

  function StampText(t: Instant): string {
    SecondText(WholeSecond(t)) + Ending(FractionDigits(Nanos(t)))
  }

  /** The stored text of a time: nothing for the zero time. */
  function FormatTime(t: Instant): string {
    if t == ZERO_TIME then "" else StampText(t)
  }

  // ---- reading back ----

  function ReadFields(s: string, layout: seq<(nat, string)>): (r: Option<(seq<int>, string)>)
    ensures r.Some? ==> |r.value.0| == |layout|
  {
    if layout == [] then Some(([], s))
    else
      var (width, sep) := layout[0];
      if |s| < width + |sep| || !AllDigits(s[..width]) || s[width..width + |sep|] != sep then None
      else match ReadFields(s[width + |sep|..], layout[1..])
        case None => None
        case Some((ns, rest)) => Some(([Number(s[..width])] + ns, rest))
  }

  predicate InCalendar(fs: seq<int>)
    requires |fs| == 6
  {
    && 1 <= fs[1] <= 12
    && 1 <= fs[2] <= MonthStart(IsLeap(fs[0]), fs[1] + 1) - MonthStart(IsLeap(fs[0]), fs[1])
    && 0 <= fs[3] < 24 && 0 <= fs[4] < 60 && 0 <= fs[5] < 60
  }

  lemma ClocksUnique(ca: seq<int>, cb: seq<int>, inDay: int)
    requires IsClock(ca, inDay) && IsClock(cb, inDay)
    ensures ca == cb
  {
    assert ca[0] == cb[0] && ca[1] == cb[1] && ca[2] == cb[2];
  }

  lemma CalendarDate(fs: seq<int>)
    requires |fs| == 6 && InCalendar(fs)
    ensures IsDate(fs[..3], YearStart(fs[0]) + MonthStart(IsLeap(fs[0]), fs[1]) + fs[2] - 1)
  {
    YearLength(fs[0]);
    MonthStartMonotone(IsLeap(fs[0]), fs[1] + 1, 13);
    MonthStartMonotone(IsLeap(fs[0]), 1, fs[1]);
  }

  /** Fields are in range exactly when they are the fields of the instant they denote: there is
      no other February 29, and no hour 24. */
  lemma CalendarExactly(fs: seq<int>)
    requires |fs| == 6 && 1 <= fs[1] <= 12
    ensures InCalendar(fs) <==> Fields(SecondsOf(fs)) == fs
  {
    if InCalendar(fs) {
      var day := YearStart(fs[0]) + MonthStart(IsLeap(fs[0]), fs[1]) + fs[2] - 1;
      var inDay := fs[3] * 3600 + fs[4] * 60 + fs[5];
      DayAndClock(day, inDay, SecondsOf(fs));
      CalendarDate(fs);
      DatesUnique(DateFields(day), fs[..3], day);
      assert IsClock(fs[3..], inDay);
      ClocksUnique(ClockFields(inDay), fs[3..], inDay);
      assert fs == fs[..3] + fs[3..];
    }
    if Fields(SecondsOf(fs)) == fs {
      var date, clock := DateFields(SecondsOf(fs) / DAY), ClockFields(SecondsOf(fs) % DAY);
      assert fs[0] == date[0] && fs[1] == date[1] && fs[2] == date[2];
      assert fs[3] == clock[0] && fs[4] == clock[1] && fs[5] == clock[2];
    }
  }

  lemma DayAndClock(day: int, inDay: int, seconds: int)
    requires 0 <= inDay < DAY && seconds == day * DAY + inDay
    ensures seconds / DAY == day && seconds % DAY == inDay
  {
  }

  function NanosOf(digits: string): nat
    requires |digits| <= 9 && AllDigits(digits)
  {
    Number(digits + Zeros(9 - |digits|))
  }

  /** The nanoseconds of what follows the seconds: "Z", or a point, digits and "Z". */
  function ReadFraction(s: string): Option<nat> {
    if s == "Z" then Some(0)
    else if 3 <= |s| <= 11 && s[0] == '.' && s[|s| - 1] == 'Z' && AllDigits(s[1..|s| - 1])
    then Some(NanosOf(s[1..|s| - 1]))
    else None
  }

  function Assemble(fs: seq<int>, nanos: Option<nat>): Option<Instant>
    requires |fs| == 6
  {
    if InCalendar(fs) && nanos.Some? then Some(SecondsOf(fs) * SECOND + nanos.value) else None
  }

  /** time.Parse for the UTC form of RFC 3339. */
  function ParseTime(s: string): Option<Instant> {
    match ReadFields(s, LAYOUT)
    case None => None
    case Some(parts) => Assemble(parts.0, ReadFraction(parts.1))
  }

  /** How a stored time column is scanned: empty text leaves the zero time. */
  function ScanTime(raw: string): Option<Instant> {
    if raw == "" then Some(ZERO_TIME) else ParseTime(raw)
  }

  // ---- what was printed is read back ----

  function Power10(k: nat): nat {
    if k == 0 then 1 else 10 * Power10(k - 1)
  }

  lemma {:induction false} NumberOfPad(n: nat, width: nat)
    requires n < Power10(width)
    ensures Number(Pad(n, width)) == n
  {
    if width > 0 {
      NumberOfPad(n / 10, width - 1);
      assert Pad(n, width)[..width - 1] == Pad(n / 10, width - 1);
    }
  }

  predicate Fits(ns: seq<int>, layout: seq<(nat, string)>)
    requires |ns| == |layout|
  {
    forall i :: 0 <= i < |ns| ==> 0 <= ns[i] < Power10(layout[i].0)
  }

  lemma CutInThree(a: string, b: string, c: string)
    ensures var s := a + b + c; s[..|a|] == a && s[|a|..|a| + |b|] == b && s[|a| + |b|..] == c
  {
  }

  lemma {:induction false} FieldsReadBack(ns: seq<int>, layout: seq<(nat, string)>, rest: string)
    requires |ns| == |layout| && Fits(ns, layout)
    ensures ReadFields(FieldsText(ns, layout) + rest, layout) == Some((ns, rest))
  {
    if ns == [] {
      assert FieldsText(ns, layout) + rest == rest;
    } else {
      var (width, sep) := layout[0];
      var tail := FieldsText(ns[1..], layout[1..]) + rest;
      var s := FieldsText(ns, layout) + rest;
      assert s == Pad(ns[0], width) + sep + tail;
      CutInThree(Pad(ns[0], width), sep, tail);
      NumberOfPad(ns[0], width);
      FieldsReadBack(ns[1..], layout[1..], rest);
      assert [ns[0]] + ns[1..] == ns;
    }
  }

  lemma {:induction false} TrimmedZeros(s: string)
    ensures s == TrimZeros(s) + Zeros(|s| - |TrimZeros(s)|)
  {
    if s != "" && s[|s| - 1] == '0' {
      var front := s[..|s| - 1];
      TrimmedZeros(front);
      ZerosEnd(|front| - |TrimZeros(front)|);
      assert s == front + "0";
    }
  }

  lemma {:induction false} ZerosEnd(k: nat)
    ensures Zeros(k) + "0" == Zeros(k + 1)
  {
    if k > 0 {
      ZerosEnd(k - 1);
      assert Zeros(k) + "0" == "0" + (Zeros(k - 1) + "0");
    }
  }

  lemma NineDigits(n: nat)
    requires n < SECOND
    ensures n < Power10(9) && Number(Pad(n, 9)) == n
    ensures Pad(n, 9) == FractionDigits(n) + Zeros(9 - |FractionDigits(n)|)
  {
    NinePlaces();
    NumberOfPad(n, 9);
    TrimmedZeros(Pad(n, 9));
  }

  lemma {:induction false} NumberOfZeros(k: nat)
    ensures Number(Zeros(k)) == 0
  {
    if k > 0 {
      ZerosEnd(k - 1);
      assert Zeros(k)[..k - 1] == Zeros(k - 1);
      NumberOfZeros(k - 1);
    }
  }

  lemma EndingReadsBack(digits: string)
    requires |digits| <= 9 && AllDigits(digits)
    ensures ReadFraction(Ending(digits)) == Some(NanosOf(digits))
  {
    if digits == "" {
      NumberOfZeros(9);
      assert digits + Zeros(9) == Zeros(9);
    } else {
      var s := Ending(digits);
      assert |s| == |digits| + 2 && s[1..|s| - 1] == digits;
    }
  }

  lemma FractionReadsBack(nanos: nat)
    requires nanos < SECOND
    ensures ReadFraction(Ending(FractionDigits(nanos))) == Some(nanos)
  {
    NineDigits(nanos);
    EndingReadsBack(FractionDigits(nanos));
  }

  lemma {:induction false} PadZero(k: nat)
    ensures Pad(0, k) == Zeros(k)
  {
    if k > 0 {
      PadZero(k - 1);
      ZerosEnd(k - 1);
    }
  }

  lemma FieldsFit(t: Instant)
    requires FourDigitYear(t)
    ensures Fits(Fields(WholeSecond(t)), LAYOUT) && InCalendar(Fields(WholeSecond(t)))
    ensures SecondText(WholeSecond(t)) == FieldsText(Fields(WholeSecond(t)), LAYOUT)
  {
    var date, clock := DateFields(WholeSecond(t) / DAY), ClockFields(WholeSecond(t) % DAY);
    var fs := Fields(WholeSecond(t));
    assert fs[0] == date[0] && fs[1] == date[1] && fs[2] == date[2];
    assert fs[3] == clock[0] && fs[4] == clock[1] && fs[5] == clock[2];
    assert Power10(2) == 100 && Power10(4) == 10_000 by { assert Power10(1) == 10; }
  }

  lemma ParseReadsFields(fs: seq<int>, nanos: nat)
    requires |fs| == 6 && Fits(fs, LAYOUT) && nanos < SECOND
    ensures ParseTime(FieldsText(fs, LAYOUT) + Ending(FractionDigits(nanos))) == Assemble(fs, Some(nanos))
  {
    FieldsReadBack(fs, LAYOUT, Ending(FractionDigits(nanos)));
    FractionReadsBack(nanos);
  }

  lemma InstantAssembled(t: Instant)
    requires FourDigitYear(t)
    ensures Assemble(Fields(WholeSecond(t)), Some(Nanos(t))) == Some(t)
  {
    FieldsFit(t);
    FieldsDenoteSeconds(WholeSecond(t));
    assert WholeSecond(t) * SECOND + Nanos(t) == t;
  }

  /** scanWorkflow reads back exactly the time formatTime wrote, the zero time included. */
  lemma StampReadsBack(t: Instant)
    requires FourDigitYear(t)
    ensures ScanTime(FormatTime(t)) == Some(t)
  {
    if t != ZERO_TIME {
      var head, digits := SecondText(WholeSecond(t)), FractionDigits(Nanos(t));
      assert head + Ending(digits) != "" by { EndingNonEmpty(digits); }
      assert ParseTime(head + Ending(digits)) == Some(t) by {
        FieldsFit(t);
        ParseReadsFields(Fields(WholeSecond(t)), Nanos(t));
        InstantAssembled(t);
      }
    }
  }

  lemma EndingNonEmpty(digits: string)
    ensures Ending(digits) != ""
  {
  }

  // ---- text order against time order ----

  lemma {:induction false} PadOrdered(m: nat, n: nat, width: nat)
    requires m < n < Power10(width)
    ensures LexLess(Pad(m, width), Pad(n, width))
  {
    if width > 0 {
      LexSameLength(Pad(m / 10, width - 1), Pad(n / 10, width - 1), [Digit(m % 10)], [Digit(n % 10)]);
      if m / 10 < n / 10 {
        PadOrdered(m / 10, n / 10, width - 1);
      }
    }
  }

  lemma {:induction false} FieldsTextOrdered(a: seq<int>, b: seq<int>, layout: seq<(nat, string)>)
    requires |a| == |b| == |layout| && Fits(a, layout) && Fits(b, layout) && NumbersLess(a, b)
    ensures |FieldsText(a, layout)| == |FieldsText(b, layout)|
    ensures LexLess(FieldsText(a, layout), FieldsText(b, layout))
  {
    var (width, sep) := layout[0];
    var ta, tb := FieldsText(a[1..], layout[1..]), FieldsText(b[1..], layout[1..]);
    FieldsTextLength(a[1..], b[1..], layout[1..]);
    assert FieldsText(a, layout) == Pad(a[0], width) + (sep + ta);
    assert FieldsText(b, layout) == Pad(b[0], width) + (sep + tb);
    LexSameLength(Pad(a[0], width), Pad(b[0], width), sep + ta, sep + tb);
    if a[0] < b[0] {
      PadOrdered(a[0], b[0], width);
    } else {
      LexCommonPrefix(sep, ta, tb);
      FieldsTextOrdered(a[1..], b[1..], layout[1..]);
    }
  }

  lemma {:induction false} FieldsTextLength(a: seq<int>, b: seq<int>, layout: seq<(nat, string)>)
    requires |a| == |b| == |layout| && NonNegative(a) && NonNegative(b)
    ensures |FieldsText(a, layout)| == |FieldsText(b, layout)|
  {
    if a != [] {
      FieldsTextLength(a[1..], b[1..], layout[1..]);
    }
  }

  /** The later time's fraction continues the earlier one's, in the same second: 'Z' is
      then compared with a digit, or with the point, and sorts after it. */
  predicate Shadowed(a: Instant, b: Instant) {
    WholeSecond(a) == WholeSecond(b) && FractionDigits(Nanos(a)) < FractionDigits(Nanos(b))
  }

  lemma {:induction false} ZerosLeast(s: string)
    requires AllDigits(s)
    ensures !LexLess(s, Zeros(|s|))
  {
    if s != "" {
      ZerosLeast(s[1..]);
      assert Zeros(|s|)[1..] == Zeros(|s[1..]|);
    }
  }

  /** Digits closed by 'Z' sort as the padded digits do, unless one run continues the other. */
  lemma {:induction false} ClosedDigitsOrdered(x: string, y: string, i: nat, j: nat)
    requires AllDigits(x) && AllDigits(y) && |x| + i == |y| + j
    requires LexLess(x + Zeros(i), y + Zeros(j))
    ensures LexLess(x + "Z", y + "Z") <==> !(x < y)
  {
    if x == "" {
      if y == "" {
        LexIrreflexive(x + Zeros(i));
        assert false;
      }
    } else if y == "" {
      assert y + Zeros(j) == Zeros(j);
      ZerosLeast(x + Zeros(i));
      assert false;
    } else {
      assert (x + Zeros(i))[1..] == x[1..] + Zeros(i) && (y + Zeros(j))[1..] == y[1..] + Zeros(j);
      assert (x + "Z")[1..] == x[1..] + "Z" && (y + "Z")[1..] == y[1..] + "Z";
      assert x == [x[0]] + x[1..] && y == [y[0]] + y[1..];
      if x[0] == y[0] {
        ClosedDigitsOrdered(x[1..], y[1..], i, j);
      }
    }
  }

  lemma NinePlaces()
    ensures Power10(9) == SECOND
  {
    assert Power10(5) == 100_000;
  }

  lemma PaddedTextsOrdered(s: string, t: string, x: string, y: string)
    requires |s| == |t| && AllDigits(s) && AllDigits(t) && LexLess(s, t)
    requires x <= s && y <= t && s == x + Zeros(|s| - |x|) && t == y + Zeros(|t| - |y|)
    ensures LexLess(Ending(x), Ending(y)) <==> !(x < y)
    ensures Ending(x) != Ending(y)
  {
    LexIrreflexive(s);
    EndingsOrdered(x, y, |s| - |x|, |t| - |y|);
  }

  lemma TrimmedTextsOrdered(s: string, t: string)
    requires |s| == |t| && AllDigits(s) && AllDigits(t) && LexLess(s, t)
    ensures LexLess(Ending(TrimZeros(s)), Ending(TrimZeros(t))) <==> !(TrimZeros(s) < TrimZeros(t))
    ensures Ending(TrimZeros(s)) != Ending(TrimZeros(t))
  {
    TrimmedZeros(s);
    TrimmedZeros(t);
    PaddedTextsOrdered(s, t, TrimZeros(s), TrimZeros(t));
  }

  lemma FractionsOrdered(m: nat, n: nat, x: string, y: string)
    requires m < n < SECOND && x == FractionDigits(m) && y == FractionDigits(n)
    ensures LexLess(Ending(x), Ending(y)) <==> !(x < y)
    ensures Ending(x) != Ending(y)
  {
    NinePlaces();
    PadOrdered(m, n, 9);
    TrimmedTextsOrdered(Pad(m, 9), Pad(n, 9));
  }

  lemma EndingsOrdered(x: string, y: string, i: nat, j: nat)
    requires AllDigits(x) && AllDigits(y) && |x| + i == |y| + j && x != y
    requires LexLess(x + Zeros(i), y + Zeros(j))
    ensures LexLess(Ending(x), Ending(y)) <==> !(x < y)
    ensures Ending(x) != Ending(y)
  {
    ClosedDigitsOrdered(x, y, i, j);
    if y == "" {
      assert y + Zeros(j) == Zeros(j);
      ZerosLeast(x + Zeros(i));
      assert false;
    } else if x != "" {
      LexCommonPrefix(".", x + "Z", y + "Z");
      assert Ending(x)[1..][..|x|] == x && Ending(y)[1..][..|y|] == y;
    }
  }

  /** The whole story for an earlier and a later time: their texts are in order exactly
      unless the earlier one is shadowed. */
  lemma EarlierSortsFirst(a: Instant, b: Instant)
    requires FourDigitYear(a) && FourDigitYear(b) && a < b
    ensures LexLess(StampText(a), StampText(b)) <==> !Shadowed(a, b)
    ensures StampText(a) != StampText(b)
  {
    var ta, tb := Ending(FractionDigits(Nanos(a))), Ending(FractionDigits(Nanos(b)));
    if WholeSecond(a) < WholeSecond(b) {
      FieldsFit(a);
      FieldsFit(b);
      FieldsOrdered(WholeSecond(a), WholeSecond(b));
      EarlierFieldsSortFirst(Fields(WholeSecond(a)), Fields(WholeSecond(b)), ta, tb);
    } else {
      FractionsOrdered(Nanos(a), Nanos(b), FractionDigits(Nanos(a)), FractionDigits(Nanos(b)));
      SameHead(SecondText(WholeSecond(a)), ta, tb);
    }
  }

  lemma SameHead(head: string, ta: string, tb: string)
    requires ta != tb
    ensures LexLess(head + ta, head + tb) == LexLess(ta, tb) && head + ta != head + tb
  {
    LexCommonPrefix(head, ta, tb);
    assert (head + ta)[|head|..] == ta && (head + tb)[|head|..] == tb;
  }

  lemma EarlierFieldsSortFirst(fa: seq<int>, fb: seq<int>, ta: string, tb: string)
    requires |fa| == |fb| == 6 && Fits(fa, LAYOUT) && Fits(fb, LAYOUT) && NumbersLess(fa, fb)
    ensures LexLess(FieldsText(fa, LAYOUT) + ta, FieldsText(fb, LAYOUT) + tb)
    ensures FieldsText(fa, LAYOUT) + ta != FieldsText(fb, LAYOUT) + tb
  {
    FieldsTextOrdered(fa, fb, LAYOUT);
    LexSameLength(FieldsText(fa, LAYOUT), FieldsText(fb, LAYOUT), ta, tb);
    LexIrreflexive(FieldsText(fa, LAYOUT) + ta);
  }

  /** Stored texts are in `<=` order exactly when the times are and neither shadows the other,
      or when they are the wrong way round and shadowed. */
  lemma TextOrderExactly(a: Instant, b: Instant)
    requires FourDigitYear(a) && FourDigitYear(b) && a != ZERO_TIME && b != ZERO_TIME
    ensures LexAtMost(FormatTime(a), FormatTime(b)) <==>
      a == b || (a < b && !Shadowed(a, b)) || (b < a && Shadowed(b, a))
  {
    if a < b {
      EarlierSortsFirst(a, b);
    } else if b < a {
      EarlierSortsFirst(b, a);
      LexTrichotomy(StampText(a), StampText(b));
    }
  }

  /** A stored `<=` test is right whenever the whole seconds differ, in particular for
      times a full second or more apart, or the fractions have the same number of digits. */
  lemma TextOrderSound(a: Instant, b: Instant)
    requires FourDigitYear(a) && FourDigitYear(b) && a != ZERO_TIME && b != ZERO_TIME
    requires
      || WholeSecond(a) != WholeSecond(b)
      || a + SECOND <= b || b + SECOND <= a
      || |FractionDigits(Nanos(a))| == |FractionDigits(Nanos(b))|
    ensures LexAtMost(FormatTime(a), FormatTime(b)) <==> a <= b
  {
    TextOrderExactly(a, b);
  }

  lemma StampNonEmpty(t: Instant)
    requires t != ZERO_TIME
    ensures FormatTime(t) != ""
  {
    assert |SecondText(WholeSecond(t))| > 0;
  }

  predicate Nonzero(t: Instant) {
    t != ZERO_TIME && FourDigitYear(t)
  }

  /** By the clock's `at` the stored `<=` test takes t as reached: the earlier one, unless the
      pair is shadowed. */
  predicate ComesBy(t: Instant, at: Instant) {
    t == at || (t < at && !Shadowed(t, at)) || (at < t && Shadowed(at, t))
  }

  lemma TextComesBy(t: Instant, at: Instant)
    requires Nonzero(t) && Nonzero(at)
    ensures LexAtMost(FormatTime(t), FormatTime(at)) <==> ComesBy(t, at)
  {
    TextOrderExactly(t, at);
  }

  /** It is the instants' order for pairs that are not shadowed, such as any a full second apart. */
  lemma ComesByIsOrder(t: Instant, at: Instant)
    requires !Shadowed(t, at) && !Shadowed(at, t)
    ensures ComesBy(t, at) <==> t <= at
  {
  }

  lemma SecondApart(a: Instant, b: Instant)
    requires a + SECOND <= b
    ensures ComesBy(a, b) && !ComesBy(b, a)
  {
  }

  /** A whole second sorts after the half second that follows it. */
  lemma WholeSecondShadowsHalf(second: int, whole: Instant, half: Instant)
    requires whole == second * SECOND && half == whole + SECOND / 2
    requires whole != ZERO_TIME && half != ZERO_TIME && FourDigitYear(whole)
    ensures !LexAtMost(FormatTime(whole), FormatTime(half))
  {
    WholeAndHalf(second);
    FractionOfHalf();
    assert WholeSecond(whole) == WholeSecond(half) == second;
    assert FourDigitYear(half);
    TextOrderExactly(whole, half);
  }

  lemma WholeAndHalf(second: int)
    ensures WholeSecond(second * SECOND) == second == WholeSecond(second * SECOND + SECOND / 2)
    ensures Nanos(second * SECOND) == 0 && Nanos(second * SECOND + SECOND / 2) == SECOND / 2
  {
  }

  /** The text order is not the time order: one second past the zero time and half a second more. */
  lemma TextOrderCounterexample(whole: Instant, half: Instant)
    requires whole == SECOND && half == whole + SECOND / 2
    ensures whole < half && !LexAtMost(FormatTime(whole), FormatTime(half))
  {
    FirstDay(whole / SECOND);
    WholeSecondShadowsHalf(whole / SECOND, whole, half);
  }

  lemma FirstDay(second: int)
    requires 0 <= second < DAY
    ensures Fields(second)[0] == 1
  {
    YearStartMonotone(DateFields(second / DAY)[0] + 1, 1);
  }

  lemma FractionOfHalf()
    ensures FractionDigits(0) == "" && FractionDigits(SECOND / 2) != ""
  {
    PadZero(9);
    AllZerosTrimmed(9);
    NineDigits(0);
    NineDigits(SECOND / 2);
  }

  lemma {:induction false} AllZerosTrimmed(k: nat)
    ensures TrimZeros(Zeros(k)) == ""
  {
    if k > 0 {
      ZerosEnd(k - 1);
      assert Zeros(k)[..k - 1] == Zeros(k - 1);
      AllZerosTrimmed(k - 1);
    }
  }
}
