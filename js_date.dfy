/**
 * The JavaScript Date operations the dashboard relies on, as ECMA-262
 * defines them: time values (milliseconds since 1970-01-01T00:00:00Z),
 * Date.UTC, Date.prototype.toISOString and the Date Time String Format
 * that the Date constructor reads (section 21.4.1.32 of ECMA-262).
 */
module JsDate {
  import opened Common
  import opened Text
  import opened Calendar

  const SecondMs: int := 1000
  const MinuteMs: int := 60000
  const DayMs: int := 86400000

  /** The instant of a UTC date and time of day. */
  function UtcMs(d: Date, h: int, mi: int, s: int): int
    requires 1 <= d.month <= 12
  {
    DaysFromCivil(d.year, d.month, d.day) * DayMs + h * HourMs + mi * MinuteMs + s * SecondMs
  }

  /**
   * Date.UTC(year, monthIndex, day, h, mi, s): a year from 0 to 99 means
   * 1900 + year, and a month index outside 0..11 carries into the year;
   * day, hour, minute and second may overflow into the next unit.
   */
  function DateUtc(year: int, monthIndex: int, day: int, h: int, mi: int, s: int): int
  {
    var y := if 0 <= year <= 99 then 1900 + year else year;
    (DaysFromCivil(y + monthIndex / 12, monthIndex % 12 + 1, 1) + day - 1) * DayMs
      + h * HourMs + mi * MinuteMs + s * SecondMs
  }

  /** The UTC calendar fields of an instant. */
  datatype Fields = Fields(date: Date, hour: nat, minute: nat, second: nat, milli: nat)

  /** The instant that calendar fields denote. */
  function FieldsTime(f: Fields): int
    requires 1 <= f.date.month <= 12
  {
    UtcMs(f.date, f.hour, f.minute, f.second) + f.milli
  }

  function FieldsOf(t: int): (f: Fields)
    ensures ValidDate(f.date.year, f.date.month, f.date.day)
    ensures 0 <= f.hour < 24 && 0 <= f.minute < 60 && 0 <= f.second < 60 && 0 <= f.milli < 1000
    ensures FieldsTime(f) == t
  {
    var days, rem := t / DayMs, t % DayMs;
    var h, r1 := rem / HourMs, rem % HourMs;
    var mi, r2 := r1 / MinuteMs, r1 % MinuteMs;
    var s, ms := r2 / SecondMs, r2 % SecondMs;
    assert t == days * DayMs + rem && 0 <= rem < DayMs;
    assert rem == h * HourMs + r1 && 0 <= r1 < HourMs && 0 <= h < 24;
    assert r1 == mi * MinuteMs + r2 && 0 <= r2 < MinuteMs && 0 <= mi < 60;
    assert r2 == s * SecondMs + ms && 0 <= ms < SecondMs && 0 <= s < 60;
    var date := CivilFromDays(days);
    Fields(date, h, mi, s, ms)
  }

  /** The year as Date.prototype.toISOString writes it: four digits, or a sign and six. */
  function IsoYear(y: int): string
  {
    if 0 <= y <= 9999 then PadDigits(y, 4)
    else if y < 0 then "-" + PadDigits(-y, 6)
    else "+" + PadDigits(y, 6)
  }

  /** Date.prototype.toISOString: "YYYY-MM-DDTHH:mm:ss.sssZ" in UTC. */
  function IsoString(t: int): string
  {
    IsoOfFields(FieldsOf(t))
  }

  function IsoOfFields(f: Fields): string
    requires ValidDate(f.date.year, f.date.month, f.date.day)
  {
    IsoYear(f.date.year) + "-" + PadDigits(f.date.month, 2) + "-" + PadDigits(f.date.day, 2)
      + "T" + PadDigits(f.hour, 2) + ":" + PadDigits(f.minute, 2) + ":" + PadDigits(f.second, 2)
      + "." + PadDigits(f.milli, 3) + "Z"
  }

  /** Date.UTC on a month from 1 to 12 (given as its index) is the plain UTC instant. */
  lemma {:induction false} DateUtcInRange(y: int, m: int, d: int, h: int, mi: int, s: int)
    requires 1 <= m <= 12
    ensures DateUtc(y, m - 1, d, h, mi, s) == UtcMs(Date(if 0 <= y <= 99 then 1900 + y else y, m, d), h, mi, s)
  {
    assert (m - 1) / 12 == 0 && (m - 1) % 12 == m - 1;
  }

  /** Date.UTC reads a year from 0 to 99 as 1900 to 1999. */
  lemma {:induction false} DateUtcTwoDigitYear(y: int, m: int, d: int, h: int, mi: int, s: int)
    requires 0 <= y <= 99 && 1 <= m <= 12
    ensures DateUtc(y, m - 1, d, h, mi, s) == UtcMs(Date(1900 + y, m, d), h, mi, s)
  {
    DateUtcInRange(y, m, d, h, mi, s);
  }

  /** Date.UTC takes a year outside 0..99 as it is. */
  lemma {:induction false} DateUtcOtherYear(y: int, m: int, d: int, h: int, mi: int, s: int)
    requires !(0 <= y <= 99) && 1 <= m <= 12
    ensures DateUtc(y, m - 1, d, h, mi, s) == UtcMs(Date(y, m, d), h, mi, s)
  {
    DateUtcInRange(y, m, d, h, mi, s);
  }

  /** The UTC fields of an in-range date and time are those fields. */
  lemma {:induction false} FieldsOfUtc(d: Date, h: int, mi: int, s: int)
    requires ValidDate(d.year, d.month, d.day) && 0 <= h < 24 && 0 <= mi < 60 && 0 <= s < 60
    ensures FieldsOf(UtcMs(d, h, mi, s)) == Fields(d, h, mi, s, 0)
  {
    var t := UtcMs(d, h, mi, s);
    var n := DaysFromCivil(d.year, d.month, d.day);
    var rem := h * HourMs + mi * MinuteMs + s * SecondMs;
    ClockParts(h, mi, s);
    FieldsOfSplit(t, n, rem);
    CivilRoundTrip(d.year, d.month, d.day);
  }

  /** The fields of an instant n days and rem milliseconds after the epoch. */
  lemma {:induction false} FieldsOfSplit(t: int, n: int, rem: int)
    requires 0 <= rem < DayMs && t == n * DayMs + rem
    ensures FieldsOf(t) == Fields(CivilFromDays(n), rem / HourMs, (rem % HourMs) / MinuteMs,
                                  (rem % HourMs % MinuteMs) / SecondMs, rem % HourMs % MinuteMs % SecondMs)
  {
    DayParts(n, rem);
  }

  /** An instant splits into its day and the milliseconds into that day. */
  lemma {:induction false} DayParts(n: int, rem: int)
    requires 0 <= rem < DayMs
    ensures (n * DayMs + rem) / DayMs == n && (n * DayMs + rem) % DayMs == rem
  {
  }

  /** The milliseconds into a day split into hours, minutes, seconds and no milliseconds. */
  lemma {:induction false} ClockParts(h: int, mi: int, s: int)
    requires 0 <= h < 24 && 0 <= mi < 60 && 0 <= s < 60
    ensures var rem := h * HourMs + mi * MinuteMs + s * SecondMs;
      0 <= rem < DayMs
      && rem / HourMs == h && rem % HourMs == mi * MinuteMs + s * SecondMs
      && (mi * MinuteMs + s * SecondMs) / MinuteMs == mi && (mi * MinuteMs + s * SecondMs) % MinuteMs == s * SecondMs
      && (s * SecondMs) / SecondMs == s && (s * SecondMs) % SecondMs == 0
  {
  }


  /** A UTC offset "+HH:mm" or "-HH:mm"; west means the "-" sign. */
  datatype Offset = Offset(west: bool, hours: nat, minutes: nat)

  /**
   * The fields of a string in the Date Time String Format. Absent fields
   * take their defaults (month and day 1, time 00:00:00.000); hasTime
   * records whether a "T" time part was present.
   */
  datatype IsoForm = IsoForm(year: nat, month: nat, day: nat, hasTime: bool,
                             hour: nat, minute: nat, second: nat, milli: nat,
                             offset: Option<Offset>)

  /** A field of exactly w digits at the start of s, and what follows it. */
  function Num(s: string, w: nat): Option<(nat, string)>
  {
    if |s| >= w && AllDigits(s[..w]) then Some((DigitsValue(s[..w]), s[w..])) else None
  }

  /** The number of digits at the start of s. */
  function DigitRun(s: string): (k: nat)
    ensures k <= |s| && AllDigits(s[..k])
    ensures k < |s| ==> !IsDigit(s[k])
  {
    if s == [] || !IsDigit(s[0]) then 0
    else
      var k := DigitRun(s[1..]);
      assert s[..k + 1] == [s[0]] + s[1..][..k];
      k + 1
  }

  /** Milliseconds of a fraction of a second: its first three digits, padded with zeros. */
  function FracMs(f: string): (ms: nat)
    requires AllDigits(f)
    ensures ms < 1000
  {
    var g := (f + "000")[..3];
    DigitsRoundTrip(g);
    DigitsValue(g)
  }

  /** Parses "YYYY", then the optional "-MM", "-DD" and "THH:mm..." parts. */
  function ParseIso(s: string): Option<IsoForm>
  {
    match Num(s, 4)
    case None => None
    case Some((y, r)) => AfterYear(IsoForm(y, 1, 1, false, 0, 0, 0, 0, None), r)
  }

  function AfterYear(acc: IsoForm, r: string): Option<IsoForm>
  {
    if |r| > 0 && r[0] == '-' then
      match Num(r[1..], 2)
      case None => None
      case Some((m, r2)) => AfterMonth(acc.(month := m), r2)
    else AfterDate(acc, r)
  }

  function AfterMonth(acc: IsoForm, r: string): Option<IsoForm>
  {
    if |r| > 0 && r[0] == '-' then
      match Num(r[1..], 2)
      case None => None
      case Some((d, r2)) => AfterDate(acc.(day := d), r2)
    else AfterDate(acc, r)
  }

  /** After the date: the end of the string, or "T" and "HH:mm". */
  function AfterDate(acc: IsoForm, r: string): Option<IsoForm>
  {
    if r == [] then Some(acc)
    else if r[0] != 'T' then None
    else
      match Num(r[1..], 2)
      case None => None
      case Some((h, r2)) =>
        if |r2| > 0 && r2[0] == ':' then
          match Num(r2[1..], 2)
          case None => None
          case Some((mi, r3)) => AfterMinute(acc.(hasTime := true, hour := h, minute := mi), r3)
        else None
  }

  function AfterMinute(acc: IsoForm, r: string): Option<IsoForm>
  {
    if |r| > 0 && r[0] == ':' then
      match Num(r[1..], 2)
      case None => None
      case Some((s, r2)) => AfterSecond(acc.(second := s), r2)
    else AfterClock(acc, r)
  }

  /**
   * An optional fraction after the seconds. The format asks for three
   * digits; one or more are accepted, as the common engines do.
   */
  function AfterSecond(acc: IsoForm, r: string): Option<IsoForm>
  {
    if |r| > 0 && r[0] == '.' then
      var f := r[1..];
      var k := DigitRun(f);
      if k == 0 then None else AfterClock(acc.(milli := FracMs(f[..k])), f[k..])
    else AfterClock(acc, r)
  }

  /** What may end the string: nothing, "Z", or a "+HH:mm" / "-HH:mm" offset. */
  function AfterClock(acc: IsoForm, r: string): Option<IsoForm>
  {
    if r == [] then Some(acc)
    else if r == "Z" then Some(acc.(offset := Some(Offset(false, 0, 0))))
    else
      match ZoneOffset(r)
      case None => None
      case Some(o) => Some(acc.(offset := Some(o)))
  }

  function ZoneOffset(r: string): Option<Offset>
  {
    if |r| == 6 && (r[0] == '+' || r[0] == '-') && r[3] == ':' && AllDigits(r[1..3]) && AllDigits(r[4..6])
    then Some(Offset(r[0] == '-', DigitsValue(r[1..3]), DigitsValue(r[4..6])))
    else None
  }

  /** The field values the format allows; "24:00" stands for the end of the day. */
  predicate ValidForm(f: IsoForm)
  {
    1 <= f.month <= 12 && 1 <= f.day <= DaysInMonth(f.year, f.month)
    && f.minute <= 59 && f.second <= 59
    && (f.hour <= 23 || (f.hour == 24 && f.minute == 0 && f.second == 0 && f.milli == 0))
    && (f.offset.Some? ==> f.offset.value.hours <= 23 && f.offset.value.minutes <= 59)
  }

  /** The offset's distance from UTC in milliseconds, negative west of Greenwich. */
  function OffsetMs(o: Offset): int
  {
    (if o.west then -1 else 1) * (o.hours * HourMs + o.minutes * MinuteMs)
  }

  /**
   * The time value a valid form denotes. A form with no offset is UTC when
   * it is a date only and local time when it has a time; localOffset is the
   * local time zone's distance from UTC.
   */
  function FormTime(f: IsoForm, localOffset: int): int
    requires ValidForm(f)
  {
    var offset := match f.offset
      case Some(o) => OffsetMs(o)
      case None => if f.hasTime then localOffset else 0;
    UtcMs(Date(f.year, f.month, f.day), f.hour, f.minute, f.second) + f.milli - offset
  }

  /**
   * What the Date constructor's string parsing depends on besides the
   * string: the local time zone's offset, and the engine's own fallback
   * parser for strings outside the Date Time String Format.
   */
  datatype Env = Env(localOffset: int, fallback: string -> Option<int>)

  /**
   * new Date(s) for a string s: the time value, or None for an Invalid
   * Date. A string in the format with an out-of-range field is invalid.
   */
  function NewDate(s: string, env: Env): (r: Option<int>)
    ensures ParseIso(s).None? ==> r == env.fallback(s)
    ensures ParseIso(s).Some? ==> (r.Some? <==> ValidForm(ParseIso(s).value))
  {
    match ParseIso(s)
    case None => env.fallback(s)
    case Some(f) => if ValidForm(f) then Some(FormTime(f, env.localOffset)) else None
  }

  // Reading strings that follow the format

  lemma {:induction false} NumOf(a: string, rest: string)
    requires AllDigits(a)
    ensures Num(a + rest, |a|) == Some((DigitsValue(a), rest))
  {
    assert (a + rest)[..|a|] == a && (a + rest)[|a|..] == rest;
  }

  lemma {:induction false} DigitRunOf(f: string, r: string)
    requires AllDigits(f) && (r == [] || !IsDigit(r[0]))
    ensures DigitRun(f + r) == |f|
  {
    if f != [] {
      assert (f + r)[1..] == f[1..] + r;
      DigitRunOf(f[1..], r);
    }
  }

  /** A zone designator: none, "Z", or "+HH:mm" / "-HH:mm". */
  predicate ZoneText(zone: string)
  {
    zone == "" || zone == "Z" || ZoneOffset(zone).Some?
  }

  function ZoneOf(zone: string): Option<Offset>
  {
    if zone == "" then None else if zone == "Z" then Some(Offset(false, 0, 0)) else ZoneOffset(zone)
  }

  /** "YYYY-MM-DDTHH:mm:ss", an optional ".fraction" and a zone designator. */
  function DateTimeText(y: string, m: string, d: string, h: string, mi: string, s: string, frac: string, zone: string): string
  {
    (y + "-" + m + "-" + d) + ['T'] + (h + ":" + mi + ":" + s + (if frac == "" then "" else "." + frac) + zone)
  }

  /** Fields of the right widths, all digits, and a fraction of digits. */
  predicate TextFields(y: string, m: string, d: string, h: string, mi: string, s: string, frac: string)
  {
    |y| == 4 && |m| == 2 && |d| == 2 && |h| == 2 && |mi| == 2 && |s| == 2
    && AllDigits(y) && AllDigits(m) && AllDigits(d) && AllDigits(h) && AllDigits(mi) && AllDigits(s) && AllDigits(frac)
  }

  function FormOfText(y: string, m: string, d: string, h: string, mi: string, s: string, frac: string, zone: string): IsoForm
    requires TextFields(y, m, d, h, mi, s, frac)
  {
    IsoForm(DigitsValue(y), DigitsValue(m), DigitsValue(d), true,
            DigitsValue(h), DigitsValue(mi), DigitsValue(s), if frac == "" then 0 else FracMs(frac), ZoneOf(zone))
  }

  lemma {:induction false} YearStep(t: string, y: string, r: string)
    requires |y| == 4 && AllDigits(y) && t == y + r
    ensures ParseIso(t) == AfterYear(IsoForm(DigitsValue(y), 1, 1, false, 0, 0, 0, 0, None), r)
  {
    NumOf(y, r);
  }

  lemma {:induction false} MonthStep(acc: IsoForm, t: string, m: string, r: string)
    requires |m| == 2 && AllDigits(m) && t == ['-'] + (m + r)
    ensures AfterYear(acc, t) == AfterMonth(acc.(month := DigitsValue(m)), r)
  {
    assert t[1..] == m + r;
    NumOf(m, r);
  }

  lemma {:induction false} DayStep(acc: IsoForm, t: string, d: string, r: string)
    requires |d| == 2 && AllDigits(d) && t == ['-'] + (d + r)
    ensures AfterMonth(acc, t) == AfterDate(acc.(day := DigitsValue(d)), r)
  {
    assert t[1..] == d + r;
    NumOf(d, r);
  }

  lemma {:induction false} HourMinuteStep(acc: IsoForm, t: string, h: string, mi: string, r: string)
    requires |h| == 2 && |mi| == 2 && AllDigits(h) && AllDigits(mi) && t == ['T'] + (h + ([':'] + (mi + r)))
    ensures AfterDate(acc, t) == AfterMinute(acc.(hasTime := true, hour := DigitsValue(h), minute := DigitsValue(mi)), r)
  {
    var r1 := [':'] + (mi + r);
    assert t[1..] == h + r1;
    NumOf(h, r1);
    assert r1[1..] == mi + r;
    NumOf(mi, r);
  }

  lemma {:induction false} SecondStep(acc: IsoForm, t: string, s: string, r: string)
    requires |s| == 2 && AllDigits(s) && t == [':'] + (s + r)
    ensures AfterMinute(acc, t) == AfterSecond(acc.(second := DigitsValue(s)), r)
  {
    assert t[1..] == s + r;
    NumOf(s, r);
  }

  lemma {:induction false} FractionStep(acc: IsoForm, t: string, frac: string, zone: string)
    requires AllDigits(frac) && ZoneText(zone) && t == (if frac == "" then "" else "." + frac) + zone
    ensures AfterSecond(acc, t) == AfterClock(acc.(milli := if frac == "" then acc.milli else FracMs(frac)), zone)
  {
    if frac == "" {
      assert t == zone;
    } else {
      assert t[1..] == frac + zone;
      DigitRunOf(frac, zone);
      assert (frac + zone)[..|frac|] == frac && (frac + zone)[|frac|..] == zone;
    }
  }

  lemma {:induction false} ZoneStep(acc: IsoForm, zone: string)
    requires ZoneText(zone) && acc.offset.None?
    ensures AfterClock(acc, zone) == Some(acc.(offset := ZoneOf(zone)))
  {
  }

  /** The Date constructor reads a date-time string back into its fields. */
  lemma {:induction false} ParseDateTimeText(y: string, m: string, d: string, h: string, mi: string, s: string, frac: string, zone: string)
    requires TextFields(y, m, d, h, mi, s, frac) && ZoneText(zone)
    ensures ParseIso(DateTimeText(y, m, d, h, mi, s, frac, zone)) == Some(FormOfText(y, m, d, h, mi, s, frac, zone))
  {
    var t6 := (if frac == "" then "" else "." + frac) + zone;
    var t5 := [':'] + (s + t6);
    var t4 := ['T'] + (h + ([':'] + (mi + t5)));
    var t3 := ['-'] + (d + t4);
    var t2 := ['-'] + (m + t3);
    var t1 := y + t2;
    DateTimeTextParts(y, m, d, h, mi, s, frac, zone);
    var acc := IsoForm(DigitsValue(y), 1, 1, false, 0, 0, 0, 0, None);
    YearStep(t1, y, t2);
    MonthStep(acc, t2, m, t3);
    var accM := acc.(month := DigitsValue(m));
    DayStep(accM, t3, d, t4);
    var accD := accM.(day := DigitsValue(d));
    HourMinuteStep(accD, t4, h, mi, t5);
    var accH := accD.(hasTime := true, hour := DigitsValue(h), minute := DigitsValue(mi));
    SecondStep(accH, t5, s, t6);
    var accS := accH.(second := DigitsValue(s));
    FractionStep(accS, t6, frac, zone);
    var accF := accS.(milli := if frac == "" then accS.milli else FracMs(frac));
    ZoneStep(accF, zone);
    assert accF.(offset := ZoneOf(zone)) == FormOfText(y, m, d, h, mi, s, frac, zone);
  }

  lemma {:induction false} DateTimeTextParts(y: string, m: string, d: string, h: string, mi: string, s: string, frac: string, zone: string)
    ensures DateTimeText(y, m, d, h, mi, s, frac, zone)
         == y + (['-'] + (m + (['-'] + (d + (['T'] + (h + ([':'] + (mi + ([':'] + (s + ((if frac == "" then "" else "." + frac) + zone)))))))))))
  {
  }

  /** The distance from UTC that a zone designator stands for. */
  function ZoneMs(zone: string, localOffset: int): int
  {
    match ZoneOf(zone)
    case None => localOffset
    case Some(o) => OffsetMs(o)
  }

  /**
   * A date-time string with real field values denotes the UTC instant of
   * its fields, moved by its zone: a local time when it has no designator.
   */
  lemma {:induction false} NewDateOfText(y: string, m: string, d: string, h: string, mi: string, s: string, frac: string, zone: string, env: Env)
    requires TextFields(y, m, d, h, mi, s, frac) && ZoneText(zone)
    requires ValidDate(DigitsValue(y), DigitsValue(m), DigitsValue(d))
    requires DigitsValue(h) <= 23 && DigitsValue(mi) <= 59 && DigitsValue(s) <= 59
    requires ZoneOf(zone).Some? ==> ZoneOf(zone).value.hours <= 23 && ZoneOf(zone).value.minutes <= 59
    ensures ValidForm(FormOfText(y, m, d, h, mi, s, frac, zone))
    ensures NewDate(DateTimeText(y, m, d, h, mi, s, frac, zone), env)
         == Some(FormTime(FormOfText(y, m, d, h, mi, s, frac, zone), env.localOffset))
  {
    ParseDateTimeText(y, m, d, h, mi, s, frac, zone);
  }

  lemma {:induction false} FormTimeOfText(y: string, m: string, d: string, h: string, mi: string, s: string, frac: string, zone: string, localOffset: int)
    requires TextFields(y, m, d, h, mi, s, frac) && ValidForm(FormOfText(y, m, d, h, mi, s, frac, zone))
    ensures FormTime(FormOfText(y, m, d, h, mi, s, frac, zone), localOffset)
         == UtcMs(Date(DigitsValue(y), DigitsValue(m), DigitsValue(d)), DigitsValue(h), DigitsValue(mi), DigitsValue(s))
            + (if frac == "" then 0 else FracMs(frac)) - ZoneMs(zone, localOffset)
  {
  }

  /** toISOString writes the fields of an instant from year 0 to 9999 as a date-time text in UTC. */
  lemma {:induction false} IsoOfFieldsText(f: Fields)
    requires ValidDate(f.date.year, f.date.month, f.date.day) && 0 <= f.date.year <= 9999
    ensures IsoOfFields(f)
         == DateTimeText(PadDigits(f.date.year as nat, 4), PadDigits(f.date.month, 2), PadDigits(f.date.day, 2),
                         PadDigits(f.hour, 2), PadDigits(f.minute, 2), PadDigits(f.second, 2), PadDigits(f.milli, 3), "Z")
  {
    IsoLayout(PadDigits(f.date.year as nat, 4), PadDigits(f.date.month, 2), PadDigits(f.date.day, 2),
              PadDigits(f.hour, 2), PadDigits(f.minute, 2), PadDigits(f.second, 2), PadDigits(f.milli, 3));
  }

  /** toISOString's layout is a date-time text with a fraction and a "Z" zone. */
  lemma {:induction false} IsoLayout(y: string, m: string, d: string, h: string, mi: string, s: string, ms: string)
    requires ms != ""
    ensures y + "-" + m + "-" + d + "T" + h + ":" + mi + ":" + s + "." + ms + "Z" == DateTimeText(y, m, d, h, mi, s, ms, "Z")
  {
  }

  /** The zero-padded fields of an instant, read back, are its fields. */
  lemma {:induction false} PaddedFields(f: Fields)
    requires ValidDate(f.date.year, f.date.month, f.date.day) && 0 <= f.date.year <= 9999
    requires f.hour <= 23 && f.minute <= 59 && f.second <= 59 && f.milli <= 999
    ensures TextFields(PadDigits(f.date.year as nat, 4), PadDigits(f.date.month, 2), PadDigits(f.date.day, 2),
                       PadDigits(f.hour, 2), PadDigits(f.minute, 2), PadDigits(f.second, 2), PadDigits(f.milli, 3))
    ensures DigitsValue(PadDigits(f.date.year as nat, 4)) == f.date.year
    ensures DigitsValue(PadDigits(f.date.month, 2)) == f.date.month
    ensures DigitsValue(PadDigits(f.date.day, 2)) == f.date.day
    ensures DigitsValue(PadDigits(f.hour, 2)) == f.hour
    ensures DigitsValue(PadDigits(f.minute, 2)) == f.minute
    ensures DigitsValue(PadDigits(f.second, 2)) == f.second
    ensures FracMs(PadDigits(f.milli, 3)) == f.milli
  {
    PadDigitsValue(f.date.year as nat, 4);
    PadDigitsValue(f.date.month, 2);
    PadDigitsValue(f.date.day, 2);
    PadDigitsValue(f.hour, 2);
    PadDigitsValue(f.minute, 2);
    PadDigitsValue(f.second, 2);
    PadDigitsValue(f.milli, 3);
    var ms := PadDigits(f.milli, 3);
    assert (ms + "000")[..3] == ms;
  }

  /** The time of the form read from the padded fields is the fields' own instant. */
  lemma {:induction false} PaddedFormTime(f: Fields, localOffset: int)
    requires ValidDate(f.date.year, f.date.month, f.date.day) && 0 <= f.date.year <= 9999
    requires f.hour <= 23 && f.minute <= 59 && f.second <= 59 && f.milli <= 999
    ensures TextFields(PadDigits(f.date.year as nat, 4), PadDigits(f.date.month, 2), PadDigits(f.date.day, 2),
                       PadDigits(f.hour, 2), PadDigits(f.minute, 2), PadDigits(f.second, 2), PadDigits(f.milli, 3))
    ensures ValidForm(FormOfText(PadDigits(f.date.year as nat, 4), PadDigits(f.date.month, 2), PadDigits(f.date.day, 2),
                       PadDigits(f.hour, 2), PadDigits(f.minute, 2), PadDigits(f.second, 2), PadDigits(f.milli, 3), "Z"))
    ensures FormTime(FormOfText(PadDigits(f.date.year as nat, 4), PadDigits(f.date.month, 2), PadDigits(f.date.day, 2),
                       PadDigits(f.hour, 2), PadDigits(f.minute, 2), PadDigits(f.second, 2), PadDigits(f.milli, 3), "Z"),
                     localOffset)
         == FieldsTime(f)
  {
    PaddedFields(f);
    var y, m, d := PadDigits(f.date.year as nat, 4), PadDigits(f.date.month, 2), PadDigits(f.date.day, 2);
    var h, mi, s, ms := PadDigits(f.hour, 2), PadDigits(f.minute, 2), PadDigits(f.second, 2), PadDigits(f.milli, 3);
    assert Date(DigitsValue(y), DigitsValue(m), DigitsValue(d)) == f.date;
    assert ZoneMs("Z", localOffset) == 0;
    FormTimeOfText(y, m, d, h, mi, s, ms, "Z", localOffset);
  }

  /** new Date reads the ISO string of valid fields back as their instant. */
  lemma {:induction false} IsoOfFieldsParses(f: Fields, env: Env)
    requires ValidDate(f.date.year, f.date.month, f.date.day) && 0 <= f.date.year <= 9999
    requires f.hour <= 23 && f.minute <= 59 && f.second <= 59 && f.milli <= 999
    ensures NewDate(IsoOfFields(f), env) == Some(FieldsTime(f))
  {
    var y, m, d := PadDigits(f.date.year as nat, 4), PadDigits(f.date.month, 2), PadDigits(f.date.day, 2);
    var h, mi, s, ms := PadDigits(f.hour, 2), PadDigits(f.minute, 2), PadDigits(f.second, 2), PadDigits(f.milli, 3);
    PaddedFields(f);
    PaddedFormTime(f, env.localOffset);
    IsoOfFieldsText(f);
    NewDateOfText(y, m, d, h, mi, s, ms, "Z", env);
  }

  /** An instant from year 0 to 9999 survives toISOString and new Date. */
  lemma {:induction false} IsoRoundTrip(t: int, env: Env)
    requires 0 <= FieldsOf(t).date.year <= 9999
    ensures NewDate(IsoString(t), env) == Some(t)
  {
    IsoOfFieldsParses(FieldsOf(t), env);
  }
}
