/**
 * Timestamp utilities of the dashboard's front end (src/utils/formatoData.js):
 * the "YYYYMMDD_HHMMSS" satellite-image timestamps read as UTC, and the
 * stations' "YYYY-MM-DD HH:MM:SS.0" measurement times read as Brasília
 * time (UTC-3). Instants are JavaScript time values: milliseconds since
 * 1970-01-01T00:00:00Z.
 */
module FormatoData {
  import opened Common
  import opened Text
  import opened Calendar
  import opened JsDate

  /** The arguments convertTimestampToDate passes to Date.UTC. */
  datatype UtcArgs = UtcArgs(year: int, monthIndex: int, day: int, hours: int, minutes: int, seconds: int)

  /** Three fields read with parseInt from the two-character (four for the first) slices of a part. */
  function ParseParts(part: string, w: nat): Option<(int, int, int)>
  {
    var a := ParseInt(Slice(part, 0, w));
    var b := ParseInt(Slice(part, w, w + 2));
    var c := ParseInt(Slice(part, w + 2, w + 4));
    if a.None? || b.None? || c.None? then None else Some((a.value, b.value, c.value))
  }

  /**
   * The fields of convertTimestampToDate: characters 0-7 hold the date and
   * 9-14 the time; each field goes through parseInt, and the month becomes
   * an index from 0. None when some field reads as NaN.
   */
  function TimestampFields(ts: string): Option<UtcArgs>
  {
    CombineArgs(ParseParts(Slice(ts, 0, 8), 4), ParseParts(Slice(ts, 9, 15), 2))
  }

  /** The date and time parts as Date.UTC arguments, the month counted from 0. */
  function CombineArgs(date: Option<(int, int, int)>, time: Option<(int, int, int)>): Option<UtcArgs>
  {
    if date.None? || time.None? then None
    else Some(UtcArgs(date.value.0, date.value.1 - 1, date.value.2, time.value.0, time.value.1, time.value.2))
  }

  /** convertTimestampToDate: the time value of the timestamp, None for an Invalid Date. */
  function ConvertTimestampToDate(ts: string): Option<int>
  {
    match TimestampFields(ts)
    case None => None
    case Some(a) => Some(UtcOf(a))
  }

  function UtcOf(a: UtcArgs): int
  {
    DateUtc(a.year, a.monthIndex, a.day, a.hours, a.minutes, a.seconds)
  }

  /**
   * formatTimestamp: the ISO string with its "T" replaced by a space, cut to
   * 19 characters. None stands for the RangeError toISOString throws on an
   * Invalid Date.
   */
  function FormatTimestamp(ts: string): (r: Option<string>)
    ensures r.None? <==> ConvertTimestampToDate(ts).None?
  {
    match ConvertTimestampToDate(ts)
    case None => None
    case Some(t) => Some(Slice(ReplaceFirst(IsoString(t), 'T', ' '), 0, 19))
  }

  /** A "YYYYMMDD_HHMMSS" timestamp assembled from its digit fields and separator. */
  function Timestamp(y: string, m: string, d: string, sep: char, h: string, mi: string, s: string): string
  {
    y + m + d + [sep] + h + mi + s
  }

  /** Each field is a run of digits of its own width. */
  predicate DigitFields(y: string, m: string, d: string, h: string, mi: string, s: string)
  {
    |y| == 4 && |m| == 2 && |d| == 2 && |h| == 2 && |mi| == 2 && |s| == 2
    && AllDigits(y) && AllDigits(m) && AllDigits(d) && AllDigits(h) && AllDigits(mi) && AllDigits(s)
  }

  /** The Date.UTC arguments a timestamp with these digit fields denotes: their values, the month counted from 0. */
  function DigitArgs(y: string, m: string, d: string, h: string, mi: string, s: string): UtcArgs
    requires DigitFields(y, m, d, h, mi, s)
  {
    UtcArgs(DigitsValue(y), DigitsValue(m) - 1, DigitsValue(d), DigitsValue(h), DigitsValue(mi), DigitsValue(s))
  }

  /** The fields of a timestamp whose fields are digits: the digits' values, whatever the separator. */
  lemma {:induction false} ConvertDigits(y: string, m: string, d: string, sep: char, h: string, mi: string, s: string)
    requires DigitFields(y, m, d, h, mi, s)
    ensures TimestampFields(Timestamp(y, m, d, sep, h, mi, s)) == Some(DigitArgs(y, m, d, h, mi, s))
  {
    PartsOfTimestamp(y, m, d, sep, h, mi, s);
    FieldsOfParts(Timestamp(y, m, d, sep, h, mi, s), DigitArgs(y, m, d, h, mi, s));
  }

  /** The date part of a timestamp reads as its year, month and day, the time part as its hour, minute and second. */
  lemma {:induction false} PartsOfTimestamp(y: string, m: string, d: string, sep: char, h: string, mi: string, s: string)
    requires DigitFields(y, m, d, h, mi, s)
    ensures var a := DigitArgs(y, m, d, h, mi, s);
      ParseParts(Slice(Timestamp(y, m, d, sep, h, mi, s), 0, 8), 4) == Some((a.year, a.monthIndex + 1, a.day))
      && ParseParts(Slice(Timestamp(y, m, d, sep, h, mi, s), 9, 15), 2) == Some((a.hours, a.minutes, a.seconds))
  {
    TimestampSlices(y, m, d, sep, h, mi, s);
    ParseThree(y, m, d);
    ParseThree(h, mi, s);
  }

  /** The fields of a timestamp whose two parts read as the given numbers. */
  lemma {:induction false} FieldsOfParts(ts: string, a: UtcArgs)
    requires ParseParts(Slice(ts, 0, 8), 4) == Some((a.year, a.monthIndex + 1, a.day))
    requires ParseParts(Slice(ts, 9, 15), 2) == Some((a.hours, a.minutes, a.seconds))
    ensures TimestampFields(ts) == Some(a)
  {
  }

  lemma {:induction false} TimestampSlices(y: string, m: string, d: string, sep: char, h: string, mi: string, s: string)
    requires |y| == 4 && |m| == 2 && |d| == 2 && |h| == 2 && |mi| == 2 && |s| == 2
    ensures Slice(Timestamp(y, m, d, sep, h, mi, s), 0, 8) == y + m + d
    ensures Slice(Timestamp(y, m, d, sep, h, mi, s), 9, 15) == h + mi + s
  {
    var ts := Timestamp(y, m, d, sep, h, mi, s);
    assert ts[0..8] == y + m + d;
    assert ts[9..15] == h + mi + s;
  }

  lemma {:induction false} ParseThree(a: string, b: string, c: string)
    requires 2 <= |a| && |b| == 2 && |c| == 2 && AllDigits(a) && AllDigits(b) && AllDigits(c)
    ensures ParseParts(a + b + c, |a|) == Some((DigitsValue(a) as int, DigitsValue(b) as int, DigitsValue(c) as int))
  {
    var p := a + b + c;
    assert Slice(p, 0, |a|) == a && Slice(p, |a|, |a| + 2) == b && Slice(p, |a| + 2, |a| + 4) == c;
  }

  lemma {:induction false} ConvertValue(y: string, m: string, d: string, sep: char, h: string, mi: string, s: string)
    requires DigitFields(y, m, d, h, mi, s)
    ensures ConvertTimestampToDate(Timestamp(y, m, d, sep, h, mi, s)) == Some(UtcOf(DigitArgs(y, m, d, h, mi, s)))
  {
    ConvertDigits(y, m, d, sep, h, mi, s);
  }

  /** The timestamp's fields denote a real date and time of day from year 100 on. */
  predicate InRange(y: string, m: string, d: string, h: string, mi: string, s: string)
    requires DigitFields(y, m, d, h, mi, s)
  {
    100 <= DigitsValue(y) && ValidDate(DigitsValue(y), DigitsValue(m), DigitsValue(d))
    && DigitsValue(h) < 24 && DigitsValue(mi) < 60 && DigitsValue(s) < 60
  }

  /** For in-range fields the timestamp denotes exactly that UTC date and time. */
  lemma {:induction false} ConvertInRange(y: string, m: string, d: string, sep: char, h: string, mi: string, s: string)
    requires DigitFields(y, m, d, h, mi, s) && InRange(y, m, d, h, mi, s)
    ensures ConvertTimestampToDate(Timestamp(y, m, d, sep, h, mi, s))
         == Some(UtcMs(Date(DigitsValue(y), DigitsValue(m), DigitsValue(d)), DigitsValue(h), DigitsValue(mi), DigitsValue(s)))
  {
    ConvertValue(y, m, d, sep, h, mi, s);
    DateUtcOtherYear(DigitsValue(y), DigitsValue(m), DigitsValue(d), DigitsValue(h), DigitsValue(mi), DigitsValue(s));
  }

  /** The ISO string of an in-range instant, written with the original digit fields. */
  lemma {:induction false} IsoStringOfFields(y: string, m: string, d: string, h: string, mi: string, s: string)
    requires DigitFields(y, m, d, h, mi, s) && InRange(y, m, d, h, mi, s)
    ensures IsoString(UtcMs(Date(DigitsValue(y), DigitsValue(m), DigitsValue(d)), DigitsValue(h), DigitsValue(mi), DigitsValue(s)))
         == (y + "-" + m + "-" + d) + ['T'] + (h + ":" + mi + ":" + s + ".000Z")
  {
    var date := Date(DigitsValue(y), DigitsValue(m), DigitsValue(d));
    var t := UtcMs(date, DigitsValue(h), DigitsValue(mi), DigitsValue(s));
    FieldsOfUtc(date, DigitsValue(h), DigitsValue(mi), DigitsValue(s));
    var f := FieldsOf(t);
    assert f == Fields(date, DigitsValue(h), DigitsValue(mi), DigitsValue(s), 0);
    IsoOfDigitFields(y, m, d, h, mi, s);
    assert IsoString(t) == IsoOfFields(f);
  }

  lemma {:induction false} IsoOfDigitFields(y: string, m: string, d: string, h: string, mi: string, s: string)
    requires DigitFields(y, m, d, h, mi, s) && ValidDate(DigitsValue(y), DigitsValue(m), DigitsValue(d))
    ensures IsoOfFields(Fields(Date(DigitsValue(y), DigitsValue(m), DigitsValue(d)), DigitsValue(h), DigitsValue(mi), DigitsValue(s), 0))
         == (y + "-" + m + "-" + d) + ['T'] + (h + ":" + mi + ":" + s + ".000Z")
  {
    var f := Fields(Date(DigitsValue(y), DigitsValue(m), DigitsValue(d)), DigitsValue(h), DigitsValue(mi), DigitsValue(s), 0);
    PaddedDigitFields(y, m, d, h, mi, s);
    IsoOfFieldsText(f);
    assert PadDigits(0, 3) == "000";
    assert IsoOfFields(f) == DateTimeText(y, m, d, h, mi, s, "000", "Z");
    ZuluText(y, m, d, h, mi, s);
  }

  lemma {:induction false} PaddedDigitFields(y: string, m: string, d: string, h: string, mi: string, s: string)
    requires DigitFields(y, m, d, h, mi, s)
    ensures DigitsValue(y) <= 9999
    ensures PadDigits(DigitsValue(y), 4) == y && PadDigits(DigitsValue(m), 2) == m && PadDigits(DigitsValue(d), 2) == d
    ensures PadDigits(DigitsValue(h), 2) == h && PadDigits(DigitsValue(mi), 2) == mi && PadDigits(DigitsValue(s), 2) == s
  {
    DigitsRoundTrip(y);
    DigitsRoundTrip(m);
    DigitsRoundTrip(d);
    DigitsRoundTrip(h);
    DigitsRoundTrip(mi);
    DigitsRoundTrip(s);
    assert Pow10(4) == 10000;
  }

  lemma {:induction false} ZuluText(y: string, m: string, d: string, h: string, mi: string, s: string)
    ensures DateTimeText(y, m, d, h, mi, s, "000", "Z") == (y + "-" + m + "-" + d) + ['T'] + (h + ":" + mi + ":" + s + ".000Z")
  {
  }

  /**
   * formatTimestamp keeps the digits: for in-range fields the result is the
   * input's own digits with "-", " " and ":" as separators.
   */
  lemma {:induction false} FormatTimestampRoundTrip(y: string, m: string, d: string, sep: char, h: string, mi: string, s: string)
    requires DigitFields(y, m, d, h, mi, s) && InRange(y, m, d, h, mi, s)
    ensures FormatTimestamp(Timestamp(y, m, d, sep, h, mi, s)) == Some(y + "-" + m + "-" + d + " " + h + ":" + mi + ":" + s)
  {
    ConvertInRange(y, m, d, sep, h, mi, s);
    IsoStringOfFields(y, m, d, h, mi, s);
    var t := UtcMs(Date(DigitsValue(y), DigitsValue(m), DigitsValue(d)), DigitsValue(h), DigitsValue(mi), DigitsValue(s));
    DisplayOfIso(IsoString(t), y, m, d, h, mi, s);
  }

  /** Replacing the "T" and cutting at 19 characters leaves "YYYY-MM-DD HH:mm:ss". */
  lemma {:induction false} DisplayOfIso(iso: string, y: string, m: string, d: string, h: string, mi: string, s: string)
    requires |y| == 4 && |m| == 2 && |d| == 2 && |h| == 2 && |mi| == 2 && |s| == 2
    requires AllDigits(y) && AllDigits(m) && AllDigits(d)
    requires iso == (y + "-" + m + "-" + d) + ['T'] + (h + ":" + mi + ":" + s + ".000Z")
    ensures Slice(ReplaceFirst(iso, 'T', ' '), 0, 19) == y + "-" + m + "-" + d + " " + h + ":" + mi + ":" + s
  {
    var datePart := y + "-" + m + "-" + d;
    var rest := h + ":" + mi + ":" + s + ".000Z";
    assert 'T' !in datePart by {
      forall i | 0 <= i < |datePart| ensures datePart[i] != 'T' {
        if i < 4 { assert datePart[i] == y[i]; }
        else if 5 <= i < 7 { assert datePart[i] == m[i - 5]; }
        else if 8 <= i { assert datePart[i] == d[i - 8]; }
      }
    }
    ReplaceFirstAt(datePart, 'T', ' ', rest);
    assert (datePart + [' '] + rest)[..19] == y + "-" + m + "-" + d + " " + h + ":" + mi + ":" + s;
  }

  lemma {:induction false} TwoDigits(s: string)
    requires |s| == 2 && AllDigits(s)
    ensures DigitsValue(s) == 10 * DigitValue(s[0]) + DigitValue(s[1])
  {
    assert s[..1][..0] == [] && s[..1][0] == s[0];
    assert DigitsValue(s[..1]) == DigitValue(s[0]);
  }

  lemma {:induction false} FourDigits(s: string)
    requires |s| == 4 && AllDigits(s)
    ensures DigitsValue(s) == 1000 * DigitValue(s[0]) + 100 * DigitValue(s[1]) + 10 * DigitValue(s[2]) + DigitValue(s[3])
  {
    var p1, p2, p3 := s[..1], s[..2], s[..3];
    assert p1[..0] == [] && p2[..1] == p1 && p3[..2] == p2 && s[..3] == p3;
    assert DigitsValue(p1) == DigitValue(s[0]);
    assert DigitsValue(p2) == 10 * DigitValue(s[0]) + DigitValue(s[1]);
    assert DigitsValue(p3) == 10 * DigitsValue(p2) + DigitValue(s[2]);
  }

  /** The example of the module's documentation: "20231020_123045" becomes "2023-10-20 12:30:45". */
  lemma {:induction false} FormatTimestampExample()
    ensures FormatTimestamp("20231020_123045") == Some("2023-10-20 12:30:45")
  {
    assert Timestamp("2023", "10", "20", '_', "12", "30", "45") == "20231020_123045";
    assert DigitFields("2023", "10", "20", "12", "30", "45");
    FourDigits("2023");
    TwoDigits("10");
    TwoDigits("20");
    TwoDigits("12");
    TwoDigits("30");
    TwoDigits("45");
    assert DigitsValue("2023") == 2023 && DigitsValue("10") == 10 && DigitsValue("20") == 20;
    assert DigitsValue("12") == 12 && DigitsValue("30") == 30 && DigitsValue("45") == 45;
    assert DaysInMonth(2023, 10) == 31;
    assert InRange("2023", "10", "20", "12", "30", "45");
    FormatTimestampRoundTrip("2023", "10", "20", '_', "12", "30", "45");
    ExampleText();
  }

  lemma {:induction false} ExampleText()
    ensures "2023" + "-" + "10" + "-" + "20" + " " + "12" + ":" + "30" + ":" + "45" == "2023-10-20 12:30:45"
  {
  }

  // parseBrasiliaDate and isWithinLast24Hours

  /**
   * parseBrasiliaDate: the text before the first space is the date and the
   * text after it the time; the time loses everything from its first "."
   * and the two are read as a Date Time String at offset -03:00. Without a
   * time part the whole string goes to the Date constructor as it is.
   */
  function ParseBrasiliaDate(str: string, env: Env): Option<int>
  {
    var parts := Split(str, ' ');
    var timeRaw := if |parts| > 1 then parts[1] else "";
    if timeRaw == "" then NewDate(str, env)
    else NewDate(parts[0] + "T" + Split(timeRaw, '.')[0] + "-03:00", env)
  }

  /**
   * isWithinLast24Hours: the record's instant lies in the closed window of
   * 24 hours that ends at the reference instant; an Invalid Date never does.
   */
  function IsWithinLast24Hours(str: string, reference: int, env: Env): bool
  {
    match ParseBrasiliaDate(str, env)
    case None => false
    case Some(t) => reference - DayMs <= t <= reference
  }

  /** A measurement time as the stations report it: "YYYY-MM-DD HH:MM:SS" and an optional ".fraction". */
  function MeasurementText(y: string, m: string, d: string, h: string, mi: string, s: string, frac: string): string
  {
    (y + "-" + m + "-" + d) + [' '] + ((h + ":" + mi + ":" + s) + (if frac == "" then "" else "." + frac))
  }

  lemma {:induction false} NoSpaceInDate(y: string, m: string, d: string)
    requires |y| == 4 && |m| == 2 && |d| == 2 && AllDigits(y) && AllDigits(m) && AllDigits(d)
    ensures ' ' !in y + "-" + m + "-" + d
  {
    var p := y + "-" + m + "-" + d;
    forall i | 0 <= i < |p| ensures p[i] != ' ' {
      if i < 4 { assert p[i] == y[i]; }
      else if 5 <= i < 7 { assert p[i] == m[i - 5]; }
      else if 8 <= i { assert p[i] == d[i - 8]; }
    }
  }

  lemma {:induction false} NoSeparatorInClock(h: string, mi: string, s: string, frac: string)
    requires |h| == 2 && |mi| == 2 && |s| == 2 && AllDigits(h) && AllDigits(mi) && AllDigits(s) && AllDigits(frac)
    ensures ' ' !in (h + ":" + mi + ":" + s) + (if frac == "" then "" else "." + frac)
    ensures '.' !in h + ":" + mi + ":" + s && '.' !in frac
  {
    var c := h + ":" + mi + ":" + s;
    forall i | 0 <= i < |c| ensures c[i] != ' ' && c[i] != '.' {
      if i < 2 { assert c[i] == h[i]; }
      else if 3 <= i < 5 { assert c[i] == mi[i - 3]; }
      else if 6 <= i { assert c[i] == s[i - 6]; }
    }
    var t := c + (if frac == "" then "" else "." + frac);
    forall i | 0 <= i < |t| ensures t[i] != ' ' {
      if i < |c| { assert t[i] == c[i]; }
      else if i > |c| { assert t[i] == frac[i - |c| - 1]; }
    }
    assert forall i :: 0 <= i < |frac| ==> frac[i] != '.';
  }

  /** A measurement time reaches the Date constructor as its date, "T", its clock without the fraction, and "-03:00". */
  lemma {:induction false} BrasiliaIsoText(y: string, m: string, d: string, h: string, mi: string, s: string, frac: string, env: Env)
    requires DigitFields(y, m, d, h, mi, s) && AllDigits(frac)
    ensures ParseBrasiliaDate(MeasurementText(y, m, d, h, mi, s, frac), env)
         == NewDate((y + "-" + m + "-" + d) + "T" + (h + ":" + mi + ":" + s) + "-03:00", env)
  {
    var datePart := y + "-" + m + "-" + d;
    var clock := h + ":" + mi + ":" + s;
    var timeRaw := clock + (if frac == "" then "" else "." + frac);
    NoSpaceInDate(y, m, d);
    NoSeparatorInClock(h, mi, s, frac);
    SplitAt(datePart, ' ', timeRaw);
    SplitNone(timeRaw, ' ');
    var parts := Split(MeasurementText(y, m, d, h, mi, s, frac), ' ');
    assert parts == [datePart, timeRaw];
    if frac == "" {
      assert timeRaw == clock;
      SplitNone(clock, '.');
    } else {
      assert timeRaw == clock + ['.'] + frac;
      SplitAt(clock, '.', frac);
    }
    assert Split(timeRaw, '.')[0] == clock;
  }

  lemma {:induction false} BrasiliaZone(localOffset: int)
    ensures ZoneText("-03:00") && ZoneOf("-03:00") == Some(Offset(true, 3, 0))
    ensures ZoneMs("-03:00", localOffset) == -3 * HourMs
  {
    var z := "-03:00";
    assert z[1..3] == "03" && z[4..6] == "00";
    assert DigitsValue("03") == 3 by { assert "03"[..1] == "0"; assert "0"[..0] == ""; }
    assert DigitsValue("00") == 0 by { assert "00"[..1] == "0"; assert "0"[..0] == ""; }
  }

  lemma {:induction false} BrasiliaDateTimeText(y: string, m: string, d: string, h: string, mi: string, s: string)
    ensures (y + "-" + m + "-" + d) + "T" + (h + ":" + mi + ":" + s) + "-03:00" == DateTimeText(y, m, d, h, mi, s, "", "-03:00")
  {
  }

  /**
   * A measurement time with real field values is that wall-clock time in
   * Brasília: the UTC instant of its fields plus three hours. The fraction
   * of a second is dropped.
   */
  lemma {:induction false} ParseBrasiliaMeasurement(y: string, m: string, d: string, h: string, mi: string, s: string, frac: string, env: Env)
    requires DigitFields(y, m, d, h, mi, s) && AllDigits(frac)
    requires ValidDate(DigitsValue(y), DigitsValue(m), DigitsValue(d))
    requires DigitsValue(h) <= 23 && DigitsValue(mi) <= 59 && DigitsValue(s) <= 59
    ensures ParseBrasiliaDate(MeasurementText(y, m, d, h, mi, s, frac), env)
         == Some(UtcMs(Date(DigitsValue(y), DigitsValue(m), DigitsValue(d)), DigitsValue(h), DigitsValue(mi), DigitsValue(s)) + 3 * HourMs)
  {
    BrasiliaIsoText(y, m, d, h, mi, s, frac, env);
    BrasiliaDateTimeText(y, m, d, h, mi, s);
    BrasiliaZone(env.localOffset);
    NewDateOfText(y, m, d, h, mi, s, "", "-03:00", env);
    FormTimeOfText(y, m, d, h, mi, s, "", "-03:00", env.localOffset);
  }

  /** Without a time part the string is handed to the Date constructor unchanged. */
  lemma {:induction false} ParseBrasiliaDateOnly(str: string, env: Env)
    requires ' ' !in str
    ensures ParseBrasiliaDate(str, env) == NewDate(str, env)
  {
    SplitNone(str, ' ');
  }

  /** A measurement is within the last 24 hours exactly when its Brasília instant is in the window. */
  lemma {:induction false} WithinLast24HoursMeasurement(y: string, m: string, d: string, h: string, mi: string, s: string, frac: string,
                                     reference: int, env: Env)
    requires DigitFields(y, m, d, h, mi, s) && AllDigits(frac)
    requires ValidDate(DigitsValue(y), DigitsValue(m), DigitsValue(d))
    requires DigitsValue(h) <= 23 && DigitsValue(mi) <= 59 && DigitsValue(s) <= 59
    ensures var t := UtcMs(Date(DigitsValue(y), DigitsValue(m), DigitsValue(d)), DigitsValue(h), DigitsValue(mi), DigitsValue(s)) + 3 * HourMs;
            IsWithinLast24Hours(MeasurementText(y, m, d, h, mi, s, frac), reference, env) <==> reference - DayMs <= t <= reference
  {
    ParseBrasiliaMeasurement(y, m, d, h, mi, s, frac, env);
  }
}
