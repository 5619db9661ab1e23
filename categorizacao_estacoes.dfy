/**
 * Station classification: threshold classifiers for rainfall, level and
 * discharge, the latest reading of a station, its rainfall over the 24 hours
 * before that reading, its freshness, and the grouping of a station list by
 * each classification.
 */
module CategorizacaoEstacoes {
  import opened Common
  import opened Text
  import opened Seqs
  import opened Calendar
  import opened JsDate
  import opened FormatoData
  import opened Records

  // Classifiers

  /**
   * classifyRainfall on a total in mm: null is "Indefinido", exactly 0 is
   * "Sem Chuva", and the other values fall into upper-inclusive buckets, so
   * a negative total is "Fraca".
   */
  function ClassifyRainfall(total: Option<real>): (c: string)
    ensures total.None? ==> c == "Indefinido"
    ensures total == Some(0.0) ==> c == "Sem Chuva"
    ensures total.Some? && total.value != 0.0 ==>
      (c == "Fraca" <==> total.value <= 5.0)
      && (c == "Moderada" <==> 5.0 < total.value <= 29.0)
      && (c == "Forte" <==> 29.0 < total.value <= 59.0)
      && (c == "Muito Forte" <==> 59.0 < total.value <= 99.0)
      && (c == "Extrema" <==> 99.0 < total.value)
  {
    match total
    case None => "Indefinido"
    case Some(x) =>
      if x == 0.0 then "Sem Chuva"
      else if x <= 5.0 then "Fraca"
      else if x <= 29.0 then "Moderada"
      else if x <= 59.0 then "Forte"
      else if x <= 99.0 then "Muito Forte"
      else "Extrema"
  }

  /** The position of a rainfall class on the scale from "Fraca" to "Extrema". */
  function RainRank(c: string): int
  {
    if c == "Fraca" then 1
    else if c == "Moderada" then 2
    else if c == "Forte" then 3
    else if c == "Muito Forte" then 4
    else if c == "Extrema" then 5
    else 0
  }

  /** A larger positive total never gets a lower rainfall class. */
  lemma {:induction false} RainfallMonotone(x: real, y: real)
    requires 0.0 < x <= y
    ensures 1 <= RainRank(ClassifyRainfall(Some(x))) <= RainRank(ClassifyRainfall(Some(y)))
  {
  }

  /**
   * classifyLevel on a Cota_Adotada value: what parseFloat cannot read, and
   * null, is "Indefinido"; below 400 "Baixo", up to 450 inclusive "Normal",
   * above that "Alto".
   */
  function ClassifyLevel(level: Datum): (c: string)
    ensures !level.Num? <==> c == "Indefinido"
    ensures level.Num? ==>
      (c == "Baixo" <==> level.n < 400.0)
      && (c == "Normal" <==> 400.0 <= level.n <= 450.0)
      && (c == "Alto" <==> 450.0 < level.n)
  {
    match level
    case Num(x) => if x < 400.0 then "Baixo" else if x <= 450.0 then "Normal" else "Alto"
    case _ => "Indefinido"
  }

  /**
   * classifyDischarge on a Vazao_Adotada value: "Indefinido" when it is not a
   * number; below 30 "Baixa", up to 35 inclusive "Normal", above that "Alta".
   */
  function ClassifyDischarge(discharge: Datum): (c: string)
    ensures !discharge.Num? <==> c == "Indefinido"
    ensures discharge.Num? ==>
      (c == "Baixa" <==> discharge.n < 30.0)
      && (c == "Normal" <==> 30.0 <= discharge.n <= 35.0)
      && (c == "Alta" <==> 35.0 < discharge.n)
  {
    match discharge
    case Num(x) => if x < 30.0 then "Baixa" else if x <= 35.0 then "Normal" else "Alta"
    case _ => "Indefinido"
  }

  /** Level and discharge classes are monotone in the reading. */
  lemma {:induction false} LevelDischargeMonotone(x: real, y: real)
    requires x <= y
    ensures ClassifyLevel(Num(x)) == "Alto" ==> ClassifyLevel(Num(y)) == "Alto"
    ensures ClassifyLevel(Num(y)) == "Baixo" ==> ClassifyLevel(Num(x)) == "Baixo"
    ensures ClassifyDischarge(Num(x)) == "Alta" ==> ClassifyDischarge(Num(y)) == "Alta"
    ensures ClassifyDischarge(Num(y)) == "Baixa" ==> ClassifyDischarge(Num(x)) == "Baixa"
  {
  }

  // Dates of records

  /**
   * parseLocalDate: null for a missing or empty text, otherwise the Date
   * built from the text with its first space replaced by "T". The inner
   * None is an Invalid Date, which is still an object and so truthy.
   */
  function ParseLocalDate(s: Option<string>, parse: string -> Option<int>): (d: Option<Option<int>>)
    ensures d.None? <==> s.None? || s.value == ""
  {
    if s.None? || s.value == "" then None else Some(parse(ReplaceFirst(s.value, ' ', 'T')))
  }

  /** Replacing the space of a measurement time by "T" gives a date-time text with no zone. */
  lemma {:induction false} LocalIsoText(y: string, m: string, d: string, h: string, mi: string, s: string, frac: string)
    requires DigitFields(y, m, d, h, mi, s)
    ensures ReplaceFirst(MeasurementText(y, m, d, h, mi, s, frac), ' ', 'T') == DateTimeText(y, m, d, h, mi, s, frac, "")
  {
    var datePart := y + "-" + m + "-" + d;
    var rest := (h + ":" + mi + ":" + s) + (if frac == "" then "" else "." + frac);
    NoSpaceInDate(y, m, d);
    ReplaceFirstAt(datePart, ' ', 'T', rest);
    assert rest + "" == rest;
  }

  /**
   * A measurement time "YYYY-MM-DD HH:MM:SS[.f]" with real field values is
   * read as the date-time text of the same fields with no zone designator,
   * that is, as local time (FormTimeOfText gives its instant).
   */
  lemma {:induction false} LocalMeasurementTime(y: string, m: string, d: string, h: string, mi: string, s: string, frac: string, env: Env)
    requires DigitFields(y, m, d, h, mi, s) && AllDigits(frac)
    requires ValidDate(DigitsValue(y), DigitsValue(m), DigitsValue(d))
    requires DigitsValue(h) <= 23 && DigitsValue(mi) <= 59 && DigitsValue(s) <= 59
    ensures ValidForm(FormOfText(y, m, d, h, mi, s, frac, ""))
    ensures FormOfText(y, m, d, h, mi, s, frac, "").offset.None?
    ensures ParseLocalDate(Some(MeasurementText(y, m, d, h, mi, s, frac)), DateParser(env))
         == Some(Some(FormTime(FormOfText(y, m, d, h, mi, s, frac, ""), env.localOffset)))
  {
    LocalIsoText(y, m, d, h, mi, s, frac);
    NewDateOfText(y, m, d, h, mi, s, frac, "", env);
  }

  /** `a > b` on two Dates: false as soon as either is Invalid (NaN). */
  predicate Later(a: Option<int>, b: Option<int>)
  {
    a.Some? && b.Some? && a.value > b.value
  }

  // getLatestRecord

  /**
   * One step of getLatestRecord's reduce: the record replaces the current
   * latest when there is none, when the latest has no date, or when the
   * record's date is strictly later.
   */
  function LatestStep(latest: Option<Record>, record: Record, parse: string -> Option<int>): Option<Record>
  {
    var recordDate := ParseLocalDate(record.measuredAt, parse);
    var latestDate := if latest.Some? then ParseLocalDate(latest.value.measuredAt, parse) else None;
    if latestDate.None? || (recordDate.Some? && Later(recordDate.value, latestDate.value)) then Some(record) else latest
  }

  /** getLatestRecord: null for no records, else the reduce of LatestStep from null. */
  function GetLatestRecord(records: seq<Record>, parse: string -> Option<int>): (r: Option<Record>)
    ensures r.None? <==> records == []
    ensures r.Some? ==> r.value in records
  {
    if records == [] then None
    else LatestStep(GetLatestRecord(records[..|records| - 1], parse), records[|records| - 1], parse)
  }

  /** The record's local instant when its date text is present and valid. */
  predicate HasTime(r: Record, parse: string -> Option<int>)
  {
    var d := ParseLocalDate(r.measuredAt, parse);
    d.Some? && d.value.Some?
  }

  function TimeOf(r: Record, parse: string -> Option<int>): int
    requires HasTime(r, parse)
  {
    ParseLocalDate(r.measuredAt, parse).value.value
  }

  /**
   * When every record has a valid date, the latest record is the first one
   * with the greatest time: no record is later, and every record before it
   * is strictly earlier.
   */
  lemma {:induction false} LatestIndex(records: seq<Record>, parse: string -> Option<int>) returns (j: nat)
    requires records != []
    requires forall i :: 0 <= i < |records| ==> HasTime(records[i], parse)
    ensures j < |records| && GetLatestRecord(records, parse) == Some(records[j])
    ensures forall i :: 0 <= i < |records| ==> TimeOf(records[i], parse) <= TimeOf(records[j], parse)
    ensures forall i :: 0 <= i < j ==> TimeOf(records[i], parse) < TimeOf(records[j], parse)
    decreases |records|
  {
    var n := |records| - 1;
    if n == 0 {
      j := 0;
    } else {
      var init := records[..n];
      assert forall i :: 0 <= i < n ==> init[i] == records[i];
      var k := LatestIndex(init, parse);
      assert GetLatestRecord(records, parse) == LatestStep(Some(records[k]), records[n], parse);
      LatestStepDated(records[k], records[n], parse);
      if TimeOf(records[n], parse) > TimeOf(records[k], parse) {
        j := n;
      } else {
        j := k;
      }
    }
  }

  /** Between two dated records, the step keeps the current one unless the new one is strictly later. */
  lemma {:induction false} LatestStepDated(latest: Record, record: Record, parse: string -> Option<int>)
    requires HasTime(latest, parse) && HasTime(record, parse)
    ensures LatestStep(Some(latest), record, parse)
      == if TimeOf(record, parse) > TimeOf(latest, parse) then Some(record) else Some(latest)
  {
  }

  // calculateAccumulatedRainfall

  /** The record's date lies in the closed window [ref - 24 h, ref]; an Invalid Date never does. */
  predicate InWindow(r: Record, reference: Option<int>, parse: string -> Option<int>)
  {
    var d := ParseLocalDate(r.measuredAt, parse);
    d.Some? && d.value.Some? && reference.Some? && reference.value - DayMs <= d.value.value <= reference.value
  }

  /** A record that contributes to the accumulated rainfall: in the window, with a numeric Chuva_Adotada. */
  predicate Counts(r: Record, reference: Option<int>, parse: string -> Option<int>)
  {
    InWindow(r, reference, parse) && r.rain.Num?
  }

  /** The numeric rainfall values of the records in the window, in order. */
  function WindowRain(records: seq<Record>, reference: Option<int>, parse: string -> Option<int>): (vs: seq<real>)
    ensures |vs| <= |records|
    ensures vs == [] <==> forall i :: 0 <= i < |records| ==> !Counts(records[i], reference, parse)
  {
    if records == [] then []
    else
      var init := WindowRain(records[..|records| - 1], reference, parse);
      var r := records[|records| - 1];
      assert forall i :: 0 <= i < |records| - 1 ==> records[i] == records[..|records| - 1][i];
      if Counts(r, reference, parse) then init + [r.rain.n] else init
  }

  lemma {:induction false} WindowRainAppend(a: seq<Record>, b: seq<Record>, reference: Option<int>, parse: string -> Option<int>)
    ensures WindowRain(a + b, reference, parse) == WindowRain(a, reference, parse) + WindowRain(b, reference, parse)
    decreases |b|
  {
    if b == [] {
      assert a + b == a;
    } else {
      assert (a + b)[..|a + b| - 1] == a + b[..|b| - 1];
      WindowRainAppend(a, b[..|b| - 1], reference, parse);
    }
  }

  /**
   * calculateAccumulatedRainfall: null without a reference date, or when no
   * record in the window has a numeric rainfall; otherwise the sum of those
   * values (0 mm readings included, so the sum can be 0).
   */
  function CalculateAccumulatedRainfall(records: seq<Record>, referenceDate: Option<Option<int>>, parse: string -> Option<int>): (r: Option<real>)
    ensures r.None? <==> referenceDate.None? || forall i :: 0 <= i < |records| ==> !Counts(records[i], referenceDate.value, parse)
  {
    if referenceDate.None? then None
    else
      var values := WindowRain(records, referenceDate.value, parse);
      if values == [] then None else Some(Sum(values))
  }

  /** The total of two batches of readings is the sum of their totals, when each has one. */
  lemma {:induction false} AccumulatedAppend(a: seq<Record>, b: seq<Record>, reference: Option<int>, parse: string -> Option<int>)
    requires CalculateAccumulatedRainfall(a, Some(reference), parse).Some?
    requires CalculateAccumulatedRainfall(b, Some(reference), parse).Some?
    ensures CalculateAccumulatedRainfall(a + b, Some(reference), parse)
         == Some(CalculateAccumulatedRainfall(a, Some(reference), parse).value + CalculateAccumulatedRainfall(b, Some(reference), parse).value)
  {
    WindowRainAppend(a, b, reference, parse);
    SumAppend(WindowRain(a, reference, parse), WindowRain(b, reference, parse));
  }

  /** A reading outside the window, or without a numeric value, changes nothing. */
  lemma {:induction false} AccumulatedIgnores(a: seq<Record>, r: Record, reference: Option<int>, parse: string -> Option<int>)
    requires !Counts(r, reference, parse)
    ensures CalculateAccumulatedRainfall(a + [r], Some(reference), parse) == CalculateAccumulatedRainfall(a, Some(reference), parse)
  {
    assert (a + [r])[..|a|] == a;
  }

  lemma {:induction false} WindowRainNonNegative(records: seq<Record>, reference: Option<int>, parse: string -> Option<int>)
    requires forall i :: 0 <= i < |records| && records[i].rain.Num? ==> records[i].rain.n >= 0.0
    ensures forall k :: 0 <= k < |WindowRain(records, reference, parse)| ==> WindowRain(records, reference, parse)[k] >= 0.0
    decreases |records|
  {
    if records != [] {
      WindowRainNonNegative(records[..|records| - 1], reference, parse);
    }
  }

  /** Non-negative readings give a non-negative total. */
  lemma {:induction false} AccumulatedNonNegative(records: seq<Record>, referenceDate: Option<Option<int>>, parse: string -> Option<int>)
    requires forall i :: 0 <= i < |records| && records[i].rain.Num? ==> records[i].rain.n >= 0.0
    ensures CalculateAccumulatedRainfall(records, referenceDate, parse).Some? ==> CalculateAccumulatedRainfall(records, referenceDate, parse).value >= 0.0
  {
    if referenceDate.Some? {
      WindowRainNonNegative(records, referenceDate.value, parse);
      SumNonNegative(WindowRain(records, referenceDate.value, parse));
    }
  }

  // categorizeStation

  /** Number(x.toFixed(2)) on the reals: round half away from zero to two decimals. */
  function Round2(x: real): real
  {
    if x >= 0.0 then ((x * 100.0 + 0.5).Floor as real) / 100.0
    else -((((-x) * 100.0 + 0.5).Floor as real) / 100.0)
  }

  /** The rounding moves a total by at most half a hundredth. */
  lemma {:induction false} Round2Close(x: real)
    ensures -0.005 <= Round2(x) - x <= 0.005
  {
    var y := if x >= 0.0 then x else -x;
    var n := (y * 100.0 + 0.5).Floor;
    assert n as real <= y * 100.0 + 0.5 < n as real + 1.0;
    assert -0.005 < (n as real) / 100.0 - y <= 0.005;
  }

  /** A reading with rain, level and discharge all non-null. */
  predicate Complete(r: Record)
  {
    !r.rain.Null? && !r.level.Null? && !r.discharge.Null?
  }

  predicate AllComplete(records: seq<Record>)
  {
    records == [] || (Complete(records[0]) && AllComplete(records[1..]))
  }

  lemma {:induction false} AllCompleteMeans(records: seq<Record>)
    ensures AllComplete(records) <==> forall i :: 0 <= i < |records| ==> Complete(records[i])
    decreases |records|
  {
    if records != [] {
      AllCompleteMeans(records[1..]);
      assert forall i :: 1 <= i < |records| ==> records[i] == records[1..][i - 1];
    }
  }

  /**
   * `(now - date) / 3600000 <= 12` where date is a Date or null: null
   * converts to 0, and an Invalid Date makes the quotient NaN.
   */
  predicate Fresh(now: int, date: Option<Option<int>>)
  {
    match date
    case None => (now as real) / 3600000.0 <= 12.0
    case Some(None) => false
    case Some(Some(t)) => ((now - t) as real) / 3600000.0 <= 12.0
  }

  lemma {:induction false} FreshMeans(now: int, t: int)
    ensures Fresh(now, Some(Some(t))) <==> now - t <= 12 * HourMs
  {
  }

  /** The summary categorizeStation builds for one station. */
  datatype Category = Category(
    code: string,
    name: string,
    day: Option<string>,
    river: string,
    latitude: Option<real>,
    longitude: Option<real>,
    completeness: string,
    accumulated: Option<real>,
    latestLevel: Datum,
    latestDischarge: Datum,
    status: string,
    rainClass: string,
    levelClass: string,
    dischargeClass: string)

  /** dados when it is an array, else no records. */
  function RecordsOf(station: Station): seq<Record>
  {
    if station.dados.Some? then station.dados.value else []
  }

  /** The reference date of a station: its latest record's date, or now when it has none. */
  function ReferenceDate(records: seq<Record>, now: int, parse: string -> Option<int>): Option<Option<int>>
  {
    var latest := GetLatestRecord(records, parse);
    if latest.Some? then ParseLocalDate(latest.value.measuredAt, parse) else Some(Some(now))
  }

  /**
   * categorizeStation; now is the clock reading `new Date()` (both uses
   * read it as the same instant). The stored chuvaAcumulada is rounded to
   * two decimals, while classificacaoChuva is computed from the unrounded
   * total.
   */
  function CategorizeStation(station: Station, now: int, parse: string -> Option<int>): (c: Category)
    ensures c.code == station.code && c.name == station.name && c.day == station.day
    ensures c.completeness == "Completo" <==>
      station.dados.Some? && |station.dados.value| > 0 && forall i :: 0 <= i < |station.dados.value| ==> Complete(station.dados.value[i])
    ensures c.completeness == "Completo" || c.completeness == "Incompleto"
    ensures c.status == "Atualizado" || c.status == "Desatualizado"
    ensures c.status == "Atualizado" ==> RecordsOf(station) != []
    ensures c.river == (if station.river.Some? && station.river.value != "" then station.river.value else "Desconhecido")
    ensures c.accumulated.None? <==> CalculateAccumulatedRainfall(RecordsOf(station), ReferenceDate(RecordsOf(station), now, parse), parse).None?
    ensures c.rainClass == ClassifyRainfall(CalculateAccumulatedRainfall(RecordsOf(station), ReferenceDate(RecordsOf(station), now, parse), parse))
    ensures var acc := CalculateAccumulatedRainfall(RecordsOf(station), ReferenceDate(RecordsOf(station), now, parse), parse);
      acc.Some? ==> c.accumulated == Some(Round2(acc.value))
    ensures var latest := GetLatestRecord(RecordsOf(station), parse);
      c.latestLevel == (if latest.Some? then latest.value.level else Null) && c.levelClass == ClassifyLevel(c.latestLevel)
      && c.latestDischarge == (if latest.Some? then latest.value.discharge else Null)
      && c.dischargeClass == ClassifyDischarge(c.latestDischarge)
    ensures c.latitude == NumberOrNull(station.latitude) && c.longitude == NumberOrNull(station.longitude)
  {
    var records := RecordsOf(station);
    AllCompleteMeans(records);
    var completeness := if |records| > 0 && AllComplete(records) then "Completo" else "Incompleto";
    var latest := GetLatestRecord(records, parse);
    var referenceDate := ReferenceDate(records, now, parse);
    var accumulated := CalculateAccumulatedRainfall(records, referenceDate, parse);
    var status := if latest.Some? && Fresh(now, ParseLocalDate(latest.value.measuredAt, parse)) then "Atualizado" else "Desatualizado";
    Category(
      station.code, station.name, station.day,
      if station.river.Some? && station.river.value != "" then station.river.value else "Desconhecido",
      NumberOrNull(station.latitude), NumberOrNull(station.longitude),
      completeness,
      if accumulated.Some? then Some(Round2(accumulated.value)) else None,
      if latest.Some? then latest.value.level else Null,
      if latest.Some? then latest.value.discharge else Null,
      status,
      ClassifyRainfall(accumulated),
      ClassifyLevel(if latest.Some? then latest.value.level else Null),
      ClassifyDischarge(if latest.Some? then latest.value.discharge else Null))
  }

  /**
   * With dated records, a station is "Atualizado" exactly when its newest
   * reading is at most 12 hours older than now, and its rainfall window is
   * the 24 hours before that reading.
   */
  lemma {:induction false} StationFreshness(station: Station, now: int, parse: string -> Option<int>) returns (j: nat)
    requires RecordsOf(station) != []
    requires forall i :: 0 <= i < |RecordsOf(station)| ==> HasTime(RecordsOf(station)[i], parse)
    ensures j < |RecordsOf(station)|
    ensures forall i :: 0 <= i < |RecordsOf(station)| ==> TimeOf(RecordsOf(station)[i], parse) <= TimeOf(RecordsOf(station)[j], parse)
    ensures CategorizeStation(station, now, parse).status == "Atualizado" <==> now - TimeOf(RecordsOf(station)[j], parse) <= 12 * HourMs
    ensures ReferenceDate(RecordsOf(station), now, parse) == Some(Some(TimeOf(RecordsOf(station)[j], parse)))
  {
    j := LatestIndex(RecordsOf(station), parse);
    FreshMeans(now, TimeOf(RecordsOf(station)[j], parse));
  }

  /** A station without readings is "Desatualizado", classed by nothing, with its window ending now. */
  lemma {:induction false} StationWithoutRecords(station: Station, now: int, parse: string -> Option<int>)
    requires RecordsOf(station) == []
    ensures CategorizeStation(station, now, parse).status == "Desatualizado"
    ensures CategorizeStation(station, now, parse).completeness == "Incompleto"
    ensures CategorizeStation(station, now, parse).rainClass == "Indefinido"
    ensures CategorizeStation(station, now, parse).levelClass == "Indefinido"
    ensures CategorizeStation(station, now, parse).dischargeClass == "Indefinido"
  {
  }

  // categorizeStations and getAllCategorizedStations

  /** The categorized lists and buckets; a bucket map's keys are the class names that occur. */
  datatype Categorized = Categorized(
    byRiver: map<string, seq<Category>>,
    updated: seq<Category>,
    notUpdated: seq<Category>,
    byRainfall: map<string, seq<Category>>,
    byLevel: map<string, seq<Category>>,
    byDischarge: map<string, seq<Category>>)

  function StatusKey(c: Category): string { c.status }
  function RainKey(c: Category): string { c.rainClass }
  function LevelKey(c: Category): string { c.levelClass }
  function DischargeKey(c: Category): string { c.dischargeClass }
  function RiverKey(c: Category): string { c.river }

  /** The category of every station, in input order. */
  function Categories(stations: seq<Station>, now: int, parse: string -> Option<int>): seq<Category>
  {
    MapSeq(stations, Categorizer(now, parse))
  }

  /** categorizeStation at one instant and with one date parser. */
  function Categorizer(now: int, parse: string -> Option<int>): Station -> Category
  {
    s => CategorizeStation(s, now, parse)
  }

  /** `(m[k] = m[k] || []).push(x)` */
  function Push(m: map<string, seq<Category>>, k: string, x: Category): map<string, seq<Category>>
  {
    m[k := (if k in m then m[k] else []) + [x]]
  }

  /** Every list and bucket of c is the categories cs of that class, in order. */
  ghost predicate Holds(c: Categorized, cs: seq<Category>)
  {
    c.updated == KeyFilter(cs, StatusKey, "Atualizado")
    && c.notUpdated == KeyFilter(cs, StatusKey, "Desatualizado")
    && c.byRainfall == GroupBy(cs, RainKey)
    && c.byLevel == GroupBy(cs, LevelKey)
    && c.byDischarge == GroupBy(cs, DischargeKey)
    && c.byRiver == GroupBy(cs, RiverKey)
  }

  /** The lists and buckets after one more category is pushed. */
  function Pushed(c: Categorized, x: Category): Categorized
  {
    Categorized(Push(c.byRiver, x.river, x),
                if x.status == "Atualizado" then c.updated + [x] else c.updated,
                if x.status == "Atualizado" then c.notUpdated else c.notUpdated + [x],
                Push(c.byRainfall, x.rainClass, x),
                Push(c.byLevel, x.levelClass, x),
                Push(c.byDischarge, x.dischargeClass, x))
  }

  /** Pushing a category keeps the lists and buckets those of the categories seen so far. */
  lemma {:induction false} PushedHolds(c: Categorized, cs: seq<Category>, x: Category)
    requires Holds(c, cs) && (x.status == "Atualizado" || x.status == "Desatualizado")
    ensures Holds(Pushed(c, x), cs + [x])
  {
    KeyFilterSnoc(cs, x, StatusKey, "Atualizado");
    KeyFilterSnoc(cs, x, StatusKey, "Desatualizado");
    GroupBySnoc(cs, x, RainKey);
    GroupBySnoc(cs, x, LevelKey);
    GroupBySnoc(cs, x, DischargeKey);
    GroupBySnoc(cs, x, RiverKey);
  }

  /**
   * categorizeStations: one pass over the stations, pushing each category
   * onto updated or notUpdated and onto the bucket of its rainfall, level,
   * discharge and river class. Every list and bucket is the stations'
   * categories of that class in input order.
   */
  method CategorizeStations(stations: seq<Station>, now: int, parse: string -> Option<int>) returns (c: Categorized)
    ensures c.updated == KeyFilter(Categories(stations, now, parse), StatusKey, "Atualizado")
    ensures c.notUpdated == KeyFilter(Categories(stations, now, parse), StatusKey, "Desatualizado")
    ensures c.byRainfall == GroupBy(Categories(stations, now, parse), RainKey)
    ensures c.byLevel == GroupBy(Categories(stations, now, parse), LevelKey)
    ensures c.byDischarge == GroupBy(Categories(stations, now, parse), DischargeKey)
    ensures c.byRiver == GroupBy(Categories(stations, now, parse), RiverKey)
  {
    c := CategorizeWith(stations, Categorizer(now, parse));
  }

  /** The loop of categorizeStations, for a categorization that only yields the two statuses. */
  method CategorizeWith(stations: seq<Station>, categorize: Station -> Category) returns (c: Categorized)
    requires forall s :: categorize(s).status == "Atualizado" || categorize(s).status == "Desatualizado"
    ensures Holds(c, MapSeq(stations, categorize))
  {
    c := Categorized(map[], [], [], map[], map[], map[]);
    var i := 0;
    while i < |stations|
      invariant 0 <= i <= |stations|
      invariant Holds(c, MapSeq(stations[..i], categorize))
    {
      var category := categorize(stations[i]);
      PushedHolds(c, MapSeq(stations[..i], categorize), category);
      c := PushCategory(c, category);
      MapSeqSnoc(stations, categorize, i);
      i := i + 1;
    }
    assert stations[..|stations|] == stations;
  }

  /** The body of the forEach: the pushes for one category. */
  method PushCategory(c: Categorized, category: Category) returns (c': Categorized)
    ensures c' == Pushed(c, category)
  {
    c' := c;
    if category.status == "Atualizado" {
      c' := c'.(updated := c'.updated + [category]);
    } else {
      c' := c'.(notUpdated := c'.notUpdated + [category]);
    }
    c' := c'.(byRainfall := Push(c'.byRainfall, category.rainClass, category),
              byLevel := Push(c'.byLevel, category.levelClass, category),
              byDischarge := Push(c'.byDischarge, category.dischargeClass, category),
              byRiver := Push(c'.byRiver, category.river, category));
  }

  lemma {:induction false} StatusPartition(cs: seq<Category>)
    requires forall i :: 0 <= i < |cs| ==> cs[i].status == "Atualizado" || cs[i].status == "Desatualizado"
    ensures |KeyFilter(cs, StatusKey, "Atualizado")| + |KeyFilter(cs, StatusKey, "Desatualizado")| == |cs|
    decreases |cs|
  {
    if cs != [] {
      var init := cs[..|cs| - 1];
      assert cs == init + [cs[|cs| - 1]];
      KeyFilterSnoc(init, cs[|cs| - 1], StatusKey, "Atualizado");
      KeyFilterSnoc(init, cs[|cs| - 1], StatusKey, "Desatualizado");
      StatusPartition(init);
    }
  }

  /**
   * updated and notUpdated together hold one entry per station, and every
   * station is in the rainfall bucket of its own class, which holds no
   * station of another class.
   */
  lemma {:induction false} CategorizedPartition(stations: seq<Station>, now: int, parse: string -> Option<int>)
    ensures var cs := Categories(stations, now, parse);
      |KeyFilter(cs, StatusKey, "Atualizado")| + |KeyFilter(cs, StatusKey, "Desatualizado")| == |stations|
      && (forall i :: 0 <= i < |cs| ==> RainKey(cs[i]) in GroupBy(cs, RainKey) && cs[i] in GroupBy(cs, RainKey)[RainKey(cs[i])])
      && (forall k, x :: k in GroupBy(cs, RainKey) && x in GroupBy(cs, RainKey)[k] ==> RainKey(x) == k)
  {
    var cs := Categories(stations, now, parse);
    StatusPartition(cs);
    forall i | 0 <= i < |cs| ensures RainKey(cs[i]) in GroupBy(cs, RainKey) {
      assert cs[i] in cs;
    }
  }

  /** getAllCategorizedStations: each station's category with its position. */
  datatype Indexed = Indexed(category: Category, index: nat)

  function GetAllCategorizedStations(stations: seq<Station>, now: int, parse: string -> Option<int>): (r: seq<Indexed>)
    ensures |r| == |stations|
    ensures forall i :: 0 <= i < |r| ==> r[i].index == i && r[i].category == CategorizeStation(stations[i], now, parse)
  {
    var cs := Categories(stations, now, parse);
    seq(|cs|, i requires 0 <= i < |cs| => Indexed(cs[i], i))
  }
}
