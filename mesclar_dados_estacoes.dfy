/**
 * The merge step of the station service: each of the first 237 inventory
 * entries is extended with yesterday's and today's telemetry, newest
 * reading first, and with the times of its latest reading; the module
 * counts the telemetry files it could not load.
 */
module MesclarDadosEstacoes {
  import opened Common
  import opened Text
  import opened Seqs
  import opened Sorting
  import opened Calendar
  import opened JsDate
  import opened Records

  /** What mergeStationData can throw: the inventory cannot be read or parsed, or a path cannot be built. */
  datatype Error = InventoryError | PathError

  /** The argument of formatDate: a string, or a Date (None is an Invalid Date). */
  datatype DateInput = AsText(text: string) | AsDate(time: Option<int>)

  /**
   * formatDate: a string is returned as it is; a Date gives the date part
   * of its ISO string. toISOString throws on an Invalid Date (None).
   */
  function FormatDate(date: DateInput): (r: Option<string>)
    ensures date.AsText? ==> r == Some(date.text)
    ensures r.None? <==> date == AsDate(None)
  {
    match date
    case AsText(s) => Some(s)
    case AsDate(t) => if t.None? then None else Some(Split(IsoString(t.value), 'T')[0])
  }

  /** A date written with digit fields and dashes holds no 'T'. */
  lemma {:induction false} NoTInDate(y: string, m: string, d: string)
    requires AllDigits(y) && AllDigits(m) && AllDigits(d)
    ensures 'T' !in y + "-" + m + "-" + d
  {
    forall i | 0 <= i < |y| ensures y[i] != 'T' { }
    forall i | 0 <= i < |m| ensures m[i] != 'T' { }
    forall i | 0 <= i < |d| ensures d[i] != 'T' { }
  }

  lemma {:induction false} FirstPiece(p: string, q: string)
    requires 'T' !in p
    ensures Split(p + ['T'] + q, 'T')[0] == p
  {
    SplitAt(p, 'T', q);
  }

  lemma {:induction false} IsoAtT(f: Fields)
    requires ValidDate(f.date.year, f.date.month, f.date.day)
    ensures IsoOfFields(f)
         == (IsoYear(f.date.year) + "-" + PadDigits(f.date.month, 2) + "-" + PadDigits(f.date.day, 2)) + ['T']
            + (PadDigits(f.hour, 2) + ":" + PadDigits(f.minute, 2) + ":" + PadDigits(f.second, 2)
               + "." + PadDigits(f.milli, 3) + "Z")
  {
    RegroupAtT(IsoYear(f.date.year), PadDigits(f.date.month, 2), PadDigits(f.date.day, 2),
               PadDigits(f.hour, 2), PadDigits(f.minute, 2), PadDigits(f.second, 2), PadDigits(f.milli, 3));
  }

  /** toISOString's text, grouped as the part before its "T", the "T" and the part after. */
  lemma {:induction false} RegroupAtT(y: string, m: string, d: string, h: string, mi: string, s: string, ms: string)
    ensures y + "-" + m + "-" + d + "T" + h + ":" + mi + ":" + s + "." + ms + "Z"
         == (y + "-" + m + "-" + d) + ['T'] + (h + ":" + mi + ":" + s + "." + ms + "Z")
  {
  }

  /** The date part of an instant in years 0 to 9999 is its calendar date written "YYYY-MM-DD". */
  lemma {:induction false} FormatDateOfInstant(t: int)
    requires 0 <= FieldsOf(t).date.year <= 9999
    ensures var f := FieldsOf(t);
      FormatDate(AsDate(Some(t)))
      == Some(PadDigits(f.date.year as nat, 4) + "-" + PadDigits(f.date.month, 2) + "-" + PadDigits(f.date.day, 2))
  {
    var f := FieldsOf(t);
    IsoAtT(f);
    var y := PadDigits(f.date.year as nat, 4);
    assert IsoYear(f.date.year) == y;
    NoTInDate(y, PadDigits(f.date.month, 2), PadDigits(f.date.day, 2));
    FirstPiece(y + "-" + PadDigits(f.date.month, 2) + "-" + PadDigits(f.date.day, 2),
               PadDigits(f.hour, 2) + ":" + PadDigits(f.minute, 2) + ":" + PadDigits(f.second, 2)
               + "." + PadDigits(f.milli, 3) + "Z");
  }

  /** loadTelemetricData's outcome: the file's content, None when it is missing or unparseable, an error when the path cannot be built. */
  function Loaded(files: TelemetryFiles, code: string, targetDate: string): Result<Option<Telemetry>, Error>
  {
    match PathOf(code, targetDate)
    case None => Failure(PathError)
    case Some(p) => Success(if p in files then Some(files[p]) else None)
  }

  /** 1 when loading that file lands in the catch block, which counts a missing telemetry. */
  function Missed(files: TelemetryFiles, code: string, targetDate: string): nat
  {
    if PathOf(code, targetDate).Some? && PathOf(code, targetDate).value !in files then 1 else 0
  }

  /** The combined telemetry of a station: its date and its readings, newest first. */
  datatype CombinedTelemetric = CombinedTelemetric(data: string, dados: seq<Record>)

  /** Yesterday's readings followed by today's, sorted newest first when there are any. */
  function Combined(today: Option<Telemetry>, yesterday: Option<Telemetry>, parse: string -> Option<int>): seq<Record>
  {
    var dados := TelemetryDados(yesterday) + TelemetryDados(today);
    if |dados| > 0 then SortBy(dados, MeasuredKey(parse), NewestFirst) else dados
  }

  /** mergeTelemetricDataForStation as a function: both loads run, and either failing rejects the merge. */
  function MergedTelemetric(files: TelemetryFiles, code: string, targetDate: string, targetYesterday: string,
                            parse: string -> Option<int>): Result<CombinedTelemetric, Error>
  {
    var today := Loaded(files, code, targetDate);
    var yesterday := Loaded(files, code, targetYesterday);
    if today.Failure? || yesterday.Failure? then Failure(PathError)
    else Success(CombinedTelemetric(targetDate, Combined(today.value, yesterday.value, parse)))
  }

  /** An inventory entry with data, dados, Data_Atualizacao and Data_Hora_Medicao overwritten, and nothing else changed. */
  function MergedStation(station: Station, c: CombinedTelemetric): (m: Station)
    ensures m.(day := station.day, dados := station.dados, latestMeasured := station.latestMeasured,
               latestUpdated := station.latestUpdated) == station
    ensures m.day == Some(c.data) && m.dados == Some(c.dados)
  {
    station.(day := Some(c.data), dados := Some(c.dados),
             latestUpdated := HeadField(c.dados, UpdatedAtOf), latestMeasured := HeadField(c.dados, MeasuredAtOf))
  }

  /** One station's merged entry, None when its merge throws and the loop skips it. */
  function StationMerge(files: TelemetryFiles, targetDate: string, targetYesterday: string,
                        parse: string -> Option<int>): Station -> Option<Station>
  {
    (station: Station) =>
      var c := MergedTelemetric(files, station.code, targetDate, targetYesterday, parse);
      if c.Success? then Some(MergedStation(station, c.value)) else None
  }

  /** The merged entries of the loop, one per station whose merge did not throw, in inventory order. */
  function MergeAll(stations: seq<Station>, files: TelemetryFiles, targetDate: string, targetYesterday: string,
                    parse: string -> Option<int>): seq<Station>
  {
    FilterMap(stations, StationMerge(files, targetDate, targetYesterday, parse))
  }

  /** The telemetry files the loop misses. */
  function MissesAll(stations: seq<Station>, files: TelemetryFiles, targetDate: string, targetYesterday: string): nat
  {
    if stations == [] then 0
    else
      var code := stations[|stations| - 1].code;
      MissesAll(stations[..|stations| - 1], files, targetDate, targetYesterday)
        + Missed(files, code, targetDate) + Missed(files, code, targetYesterday)
  }

  /** inventory.slice(0, 237) */
  const StationLimit := 237

  function Processed(inventory: seq<Station>): seq<Station>
  {
    if |inventory| <= StationLimit then inventory else inventory[..StationLimit]
  }

  /** mergeStationData as a function of the inventory (None when it cannot be loaded), the files and the two dates. */
  function MergeStationDataSpec(inventory: Option<seq<Station>>, files: TelemetryFiles, today: string, yesterday: string,
                                parse: string -> Option<int>): Result<seq<Station>, Error>
  {
    if inventory.None? then Failure(InventoryError)
    else Success(MergeAll(Processed(inventory.value), files, today, yesterday, parse))
  }

  /** The module-level state of the merge: missingTelemetryCount. */
  class Merger {
    var missingTelemetryCount: int

    constructor ()
      ensures missingTelemetryCount == 0
    {
      missingTelemetryCount := 0;
    }

    /**
     * loadTelemetricData: building the path throws before the try; a file
     * that cannot be read or parsed gives null and counts one miss.
     */
    method LoadTelemetricData(files: TelemetryFiles, code: string, targetDate: string) returns (r: Result<Option<Telemetry>, Error>)
      modifies this
      ensures r == Loaded(files, code, targetDate)
      ensures missingTelemetryCount == old(missingTelemetryCount) + Missed(files, code, targetDate)
    {
      var parts := Split(targetDate, '-');
      if |parts| < 2 {
        return Failure(PathError);
      }
      var telemPath := TelemetryPath(parts[0], parts[1], targetDate, code);
      if telemPath in files {
        return Success(Some(files[telemPath]));
      }
      missingTelemetryCount := missingTelemetryCount + 1;
      return Success(None);
    }

    /**
     * mergeTelemetricDataForStation: both files are loaded, then
     * yesterday's readings and today's are pushed and sorted newest first.
     */
    method MergeTelemetricDataForStation(files: TelemetryFiles, station: Station, targetDate: string, targetYesterday: string,
                                         parse: string -> Option<int>) returns (r: Result<CombinedTelemetric, Error>)
      modifies this
      ensures r == MergedTelemetric(files, station.code, targetDate, targetYesterday, parse)
      ensures missingTelemetryCount == old(missingTelemetryCount)
        + Missed(files, station.code, targetDate) + Missed(files, station.code, targetYesterday)
    {
      var telemetricToday := LoadTelemetricData(files, station.code, targetDate);
      var telemetricYesterday := LoadTelemetricData(files, station.code, targetYesterday);
      if telemetricToday.Failure? || telemetricYesterday.Failure? {
        return Failure(PathError);
      }
      var dados: seq<Record> := [];
      dados := dados + TelemetryDados(telemetricYesterday.value);
      dados := dados + TelemetryDados(telemetricToday.value);
      assert dados == TelemetryDados(telemetricYesterday.value) + TelemetryDados(telemetricToday.value);
      if |dados| > 0 {
        dados := SortBy(dados, MeasuredKey(parse), NewestFirst);
      }
      assert dados == Combined(telemetricToday.value, telemetricYesterday.value, parse);
      return Success(CombinedTelemetric(targetDate, dados));
    }

    /**
     * mergeStationData: the counter is reset, the inventory loaded (its
     * failure propagates) and the first 237 stations merged in order; a
     * station whose merge throws is skipped.
     */
    method MergeStationData(inventory: Option<seq<Station>>, files: TelemetryFiles, today: string, yesterday: string,
                            parse: string -> Option<int>) returns (r: Result<seq<Station>, Error>)
      modifies this
      ensures r == MergeStationDataSpec(inventory, files, today, yesterday, parse)
      ensures missingTelemetryCount
        == if inventory.Some? then MissesAll(Processed(inventory.value), files, today, yesterday) else 0
    {
      missingTelemetryCount := 0;
      if inventory.None? {
        return Failure(InventoryError);
      }
      var stationsToProcess := Processed(inventory.value);
      var targetDate := FormatDate(AsText(today)).value;
      var targetYesterday := FormatDate(AsText(yesterday)).value;
      var mergedStations: seq<Station> := [];
      var i := 0;
      while i < |stationsToProcess|
        invariant 0 <= i <= |stationsToProcess|
        invariant mergedStations == MergeAll(stationsToProcess[..i], files, targetDate, targetYesterday, parse)
        invariant missingTelemetryCount == MissesAll(stationsToProcess[..i], files, targetDate, targetYesterday)
      {
        var station := stationsToProcess[i];
        var combinedTelemetric := MergeTelemetricDataForStation(files, station, targetDate, targetYesterday, parse);
        MergeStep(stationsToProcess, i, files, targetDate, targetYesterday, parse);
        if combinedTelemetric.Success? {
          mergedStations := mergedStations + [MergedStation(station, combinedTelemetric.value)];
        }
        i := i + 1;
      }
      assert stationsToProcess[..|stationsToProcess|] == stationsToProcess;
      return Success(mergedStations);
    }
  }

  lemma {:induction false} MergeStep(stations: seq<Station>, i: nat, files: TelemetryFiles, targetDate: string, targetYesterday: string,
                  parse: string -> Option<int>)
    requires i < |stations|
    ensures var c := MergedTelemetric(files, stations[i].code, targetDate, targetYesterday, parse);
      MergeAll(stations[..i + 1], files, targetDate, targetYesterday, parse)
      == MergeAll(stations[..i], files, targetDate, targetYesterday, parse) + (if c.Success? then [MergedStation(stations[i], c.value)] else [])
    ensures MissesAll(stations[..i + 1], files, targetDate, targetYesterday)
         == MissesAll(stations[..i], files, targetDate, targetYesterday)
            + Missed(files, stations[i].code, targetDate) + Missed(files, stations[i].code, targetYesterday)
  {
    FilterMapSnoc(stations, i, StationMerge(files, targetDate, targetYesterday, parse));
    assert stations[..i + 1][..i] == stations[..i];
  }

  /** A date with at least a year and a month part, for which every path can be built. */
  predicate DatedPath(date: string)
  {
    |Split(date, '-')| >= 2
  }

  /** With well-formed dates a station's merge does not throw. */
  lemma {:induction false} MergedTelemetricSucceeds(files: TelemetryFiles, code: string, targetDate: string, targetYesterday: string,
                                 parse: string -> Option<int>)
    requires DatedPath(targetDate) && DatedPath(targetYesterday)
    ensures Loaded(files, code, targetDate).Success? && Loaded(files, code, targetYesterday).Success?
    ensures MergedTelemetric(files, code, targetDate, targetYesterday, parse)
         == Success(CombinedTelemetric(targetDate, Combined(Loaded(files, code, targetDate).value,
                                                            Loaded(files, code, targetYesterday).value, parse)))
  {
  }

  /**
   * With well-formed dates every station yields exactly one merged entry, in
   * inventory order, carrying its own combined telemetry.
   */
  lemma {:induction false} MergeOnePerStation(stations: seq<Station>, files: TelemetryFiles, targetDate: string,
                           targetYesterday: string, parse: string -> Option<int>)
    requires DatedPath(targetDate) && DatedPath(targetYesterday)
    ensures var m := MergeAll(stations, files, targetDate, targetYesterday, parse);
      |m| == |stations|
      && forall i :: 0 <= i < |stations| ==>
           m[i] == MergedStation(stations[i], CombinedTelemetric(targetDate,
             Combined(Loaded(files, stations[i].code, targetDate).value, Loaded(files, stations[i].code, targetYesterday).value, parse)))
  {
    var f := StationMerge(files, targetDate, targetYesterday, parse);
    forall i | 0 <= i < |stations| ensures f(stations[i]).Some? {
      MergedTelemetricSucceeds(files, stations[i].code, targetDate, targetYesterday, parse);
    }
    FilterMapTotal(stations, f);
    forall i | 0 <= i < |stations|
      ensures MergeAll(stations, files, targetDate, targetYesterday, parse)[i]
           == MergedStation(stations[i], CombinedTelemetric(targetDate,
                Combined(Loaded(files, stations[i].code, targetDate).value, Loaded(files, stations[i].code, targetYesterday).value, parse)))
    {
      MergedTelemetricSucceeds(files, stations[i].code, targetDate, targetYesterday, parse);
    }
  }

  /** A path that cannot be built makes every station throw, so nothing is merged. */
  lemma {:induction false} MergeNothingWithoutPath(stations: seq<Station>, files: TelemetryFiles, targetDate: string,
                                targetYesterday: string, parse: string -> Option<int>)
    requires !DatedPath(targetDate)
    ensures MergeAll(stations, files, targetDate, targetYesterday, parse) == []
  {
    FilterMapNone(stations, StationMerge(files, targetDate, targetYesterday, parse));
  }

  /** Only the first 237 inventory entries are processed, all of them when the dates are well formed. */
  lemma {:induction false} MergeStationCap(inventory: seq<Station>, files: TelemetryFiles, today: string, yesterday: string,
                        parse: string -> Option<int>)
    requires DatedPath(today) && DatedPath(yesterday)
    ensures var r := MergeStationDataSpec(Some(inventory), files, today, yesterday, parse);
      r.Success? && |r.value| == (if |inventory| <= 237 then |inventory| else 237)
      && forall i :: 0 <= i < |r.value| ==> r.value[i].code == inventory[i].code && r.value[i].day == Some(today)
  {
    MergeOnePerStation(Processed(inventory), files, today, yesterday, parse);
  }

  /** Each station misses at most its two files, and none when both exist. */
  lemma {:induction false} MissesBound(stations: seq<Station>, files: TelemetryFiles, targetDate: string, targetYesterday: string)
    ensures MissesAll(stations, files, targetDate, targetYesterday) <= 2 * |stations|
    ensures MissesAll(stations, files, targetDate, targetYesterday) == 0
        <==> forall i :: 0 <= i < |stations| ==>
               Missed(files, stations[i].code, targetDate) == 0 && Missed(files, stations[i].code, targetYesterday) == 0
    decreases |stations|
  {
    if stations != [] {
      var init := stations[..|stations| - 1];
      MissesBound(init, files, targetDate, targetYesterday);
      forall i | 0 <= i < |init| ensures init[i] == stations[i] { }
    }
  }

  /**
   * The combined readings are exactly yesterday's and today's; with valid
   * instants they run newest first and the entry's Data_Hora_Medicao is that
   * of a latest reading.
   */
  lemma {:induction false} CombinedNewestFirst(today: Option<Telemetry>, yesterday: Option<Telemetry>, parse: string -> Option<int>)
    requires AllMeasured(TelemetryDados(yesterday) + TelemetryDados(today), parse)
    ensures var c := Combined(today, yesterday, parse);
      var all := TelemetryDados(yesterday) + TelemetryDados(today);
      multiset(c) == multiset(all)
      && (forall i, j :: 0 <= i < j < |c| ==> MeasuredOr0(c[j], parse) <= MeasuredOr0(c[i], parse))
      && (c != [] ==> c[0] in all && forall x :: x in all ==> MeasuredOr0(x, parse) <= MeasuredOr0(c[0], parse))
  {
    var all := TelemetryDados(yesterday) + TelemetryDados(today);
    NewestFirstSorted(all, parse);
    var c := Combined(today, yesterday, parse);
    if c != [] {
      assert c[0] in multiset(c);
    }
  }
}
