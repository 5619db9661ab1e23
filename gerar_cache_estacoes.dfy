/**
 * The snapshot generator: every inventory entry, with no cap, is extended
 * with yesterday's and today's telemetry (newest first), its 24-hour history
 * group and the times of its latest reading.
 */
module GerarCacheEstacoes {
  import opened Common
  import opened Sorting
  import opened Records
  import History = HistoricalStationData

  /** What makes the run reject: the inventory or the history cannot be loaded, or a path cannot be built. */
  datatype Error = InventoryError | HistoryError | PathError

  /**
   * loadTelemetricData: path.join throws before the try when the date has
   * no month part; a file that cannot be read or parsed gives null.
   */
  function LoadTelemetricData(files: TelemetryFiles, code: string, targetDate: string): (r: Result<Option<Telemetry>, Error>)
    ensures r.Failure? <==> PathOf(code, targetDate).None?
    ensures r.Success? ==> (r.value.Some? <==> PathOf(code, targetDate).value in files)
    ensures r.Success? && r.value.Some? ==> r.value.value == files[PathOf(code, targetDate).value]
  {
    match PathOf(code, targetDate)
    case None => Failure(PathError)
    case Some(p) => Success(if p in files then Some(files[p]) else None)
  }

  /** `[...(teleYest?.dados || []), ...(teleToday?.dados || [])]` sorted newest first. */
  function CacheDados(today: Option<Telemetry>, yesterday: Option<Telemetry>, parse: string -> Option<int>): seq<Record>
  {
    SortBy(TelemetryDados(yesterday) + TelemetryDados(today), MeasuredKey(parse), NewestFirst)
  }

  /** `historico24h[code]?.registros || []` */
  function Historico(historico24h: map<string, History.Group>, code: string): seq<Record>
  {
    if code in historico24h then historico24h[code].registros else []
  }

  /** The snapshot entry of one inventory entry. */
  function CacheEntry(station: Station, files: TelemetryFiles, today: string, yesterday: string,
                      historico24h: map<string, History.Group>, parse: string -> Option<int>): Result<Station, Error>
  {
    var teleToday := LoadTelemetricData(files, station.code, today);
    var teleYest := LoadTelemetricData(files, station.code, yesterday);
    if teleToday.Failure? || teleYest.Failure? then Failure(PathError)
    else
      var dados := CacheDados(teleToday.value, teleYest.value, parse);
      Success(station.(day := Some(today), dados := Some(dados), history := Some(Historico(historico24h, station.code)),
                       latestMeasured := HeadField(dados, MeasuredAtOf), latestUpdated := HeadField(dados, UpdatedAtOf)))
  }

  /**
   * The snapshot as a function of the loaded inventory (None when it cannot
   * be read or parsed), the loaded history and the telemetry files: any
   * rejected load rejects the run.
   */
  function GerarCache(inventory: Option<seq<Station>>, historico24h: Result<map<string, History.Group>, History.Error>,
                      files: TelemetryFiles, today: string, yesterday: string, parse: string -> Option<int>)
    : Result<seq<Station>, Error>
  {
    if inventory.None? then Failure(InventoryError)
    else if historico24h.Failure? then Failure(HistoryError)
    else
      var stations := inventory.value;
      if exists i :: 0 <= i < |stations| && CacheEntry(stations[i], files, today, yesterday, historico24h.value, parse).Failure?
      then Failure(PathError)
      else Success(seq(|stations|, i requires 0 <= i < |stations| =>
                         CacheEntry(stations[i], files, today, yesterday, historico24h.value, parse).value))
  }

  /** gerarCacheEstacoes: the history is the 24-hour window of `today` read from the data directory. */
  ghost function GerarCacheEstacoes(inventory: Option<seq<Station>>, tree: History.DataTree, files: TelemetryFiles,
                                    today: string, yesterday: string, parse: string -> Option<int>)
    : Result<seq<Station>, Error>
  {
    GerarCache(inventory, History.History(24, Some(today), tree, parse), files, today, yesterday, parse)
  }

  /** A date with a year and a month part, for which every path can be built. */
  predicate DatedPath(date: string)
  {
    |Text.Split(date, '-')| >= 2
  }

  /**
   * With well-formed dates every inventory entry yields one snapshot entry,
   * in order, whatever telemetry files are missing; only data, dados,
   * historicoChuva24h and the two latest times change.
   */
  lemma {:induction false} CacheOnePerStation(stations: seq<Station>, historico24h: map<string, History.Group>, files: TelemetryFiles,
                           today: string, yesterday: string, parse: string -> Option<int>)
    requires DatedPath(today) && DatedPath(yesterday)
    ensures var r := GerarCache(Some(stations), Success(historico24h), files, today, yesterday, parse);
      r.Success? && |r.value| == |stations|
      && forall i :: 0 <= i < |stations| ==>
           var e := r.value[i];
           var dados := CacheDados(LoadTelemetricData(files, stations[i].code, today).value,
                                   LoadTelemetricData(files, stations[i].code, yesterday).value, parse);
           e.day == Some(today) && e.dados == Some(dados) && e.history == Some(Historico(historico24h, stations[i].code))
           && e.latestMeasured == HeadField(dados, MeasuredAtOf) && e.latestUpdated == HeadField(dados, UpdatedAtOf)
           && e.(day := stations[i].day, dados := stations[i].dados, history := stations[i].history,
                 latestMeasured := stations[i].latestMeasured, latestUpdated := stations[i].latestUpdated) == stations[i]
  {
    forall i | 0 <= i < |stations|
      ensures CacheEntry(stations[i], files, today, yesterday, historico24h, parse).Success?
    {
      assert PathOf(stations[i].code, today).Some?;
      assert PathOf(stations[i].code, yesterday).Some?;
    }
  }

  /** The history of an entry is its station's group in the 24-hour window, or empty. */
  lemma {:induction false} CacheHistoryGroup(kept: seq<History.Tagged>, code: string, parse: string -> Option<int>)
    ensures Historico(History.Groups(kept, parse), code)
         == if code in Seqs.KeySet(kept, History.CodeOf) then History.StationGroup(kept, code, parse).registros else []
  {
  }

  /**
   * With valid instants the snapshot's readings are exactly yesterday's and
   * today's, newest first, and Data_Hora_Medicao is that of a latest reading.
   */
  lemma {:induction false} CacheDadosNewestFirst(today: Option<Telemetry>, yesterday: Option<Telemetry>, parse: string -> Option<int>)
    requires AllMeasured(TelemetryDados(yesterday) + TelemetryDados(today), parse)
    ensures var c := CacheDados(today, yesterday, parse);
      var all := TelemetryDados(yesterday) + TelemetryDados(today);
      multiset(c) == multiset(all)
      && (forall i, j :: 0 <= i < j < |c| ==> MeasuredOr0(c[j], parse) <= MeasuredOr0(c[i], parse))
      && (c != [] ==> HeadField(c, MeasuredAtOf) == (if c[0].measuredAt == Some("") then None else c[0].measuredAt)
                      && forall x :: x in all ==> MeasuredOr0(x, parse) <= MeasuredOr0(c[0], parse))
  {
    NewestFirstSorted(TelemetryDados(yesterday) + TelemetryDados(today), parse);
  }
}
