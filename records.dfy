/**
 * The station and telemetry records the server and the dashboard pass
 * around: one reading per record, and one inventory entry per station that
 * the merge step extends with the station's readings.
 */
module Records {
  import opened Common
  import opened Text
  import opened Sorting
  import opened JsDate

  /**
   * One telemetry reading. measuredAt is Data_Hora_Medicao and updatedAt
   * Data_Atualizacao (None is null); rain, level and discharge are
   * Chuva_Adotada, Cota_Adotada and Vazao_Adotada; extra holds every other
   * key of the record (the status flags and whatever else the API sends).
   */
  datatype Record = Record(
    measuredAt: Option<string>,
    updatedAt: Option<string>,
    rain: Datum,
    level: Datum,
    discharge: Datum,
    extra: map<string, Datum>)

  /**
   * An inventory entry (codigoestacao, Estacao_Nome, Rio_Nome,
   * Municipio_Nome, Latitude, Longitude and the rest in extra) and the
   * fields the merge adds to it: data, dados, Data_Hora_Medicao,
   * Data_Atualizacao and historicoChuva24h. None is an absent or null field;
   * a dados that is not an array is None as well.
   */
  datatype Station = Station(
    code: string,
    name: string,
    river: Option<string>,
    city: Option<string>,
    latitude: Datum,
    longitude: Datum,
    day: Option<string>,
    dados: Option<seq<Record>>,
    latestMeasured: Option<string>,
    latestUpdated: Option<string>,
    history: Option<seq<Record>>,
    extra: map<string, Datum>)

  /**
   * The Date constructor on strings, `new Date(s)`, as a function: the
   * modules that only compare and subtract Dates take it as a parameter.
   */
  function DateParser(env: Env): (string -> Option<int>)
  {
    s => NewDate(s, env)
  }

  /**
   * new Date(x) for a Data_Hora_Medicao x read from JSON: null is the
   * instant 0 (Number(null) is 0) and text goes to the Date constructor.
   */
  function DateOfField(s: Option<string>, parse: string -> Option<int>): Option<int>
  {
    match s
    case None => Some(0)
    case Some(t) => parse(t)
  }

  /**
   * The order a comparator `(a, b) => new Date(b.x) - new Date(a.x)` sorts
   * by, as "a may stay before b": the comparator is positive only when both
   * instants are valid and b's is the later one. An Invalid Date makes the
   * difference NaN, which the sort reads as +0. With an Invalid Date among
   * valid ones the comparator is then not consistent, and ECMA-262 leaves
   * the order of the sorted array implementation-defined; the model fixes
   * one such order, that of Sorting.SortBy (insertion from the back).
   */
  function NewestFirst(a: Option<int>, b: Option<int>): bool
  {
    !(a.Some? && b.Some? && a.value < b.value)
  }

  /** The comparator `(a, b) => new Date(a.x) - new Date(b.x)`, oldest first; an Invalid Date as in NewestFirst. */
  function OldestFirst(a: Option<int>, b: Option<int>): bool
  {
    !(a.Some? && b.Some? && a.value > b.value)
  }

  /** The key of a sort by `new Date(x.Data_Hora_Medicao)`. */
  function MeasuredKey(parse: string -> Option<int>): Record -> Option<int>
  {
    (r: Record) => DateOfField(r.measuredAt, parse)
  }

  /** The instant of a reading, 0 for an Invalid Date: a total int key agreeing with MeasuredKey on valid readings. */
  function MeasuredOr0(r: Record, parse: string -> Option<int>): int
  {
    var d := DateOfField(r.measuredAt, parse);
    if d.Some? then d.value else 0
  }

  function MeasuredIntKey(parse: string -> Option<int>): Record -> int
  {
    (r: Record) => MeasuredOr0(r, parse)
  }

  /** Every reading of s has a valid measurement instant. */
  predicate AllMeasured(s: seq<Record>, parse: string -> Option<int>)
  {
    forall i :: 0 <= i < |s| ==> DateOfField(s[i].measuredAt, parse).Some?
  }

  /**
   * With valid instants, sorting newest first by `new Date(b) - new Date(a)`
   * puts the readings in descending order of time, the first being the latest.
   */
  lemma {:induction false} NewestFirstSorted(s: seq<Record>, parse: string -> Option<int>)
    requires AllMeasured(s, parse)
    ensures var r := SortBy(s, MeasuredKey(parse), NewestFirst);
      multiset(r) == multiset(s)
      && (forall i, j :: 0 <= i < j < |r| ==> MeasuredOr0(r[j], parse) <= MeasuredOr0(r[i], parse))
      && (r != [] ==> forall x :: x in s ==> MeasuredOr0(x, parse) <= MeasuredOr0(r[0], parse))
  {
    forall a, b | a in s && b in s
      ensures NewestFirst(MeasuredKey(parse)(a), MeasuredKey(parse)(b)) == IntGe(MeasuredIntKey(parse)(a), MeasuredIntKey(parse)(b))
    {
      var i :| 0 <= i < |s| && s[i] == a;
      var j :| 0 <= j < |s| && s[j] == b;
    }
    SortByCongruent(s, MeasuredKey(parse), NewestFirst, MeasuredIntKey(parse), IntGe);
    NumericOrders();
    SortBySorted(s, MeasuredIntKey(parse), IntGe);
    if s != [] {
      SortByFirst(s, MeasuredIntKey(parse), IntGe);
    }
  }

  /** A parsed telemetry file; dados is None when it is absent or null. */
  datatype Telemetry = Telemetry(dados: Option<seq<Record>>)

  /** public/data/<year>/<month>/<date>/codigoestacao_<code>.json */
  datatype TelemetryPath = TelemetryPath(year: string, month: string, date: string, code: string)

  /** The telemetry files that exist and parse as JSON. */
  type TelemetryFiles = map<TelemetryPath, Telemetry>

  /**
   * The path of a station's file for a date: year and month are the first
   * two "-"-separated parts of the date; with fewer, path.join is handed
   * undefined and throws (None).
   */
  function PathOf(code: string, targetDate: string): Option<TelemetryPath>
  {
    var parts := Split(targetDate, '-');
    if |parts| < 2 then None else Some(TelemetryPath(parts[0], parts[1], targetDate, code))
  }

  /** `tele?.dados || []`: the readings of a file, none when there is no file or no dados. */
  function TelemetryDados(t: Option<Telemetry>): seq<Record>
  {
    if t.Some? && t.value.dados.Some? then t.value.dados.value else []
  }

  /** `dados[0]?.x || null`: the field of the first reading, null when there is none or it is empty text. */
  function HeadField(dados: seq<Record>, field: Record -> Option<string>): (r: Option<string>)
    ensures r.Some? <==> dados != [] && field(dados[0]).Some? && field(dados[0]).value != ""
    ensures r.Some? ==> r == field(dados[0])
  {
    if dados != [] && field(dados[0]).Some? && field(dados[0]).value != "" then field(dados[0]) else None
  }

  function MeasuredAtOf(r: Record): Option<string> { r.measuredAt }

  function UpdatedAtOf(r: Record): Option<string> { r.updatedAt }
}
