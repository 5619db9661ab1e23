/**
 * The collector's storage of one station's readings: the readings are
 * grouped by the day of their Data_Hora_Medicao and merged into that day's
 * file without duplicating a timestamp, oldest first.
 */
module DataStorage {
  import opened Common
  import opened Text
  import opened Seqs
  import opened Sorting
  import opened Records

  /** A station's day file: codigoestacao, data and dados. */
  datatype DayFile = DayFile(code: string, date: string, dados: seq<Record>)

  /** An existing file: its JSON document, or Unparseable when json.load fails. */
  datatype FileState = Unparseable | Parsed(doc: DayFile)

  /** The files under the root directory, by <year>/<month>/<date>/codigoestacao_<code>.json. */
  type Files = map<TelemetryPath, FileState>

  /**
   * The sort key `datetime.strptime(r["Data_Hora_Medicao"], "%Y-%m-%d %H:%M:%S.%f")`,
   * with strptime given as an order-preserving map to integers (None when it raises).
   */
  function TimeKey(strptime: string -> Option<int>): Record -> int
  {
    (r: Record) => if r.measuredAt.Some? && strptime(r.measuredAt.value).Some? then strptime(r.measuredAt.value).value else 0
  }

  /** Every reading has a timestamp strptime accepts. */
  predicate Sortable(s: seq<Record>, strptime: string -> Option<int>)
  {
    forall i :: 0 <= i < |s| ==> s[i].measuredAt.Some? && strptime(s[i].measuredAt.value).Some?
  }

  /** list.sort with that key: all keys are computed first, so one that raises leaves the list as it was. */
  function PySort(s: seq<Record>, strptime: string -> Option<int>): seq<Record>
  {
    if Sortable(s, strptime) then SortBy(s, TimeKey(strptime), IntLe) else s
  }

  /** entry.pop("codigoestacao", None) */
  function PopCode(r: Record): Record
  {
    r.(extra := r.extra - {"codigoestacao"})
  }

  /**
   * An entry of all_data: whether it has the key "Data_Hora_Medicao" at all,
   * and the reading itself, whose measuredAt is None when that key is
   * absent or its value is null.
   */
  datatype Entry = Entry(hasTimestampKey: bool, record: Record)

  /** The key is there but null: `entry["Data_Hora_Medicao"][:10]` slices None and raises a TypeError. */
  predicate NullTimestamp(e: Entry)
  {
    e.hasTimestampKey && e.record.measuredAt.None?
  }

  /** The key is there with a timestamp: the grouping loop keeps the entry. */
  predicate Kept(e: Entry)
  {
    e.hasTimestampKey && e.record.measuredAt.Some?
  }

  /** An entry the grouping loop keeps, without its codigoestacao; one without the key is skipped. */
  function KeepEntry(): Entry -> Option<Record>
  {
    (e: Entry) => if Kept(e) then Some(PopCode(e.record)) else None
  }

  function Stored(allData: seq<Entry>): seq<Record>
  {
    FilterMap(allData, KeepEntry())
  }

  /** Some entry makes the grouping loop raise. */
  predicate GroupingRaises(allData: seq<Entry>)
  {
    exists i :: 0 <= i < |allData| && NullTimestamp(allData[i])
  }

  /** entry["Data_Hora_Medicao"][:10] */
  function RecordDate(r: Record): string
  {
    if r.measuredAt.Some? then Slice(r.measuredAt.value, 0, 10) else ""
  }

  /** {item.get("Data_Hora_Medicao") for item in dados} */
  function Timestamps(dados: seq<Record>): set<Option<string>>
  {
    set r | r in dados :: r.measuredAt
  }

  function IsNew(existing: seq<Record>): Record -> bool
  {
    (r: Record) => r.measuredAt !in Timestamps(existing)
  }

  /** The incoming readings whose timestamp the file does not hold yet. */
  function NewRecords(group: seq<Record>, existing: seq<Record>): seq<Record>
  {
    Filter(group, IsNew(existing))
  }

  /** The document the update works on: an unparseable file counts as an empty one. */
  function ExistingDoc(st: FileState, code: string, date: string): DayFile
  {
    if st.Unparseable? then DayFile(code, date, []) else st.doc
  }

  /**
   * What is written to a day file for one date's (already sorted) group,
   * None when nothing is written: a new file holds the group; an existing
   * one gains the new readings and is sorted, and is rewritten without new
   * readings only when it was out of order. A sort that raises after the
   * file was opened is caught without writing.
   */
  function FileUpdate(existing: Option<FileState>, group: seq<Record>, code: string, date: string,
                      strptime: string -> Option<int>): Option<DayFile>
  {
    if existing.None? then Some(DayFile(code, date, group))
    else
      var doc := ExistingDoc(existing.value, code, date);
      var novos := NewRecords(group, doc.dados);
      if novos != [] then
        var dados := doc.dados + novos;
        if Sortable(dados, strptime) then Some(doc.(dados := SortBy(dados, TimeKey(strptime), IntLe))) else None
      else if Sortable(doc.dados, strptime) && SortBy(doc.dados, TimeKey(strptime), IntLe) != doc.dados
      then Some(doc.(dados := SortBy(doc.dados, TimeKey(strptime), IntLe)))
      else None
  }

  /** The directory of a date: `year, month, day = record_date.split("-")` raises unless there are three parts. */
  function PathFor(date: string, code: string): Option<TelemetryPath>
  {
    var parts := Split(date, '-');
    if |parts| != 3 then None else Some(TelemetryPath(parts[0], parts[1], date, code))
  }

  /** The files, the paths written so far in order, and whether the run is still going. */
  datatype Outcome = Outcome(files: Files, written: seq<TelemetryPath>, ok: bool)

  /** One date of the second loop: a date that does not split into three parts stops the run. */
  function SaveDate(o: Outcome, date: string, group: seq<Record>, code: string, strptime: string -> Option<int>): Outcome
  {
    if !o.ok then o
    else match PathFor(date, code)
      case None => o.(ok := false)
      case Some(p) =>
        var w := FileUpdate(if p in o.files then Some(o.files[p]) else None, PySort(group, strptime), code, date, strptime);
        if w.Some? then Outcome(o.files[p := Parsed(w.value)], o.written + [p], true) else o
  }

  function SaveDates(o: Outcome, dates: seq<string>, groups: map<string, seq<Record>>, code: string,
                     strptime: string -> Option<int>): Outcome
    requires forall i :: 0 <= i < |dates| ==> dates[i] in groups
    decreases |dates|
  {
    if dates == [] then o
    else SaveDates(SaveDate(o, dates[0], groups[dates[0]], code, strptime), dates[1..], groups, code, strptime)
  }

  /**
   * save_station_data_to_file as a function of the files before, the
   * readings and the station: a null timestamp raises in the grouping loop,
   * before any file is touched.
   */
  function Save(files: Files, written: seq<TelemetryPath>, allData: seq<Entry>, code: string,
                strptime: string -> Option<int>): Outcome
  {
    if GroupingRaises(allData) then Outcome(files, written, false)
    else
      var s := Stored(allData);
      SaveDates(Outcome(files, written, true), FirstKeys(s, RecordDate), GroupBy(s, RecordDate), code, strptime)
  }

  /** The grouping loop raises within one more entry exactly when it raised before or that entry's timestamp is null. */
  lemma {:induction false} RaisesSnoc(allData: seq<Entry>, i: nat)
    requires i < |allData|
    ensures GroupingRaises(allData[..i + 1]) <==> GroupingRaises(allData[..i]) || NullTimestamp(allData[i])
    ensures NullTimestamp(allData[i]) ==> GroupingRaises(allData)
  {
    if NullTimestamp(allData[i]) {
      assert allData[..i + 1][i] == allData[i];
    }
    if GroupingRaises(allData[..i + 1]) && !NullTimestamp(allData[i]) {
      var k :| 0 <= k < i + 1 && NullTimestamp(allData[..i + 1][k]);
      assert allData[..i][k] == allData[k];
    }
    if GroupingRaises(allData[..i]) {
      var k :| 0 <= k < i && NullTimestamp(allData[..i][k]);
      assert allData[..i + 1][k] == allData[k];
    }
  }

  /** An entry with a null Data_Hora_Medicao makes the call raise with no file written. */
  lemma {:induction false} NullTimestampRaises(files: Files, written: seq<TelemetryPath>, allData: seq<Entry>, code: string,
                                              strptime: string -> Option<int>, i: nat)
    requires i < |allData| && NullTimestamp(allData[i])
    ensures Save(files, written, allData, code, strptime) == Outcome(files, written, false)
  {
  }

  lemma {:induction false} SaveDatesStopped(o: Outcome, dates: seq<string>, groups: map<string, seq<Record>>, code: string,
                                            strptime: string -> Option<int>)
    requires !o.ok && forall i :: 0 <= i < |dates| ==> dates[i] in groups
    ensures SaveDates(o, dates, groups, code, strptime) == o
    decreases |dates|
  {
    if dates != [] {
      SaveDatesStopped(o, dates[1..], groups, code, strptime);
    }
  }

  lemma {:induction false} StoredSnoc(allData: seq<Entry>, i: nat)
    requires i < |allData|
    ensures Stored(allData[..i + 1])
         == Stored(allData[..i]) + (if Kept(allData[i]) then [PopCode(allData[i].record)] else [])
  {
    FilterMapSnoc(allData, i, KeepEntry());
  }

  /** One entry of the grouping loop: `registros_por_data[record_date] = []` when new, then the append. */
  lemma {:induction false} GroupingStep(s: seq<Record>, x: Record)
    ensures var g := GroupBy(s, RecordDate); var d := RecordDate(x);
      var g1 := if d in g then g else g[d := []];
      GroupBy(s + [x], RecordDate) == g1[d := g1[d] + [x]]
  {
    GroupBySnoc(s, x, RecordDate);
  }

  /** The dictionary's key order: a date is added at its first entry. */
  lemma {:induction false} OrderStep(s: seq<Record>, x: Record)
    ensures var d := RecordDate(x);
      FirstKeys(s + [x], RecordDate) == if d in GroupBy(s, RecordDate) then FirstKeys(s, RecordDate) else FirstKeys(s, RecordDate) + [d]
  {
    FirstKeysSnoc(s, x, RecordDate);
  }

  /**
   * The first loop of save_station_data_to_file: registros_por_data and its
   * key order, or the TypeError of the first entry whose timestamp is null.
   */
  method GroupByDate(allData: seq<Entry>) returns (raises: bool, registrosPorData: map<string, seq<Record>>, order: seq<string>)
    ensures raises == GroupingRaises(allData)
    ensures !raises ==> (registrosPorData == GroupBy(Stored(allData), RecordDate)
                         && order == FirstKeys(Stored(allData), RecordDate))
  {
    registrosPorData := map[];
    order := [];
    ghost var stored: seq<Record> := [];
    assert allData[..0] == [];
    var i := 0;
    while i < |allData|
      invariant 0 <= i <= |allData|
      invariant stored == Stored(allData[..i])
      invariant registrosPorData == GroupBy(stored, RecordDate)
      invariant order == FirstKeys(stored, RecordDate)
      invariant !GroupingRaises(allData[..i])
    {
      var entry := allData[i];
      StoredSnoc(allData, i);
      RaisesSnoc(allData, i);
      if entry.hasTimestampKey {
        if entry.record.measuredAt.None? {
          assert NullTimestamp(allData[i]);
          return true, registrosPorData, order;
        }
        var recordDate := Slice(entry.record.measuredAt.value, 0, 10);
        var popped := PopCode(entry.record);
        assert RecordDate(popped) == recordDate;
        GroupingStep(stored, popped);
        OrderStep(stored, popped);
        if recordDate !in registrosPorData {
          registrosPorData := registrosPorData[recordDate := []];
          order := order + [recordDate];
        }
        registrosPorData := registrosPorData[recordDate := registrosPorData[recordDate] + [popped]];
        stored := stored + [popped];
      }
      i := i + 1;
    }
    assert allData[..|allData|] == allData;
    raises := false;
  }

  /** The storage object: the files under its root directory and the log of the writes it made. */
  class Storage {
    var files: Files
    var written: seq<TelemetryPath>

    constructor (initial: Files)
      ensures files == initial && written == []
    {
      files := initial;
      written := [];
    }

    /**
     * save_station_data_to_file: data_busca and intervalo play no part; the
     * readings are grouped by day in first-appearance order and each day's
     * file is created or updated in turn.
     */
    method SaveStationDataToFile(allData: seq<Entry>, dataBusca: string, intervalo: int, stationCode: string,
                                 strptime: string -> Option<int>) returns (ok: bool)
      modifies this
      ensures Outcome(files, written, ok) == Save(old(files), old(written), allData, stationCode, strptime)
    {
      var raises, registrosPorData, order := GroupByDate(allData);
      if raises {
        return false;
      }
      assert forall k :: 0 <= k < |order| ==> order[k] in registrosPorData;
      ok := SaveDays(order, registrosPorData, stationCode, strptime);
    }

    /** The second loop: the dates in order, stopping at the first that does not split into three parts. */
    method SaveDays(order: seq<string>, groups: map<string, seq<Record>>, stationCode: string, strptime: string -> Option<int>)
      returns (ok: bool)
      requires forall k :: 0 <= k < |order| ==> order[k] in groups
      modifies this
      ensures Outcome(files, written, ok) == SaveDates(Outcome(old(files), old(written), true), order, groups, stationCode, strptime)
    {
      ghost var start := Outcome(files, written, true);
      ok := true;
      var j := 0;
      while j < |order|
        invariant 0 <= j <= |order| && ok
        invariant SaveDates(Outcome(files, written, ok), order[j..], groups, stationCode, strptime)
               == SaveDates(start, order, groups, stationCode, strptime)
      {
        var recordDate := order[j];
        assert order[j..] == [recordDate] + order[j + 1..];
        ghost var before := Outcome(files, written, ok);
        assert SaveDates(before, order[j..], groups, stationCode, strptime)
            == SaveDates(SaveDate(before, recordDate, groups[recordDate], stationCode, strptime), order[j + 1..],
                         groups, stationCode, strptime);
        ok := SaveDay(recordDate, groups[recordDate], stationCode, strptime);
        if !ok {
          SaveDatesStopped(Outcome(files, written, ok), order[j + 1..], groups, stationCode, strptime);
          return;
        }
        j := j + 1;
      }
    }

    /** The body of the second loop for one date: false when the date does not split into year, month and day. */
    method SaveDay(recordDate: string, group: seq<Record>, stationCode: string, strptime: string -> Option<int>)
      returns (ok: bool)
      modifies this
      ensures Outcome(files, written, ok) == SaveDate(Outcome(old(files), old(written), true), recordDate, group, stationCode, strptime)
    {
      var registros := PySort(group, strptime);
      var parts := Split(recordDate, '-');
      if |parts| != 3 {
        return false;
      }
      ok := true;
      var filePath := TelemetryPath(parts[0], parts[1], recordDate, stationCode);
      if filePath in files {
        var dadosExistentes := ExistingDoc(files[filePath], stationCode, recordDate);
        var novosRegistros := Filter(registros, IsNew(dadosExistentes.dados));
        if novosRegistros != [] {
          var dados := dadosExistentes.dados + novosRegistros;
          if Sortable(dados, strptime) {
            dados := SortBy(dados, TimeKey(strptime), IntLe);
            files := files[filePath := Parsed(dadosExistentes.(dados := dados))];
            written := written + [filePath];
          }
        } else if Sortable(dadosExistentes.dados, strptime) {
          var registrosOrdenados := SortBy(dadosExistentes.dados, TimeKey(strptime), IntLe);
          if registrosOrdenados != dadosExistentes.dados {
            files := files[filePath := Parsed(dadosExistentes.(dados := registrosOrdenados))];
            written := written + [filePath];
          }
        }
      } else {
        files := files[filePath := Parsed(DayFile(stationCode, recordDate, registros))];
        written := written + [filePath];
      }
    }
  }

  // Properties of one day's update

  /** The grouping keeps exactly the readings with a non-null Data_Hora_Medicao, each without its codigoestacao. */
  lemma {:induction false} StoredEntries(allData: seq<Entry>)
    ensures forall r :: r in Stored(allData) ==> r.measuredAt.Some? && "codigoestacao" !in r.extra
    ensures forall i :: 0 <= i < |allData| && Kept(allData[i]) ==> PopCode(allData[i].record) in Stored(allData)
    decreases |allData|
  {
    if allData != [] {
      var n := |allData| - 1;
      StoredEntries(allData[..n]);
      StoredSnoc(allData, n);
      assert allData[..n + 1] == allData;
      forall i | 0 <= i < n && Kept(allData[i]) ensures PopCode(allData[i].record) in Stored(allData) {
        assert allData[..n][i] == allData[i];
      }
    }
  }

  /** Each day's group holds the stored readings of that day, in input order. */
  lemma {:induction false} DayGroups(allData: seq<Entry>, date: string)
    ensures var g := GroupBy(Stored(allData), RecordDate);
      date in g ==> g[date] == KeyFilter(Stored(allData), RecordDate, date) && g[date] != []
  {
    var s := Stored(allData);
    if date in GroupBy(s, RecordDate) {
      var x :| x in s && RecordDate(x) == date;
      var j :| 0 <= j < |s| && s[j] == x;
    }
  }

  /** A new day file holds the whole group, sorted ascending when every timestamp parses. */
  lemma {:induction false} NewFileSorted(group: seq<Record>, code: string, date: string, strptime: string -> Option<int>)
    requires Sortable(group, strptime)
    ensures var w := FileUpdate(None, PySort(group, strptime), code, date, strptime);
      w.Some? && w.value.code == code && w.value.date == date
      && multiset(w.value.dados) == multiset(group) && SortedBy(w.value.dados, TimeKey(strptime), IntLe)
  {
    NumericOrders();
    SortBySorted(group, TimeKey(strptime), IntLe);
  }

  /**
   * An update keeps every existing reading, adds exactly the incoming ones
   * whose timestamp is new, and leaves the file sorted ascending.
   */
  lemma {:induction false} UpdateMerges(st: FileState, group: seq<Record>, code: string, date: string, strptime: string -> Option<int>)
    requires FileUpdate(Some(st), group, code, date, strptime).Some?
    ensures var doc := ExistingDoc(st, code, date);
      var w := FileUpdate(Some(st), group, code, date, strptime).value;
      multiset(w.dados) == multiset(doc.dados) + multiset(NewRecords(group, doc.dados))
      && SortedBy(w.dados, TimeKey(strptime), IntLe)
      && w.code == doc.code && w.date == doc.date
  {
    var doc := ExistingDoc(st, code, date);
    NumericOrders();
    if NewRecords(group, doc.dados) != [] {
      SortBySorted(doc.dados + NewRecords(group, doc.dados), TimeKey(strptime), IntLe);
    } else {
      SortBySorted(doc.dados, TimeKey(strptime), IntLe);
    }
  }

  /** Readings whose timestamp the file holds are never added again; the file's timestamps become the union. */
  lemma {:induction false} UpdateDeduplicates(existing: seq<Record>, group: seq<Record>)
    ensures forall r :: r in NewRecords(group, existing) ==> r in group && r.measuredAt !in Timestamps(existing)
    ensures forall r :: r in group && r.measuredAt !in Timestamps(existing) ==> r in NewRecords(group, existing)
    ensures Timestamps(existing + NewRecords(group, existing)) == Timestamps(existing) + Timestamps(group)
  {
    var novos := NewRecords(group, existing);
    forall r | r in novos ensures r in group && r.measuredAt !in Timestamps(existing) {
      var j :| 0 <= j < |novos| && novos[j] == r;
    }
    forall r | r in group && r.measuredAt !in Timestamps(existing) ensures r in novos {
      var j :| 0 <= j < |group| && group[j] == r;
    }
    forall t | t in Timestamps(group) ensures t in Timestamps(existing + novos) {
      var r :| r in group && r.measuredAt == t;
      if t !in Timestamps(existing) {
        assert r in existing + novos;
      } else {
        var q :| q in existing && q.measuredAt == t;
        assert q in existing + novos;
      }
    }
    forall t | t in Timestamps(existing) ensures t in Timestamps(existing + novos) {
      var q :| q in existing && q.measuredAt == t;
      assert q in existing + novos;
    }
    forall t | t in Timestamps(existing + novos) ensures t in Timestamps(existing) + Timestamps(group) {
      var r :| r in existing + novos && r.measuredAt == t;
      if r !in existing {
        assert r in novos;
      }
    }
  }

  /** With nothing new and the file already in order, nothing is written. */
  lemma {:induction false} NothingNewNoWrite(doc: DayFile, group: seq<Record>, code: string, date: string, strptime: string -> Option<int>)
    requires forall r :: r in group ==> r.measuredAt in Timestamps(doc.dados)
    requires Sortable(doc.dados, strptime) && SortedBy(doc.dados, TimeKey(strptime), IntLe)
    ensures FileUpdate(Some(Parsed(doc)), group, code, date, strptime).None?
  {
    var novos := NewRecords(group, doc.dados);
    forall r | r in novos ensures false {
      UpdateDeduplicates(doc.dados, group);
    }
    NumericOrders();
    SortBySortedIdentity(doc.dados, TimeKey(strptime), IntLe);
  }

  /** An unparseable file is merged into as an empty document of the station and date. */
  lemma {:induction false} UnparseableAsEmpty(group: seq<Record>, code: string, date: string, strptime: string -> Option<int>)
    ensures FileUpdate(Some(Unparseable), group, code, date, strptime)
         == FileUpdate(Some(Parsed(DayFile(code, date, []))), group, code, date, strptime)
  {
  }

  /**
   * Each date writes at most one file: the log keeps its earlier entries,
   * grows by at most the number of dates, and every new entry is the path
   * of one of the dates.
   */
  lemma {:induction false} WrittenPaths(o: Outcome, dates: seq<string>, groups: map<string, seq<Record>>, code: string,
                                        strptime: string -> Option<int>)
    requires forall i :: 0 <= i < |dates| ==> dates[i] in groups
    ensures var r := SaveDates(o, dates, groups, code, strptime);
      |o.written| <= |r.written| <= |o.written| + |dates| && r.written[..|o.written|] == o.written
      && forall i :: |o.written| <= i < |r.written| ==> exists j :: 0 <= j < |dates| && PathFor(dates[j], code) == Some(r.written[i])
    decreases |dates|
  {
    if dates != [] {
      var o1 := SaveDate(o, dates[0], groups[dates[0]], code, strptime);
      WrittenPaths(o1, dates[1..], groups, code, strptime);
      var r := SaveDates(o, dates, groups, code, strptime);
      assert r == SaveDates(o1, dates[1..], groups, code, strptime);
      assert r.written[..|o1.written|] == o1.written;
      assert r.written[..|o.written|] == o1.written[..|o.written|];
      forall i | |o.written| <= i < |r.written|
        ensures exists j :: 0 <= j < |dates| && PathFor(dates[j], code) == Some(r.written[i])
      {
        if i < |o1.written| {
          assert r.written[i] == o1.written[i];
          assert PathFor(dates[0], code) == Some(r.written[i]);
        } else {
          var j :| 0 <= j < |dates[1..]| && PathFor(dates[1..][j], code) == Some(r.written[i]);
          assert dates[1..][j] == dates[j + 1];
        }
      }
    }
  }
}
