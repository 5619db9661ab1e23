/**
 * The historical window of the station service: load every station file of
 * one month directory into a pool of tagged records, keep the records within
 * an interval of the pool's latest reading, and group them per station,
 * oldest first, with the date of each group's latest reading.
 */
module HistoricalStationData {
  import opened Common
  import opened Text
  import opened Seqs
  import opened Sorting
  import opened Records

  /** A parsed day file: its codigoestacao and its dados, None when dados is not an array. */
  datatype Doc = Doc(code: string, dados: Option<seq<Record>>)

  /** A file of a day directory: its name and its document, None when it cannot be read or parsed. */
  datatype JsonFile = JsonFile(name: string, content: Option<Doc>)

  /** A day directory: its name and its files, None when it cannot be listed. */
  datatype DayDir = DayDir(name: string, files: Option<seq<JsonFile>>)

  /** The data directory: the day directories of every (year, month) directory that can be listed. */
  type DataTree = map<(string, string), seq<DayDir>>

  /** A record with the stationCode of the file it came from. */
  datatype Tagged = Tagged(code: string, record: Record)

  /** What getHistoricalStationData throws. */
  datatype Error = MissingDate | UnreadableMonth | TypeError

  // carregarDados

  function Tag(code: string, rs: seq<Record>): (ts: seq<Tagged>)
    ensures |ts| == |rs|
    ensures forall i :: 0 <= i < |rs| ==> ts[i] == Tagged(code, rs[i])
  {
    seq(|rs|, i requires 0 <= i < |rs| => Tagged(code, rs[i]))
  }

  /** The records a file contributes: those of a readable ".json" file whose dados is an array, tagged with its code. */
  function FileRecords(f: JsonFile): seq<Tagged>
  {
    if EndsWith(f.name, ".json") && f.content.Some? && f.content.value.dados.Some?
    then Tag(f.content.value.code, f.content.value.dados.value)
    else []
  }

  function FilesRecords(files: seq<JsonFile>): seq<Tagged>
  {
    if files == [] then [] else FilesRecords(files[..|files| - 1]) + FileRecords(files[|files| - 1])
  }

  /** The records of a day directory; one that cannot be listed contributes none. */
  function DayRecords(d: DayDir): seq<Tagged>
  {
    if d.files.Some? then FilesRecords(d.files.value) else []
  }

  /** The pool of a month: the records of its days, in directory order. */
  function Pool(days: seq<DayDir>): seq<Tagged>
  {
    if days == [] then [] else Pool(days[..|days| - 1]) + DayRecords(days[|days| - 1])
  }

  lemma {:induction false} FilesRecordsSnoc(files: seq<JsonFile>, j: nat)
    requires j < |files|
    ensures FilesRecords(files[..j + 1]) == FilesRecords(files[..j]) + FileRecords(files[j])
  {
    assert files[..j + 1][..j] == files[..j];
  }

  lemma {:induction false} PoolSnoc(days: seq<DayDir>, i: nat)
    requires i < |days|
    ensures Pool(days[..i + 1]) == Pool(days[..i]) + DayRecords(days[i])
  {
    assert days[..i + 1][..i] == days[..i];
  }

  /**
   * carregarDados: listing the month directory fails with an error; then
   * every day and every file is read in turn and the records of the good
   * files are appended to the pool.
   */
  method CarregarDados(month: Option<seq<DayDir>>) returns (r: Result<seq<Tagged>, Error>)
    ensures month.None? ==> r == Failure(UnreadableMonth)
    ensures month.Some? ==> r == Success(Pool(month.value))
  {
    if month.None? {
      return Failure(UnreadableMonth);
    }
    var dias := month.value;
    var todosDados: seq<Tagged> := [];
    var i := 0;
    while i < |dias|
      invariant 0 <= i <= |dias|
      invariant todosDados == Pool(dias[..i])
    {
      PoolSnoc(dias, i);
      if dias[i].files.Some? {
        var arquivos := dias[i].files.value;
        ghost var base := todosDados;
        var j := 0;
        while j < |arquivos|
          invariant 0 <= j <= |arquivos|
          invariant todosDados == base + FilesRecords(arquivos[..j])
        {
          FilesRecordsSnoc(arquivos, j);
          var arquivo := arquivos[j];
          if EndsWith(arquivo.name, ".json") && arquivo.content.Some? && arquivo.content.value.dados.Some? {
            var registros := Tag(arquivo.content.value.code, arquivo.content.value.dados.value);
            assert registros == FileRecords(arquivo);
            AppendAssoc(base, FilesRecords(arquivos[..j]), registros);
            todosDados := todosDados + registros;
          } else {
            assert FileRecords(arquivo) == [];
            assert FilesRecords(arquivos[..j + 1]) == FilesRecords(arquivos[..j]);
          }
          j := j + 1;
        }
        assert arquivos[..|arquivos|] == arquivos;
      }
      i := i + 1;
    }
    assert dias[..|dias|] == dias;
    return Success(todosDados);
  }

  /** t came from file f: f is a readable ".json" file, t carries its code, and t's record is in its dados. */
  predicate FromFile(t: Tagged, f: JsonFile)
  {
    EndsWith(f.name, ".json") && f.content.Some? && f.content.value.dados.Some?
    && t.code == f.content.value.code && t.record in f.content.value.dados.value
  }

  lemma {:induction false} FilesRecordsOrigin(files: seq<JsonFile>, t: Tagged)
    requires t in FilesRecords(files)
    ensures exists j :: 0 <= j < |files| && FromFile(t, files[j])
    decreases |files|
  {
    var n := |files| - 1;
    if t in FilesRecords(files[..n]) {
      FilesRecordsOrigin(files[..n], t);
      var j :| 0 <= j < n && FromFile(t, files[..n][j]);
      assert files[j] == files[..n][j];
    } else {
      var ts := FileRecords(files[n]);
      var k :| 0 <= k < |ts| && ts[k] == t;
      assert FromFile(t, files[n]);
    }
  }

  /** Every pooled record is tagged with the codigoestacao of the readable ".json" file it was read from. */
  lemma {:induction false} PoolOrigin(days: seq<DayDir>, t: Tagged)
    requires t in Pool(days)
    ensures exists i, j :: 0 <= i < |days| && days[i].files.Some? && 0 <= j < |days[i].files.value|
                           && FromFile(t, days[i].files.value[j])
    decreases |days|
  {
    var n := |days| - 1;
    if t in Pool(days[..n]) {
      PoolOrigin(days[..n], t);
      var i, j :| 0 <= i < n && days[..n][i].files.Some? && 0 <= j < |days[..n][i].files.value|
                  && FromFile(t, days[..n][i].files.value[j]);
      assert days[i] == days[..n][i];
    } else {
      FilesRecordsOrigin(days[n].files.value, t);
    }
  }

  // filtrarPorIntervalo

  predicate Measured(t: Tagged)
  {
    t.record.measuredAt.Some?
  }

  /** `new Date(x.replace(' ', 'T') + "-03:00")`: the reading as a Brasília time. */
  function BrasiliaTime(t: Tagged, parse: string -> Option<int>): Option<int>
  {
    if t.record.measuredAt.Some? then parse(ReplaceFirst(t.record.measuredAt.value, ' ', 'T') + "-03:00") else None
  }

  function BrasiliaKey(parse: string -> Option<int>): Tagged -> Option<int>
  {
    (t: Tagged) => BrasiliaTime(t, parse)
  }

  /** `(anchor - t) <= intervalMs`, false when either Date is Invalid. */
  predicate Within(t: Tagged, anchor: Option<int>, intervalMs: int, parse: string -> Option<int>)
  {
    var d := BrasiliaTime(t, parse);
    anchor.Some? && d.Some? && anchor.value - d.value <= intervalMs
  }

  function Keep(anchor: Option<int>, intervalMs: int, parse: string -> Option<int>): Tagged -> bool
  {
    (t: Tagged) => Within(t, anchor, intervalMs, parse)
  }

  /**
   * filtrarPorIntervalo: a record without Data_Hora_Medicao makes the
   * replace throw before anything is reordered; otherwise the pool is sorted
   * newest first in place and the records within the interval of the first
   * one are returned. An empty pool throws when its first element is read.
   */
  method FiltrarPorIntervalo(dados: array<Tagged>, minutes: int, parse: string -> Option<int>) returns (r: Result<seq<Tagged>, Error>)
    modifies dados
    ensures r.Failure? <==> dados.Length == 0 || exists i :: 0 <= i < dados.Length && !Measured(old(dados[i]))
    ensures r.Failure? ==> r.error == TypeError && dados[..] == old(dados[..])
    ensures r.Success? ==> dados[..] == SortBy(old(dados[..]), BrasiliaKey(parse), NewestFirst)
    ensures r.Success? ==> r.value == Filter(dados[..], Keep(BrasiliaTime(dados[0], parse), minutes * 60 * 1000, parse))
  {
    var i := 0;
    while i < dados.Length
      invariant 0 <= i <= dados.Length
      invariant forall k :: 0 <= k < i ==> Measured(dados[k])
    {
      if !Measured(dados[i]) {
        return Failure(TypeError);
      }
      i := i + 1;
    }
    var sorted := SortBy(dados[..], BrasiliaKey(parse), NewestFirst);
    forall k | 0 <= k < dados.Length {
      dados[k] := sorted[k];
    }
    if dados.Length == 0 {
      return Failure(TypeError);
    }
    var maisRecente := BrasiliaTime(dados[0], parse);
    var intervaloMs := minutes * 60 * 1000;
    return Success(Filter(dados[..], Keep(maisRecente, intervaloMs, parse)));
  }

  function TimeOr0(t: Tagged, parse: string -> Option<int>): int
  {
    var d := BrasiliaTime(t, parse);
    if d.Some? then d.value else 0
  }

  function IntKey(parse: string -> Option<int>): Tagged -> int
  {
    (t: Tagged) => TimeOr0(t, parse)
  }

  predicate AllTimed(s: seq<Tagged>, parse: string -> Option<int>)
  {
    forall i :: 0 <= i < |s| ==> BrasiliaTime(s[i], parse).Some?
  }

  /**
   * When every reading has a valid time, the anchor is the latest time of
   * the whole pool, over all stations together.
   */
  lemma {:induction false} AnchorIsLatest(s: seq<Tagged>, parse: string -> Option<int>)
    requires s != [] && AllTimed(s, parse)
    ensures var anchor := BrasiliaTime(SortBy(s, BrasiliaKey(parse), NewestFirst)[0], parse);
      anchor.Some? && SortBy(s, BrasiliaKey(parse), NewestFirst)[0] in s
      && forall t :: t in s ==> BrasiliaTime(t, parse).value <= anchor.value
  {
    var first := SortBy(s, BrasiliaKey(parse), NewestFirst)[0];
    SortByCongruent(s, BrasiliaKey(parse), NewestFirst, IntKey(parse), IntGe);
    NumericOrders();
    SortByFirst(s, IntKey(parse), IntGe);
    assert first in multiset(SortBy(s, BrasiliaKey(parse), NewestFirst));
  }

  /** A pooled record is kept exactly when the anchor is at most the interval after it. */
  lemma {:induction false} KeptIff(s: seq<Tagged>, anchor: Option<int>, intervalMs: int, parse: string -> Option<int>, t: Tagged)
    ensures t in Filter(SortBy(s, BrasiliaKey(parse), NewestFirst), Keep(anchor, intervalMs, parse))
        <==> t in s && anchor.Some? && BrasiliaTime(t, parse).Some? && anchor.value - BrasiliaTime(t, parse).value <= intervalMs
  {
    var sorted := SortBy(s, BrasiliaKey(parse), NewestFirst);
    assert t in sorted <==> t in s by {
      assert t in multiset(sorted) <==> t in multiset(s);
    }
    if t in sorted && Within(t, anchor, intervalMs, parse) {
      var j :| 0 <= j < |sorted| && sorted[j] == t;
    }
  }

  // getHistoricalStationData

  /** A station's history: the date of its latest reading and its readings, oldest first. */
  datatype Group = Group(data: string, registros: seq<Record>)

  /** formatRecord: a record with exactly its five reading fields; the other keys are gone. */
  function FormatRecord(r: Record): (f: Record)
    ensures f.extra == map[]
    ensures f.rain == r.rain && f.level == r.level && f.discharge == r.discharge
    ensures f.measuredAt == r.measuredAt && f.updatedAt == r.updatedAt
  {
    Record(r.measuredAt, r.updatedAt, r.rain, r.level, r.discharge, map[])
  }

  function Formatted(ts: seq<Tagged>): (rs: seq<Record>)
    ensures |rs| == |ts|
    ensures forall i :: 0 <= i < |ts| ==> rs[i] == FormatRecord(ts[i].record)
  {
    if ts == [] then [] else Formatted(ts[..|ts| - 1]) + [FormatRecord(ts[|ts| - 1].record)]
  }

  function CodeOf(t: Tagged): string { t.code }

  /** `Data_Hora_Medicao.split(' ')[0]`, the date part of a reading. */
  function DayOf(r: Record): string
  {
    if r.measuredAt.Some? then Split(r.measuredAt.value, ' ')[0] else ""
  }

  /** The group of station k: its kept readings, formatted and sorted oldest first, dated by the last. */
  function StationGroup(kept: seq<Tagged>, k: string, parse: string -> Option<int>): Group
  {
    var rs := SortBy(Formatted(KeyFilter(kept, CodeOf, k)), MeasuredKey(parse), OldestFirst);
    Group(if rs == [] then "" else DayOf(rs[|rs| - 1]), rs)
  }

  /** One group per station that has a kept reading. */
  ghost function Groups(kept: seq<Tagged>, parse: string -> Option<int>): map<string, Group>
  {
    map k | k in KeySet(kept, CodeOf) :: StationGroup(kept, k, parse)
  }

  /** The month directory a date string names: the first two "-"-separated parts. */
  function MonthOf(dateStr: string): Option<(string, string)>
  {
    var parts := Split(dateStr, '-');
    if |parts| < 2 then None else Some((parts[0], parts[1]))
  }

  /** getHistoricalStationData as a function of the interval, the date string and the data directory. */
  ghost function History(intervalHours: int, dateStr: Option<string>, tree: DataTree, parse: string -> Option<int>)
    : Result<map<string, Group>, Error>
  {
    if dateStr.None? || dateStr.value == "" then Failure(MissingDate)
    else if MonthOf(dateStr.value).None? then Failure(TypeError)
    else if MonthOf(dateStr.value).value !in tree then Failure(UnreadableMonth)
    else
      var pool := Pool(tree[MonthOf(dateStr.value).value]);
      if pool == [] then Success(map[])
      else if exists i :: 0 <= i < |pool| && !Measured(pool[i]) then Failure(TypeError)
      else
        var sorted := SortBy(pool, BrasiliaKey(parse), NewestFirst);
        Success(Groups(Filter(sorted, Keep(BrasiliaTime(sorted[0], parse), intervalHours * 60 * 60 * 1000, parse)), parse))
  }

  /** hist holds, for each station with a reading in kept, those readings formatted, still undated. */
  ghost predicate IsPushed(hist: map<string, Group>, kept: seq<Tagged>)
  {
    hist.Keys == KeySet(kept, CodeOf)
    && forall k :: k in hist ==> hist[k] == Group("", Formatted(KeyFilter(kept, CodeOf, k)))
  }

  function Push(hist: map<string, Group>, t: Tagged): map<string, Group>
  {
    var h0 := if t.code in hist then hist else hist[t.code := Group("", [])];
    h0[t.code := h0[t.code].(registros := h0[t.code].registros + [FormatRecord(t.record)])]
  }

  lemma {:induction false} FormattedSnoc(ts: seq<Tagged>, t: Tagged)
    ensures Formatted(ts + [t]) == Formatted(ts) + [FormatRecord(t.record)]
  {
    assert (ts + [t])[..|ts|] == ts;
  }

  lemma {:induction false} PushValue(hist: map<string, Group>, prefix: seq<Tagged>, x: Tagged, k: string)
    requires IsPushed(hist, prefix) && k in Push(hist, x)
    ensures Push(hist, x)[k] == Group("", Formatted(KeyFilter(prefix + [x], CodeOf, k)))
  {
    KeyFilterAppend(prefix, [x], CodeOf, k);
    if k == x.code {
      KeyFilterAbsent(prefix, CodeOf, k);
      FormattedSnoc(KeyFilter(prefix, CodeOf, k), x);
    } else {
      assert KeyFilter(prefix + [x], CodeOf, k) == KeyFilter(prefix, CodeOf, k);
    }
  }

  lemma {:induction false} PushStep(hist: map<string, Group>, kept: seq<Tagged>, i: nat)
    requires i < |kept| && IsPushed(hist, kept[..i])
    ensures IsPushed(Push(hist, kept[i]), kept[..i + 1])
  {
    var prefix := kept[..i];
    var x := kept[i];
    assert kept[..i + 1] == prefix + [x];
    KeySetSnoc(prefix, x, CodeOf);
    var h1 := Push(hist, x);
    assert h1.Keys == hist.Keys + {x.code};
    forall k | k in h1 ensures h1[k] == Group("", Formatted(KeyFilter(prefix + [x], CodeOf, k))) {
      PushValue(hist, prefix, x, k);
    }
  }

  /**
   * The forEach of getHistoricalStationData: each kept reading is pushed,
   * formatted, onto its station's group, creating the group on first sight.
   */
  method PushByStation(kept: seq<Tagged>) returns (hist: map<string, Group>)
    ensures IsPushed(hist, kept)
  {
    hist := map[];
    var i := 0;
    while i < |kept|
      invariant 0 <= i <= |kept|
      invariant IsPushed(hist, kept[..i])
    {
      PushStep(hist, kept, i);
      var stationCode := kept[i].code;
      if stationCode !in hist {
        hist := hist[stationCode := Group("", [])];
      }
      hist := hist[stationCode := hist[stationCode].(registros := hist[stationCode].registros + [FormatRecord(kept[i].record)])];
      i := i + 1;
    }
    assert kept[..|kept|] == kept;
  }

  lemma {:induction false} GroupNonEmpty(kept: seq<Tagged>, k: string)
    requires k in KeySet(kept, CodeOf)
    ensures KeyFilter(kept, CodeOf, k) != []
  {
    var x :| x in kept && CodeOf(x) == k;
    var j :| 0 <= j < |kept| && kept[j] == x;
  }

  /** A group sorted oldest first and dated by its last reading. */
  function Dated(g: Group, parse: string -> Option<int>): Group
  {
    var rs := SortBy(g.registros, MeasuredKey(parse), OldestFirst);
    Group(if rs == [] then "" else DayOf(rs[|rs| - 1]), rs)
  }

  lemma {:induction false} DatedGroup(kept: seq<Tagged>, pushed: map<string, Group>, k: string, parse: string -> Option<int>)
    requires IsPushed(pushed, kept) && k in pushed
    ensures pushed[k].registros != []
    ensures Dated(pushed[k], parse) == StationGroup(kept, k, parse)
  {
    GroupNonEmpty(kept, k);
  }

  /**
   * The for-in loop of getHistoricalStationData: every group is sorted
   * oldest first and dated by its last reading.
   */
  method SortAndDate(pushed: map<string, Group>, parse: string -> Option<int>) returns (hist: map<string, Group>)
    requires forall k :: k in pushed ==> pushed[k].registros != []
    ensures hist.Keys == pushed.Keys
    ensures forall k :: k in hist ==> hist[k] == Dated(pushed[k], parse)
  {
    hist := pushed;
    var pending := hist.Keys;
    while pending != {}
      invariant pending <= hist.Keys && hist.Keys == pushed.Keys
      invariant forall k :: k in pending ==> hist[k] == pushed[k]
      invariant forall k :: k in hist && k !in pending ==> hist[k] == Dated(pushed[k], parse)
      decreases pending
    {
      var k :| k in pending;
      var group := hist[k];
      var registros := SortBy(group.registros, MeasuredKey(parse), OldestFirst);
      assert |registros| == |group.registros| by {
        assert multiset(registros) == multiset(group.registros);
      }
      var latestRecord := registros[|registros| - 1];
      hist := hist[k := Group(DayOf(latestRecord), registros)];
      pending := pending - {k};
    }
  }

  lemma {:induction false} GroupsEqual(hist: map<string, Group>, pushed: map<string, Group>, kept: seq<Tagged>, parse: string -> Option<int>)
    requires IsPushed(pushed, kept)
    requires hist.Keys == pushed.Keys
    requires forall k :: k in hist ==> hist[k] == Dated(pushed[k], parse)
    ensures hist == Groups(kept, parse)
  {
    forall k | k in hist ensures hist[k] == StationGroup(kept, k, parse) {
      DatedGroup(kept, pushed, k, parse);
    }
  }

  /**
   * getHistoricalStationData: a missing date throws before any read; only
   * the (year, month) directory of the date is loaded; an empty pool gives
   * no groups; otherwise the filtered records are pushed onto their
   * station's group and each group is then sorted and dated.
   */
  method GetHistoricalStationData(intervalHours: int, dateStr: Option<string>, tree: DataTree, parse: string -> Option<int>)
    returns (r: Result<map<string, Group>, Error>)
    ensures r == History(intervalHours, dateStr, tree, parse)
  {
    if dateStr.None? || dateStr.value == "" {
      return Failure(MissingDate);
    }
    var intervaloMinutos := intervalHours * 60;
    var parts := Split(dateStr.value, '-');
    if |parts| < 2 {
      return Failure(TypeError);
    }
    var baseDir := (parts[0], parts[1]);
    var month := if baseDir in tree then Some(tree[baseDir]) else None;
    var loaded := CarregarDados(month);
    if loaded.Failure? {
      return Failure(loaded.error);
    }
    var todosDados := loaded.value;
    if |todosDados| == 0 {
      return Success(map[]);
    }
    var pool := new Tagged[|todosDados|](i requires 0 <= i < |todosDados| => todosDados[i]);
    assert pool[..] == todosDados;
    var filtered := FiltrarPorIntervalo(pool, intervaloMinutos, parse);
    if filtered.Failure? {
      return Failure(filtered.error);
    }
    var pushed := PushByStation(filtered.value);
    forall k | k in pushed ensures pushed[k].registros != [] {
      DatedGroup(filtered.value, pushed, k, parse);
    }
    var hist := SortAndDate(pushed, parse);
    GroupsEqual(hist, pushed, filtered.value, parse);
    return Success(hist);
  }

  /** Only the directory of the date's (year, month) is read: the rest of the tree does not matter. */
  lemma {:induction false} OnlyMonthDirectory(intervalHours: int, dateStr: string, tree1: DataTree, tree2: DataTree, parse: string -> Option<int>)
    requires MonthOf(dateStr).Some?
    requires MonthOf(dateStr).value in tree1 <==> MonthOf(dateStr).value in tree2
    requires MonthOf(dateStr).value in tree1 ==> tree1[MonthOf(dateStr).value] == tree2[MonthOf(dateStr).value]
    ensures History(intervalHours, Some(dateStr), tree1, parse) == History(intervalHours, Some(dateStr), tree2, parse)
  {
  }

  /** "YYYY-MM-DD" names the directory (YYYY, MM). */
  lemma {:induction false} MonthOfDate(y: string, m: string, d: string)
    requires '-' !in y && '-' !in m
    ensures MonthOf(y + "-" + m + "-" + d) == Some((y, m))
  {
    assert y + "-" + m + "-" + d == y + ['-'] + (m + ['-'] + d);
    SplitAt(y, '-', m + ['-'] + d);
    SplitAt(m, '-', d);
  }

  /**
   * Each group holds exactly its station's kept readings, formatted; with
   * valid times they are sorted oldest first and the group's date is the
   * date part of its latest reading.
   */
  lemma {:induction false} GroupContents(kept: seq<Tagged>, k: string, parse: string -> Option<int>)
    requires k in KeySet(kept, CodeOf)
    ensures var g := StationGroup(kept, k, parse);
      multiset(g.registros) == multiset(Formatted(KeyFilter(kept, CodeOf, k)))
      && g.registros != [] && g.data == DayOf(g.registros[|g.registros| - 1])
  {
    GroupNonEmpty(kept, k);
  }

  /** Sorting by `new Date(a) - new Date(b)` is sorting by the instants once every instant is valid. */
  lemma {:induction false} OldestFirstNumeric(s: seq<Record>, parse: string -> Option<int>)
    requires forall x :: x in s ==> DateOfField(x.measuredAt, parse).Some?
    ensures SortBy(s, MeasuredKey(parse), OldestFirst) == SortBy(s, MeasuredIntKey(parse), IntLe)
  {
    SortByCongruent(s, MeasuredKey(parse), OldestFirst, MeasuredIntKey(parse), IntLe);
  }

  lemma {:induction false} GroupDated(kept: seq<Tagged>, k: string, parse: string -> Option<int>)
    requires forall i :: 0 <= i < |kept| ==> DateOfField(kept[i].record.measuredAt, parse).Some?
    ensures forall x :: x in Formatted(KeyFilter(kept, CodeOf, k)) ==> DateOfField(x.measuredAt, parse).Some?
  {
    var ts := KeyFilter(kept, CodeOf, k);
    var s := Formatted(ts);
    forall x | x in s ensures DateOfField(x.measuredAt, parse).Some? {
      var j :| 0 <= j < |s| && s[j] == x;
      var i :| 0 <= i < |kept| && kept[i] == ts[j];
    }
  }

  /** With valid times a group is sorted oldest first, and its last reading is its latest. */
  lemma {:induction false} GroupSorted(kept: seq<Tagged>, k: string, parse: string -> Option<int>)
    requires k in KeySet(kept, CodeOf)
    requires forall i :: 0 <= i < |kept| ==> DateOfField(kept[i].record.measuredAt, parse).Some?
    ensures var rs := StationGroup(kept, k, parse).registros;
      (forall i, j :: 0 <= i < j < |rs| ==> MeasuredOr0(rs[i], parse) <= MeasuredOr0(rs[j], parse))
      && forall x :: x in rs ==> MeasuredOr0(x, parse) <= MeasuredOr0(rs[|rs| - 1], parse)
  {
    var s := Formatted(KeyFilter(kept, CodeOf, k));
    GroupDated(kept, k, parse);
    OldestFirstNumeric(s, parse);
    GroupNonEmpty(kept, k);
    NumericOrders();
    SortBySorted(s, MeasuredIntKey(parse), IntLe);
    SortByLast(s, MeasuredIntKey(parse), IntLe);
    var rs := SortBy(s, MeasuredIntKey(parse), IntLe);
    forall x | x in rs ensures x in s {
      assert x in multiset(rs);
    }
  }
}
