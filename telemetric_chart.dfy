/**
 * The data behind the station telemetry charts: readings sorted oldest
 * first with their labels and bar values, the running rainfall total, the
 * y-axis ceiling of the rain chart, and the stateful x-axis label formatter.
 * `new Date(x.Data_Hora_Medicao.replace(' ', 'T'))` is the parameter parse
 * applied to the replaced text.
 */
module TelemetricChart {
  import opened Common
  import opened Text
  import opened Seqs
  import opened Sorting
  import opened Records

  /** What the chart code throws: `.replace` or `.split` on a missing value. */
  datatype Erro = TypeError

  /** The key of the sort by `new Date(x.Data_Hora_Medicao.replace(' ', 'T'))`; a null time gives no instant. */
  function ChartKey(parse: string -> Option<int>): Record -> Option<int>
  {
    (r: Record) => if r.measuredAt.Some? then parse(ReplaceFirst(r.measuredAt.value, ' ', 'T')) else None
  }

  /** `Math.max(...values.filter(v => v !== null), 0)` */
  function MaxOr0(vs: seq<Option<real>>): (m: real)
    ensures m >= 0.0
    ensures forall i :: 0 <= i < |vs| && vs[i].Some? ==> vs[i].value <= m
    ensures m == 0.0 || exists i :: 0 <= i < |vs| && vs[i] == Some(m)
  {
    if vs == [] then 0.0
    else
      var m0 := MaxOr0(vs[..|vs| - 1]);
      var last := vs[|vs| - 1];
      if last.Some? && last.value > m0 then last.value else m0
  }

  /** `Math.max(...values, 0)` over plain numbers. */
  function MaxReal0(xs: seq<real>): (m: real)
    ensures m >= 0.0
    ensures forall i :: 0 <= i < |xs| ==> xs[i] <= m
    ensures m == 0.0 || exists i :: 0 <= i < |xs| && xs[i] == m
  {
    if xs == [] then 0.0
    else
      var m0 := MaxReal0(xs[..|xs| - 1]);
      if xs[|xs| - 1] > m0 then xs[|xs| - 1] else m0
  }

  /** The labels (Data_Hora_Medicao), the bar values and their maximum. */
  datatype Prepared = Prepared(labels: seq<Option<string>>, dataValues: seq<Option<real>>, maxValue: real)

  /** Some pair of readings has a null time, so the comparator is called on it and `.replace` throws. */
  predicate SortThrows(registros: seq<Record>)
  {
    |registros| >= 2 && exists i :: 0 <= i < |registros| && registros[i].measuredAt.None?
  }

  /** The copy `[...registros]` sorted by the comparator `dateA - dateB`. */
  function SortedCopy(registros: seq<Record>, parse: string -> Option<int>): seq<Record>
  {
    SortBy(registros, ChartKey(parse), OldestFirst)
  }

  /** sortAndPrepareData(registros, fieldName): field reads item[fieldName]. */
  function SortAndPrepareData(registros: seq<Record>, field: Record -> Datum, parse: string -> Option<int>): (r: Result<Prepared, Erro>)
    ensures r.Failure? <==> SortThrows(registros)
    ensures r.Success? ==>
      var sorted := SortedCopy(registros, parse);
      |r.value.labels| == |r.value.dataValues| == |registros|
      && (forall i :: 0 <= i < |registros| ==>
            r.value.labels[i] == sorted[i].measuredAt && r.value.dataValues[i] == NumberOrNull(field(sorted[i])))
      && r.value.maxValue >= 0.0
      && (forall i :: 0 <= i < |registros| && r.value.dataValues[i].Some? ==> r.value.dataValues[i].value <= r.value.maxValue)
      && (r.value.maxValue == 0.0 || exists i :: 0 <= i < |registros| && r.value.dataValues[i] == Some(r.value.maxValue))
  {
    if SortThrows(registros) then Failure(TypeError)
    else
      var sorted := SortedCopy(registros, parse);
      var values := seq(|sorted|, i requires 0 <= i < |sorted| => NumberOrNull(field(sorted[i])));
      Success(Prepared(seq(|sorted|, i requires 0 <= i < |sorted| => sorted[i].measuredAt), values, MaxOr0(values)))
  }

  /** Every reading's time is present and is a valid Date. */
  predicate AllTimed(s: seq<Record>, parse: string -> Option<int>)
  {
    forall i :: 0 <= i < |s| ==> ChartKey(parse)(s[i]).Some?
  }

  function KeyOr0(parse: string -> Option<int>): Record -> int
  {
    (r: Record) => var k := ChartKey(parse)(r); if k.Some? then k.value else 0
  }

  /**
   * With valid times the sorted copy holds the same readings, ordered
   * oldest first.
   */
  lemma {:induction false} PreparedOldestFirst(registros: seq<Record>, field: Record -> Datum, parse: string -> Option<int>)
    requires AllTimed(registros, parse)
    ensures var sorted := SortedCopy(registros, parse);
      multiset(sorted) == multiset(registros)
      && (forall i, j :: 0 <= i < j < |sorted| ==> KeyOr0(parse)(sorted[i]) <= KeyOr0(parse)(sorted[j]))
  {
    forall a, b | a in registros && b in registros
      ensures OldestFirst(ChartKey(parse)(a), ChartKey(parse)(b)) == IntLe(KeyOr0(parse)(a), KeyOr0(parse)(b))
    {
      var i :| 0 <= i < |registros| && registros[i] == a;
      var j :| 0 <= j < |registros| && registros[j] == b;
    }
    SortByCongruent(registros, ChartKey(parse), OldestFirst, KeyOr0(parse), IntLe);
    NumericOrders();
    SortBySorted(registros, KeyOr0(parse), IntLe);
  }

  /** The sum of the non-null values. */
  function Acumulado(vs: seq<Option<real>>): real
  {
    if vs == [] then 0.0 else Acumulado(vs[..|vs| - 1]) + (if vs[|vs| - 1].Some? then vs[|vs| - 1].value else 0.0)
  }

  function Present(v: Option<real>): Option<real> { v }

  /** The running total is the plain sum of the values that are not null. */
  lemma {:induction false} AcumuladoSum(vs: seq<Option<real>>)
    ensures Acumulado(vs) == Sum(FilterMap(vs, Present))
    decreases |vs|
  {
    if vs != [] {
      var init, x := vs[..|vs| - 1], vs[|vs| - 1];
      AcumuladoSum(init);
      if x.Some? {
        SumAppend(FilterMap(init, Present), [x.value]);
      } else {
        assert FilterMap(vs, Present) == FilterMap(init, Present);
      }
    }
  }

  /** getCumulativeData: element i is the running total up to and including index i. */
  method GetCumulativeData(values: seq<Option<real>>) returns (out: seq<real>)
    ensures |out| == |values|
    ensures forall i :: 0 <= i < |values| ==> out[i] == Acumulado(values[..i + 1])
  {
    var sum := 0.0;
    out := [];
    var i := 0;
    while i < |values|
      invariant 0 <= i <= |values|
      invariant |out| == i
      invariant sum == Acumulado(values[..i])
      invariant forall j :: 0 <= j < i ==> out[j] == Acumulado(values[..j + 1])
    {
      assert values[..i + 1][..i] == values[..i];
      if values[i].Some? {
        sum := sum + values[i].value;
      }
      out := out + [sum];
      i := i + 1;
    }
  }

  /** The running totals as a sequence: what getCumulativeData returns. */
  function Cumulative(values: seq<Option<real>>): (c: seq<real>)
    ensures |c| == |values|
  {
    seq(|values|, i requires 0 <= i < |values| => Acumulado(values[..i + 1]))
  }

  /** A null keeps the previous total; a value adds to it. */
  lemma {:induction false} CumulativeStep(values: seq<Option<real>>, i: nat)
    requires 0 < i < |values|
    ensures Cumulative(values)[i] == Cumulative(values)[i - 1] + (if values[i].Some? then values[i].value else 0.0)
  {
    assert values[..i + 1][..i] == values[..i];
  }

  /** With no negative value the running total never decreases. */
  lemma {:induction false} CumulativeGrows(values: seq<Option<real>>, i: nat, j: nat)
    requires i <= j < |values|
    requires forall k :: 0 <= k < |values| && values[k].Some? ==> values[k].value >= 0.0
    ensures Cumulative(values)[i] <= Cumulative(values)[j]
    decreases j - i
  {
    if i < j {
      CumulativeGrows(values, i, j - 1);
      CumulativeStep(values, j);
    }
  }

  /** The rain chart's y ceiling: `Math.max(maxBar, maxLine)`. */
  function CeilingY(values: seq<Option<real>>): real
  {
    var maxBar, maxLine := MaxOr0(values), MaxReal0(Cumulative(values));
    if maxBar >= maxLine then maxBar else maxLine
  }

  /** The ceiling is above every bar and every point of the running total, and is 0, a bar or a point. */
  lemma {:induction false} CeilingAbove(values: seq<Option<real>>)
    ensures CeilingY(values) >= 0.0
    ensures forall i :: 0 <= i < |values| && values[i].Some? ==> values[i].value <= CeilingY(values)
    ensures forall i :: 0 <= i < |values| ==> Cumulative(values)[i] <= CeilingY(values)
    ensures CeilingY(values) == 0.0
      || (exists i :: 0 <= i < |values| && values[i] == Some(CeilingY(values)))
      || (exists i :: 0 <= i < |values| && Cumulative(values)[i] == CeilingY(values))
  {
  }

  /** With no negative reading each bar stays under the running total at its index. */
  lemma {:induction false} BarBelowTotal(values: seq<Option<real>>, i: nat)
    requires i < |values| && values[i].Some?
    requires forall k :: 0 <= k < |values| && values[k].Some? ==> values[k].value >= 0.0
    ensures values[i].value <= Cumulative(values)[i]
  {
    if i > 0 {
      CumulativeStep(values, i);
      AcumuladoNonNegative(values[..i], values);
    } else {
      assert values[..1][..0] == [];
      assert Cumulative(values)[0] == Acumulado(values[..1]);
      assert values[..1][0] == values[0];
    }
  }

  /** With no negative reading the ceiling is the final total, which every bar stays under. */
  lemma {:induction false} CeilingIsTotal(values: seq<Option<real>>)
    requires values != []
    requires forall k :: 0 <= k < |values| && values[k].Some? ==> values[k].value >= 0.0
    ensures CeilingY(values) == Acumulado(values)
  {
    var n := |values|;
    var c := Cumulative(values);
    assert c[n - 1] == Acumulado(values) by {
      assert values[..n] == values;
    }
    assert c[n - 1] >= 0.0 by {
      AcumuladoNonNegative(values, values);
    }
    forall i | 0 <= i < n ensures c[i] <= c[n - 1] {
      CumulativeGrows(values, i, n - 1);
    }
    assert MaxReal0(c) == c[n - 1];
    forall i | 0 <= i < n && values[i].Some? ensures values[i].value <= c[n - 1] {
      BarBelowTotal(values, i);
    }
  }

  lemma {:induction false} AcumuladoNonNegative(vs: seq<Option<real>>, all: seq<Option<real>>)
    requires forall v :: v in vs ==> v in all
    requires forall k :: 0 <= k < |all| && all[k].Some? ==> all[k].value >= 0.0
    ensures Acumulado(vs) >= 0.0
    decreases |vs|
  {
    if vs != [] {
      var x := vs[|vs| - 1];
      assert x in all;
      AcumuladoNonNegative(vs[..|vs| - 1], all);
    }
  }

  /** What renderChuvaChart feeds the chart: labels, bars, the running total and the y ceiling. */
  datatype ChuvaData = ChuvaData(labels: seq<Option<string>>, dataValues: seq<Option<real>>, cumulative: seq<real>, maxValue: real)

  /** renderChuvaChart's preparation of Chuva_Adotada: the same sort and bars, then the running total. */
  function ChuvaChart(registros: seq<Record>, parse: string -> Option<int>): (r: Result<ChuvaData, Erro>)
    ensures r.Failure? <==> SortThrows(registros)
    ensures r.Success? ==>
      var p := SortAndPrepareData(registros, (x: Record) => x.rain, parse).value;
      r.value.labels == p.labels && r.value.dataValues == p.dataValues
      && r.value.cumulative == Cumulative(p.dataValues)
      && (forall i :: 0 <= i < |registros| ==> r.value.cumulative[i] <= r.value.maxValue)
      && (forall i :: 0 <= i < |registros| && p.dataValues[i].Some? ==> p.dataValues[i].value <= r.value.maxValue)
      && r.value.maxValue >= 0.0
      && (r.value.maxValue == 0.0
          || (exists i :: 0 <= i < |registros| && p.dataValues[i] == Some(r.value.maxValue))
          || (exists i :: 0 <= i < |registros| && r.value.cumulative[i] == r.value.maxValue))
  {
    match SortAndPrepareData(registros, (x: Record) => x.rain, parse)
    case Failure(e) => Failure(e)
    case Success(p) =>
      CeilingAbove(p.dataValues);
      Success(ChuvaData(p.labels, p.dataValues, Cumulative(p.dataValues), CeilingY(p.dataValues)))
  }

  /** `${x}` of an array element that may be missing. */
  function Part(xs: seq<string>, i: nat): string
  {
    if i < |xs| then xs[i] else "undefined"
  }

  /**
   * One call of the closure createLabelFormatter returns, given previousDay:
   * the tick text and the new previousDay. A null tick, or one with no
   * space (timePart undefined), throws and leaves previousDay as it was.
   */
  function FormatLabel(previousDay: Option<string>, tick: Option<string>, index: int): (Result<string, Erro>, Option<string>)
  {
    if tick.None? then (Failure(TypeError), previousDay)
    else
      var parts := Split(tick.value, ' ');
      if |parts| < 2 then (Failure(TypeError), previousDay)
      else
        var date, time := Split(parts[0], '-'), Split(parts[1], ':');
        var hourFormatted := Part(time, 0) + ":" + Part(time, 1);
        if index == 0 || Some(parts[0]) != previousDay then
          (Success(Part(date, 2) + "/" + Part(date, 1) + " " + hourFormatted), Some(parts[0]))
        else (Success(hourFormatted), previousDay)
  }

  /** The date part of a tick: the text before its first space. */
  function DatePart(tick: string): string
  {
    Split(tick, ' ')[0]
  }

  /** A tick the formatter accepts: present and holding a space. */
  predicate Formattable(tick: Option<string>)
  {
    tick.Some? && ' ' in tick.value
  }

  /**
   * The formatter throws exactly on a tick that is null or has no space;
   * otherwise it remembers the tick's date part, and the day is shown
   * exactly on the first tick and whenever the date part changes.
   */
  lemma {:induction false} FormatLabelOutcome(previousDay: Option<string>, tick: Option<string>, index: int)
    ensures var (r, now) := FormatLabel(previousDay, tick, index);
      (r.Failure? <==> !Formattable(tick))
      && (r.Failure? ==> now == previousDay)
      && (r.Success? ==> now == Some(DatePart(tick.value)))
  {
    if tick.Some? {
      SplitMany(tick.value, ' ');
    }
  }

  /** The "hh:mm" form of a tick: the first two pieces of its time part. */
  function ShortForm(tick: string): string
  {
    var time := Split(Part(Split(tick, ' '), 1), ':');
    Part(time, 0) + ":" + Part(time, 1)
  }

  /** The long form is used exactly on the first tick or a new day. */
  lemma {:induction false} FormatLabelLong(previousDay: Option<string>, tick: string, index: int)
    requires ' ' in tick
    ensures var (r, _) := FormatLabel(previousDay, Some(tick), index);
      r.Success? && (r.value == ShortForm(tick) <==> !(index == 0 || Some(DatePart(tick)) != previousDay))
  {
    SplitMany(tick, ' ');
    var parts := Split(tick, ' ');
    var short := ShortForm(tick);
    if index == 0 || Some(DatePart(tick)) != previousDay {
      var long := Part(Split(parts[0], '-'), 2) + "/" + Part(Split(parts[0], '-'), 1) + " " + short;
      assert |long| > |short|;
    }
  }

  /** After a tick of some day, a later tick shows the day again exactly when its own day differs. */
  lemma {:induction false} FormatLabelConsecutive(previousDay: Option<string>, a: string, b: string, i: int, j: int)
    requires ' ' in a && ' ' in b && j != 0
    ensures var (_, day) := FormatLabel(previousDay, Some(a), i);
      var (r, _) := FormatLabel(day, Some(b), j);
      r.Success? && (r.value == ShortForm(b) <==> DatePart(a) == DatePart(b))
  {
    FormatLabelOutcome(previousDay, Some(a), i);
    var day := FormatLabel(previousDay, Some(a), i).1;
    FormatLabelLong(day, b, j);
  }

  /** Three separator-free pieces joined by the separator split back into themselves. */
  lemma {:induction false} SplitThree(a: string, b: string, c: string, sep: char)
    requires sep !in a && sep !in b && sep !in c
    ensures Split(a + [sep] + b + [sep] + c, sep) == [a, b, c]
  {
    assert a + [sep] + b + [sep] + c == a + [sep] + (b + [sep] + c);
    SplitAt(a, sep, b + [sep] + c);
    SplitAt(b, sep, c);
    SplitNone(c, sep);
  }

  /** A "YYYY-MM-DD HH:MM:SS" tick reads "DD/MM HH:MM" on a new day and "HH:MM" otherwise. */
  lemma {:induction false} FormatLabelShape(previousDay: Option<string>, y: string, mo: string, d: string, h: string, mi: string, sec: string, index: int)
    requires ' ' !in y + mo + d + h + mi + sec
    requires '-' !in y + mo + d && ':' !in h + mi + sec
    ensures var date := y + "-" + mo + "-" + d;
      var (r, now) := FormatLabel(previousDay, Some(date + " " + h + ":" + mi + ":" + sec), index);
      r == Success(if index == 0 || Some(date) != previousDay then d + "/" + mo + " " + h + ":" + mi else h + ":" + mi)
      && now == (if index == 0 || Some(date) != previousDay then Some(date) else previousDay)
  {
    var date := y + "-" + mo + "-" + d;
    var time := h + ":" + mi + ":" + sec;
    assert ' ' !in y && ' ' !in mo && ' ' !in d && ' ' !in h && ' ' !in mi && ' ' !in sec;
    assert '-' !in y && '-' !in mo && '-' !in d;
    assert ':' !in h && ':' !in mi && ':' !in sec;
    assert Split(date, '-') == [y, mo, d] by {
      SplitThree(y, mo, d, '-');
    }
    assert Split(time, ':') == [h, mi, sec] by {
      SplitThree(h, mi, sec, ':');
    }
    assert ' ' !in date && ' ' !in time;
    assert Split(date + " " + h + ":" + mi + ":" + sec, ' ') == [date, time] by {
      assert date + " " + h + ":" + mi + ":" + sec == date + [' '] + time;
      SplitAt(date, ' ', time);
      SplitNone(time, ' ');
    }
    assert Part(Split(date, '-'), 2) == d && Part(Split(date, '-'), 1) == mo;
    assert Part(Split(time, ':'), 0) == h && Part(Split(time, ':'), 1) == mi;
    var full := date + " " + h + ":" + mi + ":" + sec;
    var parts := Split(full, ' ');
    assert parts[0] == date && parts[1] == time;
    var out := FormatLabel(previousDay, Some(full), index);
    if index == 0 || Some(date) != previousDay {
      assert out == (Success(d + "/" + mo + " " + (h + ":" + mi)), Some(date));
      assert d + "/" + mo + " " + (h + ":" + mi) == d + "/" + mo + " " + h + ":" + mi;
    } else {
      assert out == (Success(h + ":" + mi), previousDay);
    }
  }

  /** The formatter createLabelFormatter returns, with its closure's previousDay as a field. */
  class LabelFormatter {
    var previousDay: Option<string>

    constructor()
      ensures previousDay == None
    {
      previousDay := None;
    }

    /** formatLabel(originalLabel, index) */
    method Format(tick: Option<string>, index: int) returns (r: Result<string, Erro>)
      modifies this
      ensures (r, previousDay) == FormatLabel(old(previousDay), tick, index)
    {
      if tick.None? {
        return Failure(TypeError);
      }
      var parts := Split(tick.value, ' ');
      if |parts| < 2 {
        return Failure(TypeError);
      }
      var datePart, timePart := parts[0], parts[1];
      var date, time := Split(datePart, '-'), Split(timePart, ':');
      var hourFormatted := Part(time, 0) + ":" + Part(time, 1);
      var dayFormatted := Part(date, 2) + "/" + Part(date, 1);
      if index == 0 || Some(datePart) != previousDay {
        previousDay := Some(datePart);
        return Success(dayFormatted + " " + hourFormatted);
      }
      r := Success(hourFormatted);
    }
  }
}
