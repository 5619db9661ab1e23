/**
 * The data of the vertical bar chart of rainfall per city: the label/value
 * pairs, kept when the value is a positive number and sorted by value from
 * largest to smallest, and the guard in atualizarGraficoDeChuva that skips a
 * render when the data is the same as last time.
 */
module VerticalBarChart {
  import opened Common
  import opened Text
  import opened Seqs
  import opened Sorting
  import Rotas = RotasDadosEstacoes

  /** dataConfig.values[i]: a number (NaN is a number that is not > 0), or anything else, undefined included. */
  datatype Valor = Number(x: real) | NotNumber

  /** One element of dataPairs. */
  datatype Pair = Pair(full: string, shortLabel: string, value: Valor)

  /** `label.split(' ').slice(0, 2).join(' ')`: the first two words. */
  function ShortLabel(text: string): string
  {
    var words := Split(text, ' ');
    Join(if |words| <= 2 then words else words[..2], ' ')
  }

  /** A label of one word is its own short label. */
  lemma {:induction false} ShortLabelOneWord(w: string)
    requires ' ' !in w
    ensures ShortLabel(w) == w
  {
    SplitNone(w, ' ');
  }

  /** A label of two or more words is cut after the second. */
  lemma {:induction false} ShortLabelWords(a: string, b: string, rest: string)
    requires ' ' !in a && ' ' !in b
    ensures ShortLabel(a + " " + b) == a + " " + b
    ensures ShortLabel(a + " " + b + " " + rest) == a + " " + b
  {
    ShortLabelTwo(a, b);
    ShortLabelMore(a, b, rest);
  }

  lemma {:induction false} ShortLabelTwo(a: string, b: string)
    requires ' ' !in a && ' ' !in b
    ensures ShortLabel(a + " " + b) == a + " " + b
  {
    assert a + " " + b == a + [' '] + b;
    SplitAt(a, ' ', b);
    SplitNone(b, ' ');
    assert Split(a + " " + b, ' ') == [a, b];
    assert Join([a, b], ' ') == a + [' '] + b;
  }

  lemma {:induction false} ShortLabelMore(a: string, b: string, rest: string)
    requires ' ' !in a && ' ' !in b
    ensures ShortLabel(a + " " + b + " " + rest) == a + " " + b
  {
    var s := a + " " + b + " " + rest;
    assert s == a + [' '] + (b + [' '] + rest);
    SplitAt(a, ' ', b + [' '] + rest);
    SplitAt(b, ' ', rest);
    var words := Split(s, ' ');
    assert words == [a, b] + Split(rest, ' ');
    assert words[..2] == [a, b];
    assert Join([a, b], ' ') == a + [' '] + b;
  }

  /** The value paired with label i: positional, undefined past the end of values. */
  function ValueAt(values: seq<Valor>, i: nat): Valor
  {
    if i < |values| then values[i] else NotNumber
  }

  /** dataPairs: one pair per label. */
  function Pairs(labels: seq<string>, values: seq<Valor>): (ps: seq<Pair>)
    ensures |ps| == |labels|
    ensures forall i :: 0 <= i < |labels| ==> ps[i] == Pair(labels[i], ShortLabel(labels[i]), ValueAt(values, i))
  {
    seq(|labels|, i requires 0 <= i < |labels| => Pair(labels[i], ShortLabel(labels[i]), ValueAt(values, i)))
  }

  /** `typeof pair.value === 'number' && pair.value > 0` */
  predicate Valid(p: Pair)
  {
    p.value.Number? && p.value.x > 0.0
  }

  function Amount(p: Pair): real
  {
    if p.value.Number? then p.value.x else 0.0
  }

  /** validPairs after its sort by `b.value - a.value`: the largest value first, ties in input order. */
  function ValidSorted(labels: seq<string>, values: seq<Valor>): (r: seq<Pair>)
    ensures forall k :: 0 <= k < |r| ==> Valid(r[k]) && r[k] in Pairs(labels, values)
    ensures multiset(r) == multiset(Filter(Pairs(labels, values), Valid))
  {
    var kept := Filter(Pairs(labels, values), Valid);
    var r := SortBy(kept, Amount, RealGe);
    forall k | 0 <= k < |r| ensures Valid(r[k]) && r[k] in Pairs(labels, values) {
      assert r[k] in multiset(kept);
    }
    r
  }

  /** Every pair carries the short form of its own label. */
  lemma {:induction false} PairsShortLabel(labels: seq<string>, values: seq<Valor>)
    ensures forall p :: p in Pairs(labels, values) ==> p.shortLabel == ShortLabel(p.full)
  {
    var ps := Pairs(labels, values);
    forall p | p in ps ensures p.shortLabel == ShortLabel(p.full) {
      var i :| 0 <= i < |ps| && ps[i] == p;
    }
  }

  /** sortedLabels, fullLabels and sortedValues. */
  datatype Barras = Barras(sortedLabels: seq<string>, fullLabels: seq<string>, sortedValues: seq<real>)

  /** The three arrays the chart is built from, read off the sorted pairs. */
  function Preparar(labels: seq<string>, values: seq<Valor>): (b: Barras)
    ensures |b.sortedLabels| == |b.fullLabels| == |b.sortedValues| == |ValidSorted(labels, values)|
    ensures forall k :: 0 <= k < |b.fullLabels| ==>
      b.sortedValues[k] > 0.0 && b.sortedLabels[k] == ShortLabel(b.fullLabels[k])
  {
    PairsShortLabel(labels, values);
    var r := ValidSorted(labels, values);
    Barras(seq(|r|, k requires 0 <= k < |r| => r[k].shortLabel),
           seq(|r|, k requires 0 <= k < |r| => r[k].full),
           seq(|r|, k requires 0 <= k < |r| => Amount(r[k])))
  }

  /** Every bar is some label of the input with its own value. */
  lemma {:induction false} PrepararFromInput(labels: seq<string>, values: seq<Valor>, k: nat)
    requires k < |Preparar(labels, values).fullLabels|
    ensures var b := Preparar(labels, values);
      exists i :: 0 <= i < |labels| && labels[i] == b.fullLabels[k] && ValueAt(values, i) == Number(b.sortedValues[k])
  {
    var r := ValidSorted(labels, values);
    var ps := Pairs(labels, values);
    assert r[k] in ps;
    var i :| 0 <= i < |ps| && ps[i] == r[k];
    var b := Preparar(labels, values);
    assert labels[i] == b.fullLabels[k];
  }

  /** The values come out from largest to smallest. */
  lemma {:induction false} PrepararDescending(labels: seq<string>, values: seq<Valor>)
    ensures var v := Preparar(labels, values).sortedValues;
      forall k, m :: 0 <= k < m < |v| ==> v[k] >= v[m]
  {
    NumericOrders();
    SortBySorted(Filter(Pairs(labels, values), Valid), Amount, RealGe);
  }

  /** Every label whose value is a positive number gets its bar, with that value. */
  lemma {:induction false} PrepararKeepsPositive(labels: seq<string>, values: seq<Valor>, i: nat)
    requires i < |labels| && ValueAt(values, i).Number? && ValueAt(values, i).x > 0.0
    ensures var b := Preparar(labels, values);
      exists k :: 0 <= k < |b.fullLabels| && b.fullLabels[k] == labels[i] && b.sortedValues[k] == ValueAt(values, i).x
  {
    var ps := Pairs(labels, values);
    var r := ValidSorted(labels, values);
    assert Valid(ps[i]);
    assert ps[i] in Filter(ps, Valid);
    assert ps[i] in multiset(r);
    var k :| 0 <= k < |r| && r[k] == ps[i];
    var b := Preparar(labels, values);
    assert b.fullLabels[k] == labels[i] && b.sortedValues[k] == ValueAt(values, i).x;
  }

  /** The bars are exactly the pairs with a positive number, each as often as it occurs. */
  lemma {:induction false} PrepararCount(labels: seq<string>, values: seq<Valor>)
    ensures |Preparar(labels, values).sortedValues| == |Filter(Pairs(labels, values), Valid)|
  {
    var r := ValidSorted(labels, values);
    assert |multiset(r)| == |multiset(Filter(Pairs(labels, values), Valid))|;
  }

  /** The {labels, values} the chart of cities is built from. */
  datatype Dataset = Dataset(labels: seq<string>, values: seq<real>)

  /** labels are the cities' names, values their medians. */
  function DatasetOf(cidades: seq<Rotas.Cidade>): (d: Dataset)
    ensures |d.labels| == |d.values| == |cidades|
    ensures forall i :: 0 <= i < |cidades| ==> d.labels[i] == cidades[i].cidade && d.values[i] == cidades[i].chuvaMediana
  {
    Dataset(seq(|cidades|, i requires 0 <= i < |cidades| => cidades[i].cidade),
            seq(|cidades|, i requires 0 <= i < |cidades| => cidades[i].chuvaMediana))
  }

  function Numbers(xs: seq<real>): (vs: seq<Valor>)
    ensures |vs| == |xs| && forall i :: 0 <= i < |xs| ==> vs[i] == Number(xs[i])
  {
    seq(|xs|, i requires 0 <= i < |xs| => Number(xs[i]))
  }

  /** ultimoDataset and the data of chartInstance. */
  datatype Painel = Painel(ultimoDataset: Option<Dataset>, chart: Option<Barras>)

  /**
   * One call of atualizarGraficoDeChuva with the response it gets (None for
   * a failed request or a non-ok status, which the catch swallows): whether
   * it renders, and the new state.
   */
  function Atualiza(p: Painel, resposta: Option<seq<Rotas.Cidade>>): (bool, Painel)
  {
    if resposta.None? then (false, p)
    else
      var d := DatasetOf(resposta.value);
      if p.ultimoDataset == Some(d) then (false, p)
      else (true, Painel(Some(d), Some(Preparar(d.labels, Numbers(d.values)))))
  }

  /** A render happens exactly when the new data differs from the last rendered, and it shows the new data. */
  lemma {:induction false} AtualizaRenders(p: Painel, resposta: Option<seq<Rotas.Cidade>>)
    ensures var (rendered, q) := Atualiza(p, resposta);
      (rendered <==> resposta.Some? && p.ultimoDataset != Some(DatasetOf(resposta.value)))
      && (rendered ==> q.chart == Some(Preparar(DatasetOf(resposta.value).labels, Numbers(DatasetOf(resposta.value).values))))
      && (!rendered ==> q == p)
  {
  }

  /** The same cities twice in a row: the second call does nothing. */
  lemma {:induction false} AtualizaRepeat(p: Painel, cidades: seq<Rotas.Cidade>)
    ensures var q := Atualiza(p, Some(cidades)).1;
      Atualiza(q, Some(cidades)) == (false, q)
  {
  }

  /** The module-level ultimoDataset and chartInstance. */
  class GraficoChuva {
    var ultimoDataset: Option<Dataset>
    var chart: Option<Barras>

    constructor()
      ensures ultimoDataset == None && chart == None
    {
      ultimoDataset := None;
      chart := None;
    }

    function State(): Painel
      reads this
    {
      Painel(ultimoDataset, chart)
    }

    /** atualizarGraficoDeChuva, given what the request returns. */
    method AtualizarGraficoDeChuva(resposta: Option<seq<Rotas.Cidade>>) returns (rendered: bool)
      modifies this
      ensures (rendered, State()) == Atualiza(old(State()), resposta)
    {
      if resposta.None? {
        return false;
      }
      var novoDataset := DatasetOf(resposta.value);
      if ultimoDataset == Some(novoDataset) {
        return false;
      }
      ultimoDataset := Some(novoDataset);
      chart := None;
      chart := Some(Preparar(novoDataset.labels, Numbers(novoDataset.values)));
      rendered := true;
    }
  }
}
