/**
 * The station-data HTTP routes: the /historico interval check and station
 * lookup, the /chuvaPorCidade grouping with per-city mean and median, and
 * the /categorizadas remap of every grouping to station code and name.
 * The merged station list (mergeStationData) and the loaded history
 * (getHistoricalStationData) are inputs; an exception anywhere is the 500
 * response.
 */
module RotasDadosEstacoes {
  import opened Common
  import opened Text
  import opened Seqs
  import opened Stats
  import opened Records
  import Cat = CategorizacaoEstacoes
  import History = HistoricalStationData

  /** An HTTP answer: 200 with a body, 400, 404 or 500. */
  datatype Response<T> = Ok(body: T) | BadRequest | NotFound | ServerError

  // GET /estacoes/historico/:dateStr/:intervaloh/:stationCode?

  /** The accepted interval lengths in hours; JavaScript's includes compares the number. */
  predicate Accepted(v: Option<real>)
  {
    v.Some? && v.value in {2.0, 6.0, 12.0, 24.0, 48.0}
  }

  /**
   * `Number(intervaloh.replace('h', ''))`, where `number` is JavaScript's
   * Number on strings (None for NaN).
   */
  function IntervalValue(intervaloh: string, number: string -> Option<real>): Option<real>
  {
    number(RemoveFirst(intervaloh, 'h'))
  }

  /** Number reads a string of decimal digits as its value. */
  ghost predicate DecimalNumbers(number: string -> Option<real>)
  {
    forall s :: AllDigits(s) && s != [] ==> number(s) == Some(DigitsValue(s) as real)
  }

  /** The route's body: one station's group, or every group. */
  datatype HistoricoBody = StationHistory(group: History.Group) | AllHistory(groups: map<string, History.Group>)

  /**
   * The /historico handler. `load` is getHistoricalStationData for the
   * route's date, called only once the interval is accepted; a load that
   * throws is a 500. A present, non-empty stationCode selects that
   * station's group (hasOwnProperty), or 404.
   */
  function Historico(intervaloh: string, stationCode: Option<string>, number: string -> Option<real>,
                     load: int -> Result<map<string, History.Group>, History.Error>): (r: Response<HistoricoBody>)
    ensures r.BadRequest? <==> !Accepted(IntervalValue(intervaloh, number))
    ensures r.Ok? && r.body.StationHistory? ==> stationCode.Some? && stationCode.value != ""
  {
    var v := IntervalValue(intervaloh, number);
    if !Accepted(v) then BadRequest
    else match load(v.value.Floor)
      case Failure(_) => ServerError
      case Success(data) =>
        if stationCode.Some? && stationCode.value != "" then
          if stationCode.value in data then Ok(StationHistory(data[stationCode.value])) else NotFound
        else Ok(AllHistory(data))
  }

  /** A rejected interval answers 400 whatever the history would have been: nothing is loaded. */
  lemma {:induction false} RejectedBeforeLoading(intervaloh: string, stationCode: Option<string>, number: string -> Option<real>,
                              load1: int -> Result<map<string, History.Group>, History.Error>,
                              load2: int -> Result<map<string, History.Group>, History.Error>)
    requires !Accepted(IntervalValue(intervaloh, number))
    ensures Historico(intervaloh, stationCode, number, load1) == Historico(intervaloh, stationCode, number, load2) == BadRequest
  {
  }

  /**
   * A token of decimal digits with an 'h' anywhere in it ("24h", "h24") is
   * accepted iff the digits name 2, 6, 12, 24 or 48 hours; only the first
   * 'h' is removed, so "24hh" is NaN and rejected.
   */
  lemma {:induction false} IntervalTokens(p: string, q: string, number: string -> Option<real>)
    requires DecimalNumbers(number) && 'h' !in p && AllDigits(p + q) && p + q != []
    ensures Accepted(IntervalValue(p + "h" + q, number)) <==> DigitsValue(p + q) in {2, 6, 12, 24, 48}
    ensures IntervalValue(p + "h" + q, number) == Some(DigitsValue(p + q) as real)
  {
    RemoveFirstAt(p, 'h', q);
    var n := DigitsValue(p + q);
    assert n as real in {2.0, 6.0, 12.0, 24.0, 48.0} <==> n in {2, 6, 12, 24, 48};
  }

  /**
   * With an accepted interval and a loaded history, a station code yields
   * exactly that station's group when it has one and 404 otherwise; without
   * a code the whole history is the answer. The history is loaded for the
   * interval's whole number of hours.
   */
  lemma {:induction false} HistoricoLookup(intervaloh: string, stationCode: Option<string>, number: string -> Option<real>,
                        load: int -> Result<map<string, History.Group>, History.Error>)
    requires Accepted(IntervalValue(intervaloh, number))
    ensures var v := IntervalValue(intervaloh, number).value;
      var r := Historico(intervaloh, stationCode, number, load);
      v.Floor in {2, 6, 12, 24, 48} && v == v.Floor as real
      && (load(v.Floor).Failure? <==> r == ServerError)
      && (load(v.Floor).Success? && stationCode.Some? && stationCode.value != "" ==>
            (r == NotFound <==> stationCode.value !in load(v.Floor).value)
            && (r.Ok? ==> r.body == StationHistory(load(v.Floor).value[stationCode.value])))
      && (load(v.Floor).Success? && (stationCode.None? || stationCode.value == "") ==>
            r == Ok(AllHistory(load(v.Floor).value)))
  {
  }

  // GET /estacoes/chuvaPorCidade

  /**
   * A station as the route sees it after `categorizeStation`: its
   * Municipio_Nome, code, name and `Number(cat.chuvaAcumulada)` unless
   * that is NaN (None).
   */
  datatype Avaliada = Avaliada(municipio: Option<string>, codigoestacao: string, nome: string, chuva: Option<real>)

  /**
   * `Number(cat.chuvaAcumulada)` kept unless NaN. The category's total is a
   * number or null, and Number(null) is 0, so a station without rainfall
   * data counts as 0 mm and nothing is ever dropped.
   */
  function ChuvaValue(accumulated: Option<real>): (r: Option<real>)
    ensures r.Some?
    ensures accumulated.None? ==> r.value == 0.0
    ensures accumulated.Some? ==> r.value == accumulated.value
  {
    Some(if accumulated.Some? then accumulated.value else 0.0)
  }

  function AvaliadaOf(station: Station, now: int, parse: string -> Option<int>): Avaliada
  {
    Avaliada(station.city, station.code, station.name, ChuvaValue(Cat.CategorizeStation(station, now, parse).accumulated))
  }

  /** `mergedStations.map(...)`: every station with its rainfall value. */
  function Avaliadas(stations: seq<Station>, now: int, parse: string -> Option<int>): seq<Avaliada>
  {
    seq(|stations|, i requires 0 <= i < |stations| => AvaliadaOf(stations[i], now, parse))
  }

  /** `Municipio_Nome ? Municipio_Nome.trim().toUpperCase() : 'DESCONHECIDO'` */
  function CidadeKey(municipio: Option<string>): string
  {
    if municipio.Some? && municipio.value != "" then ToUpper(TrimJs(municipio.value)) else "DESCONHECIDO"
  }

  /** One station of a city in the answer. */
  datatype EstacaoChuva = EstacaoChuva(codigoestacao: string, nome: string, chuvaAcumulada: real)

  /** A station that counts, with its city. */
  datatype Entry = Entry(cidade: string, estacao: EstacaoChuva)

  function CidadeOf(e: Entry): string { e.cidade }

  /** The stations whose value is not null, in input order. */
  function Entries(rated: seq<Avaliada>): (es: seq<Entry>)
    ensures |es| <= |rated|
  {
    if rated == [] then []
    else
      var a := rated[|rated| - 1];
      Entries(rated[..|rated| - 1])
        + (if a.chuva.Some? then [Entry(CidadeKey(a.municipio), EstacaoChuva(a.codigoestacao, a.nome, a.chuva.value))] else [])
  }

  /** The rainfall values of some entries, in order. */
  function Values(g: seq<Entry>): (vs: seq<real>)
    ensures |vs| == |g|
  {
    if g == [] then [] else Values(g[..|g| - 1]) + [g[|g| - 1].estacao.chuvaAcumulada]
  }

  /** The station parts of some entries, in order. */
  function Estacoes(g: seq<Entry>): (ss: seq<EstacaoChuva>)
    ensures |ss| == |g|
  {
    if g == [] then [] else Estacoes(g[..|g| - 1]) + [g[|g| - 1].estacao]
  }

  /** Values and Estacoes read the entries position by position. */
  lemma {:induction false} ValuesEstacoes(g: seq<Entry>)
    ensures forall i :: 0 <= i < |g| ==> Values(g)[i] == g[i].estacao.chuvaAcumulada && Estacoes(g)[i] == g[i].estacao
    decreases |g|
  {
    if g != [] {
      ValuesEstacoes(g[..|g| - 1]);
    }
  }

  /** One city of the answer, after the intermediate fields are deleted. */
  datatype Cidade = Cidade(cidade: string, estacoes: seq<EstacaoChuva>, chuvaMedia: real, chuvaMediana: real)

  /** What the answer says about city c: its stations in input order, their mean and their median. */
  function Resumo(es: seq<Entry>, c: string): Cidade
  {
    var g := KeyFilter(es, CidadeOf, c);
    Cidade(c, Estacoes(g), Mean(Values(g)), Median(Values(g)))
  }

  /** The answer: one entry per city, in the order cities first occur (Object.values). */
  function PorCidade(rated: seq<Avaliada>): (out: seq<Cidade>)
  {
    var es := Entries(rated);
    var order := FirstKeys(es, CidadeOf);
    seq(|order|, k requires 0 <= k < |order| => Resumo(es, order[k]))
  }

  /** A city's accumulator: chuvaTotal, numEstacoes, valoresChuva and estacoes. */
  datatype Acc = Acc(chuvaTotal: real, numEstacoes: nat, valoresChuva: seq<real>, estacoes: seq<EstacaoChuva>)

  /** The accumulator of the entries g of one city. */
  function AccOf(g: seq<Entry>): Acc
  {
    Acc(Sum(Values(g)), |g|, Values(g), Estacoes(g))
  }

  /** One more station updates the accumulator as `+=`, `+= 1` and the two pushes do. */
  lemma {:induction false} AccSnoc(g: seq<Entry>, e: Entry)
    ensures AccOf(g + [e]) == Acc(AccOf(g).chuvaTotal + e.estacao.chuvaAcumulada, AccOf(g).numEstacoes + 1,
                                  AccOf(g).valoresChuva + [e.estacao.chuvaAcumulada], AccOf(g).estacoes + [e.estacao])
  {
    assert (g + [e])[..|g|] == g;
    assert (Values(g) + [e.estacao.chuvaAcumulada])[..|g|] == Values(g);
  }

  /** The dictionary after one more counted station: created on first sight, then updated. */
  function Add(acc: map<string, Acc>, e: Entry): map<string, Acc>
  {
    var now := if e.cidade in acc then acc[e.cidade] else Acc(0.0, 0, [], []);
    acc[e.cidade := Acc(now.chuvaTotal + e.estacao.chuvaAcumulada, now.numEstacoes + 1,
                        now.valoresChuva + [e.estacao.chuvaAcumulada], now.estacoes + [e.estacao])]
  }

  /** The dictionary holds, for every city seen so far, the accumulator of its stations. */
  ghost predicate Accumulates(acc: map<string, Acc>, es: seq<Entry>)
  {
    acc.Keys == KeySet(es, CidadeOf) && forall c :: c in acc ==> acc[c] == AccOf(KeyFilter(es, CidadeOf, c))
  }

  lemma {:induction false} AddKeeps(acc: map<string, Acc>, es: seq<Entry>, e: Entry)
    requires Accumulates(acc, es)
    ensures Accumulates(Add(acc, e), es + [e])
    ensures FirstKeys(es + [e], CidadeOf) == FirstKeys(es, CidadeOf) + (if e.cidade in acc then [] else [e.cidade])
  {
    assert Add(acc, e).Keys == KeySet(es + [e], CidadeOf) by {
      KeySetSnoc(es, e, CidadeOf);
    }
    AddValues(acc, es, e);
    assert FirstKeys(es + [e], CidadeOf) == FirstKeys(es, CidadeOf) + (if e.cidade in acc then [] else [e.cidade]) by {
      FirstKeysSnoc(es, e, CidadeOf);
    }
  }

  lemma {:induction false} AddValues(acc: map<string, Acc>, es: seq<Entry>, e: Entry)
    requires Accumulates(acc, es)
    ensures forall c :: c in Add(acc, e) ==> Add(acc, e)[c] == AccOf(KeyFilter(es + [e], CidadeOf, c))
  {
    forall c | c in Add(acc, e) ensures Add(acc, e)[c] == AccOf(KeyFilter(es + [e], CidadeOf, c)) {
      AddValue(acc, es, e, c);
    }
  }

  /** AddValues for one city. */
  lemma {:induction false} AddValue(acc: map<string, Acc>, es: seq<Entry>, e: Entry, c: string)
    requires Accumulates(acc, es) && c in Add(acc, e)
    ensures Add(acc, e)[c] == AccOf(KeyFilter(es + [e], CidadeOf, c))
  {
    KeyFilterSnoc(es, e, CidadeOf, c);
    if c == e.cidade {
      var g := KeyFilter(es, CidadeOf, c);
      assert (if c in acc then acc[c] else Acc(0.0, 0, [], [])) == AccOf(g) by {
        if c !in acc {
          KeyFilterAbsent(es, CidadeOf, c);
        }
      }
      AddSame(acc, e, g);
    } else {
      assert Add(acc, e)[c] == acc[c];
    }
  }

  /** The station's own city gets its accumulator extended by the station. */
  lemma {:induction false} AddSame(acc: map<string, Acc>, e: Entry, g: seq<Entry>)
    requires (if e.cidade in acc then acc[e.cidade] else Acc(0.0, 0, [], [])) == AccOf(g)
    ensures Add(acc, e)[e.cidade] == AccOf(g + [e])
  {
    AccSnoc(g, e);
  }

  lemma {:induction false} AddStep(acc: map<string, Acc>, e: Entry, now: Acc)
    requires now == if e.cidade in acc then acc[e.cidade] else Acc(0.0, 0, [], [])
    ensures acc[e.cidade := Acc(now.chuvaTotal + e.estacao.chuvaAcumulada, now.numEstacoes + 1,
                                now.valoresChuva + [e.estacao.chuvaAcumulada], now.estacoes + [e.estacao])] == Add(acc, e)
  {
  }

  /** The city dictionary after a sequence of counted stations. */
  function Accs(es: seq<Entry>): map<string, Acc>
  {
    if es == [] then map[] else Add(Accs(es[..|es| - 1]), es[|es| - 1])
  }

  /** The dictionary holds each city's accumulator, and its cities are those that occur. */
  lemma {:induction false} AccsMeaning(es: seq<Entry>)
    ensures Accumulates(Accs(es), es)
    decreases |es|
  {
    if es != [] {
      var init, e := es[..|es| - 1], es[|es| - 1];
      assert es == init + [e];
      AccsMeaning(init);
      AddKeeps(Accs(init), init, e);
    }
  }

  /** A city is new to the dictionary exactly when it is new to the insertion order. */
  lemma {:induction false} AccsOrder(es: seq<Entry>, e: Entry)
    ensures Accs(es + [e]) == Add(Accs(es), e)
    ensures FirstKeys(es + [e], CidadeOf) == FirstKeys(es, CidadeOf) + (if e.cidade in Accs(es) then [] else [e.cidade])
  {
    assert (es + [e])[..|es|] == es;
    AccsMeaning(es);
    AddKeeps(Accs(es), es, e);
  }

  /** The first forEach: the city dictionary and its insertion order. */
  method Agrupar(rated: seq<Avaliada>) returns (acc: map<string, Acc>, order: seq<string>)
    ensures acc == Accs(Entries(rated))
    ensures order == FirstKeys(Entries(rated), CidadeOf)
  {
    acc := map[];
    order := [];
    var i := 0;
    while i < |rated|
      invariant 0 <= i <= |rated|
      invariant order == FirstKeys(Entries(rated[..i]), CidadeOf)
      invariant acc == Accs(Entries(rated[..i]))
    {
      var es := Entries(rated[..i]);
      assert rated[..i + 1][..i] == rated[..i];
      var a := rated[i];
      var cidade := CidadeKey(a.municipio);
      if a.chuva.Some? {
        var e := Entry(cidade, EstacaoChuva(a.codigoestacao, a.nome, a.chuva.value));
        assert Entries(rated[..i + 1]) == es + [e];
        AccsOrder(es, e);
        var now := if cidade in acc then acc[cidade] else Acc(0.0, 0, [], []);
        if cidade !in acc {
          order := order + [cidade];
        }
        AddStep(acc, e, now);
        acc := acc[cidade := Acc(now.chuvaTotal + e.estacao.chuvaAcumulada, now.numEstacoes + 1,
                                 now.valoresChuva + [e.estacao.chuvaAcumulada], now.estacoes + [e.estacao])];
        assert acc == Accs(es + [e]);
      } else {
        assert Entries(rated[..i + 1]) == es;
      }
      i := i + 1;
    }
    assert rated[..|rated|] == rated;
  }

  /** An accumulator's mean and median are those of the city's stations. */
  lemma {:induction false} ResumoOfAcc(es: seq<Entry>, c: string)
    requires c in FirstKeys(es, CidadeOf)
    ensures c in Accs(es)
    ensures var a := Accs(es)[c];
      Resumo(es, c) == Cidade(c, a.estacoes, if a.numEstacoes > 0 then a.chuvaTotal / (a.numEstacoes as real) else 0.0,
                              Median(a.valoresChuva))
  {
    AccsMeaning(es);
  }

  lemma {:induction false} ResumoSnoc(out: seq<Cidade>, es: seq<Entry>, order: seq<string>, x: Cidade)
    requires |out| < |order| && forall k :: 0 <= k < |out| ==> out[k] == Resumo(es, order[k])
    requires x == Resumo(es, order[|out|])
    ensures forall k :: 0 <= k < |out| + 1 ==> (out + [x])[k] == Resumo(es, order[k])
  {
  }

  /** The second forEach: each city's mean and median, in insertion order. */
  method Resumir(es: seq<Entry>, acc: map<string, Acc>, order: seq<string>) returns (out: seq<Cidade>)
    requires acc == Accs(es) && order == FirstKeys(es, CidadeOf)
    ensures |out| == |order|
    ensures forall k :: 0 <= k < |order| ==> out[k] == Resumo(es, order[k])
  {
    out := [];
    var j := 0;
    while j < |order|
      invariant 0 <= j <= |order|
      invariant |out| == j && forall k :: 0 <= k < j ==> out[k] == Resumo(es, order[k])
    {
      var cidade := order[j];
      ResumoOfAcc(es, cidade);
      var a := acc[cidade];
      var media := if a.numEstacoes > 0 then a.chuvaTotal / (a.numEstacoes as real) else 0.0;
      ResumoSnoc(out, es, order, Cidade(cidade, a.estacoes, media, Median(a.valoresChuva)));
      out := out + [Cidade(cidade, a.estacoes, media, Median(a.valoresChuva))];
      j := j + 1;
    }
  }

  /** The handler's two forEach passes over the categorized stations and the city dictionary. */
  method ChuvaPorCidade(rated: seq<Avaliada>) returns (out: seq<Cidade>)
    ensures out == PorCidade(rated)
  {
    var acc, order := Agrupar(rated);
    out := Resumir(Entries(rated), acc, order);
  }

  /** ChuvaPorCidade after categorizing every merged station. */
  function ChuvaPorCidadeOf(stations: seq<Station>, now: int, parse: string -> Option<int>): seq<Cidade>
  {
    PorCidade(Avaliadas(stations, now, parse))
  }

  /** A value for every station: every station is an entry, in order. */
  lemma {:induction false} EntriesTotal(rated: seq<Avaliada>)
    requires forall i :: 0 <= i < |rated| ==> rated[i].chuva.Some?
    ensures |Entries(rated)| == |rated|
    ensures forall i :: 0 <= i < |rated| ==>
      Entries(rated)[i] == Entry(CidadeKey(rated[i].municipio), EstacaoChuva(rated[i].codigoestacao, rated[i].nome, rated[i].chuva.value))
    decreases |rated|
  {
    if rated != [] {
      var init, a := rated[..|rated| - 1], rated[|rated| - 1];
      assert forall i :: 0 <= i < |init| ==> init[i] == rated[i];
      EntriesTotal(init);
      var e := Entry(CidadeKey(a.municipio), EstacaoChuva(a.codigoestacao, a.nome, a.chuva.value));
      assert Entries(rated) == Entries(init) + [e];
    }
  }

  /** Every station counts, those without rainfall data as 0 mm: no station is ignored. */
  lemma {:induction false} EveryStationCounts(stations: seq<Station>, now: int, parse: string -> Option<int>)
    ensures |Entries(Avaliadas(stations, now, parse))| == |stations|
    ensures forall i :: 0 <= i < |stations| ==>
      Entries(Avaliadas(stations, now, parse))[i]
        == Entry(CidadeKey(stations[i].city),
                 EstacaoChuva(stations[i].code, stations[i].name, ChuvaValue(Cat.CategorizeStation(stations[i], now, parse).accumulated).value))
  {
    EntriesTotal(Avaliadas(stations, now, parse));
  }

  /** The total size of the groups of the listed cities. */
  function GroupSizes(es: seq<Entry>, order: seq<string>): nat
  {
    if order == [] then 0 else GroupSizes(es, order[..|order| - 1]) + |KeyFilter(es, CidadeOf, order[|order| - 1])|
  }

  lemma {:induction false} GroupSizesSnoc(es: seq<Entry>, e: Entry, order: seq<string>)
    requires forall i, j :: 0 <= i < j < |order| ==> order[i] != order[j]
    ensures GroupSizes(es + [e], order) == GroupSizes(es, order) + (if e.cidade in order then 1 else 0)
    decreases |order|
  {
    if order != [] {
      var init := order[..|order| - 1];
      assert forall i, j :: 0 <= i < j < |init| ==> init[i] != init[j];
      GroupSizesSnoc(es, e, init);
      KeyFilterSnoc(es, e, CidadeOf, order[|order| - 1]);
      assert order == init + [order[|order| - 1]];
      assert e.cidade in order <==> e.cidade in init || e.cidade == order[|order| - 1];
      assert e.cidade == order[|order| - 1] ==> e.cidade !in init;
    }
  }

  /** Every entry lands in exactly one city: the group sizes add up to the number of entries. */
  lemma {:induction false} GroupsPartition(es: seq<Entry>)
    ensures GroupSizes(es, FirstKeys(es, CidadeOf)) == |es|
    decreases |es|
  {
    if es != [] {
      var init, e := es[..|es| - 1], es[|es| - 1];
      assert es == init + [e];
      GroupsPartition(init);
      var order := FirstKeys(init, CidadeOf);
      assert GroupSizes(es, order) == GroupSizes(init, order) + (if e.cidade in order then 1 else 0) by {
        GroupSizesSnoc(init, e, order);
      }
      if e.cidade in order {
        assert FirstKeys(es, CidadeOf) == order by {
          FirstKeysSnoc(init, e, CidadeOf);
        }
      } else {
        NewCityGroup(init, e);
      }
    }
  }

  /** A city first seen at the last entry adds a group holding only that entry. */
  lemma {:induction false} NewCityGroup(init: seq<Entry>, e: Entry)
    requires e.cidade !in FirstKeys(init, CidadeOf)
    ensures FirstKeys(init + [e], CidadeOf) == FirstKeys(init, CidadeOf) + [e.cidade]
    ensures GroupSizes(init + [e], FirstKeys(init + [e], CidadeOf))
         == GroupSizes(init + [e], FirstKeys(init, CidadeOf)) + 1
  {
    var order := FirstKeys(init, CidadeOf);
    FirstKeysSnoc(init, e, CidadeOf);
    assert (order + [e.cidade])[..|order|] == order;
    KeyFilterSnoc(init, e, CidadeOf, e.cidade);
    assert e.cidade !in KeySet(init, CidadeOf);
    KeyFilterAbsent(init, CidadeOf, e.cidade);
  }

  /** The answer lists each city once. */
  lemma {:induction false} CitiesDistinct(rated: seq<Avaliada>)
    ensures var out := PorCidade(rated);
      forall k, l :: 0 <= k < l < |out| ==> out[k].cidade != out[l].cidade
  {
    CitiesInOrder(rated);
  }

  /**
   * The answer's cities are in the order cities first occur, and each lists
   * exactly its own counted stations, in input order.
   */
  lemma {:induction false} CitiesInOrder(rated: seq<Avaliada>)
    ensures var out, es := PorCidade(rated), Entries(rated);
      |out| == |FirstKeys(es, CidadeOf)|
      && (forall k :: 0 <= k < |out| ==> out[k].cidade == FirstKeys(es, CidadeOf)[k])
      && (forall k :: 0 <= k < |out| ==> out[k].estacoes == Estacoes(KeyFilter(es, CidadeOf, out[k].cidade)))
  {
  }

  /** Every counted station's city is in the answer. */
  lemma {:induction false} CitiesCover(rated: seq<Avaliada>)
    ensures var out, es := PorCidade(rated), Entries(rated);
      forall i :: 0 <= i < |es| ==> exists k :: 0 <= k < |out| && out[k].cidade == es[i].cidade
  {
    var es := Entries(rated);
    var order := FirstKeys(es, CidadeOf);
    var out := PorCidade(rated);
    CitiesInOrder(rated);
    forall i | 0 <= i < |es| ensures exists k :: 0 <= k < |out| && out[k].cidade == es[i].cidade {
      assert CidadeOf(es[i]) in order;
      var k :| 0 <= k < |order| && order[k] == es[i].cidade;
      assert out[k].cidade == es[i].cidade;
    }
  }

  /**
   * A city's chuvaMedia is the mean of its stations' values and its
   * chuvaMediana their median; both lie between the least and the greatest
   * of them, and at least half the stations are at most, and at least half
   * at least, the median.
   */
  lemma {:induction false} CityAggregates(rated: seq<Avaliada>, k: nat)
    requires k < |PorCidade(rated)|
    ensures var c := PorCidade(rated)[k];
      var vs := seq(|c.estacoes|, i requires 0 <= i < |c.estacoes| => c.estacoes[i].chuvaAcumulada);
      c.estacoes != []
      && c.chuvaMedia == Sum(vs) / (|vs| as real)
      && c.chuvaMediana == Median(vs)
      && (exists i :: 0 <= i < |vs| && vs[i] <= c.chuvaMedia) && (exists i :: 0 <= i < |vs| && vs[i] >= c.chuvaMedia)
      && (exists i :: 0 <= i < |vs| && vs[i] <= c.chuvaMediana) && (exists i :: 0 <= i < |vs| && vs[i] >= c.chuvaMediana)
      && 2 * Count(vs, AtMost(c.chuvaMediana)) >= |vs| && 2 * Count(vs, AtLeast(c.chuvaMediana)) >= |vs|
  {
    var es := Entries(rated);
    var order := FirstKeys(es, CidadeOf);
    var g := KeyFilter(es, CidadeOf, order[k]);
    var c := PorCidade(rated)[k];
    assert c == Resumo(es, order[k]);
    var vs := seq(|c.estacoes|, i requires 0 <= i < |c.estacoes| => c.estacoes[i].chuvaAcumulada);
    assert vs == Values(g) && vs != [] by {
      ValuesEstacoes(g);
      assert order[k] in KeySet(es, CidadeOf);
      var x :| x in es && CidadeOf(x) == order[k];
      assert x in g;
    }
    assert c.chuvaMedia == Mean(vs) && c.chuvaMediana == Median(vs);
    MeanBetween(vs);
    MedianBetween(vs);
    MedianHalves(vs);
  }

  // GET /estacoes/categorizadas

  /** `extrairInfoEstacao`: only the code and the name. */
  datatype Info = Info(codigoestacao: string, nome: string)

  function InfoOf(c: Cat.Category): Info { Info(c.code, c.name) }

  /** `list.map(extrairInfoEstacao)` */
  function Infos(cs: seq<Cat.Category>): (r: seq<Info>)
    ensures |r| == |cs|
    ensures forall i :: 0 <= i < |cs| ==> r[i] == InfoOf(cs[i])
  {
    if cs == [] then [] else Infos(cs[..|cs| - 1]) + [InfoOf(cs[|cs| - 1])]
  }

  /** `Object.keys(m).forEach(k => out[k] = m[k].map(extrairInfoEstacao))` */
  function InfoBuckets(m: map<string, seq<Cat.Category>>): (r: map<string, seq<Info>>)
    ensures r.Keys == m.Keys
    ensures forall k :: k in m ==> |r[k]| == |m[k]| && forall i :: 0 <= i < |m[k]| ==> r[k][i] == InfoOf(m[k][i])
  {
    map k | k in m :: Infos(m[k])
  }

  /** The route's answer: porRio, atualizadas, desatualizadas, porChuva, porNivel, porVazao. */
  datatype Resultado = Resultado(
    porRio: map<string, seq<Info>>,
    atualizadas: seq<Info>,
    desatualizadas: seq<Info>,
    porChuva: map<string, seq<Info>>,
    porNivel: map<string, seq<Info>>,
    porVazao: map<string, seq<Info>>)

  /**
   * The /categorizadas handler: the categorized lists and buckets with each
   * station reduced to code and name.
   */
  method Categorizadas(stations: seq<Station>, now: int, parse: string -> Option<int>) returns (r: Resultado)
    ensures var cs := Cat.Categories(stations, now, parse);
      r.atualizadas == Infos(KeyFilter(cs, Cat.StatusKey, "Atualizado"))
      && r.desatualizadas == Infos(KeyFilter(cs, Cat.StatusKey, "Desatualizado"))
      && r.porRio == InfoBuckets(GroupBy(cs, Cat.RiverKey))
      && r.porChuva == InfoBuckets(GroupBy(cs, Cat.RainKey))
      && r.porNivel == InfoBuckets(GroupBy(cs, Cat.LevelKey))
      && r.porVazao == InfoBuckets(GroupBy(cs, Cat.DischargeKey))
  {
    var c := Cat.CategorizeStations(stations, now, parse);
    r := Resultado(InfoBuckets(c.byRiver), Infos(c.updated), Infos(c.notUpdated),
                   InfoBuckets(c.byRainfall), InfoBuckets(c.byLevel), InfoBuckets(c.byDischarge));
  }

  /** A station in a bucket is listed, reduced to code and name, under the same key. */
  lemma {:induction false} InfoInBucket(m: map<string, seq<Cat.Category>>, k: string, x: Cat.Category)
    requires k in m && x in m[k]
    ensures k in InfoBuckets(m) && InfoOf(x) in InfoBuckets(m)[k]
  {
    var j :| 0 <= j < |m[k]| && m[k][j] == x;
    assert InfoBuckets(m)[k][j] == InfoOf(x);
  }

  /**
   * atualizadas and desatualizadas together hold as many entries as there
   * are stations, and every station is listed under its own rainfall class
   * in porChuva.
   */
  lemma {:induction false} CategorizadasPartition(stations: seq<Station>, now: int, parse: string -> Option<int>)
    ensures var cs := Cat.Categories(stations, now, parse);
      |Infos(KeyFilter(cs, Cat.StatusKey, "Atualizado"))| + |Infos(KeyFilter(cs, Cat.StatusKey, "Desatualizado"))| == |stations|
    ensures var porChuva := InfoBuckets(GroupBy(Cat.Categories(stations, now, parse), Cat.RainKey));
      forall i :: 0 <= i < |stations| ==>
        var c := Cat.CategorizeStation(stations[i], now, parse);
        c.rainClass in porChuva && Info(stations[i].code, stations[i].name) in porChuva[c.rainClass]
  {
    var cs := Cat.Categories(stations, now, parse);
    Cat.CategorizedPartition(stations, now, parse);
    forall i | 0 <= i < |stations|
      ensures var c := Cat.CategorizeStation(stations[i], now, parse);
        c.rainClass in InfoBuckets(GroupBy(cs, Cat.RainKey))
        && Info(stations[i].code, stations[i].name) in InfoBuckets(GroupBy(cs, Cat.RainKey))[c.rainClass]
    {
      InfoInBucket(GroupBy(cs, Cat.RainKey), Cat.RainKey(cs[i]), cs[i]);
    }
  }
}
