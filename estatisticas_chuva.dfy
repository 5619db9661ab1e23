/**
 * The rainfall statistics panel: the figures calcularEstatisticas derives
 * from the /chuvaPorCidade, /todas and /categorizadas answers, and the
 * 90-second cache obterDadosEstatisticos keeps in front of them.
 *
 * fetchData turns every failed request into `{}` (its `Array.isArray(url)`
 * test is on the URL, a string), so a failed city or station list reaches
 * calcularEstatisticas as an object; `.map` and `.reduce` then throw and the
 * old cache, or `{}`, is returned. An absent list is modelled as None.
 */
module EstatisticasChuva {
  import opened Common
  import opened Seqs
  import opened Stats
  import Records
  import Rotas = RotasDadosEstacoes

  /** TEMPO_CACHE_MS: how long a computed set of statistics is served again. */
  const TempoCacheMs: int := 90000

  /** The fields of a /todas entry the panel reads; a null or missing chuvaAcumulada is None. */
  datatype EstacaoResumo = EstacaoResumo(municipio: Option<string>, chuvaAcumulada: Option<real>)

  /** The station with the highest rainfall: its Municipio_Nome and its chuvaAcumulada. */
  datatype Destaque = Destaque(municipio: Option<string>, chuvaAcumulada: real)

  /** The reduce's initial value `{ Municipio_Nome: "N/A", chuvaAcumulada: 0 }`. */
  const SemDestaque := Destaque(Some("N/A"), 0.0)

  /** One reduce step: a station replaces the current maximum only with a strictly greater, non-null value. */
  function Maior(max: Destaque, e: EstacaoResumo): Destaque
  {
    if e.chuvaAcumulada.Some? && e.chuvaAcumulada.value > max.chuvaAcumulada
    then Destaque(e.municipio, e.chuvaAcumulada.value)
    else max
  }

  /** estacaoMaiorChuva: `estacoesData.reduce(Maior, SemDestaque)`, folded from the left. */
  function MaiorChuva(es: seq<EstacaoResumo>): Destaque
  {
    if es == [] then SemDestaque else Maior(MaiorChuva(es[..|es| - 1]), es[|es| - 1])
  }

  predicate Positive(e: EstacaoResumo)
  {
    e.chuvaAcumulada.Some? && e.chuvaAcumulada.value > 0.0
  }

  /** d is at least 0 and at least every non-null value. */
  predicate Bounds(es: seq<EstacaoResumo>, d: Destaque)
  {
    d.chuvaAcumulada >= 0.0
    && forall j :: 0 <= j < |es| && es[j].chuvaAcumulada.Some? ==> es[j].chuvaAcumulada.value <= d.chuvaAcumulada
  }

  /** d is station i, and every non-null value before i is strictly below it. */
  predicate ChosenAt(es: seq<EstacaoResumo>, d: Destaque, i: int)
  {
    0 <= i < |es| && es[i].chuvaAcumulada == Some(d.chuvaAcumulada) && es[i].municipio == d.municipio
    && forall j :: 0 <= j < i && es[j].chuvaAcumulada.Some? ==> es[j].chuvaAcumulada.value < d.chuvaAcumulada
  }

  predicate NonePositive(es: seq<EstacaoResumo>)
  {
    forall j :: 0 <= j < |es| ==> !Positive(es[j])
  }

  /**
   * estacaoMaiorChuva is the first station holding the greatest non-null
   * value when some value is above 0, and the N/A placeholder otherwise.
   */
  lemma {:induction false} MaiorChuvaFirstGreatest(es: seq<EstacaoResumo>)
    ensures Bounds(es, MaiorChuva(es))
    ensures NonePositive(es) ==> MaiorChuva(es) == SemDestaque
    ensures !NonePositive(es) ==> exists i :: ChosenAt(es, MaiorChuva(es), i)
    decreases |es|
  {
    if es != [] {
      var init, e := es[..|es| - 1], es[|es| - 1];
      MaiorChuvaFirstGreatest(init);
      var d0 := MaiorChuva(init);
      assert forall j :: 0 <= j < |init| ==> init[j] == es[j];
      if e.chuvaAcumulada.Some? && e.chuvaAcumulada.value > d0.chuvaAcumulada {
        assert ChosenAt(es, MaiorChuva(es), |es| - 1);
      } else if !NonePositive(es) {
        assert !NonePositive(init);
        var i :| ChosenAt(init, d0, i);
        assert ChosenAt(es, MaiorChuva(es), i);
      }
    }
  }

  /** The panel's figures; the formatted strings (toFixed, "mm") and the standard deviation are not modelled. */
  datatype Estatisticas = Estatisticas(
    totalCidadesMonitoradas: nat,
    listaCidades: seq<string>,
    cidadesSemChuva: nat,
    listaCidadesSemChuva: seq<string>,
    cidadesComChuvaElevada: nat,
    listaCidadesComChuvaElevada: seq<string>,
    maiorRegistroChuva: Destaque,
    mediaGeralChuva: real,
    medianaChuva: real,
    totalEstacoesMonitoradas: nat,
    totalEstacoesNA: nat,
    listaValoresChuva: seq<real>)

  /** What calcularEstatisticas throws: a city or station list that is `{}` instead of an array. */
  datatype Erro = TypeError

  /** `list.map(cidade => cidade.cidade)` */
  function Nomes(cs: seq<Rotas.Cidade>): seq<string>
  {
    seq(|cs|, i requires 0 <= i < |cs| => cs[i].cidade)
  }

  /** `cidadesData.map(item => item.chuvaMedia || 0)`: every chuvaMedia is a number, so `|| 0` keeps it. */
  function Medias(cs: seq<Rotas.Cidade>): seq<real>
  {
    seq(|cs|, i requires 0 <= i < |cs| => cs[i].chuvaMedia)
  }

  function SemChuva(c: Rotas.Cidade): bool { c.chuvaMedia == 0.0 }

  function AcimaDe(m: real): Rotas.Cidade -> bool { (c: Rotas.Cidade) => c.chuvaMedia > m }

  /** The median of the already sorted list: its middle, or 0 when it is empty. */
  function Mediana(valores: seq<real>): real
  {
    if |valores| > 0 then Middle(valores) else 0.0
  }

  /** totalEstacoesMonitoradas: `cidadesData.reduce((acc, cidade) => acc + cidade.estacoes.length, 0)` */
  function TotalEstacoes(cs: seq<Rotas.Cidade>): nat
  {
    if cs == [] then 0 else TotalEstacoes(cs[..|cs| - 1]) + |cs[|cs| - 1].estacoes|
  }

  /** totalEstacoesNA: the length of desatualizadas, or 0 when the /categorizadas answer is `{}`. */
  function TotalNA(categorizadas: Option<Rotas.Resultado>): nat
  {
    if categorizadas.Some? then |categorizadas.value.desatualizadas| else 0
  }

  /** calcularEstatisticas over the three answers. */
  function CalcularEstatisticas(cidadesData: Option<seq<Rotas.Cidade>>, estacoesData: Option<seq<EstacaoResumo>>,
                                categorizadas: Option<Rotas.Resultado>): (r: Result<Estatisticas, Erro>)
    ensures r.Failure? <==> cidadesData.None? || estacoesData.None?
  {
    if cidadesData.None? || estacoesData.None? then Failure(TypeError)
    else
      var cs := cidadesData.value;
      var media := Mean(Medias(cs));
      var semChuva := Filter(cs, SemChuva);
      var elevadas := Filter(cs, AcimaDe(media));
      var valores := Ascending(Medias(cs));
      Success(Estatisticas(|cs|, Nomes(cs), |semChuva|, Nomes(semChuva), |elevadas|, Nomes(elevadas),
                           MaiorChuva(estacoesData.value), media, Mediana(valores), TotalEstacoes(cs),
                           TotalNA(categorizadas), valores))
  }

  /**
   * What the figures mean: one name per city in input order; the cities
   * without rain are exactly those with chuvaMedia 0 and the elevated ones
   * exactly those strictly above the general mean; the value list is the
   * cities' means in ascending order and the median is taken over it.
   */
  lemma {:induction false} EstatisticasContents(cs: seq<Rotas.Cidade>, es: seq<EstacaoResumo>, categorizadas: Option<Rotas.Resultado>)
    ensures var r := CalcularEstatisticas(Some(cs), Some(es), categorizadas).value;
      var semChuva := Filter(cs, SemChuva);
      var elevadas := Filter(cs, AcimaDe(r.mediaGeralChuva));
      r.totalCidadesMonitoradas == |cs| == |r.listaCidades|
      && (forall i :: 0 <= i < |cs| ==> r.listaCidades[i] == cs[i].cidade)
      && r.cidadesSemChuva == |semChuva| == |r.listaCidadesSemChuva|
      && (forall c :: c in semChuva <==> c in cs && c.chuvaMedia == 0.0)
      && (forall i :: 0 <= i < |semChuva| ==> r.listaCidadesSemChuva[i] == semChuva[i].cidade)
      && r.mediaGeralChuva == (if |cs| > 0 then Sum(Medias(cs)) / (|cs| as real) else 0.0)
      && r.cidadesComChuvaElevada == |elevadas| == |r.listaCidadesComChuvaElevada|
      && (forall c :: c in elevadas <==> c in cs && c.chuvaMedia > r.mediaGeralChuva)
      && (forall i :: 0 <= i < |elevadas| ==> r.listaCidadesComChuvaElevada[i] == elevadas[i].cidade)
      && multiset(r.listaValoresChuva) == multiset(Medias(cs)) && Ascends(r.listaValoresChuva)
      && r.medianaChuva == Median(Medias(cs))
      && r.totalEstacoesNA == TotalNA(categorizadas)
  {
    var r := CalcularEstatisticas(Some(cs), Some(es), categorizadas).value;
    var elevadas := Filter(cs, AcimaDe(r.mediaGeralChuva));
    forall c ensures c in elevadas <==> c in cs && c.chuvaMedia > r.mediaGeralChuva {
      if c in cs {
        var i :| 0 <= i < |cs| && cs[i] == c;
        assert AcimaDe(r.mediaGeralChuva)(cs[i]) ==> cs[i] in elevadas;
      }
    }
    forall c ensures c in Filter(cs, SemChuva) <==> c in cs && c.chuvaMedia == 0.0 {
      if c in cs {
        var i :| 0 <= i < |cs| && cs[i] == c;
        assert SemChuva(cs[i]) ==> cs[i] in Filter(cs, SemChuva);
      }
    }
  }

  /**
   * With at least one city, no city is above the general mean exactly when
   * all cities have the same chuvaMedia.
   */
  lemma {:induction false} ElevadasVazias(cs: seq<Rotas.Cidade>)
    requires cs != []
    ensures var m := Mean(Medias(cs));
      Filter(cs, AcimaDe(m)) == [] <==> forall i, j :: 0 <= i < |cs| && 0 <= j < |cs| ==> cs[i].chuvaMedia == cs[j].chuvaMedia
  {
    var ms := Medias(cs);
    var m := Mean(ms);
    assert (Filter(cs, AcimaDe(m)) == []) == (forall i :: 0 <= i < |ms| ==> ms[i] <= m) by {
      FilterNoneAbove(cs, m);
    }
    assert forall i :: 0 <= i < |cs| ==> ms[i] == cs[i].chuvaMedia;
    MeanAllEqual(ms);
    if forall i, j :: 0 <= i < |cs| && 0 <= j < |cs| ==> cs[i].chuvaMedia == cs[j].chuvaMedia {
      assert forall i, j :: 0 <= i < |ms| && 0 <= j < |ms| ==> ms[i] == ms[j];
    }
  }

  lemma {:induction false} FilterNoneAbove(cs: seq<Rotas.Cidade>, m: real)
    ensures Filter(cs, AcimaDe(m)) == [] <==> forall i :: 0 <= i < |cs| ==> Medias(cs)[i] <= m
  {
    if Filter(cs, AcimaDe(m)) != [] {
      var c := Filter(cs, AcimaDe(m))[0];
      var i :| 0 <= i < |cs| && cs[i] == c;
      assert Medias(cs)[i] > m;
    }
  }

  /** The general mean lies between the least and the greatest chuvaMedia. */
  lemma {:induction false} MediaGeralBetween(cs: seq<Rotas.Cidade>)
    requires cs != []
    ensures exists i :: 0 <= i < |cs| && cs[i].chuvaMedia <= Mean(Medias(cs))
    ensures exists j :: 0 <= j < |cs| && cs[j].chuvaMedia >= Mean(Medias(cs))
  {
    MeanBetween(Medias(cs));
  }

  lemma {:induction false} TotalEstacoesGroups(es: seq<Rotas.Entry>, order: seq<string>)
    ensures TotalEstacoes(seq(|order|, k requires 0 <= k < |order| => Rotas.Resumo(es, order[k])))
         == Rotas.GroupSizes(es, order)
    decreases |order|
  {
    if order != [] {
      var init := order[..|order| - 1];
      var out := seq(|order|, k requires 0 <= k < |order| => Rotas.Resumo(es, order[k]));
      assert out[..|out| - 1] == seq(|init|, k requires 0 <= k < |init| => Rotas.Resumo(es, init[k]));
      TotalEstacoesGroups(es, init);
    }
  }

  /**
   * Over the /chuvaPorCidade answer, totalEstacoesMonitoradas counts every
   * station once: it is the number of stations the route categorized.
   */
  lemma {:induction false} TotalEstacoesOfRoute(stations: seq<Records.Station>, now: int, parse: string -> Option<int>)
    ensures TotalEstacoes(Rotas.ChuvaPorCidadeOf(stations, now, parse)) == |stations|
  {
    var es := Rotas.Entries(Rotas.Avaliadas(stations, now, parse));
    TotalEstacoesGroups(es, FirstKeys(es, Rotas.CidadeOf));
    Rotas.GroupsPartition(es);
    Rotas.EveryStationCounts(stations, now, parse);
  }

  // obterDadosEstatisticos

  /** The module-level cacheEstatisticas and ultimaAtualizacao. */
  datatype Estado = Estado(cache: Option<Estatisticas>, ultimaAtualizacao: int)

  /** The cache serves: something is stored and it was stored less than TEMPO_CACHE_MS before agora. */
  predicate Valido(s: Estado, agora: int)
  {
    s.cache.Some? && agora - s.ultimaAtualizacao < TempoCacheMs
  }

  /**
   * One call at time agora, with the three answers the requests would bring
   * back: the answer (None for `{}`) and the new state. A valid cache is
   * returned without computing; a computation that throws returns the old
   * cache and keeps the state.
   */
  function Servir(s: Estado, agora: int, cidadesData: Option<seq<Rotas.Cidade>>, estacoesData: Option<seq<EstacaoResumo>>,
                  categorizadas: Option<Rotas.Resultado>): (Option<Estatisticas>, Estado)
  {
    if Valido(s, agora) then (s.cache, s)
    else
      match CalcularEstatisticas(cidadesData, estacoesData, categorizadas)
      case Success(e) => (Some(e), Estado(Some(e), agora))
      case Failure(_) => (s.cache, s)
  }

  /** The statistics panel's cache. */
  class PainelEstatisticas {
    var cacheEstatisticas: Option<Estatisticas>
    var ultimaAtualizacao: int

    constructor()
      ensures cacheEstatisticas == None && ultimaAtualizacao == 0
    {
      cacheEstatisticas := None;
      ultimaAtualizacao := 0;
    }

    function State(): Estado
      reads this
    {
      Estado(cacheEstatisticas, ultimaAtualizacao)
    }

    /** obterDadosEstatisticos at time agora, given what the three requests would return. */
    method ObterDadosEstatisticos(agora: int, cidadesData: Option<seq<Rotas.Cidade>>, estacoesData: Option<seq<EstacaoResumo>>,
                                  categorizadas: Option<Rotas.Resultado>) returns (r: Option<Estatisticas>)
      modifies this
      ensures (r, State()) == Servir(old(State()), agora, cidadesData, estacoesData, categorizadas)
    {
      if cacheEstatisticas.Some? && agora - ultimaAtualizacao < TempoCacheMs {
        return cacheEstatisticas;
      }
      var calculo := CalcularEstatisticas(cidadesData, estacoesData, categorizadas);
      if calculo.Success? {
        cacheEstatisticas := Some(calculo.value);
        ultimaAtualizacao := agora;
        return cacheEstatisticas;
      }
      return cacheEstatisticas;
    }
  }

  /** A valid cache is answered as is, whatever the requests would bring back, and the state does not change. */
  lemma {:induction false} ServirHit(s: Estado, agora: int, cidadesData: Option<seq<Rotas.Cidade>>, estacoesData: Option<seq<EstacaoResumo>>,
                  categorizadas: Option<Rotas.Resultado>)
    requires Valido(s, agora)
    ensures Servir(s, agora, cidadesData, estacoesData, categorizadas) == (s.cache, s)
  {
  }

  /**
   * Without a valid cache the answer is computed from the current data and
   * stored with the time when the computation succeeds; when it throws, the
   * old cache, or `{}`, is returned and nothing changes.
   */
  lemma {:induction false} ServirMiss(s: Estado, agora: int, cidadesData: Option<seq<Rotas.Cidade>>, estacoesData: Option<seq<EstacaoResumo>>,
                   categorizadas: Option<Rotas.Resultado>)
    requires !Valido(s, agora)
    ensures var (r, s') := Servir(s, agora, cidadesData, estacoesData, categorizadas);
      var c := CalcularEstatisticas(cidadesData, estacoesData, categorizadas);
      (c.Success? ==> r == Some(c.value) && s' == Estado(r, agora))
      && (c.Failure? ==> r == s.cache && s' == s)
  {
  }

  /**
   * Statistics computed at time t are answered again, unchanged and whatever
   * the data, by every call less than TEMPO_CACHE_MS later.
   */
  lemma {:induction false} ServirRepeat(s: Estado, t: int, t': int, cd: Option<seq<Rotas.Cidade>>, ed: Option<seq<EstacaoResumo>>,
                     cat: Option<Rotas.Resultado>, cd': Option<seq<Rotas.Cidade>>, ed': Option<seq<EstacaoResumo>>,
                     cat': Option<Rotas.Resultado>)
    requires !Valido(s, t) && CalcularEstatisticas(cd, ed, cat).Success?
    requires t' - t < TempoCacheMs
    ensures var (r, s1) := Servir(s, t, cd, ed, cat);
      Servir(s1, t', cd', ed', cat') == (r, s1) && r == Some(CalcularEstatisticas(cd, ed, cat).value)
  {
  }

  /** Once something is cached, every later answer holds statistics: a failure never empties the cache. */
  lemma {:induction false} ServirKeeps(s: Estado, agora: int, cidadesData: Option<seq<Rotas.Cidade>>, estacoesData: Option<seq<EstacaoResumo>>,
                    categorizadas: Option<Rotas.Resultado>)
    requires s.cache.Some?
    ensures var (r, s') := Servir(s, agora, cidadesData, estacoesData, categorizadas);
      r.Some? && s'.cache.Some? && r == s'.cache
  {
  }
}
