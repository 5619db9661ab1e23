/**
 * The station markers: markerMap from String(codigoestacao) to the marker
 * made for that station, filled by load, reconciled with a new station list
 * by update (changed data is reclassified, stations no longer listed are
 * removed), and the rain alert flag of setHighRainAlert; plus the marker
 * colour picked by layer type and classification. A marker is a value here
 * (its Leaflet id, its stationData and the text load computed for it); the
 * hybrid layer holds the ids.
 */
module GerenciadorDeMarcadores {
  import opened Common
  import opened Text
  import opened HybridLayers
  import Cat = CategorizacaoEstacoes
  import Rec = Records

  // Keys

  /** codigoestacao as the JSON holds it: a number or a string. */
  datatype Codigo = Numero(n: nat) | Texto(s: string)

  function NumDigits(n: nat): (w: nat)
    ensures w >= 1
  {
    if n < 10 then 1 else 1 + NumDigits(n / 10)
  }

  lemma {:induction false} NumDigitsFits(n: nat)
    ensures n < Pow10(NumDigits(n))
  {
    if n >= 10 {
      NumDigitsFits(n / 10);
    }
  }

  /** A natural number in decimal, as String() writes it. */
  function Decimal(n: nat): (r: string)
    ensures |r| >= 1 && AllDigits(r)
  {
    PadDigits(n, NumDigits(n))
  }

  /** Decimal writes the digits that read back as n. */
  lemma {:induction false} DecimalValue(n: nat)
    ensures DigitsValue(Decimal(n)) == n
  {
    NumDigitsFits(n);
    PadDigitsValue(n, NumDigits(n));
  }

  /** `String(station.codigoestacao)`: the key of markerMap. */
  function KeyOf(c: Codigo): string
  {
    match c
    case Numero(n) => Decimal(n)
    case Texto(s) => s
  }

  /** Distinct numeric codes get distinct keys, and a number and its decimal text share one. */
  lemma {:induction false} KeyOfMeaning(a: nat, b: nat)
    ensures KeyOf(Numero(a)) == KeyOf(Numero(b)) <==> a == b
    ensures KeyOf(Numero(a)) == KeyOf(Texto(Decimal(a)))
  {
    DecimalValue(a);
    DecimalValue(b);
  }

  // Station data and markers

  /**
   * A station as the marker sees it. latitude and longitude are
   * `parseFloat(station.latitude || station.Latitude)` and its longitude
   * counterpart; the classification fields are absent in the JSON until
   * update writes them; demais holds every other field.
   */
  datatype Dados = Dados(
    codigoestacao: Codigo,
    chuvaAcumulada: Datum,
    latitude: Datum,
    longitude: Datum,
    classificacaoChuva: Option<string>,
    classificacaoNivel: Option<string>,
    classificacaoVazao: Option<string>,
    highRainAlert: Option<bool>,
    demais: map<string, Datum>)

  /** createMarkerFromStation returns a marker unless a coordinate is NaN. */
  predicate HasCoordinates(d: Dados)
  {
    d.latitude.Num? && d.longitude.Num?
  }

  /** A marker: its Leaflet id and its stationData. */
  datatype Marcador = Marcador(id: nat, stationData: Dados)

  /** No two markers of the map share an id. */
  ghost predicate DistinctIds(m: map<string, Marcador>)
  {
    forall k1, k2 :: k1 in m && k2 in m && k1 != k2 ==> m[k1].id != m[k2].id
  }

  /** Every id of the map is below the next id to hand out. */
  ghost predicate IdsBelow(m: map<string, Marcador>, next: nat)
  {
    forall k :: k in m ==> m[k].id < next
  }

  // load

  /** markerMap, the next Leaflet id and the ids of the markers this load added. */
  datatype Carga = Carga(markers: map<string, Marcador>, nextId: nat, added: set<nat>)

  /** One station of load's forEach. */
  function LoadStep(c: Carga, s: Dados): Carga
  {
    var code := KeyOf(s.codigoestacao);
    if code in c.markers || !HasCoordinates(s) then c
    else Carga(c.markers[code := Marcador(c.nextId, s)], c.nextId + 1, c.added + {c.nextId})
  }

  function Loaded(c: Carga, stations: seq<Dados>): Carga
    decreases |stations|
  {
    if stations == [] then c
    else LoadStep(Loaded(c, stations[..|stations| - 1]), stations[|stations| - 1])
  }

  /** Some station of the list with coordinates has key k. */
  ghost predicate Creatable(stations: seq<Dados>, k: string)
  {
    exists i :: 0 <= i < |stations| && HasCoordinates(stations[i]) && KeyOf(stations[i].codigoestacao) == k
  }

  /** load leaves the markers it finds untouched and adds one for each new key of a station with coordinates. */
  lemma {:induction false} LoadedKeys(c: Carga, stations: seq<Dados>)
    ensures var r := Loaded(c, stations);
      (forall k :: k in c.markers ==> k in r.markers && r.markers[k] == c.markers[k])
      && (forall k :: k in r.markers <==> k in c.markers || Creatable(stations, k))
    decreases |stations|
  {
    if stations != [] {
      var init := stations[..|stations| - 1];
      var s := stations[|stations| - 1];
      LoadedKeys(c, init);
      var r := Loaded(c, stations);
      forall k ensures k in r.markers <==> k in c.markers || Creatable(stations, k) {
        if Creatable(init, k) {
          var i :| 0 <= i < |init| && HasCoordinates(init[i]) && KeyOf(init[i].codigoestacao) == k;
          assert stations[i] == init[i];
        }
        if Creatable(stations, k) {
          var i :| 0 <= i < |stations| && HasCoordinates(stations[i]) && KeyOf(stations[i].codigoestacao) == k;
          if i < |init| {
            assert init[i] == stations[i];
          }
        }
      }
    }
  }

  /** The marker of a new key is the first station with that key and coordinates. */
  lemma {:induction false} LoadedNew(c: Carga, stations: seq<Dados>, k: string)
    requires k in Loaded(c, stations).markers && k !in c.markers
    ensures var mk := Loaded(c, stations).markers[k];
      exists i :: 0 <= i < |stations| && stations[i] == mk.stationData && HasCoordinates(stations[i])
        && KeyOf(stations[i].codigoestacao) == k
        && forall j :: 0 <= j < i ==> !(HasCoordinates(stations[j]) && KeyOf(stations[j].codigoestacao) == k)
    decreases |stations|
  {
    var init := stations[..|stations| - 1];
    var last := |stations| - 1;
    var p := Loaded(c, init);
    var mk := Loaded(c, stations).markers[k];
    if k in p.markers {
      LoadedNew(c, init, k);
      var i :| 0 <= i < |init| && init[i] == p.markers[k].stationData && HasCoordinates(init[i])
        && KeyOf(init[i].codigoestacao) == k
        && forall j :: 0 <= j < i ==> !(HasCoordinates(init[j]) && KeyOf(init[j].codigoestacao) == k);
      assert stations[i] == init[i];
      forall j | 0 <= j < i ensures !(HasCoordinates(stations[j]) && KeyOf(stations[j].codigoestacao) == k) {
        assert stations[j] == init[j];
      }
    } else {
      LoadedKeys(c, init);
      assert !Creatable(init, k);
      forall j | 0 <= j < last ensures !(HasCoordinates(stations[j]) && KeyOf(stations[j].codigoestacao) == k) {
        assert stations[j] == init[j];
      }
    }
  }

  /** The new markers get fresh, distinct ids, which are exactly the added ones. */
  lemma {:induction false} LoadedIds(c: Carga, stations: seq<Dados>)
    requires DistinctIds(c.markers) && IdsBelow(c.markers, c.nextId) && c.added == {}
    ensures var r := Loaded(c, stations);
      DistinctIds(r.markers) && IdsBelow(r.markers, r.nextId) && c.nextId <= r.nextId
      && r.added == set k | k in r.markers && k !in c.markers :: r.markers[k].id
    decreases |stations|
  {
    if stations != [] {
      var init := stations[..|stations| - 1];
      LoadedIds(c, init);
      LoadedKeys(c, init);
      LoadStepIds(c.markers, Loaded(c, init), stations[|stations| - 1]);
    }
  }

  /** One station of load keeps the ids distinct and below the next one, and records a new one as added. */
  lemma {:induction false} LoadStepIds(before: map<string, Marcador>, p: Carga, s: Dados)
    requires DistinctIds(p.markers) && IdsBelow(p.markers, p.nextId)
    requires forall k :: k in before ==> k in p.markers
    requires p.added == set k | k in p.markers && k !in before :: p.markers[k].id
    ensures var r := LoadStep(p, s);
      DistinctIds(r.markers) && IdsBelow(r.markers, r.nextId) && p.nextId <= r.nextId
      && r.added == set k | k in r.markers && k !in before :: r.markers[k].id
  {
    var r := LoadStep(p, s);
    if r != p {
      var code := KeyOf(s.codigoestacao);
      assert r.markers == p.markers[code := Marcador(p.nextId, s)];
      assert r.added == p.added + {p.nextId};
      var newIds := set k | k in r.markers && k !in before :: r.markers[k].id;
      assert newIds == p.added + {p.nextId} by {
        forall x | x in newIds ensures x in p.added + {p.nextId} {
          var k :| k in r.markers && k !in before && r.markers[k].id == x;
          if k != code {
            assert k in p.markers && p.markers[k].id == x;
          }
        }
        assert r.markers[code].id == p.nextId;
        forall x | x in p.added ensures x in newIds {
          var k :| k in p.markers && k !in before && p.markers[k].id == x;
          assert r.markers[k] == p.markers[k];
        }
      }
    }
  }

  // update

  /** markerMap, currentCodes and houveMudanca in update's first loop. */
  datatype Passo = Passo(markers: map<string, Marcador>, currentCodes: set<string>, houveMudanca: bool)

  /** dadosMudaram || categoriaMudou, with JSON.stringify equality read as equality of values. */
  predicate Mudou(stored: Dados, station: Dados, categorize: Dados -> Cat.Category)
  {
    stored != station || categorize(stored) != categorize(station)
  }

  /** `{...station, classificacaoChuva, classificacaoNivel, classificacaoVazao}` from the new category. */
  function Reclassified(station: Dados, c: Cat.Category): Dados
  {
    station.(classificacaoChuva := Some(c.rainClass), classificacaoNivel := Some(c.levelClass), classificacaoVazao := Some(c.dischargeClass))
  }

  /** One station of update's forEach. */
  function UpdateStep(p: Passo, s: Dados, categorize: Dados -> Cat.Category): Passo
  {
    var code := KeyOf(s.codigoestacao);
    if code !in p.markers then p
    else
      var marker := p.markers[code];
      if Mudou(marker.stationData, s, categorize) then
        Passo(p.markers[code := marker.(stationData := Reclassified(s, categorize(s)))], p.currentCodes - {code}, true)
      else p.(currentCodes := p.currentCodes - {code})
  }

  /** The state after the first loop over the new stations. */
  function Compared(m: map<string, Marcador>, stations: seq<Dados>, categorize: Dados -> Cat.Category): Passo
    decreases |stations|
  {
    if stations == [] then Passo(m, m.Keys, false)
    else UpdateStep(Compared(m, stations[..|stations| - 1], categorize), stations[|stations| - 1], categorize)
  }

  /** Some station of the list has key k. */
  ghost predicate Listed(stations: seq<Dados>, k: string)
  {
    exists i :: 0 <= i < |stations| && KeyOf(stations[i].codigoestacao) == k
  }

  /**
   * The first loop keeps every key and every marker's id, and leaves in
   * currentCodes exactly the keys no new station has.
   */
  lemma {:induction false} ComparedKeys(m: map<string, Marcador>, stations: seq<Dados>, categorize: Dados -> Cat.Category)
    ensures var p := Compared(m, stations, categorize);
      p.markers.Keys == m.Keys
      && (forall k :: k in m ==> p.markers[k].id == m[k].id)
      && (forall k :: k in p.currentCodes <==> k in m && !Listed(stations, k))
    decreases |stations|
  {
    if stations != [] {
      var init := stations[..|stations| - 1];
      ComparedKeys(m, init, categorize);
      var p := Compared(m, stations, categorize);
      forall k ensures k in p.currentCodes <==> k in m && !Listed(stations, k) {
        if Listed(init, k) {
          var i :| 0 <= i < |init| && KeyOf(init[i].codigoestacao) == k;
          assert stations[i] == init[i];
        }
        if Listed(stations, k) {
          var i :| 0 <= i < |stations| && KeyOf(stations[i].codigoestacao) == k;
          if i < |init| {
            assert init[i] == stations[i];
          }
        }
      }
    }
  }

  /** No station differs from its marker's data: nothing changes. */
  lemma {:induction false} ComparedUnchanged(m: map<string, Marcador>, stations: seq<Dados>, categorize: Dados -> Cat.Category)
    requires forall i :: 0 <= i < |stations| && KeyOf(stations[i].codigoestacao) in m ==>
      !Mudou(m[KeyOf(stations[i].codigoestacao)].stationData, stations[i], categorize)
    ensures Compared(m, stations, categorize).markers == m && !Compared(m, stations, categorize).houveMudanca
    decreases |stations|
  {
    if stations != [] {
      var init := stations[..|stations| - 1];
      forall i | 0 <= i < |init| && KeyOf(init[i].codigoestacao) in m
        ensures !Mudou(m[KeyOf(init[i].codigoestacao)].stationData, init[i], categorize)
      {
        assert init[i] == stations[i];
      }
      ComparedUnchanged(m, init, categorize);
    }
  }

  /** The codes of the list are pairwise distinct. */
  ghost predicate DistinctCodes(stations: seq<Dados>)
  {
    forall i, j :: 0 <= i < j < |stations| ==> KeyOf(stations[i].codigoestacao) != KeyOf(stations[j].codigoestacao)
  }

  /** The station at i has a marker whose data differs from it. */
  predicate ChangedAt(m: map<string, Marcador>, stations: seq<Dados>, categorize: Dados -> Cat.Category, i: nat)
    requires i < |stations|
  {
    var k := KeyOf(stations[i].codigoestacao);
    k in m && Mudou(m[k].stationData, stations[i], categorize)
  }

  ghost predicate SomeChange(m: map<string, Marcador>, stations: seq<Dados>, categorize: Dados -> Cat.Category)
  {
    exists i :: 0 <= i < |stations| && ChangedAt(m, stations, categorize, i)
  }

  /** A prefix of a list of distinct codes has distinct codes, none of them the last one's. */
  lemma {:induction false} DistinctCodesInit(stations: seq<Dados>)
    requires DistinctCodes(stations) && stations != []
    ensures var init := stations[..|stations| - 1];
      DistinctCodes(init) && !Listed(init, KeyOf(stations[|stations| - 1].codigoestacao))
  {
    var init := stations[..|stations| - 1];
    forall i, j | 0 <= i < j < |init| ensures KeyOf(init[i].codigoestacao) != KeyOf(init[j].codigoestacao) {
      assert init[i] == stations[i] && init[j] == stations[j];
    }
    forall i | 0 <= i < |init| ensures KeyOf(init[i].codigoestacao) != KeyOf(stations[|stations| - 1].codigoestacao) {
      assert init[i] == stations[i];
    }
  }

  /** The marker of a key no new station has keeps its data. */
  lemma {:induction false} ComparedUnlisted(m: map<string, Marcador>, stations: seq<Dados>, categorize: Dados -> Cat.Category)
    ensures var p := Compared(m, stations, categorize);
      forall k :: k in m && !Listed(stations, k) ==> k in p.markers && p.markers[k] == m[k]
    decreases |stations|
  {
    if stations != [] {
      var init := stations[..|stations| - 1];
      ComparedUnlisted(m, init, categorize);
      ComparedKeys(m, init, categorize);
      var p := Compared(m, stations, categorize);
      forall k | k in m && !Listed(stations, k) ensures k in p.markers && p.markers[k] == m[k] {
        assert KeyOf(stations[|stations| - 1].codigoestacao) != k;
      }
    }
  }

  /**
   * With distinct codes, each listed marker ends up holding the station
   * reclassified when they differ, and its own data otherwise.
   */
  lemma {:induction false} ComparedDistinctData(m: map<string, Marcador>, stations: seq<Dados>, categorize: Dados -> Cat.Category)
    requires DistinctCodes(stations)
    ensures var p := Compared(m, stations, categorize);
      forall i :: 0 <= i < |stations| && KeyOf(stations[i].codigoestacao) in m ==>
        var k := KeyOf(stations[i].codigoestacao);
        k in p.markers
        && p.markers[k].stationData == if ChangedAt(m, stations, categorize, i) then Reclassified(stations[i], categorize(stations[i])) else m[k].stationData
  {
    forall i | 0 <= i < |stations| && KeyOf(stations[i].codigoestacao) in m
      ensures var k := KeyOf(stations[i].codigoestacao); var p := Compared(m, stations, categorize);
        k in p.markers
        && p.markers[k].stationData == if ChangedAt(m, stations, categorize, i) then Reclassified(stations[i], categorize(stations[i])) else m[k].stationData
    {
      ComparedDataAt(m, stations, categorize, i);
    }
  }

  /** ComparedDistinctData for the station at i. */
  lemma {:induction false} ComparedDataAt(m: map<string, Marcador>, stations: seq<Dados>, categorize: Dados -> Cat.Category, i: nat)
    requires DistinctCodes(stations) && i < |stations| && KeyOf(stations[i].codigoestacao) in m
    ensures var k := KeyOf(stations[i].codigoestacao); var p := Compared(m, stations, categorize);
      k in p.markers
      && p.markers[k].stationData == if ChangedAt(m, stations, categorize, i) then Reclassified(stations[i], categorize(stations[i])) else m[k].stationData
    decreases |stations|
  {
    var init := stations[..|stations| - 1];
    var last := |stations| - 1;
    var q := Compared(m, init, categorize);
    DistinctCodesInit(stations);
    if i < last {
      assert stations[i] == init[i];
      ComparedDataAt(m, init, categorize, i);
      UpdateStepOther(q, stations[last], categorize, KeyOf(stations[i].codigoestacao));
    } else {
      ComparedUnlisted(m, init, categorize);
      UpdateStepSame(q, stations[last], categorize);
    }
  }

  /** A step leaves the marker of any other key as it was. */
  lemma {:induction false} UpdateStepOther(q: Passo, s: Dados, categorize: Dados -> Cat.Category, k: string)
    requires k != KeyOf(s.codigoestacao) && k in q.markers
    ensures k in UpdateStep(q, s, categorize).markers && UpdateStep(q, s, categorize).markers[k] == q.markers[k]
  {
  }

  /** A step gives the station's marker the reclassified station when it differs, and leaves it otherwise. */
  lemma {:induction false} UpdateStepSame(q: Passo, s: Dados, categorize: Dados -> Cat.Category)
    requires KeyOf(s.codigoestacao) in q.markers
    ensures var k := KeyOf(s.codigoestacao); var p := UpdateStep(q, s, categorize);
      k in p.markers
      && p.markers[k].stationData == if Mudou(q.markers[k].stationData, s, categorize) then Reclassified(s, categorize(s)) else q.markers[k].stationData
  {
  }

  /** With distinct codes, update reports a change exactly when some listed station differs from its marker's data. */
  lemma {:induction false} ComparedDistinctChange(m: map<string, Marcador>, stations: seq<Dados>, categorize: Dados -> Cat.Category)
    requires DistinctCodes(stations)
    ensures Compared(m, stations, categorize).houveMudanca <==> SomeChange(m, stations, categorize)
    decreases |stations|
  {
    if stations != [] {
      var init := stations[..|stations| - 1];
      var last := |stations| - 1;
      DistinctCodesInit(stations);
      ComparedDistinctChange(m, init, categorize);
      ComparedUnlisted(m, init, categorize);
      ComparedKeys(m, init, categorize);
      UpdateStepChange(Compared(m, init, categorize), stations[last], categorize);
      SomeChangeSnoc(m, stations, categorize);
    }
  }

  /** A step reports a change when one was already reported or its station differs from its marker's data. */
  lemma {:induction false} UpdateStepChange(q: Passo, s: Dados, categorize: Dados -> Cat.Category)
    ensures var k := KeyOf(s.codigoestacao);
      UpdateStep(q, s, categorize).houveMudanca == (q.houveMudanca || (k in q.markers && Mudou(q.markers[k].stationData, s, categorize)))
  {
  }

  /** Some station of the list differs exactly when one before the last does or the last one does. */
  lemma {:induction false} SomeChangeSnoc(m: map<string, Marcador>, stations: seq<Dados>, categorize: Dados -> Cat.Category)
    requires stations != []
    ensures SomeChange(m, stations, categorize)
        <==> SomeChange(m, stations[..|stations| - 1], categorize) || ChangedAt(m, stations, categorize, |stations| - 1)
  {
    var init := stations[..|stations| - 1];
    if SomeChange(m, init, categorize) {
      var i :| 0 <= i < |init| && ChangedAt(m, init, categorize, i);
      assert stations[i] == init[i];
      assert ChangedAt(m, stations, categorize, i);
    }
    if SomeChange(m, stations, categorize) {
      var i :| 0 <= i < |stations| && ChangedAt(m, stations, categorize, i);
      if i < |init| {
        assert stations[i] == init[i];
        assert ChangedAt(m, init, categorize, i);
      }
    }
  }

  /** The markers left after removing the keys ks. */
  function Without(m: map<string, Marcador>, ks: set<string>): map<string, Marcador>
  {
    map k | k in m && k !in ks :: m[k]
  }

  /** The ids of the markers with keys in ks. */
  function IdsOf(m: map<string, Marcador>, ks: set<string>): set<nat>
  {
    set k | k in ks && k in m :: m[k].id
  }

  /** markerMap after a successful update. */
  function Updated(m: map<string, Marcador>, stations: seq<Dados>, categorize: Dados -> Cat.Category): map<string, Marcador>
  {
    var p := Compared(m, stations, categorize);
    Without(p.markers, p.currentCodes)
  }

  /** After update the keys are the previous keys that some new station has: none is ever added. */
  lemma {:induction false} UpdatedKeys(m: map<string, Marcador>, stations: seq<Dados>, categorize: Dados -> Cat.Category)
    ensures forall k :: k in Updated(m, stations, categorize) <==> k in m && Listed(stations, k)
  {
    ComparedKeys(m, stations, categorize);
  }

  /**
   * Within one update both categories are computed at the same instant, so
   * the category test adds nothing to the data test: a station that turns
   * stale with unchanged data is not reported.
   */
  lemma {:induction false} CategoryTestAddsNothing(stored: Dados, station: Dados, categorize: Dados -> Cat.Category)
    ensures Mudou(stored, station, categorize) <==> stored != station
  {
  }

  /**
   * The stored data carries the three classification fields, so a station
   * sent without them counts as changed at every later update, even when
   * it is sent again unchanged.
   */
  lemma {:induction false} UpdateAgainChanges(m: map<string, Marcador>, s: Dados, categorize: Dados -> Cat.Category)
    requires KeyOf(s.codigoestacao) in m && Mudou(m[KeyOf(s.codigoestacao)].stationData, s, categorize)
    requires s.classificacaoChuva.None?
    ensures var once := Updated(m, [s], categorize);
      Compared(m, [s], categorize).houveMudanca && Compared(once, [s], categorize).houveMudanca
  {
    var code := KeyOf(s.codigoestacao);
    var e: seq<Dados> := [];
    assert [s][..0] == e;
    assert Compared(m, e, categorize) == Passo(m, m.Keys, false);
    var p := Compared(m, [s], categorize);
    assert p == UpdateStep(Passo(m, m.Keys, false), s, categorize);
    var once := Updated(m, [s], categorize);
    assert once == Without(p.markers, p.currentCodes);
    assert code in once;
    assert once[code].stationData.classificacaoChuva.Some?;
  }

  // setHighRainAlert

  /** markerMap after setHighRainAlert(stationCode, isAlert). */
  function WithAlert(m: map<string, Marcador>, stationCode: Codigo, isAlert: bool): map<string, Marcador>
  {
    var code := KeyOf(stationCode);
    if code in m then m[code := m[code].(stationData := m[code].stationData.(highRainAlert := Some(isAlert)))] else m
  }

  /** An unknown code changes nothing; a known one sets that marker's flag and nothing else. */
  lemma {:induction false} WithAlertMeaning(m: map<string, Marcador>, stationCode: Codigo, isAlert: bool)
    ensures var r := WithAlert(m, stationCode, isAlert); var code := KeyOf(stationCode);
      r.Keys == m.Keys
      && (code !in m ==> r == m)
      && (forall k :: k in m && k != code ==> r[k] == m[k])
      && (code in m ==>
            r[code].stationData.highRainAlert == Some(isAlert) && r[code].id == m[code].id
            && r[code].stationData.(highRainAlert := m[code].stationData.highRainAlert) == m[code].stationData)
  {
  }

  // getMarkerColorByType

  const GeneralColor: string := "#FFFFFF"

  /** MARKER_STYLE_CONFIG.chuva, nivel and vazao: the colour of each classification. */
  const ChuvaColors: map<string, string> := map[
    "Indefinido" := "#CCCCCC", "Sem Chuva" := "#AAAAAA", "Fraca" := "#00FF00", "Moderada" := "#FFFF00",
    "Forte" := "#FFA500", "Muito Forte" := "#FF0000", "Extrema" := "#27046b", "default" := "#FFFFFF"]
  const NivelColors: map<string, string> := map[
    "Indefinido" := "#CCCCCC", "Baixo" := "#00FFFF", "Normal" := "#00AAFF", "Alto" := "#0000FF", "default" := "#FFFFFF"]
  const VazaoColors: map<string, string> := map[
    "Indefinido" := "#CCCCCC", "Baixa" := "#FF00FF", "Normal" := "#FFAA00", "Alta" := "#C62E2E", "default" := "#FFFFFF"]

  /** `classification || 'default'` */
  function ClassOr(c: Option<string>): string
  {
    if c.Some? && c.value != "" then c.value else "default"
  }

  /** `(table[classification] || table.default).color` */
  function ColorIn(table: map<string, string>, classification: string): string
    requires "default" in table
  {
    if classification in table then table[classification] else table["default"]
  }

  function MarkerColor(d: Dados, layerType: string): string
  {
    if layerType == "chuva" then ColorIn(ChuvaColors, ClassOr(d.classificacaoChuva))
    else if layerType == "nivel" then ColorIn(NivelColors, ClassOr(d.classificacaoNivel))
    else if layerType == "vazao" then ColorIn(VazaoColors, ClassOr(d.classificacaoVazao))
    else GeneralColor
  }

  /** The classification a layer type reads, and its colour table. */
  function ClassFor(d: Dados, layerType: string): Option<string>
  {
    if layerType == "chuva" then d.classificacaoChuva
    else if layerType == "nivel" then d.classificacaoNivel
    else d.classificacaoVazao
  }

  function TableFor(layerType: string): map<string, string>
  {
    if layerType == "chuva" then ChuvaColors else if layerType == "nivel" then NivelColors else VazaoColors
  }

  /**
   * A marker without a known classification, and any layer type other than
   * the three, gets the general colour; a known one gets its table's entry.
   */
  lemma {:induction false} MarkerColorMeaning(d: Dados, layerType: string)
    ensures layerType !in {"chuva", "nivel", "vazao"} ==> MarkerColor(d, layerType) == GeneralColor
    ensures layerType in {"chuva", "nivel", "vazao"} ==>
      var c := ClassFor(d, layerType);
      MarkerColor(d, layerType) == if c.Some? && c.value in TableFor(layerType) then TableFor(layerType)[c.value] else GeneralColor
  {
  }

  /**
   * A marker reclassified from categorizeStation's result gets its own
   * entry in each table, never the fallback, and distinct rain classes get
   * distinct colours.
   */
  lemma {:induction false} ReclassifiedColors(s: Dados, station: Rec.Station, now: int, parse: string -> Option<int>)
    ensures var c := Cat.CategorizeStation(station, now, parse); var d := Reclassified(s, c);
      c.rainClass in ChuvaColors && c.rainClass != "default" && MarkerColor(d, "chuva") == ChuvaColors[c.rainClass]
      && c.levelClass in NivelColors && c.levelClass != "default" && MarkerColor(d, "nivel") == NivelColors[c.levelClass]
      && c.dischargeClass in VazaoColors && c.dischargeClass != "default" && MarkerColor(d, "vazao") == VazaoColors[c.dischargeClass]
  {
    var records := Cat.RecordsOf(station);
    var latest := Cat.GetLatestRecord(records, parse);
    ClassesColored(Cat.CalculateAccumulatedRainfall(records, Cat.ReferenceDate(records, now, parse), parse),
      if latest.Some? then latest.value.level else Null, if latest.Some? then latest.value.discharge else Null);
  }

  /** Every class the classifiers produce has its own entry in its colour table. */
  lemma {:induction false} ClassesColored(total: Option<real>, level: Datum, discharge: Datum)
    ensures Cat.ClassifyRainfall(total) in ChuvaColors && Cat.ClassifyRainfall(total) != "default"
    ensures Cat.ClassifyLevel(level) in NivelColors && Cat.ClassifyLevel(level) != "default"
    ensures Cat.ClassifyDischarge(discharge) in VazaoColors && Cat.ClassifyDischarge(discharge) != "default"
  {
  }

  /** The rain colours tell the seven classes apart. */
  lemma {:induction false} RainColorsDistinct(a: string, b: string)
    requires a in ChuvaColors && b in ChuvaColors && a != b && a != "default" && b != "default"
    ensures ChuvaColors[a] != ChuvaColors[b]
  {
  }

  /** The exception update raises: removeLayer on a currentMap that is still null. */
  datatype Erro = TypeError

  /** The module's state: currentMap, the hybrid layer of both sublayers and markerMap. */
  class StationMarkers {
    const hybrid: HybridLayer
    var currentMap: Mapa?
    var markerMap: map<string, Marcador>
    /** The next Leaflet id L.stamp hands out. */
    var nextId: nat

    constructor(clusterLayer: Grupo, noClusterLayer: Grupo)
      ensures currentMap == null && markerMap == map[] && fresh(hybrid)
      ensures hybrid.clusterLayer == clusterLayer && hybrid.noClusterLayer == noClusterLayer && hybrid.isClusterActive
    {
      hybrid := new HybridLayer(clusterLayer, noClusterLayer, true);
      currentMap := null;
      markerMap := map[];
      nextId := 0;
    }

    /** initialize: remember the map and add the hybrid layer to it. */
    method Initialize(m: Mapa)
      modifies this, hybrid, m
      ensures currentMap == m && markerMap == old(markerMap) && hybrid.mapa == m
      ensures m.layers == old(m.layers) + {hybrid.Active()}
    {
      currentMap := m;
      hybrid.OnAdd(m);
    }

    /**
     * load, given the parsed response (None when the fetch fails or the
     * status is not ok). The chuvaValor text load computes is passed as a
     * third argument that createMarkerFromStation does not take, so no
     * marker keeps it.
     */
    method Load(stations: Option<seq<Dados>>)
      modifies this, hybrid.clusterLayer, hybrid.noClusterLayer
      ensures currentMap == old(currentMap)
      ensures stations.None? ==>
          markerMap == old(markerMap) && nextId == old(nextId)
          && hybrid.clusterLayer.markers == old(hybrid.clusterLayer.markers) && hybrid.noClusterLayer.markers == old(hybrid.noClusterLayer.markers)
      ensures stations.Some? ==> var r := Loaded(Carga(old(markerMap), old(nextId), {}), stations.value);
        markerMap == r.markers && nextId == r.nextId
        && hybrid.clusterLayer.markers == old(hybrid.clusterLayer.markers) + r.added
        && hybrid.noClusterLayer.markers == old(hybrid.noClusterLayer.markers) + r.added
    {
      if stations.None? {
        return;
      }
      var ss := stations.value;
      ghost var c0 := Carga(markerMap, nextId, {});
      ghost var cl0, ncl0 := hybrid.clusterLayer.markers, hybrid.noClusterLayer.markers;
      ghost var added: set<nat> := {};
      var i := 0;
      while i < |ss|
        invariant 0 <= i <= |ss| && currentMap == old(currentMap)
        invariant Carga(markerMap, nextId, added) == Loaded(c0, ss[..i])
        invariant hybrid.clusterLayer.markers == cl0 + added && hybrid.noClusterLayer.markers == ncl0 + added
      {
        assert ss[..i + 1][..i] == ss[..i];
        var station := ss[i];
        var code := KeyOf(station.codigoestacao);
        if code !in markerMap {
          if HasCoordinates(station) {
            var marker := Marcador(nextId, station);
            markerMap := markerMap[code := marker];
            hybrid.AddLayer(marker.id);
            added := added + {nextId};
            nextId := nextId + 1;
          }
        }
        i := i + 1;
      }
      assert ss[..|ss|] == ss;
    }

    /**
     * update: reclassify the markers whose data changed, then remove the
     * markers of codes no longer listed; the result says whether the
     * classification layers are refreshed. Removing a marker from a
     * currentMap that is still null throws.
     */
    method Update(newStations: seq<Dados>, categorize: Dados -> Cat.Category) returns (r: Result<bool, Erro>)
      modifies this, hybrid.clusterLayer, hybrid.noClusterLayer
      ensures currentMap == old(currentMap) && nextId == old(nextId)
      ensures var p := Compared(old(markerMap), newStations, categorize);
        (r.Success? <==> old(currentMap) != null || p.currentCodes == {})
        && (r.Success? ==>
              r.value == p.houveMudanca && markerMap == Without(p.markers, p.currentCodes)
              && hybrid.clusterLayer.markers == old(hybrid.clusterLayer.markers) - IdsOf(p.markers, p.currentCodes)
              && hybrid.noClusterLayer.markers == old(hybrid.noClusterLayer.markers) - IdsOf(p.markers, p.currentCodes))
        && (r.Failure? ==>
              markerMap == p.markers
              && (exists k :: k in p.currentCodes && k in p.markers
                    && hybrid.clusterLayer.markers == old(hybrid.clusterLayer.markers) - {p.markers[k].id}
                    && hybrid.noClusterLayer.markers == old(hybrid.noClusterLayer.markers) - {p.markers[k].id}))
    {
      ghost var m0 := markerMap;
      var currentCodes := markerMap.Keys;
      var houveMudanca := false;
      var i := 0;
      while i < |newStations|
        invariant 0 <= i <= |newStations| && currentMap == old(currentMap) && nextId == old(nextId)
        invariant Passo(markerMap, currentCodes, houveMudanca) == Compared(m0, newStations[..i], categorize)
        invariant hybrid.clusterLayer.markers == old(hybrid.clusterLayer.markers)
        invariant hybrid.noClusterLayer.markers == old(hybrid.noClusterLayer.markers)
      {
        assert newStations[..i + 1][..i] == newStations[..i];
        var station := newStations[i];
        var code := KeyOf(station.codigoestacao);
        if code in markerMap {
          var marker := markerMap[code];
          var oldCategory := categorize(marker.stationData);
          var newCategory := categorize(station);
          var dadosMudaram := marker.stationData != station;
          var categoriaMudou := oldCategory != newCategory;
          if dadosMudaram || categoriaMudou {
            markerMap := markerMap[code := marker.(stationData := Reclassified(station, newCategory))];
            houveMudanca := true;
          }
          currentCodes := currentCodes - {code};
        }
        i := i + 1;
      }
      assert newStations[..|newStations|] == newStations;
      ComparedKeys(m0, newStations, categorize);
      var ok := RemoveStale(currentCodes);
      r := if ok then Success(houveMudanca) else Failure(TypeError);
    }

    /**
     * update's second loop: take each stale marker out of the hybrid layer
     * and markerMap; with no map, the first removal throws.
     */
    method RemoveStale(currentCodes: set<string>) returns (ok: bool)
      requires currentCodes <= markerMap.Keys
      modifies this, hybrid.clusterLayer, hybrid.noClusterLayer
      ensures currentMap == old(currentMap) && nextId == old(nextId)
      ensures ok <==> currentMap != null || currentCodes == {}
      ensures ok ==>
        markerMap == Without(old(markerMap), currentCodes)
        && hybrid.clusterLayer.markers == old(hybrid.clusterLayer.markers) - IdsOf(old(markerMap), currentCodes)
        && hybrid.noClusterLayer.markers == old(hybrid.noClusterLayer.markers) - IdsOf(old(markerMap), currentCodes)
      ensures !ok ==>
        markerMap == old(markerMap)
        && (exists k :: k in currentCodes && k in old(markerMap)
              && hybrid.clusterLayer.markers == old(hybrid.clusterLayer.markers) - {old(markerMap)[k].id}
              && hybrid.noClusterLayer.markers == old(hybrid.noClusterLayer.markers) - {old(markerMap)[k].id})
    {
      ghost var m0 := markerMap;
      var pending := currentCodes;
      while pending != {}
        invariant pending <= currentCodes && currentMap == old(currentMap) && nextId == old(nextId)
        invariant markerMap == Without(m0, currentCodes - pending)
        invariant hybrid.clusterLayer.markers == old(hybrid.clusterLayer.markers) - IdsOf(m0, currentCodes - pending)
        invariant hybrid.noClusterLayer.markers == old(hybrid.noClusterLayer.markers) - IdsOf(m0, currentCodes - pending)
        invariant currentMap == null ==> pending == currentCodes
        decreases pending
      {
        var code :| code in pending;
        ghost var gone := currentCodes - pending;
        assert code in markerMap;
        var marker := markerMap[code];
        assert IdsOf(m0, gone + {code}) == IdsOf(m0, gone) + {marker.id};
        hybrid.RemoveLayer(marker.id);
        if currentMap == null {
          assert gone == {};
          return false;
        }
        markerMap := markerMap - {code};
        pending := pending - {code};
        assert currentCodes - pending == gone + {code};
      }
      assert currentCodes - pending == currentCodes;
      ok := true;
    }

    /** clear: empty the hybrid layer and markerMap. */
    method Clear()
      modifies this, hybrid.clusterLayer, hybrid.noClusterLayer
      ensures markerMap == map[] && currentMap == old(currentMap) && nextId == old(nextId)
      ensures hybrid.clusterLayer.markers == if hybrid.clusterLayer.hasClearLayers then {} else old(hybrid.clusterLayer.markers)
      ensures hybrid.noClusterLayer.markers == if hybrid.noClusterLayer.hasClearLayers then {} else old(hybrid.noClusterLayer.markers)
    {
      hybrid.ClearLayers();
      markerMap := map[];
    }

    /** setHighRainAlert: set the flag on the marker of that code, if there is one. */
    method SetHighRainAlert(stationCode: Codigo, isAlert: bool)
      modifies this
      ensures markerMap == WithAlert(old(markerMap), stationCode, isAlert)
      ensures currentMap == old(currentMap) && nextId == old(nextId)
    {
      var code := KeyOf(stationCode);
      if code !in markerMap {
        return;
      }
      var marker := markerMap[code];
      markerMap := markerMap[code := marker.(stationData := marker.stationData.(highRainAlert := Some(isAlert)))];
    }
  }
}
