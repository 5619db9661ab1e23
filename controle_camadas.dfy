/**
 * The layer control's bookkeeping: the order of the overlays by the
 * priority list, the parts of an imported file's label, refreshOverlays'
 * file-label test and applyOverlayStyles' imported-layer test, and
 * refreshOverlays, which merges new overlays into the control's list.
 * A JavaScript object is a sequence of (name, layer) entries in insertion
 * order; a layer is its object identity.
 */
module ControleCamadas {
  import opened Common
  import opened Text
  import opened Seqs
  import opened Sorting
  import Arquivos = GerenciadorArquivos

  /** The overlay names in the order the control lists them. */
  const OrdemGeral: seq<string> := [
    "Todas Estações",
    "Chuva - Extrema", "Chuva - Muito Forte", "Chuva - Forte", "Chuva - Moderada",
    "Chuva - Fraca", "Chuva - Sem Chuva", "Chuva - Indefinido",
    "Nível - Alto", "Nível - Normal", "Nível - Baixo", "Nível - Indefinido",
    "Vazão - Alta", "Vazão - Normal", "Vazão - Baixa", "Vazão - Indefinido"]

  /** The rank of a name missing from the list. */
  const Unlisted: int := 999

  /** One entry of an object of overlays. */
  datatype Overlay = Overlay(name: string, layer: nat)

  /** The comparator's key: the position in the list, or 999. */
  function Rank(ordem: seq<string>): Overlay -> int
  {
    (o: Overlay) => var i := IndexOf(ordem, o.name); if i == -1 then Unlisted else i
  }

  /** ordenarCamadas: the entries stably sorted by rank. */
  function OrdenarCamadas(camadas: seq<Overlay>, ordem: seq<string>): (r: seq<Overlay>)
    ensures multiset(r) == multiset(camadas)
  {
    SortBy(camadas, Rank(ordem), IntLe)
  }

  /** The entries come out by rank, and the unlisted ones keep their relative order. */
  lemma {:induction false} OrdenarCamadasOrder(camadas: seq<Overlay>, ordem: seq<string>)
    ensures var r := OrdenarCamadas(camadas, ordem);
      (forall i, j :: 0 <= i < j < |r| ==> Rank(ordem)(r[i]) <= Rank(ordem)(r[j]))
      && KeyFilter(r, Rank(ordem), Unlisted) == KeyFilter(camadas, Rank(ordem), Unlisted)
  {
    NumericOrders();
    SortBySorted(camadas, Rank(ordem), IntLe);
    SortByStable(camadas, Rank(ordem), IntLe, Unlisted);
  }

  /** With a list shorter than 999 names every listed entry comes before every unlisted one, in list order. */
  lemma {:induction false} OrdenarCamadasListedFirst(camadas: seq<Overlay>, ordem: seq<string>)
    requires |ordem| < Unlisted
    ensures var r := OrdenarCamadas(camadas, ordem);
      forall i, j :: 0 <= i < j < |r| && r[j].name in ordem ==>
        r[i].name in ordem && IndexOf(ordem, r[i].name) <= IndexOf(ordem, r[j].name)
  {
    OrdenarCamadasOrder(camadas, ordem);
  }

  /** The priority list used by the control is short enough. */
  lemma {:induction false} OrdemGeralShort()
    ensures |OrdemGeral| == 16 && |OrdemGeral| < Unlisted
  {
  }

  /** FILE_TYPE_ICONS[extension] || FILE_TYPE_ICONS.default */
  function Icon(extension: string): string
  {
    if extension == "geojson" then "geojson.png"
    else if extension == "json" then "json.png"
    else if extension == "kml" then "kml.png"
    else if extension == "gpx" then "gpx.png"
    else "file.png"
  }

  /** The formats with an icon of their own. */
  predicate KnownFormat(extension: string)
  {
    extension in {"geojson", "json", "kml", "gpx"}
  }

  /** The name, extension and icon file shown in an imported overlay's label. */
  datatype RotuloArquivo = RotuloArquivo(name: string, extension: string, iconFile: string)

  /** createFileOverlayLabelHTML's split of the file name: kmz shows the kml icon. */
  function FileOverlayLabel(fileName: string): (r: RotuloArquivo)
    ensures r.iconFile == "file.png" <==> !KnownFormat(r.extension)
    ensures r.extension != "kmz"
  {
    var parts := Arquivos.GetFileNameParts(fileName);
    var extension := if parts.extension == "kmz" then "kml" else parts.extension;
    RotuloArquivo(parts.name, extension, Icon(extension))
  }

  /** "mapa.v2.KMZ" reads as the name "mapa.v2" with the kml icon. */
  lemma {:induction false} FileOverlayLabelParts(base: string, ext: string)
    requires '.' !in ext
    ensures var r := FileOverlayLabel(base + "." + ext);
      r.name == base
      && r.extension == (if ToLower(ext) == "kmz" then "kml" else ToLower(ext))
      && r.iconFile == Icon(r.extension)
  {
    Arquivos.FileNamePartsSplit(base, ext);
  }

  /** The label's markup, as the template literal writes it. */
  function LabelHtml(r: RotuloArquivo): string
  {
    "\n    <span class=\"layer-name\" data-layer=\"" + r.name + "\">\n      <img src=\"assets/icons/" + r.iconFile
    + "\" \n           alt=\"" + r.extension + "\" \n           class=\"layer-icon\"\n           title=\"Tipo de arquivo: "
    + r.extension + "\">\n      " + r.name + "\n    </span>\n  "
  }

  /** applyOverlayStyles' test for an imported layer: the exact, case-sensitive suffixes. */
  predicate IsImportedLayer(layerName: string)
  {
    EndsWith(layerName, ".json") || EndsWith(layerName, ".geojson") || EndsWith(layerName, ".kml") || EndsWith(layerName, ".gpx")
  }

  /** refreshOverlays' test for a file label: `/\.(json|geojson|kml|gpx)$/i`. */
  predicate FileStyle(nome: string)
  {
    var lower := ToLower(nome);
    EndsWith(lower, ".json") || EndsWith(lower, ".geojson") || EndsWith(lower, ".kml") || EndsWith(lower, ".gpx")
  }

  /**
   * The layerName applyOverlayStyles reads for an overlay refreshOverlays
   * added under nome. The <label> Leaflet builds carries no data-layer of
   * its own, so it is the label's trimmed text: the name itself, or under a
   * file label the base name before the last dot (names are read as text,
   * not as markup).
   */
  function StyledName(nome: string): string
  {
    if FileStyle(nome) then TrimJs(FileOverlayLabel(nome).name) else TrimJs(nome)
  }

  /** A text without a dot ends with none of the imported extensions. */
  lemma {:induction false} NoDotNotImported(s: string)
    requires '.' !in s
    ensures !IsImportedLayer(s)
  {
    if |s| >= 4 { assert s[|s| - 4..][0] == s[|s| - 4]; }
    if |s| >= 5 { assert s[|s| - 5..][0] == s[|s| - 5]; }
    if |s| >= 8 { assert s[|s| - 8..][0] == s[|s| - 8]; }
  }

  /** Trimming adds no dot. */
  lemma {:induction false} TrimNoDot(s: string)
    requires '.' !in s
    ensures '.' !in TrimJs(s)
  {
    TrimShape(s, IsJsSpace);
  }

  /** Lower-casing a character gives a dot only for a dot. */
  lemma {:induction false} LowerDot(s: string)
    requires '.' !in s
    ensures '.' !in ToLower(s)
  {
    var lower := ToLower(s);
    forall i | 0 <= i < |lower| ensures lower[i] != '.' {
      assert lower[i] == LowerChar(s[i]);
    }
  }

  /** A name without a dot gets a plain label, and the style pass gives it a colour indicator. */
  lemma {:induction false} DotlessNotImported(nome: string)
    requires '.' !in nome
    ensures !FileStyle(nome) && !IsImportedLayer(StyledName(nome))
  {
    LowerDot(nome);
    NoDotNotImported(ToLower(nome));
    TrimNoDot(nome);
    NoDotNotImported(TrimJs(nome));
  }

  /** A name holds at most one dot. */
  predicate OneDotAtMost(nome: string)
  {
    forall i, j :: 0 <= i < j < |nome| && nome[i] == '.' ==> nome[j] != '.'
  }

  /**
   * An imported file whose name has one dot, such as "rios.kml" or
   * "RIOS.KML", reaches the style pass as its base name, so it is styled as
   * a station layer, whatever the case of its extension.
   */
  lemma {:induction false} OneDotFileNotImported(nome: string)
    requires FileStyle(nome) && OneDotAtMost(nome)
    ensures !IsImportedLayer(StyledName(nome))
  {
    var k := LastIndexOf(nome, '.');
    if k == -1 {
      LowerDot(nome);
      NoDotNotImported(ToLower(nome));
    } else {
      var base := nome[..k];
      assert Arquivos.GetFileNameParts(nome).name == base;
      forall i | 0 <= i < |base| ensures base[i] != '.' {
        assert nome[i] == base[i];
      }
      TrimNoDot(base);
      NoDotNotImported(TrimJs(base));
    }
  }

  /** An entry of the control's _layers: its layer, its label (the name it was added under) and the overlay flag. */
  datatype Entry = Entry(layer: nat, name: string, overlay: bool)

  /** The label refreshOverlays adds an overlay under. */
  function LabelFor(nome: string): string
  {
    if FileStyle(nome) then LabelHtml(FileOverlayLabel(nome)) else nome
  }

  /** The position of the entry named k, or -1. */
  function Find(obj: seq<Overlay>, k: string): (r: int)
    ensures -1 <= r < |obj|
    ensures r >= 0 ==> obj[r].name == k && forall i :: 0 <= i < r ==> obj[i].name != k
    ensures r == -1 ==> forall i :: 0 <= i < |obj| ==> obj[i].name != k
  {
    if obj == [] then -1
    else if obj[0].name == k then 0
    else var i := Find(obj[1..], k); if i == -1 then -1 else i + 1
  }

  /** Find's contract determines its result. */
  lemma {:induction false} FindUnique(obj: seq<Overlay>, k: string, r: int)
    requires -1 <= r < |obj|
    requires r >= 0 ==> obj[r].name == k && forall i :: 0 <= i < r ==> obj[i].name != k
    requires r == -1 ==> forall i :: 0 <= i < |obj| ==> obj[i].name != k
    ensures Find(obj, k) == r
  {
  }

  /** `obj[k]`, or None when undefined. */
  function Lookup(obj: seq<Overlay>, k: string): Option<nat>
  {
    var i := Find(obj, k);
    if i == -1 then None else Some(obj[i].layer)
  }

  /** `obj[k] = v`: an existing key keeps its place, a new one goes last. */
  function Assign(obj: seq<Overlay>, k: string, v: nat): seq<Overlay>
  {
    var i := Find(obj, k);
    if i == -1 then obj + [Overlay(k, v)] else obj[i := Overlay(k, v)]
  }

  function NameOf(o: Overlay): string { o.name }

  /** The names of an object's entries. */
  ghost function Names(obj: seq<Overlay>): set<string>
  {
    KeySet(obj, NameOf)
  }

  /** No name occurs twice, as in any object. */
  ghost predicate Distinct(obj: seq<Overlay>)
  {
    DistinctKeys(obj, NameOf)
  }

  /** After `obj[k] = v`, k reads v and every other key reads as before. */
  lemma {:induction false} AssignLookup(obj: seq<Overlay>, k: string, v: nat, k': string)
    ensures Lookup(Assign(obj, k, v), k') == if k' == k then Some(v) else Lookup(obj, k')
  {
    var i := Find(obj, k);
    var r := Assign(obj, k, v);
    if i == -1 {
      if k' == k {
        FindUnique(r, k, |obj|);
      } else {
        FindUnique(r, k', Find(obj, k'));
      }
    } else {
      if k' == k {
        FindUnique(r, k, i);
      } else {
        FindUnique(r, k', Find(obj, k'));
      }
    }
  }

  /** `obj[k] = v` adds k to the names and keeps them distinct. */
  lemma {:induction false} AssignNames(obj: seq<Overlay>, k: string, v: nat)
    ensures Names(Assign(obj, k, v)) == Names(obj) + {k}
    ensures Distinct(obj) ==> Distinct(Assign(obj, k, v))
  {
    var i := Find(obj, k);
    var r := Assign(obj, k, v);
    if i == -1 {
      KeySetSnoc(obj, Overlay(k, v), NameOf);
    } else {
      forall x | x in Names(obj) ensures x in Names(r) {
        var y :| y in obj && y.name == x;
        var t :| 0 <= t < |obj| && obj[t] == y;
        assert r[t].name == x && r[t] in r;
      }
      forall x | x in Names(r) ensures x in Names(obj) {
        var y :| y in r && y.name == x;
        var t :| 0 <= t < |r| && r[t] == y;
        assert obj[t].name == x && obj[t] in obj;
      }
      assert obj[i] in obj;
    }
  }

  /** The value under k in an object built by assigning the entries of b in order: b's last for k. */
  function LastLookup(b: seq<Overlay>, k: string): Option<nat>
  {
    if b == [] then None
    else if b[|b| - 1].name == k then Some(b[|b| - 1].layer)
    else LastLookup(b[..|b| - 1], k)
  }

  /** `{ ...a, ...b }`: b's entries assigned onto a copy of a, in order. */
  function Spread(a: seq<Overlay>, b: seq<Overlay>): seq<Overlay>
  {
    if b == [] then a
    else Assign(Spread(a, b[..|b| - 1]), b[|b| - 1].name, b[|b| - 1].layer)
  }

  /** In the spread, a key of b reads b's value for it and any other key a's. */
  lemma {:induction false} SpreadLookup(a: seq<Overlay>, b: seq<Overlay>, k: string)
    ensures Lookup(Spread(a, b), k) == if LastLookup(b, k).Some? then LastLookup(b, k) else Lookup(a, k)
    decreases |b|
  {
    if b != [] {
      var init, x := b[..|b| - 1], b[|b| - 1];
      SpreadLookup(a, init, k);
      AssignLookup(Spread(a, init), x.name, x.layer, k);
    }
  }

  /** The spread has the names of both objects, and no name twice when a has none twice. */
  lemma {:induction false} SpreadNames(a: seq<Overlay>, b: seq<Overlay>)
    ensures Names(Spread(a, b)) == Names(a) + Names(b)
    ensures Distinct(a) ==> Distinct(Spread(a, b))
    decreases |b|
  {
    if b != [] {
      var init, x := b[..|b| - 1], b[|b| - 1];
      SpreadNames(a, init);
      AssignNames(Spread(a, init), x.name, x.layer);
      assert b == init + [x];
      KeySetSnoc(init, x, NameOf);
    }
  }

  /** existingOverlays: every overlay entry assigned under its label, in the control's order. */
  function ExistingOverlays(entries: seq<Entry>): (obj: seq<Overlay>)
    ensures Distinct(obj)
  {
    if entries == [] then []
    else
      var obj := ExistingOverlays(entries[..|entries| - 1]);
      var e := entries[|entries| - 1];
      if e.overlay then AssignNames(obj, e.name, e.layer); Assign(obj, e.name, e.layer) else obj
  }

  /** The overlays after the merge, in the order they are added back. */
  function Ordered(entries: seq<Entry>, newOverlays: seq<Overlay>): seq<Overlay>
  {
    OrdenarCamadas(Spread(ExistingOverlays(entries), newOverlays), OrdemGeral)
  }

  /** The overlay entries refreshOverlays adds back, each under its label. */
  function OverlayEntries(ordered: seq<Overlay>): (es: seq<Entry>)
    ensures |es| == |ordered|
    ensures forall i :: 0 <= i < |ordered| ==> es[i] == Entry(ordered[i].layer, LabelFor(ordered[i].name), true)
  {
    seq(|ordered|, i requires 0 <= i < |ordered| => Entry(ordered[i].layer, LabelFor(ordered[i].name), true))
  }

  /** A member of a distinct object is the entry its lookup finds. */
  lemma {:induction false} LookupMember(obj: seq<Overlay>, o: Overlay)
    requires Distinct(obj) && o in obj
    ensures Lookup(obj, o.name) == Some(o.layer)
  {
    var t :| 0 <= t < |obj| && obj[t] == o;
    forall i | 0 <= i < t ensures obj[i].name != o.name {
      assert NameOf(obj[i]) != NameOf(obj[t]);
    }
    FindUnique(obj, o.name, t);
  }

  /** The merged overlays have one entry per name that is an existing overlay's label or a key of newOverlays. */
  lemma {:induction false} OrderedNames(entries: seq<Entry>, newOverlays: seq<Overlay>)
    ensures var r := Ordered(entries, newOverlays);
      Distinct(r) && Names(r) == Names(ExistingOverlays(entries)) + Names(newOverlays)
  {
    var existing := ExistingOverlays(entries);
    var merged := Spread(existing, newOverlays);
    SpreadNames(existing, newOverlays);
    DistinctKeysPermutation(merged, Ordered(entries, newOverlays), NameOf);
  }

  /** Each merged overlay carries the new layer of its name when there is one, else the existing one. */
  lemma {:induction false} OrderedLayers(entries: seq<Entry>, newOverlays: seq<Overlay>, i: nat)
    requires i < |Ordered(entries, newOverlays)|
    ensures var o := Ordered(entries, newOverlays)[i];
      Some(o.layer) == if LastLookup(newOverlays, o.name).Some? then LastLookup(newOverlays, o.name)
                       else Lookup(ExistingOverlays(entries), o.name)
  {
    var existing := ExistingOverlays(entries);
    var merged := Spread(existing, newOverlays);
    var o := Ordered(entries, newOverlays)[i];
    SpreadNames(existing, newOverlays);
    assert o in multiset(merged);
    LookupMember(merged, o);
    SpreadLookup(existing, newOverlays, o.name);
  }

  function IsBase(e: Entry): bool { !e.overlay }

  /** The control's _layers after refreshOverlays: the base layers as they were, then the merged overlays. */
  function Refreshed(entries: seq<Entry>, newOverlays: seq<Overlay>): seq<Entry>
  {
    Filter(entries, IsBase) + OverlayEntries(Ordered(entries, newOverlays))
  }

  /** An overlay added under a file label is listed under its plain markup on the next refresh. */
  lemma {:induction false} LabelHtmlNotFileStyle(r: RotuloArquivo)
    ensures !FileStyle(LabelHtml(r))
  {
    var h := LabelHtml(r);
    var lower := ToLower(h);
    assert h[|h| - 1] == ' ';
    assert lower[|lower| - 1] == ' ';
  }

  /** L.Control.Layers: its list of entries. */
  class LayerControl {
    var layers: seq<Entry>

    constructor(layers: seq<Entry>)
      ensures this.layers == layers
    {
      this.layers := layers;
    }

    /** removeLayer on every overlay entry. */
    method RemoveOverlays()
      modifies this
      ensures layers == Filter(old(layers), IsBase)
    {
      layers := Filter(layers, IsBase);
    }

    /** addOverlay(layer, name) */
    method AddOverlay(layer: nat, name: string)
      modifies this
      ensures layers == old(layers) + [Entry(layer, name, true)]
    {
      layers := layers + [Entry(layer, name, true)];
    }
  }

  /**
   * The Leaflet map as refreshOverlays sees it: only its layerControl, once
   * one is initialised (HybridLayers.Mapa is the same map as the marker
   * layers see it).
   */
  class MapaComControle {
    var layerControl: LayerControl?

    constructor(layerControl: LayerControl?)
      ensures this.layerControl == layerControl
    {
      this.layerControl := layerControl;
    }
  }

  /** The loop that fills existingOverlays from the control's entries. */
  method CollectOverlays(entries: seq<Entry>) returns (existingOverlays: seq<Overlay>)
    ensures existingOverlays == ExistingOverlays(entries)
  {
    existingOverlays := [];
    var i := 0;
    while i < |entries|
      invariant 0 <= i <= |entries|
      invariant existingOverlays == ExistingOverlays(entries[..i])
    {
      assert entries[..i + 1][..i] == entries[..i];
      if entries[i].overlay {
        existingOverlays := Assign(existingOverlays, entries[i].name, entries[i].layer);
      }
      i := i + 1;
    }
    assert entries[..|entries|] == entries;
  }

  /** One more overlay adds one more entry at the end. */
  lemma {:induction false} OverlayEntriesSnoc(os: seq<Overlay>, j: nat)
    requires j < |os|
    ensures OverlayEntries(os[..j + 1]) == OverlayEntries(os[..j]) + [Entry(os[j].layer, LabelFor(os[j].name), true)]
  {
  }

  /** The loop of addOverlay calls, one per ordered overlay, under its chosen label. */
  method AddOverlays(layerControl: LayerControl, overlaysOrdenados: seq<Overlay>)
    modifies layerControl
    ensures layerControl.layers == old(layerControl.layers) + OverlayEntries(overlaysOrdenados)
  {
    ghost var before := layerControl.layers;
    var j := 0;
    while j < |overlaysOrdenados|
      invariant 0 <= j <= |overlaysOrdenados|
      invariant layerControl.layers == before + OverlayEntries(overlaysOrdenados[..j])
    {
      var o := overlaysOrdenados[j];
      var rotulo := LabelFor(o.name);
      OverlayEntriesSnoc(overlaysOrdenados, j);
      layerControl.AddOverlay(o.layer, rotulo);
      j := j + 1;
    }
    assert overlaysOrdenados[..j] == overlaysOrdenados;
  }

  /** existingOverlays is empty exactly when the control lists no overlay entry. */
  lemma {:induction false} ExistingOverlaysEmpty(entries: seq<Entry>)
    ensures ExistingOverlays(entries) == [] <==> forall i :: 0 <= i < |entries| ==> !entries[i].overlay
  {
    if entries != [] {
      var init := entries[..|entries| - 1];
      ExistingOverlaysEmpty(init);
      var e := entries[|entries| - 1];
      if e.overlay {
        var obj := ExistingOverlays(init);
        var i := Find(obj, e.name);
        assert |Assign(obj, e.name, e.layer)| > 0;
      } else {
        assert forall i :: 0 <= i < |init| ==> init[i] == entries[i];
      }
    }
  }

  /** The texts applyOverlayStyles reads from the control's overlay labels, in their order. */
  function LabelTexts(overlaysOrdenados: seq<Overlay>): seq<string>
  {
    seq(|overlaysOrdenados|, i requires 0 <= i < |overlaysOrdenados| => StyledName(overlaysOrdenados[i].name))
  }

  /**
   * applyOverlayStyles gives each label that does not read as an imported
   * layer a colour indicator from getMarkerColorFromLayerName, which
   * estiloMarcador.js does not export, so the first such label raises.
   */
  predicate StylePassRaises(labels: seq<string>)
  {
    exists i :: 0 <= i < |labels| && !IsImportedLayer(labels[i])
  }

  /** The loop of applyOverlayStyles over the label texts. */
  method ApplyOverlayStyles(labels: seq<string>) returns (raised: bool)
    ensures raised == StylePassRaises(labels)
  {
    var i := 0;
    while i < |labels|
      invariant 0 <= i <= |labels|
      invariant forall k :: 0 <= k < i ==> IsImportedLayer(labels[k])
    {
      if !IsImportedLayer(labels[i]) {
        return true;
      }
      i := i + 1;
    }
    return false;
  }

  /** A merged overlay whose name has no dot, such as every station layer, makes the style pass raise. */
  lemma {:induction false} DotlessOverlayRaises(overlaysOrdenados: seq<Overlay>, i: nat)
    requires i < |overlaysOrdenados| && '.' !in overlaysOrdenados[i].name
    ensures StylePassRaises(LabelTexts(overlaysOrdenados))
  {
    DotlessNotImported(overlaysOrdenados[i].name);
    assert LabelTexts(overlaysOrdenados)[i] == StyledName(overlaysOrdenados[i].name);
  }

  /**
   * refreshOverlays: nothing without a control. Saving previousStyles calls
   * getMarkerColorFromLayerName, which estiloMarcador.js does not export, so
   * the call raises as soon as one overlay exists, before any entry is
   * removed. Otherwise the overlay entries are rebuilt from the merge, and
   * applyOverlayStyles then raises at the first label that does not read as
   * an imported layer.
   */
  method RefreshOverlays(mapa: MapaComControle, newOverlays: seq<Overlay>) returns (raised: bool)
    modifies if mapa.layerControl != null then {mapa.layerControl} else {}
    ensures mapa.layerControl == null ==> !raised
    ensures mapa.layerControl != null && ExistingOverlays(old(mapa.layerControl.layers)) != [] ==>
      raised && mapa.layerControl.layers == old(mapa.layerControl.layers)
    ensures mapa.layerControl != null && ExistingOverlays(old(mapa.layerControl.layers)) == [] ==>
      mapa.layerControl.layers == Refreshed(old(mapa.layerControl.layers), newOverlays)
      && (raised <==> StylePassRaises(LabelTexts(Ordered(old(mapa.layerControl.layers), newOverlays))))
  {
    if mapa.layerControl == null {
      return false;
    }
    var layerControl := mapa.layerControl;
    var entries := layerControl.layers;
    var existingOverlays := CollectOverlays(entries);
    var overlaysOrdenados := OrdenarCamadas(Spread(existingOverlays, newOverlays), OrdemGeral);
    assert overlaysOrdenados == Ordered(entries, newOverlays);
    if existingOverlays != [] {
      return true;
    }
    layerControl.RemoveOverlays();
    AddOverlays(layerControl, overlaysOrdenados);
    raised := ApplyOverlayStyles(LabelTexts(overlaysOrdenados));
  }
}
