/**
 * HybridLayer: one map layer made of two sublayers holding the same
 * markers, one clustered and one not, of which exactly the active one is
 * on the map while the hybrid layer is. Layers are Leaflet objects here: a
 * group holds marker ids, a map holds groups.
 */
module HybridLayers {

  /** A LayerGroup or MarkerClusterGroup: the markers (by Leaflet id) it holds. */
  class Grupo {
    var markers: set<nat>
    /** Whether the group has a clearLayers method. */
    const hasClearLayers: bool

    constructor(hasClearLayers: bool)
      ensures markers == {} && this.hasClearLayers == hasClearLayers
    {
      markers := {};
      this.hasClearLayers := hasClearLayers;
    }

    method AddLayer(m: nat)
      modifies this
      ensures markers == old(markers) + {m}
    {
      markers := markers + {m};
    }

    method RemoveLayer(m: nat)
      modifies this
      ensures markers == old(markers) - {m}
    {
      markers := markers - {m};
    }

    method ClearLayers()
      requires hasClearLayers
      modifies this
      ensures markers == {}
    {
      markers := {};
    }
  }

  /** A Leaflet map: the groups on it. */
  class Mapa {
    var layers: set<Grupo>

    constructor()
      ensures layers == {}
    {
      layers := {};
    }

    method AddLayer(g: Grupo)
      modifies this
      ensures layers == old(layers) + {g}
    {
      layers := layers + {g};
    }

    method RemoveLayer(g: Grupo)
      modifies this
      ensures layers == old(layers) - {g}
    {
      layers := layers - {g};
    }
  }

  class HybridLayer {
    const clusterLayer: Grupo
    const noClusterLayer: Grupo
    var isClusterActive: bool
    /** _map: the map the layer was added to, or null. */
    var mapa: Mapa?

    /** The sublayer the flag selects. */
    function Active(): Grupo
      reads this
    {
      if isClusterActive then clusterLayer else noClusterLayer
    }

    /** The other sublayer. */
    function Inactive(): Grupo
      reads this
    {
      if isClusterActive then noClusterLayer else clusterLayer
    }

    /** While attached, the active sublayer is on the map and the other is not. */
    ghost predicate Shown()
      reads this, mapa
    {
      mapa != null ==> Active() in mapa.layers && Inactive() !in mapa.layers
    }

    /** Both sublayers hold the same markers. */
    ghost predicate SameContents()
      reads this, clusterLayer, noClusterLayer
    {
      clusterLayer.markers == noClusterLayer.markers
    }

    /** A new hybrid layer is detached; the cluster flag defaults to true at the call site. */
    constructor(clusterLayer: Grupo, noClusterLayer: Grupo, isClusterActive: bool := true)
      ensures this.clusterLayer == clusterLayer && this.noClusterLayer == noClusterLayer
      ensures this.isClusterActive == isClusterActive && mapa == null
    {
      this.clusterLayer := clusterLayer;
      this.noClusterLayer := noClusterLayer;
      this.isClusterActive := isClusterActive;
      mapa := null;
    }

    /** onAdd: attach and put the active sublayer on the map. */
    method OnAdd(m: Mapa)
      modifies this, m
      ensures mapa == m && isClusterActive == old(isClusterActive)
      ensures m.layers == old(m.layers) + {Active()}
      ensures Inactive() !in old(m.layers) && clusterLayer != noClusterLayer ==> Shown()
    {
      mapa := m;
      if isClusterActive {
        m.AddLayer(clusterLayer);
      } else {
        m.AddLayer(noClusterLayer);
      }
    }

    /** onRemove: take both sublayers off the map and detach. */
    method OnRemove(m: Mapa)
      modifies this, m
      ensures mapa == null && isClusterActive == old(isClusterActive)
      ensures m.layers == old(m.layers) - {clusterLayer, noClusterLayer}
    {
      m.RemoveLayer(clusterLayer);
      m.RemoveLayer(noClusterLayer);
      mapa := null;
    }

    /**
     * setClusterActive: nothing while detached or when the flag already has
     * that value; otherwise set it and swap the sublayers on the map.
     */
    method SetClusterActive(isActive: bool)
      modifies this, if mapa != null then {mapa} else {}
      ensures mapa == old(mapa)
      ensures old(mapa) == null || old(isClusterActive) == isActive ==>
        isClusterActive == old(isClusterActive) && (mapa != null ==> mapa.layers == old(mapa.layers))
      ensures old(mapa) != null ==> isClusterActive == isActive
      ensures old(mapa) != null && old(isClusterActive) != isActive ==>
        mapa.layers == old(mapa.layers) - {Inactive()} + {Active()}
      ensures old(Shown()) ==> Shown()
      ensures old(mapa) != null && old(isClusterActive) != isActive && clusterLayer != noClusterLayer ==> Shown()
    {
      if mapa == null {
        return;
      }
      if isClusterActive == isActive {
        return;
      }
      isClusterActive := isActive;
      if isActive {
        mapa.RemoveLayer(noClusterLayer);
        mapa.AddLayer(clusterLayer);
      } else {
        mapa.RemoveLayer(clusterLayer);
        mapa.AddLayer(noClusterLayer);
      }
    }

    /** addLayer: the marker goes into both sublayers. */
    method AddLayer(m: nat)
      modifies clusterLayer, noClusterLayer
      ensures clusterLayer.markers == old(clusterLayer.markers) + {m}
      ensures noClusterLayer.markers == old(noClusterLayer.markers) + {m}
      ensures old(SameContents()) ==> SameContents()
    {
      clusterLayer.AddLayer(m);
      noClusterLayer.AddLayer(m);
    }

    /** removeLayer: the marker leaves both sublayers. */
    method RemoveLayer(m: nat)
      modifies clusterLayer, noClusterLayer
      ensures clusterLayer.markers == old(clusterLayer.markers) - {m}
      ensures noClusterLayer.markers == old(noClusterLayer.markers) - {m}
      ensures old(SameContents()) ==> SameContents()
    {
      clusterLayer.RemoveLayer(m);
      noClusterLayer.RemoveLayer(m);
    }

    /** clearLayers: empty each sublayer that has a clearLayers method. */
    method ClearLayers()
      modifies clusterLayer, noClusterLayer
      ensures clusterLayer.markers == if clusterLayer.hasClearLayers then {} else old(clusterLayer.markers)
      ensures noClusterLayer.markers == if noClusterLayer.hasClearLayers then {} else old(noClusterLayer.markers)
      ensures clusterLayer.hasClearLayers && noClusterLayer.hasClearLayers ==> SameContents()
    {
      if clusterLayer.hasClearLayers {
        clusterLayer.ClearLayers();
      }
      if noClusterLayer.hasClearLayers {
        noClusterLayer.ClearLayers();
      }
    }
  }
}
