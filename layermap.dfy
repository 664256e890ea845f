/**
 * The Leaflet map the three scripts share, reduced to what they change on it:
 * the set of layers currently added, the zoom level and the view centre.
 */
module LayerMap {
  import opened Wrappers

  datatype LatLng = LatLng(lat: real, lng: real)

  /**
   * The layers the application adds to the map. Each rebuild of the
   * property cluster group and each search pin is a new Leaflet object, told
   * apart here by a serial number.
   */
  datatype Layer =
    | BaseTiles
    | PropertyFootprints
    | ExemptionPoints
    | CensusTracts
    | HighHighHotspots
    | PropertyClusters(generation: nat)
    | SearchPin(serial: nat)

  /**
   * The layer set after a visibility rule: `layer` is present exactly when
   * `show` holds, and every other layer is as it was.
   */
  function ShowIf(layers: set<Layer>, layer: Layer, show: bool): (r: set<Layer>)
    ensures layer in r <==> show
    ensures forall l | l != layer :: l in r <==> l in layers
  {
    if show then layers + {layer} else layers - {layer}
  }

  /** `layers` without the given layer, when there is one. */
  function Without(layers: set<Layer>, layer: Option<Layer>): (rest: set<Layer>)
  {
    if layer.Some? then layers - {layer.value} else layers
  }

  /** Applying a visibility rule twice is the same as applying it once. */
  lemma ShowIfIdempotent(layers: set<Layer>, layer: Layer, show: bool)
    ensures ShowIf(ShowIf(layers, layer, show), layer, show) == ShowIf(layers, layer, show)
  {
  }

  /** Rules for two different layers do not interfere: they commute. */
  lemma ShowIfCommutes(layers: set<Layer>, a: Layer, showA: bool, b: Layer, showB: bool)
    requires a != b
    ensures ShowIf(ShowIf(layers, a, showA), b, showB) == ShowIf(ShowIf(layers, b, showB), a, showA)
  {
  }

  class LeafletMap {
    var layers: set<Layer>
    var zoom: int
    var center: LatLng

    /** `L.map(...).setView(center, zoom)`: a map with no layers yet. */
    constructor (center: LatLng, zoom: int)
      ensures this.layers == {} && this.zoom == zoom && this.center == center
    {
      this.layers := {};
      this.zoom := zoom;
      this.center := center;
    }

    /** `map.hasLayer(layer)`. */
    method HasLayer(layer: Layer) returns (present: bool)
      ensures present <==> layer in layers
    {
      present := layer in layers;
    }

    /** `map.addLayer(layer)`; adding a layer already present changes nothing. */
    method AddLayer(layer: Layer)
      modifies this
      ensures layers == old(layers) + {layer}
      ensures zoom == old(zoom) && center == old(center)
    {
      layers := layers + {layer};
    }

    /** `map.removeLayer(layer)`; removing a layer not present changes nothing. */
    method RemoveLayer(layer: Layer)
      modifies this
      ensures layers == old(layers) - {layer}
      ensures zoom == old(zoom) && center == old(center)
    {
      layers := layers - {layer};
    }

    /** `map.setView(center, zoom)`: moves the view, leaves the layers alone. */
    method SetView(center: LatLng, zoom: int)
      modifies this
      ensures this.center == center && this.zoom == zoom && layers == old(layers)
    {
      this.center := center;
      this.zoom := zoom;
    }
  }
}
