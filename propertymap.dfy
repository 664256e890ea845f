/**
 * `property-map.js`: the zoom-driven visibility of the property footprints,
 * the exemption points and the high-high hotspot overlay, and the rebuild of
 * the clustered layer of not-yet-enrolled properties whenever the threshold
 * changes.
 */
module PropertyMap {
  import opened Wrappers
  import opened Seqs
  import opened Features
  import opened LayerMap

  /** Footprints and exemption points are shown from this zoom level up. */
  const DetailMinZoom: int := 18
  /** The hotspot overlay is shown up to this zoom level. */
  const HotspotMaxZoom: int := 15

  predicate DetailVisible(zoom: int) { zoom >= DetailMinZoom }
  predicate HotspotsVisible(zoom: int) { zoom <= HotspotMaxZoom }

  /** No zoom level shows both the hotspot overlay and the detailed layers. */
  lemma DetailAndHotspotsExclusive(zoom: int)
    ensures !(DetailVisible(zoom) && HotspotsVisible(zoom))
  {
  }

  const MinIconSize: real := 24.0
  const MaxIconSize: real := 120.0
  const MinCount: int := 1
  const MaxCount: int := 2000

  function Min(a: int, b: int): (m: int) { if a <= b then a else b }

  /**
   * The pixel size `iconCreateFunction` gives a cluster of `count` markers: a
   * linear interpolation from 24 at one marker to 120 at 2000 markers,
   * flat beyond 2000.
   */
  function IconSize(count: int): (size: real)
    ensures count >= MinCount ==> MinIconSize <= size <= MaxIconSize
    ensures count == MinCount ==> size == MinIconSize
    ensures count >= MaxCount ==> size == MaxIconSize
  {
    MinIconSize + (MaxIconSize - MinIconSize) *
      ((Min(count, MaxCount) - MinCount) as real / (MaxCount - MinCount) as real)
  }

  /** Between one and 2000 markers, each further marker adds 96/1999 px: the size is linear in the count. */
  lemma MarginalIconSize(count: int)
    requires MinCount <= count < MaxCount
    ensures IconSize(count + 1) == IconSize(count) + 96.0 / 1999.0
  {
  }

  /** A larger cluster never gets a smaller icon. */
  lemma IconSizeMonotone(smaller: int, larger: int)
    requires smaller <= larger
    ensures IconSize(smaller) <= IconSize(larger)
  {
  }

  /** A property marker: placed at the feature's point (GeoJSON's [lng, lat] turned into Leaflet's [lat, lng]) and carrying the feature for its popup and click handler. */
  datatype Marker = Marker(position: LatLng, feature: PropertyFeature)

  function MarkerFor(f: PropertyFeature): (marker: Marker)
    ensures marker.position.lat == f.coordinates.lat && marker.position.lng == f.coordinates.lng
    ensures marker.feature == f
  {
    Marker(LatLng(f.coordinates.lat, f.coordinates.lng), f)
  }

  class PropertyLayers {
    /** `propertyMap`, shared with the address search. */
    const view: LeafletMap
    /** `withoutExemptionData`: absent until its fetch completes. */
    var data: Option<seq<PropertyFeature>>
    /** `withoutExemptionClusterLayer` and the markers added to it. */
    var clusterLayer: Option<Layer>
    var clusterMarkers: seq<Marker>
    /** How many cluster groups have been created so far. */
    var generations: nat
    /** Whether the fetches behind `exemptionLayer` and `highHighLayer` have completed. */
    var exemptionsLoaded: bool
    var hotspotsLoaded: bool

    /**
     * At most one cluster group is ever on the map: the current one. The
     * exemption points and the hotspots are on the map only once their data
     * has loaded (`exemptionLayer` and `highHighLayer` are created by their fetches).
     */
    ghost predicate Valid()
      reads this, view
    {
      (clusterLayer.Some? ==>
         clusterLayer.value.PropertyClusters? && clusterLayer.value.generation < generations) &&
      (forall l | l in view.layers && l.PropertyClusters? :: clusterLayer == Some(l)) &&
      (!exemptionsLoaded ==> ExemptionPoints !in view.layers) &&
      (!hotspotsLoaded ==> HighHighHotspots !in view.layers)
    }

    /**
     * The synchronous part of `initializePropertyMap`: the map centred on
     * Philadelphia at zoom 16 with the base tiles, and the footprint rule
     * applied once.
     */
    constructor ()
      ensures Valid() && fresh(view)
      ensures view.zoom == 16 && view.center == LatLng(39.9526, -75.1652)
      ensures view.layers == {BaseTiles}
      ensures data == None && clusterLayer == None && clusterMarkers == []
      ensures !exemptionsLoaded && !hotspotsLoaded
    {
      view := new LeafletMap(LatLng(39.9526, -75.1652), 16);
      data := None;
      clusterLayer := None;
      clusterMarkers := [];
      generations := 0;
      exemptionsLoaded := false;
      hotspotsLoaded := false;
      new;
      view.AddLayer(BaseTiles);
      UpdateVectorLayerVisibility();
    }

    /** `updateVectorLayerVisibility`: footprints on the map exactly from zoom 18 up; nothing else changes. */
    method UpdateVectorLayerVisibility()
      requires Valid()
      modifies view
      ensures Valid()
      ensures view.layers == ShowIf(old(view.layers), PropertyFootprints, DetailVisible(view.zoom))
      ensures view.zoom == old(view.zoom) && view.center == old(view.center)
    {
      if view.zoom >= DetailMinZoom {
        var present := view.HasLayer(PropertyFootprints);
        if !present { view.AddLayer(PropertyFootprints); }
      } else {
        var present := view.HasLayer(PropertyFootprints);
        if present { view.RemoveLayer(PropertyFootprints); }
      }
    }

    /** `updateExemptionLayerVisibility`, which exists once the exemption data has loaded. */
    method UpdateExemptionLayerVisibility()
      requires Valid() && exemptionsLoaded
      modifies view
      ensures Valid()
      ensures view.layers == ShowIf(old(view.layers), ExemptionPoints, DetailVisible(view.zoom))
      ensures view.zoom == old(view.zoom) && view.center == old(view.center)
    {
      if view.zoom >= DetailMinZoom {
        var present := view.HasLayer(ExemptionPoints);
        if !present { view.AddLayer(ExemptionPoints); }
      } else {
        var present := view.HasLayer(ExemptionPoints);
        if present { view.RemoveLayer(ExemptionPoints); }
      }
    }

    /** `updateHighHighVisibility`: no effect before the overlay has loaded, else the overlay is on the map exactly up to zoom 15. */
    method UpdateHighHighVisibility()
      requires Valid()
      modifies view
      ensures Valid()
      ensures !hotspotsLoaded ==> view.layers == old(view.layers)
      ensures hotspotsLoaded ==> view.layers == ShowIf(old(view.layers), HighHighHotspots, HotspotsVisible(view.zoom))
      ensures view.zoom == old(view.zoom) && view.center == old(view.center)
    {
      if view.zoom <= HotspotMaxZoom {
        if hotspotsLoaded {
          var present := view.HasLayer(HighHighHotspots);
          if !present { view.AddLayer(HighHighHotspots); }
        }
      } else {
        if hotspotsLoaded {
          var present := view.HasLayer(HighHighHotspots);
          if present { view.RemoveLayer(HighHighHotspots); }
        }
      }
    }

    /** The exemption data arrives: its rule is applied at once (and on every later zoom). */
    method LoadExemptions()
      requires Valid()
      modifies this, view
      ensures Valid() && exemptionsLoaded
      ensures view.layers == ShowIf(old(view.layers), ExemptionPoints, DetailVisible(view.zoom))
      ensures view.zoom == old(view.zoom) && view.center == old(view.center)
      ensures data == old(data) && clusterLayer == old(clusterLayer) && clusterMarkers == old(clusterMarkers)
      ensures hotspotsLoaded == old(hotspotsLoaded)
    {
      exemptionsLoaded := true;
      UpdateExemptionLayerVisibility();
    }

    /** The census tract outlines arrive and are added to the map. */
    method LoadCensusTracts()
      requires Valid()
      modifies view
      ensures Valid()
      ensures view.layers == old(view.layers) + {CensusTracts}
      ensures view.zoom == old(view.zoom) && view.center == old(view.center)
    {
      view.AddLayer(CensusTracts);
    }

    /** The hotspot polygons arrive: their rule is applied at once (and on every later zoom). */
    method LoadHotspots()
      requires Valid()
      modifies this, view
      ensures Valid() && hotspotsLoaded
      ensures view.layers == ShowIf(old(view.layers), HighHighHotspots, HotspotsVisible(view.zoom))
      ensures view.zoom == old(view.zoom) && view.center == old(view.center)
      ensures data == old(data) && clusterLayer == old(clusterLayer) && clusterMarkers == old(clusterMarkers)
      ensures exemptionsLoaded == old(exemptionsLoaded)
    {
      hotspotsLoaded := true;
      UpdateHighHighVisibility();
    }

    /**
     * The `zoomend` event: the map is at `zoom` and every registered rule runs.
     * Afterwards each rule's layer is on the map exactly when its zoom test
     * holds, so the hotspots are never shown together with the footprints or
     * the exemption points.
     */
    method ZoomTo(zoom: int)
      requires Valid()
      modifies view
      ensures Valid()
      ensures view.zoom == zoom && view.center == old(view.center)
      ensures PropertyFootprints in view.layers <==> DetailVisible(zoom)
      ensures exemptionsLoaded ==> (ExemptionPoints in view.layers <==> DetailVisible(zoom))
      ensures hotspotsLoaded ==> (HighHighHotspots in view.layers <==> HotspotsVisible(zoom))
      ensures !(HighHighHotspots in view.layers && (PropertyFootprints in view.layers || ExemptionPoints in view.layers))
      ensures forall l | l !in {PropertyFootprints, ExemptionPoints, HighHighHotspots} ::
                l in view.layers <==> l in old(view.layers)
    {
      view.SetView(view.center, zoom);
      UpdateVectorLayerVisibility();
      if exemptionsLoaded {
        UpdateExemptionLayerVisibility();
      }
      UpdateHighHighVisibility();
    }

    /**
     * `updateWithoutExemptionLayer(threshold)`: the previous cluster group is
     * taken off the map; if the data has loaded, a new group holding one marker
     * per feature whose score meets the threshold, in feature order, is added.
     */
    method UpdateWithoutExemptionLayer(threshold: real)
      requires Valid()
      modifies this, view
      ensures Valid()
      ensures data == old(data) && exemptionsLoaded == old(exemptionsLoaded) && hotspotsLoaded == old(hotspotsLoaded)
      ensures view.zoom == old(view.zoom) && view.center == old(view.center)
      ensures data.None? ==>
                view.layers == Without(old(view.layers), old(clusterLayer)) &&
                clusterLayer == old(clusterLayer) && clusterMarkers == old(clusterMarkers)
      ensures data.Some? ==>
                clusterLayer == Some(PropertyClusters(old(generations))) &&
                view.layers == Without(old(view.layers), old(clusterLayer)) + {clusterLayer.value} &&
                clusterMarkers == Map(MarkerFor, AboveThreshold(data.value, threshold))
      ensures forall a, b | a in view.layers && b in view.layers && a.PropertyClusters? && b.PropertyClusters? :: a == b
    {
      if clusterLayer.Some? {
        view.RemoveLayer(clusterLayer.value);
      }
      if data.None? {
        return;
      }
      var filtered := AboveThreshold(data.value, threshold);
      var group := PropertyClusters(generations);
      generations := generations + 1;
      clusterLayer := Some(group);
      // The `forEach` that adds one marker per kept feature to the new group.
      var markers := [];
      var i := 0;
      while i < |filtered|
        invariant 0 <= i <= |filtered|
        invariant |markers| == i
        invariant forall k | 0 <= k < i :: markers[k] == MarkerFor(filtered[k])
      {
        markers := markers + [MarkerFor(filtered[i])];
        i := i + 1;
      }
      clusterMarkers := markers;
      view.AddLayer(group);
    }

    /** The not-yet-enrolled data arrives: the cluster layer is built at the default threshold 0.7. */
    method LoadWithoutExemptionData(features: seq<PropertyFeature>)
      requires Valid()
      modifies this, view
      ensures Valid() && data == Some(features)
      ensures clusterLayer == Some(PropertyClusters(old(generations)))
      ensures view.layers == Without(old(view.layers), old(clusterLayer)) + {clusterLayer.value}
      ensures clusterMarkers == Map(MarkerFor, AboveThreshold(features, 0.7))
      ensures view.zoom == old(view.zoom) && view.center == old(view.center)
      ensures exemptionsLoaded == old(exemptionsLoaded) && hotspotsLoaded == old(hotspotsLoaded)
    {
      data := Some(features);
      UpdateWithoutExemptionLayer(0.7);
    }
  }
}
