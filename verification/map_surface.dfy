/** The part of the Leaflet map the widget drives, kept abstract: the markers on
    it, the view (centre and zoom) and how many tile layers are attached. */
module MapSurface {
  import opened Places

  datatype LatLng = LatLng(lat: real, lng: real)

  /** The fallback view: central Bengaluru at zoom 11. */
  const Home := LatLng(12.9716, 77.5946)
  const HomeZoom := 11

  /** A marker with the popup bound to it, `<b>name</b><br>description`. */
  datatype Marker = Marker(position: LatLng, popup: string)

  function MarkerFor(p: Place): Marker
  {
    Marker(LatLng(p.latitude, p.longitude), "<b>" + p.name + "</b><br>" + p.description)
  }

  /** The markers that one pass over a list of places adds, in list order: one
      per place, at that place's coordinates. */
  function MarkersOf(ps: seq<Place>): (ms: seq<Marker>)
    ensures |ms| == |ps|
    ensures forall i :: 0 <= i < |ps| ==> ms[i].position == LatLng(ps[i].latitude, ps[i].longitude)
    ensures forall i :: 0 <= i < |ps| ==> ms[i].popup == "<b>" + ps[i].name + "</b><br>" + ps[i].description
  {
    if ps == [] then [] else MarkersOf(ps[..|ps| - 1]) + [MarkerFor(ps[|ps| - 1])]
  }

  /** Markers of places that are in range lie in range themselves. */
  lemma MarkersInBounds(ps: seq<Place>)
    requires forall i :: 0 <= i < |ps| ==> InBounds(ps[i])
    ensures forall m :: m in MarkersOf(ps) ==>
      -90.0 <= m.position.lat <= 90.0 && -180.0 <= m.position.lng <= 180.0
  {
  }

  /** The map instance (`mapRef.current`). */
  class MapView {
    var markers: seq<Marker>
    var tileLayers: nat
    var center: LatLng
    var zoom: int

    /** `L.map('map').setView([12.9716, 77.5946], 11)` followed by attaching
        the OpenStreetMap tile layer. */
    constructor ()
      ensures markers == [] && tileLayers == 1
      ensures center == Home && zoom == HomeZoom
    {
      markers := [];
      tileLayers := 1;
      center := Home;
      zoom := HomeZoom;
    }

    /** Removes every layer that is a marker; tile layers and the view stay. */
    method RemoveMarkers()
      modifies this
      ensures markers == []
      ensures tileLayers == old(tileLayers) && center == old(center) && zoom == old(zoom)
    {
      markers := [];
    }

    /** Adds one marker on top of the existing ones. */
    method AddMarker(m: Marker)
      modifies this
      ensures markers == old(markers) + [m]
      ensures tileLayers == old(tileLayers) && center == old(center) && zoom == old(zoom)
    {
      markers := markers + [m];
    }

    method SetView(c: LatLng, z: int)
      modifies this
      ensures center == c && zoom == z
      ensures markers == old(markers) && tileLayers == old(tileLayers)
    {
      center, zoom := c, z;
    }

    /** Attaches one more tile layer; the ones already attached stay. */
    method AddTileLayer()
      modifies this
      ensures tileLayers == old(tileLayers) + 1
      ensures markers == old(markers) && center == old(center) && zoom == old(zoom)
    {
      tileLayers := tileLayers + 1;
    }
  }
}
