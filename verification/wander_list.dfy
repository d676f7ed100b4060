/** The WanderList Bengaluru component: its state (the saved places, the four
    fields of the add form, the error line, the import text area and whether
    the import form is shown), the map it owns, and its event handlers and
    effects as state transitions. `JSON.parse` and `parseFloat` are passed in. */
module WanderList {
  import opened JsValues
  import opened Places
  import opened MapSurface

  /** Every piece of component state except the map, as one value. */
  datatype Snapshot = Snapshot(
    places: seq<Place>,
    destinationName: string,
    latitude: string,
    longitude: string,
    description: string,
    error: string,
    importData: string,
    importVisible: bool)

  class Widget {
    var places: seq<Place>
    var destinationName: string
    var latitude: string
    var longitude: string
    var description: string
    var error: string
    var importData: string
    var importVisible: bool
    /** `mapRef.current`: null before mounting and after unmounting. */
    var mapRef: MapView?

    ghost function Snap(): Snapshot
      reads this
    {
      Snapshot(places, destinationName, latitude, longitude, description, error, importData, importVisible)
    }

    /** Both ways of adding places keep every place's coordinates in range. */
    ghost predicate Valid()
      reads this
    {
      forall i :: 0 <= i < |places| ==> InBounds(places[i])
    }

    /** The markers on the map are exactly one per saved place, in list order. */
    ghost predicate Synced()
      reads this, mapRef
    {
      mapRef != null ==> mapRef.markers == MarkersOf(places)
    }

    /** While the invariant holds and the markers are in step with the places,
        every marker on the map lies within the coordinate ranges. */
    lemma MarkersOnMapInRange()
      requires Valid() && Synced() && mapRef != null
      ensures forall m :: m in mapRef.markers ==>
        -90.0 <= m.position.lat <= 90.0 && -180.0 <= m.position.lng <= 180.0
    {
      MarkersInBounds(places);
    }

    /** The initial `useState` values; the map is not created yet. */
    constructor ()
      ensures Valid()
      ensures Snap() == Snapshot([], "", "", "", "", "", "", false)
      ensures mapRef == null
    {
      places := [];
      destinationName, latitude, longitude, description := "", "", "", "";
      error, importData, importVisible := "", "", false;
      mapRef := null;
    }

    /** The mount effect: creates the map, centred on the fallback view with one
        tile layer, unless it already exists. */
    method MountMap()
      modifies this
      ensures Snap() == old(Snap())
      ensures old(mapRef) != null ==> mapRef == old(mapRef)
      ensures old(mapRef) == null ==>
        mapRef != null && fresh(mapRef) && mapRef.markers == [] && mapRef.tileLayers == 1 &&
        mapRef.center == Home && mapRef.zoom == HomeZoom
    {
      if mapRef == null {
        mapRef := new MapView();
      }
    }

    /** The cleanup of the mount effect: the map is removed and forgotten. */
    method UnmountMap()
      modifies this
      ensures Snap() == old(Snap())
      ensures mapRef == null
    {
      mapRef := null;
    }

    /** The marker effect that runs whenever `places` changes: all markers are
        removed, then one is added per place in list order. The result depends
        on `places` alone, so running it again changes nothing. */
    method RenderMarkers()
      modifies mapRef
      ensures Synced()
      ensures mapRef != null ==>
        mapRef.tileLayers == old(mapRef.tileLayers) &&
        mapRef.center == old(mapRef.center) && mapRef.zoom == old(mapRef.zoom)
    {
      if mapRef != null {
        var m := mapRef;
        m.RemoveMarkers();
        AddMarkersFor(m);
      }
    }

    /** The "Refresh Map" button: clears the markers, resets the view to the
        fallback centre and zoom, attaches one more tile layer (the old ones are
        not removed) and adds the markers of the saved places again. The
        component state is not touched. */
    method RefreshMap()
      modifies mapRef
      ensures Synced()
      ensures mapRef != null ==>
        mapRef.center == Home && mapRef.zoom == HomeZoom &&
        mapRef.tileLayers == old(mapRef.tileLayers) + 1
    {
      if mapRef != null {
        var m := mapRef;
        m.RemoveMarkers();
        m.SetView(Home, HomeZoom);
        m.AddTileLayer();
        AddMarkersFor(m);
      }
    }

    /** The `places.forEach` loop shared by the marker effect and the refresh. */
    method AddMarkersFor(m: MapView)
      modifies m
      ensures m.markers == old(m.markers) + MarkersOf(places)
      ensures m.tileLayers == old(m.tileLayers) && m.center == old(m.center) && m.zoom == old(m.zoom)
    {
      for i := 0 to |places|
        invariant m.markers == old(m.markers) + MarkersOf(places[..i])
        invariant m.tileLayers == old(m.tileLayers) && m.center == old(m.center) && m.zoom == old(m.zoom)
      {
        assert places[..i + 1][..i] == places[..i];
        m.AddMarker(MarkerFor(places[i]));
      }
      assert places[..|places|] == places;
    }

    /** The "Add Destination" submit handler. On any failing check only the
        error changes; otherwise the place is appended and the four form fields
        are cleared. */
    method AddDestination(parseFloat: string -> Num)
      requires Valid()
      modifies this
      ensures Valid()
      ensures mapRef == old(mapRef)
      ensures var s := old(Snap());
        var lat := old(parseFloat(latitude));
        var lng := old(parseFloat(longitude));
        if FormAccepts(s.destinationName, lat, lng) then
          Snap() == s.(places := s.places + [FormPlace(s.destinationName, lat, lng, s.description)],
                       destinationName := "", latitude := "", longitude := "", description := "",
                       error := "")
        else
          Snap() == s.(error := FormError(s.destinationName, lat, lng))
    {
      var name := destinationName;
      var lat := parseFloat(latitude);
      var lng := parseFloat(longitude);
      var desc := description;

      var hasErrors;
      error, hasErrors := CheckForm(name, lat, lng);
      if hasErrors {
        return;
      }

      var newPlace := Place(name, lat.value, lng.value, desc);
      assert newPlace == FormPlace(name, lat, lng, desc);
      places := places + [newPlace];
      destinationName, latitude, longitude, description := "", "", "", "";
    }

    /** The "Import" button. A payload that does not parse, is not an array or
        holds a `null` element only sets the matching error. Otherwise the
        places that pass the record test replace the whole list, and the error,
        the import text and the import form are cleared. */
    method Import(jsonParse: string -> Option<Json>)
      requires Valid()
      modifies this
      ensures Valid()
      ensures mapRef == old(mapRef)
      ensures var s := old(Snap());
        match ImportResult(old(jsonParse(importData)))
        case Imported(ps) =>
          Snap() == s.(places := ps, error := "", importData := "", importVisible := false)
        case Rejected(e) =>
          Snap() == s.(error := ImportMessage(e))
    {
      var parsed := jsonParse(importData);
      if parsed.None? {
        error := ImportMessage(SyntaxError);
        return;
      }
      if parsed.value.JArray? {
        var validPlaces := CollectValidPlaces(parsed.value.elems);
        if validPlaces.None? {
          error := ImportMessage(TypeError);
          return;
        }
        places := validPlaces.value;
        error := "";
        importData := "";
        importVisible := false;
      } else {
        error := ImportMessage(NotAnArray);
      }
    }

    /** The "Import Data" and "Cancel" buttons: show or hide the import form,
        clearing the error and the import text. */
    method ToggleImportForm()
      modifies this
      ensures mapRef == old(mapRef)
      ensures var s := old(Snap());
        Snap() == s.(importVisible := !s.importVisible, error := "", importData := "")
    {
      importVisible := !importVisible;
      error := "";
      importData := "";
    }

    /** The `onChange` handlers of the text inputs. */
    method SetDestinationName(v: string)
      modifies this
      ensures mapRef == old(mapRef) && Snap() == old(Snap()).(destinationName := v)
    {
      destinationName := v;
    }

    method SetLatitude(v: string)
      modifies this
      ensures mapRef == old(mapRef) && Snap() == old(Snap()).(latitude := v)
    {
      latitude := v;
    }

    method SetLongitude(v: string)
      modifies this
      ensures mapRef == old(mapRef) && Snap() == old(Snap()).(longitude := v)
    {
      longitude := v;
    }

    method SetDescription(v: string)
      modifies this
      ensures mapRef == old(mapRef) && Snap() == old(Snap()).(description := v)
    {
      description := v;
    }

    method SetImportData(v: string)
      modifies this
      ensures mapRef == old(mapRef) && Snap() == old(Snap()).(importData := v)
    {
      importData := v;
    }
  }

  /** A client: adding "MG Road" to a fresh widget and letting the marker effect
      run leaves one place and one marker at its coordinates; a rejected second
      submission keeps them and shows the latitude message. */
  method AddOnePlace()
  {
    var w := new Widget();
    w.MountMap();
    w.RenderMarkers();
    w.SetDestinationName("MG Road");
    w.SetLatitude("12.9758");
    w.SetLongitude("77.6045");
    w.SetDescription("Shopping street");
    var parseFloat := (s: string) =>
      if s == "12.9758" then Finite(12.9758) else if s == "77.6045" then Finite(77.6045) else NaN;
    assert !IsBlank("MG Road") by {
      assert !IsJsSpace("MG Road"[0]);
    }
    w.AddDestination(parseFloat);
    w.RenderMarkers();
    assert |w.places| == 1 && w.error == "";
    assert w.mapRef.markers[0].position == LatLng(12.9758, 77.6045);
    assert |w.mapRef.markers| == 1;

    w.SetDestinationName("Cubbon Park");
    w.SetLongitude("77.6045");
    w.AddDestination(parseFloat);
    assert w.error == LatitudeMessage;
    assert |w.places| == 1;
  }
}
