/** Saved places and the two ways of producing them: the record filter of the
    bulk JSON import and the checks of the "Add New Place" form. */
module Places {
  import opened JsValues

  /** One saved place, with exactly the four properties the widget stores. */
  datatype Place = Place(name: string, latitude: real, longitude: real, description: string)

  /** Coordinates inside the ranges both entry paths enforce. */
  predicate InBounds(p: Place)
  {
    -90.0 <= p.latitude <= 90.0 && -180.0 <= p.longitude <= 180.0
  }

  // ---------------------------------------------------------------------------
  // Bulk import

  /** The per-element test of the import loop: `name` and `description` are
      strings, `latitude` and `longitude` are numbers, not NaN and in range.
      The name may be empty or blank: the import does not trim or test it.
      Only an object can pass, and it passes exactly when its four keys hold
      two strings and two finite numbers in range. */
  function IsPlaceRecord(v: Json): (ok: bool)
    ensures ok <==>
      v.JObject? &&
      "name" in v.fields && v.fields["name"].JString? &&
      "description" in v.fields && v.fields["description"].JString? &&
      "latitude" in v.fields && v.fields["latitude"].JNumber? &&
      v.fields["latitude"].n.Finite? && -90.0 <= v.fields["latitude"].n.value <= 90.0 &&
      "longitude" in v.fields && v.fields["longitude"].JNumber? &&
      v.fields["longitude"].n.Finite? && -180.0 <= v.fields["longitude"].n.value <= 180.0
  {
    IsString(Prop(v, "name")) &&
    IsNumber(Prop(v, "latitude")) &&
    IsNumber(Prop(v, "longitude")) &&
    IsString(Prop(v, "description")) &&
    CoordinateOk(Prop(v, "latitude").value.n, -90.0, 90.0) &&
    CoordinateOk(Prop(v, "longitude").value.n, -180.0, 180.0)
  }

  /** The copy the import pushes for an accepted element: the four properties,
      nothing else of the object. */
  function ToPlace(v: Json): (p: Place)
    requires IsPlaceRecord(v)
    ensures InBounds(p)
    ensures v.JObject?
    ensures v.fields["name"] == JString(p.name)
    ensures v.fields["latitude"] == JNumber(Finite(p.latitude))
    ensures v.fields["longitude"] == JNumber(Finite(p.longitude))
    ensures v.fields["description"] == JString(p.description)
  {
    Place(
      v.fields["name"].s,
      v.fields["latitude"].n.value,
      v.fields["longitude"].n.value,
      v.fields["description"].s)
  }

  /** What one element contributes to the imported list. */
  function Kept(v: Json): seq<Place>
  {
    if IsPlaceRecord(v) then [ToPlace(v)] else []
  }

  /** The places the import keeps from a list of parsed elements, in order;
      elements that fail the test are dropped. */
  function ValidPlaces(xs: seq<Json>): (r: seq<Place>)
    ensures |r| <= |xs|
    ensures forall i :: 0 <= i < |r| ==> InBounds(r[i])
  {
    if xs == [] then [] else ValidPlaces(xs[..|xs| - 1]) + Kept(xs[|xs| - 1])
  }

  /** The filter distributes over concatenation: it keeps the relative order of
      the elements and decides each one on its own. */
  lemma {:induction false} ValidPlacesAppend(xs: seq<Json>, ys: seq<Json>)
    ensures ValidPlaces(xs + ys) == ValidPlaces(xs) + ValidPlaces(ys)
    decreases |ys|
  {
    if ys == [] {
      assert xs + ys == xs;
    } else {
      var ys' := ys[..|ys| - 1];
      assert (xs + ys)[..|xs + ys| - 1] == xs + ys';
      ValidPlacesAppend(xs, ys');
    }
  }

  /** Element `i` of `xs` passes the import test and is copied to `p`. */
  predicate CopiedFrom(xs: seq<Json>, i: int, p: Place)
  {
    0 <= i < |xs| && IsPlaceRecord(xs[i]) && ToPlace(xs[i]) == p
  }

  /** A place is imported exactly when some element passes the test and is
      copied to it. */
  lemma {:induction false} ValidPlacesMembership(xs: seq<Json>, p: Place)
    ensures p in ValidPlaces(xs) <==> exists i :: CopiedFrom(xs, i, p)
  {
    if xs != [] {
      var init, last := xs[..|xs| - 1], xs[|xs| - 1];
      ValidPlacesMembership(init, p);
      assert p in ValidPlaces(xs) <==> p in ValidPlaces(init) || p in Kept(last);
      if p in ValidPlaces(init) {
        var i :| CopiedFrom(init, i, p);
        assert CopiedFrom(xs, i, p);
      }
      if p in Kept(last) {
        assert CopiedFrom(xs, |xs| - 1, p);
      }
      if exists i :: CopiedFrom(xs, i, p) {
        var i :| CopiedFrom(xs, i, p);
        if i < |init| {
          assert CopiedFrom(init, i, p);
        } else {
          assert p in Kept(last);
        }
      }
    }
  }

  /** Nothing is dropped exactly when every element passes the test. */
  lemma {:induction false} ValidPlacesKeepsAll(xs: seq<Json>)
    ensures |ValidPlaces(xs)| == |xs| <==> forall i :: 0 <= i < |xs| ==> IsPlaceRecord(xs[i])
    ensures (forall i :: 0 <= i < |xs| ==> IsPlaceRecord(xs[i])) ==>
      forall i :: 0 <= i < |xs| ==> ValidPlaces(xs)[i] == ToPlace(xs[i])
  {
    if xs != [] {
      var init := xs[..|xs| - 1];
      ValidPlacesKeepsAll(init);
      assert forall i :: 0 <= i < |init| ==> init[i] == xs[i];
    }
  }

  /** Everything is dropped exactly when no element passes the test; the
      import still succeeds, with an empty list. */
  lemma {:induction false} ValidPlacesDropsAll(xs: seq<Json>)
    ensures ValidPlaces(xs) == [] <==> forall i :: 0 <= i < |xs| ==> !IsPlaceRecord(xs[i])
  {
    if xs != [] {
      var init := xs[..|xs| - 1];
      ValidPlacesDropsAll(init);
      assert forall i :: 0 <= i < |init| ==> init[i] == xs[i];
    }
  }

  /** The loop of the import: it walks the parsed array, pushes a copy of every
      element that passes the test and skips the others. Reading `place.name`
      on a `null` element throws a TypeError, which ends the loop (None). */
  method CollectValidPlaces(elems: seq<Json>) returns (r: Option<seq<Place>>)
    ensures r.None? <==> JNull in elems
    ensures r.Some? ==> r.value == ValidPlaces(elems)
  {
    var validPlaces: seq<Place> := [];
    for i := 0 to |elems|
      invariant JNull !in elems[..i]
      invariant validPlaces == ValidPlaces(elems[..i])
    {
      var place := elems[i];
      if place == JNull {
        return None;
      }
      assert elems[..i + 1][..i] == elems[..i];
      if IsPlaceRecord(place) {
        validPlaces := validPlaces + [ToPlace(place)];
      }
    }
    assert elems[..|elems|] == elems;
    return Some(validPlaces);
  }

  /** The ways an import can fail as a whole. */
  datatype ImportError =
    | SyntaxError   // `JSON.parse` threw
    | NotAnArray    // the payload parsed to something other than an array
    | TypeError     // an element of the array is `null`

  /** The message an import failure leaves in the error field. */
  function ImportMessage(e: ImportError): string
  {
    match e
    case SyntaxError => "Invalid JSON:  Please check the format of your JSON data."
    case NotAnArray => "Invalid JSON: Expected an array of places."
    case TypeError => "Error importing data.  Please check the data and try again."
  }

  datatype ImportOutcome = Imported(places: seq<Place>) | Rejected(error: ImportError)

  /** The outcome of importing a payload, given what `JSON.parse` made of it
      (None when it threw). An array never fails because of elements that
      merely fail the test. */
  function ImportResult(parsed: Option<Json>): (r: ImportOutcome)
    ensures r.Imported? <==> parsed.Some? && parsed.value.JArray? && JNull !in parsed.value.elems
    ensures r.Imported? ==> r.places == ValidPlaces(parsed.value.elems)
    ensures r.Imported? ==> forall i :: 0 <= i < |r.places| ==> InBounds(r.places[i])
    ensures r == Rejected(SyntaxError) <==> parsed.None?
    ensures r == Rejected(NotAnArray) <==> parsed.Some? && !parsed.value.JArray?
  {
    match parsed
    case None => Rejected(SyntaxError)
    case Some(JArray(xs)) => if JNull in xs then Rejected(TypeError) else Imported(ValidPlaces(xs))
    case Some(_) => Rejected(NotAnArray)
  }

  /** The import test ignores what the name says: replacing the name of a
      passing element by any string (empty or all blanks included) still
      passes, and the copy carries that string unchanged. */
  lemma ImportIgnoresNameContents(v: Json, n: string)
    requires IsPlaceRecord(v)
    ensures IsPlaceRecord(JObject(v.fields["name" := JString(n)]))
    ensures ToPlace(JObject(v.fields["name" := JString(n)])) == ToPlace(v).(name := n)
  {
  }

  /** One element that passes and one that fails import as exactly the one that
      passes, with no error. */
  lemma ImportKeepsTheValidOne(good: Json, bad: Json)
    requires IsPlaceRecord(good) && !IsPlaceRecord(bad) && bad != JNull
    ensures ImportResult(Some(JArray([good, bad]))) == Imported([ToPlace(good)])
  {
    assert good != JNull;
    assert [good, bad][..1] == [good];
    assert [good][..0] == [];
    assert ValidPlaces([good]) == [ToPlace(good)];
    assert ValidPlaces([good, bad]) == ValidPlaces([good]) + Kept(bad);
  }

  // ---------------------------------------------------------------------------
  // The "Add New Place" form

  const NameMessage := "Please enter a destination name."
  const LatitudeMessage := "Please enter a valid latitude (-90 to 90)."
  const LongitudeMessage := "Please enter a valid longitude (-180 to 180)."

  /** Whether the form's three checks all pass. */
  predicate FormAccepts(name: string, lat: Num, lng: Num)
  {
    !IsBlank(name) && CoordinateOk(lat, -90.0, 90.0) && CoordinateOk(lng, -180.0, 180.0)
  }

  /** The error the form shows: the message of the last check that fails, in
      the order name, latitude, longitude; empty when none fails. */
  function FormError(name: string, lat: Num, lng: Num): (msg: string)
    ensures msg == "" <==> FormAccepts(name, lat, lng)
    ensures msg == LongitudeMessage <==> CoordinateBad(lng, -180.0, 180.0)
    ensures msg == LatitudeMessage <==> CoordinateBad(lat, -90.0, 90.0) && !CoordinateBad(lng, -180.0, 180.0)
    ensures msg == NameMessage <==>
      IsBlank(name) && !CoordinateBad(lat, -90.0, 90.0) && !CoordinateBad(lng, -180.0, 180.0)
  {
    if CoordinateBad(lng, -180.0, 180.0) then LongitudeMessage
    else if CoordinateBad(lat, -90.0, 90.0) then LatitudeMessage
    else if IsBlank(name) then NameMessage
    else ""
  }

  /** The checks of the submit handler: the error is cleared, then the name,
      latitude and longitude checks run in turn, each failing one overwriting
      the error and raising the flag. */
  method CheckForm(name: string, lat: Num, lng: Num) returns (error: string, hasErrors: bool)
    ensures hasErrors <==> !FormAccepts(name, lat, lng)
    ensures error == FormError(name, lat, lng)
  {
    error := "";
    hasErrors := false;
    if IsBlank(name) {
      error := NameMessage;
      hasErrors := true;
    }
    if CoordinateBad(lat, -90.0, 90.0) {
      error := LatitudeMessage;
      hasErrors := true;
    }
    if CoordinateBad(lng, -180.0, 180.0) {
      error := LongitudeMessage;
      hasErrors := true;
    }
  }

  /** The place the form stores when its checks pass: the name as typed (not
      trimmed), the parsed coordinates and the description. */
  function FormPlace(name: string, lat: Num, lng: Num, desc: string): (p: Place)
    requires FormAccepts(name, lat, lng)
    ensures InBounds(p) && !IsBlank(p.name)
    ensures p.name == name && p.description == desc
    ensures lat == Finite(p.latitude) && lng == Finite(p.longitude)
  {
    Place(name, lat.value, lng.value, desc)
  }
}
