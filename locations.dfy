/** The stored-location rule of `initLocation` in public/script.js. */
module Locations {
  import opened JsValues

  /** Hyderabad, India. */
  const DefaultLocation: JsValue :=
    Obj(map["lat" := Num(17.385), "lon" := Num(78.4867), "tz" := Str("Asia/Kolkata")])

  /** What the "weatherLocation" storage key held: nothing (or an empty
      string), text that JSON.parse rejects, or the parsed value. */
  datatype StoredLocation = NotStored | Unparsable | Parsed(value: JsValue)

  /** `obj && obj.lat && obj.lon`. */
  predicate Acceptable(obj: JsValue) {
    Truthy(obj) && Truthy(Field(obj, "lat")) && Truthy(Field(obj, "lon"))
  }

  /** The location the page starts with: the parsed object when it passes the
      test, the default in every other case. Either way both coordinates are
      truthy. */
  function ResolveStoredLocation(stored: StoredLocation): (r: JsValue)
    ensures stored.Parsed? && Acceptable(stored.value) ==> r == stored.value
    ensures !(stored.Parsed? && Acceptable(stored.value)) ==> r == DefaultLocation
    ensures Acceptable(r)
  {
    match stored
    case Parsed(obj) => if Acceptable(obj) then obj else DefaultLocation
    case _ => DefaultLocation
  }

  /** A latitude or longitude of 0 is falsy, so such a stored location is
      replaced by the default; the string "0" is truthy and is kept. */
  lemma ZeroCoordinateFallsBack(fields: map<string, JsValue>)
    requires "lat" in fields && "lon" in fields
    ensures fields["lat"] == Num(0.0) ==> ResolveStoredLocation(Parsed(Obj(fields))) == DefaultLocation
    ensures fields["lon"] == Num(0.0) ==> ResolveStoredLocation(Parsed(Obj(fields))) == DefaultLocation
    ensures fields["lat"] == Str("0") && fields["lon"] == Str("0") ==>
              ResolveStoredLocation(Parsed(Obj(fields))) == Obj(fields)
  {
  }
}
