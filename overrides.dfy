/** How `loadWeather` in public/script.js picks the day and layers a user's
    override over the base summary: the dateKey offset, `fetchOverride`'s
    null rule, the object-spread merge and the "Source:" label. */
module Overrides {
  import opened Wrappers
  import opened JsValues
  import opened Icons
  import opened Forecast

  /** A displayed record: an object's own properties. */
  type Record = map<string, JsValue>

  /** The day offset a date key selects. */
  function DateOffset(dateKey: string): (r: nat)
    ensures r == 1 <==> dateKey == "tomorrow"
    ensures r == 2 <==> dateKey == "dayafter"
    ensures r == 0 <==> dateKey != "tomorrow" && dateKey != "dayafter"
  {
    if dateKey == "tomorrow" then 1 else if dateKey == "dayafter" then 2 else 0
  }

  /** The summary as the object the script builds, including `source: "api"`. */
  function ToRecord(w: Weather): (r: Record)
    ensures r.Keys == {"tempC", "humidityPct", "windKph", "precipMm", "conditionText", "conditionIcon", "source"}
    ensures r["tempC"] == Num(w.tempC) && r["windKph"] == Num(w.windKph) && r["precipMm"] == Num(w.precipMm)
    ensures r["humidityPct"] == Num(w.humidityPct as real)
    ensures r["conditionText"] == Str(w.conditionText)
    ensures r["conditionIcon"] == Str(Glyph(w.conditionIcon))
    ensures r["source"] == Str("api")
  {
    map[
      "tempC" := Num(w.tempC),
      "humidityPct" := Num(w.humidityPct as real),
      "windKph" := Num(w.windKph),
      "precipMm" := Num(w.precipMm),
      "conditionText" := Str(w.conditionText),
      "conditionIcon" := Str(Glyph(w.conditionIcon)),
      "source" := Str("api")]
  }

  /** `data && data.newValues ? data : null`: a reply body is an override
      only when it is truthy and carries truthy `newValues`. */
  function EffectiveOverride(body: JsValue): (r: Option<JsValue>)
    ensures r.Some? <==> Truthy(body) && Truthy(Field(body, "newValues"))
    ensures r.Some? ==> r.value == body
  {
    if Truthy(body) && Truthy(Field(body, "newValues")) then Some(body) else None
  }

  /** The own properties `...v` spreads: an object's fields. */
  function SpreadFields(v: JsValue): Record {
    if v.Obj? then v.fields else map[]
  }

  /** `{ ...base, ...override.newValues }` when an override applies, else a copy of base. */
  function Merge(base: Record, override: Option<JsValue>): (r: Record)
    ensures override.None? ==> r == base
    ensures override.Some? ==> r.Keys == base.Keys + SpreadFields(Field(override.value, "newValues")).Keys
    ensures override.Some? ==> forall k :: k in SpreadFields(Field(override.value, "newValues")) ==>
              r[k] == SpreadFields(Field(override.value, "newValues"))[k]
    ensures override.Some? ==> forall k :: k in base && k !in SpreadFields(Field(override.value, "newValues")) ==>
              r[k] == base[k]
  {
    if override.Some? then base + SpreadFields(Field(override.value, "newValues")) else base
  }

  /** The provenance label: "Override (v<version>)" when an override
      applies, "API" otherwise. */
  function Label(override: Option<JsValue>, numText: real -> string): (r: string)
    ensures r == "API" <==> override.None?
    ensures override.Some? ==> r == "Override (v" + ToText(Field(override.value, "version"), numText) + ")"
  {
    if override.Some?
    then
      var r := "Override (v" + ToText(Field(override.value, "version"), numText) + ")";
      assert r[0] != "API"[0];
      r
    else "API"
  }

  // ---------------------------------------------------------------------------
  // Properties of the merge

  /** A reply without `newValues` leaves the base record and the "API" label. */
  lemma NoNewValuesMeansApi(base: Record, body: JsValue, numText: real -> string)
    requires !Truthy(Field(body, "newValues"))
    ensures Merge(base, EffectiveOverride(body)) == base
    ensures Label(EffectiveOverride(body), numText) == "API"
  {
  }

  /** Overriding one field of a summary changes that field and no other, and
      the label names the version. */
  lemma OverrideOneField(w: Weather, field: string, value: JsValue, version: int, numText: real -> string)
    requires -ExactIntegerLimit <= version as real <= ExactIntegerLimit
    ensures var body := Obj(map["version" := Num(version as real), "newValues" := Obj(map[field := value])]);
      && EffectiveOverride(body) == Some(body)
      && Merge(ToRecord(w), Some(body))[field] == value
      && (forall k :: k in ToRecord(w) && k != field ==> Merge(ToRecord(w), Some(body))[k] == ToRecord(w)[k])
      && Label(Some(body), numText) == "Override (v" + IntText(version) + ")"
  {
    IntegralNumberText(version, numText);
  }

  /** The worked example: a base temperature of 20 overridden with 25 at
      version 3 shows 25, keeps everything else, and reads "Override (v3)". */
  lemma OverrideExample(w: Weather, numText: real -> string)
    requires w.tempC == 20.0
    ensures var body := Obj(map["version" := Num(3.0), "newValues" := Obj(map["tempC" := Num(25.0)])]);
      && Merge(ToRecord(w), EffectiveOverride(body))["tempC"] == Num(25.0)
      && Merge(ToRecord(w), EffectiveOverride(body))["conditionText"] == Str(w.conditionText)
      && Label(EffectiveOverride(body), numText) == "Override (v3)"
  {
    OverrideOneField(w, "tempC", Num(25.0), 3, numText);
    assert IntText(3) == "3";
  }
}
