/** The resolution pipeline of public/script.js: `fetchWeather` (cache, then
    provider, then cache write) and the page state that `initLocation` and
    `loadWeather` assign. Everything the browser supplies (the clock, the
    calendar, the two HTTP replies, number formatting) is a parameter. */
module Pipeline {
  import opened Wrappers
  import opened JsValues
  import opened Forecast
  import opened Cache
  import opened Overrides
  import opened Locations

  /** What the override service sent: a non-2xx status, or a parsed body. */
  datatype OverrideReply = OverrideNotOk | OverrideOk(body: JsValue)

  /** What one `loadWeather` call ends with: nothing (no signed-in user), a
      rendered record with its "Source:" label, or an error on the status line. */
  datatype Outcome =
    | Skipped                                 // nobody signed in
    | DateUnavailable                         // getDateString threw before the try: nothing shown
    | Rendered(record: Record, source: string)
    | Failed(message: string)                 // the catch put this message on the status line

  /** `fetchWeather` on values: the summary (or error) and the cache table afterwards. */
  function FetchStep(m: map<string, Entry>, key: string, date: string, now: int, reply: ProviderReply)
    : (Result<Weather, LoadError>, map<string, Entry>)
  {
    match Lookup(m, key, now)
    case Some(w) => (Ok(w), m)
    case None =>
      match Aggregate(reply, date)
      case Ok(w) => (Ok(w), m[key := Entry(w, now)])
      case Err(e) => (Err(e), m)
  }

  /** `fetchWeather`: a fresh entry is returned without asking the provider;
      otherwise the provider's reply is aggregated and, on success, stored
      under the key with the current time. */
  method FetchWeather(cache: WeatherCache, key: string, date: string, now: int, reply: ProviderReply)
    returns (r: Result<Weather, LoadError>)
    modifies cache
    ensures (r, cache.entries) == FetchStep(old(cache.entries), key, date, now, reply)
  {
    var hit := cache.Get(key, now);
    if hit.Some? {
      return Ok(hit.value);
    }
    r := Aggregate(reply, date);
    if r.Ok? {
      cache.Put(key, r.value, now);
    }
  }

  // ---------------------------------------------------------------------------
  // Properties of one fetch

  /** A fresh entry is served as stored, whatever the provider would say,
      and the table is left alone. */
  lemma FetchHitIgnoresProvider(m: map<string, Entry>, key: string, date: string, now: int, reply: ProviderReply)
    requires key in m && now - m[key].timestamp < TimeToLive
    ensures FetchStep(m, key, date, now, reply) == (Ok(m[key].data), m)
  {
  }

  /** A failed fetch ("Failed to fetch weather data", "No hourly data", no
      bucket) leaves the table exactly as it was. */
  lemma FetchFailureLeavesCache(m: map<string, Entry>, key: string, date: string, now: int, reply: ProviderReply)
    requires FetchStep(m, key, date, now, reply).0.Err?
    ensures FetchStep(m, key, date, now, reply).1 == m
  {
  }

  /** A fetch changes at most the entry under its own key; on a miss that
      succeeds, that entry becomes the new summary stamped with `now`. */
  lemma FetchChangesOnlyItsKey(m: map<string, Entry>, key: string, date: string, now: int, reply: ProviderReply)
    ensures var (r, m') := FetchStep(m, key, date, now, reply);
      && m'.Keys <= m.Keys + {key}
      && (forall k :: k in m && k != key ==> k in m' && m'[k] == m[k])
      && (r.Ok? && Lookup(m, key, now).None? ==> key in m' && m'[key] == Entry(r.value, now))
  {
  }

  /** A successful fetch leaves its summary in the table, and any later fetch
      of the same key while that entry is fresh returns the same summary and
      changes nothing. When the first fetch went to the provider, this covers
      every fetch within fifteen minutes of it. */
  lemma RepeatServesSameSummary(m: map<string, Entry>, key: string, date: string, t1: int, reply1: ProviderReply,
                                t2: int, reply2: ProviderReply)
    requires FetchStep(m, key, date, t1, reply1).0.Ok?
    ensures var (r1, m1) := FetchStep(m, key, date, t1, reply1);
      && key in m1 && m1[key].data == r1.value
      && (Lookup(m, key, t1).None? ==> m1[key].timestamp == t1)
      && (t2 < m1[key].timestamp + TimeToLive ==> FetchStep(m1, key, date, t2, reply2) == (r1, m1))
  {
  }

  /** Freshness is measured from the stored entry, not from the last read: an
      entry served one millisecond before it expires is not served one
      millisecond later, and the provider is asked again. */
  lemma ServedEntryCanExpireAtOnce(w: Weather, key: string, date: string, ts: int, reply: ProviderReply)
    ensures var m := map[key := Entry(w, ts)];
      && FetchStep(m, key, date, ts + TimeToLive - 1, reply) == (Ok(w), m)
      && FetchStep(m, key, date, ts + TimeToLive, reply).0 == Aggregate(reply, date)
  {
  }

  // ---------------------------------------------------------------------------
  // Page state

  /** `if (!userEmail)`: a stored e-mail that is missing or empty means nobody is signed in. */
  predicate SignedIn(email: Option<string>) {
    email.Some? && email.value != ""
  }

  /** The cache key of a location and date: `${lat},${lon},${date}`. */
  function LocationKey(location: JsValue, date: string, numText: real -> string): string {
    CacheKey(ToText(Field(location, "lat"), numText), ToText(Field(location, "lon"), numText), date)
  }

  /** The module-level state of the page script. */
  class Session {
    var userEmail: Option<string>
    var location: JsValue
    var currentDateKey: string
    var currentWeather: Option<Weather>
    var currentOverride: Option<JsValue>
    const cache: WeatherCache

    /** Whenever someone is signed in, the location has been initialised and
        both of its coordinates are truthy. */
    ghost predicate Valid()
      reads this
    {
      SignedIn(userEmail) ==> Acceptable(location)
    }

    /** Page start-up: the e-mail read by `initUser`, then `initLocation` when
        someone is signed in. */
    constructor Start(email: Option<string>, stored: StoredLocation, table: WeatherCache)
      ensures Valid()
      ensures userEmail == email && cache == table
      ensures location == if SignedIn(email) then ResolveStoredLocation(stored) else Null
      ensures currentDateKey == "today" && currentWeather == None && currentOverride == None
    {
      userEmail := email;
      location := Null;
      currentDateKey := "today";
      currentWeather := None;
      currentOverride := None;
      cache := table;
      new;
      if SignedIn(email) {
        InitLocation(stored);
      }
    }

    /** `initLocation`: the stored location if it passes the test, else the default. */
    method InitLocation(stored: StoredLocation)
      modifies this
      ensures Valid()
      ensures location == ResolveStoredLocation(stored)
      ensures userEmail == old(userEmail) && currentDateKey == old(currentDateKey)
      ensures currentWeather == old(currentWeather) && currentOverride == old(currentOverride)
    {
      location := ResolveStoredLocation(stored);
    }

    /** `loadWeather(dateKey)`. `dateOf` is the calendar date for a day
        offset (`getDateString`), `None` when it throws because the
        location's time zone is not a valid zone name; `now` the clock reading, `weatherReply` what
        the provider would send (used only on a cache miss), `overrideReply`
        what the override service sends, and `numText` the host's formatting
        of non-integral numbers. */
    method LoadWeather(dateKey: string, dateOf: nat -> Option<string>, now: int, weatherReply: ProviderReply,
                       overrideReply: OverrideReply, numText: real -> string) returns (outcome: Outcome)
      requires Valid()
      modifies this, cache
      ensures Valid()
      ensures userEmail == old(userEmail) && location == old(location)
      ensures !SignedIn(userEmail) ==>
        && outcome == Skipped
        && currentDateKey == old(currentDateKey)
        && currentWeather == old(currentWeather) && currentOverride == old(currentOverride)
        && cache.entries == old(cache.entries)
      ensures SignedIn(userEmail) && dateOf(DateOffset(dateKey)).None? ==>
        && outcome == DateUnavailable
        && currentDateKey == dateKey
        && currentWeather == old(currentWeather) && currentOverride == old(currentOverride)
        && cache.entries == old(cache.entries)
      ensures SignedIn(userEmail) && dateOf(DateOffset(dateKey)).Some? ==>
        var date := dateOf(DateOffset(dateKey)).value;
        var (fetched, entries) := FetchStep(old(cache.entries), LocationKey(location, date, numText), date, now, weatherReply);
        && currentDateKey == dateKey
        && cache.entries == entries
        && (fetched.Err? ==>
              && outcome == Failed(Message(fetched.error))
              && currentWeather == old(currentWeather) && currentOverride == old(currentOverride))
        && (fetched.Ok? ==> currentWeather == Some(fetched.value))
        && (fetched.Ok? && overrideReply.OverrideNotOk? ==>
              outcome == Failed(Message(OverrideFetchFailed)) && currentOverride == old(currentOverride))
        && (fetched.Ok? && overrideReply.OverrideOk? ==>
              && currentOverride == EffectiveOverride(overrideReply.body)
              && outcome == Rendered(Merge(ToRecord(fetched.value), currentOverride), Label(currentOverride, numText)))
    {
      if !SignedIn(userEmail) {
        return Skipped;
      }
      currentDateKey := dateKey;
      var resolved := dateOf(DateOffset(dateKey));
      if resolved.None? {
        return DateUnavailable;
      }
      var date := resolved.value;
      var key := LocationKey(location, date, numText);
      var fetched := FetchWeather(cache, key, date, now, weatherReply);
      if fetched.Err? {
        return Failed(Message(fetched.error));
      }
      currentWeather := Some(fetched.value);
      if overrideReply.OverrideNotOk? {
        return Failed(Message(OverrideFetchFailed));
      }
      var override := EffectiveOverride(overrideReply.body);
      currentOverride := override;
      outcome := Rendered(Merge(ToRecord(fetched.value), override), Label(override, numText));
    }
  }
}
