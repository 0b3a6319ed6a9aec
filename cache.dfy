/** The time-boxed forecast cache of `fetchWeather` in public/script.js: a
    table kept under the "weatherCache" storage key, mapping the key
    "lat,lon,date" to the summary and the time (in milliseconds) it was stored. */
module Cache {
  import opened Wrappers
  import opened Forecast

  /** Fifteen minutes, in milliseconds. */
  const TimeToLive: int := 15 * 60 * 1000

  datatype Entry = Entry(data: Weather, timestamp: int)

  /** The freshness test: strictly less than fifteen minutes old. */
  predicate Fresh(e: Entry, now: int) {
    now - e.timestamp < TimeToLive
  }

  /** What a lookup at time `now` yields from table `m`. */
  function Lookup(m: map<string, Entry>, key: string, now: int): Option<Weather> {
    if key in m && Fresh(m[key], now) then Some(m[key].data) else None
  }

  /** The key `${lat},${lon},${date}`. */
  function CacheKey(lat: string, lon: string, date: string): string {
    lat + "," + lon + "," + date
  }

  /** In `a + "," + rest` with a comma-free `a`, the first comma sits right
      after `a`, so `a` and `rest` can be read back. */
  lemma SplitAtFirstComma(a: string, rest: string)
    requires ',' !in a
    ensures forall k :: 0 <= k < |a| ==> (a + "," + rest)[k] != ','
    ensures (a + "," + rest)[|a|] == ','
    ensures (a + "," + rest)[..|a|] == a && (a + "," + rest)[|a| + 1..] == rest
  {
  }

  /** Coordinates whose texts hold no comma (as decimal numbers never do)
      never share a slot with a different coordinate or date. */
  lemma CacheKeyInjective(lat: string, lon: string, date: string, lat': string, lon': string, date': string)
    requires ',' !in lat && ',' !in lon && ',' !in lat' && ',' !in lon'
    requires CacheKey(lat, lon, date) == CacheKey(lat', lon', date')
    ensures lat == lat' && lon == lon' && date == date'
  {
    var k := CacheKey(lat, lon, date);
    assert k == lat + "," + (lon + "," + date);
    assert k == lat' + "," + (lon' + "," + date');
    SplitAtFirstComma(lat, lon + "," + date);
    SplitAtFirstComma(lat', lon' + "," + date');
    assert |lat| == |lat'|;
    var rest := k[|lat| + 1..];
    SplitAtFirstComma(lon, date);
    SplitAtFirstComma(lon', date');
    assert |lon| == |lon'|;
  }

  /** The cache table. */
  class WeatherCache {
    var entries: map<string, Entry>

    /** An empty table (nothing stored yet, or a stored table that did not parse). */
    constructor ()
      ensures entries == map[]
    {
      entries := map[];
    }

    /** The hit test: a stored summary is returned exactly when an entry exists
        for the key and is less than fifteen minutes old. */
    method Get(key: string, now: int) returns (r: Option<Weather>)
      ensures r.Some? <==> key in entries && now - entries[key].timestamp < TimeToLive
      ensures r.Some? ==> r.value == entries[key].data
      ensures r == Lookup(entries, key, now)
    {
      if key in entries && now - entries[key].timestamp < TimeToLive {
        r := Some(entries[key].data);
      } else {
        r := None;
      }
    }

    /** `cache[cacheKey] = { data, timestamp: now }`: overwrites that one key. */
    method Put(key: string, data: Weather, now: int)
      modifies this
      ensures entries == old(entries)[key := Entry(data, now)]
      ensures forall k :: k in old(entries) && k != key ==> k in entries && entries[k] == old(entries)[k]
    {
      entries := entries[key := Entry(data, now)];
    }
  }

  // ---------------------------------------------------------------------------
  // Properties of the table

  /** Right after a put, a lookup of that key at the same time hits, and
      every other key answers as before. */
  lemma PutThenLookup(m: map<string, Entry>, key: string, data: Weather, now: int, other: string, t: int)
    requires other != key
    ensures Lookup(m[key := Entry(data, now)], key, now) == Some(data)
    ensures Lookup(m[key := Entry(data, now)], other, t) == Lookup(m, other, t)
  {
  }

  /** An entry serves lookups until fifteen minutes after its timestamp and
      never after. */
  lemma LookupExpiry(m: map<string, Entry>, key: string, now: int)
    requires key in m
    ensures Lookup(m, key, now).Some? <==> now < m[key].timestamp + TimeToLive
  {
  }

  /** Freshness only runs out: a hit at a later time implies a hit at every
      earlier time. */
  lemma LookupAntitone(m: map<string, Entry>, key: string, t1: int, t2: int)
    requires t1 <= t2
    requires Lookup(m, key, t2).Some?
    ensures Lookup(m, key, t1) == Lookup(m, key, t2)
  {
  }
}
