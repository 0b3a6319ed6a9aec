/** Day-bucket selection and hourly aggregation: what `fetchWeather` in
    public/script.js does with the provider's parsed response. */
module Forecast {
  import opened Wrappers
  import opened Icons

  /** One hourly sample. A numeric field that is absent (or empty) is `None`
      and is read as 0; `weatherCode` is the code after `parseInt`, and
      `description` is `weatherDesc[0].value` when that chain is present. */
  datatype Hour = Hour(
    tempC: Option<real>,
    humidity: Option<real>,
    windspeedKmph: Option<real>,
    precipMM: Option<real>,
    weatherCode: Option<int>,
    description: Option<string>)

  /** One day of the provider's forecast; an absent `hourly` list is empty. */
  datatype DayBucket = DayBucket(date: string, hourly: seq<Hour>)

  /** The four numeric fields the script aggregates. */
  datatype Measure = TempC | Humidity | WindspeedKmph | PrecipMM

  /** The daily summary the script builds (and caches). */
  datatype Weather = Weather(
    tempC: real,
    humidityPct: int,
    windKph: real,
    precipMm: real,
    conditionText: string,
    conditionIcon: Icon)

  /** The errors that end a resolution in the script's `catch`. */
  datatype LoadError =
    | WeatherFetchFailed   // the provider answered with a non-2xx status
    | NoDayBucket          // the response holds no day bucket at all
    | NoHourlyData         // the selected bucket has no hourly samples
    | OverrideFetchFailed  // the override service answered with a non-2xx status

  /** The message the status line shows for each error. */
  function Message(e: LoadError): string {
    match e
    case WeatherFetchFailed => "Failed to fetch weather data"
    case NoDayBucket => "Cannot read properties of undefined (reading 'hourly')"
    case NoHourlyData => "No hourly data"
    case OverrideFetchFailed => "Failed to fetch override"
  }

  /** What the provider sent: a non-2xx status, or a parsed body whose
      `weather` list (empty when absent) holds the day buckets. */
  datatype ProviderReply = ProviderNotOk | ProviderOk(weather: seq<DayBucket>)

  // ---------------------------------------------------------------------------
  // Day-bucket selection

  /** Index of the first bucket labelled `date` (`Array.prototype.find`). */
  function FindBucket(buckets: seq<DayBucket>, date: string): (r: Option<nat>)
    ensures r.Some? ==> r.value < |buckets| && buckets[r.value].date == date
    ensures r.Some? ==> forall j :: 0 <= j < r.value ==> buckets[j].date != date
    ensures r.None? ==> forall j :: 0 <= j < |buckets| ==> buckets[j].date != date
  {
    if |buckets| == 0 then None
    else if buckets[0].date == date then Some(0)
    else match FindBucket(buckets[1..], date)
      case None => None
      case Some(i) => Some(i + 1)
  }

  /** The bucket the script aggregates: the first one labelled `date`, else
      the first one of all; `None` when there is no bucket at all. */
  function SelectBucket(buckets: seq<DayBucket>, date: string): (r: Option<DayBucket>)
    ensures r.None? <==> |buckets| == 0
    ensures r.Some? ==> r.value in buckets
    ensures r.Some? && r.value.date != date ==>
              r.value == buckets[0] && forall j :: 0 <= j < |buckets| ==> buckets[j].date != date
    ensures (exists j :: 0 <= j < |buckets| && buckets[j].date == date) ==>
              r.Some? && r.value.date == date
  {
    match FindBucket(buckets, date)
    case Some(i) => Some(buckets[i])
    case None => if |buckets| == 0 then None else Some(buckets[0])
  }

  /** A bucket labelled `date` that comes first wins over any later one. */
  lemma SelectBucketPicksFirstMatch(buckets: seq<DayBucket>, date: string, i: nat)
    requires i < |buckets| && buckets[i].date == date
    requires forall j :: 0 <= j < i ==> buckets[j].date != date
    ensures SelectBucket(buckets, date) == Some(buckets[i])
  {
    var r := FindBucket(buckets, date);
    assert r.Some?;
    if r.value < i {
    } else if r.value > i {
    }
  }

  // ---------------------------------------------------------------------------
  // Aggregation

  /** `parseFloat(h[key] || 0)`: the value of one field, 0 when absent. */
  function Reading(h: Hour, m: Measure): real {
    var field := match m
      case TempC => h.tempC
      case Humidity => h.humidity
      case WindspeedKmph => h.windspeedKmph
      case PrecipMM => h.precipMM;
    if field.Some? then field.value else 0.0
  }

  /** `hourly.reduce((sum, h) => sum + reading, 0)`, folding from the left. */
  function Total(hourly: seq<Hour>, m: Measure): real {
    if |hourly| == 0 then 0.0
    else Total(hourly[..|hourly| - 1], m) + Reading(hourly[|hourly| - 1], m)
  }

  /** The script's `avg`: the same total divided by the number of samples. */
  function Mean(hourly: seq<Hour>, m: Measure): (r: real)
    requires |hourly| > 0
    ensures r * |hourly| as real == Total(hourly, m)
  {
    Total(hourly, m) / |hourly| as real
  }

  /** `Math.round`: the nearest integer, halves rounded up. */
  function Round(x: real): (r: int)
    ensures r as real - 0.5 <= x < r as real + 0.5
  {
    (x + 0.5).Floor
  }

  /** `Math.floor(n / 2)`: the middle position of a non-empty list. */
  function MidIndex(n: nat): (r: nat)
    requires n > 0
    ensures r < n
    ensures 2 * r <= n < 2 * r + 2
  {
    n / 2
  }

  /** `parseInt(mid.weatherCode || "0", 10)`. */
  function CodeOf(h: Hour): int {
    if h.weatherCode.Some? then h.weatherCode.value else 0
  }

  /** `mid.weatherDesc[0].value || ""`. */
  function TextOf(h: Hour): string {
    if h.description.Some? then h.description.value else ""
  }

  /** The daily summary of one bucket's hourly list. Temperature, humidity
      and wind are means, so multiplying them back by the sample count gives
      the total; precipitation is the total itself. */
  function Summarize(hourly: seq<Hour>): (r: Result<Weather, LoadError>)
    ensures r.Err? <==> |hourly| == 0
    ensures r.Err? ==> r.error == NoHourlyData
    ensures r.Ok? ==> r.value.precipMm == Total(hourly, PrecipMM)
    ensures r.Ok? ==> r.value.tempC * |hourly| as real == Total(hourly, TempC)
    ensures r.Ok? ==> r.value.windKph * |hourly| as real == Total(hourly, WindspeedKmph)
    ensures r.Ok? ==> r.value.humidityPct == Round(Mean(hourly, Humidity))
    ensures r.Ok? ==> r.value.conditionIcon == CodeToIcon(CodeOf(hourly[MidIndex(|hourly|)]))
    ensures r.Ok? ==> r.value.conditionText == TextOf(hourly[MidIndex(|hourly|)])
  {
    if |hourly| == 0 then Err(NoHourlyData)
    else
      var mid := hourly[MidIndex(|hourly|)];
      Ok(Weather(
        tempC := Mean(hourly, TempC),
        humidityPct := Round(Mean(hourly, Humidity)),
        windKph := Mean(hourly, WindspeedKmph),
        precipMm := Total(hourly, PrecipMM),
        conditionText := TextOf(mid),
        conditionIcon := CodeToIcon(CodeOf(mid))))
  }

  /** The provider part of `fetchWeather` after the cache missed. */
  function Aggregate(reply: ProviderReply, date: string): (r: Result<Weather, LoadError>)
    ensures reply.ProviderNotOk? ==> r == Err(WeatherFetchFailed)
    ensures reply.ProviderOk? && |reply.weather| == 0 ==> r == Err(NoDayBucket)
    ensures reply.ProviderOk? && |reply.weather| > 0 ==>
              r == Summarize(SelectBucket(reply.weather, date).value.hourly)
  {
    match reply
    case ProviderNotOk => Err(WeatherFetchFailed)
    case ProviderOk(buckets) =>
      match SelectBucket(buckets, date)
      case None => Err(NoDayBucket)
      case Some(bucket) => Summarize(bucket.hourly)
  }

  // ---------------------------------------------------------------------------
  // Properties of the aggregation

  /** A total is bounded by the count times the smallest and largest possible reading. */
  lemma {:induction false} TotalBounds(hourly: seq<Hour>, m: Measure, lo: real, hi: real)
    requires forall i :: 0 <= i < |hourly| ==> lo <= Reading(hourly[i], m) <= hi
    ensures |hourly| as real * lo <= Total(hourly, m) <= |hourly| as real * hi
  {
    if |hourly| > 0 {
      var init := hourly[..|hourly| - 1];
      assert forall i :: 0 <= i < |init| ==> init[i] == hourly[i];
      TotalBounds(init, m, lo, hi);
    }
  }

  /** A mean lies between the smallest and largest reading. */
  lemma MeanBetween(hourly: seq<Hour>, m: Measure, lo: real, hi: real)
    requires |hourly| > 0
    requires forall i :: 0 <= i < |hourly| ==> lo <= Reading(hourly[i], m) <= hi
    ensures lo <= Mean(hourly, m) <= hi
  {
    TotalBounds(hourly, m, lo, hi);
    var n := |hourly| as real;
    assert Mean(hourly, m) * n == Total(hourly, m);
  }

  /** Totals add up over concatenated lists, so the order of the fold does not matter. */
  lemma {:induction false} TotalAppend(a: seq<Hour>, b: seq<Hour>, m: Measure)
    ensures Total(a + b, m) == Total(a, m) + Total(b, m)
  {
    if |b| > 0 {
      var b' := b[..|b| - 1];
      assert (a + b)[..|a + b| - 1] == a + b';
      TotalAppend(a, b', m);
    } else {
      assert a + b == a;
    }
  }

  /** Samples with every reading missing contribute nothing: the totals are 0. */
  lemma {:induction false} TotalOfMissing(hourly: seq<Hour>, m: Measure)
    requires forall i :: 0 <= i < |hourly| ==> Reading(hourly[i], m) == 0.0
    ensures Total(hourly, m) == 0.0
  {
    if |hourly| > 0 {
      var init := hourly[..|hourly| - 1];
      assert forall i :: 0 <= i < |init| ==> init[i] == hourly[i];
      TotalOfMissing(init, m);
    }
  }

  /** The temperature of a summary lies between the smallest and largest
      hourly reading. */
  lemma SummaryTempWithinSamples(hourly: seq<Hour>, lo: real, hi: real)
    requires |hourly| > 0
    requires forall i :: 0 <= i < |hourly| ==> lo <= Reading(hourly[i], TempC) <= hi
    ensures Summarize(hourly).Ok? && lo <= Summarize(hourly).value.tempC <= hi
  {
    MeanBetween(hourly, TempC, lo, hi);
  }

  /** The wind speed of a summary lies between the smallest and largest
      hourly reading. */
  lemma SummaryWindWithinSamples(hourly: seq<Hour>, lo: real, hi: real)
    requires |hourly| > 0
    requires forall i :: 0 <= i < |hourly| ==> lo <= Reading(hourly[i], WindspeedKmph) <= hi
    ensures Summarize(hourly).Ok? && lo <= Summarize(hourly).value.windKph <= hi
  {
    MeanBetween(hourly, WindspeedKmph, lo, hi);
  }

  /** Humidity samples that are percentages round to a whole percentage. */
  lemma SummaryHumidityIsPercentage(hourly: seq<Hour>)
    requires |hourly| > 0
    requires forall i :: 0 <= i < |hourly| ==> 0.0 <= Reading(hourly[i], Humidity) <= 100.0
    ensures Summarize(hourly).Ok? && 0 <= Summarize(hourly).value.humidityPct <= 100
  {
    MeanBetween(hourly, Humidity, 0.0, 100.0);
  }

  /** Precipitation accumulates: it is the count times the mean, never
      negative, and never below the mean when amounts are non-negative. */
  lemma SummaryPrecipAccumulates(hourly: seq<Hour>)
    requires |hourly| > 0
    requires forall i :: 0 <= i < |hourly| ==> 0.0 <= Reading(hourly[i], PrecipMM)
    ensures Summarize(hourly).Ok?
    ensures Summarize(hourly).value.precipMm == |hourly| as real * Mean(hourly, PrecipMM)
    ensures Mean(hourly, PrecipMM) <= Summarize(hourly).value.precipMm
    ensures 0.0 <= Summarize(hourly).value.precipMm
  {
    ReadingAtMostTotal(hourly, PrecipMM);
    var n := |hourly| as real;
    var mean := Mean(hourly, PrecipMM);
    assert mean * n == Total(hourly, PrecipMM);
    assert 0.0 <= mean;
    assert (n - 1.0) * mean >= 0.0;
  }

  /** With non-negative readings, each reading is at most the total. */
  lemma {:induction false} ReadingAtMostTotal(hourly: seq<Hour>, m: Measure)
    requires forall i :: 0 <= i < |hourly| ==> 0.0 <= Reading(hourly[i], m)
    ensures 0.0 <= Total(hourly, m)
    ensures forall i :: 0 <= i < |hourly| ==> Reading(hourly[i], m) <= Total(hourly, m)
  {
    if |hourly| > 0 {
      var init := hourly[..|hourly| - 1];
      assert forall i :: 0 <= i < |init| ==> init[i] == hourly[i];
      ReadingAtMostTotal(init, m);
    }
  }
  /** A date that labels no bucket is not an error: the first bucket is summarised. */
  lemma UnmatchedDateUsesFirstBucket(buckets: seq<DayBucket>, date: string)
    requires |buckets| > 0 && |buckets[0].hourly| > 0
    requires forall j :: 0 <= j < |buckets| ==> buckets[j].date != date
    ensures Aggregate(ProviderOk(buckets), date) == Summarize(buckets[0].hourly)
    ensures Aggregate(ProviderOk(buckets), date).Ok?
  {
  }

  /** An hour that reports only precipitation and humidity. */
  function WetHour(precip: real, humidity: real): Hour {
    Hour(None, Some(humidity), None, Some(precip), None, None)
  }

  /** Worked examples: precipitation 0.0, 2.0 and 3.0 sums to 5.0, not its
      mean; humidity 40 and 41 averages 40.5 and rounds up to 41; with no
      code and no description the middle hour gives the overcast icon and "". */
  lemma AggregationExamples()
    ensures Summarize([WetHour(0.0, 40.0), WetHour(2.0, 41.0), WetHour(3.0, 40.0)]).value.precipMm == 5.0
    ensures Summarize([WetHour(0.0, 40.0), WetHour(0.0, 41.0)]).value.humidityPct == 41
    ensures Summarize([WetHour(0.0, 40.0), WetHour(0.0, 41.0)]).value.conditionIcon == Overcast
    ensures Summarize([WetHour(0.0, 40.0), WetHour(0.0, 41.0)]).value.conditionText == ""
  {
    var three := [WetHour(0.0, 40.0), WetHour(2.0, 41.0), WetHour(3.0, 40.0)];
    assert three[..2] == [WetHour(0.0, 40.0), WetHour(2.0, 41.0)];
    assert three[..2][..1] == [WetHour(0.0, 40.0)];
    assert [WetHour(0.0, 40.0)][..0] == [];
    assert Total(three[..2], PrecipMM) == 2.0;
    assert Total(three, PrecipMM) == 5.0;
    var two := [WetHour(0.0, 40.0), WetHour(0.0, 41.0)];
    assert two[..1] == [WetHour(0.0, 40.0)];
    assert [WetHour(0.0, 40.0)][..0] == [];
    assert Total(two, Humidity) == 81.0;
  }
}
