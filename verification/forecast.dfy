/** Normalisation of the forecast provider's payload into the response's
    `current` record and its truncated `hourly` series. Everything the source
    does inside the provider's `try` block after the fetch is modelled here;
    an exception raised there (calling `.get` on something that is not a
    dictionary) is an outcome with `ok == false`, which is how the endpoint
    records the provider as failed. */
module Forecast {
  import opened Wrappers
  import opened Json
  import Sailability

  /** A truncated hourly block: every list-valued key of the provider's
      `hourly` object, cut to a common maximum length. */
  type Series = map<string, seq<Value>>

  /** The number of hourly slots the endpoint keeps. */
  const HourlySlots: nat := 24

  /** `min(a, b)` on natural numbers. */
  function MinNat(a: nat, b: nat): nat { if a <= b then a else b }

  /** `values[:count]` for a non-negative `count`. */
  function Prefix(values: seq<Value>, count: nat): (p: seq<Value>)
    ensures |p| == if |values| <= count then |values| else count
    ensures p <= values
  {
    if |values| <= count then values else values[..count]
  }

  /** `slice_hourly`: falsy input or an input without a list under `"time"`
      gives `None`; a truthy non-dictionary raises; otherwise every list-valued
      key keeps its first `count` items and every other key is dropped. */
  function SliceHourly(hourly: Value, count: nat): (r: Result<Option<Series>, Fault>)
    ensures r.Failure? <==> Truthy(hourly) && !hourly.Obj?
    ensures r == Success(None) <==>
              !Truthy(hourly) || (hourly.Obj? && !Get(hourly.fields, "time").Arr?)
    ensures r.Success? && r.value.Some? ==>
              && hourly.Obj?
              && "time" in r.value.value
              && (forall k :: k in r.value.value <==> k in hourly.fields && hourly.fields[k].Arr?)
              && (forall k :: k in r.value.value ==>
                    r.value.value[k] <= hourly.fields[k].items
                    && |r.value.value[k]| == MinNat(|hourly.fields[k].items|, count))
  {
    if !Truthy(hourly) then Success(None)
    else if !hourly.Obj? then Failure(NotADictionary(hourly))
    else if !Get(hourly.fields, "time").Arr? then Success(None)
    else
      var fields := hourly.fields;
      Success(Some(map k | k in fields && fields[k].Arr? :: Prefix(fields[k].items, count)))
  }

  /** A series written back as the JSON object it is sent as. */
  function AsValue(s: Series): Value
  {
    Obj(map k | k in s :: Arr(s[k]))
  }

  /** Slicing twice is slicing once to the smaller count; in particular
      slicing a sliced series again with the same count changes nothing. */
  lemma SliceTwice(hourly: Value, n: nat, m: nat, s: Series)
    requires SliceHourly(hourly, n) == Success(Some(s))
    ensures SliceHourly(AsValue(s), m) == SliceHourly(hourly, MinNat(n, m))
    ensures m == n ==> SliceHourly(AsValue(s), m) == Success(Some(s))
  {
    var fields := hourly.fields;
    var k := MinNat(n, m);
    assert "time" in s;
    assert Get(AsValue(s).fields, "time").Arr?;
    assert Truthy(AsValue(s)) by { assert "time" in AsValue(s).fields; }
    var lhs := SliceHourly(AsValue(s), m).value.value;
    var rhs := SliceHourly(hourly, k).value.value;
    assert lhs.Keys == rhs.Keys;
    forall key | key in lhs ensures lhs[key] == rhs[key] {
      assert lhs[key] == Prefix(Prefix(fields[key].items, n), m);
    }
    assert lhs == rhs;
    if m == n {
      forall key | key in s ensures Prefix(s[key], n) == s[key] { }
    }
  }

  /** When every list in the input is at least `count` long, every list in the
      result has exactly `count` entries: the series stay index-aligned. */
  lemma SliceAligns(hourly: Value, count: nat, s: Series)
    requires SliceHourly(hourly, count) == Success(Some(s))
    requires forall k :: k in hourly.fields && hourly.fields[k].Arr? ==> |hourly.fields[k].items| >= count
    ensures forall k :: k in s ==> |s[k]| == count
  {
  }

  /** The normalised current-conditions record. A gust the provider leaves
      null in its live reading is read from the first hourly slot instead. */
  datatype Current = Current(
    time: Value,
    temperatureF: Value,
    windSpeedKnots: Value,
    windDirectionDeg: Value,
    windGustKnots: Value,
    weatherCode: Value)

  /** The record as the dictionary the endpoint stores under `current`; the
      gust key is present even when its value is null. */
  function Fields(c: Current): map<string, Value>
  {
    map[
      "time" := c.time,
      "temperature_f" := c.temperatureF,
      Sailability.SpeedKey := c.windSpeedKnots,
      "wind_direction_deg" := c.windDirectionDeg,
      Sailability.GustKey := c.windGustKnots,
      "weather_code" := c.weatherCode]
  }

  /** The first hourly gust, when the hourly block is a dictionary holding a
      non-empty list under `windgusts_10m` (`None` when the block is falsy). */
  function FirstHourlyGust(forecast: map<string, Value>): (r: Result<Value, Fault>)
    ensures r.Failure? <==> Truthy(Get(forecast, "hourly")) && !Get(forecast, "hourly").Obj?
    ensures r.Success? && r.value != Null ==>
              Get(forecast, "hourly").Obj? &&
              var gusts := Get(Get(forecast, "hourly").fields, "windgusts_10m");
              gusts.Arr? && |gusts.items| > 0 && r.value == gusts.items[0]
    ensures Get(forecast, "hourly").Obj? ==>
              var gusts := Get(Get(forecast, "hourly").fields, "windgusts_10m");
              gusts.Arr? && |gusts.items| > 0 ==> r == Success(gusts.items[0])
    ensures r.Success? && !(Get(forecast, "hourly").Obj?
                            && Get(Get(forecast, "hourly").fields, "windgusts_10m").Arr?
                            && |Get(Get(forecast, "hourly").fields, "windgusts_10m").items| > 0)
            ==> r.value == Null
  {
    var h := Get(forecast, "hourly");
    if !Truthy(h) then Success(Null)
    else if !h.Obj? then Failure(NotADictionary(h))
    else
      var gusts := Get(h.fields, "windgusts_10m");
      if gusts.Arr? && |gusts.items| > 0 then Success(gusts.items[0]) else Success(Null)
  }

  /** The gust of the current record: the live `windgusts` unless it is null,
      else the first hourly gust. */
  function Gust(forecast: map<string, Value>, live: map<string, Value>): Result<Value, Fault>
  {
    var g := Get(live, "windgusts");
    if g != Null then Success(g) else FirstHourlyGust(forecast)
  }

  /** The `current` record, built only when `current_weather` is truthy. */
  function ReadCurrent(forecast: map<string, Value>): Result<Option<Current>, Fault>
  {
    var cw := Get(forecast, "current_weather");
    if !Truthy(cw) then Success(None)
    else if !cw.Obj? then Failure(NotADictionary(cw))
    else
      match Gust(forecast, cw.fields)
      case Failure(e) => Failure(e)
      case Success(g) =>
        var live := cw.fields;
        Success(Some(Current(
          Get(live, "time"), Get(live, "temperature"), Get(live, "windspeed"),
          Get(live, "winddirection"), g, Get(live, "weathercode"))))
  }

  /** What the endpoint holds after the forecast step: the `current` and
      `hourly` entries of the response and whether the provider is recorded
      as ok. A raise in `slice_hourly` happens after `current` was stored, so
      a failed step can still carry a current record. */
  datatype ForecastStep = ForecastStep(current: Option<Current>, hourly: Option<Series>, ok: bool)

  /** The pure part of the conditions endpoint's forecast block. */
  function Normalise(forecast: Value): (r: ForecastStep)
    ensures !r.ok ==> r.hourly.None?
    ensures r.current.Some? ==>
              && forecast.Obj?
              && Truthy(Get(forecast.fields, "current_weather"))
              && Get(forecast.fields, "current_weather").Obj?
    ensures r.current.Some? ==>
              var live := Get(forecast.fields, "current_weather").fields;
              && r.current.value.time == Get(live, "time")
              && r.current.value.temperatureF == Get(live, "temperature")
              && r.current.value.windSpeedKnots == Get(live, "windspeed")
              && r.current.value.windDirectionDeg == Get(live, "winddirection")
              && r.current.value.weatherCode == Get(live, "weathercode")
              && (Get(live, "windgusts") != Null ==> r.current.value.windGustKnots == Get(live, "windgusts"))
              && (Get(live, "windgusts") == Null ==>
                    var h := Get(forecast.fields, "hourly");
                    var gusts := if h.Obj? then Get(h.fields, "windgusts_10m") else Null;
                    r.current.value.windGustKnots
                      == if gusts.Arr? && |gusts.items| > 0 then gusts.items[0] else Null)
    ensures r.current.Some? <==>
              && forecast.Obj?
              && var live := Get(forecast.fields, "current_weather");
              && Truthy(live) && live.Obj?
              && (|| Get(live.fields, "windgusts") != Null
                  || !Truthy(Get(forecast.fields, "hourly"))
                  || Get(forecast.fields, "hourly").Obj?)
    ensures r.ok <==>
              && forecast.Obj?
              && !(Truthy(Get(forecast.fields, "current_weather")) && !Get(forecast.fields, "current_weather").Obj?)
              && !(Truthy(Get(forecast.fields, "hourly")) && !Get(forecast.fields, "hourly").Obj?)
    ensures r.ok ==> r.hourly == SliceHourly(Get(forecast.fields, "hourly"), HourlySlots).value
  {
    if !forecast.Obj? then ForecastStep(None, None, false)
    else
      match ReadCurrent(forecast.fields)
      case Failure(_) => ForecastStep(None, None, false)
      case Success(current) =>
        match SliceHourly(Get(forecast.fields, "hourly"), HourlySlots)
        case Failure(_) => ForecastStep(current, None, false)
        case Success(hourly) => ForecastStep(current, hourly, true)
  }

  /** A live gust makes the hourly block irrelevant to the current record:
      replacing `hourly` by anything leaves `current` unchanged. */
  lemma LiveGustIgnoresHourly(forecast: map<string, Value>, other: Value)
    requires Get(forecast, "current_weather").Obj?
    requires Get(Get(forecast, "current_weather").fields, "windgusts") != Null
    ensures Normalise(Obj(forecast["hourly" := other])).current == Normalise(Obj(forecast)).current
  {
    var f2 := forecast["hourly" := other];
    assert Get(f2, "current_weather") == Get(forecast, "current_weather");
  }

  /** A backfilled gust is the first slot of the `windgusts_10m` series the
      same response carries, so the two never disagree. */
  lemma BackfillMatchesHourly(forecast: map<string, Value>)
    requires Normalise(Obj(forecast)).ok
    requires Normalise(Obj(forecast)).current.Some?
    requires Get(Get(forecast, "current_weather").fields, "windgusts") == Null
    requires Normalise(Obj(forecast)).current.value.windGustKnots != Null
    ensures Normalise(Obj(forecast)).hourly.Some? ==>
              var s := Normalise(Obj(forecast)).hourly.value;
              "windgusts_10m" in s && |s["windgusts_10m"]| > 0
              && s["windgusts_10m"][0] == Normalise(Obj(forecast)).current.value.windGustKnots
  {
  }

  /** The record always carries the gust key, so `get_sailability` never
      falls back to the speed for a normalised record: a null gust with a
      speed in the go band makes the verdict raise, and a numeric gust is
      compared as it is. */
  lemma NullGustReachesSailability(c: Current)
    requires IsNumber(c.windSpeedKnots)
    ensures Sailability.GustKey in Fields(c)
    ensures Sailability.InGoBand(NumberValue(c.windSpeedKnots)) && !IsNumber(c.windGustKnots)
            <==> Sailability.GetSailability(Some(Fields(c))).Failure?
    ensures IsNumber(c.windGustKnots) && Sailability.InGoBand(NumberValue(c.windSpeedKnots))
            ==> (Sailability.GetSailability(Some(Fields(c))) == Success(Sailability.GoVerdict)
                 <==> NumberValue(c.windGustKnots) <= 30.0)
  {
    assert Get(Fields(c), Sailability.SpeedKey) == c.windSpeedKnots;
    assert Fields(c)[Sailability.GustKey] == c.windGustKnots;
  }

  /** The verdict the endpoint computes from whatever `current` the forecast
      step left in the response. */
  function StepVerdict(step: ForecastStep): (r: Result<Sailability.Verdict, Sailability.SailabilityError>)
    ensures r == Success(Sailability.NoWindData)
            <==> step.current.None? || !IsNumber(step.current.value.windSpeedKnots)
    ensures step.current.Some? && IsNumber(step.current.value.windSpeedKnots) ==>
              (r.Failure? <==> Sailability.InGoBand(NumberValue(step.current.value.windSpeedKnots))
                               && !IsNumber(step.current.value.windGustKnots))
  {
    match step.current
    case None => Sailability.GetSailability(None)
    case Some(c) =>
      assert Get(Fields(c), Sailability.SpeedKey) == c.windSpeedKnots;
      if IsNumber(c.windSpeedKnots) then
        NullGustReachesSailability(c);
        Sailability.GetSailability(Some(Fields(c)))
      else Sailability.GetSailability(Some(Fields(c)))
  }

  /** A provider recorded as failed can still leave a current record, and so
      a real verdict, behind: here `hourly` is a non-empty list, so slicing
      it raises after `current` was stored from a live 15-knot reading. */
  lemma FailedStepKeepsCurrent()
    ensures var live := Obj(map["windspeed" := Num(15.0), "windgusts" := Num(20.0)]);
            var step := Normalise(Obj(map["current_weather" := live, "hourly" := Arr([Null])]));
            && !step.ok
            && step.current.Some?
            && StepVerdict(step) == Success(Sailability.GoVerdict)
  {
    var live := Obj(map["windspeed" := Num(15.0), "windgusts" := Num(20.0)]);
    var f := map["current_weather" := live, "hourly" := Arr([Null])];
    assert Get(f, "current_weather") == live;
    assert Get(live.fields, "windgusts") == Num(20.0);
    assert Get(f, "hourly") == Arr([Null]);
    var c := Normalise(Obj(f)).current.value;
    assert Get(Fields(c), Sailability.SpeedKey) == Num(15.0);
  }

  /** Normalising a 15-knot live reading with no gust anywhere succeeds and
      leaves a null gust in the record. */
  lemma GustlessStep(live: Value, hourly: Value)
    requires live == Obj(map["windspeed" := Num(15.0)])
    requires hourly == Obj(map["time" := Arr([Str("2024-06-01T12:00")])])
    ensures var step := Normalise(Obj(map["current_weather" := live, "hourly" := hourly]));
            && step.ok
            && step.current.Some?
            && step.current.value.windSpeedKnots == Num(15.0)
            && step.current.value.windGustKnots == Null
  {
    var f := map["current_weather" := live, "hourly" := hourly];
    assert Get(f, "current_weather") == live;
    assert Get(live.fields, "windspeed") == Num(15.0);
    assert Get(live.fields, "windgusts") == Null;
    assert Get(f, "hourly") == hourly;
    assert Get(hourly.fields, "windgusts_10m") == Null;
    assert Get(hourly.fields, "time").Arr?;
  }

  /** A 15-knot record with a null gust: the verdict as written raises, and
      the null-safe rule gives "go". */
  lemma GustlessVerdicts(c: Current)
    requires c.windSpeedKnots == Num(15.0) && c.windGustKnots == Null
    ensures Sailability.GetSailability(Some(Fields(c))).Failure?
    ensures Sailability.GetSailabilityNullSafe(Some(Fields(c))) == Success(Sailability.GoVerdict)
  {
    NullGustReachesSailability(c);
    assert Sailability.InGoBand(NumberValue(c.windSpeedKnots));
    assert Get(Fields(c), Sailability.SpeedKey) == Num(15.0);
    assert Fields(c) - {Sailability.GustKey} == map[
      "time" := c.time, "temperature_f" := c.temperatureF, Sailability.SpeedKey := c.windSpeedKnots,
      "wind_direction_deg" := c.windDirectionDeg, "weather_code" := c.weatherCode];
  }

  /** As written, a forecast that reports a go-band speed but no gust at all
      (no live gust, no hourly gusts) makes the verdict raise instead of
      falling back to the speed; the null-safe rule gives "go". */
  lemma MissingGustRaises()
    ensures var live := Obj(map["windspeed" := Num(15.0)]);
            var hourly := Obj(map["time" := Arr([Str("2024-06-01T12:00")])]);
            var step := Normalise(Obj(map["current_weather" := live, "hourly" := hourly]));
            && step.ok
            && step.current.Some?
            && step.current.value.windGustKnots == Null
            && StepVerdict(step).Failure?
            && Sailability.GetSailabilityNullSafe(Some(Fields(step.current.value)))
               == Success(Sailability.GoVerdict)
  {
    var live := Obj(map["windspeed" := Num(15.0)]);
    var hourly := Obj(map["time" := Arr([Str("2024-06-01T12:00")])]);
    var step := Normalise(Obj(map["current_weather" := live, "hourly" := hourly]));
    GustlessStep(live, hourly);
    GustlessVerdicts(step.current.value);
  }
}
