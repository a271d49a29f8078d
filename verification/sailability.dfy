/** The go / marginal / no-go verdict computed from a normalised
    current-conditions record, using fixed wind-speed and gust bands (knots). */
module Sailability {
  import opened Wrappers
  import opened Json

  datatype Status = Go | Marginal | NoGo | Unknown

  datatype Verdict = Verdict(status: Status, reason: string)

  /** Comparing a non-numeric gust (`None`, a string, ...) with 30 raises a
      `TypeError` in Python 3; the verdict is then not produced at all. */
  datatype SailabilityError = GustNotComparable(gust: Value)

  const NoWindData: Verdict := Verdict(Unknown, "No wind data available.")
  const GoVerdict: Verdict := Verdict(Go, "Wind in the 12-25 kt range with manageable gusts.")
  const MarginalVerdict: Verdict := Verdict(Marginal, "Wind is close but not ideal.")
  const NoGoVerdict: Verdict := Verdict(NoGo, "Wind outside the usual sailing range.")

  /** The key names of a normalised current-conditions record. */
  const SpeedKey: string := "wind_speed_knots"
  const GustKey: string := "wind_gust_knots"

  /** Speed inside the go band, [12, 25] knots. */
  predicate InGoBand(speed: real) { 12.0 <= speed <= 25.0 }

  /** Speed inside either marginal band, [8, 12) or (25, 30] knots. */
  predicate InMarginalBand(speed: real) { 8.0 <= speed < 12.0 || 25.0 < speed <= 30.0 }

  /** `get_sailability`. `current` is the record as a dictionary (or `None`).
      The gust defaults to the speed only when its key is absent; a present
      `null` gust is read as it is. The gust is consulted only for a speed in
      the go band, and only there can the comparison raise. */
  function GetSailability(current: Option<map<string, Value>>): (r: Result<Verdict, SailabilityError>)
    ensures r.Success? ==> r.value in {NoWindData, GoVerdict, MarginalVerdict, NoGoVerdict}
    ensures (current.None? || !IsNumber(Get(current.value, SpeedKey))) <==> r == Success(NoWindData)
    ensures r.Failure? <==>
              && current.Some?
              && IsNumber(Get(current.value, SpeedKey))
              && InGoBand(NumberValue(Get(current.value, SpeedKey)))
              && GustKey in current.value
              && !IsNumber(current.value[GustKey])
    ensures current.Some? && IsNumber(Get(current.value, SpeedKey)) ==>
              var speed := NumberValue(Get(current.value, SpeedKey));
              && (r == Success(GoVerdict) <==>
                    InGoBand(speed)
                    && (GustKey in current.value ==>
                          IsNumber(current.value[GustKey]) && NumberValue(current.value[GustKey]) <= 30.0))
              && (r == Success(MarginalVerdict) <==> InMarginalBand(speed))
              && (r == Success(NoGoVerdict) <==>
                    !InMarginalBand(speed)
                    && (!InGoBand(speed)
                        || (GustKey in current.value && IsNumber(current.value[GustKey])
                            && NumberValue(current.value[GustKey]) > 30.0)))
  {
    if current.None? || |current.value| == 0 || !IsNumber(Get(current.value, SpeedKey)) then
      Success(NoWindData)
    else
      var speedValue := current.value[SpeedKey];
      var speed := NumberValue(speedValue);
      var gust := if GustKey in current.value then current.value[GustKey] else speedValue;
      if InGoBand(speed) && !IsNumber(gust) then Failure(GustNotComparable(gust))
      else if InGoBand(speed) && NumberValue(gust) <= 30.0 then Success(GoVerdict)
      else if InMarginalBand(speed) then Success(MarginalVerdict)
      else Success(NoGoVerdict)
  }

  /** A record with a numeric speed and a numeric gust. */
  function Reading(speed: real, gust: real): map<string, Value>
  {
    map[SpeedKey := Num(speed), GustKey := Num(gust)]
  }

  /** An order on statuses by how sailable they are. */
  function Rank(s: Status): int
  {
    match s
    case Go => 2
    case Marginal => 1
    case NoGo => 0
    case Unknown => 0
  }

  /** Stronger gusts never improve the verdict: for the same speed, raising a
      numeric gust can only keep or lower the status. */
  lemma GustMonotone(speed: real, gust1: real, gust2: real)
    requires gust1 <= gust2
    ensures GetSailability(Some(Reading(speed, gust1))).Success?
    ensures GetSailability(Some(Reading(speed, gust2))).Success?
    ensures Rank(GetSailability(Some(Reading(speed, gust2))).value.status)
            <= Rank(GetSailability(Some(Reading(speed, gust1))).value.status)
  {
  }

  /** With the gust key absent the gust stands in for the speed, so the
      verdict depends on the speed alone: go inside [12, 25], marginal in the
      marginal bands, no-go elsewhere. */
  lemma AbsentGustUsesSpeed(speed: real)
    ensures var r := GetSailability(Some(map[SpeedKey := Num(speed)]));
            && r.Success?
            && (InGoBand(speed) ==> r.value == GoVerdict)
            && (InMarginalBand(speed) ==> r.value == MarginalVerdict)
            && (!InGoBand(speed) && !InMarginalBand(speed) ==> r.value == NoGoVerdict)
  {
  }

  /** The band examples: 15/20 is go, 9/9 marginal, 5/5 no-go, and 12 knots
      with a 31-knot gust is no-go because the gust cap overrides the speed. */
  lemma BandExamples()
    ensures GetSailability(Some(Reading(15.0, 20.0))) == Success(GoVerdict)
    ensures GetSailability(Some(Reading(9.0, 9.0))) == Success(MarginalVerdict)
    ensures GetSailability(Some(Reading(5.0, 5.0))) == Success(NoGoVerdict)
    ensures GetSailability(Some(Reading(12.0, 31.0))) == Success(NoGoVerdict)
  {
  }

  /** The gust rule as evidently intended: a gust that is absent OR null
      stands in for the speed. Only a gust of another type (a string, a list)
      can still make the comparison fail. */
  function GetSailabilityNullSafe(current: Option<map<string, Value>>): (r: Result<Verdict, SailabilityError>)
    ensures current.Some? && IsNumber(Get(current.value, SpeedKey))
            && (IsNumber(Get(current.value, GustKey)) || Get(current.value, GustKey) == Null)
            ==> r.Success?
    ensures GetSailability(current).Success? ==> r == GetSailability(current)
    ensures current.Some? && GustKey in current.value && current.value[GustKey] == Null
            ==> r == GetSailability(Some(current.value - {GustKey}))
  {
    if current.Some? && GustKey in current.value && current.value[GustKey] == Null then
      GetSailability(Some(current.value - {GustKey}))
    else GetSailability(current)
  }
}
