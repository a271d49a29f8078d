/** Decoding of the National Weather Service hourly forecast's text fields:
    wind speeds written like "10 to 15 mph" and 16-point compass directions.
    Only ASCII digits and ASCII letter case are modelled. */
module Nws {
  import opened Wrappers
  import opened Json

  // ---------------------------------------------------------------------------
  // Digit runs (`re.findall(r"\d+", text)`)

  predicate IsDigit(c: char) { '0' <= c <= '9' }

  predicate AllDigits(s: string) { forall i :: 0 <= i < |s| ==> IsDigit(s[i]) }

  predicate NoDigits(s: string) { forall i :: 0 <= i < |s| ==> !IsDigit(s[i]) }

  /** The length of the longest all-digit prefix of `s`. */
  function LeadingDigits(s: string): (n: nat)
    ensures n <= |s|
    ensures AllDigits(s[..n])
    ensures n < |s| ==> !IsDigit(s[n])
  {
    if |s| == 0 || !IsDigit(s[0]) then 0
    else
      var m := LeadingDigits(s[1..]);
      assert s[..1 + m] == [s[0]] + s[1..][..m];
      1 + m
  }

  /** The maximal runs of digits in `s`, left to right. */
  function DigitRuns(s: string): (runs: seq<string>)
    ensures forall k :: 0 <= k < |runs| ==> |runs[k]| > 0 && AllDigits(runs[k])
    ensures |runs| == 0 <==> NoDigits(s)
    decreases |s|
  {
    if |s| == 0 then []
    else if !IsDigit(s[0]) then
      var rest := DigitRuns(s[1..]);
      assert NoDigits(s[1..]) ==> NoDigits(s) by {
        if NoDigits(s[1..]) {
          forall i | 0 < i < |s| ensures !IsDigit(s[i]) { assert s[i] == s[1..][i - 1]; }
        }
      }
      rest
    else
      var n := LeadingDigits(s);
      [s[..n]] + DigitRuns(s[n..])
  }

  /** `LeadingDigits` only looks as far as the first non-digit. */
  lemma {:induction false} LeadingDigitsAppend(a: string, t: string)
    requires LeadingDigits(a) < |a| || (|t| > 0 && !IsDigit(t[0]))
    ensures LeadingDigits(a + t) == LeadingDigits(a)
  {
    if |a| == 0 {
      assert (a + t)[0] == t[0];
    } else if !IsDigit(a[0]) {
    } else {
      assert (a + t)[1..] == a[1..] + t;
      LeadingDigitsAppend(a[1..], t);
    }
  }

  /** A non-digit separates runs: the runs of `a + [c] + b` are the runs of
      `a` followed by the runs of `b`. */
  lemma {:induction false} RunsSplitAtSeparator(a: string, c: char, b: string)
    requires !IsDigit(c)
    ensures DigitRuns(a + [c] + b) == DigitRuns(a) + DigitRuns(b)
    decreases |a|
  {
    var s := a + [c] + b;
    if |a| == 0 {
      assert s == [c] + b;
      assert s[1..] == b;
    } else if !IsDigit(a[0]) {
      assert s[1..] == a[1..] + [c] + b;
      RunsSplitAtSeparator(a[1..], c, b);
    } else {
      var m := LeadingDigits(a);
      assert a + [c] + b == a + ([c] + b);
      LeadingDigitsAppend(a, [c] + b);
      assert s[..m] == a[..m];
      if m == |a| {
        assert s[m..] == [c] + b;
        assert ([c] + b)[1..] == b;
        assert a[m..] == [];
      } else {
        assert s[m..] == a[m..] + [c] + b;
        RunsSplitAtSeparator(a[m..], c, b);
      }
    }
  }

  /** A non-empty block of digits is a single run. */
  lemma DigitBlockIsOneRun(d: string)
    requires |d| > 0 && AllDigits(d)
    ensures DigitRuns(d) == [d]
  {
    var n := LeadingDigits(d);
    assert n == |d|;
    assert d[..n] == d;
    assert d[n..] == [];
  }

  /** Text without digits has no runs. */
  lemma NoDigitsNoRuns(s: string)
    requires NoDigits(s)
    ensures DigitRuns(s) == []
  {
  }

  // ---------------------------------------------------------------------------
  // Decimal values and the wind-speed parser

  function DigitValue(c: char): nat
    requires IsDigit(c)
  {
    c as int - '0' as int
  }

  /** The integer a run of digits denotes (`float(val)` without rounding). */
  function DecimalValue(d: string): nat
    requires AllDigits(d)
  {
    if |d| == 0 then 0 else 10 * DecimalValue(d[..|d| - 1]) + DigitValue(d[|d| - 1])
  }

  function DigitChar(n: nat): (c: char)
    requires n < 10
    ensures IsDigit(c) && DigitValue(c) == n
  {
    ('0' as int + n) as char
  }

  /** The decimal rendering of a natural number, without leading zeros. */
  function ShowNat(n: nat): (d: string)
    ensures |d| > 0 && AllDigits(d)
  {
    if n < 10 then [DigitChar(n)] else ShowNat(n / 10) + [DigitChar(n % 10)]
  }

  /** Reading back a rendered number gives the number. */
  lemma {:induction false} DecimalValueOfShowNat(n: nat)
    ensures DecimalValue(ShowNat(n)) == n
  {
    if n >= 10 {
      var d := ShowNat(n);
      assert d[..|d| - 1] == ShowNat(n / 10);
      DecimalValueOfShowNat(n / 10);
    }
  }

  /** The sum of the values of a list of runs. */
  function SumValues(runs: seq<string>): nat
    requires forall k :: 0 <= k < |runs| ==> AllDigits(runs[k])
  {
    if |runs| == 0 then 0 else DecimalValue(runs[0]) + SumValues(runs[1..])
  }

  /** Knots per statute mile per hour, to six decimal places (an exact rational here). */
  const KnotsPerMph: real := 0.868976

  /** `mph_to_knots`: a knot is a little faster than a mile per hour, so a
      positive speed shrinks and zero stays zero. */
  function MphToKnots(mph: real): (knots: real)
    ensures mph > 0.0 ==> 0.0 < knots < mph
    ensures mph == 0.0 ==> knots == 0.0
  {
    mph * KnotsPerMph
  }

  /** Converting keeps the order of speeds. */
  lemma MphToKnotsMonotone(a: real, b: real)
    requires a < b
    ensures MphToKnots(a) < MphToKnots(b)
  {
  }

  /** `parse_wind_speed`: `None` when the text holds no digit; otherwise the
      mean of the values of its digit runs, converted to knots. The source
      converts a lone run directly; that agrees with the mean of one value. */
  function ParseWindSpeed(text: string): (r: Option<real>)
    ensures r.None? <==> NoDigits(text)
    ensures r.Some? ==> r.value >= 0.0
    ensures r.Some? ==>
              r.value == MphToKnots(SumValues(DigitRuns(text)) as real / |DigitRuns(text)| as real)
  {
    var runs := DigitRuns(text);
    if |runs| == 0 then None
    else if |runs| == 1 then
      assert SumValues(runs) == DecimalValue(runs[0]);
      Some(MphToKnots(DecimalValue(runs[0]) as real))
    else
      Some(MphToKnots(SumValues(runs) as real / |runs| as real))
  }

  /** The parse of a text whose digit runs are exactly two numbers. */
  lemma ParseTwoRuns(text: string, a: nat, b: nat)
    requires DigitRuns(text) == [ShowNat(a), ShowNat(b)]
    ensures ParseWindSpeed(text) == Some(MphToKnots((a + b) as real / 2.0))
  {
    var runs := DigitRuns(text);
    DecimalValueOfShowNat(a);
    DecimalValueOfShowNat(b);
    assert runs[1..] == [ShowNat(b)];
    assert SumValues(runs[1..]) == b;
    assert SumValues(runs) == a + b;
  }

  /** A single number in the text converts exactly: "12 mph" is 12 mph in knots. */
  lemma ParseSingleSpeed(n: nat, unit: string)
    requires NoDigits(unit)
    ensures ParseWindSpeed(ShowNat(n) + [' '] + unit) == Some(MphToKnots(n as real))
  {
    RunsSplitAtSeparator(ShowNat(n), ' ', unit);
    DigitBlockIsOneRun(ShowNat(n));
    DecimalValueOfShowNat(n);
  }

  /** A range "a to b mph" is read as its midpoint. */
  lemma ParseSpeedRange(a: nat, b: nat)
    ensures ParseWindSpeed(ShowNat(a) + " to " + ShowNat(b) + " mph")
            == Some(MphToKnots((a + b) as real / 2.0))
  {
    var sa, sb := ShowNat(a), ShowNat(b);
    var t2 := sb + [' '] + "mph";
    var t1 := "to" + [' '] + t2;
    var text := sa + [' '] + t1;
    assert sa + " to " + sb + " mph" == text;
    RunsSplitAtSeparator(sb, ' ', "mph");
    DigitBlockIsOneRun(sb);
    NoDigitsNoRuns("mph");
    assert DigitRuns(t2) == [sb];
    RunsSplitAtSeparator("to", ' ', t2);
    NoDigitsNoRuns("to");
    assert DigitRuns(t1) == [sb];
    RunsSplitAtSeparator(sa, ' ', t1);
    DigitBlockIsOneRun(sa);
    assert DigitRuns(text) == [sa, sb];
    ParseTwoRuns(text, a, b);
  }

  // ---------------------------------------------------------------------------
  // Compass directions

  function UpperChar(c: char): char
  {
    if 'a' <= c <= 'z' then (c as int - 32) as char else c
  }

  function LowerChar(c: char): char
  {
    if 'A' <= c <= 'Z' then (c as int + 32) as char else c
  }

  /** `str.upper` on ASCII letters. */
  function Upper(s: string): (u: string)
    ensures |u| == |s| && forall i :: 0 <= i < |s| ==> u[i] == UpperChar(s[i])
  {
    seq(|s|, i requires 0 <= i < |s| => UpperChar(s[i]))
  }

  /** `str.lower` on ASCII letters. */
  function Lower(s: string): (l: string)
    ensures |l| == |s| && forall i :: 0 <= i < |s| ==> l[i] == LowerChar(s[i])
  {
    seq(|s|, i requires 0 <= i < |s| => LowerChar(s[i]))
  }

  /** The sixteen compass points, clockwise from north. */
  const CompassPoints: seq<string> :=
    ["N", "NNE", "NE", "ENE", "E", "ESE", "SE", "SSE",
     "S", "SSW", "SW", "WSW", "W", "WNW", "NW", "NNW"]

  /** The lookup table of `cardinal_to_degrees`: each point's bearing in whole
      degrees, the half-degree points rounded down. */
  const CompassTable: map<string, int> := map[
    "N" := 0, "NNE" := 22, "NE" := 45, "ENE" := 67,
    "E" := 90, "ESE" := 112, "SE" := 135, "SSE" := 157,
    "S" := 180, "SSW" := 202, "SW" := 225, "WSW" := 247,
    "W" := 270, "WNW" := 292, "NW" := 315, "NNW" := 337]

  /** The table holds exactly the sixteen points, the i-th at 22.5 * i
      degrees rounded down. */
  lemma CompassTableIsClockwise()
    ensures forall p :: p in CompassTable <==> p in CompassPoints
    ensures forall i :: 0 <= i < |CompassPoints| ==> CompassTable[CompassPoints[i]] == 45 * i / 2
  {
  }

  /** `cardinal_to_degrees`: upper-case the text and look it up. */
  function CardinalToDegrees(cardinal: string): (r: Option<int>)
    ensures r.Some? <==> Upper(cardinal) in CompassPoints
    ensures forall i :: 0 <= i < |CompassPoints| && Upper(cardinal) == CompassPoints[i] ==>
              r == Some(45 * i / 2)
    ensures r.Some? ==> 0 <= r.value <= 337
  {
    CompassTableIsClockwise();
    var u := Upper(cardinal);
    if u in CompassTable then Some(CompassTable[u]) else None
  }

  /** Matching ignores case: lower-casing the text first changes nothing. */
  lemma CardinalIgnoresCase(cardinal: string)
    ensures CardinalToDegrees(Lower(cardinal)) == CardinalToDegrees(cardinal)
  {
    assert Upper(Lower(cardinal)) == Upper(cardinal);
  }

  /** Going clockwise the bearings strictly increase. */
  lemma CompassClockwiseIncreasing(i: int, j: int)
    requires 0 <= i < j < |CompassPoints|
    ensures CardinalToDegrees(CompassPoints[i]).value < CardinalToDegrees(CompassPoints[j]).value
  {
    assert Upper(CompassPoints[i]) == CompassPoints[i];
    assert Upper(CompassPoints[j]) == CompassPoints[j];
  }

  // ---------------------------------------------------------------------------
  // The first hourly period of an NWS forecast

  /** The wind reading taken from the first hourly period. */
  datatype NwsReading = NwsReading(time: Value, speedKnots: Option<real>, directionDeg: Option<int>)

  /** The pure half of `fetch_nws_wind`, from the list of hourly periods on.
      An empty list raises `ValueError`; a first period that is not a
      dictionary, or text fields that are not strings, raise too. A missing
      `windSpeed` or `windDirection` reads as the empty string. The direction
      is looked up unless it is empty or reads "variable" in any case. */
  function DecodeFirstPeriod(periods: seq<Value>): (r: Result<NwsReading, Fault>)
    ensures |periods| == 0 ==> r == Failure(NoPeriods)
    ensures r.Success? ==>
              && periods[0].Obj?
              && r.value.time == Get(periods[0].fields, "startTime")
              && var speed := if "windSpeed" in periods[0].fields then periods[0].fields["windSpeed"] else Str("");
              && speed.Str?
              && r.value.speedKnots == ParseWindSpeed(speed.s)
    ensures r.Success? ==>
              var d := if "windDirection" in periods[0].fields then periods[0].fields["windDirection"] else Str("");
              r.value.directionDeg == if d.Str? then CardinalToDegrees(d.s) else None
    ensures r.Failure? <==>
              || |periods| == 0
              || !periods[0].Obj?
              || (var f := periods[0].fields;
                  || ("windSpeed" in f && !f["windSpeed"].Str?)
                  || ("windDirection" in f && Truthy(f["windDirection"]) && !f["windDirection"].Str?))
  {
    if |periods| == 0 then Failure(NoPeriods)
    else if !periods[0].Obj? then Failure(NotADictionary(periods[0]))
    else
      var period := periods[0].fields;
      var speedText := if "windSpeed" in period then period["windSpeed"] else Str("");
      if !speedText.Str? then Failure(NotAString(speedText))
      else
        var direction := if "windDirection" in period then period["windDirection"] else Str("");
        if Truthy(direction) && !direction.Str? then Failure(NotAString(direction))
        else
          var degrees :=
            if Truthy(direction) && Lower(direction.s) != "variable" then CardinalToDegrees(direction.s)
            else None;
          assert direction.Str? ==> degrees == CardinalToDegrees(direction.s) by {
            if direction.Str? && !(Truthy(direction) && Lower(direction.s) != "variable") {
              assert direction.s == "" || Lower(direction.s) == "variable";
              SkippedDirectionsAreNotPoints(direction.s);
            }
          }
          Success(NwsReading(Get(period, "startTime"), ParseWindSpeed(speedText.s), degrees))
  }

  /** The directions the decoder skips, the empty string and any casing of
      "variable", have no compass bearing anyway. */
  lemma SkippedDirectionsAreNotPoints(d: string)
    requires d == "" || Lower(d) == "variable"
    ensures CardinalToDegrees(d) == None
  {
    if Lower(d) == "variable" {
      CardinalIgnoresCase(d);
      assert Upper(Lower(d)) == "VARIABLE";
    } else {
      assert Upper(d) == "";
    }
  }
}
