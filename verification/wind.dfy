/** The multi-source wind summary (`aggregate_wind`): the samples that carry a
    speed are averaged, their spread measured, and the providers that
    contributed listed. The circular mean of the directions, the square root,
    and rounding are floating-point steps outside this model; the summary keeps
    the population variance and the directions that feed the circular mean. */
module Wind {
  import opened Wrappers

  /** One provider's reading; `None` stands for a null field. */
  datatype Sample = Sample(source: string, speedKnots: Option<real>, directionDeg: Option<real>)

  /** The summary of a spot's readings. A mean direction exists exactly when
      `directions` is non-empty. */
  datatype Summary = Summary(
    meanSpeedKnots: real,
    varianceKnots2: real,
    directions: seq<real>,
    sources: seq<string>)

  predicate HasSpeed(s: Sample) { s.speedKnots.Some? }

  /** The speeds of the samples that carry one, in order. */
  function Speeds(samples: seq<Sample>): (xs: seq<real>)
    ensures |xs| <= |samples|
    ensures |xs| == 0 <==> forall i :: 0 <= i < |samples| ==> !HasSpeed(samples[i])
    ensures forall x :: x in xs <==> exists i :: 0 <= i < |samples| && samples[i].speedKnots == Some(x)
  {
    if |samples| == 0 then []
    else
      var rest := Speeds(samples[1..]);
      assert forall i :: 1 <= i < |samples| ==> samples[i] == samples[1..][i - 1];
      if HasSpeed(samples[0]) then [samples[0].speedKnots.value] + rest else rest
  }

  /** The directions of the samples that carry a speed and a direction. */
  function Directions(samples: seq<Sample>): (ds: seq<real>)
    ensures |ds| == 0 <==> forall i :: 0 <= i < |samples| && HasSpeed(samples[i]) ==> samples[i].directionDeg.None?
  {
    if |samples| == 0 then []
    else
      var rest := Directions(samples[1..]);
      assert forall i :: 1 <= i < |samples| ==> samples[i] == samples[1..][i - 1];
      if HasSpeed(samples[0]) && samples[0].directionDeg.Some? then [samples[0].directionDeg.value] + rest
      else rest
  }

  /** The non-empty source names of the samples that carry a speed, in order. */
  function Sources(samples: seq<Sample>): (names: seq<string>)
    ensures |names| <= |samples|
    ensures forall n :: n in names <==>
              exists i :: 0 <= i < |samples| && HasSpeed(samples[i]) && samples[i].source == n && n != ""
  {
    if |samples| == 0 then []
    else
      var rest := Sources(samples[1..]);
      assert forall i :: 1 <= i < |samples| ==> samples[i] == samples[1..][i - 1];
      if HasSpeed(samples[0]) && samples[0].source != "" then [samples[0].source] + rest else rest
  }

  function Sum(xs: seq<real>): real
  {
    if |xs| == 0 then 0.0 else xs[0] + Sum(xs[1..])
  }

  function Square(d: real): real { d * d }

  /** The sum of squared deviations of `xs` from `m`. */
  function SquaredDeviations(xs: seq<real>, m: real): real
  {
    if |xs| == 0 then 0.0 else Square(xs[0] - m) + SquaredDeviations(xs[1..], m)
  }

  /** The arithmetic mean of a non-empty list: some value lies at or below
      it and some value at or above it. */
  function Mean(xs: seq<real>): (m: real)
    requires |xs| > 0
    ensures |xs| as real * m == Sum(xs)
    ensures exists k :: 0 <= k < |xs| && xs[k] <= m
    ensures exists k :: 0 <= k < |xs| && xs[k] >= m
  {
    var m := Sum(xs) / |xs| as real;
    QuotientTimesDivisor(Sum(xs), |xs| as real);
    MeanAttained(xs, m);
    m
  }

  /** The population variance: never negative, and zero exactly when every
      value equals the mean. */
  function Variance(xs: seq<real>): (v: real)
    requires |xs| > 0
    ensures v >= 0.0
    ensures v == 0.0 <==> forall k :: 0 <= k < |xs| ==> xs[k] == Mean(xs)
  {
    var d := SquaredDeviations(xs, Mean(xs));
    SquaredDeviationsNonNegative(xs, Mean(xs));
    SquaredDeviationsZero(xs, Mean(xs));
    QuotientSign(d, |xs| as real);
    d / |xs| as real
  }

  /** `aggregate_wind`: `None` when no sample carries a speed; otherwise the
      mean speed, lying between the smallest and the largest speed, the
      population variance, the directions, and the contributing sources. */
  function Aggregate(samples: seq<Sample>): (r: Option<Summary>)
    ensures r.None? <==> forall i :: 0 <= i < |samples| ==> !HasSpeed(samples[i])
    ensures r.Some? ==> exists i :: 0 <= i < |samples| && HasSpeed(samples[i])
                                    && samples[i].speedKnots.value <= r.value.meanSpeedKnots
    ensures r.Some? ==> exists i :: 0 <= i < |samples| && HasSpeed(samples[i])
                                    && samples[i].speedKnots.value >= r.value.meanSpeedKnots
    ensures r.Some? ==> r.value.varianceKnots2 >= 0.0
    ensures r.Some? ==>
              && r.value.meanSpeedKnots == Mean(Speeds(samples))
              && r.value.varianceKnots2 == Variance(Speeds(samples))
              && r.value.directions == Directions(samples)
              && r.value.sources == Sources(samples)
    ensures r.Some? ==> (|r.value.directions| == 0 <==>
              forall i :: 0 <= i < |samples| && HasSpeed(samples[i]) ==> samples[i].directionDeg.None?)
  {
    var xs := Speeds(samples);
    if |xs| == 0 then None
    else
      var mean := Mean(xs);
      MeanAttainedBySample(samples, mean);
      Some(Summary(mean, Variance(xs), Directions(samples), Sources(samples)))
  }

  // ---------------------------------------------------------------------------
  // Facts about sums

  lemma {:induction false} SumBelow(xs: seq<real>, c: real)
    requires forall k :: 0 <= k < |xs| ==> xs[k] <= c
    ensures Sum(xs) <= |xs| as real * c
  {
    if |xs| > 0 {
      SumBelow(xs[1..], c);
    }
  }

  lemma {:induction false} SumAbove(xs: seq<real>, c: real)
    requires forall k :: 0 <= k < |xs| ==> xs[k] >= c
    ensures Sum(xs) >= |xs| as real * c
  {
    if |xs| > 0 {
      SumAbove(xs[1..], c);
    }
  }

  lemma {:induction false} SumStrictlyBelow(xs: seq<real>, c: real)
    requires |xs| > 0
    requires forall k :: 0 <= k < |xs| ==> xs[k] < c
    ensures Sum(xs) < |xs| as real * c
  {
    SumBelow(xs[1..], c);
  }

  lemma {:induction false} SumStrictlyAbove(xs: seq<real>, c: real)
    requires |xs| > 0
    requires forall k :: 0 <= k < |xs| ==> xs[k] > c
    ensures Sum(xs) > |xs| as real * c
  {
    SumAbove(xs[1..], c);
  }

  /** Some value is at most the mean and some value is at least the mean. */
  lemma MeanAttained(xs: seq<real>, mean: real)
    requires |xs| > 0
    requires |xs| as real * mean == Sum(xs)
    ensures exists k :: 0 <= k < |xs| && xs[k] <= mean
    ensures exists k :: 0 <= k < |xs| && xs[k] >= mean
  {
    if forall k :: 0 <= k < |xs| ==> xs[k] > mean {
      SumStrictlyAbove(xs, mean);
    }
    if forall k :: 0 <= k < |xs| ==> xs[k] < mean {
      SumStrictlyBelow(xs, mean);
    }
  }

  /** The mean of the valid speeds is bracketed by two samples' speeds. */
  lemma MeanAttainedBySample(samples: seq<Sample>, mean: real)
    requires exists k :: 0 <= k < |Speeds(samples)| && Speeds(samples)[k] <= mean
    requires exists k :: 0 <= k < |Speeds(samples)| && Speeds(samples)[k] >= mean
    ensures exists i :: 0 <= i < |samples| && HasSpeed(samples[i]) && samples[i].speedKnots.value <= mean
    ensures exists i :: 0 <= i < |samples| && HasSpeed(samples[i]) && samples[i].speedKnots.value >= mean
  {
    var xs := Speeds(samples);
    var k1 :| 0 <= k1 < |xs| && xs[k1] <= mean;
    var k2 :| 0 <= k2 < |xs| && xs[k2] >= mean;
    assert xs[k1] in xs;
    var i1 :| 0 <= i1 < |samples| && samples[i1].speedKnots == Some(xs[k1]);
    assert HasSpeed(samples[i1]) && samples[i1].speedKnots.value <= mean;
    assert xs[k2] in xs;
    var i2 :| 0 <= i2 < |samples| && samples[i2].speedKnots == Some(xs[k2]);
    assert HasSpeed(samples[i2]) && samples[i2].speedKnots.value >= mean;
  }

  lemma QuotientTimesDivisor(a: real, n: real)
    requires n > 0.0
    ensures n * (a / n) == a
  {
  }

  /** Dividing by a positive number keeps the sign and keeps zero. */
  lemma QuotientSign(a: real, n: real)
    requires n > 0.0
    ensures a >= 0.0 ==> a / n >= 0.0
    ensures a / n == 0.0 <==> a == 0.0
  {
    var q := a / n;
    QuotientTimesDivisor(a, n);
    if q < 0.0 {
      calc { a; n * q; -(n * (-q)); < { ProductPositive(n, -q); } 0.0; }
    } else if q > 0.0 {
      calc { a; n * q; > { ProductPositive(n, q); } 0.0; }
    } else {
      calc { a; n * q; n * 0.0; 0.0; }
    }
  }

  lemma ProductPositive(x: real, y: real)
    requires x > 0.0 && y > 0.0
    ensures x * y > 0.0
  {
  }

  /** A square is never negative and vanishes only at zero. */
  lemma SquareSign(d: real)
    ensures Square(d) >= 0.0
    ensures d != 0.0 ==> Square(d) > 0.0
  {
    if d > 0.0 {
      calc { Square(d); d * d; > { ProductPositive(d, d); } 0.0; }
    } else if d < 0.0 {
      calc { Square(d); d * d; (-d) * (-d); > { ProductPositive(-d, -d); } 0.0; }
    } else {
      calc { Square(d); 0.0 * 0.0; 0.0; }
    }
  }

  lemma {:induction false} SquaredDeviationsNonNegative(xs: seq<real>, m: real)
    ensures SquaredDeviations(xs, m) >= 0.0
  {
    if |xs| > 0 {
      SquareSign(xs[0] - m);
      SquaredDeviationsNonNegative(xs[1..], m);
    }
  }

  /** The squared deviations vanish exactly when every value equals `m`. */
  lemma {:induction false} SquaredDeviationsZero(xs: seq<real>, m: real)
    ensures SquaredDeviations(xs, m) == 0.0 <==> forall k :: 0 <= k < |xs| ==> xs[k] == m
  {
    if |xs| > 0 {
      var tail := xs[1..];
      SquaredDeviationsNonNegative(tail, m);
      SquaredDeviationsZero(tail, m);
      SquareSign(xs[0] - m);
      if forall k :: 0 <= k < |xs| ==> xs[k] == m {
        assert forall k :: 0 <= k < |tail| ==> tail[k] == m by {
          forall k | 0 <= k < |tail| ensures tail[k] == m { assert tail[k] == xs[k + 1]; }
        }
      }
      if SquaredDeviations(xs, m) == 0.0 {
        assert xs[0] == m;
        forall k | 0 <= k < |xs| ensures xs[k] == m {
          if k > 0 { assert xs[k] == tail[k - 1]; }
        }
      }
    }
  }

  lemma {:induction false} SumOfConstant(xs: seq<real>, c: real)
    requires forall k :: 0 <= k < |xs| ==> xs[k] == c
    ensures Sum(xs) == |xs| as real * c
  {
    if |xs| > 0 {
      SumOfConstant(xs[1..], c);
    }
  }

  // ---------------------------------------------------------------------------
  // Properties of the summary

  /** Any bounds on the valid speeds bound the mean speed too. */
  lemma MeanWithinBounds(samples: seq<Sample>, lo: real, hi: real)
    requires Aggregate(samples).Some?
    requires forall i :: 0 <= i < |samples| && HasSpeed(samples[i]) ==> lo <= samples[i].speedKnots.value <= hi
    ensures lo <= Aggregate(samples).value.meanSpeedKnots <= hi
  {
    var xs := Speeds(samples);
    assert forall k :: 0 <= k < |xs| ==> lo <= xs[k] <= hi by {
      forall k | 0 <= k < |xs| ensures lo <= xs[k] <= hi {
        assert xs[k] in xs;
      }
    }
    SumBelow(xs, hi);
    SumAbove(xs, lo);
  }

  /** The variance is zero exactly when every provider reports the same speed. */
  lemma VarianceZeroIffAgreement(samples: seq<Sample>)
    requires Aggregate(samples).Some?
    ensures Aggregate(samples).value.varianceKnots2 == 0.0 <==>
            forall i, j :: 0 <= i < |samples| && 0 <= j < |samples| && HasSpeed(samples[i]) && HasSpeed(samples[j])
                           ==> samples[i].speedKnots == samples[j].speedKnots
  {
    var xs := Speeds(samples);
    var mean := Mean(xs);
    var agree := forall i, j :: 0 <= i < |samples| && 0 <= j < |samples| && HasSpeed(samples[i]) && HasSpeed(samples[j])
                           ==> samples[i].speedKnots == samples[j].speedKnots;
    if agree {
      var c := xs[0];
      assert xs[0] in xs;
      forall k | 0 <= k < |xs| ensures xs[k] == c {
        assert xs[k] in xs;
      }
      SumOfConstant(xs, c);
      assert mean == c;
    }
    if Variance(xs) == 0.0 {
      forall i, j | 0 <= i < |samples| && 0 <= j < |samples| && HasSpeed(samples[i]) && HasSpeed(samples[j])
        ensures samples[i].speedKnots == samples[j].speedKnots
      {
        assert samples[i].speedKnots.value in xs;
        assert samples[j].speedKnots.value in xs;
      }
    }
  }

  /** A single provider's reading is summarised as itself, with no spread. */
  lemma SingleSample(s: Sample)
    requires HasSpeed(s)
    ensures Aggregate([s]).Some?
    ensures Aggregate([s]).value.meanSpeedKnots == s.speedKnots.value
    ensures Aggregate([s]).value.varianceKnots2 == 0.0
  {
    assert Speeds([s]) == [s.speedKnots.value];
  }

  /** The source list is order-preserving: the sources of a concatenation are
      the sources of each part, in order. */
  lemma {:induction false} SourcesOfConcat(a: seq<Sample>, b: seq<Sample>)
    ensures Sources(a + b) == Sources(a) + Sources(b)
  {
    if |a| > 0 {
      assert (a + b)[1..] == a[1..] + b;
      SourcesOfConcat(a[1..], b);
    } else {
      assert a + b == b;
    }
  }

  /** The speed list keeps order and multiplicity: the speeds of a
      concatenation are the speeds of each part, in order. */
  lemma {:induction false} SpeedsOfConcat(a: seq<Sample>, b: seq<Sample>)
    ensures Speeds(a + b) == Speeds(a) + Speeds(b)
  {
    if |a| > 0 {
      var ab := a + b;
      assert ab[0] == a[0];
      assert ab[1..] == a[1..] + b;
      SpeedsOfConcat(a[1..], b);
      if HasSpeed(a[0]) {
        calc {
          Speeds(ab);
          [a[0].speedKnots.value] + Speeds(a[1..] + b);
          [a[0].speedKnots.value] + (Speeds(a[1..]) + Speeds(b));
          ([a[0].speedKnots.value] + Speeds(a[1..])) + Speeds(b);
          Speeds(a) + Speeds(b);
        }
      } else {
        calc {
          Speeds(ab);
          Speeds(a[1..] + b);
          Speeds(a[1..]) + Speeds(b);
          Speeds(a) + Speeds(b);
        }
      }
    } else {
      assert a + b == b;
    }
  }

  /** With no sample at all there is no summary, not a summary of nulls. */
  lemma NoSamplesNoSummary()
    ensures Aggregate([]) == None
  {
  }
}
