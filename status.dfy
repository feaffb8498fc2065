/** The status evaluator: the tier rule of `DashboardWindow._update_status`
    and the score of `DashboardWindow._compute_stability`, as pure functions of
    the reading pair and the selected profile. Floats are modelled as reals. */
module Status {
  import opened Wrappers
  import opened Profiles

  datatype Tier = Ok | Warn | Critical

  function Abs(x: real): real { if x < 0.0 then -x else x }

  function Max(a: real, b: real): real { if a < b then b else a }

  /** The envelope proper: no bound strictly exceeded. */
  predicate InEnvelope(p: Profile, temp: real, hum: real) {
    p.tmin <= temp <= p.tmax && p.umin <= hum <= p.umax
  }

  /** Ten percent of the temperature range (`t_edge`). */
  function TempMargin(p: Profile): real { (p.tmax - p.tmin) * 0.10 }

  /** Ten percent of the humidity range, but never below one point (`u_edge`). */
  function HumMargin(p: Profile): real { Max(1.0, (p.umax - p.umin) * 0.10) }

  /** At least a full margin away from each of the four edges. */
  predicate ClearOfEdges(p: Profile, temp: real, hum: real) {
    && p.tmin + TempMargin(p) <= temp <= p.tmax - TempMargin(p)
    && p.umin + HumMargin(p) <= hum <= p.umax - HumMargin(p)
  }

  /** The tier rule: CRITICAL outside the envelope (strict comparisons), WARN
      inside it but nearer than a margin to some edge, OK otherwise. */
  function Classify(p: Profile, temp: real, hum: real): (t: Tier)
    ensures t == Critical <==> !InEnvelope(p, temp, hum)
    ensures t == Ok <==> InEnvelope(p, temp, hum) && ClearOfEdges(p, temp, hum)
    ensures t == Warn <==> InEnvelope(p, temp, hum) && !ClearOfEdges(p, temp, hum)
  {
    if temp < p.tmin || temp > p.tmax || hum < p.umin || hum > p.umax then
      Critical
    else
      var tEdge := TempMargin(p);
      var uEdge := HumMargin(p);
      if (temp - p.tmin) < tEdge || (p.tmax - temp) < tEdge then Warn
      else if (hum - p.umin) < uEdge || (p.umax - hum) < uEdge then Warn
      else Ok
  }

  /** Python's `round` on one argument: the nearest integer, ties to even. */
  function RoundHalfEven(x: real): (r: int)
    ensures x - 0.5 <= r as real <= x + 0.5
    ensures (r as real - x == 0.5 || x - r as real == 0.5) ==> r % 2 == 0
  {
    var f := x.Floor;
    var frac := x - f as real;
    if frac < 0.5 then f
    else if frac > 0.5 then f + 1
    else if f % 2 == 0 then f
    else f + 1
  }

  /** `t_score`: 100 at the optimum, falling linearly with the distance from
      it (a full temperature range away scores 0), never below 0. */
  function TemperatureScore(p: Profile, temp: real): (s: real)
    requires p.tmin < p.tmax
    ensures 0.0 <= s <= 100.0
    ensures s == 100.0 <==> temp == p.optimum
  {
    var tRange := p.tmax - p.tmin;
    var tDist := Abs(temp - p.optimum);
    var s := Max(0.0, 100.0 - (tDist / tRange) * 100.0);
    assert s == 100.0 ==> tDist == 0.0 by {
      if s == 100.0 {
        assert tDist / tRange == 0.0;
        assert tDist == (tDist / tRange) * tRange;
      }
    }
    s
  }

  /** `u_score`: 100 inside the humidity bounds, two points lost per point
      outside them, never below 0. */
  function HumidityScore(p: Profile, hum: real): (s: real)
    ensures 0.0 <= s <= 100.0
    ensures s == 100.0 <==> !(hum < p.umin) && !(hum > p.umax)
  {
    var belowPenalty := if hum < p.umin then (p.umin - hum) * 2.0 else 0.0;
    var abovePenalty := if hum > p.umax then (hum - p.umax) * 2.0 else 0.0;
    Max(0.0, 100.0 - belowPenalty - abovePenalty)
  }

  /** The stability score of a reading pair under a profile: the 65/35 blend
      of the two scores, rounded. */
  function Stability(p: Profile, temp: real, hum: real): (r: int)
    requires p.tmin < p.tmax
    ensures 0 <= r <= 100
    ensures temp == p.optimum && p.umin <= hum <= p.umax ==> r == 100
  {
    RoundHalfEven(TemperatureScore(p, temp) * 0.65 + HumidityScore(p, hum) * 0.35)
  }

  /** `_compute_stability` with the selected profile identifier as argument:
      0 for an unknown identifier. */
  function ComputeStability(key: string, temp: real, hum: real): (r: int)
    ensures 0 <= r <= 100
    ensures Lookup(key).None? ==> r == 0
  {
    match Lookup(key)
    case None => 0
    case Some(p) => Stability(p, temp, hum)
  }

  /** No integer is nearer to `x` than the rounded value, and on a tie the even
      one is taken, so the rounding is determined uniquely. */
  lemma RoundHalfEvenIsNearest(x: real, n: int)
    ensures Abs(x - RoundHalfEven(x) as real) <= Abs(x - n as real)
    ensures Abs(x - n as real) == Abs(x - RoundHalfEven(x) as real) && n % 2 == 0 ==> n == RoundHalfEven(x)
  {
    var r := RoundHalfEven(x);
    if n != r {
      if n < r {
        assert n as real <= r as real - 1.0;
      } else {
        assert n as real >= r as real + 1.0;
      }
      if Abs(x - n as real) == Abs(x - r as real) {
        assert Abs(x - r as real) == 0.5;
        assert n == r - 1 || n == r + 1;
      }
    }
  }

  /** A reading exactly on a temperature bound is never CRITICAL: with the
      humidity inside its bounds it is WARN. */
  lemma TemperatureBoundIsWarn(p: Profile, hum: real)
    requires WellFormed(p) && p.umin <= hum <= p.umax
    ensures Classify(p, p.tmin, hum) == Warn
    ensures Classify(p, p.tmax, hum) == Warn
  {
  }

  /** Likewise a humidity exactly on a bound is WARN, not CRITICAL. */
  lemma HumidityBoundIsWarn(p: Profile, temp: real)
    requires WellFormed(p) && p.tmin <= temp <= p.tmax
    ensures Classify(p, temp, p.umin) == Warn
    ensures Classify(p, temp, p.umax) == Warn
  {
  }

  /** Every profile of the table has an OK region: its optimum temperature at
      40% humidity is OK and scores 100. */
  lemma TableOptimumIsOk(key: string)
    requires Lookup(key).Some?
    ensures Classify(Lookup(key).value, Lookup(key).value.optimum, 40.0) == Ok
    ensures ComputeStability(key, Lookup(key).value.optimum, 40.0) == 100
  {
  }

  /** The worked examples for the vaccine profile (2..8 C, optimum 5,
      20..60 %): 5 C / 40 % is OK with stability 100, 2.5 C is WARN (inside the
      0.6 C margin above 2 C) and 1 C is CRITICAL. */
  lemma VaccineExamples()
    ensures Classify(Table["vacina"], 5.0, 40.0) == Ok
    ensures ComputeStability("vacina", 5.0, 40.0) == 100
    ensures Classify(Table["vacina"], 2.5, 40.0) == Warn
    ensures Classify(Table["vacina"], 1.0, 40.0) == Critical
  {
  }

  /** A score of 100 does not pin the temperature to the optimum: 5.02 C under
      the vaccine profile blends to 99.78..., which rounds to 100. */
  lemma FullScoreOffOptimum()
    ensures ComputeStability("vacina", 5.02, 40.0) == 100
    ensures 5.02 != Table["vacina"].optimum
  {
  }
}
