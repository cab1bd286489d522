/** The motion of a unit under a throttle sequence, over exact reals. */
module Kinematics {
  import opened Wrappers

  datatype SearchError = ZeroDivision | EmptyRange | SampleTooLarge | EmptyMinimum

  /** `calculate_velocity`. */
  function Velocity(v0: real, throttle: int, m: real, f: real): real
    requires m != 0.0
  {
    (v0 + throttle as real / m) * (1.0 - f)
  }

  /** The velocity after a sequence of throttles. */
  function FinalVelocity(v0: real, throttles: seq<int>, m: real, f: real): real
    requires m != 0.0
  {
    if throttles == [] then v0
    else
      var n := |throttles| - 1;
      Velocity(FinalVelocity(v0, throttles[..n], m, f), throttles[n], m, f)
  }

  /** The way covered: the sum of the velocities after each throttle. */
  function Distance(v0: real, throttles: seq<int>, m: real, f: real): real
    requires m != 0.0
  {
    if throttles == [] then 0.0
    else Distance(v0, throttles[..|throttles| - 1], m, f) + FinalVelocity(v0, throttles, m, f)
  }

  /** `calculate_total_distance`: distance and final velocity; only a zero mass makes it raise. */
  method CalculateTotalDistance(v0: real, throttles: seq<int>, m: real, f: real)
    returns (r: Result<(real, real), SearchError>)
    ensures r.Failure? <==> m == 0.0 && throttles != []
    ensures r.Success? && throttles == [] ==> r.value == (0.0, v0)
    ensures r.Success? && m != 0.0 ==> r.value == (Distance(v0, throttles, m, f), FinalVelocity(v0, throttles, m, f))
  {
    var totalDistance, velocity := 0.0, v0;
    for i := 0 to |throttles|
      invariant i > 0 ==> m != 0.0
      invariant i == 0 ==> totalDistance == 0.0 && velocity == v0
      invariant m != 0.0 ==> totalDistance == Distance(v0, throttles[..i], m, f)
      invariant m != 0.0 ==> velocity == FinalVelocity(v0, throttles[..i], m, f)
    {
      if m == 0.0 {
        return Failure(ZeroDivision);
      }
      assert throttles[..i + 1][..i] == throttles[..i];
      velocity := Velocity(velocity, throttles[i], m, f);
      totalDistance := totalDistance + velocity;
    }
    assert throttles[..|throttles|] == throttles;
    return Success((totalDistance, velocity));
  }

  /** One throttle: impulse first, then friction, and the way covered is the new velocity. */
  lemma OneThrottle(v0: real, t: int, m: real, f: real)
    requires m != 0.0
    ensures FinalVelocity(v0, [], m, f) == v0 && Distance(v0, [], m, f) == 0.0
    ensures FinalVelocity(v0, [t], m, f) == (v0 + t as real / m) * (1.0 - f)
    ensures Distance(v0, [t], m, f) == (v0 + t as real / m) * (1.0 - f)
  {
    assert [t][..0] == [];
  }

  // ----- conservation

  function ImpulseSum(throttles: seq<int>, m: real): real
    requires m != 0.0
  {
    if throttles == [] then 0.0
    else ImpulseSum(throttles[..|throttles| - 1], m) + throttles[|throttles| - 1] as real / m
  }

  /** What friction takes from the way is what the throttles gave and the velocity lost. */
  lemma {:induction false} Conservation(v0: real, throttles: seq<int>, m: real, f: real)
    requires m != 0.0
    ensures f * Distance(v0, throttles, m, f) ==
            (1.0 - f) * (v0 - FinalVelocity(v0, throttles, m, f) + ImpulseSum(throttles, m))
    decreases |throttles|
  {
    if throttles != [] {
      var n := |throttles| - 1;
      Conservation(v0, throttles[..n], m, f);
      var v, u := FinalVelocity(v0, throttles[..n], m, f), throttles[n] as real / m;
      var w := (v + u) * (1.0 - f);
      var d, p := Distance(v0, throttles[..n], m, f), ImpulseSum(throttles[..n], m);
      OneStepConserves(v0, v, u, w, d, p, f);
    }
  }

  lemma OneStepConserves(v0: real, v: real, u: real, w: real, d: real, p: real, f: real)
    requires w == (v + u) * (1.0 - f)
    requires f * d == (1.0 - f) * (v0 - v + p)
    ensures f * (d + w) == (1.0 - f) * (v0 - w + (p + u))
  {
    calc {
      f * (d + w);
      f * d + f * w;
      (1.0 - f) * (v0 - v + p) + w - (1.0 - f) * w;
      (1.0 - f) * (v0 - v + p) + (1.0 - f) * (v + u) - (1.0 - f) * w;
      (1.0 - f) * (v0 - w + (p + u));
    }
  }

  // ----- bounds

  function Max(a: real, b: real): real {
    if a < b then b else a
  }

  /** The speed at which friction and full throttle balance. */
  function Equilibrium(top: real, m: real, f: real): real
    requires m > 0.0 && f > 0.0
  {
    (top / m) * (1.0 - f) / f
  }

  /** The speed that neither the start nor full throttle for ever can exceed. */
  function SpeedBound(v0: real, top: real, m: real, f: real): real
    requires m > 0.0 && f > 0.0
  {
    Max(v0, Equilibrium(top, m, f))
  }

  lemma QuotientBelow(x: real, f: real, b: real)
    requires f > 0.0 && x / f <= b
    ensures x <= b * f
  {
    var q := x / f;
    assert q * f == x;
    ScaleUp(q, b, f);
  }

  lemma BoundIsKept(v: real, u: real, b: real, peak: real, f: real, g: real)
    requires 0.0 < f <= 1.0 && g == 1.0 - f && 0.0 <= v <= b && 0.0 <= u <= peak
    requires peak * g / f <= b
    ensures 0.0 <= (v + u) * g <= b
  {
    QuotientBelow(peak * g, f, b);
    ScaleUp(v + u, b + peak, g);
    ScaleUp(0.0, v + u, g);
    assert (b + peak) * g == b * g + peak * g;
    assert b * g + b * f == b;
  }

  lemma ScaleUp(x: real, y: real, k: real)
    requires x <= y && k >= 0.0
    ensures x * k <= y * k
  {
  }

  lemma ImpulseBound(t: int, top: real, m: real)
    requires m > 0.0 && 0.0 <= t as real <= top
    ensures 0.0 <= t as real / m <= top / m
  {
  }

  lemma VelocityIsBounded(v: real, t: int, m: real, f: real, top: real, b: real)
    requires m > 0.0 && 0.0 < f <= 1.0 && 0.0 <= t as real <= top
    requires 0.0 <= v <= b && Equilibrium(top, m, f) <= b
    ensures 0.0 <= Velocity(v, t, m, f) <= b
  {
    ImpulseBound(t, top, m);
    BoundIsKept(v, t as real / m, b, top / m, f, 1.0 - f);
  }

  predicate InRange(throttles: seq<int>, top: real) {
    forall i | 0 <= i < |throttles| :: 0.0 <= throttles[i] as real <= top
  }

  lemma {:induction false} SpeedStaysBelow(v0: real, throttles: seq<int>, m: real, f: real, top: real, b: real)
    requires m > 0.0 && 0.0 < f <= 1.0 && InRange(throttles, top)
    requires 0.0 <= v0 <= b && Equilibrium(top, m, f) <= b
    ensures 0.0 <= FinalVelocity(v0, throttles, m, f) <= b
    decreases |throttles|
  {
    if throttles != [] {
      var n := |throttles| - 1;
      SpeedStaysBelow(v0, throttles[..n], m, f, top, b);
      VelocityIsBounded(FinalVelocity(v0, throttles[..n], m, f), throttles[n], m, f, top, b);
    }
  }

  lemma {:induction false} DistanceStaysBelow(v0: real, throttles: seq<int>, m: real, f: real, top: real, b: real)
    requires m > 0.0 && 0.0 < f <= 1.0 && InRange(throttles, top)
    requires 0.0 <= v0 <= b && Equilibrium(top, m, f) <= b
    ensures 0.0 <= Distance(v0, throttles, m, f) <= Times(|throttles|, b)
    decreases |throttles|
  {
    if throttles != [] {
      DistanceStaysBelow(v0, throttles[..|throttles| - 1], m, f, top, b);
      SpeedStaysBelow(v0, throttles, m, f, top, b);
    }
  }

  /** n times b. */
  function Times(n: nat, b: real): real {
    if n == 0 then 0.0 else Times(n - 1, b) + b
  }

  lemma {:induction false} TimesIsProduct(n: nat, b: real)
    ensures Times(n, b) == (n as real) * b
  {
    if n > 0 {
      TimesIsProduct(n - 1, b);
      assert (n as real) * b == ((n - 1) as real) * b + b;
    }
  }

  lemma MotionStaysBelow(v0: real, throttles: seq<int>, m: real, f: real, top: real, b: real)
    requires m > 0.0 && 0.0 < f <= 1.0 && InRange(throttles, top)
    requires 0.0 <= v0 <= b && Equilibrium(top, m, f) <= b
    ensures 0.0 <= FinalVelocity(v0, throttles, m, f) <= b
    ensures 0.0 <= Distance(v0, throttles, m, f) <= (|throttles| as real) * b
  {
    SpeedStaysBelow(v0, throttles, m, f, top, b);
    DistanceStaysBelow(v0, throttles, m, f, top, b);
    TimesIsProduct(|throttles|, b);
  }

  /** Speed and way are bounded by the starting speed and the equilibrium speed at full throttle. */
  lemma MotionIsBounded(v0: real, throttles: seq<int>, m: real, f: real, top: real)
    requires m > 0.0 && 0.0 < f <= 1.0 && v0 >= 0.0 && InRange(throttles, top)
    ensures 0.0 <= FinalVelocity(v0, throttles, m, f) <= SpeedBound(v0, top, m, f)
    ensures 0.0 <= Distance(v0, throttles, m, f) <= (|throttles| as real) * SpeedBound(v0, top, m, f)
  {
    MotionStaysBelow(v0, throttles, m, f, top, SpeedBound(v0, top, m, f));
  }

  /** Raising throttles never lowers the velocity or the distance. */
  lemma {:induction false} MoreThrottleGoesFurther(v0: real, a: seq<int>, b: seq<int>, m: real, f: real)
    requires m > 0.0 && f <= 1.0 && |a| == |b|
    requires forall i | 0 <= i < |a| :: a[i] <= b[i]
    ensures FinalVelocity(v0, a, m, f) <= FinalVelocity(v0, b, m, f)
    ensures Distance(v0, a, m, f) <= Distance(v0, b, m, f)
    decreases |a|
  {
    if a != [] {
      var n := |a| - 1;
      MoreThrottleGoesFurther(v0, a[..n], b[..n], m, f);
      Divide(a[n] as real, b[n] as real, m);
      ScaleUp(FinalVelocity(v0, a[..n], m, f) + a[n] as real / m,
              FinalVelocity(v0, b[..n], m, f) + b[n] as real / m, 1.0 - f);
    }
  }

  lemma Divide(x: real, y: real, m: real)
    requires x <= y && m > 0.0
    ensures x / m <= y / m
  {
  }

  // ----- the step-by-step trace

  /** Positions and velocities along the way, the start included. */
  function Trace(v0: real, throttles: seq<int>, m: real, f: real, start: real): seq<(real, real)>
    requires m != 0.0
  {
    if throttles == [] then [(start, v0)]
    else
      var n := |throttles| - 1;
      Trace(v0, throttles[..n], m, f, start) +
      [(start + Distance(v0, throttles, m, f), FinalVelocity(v0, throttles, m, f))]
  }

  /** `get_distance_for_throttles_velocities`. */
  method DistancesAndVelocities(v0: real, m: real, f: real, throttles: seq<int>, start: real)
    returns (r: Result<seq<(real, real)>, SearchError>)
    ensures r.Failure? <==> m == 0.0 && throttles != []
    ensures throttles == [] ==> r == Success([(start, v0)])
    ensures r.Success? && m != 0.0 ==> r.value == Trace(v0, throttles, m, f, start)
  {
    var velocity, distance := v0, start;
    var trace := [(distance, velocity)];
    for i := 0 to |throttles|
      invariant i > 0 ==> m != 0.0
      invariant i == 0 ==> trace == [(start, v0)]
      invariant m != 0.0 ==> velocity == FinalVelocity(v0, throttles[..i], m, f)
      invariant m != 0.0 ==> distance == start + Distance(v0, throttles[..i], m, f)
      invariant m != 0.0 ==> trace == Trace(v0, throttles[..i], m, f, start)
    {
      if m == 0.0 {
        return Failure(ZeroDivision);
      }
      assert throttles[..i + 1][..i] == throttles[..i];
      velocity := Velocity(velocity, throttles[i], m, f);
      distance := distance + velocity;
      trace := trace + [(distance, velocity)];
    }
    assert throttles[..|throttles|] == throttles;
    return Success(trace);
  }

  /** Every point of the trace is where the throttles before it have led. */
  lemma {:induction false} TraceAt(v0: real, throttles: seq<int>, m: real, f: real, start: real, i: nat)
    requires m != 0.0 && i <= |throttles|
    ensures |Trace(v0, throttles, m, f, start)| == |throttles| + 1
    ensures Trace(v0, throttles, m, f, start)[i] ==
            (start + Distance(v0, throttles[..i], m, f), FinalVelocity(v0, throttles[..i], m, f))
    decreases |throttles|
  {
    var n := |throttles| - 1;
    if i < |throttles| {
      TraceAt(v0, throttles[..n], m, f, start, i);
      assert throttles[..n][..i] == throttles[..i];
    } else {
      TraceEndsAtTotals(v0, throttles, m, f, start);
      assert throttles[..i] == throttles;
    }
  }

  /** The trace ends where the totals say. */
  lemma TraceEndsAtTotals(v0: real, throttles: seq<int>, m: real, f: real, start: real)
    requires m != 0.0
    ensures |Trace(v0, throttles, m, f, start)| == |throttles| + 1
    ensures Trace(v0, throttles, m, f, start)[|throttles|] ==
            (start + Distance(v0, throttles, m, f), FinalVelocity(v0, throttles, m, f))
  {
  }

  lemma LastOfSum(a: seq<int>, b: seq<int>)
    requires b != []
    ensures a + b != [] && (a + b)[|a + b| - 1] == b[|b| - 1]
    ensures (a + b)[..|a + b| - 1] == a + b[..|b| - 1]
  {
  }

  lemma {:induction false} TotalsSplit(v0: real, a: seq<int>, b: seq<int>, m: real, f: real)
    requires m != 0.0
    ensures FinalVelocity(v0, a + b, m, f) == FinalVelocity(FinalVelocity(v0, a, m, f), b, m, f)
    ensures Distance(v0, a + b, m, f) == Distance(v0, a, m, f) + Distance(FinalVelocity(v0, a, m, f), b, m, f)
    decreases |b|
  {
    if b == [] {
      assert a + b == a;
    } else {
      var n := |b| - 1;
      LastOfSum(a, b);
      TotalsSplit(v0, a, b[..n], m, f);
    }
  }

  lemma DropFirst(rest: seq<(real, real)>, last: (real, real))
    requires rest != []
    ensures (rest + [last])[1..] == rest[1..] + [last]
  {
  }

  /** Driving on from where a first part ended gives the rest of the trace. */
  lemma {:induction false} TraceSplits(v0: real, a: seq<int>, b: seq<int>, m: real, f: real, start: real)
    requires m != 0.0
    ensures Trace(v0, a + b, m, f, start) ==
            Trace(v0, a, m, f, start) + Trace(FinalVelocity(v0, a, m, f), b, m, f, start + Distance(v0, a, m, f))[1..]
    decreases |b|
  {
    var v, s := FinalVelocity(v0, a, m, f), start + Distance(v0, a, m, f);
    if b == [] {
      assert a + b == a;
    } else {
      var n := |b| - 1;
      LastOfSum(a, b);
      TraceSplits(v0, a, b[..n], m, f, start);
      TotalsSplit(v0, a, b, m, f);
      TraceEndsAtTotals(v, b[..n], m, f, s);
      DropFirst(Trace(v, b[..n], m, f, s), (s + Distance(v, b, m, f), FinalVelocity(v, b, m, f)));
    }
  }
}
