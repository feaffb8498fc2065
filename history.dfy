/** The reading history of `ChartCanvas`: three `deque(maxlen=60)` buffers
    filled together by `add_point`, and the two small layout decisions of
    `update_chart` that depend only on the number of points. */
module History {

  /** `max_points`. */
  const MaxPoints: nat := 60

  /** The newest `MaxPoints` elements of a sequence, oldest first. */
  function Newest<T>(s: seq<T>): (r: seq<T>)
    ensures |r| <= MaxPoints
  {
    if |s| <= MaxPoints then s else s[|s| - MaxPoints..]
  }

  /** `deque.append` on a deque bounded by `MaxPoints`: the new element goes
      last, and when the deque is full the oldest is evicted first. */
  function Push<T>(s: seq<T>, x: T): (r: seq<T>)
    requires |s| <= MaxPoints
    ensures r == Newest(s + [x])
  {
    if |s| < MaxPoints then s + [x] else s[1..] + [x]
  }

  /** The buffer after appending each element of `xs` in turn to an empty one. */
  function Replay<T>(xs: seq<T>): (r: seq<T>)
    ensures |r| <= MaxPoints
    decreases |xs|
  {
    if xs == [] then [] else Push(Replay(xs[..|xs| - 1]), xs[|xs| - 1])
  }

  /** Trimming before an append changes nothing once the append trims. */
  lemma NewestAppend<T>(s: seq<T>, x: T)
    ensures Newest(Newest(s) + [x]) == Newest(s + [x])
  {
    if |s| > MaxPoints {
      var tail := s[|s| - MaxPoints..];
      assert tail + [x] == (s + [x])[|s| - MaxPoints..];
      assert (tail + [x])[1..] == (s + [x])[|s| + 1 - MaxPoints..];
    }
  }

  /** Whatever was appended, the buffer holds exactly the newest sixty
      elements in arrival order. */
  lemma {:induction false} ReplayIsNewest<T>(xs: seq<T>)
    ensures Replay(xs) == Newest(xs)
    decreases |xs|
  {
    if xs != [] {
      var init, last := xs[..|xs| - 1], xs[|xs| - 1];
      ReplayIsNewest(init);
      assert xs == init + [last];
      calc {
        Replay(xs);
        Push(Replay(init), last);
        Newest(Newest(init) + [last]);
        { NewestAppend(init, last); }
        Newest(xs);
      }
    }
  }

  /** Appending never shortens the buffer. */
  lemma PushNeverShrinks<T>(s: seq<T>, x: T)
    requires |s| <= MaxPoints
    ensures |Push(s, x)| >= |s| && |Push(s, x)| >= 1
    ensures |s| < MaxPoints ==> |Push(s, x)| == |s| + 1
  {
  }

  /** The three buffers of `ChartCanvas`: clock readings, temperatures and
      humidities, one entry per recorded point. */
  class ChartHistory {
    var times: seq<real>
    var temps: seq<real>
    var hums: seq<real>

    ghost predicate Valid()
      reads this
    {
      |times| == |temps| == |hums| <= MaxPoints
    }

    constructor ()
      ensures Valid() && times == [] && temps == [] && hums == []
    {
      times, temps, hums := [], [], [];
    }

    /** `add_point`: one point goes into all three buffers together. */
    method AddPoint(now: real, temp: real, hum: real)
      requires Valid()
      modifies this
      ensures Valid()
      ensures times == Push(old(times), now)
      ensures temps == Push(old(temps), temp)
      ensures hums == Push(old(hums), hum)
    {
      times := Push(times, now);
      temps := Push(temps, temp);
      hums := Push(hums, hum);
    }
  }

  /** `show_markers`: markers are drawn only while fewer than 20 points are
      recorded. Once the buffer has reached 20 points it never drops below, so
      markers never come back. */
  function ShowMarkers(points: nat): (r: bool)
    ensures points == 0 ==> r
    ensures points >= MaxPoints ==> !r
  {
    points < 20
  }

  lemma MarkersStayOff<T>(s: seq<T>, x: T)
    requires |s| <= MaxPoints && !ShowMarkers(|s|)
    ensures !ShowMarkers(|Push(s, x)|)
  {
  }

  /** The number of elements of `range(0, n, step)`: `n / step` rounded up. */
  function StrideCount(n: nat, step: nat): nat
    requires step >= 1
  {
    (n + step - 1) / step
  }

  /** Every multiple of `step` counted by `StrideCount` lies below `n`. */
  lemma StrideInRange(n: nat, step: nat, i: nat)
    requires step >= 1 && i < StrideCount(n, step)
    ensures i * step < n
  {
    var q := StrideCount(n, step);
    assert q * step <= n + step - 1;
    assert i * step <= (q - 1) * step;
  }

  /** `range(0, n, step)` as a sequence. */
  function Stride(n: nat, step: nat): (r: seq<nat>)
    requires step >= 1
    ensures |r| == StrideCount(n, step)
    ensures forall i :: 0 <= i < |r| ==> r[i] == i * step && r[i] < n
    ensures n > 0 ==> |r| > 0
  {
    var r := seq(StrideCount(n, step), i requires 0 <= i => i * step);
    assert forall i :: 0 <= i < |r| ==> r[i] < n by {
      forall i | 0 <= i < |r| ensures r[i] < n {
        StrideInRange(n, step, i);
      }
    }
    r
  }

  /** Later entries of a stride are larger. */
  lemma StrideAscending(n: nat, step: nat)
    requires step >= 1
    ensures forall i, j :: 0 <= i < j < |Stride(n, step)| ==> Stride(n, step)[i] < Stride(n, step)[j]
  {
    var r := Stride(n, step);
    forall i, j | 0 <= i < j < |r| ensures r[i] < r[j] {
      assert r[j] - r[i] == (j - i) * step;
    }
  }

  /** The tick positions chosen for `n` points, as written: up to eight points
      get a tick each; beyond that every `n // 8`-th point does. */
  function TickPositions(n: nat): (r: seq<nat>)
    ensures forall i :: 0 <= i < |r| ==> r[i] < n
    ensures forall i, j :: 0 <= i < j < |r| ==> r[i] < r[j]
    ensures n > 0 ==> |r| > 0 && r[0] == 0
  {
    var numLabels := if n < 8 then n else 8;
    var step := if n > numLabels then (if n / numLabels < 1 then 1 else n / numLabels) else 1;
    StrideAscending(n, step);
    Stride(n, step)
  }

  /** Up to eight points every point gets a tick. */
  lemma FewPointsAllTicked(n: nat)
    requires n <= 8
    ensures TickPositions(n) == Stride(n, 1) && |TickPositions(n)| == n
  {
  }

  /** As written, more than eight points get `n / (n // 8)` ticks, rounded
      up: fifteen points get fifteen, 23 get twelve and a full buffer of 60
      gets nine, all more than the eight labels meant. */
  lemma TicksExceedLabelCount(n: nat)
    requires n > 8
    ensures |TickPositions(n)| == StrideCount(n, n / 8)
    ensures |TickPositions(15)| == 15 && |TickPositions(23)| == 12 && |TickPositions(60)| == 9
  {
  }

  /** A product bound fixes the factor: `a * k < b * k` with `k >= 1` means `a < b`. */
  lemma FactorLess(a: int, b: int, k: int)
    requires k >= 1 && a * k < b * k
    ensures a < b
  {
    assert (b - a) * k == b * k - a * k;
  }

  /** Above eight points, as written, exactly the multiples of eight get the
      eight ticks meant; every other count gets more. */
  lemma {:induction false} TicksEightOnlyOnMultiples(n: nat)
    requires n > 8
    ensures |TickPositions(n)| == 8 <==> n % 8 == 0
    ensures n % 8 != 0 ==> |TickPositions(n)| > 8
  {
    var k, m := n / 8, n % 8;
    assert n == 8 * k + m && k >= 1;
    var q := StrideCount(n, k);
    assert |TickPositions(n)| == q;
    assert q * k <= n + k - 1 < q * k + k;
    assert q * k + k == (q + 1) * k;
    if m == 0 {
      assert 8 * k <= n + k - 1 < 9 * k;
      FactorLess(q, 9, k);
      FactorLess(7, q, k);
    } else {
      assert 9 * k <= n + k - 1;
      FactorLess(8, q + 1, k);
    }
  }

  /** With `step` at least `n / 8` rounded up, a stride has at most eight
      entries. */
  lemma StrideAtMostEight(n: nat, step: nat)
    requires step >= 1 && 8 * step >= n
    ensures StrideCount(n, step) <= 8
  {
    var q := StrideCount(n, step);
    assert q * step <= n + step - 1;
    assert q * step < 9 * step;
  }

  /** The intended tick selection: the step is the count divided by eight,
      rounded up, so no more than eight ticks are drawn. */
  function TickPositionsCapped(n: nat): (r: seq<nat>)
    ensures forall i :: 0 <= i < |r| ==> r[i] < n
    ensures forall i, j :: 0 <= i < j < |r| ==> r[i] < r[j]
    ensures n > 0 ==> |r| > 0 && r[0] == 0
    ensures |r| <= 8
  {
    var step := if n > 8 then (n + 7) / 8 else 1;
    StrideAscending(n, step);
    StrideAtMostEight(n, step);
    Stride(n, step)
  }
}
