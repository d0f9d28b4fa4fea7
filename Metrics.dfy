/**
 * Process metrics: monotone u64 counters, the time of the last
 * transcribed line, and six sliding windows counting the lines of the
 * last hour, 30, 15, 5 and 1 minutes and 30 seconds. Instants are
 * integer milliseconds on a monotonic clock passed in by the caller.
 */
module Metrics {
  import opened Wrappers

  // ---------------------------------------------------------------------
  // Counters
  // ---------------------------------------------------------------------

  const U64Modulus: nat := 0x1_0000_0000_0000_0000

  type U64 = n: nat | n < U64Modulus

  /** `fetch_add(1)`: adds one, wrapping around at 2^64. */
  function Inc(c: U64): (r: U64)
    ensures c < U64Modulus - 1 ==> r == c + 1
    ensures c == U64Modulus - 1 ==> r == 0
  {
    (c + 1) % U64Modulus
  }

  /** Below the wrap-around point a counter never decreases and each event counts exactly once. */
  lemma CountersCountEvents(c: U64, k: nat)
    requires c + k < U64Modulus
    ensures Iterate(c, k) == c + k
    ensures Iterate(c, k) >= c
  {
    if k > 0 {
      CountersCountEvents(c, k - 1);
    }
  }

  function Iterate(c: U64, k: nat): U64 {
    if k == 0 then c else Inc(Iterate(c, k - 1))
  }

  // ---------------------------------------------------------------------
  // Sliding windows
  // ---------------------------------------------------------------------

  /** `Instant::duration_since`, which saturates to zero for a later instant. */
  function Since(now: int, t: int): nat {
    if now >= t then now - t else 0
  }

  /** `prune`: drop points from the front while they are more than `horizon` old. */
  function PruneSpec(points: seq<int>, horizon: nat, now: int): seq<int> {
    if points != [] && Since(now, points[0]) > horizon then PruneSpec(points[1..], horizon, now)
    else points
  }

  /**
   * Pruning keeps a suffix: every dropped point was more than `horizon`
   * old, and the first kept point is not.
   */
  lemma {:induction false} PruneShape(points: seq<int>, horizon: nat, now: int)
    ensures var r := PruneSpec(points, horizon, now);
      && |r| <= |points| && r == points[|points| - |r|..]
      && (forall i :: 0 <= i < |points| - |r| ==> Since(now, points[i]) > horizon)
      && (r == [] || Since(now, r[0]) <= horizon)
  {
    if points != [] && Since(now, points[0]) > horizon {
      PruneShape(points[1..], horizon, now);
      var r := PruneSpec(points[1..], horizon, now);
      assert forall i :: 1 <= i < |points| - |r| ==> points[i] == points[1..][i - 1];
    }
  }

  /** A point exactly `horizon` old is kept, and so is everything after it. */
  lemma PruneKeepsHorizonPoint(points: seq<int>, horizon: nat, now: int)
    requires points != [] && Since(now, points[0]) == horizon
    ensures PruneSpec(points, horizon, now) == points
  {
  }

  lemma PruneIdempotent(points: seq<int>, horizon: nat, now: int)
    ensures PruneSpec(PruneSpec(points, horizon, now), horizon, now) == PruneSpec(points, horizon, now)
  {
  }

  predicate Sorted(points: seq<int>) {
    forall i, j :: 0 <= i < j < |points| ==> points[i] <= points[j]
  }

  lemma SortedSuffix(points: seq<int>, k: nat)
    requires Sorted(points) && k <= |points|
    ensures Sorted(points[k..])
  {
    var q := points[k..];
    forall i, j | 0 <= i < j < |q| ensures q[i] <= q[j] {
      assert q[i] == points[k + i] && q[j] == points[k + j];
    }
  }

  /** With times recorded in order, every retained point is within the horizon. */
  lemma {:induction false} PrunedSortedWithinHorizon(points: seq<int>, horizon: nat, now: int)
    requires Sorted(points)
    ensures var r := PruneSpec(points, horizon, now);
      forall i :: 0 <= i < |r| ==> Since(now, r[i]) <= horizon
  {
    if points != [] && Since(now, points[0]) > horizon {
      SortedSuffix(points, 1);
      PrunedSortedWithinHorizon(points[1..], horizon, now);
      assert PruneSpec(points, horizon, now) == PruneSpec(points[1..], horizon, now);
    } else if points != [] {
      forall i | 0 <= i < |points| ensures Since(now, points[i]) <= horizon {
        assert points[0] <= points[i];
      }
    }
  }

  /** Recording a time no earlier than the last one keeps the window sorted. */
  lemma RecordKeepsSorted(points: seq<int>, horizon: nat, now: int)
    requires Sorted(points) && (points == [] || points[|points| - 1] <= now)
    ensures Sorted(PruneSpec(points + [now], horizon, now))
  {
    var p := points + [now];
    forall i, j | 0 <= i < j < |p| ensures p[i] <= p[j] {
      if j < |points| {
        assert p[i] == points[i] && p[j] == points[j];
      } else {
        assert p[i] == points[i] <= points[|points| - 1];
      }
    }
    var r := PruneSpec(p, horizon, now);
    PruneShape(p, horizon, now);
    SortedSuffix(p, |p| - |r|);
  }

  predicate IsSuffix(a: seq<int>, b: seq<int>) {
    |a| <= |b| && a == b[|b| - |a|..]
  }

  lemma SuffixTransitive(a: seq<int>, b: seq<int>, c: seq<int>)
    requires IsSuffix(a, b) && IsSuffix(b, c)
    ensures IsSuffix(a, c)
  {
    assert c[|c| - |b|..][|b| - |a|..] == c[|c| - |a|..];
  }

  lemma SuffixSnoc(a: seq<int>, b: seq<int>, x: int)
    requires IsSuffix(a, b)
    ensures IsSuffix(a + [x], b + [x])
  {
    assert (b + [x])[|b + [x]| - |a + [x]|..] == b[|b| - |a|..] + [x];
  }

  /**
   * A window with a shorter horizon, holding a suffix of a longer
   * window's points, still holds a suffix of its points once both are
   * pruned at the same instant.
   */
  lemma {:induction false} PruneNested(a: seq<int>, b: seq<int>, h1: nat, h2: nat, now: int)
    requires IsSuffix(a, b) && h1 <= h2
    ensures IsSuffix(PruneSpec(a, h1, now), PruneSpec(b, h2, now))
    decreases |b|
  {
    if b != [] && Since(now, b[0]) > h2 {
      if |a| == |b| {
        assert a == b;
        assert IsSuffix(a[1..], b[1..]);
        PruneNested(a[1..], b[1..], h1, h2, now);
      } else {
        assert a == b[1..][|b| - 1 - |a|..];
        PruneNested(a, b[1..], h1, h2, now);
      }
    } else {
      PruneShape(a, h1, now);
      SuffixTransitive(PruneSpec(a, h1, now), a, b);
    }
  }

  /** Six windows, shortest horizon first, each holding a suffix of the next one's points. */
  predicate Nested(p30s: seq<int>, p1m: seq<int>, p5m: seq<int>, p15m: seq<int>, p30m: seq<int>, p1h: seq<int>) {
    IsSuffix(p30s, p1m) && IsSuffix(p1m, p5m) && IsSuffix(p5m, p15m) && IsSuffix(p15m, p30m) && IsSuffix(p30m, p1h)
  }

  /** Pruning all six windows at one instant keeps them nested. */
  lemma NestedAfterPrune(p30s: seq<int>, p1m: seq<int>, p5m: seq<int>, p15m: seq<int>, p30m: seq<int>, p1h: seq<int>, now: int)
    requires Nested(p30s, p1m, p5m, p15m, p30m, p1h)
    ensures Nested(PruneSpec(p30s, 30 * Second, now), PruneSpec(p1m, Minute, now), PruneSpec(p5m, 5 * Minute, now),
                   PruneSpec(p15m, 15 * Minute, now), PruneSpec(p30m, 30 * Minute, now), PruneSpec(p1h, 60 * Minute, now))
  {
    PruneNested(p30s, p1m, 30 * Second, Minute, now);
    PruneNested(p1m, p5m, Minute, 5 * Minute, now);
    PruneNested(p5m, p15m, 5 * Minute, 15 * Minute, now);
    PruneNested(p15m, p30m, 15 * Minute, 30 * Minute, now);
    PruneNested(p30m, p1h, 30 * Minute, 60 * Minute, now);
  }

  /** Recording one instant into all six windows keeps them nested. */
  lemma NestedAfterRecord(p30s: seq<int>, p1m: seq<int>, p5m: seq<int>, p15m: seq<int>, p30m: seq<int>, p1h: seq<int>, now: int)
    requires Nested(p30s, p1m, p5m, p15m, p30m, p1h)
    ensures Nested(PruneSpec(p30s + [now], 30 * Second, now), PruneSpec(p1m + [now], Minute, now),
                   PruneSpec(p5m + [now], 5 * Minute, now), PruneSpec(p15m + [now], 15 * Minute, now),
                   PruneSpec(p30m + [now], 30 * Minute, now), PruneSpec(p1h + [now], 60 * Minute, now))
  {
    SuffixSnoc(p30s, p1m, now);
    SuffixSnoc(p1m, p5m, now);
    SuffixSnoc(p5m, p15m, now);
    SuffixSnoc(p15m, p30m, now);
    SuffixSnoc(p30m, p1h, now);
    NestedAfterPrune(p30s + [now], p1m + [now], p5m + [now], p15m + [now], p30m + [now], p1h + [now], now);
  }

  /** Nested windows have nested counts. */
  lemma NestedCounts(p30s: seq<int>, p1m: seq<int>, p5m: seq<int>, p15m: seq<int>, p30m: seq<int>, p1h: seq<int>)
    requires Nested(p30s, p1m, p5m, p15m, p30m, p1h)
    ensures |p30s| <= |p1m| <= |p5m| <= |p15m| <= |p30m| <= |p1h|
  {
  }

  /** `LineWindow`: the instants of recent lines, oldest first. */
  class LineWindow {
    const horizon: nat
    var points: seq<int>

    constructor (horizon: nat)
      ensures this.horizon == horizon && points == []
    {
      this.horizon := horizon;
      points := [];
    }

    method Prune(now: int)
      modifies this
      ensures points == PruneSpec(old(points), horizon, now)
    {
      while points != []
        invariant PruneSpec(points, horizon, now) == PruneSpec(old(points), horizon, now)
        decreases |points|
      {
        if Since(now, points[0]) > horizon {
          points := points[1..];
        } else {
          break;
        }
      }
    }

    /** `record`: append at the back, then prune. */
    method Record(now: int)
      modifies this
      ensures points == PruneSpec(old(points) + [now], horizon, now)
    {
      points := points + [now];
      Prune(now);
    }

    /** `count`: prune, then the number of retained points. */
    method Count(now: int) returns (n: nat)
      modifies this
      ensures points == PruneSpec(old(points), horizon, now)
      ensures n == |points|
    {
      Prune(now);
      n := |points|;
    }
  }

  // ---------------------------------------------------------------------
  // AppMetrics
  // ---------------------------------------------------------------------

  const Second: nat := 1000
  const Minute: nat := 60 * Second

  datatype LineWindowSnapshot = LineWindowSnapshot(
    last1h: nat, last30m: nat, last15m: nat, last5m: nat, last1m: nat, last30s: nat)

  datatype MetricsSnapshot = MetricsSnapshot(
    uptimeSeconds: nat,
    totalTranscribedLines: U64,
    totalSessionsStarted: U64,
    totalSessionsCompleted: U64,
    lastTranscriptionAt: Option<U64>,
    lineWindows: LineWindowSnapshot)

  /**
   * `last_transcription_iso8601`: no time while the stored epoch is 0;
   * otherwise the epoch second to be rendered as RFC 3339.
   */
  function LastTranscriptionAt(epoch: U64): (r: Option<U64>)
    ensures r.None? <==> epoch == 0
    ensures r.Some? ==> r.value == epoch
  {
    if epoch == 0 then None else Some(epoch)
  }

  class AppMetrics {
    const startTime: int
    var totalTranscribedLines: U64
    var totalSessionsStarted: U64
    var totalSessionsCompleted: U64
    var lastTranscriptionEpoch: U64
    const window1h: LineWindow
    const window30m: LineWindow
    const window15m: LineWindow
    const window5m: LineWindow
    const window1m: LineWindow
    const window30s: LineWindow

    ghost function Windows(): set<object>
    {
      {window1h, window30m, window15m, window5m, window1m, window30s}
    }

    /**
     * The six windows are distinct, have their horizons, and each shorter
     * window holds a suffix of the next longer one's points.
     */
    ghost predicate Valid()
      reads this, Windows()
    {
      && window1h != window30m && window1h != window15m && window1h != window5m && window1h != window1m && window1h != window30s
      && window30m != window15m && window30m != window5m && window30m != window1m && window30m != window30s
      && window15m != window5m && window15m != window1m && window15m != window30s
      && window5m != window1m && window5m != window30s
      && window1m != window30s
      && window1h.horizon == 60 * Minute && window30m.horizon == 30 * Minute
      && window15m.horizon == 15 * Minute && window5m.horizon == 5 * Minute
      && window1m.horizon == Minute && window30s.horizon == 30 * Second
      && Nested(window30s.points, window1m.points, window5m.points, window15m.points, window30m.points, window1h.points)
    }

    constructor (now: int)
      ensures Valid() && fresh(Windows())
      ensures startTime == now
      ensures totalTranscribedLines == 0 && totalSessionsStarted == 0 && totalSessionsCompleted == 0
      ensures lastTranscriptionEpoch == 0
      ensures window1h.points == [] && window30m.points == [] && window15m.points == []
      ensures window5m.points == [] && window1m.points == [] && window30s.points == []
    {
      startTime := now;
      totalTranscribedLines := 0;
      totalSessionsStarted := 0;
      totalSessionsCompleted := 0;
      lastTranscriptionEpoch := 0;
      window1h := new LineWindow(60 * Minute);
      window30m := new LineWindow(30 * Minute);
      window15m := new LineWindow(15 * Minute);
      window5m := new LineWindow(5 * Minute);
      window1m := new LineWindow(Minute);
      window30s := new LineWindow(30 * Second);
    }

    /** Records one instant into all six windows. */
    method RecordInWindows(now: int)
      requires Valid()
      modifies Windows()
      ensures unchanged(this)
      ensures Valid()
      ensures window1h.points == PruneSpec(old(window1h.points) + [now], 60 * Minute, now)
      ensures window30m.points == PruneSpec(old(window30m.points) + [now], 30 * Minute, now)
      ensures window15m.points == PruneSpec(old(window15m.points) + [now], 15 * Minute, now)
      ensures window5m.points == PruneSpec(old(window5m.points) + [now], 5 * Minute, now)
      ensures window1m.points == PruneSpec(old(window1m.points) + [now], Minute, now)
      ensures window30s.points == PruneSpec(old(window30s.points) + [now], 30 * Second, now)
    {
      NestedAfterRecord(window30s.points, window1m.points, window5m.points, window15m.points, window30m.points, window1h.points, now);
      window1h.Record(now);
      window30m.Record(now);
      window15m.Record(now);
      window5m.Record(now);
      window1m.Record(now);
      window30s.Record(now);
    }

    /** `record_transcription_line`: one more line, recorded at the same instant in all six windows. */
    method RecordTranscriptionLine(now: int, epoch: U64)
      requires Valid()
      modifies this, Windows()
      ensures Valid()
      ensures totalTranscribedLines == Inc(old(totalTranscribedLines))
      ensures totalSessionsStarted == old(totalSessionsStarted) && totalSessionsCompleted == old(totalSessionsCompleted)
      ensures lastTranscriptionEpoch == epoch
      ensures window1h.points == PruneSpec(old(window1h.points) + [now], 60 * Minute, now)
      ensures window30m.points == PruneSpec(old(window30m.points) + [now], 30 * Minute, now)
      ensures window15m.points == PruneSpec(old(window15m.points) + [now], 15 * Minute, now)
      ensures window5m.points == PruneSpec(old(window5m.points) + [now], 5 * Minute, now)
      ensures window1m.points == PruneSpec(old(window1m.points) + [now], Minute, now)
      ensures window30s.points == PruneSpec(old(window30s.points) + [now], 30 * Second, now)
    {
      totalTranscribedLines := Inc(totalTranscribedLines);
      RecordInWindows(now);
      lastTranscriptionEpoch := epoch;
    }

    method RecordSessionStarted()
      requires Valid()
      modifies this
      ensures Valid()
      ensures totalSessionsStarted == Inc(old(totalSessionsStarted))
      ensures totalTranscribedLines == old(totalTranscribedLines) && totalSessionsCompleted == old(totalSessionsCompleted)
      ensures lastTranscriptionEpoch == old(lastTranscriptionEpoch)
    {
      totalSessionsStarted := Inc(totalSessionsStarted);
    }

    method RecordSessionCompleted()
      requires Valid()
      modifies this
      ensures Valid()
      ensures totalSessionsCompleted == Inc(old(totalSessionsCompleted))
      ensures totalTranscribedLines == old(totalTranscribedLines) && totalSessionsStarted == old(totalSessionsStarted)
      ensures lastTranscriptionEpoch == old(lastTranscriptionEpoch)
    {
      totalSessionsCompleted := Inc(totalSessionsCompleted);
    }

    /** The number of points each window holds. */
    ghost function WindowSizes(): LineWindowSnapshot
      reads Windows()
    {
      LineWindowSnapshot(|window1h.points|, |window30m.points|, |window15m.points|,
                         |window5m.points|, |window1m.points|, |window30s.points|)
    }

    /** Every window pruned at `now`. */
    twostate predicate PrunedAt(now: int)
      reads Windows()
    {
      && window1h.points == PruneSpec(old(window1h.points), 60 * Minute, now)
      && window30m.points == PruneSpec(old(window30m.points), 30 * Minute, now)
      && window15m.points == PruneSpec(old(window15m.points), 15 * Minute, now)
      && window5m.points == PruneSpec(old(window5m.points), 5 * Minute, now)
      && window1m.points == PruneSpec(old(window1m.points), Minute, now)
      && window30s.points == PruneSpec(old(window30s.points), 30 * Second, now)
    }

    /**
     * `line_window_snapshot`: every window pruned and counted at the same
     * instant, so the counts are the window sizes and are nested.
     */
    method LineWindowCounts(now: int) returns (s: LineWindowSnapshot)
      requires Valid()
      modifies Windows()
      ensures Valid()
      ensures PrunedAt(now)
      ensures s == WindowSizes()
      ensures s.last30s <= s.last1m <= s.last5m <= s.last15m <= s.last30m <= s.last1h
    {
      NestedAfterPrune(window30s.points, window1m.points, window5m.points, window15m.points, window30m.points, window1h.points, now);
      var c1h := window1h.Count(now);
      var c30m := window30m.Count(now);
      var c15m := window15m.Count(now);
      var c5m := window5m.Count(now);
      var c1m := window1m.Count(now);
      var c30s := window30s.Count(now);
      NestedCounts(window30s.points, window1m.points, window5m.points, window15m.points, window30m.points, window1h.points);
      s := LineWindowSnapshot(c1h, c30m, c15m, c5m, c1m, c30s);
    }

    /** `snapshot`: uptime in whole seconds, the counters, the last line's time and the window counts. */
    method Snapshot(now: int) returns (m: MetricsSnapshot)
      requires Valid()
      modifies Windows()
      ensures Valid()
      ensures m.uptimeSeconds == (if now >= startTime then (now - startTime) / Second else 0)
      ensures m.totalTranscribedLines == totalTranscribedLines
      ensures m.totalSessionsStarted == totalSessionsStarted && m.totalSessionsCompleted == totalSessionsCompleted
      ensures m.lastTranscriptionAt == LastTranscriptionAt(lastTranscriptionEpoch)
      ensures PrunedAt(now)
      ensures m.lineWindows == WindowSizes()
      ensures var w := m.lineWindows; w.last30s <= w.last1m <= w.last5m <= w.last15m <= w.last30m <= w.last1h
    {
      var windows := LineWindowCounts(now);
      m := MetricsSnapshot(
        Since(now, startTime) / Second,
        totalTranscribedLines, totalSessionsStarted, totalSessionsCompleted,
        LastTranscriptionAt(lastTranscriptionEpoch),
        windows);
    }
  }
}
