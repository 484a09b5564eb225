/** Synchronisation points relative to an external trigger (qcodes `Sync`).

    A sync describes when instruments act: either an explicit list of points
    (begin, length) or an inner sync repeated a number of times. Commands for
    instruments are registered on a sync node, merged per instrument when the
    sync is compiled, and handed to each instrument's `prepare` on execution.

    Time values are integers (ticks of a common time unit). Commands and instruments are opaque to this
    engine: a command is a term built from primitive commands by the two
    operations the engine uses, `parallel` and `repeated`, and nothing else is
    assumed about those operations. */
module SyncPoints {
  import opened Util

  // ---------------------------------------------------------------------
  // Descriptions of sync points

  /** `Sync.Periodic`: `count` points spaced `period` apart, starting at `begin`. */
  datatype Periodic = Periodic(period: int, begin: int, length: int, count: nat)

  /** `Sync.Explicit`: the begin and the length of every point. */
  datatype Explicit = Explicit(begin: seq<int>, length: seq<int>)

  /** The check `numpy.all(numpy.diff(begin) >= 0)`: neighbours are ordered. */
  predicate StepsNonNegative(s: seq<int>) {
    forall i :: 0 <= i < |s| - 1 ==> s[i] <= s[i + 1]
  }

  predicate NonDecreasing(s: seq<int>) {
    forall i, j :: 0 <= i <= j < |s| ==> s[i] <= s[j]
  }

  predicate NonNegative(s: seq<int>) {
    forall i :: 0 <= i < |s| ==> s[i] >= 0
  }

  /** Ordered neighbours make the whole sequence ordered. */
  lemma {:induction false} StepsGiveOrder(s: seq<int>)
    requires StepsNonNegative(s)
    ensures NonDecreasing(s)
    decreases |s|
  {
    if |s| > 1 {
      var t := s[..|s| - 1];
      assert StepsNonNegative(t) by {
        forall i | 0 <= i < |t| - 1 ensures t[i] <= t[i + 1] {
          assert t[i] == s[i] && t[i + 1] == s[i + 1];
        }
      }
      StepsGiveOrder(t);
      forall i, j | 0 <= i <= j < |s| ensures s[i] <= s[j] {
        if j == |s| - 1 && i < j {
          assert t[i] <= t[|t| - 1];
          assert s[|s| - 2] <= s[|s| - 1];
        } else if j < |s| - 1 {
          assert t[i] <= t[j];
        }
      }
    }
  }

  /** `numpy.arange(count) * offset + begins`, laid out tile after tile. */
  function Shift(s: seq<int>, d: int): (r: seq<int>)
    ensures |r| == |s|
    ensures forall i :: 0 <= i < |s| ==> r[i] == s[i] + d
  {
    seq(|s|, i requires 0 <= i < |s| => s[i] + d)
  }

  /** n copies of `bs`, copy k shifted by k * offset. */
  function Tile(bs: seq<int>, n: nat, offset: int): (r: seq<int>)
    ensures |r| == n * |bs|
    decreases n
  {
    if n == 0 then [] else Tile(bs, n - 1, offset) + Shift(bs, (n - 1) * offset)
  }

  /** The last copy of a tiling comes after the others. */
  lemma TileStep(bs: seq<int>, n: nat, offset: int)
    requires n > 0
    ensures Tile(bs, n, offset) == Tile(bs, n - 1, offset) + Shift(bs, (n - 1) * offset)
  {
  }

  lemma {:induction false} MulMono(a: nat, b: nat, m: nat)
    requires a <= b
    ensures a * m <= b * m
    decreases b - a
  {
    if a < b {
      MulMono(a, b - 1, m);
      assert (b - 1) * m + m == b * m;
    }
  }

  /** Element j of copy k of a tiling is `bs[j]` shifted by k * offset. */
  lemma {:induction false} TileAt(bs: seq<int>, n: nat, offset: int, k: nat, j: nat)
    requires k < n && j < |bs|
    ensures k * |bs| + j < n * |bs|
    ensures Tile(bs, n, offset)[k * |bs| + j] == bs[j] + k * offset
    decreases n
  {
    var m := |bs|;
    var prev := Tile(bs, n - 1, offset);
    var last := Shift(bs, (n - 1) * offset);
    assert Tile(bs, n, offset) == prev + last;
    assert |prev| == (n - 1) * m;
    assert (n - 1) * m + m == n * m;
    if k < n - 1 {
      MulMono(k + 1, n - 1, m);
      assert k * m + m == (k + 1) * m;
      TileAt(bs, n - 1, offset, k, j);
      assert (prev + last)[k * m + j] == prev[k * m + j];
    } else {
      assert k * m == |prev|;
      assert (prev + last)[k * m + j] == last[j];
    }
  }

  // ---------------------------------------------------------------------
  // The timing part of a sync: `ExplicitSync` and `RepeatedSync`

  datatype Timing =
    | ExplicitTiming(points: Explicit, duration: int)
    | RepeatedTiming(inner: Timing, count: nat)
  {
    /** The arrays an `ExplicitSync` accepts at construction, at every leaf. */
    predicate Valid() {
      match this
      case ExplicitTiming(p, _) =>
        |p.begin| == |p.length| && NonDecreasing(p.begin) && NonNegative(p.length)
      case RepeatedTiming(t, _) => t.Valid()
    }

    /** Every leaf pairs each begin with a length. */
    predicate SizesAgree() {
      match this
      case ExplicitTiming(p, _) => |p.begin| == |p.length|
      case RepeatedTiming(t, _) => t.SizesAgree()
    }

    /** `duration()`; for a repetition `inner.duration * count`. */
    function Duration(): int {
      match this
      case ExplicitTiming(_, d) => d
      case RepeatedTiming(t, n) => t.Duration() * n
    }

    /** `as_explicit()`: the stored arrays, or the inner points tiled `count`
        times with tile k shifted by k times the inner duration. */
    function AsExplicit(): Explicit {
      match this
      case ExplicitTiming(p, _) => p
      case RepeatedTiming(t, n) =>
        var e := t.AsExplicit();
        Explicit(Tile(e.begin, n, t.Duration()), RepeatSeq(e.length, n))
    }

    /** `num_sync_points()`: the number of points. */
    function NumSyncPoints(): (r: nat)
      ensures r == |AsExplicit().begin|
    {
      match this
      case ExplicitTiming(p, _) => |p.begin|
      case RepeatedTiming(t, n) => n * t.NumSyncPoints()
    }

    /** `as_periodic()`: a single explicit point, or a repetition of a
        periodic inner sync; otherwise nothing. */
    function AsPeriodic(): (r: Option<Periodic>)
      requires Valid()
      ensures r.Some? ==> r.value.count == NumSyncPoints()
    {
      match this
      case ExplicitTiming(p, d) =>
        if |p.begin| == 1 then Some(Periodic(d, p.begin[0], p.length[0], 1)) else None
      case RepeatedTiming(t, n) =>
        match t.AsPeriodic()
        case None => None
        case Some(q) => Some(Periodic(q.period, q.begin, q.length, n * q.count))
    }
  }

  /** The explicit form of a valid sync pairs every begin with a length, and
      no length is negative. */
  lemma {:induction false} ExplicitShape(t: Timing)
    requires t.Valid()
    ensures |t.AsExplicit().begin| == |t.AsExplicit().length|
    ensures NonNegative(t.AsExplicit().length)
  {
    if t.RepeatedTiming? {
      ExplicitShape(t.inner);
      RepeatedLengthsNonNegative(t.inner.AsExplicit().length, t.count);
    }
  }

  lemma RepeatedLengthsNonNegative(s: seq<int>, n: nat)
    requires NonNegative(s)
    ensures NonNegative(RepeatSeq(s, n))
  {
    {
      forall i | 0 <= i < |RepeatSeq(s, n)| ensures RepeatSeq(s, n)[i] >= 0 {
        assert RepeatSeq(s, n)[i] in RepeatSeq(s, n);
        RepeatSeqElements(s, n);
      }
    }
  }

  lemma {:induction false} RepeatSeqElements(s: seq<int>, n: nat)
    ensures forall x :: x in RepeatSeq(s, n) ==> x in s
    decreases n
  {
    if n > 0 {
      RepeatSeqElements(s, n - 1);
    }
  }

  /** The points a periodic description stands for. */
  function Expand(p: Periodic): (e: Explicit)
    ensures |e.begin| == |e.length| == p.count
    ensures forall k :: 0 <= k < p.count ==> e.begin[k] == p.begin + k * p.period
    ensures forall k :: 0 <= k < p.count ==> e.length[k] == p.length
  {
    Explicit(seq(p.count, k requires 0 <= k < p.count => p.begin + k * p.period),
             seq(p.count, k requires 0 <= k < p.count => p.length))
  }

  // ---------------------------------------------------------------------
  // Construction of an `ExplicitSync`

  datatype SyncError =
    | ConstructionError   // one of the assertions of the constructor fails
    | MissingDuration     // no duration and no point to take it from

  /** `ExplicitSync(sync_times, points_lengths, duration)`. */
  function NewExplicit(begin: seq<int>, length: seq<int>, duration: Option<int>): (r: Result<Timing, SyncError>)
    ensures r.Success? <==>
      StepsNonNegative(begin) && NonNegative(length) && |begin| == |length| &&
      (duration.Some? || |begin| > 0)
    ensures r.Failure? ==>
      (r.error == MissingDuration <==>
       StepsNonNegative(begin) && NonNegative(length) && |begin| == |length|)
    ensures r.Success? ==> r.value.ExplicitTiming? && r.value.Valid()
    ensures r.Success? ==> r.value.AsExplicit() == Explicit(begin, length)
    ensures r.Success? && duration.Some? ==> r.value.Duration() == duration.value
    ensures r.Success? && duration.None? ==>
      r.value.Duration() == begin[|begin| - 1] + length[|length| - 1]
  {
    if !(StepsNonNegative(begin) && NonNegative(length) && |begin| == |length|) then
      Failure(ConstructionError)
    else if duration.None? && |begin| == 0 then
      Failure(MissingDuration)
    else
      StepsGiveOrder(begin);
      var d := if duration.Some? then duration.value else begin[|begin| - 1] + length[|length| - 1];
      Success(ExplicitTiming(Explicit(begin, length), d))
  }

  /** A single explicit point is periodic with period = duration and count 1;
      more points (or none) are never recognised as periodic. */
  lemma ExplicitPeriodic(begin: seq<int>, length: seq<int>, duration: Option<int>)
    requires NewExplicit(begin, length, duration).Success?
    ensures var t := NewExplicit(begin, length, duration).value;
      if |begin| == 1 then t.AsPeriodic() == Some(Periodic(t.Duration(), begin[0], length[0], 1))
      else t.AsPeriodic().None?
  {
  }

  // ---------------------------------------------------------------------
  // Properties of repetition

  /** Repeating multiplies the duration and the number of points, and nesting
      repetitions multiplies their counts. */
  lemma RepetitionScales(t: Timing, n: nat, m: nat)
    ensures RepeatedTiming(t, n).Duration() == t.Duration() * n
    ensures RepeatedTiming(t, n).NumSyncPoints() == n * t.NumSyncPoints()
    ensures RepeatedTiming(RepeatedTiming(t, n), m).NumSyncPoints() == (n * m) * t.NumSyncPoints()
    ensures RepeatedTiming(RepeatedTiming(t, n), m).Duration() == t.Duration() * (n * m)
  {
    var p := t.NumSyncPoints();
    assert m * (n * p) == (n * m) * p;
    assert (t.Duration() * n) * m == t.Duration() * (n * m);
  }

  /** The periodic description of a repetition keeps period, begin and length
      and multiplies the count; it is absent when the inner one is absent. */
  lemma RepeatedPeriodic(t: Timing, n: nat)
    requires t.Valid()
    ensures t.AsPeriodic().None? ==> RepeatedTiming(t, n).AsPeriodic().None?
    ensures t.AsPeriodic().Some? ==>
      var q := t.AsPeriodic().value;
      RepeatedTiming(t, n).AsPeriodic() == Some(Periodic(q.period, q.begin, q.length, n * q.count))
  {
  }

  /** Tile k of the explicit form of a repetition holds the inner begins
      shifted by k times the inner duration, and the inner lengths unchanged. */
  lemma RepeatedExplicitAt(t: Timing, n: nat, k: nat, j: nat)
    requires t.Valid()
    requires k < n && j < |t.AsExplicit().begin|
    ensures j < |t.AsExplicit().length|
    ensures 0 <= k * |t.AsExplicit().begin| + j < |RepeatedTiming(t, n).AsExplicit().begin|
    ensures 0 <= k * |t.AsExplicit().begin| + j < |RepeatedTiming(t, n).AsExplicit().length|
    ensures RepeatedTiming(t, n).AsExplicit().begin[k * |t.AsExplicit().begin| + j] ==
              t.AsExplicit().begin[j] + k * t.Duration()
    ensures RepeatedTiming(t, n).AsExplicit().length[k * |t.AsExplicit().begin| + j] ==
              t.AsExplicit().length[j]
  {
    ExplicitShape(t);
    RepeatedBeginAt(t, n, k, j);
    RepeatedLengthAt(t, n, k, j);
  }

  lemma RepeatedBeginAt(t: Timing, n: nat, k: nat, j: nat)
    requires k < n && j < |t.AsExplicit().begin|
    ensures 0 <= k * |t.AsExplicit().begin| + j < |RepeatedTiming(t, n).AsExplicit().begin|
    ensures RepeatedTiming(t, n).AsExplicit().begin[k * |t.AsExplicit().begin| + j] ==
              t.AsExplicit().begin[j] + k * t.Duration()
  {
    var bs := t.AsExplicit().begin;
    assert RepeatedTiming(t, n).AsExplicit().begin == Tile(bs, n, t.Duration());
    TileAt(bs, n, t.Duration(), k, j);
  }

  lemma RepeatedLengthAt(t: Timing, n: nat, k: nat, j: nat)
    requires k < n && j < |t.AsExplicit().length|
    ensures 0 <= k * |t.AsExplicit().length| + j < |RepeatedTiming(t, n).AsExplicit().length|
    ensures RepeatedTiming(t, n).AsExplicit().length[k * |t.AsExplicit().length| + j] == t.AsExplicit().length[j]
  {
    var ls := t.AsExplicit().length;
    assert RepeatedTiming(t, n).AsExplicit().length == RepeatSeq(ls, n);
    RepeatSeqAt(ls, n, k, j);
  }

  /** Whenever a sync has a periodic description, it agrees with the explicit
      one: the same points, and a duration of count times the period. */
  lemma {:induction false} PeriodicAgreesWithExplicit(t: Timing)
    requires t.Valid() && t.AsPeriodic().Some?
    ensures var p := t.AsPeriodic().value;
      t.AsExplicit() == Expand(p) && t.Duration() == p.count * p.period
  {
    match t
    case ExplicitTiming(pts, d) =>
      assert pts.begin == [pts.begin[0]] && pts.length == [pts.length[0]];
    case RepeatedTiming(u, n) =>
      PeriodicAgreesWithExplicit(u);
      RepeatedAgrees(u, n);
  }

  /** The induction step of `PeriodicAgreesWithExplicit`. */
  lemma RepeatedAgrees(u: Timing, n: nat)
    requires u.Valid() && u.AsPeriodic().Some?
    requires u.AsExplicit() == Expand(u.AsPeriodic().value)
    requires u.Duration() == u.AsPeriodic().value.count * u.AsPeriodic().value.period
    ensures var t := RepeatedTiming(u, n);
      var p := t.AsPeriodic().value;
      t.AsExplicit() == Expand(p) && t.Duration() == p.count * p.period
  {
    var q := u.AsPeriodic().value;
    TileOfExpand(q, n);
    LengthsOfExpand(q, n);
    Regroup(q.count, q.period, n);
  }

  lemma Regroup(c: int, p: int, n: int)
    ensures (c * p) * n == (n * c) * p
  {
  }

  /** The first a + c points of a periodic description: the first a, then c
      more shifted by a periods. */
  lemma ExpandSplit(q: Periodic, a: nat)
    ensures Expand(Periodic(q.period, q.begin, q.length, a + q.count)).begin
         == Expand(Periodic(q.period, q.begin, q.length, a)).begin + Shift(Expand(q).begin, a * q.period)
  {
    var big := Expand(Periodic(q.period, q.begin, q.length, a + q.count)).begin;
    var prev := Expand(Periodic(q.period, q.begin, q.length, a)).begin;
    var last := Shift(Expand(q).begin, a * q.period);
    forall i | 0 <= i < |big| ensures big[i] == (prev + last)[i] {
      if i >= a {
        var j := i - a;
        assert (prev + last)[i] == last[j];
        assert (j + a) * q.period == j * q.period + a * q.period;
      }
    }
  }

  lemma TileOfExpand(q: Periodic, n: nat)
    ensures Tile(Expand(q).begin, n, q.count * q.period)
         == Expand(Periodic(q.period, q.begin, q.length, n * q.count)).begin
  {
    var tiled := Tile(Expand(q).begin, n, q.count * q.period);
    var whole := Expand(Periodic(q.period, q.begin, q.length, n * q.count)).begin;
    forall i | 0 <= i < |whole| ensures tiled[i] == whole[i] {
      TileOfExpandAt(q, n, i);
    }
  }

  lemma TileOfExpandAt(q: Periodic, n: nat, i: nat)
    requires i < n * q.count
    ensures i < |Tile(Expand(q).begin, n, q.count * q.period)|
    ensures Tile(Expand(q).begin, n, q.count * q.period)[i] == q.begin + i * q.period
  {
    var c := q.count;
    var p := q.period;
    var bs := Expand(q).begin;
    var k, j := CopyAndPlace(i, n, c);
    TileAt(bs, n, c * p, k, j);
    OffsetOfPoint(k, j, c, p);
  }

  /** Position i of n copies of c points is point j of copy k. */
  lemma CopyAndPlace(i: nat, n: nat, c: nat) returns (k: nat, j: nat)
    requires i < n * c
    ensures k < n && j < c && i == k * c + j
  {
    k, j := i / c, i % c;
    if k >= n {
      MulMono(n, k, c);
    }
  }

  /** Point j of copy k of a tiling by c periods lies k * c + j periods in. */
  lemma OffsetOfPoint(k: nat, j: nat, c: nat, p: int)
    ensures (k * c + j) * p == j * p + k * (c * p)
  {
    assert (k * c) * p == k * (c * p);
  }

  lemma {:induction false} LengthsOfExpand(q: Periodic, n: nat)
    ensures RepeatSeq(Expand(q).length, n)
         == Expand(Periodic(q.period, q.begin, q.length, n * q.count)).length
    decreases n
  {
    var big := Expand(Periodic(q.period, q.begin, q.length, n * q.count)).length;
    if n > 0 {
      LengthsOfExpand(q, n - 1);
      var prev := Expand(Periodic(q.period, q.begin, q.length, (n - 1) * q.count)).length;
      assert (n - 1) * q.count + q.count == n * q.count;
      assert big == prev + Expand(q).length;
    } else {
      assert big == [];
    }
  }

  /** The points of a sync "fit" when the inner span of begins is no longer
      than its duration. A fitting sync has ordered begins in its explicit
      form, and repeating it keeps both properties. */
  predicate Fits(t: Timing) {
    var e := t.AsExplicit();
    NonDecreasing(e.begin) && (|e.begin| > 0 ==> e.begin[|e.begin| - 1] - e.begin[0] <= t.Duration())
  }

  lemma ConcatOrdered(a: seq<int>, b: seq<int>)
    requires NonDecreasing(a) && NonDecreasing(b)
    requires |a| > 0 && |b| > 0 ==> a[|a| - 1] <= b[0]
    ensures NonDecreasing(a + b)
  {
    var s := a + b;
    forall i, j | 0 <= i <= j < |s| ensures s[i] <= s[j] {
      if i < |a| && j >= |a| {
        assert s[i] == a[i] <= a[|a| - 1];
        assert b[0] <= b[j - |a|] == s[j];
      }
    }
  }

  /** A tiling of an ordered block by an offset no shorter than its span is
      ordered, starts at the block's start and ends n - 1 offsets after its end. */
  lemma {:induction false} TileOrdered(bs: seq<int>, n: nat, d: int)
    requires |bs| > 0 && NonDecreasing(bs) && bs[|bs| - 1] - bs[0] <= d
    ensures NonDecreasing(Tile(bs, n, d))
    ensures n > 0 ==> Tile(bs, n, d)[0] == bs[0]
    ensures n > 0 ==> Tile(bs, n, d)[n * |bs| - 1] == bs[|bs| - 1] + (n - 1) * d
    decreases n
  {
    if n > 0 {
      var m := |bs|;
      var prev := Tile(bs, n - 1, d);
      var last := Shift(bs, (n - 1) * d);
      assert Tile(bs, n, d) == prev + last;
      TileOrdered(bs, n - 1, d);
      assert NonDecreasing(last) by {
        forall i, j | 0 <= i <= j < m ensures last[i] <= last[j] {
          assert bs[i] <= bs[j];
        }
      }
      if n > 1 {
        MulMono(1, n - 1, m);
        assert prev[(n - 1) * m - 1] == bs[m - 1] + (n - 2) * d;
        assert (n - 2) * d + d == (n - 1) * d;
      }
      ConcatOrdered(prev, last);
      assert (n - 1) * m + m == n * m;
    }
  }

  /** Repeating a sync whose points fit in its duration keeps the begins
      ordered and the points within the (multiplied) duration. */
  lemma RepetitionKeepsOrder(t: Timing, n: nat)
    requires Fits(t)
    ensures Fits(RepeatedTiming(t, n))
  {
    var inner := t.AsExplicit();
    var d := t.Duration();
    var m := |inner.begin|;
    var e := RepeatedTiming(t, n).AsExplicit();
    assert e.begin == Tile(inner.begin, n, d);
    if m > 0 {
      TileOrdered(inner.begin, n, d);
      if n > 0 {
        assert |e.begin| == n * m;
        assert (n - 1) * d + d == d * n;
      }
    } else {
      assert |e.begin| == 0;
    }
  }

  // ---------------------------------------------------------------------
  // `RepeatedSync.as_explicit` as written

  /** The begins of `RepeatedSync.as_explicit` as written: tile k is offset
      by k times the duration of the repetition itself, not of the inner
      sync. */
  function BeginsAsWritten(t: Timing, n: nat): (r: seq<int>)
    ensures |r| == n * |t.AsExplicit().begin|
  {
    Tile(t.AsExplicit().begin, n, RepeatedTiming(t, n).Duration())
  }

  /** `numpy.repeat(s, n)`: each element n times in a row. */
  function RepeatEach(s: seq<int>, n: nat): (r: seq<int>)
    ensures |r| == n * |s|
    decreases |s|
  {
    if s == [] then [] else RepeatSeq([s[0]], n) + RepeatEach(s[1..], n)
  }

  /** The lengths of `RepeatedSync.as_explicit` as written: every inner
      length repeated in place, rather than the inner lengths tile by
      tile. */
  function LengthsAsWritten(t: Timing, n: nat): (r: seq<int>)
    ensures |r| == n * |t.AsExplicit().length|
  {
    RepeatEach(t.AsExplicit().length, n)
  }

  /** One point at 0 in a sync of duration 2, repeated 3 times: as written
      the points begin at 0, 6 and 12, the last one past the repetition's
      duration of 6; tiled by the inner duration they begin at 0, 2 and 4,
      and the repetition fits. */
  lemma OffsetAsWrittenOverruns()
    ensures var t := ExplicitTiming(Explicit([0], [1]), 2);
            RepeatedTiming(t, 3).Duration() == 6 &&
            BeginsAsWritten(t, 3) == [0, 6, 12] &&
            RepeatedTiming(t, 3).AsExplicit().begin == [0, 2, 4] &&
            Fits(RepeatedTiming(t, 3))
  {
    var t := ExplicitTiming(Explicit([0], [1]), 2);
    assert t.AsExplicit().begin == [0];
    assert RepeatedTiming(t, 3).Duration() == 6;
    assert BeginsAsWritten(t, 3) == Tile([0], 3, 6);
    TileOfZero(6);
    assert RepeatedTiming(t, 3).AsExplicit().begin == Tile([0], 3, 2);
    TileOfZero(2);
    assert Fits(t);
    RepetitionKeepsOrder(t, 3);
  }

  /** Three copies of the single point 0, offset by `d`. */
  lemma TileOfZero(d: int)
    ensures Tile([0], 3, d) == [0, d, 2 * d]
  {
    assert Tile([0], 1, d) == [] + Shift([0], 0) == [0];
    assert Tile([0], 2, d) == [0] + Shift([0], d) == [0, d];
    assert Tile([0], 3, d) == [0, d] + Shift([0], 2 * d) == [0, d, 2 * d];
  }

  /** Points at 0 and 1 of lengths 1 and 2, repeated twice: as written the
      lengths come out as 1, 1, 2, 2, so the second point (begin 1) gets
      length 1 although its inner point has length 2; tiled they are
      1, 2, 1, 2. */
  lemma LengthsAsWrittenMisplaced()
    ensures var t := ExplicitTiming(Explicit([0, 1], [1, 2]), 3);
            var e := RepeatedTiming(t, 2).AsExplicit();
            LengthsAsWritten(t, 2) == [1, 1, 2, 2] &&
            e.begin == [0, 1, 3, 4] && e.length == [1, 2, 1, 2] &&
            LengthsAsWritten(t, 2)[1] != t.AsExplicit().length[1]
  {
    assert RepeatSeq([1], 2) == [1, 1];
    assert RepeatSeq([2], 2) == [2, 2];
    assert RepeatEach([2], 2) == [2, 2];
    assert RepeatEach([1, 2], 2) == [1, 1] + RepeatEach([2], 2);
    assert Tile([0, 1], 1, 3) == [0, 1];
    assert Tile([0, 1], 2, 3) == [0, 1, 3, 4];
    assert RepeatSeq([1, 2], 1) == [1, 2];
    assert RepeatSeq([1, 2], 2) == [1, 2, 1, 2];
  }

  // `RepeatedSync.duration` as written

  /** `duration()` as line 119 of sync.py has it for a repetition: the inner
      duration times the inner sync object rather than the count. A number
      times a `Sync` raises TypeError, written `None` here; an explicit sync
      answers its stored duration. */
  function DurationAsWritten(t: Timing): (r: Option<int>)
    ensures r.Some? <==> t.ExplicitTiming?
    ensures r.Some? ==> r.value == t.Duration()
  {
    match t
    case ExplicitTiming(_, d) => Some(d)
    case RepeatedTiming(_, _) => None
  }

  /** Every repetition, of any sync and any count, raises as written, while
      the corrected duration is the inner duration times the count. */
  lemma RepeatedDurationRaises(t: Timing, n: nat)
    ensures DurationAsWritten(RepeatedTiming(t, n)).None?
    ensures RepeatedTiming(t, n).Duration() == t.Duration() * n
  {
  }

  /** `num_sync_points()` as written (`None` is the raise): `ExplicitSync`
      inherits the base method, which raises `NotImplementedError`, and a
      repetition multiplies its count by the inner answer. */
  function NumSyncPointsAsWritten(t: Timing): Option<nat>
  {
    match t
    case ExplicitTiming(_, _) => None
    case RepeatedTiming(s, n) =>
      match NumSyncPointsAsWritten(s)
      case None => None
      case Some(m) => Some(n * m)
  }

  /** As written, every sync raises, however deeply repeated, while the
      corrected count is the number of explicit points. */
  lemma {:induction false} NumSyncPointsAlwaysRaises(t: Timing)
    ensures NumSyncPointsAsWritten(t).None?
    ensures t.NumSyncPoints() == |t.AsExplicit().begin|
  {
    match t
    case ExplicitTiming(_, _) =>
    case RepeatedTiming(s, _) => NumSyncPointsAlwaysRaises(s);
  }

  // ---------------------------------------------------------------------
  // Commands and their compilation

  /** An instrument taking part in a sync; only its identity matters here. */
  datatype Instrument = Instrument(id: nat)

  /** An instrument command (`AsyncCommand`). `ParallelOf` is the result of
      the instrument's `_parallel` applied to all commands and `RepeatOf` the
      result of `repeated(count)`; both are left uninterpreted. */
  datatype Command =
    | Primitive(id: nat)
    | ParallelOf(all: seq<Command>)
    | RepeatOf(body: Command, times: nat)
  {
    /** `parallel(*others)`: the command itself when there is nothing to
        merge, else the merge of itself followed by the others. */
    function Parallel(others: seq<Command>): (r: Command)
      ensures others == [] ==> r == this
      ensures others != [] ==>
                r.ParallelOf? && |r.all| == |others| + 1 && r.all[0] == this && r.all[1..] == others
    {
      if others == [] then this else ParallelOf([this] + others)
    }

    function Repeated(count: nat): Command {
      RepeatOf(this, count)
    }
  }

  /** The base compilation of one instrument's list: `first.parallel(*rest)`. */
  function MergeAll(cs: seq<Command>): (r: Command)
    requires |cs| > 0
    ensures |cs| == 1 ==> r == cs[0]
    ensures |cs| > 1 ==> r == ParallelOf(cs)
  {
    assert [cs[0]] + cs[1..] == cs;
    cs[0].Parallel(cs[1..])
  }

  /** The result of `_compile_commands()`: one command per instrument, in the
      order of the resulting dictionary. */
  datatype CompiledCommands = CompiledCommands(order: seq<Instrument>, merged: map<Instrument, Command>)
  {
    ghost predicate WellFormed() {
      Distinct(order) && (forall i :: i in merged <==> i in order)
    }
  }

  /** Every instrument's list merged into one command, in registry order. */
  function BaseCompile(order: seq<Instrument>, commands: map<Instrument, seq<Command>>): (c: CompiledCommands)
    requires forall i :: i in commands ==> commands[i] != []
    ensures c.order == order && c.merged.Keys == commands.Keys
    ensures forall i :: i in commands ==> c.merged[i] == MergeAll(commands[i])
  {
    CompiledCommands(order, map i | i in commands :: MergeAll(commands[i]))
  }

  /** The instruments of s that m does not hold, in order. */
  function NewKeys(s: seq<Instrument>, m: map<Instrument, Command>): (r: seq<Instrument>)
    ensures forall i :: i in r <==> i in s && i !in m
    decreases |s|
  {
    if s == [] then []
    else if s[|s| - 1] in m then NewKeys(s[..|s| - 1], m)
    else NewKeys(s[..|s| - 1], m) + [s[|s| - 1]]
  }

  lemma {:induction false} NewKeysDistinct(s: seq<Instrument>, m: map<Instrument, Command>)
    requires Distinct(s)
    ensures Distinct(NewKeys(s, m))
    decreases |s|
  {
    if s != [] {
      var t := s[..|s| - 1];
      assert Distinct(t) by {
        forall a, b | 0 <= a < b < |t| ensures t[a] != t[b] { assert t[a] == s[a] && t[b] == s[b]; }
      }
      NewKeysDistinct(t, m);
      if s[|s| - 1] !in m {
        assert s[|s| - 1] !in t by {
          forall a | 0 <= a < |t| ensures t[a] != s[|s| - 1] { assert t[a] == s[a]; }
        }
        var r := NewKeys(t, m) + [s[|s| - 1]];
        forall a, b | 0 <= a < b < |r| ensures r[a] != r[b] {
          if b == |r| - 1 { assert r[a] in NewKeys(t, m); }
        }
      }
    }
  }

  /** The merged command of one instrument once the inner (compiled) commands
      have been folded into the outer ones: the outer command in parallel with
      the repeated inner one when both exist, else whichever exists, the inner
      one repeated. */
  function CombinedCommand(own: CompiledCommands, inner: CompiledCommands, count: nat, i: Instrument): Command
    requires i in own.merged || i in inner.merged
  {
    if i in inner.merged then
      var rep := inner.merged[i].Repeated(count);
      if i in own.merged then own.merged[i].Parallel([rep]) else rep
    else own.merged[i]
  }

  /** `RepeatedSync._compile_commands` (the corrected reading): outer
      instruments first, then the instruments only the inner sync uses. */
  function Combine(own: CompiledCommands, inner: CompiledCommands, count: nat): (c: CompiledCommands)
    ensures c.merged.Keys == own.merged.Keys + inner.merged.Keys
    ensures forall i :: i in c.merged ==> c.merged[i] == CombinedCommand(own, inner, count, i)
  {
    CompiledCommands(own.order + NewKeys(inner.order, own.merged),
             map i | i in own.merged.Keys + inner.merged.Keys :: CombinedCommand(own, inner, count, i))
  }

  /** Compilation keeps one entry per instrument, listed once. */
  lemma CombineWellFormed(own: CompiledCommands, inner: CompiledCommands, count: nat)
    requires own.WellFormed() && inner.WellFormed()
    ensures Combine(own, inner, count).WellFormed()
  {
    var r := Combine(own, inner, count).order;
    var added := NewKeys(inner.order, own.merged);
    NewKeysDistinct(inner.order, own.merged);
    forall a, b | 0 <= a < b < |r| ensures r[a] != r[b] {
      if b >= |own.order| && a < |own.order| {
        assert r[b] in added;
        assert r[a] in own.order;
      } else if a >= |own.order| {
        assert r[a] == added[a - |own.order|] && r[b] == added[b - |own.order|];
      }
    }
  }

  /** The inner compiled commands of `keys`, repeated and folded one by one
      into the outer ones, as the loop of `RepeatedSync._compile_commands`
      does. */
  function FoldInner(own: CompiledCommands, inner: CompiledCommands, count: nat, keys: seq<Instrument>): CompiledCommands
    requires forall i :: i in keys ==> i in inner.merged
    decreases |keys|
  {
    if keys == [] then own
    else
      var c := FoldInner(own, inner, count, keys[..|keys| - 1]);
      var i := keys[|keys| - 1];
      var rep := inner.merged[i].Repeated(count);
      if i in c.merged then CompiledCommands(c.order, c.merged[i := c.merged[i].Parallel([rep])])
      else CompiledCommands(c.order + [i], c.merged[i := rep])
  }

  /** Folding the inner commands one by one gives the combination: each
      folded instrument gets its combined command, the others keep theirs. */
  lemma {:induction false} FoldInnerCombines(own: CompiledCommands, inner: CompiledCommands, count: nat, keys: seq<Instrument>)
    requires Distinct(keys) && forall i :: i in keys ==> i in inner.merged
    ensures var c := FoldInner(own, inner, count, keys);
      c.order == own.order + NewKeys(keys, own.merged) &&
      c.merged.Keys == own.merged.Keys + (set i | i in keys) &&
      forall i :: i in c.merged ==>
        c.merged[i] == if i in keys then CombinedCommand(own, inner, count, i) else own.merged[i]
    decreases |keys|
  {
    if keys != [] {
      var t := keys[..|keys| - 1];
      var i := keys[|keys| - 1];
      assert keys == t + [i];
      assert Distinct(t) by {
        forall a, b | 0 <= a < b < |t| ensures t[a] != t[b] { assert t[a] == keys[a] && t[b] == keys[b]; }
      }
      assert i !in t by {
        forall a | 0 <= a < |t| ensures t[a] != i { assert t[a] == keys[a]; }
      }
      FoldInnerCombines(own, inner, count, t);
      var c := FoldInner(own, inner, count, t);
      assert i in c.merged <==> i in own.merged;
      assert NewKeys(keys, own.merged) ==
             NewKeys(t, own.merged) + (if i in own.merged then [] else [i]);
      var rep := inner.merged[i].Repeated(count);
      var r := FoldInner(own, inner, count, keys);
      assert r.merged == c.merged[i := if i in c.merged then c.merged[i].Parallel([rep]) else rep];
      assert r.merged[i] == CombinedCommand(own, inner, count, i);
    }
  }

  /** Folding in every inner instrument, in the inner order, is `Combine`. */
  lemma FoldIsCombine(own: CompiledCommands, inner: CompiledCommands, count: nat)
    requires inner.WellFormed()
    ensures FoldInner(own, inner, count, inner.order) == Combine(own, inner, count)
  {
    FoldInnerCombines(own, inner, count, inner.order);
    var c := FoldInner(own, inner, count, inner.order);
    var d := Combine(own, inner, count);
    assert (set i | i in inner.order) == inner.merged.Keys;
    assert c.merged.Keys == d.merged.Keys;
    assert forall i :: i in c.merged ==> c.merged[i] == d.merged[i];
    assert c.merged == d.merged;
  }

  /** Two commands registered on a leaf for one instrument compile to the
      first in parallel with the second, never to only one of them. */
  lemma TwoCommandsMerge(i: Instrument, c1: Command, c2: Command)
    ensures BaseCompile([i], map[i := [c1, c2]]).merged[i] == c1.Parallel([c2])
  {
  }

  /** The merged command of one instrument as line 115 of the source has
      it: an instrument only the inner sync uses gets the inner command
      without the repetition. */
  function CombinedCommandAsWritten(own: CompiledCommands, inner: CompiledCommands, count: nat, i: Instrument): (r: Command)
    requires i in own.merged || i in inner.merged
    ensures i in own.merged ==> r == CombinedCommand(own, inner, count, i)
    ensures i !in own.merged ==> r == inner.merged[i] && CombinedCommand(own, inner, count, i) == RepeatOf(r, count)
  {
    if i in inner.merged then
      if i in own.merged then own.merged[i].Parallel([inner.merged[i].Repeated(count)]) else inner.merged[i]
    else own.merged[i]
  }

  /** An instrument with a command only in the inner sync: as written its
      command runs once whatever the count, while the repetition runs the
      inner sync count times; the corrected combination repeats it. */
  lemma InnerOnlyCommandNotRepeated(i: Instrument, c: Command, count: nat)
    ensures var own := CompiledCommands([], map[]);
            var inner := CompiledCommands([i], map[i := c]);
            CombinedCommandAsWritten(own, inner, count, i) == c &&
            CombinedCommand(own, inner, count, i) == RepeatOf(c, count) &&
            CombinedCommandAsWritten(own, inner, count, i) != CombinedCommand(own, inner, count, i)
  {
    assert c < RepeatOf(c, count);
  }

  // ---------------------------------------------------------------------
  // Sync nodes: the registry and the tree of repetitions

  /** A sync node. `timing` and `inner` never change after construction; the
      registry (`_commands`) grows by `AddCommand`. `order` keeps the keys of
      `commands` in insertion order, as a Python dict does. */
  class Sync {
    const timing: Timing
    const inner: Sync?
    ghost const depth: nat
    var order: seq<Instrument>
    var commands: map<Instrument, seq<Command>>

    /** A leaf is an `ExplicitSync` with valid arrays; a `RepeatedSync`
        wraps a shallower node whose timing it repeats. */
    ghost predicate Shape()
      decreases depth
    {
      match timing
      case ExplicitTiming(_, _) => inner == null && timing.Valid()
      case RepeatedTiming(t, _) => inner != null && inner.depth < depth && inner.timing == t && inner.Shape()
    }

    /** This node and every node it wraps. */
    ghost function Nodes(): set<Sync>
      decreases depth
    {
      if inner != null && inner.depth < depth then {this} + inner.Nodes() else {this}
    }

    lemma {:induction false} NodesBelow()
      requires Shape()
      ensures forall s :: s in Nodes() ==> s.depth <= depth
      decreases depth
    {
      if inner != null {
        inner.NodesBelow();
      }
    }

    /** Every node of the tree is an allocated object, so a call that
        changes nothing leaves the whole tree as it was. */
    lemma {:induction false} NodesAllocated()
      ensures forall s :: s in Nodes() ==> allocated(s)
      decreases depth
    {
      if inner != null && inner.depth < depth {
        inner.NodesAllocated();
      }
    }

    ghost predicate RegistryOk()
      reads this
    {
      Distinct(order) &&
      (forall i :: i in commands <==> i in order) &&
      (forall i :: i in commands ==> commands[i] != [])
    }

    ghost predicate Valid()
      reads Nodes()
      decreases depth
    {
      Shape() && RegistryOk() && (inner != null ==> inner.Valid())
    }

    /** An `ExplicitSync` with an empty registry. */
    constructor Leaf(t: Timing)
      requires t.ExplicitTiming? && t.Valid()
      ensures timing == t && inner == null && order == [] && commands == map[]
      ensures Valid()
    {
      timing := t;
      inner := null;
      depth := 0;
      order := [];
      commands := map[];
    }

    /** `RepeatedSync(sync, count)` with an empty registry of its own. */
    constructor Wrap(s: Sync, count: nat)
      requires s.Valid()
      ensures timing == RepeatedTiming(s.timing, count) && inner == s
      ensures order == [] && commands == map[]
      ensures Valid()
    {
      s.NodesBelow();
      timing := RepeatedTiming(s.timing, count);
      inner := s;
      depth := s.depth + 1;
      order := [];
      commands := map[];
    }

    /** `add_command`: append to the instrument's list, creating it if absent. */
    method AddCommand(i: Instrument, c: Command)
      requires Valid()
      modifies this
      ensures commands == old(commands)[i := (if i in old(commands) then old(commands)[i] else []) + [c]]
      ensures order == if i in old(commands) then old(order) else old(order) + [i]
      ensures Valid()
    {
      if inner != null {
        inner.NodesBelow();
        assert this !in inner.Nodes();
      }
      if i in commands {
        commands := commands[i := commands[i] + [c]];
      } else {
        assert forall k :: 0 <= k < |order| ==> order[k] != i;
        assert [] + [c] == [c];
        commands := commands[i := [c]];
        order := order + [i];
      }
    }

    /** `repeated(count)`: a new node around this one; this node is unchanged. */
    method Repeated(count: nat) returns (r: Sync)
      requires Valid()
      ensures fresh(r) && r.inner == this && r.timing == RepeatedTiming(timing, count)
      ensures r.order == [] && r.commands == map[] && r.Valid()
    {
      r := new Sync.Wrap(this, count);
    }

    /** What compiling this node yields. */
    ghost function Compiled(): CompiledCommands
      requires Valid()
      reads Nodes()
      decreases depth
    {
      var own := BaseCompile(order, commands);
      if inner == null then own else Combine(own, inner.Compiled(), timing.count)
    }

    /** Every instrument registered at this node or any node it wraps. */
    ghost function Registered(): set<Instrument>
      requires Valid()
      reads Nodes()
      decreases depth
    {
      commands.Keys + (if inner == null then {} else inner.Registered())
    }

    /** Compilation yields one entry per registered instrument of the whole
        tree, each listed once. */
    lemma {:induction false} CompiledCovers()
      requires Valid()
      ensures Compiled().WellFormed()
      ensures Compiled().merged.Keys == Registered()
      decreases depth
    {
      var own := BaseCompile(order, commands);
      assert own.WellFormed();
      if inner != null {
        inner.CompiledCovers();
        CombineWellFormed(own, inner.Compiled(), timing.count);
      }
    }

    /** `_compile_commands()`: the own registry merged per instrument, then
        every inner compiled command repeated and folded in, in the inner
        dictionary's order. */
    method CompileCommands() returns (c: CompiledCommands)
      requires Valid()
      ensures Valid()
      ensures c == Compiled()
      decreases depth
    {
      NodesAllocated();
      var own := BaseCompile(order, commands);
      if inner == null {
        return own;
      }
      var ic := inner.CompileCommands();
      inner.CompiledCovers();
      c := MergeInner(own, ic, timing.count);
      assert unchanged(Nodes());
    }

    /** `execute()`: compile, then the list of `prepare(self, command)` calls,
        one per compiled instrument, in the order of the compiled dictionary. */
    method Execute() returns (prepared: seq<(Instrument, Command)>)
      requires Valid()
      ensures Valid()
      ensures var c := Compiled();
        |prepared| == |c.order| &&
        forall k :: 0 <= k < |prepared| ==>
          prepared[k].0 == c.order[k] && prepared[k].0 in c.merged && prepared[k].1 == c.merged[c.order[k]]
      ensures forall i :: i in Registered() <==> exists k :: 0 <= k < |prepared| && prepared[k].0 == i
      ensures forall a, b :: 0 <= a < b < |prepared| ==> prepared[a].0 != prepared[b].0
    {
      NodesAllocated();
      var c := CompileCommands();
      CompiledCovers();
      ghost var registered := Registered();
      assert c.WellFormed() && c.merged.Keys == registered;
      prepared := PrepareAll(c);
      assert unchanged(Nodes());
      assert c == Compiled() && registered == Registered();
    }
  }

  /** The loop of `RepeatedSync._compile_commands`: every inner compiled
      command repeated `count` times and put in parallel with the own
      command of its instrument, or added after the own entries. */
  method MergeInner(own: CompiledCommands, inner: CompiledCommands, count: nat) returns (c: CompiledCommands)
    requires inner.WellFormed()
    ensures c == Combine(own, inner, count)
  {
    c := own;
    var k := 0;
    while k < |inner.order|
      invariant 0 <= k <= |inner.order|
      invariant c == FoldInner(own, inner, count, inner.order[..k])
    {
      var i := inner.order[k];
      assert inner.order[..k + 1][..k] == inner.order[..k];
      var rep := inner.merged[i].Repeated(count);
      if i in c.merged {
        c := CompiledCommands(c.order, c.merged[i := c.merged[i].Parallel([rep])]);
      } else {
        c := CompiledCommands(c.order + [i], c.merged[i := rep]);
      }
      k := k + 1;
    }
    assert inner.order[..k] == inner.order;
    FoldIsCombine(own, inner, count);
  }

  /** The `prepare` calls `execute` makes: one per compiled instrument, in
      the order of the compiled dictionary, each with its merged command. */
  method PrepareAll(c: CompiledCommands) returns (prepared: seq<(Instrument, Command)>)
    requires c.WellFormed()
    ensures |prepared| == |c.order|
    ensures forall k :: 0 <= k < |prepared| ==>
              prepared[k].0 == c.order[k] && prepared[k].0 in c.merged && prepared[k].1 == c.merged[c.order[k]]
    ensures forall i :: i in c.merged <==> exists k :: 0 <= k < |prepared| && prepared[k].0 == i
    ensures forall a, b :: 0 <= a < b < |prepared| ==> prepared[a].0 != prepared[b].0
  {
    prepared := [];
    var k := 0;
    while k < |c.order|
      invariant 0 <= k <= |c.order|
      invariant |prepared| == k
      invariant forall a :: 0 <= a < k ==> prepared[a] == (c.order[a], c.merged[c.order[a]])
    {
      prepared := prepared + [(c.order[k], c.merged[c.order[k]])];
      k := k + 1;
    }
    forall i | i in c.merged ensures exists a :: 0 <= a < |prepared| && prepared[a].0 == i {
      var a :| 0 <= a < |c.order| && c.order[a] == i;
      assert prepared[a].0 == i;
    }
  }

  /** `ExplicitSync(...)` as an object: a leaf node, or the construction error. */
  method CreateExplicitSync(begin: seq<int>, length: seq<int>, duration: Option<int>)
    returns (r: Result<Sync, SyncError>)
    ensures r.Success? <==> NewExplicit(begin, length, duration).Success?
    ensures r.Failure? ==> r.error == NewExplicit(begin, length, duration).error
    ensures r.Success? ==>
              fresh(r.value) && r.value.Valid() &&
              r.value.timing == NewExplicit(begin, length, duration).value &&
              r.value.order == [] && r.value.commands == map[]
  {
    var t := NewExplicit(begin, length, duration);
    if t.Failure? {
      return Failure(t.error);
    }
    var s := new Sync.Leaf(t.value);
    return Success(s);
  }
}
