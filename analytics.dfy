/**
 * The analytics engine of the C++ telematics core (class AdvancedAnalytics
 * in advanced_telematics.cpp): order statistics over a series, the
 * per-vehicle trend series capped at 200 values, linear extrapolation and
 * the seasonal (phase) average.
 */
module Analytics {
  import opened Windows
  import opened TelematicsTypes

  /** Trend series keep this many of the most recent values. */
  const MaxTrendSize: nat := 200

  // ---------------------------------------------------------------------
  // Sorting (the `std::sort` of a copy)
  // ---------------------------------------------------------------------

  predicate IsSorted(s: seq<real>)
  {
    forall i, j :: 0 <= i < j < |s| ==> s[i] <= s[j]
  }

  /** Inserts `x` into a sorted sequence. */
  function Insert(x: real, s: seq<real>): (r: seq<real>)
    requires IsSorted(s)
    ensures IsSorted(r)
    ensures multiset(r) == multiset(s) + multiset{x}
    ensures |r| == |s| + 1
  {
    if s == [] then [x]
    else if x <= s[0] then [x] + s
    else
      var tail := Insert(x, s[1..]);
      InsertBehindHead(x, s, tail);
      [s[0]] + tail
  }

  /** Putting the head of `s` in front of a sorted arrangement of the rest
      of `s` with `x`, where `x` comes after the head, is sorted and holds
      `s` and `x`. */
  lemma InsertBehindHead(x: real, s: seq<real>, tail: seq<real>)
    requires IsSorted(s) && s != [] && s[0] < x
    requires IsSorted(tail) && multiset(tail) == multiset(s[1..]) + multiset{x}
    ensures IsSorted([s[0]] + tail)
    ensures multiset([s[0]] + tail) == multiset(s) + multiset{x}
  {
    assert s == [s[0]] + s[1..];
    forall k | 0 <= k < |tail| ensures s[0] <= tail[k] {
      assert tail[k] in multiset(tail);
      if tail[k] in multiset(s[1..]) {
        var j :| 0 <= j < |s[1..]| && s[1..][j] == tail[k];
        assert s[j + 1] == tail[k];
      }
    }
    var r := [s[0]] + tail;
    forall i, j | 0 <= i < j < |r| ensures r[i] <= r[j] {
      assert r[j] == tail[j - 1];
      if i > 0 {
        assert r[i] == tail[i - 1];
      }
    }
  }

  /** A sorted permutation of `data`. */
  function SortedCopy(data: seq<real>): (r: seq<real>)
    ensures IsSorted(r)
    ensures multiset(r) == multiset(data)
    ensures |r| == |data|
  {
    if data == [] then []
    else
      assert data == [data[0]] + data[1..];
      Insert(data[0], SortedCopy(data[1..]))
  }

  /** `std::accumulate(data.begin(), data.end(), 0.0)`. */
  function Sum(s: seq<real>): real
  {
    if s == [] then 0.0 else Sum(s[..|s| - 1]) + s[|s| - 1]
  }

  // ---------------------------------------------------------------------
  // calculateStatistics (order statistics and mean)
  // ---------------------------------------------------------------------

  /** The order-statistic part of `AdvancedAnalytics::Statistics`. */
  datatype Statistics = Statistics(mean: real, median: real, minVal: real, maxVal: real, percentile95: real)

  const ZeroStatistics: Statistics := Statistics(0.0, 0.0, 0.0, 0.0, 0.0)

  /** `static_cast<size_t>(0.95 * (n - 1))`, read with exact arithmetic:
      the floor of 95(n-1)/100, which lies in [0, n-1]. */
  function P95Index(n: nat): (k: nat)
    requires n >= 1
    ensures k <= n - 1
    ensures k * 100 <= 95 * (n - 1) < (k + 1) * 100
  {
    (95 * (n - 1)) / 100
  }

  /** The statistics read off a sorted copy `s` of a non-empty series. */
  function OrderStatistics(data: seq<real>, s: seq<real>): (st: Statistics)
    requires |s| == |data| > 0
  {
    var n := |s|;
    Statistics(
      mean := Sum(data) / (n as real),
      median := if n % 2 == 0 then (s[n / 2 - 1] + s[n / 2]) / 2.0 else s[n / 2],
      minVal := s[0],
      maxVal := s[n - 1],
      percentile95 := s[P95Index(n)])
  }

  /** The specification of `calculateStatistics`: zero for an empty series;
      otherwise min and max are the ends of the sorted copy, the median is
      its middle element (or the mean of the two middle ones), the 95th
      percentile is the element at `P95Index`, and the mean is sum / n. */
  function StatisticsOf(data: seq<real>): (st: Statistics)
    ensures data == [] ==> st == ZeroStatistics
  {
    if data == [] then ZeroStatistics else OrderStatistics(data, SortedCopy(data))
  }

  /** The `std::accumulate` loop. */
  method SumOf(data: seq<real>) returns (sum: real)
    ensures sum == Sum(data)
  {
    sum := 0.0;
    var i := 0;
    while i < |data|
      invariant 0 <= i <= |data|
      invariant sum == Sum(data[..i])
    {
      assert data[..i + 1][..i] == data[..i];
      sum := sum + data[i];
      i := i + 1;
    }
    assert data[..|data|] == data;
  }

  /** The sum, then the order statistics read from the sorted copy. */
  method CalculateStatistics(data: seq<real>) returns (stats: Statistics)
    ensures stats == StatisticsOf(data)
  {
    if |data| == 0 {
      return ZeroStatistics;
    }
    var sum := SumOf(data);
    var sorted := SortedCopy(data);
    var n := |sorted|;
    var median := if n % 2 == 0 then (sorted[n / 2 - 1] + sorted[n / 2]) / 2.0 else sorted[n / 2];
    stats := Statistics(sum / (n as real), median, sorted[0], sorted[n - 1], sorted[P95Index(n)]);
  }

  lemma SortedBounds(s: seq<real>, data: seq<real>)
    requires IsSorted(s) && multiset(s) == multiset(data) && |s| > 0
    ensures forall k :: 0 <= k < |data| ==> s[0] <= data[k] <= s[|s| - 1]
    ensures s[0] in data && s[|s| - 1] in data
  {
    forall k | 0 <= k < |data| ensures s[0] <= data[k] <= s[|s| - 1] {
      assert data[k] in multiset(data);
      assert data[k] in multiset(s);
      var j :| 0 <= j < |s| && s[j] == data[k];
    }
    assert s[0] in multiset(s);
    assert s[|s| - 1] in multiset(s);
  }

  lemma OrderStatisticsBounds(data: seq<real>, s: seq<real>)
    requires IsSorted(s) && multiset(s) == multiset(data) && |s| == |data| > 0
    ensures var st := OrderStatistics(data, s);
      && (forall k :: 0 <= k < |data| ==> st.minVal <= data[k] <= st.maxVal)
      && st.minVal in data && st.maxVal in data
      && st.minVal <= st.median <= st.maxVal
      && st.minVal <= st.percentile95 <= st.maxVal
      && st.percentile95 in data
      && st.minVal <= st.mean <= st.maxVal
  {
    SortedBounds(s, data);
    MiddleBounds(s);
    PercentileInData(data, s);
    MeanBounds(data, s[0], s[|s| - 1]);
  }

  lemma MiddleBounds(s: seq<real>)
    requires IsSorted(s) && |s| > 0
    ensures var n := |s|;
      && s[0] <= s[P95Index(n)] <= s[n - 1]
      && s[0] <= (if n % 2 == 0 then (s[n / 2 - 1] + s[n / 2]) / 2.0 else s[n / 2]) <= s[n - 1]
  {
    var n := |s|;
    if n % 2 == 0 {
      assert s[0] <= s[n / 2 - 1] <= s[n / 2] <= s[n - 1];
    } else {
      assert s[0] <= s[n / 2] <= s[n - 1];
    }
  }

  lemma PercentileInData(data: seq<real>, s: seq<real>)
    requires multiset(s) == multiset(data) && |s| > 0
    ensures s[P95Index(|s|)] in data
  {
    assert s[P95Index(|s|)] in multiset(s);
  }

  lemma MeanBounds(data: seq<real>, lo: real, hi: real)
    requires |data| > 0
    requires forall k :: 0 <= k < |data| ==> lo <= data[k] <= hi
    ensures lo <= Sum(data) / (|data| as real) <= hi
  {
    SumBounds(data, lo, hi);
    QuotientBounds(Sum(data), |data| as real, lo, hi);
  }

  /** Min is the smallest element of the series and max the largest, both
      occur in it; the median, the 95th percentile and the mean lie between
      them, and the percentile is itself a sample. */
  lemma StatisticsBounds(data: seq<real>)
    requires |data| > 0
    ensures var st := StatisticsOf(data);
      && (forall k :: 0 <= k < |data| ==> st.minVal <= data[k] <= st.maxVal)
      && st.minVal in data && st.maxVal in data
      && st.minVal <= st.median <= st.maxVal
      && st.minVal <= st.percentile95 <= st.maxVal
      && st.percentile95 in data
      && st.minVal <= st.mean <= st.maxVal
  {
    OrderStatisticsBounds(data, SortedCopy(data));
  }

  /** The empty series has all-zero statistics. */
  lemma StatisticsOfEmpty()
    ensures StatisticsOf([]) == Statistics(0.0, 0.0, 0.0, 0.0, 0.0)
  {
  }

  lemma QuotientBounds(sum: real, n: real, lo: real, hi: real)
    requires n > 0.0 && n * lo <= sum <= n * hi
    ensures lo <= sum / n <= hi
  {
    assert (sum / n) * n == sum;
  }

  lemma {:induction false} SumBounds(s: seq<real>, lo: real, hi: real)
    requires forall k :: 0 <= k < |s| ==> lo <= s[k] <= hi
    ensures (|s| as real) * lo <= Sum(s) <= (|s| as real) * hi
  {
    if s != [] {
      SumBounds(s[..|s| - 1], lo, hi);
    }
  }

  /** Two sorted arrangements of the same samples are equal. */
  lemma {:induction false} SortedUnique(a: seq<real>, b: seq<real>)
    requires IsSorted(a) && IsSorted(b) && multiset(a) == multiset(b)
    ensures a == b
    decreases |a|
  {
    assert |a| == |multiset(a)| == |multiset(b)| == |b|;
    if a != [] {
      SortedHeads(a, b);
      SortedTail(a);
      SortedTail(b);
      assert multiset(a[1..]) == multiset(b[1..]) by {
        MultisetTail(a);
        MultisetTail(b);
      }
      SortedUnique(a[1..], b[1..]);
      SameHeadAndTail(a, b);
    }
  }

  lemma SameHeadAndTail(a: seq<real>, b: seq<real>)
    requires a != [] && b != [] && a[0] == b[0] && a[1..] == b[1..]
    ensures a == b
  {
    assert a == [a[0]] + a[1..];
    assert b == [b[0]] + b[1..];
  }

  /** Two sorted arrangements of the same samples start with the same one. */
  lemma SortedHeads(a: seq<real>, b: seq<real>)
    requires IsSorted(a) && IsSorted(b) && multiset(a) == multiset(b) && a != [] && b != []
    ensures a[0] == b[0]
  {
    assert b[0] in multiset(a);
    var i :| 0 <= i < |a| && a[i] == b[0];
    assert a[0] in multiset(b);
    var j :| 0 <= j < |b| && b[j] == a[0];
    assert a[0] <= a[i] && b[0] <= b[j];
  }

  lemma SortedTail(a: seq<real>)
    requires IsSorted(a) && a != []
    ensures IsSorted(a[1..])
  {
    forall i, j | 0 <= i < j < |a[1..]| ensures a[1..][i] <= a[1..][j] {
      assert a[1..][i] == a[i + 1] && a[1..][j] == a[j + 1];
    }
  }

  lemma MultisetTail(a: seq<real>)
    requires a != []
    ensures multiset(a[1..]) == multiset(a) - multiset{a[0]}
  {
    assert a == [a[0]] + a[1..];
  }

  /** Min, max, median and percentile depend on the samples only through
      their multiset: reordering the series changes none of them. */
  lemma StatisticsOrderIndependent(a: seq<real>, b: seq<real>)
    requires multiset(a) == multiset(b)
    ensures var sa, sb := StatisticsOf(a), StatisticsOf(b);
      sa.minVal == sb.minVal && sa.maxVal == sb.maxVal && sa.median == sb.median && sa.percentile95 == sb.percentile95
  {
    assert |a| == |multiset(a)| == |multiset(b)| == |b|;
    if a != [] {
      var sa, sb := SortedCopy(a), SortedCopy(b);
      SortedUnique(sa, sb);
      assert StatisticsOf(a) == OrderStatistics(a, sa);
      assert StatisticsOf(b) == OrderStatistics(b, sb);
    }
  }

  // ---------------------------------------------------------------------
  // predictNextValue and detectSeasonalPattern
  // ---------------------------------------------------------------------

  /** Linear extrapolation from the last step; 0 for fewer than three points. */
  function PredictNextValue(trend: seq<real>): (r: real)
    ensures |trend| < 3 ==> r == 0.0
    ensures |trend| >= 3 ==> r - trend[|trend| - 1] == trend[|trend| - 1] - trend[|trend| - 2]
  {
    if |trend| < 3 then 0.0
    else trend[|trend| - 1] + (trend[|trend| - 1] - trend[|trend| - 2])
  }

  /** On an arithmetic progression of three or more points the prediction is
      the progression's next term. */
  lemma PredictExtendsProgression(trend: seq<real>, start: real, step: real)
    requires |trend| >= 3
    requires forall i :: 0 <= i < |trend| ==> trend[i] == start + (i as real) * step
    ensures PredictNextValue(trend) == start + (|trend| as real) * step
  {
    var n := |trend|;
    assert trend[n - 1] == start + ((n - 1) as real) * step;
    assert trend[n - 2] == start + ((n - 2) as real) * step;
  }

  /** Sum of the samples at positions congruent to `p` modulo `period`. */
  function PhaseSum(data: seq<real>, period: nat, p: nat): real
    requires period > 0
  {
    if data == [] then 0.0
    else PhaseSum(data[..|data| - 1], period, p) + (if (|data| - 1) % period == p then data[|data| - 1] else 0.0)
  }

  /** Number of samples at positions congruent to `p` modulo `period`. */
  function PhaseCount(data: seq<real>, period: nat, p: nat): nat
    requires period > 0
  {
    if data == [] then 0
    else PhaseCount(data[..|data| - 1], period, p) + (if (|data| - 1) % period == p then 1 else 0)
  }

  lemma PhaseStep(data: seq<real>, period: nat, p: nat, i: nat)
    requires period > 0 && i < |data|
    ensures PhaseSum(data[..i + 1], period, p) == PhaseSum(data[..i], period, p) + (if i % period == p then data[i] else 0.0)
    ensures PhaseCount(data[..i + 1], period, p) == PhaseCount(data[..i], period, p) + (if i % period == p then 1 else 0)
  {
    assert data[..i + 1][..i] == data[..i];
  }

  /** A phase that receives no sample has sum 0. */
  lemma {:induction false} PhaseSumOfEmptyPhase(data: seq<real>, period: nat, p: nat)
    requires period > 0 && PhaseCount(data, period, p) == 0
    ensures PhaseSum(data, period, p) == 0.0
  {
    if data != [] {
      PhaseSumOfEmptyPhase(data[..|data| - 1], period, p);
    }
  }

  /** Entry `p` of the seasonal pattern: the phase mean, or 0 for a phase no
      sample falls in. */
  function PhaseMean(data: seq<real>, period: nat, p: nat): (m: real)
    requires period > 0
    ensures PhaseCount(data, period, p) == 0 ==> m == 0.0
    ensures PhaseCount(data, period, p) > 0 ==> m * (PhaseCount(data, period, p) as real) == PhaseSum(data, period, p)
  {
    if PhaseCount(data, period, p) > 0 then PhaseSum(data, period, p) / (PhaseCount(data, period, p) as real) else 0.0
  }

  /** The accumulate pass of `detectSeasonalPattern`: per phase, the sum
      and the number of samples. */
  method AccumulatePhases(data: seq<real>, period: nat) returns (sums: array<real>, counts: array<nat>)
    requires period > 0
    ensures fresh(sums) && fresh(counts)
    ensures sums.Length == period && counts.Length == period
    ensures forall p :: 0 <= p < period ==> sums[p] == PhaseSum(data, period, p)
    ensures forall p :: 0 <= p < period ==> counts[p] == PhaseCount(data, period, p)
  {
    sums := new real[period](_ => 0.0);
    counts := new nat[period](_ => 0);
    var i := 0;
    while i < |data|
      invariant 0 <= i <= |data|
      invariant forall p :: 0 <= p < period ==> sums[p] == PhaseSum(data[..i], period, p)
      invariant forall p :: 0 <= p < period ==> counts[p] == PhaseCount(data[..i], period, p)
    {
      forall p | 0 <= p < period
        ensures PhaseSum(data[..i + 1], period, p) == PhaseSum(data[..i], period, p) + (if i % period == p then data[i] else 0.0)
        ensures PhaseCount(data[..i + 1], period, p) == PhaseCount(data[..i], period, p) + (if i % period == p then 1 else 0)
      {
        PhaseStep(data, period, p, i);
      }
      var phase := i % period;
      sums[phase] := sums[phase] + data[i];
      counts[phase] := counts[phase] + 1;
      i := i + 1;
    }
    assert data[..|data|] == data;
  }

  /** `detectSeasonalPattern`: `period` entries, entry `p` the mean of the
      samples whose position is `p` modulo `period`, 0 where there is none. */
  method DetectSeasonalPattern(data: seq<real>, period: nat) returns (pattern: seq<real>)
    requires period > 0
    ensures |pattern| == period
    ensures forall p :: 0 <= p < period ==> pattern[p] == PhaseMean(data, period, p)
  {
    var avg, count := AccumulatePhases(data, period);
    ghost var means := seq(period, p requires 0 <= p < period => PhaseMean(data, period, p));
    var j := 0;
    while j < period
      invariant 0 <= j <= period
      invariant forall p :: 0 <= p < j ==> avg[p] == means[p]
      invariant forall p :: j <= p < period ==> avg[p] == PhaseSum(data, period, p)
      modifies avg
    {
      assert count[j] == PhaseCount(data, period, j);
      ghost var mean := PhaseMean(data, period, j);
      assert means[j] == mean;
      if count[j] > 0 {
        avg[j] := avg[j] / (count[j] as real);
      } else {
        PhaseSumOfEmptyPhase(data, period, j);
      }
      j := j + 1;
    }
    pattern := avg[..];
  }

  /** Phase `p` (below the period) receives a sample exactly when the series
      is longer than `p`; the count is the number of positions `p`,
      `p + period`, ... below the length. */
  lemma {:induction false} PhaseCountPositive(data: seq<real>, period: nat, p: nat)
    requires period > 0 && p < period
    ensures PhaseCount(data, period, p) > 0 <==> p < |data|
  {
    if data != [] {
      var last := |data| - 1;
      PhaseCountPositive(data[..last], period, p);
      if last < period {
        assert last % period == last;
      }
    }
  }

  /** A constant series has a flat seasonal pattern: every phase that
      receives a sample averages to that constant. */
  lemma {:induction false} PhaseOfConstant(data: seq<real>, period: nat, p: nat, c: real)
    requires period > 0
    requires forall k :: 0 <= k < |data| ==> data[k] == c
    ensures PhaseSum(data, period, p) == (PhaseCount(data, period, p) as real) * c
    ensures PhaseCount(data, period, p) > 0 ==> PhaseMean(data, period, p) == c
  {
    if data != [] {
      PhaseOfConstant(data[..|data| - 1], period, p, c);
    }
  }

  // ---------------------------------------------------------------------
  // The trend store
  // ---------------------------------------------------------------------

  /** Which of the five trend series. */
  datatype Metric = Speed | Rpm | Temperature | Fuel | Acceleration

  function MetricValue(r: Reading, m: Metric): real
  {
    match m
    case Speed => r.speed
    case Rpm => r.rpm
    case Temperature => r.temperature
    case Fuel => r.fuelLevel
    case Acceleration => r.acceleration
  }

  /** The values of metric `m` along a reading history. */
  function Series(h: seq<Reading>, m: Metric): (r: seq<real>)
    ensures |r| == |h|
    ensures forall i :: 0 <= i < |h| ==> r[i] == MetricValue(h[i], m)
  {
    seq(|h|, i requires 0 <= i < |h| => MetricValue(h[i], m))
  }

  lemma SeriesSnoc(h: seq<Reading>, r: Reading, m: Metric)
    ensures Series(h + [r], m) == Series(h, m) + [MetricValue(r, m)]
  {
  }

  /** `map[k]` on a `std::map`: the stored series, or an empty one. */
  function Lookup(trends: map<int, seq<real>>, vid: int): seq<real>
  {
    if vid in trends then trends[vid] else []
  }

  function LookupHistory(h: map<int, seq<Reading>>, vid: int): seq<Reading>
  {
    if vid in h then h[vid] else []
  }

  class AdvancedAnalytics {
    var speedTrends: map<int, seq<real>>
    var rpmTrends: map<int, seq<real>>
    var tempTrends: map<int, seq<real>>
    var fuelTrends: map<int, seq<real>>
    var accelerationTrends: map<int, seq<real>>
    /** Every reading handed to `UpdateTrends`, per vehicle, oldest first. */
    ghost var pushed: map<int, seq<Reading>>

    /** Each series holds the most recent 200 values of its metric over
        everything pushed for that vehicle. */
    ghost predicate Valid()
      reads this
    {
      TracksAll(speedTrends, rpmTrends, tempTrends, fuelTrends, accelerationTrends, pushed)
    }

    constructor ()
      ensures Valid() && pushed == map[]
    {
      speedTrends, rpmTrends, tempTrends, fuelTrends, accelerationTrends := map[], map[], map[], map[], map[];
      pushed := map[];
    }

    /** Every series is at most 200 long and is a suffix of its full
        history: FIFO, oldest value dropped first. */
    lemma TrendWindowProperties(m: Metric, v: int)
      requires Valid() && v in pushed
      ensures var t := Lookup(TrendsOf(m), v);
        && |t| <= MaxTrendSize
        && |t| == Min(|pushed[v]|, MaxTrendSize)
        && t == Series(pushed[v], m)[|pushed[v]| - |t|..]
    {
      assert TrackedAt(TrendsOf(m), pushed, m, v);
    }

    function TrendsOf(m: Metric): map<int, seq<real>>
      reads this
    {
      match m
      case Speed => speedTrends
      case Rpm => rpmTrends
      case Temperature => tempTrends
      case Fuel => fuelTrends
      case Acceleration => accelerationTrends
    }

    /** Appends the reading's five values to the vehicle's series, dropping
        the oldest value of any series that grew past 200. */
    method UpdateTrends(vid: int, r: Reading)
      requires Valid()
      modifies this
      ensures Valid()
      ensures pushed == old(pushed)[vid := LookupHistory(old(pushed), vid) + [r]]
      ensures speedTrends == old(speedTrends)[vid := Slide(Lookup(old(speedTrends), vid), r.speed, MaxTrendSize)]
      ensures rpmTrends == old(rpmTrends)[vid := Slide(Lookup(old(rpmTrends), vid), r.rpm, MaxTrendSize)]
      ensures tempTrends == old(tempTrends)[vid := Slide(Lookup(old(tempTrends), vid), r.temperature, MaxTrendSize)]
      ensures fuelTrends == old(fuelTrends)[vid := Slide(Lookup(old(fuelTrends), vid), r.fuelLevel, MaxTrendSize)]
      ensures accelerationTrends == old(accelerationTrends)[vid := Slide(Lookup(old(accelerationTrends), vid), r.acceleration, MaxTrendSize)]
    {
      var h := LookupHistory(pushed, vid);
      ghost var pushed' := pushed[vid := h + [r]];
      var speed' := speedTrends[vid := Slide(Lookup(speedTrends, vid), r.speed, MaxTrendSize)];
      var rpm' := rpmTrends[vid := Slide(Lookup(rpmTrends, vid), r.rpm, MaxTrendSize)];
      var temp' := tempTrends[vid := Slide(Lookup(tempTrends, vid), r.temperature, MaxTrendSize)];
      var fuel' := fuelTrends[vid := Slide(Lookup(fuelTrends, vid), r.fuelLevel, MaxTrendSize)];
      var accel' := accelerationTrends[vid := Slide(Lookup(accelerationTrends, vid), r.acceleration, MaxTrendSize)];
      AllTracksStep(speedTrends, rpmTrends, tempTrends, fuelTrends, accelerationTrends, pushed, vid, r);
      speedTrends, rpmTrends, tempTrends, fuelTrends, accelerationTrends := speed', rpm', temp', fuel', accel';
      pushed := pushed';
    }

    /** `getSpeedStats`, `getRPMStats`, ...: the statistics of one series;
        all zero for a vehicle with no series, otherwise bounded by it. */
    function GetStats(m: Metric, vid: int): (s: Statistics)
      reads this
      ensures Lookup(TrendsOf(m), vid) == [] ==> s == ZeroStatistics
      ensures var t := Lookup(TrendsOf(m), vid);
        t != [] ==>
          && (forall k :: 0 <= k < |t| ==> s.minVal <= t[k] <= s.maxVal)
          && s.minVal in t && s.maxVal in t && s.percentile95 in t
          && s.minVal <= s.median <= s.maxVal
          && s.minVal <= s.mean <= s.maxVal
    {
      var t := Lookup(TrendsOf(m), vid);
      if t == [] then StatisticsOf(t) else StatisticsBounds(t); StatisticsOf(t)
    }
  }

  /** `trends` holds, per vehicle, the last 200 values of metric `m` over
      the vehicle's reading history. */
  ghost predicate Tracks(trends: map<int, seq<real>>, pushed: map<int, seq<Reading>>, m: Metric)
  {
    forall v :: TrackedAt(trends, pushed, m, v)
  }

  /** Vehicle `v` has a trend exactly when it has a history, and the trend
      is the last 200 values of that history. */
  ghost predicate TrackedAt(trends: map<int, seq<real>>, pushed: map<int, seq<Reading>>, m: Metric, v: int)
  {
    && (v in trends <==> v in pushed)
    && (v in pushed ==> trends[v] == LastN(Series(pushed[v], m), MaxTrendSize))
  }

  /** Pushing one reading for `vid` preserves `Tracks`. */
  lemma TracksStep(trends: map<int, seq<real>>, pushed: map<int, seq<Reading>>, vid: int, r: Reading, m: Metric)
    requires Tracks(trends, pushed, m)
    ensures Tracks(trends[vid := Slide(Lookup(trends, vid), MetricValue(r, m), MaxTrendSize)],
                   pushed[vid := LookupHistory(pushed, vid) + [r]], m)
  {
    var h := LookupHistory(pushed, vid);
    var t := Lookup(trends, vid);
    var trends' := trends[vid := Slide(t, MetricValue(r, m), MaxTrendSize)];
    var pushed' := pushed[vid := h + [r]];
    forall v ensures TrackedAt(trends', pushed', m, v) {
      assert TrackedAt(trends, pushed, m, v);
      if v == vid {
        assert t == LastN(Series(h, m), MaxTrendSize) by {
          if vid !in pushed {
            assert Series(h, m) == [];
          }
        }
        TrendStep(h, r, m);
      }
    }
  }

  /** One push keeps a trend equal to the last 200 values of its history. */
  lemma TrendStep(h: seq<Reading>, r: Reading, m: Metric)
    ensures Slide(LastN(Series(h, m), MaxTrendSize), MetricValue(r, m), MaxTrendSize)
         == LastN(Series(h + [r], m), MaxTrendSize)
  {
    SeriesSnoc(h, r, m);
    SlideHistory(Series(h, m), MetricValue(r, m), MaxTrendSize);
  }

  ghost predicate TracksAll(s: map<int, seq<real>>, rp: map<int, seq<real>>, t: map<int, seq<real>>,
                            f: map<int, seq<real>>, a: map<int, seq<real>>, pushed: map<int, seq<Reading>>)
  {
    && Tracks(s, pushed, Speed)
    && Tracks(rp, pushed, Rpm)
    && Tracks(t, pushed, Temperature)
    && Tracks(f, pushed, Fuel)
    && Tracks(a, pushed, Acceleration)
  }

  lemma AllTracksStep(s: map<int, seq<real>>, rp: map<int, seq<real>>, t: map<int, seq<real>>,
                      f: map<int, seq<real>>, a: map<int, seq<real>>, pushed: map<int, seq<Reading>>,
                      vid: int, r: Reading)
    requires TracksAll(s, rp, t, f, a, pushed)
    ensures TracksAll(s[vid := Slide(Lookup(s, vid), r.speed, MaxTrendSize)],
                      rp[vid := Slide(Lookup(rp, vid), r.rpm, MaxTrendSize)],
                      t[vid := Slide(Lookup(t, vid), r.temperature, MaxTrendSize)],
                      f[vid := Slide(Lookup(f, vid), r.fuelLevel, MaxTrendSize)],
                      a[vid := Slide(Lookup(a, vid), r.acceleration, MaxTrendSize)],
                      pushed[vid := LookupHistory(pushed, vid) + [r]])
  {
    TracksStep(s, pushed, vid, r, Speed);
    TracksStep(rp, pushed, vid, r, Rpm);
    TracksStep(t, pushed, vid, r, Temperature);
    TracksStep(f, pushed, vid, r, Fuel);
    TracksStep(a, pushed, vid, r, Acceleration);
  }
}
