// Latency windows and their percentiles: src/metrics/disk.c and the scan loop
// of src/core/scan.c. Milliseconds are reals; a negative value is "not read".
// The C library sort is taken as StableSort.Sort, which is a sorted
// permutation; for numbers there is only one.

module DiskLatency {
  import opened StableSort

  const LATENCY_CAP: nat := 32
  const MAX_SAMPLES: nat := 32

  function Smaller(): (real, real) -> bool {
    (a: real, b: real) => a < b
  }

  function AtMost(s: seq<real>, v: real): nat {
    if s == [] then 0 else AtMost(s[..|s| - 1], v) + (if s[|s| - 1] <= v then 1 else 0)
  }

  function Below(s: seq<real>, v: real): nat {
    if s == [] then 0 else Below(s[..|s| - 1], v) + (if s[|s| - 1] < v then 1 else 0)
  }

  // v is the nearest-rank percentile for target = percent * n: the least stored
  // value that at least percent in a hundred of the n stored values do not exceed.
  predicate IsPercentile(s: seq<real>, target: nat, v: real) {
    v in s && 100 * AtMost(s, v) >= target && 100 * Below(s, v) < target
  }

  lemma {:induction false} CountsOrdered(s: seq<real>, v: real, w: real)
    requires v < w
    ensures AtMost(s, v) <= Below(s, w) <= AtMost(s, w)
  {
    if s != [] {
      CountsOrdered(s[..|s| - 1], v, w);
    }
  }

  lemma PercentileIsUnique(s: seq<real>, target: nat, v: real, w: real)
    requires IsPercentile(s, target, v) && IsPercentile(s, target, w)
    ensures v == w
  {
    if v < w {
      CountsOrdered(s, v, w);
    } else if w < v {
      CountsOrdered(s, w, v);
    }
  }

  lemma {:induction false} CountsAfterInsert(s: seq<real>, x: real, v: real)
    ensures AtMost(Insert(Smaller(), s, x), v) == AtMost(s, v) + (if x <= v then 1 else 0)
    ensures Below(Insert(Smaller(), s, x), v) == Below(s, v) + (if x < v then 1 else 0)
  {
    if s == [] || !Smaller()(x, s[|s| - 1]) {
      assert (s + [x])[..|s|] == s;
    } else {
      var front := s[..|s| - 1];
      CountsAfterInsert(front, x, v);
      assert (Insert(Smaller(), front, x) + [s[|s| - 1]])[..|s|] == Insert(Smaller(), front, x);
    }
  }

  lemma {:induction false} CountsAfterSort(s: seq<real>, v: real)
    ensures AtMost(Sort(Smaller(), s), v) == AtMost(s, v)
    ensures Below(Sort(Smaller(), s), v) == Below(s, v)
  {
    if s != [] {
      CountsAfterSort(s[..|s| - 1], v);
      CountsAfterInsert(Sort(Smaller(), s[..|s| - 1]), s[|s| - 1], v);
    }
  }

  lemma {:induction false} CountsAtRank(s: seq<real>, n: nat, v: real)
    requires n <= |s|
    ensures (forall k :: 0 <= k < n ==> s[k] <= v) ==> AtMost(s, v) >= n
    ensures (forall k :: n <= k < |s| ==> s[k] >= v) ==> Below(s, v) <= n
  {
    if s != [] {
      if n == |s| {
        CountsAtRank(s[..|s| - 1], n - 1, v);
      } else {
        CountsAtRank(s[..|s| - 1], n, v);
      }
    }
  }

  // The 1-based rank selected for scaled = p * n, rounded up and kept in range.
  function Rank(n: nat, scaled: real): int {
    var rank := scaled.Floor;
    var up := if rank as real != scaled then rank + 1 else rank;
    var low := if up < 1 then 1 else up;
    if low > n then n else low
  }

  lemma RankBounds(n: nat, scaled: real)
    requires 0.0 < scaled <= n as real
    ensures 1 <= Rank(n, scaled) <= n
    ensures (Rank(n, scaled) - 1) as real < scaled <= Rank(n, scaled) as real
  {
    assert scaled.Floor as real <= scaled < (scaled.Floor + 1) as real;
  }

  function NearestRank(sorted: seq<real>, scaled: real): (v: real)
    requires 0.0 < scaled <= |sorted| as real
    ensures v in sorted
  {
    RankBounds(|sorted|, scaled);
    sorted[Rank(|sorted|, scaled) - 1]
  }

  lemma Ascending(s: seq<real>)
    requires Sorted(Smaller(), s)
    ensures forall i, j :: 0 <= i <= j < |s| ==> s[i] <= s[j]
  {
    forall i, j | 0 <= i < j < |s| ensures s[i] <= s[j] {
      assert !Smaller()(s[j], s[i]);
    }
  }

  lemma PlaceCounts(s: seq<real>, r: nat)
    requires 1 <= r <= |s|
    ensures var v := Sort(Smaller(), s)[r - 1]; v in s && AtMost(s, v) >= r && Below(s, v) < r
  {
    hide Sort, AtMost, Below, Ties;
    var sorted := Sort(Smaller(), s);
    SortIsStable(Smaller(), s);
    Ascending(sorted);
    var v := sorted[r - 1];
    CountsAtRank(sorted, r, v);
    CountsAtRank(sorted, r - 1, v);
    CountsAfterSort(s, v);
    assert v in multiset(sorted);
  }

  lemma NearestRankIsPercentile(s: seq<real>, scaled: real)
    requires 0.0 < scaled <= |s| as real
    ensures var v := NearestRank(Sort(Smaller(), s), scaled);
            v in s && AtMost(s, v) as real >= scaled && (Below(s, v) as real) < scaled
  {
    RankBounds(|s|, scaled);
    PlaceCounts(s, Rank(|s|, scaled));
  }

  lemma RankMonotone(n: nat, a: real, b: real)
    requires 0.0 < a <= b <= n as real
    ensures 1 <= Rank(n, a) <= Rank(n, b) <= n
  {
    RankBounds(n, a);
    RankBounds(n, b);
  }

  lemma LowerRankIsNoGreater(s: seq<real>, a: real, b: real)
    requires 0.0 < a <= b <= |s| as real
    ensures NearestRank(Sort(Smaller(), s), a) <= NearestRank(Sort(Smaller(), s), b)
  {
    RankMonotone(|s|, a, b);
    SortIsStable(Smaller(), s);
    Ascending(Sort(Smaller(), s));
  }

  // The two figures reported beside the stored windows; -1 when there are none.
  function P50(s: seq<real>): real {
    if s == [] then -1.0 else NearestRank(Sort(Smaller(), s), 0.50 * |s| as real)
  }

  function P95(s: seq<real>): real {
    if s == [] then -1.0 else NearestRank(Sort(Smaller(), s), 0.95 * |s| as real)
  }

  lemma ReportedFiguresAreThePercentiles(s: seq<real>)
    requires s != []
    ensures IsPercentile(s, 50 * |s|, P50(s)) && IsPercentile(s, 95 * |s|, P95(s))
    ensures P50(s) <= P95(s)
  {
    var half, most := 0.50 * |s| as real, 0.95 * |s| as real;
    assert 0.0 < half <= most <= |s| as real;
    NearestRankIsPercentile(s, half);
    NearestRankIsPercentile(s, most);
    LowerRankIsNoGreater(s, half, most);
  }

  method Percentiles(s: seq<real>) returns (p50: real, p95: real)
    requires s != []
    ensures p50 == P50(s) && p95 == P95(s)
  {
    var tmp := Sort(Smaller(), s);
    var n := |s|;
    p50 := NearestRank(tmp, 0.50 * n as real);
    p95 := NearestRank(tmp, 0.95 * n as real);
  }

  // Stores one window if there is room and recomputes both percentiles.
  method LatencyPush(samples: array<real>, count: nat, cap: nat, ms: real, p50: real, p95: real)
    returns (count': nat, p50': real, p95': real)
    requires samples.Length == LATENCY_CAP && count <= LATENCY_CAP
    modifies samples
    ensures count' <= LATENCY_CAP
    ensures samples[..count']
         == if cap == 0 || ms < 0.0 || count >= cap || count >= LATENCY_CAP then old(samples[..count])
            else old(samples[..count]) + [ms]
    ensures if cap == 0 || ms < 0.0 || count' == 0 then p50' == p50 && p95' == p95
            else p50' == P50(samples[..count']) && p95' == P95(samples[..count'])
  {
    count', p50', p95' := count, p50, p95;
    if cap == 0 || ms < 0.0 {
      return;
    }
    var limit := if cap > LATENCY_CAP then LATENCY_CAP else cap;
    if count < limit {
      samples[count] := ms;
      count' := count + 1;
    }
    if count' == 0 {
      return;
    }
    p50', p95' := Percentiles(samples[..count']);
  }

  // The number of samples a scan takes.
  function SampleCount(requested: nat): (n: nat)
    ensures 1 <= n <= MAX_SAMPLES
  {
    if requested > MAX_SAMPLES then MAX_SAMPLES
    else if requested == 0 then 1
    else requested
  }

  function Read(windows: seq<real>): (r: seq<real>)
    ensures |r| <= |windows|
  {
    if windows == [] then []
    else Read(windows[..|windows| - 1])
         + (if windows[|windows| - 1] >= 0.0 then [windows[|windows| - 1]] else [])
  }

  // What the report holds after these windows: all that were read, and their figures.
  predicate Holds(stored: seq<real>, windows: seq<real>, p50: real, p95: real) {
    stored == Read(windows) && p50 == P50(stored) && p95 == P95(stored)
  }

  // One sample measures into a fresh report.
  method MeasureLatency(ms: real) returns (samples: array<real>, count: nat, p50: real, p95: real)
    ensures fresh(samples) && samples.Length == LATENCY_CAP && count <= 1
    ensures Holds(samples[..count], [ms], p50, p95)
  {
    samples, count, p50, p95 := new real[LATENCY_CAP], 0, -1.0, -1.0;
    if ms >= 0.0 {
      count, p50, p95 := LatencyPush(samples, count, LATENCY_CAP, ms, p50, p95);
    }
    assert Read([ms][..0]) == [];
  }

  // A later sample's first window is pushed onto the accumulated ones.
  method MergeLatency(samples: array<real>, count: nat, p50: real, p95: real, one: array<real>, n: nat,
                      ghost windows: seq<real>, ghost ms: real)
    returns (count': nat, p50': real, p95': real)
    requires samples.Length == LATENCY_CAP && count <= |windows| < LATENCY_CAP
    requires n <= one.Length && one[..n] == Read([ms])
    requires Holds(samples[..count], windows, p50, p95)
    modifies samples
    ensures count' <= |windows| + 1 && Holds(samples[..count'], windows + [ms], p50', p95')
  {
    count', p50', p95' := count, p50, p95;
    assert (windows + [ms])[..|windows|] == windows;
    assert Read([ms][..0]) == [];
    if n > 0 {
      assert one[0] == one[..n][0];
      count', p50', p95' := LatencyPush(samples, count, LATENCY_CAP, one[0], p50, p95);
    }
  }

  // The system-total latency of a whole scan: the first report is copied, later
  // ones are merged. Nothing that was read is dropped.
  method ScanLatency(requested: nat, windows: seq<real>)
    returns (samples: array<real>, count: nat, p50: real, p95: real)
    requires |windows| == SampleCount(requested)
    ensures samples.Length == LATENCY_CAP && count <= LATENCY_CAP
    ensures Holds(samples[..count], windows, p50, p95)
  {
    samples, count, p50, p95 := MeasureLatency(windows[0]);
    assert windows[..1] == [windows[0]];
    for i := 1 to |windows|
      invariant fresh(samples) && samples.Length == LATENCY_CAP && count <= i
      invariant Holds(samples[..count], windows[..i], p50, p95)
    {
      var one, n, a, b := MeasureLatency(windows[i]);
      count, p50, p95 := MergeLatency(samples, count, p50, p95, one, n, windows[..i], windows[i]);
      assert windows[..i + 1] == windows[..i] + [windows[i]];
    }
    assert windows[..|windows|] == windows;
  }
}
