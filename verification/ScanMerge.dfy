// Merging the samples of a scan: src/core/scan.c. Percentages are reals, so the
// running mean is the mean; rounding is left out.

module ScanMerge {
  import opened Strings

  // What one sample says of a metric. A metric can be collected and still not
  // supply a value: a processor reading that is not available.
  datatype Reading = Reading(ok: bool, supplied: bool, value: real, hot: bool)

  const CPU_HOT := 85.0
  const DISK_HOT := 90.0
  const MEMORY_LOW := 20.0

  function CpuReading(c: CpuSample): Reading {
    Reading(c.ok, c.ok && c.available, c.percent, c.percent >= CPU_HOT)
  }

  function MemoryReading(m: MemorySample): Reading {
    Reading(m.ok, m.ok, m.usedPercent, m.total > 0 && m.available as real * 100.0 / m.total as real < MEMORY_LOW)
  }

  function DiskReading(d: DiskSample): Reading {
    Reading(d.ok, d.ok, d.percent, d.percent >= DISK_HOT)
  }

  // What the collectors deliver: the processor collector succeeds only with a
  // reading that is available, and no percentage is negative.
  predicate Credible(r: Reading) {
    (r.supplied <==> r.ok) && (r.ok ==> r.value >= 0.0)
  }

  // ---- what the figures should be ----

  function Supplied(rs: seq<Reading>): seq<Reading> {
    if rs == [] then []
    else Supplied(rs[..|rs| - 1]) + (if rs[|rs| - 1].supplied then [rs[|rs| - 1]] else [])
  }

  function Sum(rs: seq<Reading>): real {
    if rs == [] then 0.0 else Sum(rs[..|rs| - 1]) + rs[|rs| - 1].value
  }

  function Mean(rs: seq<Reading>): real
    requires rs != []
  {
    Sum(rs) / |rs| as real
  }

  function Hot(rs: seq<Reading>): (n: nat)
    ensures n <= |rs|
  {
    if rs == [] then 0 else Hot(rs[..|rs| - 1]) + (if rs[|rs| - 1].hot then 1 else 0)
  }

  // The peak, or -1 for none.
  function Peak(rs: seq<Reading>): real {
    if rs == [] then -1.0
    else
      var before, v := Peak(rs[..|rs| - 1]), rs[|rs| - 1].value;
      if |rs| == 1 || v > before then v else before
  }

  predicate IsMaximum(rs: seq<Reading>, v: real) {
    && (exists r :: r in rs && r.value == v)
    && (forall r :: r in rs ==> r.value <= v)
  }

  lemma {:induction false} PeakIsMaximum(rs: seq<Reading>)
    requires rs != []
    ensures IsMaximum(rs, Peak(rs))
  {
    var front, last := rs[..|rs| - 1], rs[|rs| - 1];
    assert rs == front + [last] && last in rs;
    if front != [] {
      PeakIsMaximum(front);
      var r :| r in front && r.value == Peak(front);
      assert r in rs;
    }
  }

  // The code takes a negative peak for none. There is no negative one.
  lemma PeakIsCredible(rs: seq<Reading>)
    requires rs != [] && forall r :: r in rs ==> r.value >= 0.0
    ensures Peak(rs) >= 0.0
  {
    PeakIsMaximum(rs);
  }

  // ---- one metric, accumulated ----

  datatype Stats = Stats(ok: bool, available: bool, value: real, okSamples: nat, hotSamples: nat, peak: real)

  // The figures that the samples so far call for.
  ghost predicate Summary(s: Stats, rs: seq<Reading>) {
    && rs != []
    && s.okSamples == |Supplied(rs)| && s.hotSamples == Hot(Supplied(rs)) && s.peak == Peak(Supplied(rs))
    && (s.ok <==> Supplied(rs) != []) && (s.available <==> s.ok)
    && (Supplied(rs) != [] ==> s.value == Mean(Supplied(rs)))
  }

  lemma SupplyOne(rs: seq<Reading>, r: Reading)
    ensures Supplied(rs + [r]) == if r.supplied then Supplied(rs) + [r] else Supplied(rs)
  {
    assert (rs + [r])[..|rs|] == rs;
    assert Supplied(rs) + [] == Supplied(rs);
  }

  lemma AddOne(vs: seq<Reading>, r: Reading)
    ensures Sum(vs + [r]) == Sum(vs) + r.value
    ensures Hot(vs + [r]) == Hot(vs) + (if r.hot then 1 else 0)
    ensures Peak(vs + [r]) == if vs == [] || r.value > Peak(vs) then r.value else Peak(vs)
  {
    assert (vs + [r])[..|vs|] == vs;
  }

  lemma {:induction false} SuppliedAreCredible(rs: seq<Reading>)
    requires forall r :: r in rs ==> Credible(r)
    ensures forall r :: r in Supplied(rs) ==> r.value >= 0.0
  {
    if rs != [] {
      SuppliedAreCredible(rs[..|rs| - 1]);
      assert rs[|rs| - 1] in rs;
    }
  }

  lemma NoPeak()
    ensures Peak([]) == -1.0
  {
  }

  // The running mean: n values of mean m, and one more.
  lemma MeanGrows(vs: seq<Reading>, r: Reading)
    ensures vs == [] ==> Mean(vs + [r]) == r.value
    ensures vs != [] ==> Mean(vs + [r]) == (Mean(vs) * |vs| as real + r.value) / (|vs| + 1) as real
  {
    AddOne(vs, r);
    if vs != [] {
      Cancels(Sum(vs), |vs| as real);
    }
  }

  lemma Cancels(s: real, n: real)
    requires n != 0.0
    ensures s / n * n == s
  {
  }

  class Metric {
    var ok: bool
    var available: bool
    var value: real
    var okSamples: nat
    var hotSamples: nat
    var peak: real

    ghost function State(): Stats
      reads this
    {
      Stats(ok, available, value, okSamples, hotSamples, peak)
    }

    // The first sample is copied and its counters set.
    constructor (r: Reading)
      requires Credible(r)
      ensures Summary(State(), [r])
    {
      ok, available, value := r.ok, r.supplied, r.value;
      okSamples, hotSamples, peak := 0, 0, -1.0;
      if r.supplied {
        okSamples := 1;
        peak := r.value;
        if r.hot {
          hotSamples := 1;
        }
      }
      new;
      SupplyOne([], r);
      assert [] + [r] == [r];
      AddOne([], r);
      MeanGrows([], r);
    }

    // A later sample.
    method Merge(r: Reading, ghost rs: seq<Reading>)
      requires Summary(State(), rs) && Credible(r) && forall x :: x in rs ==> Credible(x)
      modifies this
      ensures Summary(State(), rs + [r])
    {
      hide Supplied, Sum, Hot, Peak, Mean;
      SuppliedAreCredible(rs);
      if Supplied(rs) != [] {
        PeakIsCredible(Supplied(rs));
      } else {
        NoPeak();
      }
      SupplyOne(rs, r);
      ghost var vs := Supplied(rs);
      if r.supplied {
        MeanGrows(vs, r);
        AddOne(vs, r);
        if ok {
          value := (value * okSamples as real + r.value) / (okSamples + 1) as real;
          assert vs == [] ==> value == r.value;
        } else {
          value, ok, available := r.value, true, true;
        }
        okSamples := okSamples + 1;
        if peak < 0.0 || r.value > peak {
          peak := r.value;
        }
        if r.hot {
          hotSamples := hotSamples + 1;
        }
      }
    }
  }

  // ---- collector times ----

  const UINT_MAX: nat := 0xFFFF_FFFF
  const COLLECTORS: nat := 14

  function Clip(n: nat): nat {
    if n > UINT_MAX then UINT_MAX else n
  }

  // One timed collector call; network is timed twice in a sample.
  datatype Timing = Timing(id: nat, ms: nat)

  function Spent(ts: seq<Timing>, id: nat): nat {
    if ts == [] then 0 else Spent(ts[..|ts| - 1], id) + (if ts[|ts| - 1].id == id then ts[|ts| - 1].ms else 0)
  }

  lemma {:induction false} SpentConcat(a: seq<Timing>, b: seq<Timing>, id: nat)
    ensures Spent(a + b, id) == Spent(a, id) + Spent(b, id)
  {
    if b == [] {
      assert a + b == a;
    } else {
      assert (a + b)[..|a + b| - 1] == a + b[..|b| - 1];
      SpentConcat(a, b[..|b| - 1], id);
    }
  }

  // ms holds the clipped time of every collector.
  ghost predicate Clocked(ms: seq<nat>, ts: seq<Timing>) {
    |ms| == COLLECTORS && forall id :: 0 <= id < COLLECTORS ==> ms[id] == Clip(Spent(ts, id))
  }

  method TimeAdd(ms: array<nat>, t: Timing, ghost ts: seq<Timing>)
    requires ms.Length == COLLECTORS && Clocked(ms[..], ts)
    modifies ms
    ensures Clocked(ms[..], ts + [t])
  {
    assert (ts + [t])[..|ts|] == ts;
    if t.id >= COLLECTORS {
      return;
    }
    var sum := ms[t.id] + t.ms;
    ms[t.id] := if sum > UINT_MAX then UINT_MAX else sum;
  }

  // The times of one sample, into a zeroed report.
  method TimeSample(ts: seq<Timing>) returns (ms: array<nat>)
    ensures fresh(ms) && ms.Length == COLLECTORS && Clocked(ms[..], ts)
  {
    ms := new nat[COLLECTORS](_ => 0);
    for i := 0 to |ts|
      invariant Clocked(ms[..], ts[..i])
    {
      TimeAdd(ms, ts[i], ts[..i]);
      assert ts[..i] + [ts[i]] == ts[..i + 1];
    }
    assert ts[..|ts|] == ts;
  }

  method MergeTimes(ms: array<nat>, sample: array<nat>, ghost ts: seq<Timing>, ghost one: seq<Timing>)
    requires ms != sample && ms.Length == COLLECTORS && sample.Length == COLLECTORS
    requires Clocked(ms[..], ts) && Clocked(sample[..], one)
    modifies ms
    ensures Clocked(ms[..], ts + one)
  {
    for id := 0 to COLLECTORS
      invariant forall j :: 0 <= j < id ==> ms[j] == Clip(Spent(ts + one, j))
      invariant forall j :: id <= j < COLLECTORS ==> ms[j] == old(ms[j])
    {
      assert ms[id] == ms[..][id] && old(ms[..])[id] == old(ms[id]) && sample[id] == sample[..][id];
      SpentConcat(ts, one, id);
      var sum := ms[id] + sample[id];
      ms[id] := if sum > UINT_MAX then UINT_MAX else sum;
    }
  }

  // ---- a whole scan ----

  // What one pass over the collectors finds.
  datatype CpuSample = CpuSample(ok: bool, available: bool, percent: real)
  datatype MemorySample = MemorySample(ok: bool, usedPercent: real, available: nat, total: nat)
  datatype DiskSample = DiskSample(ok: bool, percent: real)
  datatype Sample = Sample(cpu: CpuSample, memory: MemorySample, disk: DiskSample, times: seq<Timing>)

  function CpuReadings(samples: seq<Sample>): (r: seq<Reading>)
    ensures |r| == |samples|
  {
    seq(|samples|, i requires 0 <= i < |samples| => CpuReading(samples[i].cpu))
  }

  function MemoryReadings(samples: seq<Sample>): (r: seq<Reading>)
    ensures |r| == |samples|
  {
    seq(|samples|, i requires 0 <= i < |samples| => MemoryReading(samples[i].memory))
  }

  function DiskReadings(samples: seq<Sample>): (r: seq<Reading>)
    ensures |r| == |samples|
  {
    seq(|samples|, i requires 0 <= i < |samples| => DiskReading(samples[i].disk))
  }

  function Times(samples: seq<Sample>): seq<Timing> {
    if samples == [] then [] else Times(samples[..|samples| - 1]) + samples[|samples| - 1].times
  }

  // The memory sizes a report keeps: those of the last sample that has any.
  function LastMemory(samples: seq<Sample>): Option<MemorySample> {
    if samples == [] then None
    else
      var last := samples[|samples| - 1].memory;
      if last.ok then Some(last) else LastMemory(samples[..|samples| - 1])
  }

  predicate Genuine(s: Sample) {
    Credible(CpuReading(s.cpu)) && Credible(MemoryReading(s.memory)) && Credible(DiskReading(s.disk))
  }

  ghost predicate Sized(available: nat, total: nat, samples: seq<Sample>) {
    var m := LastMemory(samples);
    m.Some? ==> available == m.value.available && total == m.value.total
  }

  predicate AllGenuine(samples: seq<Sample>) {
    samples != [] && forall s :: s in samples ==> Genuine(s)
  }

  lemma ReadingsAreCredible(samples: seq<Sample>)
    requires AllGenuine(samples)
    ensures forall r :: r in CpuReadings(samples) + MemoryReadings(samples) + DiskReadings(samples) ==> Credible(r)
  {
    hide Credible, CpuReading, MemoryReading, DiskReading;
    forall i | 0 <= i < |samples|
      ensures Credible(CpuReading(samples[i].cpu)) && Credible(MemoryReading(samples[i].memory)) && Credible(DiskReading(samples[i].disk))
    {
      assert samples[i] in samples && Genuine(samples[i]);
    }
  }

  class Report {
    var cpu: Metric
    var memory: Metric
    var disk: Metric
    var available: nat
    var total: nat
    var collectorMs: array<nat>

    ghost predicate Valid()
      reads this
    {
      cpu != memory && cpu != disk && memory != disk && collectorMs.Length == COLLECTORS
    }

    // The report of these samples.
    ghost predicate Merged(samples: seq<Sample>)
      requires Valid()
      reads this, cpu, memory, disk, collectorMs
    {
      && Summary(cpu.State(), CpuReadings(samples)) && Summary(memory.State(), MemoryReadings(samples))
      && Summary(disk.State(), DiskReadings(samples)) && Clocked(collectorMs[..], Times(samples))
      && Sized(available, total, samples)
    }

    constructor (first: Sample)
      requires Genuine(first)
      ensures Valid() && fresh(cpu) && fresh(memory) && fresh(disk) && fresh(collectorMs)
      ensures Merged([first])
    {
      hide Summary, Clocked, Supplied;
      cpu := new Metric(CpuReading(first.cpu));
      memory := new Metric(MemoryReading(first.memory));
      disk := new Metric(DiskReading(first.disk));
      available, total := first.memory.available, first.memory.total;
      var ms := TimeSample(first.times);
      collectorMs := ms;
      new;
      assert [first][..0] == [] && LastMemory([]).None?;
      assert CpuReadings([first]) == [CpuReading(first.cpu)];
      assert MemoryReadings([first]) == [MemoryReading(first.memory)];
      assert DiskReadings([first]) == [DiskReading(first.disk)];
      assert Times([first][..0]) + first.times == first.times;
    }

    // wt_scan_merge_sample for every sample but the first.
    method Merge(s: Sample, ghost samples: seq<Sample>)
      requires Valid() && Merged(samples) && AllGenuine(samples) && Genuine(s)
      modifies this`available, this`total, cpu, memory, disk, collectorMs
      ensures Merged(samples + [s])
    {
      hide Summary, Clocked, Credible, CpuReading, MemoryReading, DiskReading, AllGenuine;
      ReadingsAreCredible(samples);
      assert CpuReadings(samples + [s]) == CpuReadings(samples) + [CpuReading(s.cpu)];
      assert MemoryReadings(samples + [s]) == MemoryReadings(samples) + [MemoryReading(s.memory)];
      assert DiskReadings(samples + [s]) == DiskReadings(samples) + [DiskReading(s.disk)];
      assert (samples + [s])[..|samples|] == samples;
      cpu.Merge(CpuReading(s.cpu), CpuReadings(samples));
      memory.Merge(MemoryReading(s.memory), MemoryReadings(samples));
      disk.Merge(DiskReading(s.disk), DiskReadings(samples));
      if s.memory.ok {
        available, total := s.memory.available, s.memory.total;
      }
      var one := TimeSample(s.times);
      MergeTimes(collectorMs, one, Times(samples), s.times);
    }
  }

  // wt_run_scan, given what each pass found. The kept peaks are the maxima.
  method RunScan(samples: seq<Sample>) returns (report: Report)
    requires AllGenuine(samples)
    ensures report.Valid() && report.Merged(samples)
    ensures PeakOf(report.cpu, CpuReadings(samples)) && PeakOf(report.memory, MemoryReadings(samples))
    ensures PeakOf(report.disk, DiskReadings(samples))
    ensures forall id :: 0 <= id < report.collectorMs.Length ==>
      var spent := Spent(Times(samples), id); report.collectorMs[id] == if spent > 4294967295 then 4294967295 else spent
  {
    hide Summary, Clocked, Times, CpuReadings, MemoryReadings, DiskReadings, Genuine;
    report := new Report(samples[0]);
    assert samples[..1] == [samples[0]];
    for i := 1 to |samples|
      invariant fresh(report) && report.Valid()
      invariant fresh(report.cpu) && fresh(report.memory) && fresh(report.disk) && fresh(report.collectorMs)
      invariant report.Merged(samples[..i])
    {
      report.Merge(samples[i], samples[..i]);
      assert samples[..i + 1] == samples[..i] + [samples[i]];
    }
    assert samples[..|samples|] == samples;
    ClockIsClipped(report.collectorMs[..], Times(samples));
    SummaryPeak(report.cpu, CpuReadings(samples));
    SummaryPeak(report.memory, MemoryReadings(samples));
    SummaryPeak(report.disk, DiskReadings(samples));
  }

  lemma ClockIsClipped(ms: seq<nat>, ts: seq<Timing>)
    requires Clocked(ms, ts)
    ensures forall id :: 0 <= id < |ms| ==> ms[id] == if Spent(ts, id) > 4294967295 then 4294967295 else Spent(ts, id)
  {
  }

  ghost predicate PeakOf(m: Metric, rs: seq<Reading>)
    reads m
  {
    if Supplied(rs) == [] then m.peak == -1.0 else IsMaximum(Supplied(rs), m.peak)
  }

  lemma SummaryPeak(m: Metric, rs: seq<Reading>)
    requires Summary(m.State(), rs)
    ensures PeakOf(m, rs)
  {
    hide IsMaximum;
    if Supplied(rs) != [] {
      PeakIsMaximum(Supplied(rs));
    }
  }
}
