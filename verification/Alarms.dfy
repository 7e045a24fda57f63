// From samples to alarms: what the merge arithmetic, the confidence and the
// disk and processor rules amount to together.

module Alarms {
  import opened Confidence
  import opened Listings
  import opened RecommendationList
  import opened Recommendations
  import opened ScanMerge

  // The evidence is that of a scan of these samples.
  ghost predicate OfScan(e: Evidence, samples: seq<Sample>) {
    && samples != [] && e.scanSamples == |samples|
    && Summary(e.cpu, CpuReadings(samples)) && Summary(e.memory, MemoryReadings(samples)) && Summary(e.disk, DiskReadings(samples))
  }

  // What counts as hot: a disk at 90, a processor at 85, less than a fifth of the
  // memory available.
  lemma ReadingsAre(samples: seq<Sample>)
    ensures forall i :: 0 <= i < |samples| ==>
      var d, c, m := DiskReadings(samples)[i], CpuReadings(samples)[i], MemoryReadings(samples)[i];
      && d.supplied == samples[i].disk.ok && d.value == samples[i].disk.percent && (d.hot <==> d.value >= 90.0)
      && c.supplied == (samples[i].cpu.ok && samples[i].cpu.available) && c.value == samples[i].cpu.percent && (c.hot <==> c.value >= 85.0)
      && m.supplied == samples[i].memory.ok && m.value == samples[i].memory.usedPercent
      && (m.hot <==> samples[i].memory.total > 0
                     && samples[i].memory.available as real * 100.0 / samples[i].memory.total as real < 20.0)
  {
  }

  lemma DiskReadingsAre(samples: seq<Sample>)
    ensures forall r :: r in DiskReadings(samples) ==> (r.hot <==> r.value >= 90.0)
  {
    ReadingsAre(samples);
  }

  lemma {:induction false} SuppliedFrom(rs: seq<Reading>)
    ensures |Supplied(rs)| <= |rs|
    ensures forall r :: r in Supplied(rs) ==> r in rs && r.supplied
    ensures forall r :: r in rs && r.supplied ==> r in Supplied(rs)
  {
    if rs != [] {
      SuppliedFrom(rs[..|rs| - 1]);
      assert rs == rs[..|rs| - 1] + [rs[|rs| - 1]];
    }
  }

  lemma {:induction false} SumBelow(vs: seq<Reading>, limit: real)
    requires forall r :: r in vs ==> r.value < limit
    ensures vs != [] ==> Sum(vs) < limit * |vs| as real
    ensures vs == [] ==> Sum(vs) == 0.0
  {
    if vs != [] {
      var front, last := vs[..|vs| - 1], vs[|vs| - 1];
      assert vs == front + [last] && last in vs;
      SumBelow(front, limit);
      assert limit * |vs| as real == limit * |front| as real + limit;
    }
  }

  // A mean that reaches the limit has a value that does.
  lemma MeanReached(vs: seq<Reading>, limit: real)
    requires vs != [] && Mean(vs) >= limit
    ensures exists r :: r in vs && r.value >= limit
  {
    if forall r :: r in vs ==> r.value < limit {
      SumBelow(vs, limit);
      BelowMean(Sum(vs), |vs| as real, limit);
    }
  }

  lemma BelowMean(s: real, n: real, limit: real)
    requires n > 0.0 && s < limit * n
    ensures s / n < limit
  {
    Cancels(s, n);
    if s / n >= limit {
      Scaled(s / n, limit, n);
    }
  }

  lemma Scaled(a: real, b: real, n: real)
    requires a >= b && n > 0.0
    ensures a * n >= b * n
  {
  }

  lemma {:induction false} HotHas(vs: seq<Reading>)
    requires Hot(vs) > 0
    ensures exists r :: r in vs && r.hot
  {
    var front, last := vs[..|vs| - 1], vs[|vs| - 1];
    assert vs == front + [last] && last in vs;
    if !last.hot {
      HotHas(front);
    }
  }

  lemma MeanOfOne(vs: seq<Reading>)
    requires |vs| == 1
    ensures Mean(vs) == vs[0].value && Peak(vs) == vs[0].value
  {
    assert vs[..0] == [];
    assert Sum(vs) == 0.0 + vs[0].value;
  }

  // ---- disk ----

  // WT-DISK-001 is raised exactly when the one good sample reached 95, or of two
  // or more the mean reached 90 or a strict majority did. The confidence never
  // stands in the way.
  lemma DiskAlarmExactly(e: Evidence, samples: seq<Sample>)
    requires OfScan(e, samples)
    ensures var good := Supplied(DiskReadings(samples));
      DiskAlarm(e) <==>
        || (|good| == 1 && good[0].value >= 95.0)
        || (|good| >= 2 && (Mean(good) >= 90.0 || Hot(good) * 2 > |good|))
  {
    hide Score, Peak, Mean, Hot, Supplied, WindowMs, DiskReadings;
    var rs := DiskReadings(samples);
    var good := Supplied(rs);
    SuppliedFrom(rs);
    DiskReadingsAre(samples);
    if |good| == 1 {
      MeanOfOne(good);
      assert good[0] in good;
      OneIsHot(good);
      if e.disk.value >= 95.0 {
        HighBaseEmits(e, OfDisk, DiskBase(e, 70, 80));
      }
    } else if |good| >= 2 {
      HighBaseEmits(e, OfDisk, DiskBase(e, 70, 80));
    }
  }

  lemma OneIsHot(good: seq<Reading>)
    requires |good| == 1
    ensures Hot(good) == if good[0].hot then 1 else 0
  {
    assert Hot(good[..0]) == 0;
  }

  // No alarm without a sample at 90, nor on one good sample short of 95; always
  // an alarm when a strict majority of two or more good samples reached 90.
  lemma DiskAlarmIsSound(e: Evidence, samples: seq<Sample>)
    requires OfScan(e, samples)
    ensures var good := Supplied(DiskReadings(samples));
      && (DiskAlarm(e) ==> exists r :: r in good && r.value >= (if |good| == 1 then 95.0 else 90.0))
      && (|good| >= 2 && Hot(good) * 2 > |good| ==> DiskAlarm(e))
  {
    hide DiskAlarm, Hot, Mean, Supplied, Summary, DiskReadings;
    var rs := DiskReadings(samples);
    var good := Supplied(rs);
    DiskAlarmExactly(e, samples);
    SuppliedFrom(rs);
    DiskReadingsAre(samples);
    if DiskAlarm(e) {
      if |good| == 1 {
        assert good[0] in good;
      } else if Mean(good) >= 90.0 {
        MeanReached(good, 90.0);
      } else {
        HotHas(good);
        var r :| r in good && r.hot;
        assert r in rs;
      }
    }
  }

  // The recommendation is in the list exactly when the alarm is.
  lemma AlarmIsListed(f: Facts)
    ensures Gives(AllRules(f), RecId(Disk, 1)) <==> DiskAlarm(f.evidence)
  {
    hide AllRules, DiskAlarm, Gives;
    DiskListed(f, 1);
  }

  // ---- memory ----

  // The sizes a scan ends up with are those of its last good memory reading.
  lemma {:induction false} LastIsLast(samples: seq<Sample>)
    ensures var good := Supplied(MemoryReadings(samples));
      && (LastMemory(samples).None? <==> good == [])
      && (good != [] ==> good[|good| - 1] == MemoryReading(LastMemory(samples).value))
  {
    hide MemoryReading;
    if samples != [] {
      var front, last := samples[..|samples| - 1], samples[|samples| - 1];
      LastIsLast(front);
      assert MemoryReadings(samples) == MemoryReadings(front) + [MemoryReading(last.memory)];
      SupplyOne(MemoryReadings(front), MemoryReading(last.memory));
      assert MemoryReading(last.memory).supplied == last.memory.ok by { SuppliedIsOk(last.memory); }
    }
  }

  lemma SuppliedIsOk(m: MemorySample)
    ensures MemoryReading(m).supplied == m.ok
  {
  }

  // WT-MEMORY-001 is raised exactly when the last good sample has less than a tenth
  // of the memory available, or less than a fifth and so has a strict majority.
  lemma MemoryAlarmExactly(f: Facts, samples: seq<Sample>)
    requires OfScan(f.evidence, samples) && Sized(f.memory.available, f.memory.total, samples)
    ensures var good, last := Supplied(MemoryReadings(samples)), LastMemory(samples);
      MemoryIsLow(f) <==> && last.Some? && last.value.total > 0
                          && var percent := last.value.available as real * 100.0 / last.value.total as real;
                             percent < 10.0 || (percent < 20.0 && Hot(good) * 2 > |good|)
  {
    hide Score, Peak, Mean, Hot, Supplied, WindowMs, MemoryReadings, LastMemory;
    var rs := MemoryReadings(samples);
    var good := Supplied(rs);
    SuppliedFrom(rs);
    LastIsLast(samples);
    HighBaseEmits(f.evidence, OfMemory, 90);
    if |good| == 1 {
      OneIsHot(good);
    }
  }

  lemma MemoryIsListed(f: Facts)
    ensures Gives(AllRules(f), RecId(Memory, 1)) <==> MemoryIsLow(f)
  {
    hide AllRules, Gives, Score, OkSamples, Spread;
    MemoryListed(f, 1);
    HighBaseEmits(f.evidence, OfMemory, 90);
  }

  // ---- processor ----

  // WT-CPU-001, for comparison: the mean itself must reach 85, and a hot majority
  // is not enough.
  lemma CpuAlarmExactly(e: Evidence, samples: seq<Sample>)
    requires OfScan(e, samples)
    ensures var good := Supplied(CpuReadings(samples));
      CpuAlarm(e) <==> (|good| == 1 && good[0].value >= 95.0) || (|good| >= 2 && Mean(good) >= 85.0)
  {
    hide Score, Peak, Mean, Hot, Supplied, WindowMs, CpuReadings;
    var rs := CpuReadings(samples);
    var good := Supplied(rs);
    SuppliedFrom(rs);
    if |good| == 1 {
      MeanOfOne(good);
      HighBaseEmits(e, OfCpu, 75);
    } else if |good| >= 2 {
      HighBaseEmits(e, OfCpu, 75);
    }
  }

  lemma CpuIsListed(f: Facts)
    ensures Gives(AllRules(f), RecId(Cpu, 1)) <==> CpuAlarm(f.evidence)
  {
    hide AllRules, Gives, CpuAlarm;
    ActivityListed(f);
  }

  // Two hot samples of three raise the disk alarm and not the processor's.
  lemma MajoritiesDiffer(e: Evidence, samples: seq<Sample>)
    requires OfScan(e, samples) && |samples| == 3
    requires samples[0].cpu == samples[1].cpu == CpuSample(true, true, 86.0) && samples[2].cpu == CpuSample(true, true, 10.0)
    requires samples[0].disk == samples[1].disk == DiskSample(true, 91.0) && samples[2].disk == DiskSample(true, 10.0)
    ensures DiskAlarm(e) && !CpuAlarm(e)
  {
    hide DiskAlarm, CpuAlarm, Summary;
    DiskAlarmExactly(e, samples);
    CpuAlarmExactly(e, samples);
    ThreeSupplied(CpuReadings(samples));
    ThreeSupplied(DiskReadings(samples));
  }

  lemma ThreeSupplied(rs: seq<Reading>)
    requires |rs| == 3 && rs[0].supplied && rs[1].supplied && rs[2].supplied
    ensures Supplied(rs) == rs
    ensures Sum(rs) == rs[0].value + rs[1].value + rs[2].value
    ensures Hot(rs) == (if rs[0].hot then 1 else 0) + (if rs[1].hot then 1 else 0) + (if rs[2].hot then 1 else 0)
  {
    assert rs[..2][..1] == [rs[0]] && [rs[0]][..0] == [];
    assert Supplied([rs[0]]) == [] + [rs[0]];
    assert Sum([rs[0]]) == Sum([]) + rs[0].value && Sum(rs[..2]) == Sum([rs[0]]) + rs[1].value;
    assert Hot(rs[..2]) == Hot([rs[0]]) + (if rs[1].hot then 1 else 0);
    assert rs == [rs[0]] + [rs[1]] + [rs[2]];
  }

  // What the confidence looks at: the peak of the good samples less their mean, and
  // the time from the first sample to the last.
  lemma SpreadIsPeakLessMean(e: Evidence, samples: seq<Sample>)
    requires OfScan(e, samples) && AllGenuine(samples)
    ensures var good := Supplied(DiskReadings(samples)); good != [] ==> Spread(e, OfDisk) == Peak(good) - Mean(good)
    ensures var good := Supplied(CpuReadings(samples)); good != [] ==> Spread(e, OfCpu) == Peak(good) - Mean(good)
    ensures var good := Supplied(MemoryReadings(samples)); good != [] ==> Spread(e, OfMemory) == Peak(good) - Mean(good)
    ensures (e.scanSamples - 1) * e.intervalMs < 0x1_0000_0000 ==> WindowMs(e) == (e.scanSamples - 1) * e.intervalMs
  {
    hide Peak, Mean, Supplied, Credible, AllGenuine, DiskReadings, CpuReadings, MemoryReadings;
    ReadingsAreCredible(samples);
    PeakIsAbove(DiskReadings(samples));
    PeakIsAbove(CpuReadings(samples));
    PeakIsAbove(MemoryReadings(samples));
    if (e.scanSamples - 1) * e.intervalMs < 0x1_0000_0000 {
      WindowIs(e);
    }
  }

  lemma WindowIs(e: Evidence)
    requires e.scanSamples >= 1 && (e.scanSamples - 1) * e.intervalMs < 0x1_0000_0000
    ensures WindowMs(e) == (e.scanSamples - 1) * e.intervalMs
  {
  }

  lemma PeakIsAbove(rs: seq<Reading>)
    requires forall r :: r in rs ==> Credible(r)
    ensures var good := Supplied(rs); good != [] ==> Peak(good) >= 0.0 && Peak(good) >= Mean(good)
  {
    hide Peak, Mean, Supplied;
    var good := Supplied(rs);
    if good != [] {
      SuppliedAreCredible(rs);
      PeakIsCredible(good);
      PeakIsMaximum(good);
      MeanReached(good, Mean(good));
    }
  }

  // ---- from samples to advice ----

  // The whole way: the samples are merged, the rules run on what was merged, and
  // the advice about disk, memory and processor is there exactly when the samples
  // call for it.
  method Recommend(samples: seq<Sample>, intervalMs: nat, f: Facts) returns (list: List)
    requires AllGenuine(samples)
    ensures list.Valid()
    ensures var good := Supplied(DiskReadings(samples));
      Gives(list.Contents(), RecId(Disk, 1)) <==>
        || (|good| == 1 && good[0].value >= 95.0)
        || (|good| >= 2 && (Mean(good) >= 90.0 || Hot(good) * 2 > |good|))
    ensures var good, last := Supplied(MemoryReadings(samples)), LastMemory(samples);
      Gives(list.Contents(), RecId(Memory, 1)) <==>
        && last.Some? && last.value.total > 0
        && var percent := last.value.available as real * 100.0 / last.value.total as real;
           percent < 10.0 || (percent < 20.0 && Hot(good) * 2 > |good|)
    ensures var good := Supplied(CpuReadings(samples));
      Gives(list.Contents(), RecId(Cpu, 1)) <==> (|good| == 1 && good[0].value >= 95.0) || (|good| >= 2 && Mean(good) >= 85.0)
  {
    hide Summary, Genuine, AllRules, Gives, DiskAlarm, MemoryIsLow, CpuAlarm, Mean, Hot, Supplied, Clocked, Sized;
    var report := RunScan(samples);
    var cpu := Gather(report.cpu);
    var memory := Gather(report.memory);
    var disk := Gather(report.disk);
    var e := Evidence(|samples|, intervalMs, cpu, memory, disk, f.evidence.bootOk, f.evidence.bootHistory);
    assert OfScan(e, samples);
    var found := f.(evidence := e, memory := f.memory.(available := report.available, total := report.total));
    list := Generate(found);
    AlarmIsListed(found);
    DiskAlarmExactly(e, samples);
    MemoryIsListed(found);
    MemoryAlarmExactly(found, samples);
    CpuIsListed(found);
    CpuAlarmExactly(e, samples);
  }

  method Gather(m: Metric) returns (s: Stats)
    ensures s == m.State()
  {
    s := Stats(m.ok, m.available, m.value, m.okSamples, m.hotSamples, m.peak);
  }
}
