// How far the samples support a recommendation: src/core/confidence.c.

module Confidence {
  import opened ScanMerge

  datatype Measure = Snapshot | OfCpu | OfMemory | OfDisk | OfGpu | OfBoot

  // What a report says of its samples.
  datatype Evidence = Evidence(
    scanSamples: nat, intervalMs: nat,
    cpu: Stats, memory: Stats, disk: Stats,
    bootOk: bool, bootHistory: nat)

  const EMIT_MIN := 55
  const LOWEST := 40
  const HIGHEST := 95

  function GoodSamples(s: Stats): nat {
    if s.okSamples > 0 then s.okSamples else if s.ok then 1 else 0
  }

  function OkSamples(e: Evidence, m: Measure): nat {
    match m
    case OfCpu => GoodSamples(e.cpu)
    case OfMemory => GoodSamples(e.memory)
    case OfDisk => GoodSamples(e.disk)
    case OfGpu => if e.scanSamples > 0 then e.scanSamples else 1
    case OfBoot => if e.bootHistory > 0 then e.bootHistory else if e.bootOk then 1 else 0
    case Snapshot => 1
  }

  function Above(s: Stats): (r: real)
    ensures r >= 0.0
  {
    if s.peak >= 0.0 && s.ok && s.peak > s.value then s.peak - s.value else 0.0
  }

  // Peak less average, in percentage points.
  function Spread(e: Evidence, m: Measure): (r: real)
    ensures r >= 0.0
  {
    match m
    case OfCpu => Above(e.cpu)
    case OfDisk => Above(e.disk)
    case OfMemory => Above(e.memory)
    case _ => 0.0
  }

  // A 32-bit product.
  function WindowMs(e: Evidence): nat {
    if e.scanSamples <= 1 || e.intervalMs == 0 then 0 else (e.scanSamples - 1) * e.intervalMs % 0x1_0000_0000
  }

  function SampleStep(ok: nat): int {
    if ok <= 1 then -15 else if ok >= 5 then 8 else if ok >= 3 then 5 else 2
  }

  function WindowStep(ms: nat): int {
    if ms >= 8000 then 8 else if ms >= 3000 then 5 else if ms >= 1000 then 2 else 0
  }

  function SpreadStep(spread: real): int {
    if spread > 40.0 then -12 else if spread > 25.0 then -8 else if spread > 15.0 then -3 else 0
  }

  predicate Majority(hot: nat, ok: nat) {
    ok > 1 && hot * 2 > ok
  }

  function OwnStep(e: Evidence, m: Measure): int {
    match m
    case OfDisk => if Majority(e.disk.hotSamples, OkSamples(e, m)) then 5 else 0
    case OfCpu => if Majority(e.cpu.hotSamples, OkSamples(e, m)) then 5 else 0
    case OfBoot => if e.bootHistory >= 3 then 5 else if e.bootHistory <= 1 then -10 else 0
    case _ => 0
  }

  function Clamp(n: int): (r: int)
    ensures LOWEST <= r <= HIGHEST
  {
    if n > HIGHEST then HIGHEST else if n < LOWEST then LOWEST else n
  }

  function Score(e: Evidence, m: Measure, base: int): (r: int)
    ensures LOWEST <= r <= HIGHEST
  {
    if m == Snapshot then Clamp(base)
    else Clamp(Clamp(base) + SampleStep(OkSamples(e, m)) + WindowStep(WindowMs(e)) + SpreadStep(Spread(e, m)) + OwnStep(e, m))
  }

  // wt_confidence_compute, one adjustment after another.
  method Compute(e: Evidence, m: Measure, base: int) returns (conf: int)
    ensures conf == Score(e, m, base)
  {
    hide OkSamples, WindowMs, Spread;
    conf := Clamp(base);
    if m == Snapshot {
      return;
    }
    ghost var start := conf;
    var ok, windowMs, spread := OkSamples(e, m), WindowMs(e), Spread(e, m);
    if ok <= 1 {
      conf := conf - 15;
    } else if ok >= 5 {
      conf := conf + 8;
    } else if ok >= 3 {
      conf := conf + 5;
    } else {
      conf := conf + 2;
    }
    assert conf == start + SampleStep(ok);
    if windowMs >= 8000 {
      conf := conf + 8;
    } else if windowMs >= 3000 {
      conf := conf + 5;
    } else if windowMs >= 1000 {
      conf := conf + 2;
    }
    assert conf == start + SampleStep(ok) + WindowStep(windowMs);
    if spread > 40.0 {
      conf := conf - 12;
    } else if spread > 25.0 {
      conf := conf - 8;
    } else if spread > 15.0 {
      conf := conf - 3;
    }
    ghost var common := start + SampleStep(ok) + WindowStep(windowMs) + SpreadStep(spread);
    assert conf == common;
    if m == OfDisk && ok > 1 && e.disk.hotSamples * 2 > ok {
      conf := conf + 5;
    }
    if m == OfCpu && ok > 1 && e.cpu.hotSamples * 2 > ok {
      conf := conf + 5;
    }
    if m == OfBoot {
      if e.bootHistory >= 3 {
        conf := conf + 5;
      } else if e.bootHistory <= 1 {
        conf := conf - 10;
      }
    }
    assert conf == common + OwnStep(e, m);
    if conf > HIGHEST {
      conf := HIGHEST;
    }
    if conf < LOWEST {
      conf := LOWEST;
    }
  }

  // More samples over a longer time with less spread never lower the confidence.
  lemma ScoreGrows(e: Evidence, e': Evidence, m: Measure, base: int, base': int)
    requires base <= base' && OkSamples(e, m) <= OkSamples(e', m) && WindowMs(e) <= WindowMs(e')
    requires Spread(e, m) >= Spread(e', m) && OwnStep(e, m) <= OwnStep(e', m)
    ensures Score(e, m, base) <= Score(e', m, base')
  {
    hide WindowMs, OkSamples, Spread, OwnStep;
  }

  predicate ShouldEmit(e: Evidence, m: Measure, confidence: int) {
    var samples := if e.scanSamples > 0 then e.scanSamples else 1;
    if m == Snapshot || m == OfBoot then confidence >= EMIT_MIN
    else if samples <= 1 || OkSamples(e, m) <= 1 then
      && (|| (m == OfCpu && e.cpu.ok && e.cpu.value >= 95.0)
          || (m == OfDisk && e.disk.ok && e.disk.value >= 95.0)
          || (m == OfMemory && e.memory.ok))
      && confidence >= EMIT_MIN
    else confidence >= EMIT_MIN
  }

  // A base this high is never voted down, however far the samples are apart.
  lemma HighBaseEmits(e: Evidence, m: Measure, base: int)
    requires m == OfCpu || m == OfMemory || m == OfDisk || m == OfGpu
    requires base >= if OkSamples(e, m) <= 1 then (if Spread(e, m) > 15.0 then 82 else 70) else 65
    ensures Score(e, m, base) >= EMIT_MIN
  {
    hide WindowMs, OkSamples, Spread;
    assert OwnStep(e, m) >= 0;
  }

  // Where the adjustments change; between these places they do not.
  lemma Steps()
    ensures SampleStep(1) == -15 && SampleStep(2) == 2 && SampleStep(3) == SampleStep(4) == 5 && SampleStep(5) == 8
    ensures WindowStep(999) == 0 && WindowStep(1000) == WindowStep(2999) == 2 && WindowStep(3000) == WindowStep(7999) == 5 && WindowStep(8000) == 8
    ensures forall a, b :: a <= b ==> SampleStep(a) <= SampleStep(b) && WindowStep(a) <= WindowStep(b)
    ensures SpreadStep(15.0) == 0
    ensures forall s :: (15.0 < s <= 25.0 ==> SpreadStep(s) == -3) && (25.0 < s <= 40.0 ==> SpreadStep(s) == -8) && (s > 40.0 ==> SpreadStep(s) == -12)
    ensures forall s :: s <= 15.0 ==> SpreadStep(s) == 0
  {
  }
}
