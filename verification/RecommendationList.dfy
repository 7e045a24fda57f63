// The rules at work: wt_generate_recommendations appends to one list of at most
// 32. The list is never full, so nothing the rules find is lost.

module RecommendationList {
  import opened Confidence
  import opened Recommendations
  import opened StableSort
  import opened Strings

  lemma TakeOn<T>(a: seq<T>, b: seq<T>, c: seq<T>, n: nat)
    ensures Take(Take(a + b, n) + c, n) == Take(a + (b + c), n)
  {
    assert a + (b + c) == (a + b) + c;
  }

  class List {
    const items: array<Recommendation>
    var count: nat

    ghost predicate Valid()
      reads this, items
    {
      items.Length == MAX_RECOMMENDATIONS && count <= MAX_RECOMMENDATIONS
    }

    ghost function Contents(): seq<Recommendation>
      requires Valid()
      reads this, items
    {
      items[..count]
    }

    constructor ()
      ensures Valid() && Contents() == [] && fresh(items)
    {
      items := new Recommendation[MAX_RECOMMENDATIONS](_ => Rec(Power, 1, "", Info, false, 80));
      count := 0;
    }

    // wt_rec_add and the filling in of the new item.
    method Add(r: Recommendation) returns (added: bool)
      requires Valid()
      modifies this, items
      ensures Valid() && (added <==> old(count) < MAX_RECOMMENDATIONS)
      ensures Contents() == Take(old(Contents()) + [r], MAX_RECOMMENDATIONS)
    {
      if count >= MAX_RECOMMENDATIONS {
        return false;
      }
      items[count] := r;
      count := count + 1;
      return true;
    }

    // A guarded append; done is what the rule has found since start.
    method Offer(c: bool, r: Recommendation, ghost start: seq<Recommendation>, ghost done: seq<Recommendation>)
      returns (ghost done': seq<Recommendation>)
      requires Valid() && Contents() == Take(start + done, MAX_RECOMMENDATIONS)
      modifies this, items
      ensures Valid() && done' == done + When(c, r)
      ensures Contents() == Take(start + done', MAX_RECOMMENDATIONS)
    {
      done' := done + When(c, r);
      TakeOn(start, done, When(c, r), MAX_RECOMMENDATIONS);
      if c {
        var _ := Add(r);
      } else {
        assert start + done' == start + done;
      }
    }
  }

  // What a rule does to the list.
  twostate predicate Appended(list: List, found: seq<Recommendation>)
    reads list, list.items
  {
    && old(list.Valid()) && list.Valid()
    && list.Contents() == Take(old(list.Contents()) + found, MAX_RECOMMENDATIONS)
  }

  // One finding after another, and all of them together.
  lemma InARow(a: seq<Recommendation>, b: seq<Recommendation>, c: seq<Recommendation>, d: seq<Recommendation>)
    ensures [] + a + b + c + d == a + (b + (c + d))
  {
  }

  lemma PowerInARow(f: Facts)
    ensures var p := f.power;
      PowerRules(f)
      == if !p.ok then [] else
           [] + When(p.onAc == 1 && !Performance(p.scheme), PowerUp(f)) + When(p.onAc == 0 && Performance(p.scheme), PowerDown(f))
           + When(p.capped, PowerCapped(f))
           + When(p.onAc == 0 && p.rateOk && p.discharging == 1 && p.rateMw <= -20000, PowerDrain(f))
  {
    hide When, Performance, PowerUp, PowerDown, PowerCapped, PowerDrain;
    var p := f.power;
    InARow(When(p.onAc == 1 && !Performance(p.scheme), PowerUp(f)), When(p.onAc == 0 && Performance(p.scheme), PowerDown(f)),
           When(p.capped, PowerCapped(f)), When(p.onAc == 0 && p.rateOk && p.discharging == 1 && p.rateMw <= -20000, PowerDrain(f)));
  }

  method CheckPower(f: Facts, list: List)
    requires list.Valid()
    modifies list, list.items
    ensures Appended(list, PowerRules(f))
  {
    hide PowerRules, When, Take, Performance, PowerUp, PowerDown, PowerCapped, PowerDrain;
    ghost var start, done := list.Contents(), [];
    TakeAll(start);
    PowerInARow(f);
    var p := f.power;
    if !p.ok {
      return;
    }
    done := list.Offer(p.onAc == 1 && !Performance(p.scheme), PowerUp(f), start, done);
    done := list.Offer(p.onAc == 0 && Performance(p.scheme), PowerDown(f), start, done);
    done := list.Offer(p.capped, PowerCapped(f), start, done);
    done := list.Offer(p.onAc == 0 && p.rateOk && p.discharging == 1 && p.rateMw <= -20000, PowerDrain(f), start, done);
  }

  method CheckMemory(f: Facts, list: List)
    requires list.Valid()
    modifies list, list.items
    ensures Appended(list, MemoryRules(f))
  {
    hide When, Take, MemoryIsLow, CommitIsHigh, FaultsAreHigh, MemoryLow, CommitHigh, FaultsHigh;
    ghost var start, done := list.Contents(), [];
    TakeAll(start);
    done := list.Offer(MemoryIsLow(f), MemoryLow(f), start, done);
    done := list.Offer(CommitIsHigh(f), CommitHigh(f), start, done);
    done := list.Offer(FaultsAreHigh(f), FaultsHigh(), start, done);
    assert done == MemoryRules(f);
  }

  lemma TakeAll(s: seq<Recommendation>)
    ensures |s| <= MAX_RECOMMENDATIONS ==> Take(s, MAX_RECOMMENDATIONS) == s
    ensures s + [] == s
  {
  }

  // ---- disk ----

  method FindHottest(vs: seq<Volume>) returns (found: bool, k: nat)
    ensures found == (Hottest(vs) < |vs|) && (found ==> k == Hottest(vs))
  {
    found, k := false, 0;
    for i := 0 to |vs|
      invariant found == (Hottest(vs[..i]) < i) && (found ==> k == Hottest(vs[..i]))
    {
      assert vs[..i + 1][..i] == vs[..i];
      if vs[i].activityOk {
        if !found || vs[i].active > vs[k].active {
          found, k := true, i;
        }
      }
    }
    assert vs[..|vs|] == vs;
  }

  // The least free volume below ten percent.
  method FindWorst(vs: seq<Volume>) returns (found: bool, k: nat)
    ensures found <==> exists v :: v in vs && v.free < 10.0
    ensures found ==> k < |vs| && (vs[k].free < 5.0 <==> exists v :: v in vs && v.free < 5.0)
  {
    found, k := false, 0;
    for i := 0 to |vs|
      invariant found ==> k < i && vs[k].free < 10.0 && forall j :: 0 <= j < i ==> vs[k].free <= vs[j].free
      invariant !found ==> forall j :: 0 <= j < i ==> vs[j].free >= 10.0
    {
      if vs[i].free < 10.0 && (!found || vs[i].free < vs[k].free) {
        found, k := true, i;
      }
    }
  }

  // Sustained, unless it is dismissed as noise.
  method IsAlarming(e: Evidence) returns (hot: bool)
    ensures hot == DiskAlarm(e)
  {
    hide SustainedHot, Score, ShouldEmit, DiskBase;
    hot := SustainedHot(e);
    if hot {
      var confidence := Compute(e, OfDisk, DiskBase(e, 70, 80));
      if !ShouldEmit(e, OfDisk, confidence) {
        hot := false;
      }
    }
  }

  method IsVolumeHot(f: Facts) returns (hot: bool)
    ensures hot == VolumeIsHot(f)
  {
    hide Hottest;
    var found, k := FindHottest(f.disk.volumes);
    hot := f.disk.ok && found && f.disk.volumes[k].active >= 90.0;
  }

  // The advice about the fullest volume, if one is short of space.
  method FullVolume(f: Facts) returns (low: bool, r: Recommendation)
    ensures low == FreeIsLow(f) && (low ==> r == DiskFull(f))
  {
    low, r := false, Rec(Disk, 2, ADVICE, Medium, false, 95);
    if f.disk.ok {
      var found, worst := FindWorst(f.disk.volumes);
      if found {
        low := true;
        r := r.(severity := if f.disk.volumes[worst].free < 5.0 then High else Medium);
      }
    }
  }

  lemma DiskInARow(f: Facts)
    ensures var alarm, volume := DiskAlarm(f.evidence), VolumeIsHot(f);
      DiskRules(f)
      == [] + When(alarm, DiskBusy(f)) + When(!alarm && volume, VolumeBusy(f))
         + When(!alarm && !volume && f.disk.throughputOk && Throughput(f.disk) >= 50.0 * MEGABYTE, DiskThroughput(f))
         + When(FreeIsLow(f), DiskFull(f))
  {
    hide When, DiskAlarm, VolumeIsHot, FreeIsLow, Throughput, DiskBusy, VolumeBusy, DiskThroughput, DiskFull;
    var alarm, volume := DiskAlarm(f.evidence), VolumeIsHot(f);
    InARow(When(alarm, DiskBusy(f)), When(!alarm && volume, VolumeBusy(f)),
           When(!alarm && !volume && f.disk.throughputOk && Throughput(f.disk) >= 50.0 * MEGABYTE, DiskThroughput(f)),
           When(FreeIsLow(f), DiskFull(f)));
  }

  method CheckDisk(f: Facts, list: List)
    requires list.Valid()
    modifies list, list.items
    ensures Appended(list, DiskRules(f))
  {
    hide DiskRules, When, Take, DiskAlarm, VolumeIsHot, FreeIsLow, Throughput, DiskBusy, VolumeBusy, DiskThroughput, DiskFull;
    ghost var start, done := list.Contents(), [];
    TakeAll(start);
    DiskInARow(f);
    var thru := Throughput(f.disk);
    var volumeHot := IsVolumeHot(f);
    var totalHot := IsAlarming(f.evidence);
    done := list.Offer(totalHot, DiskBusy(f), start, done);
    done := list.Offer(!totalHot && volumeHot, VolumeBusy(f), start, done);
    done := list.Offer(!totalHot && !volumeHot && f.disk.throughputOk && thru >= 50.0 * MEGABYTE, DiskThroughput(f), start, done);
    var low, full := FullVolume(f);
    done := list.Offer(low, if low then full else DiskFull(f), start, done);
  }

  method CheckStorage(f: Facts, list: List)
    requires list.Valid()
    modifies list, list.items
    ensures Appended(list, StorageRules(f))
  {
    hide Take;
    ghost var start := list.Contents();
    TakeAll(start);
    var s := f.storage;
    if (!s.ok && s.disks == []) || !s.anyDegraded {
      return;
    }
    for i := 0 to |s.disks|
      invariant list.Valid() && list.Contents() == start && Degraded !in s.disks[..i]
    {
      if s.disks[i] == Degraded {
        var _ := list.Add(Rec(Disk, 5, ADVICE, High, false, 90));
        return;
      }
    }
    assert s.disks[..|s.disks|] == s.disks;
    for i := 0 to |s.disks|
      invariant list.Valid() && list.Contents() == start && Warning !in s.disks[..i]
    {
      if s.disks[i] == Warning {
        var _ := list.Add(Rec(Disk, 6, ADVICE, Medium, false, 70));
        return;
      }
    }
  }

  lemma ReliabilityInARow(f: Facts)
    ensures var r := f.reliability;
      ReliabilityRules(f)
      == if !r.ok && !r.eventsOk && r.dumps == [] then [] else
           [] + When(r.powerLosses + r.shutdowns >= 1, Shutdowns(f))
           + When(r.crashes + r.hangs >= 3, Rec(Reliability, 2, ADVICE, Medium, false, 80))
           + When(r.bugchecks >= 1 || KernelDump(r.dumps), Rec(Reliability, 3, ADVICE, High, false, 88))
  {
    hide When, Rec, Shutdowns, KernelDump;
    var r := f.reliability;
    var last := When(r.bugchecks >= 1 || KernelDump(r.dumps), Rec(Reliability, 3, ADVICE, High, false, 88));
    InARow(When(r.powerLosses + r.shutdowns >= 1, Shutdowns(f)),
           When(r.crashes + r.hangs >= 3, Rec(Reliability, 2, ADVICE, Medium, false, 80)), last, []);
    assert last + [] == last;
  }

  method CheckReliability(f: Facts, list: List)
    requires list.Valid()
    modifies list, list.items
    ensures Appended(list, ReliabilityRules(f))
  {
    hide ReliabilityRules, When, Take, Rec, Shutdowns, KernelDump;
    ghost var start, done := list.Contents(), [];
    TakeAll(start);
    ReliabilityInARow(f);
    var r := f.reliability;
    if !r.ok && !r.eventsOk && r.dumps == [] {
      return;
    }
    done := list.Offer(r.powerLosses + r.shutdowns >= 1, Shutdowns(f), start, done);
    done := list.Offer(r.crashes + r.hangs >= 3, Rec(Reliability, 2, ADVICE, Medium, false, 80), start, done);
    var dump := HasKernelDump(r.dumps);
    done := list.Offer(r.bugchecks >= 1 || dump, Rec(Reliability, 3, ADVICE, High, false, 88), start, done);
  }

  method HasKernelDump(dumps: seq<string>) returns (found: bool)
    ensures found == KernelDump(dumps)
  {
    hide Fold;
    for i := 0 to |dumps|
      invariant forall j :: 0 <= j < i ==> Fold(dumps[j]) != "minidump" && Fold(dumps[j]) != "memory.dmp"
    {
      if Fold(dumps[i]) == "minidump" || Fold(dumps[i]) == "memory.dmp" {
        return true;
      }
    }
    return false;
  }

  lemma MaintenanceInARow(f: Facts)
    ensures var m := f.maintenance;
      MaintenanceRules(f)
      == if !m.ok || !m.overlap then [] else
           [] + When(m.defender && (m.cpuHot || m.diskHot), Rec(Maint, 1, ADVICE, Medium, false, 82))
           + When(m.update && (m.cpuHot || m.diskHot), Rec(Maint, 2, ADVICE, Medium, false, 80))
           + When(m.optimize && m.diskHot, Rec(Maint, 3, ADVICE, Low, false, 75))
           + When(One(m.defender) + One(m.update) + One(m.optimize) >= 2, Rec(Maint, 4, ADVICE, Info, false, 70))
  {
    hide When, Rec, One;
    var m := f.maintenance;
    InARow(When(m.defender && (m.cpuHot || m.diskHot), Rec(Maint, 1, ADVICE, Medium, false, 82)),
           When(m.update && (m.cpuHot || m.diskHot), Rec(Maint, 2, ADVICE, Medium, false, 80)),
           When(m.optimize && m.diskHot, Rec(Maint, 3, ADVICE, Low, false, 75)),
           When(One(m.defender) + One(m.update) + One(m.optimize) >= 2, Rec(Maint, 4, ADVICE, Info, false, 70)));
  }

  method CheckMaintenance(f: Facts, list: List)
    requires list.Valid()
    modifies list, list.items
    ensures Appended(list, MaintenanceRules(f))
  {
    hide MaintenanceRules, When, Take, Rec, One;
    ghost var start, done := list.Contents(), [];
    TakeAll(start);
    MaintenanceInARow(f);
    var m := f.maintenance;
    if !m.ok || !m.overlap {
      return;
    }
    done := list.Offer(m.defender && (m.cpuHot || m.diskHot), Rec(Maint, 1, ADVICE, Medium, false, 82), start, done);
    done := list.Offer(m.update && (m.cpuHot || m.diskHot), Rec(Maint, 2, ADVICE, Medium, false, 80), start, done);
    done := list.Offer(m.optimize && m.diskHot, Rec(Maint, 3, ADVICE, Low, false, 75), start, done);
    done := list.Offer(One(m.defender) + One(m.update) + One(m.optimize) >= 2, Rec(Maint, 4, ADVICE, Info, false, 70), start, done);
  }

  method CheckProcessors(f: Facts, list: List)
    requires list.Valid()
    modifies list, list.items
    ensures Appended(list, ProcessorRules(f))
  {
    hide When, Take, Score, CpuAlarm, GpuAlarm;
    ghost var start, done := list.Contents(), [];
    TakeAll(start);
    done := list.Offer(CpuAlarm(f.evidence), Rec(Cpu, 1, ADVICE, Info, false, Score(f.evidence, OfCpu, 75)), start, done);
    done := list.Offer(GpuAlarm(f), Rec(Gpu, 1, ADVICE, Info, false, Score(f.evidence, OfGpu, 70)), start, done);
    assert done == ProcessorRules(f);
  }

  method CheckDesktop(f: Facts, list: List)
    requires list.Valid()
    modifies list, list.items
    ensures Appended(list, DesktopRules(f))
  {
    hide When, Take, Score, SearchBehind;
    ghost var start, done := list.Contents(), [];
    TakeAll(start);
    var held := false;
    if f.audioOk && f.audioAvailable && f.audioExclusive {
      var i := 0;
      while i < |f.endpoints| && !(f.endpoints[i].probed && f.endpoints[i].exclusive)
        invariant i <= |f.endpoints|
        invariant forall j :: 0 <= j < i ==> !(f.endpoints[j].probed && f.endpoints[j].exclusive)
      {
        i := i + 1;
      }
      held := i < |f.endpoints|;
    }
    done := list.Offer(held, Rec(Audio, 1, ADVICE, Info, false, Score(f.evidence, Snapshot, 70)), start, done);
    done := list.Offer(SearchBehind(f), Rec(Search, 1, ADVICE, Info, false, Score(f.evidence, Snapshot, 70)), start, done);
    assert done == DesktopRules(f);
  }

  lemma BootInARow(f: Facts)
    ensures var b := f.boot;
      BootRules(f)
      == if !f.evidence.bootOk then [] else
           [] + When(SlowBoots(f) > 0, BootSlow(f))
           + When(b.degraded && ShouldEmit(f.evidence, OfBoot, DegradedScore(f)), BootDegraded(f))
           + When(SlowComponent(b.components) < |b.components|, ComponentSlow(f))
  {
    hide When, SlowBoots, ShouldEmit, DegradedScore, SlowComponent, BootSlow, BootDegraded, ComponentSlow;
    var b := f.boot;
    var last := When(SlowComponent(b.components) < |b.components|, ComponentSlow(f));
    InARow(When(SlowBoots(f) > 0, BootSlow(f)),
           When(b.degraded && ShouldEmit(f.evidence, OfBoot, DegradedScore(f)), BootDegraded(f)), last, []);
    assert last + [] == last;
  }

  method FindSlowComponent(cs: seq<Component>) returns (i: nat)
    ensures i == SlowComponent(cs)
  {
    i := 0;
    while i < |cs| && !(cs[i].ms >= 3000 && cs[i].counted)
      invariant i <= |cs| && SlowComponent(cs) == i + SlowComponent(cs[i..])
    {
      assert cs[i..][1..] == cs[i + 1..];
      i := i + 1;
    }
  }

  method CheckBoot(f: Facts, list: List)
    requires list.Valid()
    modifies list, list.items
    ensures Appended(list, BootRules(f))
  {
    hide BootRules, When, Take, SlowBoots, DegradedScore, ShouldEmit, SlowComponent, BootSlow, BootDegraded, ComponentSlow;
    ghost var start, done := list.Contents(), [];
    TakeAll(start);
    BootInARow(f);
    if !f.evidence.bootOk {
      return;
    }
    done := list.Offer(SlowBoots(f) > 0, BootSlow(f), start, done);
    done := list.Offer(f.boot.degraded && ShouldEmit(f.evidence, OfBoot, DegradedScore(f)), BootDegraded(f), start, done);
    var k := FindSlowComponent(f.boot.components);
    done := list.Offer(k < |f.boot.components|, ComponentSlow(f), start, done);
  }

  lemma UpdatesInARow(f: Facts)
    ensures var u := f.updates;
      UpdateRules(f)
      == if !u.ok then [] else
           [] + When(u.reboot, Rec(Update, 1, ADVICE, Medium, false, 95))
           + When(u.searched && u.mandatory > 0, Rec(Update, 2, "wintune updates", Medium, false, 90))
           + When(u.searched && u.mandatory == 0 && u.pending >= 5, Rec(Update, 3, "wintune updates", Low, false, 85))
           + When(u.service == 0, Rec(Update, 4, ADVICE, Low, false, 90))
  {
    hide When, Rec;
    var u := f.updates;
    InARow(When(u.reboot, Rec(Update, 1, ADVICE, Medium, false, 95)),
           When(u.searched && u.mandatory > 0, Rec(Update, 2, "wintune updates", Medium, false, 90)),
           When(u.searched && u.mandatory == 0 && u.pending >= 5, Rec(Update, 3, "wintune updates", Low, false, 85)),
           When(u.service == 0, Rec(Update, 4, ADVICE, Low, false, 90)));
  }

  method CheckUpdates(f: Facts, list: List)
    requires list.Valid()
    modifies list, list.items
    ensures Appended(list, UpdateRules(f))
  {
    hide UpdateRules, When, Take, Rec;
    ghost var start, done := list.Contents(), [];
    TakeAll(start);
    UpdatesInARow(f);
    var u := f.updates;
    if !u.ok {
      return;
    }
    done := list.Offer(u.reboot, Rec(Update, 1, ADVICE, Medium, false, 95), start, done);
    done := list.Offer(u.searched && u.mandatory > 0, Rec(Update, 2, "wintune updates", Medium, false, 90), start, done);
    done := list.Offer(u.searched && u.mandatory == 0 && u.pending >= 5, Rec(Update, 3, "wintune updates", Low, false, 85), start, done);
    done := list.Offer(u.service == 0, Rec(Update, 4, ADVICE, Low, false, 90), start, done);
  }

  method FindWorthwhile(cs: seq<Candidate>, undelayed: bool) returns (k: nat)
    ensures k == FirstWorthwhile(cs, undelayed)
  {
    k := 0;
    while k < |cs| && !(Worthwhile(cs[k]) && (undelayed ==> cs[k].delay == 0))
      invariant k <= |cs| && FirstWorthwhile(cs, undelayed) == k + FirstWorthwhile(cs[k..], undelayed)
    {
      assert cs[k..][1..] == cs[k + 1..];
      k := k + 1;
    }
  }

  method CheckBlocked(f: Facts, list: List, ghost start: seq<Recommendation>, ghost done: seq<Recommendation>)
    returns (ghost done': seq<Recommendation>)
    requires list.Valid() && list.Contents() == Take(start + done, MAX_RECOMMENDATIONS)
    modifies list, list.items
    ensures list.Valid() && done' == done + BlockerRules(f) && list.Contents() == Take(start + done', MAX_RECOMMENDATIONS)
  {
    hide When, Take, Blocked;
    done' := list.Offer(Blocked(f), Rec(Blocker, 1, "wintune blockers", Medium, false, 85), start, done);
  }

  method CheckUninstall(f: Facts, list: List, ghost start: seq<Recommendation>, ghost done: seq<Recommendation>)
    returns (ghost done': seq<Recommendation>)
    requires list.Valid() && list.Contents() == Take(start + done, MAX_RECOMMENDATIONS)
    modifies list, list.items
    ensures list.Valid() && done' == done + LastRules(f) && list.Contents() == Take(start + done', MAX_RECOMMENDATIONS)
  {
    hide When, Take;
    done' := list.Offer(f.uninstall.Some? && f.uninstall.value > 0, Rec(Uninstall, 1, ADVICE, Low, false, 70), start, done);
  }

  method CheckChoices(f: Facts, list: List)
    requires list.Valid()
    modifies list, list.items
    ensures Appended(list, ChoiceRules(f))
  {
    hide Take, FirstWorthwhile, StartupStep, TaskStep, BlockerRules, LastRules;
    ghost var start, done := list.Contents(), [];
    TakeAll(start);
    done := CheckBlocked(f, list, start, done);
    done := CheckCandidates(f.startup, false, list, start, done, StartupRules(f));
    done := CheckCandidates(f.tasks, true, list, start, done, TaskRules(f));
    done := CheckUninstall(f, list, start, done);
    InARow(BlockerRules(f), StartupRules(f), TaskRules(f), LastRules(f));
  }

  // The startup rule, or the task rule: at most the first candidate.
  method CheckCandidates(cs: Option<seq<Candidate>>, tasks: bool, list: List,
                         ghost start: seq<Recommendation>, ghost done: seq<Recommendation>, ghost found: seq<Recommendation>)
    returns (ghost done': seq<Recommendation>)
    requires list.Valid() && list.Contents() == Take(start + done, MAX_RECOMMENDATIONS)
    requires found == if cs.None? then [] else
      var k := FirstWorthwhile(cs.value, tasks);
      if k == |cs.value| then [] else if tasks then [TaskStep(cs.value[k])] else [StartupStep(cs.value[k])]
    modifies list, list.items
    ensures list.Valid() && done' == done + found && list.Contents() == Take(start + done', MAX_RECOMMENDATIONS)
  {
    hide Take, FirstWorthwhile, StartupStep, TaskStep;
    done' := done + found;
    if cs.None? {
      assert done + [] == done;
      return;
    }
    var k := FindWorthwhile(cs.value, tasks);
    if k < |cs.value| {
      done' := list.Offer(true, if tasks then TaskStep(cs.value[k]) else StartupStep(cs.value[k]), start, done);
    } else {
      assert done + [] == done;
    }
  }

  // ---- all of them ----

  // The list as it is after one more rule.
  lemma TakeMore(start: seq<Recommendation>, done: seq<Recommendation>, found: seq<Recommendation>, now: seq<Recommendation>)
    requires now == Take(Take(start + done, MAX_RECOMMENDATIONS) + found, MAX_RECOMMENDATIONS)
    ensures now == Take(start + (done + found), MAX_RECOMMENDATIONS)
  {
    TakeOn(start, done, found, MAX_RECOMMENDATIONS);
  }

  method CheckMachine(f: Facts, list: List)
    requires list.Valid()
    modifies list, list.items
    ensures Appended(list, MachineRules(f))
  {
    hide PowerRules, MemoryRules, DiskRules, StorageRules, ReliabilityRules, Take;
    ghost var start := list.Contents();
    CheckPower(f, list);
    ghost var done := PowerRules(f);
    CheckMemory(f, list);
    TakeMore(start, done, MemoryRules(f), list.Contents());
    done := done + MemoryRules(f);
    CheckDisk(f, list);
    TakeMore(start, done, DiskRules(f), list.Contents());
    done := done + DiskRules(f);
    CheckStorage(f, list);
    TakeMore(start, done, StorageRules(f), list.Contents());
    done := done + StorageRules(f);
    CheckReliability(f, list);
    TakeMore(start, done, ReliabilityRules(f), list.Contents());
    assert done + ReliabilityRules(f) == MachineRules(f);
  }

  method CheckActivity(f: Facts, list: List)
    requires list.Valid()
    modifies list, list.items
    ensures Appended(list, ActivityRules(f))
  {
    hide MaintenanceRules, ProcessorRules, DesktopRules, BootRules, Take;
    ghost var start := list.Contents();
    CheckMaintenance(f, list);
    ghost var done := MaintenanceRules(f);
    CheckProcessors(f, list);
    TakeMore(start, done, ProcessorRules(f), list.Contents());
    done := done + ProcessorRules(f);
    CheckDesktop(f, list);
    TakeMore(start, done, DesktopRules(f), list.Contents());
    done := done + DesktopRules(f);
    CheckBoot(f, list);
    TakeMore(start, done, BootRules(f), list.Contents());
    assert done + BootRules(f) == ActivityRules(f);
  }

  // Every append finds room: the list ends up holding all that was found.
  method Generate(f: Facts) returns (list: List)
    ensures list.Valid() && list.Contents() == AllRules(f) && list.count <= 30
  {
    hide MachineRules, ActivityRules, UpdateRules, ChoiceRules, Take;
    list := new List();
    CheckMachine(f, list);
    ghost var done := MachineRules(f);
    assert [] + done == done;
    CheckActivity(f, list);
    TakeMore([], done, ActivityRules(f), list.Contents());
    done := done + ActivityRules(f);
    CheckUpdates(f, list);
    TakeMore([], done, UpdateRules(f), list.Contents());
    done := done + UpdateRules(f);
    CheckChoices(f, list);
    TakeMore([], done, ChoiceRules(f), list.Contents());
    assert [] + (done + ChoiceRules(f)) == AllRules(f);
    AtMostThirty(f);
    TakeAll(AllRules(f));
  }
}
