// When each recommendation is given, what it says and what it offers to apply:
// src/core/recommendations.c, told by the facts alone.

module Listings {
  import opened Confidence
  import opened Recommendations
  import opened Strings
  import opened WindowsSettings

  predicate Gives(s: seq<Recommendation>, id: RecId) {
    exists r :: r in s && r.id == id
  }

  lemma GivesBoth(a: seq<Recommendation>, b: seq<Recommendation>, id: RecId)
    ensures Gives(a + b, id) <==> Gives(a, id) || Gives(b, id)
  {
    assert forall r :: r in a || r in b ==> r in a + b;
  }

  lemma GivesOne(c: bool, r: Recommendation, id: RecId)
    ensures Gives(When(c, r), id) <==> c && r.id == id
  {
    assert c ==> r in When(c, r);
  }

  // The four findings of a rule, one after another.
  lemma GivesFour(a: bool, r1: Recommendation, b: bool, r2: Recommendation, c: bool, r3: Recommendation, d: bool, r4: Recommendation, id: RecId)
    ensures Gives(When(a, r1) + (When(b, r2) + (When(c, r3) + When(d, r4))), id)
       <==> (a && r1.id == id) || (b && r2.id == id) || (c && r3.id == id) || (d && r4.id == id)
  {
    hide Gives, When;
    GivesOne(a, r1, id);
    GivesThree(b, r2, c, r3, d, r4, id);
    GivesBoth(When(a, r1), When(b, r2) + (When(c, r3) + When(d, r4)), id);
  }

  lemma GivesThree(a: bool, r1: Recommendation, b: bool, r2: Recommendation, c: bool, r3: Recommendation, id: RecId)
    ensures Gives(When(a, r1) + (When(b, r2) + When(c, r3)), id)
       <==> (a && r1.id == id) || (b && r2.id == id) || (c && r3.id == id)
  {
    hide Gives, When;
    GivesOne(a, r1, id);
    GivesOne(b, r2, id);
    GivesOne(c, r3, id);
    GivesBoth(When(b, r2), When(c, r3), id);
    GivesBoth(When(a, r1), When(b, r2) + When(c, r3), id);
  }

  lemma GivesNothing(id: RecId)
    ensures !Gives([], id)
  {
  }

  // ---- which rule gives an id ----

  function RuleOf(f: Facts, id: RecId): seq<Recommendation> {
    var p := Place(id);
    if p < 10 then PowerRules(f)
    else if p < 20 then MemoryRules(f)
    else if p < 25 then DiskRules(f)
    else if p < 30 then StorageRules(f)
    else if p < 40 then ReliabilityRules(f)
    else if p < 50 then MaintenanceRules(f)
    else if p < 60 then ProcessorRules(f)
    else if p < 70 then DesktopRules(f)
    else if p < 80 then BootRules(f)
    else if p < 90 then UpdateRules(f)
    else if p < 100 then BlockerRules(f)
    else if p < 110 then StartupRules(f)
    else if p < 120 then TaskRules(f)
    else LastRules(f)
  }

  lemma Apart(s: seq<Recommendation>, lo: int, hi: int, id: RecId)
    requires Rises(s, lo, hi)
    ensures Gives(s, id) ==> lo <= Place(id) < hi
  {
    hide Place;
    if Gives(s, id) {
      var r :| r in s && r.id == id;
      var i :| 0 <= i < |s| && s[i] == r;
      assert lo <= Place(s[i].id) < hi;
    }
  }

  lemma MachineApart(f: Facts, id: RecId)
    ensures Gives(PowerRules(f), id) ==> 0 <= Place(id) < 10
    ensures Gives(MemoryRules(f), id) ==> 10 <= Place(id) < 20
    ensures Gives(DiskRules(f), id) ==> 20 <= Place(id) < 25
    ensures Gives(StorageRules(f), id) ==> 25 <= Place(id) < 30
    ensures Gives(ReliabilityRules(f), id) ==> 30 <= Place(id) < 40
  {
    hide *;
    PowerRise(f);
    Apart(PowerRules(f), 0, 10, id);
    MemoryRise(f);
    Apart(MemoryRules(f), 10, 20, id);
    DiskRise(f);
    Apart(DiskRules(f), 20, 25, id);
    StorageRise(f);
    Apart(StorageRules(f), 25, 30, id);
    ReliabilityRise(f);
    Apart(ReliabilityRules(f), 30, 40, id);
  }

  lemma ActivityApart(f: Facts, id: RecId)
    ensures Gives(MaintenanceRules(f), id) ==> 40 <= Place(id) < 50
    ensures Gives(ProcessorRules(f), id) ==> 50 <= Place(id) < 60
    ensures Gives(DesktopRules(f), id) ==> 60 <= Place(id) < 70
    ensures Gives(BootRules(f), id) ==> 70 <= Place(id) < 80
    ensures Gives(UpdateRules(f), id) ==> 80 <= Place(id) < 90
  {
    hide *;
    MaintenanceRise(f);
    Apart(MaintenanceRules(f), 40, 50, id);
    ProcessorRise(f);
    Apart(ProcessorRules(f), 50, 60, id);
    Apart(DesktopRules(f), 60, 70, id);
    BootRise(f);
    Apart(BootRules(f), 70, 80, id);
    UpdateRise(f);
    Apart(UpdateRules(f), 80, 90, id);
  }

  lemma ChoiceApart(f: Facts, id: RecId)
    ensures Gives(BlockerRules(f), id) ==> 90 <= Place(id) < 100
    ensures Gives(StartupRules(f), id) ==> 100 <= Place(id) < 110
    ensures Gives(TaskRules(f), id) ==> 110 <= Place(id) < 120
    ensures Gives(LastRules(f), id) ==> 120 <= Place(id) < 130
  {
    hide *;
    LastRise(f);
    Apart(BlockerRules(f), 90, 100, id);
    Apart(StartupRules(f), 100, 110, id);
    Apart(TaskRules(f), 110, 120, id);
    Apart(LastRules(f), 120, 130, id);
  }

  lemma MachineGives(f: Facts, id: RecId)
    ensures Gives(MachineRules(f), id) <==>
      || Gives(PowerRules(f), id) || Gives(MemoryRules(f), id) || Gives(DiskRules(f), id) || Gives(StorageRules(f), id)
      || Gives(ReliabilityRules(f), id)
  {
    hide Gives, PowerRules, MemoryRules, DiskRules, StorageRules, ReliabilityRules;
    GivesBoth(StorageRules(f), ReliabilityRules(f), id);
    GivesBoth(DiskRules(f), StorageRules(f) + ReliabilityRules(f), id);
    GivesBoth(MemoryRules(f), DiskRules(f) + (StorageRules(f) + ReliabilityRules(f)), id);
    GivesBoth(PowerRules(f), MemoryRules(f) + (DiskRules(f) + (StorageRules(f) + ReliabilityRules(f))), id);
  }

  lemma ActivityGives(f: Facts, id: RecId)
    ensures Gives(ActivityRules(f), id) <==>
      Gives(MaintenanceRules(f), id) || Gives(ProcessorRules(f), id) || Gives(DesktopRules(f), id) || Gives(BootRules(f), id)
  {
    hide Gives, MaintenanceRules, ProcessorRules, DesktopRules, BootRules;
    GivesBoth(DesktopRules(f), BootRules(f), id);
    GivesBoth(ProcessorRules(f), DesktopRules(f) + BootRules(f), id);
    GivesBoth(MaintenanceRules(f), ProcessorRules(f) + (DesktopRules(f) + BootRules(f)), id);
  }

  lemma ChoiceGives(f: Facts, id: RecId)
    ensures Gives(ChoiceRules(f), id) <==>
      Gives(BlockerRules(f), id) || Gives(StartupRules(f), id) || Gives(TaskRules(f), id) || Gives(LastRules(f), id)
  {
    hide Gives, BlockerRules, StartupRules, TaskRules, LastRules;
    GivesBoth(TaskRules(f), LastRules(f), id);
    GivesBoth(StartupRules(f), TaskRules(f) + LastRules(f), id);
    GivesBoth(BlockerRules(f), StartupRules(f) + (TaskRules(f) + LastRules(f)), id);
  }

  // An id is given exactly when the one rule that can give it does.
  lemma GivenByRule(f: Facts, id: RecId)
    ensures Gives(AllRules(f), id) <==> Gives(RuleOf(f, id), id)
  {
    hide Gives, Place, MachineRules, ActivityRules, UpdateRules, ChoiceRules, PowerRules, MemoryRules, DiskRules, StorageRules,
      ReliabilityRules, MaintenanceRules, ProcessorRules, DesktopRules, BootRules, BlockerRules, StartupRules, TaskRules, LastRules;
    MachineApart(f, id);
    ActivityApart(f, id);
    ChoiceApart(f, id);
    MachineGives(f, id);
    ActivityGives(f, id);
    ChoiceGives(f, id);
    GivesBoth(UpdateRules(f), ChoiceRules(f), id);
    GivesBoth(ActivityRules(f), UpdateRules(f) + ChoiceRules(f), id);
    GivesBoth(MachineRules(f), ActivityRules(f) + (UpdateRules(f) + ChoiceRules(f)), id);
  }

  // ---- and what it gives ----

  lemma {:induction false} RuleIsPart(f: Facts, id: RecId)
    ensures forall r :: r in RuleOf(f, id) ==> r in AllRules(f)
  {
    hide Place, PowerRules, MemoryRules, DiskRules, StorageRules, ReliabilityRules, MaintenanceRules, ProcessorRules, DesktopRules,
      BootRules, UpdateRules, BlockerRules, StartupRules, TaskRules, LastRules;
    assert forall r :: r in MachineRules(f) || r in ActivityRules(f) || r in UpdateRules(f) || r in ChoiceRules(f) ==> r in AllRules(f);
  }

  // A recommendation comes from the one rule that can give its id.
  lemma ComesFromRule(f: Facts, r: Recommendation)
    requires r in AllRules(f)
    ensures r in RuleOf(f, r.id)
  {
    hide AllRules, RuleOf, Place;
    assert Gives(AllRules(f), r.id);
    GivenByRule(f, r.id);
    var r' :| r' in RuleOf(f, r.id) && r'.id == r.id;
    RuleIsPart(f, r.id);
    AllRise(f);
    SamePlaceSame(AllRules(f), r, r');
  }

  lemma SamePlaceSame(s: seq<Recommendation>, r: Recommendation, r': Recommendation)
    requires Rises(s, 0, 130) && r in s && r' in s && r.id == r'.id
    ensures r == r'
  {
    hide Place;
    var i :| 0 <= i < |s| && s[i] == r;
    var j :| 0 <= j < |s| && s[j] == r';
    assert i < j ==> Place(s[i].id) < Place(s[j].id);
    assert j < i ==> Place(s[j].id) < Place(s[i].id);
  }

  lemma OneOfFour(a: bool, r1: Recommendation, b: bool, r2: Recommendation, c: bool, r3: Recommendation, d: bool, r4: Recommendation, r: Recommendation)
    requires r in When(a, r1) + (When(b, r2) + (When(c, r3) + When(d, r4)))
    ensures r in {r1, r2, r3, r4}
  {
    assert r in When(a, r1) || r in When(b, r2) || r in When(c, r3) || r in When(d, r4);
  }

  lemma OneOfThree(a: bool, r1: Recommendation, b: bool, r2: Recommendation, c: bool, r3: Recommendation, r: Recommendation)
    requires r in When(a, r1) + (When(b, r2) + When(c, r3))
    ensures r in {r1, r2, r3}
  {
    assert r in When(a, r1) || r in When(b, r2) || r in When(c, r3);
  }

  // The rule of every id, by its family.
  lemma RuleIs(f: Facts, id: RecId)
    requires id.number < 10
    ensures id.family == Power ==> RuleOf(f, id) == PowerRules(f)
    ensures id.family == Memory ==> RuleOf(f, id) == MemoryRules(f)
    ensures id.family == Disk ==> RuleOf(f, id) == if id.number < 5 then DiskRules(f) else StorageRules(f)
    ensures id.family == Reliability ==> RuleOf(f, id) == ReliabilityRules(f)
    ensures id.family == Maint ==> RuleOf(f, id) == MaintenanceRules(f)
    ensures id in {RecId(Cpu, 1), RecId(Gpu, 1)} ==> RuleOf(f, id) == ProcessorRules(f)
    ensures id in {RecId(Audio, 1), RecId(Search, 1)} ==> RuleOf(f, id) == DesktopRules(f)
    ensures id.family == Boot || id == RecId(Startup, 1) ==> RuleOf(f, id) == BootRules(f)
    ensures id.family == Update ==> RuleOf(f, id) == UpdateRules(f)
    ensures id.family == Blocker ==> RuleOf(f, id) == BlockerRules(f)
    ensures id == RecId(Startup, 2) ==> RuleOf(f, id) == StartupRules(f)
    ensures id.family == Tasks ==> RuleOf(f, id) == TaskRules(f)
    ensures id.family == Uninstall ==> RuleOf(f, id) == LastRules(f)
  {
    hide PowerRules, MemoryRules, DiskRules, StorageRules, ReliabilityRules, MaintenanceRules, ProcessorRules, DesktopRules,
      BootRules, UpdateRules, BlockerRules, StartupRules, TaskRules, LastRules;
  }

  // ---- power ----

  lemma PowerListed(f: Facts, n: nat)
    requires n < 10
    ensures var p := f.power;
      Gives(AllRules(f), RecId(Power, n)) <==>
        p.ok && (|| (n == 1 && p.onAc == 1 && p.scheme in {UnknownScheme, Balanced, PowerSaver})
                 || (n == 2 && p.onAc == 0 && p.scheme in {HighPerformance, Ultimate})
                 || (n == 3 && p.capped)
                 || (n == 4 && p.onAc == 0 && p.rateOk && p.discharging == 1 && p.rateMw <= -20000))
  {
    hide Gives, When, AllRules, RuleOf, PowerUp, PowerDown, PowerCapped, PowerDrain;
    var p, id := f.power, RecId(Power, n);
    GivenByRule(f, id);
    RuleIs(f, id);
    PowerIds(f);
    GivesNothing(id);
    GivesFour(p.onAc == 1 && !Performance(p.scheme), PowerUp(f), p.onAc == 0 && Performance(p.scheme), PowerDown(f),
              p.capped, PowerCapped(f), p.onAc == 0 && p.rateOk && p.discharging == 1 && p.rateMw <= -20000, PowerDrain(f), id);
  }

  lemma PowerRuleSays(f: Facts, r: Recommendation)
    requires r in PowerRules(f) && Issued(r.id)
    ensures match r.id.number
            case 1 => r.severity == (if f.power.scheme == PowerSaver then Medium else Low) && r.action == "wintune apply WT-POWER-001"
            case 2 => r.severity == Low && r.action == "wintune apply WT-POWER-002"
            case 3 => r.severity == Info && r.action == (if f.power.onAc == 1 then "wintune apply WT-POWER-001" else ADVICE)
            case _ => r.severity == Low && r.action == ADVICE
    ensures r.confidence == match r.id.number case 1 => 85 case 4 => 70 case _ => 80
    ensures r.rollback == (r.action != ADVICE) && !r.requiresAdmin
  {
    hide When, Performance;
    var p := f.power;
    OneOfFour(p.onAc == 1 && !Performance(p.scheme), PowerUp(f), p.onAc == 0 && Performance(p.scheme), PowerDown(f),
              p.capped, PowerCapped(f), p.onAc == 0 && p.rateOk && p.discharging == 1 && p.rateMw <= -20000, PowerDrain(f), r);
  }

  lemma PowerSays(f: Facts, r: Recommendation)
    requires r in AllRules(f) && r.id.family == Power
    ensures match r.id.number
            case 1 => r.severity == (if f.power.scheme == PowerSaver then Medium else Low) && r.action == "wintune apply WT-POWER-001"
            case 2 => r.severity == Low && r.action == "wintune apply WT-POWER-002"
            case 3 => r.severity == Info && r.action == (if f.power.onAc == 1 then "wintune apply WT-POWER-001" else ADVICE)
            case _ => r.severity == Low && r.action == ADVICE
    ensures r.confidence == match r.id.number case 1 => 85 case 4 => 70 case _ => 80
    ensures r.rollback == (r.action != ADVICE) && !r.requiresAdmin
  {
    hide *;
    SmallNumber(f, r);
    ComesFromRule(f, r);
    RuleIs(f, r.id);
    PowerRuleSays(f, r);
  }

  lemma SmallNumber(f: Facts, r: Recommendation)
    requires r in AllRules(f)
    ensures 1 <= r.id.number < 10 && Issued(r.id)
  {
    hide AllRules, RuleOf, Place, Issued;
    AllRise(f);
    var i :| 0 <= i < |AllRules(f)| && AllRules(f)[i] == r;
    NumbersAreDigits(AllRules(f)[i].id);
  }

  // ---- memory ----

  lemma MemoryGives(f: Facts, n: nat)
    requires n < 10
    ensures var e, m := f.evidence.memory, f.memory;
      Gives(MemoryRules(f), RecId(Memory, n)) <==>
        e.ok && (|| (n == 1 && m.total > 0 && var free := m.available as real * 100.0 / m.total as real;
                       free < 20.0 && (free < 10.0 || e.okSamples <= 1 || e.hotSamples * 2 > e.okSamples))
                 || (n == 2 && m.commitOk && m.commitLimit > 0 && m.commitPercent >= 85.0)
                 || (n == 3 && Paging(f)))
  {
    hide Gives, When, MemoryLow, CommitHigh, FaultsHigh, Score, OkSamples, Spread;
    var id := RecId(Memory, n);
    MemoryIds(f);
    HighBaseEmits(f.evidence, OfMemory, 90);
    GivesThree(MemoryIsLow(f), MemoryLow(f), CommitIsHigh(f), CommitHigh(f), FaultsAreHigh(f), FaultsHigh(), id);
  }

  lemma MemoryListed(f: Facts, n: nat)
    requires n < 10
    ensures var e, m := f.evidence.memory, f.memory;
      Gives(AllRules(f), RecId(Memory, n)) <==>
        e.ok && (|| (n == 1 && m.total > 0 && var free := m.available as real * 100.0 / m.total as real;
                       free < 20.0 && (free < 10.0 || e.okSamples <= 1 || e.hotSamples * 2 > e.okSamples))
                 || (n == 2 && m.commitOk && m.commitLimit > 0 && m.commitPercent >= 85.0)
                 || (n == 3 && Paging(f)))
  {
    hide *;
    GivenByRule(f, RecId(Memory, n));
    RuleIs(f, RecId(Memory, n));
    MemoryGives(f, n);
  }

  // Many hard page faults, of the scan or of a second look, unless memory and
  // commit charge are both fine.
  predicate Paging(f: Facts) {
    var m := if f.memory.hardFaultsOk || f.memoryAgain.None? then f.memory else f.memoryAgain.value;
    && m.hardFaultsOk && m.hardFaults >= 200.0
    && !(m.commitOk && m.commitPercent < 85.0
         && (m.total > 0 ==> m.available as real * 100.0 / m.total as real >= 20.0))
  }

  lemma MemoryIds(f: Facts)
    ensures MemoryLow(f).id == RecId(Memory, 1) && CommitHigh(f).id == RecId(Memory, 2) && FaultsHigh().id == RecId(Memory, 3)
  {
    hide Score;
  }

  lemma MemoryRuleSays(f: Facts, r: Recommendation)
    requires r in MemoryRules(f) && Issued(r.id)
    ensures r.action == ADVICE
    ensures r.severity == match r.id.number
                          case 1 => (if f.memory.total > 0 && f.memory.available as real * 100.0 / f.memory.total as real < 10.0 then High else Medium)
                          case 2 => (if f.memory.commitPercent >= 90.0 then High else Medium)
                          case _ => Medium
    ensures r.confidence == match r.id.number case 1 => Score(f.evidence, OfMemory, 90) case 2 => 88 case _ => 75
    ensures !r.rollback && !r.requiresAdmin
  {
    hide When, Score, MemoryIsLow, CommitIsHigh, FaultsAreHigh;
    OneOfThree(MemoryIsLow(f), MemoryLow(f), CommitIsHigh(f), CommitHigh(f), FaultsAreHigh(f), FaultsHigh(), r);
  }

  lemma MemorySays(f: Facts, r: Recommendation)
    requires r in AllRules(f) && r.id.family == Memory
    ensures r.action == ADVICE
    ensures r.severity == match r.id.number
                          case 1 => (if f.memory.total > 0 && f.memory.available as real * 100.0 / f.memory.total as real < 10.0 then High else Medium)
                          case 2 => (if f.memory.commitPercent >= 90.0 then High else Medium)
                          case _ => Medium
    ensures r.confidence == match r.id.number case 1 => Score(f.evidence, OfMemory, 90) case 2 => 88 case _ => 75
    ensures !r.rollback && !r.requiresAdmin
  {
    hide *;
    SmallNumber(f, r);
    ComesFromRule(f, r);
    RuleIs(f, r.id);
    MemoryRuleSays(f, r);
  }

  // ---- disk ----

  // The busiest measured volume is hot exactly when some measured one is.
  lemma {:induction false} HottestIsHot(vs: seq<Volume>, limit: real)
    ensures Hottest(vs) < |vs| ==> vs[Hottest(vs)].activityOk
    ensures Hottest(vs) < |vs| && vs[Hottest(vs)].active >= limit <==> exists v :: v in vs && v.activityOk && v.active >= limit
    ensures Hottest(vs) == |vs| <==> forall v :: v in vs ==> !v.activityOk
  {
    if vs != [] {
      var front, last := vs[..|vs| - 1], vs[|vs| - 1];
      HottestIsHot(front, limit);
      assert vs == front + [last];
      assert forall v :: v in vs <==> v in front || v == last;
      assert Hottest(front) < |front| ==> vs[Hottest(front)] == front[Hottest(front)];
    }
  }

  lemma DiskListed(f: Facts, n: nat)
    requires n < 10
    ensures var d, s, alarm := f.disk, f.storage, DiskAlarm(f.evidence);
            var hot := d.ok && exists v :: v in d.volumes && v.activityOk && v.active >= 90.0;
            var failing := (s.ok || s.disks != []) && s.anyDegraded;
      Gives(AllRules(f), RecId(Disk, n)) <==>
        || (n == 1 && alarm)
        || (n == 4 && !alarm && hot)
        || (n == 3 && !alarm && !hot && d.throughputOk
            && (if d.read > 0.0 then d.read else 0.0) + (if d.write > 0.0 then d.write else 0.0) >= 52428800.0)
        || (n == 2 && d.ok && exists v :: v in d.volumes && v.free < 10.0)
        || (n == 5 && failing && Degraded in s.disks)
        || (n == 6 && failing && Degraded !in s.disks && Warning in s.disks)
  {
    hide Gives, AllRules, RuleOf, DiskAlarm;
    var id := RecId(Disk, n);
    GivenByRule(f, id);
    RuleIs(f, id);
    if n < 5 {
      DiskGives(f, n);
    } else {
      StorageGives(f, n);
    }
  }

  lemma DiskGives(f: Facts, n: nat)
    ensures var d, alarm := f.disk, DiskAlarm(f.evidence);
            var hot := d.ok && exists v :: v in d.volumes && v.activityOk && v.active >= 90.0;
      Gives(DiskRules(f), RecId(Disk, n)) <==>
        || (n == 1 && alarm)
        || (n == 4 && !alarm && hot)
        || (n == 3 && !alarm && !hot && d.throughputOk
            && (if d.read > 0.0 then d.read else 0.0) + (if d.write > 0.0 then d.write else 0.0) >= 52428800.0)
        || (n == 2 && d.ok && exists v :: v in d.volumes && v.free < 10.0)
  {
    hide Gives, When, DiskAlarm, DiskBusy, VolumeBusy, DiskThroughput, DiskFull, Hottest;
    var alarm, volume := DiskAlarm(f.evidence), VolumeIsHot(f);
    HottestIsHot(f.disk.volumes, 90.0);
    DiskIds(f);
    GivesFour(alarm, DiskBusy(f), !alarm && volume, VolumeBusy(f),
              !alarm && !volume && f.disk.throughputOk && Throughput(f.disk) >= 50.0 * MEGABYTE, DiskThroughput(f),
              FreeIsLow(f), DiskFull(f), RecId(Disk, n));
  }

  lemma StorageGives(f: Facts, n: nat)
    ensures var s := f.storage;
            var failing := (s.ok || s.disks != []) && s.anyDegraded;
      Gives(StorageRules(f), RecId(Disk, n)) <==>
        || (n == 5 && failing && Degraded in s.disks)
        || (n == 6 && failing && Degraded !in s.disks && Warning in s.disks)
  {
    hide When, Gives;
    var id := RecId(Disk, n);
    var five, six := Rec(Disk, 5, ADVICE, High, false, 90), Rec(Disk, 6, ADVICE, Medium, false, 70);
    GivesNothing(id);
    GivesJust(five, id);
    GivesOne(Warning in f.storage.disks, six, id);
  }

  lemma GivesJust(r: Recommendation, id: RecId)
    ensures Gives([r], id) <==> r.id == id
  {
    assert r in [r];
  }

  lemma DiskSays(f: Facts, r: Recommendation)
    requires r in AllRules(f) && r.id.family == Disk
    ensures r.action == ADVICE
    ensures r.severity == match r.id.number
                          case 2 => (if exists v :: v in f.disk.volumes && v.free < 5.0 then High else Medium)
                          case 3 => Info
                          case 5 => High
                          case _ => Medium
    ensures r.confidence == match r.id.number
                            case 1 => Score(f.evidence, OfDisk, (if f.evidence.scanSamples <= 1 || f.evidence.disk.okSamples <= 1 then 70 else 80)
                                                                + (if f.disk.throughputOk && Throughput(f.disk) >= 20971520.0 then 5 else 0))
                            case 2 => 95
                            case 5 => 90
                            case 6 => 70
                            case _ => (if f.evidence.scanSamples > 1 then 80 else 70)
    ensures !r.rollback && !r.requiresAdmin
  {
    hide When, AllRules, RuleOf, Score, DiskAlarm, VolumeIsHot, FreeIsLow, Throughput, Hottest;
    SmallNumber(f, r);
    ComesFromRule(f, r);
    RuleIs(f, r.id);
    if r.id.number < 5 {
      var alarm, volume := DiskAlarm(f.evidence), VolumeIsHot(f);
      OneOfFour(alarm, DiskBusy(f), !alarm && volume, VolumeBusy(f),
                !alarm && !volume && f.disk.throughputOk && Throughput(f.disk) >= 50.0 * MEGABYTE, DiskThroughput(f),
                FreeIsLow(f), DiskFull(f), r);
    } else {
      StorageSays(f, r);
    }
  }

  lemma StorageSays(f: Facts, r: Recommendation)
    requires r in StorageRules(f)
    ensures r.id in {RecId(Disk, 5), RecId(Disk, 6)} && r.action == ADVICE && !r.rollback && !r.requiresAdmin
    ensures r.severity == (if r.id == RecId(Disk, 5) then High else Medium) && r.confidence == (if r.id == RecId(Disk, 5) then 90 else 70)
  {
  }

  // ---- reliability and maintenance ----

  lemma ReliabilityListed(f: Facts, n: nat)
    requires n < 10
    ensures var r := f.reliability;
      Gives(AllRules(f), RecId(Reliability, n)) <==>
        && (r.ok || r.eventsOk || r.dumps != [])
        && (|| (n == 1 && r.powerLosses + r.shutdowns >= 1)
            || (n == 2 && r.crashes + r.hangs >= 3)
            || (n == 3 && (r.bugchecks >= 1 || exists d :: d in r.dumps && (Fold(d) == "minidump" || Fold(d) == "memory.dmp"))))
  {
    hide Gives, When, AllRules, RuleOf, Shutdowns, Fold;
    var r, id := f.reliability, RecId(Reliability, n);
    GivenByRule(f, id);
    RuleIs(f, id);
    ShutdownsId(f);
    GivesNothing(id);
    GivesThree(r.powerLosses + r.shutdowns >= 1, Shutdowns(f),
               r.crashes + r.hangs >= 3, Rec(Reliability, 2, ADVICE, Medium, false, 80),
               r.bugchecks >= 1 || KernelDump(r.dumps), Rec(Reliability, 3, ADVICE, High, false, 88), id);
  }

  lemma ShutdownsId(f: Facts)
    ensures Shutdowns(f).id == RecId(Reliability, 1)
  {
  }

  lemma ReliabilitySays(f: Facts, r: Recommendation)
    requires r in AllRules(f) && r.id.family == Reliability
    ensures r.action == ADVICE
    ensures r.severity == match r.id.number
                          case 1 => (if f.reliability.powerLosses + f.reliability.shutdowns >= 2 then High else Medium)
                          case 2 => Medium
                          case _ => High
    ensures r.confidence == match r.id.number case 1 => 85 case 2 => 80 case _ => 88
    ensures !r.rollback && !r.requiresAdmin
  {
    hide When, AllRules, RuleOf, KernelDump;
    SmallNumber(f, r);
    ComesFromRule(f, r);
    RuleIs(f, r.id);
    var x := f.reliability;
    OneOfThree(x.powerLosses + x.shutdowns >= 1, Shutdowns(f),
               x.crashes + x.hangs >= 3, Rec(Reliability, 2, ADVICE, Medium, false, 80),
               x.bugchecks >= 1 || KernelDump(x.dumps), Rec(Reliability, 3, ADVICE, High, false, 88), r);
  }

  lemma MaintenanceGives(f: Facts, n: nat)
    requires n < 10
    ensures var m := f.maintenance;
      Gives(MaintenanceRules(f), RecId(Maint, n)) <==>
        && m.ok && m.overlap
        && (|| (n == 1 && m.defender && (m.cpuHot || m.diskHot))
            || (n == 2 && m.update && (m.cpuHot || m.diskHot))
            || (n == 3 && m.optimize && m.diskHot)
            || (n == 4 && ((m.defender && m.update) || (m.defender && m.optimize) || (m.update && m.optimize))))
  {
    hide Gives, When;
    var m, id := f.maintenance, RecId(Maint, n);
    GivesNothing(id);
    GivesFour(m.defender && (m.cpuHot || m.diskHot), Rec(Maint, 1, ADVICE, Medium, false, 82),
              m.update && (m.cpuHot || m.diskHot), Rec(Maint, 2, ADVICE, Medium, false, 80),
              m.optimize && m.diskHot, Rec(Maint, 3, ADVICE, Low, false, 75),
              One(m.defender) + One(m.update) + One(m.optimize) >= 2, Rec(Maint, 4, ADVICE, Info, false, 70), id);
  }

  lemma MaintenanceListed(f: Facts, n: nat)
    requires n < 10
    ensures var m := f.maintenance;
      Gives(AllRules(f), RecId(Maint, n)) <==>
        && m.ok && m.overlap
        && (|| (n == 1 && m.defender && (m.cpuHot || m.diskHot))
            || (n == 2 && m.update && (m.cpuHot || m.diskHot))
            || (n == 3 && m.optimize && m.diskHot)
            || (n == 4 && ((m.defender && m.update) || (m.defender && m.optimize) || (m.update && m.optimize))))
  {
    hide *;
    GivenByRule(f, RecId(Maint, n));
    RuleIs(f, RecId(Maint, n));
    MaintenanceGives(f, n);
  }

  lemma MaintenanceSays(f: Facts, r: Recommendation)
    requires r in AllRules(f) && r.id.family == Maint
    ensures r.action == ADVICE
    ensures r.severity == match r.id.number case 3 => Low case 4 => Info case _ => Medium
    ensures r.confidence == match r.id.number case 1 => 82 case 2 => 80 case 3 => 75 case _ => 70
    ensures !r.rollback && !r.requiresAdmin
  {
    hide When, AllRules, RuleOf;
    SmallNumber(f, r);
    ComesFromRule(f, r);
    RuleIs(f, r.id);
    var m := f.maintenance;
    OneOfFour(m.defender && (m.cpuHot || m.diskHot), Rec(Maint, 1, ADVICE, Medium, false, 82),
              m.update && (m.cpuHot || m.diskHot), Rec(Maint, 2, ADVICE, Medium, false, 80),
              m.optimize && m.diskHot, Rec(Maint, 3, ADVICE, Low, false, 75),
              One(m.defender) + One(m.update) + One(m.optimize) >= 2, Rec(Maint, 4, ADVICE, Info, false, 70), r);
  }

  // ---- processor, graphics, sound and search ----

  // One sample never suffices for WT-GPU-001.
  lemma ActivityListed(f: Facts)
    ensures Gives(AllRules(f), RecId(Cpu, 1)) <==> CpuAlarm(f.evidence)
    ensures Gives(AllRules(f), RecId(Gpu, 1))
       <==> f.gpuOk && f.gpuUtilizationOk && f.gpuPercent >= 90.0 && f.evidence.scanSamples >= 2
    ensures Gives(AllRules(f), RecId(Audio, 1))
       <==> f.audioOk && f.audioAvailable && f.audioExclusive && exists e :: e in f.endpoints && e.probed && e.exclusive
    ensures Gives(AllRules(f), RecId(Search, 1))
       <==> f.searchOk && f.searchAvailable && (f.searchCrawling || (f.backlogOk && f.backlog >= 100))
  {
    hide Gives, When, AllRules, RuleOf, CpuAlarm, Score, WindowMs, OkSamples;
    GivenByRule(f, RecId(Cpu, 1));
    RuleIs(f, RecId(Cpu, 1));
    GivenByRule(f, RecId(Gpu, 1));
    RuleIs(f, RecId(Gpu, 1));
    GivenByRule(f, RecId(Audio, 1));
    RuleIs(f, RecId(Audio, 1));
    GivenByRule(f, RecId(Search, 1));
    RuleIs(f, RecId(Search, 1));
    GpuEmits(f.evidence);
    forall id | id in {RecId(Cpu, 1), RecId(Gpu, 1)}
      ensures Gives(ProcessorRules(f), id) <==> (id == RecId(Cpu, 1) && CpuAlarm(f.evidence)) || (id == RecId(Gpu, 1) && GpuAlarm(f))
    {
      var a, b := Rec(Cpu, 1, ADVICE, Info, false, Score(f.evidence, OfCpu, 75)), Rec(Gpu, 1, ADVICE, Info, false, Score(f.evidence, OfGpu, 70));
      GivesTwo(CpuAlarm(f.evidence), a, GpuAlarm(f), b, id);
    }
    forall id | id in {RecId(Audio, 1), RecId(Search, 1)}
      ensures Gives(DesktopRules(f), id) <==> (id == RecId(Audio, 1) && AudioHeld(f)) || (id == RecId(Search, 1) && SearchBehind(f))
    {
      var a, b := Rec(Audio, 1, ADVICE, Info, false, Score(f.evidence, Snapshot, 70)), Rec(Search, 1, ADVICE, Info, false, Score(f.evidence, Snapshot, 70));
      GivesTwo(AudioHeld(f), a, SearchBehind(f), b, id);
    }
  }

  lemma GivesTwo(a: bool, r1: Recommendation, b: bool, r2: Recommendation, id: RecId)
    ensures Gives(When(a, r1) + When(b, r2), id) <==> (a && r1.id == id) || (b && r2.id == id)
  {
    hide Gives, When;
    GivesOne(a, r1, id);
    GivesOne(b, r2, id);
    GivesBoth(When(a, r1), When(b, r2), id);
  }

  lemma GpuEmits(e: Evidence)
    ensures ShouldEmit(e, OfGpu, Score(e, OfGpu, 70)) <==> e.scanSamples >= 2
  {
    hide Score, WindowMs;
    HighBaseEmits(e, OfGpu, 70);
  }

  lemma ActivitySays(f: Facts, r: Recommendation)
    requires r in AllRules(f) && r.id.family in {Cpu, Gpu, Audio, Search}
    ensures r.action == ADVICE && r.severity == Info && !r.rollback && !r.requiresAdmin
    ensures r.confidence == match r.id.family
                            case Cpu => Score(f.evidence, OfCpu, 75)
                            case Gpu => Score(f.evidence, OfGpu, 70)
                            case _ => Score(f.evidence, Snapshot, 70)
  {
    hide When, AllRules, RuleOf, Score, CpuAlarm, GpuAlarm, AudioHeld, SearchBehind;
    SmallNumber(f, r);
    ComesFromRule(f, r);
    RuleIs(f, r.id);
    var e := f.evidence;
    assert r.id.number == 1;
    if r.id.family in {Cpu, Gpu} {
      OneOfTwo(CpuAlarm(e), Rec(Cpu, 1, ADVICE, Info, false, Score(e, OfCpu, 75)), GpuAlarm(f), Rec(Gpu, 1, ADVICE, Info, false, Score(e, OfGpu, 70)), r);
    } else {
      OneOfTwo(AudioHeld(f), Rec(Audio, 1, ADVICE, Info, false, Score(e, Snapshot, 70)),
               SearchBehind(f), Rec(Search, 1, ADVICE, Info, false, Score(e, Snapshot, 70)), r);
    }
  }

  lemma OneOfTwo(a: bool, r1: Recommendation, b: bool, r2: Recommendation, r: Recommendation)
    requires r in When(a, r1) + When(b, r2)
    ensures r in {r1, r2}
  {
    assert r in When(a, r1) || r in When(b, r2);
  }

  // ---- boot ----

  lemma {:induction false} SlowComponentIs(cs: seq<Component>)
    ensures SlowComponent(cs) < |cs| <==> exists c :: c in cs && c.ms >= 3000 && c.counted
    ensures forall j :: 0 <= j < SlowComponent(cs) ==> !(cs[j].ms >= 3000 && cs[j].counted)
    ensures SlowComponent(cs) < |cs| ==> cs[SlowComponent(cs)].ms >= 3000 && cs[SlowComponent(cs)].counted
  {
    if cs != [] && !(cs[0].ms >= 3000 && cs[0].counted) {
      SlowComponentIs(cs[1..]);
      assert cs == [cs[0]] + cs[1..];
      assert forall c :: c in cs <==> c == cs[0] || c in cs[1..];
    }
  }

  // A degraded boot counts from the second boot on.
  lemma BootListed(f: Facts)
    ensures var n, b := f.evidence.bootHistory, f.boot;
      && (Gives(AllRules(f), RecId(Boot, 1)) <==>
            f.evidence.bootOk && (|| (n >= 2 && b.slowCount >= 2) || (n >= 3 && b.averageMs >= 60000)
                                  || (n >= 2 && b.lastMs >= 60000 && b.averageMs >= 60000)))
      && (Gives(AllRules(f), RecId(Boot, 2)) <==> f.evidence.bootOk && b.degraded && n >= 2)
      && (Gives(AllRules(f), RecId(Startup, 1)) <==> f.evidence.bootOk && exists c :: c in b.components && c.ms >= 3000 && c.counted)
  {
    hide Gives, When, AllRules, RuleOf, DegradedScore, BootSlow, BootDegraded, ComponentSlow, SlowComponent, Score;
    GivenByRule(f, RecId(Boot, 1));
    RuleIs(f, RecId(Boot, 1));
    GivenByRule(f, RecId(Boot, 2));
    RuleIs(f, RecId(Boot, 2));
    GivenByRule(f, RecId(Startup, 1));
    RuleIs(f, RecId(Startup, 1));
    BootIds(f);
    DegradedEmits(f);
    SlowComponentIs(f.boot.components);
    forall id
      ensures Gives(BootRules(f), id)
         <==> && f.evidence.bootOk
              && (|| (SlowBoots(f) > 0 && BootSlow(f).id == id)
                  || (f.boot.degraded && f.evidence.bootHistory >= 2 && BootDegraded(f).id == id)
                  || (SlowComponent(f.boot.components) < |f.boot.components| && ComponentSlow(f).id == id))
    {
      GivesNothing(id);
      GivesThree(SlowBoots(f) > 0, BootSlow(f),
                 f.boot.degraded && ShouldEmit(f.evidence, OfBoot, DegradedScore(f)), BootDegraded(f),
                 SlowComponent(f.boot.components) < |f.boot.components|, ComponentSlow(f), id);
    }
  }

  lemma BootIds(f: Facts)
    ensures BootSlow(f).id == RecId(Boot, 1) && BootDegraded(f).id == RecId(Boot, 2) && ComponentSlow(f).id == RecId(Startup, 1)
  {
    hide Score, SlowBoots, DegradedScore, SlowComponent;
  }

  lemma DegradedEmits(f: Facts)
    ensures f.evidence.bootOk ==> (ShouldEmit(f.evidence, OfBoot, DegradedScore(f)) <==> f.evidence.bootHistory >= 2)
  {
    hide WindowMs;
  }

  lemma BootSays(f: Facts, r: Recommendation)
    requires r in AllRules(f) && (r.id.family == Boot || r.id == RecId(Startup, 1))
    ensures r.id == RecId(Boot, 1) ==>
      r.action == ADVICE && r.severity == (if f.boot.averageMs >= 120000 || f.boot.lastMs >= 120000 then Medium else Low)
    ensures r.id == RecId(Boot, 2) ==> r.action == "wintune boot analyze" && r.severity == Medium
    ensures r.id == RecId(Startup, 1) ==>
      && r.action == "wintune startup --measured"
      && exists k :: && 0 <= k < |f.boot.components|
                     && (forall j :: 0 <= j < k ==> !(f.boot.components[j].ms >= 3000 && f.boot.components[j].counted))
                     && f.boot.components[k].ms >= 3000 && f.boot.components[k].counted
                     && r.severity == (if f.boot.components[k].ms >= 10000 then Medium else Low)
    ensures r.id in {RecId(Boot, 1), RecId(Boot, 2), RecId(Startup, 1)} && !r.rollback && !r.requiresAdmin
    ensures var n, b := f.evidence.bootHistory, f.boot;
      r.confidence == if r.id == RecId(Startup, 1) then 75
                      else if r.id == RecId(Boot, 2) then Score(f.evidence, OfBoot, if b.degradedCount >= 2 then 88 else 80)
                      else Score(f.evidence, OfBoot, if n >= 2 && b.slowCount >= 2 then 88 else if n >= 3 && b.averageMs >= 60000 then 82 else 78)
  {
    hide When, AllRules, RuleOf, Score, ShouldEmit, SlowComponent;
    SmallNumber(f, r);
    ComesFromRule(f, r);
    RuleIs(f, r.id);
    SlowComponentIs(f.boot.components);
    assert Gives(AllRules(f), r.id);
    BootListed(f);
    OneOfThree(SlowBoots(f) > 0, BootSlow(f),
               f.boot.degraded && ShouldEmit(f.evidence, OfBoot, DegradedScore(f)), BootDegraded(f),
               SlowComponent(f.boot.components) < |f.boot.components|, ComponentSlow(f), r);
  }

  // ---- updates and blockers ----

  lemma UpdateGives(f: Facts, n: nat)
    requires n < 10
    ensures var u := f.updates;
      Gives(UpdateRules(f), RecId(Update, n)) <==>
        u.ok && (|| (n == 1 && u.reboot)
                 || (n == 2 && u.searched && u.mandatory > 0)
                 || (n == 3 && u.searched && u.mandatory == 0 && u.pending >= 5)
                 || (n == 4 && u.service == 0))
  {
    hide Gives, When;
    var u, id := f.updates, RecId(Update, n);
    GivesNothing(id);
    GivesFour(u.reboot, Rec(Update, 1, ADVICE, Medium, false, 95), u.searched && u.mandatory > 0, Rec(Update, 2, "wintune updates", Medium, false, 90),
              u.searched && u.mandatory == 0 && u.pending >= 5, Rec(Update, 3, "wintune updates", Low, false, 85),
              u.service == 0, Rec(Update, 4, ADVICE, Low, false, 90), id);
  }

  lemma UpdateListed(f: Facts, n: nat)
    requires n < 10
    ensures var u := f.updates;
      Gives(AllRules(f), RecId(Update, n)) <==>
        u.ok && (|| (n == 1 && u.reboot)
                 || (n == 2 && u.searched && u.mandatory > 0)
                 || (n == 3 && u.searched && u.mandatory == 0 && u.pending >= 5)
                 || (n == 4 && u.service == 0))
  {
    hide *;
    GivenByRule(f, RecId(Update, n));
    RuleIs(f, RecId(Update, n));
    UpdateGives(f, n);
  }

  lemma UpdateSays(f: Facts, r: Recommendation)
    requires r in AllRules(f) && r.id.family == Update
    ensures r.action == (if r.id.number in {2, 3} then "wintune updates" else ADVICE)
    ensures r.severity == (if r.id.number <= 2 then Medium else Low)
    ensures r.confidence == match r.id.number case 1 => 95 case 3 => 85 case _ => 90
    ensures !r.rollback && !r.requiresAdmin
  {
    hide When, AllRules, RuleOf;
    SmallNumber(f, r);
    ComesFromRule(f, r);
    RuleIs(f, r.id);
    var u := f.updates;
    OneOfFour(u.reboot, Rec(Update, 1, ADVICE, Medium, false, 95), u.searched && u.mandatory > 0, Rec(Update, 2, "wintune updates", Medium, false, 90),
              u.searched && u.mandatory == 0 && u.pending >= 5, Rec(Update, 3, "wintune updates", Low, false, 85),
              u.service == 0, Rec(Update, 4, ADVICE, Low, false, 90), r);
  }

  lemma BlockerListed(f: Facts)
    ensures Gives(AllRules(f), RecId(Blocker, 1))
       <==> f.updates.ok && f.updates.reboot && f.blockersOk && (f.blockerProcesses > 0 || f.lockedFiles > 0)
    ensures Gives(AllRules(f), RecId(Uninstall, 1)) <==> f.uninstall.Some? && f.uninstall.value > 0
  {
    hide Gives, When, AllRules, RuleOf;
    GivenByRule(f, RecId(Blocker, 1));
    RuleIs(f, RecId(Blocker, 1));
    GivenByRule(f, RecId(Uninstall, 1));
    RuleIs(f, RecId(Uninstall, 1));
    GivesOne(Blocked(f), Rec(Blocker, 1, "wintune blockers", Medium, false, 85), RecId(Blocker, 1));
    GivesOne(f.uninstall.Some? && f.uninstall.value > 0, Rec(Uninstall, 1, ADVICE, Low, false, 70), RecId(Uninstall, 1));
  }

  lemma BlockerSays(f: Facts, r: Recommendation)
    requires r in AllRules(f) && r.id.family in {Blocker, Uninstall}
    ensures r.id.family == Blocker ==> r.action == "wintune blockers" && r.severity == Medium && r.confidence == 85
    ensures r.id.family == Uninstall ==> r.action == ADVICE && r.severity == Low && r.confidence == 70
    ensures !r.rollback && !r.requiresAdmin
  {
    hide AllRules, RuleOf, Blocked;
    SmallNumber(f, r);
    ComesFromRule(f, r);
    RuleIs(f, r.id);
  }

  // ---- startup entries and tasks ----

  // Enabled, not guarded, with an impact of 65 at a confidence of 50, and for
  // tasks not delayed yet.
  predicate WorthIt(c: Candidate, undelayed: bool) {
    c.enabled && !c.guarded && c.score >= 65 && c.confidence >= 50 && (undelayed ==> c.delay == 0)
  }

  // k is the first candidate that is.
  predicate FirstWorthIt(cs: seq<Candidate>, undelayed: bool, k: nat) {
    k < |cs| && WorthIt(cs[k], undelayed) && forall j :: 0 <= j < k ==> !WorthIt(cs[j], undelayed)
  }

  lemma {:induction false} WorthwhileIsFirst(cs: seq<Candidate>, undelayed: bool)
    ensures var k := FirstWorthwhile(cs, undelayed);
      && (k < |cs| <==> exists c :: c in cs && WorthIt(c, undelayed))
      && (k < |cs| ==> FirstWorthIt(cs, undelayed, k))
  {
    if cs != [] {
      assert cs == [cs[0]] + cs[1..];
      assert forall c :: c in cs <==> c == cs[0] || c in cs[1..];
      if !WorthIt(cs[0], undelayed) {
        WorthwhileIsFirst(cs[1..], undelayed);
        var k := FirstWorthwhile(cs[1..], undelayed);
        if k < |cs| - 1 {
          forall j | 0 <= j < k + 1 ensures !WorthIt(cs[j], undelayed) {
            assert j > 0 ==> cs[j] == cs[1..][j - 1];
          }
        }
      }
    }
  }

  lemma StartupGives(f: Facts)
    ensures Gives(StartupRules(f), RecId(Startup, 2)) <==> f.startup.Some? && exists c :: c in f.startup.value && WorthIt(c, false)
  {
    hide Gives, FirstWorthwhile, StartupStep, WorthIt;
    var id := RecId(Startup, 2);
    GivesNothing(id);
    if f.startup.Some? {
      WorthwhileIsFirst(f.startup.value, false);
      var k := FirstWorthwhile(f.startup.value, false);
      if k < |f.startup.value| {
        StepIds(f.startup.value[k]);
        GivesJust(StartupStep(f.startup.value[k]), id);
      }
    }
  }

  lemma StartupListed(f: Facts)
    ensures Gives(AllRules(f), RecId(Startup, 2)) <==> f.startup.Some? && exists c :: c in f.startup.value && WorthIt(c, false)
  {
    hide *;
    GivenByRule(f, RecId(Startup, 2));
    RuleIs(f, RecId(Startup, 2));
    StartupGives(f);
  }

  lemma TaskGives(f: Facts)
    ensures Gives(TaskRules(f), RecId(Tasks, 1)) <==> f.tasks.Some? && exists c :: c in f.tasks.value && WorthIt(c, true)
  {
    hide Gives, FirstWorthwhile, TaskStep, WorthIt;
    var id := RecId(Tasks, 1);
    GivesNothing(id);
    if f.tasks.Some? {
      WorthwhileIsFirst(f.tasks.value, true);
      var k := FirstWorthwhile(f.tasks.value, true);
      if k < |f.tasks.value| {
        StepIds(f.tasks.value[k]);
        GivesJust(TaskStep(f.tasks.value[k]), id);
      }
    }
  }

  lemma TaskListed(f: Facts)
    ensures Gives(AllRules(f), RecId(Tasks, 1)) <==> f.tasks.Some? && exists c :: c in f.tasks.value && WorthIt(c, true)
  {
    hide *;
    GivenByRule(f, RecId(Tasks, 1));
    RuleIs(f, RecId(Tasks, 1));
    TaskGives(f);
  }

  predicate OffersStartup(r: Recommendation, c: Candidate) {
    && r.action == "wintune apply WT-STARTUP-DISABLE \"" + c.id + "\"" && r.severity == Medium && r.rollback && r.confidence == c.confidence
    && (r.requiresAdmin <==> exists i :: 0 <= i <= |c.id| && "HKLM" <= c.id[i..])
  }

  predicate OffersTask(r: Recommendation, c: Candidate) {
    r.action == "wintune apply WT-TASK-DELAY \"" + c.id + "\" --seconds 30" && r.severity == Low && r.rollback && r.confidence == c.confidence
  }

  // The candidate offered is always the first one worth it, never a guarded one.
  lemma StartupSays(f: Facts, r: Recommendation)
    requires r in AllRules(f) && r.id == RecId(Startup, 2)
    ensures f.startup.Some? && exists k: nat :: FirstWorthIt(f.startup.value, false, k) && OffersStartup(r, f.startup.value[k])
  {
    hide *;
    ComesFromRule(f, r);
    RuleIs(f, r.id);
    var k := StartupTaken(f, r);
    WorthwhileIsFirst(f.startup.value, false);
    StepOffers(f.startup.value[k]);
  }

  lemma TaskSays(f: Facts, r: Recommendation)
    requires r in AllRules(f) && r.id == RecId(Tasks, 1)
    ensures f.tasks.Some? && exists k: nat :: FirstWorthIt(f.tasks.value, true, k) && OffersTask(r, f.tasks.value[k])
  {
    hide *;
    ComesFromRule(f, r);
    RuleIs(f, r.id);
    var k := TaskTaken(f, r);
    WorthwhileIsFirst(f.tasks.value, true);
    StepOffers(f.tasks.value[k]);
  }

  lemma StartupTaken(f: Facts, r: Recommendation) returns (k: nat)
    requires r in StartupRules(f)
    ensures f.startup.Some? && k == FirstWorthwhile(f.startup.value, false) < |f.startup.value| && r == StartupStep(f.startup.value[k])
  {
    hide FirstWorthwhile, StartupStep;
    k := FirstWorthwhile(f.startup.value, false);
  }

  lemma TaskTaken(f: Facts, r: Recommendation) returns (k: nat)
    requires r in TaskRules(f)
    ensures f.tasks.Some? && k == FirstWorthwhile(f.tasks.value, true) < |f.tasks.value| && r == TaskStep(f.tasks.value[k])
  {
    hide FirstWorthwhile, TaskStep;
    k := FirstWorthwhile(f.tasks.value, true);
  }

  lemma StepOffers(c: Candidate)
    ensures OffersStartup(StartupStep(c), c) && OffersTask(TaskStep(c), c)
  {
    hide Contains;
    ContainsIs(c.id, "HKLM");
  }

  lemma {:induction false} ContainsIs(s: string, part: string)
    ensures Contains(s, part) <==> exists i :: 0 <= i <= |s| && part <= s[i..]
  {
    assert s[0..] == s;
    if s != "" {
      ContainsIs(s[1..], part);
      if i :| 0 <= i <= |s| && part <= s[i..] {
        assert i > 0 ==> s[1..][i - 1..] == s[i..];
      }
      if i :| 0 <= i <= |s| - 1 && part <= s[1..][i..] {
        assert s[1..][i..] == s[i + 1..];
      }
    }
  }
}
