// The recommendation rules of src/core/recommendations.c. Each rule appends what
// it finds to one bounded list. Titles, reasons and prose advice are left out.

module Recommendations {
  import opened Confidence
  import opened Strings
  import opened WindowsSettings

  datatype Severity = Info | Low | Medium | High | Critical

  datatype Family =
    | Power | Memory | Disk | Reliability | Maint | Cpu | Gpu | Audio | Search
    | Boot | Startup | Update | Blocker | Tasks | Uninstall

  // WT-<family>-00<number>.
  datatype RecId = RecId(family: Family, number: nat)

  const ADVICE := "advice"

  datatype Recommendation = Recommendation(
    id: RecId, action: string, severity: Severity, requiresAdmin: bool, rollback: bool, confidence: int)

  const MAX_RECOMMENDATIONS: nat := 32

  // ---- what the rules look at ----

  datatype PowerFacts = PowerFacts(
    ok: bool, scheme: Scheme, onAc: int, capped: bool, rateOk: bool, discharging: int, rateMw: int)

  datatype MemoryFacts = MemoryFacts(
    available: nat, total: nat, commitOk: bool, commitPercent: real, commitLimit: nat,
    hardFaultsOk: bool, hardFaults: real)

  datatype Volume = Volume(activityOk: bool, active: real, free: real)

  datatype DiskFacts = DiskFacts(
    throughputOk: bool, read: real, write: real, ok: bool, volumes: seq<Volume>)

  datatype Health = Fine | Warning | Degraded

  datatype StorageFacts = StorageFacts(ok: bool, anyDegraded: bool, disks: seq<Health>)

  datatype ReliabilityFacts = ReliabilityFacts(
    ok: bool, eventsOk: bool, powerLosses: nat, shutdowns: nat, crashes: nat, hangs: nat, bugchecks: nat,
    dumps: seq<string>)

  datatype MaintenanceFacts = MaintenanceFacts(
    ok: bool, overlap: bool, defender: bool, update: bool, optimize: bool, cpuHot: bool, diskHot: bool)

  datatype Endpoint = Endpoint(probed: bool, exclusive: bool)

  datatype Component = Component(ms: nat, counted: bool)   // counted: an application or a degradation

  datatype BootFacts = BootFacts(
    slowCount: nat, degradedCount: nat, averageMs: nat, lastMs: nat, degraded: bool, components: seq<Component>)

  datatype UpdateFacts = UpdateFacts(
    ok: bool, reboot: bool, searched: bool, mandatory: nat, pending: nat, service: int)

  datatype Candidate = Candidate(id: string, enabled: bool, guarded: bool, score: int, confidence: int, delay: nat)

  datatype Facts = Facts(
    evidence: Evidence,
    power: PowerFacts,
    memory: MemoryFacts, memoryAgain: Option<MemoryFacts>,
    disk: DiskFacts, storage: StorageFacts, reliability: ReliabilityFacts, maintenance: MaintenanceFacts,
    gpuOk: bool, gpuUtilizationOk: bool, gpuPercent: real,
    audioOk: bool, audioAvailable: bool, audioExclusive: bool, endpoints: seq<Endpoint>,
    searchOk: bool, searchAvailable: bool, searchCrawling: bool, backlogOk: bool, backlog: nat,
    boot: BootFacts, updates: UpdateFacts,
    blockersOk: bool, blockerProcesses: nat, lockedFiles: nat,
    startup: Option<seq<Candidate>>, tasks: Option<seq<Candidate>>,
    uninstall: Option<nat>)

  // ---- the rules, as what they append ----

  function Rec(family: Family, number: nat, action: string, severity: Severity, rollback: bool, confidence: int): Recommendation {
    Recommendation(RecId(family, number), action, severity, false, rollback, confidence)
  }

  function When(c: bool, r: Recommendation): (s: seq<Recommendation>)
    ensures |s| <= 1
  {
    if c then [r] else []
  }

  predicate Performance(s: Scheme) {
    s == HighPerformance || s == Ultimate
  }

  function PowerRules(f: Facts): seq<Recommendation> {
    var p := f.power;
    if !p.ok then []
    else
      When(p.onAc == 1 && !Performance(p.scheme), PowerUp(f))
      + (When(p.onAc == 0 && Performance(p.scheme), PowerDown(f))
      + (When(p.capped, PowerCapped(f))
      + When(p.onAc == 0 && p.rateOk && p.discharging == 1 && p.rateMw <= -20000, PowerDrain(f))))
  }

  function PowerUp(f: Facts): Recommendation {
    Rec(Power, 1, "wintune apply WT-POWER-001", if f.power.scheme == PowerSaver then Medium else Low, true,
        Score(f.evidence, Snapshot, 85))
  }

  function PowerDown(f: Facts): Recommendation {
    Rec(Power, 2, "wintune apply WT-POWER-002", Low, true, Score(f.evidence, Snapshot, 80))
  }

  function PowerCapped(f: Facts): Recommendation {
    Rec(Power, 3, if f.power.onAc == 1 then "wintune apply WT-POWER-001" else ADVICE, Info, f.power.onAc == 1,
        Score(f.evidence, Snapshot, 80))
  }

  function PowerDrain(f: Facts): Recommendation {
    Rec(Power, 4, ADVICE, Low, false, Score(f.evidence, Snapshot, 70))
  }

  function AvailablePercent(m: MemoryFacts): real
    requires m.total > 0
  {
    m.available as real * 100.0 / m.total as real
  }

  predicate MemoryIsLow(f: Facts) {
    var e, m := f.evidence, f.memory;
    && e.memory.ok && m.total > 0 && AvailablePercent(m) < 20.0
    && !(e.memory.okSamples > 1 && e.memory.hotSamples * 2 <= e.memory.okSamples && AvailablePercent(m) >= 10.0)
    && ShouldEmit(e, OfMemory, Score(e, OfMemory, 90))
  }

  function MemoryRules(f: Facts): seq<Recommendation> {
    When(MemoryIsLow(f), MemoryLow(f)) + (When(CommitIsHigh(f), CommitHigh(f)) + When(FaultsAreHigh(f), FaultsHigh()))
  }

  function MemoryLow(f: Facts): Recommendation {
    Rec(Memory, 1, ADVICE, if f.memory.total > 0 && AvailablePercent(f.memory) < 10.0 then High else Medium, false,
        Score(f.evidence, OfMemory, 90))
  }

  predicate CommitIsHigh(f: Facts) {
    f.evidence.memory.ok && f.memory.commitOk && f.memory.commitLimit > 0 && f.memory.commitPercent >= 85.0
  }

  function CommitHigh(f: Facts): Recommendation {
    Rec(Memory, 2, ADVICE, if f.memory.commitPercent >= 90.0 then High else Medium, false, 88)
  }

  // The rate is sampled again when the scan has none.
  predicate FaultsAreHigh(f: Facts) {
    && f.evidence.memory.ok
    && (f.memory.hardFaultsOk || (f.memoryAgain.Some? && f.memoryAgain.value.hardFaultsOk))
    && var m := if f.memory.hardFaultsOk then f.memory else f.memoryAgain.value;
       && m.hardFaults >= 200.0
       && !(m.commitOk && m.commitPercent < 85.0 && (if m.total > 0 then AvailablePercent(m) else 100.0) >= 20.0)
  }

  function FaultsHigh(): Recommendation {
    Rec(Memory, 3, ADVICE, Medium, false, 75)
  }

  // ---- disk ----

  predicate SustainedHot(e: Evidence) {
    && e.disk.ok
    && (e.disk.value >= 90.0 || (e.disk.okSamples > 0 && e.disk.hotSamples * 2 > e.disk.okSamples))
  }

  function DiskBase(e: Evidence, single: int, multi: int): int {
    if e.scanSamples <= 1 || e.disk.okSamples <= 1 then single else multi
  }

  // Sustained, and not dismissed as noise.
  predicate DiskAlarm(e: Evidence) {
    SustainedHot(e) && ShouldEmit(e, OfDisk, Score(e, OfDisk, DiskBase(e, 70, 80)))
  }

  // The index of the busiest volume that was measured; |volumes| for none.
  function Hottest(vs: seq<Volume>): (k: nat)
    ensures k <= |vs|
  {
    if vs == [] then 0
    else
      var n := |vs| - 1;
      var k := Hottest(vs[..n]);
      if !vs[n].activityOk then (if k == n then n + 1 else k)
      else if k == n || vs[n].active > vs[k].active then n
      else k
  }

  predicate VolumeIsHot(f: Facts) {
    f.disk.ok && Hottest(f.disk.volumes) < |f.disk.volumes| && f.disk.volumes[Hottest(f.disk.volumes)].active >= 90.0
  }

  function Positive(x: real): real {
    if x > 0.0 then x else 0.0
  }

  function Throughput(d: DiskFacts): real {
    if d.throughputOk then Positive(d.read) + Positive(d.write) else 0.0
  }

  const MEGABYTE := 1048576.0

  predicate FreeIsLow(f: Facts) {
    f.disk.ok && exists v :: v in f.disk.volumes && v.free < 10.0
  }

  predicate FreeIsVeryLow(f: Facts) {
    exists v :: v in f.disk.volumes && v.free < 5.0
  }

  function DiskRules(f: Facts): seq<Recommendation> {
    var alarm, volume := DiskAlarm(f.evidence), VolumeIsHot(f);
    When(alarm, DiskBusy(f))
    + (When(!alarm && volume, VolumeBusy(f))
    + (When(!alarm && !volume && f.disk.throughputOk && Throughput(f.disk) >= 50.0 * MEGABYTE, DiskThroughput(f))
    + When(FreeIsLow(f), DiskFull(f))))
  }

  function DiskBusy(f: Facts): Recommendation {
    Rec(Disk, 1, ADVICE, Medium, false,
        if f.disk.throughputOk && Throughput(f.disk) >= 20.0 * MEGABYTE
        then Score(f.evidence, OfDisk, DiskBase(f.evidence, 75, 85))
        else Score(f.evidence, OfDisk, DiskBase(f.evidence, 70, 80)))
  }

  function VolumeBusy(f: Facts): Recommendation {
    Rec(Disk, 4, ADVICE, Medium, false, if f.evidence.scanSamples > 1 then 80 else 70)
  }

  function DiskThroughput(f: Facts): Recommendation {
    Rec(Disk, 3, ADVICE, Info, false, if f.evidence.scanSamples > 1 then 80 else 70)
  }

  function DiskFull(f: Facts): Recommendation {
    Rec(Disk, 2, ADVICE, if FreeIsVeryLow(f) then High else Medium, false, 95)
  }

  // One advisory is enough; a failing disk comes before a warning one.
  function StorageRules(f: Facts): seq<Recommendation> {
    var s := f.storage;
    if (!s.ok && s.disks == []) || !s.anyDegraded then []
    else if Degraded in s.disks then [Rec(Disk, 5, ADVICE, High, false, 90)]
    else When(Warning in s.disks, Rec(Disk, 6, ADVICE, Medium, false, 70))
  }

  function KernelDump(dumps: seq<string>): bool {
    exists d :: d in dumps && (Fold(d) == "minidump" || Fold(d) == "memory.dmp")
  }

  function ReliabilityRules(f: Facts): seq<Recommendation> {
    var r := f.reliability;
    if !r.ok && !r.eventsOk && r.dumps == [] then []
    else
      When(r.powerLosses + r.shutdowns >= 1, Shutdowns(f))
      + (When(r.crashes + r.hangs >= 3, Rec(Reliability, 2, ADVICE, Medium, false, 80))
      + When(r.bugchecks >= 1 || KernelDump(r.dumps), Rec(Reliability, 3, ADVICE, High, false, 88)))
  }

  function Shutdowns(f: Facts): Recommendation {
    Rec(Reliability, 1, ADVICE, if f.reliability.powerLosses + f.reliability.shutdowns >= 2 then High else Medium, false, 85)
  }

  function One(b: bool): nat {
    if b then 1 else 0
  }

  function MaintenanceRules(f: Facts): seq<Recommendation> {
    var m := f.maintenance;
    if !m.ok || !m.overlap then []
    else
      When(m.defender && (m.cpuHot || m.diskHot), Rec(Maint, 1, ADVICE, Medium, false, 82))
      + (When(m.update && (m.cpuHot || m.diskHot), Rec(Maint, 2, ADVICE, Medium, false, 80))
      + (When(m.optimize && m.diskHot, Rec(Maint, 3, ADVICE, Low, false, 75))
      + When(One(m.defender) + One(m.update) + One(m.optimize) >= 2, Rec(Maint, 4, ADVICE, Info, false, 70))))
  }

  // The average must be hot whatever the majority says.
  predicate CpuAlarm(e: Evidence) {
    && e.cpu.ok && e.cpu.available && e.cpu.value >= 85.0
    && ShouldEmit(e, OfCpu, Score(e, OfCpu, 75))
  }

  predicate GpuAlarm(f: Facts) {
    && f.gpuOk && f.gpuUtilizationOk && f.gpuPercent >= 90.0
    && ShouldEmit(f.evidence, OfGpu, Score(f.evidence, OfGpu, 70))
  }

  predicate AudioHeld(f: Facts) {
    && f.audioOk && f.audioAvailable && f.audioExclusive
    && exists e :: e in f.endpoints && e.probed && e.exclusive
  }

  predicate SearchBehind(f: Facts) {
    f.searchOk && f.searchAvailable && (f.searchCrawling || (f.backlogOk && f.backlog >= 100))
  }

  function ProcessorRules(f: Facts): seq<Recommendation> {
    When(CpuAlarm(f.evidence), Rec(Cpu, 1, ADVICE, Info, false, Score(f.evidence, OfCpu, 75)))
    + When(GpuAlarm(f), Rec(Gpu, 1, ADVICE, Info, false, Score(f.evidence, OfGpu, 70)))
  }

  function DesktopRules(f: Facts): seq<Recommendation> {
    When(AudioHeld(f), Rec(Audio, 1, ADVICE, Info, false, Score(f.evidence, Snapshot, 70)))
    + When(SearchBehind(f), Rec(Search, 1, ADVICE, Info, false, Score(f.evidence, Snapshot, 70)))
  }

  // The base confidence of a pattern of slow boots; 0 for none.
  function SlowBoots(f: Facts): int {
    var n, b := f.evidence.bootHistory, f.boot;
    if n >= 2 && b.slowCount >= 2 then 88
    else if n >= 3 && b.averageMs >= 60000 then 82
    else if n >= 2 && b.lastMs >= 60000 && b.averageMs >= 60000 then 78
    else 0
  }

  function DegradedScore(f: Facts): int {
    var n := f.evidence.bootHistory;
    Score(f.evidence, OfBoot, if n >= 2 && f.boot.degradedCount >= 2 then 88 else if n <= 1 then 60 else 80)
  }

  // The first slow component; |components| for none.
  function SlowComponent(cs: seq<Component>): (k: nat)
    ensures k <= |cs|
  {
    if cs == [] || (cs[0].ms >= 3000 && cs[0].counted) then 0 else 1 + SlowComponent(cs[1..])
  }

  function BootRules(f: Facts): seq<Recommendation> {
    var b := f.boot;
    if !f.evidence.bootOk then []
    else
      When(SlowBoots(f) > 0, BootSlow(f))
      + (When(b.degraded && ShouldEmit(f.evidence, OfBoot, DegradedScore(f)), BootDegraded(f))
      + When(SlowComponent(b.components) < |b.components|, ComponentSlow(f)))
  }

  function BootSlow(f: Facts): Recommendation {
    Rec(Boot, 1, ADVICE, if f.boot.averageMs >= 120000 || f.boot.lastMs >= 120000 then Medium else Low, false,
        Score(f.evidence, OfBoot, SlowBoots(f)))
  }

  function BootDegraded(f: Facts): Recommendation {
    Rec(Boot, 2, "wintune boot analyze", Medium, false, DegradedScore(f))
  }

  function ComponentSlow(f: Facts): Recommendation {
    var k := SlowComponent(f.boot.components);
    Rec(Startup, 1, "wintune startup --measured",
        if k < |f.boot.components| && f.boot.components[k].ms >= 10000 then Medium else Low, false, 75)
  }

  function UpdateRules(f: Facts): seq<Recommendation> {
    var u := f.updates;
    if !u.ok then []
    else
      When(u.reboot, Rec(Update, 1, ADVICE, Medium, false, 95))
      + (When(u.searched && u.mandatory > 0, Rec(Update, 2, "wintune updates", Medium, false, 90))
      + (When(u.searched && u.mandatory == 0 && u.pending >= 5, Rec(Update, 3, "wintune updates", Low, false, 85))
      + When(u.service == 0, Rec(Update, 4, ADVICE, Low, false, 90))))
  }

  predicate Blocked(f: Facts) {
    f.updates.ok && f.updates.reboot && f.blockersOk && (f.blockerProcesses > 0 || f.lockedFiles > 0)
  }

  predicate Worthwhile(c: Candidate) {
    c.enabled && !c.guarded && c.score >= 65 && c.confidence >= 50
  }

  // The first candidate worth acting on; |cs| for none.
  function FirstWorthwhile(cs: seq<Candidate>, undelayed: bool): (k: nat)
    ensures k <= |cs|
  {
    if cs == [] || (Worthwhile(cs[0]) && (undelayed ==> cs[0].delay == 0)) then 0
    else 1 + FirstWorthwhile(cs[1..], undelayed)
  }

  predicate Contains(s: string, part: string) {
    part <= s || (s != "" && Contains(s[1..], part))
  }

  function StartupStep(c: Candidate): Recommendation {
    Recommendation(RecId(Startup, 2), "wintune apply WT-STARTUP-DISABLE \"" + c.id + "\"", Medium, Contains(c.id, "HKLM"), true, c.confidence)
  }

  function TaskStep(c: Candidate): Recommendation {
    Rec(Tasks, 1, "wintune apply WT-TASK-DELAY \"" + c.id + "\" --seconds 30", Low, true, c.confidence)
  }

  function StartupRules(f: Facts): seq<Recommendation> {
    if f.startup.None? then []
    else
      var k := FirstWorthwhile(f.startup.value, false);
      if k < |f.startup.value| then [StartupStep(f.startup.value[k])] else []
  }

  function TaskRules(f: Facts): seq<Recommendation> {
    if f.tasks.None? then []
    else
      var k := FirstWorthwhile(f.tasks.value, true);
      if k < |f.tasks.value| then [TaskStep(f.tasks.value[k])] else []
  }

  function LastRules(f: Facts): seq<Recommendation> {
    When(f.uninstall.Some? && f.uninstall.value > 0, Rec(Uninstall, 1, ADVICE, Low, false, 70))
  }

  function BlockerRules(f: Facts): seq<Recommendation> {
    When(Blocked(f), Rec(Blocker, 1, "wintune blockers", Medium, false, 85))
  }

  function MachineRules(f: Facts): seq<Recommendation> {
    PowerRules(f) + (MemoryRules(f) + (DiskRules(f) + (StorageRules(f) + ReliabilityRules(f))))
  }

  function ActivityRules(f: Facts): seq<Recommendation> {
    MaintenanceRules(f) + (ProcessorRules(f) + (DesktopRules(f) + BootRules(f)))
  }

  function ChoiceRules(f: Facts): seq<Recommendation> {
    BlockerRules(f) + (StartupRules(f) + (TaskRules(f) + LastRules(f)))
  }

  // Everything the rules find, in the order they run.
  function AllRules(f: Facts): seq<Recommendation> {
    MachineRules(f) + (ActivityRules(f) + (UpdateRules(f) + ChoiceRules(f)))
  }

  // ---- how many, and which ----

  // Rules of one kind exclude each other: a plan is raised or lowered, one disk
  // alarm is given, updates are mandatory or many.
  lemma FirstCounts(f: Facts)
    ensures |PowerRules(f)| <= 3 && |MemoryRules(f)| <= 3 && |DiskRules(f)| <= 2 && |StorageRules(f)| <= 1
  {
    hide DiskAlarm, VolumeIsHot, FreeIsLow, FreeIsVeryLow, Throughput, Score, MemoryIsLow, CommitIsHigh, FaultsAreHigh;
  }

  lemma NextCounts(f: Facts)
    ensures |ReliabilityRules(f)| <= 3 && |MaintenanceRules(f)| <= 4 && |ProcessorRules(f)| <= 2 && |DesktopRules(f)| <= 2
  {
    hide Score, KernelDump, ShouldEmit, CpuAlarm, GpuAlarm, AudioHeld, SearchBehind;
  }

  lemma LastCounts(f: Facts)
    ensures |BootRules(f)| <= 3 && |UpdateRules(f)| <= 3 && |BlockerRules(f)| <= 1 && |StartupRules(f)| <= 1
    ensures |TaskRules(f)| <= 1 && |LastRules(f)| <= 1
  {
    hide SlowBoots, DegradedScore, ShouldEmit, Blocked, FirstWorthwhile, StartupStep, TaskStep;
  }

  // No scan and no answer of a collector yields more than thirty.
  lemma AtMostThirty(f: Facts)
    ensures |AllRules(f)| <= 30
  {
    hide PowerRules, MemoryRules, DiskRules, StorageRules, ReliabilityRules, MaintenanceRules, ProcessorRules, DesktopRules,
      BootRules, UpdateRules, BlockerRules, StartupRules, TaskRules, LastRules;
    FirstCounts(f);
    NextCounts(f);
    LastCounts(f);
  }

  // Where an id stands in the order the rules run.
  function Place(id: RecId): int {
    match id.family
    case Power => id.number
    case Memory => 10 + id.number
    case Disk => 20 + (if id.number == 1 then 1 else if id.number == 4 then 2 else if id.number == 3 then 3
                       else if id.number == 2 then 4 else id.number)
    case Reliability => 30 + id.number
    case Maint => 40 + id.number
    case Cpu => 50 + id.number
    case Gpu => 51 + id.number
    case Audio => 60 + id.number
    case Search => 61 + id.number
    case Boot => 70 + id.number
    case Startup => if id.number == 1 then 73 else 99 + id.number
    case Update => 80 + id.number
    case Blocker => 90 + id.number
    case Tasks => 110 + id.number
    case Uninstall => 120 + id.number
  }

  // How many ids the rules of a family have.
  function Numbers(f: Family): nat {
    match f
    case Power => 4
    case Memory => 3
    case Disk => 6
    case Reliability => 3
    case Maint => 4
    case Boot => 2
    case Startup => 2
    case Update => 4
    case _ => 1
  }

  predicate Issued(id: RecId) {
    1 <= id.number <= Numbers(id.family)
  }

  lemma NumbersAreDigits(id: RecId)
    requires Issued(id)
    ensures 1 <= id.number < 10
  {
  }

  // The ids are issued ones that stand strictly later one after another, all in
  // [lo, hi).
  ghost predicate Rises(s: seq<Recommendation>, lo: int, hi: int) {
    && (forall i :: 0 <= i < |s| ==> lo <= Place(s[i].id) < hi && Issued(s[i].id))
    && (forall i, j :: 0 <= i < j < |s| ==> Place(s[i].id) < Place(s[j].id))
  }

  lemma RisesOn(a: seq<Recommendation>, b: seq<Recommendation>, lo: int, mid: int, hi: int)
    requires lo <= mid <= hi && Rises(a, lo, mid) && Rises(b, mid, hi)
    ensures Rises(a + b, lo, hi)
  {
  }

  lemma OneRises(c: bool, r: Recommendation, s: seq<Recommendation>, mid: int, hi: int)
    requires Rises(s, mid, hi) && Place(r.id) < mid <= hi && Issued(r.id)
    ensures Rises(When(c, r) + s, Place(r.id), hi)
  {
    hide Place, Issued;
  }

  lemma TwoRise(a: bool, r: Recommendation, b: bool, r': Recommendation, lo: int, hi: int)
    requires lo <= Place(r.id) < Place(r'.id) < hi && Issued(r.id) && Issued(r'.id)
    ensures Rises(When(a, r) + When(b, r'), lo, hi)
  {
    hide Place, When, Issued;
    OneRises(b, r', [], Place(r'.id) + 1, hi);
    assert When(b, r') + [] == When(b, r');
    OneRises(a, r, When(b, r'), Place(r'.id), hi);
  }

  lemma SingleRises(r: Recommendation, lo: int, hi: int)
    requires lo <= Place(r.id) < hi && Issued(r.id)
    ensures Rises([r], lo, hi) && forall c :: Rises(When(c, r), lo, hi)
  {
    hide Place, Issued;
  }

  lemma ThreeRise(a: bool, r: Recommendation, b: bool, r': Recommendation, c: bool, r'': Recommendation, lo: int, hi: int)
    requires lo <= Place(r.id) < Place(r'.id) < Place(r''.id) < hi
    requires Issued(r.id) && Issued(r'.id) && Issued(r''.id)
    ensures Rises(When(a, r) + (When(b, r') + When(c, r'')), lo, hi)
  {
    hide Place, When, Issued;
    OneRises(c, r'', [], Place(r''.id) + 1, hi);
    assert When(c, r'') + [] == When(c, r'');
    OneRises(b, r', When(c, r''), Place(r''.id), hi);
    OneRises(a, r, When(b, r') + When(c, r''), Place(r'.id), hi);
  }

  // One in front of those that follow.
  lemma OneMoreRises(a: bool, r: Recommendation, s: seq<Recommendation>, mid: int, lo: int, hi: int)
    requires lo <= Place(r.id) < mid <= hi && Issued(r.id) && Rises(s, mid, hi)
    ensures Rises(When(a, r) + s, lo, hi)
  {
    hide Place, When, Issued;
    OneRises(a, r, s, mid, hi);
  }

  lemma PowerIds(f: Facts)
    ensures PowerUp(f).id == RecId(Power, 1) && PowerDown(f).id == RecId(Power, 2)
    ensures PowerCapped(f).id == RecId(Power, 3) && PowerDrain(f).id == RecId(Power, 4)
  {
    hide Score;
  }

  lemma PowerRise(f: Facts)
    ensures Rises(PowerRules(f), 0, 10)
  {
    hide Score, When, Rises, Performance, PowerUp, PowerDown, PowerCapped, PowerDrain;
    PowerIds(f);
    var p := f.power;
    if p.ok {
      var c, d, e := p.onAc == 0 && Performance(p.scheme), p.capped, p.onAc == 0 && p.rateOk && p.discharging == 1 && p.rateMw <= -20000;
      ThreeRise(c, PowerDown(f), d, PowerCapped(f), e, PowerDrain(f), 2, 10);
      OneMoreRises(p.onAc == 1 && !Performance(p.scheme), PowerUp(f),
               When(c, PowerDown(f)) + (When(d, PowerCapped(f)) + When(e, PowerDrain(f))), 2, 0, 10);
    } else {
      NoneRise(0, 10);
    }
  }

  lemma NoneRise(lo: int, hi: int)
    ensures Rises([], lo, hi)
  {
  }

  lemma MemoryRise(f: Facts)
    ensures Rises(MemoryRules(f), 10, 20)
  {
    hide Score, When, Rises, MemoryIsLow, CommitIsHigh, FaultsAreHigh;
    ThreeRise(MemoryIsLow(f), MemoryLow(f), CommitIsHigh(f), CommitHigh(f), FaultsAreHigh(f), FaultsHigh(), 10, 20);
  }

  lemma DiskIds(f: Facts)
    ensures DiskBusy(f).id == RecId(Disk, 1) && DiskFull(f).id == RecId(Disk, 2)
    ensures DiskThroughput(f).id == RecId(Disk, 3) && VolumeBusy(f).id == RecId(Disk, 4)
  {
    hide Score, Throughput, FreeIsVeryLow;
  }

  lemma DiskRise(f: Facts)
    ensures Rises(DiskRules(f), 20, 25)
  {
    hide When, Rises, DiskAlarm, VolumeIsHot, FreeIsLow, Throughput, DiskBusy, VolumeBusy, DiskThroughput, DiskFull;
    DiskIds(f);
    var alarm, volume := DiskAlarm(f.evidence), VolumeIsHot(f);
    var c := !alarm && !volume && f.disk.throughputOk && Throughput(f.disk) >= 50.0 * MEGABYTE;
    ThreeRise(!alarm && volume, VolumeBusy(f), c, DiskThroughput(f), FreeIsLow(f), DiskFull(f), 22, 25);
    OneMoreRises(alarm, DiskBusy(f),
             When(!alarm && volume, VolumeBusy(f)) + (When(c, DiskThroughput(f)) + When(FreeIsLow(f), DiskFull(f))), 22, 20, 25);
  }

  lemma StorageRise(f: Facts)
    ensures Rises(StorageRules(f), 25, 30)
  {
    hide When, Rises;
    NoneRise(25, 30);
    SingleRises(Rec(Disk, 5, ADVICE, High, false, 90), 25, 30);
    SingleRises(Rec(Disk, 6, ADVICE, Medium, false, 70), 25, 30);
  }

  lemma ReliabilityRise(f: Facts)
    ensures Rises(ReliabilityRules(f), 30, 40)
  {
    hide When, Rises, KernelDump;
    var r := f.reliability;
    if !r.ok && !r.eventsOk && r.dumps == [] {
      NoneRise(30, 40);
    } else {
      ThreeRise(r.powerLosses + r.shutdowns >= 1, Shutdowns(f),
                r.crashes + r.hangs >= 3, Rec(Reliability, 2, ADVICE, Medium, false, 80),
                r.bugchecks >= 1 || KernelDump(r.dumps), Rec(Reliability, 3, ADVICE, High, false, 88), 30, 40);
    }
  }

  lemma MaintenanceRise(f: Facts)
    ensures Rises(MaintenanceRules(f), 40, 50)
  {
    hide When, Rises;
    var m := f.maintenance;
    if !m.ok || !m.overlap {
      NoneRise(40, 50);
    } else {
      var b, c, d := m.update && (m.cpuHot || m.diskHot), m.optimize && m.diskHot,
                     One(m.defender) + One(m.update) + One(m.optimize) >= 2;
      var r2, r3, r4 := Rec(Maint, 2, ADVICE, Medium, false, 80), Rec(Maint, 3, ADVICE, Low, false, 75), Rec(Maint, 4, ADVICE, Info, false, 70);
      ThreeRise(b, r2, c, r3, d, r4, 42, 50);
      OneMoreRises(m.defender && (m.cpuHot || m.diskHot), Rec(Maint, 1, ADVICE, Medium, false, 82),
               When(b, r2) + (When(c, r3) + When(d, r4)), 42, 40, 50);
    }
  }

  lemma ProcessorRise(f: Facts)
    ensures Rises(ProcessorRules(f), 50, 60) && Rises(DesktopRules(f), 60, 70)
  {
    hide When, Rises, Score, ShouldEmit, CpuAlarm, GpuAlarm, AudioHeld, SearchBehind;
    TwoRise(CpuAlarm(f.evidence), Rec(Cpu, 1, ADVICE, Info, false, Score(f.evidence, OfCpu, 75)),
            GpuAlarm(f), Rec(Gpu, 1, ADVICE, Info, false, Score(f.evidence, OfGpu, 70)), 50, 60);
    TwoRise(AudioHeld(f), Rec(Audio, 1, ADVICE, Info, false, Score(f.evidence, Snapshot, 70)),
            SearchBehind(f), Rec(Search, 1, ADVICE, Info, false, Score(f.evidence, Snapshot, 70)), 60, 70);
  }

  lemma BootRise(f: Facts)
    ensures Rises(BootRules(f), 70, 80)
  {
    hide When, Rises, Score, SlowBoots, DegradedScore, ShouldEmit;
    if f.evidence.bootOk {
      ThreeRise(SlowBoots(f) > 0, BootSlow(f),
                f.boot.degraded && ShouldEmit(f.evidence, OfBoot, DegradedScore(f)), BootDegraded(f),
                SlowComponent(f.boot.components) < |f.boot.components|, ComponentSlow(f), 70, 80);
    } else {
      NoneRise(70, 80);
    }
  }

  lemma UpdateRise(f: Facts)
    ensures Rises(UpdateRules(f), 80, 90)
  {
    hide When, Rises;
    var u := f.updates;
    if u.ok {
      var b, c, d := u.searched && u.mandatory > 0, u.searched && u.mandatory == 0 && u.pending >= 5, u.service == 0;
      var r2, r3, r4 := Rec(Update, 2, "wintune updates", Medium, false, 90), Rec(Update, 3, "wintune updates", Low, false, 85),
                        Rec(Update, 4, ADVICE, Low, false, 90);
      ThreeRise(b, r2, c, r3, d, r4, 82, 90);
      OneMoreRises(u.reboot, Rec(Update, 1, ADVICE, Medium, false, 95), When(b, r2) + (When(c, r3) + When(d, r4)), 82, 80, 90);
    } else {
      NoneRise(80, 90);
    }
  }

  lemma LastRise(f: Facts)
    ensures Rises(BlockerRules(f), 90, 100) && Rises(StartupRules(f), 100, 110)
    ensures Rises(TaskRules(f), 110, 120) && Rises(LastRules(f), 120, 130)
  {
    hide When, Rises, Blocked;
    SingleRises(Rec(Blocker, 1, "wintune blockers", Medium, false, 85), 90, 100);
    CandidatesRise(f);
    SingleRises(Rec(Uninstall, 1, ADVICE, Low, false, 70), 120, 130);
  }

  lemma StepIds(c: Candidate)
    ensures StartupStep(c).id == RecId(Startup, 2) && TaskStep(c).id == RecId(Tasks, 1)
  {
  }

  lemma CandidatesRise(f: Facts)
    ensures Rises(StartupRules(f), 100, 110) && Rises(TaskRules(f), 110, 120)
  {
    hide Rises, FirstWorthwhile, StartupStep, TaskStep;
    NoneRise(100, 110);
    NoneRise(110, 120);
    if StartupRules(f) != [] {
      StepIds(f.startup.value[FirstWorthwhile(f.startup.value, false)]);
      SingleRises(StartupRules(f)[0], 100, 110);
    }
    if TaskRules(f) != [] {
      StepIds(f.tasks.value[FirstWorthwhile(f.tasks.value, true)]);
      SingleRises(TaskRules(f)[0], 110, 120);
    }
  }

  lemma AllRise(f: Facts)
    ensures Rises(AllRules(f), 0, 130)
  {
    hide Rises, PowerRules, MemoryRules, DiskRules, StorageRules, ReliabilityRules, MaintenanceRules, ProcessorRules, DesktopRules,
      BootRules, UpdateRules, BlockerRules, StartupRules, TaskRules, LastRules;
    PowerRise(f);
    MemoryRise(f);
    DiskRise(f);
    StorageRise(f);
    ReliabilityRise(f);
    MaintenanceRise(f);
    ProcessorRise(f);
    BootRise(f);
    UpdateRise(f);
    LastRise(f);
    RisesOn(StorageRules(f), ReliabilityRules(f), 25, 30, 40);
    RisesOn(DiskRules(f), StorageRules(f) + ReliabilityRules(f), 20, 25, 40);
    RisesOn(MemoryRules(f), DiskRules(f) + (StorageRules(f) + ReliabilityRules(f)), 10, 20, 40);
    RisesOn(PowerRules(f), MemoryRules(f) + (DiskRules(f) + (StorageRules(f) + ReliabilityRules(f))), 0, 10, 40);
    RisesOn(DesktopRules(f), BootRules(f), 60, 70, 80);
    RisesOn(ProcessorRules(f), DesktopRules(f) + BootRules(f), 50, 60, 80);
    RisesOn(MaintenanceRules(f), ProcessorRules(f) + (DesktopRules(f) + BootRules(f)), 40, 50, 80);
    RisesOn(TaskRules(f), LastRules(f), 110, 120, 130);
    RisesOn(StartupRules(f), TaskRules(f) + LastRules(f), 100, 110, 130);
    RisesOn(BlockerRules(f), StartupRules(f) + (TaskRules(f) + LastRules(f)), 90, 100, 130);
    RisesOn(UpdateRules(f), ChoiceRules(f), 80, 90, 130);
    RisesOn(ActivityRules(f), UpdateRules(f) + ChoiceRules(f), 40, 80, 130);
    RisesOn(MachineRules(f), ActivityRules(f) + (UpdateRules(f) + ChoiceRules(f)), 0, 40, 130);
  }

  // ---- the text of an id ----

  function FamilyName(f: Family): string {
    match f
    case Power => "POWER"
    case Memory => "MEMORY"
    case Disk => "DISK"
    case Reliability => "RELIABILITY"
    case Maint => "MAINT"
    case Cpu => "CPU"
    case Gpu => "GPU"
    case Audio => "AUDIO"
    case Search => "SEARCH"
    case Boot => "BOOT"
    case Startup => "STARTUP"
    case Update => "UPDATE"
    case Blocker => "BLOCKER"
    case Tasks => "TASK"
    case Uninstall => "UNINSTALL"
  }

  function Text(id: RecId): string {
    "WT-" + (FamilyName(id.family) + ("-00" + Decimal(id.number)))
  }

  lemma NamesDiffer(a: Family, b: Family)
    requires FamilyName(a)[0] == FamilyName(b)[0] && FamilyName(a)[1] == FamilyName(b)[1]
    ensures a == b
  {
  }

  lemma NameIsLong(f: Family)
    ensures |FamilyName(f)| >= 2
  {
  }

  // Different ids are written differently.
  lemma TextIsInjective(a: RecId, b: RecId)
    requires a.number < 10 && b.number < 10 && Text(a) == Text(b)
    ensures a == b
  {
    hide FamilyName;
    NameIsLong(a.family);
    NameIsLong(b.family);
    assert Text(a)[3] == FamilyName(a.family)[0] && Text(a)[4] == FamilyName(a.family)[1];
    assert Text(b)[3] == FamilyName(b.family)[0] && Text(b)[4] == FamilyName(b.family)[1];
    NamesDiffer(a.family, b.family);
    assert Text(a)[|Text(a)| - 1] == HexDigit(a.number) && Text(b)[|Text(b)| - 1] == HexDigit(b.number);
  }

  // No id is given twice.
  lemma IdsAreDistinct(f: Facts)
    ensures var s := AllRules(f); forall i, j :: 0 <= i < j < |s| ==> Text(s[i].id) != Text(s[j].id)
  {
    hide AllRules, Text, Place, Issued;
    AllRise(f);
    var s := AllRules(f);
    forall i, j | 0 <= i < j < |s| ensures Text(s[i].id) != Text(s[j].id) {
      assert Place(s[i].id) < Place(s[j].id);
      if Text(s[i].id) == Text(s[j].id) {
        NumbersAreDigits(s[i].id);
        NumbersAreDigits(s[j].id);
        TextIsInjective(s[i].id, s[j].id);
      }
    }
  }
}
