// The part of Windows that WinTune changes: the active power plan, the startup
// approval flags and the scheduled tasks, with the calls that read and write
// them. What a call to Windows answers is chosen by the caller of the model.

module WindowsSettings {
  import opened Strings

  datatype Result =
    | Ok | InvalidArgument | OutOfMemory | Win32 | AccessDenied
    | NotSupported | NotFound | Timeout | Cancelled

  // ---- power plans, by the text of their GUID ----

  datatype Scheme = UnknownScheme | Balanced | HighPerformance | PowerSaver | Ultimate

  function SchemeGuid(scheme: Scheme): string {
    match scheme
    case UnknownScheme => ""
    case Balanced => "{381B4222-F694-41F0-9685-FF5BB260DF2E}"
    case HighPerformance => "{8C5E7FDA-E8BF-4A96-9A85-A6E23A8C635C}"
    case PowerSaver => "{A1841308-3541-4FAB-BC81-F71556F20B4A}"
    case Ultimate => "{E9A42B02-D5DF-448D-AA00-03F14749EB61}"
  }

  function SchemeOf(guid: string): (r: Scheme)
    ensures !r.UnknownScheme? ==> SchemeGuid(r) == guid
  {
    if guid == SchemeGuid(Balanced) then Balanced
    else if guid == SchemeGuid(HighPerformance) then HighPerformance
    else if guid == SchemeGuid(PowerSaver) then PowerSaver
    else if guid == SchemeGuid(Ultimate) then Ultimate
    else UnknownScheme
  }

  function SchemeName(scheme: Scheme): string {
    match scheme
    case UnknownScheme => "Unknown"
    case Balanced => "Balanced"
    case HighPerformance => "High performance"
    case PowerSaver => "Power saver"
    case Ultimate => "Ultimate performance"
  }

  // ---- startup entries and their approval flags ----

  datatype Source = UserRun | MachineRun | UserRunOnce | MachineRunOnce | UserFolder | CommonFolder

  datatype Entry = Entry(id: string, name: string, source: Source)

  datatype Hive = UserHive | MachineHive

  // A registry value; key and value names are compared without case.
  datatype Slot = Slot(hive: Hive, subkey: string, name: string)

  // The first byte and the delay field of the twelve bytes.
  datatype Flag = Flag(first: nat, delayMs: nat)

  function HiveFromTag(tag: string): Hive {
    if Fold(tag) == "hklm" then MachineHive else UserHive
  }

  function SlotOf(tag: string, subkey: string, name: string): Slot {
    Slot(HiveFromTag(tag), Fold(subkey), Fold(name))
  }

  const APPROVED_RUN := "Software\\Microsoft\\Windows\\" + ("CurrentVersion\\Explorer\\" + "StartupApproved\\Run")
  const APPROVED_FOLDER :=
    "Software\\Microsoft\\Windows\\" + ("CurrentVersion\\Explorer\\" + "StartupApproved\\StartupFolder")

  datatype Location = Location(tag: string, subkey: string)

  function ApprovedLocation(source: Source): Option<Location> {
    match source
    case UserRun => Some(Location("HKCU", APPROVED_RUN))
    case MachineRun => Some(Location("HKLM", APPROVED_RUN))
    case UserFolder => Some(Location("HKCU", APPROVED_FOLDER))
    case CommonFolder => Some(Location("HKLM", APPROVED_FOLDER))
    case _ => None
  }

  // No value means enabled; otherwise the first byte is even.
  predicate Enabled(approved: map<Slot, Flag>, slot: Slot) {
    slot in approved ==> approved[slot].first % 2 == 0
  }

  function FindEntry(entries: seq<Entry>, id: string): Option<Entry> {
    if entries == [] then None
    else if Fold(entries[0].id) == Fold(id) then Some(entries[0])
    else FindEntry(entries[1..], id)
  }

  // ---- scheduled tasks ----

  // The delays of the logon triggers, as Windows keeps them.
  datatype Task = Task(name: string, protected: bool, enabled: bool, logonDelays: seq<string>)

  function DelaySeconds(delays: seq<string>): (r: nat)
    ensures r < ULONG
    ensures forall d :: d in delays ==> IsoSeconds(d) <= r
    ensures delays != [] ==> exists d :: d in delays && IsoSeconds(d) == r
  {
    if delays == [] then 0
    else
      var rest, last := DelaySeconds(delays[..|delays| - 1]), delays[|delays| - 1];
      assert forall d :: d in delays ==> d == last || d in delays[..|delays| - 1];
      if IsoSeconds(last) > rest then IsoSeconds(last)
      else if |delays| == 1 then assert IsoSeconds(last) == rest; rest
      else rest
  }

  function PathFromId(id: string): Option<string> {
    var p := if "task:" <= id then id[5..] else id;
    if p == "" || p[0] != '\\' then None else Some(Cut(p, 255))
  }

  // ---- the whole ----

  // Tasks are held by their path without case; rollback files by record id.
  datatype World = World(
    plans: set<string>, entries: seq<Entry>,
    plan: string, approved: map<Slot, Flag>, tasks: map<string, Task>,
    store: map<string, string>)

  // What Windows answers during one call.
  datatype Os = Os(
    elevated: bool, answersYes: bool, allocates: bool, collects: bool,
    readsPlan: bool, readsBefore: bool, readsAfter: bool, // the active plan: to compare, and before and after a change
    listed: set<string>,          // the tasks the enumeration reports
    opens: Result, queries: bool, preState: string, prePid: nat, postState: string, postPid: nat,
    stops: bool, hasStopped: bool, starts: bool, isRunning: bool, // a restart, step by step
    write: Result,                // the call that makes the change
    stuck: set<nat>,              // the logon triggers, by place, whose delay cannot be set
    saves: bool, id: string, timestamp: string)

  predicate Confirmed(yes: bool, os: Os) {
    yes || os.answersYes
  }

  // The key of the task an id names, if the enumeration reports it.
  function FindTask(w: World, os: Os, id: string): (r: Option<string>)
    ensures r.Some? ==> r.value in w.tasks
  {
    var f := Fold(id);
    if os.collects && "task:" <= f && f[5..] in w.tasks && f[5..] in os.listed then Some(f[5..]) else None
  }

  // ---- the calls that change something ----

  function SetPlan(w: World, guid: string, os: Os): (World, Result) {
    if guid !in w.plans then (w, NotFound)
    else if os.write != Ok then (w, os.write)
    else (w.(plan := guid), Ok)
  }

  function WriteApproved(w: World, tag: string, subkey: string, name: string, enabled: bool, os: Os): (World, Result) {
    if os.write != Ok then (w, os.write)
    else (w.(approved := w.approved[SlotOf(tag, subkey, name) := Flag(if enabled then 2 else 3, 0)]), Ok)
  }

  function WriteDelayed(w: World, tag: string, subkey: string, name: string, seconds: nat, os: Os): (World, Result) {
    if os.write != Ok then (w, os.write)
    else (w.(approved := w.approved[SlotOf(tag, subkey, name) := Flag(6, seconds * 1000 % ULONG)]), Ok)
  }

  function SetTaskEnabled(w: World, path: string, enabled: bool, os: Os): (r: (World, Result))
    ensures r.1 != Ok ==> r.0 == w
  {
    var key := Fold(path);
    if path == "" then (w, InvalidArgument)
    else if key !in w.tasks then (w, NotFound)
    else if os.write != Ok then (w, os.write)
    else (w.(tasks := w.tasks[key := w.tasks[key].(enabled := enabled)]), Ok)
  }

  function SetLogonDelay(w: World, path: string, seconds: nat, os: Os): (r: (World, Result))
    ensures r.1 != Ok ==> r.0 == w
  {
    var key := Fold(path);
    if path == "" then (w, InvalidArgument)
    else if key !in w.tasks then (w, NotFound)
    else if AllStuck(w.tasks[key].logonDelays, os) then (w, NotSupported)
    else if os.write != Ok then (w, os.write)
    else (w.(tasks := w.tasks[key := w.tasks[key].(logonDelays := Delayed(w.tasks[key].logonDelays, seconds, os))]), Ok)
  }

  // One trigger that takes the delay is enough; those that do not keep theirs.
  predicate AllStuck(delays: seq<string>, os: Os) {
    forall i :: 0 <= i < |delays| ==> i in os.stuck
  }

  function Delayed(delays: seq<string>, seconds: nat, os: Os): (r: seq<string>)
    ensures |r| == |delays|
  {
    seq(|delays|, i requires 0 <= i < |delays| => if i in os.stuck then delays[i] else IsoDelay(seconds))
  }

  // ---- when settings are the same ----

  // What is compared: what the program shows of the settings, or all that Windows
  // makes of them, the delay of a startup entry and of every trigger included.
  datatype View = Shown | Whole

  function DelayField(approved: map<Slot, Flag>, slot: Slot): nat {
    if slot in approved then approved[slot].delayMs else 0
  }

  predicate SameFlag(a: map<Slot, Flag>, b: map<Slot, Flag>, slot: Slot, view: View) {
    && Enabled(a, slot) == Enabled(b, slot)
    && (view.Whole? ==> DelayField(a, slot) == DelayField(b, slot))
  }

  // The triggers start a task after the same times.
  predicate SameDelays(a: seq<string>, b: seq<string>) {
    |a| == |b| && forall i :: 0 <= i < |a| ==> IsoDuration(a[i]) == IsoDuration(b[i])
  }

  predicate SameTask(a: Task, b: Task, view: View) {
    && a.name == b.name && a.protected == b.protected && a.enabled == b.enabled
    && DelaySeconds(a.logonDelays) == DelaySeconds(b.logonDelays)
    && (a.logonDelays == [] <==> b.logonDelays == [])
    && (view.Whole? ==> SameDelays(a.logonDelays, b.logonDelays))
  }

  // The same plan, the same startup flags, the same task flags and delays.
  ghost predicate SameSettings(a: World, b: World, view: View) {
    && a.plans == b.plans && a.entries == b.entries && a.plan == b.plan
    && (forall slot :: SameFlag(a.approved, b.approved, slot, view))
    && a.tasks.Keys == b.tasks.Keys
    && (forall k :: k in a.tasks ==> SameTask(a.tasks[k], b.tasks[k], view))
  }

  // Every trigger's delay is the one that is listed of the task.
  predicate ListedInFull(delays: seq<string>) {
    forall i :: 0 <= i < |delays| ==> IsoDuration(delays[i]) == Some(DelaySeconds(delays))
  }

  lemma {:induction false} UniformDelay(delays: seq<string>, seconds: nat)
    requires delays != [] && seconds < ULONG
    requires forall i :: 0 <= i < |delays| ==> delays[i] == IsoDelay(seconds)
    ensures DelaySeconds(delays) == seconds && ListedInFull(delays)
  {
    IsoReads(seconds);
    DelayStandsFor(seconds);
    var r := DelaySeconds(delays);
    var d :| d in delays && IsoSeconds(d) == r;
  }
}
