// The guarded changes of src/actions/safe_actions.c and their dispatch in
// src/actions/action_map.c. Each change that is made leaves a rollback record.

module SafeActions {
  import opened RollbackRecord
  import opened Strings
  import opened WindowsSettings

  datatype Action =
    | PlanAction(target: Scheme)
    | StartupAction(id: string, enable: bool)
    | StartupDelayAction(id: string, seconds: nat)
    | TaskAction(id: string, enable: bool)
    | TaskDelayAction(id: string, seconds: nat)
    | RestartAction(name: string)

  // What a record says of a change, before it is cut to its buffers.
  datatype Note = Note(actionType: string, actionId: string, description: string, previous: string, next: string)

  // Refused, nothing to do, or the state after the change and its note.
  datatype Decision = Refuse(code: Result) | Keep | Change(after: World, note: Note)

  function OnOff(enabled: bool): string {
    if enabled then "enabled" else "disabled"
  }

  function FlagByte(enabled: bool): string {
    if enabled then "02" else "03"
  }

  function Bit(b: bool): string {
    if b then "1" else "0"
  }

  function StartupValue(loc: Location, name: string, last: string): string {
    loc.tag + "|" + (loc.subkey + "|" + (name + "|" + last))
  }

  function DelayText(seconds: nat): string {
    "delay:" + Decimal(seconds)
  }

  // A change whose last call succeeded, or that call's failure.
  function Attempt(outcome: (World, Result), note: Note): Decision {
    if outcome.1 == Ok then Change(outcome.0, note) else Refuse(outcome.1)
  }

  function PlanNote(target: Scheme, cur: Scheme, previous: string, next: string): Note {
    Note("power_plan_change",
         if target == Balanced || target == PowerSaver then "WT-POWER-002" else "WT-POWER-001",
         "Power plan: " + SchemeName(cur) + " -> " + SchemeName(target), previous, next)
  }

  // The scheme that is active, as far as it can be read.
  function Current(w: World, os: Os): Scheme {
    if os.readsPlan then SchemeOf(w.plan) else UnknownScheme
  }

  function ReadPlan(plan: string, readable: bool): string {
    if readable then plan else ""
  }

  function DecidePlan(w: World, target: Scheme, yes: bool, os: Os): Decision {
    var cur := Current(w, os);
    if target == UnknownScheme then Refuse(InvalidArgument)
    else if !os.collects then Refuse(Win32)
    else if cur == target then Keep
    else if !Confirmed(yes, os) then Refuse(Cancelled)
    else Attempt(SetPlan(w, SchemeGuid(target), os), PlanNote(target, cur, ReadPlan(w.plan, os.readsBefore), ReadPlan(SchemeGuid(target), os.readsAfter)))
  }

  // The entry an id names and where its flag lives, or the refusal.
  datatype Found = Missing(code: Result) | Located(name: string, loc: Location)

  function FindStartup(w: World, id: string, os: Os): Found {
    if id == "" then Missing(InvalidArgument)
    else if !os.allocates then Missing(OutOfMemory)
    else if !os.collects then Missing(Win32)
    else
      match FindEntry(w.entries, id)
      case None => Missing(NotFound)
      case Some(e) =>
        match ApprovedLocation(e.source)
        case None => Missing(NotSupported)
        case Some(loc) => if loc.tag == "HKLM" && !os.elevated then Missing(AccessDenied) else Located(e.name, loc)
  }

  function StartupNote(id: string, e: Found, was: bool, enable: bool): Note
    requires e.Located?
  {
    Note("startup_approved", id,
         "Startup '" + e.name + "': " + OnOff(was) + " -> " + OnOff(enable),
         StartupValue(e.loc, e.name, FlagByte(was)), StartupValue(e.loc, e.name, FlagByte(enable)))
  }

  function EntrySlot(e: Found): Slot
    requires e.Located?
  {
    SlotOf(e.loc.tag, e.loc.subkey, e.name)
  }

  function DecideStartup(w: World, id: string, enable: bool, yes: bool, os: Os): Decision {
    match FindStartup(w, id, os)
    case Missing(code) => Refuse(code)
    case Located(name, loc) =>
      var e := Located(name, loc);
      var was := Enabled(w.approved, EntrySlot(e));
      if was == enable then Keep
      else if !Confirmed(yes, os) then Refuse(Cancelled)
      else Attempt(WriteApproved(w, loc.tag, loc.subkey, name, enable, os), StartupNote(id, e, was, enable))
  }

  function StartupDelayNote(id: string, e: Found, seconds: nat): Note
    requires e.Located?
  {
    Note("startup_delay", id,
         "Startup delay '" + e.name + "': " + Decimal(seconds) + " s",
         StartupValue(e.loc, e.name, "immediate"), StartupValue(e.loc, e.name, DelayText(seconds)))
  }

  function DecideStartupDelay(w: World, id: string, seconds: nat, yes: bool, os: Os): Decision {
    if seconds == 0 then Refuse(InvalidArgument)
    else
      match FindStartup(w, id, os)
      case Missing(code) => Refuse(code)
      case Located(name, loc) =>
        if !Confirmed(yes, os) then Refuse(Cancelled)
        else Attempt(WriteDelayed(w, loc.tag, loc.subkey, name, seconds, os), StartupDelayNote(id, Located(name, loc), seconds))
  }

  // The task an id names and the path it is changed by, or the refusal.
  datatype FoundTask = NoTask(code: Result) | Writable(key: string, path: string)

  function FindWritable(w: World, id: string, delayed: bool, os: Os): (r: FoundTask)
    ensures r.Writable? ==> r.key in w.tasks
  {
    if id == "" then NoTask(InvalidArgument)
    else
      match FindTask(w, os, id)
      case None => NoTask(NotFound)
      case Some(key) =>
        if w.tasks[key].protected then NoTask(NotSupported)
        else if delayed && w.tasks[key].logonDelays == [] then NoTask(NotSupported)
        else
          match PathFromId(id)
          case None => NoTask(InvalidArgument)
          case Some(path) => Writable(key, path)
  }

  function TaskNote(id: string, name: string, path: string, was: bool, enable: bool): Note {
    Note("task_enabled", id, "Task '" + name + "': " + OnOff(was) + " -> " + OnOff(enable),
         path + "|" + Bit(was), path + "|" + Bit(enable))
  }

  function DecideTask(w: World, id: string, enable: bool, yes: bool, os: Os): Decision {
    match FindWritable(w, id, false, os)
    case NoTask(code) => Refuse(code)
    case Writable(key, path) =>
      var t := w.tasks[key];
      if t.enabled == enable then Keep
      else if !Confirmed(yes, os) then Refuse(Cancelled)
      else Attempt(SetTaskEnabled(w, path, enable, os), TaskNote(id, t.name, path, t.enabled, enable))
  }

  function TaskDelayNote(id: string, t: Task, path: string, seconds: nat): Note {
    Note("task_delay", id, "Task delay '" + t.name + "': " + Decimal(seconds) + " s",
         path + "|" + DelayText(DelaySeconds(t.logonDelays)), path + "|" + DelayText(seconds))
  }

  function DecideTaskDelay(w: World, id: string, seconds: nat, yes: bool, os: Os): Decision {
    if seconds == 0 then Refuse(InvalidArgument)
    else
      match FindWritable(w, id, true, os)
      case NoTask(code) => Refuse(code)
      case Writable(key, path) =>
        if !Confirmed(yes, os) then Refuse(Cancelled)
        else Attempt(SetLogonDelay(w, path, seconds, os), TaskDelayNote(id, w.tasks[key], path, seconds))
  }

  const PROTECTED_SERVICES: seq<string> := [
    "rpcss", "dcomlaunch", "rpceptmapper", "lsm", "power", "windefend", "wdnissvc", "sense", "mpssvc", "bfe",
    "securityhealthservice", "wscsvc", "cryptsvc", "gpsvc", "schedule", "profsvc", "themes", "winmgmt",
    "eventlog", "plugplay", "wuauserv", "usosvc", "waasmedicsvc", "trustedinstaller", "msiserver"]

  function ServiceState(name: string, state: string, pid: nat): string {
    name + "|" + state + "|" + Decimal(pid)
  }

  function RestartNote(name: string, os: Os): Note {
    Note("service_restart", name,
         "Service restart '" + name + "': " + os.preState + " pid " + Decimal(os.prePid)
           + " -> " + os.postState + " pid " + Decimal(os.postPid),
         ServiceState(name, os.preState, os.prePid), ServiceState(name, os.postState, os.postPid))
  }

  // A restart changes none of the settings; its record is an audit note.
  function DecideRestart(w: World, name: string, yes: bool, os: Os): Decision {
    if name == "" then Refuse(InvalidArgument)
    else if Fold(name) in PROTECTED_SERVICES then Refuse(NotSupported)
    else if !os.elevated then Refuse(AccessDenied)
    else if !os.collects then Refuse(Win32)
    else if os.opens != Ok then Refuse(os.opens)
    else if !os.queries then Refuse(Win32)
    else if !Confirmed(yes, os) then Refuse(Cancelled)
    else if os.preState != "Stopped" && !os.stops then Refuse(Win32)
    else if os.preState != "Stopped" && !os.hasStopped then Refuse(Timeout)
    else if !os.starts then Refuse(Win32)
    else if !os.isRunning then Refuse(Timeout)
    else Change(w, RestartNote(name, os))
  }

  function Decide(w: World, action: Action, yes: bool, os: Os): Decision {
    match action
    case PlanAction(target) => DecidePlan(w, target, yes, os)
    case StartupAction(id, enable) => DecideStartup(w, id, enable, yes, os)
    case StartupDelayAction(id, seconds) => DecideStartupDelay(w, id, seconds, yes, os)
    case TaskAction(id, enable) => DecideTask(w, id, enable, yes, os)
    case TaskDelayAction(id, seconds) => DecideTaskDelay(w, id, seconds, yes, os)
    case RestartAction(name) => DecideRestart(w, name, yes, os)
  }

  // The record as its buffers hold it.
  function RecordOf(note: Note, os: Os): Record {
    Record(os.id, os.timestamp, Cut(note.actionType, 63), Cut(note.actionId, 63),
           Cut(note.description, 255), Cut(note.previous, 255), Cut(note.next, 255))
  }

  // A change stands even when its record cannot be saved.
  function Save(w: World, note: Note, os: Os): World {
    if os.saves then w.(store := w.store[os.id := FileText(RecordFields(RecordOf(note, os)))]) else w
  }

  function Perform(w: World, action: Action, yes: bool, os: Os): (World, Result) {
    match Decide(w, action, yes, os)
    case Refuse(code) => (w, code)
    case Keep => (w, Ok)
    case Change(after, note) => (Save(after, note, os), Ok)
  }

  // ---- dispatch ----

  datatype Kind = PlanKind(scheme: Scheme) | DisableKind | DelayKind(seconds: nat) | TaskKind | TaskDelayKind(seconds: nat)

  datatype Spec = Spec(id: string, kind: Kind)

  // The ids below are compared without case.
  const SPECS: seq<Spec> := [
    Spec("wt-power-001", PlanKind(HighPerformance)),
    Spec("wt-power-002", PlanKind(Balanced)),
    Spec("wt-startup-disable", DisableKind),
    Spec("wt-startup-delay", DelayKind(30)),
    Spec("wt-task-disable", TaskKind),
    Spec("wt-task-delay", TaskDelayKind(30))]

  const ADVISORY: seq<string> := [
    "wt-memory-001", "wt-memory-002", "wt-memory-003",
    "wt-disk-001", "wt-disk-002", "wt-disk-003", "wt-disk-004", "wt-disk-005",
    "wt-reliability-001", "wt-reliability-002", "wt-reliability-003",
    "wt-maint-001", "wt-maint-002", "wt-maint-003", "wt-maint-004",
    "wt-cpu-001", "wt-gpu-001", "wt-power-003", "wt-power-004", "wt-boot-001", "wt-boot-002",
    "wt-startup-001", "wt-update-001", "wt-update-002", "wt-update-003", "wt-update-004",
    "wt-blocker-001", "wt-startup-002", "wt-task-001", "wt-uninstall-001"]

  datatype Request = Request(recId: string, target: string, delay: nat, yes: bool)

  // The action a request stands for, or its refusal.
  datatype Dispatched = Run(action: Action) | Reject(code: Result, advisory: bool)

  function Lookup(specs: seq<Spec>, id: string): Option<Kind> {
    if specs == [] || id == "" then None
    else if Fold(id) == specs[0].id then Some(specs[0].kind)
    else Lookup(specs[1..], id)
  }

  function Requested(kind: Kind, req: Request): (r: Dispatched)
    ensures r.Run? ==> !r.action.RestartAction?
  {
    if kind.PlanKind? then Run(PlanAction(kind.scheme))
    else if req.target == "" then Reject(InvalidArgument, false)
    else if kind.DisableKind? then Run(StartupAction(req.target, false))
    else if kind.DelayKind? then Run(StartupDelayAction(req.target, if req.delay == 0 then kind.seconds else req.delay))
    else if kind.TaskKind? then Run(TaskAction(req.target, false))
    else Run(TaskDelayAction(req.target, if req.delay == 0 then kind.seconds else req.delay))
  }

  function Dispatch(req: Request): (r: Dispatched)
    ensures r.Run? ==> !r.action.RestartAction?
  {
    if req.recId == "" then Reject(InvalidArgument, false)
    else
      match Lookup(SPECS, req.recId)
      case Some(kind) => Requested(kind, req)
      case None => if Fold(req.recId) in ADVISORY then Reject(NotSupported, true) else Reject(NotFound, false)
  }

  function Apply(w: World, req: Request, os: Os): (World, Result) {
    match Dispatch(req)
    case Run(action) => Perform(w, action, req.yes, os)
    case Reject(code, _) => (w, code)
  }

  // ---- the machine the actions run on ----

  class Machine {
    const plans: set<string>
    const entries: seq<Entry>
    var plan: string
    var approved: map<Slot, Flag>
    var tasks: map<string, Task>
    var store: map<string, string>

    ghost function State(): World
      reads this
    {
      World(plans, entries, plan, approved, tasks, store)
    }

    constructor (w: World)
      ensures State() == w
    {
      plans, entries, plan, approved, tasks, store := w.plans, w.entries, w.plan, w.approved, w.tasks, w.store;
    }

    // wt_power_set_active_scheme and wt_power_set_active_guid_string.
    method WritePlan(guid: string, os: Os) returns (r: Result)
      modifies `plan
      ensures (State(), r) == SetPlan(old(State()), guid, os)
    {
      if guid !in plans {
        return NotFound;
      }
      if os.write == Ok {
        plan := guid;
      }
      return os.write;
    }

    // wt_startup_write_approved and wt_startup_write_delayed.
    method WriteFlag(tag: string, subkey: string, name: string, flag: Flag, os: Os) returns (r: Result)
      modifies `approved
      ensures r == os.write
      ensures approved == if r == Ok then old(approved)[SlotOf(tag, subkey, name) := flag] else old(approved)
    {
      if os.write == Ok {
        approved := approved[SlotOf(tag, subkey, name) := flag];
      }
      return os.write;
    }

    // wt_task_set_enabled.
    method WriteTaskEnabled(path: string, enabled: bool, os: Os) returns (r: Result)
      modifies `tasks
      ensures (State(), r) == SetTaskEnabled(old(State()), path, enabled, os)
    {
      var key := Fold(path);
      if path == "" {
        return InvalidArgument;
      }
      if key !in tasks {
        return NotFound;
      }
      if os.write == Ok {
        tasks := tasks[key := tasks[key].(enabled := enabled)];
      }
      return os.write;
    }

    // wt_task_set_logon_delay: every logon trigger that can takes the delay.
    method WriteLogonDelay(path: string, seconds: nat, os: Os) returns (r: Result)
      modifies `tasks
      ensures (State(), r) == SetLogonDelay(old(State()), path, seconds, os)
    {
      var key := Fold(path);
      if path == "" {
        return InvalidArgument;
      }
      if key !in tasks {
        return NotFound;
      }
      var triggers := tasks[key].logonDelays;
      var updated := false;
      for i := 0 to |triggers|
        invariant |triggers| == |tasks[key].logonDelays|
        invariant updated <==> exists j :: 0 <= j < i && j !in os.stuck
        invariant forall j :: 0 <= j < i ==> triggers[j] == if j in os.stuck then tasks[key].logonDelays[j] else IsoDelay(seconds)
        invariant forall j :: i <= j < |triggers| ==> triggers[j] == tasks[key].logonDelays[j]
      {
        if i !in os.stuck {
          triggers := triggers[i := IsoDelay(seconds)];
          updated := true;
        }
      }
      if !updated {
        return NotSupported;
      }
      if os.write == Ok {
        assert triggers == Delayed(tasks[key].logonDelays, seconds, os);
        tasks := tasks[key := tasks[key].(logonDelays := triggers)];
      }
      return os.write;
    }

    // wt_rollback_write. A failure is only logged.
    method WriteRollback(note: Note, os: Os)
      modifies `store
      ensures State() == Save(old(State()), note, os)
    {
      if os.saves {
        store := store[os.id := FileText(RecordFields(RecordOf(note, os)))];
      }
    }

    method SetPowerPlan(target: Scheme, yes: bool, os: Os) returns (r: Result)
      modifies this
      ensures (State(), r) == Perform(old(State()), PlanAction(target), yes, os)
    {
      hide DecideStartup, DecideStartupDelay, DecideTask, DecideTaskDelay, DecideRestart;
      hide SchemeGuid, SchemeOf, PlanNote, ReadPlan, FileText, RecordFields, RecordOf;
      if target == UnknownScheme {
        return InvalidArgument;
      }
      if !os.collects {
        return Win32;
      }
      var cur := if os.readsPlan then SchemeOf(plan) else UnknownScheme;
      if cur == target {
        return Ok;
      }
      var previous := ReadPlan(plan, os.readsBefore);
      if !Confirmed(yes, os) {
        return Cancelled;
      }
      r := WritePlan(SchemeGuid(target), os);
      if r != Ok {
        return;
      }
      WriteRollback(PlanNote(target, cur, previous, ReadPlan(plan, os.readsAfter)), os);
    }

    method Locate(id: string, os: Os) returns (found: Found)
      ensures found == FindStartup(State(), id, os)
    {
      if id == "" {
        return Missing(InvalidArgument);
      }
      if !os.allocates {
        return Missing(OutOfMemory);
      }
      if !os.collects {
        return Missing(Win32);
      }
      var i := 0;
      while i < |entries| && Fold(entries[i].id) != Fold(id)
        invariant i <= |entries| && FindEntry(entries[i..], id) == FindEntry(entries, id)
      {
        assert entries[i..][1..] == entries[i + 1..];
        i := i + 1;
      }
      if i == |entries| {
        return Missing(NotFound);
      }
      var loc := ApprovedLocation(entries[i].source);
      if loc.None? {
        return Missing(NotSupported);
      }
      if loc.value.tag == "HKLM" && !os.elevated {
        return Missing(AccessDenied);
      }
      return Located(entries[i].name, loc.value);
    }

    method SetStartupEnabled(id: string, enable: bool, yes: bool, os: Os) returns (r: Result)
      modifies this
      ensures (State(), r) == Perform(old(State()), StartupAction(id, enable), yes, os)
    {
      hide DecidePlan, DecideStartupDelay, DecideTask, DecideTaskDelay, DecideRestart;
      hide FindStartup, FileText, RecordFields, RecordOf, SlotOf;
      var e := Locate(id, os);
      if e.Missing? {
        return e.code;
      }
      var was := Enabled(approved, EntrySlot(e));
      if (enable && was) || (!enable && !was) {
        return Ok;
      }
      if !Confirmed(yes, os) {
        return Cancelled;
      }
      r := WriteFlag(e.loc.tag, e.loc.subkey, e.name, Flag(if enable then 2 else 3, 0), os);
      if r == Ok {
        WriteRollback(StartupNote(id, e, was, enable), os);
      }
    }

    method SetStartupDelay(id: string, seconds: nat, yes: bool, os: Os) returns (r: Result)
      modifies this
      ensures (State(), r) == Perform(old(State()), StartupDelayAction(id, seconds), yes, os)
    {
      hide DecidePlan, DecideStartup, DecideTask, DecideTaskDelay, DecideRestart;
      hide FindStartup, FileText, RecordFields, RecordOf, SlotOf;
      if seconds == 0 {
        return InvalidArgument;
      }
      var e := Locate(id, os);
      if e.Missing? {
        return e.code;
      }
      if !Confirmed(yes, os) {
        return Cancelled;
      }
      r := WriteFlag(e.loc.tag, e.loc.subkey, e.name, Flag(6, seconds * 1000 % ULONG), os);
      if r == Ok {
        WriteRollback(StartupDelayNote(id, e, seconds), os);
      }
    }

    method LocateTask(id: string, delayed: bool, os: Os) returns (found: FoundTask)
      ensures found == FindWritable(State(), id, delayed, os)
    {
      hide FindTask, PathFromId;
      if id == "" {
        return NoTask(InvalidArgument);
      }
      var key := FindTask(World(plans, entries, plan, approved, tasks, store), os, id);
      if key.None? {
        return NoTask(NotFound);
      }
      if tasks[key.value].protected {
        return NoTask(NotSupported);
      }
      if delayed && tasks[key.value].logonDelays == [] {
        return NoTask(NotSupported);
      }
      var path := PathFromId(id);
      if path.None? {
        return NoTask(InvalidArgument);
      }
      return Writable(key.value, path.value);
    }

    method SetEnabled(id: string, enable: bool, yes: bool, os: Os) returns (r: Result)
      modifies this
      ensures (State(), r) == Perform(old(State()), TaskAction(id, enable), yes, os)
    {
      hide DecidePlan, DecideStartup, DecideStartupDelay, DecideTaskDelay, DecideRestart;
      hide FindWritable, SetTaskEnabled, FileText, RecordFields, RecordOf;
      var found := LocateTask(id, false, os);
      if found.NoTask? {
        return found.code;
      }
      var t := tasks[found.key];
      if (enable && t.enabled) || (!enable && !t.enabled) {
        return Ok;
      }
      if !Confirmed(yes, os) {
        return Cancelled;
      }
      r := WriteTaskEnabled(found.path, enable, os);
      if r == Ok {
        WriteRollback(TaskNote(id, t.name, found.path, t.enabled, enable), os);
      }
    }

    method SetDelay(id: string, seconds: nat, yes: bool, os: Os) returns (r: Result)
      modifies this
      ensures (State(), r) == Perform(old(State()), TaskDelayAction(id, seconds), yes, os)
    {
      hide DecidePlan, DecideStartup, DecideStartupDelay, DecideTask, DecideRestart;
      hide FindWritable, SetLogonDelay, FileText, RecordFields, RecordOf;
      if seconds == 0 {
        return InvalidArgument;
      }
      var found := LocateTask(id, true, os);
      if found.NoTask? {
        return found.code;
      }
      var t := tasks[found.key];
      if !Confirmed(yes, os) {
        return Cancelled;
      }
      r := WriteLogonDelay(found.path, seconds, os);
      if r == Ok {
        WriteRollback(TaskDelayNote(id, t, found.path, seconds), os);
      }
    }

    method RestartService(name: string, yes: bool, os: Os) returns (r: Result)
      modifies `store
      ensures (State(), r) == Perform(old(State()), RestartAction(name), yes, os)
    {
      hide DecidePlan, DecideStartup, DecideStartupDelay, DecideTask, DecideTaskDelay;
      hide FileText, RecordFields, RecordOf, ServiceState;
      if name == "" {
        return InvalidArgument;
      }
      if Fold(name) in PROTECTED_SERVICES {
        return NotSupported;
      }
      if !os.elevated {
        return AccessDenied;
      }
      if !os.collects {
        return Win32;
      }
      if os.opens != Ok {
        return os.opens;
      }
      if !os.queries {
        return Win32;
      }
      if !Confirmed(yes, os) {
        return Cancelled;
      }
      r := Ok;
      if os.preState != "Stopped" {
        if !os.stops {
          r := Win32;
        } else if !os.hasStopped {
          r := Timeout;
        }
      }
      if r == Ok {
        if !os.starts {
          r := Win32;
        } else if !os.isRunning {
          r := Timeout;
        } else {
          WriteRollback(RestartNote(name, os), os);
        }
      }
    }

    // wt_apply_from_request.
    method ApplyRequest(req: Request, os: Os) returns (r: Result)
      modifies this
      ensures (State(), r) == Apply(old(State()), req, os)
    {
      var d := Dispatch(req);
      match d {
        case Reject(code, _) => r := code;
        case Run(PlanAction(target)) => r := SetPowerPlan(target, req.yes, os);
        case Run(StartupAction(id, enable)) => r := SetStartupEnabled(id, enable, req.yes, os);
        case Run(StartupDelayAction(id, seconds)) => r := SetStartupDelay(id, seconds, req.yes, os);
        case Run(TaskAction(id, enable)) => r := SetEnabled(id, enable, req.yes, os);
        case Run(TaskDelayAction(id, seconds)) => r := SetDelay(id, seconds, req.yes, os);
        case Run(RestartAction(name)) => assert false;
      }
    }
  }
}
