// The read-only twin of every action, src/actions/apply_preview.c, and how far
// it predicts what the action does.

module ApplyPreview {
  import opened SafeActions
  import opened Strings
  import opened WindowsSettings

  // The summary text is left out.
  datatype Preview = Preview(
    recId: string, target: string, actionType: string, description: string, previous: string, next: string,
    wouldMutate: bool, requiresAdmin: bool, rollbackAvailable: bool, blocked: bool)

  const EMPTY := Preview("", "", "", "", "", "", false, false, false, false)

  function Named(recId: string, target: string, actionType: string): Preview {
    EMPTY.(recId := Cut(recId, 63), target := Cut(target, 279), actionType := actionType, rollbackAvailable := true)
  }

  function Described(p: Preview, note: Note): Preview {
    p.(description := Cut(note.description, 255), previous := Cut(note.previous, 255), next := Cut(note.next, 255))
  }

  function PreviewPlan(w: World, target: Scheme, os: Os): (Preview, Result) {
    if target == UnknownScheme then (EMPTY, InvalidArgument)
    else
      var cur := Current(w, os);
      var p := Named(if target == Balanced || target == PowerSaver then "WT-POWER-002" else "WT-POWER-001", "", "power_plan_change");
      if !os.collects then (p, Win32)
      else
        var note := PlanNote(target, cur, ReadPlan(w.plan, os.readsBefore), SchemeGuid(target));
        (Described(p, note).(wouldMutate := cur != target), Ok)
  }

  // The preview looks for the entry without asking for elevation.
  function PreviewStartup(w: World, id: string, enable: bool, os: Os): (Preview, Result) {
    var p := Named(if enable then "startup-enable" else "WT-STARTUP-DISABLE", id, "startup_approved");
    if id == "" then (EMPTY, InvalidArgument)
    else
      match FindStartup(w, id, os.(elevated := true))
      case Missing(code) => (p.(blocked := code == NotSupported), code)
      case Located(name, loc) =>
        var e := Located(name, loc);
        var was := Enabled(w.approved, EntrySlot(e));
        (Described(p, StartupNote(id, e, was, enable)).(requiresAdmin := loc.tag == "HKLM", wouldMutate := was != enable), Ok)
  }

  function PreviewStartupDelay(w: World, id: string, seconds: nat, os: Os): (Preview, Result) {
    var p := Named("WT-STARTUP-DELAY", id, "startup_delay");
    if id == "" || seconds == 0 then (EMPTY, InvalidArgument)
    else
      match FindStartup(w, id, os.(elevated := true))
      case Missing(code) => (p.(blocked := code == NotSupported), code)
      case Located(name, loc) =>
        (Described(p, StartupDelayNote(id, Located(name, loc), seconds)).(requiresAdmin := loc.tag == "HKLM", wouldMutate := true), Ok)
  }

  // The refusals before the task is looked for.
  function NoTasks(os: Os): Option<Result> {
    if !os.allocates then Some(OutOfMemory) else if !os.collects then Some(Win32) else None
  }

  function PreviewTask(w: World, id: string, enable: bool, os: Os): (Preview, Result) {
    var p := Named("WT-TASK-DISABLE", id, "task_enabled");
    if id == "" then (EMPTY, InvalidArgument)
    else if NoTasks(os).Some? then (p, NoTasks(os).value)
    else
      match FindWritable(w, id, false, os)
      case NoTask(code) => (p.(blocked := code == NotSupported), code)
      case Writable(key, path) =>
        var t := w.tasks[key];
        (Described(p, TaskNote(id, t.name, path, t.enabled, enable)).(wouldMutate := t.enabled != enable), Ok)
  }

  // Unlike the record, the values hold the bare number of seconds.
  function PreviewTaskDelay(w: World, id: string, seconds: nat, os: Os): (Preview, Result) {
    var p := Named("WT-TASK-DELAY", id, "task_delay");
    if id == "" || seconds == 0 then (EMPTY, InvalidArgument)
    else if NoTasks(os).Some? then (p, NoTasks(os).value)
    else
      match FindWritable(w, id, true, os)
      case NoTask(code) => (p.(blocked := code == NotSupported), code)
      case Writable(key, path) =>
        var t := w.tasks[key];
        var note := TaskDelayNote(id, t, path, seconds).(
          previous := path + "|" + Decimal(DelaySeconds(t.logonDelays)), next := path + "|" + Decimal(seconds));
        (Described(p, note).(wouldMutate := true), Ok)
  }

  function PreviewAction(w: World, action: Action, os: Os): (Preview, Result)
    requires !action.RestartAction?
  {
    match action
    case PlanAction(target) => PreviewPlan(w, target, os)
    case StartupAction(id, enable) => PreviewStartup(w, id, enable, os)
    case StartupDelayAction(id, seconds) => PreviewStartupDelay(w, id, seconds, os)
    case TaskAction(id, enable) => PreviewTask(w, id, enable, os)
    case TaskDelayAction(id, seconds) => PreviewTaskDelay(w, id, seconds, os)
  }

  function PreviewRequest(w: World, req: Request, os: Os): (Preview, Result) {
    match Dispatch(req)
    case Run(action) => PreviewAction(w, action, os)
    case Reject(code, advisory) =>
      (if advisory then EMPTY.(recId := Cut(req.recId, 63), target := Cut(req.target, 279), blocked := true) else EMPTY, code)
  }

  // ---- the previews, field by field ----

  method FillPlan(m: Machine, target: Scheme, os: Os) returns (out: Preview, r: Result)
    ensures (out, r) == PreviewPlan(m.State(), target, os)
  {
    hide SchemeGuid, SchemeOf, SchemeName;
    out := EMPTY;
    if target == UnknownScheme {
      return out, InvalidArgument;
    }
    out := out.(recId := if target == Balanced || target == PowerSaver then "WT-POWER-002" else "WT-POWER-001");
    out := out.(actionType := "power_plan_change", rollbackAvailable := true, requiresAdmin := false);
    if !os.collects {
      return out, Win32;
    }
    var cur := if os.readsPlan then SchemeOf(m.plan) else UnknownScheme;
    out := out.(previous := if os.readsBefore then Cut(m.plan, 255) else "");
    out := out.(next := Cut(SchemeGuid(target), 255));
    out := out.(description := Cut("Power plan: " + SchemeName(cur) + " -> " + SchemeName(target), 255));
    if cur == target {
      return out.(wouldMutate := false), Ok;
    }
    return out.(wouldMutate := true), Ok;
  }

  method FillStartup(m: Machine, id: string, enable: bool, os: Os) returns (out: Preview, r: Result)
    ensures (out, r) == PreviewStartup(m.State(), id, enable, os)
  {
    hide FindStartup, SlotOf, StartupValue;
    out := EMPTY;
    if id == "" {
      return out, InvalidArgument;
    }
    out := out.(recId := "WT-STARTUP-DISABLE", target := Cut(id, 279));
    if enable {
      out := out.(recId := "startup-enable");
    }
    out := out.(actionType := "startup_approved", rollbackAvailable := true);
    var e := m.Locate(id, os.(elevated := true));
    if e.Missing? {
      if e.code == NotSupported {
        out := out.(blocked := true);
      }
      return out, e.code;
    }
    out := out.(requiresAdmin := e.loc.tag == "HKLM");
    var was := Enabled(m.approved, EntrySlot(e));
    out := out.(description := Cut("Startup '" + e.name + "': " + OnOff(was) + " -> " + OnOff(enable), 255));
    out := out.(previous := Cut(StartupValue(e.loc, e.name, FlagByte(was)), 255));
    out := out.(next := Cut(StartupValue(e.loc, e.name, FlagByte(enable)), 255));
    out := out.(wouldMutate := !((enable && was) || (!enable && !was)));
    return out, Ok;
  }

  method FillStartupDelay(m: Machine, id: string, seconds: nat, os: Os) returns (out: Preview, r: Result)
    ensures (out, r) == PreviewStartupDelay(m.State(), id, seconds, os)
  {
    hide FindStartup, StartupValue, Decimal;
    out := EMPTY;
    if id == "" || seconds == 0 {
      return out, InvalidArgument;
    }
    out := out.(recId := "WT-STARTUP-DELAY", target := Cut(id, 279), actionType := "startup_delay", rollbackAvailable := true);
    var e := m.Locate(id, os.(elevated := true));
    if e.Missing? {
      if e.code == NotSupported {
        out := out.(blocked := true);
      }
      return out, e.code;
    }
    out := out.(requiresAdmin := e.loc.tag == "HKLM");
    out := out.(description := Cut("Startup delay '" + e.name + "': " + Decimal(seconds) + " s", 255));
    out := out.(previous := Cut(StartupValue(e.loc, e.name, "immediate"), 255));
    out := out.(next := Cut(StartupValue(e.loc, e.name, DelayText(seconds)), 255));
    return out.(wouldMutate := true), Ok;
  }

  method FillTask(m: Machine, id: string, enable: bool, os: Os) returns (out: Preview, r: Result)
    ensures (out, r) == PreviewTask(m.State(), id, enable, os)
  {
    hide FindTask, PathFromId;
    out := EMPTY;
    if id == "" {
      return out, InvalidArgument;
    }
    out := out.(recId := "WT-TASK-DISABLE", target := Cut(id, 279), actionType := "task_enabled", rollbackAvailable := true);
    if !os.allocates {
      return out, OutOfMemory;
    }
    if !os.collects {
      return out, Win32;
    }
    var key := FindTask(World(m.plans, m.entries, m.plan, m.approved, m.tasks, m.store), os, id);
    if key.None? {
      return out, NotFound;
    }
    var t := m.tasks[key.value];
    if t.protected {
      return out.(blocked := true), NotSupported;
    }
    var path := PathFromId(id);
    if path.None? {
      return out, InvalidArgument;
    }
    out := out.(description := Cut("Task '" + t.name + "': " + OnOff(t.enabled) + " -> " + OnOff(enable), 255));
    out := out.(previous := Cut(path.value + "|" + Bit(t.enabled), 255));
    out := out.(next := Cut(path.value + "|" + Bit(enable), 255));
    out := out.(wouldMutate := !((enable && t.enabled) || (!enable && !t.enabled)));
    return out, Ok;
  }

  method FillTaskDelay(m: Machine, id: string, seconds: nat, os: Os) returns (out: Preview, r: Result)
    ensures (out, r) == PreviewTaskDelay(m.State(), id, seconds, os)
  {
    hide FindTask, PathFromId, Decimal;
    out := EMPTY;
    if id == "" || seconds == 0 {
      return out, InvalidArgument;
    }
    out := out.(recId := "WT-TASK-DELAY", target := Cut(id, 279), actionType := "task_delay", rollbackAvailable := true);
    if !os.allocates {
      return out, OutOfMemory;
    }
    if !os.collects {
      return out, Win32;
    }
    var key := FindTask(World(m.plans, m.entries, m.plan, m.approved, m.tasks, m.store), os, id);
    if key.None? {
      return out, NotFound;
    }
    var t := m.tasks[key.value];
    if t.protected {
      return out.(blocked := true), NotSupported;
    }
    if t.logonDelays == [] {
      return out.(blocked := true), NotSupported;
    }
    var path := PathFromId(id);
    if path.None? {
      return out, InvalidArgument;
    }
    out := out.(description := Cut("Task delay '" + t.name + "': " + Decimal(seconds) + " s", 255));
    out := out.(previous := Cut(path.value + "|" + Decimal(DelaySeconds(t.logonDelays)), 255));
    out := out.(next := Cut(path.value + "|" + Decimal(seconds), 255));
    return out.(wouldMutate := true), Ok;
  }

  method FillRequest(m: Machine, req: Request, os: Os) returns (out: Preview, r: Result)
    ensures (out, r) == PreviewRequest(m.State(), req, os)
  {
    hide PreviewPlan, PreviewStartup, PreviewStartupDelay, PreviewTask, PreviewTaskDelay;
    var d := Dispatch(req);
    match d {
      case Reject(code, advisory) =>
        out := EMPTY;
        r := code;
        if advisory {
          out := out.(recId := Cut(req.recId, 63), target := Cut(req.target, 279), blocked := true);
        }
      case Run(PlanAction(target)) => out, r := FillPlan(m, target, os);
      case Run(StartupAction(id, enable)) => out, r := FillStartup(m, id, enable, os);
      case Run(StartupDelayAction(id, seconds)) => out, r := FillStartupDelay(m, id, seconds, os);
      case Run(TaskAction(id, enable)) => out, r := FillTask(m, id, enable, os);
      case Run(TaskDelayAction(id, seconds)) => out, r := FillTaskDelay(m, id, seconds, os);
    }
  }

  // ---- what a preview promises ----

  // What one look at the entries or the tasks settles for every other.
  lemma StartupLooks(w: World, id: string, os: Os, os': Os)
    ensures var e, e' := FindStartup(w, id, os.(elevated := true)), FindStartup(w, id, os');
      && e != Missing(Ok) && e' != Missing(Ok)
      && (e == Missing(NotSupported) ==> e'.Missing?)
      && (e.Located? && e'.Located? ==> e' == e)
      && (e.Located? ==> (os'.allocates && os'.collects ==>
           (e'.Located? <==> e.loc.tag != "HKLM" || os'.elevated)))
  {
    hide FindEntry, ApprovedLocation;
  }

  lemma TaskLooks(w: World, id: string, delayed: bool, os: Os, os': Os)
    ensures var t, t' := FindWritable(w, id, delayed, os), FindWritable(w, id, delayed, os');
      && t != NoTask(Ok) && t' != NoTask(Ok)
      && (t == NoTask(NotSupported) ==> t'.NoTask?)
      && (t.Writable? ==> t.key in w.tasks)
      && (t.Writable? && t'.Writable? ==> t' == t)
      && (t.Writable? && os'.collects && os'.listed == os.listed ==> t'.Writable?)
  {
    hide PathFromId, Fold;
  }

  lemma BlockedAction(w: World, action: Action, yes: bool, os: Os, os': Os)
    requires !action.RestartAction? && PreviewAction(w, action, os).0.blocked
    ensures var d := Decide(w, action, yes, os'); d.Refuse? && d.code != Ok
  {
    hide FindStartup, FindWritable, SchemeGuid, SchemeOf, SchemeName, SlotOf, StartupValue, Decimal;
    match action
    case PlanAction(_) =>
    case StartupAction(id, _) => StartupLooks(w, id, os, os');
    case StartupDelayAction(id, _) => StartupLooks(w, id, os, os');
    case TaskAction(id, _) => TaskLooks(w, id, false, os, os');
    case TaskDelayAction(id, _) => TaskLooks(w, id, true, os, os');
  }

  // Blocked: applying is refused and changes nothing, whatever Windows answers.
  lemma BlockedIsRefused(w: World, req: Request, os: Os, os': Os)
    requires PreviewRequest(w, req, os).0.blocked
    ensures Apply(w, req, os').0 == w && Apply(w, req, os').1 != Ok
  {
    hide Decide, PreviewAction, Lookup;
    var d := Dispatch(req);
    if d.Run? {
      BlockedAction(w, d.action, req.yes, os, os');
    }
  }

  lemma KeptStartup(w: World, id: string, enable: bool, yes: bool, os: Os, os': Os)
    requires var (p, r) := PreviewStartup(w, id, enable, os); r == Ok && !p.wouldMutate
    ensures !DecideStartup(w, id, enable, yes, os').Change?
  {
    hide FindStartup, SlotOf, StartupValue;
    StartupLooks(w, id, os, os');
  }

  // A power request whose current plan cannot be read when it is applied.
  predicate SetsUnread(w: World, action: Action, yes: bool, os': Os) {
    && action.PlanAction? && !os'.readsPlan && os'.collects && Confirmed(yes, os')
    && SchemeGuid(action.target) in w.plans && os'.write == Ok
  }

  lemma KeptPlan(w: World, target: Scheme, yes: bool, os: Os, os': Os)
    requires var (p, r) := PreviewPlan(w, target, os); r == Ok && !p.wouldMutate
    ensures var d := DecidePlan(w, target, yes, os');
      && (d.Change? <==> SetsUnread(w, PlanAction(target), yes, os'))
      && (d.Change? ==> d.after == w)
  {
    hide SchemeGuid, SchemeName;
  }

  lemma KeptAction(w: World, action: Action, yes: bool, os: Os, os': Os)
    requires !action.RestartAction?
    requires var (p, r) := PreviewAction(w, action, os); r == Ok && !p.wouldMutate
    ensures var d := Decide(w, action, yes, os');
      && (d.Change? <==> SetsUnread(w, action, yes, os'))
      && (d.Change? ==> d.after == w)
  {
    hide FindStartup, FindWritable, SchemeGuid, SchemeName, SlotOf, StartupValue, Decimal, PreviewPlan, DecidePlan;
    match action
    case PlanAction(target) => KeptPlan(w, target, yes, os, os');
    case StartupAction(id, enable) => KeptStartup(w, id, enable, yes, os, os');
    case StartupDelayAction(id, _) => StartupLooks(w, id, os, os');
    case TaskAction(id, _) => TaskLooks(w, id, false, os, os');
    case TaskDelayAction(id, _) => TaskLooks(w, id, true, os, os');
  }

  // Nothing to change: applying changes nothing and writes no record, except that
  // a power plan whose current one cannot be read is set again and recorded.
  lemma NoChangeIsKept(w: World, req: Request, os: Os, os': Os)
    requires var (p, r) := PreviewRequest(w, req, os); r == Ok && !p.wouldMutate
    ensures Dispatch(req).Run?
    ensures var d := Decide(w, Dispatch(req).action, req.yes, os');
      && (d.Change? <==> SetsUnread(w, Dispatch(req).action, req.yes, os'))
      && Apply(w, req, os').0 == if d.Change? then Save(w, d.note, os') else w
  {
    hide Decide, PreviewAction, Lookup, SetsUnread;
    RejectIsNotOk(req);
    KeptAction(w, Dispatch(req).action, req.yes, os, os');
  }

  // Windows answers the apply as it answered the preview, and the user agrees.
  // Only a power change asks for the current plan, three times.
  predicate Agreeing(action: Action, yes: bool, os: Os, os': Os) {
    && os'.allocates && os'.collects && os'.listed == os.listed
    && (action.PlanAction? ==> os'.readsPlan == os.readsPlan && os'.readsBefore == os.readsBefore && os'.readsAfter)
    && Confirmed(yes, os') && os'.write == Ok && os'.saves
  }

  // Task paths as they are listed fit the 255 characters of their buffer.
  ghost predicate PathsFit(w: World) {
    forall key :: key in w.tasks ==> |key| <= 255
  }

  // Some logon trigger of the task takes the delay.
  predicate TakesDelay(w: World, id: string, os': Os) {
    var t := FindWritable(w, id, true, os');
    t.Writable? && t.key in w.tasks && !AllStuck(w.tasks[t.key].logonDelays, os')
  }

  // The change is made exactly when it is elevated if it must be, the power plan
  // exists and some trigger takes the delay; then the record says what the preview
  // said, except for the values of a task delay.
  ghost predicate Predicted(w: World, p: Preview, action: Action, d: Decision, os': Os) {
    && (d.Change? <==> && (p.requiresAdmin ==> os'.elevated)
                       && (action.PlanAction? ==> SchemeGuid(action.target) in w.plans)
                       && (action.TaskDelayAction? ==> TakesDelay(w, action.id, os')))
    && (d.Change? ==>
         var r := RecordOf(d.note, os');
         && r.actionType == p.actionType && r.description == p.description
         && (!action.TaskDelayAction? ==> r.previous == p.previous && r.next == p.next))
  }

  lemma WritablePath(w: World, id: string, delayed: bool, os: Os)
    requires PathsFit(w)
    ensures var t := FindWritable(w, id, delayed, os);
            t.Writable? ==> t.path != "" && Fold(t.path) == t.key
  {
    if "task:" <= id {
      assert Fold(id)[5..] == Fold(id[5..]);
    } else if id != "" {
      assert Fold(id)[0] == FoldChar(id[0]);
    }
  }

  lemma PredictedPlan(w: World, target: Scheme, yes: bool, os: Os, os': Os)
    requires Agreeing(PlanAction(target), yes, os, os')
    requires var (p, r) := PreviewPlan(w, target, os); r == Ok && p.wouldMutate
    ensures Predicted(w, PreviewPlan(w, target, os).0, PlanAction(target), DecidePlan(w, target, yes, os'), os')
  {
    hide SchemeGuid, SchemeOf, SchemeName;
  }

  lemma PredictedStartup(w: World, id: string, enable: bool, yes: bool, os: Os, os': Os)
    requires Agreeing(StartupAction(id, enable), yes, os, os')
    requires var (p, r) := PreviewStartup(w, id, enable, os); r == Ok && p.wouldMutate
    ensures Predicted(w, PreviewStartup(w, id, enable, os).0, StartupAction(id, enable), DecideStartup(w, id, enable, yes, os'), os')
  {
    hide FindStartup, SlotOf, StartupValue;
    StartupLooks(w, id, os, os');
  }

  lemma PredictedStartupDelay(w: World, id: string, seconds: nat, yes: bool, os: Os, os': Os)
    requires Agreeing(StartupDelayAction(id, seconds), yes, os, os')
    requires var (p, r) := PreviewStartupDelay(w, id, seconds, os); r == Ok && p.wouldMutate
    ensures Predicted(w, PreviewStartupDelay(w, id, seconds, os).0, StartupDelayAction(id, seconds),
                      DecideStartupDelay(w, id, seconds, yes, os'), os')
  {
    hide FindStartup, SlotOf, StartupValue, Decimal;
    StartupLooks(w, id, os, os');
  }

  lemma PredictedTask(w: World, id: string, enable: bool, yes: bool, os: Os, os': Os)
    requires PathsFit(w) && Agreeing(TaskAction(id, enable), yes, os, os')
    requires var (p, r) := PreviewTask(w, id, enable, os); r == Ok && p.wouldMutate
    ensures Predicted(w, PreviewTask(w, id, enable, os).0, TaskAction(id, enable), DecideTask(w, id, enable, yes, os'), os')
  {
    hide FindWritable, Fold;
    TaskLooks(w, id, false, os, os');
    WritablePath(w, id, false, os');
  }

  lemma PredictedTaskDelay(w: World, id: string, seconds: nat, yes: bool, os: Os, os': Os)
    requires PathsFit(w) && Agreeing(TaskDelayAction(id, seconds), yes, os, os')
    requires var (p, r) := PreviewTaskDelay(w, id, seconds, os); r == Ok && p.wouldMutate
    ensures Predicted(w, PreviewTaskDelay(w, id, seconds, os).0, TaskDelayAction(id, seconds),
                      DecideTaskDelay(w, id, seconds, yes, os'), os')
  {
    hide FindWritable, Fold, Decimal, IsoDelay;
    TaskLooks(w, id, true, os, os');
    WritablePath(w, id, true, os');
  }

  // Something to change: see Predicted.
  lemma ChangeIsPredicted(w: World, req: Request, os: Os, os': Os)
    requires PathsFit(w)
    requires var (p, r) := PreviewRequest(w, req, os); r == Ok && p.wouldMutate
    requires Dispatch(req).Run? ==> Agreeing(Dispatch(req).action, req.yes, os, os')
    ensures Dispatch(req).Run?
    ensures Predicted(w, PreviewRequest(w, req, os).0, Dispatch(req).action, Decide(w, Dispatch(req).action, req.yes, os'), os')
  {
    hide Lookup, Predicted, Agreeing, PathsFit, PreviewPlan, PreviewStartup, PreviewStartupDelay, PreviewTask, PreviewTaskDelay,
      DecidePlan, DecideStartup, DecideStartupDelay, DecideTask, DecideTaskDelay;
    RejectIsNotOk(req);
    var d := Dispatch(req);
    match d {
      case Reject(_, _) =>
      case Run(PlanAction(target)) => PredictedPlan(w, target, req.yes, os, os');
      case Run(StartupAction(id, enable)) => PredictedStartup(w, id, enable, req.yes, os, os');
      case Run(StartupDelayAction(id, seconds)) => PredictedStartupDelay(w, id, seconds, req.yes, os, os');
      case Run(TaskAction(id, enable)) => PredictedTask(w, id, enable, req.yes, os, os');
      case Run(TaskDelayAction(id, seconds)) => PredictedTaskDelay(w, id, seconds, req.yes, os, os');
    }
  }

  lemma RejectIsNotOk(req: Request)
    ensures Dispatch(req).Reject? ==> Dispatch(req).code != Ok
  {
    hide Lookup;
  }

  // The values of a task delay are announced without "delay:": they match the
  // record only when the path leaves no room for them.
  lemma DelayValuesDiffer(w: World, id: string, seconds: nat, yes: bool, os: Os, os': Os)
    requires Agreeing(TaskDelayAction(id, seconds), yes, os, os')
    requires PreviewTaskDelay(w, id, seconds, os).1 == Ok && DecideTaskDelay(w, id, seconds, yes, os').Change?
    ensures var r := RecordOf(DecideTaskDelay(w, id, seconds, yes, os').note, os');
            var p := PreviewTaskDelay(w, id, seconds, os).0;
      && (r.previous == p.previous <==> |FindWritable(w, id, true, os).path| >= 254)
      && (r.next == p.next <==> |FindWritable(w, id, true, os).path| >= 254)
  {
    hide FindWritable, Decimal, SetLogonDelay;
    TaskLooks(w, id, true, os, os');
    var t := FindWritable(w, id, true, os);
    assert t.Writable?;
    DelayValue(t.path, DelaySeconds(w.tasks[t.key].logonDelays));
    DelayValue(t.path, seconds);
  }

  lemma DelayValue(path: string, seconds: nat)
    ensures Cut(path + "|" + DelayText(seconds), 255) == Cut(path + "|" + Decimal(seconds), 255) <==> |path| >= 254
  {
    hide Decimal;
    DecimalDigits(seconds);
    var a, b := path + "|" + DelayText(seconds), path + "|" + Decimal(seconds);
    if |path| < 254 {
      assert Cut(a, 255)[|path| + 1] == 'd' && Digit(Cut(b, 255)[|path| + 1]);
    } else {
      assert a[..255] == (path + "|")[..255] && b[..255] == (path + "|")[..255];
    }
  }
}
