// What the actions do to the settings, and what the ids of `wintune apply` stand
// for: src/actions/safe_actions.c and src/actions/action_map.c, told without the
// functions that decide it.

module ActionEffects {
  import opened ApplyPreview
  import opened SafeActions
  import opened Strings
  import opened WindowsSettings

  // ---- where a startup entry's flag lives ----

  // Registry names, without case; the RunOnce keys have no flags.
  const FLAGS := "software\\microsoft\\windows\\" + ("currentversion\\explorer\\" + "startupapproved\\")

  function FlagPlace(e: Entry): Option<Slot> {
    match e.source
    case UserRun => Some(Slot(UserHive, FLAGS + "run", Fold(e.name)))
    case MachineRun => Some(Slot(MachineHive, FLAGS + "run", Fold(e.name)))
    case UserFolder => Some(Slot(UserHive, FLAGS + "startupfolder", Fold(e.name)))
    case CommonFolder => Some(Slot(MachineHive, FLAGS + "startupfolder", Fold(e.name)))
    case UserRunOnce => None
    case MachineRunOnce => None
  }

  // Windows starts an entry unless its flag has an odd first byte.
  predicate Starts(approved: map<Slot, Flag>, slot: Slot) {
    slot !in approved || approved[slot].first % 2 == 0
  }

  lemma FoldConcat(a: string, b: string)
    ensures Fold(a + b) == Fold(a) + Fold(b)
  {
  }

  lemma FoldFront()
    ensures Fold("Software\\Microsoft\\Windows\\") == "software\\microsoft\\windows\\"
  {
  }

  lemma FoldMiddle()
    ensures Fold("CurrentVersion\\Explorer\\") == "currentversion\\explorer\\"
  {
  }

  lemma FoldBack()
    ensures Fold("StartupApproved\\Run") == "startupapproved\\run"
  {
  }

  lemma FoldFolder()
    ensures Fold("StartupApproved\\StartupFolder") == "startupapproved\\startupfolder"
  {
  }

  lemma FoldTags()
    ensures Fold("HKLM") == "hklm" && Fold("HKCU") == "hkcu"
  {
  }

  lemma FoldKeys()
    ensures Fold(APPROVED_RUN) == FLAGS + "run" && Fold(APPROVED_FOLDER) == FLAGS + "startupfolder"
  {
    hide Fold;
    FoldFront();
    FoldMiddle();
    FoldBack();
    FoldFolder();
    FoldConcat("CurrentVersion\\Explorer\\", "StartupApproved\\Run");
    FoldConcat("CurrentVersion\\Explorer\\", "StartupApproved\\StartupFolder");
    FoldConcat("Software\\Microsoft\\Windows\\", "CurrentVersion\\Explorer\\" + "StartupApproved\\Run");
    FoldConcat("Software\\Microsoft\\Windows\\", "CurrentVersion\\Explorer\\" + "StartupApproved\\StartupFolder");
    Regroup("software\\microsoft\\windows\\", "currentversion\\explorer\\", "startupapproved\\", "run");
    Regroup("software\\microsoft\\windows\\", "currentversion\\explorer\\", "startupapproved\\", "startupfolder");
    LastParts();
  }

  lemma LastParts()
    ensures "startupapproved\\" + "run" == "startupapproved\\run"
    ensures "startupapproved\\" + "startupfolder" == "startupapproved\\startupfolder"
  {
  }

  lemma Regroup(a: string, b: string, c: string, d: string)
    ensures a + (b + (c + d)) == a + (b + c) + d
  {
  }

  // The k-th entry is the one an id names: the first of that id, without case.
  predicate Names(w: World, id: string, k: nat) {
    && k < |w.entries| && Fold(w.entries[k].id) == Fold(id)
    && forall j :: 0 <= j < k ==> Fold(w.entries[j].id) != Fold(id)
  }

  lemma {:induction false} FindsFirst(entries: seq<Entry>, id: string, k: nat)
    requires k < |entries| && Fold(entries[k].id) == Fold(id)
    requires forall j :: 0 <= j < k ==> Fold(entries[j].id) != Fold(id)
    ensures FindEntry(entries, id) == Some(entries[k])
  {
    hide Fold;
    if k > 0 {
      assert Fold(entries[0].id) != Fold(id);
      forall j | 0 <= j < k - 1 ensures Fold(entries[1..][j].id) != Fold(id) {
        assert entries[1..][j] == entries[j + 1];
      }
      FindsFirst(entries[1..], id, k - 1);
    }
  }

  lemma {:induction false} FindsNone(entries: seq<Entry>, id: string)
    requires forall j :: 0 <= j < |entries| ==> Fold(entries[j].id) != Fold(id)
    ensures FindEntry(entries, id) == None
  {
    hide Fold;
    if entries != [] {
      forall j | 0 <= j < |entries| - 1 ensures Fold(entries[1..][j].id) != Fold(id) {
        assert entries[1..][j] == entries[j + 1];
      }
      assert Fold(entries[0].id) != Fold(id);
      FindsNone(entries[1..], id);
    }
  }

  // What the search for an entry comes to.
  lemma Found(w: World, id: string, k: nat, os: Os)
    requires id != "" && Names(w, id, k)
    ensures var e, place := FindStartup(w, id, os), FlagPlace(w.entries[k]);
      && (e.Located? <==> os.allocates && os.collects && place.Some? && (place.value.hive.MachineHive? ==> os.elevated))
      && (e.Missing? ==> e.code != Ok)
      && (e.Located? ==> EntrySlot(e) == place.value)
  {
    hide Fold, FLAGS;
    FindsFirst(w.entries, id, k);
    FoldKeys();
    FoldTags();
  }

  lemma NotFound(w: World, id: string, os: Os)
    requires forall k :: 0 <= k < |w.entries| ==> Fold(w.entries[k].id) != Fold(id)
    ensures FindStartup(w, id, os).Missing? && FindStartup(w, id, os).code != Ok
  {
    hide Fold;
    FindsNone(w.entries, id);
  }

  // ---- what each action does ----

  // Whatever an action answers, only records are added besides what it is for.
  lemma PlanEffect(w: World, target: Scheme, yes: bool, os: Os)
    ensures var (after, r) := Perform(w, PlanAction(target), yes, os);
      && (r == Ok <==> && target != UnknownScheme && os.collects
                       && ((os.readsPlan && w.plan == SchemeGuid(target))
                           || ((yes || os.answersYes) && SchemeGuid(target) in w.plans && os.write == Ok)))
      && after == (if r == Ok then w.(plan := SchemeGuid(target), store := after.store) else w)
  {
    hide PlanNote, RecordOf;
    SchemeOfGuid(target);
    DecidesPlan(w, target, yes, os);
  }

  lemma SchemeOfGuid(s: Scheme)
    ensures s != UnknownScheme ==> SchemeOf(SchemeGuid(s)) == s
  {
    PlanGuids();
  }

  // The four plans by the GUIDs Windows gives them.
  lemma PlanGuids()
    ensures SchemeGuid(Balanced)[..9] == "{381B4222" && SchemeGuid(HighPerformance)[..9] == "{8C5E7FDA"
    ensures SchemeGuid(PowerSaver)[..9] == "{A1841308" && SchemeGuid(Ultimate)[..9] == "{E9A42B02"
  {
  }

  lemma DecidesPlan(w: World, target: Scheme, yes: bool, os: Os)
    ensures Decide(w, PlanAction(target), yes, os) == DecidePlan(w, target, yes, os)
  {
  }

  // Nothing but the entry's flag, which is even or odd as asked.
  lemma StartupEffect(w: World, id: string, k: nat, enable: bool, yes: bool, os: Os)
    requires id != "" && Names(w, id, k)
    ensures var (after, r) := Perform(w, StartupAction(id, enable), yes, os);
            var place := FlagPlace(w.entries[k]);
      && (r == Ok <==> && os.allocates && os.collects && place.Some? && (place.value.hive.MachineHive? ==> os.elevated)
                       && (Starts(w.approved, place.value) == enable || ((yes || os.answersYes) && os.write == Ok)))
      && after == (if r == Ok then w.(approved := after.approved, store := after.store) else w)
      && (r == Ok ==> Starts(after.approved, place.value) == enable
                      && after.approved - {place.value} == w.approved - {place.value})
  {
    hide FindStartup, Names, FlagPlace, Fold, RecordOf, StartupNote;
    Found(w, id, k, os);
    var e := FindStartup(w, id, os);
  }

  // The flag is the one that delays, by the seconds asked for.
  lemma StartupDelayEffect(w: World, id: string, k: nat, seconds: nat, yes: bool, os: Os)
    requires id != "" && Names(w, id, k)
    ensures var (after, r) := Perform(w, StartupDelayAction(id, seconds), yes, os);
            var place := FlagPlace(w.entries[k]);
      && (r == Ok <==> && seconds != 0 && os.allocates && os.collects && place.Some?
                       && (place.value.hive.MachineHive? ==> os.elevated) && (yes || os.answersYes) && os.write == Ok)
      && after == (if r == Ok then w.(approved := after.approved, store := after.store) else w)
      && (r == Ok ==> after.approved == w.approved[place.value := Flag(6, seconds * 1000 % 0x1_0000_0000)])
  {
    hide FindStartup, Names, FlagPlace, Fold, RecordOf, StartupDelayNote;
    Found(w, id, k, os);
    var e := FindStartup(w, id, os);
  }

  // An id of no entry changes nothing.
  lemma NoEntryNoEffect(w: World, action: Action, id: string, yes: bool, os: Os)
    requires forall k :: 0 <= k < |w.entries| ==> Fold(w.entries[k].id) != Fold(id)
    requires action == StartupAction(id, true) || action == StartupAction(id, false)
             || (action.StartupDelayAction? && action.id == id)
    ensures var (after, r) := Perform(w, action, yes, os); after == w && r != Ok
  {
    hide FindStartup, Fold;
    NotFound(w, id, os);
  }

  lemma FoundTask(w: World, path: string, delayed: bool, os: Os)
    requires path != "" && path[0] == '\\' && |path| <= 255
    ensures var t := FindWritable(w, "task:" + path, delayed, os);
      && (t.Writable? <==> && os.collects && Fold(path) in w.tasks && Fold(path) in os.listed
                           && !w.tasks[Fold(path)].protected && (delayed ==> w.tasks[Fold(path)].logonDelays != []))
      && (t.NoTask? ==> t.code != Ok)
      && (t.Writable? ==> t.key == Fold(path) && t.path == path)
  {
    var id := "task:" + path;
    FoldConcat("task:", path);
    assert Fold("task:") == "task:";
    assert Fold(id)[5..] == Fold(path) && id[5..] == path;
  }

  // Nothing but the task's flag.
  lemma TaskEffect(w: World, path: string, enable: bool, yes: bool, os: Os)
    requires path != "" && path[0] == '\\' && |path| <= 255
    ensures var (after, r) := Perform(w, TaskAction("task:" + path, enable), yes, os);
            var key := Fold(path);
      && (r == Ok <==> && os.collects && key in w.tasks && key in os.listed && !w.tasks[key].protected
                       && (w.tasks[key].enabled == enable || ((yes || os.answersYes) && os.write == Ok)))
      && after == (if r == Ok then w.(tasks := w.tasks[key := w.tasks[key].(enabled := enable)], store := after.store) else w)
  {
    hide FindWritable, Fold, RecordOf, TaskNote;
    FoundTask(w, path, false, os);
    var key := Fold(path);
    if key in w.tasks && w.tasks[key].enabled == enable {
      assert w.tasks[key := w.tasks[key].(enabled := enable)] == w.tasks;
    }
  }

  // Nothing but the delays of its logon triggers: those that take it last the
  // seconds asked for, the others keep theirs.
  lemma TaskDelayEffect(w: World, path: string, seconds: nat, yes: bool, os: Os)
    requires path != "" && path[0] == '\\' && |path| <= 255
    ensures var (after, r) := Perform(w, TaskDelayAction("task:" + path, seconds), yes, os);
            var key := Fold(path);
      && (r == Ok <==> && seconds != 0 && os.collects && key in w.tasks && key in os.listed && !w.tasks[key].protected
                       && (yes || os.answersYes) && os.write == Ok
                       && exists i :: 0 <= i < |w.tasks[key].logonDelays| && i !in os.stuck)
      && (r != Ok ==> after == w)
      && (r == Ok ==>
           && key in after.tasks && |after.tasks[key].logonDelays| == |w.tasks[key].logonDelays|
           && after == w.(tasks := w.tasks[key := w.tasks[key].(logonDelays := after.tasks[key].logonDelays)], store := after.store)
           && forall i :: 0 <= i < |w.tasks[key].logonDelays| ==>
                if i in os.stuck then after.tasks[key].logonDelays[i] == w.tasks[key].logonDelays[i]
                else IsoDuration(after.tasks[key].logonDelays[i]) == Some(seconds))
  {
    hide FindWritable, Fold, RecordOf, TaskDelayNote, IsoDuration, IsoDelay;
    FoundTask(w, path, true, os);
    DelayStandsFor(seconds);
  }

  // Task ids have one form.
  lemma OtherTaskIds(w: World, id: string, seconds: nat, enable: bool, yes: bool, os: Os)
    requires !("task:\\" <= id)
    ensures var (after, r) := Perform(w, TaskAction(id, enable), yes, os); after == w && r != Ok
    ensures var (after, r) := Perform(w, TaskDelayAction(id, seconds), yes, os); after == w && r != Ok
  {
    NotATask(w, id, os);
    hide FindWritable;
  }

  lemma NotATask(w: World, id: string, os: Os)
    requires !("task:\\" <= id)
    ensures forall delayed :: var t := FindWritable(w, id, delayed, os); t.NoTask? && t.code != Ok
  {
    if "task:" <= id && |id| > 5 {
      assert "task:\\" == "task:" + ['\\'] && id == "task:" + id[5..];
    }
    if id != "" && id[0] == '\\' {
      assert Fold(id)[0] == '\\';
    }
  }

  // A restart changes no setting.
  lemma RestartEffect(w: World, name: string, yes: bool, os: Os)
    ensures var (after, r) := Perform(w, RestartAction(name), yes, os);
      && after == w.(store := after.store) && (r != Ok ==> after == w)
      && (r == Ok <==> && name != "" && os.elevated && os.collects && os.opens == Ok && os.queries && (yes || os.answersYes)
                       && (os.preState != "Stopped" ==> os.stops && os.hasStopped) && os.starts && os.isRunning
                       && Fold(name) !in PROTECTED_SERVICES)
  {
    hide RecordOf, RestartNote, Fold;
  }

  // The new value of a record is what the record of the way back would hold as its
  // previous one.
  lemma NewValueIsWayBack(id: string, e: Found, was: bool, enable: bool, name: string, path: string, t: Task, t': Task, seconds: nat)
    requires e.Located? && DelaySeconds(t'.logonDelays) == seconds
    ensures StartupNote(id, e, was, enable).next == StartupNote(id, e, enable, was).previous
    ensures TaskNote(id, name, path, was, enable).next == TaskNote(id, name, path, enable, was).previous
    ensures TaskDelayNote(id, t, path, seconds).next == TaskDelayNote(id, t', path, DelaySeconds(t.logonDelays)).previous
  {
    hide Decimal, DelaySeconds, StartupValue, OnOff;
  }

  // And of a startup delay, the delay in seconds.
  lemma NewDelayIs(id: string, e: Found, seconds: nat)
    requires e.Located?
    ensures StartupDelayNote(id, e, seconds).next == e.loc.tag + "|" + (e.loc.subkey + "|" + (e.name + "|" + ("delay:" + Decimal(seconds))))
  {
    hide Decimal;
  }

  // ---- what an id of `wintune apply` stands for ----

  lemma {:induction false} LooksUp(specs: seq<Spec>, id: string, k: nat)
    requires k < |specs| && id != "" && Fold(id) == specs[k].id
    requires forall j :: 0 <= j < k ==> specs[j].id != Fold(id)
    ensures Lookup(specs, id) == Some(specs[k].kind)
  {
    hide Fold;
    if k > 0 {
      assert specs[0].id != Fold(id);
      forall j | 0 <= j < k - 1 ensures specs[1..][j].id != Fold(id) {
        assert specs[1..][j] == specs[j + 1];
      }
      LooksUp(specs[1..], id, k - 1);
    }
  }

  lemma {:induction false} LooksUpNothing(specs: seq<Spec>, id: string)
    requires forall j :: 0 <= j < |specs| ==> specs[j].id != Fold(id)
    ensures Lookup(specs, id) == None
  {
    hide Fold;
    if specs != [] {
      forall j | 0 <= j < |specs| - 1 ensures specs[1..][j].id != Fold(id) {
        assert specs[1..][j] == specs[j + 1];
      }
      assert specs[0].id != Fold(id);
      LooksUpNothing(specs[1..], id);
    }
  }

  lemma SpecIds()
    ensures |SPECS| == 6 && SPECS[0].id == "wt-power-001" && SPECS[1].id == "wt-power-002"
    ensures SPECS[2].id == "wt-startup-disable" && SPECS[3].id == "wt-startup-delay"
    ensures SPECS[4].id == "wt-task-disable" && SPECS[5].id == "wt-task-delay"
  {
  }

  lemma IdsDiffer()
    ensures "wt-power-001"[11] == '1' && "wt-power-002"[11] == '2' && |"wt-power-001"| == |"wt-power-002"| == 12
    ensures |"wt-startup-disable"| == 18 && |"wt-startup-delay"| == 16 && |"wt-task-disable"| == 15 && |"wt-task-delay"| == 13
  {
  }

  // WT-POWER-001 and WT-POWER-002, in any letter case, stand for one plan each.
  lemma PowerIds(w: World, req: Request, os: Os)
    requires Fold(req.recId) == "wt-power-001" || Fold(req.recId) == "wt-power-002"
    ensures var (after, r) := Apply(w, req, os);
            var guid := if Fold(req.recId) == "wt-power-001" then "{8C5E7FDA-E8BF-4A96-9A85-A6E23A8C635C}"
                        else "{381B4222-F694-41F0-9685-FF5BB260DF2E}";
      && (r == Ok <==> os.collects && ((os.readsPlan && w.plan == guid) || ((req.yes || os.answersYes) && guid in w.plans && os.write == Ok)))
      && after == (if r == Ok then w.(plan := guid, store := after.store) else w)
  {
    hide Fold, Perform, SPECS;
    SpecIds();
    IdsDiffer();
    var k: nat := if Fold(req.recId) == "wt-power-001" then 0 else 1;
    LooksUp(SPECS, req.recId, k);
    PowerKinds();
    PlanEffect(w, SPECS[k].kind.scheme, req.yes, os);
  }

  lemma PowerKinds()
    ensures |SPECS| == 6
    ensures SPECS[0].kind.PlanKind? && SchemeGuid(SPECS[0].kind.scheme) == "{8C5E7FDA-E8BF-4A96-9A85-A6E23A8C635C}"
    ensures SPECS[1].kind.PlanKind? && SchemeGuid(SPECS[1].kind.scheme) == "{381B4222-F694-41F0-9685-FF5BB260DF2E}"
    ensures SPECS[0].kind.scheme != UnknownScheme && SPECS[1].kind.scheme != UnknownScheme
  {
  }

  // The other four by what they run on their target.
  lemma TargetIds(w: World, req: Request, os: Os)
    requires req.target != ""
    ensures Fold(req.recId) == "wt-startup-disable" ==> Apply(w, req, os) == Perform(w, StartupAction(req.target, false), req.yes, os)
    ensures Fold(req.recId) == "wt-startup-delay" ==>
      Apply(w, req, os) == Perform(w, StartupDelayAction(req.target, if req.delay == 0 then 30 else req.delay), req.yes, os)
    ensures Fold(req.recId) == "wt-task-disable" ==> Apply(w, req, os) == Perform(w, TaskAction(req.target, false), req.yes, os)
    ensures Fold(req.recId) == "wt-task-delay" ==>
      Apply(w, req, os) == Perform(w, TaskDelayAction(req.target, if req.delay == 0 then 30 else req.delay), req.yes, os)
  {
    hide Fold, Perform, SPECS;
    SpecIds();
    IdsDiffer();
    TargetKinds();
    if k: nat :| 2 <= k < 6 && Fold(req.recId) == SPECS[k].id {
      LooksUp(SPECS, req.recId, k);
    }
  }

  lemma TargetKinds()
    ensures |SPECS| == 6 && SPECS[2].kind == DisableKind && SPECS[3].kind == DelayKind(30)
    ensures SPECS[4].kind == TaskKind && SPECS[5].kind == TaskDelayKind(30)
  {
  }

  // WT-STARTUP-DISABLE: the entry no longer starts.
  lemma DisableStartupId(w: World, req: Request, k: nat, os: Os)
    requires Fold(req.recId) == "wt-startup-disable" && req.target != "" && Names(w, req.target, k)
    ensures var (after, r) := Apply(w, req, os); var place := FlagPlace(w.entries[k]);
      && after == (if r == Ok then w.(approved := after.approved, store := after.store) else w)
      && (r == Ok ==> place.Some? && !Starts(after.approved, place.value)
                      && after.approved - {place.value} == w.approved - {place.value})
      && (r == Ok <==> && os.allocates && os.collects && place.Some? && (place.value.hive.MachineHive? ==> os.elevated)
                       && (!Starts(w.approved, place.value) || ((req.yes || os.answersYes) && os.write == Ok)))
  {
    hide Perform, Apply, Fold, Names, FlagPlace, Starts;
    TargetIds(w, req, os);
    StartupEffect(w, req.target, k, false, req.yes, os);
  }

  // WT-STARTUP-DELAY: the entry starts late, thirty seconds unless told otherwise.
  lemma DelayStartupId(w: World, req: Request, k: nat, os: Os)
    requires Fold(req.recId) == "wt-startup-delay" && req.target != "" && Names(w, req.target, k)
    ensures var (after, r) := Apply(w, req, os); var place := FlagPlace(w.entries[k]);
            var ms := if req.delay == 0 then 30000 else req.delay * 1000 % 0x1_0000_0000;
      && after == (if r == Ok then w.(approved := after.approved, store := after.store) else w)
      && (r == Ok ==> place.Some? && after.approved == w.approved[place.value := Flag(6, ms)])
      && (r == Ok <==> && os.allocates && os.collects && place.Some? && (place.value.hive.MachineHive? ==> os.elevated)
                       && (req.yes || os.answersYes) && os.write == Ok)
  {
    hide Perform, Apply, Fold, Names, FlagPlace;
    TargetIds(w, req, os);
    StartupDelayEffect(w, req.target, k, if req.delay == 0 then 30 else req.delay, req.yes, os);
  }

  // WT-TASK-DISABLE: the task is disabled.
  lemma DisableTaskId(w: World, req: Request, path: string, os: Os)
    requires Fold(req.recId) == "wt-task-disable" && req.target == "task:" + path
    requires path != "" && path[0] == '\\' && |path| <= 255
    ensures var (after, r) := Apply(w, req, os); var key := Fold(path);
      && after == (if r == Ok && key in w.tasks then w.(tasks := w.tasks[key := w.tasks[key].(enabled := false)], store := after.store) else w)
      && (r == Ok <==> && os.collects && key in w.tasks && key in os.listed && !w.tasks[key].protected
                       && (!w.tasks[key].enabled || ((req.yes || os.answersYes) && os.write == Ok)))
  {
    hide Perform, Apply, Fold;
    TargetIds(w, req, os);
    TaskEffect(w, path, false, req.yes, os);
  }

  // WT-TASK-DELAY: its logon triggers wait, thirty seconds unless told otherwise.
  lemma DelayTaskId(w: World, req: Request, path: string, os: Os)
    requires Fold(req.recId) == "wt-task-delay" && req.target == "task:" + path
    requires path != "" && path[0] == '\\' && |path| <= 255
    ensures var (after, r) := Apply(w, req, os); var key := Fold(path);
      && (r != Ok ==> after == w)
      && (r == Ok <==> && os.collects && key in w.tasks && key in os.listed && !w.tasks[key].protected
                       && (req.yes || os.answersYes) && os.write == Ok
                       && exists i :: 0 <= i < |w.tasks[key].logonDelays| && i !in os.stuck)
      && (r == Ok ==>
           && key in after.tasks && |after.tasks[key].logonDelays| == |w.tasks[key].logonDelays|
           && after == w.(tasks := w.tasks[key := w.tasks[key].(logonDelays := after.tasks[key].logonDelays)], store := after.store)
           && forall i :: 0 <= i < |w.tasks[key].logonDelays| ==>
                if i in os.stuck then after.tasks[key].logonDelays[i] == w.tasks[key].logonDelays[i]
                else IsoDuration(after.tasks[key].logonDelays[i]) == Some(if req.delay == 0 then 30 else req.delay))
  {
    hide Perform, Apply, Fold, IsoDuration;
    TargetIds(w, req, os);
    TaskDelayEffect(w, path, if req.delay == 0 then 30 else req.delay, req.yes, os);
  }

  // No other id does anything, and those four do nothing without a target.
  lemma OtherIds(w: World, req: Request, os: Os)
    requires Fold(req.recId) !in {"wt-power-001", "wt-power-002"}
    requires Fold(req.recId) in {"wt-startup-disable", "wt-startup-delay", "wt-task-disable", "wt-task-delay"} ==> req.target == ""
    ensures var (after, r) := Apply(w, req, os); after == w && r != Ok
  {
    hide Fold, Perform, SPECS, ADVISORY;
    SpecIds();
    IdsDiffer();
    TargetKinds();
    if k: nat :| 2 <= k < 6 && Fold(req.recId) == SPECS[k].id {
      if req.recId != "" {
        LooksUp(SPECS, req.recId, k);
      }
    } else {
      LooksUpNothing(SPECS, req.recId);
    }
  }

  // ---- what a preview is of ----

  lemma UpperIds()
    ensures Fold("WT-POWER-001") == "wt-power-001" && Fold("WT-POWER-002") == "wt-power-002"
  {
  }

  lemma UpperStartupIds()
    ensures Fold("WT-STARTUP-DISABLE") == "wt-startup-disable" && Fold("WT-STARTUP-DELAY") == "wt-startup-delay"
  {
  }

  lemma UpperTaskIds()
    ensures Fold("WT-TASK-DISABLE") == "wt-task-disable" && Fold("WT-TASK-DELAY") == "wt-task-delay"
  {
  }

  lemma PlanPreviewNames(w: World, target: Scheme, os: Os)
    requires target in {HighPerformance, Balanced} && PreviewPlan(w, target, os).1 == Ok
    ensures var p := PreviewPlan(w, target, os).0;
      && p.recId == (if target == Balanced then "WT-POWER-002" else "WT-POWER-001")
      && p.target == "" && p.rollbackAvailable && !p.blocked
  {
    hide SchemeGuid, SchemeOf, SchemeName;
    Short("WT-POWER-001");
    Short("WT-POWER-002");
  }

  lemma Short(s: string)
    ensures |s| <= 63 ==> Cut(s, 63) == s
  {
  }

  lemma StartupPreviewNames(w: World, id: string, os: Os)
    requires PreviewStartup(w, id, false, os).1 == Ok
    ensures var p := PreviewStartup(w, id, false, os).0;
      p.recId == "WT-STARTUP-DISABLE" && p.target == Cut(id, 279) && p.rollbackAvailable && !p.blocked
  {
    hide FindStartup, StartupNote, SlotOf;
  }

  lemma StartupDelayPreviewNames(w: World, id: string, seconds: nat, os: Os)
    requires PreviewStartupDelay(w, id, seconds, os).1 == Ok
    ensures var p := PreviewStartupDelay(w, id, seconds, os).0;
      p.recId == "WT-STARTUP-DELAY" && p.target == Cut(id, 279) && p.rollbackAvailable && !p.blocked
  {
    hide FindStartup, StartupDelayNote, SlotOf;
  }

  lemma TaskPreviewNames(w: World, id: string, os: Os)
    requires PreviewTask(w, id, false, os).1 == Ok
    ensures var p := PreviewTask(w, id, false, os).0;
      p.recId == "WT-TASK-DISABLE" && p.target == Cut(id, 279) && p.rollbackAvailable && !p.blocked
  {
    hide FindWritable, TaskNote;
  }

  lemma TaskDelayPreviewNames(w: World, id: string, seconds: nat, os: Os)
    requires PreviewTaskDelay(w, id, seconds, os).1 == Ok
    ensures var p := PreviewTaskDelay(w, id, seconds, os).0;
      p.recId == "WT-TASK-DELAY" && p.target == Cut(id, 279) && p.rollbackAvailable && !p.blocked
  {
    hide FindWritable, TaskDelayNote, Decimal;
  }

  // A preview that comes off names the id and the target it was asked for and says
  // that the change can be rolled back.
  lemma PreviewNames(w: World, req: Request, os: Os)
    requires PreviewRequest(w, req, os).1 == Ok
    ensures var p := PreviewRequest(w, req, os).0;
      && Fold(p.recId) == Fold(req.recId) && p.rollbackAvailable && !p.blocked
      && p.target == (if Fold(req.recId) in {"wt-power-001", "wt-power-002"} then "" else Cut(req.target, 279))
  {
    hide Fold, SPECS, ADVISORY, Lookup, PreviewPlan, PreviewStartup, PreviewStartupDelay, PreviewTask, PreviewTaskDelay, Cut;
    RejectIsNotOk(req);
    var k := SpecOf(req);
    SpecIds();
    IdsDiffer();
    UpperIds();
    UpperStartupIds();
    UpperTaskIds();
    match Dispatch(req).action
    case PlanAction(target) => PlanPreviewNames(w, target, os);
    case StartupAction(id, _) => StartupPreviewNames(w, id, os);
    case StartupDelayAction(id, seconds) => StartupDelayPreviewNames(w, id, seconds, os);
    case TaskAction(id, _) => TaskPreviewNames(w, id, os);
    case TaskDelayAction(id, seconds) => TaskDelayPreviewNames(w, id, seconds, os);
  }

  // The entry of the table that a request runs.
  lemma SpecOf(req: Request) returns (k: nat)
    requires Dispatch(req).Run?
    ensures k < |SPECS| == 6 && Fold(req.recId) == SPECS[k].id
    ensures match k
            case 0 => Dispatch(req).action == PlanAction(HighPerformance)
            case 1 => Dispatch(req).action == PlanAction(Balanced)
            case 2 => Dispatch(req).action == StartupAction(req.target, false)
            case 3 => Dispatch(req).action.StartupDelayAction? && Dispatch(req).action.id == req.target
            case 4 => Dispatch(req).action == TaskAction(req.target, false)
            case _ => Dispatch(req).action.TaskDelayAction? && Dispatch(req).action.id == req.target
  {
    hide Fold, SPECS, ADVISORY;
    SpecIds();
    IdsDiffer();
    PlanKindsAre();
    TargetKinds();
    if forall j :: 0 <= j < 6 ==> SPECS[j].id != Fold(req.recId) {
      LooksUpNothing(SPECS, req.recId);
      assert false;
    }
    k :| 0 <= k < 6 && SPECS[k].id == Fold(req.recId);
    LooksUp(SPECS, req.recId, k);
  }

  lemma PlanKindsAre()
    ensures |SPECS| == 6 && SPECS[0].kind == PlanKind(HighPerformance) && SPECS[1].kind == PlanKind(Balanced)
  {
  }
}
