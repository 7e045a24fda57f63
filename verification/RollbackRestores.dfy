// Replaying the records of a run newest first brings the settings back.

module RollbackRestores {
  import opened RollbackRecord
  import opened RollbackReplay
  import opened SafeActions
  import opened Strings
  import opened WindowsSettings

  // ---- overwriting what a change wrote ----

  lemma OverwriteFlag(w: World, slot: Slot, written: Flag, w2: World, flag: Flag, view: View)
    requires SameSettings(w2, w.(approved := w.approved[slot := written]), view)
    requires flag.first % 2 == 0 <==> Enabled(w.approved, slot)
    requires view.Whole? ==> flag.delayMs == DelayField(w.approved, slot)
    ensures SameSettings(w2.(approved := w2.approved[slot := flag]), w, view)
  {
    hide SameTask;
    var w1, w3 := w.(approved := w.approved[slot := written]), w2.(approved := w2.approved[slot := flag]);
    forall s ensures SameFlag(w3.approved, w.approved, s, view) {
      assert SameFlag(w2.approved, w1.approved, s, view);
    }
  }

  lemma OverwriteTask(w: World, key: string, written: Task, w2: World, task: Task, view: View)
    requires key in w.tasks && SameTask(task, w.tasks[key], view)
    requires SameSettings(w2, w.(tasks := w.tasks[key := written]), view)
    ensures SameSettings(w2.(tasks := w2.tasks[key := task]), w, view)
  {
    hide Enabled, SameTask;
    var w1, w3 := w.(tasks := w.tasks[key := written]), w2.(tasks := w2.tasks[key := task]);
    assert w1.tasks.Keys == w.tasks.Keys && w3.tasks.Keys == w2.tasks.Keys;
    forall k | k in w3.tasks ensures SameTask(w3.tasks[k], w.tasks[k], view) {
      assert SameTask(w2.tasks[k], w1.tasks[k], view);
    }
  }

  // ---- undoing one change ----

  // Text that a record field carries whole and gives back.
  predicate Carried(s: string) {
    s != "" && '|' !in s && Legible(s)
  }

  // What must hold of a change for its record to undo it: that its fields are
  // carried whole and, where all that Windows keeps is to come back, that the entry
  // had no delay and the task's triggers the one that is listed.
  predicate Undoable(w: World, action: Action, os: Os, view: View) {
    && os.saves && os.id !in w.store && Stamp(os.id) && Stamp(os.timestamp)
    && match action
       case PlanAction(target) => os.readsBefore && w.plan in w.plans && Legible(w.plan) && |w.plan| <= 255
       case StartupAction(id, enable) =>
         SafeId(id) && (var e := FindStartup(w, id, os);
         e.Located? ==> Carried(e.name) && |e.name| < 128 && (view.Whole? ==> DelayField(w.approved, EntrySlot(e)) == 0))
       case StartupDelayAction(id, seconds) =>
         SafeId(id) && (var e := FindStartup(w, id, os);
         e.Located? ==> && Carried(e.name) && |e.name| < 128 && Enabled(w.approved, EntrySlot(e))
                        && (view.Whole? ==> DelayField(w.approved, EntrySlot(e)) == 0))
       case TaskAction(id, enable) =>
         SafeId(id) && (var t := FindWritable(w, id, false, os);
         t.Writable? ==> Carried(t.path) && |t.path| <= 253 && |w.tasks[t.key].name| < 128)
       case TaskDelayAction(id, seconds) =>
         SafeId(id) && (var t := FindWritable(w, id, true, os);
         t.Writable? ==> (
           && Carried(t.path) && |w.tasks[t.key].name| < 128
           && |t.path + "|" + DelayText(DelaySeconds(w.tasks[t.key].logonDelays))| <= 255
           && (view.Whole? ==> ListedInFull(w.tasks[t.key].logonDelays))))
       case RestartAction(name) => SafeId(name)
  }

  // w2 shows the settings that the change left, and still has its record.
  ghost predicate Later(w2: World, after: World, note: Note, os: Os, view: View) {
    && SameSettings(w2, after, view)
    && os.id in w2.store && w2.store[os.id] == FileText(RecordFields(RecordOf(note, os)))
  }

  // An answer under which a replay goes through, on every trigger of a task.
  predicate Willing(yes: bool, os: Os) {
    GoesThrough(yes, os) && os.stuck == {}
  }

  lemma LegibleConcat(a: string, b: string)
    requires Legible(a) && Legible(b)
    ensures Legible(a + b)
  {
  }

  lemma ReplayIsUndo(w2: World, after: World, note: Note, os: Os, yes: bool, os2: Os, view: View)
    requires Later(w2, after, note, os, view) && Willing(yes, os2)
    requires Stamp(os.id) && Stamp(os.timestamp) && SafeId(note.actionId) && note.actionType in UNDOABLE
    requires !Clash(Cut(note.description, 255), "previous_value") && Legible(note.previous) && |note.previous| <= 255
    ensures Replay(w2, os.id, yes, os2) == Undo(w2, note.actionType, note.previous, os2)
  {
    hide FileText, RecordFields, RecordOf, Clash, Legible, SafeId, Get, Undo, SameSettings;
    RecordReads(note, os);
  }

  lemma PlanIdIsSafe(id: string)
    requires id == "WT-POWER-001" || id == "WT-POWER-002"
    ensures SafeId(id)
  {
    assert NoQuote(id);
    NoQuoteNoClash(id, "action_type");
    NoQuoteNoClash(id, "previous_value");
  }

  lemma SchemeNameIsPlain(s: Scheme)
    ensures NoQuote(SchemeName(s)) && |SchemeName(s)| <= 20
  {
  }

  lemma PlanDescription(from: Scheme, to: Scheme)
    ensures !Clash(Cut("Power plan: " + SchemeName(from) + " -> " + SchemeName(to), 255), "previous_value")
  {
    hide SchemeName;
    SchemeNameIsPlain(from);
    SchemeNameIsPlain(to);
    var d := "Power plan: " + SchemeName(from) + " -> " + SchemeName(to);
    assert d[0] == 'P' && NoQuote(d);
    NoQuoteNoClash(d, "previous_value");
  }

  lemma UndoPlan(w: World, target: Scheme, yes: bool, os: Os, w2: World, yes2: bool, os2: Os, view: View)
    requires Undoable(w, PlanAction(target), os, view) && DecidePlan(w, target, yes, os).Change?
    requires var d := DecidePlan(w, target, yes, os); Later(w2, d.after, d.note, os, view)
    requires Willing(yes2, os2)
    ensures var (w3, r) := Replay(w2, os.id, yes2, os2);
            r == Ok && w3.store == w2.store && SameSettings(w3, w, view)
  {
    hide SchemeGuid, SchemeOf, SchemeName, Enabled, SameTask, FileText, RecordFields, Get, Replay, Clash, Legible, Stamp;
    var d := DecidePlan(w, target, yes, os);
    PlanDescription(Current(w, os), target);
    PlanIdIsSafe(d.note.actionId);
    ReplayIsUndo(w2, d.after, d.note, os, yes2, os2, view);
  }

  // The written flag, taken apart.
  lemma StartupTokens(loc: Location, name: string, last: string)
    requires loc.tag != "" && '|' !in loc.tag && loc.subkey != "" && '|' !in loc.subkey
    requires name != "" && '|' !in name && last != "" && '|' !in last
    ensures Tokens(StartupValue(loc, name, last), 4) == [loc.tag, loc.subkey, name, last]
  {
    hide Tokens;
    TokenFirst(name, last, 2);
    TokenFirst(last, "", 1);
    TokenFirst(loc.subkey, name + "|" + last, 3);
    assert loc.subkey + "|" + (name + "|" + last) == loc.subkey + "|" + name + "|" + last;
    TokenFirst(loc.tag, loc.subkey + "|" + (name + "|" + last), 4);
    assert StartupValue(loc, name, last) == loc.tag + "|" + (loc.subkey + "|" + (name + "|" + last));
  }

  lemma LocationText(source: Source)
    ensures var l := ApprovedLocation(source);
            l.Some? ==> && Carried(l.value.tag) && Carried(l.value.subkey) && |l.value.tag| == 4 && |l.value.subkey| <= 80
  {
    hide Carried;
    KeyFront();
    KeyMiddle();
    KeyBack();
    KeyFolder();
    CarriedConcat("CurrentVersion\\", "Explorer\\");
    CarriedConcat("StartupApproved\\", "Run");
    CarriedConcat("StartupApproved\\", "StartupFolder");
    assert "CurrentVersion\\" + "Explorer\\" == "CurrentVersion\\Explorer\\";
    assert "StartupApproved\\" + "Run" == "StartupApproved\\Run";
    assert "StartupApproved\\" + "StartupFolder" == "StartupApproved\\StartupFolder";
    CarriedConcat("CurrentVersion\\Explorer\\", "StartupApproved\\Run");
    CarriedConcat("Software\\Microsoft\\Windows\\", "CurrentVersion\\Explorer\\" + "StartupApproved\\Run");
    CarriedConcat("CurrentVersion\\Explorer\\", "StartupApproved\\StartupFolder");
    CarriedConcat("Software\\Microsoft\\Windows\\", "CurrentVersion\\Explorer\\" + "StartupApproved\\StartupFolder");
  }

  lemma KeyFront()
    ensures Carried("HKCU") && Carried("HKLM") && Carried("Software\\Microsoft\\Windows\\")
  {
  }

  lemma KeyMiddle()
    ensures Carried("CurrentVersion\\") && Carried("Explorer\\")
  {
  }

  lemma KeyBack()
    ensures Carried("StartupApproved\\") && Carried("Run")
  {
  }

  lemma KeyFolder()
    ensures Carried("StartupFolder")
  {
  }

  lemma CarriedConcat(a: string, b: string)
    requires Carried(a) && Carried(b)
    ensures Carried(a + b)
  {
  }

  lemma BarIsLegible()
    ensures Legible("|")
  {
  }

  lemma StartupValueText(loc: Location, name: string, last: string)
    requires Carried(loc.tag) && Carried(loc.subkey) && |loc.tag| == 4 && |loc.subkey| <= 80
    requires |name| < 128 && Carried(last) && |last| < 10
    ensures |StartupValue(loc, name, last)| <= 255
    ensures Legible(name) ==> Legible(StartupValue(loc, name, last))
  {
    if !Legible(name) {
      return;
    }
    hide Legible;
    BarIsLegible();
    LegibleConcat("|", last);
    LegibleConcat(name, "|" + last);
    assert name + ("|" + last) == name + "|" + last;
    LegibleConcat("|", name + "|" + last);
    LegibleConcat(loc.subkey, "|" + (name + "|" + last));
    assert loc.subkey + ("|" + (name + "|" + last)) == loc.subkey + "|" + (name + "|" + last);
    LegibleConcat("|", loc.subkey + "|" + (name + "|" + last));
    LegibleConcat(loc.tag, "|" + (loc.subkey + "|" + (name + "|" + last)));
    assert StartupValue(loc, name, last) == loc.tag + ("|" + (loc.subkey + "|" + (name + "|" + last)));
  }

  // What the search for an entry settles about where its flag lives.
  lemma FoundLocation(w: World, id: string, os: Os)
    ensures var e := FindStartup(w, id, os);
            e.Located? ==> && Carried(e.loc.tag) && Carried(e.loc.subkey) && |e.loc.tag| == 4 && |e.loc.subkey| <= 80
  {
    hide Carried, ApprovedLocation, FindEntry;
    if FindStartup(w, id, os).Located? {
      LocationText(FindEntry(w.entries, id).value.source);
    }
  }

  lemma FlagBytes()
    ensures Carried("02") && Carried("03") && Carried("immediate")
  {
  }

  lemma StartupDescription(name: string, was: bool, enable: bool)
    requires |name| < 128
    ensures !Clash(Cut("Startup '" + name + "': " + OnOff(was) + " -> " + OnOff(enable), 255), "previous_value")
  {
    hide Clash;
    var d := "Startup '" + name + "': " + OnOff(was) + " -> " + OnOff(enable);
    assert d[|d| - 1] == 'd' && "previous_value"[13] == 'e';
    LastDiffersNoClash(d, "previous_value");
  }

  lemma UndoStartup(w: World, id: string, enable: bool, yes: bool, os: Os, w2: World, yes2: bool, os2: Os, view: View)
    requires Undoable(w, StartupAction(id, enable), os, view) && DecideStartup(w, id, enable, yes, os).Change?
    requires var d := DecideStartup(w, id, enable, yes, os); Later(w2, d.after, d.note, os, view)
    requires Willing(yes2, os2)
    ensures var (w3, r) := Replay(w2, os.id, yes2, os2);
            r == Ok && w3.store == w2.store && SameSettings(w3, w, view)
  {
    hide FindStartup, Enabled, SameTask, FileText, RecordFields, Get, Replay, Clash, Legible, Stamp, SafeId, Tokens, SameSettings, SlotOf;
    var d := DecideStartup(w, id, enable, yes, os);
    var e := FindStartup(w, id, os);
    var was := Enabled(w.approved, EntrySlot(e));
    FoundLocation(w, id, os);
    FlagBytes();
    StartupDescription(e.name, was, enable);
    StartupValueText(e.loc, e.name, FlagByte(was));
    ReplayIsUndo(w2, d.after, d.note, os, yes2, os2, view);
    StartupTokens(e.loc, e.name, FlagByte(was));
    OverwriteFlag(w, EntrySlot(e), Flag(if enable then 2 else 3, 0), w2, Flag(if was then 2 else 3, 0), view);
  }

  lemma DelayDescription(start: string, name: string, seconds: nat)
    requires |start| < 20 && |name| < 128
    ensures !Clash(Cut(start + name + "': " + Decimal(seconds) + " s", 255), "previous_value")
  {
    hide Clash, Decimal;
    DecimalDigits(seconds);
    var front, back := start + name + "': ", Decimal(seconds) + " s";
    var d := front + back;
    assert d == start + name + "': " + Decimal(seconds) + " s";
    assert forall i :: 0 <= i < |back| ==> Digit(back[i]) || back[i] == ' ' || back[i] == 's';
    var c := Cut(d, 255);
    assert c[|c| - 1] == back[|c| - 1 - |front|] && "previous_value"[13] == 'e';
    LastDiffersNoClash(c, "previous_value");
  }

  lemma UndoStartupDelay(w: World, id: string, seconds: nat, yes: bool, os: Os, w2: World, yes2: bool, os2: Os, view: View)
    requires Undoable(w, StartupDelayAction(id, seconds), os, view) && DecideStartupDelay(w, id, seconds, yes, os).Change?
    requires var d := DecideStartupDelay(w, id, seconds, yes, os); Later(w2, d.after, d.note, os, view)
    requires Willing(yes2, os2)
    ensures var (w3, r) := Replay(w2, os.id, yes2, os2);
            r == Ok && w3.store == w2.store && SameSettings(w3, w, view)
  {
    hide FindStartup, Enabled, SameTask, FileText, RecordFields, Get, Replay, Clash, Legible, Stamp, SafeId, Tokens, SameSettings, SlotOf;
    var d := DecideStartupDelay(w, id, seconds, yes, os);
    var e := FindStartup(w, id, os);
    FoundLocation(w, id, os);
    FlagBytes();
    DelayDescription("Startup delay '", e.name, seconds);
    StartupValueText(e.loc, e.name, "immediate");
    ReplayIsUndo(w2, d.after, d.note, os, yes2, os2, view);
    StartupTokens(e.loc, e.name, "immediate");
    OverwriteFlag(w, EntrySlot(e), Flag(6, seconds * 1000 % ULONG), w2, Flag(2, 0), view);
  }

  lemma FoundTask(w: World, id: string, delayed: bool, os: Os)
    ensures var t := FindWritable(w, id, delayed, os);
            t.Writable? ==> (
              && t.key in w.tasks && t.path != "" && (|t.path| < 255 ==> Fold(t.path) == t.key)
              && (delayed ==> w.tasks[t.key].logonDelays != []))
  {
    if "task:" <= id {
      assert Fold(id)[5..] == Fold(id[5..]);
    } else if id != "" {
      assert Fold(id)[0] == FoldChar(id[0]);
    }
  }

  lemma TaskTokens(path: string, bit: string)
    requires path != "" && '|' !in path && bit != "" && '|' !in bit
    ensures Tokens(path + "|" + bit, 2) == [path, bit]
  {
    hide Tokens;
    TokenFirst(path, bit, 2);
    TokenFirst(bit, "", 1);
  }

  lemma Bits()
    ensures Carried("0") && Carried("1")
  {
  }

  lemma TaskDescription(name: string, was: bool, enable: bool)
    requires |name| < 128
    ensures !Clash(Cut("Task '" + name + "': " + OnOff(was) + " -> " + OnOff(enable), 255), "previous_value")
  {
    hide Clash;
    var d := "Task '" + name + "': " + OnOff(was) + " -> " + OnOff(enable);
    assert d[|d| - 1] == 'd' && "previous_value"[13] == 'e';
    LastDiffersNoClash(d, "previous_value");
  }

  lemma RevertTask(w: World, key: string, path: string, enable: bool, w2: World, os2: Os, view: View)
    requires key in w.tasks && path != "" && Fold(path) == key && os2.write == Ok
    requires SameSettings(w2, w.(tasks := w.tasks[key := w.tasks[key].(enabled := enable)]), view)
    ensures var (w3, r) := SetTaskEnabled(w2, path, w.tasks[key].enabled, os2);
            r == Ok && w3.store == w2.store && SameSettings(w3, w, view)
  {
    hide Enabled, Fold;
    var w1 := w.(tasks := w.tasks[key := w.tasks[key].(enabled := enable)]);
    assert key in w1.tasks && SameTask(w2.tasks[key], w1.tasks[key], view);
    OverwriteTask(w, key, w1.tasks[key], w2, w2.tasks[key].(enabled := w.tasks[key].enabled), view);
  }

  lemma RevertDelay(w: World, key: string, path: string, delays: seq<string>, w2: World, os2: Os, view: View)
    requires key in w.tasks && path != "" && Fold(path) == key && os2.write == Ok && os2.stuck == {}
    requires delays != [] && |delays| == |w.tasks[key].logonDelays|
    requires view.Whole? ==> ListedInFull(w.tasks[key].logonDelays)
    requires SameSettings(w2, w.(tasks := w.tasks[key := w.tasks[key].(logonDelays := delays)]), view)
    ensures var (w3, r) := SetLogonDelay(w2, path, DelaySeconds(w.tasks[key].logonDelays), os2);
            r == Ok && w3.store == w2.store && SameSettings(w3, w, view)
  {
    hide Enabled, Fold, SameTask, SetLogonDelay, Delayed;
    var w1 := w.(tasks := w.tasks[key := w.tasks[key].(logonDelays := delays)]);
    assert key in w1.tasks && SameTask(w2.tasks[key], w1.tasks[key], view);
    var seconds := DelaySeconds(w.tasks[key].logonDelays);
    SetsEveryTrigger(w.tasks[key], delays, w2, key, path, seconds, os2, view);
    OverwriteTask(w, key, w1.tasks[key], w2, w2.tasks[key].(logonDelays := Delayed(w2.tasks[key].logonDelays, seconds, os2)), view);
  }

  lemma SetsEveryTrigger(was: Task, delays: seq<string>, w2: World, key: string, path: string, seconds: nat, os2: Os, view: View)
    requires key in w2.tasks && path != "" && Fold(path) == key && os2.write == Ok && os2.stuck == {}
    requires SameTask(w2.tasks[key], was.(logonDelays := delays), view) && delays != []
    requires |delays| == |was.logonDelays| && seconds == DelaySeconds(was.logonDelays)
    requires view.Whole? ==> ListedInFull(was.logonDelays)
    ensures var all := Delayed(w2.tasks[key].logonDelays, seconds, os2);
      && SetLogonDelay(w2, path, seconds, os2) == (w2.(tasks := w2.tasks[key := w2.tasks[key].(logonDelays := all)]), Ok)
      && SameTask(w2.tasks[key].(logonDelays := all), was, view)
  {
    hide Fold, IsoDelay, IsoDuration, DelaySeconds;
    var all := Delayed(w2.tasks[key].logonDelays, seconds, os2);
    assert 0 !in os2.stuck;
    UniformDelay(all, seconds);
  }

  lemma UndoTask(w: World, id: string, enable: bool, yes: bool, os: Os, w2: World, yes2: bool, os2: Os, view: View)
    requires Undoable(w, TaskAction(id, enable), os, view) && DecideTask(w, id, enable, yes, os).Change?
    requires var d := DecideTask(w, id, enable, yes, os); Later(w2, d.after, d.note, os, view)
    requires Willing(yes2, os2)
    ensures var (w3, r) := Replay(w2, os.id, yes2, os2);
            r == Ok && w3.store == w2.store && SameSettings(w3, w, view)
  {
    hide FindWritable, SameSettings, FileText, RecordFields, Get, Replay, Clash, Legible, Stamp, SafeId, Tokens, Fold;
    var d := DecideTask(w, id, enable, yes, os);
    var t := FindWritable(w, id, false, os);
    FoundTask(w, id, false, os);
    var was := w.tasks[t.key].enabled;
    Bits();
    BarIsLegible();
    LegibleConcat(t.path, "|");
    LegibleConcat(t.path + "|", Bit(was));
    TaskDescription(w.tasks[t.key].name, was, enable);
    ReplayIsUndo(w2, d.after, d.note, os, yes2, os2, view);
    TaskTokens(t.path, Bit(was));
    RevertTask(w, t.key, t.path, enable, w2, os2, view);
  }

  lemma DelayTextLegible(path: string, seconds: nat)
    requires Legible(path)
    ensures Legible(path + "|" + DelayText(seconds))
  {
    hide Legible;
    assert Legible(Decimal(seconds)) by { DigitsLegible(seconds); }
    BarIsLegible();
    DelayIsLegible();
    LegibleConcat("delay:", Decimal(seconds));
    LegibleConcat(path, "|");
    LegibleConcat(path + "|", DelayText(seconds));
  }

  lemma DigitsLegible(n: nat)
    ensures Legible(Decimal(n))
  {
    hide Decimal;
    DecimalDigits(n);
  }

  // The delay part of a record, read back.
  lemma DelayTextReads(path: string, seconds: nat)
    requires '|' !in path && seconds < ULONG
    ensures var v := path + "|" + DelayText(seconds);
            Find(v, '|') == |path| < |v| && v[..|path|] == path && DelayOf(v[|path| + 1..]) == seconds
  {
    hide Decimal, Wcstoul;
    var d := DelayText(seconds);
    var v := path + ("|" + d);
    assert v == path + "|" + d;
    FindPast(path, "|" + d, '|');
    assert v[|path| + 1..] == d && d[6..] == Decimal(seconds);
    WcstoulReads(seconds);
  }

  lemma DelayIsLegible()
    ensures Legible("delay:")
  {
  }

  lemma UndoTaskDelay(w: World, id: string, seconds: nat, yes: bool, os: Os, w2: World, yes2: bool, os2: Os, view: View)
    requires Undoable(w, TaskDelayAction(id, seconds), os, view) && DecideTaskDelay(w, id, seconds, yes, os).Change?
    requires var d := DecideTaskDelay(w, id, seconds, yes, os); Later(w2, d.after, d.note, os, view)
    requires Willing(yes2, os2)
    ensures var (w3, r) := Replay(w2, os.id, yes2, os2);
            r == Ok && w3.store == w2.store && SameSettings(w3, w, view)
  {
    hide FindWritable, SameSettings, FileText, RecordFields, Get, Replay, Clash, Legible, Stamp, SafeId, Tokens, Fold,
      Decimal, DelayText, DelayOf, IsoDelay;
    var d := DecideTaskDelay(w, id, seconds, yes, os);
    var t := FindWritable(w, id, true, os);
    FoundTask(w, id, true, os);
    var was := w.tasks[t.key].logonDelays;
    DelayDescription("Task delay '", w.tasks[t.key].name, seconds);
    DelayTextReads(t.path, DelaySeconds(was));
    DelayTextLegible(t.path, DelaySeconds(was));
    ReplayIsUndo(w2, d.after, d.note, os, yes2, os2, view);
    RevertDelay(w, t.key, t.path, Delayed(was, seconds, os), w2, os2, view);
  }

  lemma UndoRestart(w: World, name: string, yes: bool, os: Os, w2: World, yes2: bool, os2: Os, view: View)
    requires Undoable(w, RestartAction(name), os, view) && DecideRestart(w, name, yes, os).Change?
    requires var d := DecideRestart(w, name, yes, os); Later(w2, d.after, d.note, os, view)
    ensures Replay(w2, os.id, yes2, os2) == (w2, NotSupported) && SameSettings(w2, w, view)
  {
    hide SameSettings, FileText, RecordFields, Get, Clash, SafeId, ServiceState, Decimal;
    var d := DecideRestart(w, name, yes, os);
    RecordReads(d.note, os);
    assert "service_restart" !in UNDOABLE;
  }

  // One change and the replay of its record: the settings are back and nothing
  // else in the store moved. A restart has nothing to undo.
  lemma UndoChange(w: World, action: Action, yes: bool, os: Os, w2: World, yes2: bool, os2: Os, view: View)
    requires Undoable(w, action, os, view) && Decide(w, action, yes, os).Change?
    requires var d := Decide(w, action, yes, os); Later(w2, d.after, d.note, os, view)
    requires Willing(yes2, os2)
    ensures var (w3, r) := Replay(w2, os.id, yes2, os2);
      && r == (if action.RestartAction? then NotSupported else Ok)
      && w3.store == w2.store && SameSettings(w3, w, view)
  {
    hide SameSettings, Later, Undoable, Replay, DecidePlan, DecideStartup, DecideStartupDelay, DecideTask, DecideTaskDelay, DecideRestart;
    match action
    case PlanAction(target) => UndoPlan(w, target, yes, os, w2, yes2, os2, view);
    case StartupAction(id, enable) => UndoStartup(w, id, enable, yes, os, w2, yes2, os2, view);
    case StartupDelayAction(id, seconds) => UndoStartupDelay(w, id, seconds, yes, os, w2, yes2, os2, view);
    case TaskAction(id, enable) => UndoTask(w, id, enable, yes, os, w2, yes2, os2, view);
    case TaskDelayAction(id, seconds) => UndoTaskDelay(w, id, seconds, yes, os, w2, yes2, os2, view);
    case RestartAction(name) => UndoRestart(w, name, yes, os, w2, yes2, os2, view);
  }

  // ---- runs ----

  // One attempt at an action, and what Windows answered.
  datatype Step = Step(action: Action, yes: bool, os: Os)

  function Run(w: World, steps: seq<Step>): World {
    if steps == [] then w
    else
      var last := steps[|steps| - 1];
      Perform(Run(w, steps[..|steps| - 1]), last.action, last.yes, last.os).0
  }

  // The ids of the records the run wrote, oldest first.
  function Log(w: World, steps: seq<Step>): seq<string> {
    if steps == [] then []
    else
      var front, last := steps[..|steps| - 1], steps[|steps| - 1];
      Log(w, front)
      + (if Decide(Run(w, front), last.action, last.yes, last.os).Change? && last.os.saves then [last.os.id] else [])
  }

  // Every change the run made can be undone by its own record.
  ghost predicate Recoverable(w: World, steps: seq<Step>, view: View) {
    steps != [] ==>
      var front, last := steps[..|steps| - 1], steps[|steps| - 1];
      && Recoverable(w, front, view)
      && (Decide(Run(w, front), last.action, last.yes, last.os).Change? ==> Undoable(Run(w, front), last.action, last.os, view))
  }

  function ReplayNewestFirst(w: World, log: seq<string>, yes: bool, os: Os): World
    decreases |log|
  {
    if log == [] then w
    else ReplayNewestFirst(Replay(w, log[|log| - 1], yes, os).0, log[..|log| - 1], yes, os)
  }

  lemma {:induction false} LogIsStored(w: World, steps: seq<Step>, view: View)
    requires Recoverable(w, steps, view)
    ensures forall id :: id in Log(w, steps) ==> id in Run(w, steps).store
  {
    if steps != [] {
      hide Decide, Undoable, FileText, RecordFields, RecordOf;
      var front, last := steps[..|steps| - 1], steps[|steps| - 1];
      LogIsStored(w, front, view);
      DecisionKeepsStore(Run(w, front), last.action, last.yes, last.os);
    }
  }

  lemma DecisionKeepsStore(w: World, action: Action, yes: bool, os: Os)
    ensures var d := Decide(w, action, yes, os); d.Change? ==> d.after.store == w.store
  {
    hide DecidePlan, DecideStartup, DecideStartupDelay, DecideTask, DecideTaskDelay, DecideRestart;
    match action
    case PlanAction(target) => PlanKeepsStore(w, target, yes, os);
    case StartupAction(id, enable) => StartupKeepsStore(w, id, enable, yes, os);
    case StartupDelayAction(id, seconds) => StartupDelayKeepsStore(w, id, seconds, yes, os);
    case TaskAction(id, enable) => TaskKeepsStore(w, id, enable, yes, os);
    case TaskDelayAction(id, seconds) => TaskDelayKeepsStore(w, id, seconds, yes, os);
    case RestartAction(name) => RestartKeepsStore(w, name, yes, os);
  }

  lemma PlanKeepsStore(w: World, target: Scheme, yes: bool, os: Os)
    ensures var d := DecidePlan(w, target, yes, os); d.Change? ==> d.after.store == w.store
  {
    hide SchemeGuid, SchemeOf, SchemeName;
  }

  lemma StartupKeepsStore(w: World, id: string, enable: bool, yes: bool, os: Os)
    ensures var d := DecideStartup(w, id, enable, yes, os); d.Change? ==> d.after.store == w.store
  {
    hide FindStartup, SlotOf, StartupValue;
  }

  lemma StartupDelayKeepsStore(w: World, id: string, seconds: nat, yes: bool, os: Os)
    ensures var d := DecideStartupDelay(w, id, seconds, yes, os); d.Change? ==> d.after.store == w.store
  {
    hide FindStartup, SlotOf, StartupValue, Decimal;
  }

  lemma TaskKeepsStore(w: World, id: string, enable: bool, yes: bool, os: Os)
    ensures var d := DecideTask(w, id, enable, yes, os); d.Change? ==> d.after.store == w.store
  {
    hide FindWritable, Fold;
  }

  lemma TaskDelayKeepsStore(w: World, id: string, seconds: nat, yes: bool, os: Os)
    ensures var d := DecideTaskDelay(w, id, seconds, yes, os); d.Change? ==> d.after.store == w.store
  {
    hide FindWritable, Fold, Decimal;
  }

  lemma RestartKeepsStore(w: World, name: string, yes: bool, os: Os)
    ensures var d := DecideRestart(w, name, yes, os); d.Change? ==> d.after.store == w.store
  {
    hide Decimal, Fold;
  }

  // From any world that shows what the run left and still holds its records.
  lemma {:induction false} RestoresFrom(w: World, steps: seq<Step>, w2: World, yes: bool, os: Os, view: View)
    requires Recoverable(w, steps, view) && Willing(yes, os)
    requires SameSettings(w2, Run(w, steps), view)
    requires forall id :: id in Log(w, steps) ==>
      id in Run(w, steps).store && id in w2.store && w2.store[id] == Run(w, steps).store[id]
    ensures SameSettings(ReplayNewestFirst(w2, Log(w, steps), yes, os), w, view)
  {
    if steps == [] {
      NoSteps(w, w2, yes, os, view);
    } else {
      hide *;
      var front, last := steps[..|steps| - 1], steps[|steps| - 1];
      var w1, log := Run(w, front), Log(w, front);
      var d := Decide(w1, last.action, last.yes, last.os);
      LastStep(w, steps, view);
      LogIsStored(w, front, view);
      if d.Change? {
        UndoLast(w1, last, w2, yes, os, view);
        var w3 := Replay(w2, last.os.id, yes, os).0;
        NewestFirst(w2, log, last.os.id, yes, os);
        RestoresFrom(w, front, w3, yes, os, view);
      } else {
        RestoresFrom(w, front, w2, yes, os, view);
      }
    }
  }

  lemma NoSteps(w: World, w2: World, yes: bool, os: Os, view: View)
    requires SameSettings(w2, Run(w, []), view)
    ensures SameSettings(ReplayNewestFirst(w2, Log(w, []), yes, os), w, view)
  {
  }

  // A run, its log and its conditions in terms of its last step.
  lemma LastStep(w: World, steps: seq<Step>, view: View)
    requires steps != [] && Recoverable(w, steps, view)
    ensures var front, last := steps[..|steps| - 1], steps[|steps| - 1];
      var d := Decide(Run(w, front), last.action, last.yes, last.os);
      && Recoverable(w, front, view)
      && (d.Change? ==> && Undoable(Run(w, front), last.action, last.os, view)
                        && Run(w, steps) == Save(d.after, d.note, last.os)
                        && d.after.store == Run(w, front).store
                        && Run(w, steps).store == Run(w, front).store[last.os.id := FileText(RecordFields(RecordOf(d.note, last.os)))]
                        && Log(w, steps) == Log(w, front) + [last.os.id])
      && (!d.Change? ==> Run(w, steps) == Run(w, front) && Log(w, steps) == Log(w, front))
  {
    hide Decide, Undoable, FileText, RecordFields, RecordOf;
    var front, last := steps[..|steps| - 1], steps[|steps| - 1];
    DecisionKeepsStore(Run(w, front), last.action, last.yes, last.os);
    if Decide(Run(w, front), last.action, last.yes, last.os).Change? {
      UndoableSaves(Run(w, front), last.action, last.os, view);
    }
    assert Log(w, front) + [] == Log(w, front);
  }

  lemma NewestFirst(w2: World, log: seq<string>, id: string, yes: bool, os: Os)
    ensures ReplayNewestFirst(w2, log + [id], yes, os) == ReplayNewestFirst(Replay(w2, id, yes, os).0, log, yes, os)
  {
    assert (log + [id])[..|log|] == log;
  }

  // The last change of a run and the replay of its record.
  lemma UndoLast(w1: World, last: Step, w2: World, yes: bool, os: Os, view: View)
    requires var d := Decide(w1, last.action, last.yes, last.os);
      && d.Change? && SameSettings(w2, Save(d.after, d.note, last.os), view)
      && last.os.id in w2.store && w2.store[last.os.id] == FileText(RecordFields(RecordOf(d.note, last.os)))
    requires Undoable(w1, last.action, last.os, view) && Willing(yes, os)
    ensures last.os.id !in w1.store
    ensures var w3 := Replay(w2, last.os.id, yes, os).0; w3.store == w2.store && SameSettings(w3, w1, view)
  {
    hide SameSettings, Decide, Undoable, FileText, RecordFields, RecordOf, Replay;
    var d := Decide(w1, last.action, last.yes, last.os);
    UndoableSaves(w1, last.action, last.os, view);
    SaveKeepsSettings(w2, d.after, d.note, last.os, view);
    UndoChange(w1, last.action, last.yes, last.os, w2, yes, os, view);
  }

  lemma UndoableSaves(w: World, action: Action, os: Os, view: View)
    requires Undoable(w, action, os, view)
    ensures os.saves && os.id !in w.store
  {
  }

  lemma SaveKeepsSettings(w2: World, after: World, note: Note, os: Os, view: View)
    requires SameSettings(w2, Save(after, note, os), view)
    ensures SameSettings(w2, after, view)
  {
    hide Enabled, SameTask;
  }

  // Whatever was attempted, and whatever failed: replaying the records of the
  // run, newest first, brings back the settings from before it, as they are shown
  // or, under the conditions for that, entirely.
  lemma RollbackRestores(w: World, steps: seq<Step>, yes: bool, os: Os, view: View)
    requires Recoverable(w, steps, view) && Willing(yes, os)
    ensures SameSettings(ReplayNewestFirst(Run(w, steps), Log(w, steps), yes, os), w, view)
  {
    LogIsStored(w, steps, view);
    RestoresFrom(w, steps, Run(w, steps), yes, os, view);
  }

  // ---- exactly when ----

  // A record that was written.
  predicate Kept(w: World, os: Os) {
    os.saves && os.id !in w.store && Stamp(os.id) && Stamp(os.timestamp)
  }

  lemma SaveIsLater(after: World, note: Note, os: Os)
    requires os.saves
    ensures forall view :: Later(Save(after, note, os), after, note, os, view)
    ensures Save(after, note, os).approved == after.approved && Save(after, note, os).tasks == after.tasks
  {
  }

  // No token is a name with a bar in it, nor the empty name.
  lemma TokenMissesName(previous: string, n: nat, k: nat, name: string)
    requires k < |Tokens(previous, n)| && (name == "" || '|' in name)
    ensures Fold(Tokens(previous, n)[k]) != Fold(name)
  {
    TokensAreClean(previous, n);
    var t := Tokens(previous, n)[k];
    assert t in Tokens(previous, n);
    if name != "" && |t| == |name| {
      var i :| 0 <= i < |name| && name[i] == '|';
      assert t[i] in t && Fold(t)[i] == FoldChar(t[i]) && Fold(name)[i] == '|';
    }
  }

  // What a replay makes of a startup value: the pieces of what it reads.
  function Pieces(loc: Location, name: string, last: string): seq<string> {
    Tokens(Cut(Reread(StartupValue(loc, name, last)), 255), 4)
  }

  lemma RereadStartup(loc: Location, name: string, last: string)
    requires Carried(loc.tag) && Carried(loc.subkey) && Carried(last)
    ensures Reread(StartupValue(loc, name, last))
         == loc.tag + "|" + (loc.subkey + "|" + (Reread(name) + ("|" + last)))
  {
    hide Reread;
    BarIsLegible();
    RereadIsOriginal("|");
    RereadIsOriginal(loc.tag);
    RereadIsOriginal(loc.subkey);
    RereadIsOriginal(last);
    RereadConcat("|", last);
    RereadConcat(name, "|" + last);
    var back := name + ("|" + last);
    RereadConcat("|", back);
    RereadConcat(loc.subkey, "|" + back);
    RereadConcat("|", loc.subkey + ("|" + back));
    RereadConcat(loc.tag, "|" + (loc.subkey + ("|" + back)));
    assert StartupValue(loc, name, last) == loc.tag + ("|" + (loc.subkey + ("|" + back)));
  }

  // An illegible name is read back longer, even when the buffer cuts it.
  lemma IllegiblePiece(loc: Location, name: string, last: string)
    requires Carried(loc.tag) && Carried(loc.subkey) && |loc.tag| == 4 && |loc.subkey| <= 80 && Carried(last)
    requires !Legible(name) && '|' !in name && |name| < 128
    ensures |Pieces(loc, name, last)| >= 3 && |Pieces(loc, name, last)[2]| > |name|
  {
    hide Tokens, Reread, Legible;
    RereadStartup(loc, name, last);
    RereadGrows(name);
    var room := 255 - |loc.tag| - |loc.subkey| - 2;
    var back := Cut(Reread(name) + ("|" + last), room);
    assert Cut(Reread(StartupValue(loc, name, last)), 255) == loc.tag + "|" + (loc.subkey + "|" + back);
    TokenFirst(loc.tag, loc.subkey + "|" + back, 4);
    TokenFirst(loc.subkey, back, 3);
    if |Reread(name)| < room {
      var rest := Cut("|" + last, room - |Reread(name)|);
      assert back == Reread(name) + rest == Reread(name) + "|" + rest[1..];
      TokenFirst(Reread(name), rest[1..], 2);
    } else {
      assert back == Reread(name)[..room];
      TokenFirst(back, "", 2);
    }
  }

  // A name that a record does not carry is not the name of the flag replayed.
  lemma UncarriedIsMissed(loc: Location, name: string, last: string)
    requires Carried(loc.tag) && Carried(loc.subkey) && |loc.tag| == 4 && |loc.subkey| <= 80 && Carried(last)
    requires !Carried(name) && |name| < 128
    ensures |Pieces(loc, name, last)| >= 3 ==> Fold(Pieces(loc, name, last)[2]) != Fold(name)
  {
    hide Tokens, Reread, Legible;
    if |Pieces(loc, name, last)| >= 3 {
      if name == "" || '|' in name {
        TokenMissesName(Cut(Reread(StartupValue(loc, name, last)), 255), 4, 2, name);
      } else {
        IllegiblePiece(loc, name, last);
      }
    }
  }

  // A startup change comes back exactly when a record carries the entry's name and
  // nothing in the id ends a search of it, entirely if moreover the entry had no
  // delay: a record splits at bars and skips empty pieces, takes an escaped control
  // character for five, and a search can stop in an id that holds quotes.
  lemma StartupComesBack(w: World, id: string, enable: bool, yes: bool, os: Os, yes2: bool, os2: Os, view: View)
    requires Kept(w, os) && Willing(yes2, os2) && DecideStartup(w, id, enable, yes, os).Change?
    requires |FindStartup(w, id, os).name| < 128
    ensures var d := DecideStartup(w, id, enable, yes, os);
            var e := FindStartup(w, id, os);
            SameSettings(Replay(Save(d.after, d.note, os), os.id, yes2, os2).0, w, view)
            <==> && e.name != "" && '|' !in e.name && Legible(e.name) && SafeId(id)
                 && (view.Whole? ==> DelayField(w.approved, EntrySlot(e)) == 0)
  {
    hide FindStartup, SameSettings, FileText, RecordFields, Get, Clash, Legible, Stamp, SafeId, Tokens, SlotOf, Save, Later, Replay,
      Undoable, StartupValue, Reread, DelayField;
    var d := DecideStartup(w, id, enable, yes, os);
    var e := FindStartup(w, id, os);
    var w2 := Save(d.after, d.note, os);
    SaveIsLater(d.after, d.note, os);
    LaterIsStored(w2, d.after, d.note, os);
    if !SafeId(id) {
      UnsafeIdIsRefused(w2, d.note, os, yes2, os2);
      StartupUnchanged(w, id, enable, yes, os, w2);
    } else if Carried(e.name) {
      StartupIsUndoable(w, id, enable, os);
      if view.Shown? || DelayField(w.approved, EntrySlot(e)) == 0 {
        UndoStartup(w, id, enable, yes, os, w2, yes2, os2, view);
      } else {
        StartupReplay(w, id, enable, yes, os, w2, yes2, os2);
        NoDelayLeft(w, w2, EntrySlot(e), Flag(if Enabled(w.approved, EntrySlot(e)) then 2 else 3, 0));
      }
    } else {
      var was := Enabled(w.approved, EntrySlot(e));
      FoundLocation(w, id, os);
      FlagBytes();
      StartupDescription(e.name, was, enable);
      StartupValueText(e.loc, e.name, FlagByte(was));
      RecordReads(d.note, os);
      UncarriedIsMissed(e.loc, e.name, FlagByte(was));
      StartupMissed(w, id, enable, yes, os, w2, yes2, os2);
    }
  }

  lemma LaterIsStored(w2: World, after: World, note: Note, os: Os)
    requires forall view :: Later(w2, after, note, os, view)
    ensures os.id in w2.store && w2.store[os.id] == FileText(RecordFields(RecordOf(note, os)))
  {
    assert Later(w2, after, note, os, Shown);
  }

  lemma StartupIsUndoable(w: World, id: string, enable: bool, os: Os)
    requires Kept(w, os) && SafeId(id)
    requires var e := FindStartup(w, id, os); e.Located? && Carried(e.name) && |e.name| < 128
    ensures Undoable(w, StartupAction(id, enable), os, Shown)
    ensures DelayField(w.approved, EntrySlot(FindStartup(w, id, os))) == 0 ==> Undoable(w, StartupAction(id, enable), os, Whole)
  {
  }

  lemma FlagDiffers(a: World, b: World, slot: Slot)
    requires Enabled(a.approved, slot) != Enabled(b.approved, slot)
    ensures forall view :: !SameSettings(a, b, view)
  {
    hide SameTask;
    forall view ensures !SameSettings(a, b, view) {
      assert !SameFlag(a.approved, b.approved, slot, view);
    }
  }

  // What a startup change wrote is not what was there.
  lemma StartupUnchanged(w: World, id: string, enable: bool, yes: bool, os: Os, w2: World)
    requires DecideStartup(w, id, enable, yes, os).Change?
    requires w2.approved == DecideStartup(w, id, enable, yes, os).after.approved
    ensures forall view :: !SameSettings(w2, w, view)
  {
    hide FindStartup, SameTask, SlotOf;
    var slot := EntrySlot(FindStartup(w, id, os));
    assert Enabled(w2.approved, slot) == enable;
    FlagDiffers(w2, w, slot);
  }

  lemma StartupMissed(w: World, id: string, enable: bool, yes: bool, os: Os, w2: World, yes2: bool, os2: Os)
    requires DecideStartup(w, id, enable, yes, os).Change?
    requires w2.approved == DecideStartup(w, id, enable, yes, os).after.approved
    requires os.id in w2.store && Read(w2.store[os.id], "action_type", 80) == "startup_approved"
    requires var parts := Tokens(Read(w2.store[os.id], "previous_value", 256), 4);
             |parts| >= 3 ==> Fold(parts[2]) != Fold(FindStartup(w, id, os).name)
    ensures forall view :: !SameSettings(Replay(w2, os.id, yes2, os2).0, w, view)
  {
    hide FindStartup, Get, Tokens, SameTask, Read;
    var slot := EntrySlot(FindStartup(w, id, os));
    var w3 := Replay(w2, os.id, yes2, os2).0;
    assert Enabled(w2.approved, slot) == enable;
    assert Enabled(w3.approved, slot) == enable;
    FlagDiffers(w3, w, slot);
  }

  // Replaying a startup change whose record carries the name writes its flag.
  lemma StartupReplay(w: World, id: string, enable: bool, yes: bool, os: Os, w2: World, yes2: bool, os2: Os)
    requires Undoable(w, StartupAction(id, enable), os, Shown) && Willing(yes2, os2)
    requires DecideStartup(w, id, enable, yes, os).Change?
    requires var d := DecideStartup(w, id, enable, yes, os); Later(w2, d.after, d.note, os, Shown)
    ensures var slot := EntrySlot(FindStartup(w, id, os));
            Replay(w2, os.id, yes2, os2).0
            == w2.(approved := w2.approved[slot := Flag(if Enabled(w.approved, slot) then 2 else 3, 0)])
  {
    hide FindStartup, FileText, RecordFields, Get, Replay, Clash, Legible, Stamp, SafeId, Tokens, SlotOf, SameSettings, Enabled;
    var d := DecideStartup(w, id, enable, yes, os);
    var e := FindStartup(w, id, os);
    var was := Enabled(w.approved, EntrySlot(e));
    FoundLocation(w, id, os);
    FlagBytes();
    StartupDescription(e.name, was, enable);
    StartupValueText(e.loc, e.name, FlagByte(was));
    ReplayIsUndo(w2, d.after, d.note, os, yes2, os2, Shown);
    StartupTokens(e.loc, e.name, FlagByte(was));
  }

  lemma NoDelayLeft(w: World, w2: World, slot: Slot, flag: Flag)
    requires flag.delayMs == 0 && DelayField(w.approved, slot) != 0
    ensures !SameSettings(w2.(approved := w2.approved[slot := flag]), w, Whole)
  {
    hide SameTask;
    assert !SameFlag(w2.approved[slot := flag], w.approved, slot, Whole);
  }

  // The flag that undoing a startup delay writes, if any.
  function Hit(id: string, loc: Location, name: string): Option<Slot> {
    var parts := Pieces(loc, name, "immediate");
    if !SafeId(id) || |parts| < 3 then None else Some(SlotOf(parts[0], parts[1], parts[2]))
  }

  // A startup delay is undone completely exactly when the entry was enabled and,
  // if a record carries its name and is found under its id, undelayed; if not, the
  // delay must have been that very one already, and the flag written instead, if
  // any, enabled and undelayed.
  lemma StartupDelayComesBack(w: World, id: string, seconds: nat, yes: bool, os: Os, yes2: bool, os2: Os)
    requires Kept(w, os) && Willing(yes2, os2) && DecideStartupDelay(w, id, seconds, yes, os).Change?
    requires |FindStartup(w, id, os).name| < 128
    ensures var d := DecideStartupDelay(w, id, seconds, yes, os);
            var e := FindStartup(w, id, os);
            var slot := EntrySlot(e);
            SameSettings(Replay(Save(d.after, d.note, os), os.id, yes2, os2).0, w, Whole)
            <==> && Enabled(w.approved, slot)
                 && (if e.name != "" && '|' !in e.name && Legible(e.name) && SafeId(id) then DelayField(w.approved, slot) == 0
                     else && DelayField(w.approved, slot) == seconds * 1000 % ULONG
                          && (Hit(id, e.loc, e.name).Some? ==> Plain(w.approved, Hit(id, e.loc, e.name).value)))
  {
    hide FindStartup, FileText, RecordFields, Get, Clash, Legible, Stamp, SafeId, Tokens, SlotOf, Save, Replay, SameSettings,
      StartupValue, Decimal, Hit, Reread, Later, Plain;
    var d := DecideStartupDelay(w, id, seconds, yes, os);
    var e := FindStartup(w, id, os);
    var slot := EntrySlot(e);
    var w2 := Save(d.after, d.note, os);
    SaveIsLater(d.after, d.note, os);
    StartupDelayReplay(w, id, seconds, yes, os, w2, yes2, os2);
    WhereItHits(w, id, os);
    LaterIsSame(w2, d.after, d.note, os);
    TwoFlags(w, slot, Flag(6, seconds * 1000 % ULONG), Hit(id, e.loc, e.name), w2);
  }

  // Enabled and undelayed.
  predicate Plain(approved: map<Slot, Flag>, slot: Slot) {
    Enabled(approved, slot) && DelayField(approved, slot) == 0
  }

  lemma LaterIsSame(w2: World, after: World, note: Note, os: Os)
    requires forall view :: Later(w2, after, note, os, view)
    ensures SameSettings(w2, after, Whole)
  {
    assert Later(w2, after, note, os, Whole);
  }

  // Replaying a startup delay enables the flag it hits and nothing else.
  lemma StartupDelayReplay(w: World, id: string, seconds: nat, yes: bool, os: Os, w2: World, yes2: bool, os2: Os)
    requires Kept(w, os) && Willing(yes2, os2) && DecideStartupDelay(w, id, seconds, yes, os).Change?
    requires |FindStartup(w, id, os).name| < 128
    requires var d := DecideStartupDelay(w, id, seconds, yes, os); forall view :: Later(w2, d.after, d.note, os, view)
    ensures var e := FindStartup(w, id, os);
            Replay(w2, os.id, yes2, os2).0
            == match Hit(id, e.loc, e.name) case None => w2 case Some(s) => w2.(approved := w2.approved[s := Flag(2, 0)])
  {
    hide FindStartup, FileText, RecordFields, Get, Clash, Legible, SafeId, Tokens, SlotOf, SameSettings, Enabled,
      StartupValue, Reread, Decimal, Read, Later;
    var d := DecideStartupDelay(w, id, seconds, yes, os);
    var e := FindStartup(w, id, os);
    LaterIsStored(w2, d.after, d.note, os);
    if SafeId(id) {
      FoundLocation(w, id, os);
      FlagBytes();
      DelayDescription("Startup delay '", e.name, seconds);
      StartupValueText(e.loc, e.name, "immediate");
      RecordReads(d.note, os);
    } else {
      UnsafeIdIsRefused(w2, d.note, os, yes2, os2);
    }
  }

  // The flag it hits is the entry's own exactly when a record carries the name.
  lemma WhereItHits(w: World, id: string, os: Os)
    requires var e := FindStartup(w, id, os); e.Located? && |e.name| < 128
    ensures var e := FindStartup(w, id, os); Carried(e.name) && SafeId(id) <==> Hit(id, e.loc, e.name) == Some(EntrySlot(e))
  {
    hide FindStartup, Tokens, Reread, Legible, StartupValue, SafeId;
    var e := FindStartup(w, id, os);
    FoundLocation(w, id, os);
    FlagBytes();
    if Carried(e.name) {
      StartupValueText(e.loc, e.name, "immediate");
      RereadIsOriginal(StartupValue(e.loc, e.name, "immediate"));
      StartupTokens(e.loc, e.name, "immediate");
    } else {
      UncarriedIsMissed(e.loc, e.name, "immediate");
    }
  }

  // One flag written with a delay, then another or the same enabled.
  lemma TwoFlags(w: World, slot: Slot, written: Flag, hit: Option<Slot>, w2: World)
    requires written.first == 6 && w2.approved == w.approved[slot := written]
    requires SameSettings(w2, w.(approved := w.approved[slot := written]), Whole)
    ensures var w3 := match hit case None => w2 case Some(s) => w2.(approved := w2.approved[s := Flag(2, 0)]);
            SameSettings(w3, w, Whole)
            <==> && Enabled(w.approved, slot)
                 && (if hit == Some(slot) then DelayField(w.approved, slot) == 0
                     else && DelayField(w.approved, slot) == written.delayMs
                          && (hit.Some? ==> Plain(w.approved, hit.value)))
  {
    hide SameTask;
    var w3 := match hit case None => w2 case Some(s) => w2.(approved := w2.approved[s := Flag(2, 0)]);
    assert hit.Some? ==> w3.approved[hit.value] == Flag(2, 0);
    assert hit != Some(slot) ==> w3.approved[slot] == written;
    assert SameSettings(w3, w, Whole) <==> forall s :: SameFlag(w3.approved, w.approved, s, Whole);
    if SameSettings(w3, w, Whole) {
      assert SameFlag(w3.approved, w.approved, slot, Whole);
      assert hit.Some? ==> SameFlag(w3.approved, w.approved, hit.value, Whole);
    } else {
      var s :| !SameFlag(w3.approved, w.approved, s, Whole);
      assert s == slot || hit == Some(s);
    }
  }

  // The delay of a task, as it is listed, always comes back; the delays of its
  // triggers do exactly when each of them is what is listed: when they are all the
  // same and none has days, which the listing takes for nothing.
  lemma TaskDelaysComeBack(w: World, id: string, seconds: nat, yes: bool, os: Os, yes2: bool, os2: Os)
    requires Undoable(w, TaskDelayAction(id, seconds), os, Shown) && Willing(yes2, os2)
    requires DecideTaskDelay(w, id, seconds, yes, os).Change?
    ensures var d := DecideTaskDelay(w, id, seconds, yes, os);
            var key := FindWritable(w, id, true, os).key;
            var w3 := Replay(Save(d.after, d.note, os), os.id, yes2, os2).0;
            var was := w.tasks[key].logonDelays;
      && key in w3.tasks && DelaySeconds(w3.tasks[key].logonDelays) == DelaySeconds(was)
      && (SameDelays(w3.tasks[key].logonDelays, was) <==> ListedInFull(was))
  {
    hide FindWritable, FileText, RecordFields, Get, Replay, Clash, Legible, Stamp, SafeId, Tokens, Fold,
      Decimal, DelayText, DelayOf, IsoDelay, IsoSeconds, IsoDuration, DelaySeconds, SameSettings;
    var d := DecideTaskDelay(w, id, seconds, yes, os);
    var t := FindWritable(w, id, true, os);
    FoundTask(w, id, true, os);
    var was := w.tasks[t.key].logonDelays;
    var most := DelaySeconds(was);
    var w2 := Save(d.after, d.note, os);
    SaveIsLater(d.after, d.note, os);
    assert Later(w2, d.after, d.note, os, Shown);
    DelayDescription("Task delay '", w.tasks[t.key].name, seconds);
    DelayTextReads(t.path, most);
    DelayTextLegible(t.path, most);
    ReplayIsUndo(w2, d.after, d.note, os, yes2, os2, Shown);
    var now := Replay(w2, os.id, yes2, os2).0.tasks[t.key].logonDelays;
    assert 0 !in os2.stuck;
    assert now == Delayed(d.after.tasks[t.key].logonDelays, most, os2);
    UniformDelay(now, most);
  }

  // One trigger of one day: it is listed as no delay, and is lost.
  lemma OneDayIsLost(w: World, id: string, seconds: nat, yes: bool, os: Os, yes2: bool, os2: Os)
    requires Undoable(w, TaskDelayAction(id, seconds), os, Shown) && Willing(yes2, os2)
    requires DecideTaskDelay(w, id, seconds, yes, os).Change?
    requires w.tasks[FindWritable(w, id, true, os).key].logonDelays == ["P1D"]
    ensures var d := DecideTaskDelay(w, id, seconds, yes, os);
            var key := FindWritable(w, id, true, os).key;
            var w3 := Replay(Save(d.after, d.note, os), os.id, yes2, os2).0;
            key in w3.tasks && !SameDelays(w3.tasks[key].logonDelays, ["P1D"])
  {
    hide FindWritable, Undoable, Replay, Save, IsoDuration, IsoSeconds, SameDelays, DecideTaskDelay;
    TaskDelaysComeBack(w, id, seconds, yes, os, yes2, os2);
    DaysAreNotRead();
    assert ["P1D"][..0] == [] && ["P1D"][0] == "P1D";
    assert DelaySeconds([]) == 0;
    assert !ListedInFull(["P1D"]);
  }
}
