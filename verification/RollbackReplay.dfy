// Replaying rollback records: wt_rollback_apply of src/actions/rollback.c, and
// what replay restores.

module RollbackReplay {
  import opened RollbackRecord
  import opened SafeActions
  import opened Strings
  import opened WindowsSettings

  // The caller's buffer after wt_json_get.
  function Read(text: string, key: string, cap: nat): string {
    match Get(text, key, cap)
    case None => ""
    case Some(v) => v
  }

  // Splits the stored value and makes the change back.
  function Undo(w: World, kind: string, previous: string, os: Os): (World, Result) {
    if kind == "power_plan_change" then SetPlan(w, previous, os)
    else if kind == "startup_approved" then
      var parts := Tokens(previous, 4);
      if |parts| != 4 then (w, InvalidArgument)
      else WriteApproved(w, parts[0], parts[1], parts[2], parts[3] == "02", os)
    else if kind == "task_enabled" then
      var parts := Tokens(previous, 2);
      if |parts| != 2 then (w, InvalidArgument)
      else SetTaskEnabled(w, parts[0], parts[1] == "1", os)
    else if kind == "task_delay" then
      var k := Find(previous, '|');
      if k == |previous| then (w, InvalidArgument)
      else SetLogonDelay(w, previous[..k], DelayOf(previous[k + 1..]), os)
    else
      var parts := Tokens(previous, 4);
      if |parts| < 3 then (w, InvalidArgument)
      else WriteApproved(w, parts[0], parts[1], parts[2], true, os)
  }

  function DelayOf(s: string): nat {
    if "delay:" <= s then Wcstoul(s[6..]) else 0
  }

  const UNDOABLE: set<string> :=
    {"power_plan_change", "startup_approved", "task_enabled", "task_delay", "startup_delay"}

  function Replay(w: World, id: string, yes: bool, os: Os): (World, Result) {
    if id == "" then (w, InvalidArgument)
    else if id !in w.store then (w, NotFound)
    else
      var kind := Read(w.store[id], "action_type", 80);
      if kind !in UNDOABLE then (w, NotSupported)
      else if !Confirmed(yes, os) then (w, Cancelled)
      else Undo(w, kind, Read(w.store[id], "previous_value", 256), os)
  }

  // The part of wt_rollback_apply after the questions.
  method UndoRecord(m: Machine, kind: string, previous: string, os: Os) returns (r: Result)
    requires kind in UNDOABLE
    modifies m
    ensures (m.State(), r) == Undo(old(m.State()), kind, previous, os)
  {
    hide SlotOf, Wcstoul, Tokens, Fold, Delayed, AllStuck;
    if kind == "power_plan_change" {
      r := m.WritePlan(previous, os);
    } else if kind == "startup_approved" {
      var parts := Tokens(previous, 4);
      if |parts| != 4 {
        return InvalidArgument;
      }
      r := m.WriteFlag(parts[0], parts[1], parts[2], Flag(if parts[3] == "02" then 2 else 3, 0), os);
    } else if kind == "task_enabled" {
      var parts := Tokens(previous, 2);
      if |parts| != 2 {
        return InvalidArgument;
      }
      r := m.WriteTaskEnabled(parts[0], parts[1] == "1", os);
    } else if kind == "task_delay" {
      var pipe := Find(previous, '|');
      if pipe == |previous| {
        return InvalidArgument;
      }
      var seconds := 0;
      if "delay:" <= previous[pipe + 1..] {
        seconds := Wcstoul(previous[pipe + 1..][6..]);
      }
      r := m.WriteLogonDelay(previous[..pipe], seconds, os);
    } else {
      var parts := Tokens(previous, 4);
      if |parts| < 3 {
        return InvalidArgument;
      }
      r := m.WriteFlag(parts[0], parts[1], parts[2], Flag(2, 0), os);
    }
  }

  // wt_rollback_apply on the machine.
  method RollbackApply(m: Machine, id: string, yes: bool, os: Os) returns (r: Result)
    modifies m
    ensures (m.State(), r) == Replay(old(m.State()), id, yes, os)
  {
    hide Get, Undo;
    if id == "" {
      return InvalidArgument;
    }
    if id !in m.store {
      return NotFound;
    }
    var buf := m.store[id];
    var _, kind := JsonGet(buf, "action_type", 80);
    var _, previous := JsonGet(buf, "previous_value", 256);
    var _, description := JsonGet(buf, "description", 256);
    if kind !in UNDOABLE {
      return NotSupported;
    }
    if !Confirmed(yes, os) {
      return Cancelled;
    }
    r := UndoRecord(m, kind, previous, os);
  }

  // ---- replaying twice ----

  // A logon trigger that one call cannot set and a later one can.
  ghost predicate LeftOver(w: World, path: string, seconds: nat, os: Os, os': Os) {
    Fold(path) in w.tasks &&
    exists i :: 0 <= i < |w.tasks[Fold(path)].logonDelays| && i in os.stuck && i !in os'.stuck
             && w.tasks[Fold(path)].logonDelays[i] != IsoDelay(seconds)
  }

  // The same, for the call that undoes a record.
  ghost predicate Unfinished(w: World, kind: string, previous: string, os: Os, os': Os) {
    kind == "task_delay" &&
    var k := Find(previous, '|');
    k < |previous| && LeftOver(w, previous[..k], DelayOf(previous[k + 1..]), os, os')
  }

  // A second replay of a record that was replayed changes nothing more, whatever
  // the record holds and whatever Windows answers, unless it sets the delay of a
  // logon trigger that refused the first.
  lemma ReplayTwice(w: World, id: string, yes: bool, os: Os, yes': bool, os': Os)
    requires Replay(w, id, yes, os).1 == Ok
    ensures var w1 := Replay(w, id, yes, os).0;
      Replay(w1, id, yes', os').0 == w1
      <==> !(GoesThrough(yes', os') && Unfinished(w, Read(w.store[id], "action_type", 80), Read(w.store[id], "previous_value", 256), os, os'))
  {
    hide Get, Tokens, Wcstoul, Fold, LeftOver, SetLogonDelay, DelayOf;
    var text := w.store[id];
    UndoTwice(w, Read(text, "action_type", 80), Read(text, "previous_value", 256), os, os');
  }

  // An answer under which a replay goes through.
  predicate GoesThrough(yes: bool, os: Os) {
    Confirmed(yes, os) && os.write == Ok
  }

  lemma UndoTwice(w: World, kind: string, previous: string, os: Os, os': Os)
    requires Undo(w, kind, previous, os).1 == Ok
    ensures Undo(w, kind, previous, os).0.store == w.store
    ensures var w1 := Undo(w, kind, previous, os).0;
      Undo(w1, kind, previous, os').0 == w1 <==> !(os'.write == Ok && Unfinished(w, kind, previous, os, os'))
  {
    hide Tokens, Wcstoul, Fold, LeftOver, DelayOf;
    if kind == "task_delay" {
      var k := Find(previous, '|');
      DelayTwice(w, previous[..k], DelayOf(previous[k + 1..]), os, os');
    } else if kind == "task_enabled" {
      var parts := Tokens(previous, 2);
      EnabledTwice(w, parts[0], parts[1] == "1", os, os');
    } else if kind == "startup_approved" {
      var parts := Tokens(previous, 4);
      ApprovedTwice(w, parts[0], parts[1], parts[2], parts[3] == "02", os, os');
    } else if kind != "power_plan_change" {
      var parts := Tokens(previous, 4);
      ApprovedTwice(w, parts[0], parts[1], parts[2], true, os, os');
    }
  }

  lemma ApprovedTwice(w: World, tag: string, subkey: string, name: string, enabled: bool, os: Os, os': Os)
    ensures var w' := WriteApproved(w, tag, subkey, name, enabled, os).0;
            os.write == Ok ==> WriteApproved(w', tag, subkey, name, enabled, os').0 == w'
  {
  }

  lemma EnabledTwice(w: World, path: string, enabled: bool, os: Os, os': Os)
    ensures var (w', r) := SetTaskEnabled(w, path, enabled, os);
            r == Ok ==> SetTaskEnabled(w', path, enabled, os').0 == w'
  {
  }

  lemma DelayTwice(w: World, path: string, seconds: nat, os: Os, os': Os)
    ensures var (w', r) := SetLogonDelay(w, path, seconds, os);
            r == Ok ==> (SetLogonDelay(w', path, seconds, os').0 == w' <==> !(os'.write == Ok && LeftOver(w, path, seconds, os, os')))
  {
    hide Fold, IsoDelay;
    var (w', r) := SetLogonDelay(w, path, seconds, os);
    if r == Ok {
      var key := Fold(path);
      var was, now := w.tasks[key].logonDelays, w'.tasks[key].logonDelays;
      var again := Delayed(now, seconds, os');
      assert forall i :: 0 <= i < |was| ==> (again[i] != now[i] <==> i in os.stuck && i !in os'.stuck && was[i] != IsoDelay(seconds));
      if again == now {
        assert w'.tasks[key := w'.tasks[key].(logonDelays := again)] == w'.tasks;
      }
    }
  }

  // ---- a record is read as it was written ----

  // What time stamps and record ids are made of.
  predicate Stamp(s: string) {
    s != "" && forall i :: 0 <= i < |s| ==> Digit(s[i]) || s[i] == '-' || s[i] == 'T' || s[i] == ':' || s[i] == 'Z'
  }

  lemma NoQuoteNoClash(v: string, key: string)
    requires NoQuote(v) && v != key
    ensures !Clash(v, key)
  {
    if |key| < |v| {
      assert v[|v| - |key| - 1] in v;
    }
  }

  lemma LastDiffersNoClash(v: string, key: string)
    requires v != "" && key != "" && v[|v| - 1] != key[|key| - 1]
    ensures !Clash(v, key)
  {
    if |key| < |v| {
      assert v[|v| - |key|..][|key| - 1] == v[|v| - 1];
    }
  }

  lemma StampNoClash(s: string, key: string)
    requires Stamp(s) && CleanKey(key)
    ensures !Clash(s, key) && Escape(s, "") == s
  {
    assert Digit(s[0]) || s[0] == '-' || s[0] == 'T' || s[0] == ':' || s[0] == 'Z';
    assert key != "" ==> key[0] == '_' || 'a' <= key[0] <= 'z';
    assert NoQuote(s);
    NoQuoteNoClash(s, key);
    StampIsPlain(s);
  }

  lemma {:induction false} StampIsPlain(s: string)
    requires forall i :: 0 <= i < |s| ==> Digit(s[i]) || s[i] == '-' || s[i] == 'T' || s[i] == ':' || s[i] == 'Z'
    ensures Escape(s, "") == s
  {
    if s != "" {
      assert forall i :: 0 <= i < |s[1..]| ==> s[1..][i] == s[i + 1];
      StampIsPlain(s[1..]);
      assert s == [s[0]] + s[1..];
    }
  }

  // An action id in which neither search stops.
  predicate SafeId(id: string) {
    !Clash(Cut(id, 63), "action_type") && !Clash(Cut(id, 63), "previous_value")
  }

  predicate Kind(s: string) {
    s in UNDOABLE || s == "service_restart"
  }

  lemma FirstKeys()
    ensures CleanKey("id") && CleanKey("timestamp_utc") && CleanKey("action_id") && CleanKey("action_type")
  {
  }

  lemma LastKeys()
    ensures CleanKey("description") && CleanKey("previous_value") && CleanKey("new_value") && CleanKey("rollback_command")
  {
  }

  lemma KeysAreClean(r: Record)
    ensures CleanKeys(RecordFields(r))
    ensures CleanKey("action_type") && CleanKey("previous_value")
  {
    hide CleanKey;
    FirstKeys();
    LastKeys();
    RecordFieldsAre(r);
  }

  // Keys of one length differ in their first letters.
  lemma KeysDiffer(r: Record)
    ensures var f := RecordFields(r); forall i, j :: 0 <= i < j < |f| ==> f[i].key != f[j].key
  {
    hide RecordFields;
    RecordFieldsAre(r);
    var f := RecordFields(r);
    forall i, j | 0 <= i < j < |f| ensures f[i].key != f[j].key {
      assert |f[i].key| == |f[j].key| ==> f[i].key[0] != f[j].key[0];
    }
  }

  // The kind of a record is read back; of its previous value, what fits of the
  // reading. A legible value is read as it was.
  lemma RecordReads(note: Note, os: Os)
    requires Stamp(os.id) && Stamp(os.timestamp) && SafeId(note.actionId) && Kind(note.actionType)
    ensures var text := FileText(RecordFields(RecordOf(note, os)));
      && Read(text, "action_type", 80) == note.actionType
      && (!Clash(Cut(note.description, 255), "previous_value") && |note.previous| <= 255 ==>
            && Read(text, "previous_value", 256) == Cut(Reread(note.previous), 255)
            && (Legible(note.previous) ==> Read(text, "previous_value", 256) == note.previous))
  {
    hide FileText, Get, Legible, CleanKey, Clash, RecordFields, Stamp, Reread, RollbackRecord.Lookup;
    var r := RecordOf(note, os);
    var f := RecordFields(r);
    RecordFieldsAre(r);
    KeysAreClean(r);
    KeysDiffer(r);
    StampNoClash(os.id, "action_type");
    StampNoClash(os.timestamp, "action_type");
    StampNoClash(os.id, "previous_value");
    StampNoClash(os.timestamp, "previous_value");
    KindIsPlain(note.actionType);
    FieldRoundTrip(f, 3, 80);
    ReadByKey(f, f[5].key, 256);
    LookupAt(f, 5);
    RereadIsOriginal(note.previous);
  }

  // An action id in which a search stops keeps the replay from its kind or value.
  lemma UnsafeIdReadsNothing(note: Note, os: Os)
    requires !SafeId(note.actionId) && Kind(note.actionType)
    ensures var text := FileText(RecordFields(RecordOf(note, os)));
      || Read(text, "action_type", 80) == ""
      || (Read(text, "action_type", 80) == note.actionType && Read(text, "previous_value", 256) == "")
  {
    hide FileText, Get, Legible, CleanKey, Clash, RecordFields, Reread, RollbackRecord.Lookup;
    var r := RecordOf(note, os);
    var f := RecordFields(r);
    RecordFieldsAre(r);
    KeysAreClean(r);
    KeysDiffer(r);
    ReadByKey(f, f[3].key, 80);
    ReadByKey(f, f[5].key, 256);
    LookupAt(f, 3);
    LookupAt(f, 5);
    KindIsPlain(note.actionType);
    RereadIsOriginal(note.actionType);
    assert Clash(f[2].value, "action_type") || Clash(f[2].value, "previous_value");
  }

  // A startup change under such an id is refused when it is replayed.
  lemma UnsafeIdIsRefused(w2: World, note: Note, os: Os, yes: bool, os2: Os)
    requires !SafeId(note.actionId) && note.actionType in {"startup_approved", "startup_delay"}
    requires os.id in w2.store && w2.store[os.id] == FileText(RecordFields(RecordOf(note, os)))
    ensures Replay(w2, os.id, yes, os2).0 == w2
  {
    hide FileText, RecordFields, RecordOf, Get, SafeId;
    UnsafeIdReadsNothing(note, os);
  }

  lemma KindIsClean(kind: string)
    requires Kind(kind)
    ensures CleanKey(kind) && |kind| < 20 && |kind| != 14
  {
  }

  lemma KindIsPlain(kind: string)
    requires Kind(kind)
    ensures Legible(kind) && |kind| < 63 && !Clash(kind, "previous_value")
  {
    KindIsClean(kind);
    CleanHasNoQuote(kind);
    assert |kind| != |"previous_value"|;
    NoQuoteNoClash(kind, "previous_value");
  }
}
