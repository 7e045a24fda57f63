// Per-process GPU use of src/metrics/gpu.c: engine samples are summed per
// adapter and process, then each adapter keeps its eight busiest processes.

module GpuProcesses {
  import opened StableSort

  const MAX_PID_KEYS: nat := 1024
  const PROCS_PER_ADAPTER: nat := 8

  datatype Luid = Luid(high: nat, low: nat)
  datatype EngineSample = EngineSample(luid: Luid, pid: nat, value: real)
  datatype PidKey = PidKey(luid: Luid, pid: nat, sum: real)
  datatype ProcessUse = ProcessUse(pid: nat, percent: real)

  predicate Counted(s: EngineSample) {
    s.value >= 0.0 && s.pid != 0
  }

  predicate SameKey(k: PidKey, s: EngineSample) {
    k.luid == s.luid && k.pid == s.pid
  }

  ghost predicate DistinctKeys(keys: seq<PidKey>) {
    forall i, j :: 0 <= i < j < |keys| ==> keys[i].luid != keys[j].luid || keys[i].pid != keys[j].pid
  }

  // The true total of one process on one adapter.
  function Total(stream: seq<EngineSample>, luid: Luid, pid: nat): real {
    if stream == [] then 0.0
    else
      var s := stream[|stream| - 1];
      Total(stream[..|stream| - 1], luid, pid)
      + (if Counted(s) && s.luid == luid && s.pid == pid then s.value else 0.0)
  }

  // Who uses what: every process with a counted sample on an adapter.
  datatype User = User(luid: Luid, pid: nat)

  // The users of a stream in order of their first samples.
  function Users(stream: seq<EngineSample>): seq<User> {
    if stream == [] then []
    else
      var front, s := Users(stream[..|stream| - 1]), stream[|stream| - 1];
      if Counted(s) && User(s.luid, s.pid) !in front then front + [User(s.luid, s.pid)] else front
  }

  // A key table of this capacity: the first users, each with its exact total.
  ghost predicate TableOf(keys: seq<PidKey>, stream: seq<EngineSample>, capacity: nat) {
    && |keys| == |Take(Users(stream), capacity)|
    && forall i :: 0 <= i < |keys| ==>
         keys[i] == PidKey(Users(stream)[i].luid, Users(stream)[i].pid,
                           Total(stream, Users(stream)[i].luid, Users(stream)[i].pid))
  }

  lemma {:induction false} UsersAreDistinct(stream: seq<EngineSample>)
    ensures forall i, j :: 0 <= i < j < |Users(stream)| ==> Users(stream)[i] != Users(stream)[j]
  {
    if stream != [] {
      UsersAreDistinct(stream[..|stream| - 1]);
    }
  }

  lemma TableIsDistinct(keys: seq<PidKey>, stream: seq<EngineSample>, capacity: nat)
    requires TableOf(keys, stream, capacity)
    ensures DistinctKeys(keys)
  {
    UsersAreDistinct(stream);
    forall i, j | 0 <= i < j < |keys| ensures keys[i].luid != keys[j].luid || keys[i].pid != keys[j].pid {
      assert Users(stream)[i] != Users(stream)[j];
    }
  }

  lemma {:induction false} NoSampleNoTotal(stream: seq<EngineSample>, luid: Luid, pid: nat)
    requires User(luid, pid) !in Users(stream)
    ensures Total(stream, luid, pid) == 0.0
  {
    if stream != [] {
      NoSampleNoTotal(stream[..|stream| - 1], luid, pid);
    }
  }

  lemma AddSample(stream: seq<EngineSample>, s: EngineSample)
    ensures Users(stream + [s]) == if Counted(s) && User(s.luid, s.pid) !in Users(stream)
                                   then Users(stream) + [User(s.luid, s.pid)] else Users(stream)
    ensures forall luid, pid :: Total(stream + [s], luid, pid) == Total(stream, luid, pid)
              + (if Counted(s) && s.luid == luid && s.pid == pid then s.value else 0.0)
  {
    assert (stream + [s])[..|stream|] == stream;
  }

  // Adds one engine sample. Rows are never freed or renamed.
  method PidAdd(keys: array<PidKey>, count: nat, capacity: nat, s: EngineSample, ghost stream: seq<EngineSample>)
    returns (count': nat)
    requires capacity <= keys.Length
    requires count <= capacity && TableOf(keys[..count], stream, capacity)
    modifies keys
    ensures count <= count' <= capacity && TableOf(keys[..count'], stream + [s], capacity)
    ensures forall i :: 0 <= i < count ==> keys[i].luid == old(keys[i].luid) && keys[i].pid == old(keys[i].pid)
  {
    hide Users, Total;
    count' := count;
    ghost var before, users := keys[..count], Users(stream);
    AddSample(stream, s);
    if s.value < 0.0 || s.pid == 0 {
      return;
    }
    UsersAreDistinct(stream);
    for i := 0 to count
      invariant keys[..count] == before
      invariant forall k :: 0 <= k < i ==> !SameKey(before[k], s)
    {
      if SameKey(keys[i], s) {
        keys[i] := keys[i].(sum := keys[i].sum + s.value);
        assert users[i] == User(s.luid, s.pid);
        assert keys[..count] == before[i := before[i].(sum := before[i].sum + s.value)];
        return;
      }
    }
    assert User(s.luid, s.pid) !in users[..count] by {
      assert forall k :: 0 <= k < count ==> users[k] == User(before[k].luid, before[k].pid);
    }
    if count >= capacity {
      return;
    }
    NoSampleNoTotal(stream, s.luid, s.pid);
    keys[count] := PidKey(s.luid, s.pid, s.value);
    count' := count + 1;
    assert users[..count] == users;
    assert keys[..count'] == before + [PidKey(s.luid, s.pid, s.value)];
  }

  // The whole sample pass over one counter array.
  method SumSamples(keys: array<PidKey>, stream: seq<EngineSample>) returns (count: nat)
    requires keys.Length == MAX_PID_KEYS
    modifies keys
    ensures count <= MAX_PID_KEYS && TableOf(keys[..count], stream, MAX_PID_KEYS)
  {
    hide Users, Total;
    count := 0;
    assert Users([]) == [] by {
      NoUsers();
    }
    for i := 0 to |stream|
      invariant count <= MAX_PID_KEYS && TableOf(keys[..count], stream[..i], MAX_PID_KEYS)
    {
      assert stream[..i + 1] == stream[..i] + [stream[i]];
      count := PidAdd(keys, count, MAX_PID_KEYS, stream[i], stream[..i]);
    }
    assert stream[..|stream|] == stream;
  }

  lemma NoUsers()
    ensures Users([]) == []
  {
  }

  function Clamped(sum: real): real {
    if sum > 100.0 then 100.0 else sum
  }

  function Busier(): (ProcessUse, ProcessUse) -> bool {
    (a: ProcessUse, b: ProcessUse) => a.percent > b.percent
  }

  predicate HasPid(s: seq<ProcessUse>, pid: nat) {
    exists i :: 0 <= i < |s| && s[i].pid == pid
  }

  // Offers one process to an adapter's list. A pid already listed only has its
  // figure raised, in place; otherwise the list stays ordered and bounded.
  method KeepProcess(slots: array<ProcessUse>, count: nat, capacity: nat, pid: nat, sum: real)
    returns (count': nat)
    requires 0 < capacity <= slots.Length && count <= capacity
    modifies slots
    ensures count' <= capacity
    ensures sum <= 0.0 ==> slots[..count'] == old(slots[..count])
    ensures sum > 0.0 && HasPid(old(slots[..count]), pid) ==>
              exists i :: 0 <= i < count && old(slots[..count])[i].pid == pid
                && !HasPid(old(slots[..i]), pid)
                && slots[..count'] == old(slots[..count])[i := ProcessUse(pid,
                     if Clamped(sum) > old(slots[i].percent) then Clamped(sum) else old(slots[i].percent))]
    ensures sum > 0.0 && !HasPid(old(slots[..count]), pid) && Sorted(Busier(), old(slots[..count])) ==>
              slots[..count'] == Take(Insert(Busier(), old(slots[..count]), ProcessUse(pid, Clamped(sum))), capacity)
  {
    count' := count;
    ghost var before := slots[..count];
    if sum <= 0.0 {
      return;
    }
    var shown := if sum > 100.0 then 100.0 else sum;
    for i := 0 to count
      invariant slots[..count] == before
      invariant forall k :: 0 <= k < i ==> before[k].pid != pid
    {
      if slots[i].pid == pid {
        if shown > slots[i].percent {
          slots[i] := slots[i].(percent := shown);
        }
        assert slots[..count] == before[i := ProcessUse(pid, slots[i].percent)];
        assert before[..i] == old(slots[..i]);
        assert before[i].pid == pid;
        return;
      }
    }
    var index := count;
    if count < capacity {
      count' := count + 1;
    } else if shown <= slots[capacity - 1].percent {
      assert Take(before + [ProcessUse(pid, shown)], capacity) == before;
      return;
    } else {
      index := capacity - 1;
    }
    slots[index] := ProcessUse(pid, shown);
    assert slots[..index] == before[..index];
    BubbleForward(Busier(), slots, index);
    assert count == capacity ==> before[..index] + [before[index]] == before;
    assert count < capacity ==> before[..index] == before;
  }

  // The uses an adapter may show, in table order.
  function UsesOf(keys: seq<PidKey>, luid: Luid): seq<ProcessUse> {
    if keys == [] then []
    else
      var k := keys[|keys| - 1];
      UsesOf(keys[..|keys| - 1], luid)
      + (if k.luid == luid && k.sum > 0.0 then [ProcessUse(k.pid, Clamped(k.sum))] else [])
  }

  lemma {:induction false} UsesComeFromKeys(keys: seq<PidKey>, luid: Luid, u: ProcessUse)
    ensures u in UsesOf(keys, luid) <==>
            exists i :: 0 <= i < |keys| && keys[i].luid == luid && keys[i].sum > 0.0
                     && u == ProcessUse(keys[i].pid, Clamped(keys[i].sum))
  {
    if keys != [] {
      UsesComeFromKeys(keys[..|keys| - 1], luid, u);
      assert forall i :: 0 <= i < |keys| - 1 ==> keys[..|keys| - 1][i] == keys[i];
    }
  }

  function AdapterList(keys: seq<PidKey>, luid: Luid): seq<ProcessUse> {
    Take(Sort(Busier(), UsesOf(keys, luid)), PROCS_PER_ADAPTER)
  }

  // One adapter's list: the head of the stable order of its processes.
  method AdapterProcesses(slots: array<ProcessUse>, keys: seq<PidKey>, luid: Luid) returns (count: nat)
    requires slots.Length == PROCS_PER_ADAPTER && DistinctKeys(keys)
    modifies slots
    ensures count <= PROCS_PER_ADAPTER
    ensures slots[..count] == AdapterList(keys, luid)
  {
    count := 0;
    for i := 0 to |keys|
      invariant count <= PROCS_PER_ADAPTER
      invariant slots[..count] == AdapterList(keys[..i], luid)
    {
      assert keys[..i + 1][..i] == keys[..i];
      SortIsStable(Busier(), UsesOf(keys[..i], luid));
      if keys[i].luid == luid {
        ghost var u := ProcessUse(keys[i].pid, Clamped(keys[i].sum));
        ghost var all := Sort(Busier(), UsesOf(keys[..i], luid));
        TakeInsert(Busier(), all, u, PROCS_PER_ADAPTER);
        assert !HasPid(slots[..count], keys[i].pid) by {
          FreshPid(keys, i, PROCS_PER_ADAPTER);
        }
        assert (UsesOf(keys[..i], luid) + [u])[..|UsesOf(keys[..i], luid)|] == UsesOf(keys[..i], luid);
        assert UsesOf(keys[..i], luid) + [] == UsesOf(keys[..i], luid);
        count := KeepProcess(slots, count, PROCS_PER_ADAPTER, keys[i].pid, keys[i].sum);
      } else {
        assert UsesOf(keys[..i], luid) + [] == UsesOf(keys[..i], luid);
      }
    }
    assert keys[..|keys|] == keys;
  }

  lemma FreshPid(keys: seq<PidKey>, i: nat, n: nat)
    requires DistinctKeys(keys) && i < |keys|
    ensures !HasPid(Take(Sort(Busier(), UsesOf(keys[..i], keys[i].luid)), n), keys[i].pid)
  {
    var luid, uses := keys[i].luid, UsesOf(keys[..i], keys[i].luid);
    SortIsStable(Busier(), uses);
    var all := Sort(Busier(), uses);
    if HasPid(Take(all, n), keys[i].pid) {
      var k :| 0 <= k < |Take(all, n)| && Take(all, n)[k].pid == keys[i].pid;
      assert all[k] in multiset(all);
      UsesComeFromKeys(keys[..i], luid, all[k]);
    }
  }

  // ---- in terms of the stream ----

  // A process the key table has a row for.
  predicate Tracked(stream: seq<EngineSample>, luid: Luid, pid: nat) {
    User(luid, pid) in Take(Users(stream), MAX_PID_KEYS)
  }

  // Only a thousand and more users leave anyone untracked.
  lemma UsersAreTracked(stream: seq<EngineSample>, luid: Luid, pid: nat)
    requires |Users(stream)| <= MAX_PID_KEYS && Total(stream, luid, pid) > 0.0
    ensures Tracked(stream, luid, pid)
  {
    if User(luid, pid) !in Users(stream) {
      NoSampleNoTotal(stream, luid, pid);
    }
  }

  // The row of a tracked process.
  lemma RowOf(keys: seq<PidKey>, stream: seq<EngineSample>, luid: Luid, pid: nat) returns (i: nat)
    requires TableOf(keys, stream, MAX_PID_KEYS) && Tracked(stream, luid, pid)
    ensures i < |keys| && keys[i] == PidKey(luid, pid, Total(stream, luid, pid))
  {
    var users := Take(Users(stream), MAX_PID_KEYS);
    i :| 0 <= i < |users| && users[i] == User(luid, pid);
  }

  // Every process shown carries its true total, shown as at most 100.
  lemma ListedFigureIsTrue(keys: seq<PidKey>, stream: seq<EngineSample>, luid: Luid, u: ProcessUse)
    requires TableOf(keys, stream, MAX_PID_KEYS)
    requires u in AdapterList(keys, luid)
    ensures u.percent == Clamped(Total(stream, luid, u.pid)) && Total(stream, luid, u.pid) > 0.0
    ensures Tracked(stream, luid, u.pid)
  {
    SortIsStable(Busier(), UsesOf(keys, luid));
    assert u in multiset(Sort(Busier(), UsesOf(keys, luid)));
    UsesComeFromKeys(keys, luid, u);
    var i :| 0 <= i < |keys| && keys[i].luid == luid && keys[i].sum > 0.0 && u == ProcessUse(keys[i].pid, Clamped(keys[i].sum));
    assert Take(Users(stream), MAX_PID_KEYS)[i] == User(luid, u.pid);
  }

  // Where a tracked process that used the adapter stands in the order.
  lemma PlaceOf(keys: seq<PidKey>, stream: seq<EngineSample>, luid: Luid, pid: nat) returns (m: nat)
    requires TableOf(keys, stream, MAX_PID_KEYS) && Tracked(stream, luid, pid)
    requires Total(stream, luid, pid) > 0.0
    ensures m < |Sort(Busier(), UsesOf(keys, luid))|
    ensures Sort(Busier(), UsesOf(keys, luid))[m] == ProcessUse(pid, Clamped(Total(stream, luid, pid)))
    ensures m < PROCS_PER_ADAPTER ==> HasPid(AdapterList(keys, luid), pid)
  {
    hide TableOf, Tracked, Total, Sort, UsesOf, AdapterList;
    var i := RowOf(keys, stream, luid, pid);
    var mine := ProcessUse(pid, Clamped(keys[i].sum));
    UsesComeFromKeys(keys, luid, mine);
    SortIsStable(Busier(), UsesOf(keys, luid));
    m := PlaceIn(UsesOf(keys, luid), Sort(Busier(), UsesOf(keys, luid)), mine);
    if m < PROCS_PER_ADAPTER {
      FirstAreListed(keys, luid, m);
    }
  }

  lemma PlaceIn(s: seq<ProcessUse>, sorted: seq<ProcessUse>, u: ProcessUse) returns (m: nat)
    requires multiset(sorted) == multiset(s) && u in s
    ensures m < |sorted| && sorted[m] == u
  {
    assert u in multiset(sorted);
    m :| 0 <= m < |sorted| && sorted[m] == u;
  }

  lemma FirstAreListed(keys: seq<PidKey>, luid: Luid, m: nat)
    requires m < |Sort(Busier(), UsesOf(keys, luid))| && m < PROCS_PER_ADAPTER
    ensures HasPid(AdapterList(keys, luid), Sort(Busier(), UsesOf(keys, luid))[m].pid)
  {
    hide Sort, UsesOf;
    assert AdapterList(keys, luid)[m] == Sort(Busier(), UsesOf(keys, luid))[m];
  }

  // The list is the top eight of the tracked: it is ordered, it is full before
  // anyone is left out, and no one left out shows more.
  lemma AdapterListIsTopEight(keys: seq<PidKey>, stream: seq<EngineSample>, luid: Luid, pid: nat)
    requires TableOf(keys, stream, MAX_PID_KEYS) && Tracked(stream, luid, pid)
    ensures Sorted(Busier(), AdapterList(keys, luid))
    ensures Total(stream, luid, pid) > 0.0 && !HasPid(AdapterList(keys, luid), pid) ==>
              && |AdapterList(keys, luid)| == PROCS_PER_ADAPTER
              && forall u :: u in AdapterList(keys, luid) ==> Clamped(Total(stream, luid, pid)) <= u.percent
  {
    hide TableOf, Tracked, Total, Sort, UsesOf;
    SortIsStable(Busier(), UsesOf(keys, luid));
    if Total(stream, luid, pid) > 0.0 && !HasPid(AdapterList(keys, luid), pid) {
      var m := PlaceOf(keys, stream, luid, pid);
    }
  }

  // ---- by the totals themselves ----

  // A process left out can only have used more than one listed if that one is
  // at 100 or more.
  lemma RawTotalsAgreeBelowHundred(keys: seq<PidKey>, stream: seq<EngineSample>, luid: Luid, pid: nat, u: ProcessUse)
    requires TableOf(keys, stream, MAX_PID_KEYS) && Tracked(stream, luid, pid)
    requires u in AdapterList(keys, luid) && !HasPid(AdapterList(keys, luid), pid)
    ensures Total(stream, luid, pid) > Total(stream, luid, u.pid) ==> Total(stream, luid, u.pid) >= 100.0
  {
    AdapterListIsTopEight(keys, stream, luid, pid);
    ListedFigureIsTrue(keys, stream, luid, u);
  }

  // The adapter's processes whose totals reached 100, in order of first use.
  function HotPids(stream: seq<EngineSample>, luid: Luid): seq<nat> {
    HotAmong(Take(Users(stream), MAX_PID_KEYS), stream, luid)
  }

  function HotAmong(users: seq<User>, stream: seq<EngineSample>, luid: Luid): seq<nat> {
    if users == [] then []
    else
      var u := users[|users| - 1];
      HotAmong(users[..|users| - 1], stream, luid)
      + (if u.luid == luid && Total(stream, luid, u.pid) >= 100.0 then [u.pid] else [])
  }

  function AtHundred(pids: seq<nat>): seq<ProcessUse> {
    seq(|pids|, i requires 0 <= i < |pids| => ProcessUse(pids[i], 100.0))
  }

  lemma {:induction false} HotAmongMembers(users: seq<User>, stream: seq<EngineSample>, luid: Luid, pid: nat)
    ensures pid in HotAmong(users, stream, luid) <==> User(luid, pid) in users && Total(stream, luid, pid) >= 100.0
  {
    if users != [] {
      HotAmongMembers(users[..|users| - 1], stream, luid, pid);
      assert users == users[..|users| - 1] + [users[|users| - 1]];
    }
  }

  lemma {:induction false} HotAmongDistinct(users: seq<User>, stream: seq<EngineSample>, luid: Luid)
    requires forall i, j :: 0 <= i < j < |users| ==> users[i] != users[j]
    ensures var hot := HotAmong(users, stream, luid); forall i, j :: 0 <= i < j < |hot| ==> hot[i] != hot[j]
  {
    if users != [] {
      var front, u := users[..|users| - 1], users[|users| - 1];
      HotAmongDistinct(front, stream, luid);
      HotAmongMembers(front, stream, luid, u.pid);
      assert u !in front;
    }
  }

  // At full load all look alike: those at 100 come first, in order of first use.
  lemma {:induction false} HotComeFirst(keys: seq<PidKey>, users: seq<User>, stream: seq<EngineSample>, luid: Luid)
    returns (cold: seq<ProcessUse>)
    requires |keys| == |users|
    requires forall i :: 0 <= i < |keys| ==>
      keys[i] == PidKey(users[i].luid, users[i].pid, Total(stream, users[i].luid, users[i].pid))
    ensures Sort(Busier(), UsesOf(keys, luid)) == AtHundred(HotAmong(users, stream, luid)) + cold
    ensures forall c :: c in cold ==> c.percent < 100.0
  {
    hide Total, Sort;
    cold := [];
    if keys == [] {
      SortNothing();
    } else {
      var k := keys[|keys| - 1];
      var before := UsesOf(keys[..|keys| - 1], luid);
      var hot := HotAmong(users[..|users| - 1], stream, luid);
      cold := HotComeFirst(keys[..|keys| - 1], users[..|users| - 1], stream, luid);
      if k.luid == luid && k.sum > 0.0 {
        SortStep(Busier(), before, ProcessUse(k.pid, Clamped(k.sum)));
        if k.sum >= 100.0 {
          HotJoins(hot, cold, k.pid);
        } else {
          ColdJoins(hot, cold, ProcessUse(k.pid, k.sum));
          assert hot + [] == hot;
          cold := Insert(Busier(), cold, ProcessUse(k.pid, k.sum));
        }
      } else {
        assert before + [] == before && hot + [] == hot;
      }
    }
  }

  lemma HotJoins(hot: seq<nat>, cold: seq<ProcessUse>, pid: nat)
    requires forall c :: c in cold ==> c.percent < 100.0
    ensures Insert(Busier(), AtHundred(hot) + cold, ProcessUse(pid, 100.0)) == AtHundred(hot + [pid]) + cold
  {
    hide Insert;
    var u := ProcessUse(pid, 100.0);
    JoinsBefore(AtHundred(hot), cold, u);
    InsertStops(Busier(), AtHundred(hot), u);
    assert AtHundred(hot + [pid]) == AtHundred(hot) + [u];
  }

  lemma JoinsBefore(a: seq<ProcessUse>, cold: seq<ProcessUse>, u: ProcessUse)
    requires forall c :: c in cold ==> c.percent < u.percent
    ensures Insert(Busier(), a + cold, u) == Insert(Busier(), a, u) + cold
  {
    hide Insert;
    var all := a + cold;
    forall i | |a| <= i < |all| ensures Busier()(u, all[i]) {
      assert all[i] == cold[i - |a|];
    }
    InsertPast(Busier(), all, u, |a|);
    assert all[..|a|] == a && all[|a|..] == cold;
  }

  lemma ColdJoins(hot: seq<nat>, cold: seq<ProcessUse>, u: ProcessUse)
    requires u.percent < 100.0 && forall c :: c in cold ==> c.percent < 100.0
    ensures Insert(Busier(), AtHundred(hot) + cold, u) == AtHundred(hot) + Insert(Busier(), cold, u)
    ensures forall c :: c in Insert(Busier(), cold, u) ==> c.percent < 100.0
  {
    InsertBehind(Busier(), AtHundred(hot), cold, u);
    InsertMembers(Busier(), cold, u);
    forall c | c in Insert(Busier(), cold, u) ensures c.percent < 100.0 {
      assert c in multiset(cold) + multiset{u};
      assert c in cold || c == u;
    }
  }

  lemma SortNothing()
    ensures Sort(Busier(), []) == []
  {
  }

  // No one left out used more than anyone listed, by the totals themselves.
  ghost predicate FollowsTotals(stream: seq<EngineSample>, luid: Luid, list: seq<ProcessUse>) {
    forall pid: nat, u :: Tracked(stream, luid, pid) && !HasPid(list, pid) && u in list ==>
      Total(stream, luid, pid) <= Total(stream, luid, u.pid)
  }

  // Of the processes at 100 or more, none after the eighth used more than any of
  // the first eight.
  ghost predicate FirstHotAreBusiest(stream: seq<EngineSample>, luid: Luid) {
    var hot := HotPids(stream, luid);
    forall i, j :: 0 <= i < PROCS_PER_ADAPTER <= j < |hot| ==> Total(stream, luid, hot[j]) <= Total(stream, luid, hot[i])
  }

  lemma RowsOf(keys: seq<PidKey>, stream: seq<EngineSample>)
    requires TableOf(keys, stream, MAX_PID_KEYS)
    ensures var users := Take(Users(stream), MAX_PID_KEYS);
      |keys| == |users| && forall i :: 0 <= i < |keys| ==>
        keys[i] == PidKey(users[i].luid, users[i].pid, Total(stream, users[i].luid, users[i].pid))
  {
  }

  // The places in the list of the processes at 100 or more.
  lemma HotPlaces(keys: seq<PidKey>, stream: seq<EngineSample>, luid: Luid)
    requires TableOf(keys, stream, MAX_PID_KEYS)
    ensures var hot, list := HotPids(stream, luid), AdapterList(keys, luid);
      && (forall pid :: pid in hot <==> Tracked(stream, luid, pid) && Total(stream, luid, pid) >= 100.0)
      && (forall i :: 0 <= i < |hot| && i < PROCS_PER_ADAPTER ==> i < |list| && list[i] == ProcessUse(hot[i], 100.0))
      && (forall i :: PROCS_PER_ADAPTER <= i < |hot| ==> !HasPid(list, hot[i]))
  {
    hide Sort, UsesOf, Total, TableOf;
    var users, hot, list := Take(Users(stream), MAX_PID_KEYS), HotPids(stream, luid), AdapterList(keys, luid);
    UsersAreDistinct(stream);
    HotAmongDistinct(users, stream, luid);
    forall pid ensures pid in hot <==> Tracked(stream, luid, pid) && Total(stream, luid, pid) >= 100.0 {
      HotAmongMembers(users, stream, luid, pid);
    }
    RowsOf(keys, stream);
    var cold := HotComeFirst(keys, users, stream, luid);
    forall j | PROCS_PER_ADAPTER <= j < |hot| ensures !HasPid(list, hot[j]) {
      if HasPid(list, hot[j]) {
        var k :| 0 <= k < |list| && list[k].pid == hot[j];
        assert false;
      }
    }
  }


  // By the totals themselves the list is the top eight exactly when, of the
  // processes at 100 or more, the first eight are the busiest.
  lemma FollowsTotalsExactly(keys: seq<PidKey>, stream: seq<EngineSample>, luid: Luid)
    requires TableOf(keys, stream, MAX_PID_KEYS)
    ensures FollowsTotals(stream, luid, AdapterList(keys, luid)) <==> FirstHotAreBusiest(stream, luid)
  {
    hide AdapterList, HotPids, Total, TableOf, Tracked;
    var hot, list := HotPids(stream, luid), AdapterList(keys, luid);
    HotPlaces(keys, stream, luid);
    if FirstHotAreBusiest(stream, luid) {
      forall pid: nat, u | Tracked(stream, luid, pid) && !HasPid(list, pid) && u in list
        ensures Total(stream, luid, pid) <= Total(stream, luid, u.pid)
      {
        RawTotalsAgreeBelowHundred(keys, stream, luid, pid, u);
        ListedFigureIsTrue(keys, stream, luid, u);
        UseHasPid(list, u);
        if Total(stream, luid, pid) > Total(stream, luid, u.pid) {
          var i := HotPlace(hot, u.pid);
          var j := HotPlace(hot, pid);
        }
      }
    }
    if FollowsTotals(stream, luid, list) {
      forall i, j | 0 <= i < PROCS_PER_ADAPTER <= j < |hot|
        ensures Total(stream, luid, hot[j]) <= Total(stream, luid, hot[i])
      {
        assert hot[i] in hot && hot[j] in hot;
        assert list[i] in list;
      }
    }
  }

  lemma HotPlace(hot: seq<nat>, pid: nat) returns (i: nat)
    requires pid in hot
    ensures i < |hot| && hot[i] == pid
  {
    i :| 0 <= i < |hot| && hot[i] == pid;
  }

  lemma UseHasPid(list: seq<ProcessUse>, u: ProcessUse)
    requires u in list
    ensures HasPid(list, u.pid)
  {
  }

  // Up to eight processes at 100 or more: the list always follows the totals.
  lemma EightHotFollowTotals(keys: seq<PidKey>, stream: seq<EngineSample>, luid: Luid)
    requires TableOf(keys, stream, MAX_PID_KEYS) && |HotPids(stream, luid)| <= PROCS_PER_ADAPTER
    ensures FollowsTotals(stream, luid, AdapterList(keys, luid))
  {
    hide AdapterList, HotPids, Total, TableOf, Tracked, FollowsTotals;
    FollowsTotalsExactly(keys, stream, luid);
  }

  // What an adapter's list says of the samples: the true totals, clamped, in
  // order; no tracked process left out shows more; by the totals themselves
  // exactly when the first hot ones are the busiest.
  ghost predicate Reports(stream: seq<EngineSample>, luid: Luid, list: seq<ProcessUse>) {
    && |list| <= PROCS_PER_ADAPTER && Sorted(Busier(), list)
    && (forall u :: u in list ==> u.percent == Clamped(Total(stream, luid, u.pid)) > 0.0)
    && (forall pid: nat :: Tracked(stream, luid, pid) && Total(stream, luid, pid) > 0.0 && !HasPid(list, pid) ==>
          && |list| == PROCS_PER_ADAPTER
          && forall u :: u in list ==> Clamped(Total(stream, luid, pid)) <= u.percent)
    && (FollowsTotals(stream, luid, list) <==> FirstHotAreBusiest(stream, luid))
  }

  // The whole pass: what each adapter shows of one counter array.
  method ProcessUses(stream: seq<EngineSample>, adapters: seq<Luid>) returns (lists: seq<seq<ProcessUse>>)
    ensures |lists| == |adapters|
    ensures forall a :: 0 <= a < |adapters| ==> Reports(stream, adapters[a], lists[a])
  {
    hide TableOf, AdapterList, Reports;
    var keys := new PidKey[MAX_PID_KEYS](_ => PidKey(Luid(0, 0), 0, 0.0));
    var count := SumSamples(keys, stream);
    lists := [];
    for a := 0 to |adapters|
      invariant |lists| == a && TableOf(keys[..count], stream, MAX_PID_KEYS)
      invariant forall b :: 0 <= b < a ==> lists[b] == AdapterList(keys[..count], adapters[b])
    {
      TableIsDistinct(keys[..count], stream, MAX_PID_KEYS);
      var slots := new ProcessUse[PROCS_PER_ADAPTER](_ => ProcessUse(0, 0.0));
      var n := AdapterProcesses(slots, keys[..count], adapters[a]);
      lists := lists + [slots[..n]];
    }
    forall a | 0 <= a < |adapters| ensures Reports(stream, adapters[a], lists[a]) {
      ListReports(keys[..count], stream, adapters[a]);
    }
  }

  lemma ListReports(keys: seq<PidKey>, stream: seq<EngineSample>, luid: Luid)
    requires TableOf(keys, stream, MAX_PID_KEYS)
    ensures Reports(stream, luid, AdapterList(keys, luid))
  {
    hide TableOf, AdapterList, Tracked, Total, FollowsTotals, FirstHotAreBusiest, Sort;
    var list := AdapterList(keys, luid);
    ListIsOrdered(keys, luid);
    forall u | u in list ensures u.percent == Clamped(Total(stream, luid, u.pid)) > 0.0 {
      ListedFigureIsTrue(keys, stream, luid, u);
    }
    forall pid: nat | Tracked(stream, luid, pid) && Total(stream, luid, pid) > 0.0 && !HasPid(list, pid)
      ensures |list| == PROCS_PER_ADAPTER && forall u :: u in list ==> Clamped(Total(stream, luid, pid)) <= u.percent
    {
      AdapterListIsTopEight(keys, stream, luid, pid);
    }
    FollowsTotalsExactly(keys, stream, luid);
  }

  lemma ListIsOrdered(keys: seq<PidKey>, luid: Luid)
    ensures |AdapterList(keys, luid)| <= PROCS_PER_ADAPTER && Sorted(Busier(), AdapterList(keys, luid))
  {
    SortIsStable(Busier(), UsesOf(keys, luid));
  }

  // ---- nine at full load ----

  // Nine engine samples above 100, the greatest last.
  function NineSamples(): seq<EngineSample> {
    seq(9, i requires 0 <= i < 9 => EngineSample(Luid(0, 0), i + 1, 150.0 + i as real))
  }

  lemma {:induction false} NineUsers(n: nat)
    requires n <= 9
    ensures Users(NineSamples()[..n]) == seq(n, i requires 0 <= i < n => User(Luid(0, 0), i + 1))
    ensures forall pid :: 1 <= pid <= 9 ==>
              Total(NineSamples()[..n], Luid(0, 0), pid) == if pid <= n then 149.0 + pid as real else 0.0
  {
    if n > 0 {
      NineUsers(n - 1);
      assert NineSamples()[..n][..n - 1] == NineSamples()[..n - 1];
    }
  }

  lemma {:induction false} NineHot(users: seq<User>)
    requires |users| <= 9 && forall i :: 0 <= i < |users| ==> users[i] == User(Luid(0, 0), i + 1)
    ensures HotAmong(users, NineSamples(), Luid(0, 0)) == seq(|users|, i requires 0 <= i < |users| => i + 1)
  {
    hide Total;
    NineUsers(9);
    assert NineSamples()[..9] == NineSamples();
    if users != [] {
      NineHot(users[..|users| - 1]);
    }
  }

  lemma NineTotals()
    ensures HotPids(NineSamples(), Luid(0, 0)) == seq(9, i requires 0 <= i < 9 => i + 1)
    ensures forall pid :: 1 <= pid <= 9 ==> Total(NineSamples(), Luid(0, 0), pid) == 149.0 + pid as real
  {
    hide Total;
    NineUsers(9);
    assert NineSamples()[..9] == NineSamples();
    NineHot(Users(NineSamples()));
  }

  // The busiest of the nine is not listed.
  lemma BusiestCanBeLeftOut(keys: seq<PidKey>)
    requires TableOf(keys, NineSamples(), MAX_PID_KEYS)
    ensures !FollowsTotals(NineSamples(), Luid(0, 0), AdapterList(keys, Luid(0, 0)))
    ensures !HasPid(AdapterList(keys, Luid(0, 0)), 9)
    ensures forall pid :: 1 <= pid < 9 ==> Total(NineSamples(), Luid(0, 0), pid) < Total(NineSamples(), Luid(0, 0), 9)
  {
    hide AdapterList, Total, TableOf, FollowsTotals, HotPids, NineSamples, Users, HasPid;
    NineTotals();
    HotPlaces(keys, NineSamples(), Luid(0, 0));
    FollowsTotalsExactly(keys, NineSamples(), Luid(0, 0));
    var hot := HotPids(NineSamples(), Luid(0, 0));
    assert hot[8] == 9 && hot[0] == 1;
  }
}
