// The cache of performance queries: src/metrics/pdh_utils.c and its clients in
// cpu.c, disk.c, gpu.c and memory.c. Within a begin/end scope each client keeps
// its query open, remembered in a static slot of its own that only a generation
// number validates. Closing or using a query demands that it is open, so every
// verified run closes each query at most once and never uses a closed one.

module PdhCache {
  import opened Strings

  const CACHE_MAX: nat := 8
  const SINGLE_MAX: nat := 4
  const SINGLE_PATH: nat := 192
  const VOLUME_MAX: nat := 32
  const GENERATIONS: nat := 0x1_0000_0000

  // ---- the performance-data library ----

  // Handles are numbers, 0 is NULL. A handle value is never given out twice.
  class Pdh {
    var open: set<nat>
    var used: set<nat>

    ghost predicate Valid()
      reads this
    {
      open <= used && 0 !in used
    }

    constructor ()
      ensures Valid() && used == {}
    {
      open, used := {}, {};
    }

    // May fail: then the result is NULL.
    method Open() returns (q: nat)
      requires Valid()
      modifies this
      ensures Valid()
      ensures q == 0 ==> unchanged(this)
      ensures q != 0 ==> q !in old(used) && used == old(used) + {q} && open == old(open) + {q}
    {
      var success: bool := *;
      if !success {
        return 0;
      }
      SomeUnused(used + {0});
      q :| q !in used + {0};
      open, used := open + {q}, used + {q};
    }

    method Close(q: nat)
      requires Valid() && q in open
      modifies this`open
      ensures Valid() && open == old(open) - {q}
    {
      open := open - {q};
    }

    // A counter is known by the query it belongs to; NULL when it was not added.
    method AddCounter(q: nat) returns (c: nat)
      requires q in open && q != 0
      ensures c == 0 || c == q
    {
      var success: bool := *;
      c := if success then q else 0;
    }

    method Collect(q: nat) returns (ok: bool)
      requires q in open
    {
      ok := *;
    }

    method Read(c: nat) returns (ok: bool)
      requires c in open
    {
      ok := *;
    }
  }

  lemma {:induction false} SomeUnused(s: set<nat>)
    ensures exists q: nat :: q !in s
  {
    var n := Bound(s);
    assert n !in s;
  }

  lemma {:induction false} Bound(s: set<nat>) returns (n: nat)
    ensures forall x :: x in s ==> x < n
    decreases |s|
  {
    if s == {} {
      n := 0;
    } else {
      var x :| x in s;
      var m := Bound(s - {x});
      assert forall y :: y in s ==> y == x || y in s - {x};
      n := if x < m then m else x + 1;
    }
  }

  // ---- slots ----

  // What a query was opened for: disk queries depend on what was asked, single
  // queries on the counter path.
  datatype Key = NoKey | DiskKey(wantTotal: bool, letters: seq<char>) | PathKey(path: string)

  datatype Slot = Slot(gen: nat, query: nat, key: Key, counters: seq<nat>)

  const EMPTY: Slot := Slot(0, 0, NoKey, [])

  // The clients' slots in one table: four collectors, then the single slots.
  const CPU: nat := 0
  const DISK: nat := 1
  const GPU: nat := 2
  const MEMORY: nat := 3
  const SINGLE: nat := 4
  const SLOTS: nat := SINGLE + SINGLE_MAX

  function Elements(s: seq<nat>): set<nat> {
    set q | q in s
  }

  lemma {:induction false} ElementsFit(s: seq<nat>)
    ensures |Elements(s)| <= |s|
  {
    if s != [] {
      ElementsFit(s[1..]);
      assert Elements(s) == Elements(s[1..]) + {s[0]};
    }
  }

  ghost predicate Distinct(s: seq<nat>) {
    forall i, j :: 0 <= i < j < |s| ==> s[i] != s[j]
  }

  // The slot answers for an open query of the running scope.
  predicate Current(s: Slot, generation: nat) {
    s.query != 0 && s.gen == generation
  }

  ghost predicate OwnsItsCounters(s: Slot) {
    forall c :: c in s.counters ==> c == 0 || c == s.query
  }

  // No two slots share a query; the tracked queries are those of the current
  // slots; no slot is ahead of the generation.
  ghost predicate SlotsAgree(slots: seq<Slot>, tracked: seq<nat>, generation: nat, used: set<nat>) {
    && (forall i, j :: 0 <= i < j < |slots| && slots[i].query != 0 ==> slots[i].query != slots[j].query)
    && (forall i :: 0 <= i < |slots| ==> slots[i].gen <= generation)
    && (forall i :: 0 <= i < |slots| && slots[i].query != 0 ==> slots[i].query in used)
    && (forall i :: 0 <= i < |slots| ==> OwnsItsCounters(slots[i]))
    && (forall i :: 0 <= i < |slots| && Current(slots[i], generation) ==> slots[i].query in tracked)
    && (forall q :: q in tracked ==> exists i :: 0 <= i < |slots| && Current(slots[i], generation) && slots[i].query == q)
  }

  // Storing a query nobody has used in a slot that is not current.
  lemma SlotFilled(slots: seq<Slot>, tracked: seq<nat>, generation: nat, used: set<nat>, i: nat, s: Slot)
    requires SlotsAgree(slots, tracked, generation, used) && i < |slots|
    requires !Current(slots[i], generation) && Current(s, generation) && OwnsItsCounters(s)
    requires s.query in used && forall j :: 0 <= j < |slots| ==> slots[j].query != s.query
    ensures SlotsAgree(slots[i := s], tracked + [s.query], generation, used)
  {
    var slots' := slots[i := s];
    forall q | q in tracked + [s.query]
      ensures exists k :: 0 <= k < |slots'| && Current(slots'[k], generation) && slots'[k].query == q
    {
      if q == s.query {
        assert slots'[i].query == q;
      } else {
        var k :| 0 <= k < |slots| && Current(slots[k], generation) && slots[k].query == q;
        assert slots'[k] == slots[k];
      }
    }
  }

  // Clearing a slot together with its tracked query, if it has one.
  lemma SlotCleared(slots: seq<Slot>, tracked: seq<nat>, tracked': seq<nat>, generation: nat, used: set<nat>, i: nat)
    requires SlotsAgree(slots, tracked, generation, used) && i < |slots|
    requires Elements(tracked') == Elements(tracked) - {slots[i].query}
    ensures SlotsAgree(slots[i := EMPTY], tracked', generation, used)
  {
    var slots' := slots[i := EMPTY];
    forall q | q in tracked'
      ensures exists k :: 0 <= k < |slots'| && Current(slots'[k], generation) && slots'[k].query == q
    {
      assert q in Elements(tracked');
      var k :| 0 <= k < |slots| && Current(slots[k], generation) && slots[k].query == q;
      assert slots'[k] == slots[k];
    }
    forall k | 0 <= k < |slots'| && Current(slots'[k], generation) ensures slots'[k].query in tracked' {
      assert slots[k].query in Elements(tracked);
      assert slots[k].query in Elements(tracked');
    }
  }

  lemma {:induction false} DistinctFits(a: seq<nat>, b: seq<nat>)
    requires Distinct(a) && forall x :: x in a ==> x in b
    ensures |a| <= |b|
    decreases |a|
  {
    if a != [] {
      assert a[0] in b;
      var k :| 0 <= k < |b| && b[k] == a[0];
      var b' := b[..k] + b[k + 1..];
      forall x | x in a[1..] ensures x in b' {
        var m :| 0 <= m < |a[1..]| && a[1..][m] == x;
        assert a[m + 1] == x && x in a && x in b;
        var n :| 0 <= n < |b| && b[n] == x;
        assert if n < k then b'[n] == x else b'[n - 1] == x;
      }
      DistinctFits(a[1..], b');
    }
  }

  function Queries(slots: seq<Slot>): (r: seq<nat>)
    ensures |r| == |slots| && forall i :: 0 <= i < |r| ==> r[i] == slots[i].query
  {
    seq(|slots|, i requires 0 <= i < |slots| => slots[i].query)
  }

  // While some slot is not current the tracked list has room: with eight slots
  // and eight places a client never finds it full.
  lemma RoomForOneMore(slots: seq<Slot>, tracked: seq<nat>, generation: nat, used: set<nat>, i: nat)
    requires SlotsAgree(slots, tracked, generation, used) && Distinct(tracked)
    requires i < |slots| == SLOTS && !Current(slots[i], generation)
    ensures |tracked| < CACHE_MAX
  {
    var others := slots[..i] + slots[i + 1..];
    forall q | q in tracked ensures q in Queries(others) {
      var k :| 0 <= k < |slots| && Current(slots[k], generation) && slots[k].query == q;
      assert k != i;
      assert Queries(others)[if k < i then k else k - 1] == q;
    }
    DistinctFits(tracked, Queries(others));
  }

  // ---- the cache ----

  datatype Result = Ok | InvalidArgument | OutOfMemory | PdhError | NotFound

  datatype Volumes = NoVolumes(count: nat) | Volumes(roots: seq<string>)

  class Cache {
    const pdh: Pdh
    var depth: nat
    var generation: nat
    const tracked: array<nat>
    var count: nat
    const slots: array<Slot>

    // Between calls, holding one query that is not in the cache (0: none).
    ghost predicate Holding(q: nat)
      reads this, tracked, slots, pdh
    {
      && pdh.Valid()
      && tracked.Length == CACHE_MAX && slots.Length == SLOTS && count <= CACHE_MAX
      && Distinct(tracked[..count]) && 0 !in tracked[..count]
      && (depth == 0 ==> count == 0)
      && SlotsAgree(slots[..], tracked[..count], generation, pdh.used)
      && pdh.open == Elements(tracked[..count]) + (if q == 0 then {} else {q})
      && (q != 0 ==> q !in tracked[..count] && forall i :: 0 <= i < SLOTS ==> slots[i].query != q)
    }

    ghost predicate Valid()
      reads this, tracked, slots, pdh
    {
      Holding(0)
    }

    constructor ()
      ensures Valid() && fresh(pdh) && fresh(tracked) && fresh(slots)
      ensures depth == 0 && generation == 0 && pdh.used == {}
    {
      pdh := new Pdh();
      depth, generation, count := 0, 0, 0;
      tracked := new nat[CACHE_MAX](_ => 0);
      slots := new Slot[SLOTS](_ => EMPTY);
    }

    function Next(): nat
      reads this
    {
      if generation + 1 == GENERATIONS then 1 else generation + 1
    }

    // wt_pdh_cache_begin.
    method Begin()
      requires Valid() && generation + 1 < GENERATIONS
      modifies this
      ensures Valid() && depth == old(depth) + 1
      ensures generation == if old(depth) == 0 then old(generation) + 1 else old(generation)
    {
      if depth == 0 {
        generation := Next();
      }
      depth := depth + 1;
    }

    // wt_pdh_cache_end: the outermost one closes everything.
    method End()
      requires Valid() && generation + 1 < GENERATIONS
      modifies this, tracked, pdh
      ensures Valid() && depth == (if old(depth) == 0 then 0 else old(depth) - 1)
      ensures generation == if old(depth) == 1 then old(generation) + 1 else old(generation)
      ensures depth == 0 ==> pdh.open == {}
      ensures depth > 0 ==> pdh.open == old(pdh.open)
      ensures pdh.used == old(pdh.used)
    {
      if depth == 0 {
        return;
      }
      depth := depth - 1;
      if depth > 0 {
        return;
      }
      for i := 0 to count
        invariant unchanged(this) || depth == 0
        invariant pdh.Valid() && pdh.used == old(pdh.used) && depth == 0
        invariant count == old(count) && generation == old(generation)
        invariant tracked[i..count] == old(tracked[i..count])
        invariant pdh.open == Elements(tracked[i..count])
      {
        ghost var rest := tracked[i..count];
        assert rest[0] == tracked[i] && rest[1..] == tracked[i + 1..count];
        if tracked[i] != 0 {
          pdh.Close(tracked[i]);
          tracked[i] := 0;
        }
      }
      count := 0;
      generation := Next();
    }

    predicate Active()
      reads this`depth
    {
      depth > 0
    }

    // wt_pdh_cache_track.
    method Track(q: nat) returns (ok: bool)
      requires tracked.Length == CACHE_MAX && count <= CACHE_MAX
      modifies this`count, tracked
      ensures ok <==> Active() && q != 0 && old(count) < CACHE_MAX
      ensures count == if ok then old(count) + 1 else old(count)
      ensures tracked[..count] == if ok then old(tracked[..count]) + [q] else old(tracked[..count])
    {
      if !Active() || q == 0 || count >= CACHE_MAX {
        return false;
      }
      tracked[count] := q;
      count := count + 1;
      return true;
    }

    // wt_pdh_cache_forget: closes a tracked query and drops it from the list.
    method Forget(q: nat) returns (found: bool)
      requires pdh.Valid() && tracked.Length == CACHE_MAX && count <= CACHE_MAX
      requires Distinct(tracked[..count]) && 0 !in tracked[..count]
      requires Elements(tracked[..count]) <= pdh.open
      modifies this`count, tracked, pdh`open
      ensures found <==> q in old(tracked[..count])
      ensures count <= old(count) && Distinct(tracked[..count]) && 0 !in tracked[..count]
      ensures Elements(tracked[..count]) == old(Elements(tracked[..count])) - {q}
      ensures pdh.Valid() && pdh.open == old(pdh.open) - (if found then {q} else {})
    {
      ghost var before := tracked[..count];
      if q == 0 {
        return false;
      }
      var i := 0;
      while i < count
        invariant i <= count && q !in before[..i]
      {
        if tracked[i] != q {
          i := i + 1;
          continue;
        }
        assert before[i] == q && q in Elements(before);
        pdh.Close(q);
        tracked[i] := tracked[count - 1];
        tracked[count - 1] := 0;
        count := count - 1;
        SwapRemoved(before, i, tracked[..count]);
        return true;
      }
      return false;
    }

    // ---- what the clients share ----

    // Slot i answers and the scope is running.
    predicate Live(i: nat)
      requires i < slots.Length
      reads this`depth, this`generation, slots
    {
      Active() && Current(slots[i], generation)
    }

    // A live slot's query is open, and so are its counters' queries.
    lemma LiveIsOpen(i: nat)
      requires Valid() && i < SLOTS && Live(i)
      ensures slots[i].query in pdh.open
      ensures forall c :: c in slots[i].counters ==> c == 0 || c in pdh.open
    {
      assert slots[..][i] == slots[i] && slots[i].query in tracked[..count];
      assert OwnsItsCounters(slots[i]);
    }

    lemma {:induction false} OpenIsTracked()
      requires Valid()
      ensures |pdh.open| <= CACHE_MAX && (depth == 0 ==> pdh.open == {})
    {
      ElementsFit(tracked[..count]);
    }

    lemma Lengths()
      requires Valid()
      ensures slots.Length == SLOTS
    {
    }

    lemma HeldIsOpen(q: nat)
      requires Holding(q) && q != 0
      ensures tracked.Length == CACHE_MAX && slots.Length == SLOTS
      ensures q in pdh.open && forall i :: 0 <= i < SLOTS ==> slots[i].query != q
    {
    }

    // Closes and forgets the query of slot i.
    method Drop(i: nat)
      requires Valid() && i < SLOTS && slots[i].query != 0
      modifies this`count, tracked, slots, pdh`open
      ensures Valid() && slots[i] == EMPTY && forall j :: 0 <= j < SLOTS && j != i ==> slots[j] == old(slots[j])
      ensures pdh.open == old(pdh.open) - {old(slots[i].query)}
    {
      ghost var before, list := slots[..], tracked[..count];
      var found := Forget(slots[i].query);
      slots[i] := EMPTY;
      assert slots[..] == before[i := EMPTY];
      SlotCleared(before, list, tracked[..count], generation, pdh.used, i);
    }

    // A client that misses within a scope first gives up what its slot holds.
    method Release(i: nat)
      requires Valid() && i < SLOTS
      modifies this`count, tracked, slots, pdh`open
      ensures Valid() && forall j :: 0 <= j < SLOTS && j != i ==> slots[j] == old(slots[j])
      ensures Active() ==> slots[i].query == 0
    {
      if slots[i].query != 0 && Active() {
        Drop(i);
      }
    }

    method OpenQuery() returns (q: nat)
      requires Valid()
      modifies pdh
      ensures q == 0 ==> Valid() && pdh.used == old(pdh.used) && pdh.open == old(pdh.open)
      ensures q != 0 ==> Holding(q) && pdh.used == old(pdh.used) + {q}
      ensures q != 0 ==> pdh.open == old(pdh.open) + {q}
    {
      q := pdh.Open();
      assert forall i :: 0 <= i < SLOTS ==> slots[i] == slots[..][i];
    }

    // Hands the held query to the cache, to be found again in slot i. Refused
    // outside a scope, and only there: the list never runs full.
    method Keep(i: nat, q: nat, key: Key, counters: seq<nat>) returns (cached: bool)
      requires Holding(q) && q != 0 && q in pdh.used && i < SLOTS && !Live(i)
      requires forall c :: c in counters ==> c == 0 || c == q
      modifies this`count, tracked, slots
      ensures cached <==> Active()
      ensures cached ==> Valid() && slots[i] == Slot(generation, q, key, counters)
      ensures !cached ==> Holding(q) && slots[i] == old(slots[i])
      ensures forall j :: 0 <= j < SLOTS && j != i ==> slots[j] == old(slots[j])
    {
      ghost var before, list := slots[..], tracked[..count];
      if Active() {
        RoomForOneMore(before, list, generation, pdh.used, i);
      }
      cached := Track(q);
      if cached {
        var s := Slot(generation, q, key, counters);
        slots[i] := s;
        assert slots[..] == before[i := s];
        SlotFilled(before, list, generation, pdh.used, i, s);
        assert Elements(tracked[..count]) == Elements(list) + {q};
      }
    }

    method CloseHeld(q: nat)
      requires Holding(q) && q != 0
      modifies pdh`open
      ensures Valid()
    {
      pdh.Close(q);
    }

    // Adds n counters to a held query; any of them may fail.
    method AddCounters(q: nat, n: nat) returns (cs: seq<nat>)
      requires q != 0 && q in pdh.open
      ensures |cs| == n && forall c :: c in cs ==> c == 0 || c == q
    {
      cs := [];
      for i := 0 to n
        invariant |cs| == i && forall c :: c in cs ==> c == 0 || c == q
      {
        var c := pdh.AddCounter(q);
        cs := cs + [c];
      }
    }

    // A client has query q with counters cs: the cache's, through slot i, or its own.
    ghost predicate Have(i: nat, q: nat, cs: seq<nat>, cached: bool)
      requires slots.Length == SLOTS && i < SLOTS
      reads this, tracked, slots, pdh
    {
      var kept := if cached then Valid() && Live(i) && slots[i].query == q else Holding(q);
      kept && q != 0 && forall c :: c in cs ==> c == 0 || c == q
    }

    lemma HaveIsOpen(i: nat, q: nat, cs: seq<nat>, cached: bool)
      requires slots.Length == SLOTS && i < SLOTS && Have(i, q, cs, cached)
      ensures q in pdh.open && (slots[i].query == q <==> cached)
    {
      if cached {
        LiveIsOpen(i);
      }
    }

    // Two collections, a wait between them.
    method CollectTwice(i: nat, q: nat, cs: seq<nat>, cached: bool) returns (ok: bool)
      requires slots.Length == SLOTS && i < SLOTS && Have(i, q, cs, cached)
    {
      HaveIsOpen(i, q, cs, cached);
      ok := pdh.Collect(q);
      if ok {
        ok := pdh.Collect(q);
      }
    }

    method ReadCounter(i: nat, q: nat, cs: seq<nat>, cached: bool, k: nat) returns (ok: bool)
      requires slots.Length == SLOTS && i < SLOTS && Have(i, q, cs, cached)
      ensures ok ==> Nth(cs, k) != 0
    {
      HaveIsOpen(i, q, cs, cached);
      ok := false;
      if Nth(cs, k) != 0 {
        assert cs[k] in cs;
        ok := pdh.Read(cs[k]);
      }
    }

    // After a failure the query is closed whoever owns it.
    method GiveUp(i: nat, q: nat, cs: seq<nat>, ghost cached: bool)
      requires slots.Length == SLOTS && i < SLOTS && Have(i, q, cs, cached)
      modifies this`count, tracked, slots, pdh`open
      ensures Valid() && forall j :: 0 <= j < SLOTS && j != i ==> slots[j] == old(slots[j])
      ensures !cached ==> forall j :: 0 <= j < SLOTS ==> slots[j] == old(slots[j])
    {
      HaveIsOpen(i, q, cs, cached);
      if slots[i].query == q {
        Drop(i);
      } else {
        CloseHeld(q);
      }
    }

    // After a success only a query of the client's own is closed.
    method CloseOwn(i: nat, q: nat, cs: seq<nat>, ghost cached: bool)
      requires slots.Length == SLOTS && i < SLOTS && Have(i, q, cs, cached)
      modifies pdh`open
      ensures Valid()
    {
      HaveIsOpen(i, q, cs, cached);
      if slots[i].query != q {
        CloseHeld(q);
      }
    }

    // ---- the clients ----

    predicate CpuHit()
      requires slots.Length == SLOTS
      reads this`depth, this`generation, slots
    {
      Live(CPU) && Nth(slots[CPU].counters, 0) != 0
    }

    // wt_collect_cpu_metrics: a hit, or a query of its own (counters total, DPC
    // and interrupt, of which the first must be there).
    method AcquireCpu() returns (q: nat, cs: seq<nat>, cached: bool)
      requires Valid()
      modifies this`count, tracked, slots, pdh
      ensures q == 0 ==> Valid()
      ensures q != 0 ==> Have(CPU, q, cs, cached)
      ensures q != 0 && Active() ==> CpuHit()
      ensures forall j :: 0 <= j < SLOTS && j != CPU ==> slots[j] == old(slots[j])
      ensures old(CpuHit()) ==> q != 0 && pdh.used == old(pdh.used)
    {
      Lengths();
      hide Holding, Valid;
      if CpuHit() {
        LiveIsOpen(CPU);
        return slots[CPU].query, slots[CPU].counters, true;
      }
      Release(CPU);
      q := OpenQuery();
      if q == 0 {
        return 0, [], false;
      }
      HeldIsOpen(q);
      var total := pdh.AddCounter(q);
      if total == 0 {
        CloseHeld(q);
        return 0, [], false;
      }
      cs := AddCounters(q, 2);
      cs := [total] + cs;
      cached := Keep(CPU, q, NoKey, cs);
    }

    method CollectCpu() returns (r: Result)
      requires Valid()
      modifies this`count, tracked, slots, pdh
      ensures Valid() && forall j :: 0 <= j < SLOTS && j != CPU ==> slots[j] == old(slots[j])
      ensures old(CpuHit()) ==> pdh.used == old(pdh.used)
      ensures r == Ok && Active() ==> CpuHit()
    {
      Lengths();
      hide *;
      var q, cs, cached := AcquireCpu();
      if q == 0 {
        return PdhError;
      }
      var ok := CollectTwice(CPU, q, cs, cached);
      var total := false;
      if ok {
        total := ReadCounter(CPU, q, cs, cached, 0);
      }
      if !ok || !total {
        GiveUp(CPU, q, cs, cached);
        return PdhError;
      }
      var dpc := ReadCounter(CPU, q, cs, cached, 1);
      var interrupt := ReadCounter(CPU, q, cs, cached, 2);
      CloseOwn(CPU, q, cs, cached);
      return Ok;
    }

    predicate GpuHit()
      requires slots.Length == SLOTS
      reads this`depth, this`generation, slots
    {
      Live(GPU) && Nth(slots[GPU].counters, 0) != 0
    }

    method AcquireGpu() returns (q: nat, cs: seq<nat>, cached: bool)
      requires Valid()
      modifies this`count, tracked, slots, pdh
      ensures q == 0 ==> Valid()
      ensures q != 0 ==> Have(GPU, q, cs, cached)
      ensures q != 0 && Active() ==> GpuHit()
      ensures forall j :: 0 <= j < SLOTS && j != GPU ==> slots[j] == old(slots[j])
      ensures old(GpuHit()) ==> q != 0 && pdh.used == old(pdh.used)
    {
      Lengths();
      hide Holding, Valid;
      if GpuHit() {
        LiveIsOpen(GPU);
        return slots[GPU].query, slots[GPU].counters, true;
      }
      Release(GPU);
      q := OpenQuery();
      if q == 0 {
        return 0, [], false;
      }
      HeldIsOpen(q);
      var counter := pdh.AddCounter(q);
      if counter == 0 {
        GiveUp(GPU, q, [], false);
        return 0, [], false;
      }
      cs := [counter];
      cached := Keep(GPU, q, NoKey, cs);
    }

    // wt_gpu_sample_utilization: after both collections succeeded the query is
    // kept even when reading its array fails.
    method CollectGpu(adapters: nat) returns (r: Result)
      requires Valid()
      modifies this`count, tracked, slots, pdh
      ensures Valid() && forall j :: 0 <= j < SLOTS && j != GPU ==> slots[j] == old(slots[j])
      ensures old(GpuHit()) ==> pdh.used == old(pdh.used)
      ensures adapters > 0 && r != PdhError && Active() ==> GpuHit()
    {
      Lengths();
      hide Holding, Valid, Have, GpuHit;
      if adapters == 0 {
        return InvalidArgument;
      }
      var q, cs, cached := AcquireGpu();
      if q == 0 {
        return PdhError;
      }
      var ok := CollectTwice(GPU, q, cs, cached);
      if !ok {
        GiveUp(GPU, q, cs, cached);
        return PdhError;
      }
      var sized := ReadCounter(GPU, q, cs, cached, 0);
      var granted: bool := *;
      var read := false;
      if sized && granted {
        read := ReadCounter(GPU, q, cs, cached, 0);
      }
      var anyUse: bool := *;
      CloseOwn(GPU, q, cs, cached);
      return if !sized then PdhError
             else if !granted then OutOfMemory
             else if !read then PdhError
             else if anyUse then Ok else NotFound;
    }

    // wt_memory_read_lists: three standby lists, modified, compression. A query
    // no counter could be added to is not cached.
    method AcquireMemory() returns (q: nat, cs: seq<nat>, cached: bool)
      requires Valid()
      modifies this`count, tracked, slots, pdh
      ensures q == 0 ==> Valid()
      ensures q != 0 ==> Have(MEMORY, q, cs, cached)
      ensures q != 0 && Active() && (exists c :: c in cs && c != 0) ==> Live(MEMORY)
      ensures forall j :: 0 <= j < SLOTS && j != MEMORY ==> slots[j] == old(slots[j])
      ensures old(Live(MEMORY)) ==> q != 0 && pdh.used == old(pdh.used)
    {
      Lengths();
      hide Holding, Valid;
      if Live(MEMORY) {
        LiveIsOpen(MEMORY);
        return slots[MEMORY].query, slots[MEMORY].counters, true;
      }
      Release(MEMORY);
      q := OpenQuery();
      if q == 0 {
        return 0, [], false;
      }
      HeldIsOpen(q);
      cs := AddCounters(q, 5);
      cached := false;
      if exists c :: c in cs && c != 0 {
        cached := Keep(MEMORY, q, NoKey, cs);
      }
    }

    // Whether its query was collected, and the counters that could be added to it.
    method CollectMemory() returns (collected: bool, cs: seq<nat>)
      requires Valid()
      modifies this`count, tracked, slots, pdh
      ensures Valid() && forall j :: 0 <= j < SLOTS && j != MEMORY ==> slots[j] == old(slots[j])
      ensures old(Live(MEMORY)) ==> pdh.used == old(pdh.used)
      ensures collected && Active() && (exists c :: c in cs && c != 0) ==> Live(MEMORY)
    {
      Lengths();
      hide Holding, Valid, Have;
      var q, counters, cached := AcquireMemory();
      cs := counters;
      collected := false;
      if q == 0 {
        return;
      }
      HaveIsOpen(MEMORY, q, cs, cached);
      collected := pdh.Collect(q);
      if !collected {
        GiveUp(MEMORY, q, cs, cached);
        return;
      }
      var again := pdh.Collect(q);
      ReadSizes(q, cs, cached);
      CloseOwn(MEMORY, q, cs, cached);
    }

    // Three standby lists, the modified list and the compressed store.
    method ReadSizes(q: nat, cs: seq<nat>, cached: bool)
      requires slots.Length == SLOTS && Have(MEMORY, q, cs, cached)
    {
      hide Have;
      for k := 0 to 5
        modifies {}
      {
        var read := ReadCounter(MEMORY, q, cs, cached, k);
      }
    }

    // wt_disk_pdh_hit.
    predicate DiskHit(wantTotal: bool, letters: seq<char>)
      requires slots.Length == SLOTS
      reads this`depth, this`generation, slots
    {
      Live(DISK) && slots[DISK].key == DiskKey(wantTotal, letters)
    }

    method AcquireDisk(wantTotal: bool, roots: seq<string>, cacheable: bool)
      returns (q: nat, cs: seq<nat>, cached: bool, memory: bool)
      requires Valid()
      modifies this`count, tracked, slots, pdh
      ensures q == 0 ==> Valid()
      ensures q != 0 ==> Have(DISK, q, cs, cached)
      ensures q != 0 && cacheable && Active() ==> DiskHit(wantTotal, Letters(roots))
      ensures forall j :: 0 <= j < SLOTS && j != DISK ==> slots[j] == old(slots[j])
      ensures cacheable && old(DiskHit(wantTotal, Letters(roots))) ==> q != 0 && pdh.used == old(pdh.used)
    {
      Lengths();
      hide Holding, Valid, Letters;
      var letters := [];
      if cacheable {
        letters := FillLetters(roots);
      }
      if cacheable && DiskHit(wantTotal, letters) {
        LiveIsOpen(DISK);
        return slots[DISK].query, slots[DISK].counters, true, true;
      }
      q, cs, cached, memory := OpenDisk(wantTotal, roots, cacheable, letters);
    }

    // A miss. letters are those of the roots if the query may be cached.
    method OpenDisk(wantTotal: bool, roots: seq<string>, cacheable: bool, letters: seq<char>)
      returns (q: nat, cs: seq<nat>, cached: bool, memory: bool)
      requires Valid() && (cacheable ==> !DiskHit(wantTotal, letters))
      modifies this`count, tracked, slots, pdh
      ensures q == 0 ==> Valid()
      ensures q != 0 ==> Have(DISK, q, cs, cached)
      ensures q != 0 && cacheable && Active() ==> DiskHit(wantTotal, letters)
      ensures forall j :: 0 <= j < SLOTS && j != DISK ==> slots[j] == old(slots[j])
    {
      Lengths();
      hide Holding, Valid, Letters;
      Release(DISK);
      if |roots| > 0 {
        var granted: bool := *;
        if !granted {
          return 0, [], false, false;
        }
      }
      q := OpenQuery();
      if q == 0 {
        return 0, [], false, true;
      }
      HeldIsOpen(q);
      cs := AddDiskCounters(q, wantTotal, roots);
      cached := false;
      memory := true;
      if cacheable {
        cached := Keep(DISK, q, DiskKey(wantTotal, letters), cs);
      }
    }

    // wt_collect_disk_io_ex. Whether a query may be cached is decided on the count
    // given, before a missing volume array sets it to zero.
    method CollectDisk(wantTotal: bool, volumes: Volumes) returns (r: Result)
      requires Valid()
      modifies this`count, tracked, slots, pdh
      ensures Valid() && forall j :: 0 <= j < SLOTS && j != DISK ==> slots[j] == old(slots[j])
      ensures r == InvalidArgument <==> !wantTotal && Roots(volumes) == []
      ensures r == Ok && Active() && Count(volumes) <= VOLUME_MAX ==> DiskHit(wantTotal, Letters(Roots(volumes)))
      ensures Count(volumes) <= VOLUME_MAX && old(DiskHit(wantTotal, Letters(Roots(volumes))))
          ==> pdh.used == old(pdh.used)
    {
      Lengths();
      hide Holding, Valid, Have, DiskHit, Letters;
      if !wantTotal && Roots(volumes) == [] {
        return InvalidArgument;
      }
      var q, cs, cached, memory := AcquireDisk(wantTotal, Roots(volumes), Count(volumes) <= VOLUME_MAX);
      if q == 0 {
        return if memory then PdhError else OutOfMemory;
      }
      var any := false;
      if Useful(cs, 0) {
        var ok := CollectTwice(DISK, q, cs, cached);
        if ok {
          var total := ReadTotal(q, cs, cached);
          any := (wantTotal && total) || Useful(cs, 6);
        }
      }
      if !any {
        GiveUp(DISK, q, cs, cached);
        return PdhError;
      }
      CloseOwn(DISK, q, cs, cached);
      return Ok;
    }

    // Reads every counter; whether the totals yielded a figure.
    method ReadTotal(q: nat, cs: seq<nat>, cached: bool) returns (any: bool)
      requires slots.Length == SLOTS && Have(DISK, q, cs, cached)
    {
      hide Have;
      any := false;
      for k := 0 to |cs|
        modifies {}
      {
        var read := ReadCounter(DISK, q, cs, cached, k);
        var plausible: bool := *;
        any := any || (k < 6 && read && plausible);
      }
    }

    method AddDiskCounters(q: nat, wantTotal: bool, roots: seq<string>) returns (cs: seq<nat>)
      requires q != 0 && q in pdh.open
      ensures |cs| == 6 + 6 * |roots| && forall c :: c in cs ==> c == 0 || c == q
    {
      cs := [0, 0, 0, 0, 0, 0];
      if wantTotal {
        cs := AddCounters(q, 6);
      }
      var more := AddVolumeCounters(q, roots);
      cs := cs + more;
    }

    // Six counters a volume; none for a volume without a drive letter.
    method AddVolumeCounters(q: nat, roots: seq<string>) returns (cs: seq<nat>)
      requires q != 0 && q in pdh.open
      ensures |cs| == 6 * |roots| && forall c :: c in cs ==> c == 0 || c == q
    {
      cs := [];
      for i := 0 to |roots|
        invariant |cs| == 6 * i && forall c :: c in cs ==> c == 0 || c == q
      {
        var six := [0, 0, 0, 0, 0, 0];
        if DriveLetter(roots[i]) != '\0' {
          six := AddCounters(q, 6);
        }
        cs := cs + six;
      }
    }

    // ---- the single slots ----

    predicate SingleHit(i: nat, path: string)
      requires slots.Length == SLOTS && SINGLE <= i < SLOTS
      reads this`depth, this`generation, slots
    {
      Live(i) && slots[i].key == PathKey(path)
    }

    predicate HasSingle(path: string)
      requires slots.Length == SLOTS
      reads this`depth, this`generation, slots
    {
      exists k :: SINGLE <= k < SLOTS && SingleHit(k, path)
    }

    // Some single slot is free or stale.
    predicate HasRoom()
      requires slots.Length == SLOTS
      reads this`depth, this`generation, slots
    {
      exists k :: SINGLE <= k < SLOTS && !Live(k)
    }

    // wt_pdh_single_find: the first slot that answers for path, or none (0).
    method FindSingle(path: string) returns (i: nat)
      requires slots.Length == SLOTS
      ensures i == 0 || SINGLE <= i < SLOTS
      ensures i != 0 ==> SingleHit(i, path)
      ensures i == 0 <==> !HasSingle(path)
    {
      if !Active() {
        return 0;
      }
      for k := SINGLE to SLOTS
        invariant forall m :: SINGLE <= m < k ==> !SingleHit(m, path)
      {
        if slots[k].query != 0 && slots[k].gen == generation && slots[k].key == PathKey(path) {
          assert SingleHit(k, path);
          return k;
        }
      }
      return 0;
    }

    // wt_pdh_single_reserve: the first slot that is free or stale, or none (0).
    method ReserveSingle() returns (i: nat)
      requires slots.Length == SLOTS
      ensures i == 0 || (SINGLE <= i < SLOTS && Active() && !Live(i))
      ensures i != 0 <==> Active() && HasRoom()
    {
      if !Active() {
        return 0;
      }
      for k := SINGLE to SLOTS
        invariant forall m :: SINGLE <= m < k ==> Live(m)
      {
        if slots[k].query == 0 || slots[k].gen != generation {
          return k;
        }
      }
      return 0;
    }

    // i is the slot used; any slot when the query is not cached.
    method AcquireSingle(path: string) returns (q: nat, cs: seq<nat>, cached: bool, i: nat)
      requires Valid()
      modifies this`count, tracked, slots, pdh
      ensures SINGLE <= i < SLOTS
      ensures q == 0 ==> Valid()
      ensures q != 0 ==> Have(i, q, cs, cached)
      ensures q != 0 && cached ==> SingleHit(i, path)
      ensures q != 0 ==> (cached <==> old(HasSingle(path)) || (Active() && |path| < SINGLE_PATH && old(HasRoom())))
      ensures forall j :: 0 <= j < SLOTS && (j != i || !cached) ==> slots[j] == old(slots[j])
      ensures cached ==> old(SingleHit(i, path)) || !old(Live(i))
      ensures old(HasSingle(path)) ==> q != 0 && cached && pdh.used == old(pdh.used)
    {
      Lengths();
      hide Holding, Valid, HasSingle, HasRoom;
      i := FindSingle(path);
      if i != 0 {
        LiveIsOpen(i);
        return slots[i].query, slots[i].counters, true, i;
      }
      q, cs, cached, i := OpenSingle(path);
    }

    // A miss: the query is cached if the path fits a slot and one is free.
    method OpenSingle(path: string) returns (q: nat, cs: seq<nat>, cached: bool, i: nat)
      requires Valid()
      modifies this`count, tracked, slots, pdh
      ensures SINGLE <= i < SLOTS
      ensures q == 0 ==> Valid() && !cached
      ensures q != 0 ==> Have(i, q, cs, cached)
      ensures q != 0 && cached ==> SingleHit(i, path)
      ensures q != 0 ==> (cached <==> Active() && |path| < SINGLE_PATH && old(HasRoom()))
      ensures forall j :: 0 <= j < SLOTS && (j != i || !cached) ==> slots[j] == old(slots[j])
      ensures cached ==> !old(Live(i))
    {
      Lengths();
      hide Holding, Valid, HasSingle, HasRoom;
      q := OpenQuery();
      if q == 0 {
        return 0, [], false, SINGLE;
      }
      HeldIsOpen(q);
      var counter := pdh.AddCounter(q);
      if counter == 0 {
        CloseHeld(q);
        return 0, [], false, SINGLE;
      }
      cs := [counter];
      cached := false;
      i := ReserveSingle();
      if i != 0 && |path| < SINGLE_PATH {
        cached := Keep(i, q, PathKey(path), cs);
      } else {
        i := SINGLE;
      }
    }

    // wt_pdh_sample_single. What is live for another path stays; on success the
    // path is live afterwards exactly when it was, or fits a slot and one is free.
    method SampleSingle(path: string) returns (r: Result)
      requires Valid()
      modifies this`count, tracked, slots, pdh
      ensures Valid()
      ensures forall j :: 0 <= j < SLOTS && (j < SINGLE || (old(Live(j)) && !old(SingleHit(j, path)))) ==> slots[j] == old(slots[j])
      ensures old(HasSingle(path)) ==> pdh.used == old(pdh.used)
      ensures r == Ok ==>
        (HasSingle(path) <==> old(HasSingle(path)) || (Active() && |path| < SINGLE_PATH && old(HasRoom())))
    {
      Lengths();
      hide Holding, Valid, Have, HasRoom;
      var q, cs, cached, i := AcquireSingle(path);
      if q == 0 {
        return PdhError;
      }
      var ok := CollectTwice(i, q, cs, cached);
      if ok {
        ok := ReadCounter(i, q, cs, cached, 0);
      }
      if !ok {
        GiveUp(i, q, cs, cached);
        return PdhError;
      }
      CloseOwn(i, q, cs, cached);
      assert cached ==> SingleHit(i, path);
      assert !cached ==> forall k :: SINGLE <= k < SLOTS ==> SingleHit(k, path) == old(SingleHit(k, path));
      return Ok;
    }
  }

  // ---- runs ----

  datatype Event =
    | ScopeBegin
    | ScopeEnd
    | Cpu
    | Disk(wantTotal: bool, volumes: Volumes)
    | Gpu(adapters: nat)
    | Memory
    | Single(path: string)

  // How deep a run of events leaves the scope; an end outside a scope is ignored.
  function Depth(events: seq<Event>): nat {
    if events == [] then 0
    else
      var d := Depth(events[..|events| - 1]);
      match events[|events| - 1]
      case ScopeBegin => d + 1
      case ScopeEnd => if d == 0 then 0 else d - 1
      case _ => d
  }

  // Every run of scopes and client calls, succeeding or failing as the library
  // pleases. That it verifies at all means no call ever used or closed a query
  // that was not open; and what is open at any time is what the cache tracks,
  // at most eight queries, none outside a scope.
  method Run(events: seq<Event>) returns (cache: Cache)
    requires |events| + 1 < GENERATIONS
    ensures cache.Valid() && cache.depth == Depth(events)
    ensures |cache.pdh.open| <= CACHE_MAX
    ensures Depth(events) == 0 ==> cache.pdh.open == {}
  {
    hide Cache.Holding;
    cache := new Cache();
    for i := 0 to |events|
      invariant cache.Valid() && cache.depth == Depth(events[..i]) && cache.generation <= i
      invariant fresh(cache) && fresh(cache.pdh) && fresh(cache.tracked) && fresh(cache.slots)
    {
      assert events[..i + 1][..i] == events[..i];
      Step(cache, events[i]);
    }
    assert events[..|events|] == events;
    cache.OpenIsTracked();
  }

  method Step(cache: Cache, e: Event)
    requires cache.Valid() && cache.generation + 1 < GENERATIONS
    modifies cache, cache.pdh, cache.tracked, cache.slots
    ensures cache.Valid() && cache.generation <= old(cache.generation) + 1
    ensures cache.depth == match e
                           case ScopeBegin => old(cache.depth) + 1
                           case ScopeEnd => if old(cache.depth) == 0 then 0 else old(cache.depth) - 1
                           case _ => old(cache.depth)
  {
    hide Cache.Holding, Cache.Valid;
    match e {
      case ScopeBegin => cache.Begin();
      case ScopeEnd => cache.End();
      case Cpu => var r := cache.CollectCpu();
      case Disk(wantTotal, volumes) => var r := cache.CollectDisk(wantTotal, volumes);
      case Gpu(adapters) => var r := cache.CollectGpu(adapters);
      case Memory => var collected, cs := cache.CollectMemory();
      case Single(path) => var r := cache.SampleSingle(path);
    }
  }

  // The letter a volume's root path starts with, or none.
  function DriveLetter(root: string): char {
    if root != "" && ('A' <= root[0] <= 'Z' || 'a' <= root[0] <= 'z') then root[0] else '\0'
  }

  function Upper(c: char): char {
    if 'a' <= c <= 'z' then c - 'a' + 'A' else c
  }

  function Letters(roots: seq<string>): (r: seq<char>)
    ensures |r| == |roots|
  {
    seq(|roots|, i requires 0 <= i < |roots| => Upper(DriveLetter(roots[i])))
  }

  // A cached disk query answers for the same drives in the same order, whatever
  // the case of their letters; roots without a letter are alike.
  lemma LettersAreDrives(a: seq<string>, b: seq<string>)
    ensures Letters(a) == Letters(b)
       <==> && |a| == |b|
            && forall i :: 0 <= i < |a| ==>
                 if a[i] != "" && ('A' <= a[i][0] <= 'Z' || 'a' <= a[i][0] <= 'z')
                 then b[i] != "" && FoldChar(b[i][0]) == FoldChar(a[i][0])
                 else b[i] == "" || !('A' <= b[i][0] <= 'Z' || 'a' <= b[i][0] <= 'z')
  {
    forall i | 0 <= i < |a| && |a| == |b|
      ensures Letters(a)[i] == Letters(b)[i]
         <==> if a[i] != "" && ('A' <= a[i][0] <= 'Z' || 'a' <= a[i][0] <= 'z')
              then b[i] != "" && FoldChar(b[i][0]) == FoldChar(a[i][0])
              else b[i] == "" || !('A' <= b[i][0] <= 'Z' || 'a' <= b[i][0] <= 'z')
    {
    }
    if |a| == |b| && forall i :: 0 <= i < |a| ==> Letters(a)[i] == Letters(b)[i] {
      assert Letters(a) == Letters(b);
    }
  }

  // wt_disk_fill_letters.
  method FillLetters(roots: seq<string>) returns (letters: seq<char>)
    ensures letters == Letters(roots)
  {
    letters := [];
    for i := 0 to |roots|
      invariant letters == Letters(roots[..i])
    {
      letters := letters + [Upper(DriveLetter(roots[i]))];
    }
    assert roots[..|roots|] == roots;
  }

  // Some activity or throughput counter of a group from place k on was added.
  predicate Useful(cs: seq<nat>, k: nat) {
    exists i :: k <= i < |cs| && i % 6 < 3 && cs[i] != 0
  }

  // The root paths a disk call looks at, and the number its caller gave.
  function Roots(v: Volumes): seq<string> {
    if v.Volumes? then v.roots else []
  }

  function Count(v: Volumes): nat {
    if v.Volumes? then |v.roots| else v.count
  }

  // A cleared slot has only NULL counters.
  function Nth(cs: seq<nat>, k: nat): nat {
    if k < |cs| then cs[k] else 0
  }

  // Overwriting an element by the last one and dropping that removes just it.
  lemma SwapRemoved(s: seq<nat>, i: nat, s': seq<nat>)
    requires i < |s| && Distinct(s) && |s'| == |s| - 1
    requires forall j :: 0 <= j < |s'| ==> s'[j] == if j == i then s[|s| - 1] else s[j]
    ensures Distinct(s') && Elements(s') == Elements(s) - {s[i]}
  {
    forall q ensures q in s' <==> q in s && q != s[i] {
      if q in s && q != s[i] {
        var k :| 0 <= k < |s| && s[k] == q;
        assert s'[if k == |s| - 1 then i else k] == q;
      }
    }
  }
}
