// Short-lived process detection of src/metrics/process.c: snapshots taken
// during a sample window are folded into a table of seen processes, and those
// absent from the closing enumeration are reported.

module ShortLived {
  import opened StableSort
  import opened Strings

  const SEEN_CAP: nat := 1024
  const MAX_SHORT_LIVED: nat := 16
  const NAME_MAX: nat := 64
  const POLL_MS: nat := 50
  const POLL_MAX: nat := 20

  datatype Entry = Entry(pid: nat, parentPid: nat, name: string)
  datatype SeenProc = SeenProc(pid: nat, parentPid: nat, name: string, atStart: bool, atEnd: bool)
  datatype Report = Report(pid: nat, parentPid: nat, name: string)

  // One process of one snapshot, with the role of that snapshot.
  datatype Sighting = Sighting(entry: Entry, atStart: bool, atEnd: bool)

  function StoredName(name: string): string {
    if |name| < NAME_MAX then name else name[..NAME_MAX - 1]
  }

  const PSEUDO_NAMES: seq<string> :=
    ["Idle", "System", "System Idle Process", "Registry", "Memory Compression", "Secure System"]

  predicate KernelPseudo(pid: nat, name: string) {
    pid <= 4 || exists k :: 0 <= k < |PSEUDO_NAMES| && Fold(name) == Fold(PSEUDO_NAMES[k])
  }

  predicate Saw(history: seq<Sighting>, pid: nat) {
    exists i :: 0 <= i < |history| && history[i].entry.pid == pid
  }

  predicate SawAtStart(history: seq<Sighting>, pid: nat) {
    exists i :: 0 <= i < |history| && history[i].entry.pid == pid && history[i].atStart
  }

  predicate SawAtEnd(history: seq<Sighting>, pid: nat) {
    exists i :: 0 <= i < |history| && history[i].entry.pid == pid && history[i].atEnd
  }

  // The row was made at sighting i, the first of its pid.
  predicate MadeAt(row: SeenProc, history: seq<Sighting>, i: nat) {
    && i < |history|
    && !Saw(history[..i], row.pid)
    && row.pid == history[i].entry.pid
    && row.parentPid == history[i].entry.parentPid
    && row.name == StoredName(history[i].entry.name)
  }

  ghost predicate RowOf(row: SeenProc, history: seq<Sighting>) {
    && row.pid > 4
    && (exists i: nat :: MadeAt(row, history, i))
    && row.atStart == SawAtStart(history, row.pid)
    && row.atEnd == SawAtEnd(history, row.pid)
  }

  predicate HasRow(seen: seq<SeenProc>, pid: nat) {
    exists k :: 0 <= k < |seen| && seen[k].pid == pid
  }

  // The table tells the truth about every pid it holds, and holds every pid
  // unless it filled up.
  ghost predicate TableOf(seen: seq<SeenProc>, history: seq<Sighting>) {
    && |seen| <= SEEN_CAP
    && (forall i, j :: 0 <= i < j < |seen| ==> seen[i].pid != seen[j].pid)
    && (forall k :: 0 <= k < |seen| ==> RowOf(seen[k], history))
    && (|seen| < SEEN_CAP ==>
          forall i :: 0 <= i < |history| && history[i].entry.pid > 4 ==> HasRow(seen, history[i].entry.pid))
  }

  function Flagged(row: SeenProc, s: Sighting): SeenProc {
    if row.pid != s.entry.pid then row
    else row.(atStart := row.atStart || s.atStart, atEnd := row.atEnd || s.atEnd)
  }

  lemma SawOneMore(history: seq<Sighting>, s: Sighting, pid: nat)
    ensures Saw(history + [s], pid) <==> Saw(history, pid) || s.entry.pid == pid
    ensures SawAtStart(history + [s], pid) <==> SawAtStart(history, pid) || (s.entry.pid == pid && s.atStart)
    ensures SawAtEnd(history + [s], pid) <==> SawAtEnd(history, pid) || (s.entry.pid == pid && s.atEnd)
  {
    var h := history + [s];
    assert h[|history|] == s;
    assert forall i :: 0 <= i < |history| ==> h[i] == history[i];
  }

  lemma RowOneMore(row: SeenProc, history: seq<Sighting>, s: Sighting)
    requires RowOf(row, history)
    ensures RowOf(Flagged(row, s), history + [s])
  {
    SawOneMore(history, s, row.pid);
    var i: nat :| MadeAt(row, history, i);
    assert (history + [s])[..i] == history[..i];
    assert MadeAt(Flagged(row, s), history + [s], i);
  }

  method SeenNote(seen: array<SeenProc>, count: nat, s: Sighting, ghost history: seq<Sighting>)
    returns (count': nat)
    requires seen.Length == SEEN_CAP && count <= SEEN_CAP && TableOf(seen[..count], history)
    modifies seen
    ensures count <= count' <= SEEN_CAP && TableOf(seen[..count'], history + [s])
  {
    count' := count;
    ghost var before, all := seen[..count], history + [s];
    forall k | 0 <= k < count ensures RowOf(Flagged(before[k], s), all) {
      RowOneMore(before[k], history, s);
    }
    if s.entry.pid <= 4 {
      return;
    }
    var i := 0;
    while i < count
      invariant i <= count && seen[..count] == before
      invariant forall k :: 0 <= k < i ==> before[k].pid != s.entry.pid
    {
      if seen[i].pid == s.entry.pid {
        var row := seen[i];
        if s.atStart {
          row := row.(atStart := true);
        }
        if s.atEnd {
          row := row.(atEnd := true);
        }
        seen[i] := row;
        NoteKnown(before, history, s, i, seen[..count]);
        return;
      }
      i := i + 1;
    }
    if count >= SEEN_CAP {
      return;
    }
    seen[count] := SeenProc(s.entry.pid, s.entry.parentPid, StoredName(s.entry.name), s.atStart, s.atEnd);
    count' := count + 1;
    NoteNew(before, history, s, seen[..count']);
  }

  lemma NoteKnown(before: seq<SeenProc>, history: seq<Sighting>, s: Sighting, i: nat, after: seq<SeenProc>)
    requires TableOf(before, history)
    requires i < |before| && before[i].pid == s.entry.pid
    requires after == before[i := Flagged(before[i], s)]
    ensures TableOf(after, history + [s])
  {
    var all := history + [s];
    forall k | 0 <= k < |after| ensures RowOf(after[k], all) {
      RowOneMore(before[k], history, s);
      assert after[k] == Flagged(before[k], s);
    }
    if |after| < SEEN_CAP {
      forall j | 0 <= j < |all| && all[j].entry.pid > 4 ensures HasRow(after, all[j].entry.pid) {
        if j < |history| {
          var k :| 0 <= k < |before| && before[k].pid == history[j].entry.pid;
          assert after[k].pid == history[j].entry.pid;
        } else {
          assert after[i].pid == s.entry.pid;
        }
      }
    }
  }

  lemma NewRow(before: seq<SeenProc>, history: seq<Sighting>, s: Sighting)
    requires TableOf(before, history) && |before| < SEEN_CAP
    requires !HasRow(before, s.entry.pid) && s.entry.pid > 4
    ensures RowOf(SeenProc(s.entry.pid, s.entry.parentPid, StoredName(s.entry.name), s.atStart, s.atEnd), history + [s])
  {
    hide StoredName;
    assert !Saw(history, s.entry.pid);
    SawOneMore(history, s, s.entry.pid);
    assert (history + [s])[..|history|] == history;
    assert MadeAt(SeenProc(s.entry.pid, s.entry.parentPid, StoredName(s.entry.name), s.atStart, s.atEnd), history + [s], |history|);
  }

  lemma NoteNew(before: seq<SeenProc>, history: seq<Sighting>, s: Sighting, after: seq<SeenProc>)
    requires TableOf(before, history) && |before| < SEEN_CAP
    requires !HasRow(before, s.entry.pid) && s.entry.pid > 4
    requires after == before + [SeenProc(s.entry.pid, s.entry.parentPid, StoredName(s.entry.name), s.atStart, s.atEnd)]
    ensures TableOf(after, history + [s])
  {
    hide RowOf, StoredName;
    var all, n := history + [s], |before|;
    NewRow(before, history, s);
    forall k | 0 <= k < |after| ensures RowOf(after[k], all) {
      if k < n {
        RowOneMore(before[k], history, s);
        assert before[k].pid != s.entry.pid;
      }
    }
    forall j | 0 <= j < |all| && all[j].entry.pid > 4 ensures HasRow(after, all[j].entry.pid) {
      if j < |history| {
        var k :| 0 <= k < n && before[k].pid == history[j].entry.pid;
        assert after[k].pid == history[j].entry.pid;
      } else {
        assert after[n].pid == s.entry.pid;
      }
    }
  }

  function Sightings(entries: seq<Entry>, atStart: bool, atEnd: bool): (r: seq<Sighting>)
    ensures |r| == |entries|
  {
    seq(|entries|, i requires 0 <= i < |entries| => Sighting(entries[i], atStart, atEnd))
  }

  // One enumeration. A snapshot that could not be taken is an empty one.
  method SeenSnapshot(seen: array<SeenProc>, count: nat, entries: seq<Entry>, atStart: bool, atEnd: bool,
                      ghost history: seq<Sighting>)
    returns (count': nat)
    requires seen.Length == SEEN_CAP && count <= SEEN_CAP && TableOf(seen[..count], history)
    modifies seen
    ensures count <= count' <= SEEN_CAP
    ensures TableOf(seen[..count'], history + Sightings(entries, atStart, atEnd))
  {
    count' := count;
    ghost var news := Sightings(entries, atStart, atEnd);
    assert history + news[..0] == history;
    for i := 0 to |entries|
      invariant count <= count' <= SEEN_CAP && TableOf(seen[..count'], history + news[..i])
    {
      assert history + news[..i + 1] == history + news[..i] + [news[i]];
      count' := SeenNote(seen, count', Sighting(entries[i], atStart, atEnd), history + news[..i]);
    }
    assert news[..|entries|] == news;
  }

  // The snapshots taken during a window: one at the start, then the polls.
  function WindowHistory(start: seq<Entry>, polled: seq<seq<Entry>>): seq<Sighting> {
    if polled == [] then Sightings(start, true, false)
    else WindowHistory(start, polled[..|polled| - 1]) + Sightings(polled[|polled| - 1], false, false)
  }

  lemma WindowGrows(start: seq<Entry>, polled: seq<seq<Entry>>, k: nat)
    requires k < |polled|
    ensures WindowHistory(start, polled[..k + 1])
         == WindowHistory(start, polled[..k]) + Sightings(polled[k], false, false)
  {
    assert polled[..k + 1][..k] == polled[..k];
  }

  // How many polls fit strictly inside the window.
  function PollsIn(sampleMs: nat): nat {
    if sampleMs == 0 then 0
    else if (sampleMs - 1) / POLL_MS < POLL_MAX then (sampleMs - 1) / POLL_MS
    else POLL_MAX
  }

  // The sample window. polled[k] is what the k-th poll would find; slept adds
  // up the requested sleeps.
  method SampleWindow(sampleMs: nat, seen: array<SeenProc>, start: seq<Entry>, polled: seq<seq<Entry>>)
    returns (count: nat, slept: nat, polls: nat)
    requires seen.Length == SEEN_CAP && |polled| >= POLL_MAX
    modifies seen
    ensures slept == sampleMs && polls == PollsIn(sampleMs)
    ensures count <= SEEN_CAP && TableOf(seen[..count], WindowHistory(start, polled[..polls]))
  {
    var left := sampleMs;
    slept, polls := 0, 0;
    ghost var h := Sightings(start, true, false);
    assert [] + h == h;
    count := SeenSnapshot(seen, 0, start, true, false, []);
    while left > 0
      invariant slept + left == sampleMs && polls <= POLL_MAX
      invariant left > 0 ==> slept == polls * POLL_MS
      invariant left == 0 ==> polls == PollsIn(sampleMs)
      invariant h == WindowHistory(start, polled[..polls])
      invariant count <= SEEN_CAP && TableOf(seen[..count], h)
    {
      var slice := POLL_MS;
      if polls >= POLL_MAX || slice > left {
        slice := left;
      }
      slept := slept + slice;
      left := left - slice;
      if left > 0 && polls < POLL_MAX {
        WindowGrows(start, polled, polls);
        count := SeenSnapshot(seen, count, polled[polls], false, false, h);
        h := h + Sightings(polled[polls], false, false);
        polls := polls + 1;
      }
    }
  }

  // What a pass looks for: born and died inside the window, or there at the
  // start and gone at the end.
  predicate Reportable(row: SeenProc, born: bool) {
    !row.atEnd && row.atStart == !born && !KernelPseudo(row.pid, row.name)
  }

  function Reports(seen: seq<SeenProc>, born: bool): seq<Report> {
    if seen == [] then []
    else
      var row := seen[|seen| - 1];
      Reports(seen[..|seen| - 1], born)
      + (if Reportable(row, born) then [Report(row.pid, row.parentPid, row.name)] else [])
  }

  function Limit(cap: nat): nat {
    if cap > MAX_SHORT_LIVED then MAX_SHORT_LIVED else cap
  }

  // Two passes over the table: born-and-died rows first, then the others.
  method SeenEmit(seen: seq<SeenProc>, out: array<Report>, cap: nat) returns (n: nat)
    requires cap <= out.Length
    modifies out
    ensures n <= Limit(cap)
    ensures out[..n] == Take(Reports(seen, true) + Reports(seen, false), Limit(cap))
  {
    n := 0;
    if cap == 0 {
      return;
    }
    var limit := if cap > MAX_SHORT_LIVED then MAX_SHORT_LIVED else cap;
    n := EmitPass(seen, out, limit, 0, true);
    assert [] + Reports(seen, true) == Reports(seen, true);
    if n < limit {
      n := EmitPass(seen, out, limit, n, false);
    }
    PrefixOfConcat(Reports(seen, true), Reports(seen, false), limit);
  }

  lemma PrefixOfConcat<T>(a: seq<T>, b: seq<T>, n: nat)
    ensures |Take(a, n)| >= n ==> Take(a + b, n) == Take(a, n)
  {
  }

  method EmitPass(seen: seq<SeenProc>, out: array<Report>, limit: nat, start: nat, born: bool) returns (n: nat)
    requires start <= limit <= out.Length
    modifies out
    ensures n <= limit
    ensures out[..n] == Take(old(out[..start]) + Reports(seen, born), limit)
  {
    n := start;
    var i := 0;
    ghost var so := out[..start];
    assert so + Reports(seen[..0], born) == so;
    while i < |seen| && n < limit
      invariant i <= |seen| && n <= limit
      invariant so == old(out[..start]) + Reports(seen[..i], born)
      invariant out[..n] == so
    {
      var row := seen[i];
      ReportsStep(seen, i, born, old(out[..start]));
      if Reportable(row, born) {
        out[n] := Report(row.pid, row.parentPid, row.name);
        n := n + 1;
        so := so + [Report(row.pid, row.parentPid, row.name)];
      }
      i := i + 1;
    }
    ReportsGrow(seen, i, born);
    assert seen[..|seen|] == seen;
  }

  lemma ReportsStep(seen: seq<SeenProc>, i: nat, born: bool, before: seq<Report>)
    requires i < |seen|
    ensures before + Reports(seen[..i + 1], born)
         == if Reportable(seen[i], born)
            then before + Reports(seen[..i], born) + [Report(seen[i].pid, seen[i].parentPid, seen[i].name)]
            else before + Reports(seen[..i], born)
  {
    assert seen[..i + 1][..i] == seen[..i];
    assert before + Reports(seen[..i], born) + [] == before + Reports(seen[..i], born);
  }

  lemma {:induction false} ReportsGrow(seen: seq<SeenProc>, i: nat, born: bool)
    requires i <= |seen|
    ensures Reports(seen[..i], born) <= Reports(seen, born)
  {
    if i < |seen| {
      ReportsGrow(seen[..|seen| - 1], i, born);
      assert seen[..|seen| - 1][..i] == seen[..i];
    } else {
      assert seen[..i] == seen;
    }
  }

  // Everything a collection saw, in order.
  function FullHistory(start: seq<Entry>, polled: seq<seq<Entry>>, closing: seq<Entry>): seq<Sighting> {
    WindowHistory(start, polled) + Sightings(closing, false, true)
  }

  // The whole collection: the window, the closing enumeration, the report.
  method CollectShortLived(sampleMs: nat, start: seq<Entry>, polled: seq<seq<Entry>>, closing: seq<Entry>,
                           out: array<Report>, cap: nat)
    returns (n: nat, seen: seq<SeenProc>)
    requires |polled| >= POLL_MAX && cap <= out.Length
    modifies out
    ensures TableOf(seen, FullHistory(start, polled[..PollsIn(sampleMs)], closing))
    ensures n <= Limit(cap)
    ensures out[..n] == Take(Reports(seen, true) + Reports(seen, false), Limit(cap))
  {
    var table := new SeenProc[SEEN_CAP];
    var count, slept, polls := SampleWindow(sampleMs, table, start, polled);
    count := SeenSnapshot(table, count, closing, false, true, WindowHistory(start, polled[..polls]));
    seen := table[..count];
    n := SeenEmit(seen, out, cap);
  }

  // ---- the samples of a scan ----

  predicate Reported(reports: seq<Report>, pid: nat) {
    exists i :: 0 <= i < |reports| && reports[i].pid == pid
  }

  // The first report of every pid.
  function FirstReports(reports: seq<Report>): seq<Report> {
    if reports == [] then []
    else
      var front, r := FirstReports(reports[..|reports| - 1]), reports[|reports| - 1];
      if Reported(front, r.pid) then front else front + [r]
  }

  // All samples' reports, one after another.
  function AllReports(samples: seq<seq<Report>>): seq<Report> {
    if samples == [] then [] else AllReports(samples[..|samples| - 1]) + samples[|samples| - 1]
  }

  // What a collection may deliver: see CollectShortLived.
  predicate OneSample(reports: seq<Report>) {
    |reports| <= MAX_SHORT_LIVED && forall i, j :: 0 <= i < j < |reports| ==> reports[i].pid != reports[j].pid
  }

  // What one collection reports is one sample.
  lemma CollectionIsOneSample(seen: seq<SeenProc>, history: seq<Sighting>, cap: nat)
    requires TableOf(seen, history)
    ensures OneSample(Take(Reports(seen, true) + Reports(seen, false), Limit(cap)))
  {
    hide Reports;
    ReportedPidsDistinct(seen, history);
  }

  lemma FirstReportsStep(reports: seq<Report>, r: Report)
    ensures FirstReports(reports + [r])
         == if Reported(FirstReports(reports), r.pid) then FirstReports(reports) else FirstReports(reports) + [r]
  {
    assert (reports + [r])[..|reports|] == reports;
  }

  // The short-lived part of wt_scan_merge_sample: a later sample's reports are
  // appended, but for the known pids, while there is room.
  method MergeReports(acc: array<Report>, count: nat, sample: seq<Report>, ghost before: seq<Report>) returns (count': nat)
    requires acc.Length == MAX_SHORT_LIVED && count <= MAX_SHORT_LIVED
    requires acc[..count] == Take(FirstReports(before), MAX_SHORT_LIVED)
    modifies acc
    ensures count' <= MAX_SHORT_LIVED && acc[..count'] == Take(FirstReports(before + sample), MAX_SHORT_LIVED)
  {
    hide FirstReports, Reported;
    count' := count;
    var i := 0;
    assert before + sample[..0] == before;
    while i < |sample| && count' < MAX_SHORT_LIVED
      invariant i <= |sample| && count' <= MAX_SHORT_LIVED
      invariant acc[..count'] == Take(FirstReports(before + sample[..i]), MAX_SHORT_LIVED)
    {
      var known := Knows(acc, count', sample[i].pid);
      assert before + sample[..i + 1] == (before + sample[..i]) + [sample[i]];
      FirstReportsStep(before + sample[..i], sample[i]);
      if !known {
        acc[count'] := sample[i];
        count' := count' + 1;
      }
      i := i + 1;
    }
    assert before + sample == (before + sample[..i]) + sample[i..];
    MoreReports(before + sample[..i], sample[i..]);
    if i == |sample| {
      assert before + sample[..i] == before + sample;
    } else {
      TakePrefix(FirstReports(before + sample[..i]), FirstReports(before + sample), MAX_SHORT_LIVED);
    }
  }

  method Knows(acc: array<Report>, count: nat, pid: nat) returns (known: bool)
    requires count <= acc.Length
    ensures known == Reported(acc[..count], pid)
  {
    for j := 0 to count
      invariant !Reported(acc[..j], pid)
    {
      if acc[j].pid == pid {
        assert acc[..count][j].pid == pid;
        return true;
      }
    }
    return false;
  }

  // What is reported later comes later.
  lemma {:induction false} MoreReports(reports: seq<Report>, more: seq<Report>)
    ensures FirstReports(reports) <= FirstReports(reports + more)
  {
    if more == [] {
      assert reports + more == reports;
    } else {
      var front := more[..|more| - 1];
      assert reports + more == (reports + front) + [more[|more| - 1]];
      MoreReports(reports, front);
      FirstReportsStep(reports + front, more[|more| - 1]);
    }
  }

  lemma TakePrefix<T>(a: seq<T>, b: seq<T>, n: nat)
    requires a <= b && |a| >= n
    ensures Take(a, n) == Take(b, n)
  {
    assert a[..n] == b[..n];
  }

  lemma {:induction false} FirstReportsAreDistinct(reports: seq<Report>)
    ensures var f := FirstReports(reports); forall i, j :: 0 <= i < j < |f| ==> f[i].pid != f[j].pid
    ensures forall pid :: Reported(FirstReports(reports), pid) <==> Reported(reports, pid)
  {
    if reports != [] {
      var front, r := reports[..|reports| - 1], reports[|reports| - 1];
      var f := FirstReports(front);
      FirstReportsAreDistinct(front);
      assert reports == front + [r];
      FirstReportsStep(front, r);
      if !Reported(f, r.pid) {
        assert forall i :: 0 <= i < |f| ==> f[i].pid != r.pid;
        assert FirstReports(reports) == f + [r];
      }
      forall pid ensures Reported(FirstReports(reports), pid) <==> Reported(reports, pid) {
        OneMoreReport(front, r, pid);
        OneMoreReport(f, r, pid);
      }
    }
  }

  lemma OneMoreReport(reports: seq<Report>, r: Report, pid: nat)
    ensures Reported(reports + [r], pid) <==> Reported(reports, pid) || r.pid == pid
  {
    assert (reports + [r])[|reports|] == r;
    if Reported(reports, pid) {
      var i :| 0 <= i < |reports| && reports[i].pid == pid;
      assert (reports + [r])[i] == reports[i];
    }
  }

  // Reports of distinct pids are all first ones.
  lemma {:induction false} SampleIsFirst(reports: seq<Report>)
    requires forall i, j :: 0 <= i < j < |reports| ==> reports[i].pid != reports[j].pid
    ensures FirstReports(reports) == reports
  {
    hide FirstReports, Reported;
    if reports == [] {
      NoReports();
    } else {
      var front, r := reports[..|reports| - 1], reports[|reports| - 1];
      assert reports == front + [r];
      SampleIsFirst(front);
      FirstReportsStep(front, r);
      NotReported(front, r.pid);
    }
  }

  lemma NoReports()
    ensures FirstReports([]) == []
  {
  }

  lemma NotReported(reports: seq<Report>, pid: nat)
    requires forall i :: 0 <= i < |reports| ==> reports[i].pid != pid
    ensures !Reported(reports, pid)
  {
  }

  // A whole scan: the first sample's reports are copied and the others merged.
  // What remains are the first sixteen first reports.
  method MergeScan(samples: seq<seq<Report>>) returns (reports: seq<Report>)
    requires samples != [] && forall s :: s in samples ==> OneSample(s)
    ensures reports == Take(FirstReports(AllReports(samples)), MAX_SHORT_LIVED)
    ensures |reports| <= MAX_SHORT_LIVED && forall i, j :: 0 <= i < j < |reports| ==> reports[i].pid != reports[j].pid
    ensures forall r :: r in reports ==> Reported(AllReports(samples), r.pid)
    ensures |reports| < MAX_SHORT_LIVED ==> forall pid :: Reported(AllReports(samples), pid) ==> Reported(reports, pid)
  {
    hide FirstReports, Reported;
    assert samples[0] in samples;
    SampleIsFirst(samples[0]);
    AllReportsStep([], samples[0]);
    assert samples[..1] == [] + [samples[0]];
    var acc := new Report[MAX_SHORT_LIVED](i requires 0 <= i => if i < |samples[0]| then samples[0][i] else Report(0, 0, ""));
    var count: nat := |samples[0]|;
    assert acc[..count] == samples[0];
    for i := 1 to |samples|
      invariant count <= MAX_SHORT_LIVED
      invariant acc[..count] == Take(FirstReports(AllReports(samples[..i])), MAX_SHORT_LIVED)
    {
      assert samples[..i + 1] == samples[..i] + [samples[i]];
      AllReportsStep(samples[..i], samples[i]);
      count := MergeReports(acc, count, samples[i], AllReports(samples[..i]));
    }
    assert samples[..|samples|] == samples;
    reports := acc[..count];
    FirstReportsAreDistinct(AllReports(samples));
    forall r | r in reports ensures Reported(AllReports(samples), r.pid) {
      InFirst(AllReports(samples), r);
    }
  }

  lemma AllReportsStep(samples: seq<seq<Report>>, s: seq<Report>)
    ensures AllReports(samples + [s]) == AllReports(samples) + s
    ensures samples == [] ==> AllReports(samples + [s]) == s
  {
    assert (samples + [s])[..|samples|] == samples;
  }

  lemma InFirst(reports: seq<Report>, r: Report)
    requires r in FirstReports(reports)
    ensures Reported(reports, r.pid)
  {
    FirstReportsAreDistinct(reports);
  }

  predicate Lists(entries: seq<Entry>, pid: nat) {
    exists i :: 0 <= i < |entries| && entries[i].pid == pid
  }

  lemma SightingsSaw(entries: seq<Entry>, atStart: bool, atEnd: bool, pid: nat)
    ensures Saw(Sightings(entries, atStart, atEnd), pid) <==> Lists(entries, pid)
    ensures SawAtStart(Sightings(entries, atStart, atEnd), pid) <==> atStart && Lists(entries, pid)
    ensures SawAtEnd(Sightings(entries, atStart, atEnd), pid) <==> atEnd && Lists(entries, pid)
  {
    var h := Sightings(entries, atStart, atEnd);
    assert forall i :: 0 <= i < |entries| ==> h[i] == Sighting(entries[i], atStart, atEnd);
  }

  lemma SawConcat(a: seq<Sighting>, b: seq<Sighting>, pid: nat)
    ensures Saw(a + b, pid) <==> Saw(a, pid) || Saw(b, pid)
    ensures SawAtStart(a + b, pid) <==> SawAtStart(a, pid) || SawAtStart(b, pid)
    ensures SawAtEnd(a + b, pid) <==> SawAtEnd(a, pid) || SawAtEnd(b, pid)
  {
    assert forall i :: 0 <= i < |a| ==> (a + b)[i] == a[i];
    assert forall i :: 0 <= i < |b| ==> (a + b)[|a| + i] == b[i];
  }

  lemma {:induction false} WindowSaw(start: seq<Entry>, polled: seq<seq<Entry>>, pid: nat)
    ensures Saw(WindowHistory(start, polled), pid)
       <==> Lists(start, pid) || exists k :: 0 <= k < |polled| && Lists(polled[k], pid)
    ensures SawAtStart(WindowHistory(start, polled), pid) <==> Lists(start, pid)
    ensures !SawAtEnd(WindowHistory(start, polled), pid)
  {
    if polled == [] {
      SightingsSaw(start, true, false, pid);
    } else {
      var front, last := polled[..|polled| - 1], polled[|polled| - 1];
      WindowSaw(start, front, pid);
      SightingsSaw(last, false, false, pid);
      SawConcat(WindowHistory(start, front), Sightings(last, false, false), pid);
      assert forall k :: 0 <= k < |front| ==> polled[k] == front[k];
    }
  }

  // The flags of a collection, in terms of its enumerations.
  lemma FullSaw(start: seq<Entry>, polled: seq<seq<Entry>>, closing: seq<Entry>, pid: nat)
    ensures var h := FullHistory(start, polled, closing);
            && (SawAtStart(h, pid) <==> Lists(start, pid))
            && (SawAtEnd(h, pid) <==> Lists(closing, pid))
            && (Saw(h, pid) <==> Saw(WindowHistory(start, polled), pid) || Lists(closing, pid))
  {
    WindowSaw(start, polled, pid);
    SightingsSaw(closing, false, true, pid);
    SawConcat(WindowHistory(start, polled), Sightings(closing, false, true), pid);
  }

  lemma {:induction false} ReportsComeFromRows(seen: seq<SeenProc>, born: bool, r: Report)
    ensures r in Reports(seen, born) <==>
            exists k :: 0 <= k < |seen| && Reportable(seen[k], born)
                     && r == Report(seen[k].pid, seen[k].parentPid, seen[k].name)
  {
    if seen != [] {
      ReportsComeFromRows(seen[..|seen| - 1], born, r);
      assert forall k :: 0 <= k < |seen| - 1 ==> seen[..|seen| - 1][k] == seen[k];
    }
  }

  // Soundness: a reported process was in some snapshot of the window, is not in
  // the closing enumeration, and is in the pass its presence at the start says.
  lemma ReportedWasShortLived(seen: seq<SeenProc>, start: seq<Entry>, polled: seq<seq<Entry>>, closing: seq<Entry>,
                              born: bool, r: Report)
    requires TableOf(seen, FullHistory(start, polled, closing)) && r in Reports(seen, born)
    ensures Lists(start, r.pid) || exists k :: 0 <= k < |polled| && Lists(polled[k], r.pid)
    ensures !Lists(closing, r.pid)
    ensures born <==> !Lists(start, r.pid)
    ensures !KernelPseudo(r.pid, r.name)
  {
    ReportsComeFromRows(seen, born, r);
    var k :| 0 <= k < |seen| && Reportable(seen[k], born)
          && r == Report(seen[k].pid, seen[k].parentPid, seen[k].name);
    var h := FullHistory(start, polled, closing);
    var i: nat :| MadeAt(seen[k], h, i);
    assert Saw(h, r.pid);
    FullSaw(start, polled, closing, r.pid);
    WindowSaw(start, polled, r.pid);
  }

  lemma {:induction false} ReportsDistinct(seen: seq<SeenProc>, born: bool)
    requires forall i, j :: 0 <= i < j < |seen| ==> seen[i].pid != seen[j].pid
    ensures forall i, j :: 0 <= i < j < |Reports(seen, born)| ==>
              Reports(seen, born)[i].pid != Reports(seen, born)[j].pid
  {
    if seen != [] {
      var front := seen[..|seen| - 1];
      ReportsDistinct(front, born);
      forall r | r in Reports(front, born) ensures r.pid != seen[|seen| - 1].pid {
        ReportsComeFromRows(front, born, r);
      }
    }
  }

  // No pid is reported twice, within a pass or across the two.
  lemma ReportedPidsDistinct(seen: seq<SeenProc>, history: seq<Sighting>)
    requires TableOf(seen, history)
    ensures var all := Reports(seen, true) + Reports(seen, false);
            forall i, j :: 0 <= i < j < |all| ==> all[i].pid != all[j].pid
  {
    var a, b := Reports(seen, true), Reports(seen, false);
    ReportsDistinct(seen, true);
    ReportsDistinct(seen, false);
    forall i, j | 0 <= i < |a| && 0 <= j < |b| ensures a[i].pid != b[j].pid {
      ReportsComeFromRows(seen, true, a[i]);
      ReportsComeFromRows(seen, false, b[j]);
    }
  }

  lemma FirstSightingIsUnique(h: seq<Sighting>, pid: nat, i: nat, j: nat)
    requires i < |h| && j < |h| && h[i].entry.pid == pid == h[j].entry.pid
    requires !Saw(h[..i], pid) && !Saw(h[..j], pid)
    ensures i == j
  {
  }

  lemma UserPid(pid: nat, name: string)
    requires !KernelPseudo(pid, name)
    ensures pid > 4
  {
  }

  // Completeness: unless the table filled up, a process seen in the window and
  // gone at the end, not a kernel pseudo-process by its first sighting, is
  // among the candidates of its pass.
  lemma ShortLivedIsReported(seen: seq<SeenProc>, start: seq<Entry>, polled: seq<seq<Entry>>, closing: seq<Entry>,
                             first: nat)
    requires TableOf(seen, FullHistory(start, polled, closing)) && |seen| < SEEN_CAP
    requires first < |FullHistory(start, polled, closing)|
    requires var h := FullHistory(start, polled, closing);
             var e := h[first].entry;
             && !Saw(h[..first], e.pid) && !Lists(closing, e.pid)
             && !KernelPseudo(e.pid, StoredName(e.name))
    ensures var e := FullHistory(start, polled, closing)[first].entry;
            Report(e.pid, e.parentPid, StoredName(e.name)) in Reports(seen, !Lists(start, e.pid))
  {
    hide KernelPseudo, FullHistory, StoredName, Reports;
    var h := FullHistory(start, polled, closing);
    var e := h[first].entry;
    assert e.pid > 4 by { UserPid(e.pid, StoredName(e.name)); }
    assert HasRow(seen, e.pid);
    var k :| 0 <= k < |seen| && seen[k].pid == e.pid;
    var i: nat :| MadeAt(seen[k], h, i);
    FirstSightingIsUnique(h, e.pid, i, first);
    FullSaw(start, polled, closing, e.pid);
    ReportsComeFromRows(seen, !Lists(start, e.pid), Report(e.pid, e.parentPid, StoredName(e.name)));
  }
}
