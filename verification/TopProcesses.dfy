// The bounded process ranking of src/metrics/process.c. Rates are reals; a
// negative rate means the rate was not measured.

module TopProcesses {
  import opened StableSort

  datatype SortBy = Memory | Cpu | Disk | Network

  datatype ProcessInfo = ProcessInfo(
    pid: nat,
    workingSetBytes: nat,
    cpuPercent: real,
    diskRead: real, diskWrite: real,
    netRecv: real, netSend: real,
    udpRecv: real, udpSend: real)

  function Measured(rate: real): real {
    if rate >= 0.0 then rate else 0.0
  }

  function DiskRate(p: ProcessInfo): real {
    Measured(p.diskRead) + Measured(p.diskWrite)
  }

  function NetRate(p: ProcessInfo): real {
    Measured(p.netRecv) + Measured(p.netSend) + Measured(p.udpRecv) + Measured(p.udpSend)
  }

  // Whether a process takes part in the ranking at all.
  predicate Eligible(p: ProcessInfo, sort: SortBy) {
    match sort
    case Cpu => p.cpuPercent >= 0.0
    case Disk => DiskRate(p) > 0.0
    case Network =>
      if p.netRecv < 0.0 && p.netSend < 0.0 && p.udpRecv < 0.0 && p.udpSend < 0.0 then false
      else NetRate(p) > 0.0 || p.workingSetBytes > 0
    case Memory => p.workingSetBytes > 0
  }

  // The ranking key. The conversion to an integer truncates.
  function SortValue(p: ProcessInfo, sort: SortBy): int {
    match sort
    case Cpu => if p.cpuPercent >= 0.0 then (p.cpuPercent * 1000.0).Floor else 0
    case Disk => DiskRate(p).Floor
    case Network => if NetRate(p) > 0.0 then NetRate(p).Floor else p.workingSetBytes
    case Memory => p.workingSetBytes
  }

  function Outranks(sort: SortBy): (ProcessInfo, ProcessInfo) -> bool {
    (a, b) => SortValue(a, sort) > SortValue(b, sort)
  }

  function EligibleOnly(stream: seq<ProcessInfo>, sort: SortBy): seq<ProcessInfo> {
    if stream == [] then []
    else EligibleOnly(stream[..|stream| - 1], sort)
         + (if Eligible(stream[|stream| - 1], sort) then [stream[|stream| - 1]] else [])
  }

  // What the ranking should hold: the head of the whole stable sort.
  function Ranking(stream: seq<ProcessInfo>, sort: SortBy, limit: nat): seq<ProcessInfo> {
    Take(Sort(Outranks(sort), EligibleOnly(stream, sort)), limit)
  }

  // Keeping only `limit` candidates at a time loses nothing.
  lemma RankingStep(stream: seq<ProcessInfo>, p: ProcessInfo, sort: SortBy, limit: nat)
    ensures Sorted(Outranks(sort), Ranking(stream, sort, limit))
    ensures Ranking(stream + [p], sort, limit)
         == if Eligible(p, sort)
            then Take(Insert(Outranks(sort), Ranking(stream, sort, limit), p), limit)
            else Ranking(stream, sort, limit)
  {
    var kept := EligibleOnly(stream, sort);
    assert (stream + [p])[..|stream|] == stream;
    SortIsStable(Outranks(sort), kept);
    if Eligible(p, sort) {
      assert (kept + [p])[..|kept|] == kept;
      TakeInsert(Outranks(sort), Sort(Outranks(sort), kept), p, limit);
    } else {
      assert kept + [] == kept;
    }
  }

  // The ranking is ordered, its ties keep arrival order, and no eligible process
  // left out of it outranks one that is in it.
  lemma RankingMeaning(stream: seq<ProcessInfo>, sort: SortBy, limit: nat)
    ensures var r := Ranking(stream, sort, limit);
            var all := Sort(Outranks(sort), EligibleOnly(stream, sort));
            && |r| == (if |EligibleOnly(stream, sort)| < limit then |EligibleOnly(stream, sort)| else limit)
            && r <= all
            && multiset(all) == multiset(EligibleOnly(stream, sort))
            && (forall p :: Ties(Outranks(sort), all, p) == Ties(Outranks(sort), EligibleOnly(stream, sort), p))
            && (forall i, j :: 0 <= i < |r| && i < j < |all| ==> SortValue(all[i], sort) >= SortValue(all[j], sort))
  {
    SortIsStable(Outranks(sort), EligibleOnly(stream, sort));
  }

  // ---- the same, told by the fields ----

  // A rate that was not measured counts for nothing.
  function Positive(rate: real): real {
    if rate > 0.0 then rate else 0.0
  }

  function DiskTotal(p: ProcessInfo): real {
    Positive(p.diskRead) + Positive(p.diskWrite)
  }

  function NetTotal(p: ProcessInfo): real {
    Positive(p.netRecv) + Positive(p.netSend) + Positive(p.udpRecv) + Positive(p.udpSend)
  }

  // a is at least as busy as b, up to the thousandth of a percent or the byte a
  // second that the ranking drops. Without traffic processes rank by their memory.
  predicate AsBusy(a: ProcessInfo, b: ProcessInfo, sort: SortBy) {
    match sort
    case Memory => b.workingSetBytes <= a.workingSetBytes
    case Cpu => b.cpuPercent < a.cpuPercent + 0.001
    case Disk => DiskTotal(b) < DiskTotal(a) + 1.0
    case Network =>
      if NetTotal(a) > 0.0 then (if NetTotal(b) > 0.0 then NetTotal(b) < NetTotal(a) + 1.0 else b.workingSetBytes as real <= NetTotal(a))
      else (if NetTotal(b) > 0.0 then NetTotal(b) < a.workingSetBytes as real + 1.0 else b.workingSetBytes <= a.workingSetBytes)
  }

  predicate TakesPart(p: ProcessInfo, sort: SortBy) {
    match sort
    case Memory => p.workingSetBytes > 0
    case Cpu => p.cpuPercent >= 0.0
    case Disk => DiskTotal(p) > 0.0
    case Network =>
      && (p.netRecv >= 0.0 || p.netSend >= 0.0 || p.udpRecv >= 0.0 || p.udpSend >= 0.0)
      && (NetTotal(p) > 0.0 || p.workingSetBytes > 0)
  }

  lemma TotalsAre(p: ProcessInfo)
    ensures DiskTotal(p) == DiskRate(p) && NetTotal(p) == NetRate(p)
  {
  }

  lemma EligibleIs(p: ProcessInfo, sort: SortBy)
    ensures Eligible(p, sort) <==> TakesPart(p, sort)
  {
    TotalsAre(p);
  }

  lemma ValueIs(a: ProcessInfo, b: ProcessInfo, sort: SortBy)
    requires Eligible(a, sort) && Eligible(b, sort) && SortValue(a, sort) >= SortValue(b, sort)
    ensures AsBusy(a, b, sort)
  {
    TotalsAre(a);
    TotalsAre(b);
    hide DiskTotal, NetTotal, DiskRate, NetRate;
  }

  lemma {:induction false} EligibleMembers(stream: seq<ProcessInfo>, sort: SortBy, p: ProcessInfo)
    ensures p in EligibleOnly(stream, sort) <==> p in stream && Eligible(p, sort)
  {
    hide Eligible;
    if stream != [] {
      EligibleMembers(stream[..|stream| - 1], sort, p);
      assert stream == stream[..|stream| - 1] + [stream[|stream| - 1]];
    }
  }

  lemma PrefixHas(r: seq<ProcessInfo>, all: seq<ProcessInfo>)
    requires r <= all
    ensures forall j :: 0 <= j < |r| ==> all[j] in r
  {
  }

  lemma RankedTakePart(stream: seq<ProcessInfo>, sort: SortBy)
    ensures var all := Sort(Outranks(sort), EligibleOnly(stream, sort));
      forall p :: p in all <==> p in stream && TakesPart(p, sort)
  {
    hide Eligible, TakesPart, SortValue, Sort;
    var kept := EligibleOnly(stream, sort);
    SortIsStable(Outranks(sort), kept);
    forall p ensures p in Sort(Outranks(sort), kept) <==> p in stream && TakesPart(p, sort) {
      EligibleMembers(stream, sort, p);
      EligibleIs(p, sort);
      assert p in Sort(Outranks(sort), kept) <==> p in multiset(Sort(Outranks(sort), kept));
      assert p in kept <==> p in multiset(kept);
    }
  }

  lemma RankedByFields(stream: seq<ProcessInfo>, sort: SortBy, limit: nat, i: nat, j: nat)
    requires i < |Ranking(stream, sort, limit)| && i < j < |Sort(Outranks(sort), EligibleOnly(stream, sort))|
    ensures var all := Sort(Outranks(sort), EligibleOnly(stream, sort)); AsBusy(all[i], all[j], sort)
  {
    hide *;
    var all := Sort(Outranks(sort), EligibleOnly(stream, sort));
    RankingMeaning(stream, sort, limit);
    RankedTakePart(stream, sort);
    assert all[i] in all && all[j] in all;
    EligibleIs(all[i], sort);
    EligibleIs(all[j], sort);
    ValueIs(all[i], all[j], sort);
  }

  // Every process ranked takes part; each is at least as busy as those after it;
  // and a process that takes part and is not ranked is no busier than any that is.
  lemma RankingByFields(stream: seq<ProcessInfo>, sort: SortBy, limit: nat)
    ensures var r := Ranking(stream, sort, limit);
      && (forall p :: p in r ==> p in stream && TakesPart(p, sort))
      && (forall i, j :: 0 <= i < j < |r| ==> AsBusy(r[i], r[j], sort))
      && (forall p, q :: p in r && q in stream && TakesPart(q, sort) && q !in r ==> AsBusy(p, q, sort) && |r| == limit)
  {
    hide *;
    var all := Sort(Outranks(sort), EligibleOnly(stream, sort));
    var r := Ranking(stream, sort, limit);
    RankingMeaning(stream, sort, limit);
    RankedTakePart(stream, sort);
    LengthOfAll(stream, sort);
    PrefixHas(r, all);
    forall i, j | 0 <= i < j < |r| ensures AsBusy(r[i], r[j], sort) {
      RankedByFields(stream, sort, limit, i, j);
    }
    forall p, q | p in r && q in stream && TakesPart(q, sort) && q !in r ensures AsBusy(p, q, sort) && |r| == limit {
      var i :| 0 <= i < |r| && r[i] == p;
      var j :| 0 <= j < |all| && all[j] == q;
      RankedByFields(stream, sort, limit, i, j);
    }
  }

  lemma LengthOfAll(stream: seq<ProcessInfo>, sort: SortBy)
    ensures |Sort(Outranks(sort), EligibleOnly(stream, sort))| == |EligibleOnly(stream, sort)|
  {
  }

  // top[..filled] is an ordered ranking; one candidate is offered to it.
  method TopkInsert(top: array<ProcessInfo>, filled: nat, limit: nat, candidate: ProcessInfo, sort: SortBy)
    returns (filled': nat)
    requires filled <= limit <= top.Length && 0 < limit
    requires Sorted(Outranks(sort), top[..filled])
    modifies top
    ensures filled' <= limit
    ensures top[..filled']
         == if Eligible(candidate, sort)
            then Take(Insert(Outranks(sort), old(top[..filled]), candidate), limit)
            else old(top[..filled])
    ensures top[limit..] == old(top[limit..])
  {
    ghost var before := top[..filled];
    filled' := filled;
    if !Eligible(candidate, sort) {
      return;
    }
    var key := SortValue(candidate, sort);
    if filled < limit {
      top[filled] := candidate;
      assert top[..filled] == before;
      filled' := filled + 1;
      BubbleForward(Outranks(sort), top, filled);
      assert top[limit..] == top[filled + 1..][limit - filled - 1..];
      return;
    }
    if key <= SortValue(top[filled - 1], sort) {
      assert Take(before + [candidate], limit) == before;
      return;
    }
    assert before[..filled - 1] + [before[filled - 1]] == before;
    top[filled - 1] := candidate;
    assert top[..filled - 1] == before[..filled - 1];
    BubbleForward(Outranks(sort), top, filled - 1);
    assert Take(Insert(Outranks(sort), before, candidate), limit)
        == Insert(Outranks(sort), before[..filled - 1], candidate);
  }

  // The enumeration loop: every process is offered once, in enumeration order.
  method RankProcesses(top: array<ProcessInfo>, limit: nat, stream: seq<ProcessInfo>, sort: SortBy)
    returns (filled: nat)
    requires 0 < limit <= top.Length
    modifies top
    ensures filled <= limit
    ensures top[..filled] == Ranking(stream, sort, limit)
  {
    filled := 0;
    for i := 0 to |stream|
      invariant filled <= limit
      invariant top[..filled] == Ranking(stream[..i], sort, limit)
    {
      RankingStep(stream[..i], stream[i], sort, limit);
      assert stream[..i] + [stream[i]] == stream[..i + 1];
      filled := TopkInsert(top, filled, limit, stream[i], sort);
    }
    assert stream[..|stream|] == stream;
  }
}
