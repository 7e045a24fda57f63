// The adapter list of src/metrics/network.c: a fixed array that keeps the
// adapters with the most octets, in no particular order.

module NetAdapters {

  const MAX_NET_ADAPTERS: nat := 16
  const TWO_TO_THE_64: nat := 0x1_0000_0000_0000_0000

  type Octets = x: nat | x < TWO_TO_THE_64

  datatype Adapter = Adapter(ifIndex: nat, inBytes: Octets, outBytes: Octets)

  // The 64-bit sum wraps.
  function AdapterOctets(a: Adapter): Octets {
    (a.inBytes + a.outBytes) % TWO_TO_THE_64
  }

  // q is the first of the quietest adapters of s.
  predicate IsQuietest(s: seq<Adapter>, q: nat) {
    && q < |s|
    && (forall k :: 0 <= k < |s| ==> AdapterOctets(s[q]) <= AdapterOctets(s[k]))
    && (forall k :: 0 <= k < q ==> AdapterOctets(s[q]) < AdapterOctets(s[k]))
  }

  // What offering x to a full list s does: out is the new list, gone what left it.
  ghost predicate Displaced(s: seq<Adapter>, x: Adapter, out: seq<Adapter>, gone: Adapter) {
    exists q: nat ::
      && IsQuietest(s, q)
      && if AdapterOctets(x) > AdapterOctets(s[q]) then out == s[q := x] && gone == s[q]
         else out == s && gone == x
  }

  // Adds the candidate while there is room, then lets it replace the quietest
  // kept adapter if it is busier. `dropped` holds whichever adapter went away.
  method KeepBusiest(items: array<Adapter>, count: nat, candidate: Adapter)
    returns (count': nat, ghost dropped: seq<Adapter>)
    requires items.Length == MAX_NET_ADAPTERS && count <= MAX_NET_ADAPTERS
    modifies items
    ensures count' == if count < MAX_NET_ADAPTERS then count + 1 else count
    ensures count < MAX_NET_ADAPTERS ==> items[..count'] == old(items[..count]) + [candidate] && dropped == []
    ensures count == MAX_NET_ADAPTERS ==>
              |dropped| == 1 && Displaced(old(items[..count]), candidate, items[..count'], dropped[0])
  {
    count', dropped := count, [];
    if count < MAX_NET_ADAPTERS {
      items[count] := candidate;
      count' := count + 1;
      return;
    }
    var quiet := 0;
    for i := 1 to count
      invariant quiet < i && IsQuietest(items[..i], quiet)
      invariant items[..] == old(items[..])
    {
      if AdapterOctets(items[i]) < AdapterOctets(items[quiet]) {
        quiet := i;
      }
    }
    assert items[..count] == items[..] == old(items[..count]);
    if AdapterOctets(candidate) > AdapterOctets(items[quiet]) {
      dropped := [items[quiet]];
      items[quiet] := candidate;
      assert items[..count] == old(items[..count])[quiet := candidate];
    } else {
      dropped := [candidate];
    }
  }

  // Nothing that was dropped is busier than anything that was kept.
  ghost predicate Separated(kept: seq<Adapter>, dropped: seq<Adapter>) {
    forall d, k :: 0 <= d < |dropped| && 0 <= k < |kept| ==> AdapterOctets(dropped[d]) <= AdapterOctets(kept[k])
  }

  lemma DisplacedMembers(s: seq<Adapter>, x: Adapter, out: seq<Adapter>, gone: Adapter)
    requires Displaced(s, x, out, gone)
    ensures multiset(out) + multiset{gone} == multiset(s) + multiset{x}
  {
    var q: nat :| q < |s| && ((out == s[q := x] && gone == s[q]) || (out == s && gone == x));
    if out == s[q := x] && gone == s[q] {
      assert multiset(out) == multiset(s) - multiset{s[q]} + multiset{x};
    }
  }

  lemma DisplacedStep(s: seq<Adapter>, x: Adapter, out: seq<Adapter>, gone: Adapter, dropped: seq<Adapter>)
    requires Displaced(s, x, out, gone) && Separated(s, dropped)
    ensures Separated(out, dropped + [gone])
  {
    var q: nat :|
      && IsQuietest(s, q)
      && if AdapterOctets(x) > AdapterOctets(s[q]) then out == s[q := x] && gone == s[q]
         else out == s && gone == x;
    forall d, k | 0 <= d < |dropped| && 0 <= k < |out|
      ensures AdapterOctets(dropped[d]) <= AdapterOctets(out[k])
    {
      assert AdapterOctets(dropped[d]) <= AdapterOctets(s[q]);
      assert AdapterOctets(dropped[d]) <= AdapterOctets(s[k]);
    }
    forall k | 0 <= k < |out| ensures AdapterOctets(gone) <= AdapterOctets(out[k]) {
      assert AdapterOctets(s[q]) <= AdapterOctets(s[k]);
    }
  }

  // Kept and dropped partition what came, and nothing is dropped before the
  // list is full.
  ghost predicate Kept(kept: seq<Adapter>, dropped: seq<Adapter>, stream: seq<Adapter>) {
    && multiset(kept) + multiset(dropped) == multiset(stream)
    && Separated(kept, dropped)
    && (|kept| < MAX_NET_ADAPTERS ==> dropped == [])
  }

  lemma KeptStep(before: seq<Adapter>, dropped: seq<Adapter>, stream: seq<Adapter>, x: Adapter,
                 after: seq<Adapter>, d: seq<Adapter>)
    requires Kept(before, dropped, stream) && |before| <= MAX_NET_ADAPTERS
    requires |before| < MAX_NET_ADAPTERS ==> after == before + [x] && d == []
    requires |before| == MAX_NET_ADAPTERS ==> |d| == 1 && Displaced(before, x, after, d[0])
    ensures Kept(after, dropped + d, stream + [x])
  {
    if |before| == MAX_NET_ADAPTERS {
      DisplacedMembers(before, x, after, d[0]);
      DisplacedStep(before, x, after, d[0], dropped);
      assert d == [d[0]];
    } else {
      assert dropped + d == [];
    }
  }

  method KeepNext(items: array<Adapter>, count: nat, x: Adapter, ghost dropped: seq<Adapter>, ghost seen: seq<Adapter>)
    returns (count': nat, ghost dropped': seq<Adapter>)
    requires items.Length == MAX_NET_ADAPTERS && count <= MAX_NET_ADAPTERS
    requires Kept(items[..count], dropped, seen)
    modifies items
    ensures count' == if count < MAX_NET_ADAPTERS then count + 1 else count
    ensures Kept(items[..count'], dropped', seen + [x])
  {
    hide *;
    ghost var before := items[..count];
    count', dropped' := KeepBusiest(items, count, x);
    KeptStep(before, dropped, seen, x, items[..count'], dropped');
    dropped' := dropped + dropped';
  }

  lemma NothingKept()
    ensures Kept([], [], [])
  {
  }

  // The whole enumeration. Kept and dropped adapters partition the stream, the
  // array is full before anything is dropped, and the kept ones are the busiest.
  method CollectAdapters(items: array<Adapter>, stream: seq<Adapter>)
    returns (count: nat, ghost dropped: seq<Adapter>)
    requires items.Length == MAX_NET_ADAPTERS
    modifies items
    ensures count == if |stream| < MAX_NET_ADAPTERS then |stream| else MAX_NET_ADAPTERS
    ensures Kept(items[..count], dropped, stream)
    ensures forall d, k :: 0 <= d < |dropped| && 0 <= k < count ==>
      (dropped[d].inBytes + dropped[d].outBytes) % 0x1_0000_0000_0000_0000 <= (items[k].inBytes + items[k].outBytes) % 0x1_0000_0000_0000_0000
  {
    hide Kept;
    count, dropped := 0, [];
    NothingKept();
    for i := 0 to |stream|
      invariant count == if i < MAX_NET_ADAPTERS then i else MAX_NET_ADAPTERS
      invariant Kept(items[..count], dropped, stream[..i])
    {
      assert stream[..i + 1] == stream[..i] + [stream[i]];
      count, dropped := KeepNext(items, count, stream[i], dropped, stream[..i]);
    }
    assert stream[..|stream|] == stream;
    KeptIsBusier(items[..count], dropped, stream);
    assert forall k :: 0 <= k < count ==> items[k] == items[..count][k];
  }

  lemma KeptIsBusier(kept: seq<Adapter>, dropped: seq<Adapter>, stream: seq<Adapter>)
    requires Kept(kept, dropped, stream)
    ensures forall d, k :: 0 <= d < |dropped| && 0 <= k < |kept| ==>
      (dropped[d].inBytes + dropped[d].outBytes) % 0x1_0000_0000_0000_0000 <= (kept[k].inBytes + kept[k].outBytes) % 0x1_0000_0000_0000_0000
  {
    assert forall d, k :: 0 <= d < |dropped| && 0 <= k < |kept| ==> AdapterOctets(dropped[d]) <= AdapterOctets(kept[k]);
  }
}
