// Stable ordering by insertion. The process ranking, the GPU ranking and the
// guided plan all keep a sequence ordered by moving one new element forward past
// the elements it strictly precedes; this module says what such a loop computes.

module StableSort {

  // `less` is a strict weak order: ties are an equivalence.
  ghost predicate WeakOrder<T(!new)>(less: (T, T) -> bool) {
    && (forall x :: !less(x, x))
    && (forall x, y, z :: less(x, y) && less(y, z) ==> less(x, z))
    && (forall x, y, z :: less(x, z) ==> less(x, y) || less(y, z))
  }

  // No later element strictly precedes an earlier one.
  ghost predicate Sorted<T(!new)>(less: (T, T) -> bool, s: seq<T>) {
    forall i, j :: 0 <= i < j < |s| ==> !less(s[j], s[i])
  }

  // The elements of s that tie with p, in the order s holds them.
  ghost function Ties<T>(less: (T, T) -> bool, s: seq<T>, p: T): seq<T> {
    if s == [] then []
    else Ties(less, s[..|s| - 1], p)
         + (if less(s[|s| - 1], p) || less(p, s[|s| - 1]) then [] else [s[|s| - 1]])
  }

  // x goes after the last element it does not precede.
  function Insert<T>(less: (T, T) -> bool, s: seq<T>, x: T): (r: seq<T>)
    ensures |r| == |s| + 1
  {
    if s == [] || !less(x, s[|s| - 1]) then s + [x]
    else Insert(less, s[..|s| - 1], x) + [s[|s| - 1]]
  }

  function Sort<T>(less: (T, T) -> bool, s: seq<T>): (r: seq<T>)
    ensures |r| == |s|
  {
    if s == [] then [] else Insert(less, Sort(less, s[..|s| - 1]), s[|s| - 1])
  }

  lemma {:induction false} InsertMembers<T>(less: (T, T) -> bool, s: seq<T>, x: T)
    ensures multiset(Insert(less, s, x)) == multiset(s) + multiset{x}
  {
    if s == [] || !less(x, s[|s| - 1]) {
    } else {
      InsertMembers(less, s[..|s| - 1], x);
      assert s == s[..|s| - 1] + [s[|s| - 1]];
    }
  }

  lemma {:induction false} InsertSorted<T(!new)>(less: (T, T) -> bool, s: seq<T>, x: T)
    requires WeakOrder(less) && Sorted(less, s)
    ensures Sorted(less, Insert(less, s, x))
  {
    if s == [] || !less(x, s[|s| - 1]) {
    } else {
      var front, last := s[..|s| - 1], s[|s| - 1];
      InsertSorted(less, front, x);
      InsertMembers(less, front, x);
      var r := Insert(less, front, x);
      forall i | 0 <= i < |r| ensures !less(last, r[i]) {
        assert r[i] in multiset(front) + multiset{x};
        assert r[i] in front || r[i] == x;
      }
    }
  }

  lemma {:induction false} TiesConcat<T>(less: (T, T) -> bool, a: seq<T>, b: seq<T>, p: T)
    ensures Ties(less, a + b, p) == Ties(less, a, p) + Ties(less, b, p)
  {
    if b == [] {
      assert a + b == a;
    } else {
      assert (a + b)[..|a + b| - 1] == a + b[..|b| - 1];
      TiesConcat(less, a, b[..|b| - 1], p);
    }
  }

  lemma {:induction false} InsertTies<T(!new)>(less: (T, T) -> bool, s: seq<T>, x: T, p: T)
    requires WeakOrder(less)
    ensures Ties(less, Insert(less, s, x), p) == Ties(less, s + [x], p)
  {
    if s == [] || !less(x, s[|s| - 1]) {
    } else {
      var front, last := s[..|s| - 1], s[|s| - 1];
      InsertTies(less, front, x, p);
      assert (Insert(less, front, x) + [last])[..|s|] == Insert(less, front, x);
      assert (front + [x])[..|front|] == front;
      assert (s + [x])[..|s|] == s;
    }
  }

  // Sorting keeps the elements, orders them, and never reorders a tie.
  lemma {:induction false} SortIsStable<T(!new)>(less: (T, T) -> bool, s: seq<T>)
    requires WeakOrder(less)
    ensures Sorted(less, Sort(less, s))
    ensures multiset(Sort(less, s)) == multiset(s)
    ensures forall p :: Ties(less, Sort(less, s), p) == Ties(less, s, p)
  {
    if s != [] {
      var front, last := s[..|s| - 1], s[|s| - 1];
      assert s == front + [last];
      SortIsStable(less, front);
      InsertSorted(less, Sort(less, front), last);
      InsertMembers(less, Sort(less, front), last);
      forall p ensures Ties(less, Sort(less, s), p) == Ties(less, s, p) {
        InsertTies(less, Sort(less, front), last, p);
        TiesConcat(less, Sort(less, front), [last], p);
        TiesConcat(less, front, [last], p);
      }
    }
  }

  lemma {:induction false} TiesMember<T>(less: (T, T) -> bool, s: seq<T>, p: T, k: nat)
    requires k < |Ties(less, s, p)|
    ensures Ties(less, s, p)[k] in s
    ensures !less(Ties(less, s, p)[k], p) && !less(p, Ties(less, s, p)[k])
  {
    if k < |Ties(less, s[..|s| - 1], p)| {
      TiesMember(less, s[..|s| - 1], p, k);
    }
  }

  // Dropping the last element drops it from its own ties and from no others.
  lemma DropLastTies<T(!new)>(less: (T, T) -> bool, s: seq<T>, p: T)
    requires WeakOrder(less) && s != []
    ensures less(s[|s| - 1], p) || less(p, s[|s| - 1])
            ==> Ties(less, s[..|s| - 1], p) == Ties(less, s, p)
    ensures !less(s[|s| - 1], p) && !less(p, s[|s| - 1])
            ==> var t := Ties(less, s, p);
                t != [] && t[|t| - 1] == s[|s| - 1] && Ties(less, s[..|s| - 1], p) == t[..|t| - 1]
  {
    var x, front := s[|s| - 1], s[..|s| - 1];
    if less(x, p) || less(p, x) {
      assert Ties(less, s, p) == Ties(less, front, p) + [];
    } else {
      assert Ties(less, s, p) == Ties(less, front, p) + [x];
    }
  }

  lemma {:induction false} LastIsShared<T(!new)>(less: (T, T) -> bool, a: seq<T>, b: seq<T>)
    requires WeakOrder(less) && Sorted(less, a) && Sorted(less, b)
    requires forall p :: Ties(less, a, p) == Ties(less, b, p)
    requires a != []
    ensures b != [] && a[|a| - 1] == b[|b| - 1]
  {
    var x := a[|a| - 1];
    DropLastTies(less, a, x);
    TiesMember(less, b, x, 0);
    var y := b[|b| - 1];
    DropLastTies(less, b, y);
    TiesMember(less, a, y, 0);
    LastIsGreatest(less, a);
    LastIsGreatest(less, b);
    DropLastTies(less, b, x);
  }

  // Order plus tie order leave no freedom: there is one stable sort.
  lemma {:induction false} StableSortIsUnique<T(!new)>(less: (T, T) -> bool, a: seq<T>, b: seq<T>)
    requires WeakOrder(less) && Sorted(less, a) && Sorted(less, b)
    requires forall p :: Ties(less, a, p) == Ties(less, b, p)
    ensures a == b
  {
    if a != [] {
      LastIsShared(less, a, b);
      var a', b' := a[..|a| - 1], b[..|b| - 1];
      forall p ensures Ties(less, a', p) == Ties(less, b', p) {
        DropLastTies(less, a, p);
        DropLastTies(less, b, p);
      }
      StableSortIsUnique(less, a', b');
      assert a == a' + [a[|a| - 1]] && b == b' + [b[|b| - 1]];
    } else if b != [] {
      LastIsShared(less, b, a);
    }
  }

  lemma LastIsGreatest<T(!new)>(less: (T, T) -> bool, s: seq<T>)
    requires WeakOrder(less) && Sorted(less, s) && s != []
    ensures forall e :: e in s ==> !less(s[|s| - 1], e)
  {
  }

  function Take<T>(s: seq<T>, n: nat): seq<T> {
    if |s| <= n then s else s[..n]
  }

  // Only the first n places of an ordered sequence decide the first n places
  // after an insertion.
  lemma {:induction false} TakeInsert<T(!new)>(less: (T, T) -> bool, s: seq<T>, x: T, n: nat)
    requires WeakOrder(less) && Sorted(less, s)
    ensures Take(Insert(less, s, x), n) == Take(Insert(less, Take(s, n), x), n)
  {
    if |s| > n {
      var front, last := s[..|s| - 1], s[|s| - 1];
      TakeInsert(less, front, x, n);
      assert Take(s, n) == Take(front, n);
      if less(x, last) {
        assert Take(Insert(less, s, x), n) == Take(Insert(less, front, x), n);
      } else {
        assert Take(s + [x], n) == s[..n];
        assert Sorted(less, s[..n]);
        if n > 0 {
          assert !less(x, s[n - 1]);
          assert (s[..n] + [x])[..n] == s[..n];
        }
      }
    }
  }

  // The insertion splits at any point the new element has already passed.
  lemma {:induction false} InsertPast<T>(less: (T, T) -> bool, s: seq<T>, x: T, i: nat)
    requires i <= |s|
    requires forall k :: i <= k < |s| ==> less(x, s[k])
    ensures Insert(less, s, x) == Insert(less, s[..i], x) + s[i..]
  {
    if i < |s| {
      var front := s[..|s| - 1];
      InsertPast(less, front, x, i);
      assert front[..i] == s[..i];
      assert s[i..] == front[i..] + [s[|s| - 1]];
    } else {
      assert s[..i] == s;
    }
  }

  // Nor does it look at what comes before the elements it cannot pass.
  lemma {:induction false} InsertBehind<T>(less: (T, T) -> bool, a: seq<T>, s: seq<T>, x: T)
    requires forall e :: e in a ==> !less(x, e)
    ensures Insert(less, a + s, x) == a + Insert(less, s, x)
  {
    if s == [] {
      assert a + s == a;
    } else {
      assert (a + s)[..|a + s| - 1] == a + s[..|s| - 1];
      InsertBehind(less, a, s[..|s| - 1], x);
    }
  }

  lemma InsertStops<T>(less: (T, T) -> bool, s: seq<T>, x: T)
    requires s == [] || !less(x, s[|s| - 1])
    ensures Insert(less, s, x) == s + [x]
  {
  }

  lemma SortStep<T>(less: (T, T) -> bool, s: seq<T>, x: T)
    ensures Sort(less, s + [x]) == Insert(less, Sort(less, s), x)
  {
    assert (s + [x])[..|s|] == s;
  }

  // Moves a[n] forward past every element it strictly precedes, one exchange at
  // a time.
  method BubbleForward<T(0)>(less: (T, T) -> bool, a: array<T>, n: nat)
    requires n < a.Length
    modifies a
    ensures a[..n + 1] == Insert(less, old(a[..n]), old(a[n]))
    ensures a[n + 1..] == old(a[n + 1..])
  {
    ghost var s, x := a[..n], a[n];
    var i := n;
    assert a[..n + 1] == s[..n] + [x] + s[n..];
    while i > 0 && less(a[i], a[i - 1])
      invariant i <= n
      invariant a[..n + 1] == s[..i] + [x] + s[i..]
      invariant a[i] == x && (i > 0 ==> a[i - 1] == s[i - 1])
      invariant forall k :: i <= k < n ==> less(x, s[k])
      invariant a[n + 1..] == old(a[n + 1..])
    {
      ghost var before := a[..n + 1];
      a[i - 1], a[i] := a[i], a[i - 1];
      assert a[..n + 1] == before[i - 1 := x][i := s[i - 1]];
      i := i - 1;
      assert a[..n + 1] == s[..i] + [x] + s[i..];
      assert i > 0 ==> before[i - 1] == s[i - 1];
    }
    InsertPast(less, s, x, i);
    InsertStops(less, s[..i], x);
  }

  // The same by shifting: the elements a[n] precedes move one place on.
  method ShiftForward<T>(less: (T, T) -> bool, a: array<T>, n: nat)
    requires n < a.Length
    modifies a
    ensures a[..n + 1] == Insert(less, old(a[..n]), old(a[n]))
    ensures a[n + 1..] == old(a[n + 1..])
  {
    var key := a[n];
    var j := n;
    while j > 0 && less(key, a[j - 1])
      invariant j <= n
      invariant forall k :: 0 <= k < j ==> a[k] == old(a[k])
      invariant forall k :: j < k <= n ==> a[k] == old(a[k - 1])
      invariant forall k :: j <= k < n ==> less(key, old(a[k]))
      invariant forall k :: n < k < a.Length ==> a[k] == old(a[k])
    {
      a[j] := a[j - 1];
      j := j - 1;
    }
    a[j] := key;
    Inserted(less, old(a[..n]), key, j, a[..n + 1]);
  }

  lemma Inserted<T>(less: (T, T) -> bool, s: seq<T>, key: T, j: nat, after: seq<T>)
    requires j <= |s| && |after| == |s| + 1 && after[j] == key
    requires forall k :: 0 <= k < j ==> after[k] == s[k]
    requires forall k :: j < k <= |s| ==> after[k] == s[k - 1]
    requires forall k :: j <= k < |s| ==> less(key, s[k])
    requires j == 0 || !less(key, s[j - 1])
    ensures after == Insert(less, s, key)
  {
    InsertPast(less, s, key, j);
    InsertStops(less, s[..j], key);
    assert after == s[..j] + [key] + s[j..];
  }
}
