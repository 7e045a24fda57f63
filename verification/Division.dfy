// Division of bit strings by a fixed polynomial, as the CRC register does it,
// over an abstract register: everything here follows from a handful of laws.

module Division {

  // plus adds registers, shift is one division step, feed a division step with
  // a message bit entering, odd and half the lowest bit and the rest of a word.
  datatype Register<!T> = Register(
    plus: (T, T) -> T, shift: T -> T, feed: (T, bool) -> T, odd: T -> bool, half: T -> T)

  // Division distributes over addition.
  ghost predicate Linear<T(!new)>(o: Register<T>) {
    forall a, b :: o.shift(o.plus(a, b)) == o.plus(o.shift(a), o.shift(b))
  }

  // Division loses nothing.
  ghost predicate Reversible<T(!new)>(o: Register<T>) {
    forall a, b :: o.shift(a) == o.shift(b) ==> a == b
  }

  // A step consumes the lowest waiting bit and leaves the rest waiting.
  ghost predicate Consumes<T(!new)>(o: Register<T>) {
    forall c, w :: o.shift(o.plus(c, w)) == o.plus(o.feed(c, o.odd(w)), o.half(w))
  }

  ghost predicate EvenMoves<T(!new)>(o: Register<T>) {
    forall w :: !o.odd(w) ==> o.shift(w) == o.half(w)
  }

  function Shifts<T>(o: Register<T>, c: T, n: nat): T {
    if n == 0 then c else o.shift(Shifts(o, c, n - 1))
  }

  // A word with its n lowest bits consumed.
  function Down<T>(o: Register<T>, w: T, n: nat): T {
    if n == 0 then w else o.half(Down(o, w, n - 1))
  }

  // The n lowest bits of w enter one at a time, lowest first.
  function Feed<T>(o: Register<T>, c: T, w: T, n: nat): T {
    if n == 0 then c else o.feed(Feed(o, c, w, n - 1), o.odd(Down(o, w, n - 1)))
  }

  ghost predicate LowClear<T>(o: Register<T>, w: T, n: nat) {
    forall k :: 0 <= k < n ==> !o.odd(Down(o, w, k))
  }

  lemma {:induction false} ShiftsLinear<T(!new)>(o: Register<T>, a: T, b: T, n: nat)
    requires Linear(o)
    ensures Shifts(o, o.plus(a, b), n) == o.plus(Shifts(o, a, n), Shifts(o, b, n))
  {
    if n > 0 {
      ShiftsLinear(o, a, b, n - 1);
    }
  }

  lemma {:induction false} ShiftsInjective<T(!new)>(o: Register<T>, a: T, b: T, n: nat)
    requires Reversible(o) && Shifts(o, a, n) == Shifts(o, b, n)
    ensures a == b
  {
    if n > 0 {
      ShiftsInjective(o, a, b, n - 1);
    }
  }

  lemma {:induction false} ShiftsAdd<T(!new)>(o: Register<T>, c: T, m: nat, n: nat)
    ensures Shifts(o, Shifts(o, c, m), n) == Shifts(o, c, m + n)
  {
    if n > 0 {
      ShiftsAdd(o, c, m, n - 1);
    }
  }

  // Adding the bits up front and adding them one at a time agree, up to the
  // bits not yet consumed.
  lemma {:induction false} Peel<T(!new)>(o: Register<T>, c: T, w: T, n: nat)
    requires Consumes(o)
    ensures Shifts(o, o.plus(c, w), n) == o.plus(Feed(o, c, w, n), Down(o, w, n))
  {
    if n > 0 {
      Peel(o, c, w, n - 1);
    }
  }

  // A word whose n lowest bits are clear is only moved.
  lemma {:induction false} ClearBitsMove<T(!new)>(o: Register<T>, w: T, n: nat)
    requires EvenMoves(o) && LowClear(o, w, n)
    ensures Shifts(o, w, n) == Down(o, w, n)
  {
    if n > 0 {
      ClearBitsMove(o, w, n - 1);
    }
  }

  // Splitting the register at bit n: the high part moves, the low part divides.
  lemma SplitStep<T(!new)>(o: Register<T>, high: T, low: T, n: nat)
    requires Linear(o) && EvenMoves(o) && LowClear(o, high, n)
    ensures Shifts(o, o.plus(high, low), n) == o.plus(Down(o, high, n), Shifts(o, low, n))
  {
    ShiftsLinear(o, high, low, n);
    ClearBitsMove(o, high, n);
  }

  // Bits added after n steps could have been added n places higher before them.
  lemma AddEarlier<T(!new)>(o: Register<T>, x: T, u: T, n: nat)
    requires Linear(o) && EvenMoves(o) && LowClear(o, u, n)
    ensures o.plus(Shifts(o, x, n), Down(o, u, n)) == Shifts(o, o.plus(x, u), n)
  {
    ShiftsLinear(o, x, u, n);
    ClearBitsMove(o, u, n);
  }

  // A byte that joins after n steps joins n places higher at the start.
  lemma NextByte<T(!new)>(o: Register<T>, x: T, n: nat, u: T, b: T)
    requires Linear(o) && EvenMoves(o)
    requires LowClear(o, u, n) && Down(o, u, n) == b
    ensures Shifts(o, o.plus(Shifts(o, x, n), b), 8) == Shifts(o, o.plus(x, u), n + 8)
  {
    AddEarlier(o, x, u, n);
    ShiftsAdd(o, o.plus(x, u), n, 8);
  }

  lemma {:induction false} DownAdd<T(!new)>(o: Register<T>, w: T, m: nat, n: nat)
    ensures Down(o, Down(o, w, m), n) == Down(o, w, m + n)
  {
    if n > 0 {
      DownAdd(o, w, m, n - 1);
    }
  }

  lemma LowClearAdd<T(!new)>(o: Register<T>, w: T, m: nat, n: nat)
    requires LowClear(o, w, m) && LowClear(o, Down(o, w, m), n)
    ensures LowClear(o, w, m + n)
  {
    forall k | m <= k < m + n ensures !o.odd(Down(o, w, k)) {
      DownAdd(o, w, m, k - m);
    }
  }
}
