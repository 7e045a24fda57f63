// CRC-32 of src/common/zip_store.c: the byte-at-a-time table form, the
// bit-at-a-time polynomial form of RFC 1952 section 8 it stands for, and what
// it detects.

module Crc32 {
  import Division

  type byte = bv8

  const POLY: bv32 := 0xedb88320

  function Xor(a: bv32, b: bv32): bv32 {
    a ^ b
  }

  // One division step: shift the register, subtract the polynomial if a bit fell out.
  function Shift(c: bv32): bv32 {
    if c & 1 == 1 then POLY ^ (c >> 1) else c >> 1
  }

  // The reference step: one message bit enters and is divided in.
  function BitStep(c: bv32, bit: bool): bv32 {
    if (c & 1 == 1) != bit then POLY ^ (c >> 1) else c >> 1
  }

  predicate Odd(w: bv32) {
    w & 1 == 1
  }

  function Half(w: bv32): bv32 {
    w >> 1
  }

  const REG: Division.Register<bv32> := Division.Register(Xor, Shift, BitStep, Odd, Half)

  // The table entry for n, as the initialisation loops build it.
  function Entry(n: byte): bv32 {
    Division.Shifts(REG, n as bv32, 8)
  }

  // The reference: the eight bits of b enter one at a time, lowest first.
  function ByteStep(c: bv32, b: byte): bv32 {
    Division.Feed(REG, c, b as bv32, 8)
  }

  // The register after a message, bit by bit.
  function Register(c: bv32, data: seq<byte>): bv32 {
    if data == [] then c else ByteStep(Register(c, data[..|data| - 1]), data[|data| - 1])
  }

  function Finish(c: bv32): bv32 {
    c ^ 0xffffffff
  }

  function Crc(data: seq<byte>): bv32 {
    Finish(Register(0xffffffff, data))
  }

  // ---- the laws of the register, one parity case at a time ----

  lemma BothOdd(x: bv32, y: bv32)
    requires x & 1 == 1 && y & 1 == 1
    ensures (x ^ y) & 1 != 1 && (x ^ y) >> 1 == (POLY ^ (x >> 1)) ^ (POLY ^ (y >> 1))
  {
  }

  lemma OddBitsMeet(x: bv32, y: bv32)
    requires x & 1 == 1 && y & 1 == 1
    ensures (x ^ y) & 1 != 1 && (x ^ y) >> 1 == (x >> 1) ^ (y >> 1)
  {
  }

  lemma FirstOdd(x: bv32, y: bv32)
    requires x & 1 == 1 && y & 1 != 1
    ensures (x ^ y) & 1 == 1 && POLY ^ ((x ^ y) >> 1) == (POLY ^ (x >> 1)) ^ (y >> 1)
  {
  }

  lemma SecondOdd(x: bv32, y: bv32)
    requires x & 1 != 1 && y & 1 == 1
    ensures (x ^ y) & 1 == 1 && POLY ^ ((x ^ y) >> 1) == (x >> 1) ^ (POLY ^ (y >> 1))
  {
  }

  lemma OddBitEnters(x: bv32, y: bv32)
    requires x & 1 != 1 && y & 1 == 1
    ensures (x ^ y) & 1 == 1 && POLY ^ ((x ^ y) >> 1) == (POLY ^ (x >> 1)) ^ (y >> 1)
  {
  }

  lemma BothEven(x: bv32, y: bv32)
    requires x & 1 != 1 && y & 1 != 1
    ensures (x ^ y) & 1 != 1 && (x ^ y) >> 1 == (x >> 1) ^ (y >> 1)
  {
  }

  lemma LinearOddOdd(x: bv32, y: bv32)
    requires x & 1 == 1 && y & 1 == 1
    ensures Shift(Xor(x, y)) == Xor(Shift(x), Shift(y))
  {
    BothOdd(x, y);
  }

  lemma LinearOddEven(x: bv32, y: bv32)
    requires x & 1 == 1 && y & 1 != 1
    ensures Shift(Xor(x, y)) == Xor(Shift(x), Shift(y))
  {
    FirstOdd(x, y);
  }

  lemma LinearEvenOdd(x: bv32, y: bv32)
    requires x & 1 != 1 && y & 1 == 1
    ensures Shift(Xor(x, y)) == Xor(Shift(x), Shift(y))
  {
    SecondOdd(x, y);
  }

  lemma LinearEvenEven(x: bv32, y: bv32)
    requires x & 1 != 1 && y & 1 != 1
    ensures Shift(Xor(x, y)) == Xor(Shift(x), Shift(y))
  {
    BothEven(x, y);
  }

  lemma LinearLaw()
    ensures Division.Linear(REG)
  {
    forall a: bv32, b: bv32 ensures Shift(Xor(a, b)) == Xor(Shift(a), Shift(b)) {
      if a & 1 == 1 {
        if b & 1 == 1 { LinearOddOdd(a, b); } else { LinearOddEven(a, b); }
      } else {
        if b & 1 == 1 { LinearEvenOdd(a, b); } else { LinearEvenEven(a, b); }
      }
    }
  }

  lemma PeelOddOdd(c: bv32, w: bv32)
    requires c & 1 == 1 && w & 1 == 1
    ensures Shift(Xor(c, w)) == Xor(BitStep(c, Odd(w)), Half(w))
  {
    OddBitsMeet(c, w);
  }

  lemma PeelOddEven(c: bv32, w: bv32)
    requires c & 1 == 1 && w & 1 != 1
    ensures Shift(Xor(c, w)) == Xor(BitStep(c, Odd(w)), Half(w))
  {
    FirstOdd(c, w);
  }

  lemma PeelEvenOdd(c: bv32, w: bv32)
    requires c & 1 != 1 && w & 1 == 1
    ensures Shift(Xor(c, w)) == Xor(BitStep(c, Odd(w)), Half(w))
  {
    OddBitEnters(c, w);
    assert BitStep(c, Odd(w)) == POLY ^ (c >> 1);
  }

  lemma PeelEvenEven(c: bv32, w: bv32)
    requires c & 1 != 1 && w & 1 != 1
    ensures Shift(Xor(c, w)) == Xor(BitStep(c, Odd(w)), Half(w))
  {
    BothEven(c, w);
  }

  lemma ConsumesLaw()
    ensures Division.Consumes(REG)
  {
    forall c: bv32, w: bv32 ensures Shift(Xor(c, w)) == Xor(BitStep(c, Odd(w)), Half(w)) {
      if c & 1 == 1 {
        if w & 1 == 1 { PeelOddOdd(c, w); } else { PeelOddEven(c, w); }
      } else {
        if w & 1 == 1 { PeelEvenOdd(c, w); } else { PeelEvenEven(c, w); }
      }
    }
  }

  // The top bit of the divisor is set, so a step can be undone.
  function Unshift(c: bv32): bv32 {
    if c & 0x80000000 == 0 then c << 1 else ((c ^ POLY) << 1) | 1
  }

  lemma UndoOdd(c: bv32)
    requires c & 1 == 1
    ensures (POLY ^ (c >> 1)) & 0x80000000 != 0 && (((POLY ^ (c >> 1)) ^ POLY) << 1) | 1 == c
  {
  }

  lemma UndoEven(c: bv32)
    requires c & 1 != 1
    ensures (c >> 1) & 0x80000000 == 0 && (c >> 1) << 1 == c
  {
  }

  lemma ShiftReversible(c: bv32)
    ensures Unshift(Shift(c)) == c
  {
    if c & 1 == 1 { UndoOdd(c); } else { UndoEven(c); }
  }

  lemma ReversibleLaw()
    ensures Division.Reversible(REG)
  {
    forall a: bv32, b: bv32 | Shift(a) == Shift(b) ensures a == b {
      ShiftReversible(a);
      ShiftReversible(b);
    }
  }

  lemma EvenMovesLaw()
    ensures Division.EvenMoves(REG)
  {
  }

  // ---- one byte: the table form is the bitwise form ----

  lemma ShiftAgain(x: bv32)
    ensures (x >> 1) >> 1 == x >> 2 && (x >> 2) >> 1 == x >> 3 && (x >> 3) >> 1 == x >> 4
    ensures (x >> 4) >> 1 == x >> 5 && (x >> 5) >> 1 == x >> 6 && (x >> 6) >> 1 == x >> 7
    ensures (x >> 7) >> 1 == x >> 8
  {
  }

  lemma DownTable(x: bv32)
    ensures Division.Down(REG, x, 0) == x && Division.Down(REG, x, 1) == x >> 1
    ensures Division.Down(REG, x, 2) == x >> 2 && Division.Down(REG, x, 3) == x >> 3
    ensures Division.Down(REG, x, 4) == x >> 4 && Division.Down(REG, x, 5) == x >> 5
    ensures Division.Down(REG, x, 6) == x >> 6 && Division.Down(REG, x, 7) == x >> 7
    ensures Division.Down(REG, x, 8) == x >> 8
  {
    ShiftAgain(x);
  }

  lemma ClearLowByte(x: bv32)
    requires x & 0xff == 0
    ensures x & 1 != 1 && (x >> 1) & 1 != 1 && (x >> 2) & 1 != 1 && (x >> 3) & 1 != 1
    ensures (x >> 4) & 1 != 1 && (x >> 5) & 1 != 1 && (x >> 6) & 1 != 1 && (x >> 7) & 1 != 1
  {
  }

  lemma LowByteIsClear(x: bv32)
    requires x & 0xff == 0
    ensures Division.LowClear(REG, x, 8)
  {
    DownTable(x);
    ClearLowByte(x);
  }

  lemma ByteHasNoHighBits(b: byte)
    ensures (b as bv32) >> 8 == 0
  {
  }

  lemma XorZero(x: bv32)
    ensures Xor(x, 0) == x
  {
  }

  // Feeding a byte bit by bit is adding it whole and dividing eight times.
  lemma ByteStepIsDivision(c: bv32, b: byte)
    ensures ByteStep(c, b) == Division.Shifts(REG, Xor(c, b as bv32), 8)
  {
    ConsumesLaw();
    Division.Peel(REG, c, b as bv32, 8);
    DownTable(b as bv32);
    ByteHasNoHighBits(b);
    XorZero(ByteStep(c, b));
  }

  lemma LowByteRoundTrip(x: bv32)
    ensures x & 0xff < 256 && ((x & 0xff) as bv8) as bv32 == x & 0xff
  {
  }

  // The table is indexed by the low byte of the register plus the message byte.
  function Index(x: bv32): byte {
    LowByteRoundTrip(x);
    (x & 0xff) as bv8
  }

  lemma SplitDivides(x: bv32, high: bv32, low: bv32)
    requires Xor(high, low) == x && high & 0xff == 0
    ensures Division.Shifts(REG, x, 8) == Xor(high >> 8, Division.Shifts(REG, low, 8))
  {
    LowByteIsClear(high);
    LinearLaw();
    EvenMovesLaw();
    Division.SplitStep(REG, high, low, 8);
    DownTable(high);
  }

  lemma SplitAt(x: bv32)
    ensures Xor(x & 0xffffff00, x & 0xff) == x
    ensures (x & 0xffffff00) & 0xff == 0 && (x & 0xffffff00) >> 8 == x >> 8
  {
  }

  lemma TableDivides(x: bv32)
    ensures Division.Shifts(REG, x, 8) == Xor(x >> 8, Entry(Index(x)))
  {
    SplitAt(x);
    SplitDivides(x, x & 0xffffff00, x & 0xff);
    LowByteRoundTrip(x);
  }

  lemma HighBitsUntouched(c: bv32, b: byte)
    ensures Xor(c, b as bv32) >> 8 == c >> 8
  {
  }

  lemma TableIsBitwise(c: bv32, b: byte)
    ensures Xor(c >> 8, Entry(Index(Xor(c, b as bv32)))) == ByteStep(c, b)
  {
    TableDivides(Xor(c, b as bv32));
    HighBitsUntouched(c, b);
    ByteStepIsDivision(c, b);
  }

  // ---- the running update ----

  lemma ByteIndex(b: byte)
    ensures b as int < 256 && (b as int) as byte == b
  {
  }

  lemma XorCommutes(a: bv32, b: bv32)
    ensures Xor(a, b) == Xor(b, a)
  {
  }

  lemma TableStep(c: bv32, b: byte)
    ensures Xor(Entry(Index(Xor(c, b as bv32))), c >> 8) == ByteStep(c, b)
  {
    TableIsBitwise(c, b);
    XorCommutes(Entry(Index(Xor(c, b as bv32))), c >> 8);
  }

  lemma RegisterStep(c: bv32, data: seq<byte>, i: nat)
    requires i < |data|
    ensures Register(c, data[..i + 1]) == ByteStep(Register(c, data[..i]), data[i])
  {
    assert data[..i + 1][..i] == data[..i];
  }

  // The bits of one table entry, as the inner loop computes them.
  method BuildEntry(b: byte) returns (c: bv32)
    ensures c == Entry(b)
  {
    c := b as bv32;
    for k := 0 to 8
      invariant c == Division.Shifts(REG, b as bv32, k)
    {
      c := Shift(c);
    }
  }

  class Table {
    const entries: array<bv32>
    var ready: bool

    ghost predicate Valid()
      reads this, entries
    {
      entries.Length == 256 && (ready ==> forall n :: 0 <= n < 256 ==> entries[n] == Entry(n as byte))
    }

    constructor ()
      ensures Valid() && !ready && fresh(entries)
    {
      entries := new bv32[256];
      ready := false;
    }

    // Builds the table on first use.
    method Init()
      requires Valid()
      modifies this, entries
      ensures Valid() && ready
    {
      if ready {
        return;
      }
      for n := 0 to 256
        invariant forall m :: 0 <= m < n ==> entries[m] == Entry(m as byte)
      {
        entries[n] := BuildEntry(n as byte);
      }
      ready := true;
    }

    method Lookup(b: byte) returns (e: bv32)
      requires Valid() && ready
      ensures e == Entry(b)
    {
      ByteIndex(b);
      e := entries[b as int];
    }

    // Whatever the register holds, updating it over data is the bitwise CRC.
    method Update(crc: bv32, data: seq<byte>) returns (crc': bv32)
      requires Valid()
      modifies this, entries
      ensures Valid() && crc' == Register(crc, data)
    {
      Init();
      crc' := crc;
      for i := 0 to |data|
        invariant Valid() && ready
        invariant crc' == Register(crc, data[..i])
      {
        TableStep(crc', data[i]);
        RegisterStep(crc, data, i);
        var e := Lookup(Index(Xor(crc', data[i] as bv32)));
        crc' := Xor(e, crc' >> 8);
      }
      assert data[..|data|] == data;
    }
  }

  // ---- chunks ----

  lemma {:induction false} RegisterConcat(c: bv32, a: seq<byte>, b: seq<byte>)
    ensures Register(c, a + b) == Register(Register(c, a), b)
  {
    if b == [] {
      assert a + b == a;
    } else {
      RegisterConcat(c, a, b[..|b| - 1]);
      assert (a + b)[..|a + b| - 1] == a + b[..|b| - 1];
    }
  }

  function Flatten(chunks: seq<seq<byte>>): seq<byte> {
    if chunks == [] then [] else Flatten(chunks[..|chunks| - 1]) + chunks[|chunks| - 1]
  }

  const PACK_MAX_BYTES: nat := 64 * 1024 * 1024

  // The checksum pass of src/fleet/fleet_pack.c over the chunks a file is read
  // in. It refuses files over the limit and otherwise gives the file's CRC.
  method ChecksumFile(table: Table, chunks: seq<seq<byte>>) returns (ok: bool, size: nat, crc: bv32)
    requires table.Valid()
    modifies table, table.entries
    ensures table.Valid()
    ensures ok <==> |Flatten(chunks)| <= PACK_MAX_BYTES
    ensures ok ==> size == |Flatten(chunks)| && crc == Crc(Flatten(chunks))
  {
    ok, size, crc := true, 0, 0xffffffff;
    for i := 0 to |chunks|
      invariant table.Valid()
      invariant size == |Flatten(chunks[..i])| <= PACK_MAX_BYTES
      invariant crc == Register(0xffffffff, Flatten(chunks[..i]))
    {
      assert chunks[..i + 1][..i] == chunks[..i];
      size := size + |chunks[i]|;
      if size > PACK_MAX_BYTES {
        FlattenGrows(chunks, i + 1);
        ok := false;
        return;
      }
      RegisterConcat(0xffffffff, Flatten(chunks[..i]), chunks[i]);
      crc := table.Update(crc, chunks[i]);
    }
    assert chunks[..|chunks|] == chunks;
    crc := Finish(crc);
  }

  lemma {:induction false} FlattenGrows(chunks: seq<seq<byte>>, n: nat)
    requires n <= |chunks|
    ensures |Flatten(chunks[..n])| <= |Flatten(chunks)|
  {
    if n < |chunks| {
      FlattenGrows(chunks[..|chunks| - 1], n);
      assert chunks[..|chunks| - 1][..n] == chunks[..n];
    } else {
      assert chunks[..n] == chunks;
    }
  }

  // ---- what the CRC detects ----

  lemma ByteStepInjective(a: bv32, b: bv32, d: byte)
    requires ByteStep(a, d) == ByteStep(b, d)
    ensures a == b
  {
    ByteStepIsDivision(a, d);
    ByteStepIsDivision(b, d);
    ReversibleLaw();
    Division.ShiftsInjective(REG, Xor(a, d as bv32), Xor(b, d as bv32), 8);
    XorCancels(a, b, d as bv32);
  }

  lemma XorCancels(a: bv32, b: bv32, d: bv32)
    requires Xor(a, d) == Xor(b, d)
    ensures a == b
  {
    XorTwice(a, d);
    XorTwice(b, d);
  }

  lemma XorTwice(a: bv32, d: bv32)
    ensures Xor(Xor(a, d), d) == a
  {
  }

  // A difference in the register survives any common continuation.
  lemma {:induction false} RegisterInjective(a: bv32, b: bv32, data: seq<byte>)
    requires Register(a, data) == Register(b, data)
    ensures a == b
  {
    if data != [] {
      var front := data[..|data| - 1];
      ByteStepInjective(Register(a, front), Register(b, front), data[|data| - 1]);
      RegisterInjective(a, b, front);
    }
  }

  lemma Place1(b: byte)
    ensures ((b as bv32) << 8) & 0xff == 0 && ((b as bv32) << 8) >> 8 == b as bv32
  {
  }

  lemma Place2(b: byte)
    ensures ((b as bv32) << 16) & 0xff == 0 && ((b as bv32) << 16) >> 8 == (b as bv32) << 8
  {
  }

  lemma Place3(b: byte)
    ensures ((b as bv32) << 24) & 0xff == 0 && ((b as bv32) << 24) >> 8 == (b as bv32) << 16
  {
  }

  // A byte moved one, two or three places up waits that many bytes.
  lemma Waits1(b: byte)
    ensures Division.LowClear(REG, (b as bv32) << 8, 8) && Division.Down(REG, (b as bv32) << 8, 8) == b as bv32
  {
    Place1(b);
    LowByteIsClear((b as bv32) << 8);
    DownTable((b as bv32) << 8);
  }

  lemma Waits2(b: byte)
    ensures Division.LowClear(REG, (b as bv32) << 16, 16) && Division.Down(REG, (b as bv32) << 16, 16) == b as bv32
  {
    Place2(b);
    Waits1(b);
    LowByteIsClear((b as bv32) << 16);
    DownTable((b as bv32) << 16);
    Division.LowClearAdd(REG, (b as bv32) << 16, 8, 8);
    Division.DownAdd(REG, (b as bv32) << 16, 8, 8);
  }

  lemma Waits3(b: byte)
    ensures Division.LowClear(REG, (b as bv32) << 24, 24) && Division.Down(REG, (b as bv32) << 24, 24) == b as bv32
  {
    Place3(b);
    Waits2(b);
    LowByteIsClear((b as bv32) << 24);
    DownTable((b as bv32) << 24);
    Division.LowClearAdd(REG, (b as bv32) << 24, 8, 16);
    Division.DownAdd(REG, (b as bv32) << 24, 8, 16);
  }

  // A byte that joins after n divisions joins n places up before them.
  lemma Joins(x: bv32, n: nat, b: byte, u: bv32)
    requires Division.LowClear(REG, u, n) && Division.Down(REG, u, n) == b as bv32
    ensures ByteStep(Division.Shifts(REG, x, n), b) == Division.Shifts(REG, x ^ u, n + 8)
  {
    LinearLaw();
    EvenMovesLaw();
    ByteStepIsDivision(Division.Shifts(REG, x, n), b);
    Division.NextByte(REG, x, n, u, b as bv32);
    assert x ^ u == Xor(x, u);
  }

  lemma TwoSteps(c: bv32, b0: byte, b1: byte)
    ensures ByteStep(ByteStep(c, b0), b1)
         == Division.Shifts(REG, (c ^ b0 as bv32) ^ ((b1 as bv32) << 8), 16)
  {
    ByteStepIsDivision(c, b0);
    assert c ^ b0 as bv32 == Xor(c, b0 as bv32);
    Waits1(b1);
    Joins(c ^ b0 as bv32, 8, b1, (b1 as bv32) << 8);
  }

  lemma ThreeSteps(c: bv32, b0: byte, b1: byte, b2: byte)
    ensures ByteStep(ByteStep(ByteStep(c, b0), b1), b2)
         == Division.Shifts(REG, ((c ^ b0 as bv32) ^ ((b1 as bv32) << 8)) ^ ((b2 as bv32) << 16), 24)
  {
    TwoSteps(c, b0, b1);
    Waits2(b2);
    Joins((c ^ b0 as bv32) ^ ((b1 as bv32) << 8), 16, b2, (b2 as bv32) << 16);
  }

  // Four byte steps are 32 divisions of the register with the bytes at their places.
  lemma FourSteps(c: bv32, b0: byte, b1: byte, b2: byte, b3: byte)
    ensures ByteStep(ByteStep(ByteStep(ByteStep(c, b0), b1), b2), b3)
         == Division.Shifts(REG,
              (((c ^ b0 as bv32) ^ ((b1 as bv32) << 8)) ^ ((b2 as bv32) << 16)) ^ ((b3 as bv32) << 24), 32)
  {
    ThreeSteps(c, b0, b1, b2);
    Waits3(b3);
    Joins(((c ^ b0 as bv32) ^ ((b1 as bv32) << 8)) ^ ((b2 as bv32) << 16), 24, b3, (b3 as bv32) << 24);
  }

  lemma SameLoadSameBytes(c: bv32, a0: byte, a1: byte, a2: byte, a3: byte, b0: byte, b1: byte, b2: byte, b3: byte)
    requires (((c ^ a0 as bv32) ^ ((a1 as bv32) << 8)) ^ ((a2 as bv32) << 16)) ^ ((a3 as bv32) << 24)
          == (((c ^ b0 as bv32) ^ ((b1 as bv32) << 8)) ^ ((b2 as bv32) << 16)) ^ ((b3 as bv32) << 24)
    ensures a0 == b0 && a1 == b1 && a2 == b2 && a3 == b3
  {
  }

  lemma FourStepsInjective(c: bv32, a0: byte, a1: byte, a2: byte, a3: byte, b0: byte, b1: byte, b2: byte, b3: byte)
    requires ByteStep(ByteStep(ByteStep(ByteStep(c, a0), a1), a2), a3)
          == ByteStep(ByteStep(ByteStep(ByteStep(c, b0), b1), b2), b3)
    ensures a0 == b0 && a1 == b1 && a2 == b2 && a3 == b3
  {
    FourSteps(c, a0, a1, a2, a3);
    FourSteps(c, b0, b1, b2, b3);
    var x := (((c ^ a0 as bv32) ^ ((a1 as bv32) << 8)) ^ ((a2 as bv32) << 16)) ^ ((a3 as bv32) << 24);
    var y := (((c ^ b0 as bv32) ^ ((b1 as bv32) << 8)) ^ ((b2 as bv32) << 16)) ^ ((b3 as bv32) << 24);
    ReversibleLaw();
    Division.ShiftsInjective(REG, x, y, 32);
    SameLoadSameBytes(c, a0, a1, a2, a3, b0, b1, b2, b3);
  }

  lemma RegisterOfFour(c: bv32, d: seq<byte>)
    requires |d| == 4
    ensures Register(c, d) == ByteStep(ByteStep(ByteStep(ByteStep(c, d[0]), d[1]), d[2]), d[3])
  {
    assert d[..4] == d;
    RegisterStep(c, d, 3);
    RegisterStep(c, d, 2);
    RegisterStep(c, d, 1);
    RegisterStep(c, d, 0);
  }

  // Up to four bytes are told apart by the register they leave.
  lemma {:induction false} WindowInjective(c: bv32, a: seq<byte>, b: seq<byte>)
    requires |a| == |b| <= 4 && Register(c, a) == Register(c, b)
    ensures a == b
    decreases 4 - |a|
  {
    if |a| == 4 {
      RegisterOfFour(c, a);
      RegisterOfFour(c, b);
      FourStepsInjective(c, a[0], a[1], a[2], a[3], b[0], b[1], b[2], b[3]);
    } else {
      RegisterConcat(c, a, [0]);
      RegisterConcat(c, b, [0]);
      WindowInjective(c, a + [0], b + [0]);
      assert a == (a + [0])[..|a|] && b == (b + [0])[..|b|];
    }
  }

  lemma InnerWindow(c: bv32, pre: seq<byte>, a: seq<byte>, b: seq<byte>, post: seq<byte>)
    requires |a| == |b| <= 4 && Register(c, pre + a + post) == Register(c, pre + b + post)
    ensures a == b
  {
    RegisterConcat(c, pre + a, post);
    RegisterConcat(c, pre + b, post);
    RegisterInjective(Register(c, pre + a), Register(c, pre + b), post);
    RegisterConcat(c, pre, a);
    RegisterConcat(c, pre, b);
    WindowInjective(Register(c, pre), a, b);
  }

  lemma SplitAround(a: seq<byte>, b: seq<byte>, i: nat, j: nat)
    requires |a| == |b| && i <= j <= |a|
    requires forall k :: 0 <= k < |a| && (k < i || j <= k) ==> a[k] == b[k]
    ensures a == a[..i] + a[i..j] + a[j..] && b == a[..i] + b[i..j] + a[j..]
  {
  }

  lemma FinishReversible(c: bv32)
    ensures Finish(Finish(c)) == c
  {
  }

  lemma SameCrcSameRegister(a: seq<byte>, b: seq<byte>)
    requires Crc(a) == Crc(b)
    ensures Register(0xffffffff, a) == Register(0xffffffff, b)
  {
    FinishReversible(Register(0xffffffff, a));
    FinishReversible(Register(0xffffffff, b));
  }

  // Messages of one length that differ, but only inside four consecutive bytes,
  // never have the same CRC.
  lemma BurstsAreDetected(a: seq<byte>, b: seq<byte>, i: nat)
    requires |a| == |b| && a != b && i <= |a|
    requires forall k :: 0 <= k < |a| && (k < i || i + 4 <= k) ==> a[k] == b[k]
    ensures Crc(a) != Crc(b)
  {
    var j := if i + 4 <= |a| then i + 4 else |a|;
    SplitAround(a, b, i, j);
    if Crc(a) == Crc(b) {
      SameCrcSameRegister(a, b);
      InnerWindow(0xffffffff, a[..i], a[i..j], b[i..j], a[j..]);
    }
  }

  // ---- what is fixed by the standard ----

  // The exponents of RFC 1952 section 8 below 32, each at its reflected place:
  // 0, 1, 2, 4, 5, 7, 8, 10, 11, 12, 16, 22, 23 and 26.
  lemma PolynomialIs()
    ensures POLY == (1 << 31) ^ (1 << 30) ^ (1 << 29) ^ (1 << 27) ^ (1 << 26) ^ (1 << 24) ^ (1 << 23)
         ^ (1 << 21) ^ (1 << 20) ^ (1 << 19) ^ (1 << 15) ^ (1 << 9) ^ (1 << 8) ^ (1 << 5)
  {
  }

  // The four bytes of a word, lowest first.
  function WordBytes(w: bv32): (r: seq<byte>)
    ensures |r| == 4
  {
    [(w & 0xff) as byte, ((w >> 8) & 0xff) as byte, ((w >> 16) & 0xff) as byte, (w >> 24) as byte]
  }

  lemma Complement(c: bv32)
    ensures (((c ^ (((c ^ 0xffffffff) & 0xff) as byte) as bv32) ^ (((((c ^ 0xffffffff) >> 8) & 0xff) as byte as bv32) << 8))
             ^ (((((c ^ 0xffffffff) >> 16) & 0xff) as byte as bv32) << 16)) ^ ((((c ^ 0xffffffff) >> 24) as byte as bv32) << 24)
         == 0xffffffff
  {
  }

  lemma EightShifts(x: bv32)
    ensures Division.Shifts(REG, x, 8) == Shift(Shift(Shift(Shift(Shift(Shift(Shift(Shift(x))))))))
  {
    OneShift(x, 0);
    OneShift(x, 1);
    OneShift(x, 2);
    OneShift(x, 3);
    OneShift(x, 4);
    OneShift(x, 5);
    OneShift(x, 6);
    OneShift(x, 7);
  }

  lemma OneShift(x: bv32, n: nat)
    ensures Division.Shifts(REG, x, 0) == x
    ensures Division.Shifts(REG, x, n + 1) == Shift(Division.Shifts(REG, x, n))
  {
  }

  lemma Divided1()
    ensures Division.Shifts(REG, 0xffffffff, 8) == 0x2dfd1072
  {
    EightShifts(0xffffffff);
    assert Shift(0xffffffff) == 0x92477cdf && Shift(0x92477cdf) == 0xa49b3d4f && Shift(0xa49b3d4f) == 0xbff51d87 && Shift(0xbff51d87) == 0xb2420de3;
    assert Shift(0xb2420de3) == 0xb49985d1 && Shift(0xb49985d1) == 0xb7f441c8 && Shift(0xb7f441c8) == 0x5bfa20e4 && Shift(0x5bfa20e4) == 0x2dfd1072;
  }

  lemma Divided2()
    ensures Division.Shifts(REG, 0x2dfd1072, 8) == 0xbe26ed00
  {
    EightShifts(0x2dfd1072);
    assert Shift(0x2dfd1072) == 0x16fe8839 && Shift(0x16fe8839) == 0xe6c7c73c && Shift(0xe6c7c73c) == 0x7363e39e && Shift(0x7363e39e) == 0x39b1f1cf;
    assert Shift(0x39b1f1cf) == 0xf1607bc7 && Shift(0xf1607bc7) == 0x9508bec3 && Shift(0x9508bec3) == 0xa73cdc41 && Shift(0xa73cdc41) == 0xbe26ed00;
  }

  lemma Divided3()
    ensures Division.Shifts(REG, 0xbe26ed00, 8) == 0x00be26ed
  {
    EightShifts(0xbe26ed00);
    assert Shift(0xbe26ed00) == 0x5f137680 && Shift(0x5f137680) == 0x2f89bb40 && Shift(0x2f89bb40) == 0x17c4dda0 && Shift(0x17c4dda0) == 0x0be26ed0;
    assert Shift(0x0be26ed0) == 0x05f13768 && Shift(0x05f13768) == 0x02f89bb4 && Shift(0x02f89bb4) == 0x017c4dda && Shift(0x017c4dda) == 0x00be26ed;
  }

  lemma Divided4()
    ensures Division.Shifts(REG, 0x00be26ed, 8) == 0xdebb20e3
  {
    EightShifts(0x00be26ed);
    assert Shift(0x00be26ed) == 0xede79056 && Shift(0xede79056) == 0x76f3c82b && Shift(0x76f3c82b) == 0xd6c16735 && Shift(0xd6c16735) == 0x86d830ba;
    assert Shift(0x86d830ba) == 0x436c185d && Shift(0x436c185d) == 0xcc0e8f0e && Shift(0xcc0e8f0e) == 0x66074787 && Shift(0x66074787) == 0xdebb20e3;
  }

  lemma OnesDivided()
    ensures Division.Shifts(REG, 0xffffffff, 32) == 0xdebb20e3
  {
    hide Division.Shifts;
    Divided1();
    Divided2();
    Divided3();
    Divided4();
    Division.ShiftsAdd(REG, 0xffffffff, 8, 8);
    Division.ShiftsAdd(REG, 0xffffffff, 16, 8);
    Division.ShiftsAdd(REG, 0xffffffff, 24, 8);
  }

  // The magic number of APPNOTE.TXT section 4.4.7: a message followed by its CRC
  // always leaves the same register.
  lemma MagicNumber(data: seq<byte>)
    ensures Register(0xffffffff, data + WordBytes(Crc(data))) == 0xdebb20e3
  {
    hide Register, Division.Shifts, WordBytes;
    var c, d := Register(0xffffffff, data), WordBytes(Crc(data));
    RegisterConcat(0xffffffff, data, d);
    RegisterOfFour(c, d);
    FourSteps(c, d[0], d[1], d[2], d[3]);
    BytesOf(Crc(data));
    Complement(c);
    OnesDivided();
  }

  lemma BytesOf(w: bv32)
    ensures var d := WordBytes(w);
      d[0] == (w & 0xff) as byte && d[1] == ((w >> 8) & 0xff) as byte && d[2] == ((w >> 16) & 0xff) as byte && d[3] == (w >> 24) as byte
  {
  }
}
