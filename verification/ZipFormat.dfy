// The records of a ZIP archive with stored members, and a reader for them,
// after PKWARE APPNOTE.TXT sections 4.3.7, 4.3.12, 4.3.16 and 4.4.7.

module ZipFormat {
  import opened Strings

  newtype Byte = x: int | 0 <= x < 256

  const TWO_TO_THE_16: nat := 0x1_0000
  const TWO_TO_THE_32: nat := 0x1_0000_0000

  // ---- little-endian numbers ----

  function Low(x: nat): Byte {
    (x % 256) as Byte
  }

  function Le16(v: nat): (r: seq<Byte>)
    ensures |r| == 2
  {
    [Low(v), Low(v / 0x100)]
  }

  function Le32(v: nat): (r: seq<Byte>)
    ensures |r| == 4
  {
    [Low(v), Low(v / 0x100), Low(v / 0x1_0000), Low(v / 0x100_0000)]
  }

  function Get16(s: seq<Byte>): nat
    requires |s| == 2
  {
    s[0] as nat + 0x100 * s[1] as nat
  }

  function Get32(s: seq<Byte>): nat
    requires |s| == 4
  {
    Get16(s[..2]) + 0x1_0000 * Get16(s[2..])
  }

  lemma JoinBytes(v: nat)
    ensures v % 0x100 + 0x100 * ((v / 0x100) % 0x100) == v % TWO_TO_THE_16
  {
    var q := v / 0x100;
    assert v == 0x1_0000 * (q / 0x100) + (0x100 * (q % 0x100) + v % 0x100);
  }

  lemma JoinHalves(v: nat)
    ensures v % 0x1_0000 + 0x1_0000 * ((v / 0x1_0000) % 0x1_0000) == v % TWO_TO_THE_32
  {
  }

  lemma DivideTwice(v: nat)
    ensures (v / 0x1_0000) / 0x100 == v / 0x100_0000
  {
  }

  // Reading back what was put gives the value as it fits the field.
  lemma GetLe16(v: nat)
    ensures Get16(Le16(v)) == v % TWO_TO_THE_16
  {
    JoinBytes(v);
  }

  lemma GetLe32(v: nat)
    ensures Get32(Le32(v)) == v % TWO_TO_THE_32
  {
    JoinHalves(v);
    DivideTwice(v);
    GetLe16(v);
    GetLe16(v / 0x1_0000);
    assert Le32(v)[..2] == Le16(v) && Le32(v)[2..] == Le16(v / 0x1_0000);
  }

  // ---- record headers ----

  // The fields both member headers share: CRC, stored size, plain size, name
  // length, extra length.
  function MemberFields(crc: nat, size: nat, nameLen: nat): (r: seq<Byte>)
    ensures |r| == 16
  {
    Le32(crc) + Le32(size) + Le32(size) + Le16(nameLen) + Le16(0)
  }

  // Section 4.3.7: signature, version 2.0, UTF-8 names, stored, no time stamp.
  function LocalHead(): (r: seq<Byte>)
    ensures |r| == 14
  {
    Le32(0x04034b50) + Le16(20) + Le16(0x0800) + Le16(0) + Le16(0) + Le16(0)
  }

  function LocalHeader(crc: nat, size: nat, nameLen: nat): (r: seq<Byte>)
    ensures |r| == 30
  {
    LocalHead() + MemberFields(crc, size, nameLen)
  }

  // Section 4.3.12: the same with two versions, and a tail whose last field is
  // the offset of the local header.
  function CentralHead(): (r: seq<Byte>)
    ensures |r| == 16
  {
    Le32(0x02014b50) + Le16(20) + Le16(20) + Le16(0x0800) + Le16(0) + Le16(0) + Le16(0)
  }

  function CentralTail(localOffset: nat): (r: seq<Byte>)
    ensures |r| == 14
  {
    Le16(0) + Le16(0) + Le16(0) + Le32(0) + Le32(localOffset)
  }

  function CentralHeader(crc: nat, size: nat, nameLen: nat, localOffset: nat): (r: seq<Byte>)
    ensures |r| == 46
  {
    CentralHead() + MemberFields(crc, size, nameLen) + CentralTail(localOffset)
  }

  // Section 4.3.16: signature, disk numbers and the entry count twice; then the
  // directory's size and offset and no comment.
  function EndHead(count: nat): (r: seq<Byte>)
    ensures |r| == 12
  {
    Le32(0x06054b50) + Le16(0) + Le16(0) + Le16(count) + Le16(count)
  }

  function EndTail(size: nat, offset: nat): (r: seq<Byte>)
    ensures |r| == 10
  {
    Le32(size) + Le32(offset) + Le16(0)
  }

  function EndRecord(count: nat, size: nat, offset: nat): (r: seq<Byte>)
    ensures |r| == 22
  {
    EndHead(count) + EndTail(size, offset)
  }

  // ---- archives ----

  // One member. Names are C strings: no zero byte.
  datatype Item = Item(name: seq<Byte>, crc: nat, content: seq<Byte>)

  function LocalRecord(it: Item): seq<Byte> {
    LocalHeader(it.crc, |it.content|, |it.name|) + it.name + it.content
  }

  function Locals(items: seq<Item>): seq<Byte> {
    if items == [] then [] else Locals(items[..|items| - 1]) + LocalRecord(items[|items| - 1])
  }

  function CentralRecord(it: Item, localOffset: nat): seq<Byte> {
    CentralHeader(it.crc, |it.content|, |it.name|, localOffset) + it.name
  }

  function Directory(items: seq<Item>): seq<Byte> {
    if items == [] then []
    else
      var front := items[..|items| - 1];
      Directory(front) + CentralRecord(items[|items| - 1], |Locals(front)|)
  }

  // The local records, the central directory that locates them, the end record.
  function Archive(items: seq<Item>): seq<Byte> {
    Locals(items) + Directory(items) + EndRecord(|items|, |Directory(items)|, |Locals(items)|)
  }

  // ---- a reader ----

  // part stands in s at pos.
  predicate Stands(s: seq<Byte>, pos: nat, part: seq<Byte>) {
    pos + |part| <= |s| && s[pos..pos + |part|] == part
  }

  function At16(s: seq<Byte>, pos: nat): nat
    requires pos + 2 <= |s|
  {
    Get16(s[pos..pos + 2])
  }

  function At32(s: seq<Byte>, pos: nat): nat
    requires pos + 4 <= |s|
  {
    Get32(s[pos..pos + 4])
  }

  // Section 4.4.4: not encrypted (bit 0), sizes and CRC in the header and not after
  // the data (bit 3), the name in UTF-8 (bit 11).
  predicate PlainMember(flags: nat) {
    flags % 2 == 0 && flags / 8 % 2 == 0 && flags / 0x800 % 2 == 1
  }

  // A reader of version 2.0 takes on this member: section 4.4.3, and section 4.4.5
  // for the method, stored.
  predicate Readable(version: nat, flags: nat, compression: nat) {
    version <= 20 && PlainMember(flags) && compression == 0
  }

  // Reads the member a directory entry describes: the local header must be where
  // the entry says and repeat what it says; the content follows the name.
  function ReadLocal(s: seq<Byte>, pos: nat, name: seq<Byte>, crc: nat, size: nat): Option<Item> {
    if pos + 30 > |s| || At32(s, pos) != 0x04034b50
       || !Readable(At16(s, pos + 4), At16(s, pos + 6), At16(s, pos + 8)) then None
    else
      var data := pos + 30 + At16(s, pos + 26) + At16(s, pos + 28);
      if At32(s, pos + 14) != crc || At32(s, pos + 18) != size || At32(s, pos + 22) != size
         || !Stands(s, pos + 30, name) || At16(s, pos + 26) != |name| || data + size > |s| then None
      else Some(Item(name, crc, s[data..data + size]))
  }

  // One directory entry: the member it locates and where the next entry starts.
  function ReadEntry(s: seq<Byte>, pos: nat, limit: nat): Option<(Item, nat)>
    requires limit <= |s|
  {
    if pos + 46 > limit || At32(s, pos) != 0x02014b50
       || !Readable(At16(s, pos + 6), At16(s, pos + 8), At16(s, pos + 10)) then None
    else
      var nameEnd := pos + 46 + At16(s, pos + 28);
      if nameEnd > limit || At32(s, pos + 20) != At32(s, pos + 24) then None
      else
        match ReadLocal(s, At32(s, pos + 42), s[pos + 46..nameEnd], At32(s, pos + 16), At32(s, pos + 20))
        case None => None
        case Some(it) => Some((it, nameEnd + At16(s, pos + 30) + At16(s, pos + 32)))
  }

  // Reads n directory entries from pos, which must end at limit.
  function ReadDirectory(s: seq<Byte>, pos: nat, limit: nat, n: nat): Option<seq<Item>>
    requires limit <= |s|
    decreases n
  {
    if n == 0 then (if pos == limit then Some([]) else None)
    else
      match ReadEntry(s, pos, limit)
      case None => None
      case Some((it, next)) =>
        match ReadDirectory(s, next, limit, n - 1)
        case None => None
        case Some(rest) => Some([it] + rest)
  }

  // Reads a whole archive whose end record carries no comment.
  function Read(s: seq<Byte>): Option<seq<Item>> {
    if |s| < 22 then None
    else
      var e := |s| - 22;
      if At32(s, e) != 0x06054b50 || At16(s, e + 8) != At16(s, e + 10) || At16(s, e + 20) != 0
         || At32(s, e + 16) + At32(s, e + 12) != e then None
      else ReadDirectory(s, At32(s, e + 16), e, At16(s, e + 8))
  }

  // ---- reading back ----

  lemma StandsInside(s: seq<Byte>, pos: nat, part: seq<Byte>, i: nat, j: nat)
    requires Stands(s, pos, part) && i <= j <= |part|
    ensures Stands(s, pos + i, part[i..j]) && s[pos + i..pos + j] == part[i..j]
  {
    var whole := s[pos..pos + |part|];
    forall k | 0 <= k < j - i ensures s[pos + i..pos + j][k] == part[i..j][k] {
      assert whole[i + k] == s[pos + i + k];
    }
  }

  lemma StandsParts(s: seq<Byte>, pos: nat, a: seq<Byte>, b: seq<Byte>)
    requires Stands(s, pos, a + b)
    ensures Stands(s, pos, a) && Stands(s, pos + |a|, b)
  {
    StandsInside(s, pos, a + b, 0, |a|);
    StandsInside(s, pos, a + b, |a|, |a| + |b|);
    assert (a + b)[0..|a|] == a && (a + b)[|a|..|a| + |b|] == b;
  }

  lemma StandsThree(s: seq<Byte>, pos: nat, a: seq<Byte>, b: seq<Byte>, c: seq<Byte>)
    requires Stands(s, pos, a + b + c)
    ensures Stands(s, pos, a) && Stands(s, pos + |a|, b) && Stands(s, pos + |a| + |b|, c)
  {
    StandsParts(s, pos, a + b, c);
    StandsParts(s, pos, a, b);
  }

  lemma StandsFive(s: seq<Byte>, pos: nat, a: seq<Byte>, b: seq<Byte>, c: seq<Byte>, d: seq<Byte>, e: seq<Byte>)
    requires Stands(s, pos, a + b + c + d + e)
    ensures Stands(s, pos, a) && Stands(s, pos + |a|, b) && Stands(s, pos + |a| + |b|, c)
    ensures Stands(s, pos + |a| + |b| + |c|, d) && Stands(s, pos + |a| + |b| + |c| + |d|, e)
  {
    StandsThree(s, pos, a + b + c, d, e);
    StandsThree(s, pos, a, b, c);
  }

  lemma StandsHere(a: seq<Byte>, b: seq<Byte>, c: seq<Byte>)
    ensures Stands(a + b + c, |a|, b)
  {
  }

  lemma Reads16(s: seq<Byte>, pos: nat, v: nat)
    requires Stands(s, pos, Le16(v)) && v < TWO_TO_THE_16
    ensures At16(s, pos) == v
  {
    GetLe16(v);
  }

  lemma Reads32(s: seq<Byte>, pos: nat, v: nat)
    requires Stands(s, pos, Le32(v)) && v < TWO_TO_THE_32
    ensures At32(s, pos) == v
  {
    GetLe32(v);
  }

  lemma ReadsMemberFields(s: seq<Byte>, pos: nat, crc: nat, size: nat, nameLen: nat)
    requires Stands(s, pos, MemberFields(crc, size, nameLen))
    requires crc < TWO_TO_THE_32 && size < TWO_TO_THE_32 && nameLen < TWO_TO_THE_16
    ensures At32(s, pos) == crc && At32(s, pos + 4) == size && At32(s, pos + 8) == size
    ensures At16(s, pos + 12) == nameLen && At16(s, pos + 14) == 0
  {
    StandsThree(s, pos, Le32(crc) + Le32(size) + Le32(size), Le16(nameLen), Le16(0));
    StandsThree(s, pos, Le32(crc), Le32(size), Le32(size));
    Reads32(s, pos, crc);
    Reads32(s, pos + 4, size);
    Reads32(s, pos + 8, size);
    Reads16(s, pos + 12, nameLen);
    Reads16(s, pos + 14, 0);
  }

  lemma ReadsLocalHead(s: seq<Byte>, pos: nat)
    requires Stands(s, pos, LocalHead())
    ensures At32(s, pos) == 0x04034b50 && Readable(At16(s, pos + 4), At16(s, pos + 6), At16(s, pos + 8))
  {
    StandsParts(s, pos, Le32(0x04034b50) + Le16(20) + Le16(0x0800) + Le16(0) + Le16(0), Le16(0));
    StandsFive(s, pos, Le32(0x04034b50), Le16(20), Le16(0x0800), Le16(0), Le16(0));
    Reads32(s, pos, 0x04034b50);
    Reads16(s, pos + 4, 20);
    Reads16(s, pos + 6, 0x0800);
    Reads16(s, pos + 8, 0);
  }

  lemma ReadsCentralHead(s: seq<Byte>, pos: nat)
    requires Stands(s, pos, CentralHead())
    ensures At32(s, pos) == 0x02014b50 && Readable(At16(s, pos + 6), At16(s, pos + 8), At16(s, pos + 10))
  {
    StandsThree(s, pos, Le32(0x02014b50) + Le16(20) + Le16(20) + Le16(0x0800) + Le16(0), Le16(0), Le16(0));
    StandsFive(s, pos, Le32(0x02014b50), Le16(20), Le16(20), Le16(0x0800), Le16(0));
    Reads32(s, pos, 0x02014b50);
    Reads16(s, pos + 6, 20);
    Reads16(s, pos + 8, 0x0800);
    Reads16(s, pos + 10, 0);
  }

  lemma ReadsCentralTail(s: seq<Byte>, pos: nat, off: nat)
    requires Stands(s, pos, CentralTail(off)) && off < TWO_TO_THE_32
    ensures At16(s, pos) == 0 && At32(s, pos + 10) == off
  {
    StandsFive(s, pos, Le16(0), Le16(0), Le16(0), Le32(0), Le32(off));
    Reads16(s, pos, 0);
    Reads32(s, pos + 10, off);
  }

  lemma ReadsEndHead(s: seq<Byte>, pos: nat, count: nat)
    requires Stands(s, pos, EndHead(count)) && count < TWO_TO_THE_16
    ensures At32(s, pos) == 0x06054b50 && At16(s, pos + 8) == count && At16(s, pos + 10) == count
  {
    StandsFive(s, pos, Le32(0x06054b50), Le16(0), Le16(0), Le16(count), Le16(count));
    Reads32(s, pos, 0x06054b50);
    Reads16(s, pos + 8, count);
    Reads16(s, pos + 10, count);
  }

  lemma ReadsEndTail(s: seq<Byte>, pos: nat, size: nat, offset: nat)
    requires Stands(s, pos, EndTail(size, offset)) && size < TWO_TO_THE_32 && offset < TWO_TO_THE_32
    ensures At32(s, pos) == size && At32(s, pos + 4) == offset && At16(s, pos + 8) == 0
  {
    StandsThree(s, pos, Le32(size), Le32(offset), Le16(0));
    Reads32(s, pos, size);
    Reads32(s, pos + 4, offset);
    Reads16(s, pos + 8, 0);
  }

  // ---- the reader recovers every archive ----

  lemma StandsWider(s: seq<Byte>, pos: nat, part: seq<Byte>, a: seq<Byte>, b: seq<Byte>, whole: seq<Byte>)
    requires Stands(s, pos, part) && whole == a + s + b
    ensures Stands(whole, |a| + pos, part)
  {
    StandsHere(a, s, b);
    StandsInside(whole, |a|, s, pos, pos + |part|);
  }

  lemma StandsLonger(s: seq<Byte>, pos: nat, part: seq<Byte>, last: seq<Byte>, whole: seq<Byte>)
    requires Stands(s, pos, part) && whole == s + last
    ensures Stands(whole, pos, part)
  {
    assert whole == [] + s + last;
    StandsWider(s, pos, part, [], last, whole);
  }

  lemma StandsLast(s: seq<Byte>, last: seq<Byte>, whole: seq<Byte>)
    requires whole == s + last
    ensures Stands(whole, |s|, last)
  {
  }

  lemma {:induction false} LocalAt(items: seq<Item>, i: nat)
    requires i < |items|
    ensures Stands(Locals(items), |Locals(items[..i])|, LocalRecord(items[i]))
  {
    var front := items[..|items| - 1];
    if i == |items| - 1 {
      StandsLast(Locals(front), LocalRecord(items[i]), Locals(items));
    } else {
      LocalAt(front, i);
      assert front[..i] == items[..i];
      StandsLonger(Locals(front), |Locals(items[..i])|, LocalRecord(items[i]), LocalRecord(items[|items| - 1]),
                   Locals(items));
    }
  }

  lemma {:induction false} EntryAt(items: seq<Item>, i: nat)
    requires i < |items|
    ensures Stands(Directory(items), |Directory(items[..i])|, CentralRecord(items[i], |Locals(items[..i])|))
  {
    var front := items[..|items| - 1];
    var last := CentralRecord(items[|items| - 1], |Locals(front)|);
    if i == |items| - 1 {
      StandsLast(Directory(front), last, Directory(items));
    } else {
      EntryAt(front, i);
      assert front[..i] == items[..i];
      StandsLonger(Directory(front), |Directory(items[..i])|, CentralRecord(items[i], |Locals(items[..i])|), last,
                   Directory(items));
    }
  }

  // What the writer checks of a name, and the width of a CRC.
  predicate Storable(it: Item) {
    0 < |it.name| < 260 && 0 !in it.name && it.crc < TWO_TO_THE_32
  }

  lemma ReadsLocalHeader(s: seq<Byte>, pos: nat, crc: nat, size: nat, nameLen: nat)
    requires Stands(s, pos, LocalHeader(crc, size, nameLen))
    requires crc < TWO_TO_THE_32 && size < TWO_TO_THE_32 && nameLen < TWO_TO_THE_16
    ensures At32(s, pos) == 0x04034b50 && Readable(At16(s, pos + 4), At16(s, pos + 6), At16(s, pos + 8))
    ensures At32(s, pos + 14) == crc && At32(s, pos + 18) == size && At32(s, pos + 22) == size
    ensures At16(s, pos + 26) == nameLen && At16(s, pos + 28) == 0
  {
    StandsParts(s, pos, LocalHead(), MemberFields(crc, size, nameLen));
    ReadsLocalHead(s, pos);
    ReadsMemberFields(s, pos + 14, crc, size, nameLen);
  }

  lemma ReadsCentralHeader(s: seq<Byte>, pos: nat, crc: nat, size: nat, nameLen: nat, off: nat)
    requires Stands(s, pos, CentralHeader(crc, size, nameLen, off))
    requires crc < TWO_TO_THE_32 && size < TWO_TO_THE_32 && nameLen < TWO_TO_THE_16 && off < TWO_TO_THE_32
    ensures At32(s, pos) == 0x02014b50 && Readable(At16(s, pos + 6), At16(s, pos + 8), At16(s, pos + 10))
    ensures At32(s, pos + 16) == crc
    ensures At32(s, pos + 20) == size && At32(s, pos + 24) == size && At16(s, pos + 28) == nameLen
    ensures At16(s, pos + 30) == 0 && At16(s, pos + 32) == 0 && At32(s, pos + 42) == off
  {
    StandsThree(s, pos, CentralHead(), MemberFields(crc, size, nameLen), CentralTail(off));
    ReadsCentralHead(s, pos);
    ReadsMemberFields(s, pos + 16, crc, size, nameLen);
    ReadsCentralTail(s, pos + 32, off);
  }

  lemma ReadsLocal(s: seq<Byte>, pos: nat, it: Item)
    requires Stands(s, pos, LocalRecord(it)) && Storable(it) && |it.content| < TWO_TO_THE_32
    ensures ReadLocal(s, pos, it.name, it.crc, |it.content|) == Some(it)
  {
    var header := LocalHeader(it.crc, |it.content|, |it.name|);
    StandsThree(s, pos, header, it.name, it.content);
    ReadsLocalHeader(s, pos, it.crc, |it.content|, |it.name|);
  }

  lemma ReadsEntry(s: seq<Byte>, pos: nat, limit: nat, it: Item, off: nat)
    requires Stands(s, pos, CentralRecord(it, off)) && Stands(s, off, LocalRecord(it))
    requires Storable(it) && |it.content| < TWO_TO_THE_32 && off < TWO_TO_THE_32
    requires pos + |CentralRecord(it, off)| <= limit <= |s|
    ensures ReadEntry(s, pos, limit) == Some((it, pos + |CentralRecord(it, off)|))
  {
    hide CentralHeader, LocalRecord, At16, At32, ReadLocal;
    StandsParts(s, pos, CentralHeader(it.crc, |it.content|, |it.name|, off), it.name);
    ReadsCentralHeader(s, pos, it.crc, |it.content|, |it.name|, off);
    ReadsLocal(s, off, it);
  }

  lemma {:induction false} EntryEnds(items: seq<Item>, i: nat)
    requires i < |items|
    ensures |Directory(items[..i])| + |CentralRecord(items[i], |Locals(items[..i])|)| == |Directory(items[..i + 1])|
    ensures |Directory(items[..i + 1])| <= |Directory(items)|
    decreases |items|
  {
    hide CentralRecord, Locals;
    assert items[..i + 1][..i] == items[..i];
    if i + 1 == |items| {
      assert items[..i + 1] == items;
    } else {
      var front := items[..|items| - 1];
      EntryEnds(front, i);
      assert front[..i] == items[..i] && front[..i + 1] == items[..i + 1];
    }
  }

  lemma LocalFits(items: seq<Item>, i: nat)
    requires i < |items|
    ensures |Locals(items[..i])| + |items[i].content| <= |Locals(items)|
  {
    LocalAt(items, i);
  }

  // Entry i of a directory at base, and the member it locates.
  ghost predicate Located(s: seq<Byte>, base: nat, items: seq<Item>, i: nat)
    requires i < |items|
  {
    var off := |Locals(items[..i])|;
    && off + |items[i].content| < TWO_TO_THE_32
    && Stands(s, off, LocalRecord(items[i]))
    && Stands(s, base + |Directory(items[..i])|, CentralRecord(items[i], off))
  }

  lemma ReadsNoMore(s: seq<Byte>, limit: nat)
    requires limit <= |s|
    ensures ReadDirectory(s, limit, limit, 0) == Some([])
  {
  }

  lemma ReadsOneMore(s: seq<Byte>, pos: nat, limit: nat, n: nat, it: Item, next: nat, rest: seq<Item>)
    requires limit <= |s| && ReadEntry(s, pos, limit) == Some((it, next))
    requires ReadDirectory(s, next, limit, n) == Some(rest)
    ensures ReadDirectory(s, pos, limit, n + 1) == Some([it] + rest)
  {
  }

  lemma ReadsLocated(s: seq<Byte>, base: nat, limit: nat, items: seq<Item>, i: nat)
    requires i < |items| && Storable(items[i]) && Located(s, base, items, i)
    requires base + |Directory(items)| == limit <= |s|
    ensures ReadEntry(s, base + |Directory(items[..i])|, limit)
         == Some((items[i], base + |Directory(items[..i + 1])|))
  {
    hide LocalRecord, CentralRecord, ReadEntry;
    EntryEnds(items, i);
    ReadsEntry(s, base + |Directory(items[..i])|, limit, items[i], |Locals(items[..i])|);
  }

  lemma {:induction false} ReadsDirectory(s: seq<Byte>, base: nat, limit: nat, items: seq<Item>, i: nat)
    requires i <= |items| && base + |Directory(items)| == limit <= |s|
    requires forall it :: it in items ==> Storable(it)
    requires forall k :: 0 <= k < |items| ==> Located(s, base, items, k)
    ensures ReadDirectory(s, base + |Directory(items[..i])|, limit, |items| - i) == Some(items[i..])
    decreases |items| - i
  {
    hide Located, ReadEntry, ReadDirectory, Directory, Locals, LocalRecord, CentralRecord, Storable;
    if i == |items| {
      assert items[..i] == items && items[i..] == [];
      ReadsNoMore(s, limit);
    } else {
      assert Storable(items[i]) && Located(s, base, items, i);
      ReadsLocated(s, base, limit, items, i);
      ReadsDirectory(s, base, limit, items, i + 1);
      ReadsOneMore(s, base + |Directory(items[..i])|, limit, |items| - i - 1,
                   items[i], base + |Directory(items[..i + 1])|, items[i + 1..]);
      assert [items[i]] + items[i + 1..] == items[i..];
    }
  }

  lemma ArchiveHolds(items: seq<Item>, i: nat)
    requires i < |items|
    ensures Stands(Archive(items), |Locals(items[..i])|, LocalRecord(items[i]))
    ensures Stands(Archive(items), |Locals(items)| + |Directory(items[..i])|,
                   CentralRecord(items[i], |Locals(items[..i])|))
  {
    LocalAt(items, i);
    EntryAt(items, i);
    InThree(Locals(items), Directory(items), EndRecord(|items|, |Directory(items)|, |Locals(items)|),
            |Locals(items[..i])|, LocalRecord(items[i]),
            |Directory(items[..i])|, CentralRecord(items[i], |Locals(items[..i])|));
  }

  lemma InThree(a: seq<Byte>, b: seq<Byte>, c: seq<Byte>, i: nat, x: seq<Byte>, j: nat, y: seq<Byte>)
    requires Stands(a, i, x) && Stands(b, j, y)
    ensures Stands(a + b + c, i, x) && Stands(a + b + c, |a| + j, y)
  {
    assert a + b + c == a + (b + c);
    StandsLonger(a, i, x, b + c, a + b + c);
    StandsWider(b, j, y, a, c, a + b + c);
  }

  lemma ArchiveLocates(items: seq<Item>, i: nat)
    requires i < |items| && |Archive(items)| < TWO_TO_THE_32
    ensures Located(Archive(items), |Locals(items)|, items, i)
  {
    ArchiveHolds(items, i);
    LocalFits(items, i);
  }

  lemma ArchiveEnds(items: seq<Item>)
    ensures Stands(Archive(items), |Locals(items)| + |Directory(items)|, EndHead(|items|))
    ensures Stands(Archive(items), |Locals(items)| + |Directory(items)| + 12, EndTail(|Directory(items)|, |Locals(items)|))
    ensures |Archive(items)| == |Locals(items)| + |Directory(items)| + 22
  {
    hide Locals, Directory, EndHead, EndTail;
    var l, d := Locals(items), Directory(items);
    StandsLast(l + d, EndRecord(|items|, |d|, |l|), Archive(items));
    StandsParts(Archive(items), |l| + |d|, EndHead(|items|), EndTail(|d|, |l|));
  }

  lemma ReadsEnd(s: seq<Byte>, e: nat, count: nat, size: nat, offset: nat)
    requires Stands(s, e, EndHead(count)) && Stands(s, e + 12, EndTail(size, offset))
    requires count < TWO_TO_THE_16 && size < TWO_TO_THE_32 && offset < TWO_TO_THE_32
    requires |s| == e + 22 && offset + size == e
    ensures Read(s) == ReadDirectory(s, offset, e, count)
  {
    hide EndHead, EndTail, At16, At32, Stands, ReadDirectory;
    ReadsEndHead(s, e, count);
    ReadsEndTail(s, e + 12, size, offset);
  }

  // Reading an archive of up to 65535 members and less than 2^32 bytes gives back
  // every name, CRC, size and content, in order.
  lemma ReadsArchive(items: seq<Item>)
    requires |items| < TWO_TO_THE_16 && |Archive(items)| < TWO_TO_THE_32
    requires forall it :: it in items ==> Storable(it)
    ensures Read(Archive(items)) == Some(items)
  {
    hide Archive, Locals, CentralRecord, EndHead, EndTail, Located, Read, ReadDirectory, Storable, Stands;
    ArchiveEnds(items);
    ReadsEnd(Archive(items), |Locals(items)| + |Directory(items)|, |items|, |Directory(items)|, |Locals(items)|);
    forall k | 0 <= k < |items| ensures Located(Archive(items), |Locals(items)|, items, k) {
      ArchiveLocates(items, k);
    }
    ReadsDirectory(Archive(items), |Locals(items)|, |Locals(items)| + |Directory(items)|, items, 0);
    assert items[..0] == [] && items[0..] == items;
  }

  // No two lists of members share an archive.
  lemma ArchivesDiffer(a: seq<Item>, b: seq<Item>)
    requires |a| < TWO_TO_THE_16 && |Archive(a)| < TWO_TO_THE_32 && (forall it :: it in a ==> Storable(it))
    requires |b| < TWO_TO_THE_16 && |Archive(b)| < TWO_TO_THE_32 && (forall it :: it in b ==> Storable(it))
    requires Archive(a) == Archive(b)
    ensures a == b
  {
    ReadsArchive(a);
    ReadsArchive(b);
  }
}
