// The streaming writer of src/common/zip_store.c. Every operating-system call
// may fail, write or read less than asked: those outcomes are nondeterministic.
// A finished archive holds exactly the members whose add call succeeded.

module ZipWriter {
  import opened Strings
  import opened ZipFormat
  import Crc32

  datatype Result = Ok | InvalidArgument | NotSupported | OutOfMemory | Win32

  const WRITE_CHUNK: nat := 0x4000_0000
  const READ_CHUNK: nat := 64 * 1024
  const NAME_SIZE: nat := 260
  const MAX_ENTRIES: nat := 0xffff

  // A path given to the writer: what opening and reading it would yield.
  datatype Source = Missing | File(bytes: seq<Byte>)

  datatype Entry = Entry(name: seq<Byte>, crc: nat, size: nat, localOffset: nat)

  // The directory entry of member i.
  function EntryOf(items: seq<Item>, i: nat): Entry
    requires i < |items|
  {
    Entry(items[i].name, items[i].crc, |items[i].content|, |Locals(items[..i])|)
  }

  function Bits(data: seq<Byte>): (r: seq<bv8>)
    ensures |r| == |data|
  {
    seq(|data|, i requires 0 <= i < |data| => data[i] as bv8)
  }

  // The CRC-32 of a member's content.
  function Checksum(data: seq<Byte>): (r: nat)
    ensures r < TWO_TO_THE_32
  {
    Crc32.Crc(Bits(data)) as nat
  }

  // ---- little-endian stores into a header ----

  // Filling a header front to back: afterwards it holds two more bytes. Only
  // the low two bytes of v are stored, as the source's cast does.
  method PutU16(b: array<Byte>, at: nat, v: nat)
    requires at + 2 <= b.Length
    modifies b
    ensures b[..at + 2] == old(b[..at]) + Le16(v)
  {
    b[at] := Low(v);
    b[at + 1] := Low(v / 0x100);
  }

  method PutU32(b: array<Byte>, at: nat, v: nat)
    requires at + 4 <= b.Length
    modifies b
    ensures b[..at + 4] == old(b[..at]) + Le32(v)
  {
    b[at] := Low(v);
    b[at + 1] := Low(v / 0x100);
    b[at + 2] := Low(v / 0x1_0000);
    b[at + 3] := Low(v / 0x100_0000);
  }

  method PutMemberFields(b: array<Byte>, at: nat, crc: nat, size: nat, nameLen: nat)
    requires at + 16 <= b.Length
    modifies b
    ensures b[..at + 16] == old(b[..at]) + MemberFields(crc, size, nameLen)
  {
    hide Le16, Le32;
    ghost var before := b[..at];
    PutU32(b, at, crc);
    PutU32(b, at + 4, size);
    PutU32(b, at + 8, size);
    PutU16(b, at + 12, nameLen);
    PutU16(b, at + 14, 0);
    assert b[..at + 16] == before + (Le32(crc) + Le32(size) + Le32(size) + Le16(nameLen) + Le16(0));
  }

  method PutCentralTail(b: array<Byte>, at: nat, localOffset: nat)
    requires at + 14 <= b.Length
    modifies b
    ensures b[..at + 14] == old(b[..at]) + CentralTail(localOffset)
  {
    hide Le16, Le32;
    ghost var before := b[..at];
    PutU16(b, at, 0);
    PutU16(b, at + 2, 0);
    PutU16(b, at + 4, 0);
    PutU32(b, at + 6, 0);
    PutU32(b, at + 10, localOffset);
    assert b[..at + 14] == before + (Le16(0) + Le16(0) + Le16(0) + Le32(0) + Le32(localOffset));
  }

  method BuildLocalHeader(crc: nat, size: nat, nameLen: nat) returns (hdr: array<Byte>)
    ensures fresh(hdr) && hdr[..] == LocalHeader(crc, size, nameLen)
  {
    hide Le16, Le32, MemberFields;
    hdr := new Byte[30];
    PutU32(hdr, 0, 0x04034b50);
    PutU16(hdr, 4, 20);
    PutU16(hdr, 6, 0x0800);
    PutU16(hdr, 8, 0);
    PutU16(hdr, 10, 0);
    PutU16(hdr, 12, 0);
    assert hdr[..14] == LocalHead();
    PutMemberFields(hdr, 14, crc, size, nameLen);
    assert hdr[..] == hdr[..30];
  }

  method BuildCentralHeader(crc: nat, size: nat, nameLen: nat, localOffset: nat) returns (hdr: array<Byte>)
    ensures fresh(hdr) && hdr[..] == CentralHeader(crc, size, nameLen, localOffset)
  {
    hide Le16, Le32, MemberFields, CentralTail;
    hdr := new Byte[46];
    PutU32(hdr, 0, 0x02014b50);
    PutU16(hdr, 4, 20);
    PutU16(hdr, 6, 20);
    PutU16(hdr, 8, 0x0800);
    PutU16(hdr, 10, 0);
    PutU16(hdr, 12, 0);
    PutU16(hdr, 14, 0);
    assert hdr[..16] == CentralHead();
    PutMemberFields(hdr, 16, crc, size, nameLen);
    PutCentralTail(hdr, 32, localOffset);
    assert hdr[..] == hdr[..46];
  }

  method BuildEndRecord(count: nat, size: nat, offset: nat) returns (hdr: array<Byte>)
    ensures fresh(hdr) && hdr[..] == EndRecord(count, size, offset)
  {
    hide Le16, Le32;
    hdr := new Byte[22];
    PutU32(hdr, 0, 0x06054b50);
    PutU16(hdr, 4, 0);
    PutU16(hdr, 6, 0);
    PutU16(hdr, 8, count);
    PutU16(hdr, 10, count);
    assert hdr[..12] == EndHead(count);
    PutU32(hdr, 12, size);
    PutU32(hdr, 16, offset);
    PutU16(hdr, 20, 0);
    assert hdr[..22] == EndHead(count) + (Le32(size) + Le32(offset) + Le16(0));
    assert hdr[..] == hdr[..22];
  }

  // ---- the writer ----

  lemma LocalsExtend(items: seq<Item>, it: Item)
    ensures Locals(items + [it]) == Locals(items) + LocalRecord(it)
  {
    assert (items + [it])[..|items|] == items;
  }

  lemma DirectoryExtend(items: seq<Item>, i: nat)
    requires i < |items|
    ensures Directory(items[..i + 1]) == Directory(items[..i]) + CentralRecord(items[i], |Locals(items[..i])|)
  {
    assert items[..i + 1][..i] == items[..i];
  }

  // The entries list exactly the members written so far.
  ghost predicate Lists(entries: seq<Entry>, items: seq<Item>) {
    |entries| == |items| && forall i :: 0 <= i < |items| ==> entries[i] == EntryOf(items, i)
  }

  lemma ListsExtend(entries: seq<Entry>, items: seq<Item>, it: Item)
    requires Lists(entries, items)
    ensures Lists(entries + [Entry(it.name, it.crc, |it.content|, |Locals(items)|)], items + [it])
  {
    hide Locals;
    var entries' := entries + [Entry(it.name, it.crc, |it.content|, |Locals(items)|)];
    var items' := items + [it];
    assert items'[..|items|] == items;
    forall i | 0 <= i < |items'| ensures entries'[i] == EntryOf(items', i) {
      if i < |items| {
        assert items'[..i] == items[..i];
        assert entries[i] == EntryOf(items, i);
      }
    }
  }

  // One call on an open writer.
  datatype Op =
    | AddBytes(name: seq<Byte>, data: seq<Byte>)
    | AddPath(name: seq<Byte>, path: Option<Source>, crc: nat, size: nat)

  // The member a successful call adds.
  function ItemOf(op: Op): Item {
    match op
    case AddBytes(name, data) => Item(name, Checksum(data), data)
    case AddPath(name, path, crc, size) =>
      var content := match path
                     case Some(File(bytes)) => if size <= |bytes| then bytes[..size] else []
                     case _ => [];
      Item(name, crc, content)
  }

  class Writer {
    var isOpen: bool
    var failed: bool
    var offset: nat
    var entries: seq<Entry>
    var capacity: nat
    // The file at the writer's path.
    var onDisk: bool
    var disk: seq<Byte>
    // Windows refused to delete the file of an abandoned archive.
    ghost var undeleted: bool
    // The members added so far.
    ghost var items: seq<Item>

    ghost predicate Valid()
      reads this
    {
      && |entries| <= capacity
      && (!isOpen ==> entries == [])
      && (isOpen ==> onDisk)
      && (isOpen ==> Lists(entries, items))
      && (forall it :: it in items ==> Storable(it))
      && (isOpen && !failed ==> disk == Locals(items) && offset == |disk|)
    }

    // wt_zip_begin, when the file could be created.
    constructor Begin()
      ensures Valid() && isOpen && !failed && items == [] && !undeleted
    {
      isOpen, failed, offset, entries, capacity, onDisk, disk, items := true, false, 0, [], 0, true, [], [];
      undeleted := false;
    }

    // Appends data in chunks. Unless every chunk is written whole the writer has
    // failed for good.
    method Write(data: seq<Byte>) returns (r: Result)
      modifies this`failed, this`offset, this`disk
      ensures r == InvalidArgument <==> old(failed) || !isOpen
      ensures r == InvalidArgument ==> unchanged(this)
      ensures r == Ok ==> !failed && disk == old(disk) + data && offset == old(offset) + |data|
      ensures r == Ok || r == InvalidArgument || (r == Win32 && failed)
    {
      if failed || !isOpen {
        return InvalidArgument;
      }
      var left := |data|;
      while left > 0
        invariant 0 <= left <= |data| && !failed
        invariant disk == old(disk) + data[..|data| - left]
        invariant offset == old(offset) + (|data| - left)
      {
        var at := |data| - left;
        var chunk := if left > WRITE_CHUNK then WRITE_CHUNK else left;
        var written :| 0 <= written <= chunk;
        var success: bool := *;
        disk := disk + data[at..at + written];
        if !success || written != chunk {
          failed := true;
          return Win32;
        }
        assert data[..at] + data[at..at + written] == data[..at + written];
        left := left - written;
        offset := offset + written;
      }
      assert data[..|data|] == data;
      return Ok;
    }

    // Makes room for one more entry.
    method Grow() returns (r: Result)
      requires |entries| <= capacity
      modifies this`capacity
      ensures r == Ok || r == OutOfMemory
      ensures r == Ok ==> |entries| < capacity
      ensures |entries| <= capacity
    {
      if |entries| < capacity {
        return Ok;
      }
      var ncap := if capacity == 0 then 16 else capacity * 2;
      var granted: bool := *;
      if !granted {
        return OutOfMemory;
      }
      capacity := ncap;
      return Ok;
    }

    // Copies the first size bytes of a file, which reads hand over piecemeal.
    method CopyFile(source: Source, size: nat) returns (r: Result)
      requires isOpen && !failed
      modifies this`failed, this`offset, this`disk
      ensures r == Ok <==> !failed
      ensures r == Ok ==> source.File? && size <= |source.bytes|
      ensures r == Ok ==> disk == old(disk) + source.bytes[..size] && offset == old(offset) + size
      ensures r == Ok || r == Win32
    {
      var readable: bool := *;
      if source.Missing? || !readable {
        failed := true;
        return Win32;
      }
      var remaining, pos := size, 0;
      while remaining > 0
        invariant 0 <= remaining && pos <= |source.bytes| && remaining + pos == size && !failed
        invariant disk == old(disk) + source.bytes[..pos] && offset == old(offset) + pos
        decreases remaining
      {
        var want := if remaining > READ_CHUNK then READ_CHUNK else remaining;
        var n :| 0 <= n <= want && pos + n <= |source.bytes|;
        var success: bool := *;
        if !success || n == 0 {
          failed := true;
          return Win32;
        }
        r := Write(source.bytes[pos..pos + n]);
        if r != Ok {
          return;
        }
        assert source.bytes[..pos] + source.bytes[pos..pos + n] == source.bytes[..pos + n];
        remaining := remaining - n;
        pos := pos + n;
      }
      return Ok;
    }

    // wt_zip_add_local: header, name, content, and the entry in memory.
    method AddLocal(name: seq<Byte>, crc: nat, size: nat, data: Option<seq<Byte>>, path: Option<Source>)
      returns (r: Result)
      requires Valid() && 0 !in name && crc < TWO_TO_THE_32 && size < TWO_TO_THE_32
      modifies this
      ensures Valid() && isOpen == old(isOpen) && onDisk == old(onDisk) && undeleted == old(undeleted)
      ensures r == Ok ==> old(isOpen) && !failed && 0 < |name| < NAME_SIZE
      ensures r == Ok ==> exists content :: Given(data, path, size, content)
                                         && items == old(items) + [Item(name, crc, content)]
      ensures r != Ok ==> items == old(items)
      ensures (|name| == 0 || |name| >= NAME_SIZE || (data.Some? && |data.value| != size) || (data.None? && path.None?))
          ==> r == InvalidArgument && unchanged(this)
      ensures old(failed) ==> r != Ok && failed
    {
      hide Locals, LocalHeader, Storable, Lists, EntryOf;
      if |name| == 0 || |name| >= NAME_SIZE {
        return InvalidArgument;
      }
      if data.Some? && |data.value| != size {
        return InvalidArgument;
      }
      if data.None? && path.None? {
        return InvalidArgument;
      }
      r := Grow();
      if r != Ok {
        return;
      }
      var localOffset := offset;
      var hdr := BuildLocalHeader(crc, size, |name|);
      r := Write(hdr[..]);
      if r != Ok {
        return;
      }
      r := Write(name);
      if r != Ok {
        return;
      }
      if data.Some? {
        r := Write(data.value);
      } else {
        r := CopyFile(path.value, size);
      }
      if r != Ok {
        return;
      }
      ghost var content := if data.Some? then data.value else path.value.bytes[..size];
      assert Given(data, path, size, content);
      ghost var it := Item(name, crc, content);
      RecordWritten(it, old(items), hdr[..]);
      ListsExtend(entries, items, it);
      Holds(items, it);
      entries := entries + [Entry(name, crc, size, localOffset)];
      items := items + [it];
      return Ok;
    }

    // wt_zip_add_bytes: the CRC is computed here.
    method AddBytes(table: Crc32.Table, name: seq<Byte>, data: seq<Byte>) returns (r: Result)
      requires Valid() && table.Valid() && 0 !in name
      modifies this, table, table.entries
      ensures Valid() && table.Valid() && isOpen == old(isOpen) && onDisk == old(onDisk) && undeleted == old(undeleted)
      ensures items == if r == Ok then old(items) + [ItemOf(Op.AddBytes(name, data))] else old(items)
      ensures r == Ok ==> old(isOpen) && !failed
      ensures |data| > 0xffffffff ==> r == NotSupported
      ensures old(failed) ==> r != Ok && failed
    {
      hide Locals, Storable, Lists;
      if |data| > 0xffffffff {
        return NotSupported;
      }
      var register := table.Update(0xffffffff, Bits(data));
      var crc := Crc32.Finish(register) as nat;
      assert crc == Checksum(data);
      r := AddLocal(name, crc, |data|, Some(data), None);
    }

    // wt_zip_add_path: the caller gives CRC and size.
    method AddPath(name: seq<Byte>, path: Option<Source>, crc: nat, size: nat) returns (r: Result)
      requires Valid() && 0 !in name && crc < TWO_TO_THE_32 && size < TWO_TO_THE_32
      modifies this
      ensures Valid() && isOpen == old(isOpen) && onDisk == old(onDisk) && undeleted == old(undeleted)
      ensures items == if r == Ok then old(items) + [ItemOf(Op.AddPath(name, path, crc, size))] else old(items)
      ensures r == Ok ==> old(isOpen) && !failed
      ensures old(failed) ==> r != Ok && failed
    {
      hide Locals, Storable, Lists;
      r := AddLocal(name, crc, size, None, path);
    }

    // wt_zip_abort: the file is deleted, if Windows lets it be, and the writer
    // stays unusable.
    method Abort()
      requires forall it :: it in items ==> Storable(it)
      modifies this
      ensures Valid()
      ensures !isOpen && failed && items == old(items)
      ensures !old(isOpen) ==> onDisk == old(onDisk) && undeleted == old(undeleted)
      ensures old(isOpen) ==> onDisk == undeleted
    {
      if isOpen {
        isOpen := false;
        var deleted: bool := *;
        onDisk := !deleted;
        undeleted := !deleted;
      }
      entries, capacity, failed := [], 0, true;
    }

    // One directory entry.
    method WriteEntry(e: Entry) returns (r: Result)
      modifies this`failed, this`offset, this`disk
      ensures r == InvalidArgument ==> old(failed) || !isOpen
      ensures r == Ok ==> !failed
      ensures r == Ok ==> disk == old(disk) + CentralHeader(e.crc, e.size, |e.name|, e.localOffset) + e.name
      ensures r == Ok ==> offset == old(offset) + |CentralHeader(e.crc, e.size, |e.name|, e.localOffset) + e.name|
    {
      hide CentralHeader;
      var hdr := BuildCentralHeader(e.crc, e.size, |e.name|, e.localOffset);
      r := Write(hdr[..]);
      if r != Ok {
        return;
      }
      r := Write(e.name);
    }

    // wt_zip_finish: directory and end record, or no file at all.
    method Finish() returns (r: Result)
      requires Valid()
      modifies this
      ensures Valid() && items == old(items)
      ensures !old(isOpen) ==> r == InvalidArgument && unchanged(this)
      ensures old(isOpen) ==> !isOpen && onDisk == (r == Ok || undeleted)
      ensures r == Ok ==> undeleted == old(undeleted)
      ensures r == Ok ==> !old(failed) && |items| <= MAX_ENTRIES && disk == Archive(items)
      ensures old(isOpen) && old(failed) ==> r == Win32
      ensures old(isOpen) && !old(failed) && |items| > MAX_ENTRIES ==> r == NotSupported
    {
      hide Locals, Directory, CentralHeader, Storable, EndRecord;
      if !isOpen {
        return InvalidArgument;
      }
      if failed {
        Abort();
        return Win32;
      }
      if |entries| > MAX_ENTRIES {
        Abort();
        return NotSupported;
      }
      var cdOffset := offset;
      NoDirectory(items);
      for i := 0 to |entries|
        invariant isOpen && onDisk && !failed && items == old(items) && entries == old(entries)
        invariant capacity == old(capacity) && undeleted == old(undeleted)
        invariant disk == Locals(items) + Directory(items[..i])
        invariant offset == |disk|
      {
        assert entries[i] == EntryOf(items, i);
        EntryWritten(items, i);
        r := WriteEntry(entries[i]);
        if r != Ok {
          Abort();
          return;
        }
      }
      assert items[..|entries|] == items;
      var cdSize := offset - cdOffset;
      var end := BuildEndRecord(|entries|, cdSize, cdOffset);
      r := Write(end[..]);
      if r != Ok {
        Abort();
        return;
      }
      isOpen, entries, capacity := false, [], 0;
      return Ok;
    }
  }

  lemma NoDirectory(items: seq<Item>)
    ensures Locals(items) + Directory(items[..0]) == Locals(items)
  {
  }

  lemma EntryWritten(items: seq<Item>, i: nat)
    requires i < |items|
    ensures var e := EntryOf(items, i);
      Locals(items) + Directory(items[..i]) + CentralHeader(e.crc, e.size, |e.name|, e.localOffset) + e.name
      == Locals(items) + Directory(items[..i + 1])
  {
    hide Locals, CentralHeader;
    DirectoryExtend(items, i);
  }

  lemma RecordWritten(it: Item, items: seq<Item>, hdr: seq<Byte>)
    requires hdr == LocalHeader(it.crc, |it.content|, |it.name|)
    ensures Locals(items) + hdr + it.name + it.content == Locals(items + [it])
  {
    hide LocalHeader;
    LocalsExtend(items, it);
  }

  lemma Holds(items: seq<Item>, it: Item)
    requires forall x :: x in items ==> Storable(x)
    requires 0 < |it.name| < NAME_SIZE && 0 !in it.name && it.crc < TWO_TO_THE_32
    ensures forall x :: x in items + [it] ==> Storable(x)
  {
  }

  // The content an add call asks for: the bytes given, or the first size bytes of
  // the file named.
  ghost predicate Given(data: Option<seq<Byte>>, path: Option<Source>, size: nat, content: seq<Byte>) {
    match data
    case Some(bytes) => content == bytes && |bytes| == size
    case None =>
      match path
      case Some(File(bytes)) => size <= |bytes| && content == bytes[..size]
      case _ => false
  }

  // Names are C strings, CRC and size 32-bit words.
  predicate WellTyped(op: Op) {
    0 !in op.name && (op.AddPath? ==> op.crc < TWO_TO_THE_32 && op.size < TWO_TO_THE_32)
  }

  // The members whose calls succeeded, in call order.
  function Accepted(ops: seq<Op>, results: seq<Result>): seq<Item>
    requires |results| == |ops|
  {
    if ops == [] then []
    else
      var last := |ops| - 1;
      Accepted(ops[..last], results[..last]) + (if results[last] == Ok then [ItemOf(ops[last])] else [])
  }

  lemma NoneAccepted(ops: seq<Op>)
    ensures Accepted(ops[..0], []) == []
  {
  }

  lemma AcceptedStep(ops: seq<Op>, results: seq<Result>, one: Result)
    requires |results| < |ops|
    ensures Accepted(ops[..|results| + 1], results + [one])
         == Accepted(ops[..|results|], results) + (if one == Ok then [ItemOf(ops[|results|])] else [])
  {
    assert ops[..|results| + 1][..|results|] == ops[..|results|] && (results + [one])[..|results|] == results;
  }

  // A whole run: begin, any calls in any order with any failures, finish. Whatever
  // happened, a successful finish leaves exactly the archive of the accepted
  // members; any other outcome leaves no file, unless it could not be deleted.
  method Pack(table: Crc32.Table, ops: seq<Op>) returns (w: Writer, results: seq<Result>, r: Result)
    requires table.Valid() && forall op :: op in ops ==> WellTyped(op)
    modifies table, table.entries
    ensures |results| == |ops| && w.onDisk == (r == Ok || w.undeleted) && (r == Ok ==> !w.undeleted)
    ensures r == Ok ==> w.disk == Archive(Accepted(ops, results)) && |Accepted(ops, results)| <= MAX_ENTRIES
    ensures forall it :: it in Accepted(ops, results) ==> Storable(it)
  {
    hide Archive, Storable, Accepted, ItemOf, Checksum;
    w := new Writer.Begin();
    results := [];
    NoneAccepted(ops);
    for i := 0 to |ops|
      invariant fresh(w) && w.Valid() && table.Valid() && w.isOpen
      invariant |results| == i && w.items == Accepted(ops[..i], results) && !w.undeleted
    {
      assert WellTyped(ops[i]);
      var one;
      match ops[i] {
        case AddBytes(name, data) => one := w.AddBytes(table, name, data);
        case AddPath(name, path, crc, size) => one := w.AddPath(name, path, crc, size);
      }
      AcceptedStep(ops, results, one);
      results := results + [one];
    }
    assert ops[..|ops|] == ops;
    r := w.Finish();
  }

  // The sums a caller of AddPath gives are those of the file.
  predicate TrueSums(op: Op) {
    op.AddPath? ==> op.path.Some? && op.path.value.File? && op.size == |op.path.value.bytes|
                    && op.crc == Checksum(op.path.value.bytes)
  }

  lemma {:induction false} AcceptedAreIntact(ops: seq<Op>, results: seq<Result>)
    requires |results| == |ops| && forall op :: op in ops ==> TrueSums(op)
    ensures forall it :: it in Accepted(ops, results) ==> it.crc == Checksum(it.content)
  {
    hide Checksum;
    if ops != [] {
      var last := |ops| - 1;
      AcceptedAreIntact(ops[..last], results[..last]);
      assert TrueSums(ops[last]);
      if ops[last].AddPath? {
        assert ops[last].path.value.bytes[..ops[last].size] == ops[last].path.value.bytes;
      }
    }
  }

  // End to end: below 4 GiB the reader gets back what was accepted, and every CRC
  // it finds is that of the content beside it.
  lemma PackedArchiveReads(ops: seq<Op>, results: seq<Result>, disk: seq<Byte>)
    requires |results| == |ops| && forall op :: op in ops ==> TrueSums(op)
    requires forall it :: it in Accepted(ops, results) ==> Storable(it)
    requires |Accepted(ops, results)| <= MAX_ENTRIES
    requires disk == Archive(Accepted(ops, results)) && |disk| < TWO_TO_THE_32
    ensures Read(disk) == Some(Accepted(ops, results))
    ensures forall it :: it in Accepted(ops, results) ==> it.crc == Checksum(it.content)
  {
    hide Archive, Read, Storable, Checksum;
    ReadsArchive(Accepted(ops, results));
    AcceptedAreIntact(ops, results);
  }
}
