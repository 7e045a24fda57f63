// The streaming writer of src/output/json.c: a nesting depth, a member count for
// every open level and a flag for a value awaited after a key decide which
// separators go out. Whatever tree the calls describe, its text is written.

module JsonWriter {
  import opened JsonText
  import opened Strings

  const MAX_DEPTH: nat := 32

  // The counts of the open levels, outermost first, describe where the writer is.

  function Count(levels: seq<nat>): nat {
    if levels == [] then 0 else levels[|levels| - 1]
  }

  // n more values or keys on the innermost level.
  function Counted(levels: seq<nat>, n: nat): (r: seq<nat>)
    ensures |r| == |levels|
  {
    if levels == [] then [] else levels[|levels| - 1 := levels[|levels| - 1] + n]
  }

  // A value awaited after a key was counted with it, and has no separator.
  function After(levels: seq<nat>, awaited: bool): (r: seq<nat>)
    ensures |r| == |levels|
  {
    if awaited then levels else Counted(levels, 1)
  }

  function Placed(levels: seq<nat>, awaited: bool, compact: bool, text: string): string {
    if awaited then text else Lead(|levels|, Count(levels), compact, text)
  }

  lemma CountedTwice(levels: seq<nat>, a: nat, b: nat)
    requires levels != []
    ensures Counted(Counted(levels, a), b) == Counted(levels, a + b)
    ensures Count(Counted(levels, a)) == Count(levels) + a
    ensures Counted(levels, 0) == levels
  {
  }

  // A level opened, filled with n members and closed.
  lemma OpenedAndClosed(levels: seq<nat>, n: nat)
    ensures Count(levels + [0]) == 0 && Count(Counted(levels + [0], n)) == n
    ensures Counted(levels + [0], n)[..|levels|] == levels
  {
  }

  // What precedes a value or key that is the next of its level.
  function Lead(depth: nat, count: nat, compact: bool, rest: string): string {
    if depth == 0 then rest
    else if count > 0 then [','] + Break(depth, compact, rest)
    else Break(depth, compact, rest)
  }

  lemma LeadAppend(depth: nat, count: nat, compact: bool, a: string, b: string)
    ensures Lead(depth, count, compact, a + b) == Lead(depth, count, compact, a) + b
  {
    hide Break;
    if depth > 0 {
      BreakAppend(depth, compact, a, b);
    }
  }

  // How many levels a value opens.
  function Nesting(v: Json): nat
    decreases v
  {
    match v
    case Array(items) => 1 + ItemsNesting(items)
    case Object(members) => 1 + MembersNesting(members)
    case _ => 0
  }

  function ItemsNesting(items: List<Json>): nat
    decreases items
  {
    match items
    case Nil => 0
    case Cons(v, tail) => if Nesting(v) > ItemsNesting(tail) then Nesting(v) else ItemsNesting(tail)
  }

  function MembersNesting(members: List<Member>): nat
    decreases members
  {
    match members
    case Nil => 0
    case Cons(m, tail) => if Nesting(m.value) > MembersNesting(tail) then Nesting(m.value) else MembersNesting(tail)
  }

  function Length<T>(l: List<T>): nat {
    if l.Nil? then 0 else 1 + Length(l.tail)
  }

  // The rest of a level's items, count of which are already written.
  function Items(items: List<Json>, depth: nat, count: nat, compact: bool): string {
    if items.Nil? then ""
    else if count > 0 then [','] + ItemsText(items, depth, compact, "")
    else ItemsText(items, depth, compact, "")
  }

  function Members(members: List<Member>, depth: nat, count: nat, compact: bool): string {
    if members.Nil? then ""
    else if count > 0 then [','] + MembersText(members, depth, compact, "")
    else MembersText(members, depth, compact, "")
  }

  class Writer {
    var out: string
    var depth: nat
    const counts: array<nat>
    var expectValue: bool
    const compact: bool

    ghost predicate Valid()
      reads this
    {
      counts.Length == MAX_DEPTH && depth <= MAX_DEPTH
    }

    // wt_json_init.
    constructor (compact: bool)
      ensures Valid() && fresh(counts) && this.compact == compact
      ensures out == "" && depth == 0 && !expectValue
    {
      out, depth, expectValue := "", 0, false;
      counts := new nat[MAX_DEPTH](_ => 0);
      this.compact := compact;
    }

    function Levels(): (r: seq<nat>)
      requires Valid()
      reads this, counts
      ensures |r| == depth
    {
      counts[..depth]
    }

    method NewlineIndent(level: nat)
      modifies this`out
      ensures out == old(out) + Break(level, compact, "")
    {
      if compact {
        return;
      }
      out := out + ['\n'];
      for i := 0 to level * 2
        invariant out == old(out) + (['\n'] + Spaces(i, ""))
      {
        SpacesGrow(i);
        assert out + [' '] == old(out) + (['\n'] + Spaces(i + 1, ""));
        out := out + [' '];
      }
    }

    // Starts the next value or key of an open level.
    method Next()
      requires Valid()
      modifies this`out, counts
      ensures out == old(out) + Lead(depth, Count(old(Levels())), compact, "")
      ensures Levels() == Counted(old(Levels()), 1)
    {
      hide Break;
      ghost var before := out;
      if depth > 0 {
        if counts[depth - 1] > 0 {
          out := out + [','];
        }
        NewlineIndent(depth);
        assert out == before + Lead(depth, Count(Levels()), compact, "");
        counts[depth - 1] := counts[depth - 1] + 1;
      }
    }

    // wt_json_value_prefix.
    method ValuePrefix()
      requires Valid()
      modifies this`out, this`expectValue, counts
      ensures !expectValue
      ensures out == old(out) + Placed(old(Levels()), old(expectValue), compact, "")
      ensures Levels() == After(old(Levels()), old(expectValue))
    {
      if expectValue {
        expectValue := false;
        return;
      }
      Next();
    }

    // wt_json_write_escaped.
    method WriteEscaped(s: string)
      modifies this`out
      ensures out == old(out) + StringText(s, "")
    {
      hide EscapeChar;
      out := out + ['"'];
      for i := 0 to |s|
        invariant out + Quoted(s[i..], "") == old(out) + StringText(s, "")
      {
        assert s[i..][1..] == s[i + 1..];
        out := out + EscapeChar(s[i]);
      }
      out := out + ['"'];
    }

    // wt_json_string.
    method StringValue(s: string)
      requires Valid()
      modifies this`out, this`expectValue, counts
      ensures Valid() && !expectValue && Levels() == After(old(Levels()), old(expectValue))
      ensures out == old(out) + Placed(old(Levels()), old(expectValue), compact, StringText(s, ""))
    {
      hide Lead, StringText;
      LeadAppend(depth, Count(Levels()), compact, "", StringText(s, ""));
      assert "" + StringText(s, "") == StringText(s, "");
      ValuePrefix();
      WriteEscaped(s);
    }

    // A number, boolean or null, given its text.
    method Scalar(text: string)
      requires Valid()
      modifies this`out, this`expectValue, counts
      ensures Valid() && !expectValue && Levels() == After(old(Levels()), old(expectValue))
      ensures out == old(out) + Placed(old(Levels()), old(expectValue), compact, text)
    {
      hide Lead;
      LeadAppend(depth, Count(Levels()), compact, "", text);
      assert "" + text == text;
      ValuePrefix();
      out := out + text;
    }

    // wt_json_begin_array and wt_json_begin_object.
    method Begin(bracket: char)
      requires Valid()
      modifies this`out, this`expectValue, this`depth, counts
      ensures Valid() && !expectValue
      ensures depth == if old(depth) < MAX_DEPTH then old(depth) + 1 else old(depth)
      ensures out == old(out) + Placed(old(Levels()), old(expectValue), compact, [bracket])
      ensures Levels() == After(old(Levels()), old(expectValue)) + (if old(depth) < MAX_DEPTH then [0] else [])
    {
      hide Lead;
      Scalar([bracket]);
      if depth < MAX_DEPTH {
        depth := depth + 1;
        counts[depth - 1] := 0;
      }
    }

    // wt_json_end_array and wt_json_end_object.
    method End(bracket: char)
      requires Valid()
      modifies this`out, this`depth
      ensures Valid() && Levels() == if old(depth) > 0 then old(Levels())[..old(depth) - 1] else []
      ensures out == old(out) + (if Count(old(Levels())) > 0 then Break(depth, compact, "") else "") + [bracket]
    {
      var members := 0;
      if depth > 0 {
        members := counts[depth - 1];
        depth := depth - 1;
      }
      if members > 0 {
        NewlineIndent(depth);
      }
      out := out + [bracket];
    }

    // wt_json_key.
    method Key(key: string)
      requires Valid()
      modifies this`out, this`expectValue, counts
      ensures Valid() && expectValue && Levels() == Counted(old(Levels()), 1)
      ensures out == old(out) + Lead(depth, Count(old(Levels())), compact, StringText(key, Colon(compact, "")))
    {
      hide Lead, StringText;
      LeadAppend(depth, Count(Levels()), compact, "", StringText(key, Colon(compact, "")));
      assert "" + StringText(key, Colon(compact, "")) == StringText(key, Colon(compact, ""));
      StringAppend(key, "", Colon(compact, ""));
      assert "" + Colon(compact, "") == Colon(compact, "");
      Next();
      WriteEscaped(key);
      if compact {
        out := out + [':'];
      } else {
        out := out + [':', ' '];
      }
      expectValue := true;
    }
  }

  // The text of an array or object, its bracket, content and end.
  lemma ArrayText(items: List<Json>, level: nat, compact: bool)
    ensures Text(Array(items), level, compact, "")
         == ['['] + Items(items, level + 1, 0, compact) + (if items.Cons? then Break(level, compact, "") else "") + [']']
  {
    if items.Cons? {
      var close := Break(level, compact, [']']);
      ItemsAppend(items, level + 1, compact, "", close);
      BreakAppend(level, compact, "", [']']);
      assert "" + [']'] == [']'] && [']'] + "" == [']'] && "" + close == close;
    }
  }

  lemma ObjectText(members: List<Member>, level: nat, compact: bool)
    ensures Text(Object(members), level, compact, "")
         == ['{'] + Members(members, level + 1, 0, compact) + (if members.Cons? then Break(level, compact, "") else "") + ['}']
  {
    if members.Cons? {
      var close := Break(level, compact, ['}']);
      MembersAppend(members, level + 1, compact, "", close);
      BreakAppend(level, compact, "", ['}']);
      assert "" + ['}'] == ['}'] && ['}'] + "" == ['}'] && "" + close == close;
    }
  }

  // The first item's text is led as the writer leads it; the rest follows.
  lemma NextItem(items: List<Json>, depth: nat, count: nat, compact: bool)
    requires items.Cons? && depth > 0
    ensures Items(items, depth, count, compact)
         == Lead(depth, count, compact, Text(items.head, depth, compact, "")) + Items(items.tail, depth, count + 1, compact)
  {
    hide Break, Text;
    var more := Items(items.tail, depth, count + 1, compact);
    var text := Text(items.head, depth, compact, "");
    TextAppend(items.head, depth, compact, "", more);
    assert "" + more == more;
    BreakAppend(depth, compact, text, more);
  }

  lemma FirstMember(members: List<Member>, depth: nat, compact: bool)
    requires members.Cons?
    ensures MembersText(members, depth, compact, "")
         == Break(depth, compact, StringText(members.head.key, Colon(compact, "")))
            + Text(members.head.value, depth, compact, "") + Members(members.tail, depth, 1, compact)
  {
    hide Break, Text, StringText, Colon;
    var Member(key, value) := members.head;
    var more := Members(members.tail, depth, 1, compact);
    var text := Text(value, depth, compact, "");
    var head := StringText(key, Colon(compact, ""));
    TextAppend(value, depth, compact, "", more);
    assert "" + more == more && "" + (text + more) == text + more;
    ColonAppend(compact, "", text + more);
    StringAppend(key, Colon(compact, ""), text + more);
    BreakAppend(depth, compact, head, text + more);
  }

  lemma NextMember(members: List<Member>, depth: nat, count: nat, compact: bool)
    requires members.Cons? && depth > 0
    ensures Members(members, depth, count, compact)
         == Lead(depth, count, compact, StringText(members.head.key, Colon(compact, "")))
            + Text(members.head.value, depth, compact, "") + Members(members.tail, depth, count + 1, compact)
  {
    hide Break, Text, StringText, Colon, MembersText;
    FirstMember(members, depth, compact);
  }

  lemma PlacedAppend(levels: seq<nat>, awaited: bool, compact: bool, a: string, b: string)
    ensures Placed(levels, awaited, compact, a + b) == Placed(levels, awaited, compact, a) + b
  {
    hide Lead;
    LeadAppend(|levels|, Count(levels), compact, a, b);
  }

  // What an array's calls write, its opening bracket placed as any value.
  lemma ArrayPlaced(levels: seq<nat>, awaited: bool, items: List<Json>, compact: bool, out: string)
    ensures out + Placed(levels, awaited, compact, ['[']) + Items(items, |levels| + 1, 0, compact)
            + (if items.Cons? then Break(|levels|, compact, "") else "") + [']']
         == out + Placed(levels, awaited, compact, Text(Array(items), |levels|, compact, ""))
  {
    hide Placed, Items, Break, Text;
    var b, c := Items(items, |levels| + 1, 0, compact), if items.Cons? then Break(|levels|, compact, "") else "";
    ArrayText(items, |levels|, compact);
    PlacedAppend(levels, awaited, compact, ['['] + b + c, [']']);
    PlacedAppend(levels, awaited, compact, ['['] + b, c);
    PlacedAppend(levels, awaited, compact, ['['], b);
  }

  lemma ObjectPlaced(levels: seq<nat>, awaited: bool, members: List<Member>, compact: bool, out: string)
    ensures out + Placed(levels, awaited, compact, ['{']) + Members(members, |levels| + 1, 0, compact)
            + (if members.Cons? then Break(|levels|, compact, "") else "") + ['}']
         == out + Placed(levels, awaited, compact, Text(Object(members), |levels|, compact, ""))
  {
    hide Placed, Members, Break, Text;
    var b, c := Members(members, |levels| + 1, 0, compact), if members.Cons? then Break(|levels|, compact, "") else "";
    ObjectText(members, |levels|, compact);
    PlacedAppend(levels, awaited, compact, ['{'] + b + c, ['}']);
    PlacedAppend(levels, awaited, compact, ['{'] + b, c);
    PlacedAppend(levels, awaited, compact, ['{'], b);
  }

  lemma ScalarText(v: Json, level: nat, compact: bool)
    requires !v.Array? && !v.Object?
    ensures Text(v, level, compact, "")
         == match v
            case Null => "null"
            case Bool(b) => if b then "true" else "false"
            case Number(token) => token
            case String(s) => StringText(s, "")
            case _ => ""
  {
  }

  lemma {:induction false} LengthIsPositive<T>(l: List<T>)
    ensures Length(l) > 0 <==> l.Cons?
  {
  }

  // Issues the calls that describe v.
  method Emit(w: Writer, v: Json)
    requires w.Valid() && w.depth + Nesting(v) <= MAX_DEPTH
    modifies w`out, w`depth, w`expectValue, w.counts
    ensures w.Valid() && !w.expectValue && w.Levels() == After(old(w.Levels()), old(w.expectValue))
    ensures w.out == old(w.out) + Placed(old(w.Levels()), old(w.expectValue), w.compact, Text(v, old(w.depth), w.compact, ""))
    decreases v, 1
  {
    hide Lead, Break, Placed, Text, StringText, Count, Counted, After;
    match v {
      case Null =>
        ScalarText(v, w.depth, w.compact);
        w.Scalar("null");
      case Bool(b) =>
        ScalarText(v, w.depth, w.compact);
        w.Scalar(if b then "true" else "false");
      case Number(token) =>
        ScalarText(v, w.depth, w.compact);
        w.Scalar(token);
      case String(s) =>
        ScalarText(v, w.depth, w.compact);
        w.StringValue(s);
      case Array(items) => EmitArray(w, v);
      case Object(members) => EmitObject(w, v);
    }
  }

  method EmitArray(w: Writer, v: Json)
    requires v.Array? && w.Valid() && w.depth + Nesting(v) <= MAX_DEPTH
    modifies w`out, w`depth, w`expectValue, w.counts
    ensures w.Valid() && !w.expectValue && w.Levels() == After(old(w.Levels()), old(w.expectValue))
    ensures w.out == old(w.out) + Placed(old(w.Levels()), old(w.expectValue), w.compact, Text(v, old(w.depth), w.compact, ""))
    decreases v, 0
  {
    hide Lead, Break, Placed, Text, Items, Count, Counted, After, ItemsText, ItemsNesting;
    ghost var levels := After(w.Levels(), w.expectValue);
    ArrayPlaced(w.Levels(), w.expectValue, v.items, w.compact, w.out);
    w.Begin('[');
    EmitItems(w, v.items);
    OpenedAndClosed(levels, Length(v.items));
    LengthIsPositive(v.items);
    w.End(']');
  }

  method EmitObject(w: Writer, v: Json)
    requires v.Object? && w.Valid() && w.depth + Nesting(v) <= MAX_DEPTH
    modifies w`out, w`depth, w`expectValue, w.counts
    ensures w.Valid() && !w.expectValue && w.Levels() == After(old(w.Levels()), old(w.expectValue))
    ensures w.out == old(w.out) + Placed(old(w.Levels()), old(w.expectValue), w.compact, Text(v, old(w.depth), w.compact, ""))
    decreases v, 0
  {
    hide Lead, Break, Placed, Text, Members, Count, Counted, After, MembersText, MembersNesting;
    ghost var levels := After(w.Levels(), w.expectValue);
    ObjectPlaced(w.Levels(), w.expectValue, v.members, w.compact, w.out);
    w.Begin('{');
    EmitMembers(w, v.members);
    OpenedAndClosed(levels, Length(v.members));
    LengthIsPositive(v.members);
    w.End('}');
  }

  method EmitItems(w: Writer, items: List<Json>)
    requires w.Valid() && 0 < w.depth && w.depth + ItemsNesting(items) <= MAX_DEPTH && !w.expectValue
    modifies w`out, w`depth, w`expectValue, w.counts
    ensures w.Valid() && !w.expectValue && w.Levels() == Counted(old(w.Levels()), Length(items))
    ensures w.out == old(w.out) + Items(items, old(w.depth), Count(old(w.Levels())), w.compact)
    decreases items, 2
  {
    hide Count, Counted, Lead, Text, ItemsText;
    ghost var levels, out := w.Levels(), w.out;
    if items.Nil? {
      CountedTwice(levels, 0, 0);
    } else {
      hide Items;
      CountedTwice(levels, 1, Length(items.tail));
      NextItem(items, w.depth, Count(levels), w.compact);
      Emit(w, items.head);
      EmitItems(w, items.tail);
      assert w.out == out + (Lead(|levels|, Count(levels), w.compact, Text(items.head, |levels|, w.compact, ""))
                             + Items(items.tail, |levels|, Count(levels) + 1, w.compact));
    }
  }

  method EmitMembers(w: Writer, members: List<Member>)
    requires w.Valid() && 0 < w.depth && w.depth + MembersNesting(members) <= MAX_DEPTH && !w.expectValue
    modifies w`out, w`depth, w`expectValue, w.counts
    ensures w.Valid() && !w.expectValue && w.Levels() == Counted(old(w.Levels()), Length(members))
    ensures w.out == old(w.out) + Members(members, old(w.depth), Count(old(w.Levels())), w.compact)
    decreases members, 2
  {
    hide Count, Counted, Lead, Text, StringText, Colon, MembersText;
    ghost var levels, out := w.Levels(), w.out;
    if members.Nil? {
      CountedTwice(levels, 0, 0);
    } else {
      hide Members;
      CountedTwice(levels, 1, Length(members.tail));
      NextMember(members, w.depth, Count(levels), w.compact);
      w.Key(members.head.key);
      Emit(w, members.head.value);
      EmitMembers(w, members.tail);
      assert w.out == out + (Lead(|levels|, Count(levels), w.compact, StringText(members.head.key, Colon(w.compact, "")))
                             + Text(members.head.value, |levels|, w.compact, "")
                             + Members(members.tail, |levels|, Count(levels) + 1, w.compact));
    }
  }

  // A whole document: what is written for a value of up to 32 levels reads back
  // as that value, in either mode.
  method WriteDocument(v: Json, compact: bool) returns (out: string)
    requires Nesting(v) <= MAX_DEPTH && Sound(v)
    ensures out == Text(v, 0, compact, "\n") && Read(out) == Some(v)
  {
    hide Text, Read, Sound;
    var w := new Writer(compact);
    Emit(w, v);
    TextAppend(v, 0, compact, "", "\n");
    assert "" + "\n" == "\n" && w.Levels() == [];
    out := w.out + "\n";
    ReadsDocument(v, compact);
  }

  lemma {:induction false} SpacesGrow(n: nat)
    ensures Spaces(n + 1, "") == Spaces(n, "") + [' ']
  {
    if n > 0 {
      SpacesGrow(n - 1);
    }
  }
}
