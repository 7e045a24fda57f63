// How the pretty JSON of src/output/json.c is laid out: one item or member a line,
// two spaces a level.

module JsonLayout {
  import opened JsonText
  import opened Strings

  predicate Closes(c: char) {
    c == ']' || c == '}'
  }

  function Blanks(s: string): (k: nat)
    ensures k <= |s|
  {
    if s != "" && s[0] == ' ' then 1 + Blanks(s[1..]) else 0
  }

  // Outside strings a line breaks after every comma, after every bracket that
  // opens something and before the bracket that closes it, and nowhere else; the
  // next line starts with two spaces for every bracket still open.
  predicate Laid(s: string, at: Place, depth: nat)
    decreases |s|, 0
  {
    if s == "" then true
    else
      var c, t := s[0], s[1..];
      match at
      case Inside => Laid(t, if c == '"' then Outside else if c == '\\' then Escaped else Inside, depth)
      case Escaped => Laid(t, Inside, depth)
      case Outside =>
        if c == '"' then Laid(t, Inside, depth)
        else if (c == '[' || c == '{') && t != "" && Closes(t[0]) then Laid(t[1..], Outside, depth)
        else if c == '[' || c == '{' then t != "" && t[0] == '\n' && LaidLine(t[1..], depth + 1)
        else if c == ',' then t != "" && t[0] == '\n' && LaidLine(t[1..], depth)
        else if c == '\n' then t == "" || LaidClosing(t, depth)
        else !Closes(c) && Laid(t, Outside, depth)
  }

  // A line that goes on with an item.
  predicate LaidLine(s: string, depth: nat)
    decreases |s|, 1
  {
    var k := Blanks(s);
    k == 2 * depth && k < |s| && !Closes(s[k]) && s[k] != '\n' && Laid(s[k..], Outside, depth)
  }

  // A line that starts with the bracket that ends the level.
  predicate LaidClosing(s: string, depth: nat)
    decreases |s|, 1
  {
    var k := Blanks(s);
    depth > 0 && k == 2 * (depth - 1) && k < |s| && Closes(s[k]) && Laid(s[k + 1..], Outside, depth - 1)
  }

  lemma {:induction false} BlanksOf(n: nat, rest: string)
    requires rest != "" && rest[0] != ' '
    ensures Blanks(Spaces(n, rest)) == n && Spaces(n, rest)[n..] == rest
  {
    if n > 0 {
      Front(' ', Spaces(n - 1, rest));
      BlanksOf(n - 1, rest);
      assert Spaces(n, rest)[n..] == Spaces(n - 1, rest)[n - 1..];
    }
  }

  lemma LineIsLaid(depth: nat, rest: string)
    requires Opens(rest) && Laid(rest, Outside, depth)
    ensures LaidLine(Spaces(2 * depth, rest), depth)
  {
    BlanksOf(2 * depth, rest);
  }

  lemma ClosingIsLaid(depth: nat, c: char, rest: string)
    requires Closes(c) && Laid(rest, Outside, depth)
    ensures LaidClosing(Spaces(2 * depth, [c] + rest), depth + 1)
  {
    var line := [c] + rest;
    BlanksOf(2 * depth, line);
    var s := Spaces(2 * depth, line);
    assert s[2 * depth..][0] == c && s[2 * depth + 1..] == s[2 * depth..][1..] == rest;
  }

  // ---- strings ----

  lemma {:induction false} InnerIsLaid(a: string, rest: string, depth: nat)
    requires forall i :: 0 <= i < |a| ==> a[i] != '"' && a[i] != '\\'
    ensures Laid(a + rest, Inside, depth) == Laid(rest, Inside, depth)
  {
    if a == "" {
      assert a + rest == rest;
    } else {
      assert (a + rest)[1..] == a[1..] + rest;
      InnerIsLaid(a[1..], rest, depth);
    }
  }

  lemma PairIsLaid(c: char, rest: string, depth: nat)
    ensures Laid(['\\', c] + rest, Inside, depth) == Laid(rest, Inside, depth)
  {
    assert (['\\', c] + rest)[1..] == [c] + rest;
    Front(c, rest);
  }

  lemma CharIsLaid(c: char, rest: string, depth: nat)
    ensures Laid(EscapeChar(c) + rest, Inside, depth) == Laid(rest, Inside, depth)
  {
    var e := EscapeChar(c);
    match ShortEscape(c) {
      case Some(l) => PairIsLaid(l, rest, depth);
      case None =>
        if c < ' ' {
          var hex := e[2..];
          assert e + rest == ['\\', 'u'] + (hex + rest);
          PairIsLaid('u', hex + rest, depth);
          InnerIsLaid(hex, rest, depth);
        } else {
          Front(c, rest);
        }
    }
  }

  lemma {:induction false} QuotedIsLaid(s: string, rest: string, depth: nat)
    ensures Laid(Quoted(s, rest), Inside, depth) == Laid(rest, Outside, depth)
  {
    if s == "" {
      Front('"', rest);
    } else {
      hide EscapeChar, Laid;
      CharIsLaid(s[0], Quoted(s[1..], rest), depth);
      QuotedIsLaid(s[1..], rest, depth);
    }
  }

  lemma StringIsLaid(s: string, rest: string, depth: nat)
    ensures Laid(StringText(s, rest), Outside, depth) == Laid(rest, Outside, depth)
  {
    Front('"', Quoted(s, rest));
    QuotedIsLaid(s, rest, depth);
  }

  // ---- values ----

  predicate Inert(c: char) {
    c !in {'"', '[', ']', '{', '}', ',', '\n'}
  }

  lemma {:induction false} InertIsLaid(a: string, rest: string, depth: nat)
    requires forall i :: 0 <= i < |a| ==> Inert(a[i])
    ensures Laid(a + rest, Outside, depth) == Laid(rest, Outside, depth)
  {
    if a == "" {
      assert a + rest == rest;
    } else {
      assert (a + rest)[1..] == a[1..] + rest;
      InertIsLaid(a[1..], rest, depth);
    }
  }

  lemma ScalarIsLaid(v: Json, level: nat, rest: string)
    requires Sound(v) && !v.Array? && !v.Object? && Laid(rest, Outside, level)
    ensures Laid(Text(v, level, false, rest), Outside, level)
  {
    hide Laid, StringText;
    match v {
      case Null => InertIsLaid("null", rest, level);
      case Bool(b) => InertIsLaid(if b then "true" else "false", rest, level);
      case Number(token) =>
        NumberCharsOf(token);
        InertIsLaid(token, rest, level);
      case String(s) => StringIsLaid(s, rest, level);
    }
  }

  lemma CommaIsLaid(level: nat, text: string)
    requires Opens(text) && Laid(text, Outside, level)
    ensures Laid([','] + Break(level, false, text), Outside, level)
  {
    LineIsLaid(level, text);
    Front(',', Break(level, false, text));
    Front('\n', Spaces(2 * level, text));
  }

  lemma BracketIsLaid(c: char, level: nat, text: string)
    requires (c == '[' || c == '{') && Opens(text) && Laid(text, Outside, level + 1)
    ensures Laid([c] + Break(level + 1, false, text), Outside, level)
  {
    LineIsLaid(level + 1, text);
    Front(c, Break(level + 1, false, text));
    Front('\n', Spaces(2 * (level + 1), text));
  }

  lemma EndIsLaid(level: nat, c: char, rest: string)
    requires Closes(c) && Laid(rest, Outside, level)
    ensures Laid(Break(level, false, [c] + rest), Outside, level + 1)
  {
    ClosingIsLaid(level, c, rest);
    Front('\n', Spaces(2 * level, [c] + rest));
    SpacesAreNot(2 * level, [c] + rest);
  }

  lemma SpacesAreNot(n: nat, rest: string)
    requires rest != ""
    ensures Spaces(n, rest) != ""
  {
  }

  lemma EmptyIsLaid(a: char, b: char, rest: string, level: nat)
    requires (a == '[' || a == '{') && Closes(b) && Laid(rest, Outside, level)
    ensures Laid([a, b] + rest, Outside, level)
  {
    assert ([a, b] + rest)[1..] == [b] + rest;
    Front(b, rest);
  }

  lemma {:induction false} TextIsLaid(v: Json, level: nat, rest: string)
    requires Sound(v) && Laid(rest, Outside, level)
    ensures Laid(Text(v, level, false, rest), Outside, level)
    decreases v, 1
  {
    hide Laid, Break;
    match v {
      case Array(items) =>
        if items.Nil? {
          EmptyIsLaid('[', ']', rest, level);
        } else {
          var after := Break(level, false, [']'] + rest);
          EndIsLaid(level, ']', rest);
          var text := FirstItem(items, level + 1, after);
          BracketIsLaid('[', level, text);
        }
      case Object(members) =>
        if members.Nil? {
          EmptyIsLaid('{', '}', rest, level);
        } else {
          var after := Break(level, false, ['}'] + rest);
          EndIsLaid(level, '}', rest);
          var text := FirstMember(members, level + 1, after);
          BracketIsLaid('{', level, text);
        }
      case _ => ScalarIsLaid(v, level, rest);
    }
  }

  // The text of items after their first line break.
  lemma {:induction false} FirstItem(items: List<Json>, level: nat, rest: string) returns (text: string)
    requires items.Cons? && SoundItems(items) && Laid(rest, Outside, level)
    ensures ItemsText(items, level, false, rest) == Break(level, false, text)
    ensures Opens(text) && Laid(text, Outside, level)
    decreases items, 0
  {
    hide Laid, Break, Text;
    var more := rest;
    if items.tail.Cons? {
      var next := FirstItem(items.tail, level, rest);
      CommaIsLaid(level, next);
      more := [','] + Break(level, false, next);
    }
    text := Text(items.head, level, false, more);
    TextIsLaid(items.head, level, more);
    TextOpens(items.head, level, false, more);
  }

  lemma {:induction false} FirstMember(members: List<Member>, level: nat, rest: string) returns (text: string)
    requires members.Cons? && SoundMembers(members) && Laid(rest, Outside, level)
    ensures MembersText(members, level, false, rest) == Break(level, false, text)
    ensures Opens(text) && Laid(text, Outside, level)
    decreases members, 0
  {
    hide Laid, Break, Text, Quoted;
    var Member(key, value) := members.head;
    var more := rest;
    if members.tail.Cons? {
      var next := FirstMember(members.tail, level, rest);
      CommaIsLaid(level, next);
      more := [','] + Break(level, false, next);
    }
    var body := Text(value, level, false, more);
    TextIsLaid(value, level, more);
    text := StringText(key, Colon(false, body));
    assert Colon(false, body) == ": " + body;
    InertIsLaid(": ", body, level);
    StringIsLaid(key, Colon(false, body), level);
  }

  // Every pretty document is laid out so.
  lemma PrettyIsLaidOut(v: Json)
    requires Sound(v)
    ensures Laid(Text(v, 0, false, "\n"), Outside, 0)
  {
    assert Laid("\n", Outside, 0);
    TextIsLaid(v, 0, "\n");
  }
}
