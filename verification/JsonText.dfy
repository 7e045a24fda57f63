// JSON values, the text the writer gives them, and a reader for it after
// sections 2 to 7 of RFC 8259.

module JsonText {
  import opened Strings

  datatype List<+T> = Nil | Cons(head: T, tail: List<T>)

  // Numbers are kept as their tokens.
  datatype Json =
    | Null
    | Bool(b: bool)
    | Number(token: string)
    | String(s: string)
    | Array(items: List<Json>)
    | Object(members: List<Member>)

  datatype Member = Member(key: string, value: Json)

  // ---- characters ----

  function HexValue(c: char): Option<nat> {
    if '0' <= c <= '9' then Some(c as nat - '0' as nat)
    else if 'a' <= c <= 'f' then Some(c as nat - 'a' as nat + 10)
    else if 'A' <= c <= 'F' then Some(c as nat - 'A' as nat + 10)
    else None
  }

  // The letter of a two-character escape.
  function ShortEscape(c: char): Option<char> {
    match c
    case '"' => Some('"')
    case '\\' => Some('\\')
    case '\U{8}' => Some('b')
    case '\U{C}' => Some('f')
    case '\n' => Some('n')
    case '\r' => Some('r')
    case '\t' => Some('t')
    case _ => None
  }

  function ShortMeaning(c: char): Option<char> {
    match c
    case '"' => Some('"')
    case '\\' => Some('\\')
    case '/' => Some('/')
    case 'b' => Some('\U{8}')
    case 'f' => Some('\U{C}')
    case 'n' => Some('\n')
    case 'r' => Some('\r')
    case 't' => Some('\t')
    case _ => None
  }

  function EscapeChar(c: char): (r: string)
    ensures r != ""
  {
    match ShortEscape(c)
    case Some(e) => ['\\', e]
    case None =>
      if c < ' ' then ['\\', 'u', '0', '0', HexDigit(c as nat / 16), HexDigit(c as nat % 16)]
      else [c]
  }

  predicate Whitespace(c: char) {
    c == ' ' || c == '\t' || c == '\n' || c == '\r'
  }

  predicate NumberChar(c: char) {
    Digit(c) || c == '-' || c == '+' || c == '.' || c == 'e' || c == 'E'
  }

  // ---- number tokens: section 6 ----

  function LeadingDigits(s: string): (n: nat)
    ensures n <= |s| && forall i :: 0 <= i < n ==> Digit(s[i])
  {
    if s == "" || !Digit(s[0]) then 0 else 1 + LeadingDigits(s[1..])
  }

  predicate IsNumber(t: string) {
    IsUnsigned(if t != "" && t[0] == '-' then t[1..] else t)
  }

  predicate IsUnsigned(u: string) {
    var n := LeadingDigits(u);
    n > 0 && (n == 1 || u[0] != '0') && IsFraction(u[n..])
  }

  predicate IsFraction(u: string) {
    if u != "" && u[0] == '.' then
      var n := LeadingDigits(u[1..]);
      n > 0 && IsExponent(u[1 + n..])
    else IsExponent(u)
  }

  predicate IsExponent(u: string) {
    u == "" || ((u[0] == 'e' || u[0] == 'E') && IsDigits(if u[1..] != "" && (u[1] == '+' || u[1] == '-') then u[2..] else u[1..]))
  }

  predicate IsDigits(u: string) {
    u != "" && LeadingDigits(u) == |u|
  }

  predicate NumberChars(t: string) {
    forall i :: 0 <= i < |t| ==> NumberChar(t[i])
  }

  lemma NumberCharsOf(t: string)
    requires IsNumber(t)
    ensures NumberChars(t) && t != "" && (t[0] == '-' || Digit(t[0]))
  {
    hide IsUnsigned;
    if t != "" && t[0] == '-' {
      UnsignedChars(t[1..]);
      assert t == ['-'] + t[1..];
    } else {
      UnsignedChars(t);
    }
  }

  lemma UnsignedChars(u: string)
    requires IsUnsigned(u)
    ensures NumberChars(u) && u != "" && Digit(u[0])
  {
    hide IsFraction;
    var n := LeadingDigits(u);
    FractionChars(u[n..]);
    JoinChars(u[..n], u[n..], u);
  }

  lemma JoinChars(a: string, b: string, t: string)
    requires NumberChars(a) && NumberChars(b) && t == a + b
    ensures NumberChars(t)
  {
  }

  lemma FractionChars(u: string)
    requires IsFraction(u)
    ensures NumberChars(u)
  {
    if u != "" && u[0] == '.' {
      var n := LeadingDigits(u[1..]);
      ExponentChars(u[1 + n..]);
      assert u == ['.'] + u[1..][..n] + u[1 + n..];
    } else {
      ExponentChars(u);
    }
  }

  lemma ExponentChars(u: string)
    requires IsExponent(u)
    ensures NumberChars(u)
  {
    if u != "" {
      var w := if u[1..] != "" && (u[1] == '+' || u[1] == '-') then u[2..] else u[1..];
      assert forall i :: 0 <= i < |w| ==> Digit(w[i]);
      assert u == u[..|u| - |w|] + w;
    }
  }

  // ---- the writer's text ----

  // Every text function takes what follows, so that reading it back peels
  // characters off the front.

  function Spaces(n: nat, rest: string): string {
    if n == 0 then rest else [' '] + Spaces(n - 1, rest)
  }

  function Break(level: nat, compact: bool, rest: string): string {
    if compact then rest else ['\n'] + Spaces(level * 2, rest)
  }

  function Quoted(s: string, rest: string): string {
    if s == "" then ['"'] + rest else EscapeChar(s[0]) + Quoted(s[1..], rest)
  }

  function StringText(s: string, rest: string): string {
    ['"'] + Quoted(s, rest)
  }

  function Colon(compact: bool, rest: string): string {
    if compact then [':'] + rest else [':', ' '] + rest
  }

  function Text(v: Json, level: nat, compact: bool, rest: string): string
    decreases v
  {
    match v
    case Null => "null" + rest
    case Bool(b) => (if b then "true" else "false") + rest
    case Number(token) => token + rest
    case String(s) => StringText(s, rest)
    case Array(Nil) => ['[', ']'] + rest
    case Array(items) => ['['] + ItemsText(items, level + 1, compact, Break(level, compact, [']'] + rest))
    case Object(Nil) => ['{', '}'] + rest
    case Object(members) => ['{'] + MembersText(members, level + 1, compact, Break(level, compact, ['}'] + rest))
  }

  function ItemsText(items: List<Json>, level: nat, compact: bool, rest: string): string
    requires items.Cons?
    decreases items
  {
    Break(level, compact, Text(items.head, level, compact,
          if items.tail.Nil? then rest else [','] + ItemsText(items.tail, level, compact, rest)))
  }

  function MembersText(members: List<Member>, level: nat, compact: bool, rest: string): string
    requires members.Cons?
    decreases members
  {
    Break(level, compact, StringText(members.head.key, Colon(compact, Text(members.head.value, level, compact,
          if members.tail.Nil? then rest else [','] + MembersText(members.tail, level, compact, rest)))))
  }

  // Every number in v is one.
  predicate Sound(v: Json)
    decreases v
  {
    match v
    case Number(token) => IsNumber(token)
    case Array(items) => SoundItems(items)
    case Object(members) => SoundMembers(members)
    case _ => true
  }

  predicate SoundItems(items: List<Json>)
    decreases items
  {
    items.Cons? ==> Sound(items.head) && SoundItems(items.tail)
  }

  predicate SoundMembers(members: List<Member>)
    decreases members
  {
    members.Cons? ==> Sound(members.head.value) && SoundMembers(members.tail)
  }

  // ---- the reader ----

  function Skip(s: string): (r: string)
    ensures |r| <= |s|
  {
    if s != "" && Whitespace(s[0]) then Skip(s[1..]) else s
  }

  // The rest of a string literal after its opening quote.
  function ReadString(s: string): (r: Option<(string, string)>)
    ensures r.Some? ==> |r.value.1| < |s|
  {
    if s == "" || s[0] < ' ' then None
    else if s[0] == '"' then Some(("", s[1..]))
    else
      match (if s[0] == '\\' then ReadEscape(s[1..]) else Some((s[0], s[1..])))
      case None => None
      case Some((c, t)) =>
        match ReadString(t)
        case None => None
        case Some((cs, u)) => Some(([c] + cs, u))
  }

  // An escape after its backslash. Four-digit escapes are read up to 007f, where
  // a character is one byte of UTF-8.
  function ReadEscape(s: string): (r: Option<(char, string)>)
    ensures r.Some? ==> |r.value.1| < |s|
  {
    if s == "" then None
    else if s[0] == 'u' then
      if |s| < 5 || s[1] != '0' || s[2] != '0' then None
      else
        match (HexValue(s[3]), HexValue(s[4]))
        case (Some(a), Some(b)) => if a < 8 && b < 16 then Some(((16 * a + b) as char, s[5..])) else None
        case _ => None
    else
      match ShortMeaning(s[0])
      case Some(c) => Some((c, s[1..]))
      case None => None
  }

  function NumberRun(s: string): (n: nat)
    ensures n <= |s|
  {
    if s == "" || !NumberChar(s[0]) then 0 else 1 + NumberRun(s[1..])
  }

  function ReadValue(s: string): (r: Option<(Json, string)>)
    ensures r.Some? ==> |r.value.1| < |s|
    decreases |s|, 0
  {
    var t := Skip(s);
    if t == "" then None
    else if t[0] == '[' then
      var u := Skip(t[1..]);
      if u != "" && u[0] == ']' then Some((Array(Nil), u[1..]))
      else
        match ReadItems(t[1..])
        case None => None
        case Some((items, rest)) => Some((Array(items), rest))
    else if t[0] == '{' then
      var u := Skip(t[1..]);
      if u != "" && u[0] == '}' then Some((Object(Nil), u[1..]))
      else
        match ReadMembers(t[1..])
        case None => None
        case Some((members, rest)) => Some((Object(members), rest))
    else ReadScalar(t)
  }

  function ReadScalar(t: string): (r: Option<(Json, string)>)
    requires t != ""
    ensures r.Some? ==> |r.value.1| < |t|
  {
    if t[0] == '"' then
      match ReadString(t[1..])
      case None => None
      case Some((cs, rest)) => Some((String(cs), rest))
    else if "null" <= t then Some((Null, t[4..]))
    else if "true" <= t then Some((Bool(true), t[4..]))
    else if "false" <= t then Some((Bool(false), t[5..]))
    else
      var n := NumberRun(t);
      if n > 0 && IsNumber(t[..n]) then Some((Number(t[..n]), t[n..])) else None
  }

  // One item or more, and the bracket after them.
  function ReadItems(s: string): (r: Option<(List<Json>, string)>)
    ensures r.Some? ==> |r.value.1| < |s|
    decreases |s|, 1
  {
    match ReadValue(s)
    case None => None
    case Some((v, t)) =>
      var u := Skip(t);
      if u == "" then None
      else if u[0] == ']' then Some((Cons(v, Nil), u[1..]))
      else if u[0] != ',' then None
      else
        match ReadItems(u[1..])
        case None => None
        case Some((items, rest)) => Some((Cons(v, items), rest))
  }

  function ReadMembers(s: string): (r: Option<(List<Member>, string)>)
    ensures r.Some? ==> |r.value.1| < |s|
    decreases |s|, 1
  {
    match ReadMember(s)
    case None => None
    case Some((k, a)) =>
      match ReadValue(a)
      case None => None
      case Some((v, t)) =>
        var u := Skip(t);
        if u == "" then None
        else if u[0] == '}' then Some((Cons(Member(k, v), Nil), u[1..]))
        else if u[0] != ',' then None
        else
          match ReadMembers(u[1..])
          case None => None
          case Some((members, rest)) => Some((Cons(Member(k, v), members), rest))
  }

  // A member's key and colon.
  function ReadMember(s: string): (r: Option<(string, string)>)
    ensures r.Some? ==> |r.value.1| < |s|
  {
    var t := Skip(s);
    if t == "" || t[0] != '"' then None
    else
      match ReadString(t[1..])
      case None => None
      case Some((k, a)) =>
        var b := Skip(a);
        if b == "" || b[0] != ':' then None else Some((k, b[1..]))
  }

  // A whole document.
  function Read(s: string): Option<Json> {
    match ReadValue(s)
    case Some((v, rest)) => if Skip(rest) == "" then Some(v) else None
    case None => None
  }

  // ---- reading the writer's text back ----

  lemma Front(c: char, x: string)
    ensures ([c] + x)[0] == c && ([c] + x)[1..] == x
  {
  }

  lemma {:induction false} SkipSpaces(n: nat, rest: string)
    ensures Skip(Spaces(n, rest)) == Skip(rest)
  {
    if n > 0 {
      Front(' ', Spaces(n - 1, rest));
      SkipSpaces(n - 1, rest);
    }
  }

  lemma SkipBreak(level: nat, compact: bool, rest: string)
    ensures Skip(Break(level, compact, rest)) == Skip(rest)
  {
    if !compact {
      Front('\n', Spaces(level * 2, rest));
      SkipSpaces(level * 2, rest);
    }
  }

  // No number goes on into rest.
  predicate Ends(rest: string) {
    rest == "" || !NumberChar(rest[0])
  }

  lemma BreakEnds(level: nat, compact: bool, rest: string)
    requires Ends(rest)
    ensures Ends(Break(level, compact, rest))
  {
  }

  lemma HexRoundTrip(d: nat)
    requires d < 16
    ensures HexValue(HexDigit(d)) == Some(d)
  {
  }

  // One written character is read as itself.
  lemma ReadsEscape(c: char, x: string)
    requires ShortEscape(c).Some? || c < ' '
    ensures EscapeChar(c)[0] == '\\' && ReadEscape(EscapeChar(c)[1..] + x) == Some((c, x))
  {
    var e := EscapeChar(c)[1..] + x;
    match ShortEscape(c) {
      case Some(l) =>
        assert ShortMeaning(l) == Some(c);
        assert e == [l] + x;
      case None =>
        HexRoundTrip(c as nat / 16);
        HexRoundTrip(c as nat % 16);
        assert e[5..] == x;
    }
  }

  lemma ReadsOneChar(c: char, x: string, cs: string, rest: string)
    requires ReadString(x) == Some((cs, rest))
    ensures ReadString(EscapeChar(c) + x) == Some(([c] + cs, rest))
  {
    if ShortEscape(c).Some? || c < ' ' {
      ReadsEscape(c, x);
      hide EscapeChar, ReadEscape;
      assert (EscapeChar(c) + x)[1..] == EscapeChar(c)[1..] + x;
    } else {
      Front(c, x);
    }
  }

  lemma {:induction false} ReadsQuoted(s: string, rest: string)
    ensures ReadString(Quoted(s, rest)) == Some((s, rest))
  {
    if s == "" {
      Front('"', rest);
    } else {
      hide EscapeChar, ReadString;
      ReadsQuoted(s[1..], rest);
      ReadsOneChar(s[0], Quoted(s[1..], rest), s[1..], rest);
      assert [s[0]] + s[1..] == s;
    }
  }

  lemma ReadsString(s: string, rest: string)
    ensures ReadScalar(StringText(s, rest)) == Some((String(s), rest))
  {
    Front('"', Quoted(s, rest));
    ReadsQuoted(s, rest);
  }

  lemma {:induction false} RunOf(token: string, rest: string)
    requires NumberChars(token) && Ends(rest)
    ensures NumberRun(token + rest) == |token|
  {
    if token == "" {
      assert token + rest == rest;
    } else {
      assert (token + rest)[1..] == token[1..] + rest;
      RunOf(token[1..], rest);
    }
  }

  lemma ReadsNumber(token: string, rest: string)
    requires IsNumber(token) && Ends(rest)
    ensures ReadScalar(token + rest) == Some((Number(token), rest))
  {
    NumberCharsOf(token);
    RunOf(token, rest);
    hide IsNumber;
    var t := token + rest;
    assert t[..|token|] == token && t[|token|..] == rest;
    assert t[0] != 'n' && t[0] != 't' && t[0] != 'f' && t[0] != '"';
  }

  // A value's text starts with no white space and no punctuation of its context.
  predicate Opens(s: string) {
    s != "" && !Whitespace(s[0]) && s[0] != ']' && s[0] != '}' && s[0] != ','
  }

  lemma TextOpens(v: Json, level: nat, compact: bool, rest: string)
    requires Sound(v)
    ensures Opens(Text(v, level, compact, rest))
    ensures !v.Array? ==> Text(v, level, compact, rest)[0] != '['
    ensures !v.Object? ==> Text(v, level, compact, rest)[0] != '{'
  {
    if v.Number? {
      NumberCharsOf(v.token);
    }
  }

  lemma SameAfterSkip(a: string, b: string)
    requires Skip(a) == Skip(b)
    ensures ReadValue(a) == ReadValue(b) && ReadMember(a) == ReadMember(b)
  {
  }

  lemma OpensStays(s: string)
    requires Opens(s)
    ensures Skip(s) == s
  {
  }

  lemma ReadsScalar(v: Json, level: nat, compact: bool, rest: string)
    requires Sound(v) && !v.Array? && !v.Object? && Ends(rest)
    ensures ReadScalar(Text(v, level, compact, rest)) == Some((v, rest))
  {
    match v {
      case Null => assert ("null" + rest)[4..] == rest;
      case Bool(b) =>
        assert ("true" + rest)[4..] == rest && ("false" + rest)[5..] == rest;
      case Number(token) => ReadsNumber(token, rest);
      case String(s) => ReadsString(s, rest);
    }
  }

  lemma ReadsEmpty(open: char, close: char, rest: string)
    requires (open == '[' && close == ']') || (open == '{' && close == '}')
    ensures ReadValue([open, close] + rest) == Some((if open == '[' then Array(Nil) else Object(Nil), rest))
  {
    var t := [open, close] + rest;
    assert t[1..] == [close] + rest;
    Front(close, rest);
  }

  lemma ReadsArray(s: string, items: List<Json>, rest: string)
    requires Opens(Skip(s)) && ReadItems(s) == Some((items, rest))
    ensures ReadValue(['['] + s) == Some((Array(items), rest))
  {
    Front('[', s);
  }

  lemma ReadsObject(s: string, members: List<Member>, rest: string)
    requires Opens(Skip(s)) && ReadMembers(s) == Some((members, rest))
    ensures ReadValue(['{'] + s) == Some((Object(members), rest))
  {
    Front('{', s);
  }

  lemma {:induction false} ReadsValue(v: Json, level: nat, compact: bool, rest: string)
    requires Sound(v) && Ends(rest)
    ensures ReadValue(Text(v, level, compact, rest)) == Some((v, rest))
    decreases v
  {
    match v {
      case Array(items) =>
        if items.Nil? {
          ReadsEmpty('[', ']', rest);
        } else {
          var after := Break(level, compact, [']'] + rest);
          ClosesItems(level, compact, ']', rest);
          ReadsItems(items, level + 1, compact, after, rest);
          ReadsArray(ItemsText(items, level + 1, compact, after), items, rest);
        }
      case Object(members) =>
        if members.Nil? {
          ReadsEmpty('{', '}', rest);
        } else {
          var after := Break(level, compact, ['}'] + rest);
          ClosesItems(level, compact, '}', rest);
          ReadsMembers(members, level + 1, compact, after, rest);
          ReadsObject(MembersText(members, level + 1, compact, after), members, rest);
        }
      case _ =>
        ReadsScalar(v, level, compact, rest);
        TextOpens(v, level, compact, rest);
    }
  }

  lemma ClosesItems(level: nat, compact: bool, close: char, rest: string)
    requires close == ']' || close == '}'
    ensures Ends(Break(level, compact, [close] + rest))
    ensures Skip(Break(level, compact, [close] + rest)) == [close] + rest
  {
    SkipBreak(level, compact, [close] + rest);
    BreakEnds(level, compact, [close] + rest);
  }

  lemma {:induction false} ReadsItems(items: List<Json>, level: nat, compact: bool, rest: string, after: string)
    requires items.Cons? && SoundItems(items) && Ends(rest) && Skip(rest) == [']'] + after
    ensures ReadItems(ItemsText(items, level, compact, rest)) == Some((items, after))
    ensures Opens(Skip(ItemsText(items, level, compact, rest)))
    decreases items
  {
    var more := if items.tail.Nil? then rest else [','] + ItemsText(items.tail, level, compact, rest);
    var text := Text(items.head, level, compact, more);
    ReadsValue(items.head, level, compact, more);
    TextOpens(items.head, level, compact, more);
    OpensStays(text);
    SkipBreak(level, compact, text);
    SameAfterSkip(Break(level, compact, text), text);
    if items.tail.Nil? {
      Front(']', after);
    } else {
      Front(',', ItemsText(items.tail, level, compact, rest));
      ReadsItems(items.tail, level, compact, rest, after);
    }
  }

  lemma ReadsMember(key: string, compact: bool, rest: string, text: string)
    requires text == StringText(key, Colon(compact, rest))
    ensures Opens(text) && exists a :: ReadMember(text) == Some((key, a)) && Skip(a) == Skip(rest)
  {
    hide Quoted, ReadString;
    var c := Colon(compact, rest);
    Front('"', Quoted(key, c));
    ReadsQuoted(key, c);
    var a := c[1..];
    assert ReadMember(text) == Some((key, a));
    if compact {
      Front(':', rest);
    } else {
      assert a == [' '] + rest;
      Front(' ', rest);
    }
  }

  // A key, its colon and whatever value text follows, after a line break.
  lemma ReadsKey(key: string, level: nat, compact: bool, text: string, s: string)
    requires s == Break(level, compact, StringText(key, Colon(compact, text)))
    ensures Opens(Skip(s)) && exists a :: ReadMember(s) == Some((key, a)) && ReadValue(a) == ReadValue(text)
  {
    var whole := StringText(key, Colon(compact, text));
    ReadsMember(key, compact, text, whole);
    var a :| ReadMember(whole) == Some((key, a)) && Skip(a) == Skip(text);
    OpensStays(whole);
    SkipBreak(level, compact, whole);
    SameAfterSkip(s, whole);
    SameAfterSkip(a, text);
  }

  lemma LastMember(s: string, k: string, a: string, v: Json, t: string, after: string)
    requires ReadMember(s) == Some((k, a)) && ReadValue(a) == Some((v, t)) && Skip(t) == ['}'] + after
    ensures ReadMembers(s) == Some((Cons(Member(k, v), Nil), after))
  {
    Front('}', after);
  }

  lemma NextMember(s: string, k: string, a: string, v: Json, next: string, ms: List<Member>, after: string)
    requires ReadMember(s) == Some((k, a)) && ReadValue(a) == Some((v, [','] + next))
    requires ReadMembers(next) == Some((ms, after))
    ensures ReadMembers(s) == Some((Cons(Member(k, v), ms), after))
  {
    Front(',', next);
  }

  lemma {:induction false} ReadsMembers(members: List<Member>, level: nat, compact: bool, rest: string, after: string)
    requires members.Cons? && SoundMembers(members) && Ends(rest) && Skip(rest) == ['}'] + after
    ensures ReadMembers(MembersText(members, level, compact, rest)) == Some((members, after))
    ensures Opens(Skip(MembersText(members, level, compact, rest)))
    decreases members
  {
    hide Break, StringText, Colon, Text, ReadMember, ReadValue, ReadMembers;
    var Member(key, value) := members.head;
    var s := MembersText(members, level, compact, rest);
    if members.tail.Nil? {
      var text := Text(value, level, compact, rest);
      ReadsValue(value, level, compact, rest);
      ReadsKey(key, level, compact, text, s);
      var a :| ReadMember(s) == Some((key, a)) && ReadValue(a) == ReadValue(text);
      LastMember(s, key, a, value, rest, after);
    } else {
      var next := MembersText(members.tail, level, compact, rest);
      var text := Text(value, level, compact, [','] + next);
      ReadsValue(value, level, compact, [','] + next);
      ReadsKey(key, level, compact, text, s);
      var a :| ReadMember(s) == Some((key, a)) && ReadValue(a) == ReadValue(text);
      ReadsMembers(members.tail, level, compact, rest, after);
      NextMember(s, key, a, value, next, members.tail, after);
    }
  }

  // A document, compact or not, reads back as the value written.
  lemma ReadsDocument(v: Json, compact: bool)
    requires Sound(v)
    ensures Read(Text(v, 0, compact, "\n")) == Some(v)
  {
    ReadsValue(v, 0, compact, "\n");
  }

  // ---- pretty and compact ----

  datatype Place = Outside | Inside | Escaped

  // The text without white space outside strings.
  function Strip(s: string, at: Place): string {
    if s == "" then ""
    else
      var c := s[0];
      match at
      case Outside =>
        if Whitespace(c) then Strip(s[1..], Outside) else [c] + Strip(s[1..], if c == '"' then Inside else Outside)
      case Inside =>
        [c] + Strip(s[1..], if c == '"' then Outside else if c == '\\' then Escaped else Inside)
      case Escaped => [c] + Strip(s[1..], Inside)
  }

  lemma {:induction false} StripSpaces(n: nat, rest: string)
    ensures Strip(Spaces(n, rest), Outside) == Strip(rest, Outside)
  {
    if n > 0 {
      Front(' ', Spaces(n - 1, rest));
      StripSpaces(n - 1, rest);
    }
  }

  lemma StripBreak(level: nat, compact: bool, rest: string)
    ensures Strip(Break(level, compact, rest), Outside) == Strip(rest, Outside)
  {
    if !compact {
      Front('\n', Spaces(level * 2, rest));
      StripSpaces(level * 2, rest);
    }
  }

  predicate Plain(c: char) {
    !Whitespace(c) && c != '"'
  }

  lemma {:induction false} StripPlain(a: string, rest: string)
    requires forall i :: 0 <= i < |a| ==> Plain(a[i])
    ensures Strip(a + rest, Outside) == a + Strip(rest, Outside)
  {
    if a == "" {
      assert a + rest == rest;
    } else {
      assert (a + rest)[1..] == a[1..] + rest;
      StripPlain(a[1..], rest);
      assert a + Strip(rest, Outside) == [a[0]] + (a[1..] + Strip(rest, Outside));
    }
  }

  lemma {:induction false} StripInner(a: string, rest: string)
    requires forall i :: 0 <= i < |a| ==> a[i] != '"' && a[i] != '\\'
    ensures Strip(a + rest, Inside) == a + Strip(rest, Inside)
  {
    if a == "" {
      assert a + rest == rest;
    } else {
      assert (a + rest)[1..] == a[1..] + rest;
      StripInner(a[1..], rest);
      assert a + Strip(rest, Inside) == [a[0]] + (a[1..] + Strip(rest, Inside));
    }
  }

  lemma StripPair(c: char, rest: string)
    ensures Strip(['\\', c] + rest, Inside) == ['\\', c] + Strip(rest, Inside)
  {
    assert (['\\', c] + rest)[1..] == [c] + rest;
    Front(c, rest);
  }

  lemma StripChar(c: char, rest: string)
    ensures Strip(EscapeChar(c) + rest, Inside) == EscapeChar(c) + Strip(rest, Inside)
  {
    var e := EscapeChar(c);
    match ShortEscape(c) {
      case Some(l) => StripPair(l, rest);
      case None =>
        if c < ' ' {
          var hex := e[2..];
          assert e + rest == ['\\', 'u'] + (hex + rest);
          StripPair('u', hex + rest);
          StripInner(hex, rest);
        } else {
          Front(c, rest);
        }
    }
  }

  lemma {:induction false} StripQuoted(s: string, rest: string)
    ensures Strip(Quoted(s, rest), Inside) == Quoted(s, Strip(rest, Outside))
  {
    if s == "" {
      Front('"', rest);
    } else {
      hide EscapeChar, Strip;
      StripChar(s[0], Quoted(s[1..], rest));
      StripQuoted(s[1..], rest);
    }
  }

  lemma StripString(s: string, rest: string)
    ensures Strip(StringText(s, rest), Outside) == StringText(s, Strip(rest, Outside))
  {
    Front('"', Quoted(s, rest));
    StripQuoted(s, rest);
  }

  lemma StripOne(c: char, rest: string)
    requires Plain(c)
    ensures Strip([c] + rest, Outside) == [c] + Strip(rest, Outside)
  {
    Front(c, rest);
  }

  lemma StripColon(compact: bool, rest: string)
    ensures Strip(Colon(compact, rest), Outside) == [':'] + Strip(rest, Outside)
  {
    if compact {
      StripOne(':', rest);
    } else {
      assert [':', ' '] + rest == [':'] + ([' '] + rest);
      StripOne(':', [' '] + rest);
      Front(' ', rest);
    }
  }

  lemma StripScalar(v: Json, level: nat, compact: bool, rest: string)
    requires Sound(v) && !v.Array? && !v.Object?
    ensures Strip(Text(v, level, compact, rest), Outside) == Text(v, 0, true, Strip(rest, Outside))
  {
    hide Strip, StringText;
    match v {
      case Null => StripPlain("null", rest);
      case Bool(b) => StripPlain(if b then "true" else "false", rest);
      case Number(token) =>
        NumberCharsOf(token);
        StripPlain(token, rest);
      case String(s) => StripString(s, rest);
    }
  }

  // Whatever the mode and indentation, the same text remains: the compact one.
  lemma {:induction false} StripText(v: Json, level: nat, compact: bool, level': nat, rest: string)
    requires Sound(v)
    ensures Strip(Text(v, level, compact, rest), Outside) == Text(v, level', true, Strip(rest, Outside))
    decreases v
  {
    match v {
      case Array(items) =>
        if items.Nil? {
          StripPlain("[]", rest);
        } else {
          var after := Break(level, compact, [']'] + rest);
          StripOne('[', ItemsText(items, level + 1, compact, after));
          StripItems(items, level + 1, compact, level' + 1, after);
          StripBreak(level, compact, [']'] + rest);
          StripOne(']', rest);
        }
      case Object(members) =>
        if members.Nil? {
          StripPlain("{}", rest);
        } else {
          var after := Break(level, compact, ['}'] + rest);
          StripOne('{', MembersText(members, level + 1, compact, after));
          StripMembers(members, level + 1, compact, level' + 1, after);
          StripBreak(level, compact, ['}'] + rest);
          StripOne('}', rest);
        }
      case _ => StripScalar(v, level, compact, rest);
    }
  }

  lemma {:induction false} StripItems(items: List<Json>, level: nat, compact: bool, level': nat, rest: string)
    requires items.Cons? && SoundItems(items)
    ensures Strip(ItemsText(items, level, compact, rest), Outside)
         == ItemsText(items, level', true, Strip(rest, Outside))
    decreases items
  {
    hide Strip, Text;
    var more := if items.tail.Nil? then rest else [','] + ItemsText(items.tail, level, compact, rest);
    StripBreak(level, compact, Text(items.head, level, compact, more));
    StripText(items.head, level, compact, level', more);
    if items.tail.Cons? {
      StripOne(',', ItemsText(items.tail, level, compact, rest));
      StripItems(items.tail, level, compact, level', rest);
    }
  }

  lemma {:induction false} StripMembers(members: List<Member>, level: nat, compact: bool, level': nat, rest: string)
    requires members.Cons? && SoundMembers(members)
    ensures Strip(MembersText(members, level, compact, rest), Outside)
         == MembersText(members, level', true, Strip(rest, Outside))
    decreases members
  {
    hide Strip, Text, StringText;
    var Member(key, value) := members.head;
    var more := if members.tail.Nil? then rest else [','] + MembersText(members.tail, level, compact, rest);
    var text := Text(value, level, compact, more);
    StripBreak(level, compact, StringText(key, Colon(compact, text)));
    StripString(key, Colon(compact, text));
    StripColon(compact, text);
    StripText(value, level, compact, level', more);
    if members.tail.Cons? {
      StripOne(',', MembersText(members.tail, level, compact, rest));
      StripMembers(members.tail, level, compact, level', rest);
    }
  }

  // Pretty and compact text differ only in white space outside strings.
  lemma PrettyIsCompactSpaced(v: Json)
    requires Sound(v)
    ensures Strip(Text(v, 0, false, ""), Outside) == Text(v, 0, true, "")
    ensures Strip(Text(v, 0, true, ""), Outside) == Text(v, 0, true, "")
  {
    StripText(v, 0, false, 0, "");
    StripText(v, 0, true, 0, "");
  }

  // ---- what follows is only appended ----

  lemma {:induction false} SpacesAppend(n: nat, a: string, b: string)
    ensures Spaces(n, a + b) == Spaces(n, a) + b
  {
    if n > 0 {
      SpacesAppend(n - 1, a, b);
    }
  }

  lemma BreakAppend(level: nat, compact: bool, a: string, b: string)
    ensures Break(level, compact, a + b) == Break(level, compact, a) + b
  {
    hide Spaces;
    if !compact {
      SpacesAppend(level * 2, a, b);
    }
  }

  lemma {:induction false} QuotedAppend(s: string, a: string, b: string)
    ensures Quoted(s, a + b) == Quoted(s, a) + b
  {
    hide EscapeChar;
    if s != "" {
      QuotedAppend(s[1..], a, b);
    }
  }

  lemma StringAppend(s: string, a: string, b: string)
    ensures StringText(s, a + b) == StringText(s, a) + b
  {
    hide Quoted;
    QuotedAppend(s, a, b);
  }

  lemma ColonAppend(compact: bool, a: string, b: string)
    ensures Colon(compact, a + b) == Colon(compact, a) + b
  {
  }

  lemma Shift(c: char, a: string, b: string)
    ensures [c] + (a + b) == ([c] + a) + b
  {
  }

  lemma {:induction false} TextAppend(v: Json, level: nat, compact: bool, a: string, b: string)
    ensures Text(v, level, compact, a + b) == Text(v, level, compact, a) + b
    decreases v
  {
    match v {
      case String(s) => StringAppend(s, a, b);
      case Array(items) =>
        if items.Cons? {
          Shift(']', a, b);
          BreakAppend(level, compact, [']'] + a, b);
          ItemsAppend(items, level + 1, compact, Break(level, compact, [']'] + a), b);
        }
      case Object(members) =>
        if members.Cons? {
          Shift('}', a, b);
          BreakAppend(level, compact, ['}'] + a, b);
          MembersAppend(members, level + 1, compact, Break(level, compact, ['}'] + a), b);
        }
      case _ =>
    }
  }

  lemma {:induction false} ItemsAppend(items: List<Json>, level: nat, compact: bool, a: string, b: string)
    requires items.Cons?
    ensures ItemsText(items, level, compact, a + b) == ItemsText(items, level, compact, a) + b
    decreases items
  {
    hide Break, Text;
    var more := if items.tail.Nil? then a else [','] + ItemsText(items.tail, level, compact, a);
    if items.tail.Cons? {
      ItemsAppend(items.tail, level, compact, a, b);
      Shift(',', ItemsText(items.tail, level, compact, a), b);
    }
    TextAppend(items.head, level, compact, more, b);
    BreakAppend(level, compact, Text(items.head, level, compact, more), b);
  }

  lemma {:induction false} MembersAppend(members: List<Member>, level: nat, compact: bool, a: string, b: string)
    requires members.Cons?
    ensures MembersText(members, level, compact, a + b) == MembersText(members, level, compact, a) + b
    decreases members
  {
    hide Break, Text, StringText, Colon;
    var Member(key, value) := members.head;
    var more := if members.tail.Nil? then a else [','] + MembersText(members.tail, level, compact, a);
    if members.tail.Cons? {
      MembersAppend(members.tail, level, compact, a, b);
      Shift(',', MembersText(members.tail, level, compact, a), b);
    }
    var text := Text(value, level, compact, more);
    TextAppend(value, level, compact, more, b);
    ColonAppend(compact, text, b);
    StringAppend(key, Colon(compact, text), b);
    BreakAppend(level, compact, StringText(key, Colon(compact, text)), b);
  }
}
