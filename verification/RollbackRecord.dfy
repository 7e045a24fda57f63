// The rollback record file of src/actions/rollback.c: a writer of flat JSON and
// a reader that looks for the first place where the quoted key stands. When the
// reader returns what was written is settled for every record.

module RollbackRecord {
  import opened Strings

  datatype Field = Field(key: string, value: string)

  // ---- the writer ----

  function EscapeChar(c: char): (r: string) {
    match c
    case '"' => "\\\""
    case '\\' => "\\\\"
    case '\n' => "\\n"
    case '\r' => "\\r"
    case '\t' => "\\t"
    case _ => if c < ' ' then ['\\', 'u', '0', '0', HexDigit(c as nat / 16), HexDigit(c as nat % 16)] else [c]
  }

  // The escaped text of s before rest.
  function Escape(s: string, rest: string): string {
    if s == "" then rest else EscapeChar(s[0]) + Escape(s[1..], rest)
  }

  // The members from the opening quote of the first key to the end of the file.
  function FieldsText(fields: seq<Field>): string
    requires fields != []
  {
    ['"'] + fields[0].key + ['"'] + ValueText(fields)
  }

  // The same after the first key.
  function ValueText(fields: seq<Field>): string
    requires fields != []
    decreases fields, 1
  {
    ": \"" + Escape(fields[0].value, ['"'] + Tail(fields))
  }

  function Tail(fields: seq<Field>): string
    requires fields != []
    decreases fields, 0
  {
    if |fields| == 1 then "\n}\n" else ",\n  " + FieldsText(fields[1..])
  }

  function FileText(fields: seq<Field>): string
    requires fields != []
  {
    "{\n  " + FieldsText(fields)
  }

  method WriteEscaped(f: string, s: string) returns (f': string)
    ensures f' == f + Escape(s, "")
  {
    f' := f;
    for i := 0 to |s|
      invariant f' + Escape(s[i..], "") == f + Escape(s, "")
    {
      assert s[i..][1..] == s[i + 1..];
      f' := f' + EscapeChar(s[i]);
    }
  }

  // A record as wt_rollback_write fills and prints it.
  datatype Record = Record(
    id: string, timestamp: string, actionType: string, actionId: string,
    description: string, previous: string, next: string)

  function RecordFields(r: Record): (fields: seq<Field>)
    ensures |fields| == 8
  {
    [Field("id", r.id), Field("timestamp_utc", r.timestamp), Field("action_id", r.actionId),
     Field("action_type", r.actionType), Field("description", r.description),
     Field("previous_value", r.previous), Field("new_value", r.next),
     Field("rollback_command", "wintune rollback apply " + r.id)]
  }

  lemma RecordFieldsAre(r: Record)
    ensures var f := RecordFields(r);
      && f[0] == Field("id", r.id) && f[1] == Field("timestamp_utc", r.timestamp)
      && f[2] == Field("action_id", r.actionId) && f[3] == Field("action_type", r.actionType)
      && f[4] == Field("description", r.description) && f[5] == Field("previous_value", r.previous)
      && f[6] == Field("new_value", r.next)
      && f[7] == Field("rollback_command", "wintune rollback apply " + r.id)
  {
  }

  lemma {:induction false} EscapeAppends(s: string, rest: string)
    ensures Escape(s, rest) == Escape(s, "") + rest
  {
    if s != "" {
      EscapeAppends(s[1..], rest);
      assert EscapeChar(s[0]) + (Escape(s[1..], "") + rest) == EscapeChar(s[0]) + Escape(s[1..], "") + rest;
    }
  }

  function Line(field: Field, comma: bool): string {
    "  \"" + field.key + "\": \"" + Escape(field.value, "") + (if comma then "\",\n" else "\"\n")
  }

  // The file after its first line, as it is printed: one member a line.
  function Lines(fields: seq<Field>): string {
    if fields == [] then "}\n" else Line(fields[0], |fields| > 1) + Lines(fields[1..])
  }

  lemma {:induction false} LinesAreMembers(fields: seq<Field>)
    requires fields != []
    ensures Lines(fields) == "  " + FieldsText(fields)
  {
    hide Escape;
    var e, rest := Escape(fields[0].value, ""), ['"'] + Tail(fields);
    EscapeAppends(fields[0].value, rest);
    if |fields| > 1 {
      LinesAreMembers(fields[1..]);
      assert rest == "\",\n" + Lines(fields[1..]);
    } else {
      assert rest == "\"\n" + "}\n";
    }
    MemberLine(fields[0].key, e, rest);
    assert Lines(fields) == "  \"" + fields[0].key + "\": \"" + e + rest;
  }

  lemma MemberLine(key: string, e: string, rest: string)
    ensures "  " + (['"'] + key + ['"'] + (": \"" + (e + rest))) == "  \"" + key + "\": \"" + e + rest
  {
  }

  lemma LinesStep(f: string, fields: seq<Field>, i: nat)
    requires i < |fields|
    ensures f + Line(fields[i], i + 1 < |fields|) + Lines(fields[i + 1..]) == f + Lines(fields[i..])
  {
    hide Line;
    assert fields[i..][1..] == fields[i + 1..];
    var line := Line(fields[i], i + 1 < |fields|);
    assert f + line + Lines(fields[i + 1..]) == f + (line + Lines(fields[i + 1..]));
  }

  lemma LastLine()
    ensures Lines([]) == "}\n"
  {
  }

  // One member, the way wt_json_field_w puts it. It is member i of fields.
  method WriteField(f: string, key: string, value: string, comma: bool, ghost fields: seq<Field>, ghost i: nat)
    returns (f': string)
    requires i < |fields| && fields[i] == Field(key, value) && comma == (i + 1 < |fields|)
    ensures f' == f + Line(Field(key, value), comma)
    ensures f' + Lines(fields[i + 1..]) == f + Lines(fields[i..])
  {
    hide Escape, Lines;
    f' := WriteEscaped(f + "  \"" + key + "\": \"", value);
    f' := f' + (if comma then "\",\n" else "\"\n");
    LinesStep(f, fields, i);
  }

  // The time stamp is printed as it is: it is digits and the punctuation of
  // ISO 8601, which no escaping changes.
  method WriteTimestamp(f: string, timestamp: string, ghost fields: seq<Field>, ghost i: nat)
    returns (f': string)
    requires i + 1 < |fields| && fields[i] == Field("timestamp_utc", timestamp) && Escape(timestamp, "") == timestamp
    ensures f' + Lines(fields[i + 1..]) == f + Lines(fields[i..])
  {
    hide Escape, Lines;
    f' := f + "  \"timestamp_utc\": \"" + timestamp + "\",\n";
    LinesStep(f, fields, i);
    assert f + Line(fields[i], true) == f';
  }

  // The members of a record are printed in this order.
  method WriteRecord(r: Record) returns (f: string)
    requires Escape(r.timestamp, "") == r.timestamp
    ensures f == FileText(RecordFields(r))
  {
    hide Escape, FieldsText, Lines, Line, RecordFields;
    ghost var fields := RecordFields(r);
    RecordFieldsAre(r);
    LinesAreMembers(fields);
    assert fields[0..] == fields && "{\n" + Lines(fields) == FileText(fields);
    f := "{\n";
    f := WriteField(f, "id", r.id, true, fields, 0);
    f := WriteTimestamp(f, r.timestamp, fields, 1);
    f := WriteField(f, "action_id", r.actionId, true, fields, 2);
    f := WriteField(f, "action_type", r.actionType, true, fields, 3);
    f := WriteField(f, "description", r.description, true, fields, 4);
    f := WriteField(f, "previous_value", r.previous, true, fields, 5);
    f := WriteField(f, "new_value", r.next, true, fields, 6);
    f := WriteField(f, "rollback_command", "wintune rollback apply " + r.id, false, fields, 7);
    LastLine();
    assert fields[8..] == [];
    f := f + "}\n";
  }

  // ---- the reader ----

  // What follows the first occurrence of pat.
  function After(s: string, pat: string): (r: Option<string>)
    ensures r.Some? ==> |r.value| <= |s|
  {
    if pat <= s then Some(s[|pat|..])
    else if s == "" then None
    else After(s[1..], pat)
  }

  function SkipSeparators(s: string): string {
    if s != "" && (s[0] == ' ' || s[0] == ':' || s[0] == '\t') then SkipSeparators(s[1..]) else s
  }

  function Meaning(c: char): char {
    if c == 'n' then '\n' else if c == 't' then '\t' else if c == 'r' then '\r' else c
  }

  // The unescaped text up to the closing quote.
  function Unescape(s: string): string {
    if s == "" || s[0] == '"' then ""
    else if s[0] == '\\' && |s| > 1 then [Meaning(s[1])] + Unescape(s[2..])
    else [s[0]] + Unescape(s[1..])
  }

  const PATTERN_SIZE: nat := 96

  // None for the reader's 0. The buffer takes cap - 1 characters.
  function Get(buf: string, key: string, cap: nat): Option<string> {
    if cap == 0 || |key| + 2 >= PATTERN_SIZE then None
    else
      match After(buf, ['"'] + key + ['"'])
      case None => None
      case Some(rest) =>
        var value := SkipSeparators(rest);
        if value == "" || value[0] != '"' then None else Some(Cut(Unescape(value[1..]), cap - 1))
  }

  // strstr, as the position after the match.
  method FindAfter(buf: string, pat: string) returns (found: bool, p: nat)
    ensures found ==> p <= |buf| && After(buf, pat) == Some(buf[p..])
    ensures !found ==> After(buf, pat) == None
  {
    p := 0;
    while !(pat <= buf[p..])
      invariant p <= |buf| && After(buf[p..], pat) == After(buf, pat)
      decreases |buf| - p
    {
      if p == |buf| {
        return false, p;
      }
      assert buf[p..][1..] == buf[p + 1..];
      p := p + 1;
    }
    assert buf[p..][|pat|..] == buf[p + |pat|..];
    return true, p + |pat|;
  }

  method Skip(buf: string, start: nat) returns (p: nat)
    requires start <= |buf|
    ensures start <= p <= |buf| && buf[p..] == SkipSeparators(buf[start..])
  {
    p := start;
    while p < |buf| && (buf[p] == ' ' || buf[p] == ':' || buf[p] == '\t')
      invariant start <= p <= |buf| && SkipSeparators(buf[p..]) == SkipSeparators(buf[start..])
    {
      assert buf[p..][1..] == buf[p + 1..];
      p := p + 1;
    }
  }

  // wt_json_get.
  method JsonGet(buf: string, key: string, cap: nat) returns (ok: bool, out: string)
    ensures (if ok then Some(out) else None) == Get(buf, key, cap)
    ensures !ok ==> out == ""
  {
    hide After, SkipSeparators, Unescape, Cut;
    if cap == 0 || |key| + 2 >= PATTERN_SIZE {
      return false, "";
    }
    var found, p := FindAfter(buf, ['"'] + key + ['"']);
    if !found {
      return false, "";
    }
    p := Skip(buf, p);
    if p == |buf| || buf[p] != '"' {
      return false, "";
    }
    assert buf[p..][1..] == buf[p + 1..];
    ok := true;
    out := CopyValue(buf, p + 1, cap);
  }

  method CopyValue(buf: string, start: nat, cap: nat) returns (out: string)
    requires start <= |buf| && cap > 0
    ensures out == Cut(Unescape(buf[start..]), cap - 1)
  {
    var p := start;
    out := "";
    ghost var all := "";
    while p < |buf| && buf[p] != '"'
      invariant p <= |buf|
      invariant all + Unescape(buf[p..]) == Unescape(buf[start..]) && out == Cut(all, cap - 1)
    {
      assert buf[p..][1..] == buf[p + 1..];
      var c := buf[p];
      p := p + 1;
      if c == '\\' && p < |buf| {
        assert buf[p - 1..][2..] == buf[p + 1..];
        c := Meaning(buf[p]);
        p := p + 1;
      }
      assert all + ([c] + Unescape(buf[p..])) == all + [c] + Unescape(buf[p..]);
      all := all + [c];
      if |out| + 1 < cap {
        out := out + [c];
      }
    }
    assert Unescape(buf[p..]) == "";
    assert all + "" == all;
  }

  // ---- where the pattern can stand ----

  predicate NoQuote(s: string) {
    '"' !in s
  }

  // Keys are written and searched for as they are.
  predicate CleanKey(key: string) {
    |key| + 2 < PATTERN_SIZE && forall i :: 0 <= i < |key| ==> key[i] == '_' || 'a' <= key[i] <= 'z'
  }

  lemma {:induction false} SkipPlain(a: string, s: string, pat: string)
    requires NoQuote(a) && pat != "" && pat[0] == '"'
    ensures After(a + s, pat) == After(s, pat)
  {
    if a == "" {
      assert a + s == s;
    } else {
      assert (a + s)[0] == a[0] && a[0] in a && (a + s)[1..] == a[1..] + s;
      SkipPlain(a[1..], s, pat);
    }
  }

  // From one quote to the next the pattern stands only if the key is in between.
  lemma AtQuote(seg: string, s: string, key: string)
    requires NoQuote(seg) && NoQuote(key)
    ensures After(['"'] + seg + ['"'] + s, ['"'] + key + ['"'])
         == if seg == key then Some(s) else After(['"'] + s, ['"'] + key + ['"'])
  {
    var pat, text := ['"'] + key + ['"'], ['"'] + seg + ['"'] + s;
    hide After, NoQuote;
    if seg == key {
      FoundAtOnce(pat, s);
    } else {
      NoMatch(seg, s, key);
      AfterFirst(seg, s);
      SkipPlain(seg, ['"'] + s, pat);
      StepOver(text, pat);
    }
  }

  lemma AfterFirst(seg: string, s: string)
    ensures (['"'] + seg + ['"'] + s)[1..] == seg + (['"'] + s)
  {
  }

  lemma FoundAtOnce(pat: string, s: string)
    ensures After(pat + s, pat) == Some(s)
  {
    assert pat <= pat + s && (pat + s)[|pat|..] == s;
  }

  lemma NoMatch(seg: string, s: string, key: string)
    requires NoQuote(seg) && NoQuote(key) && seg != key
    ensures !(['"'] + key + ['"'] <= ['"'] + seg + ['"'] + s)
  {
    var pat, text := ['"'] + key + ['"'], ['"'] + seg + ['"'] + s;
    if pat <= text {
      assert pat[1..] == key + ['"'] && text[1..] == seg + ['"'] + s;
      SameQuotes(seg, s, key);
    }
  }

  lemma StepOver(s: string, pat: string)
    requires s != "" && !(pat <= s)
    ensures After(s, pat) == After(s[1..], pat)
  {
  }

  lemma {:induction false} SameQuotes(seg: string, s: string, key: string)
    requires NoQuote(seg) && NoQuote(key) && key + ['"'] <= seg + ['"'] + s
    ensures seg == key
  {
    assert (key + ['"'])[0] == (seg + ['"'] + s)[0];
    if seg != "" && key != "" {
      assert (key + ['"'])[1..] == key[1..] + ['"'];
      assert (seg + ['"'] + s)[1..] == seg[1..] + ['"'] + s;
      SameQuotes(seg[1..], s, key[1..]);
    }
  }

  lemma NothingAfterLastQuote(s: string, key: string)
    requires NoQuote(s) && NoQuote(key)
    ensures After(['"'] + s, ['"'] + key + ['"']) == None
  {
    var pat, text := ['"'] + key + ['"'], ['"'] + s;
    if |pat| <= |text| {
      assert text[|key| + 1] == s[|key|] && s[|key|] in s && pat[|key| + 1] == '"';
    }
    assert text[1..] == s + "";
    StepOver(text, pat);
    SkipPlain(s, "", pat);
  }

  predicate EndsQuoted(value: string, key: string) {
    |key| < |value| && value[|value| - |key|..] == key && value[|value| - |key| - 1] == '"'
  }

  // A value in which the search for key stops: it is key, or ends with a quote
  // and key.
  predicate Clash(value: string, key: string) {
    value == key || EndsQuoted(value, key)
  }

  // The search through a value whose text since the last quote is pre.
  predicate Stops(pre: string, value: string, key: string)
    decreases |value|
  {
    if value == "" then pre == key
    else if value[0] == '"' then Stops("", value[1..], key)
    else Stops(pre + EscapeChar(value[0]), value[1..], key)
  }

  lemma {:induction false} SearchValue(pre: string, value: string, s: string, key: string)
    requires NoQuote(pre) && CleanKey(key)
    ensures After(['"'] + pre + Escape(value, ['"'] + s), ['"'] + key + ['"'])
         == if Stops(pre, value, key) then Some(s) else After(['"'] + s, ['"'] + key + ['"'])
    decreases |value|
  {
    hide After, EscapeChar, CleanKey;
    CleanHasNoQuote(key);
    if value == "" {
      assert ['"'] + pre + (['"'] + s) == ['"'] + pre + ['"'] + s;
      AtQuote(pre, s, key);
    } else {
      var c, rest := value[0], Escape(value[1..], ['"'] + s);
      EscapeQuotes(c);
      if c == '"' {
        SearchPastQuote(pre, rest, key);
        SearchValue("", value[1..], s, key);
        assert ['"'] + "" + rest == ['"'] + rest;
      } else {
        assert ['"'] + pre + (EscapeChar(c) + rest) == ['"'] + (pre + EscapeChar(c)) + rest;
        SearchValue(pre + EscapeChar(c), value[1..], s, key);
      }
    }
  }

  lemma CleanHasNoQuote(key: string)
    requires CleanKey(key)
    ensures NoQuote(key) && '\\' !in key
  {
    assert forall i :: 0 <= i < |key| ==> key[i] != '"' && key[i] != '\\';
  }

  lemma EscapeQuotes(c: char)
    ensures if c == '"' then EscapeChar(c) == "\\\"" else NoQuote(EscapeChar(c))
  {
  }

  // An escaped quote never closes the key: a backslash stands before it.
  lemma SearchPastQuote(pre: string, rest: string, key: string)
    requires NoQuote(pre) && NoQuote(key) && '\\' !in key
    ensures After(['"'] + pre + ("\\\"" + rest), ['"'] + key + ['"'])
         == After(['"'] + rest, ['"'] + key + ['"'])
  {
    hide After;
    var seg := pre + ['\\'];
    assert ['"'] + pre + ("\\\"" + rest) == ['"'] + seg + ['"'] + rest;
    assert seg[|pre|] == '\\';
    assert NoQuote(seg) && '\\' in seg;
    AtQuote(seg, rest, key);
  }

  // ---- stopping is clashing ----

  lemma UnlikeKey(s: string, c: char, key: string)
    requires CleanKey(key) && c in s && (c == '\\' || c == '"' || c < ' ')
    ensures s != key
  {
    var i :| 0 <= i < |s| && s[i] == c;
    assert i < |key| ==> key[i] != c;
  }

  lemma EndsLater(value: string, key: string)
    requires value != ""
    ensures EndsQuoted(value, key) <==> EndsQuoted(value[1..], key) || (value[0] == '"' && value[1..] == key)
  {
    if |key| < |value| - 1 {
      assert value[|value| - |key|..] == value[1..][|value| - 1 - |key|..];
    }
  }

  lemma EscapeKeepsKey(pre: string, c: char, tail: string, key: string)
    requires CleanKey(key) && c != '"'
    ensures pre + EscapeChar(c) + tail == key <==> pre + [c] + tail == key
  {
    if c == '\\' || c < ' ' {
      assert (pre + EscapeChar(c) + tail)[|pre|] == '\\' && (pre + [c] + tail)[|pre|] == c;
      UnlikeKey(pre + EscapeChar(c) + tail, '\\', key);
      UnlikeKey(pre + [c] + tail, c, key);
    }
  }

  lemma {:induction false} StopsIsClash(pre: string, value: string, key: string)
    requires CleanKey(key)
    ensures Stops(pre, value, key) <==> pre + value == key || EndsQuoted(value, key)
    decreases |value|
  {
    if value == "" {
      assert pre + value == pre;
    } else {
      hide CleanKey, EndsQuoted, EscapeChar;
      var c, tail := value[0], value[1..];
      EndsLater(value, key);
      if c == '"' {
        StopsIsClash("", tail, key);
        assert "" + tail == tail;
        assert (pre + value)[|pre|] == '"';
        UnlikeKey(pre + value, '"', key);
      } else {
        StopsIsClash(pre + EscapeChar(c), tail, key);
        EscapeKeepsKey(pre, c, tail, key);
        assert pre + value == pre + [c] + tail;
      }
    }
  }

  // ---- what the reader makes of a written value ----

  // Control characters other than these three are written as \u00xx, which the
  // reader takes for five characters.
  predicate Legible(v: string) {
    forall i :: 0 <= i < |v| ==> v[i] >= ' ' || v[i] == '\n' || v[i] == '\r' || v[i] == '\t'
  }

  function Reread(v: string): string {
    if v == "" then ""
    else
      var c := v[0];
      (if c >= ' ' || c == '\n' || c == '\r' || c == '\t' then [c]
       else ['u', '0', '0', HexDigit(c as nat / 16), HexDigit(c as nat % 16)]) + Reread(v[1..])
  }

  lemma RereadChar(c: char, rest: string)
    ensures Unescape(EscapeChar(c) + rest)
         == (if c >= ' ' || c == '\n' || c == '\r' || c == '\t' then [c]
             else ['u', '0', '0', HexDigit(c as nat / 16), HexDigit(c as nat % 16)]) + Unescape(rest)
  {
    var e := EscapeChar(c);
    if |e| == 1 {
      assert (e + rest)[1..] == rest;
    } else if |e| == 2 {
      assert (e + rest)[2..] == rest;
    } else {
      RereadHex(HexDigit(c as nat / 16), HexDigit(c as nat % 16), rest);
    }
  }

  lemma RereadHex(a: char, b: char, rest: string)
    requires a != '\\' && a != '"' && b != '\\' && b != '"'
    ensures Unescape(['\\', 'u', '0', '0', a, b] + rest) == ['u', '0', '0', a, b] + Unescape(rest)
  {
    var after := ['0', '0', a, b] + rest;
    assert (['\\', 'u', '0', '0', a, b] + rest)[2..] == after;
    PlainPair('0', '0', [a, b] + rest);
    PlainPair(a, b, rest);
    assert after == ['0', '0'] + ([a, b] + rest);
  }

  lemma PlainPair(a: char, b: char, rest: string)
    requires a != '\\' && a != '"' && b != '\\' && b != '"'
    ensures Unescape([a, b] + rest) == [a, b] + Unescape(rest)
  {
    assert ([a, b] + rest)[1..] == [b] + rest && ([b] + rest)[1..] == rest;
  }

  lemma {:induction false} ReadsBack(v: string, rest: string)
    ensures Unescape(Escape(v, ['"'] + rest)) == Reread(v)
  {
    if v != "" {
      hide EscapeChar, Unescape;
      RereadChar(v[0], Escape(v[1..], ['"'] + rest));
      ReadsBack(v[1..], rest);
    }
  }

  // The value comes back exactly when it is legible.
  lemma {:induction false} RereadIsOriginal(v: string)
    ensures Reread(v) == v <==> Legible(v)
  {
    if v != "" {
      RereadIsOriginal(v[1..]);
      assert v == [v[0]] + v[1..];
      var c := v[0];
      if c >= ' ' || c == '\n' || c == '\r' || c == '\t' {
        assert Reread(v)[1..] == Reread(v[1..]);
        assert Legible(v) <==> Legible(v[1..]);
      } else {
        assert Reread(v)[0] == 'u';
      }
    }
  }

  lemma {:induction false} RereadConcat(a: string, b: string)
    ensures Reread(a + b) == Reread(a) + Reread(b)
  {
    if a == "" {
      assert a + b == b;
    } else {
      assert (a + b)[1..] == a[1..] + b;
      RereadConcat(a[1..], b);
    }
  }

  // An illegible value grows, and no bar appears in it.
  lemma {:induction false} RereadGrows(v: string)
    ensures |Reread(v)| >= |v| && (!Legible(v) ==> |Reread(v)| > |v|)
    ensures '|' !in v ==> '|' !in Reread(v)
  {
    if v != "" {
      RereadGrows(v[1..]);
      assert v == [v[0]] + v[1..];
      var c := v[0];
      if c >= ' ' || c == '\n' || c == '\r' || c == '\t' {
        assert Legible(v) <==> Legible(v[1..]);
      } else {
        assert HexDigit(c as nat / 16) != '|' && HexDigit(c as nat % 16) != '|';
      }
    }
  }

  // ---- reading a field of a file ----

  // The search visits fields in order: it stops at the key, or fails at a value
  // in which it stops first.
  function Lookup(fields: seq<Field>, key: string): Option<string> {
    if fields == [] then None
    else if fields[0].key == key then Some(fields[0].value)
    else if Clash(fields[0].value, key) then None
    else Lookup(fields[1..], key)
  }

  // What Get makes of what follows the match.
  function Continue(after: Option<string>): Option<string> {
    match after
    case None => None
    case Some(rest) =>
      var value := SkipSeparators(rest);
      if value == "" || value[0] != '"' then None else Some(Unescape(value[1..]))
  }

  predicate CleanKeys(fields: seq<Field>) {
    forall i :: 0 <= i < |fields| ==> CleanKey(fields[i].key)
  }

  function Pattern(key: string): string {
    ['"'] + key + ['"']
  }

  lemma PlainIsNotKey(s: string, key: string)
    requires CleanKey(key) && s != "" && (s[0] == ',' || s[0] == ':')
    ensures s != key
  {
  }

  // The search through one member.
  lemma SearchMember(fields: seq<Field>, key: string)
    requires fields != [] && CleanKeys(fields) && CleanKey(key)
    ensures After(FieldsText(fields), Pattern(key))
         == if fields[0].key == key then Some(ValueText(fields))
            else if Clash(fields[0].value, key) then Some(Tail(fields))
            else After(['"'] + Tail(fields), Pattern(key))
  {
    hide After, CleanKey, Escape, EndsQuoted;
    var own, value := fields[0].key, fields[0].value;
    CleanHasNoQuote(own);
    CleanHasNoQuote(key);
    AtQuote(own, ValueText(fields), key);
    if own != key {
      var body := Escape(value, ['"'] + Tail(fields));
      PlainIsNotKey(": ", key);
      assert ['"'] + ValueText(fields) == ['"'] + ": " + ['"'] + body;
      AtQuote(": ", body, key);
      assert ['"'] + body == ['"'] + "" + body;
      SearchValue("", value, Tail(fields), key);
      StopsIsClash("", value, key);
      assert "" + value == value;
    }
  }

  // Reading by key is the walk over the fields.
  lemma {:induction false} SearchFields(fields: seq<Field>, key: string)
    requires fields != [] && CleanKeys(fields) && CleanKey(key)
    ensures Continue(After(FieldsText(fields), Pattern(key)))
         == match Lookup(fields, key) case None => None case Some(v) => Some(Reread(v))
  {
    hide After, CleanKey, Clash, Escape;
    SearchMember(fields, key);
    CleanHasNoQuote(key);
    if fields[0].key == key {
      var body := Escape(fields[0].value, ['"'] + Tail(fields));
      SkipToValue(body);
      ReadsBack(fields[0].value, Tail(fields));
    } else if !Clash(fields[0].value, key) {
      if |fields| == 1 {
        NothingAfterLastQuote("\n}\n", key);
      } else {
        var rest := FieldsText(fields[1..]);
        var own := fields[1..][0].key + ['"'] + ValueText(fields[1..]);
        assert rest == ['"'] + own;
        assert ['"'] + Tail(fields) == ['"'] + ",\n  " + ['"'] + own;
        PlainIsNotKey(",\n  ", key);
        AtQuote(",\n  ", own, key);
        SearchFields(fields[1..], key);
      }
    }
  }

  lemma SkipToValue(body: string)
    ensures SkipSeparators(": \"" + body) == ['"'] + body
  {
    var s := ": \"" + body;
    var t := " \"" + body;
    assert s[1..] == t && t[1..] == "\"" + body;
    assert SkipSeparators(t) == SkipSeparators(t[1..]);
  }

  // What the reader returns for any key of any written file: the first field of
  // that name, unless an earlier value ends the search.
  lemma ReadByKey(fields: seq<Field>, key: string, cap: nat)
    requires fields != [] && CleanKeys(fields) && CleanKey(key) && cap > 0
    ensures Get(FileText(fields), key, cap)
         == match Lookup(fields, key) case None => None case Some(v) => Some(Cut(Reread(v), cap - 1))
  {
    hide After, Escape, SkipSeparators, Clash, Reread;
    SearchFields(fields, key);
    var body := fields[0].key + ['"'] + ValueText(fields);
    assert FieldsText(fields) == ['"'] + body;
    assert FileText(fields) == "{\n  " + (['"'] + body);
    SkipPlain("{\n  ", ['"'] + body, Pattern(key));
  }

  lemma {:induction false} LookupAt(fields: seq<Field>, k: nat)
    requires k < |fields|
    requires forall i, j :: 0 <= i < j < |fields| ==> fields[i].key != fields[j].key
    ensures Lookup(fields, fields[k].key)
         == if exists j :: 0 <= j < k && Clash(fields[j].value, fields[k].key) then None else Some(fields[k].value)
  {
    if k > 0 {
      hide Clash;
      var key := fields[k].key;
      assert fields[0].key != key;
      if !Clash(fields[0].value, key) {
        var rest := fields[1..];
        LookupAt(rest, k - 1);
        assert rest[k - 1] == fields[k];
        assert (exists j :: 0 <= j < k && Clash(fields[j].value, key))
          <==> (exists j :: 0 <= j < k - 1 && Clash(rest[j].value, key)) by {
          if j :| 0 <= j < k && Clash(fields[j].value, key) {
            assert j > 0 && rest[j - 1] == fields[j];
          }
          if j :| 0 <= j < k - 1 && Clash(rest[j].value, key) {
            assert rest[j] == fields[j + 1];
          }
        }
      }
    }
  }

  lemma CutIsOriginal(v: string, n: nat)
    ensures Cut(Reread(v), n) == v <==> Legible(v) && |v| <= n
  {
    hide Reread;
    RereadIsOriginal(v);
    if !Legible(v) {
      FirstIllegible(v);
      var i :| 0 <= i < |v| && i < |Reread(v)| && Reread(v)[i] != v[i];
      DiffersCut(Reread(v), v, i, n);
    }
  }

  lemma DiffersCut(a: string, b: string, i: nat, n: nat)
    requires i < |a| && i < |b| && a[i] != b[i]
    ensures Cut(a, n) != b
  {
    if i < |Cut(a, n)| {
      assert Cut(a, n)[i] == a[i];
    }
  }

  lemma {:induction false} FirstIllegible(v: string)
    requires !Legible(v)
    ensures exists i :: 0 <= i < |v| && i < |Reread(v)| && Reread(v)[i] != v[i]
  {
    var c := v[0];
    if c >= ' ' || c == '\n' || c == '\r' || c == '\t' {
      assert forall i :: 0 <= i < |v[1..]| ==> v[1..][i] == v[i + 1];
      FirstIllegible(v[1..]);
      var i :| 0 <= i < |v[1..]| && i < |Reread(v[1..])| && Reread(v[1..])[i] != v[1..][i];
      assert Reread(v)[i + 1] == Reread(v[1..])[i] && v[i + 1] == v[1..][i];
    } else {
      assert Reread(v)[0] == 'u' && v[0] != 'u';
    }
  }

  // The round trip, exactly: field k is read back if and only if no earlier
  // value ends the search, its control characters are \n, \r and \t, and it
  // fits the caller's buffer.
  lemma FieldRoundTrip(fields: seq<Field>, k: nat, cap: nat)
    requires k < |fields| && CleanKeys(fields) && cap > 0
    requires forall i, j :: 0 <= i < j < |fields| ==> fields[i].key != fields[j].key
    ensures Get(FileText(fields), fields[k].key, cap) == Some(fields[k].value)
       <==> && (forall j :: 0 <= j < k ==> !Clash(fields[j].value, fields[k].key))
            && Legible(fields[k].value)
            && |fields[k].value| < cap
  {
    hide Get, Clash, Legible, CleanKey, Reread, Lookup;
    assert CleanKey(fields[k].key);
    ReadByKey(fields, fields[k].key, cap);
    LookupAt(fields, k);
    CutIsOriginal(fields[k].value, cap - 1);
  }
}
