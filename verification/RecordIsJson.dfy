// A rollback record file read by a JSON reader: whatever the substring search of
// the program makes of it, section 4 of RFC 8259 makes of it what was recorded.

module RecordIsJson {
  import J = JsonText
  import opened RollbackRecord
  import opened Strings

  function Members(fields: seq<Field>): J.List<J.Member> {
    if fields == [] then J.Nil else J.Cons(J.Member(fields[0].key, J.String(fields[0].value)), Members(fields[1..]))
  }

  // Backspace and form feed, which the record writer has no short escapes for.
  lemma ReadsLongEscape(c: char, x: string)
    requires c == '\U{8}' || c == '\U{C}'
    ensures EscapeChar(c)[0] == '\\' && J.ReadEscape(EscapeChar(c)[1..] + x) == Some((c, x))
  {
    J.HexRoundTrip(c as nat % 16);
    J.HexRoundTrip(0);
    assert (EscapeChar(c)[1..] + x)[5..] == x;
  }

  lemma ReadsRecordChar(c: char, x: string, cs: string, rest: string)
    requires J.ReadString(x) == Some((cs, rest))
    ensures J.ReadString(EscapeChar(c) + x) == Some(([c] + cs, rest))
  {
    if c == '\U{8}' || c == '\U{C}' {
      ReadsLongEscape(c, x);
      hide EscapeChar, J.ReadEscape;
      assert (EscapeChar(c) + x)[1..] == EscapeChar(c)[1..] + x;
    } else {
      assert EscapeChar(c) == J.EscapeChar(c);
      J.ReadsOneChar(c, x, cs, rest);
    }
  }

  lemma {:induction false} ReadsEscaped(s: string, rest: string)
    ensures J.ReadString(Escape(s, ['"'] + rest)) == Some((s, rest))
  {
    if s == "" {
      J.Front('"', rest);
    } else {
      hide EscapeChar, J.ReadString;
      ReadsEscaped(s[1..], rest);
      ReadsRecordChar(s[0], Escape(s[1..], ['"'] + rest), s[1..], rest);
      assert [s[0]] + s[1..] == s;
    }
  }

  lemma {:induction false} CleanIsPlain(key: string, rest: string)
    requires forall i :: 0 <= i < |key| ==> key[i] == '_' || 'a' <= key[i] <= 'z'
    ensures Escape(key, rest) == key + rest
  {
    if key == "" {
      assert key + rest == rest;
    } else {
      CleanIsPlain(key[1..], rest);
      assert [key[0]] + (key[1..] + rest) == key + rest;
    }
  }

  lemma ReadsFieldValue(value: string, rest: string)
    ensures J.ReadValue(" \"" + Escape(value, ['"'] + rest)) == Some((J.String(value), rest))
  {
    hide J.ReadString, Escape;
    var body := Escape(value, ['"'] + rest);
    var a := " \"" + body;
    ReadsEscaped(value, rest);
    assert a == [' '] + (['"'] + body);
    J.Front(' ', ['"'] + body);
    J.Front('"', body);
    assert J.Skip(['"'] + body) == ['"'] + body;
    assert J.Skip(a) == ['"'] + body;
  }

  // One member: its key, then its value.
  lemma ReadsField(fields: seq<Field>)
    requires fields != [] && CleanKey(fields[0].key)
    ensures J.Skip(FieldsText(fields)) == FieldsText(fields) && FieldsText(fields)[0] == '"'
    ensures exists a :: J.ReadMember(FieldsText(fields)) == Some((fields[0].key, a))
                     && J.ReadValue(a) == Some((J.String(fields[0].value), Tail(fields)))
  {
    hide J.ReadString, Escape;
    var Field(key, value) := fields[0];
    var body := Escape(value, ['"'] + Tail(fields));
    var a := " \"" + body;
    var text := ValueText(fields);
    assert text == [':'] + a;
    assert FieldsText(fields) == ['"'] + (key + (['"'] + text));
    J.Front('"', key + (['"'] + text));
    CleanIsPlain(key, ['"'] + text);
    ReadsEscaped(key, text);
    J.Front(':', a);
    ReadsFieldValue(value, Tail(fields));
    assert J.ReadMember(FieldsText(fields)) == Some((key, a));
  }

  lemma SkipLine(x: string)
    requires x != "" && !J.Whitespace(x[0])
    ensures J.Skip("\n  " + x) == x && J.Skip(x) == x
  {
    assert "\n  " + x == ['\n'] + ([' '] + ([' '] + x));
    J.Front('\n', [' '] + ([' '] + x));
    J.Front(' ', [' '] + x);
    J.Front(' ', x);
    assert J.Skip([' '] + x) == J.Skip(x);
    assert J.Skip([' '] + ([' '] + x)) == J.Skip([' '] + x);
  }

  lemma SameMembers(a: string, b: string)
    requires J.Skip(a) == J.Skip(b)
    ensures J.ReadMembers(a) == J.ReadMembers(b)
  {
    hide J.ReadMember, J.ReadValue, J.Skip;
    J.SameAfterSkip(a, b);
  }

  lemma {:induction false} ReadsFields(fields: seq<Field>)
    requires fields != [] && CleanKeys(fields)
    ensures J.ReadMembers(FieldsText(fields)) == Some((Members(fields), "\n"))
  {
    hide J.ReadMember, J.ReadValue, FieldsText, CleanKey;
    ReadsField(fields);
    var Field(key, value) := fields[0];
    var a :| J.ReadMember(FieldsText(fields)) == Some((key, a)) && J.ReadValue(a) == Some((J.String(value), Tail(fields)));
    if |fields| == 1 {
      assert Tail(fields) == ['\n'] + (['}'] + "\n");
      J.Front('\n', ['}'] + "\n");
      J.Front('}', "\n");
      J.LastMember(FieldsText(fields), key, a, J.String(value), Tail(fields), "\n");
      assert Members(fields[1..]) == J.Nil;
    } else {
      var next := "\n  " + FieldsText(fields[1..]);
      assert Tail(fields) == [','] + next;
      ReadsFields(fields[1..]);
      ReadsField(fields[1..]);
      SkipLine(FieldsText(fields[1..]));
      SameMembers(next, FieldsText(fields[1..]));
      J.NextMember(FieldsText(fields), key, a, J.String(value), next, Members(fields[1..]), "\n");
    }
  }

  // Every record file is a JSON document of its members, whatever they hold.
  lemma RecordIsDocument(fields: seq<Field>)
    requires fields != [] && CleanKeys(fields)
    ensures J.Read(FileText(fields)) == Some(J.Object(Members(fields)))
  {
    hide J.ReadMembers, FieldsText, CleanKey, Members;
    var body := "\n  " + FieldsText(fields);
    assert FileText(fields) == ['{'] + body;
    ReadsFields(fields);
    ReadsField(fields);
    SkipLine(FieldsText(fields));
    SameMembers(body, FieldsText(fields));
    J.ReadsObject(body, Members(fields), "\n");
    J.Front('\n', "");
    assert ['\n'] + "" == "\n";
  }
}
