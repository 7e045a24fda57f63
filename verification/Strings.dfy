// Text as the C library reads and writes it: case folding, decimal numbers and
// the splitting of strings.

module Strings {

  datatype Option<+T> = None | Some(value: T)

  function HexDigit(d: nat): char
    requires d < 16
  {
    if d < 10 then '0' + d as char else 'a' + (d - 10) as char
  }

  predicate Digit(c: char) {
    '0' <= c <= '9'
  }

  // What StringCchCopy and StringCchPrintf keep of a text in n + 1 characters.
  function Cut(s: string, n: nat): string {
    if |s| <= n then s else s[..n]
  }

  // ---- case folding, as _wcsicmp compares ----

  function FoldChar(c: char): char {
    if 'A' <= c <= 'Z' then c - 'A' + 'a' else c
  }

  function Fold(s: string): (r: string)
    ensures |r| == |s| && forall i :: 0 <= i < |s| ==> r[i] == FoldChar(s[i])
  {
    seq(|s|, i requires 0 <= i < |s| => FoldChar(s[i]))
  }

  // ---- decimal numbers ----

  function Decimal(n: nat): (r: string)
    ensures r != ""
  {
    if n < 10 then [HexDigit(n)] else Decimal(n / 10) + [HexDigit(n % 10)]
  }

  lemma {:induction false} DecimalDigits(n: nat)
    ensures forall i :: 0 <= i < |Decimal(n)| ==> Digit(Decimal(n)[i])
    ensures Decimal(n)[0] == '0' ==> n == 0
  {
    if n >= 10 {
      DecimalDigits(n / 10);
    }
  }

  // The number at the front of s after acc, and what follows it.
  function ReadNumber(s: string, acc: nat): (nat, string) {
    if s == "" || !Digit(s[0]) then (acc, s)
    else ReadNumber(s[1..], 10 * acc + (s[0] as nat - '0' as nat))
  }

  lemma {:induction false} ReadNumberAppend(a: string, b: string, acc: nat)
    requires forall i :: 0 <= i < |a| ==> Digit(a[i])
    ensures ReadNumber(a, acc).1 == ""
    ensures ReadNumber(a + b, acc) == ReadNumber(b, ReadNumber(a, acc).0)
  {
    if a == "" {
      assert a + b == b;
    } else {
      assert (a + b)[1..] == a[1..] + b;
      ReadNumberAppend(a[1..], b, 10 * acc + (a[0] as nat - '0' as nat));
    }
  }

  lemma {:induction false} DecimalValue(n: nat)
    ensures ReadNumber(Decimal(n), 0).0 == n
  {
    if n >= 10 {
      DecimalDigits(n / 10);
      DecimalValue(n / 10);
      ReadNumberAppend(Decimal(n / 10), [HexDigit(n % 10)], 0);
      assert ReadNumber([HexDigit(n % 10)], n / 10).0 == 10 * (n / 10) + n % 10;
    }
  }

  // A printed number is read back, whatever follows it.
  lemma DecimalIsRead(n: nat, rest: string)
    requires rest == "" || !Digit(rest[0])
    ensures ReadNumber(Decimal(n) + rest, 0) == (n, rest)
  {
    DecimalDigits(n);
    DecimalValue(n);
    ReadNumberAppend(Decimal(n), rest, 0);
  }

  const ULONG: nat := 0x1_0000_0000

  // wcstoul in base ten: blanks, a sign, digits; saturating.
  function Wcstoul(s: string): nat {
    if s != "" && (s[0] == ' ' || '\t' <= s[0] <= '\r') then Wcstoul(s[1..])
    else if s != "" && s[0] == '-' then (ULONG - Saturate(ReadNumber(s[1..], 0).0)) % ULONG
    else Saturate(ReadNumber(if s != "" && s[0] == '+' then s[1..] else s, 0).0)
  }

  function Saturate(n: nat): (r: nat)
    ensures r < ULONG
  {
    if n < ULONG then n else ULONG - 1
  }

  lemma WcstoulReads(n: nat)
    requires n < ULONG
    ensures Wcstoul(Decimal(n)) == n
  {
    DecimalDigits(n);
    DecimalIsRead(n, "");
    assert Decimal(n) + "" == Decimal(n) && Digit(Decimal(n)[0]);
  }

  // ---- splitting at '|', as wcschr and wcstok_s do ----

  function Find(s: string, c: char): (k: nat)
    ensures k <= |s| && (k < |s| ==> s[k] == c) && forall i :: 0 <= i < k ==> s[i] != c
  {
    if s == "" || s[0] == c then 0 else 1 + Find(s[1..], c)
  }

  lemma {:induction false} FindPast(a: string, b: string, c: char)
    requires c !in a
    ensures Find(a + b, c) == |a| + Find(b, c)
  {
    if a == "" {
      assert a + b == b;
    } else {
      assert (a + b)[0] == a[0] && a[0] in a && (a + b)[1..] == a[1..] + b;
      FindPast(a[1..], b, c);
    }
  }

  // The first n non-empty pieces.
  function Tokens(s: string, n: nat): (r: seq<string>)
    ensures |r| <= n
    decreases |s|
  {
    if n == 0 || s == "" then []
    else if s[0] == '|' then Tokens(s[1..], n)
    else
      var k := Find(s, '|');
      [s[..k]] + (if k == |s| then [] else Tokens(s[k + 1..], n - 1))
  }

  // A clean piece is the first token.
  lemma TokenFirst(a: string, rest: string, n: nat)
    requires a != "" && '|' !in a && n > 0
    ensures Tokens(a + "|" + rest, n) == [a] + Tokens(rest, n - 1)
    ensures Tokens(a, n) == [a]
  {
    assert a + "|" + rest == a + ("|" + rest);
    assert (a + "|" + rest)[0] == a[0] && a[0] in a;
    FindPast(a, "|" + rest, '|');
    assert (a + "|" + rest)[..|a|] == a && (a + "|" + rest)[|a| + 1..] == rest;
    FindPast(a, "", '|');
    assert a + "" == a && a[..|a|] == a;
  }

  // Every token is a non-empty piece without a bar.
  lemma {:induction false} TokensAreClean(s: string, n: nat)
    ensures forall t :: t in Tokens(s, n) ==> t != "" && '|' !in t
    decreases |s|
  {
    if n > 0 && s != "" {
      if s[0] == '|' {
        TokensAreClean(s[1..], n);
      } else {
        var k := Find(s, '|');
        assert forall i :: 0 <= i < k ==> s[..k][i] == s[i];
        if k < |s| {
          TokensAreClean(s[k + 1..], n - 1);
        }
      }
    }
  }

  // ---- ISO 8601 delays, as the task scheduler keeps them ----

  function IsoDelay(seconds: nat): string {
    "PT" + Decimal(seconds) + "S"
  }

  function IsoSeconds(s: string): nat {
    IsoTotal(if "PT" <= s then s[2..] else s, 0) % ULONG
  }

  // The C code reduces modulo 2^32 at every step; once at the end is the same.
  function IsoTotal(s: string, total: nat): nat
    decreases |s|
  {
    var (n, rest) := ReadNumber(s, 0);
    ReadNumberShorter(s, 0);
    if rest == "" then total
    else if rest[0] == 'H' then IsoTotal(rest[1..], total + 3600 * n)
    else if rest[0] == 'M' then IsoTotal(rest[1..], total + 60 * n)
    else if rest[0] == 'S' then IsoTotal(rest[1..], total + n)
    else total
  }

  lemma {:induction false} ReadNumberShorter(s: string, acc: nat)
    ensures |ReadNumber(s, acc).1| <= |s|
  {
    if s != "" && Digit(s[0]) {
      ReadNumberShorter(s[1..], 10 * acc + (s[0] as nat - '0' as nat));
    }
  }

  // ---- the seconds a duration stands for ----

  datatype Unit = Unit(letter: char, seconds: nat)

  const DAYS: seq<Unit> := [Unit('D', 86400)]
  const TIMES: seq<Unit> := [Unit('H', 3600), Unit('M', 60), Unit('S', 1)]

  // Numbers with units, each unit once and in this order, and what follows.
  function ReadUnits(s: string, units: seq<Unit>): (r: (nat, string))
    decreases |units|
  {
    var (n, rest) := ReadNumber(s, 0);
    if units == [] then (0, s)
    else if |rest| == |s| || rest == "" then (0, s)
    else if rest[0] == units[0].letter then
      var (more, end) := ReadUnits(rest[1..], units[1..]);
      (n * units[0].seconds + more, end)
    else ReadUnits(s, units[1..])
  }

  // P<days>DT<hours>H<minutes>M<seconds>S, the form the task scheduler documents,
  // of which parts may be missing. No text at all is no delay.
  function IsoDuration(s: string): Option<nat> {
    if s == "" then Some(0)
    else if s[0] != 'P' || s == "P" then None
    else
      var (days, t) := ReadUnits(s[1..], DAYS);
      if t == "" then Some(days)
      else if t[0] != 'T' || t == "T" then None
      else
        var (seconds, end) := ReadUnits(t[1..], TIMES);
        if end == "" then Some(days + seconds) else None
  }

  predicate TimeUnits(units: seq<Unit>) {
    forall i :: 0 <= i < |units| ==> units[i] in TIMES
  }

  // Hours, minutes and seconds the C code reads in full.
  lemma {:induction false} TimesAreRead(s: string, units: seq<Unit>, total: nat)
    requires TimeUnits(units) && ReadUnits(s, units).1 == ""
    ensures IsoTotal(s, total) == total + ReadUnits(s, units).0
    decreases |units|
  {
    var (n, rest) := ReadNumber(s, 0);
    if units == [] || |rest| == |s| || rest == "" {
      assert s == "";
    } else if rest[0] == units[0].letter {
      assert units[0] in TIMES;
      TimesAreRead(rest[1..], units[1..], total + n * units[0].seconds);
    } else {
      TimesAreRead(s, units[1..], total);
    }
  }

  // A duration is read in full exactly when it has no days and fits 32 bits, or is
  // none at all.
  lemma ReadsInFull(s: string)
    requires IsoDuration(s).Some?
    ensures IsoSeconds(s) == IsoDuration(s).value
       <==> IsoDuration(s).value == 0 || ("PT" <= s && IsoDuration(s).value < ULONG)
  {
    if "PT" <= s {
      assert ReadNumber(s[1..], 0) == (0, s[1..]);
      assert ReadUnits(s[1..], DAYS) == (0, s[1..]);
      assert s[1..][1..] == s[2..];
      TimesAreRead(s[2..], TIMES, 0);
    } else if s != "" {
      assert ReadNumber(s, 0) == (0, s);
    }
  }

  // What is written stands for what was meant.
  lemma DelayStandsFor(seconds: nat)
    ensures IsoDuration(IsoDelay(seconds)) == Some(seconds)
  {
    var s := IsoDelay(seconds);
    var t := Decimal(seconds) + "S";
    assert s == "PT" + t && s[1..] == "T" + t && s[1..][1..] == t;
    assert ReadNumber(s[1..], 0) == (0, s[1..]);
    assert ReadUnits(s[1..], DAYS) == (0, s[1..]);
    DecimalIsRead(seconds, "S");
    assert "S"[1..] == "";
    assert ReadUnits(t, TIMES) == ReadUnits(t, TIMES[1..]) == ReadUnits(t, TIMES[2..]);
    assert TIMES[2..] == [Unit('S', 1)];
    assert ReadUnits("", TIMES[2..][1..]) == (0, "");
  }

  // A day is taken for nothing.
  lemma DaysAreNotRead()
    ensures IsoDuration("P1D") == Some(86400) && IsoSeconds("P1D") == 0
  {
    assert "P1D"[1..] == "1D" && "1D"[1..] == "D" && "D"[1..] == "";
    assert ReadNumber("D", 1) == (1, "D");
    assert ReadNumber("1D", 0) == (1, "D");
    assert ReadUnits("", []) == (0, "");
    assert ReadUnits("1D", DAYS) == (86400, "");
    assert ReadNumber("P1D", 0) == (0, "P1D");
  }

  // A delay that is set is the delay that is read.
  lemma IsoReads(seconds: nat)
    requires seconds < ULONG
    ensures IsoSeconds(IsoDelay(seconds)) == seconds
  {
    DecimalIsRead(seconds, "S");
    var s := Decimal(seconds) + "S";
    assert IsoDelay(seconds) == "PT" + s && ("PT" + s)[2..] == s;
    assert "S"[1..] == "" && ReadNumber("", 0) == (0, "");
    assert IsoTotal("", seconds) == seconds;
  }
}
