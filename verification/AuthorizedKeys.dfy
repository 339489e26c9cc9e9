/**
 The control station's entry in `authorized_keys` (control_station_lite/agent/cli/cmd_init.py).
 */
module AuthorizedKeys {
  import opened Sequences
  import opened Text

  /** The public key line and the base64 blob in it that identifies the key. */
  datatype Key = Key(line: string, body: string) {
    ghost predicate Valid() { NoBreak(line) && Contains(line, body) }
  }

  predicate Digits(s: string) {
    s != "" && forall i :: 0 <= i < |s| ==> '0' <= s[i] <= '9'
  }

  function Digit(n: nat): (c: char)
    requires n < 10
    ensures '0' <= c <= '9'
  {
    "0123456789"[n]
  }

  function Decimal(n: nat): (s: string)
    ensures Digits(s)
  {
    if n < 10 then [Digit(n)] else Decimal(n / 10) + [Digit(n % 10)]
  }

  /** The number that digits stand for. */
  function Value(s: string): nat
    requires Digits(s)
  {
    (if |s| == 1 then 0 else 10 * Value(s[..|s| - 1])) + (s[|s| - 1] as int - '0' as int)
  }

  /** No more digits than it takes. */
  predicate Plain(s: string) {
    Digits(s) && (s[0] == '0' ==> |s| == 1)
  }

  lemma DigitReads(n: nat)
    requires n < 10
    ensures Digit(n) as int - '0' as int == n
  {
  }

  /** A number written down reads as itself. */
  lemma {:induction false} DecimalReadsBack(n: nat)
    ensures Plain(Decimal(n)) && Value(Decimal(n)) == n
    ensures |Decimal(n)| == 1 <==> n < 10
  {
    DigitReads(n % 10);
    if n >= 10 {
      DecimalReadsBack(n / 10);
      assert Decimal(n)[..|Decimal(n)| - 1] == Decimal(n / 10);
    }
  }

  /** And there is no other way to write it. */
  lemma {:induction false} OneWayToWrite(s: string, t: string)
    requires Plain(s) && Plain(t) && Value(s) == Value(t)
    ensures s == t
    decreases |s|
  {
    var a, b := s[..|s| - 1], t[..|t| - 1];
    assert s == a + [s[|s| - 1]] && t == b + [t[|t| - 1]];
    if |s| > 1 && |t| > 1 {
      OneWayToWrite(a, b);
    } else if |s| > 1 {
      LeadingDigitCounts(a);
    } else if |t| > 1 {
      LeadingDigitCounts(b);
    }
  }

  lemma {:induction false} LeadingDigitCounts(s: string)
    requires Digits(s) && s[0] != '0'
    ensures Value(s) > 0
  {
    if |s| > 1 { LeadingDigitCounts(s[..|s| - 1]); }
  }

  lemma DecimalInjective(m: nat, n: nat)
    requires Decimal(m) == Decimal(n)
    ensures m == n
  {
    DecimalReadsBack(m);
    DecimalReadsBack(n);
  }

  function Before(exe: string): string {
    "command=\"" + exe + (" ssh-gateway\"," + "restrict," + "port-forwarding," + "permitopen=\"" + "127.0.0.1:")
  }

  function BuildEntry(exe: string, key: Key, port: nat): string {
    Before(exe) + Decimal(port) + ("\" " + key.line)
  }

  function Others(lines: seq<string>, body: string): seq<string> {
    if lines == [] then []
    else (if Contains(lines[0], body) then [] else [lines[0]]) + Others(lines[1..], body)
  }

  /** The file after one `init`; an absent file counts as empty. */
  function Rewrite(text: string, exe: string, key: Key, port: nat): string {
    Unlines(Others(SplitLines(text), key.body) + [BuildEntry(exe, key, port)])
  }

  lemma {:induction false} OthersAppend(a: seq<string>, b: seq<string>, body: string)
    ensures Others(a + b, body) == Others(a, body) + Others(b, body)
  {
    if a == [] {
      assert a + b == b;
    } else {
      assert (a + b)[1..] == a[1..] + b;
      OthersAppend(a[1..], b, body);
    }
  }

  lemma OthersOfOne(line: string, body: string)
    ensures Others([line], body) == if Contains(line, body) then [] else [line]
  {
    assert Others([line][1..], body) == [];
  }

  lemma OneMoreLine(lines: seq<string>, i: nat, body: string)
    requires i < |lines|
    ensures Others(lines[..i + 1], body)
            == Others(lines[..i], body) + (if Contains(lines[i], body) then [] else [lines[i]])
  {
    assert lines[..i + 1] == lines[..i] + [lines[i]];
    OthersAppend(lines[..i], [lines[i]], body);
    OthersOfOne(lines[i], body);
  }

  /** `key_body in line`. */
  method Mentions(line: string, body: string) returns (found: bool)
    ensures found <==> Contains(line, body)
  {
    for i := 0 to |line| + 1
      invariant forall j :: 0 <= j < i ==> !(body <= line[j..])
    {
      if body <= line[i..] {
        return true;
      }
    }
    return false;
  }

  method AppendAuthorizedKeys(text: string, exe: string, key: Key, port: nat) returns (text': string, upgraded: bool)
    ensures text' == Rewrite(text, exe, key, port)
    ensures upgraded <==> exists i :: 0 <= i < |SplitLines(text)| && Contains(SplitLines(text)[i], key.body)
  {
    var existing := SplitLines(text);
    var kept := [];
    for i := 0 to |existing|
      invariant kept == Others(existing[..i], key.body)
      invariant |kept| <= i
      invariant |kept| == i <==> forall j :: 0 <= j < i ==> !Contains(existing[j], key.body)
    {
      OneMoreLine(existing, i, key.body);
      var found := Mentions(existing[i], key.body);
      if !found {
        kept := kept + [existing[i]];
      }
    }
    assert existing[..|existing|] == existing;
    upgraded := |kept| != |existing|;
    kept := kept + [BuildEntry(exe, key, port)];
    text' := Unlines(kept);
  }

  lemma ContainsAfter(head: string, line: string, body: string)
    requires Contains(line, body)
    ensures Contains(head + line, body)
  {
    var i :| 0 <= i <= |line| && body <= line[i..];
    assert (head + line)[|head| + i..] == line[i..];
  }

  lemma NoBreakAppend(a: string, b: string)
    requires NoBreak(a) && NoBreak(b)
    ensures NoBreak(a + b)
  {
  }

  lemma DigitsAreUnbroken(s: string)
    requires Digits(s)
    ensures NoBreak(s)
  {
    forall i | 0 <= i < |s| ensures !IsBreak(s[i]) { Printable(s[i]); }
  }

  lemma OptionsUnbroken(exe: string)
    requires NoBreak(exe)
    ensures NoBreak(Before(exe))
  {
    var a, b, c := "command=\"", " ssh-gateway\",", "restrict,";
    var d, e, f := "port-forwarding,", "permitopen=\"", "127.0.0.1:";
    PrintableText(a); PrintableText(b); PrintableText(c); PrintableText(d); PrintableText(e); PrintableText(f);
    NoBreakAppend(a, exe);
    NoBreakAppend(b, c); NoBreakAppend(b + c, d); NoBreakAppend(b + c + d, e); NoBreakAppend(b + c + d + e, f);
    NoBreakAppend(a + exe, b + c + d + e + f);
  }

  lemma EntryShape(exe: string, key: Key, port: nat)
    requires NoBreak(exe) && key.Valid()
    ensures NoBreak(BuildEntry(exe, key, port)) && Contains(BuildEntry(exe, key, port), key.body)
  {
    var c := "\" ";
    PrintableText(c); DigitsAreUnbroken(Decimal(port));
    OptionsUnbroken(exe);
    NoBreakAppend(Before(exe), Decimal(port));
    NoBreakAppend(c, key.line);
    NoBreakAppend(Before(exe) + Decimal(port), c + key.line);
    ContainsAfter(c, key.line, key.body);
    ContainsAfter(Before(exe) + Decimal(port), c + key.line, key.body);
  }

  /** The entry, character by character, with the port written as anybody would write it. */
  lemma EntryIs(exe: string, key: Key, port: nat, written: string)
    requires Plain(written) && Value(written) == port
    ensures BuildEntry(exe, key, port) ==
      "command=\"" + exe + (" ssh-gateway\"," + "restrict," + "port-forwarding," + "permitopen=\"" + "127.0.0.1:")
      + written + ("\" " + key.line)
  {
    DecimalReadsBack(port);
    OneWayToWrite(written, Decimal(port));
  }

  /** Different ports make different entries. */
  lemma EntryTellsPort(exe: string, key: Key, p: nat, q: nat)
    requires BuildEntry(exe, key, p) == BuildEntry(exe, key, q)
    ensures p == q
  {
    Middle(Before(exe), Decimal(p), "\" " + key.line, Decimal(q));
    DecimalInjective(p, q);
  }

  function Inits(text: string, exe: string, key: Key, ports: seq<nat>): string
    decreases |ports|
  {
    if ports == [] then text
    else Rewrite(Inits(text, exe, key, ports[..|ports| - 1]), exe, key, ports[|ports| - 1])
  }

  lemma {:induction false} OthersTwice(lines: seq<string>, body: string)
    ensures Others(Others(lines, body), body) == Others(lines, body)
  {
    if lines != [] {
      OthersTwice(lines[1..], body);
      var x, rest := lines[0], Others(lines[1..], body);
      OthersAppend([x], rest, body);
      OthersOfOne(x, body);
      assert Others(lines, body) == (if Contains(x, body) then [] else [x]) + rest;
      assert [] + rest == rest;
    }
  }

  /** What is kept is what does not mention the key, and nothing else is dropped. */
  lemma {:induction false} OthersKept(lines: seq<string>, body: string, s: string)
    ensures s in Others(lines, body) <==> s in lines && !Contains(s, body)
  {
    if lines != [] {
      var x, rest := lines[0], lines[1..];
      OthersKept(rest, body, s);
      assert lines == [x] + rest;
      InFirst(s, x, rest);
      InFirst(s, x, Others(rest, body));
      assert Others(lines, body) == if Contains(x, body) then Others(rest, body) else [x] + Others(rest, body);
    }
  }

  lemma OthersUnbroken(lines: seq<string>, body: string)
    requires AllNoBreak(lines)
    ensures AllNoBreak(Others(lines, body))
  {
    forall i | 0 <= i < |Others(lines, body)| ensures NoBreak(Others(lines, body)[i]) {
      OthersKept(lines, body, Others(lines, body)[i]);
    }
  }

  lemma RewrittenLines(text: string, exe: string, key: Key, port: nat)
    requires NoBreak(exe) && key.Valid()
    ensures SplitLines(Rewrite(text, exe, key, port))
            == Others(SplitLines(text), key.body) + [BuildEntry(exe, key, port)]
  {
    LinesHaveNoBreaks("", text);
    OthersUnbroken(SplitLines(text), key.body);
    EntryShape(exe, key, port);
    SplitUnlines(Others(SplitLines(text), key.body) + [BuildEntry(exe, key, port)]);
  }

  lemma OthersOfRewritten(lines: seq<string>, entry: string, body: string)
    requires Contains(entry, body)
    ensures Others(Others(lines, body) + [entry], body) == Others(lines, body)
  {
    OthersAppend(Others(lines, body), [entry], body);
    OthersTwice(lines, body);
    OthersOfOne(entry, body);
  }

  /**
   After any number of inits with any ports, the file consists of the lines of the original file
   that do not mention the key, in order, followed by a single entry for it with the latest port.
   */
  lemma {:induction false} OneEntryAfterInits(text: string, exe: string, key: Key, ports: seq<nat>)
    requires NoBreak(exe) && key.Valid() && ports != []
    ensures
      var entry := BuildEntry(exe, key, ports[|ports| - 1]);
      && SplitLines(Inits(text, exe, key, ports)) == Others(SplitLines(text), key.body) + [entry]
      && Contains(entry, key.body)
      && (forall s :: s in Others(SplitLines(text), key.body)
                      <==> s in SplitLines(text) && !Contains(s, key.body))
    decreases |ports|
  {
    var m := |ports| - 1;
    EntryShape(exe, key, ports[m]);
    RewrittenLines(Inits(text, exe, key, ports[..m]), exe, key, ports[m]);
    forall s { OthersKept(SplitLines(text), key.body, s); }
    if m > 0 {
      OneEntryAfterInits(text, exe, key, ports[..m]);
      OthersOfRewritten(SplitLines(text), BuildEntry(exe, key, ports[m - 1]), key.body);
    }
  }

  /** Running `init` again with the same port leaves the text as it is, byte for byte. */
  lemma RerunIsIdentity(text: string, exe: string, key: Key, port: nat)
    requires NoBreak(exe) && key.Valid()
    ensures Rewrite(Rewrite(text, exe, key, port), exe, key, port) == Rewrite(text, exe, key, port)
  {
    RewrittenLines(text, exe, key, port);
    EntryShape(exe, key, port);
    OthersOfRewritten(SplitLines(text), BuildEntry(exe, key, port), key.body);
  }
}
