/**
 Server-sent events: what the agent prints (control_station_lite/agent/log_stream.py) and what
 the control station reads (control_station_lite/server/core/agent_client.py) and prints again
 (control_station_lite/server/api/jobs.py).  Framing as in section 9.2 of the HTML standard.
 */
module ServerSentEvents {
  import opened Sequences
  import opened Text

  const DATA := "data:"
  const DONE := "event: done\ndata: \n\n"

  function Event(line: string): string {
    "data: " + line + "\n\n"
  }

  function Print(lines: seq<string>): string {
    if lines == [] then "" else Event(lines[0]) + Print(lines[1..])
  }

  /** The agent's stream: one event per line, then the final event. */
  function SseEvents(lines: seq<string>): string {
    Print(lines) + DONE
  }

  /** The bytes on the wire, as section 9.2 of the HTML standard frames them. */
  lemma OnTheWire(first: string, second: string)
    ensures SseEvents([]) == "event: done\ndata: \n\n"
    ensures SseEvents([first, second])
            == "data: " + first + "\n\n" + "data: " + second + "\n\n" + "event: done\ndata: \n\n"
  {
    assert [first, second][1..] == [second] && [second][1..] == [];
    assert Print([]) == "" && Print([second]) == Event(second) + "";
    assert Print([first, second]) == Event(first) + Print([second]);
  }

  function Payloads(lines: seq<string>): seq<string> {
    if lines == [] then []
    else (if DATA <= lines[0] then [Strip(lines[0][5..])] else []) + Payloads(lines[1..])
  }

  /** The client: the payload of every `data:` line, stripped. */
  function StreamLogs(text: string): seq<string> {
    Payloads(SplitLines(text))
  }

  function StripAll(lines: seq<string>): (r: seq<string>)
    ensures |r| == |lines|
  {
    if lines == [] then [] else [Strip(lines[0])] + StripAll(lines[1..])
  }

  lemma {:induction false} PayloadsAppend(a: seq<string>, b: seq<string>)
    ensures Payloads(a + b) == Payloads(a) + Payloads(b)
  {
    if a == [] {
      assert a + b == b;
    } else {
      assert (a + b)[1..] == a[1..] + b;
      PayloadsAppend(a[1..], b);
    }
  }

  lemma PayloadsOfFirst(line: string, rest: seq<string>)
    ensures Payloads([line] + rest) == (if DATA <= line then [Strip(line[5..])] else []) + Payloads(rest)
  {
    assert ([line] + rest)[1..] == rest;
  }

  lemma OnePayload(line: string)
    ensures Payloads([line]) == if DATA <= line then [Strip(line[5..])] else []
  {
    assert [line] + [] == [line];
    PayloadsOfFirst(line, []);
  }

  lemma OneMorePayload(lines: seq<string>, i: nat)
    requires i < |lines|
    ensures Payloads(lines[..i + 1])
            == Payloads(lines[..i]) + (if DATA <= lines[i] then [Strip(lines[i][5..])] else [])
  {
    assert lines[..i + 1] == lines[..i] + [lines[i]];
    PayloadsAppend(lines[..i], [lines[i]]);
    OnePayload(lines[i]);
  }

  /** The generator loop of `stream_logs`. */
  method ReadStream(text: string) returns (yielded: seq<string>)
    ensures yielded == StreamLogs(text)
  {
    var lines := SplitLines(text);
    yielded := [];
    for i := 0 to |lines|
      invariant yielded == Payloads(lines[..i])
    {
      var line := lines[i];
      OneMorePayload(lines, i);
      if DATA <= line {
        yielded := yielded + [Strip(line[5..])];
      }
    }
    assert lines[..|lines|] == lines;
  }

  // ---------------------------------------------------------------------------------------
  // One event
  // ---------------------------------------------------------------------------------------

  /** Events are read independently of what follows. */
  lemma EventAlone(line: string, rest: string)
    ensures StreamLogs(Event(line) + rest) == StreamLogs(Event(line)) + StreamLogs(rest)
  {
    var a := "data: " + line + "\n";
    assert Event(line) == a + "\n" && Event(line) + rest == a + "\n" + rest;
    ScanAtNewline("", a, rest);
    PayloadsAppend(SplitLines(a + "\n"), SplitLines(rest));
  }

  lemma StripBlank(s: string)
    ensures Strip(" " + s) == Strip(s)
  {
    var b := TrimEnd(s, |s|);
    var a := TrimStart(s, 0, b);
    var t := " " + s;
    Printable(' ');
    assert forall i :: 0 < i < |t| ==> t[i] == s[i - 1];
    StripIs(t, a + 1, b + 1);
    assert t[a + 1..b + 1] == s[a..b];
  }

  lemma DataLine(head: string)
    requires NoBreak(head)
    ensures NoBreak("data: " + head) && DATA <= "data: " + head
    ensures Strip(("data: " + head)[5..]) == Strip(head)
  {
    PrintableText("data: ");
    assert ("data: " + head)[5..] == " " + head;
    StripBlank(head);
  }

  /** The first payload of an event is its line up to the first break; the rest is read on its own. */
  lemma EventHead(line: string, k: nat) returns (rest: string)
    requires k == BreakAt(line)
    ensures StreamLogs(Event(line)) == [Strip(line[..k])] + StreamLogs(rest)
    ensures AllSpace(line, k) ==> AllSpace(rest, 0)
  {
    var first, tail := "data: " + line[..k], line[k..] + "\n\n";
    DataLine(line[..k]);
    EventParts(line, k);
    ScanPlain("", first, tail);
    assert "" + first == first;
    assert IsBreak(tail[0]) by { if k == |line| { assert tail == "\n\n"; } }
    rest := tail[BreakLength(tail)..];
    PayloadsOfFirst(first, SplitLines(rest));
    if AllSpace(line, k) { SpaceTail(line, k, BreakLength(tail)); }
  }

  lemma EventParts(line: string, k: nat)
    requires k <= |line|
    ensures Event(line) == ("data: " + line[..k]) + (line[k..] + "\n\n")
  {
    assert line == line[..k] + line[k..];
  }

  lemma SpaceTail(line: string, k: nat, w: nat)
    requires k <= |line| && AllSpace(line, k) && w <= |line[k..] + "\n\n"|
    ensures AllSpace((line[k..] + "\n\n")[w..], 0)
  {
    var tail := line[k..] + "\n\n";
    assert forall i :: 0 <= i < |tail| ==> tail[i] == '\n' || (i < |line| - k && tail[i] == line[k + i]);
  }

  predicate AllSpace(s: string, a: nat) {
    forall i :: a <= i < |s| ==> IsSpace(s[i])
  }

  lemma SpaceIsNoData(s: string)
    requires AllSpace(s, 0)
    ensures !(DATA <= s)
  {
    Printable('d');
    assert DATA[0] == 'd';
  }

  lemma {:induction false} SpacesCarryNothing(current: string, s: string)
    requires AllSpace(current, 0) && AllSpace(s, 0)
    ensures Payloads(Scan(current, s)) == []
    decreases |s|
  {
    SpaceIsNoData(current);
    if s == "" {
      if current != "" { OnePayload(current); }
    } else if IsBreak(s[0]) {
      var rest := s[BreakLength(s)..];
      assert AllSpace(rest, 0);
      SpacesCarryNothing("", rest);
      PayloadsOfFirst(current, SplitLines(rest));
    } else {
      SpacesCarryNothing(current + [s[0]], s[1..]);
    }
  }

  /** No line break is left in `line` once trailing space is gone. */
  predicate Faithful(line: string) {
    forall i :: 0 <= i < TrimEnd(line, |line|) ==> !IsBreak(line[i])
  }

  lemma FaithfulByLength(line: string)
    ensures Faithful(line) <==> TrimEnd(line, |line|) <= BreakAt(line)
  {
    var k := BreakAt(line);
    if k < TrimEnd(line, |line|) {
      assert IsBreak(line[k]);
    }
  }

  lemma StripOfPrefix(s: string, k: nat, a: nat, b: nat)
    requires a <= b <= k <= |s|
    requires forall i :: 0 <= i < a || b <= i < k ==> IsSpace(s[i])
    requires a < b ==> !IsSpace(s[a]) && !IsSpace(s[b - 1])
    ensures Strip(s[..k]) == s[a..b]
  {
    var t := s[..k];
    forall i | 0 <= i < a || b <= i < k ensures IsSpace(t[i]) { assert t[i] == s[i]; }
    StripIs(t, a, b);
    SliceOfPrefix(s, k, a, b);
  }

  /** Where the visible part of a text begins and ends. */
  lemma Visible(s: string) returns (a: nat, b: nat)
    ensures a <= b <= |s| && b == TrimEnd(s, |s|) && Strip(s) == s[a..b]
    ensures forall i :: 0 <= i < a || b <= i < |s| ==> IsSpace(s[i])
    ensures a < b ==> !IsSpace(s[a]) && !IsSpace(s[b - 1])
    ensures 0 < b ==> a < b
  {
    b := TrimEnd(s, |s|);
    a := TrimStart(s, 0, b);
    assert 0 < b ==> !IsSpace(s[b - 1]);
  }

  /** Cutting trailing space off does not matter to `strip`. */
  lemma StripCut(line: string, k: nat)
    requires TrimEnd(line, |line|) <= k <= |line|
    ensures Strip(line[..k]) == Strip(line)
  {
    var a, b := Visible(line);
    StripOfPrefix(line, k, a, b);
  }

  lemma BreakInside(line: string, part: string, a: nat, b: nat, k: nat)
    requires a <= k < b <= |line| && part == line[a..b] && IsBreak(line[k])
    ensures !NoBreak(part)
  {
    assert part[k - a] == line[k];
  }

  /** Cutting anything visible off does. */
  lemma StripCutVisible(line: string, k: nat)
    requires k < TrimEnd(line, |line|) && IsBreak(line[k])
    requires forall i :: 0 <= i < k ==> !IsBreak(line[i])
    ensures Strip(line[..k]) != Strip(line)
  {
    var a, b := Visible(line);
    if a <= k {
      BreakInside(line, Strip(line), a, b, k);
      NoBreakInStrip(line[..k]);
    } else {
      StripOfPrefix(line, k, k, k);
      assert |Strip(line[..k])| == 0 && |Strip(line)| == b - a;
    }
  }

  lemma NoBreakInStrip(s: string)
    requires NoBreak(s)
    ensures NoBreak(Strip(s))
  {
    var b := TrimEnd(s, |s|);
    var a := TrimStart(s, 0, b);
    assert forall i :: 0 <= i < |Strip(s)| ==> Strip(s)[i] == s[a + i];
  }

  /** An event carries its line exactly when the line is faithful. */
  lemma EventFaithful(line: string)
    ensures |StreamLogs(Event(line))| >= 1
    ensures StreamLogs(Event(line)) == [Strip(line)] <==> Faithful(line)
  {
    var k := BreakAt(line);
    var rest := EventHead(line, k);
    FaithfulByLength(line);
    if TrimEnd(line, |line|) <= k {
      StripCut(line, k);
      SpacesCarryNothing("", rest);
    } else {
      StripCutVisible(line, k);
      assert StreamLogs(Event(line))[0] == Strip(line[..k]);
    }
  }

  // ---------------------------------------------------------------------------------------
  // Streams
  // ---------------------------------------------------------------------------------------

  /** No line has a line break before its last visible character. */
  predicate AllFaithful(lines: seq<string>) {
    forall i :: 0 <= i < |lines| ==> Faithful(lines[i])
  }

  lemma FaithfulFirst(lines: seq<string>)
    requires lines != []
    ensures AllFaithful(lines) <==> Faithful(lines[0]) && AllFaithful(lines[1..])
  {
    if AllFaithful(lines[1..]) && Faithful(lines[0]) {
      forall i | 0 <= i < |lines| ensures Faithful(lines[i]) {
        if i > 0 { assert lines[i] == lines[1..][i - 1]; }
      }
    }
  }

  lemma {:induction false} PrintedPayloads(lines: seq<string>, rest: string)
    ensures |StreamLogs(Print(lines) + rest)| >= |lines| + |StreamLogs(rest)|
    ensures StreamLogs(Print(lines) + rest) == StripAll(lines) + StreamLogs(rest) <==> AllFaithful(lines)
  {
    if lines == [] {
      assert Print(lines) + rest == rest;
    } else {
      var later := Print(lines[1..]) + rest;
      assert Print(lines) + rest == Event(lines[0]) + later;
      EventAlone(lines[0], later);
      EventFaithful(lines[0]);
      PrintedPayloads(lines[1..], rest);
      Associate([Strip(lines[0])], StripAll(lines[1..]), StreamLogs(rest));
      SameFrom(StreamLogs(Event(lines[0])), Strip(lines[0]), StreamLogs(later), StripAll(lines[1..]) + StreamLogs(rest));
      FaithfulFirst(lines);
    }
  }

  lemma FinalEvent()
    ensures StreamLogs(DONE) == [""]
  {
    var name := "event: done";
    assert DONE == name + "\n" + Event("");
    PrintableText(name);
    SplitFirstLine(name, Event(""));
    PayloadsOfFirst(name, SplitLines(Event("")));
    assert Faithful("") && Strip("") == "";
    EventFaithful("");
  }

  /**
   Printer and parser undo each other: the client receives every line stripped, in order, and one
   empty payload for the final event, exactly when no line contains a line break other than in
   trailing white space.  Lines may begin with "data:" or "event:".
   */
  lemma ParserUndoesPrinter(lines: seq<string>)
    ensures StreamLogs(SseEvents(lines)) == StripAll(lines) + [""] <==> AllFaithful(lines)
  {
    PrintedPayloads(lines, DONE);
    FinalEvent();
  }

  predicate Clean(s: string) {
    NoBreak(s) && Strip(s) == s
  }

  predicate AllClean(lines: seq<string>) {
    forall i :: 0 <= i < |lines| ==> Clean(lines[i])
  }

  lemma StripIsClean(s: string)
    requires NoBreak(s)
    ensures Clean(Strip(s))
  {
    NoBreakInStrip(s);
    var t := Strip(s);
    StripIs(t, 0, |t|);
    assert t[0..|t|] == t;
  }

  lemma {:induction false} PayloadsAreClean(lines: seq<string>)
    requires AllNoBreak(lines)
    ensures AllClean(Payloads(lines))
  {
    if lines != [] {
      assert NoBreak(lines[0]) && AllNoBreak(lines[1..]);
      PayloadsAreClean(lines[1..]);
      if DATA <= lines[0] {
        StripIsClean(lines[0][5..]);
      }
    }
  }

  lemma {:induction false} CleanStays(lines: seq<string>)
    requires AllClean(lines)
    ensures StripAll(lines) == lines && AllFaithful(lines)
  {
    if lines != [] {
      assert Clean(lines[0]) && AllClean(lines[1..]);
      CleanStays(lines[1..]);
      assert Faithful(lines[0]);
      FaithfulFirst(lines);
    }
  }

  /** Whatever the client hands on survives a second hop unchanged. */
  lemma SecondHopIsExact(text: string)
    ensures StreamLogs(Print(StreamLogs(text))) == StreamLogs(text)
  {
    var lines := StreamLogs(text);
    LinesHaveNoBreaks("", text);
    PayloadsAreClean(SplitLines(text));
    CleanStays(lines);
    PrintedPayloads(lines, "");
    assert Print(lines) + "" == Print(lines);
    assert StreamLogs("") == [] && StripAll(lines) + [] == lines;
  }
}
