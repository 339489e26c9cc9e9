/** Text as Python's `str` methods see it: line breaks and white space. */
module Text {
  import opened Sequences

  predicate Among(c: char, cs: string, i: nat)
    decreases |cs| - i
  {
    i < |cs| && (c == cs[i] || Among(c, cs, i + 1))
  }

  /** The characters at which `str.splitlines` breaks a line. */
  const BREAKS := "\n\r\U{0B}\U{0C}\U{1C}\U{1D}\U{1E}\U{85}\U{2028}\U{2029}"

  /** The further characters that `str.strip` removes. */
  const BLANKS := " \t\U{1F}\U{A0}\U{1680}\U{202F}\U{205F}\U{3000}"

  predicate IsBreak(c: char) {
    Among(c, BREAKS, 0)
  }

  predicate IsSpace(c: char) {
    IsBreak(c) || Among(c, BLANKS, 0) || '\U{2000}' <= c <= '\U{200A}'
  }

  lemma {:induction false} NotAmong(c: char, cs: string, i: nat)
    requires forall j :: i <= j < |cs| ==> cs[j] != c
    ensures !Among(c, cs, i)
    decreases |cs| - i
  {
    if i < |cs| { NotAmong(c, cs, i + 1); }
  }

  lemma {:induction false} AmongIs(c: char, cs: string, i: nat)
    ensures Among(c, cs, i) <==> exists j :: i <= j < |cs| && cs[j] == c
    decreases |cs| - i
  {
    if i < |cs| { AmongIs(c, cs, i + 1); }
  }

  /** The line breaks, by their code points. */
  lemma BreaksAre(c: char)
    ensures IsBreak(c) <==>
            '\n' <= c <= '\r' || '\U{1C}' <= c <= '\U{1E}' || c == '\U{85}' || '\U{2028}' <= c <= '\U{2029}'
  {
    AmongIs(c, BREAKS, 0);
    assert BREAKS[0] == '\n' && BREAKS[1] == '\r' && BREAKS[2] == '\U{0B}' && BREAKS[3] == '\U{0C}';
    assert BREAKS[4] == '\U{1C}' && BREAKS[5] == '\U{1D}' && BREAKS[6] == '\U{1E}' && BREAKS[7] == '\U{85}';
    assert BREAKS[8] == '\U{2028}' && BREAKS[9] == '\U{2029}';
  }

  /** White space, by its code points: the line breaks and some more. */
  lemma SpacesAre(c: char)
    ensures IsSpace(c) <==>
            || '\t' <= c <= '\r' || '\U{1C}' <= c <= ' ' || c == '\U{85}' || c == '\U{A0}' || c == '\U{1680}'
            || '\U{2000}' <= c <= '\U{200A}' || '\U{2028}' <= c <= '\U{2029}' || c == '\U{202F}' || c == '\U{205F}'
            || c == '\U{3000}'
  {
    BreaksAre(c);
    AmongIs(c, BLANKS, 0);
    assert BLANKS[0] == ' ' && BLANKS[1] == '\t' && BLANKS[2] == '\U{1F}' && BLANKS[3] == '\U{A0}';
    assert BLANKS[4] == '\U{1680}' && BLANKS[5] == '\U{202F}' && BLANKS[6] == '\U{205F}' && BLANKS[7] == '\U{3000}';
  }

  /** Printable ASCII never breaks a line, and only the blank among it is space. */
  lemma Printable(c: char)
    requires ' ' <= c <= '~'
    ensures !IsBreak(c) && (IsSpace(c) <==> c == ' ')
  {
    NotAmong(c, BREAKS, 0);
    if c != ' ' { NotAmong(c, BLANKS, 0); }
  }

  predicate NoBreak(s: string) {
    forall i :: 0 <= i < |s| ==> !IsBreak(s[i])
  }

  lemma PrintableText(s: string)
    requires forall i :: 0 <= i < |s| ==> ' ' <= s[i] <= '~'
    ensures NoBreak(s)
  {
    forall i | 0 <= i < |s| ensures !IsBreak(s[i]) { Printable(s[i]); }
  }

  // ---------------------------------------------------------------------------------------
  // Lines
  // ---------------------------------------------------------------------------------------

  /** How many characters the break at the start of `s` takes; `\r\n` is one break. */
  function BreakLength(s: string): (w: nat)
    requires s != ""
    ensures 1 <= w <= 2 && w <= |s|
  {
    if s[0] == '\r' && |s| > 1 && s[1] == '\n' then 2 else 1
  }

  /** The lines of `current + s`, where `current` is the part of the present line already read. */
  function Scan(current: string, s: string): seq<string>
    decreases |s|
  {
    if s == "" then (if current == "" then [] else [current])
    else if IsBreak(s[0]) then [current] + Scan("", s[BreakLength(s)..])
    else Scan(current + [s[0]], s[1..])
  }

  /** `str.splitlines()`. */
  function SplitLines(s: string): seq<string> {
    Scan("", s)
  }

  /** Characters up to the first break join the present line. */
  lemma {:induction false} ScanPlain(current: string, head: string, tail: string)
    requires NoBreak(head)
    ensures Scan(current, head + tail) == Scan(current + head, tail)
    decreases |head|
  {
    if head == "" {
      assert head + tail == tail && current + head == current;
    } else {
      assert (head + tail)[0] == head[0] && (head + tail)[1..] == head[1..] + tail;
      assert forall i :: 0 <= i < |head[1..]| ==> head[1..][i] == head[i + 1];
      ScanPlain(current + [head[0]], head[1..], tail);
      assert current + [head[0]] + head[1..] == current + head;
    }
  }

  lemma BreakThere(a: string, rest: string)
    requires a != "" && IsBreak(a[0])
    ensures
      var s, t := a + "\n" + rest, a + "\n";
      var w := BreakLength(t);
      && BreakLength(s) == w
      && (if w <= |a| then s[w..] == a[w..] + "\n" + rest && t[w..] == a[w..] + "\n"
          else s[w..] == rest && t[w..] == "")
  {
  }

  /** Text is split independently before and after any newline. */
  lemma {:induction false} ScanAtNewline(current: string, a: string, rest: string)
    ensures Scan(current, a + "\n" + rest) == Scan(current, a + "\n") + SplitLines(rest)
    decreases |a|
  {
    var s, t := a + "\n" + rest, a + "\n";
    if a == "" {
      assert s[1..] == rest && t[1..] == "";
      Associate([current], [], SplitLines(rest));
    } else if IsBreak(a[0]) {
      BreakThere(a, rest);
      var w := BreakLength(t);
      if w <= |a| {
        ScanAtNewline("", a[w..], rest);
        Associate([current], SplitLines(t[w..]), SplitLines(rest));
      }
    } else {
      assert s[1..] == a[1..] + "\n" + rest && t[1..] == a[1..] + "\n";
      ScanAtNewline(current + [a[0]], a[1..], rest);
    }
  }

  /** A line without breaks, ended by a newline, is split off as it is. */
  lemma SplitFirstLine(line: string, rest: string)
    requires NoBreak(line)
    ensures SplitLines(line + "\n" + rest) == [line] + SplitLines(rest)
  {
    assert line + "\n" + rest == line + ("\n" + rest);
    ScanPlain("", line, "\n" + rest);
    assert "" + line == line && ("\n" + rest)[1..] == rest;
  }

  /** One line break: a single character, or carriage return and newline together. */
  predicate OneBreak(mark: string, rest: string) {
    mark == "\r\n" || (|mark| == 1 && IsBreak(mark[0]) && !(mark == "\r" && rest != "" && rest[0] == '\n'))
  }

  /** What `splitlines` does, for every text: a line ends at the first break, or with the text. */
  lemma SplitsAtFirstBreak(line: string, mark: string, rest: string)
    requires NoBreak(line) && OneBreak(mark, rest)
    ensures SplitLines(line + mark + rest) == [line] + SplitLines(rest)
    ensures SplitLines(line) == if line == "" then [] else [line]
  {
    BreaksAre('\r');
    var tail := mark + rest;
    assert line + mark + rest == line + tail && "" + line == line;
    ScanPlain("", line, tail);
    assert tail[BreakLength(tail)..] == rest;
    ScanPlain("", line, "");
    assert line + "" == line;
  }

  /** `"\n".join(lines) + "\n"`, for at least one line. */
  function Unlines(lines: seq<string>): string {
    if lines == [] then "" else lines[0] + "\n" + Unlines(lines[1..])
  }

  predicate AllNoBreak(lines: seq<string>) {
    forall i :: 0 <= i < |lines| ==> NoBreak(lines[i])
  }

  lemma {:induction false} SplitUnlines(lines: seq<string>)
    requires AllNoBreak(lines)
    ensures SplitLines(Unlines(lines)) == lines
  {
    if lines != [] {
      assert NoBreak(lines[0]) && AllNoBreak(lines[1..]);
      SplitFirstLine(lines[0], Unlines(lines[1..]));
      SplitUnlines(lines[1..]);
    }
  }

  lemma {:induction false} LinesHaveNoBreaks(current: string, s: string)
    requires NoBreak(current)
    ensures AllNoBreak(Scan(current, s))
    decreases |s|
  {
    if s == "" {
    } else if IsBreak(s[0]) {
      LinesHaveNoBreaks("", s[BreakLength(s)..]);
    } else {
      LinesHaveNoBreaks(current + [s[0]], s[1..]);
    }
  }

  /** Every text is a part without breaks, followed by nothing or by a break. */
  function BreakAt(s: string): (k: nat)
    ensures k <= |s| && (k < |s| ==> IsBreak(s[k]))
    ensures forall i :: 0 <= i < k ==> !IsBreak(s[i])
  {
    BreakFrom(s, 0)
  }

  function BreakFrom(s: string, a: nat): (k: nat)
    requires a <= |s|
    ensures a <= k <= |s| && (k < |s| ==> IsBreak(s[k]))
    ensures forall i :: a <= i < k ==> !IsBreak(s[i])
    decreases |s| - a
  {
    if a == |s| || IsBreak(s[a]) then a else BreakFrom(s, a + 1)
  }

  // ---------------------------------------------------------------------------------------
  // White space
  // ---------------------------------------------------------------------------------------

  /** The length of the first `n` characters without trailing space. */
  function TrimEnd(s: string, n: nat): (b: nat)
    requires n <= |s|
    ensures b <= n
    ensures forall i :: b <= i < n ==> IsSpace(s[i])
    ensures b > 0 ==> !IsSpace(s[b - 1])
  {
    if n > 0 && IsSpace(s[n - 1]) then TrimEnd(s, n - 1) else n
  }

  /** The first visible character from `a` on, or `n`. */
  function TrimStart(s: string, a: nat, n: nat): (b: nat)
    requires a <= n <= |s|
    ensures a <= b <= n
    ensures forall i :: a <= i < b ==> IsSpace(s[i])
    ensures b < n ==> !IsSpace(s[b])
    decreases n - a
  {
    if a < n && IsSpace(s[a]) then TrimStart(s, a + 1, n) else a
  }

  /** `str.strip()`. */
  function Strip(s: string): string {
    var b := TrimEnd(s, |s|);
    s[TrimStart(s, 0, b)..b]
  }

  lemma StripIs(s: string, a: nat, b: nat)
    requires a <= b <= |s|
    requires forall i :: 0 <= i < a || b <= i < |s| ==> IsSpace(s[i])
    requires a < b ==> !IsSpace(s[a]) && !IsSpace(s[b - 1])
    ensures Strip(s) == s[a..b]
  {
  }

  predicate Contains(s: string, part: string) {
    exists i :: 0 <= i <= |s| && part <= s[i..]
  }
}
