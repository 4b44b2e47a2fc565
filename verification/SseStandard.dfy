/**
 The reference for the stream parser: the character-at-a-time reading of the algorithm in
 section 9.2.6, "Interpreting an event stream", of the WHATWG HTML Standard.
 */
module SseStandard {
  import opened JsText
  import opened Sse

  /** The standard's machine between two characters: unfinished line, event type buffer, data buffer. */
  datatype Standard = Standard(line: string, eventType: string, data: string)

  const IDLE := Standard("", "", "")

  /** The standard's processing of one field line; `id` and `retry` produce no event. */
  function StandardField(m: Standard, line: string): Standard {
    if line == [] || line[0] == ':' then m
    else
      var colon := IndexOf(line, ':');
      var name := if colon < 0 then line else line[..colon];
      var value := if colon < 0 then "" else DropSpace(line[colon + 1..]);
      match name
      case "event" => m.(eventType := value)
      case "data" => m.(data := m.data + value + "\n")
      case _ => m
  }

  /** "Dispatch the event": strips the last line feed of the data buffer. */
  function StandardDispatch(m: Standard): seq<Event> {
    if m.data == [] then []
    else [Event(if m.eventType == [] then "message" else m.eventType, m.data[..|m.data| - 1])]
  }

  /** One character at a time; the result pairs the machine with the events dispatched. */
  function StandardRun(m: Standard, s: string): (Standard, seq<Event>)
    decreases |s|
  {
    if s == [] then (m, [])
    else if s[0] != '\n' then StandardRun(m.(line := m.line + [s[0]]), s[1..])
    else if m.line == [] then
      var (m', events) := StandardRun(IDLE, s[1..]);
      (m', StandardDispatch(m) + events)
    else StandardRun(StandardField(m, m.line).(line := ""), s[1..])
  }

  /** The standard's line ends: CRLF, LF and a lone CR all end a line. */
  function StandardLineEnds(s: string): string {
    if s == [] then []
    else if StartsCrLf(s) then "\n" + StandardLineEnds(s[2..])
    else [if s[0] == '\r' then '\n' else s[0]] + StandardLineEnds(s[1..])
  }

  function StandardEvents(s: string): seq<Event> {
    StandardRun(IDLE, StandardLineEnds(s)).1
  }

  function StandardName(name: string): string {
    if name == [] then "message" else name
  }

  /** The one renaming that separates the code from the standard. */
  function StandardNames(events: seq<Event>): (r: seq<Event>)
    ensures |r| == |events|
    ensures forall i | 0 <= i < |r| :: r[i] == Event(StandardName(events[i].name), events[i].data)
  {
    if events == [] then []
    else [Event(StandardName(events[0].name), events[0].data)] + StandardNames(events[1..])
  }

  lemma {:induction false} StandardNamesAppend(a: seq<Event>, b: seq<Event>)
    ensures StandardNames(a + b) == StandardNames(a) + StandardNames(b)
  {
  }

  lemma {:induction false} StandardRunAppend(m: Standard, a: string, b: string)
    ensures StandardRun(m, a + b)
         == (StandardRun(StandardRun(m, a).0, b).0, StandardRun(m, a).1 + StandardRun(StandardRun(m, a).0, b).1)
    decreases |a|
  {
    if a == [] {
      assert a + b == b && [] + StandardRun(m, b).1 == StandardRun(m, b).1;
    } else {
      assert (a + b)[1..] == a[1..] + b;
      if a[0] != '\n' {
        StandardRunAppend(m.(line := m.line + [a[0]]), a[1..], b);
      } else if m.line == [] {
        StandardRunAppend(IDLE, a[1..], b);
        var mid := StandardRun(IDLE, a[1..]);
        var last := StandardRun(mid.0, b);
        assert StandardDispatch(m) + (mid.1 + last.1) == (StandardDispatch(m) + mid.1) + last.1;
      } else {
        StandardRunAppend(StandardField(m, m.line).(line := ""), a[1..], b);
      }
    }
  }

  lemma {:induction false} StandardRunInLine(m: Standard, s: string)
    requires Lacks(s, '\n')
    ensures StandardRun(m, s) == (m.(line := m.line + s), [])
    decreases |s|
  {
    if s == [] {
      assert m.line + s == m.line;
    } else {
      StandardRunInLine(m.(line := m.line + [s[0]]), s[1..]);
      assert m.line + [s[0]] + s[1..] == m.line + s;
    }
  }

  /** A whole non-empty line is handed to the field reader and dispatches nothing. */
  lemma {:induction false} StandardRunLine(m: Standard, line: string, rest: string)
    requires m.line == [] && line != [] && Lacks(line, '\n')
    ensures StandardRun(m, line + "\n" + rest) == StandardRun(StandardField(m, line), rest)
  {
    assert line + "\n" + rest == line + ("\n" + rest);
    StandardRunAppend(m, line, "\n" + rest);
    StandardRunInLine(m, line);
    var m' := m.(line := line);
    assert m.line + line == line && ("\n" + rest)[1..] == rest;
    assert StandardField(m', line).(line := "") == StandardField(m, line);
    hide StandardField, StandardDispatch;
    assert [] + StandardRun(m', "\n" + rest).1 == StandardRun(m', "\n" + rest).1;
  }

  function Terminated(data: seq<string>): string {
    if data == [] then [] else Terminated(data[..|data| - 1]) + data[|data| - 1] + "\n"
  }

  /** The code's list of values and event name stand for the standard's two buffers. */
  ghost predicate Matches(f: Fields, m: Standard) {
    && m.data == Terminated(f.data)
    && StandardName(f.event) == (if m.eventType == [] then "message" else m.eventType)
  }

  lemma {:induction false} ReadLineMatches(f: Fields, m: Standard, line: string)
    requires Matches(f, m)
    ensures Matches(ReadLine(f, line), StandardField(m, line))
  {
    hide IndexOf, DropSpace, Terminated;
    TerminatedSnoc(f.data, FieldValue(line));
  }

  lemma {:induction false} TerminatedSnoc(data: seq<string>, value: string)
    ensures Terminated(data + [value]) == Terminated(data) + value + "\n"
  {
    assert (data + [value])[..|data|] == data;
  }

  lemma {:induction false} JoinTerminated(data: seq<string>)
    requires data != []
    ensures Terminated(data) == Join(data) + "\n"
    decreases |data|
  {
    var n := |data| - 1;
    var head, last := data[..n], data[n];
    assert data == head + [last];
    assert Terminated(data) == Terminated(head) + last + "\n";
    if n > 0 {
      hide Join, Terminated;
      JoinTerminated(head);
      JoinSnoc(head, last);
    } else {
      assert Terminated(head) + last == last;
    }
  }

  lemma {:induction false} JoinSnoc(lines: seq<string>, last: string)
    requires lines != []
    ensures Join(lines + [last]) == Join(lines) + "\n" + last
    decreases |lines|
  {
    assert (lines + [last])[1..] == lines[1..] + [last];
    if |lines| > 1 {
      JoinSnoc(lines[1..], last);
      assert lines[0] + "\n" + (Join(lines[1..]) + "\n" + last) == lines[0] + "\n" + Join(lines[1..]) + "\n" + last;
    }
  }

  lemma {:induction false} DispatchMatches(f: Fields, m: Standard)
    requires Matches(f, m)
    ensures StandardDispatch(m) == StandardNames(Emit(f))
  {
    if f.data != [] {
      JoinTerminated(f.data);
      assert (Join(f.data) + "\n")[..|Join(f.data)|] == Join(f.data);
    }
  }

  /** A text without a blank line that does not begin with a line feed: every line in it has content. */
  ghost predicate Solid(s: string) {
    && (s != [] ==> s[0] != '\n')
    && forall k :: !BlankLineAt(s, k)
  }

  lemma {:induction false} SolidTail(s: string, i: int)
    requires Solid(s) && 0 < i < |s| && s[i] == '\n' && Lacks(s[..i], '\n')
    ensures Solid(s[i + 1..])
    ensures s == s[..i] + "\n" + s[i + 1..]
  {
    assert !BlankLineAt(s, i);
    var rest := s[i + 1..];
    assert forall k :: BlankLineAt(rest, k) ==> BlankLineAt(s, i + 1 + k);
  }

  lemma {:induction false} SolidDispatchesNothing(m: Standard, s: string)
    requires m.line == [] && Solid(s)
    ensures StandardRun(m, s).1 == []
    decreases |s|
  {
    var i := IndexOf(s, '\n');
    if i < 0 {
      StandardRunInLine(m, s);
    } else {
      SolidTail(s, i);
      StandardRunLine(m, s[..i], s[i + 1..]);
      SolidDispatchesNothing(StandardField(m, s[..i]), s[i + 1..]);
    }
  }

  /** Reading a solid block and the line feed after it fills both readers alike. */
  lemma {:induction false} BlockMatches(f: Fields, m: Standard, s: string)
    requires m.line == [] && Solid(s) && s != [] && s[|s| - 1] != '\n' && Matches(f, m)
    ensures var (m', events) := StandardRun(m, s + "\n");
            events == [] && m'.line == [] && Matches(ReadLines(f, SplitLines(s)), m')
    decreases |s|
  {
    var i := IndexOf(s, '\n');
    if i < 0 {
      assert s + "\n" == s + "\n" + "";
      StandardRunLine(m, s, "");
      ReadLineMatches(f, m, s);
      assert SplitLines(s)[1..] == [];
    } else {
      var line, rest := s[..i], s[i + 1..];
      SolidTail(s, i);
      assert s + "\n" == line + "\n" + (rest + "\n");
      StandardRunLine(m, line, rest + "\n");
      ReadLineMatches(f, m, line);
      assert SplitLines(s)[1..] == SplitLines(rest);
      BlockMatches(ReadLine(f, line), StandardField(m, line), rest);
    }
  }

  /** The first block of a text, closed by its blank line, dispatches what the parser emits for it. */
  lemma {:induction false} BlockDispatch(s: string)
    requires FindBoundary(s) >= 0
    ensures StandardRun(IDLE, s[..FindBoundary(s) + 2]) == (IDLE, StandardNames(ParseBlock(s[..FindBoundary(s)])))
  {
    var block := s[..FindBoundary(s)];
    BlockIsRead(s);
    CutBlock(s, "\n");
    hide FindBoundary, SplitLines, ReadLines, Emit, StandardRun, Matches, StandardNames;
    ClosingDispatches(block + "\n", ReadLines(NO_FIELDS, SplitLines(block)), "\n");
  }

  lemma {:induction false} CutBlock(s: string, feed: string)
    requires FindBoundary(s) >= 0 && feed == "\n"
    ensures s[..FindBoundary(s) + 2] == (s[..FindBoundary(s)] + feed) + feed
  {
    hide FindBoundary;
  }

  lemma {:induction false} ClosingDispatches(text: string, f: Fields, feed: string)
    requires feed == "\n"
    requires var (m', events) := StandardRun(IDLE, text); events == [] && m'.line == [] && Matches(f, m')
    ensures StandardRun(IDLE, text + feed) == (IDLE, StandardNames(Emit(f)))
  {
    var (m', events) := StandardRun(IDLE, text);
    hide Emit, StandardRun, StandardDispatch, Matches, StandardNames;
    StandardRunAppend(IDLE, text, feed);
    DispatchMatches(f, m');
    EmptyLineDispatches(m', feed);
    assert [] + StandardDispatch(m') == StandardDispatch(m');
  }

  lemma {:induction false} EmptyLineDispatches(m: Standard, feed: string)
    requires m.line == [] && feed == "\n"
    ensures StandardRun(m, feed) == (IDLE, StandardDispatch(m))
  {
    assert feed[1..] == [];
    assert StandardDispatch(m) + [] == StandardDispatch(m);
  }

  lemma {:induction false} BlockIsRead(s: string)
    requires FindBoundary(s) >= 0
    ensures var block := s[..FindBoundary(s)];
            var (m', events) := StandardRun(IDLE, block + "\n");
            events == [] && m'.line == [] && Matches(ReadLines(NO_FIELDS, SplitLines(block)), m')
  {
    var block := s[..FindBoundary(s)];
    if block == [] {
      assert block + "\n" == "\n" && "\n"[1..] == "";
      assert SplitLines(block) == [""] && [""][1..] == [];
    } else {
      hide StandardRun, SplitLines, ReadLines, Matches, IndexOf;
      FirstBlockMatches(s);
    }
  }

  lemma {:induction false} FirstBlockMatches(s: string)
    requires FindBoundary(s) > 0
    ensures var block := s[..FindBoundary(s)];
            var (m', events) := StandardRun(IDLE, block + "\n");
            events == [] && m'.line == [] && Matches(ReadLines(NO_FIELDS, SplitLines(block)), m')
  {
    var b := FindBoundary(s);
    var block := s[..b];
    assert forall k :: BlankLineAt(block, k) ==> BlankLineAt(s, k);
    assert block[b - 1] != '\n' by { assert !BlankLineAt(s, b - 1); }
    if block[0] == '\n' {
      // A leading line feed dispatches nothing and is an empty, skipped line for the parser.
      var rest := block[1..];
      assert block + "\n" == "\n" + (rest + "\n");
      assert ("\n" + (rest + "\n"))[1..] == rest + "\n";
      assert Solid(rest) by {
        assert !BlankLineAt(s, 0);
        assert forall k :: BlankLineAt(rest, k) ==> BlankLineAt(s, k + 1);
      }
      BlockMatches(NO_FIELDS, IDLE, rest);
      assert SplitLines(block) == [""] + SplitLines(rest) by { assert block[..0] == ""; }
      assert SplitLines(block)[1..] == SplitLines(rest);
      assert [] + StandardRun(IDLE, rest + "\n").1 == StandardRun(IDLE, rest + "\n").1;
    } else {
      BlockMatches(NO_FIELDS, IDLE, block);
    }
  }

  lemma {:induction false} DrainMatchesStandardRun(s: string)
    ensures StandardRun(IDLE, s).1 == StandardNames(Drain(s).events)
    decreases |s|
  {
    var b := FindBoundary(s);
    if b < 0 {
      if s != [] && s[0] == '\n' {
        assert Solid(s[1..]) by {
          assert !BlankLineAt(s, 0);
          assert forall k :: BlankLineAt(s[1..], k) ==> BlankLineAt(s, k + 1);
        }
        SolidDispatchesNothing(IDLE, s[1..]);
      } else {
        SolidDispatchesNothing(IDLE, s);
      }
    } else {
      var rest := s[b + 2..];
      assert s == s[..b + 2] + rest;
      BlockDispatch(s);
      StandardRunAppend(IDLE, s[..b + 2], rest);
      DrainMatchesStandardRun(rest);
      StandardNamesAppend(ParseBlock(s[..b]), Drain(rest).events);
    }
  }

  /** Every carriage return in the text is followed by a line feed. */
  ghost predicate NoLoneCr(s: string) {
    forall i | 0 <= i < |s| && s[i] == '\r' :: i + 1 < |s| && s[i + 1] == '\n'
  }

  lemma {:induction false} NoLoneCrStep(s: string, n: nat)
    requires n == (if StartsCrLf(s) then 2 else 1) && n <= |s|
    ensures NoLoneCr(s) <==> (s[0] == '\r' ==> n == 2) && NoLoneCr(s[n..])
  {
    var rest := s[n..];
    assert forall i | n <= i < |s| :: s[i] == rest[i - n];
    if NoLoneCr(s) {
      forall i | 0 <= i < |rest| && rest[i] == '\r' ensures i + 1 < |rest| && rest[i + 1] == '\n' {
        assert s[i + n] == '\r';
      }
    }
  }

  /** The code's line ends are the standard's exactly on the texts without a lone carriage return. */
  lemma {:induction false} NormalizeIsStandard(s: string)
    ensures NoLoneCr(s) <==> Normalize(s) == StandardLineEnds(s)
    decreases |s|
  {
    if s != [] {
      var n := if StartsCrLf(s) then 2 else 1;
      NoLoneCrStep(s, n);
      NormalizeIsStandard(s[n..]);
      assert Normalize(s)[1..] == Normalize(s[n..]) && StandardLineEnds(s)[1..] == StandardLineEnds(s[n..]);
      assert Normalize(s)[0] == StandardLineEnds(s)[0] <==> (s[0] == '\r' ==> n == 2);
      assert Normalize(s) == [Normalize(s)[0]] + Normalize(s)[1..];
      assert StandardLineEnds(s) == [StandardLineEnds(s)[0]] + StandardLineEnds(s)[1..];
    }
  }

  /**
   The parser finds the standard's events, in order, on every text without a lone carriage
   return, except that it keeps an empty event name; so the two agree exactly on the texts
   where it reports no empty name.
   */
  lemma {:induction false} ParserMatchesStandard(s: string)
    requires NoLoneCr(s)
    ensures StandardEvents(s) == StandardNames(Drain(Normalize(s)).events)
    ensures StandardEvents(s) == Drain(Normalize(s)).events
       <==> forall e | e in Drain(Normalize(s)).events :: e.name != []
  {
    NormalizeIsStandard(s);
    DrainMatchesStandardRun(Normalize(s));
    var events := Drain(Normalize(s)).events;
    if e :| e in events && e.name == [] {
      var i :| 0 <= i < |events| && events[i] == e;
      assert StandardNames(events)[i].name == "message";
    }
  }

  lemma {:induction false} LineEndsPlain(s: string, rest: string)
    requires Lacks(s, '\r')
    ensures StandardLineEnds(s + rest) == s + StandardLineEnds(rest)
    decreases |s|
  {
    if s == [] {
      assert [] + rest == rest && [] + StandardLineEnds(rest) == StandardLineEnds(rest);
    } else {
      assert (s + rest)[1..] == s[1..] + rest && (s + rest)[0] == s[0];
      LineEndsPlain(s[1..], rest);
      assert [s[0]] + (s[1..] + StandardLineEnds(rest)) == s + StandardLineEnds(rest);
    }
  }

  /** The standard reads two data lines and the blank line after them as one event of two lines. */
  lemma {:induction false} StandardTwoLines(first: string, second: string, feed: string)
    requires Lacks(first, '\n') && Lacks(second, '\n') && feed == "\n"
    ensures StandardRun(IDLE, ("data:" + first) + "\n" + (("data:" + second) + "\n" + feed)).1
         == [Event("message", DropSpace(first) + "\n" + DropSpace(second))]
  {
    hide StandardRun, StandardField, DropSpace;
    var m1 := IDLE.(data := DropSpace(first) + "\n");
    var m2 := IDLE.(data := (DropSpace(first) + "\n") + DropSpace(second) + "\n");
    StandardData(IDLE, first);
    StandardData(m1, second);
    assert "" + DropSpace(first) == DropSpace(first);
    StandardRunLine(IDLE, "data:" + first, ("data:" + second) + "\n" + feed);
    StandardRunLine(m1, "data:" + second, feed);
    EmptyLineDispatches(m2, feed);
    assert m2.data[..|m2.data| - 1] == DropSpace(first) + "\n" + DropSpace(second);
  }

  lemma {:induction false} StandardData(m: Standard, value: string)
    ensures StandardField(m, "data:" + value) == m.(data := m.data + DropSpace(value) + "\n")
  {
    hide DropSpace;
    DataField(value);
  }

  /**
   A lone carriage return between two data lines: for the standard it ends the first, for the code
   it is part of the data, so the two report different events.
   */
  lemma {:induction false} LoneCrChangesData(first: string, second: string, blank: string)
    requires Lacks(first, '\n') && Lacks(first, '\r') && Lacks(second, '\n') && Lacks(second, '\r') && blank == "\n\n"
    ensures var s := ("data:" + first) + ("\r" + (("data:" + second) + blank));
            && StandardEvents(s) == [Event("message", DropSpace(first) + "\n" + DropSpace(second))]
            && Drain(Normalize(s)).events == [Event("message", DropSpace(first + "\r" + ("data:" + second)))]
            && StandardEvents(s) != Drain(Normalize(s)).events
  {
    var a, b := "data:" + first, "data:" + second;
    LoneCrForStandard(first, second, a, b, blank);
    LoneCrForParser(first, a, b, blank);
    LoneCrDiffers(first, second, b);
    hide StandardEvents, Drain, Normalize, DropSpace;
  }

  lemma {:induction false} LoneCrForStandard(first: string, second: string, a: string, b: string, blank: string)
    requires Lacks(first, '\n') && Lacks(first, '\r') && Lacks(second, '\n') && Lacks(second, '\r') && blank == "\n\n"
    requires a == "data:" + first && b == "data:" + second
    ensures StandardEvents(a + ("\r" + (b + blank))) == [Event("message", DropSpace(first) + "\n" + DropSpace(second))]
  {
    hide StandardRun, StandardLineEnds, DropSpace;
    assert Lacks(a, '\r') && Lacks(b + blank, '\r');
    LoneCrStandard(a, b, blank);
    StandardTwoLines(first, second, "\n");
  }

  lemma {:induction false} LoneCrForParser(first: string, a: string, b: string, blank: string)
    requires Lacks(first, '\n') && Lacks(first, '\r') && Lacks(b, '\n') && Lacks(b, '\r') && blank == "\n\n"
    requires a == "data:" + first && b != []
    ensures Drain(Normalize(a + ("\r" + (b + blank)))).events == [Event("message", DropSpace(first + "\r" + b))]
  {
    hide Drain, Normalize, DropSpace;
    var value := first + "\r" + b;
    var line, s := "data:" + value, a + ("\r" + (b + blank));
    assert line + blank == s;
    LoneCrStays(a, b, blank);
    DataLine(line, value, blank);
  }

  lemma {:induction false} LoneCrStays(a: string, b: string, blank: string)
    requires Lacks(a, '\r') && Lacks(b, '\r') && b != [] && b[0] != '\n' && blank == "\n\n"
    ensures var s := a + ("\r" + (b + blank)); Normalize(s) == s
  {
    hide Normalize;
    var s := a + ("\r" + (b + blank));
    forall i | 0 <= i < |s| - 1 ensures !(s[i] == '\r' && s[i + 1] == '\n') {
      if i > |a| { assert s[i] == (b + blank)[i - |a| - 1]; }
    }
    NormalizeNoCrLf(s);
  }

  lemma {:induction false} LoneCrStandard(a: string, b: string, blank: string)
    requires Lacks(a, '\r') && Lacks(b + blank, '\r') && b != [] && b[0] != '\n' && blank == "\n\n"
    ensures StandardLineEnds(a + ("\r" + (b + blank))) == a + "\n" + (b + "\n" + "\n")
  {
    var rest := b + blank;
    LineEndsPlain(a, "\r" + rest);
    LineEndsPlain(rest, []);
    assert rest + [] == rest;
    assert ("\r" + rest)[1..] == rest && ("\r" + rest)[1] != '\n';
    assert StandardLineEnds("\r" + rest) == "\n" + rest;
    assert rest == b + "\n" + "\n";
    assert a + ("\n" + rest) == a + "\n" + rest;
  }

  lemma {:induction false} LoneCrDiffers(first: string, second: string, b: string)
    requires Lacks(first, '\r') && Lacks(second, '\r')
    ensures DropSpace(first) + "\n" + DropSpace(second) != DropSpace(first + "\r" + b)
  {
    var x, y := DropSpace(first) + "\n" + DropSpace(second), DropSpace(first + "\r" + b);
    assert Lacks(x, '\r');
    var k := |DropSpace(first)|;
    assert y[k] == '\r';
  }
}
