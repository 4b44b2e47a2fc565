/**
 Frames as the backend prints them, and their way back through the parser.
 */
module SseFrames {
  import opened JsText
  import opened Sse

  /** An event the frame shape can carry: no line break in the name, no carriage return in the data. */
  ghost predicate Printable(e: Event) {
    && Lacks(e.name, '\n') && Lacks(e.name, '\r')
    && Lacks(e.data, '\r')
  }

  function DataLines(lines: seq<string>): (r: seq<string>)
    ensures |r| == |lines| && forall i | 0 <= i < |r| :: r[i] == "data: " + lines[i]
  {
    if lines == [] then [] else ["data: " + lines[0]] + DataLines(lines[1..])
  }

  function FrameLines(e: Event): seq<string> {
    ["event: " + e.name] + DataLines(SplitLines(e.data))
  }

  function Frame(e: Event): string {
    Join(FrameLines(e)) + "\n\n"
  }

  function Frames(events: seq<Event>): string {
    if events == [] then [] else Frame(events[0]) + Frames(events[1..])
  }

  lemma {:induction false} JoinCons(line: string, lines: seq<string>)
    requires lines != []
    ensures Join([line] + lines) == line + "\n" + Join(lines)
  {
    assert ([line] + lines)[1..] == lines;
  }

  lemma {:induction false} JoinSplit(s: string)
    ensures Join(SplitLines(s)) == s
    decreases |s|
  {
    hide IndexOf, Join;
    var i := IndexOf(s, '\n');
    if i < 0 {
      JoinOne(s);
    } else {
      var head, rest := s[..i], s[i + 1..];
      JoinSplit(rest);
      JoinCons(head, SplitLines(rest));
      assert s == head + "\n" + rest;
    }
  }

  /** The frame of one line of data is written out as the fixture writes it. */
  lemma {:induction false} FrameShape(name: string, data: string)
    requires Lacks(data, '\n')
    ensures Frame(Event(name, data)) == "event: " + name + "\n" + "data: " + data + "\n\n"
  {
    hide IndexOf;
    assert SplitLines(data) == [data];
    assert DataLines([data]) == ["data: " + data];
    assert Join(["event: " + name, "data: " + data]) == "event: " + name + "\n" + ("data: " + data);
  }

  lemma {:induction false} JoinOne(line: string)
    ensures Join([line]) == line
  {
  }

  lemma {:induction false} SplitLine(line: string, rest: string)
    requires Lacks(line, '\n')
    ensures SplitLines(line) == [line]
    ensures SplitLines(line + "\n" + rest) == [line] + SplitLines(rest)
  {
    hide IndexOf;
    var s, n := line + "\n" + rest, |line|;
    assert s[n] == '\n' && forall k | 0 <= k < n :: s[k] == line[k];
    assert s[..n] == line && s[n + 1..] == rest;
  }

  lemma {:induction false} SplitJoin(lines: seq<string>)
    requires lines != [] && forall i | 0 <= i < |lines| :: Lacks(lines[i], '\n')
    ensures SplitLines(Join(lines)) == lines
    decreases |lines|
  {
    hide SplitLines;
    if |lines| == 1 {
      SplitLine(lines[0], []);
    } else {
      SplitJoin(lines[1..]);
      SplitLine(lines[0], Join(lines[1..]));
      assert lines == [lines[0]] + lines[1..];
    }
  }

  /** Non-empty lines joined have no blank line, neither inside nor at either end. */
  ghost predicate Tight(s: string) {
    s != [] && s[0] != '\n' && s[|s| - 1] != '\n' && forall k :: !BlankLineAt(s, k)
  }

  lemma {:induction false} JoinTight(lines: seq<string>)
    requires lines != [] && forall i | 0 <= i < |lines| :: lines[i] != [] && Lacks(lines[i], '\n')
    ensures Tight(Join(lines))
    decreases |lines|
  {
    if |lines| > 1 {
      JoinTight(lines[1..]);
      var s, later, n := Join(lines), Join(lines[1..]), |lines[0]|;
      assert s[n] == '\n' && forall k | 0 <= k < n :: s[k] == lines[0][k];
      assert s[n + 1..] == later;
      assert s[|s| - 1] == later[|later| - 1];
      assert forall k :: BlankLineAt(s, k) ==> k < n || k == n || BlankLineAt(later, k - n - 1);
    }
  }

  lemma {:induction false} FrameLinesTight(e: Event)
    requires Printable(e)
    ensures forall i | 0 <= i < |FrameLines(e)| :: FrameLines(e)[i] != [] && Lacks(FrameLines(e)[i], '\n')
  {
    hide SplitLines, DataLines, Lacks;
    var lines, printed := SplitLines(e.data), FrameLines(e);
    forall i | 0 <= i < |printed| ensures printed[i] != [] && Lacks(printed[i], '\n') {
      if i == 0 { PrefixedTight("event: ", e.name); } else { PrefixedTight("data: ", lines[i - 1]); }
    }
  }

  lemma {:induction false} PrefixedTight(prefix: string, s: string)
    requires (prefix == "event: " || prefix == "data: ") && Lacks(s, '\n')
    ensures prefix + s != [] && Lacks(prefix + s, '\n')
  {
  }

  /** The first boundary after a frame's lines is the frame's own. */
  lemma {:induction false} FrameBoundary(e: Event, rest: string)
    requires Printable(e)
    ensures |Frame(e)| > 2 && Frame(e)[0] != '\n'
    ensures FindBoundary(Frame(e) + rest) == |Frame(e)| - 2
    ensures forall k | 0 <= k < |Frame(e)| :: FindBoundary(Frame(e)[..k]) < 0
  {
    FrameLinesTight(e);
    JoinTight(FrameLines(e));
    var body := Join(FrameLines(e));
    var s := Frame(e) + rest;
    assert BlankLineAt(s, |body|);
    assert forall k | 0 <= k < |body| - 1 :: BlankLineAt(s, k) ==> BlankLineAt(body, k);
    assert !BlankLineAt(s, |body| - 1);
    forall k | 0 <= k < |Frame(e)| ensures FindBoundary(Frame(e)[..k]) < 0 {
      var part := Frame(e)[..k];
      assert forall j :: BlankLineAt(part, j) ==> BlankLineAt(s, j) && j < |body|;
    }
  }

  lemma {:induction false} DataLineField(line: string, value: string)
    requires line == "data: " + value
    ensures FieldName(line) == "data" && FieldValue(line) == value && line[0] != ':'
  {
    assert line == "data:" + (" " + value);
    DataField(" " + value);
    assert (" " + value)[1..] == value;
  }

  lemma {:induction false} EventLineField(line: string, value: string)
    requires line == "event: " + value
    ensures FieldName(line) == "event" && FieldValue(line) == value && line[0] != ':'
  {
    assert line[5] == ':' && line[..5] == "event" && line[6..] == " " + value;
    assert (" " + value)[1..] == value;
  }

  lemma {:induction false} ReadDataLine(f: Fields, line: string, value: string)
    requires line == "data: " + value
    ensures ReadLine(f, line) == f.(data := f.data + [value])
  {
    DataLineField(line, value);
  }

  lemma {:induction false} DataLinesTail(lines: seq<string>)
    requires lines != []
    ensures DataLines(lines)[1..] == DataLines(lines[1..])
  {
  }

  lemma {:induction false} ReadDataLines(f: Fields, lines: seq<string>)
    ensures ReadLines(f, DataLines(lines)) == f.(data := f.data + lines)
    decreases |lines|
  {
    hide ReadLine;
    if lines == [] {
      assert f.data + lines == f.data;
    } else {
      var printed := DataLines(lines);
      ReadDataLine(f, printed[0], lines[0]);
      DataLinesTail(lines);
      assert ReadLines(f, printed) == ReadLines(ReadLine(f, printed[0]), printed[1..]);
      hide ReadLines, DataLines;
      ReadDataLines(f.(data := f.data + [lines[0]]), lines[1..]);
      assert f.data + [lines[0]] + lines[1..] == f.data + lines;
    }
  }

  lemma {:induction false} FrameReadsBack(e: Event)
    requires Printable(e)
    ensures ParseBlock(Join(FrameLines(e))) == [e]
  {
    FrameLinesTight(e);
    SplitJoin(FrameLines(e));
    EventLineField(FrameLines(e)[0], e.name);
    assert FrameLines(e)[1..] == DataLines(SplitLines(e.data));
    ReadDataLines(Fields(e.name, []), SplitLines(e.data));
    assert [] + SplitLines(e.data) == SplitLines(e.data);
    JoinSplit(e.data);
  }

  lemma {:induction false} DrainFrame(e: Event, rest: string)
    requires Printable(e)
    ensures Drain(Frame(e) + rest) == Drained([e] + Drain(rest).events, Drain(rest).rest)
  {
    FrameBoundary(e, rest);
    FrameReadsBack(e);
    var s, b := Frame(e) + rest, |Frame(e)| - 2;
    assert s[..b] == Join(FrameLines(e));
    assert s[b + 2..] == rest;
  }

  lemma {:induction false} DrainFrames(events: seq<Event>, rest: string)
    requires forall i | 0 <= i < |events| :: Printable(events[i])
    ensures Drain(Frames(events) + rest) == Drained(events + Drain(rest).events, Drain(rest).rest)
    decreases |events|
  {
    hide Frame, Drain;
    if events == [] {
      assert Frames(events) + rest == rest;
      assert events + Drain(rest).events == Drain(rest).events;
    } else {
      var later := Frames(events[1..]) + rest;
      assert Frames(events) + rest == Frame(events[0]) + later;
      DrainFrame(events[0], later);
      DrainFrames(events[1..], rest);
      var tail := Drain(rest).events;
      assert [events[0]] + (events[1..] + tail) == events + tail;
    }
  }

  /** Any prefix of a printed list leaves at most one unfinished frame behind. */
  lemma {:induction false} FramesPrefixResidue(events: seq<Event>, p: string)
    requires forall i | 0 <= i < |events| :: Printable(events[i]) && |Frame(events[i])| <= 1_000_001
    requires p <= Frames(events)
    ensures |Drain(p).rest| <= 1_000_000
    decreases |events|
  {
    if events != [] {
      var frame := Frame(events[0]);
      FrameBoundary(events[0], []);
      if |p| < |frame| {
        assert p == frame[..|p|];
      } else {
        assert p == frame + p[|frame|..];
        assert p[|frame|..] <= Frames(events[1..]);
        DrainFrame(events[0], p[|frame|..]);
        FramesPrefixResidue(events[1..], p[|frame|..]);
      }
    }
  }

  lemma {:induction false} FrameHasNoCr(e: Event)
    requires Printable(e)
    ensures Lacks(Frame(e), '\r')
  {
    hide SplitLines, Join;
    SplitKeepsChars(e.data);
    var lines := FrameLines(e);
    forall i | 0 <= i < |lines| ensures Lacks(lines[i], '\r') {
      if i > 0 { assert Lacks(SplitLines(e.data)[i - 1], '\r'); }
    }
    JoinNoCr(lines);
  }

  lemma {:induction false} FramesHaveNoCr(events: seq<Event>)
    requires forall i | 0 <= i < |events| :: Printable(events[i])
    ensures Lacks(Frames(events), '\r')
    decreases |events|
  {
    hide Frame;
    if events != [] {
      FrameHasNoCr(events[0]);
      FramesHaveNoCr(events[1..]);
    }
  }

  lemma {:induction false} SplitKeepsChars(s: string)
    requires Lacks(s, '\r')
    ensures forall i | 0 <= i < |SplitLines(s)| :: Lacks(SplitLines(s)[i], '\r')
    decreases |s|
  {
    hide IndexOf;
    var i := IndexOf(s, '\n');
    if i >= 0 {
      var line, rest := s[..i], s[i + 1..];
      var lines := SplitLines(rest);
      assert SplitLines(s) == [line] + lines;
      assert Lacks(line, '\r') && Lacks(rest, '\r');
      hide Lacks;
      SplitKeepsChars(rest);
      forall k | 0 <= k <= |lines| ensures Lacks(([line] + lines)[k], '\r') {
        if k > 0 { assert ([line] + lines)[k] == lines[k - 1]; }
      }
    }
  }

  lemma {:induction false} JoinNoCr(lines: seq<string>)
    requires forall i | 0 <= i < |lines| :: Lacks(lines[i], '\r')
    ensures Lacks(Join(lines), '\r')
    decreases |lines|
  {
    if |lines| > 0 { JoinNoCr(lines[1..]); }
  }

  /** Without carriage returns every chunk is received as it is. */
  lemma {:induction false} ReceivedPlain(chunks: seq<string>)
    requires Lacks(Concat(chunks), '\r')
    ensures Received(chunks) == Concat(chunks)
    ensures forall k | 0 <= k <= |chunks| :: Concat(chunks[..k]) <= Concat(chunks) && Received(chunks[..k]) == Concat(chunks[..k])
    decreases |chunks|
  {
    if chunks != [] {
      var n := |chunks| - 1;
      var text, last := Concat(chunks[..n]), chunks[n];
      assert forall k | 0 <= k < |text| :: text[k] == Concat(chunks)[k];
      assert forall k | 0 <= k < |last| :: last[k] == Concat(chunks)[|text| + k];
      ReceivedPlain(chunks[..n]);
      NormalizeNoCrLf(last);
      forall k | 0 <= k <= |chunks|
        ensures Concat(chunks[..k]) <= Concat(chunks) && Received(chunks[..k]) == Concat(chunks[..k])
      {
        if k <= n { assert chunks[..k] == chunks[..n][..k]; } else { assert chunks[..k] == chunks; }
      }
    }
  }

  /** Printing a list of events and parsing it back, however the text is cut, returns the list. */
  lemma {:induction false} RoundTrip(events: seq<Event>, chunks: seq<string>)
    requires forall i | 0 <= i < |events| :: Printable(events[i]) && |Frame(events[i])| <= 1_000_001
    requires Concat(chunks) == Frames(events)
    ensures FeedAll(chunks) == Drained(events, [])
  {
    FramesHaveNoCr(events);
    ReceivedPlain(chunks);
    forall k | 0 <= k <= |chunks| ensures |Drain(Received(chunks[..k])).rest| <= 1_000_000 {
      FramesPrefixResidue(events, Concat(chunks[..k]));
    }
    FeedAllDrainsReceived(chunks);
    DrainFrames(events, []);
    assert Frames(events) + [] == Frames(events) && events + [] == events;
  }

  lemma {:induction false} FramesAppend(a: seq<Event>, b: seq<Event>)
    ensures Frames(a + b) == Frames(a) + Frames(b)
    decreases |a|
  {
    if a == [] { assert a + b == b; }
    else { assert (a + b)[1..] == a[1..] + b; FramesAppend(a[1..], b); }
  }

  /** After a stray line feed no more events come out than frames went in. */
  lemma {:induction false} StrayLineFeed(after: seq<Event>, s: string)
    requires forall i | 0 <= i < |after| :: Printable(after[i])
    requires s == "\n" + Frames(after)
    ensures |Drain(s).events| <= |after|
  {
    hide ParseBlock, Frame;
    if after == [] {
      assert FindBoundary(s) < 0;
    } else {
      var rest := Frames(after[1..]);
      var text := Frame(after[0]) + rest;
      FrameBoundary(after[0], rest);
      var b := |Frame(after[0])| - 1;
      assert forall k | 1 <= k :: BlankLineAt(s, k) <==> BlankLineAt(text, k - 1);
      assert FindBoundary(s) == b;
      assert s[b + 2..] == rest;
      DrainFrames(after[1..], []);
      assert rest + [] == rest;
    }
  }

  /** A frame too long for the limit is lost when the cut falls before its last character. */
  lemma {:induction false} LongFrameLost(before: seq<Event>, e: Event, after: seq<Event>, first: string, second: string)
    requires forall i | 0 <= i < |before| :: Printable(before[i])
    requires forall i | 0 <= i < |after| :: Printable(after[i])
    requires Printable(e) && |Frame(e)| > 1_000_001
    requires first == Frames(before) + Frame(e)[..|Frame(e)| - 1] && second == "\n" + Frames(after)
    requires Lacks(first, '\r') && Lacks(second, '\r')
    ensures |FeedAll([first, second]).events| <= |before| + |after|
  {
    hide Frame, Frames, Drain, Normalize, FindBoundary;
    var part := Frame(e)[..|Frame(e)| - 1];
    NormalizeNoCrLf(first);
    NormalizeNoCrLf(second);
    assert [] + first == first && [] + second == second;
    PartOfFrame(e);
    DrainFrames(before, part);
    assert before + [] == before;
    assert Feed([], first) == Drained(before, []);
    StrayLineFeed(after, second);
    FeedTwo(first, second);
  }

  /** A frame without its last character is all residue. */
  lemma {:induction false} PartOfFrame(e: Event)
    requires Printable(e)
    ensures |Frame(e)| > 0 && Drain(Frame(e)[..|Frame(e)| - 1]) == Drained([], Frame(e)[..|Frame(e)| - 1])
  {
    hide Frame, ParseBlock;
    FrameBoundary(e, []);
    assert Frame(e) + [] == Frame(e);
    var part := Frame(e)[..|Frame(e)| - 1];
    assert forall k :: BlankLineAt(part, k) ==> BlankLineAt(Frame(e), k);
  }

  lemma {:induction false} Regroup(a: string, b: string, c: string, d: string)
    ensures (a + b) + (c + d) == a + ((b + c) + d)
  {
  }

  lemma {:induction false} CutFrames(events: seq<Event>, i: nat, first: string, second: string)
    requires i < |events|
    requires first == Frames(events[..i]) + Frame(events[i])[..|Frame(events[i])| - 1]
    requires second == "\n" + Frames(events[i + 1..])
    ensures first + second == Frames(events)
  {
    var before, e, after := events[..i], events[i], events[i + 1..];
    var part := Frame(e)[..|Frame(e)| - 1];
    assert Frame(e) == part + "\n";
    Regroup(Frames(before), part, "\n", Frames(after));
    assert Frames(events) == Frames(before) + (Frame(e) + Frames(after)) by {
      hide Frame;
      assert events == before + ([e] + after);
      FramesAppend(before, [e] + after);
      assert ([e] + after)[1..] == after;
    }
  }

  lemma {:induction false} PartsLack(a: string, b: string, c: char)
    requires Lacks(a + b, c)
    ensures Lacks(a, c) && Lacks(b, c)
  {
    assert forall k | 0 <= k < |a| :: a[k] == (a + b)[k];
    assert forall k | 0 <= k < |b| :: b[k] == (a + b)[|a| + k];
  }

  lemma {:induction false} LongFrameCut(events: seq<Event>, i: nat) returns (chunks: seq<string>)
    requires forall i | 0 <= i < |events| :: Printable(events[i])
    requires i < |events| && |Frame(events[i])| > 1_000_001
    ensures Concat(chunks) == Frames(events)
    ensures FeedAll(chunks) != Drained(events, [])
  {
    var before, e, after := events[..i], events[i], events[i + 1..];
    var first, second := Frames(before) + Frame(e)[..|Frame(e)| - 1], "\n" + Frames(after);
    chunks := [first, second];
    hide Frame, Drain, Feed, Normalize;
    FeedTwo(first, second);
    CutFrames(events, i, first, second);
    FramesHaveNoCr(events);
    hide Frames, FeedAll;
    PartsLack(first, second, '\r');
    LongFrameLost(before, e, after, first, second);
  }

  /** The round trip holds under every chunking if and only if every frame fits the limit. */
  lemma {:induction false} RoundTripIffFramesFit(events: seq<Event>)
    requires forall i | 0 <= i < |events| :: Printable(events[i])
    ensures (forall i | 0 <= i < |events| :: |Frame(events[i])| <= 1_000_001)
       <==> (forall chunks: seq<string> | Concat(chunks) == Frames(events) :: FeedAll(chunks) == Drained(events, []))
  {
    if forall i | 0 <= i < |events| :: |Frame(events[i])| <= 1_000_001 {
      forall chunks: seq<string> | Concat(chunks) == Frames(events) ensures FeedAll(chunks) == Drained(events, []) {
        RoundTrip(events, chunks);
      }
    } else {
      var i :| 0 <= i < |events| && |Frame(events[i])| > 1_000_001;
      var chunks := LongFrameCut(events, i);
    }
  }
}
