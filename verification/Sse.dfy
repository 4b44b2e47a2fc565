/**
 The incremental parser of the scheduled-notification stream, and what cutting the
 stream into chunks does to it.
 */
module Sse {
  import opened JsText

  /** A residue longer than this is thrown away after a chunk. */
  const MAX_RESIDUE: nat := 1_000_000

  datatype Event = Event(name: string, data: string)

  /** The events found in a text and the unfinished text after the last of them. */
  datatype Drained = Drained(events: seq<Event>, rest: string)

  // ---------------------------------------------------------------- text helpers

  ghost predicate BlankLineAt(s: string, i: int) {
    0 <= i && i + 1 < |s| && s[i] == '\n' && s[i + 1] == '\n'
  }

  /** The first position of two adjacent line feeds, or -1. */
  function FindBoundary(s: string): (i: int)
    ensures -1 <= i
    ensures 0 <= i ==> BlankLineAt(s, i) && forall k | 0 <= k < i :: !BlankLineAt(s, k)
    ensures i < 0 ==> forall k :: !BlankLineAt(s, k)
  {
    if |s| < 2 then -1
    else if s[0] == '\n' && s[1] == '\n' then 0
    else
      var i := FindBoundary(s[1..]);
      assert forall k :: 1 <= k ==> (BlankLineAt(s, k) <==> BlankLineAt(s[1..], k - 1));
      if i < 0 then -1 else i + 1
  }

  function SplitLines(s: string): (lines: seq<string>)
    ensures |lines| >= 1
    ensures forall i | 0 <= i < |lines| :: Lacks(lines[i], '\n')
    decreases |s|
  {
    var i := IndexOf(s, '\n');
    if i < 0 then [s] else [s[..i]] + SplitLines(s[i + 1..])
  }

  function Join(lines: seq<string>): string {
    if lines == [] then [] else if |lines| == 1 then lines[0]
    else lines[0] + "\n" + Join(lines[1..])
  }

  predicate StartsCrLf(s: string) {
    |s| >= 2 && s[0] == '\r' && s[1] == '\n'
  }

  /** `chunk.replace(/\r\n/g, '\n')`: a carriage return not followed by a line feed stays. */
  function Normalize(s: string): string {
    if s == [] then []
    else if StartsCrLf(s) then "\n" + Normalize(s[2..])
    else [s[0]] + Normalize(s[1..])
  }

  // ---------------------------------------------------------------- the parser

  /** What one block has said so far. */
  datatype Fields = Fields(event: string, data: seq<string>)

  const NO_FIELDS := Fields("message", [])

  function FieldName(line: string): string {
    var colon := IndexOf(line, ':');
    if colon < 0 then line else line[..colon]
  }

  function FieldValue(line: string): string {
    var colon := IndexOf(line, ':');
    if colon < 0 then "" else DropSpace(line[colon + 1..])
  }

  function DropSpace(s: string): string {
    if s != [] && s[0] == ' ' then s[1..] else s
  }

  function ReadLine(f: Fields, line: string): Fields {
    if line == [] || line[0] == ':' then f
    else if FieldName(line) == "event" then f.(event := FieldValue(line))
    else if FieldName(line) == "data" then f.(data := f.data + [FieldValue(line)])
    else f
  }

  function ReadLines(f: Fields, lines: seq<string>): Fields
    decreases |lines|
  {
    if lines == [] then f else ReadLines(ReadLine(f, lines[0]), lines[1..])
  }

  function Emit(f: Fields): seq<Event> {
    if f.data == [] then [] else [Event(f.event, Join(f.data))]
  }

  function ParseBlock(block: string): (events: seq<Event>)
    ensures |events| <= 1
  {
    Emit(ReadLines(NO_FIELDS, SplitLines(block)))
  }

  /** Cuts off and reads every complete block. */
  function Drain(s: string): Drained
    decreases |s|
  {
    var b := FindBoundary(s);
    if b < 0 then Drained([], s)
    else
      var later := Drain(s[b + 2..]);
      Drained(ParseBlock(s[..b]) + later.events, later.rest)
  }

  function Cap(rest: string): string {
    if |rest| > MAX_RESIDUE then [] else rest
  }

  /** One call of the parser on a chunk. */
  function Feed(buffer: string, chunk: string): Drained {
    var d := Drain(buffer + Normalize(chunk));
    Drained(d.events, Cap(d.rest))
  }

  /** A fresh parser called on each chunk in turn. */
  function FeedAll(chunks: seq<string>): Drained {
    if chunks == [] then Drained([], [])
    else
      var before := FeedAll(chunks[..|chunks| - 1]);
      var d := Feed(before.rest, chunks[|chunks| - 1]);
      Drained(before.events + d.events, d.rest)
  }

  method ReadBlock(block: string) returns (events: seq<Event>)
    ensures events == ParseBlock(block)
  {
    var fields := NO_FIELDS;
    var lines := SplitLines(block);
    for i := 0 to |lines|
      invariant ReadLines(NO_FIELDS, lines) == ReadLines(fields, lines[i..])
    {
      assert lines[i..][1..] == lines[i + 1..];
      fields := ReadLine(fields, lines[i]);
    }
    return Emit(fields);
  }

  /** The closure returned by `createSseParser`: `buffer` is its captured variable. */
  class SseParser {
    var buffer: string

    constructor ()
      ensures buffer == []
    {
      buffer := [];
    }

    method Parse(chunk: string) returns (events: seq<Event>)
      modifies this
      ensures Drained(events, buffer) == Feed(old(buffer), chunk)
    {
      buffer := buffer + Normalize(chunk);
      events := [];
      var boundary := FindBoundary(buffer);
      while boundary >= 0
        invariant boundary == FindBoundary(buffer)
        invariant Drain(old(buffer) + Normalize(chunk))
               == Drained(events + Drain(buffer).events, Drain(buffer).rest)
        decreases |buffer|
      {
        var block := buffer[..boundary];
        buffer := buffer[boundary + 2..];
        var found := ReadBlock(block);
        events := events + found;
        boundary := FindBoundary(buffer);
      }
      if |buffer| > MAX_RESIDUE {
        buffer := [];
      }
    }
  }

  // ---------------------------------------------------------------- chunking

  ghost predicate SplitsCrLf(a: string, b: string) {
    a != [] && b != [] && a[|a| - 1] == '\r' && b[0] == '\n'
  }

  lemma {:induction false} NormalizeStep(s: string)
    ensures s == [] ==> Normalize(s) == []
    ensures StartsCrLf(s) ==> Normalize(s) == ['\n'] + Normalize(s[2..])
    ensures s != [] && !StartsCrLf(s) ==> Normalize(s) == [s[0]] + Normalize(s[1..])
  {
  }

  lemma {:induction false} NormalizeCleanCut(a: string, b: string)
    requires !SplitsCrLf(a, b)
    ensures Normalize(a + b) == Normalize(a) + Normalize(b)
    decreases |a|
  {
    hide Normalize;
    NormalizeStep(a);
    NormalizeStep(a + b);
    if a == [] {
      assert a + b == b;
    } else {
      var n := if StartsCrLf(a) then 2 else 1;
      var first, rest := if StartsCrLf(a) then ['\n'] else [a[0]], a[n..];
      assert (a + b)[n..] == rest + b;
      NormalizeCleanCut(rest, b);
      assert first + (Normalize(rest) + Normalize(b)) == (first + Normalize(rest)) + Normalize(b);
    }
  }

  /** Normalising two pieces apart leaves one carriage return too many exactly at a split CRLF. */
  lemma {:induction false} NormalizeAppend(a: string, b: string)
    ensures !SplitsCrLf(a, b) ==> Normalize(a + b) == Normalize(a) + Normalize(b)
    ensures SplitsCrLf(a, b) ==> |Normalize(a + b)| == |Normalize(a)| + |Normalize(b)| - 1
  {
    if !SplitsCrLf(a, b) {
      NormalizeCleanCut(a, b);
    } else {
      hide Normalize;
      var head, cr := a[..|a| - 1], a[|a| - 1..];
      NormalizeCleanCut(head, cr);
      NormalizeCleanCut(head, cr + b);
      assert a == head + cr && a + b == head + (cr + b);
      assert cr[1..] == [] && (cr + b)[2..] == b[1..];
      NormalizeStep([]);
      NormalizeStep(cr);
      NormalizeStep(b);
      NormalizeStep(cr + b);
    }
  }

  /** No cut between two chunks falls between a carriage return and its line feed. */
  ghost predicate CleanCuts(chunks: seq<string>) {
    forall k | 0 <= k < |chunks| :: !SplitsCrLf(Concat(chunks[..k]), chunks[k])
  }

  /** What the parser's buffer receives over all chunks. */
  function Received(chunks: seq<string>): string {
    if chunks == [] then []
    else Received(chunks[..|chunks| - 1]) + Normalize(chunks[|chunks| - 1])
  }

  lemma {:induction false} CleanCutsSnoc(chunks: seq<string>)
    requires chunks != []
    ensures var n := |chunks| - 1;
            CleanCuts(chunks) <==> CleanCuts(chunks[..n]) && !SplitsCrLf(Concat(chunks[..n]), chunks[n])
  {
    hide Concat, SplitsCrLf;
    var n := |chunks| - 1;
    assert forall k | 0 <= k <= n :: chunks[..n][..k] == chunks[..k];
    if CleanCuts(chunks[..n]) && !SplitsCrLf(Concat(chunks[..n]), chunks[n]) {
      forall k | 0 <= k < |chunks| ensures !SplitsCrLf(Concat(chunks[..k]), chunks[k]) {
        if k < n { assert !SplitsCrLf(Concat(chunks[..n][..k]), chunks[..n][k]); }
      }
    }
    if CleanCuts(chunks) {
      forall k | 0 <= k < n ensures !SplitsCrLf(Concat(chunks[..n][..k]), chunks[..n][k]) {
        assert !SplitsCrLf(Concat(chunks[..k]), chunks[k]);
      }
    }
  }

  /** The parser receives the normalised text if and only if every cut is clean. */
  lemma {:induction false} ReceivedIsNormalized(chunks: seq<string>)
    ensures |Received(chunks)| >= |Normalize(Concat(chunks))|
    ensures CleanCuts(chunks) <==> Received(chunks) == Normalize(Concat(chunks))
    ensures !CleanCuts(chunks) ==> |Received(chunks)| > |Normalize(Concat(chunks))|
    decreases |chunks|
  {
    if chunks != [] {
      var n := |chunks| - 1;
      assert Received(chunks) == Received(chunks[..n]) + Normalize(chunks[n]);
      assert Concat(chunks) == Concat(chunks[..n]) + chunks[n];
      hide Received, Normalize, Concat, CleanCuts, SplitsCrLf;
      ReceivedIsNormalized(chunks[..n]);
      NormalizeAppend(Concat(chunks[..n]), chunks[n]);
      CleanCutsSnoc(chunks);
    }
  }

  lemma {:induction false} BoundaryAppend(a: string, b: string)
    requires FindBoundary(a) >= 0
    ensures FindBoundary(a + b) == FindBoundary(a)
  {
    var i := FindBoundary(a);
    assert BlankLineAt(a + b, i);
    assert forall k | 0 <= k < i :: BlankLineAt(a + b, k) ==> BlankLineAt(a, k);
  }

  lemma {:induction false} DrainAppend(a: string, b: string)
    ensures Drain(a + b) == Drained(Drain(a).events + Drain(Drain(a).rest + b).events, Drain(Drain(a).rest + b).rest)
    decreases |a|
  {
    var i := FindBoundary(a);
    if i >= 0 {
      BoundaryAppend(a, b);
      assert (a + b)[..i] == a[..i] && (a + b)[i + 2..] == a[i + 2..] + b;
      DrainAppend(a[i + 2..], b);
      var first, mid := ParseBlock(a[..i]), Drain(a[i + 2..]);
      var last := Drain(mid.rest + b);
      assert first + (mid.events + last.events) == (first + mid.events) + last.events;
    } else {
      assert [] + Drain(a + b).events == Drain(a + b).events;
    }
  }

  /** The unfinished text never exceeds the limit after any chunk. */
  ghost predicate NoOverflow(chunks: seq<string>) {
    forall k | 0 <= k <= |chunks| :: |Drain(Received(chunks[..k])).rest| <= 1_000_000
  }

  lemma {:induction false} NoOverflowPrefix(chunks: seq<string>, n: nat)
    requires n <= |chunks| && NoOverflow(chunks)
    ensures NoOverflow(chunks[..n])
  {
    forall k | 0 <= k <= n ensures |Drain(Received(chunks[..n][..k])).rest| <= 1_000_000 {
      assert chunks[..n][..k] == chunks[..k];
    }
  }

  lemma {:induction false} FeedAllDrainsReceived(chunks: seq<string>)
    requires NoOverflow(chunks)
    ensures FeedAll(chunks) == Drain(Received(chunks))
    decreases |chunks|
  {
    if chunks != [] {
      var n := |chunks| - 1;
      NoOverflowPrefix(chunks, n);
      FeedAllDrainsReceived(chunks[..n]);
      DrainAppend(Received(chunks[..n]), Normalize(chunks[n]));
      assert chunks[..|chunks|] == chunks;
    }
  }

  /** However a text is cut, the events and the residue are those of the whole text. */
  lemma {:induction false} ChunkInvariance(chunks: seq<string>)
    requires CleanCuts(chunks) && NoOverflow(chunks)
    ensures FeedAll(chunks) == Drain(Normalize(Concat(chunks)))
  {
    ReceivedIsNormalized(chunks);
    FeedAllDrainsReceived(chunks);
  }

  /** The buffer is the true residue after every chunk if and only if no residue exceeds the limit. */
  lemma {:induction false} BufferExactIffNoOverflow(chunks: seq<string>)
    ensures NoOverflow(chunks)
       <==> forall k | 0 <= k <= |chunks| :: FeedAll(chunks[..k]).rest == Drain(Received(chunks[..k])).rest
  {
    if NoOverflow(chunks) {
      forall k | 0 <= k <= |chunks| ensures FeedAll(chunks[..k]).rest == Drain(Received(chunks[..k])).rest {
        NoOverflowPrefix(chunks, k);
        FeedAllDrainsReceived(chunks[..k]);
      }
    } else {
      var k :| 0 <= k <= |chunks| && |Drain(Received(chunks[..k])).rest| > 1_000_000;
      assert |FeedAll(chunks[..k]).rest| <= 1_000_000;
    }
  }

  lemma {:induction false} ResidueNoLonger(s: string)
    ensures |Drain(s).rest| <= |s|
    decreases |s|
  {
    if FindBoundary(s) >= 0 { ResidueNoLonger(s[FindBoundary(s) + 2..]); }
  }

  lemma {:induction false} NormalizeNoCrLf(s: string)
    requires forall i | 0 <= i < |s| - 1 :: !(s[i] == '\r' && s[i + 1] == '\n')
    ensures Normalize(s) == s
    decreases |s|
  {
    if s != [] { NormalizeNoCrLf(s[1..]); }
  }

  lemma {:induction false} LineBoundary(line: string, blank: string)
    requires Lacks(line, '\n') && blank == "\n\n"
    ensures FindBoundary(line) < 0
    ensures FindBoundary(line + blank) == |line|
  {
    var s := line + blank;
    assert BlankLineAt(s, |line|);
    assert forall k | 0 <= k < |line| :: s[k] == line[k];
  }

  lemma {:induction false} DataField(value: string)
    ensures FieldName("data:" + value) == "data" && FieldValue("data:" + value) == DropSpace(value)
  {
    var line := "data:" + value;
    assert line[4] == ':' && line[..4] == "data" && line[5..] == value;
  }

  /** A single data line, alone and closed by a blank line. */
  lemma {:induction false} DataLine(line: string, value: string, blank: string)
    requires line == "data:" + value && Lacks(value, '\n') && blank == "\n\n"
    ensures Drain(line) == Drained([], line)
    ensures Drain(line + blank) == Drained([Event("message", DropSpace(value))], [])
  {
    assert Lacks(line, '\n');
    LineBoundary(line, blank);
    DataField(value);
    assert ReadLines(NO_FIELDS, SplitLines(line)) == ReadLine(NO_FIELDS, line) by {
      assert SplitLines(line) == [line] && [line][1..] == [];
    }
    assert [] + [DropSpace(value)] == [DropSpace(value)];
    var s := line + blank;
    assert s[..|line|] == line && s[|line| + 2..] == [];
  }

  lemma {:induction false} FeedTwo(first: string, second: string)
    ensures FeedAll([first, second])
         == Drained(Feed([], first).events + Feed(Feed([], first).rest, second).events, Feed(Feed([], first).rest, second).rest)
    ensures Concat([first, second]) == first + second
  {
    hide Feed;
    var cut := [first, second];
    assert cut[..1] == [first];
    assert [first][..0] == [];
    assert FeedAll([first]) == Feed([], first) by {
      assert [] + Feed([], first).events == Feed([], first).events;
    }
    assert Concat([first]) == first by { assert [] + first == first; }
  }

  lemma {:induction false} DrainBlankLine(blank: string)
    requires blank == "\n\n"
    ensures Drain(blank).events == []
  {
    assert FindBoundary(blank) == 0 && blank[..0] == "" && blank[2..] == [];
    assert SplitLines("") == [""] && [""][1..] == [];
  }

  lemma {:induction false} CutDataLine(line: string, value: string, blank: string)
    requires line == "data:" + value && Lacks(value, '\n') && blank == "\n\n"
    ensures |line| <= 1_000_000 ==> FeedAll([line, blank]).events == [Event("message", DropSpace(value))]
    ensures |line| > 1_000_000 ==> FeedAll([line, blank]).events == []
  {
    hide Drain, Normalize, FeedAll;
    FeedTwo(line, blank);
    NormalizeNoCrLf(line);
    NormalizeNoCrLf(blank);
    DataLine(line, value, blank);
    DrainBlankLine(blank);
    assert [] + line == line && [] + blank == blank;
    assert [] + [Event("message", DropSpace(value))] == [Event("message", DropSpace(value))];
  }

  /** A frame cut where its residue passes the limit is lost; read whole it is an event. */
  lemma {:induction false} OverflowLosesEvent(line: string, value: string, blank: string)
    requires line == "data:" + value && blank == "\n\n"
    requires Lacks(value, '\n') && Lacks(value, '\r') && |line| > 1_000_000
    ensures FeedAll([line, blank]).events == []
    ensures Drain(Normalize(line + blank)).events == [Event("message", DropSpace(value))]
  {
    hide Drain, Normalize, FeedAll;
    CutDataLine(line, value, blank);
    var whole := line + blank;
    assert forall i | 0 <= i < |whole| :: whole[i] != '\r';
    NormalizeNoCrLf(whole);
    DataLine(line, value, blank);
  }

  /** A cut inside a CRLF leaves the carriage return in the data of the event. */
  lemma {:induction false} SplitCrLfChangesData(line: string, value: string, blank: string)
    requires line == "data:" + value && blank == "\n\n"
    requires Lacks(value, '\n') && Lacks(value, '\r') && |line| < 1_000_000
    ensures FeedAll([line + "\r", blank]).events == [Event("message", DropSpace(value + "\r"))]
    ensures Drain(Normalize(line + "\r" + blank)).events == [Event("message", DropSpace(value))]
  {
    hide Drain, Normalize, FeedAll;
    assert line + "\r" == "data:" + (value + "\r");
    CutDataLine(line + "\r", value + "\r", blank);
    NormalizeBlankLine(line, blank);
    DataLine(line, value, blank);
  }

  lemma {:induction false} NormalizeBlankLine(line: string, blank: string)
    requires Lacks(line, '\r') && blank == "\n\n"
    ensures Normalize(line + "\r" + blank) == line + blank
  {
    var tail := "\r" + blank;
    assert line + "\r" + blank == line + tail;
    NormalizeNoCrLf(line);
    NormalizeAppend(line, tail);
    NormalizeNoCrLf(tail[2..]);
    assert "\n" + tail[2..] == blank;
  }
}
