/**
 A terminal surface: process output is coalesced behind an 8 ms flush timer, sent to the
 renderer, and kept as a bounded replay for a renderer that attaches again.
 */
module Terminal {
  import opened JsText
  import opened Options

  const MAX_REPLAY: nat := 1024 * 1024

  datatype Message = Data(text: string) | Exited(code: int)

  /** `sent` and `output` are the history: messages given to the renderer, and all process output. */
  datatype Surface = Surface(
    authentication: bool,
    replay: string,
    pending: string,
    flushTimer: bool,
    exited: bool,
    exitCode: Option<int>,
    rendererAlive: bool,
    sent: seq<Message>,
    output: string)

  function Fresh(authentication: bool): Surface {
    Surface(authentication, "", "", false, false, None, true, [], "")
  }

  datatype Event = Output(text: string) | FlushFires | ProcessExits(code: int) | RendererGone

  /** JavaScript's `s.slice(-MAX_REPLAY)`. */
  function LastChars(s: string): string {
    if |s| <= MAX_REPLAY then s else s[|s| - MAX_REPLAY..]
  }

  predicate Enabled(s: Surface, e: Event) {
    match e
    case FlushFires => s.flushTimer
    case ProcessExits(_) => !s.exited
    case _ => true
  }

  function SendPending(s: Surface): Surface {
    s.(pending := "", sent := if s.rendererAlive && s.pending != "" then s.sent + [Data(s.pending)] else s.sent)
  }

  function Step(s: Surface, e: Event): Surface {
    match e
    case Output(text) =>
      s.(replay := if s.authentication then s.replay else LastChars(s.replay + text),
         pending := s.pending + text, flushTimer := true, output := s.output + text)
    case FlushFires => SendPending(s.(flushTimer := false))
    case ProcessExits(code) =>
      var s' := SendPending(s.(flushTimer := false));
      s'.(exited := true, exitCode := Some(code),
          sent := if s.rendererAlive then s'.sent + [Exited(code)] else s'.sent)
    case RendererGone => s.(rendererAlive := false)
  }

  ghost predicate Legal(s: Surface, events: seq<Event>)
    decreases |events|
  {
    events != [] ==> Enabled(s, events[0]) && Legal(Step(s, events[0]), events[1..])
  }

  ghost function Run(s: Surface, events: seq<Event>): Surface
    decreases |events|
  {
    if events == [] then s else Run(Step(s, events[0]), events[1..])
  }

  ghost function SentText(sent: seq<Message>): string {
    if sent == [] then ""
    else
      var last := sent[|sent| - 1];
      SentText(sent[..|sent| - 1]) + (if last.Data? then last.text else "")
  }

  /** All output, in order: what was sent and then what waits, or a prefix of it once the renderer is gone. */
  ghost predicate Inv(s: Surface) {
    && (s.rendererAlive ==> SentText(s.sent) + s.pending == s.output)
    && SentText(s.sent) <= s.output
    && (s.pending != "" ==> s.flushTimer)
    && s.replay == (if s.authentication then "" else LastChars(s.output))
    && (s.exited <==> s.exitCode.Some?)
  }

  lemma {:induction false} SentTextSnoc(sent: seq<Message>, m: Message)
    ensures SentText(sent + [m]) == SentText(sent) + (if m.Data? then m.text else "")
  {
    assert (sent + [m])[..|sent|] == sent;
  }

  /** The bounded form agrees with the whole history: cutting early and late is cutting late. */
  lemma {:induction false} LastCharsAppend(a: string, b: string)
    ensures LastChars(LastChars(a) + b) == LastChars(a + b)
  {
    if |a| > MAX_REPLAY {
      var drop := |a| - MAX_REPLAY;
      assert LastChars(a) + b == (a + b)[drop..];
    }
  }

  lemma {:induction false} OutputKeepsInv(s: Surface, text: string)
    requires Inv(s)
    ensures Inv(Step(s, Output(text)))
  {
    hide SentText, LastChars;
    LastCharsAppend(s.output, text);
    var sent := SentText(s.sent);
    assert sent + (s.pending + text) == (sent + s.pending) + text;
    assert sent <= s.output + text;
  }

  lemma {:induction false} SendPendingKeepsInv(s: Surface)
    requires Inv(s)
    ensures Inv(SendPending(s.(flushTimer := false)))
  {
    hide SentText, LastChars;
    SentTextSnoc(s.sent, Data(s.pending));
    assert SentText(s.sent) + s.pending + "" == SentText(s.sent) + s.pending;
    assert SentText(s.sent) + "" == SentText(s.sent);
  }

  lemma {:induction false} StepKeepsInv(s: Surface, e: Event)
    requires Inv(s) && Enabled(s, e)
    ensures Inv(Step(s, e))
  {
    hide SentText, LastChars;
    match e
    case Output(text) => OutputKeepsInv(s, text);
    case FlushFires => SendPendingKeepsInv(s);
    case ProcessExits(code) =>
      SendPendingKeepsInv(s);
      var flushed := SendPending(s.(flushTimer := false));
      SentTextSnoc(flushed.sent, Exited(code));
      assert SentText(flushed.sent) + "" == SentText(flushed.sent);
    case RendererGone =>
  }

  lemma {:induction false} EveryRunKeepsInv(s: Surface, events: seq<Event>)
    requires Inv(s) && Legal(s, events)
    ensures Inv(Run(s, events))
    decreases |events|
  {
    if events != [] {
      StepKeepsInv(s, events[0]);
      EveryRunKeepsInv(Step(s, events[0]), events[1..]);
    }
  }

  /**
   On every run, with no reference to the surface's own fields or cuts: the replay is the last
   1,048,576 characters of all output, or nothing for a sign-in; and with a live renderer what was
   sent and what waits is all output in order, nothing waiting without a timer.
   */
  lemma {:induction false} OutputIsKeptAndSent(authentication: bool, events: seq<Event>)
    requires Legal(Fresh(authentication), events)
    ensures var s := Run(Fresh(authentication), events);
            && s.output == AllOutput(events)
            && (if authentication then s.replay == "" else IsTail(s.replay, s.output))
            && (RendererStays(events) ==> SentText(s.sent) + s.pending == s.output)
            && (s.pending != "" ==> s.flushTimer)
  {
    EveryRunKeepsInv(Fresh(authentication), events);
    RunIsOfSurface(Fresh(authentication), events);
    hide Run, Legal, SentText, AllOutput, RendererStays, LastChars, IsTail;
    EmptyJoins(AllOutput(events));
    TailIsLast(Run(Fresh(authentication), events).output);
  }

  /** The last 1,048,576 characters of the output, or all of it. */
  ghost predicate IsTail(replay: string, output: string) {
    && |replay| == (if |output| < 1_048_576 then |output| else 1_048_576)
    && replay == output[|output| - |replay|..]
  }

  lemma {:induction false} TailIsLast(output: string)
    ensures IsTail(LastChars(output), output)
  {
  }

  ghost function OutputOf(e: Event): string {
    if e.Output? then e.text else ""
  }

  ghost function AllOutput(events: seq<Event>): string {
    if events == [] then "" else OutputOf(events[0]) + AllOutput(events[1..])
  }

  ghost predicate RendererStays(events: seq<Event>) {
    forall i | 0 <= i < |events| :: !events[i].RendererGone?
  }

  lemma {:induction false} RunIsOfSurface(s: Surface, events: seq<Event>)
    ensures var s' := Run(s, events);
            && s'.authentication == s.authentication && s'.output == s.output + AllOutput(events)
            && (RendererStays(events) ==> s'.rendererAlive == s.rendererAlive)
    decreases |events|
  {
    if events == [] {
      EmptyJoins(s.output);
    } else {
      var e, rest, s1 := events[0], events[1..], Step(s, events[0]);
      StepIsOfSurface(s, e);
      var first, later := OutputOf(e), AllOutput(rest);
      assert AllOutput(events) == first + later;
      assert RendererStays(events) ==> !e.RendererGone? && RendererStays(rest);
      assert Run(s, events) == Run(s1, rest);
      hide Run, Step, AllOutput, OutputOf, RendererStays;
      RunIsOfSurface(s1, rest);
      Associates(s.output, first, later);
    }
  }

  lemma {:induction false} StepIsOfSurface(s: Surface, e: Event)
    ensures var s' := Step(s, e);
            && s'.authentication == s.authentication && s'.output == s.output + OutputOf(e)
            && (!e.RendererGone? ==> s'.rendererAlive == s.rendererAlive)
  {
    EmptyJoins(s.output);
    hide LastChars;
  }

  /** Once the renderer is gone nothing is sent to it, whatever happens. */
  lemma {:induction false} NothingSentOnceGone(s: Surface, events: seq<Event>)
    ensures Run(s, [RendererGone] + events).sent == s.sent
  {
    assert ([RendererGone] + events)[1..] == events;
    GoneStaysSilent(Step(s, RendererGone), events);
  }

  lemma {:induction false} GoneStaysSilent(s: Surface, events: seq<Event>)
    requires !s.rendererAlive
    ensures Run(s, events).sent == s.sent
    decreases |events|
  {
    if events != [] { GoneStaysSilent(Step(s, events[0]), events[1..]); }
  }

  /** A flush sends all that waits. */
  lemma {:induction false} FlushSendsAll(s: Surface)
    requires Inv(s) && Enabled(s, FlushFires) && s.rendererAlive
    ensures var s' := Step(s, FlushFires); s'.pending == "" && !s'.flushTimer && SentText(s'.sent) == s.output
  {
    SendPendingKeepsInv(s);
    var s' := Step(s, FlushFires);
    assert SentText(s'.sent) + "" == SentText(s'.sent);
  }

  /** With a live renderer, exit leaves nothing behind: all output precedes the exit message. */
  lemma {:induction false} ExitComesLast(s: Surface, code: int)
    requires Inv(s) && s.rendererAlive && !s.exited
    ensures var s' := Step(s, ProcessExits(code));
            && s'.sent != [] && s'.sent[|s'.sent| - 1] == Exited(code)
            && SentText(s'.sent[..|s'.sent| - 1]) == s'.output == s.output
            && s'.pending == "" && !Enabled(s', FlushFires)
            && s'.exited && s'.exitCode == Some(code) && s'.replay == s.replay
  {
    var flushed := SendPending(s.(flushTimer := false));
    SentTextSnoc(s.sent, Data(s.pending));
    assert (flushed.sent + [Exited(code)])[..|flushed.sent|] == flushed.sent;
    assert SentText(s.sent) + "" == SentText(s.sent);
  }

  /** What a renderer that attaches at `s` sees: the replay and everything sent from then on. */
  ghost function SeenAfterReattach(s: Surface, later: Surface): string
    requires |s.sent| <= |later.sent|
  {
    s.replay + SentText(later.sent[|s.sent|..])
  }

  lemma {:induction false} SentTextSplit(a: seq<Message>, b: seq<Message>)
    ensures SentText(a + b) == SentText(a) + SentText(b)
    decreases |b|
  {
    if b == [] {
      assert a + b == a && SentText(a) + "" == SentText(a);
    } else {
      var n := |b| - 1;
      SentTextSplit(a, b[..n]);
      assert a + b == (a + b[..n]) + [b[n]];
      SentTextSnoc(a + b[..n], b[n]);
      var t := if b[n].Data? then b[n].text else "";
      assert SentText(a) + SentText(b[..n]) + t == SentText(a) + (SentText(b[..n]) + t);
    }
  }

  lemma {:induction false} RunExtends(s: Surface, events: seq<Event>)
    ensures s.sent <= Run(s, events).sent && s.output <= Run(s, events).output
    decreases |events|
  {
    if events != [] { RunExtends(Step(s, events[0]), events[1..]); }
  }

  /** What the renderer should get on attaching: the replay's share of the output, or what waits if none is kept. */
  ghost function Recent(s: Surface): string {
    if s.authentication then s.pending else LastChars(s.output)
  }

  /**
   Attaching again shows the recent output and all that follows exactly once if and only if
   nothing was waiting to be sent or no replay is kept: a replay already contains the waiting text.
   */
  lemma {:induction false} ReattachExactIff(s: Surface, events: seq<Event>)
    requires Inv(s) && Legal(s, events)
    requires Run(s, events).rendererAlive && s.rendererAlive
    ensures var later := Run(s, events);
            && s.sent <= later.sent && s.output <= later.output
            && (SeenAfterReattach(s, later) + later.pending == Recent(s) + later.output[|s.output|..]
                <==> s.authentication || s.pending == "")
  {
    hide SentText, Run, Legal, LastChars;
    EveryRunKeepsInv(s, events);
    RunExtends(s, events);
    var later := Run(s, events);
    var newSent, newOutput := later.sent[|s.sent|..], later.output[|s.output|..];
    assert later.sent == s.sent + newSent;
    SentTextSplit(s.sent, newSent);
    assert later.output == s.output + newOutput;
    ReplayRepeatsPending(s.replay, SentText(s.sent), s.pending, SentText(newSent), later.pending, newOutput);
    if s.authentication { assert "" + SentText(newSent) == SentText(newSent); }
  }

  /** All output is `sent + pending` before and `sent + more + waiting` after. */
  lemma {:induction false} ReplayRepeatsPending(replay: string, sent: string, pending: string, more: string, waiting: string, output: string)
    requires (sent + more) + waiting == (sent + pending) + output
    ensures (replay + more) + waiting == replay + output <==> pending == ""
    ensures more + waiting == pending + output
  {
    assert more + waiting == pending + output by {
      assert ((sent + more) + waiting)[|sent|..] == more + waiting;
      assert ((sent + pending) + output)[|sent|..] == pending + output;
    }
    assert (replay + more) + waiting == replay + (more + waiting);
    if pending == "" {
      assert "" + output == output;
    } else {
      assert |(replay + more) + waiting| > |replay + output|;
    }
  }

  /** The surface record and its three callbacks. */
  class TerminalSurface {
    const authentication: bool
    var replay: string
    var pending: string
    var flushTimer: bool
    var exited: bool
    var exitCode: Option<int>
    var rendererAlive: bool
    ghost var sent: seq<Message>
    ghost var output: string

    ghost function View(): Surface
      reads this
    {
      Surface(authentication, replay, pending, flushTimer, exited, exitCode, rendererAlive, sent, output)
    }

    constructor (authentication: bool)
      ensures View() == Fresh(authentication)
    {
      this.authentication := authentication;
      replay, pending, flushTimer, exited, exitCode, rendererAlive := "", "", false, false, None, true;
      sent, output := [], "";
    }

    method OnData(data: string)
      modifies this
      ensures View() == Step(old(View()), Output(data))
    {
      if !authentication { replay := LastChars(replay + data); }
      pending := pending + data;
      output := output + data;
      if flushTimer { return; }
      flushTimer := true;
    }

    method OnFlush()
      requires Enabled(View(), FlushFires)
      modifies this
      ensures View() == Step(old(View()), FlushFires)
    {
      flushTimer := false;
      var chunk := pending;
      pending := "";
      if rendererAlive && chunk != "" { sent := sent + [Data(chunk)]; }
    }

    method OnExit(code: int)
      requires Enabled(View(), ProcessExits(code))
      modifies this
      ensures View() == Step(old(View()), ProcessExits(code))
    {
      if flushTimer { flushTimer := false; }
      if rendererAlive && pending != "" { sent := sent + [Data(pending)]; }
      pending := "";
      exited := true;
      exitCode := Some(code);
      if rendererAlive { sent := sent + [Exited(code)]; }
    }
  }
}
