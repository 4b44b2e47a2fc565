/**
 The JSON-RPC client over a child process's standard streams: newline framing of arbitrary
 chunks, and the correlation of requests with replies, timeouts and the end of the process
 (sections 4 and 5 of the JSON-RPC 2.0 specification).
 */
module RpcClient {
  import opened Options
  import opened JsText

  datatype Id = Absent | Null | Number(n: int) | Text(s: string)

  /** A parsed message; `error` is present only if its value is truthy, payloads are opaque text. */
  datatype Message = Message(
    id: Id,
    hasResult: bool,
    hasError: bool,
    error: Option<string>,
    result: string,
    kind: string,
    params: string)

  datatype Outcome = Resolved(value: string) | Rejected(error: string) | TimedOut | ProcessGone(code: int)

  datatype Settlement = Settlement(id: nat, outcome: Outcome)

  /** `pending` is the map of waiting requests in its insertion order; `log` lists settlements as they happen. */
  datatype Client = Client(
    buffer: string,
    nextId: nat,
    pending: seq<nat>,
    timers: set<nat>,
    updates: seq<string>,
    exitCode: Option<int>,
    log: seq<Settlement>)

  const INITIAL := Client("", 0, [], {}, [], None, [])

  /** The parser of one line is a parameter: JSON itself is not modelled. */
  type Parser = string -> Option<Message>

  // ---------------------------------------------------------------- framing

  datatype Framed = Framed(lines: seq<string>, rest: string)

  function Frame(s: string): Framed
    decreases |s|
  {
    var i := IndexOf(s, '\n');
    if i < 0 then Framed([], s)
    else
      var later := Frame(s[i + 1..]);
      Framed([s[..i]] + later.lines, later.rest)
  }

  lemma {:induction false} FrameFirst(a: string, b: string, i: nat)
    requires i == IndexOf(a, '\n')
    ensures i < |a| && Frame(a + b) == Framed([a[..i]] + Frame(a[i + 1..] + b).lines, Frame(a[i + 1..] + b).rest)
  {
    hide IndexOf;
    IndexOfAppend(a, b, '\n');
    assert (a + b)[..i] == a[..i] && (a + b)[i + 1..] == a[i + 1..] + b;
  }

  lemma {:induction false} FrameAppend(a: string, b: string)
    ensures Frame(a + b) == Framed(Frame(a).lines + Frame(Frame(a).rest + b).lines, Frame(Frame(a).rest + b).rest)
    decreases |a|
  {
    hide IndexOf;
    var i := IndexOf(a, '\n');
    if i < 0 {
      assert [] + Frame(a + b).lines == Frame(a + b).lines;
    } else {
      var rest := a[i + 1..];
      var mid := Frame(rest);
      assert Frame(a) == Framed([a[..i]] + mid.lines, mid.rest);
      hide Frame;
      FrameFirst(a, b, i);
      FrameAppend(rest, b);
      Associates([a[..i]], mid.lines, Frame(mid.rest + b).lines);
    }
  }

  ghost function Unframed(lines: seq<string>): string {
    if lines == [] then "" else lines[0] + "\n" + Unframed(lines[1..])
  }

  /** The lines and the rest are the text again, and hold no line feed of their own. */
  lemma {:induction false} FrameIsExact(s: string)
    ensures Unframed(Frame(s).lines) + Frame(s).rest == s && Lacks(Frame(s).rest, '\n')
    ensures forall i | 0 <= i < |Frame(s).lines| :: Lacks(Frame(s).lines[i], '\n')
    decreases |s|
  {
    hide IndexOf, Unframed;
    var i := IndexOf(s, '\n');
    if i < 0 {
      UnframedNone(s);
    } else {
      var line, after := s[..i], s[i + 1..];
      var later := Frame(after);
      assert Frame(s) == Framed([line] + later.lines, later.rest);
      hide Frame;
      CutAtLineFeed(s, i);
      FrameIsExact(after);
      UnframedCons(line, later.lines, later.rest);
      AllLack(line, later.lines);
    }
  }

  lemma {:induction false} CutAtLineFeed(s: string, i: nat)
    requires i == IndexOf(s, '\n')
    ensures i < |s| && s == s[..i] + "\n" + s[i + 1..] && Lacks(s[..i], '\n')
  {
    hide IndexOf;
  }

  lemma {:induction false} AllLack(line: string, lines: seq<string>)
    requires Lacks(line, '\n') && forall i | 0 <= i < |lines| :: Lacks(lines[i], '\n')
    ensures forall i | 0 <= i < |[line] + lines| :: Lacks(([line] + lines)[i], '\n')
  {
    hide Lacks;
  }

  lemma {:induction false} UnframedNone(s: string)
    ensures Unframed([]) + s == s
  {
  }

  lemma {:induction false} UnframedCons(line: string, lines: seq<string>, rest: string)
    ensures Unframed([line] + lines) + rest == line + "\n" + (Unframed(lines) + rest)
  {
    assert ([line] + lines)[1..] == lines;
    var text := Unframed(lines);
    hide Unframed;
    assert (line + "\n" + text) + rest == line + "\n" + (text + rest);
  }

  // ---------------------------------------------------------------- one signal at a time

  /** What reaches the client, cut down to single effects. */
  datatype Signal = Sent | Line(text: string) | TimerFires(id: nat) | ProcessEnds(code: int)

  function Without(ids: seq<nat>, id: nat): (r: seq<nat>)
    ensures forall x :: x in r <==> x in ids && x != id
  {
    if ids == [] then []
    else
      assert ids == [ids[0]] + ids[1..];
      (if ids[0] == id then [] else [ids[0]]) + Without(ids[1..], id)
  }

  function Settle(c: Client, id: nat, outcome: Outcome): Client {
    c.(pending := Without(c.pending, id), timers := c.timers - {id}, log := c.log + [Settlement(id, outcome)])
  }

  predicate IsReply(m: Message) {
    !m.id.Absent? && !m.id.Null? && (m.hasResult || m.hasError)
  }

  function ReplyOutcome(m: Message): Outcome {
    if m.error.Some? then Rejected(m.error.value) else Resolved(m.result)
  }

  function Dispatch(c: Client, m: Message): Client {
    if IsReply(m) then
      if m.id.Number? && m.id.n >= 0 && m.id.n in c.pending then Settle(c, m.id.n, ReplyOutcome(m)) else c
    else if m.kind == "session/update" then c.(updates := c.updates + [m.params])
    else c
  }

  function Gone(ids: seq<nat>, code: int): (r: seq<Settlement>)
    ensures |r| == |ids| && forall i | 0 <= i < |r| :: r[i] == Settlement(ids[i], ProcessGone(code))
  {
    if ids == [] then [] else [Settlement(ids[0], ProcessGone(code))] + Gone(ids[1..], code)
  }

  function Apply(parse: Parser, c: Client, s: Signal): Client {
    match s
    case Sent => c.(nextId := c.nextId + 1, pending := c.pending + [c.nextId], timers := c.timers + {c.nextId})
    case Line(text) =>
      var line := Trim(text);
      if line == "" || parse(line).None? then c else Dispatch(c, parse(line).value)
    case TimerFires(id) => Settle(c, id, TimedOut)
    case ProcessEnds(code) =>
      c.(exitCode := Some(code), pending := [], timers := c.timers - (set id | id in c.pending),
         log := c.log + Gone(c.pending, code))
  }

  function ApplyAll(parse: Parser, c: Client, signals: seq<Signal>): Client
    decreases |signals|
  {
    if signals == [] then c else ApplyAll(parse, Apply(parse, c, signals[0]), signals[1..])
  }

  /** A cleared timer never fires. */
  ghost predicate LegalSignals(parse: Parser, c: Client, signals: seq<Signal>)
    decreases |signals|
  {
    signals != [] ==>
      && (signals[0].TimerFires? ==> signals[0].id in c.timers)
      && LegalSignals(parse, Apply(parse, c, signals[0]), signals[1..])
  }

  // ---------------------------------------------------------------- events

  datatype Event = Send(stdinOpen: bool) | Stdout(chunk: string) | Timeout(id: nat) | Exit(code: int)

  function Lines(texts: seq<string>): (r: seq<Signal>)
    ensures |r| == |texts| && forall i | 0 <= i < |r| :: r[i] == Line(texts[i])
  {
    if texts == [] then [] else [Line(texts[0])] + Lines(texts[1..])
  }

  /** The single effects of one event on a client in state `c`. */
  function Signals(c: Client, e: Event): seq<Signal> {
    match e
    case Send(stdinOpen) => if stdinOpen then [Sent] else []
    case Stdout(chunk) => Lines(Frame(c.buffer + chunk).lines)
    case Timeout(id) => [TimerFires(id)]
    case Exit(code) => [ProcessEnds(code)]
  }

  function Rest(c: Client, e: Event): string {
    if e.Stdout? then Frame(c.buffer + e.chunk).rest else c.buffer
  }

  function Step(parse: Parser, c: Client, e: Event): Client {
    ApplyAll(parse, c.(buffer := Rest(c, e)), Signals(c, e))
  }

  ghost predicate Legal(parse: Parser, c: Client, events: seq<Event>)
    decreases |events|
  {
    events != [] ==>
      && (events[0].Timeout? ==> events[0].id in c.timers)
      && Legal(parse, Step(parse, c, events[0]), events[1..])
  }

  ghost function Run(parse: Parser, c: Client, events: seq<Event>): Client
    decreases |events|
  {
    if events == [] then c else Run(parse, Step(parse, c, events[0]), events[1..])
  }

  /** All signals of a run, in order. */
  ghost function Trace(parse: Parser, c: Client, events: seq<Event>): seq<Signal>
    decreases |events|
  {
    if events == [] then []
    else Signals(c, events[0]) + Trace(parse, Step(parse, c, events[0]), events[1..])
  }

  // ---------------------------------------------------------------- the books balance

  ghost predicate InLog(log: seq<Settlement>, id: nat) {
    exists i | 0 <= i < |log| :: log[i].id == id
  }

  ghost predicate Distinct(ids: seq<nat>) {
    forall i, j | 0 <= i < j < |ids| :: ids[i] != ids[j]
  }

  /** Waiting requests are exactly the issued, unsettled ones; nothing settles twice; timers belong to the waiting. */
  ghost predicate Inv(c: Client) {
    && Distinct(c.pending)
    && (forall i, j | 0 <= i < j < |c.log| :: c.log[i].id != c.log[j].id)
    && (forall id: nat :: id in c.timers <==> id in c.pending)
    && (forall id: nat :: id < c.nextId <==> (id in c.pending || InLog(c.log, id)))
    && (forall id: nat :: !(id in c.pending && InLog(c.log, id)))
  }

  lemma {:induction false} WithoutDistinct(ids: seq<nat>, id: nat)
    requires Distinct(ids)
    ensures Distinct(Without(ids, id))
    decreases |ids|
  {
    if ids != [] {
      var rest := Without(ids[1..], id);
      assert Distinct(ids[1..]);
      WithoutDistinct(ids[1..], id);
      forall j | 0 <= j < |rest| ensures rest[j] != ids[0] {
        assert rest[j] in rest;
      }
    }
  }

  lemma {:induction false} InLogAppend(log: seq<Settlement>, more: seq<Settlement>, id: nat)
    ensures InLog(log + more, id) <==> InLog(log, id) || InLog(more, id)
  {
    if i :| 0 <= i < |log| && log[i].id == id { assert (log + more)[i].id == id; }
    if i :| 0 <= i < |more| && more[i].id == id { assert (log + more)[|log| + i].id == id; }
    if i :| 0 <= i < |log + more| && (log + more)[i].id == id {
      if i >= |log| { assert more[i - |log|].id == id; }
    }
  }

  lemma {:induction false} SettleKeepsInv(c: Client, id: nat, outcome: Outcome)
    requires Inv(c) && id in c.pending
    ensures Inv(Settle(c, id, outcome))
  {
    var c' := Settle(c, id, outcome);
    var more := [Settlement(id, outcome)];
    WithoutDistinct(c.pending, id);
    forall x: nat ensures InLog(c'.log, x) <==> InLog(c.log, x) || x == id {
      InLogAppend(c.log, more, x);
      assert more[0].id == id;
    }
    forall i, j | 0 <= i < j < |c'.log| ensures c'.log[i].id != c'.log[j].id {
      if j == |c.log| { assert InLog(c.log, c.log[i].id); }
    }
  }

  lemma {:induction false} ProcessEndKeepsInv(parse: Parser, c: Client, code: int)
    requires Inv(c)
    ensures Inv(Apply(parse, c, ProcessEnds(code)))
  {
    var c' := Apply(parse, c, ProcessEnds(code));
    var more := Gone(c.pending, code);
    forall x: nat ensures InLog(c'.log, x) <==> InLog(c.log, x) || x in c.pending {
      InLogAppend(c.log, more, x);
      if x in c.pending {
        var i :| 0 <= i < |c.pending| && c.pending[i] == x;
        assert more[i].id == x;
      }
    }
    forall i, j | 0 <= i < j < |c'.log| ensures c'.log[i].id != c'.log[j].id {
      if j >= |c.log| > i {
        assert InLog(c.log, c.log[i].id);
        assert c.pending[j - |c.log|] in c.pending;
      }
    }
  }

  lemma {:induction false} SendKeepsInv(parse: Parser, c: Client)
    requires Inv(c)
    ensures Inv(Apply(parse, c, Sent))
  {
    assert c.nextId !in c.pending;
  }

  lemma {:induction false} DispatchKeepsInv(c: Client, m: Message)
    requires Inv(c)
    ensures Inv(Dispatch(c, m))
  {
    if IsReply(m) && m.id.Number? && m.id.n >= 0 && m.id.n in c.pending {
      SettleKeepsInv(c, m.id.n, ReplyOutcome(m));
    }
  }

  lemma {:induction false} ApplyKeepsInv(parse: Parser, c: Client, s: Signal)
    requires Inv(c) && (s.TimerFires? ==> s.id in c.timers)
    ensures Inv(Apply(parse, c, s))
  {
    hide Inv, Dispatch, Settle, Trim;
    match s
    case Sent => SendKeepsInv(parse, c);
    case Line(text) =>
      var line := Trim(text);
      if line != "" && parse(line).Some? { DispatchKeepsInv(c, parse(line).value); }
    case TimerFires(id) =>
      assert id in c.pending by { TimersWait(c, id); }
      SettleKeepsInv(c, id, TimedOut);
    case ProcessEnds(code) => ProcessEndKeepsInv(parse, c, code);
  }

  lemma {:induction false} TimersWait(c: Client, id: nat)
    requires Inv(c) && id in c.timers
    ensures id in c.pending
  {
  }

  // ---------------------------------------------------------------- runs as traces

  lemma {:induction false} ApplyAllAppend(parse: Parser, c: Client, a: seq<Signal>, b: seq<Signal>)
    ensures ApplyAll(parse, c, a + b) == ApplyAll(parse, ApplyAll(parse, c, a), b)
    decreases |a|
  {
    hide Apply;
    if a == [] {
      assert a + b == b;
    } else {
      assert (a + b)[1..] == a[1..] + b;
      ApplyAllAppend(parse, Apply(parse, c, a[0]), a[1..], b);
    }
  }

  lemma {:induction false} ApplyIgnoresBuffer(parse: Parser, c: Client, s: Signal, x: string)
    ensures Apply(parse, c.(buffer := x), s) == Apply(parse, c, s).(buffer := x)
  {
  }

  lemma {:induction false} ApplyAllIgnoresBuffer(parse: Parser, c: Client, signals: seq<Signal>, x: string)
    ensures ApplyAll(parse, c.(buffer := x), signals) == ApplyAll(parse, c, signals).(buffer := x)
    decreases |signals|
  {
    hide Apply;
    if signals != [] {
      ApplyIgnoresBuffer(parse, c, signals[0], x);
      ApplyAllIgnoresBuffer(parse, Apply(parse, c, signals[0]), signals[1..], x);
    }
  }

  lemma {:induction false} LegalAppend(parse: Parser, c: Client, a: seq<Signal>, b: seq<Signal>)
    requires LegalSignals(parse, c, a) && LegalSignals(parse, ApplyAll(parse, c, a), b)
    ensures LegalSignals(parse, c, a + b)
    decreases |a|
  {
    hide Apply;
    if a == [] {
      assert a + b == b;
    } else {
      assert (a + b)[1..] == a[1..] + b;
      LegalAppend(parse, Apply(parse, c, a[0]), a[1..], b);
    }
  }

  lemma {:induction false} LinesAreLegal(parse: Parser, c: Client, signals: seq<Signal>)
    requires forall i | 0 <= i < |signals| :: !signals[i].TimerFires?
    ensures LegalSignals(parse, c, signals)
    decreases |signals|
  {
    hide Apply;
    if signals != [] { LinesAreLegal(parse, Apply(parse, c, signals[0]), signals[1..]); }
  }

  lemma {:induction false} LegalIgnoresBuffer(parse: Parser, c: Client, signals: seq<Signal>, x: string)
    ensures LegalSignals(parse, c.(buffer := x), signals) == LegalSignals(parse, c, signals)
    decreases |signals|
  {
    hide Apply;
    if signals != [] {
      ApplyIgnoresBuffer(parse, c, signals[0], x);
      LegalIgnoresBuffer(parse, Apply(parse, c, signals[0]), signals[1..], x);
    }
  }

  lemma {:induction false} StepIsLegal(parse: Parser, c: Client, e: Event)
    requires e.Timeout? ==> e.id in c.timers
    ensures LegalSignals(parse, c, Signals(c, e))
  {
    hide Apply, Frame;
    if e.Timeout? {
      assert [TimerFires(e.id)][1..] == [];
    } else {
      LinesAreLegal(parse, c, Signals(c, e));
    }
  }

  /** A run is its trace of single effects, applied in order. */
  lemma {:induction false} RunIsTrace(parse: Parser, c: Client, events: seq<Event>)
    requires Legal(parse, c, events)
    ensures LegalSignals(parse, c, Trace(parse, c, events))
    ensures Run(parse, c, events)
         == ApplyAll(parse, c, Trace(parse, c, events)).(buffer := Run(parse, c, events).buffer)
    decreases |events|
  {
    hide Signals, Rest, Apply;
    if events != [] {
      var e, rest := events[0], events[1..];
      var c1 := Step(parse, c, e);
      RunIsTrace(parse, c1, rest);
      StepIsLegal(parse, c, e);
      var first, later := Signals(c, e), Trace(parse, c1, rest);
      ApplyAllIgnoresBuffer(parse, c, first, Rest(c, e));
      var plain := ApplyAll(parse, c, first);
      assert c1 == plain.(buffer := c1.buffer);
      ApplyAllIgnoresBuffer(parse, plain, later, c1.buffer);
      LegalIgnoresBuffer(parse, plain, later, c1.buffer);
      ApplyAllAppend(parse, c, first, later);
      LegalAppend(parse, c, first, later);
    }
  }

  lemma {:induction false} TraceKeepsInv(parse: Parser, c: Client, signals: seq<Signal>)
    requires Inv(c) && LegalSignals(parse, c, signals)
    ensures Inv(ApplyAll(parse, c, signals))
    ensures c.nextId <= ApplyAll(parse, c, signals).nextId
    decreases |signals|
  {
    hide Inv;
    if signals != [] {
      ApplyKeepsInv(parse, c, signals[0]);
      TraceKeepsInv(parse, Apply(parse, c, signals[0]), signals[1..]);
    }
  }

  /**
   On every run the waiting requests are exactly the issued, unsettled ones, each with its
   timer; no request settles twice; and identifiers are never reused.
   */
  lemma {:induction false} EveryRunBalances(parse: Parser, events: seq<Event>)
    requires Legal(parse, INITIAL, events)
    ensures Inv(Run(parse, INITIAL, events))
  {
    RunIsTrace(parse, INITIAL, events);
    var trace := Trace(parse, INITIAL, events);
    assert Inv(INITIAL);
    TraceKeepsInv(parse, INITIAL, trace);
    BooksIgnoreBuffer(ApplyAll(parse, INITIAL, trace), Run(parse, INITIAL, events).buffer);
  }

  lemma {:induction false} BooksIgnoreBuffer(c: Client, x: string)
    requires Inv(c)
    ensures Inv(c.(buffer := x))
  {
  }

  // ---------------------------------------------------------------- who settles a request

  /**
   How one signal settles the waiting request `id`: a line holding a reply with this very number
   and a result or an error rejects it with the error if there is one and else resolves it.
   */
  ghost function SettledBy(parse: Parser, s: Signal, id: nat): Option<Outcome> {
    match s
    case Sent => None
    case Line(text) =>
      var line := Trim(text);
      if line == "" || parse(line).None? then None
      else
        var m := parse(line).value;
        if m.id != Number(id) || (!m.hasResult && !m.hasError) then None
        else if m.error.Some? then Some(Rejected(m.error.value))
        else Some(Resolved(m.result))
    case TimerFires(t) => if t == id then Some(TimedOut) else None
    case ProcessEnds(code) => Some(ProcessGone(code))
  }

  /** The first signal after the request was sent that concerns it; `next` is the next identifier. */
  ghost function Fate(parse: Parser, signals: seq<Signal>, next: nat, id: nat): Option<Outcome>
    decreases |signals|
  {
    if signals == [] then None
    else
      var now := if id < next then SettledBy(parse, signals[0], id) else None;
      if now.Some? then now
      else Fate(parse, signals[1..], if signals[0].Sent? then next + 1 else next, id)
  }

  ghost function Lookup(log: seq<Settlement>, id: nat): Option<Outcome> {
    if log == [] then None else if log[0].id == id then Some(log[0].outcome) else Lookup(log[1..], id)
  }

  lemma {:induction false} LookupAppend(a: seq<Settlement>, b: seq<Settlement>, id: nat)
    ensures Lookup(a + b, id) == (if Lookup(a, id).Some? then Lookup(a, id) else Lookup(b, id))
    decreases |a|
  {
    if a == [] { assert a + b == b; }
    else { assert (a + b)[1..] == a[1..] + b; LookupAppend(a[1..], b, id); }
  }

  lemma {:induction false} LookupFinds(log: seq<Settlement>, id: nat)
    ensures Lookup(log, id).Some? <==> InLog(log, id)
    decreases |log|
  {
    if log != [] {
      LookupFinds(log[1..], id);
      if i :| 0 <= i < |log| && log[i].id == id && i > 0 { assert log[1..][i - 1].id == id; }
      if i :| 0 <= i < |log[1..]| && log[1..][i].id == id { assert log[i + 1].id == id; }
    }
  }

  lemma {:induction false} LookupGone(ids: seq<nat>, code: int, id: nat)
    ensures Lookup(Gone(ids, code), id) == (if id in ids then Some(ProcessGone(code)) else None)
    decreases |ids|
  {
    if ids != [] {
      var log := Gone(ids, code);
      assert log[1..] == Gone(ids[1..], code);
      assert Lookup(log, id) == if log[0].id == id then Some(log[0].outcome) else Lookup(log[1..], id);
      assert log[0] == Settlement(ids[0], ProcessGone(code));
      hide Lookup, Gone;
      LookupGone(ids[1..], code, id);
      assert ids == [ids[0]] + ids[1..];
    }
  }

  lemma {:induction false} ApplySettles(parse: Parser, c: Client, s: Signal, id: nat)
    requires Inv(c) && (s.TimerFires? ==> s.id in c.timers)
    ensures Lookup(Apply(parse, c, s).log, id)
         == (if Lookup(c.log, id).Some? then Lookup(c.log, id)
             else if id < c.nextId then SettledBy(parse, s, id) else None)
  {
    LookupFinds(c.log, id);
    match s
    case Sent =>
    case Line(text) =>
      var line := Trim(text);
      if line != "" && parse(line).Some? {
        var m := parse(line).value;
        if IsReply(m) && m.id.Number? && m.id.n >= 0 && m.id.n in c.pending {
          LookupOneMore(c.log, Settlement(m.id.n, ReplyOutcome(m)), id);
        }
      }
    case TimerFires(t) =>
      LookupOneMore(c.log, Settlement(t, TimedOut), id);
    case ProcessEnds(code) =>
      LookupAppend(c.log, Gone(c.pending, code), id);
      LookupGone(c.pending, code, id);
  }

  lemma {:induction false} LookupOneMore(log: seq<Settlement>, s: Settlement, id: nat)
    ensures Lookup(log + [s], id)
         == (if Lookup(log, id).Some? then Lookup(log, id) else if s.id == id then Some(s.outcome) else None)
  {
    LookupAppend(log, [s], id);
    assert [s][1..] == [];
  }

  lemma {:induction false} TraceSettles(parse: Parser, c: Client, signals: seq<Signal>, id: nat)
    requires Inv(c) && LegalSignals(parse, c, signals)
    ensures Lookup(ApplyAll(parse, c, signals).log, id)
         == (if Lookup(c.log, id).Some? then Lookup(c.log, id) else Fate(parse, signals, c.nextId, id))
    decreases |signals|
  {
    if signals != [] {
      var c1 := Apply(parse, c, signals[0]);
      ApplyKeepsInv(parse, c, signals[0]);
      ApplySettles(parse, c, signals[0], id);
      assert c1.nextId == if signals[0].Sent? then c.nextId + 1 else c.nextId;
      hide Inv, SettledBy, Lookup, Apply;
      TraceSettles(parse, c1, signals[1..], id);
    }
  }

  /**
   Each request ends exactly as the first of its own reply, its own timeout and the end of the
   process says, counting from its sending; without any of them it is not settled.
   */
  lemma {:induction false} EveryRequestMeetsItsFate(parse: Parser, events: seq<Event>, id: nat)
    requires Legal(parse, INITIAL, events)
    ensures Lookup(Run(parse, INITIAL, events).log, id) == Fate(parse, Trace(parse, INITIAL, events), 0, id)
  {
    RunIsTrace(parse, INITIAL, events);
    assert Inv(INITIAL);
    hide Run, Legal, LegalSignals, Trace, ApplyAll, Fate, Inv;
    TraceSettles(parse, INITIAL, Trace(parse, INITIAL, events), id);
  }

  // ---------------------------------------------------------------- chunking

  /** What a signal notifies of: a line that is no reply and is called `session/update`. */
  ghost function Notice(parse: Parser, s: Signal): seq<string> {
    match s
    case Line(text) =>
      var m := if Trim(text) == "" then None else parse(Trim(text));
      if m.Some? && m.value.kind == "session/update"
         && (m.value.id.Absent? || m.value.id.Null? || (!m.value.hasResult && !m.value.hasError))
      then [m.value.params] else []
    case _ => []
  }

  ghost function Notified(parse: Parser, signals: seq<Signal>): seq<string> {
    if signals == [] then [] else Notice(parse, signals[0]) + Notified(parse, signals[1..])
  }

  ghost function Sends(signals: seq<Signal>): nat {
    if signals == [] then 0 else (if signals[0].Sent? then 1 else 0) + Sends(signals[1..])
  }

  ghost function LastExit(signals: seq<Signal>, before: Option<int>): Option<int> {
    if signals == [] then before
    else LastExit(signals[1..], if signals[0].ProcessEnds? then Some(signals[0].code) else before)
  }

  lemma {:induction false} TraceCounts(parse: Parser, c: Client, signals: seq<Signal>)
    ensures var c' := ApplyAll(parse, c, signals);
            && c'.updates == c.updates + Notified(parse, signals)
            && c'.nextId == c.nextId + Sends(signals) && c'.exitCode == LastExit(signals, c.exitCode)
    decreases |signals|
  {
    if signals == [] {
      assert c.updates + [] == c.updates;
    } else {
      var c1 := Apply(parse, c, signals[0]);
      ApplyCounts(parse, c, signals[0]);
      var note, later := Notice(parse, signals[0]), Notified(parse, signals[1..]);
      hide Apply, Notice;
      TraceCounts(parse, c1, signals[1..]);
      Associates(c.updates, note, later);
    }
  }

  lemma {:induction false} ApplyCounts(parse: Parser, c: Client, s: Signal)
    ensures var c' := Apply(parse, c, s);
            && c'.updates == c.updates + Notice(parse, s)
            && c'.nextId == c.nextId + (if s.Sent? then 1 else 0)
            && c'.exitCode == if s.ProcessEnds? then Some(s.code) else c.exitCode
  {
    assert c.updates + [] == c.updates;
  }

  /**
   On every run the recorded updates are the parameters of the notifications, in order and nothing
   else; requests are numbered from 0 in the order they are sent; and the exit code is the last one told.
   */
  lemma {:induction false} EveryNotificationIsRecorded(parse: Parser, events: seq<Event>)
    requires Legal(parse, INITIAL, events)
    ensures var c, trace := Run(parse, INITIAL, events), Trace(parse, INITIAL, events);
            && c.updates == Notified(parse, trace)
            && c.nextId == Sends(trace) && c.exitCode == LastExit(trace, None)
  {
    RunIsTrace(parse, INITIAL, events);
    var trace := Trace(parse, INITIAL, events);
    hide Run, Legal, LegalSignals, Trace, ApplyAll;
    TraceCounts(parse, INITIAL, trace);
    assert [] + Notified(parse, trace) == Notified(parse, trace);
  }

  // ---------------------------------------------------------------- the trace, told from the events

  ghost function OutputOf(e: Event): string {
    if e.Stdout? then e.chunk else ""
  }

  ghost function AllOutput(events: seq<Event>): string {
    if events == [] then "" else OutputOf(events[0]) + AllOutput(events[1..])
  }

  /** What an event is besides output: a request that could be written, a timeout, an exit. */
  ghost function HappensIn(e: Event): seq<Signal> {
    match e
    case Send(open) => if open then [Sent] else []
    case Stdout(_) => []
    case Timeout(id) => [TimerFires(id)]
    case Exit(code) => [ProcessEnds(code)]
  }

  ghost function Happened(events: seq<Event>): seq<Signal> {
    if events == [] then [] else HappensIn(events[0]) + Happened(events[1..])
  }

  ghost function Texts(signals: seq<Signal>): seq<string> {
    if signals == [] then []
    else (if signals[0].Line? then [signals[0].text] else []) + Texts(signals[1..])
  }

  ghost function ButLines(signals: seq<Signal>): seq<Signal> {
    if signals == [] then [] else (if signals[0].Line? then [] else [signals[0]]) + ButLines(signals[1..])
  }

  lemma {:induction false} PartsAppend(a: seq<Signal>, b: seq<Signal>)
    ensures Texts(a + b) == Texts(a) + Texts(b) && ButLines(a + b) == ButLines(a) + ButLines(b)
    decreases |a|
  {
    if a == [] {
      assert a + b == b;
    } else {
      assert (a + b)[1..] == a[1..] + b && (a + b)[0] == a[0];
      PartsAppend(a[1..], b);
      var t, o := if a[0].Line? then [a[0].text] else [], if a[0].Line? then [] else [a[0]];
      assert t + (Texts(a[1..]) + Texts(b)) == (t + Texts(a[1..])) + Texts(b);
      assert o + (ButLines(a[1..]) + ButLines(b)) == (o + ButLines(a[1..])) + ButLines(b);
    }
  }

  lemma {:induction false} PartsOfLines(texts: seq<string>)
    ensures Texts(Lines(texts)) == texts && ButLines(Lines(texts)) == []
    decreases |texts|
  {
    if texts != [] {
      assert Lines(texts)[1..] == Lines(texts[1..]);
      PartsOfLines(texts[1..]);
    }
  }

  /** One event's signals: its lines carry the buffered text on, and the rest is what happened. */
  lemma {:induction false} SignalsTell(parse: Parser, c: Client, e: Event)
    requires Lacks(c.buffer, '\n')
    ensures var framed := Frame(c.buffer + OutputOf(e));
            && Texts(Signals(c, e)) == framed.lines && ButLines(Signals(c, e)) == HappensIn(e)
            && Step(parse, c, e).buffer == framed.rest && Lacks(framed.rest, '\n')
  {
    hide IndexOf, Apply;
    BufferStays(parse, c.(buffer := Rest(c, e)), Signals(c, e));
    FrameIsExact(c.buffer + OutputOf(e));
    if e.Stdout? {
      PartsOfLines(Frame(c.buffer + e.chunk).lines);
    } else {
      PlainFrame(c.buffer);
      assert c.buffer + "" == c.buffer;
      assert forall s: Signal :: [s][1..] == [];
    }
  }

  lemma {:induction false} BufferStays(parse: Parser, c: Client, signals: seq<Signal>)
    ensures ApplyAll(parse, c, signals).buffer == c.buffer
    decreases |signals|
  {
    if signals != [] { BufferStays(parse, Apply(parse, c, signals[0]), signals[1..]); }
  }

  lemma {:induction false} TraceTells(parse: Parser, c: Client, events: seq<Event>)
    requires Lacks(c.buffer, '\n')
    ensures Texts(Trace(parse, c, events)) == Frame(c.buffer + AllOutput(events)).lines
    ensures ButLines(Trace(parse, c, events)) == Happened(events)
    decreases |events|
  {
    if events == [] {
      PlainFrame(c.buffer);
      assert c.buffer + "" == c.buffer;
    } else {
      var e, rest := events[0], events[1..];
      var c1, out, later := Step(parse, c, e), OutputOf(e), AllOutput(rest);
      assert AllOutput(events) == out + later && Happened(events) == HappensIn(e) + Happened(rest);
      assert Trace(parse, c, events) == Signals(c, e) + Trace(parse, c1, rest);
      hide Trace, Signals, Texts, ButLines, HappensIn, Happened, OutputOf, AllOutput, Step, Frame;
      SignalsTell(parse, c, e);
      PartsAppend(Signals(c, e), Trace(parse, c1, rest));
      TraceTells(parse, c1, rest);
      FrameAppend(c.buffer + out, later);
      Associates(c.buffer, out, later);
    }
  }

  lemma {:induction false} PlainFrame(s: string)
    requires Lacks(s, '\n')
    ensures Frame(s) == Framed([], s)
  {
    hide IndexOf;
  }

  /** The lines a run handles are the lines of all output, and everything else happens once and in order. */
  lemma {:induction false} EveryRunReadsItsLines(parse: Parser, events: seq<Event>)
    ensures Texts(Trace(parse, INITIAL, events)) == Frame(AllOutput(events)).lines
    ensures ButLines(Trace(parse, INITIAL, events)) == Happened(events)
  {
    TraceTells(parse, INITIAL, events);
    assert "" + AllOutput(events) == AllOutput(events);
  }

  lemma {:induction false} LinesAppend(a: seq<string>, b: seq<string>)
    ensures Lines(a + b) == Lines(a) + Lines(b)
  {
  }

  /** Cutting a chunk of output in two does not change the client. */
  lemma {:induction false} CutChunk(parse: Parser, c: Client, a: string, b: string)
    ensures Step(parse, Step(parse, c, Stdout(a)), Stdout(b)) == Step(parse, c, Stdout(a + b))
  {
    hide ApplyAll, Frame;
    var f1 := Frame(c.buffer + a);
    var f2 := Frame(f1.rest + b);
    assert c.buffer + (a + b) == (c.buffer + a) + b;
    FrameAppend(c.buffer + a, b);
    var l1, l2 := Lines(f1.lines), Lines(f2.lines);
    LinesAppend(f1.lines, f2.lines);
    var plain := ApplyAll(parse, c, l1);
    ApplyAllIgnoresBuffer(parse, c, l1, f1.rest);
    ApplyAllIgnoresBuffer(parse, c, l1, f2.rest);
    ApplyAllAppend(parse, c.(buffer := f2.rest), l1, l2);
  }

  ghost function Chunks(chunks: seq<string>): seq<Event> {
    if chunks == [] then [] else [Stdout(chunks[0])] + Chunks(chunks[1..])
  }

  lemma {:induction false} ConcatCons(chunks: seq<string>)
    requires chunks != []
    ensures Concat(chunks) == chunks[0] + Concat(chunks[1..])
    decreases |chunks|
  {
    var n := |chunks| - 1;
    if n == 0 {
      assert [] + chunks[0] == chunks[0] + [];
    } else {
      ConcatCons(chunks[..n]);
      assert chunks[..n][1..] == chunks[1..][..n - 1];
      assert chunks[1..][n - 1] == chunks[n];
      var inner := Concat(chunks[1..][..n - 1]);
      assert (chunks[0] + inner) + chunks[n] == chunks[0] + (inner + chunks[n]);
    }
  }

  /** However the process's output is cut, the client ends as if it came in one piece. */
  lemma {:induction false} ChunkInvariance(parse: Parser, c: Client, chunks: seq<string>)
    requires chunks != []
    ensures Run(parse, c, Chunks(chunks)) == Step(parse, c, Stdout(Concat(chunks)))
    decreases |chunks|
  {
    hide Step;
    var first, rest := chunks[0], chunks[1..];
    assert Chunks(chunks)[1..] == Chunks(rest);
    ConcatCons(chunks);
    if rest == [] {
      assert first + Concat([]) == first;
    } else {
      ChunkInvariance(parse, Step(parse, c, Stdout(first)), rest);
      CutChunk(parse, c, first, Concat(rest));
    }
  }

  // ---------------------------------------------------------------- the class

  /** The read loop's work on the buffer a client holds. */
  ghost function ReadBuffer(parse: Parser, c: Client): Client {
    ApplyAll(parse, c.(buffer := Frame(c.buffer).rest), Lines(Frame(c.buffer).lines))
  }

  lemma {:induction false} ApplyOne(parse: Parser, c: Client, s: Signal)
    ensures ApplyAll(parse, c, [s]) == Apply(parse, c, s)
  {
    assert [s][1..] == [];
  }

  lemma {:induction false} ReadBufferStep(parse: Parser, c: Client, i: nat)
    requires i == IndexOf(c.buffer, '\n')
    ensures ReadBuffer(parse, c)
         == ReadBuffer(parse, Apply(parse, c.(buffer := c.buffer[i + 1..]), Line(c.buffer[..i])))
  {
    hide Apply, IndexOf;
    var text, rest := c.buffer[..i], c.buffer[i + 1..];
    var f := Frame(rest);
    assert Frame(c.buffer).lines == [text] + f.lines && Frame(c.buffer).rest == f.rest;
    assert Lines([text] + f.lines)[1..] == Lines(f.lines);
    ApplyIgnoresBuffer(parse, c, Line(text), f.rest);
    ApplyIgnoresBuffer(parse, c, Line(text), rest);
  }

  class MiniAcpClient {
    var buffer: string
    var nextId: nat
    var pending: seq<nat>
    var updates: seq<string>
    var exitCode: Option<int>
    ghost var timers: set<nat>
    ghost var log: seq<Settlement>

    ghost function View(): Client
      reads this
    {
      Client(buffer, nextId, pending, timers, updates, exitCode, log)
    }

    constructor ()
      ensures View() == INITIAL
    {
      buffer, nextId, pending, updates, exitCode := "", 0, [], [], None;
      timers, log := {}, [];
    }

    method OnStdout(parse: Parser, chunk: string)
      modifies this
      ensures View() == Step(parse, old(View()), Stdout(chunk))
    {
      buffer := buffer + chunk;
      assert ReadBuffer(parse, View()) == Step(parse, old(View()), Stdout(chunk));
      var idx := IndexOf(buffer, '\n');
      while idx != -1
        invariant idx == IndexOf(buffer, '\n')
        invariant ReadBuffer(parse, View()) == Step(parse, old(View()), Stdout(chunk))
        decreases |buffer|
      {
        ReadBufferStep(parse, View(), idx);
        var text := buffer[..idx];
        buffer := buffer[idx + 1..];
        ghost var rest := buffer;
        ghost var before := View();
        ReadLine(parse, text);
        assert buffer == rest by { ApplyIgnoresBuffer(parse, before, Line(text), rest); }
        idx := IndexOf(buffer, '\n');
      }
    }

    method ReadLine(parse: Parser, text: string)
      modifies this
      ensures View() == Apply(parse, old(View()), Line(text))
    {
      var line := Trim(text);
      if line == "" { return; }
      var parsed := parse(line);
      if parsed.None? { return; }
      Receive(parsed.value);
    }

    method Receive(m: Message)
      modifies this
      ensures View() == Dispatch(old(View()), m)
    {
      if IsReply(m) {
        if !(m.id.Number? && m.id.n >= 0 && m.id.n in pending) { return; }
        pending := Without(pending, m.id.n);
        timers, log := timers - {m.id.n}, log + [Settlement(m.id.n, ReplyOutcome(m))];
        return;
      }
      if m.kind == "session/update" { updates := updates + [m.params]; }
    }

    method SendRequest(parse: Parser, stdinOpen: bool)
      modifies this
      ensures View() == Step(parse, old(View()), Send(stdinOpen))
    {
      if !stdinOpen { return; }
      ApplyOne(parse, View(), Sent);
      pending, timers := pending + [nextId], timers + {nextId};
      nextId := nextId + 1;
    }

    method OnTimeout(parse: Parser, id: nat)
      requires id in timers
      modifies this
      ensures View() == Step(parse, old(View()), Timeout(id))
    {
      ApplyOne(parse, View(), TimerFires(id));
      pending := Without(pending, id);
      timers, log := timers - {id}, log + [Settlement(id, TimedOut)];
    }

    method OnExit(parse: Parser, code: int)
      modifies this
      ensures View() == Step(parse, old(View()), Exit(code))
    {
      ApplyOne(parse, View(), ProcessEnds(code));
      exitCode := Some(code);
      RejectAll(code);
      pending := [];
    }

    /** Every waiting request is rejected, in order, and its timer cleared. */
    method RejectAll(code: int)
      modifies this`timers, this`log
      ensures timers == old(timers) - (set id | id in pending)
      ensures log == old(log) + Gone(pending, code)
    {
      hide Gone;
      for i := 0 to |pending|
        invariant forall id :: id in timers <==> id in old(timers) && id !in pending[..i]
        invariant log == old(log) + Gone(pending, code)[..i]
      {
        timers, log := timers - {pending[i]}, log + [Settlement(pending[i], ProcessGone(code))];
        assert pending[..i + 1] == pending[..i] + [pending[i]];
        assert Gone(pending, code)[..i + 1] == Gone(pending, code)[..i] + [Gone(pending, code)[i]];
      }
      assert pending[..|pending|] == pending && Gone(pending, code)[..|pending|] == Gone(pending, code);
    }
  }
}
