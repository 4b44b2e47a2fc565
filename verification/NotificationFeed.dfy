/**
 The self-reconnecting subscription to the scheduled-notification stream, together with
 what the runtime holds for it: sockets, timers and close events still to come.
 */
module NotificationFeed {
  import opened Options

  datatype Backoff = Backoff(base: nat, max: nat)

  /**
   The feed's own fields, and the runtime's side: requests neither destroyed nor closed
   (`open`), requests destroyed whose close event has not been delivered (`closing`), and
   armed timers with their delays. `delays` lists the delays since the last 200 or restart.
   Handles stand for object identity and are never reused.
   */
  datatype State = State(
    request: Option<nat>,
    timer: Option<nat>,
    attempt: nat,
    stopped: bool,
    nextHandle: nat,
    open: set<nat>,
    closing: set<nat>,
    armed: map<nat, nat>,
    delays: seq<nat>)

  const INITIAL := State(None, None, 0, true, 0, {}, {}, map[], [])

  datatype Event =
    | Start(port: Option<nat>)
    | Stop
    | Restart(port: Option<nat>)
    | TimerFires(timer: nat, port: Option<nat>)
    | Closed(request: nat)
    | Responded(request: nat, status: nat)

  function Pow2(n: nat): nat {
    if n == 0 then 1 else 2 * Pow2(n - 1)
  }

  function Delay(b: Backoff, attempt: nat): nat {
    if b.max < b.base * Pow2(attempt) then b.max else b.base * Pow2(attempt)
  }

  function Schedule(b: Backoff, s: State): State {
    if s.stopped then s
    else
      var delay := Delay(b, s.attempt);
      s.(attempt := s.attempt + 1, timer := Some(s.nextHandle), nextHandle := s.nextHandle + 1,
         armed := s.armed[s.nextHandle := delay], delays := s.delays + [delay])
  }

  function Connect(b: Backoff, s: State, port: Option<nat>): State {
    if s.stopped then s
    else if port.None? || port.value == 0 then Schedule(b, s)
    else s.(request := Some(s.nextHandle), nextHandle := s.nextHandle + 1, open := s.open + {s.nextHandle})
  }

  function StopAll(s: State): State {
    var cleared := if s.timer.Some? then s.armed - {s.timer.value} else s.armed;
    var gone := if s.request.Some? then {s.request.value} else {};
    s.(stopped := true, timer := None, request := None, armed := cleared,
       open := s.open - gone, closing := s.closing + gone)
  }

  function StartUp(b: Backoff, s: State, port: Option<nat>): State {
    if !s.stopped then s else Connect(b, s.(stopped := false), port)
  }

  /** What the runtime can deliver: live timers fire, a request closes once and answers only while open. */
  predicate Enabled(s: State, e: Event) {
    match e
    case TimerFires(t, _) => t in s.armed
    case Closed(r) => r in s.open + s.closing
    case Responded(r, _) => r in s.open
    case _ => true
  }

  function Step(b: Backoff, s: State, e: Event): State
    requires Enabled(s, e)
  {
    match e
    case Start(port) => StartUp(b, s, port)
    case Stop => StopAll(s)
    case Restart(port) => StartUp(b, StopAll(s).(attempt := 0, delays := []), port)
    case TimerFires(t, port) => Connect(b, s.(armed := s.armed - {t}, timer := None), port)
    case Closed(r) =>
      var s' := s.(open := s.open - {r}, closing := s.closing - {r});
      if s.request == Some(r) then Schedule(b, s'.(request := None)) else s'
    case Responded(r, status) =>
      if status == 200 then s.(attempt := 0, delays := []) else s
  }

  ghost predicate Legal(b: Backoff, s: State, events: seq<Event>)
    decreases |events|
  {
    events != [] ==> Enabled(s, events[0]) && Legal(b, Step(b, s, events[0]), events[1..])
  }

  ghost function Run(b: Backoff, s: State, events: seq<Event>): State
    requires Legal(b, s, events)
    decreases |events|
  {
    if events == [] then s else Run(b, Step(b, s, events[0]), events[1..])
  }

  ghost function Held(handle: Option<nat>): set<nat> {
    if handle.Some? then {handle.value} else {}
  }

  ghost predicate Inv(b: Backoff, s: State) {
    && s.armed.Keys == Held(s.timer)
    && s.open == Held(s.request)
    && (s.stopped ==> s.timer.None? && s.request.None?)
    && (!s.stopped ==> (s.timer.Some? <==> s.request.None?))
    && (s.timer.Some? ==> s.timer.value < s.nextHandle)
    && (s.request.Some? ==> s.request.value < s.nextHandle && s.request.value !in s.closing)
    && (forall h | h in s.closing :: h < s.nextHandle)
    && |s.delays| == s.attempt
    && (forall k | 0 <= k < |s.delays| :: s.delays[k] == Delay(b, k))
    && (s.timer.Some? ==> s.delays != [] && s.armed[s.timer.value] == s.delays[|s.delays| - 1])
  }

  lemma {:induction false} ScheduleKeepsInv(b: Backoff, s: State)
    requires Inv(b, s.(stopped := true)) && !s.stopped
    ensures Inv(b, Schedule(b, s))
  {
    assert s.armed[s.nextHandle := Delay(b, s.attempt)].Keys == s.armed.Keys + {s.nextHandle};
  }

  lemma {:induction false} ConnectKeepsInv(b: Backoff, s: State, port: Option<nat>)
    requires Inv(b, s.(stopped := true))
    ensures Inv(b, Connect(b, s, port))
  {
    if !s.stopped && (port.None? || port.value == 0) { ScheduleKeepsInv(b, s); }
    assert s.open + {s.nextHandle} == {s.nextHandle};
  }

  lemma {:induction false} StopKeepsInv(b: Backoff, s: State)
    requires Inv(b, s)
    ensures Inv(b, StopAll(s))
  {
    assert (s.armed - Held(s.timer)).Keys == {};
    assert s.open - Held(s.request) == {};
  }

  lemma {:induction false} StepKeepsInv(b: Backoff, s: State, e: Event)
    requires Inv(b, s) && Enabled(s, e)
    ensures Inv(b, Step(b, s, e))
  {
    match e
    case Start(port) =>
      if s.stopped { ConnectKeepsInv(b, s.(stopped := false), port); }
    case Stop => StopKeepsInv(b, s);
    case Restart(port) =>
      StopKeepsInv(b, s);
      ConnectKeepsInv(b, StopAll(s).(attempt := 0, delays := [], stopped := false), port);
    case TimerFires(t, port) =>
      assert s.armed.Keys - {t} == {};
      ConnectKeepsInv(b, s.(armed := s.armed - {t}, timer := None), port);
    case Closed(r) =>
      if s.request == Some(r) {
        ScheduleKeepsInv(b, s.(open := s.open - {r}, closing := s.closing - {r}, request := None));
      }
    case Responded(r, status) =>
  }

  /**
   After every run: a stopped feed has no timer armed and no socket open; a running one has
   exactly one of the two; nothing the feed has lost track of stays armed or open; and the
   k-th delay since the last 200 or restart is min(max, base * 2^k), the last of them being
   the one the armed timer waits for.
   */
  lemma {:induction false} EveryRunKeepsInv(b: Backoff, s: State, events: seq<Event>)
    requires Inv(b, s) && Legal(b, s, events)
    ensures Inv(b, Run(b, s, events))
    decreases |events|
  {
    if events != [] {
      StepKeepsInv(b, s, events[0]);
      EveryRunKeepsInv(b, Step(b, s, events[0]), events[1..]);
    }
  }

  lemma {:induction false} FeedHoldsOneThing(b: Backoff, events: seq<Event>)
    requires Legal(b, INITIAL, events)
    ensures var s := Run(b, INITIAL, events);
            && (s.stopped ==> s.armed == map[] && s.open == {})
            && (!s.stopped ==> |s.armed| + |s.open| == 1)
  {
    EveryRunKeepsInv(b, INITIAL, events);
    var s := Run(b, INITIAL, events);
    assert |s.armed| == |s.armed.Keys|;
    assert s.armed.Keys == {} ==> s.armed == map[];
  }

  /** Only start and restart set the feed running, and only stop ends that. */
  lemma {:induction false} RunningUntilStopped(b: Backoff, events: seq<Event>, e: Event)
    requires Legal(b, INITIAL, events) && Enabled(Run(b, INITIAL, events), e)
    ensures var s := Run(b, INITIAL, events);
            Step(b, s, e).stopped <==> e.Stop? || (s.stopped && !e.Start? && !e.Restart?)
  {
  }

  /**
   A feed started from rest, restarted or woken by its timer connects at once where there is a
   port: one new socket and no timer. Without a port it waits: one timer and no socket.
   */
  lemma {:induction false} ConnectsAtOnce(b: Backoff, events: seq<Event>, e: Event)
    requires Legal(b, INITIAL, events) && Enabled(Run(b, INITIAL, events), e)
    requires var s := Run(b, INITIAL, events); (e.Start? && s.stopped) || e.Restart? || (e.TimerFires? && !s.stopped)
    ensures var s, s' := Run(b, INITIAL, events), Step(b, Run(b, INITIAL, events), e);
            if e.port.Some? && e.port.value != 0 then
              s'.armed == map[] && s'.request.Some? && s'.open == {s'.request.value}
              && s'.request.value !in s.open + s.closing
            else s'.open == {} && s'.request.None? && |s'.armed| == 1
  {
    EveryRunKeepsInv(b, INITIAL, events);
    hide Run, Legal;
    StepConnects(b, Run(b, INITIAL, events), e);
  }

  lemma {:induction false} StepConnects(b: Backoff, s: State, e: Event)
    requires Inv(b, s) && Enabled(s, e)
    requires (e.Start? && s.stopped) || e.Restart? || (e.TimerFires? && !s.stopped)
    ensures var s' := Step(b, s, e);
            if e.port.Some? && e.port.value != 0 then
              s'.armed == map[] && s'.request.Some? && s'.open == {s'.request.value}
              && s'.request.value !in s.open + s.closing
            else s'.open == {} && s'.request.None? && |s'.armed| == 1
  {
    hide Delay;
    StepKeepsInv(b, s, e);
    var s' := Step(b, s, e);
    assert s'.armed.Keys == Held(s'.timer) && s'.open == Held(s'.request) && !s'.stopped;
    assert |s'.armed| == |s'.armed.Keys|;
    assert s'.armed.Keys == {} ==> s'.armed == map[];
    assert s'.request.Some? <==> e.port.Some? && e.port.value != 0;
    assert s'.request.Some? ==> s'.request.value == s.nextHandle;
  }

  /** A connection is left alone by an answer, whatever its status, and by a start while running. */
  lemma {:induction false} KeepsItsConnection(b: Backoff, events: seq<Event>, e: Event)
    requires Legal(b, INITIAL, events) && Enabled(Run(b, INITIAL, events), e)
    requires e.Responded? || (e.Start? && !Run(b, INITIAL, events).stopped)
    ensures var s, s' := Run(b, INITIAL, events), Step(b, Run(b, INITIAL, events), e);
            s'.request == s.request && s'.open == s.open && s'.armed == s.armed
  {
  }

  // ---------------------------------------------------------------- backoff, told from the events

  ghost function Min(x: nat, y: nat): nat {
    if x < y then x else y
  }

  /** What an event adds to the delays waited for since the last 200 or restart: it forgets them there, and notes a timer newly armed. */
  ghost function Noted(s: State, e: Event, s': State, waits: seq<nat>): seq<nat> {
    var since := if e.Restart? || (e.Responded? && e.status == 200) then [] else waits;
    if s'.timer.Some? && s'.timer != s.timer && s'.timer.value in s'.armed
    then since + [s'.armed[s'.timer.value]] else since
  }

  ghost function Waits(b: Backoff, s: State, waits: seq<nat>, events: seq<Event>): seq<nat>
    requires Legal(b, s, events)
    decreases |events|
  {
    if events == [] then waits
    else Waits(b, Step(b, s, events[0]), Noted(s, events[0], Step(b, s, events[0]), waits), events[1..])
  }

  lemma {:induction false} StepNotesDelays(b: Backoff, s: State, e: Event)
    requires Inv(b, s) && Enabled(s, e)
    ensures Noted(s, e, Step(b, s, e), s.delays) == Step(b, s, e).delays
  {
    assert [] + [Delay(b, 0)] == [Delay(b, 0)];
  }

  lemma {:induction false} WaitsAreDelays(b: Backoff, s: State, events: seq<Event>)
    requires Inv(b, s) && Legal(b, s, events)
    ensures Waits(b, s, s.delays, events) == Run(b, s, events).delays
    decreases |events|
  {
    if events != [] {
      StepNotesDelays(b, s, events[0]);
      StepKeepsInv(b, s, events[0]);
      hide Inv, Step, Noted;
      WaitsAreDelays(b, Step(b, s, events[0]), events[1..]);
    }
  }

  /** On every run the waits since the last 200 or restart begin with the base and double up to the maximum. */
  lemma {:induction false} WaitsDouble(b: Backoff, events: seq<Event>)
    requires Legal(b, INITIAL, events)
    ensures var waits := Waits(b, INITIAL, [], events);
            && (waits != [] ==> waits[0] == Min(b.max, b.base))
            && (forall k: nat | k + 1 < |waits| :: waits[k + 1] == Min(b.max, 2 * waits[k]))
  {
    EveryRunKeepsInv(b, INITIAL, events);
    WaitsAreDelays(b, INITIAL, events);
    hide Run, Waits, Legal;
    var waits := Run(b, INITIAL, events).delays;
    forall k: nat | k + 1 < |waits| ensures waits[k + 1] == Min(b.max, 2 * waits[k]) {
      DelayDoubles(b, k);
    }
  }

  lemma {:induction false} DelayDoubles(b: Backoff, k: nat)
    ensures Delay(b, k + 1) == Min(b.max, 2 * Delay(b, k))
  {
    assert b.base * Pow2(k + 1) == 2 * (b.base * Pow2(k));
  }

  /** The close of a request that is no longer the feed's changes nothing but the runtime's books. */
  lemma {:induction false} StaleCloseNeverReconnects(b: Backoff, events: seq<Event>, r: nat)
    requires Legal(b, INITIAL, events)
    requires var s := Run(b, INITIAL, events); r in s.open + s.closing && s.request != Some(r)
    ensures var s := Run(b, INITIAL, events);
            r !in s.open && Step(b, s, Closed(r)) == s.(closing := s.closing - {r})
  {
    EveryRunKeepsInv(b, INITIAL, events);
    var s := Run(b, INITIAL, events);
    assert s.open - {r} == s.open;
  }

  lemma {:induction false} DelayGrows(b: Backoff, j: nat, k: nat)
    requires j <= k
    ensures Delay(b, j) <= Delay(b, k) <= b.max
    decreases k
  {
    if j < k {
      DelayGrows(b, j, k - 1);
      assert b.base * Pow2(k) == 2 * (b.base * Pow2(k - 1));
    }
  }

  /** The class of the source; the ghost fields are the runtime's side of `State`. */
  class ScheduledNotificationFeed {
    const backoff: Backoff
    var request: Option<nat>
    var timer: Option<nat>
    var attempt: nat
    var stopped: bool
    var nextHandle: nat
    ghost var open: set<nat>
    ghost var closing: set<nat>
    ghost var armed: map<nat, nat>
    ghost var delays: seq<nat>

    ghost function View(): State
      reads this
    {
      State(request, timer, attempt, stopped, nextHandle, open, closing, armed, delays)
    }

    constructor (backoff: Backoff)
      ensures this.backoff == backoff && View() == INITIAL
    {
      this.backoff := backoff;
      request, timer, attempt, stopped, nextHandle := None, None, 0, true, 0;
      open, closing, armed, delays := {}, {}, map[], [];
    }

    method ScheduleReconnect()
      modifies this
      ensures View() == Schedule(backoff, old(View()))
    {
      if stopped { return; }
      var delay := Delay(backoff, attempt);
      attempt := attempt + 1;
      armed, delays := armed[nextHandle := delay], delays + [delay];
      timer, nextHandle := Some(nextHandle), nextHandle + 1;
    }

    method ConnectTo(port: Option<nat>)
      modifies this
      ensures View() == Connect(backoff, old(View()), port)
    {
      if stopped { return; }
      if port.None? || port.value == 0 {
        ScheduleReconnect();
        return;
      }
      open := open + {nextHandle};
      request, nextHandle := Some(nextHandle), nextHandle + 1;
    }

    method Start(port: Option<nat>)
      modifies this
      ensures View() == Step(backoff, old(View()), Event.Start(port))
    {
      if !stopped { return; }
      stopped := false;
      ConnectTo(port);
    }

    method Stop()
      modifies this
      ensures View() == Step(backoff, old(View()), Event.Stop)
    {
      stopped := true;
      if timer.Some? { armed := armed - {timer.value}; }
      timer := None;
      if request.Some? {
        open, closing := open - {request.value}, closing + {request.value};
      }
      request := None;
    }

    method Restart(port: Option<nat>)
      modifies this
      ensures View() == Step(backoff, old(View()), Event.Restart(port))
    {
      Stop();
      attempt := 0;
      delays := [];
      Start(port);
    }

    method OnTimer(t: nat, port: Option<nat>)
      requires Enabled(View(), TimerFires(t, port))
      modifies this
      ensures View() == Step(backoff, old(View()), TimerFires(t, port))
    {
      armed := armed - {t};
      timer := None;
      ConnectTo(port);
    }

    method OnClose(r: nat)
      requires Enabled(View(), Closed(r))
      modifies this
      ensures View() == Step(backoff, old(View()), Closed(r))
    {
      open, closing := open - {r}, closing - {r};
      if request != Some(r) { return; }
      request := None;
      ScheduleReconnect();
    }

    method OnResponse(r: nat, status: nat)
      requires Enabled(View(), Responded(r, status))
      modifies this
      ensures View() == Step(backoff, old(View()), Responded(r, status))
    {
      if status != 200 { return; }
      attempt := 0;
      delays := [];
    }
  }
}
