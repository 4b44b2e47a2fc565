/**
 Whole sessions of the handover: startup, which takes no lock, and at any time any number of
 concurrent callers behind the hand-written one, with children dying and launchd dropping the
 agent at any moment.
 */
module HandoverRuns {
  import opened Options
  import opened Handover

  datatype Who = Startup | Caller(id: nat)

  /** `pcs` holds everyone who has not returned; `lock` names whose promise `serviceTransition` is. */
  datatype World = World(pcs: map<Who, Pc>, lock: Option<Who>, s: Shared)

  datatype Event =
    | Request(caller: nat, enabled: bool)
    | Act(who: Who, answer: Answer)
    | ChildExits(child: nat)
    | AgentUnloads

  predicate Enabled(w: World, e: Event) {
    match e
    case Request(c, _) => Caller(c) !in w.pcs
    case Act(who, _) => who in w.pcs
    case ChildExits(c) => c in w.s.children
    case AgentUnloads => true
  }

  /** One caller resumes: it looks at the lock again, returns and frees it, or does its next piece of work. */
  function Resume(w: World, who: Who, a: Answer): World
    requires who in w.pcs
  {
    var pc := w.pcs[who];
    if pc.Waiting? then
      if w.lock.Some? then w
      else
        var (s, pc') := Enter(w.s, pc.enabled, a);
        World(w.pcs[who := pc'], Some(who), s)
    else if pc.Settling? then World(w.pcs - {who}, if who == Startup then w.lock else None, w.s)
    else
      var (s, pc') := Work(w.s, who == Startup, pc, a);
      World(w.pcs[who := pc'], w.lock, s)
  }

  function Step(w: World, e: Event): World
    requires Enabled(w, e)
  {
    match e
    case Request(c, enabled) => w.(pcs := w.pcs[Caller(c) := Waiting(enabled)])
    case Act(who, a) => Resume(w, who, a)
    case ChildExits(c) => w.(s := Dies(w.s, c))
    case AgentUnloads => w.(s := w.s.(agent := false))
  }

  ghost predicate Legal(w: World, events: seq<Event>)
    decreases |events|
  {
    events != [] ==> Enabled(w, events[0]) && Legal(Step(w, events[0]), events[1..])
  }

  ghost function Run(w: World, events: seq<Event>): World
    requires Legal(w, events)
    decreases |events|
  {
    if events == [] then w else Run(Step(w, events[0]), events[1..])
  }

  predicate InTime(w: World, e: Event) {
    e.Act? && e.who in w.pcs ==> Timely(w.s, w.pcs[e.who], e.answer)
  }

  /** Startup has not returned from its last await. */
  predicate StartingUp(w: World) {
    Startup in w.pcs && Working(w.pcs[Startup])
  }

  /** A caller that finds the lock free while the app is starting up is one that may start. */
  predicate InTurn(w: World, e: Event) {
    e.Act? && e.who in w.pcs && w.pcs[e.who].Waiting? && w.lock.None? && StartingUp(w) ==>
      MayEnter(w.s, w.pcs[Startup], w.pcs[e.who].enabled, e.answer)
  }

  predicate Orderly(w: World, e: Event) {
    InTime(w, e) && InTurn(w, e)
  }

  ghost predicate AlwaysOrderly(w: World, events: seq<Event>)
    requires Legal(w, events)
    decreases |events|
  {
    events != [] ==> Orderly(w, events[0]) && AlwaysOrderly(Step(w, events[0]), events[1..])
  }

  /** No transition under way. */
  predicate Resting(w: World) {
    w.lock.None? && !StartingUp(w)
  }

  /** A session begins: nothing forked yet, and an agent only where the flag is on. */
  ghost predicate Begins(w: World) {
    && w.pcs == map[Startup := Boot] && w.lock.None?
    && w.s.children == {} && w.s.mode == Child
    && (w.s.agent ==> w.s.flag == Some(true))
    && (w.s.plist && w.s.flag != Some(true) ==> w.s.leftBehind)
  }

  /** One caller at a time, and the lock says which. */
  ghost predicate Exclusive(w: World) {
    && (w.lock.Some? ==> w.lock.value in w.pcs && w.lock.value.Caller?)
    && (forall who | who in w.pcs && who.Caller? :: w.pcs[who].Waiting? <==> w.lock != Some(who))
    && (Startup in w.pcs ==> !w.pcs[Startup].Waiting?)
  }

  ghost predicate Inv(w: World) {
    && Exclusive(w)
    && (if StartingUp(w) then
          Fits(w.s, true, w.pcs[Startup]) && (w.lock.Some? ==> w.pcs[w.lock.value].Settling?)
        else if w.lock.Some? then Fits(w.s, false, w.pcs[w.lock.value])
        else AtRest(w.s))
  }

  lemma {:induction false} EnterKeepsInv(w: World, who: Who, a: Answer)
    requires Inv(w) && who in w.pcs && w.pcs[who].Waiting? && InTurn(w, Act(who, a))
    ensures Inv(Resume(w, who, a))
  {
    var enabled := w.pcs[who].enabled;
    if w.lock.None? {
      if StartingUp(w) { EnterBesideStartup(w.s, w.pcs[Startup], enabled, a); }
      else { EnterFits(w.s, enabled, a); }
    }
    hide Fits, Enter, MayEnter;
  }

  lemma {:induction false} ResumeKeepsInv(w: World, who: Who, a: Answer)
    requires Inv(w) && who in w.pcs && !w.pcs[who].Waiting? && Timely(w.s, w.pcs[who], a)
    ensures Inv(Resume(w, who, a))
  {
    var pc := w.pcs[who];
    if pc.Settling? {
      hide Fits, Timely;
    } else {
      hide Work, Timely;
      WorkFits(w.s, who == Startup, pc, a);
      if who == Startup { SettledFits(Work(w.s, true, pc, a).0); }
      hide Fits;
    }
  }

  lemma {:induction false} SettledFits(s: Shared)
    ensures Fits(s, true, Settling) ==> AtRest(s)
  {
  }

  lemma {:induction false} StepKeepsInv(w: World, e: Event)
    requires Inv(w) && Enabled(w, e) && Orderly(w, e)
    ensures Inv(Step(w, e))
  {
    match e
    case Request(c, enabled) => { hide Fits; }
    case Act(who, a) =>
      if w.pcs[who].Waiting? { EnterKeepsInv(w, who, a); } else { ResumeKeepsInv(w, who, a); }
      hide Fits, Resume, Inv;
    case ChildExits(c) => { OutsideKeepsInv(w, c); hide Inv; }
    case AgentUnloads => { OutsideKeepsInv(w, 0); hide Inv; }
  }

  lemma {:induction false} OutsideKeepsInv(w: World, id: nat)
    requires Inv(w)
    ensures Inv(w.(s := w.s.(agent := false)))
    ensures id in w.s.children ==> Inv(w.(s := Dies(w.s, id)))
  {
    if StartingUp(w) { OutsideFits(w.s, true, w.pcs[Startup], id); }
    else if w.lock.Some? { OutsideFits(w.s, false, w.pcs[w.lock.value], id); }
    else { OutsideFits(w.s, false, Settling, id); }
    hide Fits, Dies;
  }

  lemma {:induction false} RunKeepsInv(w: World, events: seq<Event>)
    requires Inv(w) && Legal(w, events) && AlwaysOrderly(w, events)
    ensures Inv(Run(w, events))
    decreases |events|
  {
    if events != [] {
      StepKeepsInv(w, events[0]);
      hide Inv, Step;
      RunKeepsInv(Step(w, events[0]), events[1..]);
    }
  }

  /**
   In every session with kills and unloads seen through and callers in turn the child and the agent
   never run together and at most one child lives; between transitions the mode is `service` only
   with the flag on, and an agent or a plist without the flag is there only because it was left behind.
   */
  lemma {:induction false} EverySessionIsSafe(w: World, events: seq<Event>)
    requires Begins(w) && Legal(w, events) && AlwaysOrderly(w, events)
    ensures var w' := Run(w, events);
            && NoOverlap(w'.s) && |w'.s.children| <= 1
            && (Resting(w') && w'.s.mode == Service ==> w'.s.flag == Some(true))
            && (Resting(w') && (w'.s.plist || w'.s.agent) && w'.s.flag != Some(true) ==> w'.s.leftBehind)
  {
    assert Inv(w);
    RunKeepsInv(w, events);
    var s := Run(w, events).s;
    assert exists startup, pc :: Fits(s, startup, pc) && !pc.Waiting?;
    var startup, pc :| Fits(s, startup, pc) && !pc.Waiting?;
    AtMostOne(s, pc);
  }

  lemma {:induction false} AtMostOne(s: Shared, pc: Pc)
    requires Owners(s, pc)
    ensures |s.children| <= 1
  {
    var held := if pc.Killing? then {pc.child} else if s.backendChild.Some? then {s.backendChild.value} else {};
    assert s.children <= held;
    if s.children != {} {
      var c :| c in s.children;
      assert s.children == {c};
    }
  }

  // ---------------------------------------------------------------- the lock

  lemma {:induction false} StepKeepsExclusive(w: World, e: Event)
    requires Exclusive(w) && Enabled(w, e)
    ensures Exclusive(Step(w, e))
  {
    if e.Act? {
      var pc := w.pcs[e.who];
      if Working(pc) { WorkReaches(w.s, e.who == Startup, pc, e.answer); }
      hide Work;
    }
  }

  lemma {:induction false} WorkReaches(s: Shared, startup: bool, pc: Pc, a: Answer)
    requires Working(pc)
    ensures !Work(s, startup, pc, a).1.Waiting?
  {
  }

  lemma {:induction false} RunKeepsExclusive(w: World, events: seq<Event>)
    requires Exclusive(w) && Legal(w, events)
    ensures Exclusive(Run(w, events))
    decreases |events|
  {
    if events != [] {
      StepKeepsExclusive(w, events[0]);
      hide Exclusive, Step;
      RunKeepsExclusive(Step(w, events[0]), events[1..]);
    }
  }

  /**
   However slow or early anything is, no two callers are ever inside a transition together, a
   caller is inside one exactly while the lock is its own, and the lock never outlives its holder.
   */
  lemma {:induction false} OneTransitionAtATime(w: World, events: seq<Event>)
    requires Begins(w) && Legal(w, events)
    ensures var w' := Run(w, events);
            && (forall a, b: nat | Caller(a) in w'.pcs && Caller(b) in w'.pcs ::
                  !w'.pcs[Caller(a)].Waiting? && !w'.pcs[Caller(b)].Waiting? ==> a == b)
            && (forall a: nat | Caller(a) in w'.pcs :: !w'.pcs[Caller(a)].Waiting? <==> w'.lock == Some(Caller(a)))
            && (w'.lock.Some? ==> w'.lock.value in w'.pcs)
  {
    RunKeepsExclusive(w, events);
    hide Run, Legal;
  }

  // ---------------------------------------------------------------- what can be reached

  /** Some run leads from one world to the other; orderly throughout if asked. */
  ghost predicate Leads(w: World, w': World, orderly: bool) {
    exists events ::
      Legal(w, events) && Run(w, events) == w' && (orderly ==> AlwaysOrderly(w, events))
  }

  lemma {:induction false} RunThen(w: World, events: seq<Event>, e: Event)
    requires Legal(w, events) && Enabled(Run(w, events), e)
    ensures Legal(w, events + [e]) && Run(w, events + [e]) == Step(Run(w, events), e)
    ensures AlwaysOrderly(w, events) && Orderly(Run(w, events), e) ==> AlwaysOrderly(w, events + [e])
    decreases |events|
  {
    hide Step, Orderly, Enabled;
    if events == [] {
      assert [e] == [] + [e];
      assert [e][1..] == [];
    } else {
      RunThen(Step(w, events[0]), events[1..], e);
      assert (events + [e])[0] == events[0];
      assert (events + [e])[1..] == events[1..] + [e];
    }
  }

  lemma {:induction false} LeadsHere(w: World)
    ensures Leads(w, w, true)
  {
    assert Legal(w, []) && Run(w, []) == w;
    assert AlwaysOrderly(w, []);
  }

  lemma {:induction false} LeadsOn(w: World, w1: World, e: Event, orderly: bool)
    requires Leads(w, w1, orderly) && Enabled(w1, e) && (orderly ==> Orderly(w1, e))
    ensures Leads(w, Step(w1, e), orderly)
  {
    hide Step, Orderly, Enabled;
    var events :| Legal(w, events) && Run(w, events) == w1 && (orderly ==> AlwaysOrderly(w, events));
    RunThen(w, events, e);
  }

  /** One caller's step, and what it leaves alone. */
  lemma {:induction false} LeadsAct(w: World, w1: World, who: Who, a: Answer, orderly: bool) returns (w2: World)
    requires Leads(w, w1, orderly) && who in w1.pcs && Working(w1.pcs[who])
    requires orderly ==> Timely(w1.s, w1.pcs[who], a)
    ensures Leads(w, w2, orderly)
    ensures var (s, pc) := Work(w1.s, who == Startup, w1.pcs[who], a);
            w2 == World(w1.pcs[who := pc], w1.lock, s)
  {
    hide Timely, Leads, Work;
    LeadsOn(w, w1, Act(who, a), orderly);
    w2 := Step(w1, Act(who, a));
  }
}
