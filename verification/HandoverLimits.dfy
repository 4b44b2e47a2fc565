/**
 Where the handover's safety ends: what a missed deadline, a failing `launchctl print` or a request
 during startup does to the session it happens in, and what a plist left behind does to the next one.
 */
module HandoverLimits {
  import opened Options
  import opened Handover
  import opened HandoverRuns

  // ---------------------------------------------------------------- stretches of a run

  lemma {:induction false} LeadsReturn(w: World, w1: World, who: Who, orderly: bool) returns (w2: World)
    requires Leads(w, w1, orderly) && who in w1.pcs && w1.pcs[who] == Settling
    ensures Leads(w, w2, orderly) && w2 == World(w1.pcs - {who}, if who == Startup then w1.lock else None, w1.s)
  {
    hide Leads, Work;
    LeadsOn(w, w1, Act(who, Done), orderly);
    w2 := Step(w1, Act(who, Done));
  }

  /** Nobody about: a request comes in and gets the lock at once. */
  lemma {:induction false} LeadsRequest(w: World, w1: World, c: nat, enabled: bool, orderly: bool) returns (w2: World)
    requires Leads(w, w1, orderly) && w1.pcs == map[] && w1.lock.None?
    ensures Leads(w, w2, orderly)
    ensures var (s, pc) := Enter(w1.s, enabled, Done);
            w2 == World(map[Caller(c) := pc], Some(Caller(c)), s)
  {
    hide Leads, Work, Enter;
    LeadsOn(w, w1, Request(c, enabled), orderly);
    var asked := Step(w1, Request(c, enabled));
    LeadsOn(w, asked, Act(Caller(c), Done), orderly);
    w2 := Step(asked, Act(Caller(c), Done));
    assert asked.pcs == map[Caller(c) := Waiting(enabled)];
    assert w2.pcs == map[Caller(c) := Enter(w1.s, enabled, Done).1];
  }

  lemma {:induction false} PortWaitInstalls(w: World, w1: World, who: Who, orderly: bool) returns (w2: World)
    requires Leads(w, w1, orderly) && who in w1.pcs && w1.pcs[who] == PortWait
    ensures Leads(w, w2, orderly) && w2 == w1.(pcs := w1.pcs[who := InstallPrint], s := w1.s.(flag := Some(true)))
  {
    hide Leads;
    w2 := LeadsAct(w, w1, who, Done, orderly);
    assert w2.pcs[who] == Probe && w2.s == w1.s.(flag := Some(true));
    w2 := LeadsAct(w, w2, who, Done, orderly);
    assert w2.pcs == w1.pcs[who := InstallPrint];
  }

  /** With the child out of the way as far as the app knows, launchd loads the agent. */
  lemma {:induction false} PortWaitLoadsAgent(w: World, w1: World, who: Who, orderly: bool) returns (w2: World)
    requires Leads(w, w1, orderly) && who in w1.pcs && w1.pcs[who] == PortWait && !w1.s.agent
    ensures Leads(w, w2, orderly) && w2.pcs == w1.pcs[who := AwaitHealth] && w2.s.agent && w2.s.children == w1.s.children
  {
    hide Leads;
    w2 := PortWaitInstalls(w, w1, who, orderly);
    w2 := LeadsAct(w, w2, who, Done, orderly);
    assert w2.pcs[who] == InstallWrite;
    w2 := LeadsAct(w, w2, who, Done, orderly);
    assert w2.pcs[who] == Bootstrap;
    w2 := LeadsAct(w, w2, who, Done, orderly);
    assert w2.pcs == w1.pcs[who := AwaitHealth];
  }

  /** How far from forking a place is whose caller gives the agent up. */
  function Distance(pc: Pc): nat {
    match pc
    case Forking => 0
    case StopUnlink => 1
    case StopPoll => 2
    case StopBootout => 3
    case StopPrint => 4
    case Unavailable => 5
    case InstallWrite => 6
    case BootstrapAgain => 6
    case InstallPoll => 7
    case Bootstrap => 7
    case Boot => 9
    case _ => 8
  }

  /** The answer that takes a caller closer to it. */
  function GivingUp(pc: Pc): Answer {
    if pc.Probe? then OtherBackend
    else if Attaching(pc) && !pc.InstallPoll? && !pc.Unavailable? then Failed
    else Done
  }

  /** From here a caller can give the agent up, and if it no longer looks for the agent there is none. */
  predicate CanFall(s: Shared, pc: Pc) {
    && (pc.Boot? || (Attaching(pc) && !pc.Attached?) || Stopping(pc) || pc.Forking?)
    && (pc.StopUnlink? || pc.Forking? || (pc.Boot? && s.flag != Some(true)) ==> !s.agent)
  }

  /** What one step of giving up leaves alone. */
  predicate Falls(s: Shared, startup: bool, pc: Pc, after: (Shared, Pc)) {
    var (s', pc') := after;
    && CanFall(s', pc') && !pc'.Boot? && Distance(pc') < Distance(pc)
    && s'.children == s.children && s'.backendChild == s.backendChild && s'.nextChild == s.nextChild
    && (startup ==> s'.flag == s.flag && s'.plist == s.plist)
    && (s'.flag == if !startup && pc.Unavailable? then Some(false) else s.flag)
    && (pc'.Forking? ==> s'.mode == Child && (!startup && !pc.Boot? ==> !s'.plist))
    && (Attaching(pc) && !pc.Unavailable? ==> Attaching(pc'))
    && (pc.Unavailable? || Stopping(pc) ==> Stopping(pc') || pc'.Forking?)
  }

  lemma {:induction false} BootFalls(s: Shared, startup: bool)
    requires CanFall(s, Boot)
    ensures Falls(s, startup, Boot, StartStep(s, Boot, GivingUp(Boot)))
  {
  }

  lemma {:induction false} InstallFalls(s: Shared, startup: bool, pc: Pc)
    requires Installing(pc)
    ensures Falls(s, startup, pc, InstallStep(s, pc, GivingUp(pc)))
  {
  }

  lemma {:induction false} AttachFalls(s: Shared, startup: bool, pc: Pc)
    requires Attaching(pc) && !Installing(pc) && !pc.Attached?
    ensures Falls(s, startup, pc, AttachStep(s, startup, pc, GivingUp(pc)))
  {
  }

  lemma {:induction false} StopFalls(s: Shared, startup: bool, pc: Pc)
    requires Stopping(pc) && CanFall(s, pc)
    ensures Falls(s, startup, pc, StopStep(s, startup, pc, GivingUp(pc)))
  {
  }

  lemma {:induction false} FallStep(s: Shared, startup: bool, pc: Pc)
    requires CanFall(s, pc) && !pc.Forking?
    ensures Timely(s, pc, GivingUp(pc))
    ensures Working(pc) && Falls(s, startup, pc, Work(s, startup, pc, GivingUp(pc)))
  {
    hide StartStep, InstallStep, AttachStep, StopStep, Falls;
    if pc.Boot? { BootFalls(s, startup); }
    else if Installing(pc) { InstallFalls(s, startup, pc); }
    else if Attaching(pc) { AttachFalls(s, startup, pc); }
    else { StopFalls(s, startup, pc); }
  }

  /** Whoever looks for the agent can find it missing: it is unloaded, and the next thing is to fork a child. */
  lemma {:induction false} FallsBack(w: World, w1: World, who: Who, orderly: bool) returns (w2: World)
    requires Leads(w, w1, orderly) && who in w1.pcs && CanFall(w1.s, w1.pcs[who])
    ensures Leads(w, w2, orderly) && w2.pcs == w1.pcs[who := Forking] && w2.lock == w1.lock && !w2.s.agent
    ensures w2.s.children == w1.s.children && w2.s.backendChild == w1.s.backendChild && w2.s.nextChild == w1.s.nextChild
    ensures who == Startup ==> w2.s.flag == w1.s.flag && w2.s.plist == w1.s.plist
    ensures who != Startup && Attaching(w1.pcs[who]) ==> w2.s.flag == Some(false)
    ensures Attaching(w1.pcs[who]) || Stopping(w1.pcs[who]) ==> w2.s.mode == Child && (who != Startup ==> !w2.s.plist)
    ensures Stopping(w1.pcs[who]) ==> w2.s.flag == w1.s.flag
    ensures w1.pcs[who].Forking? ==> w2 == w1
    decreases Distance(w1.pcs[who])
  {
    hide Leads, Work, CanFall, Timely;
    var pc := w1.pcs[who];
    if pc.Forking? {
      FallEnds(w1.s);
      w2 := w1;
      assert w2.pcs == w1.pcs[who := Forking];
    } else {
      FallStep(w1.s, who == Startup, pc);
      w2 := LeadsAct(w, w1, who, GivingUp(pc), orderly);
      hide Distance, GivingUp;
      ghost var mid := w2;
      w2 := FallsBack(w, mid, who, orderly);
      assert w2.pcs == w1.pcs[who := Forking];
    }
  }

  lemma {:induction false} FallEnds(s: Shared)
    requires CanFall(s, Forking)
    ensures !s.agent
  {
  }

  /** A backend that is not ours holds the port: whatever was loaded is unloaded and a child forked. */
  lemma {:induction false} ForeignBackendForks(w: World, w1: World, who: Who, orderly: bool) returns (w2: World)
    requires Leads(w, w1, orderly) && w1.pcs == map[who := Probe] && (who == Startup ==> w1.lock.None?)
    ensures Leads(w, w2, orderly) && w2.pcs == map[] && w2.lock.None? && w2.s.mode == Child && !w2.s.agent
    ensures w2.s.children == w1.s.children + {w1.s.nextChild} && w2.s.backendChild == Some(w1.s.nextChild)
    ensures w2.s.plist == (who == Startup && w1.s.plist)
    ensures w2.s.flag == if who == Startup then w1.s.flag else Some(false)
  {
    hide Leads;
    w2 := FallsBack(w, w1, who, orderly);
    w2 := LeadsAct(w, w2, who, Done, orderly);
    assert w2.pcs == map[who := Settling];
    hide Work;
    w2 := LeadsReturn(w, w2, who, orderly);
    assert w2.pcs == map[];
  }

  lemma {:induction false} UnlinksAndForks(w: World, w1: World, who: Who, orderly: bool) returns (w2: World)
    requires Leads(w, w1, orderly) && who in w1.pcs && w1.pcs[who] == StopUnlink
    ensures Leads(w, w2, orderly) && w2.pcs == w1.pcs[who := Settling]
    ensures w2.s.agent == w1.s.agent && w2.s.children == w1.s.children + {w1.s.nextChild}
  {
    hide Leads;
    w2 := LeadsAct(w, w1, who, Done, orderly);
    assert w2.pcs[who] == Forking && w2.s.children == w1.s.children && w2.s.nextChild == w1.s.nextChild;
    w2 := LeadsAct(w, w2, who, Done, orderly);
    assert w2.pcs == w1.pcs[who := Settling];
  }

  /** Startup with the flag off forks the first child. */
  lemma {:induction false} StartupForks(w: World, orderly: bool) returns (w2: World)
    requires w.pcs == map[Startup := Boot] && w.s.flag != Some(true)
    ensures Leads(w, w2, orderly) && w2.pcs == map[Startup := Settling] && w2.lock == w.lock
    ensures w2.s == w.s.(mode := Child, children := w.s.children + {w.s.nextChild},
                         backendChild := Some(w.s.nextChild), nextChild := w.s.nextChild + 1)
  {
    LeadsHere(w);
    hide Leads;
    w2 := LeadsAct(w, w, Startup, Done, true);
    w2 := LeadsAct(w, w2, Startup, Done, true);
    Relax(w, w2, orderly);
  }

  lemma {:induction false} Relax(w: World, w2: World, orderly: bool)
    requires Leads(w, w2, true)
    ensures Leads(w, w2, orderly)
  {
  }

  /** How far from attached a place is whose caller finds the agent healthy, and the answers on the way. */
  function Height(pc: Pc): nat {
    match pc
    case Attached => 0
    case Probe => 1
    case ProbeAgain => 1
    case AwaitHealth => 2
    case Bootstrap => 3
    case BootstrapAgain => 3
    case InstallWrite => 4
    case InstallPoll => 5
    case InstallBootout => 6
    case _ => 7
  }

  function GoingWell(pc: Pc): Answer {
    if pc.Probe? || pc.ProbeAgain? then OurService else Done
  }

  lemma {:induction false} AttachProgress(s: Shared, startup: bool, pc: Pc)
    requires Attaching(pc) && !pc.Unavailable? && !pc.Attached?
    ensures Timely(s, pc, GoingWell(pc))
    ensures var (s', pc') := Work(s, startup, pc, GoingWell(pc));
            Attaching(pc') && !pc'.Unavailable? && Height(pc') < Height(pc) && s'.flag == s.flag
  {
  }

  /** Whoever is attaching can succeed, the flag as it was. */
  lemma {:induction false} Attaches(w: World, w1: World, who: Who, orderly: bool) returns (w2: World)
    requires Leads(w, w1, orderly) && who in w1.pcs && Attaching(w1.pcs[who]) && !w1.pcs[who].Unavailable?
    ensures Leads(w, w2, orderly) && w2.pcs == w1.pcs[who := Settling] && w2.lock == w1.lock
    ensures w2.s.mode == Service && w2.s.flag == w1.s.flag
    decreases Height(w1.pcs[who])
  {
    hide Leads;
    var pc := w1.pcs[who];
    if pc.Attached? {
      w2 := LeadsAct(w, w1, who, Done, orderly);
    } else {
      hide Timely;
      AttachProgress(w1.s, who == Startup, pc);
      w2 := LeadsAct(w, w1, who, GoingWell(pc), orderly);
      hide Work, Height, GoingWell;
      w2 := Attaches(w, w2, who, orderly);
      assert w2.pcs == w1.pcs[who := Settling];
    }
  }

  // ---------------------------------------------------------------- what costs safety

  /** The session's two promises: child and agent apart, and at rest `service` mode only with the flag on. */
  ghost predicate Kept(w: World) {
    NoOverlap(w.s) && (Resting(w) && w.s.mode == Service ==> w.s.flag == Some(true))
  }

  /** No orderly continuation breaks them. */
  ghost predicate SafeForever(w: World) {
    forall w' | Leads(w, w', true) :: Kept(w')
  }

  lemma {:induction false} InvIsKept(w: World)
    requires Inv(w)
    ensures Kept(w)
  {
  }

  lemma {:induction false} InvIsSafe(w: World)
    requires Inv(w)
    ensures SafeForever(w)
  {
    hide Inv, Kept;
    forall w' | Leads(w, w', true) ensures Kept(w') {
      var events :| Legal(w, events) && Run(w, events) == w' && AlwaysOrderly(w, events);
      RunKeepsInv(w, events);
      InvIsKept(w');
    }
  }

  /** The app goes on with the child alive: launchd loads the agent beside it. */
  lemma {:induction false} LateKillMeets(w: World, who: Who, c: nat)
    requires who in w.pcs && w.pcs[who] == PortWait && c in w.s.children && !w.s.agent
    ensures !SafeForever(w)
  {
    LeadsHere(w);
    hide Leads;
    var w' := PortWaitLoadsAgent(w, w, who, true);
    assert !Kept(w');
  }

  /** The app goes on with the agent loaded: it forks a child beside it. */
  lemma {:induction false} LateUnloadMeets(w: World, who: Who)
    requires who in w.pcs && w.pcs[who] == StopUnlink && w.s.agent
    ensures !SafeForever(w)
  {
    LeadsHere(w);
    hide Leads;
    var w' := UnlinksAndForks(w, w, who, true);
    assert w.s.nextChild in w'.s.children;
    assert !Kept(w');
  }

  /** A caller about to turn the service on kills the child it knows of, in time. */
  lemma {:induction false} EnableReachesPortWait(w: World, w1: World, who: Who, orderly: bool) returns (w2: World)
    requires Leads(w, w1, orderly) && who in w1.pcs && w1.pcs[who] == EnableStart
    ensures Leads(w, w2, orderly) && w2.pcs == w1.pcs[who := PortWait] && w2.lock == w1.lock
    ensures w2.s.agent == w1.s.agent
  {
    hide Leads;
    w2 := LeadsAct(w, w1, who, Done, orderly);
    if w1.s.backendChild.Some? {
      assert w2.pcs[who] == Killing(w1.s.backendChild.value);
      w2 := LeadsAct(w, w2, who, Done, orderly);
    }
    assert w2.pcs == w1.pcs[who := PortWait];
  }

  /**
   Turning the service on while startup may still fork: startup gives the agent up and is about to
   fork, the caller loads the agent, and startup forks beside it.
   */
  lemma {:induction false} EarlyOnOverlaps(w: World, who: Who) returns (w': World)
    requires who != Startup && who in w.pcs && w.pcs[who] == EnableStart
    requires Startup in w.pcs && CanFall(w.s, w.pcs[Startup])
    ensures Leads(w, w', true) && !NoOverlap(w'.s)
  {
    LeadsHere(w);
    hide Leads, CanFall;
    w' := FallsBack(w, w, Startup, true);
    w' := EnableReachesPortWait(w, w', who, true);
    w' := PortWaitLoadsAgent(w, w', who, true);
    assert w'.pcs[Startup] == Forking;
    ghost var newest := w'.s.nextChild;
    w' := LeadsAct(w, w', Startup, Done, true);
    assert newest in w'.s.children;
  }

  /**
   Turning the service on just as startup has attached: the caller finds another backend, switches
   the flag off and falls back to a child; then startup records `service` mode.
   */
  lemma {:induction false} EarlyOnForgetsFlag(w: World, who: Who) returns (w': World)
    requires who != Startup && who in w.pcs && w.pcs[who] == EnableStart
    requires Startup in w.pcs && w.pcs[Startup] == Attached
    ensures Leads(w, w', true) && Resting(w') && w'.s.mode == Service && w'.s.flag == Some(false)
  {
    LeadsHere(w);
    hide Leads;
    w' := EnableFails(w, w, who, true);
    w' := LeadsAct(w, w', Startup, Done, true);
  }

  /** A caller asked for the service finds another backend, switches the flag off and falls back. */
  lemma {:induction false} EnableFails(w: World, w1: World, who: Who, orderly: bool) returns (w2: World)
    requires Leads(w, w1, orderly) && who != Startup && who in w1.pcs && w1.pcs[who] == EnableStart
    ensures Leads(w, w2, orderly) && w2.pcs == w1.pcs - {who} && w2.lock.None? && w2.s.flag == Some(false)
  {
    hide Leads;
    w2 := EnableProbes(w, w1, who, orderly);
    w2 := FallsBack(w, w2, who, orderly);
    w2 := LeadsAct(w, w2, who, Failed, orderly);
    assert w2.pcs[who] == Settling && w2.s.flag == Some(false);
    hide Work;
    w2 := LeadsReturn(w, w2, who, orderly);
    assert w2.pcs == w1.pcs - {who};
  }

  lemma {:induction false} EnableProbes(w: World, w1: World, who: Who, orderly: bool) returns (w2: World)
    requires Leads(w, w1, orderly) && who in w1.pcs && w1.pcs[who] == EnableStart
    ensures Leads(w, w2, orderly) && w2.pcs == w1.pcs[who := Probe]
  {
    hide Leads;
    w2 := EnableReachesPortWait(w, w1, who, orderly);
    w2 := LeadsAct(w, w2, who, Done, orderly);
    assert w2.pcs == w1.pcs[who := Probe];
  }

  /** Turning the service off while startup is attaching: startup attaches all the same. */
  lemma {:induction false} EarlyOffForgetsFlag(w: World, who: Who) returns (w': World)
    requires who != Startup && who in w.pcs && w.pcs[who] == Settling && w.s.flag == Some(false)
    requires Startup in w.pcs && Attaching(w.pcs[Startup]) && !w.pcs[Startup].Unavailable?
    ensures Leads(w, w', true) && Resting(w') && w'.s.mode == Service && w'.s.flag == Some(false)
  {
    LeadsHere(w);
    hide Leads, Work;
    w' := Attaches(w, w, Startup, true);
    w' := LeadsReturn(w, w', who, true);
    assert w'.pcs[Startup] == Settling;
  }

  /** Turning the service off before startup has read the flag: startup forks beside the loaded agent. */
  lemma {:induction false} EarlyOffOverlaps(w: World) returns (w': World)
    requires Startup in w.pcs && w.pcs[Startup] == Boot && w.s.flag != Some(true) && w.s.agent
    ensures Leads(w, w', true) && !NoOverlap(w'.s)
  {
    LeadsHere(w);
    hide Leads;
    w' := LeadsAct(w, w, Startup, Done, true);
    assert w'.pcs[Startup] == Forking && w'.s.agent;
    ghost var newest := w'.s.nextChild;
    w' := LeadsAct(w, w', Startup, Done, true);
    assert newest in w'.s.children;
  }

  /** Every transition a caller may not start beside startup breaks a promise on some orderly continuation. */
  lemma {:induction false} EarlyEntryMeets(w: World, who: Who, a: Answer)
    requires Inv(w) && who in w.pcs && w.pcs[who].Waiting? && !InTurn(w, Act(who, a))
    ensures !SafeForever(Resume(w, who, a))
  {
    var w1, p := Resume(w, who, a), w.pcs[Startup];
    assert Fits(w.s, true, p) && w1.pcs[Startup] == p && w.s.mode == Child;
    if w.pcs[who].enabled {
      assert w1.pcs[who] == EnableStart && w1.s == w.s;
      if p.Attached? {
        hide Leads, Fits;
        var w' := EarlyOnForgetsFlag(w1, who);
        assert !Kept(w');
      } else {
        assert CanFall(w1.s, p);
        hide Leads, Fits, CanFall;
        var w' := EarlyOnOverlaps(w1, who);
        assert !Kept(w');
      }
    } else {
      assert w1.pcs[who] == Settling && w1.s.flag == Some(false) && w1.s.agent == w.s.agent;
      hide Leads, Fits;
      if p.Boot? {
        var w' := EarlyOffOverlaps(w1);
        assert !Kept(w');
      } else {
        var w' := EarlyOffForgetsFlag(w1, who);
        assert !Kept(w');
      }
    }
  }

  /**
   What costs safety for good: going on from a kill with the child still alive, or to the fork with
   the agent still loaded, past a deadline or a failing `print`; and a transition started beside
   startup when it may not be. After any other event no orderly continuation breaks a promise, and
   after such a one some orderly continuation does.
   */
  lemma {:induction false} StepSafeIff(w: World, e: Event)
    requires Inv(w) && Enabled(w, e)
    ensures SafeForever(Step(w, e)) <==> Orderly(w, e)
  {
    if Orderly(w, e) {
      StepKeepsInv(w, e);
      InvIsSafe(Step(w, e));
    } else if !InTurn(w, e) {
      hide SafeForever, InTurn;
      EarlyEntryMeets(w, e.who, e.answer);
    } else {
      LateActMeets(w, e.who, e.answer);
    }
  }

  lemma {:induction false} LateActMeets(w: World, who: Who, a: Answer)
    requires Inv(w) && who in w.pcs && !Timely(w.s, w.pcs[who], a)
    ensures !SafeForever(Resume(w, who, a))
  {
    hide SafeForever;
    var pc, w' := w.pcs[who], Resume(w, who, a);
    assert Fits(w.s, who == Startup, pc);
    if pc.Killing? { LateKillMeets(w', who, pc.child); } else { LateUnloadMeets(w', who); }
  }

  /** Every state of the run is safe on every orderly continuation. */
  ghost predicate AlwaysSafe(w: World, events: seq<Event>)
    requires Legal(w, events)
    decreases |events|
  {
    SafeForever(w) && (events != [] ==> AlwaysSafe(Step(w, events[0]), events[1..]))
  }

  /** So a session stays safe throughout exactly if every event in it is orderly. */
  lemma {:induction false} RunSafeIff(w: World, events: seq<Event>)
    requires Inv(w) && Legal(w, events)
    ensures AlwaysSafe(w, events) <==> AlwaysOrderly(w, events)
    decreases |events|
  {
    InvIsSafe(w);
    if events != [] {
      var e, w' := events[0], Step(w, events[0]);
      StepSafeIff(w, e);
      if Orderly(w, e) {
        StepKeepsInv(w, e);
        hide Inv, SafeForever, Orderly, Step;
        RunSafeIff(w', events[1..]);
      } else {
        hide Inv, SafeForever, Orderly, Step;
        assert !AlwaysSafe(w', events[1..]);
      }
    }
  }

  /** Startup forks a child, the service is asked for, and the child outlives its three seconds. */
  lemma {:induction false} ChildOutlivesKill(w: World) returns (w1: World)
    requires Begins(w) && w.s.flag != Some(true)
    ensures Leads(w, w1, false) && w1.pcs == map[Caller(0) := PortWait] && !w1.s.agent
    ensures w1.s.children == {w.s.nextChild} && w1.s.nextChild == w.s.nextChild + 1
  {
    hide Leads;
    w1 := StartupForks(w, false);
    w1 := LeadsReturn(w, w1, Startup, false);
    assert w1.pcs == map[];
    w1 := LeadsRequest(w, w1, 0, true, false);
    w1 := LeadsAct(w, w1, Caller(0), Done, false);
    assert w1.pcs[Caller(0)] == Killing(w.s.nextChild);
    w1 := LeadsAct(w, w1, Caller(0), Deadline, false);
    assert w1.pcs == map[Caller(0) := PortWait];
  }

  /** A child that outlives the three seconds it is given meets the agent. */
  lemma {:induction false} LateKillOverlaps(w: World)
    requires Begins(w) && w.s.flag != Some(true)
    ensures exists w' :: Leads(w, w', false) && !NoOverlap(w'.s)
  {
    hide Leads;
    var w1 := ChildOutlivesKill(w);
    w1 := PortWaitLoadsAgent(w, w1, Caller(0), false);
    assert !NoOverlap(w1.s);
  }

  /** An agent still loaded when the twenty seconds are over meets the new child. */
  lemma {:induction false} LateUnloadOverlaps(w: World)
    requires Begins(w) && w.s.flag == Some(true) && w.s.agent
    ensures exists w' :: Leads(w, w', false) && !NoOverlap(w'.s)
  {
    hide Leads, Work;
    var w1 := StartupGivesUp(w);
    w1 := LateUnloadForks(w, w1, Startup);
  }

  /** Startup finds another backend and turns to stopping the agent. */
  lemma {:induction false} StartupGivesUp(w: World) returns (w1: World)
    requires Begins(w) && w.s.flag == Some(true) && w.s.agent
    ensures Leads(w, w1, false) && w1.pcs == map[Startup := StopPrint] && w1.s.agent
  {
    LeadsHere(w);
    Relax(w, w, false);
    hide Leads;
    w1 := LeadsAct(w, w, Startup, Done, false);
    assert w1.pcs[Startup] == Probe;
    w1 := LeadsAct(w, w1, Startup, OtherBackend, false);
    assert w1.pcs[Startup] == Unavailable;
    w1 := LeadsAct(w, w1, Startup, Done, false);
  }

  lemma {:induction false} LateUnloadForks(w: World, w1: World, who: Who) returns (w2: World)
    requires Leads(w, w1, false) && who in w1.pcs && w1.pcs[who] == StopPrint && w1.s.agent
    ensures Leads(w, w2, false) && !NoOverlap(w2.s)
  {
    hide Leads;
    w2 := LeadsAct(w, w1, who, Done, false);
    assert w2.pcs[who] == StopBootout;
    w2 := LeadsAct(w, w2, who, Failed, false);
    assert w2.pcs[who] == StopPoll && w2.s.agent;
    w2 := LeadsAct(w, w2, who, Deadline, false);
    assert w2.pcs[who] == StopUnlink && w2.s.agent;
    ghost var newest := w2.s.nextChild;
    hide Work;
    w2 := UnlinksAndForks(w, w2, who, false);
    assert newest in w2.s.children;
  }

  /** A `print` that fails while the agent is loaded is taken for "not loaded", and the agent meets the new child. */
  lemma {:induction false} FailingPrintOverlaps(w: World)
    requires Begins(w) && w.s.flag == Some(true) && w.s.agent
    ensures exists w' :: Leads(w, w', false) && !NoOverlap(w'.s)
  {
    hide Leads;
    var w1 := StartupGivesUp(w);
    w1 := LeadsAct(w, w1, Startup, PrintFails, false);
    assert w1.pcs[Startup] == StopUnlink && w1.s.agent;
    ghost var newest := w1.s.nextChild;
    hide Work;
    w1 := UnlinksAndForks(w, w1, Startup, false);
    assert newest in w1.s.children;
    assert !NoOverlap(w1.s);
  }

  /** Startup has taken its first step and a request has come in from a window opened by a second launch. */
  lemma {:induction false} AskedDuringStartup(w: World, enabled: bool) returns (w1: World)
    requires Begins(w)
    ensures Leads(w, w1, true) && w1.lock.None?
    ensures w1.pcs == map[Startup := if w.s.flag == Some(true) then Probe else Forking, Caller(0) := Waiting(enabled)]
    ensures w1.s == w.s
  {
    LeadsHere(w);
    hide Leads;
    w1 := LeadsAct(w, w, Startup, Done, true);
    assert w1.s == w.s;
    hide Work;
    LeadsOn(w, w1, Request(0, enabled), true);
    w1 := Step(w1, Request(0, enabled));
  }

  /** Every kill and unload seen through, a request to turn the service on during startup makes the two meet. */
  lemma {:induction false} EarlyRequestOverlaps(w: World) returns (w1: World)
    requires Begins(w)
    ensures Leads(w, w1, true) && Enabled(w1, Act(Caller(0), Done))
    ensures exists w' :: Leads(Step(w1, Act(Caller(0), Done)), w', true) && !NoOverlap(w'.s)
  {
    w1 := AskedDuringStartup(w, true);
    var w2 := Step(w1, Act(Caller(0), Done));
    assert CanFall(w2.s, w2.pcs[Startup]);
    hide Leads, CanFall;
    var w' := EarlyOnOverlaps(w2, Caller(0));
  }

  /** And one to turn it off is forgotten: the session comes to rest in `service` mode with the flag off. */
  lemma {:induction false} EarlyRequestForgotten(w: World) returns (w1: World)
    requires Begins(w) && w.s.flag == Some(true)
    ensures Leads(w, w1, true) && Enabled(w1, Act(Caller(0), Done))
    ensures exists w' ::
              && Leads(Step(w1, Act(Caller(0), Done)), w', true)
              && Resting(w') && w'.s.mode == Service && w'.s.flag == Some(false)
  {
    w1 := AskedDuringStartup(w, false);
    var w2 := Step(w1, Act(Caller(0), Done));
    hide Leads;
    var w' := EarlyOffForgetsFlag(w2, Caller(0));
  }

  /**
   The old child's exit, arriving after its successor was forked, clears the pointer to the
   successor: the app no longer knows of the one backend that runs.
   */
  lemma {:induction false} LateExitForgetsNewChild(w: World) returns (w': World)
    requires Begins(w) && w.s.flag != Some(true)
    ensures Leads(w, w', false)
    ensures w'.pcs == map[] && w'.lock.None? && w'.s.mode == Child && !w'.s.agent
    ensures w'.s.children == {w.s.nextChild + 1} && w'.s.backendChild.None?
  {
    hide Leads;
    var first := w.s.nextChild;
    w' := ChildOutlivesKill(w);
    w' := LeadsAct(w, w', Caller(0), Done, false);
    assert w'.pcs == map[Caller(0) := Probe];
    hide Work;
    w' := ForeignBackendForks(w, w', Caller(0), false);
    LeadsOn(w, w', ChildExits(first), false);
    w' := Step(w', ChildExits(first));
  }

  /** Once a child is forgotten, turning the service on runs both, with every later event orderly. */
  lemma {:induction false} ForgottenChildOverlaps(w: World, c: nat)
    requires w.pcs == map[] && w.lock.None? && w.s.mode == Child && !w.s.agent
    requires c in w.s.children && w.s.backendChild.None?
    ensures exists w' :: Leads(w, w', true) && !NoOverlap(w'.s)
  {
    LeadsHere(w);
    hide Leads;
    var w1 := LeadsRequest(w, w, 0, true, true);
    w1 := LeadsAct(w, w1, Caller(0), Done, true);
    w1 := PortWaitLoadsAgent(w, w1, Caller(0), true);
  }

  // ---------------------------------------------------------------- from one session to the next

  /** The app is opened again after a quit, with the agent loaded or not. */
  function OpenSession(s: Shared, agent: bool): World {
    World(map[Startup := Boot], None,
          s.(agent := agent, children := {}, backendChild := None, mode := Child,
             leftBehind := s.plist && s.flag != Some(true)))
  }

  /** A new login: launchd loads whatever plist is there. */
  function NextLogin(s: Shared): World {
    OpenSession(s, s.plist)
  }

  /** The same login: launchd has what it had. */
  function Reopened(s: Shared): World {
    OpenSession(s, s.agent)
  }

  /** A session keeps child and agent apart exactly if it does not begin with the agent and without the flag. */
  lemma {:induction false} SessionSafeIff(s: Shared, agent: bool)
    ensures SafeForever(OpenSession(s, agent)) <==> (agent ==> s.flag == Some(true))
  {
    var w := OpenSession(s, agent);
    if agent && s.flag != Some(true) {
      var w1 := StartupForks(w, true);
      assert w.s.nextChild in w1.s.children;
      assert !Kept(w1);
    } else {
      assert Begins(w) && Inv(w);
      InvIsSafe(w);
    }
  }

  /** So the next login is safe exactly without a plist left behind, reopening without such an agent. */
  lemma {:induction false} NextSessionSafeIff(s: Shared)
    ensures SafeForever(NextLogin(s)) <==> (s.plist ==> s.flag == Some(true))
    ensures SafeForever(Reopened(s)) <==> (s.agent ==> s.flag == Some(true))
  {
    SessionSafeIff(s, s.plist);
    SessionSafeIff(s, s.agent);
  }

  /** An orderly session that ends between transitions, nothing left behind, hands on a safe start, either way. */
  lemma {:induction false} CleanSessionsStaySafe(w: World, w': World)
    requires Begins(w) && Leads(w, w', true)
    requires Resting(w') && !w'.s.leftBehind
    ensures Begins(NextLogin(w'.s)) && Begins(Reopened(w'.s))
  {
    var events :| Legal(w, events) && Run(w, events) == w' && AlwaysOrderly(w, events);
    EverySessionIsSafe(w, events);
  }

  /** A failed attach keeps the plist, and "off" from child mode only rewrites the flag. */
  lemma {:induction false} FailedAttachThenOff(w: World) returns (w': World)
    requires Begins(w) && w.s.plist && w.s.flag == Some(true)
    ensures Leads(w, w', true) && w'.pcs == map[] && w'.lock.None?
    ensures w'.s.plist && w'.s.flag == Some(false) && !SafeForever(NextLogin(w'.s))
  {
    LeadsHere(w);
    hide Leads;
    w' := LeadsAct(w, w, Startup, Done, true);
    w' := ForeignBackendForks(w, w', Startup, true);
    w' := LeadsRequest(w, w', 0, false, true);
    w' := LeadsReturn(w, w', Caller(0), true);
    hide SafeForever;
    NextSessionSafeIff(w'.s);
  }
}
