/**
 The handover as the code writes it: one object whose methods go from await to await, with a
 polling loop while launchd unloads the agent. Each method is a walk along the steps that a whole
 session interleaves.
 */
module BackendOwner {
  import opened Options
  import opened Handover
  import opened HandoverRuns

  /** What one caller does on its own, given the answers it gets. */
  ghost function Alone(s: Shared, startup: bool, pc: Pc, answers: seq<Answer>): (Shared, Pc)
    decreases |answers|
  {
    if answers == [] then (s, pc)
    else
      var n := |answers| - 1;
      var (s1, pc1) := Alone(s, startup, pc, answers[..n]);
      if Working(pc1) then Work(s1, startup, pc1, answers[n]) else (s1, pc1)
  }

  ghost predicate Walks(startup: bool, s: Shared, pc: Pc, s': Shared, pc': Pc) {
    exists answers :: Alone(s, startup, pc, answers) == (s', pc')
  }

  lemma {:induction false} WalksHere(startup: bool, s: Shared, pc: Pc)
    ensures Walks(startup, s, pc, s, pc)
  {
    assert Alone(s, startup, pc, []) == (s, pc);
  }

  lemma {:induction false} WalksOn(startup: bool, s: Shared, pc: Pc, s1: Shared, pc1: Pc, a: Answer)
    requires Walks(startup, s, pc, s1, pc1) && Working(pc1)
    ensures Walks(startup, s, pc, Work(s1, startup, pc1, a).0, Work(s1, startup, pc1, a).1)
  {
    hide Work;
    var answers :| Alone(s, startup, pc, answers) == (s1, pc1);
    assert (answers + [a])[..|answers|] == answers;
    assert Alone(s, startup, pc, answers + [a]) == Work(s1, startup, pc1, a);
  }

  lemma {:induction false} WalksThrough(startup: bool, s: Shared, pc: Pc, s1: Shared, pc1: Pc, s2: Shared, pc2: Pc)
    requires Walks(startup, s, pc, s1, pc1) && Walks(startup, s1, pc1, s2, pc2)
    ensures Walks(startup, s, pc, s2, pc2)
  {
    hide Work;
    var first :| Alone(s, startup, pc, first) == (s1, pc1);
    var second :| Alone(s1, startup, pc1, second) == (s2, pc2);
    AloneJoins(s, startup, pc, first, second);
  }

  lemma {:induction false} AloneJoins(s: Shared, startup: bool, pc: Pc, first: seq<Answer>, second: seq<Answer>)
    ensures var (s1, pc1) := Alone(s, startup, pc, first);
            Alone(s, startup, pc, first + second) == Alone(s1, startup, pc1, second)
    decreases |second|
  {
    hide Work;
    if second == [] {
      assert first + second == first;
    } else {
      var n := |second| - 1;
      AloneJoins(s, startup, pc, first, second[..n]);
      assert (first + second)[..|first| + n] == first + second[..n];
      assert (first + second)[|first| + n] == second[n];
    }
  }

  /** A walk that ends attached has just read that our service answers the probe. */
  lemma {:induction false} AttachedReadOurs(s: Shared, startup: bool, answers: seq<Answer>)
    requires Alone(s, startup, Probe, answers).1 == Attached
    ensures answers != [] && answers[|answers| - 1] == OurService
  {
    var n := |answers| - 1;
    if answers != [] {
      var (s1, pc1) := Alone(s, startup, Probe, answers[..n]);
      hide Alone;
      if Working(pc1) { OnlyOursAttaches(s1, startup, pc1, answers[n]); }
    }
  }

  lemma {:induction false} OnlyOursAttaches(s: Shared, startup: bool, pc: Pc, a: Answer)
    requires Working(pc)
    ensures Work(s, startup, pc, a).1 == Attached <==> (pc.Probe? || pc.ProbeAgain?) && a == OurService
  {
  }

  /** Another backend's answer at either probe ends the attempt. */
  lemma {:induction false} ForeignAnswerEnds(s: Shared, startup: bool, pc: Pc, answers: seq<Answer>)
    requires var pc1 := Alone(s, startup, pc, answers).1; pc1 == Probe || pc1 == ProbeAgain
    ensures var s1 := Alone(s, startup, pc, answers).0;
            Alone(s, startup, pc, answers + [OtherBackend]) == (s1, Unavailable)
  {
    assert (answers + [OtherBackend])[..|answers|] == answers;
  }

  /** A walk is a run of the whole session in which nobody else acts. */
  lemma {:induction false} WalkIsRun(w: World, who: Who, s': Shared, pc': Pc)
    requires who in w.pcs && Walks(who == Startup, w.s, w.pcs[who], s', pc')
    ensures Leads(w, World(w.pcs[who := pc'], w.lock, s'), false)
  {
    var answers :| Alone(w.s, who == Startup, w.pcs[who], answers) == (s', pc');
    AloneIsRun(w, who, answers);
  }

  lemma {:induction false} AloneIsRun(w: World, who: Who, answers: seq<Answer>)
    requires who in w.pcs
    ensures var (s', pc') := Alone(w.s, who == Startup, w.pcs[who], answers);
            Leads(w, World(w.pcs[who := pc'], w.lock, s'), false)
    decreases |answers|
  {
    var (s', pc') := Alone(w.s, who == Startup, w.pcs[who], answers);
    if answers == [] {
      LeadsHere(w);
      assert w.pcs[who := pc'] == w.pcs;
    } else {
      var n := |answers| - 1;
      hide Leads, Work;
      AloneIsRun(w, who, answers[..n]);
      var (s1, pc1) := Alone(w.s, who == Startup, w.pcs[who], answers[..n]);
      if Working(pc1) {
        var w1 := World(w.pcs[who := pc1], w.lock, s1);
        var w2 := LeadsAct(w, w1, who, answers[n], false);
        assert w1.pcs[who := pc'] == w.pcs[who := pc'];
      }
    }
  }

  /** `stopService` is called while installing and while stopping; these are its places in each. */
  ghost function PrintPc(install: bool): Pc { if install then InstallPrint else StopPrint }
  ghost function BootoutPc(install: bool): Pc { if install then InstallBootout else StopBootout }
  ghost function PollPc(install: bool): Pc { if install then InstallPoll else StopPoll }
  ghost function UnloadedPc(install: bool): Pc { if install then InstallWrite else StopUnlink }

  /** One more answer to a poll. */
  lemma {:induction false} WalksPolling(startup: bool, s: Shared, pc: Pc, s1: Shared, install: bool, a: Answer)
    requires Walks(startup, s, pc, s1, PollPc(install))
    ensures if !s1.agent || a == Done then Walks(startup, s, pc, s1.(agent := false), UnloadedPc(install))
            else Walks(startup, s, pc, s1, if a == Deadline || a == PrintFails then UnloadedPc(install) else PollPc(install))
  {
    hide Walks;
    WalksOn(startup, s, pc, s1, PollPc(install), a);
  }

  /** One more answer to a try to load the agent. */
  lemma {:induction false} WalksLoading(startup: bool, s: Shared, s1: Shared, pc: Pc, a: Answer)
    requires Walks(startup, s, Bootstrap, s1, pc) && (pc.Bootstrap? || pc.BootstrapAgain?)
    ensures Walks(startup, s, Bootstrap,
                  if a == Done || a == LoadedAnyway then s1.(agent := true) else s1,
                  if a == Done then AwaitHealth else if pc.Bootstrap? then BootstrapAgain else Unavailable)
  {
    hide Walks;
    WalksOn(startup, s, Bootstrap, s1, pc, a);
  }

  class Owner {
    var flag: Option<bool>
    var plist: bool
    var agent: bool
    var children: set<nat>
    var backendChild: Option<nat>
    var nextChild: nat
    var mode: Mode
    ghost var leftBehind: bool

    ghost function State(): Shared
      reads this
    {
      Shared(flag, plist, agent, children, backendChild, nextChild, mode, leftBehind)
    }

    /** What the outside says at an await. */
    method Ask() returns (a: Answer) {
      a := *;
    }

    /** Poll until launchd no longer names the agent, at most `polls` times before the deadline. */
    method AwaitUnload(polls: nat, ghost startup: bool, ghost install: bool) returns (ghost waited: seq<Answer>)
      modifies this`agent
      ensures Walks(startup, old(State()), PollPc(install), State(), UnloadedPc(install))
      ensures agent <==> old(agent) && Done !in waited
      ensures |waited| <= polls
      ensures agent ==> |waited| == polls || (waited != [] && waited[|waited| - 1] == PrintFails)
    {
      ghost var s0 := State();
      ghost var pc0 := PollPc(install);
      WalksHere(startup, s0, pc0);
      hide Walks;
      waited := [];
      var loaded, k := true, 0;
      while k < polls && loaded
        invariant Walks(startup, s0, pc0, State(), if loaded then pc0 else UnloadedPc(install))
        invariant agent <==> s0.agent && Done !in waited
        invariant |waited| == k <= polls
        invariant agent && !loaded ==> waited != [] && waited[|waited| - 1] == PrintFails
      {
        var answer := Ask();
        if answer == Deadline { answer := Failed; }
        WalksPolling(startup, s0, pc0, State(), install, answer);
        waited := waited + [answer];
        if !agent || answer == Done {
          agent := false;
          loaded := false;
        } else if answer == PrintFails {
          loaded := false;
        }
        k := k + 1;
      }
      if loaded { WalksPolling(startup, s0, pc0, State(), install, Deadline); }
    }

    /**
     Unload the agent if launchd names it, and wait for that. It stays loaded only if the first
     `print` fails, or if launchd never lets go of it before the deadline or another failing one.
     */
    method UnloadAgent(polls: nat, ghost startup: bool, ghost install: bool)
      returns (ghost named: Answer, ghost bootout: Answer, ghost waited: seq<Answer>)
      modifies this`agent
      ensures Walks(startup, old(State()), PrintPc(install), State(), UnloadedPc(install))
      ensures agent <==> old(agent) && (named == PrintFails || (bootout != Done && Done !in waited))
      ensures agent && named != PrintFails ==>
                |waited| == polls || (waited != [] && waited[|waited| - 1] == PrintFails)
    {
      ghost var s0 := State();
      ghost var pc0 := PrintPc(install);
      WalksHere(startup, s0, pc0);
      hide Walks;
      var answer := Ask();
      if answer == Failed { answer := Done; }
      WalksOn(startup, s0, pc0, s0, pc0, answer);
      named, bootout, waited := answer, Done, [];
      if agent && answer != PrintFails {
        bootout, waited := BootOut(polls, startup, install);
        hide Work;
        WalksThrough(startup, s0, pc0, s0, BootoutPc(install), State(), UnloadedPc(install));
      }
    }

    /** Ask launchd to unload the agent, and wait for that. */
    method BootOut(polls: nat, ghost startup: bool, ghost install: bool)
      returns (ghost bootout: Answer, ghost waited: seq<Answer>)
      modifies this`agent
      ensures Walks(startup, old(State()), BootoutPc(install), State(), UnloadedPc(install))
      ensures agent <==> old(agent) && bootout != Done && Done !in waited
      ensures agent ==> |waited| == polls || (waited != [] && waited[|waited| - 1] == PrintFails)
    {
      ghost var s0 := State();
      ghost var pc0 := BootoutPc(install);
      WalksHere(startup, s0, pc0);
      hide Walks;
      var answer := Ask();
      WalksOn(startup, s0, pc0, s0, pc0, answer);
      bootout := answer;
      if answer == Done { agent := false; }
      ghost var s1 := State();
      waited := AwaitUnload(polls, startup, install);
      hide Work;
      WalksThrough(startup, s0, pc0, s1, PollPc(install), State(), UnloadedPc(install));
    }

    /** Load the plist, trying once more when launchd refuses: the last try decides. */
    method LoadAgent(ghost startup: bool) returns (ok: bool, ghost tries: seq<Answer>)
      modifies this`agent
      ensures Walks(startup, old(State()), Bootstrap, State(), if ok then AwaitHealth else Unavailable)
      ensures 1 <= |tries| <= 2 && (|tries| == 2 <==> tries[0] != Done)
      ensures ok <==> tries[|tries| - 1] == Done
      ensures agent <==> old(agent) || Done in tries || LoadedAnyway in tries
    {
      ghost var s0 := State();
      WalksHere(startup, s0, Bootstrap);
      hide Walks;
      var answer := Ask();
      tries := [answer];
      WalksLoading(startup, s0, s0, Bootstrap, answer);
      if answer == Done || answer == LoadedAnyway { agent := true; }
      if answer != Done {
        answer := Ask();
        tries := tries + [answer];
        WalksLoading(startup, s0, State(), BootstrapAgain, answer);
        if answer == Done || answer == LoadedAnyway { agent := true; }
      }
      ok := answer == Done;
    }

    /** Write the plist afresh and load it; it is loaded exactly if the directory, the plist and the last try succeed. */
    method InstallAndStart(polls: nat, ghost startup: bool)
      returns (ok: bool, ghost made: Answer, ghost written: Answer, ghost tries: seq<Answer>)
      modifies this`agent, this`plist
      ensures Walks(startup, old(State()), InstallPrint, State(), if ok then AwaitHealth else Unavailable)
      ensures tries != [] <==> made != Failed && written != Failed
      ensures tries != [] ==> |tries| <= 2 && (|tries| == 2 <==> tries[0] != Done)
      ensures ok <==> tries != [] && tries[|tries| - 1] == Done
      ensures ok ==> agent
      ensures plist <==> old(plist) || tries != []
      ensures made == Failed ==> agent == old(agent)
    {
      ghost var s0 := State();
      WalksHere(startup, s0, InstallPrint);
      hide Walks;
      tries, written := [], Failed;
      var answer := Ask();
      made := answer;
      if answer == Failed {
        WalksOn(startup, s0, InstallPrint, s0, InstallPrint, answer);
        ok := false;
        return;
      }
      ghost var named, bootout, waited := UnloadAgent(polls, startup, true);
      answer := Ask();
      written := answer;
      WalksOn(startup, s0, InstallPrint, State(), InstallWrite, answer);
      if answer == Failed {
        ok := false;
        return;
      }
      plist := true;
      ghost var s1 := State();
      ok, tries := LoadAgent(startup);
      WalksThrough(startup, s0, InstallPrint, s1, Bootstrap, State(), if ok then AwaitHealth else Unavailable);
    }

    /**
     Our agent already serves the port, or it is installed and then found healthy. `last` is the last
     answer to a probe: it decides, and only an answer of nobody's at the first probe installs anything.
     */
    method EnsureServiceRunning(polls: nat, ghost startup: bool) returns (ok: bool, ghost first: Answer, ghost last: Answer)
      modifies this`agent, this`plist
      ensures Walks(startup, old(State()), Probe, State(), if ok then Attached else Unavailable)
      ensures ok <==> last == OurService
      ensures first == OurService || first == OtherBackend ==> last == first && State() == old(State())
      ensures ok && first != OurService ==> agent && plist
      ensures old(plist) ==> plist
    {
      ghost var s0 := State();
      WalksHere(startup, s0, Probe);
      hide Walks;
      var answer := Ask();
      first, last := answer, answer;
      WalksOn(startup, s0, Probe, s0, Probe, answer);
      ok := answer == OurService;
      if answer == OurService || answer == OtherBackend { return; }
      ghost var made, written, tries;
      ok, made, written, tries := InstallAndStart(polls, startup);
      WalksThrough(startup, s0, Probe, s0, InstallPrint, State(), if ok then AwaitHealth else Unavailable);
      if !ok { return; }
      ghost var probe;
      ok, probe := FindHealthy(startup);
      if probe.Some? { last := probe.value; }
      hide Work;
      WalksThrough(startup, s0, Probe, State(), AwaitHealth, State(), if ok then Attached else Unavailable);
    }

    /** Wait for the freshly loaded agent and probe it: only our own service's answer will do. */
    method FindHealthy(ghost startup: bool) returns (ok: bool, ghost probe: Option<Answer>)
      ensures Walks(startup, State(), AwaitHealth, State(), if ok then Attached else Unavailable)
      ensures ok <==> probe == Some(OurService)
    {
      ghost var s0 := State();
      WalksHere(startup, s0, AwaitHealth);
      hide Walks;
      probe := None;
      var answer := Ask();
      WalksOn(startup, s0, AwaitHealth, s0, AwaitHealth, answer);
      if answer == Failed {
        ok := false;
        return;
      }
      answer := Ask();
      probe := Some(answer);
      WalksOn(startup, s0, AwaitHealth, s0, ProbeAgain, answer);
      ok := answer == OurService;
    }

    /** Fork a backend; the caller's wait for its health changes nothing here. */
    method ForkBackend(ghost startup: bool) returns (ok: bool, ghost forked: Answer)
      modifies this`children, this`backendChild, this`nextChild
      ensures Walks(startup, old(State()), Forking, State(), Settling)
      ensures ok <==> forked != Failed
      ensures ok ==> backendChild == Some(old(nextChild)) && children == old(children) + {old(nextChild)}
      ensures !ok ==> State() == old(State())
    {
      ghost var s0 := State();
      WalksHere(startup, s0, Forking);
      hide Walks;
      var answer := Ask();
      forked := answer;
      WalksOn(startup, s0, Forking, s0, Forking, answer);
      ok := answer != Failed;
      if ok {
        children, backendChild, nextChild := children + {nextChild}, Some(nextChild), nextChild + 1;
      }
    }

    /** Unload the agent, try to drop its plist unless the app is starting up, and fork a child instead. */
    method FallBack(polls: nat, startup: bool) returns (ok: bool, ghost unlinked: Answer, ghost forked: Answer)
      modifies this
      ensures Walks(startup, old(State()), StopPrint, State(), Settling)
      ensures mode == Child && flag == old(flag) && (agent ==> old(agent))
      ensures plist <==> old(plist) && (startup || unlinked == Failed)
      ensures leftBehind <==> old(leftBehind) || plist
      ensures ok <==> forked != Failed
      ensures ok ==> backendChild == Some(old(nextChild)) && children == old(children) + {old(nextChild)}
      ensures !ok ==> backendChild == old(backendChild) && children == old(children)
    {
      ghost var s0 := State();
      ghost var named, bootout, waited := UnloadAgent(polls, startup, false);
      hide Walks, Work;
      ghost var s1 := State();
      unlinked := UnlinkPlist(startup);
      ghost var s2 := State();
      ok, forked := ForkBackend(startup);
      WalksThrough(startup, s0, StopPrint, s1, StopUnlink, s2, Forking);
      WalksThrough(startup, s0, StopPrint, s2, Forking, State(), Settling);
    }

    /** The plist goes unless the app is starting up or it cannot be unlinked. */
    method UnlinkPlist(startup: bool) returns (ghost unlinked: Answer)
      modifies this`plist, this`leftBehind, this`mode
      ensures Walks(startup, old(State()), StopUnlink, State(), Forking)
      ensures mode == Child
      ensures plist <==> old(plist) && (startup || unlinked == Failed)
      ensures leftBehind <==> old(leftBehind) || plist
    {
      ghost var s0 := State();
      WalksHere(startup, s0, StopUnlink);
      hide Walks;
      var answer := Ask();
      unlinked := answer;
      WalksOn(startup, s0, StopUnlink, s0, StopUnlink, answer);
      if !startup && answer != Failed { plist := false; }
      leftBehind := leftBehind || plist;
      mode := Child;
    }

    /**
     At startup: attach to the service exactly if the flag asks for it and the last probe finds it;
     else fork a child.
     */
    method StartBackend(polls: nat) returns (ok: bool, ghost last: Answer, ghost forked: Answer)
      requires mode == Child
      modifies this
      ensures Walks(true, old(State()), Boot, State(), Settling)
      ensures flag == old(flag)
      ensures mode == Service <==> flag == Some(true) && last == OurService
      ensures mode == Service ==> ok && children == old(children)
      ensures mode == Child ==> (ok <==> forked != Failed)
      ensures mode == Child && ok ==> backendChild == Some(old(nextChild)) && children == old(children) + {old(nextChild)}
    {
      ghost var s0 := State();
      WalksHere(true, s0, Boot);
      hide Walks;
      WalksOn(true, s0, Boot, s0, Boot, Done);
      last, forked := Done, Done;
      if flag != Some(true) {
        ok, forked := ForkBackend(true);
        WalksThrough(true, s0, Boot, s0, Forking, State(), Settling);
        return;
      }
      hide Work;
      var attached;
      ghost var first;
      attached, first, last := EnsureServiceRunning(polls, true);
      ghost var s1, pc1 := State(), if attached then Attached else Unavailable;
      ok, forked := ConcludeStartup(attached, polls);
      WalksThrough(true, s0, Boot, s0, Probe, s1, pc1);
      WalksThrough(true, s0, Boot, s1, pc1, State(), Settling);
    }

    /** What startup does once its attempt to attach is over. */
    method ConcludeStartup(attached: bool, polls: nat) returns (ok: bool, ghost forked: Answer)
      requires mode == Child && flag == Some(true)
      modifies this
      ensures Walks(true, old(State()), if attached then Attached else Unavailable, State(), Settling)
      ensures flag == old(flag) && (mode == Service <==> attached)
      ensures attached ==> ok && State() == old(State()).(mode := Service)
      ensures !attached ==> (ok <==> forked != Failed) && leftBehind && plist == old(plist)
      ensures !attached && ok ==> backendChild == Some(old(nextChild)) && children == old(children) + {old(nextChild)}
    {
      ghost var s0 := State();
      ghost var pc0 := if attached then Attached else Unavailable;
      WalksHere(true, s0, pc0);
      hide Walks;
      WalksOn(true, s0, pc0, s0, pc0, Done);
      ok, forked := true, Done;
      if attached {
        mode := Service;
      } else {
        leftBehind := true;
        ghost var s1, unlinked := State(), Done;
        ok, unlinked, forked := FallBack(polls, true);
        WalksThrough(true, s0, pc0, s1, StopPrint, State(), Settling);
      }
    }

    /** Kill the child and wait; `late` if the three seconds ran out with it still alive. */
    method StopBackend() returns (late: bool)
      modifies this`children, this`backendChild
      ensures Walks(false, old(State()), EnableStart, State(), PortWait)
      ensures backendChild.None?
      ensures !late && old(backendChild).Some? ==> children == old(children) - {old(backendChild).value}
      ensures late || old(backendChild).None? ==> children == old(children)
    {
      ghost var s0 := State();
      WalksHere(false, s0, EnableStart);
      hide Walks;
      WalksOn(false, s0, EnableStart, s0, EnableStart, Done);
      late := false;
      if backendChild.Some? {
        var child := backendChild.value;
        backendChild := None;
        var answer := Ask();
        WalksOn(false, s0, EnableStart, State(), Killing(child), answer);
        late := answer == Deadline;
        if !late { children := children - {child}; }
      }
    }

    /**
     What turning the service on does once the attempt is over: record it; or else switch the flag
     off, stop the service and fork; and if the flag cannot be written, nothing more.
     */
    method Conclude(attached: bool, polls: nat) returns (ghost written: Answer, ghost forked: Answer)
      requires mode == Child && flag == Some(true)
      modifies this
      ensures Walks(false, old(State()), if attached then Attached else Unavailable, State(), Settling)
      ensures attached ==> State() == old(State()).(mode := Service)
      ensures !attached && written == Failed ==> State() == old(State()).(leftBehind := true)
      ensures !attached && written != Failed ==> mode == Child && flag == Some(false)
      ensures !attached && written != Failed && forked != Failed ==>
                backendChild == Some(old(nextChild)) && children == old(children) + {old(nextChild)}
    {
      ghost var s0 := State();
      ghost var pc0 := if attached then Attached else Unavailable;
      WalksHere(false, s0, pc0);
      hide Walks;
      var answer := Ask();
      written, forked := answer, Failed;
      WalksOn(false, s0, pc0, s0, pc0, answer);
      if attached {
        mode := Service;
      } else if answer == Failed {
        leftBehind := true;
      } else {
        flag := Some(false);
        ghost var s1, unlinked := State(), Done;
        var ok;
        ok, unlinked, forked := FallBack(polls, false);
        WalksThrough(false, s0, pc0, s1, StopPrint, State(), Settling);
      }
    }

    /**
     Turn the service on from child mode. It succeeds exactly if a port is found, the flag is saved
     and the last probe finds our service; if not, the flag is off again, unless it could not be written.
     */
    method HandOver(polls: nat)
      returns (ok: bool, ghost port: Answer, ghost saved: Answer, ghost last: Answer, ghost written: Answer)
      requires mode == Child
      modifies this
      ensures Walks(false, old(State()), EnableStart, State(), Settling)
      ensures ok <==> port != Failed && saved != Failed && last == OurService
      ensures mode == Service <==> ok
      ensures port == Failed ==> State() == old(State())
      ensures port != Failed && saved == Failed ==> flag == old(flag) && backendChild.None? && agent == old(agent)
      ensures ok ==> flag == Some(true) && backendChild.None?
      ensures port != Failed && saved != Failed && !ok ==> flag == Some(written == Failed)
    {
      ghost var s0 := State();
      WalksHere(false, s0, EnableStart);
      hide Walks;
      saved, last, written := Failed, Failed, Failed;
      var answer := Ask();
      port := answer;
      if answer == Failed {
        WalksOn(false, s0, EnableStart, s0, EnableStart, answer);
        ok := false;
        return;
      }
      var late := StopBackend();
      answer := Ask();
      saved := answer;
      WalksOn(false, s0, EnableStart, State(), PortWait, answer);
      if answer == Failed {
        ok := false;
        return;
      }
      flag := Some(true);
      ghost var s1, first, forked := State(), Done, Done;
      ok, first, last := EnsureServiceRunning(polls, false);
      ghost var s2, pc2 := State(), if ok then Attached else Unavailable;
      written, forked := Conclude(ok, polls);
      hide Work;
      WalksThrough(false, s0, EnableStart, s1, Probe, s2, pc2);
      WalksThrough(false, s0, EnableStart, s2, pc2, State(), Settling);
    }

    /**
     The transition behind the lock. `entry` is the answer its first, synchronous stretch got, `last`
     the last answer to a probe.
     */
    method SetBackgroundServiceEnabled(enabled: bool, polls: nat) returns (ok: bool, ghost entry: Answer, ghost last: Answer)
      requires mode == Service ==> flag == Some(true)
      modifies this
      ensures var (s1, pc1) := Enter(old(State()), enabled, entry);
              Walks(false, s1, pc1, State(), Settling)
      ensures mode == Service ==> flag == Some(true)
      ensures ok ==> (mode == Service <==> enabled)
      ensures enabled && old(mode) == Service ==> ok && State() == old(State())
      ensures enabled && old(mode) == Child ==> (ok <==> mode == Service) && (ok ==> last == OurService)
      ensures !enabled && entry == Failed ==> !ok && State() == old(State())
      ensures !enabled && entry != Failed ==> mode == Child && flag == if old(flag).Some? then Some(false) else None
      ensures !enabled && entry != Failed && old(mode) == Child ==>
                ok && agent == old(agent) && plist == old(plist) && children == old(children) && backendChild == old(backendChild)
    {
      entry, last := Done, Failed;
      if enabled {
        if mode == Service {
          WalksHere(false, State(), Settling);
          ok := true;
          return;
        }
        ghost var port, saved, written;
        ok, port, saved, last, written := HandOver(polls);
        return;
      }
      var wasService := mode == Service;
      if flag.Some? && (wasService || flag.value) {
        var answer := Ask();
        entry := answer;
        if answer == Failed {
          WalksHere(false, State(), Settling);
          ok := false;
          return;
        }
        flag := Some(false);
        if !wasService { leftBehind := leftBehind || plist || agent; }
      }
      ok := true;
      if wasService {
        ghost var unlinked, forked;
        ok, unlinked, forked := FallBack(polls, false);
      } else {
        WalksHere(false, State(), Settling);
      }
    }
  }
}
