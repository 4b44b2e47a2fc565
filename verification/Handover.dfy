/**
 The handover of the one backend between a child forked by the app and a LaunchAgent run by
 launchd, as the steps one caller takes. Every await is a place where a caller may stand, and
 every answer of the file system, the health probe and launchctl is left open.
 */
module Handover {
  import opened Options

  datatype Mode = Child | Service

  /**
   The variables the transitions share. `flag` is the saved state (absent if unreadable), `agent`
   whether launchd has the agent loaded, `children` the forked backends alive, `backendChild` the
   app's pointer to one. `leftBehind` records that the agent or its plist was left where it was.
   */
  datatype Shared = Shared(
    flag: Option<bool>,
    plist: bool,
    agent: bool,
    children: set<nat>,
    backendChild: Option<nat>,
    nextChild: nat,
    mode: Mode,
    leftBehind: bool)

  /** Where a caller stands: one constructor for each await. */
  datatype Pc =
    | Waiting(enabled: bool)
    | Boot
    | EnableStart
    | Killing(child: nat)
    | PortWait
    | Probe
    | InstallPrint
    | InstallBootout
    | InstallPoll
    | InstallWrite
    | Bootstrap
    | BootstrapAgain
    | AwaitHealth
    | ProbeAgain
    | Attached
    | Unavailable
    | StopPrint
    | StopBootout
    | StopPoll
    | StopUnlink
    | Forking
    | Settling

  /**
   What the outside answers at an await; a step reads only the answers that concern it. `PrintFails`
   is a `launchctl print` that fails, times out or cannot be run: the app reads it as "not loaded".
   */
  datatype Answer = Done | Failed | Deadline | OurService | OtherBackend | LoadedAnyway | PrintFails

  predicate Starting(pc: Pc) {
    pc.Boot? || pc.EnableStart? || pc.Killing? || pc.PortWait?
  }

  predicate Attaching(pc: Pc) {
    pc.Probe? || Installing(pc) || pc.AwaitHealth? || pc.ProbeAgain? || pc.Attached? || pc.Unavailable?
  }

  predicate Installing(pc: Pc) {
    || pc.InstallPrint? || pc.InstallBootout? || pc.InstallPoll? || pc.InstallWrite?
    || pc.Bootstrap? || pc.BootstrapAgain?
  }

  predicate Stopping(pc: Pc) {
    pc.StopPrint? || pc.StopBootout? || pc.StopPoll? || pc.StopUnlink?
  }

  /** In the middle of a transition, at an await. */
  predicate Working(pc: Pc) {
    !pc.Waiting? && !pc.Settling?
  }

  /** A caller that finds no transition under way: it takes its branch and runs to its first await. */
  function Enter(s: Shared, enabled: bool, a: Answer): (Shared, Pc) {
    if enabled then (s, if s.mode == Service then Settling else EnableStart)
    else if a == Failed && s.flag.Some? then (s, Settling)
    else
      var off := if s.flag == Some(true) then s.(flag := Some(false)) else s;
      if s.mode == Service then (off, StopPrint)
      else (off.(leftBehind := s.leftBehind || (s.flag == Some(true) && (s.plist || s.agent))), Settling)
  }

  /** Up to the first probe: the flag is read, or the child stopped and the flag written. */
  function StartStep(s: Shared, pc: Pc, a: Answer): (Shared, Pc)
    requires Starting(pc)
  {
    match pc
    case Boot => if s.flag == Some(true) then (s, Probe) else (s.(mode := Child), Forking)
    case EnableStart =>
      if a == Failed then (s, Settling)
      else if s.backendChild.None? then (s, PortWait)
      else (s.(backendChild := None), Killing(s.backendChild.value))
    case Killing(child) =>
      (if a == Deadline then s else s.(children := s.children - {child}, backendChild := None), PortWait)
    case PortWait => if a == Failed then (s, Settling) else (s.(flag := Some(true)), Probe)
  }

  /** A wait for launchd to unload the agent: it is gone, or seems to be, or the deadline has passed, or another poll. */
  function Poll(s: Shared, a: Answer, again: Pc, next: Pc): (Shared, Pc) {
    if !s.agent || a == Done then (s.(agent := false), next)
    else (s, if a == Deadline || a == PrintFails then next else again)
  }

  function InstallStep(s: Shared, pc: Pc, a: Answer): (Shared, Pc)
    requires Installing(pc)
  {
    match pc
    case InstallPrint =>
      (s, if a == Failed then Unavailable else if s.agent && a != PrintFails then InstallBootout else InstallWrite)
    case InstallBootout => (if a == Done then s.(agent := false) else s, InstallPoll)
    case InstallPoll => Poll(s, a, InstallPoll, InstallWrite)
    case InstallWrite => if a == Failed then (s, Unavailable) else (s.(plist := true), Bootstrap)
    case _ =>
      (if a == Done || a == LoadedAnyway then s.(agent := true) else s,
       if a == Done then AwaitHealth else if pc.Bootstrap? then BootstrapAgain else Unavailable)
  }

  function AttachStep(s: Shared, startup: bool, pc: Pc, a: Answer): (Shared, Pc)
    requires Attaching(pc) && !Installing(pc)
  {
    match pc
    case Probe =>
      (s, if a == OurService then Attached else if a == OtherBackend then Unavailable else InstallPrint)
    case AwaitHealth => (s, if a == Failed then Unavailable else ProbeAgain)
    case ProbeAgain => (s, if a == OurService then Attached else Unavailable)
    case Attached => (s.(mode := Service), Settling)
    case Unavailable =>
      if startup then (s.(leftBehind := true), StopPrint)
      else if a == Failed then (s.(leftBehind := true), Settling)
      else (s.(flag := Some(false)), StopPrint)
  }

  /** The agent is unloaded, its plist removed unless the app is starting up, and a child forked. */
  function StopStep(s: Shared, startup: bool, pc: Pc, a: Answer): (Shared, Pc)
    requires Stopping(pc) || pc.Forking?
  {
    match pc
    case StopPrint => (s, if s.agent && a != PrintFails then StopBootout else StopUnlink)
    case StopBootout => (if a == Done then s.(agent := false) else s, StopPoll)
    case StopPoll => Poll(s, a, StopPoll, StopUnlink)
    case StopUnlink =>
      var kept := s.plist && (startup || a == Failed);
      (s.(plist := kept, mode := Child, leftBehind := s.leftBehind || kept), Forking)
    case Forking =>
      if a == Failed then (s, Settling)
      else (s.(children := s.children + {s.nextChild}, backendChild := Some(s.nextChild), nextChild := s.nextChild + 1),
            Settling)
  }

  /** One await answered, and the code after it up to the next. */
  function Work(s: Shared, startup: bool, pc: Pc, a: Answer): (Shared, Pc)
    requires Working(pc)
  {
    if Starting(pc) then StartStep(s, pc, a)
    else if Installing(pc) then InstallStep(s, pc, a)
    else if Attaching(pc) then AttachStep(s, startup, pc, a)
    else StopStep(s, startup, pc, a)
  }

  /**
   Killing and unloading are seen through: before it forks or goes on from a kill, the app never
   passes a deadline or takes a failing `print` at its word while the process is still there.
   */
  predicate Timely(s: Shared, pc: Pc, a: Answer) {
    && (pc.Killing? && pc.child in s.children ==> a != Deadline)
    && (pc.StopPoll? && s.agent ==> a != Deadline)
    && ((pc.StopPrint? || pc.StopPoll?) && s.agent ==> a != PrintFails)
  }

  /**
   Whether a caller may start its transition with startup at `pc`: once startup is done; or to turn
   the service off, if that writes nothing or startup has already given the agent up.
   */
  predicate MayEnter(s: Shared, pc: Pc, enabled: bool, a: Answer) {
    || !Working(pc)
    || (!enabled
        && (|| a == Failed || s.flag != Some(true)
            || pc.Unavailable? || Stopping(pc) || pc.Forking? || (pc.Boot? && !s.agent)))
  }

  // ---------------------------------------------------------------- what holds at each place

  /** The forked child and the agent do not run together. */
  ghost predicate NoOverlap(s: Shared) {
    s.agent ==> s.children == {}
  }

  /** The places startup can stand at, and those a caller can. */
  predicate Reaches(startup: bool, pc: Pc) {
    if startup then !pc.Waiting? && (Starting(pc) ==> pc.Boot?) else !pc.Boot?
  }

  /** Which processes run. */
  ghost predicate Owners(s: Shared, pc: Pc) {
    && NoOverlap(s)
    && (forall c | c in s.children :: c < s.nextChild)
    && (s.mode == Service || pc.Boot? || pc.PortWait? || Attaching(pc) || Stopping(pc) || pc.Forking? ==> s.children == {})
    && (pc.Killing? ==> s.children <= {pc.child} && s.backendChild.None?)
    && (!pc.Killing? && s.children != {} ==> s.backendChild.Some? && s.children == {s.backendChild.value})
    && (pc.StopUnlink? || pc.Forking? ==> !s.agent)
    && (pc.Boot? && s.agent ==> s.flag == Some(true))
  }

  /** What the flag, the mode and the plist say. */
  ghost predicate Books(s: Shared, startup: bool, pc: Pc) {
    && (Starting(pc) || Attaching(pc) || pc.Forking? || (startup && !pc.Settling?) ==> s.mode == Child)
    && (Attaching(pc) && !pc.Unavailable? ==> s.flag == Some(true))
    && (pc.Settling? && s.mode == Service ==> s.flag == Some(true))
    && (startup && Stopping(pc) ==> s.leftBehind)
    && (pc.Boot? && s.plist ==> s.flag == Some(true) || s.leftBehind)
    && (!pc.Boot? && !Attaching(pc) && !Stopping(pc) && s.mode == Child && (s.plist || s.agent) ==> s.leftBehind)
  }

  ghost predicate Fits(s: Shared, startup: bool, pc: Pc) {
    Reaches(startup, pc) && Owners(s, pc) && Books(s, startup, pc)
  }

  /** Nothing under way. */
  ghost predicate AtRest(s: Shared) {
    Fits(s, false, Settling)
  }

  lemma {:induction false} EnterFits(s: Shared, enabled: bool, a: Answer)
    requires AtRest(s)
    ensures Fits(Enter(s, enabled, a).0, false, Enter(s, enabled, a).1)
    ensures !Enter(s, enabled, a).1.Waiting?
  {
  }

  /** A caller let in beside startup: it turns the flag off at most, and is done. */
  lemma {:induction false} EnterBesideStartup(s: Shared, pc: Pc, enabled: bool, a: Answer)
    requires Fits(s, true, pc) && Working(pc) && MayEnter(s, pc, enabled, a)
    ensures Fits(Enter(s, enabled, a).0, true, pc) && Enter(s, enabled, a).1 == Settling
  {
  }

  lemma {:induction false} StartKeepsOwners(s: Shared, pc: Pc, a: Answer)
    requires Starting(pc) && Timely(s, pc, a) && Owners(s, pc) && s.mode == Child
    ensures Owners(StartStep(s, pc, a).0, StartStep(s, pc, a).1)
  {
    if pc.Killing? { assert s.children - {pc.child} == {}; }
  }

  lemma {:induction false} InstallKeepsOwners(s: Shared, pc: Pc, a: Answer)
    requires Installing(pc) && Owners(s, pc)
    ensures Owners(InstallStep(s, pc, a).0, InstallStep(s, pc, a).1)
  {
  }

  lemma {:induction false} AttachKeepsOwners(s: Shared, startup: bool, pc: Pc, a: Answer)
    requires Attaching(pc) && !Installing(pc) && Owners(s, pc)
    ensures Owners(AttachStep(s, startup, pc, a).0, AttachStep(s, startup, pc, a).1)
  {
  }

  lemma {:induction false} StopKeepsOwners(s: Shared, startup: bool, pc: Pc, a: Answer)
    requires (Stopping(pc) || pc.Forking?) && Timely(s, pc, a) && Owners(s, pc)
    requires pc.Forking? ==> s.mode == Child
    ensures Owners(StopStep(s, startup, pc, a).0, StopStep(s, startup, pc, a).1)
  {
    assert pc.Forking? ==> s.children + {s.nextChild} == {s.nextChild};
  }

  lemma {:induction false} WorkKeepsOwners(s: Shared, startup: bool, pc: Pc, a: Answer)
    requires Working(pc) && Timely(s, pc, a) && Owners(s, pc)
    requires Starting(pc) || pc.Forking? ==> s.mode == Child
    ensures Owners(Work(s, startup, pc, a).0, Work(s, startup, pc, a).1)
  {
    hide Owners, Timely;
    if Starting(pc) { StartKeepsOwners(s, pc, a); }
    else if Installing(pc) { InstallKeepsOwners(s, pc, a); }
    else if Attaching(pc) { AttachKeepsOwners(s, startup, pc, a); }
    else { StopKeepsOwners(s, startup, pc, a); }
    hide StartStep, InstallStep, AttachStep, StopStep;
  }

  /** What a step keeps of the books and of the places reached. */
  ghost predicate BooksKept(startup: bool, after: (Shared, Pc)) {
    Books(after.0, startup, after.1) && Reaches(startup, after.1) && !after.1.Waiting?
  }

  lemma {:induction false} StartKeepsBooks(s: Shared, startup: bool, pc: Pc, a: Answer)
    requires Starting(pc) && Reaches(startup, pc) && Books(s, startup, pc) && Owners(s, pc)
    ensures BooksKept(startup, StartStep(s, pc, a))
  {
  }

  lemma {:induction false} InstallKeepsBooks(s: Shared, startup: bool, pc: Pc, a: Answer)
    requires Installing(pc) && Books(s, startup, pc)
    ensures BooksKept(startup, InstallStep(s, pc, a))
  {
  }

  lemma {:induction false} AttachKeepsBooks(s: Shared, startup: bool, pc: Pc, a: Answer)
    requires Attaching(pc) && !Installing(pc) && Books(s, startup, pc)
    ensures BooksKept(startup, AttachStep(s, startup, pc, a))
  {
  }

  lemma {:induction false} StopKeepsBooks(s: Shared, startup: bool, pc: Pc, a: Answer)
    requires (Stopping(pc) || pc.Forking?) && Books(s, startup, pc) && Owners(s, pc)
    ensures BooksKept(startup, StopStep(s, startup, pc, a))
  {
  }

  lemma {:induction false} WorkKeepsBooks(s: Shared, startup: bool, pc: Pc, a: Answer)
    requires Working(pc) && Reaches(startup, pc) && Books(s, startup, pc) && Owners(s, pc)
    ensures BooksKept(startup, Work(s, startup, pc, a))
  {
    hide BooksKept, Books, Owners;
    if Starting(pc) { StartKeepsBooks(s, startup, pc, a); }
    else if Installing(pc) { InstallKeepsBooks(s, startup, pc, a); }
    else if Attaching(pc) { AttachKeepsBooks(s, startup, pc, a); }
    else { StopKeepsBooks(s, startup, pc, a); }
    hide StartStep, InstallStep, AttachStep, StopStep;
  }

  lemma {:induction false} WorkFits(s: Shared, startup: bool, pc: Pc, a: Answer)
    requires Fits(s, startup, pc) && Working(pc) && Timely(s, pc, a)
    ensures Fits(Work(s, startup, pc, a).0, startup, Work(s, startup, pc, a).1)
    ensures !Work(s, startup, pc, a).1.Waiting?
  {
    WorkKeepsBooks(s, startup, pc, a);
    WorkKeepsOwners(s, startup, pc, a);
    hide Work, Owners, Timely;
  }

  /** The outside acts: a child dies, or launchd drops the agent. */
  lemma {:induction false} OutsideFits(s: Shared, startup: bool, pc: Pc, id: nat)
    requires Fits(s, startup, pc) && !pc.Waiting?
    ensures Fits(s.(agent := false), startup, pc)
    ensures id in s.children ==> Fits(Dies(s, id), startup, pc)
  {
    if id in s.children { assert s.children - {id} == {}; }
  }

  /** The exit handler of any forked child clears the pointer, whichever child it holds. */
  function Dies(s: Shared, id: nat): Shared {
    s.(children := s.children - {id}, backendChild := None)
  }
}
