/**
 The updater: check, download and install jobs chained one behind the other, and the status
 they show.
 */
module Updater {
  import opened Options
  import JsText

  datatype Status = Idle | Checking | Available | Unavailable | Downloading | Ready | Installing | Failed

  /** The state sent to the windows, and the downloaded file with its release tag. */
  datatype App = App(
    status: Status,
    latestVersion: Option<string>,
    percent: Option<nat>,
    error: Option<string>,
    file: Option<string>,
    tag: Option<string>)

  const FRESH := App(Idle, None, None, None, None, None)

  /** `raw.trim().replace(/^v/i, '')` */
  function StripTagPrefix(raw: string): string {
    var s := JsText.Trim(raw);
    if s != [] && (s[0] == 'v' || s[0] == 'V') then s[1..] else s
  }

  datatype Kind = Check | Download | Install

  /** How a running job can end; the values come from outside. */
  datatype Outcome =
    | CheckFailed(message: string)
    | NothingNew(tag: string)
    | UpdateFound(tag: string, fileExists: bool)
    | Downloaded(tag: string, path: string)
    | DownloadFailed(message: string)
    | StagingFailed(message: string, fileExists: bool)
    | ScriptFailed
    | Relaunching

  predicate Fits(kind: Kind, o: Outcome) {
    match kind
    case Check => o.CheckFailed? || o.NothingNew? || o.UpdateFound?
    case Download => o.Downloaded? || o.DownloadFailed?
    case Install => o.StagingFailed? || o.ScriptFailed? || o.Relaunching?
  }

  predicate Succeeds(o: Outcome) {
    !o.StagingFailed? && !o.ScriptFailed?
  }

  /** What the job's synchronous start decides: it stops at once (fulfilled or rejected) or goes on. */
  datatype Begun = Stops(ok: bool) | Goes

  /** `fileExists` and `canReplace` (platform, bundle found, bundle writable) come from outside. */
  function BeginJob(a: App, kind: Kind, fileExists: bool, canReplace: bool): (Begun, App) {
    match kind
    case Check =>
      if a.status == Downloading || a.status == Installing then (Stops(true), a)
      else (Goes, a.(status := Checking, error := None))
    case Download =>
      if a.status == Downloading || a.status == Installing then (Stops(true), a)
      else if a.status == Ready && a.file.Some? && fileExists then (Stops(true), a)
      else (Goes, a.(status := Downloading, percent := Some(0), error := None))
    case Install =>
      if !canReplace || a.file.None? || !fileExists then (Stops(false), a)
      else (Goes, a.(status := Installing, percent := Some(100), error := None))
  }

  function Report(a: App, tag: string, percent: nat): App {
    a.(status := Downloading, percent := Some(percent), latestVersion := Some(StripTagPrefix(tag)))
  }

  function EndJob(a: App, o: Outcome): App {
    match o
    case CheckFailed(message) => a.(status := Failed, error := Some(message))
    case NothingNew(tag) => a.(status := Unavailable, latestVersion := Some(StripTagPrefix(tag)))
    case UpdateFound(tag, fileExists) =>
      var alreadyReady := a.tag == Some(tag) && a.file.Some? && fileExists;
      a.(status := if alreadyReady then Ready else Available, latestVersion := Some(StripTagPrefix(tag)),
         percent := if alreadyReady then Some(100) else None)
    case Downloaded(tag, path) =>
      a.(file := Some(path), tag := Some(tag), status := Ready, percent := Some(100),
         latestVersion := Some(StripTagPrefix(tag)))
    case DownloadFailed(message) => a.(status := Failed, error := Some(message))
    case StagingFailed(message, fileExists) =>
      a.(status := if a.file.Some? && fileExists then Ready else Failed, error := Some(message))
    case ScriptFailed => a
    case Relaunching => a
  }

  // ---------------------------------------------------------------- the chain of jobs

  datatype Phase = Waiting | Running | Settled(ok: bool)

  /** `after` is the job whose settling this one's promise is chained to. */
  datatype Job = Job(kind: Kind, after: Option<nat>, phase: Phase)

  /** `started` and `settled` are the history of the chain. */
  datatype State = State(
    app: App,
    jobs: seq<Job>,
    inFlight: Option<nat>,
    started: seq<nat>,
    settled: seq<nat>)

  const INITIAL := State(FRESH, [], None, [], [])

  datatype Event =
    | Enqueue(kind: Kind)
    | Begin(job: nat, fileExists: bool, canReplace: bool)
    | Progress(job: nat, tag: string, percent: nat)
    | End(job: nat, outcome: Outcome)

  /** A job's promise runs once the one it is chained to has settled, fulfilled or rejected. */
  predicate CanBegin(s: State, i: nat) {
    && i < |s.jobs| && s.jobs[i].phase.Waiting?
    && (s.jobs[i].after.Some? ==>
          s.jobs[i].after.value < |s.jobs| && s.jobs[s.jobs[i].after.value].phase.Settled?)
  }

  predicate Enabled(s: State, e: Event) {
    match e
    case Enqueue(_) => true
    case Begin(i, _, _) => CanBegin(s, i)
    case Progress(i, _, _) => i < |s.jobs| && s.jobs[i].phase.Running? && s.jobs[i].kind == Download
    case End(i, o) => i < |s.jobs| && s.jobs[i].phase.Running? && Fits(s.jobs[i].kind, o)
  }

  function Step(s: State, e: Event): State
    requires Enabled(s, e)
  {
    match e
    case Enqueue(kind) =>
      s.(jobs := s.jobs + [Job(kind, s.inFlight, Waiting)], inFlight := Some(|s.jobs|))
    case Begin(i, fileExists, canReplace) =>
      var (begun, app) := BeginJob(s.app, s.jobs[i].kind, fileExists, canReplace);
      s.(app := app, started := s.started + [i],
         jobs := s.jobs[i := s.jobs[i].(phase := if begun.Stops? then Settled(begun.ok) else Running)],
         settled := if begun.Stops? then s.settled + [i] else s.settled)
    case Progress(i, tag, percent) => s.(app := Report(s.app, tag, percent))
    case End(i, o) =>
      s.(app := EndJob(s.app, o), jobs := s.jobs[i := s.jobs[i].(phase := Settled(Succeeds(o)))],
         settled := s.settled + [i])
  }

  function Upto(n: nat): (r: seq<nat>)
    ensures |r| == n && forall i | 0 <= i < n :: r[i] == i
  {
    if n == 0 then [] else Upto(n - 1) + [n - 1]
  }

  /** The jobs settled, then at most one running, then the ones waiting, each chained to the one before. */
  ghost predicate Chained(s: State) {
    && s.inFlight == (if s.jobs == [] then None else Some(|s.jobs| - 1))
    && (forall i | 0 <= i < |s.jobs| :: s.jobs[i].after == if i == 0 then None else Some(i - 1))
    && s.started == Upto(|s.started|) && s.settled == Upto(|s.settled|)
    && |s.settled| <= |s.started| <= |s.settled| + 1 && |s.started| <= |s.jobs|
    && (forall i | 0 <= i < |s.jobs| :: s.jobs[i].phase.Settled? <==> i < |s.settled|)
    && (forall i | 0 <= i < |s.jobs| :: s.jobs[i].phase.Waiting? <==> i >= |s.started|)
  }

  ghost predicate JobRunning(s: State) {
    |s.settled| < |s.started|
  }

  /** The kind of the running job. */
  ghost function Current(s: State): Kind
    requires Chained(s) && JobRunning(s)
  {
    s.jobs[|s.settled|].kind
  }

  /** The status shown belongs to the running job; without one, nothing is being checked or downloaded. */
  ghost predicate StatusFits(s: State)
    requires Chained(s)
  {
    if JobRunning(s) then
      match Current(s)
      case Check => s.app.status == Checking
      case Download => s.app.status == Downloading
      case Install => s.app.status == Installing
    else
      s.app.status != Checking && s.app.status != Downloading
  }

  ghost predicate Inv(s: State) {
    Chained(s) && StatusFits(s) && (s.app.file.Some? <==> s.app.tag.Some?)
  }

  lemma {:induction false} UptoSnoc(n: nat)
    ensures Upto(n) + [n] == Upto(n + 1)
  {
  }

  lemma {:induction false} BeginKeepsChained(s: State, i: nat, fileExists: bool, canReplace: bool)
    requires Chained(s) && CanBegin(s, i)
    ensures Chained(Step(s, Begin(i, fileExists, canReplace)))
  {
    hide BeginJob, Upto;
    UptoSnoc(|s.started|);
    BeginIsNext(s, i);
    hide CanBegin;
  }

  lemma {:induction false} BeginKeepsInv(s: State, i: nat, fileExists: bool, canReplace: bool)
    requires Inv(s) && CanBegin(s, i)
    ensures Inv(Step(s, Begin(i, fileExists, canReplace)))
  {
    BeginKeepsChained(s, i, fileExists, canReplace);
    BeginIsNext(s, i);
    hide CanBegin, Upto;
  }

  lemma {:induction false} EndKeepsInv(s: State, i: nat, o: Outcome)
    requires Inv(s) && Enabled(s, End(i, o))
    ensures Inv(Step(s, End(i, o)))
  {
    hide StripTagPrefix;
    UptoSnoc(|s.settled|);
    assert i == |s.settled|;
  }

  lemma {:induction false} StepKeepsInv(s: State, e: Event)
    requires Inv(s) && Enabled(s, e)
    ensures Inv(Step(s, e))
  {
    match e
    case Begin(i, fileExists, canReplace) => { hide Inv, Step; BeginKeepsInv(s, i, fileExists, canReplace); }
    case End(i, o) => { hide Inv, Step; EndKeepsInv(s, i, o); }
    case _ => { hide StripTagPrefix, BeginJob, EndJob; }
  }

  /** Only the next job in request order can begin, and only when none is running. */
  lemma {:induction false} BeginIsNext(s: State, i: nat)
    requires Chained(s)
    ensures CanBegin(s, i) <==> !JobRunning(s) && i == |s.started| && i < |s.jobs|
  {
    if i < |s.jobs| && i > 0 {
      assert s.jobs[i].after == Some(i - 1);
    }
  }

  ghost predicate Legal(s: State, events: seq<Event>)
    decreases |events|
  {
    events != [] ==> Enabled(s, events[0]) && Legal(Step(s, events[0]), events[1..])
  }

  ghost function Run(s: State, events: seq<Event>): State
    requires Legal(s, events)
    decreases |events|
  {
    if events == [] then s else Run(Step(s, events[0]), events[1..])
  }

  lemma {:induction false} EveryRunKeepsInv(s: State, events: seq<Event>)
    requires Inv(s) && Legal(s, events)
    ensures Inv(Run(s, events))
    decreases |events|
  {
    hide Inv, Step;
    if events != [] {
      StepKeepsInv(s, events[0]);
      EveryRunKeepsInv(Step(s, events[0]), events[1..]);
    }
  }

  /**
   Jobs start in request order, each once, one at a time; a job that can begin is the next one,
   it can begin however the one before it ended, and it never begins while checking or downloading.
   */
  lemma {:induction false} JobsRunInTurn(events: seq<Event>)
    requires Legal(INITIAL, events)
    ensures var s := Run(INITIAL, events);
            && s.started == Upto(|s.started|)
            && (forall i, j | 0 <= i < j < |s.jobs| :: !(s.jobs[i].phase.Running? && s.jobs[j].phase.Running?))
            && (forall i: nat :: CanBegin(s, i) ==>
                  i == |s.started| && s.app.status != Checking && s.app.status != Downloading)
            && ((forall i | 0 <= i < |s.jobs| :: !s.jobs[i].phase.Running?) && |s.started| < |s.jobs| ==>
                  CanBegin(s, |s.started|))
  {
    assert Inv(INITIAL);
    EveryRunKeepsInv(INITIAL, events);
    var s := Run(INITIAL, events);
    hide Run, Legal;
    forall i: nat { BeginIsNext(s, i); }
    if |s.started| < |s.jobs| && JobRunning(s) { assert s.jobs[|s.settled|].phase.Running?; }
  }

  // ---------------------------------------------------------------- what is shown, told from the events

  /** The last completed download of a run: its release tag and its file. */
  ghost function LastDownload(events: seq<Event>): Option<(string, string)> {
    if events == [] then None
    else
      var later := LastDownload(events[1..]);
      if later.Some? then later
      else if events[0].End? && events[0].outcome.Downloaded?
      then Some((events[0].outcome.tag, events[0].outcome.path)) else None
  }

  lemma {:induction false} RunKeepsDownload(s: State, events: seq<Event>)
    requires Legal(s, events)
    ensures var a := Run(s, events).app;
            var last := LastDownload(events);
            && a.tag == (if last.Some? then Some(last.value.0) else s.app.tag)
            && a.file == (if last.Some? then Some(last.value.1) else s.app.file)
    decreases |events|
  {
    hide StripTagPrefix;
    if events != [] { RunKeepsDownload(Step(s, events[0]), events[1..]); }
  }

  /** On every run the recorded file and tag are those of the last completed download. */
  lemma {:induction false} RecordsLastDownload(events: seq<Event>)
    requires Legal(INITIAL, events)
    ensures var a := Run(INITIAL, events).app;
            && a.tag == (if LastDownload(events).Some? then Some(LastDownload(events).value.0) else None)
            && a.file == (if LastDownload(events).Some? then Some(LastDownload(events).value.1) else None)
  {
    RunKeepsDownload(INITIAL, events);
  }

  /**
   What the windows show when a job ends, on every run: nothing new is `unavailable`; a release
   found is `ready` if it is the one downloaded last and its file is there, else `available`; a
   finished download is `ready` at 100; a failure is an error with its message, but a staging
   failure leaves a file that is there `ready`; and a failed script or a relaunch changes nothing.
   The job's promise is rejected after a failed install only.
   */
  lemma {:induction false} EndingsShow(events: seq<Event>, job: nat, o: Outcome)
    requires Legal(INITIAL, events) && Enabled(Run(INITIAL, events), End(job, o))
    ensures var was, now := Run(INITIAL, events).app, Step(Run(INITIAL, events), End(job, o)).app;
            var last := LastDownload(events);
            && (o.NothingNew? ==> now.status == Unavailable && now.latestVersion == Some(StripTagPrefix(o.tag)))
            && (o.UpdateFound? ==>
                  && now.status == (if last.Some? && last.value.0 == o.tag && o.fileExists then Ready else Available)
                  && now.percent == (if now.status == Ready then Some(100) else None)
                  && now.latestVersion == Some(StripTagPrefix(o.tag)))
            && (o.Downloaded? ==>
                  now == App(Ready, Some(StripTagPrefix(o.tag)), Some(100), was.error, Some(o.path), Some(o.tag)))
            && (o.CheckFailed? || o.DownloadFailed? ==> now == was.(status := Failed, error := Some(o.message)))
            && (o.StagingFailed? ==>
                  now == was.(status := if last.Some? && o.fileExists then Ready else Failed, error := Some(o.message)))
            && (o.ScriptFailed? || o.Relaunching? ==> now == was)
            && Step(Run(INITIAL, events), End(job, o)).jobs[job].phase == Settled(!o.StagingFailed? && !o.ScriptFailed?)
  {
    hide StripTagPrefix;
    RecordsLastDownload(events);
  }

  /**
   Which jobs go on when they begin, on every run: a check unless an install is under way; a download
   unless one is, or the file shown `ready` is there; an install if the app can be replaced and the
   downloaded file is there. What goes on is shown, the last error forgotten; what stops changes nothing.
   */
  lemma {:induction false} BeginningsShow(events: seq<Event>, job: nat, fileExists: bool, canReplace: bool)
    requires Legal(INITIAL, events) && CanBegin(Run(INITIAL, events), job)
    ensures var s, s' := Run(INITIAL, events), Step(Run(INITIAL, events), Begin(job, fileExists, canReplace));
            var there := LastDownload(events).Some? && fileExists;
            var goes := match s.jobs[job].kind
                        case Check => s.app.status != Installing
                        case Download => s.app.status != Installing && !(s.app.status == Ready && there)
                        case Install => canReplace && there;
            && (s'.jobs[job].phase.Running? <==> goes)
            && (goes ==> s'.app.error.None? && s'.app.file == s.app.file && s'.app.tag == s.app.tag
                         && s'.app.latestVersion == s.app.latestVersion)
            && (goes && s.jobs[job].kind == Check ==> s'.app.status == Checking && s'.app.percent == s.app.percent)
            && (goes && s.jobs[job].kind == Download ==> s'.app.status == Downloading && s'.app.percent == Some(0))
            && (goes && s.jobs[job].kind == Install ==> s'.app.status == Status.Installing && s'.app.percent == Some(100))
            && (!goes ==> s'.app == s.app && s'.jobs[job].phase == Settled(s.jobs[job].kind != Install))
  {
    RecordsLastDownload(events);
    assert Inv(INITIAL);
    EveryRunKeepsInv(INITIAL, events);
    hide Run, Legal, LastDownload;
    BeginIsNext(Run(INITIAL, events), job);
  }

  /** A progress report is shown as it comes, with the version being downloaded. */
  lemma {:induction false} ProgressShows(s: State, job: nat, tag: string, percent: nat)
    requires Enabled(s, Progress(job, tag, percent))
    ensures var s' := Step(s, Progress(job, tag, percent));
            && s'.app.status == Downloading && s'.app.percent == Some(percent)
            && s'.app.latestVersion == Some(StripTagPrefix(tag))
            && s'.app.file == s.app.file && s'.app.tag == s.app.tag && s'.jobs == s.jobs
  {
  }

  /** A version's tag is the version, with or without a leading `v`. */
  lemma {:induction false} TagOfVersion(version: string)
    requires version != [] && JsText.Trimmed(version)
    ensures StripTagPrefix("v" + version) == version && StripTagPrefix("V" + version) == version
    ensures version[0] != 'v' && version[0] != 'V' ==> StripTagPrefix(version) == version
  {
    JsText.TrimKeeps("v" + version);
    JsText.TrimKeeps("V" + version);
    JsText.TrimKeeps(version);
    hide JsText.Trim;
    assert ("v" + version)[1..] == version && ("V" + version)[1..] == version;
  }

  // ---------------------------------------------------------------- what "ready" promises

  /** The version shown is the one of the downloaded file. */
  ghost predicate Consistent(a: App) {
    a.file.Some? && a.tag.Some? && a.latestVersion == Some(StripTagPrefix(a.tag.value))
  }

  ghost predicate ReadyLaw(a: App) {
    a.status == Ready ==> Consistent(a)
  }

  /** An install job that goes on begins with the shown version the file's own. */
  ghost predicate Guarded(s: State, e: Event)
    requires Enabled(s, e)
  {
    e.Begin? && s.jobs[e.job].kind == Install && e.canReplace && e.fileExists && s.app.file.Some? ==>
      Consistent(s.app)
  }

  ghost predicate GuardedRun(s: State, events: seq<Event>)
    requires Legal(s, events)
    decreases |events|
  {
    events != [] ==> Guarded(s, events[0]) && GuardedRun(Step(s, events[0]), events[1..])
  }

  ghost predicate ReadyInv(s: State) {
    Inv(s) && ReadyLaw(s.app) && (JobRunning(s) && Current(s) == Install ==> Consistent(s.app))
  }

  lemma {:induction false} StepKeepsReady(s: State, e: Event)
    requires ReadyInv(s) && Enabled(s, e) && Guarded(s, e)
    ensures ReadyInv(Step(s, e))
  {
    hide StripTagPrefix;
    StepKeepsInv(s, e);
    match e
    case Enqueue(kind) =>
    case Begin(i, _, _) => BeginIsNext(s, i);
    case Progress(i, _, _) =>
    case End(i, o) =>
      assert i == |s.settled|;
  }

  /** On guarded runs `ready` always means: a file is recorded and the version shown is its tag's. */
  lemma {:induction false} GuardedRunsKeepReady(s: State, events: seq<Event>)
    requires ReadyInv(s) && Legal(s, events) && GuardedRun(s, events)
    ensures ReadyLaw(Run(s, events).app)
    decreases |events|
  {
    if events != [] {
      StepKeepsReady(s, events[0]);
      hide Step, Guarded;
      GuardedRunsKeepReady(Step(s, events[0]), events[1..]);
    }
  }

  /** Beginning every install in `ready` is enough. */
  lemma {:induction false} ReadyIsGuarded(s: State, e: Event)
    requires ReadyInv(s) && Enabled(s, e)
    requires e.Begin? && s.jobs[e.job].kind == Install ==> s.app.status == Ready
    ensures Guarded(s, e)
  {
  }

  /** Every install job begins in `ready`. */
  ghost predicate InstallsBeginReady(s: State, events: seq<Event>)
    requires Legal(s, events)
    decreases |events|
  {
    events != [] ==>
      && (events[0].Begin? && s.jobs[events[0].job].kind == Install ==> s.app.status == Ready)
      && InstallsBeginReady(Step(s, events[0]), events[1..])
  }

  lemma {:induction false} ReadyRunsAreGuarded(s: State, events: seq<Event>)
    requires ReadyInv(s) && Legal(s, events) && InstallsBeginReady(s, events)
    ensures GuardedRun(s, events)
    decreases |events|
  {
    if events != [] {
      ReadyIsGuarded(s, events[0]);
      StepKeepsReady(s, events[0]);
      hide Step, Guarded, ReadyInv;
      ReadyRunsAreGuarded(Step(s, events[0]), events[1..]);
    }
  }

  /** So from the start: where every install begins in `ready`, `ready` always keeps its promise. */
  lemma {:induction false} ReadyInstallsKeepReady(events: seq<Event>)
    requires Legal(INITIAL, events) && InstallsBeginReady(INITIAL, events)
    ensures ReadyLaw(Run(INITIAL, events).app)
  {
    assert ReadyInv(INITIAL);
    hide ReadyInv, ReadyLaw;
    ReadyRunsAreGuarded(INITIAL, events);
    GuardedRunsKeepReady(INITIAL, events);
  }

  /** And the guard is exact: an install that goes on can break the promise if and only if it is not met. */
  lemma {:induction false} InstallSafeIff(s: State, i: nat)
    requires ReadyInv(s) && CanBegin(s, i) && s.jobs[i].kind == Install && s.app.file.Some?
    ensures var s1 := Step(s, Begin(i, true, true));
            && s1.jobs[i].phase.Running?
            && ((forall o | Fits(Install, o) :: ReadyLaw(Step(s1, End(i, o)).app)) <==> Consistent(s.app))
  {
    hide StripTagPrefix;
    var s1 := Step(s, Begin(i, true, true));
    if !Consistent(s.app) {
      var o := StagingFailed("", true);
      assert Fits(Install, o);
      assert !ReadyLaw(Step(s1, End(i, o)).app);
    }
  }

  lemma {:induction false} RunJoin(s: State, a: seq<Event>, b: seq<Event>)
    requires Legal(s, a) && Legal(Run(s, a), b)
    ensures Legal(s, a + b) && Run(s, a + b) == Run(Run(s, a), b)
    decreases |a|
  {
    hide Step, Enabled;
    if a == [] {
      assert [] + b == b;
    } else {
      RunJoin(Step(s, a[0]), a[1..], b);
      assert (a + b)[1..] == a[1..] + b;
    }
  }

  ghost predicate AllSettled(s: State) {
    Inv(s) && |s.settled| == |s.jobs|
  }

  /** A job requested with nothing else under way: it begins and ends before the next event. */
  ghost function WholeJob(job: nat, kind: Kind, fileExists: bool, o: Outcome): seq<Event> {
    [Enqueue(kind), Begin(job, fileExists, true), End(job, o)]
  }

  lemma {:induction false} WholeJobRuns(s: State, kind: Kind, fileExists: bool, o: Outcome)
    requires AllSettled(s) && Fits(kind, o) && BeginJob(s.app, kind, fileExists, true).0.Goes?
    ensures var events := WholeJob(|s.jobs|, kind, fileExists, o);
            && Legal(s, events) && AllSettled(Run(s, events)) && |Run(s, events).jobs| == |s.jobs| + 1
            && Run(s, events).app == EndJob(BeginJob(s.app, kind, fileExists, true).1, o)
  {
    hide BeginJob, EndJob;
    var n, es := |s.jobs|, WholeJob(|s.jobs|, kind, fileExists, o);
    StepKeepsInv(s, es[0]);
    var s1 := Step(s, es[0]);
    BeginIsNext(s1, n);
    StepKeepsInv(s1, es[1]);
    var s2 := Step(s1, es[1]);
    StepKeepsInv(s2, es[2]);
    var s3 := Step(s2, es[2]);
    assert es[1..][1..] == [es[2]] && [es[2]][1..] == [];
    assert Legal(s3, []) && Run(s3, []) == s3;
    assert Legal(s2, [es[2]]) && Run(s2, [es[2]]) == s3;
    assert Legal(s1, es[1..]) && Run(s1, es[1..]) == s3;
  }

  /** What the windows show after one download, and after the check that then finds another release. */
  ghost function AfterDownload(tag: string, path: string): App {
    EndJob(BeginJob(FRESH, Download, false, true).1, Downloaded(tag, path))
  }

  ghost function AfterCheck(first: string, second: string, path: string): App {
    EndJob(BeginJob(AfterDownload(first, path), Check, true, true).1, UpdateFound(second, true))
  }

  ghost function DownloadThenCheck(first: string, second: string, path: string): seq<Event> {
    WholeJob(0, Download, false, Downloaded(first, path)) + WholeJob(1, Check, true, UpdateFound(second, true))
  }

  lemma {:induction false} DownloadThenCheckRuns(first: string, second: string, path: string)
    ensures var events := DownloadThenCheck(first, second, path);
            && Legal(INITIAL, events) && AllSettled(Run(INITIAL, events)) && |Run(INITIAL, events).jobs| == 2
            && Run(INITIAL, events).app == AfterCheck(first, second, path)
  {
    assert AllSettled(INITIAL) && BeginJob(FRESH, Download, false, true).0.Goes?;
    assert BeginJob(AfterDownload(first, path), Check, true, true).0.Goes?;
    hide StripTagPrefix, Run, Legal, WholeJob, BeginJob, EndJob, Inv;
    WholeJobRuns(INITIAL, Download, false, Downloaded(first, path));
    var download, check := WholeJob(0, Download, false, Downloaded(first, path)), WholeJob(1, Check, true, UpdateFound(second, true));
    WholeJobRuns(Run(INITIAL, download), Check, true, UpdateFound(second, true));
    RunJoin(INITIAL, download, check);
  }

  lemma {:induction false} WrongVersionShown(first: string, second: string, path: string)
    requires StripTagPrefix(first) != StripTagPrefix(second)
    ensures var found := AfterCheck(first, second, path);
            var (begun, installing) := BeginJob(found, Install, true, true);
            var failed := EndJob(installing, StagingFailed("", true));
            begun.Goes? && found.status == Available && failed.status == Ready && !ReadyLaw(failed)
  {
    hide StripTagPrefix;
  }

  /** A newer release found after a download, then a failed install: `ready` shows the wrong version. */
  lemma {:induction false} FailedInstallShowsWrongVersion(first: string, second: string, path: string)
    requires StripTagPrefix(first) != StripTagPrefix(second)
    ensures var before := DownloadThenCheck(first, second, path);
            var install := WholeJob(2, Install, true, StagingFailed("", true));
            && Legal(INITIAL, before) && Run(INITIAL, before).app.status == Available
            && Legal(INITIAL, before + install)
            && Run(INITIAL, before + install).app.status == Ready
            && !ReadyLaw(Run(INITIAL, before + install).app)
  {
    DownloadThenCheckRuns(first, second, path);
    WrongVersionShown(first, second, path);
    hide StripTagPrefix, Run, Legal, WholeJob, DownloadThenCheck, BeginJob, EndJob, ReadyLaw, Inv, AfterCheck;
    var before, install := DownloadThenCheck(first, second, path), WholeJob(2, Install, true, StagingFailed("", true));
    WholeJobRuns(Run(INITIAL, before), Install, true, StagingFailed("", true));
    RunJoin(INITIAL, before, install);
  }

  ghost predicate NoInstallBegins(s: State, events: seq<Event>)
    requires Legal(s, events)
    decreases |events|
  {
    events != [] ==>
      && (events[0].Begin? ==> s.jobs[events[0].job].kind != Install)
      && NoInstallBegins(Step(s, events[0]), events[1..])
  }

  /** After an install whose script could not be written, no check or download changes anything again. */
  lemma {:induction false} StuckInstalling(s: State, events: seq<Event>)
    requires Inv(s) && !JobRunning(s) && s.app.status == Installing
    requires Legal(s, events) && NoInstallBegins(s, events)
    ensures Run(s, events).app == s.app
    decreases |events|
  {
    if events != [] {
      var s1 := Step(s, events[0]);
      StepKeepsInv(s, events[0]);
      assert s1.app == s.app && !JobRunning(s1);
      hide Step, Inv;
      StuckInstalling(s1, events[1..]);
    }
  }

  // ---------------------------------------------------------------- the module's variables

  class AutoUpdater {
    var app: App
    var jobs: seq<Job>
    var inFlight: Option<nat>
    ghost var started: seq<nat>
    ghost var settled: seq<nat>

    ghost function View(): State
      reads this
    {
      State(app, jobs, inFlight, started, settled)
    }

    constructor ()
      ensures View() == INITIAL
    {
      app, jobs, inFlight := FRESH, [], None;
      started, settled := [], [];
    }

    method EnqueueJob(kind: Kind)
      modifies this
      ensures View() == Step(old(View()), Enqueue(kind))
    {
      jobs := jobs + [Job(kind, inFlight, Waiting)];
      inFlight := Some(|jobs| - 1);
    }

    method Settle(i: nat, ok: bool)
      requires i < |jobs|
      modifies this`jobs, this`settled
      ensures jobs == old(jobs)[i := old(jobs)[i].(phase := Settled(ok))] && settled == old(settled) + [i]
    {
      jobs := jobs[i := jobs[i].(phase := Settled(ok))];
      settled := settled + [i];
    }

    method BeginNext(i: nat, fileExists: bool, canReplace: bool)
      requires CanBegin(View(), i)
      modifies this
      ensures View() == Step(old(View()), Begin(i, fileExists, canReplace))
    {
      started := started + [i];
      if jobs[i].kind == Install {
        if !canReplace || app.file.None? || !fileExists { Settle(i, false); return; }
        app := app.(status := Installing, percent := Some(100), error := None);
      } else {
        if app.status == Downloading || app.status == Installing { Settle(i, true); return; }
        if jobs[i].kind == Download {
          if app.status == Ready && app.file.Some? && fileExists { Settle(i, true); return; }
          app := app.(status := Downloading, percent := Some(0), error := None);
        } else {
          app := app.(status := Checking, error := None);
        }
      }
      jobs := jobs[i := jobs[i].(phase := Running)];
    }

    method ReportProgress(i: nat, tag: string, percent: nat)
      requires Enabled(View(), Progress(i, tag, percent))
      modifies this`app
      ensures View() == Step(old(View()), Progress(i, tag, percent))
    {
      app := app.(status := Downloading, percent := Some(percent), latestVersion := Some(StripTagPrefix(tag)));
    }

    method FinishJob(i: nat, o: Outcome)
      requires Enabled(View(), End(i, o))
      modifies this
      ensures View() == Step(old(View()), End(i, o))
    {
      match o {
      case CheckFailed(message) => app := app.(status := Failed, error := Some(message));
      case NothingNew(tag) => app := app.(status := Unavailable, latestVersion := Some(StripTagPrefix(tag)));
      case UpdateFound(tag, fileExists) =>
        var version := Some(StripTagPrefix(tag));
        if app.tag == Some(tag) && app.file.Some? && fileExists {
          app := app.(status := Ready, latestVersion := version, percent := Some(100));
        } else {
          app := app.(status := Available, latestVersion := version, percent := None);
        }
      case Downloaded(tag, path) =>
        app := app.(file := Some(path), tag := Some(tag));
        app := app.(status := Ready, percent := Some(100), latestVersion := Some(StripTagPrefix(tag)));
      case DownloadFailed(message) => app := app.(status := Failed, error := Some(message));
      case StagingFailed(message, fileExists) =>
        app := app.(status := if app.file.Some? && fileExists then Ready else Failed, error := Some(message));
      case ScriptFailed =>
      case Relaunching =>
      }
      Settle(i, Succeeds(o));
    }
  }
}
