/**
 The Windows tray lifetime: the controller that decides when a closed window hides and when the
 app quits, with the window glue around it and every outside outcome left open.
 */
module WindowLifetime {
  datatype Platform = Win32 | Darwin | OtherPlatform

  datatype Env = Env(platform: Platform, packaged: bool, dev: bool)

  predicate Supported(env: Env) {
    env.platform == Win32 && !env.dev && env.packaged
  }

  /**
   `startHidden` is the creation option, `restored` membership in the set of revealed windows, and
   `ready` that the one ready-to-show event has been delivered: until then a window is not yet shown.
   */
  datatype Window = Window(
    id: nat,
    visible: bool,
    minimized: bool,
    startHidden: bool,
    restored: bool,
    ready: bool)

  /** `trayActive` is the controller's belief, `tray` whether a tray icon exists. */
  datatype Desk = Desk(
    keepInBackground: bool,
    trayActive: bool,
    quitting: bool,
    tray: bool,
    appReady: bool,
    windows: seq<Window>,
    nextId: nat)

  function Boot(keepInBackground: bool): Desk {
    Desk(keepInBackground, false, false, false, false, [], 0)
  }

  /** What the outside answers to a change of the preference; reading the login item may itself throw. */
  datatype Answers = Answers(writeFails: bool, trayOk: bool, loginReadThrows: bool, opensAtLogin: bool, loginWriteOk: bool)

  datatype Event =
    | AppReady(launchedHidden: bool, trayOk: bool)
    | NewWindow
    | ReadyToShow(id: nat)
    | Show(id: nat)
    | Minimize(id: nat)
    | SecondInstance(background: bool)
    | Close(id: nat, terminalsRunning: bool)
    | CloseConfirmed(id: nat)
    | SetKeepInBackground(enabled: bool, answers: Answers)
    | Quit

  // ---------------------------------------------------------------- the decisions

  predicate CanStartHidden(env: Env, d: Desk) {
    Supported(env) && d.keepInBackground && d.trayActive
  }

  /** `syncTray`, with `createWindowsTray` keeping a tray that exists. */
  function SyncTray(env: Env, d: Desk, trayOk: bool): Desk {
    if Supported(env) && d.keepInBackground then
      var created := d.tray || trayOk;
      d.(tray := created, trayActive := created)
    else d.(tray := if d.trayActive then false else d.tray, trayActive := false)
  }

  datatype CloseDecision = Hide | AllowClose | QuitClose

  function HandleWindowClose(env: Env, d: Desk, id: nat): CloseDecision {
    if d.quitting then (if env.platform == Win32 then QuitClose else AllowClose)
    else if !CanStartHidden(env, d) then AllowClose
    else if exists i | 0 <= i < |d.windows| :: d.windows[i].id != id then AllowClose
    else Hide
  }

  predicate ShouldQuitWhenNoWindows(env: Env, d: Desk) {
    d.quitting || !CanStartHidden(env, d)
  }

  // ---------------------------------------------------------------- the glue

  function Revealed(w: Window): Window {
    w.(restored := true, minimized := false, visible := true)
  }

  function Change(ws: seq<Window>, id: nat, change: Window -> Window): (r: seq<Window>)
    ensures |r| == |ws|
    ensures forall i | 0 <= i < |r| :: r[i] == if ws[i].id == id then change(ws[i]) else ws[i]
  {
    if ws == [] then []
    else [if ws[0].id == id then change(ws[0]) else ws[0]] + Change(ws[1..], id, change)
  }

  function RevealAll(ws: seq<Window>): (r: seq<Window>)
    ensures |r| == |ws| && forall i | 0 <= i < |r| :: r[i] == Revealed(ws[i])
  {
    if ws == [] then [] else [Revealed(ws[0])] + RevealAll(ws[1..])
  }

  function Remove(ws: seq<Window>, id: nat): (r: seq<Window>)
    ensures forall w :: w in r <==> w in ws && w.id != id
  {
    if ws == [] then []
    else
      assert ws == [ws[0]] + ws[1..];
      (if ws[0].id == id then [] else [ws[0]]) + Remove(ws[1..], id)
  }

  function Create(d: Desk, hidden: bool): Desk {
    d.(windows := d.windows + [Window(d.nextId, false, false, hidden, false, false)], nextId := d.nextId + 1)
  }

  function BeginQuit(d: Desk): Desk {
    d.(quitting := true, tray := false)
  }

  /** A window goes away; the last one to go may take the app with it. */
  function Destroy(env: Env, d: Desk, id: nat): Desk {
    var d' := d.(windows := Remove(d.windows, id));
    if d'.windows == [] && env.platform != Darwin && ShouldQuitWhenNoWindows(env, d') then BeginQuit(d') else d'
  }

  /** The window a second launch or a click on the tray restores: hidden first, then minimized, then any. */
  function FindFirst(ws: seq<Window>, test: Window -> bool): (i: int)
    ensures -1 <= i < |ws|
    ensures i >= 0 ==> test(ws[i]) && forall k | 0 <= k < i :: !test(ws[k])
    ensures i < 0 ==> forall k | 0 <= k < |ws| :: !test(ws[k])
  {
    if ws == [] then -1
    else if test(ws[0]) then 0
    else
      var i := FindFirst(ws[1..], test);
      assert forall k | 1 <= k < |ws| :: ws[k] == ws[1..][k - 1];
      if i < 0 then -1 else i + 1
  }

  function RestoreTarget(ws: seq<Window>): (i: nat)
    requires ws != []
    ensures i < |ws|
  {
    var hidden := FindFirst(ws, (w: Window) => !w.visible);
    if hidden >= 0 then hidden
    else
      var minimized := FindFirst(ws, (w: Window) => w.minimized);
      if minimized >= 0 then minimized else 0
  }

  predicate Open(d: Desk, id: nat) {
    exists i | 0 <= i < |d.windows| :: d.windows[i].id == id
  }

  /**
   Settings are changed from a window; ready-to-show comes once for each; the app becomes ready once,
   possibly after a second launch has already opened windows.
   */
  predicate Enabled(d: Desk, e: Event) {
    match e
    case AppReady(_, _) => !d.appReady
    case ReadyToShow(id) => exists i | 0 <= i < |d.windows| :: d.windows[i].id == id && !d.windows[i].ready
    case Show(id) => Open(d, id)
    case Minimize(id) => Open(d, id)
    case Close(id, _) => Open(d, id)
    case CloseConfirmed(id) => Open(d, id)
    case SetKeepInBackground(_, _) => d.windows != []
    case _ => true
  }

  /** The login item, read and perhaps written after the tray is settled, makes the call throw. */
  predicate LoginItemThrows(a: Answers) {
    a.loginReadThrows || (a.opensAtLogin && !a.loginWriteOk)
  }

  predicate Throws(env: Env, a: Answers) {
    !Supported(env) || a.writeFails || LoginItemThrows(a)
  }

  /** The settings handler: the reveal of windows comes after the call that may throw. */
  function SetKeep(env: Env, d: Desk, enabled: bool, a: Answers): Desk {
    if !Supported(env) then d
    else
      var chosen := d.(keepInBackground := enabled);
      if a.writeFails then chosen
      else
        var synced := SyncTray(env, chosen, a.trayOk);
        if Throws(env, a) || CanStartHidden(env, synced) then synced
        else synced.(windows := RevealAll(synced.windows))
  }

  function Step(env: Env, d: Desk, e: Event): Desk
    requires Enabled(d, e)
  {
    match e
    case AppReady(launchedHidden, trayOk) =>
      var synced := SyncTray(env, d.(appReady := true), trayOk);
      Create(synced, launchedHidden && CanStartHidden(env, synced))
    case NewWindow => Create(d, false)
    case ReadyToShow(id) =>
      d.(windows := Change(d.windows, id, (w: Window) =>
        if w.ready then w
        else if w.startHidden && !w.restored then w.(ready := true)
        else w.(ready := true, visible := true)))
    case Show(id) =>
      d.(windows := Change(d.windows, id, (w: Window) => w.(minimized := false, visible := true)))
    case Minimize(id) => d.(windows := Change(d.windows, id, (w: Window) => w.(minimized := true)))
    case SecondInstance(background) =>
      if background then d
      else if env.platform != Win32 || d.windows == [] then Create(d, false)
      else d.(windows := Change(d.windows, d.windows[RestoreTarget(d.windows)].id, Revealed))
    case Close(id, terminalsRunning) =>
      (match HandleWindowClose(env, d, id)
       case Hide => d.(windows := Change(d.windows, id, (w: Window) => w.(visible := false)))
       case QuitClose => Destroy(env, d, id)
       case AllowClose => if terminalsRunning then d else Destroy(env, d, id))
    case CloseConfirmed(id) => Destroy(env, d, id)
    case SetKeepInBackground(enabled, a) => SetKeep(env, d, enabled, a)
    case Quit => BeginQuit(d)
  }

  // ---------------------------------------------------------------- no stranded window

  /** Hidden, or about to be left hidden by its ready-to-show event. */
  predicate OutOfSight(w: Window) {
    !w.visible && (w.ready || (w.startHidden && !w.restored))
  }

  ghost predicate NoneStranded(d: Desk) {
    forall i | 0 <= i < |d.windows| :: OutOfSight(d.windows[i]) ==> d.tray || d.quitting
  }

  ghost predicate Inv(env: Env, d: Desk) {
    && (!d.quitting ==> d.trayActive == d.tray)
    && NoneStranded(d)
    && (d.appReady && d.windows == [] && env.platform != Darwin ==> d.tray || d.quitting)
  }

  /**
   The two ways to strand a window out of sight: a preference change takes the tray and then throws
   over the login item; or the app becomes ready with the preference off and the tray still there,
   because an earlier change could not be saved.
   */
  predicate Strands(env: Env, d: Desk, e: Event) {
    && !d.quitting && (exists i | 0 <= i < |d.windows| :: OutOfSight(d.windows[i]))
    && match e
       case SetKeepInBackground(enabled, a) =>
         Supported(env) && !a.writeFails && LoginItemThrows(a) && !(enabled && (d.tray || a.trayOk))
       case AppReady(_, _) => !(Supported(env) && d.keepInBackground)
       case _ => false
  }

  lemma {:induction false} ChangeStaysInSight(ws: seq<Window>, id: nat, change: Window -> Window, covered: bool)
    requires forall i | 0 <= i < |ws| :: OutOfSight(ws[i]) ==> covered
    requires forall w :: OutOfSight(change(w)) ==> OutOfSight(w) || covered
    ensures var r := Change(ws, id, change); forall i | 0 <= i < |r| :: OutOfSight(r[i]) ==> covered
  {
  }

  lemma {:induction false} RemoveStaysInSight(ws: seq<Window>, id: nat, covered: bool)
    requires forall i | 0 <= i < |ws| :: OutOfSight(ws[i]) ==> covered
    ensures var r := Remove(ws, id); forall i | 0 <= i < |r| :: OutOfSight(r[i]) ==> covered
  {
    var r := Remove(ws, id);
    forall i | 0 <= i < |r| ensures OutOfSight(r[i]) ==> covered {
      assert r[i] in r;
    }
  }

  lemma {:induction false} DestroyKeepsInv(env: Env, d: Desk, id: nat)
    requires Inv(env, d)
    ensures Inv(env, Destroy(env, d, id))
  {
    RemoveStaysInSight(d.windows, id, d.tray || d.quitting);
  }

  lemma {:induction false} ChangeKeepsInv(env: Env, d: Desk, id: nat, change: Window -> Window)
    requires Inv(env, d)
    requires forall w :: OutOfSight(change(w)) ==> OutOfSight(w) || d.tray || d.quitting
    ensures Inv(env, d.(windows := Change(d.windows, id, change)))
  {
    ChangeStaysInSight(d.windows, id, change, d.tray || d.quitting);
  }

  /** A preference change strands a window exactly in the case named by `Strands`. */
  lemma {:induction false} SetKeepSafeIff(env: Env, d: Desk, enabled: bool, a: Answers)
    requires Inv(env, d) && Enabled(d, SetKeepInBackground(enabled, a))
    ensures Inv(env, SetKeep(env, d, enabled, a)) <==> !Strands(env, d, SetKeepInBackground(enabled, a))
  {
    var d' := SetKeep(env, d, enabled, a);
    if Strands(env, d, SetKeepInBackground(enabled, a)) {
      var i :| 0 <= i < |d.windows| && OutOfSight(d.windows[i]);
      assert d'.windows[i] == d.windows[i];
    }
  }

  lemma {:induction false} AppReadySafeIff(env: Env, d: Desk, launchedHidden: bool, trayOk: bool)
    requires Inv(env, d) && Enabled(d, AppReady(launchedHidden, trayOk))
    ensures var e := AppReady(launchedHidden, trayOk);
            Inv(env, Step(env, d, e)) <==> !Strands(env, d, e)
  {
    var d' := Step(env, d, AppReady(launchedHidden, trayOk));
    assert forall i | 0 <= i < |d.windows| :: d'.windows[i] == d.windows[i];
    if Strands(env, d, AppReady(launchedHidden, trayOk)) {
      var i :| 0 <= i < |d.windows| && OutOfSight(d.windows[i]);
      assert OutOfSight(d'.windows[i]);
    }
  }

  /** Windows change one at a time, come and go. */
  lemma {:induction false} WindowEventKeepsInv(env: Env, d: Desk, e: Event)
    requires Inv(env, d) && Enabled(d, e) && !e.AppReady? && !e.SetKeepInBackground?
    ensures Inv(env, Step(env, d, e))
  {
    match e
    case ReadyToShow(id) =>
      ChangeKeepsInv(env, d, id, (w: Window) =>
        if w.ready then w
        else if w.startHidden && !w.restored then w.(ready := true)
        else w.(ready := true, visible := true));
    case Show(id) => ChangeKeepsInv(env, d, id, (w: Window) => w.(minimized := false, visible := true));
    case Minimize(id) => ChangeKeepsInv(env, d, id, (w: Window) => w.(minimized := true));
    case SecondInstance(background) =>
      if d.windows != [] { ChangeKeepsInv(env, d, d.windows[RestoreTarget(d.windows)].id, Revealed); }
    case Close(id, terminalsRunning) => { hide Step, Enabled; CloseKeepsInv(env, d, id, terminalsRunning); }
    case CloseConfirmed(id) => DestroyKeepsInv(env, d, id);
    case _ =>
  }

  lemma {:induction false} CloseKeepsInv(env: Env, d: Desk, id: nat, terminalsRunning: bool)
    requires Inv(env, d) && Open(d, id)
    ensures Inv(env, Step(env, d, Close(id, terminalsRunning)))
  {
    if HandleWindowClose(env, d, id) == Hide {
      ChangeKeepsInv(env, d, id, (w: Window) => w.(visible := false));
    } else {
      DestroyKeepsInv(env, d, id);
    }
  }

  /** Every event keeps hidden windows within reach, exactly if it is not one of the two. */
  lemma {:induction false} StepSafeIff(env: Env, d: Desk, e: Event)
    requires Inv(env, d) && Enabled(d, e)
    ensures Inv(env, Step(env, d, e)) <==> !Strands(env, d, e)
  {
    match e
    case AppReady(launchedHidden, trayOk) => AppReadySafeIff(env, d, launchedHidden, trayOk);
    case SetKeepInBackground(enabled, a) => SetKeepSafeIff(env, d, enabled, a);
    case _ =>
      WindowEventKeepsInv(env, d, e);
      hide Inv, Step, Enabled;
  }

  ghost predicate Legal(env: Env, d: Desk, events: seq<Event>)
    decreases |events|
  {
    events != [] ==> Enabled(d, events[0]) && Legal(env, Step(env, d, events[0]), events[1..])
  }

  ghost function Run(env: Env, d: Desk, events: seq<Event>): Desk
    requires Legal(env, d, events)
    decreases |events|
  {
    if events == [] then d else Run(env, Step(env, d, events[0]), events[1..])
  }

  ghost predicate NothingStrands(env: Env, d: Desk, events: seq<Event>)
    requires Legal(env, d, events)
    decreases |events|
  {
    events != [] ==>
      !Strands(env, d, events[0]) && NothingStrands(env, Step(env, d, events[0]), events[1..])
  }

  /** Someone can get the app back or it is ending: a tray, a window in sight or about to be, or a quit. */
  ghost predicate WithinReach(d: Desk) {
    || d.quitting || d.tray
    || exists i | 0 <= i < |d.windows| :: !OutOfSight(d.windows[i])
  }

  lemma {:induction false} EveryRunKeepsInv(env: Env, d: Desk, events: seq<Event>)
    requires Inv(env, d) && Legal(env, d, events) && NothingStrands(env, d, events)
    ensures Inv(env, Run(env, d, events))
    decreases |events|
  {
    hide Inv, Step, Strands, Enabled;
    if events != [] {
      StepSafeIff(env, d, events[0]);
      EveryRunKeepsInv(env, Step(env, d, events[0]), events[1..]);
    }
  }

  /** On every such run a hidden window has a tray icon or a quit behind it, and the app stays within reach. */
  lemma {:induction false} HiddenMeansTrayOrQuit(env: Env, keep: bool, events: seq<Event>)
    requires Legal(env, Boot(keep), events) && NothingStrands(env, Boot(keep), events)
    ensures var d := Run(env, Boot(keep), events);
            && NoneStranded(d)
            && (d.appReady && env.platform != Darwin ==> WithinReach(d))
  {
    assert Inv(env, Boot(keep));
    EveryRunKeepsInv(env, Boot(keep), events);
    var d := Run(env, Boot(keep), events);
    if d.windows != [] && !d.tray && !d.quitting { assert !OutOfSight(d.windows[0]); }
  }

  ghost predicate NothingThrows(env: Env, events: seq<Event>) {
    forall i | 0 <= i < |events| :: events[i].SetKeepInBackground? ==> !Throws(env, events[i].answers)
  }

  /** The tray is there only for the preference; only a change that could not be saved breaks this. */
  ghost predicate Synced(env: Env, d: Desk) {
    d.trayActive ==> Supported(env) && d.keepInBackground
  }

  lemma {:induction false} StepKeepsSynced(env: Env, d: Desk, e: Event)
    requires Synced(env, d) && Inv(env, d) && Enabled(d, e)
    requires e.SetKeepInBackground? ==> !Throws(env, e.answers)
    ensures Synced(env, Step(env, d, e)) && !Strands(env, d, e)
  {
    hide OutOfSight;
  }

  /** A run in which no preference change throws strands nothing. */
  lemma {:induction false} NoThrowNoStrand(env: Env, d: Desk, events: seq<Event>)
    requires Inv(env, d) && Synced(env, d) && Legal(env, d, events) && NothingThrows(env, events)
    ensures NothingStrands(env, d, events)
    decreases |events|
  {
    if events != [] {
      StepKeepsSynced(env, d, events[0]);
      StepSafeIff(env, d, events[0]);
      hide Inv, Synced, Step, Strands, Enabled, Throws;
      NoThrowNoStrand(env, Step(env, d, events[0]), events[1..]);
    }
  }

  /** So on every run from the start without such an exception, hidden means tray or quit. */
  lemma {:induction false} NoThrowHiddenMeansTrayOrQuit(env: Env, keep: bool, events: seq<Event>)
    requires Legal(env, Boot(keep), events) && NothingThrows(env, events)
    ensures NoneStranded(Run(env, Boot(keep), events))
  {
    assert Inv(env, Boot(keep)) && Synced(env, Boot(keep));
    NoThrowNoStrand(env, Boot(keep), events);
    HiddenMeansTrayOrQuit(env, keep, events);
  }

  /** The failing case: hidden to the tray, preference switched off, login item refused or unreadable. */
  lemma {:induction false} RefusedLoginItemStrands(env: Env, d: Desk, a: Answers)
    requires Supported(env) && Inv(env, d) && !d.quitting && d.windows != []
    requires OutOfSight(d.windows[0])
    requires !a.writeFails && LoginItemThrows(a)
    ensures !NoneStranded(Step(env, d, SetKeepInBackground(false, a)))
  {
    assert Step(env, d, SetKeepInBackground(false, a)).windows[0] == d.windows[0];
  }

  lemma {:induction false} RunThen(env: Env, d: Desk, events: seq<Event>, e: Event)
    requires Legal(env, d, events) && Enabled(Run(env, d, events), e)
    ensures Legal(env, d, events + [e]) && Run(env, d, events + [e]) == Step(env, Run(env, d, events), e)
    decreases |events|
  {
    hide Step, Enabled;
    if events == [] {
      assert [] + [e] == [e] && [e][1..] == [];
    } else {
      RunThen(env, Step(env, d, events[0]), events[1..], e);
      assert (events + [e])[1..] == events[1..] + [e];
    }
  }

  /** A second launch opens a window before the app is ready, and the preference is switched on from it. */
  ghost function EarlyTray(): seq<Event> {
    [] + [SecondInstance(false)] + [ReadyToShow(0)]
    + [SetKeepInBackground(true, Answers(false, true, false, false, true))]
  }

  /** Then the window is closed to the tray, and a change that cannot be saved switches the preference off. */
  ghost function UnsavedRun(): seq<Event> {
    EarlyTray() + [Close(0, false)] + [SetKeepInBackground(false, Answers(true, true, false, false, true))]
    + [AppReady(false, true)]
  }

  lemma {:induction false} EarlyTrayRuns(env: Env)
    requires Supported(env)
    ensures Legal(env, Boot(false), EarlyTray())
    ensures Run(env, Boot(false), EarlyTray())
         == Desk(true, true, false, true, false, [Window(0, true, false, false, false, true)], 1)
  {
    var d := Boot(false);
    var d1 := Desk(false, false, false, false, false, [Window(0, false, false, false, false, false)], 1);
    var d2 := Desk(false, false, false, false, false, [Window(0, true, false, false, false, true)], 1);
    var d3 := Desk(true, true, false, true, false, [Window(0, true, false, false, false, true)], 1);
    var on := SetKeepInBackground(true, Answers(false, true, false, false, true));
    assert Legal(env, d, []) && Run(env, d, []) == d;
    assert Step(env, d, SecondInstance(false)) == d1;
    assert d1.windows[0].id == 0;
    assert Enabled(d1, ReadyToShow(0)) && Step(env, d1, ReadyToShow(0)) == d2;
    assert Enabled(d2, on) && Step(env, d2, on) == d3;
    hide Step, Enabled, Run, Legal;
    RunThen(env, d, [], SecondInstance(false));
    RunThen(env, d, [] + [SecondInstance(false)], ReadyToShow(0));
    RunThen(env, d, [] + [SecondInstance(false)] + [ReadyToShow(0)], on);
  }

  /** The other failing case: becoming ready takes the tray of a preference that was changed but not saved. */
  lemma {:induction false} UnsavedPreferenceStrands(env: Env)
    requires Supported(env)
    ensures Legal(env, Boot(false), UnsavedRun()) && !NoneStranded(Run(env, Boot(false), UnsavedRun()))
  {
    var d, tray := Boot(false), EarlyTray();
    EarlyTrayRuns(env);
    var closed, unsaved := Close(0, false), SetKeepInBackground(false, Answers(true, true, false, false, true));
    UnsavedSteps(env);
    hide Step, Enabled, Run, Legal, EarlyTray, NoneStranded;
    RunThen(env, d, tray, closed);
    RunThen(env, d, tray + [closed], unsaved);
    RunThen(env, d, tray + [closed] + [unsaved], AppReady(false, true));
  }

  lemma {:induction false} UnsavedSteps(env: Env)
    requires Supported(env)
    ensures var hidden := Window(0, false, false, false, false, true);
            var d3 := Desk(true, true, false, true, false, [Window(0, true, false, false, false, true)], 1);
            var d4 := Desk(true, true, false, true, false, [hidden], 1);
            var d5 := Desk(false, true, false, true, false, [hidden], 1);
            var unsaved := SetKeepInBackground(false, Answers(true, true, false, false, true));
            && Enabled(d3, Close(0, false)) && Step(env, d3, Close(0, false)) == d4
            && Enabled(d4, unsaved) && Step(env, d4, unsaved) == d5
            && Enabled(d5, AppReady(false, true)) && !NoneStranded(Step(env, d5, AppReady(false, true)))
  {
    var d3 := Desk(true, true, false, true, false, [Window(0, true, false, false, false, true)], 1);
    var d5 := Desk(false, true, false, true, false, [Window(0, false, false, false, false, true)], 1);
    assert d3.windows[0].id == 0;
    CloseDecides(env, d3, 0, false);
    AppReadyOpens(env, d5, false, true);
    var d6 := Step(env, d5, AppReady(false, true));
    assert d6.windows[..1][0] == d5.windows[0];
    assert OutOfSight(d6.windows[0]);
  }

  // ---------------------------------------------------------------- what each event does, told from the desk

  /** The last window closed with the preference on and a tray there goes to the tray. */
  ghost predicate GoesToTray(env: Env, d: Desk, id: nat) {
    && env.platform == Win32 && env.packaged && !env.dev && d.keepInBackground && d.trayActive && !d.quitting
    && forall i | 0 <= i < |d.windows| :: d.windows[i].id == id
  }

  /**
   Closing a window: to the tray it is only hidden; otherwise running terminals keep it as it is,
   except on Windows while quitting; and otherwise it is gone, the others stay, and the app quits
   with it exactly if none is left, on every platform but macOS, without a tray to stay in.
   */
  lemma {:induction false} CloseDecides(env: Env, d: Desk, id: nat, terminalsRunning: bool)
    requires Enabled(d, Close(id, terminalsRunning))
    ensures var d' := Step(env, d, Close(id, terminalsRunning));
            if GoesToTray(env, d, id) then
              && d' == d.(windows := d'.windows) && |d'.windows| == |d.windows|
              && (forall i | 0 <= i < |d.windows| :: d'.windows[i] == d.windows[i].(visible := false))
            else if terminalsRunning && !(d.quitting && env.platform == Win32) then d' == d
            else
              && (forall w :: w in d'.windows <==> w in d.windows && w.id != id)
              && d'.keepInBackground == d.keepInBackground && d'.appReady == d.appReady
              && (d'.quitting <==>
                    || d.quitting
                    || (d'.windows == [] && env.platform != Darwin
                        && !(env.platform == Win32 && env.packaged && !env.dev && d.keepInBackground && d.trayActive)))
              && (d'.tray <==> d.tray && !(d'.quitting && d'.windows == [] && env.platform != Darwin))
  {
  }

  /**
   A close confirmed over running terminals goes through: the window is gone, the others stay, and
   the app quits with the last one, on every platform but macOS, without a tray to stay in.
   */
  lemma {:induction false} ConfirmedCloses(env: Env, d: Desk, id: nat)
    requires Enabled(d, CloseConfirmed(id))
    ensures var d' := Step(env, d, CloseConfirmed(id));
            var stays := env.platform == Win32 && env.packaged && !env.dev && d.keepInBackground && d.trayActive;
            && (forall w :: w in d'.windows <==> w in d.windows && w.id != id)
            && (d'.quitting <==> d.quitting || (d'.windows == [] && env.platform != Darwin && !stays))
            && (d'.tray <==> d.tray && !(d'.quitting && d'.windows == [] && env.platform != Darwin))
            && d'.keepInBackground == d.keepInBackground && d'.trayActive == d.trayActive && d'.appReady == d.appReady
  {
  }

  /** A new window is one more, to be shown when it is ready. */
  lemma {:induction false} NewWindowOpens(env: Env, d: Desk)
    ensures Step(env, d, NewWindow)
         == d.(windows := d.windows + [Window(d.nextId, false, false, false, false, false)], nextId := d.nextId + 1)
  {
  }

  /** A window that becomes ready is shown, unless it was to start hidden and nobody has revealed it. */
  lemma {:induction false} ReadyShows(env: Env, d: Desk, id: nat)
    requires Enabled(d, ReadyToShow(id))
    ensures var d' := Step(env, d, ReadyToShow(id));
            && d' == d.(windows := d'.windows) && |d'.windows| == |d.windows|
            && (forall i | 0 <= i < |d.windows| :: var w, w' := d.windows[i], d'.windows[i];
                  if w.id == id && !w.ready
                  then w' == w.(ready := true, visible := w.visible || !w.startHidden || w.restored)
                  else w' == w)
  {
  }

  /** The app becomes ready with one more window, started hidden only if asked for and there is a tray for it. */
  lemma {:induction false} AppReadyOpens(env: Env, d: Desk, launchedHidden: bool, trayOk: bool)
    requires Enabled(d, AppReady(launchedHidden, trayOk))
    ensures var d' := Step(env, d, AppReady(launchedHidden, trayOk));
            var stays := env.platform == Win32 && env.packaged && !env.dev && d.keepInBackground && (d.tray || trayOk);
            && d'.appReady && |d'.windows| == |d.windows| + 1 && d'.windows[..|d.windows|] == d.windows
            && d'.windows[|d.windows|] == Window(d.nextId, false, false, launchedHidden && stays, false, false)
            && (d'.trayActive <==> stays) && d'.keepInBackground == d.keepInBackground && d'.quitting == d.quitting
  {
  }

  /**
   A change of the preference that does not throw is kept, has a tray exactly if it is on and one
   can be had, and without a tray shows every window.
   */
  lemma {:induction false} SetKeepActs(env: Env, d: Desk, enabled: bool, a: Answers)
    requires Inv(env, d) && !d.quitting && Enabled(d, SetKeepInBackground(enabled, a)) && !Throws(env, a)
    ensures var d' := Step(env, d, SetKeepInBackground(enabled, a));
            && env.platform == Win32 && env.packaged && !env.dev
            && d'.keepInBackground == enabled && !d'.quitting && |d'.windows| == |d.windows|
            && (d'.tray <==> enabled && (d.tray || a.trayOk)) && d'.trayActive == d'.tray
            && (forall i | 0 <= i < |d.windows| ::
                  d'.windows[i] == if d'.tray then d.windows[i]
                                   else d.windows[i].(visible := true, minimized := false, restored := true))
  {
  }

  /** On Windows a second launch brings back the first hidden window, else the first minimized, else the first. */
  lemma {:induction false} SecondInstanceRestores(env: Env, d: Desk, i: nat)
    requires env.platform == Win32 && i < |d.windows|
    requires var hidden := exists k | 0 <= k < |d.windows| :: !d.windows[k].visible;
             var minimized := exists k | 0 <= k < |d.windows| :: d.windows[k].minimized;
             if hidden then !d.windows[i].visible && forall k | 0 <= k < i :: d.windows[k].visible
             else if minimized then d.windows[i].minimized && forall k | 0 <= k < i :: !d.windows[k].minimized
             else i == 0
    ensures Step(env, d, SecondInstance(true)) == d
    ensures var d' := Step(env, d, SecondInstance(false));
            && d' == d.(windows := d'.windows) && |d'.windows| == |d.windows|
            && (forall k | 0 <= k < |d.windows| ::
                  d'.windows[k] == if d.windows[k].id == d.windows[i].id
                                   then d.windows[k].(visible := true, minimized := false, restored := true)
                                   else d.windows[k])
  {
    var hidden := FindFirst(d.windows, (w: Window) => !w.visible);
    var minimized := FindFirst(d.windows, (w: Window) => w.minimized);
    assert RestoreTarget(d.windows) == i;
  }

  /** Quitting takes the tray and leaves the windows to be closed. */
  lemma {:induction false} QuitTakesTray(env: Env, d: Desk)
    ensures Step(env, d, Quit) == d.(quitting := true, tray := false)
  {
  }

  // ---------------------------------------------------------------- quitting

  /** The window with this identity, if open, can be seen. */
  ghost predicate Visible(ws: seq<Window>, id: nat) {
    forall i | 0 <= i < |ws| :: ws[i].id == id ==> ws[i].visible
  }

  lemma {:induction false} ChangeKeepsVisible(ws: seq<Window>, changed: nat, change: Window -> Window, id: nat)
    requires Visible(ws, id)
    requires forall w: Window :: change(w).id == w.id && (w.visible ==> change(w).visible)
    ensures Visible(Change(ws, changed, change), id)
  {
  }

  lemma {:induction false} QuittingAppReady(env: Env, d: Desk, launchedHidden: bool, trayOk: bool, id: nat)
    requires d.quitting && !d.appReady && Visible(d.windows, id) && id < d.nextId
    ensures var d' := Step(env, d, AppReady(launchedHidden, trayOk));
            d'.quitting && Visible(d'.windows, id) && id < d'.nextId
  {
    hide Visible;
    var synced := SyncTray(env, d.(appReady := true), trayOk);
    CreateKeepsVisible(synced, launchedHidden && CanStartHidden(env, synced), id);
  }

  lemma {:induction false} QuittingChange(env: Env, d: Desk, e: Event, id: nat)
    requires d.quitting && Enabled(d, e) && Visible(d.windows, id) && id < d.nextId
    requires e.ReadyToShow? || e.Show? || e.Minimize? || e.SecondInstance?
    ensures var d' := Step(env, d, e); d'.quitting && Visible(d'.windows, id) && id < d'.nextId
  {
    hide Visible;
    match e
    case ReadyToShow(w) =>
      ChangeKeepsVisible(d.windows, w, (w: Window) =>
        if w.ready then w
        else if w.startHidden && !w.restored then w.(ready := true)
        else w.(ready := true, visible := true), id);
    case Show(w) => ChangeKeepsVisible(d.windows, w, (w: Window) => w.(minimized := false, visible := true), id);
    case Minimize(w) => ChangeKeepsVisible(d.windows, w, (w: Window) => w.(minimized := true), id);
    case SecondInstance(background) =>
      CreateKeepsVisible(d, false, id);
      if d.windows != [] { ChangeKeepsVisible(d.windows, d.windows[RestoreTarget(d.windows)].id, Revealed, id); }
  }

  lemma {:induction false} QuittingClose(env: Env, d: Desk, closed: nat, terminalsRunning: bool, id: nat)
    requires d.quitting && Open(d, closed) && Visible(d.windows, id) && id < d.nextId
    ensures var d' := Step(env, d, Close(closed, terminalsRunning));
            d'.quitting && Visible(d'.windows, id) && id < d'.nextId
  {
    hide Visible;
    RemoveKeepsVisible(d.windows, closed, id);
  }

  /** Once quitting, no event hides a window that can be seen. */
  lemma {:induction false} QuittingHidesNothing(env: Env, d: Desk, e: Event, id: nat)
    requires d.quitting && Enabled(d, e) && Visible(d.windows, id) && id < d.nextId
    ensures var d' := Step(env, d, e); d'.quitting && Visible(d'.windows, id) && id < d'.nextId
  {
    hide Visible;
    match e
    case Close(closed, terminalsRunning) => { hide Step; QuittingClose(env, d, closed, terminalsRunning, id); }
    case CloseConfirmed(closed) => RemoveKeepsVisible(d.windows, closed, id);
    case SetKeepInBackground(_, _) => RevealAllVisible(d.windows, id);
    case NewWindow => CreateKeepsVisible(d, false, id);
    case AppReady(launchedHidden, trayOk) => { hide Step; QuittingAppReady(env, d, launchedHidden, trayOk, id); }
    case Quit =>
    case _ => { hide Step, Enabled; QuittingChange(env, d, e, id); }
  }

  lemma {:induction false} CreateKeepsVisible(d: Desk, hidden: bool, id: nat)
    requires Visible(d.windows, id) && id < d.nextId
    ensures Visible(Create(d, hidden).windows, id)
  {
  }

  lemma {:induction false} RevealAllVisible(ws: seq<Window>, id: nat)
    ensures Visible(RevealAll(ws), id)
  {
  }

  lemma {:induction false} RemoveKeepsVisible(ws: seq<Window>, closed: nat, id: nat)
    requires Visible(ws, id)
    ensures Visible(Remove(ws, closed), id)
  {
    var r := Remove(ws, closed);
    forall i | 0 <= i < |r| && r[i].id == id ensures r[i].visible {
      assert r[i] in r;
      var k :| 0 <= k < |ws| && ws[k] == r[i];
    }
  }

  /** Once quitting, no later event, however many, hides a window that can be seen. */
  lemma {:induction false} NoHidingAfterQuit(env: Env, d: Desk, events: seq<Event>, id: nat)
    requires d.quitting && Visible(d.windows, id) && id < d.nextId && Legal(env, d, events)
    ensures Run(env, d, events).quitting && Visible(Run(env, d, events).windows, id)
    decreases |events|
  {
    hide Step, Visible, Enabled;
    if events != [] {
      QuittingHidesNothing(env, d, events[0], id);
      NoHidingAfterQuit(env, Step(env, d, events[0]), events[1..], id);
    }
  }

  /** Restoring from the tray or by a second launch always ends with a window shown or on its way. */
  lemma {:induction false} SecondInstanceShows(env: Env, d: Desk)
    ensures var d' := Step(env, d, SecondInstance(false));
            exists i | 0 <= i < |d'.windows| ::
              (d'.windows[i].visible && !d'.windows[i].minimized) || (!d'.windows[i].ready && !d'.windows[i].startHidden)
  {
    var d' := Step(env, d, SecondInstance(false));
    if env.platform != Win32 || d.windows == [] {
      assert d'.windows[|d.windows|] == Window(d.nextId, false, false, false, false, false);
    } else {
      assert d'.windows[RestoreTarget(d.windows)].visible;
    }
  }

  // ---------------------------------------------------------------- the controller

  /** The controller's three fields and, after them, the tray and the windows its adapters act on. */
  class WindowsLifetimeController {
    const env: Env
    var keepInBackground: bool
    var trayActive: bool
    var quitting: bool
    var tray: bool
    var appReady: bool
    var windows: seq<Window>
    var nextId: nat

    ghost function View(): Desk
      reads this
    {
      Desk(keepInBackground, trayActive, quitting, tray, appReady, windows, nextId)
    }

    constructor (env: Env, savedPreference: bool)
      ensures this.env == env && View() == Boot(savedPreference)
    {
      this.env := env;
      keepInBackground, trayActive, quitting := savedPreference, false, false;
      tray, appReady, windows, nextId := false, false, [], 0;
    }

    method SyncTrayNow(trayOk: bool)
      modifies this`trayActive, this`tray
      ensures View() == SyncTray(env, old(View()), trayOk)
    {
      if Supported(env) && keepInBackground {
        if !tray { tray := trayOk; }
        trayActive := tray;
        return;
      }
      if trayActive { tray := false; }
      trayActive := false;
    }

    method CreateWindow(hidden: bool)
      modifies this`windows, this`nextId
      ensures View() == Create(old(View()), hidden)
    {
      windows := windows + [Window(nextId, false, false, hidden, false, false)];
      nextId := nextId + 1;
    }

    method OnAppReady(launchedHidden: bool, trayOk: bool)
      requires Enabled(View(), AppReady(launchedHidden, trayOk))
      modifies this
      ensures View() == Step(env, old(View()), AppReady(launchedHidden, trayOk))
    {
      appReady := true;
      SyncTrayNow(trayOk);
      var startHidden := launchedHidden && CanStartHidden(env, Desk(keepInBackground, trayActive, quitting, tray, appReady, windows, nextId));
      CreateWindow(startHidden);
    }

    method RecoverVisibleWindows()
      modifies this`windows
      ensures windows == RevealAll(old(windows))
    {
      for i := 0 to |windows|
        invariant |windows| == |old(windows)|
        invariant forall k | 0 <= k < i :: windows[k] == Revealed(old(windows)[k])
        invariant forall k | i <= k < |windows| :: windows[k] == old(windows)[k]
      {
        windows := windows[i := Revealed(windows[i])];
      }
    }

    /** The settings handler; `thrown` is the exception that skips the reveal. */
    method SetKeepInBackgroundFrom(enabled: bool, a: Answers) returns (thrown: bool)
      requires Enabled(View(), SetKeepInBackground(enabled, a))
      modifies this
      ensures View() == Step(env, old(View()), SetKeepInBackground(enabled, a))
      ensures thrown == Throws(env, a)
    {
      if !Supported(env) { return true; }
      keepInBackground := enabled;
      if a.writeFails { return true; }
      SyncTrayNow(a.trayOk);
      if LoginItemThrows(a) { return true; }
      if !(keepInBackground && trayActive) { RecoverVisibleWindows(); }
      return false;
    }

    method CloseWindow(id: nat, terminalsRunning: bool)
      requires Enabled(View(), Close(id, terminalsRunning))
      modifies this
      ensures View() == Step(env, old(View()), Close(id, terminalsRunning))
    {
      if quitting {
        if env.platform != Win32 && terminalsRunning { return; }
      } else if !(Supported(env) && keepInBackground && trayActive) || exists i | 0 <= i < |windows| :: windows[i].id != id {
        if terminalsRunning { return; }
      } else {
        windows := Change(windows, id, (w: Window) => w.(visible := false));
        return;
      }
      DestroyWindow(id);
    }

    method DestroyWindow(id: nat)
      modifies this`windows, this`quitting, this`tray
      ensures View() == Destroy(env, old(View()), id)
    {
      windows := Remove(windows, id);
      if windows == [] && env.platform != Darwin && (quitting || !(Supported(env) && keepInBackground && trayActive)) {
        quitting, tray := true, false;
      }
    }
  }
}
