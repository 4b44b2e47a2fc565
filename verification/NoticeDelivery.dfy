/**
 How a scheduled-run notice is shown and acknowledged, and the exchange with a backend that
 replays unacknowledged notices while acknowledgements may be lost or late.
 */
module NoticeDelivery {
  import opened Options

  datatype Phase = Started | Finished | Attention

  datatype Notice = Notice(
    phase: Phase,
    runId: string,
    jobName: string,
    status: string,
    summary: Option<string>,
    error: Option<string>,
    notify: bool,
    needsInput: bool)

  datatype Content = Content(title: string, subtitle: string, body: string)

  /** JavaScript's `text || fallback`. */
  function OrElse(text: Option<string>, fallback: string): string {
    if text.Some? && text.value != "" then text.value else fallback
  }

  function DescribeNotice(n: Notice): Option<Content> {
    if n.phase == Attention then
      Some(Content(n.jobName, if n.needsInput then "Needs your input" else "Needs your approval",
                   "The scheduled run is waiting. Open it in Michi to continue."))
    else if n.phase != Finished || !n.notify then None
    else if n.status == "succeeded" then
      Some(Content(n.jobName, "Scheduled job finished", OrElse(n.summary, "Open Michi to see the result.")))
    else if n.status == "failed" || n.status == "timed_out" then
      Some(Content(n.jobName, "Scheduled job failed", OrElse(n.error, "Open Michi for details.")))
    else None
  }

  datatype Plan = Skip(ack: bool) | Toast(content: Content) | Banner(content: Content) | Defer

  datatype Desktop = Desktop(focusedWindow: bool, osNotifications: bool, backendPort: bool)

  function PlanDelivery(n: Notice, d: Desktop): Plan {
    if n.phase == Started then Skip(false)
    else
      var content := DescribeNotice(n);
      if content.None? then Skip(true)
      else if d.focusedWindow then Toast(content.value)
      else if d.osNotifications then Banner(content.value)
      else Defer
  }

  predicate Acknowledges(p: Plan) {
    match p
    case Skip(ack) => ack
    case Toast(_) => true
    case Banner(_) => true
    case Defer => false
  }

  /** What the user can see: a toast needs a focused window, a banner the system's notifications. */
  predicate Shows(p: Plan, d: Desktop) {
    (p.Toast? && d.focusedWindow) || (p.Banner? && d.osNotifications)
  }

  /** A notice with content is toasted in a focused window, else a banner where there are any, else deferred. */
  lemma {:induction false} DeliveryCases(n: Notice, d: Desktop)
    requires n.phase != Started && DescribeNotice(n).Some?
    ensures PlanDelivery(n, d) == Toast(DescribeNotice(n).value) <==> d.focusedWindow
    ensures PlanDelivery(n, d) == Banner(DescribeNotice(n).value) <==> !d.focusedWindow && d.osNotifications
    ensures PlanDelivery(n, d) == Defer <==> !d.focusedWindow && !d.osNotifications
  {
    hide DescribeNotice;
  }

  /** Only a finished or a waiting run has something to show, under the job's name; a result or an error is told if there is one. */
  lemma {:induction false} NoticeTells(n: Notice)
    ensures DescribeNotice(n).Some? <==>
            n.phase == Attention
            || (n.phase == Finished && n.notify
                && (n.status == "succeeded" || n.status == "failed" || n.status == "timed_out"))
    ensures DescribeNotice(n).Some? ==> DescribeNotice(n).value.title == n.jobName
    ensures DescribeNotice(n).Some? && n.phase == Finished ==>
              var told := if n.status == "succeeded" then n.summary else n.error;
              told.Some? && told.value != "" ==> DescribeNotice(n).value.body == told.value
  {
  }

  /** The subtitle says which of the four things happened. */
  lemma {:induction false} SubtitleTells(n: Notice)
    requires DescribeNotice(n).Some?
    ensures DescribeNotice(n).value.subtitle
         == if n.phase == Attention then (if n.needsInput then "Needs your input" else "Needs your approval")
            else if n.status == "succeeded" then "Scheduled job finished" else "Scheduled job failed"
  {
  }

  /** A waiting run, and a finished one with nothing to tell, say what to do. */
  lemma {:induction false} BodyTells(n: Notice)
    requires DescribeNotice(n).Some?
    ensures n.phase == Attention ==>
              DescribeNotice(n).value.body == "The scheduled run is waiting. Open it in Michi to continue."
    ensures n.phase == Finished && n.status == "succeeded" && (n.summary.None? || n.summary.value == "") ==>
              DescribeNotice(n).value.body == "Open Michi to see the result."
    ensures n.phase == Finished && n.status != "succeeded" && (n.error.None? || n.error.value == "") ==>
              DescribeNotice(n).value.body == "Open Michi for details."
  {
  }

  // ---------------------------------------------------------------- the exchange

  /**
   `log` holds every notice published, its position being its identity. The backend keeps at most
   one unacknowledged notice per run in `outstanding`. `stream` holds the frames written to the
   feed's connection and not yet read, `acks` the acknowledgements under way on connections of
   their own, which name only the run. `withdrawn` are notices the backend took back.
   */
  datatype World = World(
    log: seq<Notice>,
    outstanding: map<string, nat>,
    stream: seq<Frame>,
    acks: multiset<string>,
    shown: set<nat>,
    acknowledged: set<nat>,
    withdrawn: set<nat>)

  /** What is written for notice `id`: the notice as the job's settings make it at that moment. */
  datatype Frame = Frame(id: nat, notice: Notice)

  const INITIAL := World([], map[], [], multiset{}, {}, {}, {})

  /**
   `kept` says that the backend keeps the notice until acknowledged, `live` that a feed is connected.
   A replay writes an outstanding notice again, rebuilt from the job, which may have been edited; a
   disconnect loses what was not read.
   */
  datatype Event =
    | Publish(notice: Notice, kept: bool, live: bool)
    | Replay(runId: string, rebuilt: Notice)
    | Read(desktop: Desktop)
    | Disconnect
    | AckArrives(runId: string)
    | AckLost(runId: string)
    | Withdraw(runId: string)

  predicate Enabled(w: World, e: Event) {
    match e
    case Publish(n, kept, _) => (DescribeNotice(n).Some? ==> kept) && (n.phase == Started ==> !kept)
    case Replay(r, n) => r in w.outstanding && Fits(w, Frame(w.outstanding[r], n))
    case Read(_) => w.stream != []
    case Disconnect => true
    case AckArrives(r) => r in w.acks
    case AckLost(r) => r in w.acks
    case Withdraw(r) => r in w.outstanding
  }

  /** The frame's notice has the run and the phase of the notice published. */
  predicate Fits(w: World, f: Frame) {
    f.id < |w.log| && f.notice.runId == w.log[f.id].runId && f.notice.phase == w.log[f.id].phase
  }

  /** `handleScheduledNotice` on a notice whose identity is `id`. */
  function Handle(w: World, n: Notice, id: nat, d: Desktop): World {
    var plan := PlanDelivery(n, d);
    w.(shown := if Shows(plan, d) then w.shown + {id} else w.shown,
       acks := if Acknowledges(plan) && d.backendPort then w.acks + multiset{n.runId} else w.acks)
  }

  function Step(w: World, e: Event): World
    requires Enabled(w, e)
  {
    match e
    case Publish(n, kept, live) =>
      var id := |w.log|;
      w.(log := w.log + [n],
         outstanding := if kept then w.outstanding[n.runId := id]
                        else if n.phase == Started then w.outstanding
                        else w.outstanding - {n.runId},
         stream := if live then w.stream + [Frame(id, n)] else w.stream)
    case Replay(r, n) => w.(stream := w.stream + [Frame(w.outstanding[r], n)])
    case Read(d) => Handle(w.(stream := w.stream[1..]), w.stream[0].notice, w.stream[0].id, d)
    case Disconnect => w.(stream := [])
    case AckArrives(r) =>
      w.(acks := w.acks - multiset{r}, outstanding := w.outstanding - {r},
         acknowledged := if r in w.outstanding then w.acknowledged + {w.outstanding[r]} else w.acknowledged)
    case AckLost(r) => w.(acks := w.acks - multiset{r})
    case Withdraw(r) => w.(outstanding := w.outstanding - {r}, withdrawn := w.withdrawn + {w.outstanding[r]})
  }

  ghost predicate Displayable(w: World, id: nat) {
    id < |w.log| && DescribeNotice(w.log[id]).Some?
  }

  /** Nothing is acknowledged that still has something to show. */
  ghost predicate Good(w: World) {
    forall id | id in w.acknowledged :: id in w.shown || !Displayable(w, id)
  }

  /** Reading a frame of this notice can send an acknowledgement for run `r`. */
  ghost predicate Answers(w: World, id: nat, r: string) {
    id < |w.log| && w.log[id].runId == r && w.log[id].phase != Started
  }

  /** Reading the frame can acknowledge run `r` without showing notice `id`: it is another's, or has nothing to show. */
  ghost predicate Endangers(w: World, f: Frame, r: string, id: nat) {
    Answers(w, f.id, r) && (f.id != id || DescribeNotice(f.notice).None?)
  }

  /** An acknowledgement of run `r` is under way, or can come from a frame that does not show notice `id`. */
  ghost predicate Threatened(w: World, r: string, id: nat) {
    r in w.acks || exists i | 0 <= i < |w.stream| :: Endangers(w, w.stream[i], r, id)
  }

  /** Nothing under way can acknowledge a notice that is still to be shown. */
  ghost predicate NoThreat(w: World) {
    forall r | r in w.outstanding && Threatened(w, r, w.outstanding[r]) ::
      w.outstanding[r] in w.shown || !Displayable(w, w.outstanding[r])
  }

  ghost predicate FramesFit(w: World) {
    forall i | 0 <= i < |w.stream| :: Fits(w, w.stream[i])
  }

  ghost predicate Wellformed(w: World) {
    && (forall r | r in w.outstanding :: Answers(w, w.outstanding[r], r))
    && FramesFit(w)
    && (forall id | id in w.acknowledged :: id < |w.log|)
    && (forall id | id in w.shown :: id < |w.log|)
  }

  /** A later notice of the same run has taken this one's place. */
  ghost predicate Superseded(w: World, id: nat)
    requires id < |w.log|
  {
    exists later: nat :: id < later && Answers(w, later, w.log[id].runId)
  }

  /** Every notice with something to show was shown, is still outstanding, or was replaced or taken back. */
  ghost predicate NothingLost(w: World) {
    forall id: nat | Displayable(w, id) ::
      || id in w.shown || id in w.withdrawn || Superseded(w, id)
      || (w.log[id].runId in w.outstanding && w.outstanding[w.log[id].runId] == id)
  }

  /**
   The discipline the backend would have to keep: a new notice to show only when no acknowledgement
   and no older frame of its run is under way, and a notice still to be shown never replayed as one
   with nothing to show.
   */
  ghost predicate Disciplined(w: World, e: Event) {
    && (e.Publish? && DescribeNotice(e.notice).Some? ==> !Threatened(w, e.notice.runId, |w.log|))
    && (e.Replay? && e.runId in w.outstanding && StillToShow(w, w.outstanding[e.runId]) ==>
          DescribeNotice(e.rebuilt).Some?)
  }

  ghost predicate StillToShow(w: World, id: nat) {
    id !in w.shown && Displayable(w, id)
  }

  ghost predicate Legal(w: World, events: seq<Event>)
    decreases |events|
  {
    events != [] ==>
      Enabled(w, events[0]) && Disciplined(w, events[0]) && Legal(Step(w, events[0]), events[1..])
  }

  ghost function Run(w: World, events: seq<Event>): World
    requires Legal(w, events)
    decreases |events|
  {
    if events == [] then w else Run(Step(w, events[0]), events[1..])
  }

  ghost predicate Inv(w: World) {
    Wellformed(w) && Good(w) && NoThreat(w)
  }

  /** Handling acknowledges only what it shows or what has nothing to show; a deferred notice is left alone. */
  lemma {:induction false} HandleAcksOnlyShown(w: World, n: Notice, id: nat, d: Desktop)
    ensures var w' := Handle(w, n, id, d);
            && w' == w.(shown := w'.shown, acks := w'.acks)
            && (w'.shown == w.shown || w'.shown == w.shown + {id})
            && (w'.acks == w.acks
                || (&& w'.acks == w.acks + multiset{n.runId} && n.phase != Started
                    && (DescribeNotice(n).None? || id in w'.shown)))
    ensures PlanDelivery(n, d).Defer? || n.phase == Started ==> Handle(w, n, id, d) == w
  {
    hide DescribeNotice;
  }

  lemma {:induction false} PublishKeepsInv(w: World, e: Event)
    requires e.Publish? && Inv(w) && Enabled(w, e) && Disciplined(w, e)
    ensures Inv(Step(w, e))
  {
    hide DescribeNotice;
    var w' := Step(w, e);
    assert forall id: nat | id < |w.log| :: w'.log[id] == w.log[id];
    assert w'.log[|w.log|] == e.notice;
    PublishThreatens(w, e);
    forall r | r in w'.outstanding && Threatened(w', r, w'.outstanding[r])
      ensures w'.outstanding[r] in w'.shown || !Displayable(w', w'.outstanding[r])
    {
      if r != e.notice.runId || !e.kept { assert w'.outstanding[r] == w.outstanding[r]; }
    }
  }

  /** The one frame a publish can add is the new notice's own or one that nobody answers. */
  lemma {:induction false} PublishThreatens(w: World, e: Event)
    requires e.Publish? && Wellformed(w) && Enabled(w, e)
    ensures var w' := Step(w, e);
            forall r | && r in w'.outstanding && Threatened(w', r, w'.outstanding[r])
                       && Displayable(w', w'.outstanding[r]) ::
              Threatened(w, r, w'.outstanding[r])
  {
    hide DescribeNotice;
    var w' := Step(w, e);
    assert w'.log[|w.log|] == e.notice;
    forall r | && r in w'.outstanding && Threatened(w', r, w'.outstanding[r])
               && Displayable(w', w'.outstanding[r])
      ensures Threatened(w, r, w'.outstanding[r])
    {
      if r !in w'.acks {
        var i :| 0 <= i < |w'.stream| && Endangers(w', w'.stream[i], r, w'.outstanding[r]);
        assert i < |w.stream|;
        assert w'.stream[i] == w.stream[i];
        assert Endangers(w, w.stream[i], r, w'.outstanding[r]);
      }
    }
  }

  lemma {:induction false} ReadKeepsInv(w: World, d: Desktop)
    requires Inv(w) && Enabled(w, Read(d))
    ensures Inv(Step(w, Read(d)))
  {
    hide DescribeNotice, PlanDelivery, Handle;
    HandleAcksOnlyShown(w.(stream := w.stream[1..]), w.stream[0].notice, w.stream[0].id, d);
    var w' := Step(w, Read(d));
    forall r | r in w'.outstanding && Threatened(w', r, w'.outstanding[r])
      ensures w'.outstanding[r] in w'.shown || !Displayable(w', w'.outstanding[r])
    {
      ReadThreatens(w, d, r);
    }
  }

  /** What a frame's reading threatens was threatened by the frame, unless it is the notice's own. */
  lemma {:induction false} ReadThreatens(w: World, d: Desktop, r: string)
    requires Wellformed(w) && Enabled(w, Read(d)) && r in w.outstanding
    requires Threatened(Step(w, Read(d)), r, w.outstanding[r])
    ensures var w' := Step(w, Read(d));
            Threatened(w, r, w.outstanding[r]) || w.outstanding[r] in w'.shown || !Displayable(w, w.outstanding[r])
  {
    hide DescribeNotice, PlanDelivery, Handle;
    HandleAcksOnlyShown(w.(stream := w.stream[1..]), w.stream[0].notice, w.stream[0].id, d);
    var w' := Step(w, Read(d));
    if r in w'.acks {
      if r !in w.acks {
        assert Fits(w, w.stream[0]) && Answers(w, w.stream[0].id, r);
        if w.outstanding[r] !in w'.shown { assert Endangers(w, w.stream[0], r, w.outstanding[r]); }
      }
    } else {
      var i :| 0 <= i < |w'.stream| && Endangers(w', w'.stream[i], r, w.outstanding[r]);
      assert w'.stream[i] == w.stream[i + 1];
      assert Endangers(w, w.stream[i + 1], r, w.outstanding[r]);
    }
  }

  /** Where nothing new is under way, nothing new threatens. */
  lemma {:induction false} LessUnderWay(w: World, w': World)
    requires NoThreat(w) && w'.log == w.log && w'.shown == w.shown && w'.acks <= w.acks
    requires forall r | r in w'.outstanding :: r in w.outstanding && w'.outstanding[r] == w.outstanding[r]
    requires w'.stream <= w.stream
    ensures NoThreat(w')
  {
    hide DescribeNotice;
    forall r | r in w'.outstanding && Threatened(w', r, w'.outstanding[r])
      ensures Threatened(w, r, w.outstanding[r])
    {
      if r !in w'.acks {
        var i :| 0 <= i < |w'.stream| && Endangers(w', w'.stream[i], r, w'.outstanding[r]);
        assert Endangers(w, w.stream[i], r, w.outstanding[r]);
      }
    }
  }

  /** A replay with something to show is only the notice's own frame again. */
  lemma {:induction false} ReplayKeepsInv(w: World, e: Event)
    requires e.Replay? && Inv(w) && Enabled(w, e) && Disciplined(w, e)
    ensures Inv(Step(w, e))
  {
    hide DescribeNotice;
    var w' := Step(w, e);
    forall r | r in w'.outstanding && Threatened(w', r, w'.outstanding[r])
      ensures w'.outstanding[r] in w'.shown || !Displayable(w', w'.outstanding[r])
    {
      ReplayThreatens(w, e, r);
    }
  }

  lemma {:induction false} ReplayThreatens(w: World, e: Event, r: string)
    requires e.Replay? && Wellformed(w) && Enabled(w, e) && Disciplined(w, e) && r in w.outstanding
    requires Threatened(Step(w, e), r, w.outstanding[r])
    ensures Threatened(w, r, w.outstanding[r]) || !StillToShow(w, w.outstanding[r])
  {
    hide DescribeNotice;
    var w' := Step(w, e);
    if r !in w.acks && StillToShow(w, w.outstanding[r]) {
      var i :| 0 <= i < |w'.stream| && Endangers(w', w'.stream[i], r, w.outstanding[r]);
      assert i < |w.stream|;
      assert Endangers(w, w.stream[i], r, w.outstanding[r]);
    }
  }

  /** Events that only take away what is under way. */
  lemma {:induction false} OtherStepsKeepInv(w: World, e: Event)
    requires !e.Publish? && !e.Read? && !e.Replay? && Inv(w) && Enabled(w, e)
    ensures Inv(Step(w, e))
  {
    hide DescribeNotice, NoThreat;
    LessUnderWay(w, Step(w, e));
    if e.AckArrives? && e.runId in w.outstanding { AckIsOfShown(w, e.runId); }
  }

  lemma {:induction false} AckIsOfShown(w: World, r: string)
    requires NoThreat(w) && r in w.acks && r in w.outstanding
    ensures w.outstanding[r] in w.shown || !Displayable(w, w.outstanding[r])
  {
    assert Threatened(w, r, w.outstanding[r]);
  }

  lemma {:induction false} StepKeepsInv(w: World, e: Event)
    requires Inv(w) && Enabled(w, e) && Disciplined(w, e)
    ensures Inv(Step(w, e))
  {
    hide Inv, Disciplined;
    match e
    case Publish(_, _, _) => PublishKeepsInv(w, e);
    case Read(d) => ReadKeepsInv(w, d);
    case Replay(_, _) => ReplayKeepsInv(w, e);
    case _ => OtherStepsKeepInv(w, e);
  }

  lemma {:induction false} PublishLosesNothing(w: World, e: Event)
    requires e.Publish? && Wellformed(w) && NothingLost(w) && Enabled(w, e)
    ensures NothingLost(Step(w, e))
  {
    hide DescribeNotice;
    var w', n := Step(w, e), |w.log|;
    assert w'.log[n] == e.notice;
    forall id: nat | Displayable(w', id)
      ensures || id in w'.shown || id in w'.withdrawn || Superseded(w', id)
              || (w'.log[id].runId in w'.outstanding && w'.outstanding[w'.log[id].runId] == id)
    {
      if id < n {
        assert w'.log[id] == w.log[id];
        if Superseded(w, id) {
          var later: nat :| id < later && Answers(w, later, w.log[id].runId);
          assert Answers(w', later, w'.log[id].runId);
        } else if Answers(w', n, w'.log[id].runId) {
          assert Superseded(w', id);
        }
      }
    }
  }

  lemma {:induction false} StepLosesNothing(w: World, e: Event)
    requires Inv(w) && NothingLost(w) && Enabled(w, e)
    ensures NothingLost(Step(w, e))
  {
    hide DescribeNotice, PlanDelivery, Handle;
    var w' := Step(w, e);
    if e.Publish? {
      PublishLosesNothing(w, e);
    } else {
      if e.Read? {
        HandleAcksOnlyShown(w.(stream := w.stream[1..]), w.stream[0].notice, w.stream[0].id, e.desktop);
      }
      forall id: nat | Displayable(w', id) && Superseded(w, id) ensures Superseded(w', id) {
        var later: nat :| id < later && Answers(w, later, w.log[id].runId);
        assert Answers(w', later, w'.log[id].runId);
      }
      if e.AckArrives? && e.runId in w.outstanding {
        assert Threatened(w, e.runId, w.outstanding[e.runId]);
      }
    }
  }

  lemma {:induction false} RunIsGood(w: World, events: seq<Event>)
    requires Inv(w) && NothingLost(w) && Legal(w, events)
    ensures Inv(Run(w, events)) && NothingLost(Run(w, events))
    decreases |events|
  {
    if events != [] {
      StepKeepsInv(w, events[0]);
      StepLosesNothing(w, events[0]);
      hide Inv, NothingLost, Step, Enabled, Disciplined;
      RunIsGood(Step(w, events[0]), events[1..]);
    }
  }

  /**
   On every disciplined run every acknowledged notice was shown or had nothing to show, and no
   notice is lost unshown.
   */
  lemma {:induction false} EveryRunIsGood(events: seq<Event>)
    requires Legal(INITIAL, events)
    ensures Good(Run(INITIAL, events)) && NothingLost(Run(INITIAL, events))
  {
    RunIsGood(INITIAL, events);
  }

  // ---------------------------------------------------------------- exactly when

  ghost predicate GoodForever(w: World) {
    forall events | Legal(w, events) :: Good(Run(w, events))
  }

  lemma {:induction false} GoodRun(w: World, events: seq<Event>)
    requires Inv(w) && Legal(w, events)
    ensures Good(Run(w, events))
    decreases |events|
  {
    if events != [] {
      StepKeepsInv(w, events[0]);
      GoodRun(Step(w, events[0]), events[1..]);
    }
  }

  lemma {:induction false} BadNext(w: World, e: Event)
    requires Enabled(w, e) && !e.Publish? && !e.Replay? && !GoodForever(Step(w, e))
    ensures !GoodForever(w)
  {
    hide Step, Enabled, Good;
    var events :| Legal(Step(w, e), events) && !Good(Run(Step(w, e), events));
    assert ([e] + events)[1..] == events;
    assert Legal(w, [e] + events) && Run(w, [e] + events) == Run(Step(w, e), events);
  }

  /** An acknowledgement that reaches a notice still to be shown ends in a bad state. */
  lemma {:induction false} AckHits(w: World, r: string)
    requires r in w.acks && r in w.outstanding
    requires w.outstanding[r] !in w.shown && Displayable(w, w.outstanding[r])
    ensures !GoodForever(w)
  {
    hide DescribeNotice;
    var w' := Step(w, AckArrives(r));
    assert w.outstanding[r] in w'.acknowledged && Displayable(w', w.outstanding[r]);
    assert Legal(w', []) && Run(w', []) == w';
    BadNext(w, AckArrives(r));
  }

  /** A frame ahead of the others is acknowledged; one in the way is deferred without a word. */
  lemma {:induction false} FrameHits(w: World, r: string, i: nat)
    requires i < |w.stream| && Fits(w, w.stream[i])
    requires r in w.outstanding && Endangers(w, w.stream[i], r, w.outstanding[r])
    requires StillToShow(w, w.outstanding[r])
    ensures !GoodForever(w)
    decreases i
  {
    hide DescribeNotice, PlanDelivery, Handle, GoodForever;
    var popped, n := w.(stream := w.stream[1..]), w.stream[0].notice;
    var d := Desktop(i == 0, false, i == 0);
    var w' := Step(w, Read(d));
    if i == 0 {
      FocusedAcks(popped, n, w.stream[0].id, d);
      AckHits(w', r);
    } else {
      UnseenIsSilent(popped, n, w.stream[0].id, d);
      assert w'.stream[i - 1] == w.stream[i];
      FrameHits(w', r, i - 1);
    }
    BadNext(w, Read(d));
  }

  lemma {:induction false} UnseenIsSilent(w: World, n: Notice, id: nat, d: Desktop)
    requires d == Desktop(false, false, false)
    ensures Handle(w, n, id, d) == w
  {
    hide DescribeNotice;
  }

  lemma {:induction false} FocusedAcks(w: World, n: Notice, id: nat, d: Desktop)
    requires n.phase != Started && d.focusedWindow && d.backendPort
    ensures var w' := Handle(w, n, id, d);
            && w' == w.(shown := w'.shown, acks := w.acks + multiset{n.runId})
            && w'.shown == if DescribeNotice(n).Some? then w.shown + {id} else w.shown
  {
    hide DescribeNotice;
  }

  /** A state stays good on every continuation exactly when nothing under way threatens a notice to show. */
  lemma {:induction false} GoodForeverIff(w: World)
    requires Wellformed(w) && Good(w)
    ensures GoodForever(w) <==> NoThreat(w)
  {
    hide DescribeNotice, Handle;
    if NoThreat(w) {
      forall events | Legal(w, events) ensures Good(Run(w, events)) {
        GoodRun(w, events);
      }
    } else {
      var r :| && r in w.outstanding && Threatened(w, r, w.outstanding[r])
               && w.outstanding[r] !in w.shown && Displayable(w, w.outstanding[r]);
      if r in w.acks {
        AckHits(w, r);
      } else {
        var i :| 0 <= i < |w.stream| && Endangers(w, w.stream[i], r, w.outstanding[r]);
        FrameHits(w, r, i);
      }
    }
  }

  /** So publishing is safe exactly when no acknowledgement and no older frame of the run is under way. */
  lemma {:induction false} PublishSafeIff(w: World, n: Notice, kept: bool, live: bool)
    requires Inv(w) && Enabled(w, Publish(n, kept, live))
    ensures GoodForever(Step(w, Publish(n, kept, live))) <==> Disciplined(w, Publish(n, kept, live))
  {
    hide DescribeNotice;
    var e := Publish(n, kept, live);
    var w' := Step(w, e);
    if Disciplined(w, e) {
      StepKeepsInv(w, e);
      GoodForeverIff(w');
    } else {
      assert forall id: nat | id < |w.log| :: w'.log[id] == w.log[id];
      assert Displayable(w', |w.log|) && w'.outstanding[n.runId] == |w.log|;
      if n.runId in w.acks {
        AckHits(w', n.runId);
      } else {
        var i :| 0 <= i < |w.stream| && Endangers(w, w.stream[i], n.runId, |w.log|);
        assert w'.stream[i] == w.stream[i];
        FrameHits(w', n.runId, i);
      }
    }
  }

  /** And a replay is safe exactly when a notice still to be shown still has something to show. */
  lemma {:induction false} ReplaySafeIff(w: World, r: string, n: Notice)
    requires Inv(w) && Enabled(w, Replay(r, n))
    ensures GoodForever(Step(w, Replay(r, n))) <==> Disciplined(w, Replay(r, n))
  {
    hide DescribeNotice;
    var e := Replay(r, n);
    var w' := Step(w, e);
    if Disciplined(w, e) {
      StepKeepsInv(w, e);
      GoodForeverIff(w');
    } else {
      assert w'.stream[|w.stream|] == Frame(w.outstanding[r], n);
      FrameHits(w', r, |w.stream|);
    }
  }

  // ---------------------------------------------------------------- one notice per run

  /** Acknowledgements and frames are of published notices. */
  ghost predicate AcksAnswer(w: World) {
    FramesFit(w) && forall r | r in w.acks :: exists id: nat :: Answers(w, id, r)
  }

  /** The run has had no notice before. */
  ghost predicate FirstOfRun(w: World, r: string) {
    forall id: nat :: !Answers(w, id, r)
  }

  ghost predicate FirstsOnly(w: World, events: seq<Event>)
    decreases |events|
  {
    events != [] ==>
      && Enabled(w, events[0])
      && (events[0].Publish? && DescribeNotice(events[0].notice).Some? ==> FirstOfRun(w, events[0].notice.runId))
      && (events[0].Replay? ==> Disciplined(w, events[0]))
      && FirstsOnly(Step(w, events[0]), events[1..])
  }

  lemma {:induction false} StepKeepsFrames(w: World, e: Event)
    requires FramesFit(w) && Enabled(w, e)
    ensures FramesFit(Step(w, e))
  {
    hide DescribeNotice, PlanDelivery, Handle;
    if e.Read? {
      HandleAcksOnlyShown(w.(stream := w.stream[1..]), w.stream[0].notice, w.stream[0].id, e.desktop);
    }
  }

  lemma {:induction false} StepKeepsAcksAnswer(w: World, e: Event)
    requires AcksAnswer(w) && Enabled(w, e)
    ensures AcksAnswer(Step(w, e))
  {
    StepKeepsFrames(w, e);
    hide DescribeNotice, PlanDelivery, Handle;
    var w' := Step(w, e);
    assert e.Read? ==> Fits(w, w.stream[0]);
    hide FramesFit;
    if e.Read? {
      HandleAcksOnlyShown(w.(stream := w.stream[1..]), w.stream[0].notice, w.stream[0].id, e.desktop);
    }
    forall r | r in w'.acks ensures exists id: nat :: Answers(w', id, r) {
      if r in w.acks {
        var id: nat :| Answers(w, id, r);
        assert Answers(w', id, r);
      } else {
        assert Answers(w', w.stream[0].id, r);
      }
    }
  }

  lemma {:induction false} FirstIsDisciplined(w: World, e: Event)
    requires AcksAnswer(w) && (e.Replay? ==> Disciplined(w, e))
    requires e.Publish? && DescribeNotice(e.notice).Some? ==> FirstOfRun(w, e.notice.runId)
    ensures Disciplined(w, e)
  {
    hide DescribeNotice, Answers, FramesFit;
  }

  /** Where each run has one notice to show, its first, every run of the exchange is disciplined. */
  lemma {:induction false} FirstsAreDisciplined(w: World, events: seq<Event>)
    requires AcksAnswer(w) && FirstsOnly(w, events)
    ensures Legal(w, events)
    decreases |events|
  {
    if events != [] {
      StepKeepsAcksAnswer(w, events[0]);
      FirstIsDisciplined(w, events[0]);
      hide AcksAnswer, Step, Enabled, Disciplined;
      FirstsAreDisciplined(Step(w, events[0]), events[1..]);
    }
  }

  /** So such runs are good whatever is lost, late or doubled. */
  lemma {:induction false} OneNoticePerRunIsGood(events: seq<Event>)
    requires FirstsOnly(INITIAL, events)
    ensures Legal(INITIAL, events) && Good(Run(INITIAL, events)) && NothingLost(Run(INITIAL, events))
  {
    FirstsAreDisciplined(INITIAL, events);
    EveryRunIsGood(events);
  }

  // ---------------------------------------------------------------- three ways to lose a notice

  lemma {:induction false} AttentionIsShown(n: Notice)
    requires n.phase == Attention
    ensures DescribeNotice(n).Some?
  {
  }

  lemma {:induction false} AttentionIsToasted(w: World, n: Notice, id: nat, d: Desktop)
    requires n.phase == Attention && d.focusedWindow && d.backendPort
    ensures Handle(w, n, id, d) == w.(shown := w.shown + {id}, acks := w.acks + multiset{n.runId})
  {
    AttentionIsShown(n);
    hide DescribeNotice;
  }

  /** Read, replayed after a reconnect and, with its acknowledgement still under way, about to be read again. */
  ghost function ReadTwice(n: Notice, d: Desktop): seq<Event> {
    [Publish(n, true, true)] + [Read(d)] + [Disconnect] + [Replay(n.runId, n)]
  }

  lemma {:induction false} RunOn(w: World, events: seq<Event>, e: Event)
    requires Legal(w, events) && Enabled(Run(w, events), e) && Disciplined(Run(w, events), e)
    ensures Legal(w, events + [e]) && Run(w, events + [e]) == Step(Run(w, events), e)
    decreases |events|
  {
    hide Step, Enabled, Disciplined;
    if events == [] {
      assert [] + [e] == [e] && [e][1..] == [];
    } else {
      RunOn(Step(w, events[0]), events[1..], e);
      assert (events + [e])[1..] == events[1..] + [e];
    }
  }

  lemma {:induction false} FirstRead(n: Notice, d: Desktop)
    requires n.phase == Attention && d.focusedWindow && d.backendPort
    ensures var es := [Publish(n, true, true)] + [Read(d)];
            Legal(INITIAL, es) && Run(INITIAL, es) == World([n], map[n.runId := 0], [], multiset{n.runId}, {0}, {}, {})
  {
    var e := Publish(n, true, true);
    var w := World([n], map[n.runId := 0], [Frame(0, n)], multiset{}, {}, {}, {});
    AttentionIsToasted(w.(stream := []), n, 0, d);
    hide DescribeNotice, PlanDelivery, Handle;
    assert Legal(INITIAL, []);
    RunOn(INITIAL, [], e);
    assert [] + [e] == [e] && w.stream[1..] == [];
    assert Step(INITIAL, e) == w;
    hide Run, Legal;
    RunOn(INITIAL, [e], Read(d));
  }

  lemma {:induction false} ReplayedFrame(n: Notice, d: Desktop)
    requires n.phase == Attention && d.focusedWindow && d.backendPort
    ensures Legal(INITIAL, ReadTwice(n, d))
    ensures Run(INITIAL, ReadTwice(n, d)) == World([n], map[n.runId := 0], [Frame(0, n)], multiset{n.runId}, {0}, {}, {})
  {
    FirstRead(n, d);
    hide Run, Legal;
    var es := [Publish(n, true, true)] + [Read(d)];
    var w := World([n], map[n.runId := 0], [], multiset{n.runId}, {0}, {}, {});
    assert Step(w, Disconnect) == w && Step(w, Replay(n.runId, n)) == w.(stream := [Frame(0, n)]);
    hide Step;
    RunOn(INITIAL, es, Disconnect);
    RunOn(INITIAL, es + [Disconnect], Replay(n.runId, n));
  }

  lemma {:induction false} NextIsSwallowed(w: World, n: Notice)
    requires Inv(w) && n.phase == Attention && Threatened(w, n.runId, |w.log|)
    ensures Enabled(w, Publish(n, true, true)) && !GoodForever(Step(w, Publish(n, true, true)))
  {
    AttentionIsShown(n);
    hide DescribeNotice, GoodForever;
    PublishSafeIff(w, n, true, true);
  }

  /** One notice, shown and acknowledged, whatever of its run is still under way. */
  ghost function Acknowledged(n: Notice, stream: seq<Frame>, acks: multiset<string>): World {
    World([n], map[], stream, acks, {0}, {0}, {})
  }

  lemma {:induction false} AcknowledgedIsGood(n: Notice, stream: seq<Frame>, acks: multiset<string>)
    requires forall i | 0 <= i < |stream| :: stream[i] == Frame(0, n)
    ensures Inv(Acknowledged(n, stream, acks))
  {
    hide DescribeNotice;
  }

  lemma {:induction false} AckArrivesOnce(n: Notice, stream: seq<Frame>, acks: multiset<string>)
    ensures var w := World([n], map[n.runId := 0], stream, acks + multiset{n.runId}, {0}, {}, {});
            Enabled(w, AckArrives(n.runId)) && Step(w, AckArrives(n.runId)) == Acknowledged(n, stream, acks)
  {
    assert acks + multiset{n.runId} - multiset{n.runId} == acks;
    assert map[n.runId := 0] - {n.runId} == map[];
  }

  /**
   Read again before its first acknowledgement arrives, the notice leaves a second one under way;
   that late acknowledgement swallows the run's next notice unshown.
   */
  lemma {:induction false} LateDuplicateAck(first: Notice, second: Notice, d: Desktop)
    requires first.runId == second.runId && first.phase == Attention && second.phase == Attention
    requires d.focusedWindow && d.backendPort
    ensures var events := ReadTwice(first, d) + [Read(d)] + [AckArrives(first.runId)];
            && Legal(INITIAL, events) && Run(INITIAL, events).stream == []
            && !GoodForever(Step(Run(INITIAL, events), Publish(second, true, true)))
  {
    var r := first.runId;
    ReplayedFrame(first, d);
    AttentionIsToasted(World([first], map[r := 0], [], multiset{r}, {0}, {}, {}), first, 0, d);
    hide DescribeNotice, PlanDelivery, Handle, Legal, Run, ReadTwice, GoodForever;
    RunOn(INITIAL, ReadTwice(first, d), Read(d));
    AckArrivesOnce(first, [], multiset{r});
    AcknowledgedIsGood(first, [], multiset{r});
    var w := Acknowledged(first, [], multiset{r});
    assert Threatened(w, r, 1);
    hide Step, Inv, Threatened;
    RunOn(INITIAL, ReadTwice(first, d) + [Read(d)], AckArrives(r));
    NextIsSwallowed(w, second);
  }

  /**
   With no acknowledgement under way at all, the replayed frame alone is enough: it is read after
   the run's next notice is published and acknowledges that one.
   */
  lemma {:induction false} LateFrame(first: Notice, second: Notice, d: Desktop)
    requires first.runId == second.runId && first.phase == Attention && second.phase == Attention
    requires d.focusedWindow && d.backendPort
    ensures var events := ReadTwice(first, d) + [AckArrives(first.runId)];
            && Legal(INITIAL, events) && Run(INITIAL, events).acks == multiset{}
            && !GoodForever(Step(Run(INITIAL, events), Publish(second, true, true)))
  {
    var r := first.runId;
    ReplayedFrame(first, d);
    hide DescribeNotice, PlanDelivery, Handle, Legal, Run, ReadTwice, GoodForever;
    AckArrivesOnce(first, [Frame(0, first)], multiset{});
    AcknowledgedIsGood(first, [Frame(0, first)], multiset{});
    var w := Acknowledged(first, [Frame(0, first)], multiset{});
    assert Endangers(w, w.stream[0], r, 1);
    assert Threatened(w, r, 1);
    assert multiset{} + multiset{r} == multiset{r};
    hide Step, Inv, Threatened;
    RunOn(INITIAL, ReadTwice(first, d), AckArrives(r));
    NextIsSwallowed(w, second);
  }

  /**
   A finished run's notice, published with no feed connected and replayed once the job's
   notifications are switched off, is acknowledged unshown.
   */
  lemma {:induction false} EditedJobLosesNotice(n: Notice)
    requires n.phase == Finished && DescribeNotice(n).Some?
    ensures var w := Step(INITIAL, Publish(n, true, false));
            var off := n.(notify := false);
            && Inv(w) && Enabled(w, Replay(n.runId, off))
            && !GoodForever(Step(w, Replay(n.runId, off)))
  {
    var w, off := Step(INITIAL, Publish(n, true, false)), n.(notify := false);
    assert DescribeNotice(off).None?;
    hide DescribeNotice, GoodForever;
    StepKeepsInv(INITIAL, Publish(n, true, false));
    assert StillToShow(w, 0) && w.outstanding[n.runId] == 0;
    ReplaySafeIff(w, n.runId, off);
  }
}
