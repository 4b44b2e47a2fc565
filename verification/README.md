# Michi desktop: models and proofs

Michi's desktop app is an Electron process around one backend. This project models the parts of
that process in which order, interleaving and bounded buffers decide whether it works, the
JSON-RPC client of a probe script, and the page store that the end-to-end fixtures run against.
Everything below is a statement about the model, proved by Dafny for all inputs or all runs.

| module | what it models |
|---|---|
| `Sse`, `SseStandard`, `SseFrames` | the incremental event-stream parser; the algorithm of section 9.2.6 of the WHATWG HTML Standard, character by character; the printed frames and their round trip |
| `NotificationFeed` | the self-reconnecting subscription: sockets, timers, late close events, backoff |
| `NoticeDelivery` | how a notice is shown and acknowledged: the frames unread on the stream, a backend that supersedes and replays, acknowledgements lost, late and doubled |
| `Handover`, `HandoverRuns`, `HandoverLimits`, `BackendOwner` | the one backend moving between a forked child and a LaunchAgent: its steps, whole sessions with concurrent callers, where safety ends, and the code's own sequential form |
| `XmlText`, `Plist`, `LaunchAgent` | XML escaping, a printer and a reader for property lists, the agent's property list |
| `WindowLifetime` | the Windows tray controller and the window glue around it |
| `Updater`, `Download` | the chain of check, download and install jobs with the status they show; progress reports and redirects |
| `Terminal` | terminal output: coalescing, bounded replay, reattaching |
| `RpcClient` | `MiniAcpClient`: line framing, requests, replies, timeouts, process exit (JSON-RPC 2.0, sections 4 and 5) |
| `PageStore` | databases with undo and redo, and the cascading delete of pages |
| `Options`, `JsText` | an option type; text searching, joining and JavaScript's `trim` |

Each stateful part has two forms. A `State` and a `Step` function say what one event does to the
object together with what the runtime holds for it (open sockets, armed timers, promises), and the
theorems are about every sequence of events. Beside it a class has the source's fields and methods,
and each method is proved to be its `Step`. For the handover, whose methods wait in the middle, a
step is what happens between two awaits, and each method is proved to be a walk along such steps.

Where a natural claim is false of the code, the code is kept, a lemma shows a failing input, and
another says exactly when the claim holds:

- a chunk that ends between CR and LF (`SplitCrLfChangesData`; exact: `ReceivedIsNormalized`);
- an unfinished frame longer than 1,000,000 characters (`OverflowLosesEvent`, `LongFrameCut`; exact: `BufferExactIffNoOverflow`, `RoundTripIffFramesFit`);
- a lone CR, and an empty event name (`LoneCrChangesData`; exact: `NormalizeIsStandard`, `ParserMatchesStandard`);
- a second acknowledgement, or a replayed frame still unread, that swallows the run's next notice, and a replay rebuilt from an edited job (`LateDuplicateAck`, `LateFrame`, `EditedJobLosesNotice`; exact: `GoodForeverIff`, `PublishSafeIff`, `ReplaySafeIff`);
- a kill or an unload that misses its deadline, a `launchctl print` that fails, and a request while the app is starting up, which takes no lock (`LateKillOverlaps`, `LateUnloadOverlaps`, `FailingPrintOverlaps`, `EarlyRequestOverlaps`, `EarlyRequestForgotten`; exact: `StepSafeIff`, `RunSafeIff`), and the old child's late exit that makes the app forget the new child (`LateExitForgetsNewChild`, `ForgottenChildOverlaps`);
- a property list left behind by a failed attach (`FailedAttachThenOff`; exact: `NextSessionSafeIff`);
- a login item that cannot be read or updated once the tray is gone, and a preference changed but not saved before the app is ready (`RefusedLoginItemStrands`, `UnsavedPreferenceStrands`; exact: `StepSafeIff`);
- an install begun while a newer version is shown (`FailedInstallShowsWrongVersion`; exact: `InstallSafeIff`), and an install whose script cannot be written (`StuckInstalling`);
- a terminal reattached while text waits to be sent (`ReattachExactIff`);
- edits undone out of order (`UndoInAnyOrder`; exact: `UndoRestoresIff`).

Where the code and its comments differ the model follows the code. The comment on a deferred notice
says that an acknowledgement stops the replay of that notice; the request names only the run, so it
stops the replay of whatever notice the run has by then. The comment in the feed says that a
404 is retried slowly; the delay is the ordinary backoff. The comment on the residue limit speaks of
a peer that never ends a frame; a peer that ends a long frame late loses it too.

## Model

| member | source | states |
|---|---|---|
| `Sse.SseParser.Parse` | electron/scheduledNotifications.ts:39-63 | the buffer loop, boundary by boundary, leaves the buffer and emits the events that draining buffer and normalised chunk gives |
| `Sse.ReadBlock` | electron/scheduledNotifications.ts:47-57 | the line loop emits the one event, or none, that folding the fields over the lines gives |
| `Sse.FindBoundary` | electron/scheduledNotifications.ts:43 | the first blank line, or that there is none |
| `Sse.NormalizeAppend` | electron/scheduledNotifications.ts:42 | normalising two pieces apart equals normalising them together, except for exactly one extra character at a split CRLF |
| `Sse.ReceivedIsNormalized` | electron/scheduledNotifications.ts:42 | the parser receives the normalised text if and only if no cut falls inside a CRLF |
| `Sse.DrainAppend` | electron/scheduledNotifications.ts:43-59 | draining a text in two pieces, carrying the residue over, gives the events and the residue of the whole |
| `Sse.FeedAllDrainsReceived` | electron/scheduledNotifications.ts:40-62 | without overflow a parser fed chunk by chunk is one drain of all it received, clean cuts or not |
| `Sse.ChunkInvariance` | electron/scheduledNotifications.ts:40-62 | under every chunking without a split CRLF or an overflow, events and residue are those of the whole text |
| `Sse.BufferExactIffNoOverflow` | electron/scheduledNotifications.ts:61 | the buffer is the true residue after every chunk if and only if no residue exceeds 1,000,000 |
| `Sse.OverflowLosesEvent` | electron/scheduledNotifications.ts:61 | any data line over the limit, cut before its blank line, is lost; uncut it is an event |
| `Sse.SplitCrLfChangesData` | electron/scheduledNotifications.ts:42 | a cut inside a CRLF leaves the CR in the event's data |
| `SseStandard.DrainMatchesStandardRun` | electron/scheduledNotifications.ts:43-59 | on every LF text the blocks give the events, in order, that the standard's character machine dispatches, empty names read as `message` |
| `SseStandard.NormalizeIsStandard` | electron/scheduledNotifications.ts:42 | the code's line ends are the standard's if and only if the text has no lone CR |
| `SseStandard.LoneCrChangesData` | electron/scheduledNotifications.ts:42-53 | two data lines with a lone CR between them are one event of two lines for the standard and another event, the CR in its data, for the code |
| `SseStandard.ParserMatchesStandard` | electron/scheduledNotifications.ts:39-59 | on every text without a lone CR the events are the standard's up to empty names, and equal if and only if no empty name is reported |
| `SseFrames.FrameShape` | e2e/fixtures/memoryFixtures.ts:73 | a frame of one line of data is written exactly as the fixture writes it |
| `SseFrames.DrainFrames` | electron/scheduledNotifications.ts:43-59 | a list of printed frames before any text reads back as that list, the text after it untouched |
| `SseFrames.RoundTrip` | e2e/fixtures/memoryFixtures.ts:73 | printed frames that fit the limit parse back, under any chunking, to the same list with an empty residue |
| `SseFrames.RoundTripIffFramesFit` | electron/scheduledNotifications.ts:39-63 | the round trip holds under every chunking if and only if each frame is at most 1,000,001 characters |
| `SseFrames.FramesPrefixResidue` | electron/scheduledNotifications.ts:61 | no prefix of fitting frames ever leaves a residue over the limit |
| `SseFrames.LongFrameCut` | electron/scheduledNotifications.ts:61 | for a longer frame there is a cutting that breaks the round trip |
| `NotificationFeed.StepKeepsInv` | electron/scheduledNotifications.ts:121-219 | every start, stop, restart, timer, close and response keeps the feed's fields and the runtime's sockets and timers in step |
| `NotificationFeed.EveryRunKeepsInv` | electron/scheduledNotifications.ts:121-219 | so does every interleaving of them, port changes included |
| `NotificationFeed.FeedHoldsOneThing` | electron/scheduledNotifications.ts:129-176 | after every run a stopped feed has no timer and no socket, a running one exactly one of the two |
| `NotificationFeed.RunningUntilStopped` | electron/scheduledNotifications.ts:129-148 | on every run only a start or a restart sets the feed running, and only a stop ends that |
| `NotificationFeed.ConnectsAtOnce` | electron/scheduledNotifications.ts:178-219 | on every run a start from rest, a restart and a timer of a running feed open one new socket at once where there is a port, with no timer left, and arm one timer where there is none |
| `NotificationFeed.KeepsItsConnection` | electron/scheduledNotifications.ts:129-130 | on every run an answer of any status and a start while running leave socket and timer alone |
| `NotificationFeed.WaitsDouble` | electron/scheduledNotifications.ts:165-176 | on every run the delays armed since the last 200 or restart, counted from the events, begin with min(max, base) and double up to the maximum |
| `NotificationFeed.StaleCloseNeverReconnects` | electron/scheduledNotifications.ts:211-216 | on every run the close of a request the feed no longer holds changes none of its fields |
| `NotificationFeed.DelayGrows` | electron/scheduledNotifications.ts:167-169 | delays never shrink and never exceed the maximum |
| `NotificationFeed.ScheduledNotificationFeed.Start` | electron/scheduledNotifications.ts:129-133 | the new fields and the runtime's books are the start step's |
| `NotificationFeed.ScheduledNotificationFeed.Stop` | electron/scheduledNotifications.ts:135-141 | the new fields and the runtime's books are the stop step's |
| `NotificationFeed.ScheduledNotificationFeed.Restart` | electron/scheduledNotifications.ts:144-148 | stopping, resetting and starting is the restart step |
| `NotificationFeed.ScheduledNotificationFeed.ScheduleReconnect` | electron/scheduledNotifications.ts:165-176 | one timer armed with the next delay, nothing once stopped |
| `NotificationFeed.ScheduledNotificationFeed.ConnectTo` | electron/scheduledNotifications.ts:178-219 | one request opened, or a timer without a port |
| `NotificationFeed.ScheduledNotificationFeed.OnTimer` | electron/scheduledNotifications.ts:171-174 | the timer's callback is the timer step |
| `NotificationFeed.ScheduledNotificationFeed.OnClose` | electron/scheduledNotifications.ts:211-216 | the close callback is the close step |
| `NotificationFeed.ScheduledNotificationFeed.OnResponse` | electron/scheduledNotifications.ts:199-206 | a 200 resets the backoff, another status does not |
| `NoticeDelivery.DeliveryCases` | electron/scheduledNotifications.ts:97-109 | a notice with content is a toast if and only if a window has the focus, a banner if and only if not and the system has notifications, and deferred if and only if neither |
| `NoticeDelivery.NoticeTells` | electron/scheduledNotifications.ts:66-82 | which notices have something to show, under which title, and that a result or an error is told |
| `NoticeDelivery.SubtitleTells` | electron/scheduledNotifications.ts:70-79 | which of the four subtitles a shown notice has |
| `NoticeDelivery.BodyTells` | electron/scheduledNotifications.ts:71-79 | what a waiting run says, and a finished one with nothing to tell |
| `NoticeDelivery.HandleAcksOnlyShown` | electron/main.ts:1037-1061 | handling acknowledges only a notice it shows, a toast counting with a focused window and a banner with system notifications, or one with nothing to show; a deferred or started one is left alone |
| `NoticeDelivery.StepKeepsInv` | electron/main.ts:1037-1061 | every publish, replay, read, disconnect, acknowledgement, loss and withdrawal keeps it that no notice still to be shown is acknowledged or can be by what is under way |
| `NoticeDelivery.EveryRunIsGood` | electron/scheduledNotifications.ts:66-109 | on every run in which a notice to show is published only with no acknowledgement and no older frame of its run under way, and is not replayed unshown as one with nothing to show, every acknowledged notice was shown or had nothing to show, and each notice was shown, is outstanding, or was superseded or withdrawn |
| `NoticeDelivery.OneNoticePerRunIsGood` | electron/main.ts:1037-1061 | where every run id has one notice to show, its first, and replays keep it one, that holds on every run, whatever is lost, late or doubled |
| `NoticeDelivery.GoodForeverIff` | electron/scheduledNotifications.ts:150-163 | a state stays good on every disciplined continuation if and only if neither an acknowledgement under way nor an unread frame that does not show it can hit a notice still to be shown |
| `NoticeDelivery.PublishSafeIff` | backend/src/services/scheduledJobs/repository.ts:471-494 | publishing, superseding what is outstanding, is safe if and only if no acknowledgement and no older frame of that run is under way |
| `NoticeDelivery.ReplaySafeIff` | backend/src/services/scheduledJobs/scheduler.ts:557-568 | replaying, the notice rebuilt from the job as it is now, is safe if and only if a notice still to be shown still has something to show |
| `NoticeDelivery.EditedJobLosesNotice` | backend/src/services/scheduledJobs/scheduler.ts:557-568 | a finished run's notice replayed after its job's notifications were switched off can be acknowledged unshown |
| `NoticeDelivery.ReplayedFrame` | backend/src/routes/scheduledJobs.ts:84-98 | a notice read and, after a reconnect, replayed is on the stream again with its acknowledgement still under way |
| `NoticeDelivery.LateDuplicateAck` | electron/scheduledNotifications.ts:150-163 | read again, it leaves a second acknowledgement, which can swallow the run's next notice unshown |
| `NoticeDelivery.LateFrame` | electron/scheduledNotifications.ts:185-209 | with no acknowledgement under way, the replayed frame alone can do the same once it is read |
| `Handover.EnterFits` | electron/main.ts:938-974 | the first stretch of a transition, from rest, leaves what its place demands |
| `Handover.EnterBesideStartup` | electron/main.ts:971-974 | a caller that may start beside startup only rewrites the flag, and startup's own place still holds |
| `Handover.WorkFits` | electron/main.ts:864-974 | so does every later stretch between two awaits, for every answer that does not pass over a process still there |
| `Handover.OutsideFits` | electron/main.ts:773-776 | a child's death or the agent's unloading at any await keeps it too |
| `HandoverRuns.StepKeepsInv` | electron/main.ts:864-984 | every orderly event, requests during startup included, keeps the invariant of startup, callers, lock and processes |
| `HandoverRuns.EverySessionIsSafe` | electron/main.ts:864-984 | in every session in which no kill or unload is passed over and no caller starts beside startup that may not, whatever else probe, file system and launchctl answer: child and agent never run together, at most one child lives, between transitions `service` mode means the flag is on, and an agent or plist without the flag was recorded as left behind |
| `HandoverRuns.OneTransitionAtATime` | electron/main.ts:928-984 | with any number of callers at any time, during startup too, and no timing assumed, no two are inside a transition together, a caller is inside one if and only if the lock is its own, and the lock never outlives its holder |
| `HandoverLimits.StepSafeIff` | electron/main.ts:864-984 | one event leaves both promises (apart, and `service` mode only with the flag) safe on every orderly continuation if and only if it does not go on from a kill with the child alive, go on to the fork with the agent loaded (deadline or failing `print`), or start a transition beside startup that may not start |
| `HandoverLimits.EarlyEntryMeets` | electron/main.ts:934-939 | a request that starts while startup works is unsafe: always to turn the service on, and to turn it off where startup is still attaching or has yet to read the flag with the agent loaded |
| `HandoverLimits.EarlyRequestOverlaps` | electron/main.ts:1832-1840 | from every start of a session, one request to turn the service on during startup, everything else orderly, can run child and agent together |
| `HandoverLimits.EarlyRequestForgotten` | electron/main.ts:1065-1068 | and one to turn it off can leave the session at rest in `service` mode with the flag off |
| `HandoverLimits.RunSafeIff` | electron/main.ts:864-984 | a session is safe on every orderly continuation at every point if and only if all its events are orderly |
| `HandoverLimits.LateKillOverlaps` | electron/main.ts:784-788 | every session that starts with the flag off can overlap if a kill may miss its deadline |
| `HandoverLimits.LateUnloadOverlaps` | electron/backgroundService.ts:225-231 | every session that starts with the agent loaded can overlap if an unload may miss its deadline |
| `HandoverLimits.FailingPrintOverlaps` | electron/backgroundService.ts:208-210 | and if a `launchctl print` may fail, which is read as "not loaded" |
| `HandoverLimits.LateExitForgetsNewChild` | electron/main.ts:773-776 | after a late kill the old child's exit clears the pointer to the new child, at rest in child mode |
| `HandoverLimits.ForgottenChildOverlaps` | electron/main.ts:780-783 | from any such state, turning the service on with every later event orderly runs both |
| `HandoverLimits.SessionSafeIff` | electron/main.ts:896-914 | a session opened after a quit keeps its promises on every orderly run if and only if it does not begin with the agent loaded and the flag off |
| `HandoverLimits.NextSessionSafeIff` | electron/main.ts:896-914 | so the next login is safe if and only if no plist is there without the flag, and reopening in the same login if and only if no agent is |
| `HandoverLimits.CleanSessionsStaySafe` | electron/main.ts:896-984 | an orderly session ended between transitions with nothing left behind, a plist that could not be unlinked included, hands on a safe start, after a new login and within the same one |
| `HandoverLimits.FailedAttachThenOff` | electron/main.ts:903-913 | any session starting with plist and flag can end, orderly and at rest, with the plist there and the flag off, the next login unsafe |
| `BackendOwner.WalkIsRun` | electron/main.ts:864-984 | what a method does alone is a run of the session in which nobody else acts |
| `BackendOwner.AttachedReadOurs` | electron/main.ts:866-892 | a walk from the first probe that ends attached has just read that our service answers |
| `BackendOwner.ForeignAnswerEnds` | electron/main.ts:868-871 | another backend's answer at either probe ends the attempt with nothing changed |
| `BackendOwner.Owner.AwaitUnload` | electron/backgroundService.ts:226-231 | the polling loop is a walk; the agent stays loaded only if no poll found it gone, and then either all polls before the deadline are used up or the last `print` failed |
| `BackendOwner.Owner.UnloadAgent` | electron/backgroundService.ts:213-236 | stopping the service is a walk; the agent stays loaded if and only if it was and the first `print` failed, or neither bootout nor any poll saw it go |
| `BackendOwner.Owner.BootOut` | electron/backgroundService.ts:225-231 | so is the bootout with its wait, with the same outcome |
| `BackendOwner.Owner.LoadAgent` | electron/backgroundService.ts:250-258 | bootstrap is a walk; a refusal is followed by exactly one more try, whose answer decides |
| `BackendOwner.Owner.InstallAndStart` | electron/backgroundService.ts:239-260 | so is the installation; it succeeds if and only if the directory, the plist and the last try do, and the plist is written exactly if it gets to the tries |
| `BackendOwner.Owner.EnsureServiceRunning` | electron/main.ts:864-893 | a walk to attached or unavailable; it succeeds if and only if the last probe found our service, and a first answer of ours or of another backend installs nothing |
| `BackendOwner.Owner.FindHealthy` | electron/main.ts:887-892 | after the wait for health only the answer of our own service to the second probe will do |
| `BackendOwner.Owner.ForkBackend` | electron/main.ts:721-778 | forking adds one child and points at it, or changes nothing |
| `BackendOwner.Owner.FallBack` | electron/main.ts:960-964 | stopping the service and forking ends in child mode, the flag untouched; the plist stays if and only if the app is starting up or it could not be unlinked, and is then recorded as left behind; exactly a successful fork adds one child and points at it |
| `BackendOwner.Owner.StartBackend` | electron/main.ts:896-914 | startup is a walk; it never writes the flag, is in `service` mode if and only if the flag is on and the last probe found our service, and otherwise forks |
| `BackendOwner.Owner.ConcludeStartup` | electron/main.ts:903-913 | after its attempt startup is in `service` mode if and only if it attached |
| `BackendOwner.Owner.StopBackend` | electron/main.ts:780-795 | the pointer is cleared at once; exactly that child is gone unless the kill was late |
| `BackendOwner.Owner.Conclude` | electron/main.ts:945-956 | after the attempt: attached only records `service` mode; else the flag is off and a child forked, or nothing done if the flag cannot be written |
| `BackendOwner.Owner.HandOver` | electron/main.ts:940-956 | turning on is a walk that succeeds if and only if a port is found, the flag saved and the last probe finds our service; what each failure leaves is stated too |
| `BackendOwner.Owner.SetBackgroundServiceEnabled` | electron/main.ts:934-984 | the transition is a walk from its entry; `service` mode implies the flag, success means mode and flag are as asked, on while on and a flag that cannot be written change nothing, and off from child mode writes only the flag |
| `XmlText.XmlIsEscape` | electron/backgroundService.ts:139-146 | the five replacements in sequence are one map per character |
| `XmlText.UnescapeEscape` | electron/backgroundService.ts:139-146 | reading the five predefined entities undoes it, for every text (XML 1.0, section 4.6) |
| `XmlText.EscapeHasNoMarkup` | electron/backgroundService.ts:139-146 | escaped text holds no angle bracket |
| `Plist.TextShape` | electron/backgroundService.ts:149-152 | texts and integers are written as the template writes them |
| `Plist.BlockShape` | electron/backgroundService.ts:157-181 | and so are arrays and dictionaries, each depth two spaces further in |
| `Plist.ReadPrintedValue` | electron/backgroundService.ts:148-185 | reading any printed property-list value, whatever follows it, gives the value and what follows |
| `LaunchAgent.ReadRendered` | electron/backgroundService.ts:148-185 | the rendered text reads back as the document it was made from |
| `LaunchAgent.DocumentReadsBack` | electron/backgroundService.ts:160-181 | the document holds the whole launch specification |
| `LaunchAgent.PlistRoundTrip` | electron/backgroundService.ts:148-185 | reading the rendered plist recovers label, program, arguments, environment map and paths for every specification and every order of the variables |
| `LaunchAgent.RenderedSettings` | electron/backgroundService.ts:170-177 | read back, the rendered agent starts at login, is kept alive, and has ten seconds between starts and fifteen to stop |
| `LaunchAgent.HeadIsApples` | electron/backgroundService.ts:154-156 | declaration, document type and root element are those of Apple's property lists |
| `WindowLifetime.SetKeepSafeIff` | electron/windowsLifecycle.ts:192-201 | a preference change keeps every hidden window within reach if and only if it does not take the tray from one and then throw over the login item, read or written |
| `WindowLifetime.AppReadySafeIff` | electron/windowsLifecycle.ts:186-190 | becoming ready does so if and only if it does not take the tray from a window hidden before, the preference off but never saved |
| `WindowLifetime.StepSafeIff` | electron/main.ts:1373-1415 | every event, before or after the app is ready, keeps it if and only if it is not one of those two |
| `WindowLifetime.HiddenMeansTrayOrQuit` | electron/windowsLifecycle.ts:186-226 | on every such run a window hidden, or about to be left hidden by ready-to-show, has a tray icon or a quit behind it, and outside macOS the app stays within reach |
| `WindowLifetime.NoThrowNoStrand` | electron/main.ts:1229-1235 | on a run in which no preference change throws neither case occurs |
| `WindowLifetime.NoThrowHiddenMeansTrayOrQuit` | electron/windowsLifecycle.ts:186-226 | so on every run from the start without such an exception, second launches before ready included, a hidden window has a tray icon or a quit behind it |
| `WindowLifetime.RefusedLoginItemStrands` | electron/windowsLifecycle.ts:196-199 | with a window out of sight, switching off while the login item is refused or unreadable strands it |
| `WindowLifetime.UnsavedPreferenceStrands` | electron/windowsLifecycle.ts:192-196 | a run from the start: a second launch's window hidden before the app is ready, a change that could not be saved, and becoming ready strand it too |
| `WindowLifetime.QuittingHidesNothing` | electron/windowsLifecycle.ts:215-216 | once quitting, no event hides a visible window |
| `WindowLifetime.NoHidingAfterQuit` | electron/windowsLifecycle.ts:215-230 | nor does any sequence of later events |
| `WindowLifetime.SecondInstanceShows` | electron/windowsLifecycle.ts:239-249 | a second launch always ends with a window shown or on its way |
| `WindowLifetime.SecondInstanceRestores` | electron/windowsLifecycle.ts:239-249 | on Windows exactly the first hidden window is brought back, else the first minimized, else the first; a background launch changes nothing |
| `WindowLifetime.CloseDecides` | electron/main.ts:1373-1405 | a closed window is hidden exactly if it is the last and there is a tray for it, kept exactly over running terminals, and otherwise gone, the app quitting exactly with the last one and no tray to stay in |
| `WindowLifetime.ConfirmedCloses` | electron/main.ts:1396-1402 | a close confirmed over terminals goes through, with the same end |
| `WindowLifetime.NewWindowOpens` | electron/main.ts:1277 | a new window is one more, not to be hidden |
| `WindowLifetime.ReadyShows` | electron/main.ts:1407-1415 | a window that becomes ready is shown unless it started hidden and nobody revealed it |
| `WindowLifetime.AppReadyOpens` | electron/windowsLifecycle.ts:186-190 | becoming ready opens one window, hidden only if asked for and there is a tray |
| `WindowLifetime.SetKeepActs` | electron/main.ts:1229-1235 | a change that does not throw is kept, has a tray exactly if on and to be had, and without one shows every window |
| `WindowLifetime.QuitTakesTray` | electron/main.ts:1938-1940 | quitting takes the tray and touches no window |
| `WindowLifetime.WindowsLifetimeController.SyncTrayNow` | electron/windowsLifecycle.ts:272-279 | tray and belief are the tray step's, a failed creation included |
| `WindowLifetime.WindowsLifetimeController.OnAppReady` | electron/windowsLifecycle.ts:186-190 | tray first, then the first window, hidden only if it may be |
| `WindowLifetime.WindowsLifetimeController.SetKeepInBackgroundFrom` | electron/main.ts:1229-1235 | the settings handler is its step, the reveal skipped exactly when the call throws |
| `WindowLifetime.WindowsLifetimeController.CloseWindow` | electron/main.ts:1373-1405 | the close handler is its step: hide, allow or quit |
| `Updater.StepKeepsInv` | electron/autoUpdate.ts:371-375 | every request, start, progress and end keeps the chain in order and the status with the running job |
| `Updater.BeginIsNext` | electron/autoUpdate.ts:371-375 | a job can begin if and only if none is running and it is the next in request order |
| `Updater.JobsRunInTurn` | electron/autoUpdate.ts:371-375 | on every run jobs start in request order, each once, one at a time, the next startable however the last ended, never in `checking` or `downloading` |
| `Updater.BeginningsShow` | electron/autoUpdate.ts:153-160 | on every run which jobs go on when they begin, and what is then shown |
| `Updater.EndingsShow` | electron/autoUpdate.ts:161-200 | on every run what each ending of a job shows: a release found is `ready` if and only if it is the one downloaded last and its file is there |
| `Updater.RecordsLastDownload` | electron/autoUpdate.ts:284-291 | on every run the recorded file and tag are those of the last completed download |
| `Updater.ProgressShows` | electron/autoUpdate.ts:281-283 | a report is shown as it comes, with the version being downloaded |
| `Updater.TagOfVersion` | electron/updateRelease.ts:33-35 | the tag of a version, with or without a leading `v`, shows as the version |
| `Updater.GuardedRunsKeepReady` | electron/autoUpdate.ts:178-186 | on runs whose installs begin with the shown version the file's own, `ready` means a file is recorded and its version shown |
| `Updater.ReadyIsGuarded` | electron/autoUpdate.ts:284-291 | an install begun in `ready` is such |
| `Updater.ReadyInstallsKeepReady` | electron/autoUpdate.ts:269-336 | so on every run from the start in which every install begins in `ready`, `ready` means a file is recorded and its version shown |
| `Updater.InstallSafeIff` | electron/autoUpdate.ts:327-336 | an install that goes on keeps the promise under every ending if and only if the shown version is the file's |
| `Updater.FailedInstallShowsWrongVersion` | electron/autoUpdate.ts:327-336 | a run of the queue: a download, a check that finds a newer release, and a failed install leave `ready` shown with the wrong version |
| `Updater.StuckInstalling` | electron/autoUpdate.ts:153-155 | left in `installing` with no job running, no run of checks and downloads changes the state again |
| `Updater.AutoUpdater.EnqueueJob` | electron/autoUpdate.ts:371-375 | the new job is chained to the last one requested |
| `Updater.AutoUpdater.BeginNext` | electron/autoUpdate.ts:153-160 | the start of a check, a download or an install is its step |
| `Updater.AutoUpdater.FinishJob` | electron/autoUpdate.ts:178-200 | every ending of a job is its step |
| `Download.PercentRounds` | electron/autoUpdate.ts:251 | the percentage is the true one rounded half up, and 100 for all that is complete |
| `Download.ReportsAreFewAndFresh` | electron/autoUpdate.ts:244-257 | for any chunk sizes reports strictly increase, stay within 100, number at most 50, and trail the true percentage by at most one |
| `Download.ReportsTrackTheTruth` | electron/autoUpdate.ts:244-257 | after every chunk the last report is within a percent and a half of the bytes received |
| `Download.CompleteReports100` | electron/autoUpdate.ts:244-257 | a complete download ends with a report of 100 |
| `Download.ReportProgress` | electron/autoUpdate.ts:244-257 | the callback's counters over all chunks give exactly those reports |
| `Download.FollowIsBounded` | electron/autoUpdate.ts:219-238 | at most six requests, each to an allowed address and each the redirect of the one before |
| `Download.FollowEnding` | electron/autoUpdate.ts:219-243 | the last answer decides the ending: success, its status, or a redirect that was the sixth request or led to a host not allowed; without a request the address itself was not allowed |
| `Terminal.LastCharsAppend` | electron/main.ts:324 | cutting the replay at every chunk equals cutting the whole history once |
| `Terminal.OutputIsKeptAndSent` | electron/main.ts:313-341 | on every run a non-authentication replay is the last 1,048,576 characters of all output, or all of it, and an authentication one empty; with a live renderer text sent plus pending is all output in order; pending waits only behind an armed timer |
| `Terminal.EveryRunKeepsInv` | electron/main.ts:313-341 | on every run text sent plus pending is all output in order, pending waits only behind an armed timer, and a replay is the last 1,048,576 characters of all output |
| `Terminal.FlushSendsAll` | electron/main.ts:327-332 | a flush sends all that waits |
| `Terminal.NothingSentOnceGone` | electron/main.ts:331-340 | once the renderer is gone nothing is sent, whatever happens |
| `Terminal.ExitComesLast` | electron/main.ts:334-341 | on exit all output precedes the exit message and nothing is left to flush |
| `Terminal.ReattachExactIff` | electron/main.ts:294-297 | a reattached view shows recent and later output exactly once if and only if nothing was pending or, as for authentication, no replay is kept |
| `Terminal.TerminalSurface.OnData` | electron/main.ts:322-333 | the data callback is its step |
| `Terminal.TerminalSurface.OnFlush` | electron/main.ts:327-332 | the flush callback is its step |
| `Terminal.TerminalSurface.OnExit` | electron/main.ts:334-341 | the exit callback is its step |
| `RpcClient.FrameIsExact` | backend/scripts/probe-acp-load.ts:66-69 | the lines, each with its line feed, and the rest are the text again, and hold no other line feed |
| `RpcClient.FrameAppend` | backend/scripts/probe-acp-load.ts:64-79 | framing a text in two pieces, carrying the rest over, gives the lines of the whole |
| `RpcClient.ChunkInvariance` | backend/scripts/probe-acp-load.ts:64-79 | however the output is cut, the client ends as if it came in one piece |
| `RpcClient.EveryRunBalances` | backend/scripts/probe-acp-load.ts:51-120 | on every run the pending entries are exactly the issued unsettled requests, each with its timer, nothing settles twice and ids are not reused |
| `RpcClient.EveryRequestMeetsItsFate` | backend/scripts/probe-acp-load.ts:51-120 | each request settles as the first of its own reply, its own timeout and the process's end after its sending, and not otherwise; a reply with its number rejects it with the error if there is one and else resolves it with the result |
| `RpcClient.EveryNotificationIsRecorded` | backend/scripts/probe-acp-load.ts:81-94 | on every run the recorded updates are the parameters of the `session/update` notifications, in order and nothing else, requests are numbered from 0 in order, and the exit code is the last one told |
| `RpcClient.EveryRunReadsItsLines` | backend/scripts/probe-acp-load.ts:64-79 | on every run the lines handled are those of all output, and requests, timeouts and exits happen once and in order |
| `JsText.TrimIsInner` | backend/scripts/probe-acp-load.ts:68 | trimming takes all white space from both ends and nothing else |
| `RpcClient.RunIsTrace` | backend/scripts/probe-acp-load.ts:51-120 | a run is its single effects applied in order |
| `RpcClient.MiniAcpClient.OnStdout` | backend/scripts/probe-acp-load.ts:64-79 | the read loop is the framing step |
| `RpcClient.MiniAcpClient.Receive` | backend/scripts/probe-acp-load.ts:81-94 | dispatch settles the named request, or records a notification |
| `RpcClient.MiniAcpClient.SendRequest` | backend/scripts/probe-acp-load.ts:96-120 | sending takes the next id and registers it |
| `RpcClient.MiniAcpClient.OnTimeout` | backend/scripts/probe-acp-load.ts:103-108 | a timeout settles its own request only |
| `RpcClient.MiniAcpClient.OnExit` | backend/scripts/probe-acp-load.ts:51-57 | exit settles everything pending, in order |
| `PageStore.StepRaisesRevision` | e2e/fixtures/pagesFixtures.ts:222-247 | an effective edit, revert or redo raises the revision of its database by one and touches no other; no batch is both undoable and redoable |
| `PageStore.EveryRunKeepsInv` | e2e/fixtures/pagesFixtures.ts:222-247 | on every run revisions never fall and no batch is both |
| `PageStore.EditExtendsTimeline` | e2e/fixtures/pagesFixtures.ts:438-449 | an edit adds one place to a database's history, under the batch id it gets |
| `PageStore.UndoMovesBack` | e2e/fixtures/pagesFixtures.ts:222-236 | undoing the newest applied batch moves one place back |
| `PageStore.RedoMovesOn` | e2e/fixtures/pagesFixtures.ts:237-247 | redoing the oldest undone batch moves one place on |
| `PageStore.WalkFollowsTimeline` | e2e/fixtures/pagesFixtures.ts:222-247 | however long one goes back and forth, other databases edited meanwhile, the content is the history's at that place |
| `PageStore.UndoAllThenRedoAll` | e2e/fixtures/pagesFixtures.ts:222-247 | n edits of a database, with anything at all done to others in between, undone newest first restore the original, redone oldest first the final content |
| `PageStore.UndoInAnyOrder` | e2e/fixtures/pagesFixtures.ts:222-236 | undone in any order they leave what the last of them had found |
| `PageStore.UndoRestoresIff` | e2e/fixtures/pagesFixtures.ts:222-236 | so a content is restored if and only if the batch undone last had found it |
| `PageStore.PagesController.DeletePage` | e2e/fixtures/pagesFixtures.ts:325-340 | the fixpoint loop ends and removes exactly the page and everything under it, for any parent graph, cycles included |
| `PageStore.NoSurvivorPointsAtRemoved` | e2e/fixtures/pagesFixtures.ts:325-340 | no surviving page has a removed parent |
| `PageStore.ChainStaysInside` | e2e/fixtures/pagesFixtures.ts:325-340 | a set closed under children holds every chain that ends in it |
| `PageStore.PagesController.RevertBatch` | e2e/fixtures/pagesFixtures.ts:222-236 | the handler is the undo step and reports whether the batch was there |
| `PageStore.PagesController.RedoBatch` | e2e/fixtures/pagesFixtures.ts:237-247 | the handler is the redo step and reports whether the batch was there |
| `PageStore.PagesController.EditDatabase` | e2e/fixtures/pagesFixtures.ts:438-449 | the handler is the edit step and reports whether the database was there |

## Left out

- Ownership at quit: `stopBackend` from before-quit, relaunch and session end runs outside the lock; a session of the handover ends where quitting begins.
- BackendOwner.Owner.StartBackend: the `external` mode without a bundled backend and platforms without the service are not modelled, because there is no agent to hand over to.
- Ports in the handover, and a `launchctl print` that names an agent which is not loaded.
- The backend's limits on how many and how old notices it replays: a notice it no longer replays counts as outstanding.
- Text is a sequence of characters cut between characters; UTF-8 decoding, UTF-16 surrogates and JSON parsing are outside, and a parsed line is a parameter of the RPC client.
- Download.ReportsAreFewAndFresh: percentages are exact fractions rounded half up; floating-point division is not modelled.
- LaunchAgent.PlistRoundTrip: the locale's order of the variable names is any order, and characters XML 1.0 forbids are not excluded by the reader.
- PageStore.UndoAllThenRedoAll: injected conflicts of the fixtures, which change shared rows in place, are left out; the content of an edit is opaque because the functions that compute it are not part of this model.
- WindowLifetime.HiddenMeansTrayOrQuit: a macOS background launch without a window and the store behind login items are not modelled.
- Terminal.ReattachExactIff: closing or destroying a surface and starting its process are not modelled.
- Updater.JobsRunInTurn: mounting, copying and the relaunch script are outcomes of a job.
- Building the agent's environment (`buildServiceLaunchSpec`), release parsing, path helpers, menus, themes and window bounds: they would only add easy members.
- The backend's services and the iOS app are not part of this model.
