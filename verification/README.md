# Verification of StreamMulticast's protocols, recognisers and geometry

This project models the parts of the plugin whose correctness is not visible in one function, and proves what they
promise: two concurrent protocols, two session machines, a timed state machine, a JSON recogniser, codecs, a hash, a
save protocol and the preview's edit geometry. `dafny verify dfyconfig.toml` checks everything.

Code that changes state step by step is modelled as classes and methods whose contracts equate the new state with a
specification function; the promises are then proved of these functions over every input, every run or every reachable
state. Code that several threads run is modelled as a state machine in which one event is one section under the mutex,
one library call or one join (the places where an event spans more are under "Left out"), and unlocked reads and writes
of shared fields are events of their own; every interleaving is a sequence of events.

| files | what they hold |
|---|---|
| SessionBook, SessionProtocol, SessionAdoption, SessionCalls | Streamlabs sessions: the book, the protocol of UI calls, worker, shutdown and the provider path, its safety results, and what each call brings about |
| OutputLifecycle, OutputOrder, OutputOwnership, OutputTeardown, OutputLeak | detach and reaper: the model, ordering without assumptions, reference conservation under two assumptions, the order inside a teardown, why both assumptions are needed |
| OutputStops, OutputCalls, OutputShutdown | what each stop code leads to over runs; what start(), stop(), an attempt and a teardown job bring about; that jobs and shutdown can always finish |
| OutputAttempts, OutputLostCount | the unlocked attempt counter: the bound, and the exact condition it needs |
| AlertPolicy, AlertHistory, AlertStates | live-health alerts and their meaning over the whole input history |
| Utf8, JsonNumber, JsonGrammar, JsonReader, JsonProof, JsonComplete, JsonSyntax, JsonAlphabet | the strict JSON check: grammar, reader as functions, both directions, the cursor program, its alphabet |
| VerticalSession, VerticalProof, VerticalOutput, VerticalCalls | recorder and replay buffer as one machine: the steps, what every run keeps, the class, what each call brings about |
| Sha256, Sha256Known, Codecs, CodecTables, LoginCallback, LoginVerdict | login: hash, URL and base64url codecs, the callback request and what its verdict means on the text |
| ConfigStore, ConfigRuns, EncoderRecovery, LinkedStart, LinkedTargets | save generations and what the file ends with, encoder fallback and bounded loops, linked start and the target key |
| PreviewEdit, PreviewBox, PreviewResize, PreviewMove, PreviewDrag | preview geometry over reals |
| Options, HexDigits, AsciiText, OutputStates | shared types and texts |

## Assumptions

- libobs: `signal_handler_disconnect` returns only when no handler is in flight; setting an encoder takes the output's
  own reference; a start or stop signal follows only a successful `obs_output_start`; the allocator may reuse the
  address of a released output but not of a live one.
- The ordering results of OutputOrder need nothing else. Reference conservation (OutputOwnership, OutputTeardown) holds
  for disciplined runs: start() is not called while Reconnecting without a stop() first, and a reconnect thread captures
  its output as it is spawned. In the code neither is enforced (the capture is a locked section of its own), and
  OutputLeak proves that conservation fails as soon as either may be broken. That a hard failure or a give-up stays until
  the next start() or stop() (OutputStops) needs the same two: OutputStops.FailureStaysUnderBoth.
- The attempt bound (OutputAttempts) needs in addition that start() does not come while a thread of the session before is
  between its session check and the store of its count, which a caller brings about by waiting for that session's
  teardown. OutputLostCount proves that the bound fails without this, also if only half-done increments are excluded.
- Server session ids are fresh and not blank. Alert clocks are non-negative and do not go backwards.

## Where the code and its documentation disagree

- PreviewEdit.hpp says every side stays at least `kMinSizeCanvas`. An edge handle leaves the other side as it was
  (PreviewResize.EdgeLeavesThinSide); PreviewResize.SidesKeepSignAndMinimum gives the exact condition.
- OutputController.hpp says `m_reconnect_attempt` is only touched under `m_mutex`. The reconnect thread reads and
  increments it without the lock, so a count of the old session can overwrite the new one's, which then makes more than
  ten attempts (OutputLostCount.LostCount).
- ConfigStore.hpp (line 67) says save_if_dirty returns true when the file is up to date afterwards. Its comparison takes no
  lock and can fall between a save thread's write of an older list and the store of its generation
  (ConfigStore.OlderListUnderComparison); ConfigStore.SaveMakesCurrent gives the exact condition.
- OutputController.hpp says a reconnect thread captures the output it was spawned for. It captures the output that is
  there when it first runs, which stop() and start() may have replaced (OutputLeak.LateCaptureLeaks).

## Model

| member | source | states |
|---|---|---|
| `SessionAdoption.EndedAtMostOnce` | src/core/StreamlabsTikTok.cpp:680-794 | in every state any interleaving of UI, worker and shutdown steps can reach, an id is confirmed ended at most once; the queued jobs, the running request, the UI call and the shutdown's own list together hold at most one end of it, and none of an id already confirmed |
| `SessionAdoption.ShutdownLosesNothing` | src/pipeline/StreamlabsClient.cpp:250-289 | when the shutdown call is done, every id a start reply ever delivered was confirmed ended or its final end attempt was made without success; none is still open, queued, claimed, or only cut off by the cancelled worker |
| `SessionAdoption.AdoptedIsOpen` | src/pipeline/OutputController.cpp:1313-1336 | a start result is adopted only if at that moment it is the book's open session, owned by the adopting endpoint, not adopted before and not ended |
| `SessionAdoption.LateResultNeverAdopted` | src/pipeline/OutputController.cpp:1283-1336 | once a request was stopped or replaced by a newer one, no later state of any run adopts its result |
| `SessionAdoption.AdoptedStaysOpen` | src/pipeline/StreamlabsClient.cpp:603-614 | an adopted session stops being the open one only by a stop or a new start of its own endpoint or by the shutdown; releasing a rejected result never closes it |
| `SessionAdoption.RunPreserves` | src/pipeline/StreamlabsClient.cpp:208-289 | the invariant behind these results (one claim per id, every delivered id tracked, requests and posts matched) holds along every run |
| `SessionBook.HandedOutOnce` | src/core/StreamlabsTikTok.cpp:771-794 | an id handed to the shutdown is refused to every later claim, and a second shutdown gets nothing |
| `SessionBook.ClaimExclusive` | src/core/StreamlabsTikTok.cpp:748-769 | a claimed end cannot be claimed again until it is finished, and after that exactly when the server did not confirm it |
| `SessionBook.StreamlabsSessionBook.ClaimStart` | src/core/StreamlabsTikTok.cpp:705-716 | a start closes the endpoint's own session (to be ended as stale) or reports whose session is in the way; the whole new book and the claim are fixed |
| `SessionBook.StreamlabsSessionBook.Started` | src/core/StreamlabsTikTok.cpp:718-723 | a started session becomes the open one with its owner, exactly |
| `SessionBook.StreamlabsSessionBook.Release` | src/core/StreamlabsTikTok.cpp:725-736 | stop claims the end of the endpoint's own open session and of no other |
| `SessionBook.StreamlabsSessionBook.Unadopted` | src/core/StreamlabsTikTok.cpp:738-746 | an unadopted id is claimed by that id only, closing it only if it is the open one |
| `SessionBook.StreamlabsSessionBook.Begin` | src/core/StreamlabsTikTok.cpp:748-755 | an end is claimed exactly when nobody claimed or confirmed it before |
| `SessionBook.StreamlabsSessionBook.Finish` | src/core/StreamlabsTikTok.cpp:757-769 | each outcome moves the id to ended, to retry, or (cancelled) leaves it claimed, exactly |
| `SessionBook.StreamlabsSessionBook.Erase` | src/core/StreamlabsTikTok.cpp:688-696 | in-place removal of every occurrence keeps the order of the rest |
| `SessionBook.StreamlabsSessionBook.Take` | src/core/StreamlabsTikTok.cpp:771-794 | the shutdown takes retry, then claimed, then open ids, each once and none ended, and leaves the book closed |
| `SessionCalls.ReleaseAfterStart` | src/core/StreamlabsTikTok.cpp:718-736 | after a start, releasing for an endpoint answers the started id exactly if that endpoint owns it, whatever its name; then nothing is open, the id is claimed (a further claim is refused) and nothing else changed; otherwise the book is unchanged |
| `SessionCalls.StopEndsSession` | src/pipeline/StreamlabsClient.cpp:642-653 | from every reachable state with an adopted session open and no shutdown, stop and release of its owner leave no session open and queue exactly one end of that id |
| `SessionCalls.StartOpensSession` | src/pipeline/StreamlabsClient.cpp:525-615 | from every reachable state with an idle worker and no session of another endpoint in the way, a run exists in which the fresh id of the start reply becomes the open session, adopted by its endpoint and in the session file, after the endpoint's own old session and the one in the file were ended or are claimed |
| `SessionCalls.StaleEnds` | src/pipeline/StreamlabsClient.cpp:560-590 | before a start the worker can end every stale session that nobody else is ending or has ended |
| `SessionCalls.QueuedEndIsSent` | src/pipeline/StreamlabsClient.cpp:441-485 | the worker can take the end at the head of its queue and send it; each of the three answers moves the id to confirmed, to free for another try, or to retry, exactly |
| `SessionCalls.BusyStartFails` | src/pipeline/StreamlabsClient.cpp:525-560 | while another endpoint's session is open a start fails, at once or when its job runs, and leaves the book alone |
| `SessionCalls.FailureArrives` | src/pipeline/OutputController.cpp:1313-1336 | a failed start arriving for the request the endpoint waits for leaves it FailedHard; one that comes late changes no controller |
| `SessionCalls.RejectedSessionEnds` | src/pipeline/StreamlabsClient.cpp:603-614 | a session that arrives for nobody is claimed and closed if it is still open, and otherwise the book is left alone |
| `SessionCalls.FailedOutputEndsSession` | src/pipeline/OutputController.cpp:1313-1350 | a session whose output cannot start is adopted and given back at once: the endpoint is FailedHard and an end of the id is about to be queued |
| `SessionCalls.ShutdownGoesOn` | src/pipeline/StreamlabsClient.cpp:250-289 | the shutdown can send an end for every id it was handed, one after the other, whatever the answers are |
| `OutputOrder.NeverStartsDeadOutput` | src/pipeline/OutputController.cpp:1047-1267 | no interleaving calls obs_output_start on an output that was force-stopped or released, from start() or from any reconnect thread, with late capture and reused addresses allowed |
| `OutputOrder.ComparisonMeansSameOutput` | src/pipeline/OutputController.cpp:1049-1068 | comparing m_output with the captured pointer is true exactly for the same output although freed addresses are reused |
| `OutputOrder.JoinedBeforeForceStop` | src/pipeline/OutputController.cpp:722-751 | before the reaper force-stops or releases an output every thread that captured it has finished |
| `OutputOrder.SpawnReplacesNothing` | src/pipeline/OutputController.cpp:1018-1039 | a new reconnect thread never overwrites an unjoined one |
| `OutputOrder.StoppedStaysIdle` | src/pipeline/OutputController.cpp:610-752 | from the return of stop() to the next start() the controller is Idle without output and canvas, whatever the other threads do |
| `OutputOrder.KeepsOrder` | src/pipeline/ControllerReaper.cpp:30-115 | every step of every thread keeps the ordering invariant of queue, threads and outputs |
| `OutputOrder.RunKeepsOrder` | src/pipeline/ControllerReaper.cpp:30-115 | ... and so does every run |
| `OutputStops.FinalStopStays` | src/pipeline/OutputController.cpp:959-1018 | over disciplined runs: a hard failure leaves FailedHard, an orderly end or any end during the shutdown leaves Idle, and until the next start() or detach the controller stays so and no thread is created |
| `OutputStops.LostConnectionSpawnsOne` | src/pipeline/OutputController.cpp:1018-1045 | after a retryable stop, however the other threads run meanwhile, the signal thread's last step leaves Reconnecting with exactly one new thread, the one in the field, on the session's output; Idle and no new thread if the shutdown came first |
| `OutputStops.HandlerNeverWaits` | src/pipeline/OutputController.cpp:1018-1039 | the steps up to that last one are possible at once: the thread that is joined is over |
| `OutputStops.GiveUpStays` | src/pipeline/OutputController.cpp:1070-1267 | a reconnect thread that gives up leaves its own session FailedHard until the next start() or detach; a thread of an older session changes nothing |
| `OutputStops.FailureStaysUnderBoth` | src/pipeline/OutputController.cpp:959-980 | a hard failure stays under both assumptions below; without either of them some run goes Live again with no start() or stop() in between |
| `OutputCalls.StartGoesLive` | src/pipeline/OutputController.cpp:393-599 | from every reachable state outside a session, start() with nothing failing goes Live with a complete session on its canvas |
| `OutputCalls.StartFailsHard` | src/pipeline/OutputController.cpp:414-560 | each failure in start() ends it at once: FailedHard, and what it held itself is released |
| `OutputCalls.AttemptGoesLive` | src/pipeline/OutputController.cpp:1097-1234 | an attempt of the session's reconnect thread with nothing failing brings the session back Live with new encoders on the canvas resolved now |
| `OutputCalls.StopHandsOver` | src/pipeline/OutputController.cpp:610-752 | when stop() returns, the controller is Idle and empty, and all it held, with its reconnect thread, is in one job at the end of the reaper's line |
| `OutputCalls.StopOfNothing` | src/pipeline/OutputController.cpp:610-640 | stop() of an idle and empty controller changes nothing but the stop flags |
| `OutputCalls.HeadJobRuns` | src/pipeline/OutputController.cpp:722-751 | once its thread is over the head job can run to its end by reaper steps alone, and then holds nothing |
| `OutputShutdown.JobsCanFinish` | src/pipeline/ControllerReaper.cpp:30-115 | the reaper is never stuck: from every state of a disciplined run with no stop signal in its handler, the reconnect threads and the reaper can finish all queued jobs with nobody else's help |
| `OutputShutdown.ShutdownCanFinish` | src/pipeline/OutputController.cpp:757-874 | from every such state between two UI calls the shutdown call can come to its end, and then everything ever created is released |
| `OutputShutdown.ClosedStays` | src/pipeline/OutputController.cpp:757-874 | once the shutdown call has emptied the controller, in every continuation it is Idle, empty and not connected, and no thread is created |
| `OutputShutdown.EveryStepOut` | src/pipeline/OutputController.cpp:1047-1267 | whatever a reconnect thread does after it was told to stop, or after its output was detached, it makes at most three more steps, takes nothing from the session and spawns nothing |
| `OutputShutdown.StoppedThreadEnds` | src/pipeline/OutputController.cpp:1047-1267 | such a thread can always end by steps of its own |
| `OutputShutdown.ClaimStopsThreads` | src/pipeline/OutputController.cpp:757-790 | the shutdown's claim tells every thread to stop |
| `OutputOwnership.OneHolder` | src/pipeline/OutputController.cpp:414-599 | over disciplined runs (both assumptions below) every output, service, encoder and canvas reference not yet released sits in exactly one slot of one owner: fields, a thread's locals or a queued job |
| `OutputOwnership.ReleasedOnce` | src/pipeline/OutputController.cpp:722-751 | a released reference stays released in every continuation and no owner holds it, so it is released exactly once |
| `OutputOwnership.NothingLeaks` | src/pipeline/OutputController.cpp:757-874 | once the shutdown job is done everything ever created has been released |
| `OutputTeardown.CanvasGoesLast` | src/pipeline/OutputController.cpp:722-751 | over disciplined runs: whatever a teardown job holds at some moment, in every later state in which its canvas was released its encoders, output and service were released, too |
| `OutputTeardown.ForcedBeforeRelease` | src/pipeline/OutputController.cpp:722-751 | ... and the step that releases any of it comes after the force-stop of the job's output |
| `OutputOwnership.Conserves` | src/pipeline/OutputController.cpp:1097-1234 | every disciplined step of every thread keeps the ownership invariant, canvas swap and discard included, and never forgets a reference |
| `OutputLeak.BothAssumptionsNeeded` | src/pipeline/OutputController.cpp:414-431 | some run loses an encoder reference exactly when one of the two assumptions is dropped |
| `OutputLeak.StartWhileReconnectingLeaks` | src/pipeline/OutputController.cpp:393-431 | concrete run: start() between the disconnect and the spawn of the reconnect thread; both publish and an encoder pair is lost |
| `OutputLeak.LateCaptureLeaks` | src/pipeline/OutputController.cpp:1039-1055 | concrete run: stop() and start() between a thread's spawn and its capture; the old thread works on the new output and an encoder pair is lost |
| `OutputLeak.NothingLostUnderBoth` | src/pipeline/OutputController.cpp:414-599 | under both assumptions no reachable state has a reference that is unreleased and held by nobody |
| `OutputAttempts.AtMostTenReconnects` | src/pipeline/OutputController.cpp:1070-1096 | with the counter read, loaded and stored outside the lock, in any disciplined interleaving in which no start() falls between a thread's session check and its store, the reconnect threads of one session start the output at most ten times |
| `OutputAttempts.LaunchIsOfThisSession` | src/pipeline/OutputController.cpp:1103-1108 | a reconnect call for the session's output is counted in that session, not in an older one, also in runs without that condition on start() |
| `OutputAttempts.KeepsSound` | src/pipeline/OutputController.cpp:1070-1240 | every step keeps running attempts labelled with their session and, while no start() falls into a count, distinct, below the limit and newer than all used ones |
| `OutputLostCount.BoundNeedsNoCount` | src/pipeline/OutputController.cpp:1092-1096 | some run exceeds ten starts exactly if start() may fall between a thread's session check and its store; asking only that no increment is half done is not enough |
| `OutputLostCount.LostCount` | src/pipeline/OutputController.cpp:1092-1096 | concrete run with eighteen starts in one session: a thread abandoned by stop() stores an old count after nine attempts of the new session |
| `AlertHistory.WindowIsWholeHistory` | src/core/AlertPolicy.cpp:138-157 | the trimmed window's deltas equal those against the latest sample at or before now minus the window (else the first) of the whole history since the last reset, and the unsigned subtractions never wrap |
| `AlertHistory.DropRaised` | src/core/AlertPolicy.cpp:138-163 | an inactive drop alert is raised exactly when the condition holds over the whole history |
| `AlertHistory.LowRaised` | src/core/AlertPolicy.cpp:165-181 | an inactive low-bitrate alert is raised exactly after an unbroken low run of at least the hold time |
| `AlertHistory.AlertCleared` | src/core/AlertPolicy.cpp:77-93 | a raised drop or low alert clears exactly on Idle or when its condition was false at every update over the last clear_hold_ms |
| `AlertHistory.TrackerMatchesHistory` | src/core/AlertPolicy.cpp:95-182 | after every valid input history all trackers (live since, low since, false since, window) are what the history says |
| `AlertStates.StateAlertsMean` | src/core/AlertPolicy.cpp:95-135 | over every valid history the failed alert is active exactly if some update was FailedHard and none since was Idle, or Live with the Live run at least clear_hold_ms old; the reconnecting alert exactly if some update was Reconnecting and none since was Idle, FailedHard or Live for that long |
| `AlertStates.EdgesAreOfUpdate` | src/core/AlertPolicy.cpp:58-75 | every edge an update reports is of its own endpoint, with the name and state just given |
| `AlertPolicy.RunRebuildsAlerts` | src/core/AlertPolicy.cpp:58-203 | over any run of updates and removals, replaying the emitted edges (raise and clear alternating per endpoint and reason) rebuilds exactly the active alerts |
| `AlertPolicy.UpdateFaithful` | src/core/AlertPolicy.cpp:95-182 | one update's edges alternate on the active alerts and turn them into those afterwards |
| `AlertPolicy.RemovalFaithful` | src/core/AlertPolicy.cpp:184-203 | removing an endpoint emits exactly the clears of its active alerts |
| `AlertPolicy.Policy.Update` | src/core/AlertPolicy.cpp:95-182 | the in-place update equals the step function, leaves other endpoints alone, and its edges replay to the new alerts |
| `AlertPolicy.Policy.RetainOnly` | src/core/AlertPolicy.cpp:184-203 | exactly the kept endpoints remain and the edges are the clears of the others' alerts |
| `AlertPolicy.Policy.Slide` | src/core/AlertPolicy.cpp:138-148 | the push, the reset on a backwards counter and the trim loop compute the window function |
| `AlertPolicy.Policy.UpdateTracker` | src/core/AlertPolicy.cpp:95-182 | Idle, Live entry, state alerts and both checks in the source's order compute the step function |
| `AlertPolicy.Policy.CheckDrops` | src/core/AlertPolicy.cpp:138-163 | the drop check raises or holds clear as the function of window and thresholds says |
| `AlertPolicy.Policy.CheckBitrate` | src/core/AlertPolicy.cpp:165-181 | the bitrate check as the function says |
| `JsonComplete.AcceptsExactlyGrammar` | src/core/StreamlabsTikTok.cpp:36-44 | the check accepts a byte string exactly when it is one object of the RFC 8259 grammar (sections 2 and 4 to 7), nested at most 64 deep, raw member names distinct per object, valid UTF-8, no NUL or unpaired surrogate escape, numbers passing the range check |
| `JsonComplete.Unambiguous` | src/core/StreamlabsTikTok.cpp:208-283 | an accepted text has exactly one such tree |
| `JsonProof.ValueSound` | src/core/StreamlabsTikTok.cpp:208-283 | whatever value is read is the text of a good tree within the depth limit |
| `JsonComplete.ValueComplete` | src/core/StreamlabsTikTok.cpp:208-283 | the text of every good tree within the depth limit is read back as that tree |
| `JsonProof.MemberNames` | src/core/StreamlabsTikTok.cpp:223-233 | the member names read in one object differ as spelled |
| `JsonNumber.FitsExactlyInt64` | src/core/StreamlabsTikTok.cpp:194-203 | for a JSON integer the 19-digit text comparison accepts exactly -2^63 to 2^63-1 |
| `JsonNumber.LexIsNumeric` | src/core/StreamlabsTikTok.cpp:197-201 | digit strings of one length compare as their numbers |
| `Utf8.ReadsExactlyRfc3629` | src/core/StreamlabsTikTok.cpp:86-115 | the byte sequences read are exactly UTF8-2, UTF8-3 and UTF8-4 of RFC 3629, section 4 |
| `Utf8.ReadIsEncoded` | src/core/StreamlabsTikTok.cpp:86-115 | a sequence that is read is the encoding of the scalar value read |
| `Utf8.EncodedIsRead` | src/core/StreamlabsTikTok.cpp:86-115 | the encoding of every scalar value beyond ASCII is read back, in any surrounding text |
| `JsonAlphabet.Characters` | src/core/StreamlabsTikTok.cpp:36-59 | structural characters, quotes and literals of the grammar are those RFC 8259 writes |
| `JsonAlphabet.ShortEscapes` | src/core/StreamlabsTikTok.cpp:132-140 | the letters after a backslash are the eight of section 7 of RFC 8259 |
| `JsonAlphabet.SurrogateDigits` | src/core/StreamlabsTikTok.cpp:141-155 | the escapes taken as the first and second half of a pair are D8xx to DBxx and DCxx to DFxx |
| `JsonAlphabet.RealsAreMarked` | src/core/StreamlabsTikTok.cpp:167-194 | a number is range-checked as a real exactly if its text has a point or an e, else as a 64-bit integer |
| `JsonAlphabet.Rfc3629Examples` | src/core/StreamlabsTikTok.cpp:86-115 | the examples of section 7 of RFC 3629 come out |
| `JsonSyntax.JsonSyntax.ObjectDocument` | src/core/StreamlabsTikTok.cpp:36-44 | the cursor program accepts exactly the object documents |
| `JsonSyntax.JsonSyntax.Value` | src/core/StreamlabsTikTok.cpp:208-283 | the recursive value reader accepts as specified, moves the cursor to the end of the value, and terminates |
| `JsonSyntax.JsonSyntax.MemberList` | src/core/StreamlabsTikTok.cpp:223-250 | the member loop with its list of seen keys reads exactly the members |
| `JsonSyntax.JsonSyntax.ItemList` | src/core/StreamlabsTikTok.cpp:259-272 | the item loop reads exactly the items |
| `JsonSyntax.JsonSyntax.String` | src/core/StreamlabsTikTok.cpp:116-158 | the string loop accepts exactly the strings |
| `JsonSyntax.JsonSyntax.Escape` | src/core/StreamlabsTikTok.cpp:132-155 | short, hex and surrogate-pair escapes as specified |
| `JsonSyntax.JsonSyntax.UnicodeEscape` | src/core/StreamlabsTikTok.cpp:73-85 | four hex digits and their value, or refusal |
| `JsonSyntax.JsonSyntax.Utf8Tail` | src/core/StreamlabsTikTok.cpp:86-115 | the continuation loop accepts exactly the specified sequences |
| `JsonSyntax.JsonSyntax.Number` | src/core/StreamlabsTikTok.cpp:167-207 | spelling and range test together accept exactly the specified numbers |
| `JsonSyntax.JsonSyntax.SkipBlanks` | src/core/StreamlabsTikTok.cpp:47-52 | the cursor stops at the first byte that is not whitespace |
| `JsonSyntax.JsonSyntax.Literal` | src/core/StreamlabsTikTok.cpp:53-59 | a literal is accepted exactly where it stands |
| `VerticalProof.HandedOverOnce` | src/pipeline/VerticalRecorder.cpp:218-325 | every reference ever created is in the current session or was handed to the reaper, in one place and once; this covers the canvas of a failed first try |
| `VerticalProof.StartBalances` | src/pipeline/VerticalEncodeSession.cpp:99-114 | a start that succeeds owns the canvas it acquired also when its first try failed; one that fails gave it to the reaper |
| `VerticalProof.LateFinishDoesNothing` | src/pipeline/VerticalRecorder.cpp:445-460 | a finish of a session that is over changes nothing, however long it waited in the UI queue |
| `VerticalProof.AtMostOneRestart` | src/pipeline/VerticalRecorder.cpp:470-512 | in every stretch of a run the restarts posted are at most one more than the starts by hand that succeed in it; so between two of those at most one is posted, whatever errors follow |
| `VerticalProof.StoppedRestartStartsNothing` | src/pipeline/VerticalRecorder.cpp:514-530 | after any stop, forced stop or shutdown between error and restart, the posted restart starts nothing |
| `VerticalProof.MainStoppingCancelsItsOwn` | src/pipeline/VerticalRecorder.cpp:361-374 | when the main output stops, a restart anywhere in the post queue stays pending exactly if its session was not started with the main output and no session started with it runs, and then nothing changes; otherwise it starts nothing whenever it runs |
| `VerticalProof.RestartsAreEarned` | src/pipeline/VerticalRecorder.cpp:465-502 | over every run the restarts posted are exactly as many as the encode errors of a running NVENC session that was not itself a restart, and each is with x264 |
| `VerticalProof.ShutdownIsFinal` | src/pipeline/VerticalRecorder.cpp:399-418 | after shutdown nothing runs or is held again |
| `VerticalProof.ClipBelongsToSession` | src/pipeline/VerticalReplayBuffer.cpp:247-286 | a pending clip was asked for in the session that runs |
| `VerticalProof.RunKeeps` | src/pipeline/VerticalReplayBuffer.cpp:103-237 | the machine's invariant holds along every run |
| `VerticalOutput.VerticalOutput.Start` | src/pipeline/VerticalRecorder.cpp:218-274 | the in-place start equals the specified step for every outcome of folder, canvas and encoders |
| `VerticalOutput.VerticalOutput.Try` | src/pipeline/VerticalRecorder.cpp:276-324 | one try creates, publishes or releases exactly the specified handles |
| `VerticalOutput.VerticalOutput.StartWithFallback` | src/pipeline/VerticalEncodeSession.cpp:99-114 | the second try with the fallback encoder happens exactly when specified |
| `VerticalOutput.VerticalOutput.OnFinish` | src/pipeline/VerticalRecorder.cpp:445-512 | the whole new state after a posted finish |
| `VerticalOutput.VerticalOutput.OnStop` | src/pipeline/VerticalRecorder.cpp:326-345 | the whole new state after stop |
| `VerticalOutput.VerticalOutput.OnStopNow` | src/pipeline/VerticalRecorder.cpp:376-397 | the whole new state after a forced stop |
| `VerticalOutput.VerticalOutput.OnMainStopping` | src/pipeline/VerticalRecorder.cpp:361-374 | the whole new state when the main output stops |
| `VerticalOutput.VerticalOutput.OnShutdown` | src/pipeline/VerticalRecorder.cpp:399-418 | the whole new state after shutdown |
| `VerticalOutput.VerticalOutput.OnRestart` | src/pipeline/VerticalRecorder.cpp:514-530 | a posted restart starts or is refused as specified |
| `VerticalOutput.VerticalOutput.TakeSession` | src/pipeline/VerticalReplayBuffer.cpp:349-358 | the handles leave the session as one piece |
| `VerticalOutput.VerticalOutput.AfterError` | src/core/VerticalRecord.cpp:289-296 | an encode error of a session that is not a restart is answered with the fallback encoder, anything else with none |
| `VerticalOutput.VerticalOutput.Choose` | src/core/VerticalRecord.cpp:298-315 | the first registered NVENC encoder, else x264 |
| `VerticalOutput.VerticalOutput.Fallback` | src/core/VerticalRecord.cpp:276-287 | a failed NVENC encoder falls back past all NVENC encoders |
| `VerticalCalls.StartsExactly` | src/pipeline/VerticalRecorder.cpp:218-324 | from every reachable state a start succeeds exactly if: not shut down, idle, folder, canvas and video are there, and the first attempt has its three handles and starts, or the encoder is an NVENC one and the second attempt does; then a new session runs with the encoder asked for, or x264 if that failed, and a failed start leaves the machine as it was |
| `VerticalCalls.PendingRestartStarts` | src/pipeline/VerticalRecorder.cpp:514-530 | a pending restart at the head of the queue starts x264 exactly if the machine is idle and not shut down, the main output active if it was linked, and the first attempt works; tried and failed, it is shown as an error |
| `VerticalCalls.EncoderTable` | src/core/VerticalRecord.cpp:276-315 | the first registered NVENC encoder with CQP 20, else x264 with CRF 20; a failed NVENC encoder is replaced by x264, any other by nothing |
| `VerticalCalls.FinishEnds` | src/pipeline/VerticalRecorder.cpp:445-512 | the finish of the session that runs or stops ends it, hands over its handles in one piece, and posts a restart exactly after an encode error of a running NVENC session that was none itself; else any code but success is shown as an error |
| `VerticalCalls.StopEnds` | src/pipeline/VerticalRecorder.cpp:326-345 | a stop asks an active output to stop and ends an inactive session at once, cancels the restart, and changes nothing else |
| `VerticalCalls.StoppingIsFinished` | src/pipeline/VerticalRecorder.cpp:435-512 | the stop signal of a session that is stopping ends it without a restart, whatever its code |
| `VerticalCalls.ForcedStopEnds` | src/pipeline/VerticalRecorder.cpp:376-418 | a forced stop and the shutdown end whatever runs, at once |
| `VerticalCalls.MainStoppingTakesAlong` | src/pipeline/VerticalRecorder.cpp:361-374 | the main output stopping stops a session started with it and leaves one started by hand |
| `VerticalCalls.ClipIsPending` | src/pipeline/VerticalReplayBuffer.cpp:247-286 | a clip asked for stays pending through every run until it is saved or its session is over |
| `Sha256.StreamlabsSha256` | src/core/StreamlabsLogin.cpp:168-200 | the blocks fed to the compression are the padded message of section 5.1.1 of FIPS 180-4 for every length (one and two tail blocks), and the 32 octets returned are the hash of section 6.2 |
| `Sha256.Sha256Block` | src/core/StreamlabsLogin.cpp:41-77 | the in-place compression computes the section 6.2 function of the old hash and the block |
| `Sha256.FillSchedule` | src/core/StreamlabsLogin.cpp:43-51 | the schedule array holds the recursive message schedule |
| `Sha256.Mix` | src/core/StreamlabsLogin.cpp:52-68 | 64 rounds with the variables shifted in place are the 64 rounds of the standard |
| `Sha256.BuildTail` | src/core/StreamlabsLogin.cpp:178-187 | the tail buffer is the rest of the message with its padding, both lengths |
| `Sha256.ZeroCountLeast` | src/core/StreamlabsLogin.cpp:178-187 | no smaller number of zero octets would fill the block |
| `Sha256.WrapKeepsOctets` | src/core/StreamlabsLogin.cpp:185-187 | the wrap of the 64-bit length at 2^64 does not change the octets written |
| `Sha256Known.ConstantsAreRoots` | src/core/StreamlabsLogin.cpp:24-34 | the round constants are the first 32 bits of the fractional parts of the cube roots of the first 64 primes, the initial hash those of the square roots of the first 8 |
| `Sha256Known.LengthIsBigEndian` | src/core/StreamlabsLogin.cpp:185-187 | the last eight octets are the length in bits, big-endian |
| `Sha256Known.DigestFromTheFront` | src/core/StreamlabsLogin.cpp:168-200 | the blocks are compressed from the first to the last |
| `Sha256Known.AbcDigest` | tests/test_streamlabs_login.cpp:70-71 | the digest of "abc" is the one the program's test asks for |
| `Codecs.DecodeInvertsEncode` | src/core/StreamlabsTikTok.cpp:423-440 | percent decoding inverts URL encoding on every byte string (sections 2.1 and 2.3 of RFC 3986) |
| `Codecs.EncodingIsSafe` | src/core/StreamlabsTikTok.cpp:423-440 | the encoding consists of unreserved characters and percent signs |
| `Codecs.UrlEncode` | src/core/StreamlabsTikTok.cpp:423-440 | the loop computes the encoding |
| `Codecs.PercentDecode` | src/core/StreamlabsLogin.cpp:111-128 | the loop decodes as specified and refuses exactly broken escapes |
| `Codecs.UnbaseInverts` | src/core/StreamlabsLogin.cpp:202-228 | a decoder for section 5 of RFC 4648 without padding inverts the encoding on every byte string |
| `Codecs.BaseInverts` | src/core/StreamlabsLogin.cpp:202-228 | every text the decoder accepts is the one encoding of what it yields |
| `Codecs.LengthIsCeiling` | src/core/StreamlabsLogin.cpp:202-228 | the output length is the ceiling of 4n/3 |
| `Codecs.Base64Url` | src/core/StreamlabsLogin.cpp:202-228 | the loop with its one- and two-byte tails computes the encoding |
| `CodecTables.DecodesExactly` | src/core/StreamlabsLogin.cpp:111-128 | a text decodes to given bytes exactly if it is a list of plain characters, plus signs and percent escapes that spell them |
| `CodecTables.UnreservedExactly` | src/core/StreamlabsTikTok.cpp:423-440 | a byte is left as it is exactly if it is a letter, a digit or one of the four marks of section 2.3 of RFC 3986 |
| `CodecTables.Base64Alphabet` | src/core/StreamlabsLogin.cpp:202-228 | the letters are those of table 2 of RFC 4648 |
| `LoginCallback.ReadCallback` | src/pipeline/StreamlabsLoginFlow.cpp:100-127 | without cancel, timeout and socket error the verdict is the parser's on the first at most 8192 bytes, however they are split into chunks; a cut read answers that or Incomplete |
| `LoginCallback.VerdictStays` | src/core/StreamlabsLogin.cpp:259-331 | a verdict reached with CRLF present is unchanged by any extension |
| `LoginCallback.QueryExactly` | src/core/StreamlabsLogin.cpp:271-287 | a query is taken exactly from GET, a space, an absolute path, a question mark, the query without fragment, a space and an HTTP version |
| `LoginCallback.ParseCallback` | src/core/StreamlabsLogin.cpp:259-331 | the parser computes the specified verdict of every request text |
| `LoginCallback.ParseQuery` | src/core/StreamlabsLogin.cpp:289-330 | the loop over pairs keeps the last values of the names that matter and decides as specified |
| `LoginVerdict.CodeExactly` | src/core/StreamlabsLogin.cpp:259-331 | the verdict on a request text is Code(c) exactly if its first line asks, by GET with an absolute path and HTTP, with fields name=value joined by ampersands in which every success and code value decodes, the last success value decodes to "true" and the last code value to c, 1 to 2048 visible characters |
| `LoginVerdict.FailedExactly` | src/core/StreamlabsLogin.cpp:289-331 | it is Failed exactly if the first line asks with a success or code field and the fields grant no code |
| `LoginVerdict.IncompleteExactly` | src/core/StreamlabsLogin.cpp:259-271 | it is Incomplete exactly if the text is shorter than the limit and has no CRLF |
| `LoginVerdict.VerdictOnFields` | src/core/StreamlabsLogin.cpp:289-331 | on fields it is Code(c) exactly if they grant c, and NotCallback exactly if none is named success or code |
| `LoginVerdict.QueryHasFields` | src/core/StreamlabsLogin.cpp:289-305 | every query is such a list of fields |
| `LoginVerdict.RedirectIsAnswered` | src/core/StreamlabsLogin.cpp:259-331 | the redirect with success=true and the URL encoding of any code of up to 2048 visible characters is answered with that code, whatever path and headers surround it |
| `ConfigStore.WrittenGenNamesDisk` | src/core/ConfigStore.cpp:129-218 | in every interleaving of schedule_save, save, save_if_dirty and the save thread, each write in two halves, whenever m_mutex is free m_written_gen names the generation on disk |
| `ConfigStore.LastListIsOnDisk` | src/core/ConfigStore.cpp:172-218 | after the join the disk holds the last scheduled list if the last write of it did not fail |
| `ConfigStore.SaveMakesCurrent` | src/core/ConfigStore.cpp:146-157 | after save_if_dirty, unless its write failed, the file is current exactly if the unlocked comparison did not find the generations equal while an older snapshot was between the two halves of its write; a free m_mutex at the comparison is enough |
| `ConfigStore.OlderListUnderComparison` | src/core/ConfigStore.cpp:146-208 | concrete run: save_if_dirty finds nothing to do and returns true with an older list on disk |
| `ConfigStore.OlderSnapshotStaysPending` | src/core/ConfigStore.cpp:172-218 | a snapshot stored over a newer save leaves the file behind exactly when it is older, and then the newest list is still pending |
| `ConfigStore.ConfigStore.ScheduleSave` | src/core/ConfigStore.cpp:159-170 | the whole new state after a scheduled list |
| `ConfigStore.ConfigStore.SaveNow` | src/core/ConfigStore.cpp:129-144 | the whole new state after a synchronous save, both halves of the write |
| `ConfigStore.ConfigStore.SaveWhenDirty` | src/core/ConfigStore.cpp:146-157 | the whole new state after a save of a dirty store, and that true is answered exactly if nothing was to be done or the write succeeded |
| `ConfigStore.ConfigStore.TakeSnapshot` | src/core/ConfigStore.cpp:176-201 | the debounce section takes the pending list with its generation |
| `ConfigStore.ConfigStore.WriteTaken` | src/core/ConfigStore.cpp:203-208 | the write section puts the taken snapshot on disk |
| `ConfigStore.ConfigStore.FinalFlush` | src/core/ConfigStore.cpp:211-217 | the last flush writes what is still pending |
| `ConfigRuns.PollTakesDue` | src/core/ConfigStore.cpp:172-201 | in every interleaving a poll takes a snapshot exactly if a request made since the last snapshot is 500 ms old, and it takes the list scheduled last |
| `ConfigRuns.FileEndsNewest` | src/core/ConfigStore.cpp:129-218 | if no write failed, the file holds the list scheduled last once the save thread has ended, whatever was interleaved |
| `ConfigRuns.EndWritesPending` | src/core/ConfigStore.cpp:36-49 | from an idle save thread the destructor's stop leads to its end, and what is pending is written on the way |
| `ConfigRuns.SaveIfDirtyIsTheCall` | src/core/ConfigStore.cpp:146-157 | save_if_dirty undisturbed is its comparison followed by the two halves of its write |
| `EncoderRecovery.FallbackExactly` | src/core/EncoderRecovery.cpp:12-85 | for every session history the fallback is on exactly when the history earned it (three blamed failures or one refused first start), never for an x264 endpoint, and the counters are what the history says |
| `EncoderRecovery.FallbackStays` | src/core/EncoderRecovery.cpp:12-85 | the fallback never turns off within a session |
| `EncoderRecovery.BackendIsConfiguredOrFallback` | src/core/EncoderRecovery.cpp:82-85 | the backend used is x264 only as configured or as the earned fallback |
| `EncoderRecovery.Starter.HandleStop` | src/pipeline/OutputController.cpp:997-1018 | the recovery part of a stop signal: first start, stable live time and stop code change the state in this order |
| `EncoderRecovery.Starter.OnStopCode` | src/core/EncoderRecovery.cpp:22-30 | the whole new recovery state after a stop code, and whether it switched the fallback on |
| `EncoderRecovery.Starter.Start` | src/pipeline/OutputController.cpp:508-557 | start() succeeds exactly in three ways: first try; second encoder pair after the first video encoder could not be created; second pair and second start after the encoder refused the first. It never creates more than two pairs nor starts more than twice, and its fallback and counters are fixed |
| `EncoderRecovery.Starter.CreateStartEncoders` | src/pipeline/OutputController.cpp:562-599 | one retry, exactly when the video encoder failed and this call switched the fallback on; the answer, the creations and the new state are fixed |
| `EncoderRecovery.Starter.Reconnect` | src/pipeline/OutputController.cpp:1070-1267 | for every sequence of outcomes: it succeeds exactly if a turn within the limit restarts the output and no turn before left the loop; the attempts used, the starts made and the recovery state are fixed; every start is paid for by one attempt and the counter never passes ten |
| `EncoderRecovery.DelayTable` | src/pipeline/OutputController.cpp:96-106 | the delay before each attempt, and none after the tenth |
| `EncoderRecovery.SwitchIsTold` | src/core/EncoderRecovery.cpp:12-85 | each rule tells that it switched the fallback on exactly if the fallback was off before and is on after it |
| `LinkedStart.PlanSplitsInOrder` | src/core/LinkedStart.cpp:12-34 | with distinct ids the selection is split in order: an endpoint starts exactly when it is the first of the selection with its target and the main service does not have it, else it is skipped, as a duplicate of the main service if that has its target and of another endpoint if not |
| `LinkedStart.StartedShareNothing` | src/core/LinkedStart.cpp:22-34 | no two started endpoints share a target and none shares the main service's |
| `LinkedStart.SkippedAreCovered` | src/core/LinkedStart.cpp:22-34 | every skipped endpoint's target is covered by the main service or an earlier started endpoint |
| `LinkedStart.DuplicateMeans` | src/core/EndpointValidation.cpp:79-95 | the search answers no duplicate exactly when neither the main service nor any other endpoint has the target |
| `LinkedStart.Plan` | src/core/LinkedStart.cpp:22-34 | the loop computes the two lists |
| `LinkedStart.SelectLinked` | src/core/LinkedStart.cpp:12-20 | exactly the enabled linked endpoints, in order |
| `LinkedStart.Duplicate` | src/core/EndpointValidation.cpp:79-95 | the loop with its skips computes the search |
| `LinkedStart.NormalizeServerUrl` | src/core/EndpointValidation.cpp:35-69 | the in-place URL edits compute the comparison key |
| `LinkedStart.LowerAscii` | src/core/EndpointValidation.cpp:24-33 | each character is lowered in place |
| `LinkedTargets.KeyIsComputed` | src/core/EndpointValidation.cpp:14-69 | every server URL has exactly one key (trimmed, scheme and authority in lower case, no default port of its scheme, no slash at the end), and the program computes it |
| `LinkedTargets.SameTargetMeans` | src/core/EndpointValidation.cpp:71-77 | two targets are the same exactly if their trimmed stream keys are one non-empty text and their URLs have one key |
| `LinkedTargets.SelectionIs` | src/core/LinkedStart.cpp:12-20 | the selection is the endpoints at the positions that are enabled and linked, each once, in the order of the list |
| `PreviewEdit.UnitOfBoxPoint` | src/core/PreviewEdit.cpp:137-153 | the unit position of a box point is the one it was made from, for any rotation, scale sign and alignment |
| `PreviewEdit.BoxPointOfUnit` | src/core/PreviewEdit.cpp:137-153 | the box point at the unit position of a canvas point is that point; no unit position exactly for a degenerate box |
| `PreviewEdit.HitTopmost` | src/core/PreviewEdit.cpp:160-174 | the answer is the last item in the list whose box contains the point (visible, unlocked unless included, not degenerate), 0 if none |
| `PreviewBox.AnchorIsAtPosition` | src/core/PreviewEdit.cpp:29-43 | the alignment point of the box sits at the item's position, off by less than one along each side because sizes are truncated, and exactly if the side is an even whole number, or the point is at its near end, or at its far end and the side is whole |
| `PreviewBox.RotationOfAxes` | src/core/PreviewEdit.cpp:20-27 | the rotation takes the axes to (c, s) and (-s, c) and is linear |
| `PreviewBox.BoxOfScale` | src/core/PreviewEdit.cpp:128-135 | the box of an item without bounds is its scale times the pixels its crop leaves |
| `PreviewBox.NoUnitExactly` | src/core/PreviewEdit.cpp:46-50 | a point has no unit position exactly if a side is thinner than a millionth |
| `PreviewBox.ExtentHoldsBox` | src/core/PreviewEdit.cpp:55-66 | the extent holds every point of the box |
| `PreviewBox.ExtentTouchesBox` | src/core/PreviewEdit.cpp:55-66 | no smaller upright rectangle does: every side of it is touched by a point of the box |
| `PreviewResize.Resize` | src/core/PreviewEdit.cpp:274-320 | the opposite corner or edge midpoint stays, only position and the size-carrying field change, and the box gets the fitted size |
| `PreviewResize.SidesKeepSignAndMinimum` | src/core/PreviewEdit.cpp:87-92 | no side flips; a side is at least 8 exactly when the handle moves it or it was so before |
| `PreviewResize.EdgeLeavesThinSide` | src/core/PreviewEdit.cpp:300-305 | the documented minimum of every side fails for an edge handle: a box 100 by 4 dragged at its right edge stays 4 high |
| `PreviewResize.CornerKeepsAspect` | src/core/PreviewEdit.cpp:293-299 | a plain corner drag keeps the aspect ratio |
| `PreviewResize.HandleFollowsMouse` | src/core/PreviewEdit.cpp:280-291 | along the item's own axes the handle ends where the mouse is exactly when the box got the side asked for |
| `PreviewResize.FreeCornerLands` | src/core/PreviewEdit.cpp:300-305 | with shift a corner lands on the mouse exactly when the mouse is at least 8 away on the handle's own side on both axes |
| `PreviewResize.ResizeIsDetermined` | src/core/PreviewEdit.cpp:307-319 | anchor, size and unchanged fields leave one result |
| `PreviewResize.DragNowhere` | src/core/PreviewEdit.cpp:274-320 | a drag that does not move changes nothing, exactly when the sides the handle moves were not too small |
| `PreviewResize.LastPositionDecides` | src/core/PreviewEdit.cpp:274-320 | resizing to one mouse position and then to another equals resizing to the second at once |
| `PreviewDrag.CornerFollowsLargerPull` | src/core/PreviewEdit.cpp:293-299 | a plain corner drag scales both sides by one factor: the pull of larger size, or as little more as makes both sides 8 |
| `PreviewDrag.MovedSideIsEight` | src/core/PreviewEdit.cpp:87-92 | a side the handle moves is at least 8, the other is unchanged |
| `PreviewDrag.HandlePositions` | src/core/PreviewEdit.cpp:188-205 | the handles sit at the corners and the middles of the sides, the anchor is across |
| `PreviewMove.MovePosition` | src/core/PreviewEdit.cpp:232-270 | per axis the position is moved by the edge offset of least size within the threshold (the last one tried among equals), or by the centre offset if that is smaller, else not at all |
| `PreviewMove.BestSnap` | src/core/PreviewEdit.cpp:69-85 | the double loop finds the last of the least offsets within the threshold, and nothing exactly when there is none |
| `PreviewMove.MoveIsDetermined` | src/core/PreviewEdit.cpp:232-270 | the promise of the move admits one position |
| `PreviewMove.SnapIsLeast` | src/core/PreviewEdit.cpp:69-85 | what is taken is a candidate of least size within the threshold, edge or centre, and nothing moves exactly when there is none |
| `PreviewMove.MoveSettles` | src/core/PreviewEdit.cpp:232-270 | a snapped item stays: moving it by nothing from where it landed moves nothing, and it is never farther from the mouse than the threshold |
| `PreviewMove.MeasureExtent` | src/core/PreviewEdit.cpp:55-66 | the loop over the corners computes the extent |
| `PreviewMove.ExtentSpans` | src/core/PreviewEdit.cpp:55-66 | the extent contains every corner and each bound is reached |
| `PreviewDrag.EdgesAre` | src/core/PreviewEdit.cpp:232-255 | the lines a moved item snaps to are the near and far edges of the other visible items that have a box |
| `PreviewDrag.AxesMean` | src/core/PreviewEdit.cpp:232-270 | per axis: the item's own edges and middle, the canvas borders and centre, and those lines |

## Left out

- Qt widgets, docks, `plugin-main.cpp`, menus, dialogs and drawing: user interface and wiring.
- WinHTTP, Winsock, DPAPI, file moves, JSON writing and remuxing: each is the nondeterministic outcome of an event.
- libobs beyond the contract above, and `OwnedCanvas`, which drives libobs transitions.
- Lock order, and deadlocks on libobs's own per-signal mutexes.
- Liveness under a scheduler: bounds and timeouts are steps that may happen, not steps that must; what is proved is that a run to the end always exists (OutputShutdown, SessionCalls) and how many steps a stopped thread has left.
- Floating-point rounding in PreviewEdit and AlertPolicy (reals are used) and the values of cosine and sine; conversion of a box size outside the range of int.
- `strtod` and `isfinite`: the parameter `finite` of the JSON reader. The bit masks and shifts of UTF-8 and base64 are written with div and mod.
- 32-bit counters (generations, session numbers, crop arithmetic) are unbounded; the alert counters are unsigned and the proof shows that their subtraction never wraps.
- Session ids and endpoints are numbers compared for equality; `tok` stands for a controller with its fetch generation. The client-null branch of `request_provider_target` and the tokens' texts are not modelled.
- UI calls finish before the next UI call; the shutdown is a thread of its own, which allows more interleavings than the program has. A UI call that was about to queue an end when the shutdown began is dropped; the shutdown ends that id itself.
- stop()'s detach and enqueue are one event; after the reaper's own shutdown its jobs would run synchronously, which is not modelled separately. `retain_only` visits removed endpoints in any order.
- SessionBook.StreamlabsSessionBook and the other classes are single-threaded objects; the concurrent models use their specification functions as the locked sections.
- JsonSyntax.JsonSyntax.Value: the member loop, the item loop and the parts of a number are methods of their own; the program has them inline.
- Decoded duplicate JSON names: the code compares raw spelling only, and so does the model.
- OutputAttempts.AtMostTenReconnects: counts calls by the session in which the attempt passed the limit test; that this is the session of the output is OutputAttempts.LaunchIsOfThisSession. The load and the store of the counter are each one step; that the plain int is a data race in C++ is not modelled.
- SessionProtocol: a start is one event, which covers its state change, the generation of the request and the busy test, three sections in the program.
- OutputLifecycle: where a thread resolves its canvas, the guard before, the lookup and the re-check before giving up are one event. The provider path, in which the output is started later from the target callback, is in SessionProtocol only.
- OutputStops.FinalStopStays: over disciplined runs, as the other results of OutputOwnership; without the discipline it is false (OutputStops.FailureStaysUnderBoth).
- EncoderRecovery.Starter.Reconnect: one thread at a time; the concurrent bound is OutputAttempts.AtMostTenReconnects.
- ConfigStore.ConfigStore: its methods are the calls with nobody between the two halves of a write; interleaved halves are events of the same module. save is given the last scheduled list, as its callers do.
- LinkedStart.NormalizeServerUrl: used only as a comparison key; it is not idempotent (a repeated default port loses one copy per call), and nothing of the kind is claimed.
- `hit_handle`, `nudge`, cursors and the view mapping of PreviewEdit: easy members.
- Last-error texts, logging, file names, clip moves, `HealthSampler`, `AutosavePolicy`, `SafeZone`, `SceneLink`, `CanvasResolve`, `CanvasMigration`, settings load and save: easy members or texts.
