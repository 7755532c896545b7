# Proofs about the asynchronous core, the codecs and the append log

This project models the event-driven heart of the program and proves what it keeps over every run:

- **Browser manager** (`Cdp*.dfy`). One web socket carries many requests. The state holds the id
  counter, `pending_`, the offline queue, the context cache, the context objects, the
  `wait_for_selector` loops and the callbacks deferred by `after`. `CdpModel` defines the transition
  of each event as a function on values; `CdpInvariants`, `CdpFreeing`, `CdpPreservation` and
  `CdpReplies` prove the invariant of every step; `CdpTheorems`, `CdpCache`, `CdpCallbacks`, `CdpPolling`,
  `CdpScenarios`, `CdpSessions`, `CdpAnswers` and `CdpSafety` draw the conclusions: among them what goes on
  the wire and when (`CdpSessions`), and which callback of the caller runs when and with what
  (`CdpAnswers`). `CdpBrowserManager` is the class with mutable fields, proved step by step against the
  transition functions.
- **Scheduler** (`UvModel.dfy` to `UvScheduler.dfy`, `UvDrain.dfy`, `PostQueue.dfy`). Timer contexts
  with their owner, the closing list and the post queue, over the part of libuv that is used: a
  coalescing async signal, a stopped or closing timer does not fire, one close callback for each
  `uv_close`. `OneShots` links its one-shots to the callbacks the manager has deferred, and
  `Joint` runs manager and scheduler together: the manager's events and callbacks make their calls on
  the scheduler, and only the scheduler decides when a deferred callback is reached. `PostQueue` interleaves
  any number of producer threads with the consumer; `UvWakeups` shows that every run of the scheduler is
  one of its schedules, and when posted callbacks run; `UvJobs` says when a timer can fire and how long it
  stays registered.
- **Codecs**: the base64 decoder (`Base64.dfy`, section 4 of RFC 4648), the JavaScript escapers
  (`JsString.dfy`, section 12.9.4 of ECMA-262, 2023 edition), the base-URL parser (`BaseUrl.dfy`).
- **Storage**: the record codec (`Records.dfy`) and the files (`Storage.dfy`, `JsonlStorage.dfy`).

`Common`, `Strings` and `Decimal` hold what several of these share.

## How the program is represented

- A stored closure is a datatype naming it and what it captures (`Handler`). A user callback is the
  finite tree of manager or scheduler calls it makes while it runs (`Act`), chosen by the
  environment; such calls re-enter the manager as in the source, `start()`, `stop()` and
  `remove_context()` among them.
- The environment answers in any order, repeats answers, or never answers; time passes by any amount.
- A context or a `TimerCtx` is a record in an explicit map from addresses, so that `delete` can be
  expressed. Reading a deleted context is flagged (`dangling`); the source leaving it undefined, the
  handler that does so then sends nothing, and a check behaves as if `closed_` were true.
- Fields marked "history" record the run and are not in the program. Invoking a user callback is
  recorded there; what is passed to `sendText` is a field of the class as well.
- `std::string` is a sequence of characters that stand for its bytes. `int` is 32 bits in two's
  complement where a width matters, and a left shift that overflows wraps (it is undefined before
  C++20). `timeout_ms` is converted to a signed 64-bit value as in the source.

## Premises

- Handlers and callbacks return normally: a throw skips `pending_.erase`
  (src/wheel/browser/imp/cdp_browser_manager.cpp:605). Throws of posted callbacks, which
  src/wheel/scheduler/imp/uv_scheduler.cpp:123 swallows, are part of `PostQueue`.
- Callbacks do not call `step()` or `run()` themselves. The `step()` inside `stop()`
  (src/wheel/browser/imp/cdp_browser_manager.cpp:762), also when a callback calls `stop()`, delivers
  nothing to this manager, whose timers and async handle are closed by then. A callback that a timer
  runs does not call `stop()`: that closes the timer's own handle, see `ClosedTwiceIff`. A callback does
  not call `start()` while a launch is still running.
- Replies are well formed; command ids and the one-shot counter stay below 2^31.
- Job names do not start with `_a_` (`Proper`), and a one-shot callback does not stop its own
  scheduler (`Polite`); `ClosedTwiceIff` shows that the second premise is exact.
- In a joint run (`Civil`), the manager is launched only after its `start()`, and others that use the
  same scheduler do not stop it.
- A caller uses a context pointer only while the cache owns it; any other use is flagged and has no
  effect on the model.
- A record is `Faithful` to the JSON library: if `dump` does not throw, its text is not empty, has no
  line feed and is parsed back.

Where the code does less than its documentation says, the code is followed:
doc/design/wheel/browser/BROWSER_MANAGER.md:214 promises that a second request for a platform is
answered from the cache. `CacheEntryKept` says exactly when an entry survives a step, and
`OverlappingAcquisitions` shows two requests that both complete with different contexts.

## Model

| member | source | states |
|---|---|---|
| CdpReplies.StepInv | src/wheel/browser/imp/cdp_browser_manager.cpp:225-885 | every event of the manager, with any re-entrant callback, keeps the joint invariant of map, queue, cache, contexts, waits and guards |
| CdpReplies.RunInv | src/wheel/browser/imp/cdp_browser_manager.cpp:225-885 | so does every run |
| CdpPreservation.RunActsInv | src/wheel/browser/imp/cdp_browser_manager.cpp:225-885 | whatever calls to contexts and manager a user callback makes, start(), stop() and remove_context() included, nested to any depth, the invariant holds again |
| CdpPreservation.IssueOk | src/wheel/browser/imp/cdp_browser_manager.cpp:633-650 | sending keeps: pending ids are issued minus answered, wire and queue in order, each id sent, queued or dropped |
| CdpReplies.OpenInv | src/wheel/browser/imp/cdp_browser_manager.cpp:710-727 | the flush on Open and its own Page.enable keep the invariant |
| CdpFreeing.OnStopInv | src/wheel/browser/imp/cdp_browser_manager.cpp:745-763 | stop() of a started manager frees exactly the contexts the cache owns, each once, silences its one-shots, and keeps the invariant |
| CdpReplies.OnReplyInv | src/wheel/browser/imp/cdp_browser_manager.cpp:589-605 | a reply, its handler and the user callback keep the invariant |
| CdpReplies.EraseOrderIrrelevant | src/wheel/browser/imp/cdp_browser_manager.cpp:589-605 | running the handler and then erasing its entry gives the same state as erasing first, for any nested commands |
| CdpReplies.RunActsErase | src/wheel/browser/imp/cdp_browser_manager.cpp:633-650 | erasing an older id commutes with any sequence of manager calls |
| CdpTheorems.CommandIds | src/wheel/browser/imp/cdp_browser_manager.cpp:589-605 | over every run pending_ holds exactly the issued and unanswered ids, each with its own handler, and each id is answered at most once on one side |
| CdpTheorems.WireOrder | src/wheel/browser/imp/cdp_browser_manager.cpp:633-727 | over every run with restarts, ids on the wire strictly increase, a ready socket has an empty queue, and every issued id is sent, queued or dropped, exclusively |
| CdpTheorems.LateReplyIgnored | src/wheel/browser/imp/cdp_browser_manager.cpp:591-595 | after any further run a reply to an answered id changes nothing but the clock |
| CdpTheorems.ReplyReachesItsRequest | src/wheel/browser/imp/cdp_browser_manager.cpp:591-603 | after any further run, restarts included, an id that is still pending leads to the handler registered with it |
| CdpTheorems.GetContextIsLinear | src/wheel/browser/imp/cdp_browser_manager.cpp:785-874 | each call ends at most once, through on_ok, on_error or silently; it has ended exactly when no unanswered command carries it, and at most one does |
| CdpTheorems.SilentEnd | src/wheel/browser/imp/cdp_browser_manager.cpp:849-853 | a call ends without a callback exactly by an error reply to its add-script command |
| CdpTheorems.OwnershipConserved | src/wheel/browser/imp/cdp_browser_manager.cpp:815-855 | over every run each allocated context is in exactly one of: one cache key, one unanswered add-script entry, freed; freed at most once |
| CdpTheorems.StepSplits | src/wheel/browser/imp/cdp_browser_manager.cpp:589-605 | a step is what the manager does by itself, then the calls of one user callback, then, for a reply, the erase |
| CdpTheorems.StepFrame | src/wheel/browser/imp/cdp_browser_manager.cpp:225-885 | what the calls of a user callback cannot do: answer a command, change a registered handler or what was sent, decide an existing wait, run a deferred callback, allocate or cache a context, or set the ready flag |
| CdpAnswers.ReplyCallsBack | src/wheel/browser/imp/cdp_browser_manager.cpp:589-605 | a reply to a pending command runs the caller's callback, with its calls, exactly when it concludes: on either side for a command of the caller's own, when on_ok or on_error is recorded for a get_context call, when an outcome is recorded for a wait, for close on an error or with the context still there, for the first half of press_key on an error, and never for the manager's Page.enable |
| CdpAnswers.UserReply | src/wheel/browser/imp/cdp_browser_manager.cpp:597-605 | a reply to a command of the caller's own, on either side, makes exactly the calls of the caller's callback and erases the entry |
| CdpAnswers.TimerCallsBack | src/wheel/browser/imp/cdp_browser_manager.cpp:387-420 | a posted check runs on_timeout exactly when a timeout is recorded, and a one-shot its callback exactly when a run is |
| CdpAnswers.CallCallsBack | src/wheel/browser/imp/cdp_browser_manager.cpp:225-423 | a call runs its callback before it returns exactly when get_context is answered at once or the context is closed; a refused command sends nothing and a refused wait times out |
| CdpAnswers.CallOutcome | src/wheel/browser/imp/cdp_browser_manager.cpp:785-860 | for every step and every get_context call at any depth: on_ok runs exactly by a positive add-script reply or by a call on a started manager that caches the platform, on_error exactly by an error reply to its createTarget or attachToTarget or by a call on a manager that is not started |
| CdpAnswers.HandedOut | src/wheel/browser/imp/cdp_browser_manager.cpp:794-847 | what on_ok is given was allocated and cached under the platform of the call at that moment |
| CdpCache.CachedPlatform | src/wheel/browser/imp/cdp_browser_manager.cpp:844-844 | the context stored under p is allocated and has platform p |
| CdpCache.ActsContexts | src/wheel/browser/imp/cdp_browser_manager.cpp:745-886 | a callback takes an entry out of the cache if and only if it calls remove_context for that platform, or stop() on the started manager, at any depth |
| CdpCache.CacheEntryKept | src/wheel/browser/imp/cdp_browser_manager.cpp:749-886 | a cache entry survives a step if and only if the step is not stop(), not the positive reply to a close of that context, not the last reply of an overlapping acquisition, and its callback calls neither stop() nor remove_context for it |
| CdpCache.OverlapReplaces | src/wheel/browser/imp/cdp_browser_manager.cpp:842-847 | that last reply frees the context handed out first, once, and leaves a different one in the cache unless its callback removes that again |
| CdpCache.CacheAgreement | src/wheel/browser/imp/cdp_browser_manager.cpp:794-800 | with no acquisition for p in flight, every later get_context for p is answered once and with the cached object, until its close reply, its removal or stop() |
| CdpCallbacks.OneToken | src/wheel/browser/imp/cdp_browser_manager.cpp:384-412 | per wait, posted check + outstanding evaluate + done is 1; at most one evaluate is outstanding and at most one of on_found and on_timeout runs |
| CdpCallbacks.DoneGuardsNeverTaken | src/wheel/browser/imp/cdp_browser_manager.cpp:400-408 | whenever a check or a reply of a wait is due, done is not set |
| CdpCallbacks.WaitSettles | src/wheel/browser/imp/cdp_browser_manager.cpp:384-412 | a wait with nothing due has had exactly one outcome, unless its context was closed or freed |
| CdpCallbacks.IncreasingBound | src/wheel/browser/imp/cdp_browser_manager.cpp:390-396 | strictly increasing poll times within a window are at most as many as the window is long |
| CdpCallbacks.PollsBounded | src/wheel/browser/imp/cdp_browser_manager.cpp:390-396 | no evaluate at or after the deadline, none for a timeout of 0 or from 2^63 on, and at most timeout_ms of them if every reply comes at least a millisecond after what happened before it |
| CdpCallbacks.PollAdvances | src/wheel/browser/imp/cdp_browser_manager.cpp:389-410 | an answered evaluate ends its wait exactly when found, expired, closed or freed; otherwise exactly one more evaluate is issued |
| CdpCallbacks.CheckAdvances | src/wheel/browser/imp/cdp_browser_manager.cpp:387-411 | so does a posted check, as after an evaluate that found nothing |
| CdpCallbacks.DeadlineValues | src/wheel/browser/imp/cdp_browser_manager.cpp:390-392 | a timeout_ms below 2^63 expires that many milliseconds after the start; from 2^63 on the converted value is negative |
| CdpPolling.WaitEnds | src/wheel/browser/imp/cdp_browser_manager.cpp:384-412 | from its start every wait ends: whatever happens before its first check and between the answers, it is done after at most as many answers, at least 1 ms apart, as milliseconds are left when the check has run (and one at least); with exactly one outcome unless its context was closed or freed |
| CdpPolling.WaitStarts | src/wheel/browser/imp/cdp_browser_manager.cpp:382-412 | wait_for_selector on an open context starts a wait with its first check posted |
| CdpPolling.RunBegun | src/wheel/browser/imp/cdp_browser_manager.cpp:387-412 | on every run a wait has its first check posted, has polled, or is done |
| CdpPolling.PollingEnds | src/wheel/browser/imp/cdp_browser_manager.cpp:387-411 | the same bound for a wait that has polled |
| CdpPolling.PolledToken | src/wheel/browser/imp/cdp_browser_manager.cpp:387-411 | a wait that has polled is done or has an evaluate outstanding, never both |
| CdpCallbacks.DeferredRunsIffLive | src/wheel/browser/imp/cdp_browser_manager.cpp:415-423 | a deferred callback runs if and only if it is armed and the context that deferred it is allocated |
| CdpCallbacks.DeferredAtMostOnce | src/wheel/browser/imp/cdp_browser_manager.cpp:415-423 | in the model of the manager alone, where a one-shot that expires is armed no more, a deferred callback runs at most once over every run; Joint.RunsAtMostOnce proves it of manager and scheduler together |
| CdpCallbacks.FreedNeverRuns | src/wheel/browser/imp/cdp_browser_manager.cpp:141-144 | once its context is freed, whichever way, it never runs in any further run |
| CdpScenarios.Acquisition | src/wheel/browser/imp/cdp_browser_manager.cpp:803-860 | from any connected state an uninterrupted acquisition sends its four commands in order with the right target and session, then caches and hands out the new context |
| CdpScenarios.OverlappingAcquisitions | src/wheel/browser/imp/cdp_browser_manager.cpp:794-847 | from any connected state two overlapping requests for one platform complete with different contexts, the first of which is freed |
| CdpScenarios.DanglingExactly | src/wheel/browser/imp/cdp_browser_manager.cpp:225-423 | a step uses a context it must not if and only if it is a positive reply to a close or a keyDown, or a check, whose context was freed before, or its callback calls a context the cache does not own |
| CdpScenarios.KeyPress | src/wheel/browser/imp/cdp_browser_manager.cpp:314-336 | an uninterrupted press_key sends keyDown and then keyUp with the session of the context, and the second reply is the caller's |
| CdpScenarios.LateReply | src/wheel/browser/imp/cdp_browser_manager.cpp:225-336 | close or press_key, then stop(), then the reply: from any such state the handler finds its context deleted |
| CdpScenarios.LateEvaluate | src/wheel/browser/imp/cdp_browser_manager.cpp:225-410 | wait_for_selector, its first check, close, the close reply, then the reply to the evaluate: from any such state the check reads a deleted context |
| CdpSessions.ReplySends | src/wheel/browser/imp/cdp_browser_manager.cpp:589-885 | for every pending command, side and payload, exactly the messages the manager sends or queues on its reply, with their methods, sessions and arguments: attachToTarget, add-script and Page.enable, keyUp, a further evaluate, or none |
| CdpSessions.CallSends | src/wheel/browser/imp/cdp_browser_manager.cpp:225-886 | the same for every call but start(), refused calls sending nothing |
| CdpSessions.CheckSends | src/wheel/browser/imp/cdp_browser_manager.cpp:387-411 | a posted check sends its evaluate exactly when the context is open and the deadline has not passed |
| CdpSessions.CommandSent | src/wheel/browser/imp/cdp_browser_manager.cpp:217-221 | a command of the caller's own registers the caller's callback under the id it is sent with |
| CdpSessions.CloseSent | src/wheel/browser/imp/cdp_browser_manager.cpp:228-236 | close marks its context closed, asks for its target and leaves the other contexts alone |
| CdpSessions.AfterArms | src/wheel/browser/imp/cdp_browser_manager.cpp:415-423 | after arms exactly one more callback with a fresh flag, kept by its context |
| CdpSessions.ReadyIff | src/wheel/browser/imp/cdp_browser_manager.cpp:673-727 | the socket becomes ready exactly by opening, and ceases to be exactly by a start() of the stopped manager, by the program or a callback |
| CdpSessions.OpenDelivers | src/wheel/browser/imp/cdp_browser_manager.cpp:710-727 | opening sends what was queued, in order and before anything later; over any run without such a start() every command issued from then on has been sent |
| CdpSessions.StartedIff | src/wheel/browser/imp/cdp_browser_manager.cpp:672-763 | the manager becomes started exactly by a launch that went well and ceases to be exactly by stop() |
| CdpSessions.FirstSession | src/wheel/browser/imp/cdp_browser_manager.cpp:672-860 | from any stopped manager: start(), launch, a get_context while the socket is not open, the open socket and three replies put exactly these five messages on the wire in order and hand out the new open context |
| CdpSafety.NextStepIff | src/wheel/browser/imp/cdp_browser_manager.cpp:225-410 | some next event can read a deleted context if and only if an unanswered close, keyDown or evaluate or a posted check refers to one |
| CdpSafety.SafeRunsNeverDangle | src/wheel/browser/imp/cdp_browser_manager.cpp:225-886 | a run never reads a deleted context if every context that leaves the heap, by stop(), close reply, replacement or remove_context(), leaves no such command or check behind |
| CdpSafety.NothingLeftBehind | src/wheel/browser/imp/cdp_browser_manager.cpp:225-886 | the same from the initial state |
| CdpBrowserManager.Manager.constructor | src/wheel/browser/imp/cdp_browser_manager.cpp:429-430 | a new manager is the initial state and meets the invariant |
| CdpBrowserManager.Manager.Send | src/wheel/browser/imp/cdp_browser_manager.cpp:626-651 | takes the next id, registers the handler, and queues or sends the message |
| CdpBrowserManager.Manager.Delete | src/wheel/browser/imp/cdp_browser_manager.cpp:141-144 | the destructor's loop clears exactly the flags of the deleted context |
| CdpBrowserManager.Manager.RemoveFromCache | src/wheel/browser/imp/cdp_browser_manager.cpp:884-886 | erases the entry and deletes the context it owns |
| CdpBrowserManager.Manager.ClearCache | src/wheel/browser/imp/cdp_browser_manager.cpp:749-749 | deleting the cached contexts in any order is one simultaneous clear |
| CdpBrowserManager.Manager.DoGetContext | src/wheel/browser/imp/cdp_browser_manager.cpp:785-803 | an error when not started, a cache hit, or a createTarget command; says whether a callback ran at once |
| CdpBrowserManager.Manager.OnAttached | src/wheel/browser/imp/cdp_browser_manager.cpp:810-862 | allocates the context, sends the add-script command that owns it and Page.enable |
| CdpBrowserManager.Manager.OnScripted | src/wheel/browser/imp/cdp_browser_manager.cpp:842-853 | installs the context, deleting the one replaced, or deletes it on error |
| CdpBrowserManager.Manager.CloseTab | src/wheel/browser/imp/cdp_browser_manager.cpp:232-233 | sets closed_ and sends closeTarget for its target |
| CdpBrowserManager.Manager.DeferCallback | src/wheel/browser/imp/cdp_browser_manager.cpp:415-423 | arms a one-shot with a fresh flag and stores the flag in the context |
| CdpBrowserManager.Manager.Wait | src/wheel/browser/imp/cdp_browser_manager.cpp:382-412 | refuses on a closed context, otherwise posts the first check |
| CdpBrowserManager.Manager.RunCheck | src/wheel/browser/imp/cdp_browser_manager.cpp:387-411 | the check closure up to on_timeout |
| CdpBrowserManager.Manager.OnPolled | src/wheel/browser/imp/cdp_browser_manager.cpp:399-410 | the two reply handlers of an evaluate |
| CdpBrowserManager.Manager.RunHandler | src/wheel/browser/imp/cdp_browser_manager.cpp:597-604 | runs the stored handler on the side of the reply |
| CdpBrowserManager.Manager.MakeCall | src/wheel/browser/imp/cdp_browser_manager.cpp:626-886 | one call of a callback to the manager, up to the callback it may invoke itself |
| CdpBrowserManager.Manager.CallContext | src/wheel/browser/imp/cdp_browser_manager.cpp:225-423 | one operation of a context: refused at once when closed, otherwise its command, timer or check |
| CdpBrowserManager.Manager.OnKeyDown | src/wheel/browser/imp/cdp_browser_manager.cpp:328-334 | the continuation of press_key sends keyUp with the session of its context |
| CdpBrowserManager.Manager.RunCallback | src/wheel/browser/imp/cdp_browser_manager.cpp:225-886 | a callback's calls re-enter the manager one after the other, while the entry that invoked it is still in pending_ |
| CdpBrowserManager.Manager.OnWsMessage | src/wheel/browser/imp/cdp_browser_manager.cpp:589-605 | handler first, erase afterwards; an unknown id changes nothing |
| CdpBrowserManager.Manager.OnOpen | src/wheel/browser/imp/cdp_browser_manager.cpp:710-727 | flushes the queue in order by a loop, then sends its own Page.enable |
| CdpBrowserManager.Manager.OnStart | src/wheel/browser/imp/cdp_browser_manager.cpp:673-684 | clears the ready flag and the queue unless started |
| CdpBrowserManager.Manager.OnStop | src/wheel/browser/imp/cdp_browser_manager.cpp:745-763 | clears the cache, silences the scheduler's one-shots, unsets started_ |
| CdpBrowserManager.Manager.Dispatch | src/wheel/browser/imp/cdp_browser_manager.cpp:582-885 | for every event the fields become what the transition function says and the invariant holds again |
| PostQueue.RefinesSimpleQueue | src/wheel/scheduler/imp/uv_scheduler.cpp:114-125 | every step of the swap-and-drain protocol is a push, a pop or nothing on one first-in-first-out queue |
| PostQueue.GlobalFifo | src/wheel/scheduler/imp/uv_scheduler.cpp:57-125 | in every interleaving of producers and consumer the executed callbacks are a prefix of the push order |
| PostQueue.NoLostWakeup | src/wheel/scheduler/imp/uv_scheduler.cpp:57-63 | within a session a non-empty queue always has a pending signal, a producer about to send, or a consumer about to swap |
| PostQueue.QuietMeansDone | src/wheel/scheduler/imp/uv_scheduler.cpp:57-125 | when nothing is pending, everything pushed has been executed |
| PostQueue.SessionStart | src/wheel/scheduler/imp/uv_scheduler.cpp:17-24 | opening a session keeps every queued callback announced if and only if none was left over, or one is about to be announced |
| PostQueue.LeftoverIsLost | src/wheel/scheduler/imp/uv_scheduler.cpp:26-41 | post, stop, start: the callback waits in the new session without a signal |
| PostQueue.SwapServesAll | src/wheel/scheduler/imp/uv_scheduler.cpp:114-125 | in every schedule, whatever producers push meanwhile and whichever callbacks throw, once the consumer has finished the batch it swapped out everything pushed before the swap has been executed |
| PostQueue.OneWakeupServesAll | src/wheel/scheduler/imp/uv_scheduler.cpp:114-152 | one delivered signal, however many sends it coalesces, is enough: the consumer left alone then executes everything pushed |
| UvDrain.DrainRefinesQueue | src/wheel/scheduler/imp/uv_scheduler.cpp:114-125 | swapping and running the batch equals running as many callbacks from the front one at a time, whatever they post, register, remove or stop |
| UvDrain.ActsBehind | src/wheel/scheduler/imp/uv_scheduler.cpp:57-63 | what a callback posts goes behind everything still waiting, and nothing else depends on the queue |
| UvWakeups.WaitingIsSignalled | src/wheel/scheduler/imp/uv_scheduler.cpp:57-63 | over every run whose starts find the queue empty, a callback that waits in a started scheduler has its wakeup pending |
| UvWakeups.PerformSignals | src/wheel/scheduler/imp/uv_scheduler.cpp:17-63 | for one call that premise is exact |
| UvWakeups.PostThenWake | src/wheel/scheduler/imp/uv_scheduler.cpp:57-152 | one post and one wakeup of a started scheduler run everything that waited and then the callback |
| UvWakeups.PostedInOrder | src/wheel/scheduler/imp/uv_scheduler.cpp:57-125 | over every run, what was executed followed by what waits is what was posted, in that order |
| UvWakeups.SettledMeansDone | src/wheel/scheduler/imp/uv_scheduler.cpp:57-125 | hence a started scheduler without a pending wakeup has executed everything ever posted |
| UvWakeups.RunIsSchedule | src/wheel/scheduler/imp/uv_scheduler.cpp:17-125 | every run of the scheduler is a schedule of the post-queue protocol, whose theorems therefore hold of it |
| UvTheorems.StepGood | src/wheel/scheduler/imp/uv_scheduler.cpp:26-177 | every event keeps the invariant, registers no old context again and fires only registered ones |
| UvTheorems.TimersOwned | src/wheel/scheduler/imp/uv_scheduler.cpp:65-177 | over every run each TimerCtx is in exactly one of: timers_ under its own name, closing, freed; closed once and freed once; timers_ has no stale pointer |
| UvTheorems.UnlistedNeverFires | src/wheel/scheduler/imp/uv_scheduler.cpp:82-91 | a context that is no longer registered never fires in any further run |
| UvTheorems.RemovedNeverFires | src/wheel/scheduler/imp/uv_scheduler.cpp:65-91 | a removed or replaced job never fires again |
| UvTheorems.StopSilencesAll | src/wheel/scheduler/imp/uv_scheduler.cpp:26-41 | nothing registered before stop() fires afterwards, restarts included |
| UvTheorems.OneShotFiresOnce | src/wheel/scheduler/imp/uv_scheduler.cpp:93-104 | over every run an after callback runs at most once |
| UvJobs.JobFiresIff | src/wheel/scheduler/imp/uv_scheduler.cpp:65-80 | a job is registered under its name, and over any run from there it can fire exactly while it is registered: again and again with a positive interval, once with interval 0 |
| UvJobs.RegisteredUntil | src/wheel/scheduler/imp/uv_scheduler.cpp:26-91 | over any run a job is unregistered exactly by a removal or replacement under its name or by stop() of the started scheduler |
| OneShots.DeferMatches | src/wheel/browser/imp/cdp_browser_manager.cpp:415-423 | what after adds to the manager's armed callbacks is what the scheduler registers |
| OneShots.StopMatches | src/wheel/browser/imp/cdp_browser_manager.cpp:749-763 | stop() disarms for the manager what the scheduler's stop() unregisters |
| OneShots.OtherMatches | src/wheel/scheduler/imp/uv_scheduler.cpp:57-104 | jobs, posts, start and an after of somebody else leave the manager's one-shots as they are |
| OneShots.ClosedMatches | src/wheel/scheduler/imp/uv_scheduler.cpp:174-177 | so does the close callback of any timer |
| OneShots.OtherExpires | src/wheel/scheduler/imp/uv_scheduler.cpp:154-172 | and the expiry of a timer that is not the manager's |
| OneShots.FiresIffArmed | src/wheel/scheduler/imp/uv_scheduler.cpp:93-104 | a one-shot can expire if and only if the manager has its callback armed |
| OneShots.ExpireMatches | src/wheel/scheduler/imp/uv_scheduler.cpp:163-167 | the expired one-shot is disarmed before its callback runs |
| OneShots.FinishMatches | src/wheel/scheduler/imp/uv_scheduler.cpp:168-171 | the scheduler unregisters it afterwards, and the two agree again |
| Joint.CallsLinked | src/wheel/browser/imp/cdp_browser_manager.cpp:415-423 | a whole callback, nested ones included, and the calls it makes on the scheduler keep manager and scheduler in agreement |
| Joint.AdvanceOk | src/wheel/scheduler/imp/uv_scheduler.cpp:26-177 | every step of the joint machine keeps both invariants and the agreement: manager events, timers of the manager, timers of others, closed handles, wakeups, calls of others |
| Joint.ArmedExactly | src/wheel/scheduler/imp/uv_scheduler.cpp:93-104 | over every joint run the callbacks the manager's model calls armed are exactly those whose timer the scheduler can fire |
| Joint.RunsAtMostOnce | src/wheel/scheduler/imp/uv_scheduler.cpp:93-172 | over every joint run a deferred callback runs at most as often as the scheduler fires its timer, and that is at most once |
| Joint.LambdaIsFired | src/wheel/browser/imp/cdp_browser_manager.cpp:418-420 | the lambda that after hands over, which looks at its flag only, does when fired what the manager's model says of an armed callback |
| Joint.FiringRunsIffLive | src/wheel/browser/imp/cdp_browser_manager.cpp:418-420 | when the scheduler fires the timer, the callback runs if and only if its context is allocated |
| Joint.ManagerRuns | src/wheel/browser/imp/cdp_browser_manager.cpp:225-886 | the manager's side of a joint run is a run of its model, so every result about those holds in it |
| Joint.NeverOnceFreed | src/wheel/browser/imp/cdp_browser_manager.cpp:141-144 | once its context is freed, whichever way, a deferred callback never runs in any further joint run |
| UvTheorems.ClosedTwiceIff | src/wheel/scheduler/imp/uv_scheduler.cpp:163-172 | the handle of a one-shot that fires is closed twice if and only if its callback stops the started scheduler, and once otherwise |
| UvInvariants.PerformDuring | src/wheel/scheduler/imp/uv_scheduler.cpp:17-104 | every call, from outside or from a running one-shot, keeps the invariant; only stop() unregisters the running one |
| UvInvariants.OneShotNames | src/wheel/scheduler/imp/uv_scheduler.cpp:96-97 | generated names are reserved and distinct for distinct numbers |
| UvScheduler.Scheduler.constructor | src/wheel/scheduler/imp/uv_scheduler.cpp:6-7 | a new scheduler is the initial state and meets the invariant |
| UvScheduler.Scheduler.StartScheduler | src/wheel/scheduler/imp/uv_scheduler.cpp:17-24 | initialises the async handle once |
| UvScheduler.Scheduler.StopScheduler | src/wheel/scheduler/imp/uv_scheduler.cpp:26-41 | closing the registered contexts one by one in any order closes exactly those, once each |
| UvScheduler.Scheduler.RemoveJobNamed | src/wheel/scheduler/imp/uv_scheduler.cpp:82-91 | unregisters, stops, disowns and closes the context of that name |
| UvScheduler.Scheduler.RegisterCtx | src/wheel/scheduler/imp/uv_scheduler.cpp:72-79 | allocates, registers and arms a context |
| UvScheduler.Scheduler.StartOneShot | src/wheel/scheduler/imp/uv_scheduler.cpp:93-104 | registers a one-shot under the next generated name |
| UvScheduler.Scheduler.PostCallback | src/wheel/scheduler/imp/uv_scheduler.cpp:57-63 | appends, and signals if the async handle is initialised; WaitingIsSignalled and PostThenWake say what the signal is for |
| UvScheduler.Scheduler.OnTimer | src/wheel/scheduler/imp/uv_scheduler.cpp:154-172 | an expired timer runs its callback, and a one-shot then unregisters and closes itself |
| UvScheduler.Scheduler.EndOneShot | src/wheel/scheduler/imp/uv_scheduler.cpp:168-171 | stops the handle, erases its name if it still has an owner, closes it |
| UvScheduler.Scheduler.OnCtxClosed | src/wheel/scheduler/imp/uv_scheduler.cpp:174-177 | the close callback frees the context |
| UvScheduler.Scheduler.DrainPostQueue | src/wheel/scheduler/imp/uv_scheduler.cpp:114-125 | swaps the queue out and runs the batch in order, leaving what the batch posts for the next signal |
| UvScheduler.Scheduler.Dispatch | src/wheel/scheduler/imp/uv_scheduler.cpp:17-177 | for every event the fields become what the transition function says and the invariant holds again |
| Base64.Base64Decode | src/wheel/browser/imp/cdp_browser_manager.cpp:104-126 | the two loops with the 32-bit wrapping accumulator compute what the decoder on unbounded integers does, which DigitsOfClean, RoundTrip and TestVectors determine |
| Base64.OnlyLowBits | src/wheel/browser/imp/cdp_browser_manager.cpp:113-124 | for any 32-bit accumulator and any unbounded one that agrees with it modulo 4096, the wrapping decoder and the unbounded one give the same bytes, bits being in {-8,-6,-4,-2} throughout |
| Base64.TakeLow | src/wheel/browser/imp/cdp_browser_manager.cpp:121-121 | an output byte depends only on the low 12 bits of the accumulator |
| Base64.ShiftLow | src/wheel/browser/imp/cdp_browser_manager.cpp:118-118 | a wrapping shift keeps the low 12 bits right |
| Common.Wrapped | src/wheel/browser/imp/cdp_browser_manager.cpp:113-118 | conversion to 32 bits gives the number of that range congruent modulo 2^32 |
| Base64.TableAgrees | src/wheel/browser/imp/cdp_browser_manager.cpp:101-116 | strchr finds a character at position n if and only if it is the n-th symbol of the table |
| Base64.Table | src/wheel/browser/imp/cdp_browser_manager.cpp:101-103 | the same for the table as the program writes it |
| Base64.DecodeIsStream | src/wheel/browser/imp/cdp_browser_manager.cpp:113-124 | on NUL-free text the output is the stream of six-bit digits cut into bytes, with less than a byte left over |
| Base64.StreamDecides | src/wheel/browser/imp/cdp_browser_manager.cpp:113-124 | bytes that begin that stream and leave less than a byte are the output |
| Base64.RoundTrip | src/wheel/browser/imp/cdp_browser_manager.cpp:104-126 | for all bytes, decoding their RFC 4648 encoding, padded or not and with white space or any other character outside the alphabet, = and NUL inserted anywhere, gives them back |
| Base64.DigitsOfClean | src/wheel/browser/imp/cdp_browser_manager.cpp:105-116 | dropping white space first drops nothing that the second loop would use |
| Base64.DigitsOfInserted | src/wheel/browser/imp/cdp_browser_manager.cpp:113-117 | characters that strchr does not find change nothing wherever they stand |
| Base64.SpaceInserted | src/wheel/browser/imp/cdp_browser_manager.cpp:105-108 | the six white-space characters can be inserted at any place |
| Base64.TestVectors | src/wheel/browser/imp/cdp_browser_manager.cpp:101-126 | the vectors of section 10 of RFC 4648 up to three bytes, and those of the symbols + and / |
| Base64.LengthIff | src/wheel/browser/imp/cdp_browser_manager.cpp:113-124 | k alphabet characters of the text before its first = give floor(6k/8) bytes if and only if no NUL is among them, or a single one with k a multiple of 4 |
| Base64.NulCounts | src/wheel/browser/imp/cdp_browser_manager.cpp:116-118 | a NUL is found at position 64 and decoded as a digit |
| JsString.JsSelector | src/wheel/browser/imp/cdp_browser_manager.cpp:32-41 | the loop escapes character by character |
| JsString.JsText | src/wheel/browser/imp/cdp_browser_manager.cpp:276-284 | the loop of type() does, with line breaks too |
| JsString.TypeScript | src/wheel/browser/imp/cdp_browser_manager.cpp:275-290 | assembles the script |
| JsString.TextRoundTrip | src/wheel/browser/imp/cdp_browser_manager.cpp:278-287 | for every text, the ECMAScript lexer reads the literal back as that text and stops at the closing quote that was written |
| JsString.SelectorRoundTrip | src/wheel/browser/imp/cdp_browser_manager.cpp:32-41 | the same for a selector without CR and LF; with one the literal is malformed, for every selector |
| JsString.SingleEscapes | src/wheel/browser/imp/cdp_browser_manager.cpp:281-282 | the lexer reads each single-character escape of ECMA-262 as its code unit and no raw line break |
| JsString.ScriptTokens | src/wheel/browser/imp/cdp_browser_manager.cpp:285-290 | for all selectors and texts the script of type() has the same code around two literals with those values, or, if the selector has a line break, is no script |
| BaseUrl.ParseBaseUrl | src/wheel/llm/imp/deepseek_engine.cpp:147-180 | the out-parameters written step by step, a false return leaving them alone, a throw of stoi leaving the default port, which DefaultPorts says is 443 or 80 |
| BaseUrl.ParseJoin | src/wheel/llm/imp/deepseek_engine.cpp:147-180 | a URL spelled from well-formed parts is parsed into them exactly when its port text is a number; otherwise stoi throws |
| BaseUrl.AcceptedIsJoin | src/wheel/llm/imp/deepseek_engine.cpp:147-180 | every accepted URL is the concatenation of the parts it was parsed into |
| BaseUrl.ParseIff | src/wheel/llm/imp/deepseek_engine.cpp:147-180 | the accepted language and its parts, in both directions |
| BaseUrl.DecimalPort | src/wheel/llm/imp/deepseek_engine.cpp:177-177 | a decimal port is read as its value below 2^31 and throws from there on |
| BaseUrl.PrintThenParse | src/wheel/llm/imp/deepseek_engine.cpp:147-180 | printing then parsing is the identity, with 443 or 80 for an absent port, if and only if the port is at most 2147483647 |
| BaseUrl.DefaultPorts | src/wheel/llm/imp/deepseek_engine.cpp:151-156 | for every host and path, https:// without a port means 443 and http:// means 80 |
| BaseUrl.RefusedIff | src/wheel/llm/imp/deepseek_engine.cpp:151-159 | returns false exactly for URLs with neither prefix, the out-parameters untouched |
| BaseUrl.StoiReads | src/wheel/llm/imp/deepseek_engine.cpp:177-177 | stoi skips white space, takes a sign and the digits, ignores the rest, and throws out_of_range exactly outside 32 bits |
| BaseUrl.NotANumberIff | src/wheel/llm/imp/deepseek_engine.cpp:177-177 | it throws invalid_argument exactly when the text does not begin with such a numeral |
| Records.FromJson | src/common/models.cpp:6-31 | succeeds if and only if every member present has its type, and then gives the decoded record |
| Records.RecordRoundTrip | src/common/models.cpp:6-52 | reading what was written gives the record back, whatever the record read into held |
| Records.AbsentMembers | src/common/models.cpp:6-31 | in any well-typed object, an absent member resets its text or the score to the default but leaves its list or the metrics as they were; a present list or metrics replaces them |
| Records.PresentMembers | src/common/models.cpp:6-31 | a member that is present is stored as it stands under its own key; a number becomes 32 bits, a boolean 1 or 0 |
| Records.WellTypedIff | src/common/models.cpp:6-31 | what is accepted: an object whose text members are texts, whose lists are lists of texts and whose score is a number or boolean, where present |
| Storage.AppendIff | src/wheel/storage/imp/jsonl_storage.cpp:53-75 | appending a line adds exactly that record and keeps the others if and only if the file is empty or ends in a line feed |
| Storage.LinesAppend | src/wheel/storage/imp/jsonl_storage.cpp:53-75 | getline on a terminated file with text appended delivers the old lines and then the new ones |
| Storage.TextHolds | src/wheel/storage/imp/jsonl_storage.cpp:54-79 | the text of one save is read back as the items written, for every platform filter |
| Storage.SavesHold | src/wheel/storage/imp/jsonl_storage.cpp:48-82 | any run of saves extends whatever a date's file held by what was saved there |
| Storage.LoadAfterSaves | src/wheel/storage/imp/jsonl_storage.cpp:48-82 | after any interleaving of saves, load_items(d, p) is the in-order concatenation of what was saved at d, filtered by p |
| Storage.AllWrittenIff | src/wheel/storage/imp/jsonl_storage.cpp:54-58 | a save stores exactly the items before the first that dump refuses, and all of them if and only if it refuses none |
| Storage.LoadIff | src/wheel/storage/imp/jsonl_storage.cpp:72-79 | on any file, loading without a platform gives some items if and only if every line that is not empty is a record and these are those records in order |
| Storage.LoadSelects | src/wheel/storage/imp/jsonl_storage.cpp:77-78 | with a platform it selects from what would be loaded without one, or fails alike |
| Storage.Selected | src/wheel/storage/imp/jsonl_storage.cpp:77-78 | the selection keeps exactly the items of that platform in order, all of them for the empty name |
| Storage.LastSave | src/wheel/storage/imp/jsonl_storage.cpp:48-59 | the last save comes after the others, in the files and in what they hold |
| JsonlStorage.Store.SaveItems | src/wheel/storage/imp/jsonl_storage.cpp:48-59 | appends the lines to the file of the date, of today for an empty one; other files stay; reports whether dump threw |
| JsonlStorage.Store.AppendLines | src/wheel/storage/imp/jsonl_storage.cpp:53-58 | the loop over the stream |
| JsonlStorage.Store.LoadItems | src/wheel/storage/imp/jsonl_storage.cpp:61-82 | the getline loop returns the filtered items, or fails when a line does |
| JsonlStorage.Store.ListDates | src/wheel/storage/imp/jsonl_storage.cpp:131-145 | exactly the subdirectories but "sessions", each once, in descending order |
| JsonlStorage.SortStrict | src/wheel/storage/imp/jsonl_storage.cpp:143-143 | sorting distinct names keeps them and orders them strictly |
| JsonlStorage.LeqIff | src/wheel/storage/imp/jsonl_storage.cpp:143-143 | the order of std::string: a prefix first, otherwise the smaller character at the first difference |
| JsonlStorage.StrictUnique | src/wheel/storage/imp/jsonl_storage.cpp:138-144 | the result does not depend on the order in which the directory is read |
| Decimal.ValueOfPrint | src/wheel/scheduler/imp/uv_scheduler.cpp:97-97 | a printed number is read back, so distinct numbers print differently |
| Decimal.Numerals | src/wheel/scheduler/imp/uv_scheduler.cpp:97-97 | one more digit multiplies by ten and adds it; the digits are 0 to 9 |

## Left out

- Chrome launch, pipes, polling of its output and `http_get`: a finished launch is the event `Launched`.
- A second `start()` while the first launch is still running, `health_check` and `chrome_crashed_`.
- The internals of libuv, IXWebSocket, httplib, spdlog and the JSON library.
- The event branch of `on_ws_message` with `on_event` and `remove_event`: it touches none of the state modelled.
- Malformed replies, which are discarded or throw before or inside a handler.
- Callbacks that never return or make infinitely many nested calls: a callback is a finite tree of calls.
- The order in which the scheduler runs the manager's posted checks and messages: in a joint run they are events of the manager that may come in any order.
- `save_session` and `restore_session`: each is `get_context` followed by one command, which callbacks of the model can do; their files are not modelled.
- Parameters of commands other than session, target and selector; the injected script and what runs inside the page (click, hover, scroll, dump). Such an operation is `Operate`, a command and its reply.
- Guards of `after` are kept as a set; the vector's order does not matter to the destructor.
- `run_blocking`, `work_cb` and `after_work_cb`: a worker's completion is an event of the manager.
- A posted callback of the scheduler is an id and the calls it makes; the delays of timers are not modelled, a timer may expire at any time while armed.
- JsString.Lex: escapes that begin with a digit, x or u are not read (the escapers double every backslash, so they never emit one); the UTF-8 decoding between the bytes escaped and the characters lexed is not modelled, the escapers touching ASCII bytes only.
- JsString.Scan: scripts with other quotes, comments or regular expressions are refused; `type` writes none.
- Scripts of the other operations that use `js_selector`; SelectorRoundTrip covers their literals.
- Records.FromJson: what it leaves in the record when it throws is not stated, the caller drops that record; converting a double score to int is a parameter.
- Distinct date strings are taken to name distinct directories; the model does not resolve paths such as `.` or trailing slashes.
- I/O errors of files and directories, `today_str` (a parameter), reports, summaries, sessions and screenshots on disk.
- `DeepSeekEngine::chat`, certificate detection and environment variables; configuration, factories, logger and the socket client wrapper.
