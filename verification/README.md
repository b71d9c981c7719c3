# Clark: protocols, guards and transformations

Clark is a message butler. Around its thin transport code sit several state machines that
promise something about whole runs. This project models the hardest of them and proves
those promises, one module per component:

| module | what it models |
|---|---|
| `Dispatch` | the per-sender dispatcher: lanes (a bounded channel with its worker), enqueue, idle retirement, close |
| `Gate` | the ten-minute duplicate filter and the alert cooldown |
| `Outbound` | the iMessage queue table and the bridge's claim, send, ack poll |
| `Inbound` | the bridge's watermark scan of chat.db and its state file |
| `Delivery` | that scan, the server and the gateway's duplicate filter together |
| `ResponsesInput` | chat messages translated to Responses API items |
| `ToolLoop` | the bounded tool-calling loop, its nudges and its paused iterations |
| `Scheduler` | the schedules table and the live cron entries and timers that mirror it |
| `TokenBucket`, `LoginThrottle`, `Sessions`, `Echo` | the limiters and their time-bounded memories |
| `Health` | the health monitor's tracking and notification policy |
| `RichText` | the WhatsApp rich-text sanitizer |
| `CronSpec`, `Decimal` | the cron spec printed by the server, read back and previewed by the console |
| `LogRing` | the replay ring and the per-subscriber log buffers |
| `Common` | an option type and one set lemma |

How things are modelled:

- **Concurrency and crashes.** `Dispatch`, `Outbound`, `Inbound` and `LogRing` are machines
  over atomic steps: one critical section, one channel operation, one SQL statement or
  transaction, one file operation. In `LoginThrottle` a request is two steps and requests
  overlap; in `Scheduler` a fire is two, with the job's own run in between. A run is any
  sequence of steps, a step that cannot be taken changes nothing, and every theorem is
  about all runs. The Go methods are also written as imperative methods over fields and
  proved equal to those steps.
- **Time** is an integer or real argument of each event. Where a theorem needs the clock
  not to run backwards it says so; several do not need it.
- **Oracles.** The model's replies, the tools, the phrase heuristics, the network, the file
  system and the parser of cron specs are arbitrary: functions or step choices that the
  theorems quantify over.
- **Text** is a sequence of code points.

Where the code and its own comments disagree, or a promise holds only on a condition, the model
follows the code:

- cmd/imessage-bridge/watcher.go:119-121 says a row without a handle cannot wedge the
  poller. It does: a NULL handle fails the whole query (`Inbound.NullHandleFreezes`) and an
  empty one is answered 400, as is a message with neither text nor media
  (`Inbound.BrokenRowWedges`, `Inbound.BareRowWedges`). `Inbound.PassableExactlyWhen` says
  exactly which rows the watcher can get past.
- cmd/imessage-bridge/state.go:11-12 says a restart never re-sends or misses a message. A
  lost response re-sends one (`Inbound.LostResponseRepeats`), and so does a failed save
  followed by a crash before the next good save (`Inbound.FailedSaveRepeats`); a request
  that arrives after the watcher gave up on it repeats a row even below the saved watermark
  (`Inbound.DelayedRequestRepeats`); a failed save alone repeats nothing
  (`Inbound.ExactlyOnceWhenCareful`). `Inbound.RepeatableExactlyWhen` says exactly which
  accepted rows can come again, and `Delivery.NoRowTwiceWithinTtl` what the gateway lets
  through of that. A saved watermark of 0 skips what arrived since
  (`Inbound.RebootstrapLosesRow`); `Inbound.LossFreeExactlyWhen` says exactly from which
  saved watermarks no run loses a message.
- internal/health/health.go:6-9 says a permission loss pushes immediately. Not within the
  reminder interval of any push, and "healthy again" is a push even for an outage that was
  never announced (`Health.UrgentCanBeSilenced`; exact in `Health.DownPushExactlyWhen`).
  The comment on `OnlyIfHealthy` (48-50) speaks of another checker being unhealthy; the
  code requires an earlier one in the list to be healthy in the same poll
  (`Health.DependencyDecides`, with an input in `Health.LateDependencySilences`).
- internal/gateway/messenger.go:24-30 says the remaining markers pair. They do not when the
  dropped marker touches another of its kind, or when dropping `_` changes what a star
  next to it is (`RichText.TouchingStarsStayOdd`, exact in `RichText.EvenExactlyWhen`;
  `RichText.UnderscoreCanUnbalanceStars`, exact in `RichText.StarParityExactlyWhen`).
  `RichText.BothEvenExactlyWhen` puts the two together for the whole text.
- internal/web/throttle.go:28-31 bounds a source to six tries per window. Asking and
  recording a failure are two critical sections with the body read in between
  (internal/web/server.go:440-464), so requests that overlap can land any number of
  guesses at one instant (`LoginThrottle.NoBoundWhenOverlapping`). With at most m requests
  of the source in flight the window a failure opens yields m + 5 guesses and a sliding
  window of the same length up to 2 * m + 9: six and eleven when they are serialised
  (`LoginThrottle.ElevenIsReached`). `LoginThrottle.BudgetIsExact` gives the exact number
  for every state, start and m, and `LoginThrottle.SixExactlyWhenSettled` says when it is
  m + 5.
- internal/logging/log.go:59-60 says the oldest buffered line is dropped. With two loggers
  the newest can be (`LogRing.NewestCanBeLost`).
- internal/scheduler/scheduler.go:72-98 arms every row it finds; a schedule saved and armed
  before the one `Start` is armed twice (`Scheduler.UpsertThenStartLeaksOne`, exact in
  `Scheduler.StartMirrorsIffNothingArmed`).
- internal/scheduler/scheduler.go:375-378 says a fired one-time job never lingers. One that
  is moved to a later time while it runs loses its row and leaves the new timer behind
  (`Scheduler.MovedWhileRunningLeaks`, exact in `Scheduler.StepKeepsExactlyWhen`).
- internal/llmcompat/llmcompat.go:109-143 moves on after a tool output and after tool calls,
  so an image on such a message is dropped (`ResponsesInput.ImageBesideCallVanishes`, exact
  in `ResponsesInput.AllShownExactlyWhen`).

The table lists the theorems and the methods with loops or branches of their own. The other
methods follow the source line by line (the dispatcher's receive, finish and exit, the queue's
insert and delete, the throttle's failure count, a session's revocation, an echo's
consumption and the like) and are tied by their contracts to the same specification functions.

## Model

| member | source | states |
|---|---|---|
| `Dispatch.StepKeeps` | internal/gateway/handler.go:311-365 | every atomic step keeps the dispatcher's invariant, a second close excepted |
| `Dispatch.OneWorkerPerSender` | internal/gateway/handler.go:269-275 | in every interleaving a sender has at most one worker still in its loop, and the map points to that worker's channel |
| `Dispatch.FifoPerSender` | internal/gateway/handler.go:311-365 | processed, then in process, then buffered messages of a sender are exactly the accepted ones, in order, across any number of retirements and recreations |
| `Dispatch.RetireKeeps` | internal/gateway/handler.go:353-359 | a worker retires only with nothing of its sender in flight |
| `Dispatch.IdleWorkersRetire` | internal/gateway/handler.go:353-361 | in every run with one close, a worker whose idle timer has fired leaves its loop and the map exactly when the dispatcher is open and nothing of its sender is in flight; otherwise it goes back to its loop and the map stays |
| `Dispatch.RetiredSenderReturns` | internal/gateway/handler.go:311-361 | a concrete run in which a sender retires and its next message gets a new channel and worker |
| `Dispatch.NeverPanics` | internal/gateway/handler.go:311-335 | no send on a closed channel and no double close in any run with one close |
| `Dispatch.SecondClosePanics` | internal/gateway/handler.go:525-534 | a second close panics exactly when some sender was still in the map |
| `Dispatch.ClosedAcceptsNothing` | internal/gateway/handler.go:311-335 | after close nothing is accepted, no worker starts and the wait group never grows |
| `Dispatch.ClosesInOrder` | internal/gateway/handler.go:525-534 | close begins to wait, the wait returns only at a count of zero, and only then is the context cancelled |
| `Dispatch.CloseDrains` | internal/gateway/handler.go:525-534 | when the wait returns, before the context is cancelled, every accepted message has been processed |
| `Dispatch.DrainProgress` | internal/gateway/handler.go:339-365 | after close some worker can always move without a timer, and the move brings the drain strictly closer |
| `Dispatch.CloseCanFinish` | internal/gateway/handler.go:525-534 | from every state after close there is a way to finish closing |
| `Dispatch.Dispatcher.Enqueue` | internal/gateway/handler.go:311-335 | one critical section: refused when closed, a lane made on demand, the message dropped when the channel is full |
| `Dispatch.Dispatcher.CheckIdle` | internal/gateway/handler.go:353-361 | the re-check under the mutex when the idle timer fires: the worker retires exactly when open and idle |
| `Dispatch.Dispatcher.BeginClose` | internal/gateway/handler.go:525-531 | seals exactly the channels in the map, whatever order the map is ranged over |
| `Dispatch.Dispatcher.EndClose` | internal/gateway/handler.go:532-534 | the wait group is at zero and everything accepted has been processed before the cancel |
| `Gate.MemoryIsStanding` | internal/gateway/handler.go:84-99 | the remembered ids are exactly the passes no restart and no later eviction has ended, with their times |
| `Gate.DroppedExactlyWhen` | internal/gateway/handler.go:84-99 | a message is dropped exactly when its id passed before, with no restart since and no eviction more than the TTL later |
| `Gate.OncePerTtl` | internal/gateway/handler.go:581-593 | short of a restart one id passes at most once in any closed window of ten minutes |
| `Gate.FirstArrivalPasses` | internal/gateway/handler.go:84-99 | an id never seen is never dropped |
| `Gate.FiresExactlyWhenCool` | internal/gateway/handler.go:568-579 | the alert cascade fires exactly when no earlier firing for the chat is under 90 seconds old |
| `Gate.Handler.EvictDedup` | internal/gateway/handler.go:584-593 | the ranged deletion leaves exactly the ids inside the TTL |
| `Outbound.StepKeeps` | internal/store/imessage.go:11-79 | every step of store, bridge and network keeps the queue invariant |
| `Outbound.AtMostOnceInOrder` | cmd/imessage-bridge/poller.go:47-67 | over any run of lost responses, failures and crashes, the ids handed to Send strictly increase, each with its queued recipient and text |
| `Outbound.PendingPickedRemovedPartition` | internal/store/imessage.go:11-79 | every queued id is in exactly one of pending, picked and removed, and is removed only after its Send succeeded |
| `Outbound.ClaimedStaysClaimed` | internal/store/imessage.go:27-68 | a claimed row is never served again |
| `Outbound.NoOvertaking` | internal/store/imessage.go:27-68 | while a message is pending nothing queued after it has been sent |
| `Outbound.CleanPollDelivers` | cmd/imessage-bridge/poller.go:47-67 | a poll without faults delivers the oldest pending message and empties its row |
| `Outbound.PollMeans` | cmd/imessage-bridge/poller.go:47-67 | the rows, attempts, deliveries, removals and acks on the wire after a poll, for every way it can go |
| `Outbound.FaultsMean` | internal/store/imessage.go:27-79 | what a lost claim, a failed Send, a delayed ack, its arrival and a crash each leave behind |
| `Outbound.Store.NextIMessageOutbound` | internal/store/imessage.go:30-68 | claims the least pending id, or nothing; the fast check writes nothing |
| `Outbound.Store.StaleIMessageOutboundIDs` | internal/store/imessage.go:84-106 | lists exactly the rows picked before the cutoff, ascending, and serves none |
| `Outbound.Poller.PollOnce` | cmd/imessage-bridge/poller.go:47-67 | one poll is a run of the machine, whatever fails |
| `Inbound.StepKeeps` | cmd/imessage-bridge/watcher.go:63-117 | every step, fault or crash keeps the watermark invariant |
| `Inbound.NothingSkipped` | cmd/imessage-bridge/watcher.go:87-110 | from a positive saved watermark, the saved one never passes the one in memory, and every qualifying row up to either was accepted at least once, whatever is lost, delayed or crashes |
| `Inbound.StateFileNeverTorn` | cmd/imessage-bridge/state.go:36-52 | the state file is whole after any crashes and failed writes |
| `Inbound.LossFreeExactlyWhen` | cmd/imessage-bridge/watcher.go:63-81 | no run ever loses a row that came after the start exactly when the saved watermark is positive and not beyond the table |
| `Inbound.RebootstrapLosesRow` | cmd/imessage-bridge/watcher.go:63-81 | a concrete run in which a message is lost that way |
| `Inbound.PassableExactlyWhen` | cmd/imessage-bridge/watcher.go:83-110 | with no scan in progress, some continuation gets past a row exactly when the server takes every owed row up to it and no qualifying row above the watermark has a NULL handle |
| `Inbound.AcceptedExactlyWhen` | internal/imessage/server.go:82-91 | a post is accepted exactly when it fits and has a handle and some text or media, so a picture alone is |
| `Inbound.BrokenRowWedges` | internal/imessage/server.go:82-91 | the watermark, saved or not, stays below a row the server refuses for ever: no usable handle, neither text nor media, or an oversized body |
| `Inbound.BareRowWedges` | cmd/imessage-bridge/media.go:47-65 | a concrete table with a sound handle, no text and an attachment that cannot be built, which nothing ever gets past |
| `Inbound.NullHandleFreezes` | cmd/imessage-bridge/schema.go:127-145 | with a NULL handle above the watermark and no scan in progress, nothing is saved, the watermark never advances and nothing is accepted but what was on the wire, in any continuation |
| `Inbound.ExactlyOnceWhenCareful` | cmd/imessage-bridge/watcher.go:87-117 | without lost responses or delayed requests and without a crash while the watermark is unsaved, accepted rows strictly increase, across restarts and whatever saves fail |
| `Inbound.RepeatableExactlyWhen` | cmd/imessage-bridge/watcher.go:63-110 | with no scan in progress, an accepted row can be accepted again by some continuation exactly when a request for it is on the wire, or it is above the saved watermark and no qualifying row above that has a NULL handle |
| `Inbound.AcceptedAreUnsaved` | cmd/imessage-bridge/watcher.go:87-110 | in every state, nothing at or below the saved watermark is ever accepted from then on but what is on the wire |
| `Inbound.LostResponseRepeats` | cmd/imessage-bridge/client.go:60-83 | a concrete run in which a lost response repeats a message |
| `Inbound.DelayedRequestRepeats` | cmd/imessage-bridge/client.go:50-83 | a concrete run in which a timed-out request repeats a row at the saved watermark |
| `Inbound.FailedSaveRepeats` | cmd/imessage-bridge/watcher.go:104-107 | a concrete run in which a failed save and a crash repeat one |
| `Inbound.CleanScanForwardsAll` | cmd/imessage-bridge/watcher.go:87-110 | a scan without faults hands over every selected row in order and leaves both watermarks at the last |
| `Inbound.PassMeans` | cmd/imessage-bridge/watcher.go:94-110 | what any pass comes to: the rows before the first failure accepted in order, the watermark at the last of them whatever saves fail, and what a lost response or a request on the wire leaves of the failing row |
| `Inbound.ScanMeans` | cmd/imessage-bridge/watcher.go:87-110 | a scan is that pass over everything above the watermark, or nothing when the table cannot be read or a NULL handle is among it |
| `Inbound.FaultsMean` | cmd/imessage-bridge/watcher.go:63-117 | what an unreadable table, a failed post, a failed save and a crash each leave behind |
| `Inbound.StateFile.Save` | cmd/imessage-bridge/state.go:36-52 | writes aside and renames; a failure leaves the old state |
| `Inbound.Watcher.Bootstrap` | cmd/imessage-bridge/watcher.go:63-81 | one boot as a run of the machine |
| `Inbound.Watcher.ScanOnce` | cmd/imessage-bridge/watcher.go:87-110 | one scan as a run of the machine |
| `Inbound.Watcher.Forward` | cmd/imessage-bridge/watcher.go:94-110 | the forwarding loop stops at the first refusal or time-out and advances only past rows it heard accepted |
| `Delivery.NamesDiffer` | cmd/imessage-bridge/watcher.go:122-137 | no two rows are posted under one id |
| `Delivery.GetsThroughExactlyWhen` | internal/imessage/server.go:82-121 | a row gets past the filter exactly when some accepted copy of that very row was not dropped by the server |
| `Delivery.EveryRowGetsThrough` | internal/imessage/server.go:82-121 | over any timed run of bridge, network, server and filter, every row up to the watermark got past the duplicate filter at least once, unless the server dropped a copy of it as stale or its owner's own |
| `Delivery.NoRowTwiceWithinTtl` | internal/gateway/handler.go:84-99 | and however often it is posted it gets past again only more than ten minutes later or after a restart of the gateway |
| `Delivery.RepeatGetsThroughExactlyWhen` | internal/gateway/handler.go:84-99 | a concrete repeat gets past again exactly after an eviction more than ten minutes later or a restart |
| `ResponsesInput.ConvertKeeps` | internal/llmcompat/llmcompat.go:101-156 | every call and output is rendered in order, and without orphans the waiting queue is exactly the unanswered calls |
| `ResponsesInput.PairedIffBalanced` | internal/llmcompat/llmcompat.go:101-156 | positional binding is right exactly when every call is answered and no output precedes its call |
| `ResponsesInput.QueueEndsEmpty` | internal/llmcompat/llmcompat.go:101-156 | on such a list no call is left waiting |
| `ResponsesInput.BindsKth` | internal/llmcompat/llmcompat.go:101-156 | the k-th call keeps its name and arguments, and the output under its id is the k-th output |
| `ResponsesInput.OutputAdds` | internal/llmcompat/llmcompat.go:109-124 | a tool output adds one item under the oldest waiting id, or under a new one |
| `ResponsesInput.CallsAdd` | internal/llmcompat/llmcompat.go:125-143 | a message with calls adds its text, if any, and its calls in order under their ids |
| `ResponsesInput.ProseAdds` | internal/llmcompat/llmcompat.go:144-169 | any other adds its text, in the part its role speaks in, and its images in order |
| `ResponsesInput.AllShownExactlyWhen` | internal/llmcompat/llmcompat.go:109-156 | all text and all images come through in order exactly when no message with calls and no tool output carries an image |
| `ResponsesInput.ImageBesideCallVanishes` | internal/llmcompat/llmcompat.go:125-143 | a message whose image is dropped |
| `ResponsesInput.CallIdsDistinctExactlyWhen` | internal/llmcompat/llmcompat.go:105-142 | without orphans, call ids are pairwise distinct exactly when the supplied ones are and none of them equals a generated one |
| `ResponsesInput.InputItems` | internal/llmcompat/llmcompat.go:101-156 | the loop computes that translation, paired when the list is balanced |
| `ToolLoop.EveryOutcomeIsJustified` | internal/assistant/assistant.go:1389-1467 | at most 16 model calls and 3 nudges; an answer needed no action or satisfied its hint, an apology means no tool ran, a summary that some did, a pause 16 rounds and at least 13 calls |
| `ToolLoop.EveryAskIsPaired` | internal/assistant/assistant.go:1397-1467 | whatever the model does, every list it is handed translates to paired items with an empty queue |
| `ToolLoop.ResultsReachTheirCalls` | internal/assistant/assistant.go:1442-1464 | every executed call is shown with the result of that execution, even with system anchors in between |
| `ToolLoop.PausedIsResumable` | internal/assistant/assistant.go:970-985 | a paused list extends the one the turn began with and can be resumed any number of times |
| `ToolLoop.NoUnbackedAnswer` | internal/assistant/assistant.go:1418-1440 | a reply that owes an action is passed on only if some tool ran |
| `ToolLoop.ReplyEndsExactlyWhen` | internal/assistant/assistant.go:1418-1422 | a reply without calls ends the turn as its answer exactly when it owes nothing or a tool that backs its claim was executed before, named tool by tool (1676-1700) |
| `ToolLoop.NarrationIsNudged` | internal/assistant/assistant.go:1423-1440 | otherwise it is shown back with a nudge for its claim, and after three of these the turn ends with a summary or, when nothing ran, an apology |
| `ToolLoop.CallsAreRun` | internal/assistant/assistant.go:1442-1464 | a reply with calls never ends the turn: each call runs under its name and arguments, and the model is shown the reply, each output and each loaded protocol |
| `ToolLoop.FailureEnds` | internal/assistant/assistant.go:1403-1412 | a failed model call ends the turn, as too slow, an error or an interruption |
| `ToolLoop.SummaryIsOfWhatRan` | internal/assistant/assistant.go:1424-1427 | the summary lists every executed call, in order, with a short form of its output, and nothing else |
| `ToolLoop.ReasoningIsLast` | internal/assistant/assistant.go:1414-1416 | the reasoning kept is the last that was not empty |
| `ToolLoop.OpeningIsPlain` | internal/assistant/assistant.go:1031-1079 | a fresh turn's list carries no tool traffic |
| `ToolLoop.OpeningMeans` | internal/assistant/assistant.go:1035-1062 | prompt, history in order with the aside before its last line, hints, anchor |
| `ToolLoop.RunToolLoop` | internal/assistant/assistant.go:1389-1468 | the loop returns the outcome of the round semantics |
| `ToolLoop.RunTools` | internal/assistant/assistant.go:1442-1464 | runs the calls in order, appending each output and any anchor |
| `ToolLoop.Service.TakeTurn` | internal/assistant/assistant.go:969-986 | resumes on "continue", otherwise drops the paused list; every list shown in any turn is paired |
| `Scheduler.StepKeeps` | internal/scheduler/scheduler.go:128-262 | every mutation and every half of a fire keeps the mirror of all rows whose one-time run is not in flight, if no run ends whose job was armed anew |
| `Scheduler.StepKeepsExactlyWhen` | internal/scheduler/scheduler.go:363-396 | and only then |
| `Scheduler.LiveJobsMirrorTheTable` | internal/scheduler/scheduler.go:308-360 | after one Start and any undisturbed steps, an id has a live cron entry iff its row is enabled, recurring and parses, a timer iff it is enabled, one-time and timed, never both, and the job carries the row's current name and task; while its one-time run is in flight what is live is still wanted |
| `Scheduler.NoneLeaked` | internal/scheduler/scheduler.go:308-360 | each live entry and timer is the one its id's index names |
| `Scheduler.FiresCurrentRow` | internal/scheduler/scheduler.go:363-384 | what fires is the row as it is now |
| `Scheduler.EndLeavesNothingExactlyWhen` | internal/scheduler/scheduler.go:385-391 | when a one-time run ends its row is gone, and nothing of it is live exactly when nothing was armed meanwhile |
| `Scheduler.MovedWhileRunningLeaks` | internal/scheduler/scheduler.go:379-391 | a concrete job that moves itself while it runs and leaves a timer without a row |
| `Scheduler.StartMirrors` | internal/scheduler/scheduler.go:72-98 | Start on an unarmed scheduler establishes the mirror, whatever the clock reads |
| `Scheduler.StartKeepsRows` | internal/scheduler/scheduler.go:72-98 | Start loses no row; at most it disables one-time jobs |
| `Scheduler.StartMirrorsIffNothingArmed` | internal/scheduler/scheduler.go:72-98 | over any table and after any earlier mutations, Start establishes the mirror exactly when nothing is armed as it runs |
| `Scheduler.UpsertThenStartLeaksOne` | internal/scheduler/scheduler.go:72-98 | a concrete upsert before Start that leaves two live entries for one schedule |
| `Scheduler.MergeIsWellFormed` | internal/scheduler/scheduler.go:128-195 | an accepted upsert stores no past enabled one-time job and no new spec that does not parse |
| `Scheduler.RefusedExactlyWhen` | internal/scheduler/scheduler.go:128-172 | exactly what a request is refused for |
| `Scheduler.MergeMeans` | internal/scheduler/scheduler.go:173-190 | an accepted one stores what it names and keeps what was there |
| `Scheduler.UpsertTakesEffect` | internal/scheduler/scheduler.go:128-195 | it is stored under the id of its name, no other row changes, and the row's live jobs are those it asks for |
| `Scheduler.EnableTakesEffect` | internal/scheduler/scheduler.go:226-240 | a refused toggle changes nothing; otherwise the row ends up as asked, no other changes, and a disabled one has no live job |
| `Scheduler.RenameTakesEffect` | internal/scheduler/scheduler.go:199-222 | a rename changes the name alone and re-arms under it, or nothing |
| `Scheduler.DeleteTakesEffect` | internal/scheduler/scheduler.go:243-262 | a deletion removes the named row and all its jobs, and no other row |
| `Scheduler.StampTakesEffect` | internal/scheduler/scheduler.go:368-371 | the end of a recurring run stamps its row and changes nothing else |
| `Scheduler.Scheduler.StartAll` | internal/scheduler/scheduler.go:72-98 | the loop over the listed rows |
| `Scheduler.Scheduler.GetSchedule` | internal/store/schedules.go:118-130 | finds the one row of a name |
| `Scheduler.Scheduler.UpsertFull` | internal/scheduler/scheduler.go:128-195 | keeps the mirror; saved exactly when the merge accepts |
| `Scheduler.Scheduler.RenameTo` | internal/scheduler/scheduler.go:199-222 | keeps the mirror; the exact cases in which it succeeds |
| `Scheduler.Scheduler.Enable` | internal/scheduler/scheduler.go:226-240 | keeps the mirror; a past one-time job is not enabled |
| `Scheduler.Scheduler.Remove` | internal/scheduler/scheduler.go:243-262 | keeps the mirror; the row and its jobs go together |
| `Scheduler.Scheduler.FireTimer` | internal/scheduler/scheduler.go:380-384 | the timer is dead before its run begins, the index still names it |
| `Scheduler.Scheduler.EndTimer` | internal/scheduler/scheduler.go:385-391 | deletes row and index entry, and keeps the mirror exactly when no job of the id is live |
| `Scheduler.Scheduler.StampRun` | internal/scheduler/scheduler.go:368-371 | keeps the mirror; the row, if there still is one, is stamped |
| `TokenBucket.TokensStayInRange` | internal/web/throttle.go:163-177 | tokens never leave [0, burst] |
| `TokenBucket.StretchBound` | internal/web/throttle.go:163-177 | any stretch of calls is allowed no more than burst plus the refill measured over it, even if the clock runs backwards |
| `TokenBucket.IntervalBound` | internal/web/throttle.go:140-177 | with an ordered clock at most burst + rate * (t2 - t1) calls are allowed in any [t1, t2] |
| `TokenBucket.AllowedExactlyWhenWithinQuota` | internal/web/throttle.go:163-177 | a call is allowed exactly when no stretch ending with it would exceed its quota |
| `TokenBucket.Bucket.Allow` | internal/web/throttle.go:163-177 | refills, then spends one token or refuses |
| `LoginThrottle.SweepUnobservable` | internal/web/throttle.go:44-86 | however requests overlap, the eager sweep never changes an answer nor which requests are in flight |
| `LoginThrottle.SweepBounds` | internal/web/throttle.go:44-56 | over 1024 sources only windows that are not over survive a request, and all of those do |
| `LoginThrottle.SettlementMeans` | internal/web/throttle.go:69-92 | a wrong key counts in the open window or opens one, a right one clears the source, a garbled body changes nothing, no other source is touched |
| `LoginThrottle.BudgetIsKept` | internal/web/throttle.go:46-92 | in any half-open quarter hour without a success a source with at most m requests in flight lands at most what its state at the start allows: what the open window yields, a fresh one's m + 5, or both |
| `LoginThrottle.BudgetIsAttained` | internal/web/throttle.go:46-92 | from every reachable state, at every start and for every m some events inside the interval attain that number |
| `LoginThrottle.BudgetIsExact` | internal/web/throttle.go:46-92 | so n bounds every continuation exactly when the budget is at most n |
| `LoginThrottle.NoBoundWhenOverlapping` | internal/web/server.go:440-464 | from every state in which a source is not locked out, overlapping requests can land any number of guesses at one instant |
| `LoginThrottle.SixPerWindow` | internal/web/throttle.go:13-31 | at most m + 5, which is six for serialised requests, unless a window that began before the interval still has room or requests in flight |
| `LoginThrottle.SixExactlyWhenSettled` | internal/web/throttle.go:13-31 | and m + 5 bounds every continuation only then |
| `LoginThrottle.ElevenPerSlidingWindow` | internal/web/throttle.go:46-92 | in any half-open quarter hour without a success at most 2 * m + 9, which is eleven for serialised requests |
| `LoginThrottle.ElevenIsReached` | internal/web/throttle.go:46-92 | that many guesses in a quarter hour that starts a second after a first failure |
| `LoginThrottle.LockoutEndsWithWindow` | internal/web/throttle.go:47-85 | without a success in flight a source refused once is let in again exactly when its window is over, whatever it tries and whatever failures in flight arrive in between |
| `LoginThrottle.Throttle.Sweep` | internal/web/throttle.go:50-56 | removes exactly the expired windows of a large map |
| `LoginThrottle.Throttle.Allow` | internal/web/throttle.go:47-66 | the real throttle's answer and new map |
| `LoginThrottle.Throttle.Begin` | internal/web/server.go:440-446 | the first half of a login request |
| `LoginThrottle.Throttle.Finish` | internal/web/server.go:447-473 | the second, whenever it comes |
| `Sessions.MapsFollowHistory` | internal/web/server.go:383-438 | a token is held with its issue and last use, or it is revoked, never issued or past a limit |
| `Sessions.ValidExactlyWhen` | internal/web/server.go:405-430 | valid exactly when issued, not revoked, younger than the lifetime and used within the ttl |
| `Sessions.DeadStaysDead` | internal/web/server.go:405-430 | a token refused once is refused ever after |
| `Sessions.PruneBounds` | internal/web/server.go:383-403 | over 4096 tokens an issue leaves exactly those within both limits |
| `Sessions.RefusedIsForgotten` | internal/web/server.go:405-430 | a refused token is dropped from both maps |
| `Sessions.Manager.IssueToken` | internal/web/server.go:383-403 | prunes when many are held, then records the token in both maps |
| `Sessions.Manager.Prune` | internal/web/server.go:391-398 | the ranged deletion removes exactly the dead tokens |
| `Sessions.Manager.IsValid` | internal/web/server.go:405-430 | answers, extends or lazily deletes |
| `Echo.Bounded` | internal/gateway/echo.go:38-70 | never more than the cap, never the empty id |
| `Echo.EvictedExactlyWhen` | internal/gateway/echo.go:46-69 | marking another id loses an unexpired one exactly when cap - 1 tracked ids are newer |
| `Echo.MarkForgetsExpired` | internal/gateway/echo.go:38-70 | a mark records its id, forgets every other an hour old and brings in nothing else |
| `Echo.StaysConsumable` | internal/gateway/echo.go:38-70 | with increasing times an id stays consumable for under the ttl while fewer than cap - 1 distinct others are marked after it |
| `Echo.OncePerMark` | internal/gateway/echo.go:73-85 | a successful consume has its own mark, not consumed in between |
| `Echo.Tracker.MarkId` | internal/gateway/echo.go:38-70 | sweep, evict, record; both maps keep the same keys |
| `Echo.Tracker.SweepExpired` | internal/gateway/echo.go:46-51 | removes exactly the expired ids |
| `Echo.Tracker.Oldest` | internal/gateway/echo.go:53-63 | always finds an oldest id, so the break on an empty key is never taken |
| `Echo.Tracker.EvictToCap` | internal/gateway/echo.go:52-66 | ends, removing only what it must and nothing newer than what it keeps |
| `Health.DownSinceIsOnset` | internal/health/health.go:158-178 | downSince holds a checker exactly while its last telling result was unhealthy, and is the first such poll since it was healthy |
| `Health.DownPushExactlyWhen` | internal/health/health.go:173-198 | a down push goes out exactly when nothing was pushed within the reminder interval and the failure is urgent, or past the grace period by day, or past both waits by night |
| `Health.BackPushExactlyWhen` | internal/health/health.go:161-167 | healthy again goes out exactly on the first healthy result after an unhealthy one |
| `Health.DownPushesAreSpaced` | internal/health/health.go:180-187 | a down push is never within the reminder interval of any earlier push |
| `Health.LongOutageIsAnnounced` | internal/health/health.go:180-198 | an outage past both waits was pushed about within the last reminder interval or is now |
| `Health.UnknownDisturbsNothing` | internal/health/health.go:155-159 | removing an unknown result from a history changes nothing |
| `Health.UrgentCanBeSilenced` | internal/health/health.go:180-187 | a concrete history in which a permission loss is not pushed |
| `Health.DependencyDecides` | internal/health/health.go:210-247 | a checker is judged on its own probe exactly when its dependency is empty or an earlier checker that was healthy in the same poll: healthy on success, unknown when it cannot tell, unhealthy with the failure's urgency and hint otherwise |
| `Health.LateDependencySilences` | internal/health/health.go:210-221 | two checkers, the dependency listed second and healthy, the first still unknown |
| `Health.EachByItsOwnHistory` | internal/health/health.go:150-202 | over any polls each checker is tracked by its own results alone |
| `Health.NoticesFollowHistories` | internal/health/health.go:150-202 | each poll sends, in order, exactly what each history calls for |
| `Health.FailureIsAnnouncedExactlyWhen` | internal/health/health.go:150-202 | from probe to notice: when a failed probe is announced in its poll, with its hint and the checker's tools |
| `Health.UrgentFailureIsAnnounced` | internal/health/health.go:180-198 | an urgent failure of a rested checker is announced in that very poll |
| `Health.RecoveryIsAnnouncedExactlyWhen` | internal/health/health.go:161-167 | when "healthy again" is sent |
| `Health.DefaultTimings` | internal/health/health.go:98-117 | the same with the timings the monitor is built with |
| `Health.Monitor.CheckAll` | internal/health/health.go:210-246 | the loop computes the findings |
| `Health.Monitor.JudgeOne` | internal/health/health.go:155-201 | one checker's share of a poll over the four maps |
| `Health.Monitor.Poll` | internal/health/health.go:150-202 | the loop computes the new tracking and the notices |
| `RichText.SanitizeTouchesOnlyLoneMarks` | internal/gateway/messenger.go:24-96 | segments lie end to end over the input, code spans come out verbatim, any other piece loses at most one star and one underscore and is never empty |
| `RichText.SegmentsConcatenate` | internal/gateway/messenger.go:44-85 | the segments concatenate to the input |
| `RichText.SegmentsCover` | internal/gateway/messenger.go:44-85 | every complete span is cut out where it opens, and no span opens inside plain text |
| `RichText.SegmentsAreWellCut` | internal/gateway/messenger.go:38-85 | no segment is empty and every code segment is one closed span |
| `RichText.SpanEndMeans` | internal/gateway/messenger.go:44-70 | a span opens with three backticks or a single one and ends with the first equal fence |
| `RichText.FencesOneAndThree` | internal/gateway/messenger.go:44-70 | one backtick or three make a span, two do not |
| `RichText.DropsTheLeftover` | internal/gateway/messenger.go:107-127 | with an odd number of formatting markers the last goes, otherwise nothing |
| `RichText.MarksMean` | internal/gateway/messenger.go:130-162 | which markers format, by their neighbours |
| `RichText.CharactersMean` | internal/gateway/messenger.go:164-173 | word characters and blanks, by code point |
| `RichText.PlainTextLosesLittle` | internal/gateway/messenger.go:100-127 | plain text loses at most one star, then at most one underscore, and never becomes empty |
| `RichText.EvenExactlyWhen` | internal/gateway/messenger.go:107-162 | one mark comes out even exactly when it went in even or the dropped marker's neighbours allow it |
| `RichText.TouchingStarsStayOdd` | internal/gateway/messenger.go:107-162 | a text whose stars stay odd |
| `RichText.LonelyMarkBalances` | internal/gateway/messenger.go:107-162 | it does whenever the dropped marker has no neighbour of its own kind |
| `RichText.DropIsLocal` | internal/gateway/messenger.go:130-162 | dropping a character changes the standing of its two neighbours only |
| `RichText.SettledExactlyWhen` | internal/gateway/messenger.go:107-127 | balancing again changes nothing exactly when the mark came out even or one character is left |
| `RichText.StarParityExactlyWhen` | internal/gateway/messenger.go:100-162 | for every text, the `_` pass keeps the parity of the stars exactly when it drops nothing, or flips both neighbouring stars or neither, read off the five characters around the dropped one |
| `RichText.BothEvenExactlyWhen` | internal/gateway/messenger.go:100-105 | when the stars and when the underscores of the whole text come out even |
| `RichText.UnderscoreCanUnbalanceStars` | internal/gateway/messenger.go:100-105 | a four-character text whose stars end up odd |
| `RichText.NeverEmptied` | internal/gateway/messenger.go:107-111 | a non-empty message is never sanitized into an empty one |
| `RichText.BalanceRune` | internal/gateway/messenger.go:107-127 | the index loop computes the balance |
| `RichText.FindCloser` | internal/gateway/messenger.go:56-70 | the search loop finds the first closing fence |
| `RichText.Cut` | internal/gateway/messenger.go:32-85 | the scan computes the segments |
| `RichText.SanitizeWhatsAppRichText` | internal/gateway/messenger.go:31-96 | the whole loop computes the sanitized text |
| `CronSpec.PrintedSpecReadsBack` | internal/web/static/app.js:1425-1443 | the console reads a printed spec back as the sorted duplicate-free days and the time in full |
| `CronSpec.PaddedTimeComesBack` | internal/web/rest.go:756-802 | a zero-padded time comes back as it was typed |
| `CronSpec.ReprintingKeepsSpec` | internal/web/rest.go:756-785 | printing what was read back gives the same spec |
| `CronSpec.AcceptedExactlyWhen` | internal/web/static/app.js:1425-1443 | which typed specs the console takes into its picker |
| `CronSpec.NumeralsAreRead` | internal/web/static/app.js:1425-1443 | the console accepts any numerals for minute, hour and days and counts days modulo seven |
| `CronSpec.SevenIsSunday` | internal/web/static/app.js:1436-1442 | a typed day 7 is read as Sunday |
| `CronSpec.TypedSpecIsStored` | internal/web/static/app.js:1425-1443 | saving what is read in any accepted spec is refused exactly when hour or minute is out of range, otherwise the printed form is stored |
| `CronSpec.StoredUnchangedExactlyWhen` | internal/web/rest.go:756-802 | and it is stored unchanged exactly when the time is in range and the text is already as the server prints it: single blanks, no leading zeros, days ascending, single digits up to 6, fewer than seven or a star |
| `CronSpec.PreviewAgreesExactlyWhen` | internal/web/static/app.js:1484-1491 | the preview builds the stored spec exactly when no day is given twice |
| `CronSpec.PreviewAsksExactlyWhen` | internal/web/static/app.js:1484-1491 | the preview asks for a day or a time exactly when one is missing |
| `CronSpec.AscendingMeans` | internal/web/rest.go:764-783 | the printed day list is strictly increasing and has just the days asked for |
| `CronSpec.ReadsClock` | internal/web/rest.go:788-802 | two numerals around a colon are read as themselves, within range |
| `CronSpec.AtoiMeans` | internal/web/rest.go:788-802 | the server reads digits with a sign or without |
| `CronSpec.AtoiFailsExactlyWhen` | internal/web/rest.go:788-802 | and nothing else |
| `CronSpec.ParseIntMeans` | internal/web/static/app.js:1484-1491 | the console skips blanks in front, takes a sign and ignores what follows the digits |
| `CronSpec.TrimMeans` | internal/web/rest.go:788-789 | trimming takes off the blanks at both ends and nothing else |
| `CronSpec.UniqueDays` | internal/web/rest.go:764-774 | the loop keeps each day once and reports the first invalid one |
| `CronSpec.BuildCronFromDays` | internal/web/rest.go:756-785 | the loops compute the printed spec |
| `CronSpec.ParseSpecTiming` | internal/web/static/app.js:1425-1443 | the statements compute the reading |
| `LogRing.Ring.Append` | internal/logging/log.go:61-69 | the in-place shift keeps exactly the last 200 lines ever logged |
| `LogRing.Ring.Recent` | internal/logging/log.go:89-101 | the last min(k, n, 200) lines, or everything held |
| `LogRing.RunKeeps` | internal/logging/log.go:35-88 | every interleaving of loggers, consumer and unsubscription keeps the feed's invariant |
| `LogRing.StepsMean` | internal/logging/log.go:43-88 | what each step does to buffer, losses and locks; only a full buffer drops, and a send on a closed channel would panic |
| `LogRing.NeverPanics` | internal/logging/log.go:43-56 | no send on a closed channel although unsubscribing races with logging |
| `LogRing.LinesKeepTheirOrder` | internal/logging/log.go:71-87 | the buffer is bounded, each logger's lines come out in order and at most once, and every line is accounted for |
| `LogRing.NewestIsKept` | internal/logging/log.go:71-87 | with one logger the buffer is the newest lines without a gap, the newest is never lost, and without losses the consumer has everything |
| `LogRing.NewestCanBeLost` | internal/logging/log.go:71-87 | with any two loggers some interleaving loses it |
| `LogRing.Fanout.Unsubscribe` | internal/logging/log.go:43-56 | removes just that channel and closes it once |
| `LogRing.NotifyIsOffer` | internal/logging/log.go:71-87 | the steps of an uninterrupted notify amount to one drop-oldest update |
| `LogRing.OfferKeepsNewest` | internal/logging/log.go:71-87 | and leave the newest lines that fit |
| `LogRing.Fanout.NotifySinks` | internal/logging/log.go:71-88 | every subscriber and nobody else is offered the line |

## Left out

- HTTP, WebSocket, whatsmeow, osascript, media conversion and SQLite itself: foreign code; a SQL statement or transaction is one atomic update.
- Probing, sending, prompts, phrase lists and tool bodies: arbitrary oracles.
- The dashboard, installer, configuration and authentication headers: plumbing.
- Database errors inside the scheduler and the store (a failed write or read-back): only the paths on which the statement succeeds.
- Concurrent scheduler calls: each mutation is one atomic step, as is the end of a fire, and the shutdown that stops timers is not a step.
- `Inbound.NothingSkipped`: row ids ascend and a row's eligibility and content are fixed when it appears; deleted rows, reused ids and files that vanish later are not modelled, and of the columns only the handle can be NULL. An attachment that is only slow to appear is a refused post.
- `Inbound.PassableExactlyWhen`: is stated with no scan in progress, because a scan already under way still forwards what it read before a NULL handle appeared; so is `Inbound.RepeatableExactlyWhen`.
- `Delivery.EveryRowGetsThrough`: the server's staleness and self-chat tests are arbitrary choices, and a request is handled at one instant.
- `TokenBucket.Bucket.Allow`: tokens are reals, so floating-point rounding is not modelled.
- `Health.Monitor.Poll`: checker names are distinct; the hint and detail kept for display, and the wording of a push, are not modelled.
- `Echo.Tracker.EvictToCap`: which of several equally old ids is evicted is left open, as ranging over a map leaves it.
- `CronSpec.ParseSpecTiming`: day numbers are exact integers; a number beyond 2^53 is rounded in the browser.
- `CronSpec.PreviewAgreesExactlyWhen`: is stated for times written as two numerals around a colon; the signs and outer blanks the server also accepts are covered by the round trip.
- `LogRing.Fanout.NotifySinks`: is the notify that no consumer interrupts; interleavings are in the step machine of the same module, one subscriber at a time.
- `RichText.SanitizeWhatsAppRichText`: invalid UTF-8, which becomes replacement characters, is not modelled.
- The streaming twin of the tool loop differs only in how tokens are delivered; the fallback of a stream that ends without completing is not modelled.
- The mutation of access grants and the disclosure and protocol phrasing: outside these protocols.
