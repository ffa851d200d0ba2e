# Agentgrove: chat dispatch, streaming and replay, verified

A Dafny model of the server side of Agentgrove chats and proofs of what its code promises. `dafny verify dfyconfig.toml`
checks everything; no file depends on anything outside this directory.

## What is modelled

**The dispatch protocol of one chat** (`Protocol`, over the queue rows of `QueueStore`). HTTP handlers, drain tasks,
the schedule ticker, truncations and the mode toggle race over the `dispatching` set, a persisted queue and the
prompts. Every handler and task is a process with a program counter; a step is one lock acquisition, one store
statement, one cache write or one task spawn, and anything may happen in between, a crash and reboot included.
`Ownership` (flag and lock) and `Ledger` (queue rows and the account of messages) prove the two parts of the invariant
that `Invariant` puts together; `Safety`, `Texts`, `Fifo`, `Wake` and `Termination` prove the results about all runs,
`Schedules` the bound on scheduled copies, and `Handlers` what each handler does when nothing runs beside it.
`Numbering` (prompt numbers, cache against store) stands on its own. `Ticker` is the ticker's own loop and the
arithmetic of its next run.

All results about runs are about *disciplined* runs, in which the three places that write the flag without looking only
find it clear:

- the deferred clear of a finished task's guard;
- the legacy `add_prompt` route, when it gets the lock;
- the forced clear of a `stop`.

Truncations may race with anything in them, and the server may die at any step. Only the results that say that prompts
are numbered without a gap, or that cache and store agree, need the run to be *steady* as well:

- a truncation that cuts prompts from the cache does so while no prompt is between reading `MAX(seq)` and being cached;
- `MAX(seq)` is not read for a new prompt while a truncation has cut prompts and not deleted them all;
- the server dies only when `MAX(seq)` is the number of stored prompts.

The wake-up result needs that items are enqueued by smart send and not by `POST /queue`, and that a reboot finds no auto
backlog. For each of these assumptions `Hazards` proves that what the results say stays true after the step if and only
if the condition holds (`Gaps` carries a misnumbering through every later schedule), and `Witnesses` has a run from the
fresh chat that goes wrong without it: two turns at once, a message left behind, or a lasting gap in the numbering.

**The streaming pipeline.** `Translate` (cumulative CLI text to deltas), `Coalesce` (the timeout-driven two-buffer loop),
`EventLog` (the bounded per-prompt buffer), `Context` (the text for a resumed session). `Events` defines what a stream
says whatever its chunking, and `Pipeline` composes the stages.

**Cache against store.** `ChatStore` and `ChatRegistry` are the tables and the in-memory registry, `Restart` the
write-through requests over both and the theorem that a restart is invisible, `Requests` what each request does to the
chats. `Paging` is the windowed view and backfill.

**Replay and parsing.** `LogBus` and `Terminal` are the two snapshot-plus-live buffers, `GitStatus` the porcelain parser.

Objects the program updates in place are classes whose methods are proved against functions on values; the theorems are
about those functions. Mutually racing code is the transition system.

## Reading the model

- A message is named by the index of the process that brought it; a chat by its place in creation order; a prompt id by
  a counter. These stand for the time-ordered UUIDs of the program and for their uniqueness.
- `owner`, `held`, `landing`, `doomed`, `accepted`, `cancelled`, `removed` and `dups` in `Protocol.State` are
  bookkeeping that no step reads.
- A truncation deletes stored prompts by what they are, number and message, where the program deletes by prompt id; a
  chat has one prompt per number (`UNIQUE (chat_id, seq)` in `crates/agentgrove-store/migrations/0005_chats.sql:72`).
- Whether a stop finds no running turn and a finished last prompt is part of the request (`Stop(forces)`), so its clear
  may come in any state: more runs than the program has.
- Rows at equal positions, which two unlocked `POST /queue` can produce, drain in the order of their inserts. The program
  orders them by `created_at`, which `enqueue` stamps before it reads `MAX(position)` (`queue.rs:125-135`), so it may
  drain such a pair the other way round. Only the drain orders of `QueueStore` speak of such a pair; `Fifo` excludes it.
- Text is a sequence of bytes, as Rust measures it. Trimming is a parameter, so results hold for any trimming function.
- Where comments and code differ, the code is modelled: the terminal's delta endpoint does not return the whole buffer
  once bytes were dropped (`Terminal.PollIsExactIff`); deleting a project marks its chats deleted instead of removing
  them; the guard's clear can find the flag taken again (`Hazards.DeferredClearSafeIff`).

## Model

| member | source | states |
|---|---|---|
| `QueueStore.Head` | crates/agentgrove-store/src/queue.rs:161-184 | The row a pop takes is Pending and no Pending row comes before it by position, then creation; there is none exactly when nothing is pending. |
| `QueueStore.HeadUnique` | crates/agentgrove-store/src/queue.rs:161-184 | That row is unique: any row with the property is the one popped. |
| `QueueStore.NextPosIsOneAbove` | crates/agentgrove-store/src/queue.rs:126-135 | A new item's position is exactly one above the highest in use, Running rows included, and 0 on an empty queue. |
| `QueueStore.AppendIsLast` | crates/agentgrove-store/src/queue.rs:125-135 | An item enqueued at the next position drains after everything that was pending. |
| `QueueStore.ResetUndoesPop` | crates/agentgrove-store/src/queue.rs:228-243 | Resetting a popped row restores the queue as it was before the pop, position included. |
| `QueueStore.ReorderDrainsAsAsked` | crates/agentgrove-store/src/queue.rs:291-353 | After a reorder the queue drains in the specified final order, a permutation of the pending ids; Running rows are untouched. |
| `QueueStore.ReorderHonoursRequest` | crates/agentgrove-store/src/queue.rs:291-353 | Read off the drain order itself: requested pending ids stand in the order in which the request first names them, all before the omitted ones, these in their old order, and nothing is lost or added. |
| `QueueStore.FinalOrderPermutes` | crates/agentgrove-store/src/queue.rs:316-331 | The final order has no repeats and is a permutation of the pending ids, whatever list was asked for. |
| `QueueStore.QueueRepo.Enqueue` | crates/agentgrove-store/src/queue.rs:125-156 | One Pending row more, last in the drain order; all else as before. |
| `QueueStore.QueueRepo.PopNextPending` | crates/agentgrove-store/src/queue.rs:158-216 | Takes the first of the drain order and marks it Running; nothing exactly when nothing is pending. |
| `QueueStore.QueueRepo.PopSpecificPending` | crates/agentgrove-store/src/queue.rs:245-289 | Marks the named row Running exactly when it is pending; otherwise nothing changes. |
| `QueueStore.QueueRepo.MarkDone` | crates/agentgrove-store/src/queue.rs:218-226 | Deletes the row exactly when it is Running; every other row stays, in its old order. |
| `QueueStore.QueueRepo.ResetToPending` | crates/agentgrove-store/src/queue.rs:228-243 | Rolls the row back exactly when it is Running; its position is kept. |
| `QueueStore.QueueRepo.ReorderPending` | crates/agentgrove-store/src/queue.rs:300-353 | The two scans and the position writes leave the queue draining as asked: requested ids in the request's order, then the omitted ones in theirs. |
| `QueueStore.BuildOrder` | crates/agentgrove-store/src/queue.rs:316-331 | The two loops with the seen-set build the final order, which honours the request. |
| `Invariant.InvStep` | crates/agentgrove-api/src/chats.rs:1174-1270 | Every step of any handler or task that writes the flag blindly only when it is clear, and every crash, keeps: the flag is set exactly while one process owns it, the lock has one holder, each popped row has one process answering for it, and every message is accounted for; truncations may race with all of it. |
| `Numbering.NumGo` | crates/agentgrove-api/src/chats.rs:1453-1477 | Every steady step, each single delete of a truncation included, keeps that cached prompts are 1..n and the first stored ones, and that the stored prompts beyond them are exactly those some truncation has still to delete, each owned by one, or the one about to be cached. |
| `Numbering.NumStep` | crates/agentgrove-api/src/chats.rs:1453-1477 | The same for every steady event, arrivals, outside edits and crashes included. |
| `Numbering.NumberedIffMaxIsCount` | crates/agentgrove-store/src/chat.rs:340-383 | Rising prompt numbers are 1..n if and only if `MAX(seq)` is their count. |
| `Safety.NoParallelTurns` | crates/agentgrove-api/src/chats.rs:1174-1270 | In every reachable state the chat is in `dispatching` exactly when an owner exists, and there is never a second owner: no two agent turns. |
| `Safety.NothingLostNothingRepeated` | crates/agentgrove-api/src/chats.rs:1592-1658 | Each accepted message is exactly once a prompt, waiting, cancelled or truncated, plus its crash copies, and no other message is anywhere; there are at most as many crash copies as crashes. Races with truncations and crashes at any step included. |
| `Texts.MessagesKeepTheirText` | crates/agentgrove-api/src/chats.rs:1592-1658 | On every disciplined run each queue row says what its sender said, or the last edit that found it pending; each prompt, stored or cached, says what its message said when it was taken up, which is the same unless a crash put that message back in the queue. The texts are read off the events. |
| `Safety.PromptNumbersHaveNoGap` | crates/agentgrove-store/src/chat.rs:340-383 | On steady runs cached prompts are numbered 1..n and begin the store, though MAX, INSERT and cache push are separate steps and truncation deletes row by row; every stored prompt beyond the cache is about to be cached by the adder with the flag or lock, or about to be deleted by a running truncation; with no truncation deleting, the stored prompts are 1..n. |
| `Safety.StoredNumbersRise` | crates/agentgrove-store/src/chat.rs:340-383 | On every disciplined run, whatever truncations and crashes do, stored prompts have distinct rising numbers and a number already read is above them all: an insert never meets a taken number. |
| `Safety.AtMostOneRunning` | crates/agentgrove-api/src/queue.rs:268-296 | At most one queue row is Running, and then a live process answers for it. |
| `Safety.CrashLosesNothing` | crates/agentgrove-server/src/main.rs:83-97 | A crash at any step followed by boot loses no accepted message, leaves no row Running, makes at most the one popped row both a prompt and pending, and keeps the invariant; the rebuilt cache is numbered 1..n if and only if `MAX(seq)` was the number of stored prompts. |
| `Fifo.FirstComeFirstServed` | crates/agentgrove-api/src/chats.rs:1139-1173 | On runs without reorder, out-of-order dispatch, the legacy route, `POST /queue`, or a crash while a popped row already is a prompt: timeline, then the popped message, then the drain order is exactly the acceptance order with the cancelled and truncated ones taken out. |
| `Wake.WakeStep` | crates/agentgrove-api/src/chats.rs:1669-1695 | Every step keeps that a stranded pending item has a process coming for it, also while the owner is between the reads of its release. |
| `Wake.NoLostWakeUp` | crates/agentgrove-api/src/chats.rs:1553-1573 | In auto mode with a pending item, either the flag is held by a process that will look again, or a handler is still to run its kick or to take the flag, even when the mode write falls between the two reads of the release. |
| `Termination.EveryStepShrinks` | crates/agentgrove-api/src/chats.rs:1579-1658 | Every step of a process makes a fixed measure of the chat strictly smaller. |
| `Termination.InternalRunsEnd` | crates/agentgrove-api/src/chats.rs:1579-1658 | Without new outside steps, any schedule ends within that measure: the drain and re-check loops cannot go round forever. |
| `Termination.NoDeadlock` | crates/agentgrove-api/src/chats.rs:1553-1573 | While a process is not done, some process can move. |
| `Termination.RestIsIdle` | crates/agentgrove-api/src/chats.rs:1669-1695 | When nothing can move, every process is done, the flag and lock are clear, no row is Running, and in auto mode the queue is empty; with the numbering intact, cache and store agree and are 1..n. |
| `Termination.RestIsReached` | crates/agentgrove-api/src/chats.rs:1579-1590 | From every reachable state the processes can be brought to rest, by a steady schedule. |
| `Termination.DrainsToIdle` | crates/agentgrove-api/src/chats.rs:1579-1658 | Once outside steps stop, every schedule ends; at rest the flag is clear, and in auto mode every accepted message is a prompt unless cancelled or truncated. |
| `Termination.EndsNumbered` | crates/agentgrove-api/src/chats.rs:1453-1477 | When outside steps stop on a steady run and all comes to rest steadily, cache and store agree and are numbered 1..n. |
| `Handlers.RunStartsTurn` | crates/agentgrove-api/src/queue.rs:260-426 | `run_next` and `dispatch_item` on an idle chat: the head of the drain order, or the row with the id, leaves the queue, becomes the next prompt with its own text in store and cache, and its turn starts. |
| `Handlers.PopTakesNamed` | crates/agentgrove-store/src/queue.rs:245-289 | The row such a request marks Running is the one it names. |
| `Handlers.PopTakesNothing` | crates/agentgrove-store/src/queue.rs:245-289 | An id that is not pending, or an empty queue, starts nothing. |
| `Handlers.RetryStartsTurn` | crates/agentgrove-api/src/chats.rs:2332-2360 | A retry on an idle chat with a prompt starts a turn and adds no prompt. |
| `Handlers.SendBehindBacklog` | crates/agentgrove-api/src/chats.rs:1174-1270 | A send to an idle chat with a backlog goes behind it; in auto mode a drain starts, in manual mode nothing does. |
| `Handlers.TickSendsUnlessPending` | crates/agentgrove-api/src/schedules.rs:190-206 | A scheduled message is sent like any other unless a copy of it is pending. |
| `Handlers.AutoStartsDrain` | crates/agentgrove-api/src/chats.rs:1553-1573 | Turning auto mode on in an idle chat with a backlog starts a drain. |
| `Handlers.StopStartsDrain` | crates/agentgrove-api/src/chats.rs:1358-1370 | A stop of an idle auto chat with a backlog starts a drain. |
| `Handlers.ReorderingIsHonoured` | crates/agentgrove-store/src/queue.rs:291-353 | A reorder makes the queue of the running system drain as asked and changes nothing but positions of pending rows. |
| `Handlers.CancelRemoves` | crates/agentgrove-store/src/queue.rs:355-368 | Cancelling takes exactly the pending row with the id out of the queue. |
| `Handlers.CutTakesRest` | crates/agentgrove-api/src/chats.rs:1453-1462 | A truncation cuts from the cache exactly the prompts from its number on and takes them along, in order, to delete them. |
| `Handlers.DeleteTakesFirst` | crates/agentgrove-api/src/chats.rs:1464-1466 | Each of its deletes takes the first of them out of the store, if it is still there. |
| `Hazards.DeferredClearSafeIff` | crates/agentgrove-api/src/chats.rs:1506-1529 | The guard's second, deferred clear keeps the chat exclusive if and only if the flag has not been taken again. |
| `Hazards.ForcedClearSafeIff` | crates/agentgrove-api/src/chats.rs:1340-1351 | The forced clear of a stop, taken as a step of its own after the stop's two looks, keeps the chat exclusive if and only if it finds the flag clear. |
| `Hazards.LegacySafeIff` | crates/agentgrove-api/src/chats.rs:1105-1131 | Whatever else happens between the legacy route's lock and its claim, the claim leaves the chat exclusive if and only if the flag was clear when the route got the lock. |
| `Hazards.DirectEnqueueSafeIff` | crates/agentgrove-api/src/queue.rs:212-224 | `POST /queue` into an auto chat with nothing else in flight but the flag's owner and old guards: under every schedule the queue is empty when all is at rest if and only if the flag is held and its owner has not yet decided to release it. |
| `Hazards.BootSafeIff` | crates/agentgrove-server/src/main.rs:83-97 | Boot leaves no stranded item if and only if it finds manual mode or an empty queue. |
| `Hazards.CutSafeIff` | crates/agentgrove-api/src/chats.rs:1453-1462 | A truncation that cuts something while a prompt is between reading `MAX(seq)` and the cache leaves the cache misnumbered under every schedule that cuts no more, once nobody is adding; under steady schedules the cache ends numbered 1..n if and only if it cut nothing or nobody was there. |
| `Hazards.AddSafeIff` | crates/agentgrove-store/src/chat.rs:340-383 | After `MAX(seq)` is read for a new prompt, every schedule that cuts no more ends, once nobody is adding, with a cache numbered 1..n if and only if no truncation had rows left to delete. |
| `Hazards.CrashSafeIff` | crates/agentgrove-api/src/chats.rs:1464-1466 | The cache rebuilt after a crash is numbered 1..n if and only if `MAX(seq)` was the number of stored prompts; the numbering invariant survives if and only if the stored prompts were numbered 1..n. |
| `Gaps.SpoiltEndsMisnumbered` | crates/agentgrove-api/src/chats.rs:1453-1477 | Once a number in use is too high for the cache, every schedule without a further cut ends with a misnumbered cache as soon as nobody is adding. |
| `Witnesses.DeferredClearWitness` | crates/agentgrove-api/src/chats.rs:1506-1529 | A concrete run in which a late deferred clear leads to two turns at once. |
| `Witnesses.ForcedClearWitness` | crates/agentgrove-api/src/chats.rs:1340-1351 | A concrete run: a stop arrives between two drained turns, when no prompt is unfinished, and its clear leads to two turns at once. |
| `Witnesses.LegacyWitness` | crates/agentgrove-api/src/chats.rs:1105-1131 | A concrete run in which the legacy route starts a second turn. |
| `Witnesses.PostWitness` | crates/agentgrove-api/src/queue.rs:212-224 | A concrete run after which a posted message is pending in auto mode, the flag is clear and every process has ended. |
| `Witnesses.BootWitness` | crates/agentgrove-server/src/main.rs:83-97 | A concrete run with a crash during a drain after which a message is left pending the same way. |
| `Witnesses.AddGapWitness` | crates/agentgrove-api/src/chats.rs:1453-1477 | A concrete run: a send reads `MAX(seq)` between a truncation's cut and its delete, and the only prompt left has number 2. |
| `Witnesses.CutGapWitness` | crates/agentgrove-api/src/chats.rs:1453-1477 | The same gap from a truncation that cuts and deletes between a send's `MAX(seq)` and its insert. |
| `Witnesses.CrashGapWitness` | crates/agentgrove-api/src/chats.rs:1453-1477 | The same gap from a crash between two deletes of a truncation. |
| `Schedules.ScheduledCopiesBounded` | crates/agentgrove-api/src/schedules.rs:178-228 | A body only the ticker sends has at most two copies Pending or Running in a chat, over all interleavings, drains that reset their copy, and restarts. |
| `Ticker.Scheduler.FireDue` | crates/agentgrove-api/src/schedules.rs:178-228 | Every due schedule is taken once, earliest first, and advanced before its send is tried; afterwards none is due at that time, whatever became of the sends, and the others are unchanged. |
| `Ticker.FireLeaves` | crates/agentgrove-api/src/schedules.rs:188-217 | A fire keeps message, chat and interval; a one-time schedule is then done, a recurring one is next due later than now and is switched off if and only if its chat is gone; what is not due stays. |
| `Ticker.DueNowExact` | crates/agentgrove-store/src/schedule.rs:95-105 | The due query returns each enabled schedule whose time has come exactly once and nothing else. |
| `Ticker.DueNowSorted` | crates/agentgrove-store/src/schedule.rs:95-105 | The due query is ordered by time. |
| `Ticker.FiresAreSpaced` | crates/agentgrove-store/src/schedule.rs:107-127 | However ticks fall, a recurring schedule fires at most once per elapsed interval and once more: missed runs are made up by one fire, not one each. |
| `Ticker.OneTimeFiresOnce` | crates/agentgrove-store/src/schedule.rs:110-127 | A one-time schedule fires at most once and is then disabled. |
| `Ticker.CadenceKeptIff` | crates/agentgrove-store/src/schedule.rs:107-127 | The next slot is the original one plus whole intervals, one per fire, if and only if no fire came a whole interval late. |
| `Translate.Translator.Translate` | crates/agentgrove-agents/src/opencode.rs:388-470 | The in-place update of announced session and per-part texts, and the events returned, equal the specified step for every frame shape, missing fields included. |
| `Translate.Translator.Pump` | crates/agentgrove-agents/src/opencode.rs:241-264 | The reader task sends the translation of all lines in order and remembers an error exactly when it sent one. |
| `Translate.DeltasJoinToLastTextIff` | crates/agentgrove-agents/src/opencode.rs:409-436 | With any other frames in between, the pieces sent for a part join to its last cumulative text if and only if each text extended the one before; otherwise strictly more is sent. |
| `Translate.OnePartReply` | crates/agentgrove-agents/src/opencode.rs:409-436 | If no other part's text arrives, the turn's token text is what that part sent. |
| `Translate.SessionsAnnouncedOnChange` | crates/agentgrove-agents/src/opencode.rs:397-408 | The announced sessions are the session ids of the step starts without immediate repetitions. |
| `Translate.ReasoningAndErrorsSurface` | crates/agentgrove-agents/src/opencode.rs:437-468 | The thinking text sent is the reasoning received, and an error is sent exactly when an error frame came by. |
| `Translate.ToolEventsFollowFrames` | crates/agentgrove-agents/src/opencode.rs:472-512 | The tool events of a whole stream are one per tool frame with a part, in order, each with its frame's name, its `callID` or else its `id`, a result exactly for the states completed and error, and the frame's output or input. |
| `Translate.ErrorsFollowFrames` | crates/agentgrove-agents/src/opencode.rs:456-468 | The errors of a stream are one per error frame, in order, each with that frame's nested detail, else its nested message, else the top one, else the fixed text. |
| `Translate.EmittedIsReal` | crates/agentgrove-agents/src/opencode.rs:388-470 | The adapter never sends an empty text or a truncation sentinel. |
| `Coalesce.Turn.Dispatch` | crates/agentgrove-api/src/chats.rs:1933-2196 | The timeout-driven loop, its flushes and its closing event publish exactly the specified sequence, and the prompt's log is the bounded form of what was published. |
| `Coalesce.CoalescerInvariant` | crates/agentgrove-api/src/chats.rs:1933-2101 | Between events at most one buffer holds text, always under 64 bytes, and published plus buffered text say what was received so far. |
| `Coalesce.PublishedMeansReceived` | crates/agentgrove-api/src/chats.rs:1977-2190 | For every input and every placement of timeouts, what is published equals what was received, after dropping empty texts and joining neighbouring texts of a kind, followed by the closing event. |
| `Coalesce.NothingEmptyPublished` | crates/agentgrove-api/src/chats.rs:1952-1975 | No published event carries an empty text. |
| `Coalesce.EveryTurnEnds` | crates/agentgrove-api/src/chats.rs:2122-2190 | Every turn's events contain a terminal one, however the provider ended. |
| `Coalesce.EndingShows` | crates/agentgrove-api/src/chats.rs:2122-2190 | What is published says what was received and then, after a provider error or panic, an error with its message; after a cancelled turn `cancelled by user`; after a clean end without a terminal event, done; and otherwise nothing. |
| `Coalesce.TextsAreJoined` | crates/agentgrove-api/src/chats.rs:1931-2101 | A stream without pauses is published in texts of at least 64 bytes, but for the last before the other kind of text, another event or the end. |
| `Coalesce.PausePublishesAll` | crates/agentgrove-api/src/chats.rs:1977-2000 | A pause publishes everything received so far. |
| `Coalesce.NothingAddedIff` | crates/agentgrove-api/src/chats.rs:2122-2190 | What is published says just what was received if and only if the turn ended cleanly, was not cancelled, and the provider sent a terminal event itself. |
| `Coalesce.NeverAmplifies` | crates/agentgrove-api/src/chats.rs:1977-2101 | A turn publishes at most one event more than it received, and none more when it ends cleanly, uncancelled, with the provider's own terminal event. |
| `Events.NormKeeps` | crates/agentgrove-api/src/chats.rs:1977-2101 | The normal form used to compare streams keeps the reply, the thinking and every other event in order. |
| `Events.NormIsNormal` | crates/agentgrove-api/src/chats.rs:1977-2101 | The normal form has no empty text and no two neighbouring texts of a kind, and leaves such streams as they are. |
| `EventLog.BufferIsBounded` | crates/agentgrove-api/src/chats.rs:145-180 | Appending one by one gives the whole log up to 4096 events, and beyond that one leading `Truncated(n - 4096)` and the last 4096, the counter modulo 2^32. |
| `EventLog.BoundedReply` | crates/agentgrove-api/src/chats.rs:145-180 | The reply survives the bound if and only if no token text was evicted, and is a suffix of it in any case. |
| `EventLog.PromptLog.AppendEvent` | crates/agentgrove-api/src/chats.rs:154-180 | The in-place eviction equals the specified append. |
| `EventLog.PromptLog.Clear` | crates/agentgrove-api/src/chats.rs:182-191 | A retry empties the log, from which it is again the bounded form of the new events. |
| `Pipeline.PublishedReply` | crates/agentgrove-api/src/chats.rs:1977-2190 | The published token text is the received token text. |
| `Pipeline.StoredReplyIsLastTextIff` | crates/agentgrove-api/src/chats.rs:1977-2121 | From CLI frames to the stored log: with one part, any timeouts and any end, and no token evicted, the stored token texts join to the last cumulative text if and only if each text extended the one before. |
| `Pipeline.AdapterEndsTurn` | crates/agentgrove-agents/src/opencode.rs:297-333 | Whatever the CLI prints and however it exits, the adapter sends a terminal event, so the dispatch loop adds nothing if and only if the turn ends cleanly and uncancelled. |
| `Pipeline.SentEnds` | crates/agentgrove-agents/src/opencode.rs:297-333 | A successful exit sends done last; a failed one sends the exit's error last, or nothing when the stream already carried an error. |
| `Pipeline.ShownReplyIff` | crates/agentgrove-api/src/chats.rs:769-797 | The reply shown by the windowed view (the last 200 events) is the published one if and only if no token text is among the events left out, for logs within the bound and beyond it. |
| `Pipeline.ShownReplyIsLastTextIff` | crates/agentgrove-api/src/chats.rs:769-797 | From CLI frames and exit to the shown reply: with one part and no token text left out, it is the last cumulative text if and only if each text extended the one before. |
| `Pipeline.ResumeContextIsFaithful` | crates/agentgrove-api/src/chats.rs:2237-2279 | The context rebuilt from stored logs equals the one from uncut streams, for any chunking and timeouts, while the logs fit the bound. |
| `Context.FormatPrompt` | crates/agentgrove-api/src/chats.rs:2237-2263 | The loop over a prompt's events gives the entry made of its content, its joined reply and its tool and error notes. |
| `Context.EntryQuotesBoth` | crates/agentgrove-api/src/chats.rs:2237-2263 | Without tools and errors the entry is the user's trimmed words and, unless it is blank, the assistant's trimmed reply on a line of its own. |
| `Context.EntryNotesEach` | crates/agentgrove-api/src/chats.rs:2237-2263 | Each further tool call, tool result or error adds one line with its name and text; other events without reply text add nothing. |
| `Context.EntryByParts` | crates/agentgrove-api/src/chats.rs:2237-2263 | How reply text and noted events are interleaved makes no difference. |
| `Context.ContextGrows` | crates/agentgrove-api/src/chats.rs:2265-2279 | One more prompt puts its entry last, after those of the newest max - 1 before it. |
| `Context.ContextIgnoresChunking` | crates/agentgrove-api/src/chats.rs:2265-2279 | Histories that say the same give the same context, for any trimming function and any number of prompts. |
| `ChatRegistry.IngestKeepsIndexIff` | crates/agentgrove-api/src/chats.rs:292-301 | Taking a chat in keeps the project index right if and only if its id is new. |
| `ChatRegistry.EvictKeepsIndex` | crates/agentgrove-api/src/chats.rs:324-332 | Evicting removes the chat from its own list, changes no other list, and keeps the index right. |
| `ChatRegistry.RekeyKeepsIndex` | crates/agentgrove-api/src/chats.rs:1404-1417 | Giving a fork the store's id keeps the index right and replaces exactly that record. |
| `ChatRegistry.Registry.IngestChat` | crates/agentgrove-api/src/chats.rs:292-301 | New state and index, for a fresh id. |
| `ChatRegistry.Registry.Remove` | crates/agentgrove-api/src/chats.rs:324-332 | New state and index after an eviction. |
| `ChatRegistry.Registry.RetainChats` | crates/agentgrove-api/src/chats.rs:334-349 | Evicting the rejected chats one by one, in any order, leaves exactly the kept records and the lists without the rejected ids. |
| `ChatRegistry.Registry.Fork` | crates/agentgrove-api/src/chats.rs:239-276 | Copies exactly the prompts up to the given number, description and all but the session, under a fresh id and the new title; or changes nothing when there is no such chat or prompt. |
| `ChatRegistry.Registry.RekeyFork` | crates/agentgrove-api/src/chats.rs:1404-1417 | New state and index after a fork is re-keyed. |
| `ChatRegistry.Registry.ListForProject` | crates/agentgrove-api/src/chats.rs:100-115 | Listing by the index returns, once each and in the order of the index, exactly the chats a scan of all chats would find. |
| `ChatRegistry.Registry.CountForProject` | crates/agentgrove-api/src/chats.rs:93-98 | Counting by the index equals counting by a scan. |
| `ChatRegistry.Registry.AppendEvent` | crates/agentgrove-api/src/chats.rs:154-180 | Appends to the first prompt with the id, in the named chat only; otherwise nothing changes. |
| `ChatRegistry.Registry.RetryPrompt` | crates/agentgrove-api/src/chats.rs:182-191 | Clears events and paths of the last prompt, or changes nothing when there is none. |
| `ChatRegistry.Registry.TruncateFromSeq` | crates/agentgrove-api/src/chats.rs:278-290 | Keeps exactly the prompts below the number and reports the ids of the others; on prompts numbered 1..n these are the first ones and the rest, in order. |
| `ChatRegistry.Registry.IngestPrompt` | crates/agentgrove-api/src/chats.rs:312-322 | Appends a stored prompt to an existing chat. |
| `ChatStore.ChatRepo.Create` | crates/agentgrove-store/src/chat.rs:104-147 | One live row more without session, or nothing for an empty title. |
| `ChatStore.ChatRepo.Update` | crates/agentgrove-store/src/chat.rs:219-278 | Writes the given columns of one row and no others. |
| `ChatStore.ChatRepo.Delete` | crates/agentgrove-store/src/chat.rs:280-290 | Marks a live row deleted and reports whether it did. |
| `ChatStore.ChatRepo.Add` | crates/agentgrove-store/src/chat.rs:334-383 | Adds one row with exactly the given content, no events, the next id and a number one above the chat's highest, or reports a missing chat and changes nothing. |
| `ChatStore.ChatRepo.Write` | crates/agentgrove-store/src/chat.rs:414-445 | Same rows in the same places; the one column is written exactly where the id is the given one. |
| `ChatStore.ChatRepo.DeletePrompt` | crates/agentgrove-store/src/chat.rs:447-453 | The rows left are all those with another id, in their old order. |
| `ChatStore.NumberedIsSorted` | crates/agentgrove-store/src/chat.rs:385-412 | Reading prompts back by number returns them as stored when they are numbered 1..n. |
| `Restart.OneHome` | crates/agentgrove-store/src/chat.rs:340-383 | A prompt id belongs to one row of one chat, so a write by prompt id touches one chat only. |
| `Restart.StepKeeps` | crates/agentgrove-api/src/chats.rs:535-653 | Each completed request keeps cache and store in agreement: same live chats, metadata, prompts, events and project lists. |
| `Restart.RestartIsInvisible` | crates/agentgrove-api/src/chats.rs:368-435 | After any sequence of completed create, send, turn, retry, update, truncate, delete and project-delete requests, with restarts in between, the cache rebuilt from the store is the cache in memory, and its index agrees with a scan. |
| `Restart.PromptsStayNumbered` | crates/agentgrove-store/src/chat.rs:340-383 | Prompt numbers of every chat are 1..n in cache and store after any such sequence. |
| `Restart.SessionAfterUpdate` | crates/agentgrove-api/src/chats.rs:587-641 | After an update both cache and store hold the session the caller named, else none when the model changed, else the old one. |
| `Restart.AgreeIsUnique` | crates/agentgrove-api/src/chats.rs:368-395 | A store determines the agreeing cache up to empty project lists. |
| `Restart.TurnLogIsBuffered` | crates/agentgrove-api/src/chats.rs:154-180 | A fresh prompt ends its turn with the bounded log of the turn's events. |
| `Restart.StuckTurnRepairIff` | crates/agentgrove-api/src/chats.rs:1305-1338 | The synthetic error of a stop leaves stored and cached events equal if and only if the buffer had room. |
| `Restart.RestoreInvisibleIff` | crates/agentgrove-api/src/chats.rs:862-889 | After restoring a deleted chat a restart shows no difference if and only if it has no prompts and no younger live chat in its project. |
| `Restart.Hydrate` | crates/agentgrove-api/src/chats.rs:368-395 | The boot loop over the stored rows builds the hydrated cache, with a correct index. |
| `Restart.Service.CreateChat` | crates/agentgrove-api/src/chats.rs:665-729 | Store first, then cache under the store's id; agreement is kept. |
| `Restart.Service.SendPrompt` | crates/agentgrove-api/src/chats.rs:535-552 | Store first, then cache: both end with one more prompt, of exactly that content, without events, numbered one above the last; agreement is kept, also for a chat deleted meanwhile. |
| `Restart.Service.RunTurn` | crates/agentgrove-api/src/chats.rs:554-585 | Events arrive one by one in the cache and are written once at the end; agreement is restored. |
| `Restart.Service.RetryChat` | crates/agentgrove-api/src/chats.rs:2332-2360 | The last prompt is reset in both places. |
| `Restart.Service.UpdateChat` | crates/agentgrove-api/src/chats.rs:587-641 | The same fields change in both places, the session with the model. |
| `Restart.Service.TruncateChat` | crates/agentgrove-api/src/chats.rs:1453-1477 | The cached tail goes first, then each stored prompt by id; agreement is kept. |
| `Restart.Service.DeleteChat` | crates/agentgrove-api/src/chats.rs:643-653 | The chat disappears from cache and listing together; its row is kept, marked deleted. |
| `Restart.Service.DeleteProjectChats` | crates/agentgrove-api/src/projects.rs:149-166 | All live chats of the project are marked deleted and evicted, and no others. |
| `Requests.CreateAdds` | crates/agentgrove-api/src/chats.rs:665-729 | A create with a title adds a chat with the given description, no session and no prompts, and touches no other; without a title nothing happens. |
| `Requests.SendAdds` | crates/agentgrove-store/src/chat.rs:334-383 | A send adds, in cache and store, one prompt with exactly the content sent, no events, a fresh id and the next number. |
| `Requests.ContentsAreAsSent` | crates/agentgrove-store/src/chat.rs:334-383 | After any completed requests every stored and cached prompt has the content of the send that issued its id, read off the requests alone. |
| `Requests.FinishStores` | crates/agentgrove-api/src/chats.rs:554-585 | A finished turn leaves the bounded log of its events in its prompt, in cache and store, and no other change. |
| `Requests.RetryClears` | crates/agentgrove-api/src/chats.rs:2332-2360 | A retry leaves the last prompt as when it was sent and no other change. |
| `Requests.UpdateSets` | crates/agentgrove-api/src/chats.rs:587-641 | An update sets each given field and no other, but for the session of another model. |
| `Requests.TruncateCuts` | crates/agentgrove-api/src/chats.rs:1453-1477 | A completed truncation leaves exactly the prompts below its number, in cache and store. |
| `Requests.DeleteHides` | crates/agentgrove-api/src/chats.rs:643-653 | A deleted chat is gone from memory and from the listing, and no other is. |
| `Requests.DeleteProjectHides` | crates/agentgrove-api/src/projects.rs:149-166 | A deleted project's chats are gone, and no others. |
| `Paging.PageContinues` | crates/agentgrove-api/src/chats.rs:1062-1095 | A page ends where the held part begins, is not empty while older prompts exist, has at most 200, and says `at_start` exactly when nothing older is left. |
| `Paging.Reassemble` | crates/agentgrove-api/src/chats.rs:769-797 | Window first, then pages before the oldest held prompt, with any limits: ends and rebuilds the whole list without gap or repeat. |
| `Paging.ReassembleChat` | crates/agentgrove-api/src/chats.rs:769-797 | After any completed requests, for every live chat: window and pages rebuild the list as the store has it. |
| `Paging.WindowIsWholeIff` | crates/agentgrove-api/src/chats.rs:769-797 | The window is the whole chat, and the total says so, if and only if the chat has at most 50 prompts. |
| `Paging.ShownKeeps` | crates/agentgrove-api/src/chats.rs:769-797 | A shown prompt has the id, number, content, paths and last 200 events of the stored one. |
| `LogBus.Bus.Publish` | crates/agentgrove-api/src/logbus.rs:80-93 | The topic's history is the last messages since its clear, and no other topic changes. |
| `LogBus.Bus.Subscribe` | crates/agentgrove-api/src/logbus.rs:68-74 | The snapshot is the last min(n, capacity) messages since the clear; an unknown topic is created empty. |
| `LogBus.Bus.ClearHistory` | crates/agentgrove-api/src/logbus.rs:99-104 | Empties one topic's history. |
| `LogBus.SnapshotPlusLive` | crates/agentgrove-api/src/logbus.rs:68-105 | For every interleaving of split publishes with a subscribe and clears: which messages are in the snapshot, that each later push arrives live once sent, exactly which messages come twice and exactly which are missed. |
| `LogBus.ReplayThenLiveIsSeamlessIff` | crates/agentgrove-api/src/logbus.rs:68-97 | Without overtaking, replay then live is one unbroken run of messages if and only if no publish was between its push and its send at the subscribe, or nothing came live yet. |
| `Terminal.Session.OnRead` | crates/agentgrove-api/src/terminal.rs:205-227 | The ring stays the last 200 000 bytes of all output. |
| `Terminal.Session.HistorySince` | crates/agentgrove-api/src/terminal.rs:353-372 | While at most 200 000 bytes came, returns exactly the output past the offset and its length; beyond that, the offset counts from the ring's first byte. |
| `Terminal.RingIsTail` | crates/agentgrove-api/src/terminal.rs:205-227 | After any chunks the ring is the last min(n, 200 000) bytes read. |
| `Terminal.PollIsExactIff` | crates/agentgrove-api/src/terminal.rs:339-372 | A poll returns exactly what the client lacks if and only if at most 200 000 bytes came or nothing is new. |
| `Terminal.PollsJoinToOutput` | crates/agentgrove-api/src/terminal.rs:339-372 | Any schedule of reads and polls that adopts the returned total joins to the output so far, while at most 200 000 bytes came. |
| `Terminal.AttachHasNoGap` | crates/agentgrove-api/src/terminal.rs:286-300 | Subscribe, then snapshot, against the reader's store-then-send: the ring's tail plus the live chunks it does not hold are the output from the snapshot's first byte to the last chunk stored or sent, in order, for every interleaving. |
| `Terminal.AttachIsExactIff` | crates/agentgrove-api/src/terminal.rs:286-300 | The snapshot and all live chunks are that output, with nothing twice, if and only if no chunk was stored between subscribing and copying or nothing came live yet. |
| `GitStatus.ParsePorcelain` | crates/agentgrove-git/src/status.rs:66-113 | The index loop stays within the bytes, ends on any input, and returns the specified entries. |
| `GitStatus.RoundTripIff` | crates/agentgrove-git/src/status.rs:66-113 | Parsing the printed entries returns them if and only if paths are free of NUL and an original path stands exactly with an R or C marker, which only the last entry may lack. |
| `GitStatus.ParsedIsPrintable` | crates/agentgrove-git/src/status.rs:66-113 | Whatever the bytes, the entries read have that form. |
| `GitStatus.ReadingIsStable` | crates/agentgrove-git/src/status.rs:66-113 | On arbitrary bytes, printing what was read and reading again gives the same entries. |

## Left out

- Safety.NoParallelTurns: one chat is modelled. Critical sections of other chats only delay the shared mutex.
- Fifo.FirstComeFirstServed: a crash while a popped row already is a prompt is excluded, since that message returns to the queue (`Safety.CrashLosesNothing` covers it); so are the legacy route, which stores past the queue, and `POST /queue`, whose unlocked position read can tie with another's.
- Safety.PromptNumbersHaveNoGap: for steady runs; `Hazards.CutSafeIff`, `Hazards.AddSafeIff` and `Hazards.CrashSafeIff` say exactly when the excluded steps are harmless, the gap witnesses what happens otherwise.
- Ticker.Scheduler.FireDue: what became of the queue check and the send of a due schedule is an input here; the check and the send themselves are `Protocol`'s ticker processes.
- Wake.NoLostWakeUp: needs that smart send is the only way to enqueue and that a reboot finds no auto backlog; `Hazards.DirectEnqueueSafeIff` and `Hazards.BootSafeIff` say exactly when the excluded steps are harmless.
- Termination.DrainsToIdle: an agent turn is one step, so a provider that never ends is not modelled.
- Pipeline.StoredReplyIsLastTextIff: with other parts writing too, tokens interleave; per part the result is `Translate.DeltasJoinToLastTextIff`.
- Pipeline.ResumeContextIsFaithful: logs over 4096 events lose their oldest events, and the context with them.
- EventLog.BufferIsBounded: a provider that itself sends a truncation sentinel is excluded; the adapter never does (`Translate.EmittedIsReal`).
- Restart.RestartIsInvisible: requests are completed ones. During a turn the cache is ahead of the store by the turn's events; restore is treated by `Restart.RestoreInvisibleIff`; fork keeps the source's prompt ids in the cache and revert adds a prompt in memory only, so both are outside. Truncation racing with sends is treated in `Protocol`.
- Terminal.PollsJoinToOutput: bytes, not the lossily decoded text of each response.
- Paging.Reassemble: the client's loop is not part of the repository's server; the method states what the two endpoints give any client that follows the protocol.
- Failed store statements, panics, and chats deleted while a drain runs: with a deleted chat the drain loop pops, resets and re-checks for ever.
- Error exits after a pop or a claim (`run_next`, `dispatch_item`, `send_message` when the chat or prompt write fails), which leave a Running row or a set flag behind.
- Truncation numbers over 32 bits, and the answer a truncation gives.
- Equal creation times: rows with the same timestamp count as ordered by creation.
- Session ids captured from the stream, the retry after a lost provider session, `/compact`, and cancellation tokens; a cancelled turn is an outcome of the dispatch loop.
- The cost of a turn, and JSON values beyond their serialized text.
- Overflow of the sentinel's counter is wrap-around; a build with overflow checks would stop instead.
- Broadcast receivers that lag, and the recovery of the WebSocket loop after a lag.
- Non-UTF-8 bytes in git paths: entries carry the raw bytes of a path.
- Editing, pausing and validating schedules.
- Other provider adapters, slash-command scanning, themes, settings, URL and file-name handling, backups, worktrees, and all user-interface code: they would add only easy members.
- Subprocesses, SQLite, HTTP and WebSocket framing, OAuth, and the clients of git, gh, glab, ClickUp and Postgres: behaviour outside this repository.
