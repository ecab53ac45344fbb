# The trainer's queue, proved

Several daemons share one PostgreSQL library. Each claims a training job under a fresh claim
token, trains it in a child process, keeps every finished epoch's weights in the one row the
take has, and files the outcome. A job can be requeued, marked paused by cron when its task
goes silent, claimed over by another machine, asked to stop or to be cancelled, and finished,
all while an older attempt is still writing. This project models that protocol, the
concurrency inside one daemon around it, and the daemon's four sequential cores, and proves
what they promise.

## Layout

| file | what it is |
|---|---|
| `Types.dfy`, `Statements.dfy` | the tables, and every statement as a function from database to database |
| `Library.dfy` | the store as a class: one method per SQL statement, each proved to be its statement |
| `Effects.dfy` | what a later reader finds after each statement, in plain values; the log, the epoch rows and the progress after any run |
| `Fence.dfy`, `Rows.dfy` | any sequence of statements: stragglers, lost runs, cancels, attempts conserved, the shape of rows |
| `TakeWeights.dfy` | a take's row of weights as the fold of its accepted writes |
| `Attempts.dfy` | one claim's life as a machine; any number of attempts beside the app and cron |
| `Safety.dfy`, `Outcomes.dfy` | the invariant of the whole system, and the promises it gives |
| `Conduct.dfy` | what an attempt does at each turn: how it begins, what its saver carries, how it obeys, how each end reads |
| `Resurrection.dfy` | the checkpoint write against a discarding cancel, lock by lock |
| `KillWait.dfy`, `PauseNow.dfy`, `Saver.dfy` | goroutine interleavings: kill and reap, "pause now", the coalescing saver |
| `Disk.dfy` | which pair a saver look picks off the scratch directory |
| `AvgRate.dfy` | the windowed average of seconds per epoch |
| `Lines.dfy`, `Dsn.dfy` | the line reader; the library address printed and split |
| `Wav.dfy`, `WavFile.dfy`, `WavGen.dfy` | the chunk scanner, files as lists of chunks, the capture generator |

An operation that updates rows or fields in place is a method on a class, and its contract
equates the new state with a function of the old one. What the operation is for is proved
about that function, over whole runs.

## What is assumed

- A claim token is never minted twice.
- A take has at most one live job; `Enqueue` refuses a second, as the `jobs_one_live` index does.
- The app withdraws no stop and no cancel. It may ask, close a live row, and drop a take's weights
  at any time; cron may mark any running row. Nothing else outside the daemons writes.
- The library starts with no jobs. Takes may already carry weights, which then belong to no job.
- A statement is one atomic step, except in `Resurrection`, which splits two of them at their locks.
- A sha256 is an injective tag of the bytes. Floating point figures are reals.
- A pair a saver look takes is never empty, since an empty file is neither a zip nor JSON
  (`internal/worker/live.go:178-191`). An empty model file counts as no model (`internal/worker/worker.go:983-986`).

## Where the code and its comments differ

The model follows the code.

- The comment of `ClaimNext` (`internal/store/worker.go:39-43`) says the fence includes `paused_at`.
  The shared fence (line 31) does not: only `PutCheckpoint` looks at it
  (`internal/store/checkpoint.go:82-83`). So a run marked silent may still file its result
  (`Fence.SilentRunStillFiles`), and `Fence.LostForever` speaks of the checkpoint write alone.
- There is no control poller, though the package comment and `runJob` still speak of one
  (`internal/worker/worker.go:25`, `internal/worker/worker.go:549`).
- `RequeueJob` leaves the paused mark on the row (`internal/store/worker.go:105-110`); only a claim
  takes it off (`Fence.HowAMarkClears`).
- `register` overwrites whatever is there (`internal/worker/worker.go:936-940`), so a live child can
  drop out of the registry, and "pause now" then misses it. `PauseNow.DisplacedIsMissed` is such a run;
  `PauseNow.OnlyTheDisplacedAreMissed` says that there is no other way.
- The line reader's round trip is false of lists where a line ended by CR is followed by an empty line
  ended by LF: the two terminators are read as one CRLF. `Lines.RoundTrip` says exactly when lines come back.
- `ConnString` does not quote, and leaves a negative port out. `Dsn.RoundTrip` says exactly which addresses
  come back.
- The best pair's figure is the one in its file name, not one that was printed
  (`internal/worker/ckpt.go:136-141`); `Outcomes.StoredFigures` says so.
- The saver leaves a best pair out when it was the last one sent and heard, on the ground that the library
  already holds it (`internal/worker/ckpt.go:161-165`). That is not so once the take's weights have been dropped under
  a claim that can still write: `TakeWeights.DropDefeatsShortcut` is the case, and `TakeWeights.ShortcutExactly` says
  exactly when the shortcut is invisible.
- The capture generator pads an odd byte count, so it can produce 30 seconds' worth of bytes for slightly
  less than 30 seconds. `WavGen.GeneratedInSeconds` says exactly which durations pass.

## Model

| member | source | states |
|---|---|---|
| Library.Store.ClaimNext | internal/store/worker.go:56-79 | Answers nothing exactly when no unlocked row is claimable; otherwise takes a row behind nobody of a higher priority, of the same priority and longer waiting, or of both alike and a lesser id; under a token never used before, with the previous attempt's progress and the paused mark cleared, and nothing else changed |
| Library.Store.SetJobPgid | internal/store/worker.go:84-90 | Says whether the row is still this attempt's, and records the group only then |
| Library.Store.RequeueJob | internal/store/worker.go:105-116 | A held row goes back to the queue: claim, progress and the stop are gone, a cancel and the paused mark stay; an unheld row is untouched |
| Library.Store.UpdateProgress | internal/store/worker.go:123-134 | Epoch and rate are replaced on a held row, an unusable rate is stored as none, and a figure that was not said keeps the one already there |
| Library.Store.RecordEpoch | internal/store/worker.go:142-159 | One row per job and epoch, the newest attempt's, written only while the claim is held |
| Library.Store.AppendLog | internal/store/worker.go:164-173 | A line is appended only while the claim is held |
| Library.Store.FinishSucceeded | internal/store/worker.go:193-238 | Refuses an empty model; on a held row closes it as succeeded with its result row, or as cancelled without one when a cancel is on it; on any other row writes nothing |
| Library.Store.FinishProbeSelf | internal/store/worker.go:242-255 | Closes a held probe with its verdict and no result; a cancel on the row wins |
| Library.Store.FinishFailed | internal/store/worker.go:259-269 | Closes a held row as failed and says whether it did |
| Library.Store.FinishCancelled | internal/store/worker.go:273-283 | Closes a held row as cancelled and says whether it did |
| Library.Store.PutCheckpoint | internal/store/checkpoint.go:65-142 | Writes only for a held row that is not marked silent; the answer says whether it was, with the asks on the row; then the take holds the last pair whole under this job and claim, and its best columns change only for a lower figure |
| Library.Store.Checkpoint | internal/store/checkpoint.go:155-167 | The take's row of weights, if it has one, and no change to anything |
| Library.Store.EpochEsr | internal/store/checkpoint.go:177-184 | The figure recorded for that job and epoch, or none |
| Library.HeadExists | internal/store/worker.go:61-69 | Whenever anything is claimable the drain order has a head |
| Library.HeadIsUnique | internal/store/worker.go:68-69 | Two daemons that see the same unlocked rows see the same head |
| Effects.WhoWaits | internal/store/worker.go:61-67 | A row waits for a lane and a version exactly when it is queued without an ask, or running and marked silent, is unlocked, of that version, has its take, and is a probe for the probe lane and no other |
| Effects.HeadOfTheQueue | internal/store/worker.go:68 | The head: a high row before a normal one before a low one, then the longer wait, then the lesser id |
| Effects.AskedIsNobodys | internal/store/worker.go:33-37 | Over any run a queued row with a stop or a cancel on it is claimed by nobody: it stays queued until the app closes it |
| Effects.ClaimReads | internal/store/worker.go:56-70 | The claimed row carries this worker, this instance and a fresh token, the asks as they were, and no epoch, rate or process group of the attempt before |
| Effects.PgidReads | internal/store/worker.go:84-90 | The recorded group, and nothing else moved |
| Effects.RequeueReads | internal/store/worker.go:105-115 | A requeued row is nobody's, without the stop, with the cancel and the mark it had, with no progress |
| Effects.VerdictReads | internal/store/worker.go:242-255 | A probe's verdict and figure as given, cancelled if a cancel is on it, and no result |
| Effects.FailureReads | internal/store/worker.go:259-269 | The given code, the given message unless empty, and no result |
| Effects.CancelReads | internal/store/worker.go:273-283 | Cancelled, with its own code, no message and no result |
| Effects.SuccessReads | internal/store/worker.go:193-238 | The reached epoch and the figure on the row; the result row with the model, its hash, the claim and the same two, unless a cancel is on the row |
| Effects.PutReads | internal/store/checkpoint.go:85-129 | After an accepted checkpoint write the take holds this job, this claim and the last pair; the best pair is the offer if that is lower or the take had none, whole, else the old one, whole; no other take moves |
| Effects.AnswerSays | internal/store/checkpoint.go:77-84 | Mine exactly for the running, unmarked row under that token, with the stop and the cancel on it; anybody else is told of neither |
| Effects.AsksRead | internal/store/worker.go:33-55 | An ask and a mark move one flag of their row each; the app's closing moves the state of a live row alone |
| Effects.EnqueueReads | internal/store/worker.go:49-53 | A job is queued as a fresh, unclaimed, unasked row exactly when its take has no live one |
| Effects.OtherRowsRest | internal/store/worker.go:27-31 | A statement moves no row and no result but those of the job it names |
| Effects.LogIsItsLines | internal/store/worker.go:161-173 | After any run the log is what it was and then, in order, each line said under a held claim, whole |
| Effects.EpochIsNewest | internal/store/worker.go:136-159 | After any run the row of an epoch is the newest held word on it: whose, its figure, its own seconds |
| Effects.GoingReads | internal/store/worker.go:117-134 | Epoch, rate and figure of a row after any one statement: replaced by progress, a figure only by one that was said, forgotten by a claim and a requeue, settled by an ending |
| Effects.ProgressStands | internal/store/worker.go:117-134 | While its claim holds, a row shows the newest progress written under it, whatever else happens |
| Effects.WhatIsCounted | internal/store/worker.go:56-115 | What the counts of claims, handovers, requeues and marks count, by what happened to the row |
| Fence.StaleForever | internal/store/worker.go:27-31 | A claim once over is never held again, in any continuation |
| Fence.StragglersAreInvisible | internal/store/worker.go:27-283 | Once a row is re-claimed, requeued or closed, striking every later write of the old attempt out of any run gives the same library |
| Fence.HowAClaimEnds | internal/store/worker.go:56-283 | In any run in which a claim that held stops holding, one statement made while it held ended it: its own requeue, its own terminal write, the app closing the row, or a claim taking over a row marked silent |
| Fence.LostForever | internal/store/checkpoint.go:77-84 | After the checkpoint write has answered "not yours" once, it answers so for ever |
| Fence.HowAMarkClears | internal/store/worker.go:39-43 | In any run in which the paused mark comes off, one claim took the row over in between, under a token minted there and then |
| Fence.MarkIgnored | internal/store/worker.go:27-31 | With and without the paused mark every write but the checkpoint's does exactly the same: the shared fence does not look at it |
| Fence.MarkStopsPuts | internal/store/checkpoint.go:77-91 | The checkpoint write lands exactly for a held row without the mark, and its answer says so |
| Fence.SilentRunStillFiles | internal/store/worker.go:193-238 | A run marked silent and not yet claimed over is refused its weights and still files its result |
| Fence.TerminalForever | internal/store/worker.go:193-283 | A closed job stays closed in any run: row, result, epoch rows and log |
| Fence.CancelOutranksSuccess | internal/store/worker.go:202-227 | A cancel on a job that has not succeeded keeps it from ever succeeding and from ever getting a result |
| Fence.OneLiveForever | internal/store/worker.go:49-53 | No run of statements gives a take two live jobs |
| Fence.ClaimsBounded | internal/store/worker.go:56-116 | Claims of a job are bounded by its first, its effective requeues and the handovers |
| Fence.HandoversBounded | internal/store/worker.go:39-43 | Each of cron's marks is handed over at most once |
| Fence.ConservationOfAttempts | internal/store/worker.go:56-116 | Over any run, claims of a job ≤ 1 + effective requeues + marks |
| Fence.AtMostOneEnding | internal/store/worker.go:105-283 | A claim has at most one effective ending, requeue or terminal |
| Rows.ShapedForever | internal/store/worker.go:56-283 | In every run a queued row has no claim and no progress, a running one an owner and no outcome, a succeeded one no error and exactly one of epoch count and verdict, a failed one its code, a cancelled one its code unless the app's own statement closed it while live; no pgid outlives a daemon's terminal write, and every stored figure meets the schema's sign checks |
| TakeWeights.RowIsItsHistory | internal/store/checkpoint.go:85-129 | A take's row is the fold of the writes the fence accepted since the last drop, in every run |
| TakeWeights.BestIsRunningMinimum | internal/store/checkpoint.go:95-127 | The five best columns are one offer's columns, never mixed, and that offer is the earliest of least figure, or the first write while no offer carries one |
| TakeWeights.LastIsNewest | internal/store/checkpoint.go:91-94 | The pair a continuation resumes from is the newest accepted one, whole |
| TakeWeights.StoredWeights | internal/store/checkpoint.go:85-129 | Both over every run of the queue, from any library: which accepted write, or what the take came with, the last pair and the best pair are |
| TakeWeights.ShortcutIsHarmless | internal/worker/ckpt.go:161-182 | Among any other statements, leaving out a best pair whose bytes were last sent and heard keeps the library, at every moment, as offering it at every look would: whichever writes or answers are lost, and whether or not the claim is lost on the way, as long as the take's weights are not dropped while the claim can still write them |
| TakeWeights.ShortcutExactly | internal/worker/ckpt.go:161-182 | Over any run the shortcut is invisible at every moment if and only if at each pair it leaves out the write is refused or the row already holds a best that the pair does not beat |
| TakeWeights.DropDefeatsShortcut | internal/worker/ckpt.go:161-182 | Sent, heard, dropped and found again: a pair is then not stored as best, though offering it every time would store it |
| TakeWeights.NoForeignWrite | internal/store/worker.go:49-53 | From a token's minting to any accepted checkpoint write under it, no other claim's write on that take is accepted |
| Safety.InvStep | internal/worker/worker.go:472-826 | Every step of every attempt, of the app and of cron keeps the invariant of the whole system: results, weights, epoch figures and claims all trace back to the attempts that made them |
| Outcomes.Reached | internal/worker/worker.go:472-826 | So every reachable state meets it, from any library without jobs |
| Outcomes.ResultProvenance | internal/worker/worker.go:732-826 | A result exists exactly for a succeeded training job, under the row's own claim, epoch count and figure; its model and count are one pair written by the trainer of an attempt of that very job, and its figure was printed by that job for that very epoch or for the exported model; a parent's weights are never filed and a probe never has one |
| Outcomes.CancelledWasAsked | internal/store/worker.go:271-283 | A cancelled job carries a cancel, or at some point of the history the app's own statement found it live and closed it; so a cancelled state written by a daemon implies a request |
| Outcomes.CancelWins | internal/store/worker.go:202-227 | Once a cancel is on an unfinished job no continuation of the system makes it succeed or gives it a result |
| Outcomes.StepsAreTheirStatements | internal/worker/worker.go:472-826 | Whatever the attempts do, the library goes through exactly the statements they send |
| Outcomes.StragglersLeaveNoTrace | internal/store/worker.go:27-31 | Everything an attempt still sends after losing its row can be struck from the run without changing the library |
| Outcomes.LosersStayLost | internal/store/checkpoint.go:38-43 | An attempt once refused by the checkpoint write is refused in every continuation of the system |
| Outcomes.SpawnResumes | internal/worker/worker.go:906-934 | A spawn of the train lane resumes from exactly the last accepted write of its take as of a read after its own claim, or from nothing when there is none; never from empty bytes unless the take came with them; a continuation never spawns from nothing; a claim that found an ask on the row never spawns |
| Outcomes.OnlyItsOwnWrites | internal/worker/worker.go:906-934 | From an attempt's claim to any accepted checkpoint write of its own, no other attempt's write on its take is accepted |
| Outcomes.FirstWriteReplacesResumed | internal/worker/worker.go:906-934 | The row an attempt's first accepted write replaces is the very row it resumed from, unless the app dropped that in between |
| Outcomes.WeightsSurvive | internal/worker/worker.go:794-799 | Over every run a take that has weights goes on having them, whole, until the app drops them, whatever attempts end, crash, are killed or lose the row |
| Outcomes.NeverBlank | internal/worker/live.go:171-191 | At no point of any run does a take hold an empty model or checkpoint, as last or as best pair, unless it came into the run with one |
| Outcomes.StoredFigures | internal/worker/ckpt.go:127-160 | The figure stored beside the last pair was printed for that very epoch by that very job, or is the exported model's own; the best columns are one pair an attempt at a job of that take wrote, under the positive figure its own file name carries, or none, or what the take came with |
| Outcomes.LookFigures | internal/worker/ckpt.go:61-160 | Though the reader's figure is taken first, the disk read later and the recorded figure asked for last, a look attaches to the last pair only a figure printed for that pair's epoch of that job, and to the best pair only the figure of that pair's own name; both pairs are whole |
| Outcomes.ShortcutIsInvisible | internal/worker/ckpt.go:133-184 | In the whole system, from a state in which an attempt has sent no best pair, the library goes exactly as if its saver offered the best pair at every look, provided equal bytes are equal pairs and the take's weights are not dropped while the claim can still write them |
| Outcomes.RestartRequeues | internal/worker/worker.go:693-712 | A killed run of a stopping daemon goes back to the queue with its weights kept, claimable unless a cancel is on it |
| Outcomes.LosersEndSilently | internal/worker/worker.go:684-687 | An attempt that recorded the loss of its row closes no row and requeues none in any continuation |
| Outcomes.EarlyStopFiles | internal/worker/worker.go:737-780 | In every reachable state a stop or a pause that found this run's own weights files exactly them under its own claim, unless a cancel is on the row; with nothing kept, an exported model that can be read is left to be filed; with nothing exported either a pause requeues and a stop fails; a pause never fails a run otherwise than by an unreadable model |
| Outcomes.ExportFiles | internal/worker/worker.go:807-826 | In every reachable state in which the row is still held, filing an exported model makes the run succeed with exactly that model, the epochs it was asked for and the figure printed for it, unless a cancel is on the row |
| Conduct.ClaimBegins | internal/worker/worker.go:448-466 | A claim starts an attempt on the row as it was claimed, holding it, with nothing heard, sent or decided |
| Conduct.AskedCancelCloses | internal/worker/worker.go:479-483 | A claim that found a cancel closes the row cancelled and can do nothing else |
| Conduct.AskedStopFiles | internal/worker/worker.go:484-494 | In every reachable state a claim that found a stop files what this job has kept on the take, and with nothing kept the stop fails |
| Conduct.MaterializeReads | internal/worker/worker.go:872-934 | What the spawn is handed: the take's checkpoint on the train lane, nothing for a first train or a probe; a continuation without one is closed as such |
| Conduct.DoomedCloses | internal/worker/worker.go:506-511 | What could not be materialized or spawned closes the row under its own code |
| Conduct.SpawnReads | internal/worker/worker.go:513-527 | The child resumes from exactly what materialize handed over |
| Conduct.ObeyReads | internal/worker/ckpt.go:229-241 | What each answer makes of a living run: lost, cancelled, stopped, in that order, or nothing; an earlier reason stays and a reaped child hears nothing |
| Conduct.WriteIsObeyed | internal/worker/ckpt.go:218-241 | What is on the row when a look is written decides what the run, told of it, does |
| Conduct.PgidIsObeyed | internal/worker/worker.go:536-542 | The pgid write ends a run whose row is gone as lost, and records the group otherwise |
| Conduct.KillReads | internal/worker/worker.go:581-601 | A stall, a shutdown, a pause and a verdict end a living run, the first of them by name |
| Conduct.RefusedEndsSilently | internal/worker/ckpt.go:229-232 | A refused run that obeys closes no row and requeues none in any continuation |
| Conduct.EpochIsTold | internal/worker/worker.go:617-632 | An epoch read off the output is what the saver is told, and what is recorded for it, with its own seconds |
| Conduct.ChatterIsSent | internal/worker/worker.go:613-640 | Progress and log lines are sent as they are said |
| Conduct.LookBegins | internal/worker/ckpt.go:61-67 | A look takes what the saver was told last |
| Conduct.LookReads | internal/worker/ckpt.go:133-153 | A look bears the whole pair it read and the best one beside it under the positive figure of its name |
| Conduct.FigureIsAttached | internal/worker/ckpt.go:154-160 | The figure a look attaches: the one told if it is of that epoch, else exactly the recorded one when it can be asked for, and none only without either |
| Conduct.LookIsBorne | internal/worker/ckpt.go:133-172 | Nothing moves a look's pair between then and its write |
| Conduct.LookIsStored | internal/worker/ckpt.go:171-183 | An accepted look is what the take then holds, figure included; a refused one leaves the take alone |
| Conduct.ClassifyReads | internal/worker/worker.go:681-801 | In every reachable state with the row held, each ending as it reads on the row: cancelled, requeued, a probe's verdict, a finished run left to be filed with its pair on the take, a stop or pause looking for its own weights, and each failure under its own code |
| Conduct.ConcludeExports | internal/worker/worker.go:762-767 | An early stop with an exported model puts its pair on the take before it is filed, and fails as unreadable only if it is |
| Conduct.FindsItsOwn | internal/worker/worker.go:749-760 | In every reachable state, after an accepted checkpoint write of its own with no later one on the take and no drop, an attempt reading the take finds that very pair as its own |
| Conduct.StopKeepsTheLastEpoch | internal/worker/worker.go:737-760 | So a run stopped or paused after that ends with exactly that pair filed as its result, unless a cancel is on the row |
| Conduct.CanAlwaysEnd | internal/worker/worker.go:472-556 | No attempt is ever stuck: from any point at most four moves of its own, none of them a crash, bring it to its end |
| Resurrection.NoResurrection | internal/store/checkpoint.go:45-48 | Once a discarding cancel has committed, no write of that job, in flight or later, puts the weights back, in any interleaving of any transactions on the row |
| Resurrection.WithoutTheLockTheyComeBack | internal/store/checkpoint.go:45-48 | Without FOR UPDATE there is an interleaving in which the weights come back after the cancel |
| Resurrection.AloneItStores | internal/store/checkpoint.go:77-91 | With the lock a write alone with its row stores the weights and leaves no lock behind |
| Resurrection.AloneItDiscards | internal/store/store_test.go:919-968 | A cancel alone closes the row and discards the weights |
| KillWait.ProcEntry.Kill | internal/worker/worker.go:179-188 | The first reason sticks; the group is signalled exactly when the worker is not reaping |
| KillWait.ProcEntry.BeginReap | internal/worker/worker.go:194-200 | The door is closed, the group swept once more, the decided reason returned unchanged |
| KillWait.SignalsReachTheirOwn | internal/worker/worker.go:176-200 | In every interleaving, with pids recycled at will, each SIGKILL hits the child it was meant for |
| KillWait.NoSignalAfterWait | internal/worker/worker.go:552-555 | After its Wait an attempt is never signalled again and its first reason never changes, however late the kills come |
| KillWait.FirstReasonSticks | internal/worker/worker.go:552-555 | The reason classified is the first one recorded before the door closed |
| KillWait.MutexProtects | internal/worker/worker.go:179-200 | While one goroutine is inside the mutex nobody else moves the entry |
| KillWait.KillIsItsMethod | internal/worker/worker.go:179-188 | However a kill is interleaved, from taking the mutex to giving it up its steps change the entry and its signals exactly as the method says |
| KillWait.ReapIsItsMethod | internal/worker/worker.go:194-200 | So do those of a reap, and what it decides is the reason it found |
| KillWait.PidsAreRecycled | internal/worker/worker.go:552-555 | After the Wait the pid is free, and may be another child's while somebody still calls a kill for the first: what the other results here hold against |
| KillWait.OnlyTheMutexWaits | internal/worker/worker.go:179-200 | Anybody may call a kill at any moment, and a call in progress waits for nothing but the mutex |
| PauseNow.Registry.Register | internal/worker/worker.go:936-940 | The entry under the job is replaced, whatever was there |
| PauseNow.Registry.Unregister | internal/worker/worker.go:944-950 | The entry goes only if it is still this one |
| PauseNow.Registry.Snapshot | internal/worker/worker.go:302-307 | Exactly the registered entries |
| PauseNow.PauseMissesNobody | internal/worker/worker.go:286-311 | When a Pause(true) has finished its loop and no Resume came, every registered attempt past its own look at the flag and not reaping carries a kill reason, in every interleaving |
| PauseNow.OnlyTheDisplacedAreMissed | internal/worker/worker.go:286-311 | When a Pause(true) has finished and no Resume came, a live child past its own look at the flag and not reaping can lack a kill reason only if another attempt's register took its place and it is no longer registered, in every interleaving |
| PauseNow.DisplacedIsMissed | internal/worker/worker.go:936-940 | The run that misses one: two attempts at a job, the older registering late |
| PauseNow.ResumeLifts | internal/worker/worker.go:314-321 | A Resume lowers the flag: a child that looks after it goes on unharmed |
| PauseNow.PauseNeverWaits | internal/worker/worker.go:286-311 | Until it is finished a pause has a step of its own, takes its snapshot of every registered entry, and has fewer to kill after each kill |
| PauseNow.SnapshotFirstMisses | internal/worker/worker.go:298-307 | Taking the snapshot before raising the flag would miss a child registered in between |
| Saver.CkptSaver.Nudge | internal/worker/ckpt.go:76-85 | The newest figure is pending and exactly one wake is in the channel |
| Saver.CkptSaver.Take | internal/worker/ckpt.go:87-93 | What was pending, with the newest figure, and nothing pending after |
| Saver.NudgeIsItsMethod | internal/worker/ckpt.go:76-85 | The two steps of a nudge are together the method, and whatever the saver does between them the newest figure is kept and a token is in the channel |
| Saver.TakeIsItsMethod | internal/worker/ckpt.go:61-67 | Both takes of the saver's loop are the method: a woken saver looks exactly when something was pending, a closing one always |
| Saver.NoLostWakeup | internal/worker/ckpt.go:42-93 | Whenever the saver blocks with an empty channel and no nudge is half-done, nothing is pending and a finished look carried the newest figure of all nudges |
| Saver.NeverStuck | internal/worker/ckpt.go:44-71 | The saver waits only in its select with nothing to pick; everywhere else, up to its end, it has a step of its own |
| Saver.LooksAreOrderly | internal/worker/ckpt.go:15-25 | One token at most, one look at a time, each with the newest figure there was when it began |
| Saver.StopIsABarrier | internal/worker/ckpt.go:95-109 | When stop returns because the goroutine is done, a look begun after every earlier nudge is over and none is in flight |
| Disk.SelectBest | internal/worker/live.go:76-105 | A candidate of least figure, at the least epoch among equals; none exactly when there is no candidate |
| Disk.WhatIsLookedAt | internal/worker/live.go:83-103 | Only checkpoint files, only under a checkpoints directory, only with an epoch, under a last name or a best name with a finite figure |
| Disk.SelectLast | internal/worker/live.go:119-153 | Every candidate exactly once, newest epoch first, then by name |
| Disk.NameBelowMeans | internal/worker/live.go:144-151 | Names of one epoch compare at their first difference, or the shorter first |
| Disk.ReadPair | internal/worker/ckpt.go:187-195 | The first whole choice, every earlier one torn; none exactly when all are torn |
| Disk.NewestPair | internal/worker/ckpt.go:133-153 | The last pair is the whole one of the highest epoch, and only without any such the selected best; a torn best has no stand-in |
| AvgRate.WindowIsPrefix | internal/store/worker.go:344-347 | The clipped weights sum to min(window, epochs) and the weighted sum is the plain sum of the newest epochs |
| AvgRate.LimitKeepsWindow | internal/store/worker.go:340-342 | Keeping only as many jobs as the window has epochs never changes the window |
| AvgRate.RowCounts | internal/store/worker.go:335-340 | What a row counts for: a finished or failed training job of that worker, for the epochs from its start to its last, at least one; any other row for nothing |
| AvgRate.AvgIsTheMean | internal/store/worker.go:331-353 | The figure is the plain mean over the newest computed epochs, one entry per epoch; there is none exactly when there are no such epochs |
| AvgRate.PublishedIsTheMean | internal/store/worker.go:319-353 | What the heartbeat publishes is the plain mean of the newest thirty computed epochs, or of all while there are fewer |
| AvgRate.AvgIsBetween | internal/store/worker.go:331-353 | It lies between the least and the greatest rate that went into it |
| Lines.LineReader.Next | internal/worker/parse.go:176-201 | The next line, cut to the bound, with its whole terminator consumed; none exactly at the end of the stream |
| Lines.ReadOutput | internal/worker/parse.go:172-174 | The reader of a trainer's output: lines of at most 1048576 bytes |
| Lines.ReadAll | internal/worker/parse.go:163-201 | Read to the end, any byte stream yields the split on LF, CR and CRLF, each line cut |
| Lines.ForExample | internal/worker/parse.go:187-195 | A stream with all three terminators and an open last line, byte for byte |
| Lines.CutKeeps | internal/worker/parse.go:197-199 | A cut line is the line if it fits, else its first bytes up to the bound |
| Lines.SplitJoin | internal/worker/parse.go:187-195 | Terminator-free lines, written with any terminators and an optional last line without one, come back, but for each CR that swallows a following empty line's LF |
| Lines.RoundTrip | internal/worker/parse.go:187-195 | They come back exactly if and only if no line ended by CR is followed by an empty line ended by LF |
| Dsn.Config.ConnString | internal/config/config.go:87-110 | The non-empty fields as key=value words in order, the schema inside options |
| Dsn.Config.SplitDsn | internal/config/config.go:115-140 | Each recognised word of the string overwrites its field, in turn; anything else is passed by |
| Dsn.PrintsAs | internal/config/config.go:87-110 | The string an address with every field prints as, key by key |
| Dsn.WordsIgnored | internal/config/config.go:117-139 | A word of an unknown key, without a value, with a port that is no number or with options without a search path changes nothing |
| Dsn.AtoiBack | internal/config/config.go:124-127 | Every int comes back from its digits |
| Dsn.AtoiRejects | internal/config/config.go:124-127 | Whatever is read as a number is a sign and digits, or digits |
| Dsn.SpacesAre | internal/config/config.go:116 | The characters words are split at |
| Dsn.FieldsOfJoin | internal/config/config.go:102-116 | Words joined by single spaces split into the same words |
| Dsn.ParsedPrinted | internal/config/config.go:87-140 | A printed address of whitespace-free fields comes back, values with '=' and the schema included, with any port that is not negative |
| Dsn.RoundTrip | internal/config/config.go:87-140 | An address comes back if and only if its fields hold no whitespace and its port is not negative |
| Dsn.PrintedAgain | internal/config/config.go:87-140 | Print, split and print again is the first print if and only if that is single-spaced and made of words the printer prints, each key at most once and in its order; always for a whitespace-free address |
| Dsn.PrintsBack | internal/config/config.go:87-140 | Any string, split and printed, comes back if and only if it is single-spaced and its words are the printer's: its keys, each at most once and in its order, a positive port in plain digits, options that begin with the search path and name a schema |
| Dsn.SplitAgain | internal/config/config.go:87-140 | Whatever string was split, printing and splitting again gives the same address, but for a negative port |
| Wav.Validate | internal/wav/wav.go:38-129 | The scan ends, reads no byte outside the file, and its verdict, with each reason for refusal, is that of the recursive chunk walk |
| WavGen.WhyRefused | internal/wav/wav.go:38-120 | Which refusal is for what: size, name, a fmt that does not fit, missing chunks, data only claimed, then rate, byte rate and duration |
| WavFile.ScannerReadsChunks | internal/wav/wav.go:57-94 | On any list of well-formed word-aligned chunks with a fmt before the first data, the verdict is on the last fmt before it and that data, whatever follows |
| WavGen.ChunksAccepted | internal/wav/wav.go:57-128 | Any list of well-formed chunks with a fmt before the first data is accepted if and only if the last such fmt says 48 kHz and the data is 30 to 1200 times its byte rate, and what is reported is what that fmt says |
| WavFile.LastFmtIsLast | internal/wav/wav.go:64-73 | That fmt is the last one of the list |
| WavFile.WalkIsScan | internal/wav/wav.go:57-94 | Over printed chunks the scan gathers the same facts and stops at the same place as reading the list |
| WavGen.Generate | internal/testsupport/wavgen.go:16-48 | The bytes are a RIFF/WAVE file of one fmt and one data chunk with the padded length |
| WavGen.HeaderBytes | internal/testsupport/wavgen.go:27-45 | The generated file byte for byte: letters, little-endian numbers, silence |
| WavGen.ValidCapture | internal/testsupport/wavgen.go:50-51 | 48 kHz and exactly 30 seconds is accepted, and reported as mono, 16 bits, 2880000 bytes |
| WavGen.GeneratedAccepted | internal/testsupport/wavgen.go:13-48 | The scanner accepts a generated file if and only if the rate the header holds is 48 kHz and the bytes are 30 seconds to 20 minutes of it |
| WavGen.GeneratedInSeconds | internal/testsupport/wavgen.go:21-25 | Which durations that is at 48 kHz: from half a sample short of 30 seconds to 20 minutes |
| WavGen.AcceptedMeans | internal/wav/wav.go:96-128 | An accepted file, whatever its bytes, is no larger than 200 MiB and holds a 48 kHz fmt chunk and a wholly present data chunk of 30 to 1200 times that fmt's byte rate; rate, channels, bits, duration and size are reported from those two |

## Left out

- Process spawning, pipes, process-group recovery after a restart and provisioning: calls into the machine; a child is an abstract owner of a pid.
- Tray, menus, installers and service files: no protocol.
- TOML files, SQL text and the database driver: a statement is its effect.
- The app's migrations and triggers, take wipes and the deletion of job rows: the app is the five outside steps of `Statements`.
- Connection errors: modelled where the code branches on them (a look, an epoch row or an exported pair that never lands, an answer never heard, a read that fails); an attempt may also stop at any point.
- Real time: the stall watchdog may fire at any moment, the 40-second bound of the saver's stop is a step that returns early, the 30-second deadlines are lost writes.
- The tally, the queue counters, the remaining-epochs estimate, the live cap, the keep-awake keeper and log rotation: single queries or arithmetic.
- The smoothed rate of the progress line and the other line parsers (`internal/worker/parse.go`): a figure enters the model as parsed.
- `Pause` as a gate on claiming, and its memory on disk: only "pause now" is modelled.
- `Distinct` of the capture generator: one byte changed.
- Library.Store.ClaimNext: leaves out claimed_at and started_at; the rows other transactions hold locked are an argument.
- Library.Store.RequeueJob: leaves out claimed_at and started_at.
- Library.Store.FinishSucceeded: leaves out finished_at, the provenance columns and the size column; a connection error is not an answer here.
- Library.Store.FinishProbeSelf: leaves out finished_at and the provenance columns.
- Library.Store.FinishFailed: leaves out finished_at and the provenance columns.
- Library.Store.FinishCancelled: leaves out finished_at and the provenance columns.
- Library.Store.PutCheckpoint: leaves out the size columns and the time of the write, and figures are reals, so the narrowing of the offered figure to single precision is not seen.
- Library.Store.UpdateProgress: NaN and the infinities enter as figures that were not said.
- Resurrection.NoResurrection: covers the job row's lock and the weights row's lock of the two transactions; no other table takes part.
- PauseNow.Registry.Snapshot: returns the entries as a set; the order of the kills is open in the interleavings.
- KillWait.SignalsReachTheirOwn: the pool's goroutines are threads that may call at any time, more than the pool ever starts.
- Disk.SelectBest: takes the directory walk as a list of entries whose names are already parsed; the regular expressions are not modelled.
- Disk.SelectLast: the same; the in-place sort is an insertion into a sorted sequence, so stability and aliasing are not seen.
- Disk.NewestPair: an entry says whether its pair is whole; zip and JSON validity are not modelled, nor a file changing during the look.
- Outcomes.LookFigures: the disk read may take any whole pair the attempt's trainer wrote, more than `Disk.NewestPair` would pick, and a printed figure is one the daemon read off the trainer's output.
- AvgRate.AvgIsTheMean: takes the rows in the order of the query's ORDER BY, and averages in reals.
- Lines.LineReader.Next: a read error other than the end of the stream reads as the end, as it does in the code; text is bytes.
- Wav.Validate: refusals are named, their messages are not modelled.
- WavGen.Generate: takes a non-negative rate and duration, the only ones the code can build a file for, and multiplies in reals.
