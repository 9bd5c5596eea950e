# GARM agent: a verified model of its concurrent core

The agent supervises one CI runner process, keeps a websocket to the GARM server, serves remote
shells, and keeps one durable record of whether a job was run. This project models those parts as
state machines over the steps of their goroutines and proves what holds in every interleaving.

How a machine is written: the state is a datatype, a step is a total function
`Step(state, act)`, and an act that is not enabled changes nothing. A schedule is any sequence of
acts, so a theorem about `Run(start, acts)` for all `acts` is a theorem about every schedule of
every length. The outcomes the code cannot decide (a process exits, a dial works, a database access
fails, which ready select case is picked, how a timer races) are part of the act. Fields marked as
history only record what happened.

The objects of the source are classes. Each method's contract gives its new state as the spec
function that the machine also steps with, or shows that the call is a run of the machine.

| file | what it models |
|---|---|
| `JobState.dfy` | `state.Manager`: the durable record and its transactions |
| `Executor.dfy` | `platformExecutor`: the single reaper and the Once-guarded cleanup |
| `Service.dfy` | the statuses and the runner callbacks under `Service.mux` |
| `Runner.dfy`, `RunnerCmd.dfy` | one generation of `runnerCmd` as a machine, and the object |
| `Supervisor.dfy` | `keepRunnerAlive`, all generations, the lock of `runnerCmd`, crashes |
| `SupervisorInv.dfy`, `SupervisorSafety.dfy` | what every run keeps, without and with readable state |
| `SupervisorRestart.dfy`, `SupervisorTerminated.dfy` | no restart after a job; Terminated is final |
| `SupervisorLimits.dfy` | runs that break these when a hypothesis is dropped |
| `SupervisorRelaunch.dfy`, `SupervisorExact.dfy` | exactly when the end of a sleep lets a restart through |
| `SupervisorTeardown.dfy` | exactly which processes are left running |
| `SupervisorStatus.dfy`, `SupervisorCallbacks.dfy` | every status computed or sent, told from the schedule |
| `SupervisorUndisturbed.dfy` | a runner is left alone until the agent is told to end |
| `SupervisorRecord.dfy` | the transactions of an agent run and the job's duration |
| `SupervisorRetries.dfy` | timely runs with as many starts and failures as the retry bound allows |
| `SupervisorShutdown.dfy`, `Shutdown.dfy` | the supervisor ends after cancellation; all three goroutines do |
| `KeepAlive.dfy` | `keepRunnerAlive` as its loops, run by run of the machine |
| `Handshake.dfy` | `keepAliveLoop` and `loop` with their two channels |
| `Shell.dfy`, `ShellSession.dfy` | one shell session as a machine, and the object |
| `Sessions.dfy`, `SessionTable.dfy` | the capped table of sessions, and its message handlers |
| `Locks.dfy` | the order in which all mutexes are taken |

## Hypotheses, and what happens without them

- *State reads.* A failing read makes `determineRunnerState` fall back to Idle or Offline. The
  theorems about restarts and statuses say which accesses have to succeed;
  `RestartWhenUnreadable` starts a process with a job on record when they do not.
- *The sleep outlasts the teardown.* `executeCommand` closes `done` before it drains its scanners,
  so the supervisor may be awake while a job-start line is still unread. `Timely` asks that the 5
  second sleep after a wake-up end only when the goroutines of the old generation have returned.
  `RestartWhenUntimely` is a run, all database accesses succeeding, in which a second process starts
  although a job is on record. `RestartExactly` gives the exact condition: with every access
  succeeding, the end of a sleep can lead to a launch with a job on record if and only if the state
  is not `Clear` at that moment. Clear means that no generation is still on the way to its launch,
  and either a finish is on record, or no scanner of a launched generation is still at work and the
  liveness bit is down if a start is on record. That is less than `Timely` (`TimelyIsClear`), and it
  is enough for the theorem (`NoRelaunch`). `RetryBoundIsReached` has timely runs with any number of
  restarts, so the hypothesis does not rule these out.
- *The process exists when Stop runs.* `LeftRunning` says from the schedule exactly which processes
  are left running without a delivered KILL; `OrphanOnEarlyStop` is a run that leaves one.
- *The service is live.* The limit on open PTYs holds until shutdown and, over all schedules, after
  it only when it is zero: `LimitPastEnd`.
- *PTY reads fail once the PTY is closed*, and a process writes nothing before it is started.
- *Timers.* A sleep begun after cancellation finds the context ready before its own 5 second timer;
  a sleep begun before it may still end by its timer.

## Where code and comments disagree

The model follows the code.

- `config/config.go:46-52` says that an agent that comes back with a job on record lets GARM know
  that the runner has to be removed. It stays silent: `SilentAfterRestart`.
- `service/runner/exec_nix.go:104-105` says that at the KILL the PID cannot have been reused. The
  reap can come between the timeout and the KILL (`KillCanFollowReap`), and when the exit and the
  timer are ready together the select may take the timer (`TimerCanBeatExit`). The TERM can follow
  the reap too (`TermCanFollowReap`). `SignalAfterReap` says exactly when a signal does.
- `service/service.go:98-102` says that waiting ensures that the runner is torn down. A stop before
  the launch leaves it running: `OrphanOnEarlyStop`.

## Model

| member | source | states |
|---|---|---|
| `JobState.HistoryRecord` | state/state.go:82-120 | After every history of transactions each flag is set exactly when its time is, and the time is that of the last transaction of its kind |
| `JobState.DurationLaw` | state/state.go:140-156 | The duration is an error exactly when no start is on record, and negative exactly when the last start is later than the last finish |
| `JobState.DurationValue` | state/state.go:140-156 | It runs from the last start to the last finish, or to the present while there is none |
| `JobState.DurationNonNegative` | state/state.go:140-156 | In lifecycle order it is never negative, however often SetJobStarted is repeated |
| `JobState.DurationFrozen` | state/state.go:150-153 | Once a finish is on record the clock no longer matters |
| `JobState.DurationCanBeNegative` | state/state.go:82-120 | A start recorded after the finish makes it negative, so the lifecycle is needed |
| `JobState.Manager.SetState` | state/state.go:51-62 | A committed call replaces the record, a failed one leaves it |
| `JobState.Manager.GetState` | state/state.go:64-80 | No record reads as the zero value, an undecodable one as an error |
| `JobState.Manager.SetJobStarted` | state/state.go:82-100 | One transaction on the stored record; rolled back as a whole when the old value does not decode |
| `JobState.Manager.SetJobFinished` | state/state.go:102-120 | The same for the finish |
| `JobState.Manager.IsJobRunning` | state/state.go:132-138 | Started and not finished, or the read error |
| `JobState.Manager.GetJobDuration` | state/state.go:140-156 | The duration of the stored record, or an error |
| `Executor.CleanupOnce` | service/runner/exec_nix.go:57-115 | For one waiter and any number of cleanup callers: one reap, one TERM round, one KILL round after TERM and grace, nobody returns early, and what a nil or failed first cleanup means |
| `Executor.SignalAfterReap` | service/runner/exec_nix.go:78-112 | In every schedule a signal goes to a reaped process exactly when it was reaped by the body's last look at `exited`, or a reap comes between that look and the signal; what the look can have missed; and the signal counts as delivered exactly when one of the two kill calls worked |
| `Executor.KillCanFollowReap` | service/runner/exec_nix.go:95-112 | A run in which the process is reaped between the elapsed grace period and the KILL |
| `Executor.TermCanFollowReap` | service/runner/exec_nix.go:78-93 | A run in which it is reaped between the poll and the TERM |
| `Executor.TimerCanBeatExit` | service/runner/exec_nix.go:98-112 | A run in which the grace select takes its timer with `exited` closed, and the KILL follows |
| `Executor.PlatformExecutor.Wait` | service/runner/exec_nix.go:57-63 | The first call reaps and closes `exited`, with no process it fails and closes it all the same, later ones return the cached result |
| `Executor.CleanupIsRun` | service/runner/exec_nix.go:66-115 | One call of cleanup is a run of the machine's steps, in which the reaper moves only if the process exits |
| `Executor.PlatformExecutor.Cleanup` | service/runner/exec_nix.go:66-115 | Only the first call does anything: nothing without a live process, the TERM alone for one that is reaped in the grace period, else TERM and KILL; it fails exactly when neither call of the KILL worked |
| `Executor.PlatformExecutor.StartCommand` | service/runner/exec_nix.go:46-51 | The process comes up exactly when the start works |
| `Service.StatusTable` | service/service.go:369-397 | Which record and liveness bit lead to each status, as equivalences that leave one status each |
| `Service.Service.DetermineRunnerState` | service/service.go:369-397 | The branches compute that table |
| `Service.Service.SetRunnerStarted` | service/service.go:461-470 | Sets the bit and, with a runner command in place, sends exactly one message: the status of the record read and that bit |
| `Service.Service.SetJobStarted` | service/service.go:472-488 | Records the start with its time and, with a runner command in place, sends exactly one Active |
| `Service.Service.SetJobFinished` | service/service.go:490-507 | Records the finish with its time and, with a runner command in place, sends exactly one Terminated |
| `Runner.CallbackOrder` | service/runner/runner.go:168-280 | In every interleaving of a generation the scanners' callbacks come before the single SetRunnerStarted(false), and SetJobFinished follows exactly when a scanned line matched job-start |
| `Runner.EveryLineTold` | service/runner/runner.go:212-265 | In every interleaving each scanner makes one callback for each of its lines that matches a pattern, in their order, job-start before runner-started |
| `Runner.LaunchNeedsAll` | service/runner/runner.go:198-280 | A generation past its launch is without a process exactly when a pipe or the start failed; then nothing is scanned and the only callback is SetRunnerStarted(false) |
| `RunnerCmd.Command.Start` | service/runner/runner.go:117-143 | Nothing when running or when the setup fails, else a fresh executor and an open `done` |
| `RunnerCmd.Command.Stop` | service/runner/runner.go:145-166 | Only the caller that finds it running closes `done` and cleans up |
| `RunnerCmd.Command.ScanOutput` | service/runner/runner.go:212-237 | The service ends up as after one callback per matching line in order, job-start tried first, each with its own database outcome and clock: the bit goes up exactly when a line says that the runner listens, and each matching line sends its one message; reports whether a job start was seen |
| `RunnerCmd.Command.FinishGeneration` | service/runner/runner.go:184-196 | Offline first, then the finish if a job was seen |
| `RunnerCmd.Command.ExecuteCommand` | service/runner/runner.go:168-280 | On every exit path the command is stopped, the callbacks are those of a finished generation, and no signal is sent to a reaped process |
| `SupervisorSafety.RetryBound` | service/service.go:578-610 | Over every run, k successful Start calls allow at most 5k + 6 failed ones and no more RunnerFailed messages than failures |
| `SupervisorSafety.TornDownOnReturn` | service/service.go:566-576 | When keepRunnerAlive has returned nothing runs and nobody is in Stop; a process is left without a delivered KILL exactly when cleanup saw none or both KILL calls failed; `done` is never closed twice |
| `SupervisorTeardown.LeftRunning` | service/runner/exec_nix.go:66-115 | When keepRunnerAlive has returned every generation is stopped and cleaned up, and a process runs on without a delivered KILL exactly when both kill calls failed or its cleanup checked for it before executeCommand launched it |
| `SupervisorSafety.StatusAfterJob` | service/service.go:369-397 | From JobStarted on only Active and Terminated are computed or sent and RunnerFailed never, from JobFinished on only Terminated is computed, across crashes |
| `SupervisorSafety.StopsInterleave` | service/runner/runner.go:145-166 | However callers of Stop interleave, in every reachable state: no `done` closed twice, a generation's `done` closed and its cleanup begun exactly when it is not the running one, one cleanup at a time, and nothing running after the supervisor's own Stop |
| `SupervisorStatus.StatusLoopReports` | service/service.go:730-735 | In every schedule the status loop sends nothing without a snapshot in hand and with one exactly one status, of the bit as the snapshot found it and the record as it is read now |
| `SupervisorStatus.SupervisorReports` | service/service.go:547-628 | In every schedule each check of keepRunnerAlive computes the status of the bit read at its first step and the record read at its second, goes on or ends by it, and an Offline after a failed Start is followed by one RunnerFailed |
| `SupervisorStatus.SupervisorQuiet` | service/service.go:547-628 | Its other steps compute nothing, and the runner command is put in place by one of them alone |
| `SupervisorCallbacks.CallbackSends` | service/service.go:461-507 | A step that makes a callback changes the service by that one message and its write; any other leaves it alone |
| `SupervisorCallbacks.EveryCallbackSends` | service/runner/runner.go:168-280 | Over every run, in each process lifetime, as many messages of each kind as callbacks of that kind; a generation that scanned a job start and went through has had a Terminated sent |
| `SupervisorUndisturbed.Undisturbed` | service/runner/runner.go:145-197 | Under the hypotheses of no restart, until cancellation no signal is sent and no generation is stopped before its process was reaped or its launch failed |
| `SupervisorUndisturbed.LoopStopsIt` | service/runner/runner.go:282-297 | After cancellation the loop goroutine of a running generation can stop it by itself |
| `SupervisorRestart.NoRestartAfterJob` | service/service.go:547-628 | Over any runs, stops and crashes on one record, once a job is on record no process is started again |
| `SupervisorRestart.OnlyCurrentActs` | service/runner/runner.go:117-143 | Only the current generation has goroutines left, so their re-reads of shared fields find their own |
| `SupervisorRestart.SilentAfterRestart` | service/service.go:549-554 | With a job on record at boot the runner command is never created, nothing is started and no status is sent |
| `SupervisorTerminated.TerminatedAbsorbs` | service/service.go:461-507 | In each process lifetime no callback sends anything but Terminated after the first Terminated |
| `SupervisorRecord.RecordIsHistory` | service/service.go:472-507 | The record after any run, crashes included, is the result of the transactions its callbacks committed, in order |
| `SupervisorRecord.AgentDuration` | state/state.go:140-156 | Under the hypotheses of no restart these follow the lifecycle, so with a clock that never goes back the duration exists exactly when a start is on record and is never negative |
| `SupervisorTerminated.RecordFrozen` | state/state.go:102-120 | Once the finish is on record nothing writes the record again |
| `SupervisorRelaunch.NoRelaunch` | service/service.go:578-628 | Over every run with all database accesses succeeding in which each sleep after a wake-up ends in a clear state, no process is launched with a job on record |
| `SupervisorRelaunch.TimelyIsClear` | service/runner/runner.go:175-197 | A sleep that outlasts the teardown ends in a clear state |
| `SupervisorExact.RestartExactly` | service/service.go:612-626 | For every reachable state at the end of such a sleep: a launch with a job on record can follow if and only if the state is not clear, whether the job is recorded before the check or after it |
| `SupervisorLimits.RestartGuard` | service/service.go:585-590 | The check alone: with a job already on record it lets a start through exactly when the read fails, or the bit was seen up and no finish is on record |
| `SupervisorLimits.RestartWhenUntimely` | service/runner/runner.go:175-197 | A run, all database accesses succeeding, that starts a second process after a job when the sleep ends too early |
| `SupervisorLimits.RestartWhenUnreadable` | service/service.go:375-379 | A run that starts a process with a job on record when reads fail |
| `SupervisorLimits.OrphanOnEarlyStop` | service/runner/exec_nix.go:68-73 | A run in which cleanup spends its Once before the launch and the process is left unsignalled |
| `SupervisorShutdown.ShutdownBounded` | service/service.go:534-628 | After cancellation keepRunnerAlive takes boundedly many steps and never gets stuck, lock included |
| `Shutdown.AllExit` | service/service.go:98-105 | After cancellation with no further dial all three goroutines end, bounded but for heartbeat ticks; then `done` is closed, no command is running, and the processes left without a KILL are exactly those of `LeftRunning` |
| `KeepAlive.RetryCreate` | service/service.go:549-565 | The creation loop is a run of the machine, and creates only after checks that never said Terminated |
| `KeepAlive.RetryStart` | service/service.go:578-628 | The retry loop is a run of the machine, statuses and counts included, within the 5k + 6 bound |
| `KeepAlive.AgentStepIsThreadStep` | service/service.go:578-628 | In every reachable state the supervisor's own step in the whole agent is a step of that run or waits for the lock, and Start never finds the command running |
| `SupervisorRetries.RetryBoundIsReached` | service/service.go:580-609 | For every k an agent run, timely and with all accesses succeeding, with k starts, k processes launched and exactly 5k + 6 reported failures |
| `Handshake.OneSideWaits` | service/service.go:630-758 | Exactly one of `connecting` and `connected` is closed in every reachable state, no channel is closed twice, and the two goroutines never both wait |
| `Handshake.LoopHoldsTheLatestClient` | service/service.go:708-757 | Past its wake-up loop holds the most recent started client, the branch for no client is never taken, and connections go up and down alternately, each with its own client |
| `Handshake.EndsOnlyWhenTold` | service/service.go:650-758 | In every schedule keepAliveLoop has ended exactly when it was told to or its URL did not parse, and loop exactly when it was told to |
| `Handshake.CanReconnect` | service/service.go:650-758 | From every reachable state before the end, a bad URL aside, a further connection can come up |
| `Handshake.OneHeartbeatEach` | service/service.go:728-757 | In every schedule one heartbeat for each tick taken and one for each connection loop wakes up for |
| `Handshake.ShutdownBounded` | service/service.go:650-758 | After cancellation with no further dial both goroutines end, whichever ready case is picked, and `done` is closed |
| `Handshake.Connection.ConnectionUp` | service/service.go:633-638 | A fresh open `connected`, then `connecting` is closed |
| `Handshake.Connection.ConnectionDown` | service/service.go:643-648 | A fresh open `connecting`, then `connected` is closed |
| `Handshake.Life.Start` | service/service.go:322-348 | Starts once, with a fresh `done`, unless the work dir is unusable |
| `Handshake.Life.Stop` | service/service.go:350-367 | Closes `done` and stops the client, if there is one, only when running |
| `Shell.MessageOrder` | service/shell.go:53-156 | For every interleaving of a session and its callers of Stop: one success Ready before all Data, one Exit with at most one message after it, PTY and `done` closed at most once, and Exit sent exactly when Stop is through |
| `Shell.OutputConservation` | service/shell.go:123-139 | What was read is what the PTY gave away, each chunk cut to the buffer; what was written is a prefix of it, missing one chunk of at most 1024 bytes, and after the end only if its write failed |
| `Shell.CanEnd` | service/shell.go:72-156 | From every reachable state cancellation lets the session end by its own goroutines, PTY and `done` closed and Exit sent; once Stop is through they end without it |
| `ShellSession.Session.Start` | service/shell.go:53-70 | Opens `done` unless already running, and fails without a PTY |
| `ShellSession.Session.Stop` | service/shell.go:72-94 | One call is a run of the machine's Stop, Exit included; with nothing running it sends nothing |
| `ShellSession.Session.HandlePTYOutput` | service/shell.go:113-140 | The copy loop over its buffer is a run of the machine and ends with the session stopped; what was read is what the PTY entries it consumed put into the buffer, and what was written is that but for a chunk whose write failed |
| `ShellSession.Session.CopyChunk` | service/shell.go:124-138 | One turn reads the next chunk, cut to the buffer, and writes it as one Data, or stops |
| `Sessions.OneCleanupEach` | service/service.go:170-212 | Table entries and pending cleanups correspond one to one, shutdown included, so the delete by key removes its own session |
| `Sessions.CreateAdmits` | service/service.go:148-213 | In every reachable table a create succeeds exactly with an unused nonempty ID, room and a working PTY, and then adds one started session |
| `Sessions.SessionsRunFree` | service/shell.go:113-156 | A session's goroutine steps as if the session were alone, and nothing else in the table moves |
| `Sessions.CloseFreesPlace` | service/service.go:201-295 | In every reachable table a close, or data the PTY refuses, stops the running session under its ID and no other; its cleanup can then fire and the ID be used again |
| `Sessions.OpenPtysBounded` | service/service.go:170-212 | Until shutdown every open PTY is in the table under its own ID, and there are never more than the configured limit |
| `Sessions.OpenPtysUnboundedAfterEnd` | service/service.go:201-210 | For every positive limit and every n there is a run past shutdown with n PTYs open and none in the table |
| `Sessions.LimitPastEnd` | service/service.go:201-210 | Over all schedules, shutdown included, the limit holds exactly when it is zero |
| `Sessions.EverySession` | service/shell.go:53-156 | In every run of the table each session ever created has its messages in order, its output conserved, and is closed at most once |
| `SessionTable.Handlers.HandleCreateShell` | service/service.go:148-213 | Decides in the source's order; only an admitted session enters the table, fresh and started |
| `SessionTable.Handlers.HandleClientShellClosed` | service/service.go:241-266 | Stops the session under that ID and keeps the table |
| `SessionTable.Handlers.HandleShellData` | service/service.go:268-295 | The data reaches the PTY of the session under that ID, or the session is stopped |
| `SessionTable.Handlers.Cleanup` | service/service.go:201-210 | Deletes by key once the session, the service or the context is done, and not before |
| `Locks.ScriptRespects` | service/service.go:126-136 | Every operation takes its locks in rank order and gives all back |
| `Locks.LocksWhatItUses` | service/service.go:75-92 | Every operation takes exactly the locks of the shared data it touches |
| `Locks.NestingsOccur` | service/service.go:126-295 | Every lock is taken, and the nestings that occur are exactly a session's mutex and cliMux under the service's, and cliMux under a session's |
| `Locks.NoDeadlock` | service/service.go:75-92 | With any number of sessions, generations and goroutines someone can always move, and no chain of waiting is longer than the ranks allow |

## Left out

- The websocket client, message marshalling, bbolt, JSON, TOML, JWT and the regular expressions are libraries: they appear as success or failure, as an atomic record, and as which of two patterns a line matches.
- Real PTYs and processes, `service/pty_*.go` and `service/runner/exec_windows.go`: an abstract PTY and an abstract process that may exit at any time.
- `cmd/`, logging and configuration loading.
- The order of statuses on the wire: `loop` computes and sends outside `s.mux`; the theorems speak of computed statuses and of those the callbacks send under `s.mux`.
- Error Ready messages of the handlers, and how often a rejected create sends them.
- Whether a status that was handed to the client arrived.
- JobState.HistoryRecord: speaks of the two transactions the agent commits; `SetState` overwrites the record as a whole and no production path calls it.
- Executor.PlatformExecutor.Wait: a second caller that arrives while the first is inside, which the Once makes wait; executeCommand is the only caller.
- Calling `Service.Start` again after `Service.Stop` in one process, which no production path does.
- Unsynchronised re-reads of `r.cmd`, `r.executor` and `r.done` by an old generation: the machine binds them to the goroutine's own generation, which `SupervisorRestart.OnlyCurrentActs` justifies under the timing hypothesis.
- The agent ID guards, config getters and `Resize`: single-branch facts.
- RunnerCmd.Command.ExecuteCommand: runs its two scanners one after the other and after the exit; all interleavings are in `Runner.CallbackOrder`.
- KeepAlive.RetryCreate: works on a finite stretch of rounds, as RetryStart does.
- KeepAlive.RetryStart: works on a finite stretch of rounds, since the source's loop need not end before cancellation.
- ShellSession.Session.HandlePTYOutput: runs without interference by other callers of Stop; those are in `Shell.MessageOrder`. A read that returns bytes together with an error counts as a failed read, as in the source, which drops them.
- Executor.PlatformExecutor.Cleanup: the only concurrent event is the process exiting in the grace period; all interleavings are in `Executor.CleanupOnce`.
- Locks.NoDeadlock: takes calls outside the agent as returning, the client's Stop under `cliMux` among them.
