# A verified model of a process supervisor

A supervisor launches processes for remote peers, restarts them under a policy, keeps their
records on disk, limits and authorizes requests, and broadcasts telemetry. This project models
its four stateful cores in Dafny and proves what they guarantee over every run:

* **The process lifecycle** (`Lifecycle*.dfy`, `ProcessManager.dfy`, `DiskStore.dfy`,
  `Backoff.dfy`, `Listings.dfy`). Every table-lock region, store transaction, flag access and
  operating-system call is one step of an interleaved machine. A handle's `spawn` call and its
  `supervise` task form one task with an explicit program counter; clients, pending `terminate`
  and `forget` calls, the clock, shutdown and crashes interleave with it in any order, over any
  number of supervisor lifetimes. `LifecycleInv` proves one inductive invariant; the other
  `Lifecycle` modules draw the consequences: bounds and disarming (`Theorems`), `stop` (`Runs`),
  when it kills (`Grace`), whom its signals reach (`Signals`), table, store, `forget` and crashes (`Disk`), which handles
  are given out again (`Handles`), what happens undisturbed (`Restart`), and runs from an empty
  disk in which a promise fails (`Witnesses`). `ProcessManager` is the same thing as an object with
  mutable fields: each of its methods is proved to be one step of the machine, and `Execute`
  carries any schedule over.
* **The per-peer token bucket with eviction** (`RateLimiter.dfy`), with `allow` split into its two
  critical sections, and what an eviction changes for the peers (`Eviction.dfy`,
  `EvictionNoticed.dfy`).
* **The telemetry publisher and watcher** (`Telemetry.dfy`) over arbitrary lossy, reordering,
  duplicating streams.
* **The request chokepoint** (`Chokepoint.dfy`), what peers without control rights can do to
  the others through it and through the limiter (`Interference.dfy`), and **stdin piping**
  (`StdinPipe.dfy`).

`dafny verify dfyconfig.toml` checks everything.

## Reading the model

* Atomics are sequentially consistent. `u64` and `u32` counters are unbounded. Time is counted in
  nanoseconds and never goes back, except in the limiter, where each call carries the reading it
  took before it waited for the lock. `f64` is `real`.
* Child exits, exit codes, pids, launch failures and cgroup failures are choices of the
  environment. A pid is fresh among children nobody has waited for, and can be reused afterwards.
* `Reachable` means: some run, from some disk contents, through any steps and crashes. Results
  about a state hold for every reachable one; results about a continuation hold for every
  continuation without a crash.
* `Task` keeps history the code does not have (`launches`, `first`, `born`, `stables`, `steps`,
  `orphaned`). No decision depends on it: the launch number only names children, so that theorems
  can tell one launch from the next.
* `Budget(pc, shutdown)` is 1 exactly when a task has passed its last check and is about to
  launch: it is in `launch_child`, or it has read `armed` as true after the backoff and the
  shutdown flag is not set.

## Where the code does less than its documentation says

Each of these has a run in which the promise fails and a theorem with the exact condition.

* `stop` disarms for good, but a launch that has passed the re-check after the backoff
  (src/process.rs:367-370) still happens (`StopIsFinalIff`, `LaunchCanBeCommitted`), and nothing
  will signal what it starts until somebody calls `stop` again (`LateStopSignalsNothing`).
* `forget` may be undone on disk by the `put` of a relaunch that was under way:
  `ForgetIsFinalIff`, `ForgetCanBeUndone`, `LaunchCanBeCommitted`.
* The SIGTERM goes to a bare pid and, without cgroups, the SIGKILL to the process group of that
  pid. Once the child has been waited for, both can hit another handle's child:
  `SignalCanStrayIff`, `TermCanGoAstray`, `KillCanGoAstray`. `cgroup.kill` never does (`LeafKillNeverStrays`), but
  with cgroups the SIGKILL reaches nobody when the launch did not join its leaf
  (`DeliveryStrikes`, `KillCanMiss`).
* A shutdown does not drain all children: one whose launch is not in the table yet, or was
  published after its row was forgotten, is in no pid list (`ChildIsListedIff`,
  `ShutdownCanMiss`). The latter can be neither stopped nor forgotten either
  (`OrphanIsOutOfReach`, `OrphanCanRun`). The group SIGKILLs at the end use pids captured a grace
  period earlier, and can stray like those of `stop` (`ShutdownKillTargets`).
* A crash between a table write and the store write after it loses that change:
  `CrashKeepsRowIff`, `CrashCanLoseAChange`.
* The limiter's clock is read before the lock. The bound burst plus refill times the window
  holds for a peer, whatever the configuration, exactly when its readings go forward by no more
  than the window in total: `WindowBoundIff`, `BackwardClockBreaksWindow`.
* Dropping an idle bucket can show when clocks are read out of lock order, although the
  time-to-live refills it (`BackwardClockShowsEviction`). A peer that comes back at `r` after an
  eviction can get an answer it would not have got exactly when its bucket would not have been
  full at `r` (`ReturnNoticedIff`), and from `t` on nobody gets one exactly when every evicted
  bucket is full at `t` (`EvictionUnnoticedIff`; without any refill, what counts is whole tokens).
* A `pipe_stdin` call whose future is dropped in the middle of its copy leaves the pipe open for
  another writer: `SecondWriterNeedsADrop`, `SecondWriterCanFollowADrop`, `NextWriterIff`. A
  connection that is lost does not: the copy fails, and the pipe is closed.
* "A dropped tick loses nothing" needs a counter that never falls, nor moves while the
  publisher's clock stands still: `LosslessIffCounterGrows`, `LosslessThroughoutIff`. A relaunch
  starts a new cgroup leaf and with it a counter from zero, and what that leaf has used by the
  next tick is lost: `RelaunchLosesTime`.
* A publisher that restarts counts its ticks from one again, and none of them is heard up to the
  last number accepted before: `HeardAgainIff`, `NewLifeIsDeaf`.
* A relaunch's `put` can lower the stored counter. Reloading takes the maximum with the handles on
  disk, so no record is overwritten (`SpawnNeverOverwrites`), but the handle of a forgotten
  process can be given out again in the next lifetime: `GivenOutNextIff`, `CounterSurvivesIff`,
  `ForgottenHandleComesBack`.

## Model

| member | source | states |
|---|---|---|
| `Backoff.DelayIsCappedDoubling` | src/process.rs:353-354 | for every attempt the delay is min(2^(attempt-1), 30) seconds: capping the shift at 5 never shows |
| `Backoff.RelaunchIsPaidFor` | src/process.rs:338-354 | amortisation step: uptime and backoff pay for one relaunch and the change in a potential on `attempt` |
| `LifecycleInv.OwnKeepsSlot` | src/process.rs:310-392 | every region of `spawn` and `supervise` keeps the per-handle invariant: row, record, child, leaf, cap, step count and rate at every program counter |
| `LifecycleInv.BootIsGood` | src/process.rs:167-187 | a supervisor loaded from any disk contents satisfies the invariant |
| `LifecycleInv.StepKeepsInv` | src/process.rs:190-614 | every step of every actor, crash included, keeps the global invariant |
| `LifecycleInv.RunKeepsInv` | src/process.rs:190-614 | so does every run, over any number of lifetimes |
| `LifecycleTheorems.RelaunchRate` | src/process.rs:338-361 | n relaunches within T seconds of the first launch satisfy 17n <= 3T + 30, whatever mix of fast and stable exits |
| `LifecycleTheorems.RestartCap` | src/process.rs:311-351 | with a cap, relaunches <= cap * (1 + stable exits), the attempt stays in 1..cap at every launch, and the task's own steps are bounded by 14 * cap * (1 + stable exits) + 16, so it ends |
| `LifecycleTheorems.OneChild` | src/process.rs:310-315 | a handle has at most one unreaped child, that of its last launch, and pids tell unreaped children apart |
| `LifecycleTheorems.CleanBeforeLaunch` | src/process.rs:217-253 | a launch never meets an earlier launch's leaf or child, and a finished task leaves neither behind |
| `LifecycleTheorems.FailedSpawnLeavesNothing` | src/process.rs:244-253 | a handle whose first launch failed has no row, record, leaf or child |
| `LifecycleTheorems.HonestStatus` | src/process.rs:315-319 | a row says Running iff a launch is published whose exit is unrecorded, with its pid and restart count; its child is unreaped except between wait and recording |
| `LifecycleTheorems.RunSpends` | src/process.rs:329-384 | over any crash-free run a disarmed task spends only the launches and steps it had left, and with nothing in flight keeps its last launch |
| `LifecycleTheorems.ArmedNeverReturns` | src/process.rs:442-449 | over every crash-free run, with or without a shutdown, `armed` (false when the row is gone) never goes back to true once the handle has had its row |
| `LifecycleTheorems.DisarmIsFinal` | src/process.rs:363-384 | once stopped, forgotten or shutting down, a handle stays disarmed, its row is not armed again, it makes at most the one launch it was committed to, and ends within 15 own steps |
| `LifecycleRuns.HaltedStaysHalted` | src/process.rs:442-456 | a stopped launch stays the handle's last one over every continuation, and does not come back to Running |
| `LifecycleRuns.EscalationHitsTheLaunch` | src/process.rs:442-484 | if the row still says Running after any continuation of a `stop`, it is the same launch and pid, and no exit was recorded in between |
| `LifecycleRuns.SigkillTarget` | src/process.rs:461-484 | while a signal is pending, an unreaped child of the stopped handle is the one of the launch `stop` saw, under the captured pid; while the row says Running that pid is its child's alone unless the child was just reaped |
| `LifecycleGrace.StopStartsCall` | src/process.rs:442-456 | a `stop` disarms the row, and starts one call, for the row's pid and launch, iff the row says Running |
| `LifecycleGrace.KillWaitsForGrace` | src/process.rs:461-484 | whatever else happens, a call that was about to SIGTERM is not about to SIGKILL before the grace period has passed, and then for the same launch and pid |
| `LifecycleGrace.TerminationRuns` | src/process.rs:461-484 | after its SIGTERM a call can go on iff the grace period has passed; it then goes on to SIGKILL, through the leaf or to the group, iff the row still says Running, and otherwise ends without one |
| `LifecycleSignals.SignalCanStrayIff` | src/process.rs:458-484 | with the stopped task at rest, some run lets the captured pid name another handle's child while the signal is pending, iff the child it was taken from has been waited for |
| `LifecycleSignals.DeliveryStrikes` | src/process.rs:461-484 | before that, and with no shutdown, a signal by pid reaches exactly the child it is meant for, and `cgroup.kill` reaches it iff its launch joined its leaf, otherwise nobody |
| `LifecycleSignals.LaunchJoinsIff` | src/process.rs:219-223 | every launch gets a leaf iff one could be made, and joins it iff its `cgroup.procs` could be opened too |
| `LifecycleSignals.LeafKillNeverStrays` | src/process.rs:458-480 | `cgroup.kill` on the leaf reaches nobody but the child of the launch `stop` saw, in every reachable state |
| `LifecycleSignals.ReachableKeepsLeaves` | src/process.rs:219-223 | a launch that joined its leaf keeps the leaf until it is reaped, unless the supervisor shuts down |
| `LifecycleSignals.LateStopSignalsNothing` | src/process.rs:442-456 | a `stop` that lands on a committed launch adds no pending signal, and none for the handle appears in any run without another `stop` |
| `LifecycleSignals.ChildIsListedIff` | src/process.rs:577-598 | an unreaped child's row says Running, with its pid, iff its launch is in the table and was not published after its row had gone |
| `LifecycleSignals.OrphanIsOutOfReach` | src/process.rs:375-381 | a launch published after its row had gone never has a row again: in every continuation `stop` and `forget` do nothing |
| `LifecycleSignals.ShutdownKillTargets` | src/process.rs:588-613 | a group SIGKILL with a pid captured at shutdown strikes exactly that launch's child while it is unreaped, and can strike another handle's child iff it has been waited for |
| `LifecycleSignals.TeardownStrikesIff` | src/process.rs:606-608 | with cgroups the end of a shutdown kills exactly the children whose launch joined its leaf, in the table or not, and leaves no leaf |
| `LifecycleRuns.CommittedCanLaunch` | src/process.rs:367-384 | a task past the re-check can carry out its launch, whatever became of its row |
| `LifecycleRuns.StopIsFinalIff` | src/process.rs:442-456 | no continuation of a `stop` launches the handle again iff no launch was committed when it landed |
| `LifecycleDisk.TableStoreAgreement` | src/process.rs:195-206 | in every reachable state a row and its record agree (a tombstone up to Running becoming Stale) iff the task is not between its table write and its store write |
| `LifecycleDisk.RecordIsTheSpec` | src/process.rs:292-301 | the command, arguments and environment on disk are those the process was spawned with |
| `LifecycleDisk.SameHandlesWhenQuiet` | src/process.rs:556-572 | with no first write or `forget` pending and nothing orphaned, table and store hold the same handles |
| `LifecycleDisk.SpawnNeverOverwrites` | src/store.rs:91-100 | the handle of a first `put` is never on disk already, nor any handle above the counter, over any number of lifetimes |
| `LifecycleDisk.TombstoneFrozen` | src/process.rs:99-109 | over a whole lifetime a reloaded row is neither running nor armed, it and its record never change, it is never launched, and at most forgotten |
| `LifecycleDisk.ForgetIsFinalIff` | src/process.rs:556-575 | a forgotten handle never comes back, in table or store, iff no launch of it was in flight |
| `LifecycleDisk.ForgetCanBeUndone` | src/process.rs:375-383 | with a launch in flight, a completed `forget` is followed by a new record on disk |
| `LifecycleDisk.ReloadIsTheDisk` | src/process.rs:167-187 | a crash at any step reloads exactly the committed records, none running, none armed, no restarts, with a counter past every handle on disk |
| `LifecycleDisk.CrashKeepsRowIff` | src/process.rs:45-50 | a crash preserves a row's pid and (reloaded) status iff it does not fall between the two writes |
| `LifecycleDisk.RecordOutlivesLifetimes` | src/process.rs:167-187 | a record on disk at a crash stays as it is, with its tombstone for a row, over any run and any number of later lifetimes, until `forget` is called on it |
| `LifecycleHandles.CounterSurvivesIff` | src/store.rs:91-100 | a crash keeps the handle counter iff the last `put` or a record on disk has its value, and never raises it |
| `LifecycleHandles.GivenOutNextIff` | src/store.rs:91-120 | some run of the next lifetime hands out a handle iff it is above the stored counter and above every record on disk |
| `LifecycleWitnesses.LaunchCanBeCommitted` | src/process.rs:367-384 | a reachable state in which neither `stop` nor `forget` is final |
| `LifecycleWitnesses.CrashCanLoseAChange` | src/process.rs:317-324 | a reachable state in which a crash loses a row's status |
| `LifecycleWitnesses.KillCanGoAstray` | src/process.rs:479-483 | a reachable state in which a pending SIGKILL to a process group reaches another handle's child |
| `LifecycleWitnesses.TermCanGoAstray` | src/process.rs:461-463 | a reachable state in which a pending SIGTERM reaches another handle's child |
| `LifecycleWitnesses.ShutdownCanMiss` | src/process.rs:577-598 | a reachable state with the shutdown flag set and a child that has no row |
| `LifecycleWitnesses.OrphanCanRun` | src/process.rs:372-383 | a reachable state with a published child that has no row and never will |
| `LifecycleWitnesses.KillCanMiss` | src/process.rs:479-480 | a reachable state in which a pending `cgroup.kill` reaches nobody although the child is held and its row says Running |
| `LifecycleWitnesses.KillCanHit` | src/process.rs:479-480 | a reachable state in which a pending `cgroup.kill` strikes exactly the child of the launch `stop` saw |
| `LifecycleWitnesses.ForgottenHandleComesBack` | src/store.rs:91-120 | a run that spawns 1 and 2, forgets 2 and relaunches 1, after which the next lifetime can hand out 2 again |
| `LifecycleRestart.RestartIffDue` | src/process.rs:313-391 | left alone, an exit leads to a running relaunch after min(2^(attempt-1), 30) seconds, counted and on disk, in a new leaf it has joined if it could, when armed, not shutting down, due by policy and under the cap; otherwise the task ends with the exit recorded |
| `LifecycleRestart.SpawnIsServed` | src/process.rs:190-212 | left alone, `spawn` ends with a new handle running and armed, in the table and on disk, in a leaf it has joined if it could |
| `LifecycleRestart.RateIsAttained` | src/process.rs:338-361 | the rate bound is tight: some run meets 17n = 3T + 30 |
| `Listings.InsertLists` | src/store.rs:83-89 | sorting one more row into a listing lists the larger map |
| `Listings.Listing` | src/store.rs:83-89 | collecting and sorting a table lists each entry exactly once, by ascending handle |
| `DiskStore.MaxKey` | src/store.rs:95 | the loop finds the largest handle on disk, 0 for none |
| `DiskStore.Store.Load` | src/store.rs:79-106 | all records by ascending handle, and the maximum of the stored counter and the largest handle |
| `DiskStore.Store.Put` | src/store.rs:109-120 | one record is inserted or overwritten and the counter set to its handle, nothing else |
| `DiskStore.Store.Remove` | src/store.rs:123-131 | one record goes, nothing else |
| `DiskStore.Store.SetStatus` | src/store.rs:134-151 | one existing record's status changes; a missing record is not recreated |
| `DiskStore.RestatusCommutesWithRemove` | src/store.rs:123-151 | recording an exit and forgetting commute, and recording never adds a record |
| `ProcessManagers.Tombstones` | src/process.rs:173-177 | the reloaded table is the tombstone of each record |
| `ProcessManagers.ProcessManager.WithStore` | src/process.rs:167-187 | a new manager is the machine's boot state over the loaded disk, and satisfies the invariant |
| `ProcessManagers.ProcessManager.Reserve` | src/process.rs:191 | the handle taken is in neither the table nor the store |
| `ProcessManagers.ProcessManager.CreateLeaf` | src/process.rs:219-223 | making the leaf is the task's step of the machine; an existing leaf is not joined |
| `ProcessManagers.ProcessManager.SpawnChild` | src/process.rs:244-255 | the launch, or the failure that removes the leaf and ends the task |
| `ProcessManagers.ProcessManager.InsertRow` | src/process.rs:195-205 | the first row: running, armed, no restarts |
| `ProcessManagers.ProcessManager.Persist` | src/process.rs:292-306 | the record written for a launch and the counter with it |
| `ProcessManagers.ProcessManager.StartClock` | src/process.rs:314 | the loop's clock reading, a step of the machine |
| `ProcessManagers.ProcessManager.Wait` | src/process.rs:315 | reaping removes exactly this launch's child |
| `ProcessManagers.ProcessManager.RecordExit` | src/process.rs:317-319 | the exit goes into the row if there is one |
| `ProcessManagers.ProcessManager.PersistExit` | src/process.rs:320-324 | the exit goes to disk if the record is there |
| `ProcessManagers.ProcessManager.RemoveLeaf` | src/process.rs:325-327 | this launch's leaf goes, no other |
| `ProcessManagers.ProcessManager.ReadArmed` | src/process.rs:367 | both reads of `armed`; a missing row reads as false |
| `ProcessManagers.ProcessManager.CheckShutdown` | src/process.rs:330-335 | both decisions to go on or give up |
| `ProcessManagers.ProcessManager.CountAttempt` | src/process.rs:338-360 | counter, cap and delay, as the machine has them |
| `ProcessManagers.ProcessManager.PublishRelaunch` | src/process.rs:375-381 | pid, status and restart count of an existing row; a missing row is not recreated and the row stays as armed as it was |
| `ProcessManagers.ProcessManager.Stop` | src/process.rs:442-456 | the row is disarmed and a terminator for its pid starts iff it is running; unknown handles are refused; the invariant holds |
| `ProcessManagers.ProcessManager.ForgetRow` | src/process.rs:556-566 | succeeds iff the row exists and is not running, with the right error otherwise |
| `ProcessManagers.ProcessManager.Continue` | src/process.rs:461-484 | the sections of a pending `terminate` (SIGTERM to the pid, check after the grace period, SIGKILL through the leaf or to the group) and of a `forget` are steps of the machine, and send what they should to whom they should |
| `ProcessManagers.ProcessManager.Signal` | src/process.rs:487-507 | the exact answer, and the pid signalled is that of a published launch whose exit is unrecorded |
| `ProcessManagers.SignalIsSentIff` | src/process.rs:487-507 | a signal is sent iff the row says Running and the number is 1 to 31, to the row's pid; the kind of each refusal |
| `ProcessManagers.DigitsReadBack` | src/process.rs:499-500 | the number in the answer to an unknown signal reads back as the one asked for |
| `ProcessManagers.ProcessManager.Snapshot` | src/process.rs:404-426 | every row exactly once, by ascending handle, with the live usage of the running ones and of no other |
| `ProcessManagers.ProcessManager.BeginShutdown` | src/process.rs:582 | the flag is set and nothing else changes |
| `ProcessManagers.ProcessManager.RunningPids` | src/process.rs:588-595 | exactly the pids of running rows, each that of a published launch whose exit is unrecorded |
| `ProcessManagers.ProcessManager.Advance` | src/process.rs:310-392 | whichever region a task has reached, the method for it is the machine's step and keeps the invariant |
| `ProcessManagers.ProcessManager.Execute` | src/process.rs:190-614 | any crash-free schedule takes the object where it takes the machine |
| `ProcessManagers.Restart` | src/process.rs:167-187 | loading the store into a new manager is the machine's crash step |
| `RateLimiting.RateLimiter.Ask` | src/ratelimit.rs:43-62 | the first critical section: refill, decide, charge, and whether the table is over its cap |
| `RateLimiting.RateLimiter.EvictLru` | src/ratelimit.rs:78-87 | exactly one bucket goes, a least recently used one; none when there is none |
| `RateLimiting.RateLimiter.EvictStale` | src/ratelimit.rs:90-97 | exactly the buckets used within the time-to-live before `now` stay, and as they were |
| `RateLimiting.RateLimiter.Sweep` | src/ratelimit.rs:67-71 | over capacity one least recently used bucket goes; of the others exactly those idle for longer than the time-to-live; the rest stays as it was |
| `RateLimiting.RateLimiter.Allow` | src/ratelimit.rs:36-75 | below capacity only the peer's bucket changes, at or over it a sweep follows; a table within its cap stays within it |
| `RateLimiting.SweptSize` | src/ratelimit.rs:67-71 | a sweep takes at least one bucket from an over-full table and adds none |
| `RateLimiting.SweepEventSweeps` | src/ratelimit.rs:66-72 | however calls interleave, every second section sweeps the table as it finds it, with the clock its call read |
| `RateLimiting.CapacityBound` | src/ratelimit.rs:43-72 | however calls interleave, buckets <= cap + calls between their two sections, so <= cap at rest |
| `RateLimiting.StepKeepsBounded` | src/ratelimit.rs:45-59 | every critical section keeps 0 <= tokens <= burst |
| `RateLimiting.EvictionDominates` | src/ratelimit.rs:36-97 | from any state a given number of requests ahead, a peer is admitted at least as often as without eviction, less that lead |
| `RateLimiting.EvictionNeverCosts` | src/ratelimit.rs:36-97 | for every trace and peer, whatever the timestamps and sweeps, at least as many requests are admitted as by a limiter that never evicts |
| `Eviction.RestedEvictionUnobservable` | src/ratelimit.rs:45-97 | when ttl * refill >= burst, sweeping stale buckets and fully refilled victims changes no answer to anybody |
| `Eviction.RestedReturnsUnnoticed` | src/ratelimit.rs:45-97 | for every trace, in whatever clock order, nobody gets a different answer if everybody who comes back after an eviction would have found a full bucket |
| `Eviction.LevelsAgreeIff` | src/ratelimit.rs:45-97 | for every trace that is exactly when every request meets the token level, which no peer sees, that it would meet without eviction |
| `EvictionNoticed.LackShows` | src/ratelimit.rs:45-97 | a peer whose evicted bucket lacked something can find out by its own requests alone: it drains the new bucket, and asks once more when that has refilled to one token |
| `EvictionNoticed.ReturnNoticedIff` | src/ratelimit.rs:45-97 | a peer that comes back at r after an eviction can get an answer it would not have got, then or later and whatever others do, iff the burst allows anything and its bucket would not have been full at r (without refill: would have lacked a whole token) |
| `EvictionNoticed.EvictionUnnoticedIff` | src/ratelimit.rs:78-97 | no request from t on, by whomever and in whatever clock order, is answered differently iff no evicted bucket lacks anything at t |
| `Eviction.BackwardClockShowsEviction` | src/ratelimit.rs:37-97 | a concrete trace out of lock order in which eviction changes an answer although ttl * refill >= burst and the victim had refilled |
| `RateLimiting.WindowBound` | src/ratelimit.rs:45-59 | in a window without eviction of its bucket a peer is admitted at most burst + refill * (length + total backward movement of its clock readings) |
| `RateLimiting.OrderedWindowBound` | src/ratelimit.rs:45-59 | the classical burst + refill * length when the peer's own readings come in lock order |
| `RateLimiting.WindowBoundIff` | src/ratelimit.rs:37-59 | for a peer's clock readings in lock order the classical bound holds in every configuration, state and traffic iff the readings go forward by no more than the window in total |
| `RateLimiting.BackwardClockBreaksWindow` | src/ratelimit.rs:37-53 | a concrete trace out of lock order that exceeds the classical bound |
| `StdinPipe.RunKeepsInv` | src/process.rs:512-543 | every interleaving of calls, launches and drops keeps the pipe invariant |
| `StdinPipe.ReceivedInOrder` | src/process.rs:512-543 | a launch receives exactly what the calls that acquired its own pipe sent, in order; other calls sent nothing; all acquirers but the last were dropped |
| `StdinPipe.OneWriterPerLaunch` | src/process.rs:512-543 | if no acquirer was dropped, a launch receives a prefix of one call's input, and every other call on it sent nothing and is refused, waiting or gone |
| `StdinPipe.AnswerIff` | src/process.rs:525-541 | a call is acknowledged iff its stream came to its end, and then it has sent all of it; it is answered with an error iff its copy broke; a refused or waiting call has sent nothing |
| `StdinPipe.AckedIsReceived` | src/process.rs:530-534 | an acknowledged call whose launch nobody was dropped on was received in full, alone, and its pipe is closed |
| `StdinPipe.CallGoesToTheRow` | src/process.rs:517-528 | a call goes to the pipe of the launch its row showed when it began, and copies or is refused as it finds that pipe open or closed |
| `StdinPipe.RelaunchBringsPipe` | src/process.rs:375-381 | a relaunch gives the row a new pipe and leaves the old ones and their calls alone |
| `StdinPipe.ForgottenTakesNoCalls` | src/process.rs:518-520 | once a row is forgotten no call begins, and a relaunch without a row does not change that |
| `StdinPipe.SecondWriterNeedsADrop` | src/process.rs:525-541 | two calls write to one launch only if one of them was dropped |
| `StdinPipe.SecondWriterCanFollowADrop` | src/process.rs:525-541 | a run in which a launch receives bytes of two calls, the first dropped in the middle of its copy |
| `StdinPipe.NextWriterIff` | src/process.rs:516-541 | in every reachable state, without a further drop some call still acquires a pipe iff it is open, nobody holds it, and the row or a waiting call still knows it |
| `StdinPipe.ClosedIsFrozen` | src/process.rs:531-541 | a closed pipe takes no byte ever again, whatever is launched or called later |
| `Telemetry.LatestIsMaximum` | src/telemetry.rs:63-80 | the filter's state is exactly the largest fresh sequence number of each publisher |
| `Telemetry.AcceptedIffRecord` | src/telemetry.rs:56-80 | a tick is accepted iff it is fresh and exceeds every earlier fresh number of its publisher |
| `Telemetry.AcceptedIffInWindow` | src/telemetry.rs:56-80 | that is: its timestamp is at most the window behind the clock and at most the window ahead of it, and its number exceeds that of every earlier such tick of its publisher |
| `Telemetry.AcceptedTicksAre` | src/telemetry.rs:154-159 | what is printed is exactly what is accepted where it arrives |
| `Telemetry.AcceptedIncrease` | src/telemetry.rs:60-80 | accepted numbers of a publisher strictly increase, so none is accepted twice |
| `Telemetry.HeardAgainIff` | src/telemetry.rs:41-80 | after number n of a publisher was the last accepted, a later tick is accepted iff it is numbered above n and is a record among the later ones |
| `Telemetry.NewLifeIsDeaf` | src/telemetry.rs:41-80 | of a restarted publisher's ticks, delivered in full and in order, exactly the first n are dropped |
| `Telemetry.PublishersIndependent` | src/telemetry.rs:72-79 | one publisher's outcome is the same with everybody else's ticks taken out |
| `Telemetry.RateTimesSpan` | src/telemetry.rs:166-168 | a rate times its span gives the counter's rise back |
| `Telemetry.RatesAre` | src/telemetry.rs:163-169 | no rate for a first sample nor unless the clock advanced, otherwise the microseconds used over ten times the milliseconds, a fall counting as none |
| `Telemetry.OneLineEach` | src/telemetry.rs:161-184 | one line for each process listed, in order, with its memory in MiB rounded down where usage was sampled |
| `Telemetry.SampleOfTick` | src/telemetry.rs:161-165 | a listed process with usage yields exactly its own sample |
| `Telemetry.LosslessIffCounterGrows` | src/telemetry.rs:161-169 | with the publisher's clock advancing, reported CPU time is at least last minus first reading, and equal iff the counter never fell |
| `Telemetry.ReportedBalance` | src/telemetry.rs:161-169 | for any samples, what is reported is last minus first reading plus the falls, minus what moved while the clock did not advance |
| `Telemetry.LosslessThroughoutIff` | src/telemetry.rs:161-169 | for any samples, every stretch reports exactly the counter's movement iff between successive samples the counter never falls, nor moves while the clock does not advance |
| `Telemetry.RelaunchLosesTime` | src/telemetry.rs:161-169 | a counter that starts again from zero between two ticks: its use is not reported |
| `Telemetry.StallHidesFall` | src/telemetry.rs:161-169 | three samples whose total is right although a pair is not, so that no condition on pairs is necessary for the total alone |
| `Telemetry.DroppedTicksLoseNothing` | README.md:122-124 | for any delivered selection of a steady publisher's ticks the rates account for exactly the time between first and last accepted readings |
| `Telemetry.ReportsAreRates` | src/telemetry.rs:161-184 | what the watcher prints for a process is the rates between its successive accepted samples |
| `Telemetry.GossipLosesNothing` | src/telemetry.rs:116-200 | from the publisher's samples to the watcher's output: whatever is dropped, repeated or reordered, the printed rates of a process sum to last minus first reading, also among other lives of the publisher that do not sample its handle |
| `Telemetry.PublishedIsSteady` | src/telemetry.rs:123-133 | the publisher's numbering turns steady samples into steady ticks |
| `Telemetry.Publish` | src/telemetry.rs:116-142 | one tick for each snapshot that is not empty, in order, numbered from one |
| `Telemetry.EverySnapshotGoesOut` | src/telemetry.rs:125-138 | every snapshot that is not empty goes out, unchanged, under the next number, and nothing else does |
| `Telemetry.Watcher.AcceptTick` | src/telemetry.rs:63-80 | the decision and the new filter state |
| `Telemetry.Watcher.Read` | src/telemetry.rs:161-174 | one printed line against the last sample of the same process, which it replaces |
| `Telemetry.Watcher.Receive` | src/telemetry.rs:154-188 | one message: its readings and samples if accepted, nothing otherwise |
| `Telemetry.Watcher.Watch` | src/telemetry.rs:147-200 | after any stream, filter state, samples and output are those of its accepted ticks |
| `Chokepoint.PassesIff` | src/supervisor.rs:58-76 | a request goes through iff it was allowed, parsed, and its peer has the rights for it |
| `Chokepoint.RefusalsAre` | src/supervisor.rs:58-76 | which refusal each connection gets: rate-limited, late, malformed or denied, and when |
| `Chokepoint.SpawnDoes` | src/supervisor.rs:140-146 | an accepted spawn takes the next handle and starts a task with the spec it carries, and changes nothing else |
| `Chokepoint.StopDoes` | src/supervisor.rs:155-158 | an accepted `stop` disarms the row of its handle and no other |
| `Chokepoint.ForgetDoes` | src/supervisor.rs:159-162 | an accepted `forget` removes the row of its handle and no other, unless it says Running |
| `Chokepoint.CallChangesIff` | src/supervisor.rs:58-103 | a connection changes the supervisor iff it was allowed, parsed, its peer has control rights, and its request is a spawn, a `stop` of an armed or running row, or a `forget` of a row that is not running |
| `Chokepoint.Supervisor.Dispatch` | src/supervisor.rs:136-167 | every dispatched request's reply and effect on the machine; the two unreachable arms are never reached |
| `Chokepoint.Supervisor.SpawnReply` | src/supervisor.rs:140-146 | no answer exactly while the call is under way; after a failure nothing of the handle is left; after a success the pid of the first launch, under which row, record and child are there until a relaunch, a `forget` or the wait |
| `Chokepoint.Supervisor.Accept` | src/supervisor.rs:53-103 | limiter, parser, rights and route decide effect and reply; a peer outside `control` changes nothing |
| `Chokepoint.ReaderChangesNothing` | src/supervisor.rs:171-182 | a connection from outside `control` leaves the whole supervisor state as it was, accepted or not |
| `Chokepoint.ReadersDoNotInterfere` | src/supervisor.rs:58-103 | with the limiter's answers given, purging all such connections from any history with background work ends in the same state |
| `Interference.OutsidersAreInvisible` | src/supervisor.rs:53-103 | with the limiter in the state, two histories that differ only in what peers without control rights did and in evictions give every other peer the same limiter answers and end in the same state, whenever those who return after an eviction would have found full buckets |
| `Interference.OrderedIsCalm` | src/ratelimit.rs:78-97 | that is so when ttl * refill >= burst, readings are in lock order and victims have refilled |
| `Interference.OutsidersCostNothing` | src/supervisor.rs:58-60 | whatever the timestamps and evictions, a peer with control rights is admitted at least as often as by a limiter that never evicts and sees no outsider |
| `Chokepoint.CallsKeepInv` | src/supervisor.rs:53-167 | the lifecycle invariant survives any mix of connections and background work |

## Left out

- Store failures and the in-memory-only mode: every store write succeeds, and leaf removal too.
- The cgroup file system, the sandbox and signal delivery: a leaf is a member of a set, and a
  signal is the pid it was sent to. Children die with the supervisor.
- The grace wait of `kill_all`: its loop only decides when the forced teardown starts, and that
  step may come at any time after the flag is set.
- The stdout pump and the subscription stream: decided by a lossy broadcast channel.
- Live usage: what the leaves' counters read is a parameter, and arbitrary in telemetry.
- Encodings, signatures, gossip and transport: opening a tick is an oracle, a request frame is
  parsed, malformed or late, and the store's tables are maps.
- Floating-point rounding, and the overflow of `u64` and `u32` counters.
- Configuration, command line, client, secret key: values are parameters, the rest is not modelled.
- Chokepoint.Supervisor.Dispatch: a spawn returns the handle it has taken, and its answer is given
  by `SpawnReply` when the launch is known. `forget` is answered after its first section, its
  second being a pending call.
- Chokepoint.Supervisor.Accept: how a copy into stdin ended is a parameter; what copies can do is
  `StdinPipe`.
- Chokepoint.ReadersDoNotInterfere: takes the limiter's answer to each connection as given;
  `OutsidersAreInvisible` and `OutsidersCostNothing` put the limiter into the state.
- ProcessManagers.ProcessManager.Continue: a SIGKILL does not itself end the child in the model; a
  child may exit at any time, and `DeliveryStrikes` says whom a signal reaches.
- ProcessManagers.ProcessManager.Signal: whether the kernel delivers the signal is a parameter, and
  the known signals are 1 to 31.
- Eviction.RestedEvictionUnobservable: concerns readings in lock order; out of it the claim is false,
  and `ReturnNoticedIff` and `EvictionUnnoticedIff` have the exact conditions.
