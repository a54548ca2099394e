/** What the invariant means for every reachable state and every run. */
module LifecycleTheorems {
  import opened Protocol
  import opened Backoff
  import opened Lifecycle
  import opened LifecycleInv

  /** Some run, over any number of lifetimes, leads from some disk contents to `w`. */
  ghost predicate Reachable(w: World) {
    exists records: map<Handle, Record>, keyNext: nat, now: Time, grace: Time, steps: seq<Step> ::
      ReachedBy(w, records, keyNext, now, grace, steps)
  }

  ghost predicate ReachedBy(
    w: World, records: map<Handle, Record>, keyNext: nat, now: Time, grace: Time, steps: seq<Step>)
  {
    && ValidRun(Boot(records, keyNext, now, 0, grace), steps)
    && w == Run(Boot(records, keyNext, now, 0, grace), steps)
  }

  lemma ReachableIsGood(w: World)
    requires Reachable(w)
    ensures Inv(w)
  {
    var records, keyNext, now, grace, steps :| ReachedBy(w, records, keyNext, now, grace, steps);
    BootIsGood(records, keyNext, now, 0, grace);
    RunKeepsInv(Boot(records, keyNext, now, 0, grace), steps);
  }

  // ---------------------------------------------------------------- restart rate and cap

  /** However exits fall, n relaunches within T seconds of the first launch satisfy 17n <= 3T + 30. */
  lemma RelaunchRate(w: World, h: Handle)
    requires Reachable(w) && h in w.tasks && w.tasks[h].launches >= 1
    ensures w.tasks[h].born <= w.now
    ensures 17 * SECOND * (w.tasks[h].launches - 1) <= 3 * (w.now - w.tasks[h].born) + 30 * SECOND
  {
    ReachableIsGood(w);
    assert SlotOk(SlotOf(w, h), h, w.now, w.next);
  }

  /** With a cap, stable exits alone pay for more than the cap, and the task runs out of steps. */
  lemma RestartCap(w: World, h: Handle)
    requires Reachable(w) && h in w.tasks && w.tasks[h].spec.maxRetries != 0
    ensures
      var t := w.tasks[h];
      var cap := t.spec.maxRetries;
      && Relaunches(t) <= cap * (1 + t.stables)
      && (Ahead(t.pc) ==> 1 <= t.attempt <= cap)
      && t.steps <= 14 * (cap * (1 + t.stables)) + 16
  {
    ReachableIsGood(w);
    assert SlotOk(SlotOf(w, h), h, w.now, w.next);
    var t := w.tasks[h];
    var cap := t.spec.maxRetries;
    AllowanceIsProduct(cap, t.stables + 1);
    assert Allowance(cap, t.stables + 1) == cap + Allowance(cap, t.stables);
    assert cap * (1 + t.stables) == cap * (t.stables + 1);
    assert Position(t.pc) <= 16;
  }

  // ---------------------------------------------------------------- children, leaves, status

  /** A handle has at most one child nobody has waited for, and pids tell children apart. */
  lemma OneChild(w: World, a: Child, b: Child)
    requires Reachable(w) && a in w.children && b in w.children
    ensures a.handle == b.handle || a.pid == b.pid ==> a == b
    ensures a.handle in w.tasks && w.tasks[a.handle].launches == a.launch && w.tasks[a.handle].pid == a.pid
  {
    ReachableIsGood(w);
    assert SlotOk(SlotOf(w, a.handle), a.handle, w.now, w.next);
    assert SlotOk(SlotOf(w, b.handle), b.handle, w.now, w.next);
    assert a in SlotOf(w, a.handle).kids && b in SlotOf(w, b.handle).kids;
  }

  /**
   * A launch never meets the previous launch's leaf or an unreaped child, and a finished task
   * leaves neither behind.
   */
  lemma CleanBeforeLaunch(w: World, h: Handle)
    requires Reachable(w) && h in w.tasks
    requires w.tasks[h].pc.Reserved? || w.tasks[h].pc.Launching? || w.tasks[h].pc.Done?
    ensures h !in w.leaves
    ensures forall c :: c in w.children ==> c.handle != h
  {
    ReachableIsGood(w);
    var s := SlotOf(w, h);
    assert SlotOk(s, h, w.now, w.next);
    assert forall c :: c in w.children && c.handle == h ==> c in s.kids;
  }

  /**
   * The table says Running exactly while a launch is published and its exit unrecorded, with
   * that launch's pid; the child is then unreaped except between the wait and the recording.
   */
  lemma HonestStatus(w: World, h: Handle)
    requires Reachable(w) && h in w.procs
    ensures w.procs[h].status.Running? <==> h in w.tasks && Live(w.tasks[h].pc)
    ensures w.procs[h].status.Running? ==>
      var t := w.tasks[h];
      && w.procs[h].pid == t.pid
      && w.procs[h].restarts + 1 == t.launches
      && (Child(h, t.launches, t.pid, t.joined) in w.children <==> !t.pc.Reaped?)
  {
    ReachableIsGood(w);
    var s := SlotOf(w, h);
    assert SlotOk(s, h, w.now, w.next);
    if h in w.tasks {
      var t := w.tasks[h];
      assert Child(h, t.launches, t.pid, t.joined) in w.children <==> Child(h, t.launches, t.pid, t.joined) in s.kids;
    }
  }

  /** A spawn that failed leaves nothing: no row, no record, no leaf, no child. */
  lemma FailedSpawnLeavesNothing(w: World, h: Handle)
    requires Reachable(w) && h in w.tasks && w.tasks[h].pc.Done? && w.tasks[h].launches == 0
    ensures h !in w.procs && h !in w.records && h !in w.leaves
    ensures forall c :: c in w.children ==> c.handle != h
  {
    ReachableIsGood(w);
    assert SlotOk(SlotOf(w, h), h, w.now, w.next);
    assert forall c :: c in w.children && c.handle == h ==> c in SlotOf(w, h).kids;
  }

  // ---------------------------------------------------------------- disarming

  /** Nothing will arm this task again. */
  predicate Disarmed(s: Slot, shutdown: bool) {
    && s.task.Some?
    && (shutdown || (!PreInsert(s.task.value.pc) && !IsArmed(s.entry)))
  }

  /** Own steps a disarmed task has left. */
  function Rank(pc: Pc, shutdown: bool): nat {
    match pc
    case Done => 0
    case Rechecked(armed) => if armed && !shutdown then 15 else 1
    case Sleeping(_) => 2
    case Deciding(_) => 3
    case Checked(_, _, _) => 4
    case LeafGone(_, _) => 5
    case Persisted(_, _) => 6
    case Recorded(_, _) => 7
    case Reaped(_, _) => 8
    case Waiting(_) => 9
    case Starting => 10
    case Published => 11
    case SpawnInserted => 11
    case Relaunched => 12
    case SpawnLaunched => 12
    case RelaunchLeaf => 13
    case SpawnLeaf => 13
    case Launching => 14
    case Reserved => 14
  }

  /**
   * From `s` to `s'` the handle used its allowance of launches and own steps and no more;
   * with no launch in flight it also kept its last launch, did not come back to life and
   * was not orphaned; and a row that is gone stays gone.
   */
  predicate Spends(s: Slot, shutdown: bool, s': Slot, shutdown': bool)
    requires s.task.Some? && s'.task.Some?
  {
    var t, t' := s.task.value, s'.task.value;
    && t.launches <= t'.launches
    && t'.launches + Budget(t'.pc, shutdown') <= t.launches + Budget(t.pc, shutdown)
    && t'.steps + Rank(t'.pc, shutdown') <= t.steps + Rank(t.pc, shutdown)
    && (!PreInsert(t.pc) ==> !PreInsert(t'.pc) && (s.entry.None? ==> s'.entry.None?))
    && (!InFlight(t.pc, shutdown) ==>
          && !InFlight(t'.pc, shutdown')
          && t'.pid == t.pid
          && (IsRunning(s'.entry) ==> IsRunning(s.entry))
          && (t'.orphaned ==> t.orphaned))
  }

  lemma SpawnSpends(s: Slot, h: Handle, now: Time, shutdown: bool, c: Choice)
    requires Disarmed(s, shutdown) && InSpawn(s.task.value.pc)
    ensures
      var s' := SpawnStep(s, h, Counted(s.task.value), now, c);
      Disarmed(s', shutdown) && Spends(s, shutdown, s', shutdown)
  {
  }

  lemma ExitSpends(s: Slot, now: Time, shutdown: bool, c: Choice)
    requires Disarmed(s, shutdown) && InExit(s.task.value.pc)
    ensures
      var s' := ExitStep(s, Counted(s.task.value), now, c);
      Disarmed(s', shutdown) && Spends(s, shutdown, s', shutdown)
  {
  }

  lemma DecisionSpends(s: Slot, now: Time, shutdown: bool)
    requires Disarmed(s, shutdown) && InDecision(s.task.value.pc)
    ensures
      var s' := s.(task := Some(DecisionStep(Counted(s.task.value), IsArmed(s.entry), now, shutdown)));
      Disarmed(s', shutdown) && Spends(s, shutdown, s', shutdown)
  {
  }

  lemma RelaunchSpends(s: Slot, h: Handle, now: Time, shutdown: bool, c: Choice)
    requires Disarmed(s, shutdown) && InRelaunch(s.task.value.pc)
    ensures
      var s' := RelaunchStep(s, h, Counted(s.task.value), now, c);
      Disarmed(s', shutdown) && Spends(s, shutdown, s', shutdown)
  {
  }

  lemma OwnSpends(s: Slot, h: Handle, now: Time, shutdown: bool, c: Choice)
    requires Disarmed(s, shutdown) && !s.task.value.pc.Done?
    ensures
      var s' := OwnSlot(s, h, now, shutdown, c);
      Disarmed(s', shutdown) && Spends(s, shutdown, s', shutdown)
  {
    var pc := s.task.value.pc;
    if InSpawn(pc) {
      SpawnSpends(s, h, now, shutdown, c);
    } else if InExit(pc) {
      ExitSpends(s, now, shutdown, c);
    } else if InDecision(pc) {
      DecisionSpends(s, now, shutdown);
    } else {
      RelaunchSpends(s, h, now, shutdown, c);
    }
  }

  /** The task is untouched; the row can only be disarmed, or removed when not Running; the record only removed. */
  predicate Undisturbed(s: Slot, s': Slot) {
    && s'.task == s.task
    && (s'.entry.Some? ==> s.entry.Some? && s.entry.value == s'.entry.value.(armed := s.entry.value.armed))
    && (IsArmed(s'.entry) ==> IsArmed(s.entry))
    && (IsRunning(s.entry) ==> IsRunning(s'.entry))
    && (s'.record.Some? ==> s.record == s'.record)
  }

  lemma OpStepUndisturbed(w: World, o: nat, h: Handle)
    requires o in w.ops
    ensures Undisturbed(SlotOf(w, h), SlotOf(ApplyOp(w, o), h))
  {
  }

  lemma StopUndisturbed(w: World, g: Handle, h: Handle)
    ensures Undisturbed(SlotOf(w, h), SlotOf(ApplyStop(w, g), h))
  {
    SlotAfter(w, g, SlotOf(w, g).(entry := Disarm(SlotOf(w, g).entry)), h);
  }

  lemma ForgetUndisturbed(w: World, g: Handle, h: Handle)
    ensures Undisturbed(SlotOf(w, h), SlotOf(ApplyForget(w, g), h))
  {
  }

  /** Only a handle's own task and a crash disturb it. */
  lemma OthersUndisturbed(w: World, step: Step, h: Handle)
    requires Inv(w) && Enabled(w, step) && !step.Crash?
    requires h <= w.next && (step.Own? ==> step.h != h)
    ensures Undisturbed(SlotOf(w, h), SlotOf(Apply(w, step), h))
    ensures w.shutdown ==> Apply(w, step).shutdown
  {
    match step
    case Own(g, c) =>
      OwnKeepsPids(w, g, c);
      SlotAfter(w, g, OwnSlot(SlotOf(w, g), g, w.now, w.shutdown, c), h);
    case StopCall(g) => StopUndisturbed(w, g, h);
    case ForgetCall(g) => ForgetUndisturbed(w, g, h);
    case OpStep(o) => OpStepUndisturbed(w, o, h);
    case _ =>
  }

  lemma OwnStepSlot(w: World, h: Handle, c: Choice)
    requires Inv(w) && Enabled(w, Own(h, c))
    ensures SlotOf(Apply(w, Own(h, c)), h) == OwnSlot(SlotOf(w, h), h, w.now, w.shutdown, c)
  {
    OwnKeepsPids(w, h, c);
    SlotAfter(w, h, OwnSlot(SlotOf(w, h), h, w.now, w.shutdown, c), h);
  }

  lemma StepSpends(w: World, step: Step, h: Handle)
    requires Inv(w) && Enabled(w, step) && !step.Crash?
    requires Disarmed(SlotOf(w, h), w.shutdown)
    ensures
      var w' := Apply(w, step);
      && Disarmed(SlotOf(w', h), w'.shutdown)
      && Spends(SlotOf(w, h), w.shutdown, SlotOf(w', h), w'.shutdown)
  {
    assert SlotOk(SlotOf(w, h), h, w.now, w.next);
    if step.Own? && step.h == h {
      OwnStepSlot(w, h, step.c);
      OwnSpends(SlotOf(w, h), h, w.now, w.shutdown, step.c);
    } else {
      OthersUndisturbed(w, step, h);
    }
  }

  /** Over a whole lifetime a disarmed task only spends what it had. */
  lemma {:induction false} RunSpends(w: World, steps: seq<Step>, h: Handle)
    requires Inv(w) && ValidRun(w, steps) && CrashFree(steps)
    requires Disarmed(SlotOf(w, h), w.shutdown)
    ensures
      var w' := Run(w, steps);
      && Disarmed(SlotOf(w', h), w'.shutdown)
      && Spends(SlotOf(w, h), w.shutdown, SlotOf(w', h), w'.shutdown)
    decreases |steps|
  {
    if steps != [] {
      StepSpends(w, steps[0], h);
      StepKeepsInv(w, steps[0]);
      RunSpends(Apply(w, steps[0]), steps[1..], h);
    }
  }

  /** The handle has had its row, and the row, if still there, is not armed. */
  predicate Unarmed(s: Slot) {
    !IsArmed(s.entry) && (s.task.Some? ==> !PreInsert(s.task.value.pc))
  }

  lemma OwnKeepsUnarmed(s: Slot, h: Handle, now: Time, shutdown: bool, c: Choice)
    requires s.task.Some? && !s.task.value.pc.Done? && Unarmed(s)
    ensures Unarmed(OwnSlot(s, h, now, shutdown, c))
  {
  }

  /** `armed` never goes back to true for a handle: not in its row, and not because the row is gone. */
  lemma {:induction false} ArmedNeverReturns(w: World, steps: seq<Step>, h: Handle)
    requires Inv(w) && h <= w.next && Unarmed(SlotOf(w, h))
    requires ValidRun(w, steps) && CrashFree(steps)
    ensures Unarmed(SlotOf(Run(w, steps), h))
    decreases |steps|
  {
    if steps != [] {
      if steps[0].Own? && steps[0].h == h {
        OwnStepSlot(w, h, steps[0].c);
        OwnKeepsUnarmed(SlotOf(w, h), h, w.now, w.shutdown, steps[0].c);
      } else {
        OthersUndisturbed(w, steps[0], h);
      }
      StepKeepsInv(w, steps[0]);
      ArmedNeverReturns(Apply(w, steps[0]), steps[1..], h);
    }
  }

  /** `stop`, a completed `forget` and the shutdown flag disarm a tracked handle. */
  ghost predicate IsDisarmed(w: World, h: Handle) {
    && h in w.tasks
    && (w.shutdown || (!PreInsert(w.tasks[h].pc) && (h in w.procs ==> !w.procs[h].armed)))
  }

  /**
   * Disarming is final: in every continuation within the lifetime the handle stays disarmed,
   * makes at most the one launch it was already committed to, and takes at most fifteen more
   * steps of its own before it ends; a row that was disarmed is not armed again, whether or not
   * the supervisor shuts down later.
   */
  lemma DisarmIsFinal(w: World, steps: seq<Step>, h: Handle)
    requires Reachable(w) && IsDisarmed(w, h)
    requires ValidRun(w, steps) && CrashFree(steps)
    ensures
      var w' := Run(w, steps);
      && IsDisarmed(w', h)
      && w.tasks[h].launches <= w'.tasks[h].launches <= w.tasks[h].launches + Budget(w.tasks[h].pc, w.shutdown)
      && w'.tasks[h].steps <= w.tasks[h].steps + 15
      && (!PreInsert(w.tasks[h].pc) && !IsArmed(Lookup(w.procs, h)) ==> !IsArmed(Lookup(w'.procs, h)))
  {
    var w' := Run(w, steps);
    if Unarmed(SlotOf(w, h)) {
      ReachableIsGood(w);
      assert h <= w.next by {
        assert SlotOk(SlotOf(w, h), h, w.now, w.next);
      }
      ArmedNeverReturns(w, steps, h);
    }
    assert Disarmed(SlotOf(w', h), w'.shutdown) && Spends(SlotOf(w, h), w.shutdown, SlotOf(w', h), w'.shutdown) by {
      ReachableIsGood(w);
      RunSpends(w, steps, h);
    }
    assert Rank(w.tasks[h].pc, w.shutdown) <= 15;
  }
}
