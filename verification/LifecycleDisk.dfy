/** How the table and the store agree, and what `forget`, crash and reload do to them. */
module LifecycleDisk {
  import opened Protocol
  import opened Lifecycle
  import opened LifecycleInv
  import opened LifecycleTheorems
  import opened LifecycleRuns

  // ---------------------------------------------------------------- agreement

  /** The row of `h` is what its record would say. */
  predicate Agrees(w: World, h: Handle) {
    && h in w.procs && h in w.records
    && w.records[h].pid == w.procs[h].pid
    && (w.records[h].status == w.procs[h].status
        || (h !in w.tasks && w.procs[h].status == Reloaded(w.records[h].status)))
  }

  /** Between a table write and the store write that follows it. */
  predicate Writing(w: World, h: Handle) {
    h in w.tasks && MidWrite(w.tasks[h].pc)
  }

  /** A row agrees with its record exactly when its task is not between the two writes. */
  lemma TableStoreAgreement(w: World, h: Handle)
    requires Reachable(w) && h in w.procs
    ensures Agrees(w, h) <==> !Writing(w, h)
    ensures h in w.records && h in w.tasks ==>
      w.records[h] == RecordOf(w.tasks[h].spec, w.records[h].pid, w.records[h].status)
  {
    ReachableIsGood(w);
    assert SlotOk(SlotOf(w, h), h, w.now, w.next);
  }

  /** What is stored of a process is what it was spawned with. */
  lemma RecordIsTheSpec(w: World, h: Handle)
    requires Reachable(w) && h in w.tasks && h in w.records
    ensures w.records[h].cmd == w.tasks[h].spec.cmd
    ensures w.records[h].args == w.tasks[h].spec.args
    ensures w.records[h].env == w.tasks[h].spec.env
  {
    ReachableIsGood(w);
    assert SlotOk(SlotOf(w, h), h, w.now, w.next);
  }

  /** When nobody is writing, forgetting, or orphaned, both tables hold the same handles. */
  lemma SameHandlesWhenQuiet(w: World)
    requires Reachable(w)
    requires forall h :: h in w.tasks ==> !w.tasks[h].pc.SpawnInserted? && !w.tasks[h].orphaned
    requires forall o :: o in w.ops ==> !w.ops[o].Forgetting?
    ensures w.procs.Keys == w.records.Keys
  {
    ReachableIsGood(w);
    forall h: Handle
      ensures h in w.procs <==> h in w.records
    {
      assert SlotOk(SlotOf(w, h), h, w.now, w.next) && Accounted(w, h);
    }
  }

  /** A first `put` never overwrites: its handle is on disk nowhere, nor is the next one. */
  lemma SpawnNeverOverwrites(w: World, h: Handle)
    requires Reachable(w)
    ensures h in w.tasks && w.tasks[h].pc.SpawnInserted? ==> h !in w.records
    ensures h > w.next ==> h !in w.records && h !in w.procs && h !in w.tasks
  {
    ReachableIsGood(w);
    assert SlotOk(SlotOf(w, h), h, w.now, w.next);
  }

  // ---------------------------------------------------------------- tombstones

  /** Over a lifetime, a tombstone and its record are kept as they are or forgotten; it is never launched. */
  lemma {:induction false} TombstoneFrozenFrom(w: World, steps: seq<Step>, h: Handle)
    requires Inv(w) && h <= w.next && h !in w.tasks
    requires ValidRun(w, steps) && CrashFree(steps)
    ensures
      var w' := Run(w, steps);
      && h !in w'.tasks
      && (h in w'.procs ==> h in w.procs && w'.procs[h] == w.procs[h])
      && (h in w'.records ==> h in w.records && w'.records[h] == w.records[h])
    decreases |steps|
  {
    if steps != [] {
      var w1 := Apply(w, steps[0]);
      StepKeepsInv(w, steps[0]);
      OthersUndisturbed(w, steps[0], h);
      assert SlotOf(w1, h).task == None && SlotOf(w, h).task == None;
      assert SlotOf(w1, h).record.Some? ==> SlotOf(w, h).record == SlotOf(w1, h).record;
      assert SlotOk(SlotOf(w, h), h, w.now, w.next) && SlotOk(SlotOf(w1, h), h, w1.now, w1.next);
      TombstoneFrozenFrom(w1, steps[1..], h);
    }
  }

  lemma TombstoneFrozen(w: World, steps: seq<Step>, h: Handle)
    requires Reachable(w) && h in w.procs && h !in w.tasks
    requires ValidRun(w, steps) && CrashFree(steps)
    ensures
      var w' := Run(w, steps);
      && h !in w'.tasks
      && (h in w'.procs ==> w'.procs[h] == w.procs[h])
      && (h in w'.records ==> h in w.records && w'.records[h] == w.records[h])
    ensures !w.procs[h].armed && !w.procs[h].status.Running?
  {
    ReachableIsGood(w);
    assert SlotOk(SlotOf(w, h), h, w.now, w.next);
    TombstoneFrozenFrom(w, steps, h);
  }

  // ---------------------------------------------------------------- forget

  /** `forget` on a handle that is not running. */
  predicate Forgettable(w: World, h: Handle) {
    h in w.procs && !w.procs[h].status.Running?
  }

  lemma ForgetSlot(w: World, h: Handle)
    requires Forgettable(w, h)
    ensures SlotOf(ApplyForget(w, h), h) == SlotOf(w, h).(entry := None)
    ensures ApplyForget(w, h).shutdown == w.shutdown
  {
    SlotAfter(w, h, SlotOf(w, h).(entry := None), h);
    SlotsFrame(WithSlot(w, h, SlotOf(w, h).(entry := None)), ApplyForget(w, h));
  }

  /** Gone from the table, and from the disk as soon as no `forget` is still pending. */
  ghost predicate StaysForgotten(w: World, h: Handle) {
    h !in w.procs && (h in w.records ==> ForgetPending(w, h))
  }

  /** No continuation within the lifetime brings the handle back. */
  ghost predicate NeverComesBack(w: World, h: Handle) {
    forall steps :: ValidRun(w, steps) && CrashFree(steps) ==> StaysForgotten(Run(w, steps), h)
  }

  /** A launch that is committed or waiting to be published when the row goes. */
  predicate LaunchInFlight(w: World, h: Handle) {
    h in w.tasks && InFlight(w.tasks[h].pc, w.shutdown)
  }

  lemma ForgetHolds(w: World, h: Handle, steps: seq<Step>)
    requires Inv(w) && Forgettable(w, h) && !LaunchInFlight(w, h)
    requires ValidRun(ApplyForget(w, h), steps) && CrashFree(steps)
    ensures StaysForgotten(Run(ApplyForget(w, h), steps), h)
  {
    var w1 := ApplyForget(w, h);
    var w2 := Run(w1, steps);
    assert SlotOk(SlotOf(w, h), h, w.now, w.next);
    ForgetKeepsInv(w, h);
    ForgetSlot(w, h);
    RunKeepsInv(w1, steps);
    assert Accounted(w2, h);
    if h in w.tasks {
      assert SlotOf(w1, h).task == Some(w.tasks[h]);
      RunSpends(w1, steps, h);
      assert SlotOf(w2, h).entry == None;
    } else {
      assert SlotOf(w1, h).task == None;
      TombstoneFrozenFrom(w1, steps, h);
    }
  }

  /** A relaunch whose row is gone still writes its record. */
  lemma OrphanWritesRecord(w: World, h: Handle) returns (steps: seq<Step>)
    requires Inv(w) && h in w.tasks && w.tasks[h].pc.Relaunched? && h !in w.procs
    ensures ValidRun(w, steps) && CrashFree(steps)
    ensures h in Run(w, steps).records && Run(w, steps).ops == w.ops
  {
    var c := Choice(true, true, 0, None);
    var step := Own(h, c);
    var w1 := Apply(w, step);
    OwnStepSlot(w, h, c);
    OwnKeepsInv(w, h, c);
    assert h in w1.tasks && w1.tasks[h].pc.Published? by {
      assert SlotOf(w1, h).task.value.pc.Published?;
    }
    OwnStepSlot(w1, h, c);
    assert h in Apply(w1, step).records by {
      assert SlotOf(Apply(w1, step), h).record.Some?;
    }
    OneStep(w, step);
    OneStep(w1, step);
    steps := [step] + [step];
    RunsCompose(w, [step], [step]);
  }

  /** The second half of `forget`: afterwards neither the row nor the record is there. */
  lemma FinishForget(w: World, h: Handle)
    requires Inv(w) && Forgettable(w, h)
    ensures
      var w1 := ApplyForget(w, h);
      && w.nextOp in w1.ops && w1.ops[w.nextOp] == Forgetting(h)
      && Inv(ApplyOp(w1, w.nextOp))
      && SlotOf(ApplyOp(w1, w.nextOp), h) == SlotOf(w, h).(entry := None, record := None)
      && ApplyOp(w1, w.nextOp).shutdown == w.shutdown
      && !ForgetPending(ApplyOp(w1, w.nextOp), h)
  {
    var w1 := ApplyForget(w, h);
    ForgetKeepsInv(w, h);
    ForgetSlot(w, h);
    OpStepKeepsInv(w1, w.nextOp);
    var s := SlotOf(w1, h).(record := None);
    SlotAfter(w1, h, s, h);
    SlotsFrame(WithSlot(w1, h, s), ApplyOp(w1, w.nextOp));
    forall o | o in w.ops
      ensures w.ops[o] != Forgetting(h)
    {
      assert OpOk(SlotOf(w, w.ops[o].h), w.ops[o]);
    }
  }

  /** A launch in flight without a row reaches the disk. */
  lemma LaunchWithoutRow(w: World, h: Handle) returns (steps: seq<Step>)
    requires Inv(w) && LaunchInFlight(w, h) && !PreInsert(w.tasks[h].pc) && h !in w.procs
    ensures ValidRun(w, steps) && CrashFree(steps)
    ensures h in Run(w, steps).records && Run(w, steps).ops == w.ops
  {
    if w.tasks[h].pc.Relaunched? {
      steps := OrphanWritesRecord(w, h);
    } else {
      var launch := CommittedCanLaunch(w, h);
      RunKeepsInv(w, launch);
      assert SlotOf(Run(w, launch), h).entry == None;
      var write := OrphanWritesRecord(Run(w, launch), h);
      RunsCompose(w, launch, write);
      steps := launch + write;
    }
  }

  /** With a launch in flight, a completed `forget` is undone on disk. */
  lemma ForgetCanBeUndone(w: World, h: Handle) returns (steps: seq<Step>)
    requires Inv(w) && Forgettable(w, h) && LaunchInFlight(w, h)
    ensures ValidRun(ApplyForget(w, h), steps) && CrashFree(steps)
    ensures !StaysForgotten(Run(ApplyForget(w, h), steps), h)
  {
    var w1 := ApplyForget(w, h);
    var w2 := ApplyOp(w1, w.nextOp);
    FinishForget(w, h);
    assert !PreInsert(w.tasks[h].pc) by {
      assert SlotOk(SlotOf(w, h), h, w.now, w.next);
    }
    assert h in w2.tasks && w2.tasks[h] == w.tasks[h] && h !in w2.procs by {
      assert SlotOf(w2, h).task == Some(w.tasks[h]) && SlotOf(w2, h).entry == None;
    }
    OneStep(w1, OpStep(w.nextOp));
    var rest := LaunchWithoutRow(w2, h);
    RunsCompose(w1, [OpStep(w.nextOp)], rest);
    steps := [OpStep(w.nextOp)] + rest;
    assert Run(w1, steps).ops == w2.ops;
  }

  /** `forget` is final exactly when no launch of the handle is in flight. */
  lemma ForgetIsFinalIff(w: World, h: Handle)
    requires Reachable(w) && Forgettable(w, h)
    ensures NeverComesBack(ApplyForget(w, h), h) <==> !LaunchInFlight(w, h)
  {
    ReachableIsGood(w);
    var w1 := ApplyForget(w, h);
    if LaunchInFlight(w, h) {
      var steps := ForgetCanBeUndone(w, h);
    } else {
      forall steps | ValidRun(w1, steps) && CrashFree(steps)
        ensures StaysForgotten(Run(w1, steps), h)
      {
        ForgetHolds(w, h, steps);
      }
    }
  }

  // ---------------------------------------------------------------- crash and reload

  /**
   * A reload holds a tombstone for each committed record and nothing else: nothing running,
   * nothing armed, no task, and a counter past every handle on disk.
   */
  lemma ReloadIsTheDisk(w: World)
    ensures
      var w' := Apply(w, Crash);
      && w'.records == w.records && w'.procs.Keys == w.records.Keys
      && w'.tasks == map[] && w'.children == {} && w'.leaves == {} && w'.ops == map[]
      && !w'.shutdown && w'.now == w.now && w'.grace == w.grace
      && (forall h :: h in w'.procs ==>
            && w'.procs[h].pid == w.records[h].pid
            && !w'.procs[h].armed && !w'.procs[h].status.Running? && w'.procs[h].restarts == 0
            && (w.records[h].status.Running? ==> w'.procs[h].status.Stale?)
            && (!w.records[h].status.Running? ==> w'.procs[h].status == w.records[h].status))
      && (forall h :: h in w'.records ==> h <= w'.next)
  {
    var w' := Apply(w, Crash);
    assert w'.procs.Keys == w.records.Keys;
  }

  /** A reloaded record: its row is its tombstone, and nobody is forgetting it. */
  ghost predicate Shelved(w: World, h: Handle, rec: Record) {
    && Inv(w) && h <= w.next && h !in w.tasks
    && h in w.records && w.records[h] == rec
    && h in w.procs && w.procs[h] == Tombstone(rec)
    && !ForgetPending(w, h)
  }

  /** The row and the record of `h` stay, and nobody starts to forget it. */
  ghost predicate LeavesShelved(w: World, w': World, h: Handle) {
    && SlotOf(w', h) == SlotOf(w, h)
    && (forall o :: o in w'.ops && w'.ops[o] == Forgetting(h) ==> o in w.ops && w.ops[o] == Forgetting(h))
  }

  lemma StopLeavesShelved(w: World, g: Handle, h: Handle, rec: Record)
    requires Shelved(w, h, rec)
    ensures LeavesShelved(w, ApplyStop(w, g), h)
  {
    SlotAfter(w, g, SlotOf(w, g).(entry := Disarm(SlotOf(w, g).entry)), h);
  }

  lemma ForgetLeavesShelved(w: World, g: Handle, h: Handle, rec: Record)
    requires Shelved(w, h, rec) && g != h
    ensures LeavesShelved(w, ApplyForget(w, g), h)
  {
    SlotAfter(w, g, SlotOf(w, g).(entry := None), h);
  }

  lemma OpLeavesShelved(w: World, o: nat, h: Handle, rec: Record)
    requires Shelved(w, h, rec) && o in w.ops
    ensures LeavesShelved(w, ApplyOp(w, o), h)
  {
    if w.ops[o].Forgetting? {
      SlotAfter(w, w.ops[o].h, SlotOf(w, w.ops[o].h).(record := None), h);
    }
  }

  lemma CallsLeaveShelved(w: World, step: Step, h: Handle, rec: Record)
    requires Shelved(w, h, rec) && Enabled(w, step)
    requires (step.StopCall? || step.ForgetCall? || step.OpStep?) && step != ForgetCall(h)
    ensures LeavesShelved(w, Apply(w, step), h)
  {
    match step
    case StopCall(g) => StopLeavesShelved(w, g, h, rec);
    case ForgetCall(g) => ForgetLeavesShelved(w, g, h, rec);
    case OpStep(o) => OpLeavesShelved(w, o, h, rec);
  }

  lemma StepKeepsShelved(w: World, step: Step, h: Handle, rec: Record)
    requires Shelved(w, h, rec) && Enabled(w, step) && step != ForgetCall(h)
    ensures Shelved(Apply(w, step), h, rec)
  {
    var w' := Apply(w, step);
    StepKeepsInv(w, step);
    assert SlotOf(w', h) == SlotOf(w, h) by {
      match step {
        case Reserve(spec) => SlotAfter(w, w.next + 1, SlotOf(w, w.next + 1).(task := Some(NewTask(spec))), h);
        case Own(g, c) =>
          OwnKeepsPids(w, g, c);
          SlotAfter(w, g, OwnSlot(SlotOf(w, g), g, w.now, w.shutdown, c), h);
        case Crash =>
          assert SlotOk(SlotOf(w, h), h, w.now, w.next) && SlotOf(w', h).kids == {};
        case StopCall(_) => CallsLeaveShelved(w, step, h, rec);
        case ForgetCall(_) => CallsLeaveShelved(w, step, h, rec);
        case OpStep(_) => CallsLeaveShelved(w, step, h, rec);
        case ForceDown => assert SlotOk(SlotOf(w, h), h, w.now, w.next);
        case _ =>
      }
    }
    assert !ForgetPending(w', h) by {
      if step.StopCall? || step.ForgetCall? || step.OpStep? {
        CallsLeaveShelved(w, step, h, rec);
      }
    }
    assert SlotOk(SlotOf(w', h), h, w'.now, w'.next);
    assert SlotOf(w', h).record == Some(rec) && SlotOf(w', h).entry == Some(Tombstone(rec));
    assert SlotOf(w', h).task == None;
  }

  lemma {:induction false} ShelvedStays(w: World, steps: seq<Step>, h: Handle, rec: Record)
    requires Shelved(w, h, rec) && ValidRun(w, steps)
    requires forall i :: 0 <= i < |steps| ==> steps[i] != ForgetCall(h)
    ensures Shelved(Run(w, steps), h, rec)
    decreases |steps|
  {
    if steps != [] {
      StepKeepsShelved(w, steps[0], h, rec);
      ShelvedStays(Apply(w, steps[0]), steps[1..], h, rec);
    }
  }

  /**
   * What is on disk when a supervisor dies outlives any number of later lifetimes: until somebody
   * calls `forget` on it, its record stays as it is and its row is the tombstone of that record.
   */
  lemma RecordOutlivesLifetimes(w: World, steps: seq<Step>, h: Handle)
    requires Reachable(w) && h in w.records
    requires ValidRun(Apply(w, Crash), steps)
    requires forall i :: 0 <= i < |steps| ==> steps[i] != ForgetCall(h)
    ensures
      var w' := Run(Apply(w, Crash), steps);
      && h in w'.records && w'.records[h] == w.records[h]
      && h in w'.procs && w'.procs[h] == Tombstone(w.records[h])
      && h !in w'.tasks
  {
    ReachableIsGood(w);
    StepKeepsInv(w, Crash);
    ShelvedStays(Apply(w, Crash), steps, h, w.records[h]);
  }

  /** What the supervisor knew about a handle survives a crash, but for a child that was running. */
  predicate Survives(w: World, w': World, h: Handle)
    requires h in w.procs
  {
    && h in w'.procs
    && w'.procs[h].pid == w.procs[h].pid
    && w'.procs[h].status == Reloaded(w.procs[h].status)
  }

  /** A crash loses a row's pid or status exactly when it falls between the two writes. */
  lemma CrashKeepsRowIff(w: World, h: Handle)
    requires Reachable(w) && h in w.procs
    ensures Survives(w, Apply(w, Crash), h) <==> !Writing(w, h)
  {
    ReachableIsGood(w);
    assert SlotOk(SlotOf(w, h), h, w.now, w.next);
  }
}
