/** Runs from an empty disk in which the conditions of the other modules fail. */
module LifecycleWitnesses {
  import opened Protocol
  import opened Lifecycle
  import opened LifecycleInv
  import opened LifecycleTheorems
  import opened LifecycleRuns
  import opened LifecycleDisk
  import opened LifecycleRestart
  import opened LifecycleSignals
  import opened LifecycleHandles

  function SpecOf(policy: RestartPolicy): Spec {
    Spec("", [], [], Limits(None, None, None), policy, 0, false)
  }

  /** A supervisor that starts on an empty disk. */
  ghost function Empty(): World {
    Boot(map[], 0, 0, 0, 0)
  }

  lemma EmptyIsReachable()
    ensures Reachable(Empty()) && Empty().next == 0
  {
    assert ReachedBy(Empty(), map[], 0, 0, 0, []);
  }

  /** A handle that has been spawned and is being waited for. */
  ghost predicate Awaited(w: World, h: Handle, spec: Spec) {
    && Reachable(w) && !w.shutdown && h in w.procs && h in w.records && h in w.tasks
    && w.tasks[h].pc.Waiting? && w.tasks[h].spec == spec && w.procs[h].armed && w.procs[h].status.Running?
  }

  lemma ReserveStays(w: World, spec: Spec, g: Handle)
    requires g <= w.next
    ensures SlotOf(Apply(w, Reserve(spec)), g) == SlotOf(w, g)
    ensures Apply(w, Reserve(spec)).next == w.next + 1 && Apply(w, Reserve(spec)).ops == w.ops
  {
    SlotAfter(w, w.next + 1, SlotOf(w, w.next + 1).(task := Some(NewTask(spec))), g);
  }

  /** From the reservation on, the handle's task alone gets it awaited. */
  lemma ServeAndWait(w: World, policy: RestartPolicy, joins: bool) returns (steps: seq<Step>, w': World)
    requires Reachable(w) && !w.shutdown
    ensures Leads(Apply(w, Reserve(SpecOf(policy))), w.next + 1, steps, w')
    ensures Awaited(w', w.next + 1, SpecOf(policy)) && w'.keyNext == w.next + 1
    ensures w'.tasks[w.next + 1].joined == joins && w.next + 1 in w'.leaves
  {
    var h, w1 := w.next + 1, Apply(w, Reserve(SpecOf(policy)));
    var a, w2 := SpawnIsServed(w, SpecOf(policy), joins);
    LeadsToReachable(w1, h, a, w2);
    var b;
    b, w' := ReachWaiting(w2, h);
    LeadsToReachable(w2, h, b, w');
    assert SlotOf(w', h).entry == Lookup(w2.procs, h) && SlotOf(w', h).record == Lookup(w2.records, h);
    Append(w1, h, a, w2, b, w');
    steps := a + b;
  }

  /** Spawning and waiting: the counter on disk is the handle's, the other handles are as before. */
  lemma SpawnAndWait(w: World, policy: RestartPolicy, joins: bool) returns (w': World)
    requires Reachable(w) && !w.shutdown
    ensures Awaited(w', w.next + 1, SpecOf(policy)) && w'.tasks[w.next + 1].joined == joins
    ensures w'.next == w.next + 1 && w'.ops == w.ops && w'.keyNext == w.next + 1
    ensures forall g: Handle :: g <= w.next ==> SlotOf(w', g) == SlotOf(w, g)
  {
    var steps;
    steps, w' := ServeAndWait(w, policy, joins);
    OthersStay(Apply(w, Reserve(SpecOf(policy))), w.next + 1, steps, w');
    ReserveStays(w, SpecOf(policy), w.next);
    forall g: Handle | g <= w.next
      ensures SlotOf(w', g) == SlotOf(w, g)
    {
      ReserveStays(w, SpecOf(policy), g);
    }
  }

  // ---------------------------------------------------------------- stop, forget, crash

  /** A tracked handle past the re-check, not running: `stop` and `forget` come too late for its launch. */
  lemma LaunchCanBeCommitted() returns (w: World, h: Handle)
    ensures Reachable(w) && h in w.procs && h in w.tasks && Budget(w.tasks[h].pc, w.shutdown) == 1
    ensures !NeverLaunchedAgain(ApplyStop(w, h), h)
    ensures Forgettable(w, h) && !NeverComesBack(ApplyForget(w, h), h)
  {
    EmptyIsReachable();
    h := 1;
    var w0 := SpawnAndWait(Empty(), Always, true);
    WaitingFacts(w0, h);
    var a, w1 := ExitToVerdict(w0, h, None);
    LeadsToReachable(w0, h, a, w1);
    var b;
    b, w := ReachRechecked(w1, h);
    LeadsToReachable(w1, h, b, w);
    assert SlotOf(w, h).task == Some(w.tasks[h]) && SlotOf(w, h).entry == Some(w1.procs[h]);
    StopIsFinalIff(w, h);
    ForgetIsFinalIff(w, h);
  }

  /** A row whose change has not reached the disk: a crash now loses it. */
  lemma CrashCanLoseAChange() returns (w: World, h: Handle)
    ensures Reachable(w) && h in w.procs && !Survives(w, Apply(w, Crash), h)
  {
    EmptyIsReachable();
    h := 1;
    var w0 := SpawnAndWait(Empty(), Never, true);
    var a;
    a, w := ReachRecorded(w0, h, Some(0));
    LeadsToReachable(w0, h, a, w);
    var s := SlotOf(w, h).(kids := {});
    assert s.task == Lookup(w.tasks, h) && s.entry == Lookup(w.procs, h);
    CrashKeepsRowIff(w, h);
  }

  // ---------------------------------------------------------------- signals

  /** A `stop` of a running handle, at the end of its grace period and about to SIGKILL. */
  lemma EscalationCanBePending(w: World, h: Handle) returns (w': World, o: nat)
    requires Awaited(w, h, SpecOf(Never))
    ensures Reachable(w') && !w'.shutdown && Pending(w', o) && w'.ops[o].Escalating? && w'.ops[o].h == h
    ensures SlotOf(w', h) == SlotOf(w, h).(entry := Some(w.procs[h].(armed := false)))
  {
    o := w.nextOp;
    var w1 := Apply(w, StopCall(h));
    ReachableStep(w, StopCall(h));
    StopSlot(w, h);
    var w2 := Apply(w1, OpStep(o));
    ReachableStep(w1, OpStep(o));
    var w3 := Apply(w2, Elapse(w2.grace));
    ReachableStep(w2, Elapse(w2.grace));
    SlotsFrame(w1, w3);
    assert IsRunning(SlotOf(w3, h).entry);
    w' := Apply(w3, OpStep(o));
    ReachableStep(w3, OpStep(o));
    SlotsFrame(w3, w');
  }

  /** The child exits while the SIGKILL is pending. */
  lemma ExitBeforeKill() returns (w: World, o: nat)
    ensures Reachable(w) && Pending(w, o) && w.ops[o].Escalating?
    ensures w.ops[o].h in w.tasks && !HoldsChild(w.tasks[w.ops[o].h].pc)
  {
    EmptyIsReachable();
    var w0 := SpawnAndWait(Empty(), Never, true);
    var w1;
    w1, o := EscalationCanBePending(w0, 1);
    assert SlotOf(w1, 1).task == Some(w0.tasks[1]);
    var steps;
    steps, w := ReachRecorded(w1, 1, None);
    LeadsToReachable(w1, 1, steps, w);
    OthersStay(w1, 1, steps, w);
    assert SlotOf(w, 1).(kids := {}).task == Lookup(w.tasks, 1);
  }

  /** A SIGKILL to a process group can hit another handle's child. */
  lemma KillCanGoAstray() returns (w: World, o: nat)
    ensures Reachable(w) && Pending(w, o) && w.ops[o].Escalating?
    ensures exists c :: c in Struck(w, Sends(w.ops[o], false)) && c.handle != w.ops[o].h
  {
    var w0;
    w0, o := ExitBeforeKill();
    SignalCanStrayIff(w0, o);
    var steps :| Strays(w0, o, steps);
    w := Run(w0, steps);
    ReachableAfter(w0, steps);
  }

  /** The child exits before the SIGTERM is sent. */
  lemma ExitBeforeTerm() returns (w: World, o: nat)
    ensures Reachable(w) && Pending(w, o) && w.ops[o].Signalling?
    ensures w.ops[o].h in w.tasks && !HoldsChild(w.tasks[w.ops[o].h].pc)
  {
    EmptyIsReachable();
    var w0 := SpawnAndWait(Empty(), Never, true);
    o := w0.nextOp;
    var w1 := Apply(w0, StopCall(1));
    ReachableStep(w0, StopCall(1));
    StopSlot(w0, 1);
    assert SlotOf(w1, 1).task == Some(w0.tasks[1]) && SlotOf(w1, 1).task == Lookup(w1.tasks, 1);
    var steps;
    steps, w := ReachRecorded(w1, 1, None);
    LeadsToReachable(w1, 1, steps, w);
    OthersStay(w1, 1, steps, w);
    assert SlotOf(w, 1).(kids := {}).task == Lookup(w.tasks, 1);
  }

  /** A SIGTERM can hit another handle's child. */
  lemma TermCanGoAstray() returns (w: World, o: nat)
    ensures Reachable(w) && Pending(w, o) && w.ops[o].Signalling?
    ensures exists c :: c in Struck(w, Sends(w.ops[o], true)) && c.handle != w.ops[o].h
  {
    var w0;
    w0, o := ExitBeforeTerm();
    SignalCanStrayIff(w0, o);
    var steps :| Strays(w0, o, steps);
    w := Run(w0, steps);
    ReachableAfter(w0, steps);
  }

  // ---------------------------------------------------------------- shutdown

  /** A shutdown can miss a child: its spawn is between the child and the row. */
  lemma ShutdownCanMiss() returns (w: World, c: Child)
    ensures Reachable(w) && w.shutdown && c in w.children && c.handle !in w.procs
  {
    EmptyIsReachable();
    var w1 := Apply(Empty(), Reserve(SpecOf(Never)));
    ReachableStep(Empty(), Reserve(SpecOf(Never)));
    var a, w2 := ReachFirstChild(w1, 1, true);
    LeadsToReachable(w1, 1, a, w2);
    w := Apply(w2, SetShutdown);
    ReachableStep(w2, SetShutdown);
    ReachableIsGood(w);
    OwnChildren(w, 1);
    var t := w.tasks[1];
    c := Child(1, t.launches, t.pid, t.joined);
    ChildIsListedIff(w, c);
    assert SlotOk(SlotOf(w, 1), 1, w.now, w.next);
  }

  /** A relaunch after a `forget`. */
  lemma RelaunchWithoutRow() returns (w: World, h: Handle)
    ensures Reachable(w) && h in w.tasks && w.tasks[h].pc.Relaunched? && h !in w.procs
  {
    var w0;
    w0, h := LaunchCanBeCommitted();
    assert !PreInsert(w0.tasks[h].pc) by {
      ReachableIsGood(w0);
      assert SlotOk(SlotOf(w0, h), h, w0.now, w0.next);
    }
    var w1 := Apply(w0, ForgetCall(h));
    ReachableStep(w0, ForgetCall(h));
    ForgetSlot(w0, h);
    assert SlotOf(w1, h).task == Lookup(w1.tasks, h) && SlotOf(w1, h).entry == None;
    ReachableIsGood(w1);
    var steps := CommittedCanLaunch(w1, h);
    w := Run(w1, steps);
    ReachableAfter(w1, steps);
    assert SlotOf(w, h).entry == Lookup(w.procs, h);
  }

  /** A child can run that no row will ever show again: its handle was forgotten before the relaunch. */
  lemma OrphanCanRun() returns (w: World, c: Child)
    ensures Reachable(w) && c in w.children && c.handle in w.tasks && w.tasks[c.handle].orphaned
    ensures c.handle !in w.procs
  {
    var w0, h := RelaunchWithoutRow();
    w := Apply(w0, Own(h, ANY));
    ReachableStep(w0, Own(h, ANY));
    assert h in w.tasks && w.tasks[h].pc.Published? && w.tasks[h].orphaned && h !in w.procs by {
      ReachableIsGood(w0);
      OwnStepSlot(w0, h, ANY);
      assert SlotOf(w, h).task == Lookup(w.tasks, h) && SlotOf(w, h).entry == Lookup(w.procs, h);
    }
    assert Inv(w) by {
      ReachableIsGood(w);
    }
    OwnChildren(w, h);
    c := Child(h, w.tasks[h].launches, w.tasks[h].pid, w.tasks[h].joined);
  }

  // ---------------------------------------------------------------- cgroups

  /** With cgroups, a SIGKILL can miss the child that ignored the SIGTERM: its launch had no leaf to join. */
  lemma KillCanMiss() returns (w: World, o: nat)
    ensures Reachable(w) && Pending(w, o) && w.ops[o].Escalating? && SaysRunning(w, w.ops[o].h)
    ensures w.ops[o].h in w.tasks && HoldsChild(w.tasks[w.ops[o].h].pc)
    ensures Struck(w, Sends(w.ops[o], true)) == {}
  {
    EmptyIsReachable();
    var w0 := SpawnAndWait(Empty(), Never, false);
    w, o := EscalationCanBePending(w0, 1);
    assert SlotOf(w, 1).task == Lookup(w.tasks, 1) && SlotOf(w, 1).entry == Lookup(w.procs, 1);
    DeliveryStrikes(w, o, true);
  }

  /** And it does what it is for: it strikes the child of the launch `stop` saw, and nobody else. */
  lemma KillCanHit() returns (w: World, o: nat)
    ensures Reachable(w) && Pending(w, o) && w.ops[o].Escalating? && SaysRunning(w, w.ops[o].h)
    ensures w.ops[o].h in w.tasks
    ensures Struck(w, Sends(w.ops[o], true)) == {Child(w.ops[o].h, w.ops[o].launch, w.ops[o].pid, true)}
  {
    EmptyIsReachable();
    var w0 := SpawnAndWait(Empty(), Never, true);
    w, o := EscalationCanBePending(w0, 1);
    assert SlotOf(w, 1).task == Lookup(w.tasks, 1) && SlotOf(w, 1).entry == Lookup(w.procs, 1);
    DeliveryStrikes(w, o, true);
  }

  // ---------------------------------------------------------------- handles

  lemma ForgetStays(w: World, h: Handle, g: Handle)
    requires Forgettable(w, h) && g != h
    ensures
      var w1 := ApplyForget(w, h);
      w.nextOp in w1.ops && SlotOf(ApplyOp(w1, w.nextOp), g) == SlotOf(w, g)
  {
    SlotAfter(w, h, SlotOf(w, h).(entry := None), g);
    SlotAfter(ApplyForget(w, h), h, SlotOf(ApplyForget(w, h), h).(record := None), g);
  }

  /** Forgetting a handle that is not running, to the end. */
  lemma ForgetToTheEnd(w: World, h: Handle) returns (steps: seq<Step>, w': World)
    requires Reachable(w) && Forgettable(w, h)
    ensures Reachable(w') && w'.shutdown == w.shutdown && ValidRun(w, steps) && CrashFree(steps) && Run(w, steps) == w'
    ensures w'.next == w.next
    ensures SlotOf(w', h) == SlotOf(w, h).(entry := None, record := None)
    ensures forall g :: g != h ==> SlotOf(w', g) == SlotOf(w, g)
  {
    var w1 := Apply(w, ForgetCall(h));
    assert w.nextOp in w1.ops && w1.ops[w.nextOp] == Forgetting(h);
    w' := Apply(w1, OpStep(w.nextOp));
    ReachableStep(w, ForgetCall(h));
    ReachableStep(w1, OpStep(w.nextOp));
    OneStep(w, ForgetCall(h));
    OneStep(w1, OpStep(w.nextOp));
    RunsCompose(w, [ForgetCall(h)], [OpStep(w.nextOp)]);
    steps := [ForgetCall(h)] + [OpStep(w.nextOp)];
    assert SlotOf(w', h) == SlotOf(w, h).(entry := None, record := None) by {
      ReachableIsGood(w);
      FinishForget(w, h);
    }
    forall g | g != h
      ensures SlotOf(w', g) == SlotOf(w, g)
    {
      ForgetStays(w, h, g);
    }
  }

  lemma ExitForGood(w: World, h: Handle) returns (steps: seq<Step>, w': World)
    requires Awaited(w, h, SpecOf(Never))
    ensures Leads(w, h, steps, w') && Reachable(w') && !w'.shutdown && Forgettable(w', h)
  {
    steps, w' := RestartIffDue(w, h, None, true);
    LeadsToReachable(w, h, steps, w');
  }

  /** Its exit recorded for good, a handle is forgotten in table and store. */
  lemma ExitAndForget(w: World, h: Handle) returns (steps: seq<Step>, w': World)
    requires Awaited(w, h, SpecOf(Never))
    ensures Reachable(w') && !w'.shutdown && ValidRun(w, steps) && CrashFree(steps) && Run(w, steps) == w'
    ensures w'.next == w.next && SlotOf(w', h).entry == None && SlotOf(w', h).record == None
    ensures forall g :: g != h ==> SlotOf(w', g) == SlotOf(w, g)
  {
    var a, w1 := ExitForGood(w, h);
    OthersStay(w, h, a, w1);
    var b;
    b, w' := ForgetToTheEnd(w1, h);
    RunsCompose(w, a, b);
    steps := a + b;
  }

  /** What is known of a slot is known of the tables. */
  lemma SameSlotSameRow(w: World, w': World, h: Handle, spec: Spec)
    requires Awaited(w, h, spec) && Reachable(w') && !w'.shutdown && SlotOf(w', h) == SlotOf(w, h)
    ensures Awaited(w', h, spec)
  {
    assert SlotOf(w, h).entry == Lookup(w.procs, h) && SlotOf(w, h).record == Lookup(w.records, h);
    assert SlotOf(w, h).task == Lookup(w.tasks, h);
    assert SlotOf(w', h).entry == Lookup(w'.procs, h) && SlotOf(w', h).record == Lookup(w'.records, h);
    assert SlotOf(w', h).task == Lookup(w'.tasks, h);
  }

  /** With 2 forgotten, a relaunch of 1 leaves 2 to be given out again. */
  lemma RelaunchFreesTwo(w: World) returns (steps: seq<Step>, w': World)
    requires Awaited(w, 1, SpecOf(Always)) && w.next == 2
    requires SlotOf(w, 2).entry == None && SlotOf(w, 2).record == None
    ensures ValidRun(w, steps) && CrashFree(steps) && Run(w, steps) == w'
    ensures 2 !in w'.procs && 2 !in w'.records && GivenOutNext(w', 2)
  {
    steps, w' := RestartIffDue(w, 1, None, true);
    LeadsToReachable(w, 1, steps, w');
    OthersStay(w, 1, steps, w');
    assert SlotOf(w', 2) == SlotOf(w, 2);
    forall g: Handle | g in w'.records
      ensures g < 2
    {
      ReachableIsGood(w');
      assert SlotOk(SlotOf(w', g), g, w'.now, w'.next);
    }
    GivenOutNextIff(w', 2);
  }

  /**
   * A forgotten handle can name a new process: 1 and 2 are spawned, 2 exits and is forgotten, 1 is
   * relaunched, which lowers the stored counter, the supervisor crashes, and 2 is given out again.
   */
  lemma ForgottenHandleComesBack() returns (w: World, steps: seq<Step>, w': World)
    ensures Reachable(w) && 2 in w.procs && 2 in w.records
    ensures ValidRun(w, steps) && CrashFree(steps) && Run(w, steps) == w'
    ensures 2 !in w'.procs && 2 !in w'.records && GivenOutNext(w', 2)
  {
    EmptyIsReachable();
    var w0 := SpawnAndWait(Empty(), Always, true);
    w := SpawnAndWait(w0, Never, true);
    var a, w1 := ExitAndForget(w, 2);
    SameSlotSameRow(w0, w1, 1, SpecOf(Always));
    var b;
    b, w' := RelaunchFreesTwo(w1);
    RunsCompose(w, a, b);
    steps := a + b;
  }
}
