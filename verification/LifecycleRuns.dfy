/** Guarantees of `stop` over whole runs: what it ends, what it signals, what it comes too late for. */
module LifecycleRuns {
  import opened Protocol
  import opened Backoff
  import opened Lifecycle
  import opened LifecycleInv
  import opened LifecycleTheorems

  lemma {:induction false} RunsCompose(w: World, a: seq<Step>, b: seq<Step>)
    requires ValidRun(w, a) && ValidRun(Run(w, a), b)
    ensures ValidRun(w, a + b) && Run(w, a + b) == Run(Run(w, a), b)
    decreases |a|
  {
    if a == [] {
      assert a + b == b;
    } else {
      RunsCompose(Apply(w, a[0]), a[1..], b);
      assert (a + b)[0] == a[0] && (a + b)[1..] == a[1..] + b;
    }
  }

  lemma OneStep(w: World, step: Step)
    requires Enabled(w, step)
    ensures ValidRun(w, [step]) && Run(w, [step]) == Apply(w, step)
  {
    assert [step][1..] == [];
    assert ValidRun(Apply(w, step), []);
  }

  lemma ReachableAfter(w: World, steps: seq<Step>)
    requires Reachable(w) && ValidRun(w, steps)
    ensures Reachable(Run(w, steps))
  {
    var records, keyNext, now, grace, past :| ReachedBy(w, records, keyNext, now, grace, past);
    RunsCompose(Boot(records, keyNext, now, 0, grace), past, steps);
    assert ReachedBy(Run(w, steps), records, keyNext, now, grace, past + steps);
  }

  lemma ReachableStep(w: World, step: Step)
    requires Reachable(w) && Enabled(w, step)
    ensures Reachable(Apply(w, step))
  {
    OneStep(w, step);
    ReachableAfter(w, [step]);
  }

  // ---------------------------------------------------------------- stop

  /** After `stop` on a tracked handle the slot is the old one, disarmed. */
  lemma StopSlot(w: World, h: Handle)
    requires h in w.procs
    ensures SlotOf(ApplyStop(w, h), h) == SlotOf(w, h).(entry := Disarm(Some(w.procs[h])))
    ensures ApplyStop(w, h).shutdown == w.shutdown
  {
    SlotAfter(w, h, SlotOf(w, h).(entry := Disarm(Some(w.procs[h]))), h);
  }

  /** Disarmed, with no launch in flight and pid `pid` and launch `launch` current. */
  ghost predicate Halted(w: World, h: Handle, pid: Pid, launch: nat) {
    && Inv(w)
    && Disarmed(SlotOf(w, h), w.shutdown)
    && !InFlight(w.tasks[h].pc, w.shutdown)
    && w.tasks[h].pid == pid && w.tasks[h].launches == launch
  }

  predicate SaysRunning(w: World, h: Handle) {
    h in w.procs && w.procs[h].status.Running?
  }

  lemma HaltedStaysHalted(w: World, h: Handle, pid: Pid, launch: nat, steps: seq<Step>)
    requires Halted(w, h, pid, launch) && ValidRun(w, steps) && CrashFree(steps)
    ensures Halted(Run(w, steps), h, pid, launch)
    ensures SaysRunning(Run(w, steps), h) ==> SaysRunning(w, h)
  {
    RunKeepsInv(w, steps);
    RunSpends(w, steps, h);
  }

  lemma StopHaltsRunning(w: World, h: Handle)
    requires Inv(w) && SaysRunning(w, h)
    ensures h in w.tasks
    ensures Halted(ApplyStop(w, h), h, w.procs[h].pid, w.tasks[h].launches)
  {
    assert SlotOk(SlotOf(w, h), h, w.now, w.next);
    StopKeepsInv(w, h);
    StopSlot(w, h);
    assert SlotOf(ApplyStop(w, h), h).task == Some(w.tasks[h]);
  }

  lemma RunningMeansPid(w: World, h: Handle, pid: Pid, launch: nat)
    requires Halted(w, h, pid, launch) && SaysRunning(w, h)
    ensures w.procs[h].pid == pid
  {
    assert SlotOk(SlotOf(w, h), h, w.now, w.next);
  }

  /**
   * Escalation hits the right launch. If `stop` saw the handle Running and the table still says
   * Running after any continuation, it is the same launch with the same pid; and at every
   * moment in between it was Running too, so no exit was recorded.
   */
  lemma EscalationHitsTheLaunch(w: World, h: Handle, before: seq<Step>, after: seq<Step>)
    requires Reachable(w) && SaysRunning(w, h)
    requires ValidRun(ApplyStop(w, h), before) && CrashFree(before)
    requires ValidRun(Run(ApplyStop(w, h), before), after) && CrashFree(after)
    requires SaysRunning(Run(Run(ApplyStop(w, h), before), after), h)
    ensures
      var mid := Run(ApplyStop(w, h), before);
      var end := Run(mid, after);
      && h in w.tasks && h in end.tasks
      && end.tasks[h].launches == w.tasks[h].launches
      && end.procs[h].pid == w.procs[h].pid
      && SaysRunning(mid, h)
  {
    var mid := Run(ApplyStop(w, h), before);
    ReachableIsGood(w);
    StopHaltsRunning(w, h);
    var pid, launch := w.procs[h].pid, w.tasks[h].launches;
    HaltedStaysHalted(ApplyStop(w, h), h, pid, launch, before);
    HaltedStaysHalted(mid, h, pid, launch, after);
    RunningMeansPid(Run(mid, after), h, pid, launch);
  }

  /**
   * A pending SIGKILL through the leaf reaches only the child of the launch `stop` saw; while the
   * table says Running, the pid it captured is that child's unless the child was just reaped.
   */
  lemma SigkillTarget(w: World, o: nat)
    requires Reachable(w) && o in w.ops && !w.ops[o].Forgetting?
    ensures forall c :: c in w.children && c.handle == w.ops[o].h ==>
      c.launch == w.ops[o].launch && c.pid == w.ops[o].pid
    ensures
      var op := w.ops[o];
      SaysRunning(w, op.h) ==>
        && op.h in w.tasks
        && w.procs[op.h].pid == op.pid
        && (!w.tasks[op.h].pc.Reaped? ==>
              exists c :: c in w.children && c.handle == op.h
                          && forall d :: d in w.children && d.pid == op.pid ==> d == c)
  {
    var op := w.ops[o];
    var s := SlotOf(w, op.h);
    assert SlotOk(s, op.h, w.now, w.next) && OpOk(s, op) && PidsUnique(w.children) by {
      ReachableIsGood(w);
    }
    forall c | c in w.children && c.handle == op.h
      ensures c.launch == op.launch && c.pid == op.pid
    {
      assert c in s.kids;
    }
    if SaysRunning(w, op.h) && !w.tasks[op.h].pc.Reaped? {
      var t := w.tasks[op.h];
      assert Child(op.h, t.launches, t.pid, t.joined) in s.kids;
    }
  }

  /** Whether no continuation within the lifetime launches the handle again. */
  ghost predicate NeverLaunchedAgain(w: World, h: Handle) {
    forall steps :: ValidRun(w, steps) && CrashFree(steps) ==>
      LaunchesOf(Run(w, steps), h) == LaunchesOf(w, h)
  }

  function LaunchesOf(w: World, h: Handle): nat {
    if h in w.tasks then w.tasks[h].launches else 0
  }

  lemma FreshPid(children: set<Child>) returns (pid: Pid)
    ensures forall c :: c in children ==> c.pid != pid
  {
    var pids := set c | c in children :: c.pid;
    pid := MaxHandle(pids) + 1;
    forall c | c in children
      ensures c.pid != pid
    {
      assert c.pid in pids;
    }
  }

  lemma CommittedSlot(s: Slot, h: Handle, now: Time, shutdown: bool, c: Choice)
    requires s.task.Some? && !PreInsert(s.task.value.pc) && Budget(s.task.value.pc, shutdown) == 1
    requires c.ok == s.task.value.pc.RelaunchLeaf?
    ensures
      var s' := OwnSlot(s, h, now, shutdown, c);
      var t := s.task.value;
      && s'.entry == s.entry && s'.task.Some?
      && var t' := s'.task.value;
         if t.pc.RelaunchLeaf? then t'.pc.Relaunched? && t'.launches == t.launches + 1
         else
           && t'.launches == t.launches && !PreInsert(t'.pc)
           && Budget(t'.pc, shutdown) == 1 && Rank(t'.pc, shutdown) < Rank(t.pc, shutdown)
  {
  }

  /** The next step of a committed task: on towards the launch, or the launch itself. */
  lemma CommittedStep(w: World, h: Handle) returns (step: Step)
    requires Inv(w) && h in w.tasks && !PreInsert(w.tasks[h].pc) && Budget(w.tasks[h].pc, w.shutdown) == 1
    ensures step.Own? && Enabled(w, step)
    ensures
      var w' := Apply(w, step);
      var t := w.tasks[h];
      && Inv(w') && w'.shutdown == w.shutdown && w'.ops == w.ops
      && SlotOf(w', h).entry == SlotOf(w, h).entry && SlotOf(w', h).task == Lookup(w'.tasks, h) && h in w'.tasks
      && if t.pc.RelaunchLeaf? then w'.tasks[h].pc.Relaunched? && w'.tasks[h].launches == t.launches + 1
         else
           && w'.tasks[h].launches == t.launches && !PreInsert(w'.tasks[h].pc)
           && Budget(w'.tasks[h].pc, w.shutdown) == 1 && Rank(w'.tasks[h].pc, w.shutdown) < Rank(t.pc, w.shutdown)
  {
    var pid := FreshPid(w.children);
    var c := Choice(w.tasks[h].pc.RelaunchLeaf?, false, pid, None);
    step := Own(h, c);
    CommittedSlot(SlotOf(w, h), h, w.now, w.shutdown, c);
    assert SlotOf(Apply(w, step), h) == OwnSlot(SlotOf(w, h), h, w.now, w.shutdown, c) by {
      OwnStepSlot(w, h, c);
    }
    assert Inv(Apply(w, step)) by {
      OwnKeepsInv(w, h, c);
    }
  }

  /** A task committed to a launch can carry it out, whatever became of its row. */
  lemma CommittedCanLaunch(w: World, h: Handle) returns (steps: seq<Step>)
    requires Inv(w) && h in w.tasks && !PreInsert(w.tasks[h].pc)
    requires Budget(w.tasks[h].pc, w.shutdown) == 1
    ensures ValidRun(w, steps) && CrashFree(steps)
    ensures
      var w' := Run(w, steps);
      && h in w'.tasks && w'.tasks[h].pc.Relaunched?
      && w'.tasks[h].launches == w.tasks[h].launches + 1
      && SlotOf(w', h).entry == SlotOf(w, h).entry
      && w'.ops == w.ops
    decreases Rank(w.tasks[h].pc, w.shutdown)
  {
    var step := CommittedStep(w, h);
    OneStep(w, step);
    steps := [step];
    if !w.tasks[h].pc.RelaunchLeaf? {
      var rest := CommittedCanLaunch(Apply(w, step), h);
      RunsCompose(w, [step], rest);
      steps := [step] + rest;
    }
  }

  /**
   * `stop` is final exactly when no launch is committed: past the re-check after the backoff a
   * launch can still happen, before it never.
   */
  lemma StopIsFinalIff(w: World, h: Handle)
    requires Reachable(w) && h in w.procs && h in w.tasks
    ensures NeverLaunchedAgain(ApplyStop(w, h), h) <==> Budget(w.tasks[h].pc, w.shutdown) == 0
  {
    var w1 := ApplyStop(w, h);
    assert Inv(w1) && !PreInsert(w.tasks[h].pc) by {
      ReachableIsGood(w);
      assert SlotOk(SlotOf(w, h), h, w.now, w.next);
      StopKeepsInv(w, h);
    }
    StopSlot(w, h);
    assert w1.tasks[h] == w.tasks[h] by {
      assert SlotOf(w1, h).task == SlotOf(w, h).task;
    }
    if Budget(w.tasks[h].pc, w.shutdown) == 0 {
      forall steps | ValidRun(w1, steps) && CrashFree(steps)
        ensures LaunchesOf(Run(w1, steps), h) == LaunchesOf(w1, h)
      {
        RunSpends(w1, steps, h);
      }
    } else {
      var steps := CommittedCanLaunch(w1, h);
      assert LaunchesOf(Run(w1, steps), h) == LaunchesOf(w1, h) + 1;
    }
  }
}
