/** What an exit leads to when nobody interferes, and that the rate bound is attained. */
module LifecycleRestart {
  import opened Protocol
  import opened Backoff
  import opened Lifecycle
  import opened LifecycleInv
  import opened LifecycleTheorems
  import opened LifecycleRuns

  const ANY := Choice(true, true, 0, None)

  /** Time passes and the task of `h` moves; nothing else does. */
  predicate Solo(steps: seq<Step>, h: Handle) {
    forall i :: 0 <= i < |steps| ==> steps[i].Elapse? || (steps[i].Own? && steps[i].h == h)
  }

  /** `w'` is where `steps`, taken by `h` alone, lead from `w`. */
  ghost predicate Leads(w: World, h: Handle, steps: seq<Step>, w': World) {
    Reachable(w) && ValidRun(w, steps) && Solo(steps, h) && Run(w, steps) == w'
  }

  lemma LeadsToReachable(w: World, h: Handle, steps: seq<Step>, w': World)
    requires Leads(w, h, steps, w')
    ensures Reachable(w')
  {
    ReachableAfter(w, steps);
  }

  lemma Nowhere(w: World, h: Handle)
    requires Reachable(w)
    ensures Leads(w, h, [], w)
  {
  }

  lemma Append(w: World, h: Handle, steps: seq<Step>, w1: World, more: seq<Step>, w2: World)
    requires Leads(w, h, steps, w1) && Leads(w1, h, more, w2)
    ensures Leads(w, h, steps + more, w2)
  {
    RunsCompose(w, steps, more);
  }

  /** What one handle does alone leaves the other handles, the counter and the pending calls as they were. */
  lemma {:induction false} SoloStays(w: World, steps: seq<Step>, h: Handle)
    requires Inv(w) && ValidRun(w, steps) && Solo(steps, h)
    ensures Run(w, steps).next == w.next && Run(w, steps).ops == w.ops
    ensures forall g :: g != h ==> SlotOf(Run(w, steps), g) == SlotOf(w, g)
    decreases |steps|
  {
    if steps != [] {
      var w1 := Apply(w, steps[0]);
      forall g | g != h
        ensures SlotOf(w1, g) == SlotOf(w, g)
      {
        if steps[0].Own? {
          OwnKeepsPids(w, h, steps[0].c);
          SlotAfter(w, h, OwnSlot(SlotOf(w, h), h, w.now, w.shutdown, steps[0].c), g);
        }
      }
      StepKeepsInv(w, steps[0]);
      assert steps[0].Own? ==> steps[0].h == h;
      SoloStays(w1, steps[1..], h);
    }
  }

  lemma OthersStay(w: World, h: Handle, steps: seq<Step>, w': World)
    requires Leads(w, h, steps, w')
    ensures w'.next == w.next && w'.ops == w.ops
    ensures forall g :: g != h ==> SlotOf(w', g) == SlotOf(w, g)
  {
    ReachableIsGood(w);
    SoloStays(w, steps, h);
  }

  lemma OwnStepOf(w: World, h: Handle, c: Choice)
    requires Reachable(w) && Enabled(w, Own(h, c))
    ensures
      var w' := Apply(w, Own(h, c));
      && Leads(w, h, [Own(h, c)], w')
      && SlotOf(w', h) == OwnSlot(SlotOf(w, h), h, w.now, w.shutdown, c)
      && w'.now == w.now && w'.shutdown == w.shutdown
      && w'.keyNext == if w.tasks[h].pc.SpawnInserted? || w.tasks[h].pc.Published? then h else w.keyNext
  {
    assert SlotOf(Apply(w, Own(h, c)), h) == OwnSlot(SlotOf(w, h), h, w.now, w.shutdown, c) by {
      ReachableIsGood(w);
      OwnStepSlot(w, h, c);
    }
    OneStep(w, Own(h, c));
  }

  lemma OwnSlotHasTask(s: Slot, h: Handle, now: Time, shutdown: bool, c: Choice)
    requires s.task.Some? && !s.task.value.pc.Done?
    ensures OwnSlot(s, h, now, shutdown, c).task.Some?
  {
  }

  /** One more step of the handle's own task. */
  lemma AppendOwn(w: World, steps: seq<Step>, w1: World, h: Handle, c: Choice) returns (w2: World)
    requires Leads(w, h, steps, w1) && Enabled(w1, Own(h, c))
    ensures Leads(w, h, steps + [Own(h, c)], w2)
    ensures SlotOf(w2, h) == OwnSlot(SlotOf(w1, h), h, w1.now, w1.shutdown, c)
    ensures w2.now == w1.now && w2.shutdown == w1.shutdown && h in w2.tasks
    ensures w2.keyNext == if w1.tasks[h].pc.SpawnInserted? || w1.tasks[h].pc.Published? then h else w1.keyNext
  {
    w2 := Apply(w1, Own(h, c));
    LeadsToReachable(w, h, steps, w1);
    OwnStepOf(w1, h, c);
    OwnSlotHasTask(SlotOf(w1, h), h, w1.now, w1.shutdown, c);
    Append(w, h, steps, w1, [Own(h, c)], w2);
  }

  /** One more step of the handle's own task while it handles an exit. */
  lemma StepExit(w: World, steps: seq<Step>, w1: World, h: Handle, c: Choice) returns (w2: World)
    requires Leads(w, h, steps, w1) && h in w1.tasks && InExit(w1.tasks[h].pc)
    ensures Leads(w, h, steps + [Own(h, c)], w2) && w2.now == w1.now && w2.shutdown == w1.shutdown && h in w2.tasks
    ensures SlotOf(w2, h) == ExitStep(SlotOf(w1, h), Counted(w1.tasks[h]), w1.now, c)
    ensures SlotOf(w2, h).task == Some(w2.tasks[h])
  {
    w2 := AppendOwn(w, steps, w1, h, c);
  }

  /** One more step of the handle's own task while it publishes a relaunch. */
  lemma StepPublish(w: World, steps: seq<Step>, w1: World, h: Handle) returns (w2: World)
    requires Leads(w, h, steps, w1) && h in w1.tasks && (w1.tasks[h].pc.Relaunched? || w1.tasks[h].pc.Published?)
    ensures Leads(w, h, steps + [Own(h, ANY)], w2) && w2.now == w1.now && w2.shutdown == w1.shutdown && h in w2.tasks
    ensures SlotOf(w2, h) == RelaunchStep(SlotOf(w1, h), h, Counted(w1.tasks[h]), w1.now, ANY)
    ensures SlotOf(w2, h).task == Some(w2.tasks[h]) && (w1.tasks[h].pc.Published? ==> w2.keyNext == h)
  {
    w2 := AppendOwn(w, steps, w1, h, ANY);
  }

  /** From the top of the loop to the wait. */
  lemma ReachWaiting(w: World, h: Handle) returns (steps: seq<Step>, w': World)
    requires Reachable(w) && h in w.tasks && w.tasks[h].pc.Starting?
    ensures Leads(w, h, steps, w') && w'.now == w.now && w'.shutdown == w.shutdown && w'.keyNext == w.keyNext
    ensures
      var s, t := SlotOf(w, h), w.tasks[h];
      SlotOf(w', h) == s.(task := Some(t.(pc := Waiting(w.now), steps := t.steps + 1)))
    ensures h in w'.tasks && SlotOf(w', h).task == Some(w'.tasks[h])
  {
    Nowhere(w, h);
    w' := AppendOwn(w, [], w, h, ANY);
    steps := [] + [Own(h, ANY)];
  }

  /** The exit goes into the row. */
  lemma ReachRecorded(w: World, h: Handle, code: Option<int>) returns (steps: seq<Step>, w': World)
    requires Reachable(w) && h in w.tasks && w.tasks[h].pc.Waiting?
    ensures Leads(w, h, steps, w') && w'.now == w.now && w'.shutdown == w.shutdown
    ensures
      var s, t := SlotOf(w, h), w.tasks[h];
      SlotOf(w', h).(kids := {}) == s.(kids := {}, entry := WithStatus(s.entry, Exited(code)),
                                       task := Some(t.(pc := Recorded(t.pc.started, code), steps := t.steps + 2)))
  {
    Nowhere(w, h);
    var c := Choice(true, true, 0, code);
    var w1 := StepExit(w, [], w, h, c);
    w' := StepExit(w, [] + [Own(h, c)], w1, h, ANY);
    steps := [] + [Own(h, c)] + [Own(h, ANY)];
  }

  /** The exit goes to disk and the leaf goes. */
  lemma ReachLeafGone(w: World, h: Handle) returns (steps: seq<Step>, w': World)
    requires Reachable(w) && h in w.tasks && w.tasks[h].pc.Recorded?
    ensures Leads(w, h, steps, w') && w'.now == w.now && w'.shutdown == w.shutdown
    ensures
      var s, t := SlotOf(w, h), w.tasks[h];
      SlotOf(w', h) == s.(record := SetStatus(s.record, Exited(t.pc.code)), leaf := false,
                          task := Some(t.(pc := LeafGone(t.pc.started, t.pc.code), steps := t.steps + 2)))
  {
    Nowhere(w, h);
    var w1 := StepExit(w, [], w, h, ANY);
    w' := StepExit(w, [] + [Own(h, ANY)], w1, h, ANY);
    steps := [] + [Own(h, ANY)] + [Own(h, ANY)];
  }

  /** From the wait to the decision, with the exit in the row and `armed` read. */
  lemma ReachChecked(w: World, h: Handle, code: Option<int>) returns (steps: seq<Step>, w': World)
    requires Reachable(w) && h in w.tasks && h in w.procs && w.tasks[h].pc.Waiting?
    ensures Leads(w, h, steps, w') && w'.now == w.now && w'.shutdown == w.shutdown
    ensures
      var t := w.tasks[h];
      && h in w'.procs && w'.procs[h] == w.procs[h].(status := Exited(code))
      && h in w'.tasks && w'.tasks[h] == t.(pc := Checked(t.pc.started, code, w.procs[h].armed), steps := t.steps + 5)
  {
    var a, w1 := ReachRecorded(w, h, code);
    var s1 := SlotOf(w1, h);
    assert s1.(kids := {}).task == s1.task && s1.(kids := {}).entry == s1.entry;
    LeadsToReachable(w, h, a, w1);
    var b, w2 := ReachLeafGone(w1, h);
    Append(w, h, a, w1, b, w2);
    w' := AppendOwn(w, a + b, w2, h, ANY);
    steps := a + b + [Own(h, ANY)];
    var s' := SlotOf(w', h);
    assert s'.entry == Lookup(w'.procs, h) && s'.task == Lookup(w'.tasks, h);
  }

  /** What the source restarts after: armed, not shutting down, policy, and cap. */
  predicate RestartDue(spec: Spec, attempt: nat, armed: bool, shutdown: bool, code: Option<int>) {
    && armed && !shutdown
    && (spec.policy.Always? || (spec.policy.OnFailure? && code != Some(0)))
    && (spec.maxRetries == 0 || attempt <= spec.maxRetries)
  }

  function AttemptAfter(attempt: nat, uptime: Time): (next: nat)
    ensures next >= 1
  {
    if uptime >= 10 * SECOND then 1 else attempt + 1
  }

  /** Policy, flag and `armed`: on to the counter, or at an end. */
  lemma CheckedStep(t: Task, armed: bool, now: Time, shutdown: bool)
    requires t.pc.Checked?
    ensures
      var due := t.spec.policy.Always? || (t.spec.policy.OnFailure? && t.pc.code != Some(0));
      var restart := t.pc.armed && !shutdown && due;
      DecisionStep(Counted(t), armed, now, shutdown)
      == t.(steps := t.steps + 1, pc := if restart then Deciding(t.pc.started) else Done)
  {
  }

  /** The counter and the cap: asleep for min(2^(attempt-1), 30) seconds, or at an end. */
  lemma DecidingStep(t: Task, armed: bool, now: Time, shutdown: bool)
    requires t.pc.Deciding? && t.pc.started <= now
    ensures
      var t' := DecisionStep(Counted(t), armed, now, shutdown);
      var attempt := AttemptAfter(t.attempt, now - t.pc.started);
      && t'.attempt == attempt && t'.launches == t.launches && t'.spec == t.spec && t'.born == t.born
      && t'.pc == if t.spec.maxRetries == 0 || attempt <= t.spec.maxRetries
                  then Sleeping(now + SECOND * Min(Pow2(attempt - 1), 30)) else Done
  {
    DelayIsCappedDoubling(AttemptAfter(t.attempt, now - t.pc.started));
  }

  /** One step of the decision: the row stays. */
  lemma StepDecision(w: World, steps: seq<Step>, w1: World, h: Handle) returns (w2: World)
    requires Leads(w, h, steps, w1) && h in w1.tasks && (w1.tasks[h].pc.Checked? || w1.tasks[h].pc.Deciding?)
    ensures Leads(w, h, steps + [Own(h, ANY)], w2) && w2.now == w1.now && w2.shutdown == w1.shutdown
    ensures SlotOf(w2, h).entry == SlotOf(w1, h).entry && h in w2.tasks
    ensures h in w1.procs ==> h in w2.procs && w2.procs[h] == w1.procs[h]
    ensures w2.tasks[h] == DecisionStep(Counted(w1.tasks[h]), IsArmed(SlotOf(w1, h).entry), w1.now, w1.shutdown)
  {
    w2 := AppendOwn(w, steps, w1, h, ANY);
    assert SlotOf(w2, h).task == Some(w2.tasks[h]);
    assert SlotOf(w1, h).entry == Lookup(w1.procs, h) && SlotOf(w2, h).entry == Lookup(w2.procs, h);
  }

  /** `t` sleeps for the backoff if a restart was due after that uptime, and has ended otherwise. */
  predicate Verdict(
    spec: Spec, attempt: nat, uptime: Time, armed: bool, shutdown: bool, code: Option<int>, now: Time, t: Task)
  {
    if RestartDue(spec, AttemptAfter(attempt, uptime), armed, shutdown, code) then
      && t.attempt == AttemptAfter(attempt, uptime)
      && t.pc == Sleeping(now + SECOND * Min(Pow2(AttemptAfter(attempt, uptime) - 1), 30))
    else t.pc.Done?
  }

  /** The decision: asleep for the backoff if a restart is due, otherwise at an end. */
  lemma ReachVerdict(w: World, h: Handle) returns (steps: seq<Step>, w': World)
    requires Reachable(w) && h in w.tasks && w.tasks[h].pc.Checked? && w.tasks[h].pc.started <= w.now
    ensures Leads(w, h, steps, w') && w'.now == w.now && w'.shutdown == w.shutdown
    ensures h in w.procs ==> h in w'.procs && w'.procs[h] == w.procs[h]
    ensures h in w'.tasks
    ensures
      var t, t' := w.tasks[h], w'.tasks[h];
      && t'.launches == t.launches && t'.spec == t.spec && t'.born == t.born
      && Verdict(t.spec, t.attempt, w.now - t.pc.started, t.pc.armed, w.shutdown, t.pc.code, w.now, t')
  {
    Nowhere(w, h);
    CheckedStep(w.tasks[h], IsArmed(SlotOf(w, h).entry), w.now, w.shutdown);
    w' := StepDecision(w, [], w, h);
    steps := [] + [Own(h, ANY)];
    if !w'.tasks[h].pc.Done? {
      DecidingStep(w'.tasks[h], IsArmed(SlotOf(w', h).entry), w.now, w.shutdown);
      w' := StepDecision(w, steps, w', h);
      steps := steps + [Own(h, ANY)];
    }
  }

  /** The relaunch goes into the row, then to disk. */
  lemma ReachRestarted(w: World, h: Handle) returns (steps: seq<Step>, w': World)
    requires Reachable(w) && h in w.tasks && h in w.procs && w.tasks[h].pc.Relaunched?
    ensures Leads(w, h, steps, w') && w'.now == w.now && w'.shutdown == w.shutdown
    ensures
      var s, t, e := SlotOf(w, h), w.tasks[h], w.procs[h];
      && SlotOf(w', h).entry == Some(e.(pid := t.pid, status := Running, restarts := e.restarts + 1))
      && SlotOf(w', h).record == Some(RecordOf(t.spec, t.pid, Running))
      && SlotOf(w', h).task == Some(t.(pc := Starting, steps := t.steps + 2))
      && SlotOf(w', h).leaf == s.leaf
      && w'.keyNext == h
  {
    Nowhere(w, h);
    var w1 := StepPublish(w, [], w, h);
    w' := StepPublish(w, [] + [Own(h, ANY)], w1, h);
    steps := [] + [Own(h, ANY)] + [Own(h, ANY)];
  }

  /** Sleeping until the alarm, then `armed` is read again. */
  lemma ReachRechecked(w: World, h: Handle) returns (steps: seq<Step>, w': World)
    requires Reachable(w) && h in w.tasks && w.tasks[h].pc.Sleeping? && w.now <= w.tasks[h].pc.wake
    ensures Leads(w, h, steps, w') && w'.now == w.tasks[h].pc.wake && w'.shutdown == w.shutdown
    ensures
      var s, t := SlotOf(w, h), w.tasks[h];
      SlotOf(w', h) == s.(task := Some(t.(pc := Rechecked(IsArmed(s.entry)), steps := t.steps + 1)))
  {
    var nap := Elapse(w.tasks[h].pc.wake - w.now);
    var w1 := Apply(w, nap);
    OneStep(w, nap);
    assert SlotOf(w1, h) == SlotOf(w, h);
    w' := AppendOwn(w, [nap], w1, h, ANY);
    steps := [nap] + [Own(h, ANY)];
  }

  /** Cleared to launch, the task makes a leaf. */
  lemma ReachLeaf(w: World, h: Handle, joins: bool) returns (steps: seq<Step>, w': World)
    requires Reachable(w) && h in w.tasks && w.tasks[h].pc == Rechecked(true) && !w.shutdown
    ensures Leads(w, h, steps, w') && w'.now == w.now && w'.shutdown == w.shutdown && h in w'.tasks
    ensures SlotOf(w', h).entry == SlotOf(w, h).entry && w'.tasks[h].pc.RelaunchLeaf?
    ensures SameBooks(w.tasks[h], w'.tasks[h]) && w'.tasks[h].launches == w.tasks[h].launches
    ensures InLeaf(SlotOf(w', h), joins)
  {
    Nowhere(w, h);
    var c := Choice(true, joins, 0, None);
    var w1 := AppendOwn(w, [], w, h, ANY);
    assert SlotOf(w1, h).task == Some(w1.tasks[h]);
    assert !SlotOf(w1, h).leaf by {
      LeadsToReachable(w, h, [] + [Own(h, ANY)], w1);
      CleanBeforeLaunch(w1, h);
    }
    w' := AppendOwn(w, [] + [Own(h, ANY)], w1, h, c);
    assert SlotOf(w', h).task == Some(w'.tasks[h]);
    steps := [] + [Own(h, ANY)] + [Own(h, c)];
  }

  /** There is a leaf, and the launch was given its `cgroup.procs` or not. */
  predicate InLeaf(s: Slot, joins: bool) {
    s.leaf && s.task.Some? && s.task.value.joined == joins
  }

  predicate SameBooks(t: Task, t': Task) {
    t'.spec == t.spec && t'.attempt == t.attempt && t'.born == t.born && t'.stables == t.stables
  }

  /** A child under a free pid. */
  lemma ReachChild(w: World, h: Handle) returns (steps: seq<Step>, w': World)
    requires Reachable(w) && h in w.tasks && w.tasks[h].pc.RelaunchLeaf? && w.tasks[h].launches >= 1
    ensures Leads(w, h, steps, w') && w'.now == w.now && w'.shutdown == w.shutdown && h in w'.tasks
    ensures SlotOf(w', h).entry == SlotOf(w, h).entry && w'.tasks[h].pc.Relaunched?
    ensures SameBooks(w.tasks[h], w'.tasks[h]) && w'.tasks[h].launches == w.tasks[h].launches + 1
    ensures SlotOf(w', h).leaf == SlotOf(w, h).leaf && w'.tasks[h].joined == w.tasks[h].joined
    ensures SlotOf(w', h).task == Some(w'.tasks[h])
  {
    Nowhere(w, h);
    var pid := FreshPid(w.children);
    var c := Choice(true, true, pid, None);
    w' := AppendOwn(w, [], w, h, c);
    assert SlotOf(w', h).task == Some(w'.tasks[h]);
    steps := [] + [Own(h, c)];
  }

  /** From the alarm to the child; the row is as it was. */
  lemma WakeAndLaunch(w: World, h: Handle, joins: bool) returns (steps: seq<Step>, w': World)
    requires Reachable(w) && h in w.tasks && h in w.procs && w.procs[h].armed && !w.shutdown
    requires w.tasks[h].pc.Sleeping? && w.now <= w.tasks[h].pc.wake && w.tasks[h].launches >= 1
    ensures Leads(w, h, steps, w') && w'.now == w.tasks[h].pc.wake && w'.shutdown == w.shutdown
    ensures h in w'.tasks && h in w'.procs && w'.procs[h] == w.procs[h] && w'.tasks[h].pc.Relaunched?
    ensures SameBooks(w.tasks[h], w'.tasks[h]) && w'.tasks[h].launches == w.tasks[h].launches + 1
    ensures InLeaf(SlotOf(w', h), joins)
  {
    var a, w1 := ReachRechecked(w, h);
    assert SlotOf(w1, h).task == Some(w1.tasks[h]) && w1.tasks[h].pc == Rechecked(true);
    assert Reachable(w1) by {
      LeadsToReachable(w, h, a, w1);
    }
    var b, w2 := ReachLeaf(w1, h, joins);
    assert Leads(w, h, a + b, w2) && Reachable(w2) by {
      Append(w, h, a, w1, b, w2);
      LeadsToReachable(w, h, a + b, w2);
    }
    var c, w3 := ReachChild(w2, h);
    assert Leads(w, h, a + b + c, w3) by {
      Append(w, h, a + b, w2, c, w3);
    }
    assert SlotOf(w3, h).entry == Lookup(w3.procs, h) && SlotOf(w2, h).task == Some(w2.tasks[h]);
    steps, w' := a + b + c, w3;
  }

  /** From the alarm to the relaunched child, in the table and on disk. */
  lemma WakeAndRelaunch(w: World, h: Handle, joins: bool) returns (steps: seq<Step>, w': World)
    requires Reachable(w) && h in w.tasks && h in w.procs && w.procs[h].armed && !w.shutdown
    requires w.tasks[h].pc.Sleeping? && w.now <= w.tasks[h].pc.wake && w.tasks[h].launches >= 1
    ensures Leads(w, h, steps, w') && w'.now == w.tasks[h].pc.wake && w'.shutdown == w.shutdown
    ensures h in w'.tasks && h in w'.procs && h in w'.records
    ensures
      var t, t' := w.tasks[h], w'.tasks[h];
      && SameBooks(t, t') && t'.pc.Starting? && t'.launches == t.launches + 1
      && w'.procs[h] == Entry(t'.pid, Running, w.procs[h].restarts + 1, true)
      && w'.records[h] == RecordOf(t.spec, t'.pid, Running)
      && w'.keyNext == h
      && h in w'.leaves && t'.joined == joins
  {
    var a, w1 := WakeAndLaunch(w, h, joins);
    assert Reachable(w1) by {
      LeadsToReachable(w, h, a, w1);
    }
    var b, w2 := ReachRestarted(w1, h);
    assert Leads(w, h, a + b, w2) by {
      Append(w, h, a, w1, b, w2);
    }
    var s2 := SlotOf(w2, h);
    assert s2.entry == Lookup(w2.procs, h) && s2.record == Lookup(w2.records, h) && s2.task == Lookup(w2.tasks, h);
    assert SlotOf(w1, h).task == Some(w1.tasks[h]) && s2.leaf == (h in w2.leaves);
    steps, w' := a + b, w2;
  }

  /** From the wait to the verdict. */
  lemma ExitToVerdict(w: World, h: Handle, code: Option<int>) returns (steps: seq<Step>, w': World)
    requires Reachable(w) && h in w.tasks && h in w.procs && w.tasks[h].pc.Waiting? && w.tasks[h].pc.started <= w.now
    ensures Leads(w, h, steps, w') && w'.now == w.now && w'.shutdown == w.shutdown && h in w'.tasks && h in w'.procs
    ensures
      var t, t' := w.tasks[h], w'.tasks[h];
      && w'.procs[h] == w.procs[h].(status := Exited(code))
      && t'.launches == t.launches && t'.spec == t.spec && t'.born == t.born
      && Verdict(t.spec, t.attempt, w.now - t.pc.started, w.procs[h].armed, w.shutdown, code, w.now, t')
  {
    var a, w1 := ReachChecked(w, h, code);
    assert Reachable(w1) by {
      LeadsToReachable(w, h, a, w1);
    }
    var b, w2 := ReachVerdict(w1, h);
    assert Leads(w, h, a + b, w2) by {
      Append(w, h, a, w1, b, w2);
    }
    steps, w' := a + b, w2;
  }

  lemma WaitingFacts(w: World, h: Handle)
    requires Reachable(w) && h in w.tasks && w.tasks[h].pc.Waiting?
    ensures w.tasks[h].pc.started <= w.now && w.tasks[h].launches >= 1
  {
    ReachableIsGood(w);
    assert SlotOk(SlotOf(w, h), h, w.now, w.next);
  }

  /**
   * An exit is followed by a relaunch exactly when one is due. Left alone, a handle whose child
   * exits with `code` comes back after min(2^(attempt-1), 30) seconds, under the same handle and
   * with its restart counted, in the table and on disk, in a leaf of its own which it has joined
   * if it could; or its task ends with the exit recorded.
   */
  lemma RestartIffDue(w: World, h: Handle, code: Option<int>, joins: bool) returns (steps: seq<Step>, w': World)
    requires Reachable(w) && h in w.tasks && h in w.procs && w.tasks[h].pc.Waiting?
    ensures Leads(w, h, steps, w') && h in w'.tasks && h in w'.procs && w.tasks[h].pc.started <= w.now
    ensures
      var t, t', e, e' := w.tasks[h], w'.tasks[h], w.procs[h], w'.procs[h];
      var uptime := w.now - t.pc.started;
      && t'.spec == t.spec && t'.born == t.born && w'.shutdown == w.shutdown
      && if RestartDue(t.spec, AttemptAfter(t.attempt, uptime), e.armed, w.shutdown, code) then
           && t'.pc.Starting? && t'.launches == t.launches + 1 && t'.attempt == AttemptAfter(t.attempt, uptime)
           && w'.now == w.now + SECOND * Min(Pow2(AttemptAfter(t.attempt, uptime) - 1), 30)
           && e' == Entry(t'.pid, Running, e.restarts + 1, true)
           && h in w'.records && w'.records[h] == RecordOf(t.spec, t'.pid, Running) && w'.keyNext == h
           && h in w'.leaves && t'.joined == joins
         else
           t'.pc.Done? && t'.launches == t.launches && w'.now == w.now && e' == e.(status := Exited(code))
  {
    WaitingFacts(w, h);
    steps, w' := ExitToVerdict(w, h, code);
    if w'.tasks[h].pc.Sleeping? {
      LeadsToReachable(w, h, steps, w');
      var more, end := WakeAndRelaunch(w', h, joins);
      Append(w, h, steps, w', more, end);
      steps, w' := steps + more, end;
    }
  }

  // ---------------------------------------------------------------- spawn, and the rate attained

  /** A reserved handle gets its leaf and its child. */
  lemma ReachFirstChild(w: World, h: Handle, joins: bool) returns (steps: seq<Step>, w': World)
    requires Reachable(w) && h in w.tasks && w.tasks[h].pc.Reserved? && w.tasks[h].launches == 0
    ensures Leads(w, h, steps, w') && w'.now == w.now && w'.shutdown == w.shutdown && h in w'.tasks
    ensures
      var t, t' := w.tasks[h], w'.tasks[h];
      && t'.pc.SpawnLaunched? && t'.spec == t.spec && t'.attempt == t.attempt && t'.launches == 1 && t'.born == w.now
      && InLeaf(SlotOf(w', h), joins) && SlotOf(w', h).task == Some(t')
  {
    Nowhere(w, h);
    var leaf := Choice(true, joins, 0, None);
    assert !SlotOf(w, h).leaf by {
      CleanBeforeLaunch(w, h);
    }
    var w1 := AppendOwn(w, [], w, h, leaf);
    assert SlotOf(w1, h).task == Some(w1.tasks[h]);
    var pid := FreshPid(w1.children);
    var c := Choice(true, true, pid, None);
    w' := AppendOwn(w, [] + [Own(h, leaf)], w1, h, c);
    assert SlotOf(w', h).task == Some(w'.tasks[h]);
    steps := [] + [Own(h, leaf)] + [Own(h, c)];
  }

  /** A first child goes into the table, then to disk. */
  lemma ReachServed(w: World, h: Handle) returns (steps: seq<Step>, w': World)
    requires Reachable(w) && h in w.tasks && w.tasks[h].pc.SpawnLaunched?
    ensures Leads(w, h, steps, w') && w'.now == w.now && w'.shutdown == w.shutdown
    ensures h in w'.tasks && h in w'.procs && h in w'.records && w'.keyNext == h
    ensures
      var t := w.tasks[h];
      && w'.tasks[h] == t.(pc := Starting, steps := t.steps + 2)
      && w'.procs[h] == Entry(t.pid, Running, 0, true) && w'.records[h] == RecordOf(t.spec, t.pid, Running)
      && (h in w'.leaves <==> SlotOf(w, h).leaf)
  {
    Nowhere(w, h);
    var w1 := AppendOwn(w, [], w, h, ANY);
    assert SlotOf(w1, h).task == Some(w1.tasks[h]);
    w' := AppendOwn(w, [] + [Own(h, ANY)], w1, h, ANY);
    steps := [] + [Own(h, ANY)] + [Own(h, ANY)];
    var s' := SlotOf(w', h);
    assert s'.task.Some? && s'.entry.Some? && s'.record.Some? && s'.leaf == (h in w'.leaves);
  }

  /**
   * `spawn`: once reserved, the handle gets running and armed, in table and store, by its task alone,
   * in a leaf of its own which it has joined if it could.
   */
  lemma SpawnIsServed(w: World, spec: Spec, joins: bool) returns (steps: seq<Step>, w': World)
    requires Reachable(w)
    ensures
      var h := w.next + 1;
      && Leads(Apply(w, Reserve(spec)), h, steps, w') && w'.now == w.now && w'.shutdown == w.shutdown
      && h in w'.tasks && h in w'.procs && h in w'.records && w'.keyNext == h
      && w'.tasks[h].spec == spec && w'.tasks[h].pc.Starting? && w'.tasks[h].attempt == 0
      && w'.tasks[h].launches == 1 && w'.tasks[h].born == w.now
      && w'.procs[h] == Entry(w'.tasks[h].pid, Running, 0, true)
      && w'.records[h] == RecordOf(spec, w'.tasks[h].pid, Running)
      && h in w'.leaves && w'.tasks[h].joined == joins
  {
    var h := w.next + 1;
    var w1 := Apply(w, Reserve(spec));
    ReachableStep(w, Reserve(spec));
    assert w1.tasks[h] == NewTask(spec);
    var a, w2 := ReachFirstChild(w1, h, joins);
    LeadsToReachable(w1, h, a, w2);
    var b, w3 := ReachServed(w2, h);
    Append(w1, h, a, w2, b, w3);
    steps, w' := a + b, w3;
  }

  /** A handle that is always restarted, at the top of its loop. */
  ghost predicate Looping(w: World, h: Handle, launches: nat, attempt: nat, born: Time) {
    && Reachable(w) && !w.shutdown && h in w.tasks && h in w.procs && w.procs[h].armed
    && w.tasks[h].pc.Starting? && w.tasks[h].spec.policy.Always? && w.tasks[h].spec.maxRetries == 0
    && w.tasks[h].launches == launches && w.tasks[h].attempt == attempt && w.tasks[h].born == born
  }

  /** An immediate exit costs exactly the backoff. */
  lemma FastCycle(w: World, h: Handle, launches: nat, attempt: nat, born: Time) returns (w': World)
    requires Looping(w, h, launches, attempt, born)
    ensures Looping(w', h, launches + 1, attempt + 1, born)
    ensures w'.now == w.now + SECOND * Min(Pow2(attempt), 30)
  {
    var steps, w1 := ReachWaiting(w, h);
    assert SlotOf(w1, h).entry == SlotOf(w, h).entry && SlotOf(w1, h).entry == Some(w1.procs[h]);
    LeadsToReachable(w, h, steps, w1);
    steps, w' := RestartIffDue(w1, h, None, true);
    LeadsToReachable(w1, h, steps, w');
  }

  /** A first handle, spawned on an empty disk. */
  lemma LoopBegins() returns (w: World)
    ensures Looping(w, 1, 1, 0, 0) && w.now == 0
  {
    var spec := Spec("", [], [], Limits(None, None, None), Always, 0, false);
    var boot := Boot(map[], 0, 0, 0, 0);
    assert ReachedBy(boot, map[], 0, 0, 0, []);
    var steps;
    steps, w := SpawnIsServed(boot, spec, true);
    LeadsToReachable(Apply(boot, Reserve(spec)), 1, steps, w);
  }

  /** The rate bound cannot be improved: three relaunches in seven seconds are possible. */
  lemma RateIsAttained()
    ensures exists w: World, h: Handle ::
      && Reachable(w) && h in w.tasks && w.tasks[h].launches >= 1 && w.tasks[h].born <= w.now
      && 17 * SECOND * (w.tasks[h].launches - 1) == 3 * (w.now - w.tasks[h].born) + 30 * SECOND
  {
    var w0 := LoopBegins();
    var w1 := FastCycle(w0, 1, 1, 0, 0);
    var w2 := FastCycle(w1, 1, 2, 1, 0);
    var w3 := FastCycle(w2, 1, 3, 2, 0);
    assert Pow2(0) == 1 && Pow2(1) == 2 && Pow2(2) == 4;
    assert w3.now == 7 * SECOND && w3.tasks[1].launches == 4;
  }
}
