/** When a `stop` kills (src/process.rs:442-484): never before its grace period is over. */
module LifecycleGrace {
  import opened Protocol
  import opened Backoff
  import opened Lifecycle
  import opened LifecycleInv
  import opened LifecycleTheorems
  import opened LifecycleRuns

  /** A `stop` on a running row starts one call, which begins by signalling the row's pid. */
  lemma StopStartsCall(w: World, h: Handle)
    requires Reachable(w) && h in w.procs
    ensures
      var ops := ApplyStop(w, h).ops;
      if w.procs[h].status.Running? then
        && h in w.tasks && w.nextOp !in w.ops
        && ops == w.ops[w.nextOp := Signalling(h, w.procs[h].pid, w.tasks[h].launches)]
      else ops == w.ops
    ensures h in ApplyStop(w, h).procs && !ApplyStop(w, h).procs[h].armed
  {
    ReachableIsGood(w);
    assert SlotOk(SlotOf(w, h), h, w.now, w.next);
  }

  /** Call `o` is that of `op`, and does not get to its SIGKILL before the deadline. */
  predicate Waits(w: World, o: nat, op: Op, deadline: Time)
    requires op.Signalling?
  {
    && o < w.nextOp && w.now + w.grace >= deadline
    && (o in w.ops ==>
          match w.ops[o]
          case Signalling(h, pid, launch) => w.ops[o] == op
          case Terminating(h, pid, launch, at) => Signalling(h, pid, launch) == op && at >= deadline
          case Escalating(h, pid, launch) => Signalling(h, pid, launch) == op && w.now >= deadline
          case Forgetting(_) => false)
  }

  lemma StepKeepsWaiting(w: World, step: Step, o: nat, op: Op, deadline: Time)
    requires op.Signalling? && Waits(w, o, op, deadline) && Enabled(w, step) && !step.Crash?
    ensures Waits(Apply(w, step), o, op, deadline)
    ensures Apply(w, step).grace == w.grace
  {
  }

  lemma {:induction false} RunKeepsWaiting(w: World, steps: seq<Step>, o: nat, op: Op, deadline: Time)
    requires op.Signalling? && Waits(w, o, op, deadline) && ValidRun(w, steps) && CrashFree(steps)
    ensures Waits(Run(w, steps), o, op, deadline)
    decreases |steps|
  {
    if steps != [] {
      StepKeepsWaiting(w, steps[0], o, op, deadline);
      RunKeepsWaiting(Apply(w, steps[0]), steps[1..], o, op, deadline);
    }
  }

  /**
   * No SIGKILL before the grace period is over: whatever happens between a `stop` that is about to
   * send its SIGTERM and the moment it is about to SIGKILL, at least the grace period has passed,
   * and it is still about the same launch and pid.
   */
  lemma KillWaitsForGrace(w: World, o: nat, steps: seq<Step>)
    requires Reachable(w) && o in w.ops && w.ops[o].Signalling?
    requires ValidRun(w, steps) && CrashFree(steps)
    requires o in Run(w, steps).ops && Run(w, steps).ops[o].Escalating?
    ensures
      var op, w' := w.ops[o], Run(w, steps);
      w'.now >= w.now + w.grace && w'.ops[o] == Escalating(op.h, op.pid, op.launch)
  {
    ReachableIsGood(w);
    RunKeepsWaiting(w, steps, o, w.ops[o], w.now + w.grace);
  }

  /** Steps that leave call `o` alone. */
  predicate Sparing(steps: seq<Step>, o: nat) {
    forall i :: 0 <= i < |steps| ==> steps[i] != OpStep(o)
  }

  lemma {:induction false} CallStays(w: World, steps: seq<Step>, o: nat)
    requires o in w.ops && o < w.nextOp
    requires ValidRun(w, steps) && CrashFree(steps) && Sparing(steps, o)
    ensures o in Run(w, steps).ops && Run(w, steps).ops[o] == w.ops[o]
    decreases |steps|
  {
    if steps != [] {
      CallStays(Apply(w, steps[0]), steps[1..], o);
    }
  }

  /** The check after the grace period. */
  lemma CheckDecides(w: World, o: nat, h: Handle, pid: Pid, launch: nat, at: Time, cgroups: bool)
    requires o in w.ops && w.ops[o] == Terminating(h, pid, launch, at)
    ensures Enabled(w, OpStep(o)) <==> at <= w.now
    ensures
      var end := ApplyOp(w, o);
      if h in w.procs && w.procs[h].status.Running? then
        && o in end.ops && end.ops[o] == Escalating(h, pid, launch)
        && Sends(end.ops[o], cgroups) == (if cgroups then KillLeaf(h) else KillGroup(pid))
      else o !in end.ops
  {
  }

  /**
   * How a termination goes, whatever else happens after its SIGTERM: it can go on exactly when the
   * grace period has passed since, and then it is about to SIGKILL if the row still says Running,
   * and is over if it does not. What it sends is SIGTERM to the pid, nothing at the check, and
   * SIGKILL through the leaf or, without cgroups, to the group of that pid.
   */
  lemma TerminationRuns(w: World, o: nat, steps: seq<Step>, cgroups: bool)
    requires Reachable(w) && o in w.ops && w.ops[o].Signalling?
    requires ValidRun(Apply(w, OpStep(o)), steps) && CrashFree(steps) && Sparing(steps, o)
    ensures
      var op, w' := w.ops[o], Run(Apply(w, OpStep(o)), steps);
      && Sends(op, cgroups) == Term(op.pid)
      && o in w'.ops && Sends(w'.ops[o], cgroups) == Nothing
      && (Enabled(w', OpStep(o)) <==> w'.now >= w.now + w.grace)
      && (w'.now >= w.now + w.grace ==>
            var end := Apply(w', OpStep(o));
            if op.h in w'.procs && w'.procs[op.h].status.Running? then
              && o in end.ops && end.ops[o] == Escalating(op.h, op.pid, op.launch)
              && Sends(end.ops[o], cgroups) == (if cgroups then KillLeaf(op.h) else KillGroup(op.pid))
            else o !in end.ops)
  {
    var op, w1 := w.ops[o], Apply(w, OpStep(o));
    assert o < w1.nextOp && w1.ops[o] == Terminating(op.h, op.pid, op.launch, w.now + w.grace) by {
      ReachableIsGood(w);
    }
    CallStays(w1, steps, o);
    CheckDecides(Run(w1, steps), o, op.h, op.pid, op.launch, w.now + w.grace, cgroups);
  }
}
