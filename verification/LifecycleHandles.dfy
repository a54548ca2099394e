/** Which handles a new supervisor gives out again (src/store.rs:91-100, src/process.rs:191). */
module LifecycleHandles {
  import opened Protocol
  import opened Lifecycle
  import opened LifecycleInv
  import opened LifecycleTheorems
  import opened LifecycleRuns
  import opened LifecycleDisk

  /** The handle counter survives a crash exactly when the disk still knows its value. */
  lemma CounterSurvivesIff(w: World)
    requires Reachable(w)
    ensures Apply(w, Crash).next == w.next <==> w.keyNext == w.next || w.next in w.records || w.next == 0
    ensures Apply(w, Crash).next <= w.next
  {
    ReachableIsGood(w);
    forall h | h in w.records
      ensures h <= w.next
    {
      assert SlotOk(SlotOf(w, h), h, w.now, w.next);
    }
  }

  /** After a crash now, some run of the next supervisor hands `h` to a spawn. */
  ghost predicate GivenOutNext(w: World, h: Handle) {
    exists steps :: ValidRun(Apply(w, Crash), steps) && CrashFree(steps) && h in Run(Apply(w, Crash), steps).tasks
  }

  /** Spawns alone reach any handle past the counter. */
  lemma {:induction false} ReserveUpTo(w: World, h: Handle) returns (steps: seq<Step>)
    requires w.next < h
    ensures ValidRun(w, steps) && CrashFree(steps) && h in Run(w, steps).tasks
    decreases h - w.next
  {
    var step := Reserve(Spec("", [], [], Limits(None, None, None), Never, 0, false));
    OneStep(w, step);
    steps := [step];
    if w.next + 1 < h {
      var rest := ReserveUpTo(Apply(w, step), h);
      RunsCompose(w, [step], rest);
      steps := [step] + rest;
    }
  }

  /**
   * The next supervisor gives out exactly the handles above the stored counter and above every
   * record on disk; so a handle given out before is given out again if and only if its record is
   * gone, no higher one is left, and the last `put` was for a lower handle.
   */
  lemma GivenOutNextIff(w: World, h: Handle)
    requires Reachable(w)
    ensures GivenOutNext(w, h) <==> w.keyNext < h && forall g :: g in w.records ==> g < h
  {
    var w' := Apply(w, Crash);
    if w'.next < h {
      var steps := ReserveUpTo(w', h);
      assert forall g :: g in w.records ==> g < h;
    } else {
      assert !(w.keyNext < h && forall g :: g in w.records ==> g < h);
      forall steps | ValidRun(w', steps) && CrashFree(steps)
        ensures h !in Run(w', steps).tasks
      {
        BootIsGood(w.records, w.keyNext, w.now, w.life + 1, w.grace);
        TombstoneFrozenFrom(w', steps, h);
      }
    }
  }
}
