/** The inductive invariant of the supervisor, and the proof that every step keeps it. */
module LifecycleInv {
  import opened Protocol
  import opened Backoff
  import opened Lifecycle

  // ---------------------------------------------------------------- the invariant

  /** What the row and the record of a tracked handle look like at each program counter. */
  predicate StageOk(s: Slot, t: Task, h: Handle) {
    && s.kids == (if HoldsChild(t.pc) then {Child(h, t.launches, t.pid, t.joined)} else {})
    && (s.leaf ==> MayHaveLeaf(t.pc))
    && (s.record.Some? ==> s.record.value == RecordOf(t.spec, s.record.value.pid, s.record.value.status))
    && (s.entry.Some? ==> !t.orphaned)
    && (t.launches == 1 ==> t.first == t.pid)
    && (t.pc.Relaunched? || t.pc.Published? ==> t.launches >= 2)
    && if PreInsert(t.pc) || (t.pc.Done? && t.launches == 0) then
         && s.entry.None? && s.record.None? && !t.orphaned
         && t.launches == (if t.pc.SpawnLaunched? then 1 else 0)
       else
         && t.launches >= 1
         && (t.pc.SpawnInserted? ==> s.entry.Some? && s.record.None?)
         && (Live(t.pc) && s.entry.None? ==> t.orphaned)
         && (s.entry.Some? ==> RowOk(s.entry.value, s.record, t))
  }

  predicate RowOk(e: Entry, r: Option<Record>, t: Task) {
    && (if Live(t.pc) then e.status.Running? else e.status.Exited?)
    && (!t.pc.Relaunched? ==> e.pid == t.pid)
    && (t.pc.Recorded? || t.pc.Persisted? || t.pc.LeafGone? || t.pc.Checked? ==> e.status == Exited(t.pc.code))
    && e.restarts + 1 == (if t.pc.Relaunched? then t.launches - 1 else t.launches)
    && (!t.pc.SpawnInserted? ==> r.Some?)
    && (t.pc.Recorded? ==> r.value.pid == e.pid && r.value.status.Running?)
    && (t.pc.Published? ==> r.value.status.Exited?)
    && (!MidWrite(t.pc) ==> r.value.pid == e.pid && r.value.status == e.status)
  }

  /** Own steps since the last launch, counting the two that precede the first. */
  function Position(pc: Pc): nat {
    match pc
    case Reserved => 0
    case SpawnLeaf => 1
    case SpawnLaunched => 2
    case SpawnInserted => 3
    case Starting => 4
    case Waiting(_) => 5
    case Reaped(_, _) => 6
    case Recorded(_, _) => 7
    case Persisted(_, _) => 8
    case LeafGone(_, _) => 9
    case Checked(_, _, _) => 10
    case Deciding(_) => 11
    case Sleeping(_) => 12
    case Rechecked(_) => 13
    case Launching => 14
    case RelaunchLeaf => 15
    case Relaunched => 2
    case Published => 3
    case Done => 16
  }

  function Relaunches(t: Task): nat {
    if t.launches == 0 then 0 else t.launches - 1
  }

  /** Relaunches made, plus the one that has been decided on. */
  function Owed(t: Task): nat {
    Relaunches(t) + if Ahead(t.pc) then 1 else 0
  }

  /** `cap` relaunches for each exit that reset the counter. */
  function Allowance(cap: nat, stables: nat): nat {
    if stables == 0 then 0 else cap + Allowance(cap, stables - 1)
  }

  lemma {:induction false} AllowanceIsProduct(cap: nat, stables: nat)
    ensures Allowance(cap, stables) == cap * stables
  {
    if stables > 0 {
      AllowanceIsProduct(cap, stables - 1);
      assert cap * stables == cap * (stables - 1) + cap;
    }
  }

  /** Own steps are paid for by launches: one turn of the loop takes fourteen. */
  predicate StepsOk(t: Task) {
    t.steps <= 14 * Relaunches(t) + Position(t.pc)
  }

  /** Attempts stay under the cap and pay for the relaunches. */
  predicate CapOk(t: Task) {
    && (t.launches == 0 ==> PreInsert(t.pc) || t.pc.Done?)
    && (Ahead(t.pc) ==> t.attempt >= 1)
    && (t.spec.maxRetries != 0 ==>
          if t.pc.Done? then Relaunches(t) <= Allowance(t.spec.maxRetries, t.stables + 1)
          else t.attempt <= t.spec.maxRetries && Owed(t) <= Allowance(t.spec.maxRetries, t.stables) + t.attempt)
  }

  /** The moment up to which a task's elapsed time has been charged. */
  function Charged(t: Task, now: Time): Time {
    match t.pc
    case Waiting(started) => started
    case Reaped(started, _) => started
    case Recorded(started, _) => started
    case Persisted(started, _) => started
    case LeafGone(started, _) => started
    case Checked(started, _, _) => started
    case Deciding(started) => started
    case Sleeping(wake) => wake
    case _ => now
  }

  /** Relaunches cost seventeen, elapsed seconds pay three, and the attempt gives credit. */
  predicate RateOk(t: Task, now: Time) {
    t.launches >= 1 ==>
      && t.born <= now
      && 17 * SECOND * Relaunches(t) <= 3 * (now - t.born) + 30 * SECOND
      && (!t.pc.Sleeping? ==> Charged(t, now) <= now)
      && (!t.pc.Done? ==>
            && t.born <= Charged(t, now)
            && 17 * SECOND * Owed(t) <= 3 * (Charged(t, now) - t.born) + Credit(t.attempt) * SECOND)
  }

  /** A handle without a task is unused or a reloaded tombstone. */
  predicate TombstoneOk(s: Slot) {
    && s.kids == {} && !s.leaf
    && (s.entry.Some? ==> s.record.Some? && s.entry.value == Tombstone(s.record.value))
  }

  predicate SlotOk(s: Slot, h: Handle, now: Time, next: nat) {
    && (s.entry.Some? || s.record.Some? || s.task.Some? ==> h <= next)
    && match s.task
       case None => TombstoneOk(s)
       case Some(t) => StageOk(s, t, h) && StepsOk(t) && CapOk(t) && RateOk(t, now)
  }

  /** How many launches a disarmed task may still make. */
  function Budget(pc: Pc, shutdown: bool): nat {
    if pc.Launching? || pc.RelaunchLeaf? || pc.Reserved? || pc.SpawnLeaf? then 1
    else if pc.Rechecked? && pc.armed && !shutdown then 1
    else 0
  }

  /** A launch is under way that the table does not show yet. */
  predicate InFlight(pc: Pc, shutdown: bool) {
    Budget(pc, shutdown) == 1 || pc.SpawnLaunched? || pc.Relaunched?
  }

  /** The launch a `stop` saw is still the handle's last, for good. */
  predicate Pinned(s: Slot, pid: Pid, launch: nat) {
    && s.task.Some?
    && s.task.value.launches == launch && s.task.value.pid == pid
    && !InFlight(s.task.value.pc, false)
    && !IsArmed(s.entry)
  }

  predicate OpOk(s: Slot, op: Op) {
    match op
    case Signalling(_, pid, launch) => Pinned(s, pid, launch)
    case Terminating(_, pid, launch, _) => Pinned(s, pid, launch)
    case Escalating(_, pid, launch) => Pinned(s, pid, launch)
    case Forgetting(_) => s.entry.None? && (s.task.Some? ==> !PreInsert(s.task.value.pc))
  }

  /** Some `forget` has removed the row of `h` and not yet the record. */
  ghost predicate ForgetPending(w: World, h: Handle) {
    exists o :: o in w.ops && w.ops[o] == Forgetting(h)
  }

  /** A record without a row has a reason. */
  ghost predicate Accounted(w: World, h: Handle) {
    h in w.records && h !in w.procs ==>
      ForgetPending(w, h) || (h in w.tasks && w.tasks[h].orphaned)
  }

  ghost predicate PidsUnique(children: set<Child>) {
    forall a, b :: a in children && b in children && a.pid == b.pid ==> a == b
  }

  ghost predicate Inv(w: World) {
    && (forall h: Handle :: SlotOk(SlotOf(w, h), h, w.now, w.next))
    && (forall h: Handle :: Accounted(w, h))
    && (forall o :: o in w.ops ==> o < w.nextOp && w.ops[o].h <= w.next && OpOk(SlotOf(w, w.ops[o].h), w.ops[o]))
    && PidsUnique(w.children)
    && w.keyNext <= w.next
  }

  // ---------------------------------------------------------------- slots

  lemma SlotAfter(w: World, h: Handle, s: Slot, g: Handle)
    requires forall c :: c in s.kids ==> c.handle == h
    ensures SlotOf(WithSlot(w, h, s), g) == if g == h then s else SlotOf(w, g)
  {
    var w' := WithSlot(w, h, s);
    if g == h {
      assert SlotOf(w', g).kids == s.kids;
    } else {
      assert SlotOf(w', g).kids == SlotOf(w, g).kids;
    }
  }

  /** Time and the handle counter only ever help. */
  lemma SlotOkLater(s: Slot, h: Handle, now: Time, next: nat, now': Time, next': nat)
    requires SlotOk(s, h, now, next) && now <= now' && next <= next'
    ensures SlotOk(s, h, now', next')
  {
  }

  // ---------------------------------------------------------------- own steps, on one slot

  /** Before the first launch nothing is counted, afterwards something is. */
  predicate LaunchesFit(t: Task) {
    if t.pc.Reserved? || t.pc.SpawnLeaf? then t.launches == 0 else t.launches >= 1
  }

  lemma ExecKeepsSteps(s: Slot, h: Handle, t: Task, now: Time, c: Choice)
    requires t.pc.SpawnLeaf? || t.pc.RelaunchLeaf?
    requires LaunchesFit(t) && StepsOk(t)
    ensures
      var t' := Exec(s, h, Counted(t), if t.pc.SpawnLeaf? then SpawnLaunched else Relaunched, now, c).task.value;
      StepsOk(t')
  {
  }

  lemma ExecKeepsCap(s: Slot, h: Handle, t: Task, now: Time, c: Choice)
    requires t.pc.SpawnLeaf? || t.pc.RelaunchLeaf?
    requires LaunchesFit(t) && CapOk(t)
    ensures
      var t' := Exec(s, h, Counted(t), if t.pc.SpawnLeaf? then SpawnLaunched else Relaunched, now, c).task.value;
      CapOk(t')
  {
  }

  lemma ExecKeepsRate(s: Slot, h: Handle, t: Task, now: Time, c: Choice)
    requires t.pc.SpawnLeaf? || t.pc.RelaunchLeaf?
    requires LaunchesFit(t) && RateOk(t, now)
    ensures
      var pc := if t.pc.SpawnLeaf? then SpawnLaunched else Relaunched;
      RateOk(Exec(s, h, Counted(t), pc, now, c).task.value, now)
  {
  }

  lemma SpawnKeepsStage(s: Slot, h: Handle, now: Time, c: Choice)
    requires s.task.Some? && InSpawn(s.task.value.pc)
    requires StageOk(s, s.task.value, h)
    ensures var s' := SpawnStep(s, h, Counted(s.task.value), now, c); s'.task.Some? && StageOk(s', s'.task.value, h)
  {
  }

  lemma SpawnKeepsSteps(s: Slot, h: Handle, now: Time, c: Choice)
    requires s.task.Some? && InSpawn(s.task.value.pc)
    requires LaunchesFit(s.task.value) && StepsOk(s.task.value)
    ensures var t' := SpawnStep(s, h, Counted(s.task.value), now, c).task.value; StepsOk(t')
  {
    if s.task.value.pc.SpawnLeaf? {
      ExecKeepsSteps(s, h, s.task.value, now, c);
    }
  }

  lemma SpawnKeepsCap(s: Slot, h: Handle, now: Time, c: Choice)
    requires s.task.Some? && InSpawn(s.task.value.pc)
    requires LaunchesFit(s.task.value) && CapOk(s.task.value)
    ensures var t' := SpawnStep(s, h, Counted(s.task.value), now, c).task.value; CapOk(t')
  {
    if s.task.value.pc.SpawnLeaf? {
      ExecKeepsCap(s, h, s.task.value, now, c);
    }
  }

  lemma SpawnKeepsRate(s: Slot, h: Handle, now: Time, c: Choice)
    requires s.task.Some? && InSpawn(s.task.value.pc)
    requires LaunchesFit(s.task.value) && RateOk(s.task.value, now)
    ensures RateOk(SpawnStep(s, h, Counted(s.task.value), now, c).task.value, now)
  {
    if s.task.value.pc.SpawnLeaf? {
      ExecKeepsRate(s, h, s.task.value, now, c);
    }
  }

  lemma ExitKeepsStage(s: Slot, h: Handle, now: Time, c: Choice)
    requires s.task.Some? && InExit(s.task.value.pc)
    requires StageOk(s, s.task.value, h)
    ensures var s' := ExitStep(s, Counted(s.task.value), now, c); s'.task.Some? && StageOk(s', s'.task.value, h)
  {
  }

  lemma ExitKeepsSteps(s: Slot, now: Time, c: Choice)
    requires s.task.Some? && InExit(s.task.value.pc)
    requires StepsOk(s.task.value)
    ensures var t' := ExitStep(s, Counted(s.task.value), now, c).task.value; StepsOk(t')
  {
  }

  lemma ExitKeepsCap(s: Slot, now: Time, c: Choice)
    requires s.task.Some? && InExit(s.task.value.pc)
    requires CapOk(s.task.value)
    ensures var t' := ExitStep(s, Counted(s.task.value), now, c).task.value; CapOk(t')
  {
  }

  lemma ExitKeepsRate(s: Slot, now: Time, c: Choice)
    requires s.task.Some? && InExit(s.task.value.pc)
    requires RateOk(s.task.value, now)
    ensures RateOk(ExitStep(s, Counted(s.task.value), now, c).task.value, now)
  {
  }

  lemma RelaunchKeepsStage(s: Slot, h: Handle, now: Time, c: Choice)
    requires s.task.Some? && InRelaunch(s.task.value.pc)
    requires StageOk(s, s.task.value, h)
    ensures var s' := RelaunchStep(s, h, Counted(s.task.value), now, c); s'.task.Some? && StageOk(s', s'.task.value, h)
  {
  }

  lemma RelaunchKeepsSteps(s: Slot, h: Handle, now: Time, c: Choice)
    requires s.task.Some? && InRelaunch(s.task.value.pc)
    requires LaunchesFit(s.task.value) && StepsOk(s.task.value)
    ensures var t' := RelaunchStep(s, h, Counted(s.task.value), now, c).task.value; StepsOk(t')
  {
    if s.task.value.pc.RelaunchLeaf? {
      ExecKeepsSteps(s, h, s.task.value, now, c);
    }
  }

  lemma RelaunchKeepsCap(s: Slot, h: Handle, now: Time, c: Choice)
    requires s.task.Some? && InRelaunch(s.task.value.pc)
    requires LaunchesFit(s.task.value) && CapOk(s.task.value)
    ensures var t' := RelaunchStep(s, h, Counted(s.task.value), now, c).task.value; CapOk(t')
  {
    if s.task.value.pc.RelaunchLeaf? {
      ExecKeepsCap(s, h, s.task.value, now, c);
    }
  }

  lemma RelaunchKeepsRate(s: Slot, h: Handle, now: Time, c: Choice)
    requires s.task.Some? && InRelaunch(s.task.value.pc)
    requires LaunchesFit(s.task.value) && RateOk(s.task.value, now)
    ensures RateOk(RelaunchStep(s, h, Counted(s.task.value), now, c).task.value, now)
  {
    if s.task.value.pc.RelaunchLeaf? {
      ExecKeepsRate(s, h, s.task.value, now, c);
    }
  }

  lemma DecisionKeepsStage(s: Slot, h: Handle, now: Time, shutdown: bool)
    requires s.task.Some? && InDecision(s.task.value.pc)
    requires StageOk(s, s.task.value, h)
    ensures
      var t' := DecisionStep(Counted(s.task.value), IsArmed(s.entry), now, shutdown);
      StageOk(s.(task := Some(t')), t', h)
  {
  }

  lemma DecideKeepsSteps(t: Task, now: Time)
    requires t.pc.Deciding? && StepsOk(t)
    ensures
      var t' := Decide(Counted(t), now, t.pc.started);
      StepsOk(t')
  {
  }

  lemma DecideKeepsCap(t: Task, now: Time)
    requires t.pc.Deciding? && CapOk(t)
    ensures
      var t' := Decide(Counted(t), now, t.pc.started);
      CapOk(t')
  {
    var cap := t.spec.maxRetries;
    assert Allowance(cap, t.stables + 1) == cap + Allowance(cap, t.stables);
    assert Allowance(cap, t.stables + 2) == cap + Allowance(cap, t.stables + 1);
  }

  lemma DecisionKeepsSteps(t: Task, armed: bool, now: Time, shutdown: bool)
    requires InDecision(t.pc)
    requires StepsOk(t)
    ensures
      var t' := DecisionStep(Counted(t), armed, now, shutdown);
      StepsOk(t')
  {
    if t.pc.Deciding? {
      DecideKeepsSteps(t, now);
    }
  }

  lemma DecisionKeepsCap(t: Task, armed: bool, now: Time, shutdown: bool)
    requires InDecision(t.pc)
    requires CapOk(t)
    ensures
      var t' := DecisionStep(Counted(t), armed, now, shutdown);
      CapOk(t')
  {
    if t.pc.Deciding? {
      DecideKeepsCap(t, now);
    } else {
      assert Allowance(t.spec.maxRetries, t.stables + 1) == t.spec.maxRetries + Allowance(t.spec.maxRetries, t.stables);
    }
  }

  lemma DecideKeepsRate(t: Task, now: Time)
    requires t.pc.Deciding? && RateOk(t, now)
    ensures RateOk(Decide(Counted(t), now, t.pc.started), now)
  {
    if t.launches >= 1 {
      RelaunchIsPaidFor(t.attempt, now - t.pc.started);
    }
  }

  lemma DecisionKeepsRate(t: Task, armed: bool, now: Time, shutdown: bool)
    requires InDecision(t.pc) && RateOk(t, now)
    requires t.pc.Sleeping? ==> t.pc.wake <= now
    ensures RateOk(DecisionStep(Counted(t), armed, now, shutdown), now)
  {
    if t.pc.Deciding? {
      DecideKeepsRate(t, now);
    }
  }

  lemma OwnKeepsSlot(s: Slot, h: Handle, now: Time, next: nat, shutdown: bool, c: Choice)
    requires s.task.Some? && !s.task.value.pc.Done? && SlotOk(s, h, now, next)
    requires s.task.value.pc.Sleeping? ==> s.task.value.pc.wake <= now
    ensures SlotOk(OwnSlot(s, h, now, shutdown, c), h, now, next)
  {
    var t := s.task.value;
    if InSpawn(t.pc) {
      SpawnKeepsStage(s, h, now, c);
      SpawnKeepsSteps(s, h, now, c);
      SpawnKeepsCap(s, h, now, c);
      SpawnKeepsRate(s, h, now, c);
    } else if InExit(t.pc) {
      ExitKeepsStage(s, h, now, c);
      ExitKeepsSteps(s, now, c);
      ExitKeepsCap(s, now, c);
      ExitKeepsRate(s, now, c);
    } else if InDecision(t.pc) {
      DecisionKeepsStage(s, h, now, shutdown);
      DecisionKeepsSteps(t, IsArmed(s.entry), now, shutdown);
      DecisionKeepsCap(t, IsArmed(s.entry), now, shutdown);
      DecisionKeepsRate(t, IsArmed(s.entry), now, shutdown);
    } else {
      RelaunchKeepsStage(s, h, now, c);
      RelaunchKeepsSteps(s, h, now, c);
      RelaunchKeepsCap(s, h, now, c);
      RelaunchKeepsRate(s, h, now, c);
    }
  }

  lemma EarlyKeepsOp(s: Slot, h: Handle, now: Time, c: Choice, op: Op)
    requires s.task.Some? && OpOk(s, op) && (InSpawn(s.task.value.pc) || InExit(s.task.value.pc))
    ensures
      var t := Counted(s.task.value);
      OpOk(if InSpawn(t.pc) then SpawnStep(s, h, t, now, c) else ExitStep(s, t, now, c), op)
  {
  }

  lemma LateKeepsOp(s: Slot, h: Handle, now: Time, shutdown: bool, c: Choice, op: Op)
    requires s.task.Some? && OpOk(s, op) && (InDecision(s.task.value.pc) || InRelaunch(s.task.value.pc))
    ensures
      var t := Counted(s.task.value);
      OpOk(if InDecision(t.pc) then s.(task := Some(DecisionStep(t, IsArmed(s.entry), now, shutdown)))
           else RelaunchStep(s, h, t, now, c), op)
  {
  }

  lemma OwnKeepsOp(s: Slot, h: Handle, now: Time, shutdown: bool, c: Choice, op: Op)
    requires s.task.Some? && !s.task.value.pc.Done? && OpOk(s, op)
    ensures OpOk(OwnSlot(s, h, now, shutdown, c), op)
  {
    if InSpawn(s.task.value.pc) || InExit(s.task.value.pc) {
      EarlyKeepsOp(s, h, now, c, op);
    } else {
      LateKeepsOp(s, h, now, shutdown, c, op);
    }
  }

  // ---------------------------------------------------------------- the world

  /** Replacing one slot by a good one that suits the pending calls keeps the world good. */
  lemma FocusKeepsSlots(w: World, h: Handle, s: Slot)
    requires Inv(w)
    requires forall c :: c in s.kids ==> c.handle == h
    requires SlotOk(s, h, w.now, w.next)
    requires forall o :: o in w.ops && w.ops[o].h == h ==> OpOk(s, w.ops[o])
    ensures
      var w' := WithSlot(w, h, s);
      && (forall g: Handle :: SlotOk(SlotOf(w', g), g, w'.now, w'.next))
      && (forall o :: o in w'.ops ==>
            o < w'.nextOp && w'.ops[o].h <= w'.next && OpOk(SlotOf(w', w'.ops[o].h), w'.ops[o]))
  {
    var w' := WithSlot(w, h, s);
    forall g: Handle
      ensures SlotOk(SlotOf(w', g), g, w'.now, w'.next)
    {
      SlotAfter(w, h, s, g);
    }
    forall o | o in w'.ops
      ensures o < w'.nextOp && w'.ops[o].h <= w'.next && OpOk(SlotOf(w', w'.ops[o].h), w'.ops[o])
    {
      SlotAfter(w, h, s, w.ops[o].h);
    }
  }

  /** A change to one slot leaves the other handles accounted for. */
  lemma FocusKeepsAccounts(w: World, h: Handle, s: Slot)
    requires Inv(w)
    requires s.record.Some? && s.entry.None? ==> ForgetPending(w, h) || (s.task.Some? && s.task.value.orphaned)
    ensures forall g: Handle :: Accounted(WithSlot(w, h, s), g)
  {
    var w' := WithSlot(w, h, s);
    forall g: Handle
      ensures Accounted(w', g)
    {
      assert Accounted(w, g);
      if ForgetPending(w, g) {
        var o :| o in w.ops && w.ops[o] == Forgetting(g);
        assert o in w'.ops && w'.ops[o] == Forgetting(g);
      }
    }
  }

  /** A step adds at most the child it has just spawned. */
  lemma OwnKids(s: Slot, h: Handle, now: Time, shutdown: bool, c: Choice)
    requires s.task.Some? && !s.task.value.pc.Done?
    ensures
      var t := s.task.value;
      var born := if (t.pc.SpawnLeaf? || t.pc.RelaunchLeaf?) && c.ok
                  then {Child(h, t.launches + 1, c.pid, t.joined)} else {};
      OwnSlot(s, h, now, shutdown, c).kids <= s.kids + born
  {
  }

  lemma OwnKeepsPids(w: World, h: Handle, c: Choice)
    requires Inv(w) && Enabled(w, Own(h, c))
    ensures PidsUnique(ApplyOwn(w, h, c).children)
    ensures forall k :: k in OwnSlot(SlotOf(w, h), h, w.now, w.shutdown, c).kids ==> k.handle == h
  {
    OwnKids(SlotOf(w, h), h, w.now, w.shutdown, c);
    var t := w.tasks[h];
    var born := if (t.pc.SpawnLeaf? || t.pc.RelaunchLeaf?) && c.ok
                then {Child(h, t.launches + 1, c.pid, t.joined)} else {};
    assert ApplyOwn(w, h, c).children <= w.children + born;
  }

  lemma OwnKeepsReason(s: Slot, h: Handle, now: Time, next: nat, shutdown: bool, c: Choice)
    requires s.task.Some? && !s.task.value.pc.Done? && SlotOk(s, h, now, next)
    ensures
      var s' := OwnSlot(s, h, now, shutdown, c);
      && (s.task.value.orphaned ==> s'.task.value.orphaned)
      && (s'.record.Some? && s'.entry.None? ==> (s.record.Some? && s.entry.None?) || s'.task.value.orphaned)
  {
  }

  lemma SlotsFrame(w: World, w': World)
    requires w'.procs == w.procs && w'.records == w.records && w'.tasks == w.tasks
    requires w'.children == w.children && w'.leaves == w.leaves
    ensures forall g: Handle :: SlotOf(w', g) == SlotOf(w, g)
  {
  }

  /** The parts of the world outside the slots may move forward. */
  lemma InvFrame(w: World, w': World)
    requires Inv(w)
    requires w'.procs == w.procs && w'.records == w.records && w'.tasks == w.tasks
    requires w'.children == w.children && w'.leaves == w.leaves
    requires w'.ops == w.ops && w'.nextOp == w.nextOp
    requires w.now <= w'.now && w.next <= w'.next && w'.keyNext <= w'.next
    ensures Inv(w')
  {
    SlotsFrame(w, w');
    forall h: Handle
      ensures SlotOk(SlotOf(w', h), h, w'.now, w'.next) && Accounted(w', h)
    {
      assert SlotOf(w', h) == SlotOf(w, h);
      SlotOkLater(SlotOf(w, h), h, w.now, w.next, w'.now, w'.next);
      assert Accounted(w, h);
    }
  }

  /** What an own step makes of the slot suits the world it goes back into. */
  lemma OwnFits(w: World, h: Handle, c: Choice)
    requires Inv(w) && Enabled(w, Own(h, c))
    ensures
      var s' := OwnSlot(SlotOf(w, h), h, w.now, w.shutdown, c);
      && SlotOk(s', h, w.now, w.next)
      && (forall o :: o in w.ops && w.ops[o].h == h ==> OpOk(s', w.ops[o]))
      && (s'.record.Some? && s'.entry.None? ==> ForgetPending(w, h) || (s'.task.Some? && s'.task.value.orphaned))
  {
    var s := SlotOf(w, h);
    assert SlotOk(s, h, w.now, w.next) && Accounted(w, h);
    OwnKeepsSlot(s, h, w.now, w.next, w.shutdown, c);
    forall o | o in w.ops && w.ops[o].h == h
      ensures OpOk(OwnSlot(s, h, w.now, w.shutdown, c), w.ops[o])
    {
      OwnKeepsOp(s, h, w.now, w.shutdown, c, w.ops[o]);
    }
    OwnKeepsReason(s, h, w.now, w.next, w.shutdown, c);
  }

  lemma OwnKeepsInv(w: World, h: Handle, c: Choice)
    requires Inv(w) && Enabled(w, Own(h, c))
    ensures Inv(ApplyOwn(w, h, c))
  {
    var s' := OwnSlot(SlotOf(w, h), h, w.now, w.shutdown, c);
    OwnFits(w, h, c);
    OwnKeepsPids(w, h, c);
    FocusKeepsSlots(w, h, s');
    FocusKeepsAccounts(w, h, s');
    OwnKeepsKey(w, h);
    InvFrame(WithSlot(w, h, s'), ApplyOwn(w, h, c));
  }

  lemma OwnKeepsKey(w: World, h: Handle)
    requires Inv(w) && h in w.tasks
    ensures h <= w.next
  {
    assert SlotOk(SlotOf(w, h), h, w.now, w.next);
  }

  /** A slot change that adds no child keeps pids unique. */
  lemma FocusKeepsInv(w: World, h: Handle, s: Slot)
    requires Inv(w)
    requires s.kids == SlotOf(w, h).kids
    requires SlotOk(s, h, w.now, w.next)
    requires forall o :: o in w.ops && w.ops[o].h == h ==> OpOk(s, w.ops[o])
    requires s.record.Some? && s.entry.None? ==> ForgetPending(w, h) || (s.task.Some? && s.task.value.orphaned)
    ensures Inv(WithSlot(w, h, s))
  {
    FocusKeepsSlots(w, h, s);
    FocusKeepsAccounts(w, h, s);
    assert WithSlot(w, h, s).children == w.children;
  }

  lemma AddOpKeepsInv(w: World, op: Op)
    requires Inv(w) && op.h <= w.next && OpOk(SlotOf(w, op.h), op)
    ensures Inv(AddOp(w, op))
  {
    var w' := AddOp(w, op);
    SlotsFrame(w, w');
    forall h: Handle
      ensures Accounted(w', h)
    {
      assert Accounted(w, h);
      if ForgetPending(w, h) {
        var o :| o in w.ops && w.ops[o] == Forgetting(h);
        assert o in w'.ops && w'.ops[o] == Forgetting(h);
      }
    }
    forall o | o in w'.ops
      ensures o < w'.nextOp && w'.ops[o].h <= w'.next && OpOk(SlotOf(w', w'.ops[o].h), w'.ops[o])
    {
      assert SlotOf(w', w'.ops[o].h) == SlotOf(w, w'.ops[o].h);
    }
  }

  lemma StopKeepsInv(w: World, h: Handle)
    requires Inv(w)
    ensures Inv(ApplyStop(w, h))
  {
    var s := SlotOf(w, h);
    if s.entry.Some? {
      var s' := s.(entry := Disarm(s.entry));
      assert SlotOk(s, h, w.now, w.next) && Accounted(w, h);
      FocusKeepsInv(w, h, s');
      SlotAfter(w, h, s', h);
      if IsRunning(s.entry) {
        AddOpKeepsInv(WithSlot(w, h, s'), Signalling(h, s.entry.value.pid, s.task.value.launches));
      }
    }
  }

  /** The row goes while the `forget` that removes it is entered as pending. */
  lemma ForgetKeepsInv(w: World, h: Handle)
    requires Inv(w)
    ensures Inv(ApplyForget(w, h))
  {
    var s := SlotOf(w, h);
    if s.entry.Some? && !IsRunning(s.entry) {
      var s' := s.(entry := None);
      var w1 := WithSlot(w, h, s');
      var w2 := ApplyForget(w, h);
      assert SlotOk(s, h, w.now, w.next);
      FocusKeepsSlots(w, h, s');
      assert w1.children == w.children;
      SlotAfter(w, h, s', h);
      SlotsFrame(w1, w2);
      forall g: Handle
        ensures Accounted(w2, g)
      {
        assert Accounted(w, g);
        if g == h {
          assert w2.ops[w.nextOp] == Forgetting(g);
        } else if ForgetPending(w, g) {
          var o :| o in w.ops && w.ops[o] == Forgetting(g);
          assert o in w2.ops && w2.ops[o] == Forgetting(g);
        }
      }
      forall o | o in w2.ops
        ensures o < w2.nextOp && w2.ops[o].h <= w2.next && OpOk(SlotOf(w2, w2.ops[o].h), w2.ops[o])
      {
        assert SlotOf(w2, w2.ops[o].h) == SlotOf(w1, w2.ops[o].h);
      }
    }
  }

  /** Finishing or advancing a call that hides no record. */
  lemma SetOpsKeepsInv(w: World, w': World, o: nat)
    requires Inv(w) && o in w.ops
    requires w'.procs == w.procs && w'.records == w.records && w'.tasks == w.tasks
    requires w'.children == w.children && w'.leaves == w.leaves
    requires w'.nextOp == w.nextOp && w'.now == w.now && w'.next == w.next && w'.keyNext == w.keyNext
    requires forall q: nat | q != o :: (q in w'.ops <==> q in w.ops) && (q in w.ops ==> w'.ops[q] == w.ops[q])
    requires w.ops[o].Forgetting? ==> w.ops[o].h !in w.records
    requires o in w'.ops ==> w'.ops[o].h == w.ops[o].h && OpOk(SlotOf(w, w.ops[o].h), w'.ops[o])
    ensures Inv(w')
  {
    SlotsFrame(w, w');
    forall g: Handle
      ensures Accounted(w', g)
    {
      assert Accounted(w, g);
      if g in w'.records && ForgetPending(w, g) {
        var q :| q in w.ops && w.ops[q] == Forgetting(g);
        assert q in w'.ops && w'.ops[q] == Forgetting(g);
      }
    }
    forall q | q in w'.ops
      ensures q < w'.nextOp && w'.ops[q].h <= w'.next && OpOk(SlotOf(w', w'.ops[q].h), w'.ops[q])
    {
      if q != o {
        assert q in w.ops && w.ops[q] == w'.ops[q];
      }
    }
  }

  lemma FinishForgetKeepsInv(w: World, o: nat)
    requires Inv(w) && o in w.ops && w.ops[o].Forgetting?
    ensures Inv(ApplyOp(w, o))
  {
    var h := w.ops[o].h;
    var s := SlotOf(w, h).(record := None);
    assert SlotOk(s, h, w.now, w.next) by {
      assert SlotOk(SlotOf(w, h), h, w.now, w.next) && OpOk(SlotOf(w, h), w.ops[o]);
    }
    FocusKeepsInv(w, h, s);
    SetOpsKeepsInv(WithSlot(w, h, s), ApplyOp(w, o), o);
  }

  lemma OpStepKeepsInv(w: World, o: nat)
    requires Inv(w) && o in w.ops
    ensures Inv(ApplyOp(w, o))
  {
    if w.ops[o].Forgetting? {
      FinishForgetKeepsInv(w, o);
    } else {
      assert OpOk(SlotOf(w, w.ops[o].h), w.ops[o]);
      SetOpsKeepsInv(w, ApplyOp(w, o), o);
    }
  }

  lemma ReserveKeepsInv(w: World, spec: Spec)
    requires Inv(w)
    ensures Inv(ApplyReserve(w, spec))
  {
    var h := w.next + 1;
    var s := SlotOf(w, h);
    var w1 := w.(next := h);
    InvFrame(w, w1);
    assert SlotOk(s, h, w.now, w.next) && SlotOf(w1, h) == s;
    FocusKeepsInv(w1, h, s.(task := Some(NewTask(spec))));
    assert ApplyReserve(w, spec) == WithSlot(w1, h, s.(task := Some(NewTask(spec))));
  }

  lemma ForceDownKeepsInv(w: World)
    requires Inv(w)
    ensures Inv(w.(leaves := {}))
  {
    var w' := w.(leaves := {});
    forall h: Handle
      ensures SlotOf(w', h) == SlotOf(w, h).(leaf := false)
      ensures SlotOk(SlotOf(w', h), h, w'.now, w'.next) && Accounted(w', h)
    {
      assert SlotOk(SlotOf(w, h), h, w.now, w.next) && Accounted(w, h);
    }
    forall o | o in w'.ops
      ensures OpOk(SlotOf(w', w'.ops[o].h), w'.ops[o])
    {
      assert SlotOf(w', w'.ops[o].h) == SlotOf(w, w.ops[o].h).(leaf := false);
    }
  }

  /** A supervisor that starts on any disk contents starts well. */
  lemma BootIsGood(records: map<Handle, Record>, keyNext: nat, now: Time, life: nat, grace: Time)
    ensures Inv(Boot(records, keyNext, now, life, grace))
  {
    var w := Boot(records, keyNext, now, life, grace);
    forall h: Handle
      ensures SlotOk(SlotOf(w, h), h, w.now, w.next) && Accounted(w, h)
    {
      assert h in records ==> h <= MaxHandle(records.Keys);
    }
  }

  lemma StepKeepsInv(w: World, step: Step)
    requires Inv(w) && Enabled(w, step)
    ensures Inv(Apply(w, step))
  {
    match step
    case Reserve(spec) => ReserveKeepsInv(w, spec);
    case Own(h, c) => OwnKeepsInv(w, h, c);
    case StopCall(h) => StopKeepsInv(w, h);
    case ForgetCall(h) => ForgetKeepsInv(w, h);
    case OpStep(o) => OpStepKeepsInv(w, o);
    case SetShutdown => InvFrame(w, w.(shutdown := true));
    case ForceDown => ForceDownKeepsInv(w);
    case Elapse(dt) => InvFrame(w, w.(now := w.now + dt));
    case Crash => BootIsGood(w.records, w.keyNext, w.now, w.life + 1, w.grace);
  }

  /** Every state of every run, over any number of crashes, satisfies the invariant. */
  lemma {:induction false} RunKeepsInv(w: World, steps: seq<Step>)
    requires Inv(w) && ValidRun(w, steps)
    ensures Inv(Run(w, steps))
    decreases |steps|
  {
    if steps != [] {
      StepKeepsInv(w, steps[0]);
      RunKeepsInv(Apply(w, steps[0]), steps[1..]);
    }
  }
}
