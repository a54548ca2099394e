/**
 * The process supervisor as an interleaved state machine (src/process.rs with src/store.rs).
 *
 * Every table-lock region, every store transaction, every atomic flag access and every
 * operating-system call is one step. A handle's `spawn` call and its `supervise` task form
 * one task with an explicit program counter; clients, pending `terminate`/`forget` calls,
 * the clock and crashes interleave with it arbitrarily.
 */
module Lifecycle {
  import opened Protocol
  import opened Backoff

  // ---------------------------------------------------------------- data

  /** A row of the in-memory table; its stdin lock is modelled in `StdinPipe`. */
  datatype Entry = Entry(pid: Pid, status: ProcState, restarts: nat, armed: bool)

  /** A row of the on-disk table. */
  datatype Record = Record(
    cmd: string,
    args: seq<string>,
    env: seq<(string, string)>,
    pid: Pid,
    status: ProcState)

  function RecordOf(spec: Spec, pid: Pid, status: ProcState): Record {
    Record(spec.cmd, spec.args, spec.env, pid, status)
  }

  /** A `Running` child found on disk died with the old supervisor. */
  function Reloaded(state: ProcState): ProcState {
    if state.Running? then Stale else state
  }

  /** The tombstone a record becomes when the supervisor starts. */
  function Tombstone(rec: Record): Entry {
    Entry(rec.pid, Reloaded(rec.status), 0, false)
  }

  /** Where a task stands; the comment names the source lines it is about to execute. */
  datatype Pc =
    | Reserved                                                  // 219-223: make the leaf
    | SpawnLeaf                                                 // 244-253: spawn the child
    | SpawnLaunched                                             // 195-205: insert the row
    | SpawnInserted                                             // 206: first put
    | Starting                                                  // 314: read the clock
    | Waiting(started: Time)                                    // 315: wait
    | Reaped(started: Time, code: Option<int>)                  // 317-319: record the exit
    | Recorded(started: Time, code: Option<int>)                // 320-324: set_status
    | Persisted(started: Time, code: Option<int>)               // 325-327: remove the leaf
    | LeafGone(started: Time, code: Option<int>)                // 329: read armed
    | Checked(started: Time, code: Option<int>, armed: bool)    // 330-335: read shutdown, decide
    | Deciding(started: Time)                                   // 338-360: attempt and cap
    | Sleeping(wake: Time)                                       // 361-367: sleep, read armed
    | Rechecked(armed: bool)                                    // 368-370: read shutdown
    | Launching                                                 // 219-223: make the leaf
    | RelaunchLeaf                                              // 244-253: spawn the child
    | Relaunched                                                // 375-381: update the row
    | Published                                                 // 383: put
    | Done

  /**
   * A task. `joined` says that the current launch was given the leaf's `cgroup.procs`.
   * The last six fields are history the code does not keep: successful launches, the pid and time
   * of the first one, exits that reset the counter, own steps taken, and whether a relaunch
   * was published while the row was gone.
   */
  datatype Task = Task(
    spec: Spec,
    pc: Pc,
    attempt: nat,
    pid: Pid,
    joined: bool,
    launches: nat,
    first: Pid,
    born: Time,
    stables: nat,
    steps: nat,
    orphaned: bool)

  /** A child the kernel still holds, that is, one nobody has waited for. */
  datatype Child = Child(handle: Handle, launch: nat, pid: Pid, joined: bool)

  /** A client call between two of its critical sections. */
  datatype Op =
    | Signalling(h: Handle, pid: Pid, launch: nat)              // 463: about to SIGTERM
    | Terminating(h: Handle, pid: Pid, launch: nat, at: Time)   // 464: grace period
    | Escalating(h: Handle, pid: Pid, launch: nat)              // 479-483: about to SIGKILL
    | Forgetting(h: Handle)                                     // 568: row gone, record not yet

  datatype World = World(
    now: Time,
    life: nat,
    grace: Time,
    next: nat,
    shutdown: bool,
    procs: map<Handle, Entry>,
    records: map<Handle, Record>,
    keyNext: nat,
    tasks: map<Handle, Task>,
    children: set<Child>,
    leaves: set<Handle>,
    ops: map<nat, Op>,
    nextOp: nat)

  /** Everything the world holds about one handle. */
  datatype Slot = Slot(
    entry: Option<Entry>,
    record: Option<Record>,
    task: Option<Task>,
    kids: set<Child>,
    leaf: bool)

  function Lookup<K, V>(m: map<K, V>, k: K): Option<V> {
    if k in m then Some(m[k]) else None
  }

  function Update<K, V>(m: map<K, V>, k: K, v: Option<V>): map<K, V> {
    if v.Some? then m[k := v.value] else m - {k}
  }

  function SlotOf(w: World, h: Handle): Slot {
    Slot(Lookup(w.procs, h), Lookup(w.records, h), Lookup(w.tasks, h),
         (set c | c in w.children && c.handle == h), h in w.leaves)
  }

  function WithSlot(w: World, h: Handle, s: Slot): World {
    w.(procs := Update(w.procs, h, s.entry),
       records := Update(w.records, h, s.record),
       tasks := Update(w.tasks, h, s.task),
       children := (set c | c in w.children && c.handle != h) + s.kids,
       leaves := if s.leaf then w.leaves + {h} else w.leaves - {h})
  }

  // ---------------------------------------------------------------- program-counter classes

  /** `spawn` has not put the handle in the table yet. */
  predicate PreInsert(pc: Pc) {
    pc.Reserved? || pc.SpawnLeaf? || pc.SpawnLaunched?
  }

  /** A launch is published and its exit is not recorded. */
  predicate Live(pc: Pc) {
    pc.SpawnInserted? || pc.Starting? || pc.Waiting? || pc.Reaped? || pc.Published?
  }

  /** The task holds a child nobody has waited for. */
  predicate HoldsChild(pc: Pc) {
    pc.SpawnLaunched? || pc.SpawnInserted? || pc.Starting? || pc.Waiting? || pc.Relaunched? || pc.Published?
  }

  /** A leaf may exist. */
  predicate MayHaveLeaf(pc: Pc) {
    HoldsChild(pc) || pc.SpawnLeaf? || pc.RelaunchLeaf? || pc.Reaped? || pc.Recorded? || pc.Persisted?
  }

  /** A restart was decided and the launch has not happened. */
  predicate Ahead(pc: Pc) {
    pc.Sleeping? || pc.Rechecked? || pc.Launching? || pc.RelaunchLeaf?
  }

  /** Between a table write and the store write that follows it. */
  predicate MidWrite(pc: Pc) {
    pc.SpawnInserted? || pc.Recorded? || pc.Published?
  }

  // ---------------------------------------------------------------- steps

  /** What the environment decides for one task step. */
  datatype Choice = Choice(ok: bool, joins: bool, pid: Pid, code: Option<int>)

  datatype Step =
    | Reserve(spec: Spec)
    | Own(h: Handle, c: Choice)
    | StopCall(h: Handle)
    | ForgetCall(h: Handle)
    | OpStep(o: nat)
    | SetShutdown
    | ForceDown
    | Elapse(dt: Time)
    | Crash

  predicate OwnEnabled(t: Task, now: Time, children: set<Child>, c: Choice) {
    && !t.pc.Done?
    && (t.pc.Sleeping? ==> t.pc.wake <= now)
    && ((t.pc.SpawnLeaf? || t.pc.RelaunchLeaf?) && c.ok ==> forall k :: k in children ==> k.pid != c.pid)
  }

  /** `create_leaf`: creating a directory that exists fails, and then nothing is joined. */
  function MakeLeaf(s: Slot, t: Task, pc: Pc, c: Choice): Slot {
    s.(leaf := s.leaf || c.ok,
       task := Some(t.(pc := pc, joined := c.ok && c.joins && !s.leaf)))
  }

  /** `command.spawn`: a child, or an error after which the leaf is removed. */
  function Exec(s: Slot, h: Handle, t: Task, pc: Pc, now: Time, c: Choice): Slot {
    if c.ok then
      s.(kids := s.kids + {Child(h, t.launches + 1, c.pid, t.joined)},
         task := Some(t.(pc := pc, pid := c.pid, launches := t.launches + 1,
                         first := if t.launches == 0 then c.pid else t.first,
                         born := if t.launches == 0 then now else t.born)))
    else
      s.(leaf := false, task := Some(t.(pc := Done)))
  }

  predicate IsArmed(e: Option<Entry>) {
    e.Some? && e.value.armed
  }

  function WithStatus(e: Option<Entry>, status: ProcState): Option<Entry> {
    if e.Some? then Some(e.value.(status := status)) else None
  }

  /** `set_status`: a no-op when the record is gone. */
  function SetStatus(r: Option<Record>, status: ProcState): Option<Record> {
    if r.Some? then Some(r.value.(status := status)) else None
  }

  /** The attempt counter and the cap: back off, or give up. */
  function Decide(t: Task, now: Time, started: Time): Task {
    var uptime := if now >= started then now - started else 0;
    var attempt := NextAttempt(t.attempt, uptime);
    var t1 := t.(attempt := attempt, stables := if uptime >= STABLE_RESET then t.stables + 1 else t.stables);
    if t.spec.maxRetries != 0 && attempt > t.spec.maxRetries then
      t1.(pc := Done)
    else
      t1.(pc := Sleeping(now + Delay(attempt)))
  }

  predicate InSpawn(pc: Pc) {
    pc.Reserved? || pc.SpawnLeaf? || pc.SpawnLaunched? || pc.SpawnInserted?
  }

  predicate InExit(pc: Pc) {
    pc.Starting? || pc.Waiting? || pc.Reaped? || pc.Recorded? || pc.Persisted?
  }

  predicate InDecision(pc: Pc) {
    pc.LeafGone? || pc.Checked? || pc.Deciding? || pc.Sleeping? || pc.Rechecked?
  }

  predicate InRelaunch(pc: Pc) {
    pc.Launching? || pc.RelaunchLeaf? || pc.Relaunched? || pc.Published?
  }

  /** `spawn`: leaf, child, row, record. */
  function SpawnStep(s: Slot, h: Handle, t: Task, now: Time, c: Choice): Slot
    requires InSpawn(t.pc)
  {
    match t.pc
    case Reserved => MakeLeaf(s, t, SpawnLeaf, c)
    case SpawnLeaf => Exec(s, h, t, SpawnLaunched, now, c)
    case SpawnLaunched =>
      s.(entry := Some(Entry(t.pid, Running, 0, true)), task := Some(t.(pc := SpawnInserted)))
    case SpawnInserted =>
      s.(record := Some(RecordOf(t.spec, t.pid, Running)), task := Some(t.(pc := Starting)))
  }

  /** `supervise`, first half: wait, record the exit in the table and on disk, drop the leaf. */
  function ExitStep(s: Slot, t: Task, now: Time, c: Choice): Slot
    requires InExit(t.pc)
  {
    match t.pc
    case Starting => s.(task := Some(t.(pc := Waiting(now))))
    case Waiting(started) =>
      s.(kids := (set k | k in s.kids && k.launch != t.launches), task := Some(t.(pc := Reaped(started, c.code))))
    case Reaped(started, code) =>
      s.(entry := WithStatus(s.entry, Exited(code)), task := Some(t.(pc := Recorded(started, code))))
    case Recorded(started, code) =>
      s.(record := SetStatus(s.record, Exited(code)), task := Some(t.(pc := Persisted(started, code))))
    case Persisted(started, code) => s.(leaf := false, task := Some(t.(pc := LeafGone(started, code))))
  }

  /** `supervise`, the decision: only the task changes. */
  function DecisionStep(t: Task, armed: bool, now: Time, shutdown: bool): Task
    requires InDecision(t.pc)
  {
    match t.pc
    case LeafGone(started, code) => t.(pc := Checked(started, code, armed))
    case Checked(started, code, wasArmed) =>
      t.(pc := if shutdown || !wasArmed || !ShouldRestart(t.spec.policy, code) then Done else Deciding(started))
    case Deciding(started) => Decide(t, now, started)
    case Sleeping(_) => t.(pc := Rechecked(armed))
    case Rechecked(wasArmed) => t.(pc := if shutdown || !wasArmed then Done else Launching)
  }

  /** `supervise`, second half: leaf, child, row if it is still there, record. */
  function RelaunchStep(s: Slot, h: Handle, t: Task, now: Time, c: Choice): Slot
    requires InRelaunch(t.pc)
  {
    match t.pc
    case Launching => MakeLeaf(s, t, RelaunchLeaf, c)
    case RelaunchLeaf => Exec(s, h, t, Relaunched, now, c)
    case Relaunched =>
      if s.entry.Some? then
        var e := s.entry.value;
        s.(entry := Some(e.(pid := t.pid, status := Running, restarts := e.restarts + 1)),
           task := Some(t.(pc := Published)))
      else
        s.(task := Some(t.(pc := Published, orphaned := true)))
    case Published =>
      s.(record := Some(RecordOf(t.spec, t.pid, Running)), task := Some(t.(pc := Starting)))
  }

  function Counted(t: Task): Task {
    t.(steps := t.steps + 1)
  }

  /** One step of handle `h`'s own task, seen from its slot. */
  function OwnSlot(s: Slot, h: Handle, now: Time, shutdown: bool, c: Choice): Slot
    requires s.task.Some? && !s.task.value.pc.Done?
  {
    var t := Counted(s.task.value);
    if InSpawn(t.pc) then SpawnStep(s, h, t, now, c)
    else if InExit(t.pc) then ExitStep(s, t, now, c)
    else if InDecision(t.pc) then s.(task := Some(DecisionStep(t, IsArmed(s.entry), now, shutdown)))
    else RelaunchStep(s, h, t, now, c)
  }

  function NewTask(spec: Spec): Task {
    Task(spec, Reserved, 0, 0, false, 0, 0, 0, 0, 0, false)
  }

  function Disarm(e: Option<Entry>): Option<Entry> {
    if e.Some? then Some(e.value.(armed := false)) else None
  }

  predicate IsRunning(e: Option<Entry>) {
    e.Some? && e.value.status.Running?
  }

  function AddOp(w: World, op: Op): World {
    w.(ops := w.ops[w.nextOp := op], nextOp := w.nextOp + 1)
  }

  /** `stop`: disarm under the lock, and start a terminator if the row says Running. */
  function ApplyStop(w: World, h: Handle): World {
    var s := SlotOf(w, h);
    if s.entry.None? then w
    else
      var w1 := WithSlot(w, h, s.(entry := Disarm(s.entry)));
      if IsRunning(s.entry) then
        AddOp(w1, Signalling(h, s.entry.value.pid, if s.task.Some? then s.task.value.launches else 0))
      else w1
  }

  /** `forget`, first section: refused while Running, else the row goes. */
  function ApplyForget(w: World, h: Handle): World {
    var s := SlotOf(w, h);
    if s.entry.None? || IsRunning(s.entry) then w
    else AddOp(WithSlot(w, h, s.(entry := None)), Forgetting(h))
  }

  function ApplyOp(w: World, o: nat): World
    requires o in w.ops
  {
    match w.ops[o]
    case Signalling(h, pid, launch) => w.(ops := w.ops[o := Terminating(h, pid, launch, w.now + w.grace)])
    case Terminating(h, pid, launch, _) =>
      if IsRunning(Lookup(w.procs, h)) then w.(ops := w.ops[o := Escalating(h, pid, launch)])
      else w.(ops := w.ops - {o})
    case Escalating(_, _, _) => w.(ops := w.ops - {o})
    case Forgetting(h) => WithSlot(w, h, SlotOf(w, h).(record := None)).(ops := w.ops - {o})
  }

  /** A signal on its way: to a process, to a process group, or through a leaf's `cgroup.kill`. */
  datatype Delivery = Nothing | Term(pid: Pid) | KillGroup(pid: Pid) | KillLeaf(h: Handle)

  /** What the next section of a pending call sends. */
  function Sends(op: Op, cgroups: bool): Delivery {
    match op
    case Signalling(_, pid, _) => Term(pid)
    case Escalating(h, pid, _) => if cgroups then KillLeaf(h) else KillGroup(pid)
    case _ => Nothing
  }

  /** The largest member of a set of handles, 0 when there is none. */
  ghost function MaxHandle(hs: set<Handle>): (m: nat)
    ensures forall h :: h in hs ==> h <= m
    ensures hs == {} ==> m == 0
    ensures hs != {} ==> m in hs
  {
    if hs == {} then 0
    else
      var h :| h in hs;
      var m := MaxHandle(hs - {h});
      assert hs == (hs - {h}) + {h};
      if h >= m then h else
        assert hs - {h} != {};
        m
  }

  /** The next-handle counter `Store::load` computes from what is on disk. */
  ghost function LoadedNext(records: map<Handle, Record>, keyNext: nat): nat {
    var m := MaxHandle(records.Keys);
    if keyNext >= m then keyNext else m
  }

  /** A supervisor that has just started over the given disk contents. */
  ghost function Boot(records: map<Handle, Record>, keyNext: nat, now: Time, life: nat, grace: Time): World {
    World(now, life, grace, LoadedNext(records, keyNext), false,
          map h | h in records :: Tombstone(records[h]),
          records, keyNext, map[], {}, {}, map[], 0)
  }

  ghost predicate Enabled(w: World, step: Step) {
    match step
    case Own(h, c) => h in w.tasks && OwnEnabled(w.tasks[h], w.now, w.children, c)
    case OpStep(o) => o in w.ops && (w.ops[o].Terminating? ==> w.ops[o].at <= w.now)
    case ForceDown => w.shutdown
    case _ => true
  }

  /** Handing out a handle and starting the task that owns it. */
  function ApplyReserve(w: World, spec: Spec): World {
    var h := w.next + 1;
    WithSlot(w, h, SlotOf(w, h).(task := Some(NewTask(spec)))).(next := h)
  }

  function ApplyOwn(w: World, h: Handle, c: Choice): World
    requires h in w.tasks && !w.tasks[h].pc.Done?
  {
    var pc := w.tasks[h].pc;
    var w1 := WithSlot(w, h, OwnSlot(SlotOf(w, h), h, w.now, w.shutdown, c));
    w1.(keyNext := if pc.SpawnInserted? || pc.Published? then h else w.keyNext)
  }

  ghost function Apply(w: World, step: Step): World
    requires Enabled(w, step)
  {
    match step
    case Reserve(spec) => ApplyReserve(w, spec)
    case Own(h, c) => ApplyOwn(w, h, c)
    case StopCall(h) => ApplyStop(w, h)
    case ForgetCall(h) => ApplyForget(w, h)
    case OpStep(o) => ApplyOp(w, o)
    case SetShutdown => w.(shutdown := true)
    case ForceDown => w.(leaves := {})
    case Elapse(dt) => w.(now := w.now + dt)
    case Crash => Boot(w.records, w.keyNext, w.now, w.life + 1, w.grace)
  }

  // ---------------------------------------------------------------- runs

  ghost predicate ValidRun(w: World, steps: seq<Step>)
    decreases |steps|
  {
    steps == [] || (Enabled(w, steps[0]) && ValidRun(Apply(w, steps[0]), steps[1..]))
  }

  ghost function Run(w: World, steps: seq<Step>): World
    requires ValidRun(w, steps)
    decreases |steps|
  {
    if steps == [] then w else Run(Apply(w, steps[0]), steps[1..])
  }

  /** A run inside one supervisor lifetime. */
  predicate CrashFree(steps: seq<Step>) {
    forall i :: 0 <= i < |steps| ==> !steps[i].Crash?
  }
}
