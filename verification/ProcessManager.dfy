/**
 * The process manager as an object (src/process.rs): every critical section is a method that
 * updates the table, the counter, the flag or the store in place, and is proved to be one step
 * of the lifecycle machine.
 */
module ProcessManagers {
  import opened Protocol
  import opened Backoff
  import opened Lifecycle
  import opened LifecycleInv
  import opened DiskStore
  import opened Listings

  /** Signal numbers the platform knows. */
  predicate KnownSignal(sig: int) {
    1 <= sig <= 31
  }

  /** A number in decimal. */
  function Decimal(n: int): string {
    if n < 0 then "-" + Digits(-n) else Digits(n)
  }

  function Digit(d: nat): (c: char)
    requires d < 10
    ensures '0' <= c <= '9' && c as int - '0' as int == d
  {
    ('0' as int + d) as char
  }

  function Digits(n: nat): string {
    if n < 10 then [Digit(n)] else Digits(n / 10) + [Digit(n % 10)]
  }

  /** A row as peers see it; `live` is what the counters of the leaves read, where they can be read. */
  function InfoOf(h: Handle, e: Entry, live: map<Handle, Usage>): ProcInfo {
    ProcInfo(h, e.pid, e.status, if e.status.Running? then Lookup(live, h) else None, e.restarts)
  }

  /** The number a string of digits stands for. */
  function Value(s: string): nat
    decreases |s|
  {
    if s == "" then 0
    else 10 * Value(s[..|s| - 1]) + if '0' <= s[|s| - 1] <= '9' then s[|s| - 1] as int - '0' as int else 0
  }

  lemma ValueSnoc(s: string, c: char)
    requires '0' <= c <= '9'
    ensures Value(s + [c]) == 10 * Value(s) + (c as int - '0' as int)
  {
    assert (s + [c])[..|s|] == s;
  }

  /** Digits read back as the number. */
  lemma {:induction false} DigitsReadBack(n: nat)
    ensures Value(Digits(n)) == n
    decreases n
  {
    if n < 10 {
      ValueSnoc("", Digit(n));
    } else {
      DigitsReadBack(n / 10);
      ValueSnoc(Digits(n / 10), Digit(n % 10));
    }
  }

  /** What `signal` answers: the pid it signalled, or the first check that failed. */
  function SignalReply(procs: map<Handle, Entry>, h: Handle, sig: int, delivered: bool): Result<Pid, ControlError> {
    if h !in procs then Err(NotFound(h))
    else if !procs[h].status.Running? then Err(BadRequest("process is not running"))
    else if !KnownSignal(sig) then Err(BadRequest("invalid signal " + Decimal(sig)))
    else if !delivered then Err(BadRequest("signal delivery failed"))
    else Ok(procs[h].pid)
  }

  /** A signal is sent exactly to a row that says Running, with a number from 1 to 31, and to its pid. */
  lemma SignalIsSentIff(procs: map<Handle, Entry>, h: Handle, sig: int, delivered: bool)
    ensures
      var r := SignalReply(procs, h, sig, delivered);
      && (r.Ok? <==> h in procs && procs[h].status.Running? && 1 <= sig <= 31 && delivered)
      && (r.Ok? ==> r.value == procs[h].pid)
      && (r == Err(NotFound(h)) <==> h !in procs)
      && (r.Err? && h in procs ==> r.error.BadRequest?)
      && (r == Err(BadRequest("process is not running")) <==> h in procs && !procs[h].status.Running?)
  {
    assert "signal delivery failed"[0] != "process is not running"[0];
    var text := "invalid signal " + Decimal(sig);
    assert text[0] == 'i' && "process is not running"[0] == 'p';
  }

  /** What a peer sees of a row: its pid, status and restarts, and usage only while it says Running. */
  predicate Describes(info: ProcInfo, e: Entry, live: map<Handle, Usage>) {
    && info.pid == e.pid && info.state == e.status && info.restarts == e.restarts
    && (info.usage.Some? <==> e.status.Running? && info.handle in live)
    && (info.usage.Some? ==> info.usage.value == live[info.handle])
  }

  /** Every row of the table once, by ascending handle. */
  ghost predicate IsSnapshot(infos: seq<ProcInfo>, procs: map<Handle, Entry>, live: map<Handle, Usage>) {
    && |infos| == |procs|
    && (forall i :: 0 <= i < |infos| ==> infos[i].handle in procs && Describes(infos[i], procs[infos[i].handle], live))
    && (forall i, j :: 0 <= i < j < |infos| ==> infos[i].handle < infos[j].handle)
  }

  /** Replacing a slot leaves untouched every part it agrees with. */
  lemma WithSlotFields(w: World, h: Handle, s: Slot)
    ensures s.entry == Lookup(w.procs, h) ==> WithSlot(w, h, s).procs == w.procs
    ensures s.record == Lookup(w.records, h) ==> WithSlot(w, h, s).records == w.records
    ensures s.task == Lookup(w.tasks, h) ==> WithSlot(w, h, s).tasks == w.tasks
    ensures s.kids == SlotOf(w, h).kids ==> WithSlot(w, h, s).children == w.children
    ensures s.leaf == (h in w.leaves) ==> WithSlot(w, h, s).leaves == w.leaves
  {
  }

  /** A child is added to those of its own handle. */
  lemma WithChild(w: World, h: Handle, s: Slot, x: Child)
    requires x.handle == h && s.kids == SlotOf(w, h).kids + {x}
    ensures WithSlot(w, h, s).children == w.children + {x}
  {
  }

  /** The table a list of records reloads to. */
  method Tombstones(rows: seq<Row>, ghost m: map<Handle, Record>) returns (procs: map<Handle, Entry>)
    requires Lists(rows, m)
    ensures procs == map h | h in m :: Tombstone(m[h])
  {
    procs := map[];
    for i := 0 to |rows|
      invariant forall h :: h in procs ==> h in m && procs[h] == Tombstone(m[h])
      invariant forall k :: 0 <= k < i ==> rows[k].0 in procs
    {
      procs := procs[rows[i].0 := Tombstone(rows[i].1)];
    }
    forall h | h in m
      ensures h in procs
    {
      var k :| 0 <= k < |rows| && rows[k].0 == h;
    }
  }

  lemma BootFields(
    records: map<Handle, Record>, keyNext: nat, procs: map<Handle, Entry>, next: nat,
    now: Time, life: nat, grace: Time)
    requires procs == map h | h in records :: Tombstone(records[h])
    requires next == LoadedNext(records, keyNext)
    ensures World(now, life, grace, next, false, procs, records, keyNext, map[], {}, {}, map[], 0)
         == Boot(records, keyNext, now, life, grace)
  {
  }

  class ProcessManager {
    var procs: map<Handle, Entry>
    var next: nat
    var shutdown: bool
    const store: Store
    const cgroups: bool
    const stopDeadline: Time

    // What the runtime and the kernel hold: tasks, pending calls, children, leaves, the clock.
    var tasks: map<Handle, Task>
    var ops: map<nat, Op>
    var nextOp: nat
    var children: set<Child>
    var leaves: set<Handle>
    var now: Time
    var life: nat

    /** The state of the lifecycle machine this object stands for. */
    ghost function View(): World
      reads this, store
    {
      World(now, life, stopDeadline, next, shutdown, procs, store.records, Counter(store.keyNext),
            tasks, children, leaves, ops, nextOp)
    }

    /** Reload: one tombstone per record, the counter continued. */
    constructor WithStore(
      store: Store, rows: seq<Row>, nextHandle: nat, cgroups: bool, stopDeadline: Time, now: Time, life: nat)
      requires Lists(rows, store.records) && nextHandle == LoadedNext(store.records, Counter(store.keyNext))
      ensures this.store == store && this.cgroups == cgroups
      ensures View() == Boot(store.records, Counter(store.keyNext), now, life, stopDeadline)
      ensures Inv(View())
    {
      var reloaded := Tombstones(rows, store.records);
      this.store := store;
      this.cgroups, this.stopDeadline := cgroups, stopDeadline;
      this.now, this.life, this.next, this.shutdown := now, life, nextHandle, false;
      this.procs, this.tasks, this.ops, this.nextOp := reloaded, map[], map[], 0;
      this.children, this.leaves := {}, {};
      new;
      BootFields(store.records, Counter(store.keyNext), reloaded, nextHandle, now, life, stopDeadline);
      BootIsGood(store.records, Counter(store.keyNext), now, life, stopDeadline);
    }

    // -------------------------------------------------------------- spawn

    /** `spawn`, line 191: take the next handle. */
    method Reserve(spec: Spec) returns (h: Handle)
      requires Inv(View())
      modifies this
      ensures View() == ApplyReserve(old(View()), spec) && Inv(View())
      ensures h == old(next) + 1 && h !in old(procs) && h !in old(store.records)
    {
      h := next + 1;
      assert SlotOk(SlotOf(View(), h), h, now, next);
      ReserveKeepsInv(View(), spec);
      WithSlotFields(View(), h, SlotOf(View(), h).(task := Some(NewTask(spec))));
      next := h;
      tasks := tasks[h := NewTask(spec)];
    }

    /** Lines 219-223: `create_leaf` fails on a directory that exists. */
    method CreateLeaf(h: Handle, c: Choice)
      requires h in tasks && (tasks[h].pc.Reserved? || tasks[h].pc.Launching?)
      modifies this
      ensures View() == ApplyOwn(old(View()), h, c)
    {
      var t := Counted(tasks[h]);
      WithSlotFields(View(), h, OwnSlot(SlotOf(View(), h), h, now, shutdown, c));
      tasks := tasks[h := t.(pc := if t.pc.Reserved? then SpawnLeaf else RelaunchLeaf,
                             joined := c.ok && c.joins && h !in leaves)];
      if c.ok {
        leaves := leaves + {h};
      }
    }

    /** Lines 244-255: the child, or the error that removes the leaf. */
    method SpawnChild(h: Handle, c: Choice)
      requires h in tasks && (tasks[h].pc.SpawnLeaf? || tasks[h].pc.RelaunchLeaf?)
      modifies this
      ensures View() == ApplyOwn(old(View()), h, c)
    {
      var t := Counted(tasks[h]);
      WithSlotFields(View(), h, OwnSlot(SlotOf(View(), h), h, now, shutdown, c));
      if c.ok {
        var child := Child(h, t.launches + 1, c.pid, t.joined);
        WithChild(View(), h, OwnSlot(SlotOf(View(), h), h, now, shutdown, c), child);
        children := children + {child};
        tasks := tasks[h := t.(pc := if t.pc.SpawnLeaf? then SpawnLaunched else Relaunched,
                               pid := c.pid, launches := t.launches + 1,
                               first := if t.launches == 0 then c.pid else t.first,
                               born := if t.launches == 0 then now else t.born)];
      } else {
        leaves := leaves - {h};
        tasks := tasks[h := t.(pc := Done)];
      }
    }

    /** Lines 195-205: the first row. */
    method InsertRow(h: Handle, c: Choice)
      requires h in tasks && tasks[h].pc.SpawnLaunched?
      modifies this
      ensures View() == ApplyOwn(old(View()), h, c)
    {
      var t := Counted(tasks[h]);
      WithSlotFields(View(), h, OwnSlot(SlotOf(View(), h), h, now, shutdown, c));
      procs := procs[h := Entry(t.pid, Running, 0, true)];
      tasks := tasks[h := t.(pc := SpawnInserted)];
    }

    /** Lines 206 and 383: `persist`. */
    method Persist(h: Handle, c: Choice)
      requires h in tasks && (tasks[h].pc.SpawnInserted? || tasks[h].pc.Published?)
      modifies this, store
      ensures View() == ApplyOwn(old(View()), h, c)
    {
      var t := Counted(tasks[h]);
      WithSlotFields(View(), h, OwnSlot(SlotOf(View(), h), h, now, shutdown, c));
      store.Put(h, RecordOf(t.spec, t.pid, Running));
      tasks := tasks[h := t.(pc := Starting)];
    }

    /** Line 314: the top of the loop. */
    method StartClock(h: Handle, c: Choice)
      requires h in tasks && tasks[h].pc.Starting?
      modifies this
      ensures View() == ApplyOwn(old(View()), h, c)
    {
      var t := Counted(tasks[h]);
      WithSlotFields(View(), h, OwnSlot(SlotOf(View(), h), h, now, shutdown, c));
      tasks := tasks[h := t.(pc := Waiting(now))];
    }

    /** Line 315: the child is reaped. */
    method Wait(h: Handle, c: Choice)
      requires h in tasks && tasks[h].pc.Waiting?
      modifies this
      ensures View() == ApplyOwn(old(View()), h, c)
    {
      var t := Counted(tasks[h]);
      WithSlotFields(View(), h, OwnSlot(SlotOf(View(), h), h, now, shutdown, c));
      children := set k | k in children && (k.handle != h || k.launch != t.launches);
      tasks := tasks[h := t.(pc := Reaped(t.pc.started, c.code))];
    }

    /** Lines 317-319: the exit in the table. */
    method RecordExit(h: Handle, c: Choice)
      requires h in tasks && tasks[h].pc.Reaped?
      modifies this
      ensures View() == ApplyOwn(old(View()), h, c)
    {
      var t := Counted(tasks[h]);
      WithSlotFields(View(), h, OwnSlot(SlotOf(View(), h), h, now, shutdown, c));
      if h in procs {
        procs := procs[h := procs[h].(status := Exited(t.pc.code))];
      }
      tasks := tasks[h := t.(pc := Recorded(t.pc.started, t.pc.code))];
    }

    /** Lines 320-324: the exit on disk. */
    method PersistExit(h: Handle, c: Choice)
      requires h in tasks && tasks[h].pc.Recorded?
      modifies this, store
      ensures View() == ApplyOwn(old(View()), h, c)
    {
      var t := Counted(tasks[h]);
      WithSlotFields(View(), h, OwnSlot(SlotOf(View(), h), h, now, shutdown, c));
      store.SetStatus(h, Exited(t.pc.code));
      tasks := tasks[h := t.(pc := Persisted(t.pc.started, t.pc.code))];
    }

    /** Lines 325-327. */
    method RemoveLeaf(h: Handle, c: Choice)
      requires h in tasks && tasks[h].pc.Persisted?
      modifies this
      ensures View() == ApplyOwn(old(View()), h, c)
    {
      var t := Counted(tasks[h]);
      WithSlotFields(View(), h, OwnSlot(SlotOf(View(), h), h, now, shutdown, c));
      leaves := leaves - {h};
      tasks := tasks[h := t.(pc := LeafGone(t.pc.started, t.pc.code))];
    }

    /** Lines 329 and 367: read `armed` under the lock, false when the row is gone. */
    method ReadArmed(h: Handle, c: Choice)
      requires h in tasks && (tasks[h].pc.LeafGone? || tasks[h].pc.Sleeping?)
      modifies this
      ensures View() == ApplyOwn(old(View()), h, c)
    {
      var t := Counted(tasks[h]);
      WithSlotFields(View(), h, OwnSlot(SlotOf(View(), h), h, now, shutdown, c));
      var armed := h in procs && procs[h].armed;
      var pc := if t.pc.LeafGone? then Checked(t.pc.started, t.pc.code, armed) else Rechecked(armed);
      tasks := tasks[h := t.(pc := pc)];
    }

    /** Lines 330-335 and 368-370: read the shutdown flag and give up or go on. */
    method CheckShutdown(h: Handle, c: Choice)
      requires h in tasks && (tasks[h].pc.Checked? || tasks[h].pc.Rechecked?)
      modifies this
      ensures View() == ApplyOwn(old(View()), h, c)
    {
      var t := Counted(tasks[h]);
      WithSlotFields(View(), h, OwnSlot(SlotOf(View(), h), h, now, shutdown, c));
      if shutdown || !t.pc.armed || (t.pc.Checked? && !ShouldRestart(t.spec.policy, t.pc.code)) {
        tasks := tasks[h := t.(pc := Done)];
      } else {
        tasks := tasks[h := t.(pc := if t.pc.Checked? then Deciding(t.pc.started) else Launching)];
      }
    }

    /** Lines 338-360: the attempt counter, the cap and the delay. */
    method CountAttempt(h: Handle, c: Choice)
      requires h in tasks && tasks[h].pc.Deciding?
      modifies this
      ensures View() == ApplyOwn(old(View()), h, c)
    {
      var t := Counted(tasks[h]);
      WithSlotFields(View(), h, OwnSlot(SlotOf(View(), h), h, now, shutdown, c));
      var uptime := if now >= t.pc.started then now - t.pc.started else 0;
      var attempt := if uptime >= STABLE_RESET then 1 else t.attempt + 1;
      var stables := if uptime >= STABLE_RESET then t.stables + 1 else t.stables;
      var pc := if t.spec.maxRetries != 0 && attempt > t.spec.maxRetries then Done else Sleeping(now + Delay(attempt));
      tasks := tasks[h := t.(attempt := attempt, stables := stables, pc := pc)];
    }

    /** Lines 375-381: update the row if it is still there. */
    method PublishRelaunch(h: Handle, c: Choice)
      requires h in tasks && tasks[h].pc.Relaunched?
      modifies this
      ensures View() == ApplyOwn(old(View()), h, c)
    {
      var t := Counted(tasks[h]);
      WithSlotFields(View(), h, OwnSlot(SlotOf(View(), h), h, now, shutdown, c));
      if h in procs {
        var e := procs[h];
        procs := procs[h := e.(pid := t.pid, status := Running, restarts := e.restarts + 1)];
        tasks := tasks[h := t.(pc := Published)];
      } else {
        tasks := tasks[h := t.(pc := Published, orphaned := true)];
      }
    }

    // -------------------------------------------------------------- client calls

    /** `stop`, lines 442-456. The second result is the pid to terminate, if any. */
    method Stop(h: Handle) returns (r: Result<Option<Pid>, ControlError>)
      requires Inv(View())
      modifies this
      ensures View() == ApplyStop(old(View()), h) && Inv(View())
      ensures r == if h !in old(procs) then Err(NotFound(h))
                   else if old(procs[h]).status.Running? then Ok(Some(old(procs[h]).pid)) else Ok(None)
    {
      StopKeepsInv(View(), h);
      if h !in procs {
        return Err(NotFound(h));
      }
      WithSlotFields(View(), h, SlotOf(View(), h).(entry := Disarm(SlotOf(View(), h).entry)));
      var e := procs[h];
      procs := procs[h := e.(armed := false)];
      if e.status.Running? {
        ops := ops[nextOp := Signalling(h, e.pid, if h in tasks then tasks[h].launches else 0)];
        nextOp := nextOp + 1;
        return Ok(Some(e.pid));
      }
      r := Ok(None);
    }

    /** `forget`, lines 557-566: the row. */
    method ForgetRow(h: Handle) returns (r: Result<nat, ControlError>)
      requires Inv(View())
      modifies this
      ensures View() == ApplyForget(old(View()), h) && Inv(View())
      ensures r.Ok? <==> h in old(procs) && !old(procs[h]).status.Running?
      ensures r.Ok? ==> r.value == old(nextOp)
      ensures r.Err? ==>
        r.error == if h !in old(procs) then NotFound(h) else BadRequest("cannot forget a running process")
    {
      ForgetKeepsInv(View(), h);
      if h !in procs {
        return Err(NotFound(h));
      }
      if procs[h].status.Running? {
        return Err(BadRequest("cannot forget a running process"));
      }
      WithSlotFields(View(), h, SlotOf(View(), h).(entry := None));
      procs := procs - {h};
      ops := ops[nextOp := Forgetting(h)];
      r := Ok(nextOp);
      nextOp := nextOp + 1;
    }

    /** Lines 463-484 and 568-572: the next section of a pending `terminate` or `forget`. */
    method Continue(o: nat) returns (sent: Delivery)
      requires Inv(View()) && o in ops
      modifies this, store
      ensures View() == ApplyOp(old(View()), o) && Inv(View())
      ensures sent == Sends(old(ops[o]), cgroups)
    {
      OpStepKeepsInv(View(), o);
      sent := Nothing;
      match ops[o] {
        case Signalling(h, pid, launch) =>
          sent := Term(pid);
          ops := ops[o := Terminating(h, pid, launch, now + stopDeadline)];
        case Terminating(h, pid, launch, _) =>
          if h in procs && procs[h].status.Running? {
            ops := ops[o := Escalating(h, pid, launch)];
          } else {
            ops := ops - {o};
          }
        case Escalating(h, pid, _) =>
          sent := if cgroups then KillLeaf(h) else KillGroup(pid);
          ops := ops - {o};
        case Forgetting(h) =>
          WithSlotFields(View(), h, SlotOf(View(), h).(record := None));
          store.Remove(h);
          ops := ops - {o};
      }
    }

    /**
     * `signal`, lines 487-507. The pid read under the lock is that of a published launch whose
     * exit is not recorded.
     */
    method Signal(h: Handle, sig: int, delivered: bool) returns (r: Result<Pid, ControlError>)
      requires Inv(View())
      ensures r == SignalReply(procs, h, sig, delivered)
      ensures r.Ok? ==> h in tasks && Live(tasks[h].pc) && r.value == tasks[h].pid
    {
      if h !in procs {
        return Err(NotFound(h));
      }
      if !procs[h].status.Running? {
        return Err(BadRequest("process is not running"));
      }
      assert SlotOk(SlotOf(View(), h), h, now, next);
      if !KnownSignal(sig) {
        return Err(BadRequest("invalid signal " + Decimal(sig)));
      }
      if !delivered {
        return Err(BadRequest("signal delivery failed"));
      }
      r := Ok(procs[h].pid);
    }

    /**
     * `snapshot`, lines 413-426: every row once, by ascending handle, with the live usage of the
     * running ones filled in afterwards.
     */
    method Snapshot(live: map<Handle, Usage>) returns (infos: seq<ProcInfo>)
      ensures IsSnapshot(infos, procs, live)
    {
      var rows := Listing(procs);
      infos := [];
      for i := 0 to |rows|
        invariant |infos| == i
        invariant forall k :: 0 <= k < i ==> infos[k] == InfoOf(rows[k].0, rows[k].1, live)
      {
        infos := infos + [InfoOf(rows[i].0, rows[i].1, live)];
      }
      ListsSize(rows, procs);
    }

    /** `kill_all`, line 582. */
    method BeginShutdown()
      requires Inv(View())
      modifies this
      ensures View() == old(View()).(shutdown := true) && Inv(View())
    {
      InvFrame(View(), View().(shutdown := true));
      shutdown := true;
    }

    /**
     * `kill_all`, lines 588-595: the pids of the rows that say Running, and so of published
     * launches without a recorded exit. Tombstones and exited rows are never chosen.
     */
    method RunningPids() returns (pids: seq<Pid>)
      requires Inv(View())
      ensures forall p :: p in pids <==> exists h :: h in procs && procs[h].status.Running? && procs[h].pid == p
      ensures forall p :: p in pids ==> exists h :: h in tasks && Live(tasks[h].pc) && tasks[h].pid == p
    {
      var rows := Listing(procs);
      pids := [];
      for i := 0 to |rows|
        invariant forall p :: p in pids <==> exists k :: 0 <= k < i && rows[k].1.status.Running? && rows[k].1.pid == p
      {
        if rows[i].1.status.Running? {
          pids := pids + [rows[i].1.pid];
        }
      }
      forall p | exists h :: h in procs && procs[h].status.Running? && procs[h].pid == p
        ensures p in pids
      {
        var h :| h in procs && procs[h].status.Running? && procs[h].pid == p;
        var k :| 0 <= k < |rows| && rows[k].0 == h;
      }
      forall p | p in pids
        ensures exists h :: h in tasks && Live(tasks[h].pc) && tasks[h].pid == p
        ensures exists h :: h in procs && procs[h].status.Running? && procs[h].pid == p
      {
        var k :| 0 <= k < |rows| && rows[k].1.status.Running? && rows[k].1.pid == p;
        var h := rows[k].0;
        assert h in procs && procs[h] == rows[k].1;
        assert SlotOk(SlotOf(View(), h), h, now, next);
      }
    }

    // -------------------------------------------------------------- schedules

    /** The region of `spawn` or `supervise` the task of `h` has reached. */
    method Advance(h: Handle, c: Choice)
      requires Inv(View()) && Enabled(View(), Own(h, c))
      modifies this, store
      ensures View() == ApplyOwn(old(View()), h, c) && Inv(View())
    {
      OwnKeepsInv(View(), h, c);
      match tasks[h].pc {
        case Reserved => CreateLeaf(h, c);
        case SpawnLeaf => SpawnChild(h, c);
        case SpawnLaunched => InsertRow(h, c);
        case SpawnInserted => Persist(h, c);
        case Starting => StartClock(h, c);
        case Waiting(_) => Wait(h, c);
        case Reaped(_, _) => RecordExit(h, c);
        case Recorded(_, _) => PersistExit(h, c);
        case Persisted(_, _) => RemoveLeaf(h, c);
        case LeafGone(_, _) => ReadArmed(h, c);
        case Checked(_, _, _) => CheckShutdown(h, c);
        case Deciding(_) => CountAttempt(h, c);
        case Sleeping(_) => ReadArmed(h, c);
        case Rechecked(_) => CheckShutdown(h, c);
        case Launching => CreateLeaf(h, c);
        case RelaunchLeaf => SpawnChild(h, c);
        case Relaunched => PublishRelaunch(h, c);
        case Published => Persist(h, c);
      }
    }

    /** Any step within a lifetime, by the method that implements it. */
    method Take(step: Step)
      requires Inv(View()) && Enabled(View(), step) && !step.Crash?
      modifies this, store
      ensures View() == Apply(old(View()), step) && Inv(View())
    {
      match step {
        case Reserve(spec) => var _ := Reserve(spec);
        case Own(h, c) => Advance(h, c);
        case StopCall(h) => var _ := Stop(h);
        case ForgetCall(h) => var _ := ForgetRow(h);
        case OpStep(o) => var _ := Continue(o);
        case SetShutdown => BeginShutdown();
        case ForceDown =>
          ForceDownKeepsInv(View());
          leaves := {};
        case Elapse(dt) =>
          InvFrame(View(), View().(now := View().now + dt));
          now := now + dt;
      }
    }

    /** Any schedule within a lifetime takes this object where it takes the machine. */
    method Execute(schedule: seq<Step>)
      requires Inv(View()) && ValidRun(View(), schedule) && CrashFree(schedule)
      modifies this, store
      ensures View() == Run(old(View()), schedule) && Inv(View())
    {
      var rest := schedule;
      while rest != []
        invariant Inv(View()) && ValidRun(View(), rest) && CrashFree(rest)
        invariant Run(View(), rest) == Run(old(View()), schedule)
        decreases |rest|
      {
        Take(rest[0]);
        rest := rest[1..];
      }
    }
  }

  /** A restart after a crash: load the store into a new object. */
  method Restart(pm: ProcessManager) returns (fresh': ProcessManager)
    ensures fresh(fresh') && fresh'.store == pm.store
    ensures fresh'.View() == Apply(pm.View(), Crash) && Inv(fresh'.View())
  {
    var rows, nextHandle := pm.store.Load();
    fresh' := new ProcessManager.WithStore(
      pm.store, rows, nextHandle, pm.cgroups, pm.stopDeadline, pm.now, pm.life + 1);
  }
}
