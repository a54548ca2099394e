/**
 * `pipe_stdin` under concurrency (src/process.rs:509-543). Each launch has its own stdin lock;
 * a call clones the lock the row holds, waits for it, copies under it and closes the pipe, also
 * when the copy fails because the connection or the child has gone. Only a call whose future is
 * dropped in the middle of its copy releases the lock without closing the pipe.
 */
module StdinPipe {
  import opened Protocol
  import Lifecycle

  type Client = nat
  type Bytes = seq<bv8>

  /** A launch's pipe; `writers` lists, as history, the calls that have acquired it open. */
  datatype Pipe = Pipe(open: bool, holder: Option<Client>, got: Bytes, writers: seq<Client>)

  datatype Stage = Cloned | Copying | Acked | Broken | Refused | Dropped

  datatype Call = Call(launch: nat, stage: Stage, input: Bytes, sent: nat)

  /** One handle: the launch whose lock its row holds, every pipe made, every call begun. */
  datatype Pipes = Pipes(current: Option<nat>, pipes: seq<Pipe>, calls: map<Client, Call>)

  datatype Step =
    | Publish(open: bool)              // a row with a new lock; closed for a tombstone
    | ForgetRow
    | Begin(c: Client, input: Bytes)   // 517-523
    | Acquire(c: Client)               // 525-528
    | Copy(c: Client, n: nat)          // 530, one chunk
    | Finish(c: Client, ok: bool)      // 531-541
    | Drop(c: Client)                  // the future is dropped

  predicate At(s: Pipes, c: Client, stage: Stage) {
    c in s.calls && s.calls[c].stage == stage && s.calls[c].launch < |s.pipes|
  }

  predicate Enabled(s: Pipes, step: Step) {
    match step
    case Publish(_) => true
    case ForgetRow => true
    case Begin(c, _) => c !in s.calls && (s.current.Some? ==> s.current.value < |s.pipes|)
    case Acquire(c) => At(s, c, Cloned) && s.pipes[s.calls[c].launch].holder.None?
    case Copy(c, n) => At(s, c, Copying) && s.calls[c].sent + n <= |s.calls[c].input|
    case Finish(c, ok) => At(s, c, Copying) && (ok ==> s.calls[c].sent == |s.calls[c].input|)
    case Drop(c) => At(s, c, Cloned) || At(s, c, Copying)
  }

  function SetPipe(s: Pipes, l: nat, p: Pipe): Pipes
    requires l < |s.pipes|
  {
    s.(pipes := s.pipes[l := p])
  }

  function Apply(s: Pipes, step: Step): Pipes
    requires Enabled(s, step)
  {
    match step
    case Publish(open) =>
      Pipes(if s.current.Some? || s.pipes == [] then Some(|s.pipes|) else None,
            s.pipes + [Pipe(open, None, [], [])], s.calls)
    case ForgetRow => s.(current := None)
    case Begin(c, input) =>
      if s.current.None? then s
      else s.(calls := s.calls[c := Call(s.current.value, Cloned, input, 0)])
    case Acquire(c) =>
      var k := s.calls[c];
      var p := s.pipes[k.launch];
      if p.open then
        SetPipe(s, k.launch, p.(holder := Some(c), writers := p.writers + [c]))
          .(calls := s.calls[c := k.(stage := Copying)])
      else
        s.(calls := s.calls[c := k.(stage := Refused)])
    case Copy(c, n) =>
      var k := s.calls[c];
      var p := s.pipes[k.launch];
      SetPipe(s, k.launch, p.(got := p.got + k.input[k.sent..k.sent + n]))
        .(calls := s.calls[c := k.(sent := k.sent + n)])
    case Finish(c, ok) =>
      var k := s.calls[c];
      var p := s.pipes[k.launch];
      SetPipe(s, k.launch, p.(open := false, holder := None))
        .(calls := s.calls[c := k.(stage := if ok then Acked else Broken)])
    case Drop(c) =>
      var k := s.calls[c];
      var p := s.pipes[k.launch];
      (if k.stage == Copying then SetPipe(s, k.launch, p.(holder := None)) else s)
        .(calls := s.calls[c := k.(stage := Dropped)])
  }

  ghost predicate ValidRun(s: Pipes, steps: seq<Step>)
    decreases |steps|
  {
    steps == [] || (Enabled(s, steps[0]) && ValidRun(Apply(s, steps[0]), steps[1..]))
  }

  ghost function Run(s: Pipes, steps: seq<Step>): Pipes
    requires ValidRun(s, steps)
    decreases |steps|
  {
    if steps == [] then s else Run(Apply(s, steps[0]), steps[1..])
  }

  const START := Pipes(None, [], map[])

  // ---------------------------------------------------------------- invariant

  /** What the calls in `ws` have sent, one after the other. */
  function Sent(calls: map<Client, Call>, ws: seq<Client>): Bytes
    requires forall c :: c in ws ==> c in calls && calls[c].sent <= |calls[c].input|
    decreases |ws|
  {
    if ws == [] then []
    else
      var k := calls[ws[|ws| - 1]];
      Sent(calls, ws[..|ws| - 1]) + k.input[..k.sent]
  }

  predicate CallOk(s: Pipes, c: Client)
    requires c in s.calls
  {
    var k := s.calls[c];
    && k.launch < |s.pipes| && k.sent <= |k.input|
    && (c in s.pipes[k.launch].writers ==> k.stage in {Copying, Acked, Broken, Dropped})
    && (c !in s.pipes[k.launch].writers ==> k.sent == 0 && k.stage in {Cloned, Refused, Dropped})
    && (k.stage == Acked ==> k.sent == |k.input|)
  }

  /** A lock's holder is its last writer; the writers before it were dropped. */
  predicate PipeOk(s: Pipes, l: nat)
    requires l < |s.pipes|
  {
    var p := s.pipes[l];
    var last := |p.writers| - 1;
    && (forall c :: c in p.writers ==> c in s.calls && s.calls[c].launch == l && s.calls[c].sent <= |s.calls[c].input|)
    && (forall i :: 0 <= i < last ==> s.calls[p.writers[i]].stage == Dropped)
    && (p.holder.Some? ==> p.open && last >= 0 && p.writers[last] == p.holder.value)
    && (last >= 0 ==> (s.calls[p.writers[last]].stage == Copying <==> p.holder.Some?))
    && (last >= 0 && s.calls[p.writers[last]].stage in {Acked, Broken} ==> !p.open)
    && p.got == Sent(s.calls, p.writers)
  }

  ghost predicate Inv(s: Pipes) {
    && (s.current.Some? ==> s.current.value < |s.pipes|)
    && (forall c :: c in s.calls ==> CallOk(s, c))
    && (forall l: nat :: l < |s.pipes| ==> PipeOk(s, l))
  }

  lemma {:induction false} SentFrame(calls: map<Client, Call>, calls': map<Client, Call>, ws: seq<Client>)
    requires forall c :: c in ws ==> c in calls && calls[c].sent <= |calls[c].input|
    requires forall c :: c in ws ==> c in calls' && calls'[c].input == calls[c].input && calls'[c].sent == calls[c].sent
    ensures Sent(calls', ws) == Sent(calls, ws)
    decreases |ws|
  {
    if ws != [] {
      SentFrame(calls, calls', ws[..|ws| - 1]);
    }
  }

  /** A pipe no step touches, whose writers' calls have not changed. */
  lemma PipeFrame(s: Pipes, s': Pipes, l: nat)
    requires l < |s.pipes| && l < |s'.pipes| && s'.pipes[l] == s.pipes[l] && PipeOk(s, l)
    requires forall c :: c in s.pipes[l].writers ==> c in s'.calls && s'.calls[c] == s.calls[c]
    ensures PipeOk(s', l)
  {
    SentFrame(s.calls, s'.calls, s.pipes[l].writers);
  }

  lemma OthersKept(s: Pipes, s': Pipes, c: Client)
    requires Inv(s) && c in s.calls && c in s'.calls && s'.calls == s.calls[c := s'.calls[c]]
    requires s'.calls[c].launch == s.calls[c].launch && |s'.pipes| == |s.pipes|
    requires forall l: nat :: l < |s.pipes| && l != s.calls[c].launch ==> s'.pipes[l] == s.pipes[l]
    requires s'.pipes[s.calls[c].launch].writers == s.pipes[s.calls[c].launch].writers
             || s'.pipes[s.calls[c].launch].writers == s.pipes[s.calls[c].launch].writers + [c]
    requires CallOk(s', c) && PipeOk(s', s.calls[c].launch) && s'.current == s.current
    ensures Inv(s')
  {
    forall l: nat | l < |s'.pipes|
      ensures PipeOk(s', l)
    {
      assert PipeOk(s, l);
      if l != s.calls[c].launch {
        assert c !in s.pipes[l].writers;
        PipeFrame(s, s', l);
      }
    }
    forall d | d in s'.calls
      ensures CallOk(s', d)
    {
      if d != c {
        assert CallOk(s, d);
      }
    }
  }

  /** Writers before the last are not the call that is copying. */
  lemma LastWriter(s: Pipes, c: Client)
    requires Inv(s) && At(s, c, Copying)
    ensures
      var p := s.pipes[s.calls[c].launch];
      && (forall d :: d in p.writers ==> d in s.calls && s.calls[d].sent <= |s.calls[d].input|)
      && p.holder == Some(c) && p.open && |p.writers| > 0 && p.writers[|p.writers| - 1] == c
      && c !in p.writers[..|p.writers| - 1]
      && p.got == Sent(s.calls, p.writers[..|p.writers| - 1]) + s.calls[c].input[..s.calls[c].sent]
  {
    assert CallOk(s, c) && PipeOk(s, s.calls[c].launch);
    var p := s.pipes[s.calls[c].launch];
    var i :| 0 <= i < |p.writers| && p.writers[i] == c;
  }

  /** A new writer has sent nothing yet. */
  lemma NewWriterSentNothing(calls: map<Client, Call>, calls': map<Client, Call>, ws: seq<Client>, c: Client)
    requires forall d :: d in ws ==> d in calls && calls[d].sent <= |calls[d].input|
    requires c in calls && c !in ws && calls[c].sent == 0
    requires c in calls' && calls' == calls[c := calls'[c]] && calls'[c].sent == 0
    ensures forall d :: d in ws + [c] ==> d in calls' && calls'[d].sent <= |calls'[d].input|
    ensures Sent(calls', ws + [c]) == Sent(calls, ws)
  {
    SentFrame(calls, calls', ws);
    assert (ws + [c])[..|ws|] == ws && (ws + [c])[|ws|] == c;
    assert calls'[c].input[..0] == [];
  }

  /** Whoever had an open pipe that nobody holds was dropped. */
  lemma FreeAndOpen(s: Pipes, l: nat, c: Client)
    requires Inv(s) && l < |s.pipes| && s.pipes[l].open && s.pipes[l].holder.None? && c in s.pipes[l].writers
    ensures c in s.calls && s.calls[c].stage == Dropped
  {
    assert PipeOk(s, l);
    var i :| 0 <= i < |s.pipes[l].writers| && s.pipes[l].writers[i] == c;
    assert CallOk(s, c);
  }

  lemma AcquireOpen(s: Pipes, c: Client)
    requires Inv(s) && Enabled(s, Acquire(c)) && s.pipes[s.calls[c].launch].open
    ensures PipeOk(Apply(s, Acquire(c)), s.calls[c].launch)
  {
    var l := s.calls[c].launch;
    var s', ws := Apply(s, Acquire(c)), s.pipes[l].writers;
    assert CallOk(s, c) && PipeOk(s, l);
    NewWriterSentNothing(s.calls, s'.calls, ws, c);
    forall i | 0 <= i < |ws|
      ensures s'.calls[s'.pipes[l].writers[i]].stage == Dropped
    {
      FreeAndOpen(s, l, ws[i]);
      assert s'.pipes[l].writers[i] == ws[i];
    }
  }

  lemma AcquireKeepsInv(s: Pipes, c: Client)
    requires Inv(s) && Enabled(s, Acquire(c))
    ensures Inv(Apply(s, Acquire(c)))
  {
    var l := s.calls[c].launch;
    assert CallOk(s, c) && PipeOk(s, l) && c !in s.pipes[l].writers;
    if s.pipes[l].open {
      AcquireOpen(s, c);
    } else {
      PipeFrame(s, Apply(s, Acquire(c)), l);
    }
    OthersKept(s, Apply(s, Acquire(c)), c);
  }

  /** The last writer sends a chunk more. */
  lemma LastSendsMore(calls: map<Client, Call>, ws: seq<Client>, n: nat)
    requires forall c :: c in ws ==> c in calls && calls[c].sent <= |calls[c].input|
    requires ws != [] && ws[|ws| - 1] !in ws[..|ws| - 1]
    requires
      var k := calls[ws[|ws| - 1]];
      k.sent + n <= |k.input|
    ensures
      var c := ws[|ws| - 1];
      var k := calls[c];
      var calls' := calls[c := k.(sent := k.sent + n)];
      && (forall d :: d in ws ==> d in calls' && calls'[d].sent <= |calls'[d].input|)
      && Sent(calls', ws) == Sent(calls, ws) + k.input[k.sent..k.sent + n]
  {
    var c := ws[|ws| - 1];
    var k := calls[c];
    SentFrame(calls, calls[c := k.(sent := k.sent + n)], ws[..|ws| - 1]);
    assert k.input[..k.sent + n] == k.input[..k.sent] + k.input[k.sent..k.sent + n];
  }

  lemma CopyExtends(s: Pipes, c: Client, n: nat)
    requires Inv(s) && Enabled(s, Copy(c, n))
    ensures PipeOk(Apply(s, Copy(c, n)), s.calls[c].launch)
  {
    assert PipeOk(s, s.calls[c].launch);
    LastWriter(s, c);
    LastSendsMore(s.calls, s.pipes[s.calls[c].launch].writers, n);
  }

  lemma CopyKeepsInv(s: Pipes, c: Client, n: nat)
    requires Inv(s) && Enabled(s, Copy(c, n))
    ensures Inv(Apply(s, Copy(c, n)))
  {
    assert CallOk(s, c) && PipeOk(s, s.calls[c].launch);
    CopyExtends(s, c, n);
    LastWriter(s, c);
    OthersKept(s, Apply(s, Copy(c, n)), c);
  }

  /** The holder leaves its pipe. */
  lemma HolderLeaves(s: Pipes, step: Step)
    requires Inv(s) && (step.Finish? || step.Drop?) && Enabled(s, step) && At(s, step.c, Copying)
    ensures PipeOk(Apply(s, step), s.calls[step.c].launch)
  {
    assert PipeOk(s, s.calls[step.c].launch);
    LastWriter(s, step.c);
    SentFrame(s.calls, Apply(s, step).calls, s.pipes[s.calls[step.c].launch].writers);
  }

  lemma LeaveKeepsInv(s: Pipes, step: Step)
    requires Inv(s) && (step.Finish? || step.Drop?) && Enabled(s, step)
    ensures Inv(Apply(s, step))
  {
    var l := s.calls[step.c].launch;
    assert CallOk(s, step.c) && PipeOk(s, l);
    if At(s, step.c, Copying) {
      HolderLeaves(s, step);
      LastWriter(s, step.c);
    } else {
      PipeFrame(s, Apply(s, step), l);
    }
    OthersKept(s, Apply(s, step), step.c);
  }

  lemma RowsKeepInv(s: Pipes, step: Step)
    requires Inv(s) && (step.Publish? || step.ForgetRow? || step.Begin?) && Enabled(s, step)
    ensures Inv(Apply(s, step))
  {
    var s' := Apply(s, step);
    forall l: nat | l < |s'.pipes|
      ensures PipeOk(s', l)
    {
      if l < |s.pipes| {
        assert PipeOk(s, l);
        PipeFrame(s, s', l);
      }
    }
    forall c | c in s'.calls
      ensures CallOk(s', c)
    {
      if c in s.calls {
        assert CallOk(s, c);
      } else {
        assert PipeOk(s, s'.calls[c].launch);
      }
    }
  }

  lemma StepKeepsInv(s: Pipes, step: Step)
    requires Inv(s) && Enabled(s, step)
    ensures Inv(Apply(s, step))
  {
    match step
    case Acquire(c) => AcquireKeepsInv(s, c);
    case Copy(c, n) => CopyKeepsInv(s, c, n);
    case Finish(_, _) => LeaveKeepsInv(s, step);
    case Drop(_) => LeaveKeepsInv(s, step);
    case _ => RowsKeepInv(s, step);
  }

  lemma {:induction false} RunKeepsInv(s: Pipes, steps: seq<Step>)
    requires Inv(s) && ValidRun(s, steps)
    ensures Inv(Run(s, steps))
    decreases |steps|
  {
    if steps != [] {
      StepKeepsInv(s, steps[0]);
      RunKeepsInv(Apply(s, steps[0]), steps[1..]);
    }
  }

  // ---------------------------------------------------------------- theorems

  /** The call got hold of its launch's open pipe. */
  predicate Wrote(s: Pipes, c: Client) {
    c in s.calls && s.calls[c].launch < |s.pipes| && c in s.pipes[s.calls[c].launch].writers
  }

  /**
   * Stdin is exclusive. What a launch received is what the calls that acquired its pipe sent,
   * in order; a call that never acquired it sent nothing; and every acquirer but the last was
   * dropped.
   */
  lemma ReceivedInOrder(steps: seq<Step>, l: nat)
    requires ValidRun(START, steps) && l < |Run(START, steps).pipes|
    ensures
      var s := Run(START, steps);
      var p := s.pipes[l];
      && (forall c :: c in p.writers ==>
            c in s.calls && s.calls[c].launch == l && s.calls[c].sent <= |s.calls[c].input|)
      && p.got == Sent(s.calls, p.writers)
      && (forall c :: c in s.calls && s.calls[c].launch == l && c !in p.writers ==> s.calls[c].sent == 0)
      && (forall i :: 0 <= i < |p.writers| - 1 ==> s.calls[p.writers[i]].stage == Dropped)
  {
    RunKeepsInv(START, steps);
    var s := Run(START, steps);
    assert PipeOk(s, l);
    forall c | c in s.calls && s.calls[c].launch == l && c !in s.pipes[l].writers
      ensures s.calls[c].sent == 0
    {
      assert CallOk(s, c);
    }
  }

  /** The call ends with this answer at some step of the run. */
  predicate Ends(steps: seq<Step>, c: Client, ok: bool) {
    Finish(c, ok) in steps
  }

  lemma {:induction false} AnswersFrom(s: Pipes, steps: seq<Step>, c: Client)
    requires ValidRun(s, steps) && c in s.calls
    ensures c in Run(s, steps).calls
    ensures Run(s, steps).calls[c].stage == Acked <==> s.calls[c].stage == Acked || Ends(steps, c, true)
    ensures Run(s, steps).calls[c].stage == Broken <==> s.calls[c].stage == Broken || Ends(steps, c, false)
    ensures Run(s, steps).calls[c].input == s.calls[c].input && Run(s, steps).calls[c].launch == s.calls[c].launch
    decreases |steps|
  {
    if steps != [] {
      AnswersFrom(Apply(s, steps[0]), steps[1..], c);
      assert steps == [steps[0]] + steps[1..];
    }
  }

  lemma {:induction false} AnswersSince(s: Pipes, steps: seq<Step>, c: Client)
    requires ValidRun(s, steps) && c !in s.calls && c in Run(s, steps).calls
    ensures Run(s, steps).calls[c].stage == Acked <==> Ends(steps, c, true)
    ensures Run(s, steps).calls[c].stage == Broken <==> Ends(steps, c, false)
    decreases |steps|
  {
    if steps != [] {
      assert steps == [steps[0]] + steps[1..];
      if c in Apply(s, steps[0]).calls {
        AnswersFrom(Apply(s, steps[0]), steps[1..], c);
      } else {
        AnswersSince(Apply(s, steps[0]), steps[1..], c);
      }
    }
  }

  /**
   * What a call is answered: it is acknowledged exactly when its stream came to its end, and
   * then it has sent all of it; it is answered with an error exactly when its copy broke; and
   * a refused call has sent nothing.
   */
  lemma AnswerIff(steps: seq<Step>, c: Client)
    requires ValidRun(START, steps) && c in Run(START, steps).calls
    ensures
      var k := Run(START, steps).calls[c];
      && (k.stage == Acked <==> Finish(c, true) in steps)
      && (k.stage == Broken <==> Finish(c, false) in steps)
      && (k.stage == Acked ==> k.sent == |k.input|)
      && (k.stage == Refused || k.stage == Cloned ==> k.sent == 0)
  {
    AnswersSince(START, steps, c);
    RunKeepsInv(START, steps);
    assert CallOk(Run(START, steps), c);
  }

  /** A call waits for the pipe of the launch its row showed when it began, and finds it open or is refused. */
  lemma CallGoesToTheRow(s: Pipes, c: Client, input: Bytes)
    requires Inv(s) && c !in s.calls && s.current.Some?
    ensures Enabled(s, Begin(c, input))
    ensures
      var l, s' := s.current.value, Apply(s, Begin(c, input));
      && c in s'.calls && s'.calls[c] == Call(l, Cloned, input, 0) && s'.pipes == s.pipes
      && (Enabled(s', Acquire(c)) <==> s.pipes[l].holder.None?)
      && (s.pipes[l].holder.None? ==>
            Apply(s', Acquire(c)).calls[c].stage == if s.pipes[l].open then Copying else Refused)
  {
  }

  /** A relaunch brings a new pipe, and calls from then on go to it. */
  lemma RelaunchBringsPipe(s: Pipes, open: bool)
    requires Inv(s) && s.current.Some?
    ensures
      var s' := Apply(s, Publish(open));
      && s'.current == Some(|s.pipes|) && |s'.pipes| == |s.pipes| + 1
      && s'.pipes[..|s.pipes|] == s.pipes && s'.pipes[|s.pipes|] == Pipe(open, None, [], []) && s'.calls == s.calls
  {
  }

  /** Once the row is forgotten, no call begins, and no relaunch changes that. */
  lemma ForgottenTakesNoCalls(s: Pipes, open: bool, c: Client, input: Bytes)
    requires Inv(s) && s.pipes != [] && c !in s.calls
    ensures
      var s1 := Apply(s, ForgetRow);
      var s2 := Apply(s1, Publish(open));
      && s1.current == None && s1.pipes == s.pipes && s1.calls == s.calls && s2.current == None
      && Apply(s1, Begin(c, input)) == s1 && Apply(s2, Begin(c, input)) == s2
  {
  }

  /** An acknowledged call that nobody shared its launch with was received in full, and nothing else was. */
  lemma AckedIsReceived(steps: seq<Step>, c: Client)
    requires ValidRun(START, steps) && Undropped(Run(START, steps), c) && Finish(c, true) in steps
    ensures
      var s := Run(START, steps);
      s.pipes[s.calls[c].launch].got == s.calls[c].input && !s.pipes[s.calls[c].launch].open
  {
    var s := Run(START, steps);
    OneWriterPerLaunch(steps, c);
    AnswerIff(steps, c);
    RunKeepsInv(START, steps);
    var p := s.pipes[s.calls[c].launch];
    assert PipeOk(s, s.calls[c].launch);
    var i :| 0 <= i < |p.writers| && p.writers[i] == c;
  }

  lemma SecondWriterFollowsDrop(s: Pipes, l: nat)
    requires l < |s.pipes| && PipeOk(s, l)
    ensures |s.pipes[l].writers| <= 1 || exists c :: c in s.pipes[l].writers && s.calls[c].stage == Dropped
  {
    var ws := s.pipes[l].writers;
    if |ws| > 1 {
      assert ws[0] in ws && s.calls[ws[0]].stage == Dropped;
    }
  }

  /** The call wrote to its launch, and nobody who did was dropped. */
  ghost predicate Undropped(s: Pipes, c: Client) {
    && Wrote(s, c)
    && forall e :: Wrote(s, e) && s.calls[e].launch == s.calls[c].launch ==> s.calls[e].stage != Dropped
  }

  /**
   * When no call on a launch was dropped after acquiring, at most one call ever wrote to it,
   * the launch received a prefix of that call's input, and every other call is refused or
   * still waiting.
   */
  lemma OneWriterPerLaunch(steps: seq<Step>, c: Client)
    requires ValidRun(START, steps) && Undropped(Run(START, steps), c)
    ensures
      var s := Run(START, steps);
      var l := s.calls[c].launch;
      && s.calls[c].sent <= |s.calls[c].input|
      && s.pipes[l].got == s.calls[c].input[..s.calls[c].sent]
      && (forall d :: d in s.calls && d != c && s.calls[d].launch == l ==>
            !Wrote(s, d) && s.calls[d].sent == 0 && s.calls[d].stage in {Cloned, Refused, Dropped})
  {
    RunKeepsInv(START, steps);
    var s := Run(START, steps);
    var l := s.calls[c].launch;
    var p := s.pipes[l];
    assert PipeOk(s, l) && CallOk(s, c);
    assert forall e :: e in p.writers ==> Wrote(s, e);
    SecondWriterFollowsDrop(s, l);
    assert p.writers == [c];
    assert Sent(s.calls, []) == [];
    assert p.got == [] + s.calls[c].input[..s.calls[c].sent];
    forall d | d in s.calls && d != c && s.calls[d].launch == l
      ensures !Wrote(s, d) && s.calls[d].sent == 0 && s.calls[d].stage in {Cloned, Refused, Dropped}
    {
      assert CallOk(s, d);
    }
  }

  /** Two calls write to one launch only if a call was dropped in the middle of copying. */
  lemma SecondWriterNeedsADrop(steps: seq<Step>, c: Client, d: Client)
    requires ValidRun(START, steps)
    requires
      var s := Run(START, steps);
      Wrote(s, c) && Wrote(s, d) && c != d && s.calls[c].launch == s.calls[d].launch
    ensures
      var s := Run(START, steps);
      s.calls[c].stage == Dropped || s.calls[d].stage == Dropped
  {
    RunKeepsInv(START, steps);
    var s := Run(START, steps);
    var p := s.pipes[s.calls[c].launch];
    assert PipeOk(s, s.calls[c].launch);
    var i :| 0 <= i < |p.writers| && p.writers[i] == c;
    var j :| 0 <= j < |p.writers| && p.writers[j] == d;
  }

  /** A launch whose first writer was dropped after one byte of two. */
  const ABANDONED := Pipes(Some(0), [Pipe(true, None, [1], [0])], map[0 := Call(0, Dropped, [1, 9], 1)])

  lemma AbandonedPipeGoesOn() returns (steps: seq<Step>)
    ensures ValidRun(ABANDONED, steps)
    ensures
      var s := Run(ABANDONED, steps);
      Wrote(s, 0) && Wrote(s, 1) && s.calls[0].launch == s.calls[1].launch && s.pipes[0].got == [1, 2]
  {
    var s1 := Apply(ABANDONED, Begin(1, [2]));
    var s2 := Apply(s1, Acquire(1));
    var s3 := Apply(s2, Copy(1, 1));
    assert s3.pipes[0].got == [1, 2] && s3.pipes[0].writers == [0, 1];
    steps := Before(s2, Copy(1, 1), [], s3);
    steps := Before(s1, Acquire(1), steps, s3);
    steps := Before(ABANDONED, Begin(1, [2]), steps, s3);
  }

  /** And it does happen: the second call follows the first, dropped in the middle of its copy. */
  lemma SecondWriterCanFollowADrop() returns (steps: seq<Step>)
    ensures ValidRun(START, steps)
    ensures
      var s := Run(START, steps);
      Wrote(s, 0) && Wrote(s, 1) && s.calls[0].launch == s.calls[1].launch && s.pipes[0].got == [1, 2]
  {
    var s1 := Apply(START, Publish(true));
    var s2 := Apply(s1, Begin(0, [1, 9]));
    var s3 := Apply(s2, Acquire(0));
    var s4 := Apply(s3, Copy(0, 1));
    assert s4.pipes[0].got == [1] && s4.pipes[0].writers == [0];
    assert Apply(s4, Drop(0)).pipes == ABANDONED.pipes && Apply(s4, Drop(0)).calls == ABANDONED.calls;
    steps := AbandonedPipeGoesOn();
    var end := Run(ABANDONED, steps);
    steps := Before(s4, Drop(0), steps, end);
    steps := Before(s3, Copy(0, 1), steps, end);
    steps := Before(s2, Acquire(0), steps, end);
    steps := Before(s1, Begin(0, [1, 9]), steps, end);
    steps := Before(START, Publish(true), steps, end);
  }

  lemma Before(s: Pipes, step: Step, rest: seq<Step>, end: Pipes) returns (steps: seq<Step>)
    requires Enabled(s, step) && ValidRun(Apply(s, step), rest) && Run(Apply(s, step), rest) == end
    ensures steps == [step] + rest && ValidRun(s, steps) && Run(s, steps) == end
  {
    steps := [step] + rest;
    assert steps[1..] == rest;
  }

  // ---------------------------------------------------------------- the next writer

  predicate DropFree(steps: seq<Step>) {
    forall i :: 0 <= i < |steps| ==> !steps[i].Drop?
  }

  /** A pipe somebody can still get hold of: open, free, and known to the row or to a waiting call. */
  ghost predicate UpForGrabs(s: Pipes, l: nat) {
    && l < |s.pipes| && s.pipes[l].open && s.pipes[l].holder.None?
    && (s.current == Some(l) || exists c :: At(s, c, Cloned) && s.calls[c].launch == l)
  }

  /** Without a drop from now on, some call still gets hold of the pipe. */
  ghost predicate GetsAnotherWriter(s: Pipes, l: nat)
    requires l < |s.pipes|
  {
    exists steps :: ValidRun(s, steps) && DropFree(steps) && GrewTo(s, Run(s, steps), l)
  }

  predicate GrewTo(s: Pipes, s': Pipes, l: nat)
    requires l < |s.pipes|
  {
    l < |s'.pipes| && |s'.pipes[l].writers| > |s.pipes[l].writers|
  }

  lemma StepKeepsTaken(s: Pipes, step: Step, l: nat)
    requires Inv(s) && l < |s.pipes| && !UpForGrabs(s, l)
    requires Enabled(s, step) && !step.Drop?
    ensures
      var s' := Apply(s, step);
      l < |s'.pipes| && !UpForGrabs(s', l) && s'.pipes[l].writers == s.pipes[l].writers
  {
    var s' := Apply(s, step);
    assert PipeOk(s, l);
    if step.Copy? || step.Finish? {
      LastWriter(s, step.c);
    }
    forall c | At(s', c, Cloned) && s'.calls[c].launch == l
      ensures (At(s, c, Cloned) && s.calls[c].launch == l) || s.current == Some(l)
    {
    }
  }

  lemma {:induction false} RunKeepsTaken(s: Pipes, steps: seq<Step>, l: nat)
    requires Inv(s) && l < |s.pipes| && !UpForGrabs(s, l)
    requires ValidRun(s, steps) && DropFree(steps)
    ensures l < |Run(s, steps).pipes| && Run(s, steps).pipes[l].writers == s.pipes[l].writers
    decreases |steps|
  {
    if steps != [] {
      StepKeepsTaken(s, steps[0], l);
      StepKeepsInv(s, steps[0]);
      RunKeepsTaken(Apply(s, steps[0]), steps[1..], l);
    }
  }

  lemma WaitingCallAcquires(s: Pipes, c: Client, l: nat) returns (steps: seq<Step>)
    requires Inv(s) && At(s, c, Cloned) && s.calls[c].launch == l && s.pipes[l].open && s.pipes[l].holder.None?
    ensures ValidRun(s, steps) && DropFree(steps) && GrewTo(s, Run(s, steps), l)
  {
    steps := Before(s, Acquire(c), [], Apply(s, Acquire(c)));
  }

  lemma NewCallAcquires(s: Pipes, l: nat) returns (steps: seq<Step>)
    requires Inv(s) && s.current == Some(l) && s.pipes[l].open && s.pipes[l].holder.None?
    ensures ValidRun(s, steps) && DropFree(steps) && GrewTo(s, Run(s, steps), l)
  {
    var c := Lifecycle.MaxHandle(s.calls.Keys) + 1;
    assert c !in s.calls;
    var step := Begin(c, []);
    StepKeepsInv(s, step);
    var rest := WaitingCallAcquires(Apply(s, step), c, l);
    steps := Before(s, step, rest, Run(Apply(s, step), rest));
  }

  /**
   * In every reachable state, and without any drop from there on, a further call gets hold of a
   * launch's pipe exactly when it is up for grabs: so after a drop exactly when the row still
   * holds that launch or a call on it is waiting.
   */
  lemma NextWriterIff(past: seq<Step>, l: nat)
    requires ValidRun(START, past) && l < |Run(START, past).pipes|
    ensures GetsAnotherWriter(Run(START, past), l) <==> UpForGrabs(Run(START, past), l)
  {
    var s := Run(START, past);
    RunKeepsInv(START, past);
    if UpForGrabs(s, l) {
      if s.current == Some(l) {
        var steps := NewCallAcquires(s, l);
      } else {
        var c :| At(s, c, Cloned) && s.calls[c].launch == l;
        var steps := WaitingCallAcquires(s, c, l);
      }
    } else {
      forall steps | ValidRun(s, steps) && DropFree(steps)
        ensures !GrewTo(s, Run(s, steps), l)
      {
        RunKeepsTaken(s, steps, l);
      }
    }
  }

  /** A closed pipe takes no byte ever again, whatever is published or called later. */
  lemma {:induction false} ClosedIsFrozen(s: Pipes, steps: seq<Step>, l: nat)
    requires Inv(s) && ValidRun(s, steps) && l < |s.pipes| && !s.pipes[l].open
    ensures l < |Run(s, steps).pipes| && Run(s, steps).pipes[l] == s.pipes[l]
    decreases |steps|
  {
    if steps != [] {
      var s1 := Apply(s, steps[0]);
      assert PipeOk(s, l);
      StepKeepsInv(s, steps[0]);
      if steps[0].Copy? || steps[0].Finish? || (steps[0].Drop? && At(s, steps[0].c, Copying)) {
        LastWriter(s, steps[0].c);
      }
      ClosedIsFrozen(s1, steps[1..], l);
    }
  }
}
