/** The session's request discipline, composed with the queue. */
module SessionTheorems {
  import opened Options
  import opened Bytes
  import opened LinearBuffer
  import opened LinearReading
  import opened WaitFreeQueue
  import opened QueueInvariant
  import opened QueueHistory
  import QueueTheorems
  import S = Session

  /** How many acquires are somewhere between request and finalisation. */
  function OpenAcquires(s: S.Session): nat {
    s.requests + (if s.switching then 1 else 0) + |s.responses|
    + (if s.dispatch.Delivering? then 1 else 0) + (if s.dataAcquired.Some? then 1 else 0)
  }

  predicate Finalising(w: S.Worker) {
    w.Checking? || w.Setting? || w.Clearing?
  }

  /** The single outstanding acquire, where it is, and the phase the queue is in meanwhile. */
  predicate Located(s: S.Session, c: Consumer) {
    && (s.requests > 0 ==> c == Requested)
    && (s.switching ==> Switching(c))
    && (s.responses != [] ==> c == Answered(s.responses[0]))
    && (s.dispatch.Delivering? ==> c == Answered(s.dispatch.c))
    && (s.dataAcquired.Some? && !Finalising(s.worker) ==> c == Answered(s.dataAcquired.value))
  }

  predicate WorkerInv(s: S.Session, c: Consumer) {
    match s.worker
    case Checking(d) =>
      && s.dataAcquired == Some(d)
      && (c == Answered(d) || c == FirstSawNoWriters(d) || (c.FirstLoadedWritten? && c.c == d))
    case Setting(d) =>
      && s.dataAcquired == Some(d)
      && (c == Confirmed(d) || c == SecondSawNoWriters(d) || (c.SecondLoadedWritten? && c.c == d) || c == Accepted(d))
    case Clearing(d) => s.dataAcquired == Some(d) && (c == Resting || (c.Draining? && c.c == d))
    case Reading(finalised) => finalised ==> OpenAcquires(s) == 0 && s.blockExpected.Some? && (c == Resting || c.Draining?)
    case Polling(finalised) => finalised ==> OpenAcquires(s) == 0 && s.blockExpected.Some?
    case Detaching(finalised) => finalised ==> OpenAcquires(s) == 0 && s.blockExpected.Some?
    case Emptying(finalised, _, _, _) => finalised ==> OpenAcquires(s) == 0 && s.blockExpected.Some?
    case Deciding(finalised, _) => finalised ==> OpenAcquires(s) == 0 && s.blockExpected.Some?
    case Requesting => OpenAcquires(s) == 0 && !s.acquireRequested
    case Notifying => OpenAcquires(s) == 0 && !s.acquireRequested
    case Closing(result) => !s.acquireRequested && (OpenAcquires(s) > 0 ==> result) && s.dataAcquired.None?
    case _ => true
  }

  /** The detached read happens once, in the tick that finds the peer closed, and ends the session's work. */
  predicate TailInv(s: S.Session) {
    && (s.detached ==> s.closed && (s.worker.Detaching? || s.worker.Emptying? || s.worker.Between?
                                    || (s.worker.Deciding? && s.worker.detach)))
    && (s.tail.Some? <==> s.detached && !s.worker.Detaching?)
    && (s.worker.Detaching? || s.worker.Emptying? || (s.worker.Deciding? && s.worker.detach) ==> s.detached)
  }

  predicate SessionInv(s: S.Session, c: Consumer) {
    && TailInv(s)
    && (s.dataAcquired.Some? ==> s.blockExpected.Some?)
    && OpenAcquires(s) <= 1
    && (OpenAcquires(s) == 1 ==> s.acquireRequested || s.worker == S.Closing(true))
    && (OpenAcquires(s) == 0 && !s.worker.Reading? ==> c == Resting)
    && (c.Draining? ==> s.worker.Clearing? || s.worker == S.Reading(true))
    && (OpenAcquires(s) == 0 ==> c == Resting || c.Draining?)
    && Located(s, c)
    && WorkerInv(s, c)
    && s.ticks <= S.MAX_IDLE_TICKS + 1
  }

  predicate SysInv(y: S.System) {
    Inv(y.q) && SessionInv(y.s, y.q.consumer)
  }

  // ----- Steps keep the invariant -----

  /** The phase after a step of the queue, as far as the session needs to know it. */
  lemma ConsumePhases(q: State)
    ensures var c, c' := q.consumer, ConsumeStep(q).consumer;
            && (c.Resting? ==> c' == Requested)
            && (c.Requested? ==> c'.SwitchLoaded?)
            && (Switching(c) ==> Switching(c') || c'.Answered?)
            && (c.Answered? ==> c' == c || c' == FirstSawNoWriters(c.c))
            && (c.FirstSawNoWriters? ==> c'.FirstLoadedWritten? && c'.c == c.c)
            && (c.FirstLoadedWritten? ==> c' == Confirmed(c.c) || c' == Answered(c.c))
            && (c.Confirmed? ==> c' == Resting || c' == SecondSawNoWriters(c.c))
            && (c.SecondSawNoWriters? ==> c'.SecondLoadedWritten? && c'.c == c.c)
            && (c.SecondLoadedWritten? ==> c' == Resting || c' == Accepted(c.c))
            && (c.Accepted? ==> c'.Draining? && c'.c == c.c)
            && (c.Draining? ==> c' == Resting || (c'.Draining? && c'.c == c.c))
  {
  }

  lemma FinaliseKeepsSession(y: S.System, outcome: S.Outcome)
    requires SessionInv(y.s, y.q.consumer) && (Finalising(y.s.worker) || y.s.worker.Reading?)
    ensures S.PhaseFits(y, S.Work(outcome))
    ensures var y' := S.WorkStep(y, outcome); SessionInv(y'.s, y'.q.consumer)
  {
    ConsumePhases(y.q);
    hide ConsumeStep;
  }

  lemma RequestKeepsSession(y: S.System, outcome: S.Outcome)
    requires SessionInv(y.s, y.q.consumer) && S.CanWork(y.s) && S.CommandHeldByWorker(y.s)
    ensures S.PhaseFits(y, S.Work(outcome))
    ensures var y' := S.WorkStep(y, outcome); SessionInv(y'.s, y'.q.consumer)
  {
    ConsumePhases(y.q);
    hide ConsumeStep;
  }

  predicate ClosingDown(w: S.Worker) { w.Polling? || w.Detaching? || w.Emptying? }

  lemma DetachKeepsSession(y: S.System, outcome: S.Outcome)
    requires SessionInv(y.s, y.q.consumer) && ClosingDown(y.s.worker)
    ensures S.PhaseFits(y, S.Work(outcome))
    ensures var y' := S.WorkStep(y, outcome); SessionInv(y'.s, y'.q.consumer)
  {
    hide ConsumeStep; hide S.Decide; hide S.Decided; hide ReadAt; hide Cropped;
  }

  lemma TickKeepsSession(y: S.System, outcome: S.Outcome)
    requires SessionInv(y.s, y.q.consumer)
    requires y.s.worker.Between? || y.s.worker.Peeking? || y.s.worker.Deciding?
    ensures S.PhaseFits(y, S.Work(outcome))
    ensures var y' := S.WorkStep(y, outcome); SessionInv(y'.s, y'.q.consumer)
  {
    hide ConsumeStep; hide S.Peek;
  }

  lemma DispatchKeepsSession(y: S.System)
    requires SessionInv(y.s, y.q.consumer) && S.CanDispatch(y.s)
    ensures SessionInv(S.DispatchStep(y.s), y.q.consumer)
  {
  }

  lemma ClientKeepsSession(y: S.System, p: S.Step)
    requires SessionInv(y.s, y.q.consumer) && (p.ClientStarts? || p.ClientSwitches?) && S.Enabled(y, p)
    ensures S.PhaseFits(y, p)
    ensures var y' := S.Apply(y, p); SessionInv(y'.s, y'.q.consumer)
  {
    ConsumePhases(y.q);
    hide ConsumeStep;
  }

  /** Writers and the peer's closing leave the session's bookkeeping alone. */
  lemma StepKeepsSession(y: S.System, p: S.Step)
    requires SessionInv(y.s, y.q.consumer) && S.Enabled(y, p)
    ensures S.PhaseFits(y, p)
    ensures var y' := S.Apply(y, p); SessionInv(y'.s, y'.q.consumer)
  {
    hide SessionInv; hide ConsumeStep; hide S.WorkStep; hide S.DispatchStep;
    match p
    case Write(a) => WriterKeepsPhase(y.q, a);
    case Work(outcome) =>
      if Finalising(y.s.worker) || y.s.worker.Reading? {
        FinaliseKeepsSession(y, outcome);
      } else if S.CommandHeldByWorker(y.s) {
        RequestKeepsSession(y, outcome);
      } else if ClosingDown(y.s.worker) {
        DetachKeepsSession(y, outcome);
      } else {
        TickKeepsSession(y, outcome);
      }
    case Dispatching => DispatchKeepsSession(y);
    case ClientStarts => ClientKeepsSession(y, p);
    case ClientSwitches => ClientKeepsSession(y, p);
    case CloseByPeer => FlagsKeepSession(y, y.s.(closed := true));
    case Enable(on) => FlagsKeepSession(y, y.s.(enabled := on));
  }

  lemma FlagsKeepSession(y: S.System, s: S.Session)
    requires SessionInv(y.s, y.q.consumer) && s == y.s.(closed := s.closed, enabled := s.enabled) && (y.s.closed ==> s.closed)
    ensures SessionInv(s, y.q.consumer)
  {
  }

  lemma WriterKeepsPhase(q: State, a: Action)
    requires Enabled(q, a) && !a.Consume?
    ensures Apply(q, a).consumer == q.consumer
  {
  }

  /** Every step of the composed system is a step of the queue or leaves the queue alone. */
  lemma StepProjects(y: S.System, p: S.Step)
    requires S.Enabled(y, p)
    ensures var q' := S.Apply(y, p).q;
            q' == y.q || q' == ConsumeStep(y.q) || (p.Write? && Enabled(y.q, p.a) && q' == Apply(y.q, p.a))
  {
    hide ConsumeStep; hide Apply; hide Enabled;
  }

  lemma StepKeepsQueue(y: S.System, p: S.Step)
    requires Inv(y.q) && S.Enabled(y, p)
    ensures Inv(S.Apply(y, p).q)
  {
    hide Inv; hide Apply; hide Enabled; hide S.Apply;
    StepProjects(y, p);
    ConsumeIsStep(y.q);
    if p.Write? && S.Apply(y, p).q == Apply(y.q, p.a) {
      StepKeepsInv(y.q, p.a);
    }
    StepKeepsInv(y.q, Consume);
  }

  lemma ConsumeIsStep(q: State)
    ensures Enabled(q, Consume) && Apply(q, Consume) == ConsumeStep(q)
  {
  }

  lemma {:induction false} RunKeepsSysInv(init: S.System, steps: seq<S.Step>, y: S.System)
    requires SysInv(init) && S.Run(init, steps) == Some(y)
    ensures SysInv(y)
  {
    hide Inv; hide SessionInv; hide S.Apply; hide S.Enabled;
    if steps != [] {
      var n := |steps| - 1;
      var z := S.Run(init, steps[..n]).value;
      RunKeepsSysInv(init, steps[..n], z);
      StepKeepsSession(z, steps[n]);
      StepKeepsQueue(z, steps[n]);
    }
  }

  lemma InitHasSysInv(y: S.System)
    requires S.Init(y)
    ensures SysInv(y)
  {
    hide Inv;
    InitHasInv(y.q);
  }

  lemma ReachableHasSysInv(y: S.System)
    requires S.Reachable(y)
    ensures SysInv(y)
  {
    hide SysInv; hide S.Init; hide S.Run;
    var init, steps :| S.Init(init) && S.Run(init, steps) == Some(y);
    InitHasSysInv(init);
    RunKeepsSysInv(init, steps, y);
  }

  // ----- The queue under the session's discipline -----

  lemma ExtendRun(init: State, actions: seq<Action>, q: State, a: Action)
    requires Run(init, actions) == Some(q) && Enabled(q, a)
    ensures Run(init, actions + [a]) == Some(Apply(q, a))
  {
    hide Apply; hide Enabled;
    assert (actions + [a])[..|actions|] == actions;
  }

  lemma {:induction false} RunProjects(init: S.System, steps: seq<S.Step>, y: S.System) returns (actions: seq<Action>)
    requires S.Run(init, steps) == Some(y)
    ensures Run(init.q, actions) == Some(y.q)
  {
    hide Run; hide S.Apply; hide S.Enabled; hide Apply; hide Enabled;
    if steps == [] {
      actions := [];
      EmptyRun(init.q);
    } else {
      var n := |steps| - 1;
      var z := S.Run(init, steps[..n]).value;
      actions := RunProjects(init, steps[..n], z);
      var p := steps[n];
      StepProjects(z, p);
      if y.q == ConsumeStep(z.q) {
        ConsumeIsStep(z.q);
        ExtendRun(init.q, actions, z.q, Consume);
        actions := actions + [Consume];
      } else if y.q != z.q {
        ExtendRun(init.q, actions, z.q, p.a);
        actions := actions + [p.a];
      }
    }
  }

  lemma EmptyRun(q: State)
    ensures Run(q, []) == Some(q)
  {
  }

  /** Whatever the composed system does, its queue only does what the step machine of the queue allows. */
  lemma QueueIsReachable(y: S.System)
    requires S.Reachable(y)
    ensures Reachable(y.q)
  {
    hide S.Run; hide Run; hide Init;
    var init, steps :| S.Init(init) && S.Run(init, steps) == Some(y);
    var actions := RunProjects(init, steps, y);
  }

  // ----- Request discipline -----

  /** The client's steps and the session's steps always meet the queue in the phase they assume. */
  lemma PhasesAgree(y: S.System, p: S.Step)
    requires S.Reachable(y) && S.Enabled(y, p)
    ensures S.PhaseFits(y, p)
  {
    hide S.Reachable; hide Inv; hide SessionInv;
    ReachableHasSysInv(y);
    StepKeepsSession(y, p);
  }

  /**
   * At most one acquire is open; a stored response implies `acquire_requested`; a response never
   * overwrites another one.
   */
  lemma AtMostOneAcquire(y: S.System)
    requires S.Reachable(y)
    ensures OpenAcquires(y.s) <= 1
    ensures y.s.dataAcquired.Some? ==> y.s.acquireRequested
    ensures y.s.dispatch.Delivering? ==> y.s.dataAcquired.None?
  {
    hide S.Reachable; hide Inv;
    ReachableHasSysInv(y);
  }

  /** A request goes out only when the previously retired block has been drained, or dropped by the second check. */
  lemma NextRequestAfterDrain(y: S.System)
    requires S.Reachable(y) && y.s.worker.Notifying?
    ensures y.q.consumer == Resting && y.q.hist.fate != Undecided
    ensures y.q.hist.fate == Taken ==> y.q.hist.delivered != [] && Last(y.q.hist.delivered) == RetiredEntries(y.q)
  {
    hide S.Reachable; hide BlocksInv; hide OwnersInv; hide ThreadsInv; hide TokensInv; hide FrozenInv; hide RetiredEntries;
    hide LostInv; hide ConservedInv;
    ReachableHasSysInv(y);
  }

  // ----- Locks -----

  /** Worker and dispatch thread each hold the lock that the other one wants. */
  predicate Deadlocked(s: S.Session) {
    s.worker.Requesting? && s.dispatch.Delivering?
  }

  /** No run deadlocks: whenever one of the two threads waits for a lock, the other one can move. */
  lemma NoDeadlock(y: S.System)
    requires S.Reachable(y)
    ensures !Deadlocked(y.s)
    ensures S.CanWork(y.s) || S.CanDispatch(y.s)
    ensures y.s.dispatch.Delivering? && !S.CanDispatch(y.s) ==> y.s.worker.Closing?
  {
    hide S.Reachable; hide Inv;
    ReachableHasSysInv(y);
  }

  /** A client that sends a response nobody asked for can bring both threads to a standstill. */
  lemma UnsolicitedResponseDeadlocks() returns (y: S.System, c: Counter)
    ensures S.Reachable(y)
    ensures var rogue := y.s.(responses := y.s.responses + [c]);
            S.CanDispatch(rogue) && Deadlocked(S.DispatchStep(rogue))
            && !S.CanWork(S.DispatchStep(rogue)) && !S.CanDispatch(S.DispatchStep(rogue))
  {
    c := 0;
    y := FirstTickAsks();
  }

  predicate Starting(y: S.System, w: S.Worker) {
    && y.s == S.Session(false, None, None, 0, false, false, true, w, S.Listening, 0, false, [], None)
    && y.q.consumer == Resting
  }

  lemma FreshSystem() returns (y: S.System)
    ensures S.Reachable(y) && Starting(y, S.Between)
  {
    var blk := Block([], 0, 0, 0, []);
    var q := State(Memory(1, blk, blk), map[], Resting, 1, History(Blank, [], [], [], [], 0));
    y := S.System(q, S.Session(false, None, None, 0, false, false, true, S.Between, S.Listening, 0, false, [], None));
    assert S.Init(y) && S.Run(y, []) == Some(y);
  }

  lemma FirstTickAsks() returns (y: S.System)
    ensures S.Reachable(y) && Starting(y, S.Requesting)
  {
    hide S.Reachable; hide ConsumeStep;
    y := FreshSystem();
    y := DoWork(y);
    assert Starting(y, S.Peeking);
    y := DoWork(y);
    assert Starting(y, S.Reading(false));
    y := DoWork(y);
    assert Starting(y, S.Polling(false));
    y := DoWork(y);
    assert Starting(y, S.Deciding(false, false));
    y := DoWork(y);
  }

  lemma DoWork(y: S.System) returns (z: S.System)
    requires S.Reachable(y) && S.CanWork(y.s)
    ensures S.Reachable(z) && z == S.WorkStep(y, S.Sent)
  {
    hide S.WorkStep; hide S.Reachable;
    z := Do(y, S.Work(S.Sent));
  }

  lemma Do(y: S.System, p: S.Step) returns (z: S.System)
    requires S.Reachable(y) && S.Enabled(y, p)
    ensures S.Reachable(z) && z == S.Apply(y, p)
  {
    hide S.Apply; hide S.Init; hide S.Enabled;
    var init, steps :| S.Init(init) && S.Run(init, steps) == Some(y);
    z := S.Apply(y, p);
    ExtendSystemRun(init, steps, y, p);
  }

  lemma ExtendSystemRun(init: S.System, steps: seq<S.Step>, y: S.System, p: S.Step)
    requires S.Run(init, steps) == Some(y) && S.Enabled(y, p)
    ensures S.Run(init, steps + [p]) == Some(S.Apply(y, p))
  {
    hide S.Apply; hide S.Enabled;
    assert (steps + [p])[..|steps|] == steps;
  }

  // ----- Keepalive -----

  /** The idle counter never leaves its range, so its eight bits suffice. */
  lemma IdleCounterBounded(y: S.System)
    requires S.Reachable(y)
    ensures y.s.ticks <= 11
  {
    hide S.Reachable; hide Inv;
    ReachableHasSysInv(y);
  }

  /** An enabled, attached session without an open acquire, somewhere in a tick before its decision. */
  predicate Waiting(s: S.Session) {
    && s.enabled && !s.closed && !s.detached && !s.acquireRequested
    && (s.worker.Between? || s.worker.Peeking? || s.worker == S.Reading(false) || s.worker == S.Polling(false)
        || s.worker == S.Deciding(false, false))
  }

  predicate DecidesNow(y: S.System, p: S.Step) { y.s.worker.Deciding? && p.Work? }

  /** How many ticks came to their decision along the run. */
  function TicksAlong(y: S.System, steps: seq<S.Step>): nat {
    if steps == [] then 0
    else
      var n := |steps| - 1;
      var before := S.Run(y, steps[..n]);
      TicksAlong(y, steps[..n]) + (if before.Some? && DecidesNow(before.value, steps[n]) then 1 else 0)
  }

  predicate StaysOn(steps: seq<S.Step>) {
    forall i :: 0 <= i < |steps| ==> steps[i] != S.CloseByPeer && steps[i] != S.Enable(false)
  }

  ghost predicate NeverAsks(y: S.System, steps: seq<S.Step>) {
    forall i :: 0 <= i <= |steps| ==> S.Run(y, steps[..i]).Some? && !S.Run(y, steps[..i]).value.s.worker.Requesting?
  }

  lemma WaitingStep(y: S.System, p: S.Step)
    requires SessionInv(y.s, y.q.consumer) && Waiting(y.s) && S.Enabled(y, p) && p != S.CloseByPeer && p != S.Enable(false)
    ensures var s' := S.Apply(y, p).s;
            s'.worker.Requesting? || (Waiting(s') && s'.ticks == y.s.ticks + if DecidesNow(y, p) then 1 else 0)
  {
    hide ConsumeStep; hide S.Peek;
    assert OpenAcquires(y.s) == 0;
  }

  lemma {:induction false} WaitingRun(y: S.System, steps: seq<S.Step>, z: S.System)
    requires SysInv(y) && Waiting(y.s) && StaysOn(steps) && S.Run(y, steps) == Some(z) && NeverAsks(y, steps)
    ensures SysInv(z) && Waiting(z.s) && z.s.ticks == y.s.ticks + TicksAlong(y, steps)
  {
    hide Inv; hide SessionInv; hide Waiting; hide S.Apply; hide S.Enabled; hide DecidesNow;
    RunKeepsSysInv(y, steps, z);
    if steps != [] {
      var n := |steps| - 1;
      var prefix := steps[..n];
      var u := S.Run(y, prefix).value;
      forall i | 0 <= i <= n ensures S.Run(y, prefix[..i]).Some? && !S.Run(y, prefix[..i]).value.s.worker.Requesting? {
        assert prefix[..i] == steps[..i];
      }
      WaitingRun(y, prefix, u);
      assert steps[..n + 1] == steps;
      WaitingStep(u, steps[n]);
    }
  }

  /**
   * Keepalive: along every run after a finalised acquire on which the session stays enabled and attached
   * and does not ask for the next one, at most eleven ticks come to a decision, writes or no writes; so
   * the twelfth tick at the latest asks.
   */
  lemma KeepaliveByTwelfthTick(y: S.System, outcome: S.Outcome, steps: seq<S.Step>, z: S.System)
    requires S.Reachable(y) && y.s.worker == S.Deciding(true, false) && y.s.enabled && !y.s.closed && !y.s.detached
    requires StaysOn(steps) && S.Run(S.WorkStep(y, outcome), steps) == Some(z) && NeverAsks(S.WorkStep(y, outcome), steps)
    ensures z.s.ticks == TicksAlong(S.WorkStep(y, outcome), steps) <= 11
  {
    hide S.Reachable; hide Inv; hide SessionInv; hide NeverAsks; hide StaysOn; hide TicksAlong; hide S.Run;
    ReachableHasSysInv(y);
    FinalisedWaits(y, outcome);
    WaitingRun(S.WorkStep(y, outcome), steps, z);
    TicksBounded(z);
  }

  lemma FinalisedWaits(y: S.System, outcome: S.Outcome)
    requires SysInv(y) && y.s.worker == S.Deciding(true, false) && y.s.enabled && !y.s.closed && !y.s.detached
    ensures var y' := S.WorkStep(y, outcome); SysInv(y') && Waiting(y'.s) && y'.s.ticks == 0
  {
    hide Inv; hide S.Peek;
  }

  lemma TicksBounded(y: S.System)
    requires SysInv(y)
    ensures y.s.ticks <= 11
  {
    hide Inv;
  }
}
