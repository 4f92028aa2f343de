/** What the composed system achieves when nothing interferes: a round of the protocol delivers the active block. */
module SessionProgress {
  import opened Options
  import opened Bytes
  import opened LinearBuffer
  import opened LinearReading
  import opened WaitFreeQueue
  import opened QueueInvariant
  import opened QueueHistory
  import opened SessionTheorems
  import opened SessionDetach
  import QueueProgress
  import T = QueueTheorems
  import S = Session

  // ----- Runs without writers -----

  /** `steps` lead from `y` to `z` without a writer's step. */
  ghost predicate Leads(y: S.System, steps: seq<S.Step>, z: S.System) {
    S.Run(y, steps) == Some(z) && NoWrites(steps) && S.Reachable(z)
  }

  lemma Go(y: S.System, begun: seq<S.Step>, x: S.System, p: S.Step) returns (steps: seq<S.Step>, z: S.System)
    requires Leads(y, begun, x) && S.Enabled(x, p) && !p.Write?
    ensures Leads(y, steps, z) && z == S.Apply(x, p)
  {
    hide S.Run; hide NoWrites; hide S.Reachable; hide S.Apply;
    ExtendSystemRun(y, begun, x, p);
    NoWritesSnoc(begun, p);
    steps := begun + [p];
    z := Do(x, p);
  }

  lemma GoWork(y: S.System, begun: seq<S.Step>, x: S.System) returns (steps: seq<S.Step>, z: S.System)
    requires Leads(y, begun, x) && S.CanWork(x.s)
    ensures Leads(y, steps, z) && z == S.WorkStep(x, S.Sent)
  {
    hide Leads; hide S.WorkStep;
    steps, z := Go(y, begun, x, S.Work(S.Sent));
  }

  // ----- A round -----

  /** An enabled, attached session between two ticks, with nothing under way. */
  predicate Calm(s: S.Session) {
    && s.worker.Between? && s.dispatch.Listening? && s.enabled && !s.closed && !s.detached && !s.acquireRequested
    && s.dataAcquired.None? && s.requests == 0 && !s.switching && s.responses == []
  }

  /** The session has a reason to ask: it never did, something was reserved, or it has idled long enough. */
  predicate Wants(q: State, s: S.Session) {
    s.blockExpected.None? || S.Peek(q, s.blockExpected) > 0 || s.ticks > S.MAX_IDLE_TICKS
  }

  lemma Peeks(y: S.System) returns (steps: seq<S.Step>, z: S.System)
    requires S.Reachable(y) && Calm(y.s) && y.q.consumer == Resting
    ensures Leads(y, steps, z) && z == y.(s := y.s.(worker := S.Polling(false)))
  {
    assert S.Run(y, []) == Some(y);
    steps := [];
    assert Leads(y, steps, y);
    hide S.Reachable; hide Leads; hide ReadAt; hide Cropped; hide ConsumeStep; hide S.Decide;
    steps, z := GoWork(y, steps, y);
    assert z == y.(s := y.s.(worker := S.Peeking));
    steps, z := GoWork(y, steps, z);
    assert z == y.(s := y.s.(worker := S.Reading(false)));
    steps, z := GoWork(y, steps, z);
  }

  lemma Asks(y: S.System) returns (steps: seq<S.Step>, z: S.System)
    requires S.Reachable(y) && Calm(y.s) && y.q.consumer == Resting && Wants(y.q, y.s)
    ensures Leads(y, steps, z) && z == y.(s := y.s.(worker := S.Requesting))
  {
    hide S.Reachable; hide Leads; hide ReadAt; hide Cropped; hide ConsumeStep;
    steps, z := Peeks(y);
    steps, z := GoWork(y, steps, z);
    assert z == y.(s := y.s.(worker := S.Deciding(false, false)));
    steps, z := GoWork(y, steps, z);
  }

  lemma Requests(y: S.System, s: S.Session, begun: seq<S.Step>, x: S.System) returns (steps: seq<S.Step>, z: S.System)
    requires Leads(y, begun, x) && Calm(s) && x.s == s.(worker := S.Requesting) && x.q.consumer == Resting
    ensures Leads(y, steps, z) && z == S.System(x.q.(consumer := Requested), s.(acquireRequested := true, requests := 1))
  {
    hide Leads; hide ReadAt; hide Cropped;
    steps, z := GoWork(y, begun, x);
    assert z == x.(s := s.(worker := S.Notifying));
    steps, z := GoWork(y, steps, z);
    assert z == S.System(x.q.(consumer := Requested), s.(worker := S.Closing(true), requests := 1));
    steps, z := GoWork(y, steps, z);
  }

  /** `q` after `Switch`: the counter has moved on, the block that was active is retired as it was, the other one is empty. */
  predicate Switched(q: State, q': State) {
    && q'.mem.counter == Next(q.mem.counter) && q'.consumer == Answered(q.mem.counter)
    && At(q'.mem, Active(q.mem)) == At(q.mem, Active(q.mem))
    && At(q'.mem, Retired(q.mem)).log == [] && At(q'.mem, Retired(q.mem)).acquired == 0
    && q'.threads == q.threads && q'.hist.delivered == q.hist.delivered && q'.hist.released == q.hist.released
  }

  lemma Switches(y: S.System, s: S.Session, begun: seq<S.Step>, x: S.System) returns (steps: seq<S.Step>, z: S.System)
    requires Leads(y, begun, x) && Calm(s) && x.s == s.(acquireRequested := true, requests := 1) && x.q.consumer == Requested
    ensures Leads(y, steps, z) && Switched(x.q, z.q)
    ensures z.s == s.(acquireRequested := true, responses := [x.q.mem.counter])
  {
    hide Leads; hide ReadAt; hide Entries;
    var c := x.q.mem.counter;
    NextFlips(c);
    var during := s.(acquireRequested := true, switching := true);
    steps, z := Go(y, begun, x, S.ClientStarts);
    assert z == S.System(x.q.(consumer := SwitchLoaded(c)), during);
    steps, z := Go(y, steps, z, S.ClientSwitches);
    steps, z := Go(y, steps, z, S.ClientSwitches);
    steps, z := Go(y, steps, z, S.ClientSwitches);
  }

  lemma Responds(y: S.System, s: S.Session, c: Counter, begun: seq<S.Step>, x: S.System) returns (steps: seq<S.Step>, z: S.System)
    requires Leads(y, begun, x) && Calm(s) && x.s == s.(acquireRequested := true, responses := [c])
    ensures Leads(y, steps, z) && z == x.(s := s.(acquireRequested := true, dataAcquired := Some(c), blockExpected := Some(Next(c))))
  {
    hide Leads;
    steps, z := Go(y, begun, x, S.Dispatching);
    assert z == x.(s := s.(acquireRequested := true, dispatch := S.Delivering(c)));
    steps, z := Go(y, steps, z, S.Dispatching);
    steps, z := Go(y, steps, z, S.Dispatching);
  }

  /** The session as the tick that finalises the acquire of `c` finds it. */
  function WithAnswer(s: S.Session, c: Counter, w: S.Worker): S.Session {
    s.(acquireRequested := true, dataAcquired := Some(c), blockExpected := Some(Next(c)), worker := w)
  }

  /** The first check finds no count on the retired block, and its indices agree. */
  lemma Confirms(y: S.System, s: S.Session, c: Counter, begun: seq<S.Step>, x: S.System) returns (steps: seq<S.Step>, z: S.System)
    requires Leads(y, begun, x) && Calm(s) && x.s == WithAnswer(s, c, S.Between) && x.q.consumer == Answered(c)
    requires At(x.q.mem, Select(c)).writers == 0
    ensures Leads(y, steps, z) && z == S.System(x.q.(consumer := Confirmed(c)), WithAnswer(s, c, S.Setting(c)))
  {
    hide Leads; hide ReadAt; hide Cropped;
    steps, z := GoWork(y, begun, x);
    assert z == x.(s := WithAnswer(s, c, S.Peeking));
    steps, z := GoWork(y, steps, z);
    assert z == x.(s := WithAnswer(s, c, S.Checking(c)));
    steps, z := GoWork(y, steps, z);
    assert z == S.System(x.q.(consumer := FirstSawNoWriters(c)), WithAnswer(s, c, S.Checking(c)));
    QuietIndices(y, steps, z);
    steps, z := GoWork(y, steps, z);
    assert z == S.System(x.q.(consumer := FirstLoadedWritten(c, At(x.q.mem, Select(c)).written)), WithAnswer(s, c, S.Checking(c)));
    steps, z := GoWork(y, steps, z);
  }

  lemma QuietIndices(y: S.System, steps: seq<S.Step>, z: S.System)
    requires Leads(y, steps, z) && z.q.consumer.FirstSawNoWriters?
    ensures var b := At(z.q.mem, Select(z.q.consumer.c)); b.written == b.acquired
  {
    hide S.Reachable; hide S.Run; hide CoreInv; hide HistInv; hide SessionInv;
    ReachableHasSysInv(z);
    T.FirstCheckCannotFail(z.q);
    SelectsRetired(z.q);
  }

  lemma SelectsRetired(q: State)
    requires CoreInv(q) && q.consumer.FirstSawNoWriters?
    ensures Select(q.consumer.c) == Retired(q.mem)
  {
    hide BlocksInv; hide OwnersInv; hide ThreadsInv; hide TokensInv; hide FrozenInv;
    NextFlips(q.consumer.c);
  }

  /** The second check agrees, and the reader is set. */
  lemma Accepts(y: S.System, s: S.Session, c: Counter, begun: seq<S.Step>, x: S.System) returns (steps: seq<S.Step>, z: S.System)
    requires Leads(y, begun, x) && Calm(s) && x.s == WithAnswer(s, c, S.Setting(c)) && x.q.consumer == Confirmed(c)
    requires var b := At(x.q.mem, Select(c)); b.writers == 0 && b.written == b.acquired
    ensures Leads(y, steps, z) && z == S.System(OpenReader(x.q, c), WithAnswer(s, c, S.Clearing(c)))
  {
    hide Leads; hide ReadAt; hide Cropped;
    steps, z := GoWork(y, begun, x);
    assert z == S.System(x.q.(consumer := SecondSawNoWriters(c)), x.s);
    steps, z := GoWork(y, steps, z);
    assert z == S.System(x.q.(consumer := SecondLoadedWritten(c, At(x.q.mem, Select(c)).written)), x.s);
    steps, z := GoWork(y, steps, z);
    assert z == S.System(x.q.(consumer := Accepted(c)), x.s);
    steps, z := GoWork(y, steps, z);
  }

  /** What draining leaves alone. */
  predicate Drains(q: State, q': State) {
    && q'.mem == q.mem && q'.threads == q.threads && q'.hist.released == q.hist.released && q'.hist.fate == q.hist.fate
    && |q'.hist.delivered| == |q.hist.delivered| > 0
    && q'.hist.delivered[..|q.hist.delivered| - 1] == q.hist.delivered[..|q.hist.delivered| - 1]
  }

  lemma {:induction false} DrainsAll(y: S.System, begun: seq<S.Step>, x: S.System) returns (steps: seq<S.Step>, z: S.System)
    requires Leads(y, begun, x) && x.s.worker == S.Reading(true) && x.q.hist.delivered != []
    requires x.q.consumer == Resting || x.q.consumer.Draining?
    ensures Leads(y, steps, z) && z.s == x.s && z.q.consumer == Resting && Drains(x.q, z.q)
    decreases if x.q.consumer.Draining? then 1 + (if x.q.consumer.index < x.q.consumer.limit then x.q.consumer.limit - x.q.consumer.index else 0) else 0
  {
    hide Leads; hide ReadAt; hide Cropped;
    if x.q.consumer == Resting {
      steps, z := begun, x;
    } else {
      var u;
      steps, u := GoWork(y, begun, x);
      DrainStep(x.q);
      steps, z := DrainsAll(y, steps, u);
    }
  }

  lemma DrainStep(q: State)
    requires q.consumer.Draining? && q.hist.delivered != []
    ensures var q' := ConsumeStep(q);
            && Drains(q, q')
            && (q'.consumer == Resting
                || (q'.consumer.Draining? && q'.consumer.limit == q.consumer.limit
                    && q.consumer.index < q'.consumer.index <= q.consumer.limit))
  {
    hide LengthAt;
  }

  lemma EndsTick(y: S.System, s: S.Session, c: Counter, begun: seq<S.Step>, x: S.System) returns (steps: seq<S.Step>, z: S.System)
    requires Leads(y, begun, x) && Calm(s) && x.q.consumer == Resting
    requires x.s == s.(acquireRequested := true, blockExpected := Some(Next(c)), worker := S.Reading(true))
    ensures Leads(y, steps, z) && z == x.(s := s.(blockExpected := Some(Next(c)), ticks := 0))
  {
    hide Leads; hide ReadAt; hide Cropped; hide ConsumeStep;
    steps, z := GoWork(y, begun, x);
    assert z == x.(s := x.s.(worker := S.Polling(true)));
    steps, z := GoWork(y, steps, z);
    assert z == x.(s := x.s.(worker := S.Deciding(true, false)));
    steps, z := GoWork(y, steps, z);
  }

  /** From the request to the response. */
  lemma FirstHalf(y: S.System) returns (steps: seq<S.Step>, z: S.System)
    requires S.Reachable(y) && Calm(y.s) && y.q.consumer == Resting && Wants(y.q, y.s)
    ensures Leads(y, steps, z) && Switched(y.q, z.q) && z.s == WithAnswer(y.s, y.q.mem.counter, S.Between)
  {
    hide Leads; hide S.Reachable; hide Calm; hide Wants; hide Switched;
    steps, z := Asks(y);
    steps, z := Requests(y, y.s, steps, z);
    var x := z;
    steps, z := Switches(y, y.s, steps, z);
    SameSwitch(y.q, x.q, z.q);
    CalmIsBetween(y.s);
    steps, z := Responds(y, y.s, y.q.mem.counter, steps, z);
  }

  lemma SameSwitch(q: State, x: State, z: State)
    requires Switched(x, z) && x == q.(consumer := Requested)
    ensures Switched(q, z)
  {
  }

  lemma CalmIsBetween(s: S.Session)
    requires Calm(s)
    ensures s.worker == S.Between
  {
  }

  /** From the response to the end of the tick that drains the block. */
  lemma SecondHalf(y: S.System, s: S.Session, c: Counter, begun: seq<S.Step>, x: S.System) returns (steps: seq<S.Step>, z: S.System)
    requires Leads(y, begun, x) && Calm(s) && x.s == WithAnswer(s, c, S.Between) && x.q.consumer == Answered(c)
    requires At(x.q.mem, Select(c)).writers == 0
    ensures Leads(y, steps, z) && z.q.consumer == Resting && z.s == s.(blockExpected := Some(Next(c)), ticks := 0)
    ensures Drains(OpenReader(x.q, c), z.q)
  {
    hide Leads; hide ReadAt; hide Cropped; hide Calm;
    var u;
    steps, u := Confirms(y, s, c, begun, x);
    ConfirmedIndices(y, steps, u);
    steps, u := Accepts(y, s, c, steps, u);
    var q := u.q;
    hide ConsumeStep;
    steps, u := GoWork(y, steps, u);
    AnswerForgotten(s, c);
    assert u == S.System(q, s.(acquireRequested := true, blockExpected := Some(Next(c)), worker := S.Reading(true)));
    steps, u := DrainsAll(y, steps, u);
    steps, z := EndsTick(y, s, c, steps, u);
  }

  lemma AnswerForgotten(s: S.Session, c: Counter)
    requires Calm(s)
    ensures WithAnswer(s, c, S.Clearing(c)).(dataAcquired := None, worker := S.Reading(true))
         == s.(acquireRequested := true, blockExpected := Some(Next(c)), worker := S.Reading(true))
  {
  }

  lemma ConfirmedIndices(y: S.System, steps: seq<S.Step>, z: S.System)
    requires Leads(y, steps, z) && z.q.consumer.Confirmed?
    ensures var b := At(z.q.mem, Select(z.q.consumer.c)); b.written == b.acquired
  {
    hide S.Reachable; hide S.Run; hide CoreInv; hide HistInv; hide SessionInv;
    ReachableHasSysInv(z);
    T.FirstCheckCannotFail(z.q);
    T.RefusalIff(z.q);
  }

  /**
   * From every reachable calm state in which the session wants to ask and no writer holds a count on the active block,
   * session, client and dispatch thread alone deliver exactly the entries of that block, and are calm again.
   */
  lemma RoundDelivers(y: S.System) returns (steps: seq<S.Step>, z: S.System)
    requires S.Reachable(y) && Calm(y.s) && Wants(y.q, y.s) && At(y.q.mem, Active(y.q.mem)).writers == 0
    ensures Leads(y, steps, z) && Calm(z.s)
    ensures z.q.hist.delivered == y.q.hist.delivered + [ActiveEntries(y.q)] && z.q.hist.released == y.q.hist.released
    ensures Active(z.q.mem) == Retired(y.q.mem) && ActiveEntries(z.q) == [] && z.q.threads == y.q.threads
  {
    hide Leads; hide S.Reachable; hide Wants; hide Entries;
    CalmRests(y);
    var c := y.q.mem.counter;
    NextFlips(c);
    var u;
    steps, u := FirstHalf(y);
    steps, z := SecondHalf(y, y.s, c, steps, u);
    DrainedInv(y, steps, z);
    GroupComplete(u.q, c, z.q);
    EmptyLog(At(z.q.mem, Active(z.q.mem)).Size());
  }

  lemma EmptyLog(size: nat)
    ensures Entries(size, []) == []
  {
  }

  lemma CalmRests(y: S.System)
    requires S.Reachable(y) && Calm(y.s)
    ensures y.q.consumer == Resting
  {
    hide S.Reachable; hide Inv;
    ReachableHasSysInv(y);
  }

  lemma DrainedInv(y: S.System, steps: seq<S.Step>, z: S.System)
    requires Leads(y, steps, z)
    ensures DeliveredInv(z.q)
  {
    hide S.Reachable; hide S.Run; hide CoreInv; hide SessionInv; hide DeliveredInv;
    ReachableHasSysInv(z);
  }

  /** At the end of the drain the new group is the whole retired block. */
  lemma GroupComplete(u: State, c: Counter, z: State)
    requires Drains(OpenReader(u, c), z) && z.consumer == Resting && DeliveredInv(z)
    ensures z.hist.delivered == u.hist.delivered + [RetiredEntries(z)] && z.mem == u.mem && z.threads == u.threads
    ensures z.hist.released == u.hist.released
  {
    hide TakenEpochs; hide RetiredEntries;
    var d := OpenReader(u, c).hist.delivered;
    assert d[..|d| - 1] == u.hist.delivered;
    assert z.hist.delivered == z.hist.delivered[..|d| - 1] + [Last(z.hist.delivered)];
  }

  // ----- Which block the session peeks at -----

  /** Once a response has come, and except while the next one is on its way, the expected block is the active one. */
  predicate Expecting(q: State, s: S.Session) {
    s.blockExpected.Some? && s.responses == [] && !s.dispatch.Delivering? ==> s.blockExpected.value == q.mem.counter
  }

  lemma CounterMoves(q: State)
    ensures !q.consumer.SwitchZeroedWritten? ==> ConsumeStep(q).mem.counter == q.mem.counter
    ensures q.consumer.SwitchZeroedWritten? ==> ConsumeStep(q).consumer.Answered?
  {
  }

  lemma WritersKeepCounter(q: State, a: Action)
    requires Enabled(q, a) && !a.Consume?
    ensures Apply(q, a).mem.counter == q.mem.counter
  {
    hide Reserve; hide PutPrefixByte; hide Publish; hide PutPayloadByte;
  }

  lemma AnsweredCounter(q: State)
    requires CoreInv(q) && q.consumer.Answered?
    ensures q.mem.counter == Next(q.consumer.c)
  {
    hide BlocksInv; hide OwnersInv; hide ThreadsInv; hide TokensInv; hide FrozenInv;
  }

  lemma WorkKeepsCounter(y: S.System, outcome: S.Outcome)
    requires SessionInv(y.s, y.q.consumer) && S.CanWork(y.s)
    ensures S.WorkStep(y, outcome).q.mem.counter == y.q.mem.counter
  {
    hide ConsumeStep; hide S.Decide; hide S.Decided; hide ReadAt; hide Cropped; hide TailInv; hide At;
    CounterMoves(y.q);
  }

  predicate SameAnswers(s: S.Session, s': S.Session) {
    s'.blockExpected == s.blockExpected && s'.responses == s.responses && s'.dispatch == s.dispatch
  }

  lemma CheckFrame(y: S.System, outcome: S.Outcome)
    requires y.s.worker.Peeking? || Finalising(y.s.worker) || y.s.worker.Reading?
    ensures SameAnswers(y.s, S.WorkStep(y, outcome).s)
  {
    hide ConsumeStep;
  }

  lemma DetachFrame(y: S.System, outcome: S.Outcome)
    requires ClosingDown(y.s.worker)
    ensures SameAnswers(y.s, S.WorkStep(y, outcome).s)
  {
    hide ConsumeStep; hide ReadAt; hide Cropped;
  }

  lemma RequestFrame(y: S.System, outcome: S.Outcome)
    requires S.CommandHeldByWorker(y.s)
    ensures SameAnswers(y.s, S.WorkStep(y, outcome).s)
  {
    hide ConsumeStep;
  }

  lemma DecideFrame(y: S.System, outcome: S.Outcome)
    requires y.s.worker.Between? || y.s.worker.Deciding?
    ensures SameAnswers(y.s, S.WorkStep(y, outcome).s)
  {
    hide ConsumeStep; hide S.Peek;
  }

  lemma WorkFrame(y: S.System, outcome: S.Outcome)
    ensures SameAnswers(y.s, S.WorkStep(y, outcome).s)
  {
    hide S.WorkStep; hide SameAnswers;
    if y.s.worker.Peeking? || Finalising(y.s.worker) || y.s.worker.Reading? {
      CheckFrame(y, outcome);
    } else if ClosingDown(y.s.worker) {
      DetachFrame(y, outcome);
    } else if S.CommandHeldByWorker(y.s) {
      RequestFrame(y, outcome);
    } else {
      DecideFrame(y, outcome);
    }
  }

  lemma ExpectingWork(y: S.System, outcome: S.Outcome)
    requires SessionInv(y.s, y.q.consumer) && Expecting(y.q, y.s) && S.CanWork(y.s)
    ensures var y' := S.WorkStep(y, outcome); Expecting(y'.q, y'.s) && (y.s.blockExpected.Some? ==> y'.s.blockExpected.Some?)
  {
    hide SessionInv; hide S.WorkStep;
    WorkKeepsCounter(y, outcome);
    WorkFrame(y, outcome);
  }

  lemma ExpectingOthers(y: S.System, p: S.Step)
    requires SessionInv(y.s, y.q.consumer) && CoreInv(y.q) && Expecting(y.q, y.s) && S.Enabled(y, p) && !p.Work?
    ensures var y' := S.Apply(y, p); Expecting(y'.q, y'.s) && (y.s.blockExpected.Some? ==> y'.s.blockExpected.Some?)
  {
    hide CoreInv; hide ConsumeStep; hide Apply; hide Enabled; hide Next; hide S.WorkStep;
    CounterMoves(y.q);
    if p.Write? {
      WritersKeepCounter(y.q, p.a);
    } else if p.Dispatching? && y.s.dispatch.Delivering? {
      AnsweredCounter(y.q);
    }
  }

  lemma ExpectingStep(y: S.System, p: S.Step)
    requires SysInv(y) && Expecting(y.q, y.s) && S.Enabled(y, p)
    ensures var y' := S.Apply(y, p); Expecting(y'.q, y'.s) && (y.s.blockExpected.Some? ==> y'.s.blockExpected.Some?)
  {
    hide CoreInv; hide HistInv; hide SessionInv; hide Expecting; hide S.WorkStep; hide S.DispatchStep;
    if p.Work? {
      ExpectingWork(y, p.outcome);
    } else {
      ExpectingOthers(y, p);
    }
  }

  lemma {:induction false} ExpectingRun(y: S.System, steps: seq<S.Step>, z: S.System)
    requires SysInv(y) && Expecting(y.q, y.s) && S.Run(y, steps) == Some(z)
    ensures SysInv(z) && Expecting(z.q, z.s) && (y.s.blockExpected.Some? ==> z.s.blockExpected.Some?)
  {
    hide SysInv; hide Expecting; hide S.Apply; hide S.Enabled;
    if steps != [] {
      var n := |steps| - 1;
      var u := S.Run(y, steps[..n]).value;
      ExpectingRun(y, steps[..n], u);
      RunKeepsSysInv(y, steps, z);
      ExpectingStep(u, steps[n]);
    }
  }

  lemma ReachableExpects(y: S.System)
    requires S.Reachable(y)
    ensures Expecting(y.q, y.s)
  {
    hide S.Run; hide SysInv;
    var init, steps :| S.Init(init) && S.Run(init, steps) == Some(y);
    InitHasSysInv(init);
    ExpectingRun(init, steps, y);
  }

  /**
   * Keepalive, exactly: along every run after a finalised acquire on which the session stays enabled and attached and has
   * not asked yet, the tick that comes to its decision asks if and only if something was reserved in the active
   * block or eleven ticks have idled.
   */
  lemma AsksExactly(y: S.System, outcome: S.Outcome, steps: seq<S.Step>, z: S.System)
    requires S.Reachable(y) && y.s.worker == S.Deciding(true, false) && y.s.enabled && !y.s.closed && !y.s.detached
    requires StaysOn(steps) && S.Run(S.WorkStep(y, outcome), steps) == Some(z) && NeverAsks(S.WorkStep(y, outcome), steps)
    requires z.s.worker.Deciding?
    ensures S.WorkStep(z, S.Sent).s.worker.Requesting? <==>
              At(z.q.mem, Active(z.q.mem)).acquired > 0 || TicksAlong(S.WorkStep(y, outcome), steps) == 11
  {
    hide S.Reachable; hide Inv; hide NeverAsks; hide StaysOn; hide TicksAlong; hide S.Run;
    ReachableHasSysInv(y);
    ReachableExpects(y);
    KeepaliveByTwelfthTick(y, outcome, steps, z);
    FinalisedWaits(y, outcome);
    WaitingRun(S.WorkStep(y, outcome), steps, z);
    ExpectingRun(S.WorkStep(y, outcome), steps, z);
    DecisionAt(z);
  }

  lemma DecisionAt(z: S.System)
    requires SessionInv(z.s, z.q.consumer) && Expecting(z.q, z.s) && Waiting(z.s) && z.s.worker.Deciding? && z.s.blockExpected.Some?
    ensures S.WorkStep(z, S.Sent).s.worker.Requesting? <==> At(z.q.mem, Active(z.q.mem)).acquired > 0 || z.s.ticks == 11
  {
    assert OpenAcquires(z.s) == 0;
    hide ConsumeStep; hide ReadAt;
  }

  lemma CheckingDoesNotAsk(y: S.System, outcome: S.Outcome)
    requires y.s.worker.Peeking? || Finalising(y.s.worker) || y.s.worker.Reading?
    ensures !S.WorkStep(y, outcome).s.worker.Requesting?
  {
    hide ConsumeStep;
  }

  lemma DetachingDoesNotAsk(y: S.System, outcome: S.Outcome)
    requires ClosingDown(y.s.worker)
    ensures !S.WorkStep(y, outcome).s.worker.Requesting?
  {
    hide ConsumeStep; hide ReadAt; hide Cropped;
  }

  lemma OnlyDecidingAsks(y: S.System, outcome: S.Outcome)
    requires !y.s.worker.Requesting? && !y.s.worker.Deciding?
    ensures !S.WorkStep(y, outcome).s.worker.Requesting?
  {
    if y.s.worker.Peeking? || Finalising(y.s.worker) || y.s.worker.Reading? {
      hide S.WorkStep;
      CheckingDoesNotAsk(y, outcome);
    } else if ClosingDown(y.s.worker) {
      hide S.WorkStep;
      DetachingDoesNotAsk(y, outcome);
    } else {
      hide ConsumeStep;
      assert y.s.worker.Between? || y.s.worker.Notifying? || y.s.worker.Closing?;
    }
  }

  lemma OthersDoNotAsk(y: S.System, p: S.Step)
    requires S.Enabled(y, p) && !p.Work?
    ensures S.Apply(y, p).s.worker == y.s.worker
  {
    hide ConsumeStep; hide Apply; hide Enabled; hide S.WorkStep;
  }

  /** Only an enabled, attached session without an open acquire, in a tick that finalised nothing, asks. */
  lemma AsksOnlyIf(y: S.System, p: S.Step)
    requires S.Enabled(y, p) && !y.s.worker.Requesting? && S.Apply(y, p).s.worker.Requesting?
    ensures p.Work? && y.s.worker == S.Deciding(false, false) && y.s.enabled && !y.s.acquireRequested && Wants(y.q, y.s)
  {
    hide Apply; hide Enabled; hide S.WorkStep; hide Wants;
    if !p.Work? {
      OthersDoNotAsk(y, p);
    } else if !y.s.worker.Deciding? {
      OnlyDecidingAsks(y, p.outcome);
    } else {
      DecidingAsks(y, p.outcome);
    }
  }

  lemma DecidingAsks(y: S.System, outcome: S.Outcome)
    requires y.s.worker.Deciding? && S.WorkStep(y, outcome).s.worker.Requesting?
    ensures y.s.worker == S.Deciding(false, false) && y.s.enabled && !y.s.acquireRequested && Wants(y.q, y.s)
  {
    hide ConsumeStep; hide ReadAt; hide Cropped;
  }

  /** A request that finds no connection leaves the session free to ask again; any other outcome counts as requested. */
  lemma NoConnectionAsksAgain(y: S.System, outcome: S.Outcome)
    requires S.Reachable(y) && y.s.worker.Notifying?
    ensures var z := S.WorkStep(S.WorkStep(y, outcome), S.Sent);
            && z.s.worker.Between? && (z.s.acquireRequested <==> !outcome.NoConnection?)
            && OpenAcquires(z.s) == (if outcome.Sent? then 1 else 0)
            && (!outcome.Sent? ==> z.q == y.q)
  {
    hide S.Reachable; hide Inv; hide ConsumeStep;
    ReachableHasSysInv(y);
  }

  // ----- From a writer to the reader -----

  lemma {:induction false} LiftWriters(y: S.System, actions: seq<Action>, q: State)
    requires S.Reachable(y) && Run(y.q, actions) == Some(q) && forall i :: 0 <= i < |actions| ==> !actions[i].Consume?
    ensures S.Reachable(y.(q := q))
  {
    hide S.Reachable; hide Apply; hide Enabled;
    if actions != [] {
      var n := |actions| - 1;
      var u := Run(y.q, actions[..n]).value;
      LiftWriters(y, actions[..n], u);
      var z := Do(y.(q := u), S.Write(actions[n]));
    }
  }

  /**
   * A thread whose acquire is admitted, writing `bs` alone, followed by one round of the protocol: the session delivers
   * the entries that were in the active block and behind them exactly `bs`.
   */
  lemma WrittenIsDelivered(y: S.System, w: nat, bs: Entry) returns (x: S.System, steps: seq<S.Step>, z: S.System)
    requires S.Reachable(y) && Calm(y.s) && PcOf(y.q, w) == Idle && At(y.q.mem, Active(y.q.mem)).writers == 0
    requires QueueProgress.Admitted(At(y.q.mem, Active(y.q.mem)), |bs|)
    ensures S.Reachable(x) && x.s == y.s && QueueProgress.Written(y.q, x.q, w, bs)
    ensures Leads(x, steps, z) && Calm(z.s)
    ensures z.q.hist.delivered == y.q.hist.delivered + [ActiveEntries(y.q) + [bs]]
  {
    hide S.Reachable; hide Run; hide Leads; hide Entries; hide Calm;
    var actions, q := QueueProgress.WriteAlone(y.q, w, bs);
    assert QueueProgress.OnlyBy(actions, w);
    LiftWriters(y, actions, q);
    x := y.(q := q);
    ReachableExpects(y);
    CalmExpects(y.q, y.s);
    steps, z := RoundDelivers(x);
  }

  lemma CalmExpects(q: State, s: S.Session)
    requires Expecting(q, s) && Calm(s)
    ensures s.blockExpected == None || s.blockExpected == Some(q.mem.counter)
  {
  }
}
