/**
 * Two runs under the session's discipline in which a released entry is not delivered. The result of
 * `NotifyAcquisitionSetReader` is ignored, so a losing writer that raises `number_of_writers` between the two
 * checks makes the session pass over a complete block: the next `Switch` clears it, and a detached read takes it
 * for the block expected next.
 */
module SessionLoss {
  import opened Options
  import opened Bytes
  import opened LinearBuffer
  import opened LinearReading
  import opened WaitFreeQueue
  import opened QueueInvariant
  import opened QueueHistory
  import opened SessionTheorems
  import opened SessionDetach
  import QueueProgress
  import SessionProgress
  import T = QueueTheorems
  import S = Session

  // ----- One entry written by thread 0 -----

  /** The only reservation of a block: one byte, released by thread 0. */
  function Message(v: Byte): Reservation { Reservation(0, 0, 1, PREFIX, [v], true) }

  ghost predicate Ready(y: S.System, id: BlockId) {
    && S.Reachable(y) && Active(y.q.mem) == id && PcOf(y.q, 0) == Idle
    && var b := At(y.q.mem, id); b.Size() == 16 && FreshBlock(b)
  }

  lemma WritesOne(y: S.System, id: BlockId, v: Byte) returns (z: S.System)
    requires Ready(y, id)
    ensures S.Reachable(z) && z.s == y.s
    ensures z.q == y.q.(mem := With(y.q.mem, id, At(z.q.mem, id)), threads := y.q.threads[0 := Idle],
                        hist := y.q.hist.(released := y.q.hist.released + [[v]]))
    ensures var b := At(z.q.mem, id);
            b.Size() == 16 && b.writers == 0 && b.acquired == 9 && b.written == 9 && b.log == [Message(v)]
  {
    hide S.Reachable; hide Run;
    var actions, q := QueueProgress.WriteAlone(y.q, 0, [v]);
    assert QueueProgress.OnlyBy(actions, 0);
    SessionProgress.LiftWriters(y, actions, q);
    z := y.(q := q);
    assert [] + [Message(v)] == [Message(v)];
  }

  // ----- A refused block -----

  /** A session between two steps of an otherwise uneventful life. */
  function Sess(requested: bool, acquired: Option<Counter>, next: Option<Counter>, w: S.Worker, d: S.Dispatch,
                requests: nat, switching: bool, responses: seq<Counter>): S.Session
  {
    S.Session(requested, acquired, next, 0, false, false, true, w, d, requests, switching, responses, None)
  }

  function Calm(requested: bool, acquired: Option<Counter>, next: Option<Counter>, w: S.Worker): S.Session {
    Sess(requested, acquired, next, w, S.Listening, 0, false, [])
  }

  /** A tick that decides to ask, and the request on its way. */
  lemma Asks(y: S.System, next: Option<Counter>) returns (z: S.System)
    requires S.Reachable(y) && y.s == Calm(false, None, next, S.Between) && y.q.consumer == Resting
    requires next.Some? ==> At(y.q.mem, Select(next.value)).acquired > 0
    ensures S.Reachable(z) && z.q == y.q.(consumer := Requested)
    ensures z.s == Sess(true, None, next, S.Between, S.Listening, 1, false, [])
  {
    hide S.Reachable; hide ReadAt; hide Cropped;
    z := DoWork(y);
    assert z == y.(s := Calm(false, None, next, S.Peeking));
    z := DoWork(z);
    assert z == y.(s := Calm(false, None, next, S.Reading(false)));
    z := DoWork(z);
    assert z == y.(s := Calm(false, None, next, S.Polling(false)));
    z := DoWork(z);
    assert z == y.(s := Calm(false, None, next, S.Deciding(false, false)));
    z := DoWork(z);
    assert z == y.(s := Calm(false, None, next, S.Requesting));
    z := Requests(z, next);
  }

  lemma Requests(y: S.System, next: Option<Counter>) returns (z: S.System)
    requires S.Reachable(y) && y.s == Calm(false, None, next, S.Requesting) && y.q.consumer == Resting
    ensures S.Reachable(z) && z.q == y.q.(consumer := Requested)
    ensures z.s == Sess(true, None, next, S.Between, S.Listening, 1, false, [])
  {
    hide S.Reachable; hide ReadAt; hide Cropped;
    z := DoWork(y);
    assert z == y.(s := Calm(false, None, next, S.Notifying));
    z := DoWork(z);
    assert z == S.System(y.q.(consumer := Requested), Sess(false, None, next, S.Closing(true), S.Listening, 1, false, []));
    z := DoWork(z);
  }

  /** The client's first `Switch`, which finds the even block unused. */
  lemma FirstSwitch(y: S.System) returns (z: S.System)
    requires S.Reachable(y) && y.q.consumer == Requested && y.q.mem.counter == 1 && FreshBlock(y.q.mem.even) && y.q.hist.fate == Blank
    requires y.s == Sess(true, None, None, S.Between, S.Listening, 1, false, [])
    ensures S.Reachable(z) && z.s == Sess(true, None, None, S.Between, S.Listening, 0, false, [1])
    ensures z.q == y.q.(mem := y.q.mem.(counter := 2), consumer := Answered(1), hist := y.q.hist.(fate := Undecided))
  {
    hide S.Reachable; hide ReadAt; hide Entries;
    var s := Sess(true, None, None, S.Between, S.Listening, 0, true, []);
    assert y.q.hist.lost + [] == y.q.hist.lost;
    z := Do(y, S.ClientStarts);
    assert z == S.System(y.q.(consumer := SwitchLoaded(1)), s);
    z := Do(z, S.ClientSwitches);
    assert z == S.System(y.q.(consumer := SwitchZeroedAcquired(1)), s);
    z := Do(z, S.ClientSwitches);
    assert z == S.System(y.q.(consumer := SwitchZeroedWritten(1)), s);
    z := Do(z, S.ClientSwitches);
  }

  lemma Responds(y: S.System) returns (z: S.System)
    requires S.Reachable(y) && y.s == Sess(true, None, None, S.Between, S.Listening, 0, false, [1])
    ensures S.Reachable(z) && z == y.(s := Calm(true, Some(1), Some(2), S.Between))
  {
    hide S.Reachable;
    z := Do(y, S.Dispatching);
    assert z == y.(s := Sess(true, None, None, S.Between, S.Delivering(1), 0, false, []));
    z := Do(z, S.Dispatching);
    assert z == y.(s := Sess(true, Some(1), Some(2), S.Between, S.Delivered, 0, false, []));
    z := Do(z, S.Dispatching);
  }

  /** The first check finds the odd block released. */
  lemma Confirms(y: S.System) returns (z: S.System)
    requires S.Reachable(y) && y.s == Calm(true, Some(1), Some(2), S.Between) && y.q.consumer == Answered(1)
    requires y.q.mem.odd.writers == 0 && y.q.mem.odd.written == y.q.mem.odd.acquired
    ensures S.Reachable(z) && z == S.System(y.q.(consumer := Confirmed(1)), Calm(true, Some(1), Some(2), S.Setting(1)))
  {
    hide S.Reachable; hide ReadAt; hide Entries; hide Cropped;
    var s := Calm(true, Some(1), Some(2), S.Checking(1));
    z := DoWork(y);
    assert z == y.(s := Calm(true, Some(1), Some(2), S.Peeking));
    z := DoWork(z);
    assert z == y.(s := s);
    z := DoWork(z);
    assert z == S.System(y.q.(consumer := FirstSawNoWriters(1)), s);
    z := DoWork(z);
    assert z == S.System(y.q.(consumer := FirstLoadedWritten(1, y.q.mem.odd.written)), s);
    z := DoWork(z);
  }

  /** Thread 1, which loaded the counter long ago, raises the count; the second check refuses, and the tick ends. */
  lemma RefusedByLoser(y: S.System) returns (z: S.System)
    requires S.Reachable(y) && y.s == Calm(true, Some(1), Some(2), S.Setting(1)) && y.q.consumer == Confirmed(1)
    requires y.q.mem.odd.writers == 0 && PcOf(y.q, 1) == Loaded(1, 1)
    ensures S.Reachable(z) && z.s == Calm(false, None, Some(2), S.Between)
    ensures z.q == y.q.(mem := y.q.mem.(odd := y.q.mem.odd.(writers := 1)), threads := y.q.threads[1 := Candidate(1, 1)],
                        consumer := Resting, hist := y.q.hist.(fate := Dropped, refusals := y.q.hist.refusals + 1))
  {
    hide S.Reachable; hide ReadAt; hide Entries; hide Cropped;
    z := Do(y, S.Write(Advance(1)));
    z := DoWork(z);
    z := EndsTick(z);
  }

  lemma EndsTick(y: S.System) returns (z: S.System)
    requires S.Reachable(y) && y.s == Calm(true, Some(1), Some(2), S.Clearing(1)) && y.q.consumer == Resting
    ensures S.Reachable(z) && z.s == Calm(false, None, Some(2), S.Between) && z.q == y.q
  {
    hide S.Reachable; hide ConsumeStep; hide ReadAt; hide Cropped;
    z := DoWork(y);
    assert z == y.(s := Calm(true, None, Some(2), S.Reading(true)));
    z := DoWork(z);
    assert z == y.(s := Calm(true, None, Some(2), S.Polling(true)));
    z := DoWork(z);
    assert z == y.(s := Calm(true, None, Some(2), S.Deciding(true, false)));
    z := DoWork(z);
  }

  /** The session has refused the odd block with entry 7; entry 8 sits in the active even block. */
  predicate PassedOver(y: S.System) {
    && y.s == Calm(false, None, Some(2), S.Between)
    && y.q.consumer == Resting && y.q.mem.counter == 2 && y.q.expected == 1
    && y.q.mem.odd.Size() == 16 && y.q.mem.odd.log == [Message(7)]
    && y.q.mem.even.Size() == 16 && y.q.mem.even.acquired == 9 && y.q.mem.even.log == [Message(8)]
    && y.q.hist == History(Dropped, [], [], [], [[7], [8]], 1)
  }

  lemma Fresh() returns (y: S.System)
    ensures S.Reachable(y) && y.s == Calm(false, None, None, S.Between)
    ensures y.q.threads == map[] && y.q.consumer == Resting && y.q.expected == 1 && y.q.hist == History(Blank, [], [], [], [], 0)
    ensures y.q.mem.counter == 1 && FreshBlock(y.q.mem.even) && FreshBlock(y.q.mem.odd)
    ensures y.q.mem.even.Size() == 16 && y.q.mem.odd.Size() == 16
  {
    hide S.Apply; hide S.Enabled;
    var blk := Block(seq(16, i => 0), 0, 0, 0, []);
    var q := State(Memory(1, blk, blk), map[], Resting, 1, History(Blank, [], [], [], [], 0));
    y := S.System(q, Calm(false, None, None, S.Between));
    assert S.Init(y) && S.Run(y, []) == Some(y);
  }

  /** Thread 1 loads the counter and is then left alone for a while. */
  lemma Starts() returns (y: S.System)
    ensures Ready(y, Odd) && y.s == Calm(false, None, None, S.Between) && y.q.consumer == Resting
    ensures y.q.mem.counter == 1 && y.q.expected == 1 && FreshBlock(y.q.mem.even) && y.q.mem.even.Size() == 16
    ensures y.q.threads == map[1 := Loaded(1, 1)] && y.q.hist == History(Blank, [], [], [], [], 0)
  {
    hide S.Reachable; hide FreshBlock;
    y := Fresh();
    y := Do(y, S.Write(Begin(1, 1)));
  }

  lemma PassesOver() returns (y: S.System)
    ensures S.Reachable(y) && PassedOver(y)
  {
    hide S.Reachable; hide FreshBlock;
    y := Starts();
    y := WritesOne(y, Odd, 7);
    assert [] + [[7]] == [[7]];
    y := RefusesOdd(y);
    y := WritesEight(y);
  }

  /** From the first request to the end of the tick that refuses the odd block. */
  lemma RefusesOdd(y: S.System) returns (z: S.System)
    requires S.Reachable(y) && y.s == Calm(false, None, None, S.Between) && y.q.consumer == Resting
    requires y.q.mem.counter == 1 && FreshBlock(y.q.mem.even) && y.q.hist.fate == Blank && y.q.hist.refusals == 0
    requires y.q.mem.odd.writers == 0 && y.q.mem.odd.written == y.q.mem.odd.acquired && PcOf(y.q, 1) == Loaded(1, 1)
    ensures S.Reachable(z) && z.s == Calm(false, None, Some(2), S.Between)
    ensures z.q == y.q.(mem := y.q.mem.(counter := 2, odd := y.q.mem.odd.(writers := 1)),
                        threads := y.q.threads[1 := Candidate(1, 1)], hist := y.q.hist.(fate := Dropped, refusals := 1))
  {
    hide S.Reachable; hide FreshBlock;
    z := Asks(y, None);
    z := FirstSwitch(z);
    z := Responds(z);
    z := Confirms(z);
    z := RefusedByLoser(z);
  }

  lemma WritesEight(y: S.System) returns (z: S.System)
    requires S.Reachable(y) && y.s == Calm(false, None, Some(2), S.Between) && y.q.consumer == Resting
    requires y.q.mem.counter == 2 && y.q.expected == 1 && PcOf(y.q, 0) == Idle
    requires y.q.mem.odd.Size() == 16 && y.q.mem.odd.log == [Message(7)]
    requires y.q.mem.even.Size() == 16 && FreshBlock(y.q.mem.even) && y.q.hist == History(Dropped, [], [], [], [[7]], 1)
    ensures S.Reachable(z) && PassedOver(z)
  {
    hide S.Reachable;
    z := WritesOne(y, Even, 8);
    assert [[7]] + [[8]] == [[7], [8]];
  }

  lemma OneEntry(v: Byte)
    ensures Entries(16, [Message(v)]) == [[v]]
  {
    assert [Message(v)][..0] == [];
  }

  // ----- The two losses -----

  /** Entry 7 was released, never delivered, and is in no block any more: `Switch` has cleared its refused block. */
  predicate Lost(q: State) {
    && q.hist.released == [[7], [8]] && q.hist.delivered == [] && q.hist.lost == [[7]]
    && q.hist.archive == [Epoch(16, [Message(7)], false)]
    && q.mem.odd.log == [] && q.mem.odd.acquired == 0 && q.mem.even.log == [Message(8)]
  }

  lemma ReleasedEntryCanBeLost() returns (y: S.System)
    ensures S.Reachable(y) && Reachable(y.q) && Lost(y.q)
  {
    hide S.Reachable; hide Reachable; hide Entries;
    y := PassesOver();
    y := Asks(y, Some(2));
    y := Do(y, S.ClientStarts);
    assert y.q.consumer == SwitchLoaded(2);
    OneEntry(7);
    y := Do(y, S.ClientSwitches);
    QueueIsReachable(y);
  }

  /** The tick that finds the peer closed comes to the detached read. */
  lemma Detaches(y: S.System) returns (z: S.System)
    requires S.Reachable(y) && PassedOver(y)
    ensures S.Reachable(z) && z.q == y.q && z.s.worker == S.Detaching(false) && z.s.detached && OpenAcquires(z.s) == 0
  {
    hide S.Reachable; hide ReadAt; hide Cropped;
    z := Do(y, S.CloseByPeer);
    z := DoWork(z);
    assert z == y.(s := y.s.(closed := true, worker := S.Peeking));
    z := DoWork(z);
    assert z == y.(s := y.s.(closed := true, worker := S.Reading(false)));
    z := DoWork(z);
    assert z == y.(s := y.s.(closed := true, worker := S.Polling(false)));
    z := DoWork(z);
  }

  /** The detached read, once begun, comes to its end. */
  lemma {:induction false} ReadsToTheEnd(y: S.System, begun: seq<S.Step>, now: S.System) returns (steps: seq<S.Step>, z: S.System)
    requires S.Run(y, begun) == Some(now) && NoWrites(begun) && ReadSoFar(now.q, now.s) && S.Reachable(now)
    ensures S.Run(y, steps) == Some(z) && NoWrites(steps) && Finished(z.s) && S.Reachable(z)
    decreases match now.s.worker
              case Detaching(_) => |Remains(now.q)| + 2
              case Emptying(_, _, limit, index) => if index <= limit then limit - index + 1 else 1
              case _ => 0
  {
    hide S.Run; hide S.Reachable; hide NoWrites; hide DrainFrom; hide ConsumeStep; hide S.Peek;
    if Finished(now.s) {
      steps, z := begun, now;
    } else {
      var p := S.Work(S.Sent);
      ReadingStep(now, p);
      ExtendSystemRun(y, begun, now, p);
      NoWritesSnoc(begun, p);
      var next := Do(now, p);
      steps, z := ReadsToTheEnd(y, begun + [p], next);
    }
  }

  /**
   * After one refusal the detached read delivers the refused entry 7 and misses entry 8 of the active block, which is
   * complete and whose writer has finished; and nothing delivers it later.
   */
  lemma DetachedReadCanMiss() returns (y: S.System)
    ensures S.Reachable(y) && Finished(y.s) && y.q.hist.refusals == 1
    ensures y.q.hist.released == [[7], [8]] && y.q.hist.delivered == [] && y.q.hist.lost == [] && y.s.tail == Some([[7]])
    ensures T.Missed(y.q) == [[8]]
    ensures forall steps: seq<S.Step>, z: S.System :: S.Run(y, steps) == Some(z) ==>
              z.q.hist.delivered == [] && z.s.tail == Some([[7]])
  {
    hide S.Reachable; hide S.Run; hide Entries; hide DrainFrom; hide Flat; hide NoWrites;
    var x := PassesOver();
    x := Detaches(x);
    OneEntry(7);
    OneEntry(8);
    StartsReading(x);
    var steps;
    steps, y := ReadsToTheEnd(x, [], x);
    DetachedReadDelivers(x, steps, y);
    forall steps: seq<S.Step>, z: S.System | S.Run(y, steps) == Some(z)
      ensures z.q.hist.delivered == [] && z.s.tail == Some([[7]])
    {
      DetachedIsFinal(y, steps, z);
    }
  }

  lemma StartsReading(y: S.System)
    requires y.s.worker.Detaching? && y.s.detached && OpenAcquires(y.s) == 0
    ensures S.Run(y, []) == Some(y) && NoWrites([]) && ReadSoFar(y.q, y.s)
  {
  }
}
