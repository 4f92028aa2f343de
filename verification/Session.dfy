/**
 * The session side of the acquire protocol: `SourceSession` ticking on the worker thread, the
 * dispatch thread that stores responses, the client that performs `Switch`, and the two locks.
 *
 * Each step is one locked section or one operation on the queue. Operations on the queue are
 * steps of the consumer side of `WaitFreeQueue`.
 */
module Session {
  import opened Options
  import opened Bytes
  import opened LinearBuffer
  import opened LinearReading
  import opened WaitFreeQueue

  const MAX_IDLE_TICKS: nat := 10

  /** Where the worker thread stands in `Tick`. */
  datatype Worker =
    | Between                                    // no tick in progress
    | Peeking                                    // copy data_acquired
    | Checking(d: Counter)                       // IsBlockReleasedByWriters
    | Setting(d: Counter)                        // NotifyAcquisitionSetReader
    | Clearing(d: Counter)                       // reset data_acquired
    | Reading(finalised: bool)                   // drain the linear reader, if one is set
    | Polling(finalised: bool)                   // has the peer closed?
    | Detaching(finalised: bool)                 // ReadDetached creates a reader on the block expected next
    | Emptying(finalised: bool, c: Counter, limit: nat, index: nat)  // ... and drains it
    | Deciding(finalised: bool, detach: bool)    // decide on the next request
    | Requesting                                 // holds command_data_, wants the server mutex
    | Notifying                                  // holds both
    | Closing(result: bool)                      // holds command_data_, stores acquire_requested

  /** Where the dispatch thread stands in `OnAcquireResponse`. */
  datatype Dispatch =
    | Listening
    | Delivering(c: Counter)                     // holds the server mutex, wants command_data_
    | Delivered                                  // still holds the server mutex

  /** What `NotifyAcquireRequest` may come to. */
  datatype Outcome = NoConnection | InFlight | PoolExhausted | NotifyFailed | Sent

  datatype Session = Session(
    acquireRequested: bool,
    dataAcquired: Option<Counter>,
    blockExpected: Option<Counter>,
    ticks: nat,
    closed: bool,                                // command_detach_on_closed
    detached: bool,                              // detach_on_closed_processed
    enabled: bool,
    worker: Worker,
    dispatch: Dispatch,
    requests: nat,                               // requests on their way to the client
    switching: bool,                             // the client is inside Switch
    responses: seq<Counter>,                     // responses on their way to the server
    tail: Option<seq<Entry>>)                    // history: what the detached read has delivered

  datatype System = System(q: State, s: Session)

  predicate Init(y: System) {
    && WaitFreeQueue.Init(y.q)
    && exists on: bool :: y.s == Session(false, None, None, 0, false, false, on, Between, Listening, 0, false, [], None)
  }

  // ----- Locks -----

  predicate CommandHeldByWorker(s: Session) {
    s.worker.Requesting? || s.worker.Notifying? || s.worker.Closing?
  }

  // ----- Steps -----

  datatype Step =
    | Write(a: Action)                           // any step of a writer thread
    | Work(outcome: Outcome)                     // the worker thread moves on
    | Dispatching                                // the dispatch thread moves on
    | ClientStarts                               // the client takes a request and loads the counter
    | ClientSwitches                             // the next operation of Switch
    | CloseByPeer
    | Enable(on: bool)

  /** What the decision at the end of a tick amounts to. */
  datatype Decision = Finished | Ask | Idled | Passed

  /** The decision taken under the command lock; `peek` is `acquired_index` of the expected block. */
  function Decide(s: Session, finalised: bool, detach: bool, peek: nat): Decision {
    if finalised then Finished
    else if !s.acquireRequested && s.enabled && !detach then
      if s.blockExpected.None? || peek > 0 || s.ticks > MAX_IDLE_TICKS then Ask else Idled
    else Passed
  }

  function Decided(s: Session, d: Decision): Session {
    match d
    case Finished => s.(acquireRequested := false, ticks := 0, worker := Between)
    case Ask => s.(worker := Requesting)
    case Idled => s.(ticks := (s.ticks + 1) % 256, worker := Between)
    case Passed => s.(worker := Between)
  }

  function Peek(q: State, expected: Option<Counter>): nat {
    if expected.None? then 0 else At(q.mem, Select(expected.value)).acquired
  }

  predicate CanWork(s: Session) {
    s.worker.Requesting? ==> s.dispatch.Listening?
  }

  predicate CanDispatch(s: Session) {
    match s.dispatch
    case Listening => s.responses != [] && !s.worker.Notifying?
    case Delivering(_) => !CommandHeldByWorker(s)
    case Delivered => true
  }

  predicate Enabled(y: System, p: Step) {
    match p
    case Write(a) => !a.Consume? && WaitFreeQueue.Enabled(y.q, a)
    case Work(_) => CanWork(y.s)
    case Dispatching => CanDispatch(y.s)
    case ClientStarts => y.s.requests > 0 && !y.s.switching
    case ClientSwitches => y.s.switching
    case CloseByPeer => true
    case Enable(_) => true
  }

  /**
   * The operation on the queue that the step performs, as the phase the queue must be in for it:
   * a session in `Checking(d)` runs the first check on block `d`, and so on.
   */
  predicate PhaseFits(y: System, p: Step) {
    match p
    case Work(outcome) =>
      (match y.s.worker
       case Checking(d) => y.q.consumer == Answered(d) || y.q.consumer == FirstSawNoWriters(d)
                           || (y.q.consumer.FirstLoadedWritten? && y.q.consumer.c == d)
       case Setting(d) => y.q.consumer == Confirmed(d) || y.q.consumer == SecondSawNoWriters(d)
                          || (y.q.consumer.SecondLoadedWritten? && y.q.consumer.c == d) || y.q.consumer == Accepted(d)
       case Notifying => outcome.Sent? ==> y.q.consumer == Resting
       case _ => true)
    case ClientStarts => y.q.consumer == Requested
    case ClientSwitches => y.q.consumer.SwitchLoaded? || y.q.consumer.SwitchZeroedAcquired? || y.q.consumer.SwitchZeroedWritten?
    case _ => true
  }

  function Apply(y: System, p: Step): System
    requires Enabled(y, p)
  {
    var s := y.s;
    match p
    case Write(a) => y.(q := WaitFreeQueue.Apply(y.q, a))
    case Work(outcome) => WorkStep(y, outcome)
    case Dispatching => y.(s := DispatchStep(s))
    case ClientStarts => System(ConsumeStep(y.q), s.(requests := s.requests - 1, switching := true))
    case ClientSwitches =>
      var q := ConsumeStep(y.q);
      if q.consumer.Answered?
      then System(q, s.(switching := false, responses := s.responses + [q.consumer.c]))
      else System(q, s)
    case CloseByPeer => y.(s := s.(closed := true))
    case Enable(on) => y.(s := s.(enabled := on))
  }

  function DispatchStep(s: Session): Session
    requires CanDispatch(s)
  {
    match s.dispatch
    case Listening => s.(dispatch := Delivering(s.responses[0]), responses := s.responses[1..])
    case Delivering(c) => s.(dataAcquired := Some(c), blockExpected := Some(Next(c)), dispatch := Delivered)
    case Delivered => s.(dispatch := Listening)
  }

  function WorkStep(y: System, outcome: Outcome): System {
    var s, q := y.s, y.q;
    match s.worker
    case Between => if s.detached then y else y.(s := s.(worker := Peeking))
    case Peeking =>
      y.(s := s.(worker := if s.dataAcquired.Some? then Checking(s.dataAcquired.value) else Reading(false)))
    case Checking(d) =>
      var q' := ConsumeStep(q);
      System(q', s.(worker := if q'.consumer.Confirmed? then Setting(d)
                              else if q'.consumer.Answered? then Reading(false) else Checking(d)))
    case Setting(d) =>
      var q' := ConsumeStep(q);
      System(q', s.(worker := if q'.consumer.Resting? || q'.consumer.Draining? then Clearing(d) else Setting(d)))
    case Clearing(_) => y.(s := s.(dataAcquired := None, worker := Reading(true)))
    case Reading(finalised) =>
      if q.consumer.Draining? then y.(q := ConsumeStep(q)) else y.(s := s.(worker := Polling(finalised)))
    case Polling(finalised) =>
      y.(s := if s.closed then s.(worker := Detaching(finalised), detached := true) else s.(worker := Deciding(finalised, false)))
    case Detaching(finalised) =>
      var b := At(q.mem, Select(q.expected));
      y.(s := s.(worker := Emptying(finalised, q.expected, |Cropped(b.data, b.written)|, 0), tail := Some([])))
    case Emptying(finalised, c, limit, index) =>
      var r := ReadAt(Cropped(At(q.mem, Select(c)).data, limit), index);
      y.(s := if r.entry.None? || s.tail.None? then s.(worker := Deciding(finalised, true))
              else s.(worker := Emptying(finalised, c, limit, r.next), tail := Some(s.tail.value + [r.entry.value])))
    case Deciding(finalised, detach) =>
      y.(s := Decided(s, Decide(s, finalised, detach, Peek(q, s.blockExpected))))
    case Requesting => y.(s := s.(worker := Notifying))
    case Notifying =>
      if outcome.Sent?
      then System(ConsumeStep(q), s.(worker := Closing(true), requests := s.requests + 1))
      else y.(s := s.(worker := Closing(!outcome.NoConnection?)))
    case Closing(result) => y.(s := s.(acquireRequested := result, worker := Between))
  }

  function Run(y: System, steps: seq<Step>): Option<System> {
    if steps == [] then Some(y)
    else
      match Run(y, steps[..|steps| - 1])
      case None => None
      case Some(z) => if Enabled(z, steps[|steps| - 1]) then Some(Apply(z, steps[|steps| - 1])) else None
  }

  ghost predicate Reachable(y: System) {
    exists init: System, steps: seq<Step> :: Init(init) && Run(init, steps) == Some(y)
  }
}
