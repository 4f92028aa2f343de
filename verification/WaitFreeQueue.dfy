/**
 * The wait-free multiple-producer queue over two alternating linear blocks, as a step machine.
 *
 * Every step is one atomic operation, or one byte store, of one thread. Any number of writer
 * threads interleave with the single consumer side: the client that performs `Switch` and the
 * session that inspects and drains the retired block.
 */
module WaitFreeQueue {
  import opened Options
  import opened Bytes
  import opened LinearBuffer
  import opened LinearReading

  const UINT32_RANGE: nat := 0x1_0000_0000

  /** Values of the 32-bit switch counter. */
  type Counter = c: int | 0 <= c < UINT32_RANGE

  function Next(c: Counter): Counter { (c + 1) % UINT32_RANGE }

  datatype BlockId = Even | Odd

  /** The block that counter value `c` selects for writing. */
  function Select(c: Counter): BlockId { if c % 2 == 0 then Even else Odd }

  function Opposite(id: BlockId): BlockId { if id == Even then Odd else Even }

  /** The counter wraps at an even number, so every increment flips the selection. */
  lemma NextFlips(c: Counter)
    ensures Select(Next(c)) == Opposite(Select(c))
    ensures Next(c) != c
  {
  }

  // ----- Writer threads -----

  /** What a writer thread does next; each value waits in front of one atomic operation. */
  datatype Pc =
    | Idle
    | Loaded(len: nat, seen: Counter)               // add 1 to the candidate's number_of_writers
    | Candidate(len: nat, seen: Counter)            // re-load the counter
    | LostFirst(len: nat, seen: Counter)            // one switch slipped in: add 1 to the other block
    | HoldsBoth(len: nat, seen: Counter)            // re-load the counter again
    | Settling(len: nat, seen: Counter, won: bool)  // give the candidate back
    | GiveUpSecond(seen: Counter)                   // lost again: give the other block back
    | GiveUpFirst(seen: Counter)                    // more than one switch: give the candidate back
    | Won(len: nat, b: BlockId)                     // linear Acquire: add 1 once more
    | Entered(len: nat, b: BlockId)                 // load number_of_writers
    | Counted(len: nat, b: BlockId)                 // load acquired_index
    | Roomy(len: nat, b: BlockId)                   // add to acquired_index
    | Reserving(b: BlockId, i: nat)                 // store the length prefix
    | Terminating(b: BlockId, i: nat)               // overran: store the prefix if it fits, publish
    | Refused(b: BlockId)                           // linear Acquire failed: subtract 1
    | Leaving(b: BlockId)                           // Acquire failed: release the block
    | Prefixed(b: BlockId, i: nat)                  // Acquire succeeds: release the block
    | Owner(b: BlockId, i: nat)                     // the caller fills its span, then releases
    | Published(b: BlockId)                         // Release: subtract 1

  // ----- Consumer side -----

  datatype Consumer =
    | Resting                                       // nothing outstanding
    | Requested                                     // an acquire request is on its way to the client
    | SwitchLoaded(c: Counter)                      // Switch: zero the restarting block's acquired_index
    | SwitchZeroedAcquired(c: Counter)              // Switch: zero its written_index
    | SwitchZeroedWritten(c: Counter)               // Switch: increment the counter
    | Answered(c: Counter)                          // response under way; first check loads number_of_writers
    | FirstSawNoWriters(c: Counter)                 // first check loads written_index
    | FirstLoadedWritten(c: Counter, w: nat)        // first check loads acquired_index
    | Confirmed(c: Counter)                         // second check loads number_of_writers
    | SecondSawNoWriters(c: Counter)
    | SecondLoadedWritten(c: Counter, w: nat)
    | Accepted(c: Counter)                          // create the linear reader
    | Draining(c: Counter, limit: nat, index: nat)  // read entries until the first empty read

  /** What became of the retired block. */
  datatype Fate = Blank | Undecided | Taken | Dropped

  /** A block as `Switch` cleared it. */
  datatype Epoch = Epoch(size: nat, log: seq<Reservation>, taken: bool)

  /** History variables: they record what happened and influence no step. */
  datatype History = History(
    fate: Fate,
    archive: seq<Epoch>,            // retired blocks, as they were when Switch cleared them
    delivered: seq<seq<Entry>>,     // one group of entries per drained block
    lost: seq<Entry>,               // entries of refused blocks that Switch has cleared
    released: seq<Entry>,           // span contents at the moment of each Release
    refusals: nat)                  // refused finalisations since the last accepted one

  datatype Memory = Memory(counter: Counter, even: Block, odd: Block)

  datatype State = State(
    mem: Memory,
    threads: map<nat, Pc>,
    consumer: Consumer,
    expected: Counter,              // buffer_expected_to_read_next_
    hist: History)

  function At(m: Memory, id: BlockId): Block { if id == Even then m.even else m.odd }

  function With(m: Memory, id: BlockId, b: Block): Memory {
    if id == Even then m.(even := b) else m.(odd := b)
  }

  function Active(m: Memory): BlockId { Select(m.counter) }
  function Retired(m: Memory): BlockId { Opposite(Select(m.counter)) }

  function PcOf(s: State, w: nat): Pc { if w in s.threads then s.threads[w] else Idle }

  function Subtract(n: nat): nat { if n == 0 then UINT64_RANGE - 1 else n - 1 }

  function AddWriter(m: Memory, id: BlockId): Memory {
    With(m, id, At(m, id).(writers := At(m, id).writers + 1))
  }

  function SubWriter(m: Memory, id: BlockId): Memory {
    With(m, id, At(m, id).(writers := Subtract(At(m, id).writers)))
  }

  // ----- Initial state and steps -----

  predicate FreshBlock(b: Block) {
    b.acquired == 0 && b.written == 0 && b.writers == 0 && b.log == []
  }

  predicate Init(s: State) {
    && s.mem.counter == 1
    && FreshBlock(s.mem.even) && FreshBlock(s.mem.odd)
    && s.threads == map[]
    && s.consumer == Resting
    && s.expected == 1
    && s.hist == History(Blank, [], [], [], [], 0)
  }

  datatype Action =
    | Begin(w: nat, len: nat)             // a thread calls Acquire(len)
    | Advance(w: nat)                     // a thread performs its next atomic operation
    | Store(w: nat, k: nat, v: Byte)      // the owner of a span stores a payload byte
    | Consume                             // the consumer side performs its next operation

  predicate CanAdvance(s: State, w: nat) {
    match PcOf(s, w)
    case Idle => false
    case Reserving(b, i) =>
      var blk := At(s.mem, b);
      i < |blk.log| && blk.log[i].prefixBytes < PREFIX && blk.log[i].offset + PREFIX <= blk.Size()
    case Terminating(b, i) =>
      var blk := At(s.mem, b);
      i < |blk.log| && blk.log[i].prefixBytes <= PREFIX
    case Owner(b, i) => i < |At(s.mem, b).log|
    case _ => true
  }

  predicate CanStore(s: State, w: nat, k: nat) {
    var pc := PcOf(s, w);
    && pc.Owner?
    && var blk := At(s.mem, pc.b);
       && pc.i < |blk.log|
       && Granted(blk.Size(), blk.log[pc.i]) && k < blk.log[pc.i].length == |blk.log[pc.i].payload|
  }

  predicate Enabled(s: State, a: Action) {
    match a
    case Begin(w, _) => PcOf(s, w) == Idle
    case Advance(w) => CanAdvance(s, w)
    case Store(w, k, _) => CanStore(s, w, k)
    case Consume => true
  }

  function Apply(s: State, a: Action): State
    requires Enabled(s, a)
  {
    match a
    case Begin(w, len) => s.(threads := s.threads[w := Loaded(len, s.mem.counter)])
    case Advance(w) => AdvanceThread(s, w)
    case Store(w, k, v) =>
      var pc := PcOf(s, w);
      s.(mem := With(s.mem, pc.b, PutPayloadByte(At(s.mem, pc.b), pc.i, k, v)))
    case Consume => ConsumeStep(s)
  }

  /** Thread `w` moves to `pc` with memory `m`. */
  function Move(s: State, w: nat, pc: Pc, m: Memory): State {
    s.(threads := s.threads[w := pc], mem := m)
  }

  function AdvanceThread(s: State, w: nat): State
    requires CanAdvance(s, w)
  {
    var pc := PcOf(s, w);
    if pc.Loaded? || pc.Candidate? || pc.LostFirst? || pc.HoldsBoth? || pc.Settling? || pc.GiveUpSecond? || pc.GiveUpFirst?
    then Arbitrate(s, w, pc)
    else if pc.Roomy? || pc.Reserving? || pc.Terminating? || pc.Owner?
    then Fill(s, w, pc)
    else Enter(s, w, pc)
  }

  /** `AcquireBlock`: two-stage arbitration against a concurrent `Switch`. */
  function Arbitrate(s: State, w: nat, pc: Pc): State
    requires pc.Loaded? || pc.Candidate? || pc.LostFirst? || pc.HoldsBoth? || pc.Settling? || pc.GiveUpSecond? || pc.GiveUpFirst?
  {
    var id := Select(pc.seen);
    match pc
    case Loaded(len, c) => Move(s, w, Candidate(len, c), AddWriter(s.mem, id))
    case Candidate(len, c) =>
      Move(s, w, if s.mem.counter == c then Won(len, id)
                 else if s.mem.counter == Next(c) then LostFirst(len, c)
                 else GiveUpFirst(c), s.mem)
    case LostFirst(len, c) => Move(s, w, HoldsBoth(len, c), AddWriter(s.mem, Opposite(id)))
    case HoldsBoth(len, c) => Move(s, w, Settling(len, c, s.mem.counter == Next(c)), s.mem)
    case Settling(len, c, won) =>
      Move(s, w, if won then Won(len, Opposite(id)) else GiveUpSecond(c), SubWriter(s.mem, id))
    case GiveUpSecond(c) => Move(s, w, Idle, SubWriter(s.mem, Opposite(id)))
    case GiveUpFirst(c) => Move(s, w, Idle, SubWriter(s.mem, id))
  }

  /** The checks of the linear `Acquire` and all releases of `number_of_writers`. */
  function Enter(s: State, w: nat, pc: Pc): State
    requires pc.Won? || pc.Entered? || pc.Counted? || pc.Refused? || pc.Leaving? || pc.Prefixed? || pc.Published?
  {
    var blk := At(s.mem, pc.b);
    match pc
    case Won(len, b) => Move(s, w, Entered(len, b), AddWriter(s.mem, b))
    case Entered(len, b) =>
      Move(s, w, if blk.writers > MAX_CONCURRENT_WRITERS || len > MAX_LENGTH then Refused(b) else Counted(len, b), s.mem)
    case Counted(len, b) =>
      Move(s, w, if blk.acquired >= MAX_CAPACITY || !Fits(blk.Size(), blk.acquired, len + PREFIX)
                 then Refused(b) else Roomy(len, b), s.mem)
    case Refused(b) => Move(s, w, Leaving(b), SubWriter(s.mem, b))
    case Leaving(b) => Move(s, w, Idle, SubWriter(s.mem, b))
    case Prefixed(b, i) => Move(s, w, Owner(b, i), SubWriter(s.mem, b))
    case Published(b) => Move(s, w, Idle, SubWriter(s.mem, b))
  }

  /** The operations that touch indices and bytes of a block. */
  function Fill(s: State, w: nat, pc: Pc): State
    requires pc.Roomy? || pc.Reserving? || pc.Terminating? || pc.Owner?
    requires pc == PcOf(s, w) && CanAdvance(s, w)
  {
    var blk := At(s.mem, pc.b);
    match pc
    case Roomy(len, b) =>
      Move(s, w, if Fits(blk.Size(), blk.acquired, len + PREFIX) then Reserving(b, |blk.log|) else Terminating(b, |blk.log|),
           With(s.mem, b, Reserve(blk, w, len)))
    case Reserving(b, i) =>
      Move(s, w, if blk.log[i].prefixBytes + 1 == PREFIX then Prefixed(b, i) else pc, With(s.mem, b, PutPrefixByte(blk, i)))
    case Terminating(b, i) =>
      if blk.log[i].offset + PREFIX <= blk.Size() && blk.log[i].prefixBytes < PREFIX
      then Move(s, w, pc, With(s.mem, b, PutPrefixByte(blk, i)))
      else Move(s, w, Refused(b), With(s.mem, b, Publish(blk, i)))
    case Owner(b, i) =>
      Move(s, w, Published(b), With(s.mem, b, Publish(blk, i)))
      .(hist := s.hist.(released := s.hist.released + [blk.log[i].payload]))
  }

  function ConsumeStep(s: State): State {
    match s.consumer
    case Resting => s.(consumer := Requested)
    case Requested => s.(consumer := SwitchLoaded(s.mem.counter))
    case SwitchLoaded(c) => ZeroAcquired(s, c)
    case SwitchZeroedAcquired(c) =>
      var id := Opposite(Select(c));
      s.(mem := With(s.mem, id, At(s.mem, id).(written := 0)), consumer := SwitchZeroedWritten(c))
    case SwitchZeroedWritten(_) =>
      s.(mem := s.mem.(counter := Next(s.mem.counter)), consumer := Answered(s.mem.counter),
         hist := s.hist.(fate := Undecided))
    case Answered(c) =>
      if At(s.mem, Select(c)).writers == 0 then s.(consumer := FirstSawNoWriters(c)) else s
    case FirstSawNoWriters(c) => s.(consumer := FirstLoadedWritten(c, At(s.mem, Select(c)).written))
    case FirstLoadedWritten(c, w) =>
      s.(consumer := if w == At(s.mem, Select(c)).acquired then Confirmed(c) else Answered(c))
    case Confirmed(c) =>
      if At(s.mem, Select(c)).writers == 0 then s.(consumer := SecondSawNoWriters(c)) else Drop(s)
    case SecondSawNoWriters(c) => s.(consumer := SecondLoadedWritten(c, At(s.mem, Select(c)).written))
    case SecondLoadedWritten(c, w) =>
      if w == At(s.mem, Select(c)).acquired then s.(consumer := Accepted(c)) else Drop(s)
    case Accepted(c) => OpenReader(s, c)
    case Draining(c, limit, index) => ReadEntry(s, c, limit, index)
  }

  /** `Switch` clears the block it is about to hand to the writers; its reservations are archived. */
  function ZeroAcquired(s: State, c: Counter): State {
    var id := Opposite(Select(c));
    var blk := At(s.mem, id);
    s.(mem := With(s.mem, id, blk.(acquired := 0, log := [])),
       consumer := SwitchZeroedAcquired(c),
       hist := s.hist.(fate := Blank,
                       lost := s.hist.lost + (if s.hist.fate == Dropped then Entries(blk.Size(), blk.log) else []),
                       archive := if s.hist.fate == Blank then s.hist.archive
                                  else s.hist.archive + [Epoch(blk.Size(), blk.log, s.hist.fate == Taken)]))
  }

  /** `NotifyAcquisitionSetReader` refuses, its result is ignored, and the acquire counts as finalised. */
  function Drop(s: State): State {
    s.(consumer := Resting, hist := s.hist.(fate := Dropped, refusals := s.hist.refusals + 1))
  }

  /** `NotifyAcquisitionSetReader` creates the linear reader. */
  function OpenReader(s: State, c: Counter): State {
    var blk := At(s.mem, Select(c));
    s.(consumer := Draining(c, if blk.written < blk.Size() then blk.written else blk.Size(), 0),
       expected := Next(c),
       hist := s.hist.(fate := Taken, delivered := s.hist.delivered + [[]], refusals := 0))
  }

  function ReadEntry(s: State, c: Counter, limit: nat, index: nat): State {
    var r := ReadAt(Cropped(At(s.mem, Select(c)).data, limit), index);
    var n := |s.hist.delivered|;
    if r.entry.None? || n == 0 then s.(consumer := Resting)
    else s.(consumer := Draining(c, limit, r.next),
            hist := s.hist.(delivered := s.hist.delivered[n - 1 := s.hist.delivered[n - 1] + [r.entry.value]]))
  }

  // ----- Runs -----

  /** The state after a run, or `None` if some action was not enabled when its turn came. */
  function Run(s: State, actions: seq<Action>): Option<State> {
    if actions == [] then Some(s)
    else
      match Run(s, actions[..|actions| - 1])
      case None => None
      case Some(t) =>
        if Enabled(t, actions[|actions| - 1]) then Some(Apply(t, actions[|actions| - 1])) else None
  }

  ghost predicate Reachable(s: State) {
    exists init: State, actions: seq<Action> :: Init(init) && Run(init, actions) == Some(s)
  }
}
