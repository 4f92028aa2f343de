/** The invariant of the wait-free queue, and the proof that the writers' steps keep it. */
module QueueInvariant {
  import opened Options
  import opened Bytes
  import opened LinearBuffer
  import opened LinearReading
  import opened WaitFreeQueue

  // ----- Who holds what -----

  /** `pc` holds the count taken on block `id` by the arbitration. */
  predicate Outer(pc: Pc, id: BlockId) {
    match pc
    case Candidate(_, c) => id == Select(c)
    case LostFirst(_, c) => id == Select(c)
    case GiveUpFirst(c) => id == Select(c)
    case HoldsBoth(_, _) => true
    case Settling(_, _, _) => true
    case GiveUpSecond(c) => id == Opposite(Select(c))
    case Won(_, b) => id == b
    case Entered(_, b) => id == b
    case Counted(_, b) => id == b
    case Roomy(_, b) => id == b
    case Reserving(b, _) => id == b
    case Terminating(b, _) => id == b
    case Refused(b) => id == b
    case Leaving(b) => id == b
    case Prefixed(b, _) => id == b
    case _ => false
  }

  /** `pc` holds the count taken on block `id` by the linear `Acquire`. */
  predicate Inner(pc: Pc, id: BlockId) {
    match pc
    case Entered(_, b) => id == b
    case Counted(_, b) => id == b
    case Roomy(_, b) => id == b
    case Reserving(b, _) => id == b
    case Terminating(b, _) => id == b
    case Refused(b) => id == b
    case Prefixed(b, _) => id == b
    case Owner(b, _) => id == b
    case Published(b) => id == b
    case _ => false
  }

  /** The arbitration has decided for block `id`, and the thread has not left it yet. */
  predicate Validated(pc: Pc, id: BlockId) {
    match pc
    case Settling(_, c, won) => won && id == Opposite(Select(c))
    case Won(_, b) => id == b
    case Leaving(b) => id == b
    case _ => Inner(pc, id)
  }

  function Held(pc: Pc, id: BlockId): nat {
    (if Outer(pc, id) then 1 else 0) + (if Inner(pc, id) then 1 else 0)
  }

  predicate HasReservation(pc: Pc, id: BlockId, i: nat) {
    (pc.Reserving? || pc.Terminating? || pc.Prefixed? || pc.Owner?) && pc.b == id && pc.i == i
  }

  function OuterSet(threads: map<nat, Pc>, id: BlockId): set<nat> {
    set w | w in threads && Outer(threads[w], id)
  }

  function InnerSet(threads: map<nat, Pc>, id: BlockId): set<nat> {
    set w | w in threads && Inner(threads[w], id)
  }

  // ----- Invariant -----

  /** `number_of_writers` of a block is exactly the number of counts held on it. */
  predicate TokenInv(threads: map<nat, Pc>, id: BlockId, n: nat) {
    n == |OuterSet(threads, id)| + |InnerSet(threads, id)|
  }

  predicate PcInv(m: Memory, w: nat, pc: Pc) {
    match pc
    case Counted(len, _) => len <= MAX_LENGTH
    case Roomy(len, _) => len <= MAX_LENGTH
    case Reserving(b, i) =>
      Owns(At(m, b).log, w, i) && At(m, b).log[i].prefixBytes < PREFIX && Granted(At(m, b).Size(), At(m, b).log[i])
    case Terminating(b, i) => Owns(At(m, b).log, w, i) && !Granted(At(m, b).Size(), At(m, b).log[i])
    case Prefixed(b, i) =>
      Owns(At(m, b).log, w, i) && At(m, b).log[i].prefixBytes == PREFIX && Granted(At(m, b).Size(), At(m, b).log[i])
    case Owner(b, i) =>
      Owns(At(m, b).log, w, i) && At(m, b).log[i].prefixBytes == PREFIX && Granted(At(m, b).Size(), At(m, b).log[i])
    case _ => true
  }

  predicate Owns(log: seq<Reservation>, w: nat, i: nat) {
    i < |log| && log[i].owner == w && !log[i].published
  }

  predicate ThreadsInv(m: Memory, threads: map<nat, Pc>) {
    forall w :: w in threads ==> PcInv(m, w, threads[w])
  }

  /** Every unpublished reservation belongs to a thread that is still working on it. */
  predicate OwnedInv(threads: map<nat, Pc>, id: BlockId, log: seq<Reservation>) {
    forall i :: 0 <= i < |log| && !log[i].published ==>
      log[i].owner in threads && HasReservation(threads[log[i].owner], id, i)
  }

  predicate NoneValidated(threads: map<nat, Pc>, id: BlockId) {
    forall w :: w in threads ==> !Validated(threads[w], id)
  }

  /** Between the exchange of `acquired_index` and of `written_index`, `written_index` is stale. */
  function Settled(s: State, id: BlockId): Block {
    var b := At(s.mem, id);
    if s.consumer.SwitchZeroedAcquired? && id == Retired(s.mem) then b.(written := 0) else b
  }

  predicate BlocksInv(s: State) {
    BlockInv(Settled(s, Even)) && BlockInv(Settled(s, Odd))
  }

  /** Except while an answer awaits its first successful look, the retired block is out of the writers' hands. */
  predicate FrozenInv(s: State) {
    !s.consumer.Answered? ==> NoneValidated(s.threads, Retired(s.mem))
  }

  predicate ConsumerInv(s: State) {
    var r := At(s.mem, Retired(s.mem));
    match s.consumer
    case Resting => s.hist.fate != Undecided
    case Requested => s.hist.fate != Undecided
    case SwitchLoaded(c) => c == s.mem.counter && s.hist.fate != Undecided
    case SwitchZeroedAcquired(c) => c == s.mem.counter && s.hist.fate == Blank && r.acquired == 0 && r.log == []
    case SwitchZeroedWritten(c) =>
      c == s.mem.counter && s.hist.fate == Blank && r.acquired == 0 && r.written == 0 && r.log == []
    case Answered(c) => s.mem.counter == Next(c) && s.hist.fate == Undecided
    case FirstSawNoWriters(c) => s.mem.counter == Next(c) && s.hist.fate == Undecided
    case FirstLoadedWritten(c, w) => s.mem.counter == Next(c) && s.hist.fate == Undecided && w == r.written
    case Confirmed(c) => s.mem.counter == Next(c) && s.hist.fate == Undecided
    case SecondSawNoWriters(c) => s.mem.counter == Next(c) && s.hist.fate == Undecided
    case SecondLoadedWritten(c, w) => s.mem.counter == Next(c) && s.hist.fate == Undecided && w == r.written
    case Accepted(c) => s.mem.counter == Next(c) && s.hist.fate == Undecided
    case Draining(c, limit, index) =>
      && s.mem.counter == Next(c) && s.hist.fate == Taken && s.hist.delivered != []
      && limit == (if r.written < r.Size() then r.written else r.Size())
      && var k := |s.hist.delivered[|s.hist.delivered| - 1]|;
         k <= |r.log| && index == StartAt(r.log, k)
  }

  predicate TokensInv(s: State) {
    TokenInv(s.threads, Even, s.mem.even.writers) && TokenInv(s.threads, Odd, s.mem.odd.writers)
  }

  predicate OwnersInv(s: State) {
    OwnedInv(s.threads, Even, s.mem.even.log) && OwnedInv(s.threads, Odd, s.mem.odd.log)
  }

  /** The part of the invariant about memory and threads. */
  predicate CoreInv(s: State) {
    && TokensInv(s)
    && BlocksInv(s)
    && ThreadsInv(s.mem, s.threads)
    && OwnersInv(s)
    && FrozenInv(s)
    && ConsumerInv(s)
  }

  // ----- Lemmas about the holders -----

  lemma OuterUpdate(threads: map<nat, Pc>, w: nat, pc: Pc, id: BlockId)
    ensures OuterSet(threads[w := pc], id) == if Outer(pc, id) then OuterSet(threads, id) + {w} else OuterSet(threads, id) - {w}
  {
  }

  lemma InnerUpdate(threads: map<nat, Pc>, w: nat, pc: Pc, id: BlockId)
    ensures InnerSet(threads[w := pc], id) == if Inner(pc, id) then InnerSet(threads, id) + {w} else InnerSet(threads, id) - {w}
  {
  }

  lemma TokenUpdate(threads: map<nat, Pc>, w: nat, pc: Pc, id: BlockId, n: nat, n': nat)
    requires TokenInv(threads, id, n)
    requires n' + Held(if w in threads then threads[w] else Idle, id) == n + Held(pc, id)
    ensures TokenInv(threads[w := pc], id, n')
  {
    OuterUpdate(threads, w, pc, id);
    InnerUpdate(threads, w, pc, id);
    var o, i := OuterSet(threads, id), InnerSet(threads, id);
    assert w in o <==> w in threads && Outer(threads[w], id);
    assert w in i <==> w in threads && Inner(threads[w], id);
  }

  /** A thread that holds counts makes `number_of_writers` at least that large. */
  lemma HolderCounts(threads: map<nat, Pc>, id: BlockId, n: nat, w: nat)
    requires TokenInv(threads, id, n) && w in threads
    ensures n >= Held(threads[w], id)
  {
    var o, i := OuterSet(threads, id), InnerSet(threads, id);
    if Outer(threads[w], id) { assert w in o; assert |o| > 0; }
    if Inner(threads[w], id) { assert w in i; assert |i| > 0; }
  }

  /** `number_of_writers == 0` on a block means that no validated writer is in it. */
  lemma NoWritersMeansNoneValidated(threads: map<nat, Pc>, id: BlockId)
    requires TokenInv(threads, id, 0)
    ensures NoneValidated(threads, id)
  {
    forall w | w in threads ensures !Validated(threads[w], id) {
      HolderCounts(threads, id, 0, w);
    }
  }

  /** A block without validated writers has nothing outstanding. */
  lemma NoneValidatedMeansPublished(threads: map<nat, Pc>, id: BlockId, log: seq<Reservation>)
    requires OwnedInv(threads, id, log) && NoneValidated(threads, id)
    ensures AllPublished(log)
  {
    assert forall i :: 0 <= i < |log| && !log[i].published ==> Validated(threads[log[i].owner], id);
  }

  // ----- Steps that change counts only -----

  predicate SameContent(b: Block, b': Block) {
    b.data == b'.data && b.acquired == b'.acquired && b.written == b'.written && b.log == b'.log
  }

  predicate SameContents(m: Memory, m': Memory) {
    m.counter == m'.counter && SameContent(m.even, m'.even) && SameContent(m.odd, m'.odd)
  }

  predicate SameReservation(pc: Pc, pc': Pc) {
    pc.Reserving? || pc.Terminating? || pc.Prefixed? || pc.Owner? ==> HasReservation(pc', pc.b, pc.i)
  }

  lemma CountStepKeepsThreads(s: State, w: nat, pc: Pc, m: Memory)
    requires ThreadsInv(s.mem, s.threads) && SameContents(s.mem, m) && PcInv(m, w, pc)
    ensures ThreadsInv(m, s.threads[w := pc])
  {
    forall x | x in s.threads ensures PcInv(m, x, s.threads[x]) {
      assert PcInv(s.mem, x, s.threads[x]);
    }
  }

  lemma OwnedUpdate(threads: map<nat, Pc>, id: BlockId, log: seq<Reservation>, w: nat, pc: Pc)
    requires OwnedInv(threads, id, log)
    requires w in threads ==> SameReservation(threads[w], pc)
    ensures OwnedInv(threads[w := pc], id, log)
  {
  }

  lemma CountStepKeepsConsumer(s: State, w: nat, pc: Pc, m: Memory)
    requires BlocksInv(s) && ConsumerInv(s) && SameContents(s.mem, m)
    ensures BlocksInv(Move(s, w, pc, m)) && ConsumerInv(Move(s, w, pc, m))
  {
    assert BlockInv(Settled(s, Even)) && BlockInv(Settled(s, Odd));
    var s' := Move(s, w, pc, m);
    assert SameContent(Settled(s, Even), Settled(s', Even));
    assert SameContent(Settled(s, Odd), Settled(s', Odd));
  }

  lemma CountStepKeepsCore(s: State, w: nat, pc: Pc, m: Memory)
    requires CoreInv(s) && CountStep(s, w, pc, m)
    ensures CoreInv(Move(s, w, pc, m))
  {
    hide PcInv; hide BlockInv; hide TokenInv; hide OwnedInv; hide ConsumerInv; hide Held;
    TokenUpdate(s.threads, w, pc, Even, s.mem.even.writers, m.even.writers);
    TokenUpdate(s.threads, w, pc, Odd, s.mem.odd.writers, m.odd.writers);
    CountStepKeepsThreads(s, w, pc, m);
    OwnedUpdate(s.threads, Even, s.mem.even.log, w, pc);
    OwnedUpdate(s.threads, Odd, s.mem.odd.log, w, pc);
    CountStepKeepsConsumer(s, w, pc, m);
  }

  predicate Arbitrating(pc: Pc) {
    pc.Loaded? || pc.Candidate? || pc.LostFirst? || pc.HoldsBoth? || pc.Settling? || pc.GiveUpSecond? || pc.GiveUpFirst?
  }

  predicate Entering(pc: Pc) {
    pc.Won? || pc.Entered? || pc.Counted? || pc.Refused? || pc.Leaving? || pc.Prefixed? || pc.Published?
  }

  predicate Filling(pc: Pc) {
    pc.Roomy? || pc.Reserving? || pc.Terminating? || pc.Owner?
  }

  /** What a step that only moves counts owes to the invariant. */
  predicate CountStep(s: State, w: nat, pc: Pc, m: Memory) {
    && SameContents(s.mem, m) && PcInv(m, w, pc)
    && (w in s.threads ==> SameReservation(s.threads[w], pc))
    && (Validated(pc, Retired(m)) ==> Validated(PcOf(s, w), Retired(m)))
    && m.even.writers + Held(PcOf(s, w), Even) == s.mem.even.writers + Held(pc, Even)
    && m.odd.writers + Held(PcOf(s, w), Odd) == s.mem.odd.writers + Held(pc, Odd)
  }

  lemma BeginCounts(s: State, w: nat, len: nat)
    requires PcOf(s, w) == Idle
    ensures CountStep(s, w, Loaded(len, s.mem.counter), s.mem)
  {
  }

  lemma BeginKeepsCore(s: State, w: nat, len: nat)
    requires CoreInv(s) && PcOf(s, w) == Idle
    ensures CoreInv(Move(s, w, Loaded(len, s.mem.counter), s.mem))
  {
    hide CoreInv; hide CountStep;
    BeginCounts(s, w, len);
    CountStepKeepsCore(s, w, Loaded(len, s.mem.counter), s.mem);
  }

  lemma ThreadFacts(s: State, w: nat)
    requires CoreInv(s) && w in s.threads
    ensures PcInv(s.mem, w, s.threads[w])
    ensures s.mem.even.writers >= Held(s.threads[w], Even) && s.mem.odd.writers >= Held(s.threads[w], Odd)
  {
    hide BlocksInv; hide OwnersInv; hide ConsumerInv; hide TokenInv; hide FrozenInv; hide PcInv;
    HolderCounts(s.threads, Even, s.mem.even.writers, w);
    HolderCounts(s.threads, Odd, s.mem.odd.writers, w);
  }

  /** The arbitration only ever decides for the block that is active at that moment. */
  lemma ArbitrateCounts(s: State, w: nat)
    requires w in s.threads && Arbitrating(s.threads[w])
    requires s.mem.even.writers >= Held(s.threads[w], Even) && s.mem.odd.writers >= Held(s.threads[w], Odd)
    ensures var s' := Arbitrate(s, w, s.threads[w]);
            s' == Move(s, w, s'.threads[w], s'.mem) && CountStep(s, w, s'.threads[w], s'.mem)
  {
    NextFlips(s.threads[w].seen);
    hide Next;
  }

  lemma ArbitrateKeepsCore(s: State, w: nat)
    requires CoreInv(s) && w in s.threads && Arbitrating(s.threads[w])
    ensures CoreInv(Arbitrate(s, w, s.threads[w]))
  {
    hide CoreInv; hide CountStep; hide PcInv; hide Held; hide Arbitrate;
    ThreadFacts(s, w);
    ArbitrateCounts(s, w);
    var s' := Arbitrate(s, w, s.threads[w]);
    CountStepKeepsCore(s, w, s'.threads[w], s'.mem);
  }

  lemma EnterCounts(s: State, w: nat)
    requires w in s.threads && Entering(s.threads[w]) && PcInv(s.mem, w, s.threads[w])
    requires s.mem.even.writers >= Held(s.threads[w], Even) && s.mem.odd.writers >= Held(s.threads[w], Odd)
    ensures var s' := Enter(s, w, s.threads[w]);
            s' == Move(s, w, s'.threads[w], s'.mem) && CountStep(s, w, s'.threads[w], s'.mem)
  {
    hide Fits; hide Granted;
  }

  lemma EnterKeepsCore(s: State, w: nat)
    requires CoreInv(s) && w in s.threads && Entering(s.threads[w])
    ensures CoreInv(Enter(s, w, s.threads[w]))
  {
    hide CoreInv; hide CountStep; hide PcInv; hide Held; hide Enter;
    ThreadFacts(s, w);
    EnterCounts(s, w);
    var s' := Enter(s, w, s.threads[w]);
    CountStepKeepsCore(s, w, s'.threads[w], s'.mem);
  }

  // ----- Steps that change the content of a block -----

  /** Entries of other owners stay as they are. */
  predicate OthersKept(log: seq<Reservation>, log': seq<Reservation>, w: nat) {
    && |log| <= |log'|
    && forall i :: 0 <= i < |log| && log[i].owner != w ==> log'[i] == log[i]
  }

  /** A frozen retired block is not the one a validated writer works on. */
  lemma ValidatedIsActive(s: State, w: nat, b: BlockId)
    requires FrozenInv(s) && w in s.threads && Validated(s.threads[w], b) && !s.consumer.Answered?
    ensures b == Active(s.mem)
  {
  }

  lemma ContentStepKeepsThreads(s: State, w: nat, pc: Pc, b: BlockId, blk: Block)
    requires ThreadsInv(s.mem, s.threads) && PcInv(With(s.mem, b, blk), w, pc)
    requires OthersKept(At(s.mem, b).log, blk.log, w) && blk.Size() == At(s.mem, b).Size()
    ensures ThreadsInv(With(s.mem, b, blk), s.threads[w := pc])
  {
    var m := With(s.mem, b, blk);
    forall x | x in s.threads && x != w ensures PcInv(m, x, s.threads[x]) {
      assert PcInv(s.mem, x, s.threads[x]);
    }
  }

  lemma ContentStepKeepsConsumer(s: State, w: nat, pc: Pc, b: BlockId, blk: Block)
    requires BlocksInv(s) && ConsumerInv(s) && FrozenInv(s)
    requires w in s.threads && Validated(s.threads[w], b)
    requires BlockInv(blk)
    ensures BlocksInv(Move(s, w, pc, With(s.mem, b, blk))) && ConsumerInv(Move(s, w, pc, With(s.mem, b, blk)))
  {
    var s' := Move(s, w, pc, With(s.mem, b, blk));
    if !s.consumer.Answered? {
      ValidatedIsActive(s, w, b);
    }
    assert BlockInv(Settled(s, Opposite(b)));
    assert Settled(s', b) == blk && Settled(s', Opposite(b)) == Settled(s, Opposite(b));
  }

  lemma ContentStepKeepsCore(s: State, w: nat, pc: Pc, b: BlockId, blk: Block)
    requires CoreInv(s) && w in s.threads
    requires Validated(s.threads[w], b) && Validated(pc, b) && Held(pc, Even) == Held(s.threads[w], Even) && Held(pc, Odd) == Held(s.threads[w], Odd)
    requires Inner(pc, b) && Filling(s.threads[w])
    requires BlockInv(blk) && blk.writers == At(s.mem, b).writers && blk.Size() == At(s.mem, b).Size()
    requires PcInv(With(s.mem, b, blk), w, pc) && OthersKept(At(s.mem, b).log, blk.log, w)
    requires OwnedInv(s.threads[w := pc], b, blk.log)
    ensures CoreInv(Move(s, w, pc, With(s.mem, b, blk)))
  {
    hide BlockInv; hide OwnedInv; hide ConsumerInv; hide TokenInv; hide BlocksInv; hide ThreadsInv; hide PcInv; hide OthersKept;
    TokenUpdate(s.threads, w, pc, Even, s.mem.even.writers, s.mem.even.writers);
    TokenUpdate(s.threads, w, pc, Odd, s.mem.odd.writers, s.mem.odd.writers);
    ContentStepKeepsThreads(s, w, pc, b, blk);
    ContentStepKeepsConsumer(s, w, pc, b, blk);
    assert OwnedInv(s.threads, Opposite(b), At(s.mem, Opposite(b)).log);
    OwnedElsewhere(s.threads, w, pc, b, At(s.mem, Opposite(b)).log);
  }

  /** A thread working in block `b` owns nothing in the other block. */
  lemma OwnedElsewhere(threads: map<nat, Pc>, w: nat, pc: Pc, b: BlockId, log: seq<Reservation>)
    requires w in threads && Filling(threads[w]) && Validated(threads[w], b)
    requires OwnedInv(threads, Opposite(b), log)
    ensures OwnedInv(threads[w := pc], Opposite(b), log)
  {
  }

  /** The block a filling thread works on satisfies the block invariant. */
  lemma FillingBlock(s: State, w: nat)
    requires CoreInv(s) && w in s.threads && Filling(s.threads[w])
    ensures BlockInv(At(s.mem, s.threads[w].b))
  {
    var b := s.threads[w].b;
    if !s.consumer.Answered? {
      ValidatedIsActive(s, w, b);
    }
    assert Settled(s, b) == At(s.mem, b);
  }

  lemma OwnedAfterReserve(threads: map<nat, Pc>, w: nat, pc: Pc, b: BlockId, log: seq<Reservation>, r: Reservation)
    requires OwnedInv(threads, b, log) && w in threads && threads[w].Roomy?
    requires r.owner == w && HasReservation(pc, b, |log|)
    ensures OwnedInv(threads[w := pc], b, log + [r])
  {
  }

  lemma ReserveKeepsCore(s: State, w: nat)
    requires CoreInv(s) && w in s.threads && s.threads[w].Roomy?
    ensures CoreInv(Fill(s, w, s.threads[w]))
  {
    hide BlockInv; hide OwnedInv; hide ConsumerInv; hide TokenInv; hide BlocksInv;
    var pc := s.threads[w];
    var blk := At(s.mem, pc.b);
    FillingBlock(s, w);
    assert PcInv(s.mem, w, pc);
    ReserveKeepsInv(blk, w, pc.len);
    var s' := Fill(s, w, pc);
    assert OwnedInv(s.threads, pc.b, blk.log);
    OwnedAfterReserve(s.threads, w, s'.threads[w], pc.b, blk.log, Reserve(blk, w, pc.len).log[|blk.log|]);
    ContentStepKeepsCore(s, w, s'.threads[w], pc.b, Reserve(blk, w, pc.len));
  }

  lemma OwnedAfterUpdate(threads: map<nat, Pc>, w: nat, pc: Pc, b: BlockId, log: seq<Reservation>, i: nat, r: Reservation)
    requires OwnedInv(threads, b, log) && w in threads && HasReservation(threads[w], b, i) && Owns(log, w, i)
    requires r.owner == w && (r.published || HasReservation(pc, b, i))
    ensures OwnedInv(threads[w := pc], b, log[i := r])
  {
  }

  lemma PutPrefixKeepsCore(s: State, w: nat, pc': Pc)
    requires CoreInv(s) && w in s.threads && (s.threads[w].Reserving? || s.threads[w].Terminating?)
    requires var pc := s.threads[w]; var blk := At(s.mem, pc.b);
             && pc.i < |blk.log| && blk.log[pc.i].prefixBytes < PREFIX && blk.log[pc.i].offset + PREFIX <= blk.Size()
             && pc' == if pc.Reserving? && blk.log[pc.i].prefixBytes + 1 == PREFIX then Prefixed(pc.b, pc.i) else pc
    ensures var pc := s.threads[w];
            CoreInv(Move(s, w, pc', With(s.mem, pc.b, PutPrefixByte(At(s.mem, pc.b), pc.i))))
  {
    hide BlockInv; hide OwnedInv; hide ConsumerInv; hide TokenInv; hide BlocksInv;
    var pc := s.threads[w];
    var blk := At(s.mem, pc.b);
    FillingBlock(s, w);
    assert PcInv(s.mem, w, pc);
    PutPrefixByteKeepsInv(blk, pc.i);
    var blk' := PutPrefixByte(blk, pc.i);
    assert OwnedInv(s.threads, pc.b, blk.log);
    OwnedAfterUpdate(s.threads, w, pc', pc.b, blk.log, pc.i, blk'.log[pc.i]);
    ContentStepKeepsCore(s, w, pc', pc.b, blk');
  }

  lemma PublishKeepsCore(s: State, w: nat, pc': Pc)
    requires CoreInv(s) && w in s.threads && (s.threads[w].Owner? || s.threads[w].Terminating?)
    requires var pc := s.threads[w]; var blk := At(s.mem, pc.b);
             && pc.i < |blk.log|
             && (blk.log[pc.i].offset + PREFIX <= blk.Size() ==> blk.log[pc.i].prefixBytes == PREFIX)
             && pc' == if pc.Owner? then Published(pc.b) else Refused(pc.b)
    ensures var pc := s.threads[w];
            CoreInv(Move(s, w, pc', With(s.mem, pc.b, Publish(At(s.mem, pc.b), pc.i))))
  {
    hide BlockInv; hide OwnedInv; hide ConsumerInv; hide TokenInv; hide BlocksInv;
    var pc := s.threads[w];
    var blk := At(s.mem, pc.b);
    FillingBlock(s, w);
    assert PcInv(s.mem, w, pc);
    PublishKeepsInv(blk, pc.i);
    var blk' := Publish(blk, pc.i);
    assert OwnedInv(s.threads, pc.b, blk.log);
    OwnedAfterUpdate(s.threads, w, pc', pc.b, blk.log, pc.i, blk'.log[pc.i]);
    ContentStepKeepsCore(s, w, pc', pc.b, blk');
  }

  lemma StoreKeepsCore(s: State, w: nat, k: nat, v: Byte)
    requires CoreInv(s) && w in s.threads && CanStore(s, w, k)
    ensures CoreInv(Apply(s, Store(w, k, v)))
  {
    hide BlockInv; hide OwnedInv; hide ConsumerInv; hide TokenInv; hide BlocksInv;
    var pc := s.threads[w];
    var blk := At(s.mem, pc.b);
    FillingBlock(s, w);
    assert PcInv(s.mem, w, pc);
    PutPayloadByteKeepsInv(blk, pc.i, k, v);
    var blk' := PutPayloadByte(blk, pc.i, k, v);
    assert OwnedInv(s.threads, pc.b, blk.log);
    OwnedAfterUpdate(s.threads, w, pc, pc.b, blk.log, pc.i, blk'.log[pc.i]);
    ContentStepKeepsCore(s, w, pc, pc.b, blk');
    assert s.threads[w := pc] == s.threads;
  }

  // ----- Steps of the consumer side -----

  lemma ClearedThreads(s: State, id: BlockId, blk: Block)
    requires ThreadsInv(s.mem, s.threads) && NoneValidated(s.threads, id)
    ensures ThreadsInv(With(s.mem, id, blk), s.threads)
  {
    var m := With(s.mem, id, blk);
    forall w | w in s.threads ensures PcInv(m, w, s.threads[w]) {
      assert PcInv(s.mem, w, s.threads[w]) && !Validated(s.threads[w], id);
    }
  }

  lemma ZeroAcquiredKeepsCore(s: State, c: Counter)
    requires CoreInv(s) && s.consumer == SwitchLoaded(c)
    ensures CoreInv(ZeroAcquired(s, c))
  {
    hide OwnedInv; hide TokenInv; hide PcInv; hide BlockInv;
    var id := Retired(s.mem);
    var s' := ZeroAcquired(s, c);
    EmptyBlockInv(Settled(s', id));
    ClearedThreads(s, id, At(s'.mem, id));
    assert OwnedInv(s.threads, id, []) by { OwnedNothing(s.threads, id); }
    assert BlockInv(Settled(s, Opposite(id)));
    assert BlockInv(Settled(s', id));
    assert Settled(s', Opposite(id)) == Settled(s, Opposite(id));
  }

  lemma EmptyBlockInv(b: Block)
    requires b.acquired == 0 && b.written == 0 && b.log == []
    ensures BlockInv(b)
  {
  }

  lemma OwnedNothing(threads: map<nat, Pc>, id: BlockId)
    ensures OwnedInv(threads, id, [])
  {
  }

  lemma ZeroWrittenKeepsCore(s: State, c: Counter)
    requires CoreInv(s) && s.consumer == SwitchZeroedAcquired(c)
    ensures CoreInv(ConsumeStep(s))
  {
    hide OwnedInv; hide TokenInv; hide PcInv; hide BlockInv;
    var id := Retired(s.mem);
    var s' := ConsumeStep(s);
    ClearedThreads(s, id, At(s'.mem, id));
    assert Settled(s', id) == Settled(s, id);
    assert Settled(s', Opposite(id)) == Settled(s, Opposite(id));
  }

  lemma BumpKeepsCore(s: State, c: Counter)
    requires CoreInv(s) && s.consumer == SwitchZeroedWritten(c)
    ensures CoreInv(ConsumeStep(s))
  {
    hide OwnedInv; hide TokenInv; hide BlockInv;
    var s' := ConsumeStep(s);
    NextFlips(c);
    assert Settled(s', Even) == Settled(s, Even) && Settled(s', Odd) == Settled(s, Odd);
    SameBlocksKeepThreads(s, s'.mem);
  }

  lemma SameBlocksKeepThreads(s: State, m: Memory)
    requires ThreadsInv(s.mem, s.threads) && m.even == s.mem.even && m.odd == s.mem.odd
    ensures ThreadsInv(m, s.threads)
  {
    forall w | w in s.threads ensures PcInv(m, w, s.threads[w]) {
      assert PcInv(s.mem, w, s.threads[w]);
    }
  }

  /** Neither the memory nor the threads change: only the phase and the history do. */
  lemma PhaseKeepsCore(s: State, s': State)
    requires CoreInv(s) && s'.mem == s.mem && s'.threads == s.threads
    requires !s.consumer.SwitchZeroedAcquired? && !s'.consumer.SwitchZeroedAcquired?
    requires ConsumerInv(s')
    requires s.consumer.Answered? && !s'.consumer.Answered? ==> NoneValidated(s.threads, Retired(s.mem))
    ensures CoreInv(s')
  {
    hide OwnedInv; hide TokenInv; hide BlockInv; hide ThreadsInv; hide ConsumerInv; hide NoneValidated;
    assert Settled(s', Even) == Settled(s, Even) && Settled(s', Odd) == Settled(s, Odd);
  }

  predicate Switching(c: Consumer) {
    c.SwitchLoaded? || c.SwitchZeroedAcquired? || c.SwitchZeroedWritten?
  }

  lemma CheckKeepsCore(s: State)
    requires CoreInv(s) && !Switching(s.consumer) && !s.consumer.Draining? && !s.consumer.Accepted?
    ensures CoreInv(ConsumeStep(s))
  {
    hide OwnedInv; hide BlockInv; hide ThreadsInv; hide TokenInv; hide NoneValidated;
    var s' := ConsumeStep(s);
    if s.consumer.Answered? {
      NextFlips(s.consumer.c);
      if !s'.consumer.Answered? {
        NoWritersMeansNoneValidated(s.threads, Retired(s.mem));
      }
    } else if !s.consumer.Resting? && !s.consumer.Requested? {
      NextFlips(s.consumer.c);
    }
    PhaseKeepsCore(s, s');
  }

  lemma OpenReaderKeepsCore(s: State, c: Counter)
    requires CoreInv(s) && s.consumer == Accepted(c)
    ensures CoreInv(OpenReader(s, c))
  {
    hide OwnedInv; hide BlockInv; hide ThreadsInv; hide TokenInv; hide NoneValidated;
    NextFlips(c);
    PhaseKeepsCore(s, OpenReader(s, c));
  }

  /** Outside `Answered`, everything reserved in the retired block has been published. */
  lemma FrozenIsPublished(s: State)
    requires CoreInv(s) && !s.consumer.Answered?
    ensures AllPublished(At(s.mem, Retired(s.mem)).log)
  {
    hide BlockInv; hide TokenInv; hide ThreadsInv; hide ConsumerInv; hide OwnedInv;
    var id := Retired(s.mem);
    assert OwnedInv(s.threads, id, At(s.mem, id).log);
    NoneValidatedMeansPublished(s.threads, id, At(s.mem, id).log);
  }

  /** Reading at the start of reservation `k` of a quiescent block yields that entry, or nothing. */
  lemma ReadQuiescent(blk: Block, k: nat)
    requires BlockInv(blk) && AllPublished(blk.log) && k <= |blk.log|
    ensures var es := Entries(blk.Size(), blk.log);
            var r := ReadAt(Cropped(blk.data, blk.written), StartAt(blk.log, k));
            && |es| <= |blk.log|
            && (k < |es| ==> k < |blk.log| && r == ReadResult(Some(es[k]), StartAt(blk.log, k + 1)))
            && (k >= |es| ==> r.entry.None?)
  {
    hide BlockInv; hide ReadAt; hide StartAt; hide Cropped;
    BlockIsTiled(blk);
    GrantedFormPrefix(blk.Size(), blk.log, blk.acquired);
    if k < |Entries(blk.Size(), blk.log)| {
      ReadGranted(blk, k);
    } else {
      ReadPastGranted(blk, k);
    }
  }

  lemma BlockIsTiled(blk: Block)
    requires BlockInv(blk)
    ensures Tiled(blk.log, blk.acquired)
  {
  }

  lemma ReadEntryKeepsCore(s: State)
    requires CoreInv(s) && s.consumer.Draining?
    ensures CoreInv(ConsumeStep(s))
  {
    hide OwnedInv; hide BlockInv; hide ThreadsInv; hide TokenInv; hide NoneValidated; hide ReadAt; hide Entries;
    var Draining(c, limit, index) := s.consumer;
    NextFlips(c);
    FrozenIsPublished(s);
    var blk := At(s.mem, Retired(s.mem));
    var n := |s.hist.delivered|;
    assert Settled(s, Retired(s.mem)) == blk;
    ReadQuiescent(blk, |s.hist.delivered[n - 1]|);
    CroppedAtLimit(blk, limit);
    PhaseKeepsCore(s, ConsumeStep(s));
  }

  lemma CroppedAtLimit(blk: Block, limit: nat)
    requires limit == if blk.written < blk.Size() then blk.written else blk.Size()
    ensures Cropped(blk.data, limit) == Cropped(blk.data, blk.written)
  {
  }

  lemma ConsumeKeepsCore(s: State)
    requires CoreInv(s)
    ensures CoreInv(ConsumeStep(s))
  {
    hide CoreInv;
    match s.consumer
    case SwitchLoaded(c) => ZeroAcquiredKeepsCore(s, c);
    case SwitchZeroedAcquired(c) => ZeroWrittenKeepsCore(s, c);
    case SwitchZeroedWritten(c) => BumpKeepsCore(s, c);
    case Accepted(c) => OpenReaderKeepsCore(s, c);
    case Draining(_, _, _) => ReadEntryKeepsCore(s);
    case _ => CheckKeepsCore(s);
  }

  // ----- All steps -----

  /** `hist` carries no weight in a phase other than through `fate` and the group being filled. */
  lemma HistoryKeepsCore(s: State, h: History)
    requires CoreInv(s) && h.fate == s.hist.fate && h.delivered == s.hist.delivered
    ensures CoreInv(s.(hist := h))
  {
    hide OwnedInv; hide BlockInv; hide ThreadsInv; hide TokenInv; hide NoneValidated;
    var s' := s.(hist := h);
    assert Settled(s', Even) == Settled(s, Even) && Settled(s', Odd) == Settled(s, Odd);
  }

  lemma FillKeepsCore(s: State, w: nat)
    requires CoreInv(s) && w in s.threads && Filling(s.threads[w]) && CanAdvance(s, w)
    ensures CoreInv(Fill(s, w, s.threads[w]))
  {
    hide CoreInv;
    var pc := s.threads[w];
    match pc
    case Roomy(_, _) => ReserveKeepsCore(s, w);
    case Reserving(b, i) =>
      PutPrefixKeepsCore(s, w, Fill(s, w, pc).threads[w]);
    case Terminating(b, i) =>
      var blk := At(s.mem, b);
      if blk.log[i].offset + PREFIX <= blk.Size() && blk.log[i].prefixBytes < PREFIX {
        PutPrefixKeepsCore(s, w, pc);
      } else {
        PublishKeepsCore(s, w, Refused(b));
      }
    case Owner(b, i) =>
      OwnerHasPrefix(s, w);
      PublishKeepsCore(s, w, Published(b));
      HistoryKeepsCore(Move(s, w, Published(b), With(s.mem, b, Publish(At(s.mem, b), i))), Fill(s, w, pc).hist);
  }

  lemma OwnerHasPrefix(s: State, w: nat)
    requires CoreInv(s) && w in s.threads && s.threads[w].Owner?
    ensures PcInv(s.mem, w, s.threads[w])
  {
    hide OwnedInv; hide BlockInv; hide TokenInv; hide ConsumerInv;
  }

  lemma StepKeepsCore(s: State, a: Action)
    requires CoreInv(s) && Enabled(s, a)
    ensures CoreInv(Apply(s, a))
  {
    hide CoreInv;
    match a
    case Begin(w, len) =>
      BeginKeepsCore(s, w, len);
      assert Apply(s, a) == Move(s, w, Loaded(len, s.mem.counter), s.mem);
    case Advance(w) =>
      var pc := s.threads[w];
      if Arbitrating(pc) {
        ArbitrateKeepsCore(s, w);
      } else if Filling(pc) {
        FillKeepsCore(s, w);
      } else {
        EnterKeepsCore(s, w);
      }
    case Store(w, k, v) => StoreKeepsCore(s, w, k, v);
    case Consume => ConsumeKeepsCore(s);
  }

  lemma InitHasCore(s: State)
    requires Init(s)
    ensures CoreInv(s)
  {
    assert OuterSet(s.threads, Even) == {} && InnerSet(s.threads, Even) == {};
    assert OuterSet(s.threads, Odd) == {} && InnerSet(s.threads, Odd) == {};
  }
}
