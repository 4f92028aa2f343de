/** Bounds of the wait-free queue: concurrency, index range and the number of steps of an operation. */
module QueueBounds {
  import opened Options
  import opened Bytes
  import opened LinearBuffer
  import opened LinearReading
  import opened WaitFreeQueue
  import opened QueueInvariant
  import opened QueueHistory

  // ----- Concurrency and index range -----

  /** `pc` has passed the concurrency check on block `id` and has not left the block yet. */
  predicate Past(pc: Pc, id: BlockId) {
    Inner(pc, id) && !pc.Entered? && !pc.Refused?
  }

  predicate WantsRoom(pc: Pc, id: BlockId) {
    pc.Roomy? && pc.b == id
  }

  function PastSet(threads: map<nat, Pc>, id: BlockId): set<nat> {
    set w | w in threads && Past(threads[w], id)
  }

  /** The threads about to add to `acquired_index` of block `id`. */
  function RoomSet(threads: map<nat, Pc>, id: BlockId): set<nat> {
    set w | w in threads && WantsRoom(threads[w], id)
  }

  ghost function Spans(threads: map<nat, Pc>, ws: set<nat>): nat
    requires forall w :: w in ws ==> w in threads && threads[w].Roomy?
    decreases |ws|
  {
    if ws == {} then 0
    else
      var w :| w in ws;
      threads[w].len + PREFIX + Spans(threads, ws - {w})
  }

  /** Bytes that threads past the room check are still going to add to `acquired_index`. */
  ghost function Pending(threads: map<nat, Pc>, id: BlockId): nat {
    Spans(threads, RoomSet(threads, id))
  }

  const MAX_PAST: nat := MAX_CONCURRENT_WRITERS - 1

  ghost predicate BlockBound(threads: map<nat, Pc>, id: BlockId, size: nat, acquired: nat) {
    && |PastSet(threads, id)| <= MAX_PAST
    && acquired + Pending(threads, id) <= size + (MAX_PAST - 1) * MAX_SPAN
    && acquired + Pending(threads, id) < UINT64_RANGE - MAX_SPAN
  }

  ghost predicate BoundInv(s: State) {
    && BlockBound(s.threads, Even, s.mem.even.Size(), s.mem.even.acquired)
    && BlockBound(s.threads, Odd, s.mem.odd.Size(), s.mem.odd.acquired)
  }

  lemma {:induction false} SpansRemove(threads: map<nat, Pc>, ws: set<nat>, x: nat)
    requires forall w :: w in ws ==> w in threads && threads[w].Roomy?
    requires x in ws
    ensures Spans(threads, ws) == threads[x].len + PREFIX + Spans(threads, ws - {x})
    decreases |ws|
  {
    var w :| w in ws && Spans(threads, ws) == threads[w].len + PREFIX + Spans(threads, ws - {w});
    if w != x {
      SpansRemove(threads, ws - {w}, x);
      SpansRemove(threads, ws - {x}, w);
      assert ws - {w} - {x} == ws - {x} - {w};
    }
  }

  lemma {:induction false} SpansFrame(threads: map<nat, Pc>, threads': map<nat, Pc>, ws: set<nat>)
    requires forall w :: w in ws ==> w in threads && threads[w].Roomy? && w in threads' && threads'[w] == threads[w]
    ensures Spans(threads', ws) == Spans(threads, ws)
    decreases |ws|
  {
    if ws != {} {
      var w :| w in ws;
      SpansRemove(threads, ws, w);
      SpansRemove(threads', ws, w);
      SpansFrame(threads, threads', ws - {w});
    }
  }

  lemma {:induction false} SpansBound(threads: map<nat, Pc>, ws: set<nat>)
    requires forall w :: w in ws ==> w in threads && threads[w].Roomy? && threads[w].len <= MAX_LENGTH
    ensures Spans(threads, ws) <= |ws| * MAX_SPAN
    decreases |ws|
  {
    if ws != {} {
      var w :| w in ws;
      SpansRemove(threads, ws, w);
      SpansBound(threads, ws - {w});
    }
  }

  lemma RoomUpdate(threads: map<nat, Pc>, w: nat, pc: Pc, id: BlockId)
    ensures RoomSet(threads[w := pc], id)
         == if WantsRoom(pc, id) then RoomSet(threads, id) + {w} else RoomSet(threads, id) - {w}
  {
  }

  lemma PastUpdate(threads: map<nat, Pc>, w: nat, pc: Pc, id: BlockId)
    ensures PastSet(threads[w := pc], id)
         == if Past(pc, id) then PastSet(threads, id) + {w} else PastSet(threads, id) - {w}
  {
  }

  function SpanOf(pc: Pc, id: BlockId): nat {
    if WantsRoom(pc, id) then pc.len + PREFIX else 0
  }

  /** Moving one thread changes the pending bytes by that thread's share. */
  lemma PendingUpdate(threads: map<nat, Pc>, w: nat, pc: Pc, id: BlockId)
    ensures Pending(threads[w := pc], id) + SpanOf(if w in threads then threads[w] else Idle, id)
         == Pending(threads, id) + SpanOf(pc, id)
  {
    hide Spans;
    var threads' := threads[w := pc];
    RoomUpdate(threads, w, pc, id);
    var ws, ws' := RoomSet(threads, id), RoomSet(threads', id);
    var others := ws - {w};
    assert others == ws' - {w};
    SpansFrame(threads, threads', others);
    if w in ws { SpansRemove(threads, ws, w); } else { assert others == ws; }
    if w in ws' { SpansRemove(threads', ws', w); } else { assert others == ws'; }
  }

  /** A thread that does not newly pass a check keeps the bound of a block. */
  lemma BoundKept(threads: map<nat, Pc>, w: nat, pc: Pc, id: BlockId, size: nat, acquired: nat, acquired': nat)
    requires BlockBound(threads, id, size, acquired)
    requires var old_pc := if w in threads then threads[w] else Idle;
             && (Past(pc, id) ==> Past(old_pc, id))
             && acquired' + SpanOf(pc, id) <= acquired + SpanOf(old_pc, id)
    ensures BlockBound(threads[w := pc], id, size, acquired')
  {
    hide Spans; hide Pending;
    PendingUpdate(threads, w, pc, id);
    PastUpdate(threads, w, pc, id);
    if w in threads && Past(threads[w], id) {
      assert w in PastSet(threads, id);
    }
  }

  /** Passing the concurrency check: the passing thread itself accounts for two of the counts seen. */
  lemma BoundAtConcurrencyCheck(threads: map<nat, Pc>, w: nat, len: nat, id: BlockId, n: nat, size: nat, acquired: nat)
    requires BlockBound(threads, id, size, acquired) && TokenInv(threads, id, n) && n <= MAX_CONCURRENT_WRITERS
    requires w in threads && threads[w] == Entered(len, id)
    ensures BlockBound(threads[w := Counted(len, id)], id, size, acquired)
  {
    hide Spans; hide Pending;
    var pc := Counted(len, id);
    PendingUpdate(threads, w, pc, id);
    PastUpdate(threads, w, pc, id);
    var o, i := OuterSet(threads, id), InnerSet(threads, id);
    assert w in o;
    assert PastSet(threads[w := pc], id) <= i;
    Cardinality(PastSet(threads[w := pc], id), i);
  }

  lemma {:induction false} Cardinality(a: set<nat>, b: set<nat>)
    requires a <= b
    ensures |a| <= |b|
    decreases |b|
  {
    if a != {} {
      var x :| x in a;
      Cardinality(a - {x}, b - {x});
    }
  }

  /** Passing the room check: only the other threads past the check can still add more. */
  lemma BoundAtRoomCheck(m: Memory, threads: map<nat, Pc>, w: nat, len: nat, id: BlockId, size: nat, acquired: nat)
    requires BlockBound(threads, id, size, acquired) && ThreadsInv(m, threads)
    requires w in threads && threads[w] == Counted(len, id) && len <= MAX_LENGTH
    requires acquired < MAX_CAPACITY && Fits(size, acquired, len + PREFIX)
    ensures BlockBound(threads[w := Roomy(len, id)], id, size, acquired)
  {
    hide Spans;
    var pc := Roomy(len, id);
    PendingUpdate(threads, w, pc, id);
    PastUpdate(threads, w, pc, id);
    var ws, past := RoomSet(threads, id), PastSet(threads, id);
    assert w in past && w !in ws;
    assert ws <= past - {w};
    Cardinality(ws, past - {w});
    forall x | x in ws ensures threads[x].len <= MAX_LENGTH {
      assert PcInv(m, x, threads[x]);
    }
    SpansBound(threads, ws);
    assert |ws| * MAX_SPAN <= (MAX_PAST - 1) * MAX_SPAN;
  }

  lemma ArbitrateKeepsBound(s: State, w: nat)
    requires BoundInv(s) && w in s.threads && Arbitrating(s.threads[w])
    ensures BoundInv(Arbitrate(s, w, s.threads[w]))
  {
    hide BlockBound;
    var pc' := Arbitrate(s, w, s.threads[w]).threads[w];
    BoundKept(s.threads, w, pc', Even, s.mem.even.Size(), s.mem.even.acquired, s.mem.even.acquired);
    BoundKept(s.threads, w, pc', Odd, s.mem.odd.Size(), s.mem.odd.acquired, s.mem.odd.acquired);
  }

  /** One of the two blocks gets a new bound, the other one keeps its own. */
  lemma BoundSplit(s: State, w: nat, pc: Pc, m: Memory, b: BlockId)
    requires BoundInv(s) && BlockBound(s.threads[w := pc], b, At(m, b).Size(), At(m, b).acquired)
    requires At(m, Opposite(b)).Size() == At(s.mem, Opposite(b)).Size()
    requires At(m, Opposite(b)).acquired == At(s.mem, Opposite(b)).acquired
    requires !Past(pc, Opposite(b)) && !WantsRoom(pc, Opposite(b))
    ensures BoundInv(Move(s, w, pc, m))
  {
    hide BlockBound;
    var o := At(s.mem, Opposite(b));
    BoundKept(s.threads, w, pc, Opposite(b), o.Size(), o.acquired, o.acquired);
  }

  lemma EnterKeepsBound(s: State, w: nat)
    requires CoreInv(s) && BoundInv(s) && w in s.threads && Entering(s.threads[w])
    ensures BoundInv(Enter(s, w, s.threads[w]))
  {
    hide OwnedInv; hide BlockInv; hide ConsumerInv; hide NoneValidated; hide TokenInv; hide BlockBound;
    var pc := s.threads[w];
    var s' := Enter(s, w, pc);
    var pc' := s'.threads[w];
    var blk := At(s.mem, pc.b);
    assert PcInv(s.mem, w, pc);
    if pc.Entered? && pc'.Counted? {
      BoundAtConcurrencyCheck(s.threads, w, pc.len, pc.b, blk.writers, blk.Size(), blk.acquired);
    } else if pc.Counted? && pc'.Roomy? {
      BoundAtRoomCheck(s.mem, s.threads, w, pc.len, pc.b, blk.Size(), blk.acquired);
    } else {
      BoundKept(s.threads, w, pc', pc.b, blk.Size(), blk.acquired, blk.acquired);
    }
    BoundSplit(s, w, pc', s'.mem, pc.b);
  }

  lemma FillKeepsBound(s: State, w: nat)
    requires BoundInv(s) && w in s.threads && Filling(s.threads[w]) && CanAdvance(s, w)
    ensures BoundInv(Fill(s, w, s.threads[w]))
  {
    hide BlockBound;
    var pc := s.threads[w];
    var s' := Fill(s, w, pc);
    var blk, blk' := At(s.mem, pc.b), At(s'.mem, pc.b);
    BoundKept(s.threads, w, s'.threads[w], pc.b, blk.Size(), blk.acquired, blk'.acquired);
    BoundSplit(s, w, s'.threads[w], s'.mem, pc.b);
  }

  lemma BoundLowered(threads: map<nat, Pc>, id: BlockId, size: nat, acquired: nat, acquired': nat)
    requires BlockBound(threads, id, size, acquired) && acquired' <= acquired
    ensures BlockBound(threads, id, size, acquired')
  {
    hide Pending;
  }

  lemma ConsumeKeepsBound(s: State)
    requires BoundInv(s)
    ensures BoundInv(ConsumeStep(s))
  {
    hide BlockBound;
    var s' := ConsumeStep(s);
    BoundLowered(s.threads, Even, s.mem.even.Size(), s.mem.even.acquired, s'.mem.even.acquired);
    BoundLowered(s.threads, Odd, s.mem.odd.Size(), s.mem.odd.acquired, s'.mem.odd.acquired);
  }

  lemma StepKeepsBound(s: State, a: Action)
    requires CoreInv(s) && BoundInv(s) && Enabled(s, a)
    ensures BoundInv(Apply(s, a))
  {
    hide CoreInv; hide BlockBound; hide ConsumeStep; hide Arbitrate; hide Enter; hide Fill;
    match a
    case Begin(w, len) =>
      BoundKept(s.threads, w, Loaded(len, s.mem.counter), Even, s.mem.even.Size(), s.mem.even.acquired, s.mem.even.acquired);
      BoundKept(s.threads, w, Loaded(len, s.mem.counter), Odd, s.mem.odd.Size(), s.mem.odd.acquired, s.mem.odd.acquired);
    case Advance(w) =>
      hide BoundInv;
      if Arbitrating(s.threads[w]) {
        ArbitrateKeepsBound(s, w);
      } else if Filling(s.threads[w]) {
        FillKeepsBound(s, w);
      } else {
        EnterKeepsBound(s, w);
      }
    case Store(w, k, v) =>
    case Consume => ConsumeKeepsBound(s);
  }

  lemma InitHasBound(s: State)
    requires Init(s)
    ensures BoundInv(s)
  {
    assert PastSet(s.threads, Even) == {} && RoomSet(s.threads, Even) == {};
    assert PastSet(s.threads, Odd) == {} && RoomSet(s.threads, Odd) == {};
  }

  lemma {:induction false} RunKeepsBound(s: State, actions: seq<Action>, t: State)
    requires CoreInv(s) && BoundInv(s) && Run(s, actions) == Some(t)
    ensures CoreInv(t) && BoundInv(t)
  {
    hide CoreInv; hide BoundInv;
    if actions != [] {
      var n := |actions| - 1;
      var u := Run(s, actions[..n]).value;
      RunKeepsBound(s, actions[..n], u);
      StepKeepsCore(u, actions[n]);
      StepKeepsBound(u, actions[n]);
    }
  }

  /**
   * In every reachable state fewer than 64 writers are past the concurrency check of a block, and
   * `acquired_index` together with everything they may still add to it stays below the buffer size
   * plus 62 maximal spans and below 2^64, so that the 64-bit index never wraps.
   */
  lemma IndexNeverWraps(s: State, id: BlockId)
    requires Reachable(s)
    ensures |PastSet(s.threads, id)| <= MAX_CONCURRENT_WRITERS - 1
    ensures At(s.mem, id).acquired + Pending(s.threads, id) <= At(s.mem, id).Size() + (MAX_CONCURRENT_WRITERS - 2) * MAX_SPAN
    ensures At(s.mem, id).acquired + Pending(s.threads, id) < UINT64_RANGE
  {
    hide CoreInv; hide Pending; hide PastSet; hide Run;
    var init, actions :| Init(init) && Run(init, actions) == Some(s);
    InitHasCore(init);
    InitHasBound(init);
    RunKeepsBound(init, actions, s);
  }

  // ----- Wait freedom -----

  const MAX_STEPS: nat := 20

  /** How many more of its own steps a thread may need, payload stores aside. */
  function Rank(s: State, w: nat): nat {
    match PcOf(s, w)
    case Idle => 0
    case Published(_) => 1
    case Leaving(_) => 1
    case GiveUpFirst(_) => 1
    case GiveUpSecond(_) => 1
    case Owner(_, _) => 2
    case Refused(_) => 2
    case Prefixed(_, _) => 3
    case Reserving(b, i) => 3 + Missing(At(s.mem, b), i)
    case Terminating(b, i) => 3 + Missing(At(s.mem, b), i)
    case Roomy(_, _) => 12
    case Counted(_, _) => 13
    case Entered(_, _) => 14
    case Won(_, _) => 15
    case Settling(_, _, _) => 16
    case HoldsBoth(_, _) => 17
    case LostFirst(_, _) => 18
    case Candidate(_, _) => 19
    case Loaded(_, _) => 20
  }

  function Missing(b: Block, i: nat): nat {
    if i < |b.log| && b.log[i].prefixBytes <= PREFIX then PREFIX - b.log[i].prefixBytes else 0
  }

  /** A filling thread's own facts: its reservation exists and its prefix does not overrun. */
  lemma FillingFacts(s: State, w: nat)
    requires CoreInv(s) && w in s.threads && Filling(s.threads[w])
    ensures PcInv(s.mem, w, s.threads[w])
    ensures var pc := s.threads[w]; !pc.Roomy? ==> At(s.mem, pc.b).log[pc.i].prefixBytes <= PREFIX
  {
    OwnsWhatItFills(s, w);
    FillingBlock(s, w);
    hide CoreInv;
    var pc := s.threads[w];
    if !pc.Roomy? {
      assert Stored(At(s.mem, pc.b).data, At(s.mem, pc.b).log[pc.i]);
    }
  }

  /**
   * Wait freedom: a writer thread in the middle of an operation can always perform its next step, and
   * each of its at most 20 steps brings it closer to the end of the operation, whatever the others do.
   */
  lemma WaitFree(s: State, w: nat)
    requires CoreInv(s) && PcOf(s, w) != Idle
    ensures Enabled(s, Advance(w))
    ensures Rank(Apply(s, Advance(w)), w) < Rank(s, w) <= MAX_STEPS
  {
    hide CoreInv;
    if Filling(s.threads[w]) {
      FillingFacts(s, w);
      FillIsProgress(s, w);
    }
  }

  lemma FillIsProgress(s: State, w: nat)
    requires w in s.threads && Filling(s.threads[w]) && PcInv(s.mem, w, s.threads[w])
    requires var pc := s.threads[w]; !pc.Roomy? ==> At(s.mem, pc.b).log[pc.i].prefixBytes <= PREFIX
    ensures CanAdvance(s, w)
    ensures Rank(Fill(s, w, s.threads[w]), w) < Rank(s, w) <= MAX_STEPS
  {
  }

  lemma OthersKeepRank(s: State, w: nat, a: Action)
    requires CoreInv(s) && Enabled(s, a)
    requires !a.Consume? ==> a.w != w
    ensures Rank(Apply(s, a), w) == Rank(s, w)
  {
    hide CoreInv; hide Apply; hide Enabled; hide Missing;
    if PcOf(s, w).Reserving? || PcOf(s, w).Terminating? {
      OthersKeepReservation(s, w, a);
    } else {
      OthersKeepPc(s, w, a);
    }
  }

  lemma OthersKeepPc(s: State, w: nat, a: Action)
    requires Enabled(s, a)
    requires !a.Consume? ==> a.w != w
    ensures PcOf(Apply(s, a), w) == PcOf(s, w)
  {
  }

  lemma OthersKeepReservation(s: State, w: nat, a: Action)
    requires CoreInv(s) && Enabled(s, a)
    requires !a.Consume? ==> a.w != w
    requires PcOf(s, w).Reserving? || PcOf(s, w).Terminating?
    ensures PcOf(Apply(s, a), w) == PcOf(s, w)
    ensures var pc := PcOf(s, w); Missing(At(Apply(s, a).mem, pc.b), pc.i) == Missing(At(s.mem, pc.b), pc.i)
  {
    hide CoreInv; hide ConsumeStep;
    OthersKeepPc(s, w, a);
    FillingFacts(s, w);
    if a.Consume? {
      ConsumeKeepsReservation(s, w);
    } else if a.Begin? {
    } else if Filling(s.threads[a.w]) {
      FillingFacts(s, a.w);
      FillKeepsOthers(s, a, w);
    } else {
      hide Arbitrate; hide Enter;
      CountStepContents(s, a.w);
    }
  }

  lemma FillKeepsOthers(s: State, a: Action, w: nat)
    requires Enabled(s, a) && (a.Advance? || a.Store?) && a.w != w && a.w in s.threads && Filling(s.threads[a.w])
    requires PcInv(s.mem, a.w, s.threads[a.w])
    requires w in s.threads && PcInv(s.mem, w, s.threads[w]) && (s.threads[w].Reserving? || s.threads[w].Terminating?)
    ensures var pc := s.threads[w]; Missing(At(Apply(s, a).mem, pc.b), pc.i) == Missing(At(s.mem, pc.b), pc.i)
  {
  }

  lemma ConsumeKeepsReservation(s: State, w: nat)
    requires CoreInv(s) && w in s.threads && (s.threads[w].Reserving? || s.threads[w].Terminating?)
    ensures At(ConsumeStep(s).mem, s.threads[w].b).log == At(s.mem, s.threads[w].b).log
  {
    hide OwnedInv; hide BlockInv; hide ThreadsInv; hide TokenInv;
    if Switching(s.consumer) {
      ValidatedIsActive(s, w, s.threads[w].b);
    }
  }
}
