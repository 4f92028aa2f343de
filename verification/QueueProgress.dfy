/** What the writers' operations achieve: when an acquire succeeds, and what a released entry says. */
module QueueProgress {
  import opened Options
  import opened Bytes
  import opened LinearBuffer
  import opened LinearReading
  import opened WaitFreeQueue
  import opened QueueInvariant
  import opened QueueHistory
  import QueueBounds

  // ----- One thread moving alone -----

  /** Thread `w` alone: its call, then only its own atomic operations. */
  predicate AcquireBy(actions: seq<Action>, w: nat, len: nat) {
    actions != [] && actions[0] == Begin(w, len) && forall i :: 1 <= i < |actions| ==> actions[i] == Advance(w)
  }

  lemma Then(s: State, actions: seq<Action>, t: State, a: Action) returns (u: State)
    requires Run(s, actions) == Some(t) && Enabled(t, a)
    ensures u == Apply(t, a) && Run(s, actions + [a]) == Some(u)
  {
    hide Apply; hide Enabled;
    u := Apply(t, a);
    assert (actions + [a])[..|actions|] == actions;
  }

  /** `s` with thread `w` at `pc` and the count of block `id` set to `n`. */
  function Counting(s: State, w: nat, id: BlockId, pc: Pc, n: nat): State {
    s.(mem := With(s.mem, id, At(s.mem, id).(writers := n)), threads := s.threads[w := pc])
  }

  /** The acquire is admitted: short enough, few enough counts, and room for the entry with its length field. */
  predicate Admitted(b: Block, len: nat) {
    && len <= MAX_LENGTH && b.writers + 2 <= MAX_CONCURRENT_WRITERS
    && b.acquired < MAX_CAPACITY && Fits(b.Size(), b.acquired, len + PREFIX)
  }

  /** The reservation that an admitted acquire of thread `w` makes. */
  predicate Reserved(r: Reservation, w: nat, offset: nat, len: nat, prefixBytes: nat) {
    r.owner == w && r.offset == offset && r.length == len && r.prefixBytes == prefixBytes && |r.payload| == len && !r.published
  }

  /** `s` is `s0` but for thread `w` at `pc` and, in block `id`, its count and its new reservation at the end. */
  predicate Holding(s0: State, s: State, w: nat, id: BlockId, pc: Pc, n: nat, len: nat, prefixBytes: nat) {
    && s == s0.(mem := With(s0.mem, id, At(s.mem, id)), threads := s0.threads[w := pc])
    && var b0, b := At(s0.mem, id), At(s.mem, id);
       && b == b0.(data := b.data, writers := n, acquired := b0.acquired + len + PREFIX, log := b.log) && b.Size() == b0.Size()
       && |b.log| == |b0.log| + 1 && b.log[..|b0.log|] == b0.log
       && Reserved(b.log[|b0.log|], w, b0.acquired, len, prefixBytes)
  }

  lemma Validates(s: State, w: nat, len: nat) returns (actions: seq<Action>, t: State)
    requires PcOf(s, w) == Idle
    ensures AcquireBy(actions, w, len) && Run(s, actions) == Some(t)
    ensures var id := Active(s.mem); t == Counting(s, w, id, Candidate(len, s.mem.counter), At(s.mem, id).writers + 1)
  {
    var id, n := Active(s.mem), At(s.mem, Active(s.mem)).writers;
    assert Run(s, []) == Some(s);
    hide Run;
    t := Then(s, [], s, Begin(w, len));
    assert t == Counting(s, w, id, Loaded(len, s.mem.counter), n);
    actions := [] + [Begin(w, len)];
    t := Then(s, actions, t, Advance(w));
    actions := actions + [Advance(w)];
  }

  lemma Arrives(s: State, w: nat, len: nat, begun: seq<Action>, u: State) returns (actions: seq<Action>, t: State)
    requires AcquireBy(begun, w, len) && Run(s, begun) == Some(u)
    requires var id := Active(s.mem); u == Counting(s, w, id, Candidate(len, s.mem.counter), At(s.mem, id).writers + 1)
    ensures AcquireBy(actions, w, len) && Run(s, actions) == Some(t)
    ensures var id := Active(s.mem); t == Counting(s, w, id, Entered(len, id), At(s.mem, id).writers + 2)
  {
    hide Run; hide Enter;
    var id, n := Active(s.mem), At(s.mem, Active(s.mem)).writers;
    t := Then(s, begun, u, Advance(w));
    actions := begun + [Advance(w)];
    assert t == Counting(s, w, id, Won(len, id), n + 1);
    actions, t := Joins(s, w, len, actions, t);
  }

  lemma Joins(s: State, w: nat, len: nat, begun: seq<Action>, u: State) returns (actions: seq<Action>, t: State)
    requires AcquireBy(begun, w, len) && Run(s, begun) == Some(u)
    requires var id := Active(s.mem); u == Counting(s, w, id, Won(len, id), At(s.mem, id).writers + 1)
    ensures AcquireBy(actions, w, len) && Run(s, actions) == Some(t)
    ensures var id := Active(s.mem); t == Counting(s, w, id, Entered(len, id), At(s.mem, id).writers + 2)
  {
    hide Run; hide Arbitrate; hide Fill;
    t := Then(s, begun, u, Advance(w));
    actions := begun + [Advance(w)];
  }

  /** Past both checks, or refused by one of them. */
  lemma IsChecked(s: State, w: nat, len: nat, begun: seq<Action>, t: State) returns (actions: seq<Action>, u: State)
    requires AcquireBy(begun, w, len) && Run(s, begun) == Some(t)
    requires var id := Active(s.mem); t == Counting(s, w, id, Entered(len, id), At(s.mem, id).writers + 2)
    ensures AcquireBy(actions, w, len) && Run(s, actions) == Some(u)
    ensures var id := Active(s.mem); var n := At(s.mem, id).writers + 2;
            u == Counting(s, w, id, if Admitted(At(s.mem, id), len) then Roomy(len, id) else Refused(id), n)
  {
    hide Run;
    u := Then(s, begun, t, Advance(w));
    actions := begun + [Advance(w)];
    if u.threads[w].Counted? {
      u := Then(s, actions, u, Advance(w));
      actions := actions + [Advance(w)];
    }
  }

  lemma IsRefused(s: State, w: nat, len: nat, begun: seq<Action>, t: State) returns (actions: seq<Action>, u: State)
    requires AcquireBy(begun, w, len) && Run(s, begun) == Some(t)
    requires var id := Active(s.mem); t == Counting(s, w, id, Refused(id), At(s.mem, id).writers + 2)
    ensures AcquireBy(actions, w, len) && Run(s, actions) == Some(u) && u == s.(threads := s.threads[w := Idle])
  {
    hide Run;
    var id, n := Active(s.mem), At(s.mem, Active(s.mem)).writers;
    u := Then(s, begun, t, Advance(w));
    assert u == Counting(s, w, id, Leaving(id), n + 1);
    actions := begun + [Advance(w)];
    u := Then(s, actions, u, Advance(w));
    assert u == Counting(s, w, id, Idle, n);
    actions := actions + [Advance(w)];
  }

  lemma {:induction false} StoresLength(s: State, w: nat, len: nat, k: nat, begun: seq<Action>, t: State)
    returns (actions: seq<Action>, u: State)
    requires AcquireBy(begun, w, len) && Run(s, begun) == Some(t) && k < PREFIX
    requires var id := Active(s.mem); var b := At(s.mem, id);
             Fits(b.Size(), b.acquired, len + PREFIX) && Holding(s, t, w, id, Reserving(id, |b.log|), b.writers + 2, len, k)
    ensures AcquireBy(actions, w, len) && Run(s, actions) == Some(u)
    ensures var id := Active(s.mem); var b := At(s.mem, id);
            Holding(s, u, w, id, Prefixed(id, |b.log|), b.writers + 2, len, PREFIX)
    decreases PREFIX - k
  {
    hide Run; hide LittleEndian;
    var id := Active(s.mem);
    var b := At(s.mem, id);
    u := Then(s, begun, t, Advance(w));
    actions := begun + [Advance(w)];
    if k + 1 < PREFIX {
      assert Holding(s, u, w, id, Reserving(id, |b.log|), b.writers + 2, len, k + 1);
      actions, u := StoresLength(s, w, len, k + 1, actions, u);
    }
  }

  lemma Reserves(s: State, w: nat, len: nat, begun: seq<Action>, t: State) returns (actions: seq<Action>, u: State)
    requires AcquireBy(begun, w, len) && Run(s, begun) == Some(t)
    requires var id := Active(s.mem); Admitted(At(s.mem, id), len) && t == Counting(s, w, id, Roomy(len, id), At(s.mem, id).writers + 2)
    ensures AcquireBy(actions, w, len) && Run(s, actions) == Some(u)
    ensures var id := Active(s.mem); var b := At(s.mem, id);
            Holding(s, u, w, id, Reserving(id, |b.log|), b.writers + 2, len, 0)
  {
    hide Run; hide LittleEndian; hide Arbitrate; hide Enter;
    u := Then(s, begun, t, Advance(w));
    actions := begun + [Advance(w)];
  }

  lemma Succeeds(s: State, w: nat, len: nat, begun: seq<Action>, t: State) returns (actions: seq<Action>, u: State)
    requires AcquireBy(begun, w, len) && Run(s, begun) == Some(t)
    requires var id := Active(s.mem); var b := At(s.mem, id); Holding(s, t, w, id, Prefixed(id, |b.log|), b.writers + 2, len, PREFIX)
    ensures AcquireBy(actions, w, len) && Run(s, actions) == Some(u)
    ensures var id := Active(s.mem); var b := At(s.mem, id); Holding(s, u, w, id, Owner(id, |b.log|), b.writers + 1, len, PREFIX)
  {
    hide Run; hide Arbitrate; hide Fill;
    u := Then(s, begun, t, Advance(w));
    actions := begun + [Advance(w)];
  }

  /**
   * A thread that calls `Acquire(len)` and moves alone becomes the owner of a reservation of `len` bytes inside the
   * active block, at its old `acquired_index`, if and only if the acquire is admitted; otherwise it ends without a trace.
   */
  lemma AcquireAlone(s: State, w: nat, len: nat) returns (actions: seq<Action>, t: State)
    requires PcOf(s, w) == Idle
    ensures AcquireBy(actions, w, len) && Run(s, actions) == Some(t)
    ensures var id := Active(s.mem); var b := At(s.mem, id);
            && (PcOf(t, w).Owner? <==> Admitted(b, len))
            && (PcOf(t, w).Idle? <==> !Admitted(b, len))
            && (Admitted(b, len) ==>
                  && Holding(s, t, w, id, Owner(id, |b.log|), b.writers + 1, len, PREFIX)
                  && Granted(b.Size(), At(t.mem, id).log[|b.log|]))
            && (!Admitted(b, len) ==> t == s.(threads := s.threads[w := Idle]))
  {
    hide Run; hide AcquireBy;
    actions, t := Validates(s, w, len);
    actions, t := Arrives(s, w, len, actions, t);
    actions, t := IsChecked(s, w, len, actions, t);
    if Admitted(At(s.mem, Active(s.mem)), len) {
      actions, t := Reserves(s, w, len, actions, t);
      actions, t := StoresLength(s, w, len, 0, actions, t);
      actions, t := Succeeds(s, w, len, actions, t);
    } else {
      actions, t := IsRefused(s, w, len, actions, t);
    }
  }

  // ----- A whole entry -----

  /** Only thread `w` moves. */
  predicate OnlyBy(actions: seq<Action>, w: nat) {
    forall i :: 0 <= i < |actions| ==> !actions[i].Consume? && actions[i].w == w
  }

  lemma AcquireIsOnlyBy(actions: seq<Action>, w: nat, len: nat)
    requires AcquireBy(actions, w, len)
    ensures OnlyBy(actions, w)
  {
  }

  lemma OnlyBySnoc(actions: seq<Action>, w: nat, a: Action)
    requires OnlyBy(actions, w) && !a.Consume? && a.w == w
    ensures OnlyBy(actions + [a], w)
  {
  }

  /** Thread `w` owns the last reservation of block `id` and has stored the first `k` bytes of `bs` in its span. */
  predicate Filled(s0: State, s: State, w: nat, id: BlockId, bs: Entry, k: nat) {
    var b := At(s0.mem, id);
    && Holding(s0, s, w, id, Owner(id, |b.log|), b.writers + 1, |bs|, PREFIX)
    && k <= |bs| && At(s.mem, id).log[|b.log|].payload[..k] == bs[..k]
  }

  lemma {:induction false} StoresPayload(s: State, w: nat, bs: Entry, k: nat, begun: seq<Action>, t: State)
    returns (actions: seq<Action>, u: State)
    requires OnlyBy(begun, w) && Run(s, begun) == Some(t)
    requires var id := Active(s.mem); Fits(At(s.mem, id).Size(), At(s.mem, id).acquired, |bs| + PREFIX) && Filled(s, t, w, id, bs, k)
    ensures OnlyBy(actions, w) && Run(s, actions) == Some(u) && Filled(s, u, w, Active(s.mem), bs, |bs|)
    decreases |bs| - k
  {
    hide Run; hide OnlyBy;
    if k == |bs| {
      actions, u := begun, t;
    } else {
      u := Then(s, begun, t, Store(w, k, bs[k]));
      OnlyBySnoc(begun, w, Store(w, k, bs[k]));
      OneMoreByte(s, t, u, w, bs, k);
      actions, u := StoresPayload(s, w, bs, k + 1, begun + [Store(w, k, bs[k])], u);
    }
  }

  lemma OneMoreByte(s: State, t: State, u: State, w: nat, bs: Entry, k: nat)
    requires Filled(s, t, w, Active(s.mem), bs, k) && k < |bs| && CanStore(t, w, k) && u == Apply(t, Store(w, k, bs[k]))
    ensures Filled(s, u, w, Active(s.mem), bs, k + 1)
  {
    var id := Active(s.mem);
    var i := |At(s.mem, id).log|;
    var p, p' := At(t.mem, id).log[i].payload, At(u.mem, id).log[i].payload;
    assert p' == p[k := bs[k]];
    assert p'[..k + 1] == p[..k] + [bs[k]] == bs[..k + 1];
    assert At(u.mem, id).log[..i] == At(t.mem, id).log[..i];
    assert u.threads == t.threads;
  }

  function Appended(b: Block, w: nat, bs: Entry, data: seq<Byte>): Block {
    b.(data := data, acquired := b.acquired + |bs| + PREFIX, written := b.written + |bs| + PREFIX,
       log := b.log + [Reservation(w, b.acquired, |bs|, PREFIX, bs, true)])
  }

  /** `s` with entry `bs` of thread `w` released in the active block. */
  predicate Written(s: State, t: State, w: nat, bs: Entry) {
    var id := Active(s.mem);
    && t == s.(mem := With(s.mem, id, At(t.mem, id)), threads := s.threads[w := Idle],
               hist := s.hist.(released := s.hist.released + [bs]))
    && At(t.mem, id) == Appended(At(s.mem, id), w, bs, At(t.mem, id).data) && At(t.mem, id).Size() == At(s.mem, id).Size()
  }

  lemma ReleasesEntry(s: State, w: nat, bs: Entry, begun: seq<Action>, t: State) returns (actions: seq<Action>, u: State)
    requires OnlyBy(begun, w) && Run(s, begun) == Some(t) && Filled(s, t, w, Active(s.mem), bs, |bs|)
    ensures OnlyBy(actions, w) && Run(s, actions) == Some(u) && Written(s, u, w, bs)
  {
    hide Run; hide OnlyBy; hide Arbitrate; hide Granted;
    var id := Active(s.mem);
    var i := |At(s.mem, id).log|;
    var r := At(t.mem, id).log[i];
    assert r.payload == r.payload[..|bs|] == bs[..|bs|] == bs;
    u := Then(s, begun, t, Advance(w));
    OnlyBySnoc(begun, w, Advance(w));
    assert At(u.mem, id).log == At(s.mem, id).log + [Reservation(w, At(s.mem, id).acquired, |bs|, PREFIX, bs, true)];
    u := Then(s, begun + [Advance(w)], u, Advance(w));
    OnlyBySnoc(begun + [Advance(w)], w, Advance(w));
    actions := begun + [Advance(w)] + [Advance(w)];
  }

  /** An admitted thread that moves alone can put exactly its bytes behind the entries of the active block. */
  lemma WriteAlone(s: State, w: nat, bs: Entry) returns (actions: seq<Action>, t: State)
    requires PcOf(s, w) == Idle && Admitted(At(s.mem, Active(s.mem)), |bs|)
    ensures OnlyBy(actions, w) && Run(s, actions) == Some(t) && Written(s, t, w, bs)
    ensures var a, a' := At(s.mem, Active(s.mem)), At(t.mem, Active(s.mem));
            Entries(a'.Size(), a'.log) == Entries(a.Size(), a.log) + [bs]
  {
    hide Run; hide AcquireBy; hide OnlyBy; hide Holding; hide Entries; hide Written;
    var id := Active(s.mem);
    actions, t := AcquireAlone(s, w, |bs|);
    AcquireIsOnlyBy(actions, w, |bs|);
    StartsFilling(s, t, w, bs);
    actions, t := StoresPayload(s, w, bs, 0, actions, t);
    actions, t := ReleasesEntry(s, w, bs, actions, t);
    EntryAppended(s, t, w, bs);
  }

  lemma StartsFilling(s: State, t: State, w: nat, bs: Entry)
    requires var id := Active(s.mem); Holding(s, t, w, id, Owner(id, |At(s.mem, id).log|), At(s.mem, id).writers + 1, |bs|, PREFIX)
    ensures Filled(s, t, w, Active(s.mem), bs, 0)
  {
  }

  lemma EntryAppended(s: State, t: State, w: nat, bs: Entry)
    requires Written(s, t, w, bs) && Fits(At(s.mem, Active(s.mem)).Size(), At(s.mem, Active(s.mem)).acquired, |bs| + PREFIX)
    ensures var a, a' := At(s.mem, Active(s.mem)), At(t.mem, Active(s.mem));
            Entries(a'.Size(), a'.log) == Entries(a.Size(), a.log) + [bs]
  {
    var a, a' := At(s.mem, Active(s.mem)), At(t.mem, Active(s.mem));
    assert a'.log[..|a.log|] == a.log;
  }

  // ----- Under every interleaving -----

  /** What stands in the way of the acquire of thread `w` at its next operation. */
  predicate Obstacle(s: State, w: nat) {
    match PcOf(s, w)
    case Candidate(_, c) => s.mem.counter != c && s.mem.counter != Next(c)     // more than one switch since its load
    case HoldsBoth(_, c) => s.mem.counter != Next(c)                           // another one during the second stage
    case Entered(len, b) => At(s.mem, b).writers > MAX_CONCURRENT_WRITERS || len > MAX_LENGTH
    case Counted(len, b) => At(s.mem, b).acquired >= MAX_CAPACITY || !Fits(At(s.mem, b).Size(), At(s.mem, b).acquired, len + PREFIX)
    case Roomy(len, b) => !Fits(At(s.mem, b).Size(), At(s.mem, b).acquired, len + PREFIX)
    case _ => false
  }

  predicate Failing(pc: Pc) {
    pc.Idle? || pc.GiveUpFirst? || pc.GiveUpSecond? || (pc.Settling? && !pc.won) || pc.Refused? || pc.Leaving? || pc.Terminating?
  }

  predicate HasSpan(s: State, b: BlockId, i: nat, len: nat) { i < |At(s.mem, b).log| && At(s.mem, b).log[i].length == len }

  /** The acquire of `len` bytes is under way or has succeeded. */
  predicate OnTrack(s: State, w: nat, len: nat) {
    match PcOf(s, w)
    case Loaded(n, _) => n == len
    case Candidate(n, _) => n == len
    case LostFirst(n, _) => n == len
    case HoldsBoth(n, _) => n == len
    case Settling(n, _, won) => n == len && won
    case Won(n, _) => n == len
    case Entered(n, _) => n == len
    case Counted(n, _) => n == len
    case Roomy(n, _) => n == len
    case Reserving(b, i) => HasSpan(s, b, i, len)
    case Prefixed(b, i) => HasSpan(s, b, i, len)
    case Owner(b, i) => HasSpan(s, b, i, len)
    case _ => false
  }

  lemma OwnStep(s: State, w: nat, len: nat)
    requires Enabled(s, Advance(w)) && OnTrack(s, w, len) && !PcOf(s, w).Owner?
    ensures var t := Apply(s, Advance(w));
            if Obstacle(s, w) then Failing(PcOf(t, w)) else OnTrack(t, w, len)
  {
    hide Fits; hide LittleEndian;
  }

  lemma FailingStep(s: State, w: nat)
    requires Enabled(s, Advance(w)) && Failing(PcOf(s, w))
    ensures Failing(PcOf(Apply(s, Advance(w)), w))
  {
    hide Fits; hide LittleEndian;
  }

  /** Steps of writers never change the length of a reservation. */
  lemma LengthsStay(s: State, a: Action, b: BlockId, i: nat, len: nat)
    requires Enabled(s, a) && !a.Consume? && HasSpan(s, b, i, len)
    ensures HasSpan(Apply(s, a), b, i, len)
  {
    hide Fits; hide LittleEndian;
  }

  lemma ConsumerTouches(s: State)
    ensures var t := ConsumeStep(s);
            && t.threads == s.threads
            && (s.consumer.SwitchLoaded? ==> At(t.mem, Select(s.consumer.c)).log == At(s.mem, Select(s.consumer.c)).log)
            && (!s.consumer.SwitchLoaded? ==> t.mem.even.log == s.mem.even.log && t.mem.odd.log == s.mem.odd.log)
  {
    hide ReadAt; hide Cropped; hide Entries;
  }

  /** `Switch` does not touch the reservation of a thread that still works on it. */
  lemma SwitchSpares(s: State, w: nat, len: nat)
    requires CoreInv(s) && OnTrack(s, w, len)
    ensures OnTrack(ConsumeStep(s), w, len)
  {
    hide BlocksInv; hide OwnersInv; hide ThreadsInv; hide TokensInv; hide ConsumeStep; hide NoneValidated;
    ConsumerTouches(s);
    var pc := PcOf(s, w);
    if s.consumer.SwitchLoaded? && (pc.Reserving? || pc.Prefixed? || pc.Owner?) {
      ValidatedIsActive(s, w, pc.b);
    }
  }

  lemma OthersStep(s: State, w: nat, len: nat, a: Action)
    requires CoreInv(s) && Enabled(s, a) && OnTrack(s, w, len) && (!a.Consume? ==> a.w != w)
    ensures OnTrack(Apply(s, a), w, len)
  {
    hide CoreInv; hide ConsumeStep; hide HasSpan;
    if a.Consume? {
      SwitchSpares(s, w, len);
    } else {
      QueueBounds.OthersKeepPc(s, w, a);
      var pc := PcOf(s, w);
      if pc.Reserving? || pc.Prefixed? || pc.Owner? {
        LengthsStay(s, a, pc.b, pc.i, len);
      }
      hide Apply;
    }
  }

  /** Thread `w` neither starts again nor releases: it is inside one `Acquire`, or filling the span that it got. */
  predicate OneAcquire(s: State, actions: seq<Action>, w: nat) {
    forall i :: 0 <= i < |actions| ==> OneAcquireStep(s, actions, w, i)
  }

  predicate OneAcquireStep(s: State, actions: seq<Action>, w: nat, i: nat)
    requires i < |actions|
  {
    && !(actions[i].Begin? && actions[i].w == w)
    && var t := Run(s, actions[..i]);
       t.Some? && (PcOf(t.value, w).Owner? ==> actions[i] != Advance(w))
  }

  /** Along the run, thread `w` performed an operation with an obstacle in its way. */
  predicate Met(s: State, actions: seq<Action>, w: nat) {
    actions != []
    && var n := |actions| - 1;
       var t := Run(s, actions[..n]);
       Met(s, actions[..n], w) || (t.Some? && actions[n] == Advance(w) && Obstacle(t.value, w))
  }

  lemma OneAcquirePrefix(s: State, actions: seq<Action>, w: nat)
    requires OneAcquire(s, actions, w) && actions != []
    ensures OneAcquire(s, actions[..|actions| - 1], w)
  {
    hide Run;
    var n := |actions| - 1;
    forall i | 0 <= i < n ensures OneAcquireStep(s, actions[..n], w, i) {
      assert OneAcquireStep(s, actions, w, i) && actions[..n][..i] == actions[..i];
    }
  }

  lemma {:induction false} AcquireRun(s: State, actions: seq<Action>, t: State, w: nat, len: nat)
    requires CoreInv(s) && OnTrack(s, w, len) && Run(s, actions) == Some(t) && OneAcquire(s, actions, w)
    ensures CoreInv(t)
    ensures if Met(s, actions, w) then Failing(PcOf(t, w)) else OnTrack(t, w, len)
  {
    hide CoreInv; hide OnTrack; hide Obstacle; hide Apply; hide Enabled;
    if actions != [] {
      var n := |actions| - 1;
      var u := Run(s, actions[..n]).value;
      OneAcquirePrefix(s, actions, w);
      AcquireRun(s, actions[..n], u, w, len);
      StepKeepsCore(u, actions[n]);
      assert OneAcquireStep(s, actions, w, n);
      hide OneAcquire;
      if Met(s, actions[..n], w) {
        FailingRunStep(u, actions[n], w);
      } else {
        TrackRunStep(u, actions[n], w, len);
      }
    }
  }

  lemma FailingRunStep(s: State, a: Action, w: nat)
    requires Enabled(s, a) && Failing(PcOf(s, w)) && !(a.Begin? && a.w == w)
    ensures Failing(PcOf(Apply(s, a), w))
  {
    if a == Advance(w) {
      FailingStep(s, w);
    } else {
      hide Arbitrate; hide Enter; hide Fill; hide ConsumeStep;
      OtherOrStore(s, a, w);
    }
  }

  lemma OtherOrStore(s: State, a: Action, w: nat)
    requires Enabled(s, a) && a != Advance(w) && !(a.Begin? && a.w == w)
    ensures PcOf(Apply(s, a), w) == PcOf(s, w)
  {
    if !a.Consume? && a.w == w {
      assert a.Store?;
    } else {
      QueueBounds.OthersKeepPc(s, w, a);
    }
  }

  lemma TrackRunStep(s: State, a: Action, w: nat, len: nat)
    requires CoreInv(s) && Enabled(s, a) && OnTrack(s, w, len) && !(a.Begin? && a.w == w)
    requires PcOf(s, w).Owner? ==> a != Advance(w)
    ensures var t := Apply(s, a);
            if a == Advance(w) && Obstacle(s, w) then Failing(PcOf(t, w)) else OnTrack(t, w, len)
  {
    hide CoreInv; hide OnTrack; hide Obstacle; hide Apply; hide Enabled;
    if a == Advance(w) {
      OwnStep(s, w, len);
    } else if !a.Consume? && a.w == w {
      StoreStep(s, a, w, len);
    } else {
      OthersStep(s, w, len, a);
    }
  }

  lemma StoreStep(s: State, a: Action, w: nat, len: nat)
    requires Enabled(s, a) && a.Store? && a.w == w && OnTrack(s, w, len)
    ensures OnTrack(Apply(s, a), w, len)
  {
    var pc := PcOf(s, w);
    LengthsStay(s, a, pc.b, pc.i, len);
  }

  /**
   * Under every interleaving: an `Acquire(len)` that has come to its end gave its thread a complete reservation of `len`
   * bytes inside a block, if and only if none of its operations met an obstacle; and it ended with nothing, if and only if
   * one did: the counter moved away twice, too many counts, too long an entry, or too little room.
   */
  lemma AcquireAnswers(s: State, w: nat, len: nat, actions: seq<Action>, t: State)
    requires Reachable(s) && PcOf(s, w) == Idle
    requires var s' := Apply(s, Begin(w, len)); Run(s', actions) == Some(t) && OneAcquire(s', actions, w)
    requires PcOf(t, w).Idle? || PcOf(t, w).Owner?
    ensures PcOf(t, w).Idle? <==> Met(Apply(s, Begin(w, len)), actions, w)
    ensures PcOf(t, w).Owner? ==>
              var pc := PcOf(t, w); var b := At(t.mem, pc.b);
              && pc.i < |b.log| && b.log[pc.i].owner == w && b.log[pc.i].length == len && b.log[pc.i].prefixBytes == PREFIX
              && Granted(b.Size(), b.log[pc.i]) && !b.log[pc.i].published
  {
    hide Reachable; hide Run; hide CoreInv; hide HistInv; hide OneAcquire; hide Met;
    ReachableHasInv(s);
    var s' := Apply(s, Begin(w, len));
    StepKeepsCore(s, Begin(w, len));
    AcquireRun(s', actions, t, w, len);
    if PcOf(t, w).Owner? {
      OwnsWhatItFills(t, w);
    }
  }
}
