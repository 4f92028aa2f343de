/** What the queue delivers: conservation and order over whole runs. */
module QueueHistory {
  import opened Options
  import opened Bytes
  import opened LinearBuffer
  import opened LinearReading
  import opened WaitFreeQueue
  import opened QueueInvariant

  // ----- Reference definitions -----

  /** The drained epochs of the archive, in order: for each, its granted payloads in reservation order. */
  function TakenEpochs(archive: seq<Epoch>): seq<seq<Entry>> {
    if archive == [] then []
    else
      var e := archive[|archive| - 1];
      TakenEpochs(archive[..|archive| - 1]) + (if e.taken then [Entries(e.size, e.log)] else [])
  }

  /** The entries of the epochs that were cleared without having been drained. */
  function DroppedEntries(archive: seq<Epoch>): seq<Entry> {
    if archive == [] then []
    else
      var e := archive[|archive| - 1];
      DroppedEntries(archive[..|archive| - 1]) + (if e.taken then [] else Entries(e.size, e.log))
  }

  function Flat(groups: seq<seq<Entry>>): multiset<Entry> {
    if groups == [] then multiset{}
    else Flat(groups[..|groups| - 1]) + multiset(groups[|groups| - 1])
  }

  /** The entries of a block whose writers have released them. */
  function PublishedBag(size: nat, log: seq<Reservation>): multiset<Entry> {
    if log == [] then multiset{}
    else
      var r := log[|log| - 1];
      PublishedBag(size, log[..|log| - 1]) + (if r.published && Granted(size, r) then multiset{r.payload} else multiset{})
  }

  function Bag(b: Block): multiset<Entry> { PublishedBag(b.Size(), b.log) }

  function RetiredEntries(s: State): seq<Entry> {
    var r := At(s.mem, Retired(s.mem));
    Entries(r.Size(), r.log)
  }

  function Last<T>(s: seq<T>): T
    requires s != []
  {
    s[|s| - 1]
  }

  // ----- Invariant -----

  predicate DeliveredInv(s: State) {
    var d := s.hist.delivered;
    if s.hist.fate == Taken then
      && d != []
      && d[..|d| - 1] == TakenEpochs(s.hist.archive)
      && (if s.consumer.Draining? then Last(d) <= RetiredEntries(s) else Last(d) == RetiredEntries(s))
    else d == TakenEpochs(s.hist.archive)
  }

  predicate LostInv(s: State) {
    s.hist.lost == DroppedEntries(s.hist.archive)
  }

  /** Released entries that sit in the retired block and have not been delivered: all of them if it was refused. */
  function PendingBag(s: State): multiset<Entry> {
    match s.hist.fate
    case Undecided => Bag(At(s.mem, Retired(s.mem)))
    case Taken =>
      if s.hist.delivered != [] && |Last(s.hist.delivered)| <= |RetiredEntries(s)|
      then multiset(RetiredEntries(s)[|Last(s.hist.delivered)|..])
      else multiset{}
    case Dropped => multiset(RetiredEntries(s))
    case Blank => multiset{}
  }

  /** Every entry ever released is delivered, lost, or still in exactly one of the two blocks. */
  predicate ConservedInv(s: State) {
    multiset(s.hist.released)
    == Flat(s.hist.delivered) + multiset(s.hist.lost) + Bag(At(s.mem, Active(s.mem))) + PendingBag(s)
  }

  /** `buffer_expected_to_read_next_` points at the active block up to refusals and an open acquire. */
  predicate ExpectedInv(s: State) {
    Select(s.expected) == Active(s.mem)
    <==> (s.hist.refusals + (if s.hist.fate == Undecided then 1 else 0)) % 2 == 0
  }

  /** Before the next `Switch`, the retired block was refused exactly if refusals are being counted. */
  predicate RefusalsInv(s: State) {
    && (s.hist.fate == Taken ==> s.hist.refusals == 0)
    && (s.hist.fate == Dropped ==> s.hist.refusals > 0)
    && (s.hist.fate == Blank && BeforeClearing(s.consumer) ==> s.hist.refusals == 0)
  }

  predicate BeforeClearing(c: Consumer) { c.Resting? || c.Requested? || c.SwitchLoaded? }

  predicate HistInv(s: State) {
    DeliveredInv(s) && LostInv(s) && ConservedInv(s) && ExpectedInv(s) && RefusalsInv(s)
  }

  predicate Inv(s: State) {
    CoreInv(s) && HistInv(s)
  }

  // ----- Bags -----

  function Share(size: nat, r: Reservation): multiset<Entry> {
    if r.published && Granted(size, r) then multiset{r.payload} else multiset{}
  }

  lemma BagLast(size: nat, log: seq<Reservation>)
    requires log != []
    ensures PublishedBag(size, log) == PublishedBag(size, log[..|log| - 1]) + Share(size, log[|log| - 1])
  {
  }

  lemma {:induction false} BagUpdate(size: nat, log: seq<Reservation>, i: nat, r: Reservation)
    requires i < |log| && !log[i].published
    ensures PublishedBag(size, log[i := r]) == PublishedBag(size, log) + Share(size, r)
  {
    hide PublishedBag; hide Granted;
    var n := |log| - 1;
    BagLast(size, log);
    BagLast(size, log[i := r]);
    if i == n {
      assert log[i := r][..n] == log[..n];
    } else {
      assert log[i := r][..n] == log[..n][i := r];
      BagUpdate(size, log[..n], i, r);
    }
  }

  lemma BagAppend(size: nat, log: seq<Reservation>, r: Reservation)
    requires !r.published
    ensures PublishedBag(size, log + [r]) == PublishedBag(size, log)
  {
    assert (log + [r])[..|log|] == log;
  }

  lemma {:induction false} BagOfPublished(size: nat, log: seq<Reservation>)
    requires AllPublished(log)
    ensures PublishedBag(size, log) == multiset(Entries(size, log))
  {
    if log != [] {
      BagOfPublished(size, log[..|log| - 1]);
    }
  }

  // ----- Writer steps -----

  /** A step that leaves logs, sizes, counter and phase alone keeps the history invariant. */
  lemma SameLogsKeepHist(s: State, s': State)
    requires HistInv(s)
    requires SameContents(s.mem, s'.mem) && s'.consumer == s.consumer && s'.expected == s.expected && s'.hist == s.hist
    ensures HistInv(s')
  {
    hide TakenEpochs; hide DroppedEntries; hide Flat; hide PublishedBag; hide Entries;
  }

  /** The log of block `b` changes and `extra` is released. */
  lemma LogStepKeepsHist(s: State, w: nat, pc: Pc, b: BlockId, blk: Block, extra: seq<Entry>)
    requires HistInv(s)
    requires Bag(blk) == Bag(At(s.mem, b)) + multiset(extra)
    requires b == Active(s.mem) || s.hist.fate == Undecided
    ensures HistInv(Move(s, w, pc, With(s.mem, b, blk)).(hist := s.hist.(released := s.hist.released + extra)))
  {
    hide TakenEpochs; hide DroppedEntries; hide Flat; hide PublishedBag; hide Entries;
    var s' := Move(s, w, pc, With(s.mem, b, blk)).(hist := s.hist.(released := s.hist.released + extra));
    assert At(s'.mem, Opposite(b)) == At(s.mem, Opposite(b));
    if b == Active(s.mem) {
      assert RetiredEntries(s') == RetiredEntries(s);
      assert PendingBag(s') == PendingBag(s);
    }
  }

  /** A filling thread works on the active block unless the retired block is still undecided. */
  lemma FillingPlace(s: State, w: nat)
    requires CoreInv(s) && w in s.threads && Filling(s.threads[w])
    ensures s.threads[w].b == Active(s.mem) || s.hist.fate == Undecided
  {
    hide OwnedInv; hide BlockInv; hide ThreadsInv; hide TokenInv;
    if !s.consumer.Answered? {
      ValidatedIsActive(s, w, s.threads[w].b);
    }
  }

  lemma BagReserve(b: Block, w: nat, len: nat)
    ensures Bag(Reserve(b, w, len)) == Bag(b)
  {
    hide PublishedBag; hide Fits;
    BagAppend(b.Size(), b.log, Reserve(b, w, len).log[|b.log|]);
  }

  lemma BagPrefix(b: Block, i: nat)
    requires i < |b.log| && b.log[i].prefixBytes < PREFIX && b.log[i].offset + PREFIX <= b.Size() && !b.log[i].published
    ensures Bag(PutPrefixByte(b, i)) == Bag(b)
  {
    hide PublishedBag; hide LittleEndian; hide Granted;
    BagUpdate(b.Size(), b.log, i, PutPrefixByte(b, i).log[i]);
  }

  lemma BagPublish(b: Block, i: nat)
    requires i < |b.log| && !b.log[i].published
    ensures Bag(Publish(b, i)) == Bag(b) + if Granted(b.Size(), b.log[i]) then multiset{b.log[i].payload} else multiset{}
  {
    hide PublishedBag;
    BagUpdate(b.Size(), b.log, i, Publish(b, i).log[i]);
  }

  function ReleasedBy(s: State, pc: Pc): seq<Entry> {
    if pc.Owner? && pc.i < |At(s.mem, pc.b).log| then [At(s.mem, pc.b).log[pc.i].payload] else []
  }

  /** The step touches one block and may release its entry. */
  lemma FillShape(s: State, w: nat)
    requires w in s.threads && Filling(s.threads[w]) && CanAdvance(s, w)
    ensures var pc := s.threads[w];
            var s' := Fill(s, w, pc);
            s' == Move(s, w, s'.threads[w], With(s.mem, pc.b, At(s'.mem, pc.b)))
                  .(hist := s.hist.(released := s.hist.released + ReleasedBy(s, pc)))
  {
    hide Fits; hide LittleEndian; hide Reserve; hide PutPrefixByte; hide Publish;
    assert s.hist.released + [] == s.hist.released;
  }

  lemma FillBag(s: State, w: nat)
    requires w in s.threads && Filling(s.threads[w]) && CanAdvance(s, w) && PcInv(s.mem, w, s.threads[w])
    ensures var pc := s.threads[w];
            Bag(At(Fill(s, w, pc).mem, pc.b)) == Bag(At(s.mem, pc.b)) + multiset(ReleasedBy(s, pc))
  {
    hide Bag; hide Fits; hide Reserve; hide PutPrefixByte; hide Publish; hide Granted;
    var pc := s.threads[w];
    var blk := At(s.mem, pc.b);
    match pc {
      case Roomy(len, b) => BagReserve(blk, w, len);
      case Reserving(b, i) => BagPrefix(blk, i);
      case Terminating(b, i) =>
        if blk.log[i].offset + PREFIX <= blk.Size() && blk.log[i].prefixBytes < PREFIX {
          BagPrefix(blk, i);
        } else {
          BagPublish(blk, i);
        }
      case Owner(b, i) => BagPublish(blk, i);
    }
  }

  lemma FillKeepsHist(s: State, w: nat)
    requires Inv(s) && w in s.threads && Filling(s.threads[w]) && CanAdvance(s, w)
    ensures HistInv(Fill(s, w, s.threads[w]))
  {
    hide CoreInv; hide HistInv; hide Bag; hide Fill; hide PcInv;
    FillingPlace(s, w);
    OwnsWhatItFills(s, w);
    FillShape(s, w);
    FillBag(s, w);
    var pc := s.threads[w];
    var s' := Fill(s, w, pc);
    LogStepKeepsHist(s, w, s'.threads[w], pc.b, At(s'.mem, pc.b), ReleasedBy(s, pc));
  }

  lemma OwnsWhatItFills(s: State, w: nat)
    requires CoreInv(s) && w in s.threads
    ensures PcInv(s.mem, w, s.threads[w])
  {
    hide OwnedInv; hide BlockInv; hide TokenInv; hide ConsumerInv; hide PcInv;
  }

  lemma StoreKeepsHist(s: State, w: nat, k: nat, v: Byte)
    requires Inv(s) && CanStore(s, w, k)
    ensures HistInv(Apply(s, Store(w, k, v)))
  {
    hide CoreInv; hide HistInv; hide PublishedBag;
    FillingPlace(s, w);
    OwnsWhatItFills(s, w);
    var pc := s.threads[w];
    var blk := At(s.mem, pc.b);
    var blk' := PutPayloadByte(blk, pc.i, k, v);
    BagUpdate(blk.Size(), blk.log, pc.i, blk'.log[pc.i]);
    LogStepKeepsHist(s, w, pc, pc.b, blk', []);
    assert s.hist.released + [] == s.hist.released;
    assert s.threads[w := pc] == s.threads;
  }

  // ----- Consumer steps -----

  /** Phases other than draining are not visible in the history. */
  lemma PhaseKeepsHist(s: State, s': State)
    requires HistInv(s) && s'.mem == s.mem && s'.hist == s.hist && s'.expected == s.expected
    requires !s.consumer.Draining? && !s'.consumer.Draining?
    requires BeforeClearing(s'.consumer) ==> BeforeClearing(s.consumer) || s.hist.fate != Blank
    ensures HistInv(s')
  {
    hide TakenEpochs; hide DroppedEntries; hide Flat; hide PublishedBag; hide Entries;
  }

  lemma ArchiveAppend(archive: seq<Epoch>, e: Epoch)
    ensures TakenEpochs(archive + [e]) == TakenEpochs(archive) + (if e.taken then [Entries(e.size, e.log)] else [])
    ensures DroppedEntries(archive + [e]) == DroppedEntries(archive) + (if e.taken then [] else Entries(e.size, e.log))
  {
    assert (archive + [e])[..|archive|] == archive;
  }

  /** Clearing turns the entries of a refused block from pending into lost ones. */
  lemma ClearingConserves(s: State, c: Counter)
    requires DeliveredInv(s) && ConservedInv(s) && s.consumer == SwitchLoaded(c) && c == s.mem.counter && s.hist.fate != Undecided
    ensures ConservedInv(ZeroAcquired(s, c))
  {
    hide TakenEpochs; hide DroppedEntries; hide Flat; hide Bag; hide Entries;
    var s' := ZeroAcquired(s, c);
    var es := RetiredEntries(s);
    assert At(s'.mem, Active(s.mem)) == At(s.mem, Active(s.mem));
    assert s.hist.lost + [] == s.hist.lost;
    if s.hist.fate == Taken {
      assert PendingBag(s) == multiset{};
    } else if s.hist.fate == Dropped {
      Relabel(Flat(s.hist.delivered), multiset(s.hist.lost), Bag(At(s.mem, Active(s.mem))), multiset(es));
      assert multiset(s.hist.lost + es) == multiset(s.hist.lost) + multiset(es);
    }
  }

  lemma Relabel(f: multiset<Entry>, l: multiset<Entry>, b: multiset<Entry>, p: multiset<Entry>)
    ensures f + l + b + p == f + (l + p) + b + multiset{}
  {
  }

  lemma ClearingKeepsRecords(s: State, c: Counter)
    requires DeliveredInv(s) && LostInv(s) && s.consumer == SwitchLoaded(c) && c == s.mem.counter && s.hist.fate != Undecided
    ensures DeliveredInv(ZeroAcquired(s, c)) && LostInv(ZeroAcquired(s, c))
  {
    hide TakenEpochs; hide DroppedEntries; hide Entries;
    var blk := At(s.mem, Retired(s.mem));
    var d := s.hist.delivered;
    ArchiveAppend(s.hist.archive, Epoch(blk.Size(), blk.log, s.hist.fate == Taken));
    assert s.hist.lost + [] == s.hist.lost;
    if s.hist.fate == Taken {
      assert d == d[..|d| - 1] + [Last(d)];
    }
  }

  lemma ZeroAcquiredKeepsHist(s: State, c: Counter)
    requires Inv(s) && s.consumer == SwitchLoaded(c)
    ensures HistInv(ZeroAcquired(s, c))
  {
    hide BlocksInv; hide ThreadsInv; hide TokensInv; hide OwnersInv; hide FrozenInv;
    hide DeliveredInv; hide LostInv; hide ConservedInv; hide Entries;
    ClearingConserves(s, c);
    ClearingKeepsRecords(s, c);
  }

  lemma ZeroWrittenKeepsHist(s: State, c: Counter)
    requires Inv(s) && s.consumer == SwitchZeroedAcquired(c)
    ensures HistInv(ConsumeStep(s))
  {
    hide OwnedInv; hide BlockInv; hide ThreadsInv; hide TokenInv; hide NoneValidated;
    hide TakenEpochs; hide DroppedEntries; hide Flat; hide PublishedBag; hide Entries;
  }

  lemma EmptyBag(size: nat)
    ensures PublishedBag(size, []) == multiset{}
  {
  }

  lemma BumpKeepsHist(s: State, c: Counter)
    requires Inv(s) && s.consumer == SwitchZeroedWritten(c)
    ensures HistInv(ConsumeStep(s))
  {
    hide OwnedInv; hide BlockInv; hide ThreadsInv; hide TokenInv; hide NoneValidated;
    hide TakenEpochs; hide DroppedEntries; hide Flat; hide PublishedBag; hide Entries;
    NextFlips(c);
    EmptyBag(At(s.mem, Retired(s.mem)).Size());
  }

  /** The undecided retired block, once frozen, holds exactly its granted entries. */
  lemma FrozenBag(s: State)
    requires CoreInv(s) && !s.consumer.Answered?
    ensures Bag(At(s.mem, Retired(s.mem))) == multiset(RetiredEntries(s))
  {
    hide CoreInv;
    FrozenIsPublished(s);
    var r := At(s.mem, Retired(s.mem));
    BagOfPublished(r.Size(), r.log);
  }

  lemma DropKeepsHist(s: State)
    requires Inv(s) && !s.consumer.Answered? && s.hist.fate == Undecided && !s.consumer.Draining?
    ensures HistInv(Drop(s))
  {
    hide CoreInv; hide TakenEpochs; hide DroppedEntries; hide Flat; hide PublishedBag; hide Entries;
    FrozenBag(s);
  }

  lemma FlatAppend(groups: seq<seq<Entry>>, g: seq<Entry>)
    ensures Flat(groups + [g]) == Flat(groups) + multiset(g)
  {
    assert (groups + [g])[..|groups|] == groups;
  }

  lemma OpenReaderKeepsHist(s: State, c: Counter)
    requires Inv(s) && s.consumer == Accepted(c)
    ensures HistInv(OpenReader(s, c))
  {
    hide OwnedInv; hide BlockInv; hide ThreadsInv; hide TokenInv; hide NoneValidated;
    hide TakenEpochs; hide DroppedEntries; hide Flat; hide PublishedBag; hide Entries;
    FrozenBag(s);
    NextFlips(c);
    var s' := OpenReader(s, c);
    FlatAppend(s.hist.delivered, []);
    assert s'.hist.delivered[..|s'.hist.delivered| - 1] == s.hist.delivered;
    assert RetiredEntries(s') == RetiredEntries(s);
    assert RetiredEntries(s)[0..] == RetiredEntries(s);
  }

  lemma FlatExtend(groups: seq<seq<Entry>>, e: Entry)
    requires groups != []
    ensures Flat(groups[|groups| - 1 := Last(groups) + [e]]) == Flat(groups) + multiset{e}
  {
    var n := |groups| - 1;
    assert groups[n := Last(groups) + [e]][..n] == groups[..n];
  }

  /** In the draining phase the next read yields the next entry of the retired block, or the end. */
  lemma DrainingReads(s: State)
    requires Inv(s) && s.consumer.Draining?
    ensures s.hist.fate == Taken && s.hist.delivered != []
    ensures var k := |Last(s.hist.delivered)|;
            var r := ReadAt(Cropped(At(s.mem, Select(s.consumer.c)).data, s.consumer.limit), s.consumer.index);
            && k <= |RetiredEntries(s)|
            && (if k < |RetiredEntries(s)| then r.entry == Some(RetiredEntries(s)[k]) else r.entry.None?)
  {
    hide OwnedInv; hide BlockInv; hide ThreadsInv; hide TokenInv; hide NoneValidated; hide ReadAt;
    hide TakenEpochs; hide DroppedEntries; hide Flat; hide PublishedBag; hide Entries; hide ConservedInv;
    var Draining(c, limit, index) := s.consumer;
    NextFlips(c);
    FrozenIsPublished(s);
    var blk := At(s.mem, Retired(s.mem));
    assert Settled(s, Retired(s.mem)) == blk;
    ReadQuiescent(blk, |Last(s.hist.delivered)|);
    CroppedAtLimit(blk, limit);
  }

  lemma ReadEntryKeepsHist(s: State)
    requires Inv(s) && s.consumer.Draining?
    ensures HistInv(ConsumeStep(s))
  {
    hide CoreInv; hide ReadAt; hide TakenEpochs; hide DroppedEntries; hide Flat; hide Bag; hide Entries; hide Cropped;
    DrainingReads(s);
    var s' := ConsumeStep(s);
    var d, es := s.hist.delivered, RetiredEntries(s);
    var k := |Last(d)|;
    assert RetiredEntries(s') == es;
    if k < |es| {
      assert s'.hist.delivered[..|d| - 1] == d[..|d| - 1];
      assert Last(s'.hist.delivered) == es[..k + 1];
      TakeOne(d, es, k);
      MoveBetween(Flat(d), Flat(s'.hist.delivered), multiset(s.hist.lost), Bag(At(s.mem, Active(s.mem))),
                  multiset(es[k..]), multiset(es[k + 1..]));
    } else {
      assert Last(d) == es;
    }
  }

  lemma MoveBetween(f: multiset<Entry>, f': multiset<Entry>, l: multiset<Entry>, b: multiset<Entry>, p: multiset<Entry>, p': multiset<Entry>)
    requires f' + p' == f + p
    ensures f' + l + b + p' == f + l + b + p
  {
    assert f' + l + b + p' == (f' + p') + l + b;
    assert f + l + b + p == (f + p) + l + b;
  }

  /** Delivering one more entry moves it from the pending ones to the delivered ones. */
  lemma TakeOne(d: seq<seq<Entry>>, es: seq<Entry>, k: nat)
    requires d != [] && k == |Last(d)| < |es|
    ensures Flat(d[|d| - 1 := Last(d) + [es[k]]]) + multiset(es[k + 1..]) == Flat(d) + multiset(es[k..])
  {
    hide Flat;
    FlatExtend(d, es[k]);
    assert es[k..] == [es[k]] + es[k + 1..];
  }

  lemma ConsumeKeepsHist(s: State)
    requires Inv(s)
    ensures HistInv(ConsumeStep(s))
  {
    hide HistInv; hide OwnedInv; hide BlockInv; hide ThreadsInv; hide TokenInv; hide NoneValidated;
    match s.consumer
    case SwitchLoaded(c) => ZeroAcquiredKeepsHist(s, c);
    case SwitchZeroedAcquired(c) => ZeroWrittenKeepsHist(s, c);
    case SwitchZeroedWritten(c) => BumpKeepsHist(s, c);
    case Accepted(c) => OpenReaderKeepsHist(s, c);
    case Draining(_, _, _) => ReadEntryKeepsHist(s);
    case Confirmed(c) =>
      if ConsumeStep(s).consumer.Resting? { DropKeepsHist(s); } else { PhaseKeepsHist(s, ConsumeStep(s)); }
    case SecondLoadedWritten(c, _) =>
      if ConsumeStep(s).consumer.Resting? { DropKeepsHist(s); } else { PhaseKeepsHist(s, ConsumeStep(s)); }
    case _ => PhaseKeepsHist(s, ConsumeStep(s));
  }

  // ----- All steps and all runs -----

  /** Arbitration, entry checks and releases touch no index and no byte. */
  lemma CountStepContents(s: State, w: nat)
    requires w in s.threads && !s.threads[w].Idle? && !Filling(s.threads[w])
    ensures var s' := AdvanceThread(s, w);
            SameContents(s.mem, s'.mem) && s'.consumer == s.consumer && s'.expected == s.expected && s'.hist == s.hist
  {
  }

  lemma StepKeepsInv(s: State, a: Action)
    requires Inv(s) && Enabled(s, a)
    ensures Inv(Apply(s, a))
  {
    hide CoreInv; hide HistInv; hide ConsumeStep; hide Arbitrate; hide Enter; hide Fill;
    StepKeepsCore(s, a);
    match a
    case Begin(w, len) => SameLogsKeepHist(s, Apply(s, a));
    case Advance(w) =>
      if Filling(s.threads[w]) {
        FillKeepsHist(s, w);
      } else {
        CountStepContents(s, w);
        SameLogsKeepHist(s, Apply(s, a));
      }
    case Store(w, k, v) => StoreKeepsHist(s, w, k, v);
    case Consume => ConsumeKeepsHist(s);
  }

  lemma InitHasInv(s: State)
    requires Init(s)
    ensures Inv(s)
  {
    InitHasCore(s);
  }

  lemma {:induction false} RunKeepsInv(s: State, actions: seq<Action>, t: State)
    requires Inv(s) && Run(s, actions) == Some(t)
    ensures Inv(t)
  {
    hide Inv;
    if actions != [] {
      var n := |actions| - 1;
      var u := Run(s, actions[..n]).value;
      RunKeepsInv(s, actions[..n], u);
      StepKeepsInv(u, actions[n]);
    }
  }

  lemma ReachableHasInv(s: State)
    requires Reachable(s)
    ensures Inv(s)
  {
    var init, actions :| Init(init) && Run(init, actions) == Some(s);
    InitHasInv(init);
    RunKeepsInv(init, actions, s);
  }
}
