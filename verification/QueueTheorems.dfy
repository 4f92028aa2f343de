/** The queue's guarantees, for every reachable state and every run. */
module QueueTheorems {
  import opened Options
  import opened Bytes
  import opened LinearBuffer
  import opened LinearReading
  import opened WaitFreeQueue
  import opened QueueInvariant
  import opened QueueHistory

  // ----- Reader/writer exclusion -----

  /** No step of a writer touches a retired block that has been seen released, and none gets into it. */
  lemma ExclusionStep(s: State, a: Action)
    requires Inv(s) && Enabled(s, a) && !a.Consume? && !s.consumer.Answered?
    ensures var id := Retired(s.mem); var s' := Apply(s, a);
            && Retired(s'.mem) == id && s'.consumer == s.consumer
            && SameContent(At(s.mem, id), At(s'.mem, id))
            && NoneValidated(s'.threads, id)
  {
    hide HistInv; hide OwnedInv; hide BlockInv; hide ThreadsInv; hide TokenInv; hide ConsumerInv;
    StepKeepsCore(s, a);
    hide NoneValidated; hide Arbitrate; hide Enter;
    if a.Advance? && !Filling(s.threads[a.w]) {
      CountStepContents(s, a.w);
    } else if !a.Begin? {
      ValidatedIsActive(s, a.w, s.threads[a.w].b);
    }
  }

  /** No state along the run from `s` is inside a `Switch`, the final one included. */
  ghost predicate NoSwitchAlong(s: State, actions: seq<Action>) {
    forall i :: 0 <= i <= |actions| ==>
      Run(s, actions[..i]).Some? && !Switching(Run(s, actions[..i]).value.consumer)
  }

  lemma ConsumeOutsideSwitch(s: State)
    requires Inv(s) && !s.consumer.Answered? && !Switching(s.consumer)
    ensures var s' := ConsumeStep(s); s'.mem == s.mem && s'.threads == s.threads && !s'.consumer.Answered?
  {
    hide HistInv; hide OwnedInv; hide BlockInv; hide ThreadsInv; hide TokenInv;
    if s.consumer.FirstLoadedWritten? {
      FirstCheckCannotFail(s);
    }
  }

  /** Once no writer is counted, `written_index == acquired_index` holds by itself. */
  lemma FirstCheckCannotFail(s: State)
    requires Inv(s) && !s.consumer.Answered? && !s.consumer.SwitchZeroedAcquired?
    ensures var r := At(s.mem, Retired(s.mem)); r.written == r.acquired
    ensures s.consumer.FirstLoadedWritten? ==> ConsumeStep(s).consumer == Confirmed(s.consumer.c)
    ensures s.consumer.SecondLoadedWritten? ==> ConsumeStep(s).consumer == Accepted(s.consumer.c)
  {
    hide HistInv; hide OwnedInv; hide ThreadsInv; hide TokenInv; hide Tiled; hide AllStored; hide NoneValidated;
    FrozenIsPublished(s);
    var r := At(s.mem, Retired(s.mem));
    OutstandingAllPublished(r.log);
    assert Settled(s, Retired(s.mem)) == r && BlockInv(r);
    if s.consumer.FirstLoadedWritten? || s.consumer.SecondLoadedWritten? {
      NextFlips(s.consumer.c);
    }
  }

  lemma {:induction false} ExclusionAlongRun(s: State, actions: seq<Action>, t: State)
    requires Inv(s) && !s.consumer.Answered? && Run(s, actions) == Some(t) && NoSwitchAlong(s, actions)
    ensures !t.consumer.Answered? && Retired(t.mem) == Retired(s.mem)
    ensures SameContent(At(s.mem, Retired(s.mem)), At(t.mem, Retired(s.mem)))
    ensures NoneValidated(t.threads, Retired(s.mem))
  {
    hide HistInv; hide OwnedInv; hide BlockInv; hide ThreadsInv; hide TokenInv; hide ConsumerInv; hide NoneValidated; hide Apply; hide Enabled;
    if actions != [] {
      var n := |actions| - 1;
      var prefix := actions[..n];
      var u := Run(s, prefix).value;
      forall i | 0 <= i <= n
        ensures Run(s, prefix[..i]).Some? && !Switching(Run(s, prefix[..i]).value.consumer)
      {
        assert prefix[..i] == actions[..i];
      }
      RunKeepsInv(s, prefix, u);
      ExclusionAlongRun(s, prefix, u);
      if actions[n].Consume? {
        assert prefix[..n] == prefix;
        ConsumeOutsideSwitch(u);
        ConsumeApplies(u);
      } else {
        ExclusionStep(u, actions[n]);
      }
    }
  }

  /**
   * Exclusion over runs: from the moment a retired block has been seen without writers until the
   * next `Switch`, its bytes and indices stay as they are and no writer is validated in it,
   * however the writers interleave and whatever counts losing writers raise in between.
   */
  lemma ReaderWriterExclusion(s: State, actions: seq<Action>, t: State)
    requires Reachable(s) && !s.consumer.Answered? && Run(s, actions) == Some(t) && NoSwitchAlong(s, actions)
    ensures !t.consumer.Answered? && Retired(t.mem) == Retired(s.mem)
    ensures SameContent(At(s.mem, Retired(s.mem)), At(t.mem, Retired(s.mem)))
    ensures NoneValidated(t.threads, Retired(s.mem))
  {
    hide Reachable; hide Inv; hide NoSwitchAlong; hide Run;
    ReachableHasInv(s);
    ExclusionAlongRun(s, actions, t);
  }

  lemma ConsumeApplies(s: State)
    ensures Enabled(s, Consume) && Apply(s, Consume) == ConsumeStep(s)
  {
  }

  // ----- Switch -----

  /** `Switch` clears a block only when no validated writer is in it and all of it is published. */
  lemma SwitchClearsQuietBlock(s: State)
    requires Reachable(s) && Switching(s.consumer)
    ensures NoneValidated(s.threads, Retired(s.mem)) && AllPublished(At(s.mem, Retired(s.mem)).log)
    ensures s.consumer.SwitchLoaded? ==> s.hist.fate != Undecided
  {
    ReachableHasInv(s);
    hide HistInv; hide OwnedInv; hide BlockInv; hide ThreadsInv; hide TokenInv; hide NoneValidated;
    FrozenIsPublished(s);
  }

  /** The block that becomes active starts with both indices at zero and nobody in it. */
  lemma ActivatedBlockIsClean(s: State)
    requires Reachable(s) && s.consumer.SwitchZeroedWritten?
    ensures var s' := ConsumeStep(s); var a := At(s'.mem, Active(s'.mem));
            && Active(s'.mem) == Opposite(Active(s.mem))
            && a.acquired == 0 && a.written == 0 && a.log == [] && NoneValidated(s'.threads, Active(s'.mem))
  {
    ReachableHasInv(s);
    hide HistInv; hide OwnedInv; hide BlockInv; hide ThreadsInv; hide TokenInv; hide NoneValidated;
    NextFlips(s.mem.counter);
  }

  // ----- Tiling of an epoch -----

  /**
   * Within an epoch the reservations of a block tile `[0, acquired_index)`, granted ones lie inside
   * the buffer with their bytes in place, the unpublished ones account for the distance of the two
   * indices, and `number_of_writers` counts exactly the counts held.
   */
  lemma EpochShape(s: State, id: BlockId)
    requires Reachable(s) && !s.consumer.SwitchZeroedAcquired?
    ensures var b := At(s.mem, id);
            && Tiled(b.log, b.acquired)
            && b.acquired - b.written == Outstanding(b.log)
            && AllStored(b.data, b.log)
            && b.writers == |OuterSet(s.threads, id)| + |InnerSet(s.threads, id)|
            && OwnedInv(s.threads, id, b.log)
  {
    ReachableHasInv(s);
    hide HistInv; hide OwnedInv; hide ThreadsInv; hide ConsumerInv; hide NoneValidated; hide AllStored; hide Tiled; hide Outstanding;
    assert Settled(s, id) == At(s.mem, id);
  }

  // ----- Delivery -----

  /**
   * End to end: in every reachable state every entry ever released is in exactly one place:
   * delivered, cleared unread by `Switch`, or still in one of the two blocks. What was delivered is,
   * epoch by epoch, the granted payloads of that epoch in reservation order.
   */
  lemma Delivery(s: State)
    requires Reachable(s)
    ensures multiset(s.hist.released)
         == Flat(s.hist.delivered) + multiset(s.hist.lost) + Bag(At(s.mem, Active(s.mem))) + PendingBag(s)
    ensures PendingBag(s) <= Bag(At(s.mem, Retired(s.mem)))
    ensures s.consumer.Resting? ==>
              s.hist.delivered == TakenEpochs(s.hist.archive) + (if s.hist.fate == Taken then [RetiredEntries(s)] else [])
    ensures s.consumer.Draining? ==>
              s.hist.delivered != [] && Last(s.hist.delivered) <= RetiredEntries(s)
  {
    hide Reachable; hide BlocksInv; hide OwnersInv; hide ThreadsInv; hide TokensInv; hide FrozenInv;
    hide TakenEpochs; hide DroppedEntries; hide Flat; hide Bag; hide RetiredEntries; hide PendingBag;
    ReachableHasInv(s);
    PendingIsInBlock(s);
    var d := s.hist.delivered;
    if s.hist.fate == Taken {
      assert d == d[..|d| - 1] + [Last(d)];
    }
  }

  lemma PendingIsInBlock(s: State)
    requires Inv(s)
    ensures PendingBag(s) <= Bag(At(s.mem, Retired(s.mem)))
  {
    hide HistInv; hide BlocksInv; hide OwnersInv; hide ThreadsInv; hide TokensInv; hide FrozenInv; hide Bag; hide RetiredEntries;
    if s.hist.fate == Taken || s.hist.fate == Dropped {
      FrozenBag(s);
      SuffixBag(RetiredEntries(s), if s.hist.delivered != [] then |Last(s.hist.delivered)| else 0);
    }
  }

  lemma SuffixBag(es: seq<Entry>, k: nat)
    ensures k <= |es| ==> multiset(es[k..]) <= multiset(es)
  {
    if k <= |es| {
      assert es == es[..k] + es[k..];
    }
  }

  // ----- Loss -----

  /**
   * The second check refuses exactly when some writer holds a count on the retired block; every
   * such writer has lost the arbitration, and the block is complete all the same.
   */
  lemma RefusalIsSpurious(s: State)
    requires Reachable(s) && s.consumer.Confirmed?
    ensures var id := Select(s.consumer.c); var b := At(s.mem, id);
            && AllPublished(b.log) && b.written == b.acquired && NoneValidated(s.threads, id)
            && (ConsumeStep(s).hist.fate == Dropped
                <==> exists w :: w in s.threads && Outer(s.threads[w], id))
  {
    hide Reachable; hide HistInv; hide OwnedInv; hide BlockInv; hide ThreadsInv; hide TokenInv; hide NoneValidated;
    hide Outer; hide AllPublished; hide ConsumeStep;
    ReachableHasInv(s);
    RefusalIff(s);
    FirstCheckCannotFail(s);
    FrozenIsPublished(s);
    NextFlips(s.consumer.c);
  }

  lemma RefusalIff(s: State)
    requires Inv(s) && s.consumer.Confirmed?
    ensures Select(s.consumer.c) == Retired(s.mem)
    ensures ConsumeStep(s).hist.fate == Dropped <==> exists w :: w in s.threads && Outer(s.threads[w], Select(s.consumer.c))
  {
    hide HistInv; hide OwnedInv; hide BlockInv; hide ThreadsInv; hide TokenInv; hide NoneValidated; hide Outer; hide ConsumeStep;
    ConfirmedStep(s);
    NextFlips(s.consumer.c);
    OnlyLosersCount(s.threads, Retired(s.mem), At(s.mem, Retired(s.mem)).writers);
  }

  lemma ConfirmedStep(s: State)
    requires s.consumer.Confirmed? && s.hist.fate == Undecided
    ensures ConsumeStep(s).hist.fate == Dropped <==> At(s.mem, Select(s.consumer.c)).writers != 0
  {
  }

  lemma OnlyLosersCount(threads: map<nat, Pc>, id: BlockId, n: nat)
    requires TokenInv(threads, id, n) && NoneValidated(threads, id)
    ensures n != 0 <==> exists w :: w in threads && Outer(threads[w], id)
  {
    assert InnerSet(threads, id) == {} by {
      assert forall w :: w in threads && Inner(threads[w], id) ==> Validated(threads[w], id);
    }
    if w :| w in threads && Outer(threads[w], id) {
      assert w in OuterSet(threads, id);
    } else {
      assert OuterSet(threads, id) == {};
    }
  }

  /** The second check on a block on which some writer holds a count. */
  predicate Refuses(s: State, a: Action) {
    a.Consume? && s.consumer.Confirmed? && exists w :: w in s.threads && Outer(s.threads[w], Select(s.consumer.c))
  }

  /** `Switch` zeroes the retired block. */
  predicate Clears(s: State, a: Action) { a.Consume? && s.consumer.SwitchLoaded? }

  /** Entries of a refused block that still sit in it, for the next `Switch` to clear. */
  function Doomed(s: State): seq<Entry> { if s.hist.fate == Dropped then RetiredEntries(s) else [] }

  lemma LossConsume(s: State)
    requires Inv(s)
    ensures var s' := ConsumeStep(s);
            && s'.hist.lost == (if Clears(s, Consume) then s.hist.lost + Doomed(s) else s.hist.lost)
            && Doomed(s') == (if Clears(s, Consume) then [] else Doomed(s) + if Refuses(s, Consume) then RetiredEntries(s) else [])
  {
    hide HistInv; hide BlocksInv; hide OwnersInv; hide ThreadsInv; hide FrozenInv; hide Entries; hide Outer; hide ReadAt; hide TokenInv;
    if s.consumer.Confirmed? {
      RefusalIff(s);
    } else if s.consumer.SecondLoadedWritten? {
      FirstCheckCannotFail(s);
    }
    assert s.hist.lost + [] == s.hist.lost;
  }

  lemma LossStep(s: State, a: Action)
    requires Inv(s) && Enabled(s, a)
    ensures var s' := Apply(s, a);
            && s'.hist.lost == (if Clears(s, a) then s.hist.lost + Doomed(s) else s.hist.lost)
            && Doomed(s') == (if Clears(s, a) then [] else Doomed(s) + if Refuses(s, a) then RetiredEntries(s) else [])
  {
    hide HistInv; hide ConsumeStep; hide BlocksInv; hide OwnersInv; hide ThreadsInv; hide TokensInv; hide Entries; hide NoneValidated;
    if a.Consume? {
      LossConsume(s);
    } else {
      assert Doomed(s) + [] == Doomed(s);
      WritersKeepFate(s, a);
      if s.hist.fate == Dropped {
        ExclusionStep(s, a);
      }
    }
  }

  lemma WritersKeepFate(s: State, a: Action)
    requires Enabled(s, a) && !a.Consume?
    ensures Apply(s, a).hist.fate == s.hist.fate && Apply(s, a).hist.lost == s.hist.lost
  {
    hide Reserve; hide PutPrefixByte; hide Publish; hide PutPayloadByte;
  }

  /** The entries that the second check refused along the run, in order. */
  function RefusedAlong(s: State, actions: seq<Action>): seq<Entry> {
    if actions == [] then []
    else
      var n := |actions| - 1;
      var t := Run(s, actions[..n]);
      RefusedAlong(s, actions[..n]) + if t.Some? && Refuses(t.value, actions[n]) then RetiredEntries(t.value) else []
  }

  /** How many actions it takes until the last clearing `Switch` of the run, that one included. */
  function UntilLastClear(s: State, actions: seq<Action>): (n: nat)
    ensures n <= |actions|
  {
    if actions == [] then 0
    else
      var n := |actions| - 1;
      var t := Run(s, actions[..n]);
      if t.Some? && Clears(t.value, actions[n]) then n + 1 else UntilLastClear(s, actions[..n])
  }

  lemma LastAction(init: State, actions: seq<Action>, t: State) returns (u: State)
    requires actions != [] && Run(init, actions) == Some(t)
    ensures var n := |actions| - 1;
            && Run(init, actions[..n]) == Some(u) && Enabled(u, actions[n]) && t == Apply(u, actions[n])
            && RefusedAlong(init, actions)
               == RefusedAlong(init, actions[..n]) + (if Refuses(u, actions[n]) then RetiredEntries(u) else [])
            && UntilLastClear(init, actions) == if Clears(u, actions[n]) then |actions| else UntilLastClear(init, actions[..n])
  {
    hide Apply; hide Enabled; hide Refuses; hide Clears; hide RetiredEntries;
    u := Run(init, actions[..|actions| - 1]).value;
  }

  lemma {:induction false} LossAlong(init: State, actions: seq<Action>, t: State)
    requires Init(init) && Run(init, actions) == Some(t)
    ensures t.hist.lost + Doomed(t) == RefusedAlong(init, actions)
    ensures t.hist.lost == RefusedAlong(init, actions[..UntilLastClear(init, actions)])
  {
    hide Apply; hide Enabled; hide Refuses; hide Clears; hide Doomed; hide Inv; hide Init; hide RetiredEntries;
    if actions == [] {
      NothingRefusedAtFirst(init);
      assert actions[..0] == [];
    } else {
      hide RefusedAlong; hide UntilLastClear; hide Run;
      var n := |actions| - 1;
      var u := LastAction(init, actions, t);
      LossAlong(init, actions[..n], u);
      InitHasInv(init);
      RunKeepsInv(init, actions[..n], u);
      LossStep(u, actions[n]);
      ClearIsNoRefusal(u, actions[n]);
      var k := UntilLastClear(init, actions);
      if Clears(u, actions[n]) {
        assert actions[..k] == actions;
      } else {
        assert actions[..n][..k] == actions[..k];
      }
    }
  }

  lemma NothingRefusedAtFirst(s: State)
    requires Init(s)
    ensures s.hist.lost == [] && Doomed(s) == []
  {
  }

  lemma ClearIsNoRefusal(s: State, a: Action)
    ensures !(Clears(s, a) && Refuses(s, a))
  {
  }

  /** Step `i` of the run refuses a block with entries: a losing writer holds a count when the second check looks. */
  predicate RefusesEntries(s: State, actions: seq<Action>, i: nat)
    requires i < |actions|
  {
    var t := Run(s, actions[..i]);
    t.Some? && Refuses(t.value, actions[i]) && RetiredEntries(t.value) != []
  }

  lemma {:induction false} NoneRefusedIff(s: State, actions: seq<Action>)
    ensures RefusedAlong(s, actions) == [] <==> forall i :: 0 <= i < |actions| ==> !RefusesEntries(s, actions, i)
  {
    hide Refuses; hide Run; hide RetiredEntries;
    if actions != [] {
      var n := |actions| - 1;
      NoneRefusedIff(s, actions[..n]);
      forall i | 0 <= i < n ensures RefusesEntries(s, actions, i) == RefusesEntries(s, actions[..n], i) {
        assert actions[..n][..i] == actions[..i] && actions[..n][i] == actions[i];
      }
      assert RefusesEntries(s, actions, n) <==>
             (RefusedAlong(s, actions) != RefusedAlong(s, actions[..n]));
    }
  }

  /**
   * The exact condition for loss, over every run: what is lost is what the second check refused before the last
   * `Switch`. So nothing is lost if and only if, whenever the second check looked before the last `Switch`,
   * either no writer held a count on the retired block or the block held no entry.
   */
  lemma NothingLostIff(init: State, actions: seq<Action>, t: State)
    requires Init(init) && Run(init, actions) == Some(t)
    ensures t.hist.lost == RefusedAlong(init, actions[..UntilLastClear(init, actions)])
    ensures t.hist.lost == [] <==>
              forall i :: 0 <= i < UntilLastClear(init, actions) ==> !RefusesEntries(init, actions, i)
    ensures t.hist.lost == [] && Doomed(t) == [] <==>
              forall i :: 0 <= i < |actions| ==> !RefusesEntries(init, actions, i)
  {
    hide Init; hide Run; hide Doomed; hide RefusedAlong; hide UntilLastClear; hide RefusesEntries;
    LossAlong(init, actions, t);
    var k := UntilLastClear(init, actions);
    NoneRefusedIff(init, actions);
    NoneRefusedIff(init, actions[..k]);
    forall i | 0 <= i < k ensures RefusesEntries(init, actions[..k], i) == RefusesEntries(init, actions, i) {
      SameStep(init, actions, k, i);
    }
  }

  lemma SameStep(s: State, actions: seq<Action>, k: nat, i: nat)
    requires i < k <= |actions|
    ensures RefusesEntries(s, actions[..k], i) == RefusesEntries(s, actions, i)
  {
    hide Run; hide Refuses; hide RetiredEntries;
    assert actions[..k][..i] == actions[..i];
  }

  /** At rest, what is neither delivered nor in the active block is lost or doomed. */
  lemma Shortfall(s: State)
    requires Inv(s) && s.consumer.Resting?
    ensures multiset(s.hist.released)
         == Flat(s.hist.delivered) + Bag(At(s.mem, Active(s.mem))) + multiset(s.hist.lost + Doomed(s))
  {
    hide BlocksInv; hide OwnersInv; hide ThreadsInv; hide TokensInv; hide FrozenInv;
    hide TakenEpochs; hide DroppedEntries; hide Flat; hide Bag; hide RetiredEntries;
    assert PendingBag(s) == multiset(Doomed(s));
    var f, l, a, d := Flat(s.hist.delivered), multiset(s.hist.lost), Bag(At(s.mem, Active(s.mem))), multiset(Doomed(s));
    assert f + l + a + d == f + a + (l + d);
  }

  lemma NothingToAdd(m: multiset<Entry>, es: seq<Entry>)
    ensures m + multiset(es) == m <==> es == []
  {
    if es != [] {
      assert (m + multiset(es))[es[0]] > m[es[0]];
    }
  }

  /**
   * Exactly once, over every run: at rest the released entries are the delivered ones, each once, and those of the
   * active block, if and only if no second check met a losing writer on a block with entries.
   */
  lemma ExactlyOnce(init: State, actions: seq<Action>, t: State)
    requires Init(init) && Run(init, actions) == Some(t) && t.consumer.Resting?
    ensures multiset(t.hist.released) == Flat(t.hist.delivered) + Bag(At(t.mem, Active(t.mem)))
            <==> forall i :: 0 <= i < |actions| ==> !RefusesEntries(init, actions, i)
  {
    hide Init; hide Run; hide RefusesEntries; hide RefusedAlong; hide Inv; hide Flat; hide Bag; hide Doomed;
    InitHasInv(init);
    RunKeepsInv(init, actions, t);
    LossAlong(init, actions, t);
    NoneRefusedIff(init, actions);
    Shortfall(t);
    NothingToAdd(Flat(t.hist.delivered) + Bag(At(t.mem, Active(t.mem))), t.hist.lost + Doomed(t));
  }

  // ----- Detached drain -----

  /** What stays unread when the detached read finds all writers finished and nothing outstanding. */
  function Missed(s: State): seq<Entry> {
    if s.hist.refusals % 2 == 1 then Entries(At(s.mem, Active(s.mem)).Size(), At(s.mem, Active(s.mem)).log) else Doomed(s)
  }

  /**
   * When the peer is gone with all writers finished and nothing outstanding, the detached read drains the active
   * block if the number of refusals since the last accepted finalisation is even, and the refused block if it is odd.
   */
  lemma DetachedBlock(s: State)
    requires Inv(s) && s.consumer.Resting? && AllPublished(At(s.mem, Active(s.mem)).log)
    ensures var b := At(s.mem, Select(s.expected));
            && BlockInv(b) && AllPublished(b.log)
            && DrainFrom(Cropped(b.data, b.written), 0) == Entries(b.Size(), b.log)
    ensures Select(s.expected) == if s.hist.refusals % 2 == 0 then Active(s.mem) else Retired(s.mem)
    ensures s.hist.refusals > 0 <==> s.hist.fate == Dropped
  {
    hide OwnersInv; hide BlockInv; hide ThreadsInv; hide TokensInv; hide FrozenInv; hide DrainFrom; hide Entries;
    hide DeliveredInv; hide LostInv; hide ConservedInv;
    FrozenIsPublished(s);
    var b := At(s.mem, Select(s.expected));
    assert Settled(s, Even) == At(s.mem, Even) && Settled(s, Odd) == At(s.mem, Odd);
    assert BlockInv(b) && AllPublished(b.log);
    ReadBack(b, 0);
    assert Entries(b.Size(), b.log)[0..] == Entries(b.Size(), b.log);
  }

  /**
   * Of the released entries the detached read leaves exactly `Missed` behind: the active block's after an odd number
   * of refusals, the refused block's after an even positive one. It completes delivery if and only if there are none.
   */
  lemma DetachedDrain(s: State)
    requires Reachable(s) && s.consumer.Resting? && AllPublished(At(s.mem, Active(s.mem)).log)
    ensures var b := At(s.mem, Select(s.expected));
            var rest := DrainFrom(Cropped(b.data, b.written), 0);
            && rest == (if s.hist.refusals % 2 == 0 then Entries(At(s.mem, Active(s.mem)).Size(), At(s.mem, Active(s.mem)).log)
                        else RetiredEntries(s))
            && multiset(s.hist.released)
               == Flat(s.hist.delivered) + multiset(s.hist.lost) + multiset(rest) + multiset(Missed(s))
            && (multiset(s.hist.released) == Flat(s.hist.delivered) + multiset(s.hist.lost) + multiset(rest) <==> Missed(s) == [])
  {
    hide Reachable; hide DrainFrom; hide Entries; hide Inv; hide Cropped; hide Flat; hide AllPublished; hide BlockInv;
    ReachableHasInv(s);
    DetachedBlock(s);
    TwoBags(s);
    var b := At(s.mem, Select(s.expected));
    var rest := DrainFrom(Cropped(b.data, b.written), 0);
    NothingToAdd(Flat(s.hist.delivered) + multiset(s.hist.lost) + multiset(rest), Missed(s));
  }

  /** At rest and with the active block complete, conservation in terms of the two blocks' entries. */
  lemma TwoBags(s: State)
    requires Inv(s) && s.consumer.Resting? && AllPublished(At(s.mem, Active(s.mem)).log)
    ensures var a := At(s.mem, Active(s.mem)); var active := Entries(a.Size(), a.log);
            && multiset(s.hist.released) == Flat(s.hist.delivered) + multiset(s.hist.lost) + multiset(active) + multiset(Doomed(s))
            && multiset(s.hist.released) == Flat(s.hist.delivered) + multiset(s.hist.lost) + multiset(Doomed(s)) + multiset(active)
  {
    hide BlocksInv; hide OwnersInv; hide ThreadsInv; hide TokensInv; hide FrozenInv; hide Flat; hide PublishedBag; hide Entries;
    hide TakenEpochs; hide DroppedEntries;
    var a := At(s.mem, Active(s.mem));
    BagOfPublished(a.Size(), a.log);
    assert PendingBag(s) == multiset(Doomed(s));
    SwapLast(Flat(s.hist.delivered) + multiset(s.hist.lost), multiset(Entries(a.Size(), a.log)), multiset(Doomed(s)));
  }

  lemma SwapLast(m: multiset<Entry>, a: multiset<Entry>, b: multiset<Entry>)
    ensures m + a + b == m + b + a
  {
  }
}
