/** End to end: what the composed system of writers, client, session and dispatch thread delivers. */
module SessionDelivery {
  import opened Options
  import opened Bytes
  import opened LinearBuffer
  import opened LinearReading
  import opened WaitFreeQueue
  import opened QueueInvariant
  import opened QueueHistory
  import opened SessionTheorems
  import T = QueueTheorems
  import S = Session

  // ----- Loss -----

  /** The worker sets the reader while some writer holds a count on the block. */
  predicate RefusesNow(y: S.System, p: S.Step) {
    p.Work? && y.s.worker.Setting? && T.Refuses(y.q, Consume)
  }

  /** The client's `Switch` zeroes the retired block. */
  predicate ClearsNow(y: S.System, p: S.Step) {
    p.ClientSwitches? && y.q.consumer.SwitchLoaded?
  }

  lemma LossStep(y: S.System, p: S.Step)
    requires SysInv(y) && S.Enabled(y, p)
    ensures var q, q' := y.q, S.Apply(y, p).q;
            && q'.hist.lost == (if ClearsNow(y, p) then q.hist.lost + T.Doomed(q) else q.hist.lost)
            && T.Doomed(q') == (if ClearsNow(y, p) then []
                                else T.Doomed(q) + if RefusesNow(y, p) then RetiredEntries(q) else [])
  {
    hide Inv; hide ConsumeStep; hide Apply; hide Enabled; hide T.Doomed; hide RetiredEntries;
    assert T.Doomed(y.q) + [] == T.Doomed(y.q);
    StepProjects(y, p);
    if p.Write? {
      T.LossStep(y.q, p.a);
    } else {
      ConsumeIsStep(y.q);
      T.LossStep(y.q, Consume);
    }
  }

  /** The entries that the second check refused along the run, in order. */
  function RefusedAlong(y: S.System, steps: seq<S.Step>): seq<Entry> {
    if steps == [] then []
    else
      var n := |steps| - 1;
      var z := S.Run(y, steps[..n]);
      RefusedAlong(y, steps[..n]) + if z.Some? && RefusesNow(z.value, steps[n]) then RetiredEntries(z.value.q) else []
  }

  /** How many steps it takes until the last clearing `Switch` of the run, that one included. */
  function UntilLastClear(y: S.System, steps: seq<S.Step>): (n: nat)
    ensures n <= |steps|
  {
    if steps == [] then 0
    else
      var n := |steps| - 1;
      var z := S.Run(y, steps[..n]);
      if z.Some? && ClearsNow(z.value, steps[n]) then n + 1 else UntilLastClear(y, steps[..n])
  }

  lemma LastStep(init: S.System, steps: seq<S.Step>, y: S.System) returns (z: S.System)
    requires steps != [] && S.Run(init, steps) == Some(y)
    ensures var n := |steps| - 1;
            && S.Run(init, steps[..n]) == Some(z) && S.Enabled(z, steps[n]) && y == S.Apply(z, steps[n])
            && RefusedAlong(init, steps)
               == RefusedAlong(init, steps[..n]) + (if RefusesNow(z, steps[n]) then RetiredEntries(z.q) else [])
            && UntilLastClear(init, steps) == if ClearsNow(z, steps[n]) then |steps| else UntilLastClear(init, steps[..n])
  {
    hide S.Apply; hide S.Enabled; hide RefusesNow; hide ClearsNow; hide RetiredEntries;
    z := S.Run(init, steps[..|steps| - 1]).value;
  }

  lemma {:induction false} LossAlong(init: S.System, steps: seq<S.Step>, y: S.System)
    requires S.Init(init) && S.Run(init, steps) == Some(y)
    ensures y.q.hist.lost + T.Doomed(y.q) == RefusedAlong(init, steps)
    ensures y.q.hist.lost == RefusedAlong(init, steps[..UntilLastClear(init, steps)])
  {
    hide S.Apply; hide S.Enabled; hide RefusesNow; hide ClearsNow; hide T.Doomed; hide SysInv; hide S.Init; hide RetiredEntries;
    if steps == [] {
      NothingRefusedAtFirst(init);
      assert steps[..0] == [];
    } else {
      hide RefusedAlong; hide UntilLastClear; hide S.Run;
      var n := |steps| - 1;
      var z := LastStep(init, steps, y);
      LossAlong(init, steps[..n], z);
      InitHasSysInv(init);
      RunKeepsSysInv(init, steps[..n], z);
      LossStep(z, steps[n]);
      ClearIsNoRefusal(z, steps[n]);
      var k := UntilLastClear(init, steps);
      if ClearsNow(z, steps[n]) {
        assert steps[..k] == steps;
      } else {
        assert steps[..n][..k] == steps[..k];
      }
    }
  }

  lemma NothingRefusedAtFirst(y: S.System)
    requires S.Init(y)
    ensures y.q.hist.lost == [] && T.Doomed(y.q) == []
  {
  }

  lemma ClearIsNoRefusal(y: S.System, p: S.Step)
    ensures !(ClearsNow(y, p) && RefusesNow(y, p))
  {
  }

  /** Step `i` refuses a block with entries. */
  predicate RefusesEntries(y: S.System, steps: seq<S.Step>, i: nat)
    requires i < |steps|
  {
    var z := S.Run(y, steps[..i]);
    z.Some? && RefusesNow(z.value, steps[i]) && RetiredEntries(z.value.q) != []
  }

  lemma {:induction false} NoneRefusedIff(y: S.System, steps: seq<S.Step>)
    ensures RefusedAlong(y, steps) == [] <==> forall i :: 0 <= i < |steps| ==> !RefusesEntries(y, steps, i)
  {
    hide RefusesNow; hide S.Run; hide RetiredEntries;
    if steps != [] {
      var n := |steps| - 1;
      NoneRefusedIff(y, steps[..n]);
      forall i | 0 <= i < n ensures RefusesEntries(y, steps, i) == RefusesEntries(y, steps[..n], i) {
        SameStep(y, steps, n, i);
      }
      assert RefusesEntries(y, steps, n) <==> RefusedAlong(y, steps) != RefusedAlong(y, steps[..n]);
    }
  }

  lemma SameStep(y: S.System, steps: seq<S.Step>, k: nat, i: nat)
    requires i < k <= |steps|
    ensures RefusesEntries(y, steps[..k], i) == RefusesEntries(y, steps, i)
  {
    hide S.Run; hide RefusesNow; hide RetiredEntries;
    assert steps[..k][..i] == steps[..i];
  }

  /**
   * Under the session's discipline, over every run: nothing is lost if and only if, whenever the session set the
   * reader before the last `Switch`, either no writer held a count on the block or the block held no entry.
   */
  lemma NothingLostIff(init: S.System, steps: seq<S.Step>, y: S.System)
    requires S.Init(init) && S.Run(init, steps) == Some(y)
    ensures y.q.hist.lost == RefusedAlong(init, steps[..UntilLastClear(init, steps)])
    ensures y.q.hist.lost == [] <==> forall i :: 0 <= i < UntilLastClear(init, steps) ==> !RefusesEntries(init, steps, i)
  {
    hide S.Init; hide S.Run; hide RefusedAlong; hide UntilLastClear; hide RefusesEntries;
    LossAlong(init, steps, y);
    var k := UntilLastClear(init, steps);
    NoneRefusedIff(init, steps[..k]);
    forall i | 0 <= i < k ensures RefusesEntries(init, steps[..k], i) == RefusesEntries(init, steps, i) {
      SameStep(init, steps, k, i);
    }
  }

  /**
   * End to end, over every run of the composed system: every released entry is delivered, cleared unread, or still in one
   * of the blocks; deliveries keep the order of the epochs and, within an epoch, of the reservations; and at rest delivery
   * is exactly once if and only if the session never set the reader on a block with entries on which a writer held a count.
   */
  lemma EndToEndDelivery(init: S.System, steps: seq<S.Step>, y: S.System)
    requires S.Init(init) && S.Run(init, steps) == Some(y)
    ensures var q := y.q;
            && multiset(q.hist.released)
               == Flat(q.hist.delivered) + multiset(q.hist.lost) + Bag(At(q.mem, Active(q.mem))) + PendingBag(q)
            && (q.consumer.Resting? ==>
                  q.hist.delivered == TakenEpochs(q.hist.archive) + (if q.hist.fate == Taken then [RetiredEntries(q)] else []))
            && (q.consumer.Resting? ==>
                  (multiset(q.hist.released) == Flat(q.hist.delivered) + Bag(At(q.mem, Active(q.mem)))
                   <==> forall i :: 0 <= i < |steps| ==> !RefusesEntries(init, steps, i)))
  {
    assert S.Reachable(y);
    hide S.Reachable; hide S.Init; hide S.Run; hide RefusesEntries; hide RefusedAlong; hide Reachable; hide UntilLastClear;
    hide Flat; hide Bag; hide TakenEpochs; hide RetiredEntries; hide Inv; hide T.Doomed; hide PendingBag;
    var q := y.q;
    QueueIsReachable(y);
    T.Delivery(q);
    LossAlong(init, steps, y);
    NoneRefusedIff(init, steps);
    ReachableHasInv(q);
    if q.consumer.Resting? {
      T.Shortfall(q);
      T.NothingToAdd(Flat(q.hist.delivered) + Bag(At(q.mem, Active(q.mem))), q.hist.lost + T.Doomed(q));
    }
  }
}
