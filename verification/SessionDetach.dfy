/** The end of a session: the detached read, what it delivers and what it leaves behind. */
module SessionDetach {
  import opened Options
  import opened Bytes
  import opened LinearBuffer
  import opened LinearReading
  import opened WaitFreeQueue
  import opened QueueInvariant
  import opened QueueHistory
  import opened SessionTheorems
  import T = QueueTheorems
  import S = Session

  // ----- The tick after the peer has closed -----

  /** The peer has closed and the present tick either has detached or is on its way to look. */
  predicate Underway(s: S.Session) {
    && s.closed
    && (s.detached || s.worker.Peeking? || Finalising(s.worker) || s.worker.Reading? || s.worker.Polling?)
  }

  lemma UnderwayStep(y: S.System, p: S.Step)
    requires S.Enabled(y, p) && Underway(y.s)
    ensures Underway(S.Apply(y, p).s)
  {
    hide ConsumeStep; hide ReadAt; hide Cropped; hide S.Peek; hide Apply; hide Enabled; hide S.Decide; hide Select; hide At;
  }

  lemma {:induction false} UnderwayRun(y: S.System, steps: seq<S.Step>, z: S.System)
    requires Underway(y.s) && S.Run(y, steps) == Some(z)
    ensures Underway(z.s)
  {
    hide Underway; hide S.Apply; hide S.Enabled;
    if steps != [] {
      var n := |steps| - 1;
      var u := S.Run(y, steps[..n]).value;
      UnderwayRun(y, steps[..n], u);
      UnderwayStep(u, steps[n]);
    }
  }

  /** A tick that begins after the peer has closed ends with the session detached and the detached read done. */
  lemma TickAfterCloseDetaches(y: S.System, steps: seq<S.Step>, z: S.System)
    requires S.Reachable(y) && y.s.closed && y.s.worker.Peeking?
    requires S.Run(y, steps) == Some(z) && z.s.worker.Between?
    ensures z.s.detached && z.s.tail.Some?
  {
    hide S.Reachable; hide S.Run; hide Inv;
    ReachableHasSysInv(y);
    RunKeepsSysInv(y, steps, z);
    UnderwayRun(y, steps, z);
  }

  // ----- After the detached read -----

  predicate Finished(s: S.Session) { s.detached && (s.worker.Between? || s.worker.Deciding?) }

  lemma FinishedStep(y: S.System, p: S.Step)
    requires SysInv(y) && S.Enabled(y, p) && Finished(y.s)
    ensures var y' := S.Apply(y, p);
            Finished(y'.s) && y'.s.tail == y.s.tail && y'.q.hist.delivered == y.q.hist.delivered
  {
    hide Inv; hide S.Peek;
    if p.Write? {
      WritersKeepDelivered(y.q, p.a);
    } else if p.ClientStarts? || p.ClientSwitches? {
      SwitchKeepsDelivered(y.q);
    }
    hide Apply; hide Enabled; hide ConsumeStep;
  }

  lemma WritersKeepDelivered(q: State, a: Action)
    requires Enabled(q, a) && !a.Consume?
    ensures Apply(q, a).hist.delivered == q.hist.delivered
  {
    hide Reserve; hide PutPrefixByte; hide Publish; hide PutPayloadByte;
  }

  lemma SwitchKeepsDelivered(q: State)
    ensures q.consumer.Requested? || Switching(q.consumer) ==> ConsumeStep(q).hist.delivered == q.hist.delivered
  {
  }

  /** After the detached read nothing more is delivered, whatever the writers and the client still do. */
  lemma {:induction false} DetachedIsFinal(y: S.System, steps: seq<S.Step>, z: S.System)
    requires S.Reachable(y) && Finished(y.s) && S.Run(y, steps) == Some(z)
    ensures Finished(z.s) && z.s.tail == y.s.tail && z.q.hist.delivered == y.q.hist.delivered
  {
    hide S.Reachable; hide SysInv; hide Finished; hide S.Apply; hide S.Enabled;
    ReachableHasSysInv(y);
    if steps != [] {
      var n := |steps| - 1;
      var u := S.Run(y, steps[..n]).value;
      DetachedIsFinal(y, steps[..n], u);
      RunKeepsSysInv(y, steps[..n], u);
      FinishedStep(u, steps[n]);
    }
  }

  // ----- What the detached read delivers -----

  /** The written part of the block expected next. */
  function Remains(q: State): seq<Byte> {
    var b := At(q.mem, Select(q.expected));
    Cropped(b.data, b.written)
  }

  /** How far the detached read has come while the queue stays as it is. */
  predicate ReadSoFar(q: State, s: S.Session) {
    && OpenAcquires(s) == 0 && s.detached
    && match s.worker
       case Detaching(_) => true
       case Emptying(_, c, limit, index) =>
         c == q.expected && limit == |Remains(q)| && s.tail.Some?
         && s.tail.value + DrainFrom(Remains(q), index) == DrainFrom(Remains(q), 0)
       case Deciding(_, detach) => detach && s.tail == Some(DrainFrom(Remains(q), 0))
       case Between => s.tail == Some(DrainFrom(Remains(q), 0))
       case _ => false
  }

  predicate NoWrites(steps: seq<S.Step>) { forall i :: 0 <= i < |steps| ==> !steps[i].Write? }

  lemma NoWritesSnoc(steps: seq<S.Step>, p: S.Step)
    requires NoWrites(steps) && !p.Write?
    ensures NoWrites(steps + [p])
  {
  }

  lemma CropTwice(data: seq<Byte>, written: nat)
    ensures Cropped(data, |Cropped(data, written)|) == Cropped(data, written)
  {
  }

  lemma EmptyingStep(y: S.System, outcome: S.Outcome)
    requires y.s.worker.Emptying? && ReadSoFar(y.q, y.s)
    ensures var y' := S.WorkStep(y, outcome); y'.q == y.q && ReadSoFar(y'.q, y'.s)
  {
    hide ReadAt; hide Cropped; hide ConsumeStep;
    var b := At(y.q.mem, Select(y.q.expected));
    CropTwice(b.data, b.written);
    DrainOne(y.s.tail.value, Remains(y.q), y.s.worker.index);
    hide DrainFrom;
  }

  lemma DrainOne(t: seq<Entry>, data: seq<Byte>, index: nat)
    ensures var r := ReadAt(data, index);
            t + DrainFrom(data, index) == if r.entry.None? then t else (t + [r.entry.value]) + DrainFrom(data, r.next)
  {
    hide ReadAt;
    assert t + [] == t;
  }

  lemma ReadingStep(y: S.System, p: S.Step)
    requires S.Enabled(y, p) && !p.Write? && ReadSoFar(y.q, y.s)
    ensures var y' := S.Apply(y, p); y'.q == y.q && ReadSoFar(y'.q, y'.s)
  {
    hide DrainFrom; hide ConsumeStep; hide S.Peek; hide ReadAt;
    if p.Work? && y.s.worker.Emptying? {
      EmptyingStep(y, p.outcome);
    } else if p.Work? && y.s.worker.Detaching? {
      assert [] + DrainFrom(Remains(y.q), 0) == DrainFrom(Remains(y.q), 0);
    }
  }

  lemma {:induction false} ReadingRun(y: S.System, steps: seq<S.Step>, z: S.System)
    requires ReadSoFar(y.q, y.s) && NoWrites(steps) && S.Run(y, steps) == Some(z)
    ensures z.q == y.q && ReadSoFar(z.q, z.s)
  {
    hide ReadSoFar; hide S.Apply; hide S.Enabled;
    if steps != [] {
      var n := |steps| - 1;
      var u := S.Run(y, steps[..n]).value;
      ReadingRun(y, steps[..n], u);
      ReadingStep(u, steps[n]);
    }
  }

  function ActiveEntries(q: State): seq<Entry> {
    var a := At(q.mem, Active(q.mem));
    Entries(a.Size(), a.log)
  }

  /**
   * When a tick finds the peer closed with nothing outstanding and all writers finished, the detached read delivers
   * the active block's entries if the refusals since the last accepted finalisation are even in number, and the refused
   * block's entries if they are odd. Of all entries neither delivered before nor cleared it leaves exactly `Missed`
   * behind, so it completes delivery if and only if there are none.
   */
  lemma DetachedReadDelivers(y: S.System, steps: seq<S.Step>, z: S.System)
    requires S.Reachable(y) && y.s.worker.Detaching? && OpenAcquires(y.s) == 0
    requires AllPublished(At(y.q.mem, Active(y.q.mem)).log)
    requires NoWrites(steps) && S.Run(y, steps) == Some(z) && Finished(z.s)
    ensures z.q == y.q
    ensures z.s.tail == Some(if y.q.hist.refusals % 2 == 0 then ActiveEntries(y.q) else RetiredEntries(y.q))
    ensures multiset(z.q.hist.released)
         == Flat(z.q.hist.delivered) + multiset(z.q.hist.lost) + multiset(z.s.tail.value) + multiset(T.Missed(z.q))
    ensures multiset(z.q.hist.released) == Flat(z.q.hist.delivered) + multiset(z.q.hist.lost) + multiset(z.s.tail.value)
            <==> T.Missed(z.q) == []
  {
    hide S.Reachable; hide S.Run; hide Inv; hide DrainFrom; hide Reachable; hide Flat; hide RetiredEntries; hide Entries; hide T.Missed; hide NoWrites;
    ReachableHasSysInv(y);
    ReadingRun(y, steps, z);
    QueueIsReachable(y);
    T.DetachedDrain(y.q);
  }
}
