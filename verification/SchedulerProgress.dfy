/** What the worker achieves when no callback interferes: every queued session gets its turn, every marked one is destroyed. */
module SchedulerProgress {
  import opened Options
  import opened Scheduler

  /** Steps of the worker alone, with ticks that leave no work behind. */
  predicate ByWorker(p: Step) {
    p == Pop || p == Start || p == Tick(false) || p == Judge || p == Expedite(false) || p == Finish
  }

  predicate AllByWorker(steps: seq<Step>) { forall i :: 0 <= i < |steps| ==> ByWorker(steps[i]) }

  ghost predicate Leads(v: Server, steps: seq<Step>, u: Server) {
    Run(v, steps) == Some(u) && AllByWorker(steps) && Inv(u)
  }

  lemma Go(v: Server, begun: seq<Step>, x: Server, p: Step) returns (steps: seq<Step>, u: Server)
    requires Leads(v, begun, x) && ByWorker(p) && Enabled(x, p)
    ensures Leads(v, steps, u) && u == Apply(x, p)
  {
    hide Apply; hide Enabled; hide Inv;
    StepKeepsInv(x, p);
    steps, u := begun + [p], Apply(x, p);
    assert steps[..|begun|] == begun;
  }

  /** The session at the head of the queue has had its turn: it is gone if it was marked, and left alone otherwise. */
  predicate HadItsTurn(v: Server, u: Server, pid: Pid)
    requires v.queue != [] && pid in v.sessions
  {
    && u.worker.Free? && u.queue == v.queue[1..] && u.disconnected == v.disconnected
    && (if v.sessions[pid].toDelete then u.sessions == v.sessions - {pid} && |u.destroyed| == |v.destroyed| + 1
        else pid in u.sessions && u.sessions == v.sessions[pid := u.sessions[pid]] && u.destroyed == v.destroyed
             && !u.sessions[pid].enqueued && !u.sessions[pid].running && !u.sessions[pid].toDelete)
  }

  /** The flags after the session was popped, told and ticked. */
  function Turned(w: Wrapper): Wrapper {
    w.(enqueued := false, running := true, closedByPeer := false, notified := w.notified || w.closedByPeer,
       ticked := w.notified || w.closedByPeer)
  }

  lemma Ticks(v: Server, begun: seq<Step>, x: Server) returns (steps: seq<Step>, u: Server)
    requires Leads(v, begun, x) && x.worker.Free? && x.queue != [] && x.queue[0] in x.sessions
    ensures var pid := x.queue[0]; var w := x.sessions[pid];
            && Leads(v, steps, u)
            && u == x.(queue := x.queue[1..], sessions := x.sessions[pid := Turned(w)], worker := Judging(pid, w.closedByPeer, false))
  {
    hide Leads;
    var pid := x.queue[0];
    var w := x.sessions[pid];
    steps, u := Go(v, begun, x, Pop);
    steps, u := Go(v, steps, u, Start);
    steps, u := Go(v, steps, u, Tick(false));
    assert u.sessions == x.sessions[pid := Turned(w)];
  }

  /** The session at the head of the queue gets its turn in at most six steps. */
  lemma HeadGetsItsTurn(v: Server, begun: seq<Step>, x: Server) returns (steps: seq<Step>, u: Server)
    requires Leads(v, begun, x) && x.worker.Free? && x.queue != [] && x.queue[0] in x.sessions
    ensures Leads(v, steps, u) && HadItsTurn(x, u, x.queue[0])
  {
    hide Leads; hide Inv;
    var pid := x.queue[0];
    var w := x.sessions[pid];
    ForcedIsMarked(v, begun, x, pid);
    steps, u := Ticks(v, begun, x);
    steps, u := Go(v, steps, u, Judge);
    if w.toForceFinish && !w.closedByPeer {
      steps, u := Go(v, steps, u, Expedite(false));
      steps, u := Go(v, steps, u, Finish);
    }
  }

  lemma ForcedIsMarked(v: Server, steps: seq<Step>, u: Server, pid: Pid)
    requires Leads(v, steps, u) && pid in u.sessions
    ensures u.sessions[pid].toForceFinish ==> u.sessions[pid].toDelete
  {
    assert WrapperInv(u.sessions[pid], pid, u.worker);
  }

  predicate Unmarked(v: Server, pid: Pid) { pid in v.sessions && !v.sessions[pid].toDelete }

  lemma {:induction false} QueueRunsDry(v: Server, begun: seq<Step>, x: Server) returns (steps: seq<Step>, u: Server)
    requires Leads(v, begun, x) && x.worker.Free?
    ensures Leads(v, steps, u) && u.worker.Free? && u.queue == []
    ensures forall pid :: pid in u.sessions <==> Unmarked(x, pid)
    decreases |x.queue|
  {
    hide Leads; hide Inv;
    if x.queue == [] {
      steps, u := begun, x;
      forall pid | pid in x.sessions ensures !x.sessions[pid].toDelete {
        NothingMarkedIsIdle(v, begun, x, pid);
      }
    } else {
      var pid := x.queue[0];
      HeadIsThere(v, begun, x);
      var z;
      steps, z := HeadGetsItsTurn(v, begun, x);
      steps, u := QueueRunsDry(v, steps, z);
      forall q ensures Unmarked(z, q) <==> Unmarked(x, q) {
        if q != pid {
          assert q in z.sessions <==> q in x.sessions;
        }
      }
    }
  }

  lemma HeadIsThere(v: Server, steps: seq<Step>, u: Server)
    requires Leads(v, steps, u) && u.queue != []
    ensures u.queue[0] in u.sessions
  {
    assert u.queue[0] in u.queue <==> Queued(u.sessions, u.queue[0]);
  }

  lemma NothingMarkedIsIdle(v: Server, steps: seq<Step>, u: Server, pid: Pid)
    requires Leads(v, steps, u) && u.worker.Free? && u.queue == [] && pid in u.sessions
    ensures !u.sessions[pid].toDelete
  {
    assert WrapperInv(u.sessions[pid], pid, u.worker);
    assert pid in u.queue <==> Queued(u.sessions, pid);
  }

  /**
   * From every reachable state with the worker free, the worker alone empties its queue, and then exactly the sessions
   * that were not marked for deletion are left.
   */
  lemma WorkerAloneFinishes(v: Server) returns (steps: seq<Step>, u: Server)
    requires Reachable(v) && v.worker.Free?
    ensures Run(v, steps) == Some(u) && AllByWorker(steps)
    ensures u.worker.Free? && u.queue == []
    ensures forall pid :: pid in u.sessions <==> pid in v.sessions && !v.sessions[pid].toDelete
  {
    hide Reachable; hide Inv;
    ReachableHasInv(v);
    assert Leads(v, [], v);
    steps, u := QueueRunsDry(v, [], v);
  }
}
