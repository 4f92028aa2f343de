/** The server object: its methods are the sections that run under the server mutex. */
module MessagePassing {
  import opened Scheduler

  /** The acquire request of an open session was in flight and its deadline has passed. */
  predicate Missed(w: Wrapper, sourceClosed: bool, expired: bool) { !sourceClosed && w.inFlight && expired }

  /** What the periodic visit does to the flags of a session. */
  predicate Visited(w: Wrapper, w': Wrapper, sourceClosed: bool, expired: bool, maxMisses: nat) {
    && (w'.toDelete <==> w.toDelete || sourceClosed || (Missed(w, sourceClosed, expired) && w.misses + 1 >= maxMisses))
    && (w'.closedByPeer <==> w.closedByPeer || sourceClosed || (Missed(w, sourceClosed, expired) && w.misses + 1 >= maxMisses))
    && (w'.inFlight <==> w.inFlight && !Missed(w, sourceClosed, expired))
    && w'.misses == w.misses + (if Missed(w, sourceClosed, expired) then 1 else 0)
    && (!w'.toDelete ==> w'.enqueued)
    && w' == w.(enqueued := w'.enqueued, toDelete := w'.toDelete, closedByPeer := w'.closedByPeer, inFlight := w'.inFlight,
                misses := w'.misses)
  }

  class MessagePassingServer {
    var sessions: map<Pid, Wrapper>
    var workQueue: seq<Pid>
    var disconnectedPids: set<Pid>
    var worker: Worker
    var stopRequested: bool             // stop_source_
    var workersExit: bool
    ghost var destroyed: seq<Wrapper>

    constructor ()
      ensures Init(View()) && !stopRequested && !workersExit
    {
      sessions, workQueue, disconnectedPids, worker, destroyed := map[], [], {}, Free, [];
      stopRequested, workersExit := false, false;
    }

    ghost function View(): Server
      reads this
    {
      Server(sessions, workQueue, disconnectedPids, worker, destroyed)
    }

    /** `SessionWrapper::EnqueueForDeleteWhileLocked(true)`. */
    method MarkForDelete(pid: Pid)
      requires pid in sessions
      modifies this`sessions, this`workQueue
      ensures View() == EnqueueForDelete(old(View()), pid)
      ensures sessions[pid].toDelete && sessions[pid].closedByPeer && (sessions[pid].running || sessions[pid].enqueued)
      ensures workQueue == old(workQueue) + if old(sessions[pid]).running || old(sessions[pid]).enqueued then [] else [pid]
      ensures sessions - {pid} == old(sessions) - {pid}
    {
      var w := sessions[pid].(toDelete := true, closedByPeer := true);
      if !w.running && !w.enqueued {
        workQueue := workQueue + [pid];
        w := w.(enqueued := true);
      }
      sessions := sessions[pid := w];
    }

    /** `SessionWrapper::EnqueueTickWhileLocked`. */
    method MarkForTick(pid: Pid)
      requires pid in sessions
      modifies this`sessions, this`workQueue
      ensures View() == EnqueueTick(old(View()), pid)
      ensures if old(sessions[pid]).toDelete then sessions[pid] == old(sessions[pid]) else sessions[pid] == old(sessions[pid]).(enqueued := true)
      ensures workQueue == old(workQueue) + if sessions[pid] == old(sessions[pid]) || sessions[pid].running then [] else [pid]
      ensures sessions - {pid} == old(sessions) - {pid}
    {
      var w := sessions[pid];
      if !w.enqueued && !w.toDelete {
        if !w.running {
          workQueue := workQueue + [pid];
        }
        sessions := sessions[pid := w.(enqueued := true)];
      }
    }

    /**
     * The periodic visit of all sessions, in any iteration order: no session disappears, every one ends up queued, and
     * exactly those are newly marked for deletion whose source has closed or whose request has expired once too often.
     */
    method SweepSessions(sourceClosed: set<Pid>, expired: set<Pid>, maxMisses: nat)
      requires Inv(View()) && worker.Free?
      modifies this`sessions, this`workQueue
      ensures Inv(View()) && sessions.Keys == old(sessions.Keys)
      ensures forall pid :: pid in sessions ==> pid in workQueue
      ensures forall pid :: pid in old(workQueue) ==> pid in workQueue
      ensures forall pid :: pid in sessions ==> Visited(old(sessions)[pid], sessions[pid], pid in sourceClosed, pid in expired, maxMisses)
    {
      hide SweepStep; hide Visited; hide SessionsInv; hide QueueInv;
      var todo := sessions.Keys;
      while todo != {}
        invariant Inv(View()) && sessions.Keys == old(sessions.Keys)
        invariant todo <= sessions.Keys
        invariant forall pid :: pid in sessions && pid !in todo ==>
                    pid in workQueue && Visited(old(sessions)[pid], sessions[pid], pid in sourceClosed, pid in expired, maxMisses)
        invariant forall pid :: pid in todo ==> sessions[pid] == old(sessions)[pid]
        invariant forall pid :: pid in old(workQueue) ==> pid in workQueue
        decreases todo
      {
        var pid :| pid in todo;
        ghost var v := View();
        SweepKeepsInv(v, pid, pid in sourceClosed, pid in expired, maxMisses);
        SweepQueues(v, pid, pid in sourceClosed, pid in expired, maxMisses);
        SweepVisits(v, pid, pid in sourceClosed, pid in expired, maxMisses);
        SweepOne(pid, pid in sourceClosed, pid in expired, maxMisses);
        todo := todo - {pid};
      }
    }

    method SweepOne(pid: Pid, isSourceClosed: bool, isExpired: bool, maxMisses: nat)
      requires pid in sessions
      modifies this`sessions, this`workQueue
      ensures View() == SweepStep(old(View()), pid, isSourceClosed, isExpired, maxMisses)
    {
      if isSourceClosed {
        MarkForDelete(pid);
      } else {
        var w := sessions[pid];
        if w.inFlight && isExpired {
          sessions := sessions[pid := w.(inFlight := false, misses := w.misses + 1)];
          if w.misses + 1 >= maxMisses {
            MarkForDelete(pid);
            return;
          }
        }
        MarkForTick(pid);
      }
    }

    /** Take the next session off the queue and mark it running. */
    method PopSession() returns (pid: Pid, closedByPeer: bool)
      requires Inv(View()) && worker.Free? && workQueue != []
      modifies this
      ensures old(workQueue[0]) in old(sessions) && View() == PopStep(old(View())) && Inv(View())
      ensures worker == Starting(pid, closedByPeer) && old(workQueue) == [pid] + workQueue
      ensures sessions[pid].running && !sessions[pid].enqueued && !sessions[pid].closedByPeer
      ensures closedByPeer == old(sessions)[pid].closedByPeer && sessions - {pid} == old(sessions) - {pid}
    {
      HeadIsRegistered(View());
      PopKeepsInv(View());
      pid := workQueue[0];
      workQueue := workQueue[1..];
      closedByPeer := sessions[pid].closedByPeer;
      sessions := sessions[pid := sessions[pid].(enqueued := false, running := true, closedByPeer := false)];
      worker := Starting(pid, closedByPeer);
    }

    /** After the tick: expedite, re-queue, destroy or let go of the session. */
    method JudgeSession() returns (removed: bool)
      requires Inv(View()) && worker.Judging?
      modifies this
      ensures old(worker.pid) in old(sessions) && View() == JudgeStep(old(View())) && Inv(View())
      ensures removed <==> old(worker.pid) !in sessions
      ensures removed ==> old(sessions[worker.pid]).notified && old(sessions[worker.pid]).ticked
      ensures var w := old(sessions[worker.pid]);
              && (removed <==> if w.toForceFinish then old(worker.closed) && !old(worker.requeue)
                               else w.toDelete && !w.enqueued && !old(worker.requeue) && !w.closedByPeer)
              && (worker.Expediting? <==> w.toForceFinish && !removed)
              && (old(worker.pid) in workQueue <==> !w.toForceFinish && (w.enqueued || old(worker.requeue) || w.closedByPeer))
      ensures sessions - {old(worker.pid)} == old(sessions) - {old(worker.pid)}
    {
      JudgeKeepsInv(View());
      var Judging(pid, closed, requeue) := worker;
      var w := sessions[pid];
      assert WrapperInv(w, pid, worker);
      assert pid in workQueue <==> Queued(sessions, pid);
      removed := false;
      if w.toForceFinish {
        if !closed {
          w := w.(notified := true, ticked := false);
          sessions := sessions[pid := w];
        }
        if requeue || !closed {
          worker := Expediting(pid);
          return;
        }
        destroyed := destroyed + [w];
        sessions := sessions - {pid};
        removed := true;
      } else {
        w := w.(running := false);
        if requeue || w.closedByPeer {
          w := w.(enqueued := true);
        }
        sessions := sessions[pid := w];
        if w.enqueued {
          workQueue := workQueue + [pid];
        } else if w.toDelete {
          destroyed := destroyed + [w];
          sessions := sessions - {pid};
          removed := true;
        }
      }
      worker := Free;
    }

    /** A new connection of the pid: it may register again. */
    method OnConnect(pid: Pid)
      requires Inv(View())
      modifies this`disconnectedPids
      ensures View() == Apply(old(View()), Connect(pid)) && Inv(View())
      ensures pid !in disconnectedPids && forall p :: p != pid ==> (p in disconnectedPids <==> p in old(disconnectedPids))
    {
      CallbackKeepsInv(View(), Connect(pid));
      disconnectedPids := disconnectedPids - {pid};
    }

    /** The pid is remembered, and its session loses its connection and is on its way to be finished. */
    method OnDisconnect(pid: Pid)
      requires Inv(View())
      modifies this`sessions, this`workQueue, this`disconnectedPids
      ensures View() == DisconnectStep(old(View()), pid) && Inv(View())
      ensures disconnectedPids == old(disconnectedPids) + {pid} && sessions.Keys == old(sessions.Keys)
      ensures pid in sessions ==>
                && !sessions[pid].connected && sessions[pid].toForceFinish && sessions[pid].toDelete
                && (sessions[pid].running || pid in workQueue)
      ensures sessions - {pid} == old(sessions) - {pid}
    {
      CallbackKeepsInv(View(), Disconnect(pid));
      disconnectedPids := disconnectedPids + {pid};
      if pid in sessions {
        sessions := sessions[pid := sessions[pid].(connected := false, toForceFinish := true)];
        MarkForDelete(pid);
      }
      QueuedIffWaiting(View(), pid);
    }

    /** A new session, unless the message is too short, a stop was requested, the factory failed or the pid is not free. */
    method OnConnectRequest(pid: Pid, tooShort: bool, created: bool) returns (registered: bool)
      requires Inv(View())
      modifies this`sessions, this`workQueue, this`stopRequested
      ensures Inv(View()) && !stopRequested
      ensures View() == if registered then Apply(old(View()), Register(pid)) else old(View())
      ensures registered <==>
                !tooShort && !old(stopRequested) && created && pid !in old(disconnectedPids) && pid !in old(sessions)
      ensures registered ==> sessions == old(sessions)[pid := FRESH.(enqueued := true)] && workQueue == old(workQueue) + [pid]
    {
      CallbackKeepsInv(View(), Register(pid));
      if tooShort || stopRequested {
        stopRequested := false;
        return false;
      }
      if !created || pid in disconnectedPids || pid in sessions {
        return false;
      }
      sessions := sessions[pid := FRESH];
      MarkForTick(pid);
      return true;
    }

    /** Pass the response to the session whose connection it came on, and let the session tick soon. */
    method OnAcquireResponse(pid: Pid, sameConnection: bool) returns (forwarded: bool)
      requires Inv(View())
      modifies this`sessions, this`workQueue
      ensures View() == Apply(old(View()), Respond(pid, sameConnection)) && Inv(View())
      ensures forwarded <==> pid in old(sessions) && old(sessions[pid]).connected && sameConnection
      ensures !forwarded ==> View() == old(View())
      ensures forwarded ==>
                && !sessions[pid].inFlight && sessions[pid].misses == 0
                && (sessions[pid].running || pid in workQueue)
      ensures sessions - {pid} == old(sessions) - {pid}
    {
      CallbackKeepsInv(View(), Respond(pid, sameConnection));
      forwarded := pid in sessions && sessions[pid].connected && sameConnection;
      if forwarded {
        sessions := sessions[pid := sessions[pid].(inFlight := false, misses := 0)];
        MarkForTick(pid);
      }
      QueuedIffWaiting(View(), pid);
    }

    /** Ask the client for the next block, unless a request is in flight already or the server is going down. */
    method NotifyAcquireRequest(pid: Pid, outcome: NotifyOutcome) returns (requested: bool)
      requires Inv(View())
      modifies this`sessions, this`workQueue
      ensures Inv(View()) && View() == if workersExit then old(View()) else RequestStep(old(View()), pid, outcome)
      ensures requested <==> !workersExit && pid in old(sessions) && old(sessions[pid]).connected
      ensures requested && !old(sessions[pid]).inFlight ==>
                && sessions[pid].inFlight == outcome.NotifySent?
                && (outcome.NotifyError? ==> sessions[pid].toDelete && (sessions[pid].running || pid in workQueue))
      ensures sessions - {pid} == old(sessions) - {pid}
    {
      CallbackKeepsInv(View(), Request(pid, outcome));
      QueuedIffWaiting(View(), pid);
      if workersExit || pid !in sessions || !sessions[pid].connected {
        return false;
      }
      if sessions[pid].inFlight {
        return true;
      }
      match outcome {
        case NotifySent => sessions := sessions[pid := sessions[pid].(inFlight := true)];
        case NotifyPoolExhausted =>
        case NotifyError => MarkForDelete(pid);
      }
      QueuedIffWaiting(View(), pid);
      return true;
    }
  }

  lemma QueuedIffWaiting(v: Server, pid: Pid)
    requires Inv(v)
    ensures pid in v.sessions && (v.sessions[pid].enqueued || v.sessions[pid].toDelete) ==> v.sessions[pid].running || pid in v.queue
  {
    assert pid in v.queue <==> Queued(v.sessions, pid);
    if pid in v.sessions {
      assert WrapperInv(v.sessions[pid], pid, v.worker);
    }
  }

  lemma HeadIsRegistered(v: Server)
    requires Inv(v) && v.queue != []
    ensures v.queue[0] in v.sessions
  {
    assert v.queue[0] in v.queue <==> Queued(v.sessions, v.queue[0]);
  }

  lemma Marking(v: Server, pid: Pid)
    requires pid in v.sessions
    ensures var w := v.sessions[pid];
            && EnqueueForDelete(v, pid).sessions
               == v.sessions[pid := w.(toDelete := true, closedByPeer := true, enqueued := w.enqueued || !w.running)]
            && EnqueueTick(v, pid).sessions == v.sessions[pid := if w.toDelete then w else w.(enqueued := true)]
  {
    assert v.sessions[pid := v.sessions[pid]] == v.sessions;
  }

  function Swept(w: Wrapper, sourceClosed: bool, expired: bool, maxMisses: nat): Wrapper {
    var w1 := if Missed(w, sourceClosed, expired) then w.(inFlight := false, misses := w.misses + 1) else w;
    if sourceClosed || (Missed(w, sourceClosed, expired) && w1.misses >= maxMisses)
    then w1.(toDelete := true, closedByPeer := true, enqueued := w.enqueued || !w.running)
    else if w.toDelete then w1
    else w1.(enqueued := true)
  }

  lemma SweptIsVisited(w: Wrapper, sourceClosed: bool, expired: bool, maxMisses: nat)
    ensures Visited(w, Swept(w, sourceClosed, expired, maxMisses), sourceClosed, expired, maxMisses)
  {
  }

  lemma Overwrite(sessions: map<Pid, Wrapper>, pid: Pid, a: Wrapper, b: Wrapper)
    ensures sessions[pid := a][pid := b] == sessions[pid := b]
  {
  }

  lemma SweepIsSwept(v: Server, pid: Pid, sourceClosed: bool, expired: bool, maxMisses: nat)
    requires pid in v.sessions
    ensures SweepStep(v, pid, sourceClosed, expired, maxMisses).sessions
         == v.sessions[pid := Swept(v.sessions[pid], sourceClosed, expired, maxMisses)]
  {
    hide EnqueueForDelete; hide EnqueueTick;
    var w := v.sessions[pid];
    if Missed(w, sourceClosed, expired) {
      var w1 := w.(inFlight := false, misses := w.misses + 1);
      Marking(v.(sessions := v.sessions[pid := w1]), pid);
      Overwrite(v.sessions, pid, w1, Swept(w, sourceClosed, expired, maxMisses));
    } else {
      Marking(v, pid);
    }
  }

  /** Only the flags of the visited session change, as said. */
  lemma SweepVisits(v: Server, pid: Pid, sourceClosed: bool, expired: bool, maxMisses: nat)
    requires pid in v.sessions
    ensures var v' := SweepStep(v, pid, sourceClosed, expired, maxMisses);
            && pid in v'.sessions && v'.sessions == v.sessions[pid := v'.sessions[pid]]
            && Visited(v.sessions[pid], v'.sessions[pid], sourceClosed, expired, maxMisses)
  {
    hide SweepStep; hide Swept; hide Visited;
    SweepIsSwept(v, pid, sourceClosed, expired, maxMisses);
    SweptIsVisited(v.sessions[pid], sourceClosed, expired, maxMisses);
  }

  /** A visit with a free worker leaves the visited session queued and the rest of the queue in place. */
  lemma SweepQueues(v: Server, pid: Pid, sourceClosed: bool, expired: bool, maxMisses: nat)
    requires Inv(v) && v.worker.Free? && pid in v.sessions
    ensures var v' := SweepStep(v, pid, sourceClosed, expired, maxMisses);
            && pid in v'.queue && v.queue <= v'.queue && v'.sessions.Keys == v.sessions.Keys
            && v'.worker == v.worker && v'.disconnected == v.disconnected && v'.destroyed == v.destroyed
  {
    assert WrapperInv(v.sessions[pid], pid, v.worker);
    assert pid in v.queue <==> Queued(v.sessions, pid);
  }

  /** A disconnected pid can register again once it has connected and its old session is gone, and only then. */
  lemma ReconnectRegisters(v: Server, pid: Pid)
    requires Inv(v) && pid !in v.sessions
    ensures pid in Apply(Apply(v, Connect(pid)), Register(pid)).sessions
    ensures pid !in Apply(Apply(v, Disconnect(pid)), Register(pid)).sessions
  {
  }
}
