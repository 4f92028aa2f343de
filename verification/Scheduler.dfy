/**
 * The session scheduler of the message-passing server as a step machine: the worker thread, the
 * work queue, the flags of every session, and the callbacks that race with them.
 *
 * Each step is one section under the server mutex, or one call into a session without it.
 */
module Scheduler {
  import opened Options

  type Pid = nat

  /** The flags of `SessionWrapper`. The last two fields are history variables. */
  datatype Wrapper = Wrapper(
    enqueued: bool, running: bool, toDelete: bool, closedByPeer: bool, toForceFinish: bool,
    connected: bool, inFlight: bool, misses: nat,
    notified: bool,      // OnClosedByPeer has been called on the session
    ticked: bool)        // and a full Tick has run since

  datatype Worker =
    | Free                                          // between sessions
    | Starting(pid: Pid, closed: bool)              // popped; about to notify if closed
    | Ticking(pid: Pid, closed: bool)
    | Judging(pid: Pid, closed: bool, requeue: bool) // tick done; wants the mutex
    | Expediting(pid: Pid)                          // forced: ticks until no more work is left
    | Finishing(pid: Pid)                           // wants the mutex to remove the session

  datatype Server = Server(
    sessions: map<Pid, Wrapper>,
    queue: seq<Pid>,
    disconnected: set<Pid>,
    worker: Worker,
    destroyed: seq<Wrapper>)                        // history: sessions the worker removed

  const FRESH: Wrapper := Wrapper(false, false, false, false, false, true, false, 0, false, false)

  // ----- Flag operations -----

  function EnqueueForDelete(v: Server, pid: Pid): Server
    requires pid in v.sessions
  {
    var w := v.sessions[pid];
    if !w.running && !w.enqueued
    then v.(sessions := v.sessions[pid := w.(toDelete := true, closedByPeer := true, enqueued := true)],
            queue := v.queue + [pid])
    else v.(sessions := v.sessions[pid := w.(toDelete := true, closedByPeer := true)])
  }

  function EnqueueTick(v: Server, pid: Pid): Server
    requires pid in v.sessions
  {
    var w := v.sessions[pid];
    if w.enqueued || w.toDelete then v
    else v.(sessions := v.sessions[pid := w.(enqueued := true)],
            queue := if w.running then v.queue else v.queue + [pid])
  }

  // ----- Steps -----

  datatype NotifyOutcome = NotifySent | NotifyPoolExhausted | NotifyError

  datatype Step =
    | Sweep(pid: Pid, sourceClosed: bool, expired: bool, maxMisses: nat) // periodic visit of one session
    | Pop
    | Start
    | Tick(requeue: bool)
    | Judge
    | Expedite(again: bool)
    | Finish
    | Connect(pid: Pid)
    | Disconnect(pid: Pid)
    | Register(pid: Pid)
    | Respond(pid: Pid, sameConnection: bool)
    | Request(pid: Pid, outcome: NotifyOutcome)

  predicate Enabled(v: Server, p: Step) {
    match p
    case Sweep(pid, _, _, _) => v.worker.Free? && pid in v.sessions
    case Pop => v.worker.Free? && v.queue != [] && v.queue[0] in v.sessions
    case Start => v.worker.Starting? && v.worker.pid in v.sessions
    case Tick(_) => v.worker.Ticking? && v.worker.pid in v.sessions
    case Judge => v.worker.Judging? && v.worker.pid in v.sessions
    case Expedite(_) => v.worker.Expediting? && v.worker.pid in v.sessions
    case Finish => v.worker.Finishing? && v.worker.pid in v.sessions
    case _ => true
  }

  function Apply(v: Server, p: Step): Server
    requires Enabled(v, p)
  {
    match p
    case Sweep(pid, sourceClosed, expired, maxMisses) => SweepStep(v, pid, sourceClosed, expired, maxMisses)
    case Pop => PopStep(v)
    case Start =>
      var Starting(pid, closed) := v.worker;
      v.(worker := Ticking(pid, closed),
         sessions := if closed then v.sessions[pid := v.sessions[pid].(notified := true, ticked := false)] else v.sessions)
    case Tick(requeue) =>
      var Ticking(pid, closed) := v.worker;
      v.(worker := Judging(pid, closed, requeue),
         sessions := v.sessions[pid := v.sessions[pid].(ticked := v.sessions[pid].notified)])
    case Judge => JudgeStep(v)
    case Expedite(again) =>
      var Expediting(pid) := v.worker;
      v.(worker := if again then v.worker else Finishing(pid),
         sessions := v.sessions[pid := v.sessions[pid].(ticked := v.sessions[pid].notified)])
    case Finish => Remove(v, v.worker.pid)
    case Connect(pid) => v.(disconnected := v.disconnected - {pid})
    case Disconnect(pid) => DisconnectStep(v, pid)
    case Register(pid) =>
      if pid in v.disconnected || pid in v.sessions then v
      else EnqueueTick(v.(sessions := v.sessions[pid := FRESH]), pid)
    case Respond(pid, sameConnection) =>
      if pid in v.sessions && v.sessions[pid].connected && sameConnection
      then EnqueueTick(v.(sessions := v.sessions[pid := v.sessions[pid].(inFlight := false, misses := 0)]), pid)
      else v
    case Request(pid, outcome) => RequestStep(v, pid, outcome)
  }

  function SweepStep(v: Server, pid: Pid, sourceClosed: bool, expired: bool, maxMisses: nat): Server
    requires pid in v.sessions
  {
    var w := v.sessions[pid];
    if sourceClosed then EnqueueForDelete(v, pid)
    else if w.inFlight && expired then
      var v' := v.(sessions := v.sessions[pid := w.(inFlight := false, misses := w.misses + 1)]);
      if w.misses + 1 >= maxMisses then EnqueueForDelete(v', pid) else EnqueueTick(v', pid)
    else EnqueueTick(v, pid)
  }

  function PopStep(v: Server): Server
    requires v.queue != [] && v.queue[0] in v.sessions
  {
    var pid := v.queue[0];
    var w := v.sessions[pid];
    v.(queue := v.queue[1..], worker := Starting(pid, w.closedByPeer),
       sessions := v.sessions[pid := w.(enqueued := false, running := true, closedByPeer := false)])
  }

  /** Extract the node and destroy it without the mutex. */
  function Remove(v: Server, pid: Pid): Server
    requires pid in v.sessions
  {
    v.(sessions := v.sessions - {pid}, worker := Free, destroyed := v.destroyed + [v.sessions[pid]])
  }

  function JudgeStep(v: Server): Server
    requires v.worker.Judging? && v.worker.pid in v.sessions
  {
    var Judging(pid, closed, requeue) := v.worker;
    var w := v.sessions[pid];
    if w.toForceFinish then
      if !closed
      then v.(worker := Expediting(pid), sessions := v.sessions[pid := w.(notified := true, ticked := false)])
      else if requeue then v.(worker := Expediting(pid))
      else Remove(v, pid)
    else
      var again := w.enqueued || requeue || w.closedByPeer;
      if again
      then v.(worker := Free, queue := v.queue + [pid],
              sessions := v.sessions[pid := w.(running := false, enqueued := true)])
      else if w.toDelete then Remove(v.(sessions := v.sessions[pid := w.(running := false)]), pid)
      else v.(worker := Free, sessions := v.sessions[pid := w.(running := false)])
  }

  function DisconnectStep(v: Server, pid: Pid): Server {
    var v' := v.(disconnected := v.disconnected + {pid});
    if pid in v.sessions
    then EnqueueForDelete(v'.(sessions := v.sessions[pid := v.sessions[pid].(connected := false, toForceFinish := true)]), pid)
    else v'
  }

  /** `NotifyAcquireRequest`. */
  function RequestStep(v: Server, pid: Pid, outcome: NotifyOutcome): Server {
    if pid !in v.sessions || !v.sessions[pid].connected || v.sessions[pid].inFlight then v
    else
      match outcome
      case NotifySent => v.(sessions := v.sessions[pid := v.sessions[pid].(inFlight := true)])
      case NotifyPoolExhausted => v
      case NotifyError => EnqueueForDelete(v, pid)
  }

  // ----- Invariant -----

  predicate NoDuplicates(q: seq<Pid>) {
    forall i, j :: 0 <= i < j < |q| ==> q[i] != q[j]
  }

  predicate AtWork(k: Worker, pid: Pid) {
    !k.Free? && k.pid == pid
  }

  /** The flags of one session, given the worker's position. */
  predicate WrapperInv(w: Wrapper, pid: Pid, k: Worker) {
    && (w.running <==> AtWork(k, pid))
    && (w.toDelete ==> w.running || w.enqueued)
    && (w.toDelete ==> w.closedByPeer || w.notified || k == Starting(pid, true))
    && (w.toForceFinish ==> w.toDelete)
    && (AtWork(k, pid) && k.Ticking? && k.closed ==> w.notified)
    && (AtWork(k, pid) && k.Judging? && k.closed ==> w.notified)
    && (AtWork(k, pid) && (k.Expediting? || k.Finishing?) ==> w.notified)
    && (w.notified && !w.ticked ==> AtWork(k, pid) && (k.Ticking? || k.Expediting?))
  }

  predicate SessionsInv(sessions: map<Pid, Wrapper>, k: Worker) {
    forall pid :: pid in sessions ==> WrapperInv(sessions[pid], pid, k)
  }

  predicate Queued(sessions: map<Pid, Wrapper>, pid: Pid) {
    pid in sessions && sessions[pid].enqueued && !sessions[pid].running
  }

  /** A pid is queued, once, exactly when its session is marked enqueued and is not running. */
  ghost predicate QueueInv(sessions: map<Pid, Wrapper>, q: seq<Pid>) {
    && NoDuplicates(q)
    && forall pid :: pid in q <==> Queued(sessions, pid)
  }

  /** What the worker owes a session before destroying it. */
  predicate ProperlyClosed(w: Wrapper) {
    w.notified && w.ticked
  }

  ghost predicate Inv(v: Server) {
    && SessionsInv(v.sessions, v.worker)
    && QueueInv(v.sessions, v.queue)
    && (!v.worker.Free? ==> v.worker.pid in v.sessions)
    && (forall i :: 0 <= i < |v.destroyed| ==> ProperlyClosed(v.destroyed[i]))
  }

  predicate Init(v: Server) {
    v == Server(map[], [], {}, Free, [])
  }

  // ----- Steps keep the invariant -----

  /** One session changes its flags and perhaps joins the queue at the end. */
  lemma UpdateKeepsInv(v: Server, pid: Pid, w: Wrapper, push: bool)
    requires Inv(v) && WrapperInv(w, pid, v.worker)
    requires push ==> !Queued(v.sessions, pid)
    requires (w.enqueued && !w.running) <==> (push || Queued(v.sessions, pid))
    ensures Inv(v.(sessions := v.sessions[pid := w], queue := if push then v.queue + [pid] else v.queue))
  {
    hide WrapperInv;
    var q := if push then v.queue + [pid] else v.queue;
    forall x ensures x in q <==> Queued(v.sessions[pid := w], x) {
      assert x in v.queue <==> Queued(v.sessions, x);
    }
  }

  lemma EnqueueForDeleteKeepsInv(v: Server, pid: Pid)
    requires Inv(v) && pid in v.sessions
    ensures Inv(EnqueueForDelete(v, pid))
  {
    var w := v.sessions[pid];
    assert WrapperInv(w, pid, v.worker);
    var w' := EnqueueForDelete(v, pid).sessions[pid];
    UpdateKeepsInv(v, pid, w', !w.running && !w.enqueued);
  }

  /** Marking for forced deletion: the extra flags are set first, in the same section. */
  lemma ForceDeleteKeepsInv(v: Server, pid: Pid)
    requires Inv(v) && pid in v.sessions
    ensures Inv(DisconnectStep(v, pid))
  {
    var w := v.sessions[pid];
    assert WrapperInv(w, pid, v.worker);
    var v' := DisconnectStep(v, pid);
    UpdateKeepsInv(v, pid, v'.sessions[pid], !w.running && !w.enqueued);
    assert v'.sessions == v.sessions[pid := v'.sessions[pid]];
  }

  lemma EnqueueTickKeepsInv(v: Server, pid: Pid)
    requires Inv(v) && pid in v.sessions
    ensures Inv(EnqueueTick(v, pid))
  {
    var w := v.sessions[pid];
    assert WrapperInv(w, pid, v.worker);
    if !w.enqueued && !w.toDelete {
      UpdateKeepsInv(v, pid, w.(enqueued := true), !w.running);
    }
  }

  /** The bookkeeping of acquire requests is invisible to the scheduler. */
  lemma BookkeepingKeepsInv(v: Server, pid: Pid, inFlight: bool, misses: nat)
    requires Inv(v) && pid in v.sessions
    ensures Inv(v.(sessions := v.sessions[pid := v.sessions[pid].(inFlight := inFlight, misses := misses)]))
  {
    var w := v.sessions[pid];
    assert WrapperInv(w, pid, v.worker);
    UpdateKeepsInv(v, pid, w.(inFlight := inFlight, misses := misses), false);
  }

  lemma SweepKeepsInv(v: Server, pid: Pid, sourceClosed: bool, expired: bool, maxMisses: nat)
    requires Inv(v) && pid in v.sessions
    ensures Inv(SweepStep(v, pid, sourceClosed, expired, maxMisses))
  {
    hide Inv; hide EnqueueForDelete; hide EnqueueTick;
    var w := v.sessions[pid];
    if sourceClosed {
      EnqueueForDeleteKeepsInv(v, pid);
    } else if w.inFlight && expired {
      BookkeepingKeepsInv(v, pid, false, w.misses + 1);
      var v' := v.(sessions := v.sessions[pid := w.(inFlight := false, misses := w.misses + 1)]);
      if w.misses + 1 >= maxMisses { EnqueueForDeleteKeepsInv(v', pid); } else { EnqueueTickKeepsInv(v', pid); }
    } else {
      EnqueueTickKeepsInv(v, pid);
    }
  }

  /** When the worker is free, moving it to a session only concerns that session. */
  lemma WorkerMoves(sessions: map<Pid, Wrapper>, k: Worker, k': Worker, pid: Pid, w: Wrapper)
    requires SessionsInv(sessions, k)
    requires k.Free? || k.pid == pid
    requires k'.Free? || k'.pid == pid
    requires WrapperInv(w, pid, k')
    ensures SessionsInv(sessions[pid := w], k')
  {
    forall x | x in sessions && x != pid ensures WrapperInv(sessions[x], x, k') {
      assert WrapperInv(sessions[x], x, k);
    }
  }

  lemma PopKeepsInv(v: Server)
    requires Inv(v) && Enabled(v, Pop)
    ensures Inv(PopStep(v))
  {
    var pid := v.queue[0];
    var v' := PopStep(v);
    assert WrapperInv(v.sessions[pid], pid, v.worker);
    WorkerMoves(v.sessions, v.worker, v'.worker, pid, v'.sessions[pid]);
    hide WrapperInv;
    forall x ensures x in v'.queue <==> Queued(v'.sessions, x) {
      assert x in v.queue <==> Queued(v.sessions, x);
      assert v.queue == [pid] + v.queue[1..];
    }
  }

  /** The worker moves on with the session it runs, without touching the queue. */
  lemma RunKeepsInv(v: Server, k: Worker, w: Wrapper)
    requires Inv(v) && !v.worker.Free? && !k.Free? && k.pid == v.worker.pid
    requires w.running && WrapperInv(w, k.pid, k)
    ensures Inv(v.(worker := k, sessions := v.sessions[k.pid := w]))
  {
    var pid := k.pid;
    assert WrapperInv(v.sessions[pid], pid, v.worker);
    WorkerMoves(v.sessions, v.worker, k, pid, w);
    hide WrapperInv;
    forall x ensures x in v.queue <==> Queued(v.sessions[pid := w], x) {
      assert x in v.queue <==> Queued(v.sessions, x);
    }
  }

  lemma RemoveKeepsInv(v: Server, pid: Pid)
    requires Inv(v) && AtWork(v.worker, pid) && ProperlyClosed(v.sessions[pid])
    ensures Inv(Remove(v, pid))
  {
    assert WrapperInv(v.sessions[pid], pid, v.worker);
    forall x | x in v.sessions && x != pid ensures WrapperInv(v.sessions[x], x, Free) {
      assert WrapperInv(v.sessions[x], x, v.worker);
    }
    hide WrapperInv;
    forall x ensures x in v.queue <==> Queued(v.sessions - {pid}, x) {
      assert x in v.queue <==> Queued(v.sessions, x);
    }
  }

  lemma ReturnKeepsInv(v: Server, w: Wrapper, push: bool)
    requires Inv(v) && !v.worker.Free? && !w.running && WrapperInv(w, v.worker.pid, Free) && w.enqueued == push
    ensures var pid := v.worker.pid;
            Inv(v.(worker := Free, sessions := v.sessions[pid := w], queue := if push then v.queue + [pid] else v.queue))
  {
    var pid := v.worker.pid;
    assert WrapperInv(v.sessions[pid], pid, v.worker);
    WorkerMoves(v.sessions, v.worker, Free, pid, w);
    hide WrapperInv;
    assert pid in v.queue <==> Queued(v.sessions, pid);
    var q := if push then v.queue + [pid] else v.queue;
    forall x ensures x in q <==> Queued(v.sessions[pid := w], x) {
      assert x in v.queue <==> Queued(v.sessions, x);
    }
  }

  lemma JudgeKeepsInv(v: Server)
    requires Inv(v) && Enabled(v, Judge)
    ensures Inv(JudgeStep(v))
  {
    var Judging(pid, closed, requeue) := v.worker;
    var w := v.sessions[pid];
    assert WrapperInv(w, pid, v.worker);
    hide Inv;
    if w.toForceFinish {
      if !closed {
        RunKeepsInv(v, Expediting(pid), w.(notified := true, ticked := false));
      } else if requeue {
        RunKeepsInv(v, Expediting(pid), w);
        assert v.sessions[pid := w] == v.sessions;
      } else {
        RemoveKeepsInv(v, pid);
      }
    } else if w.enqueued || requeue || w.closedByPeer {
      ReturnKeepsInv(v, w.(running := false, enqueued := true), true);
    } else if w.toDelete {
      RemoveUnmarked(v, pid);
    } else {
      ReturnKeepsInv(v, w.(running := false), false);
    }
  }

  /** The node is extracted with `running` already cleared. */
  lemma RemoveUnmarked(v: Server, pid: Pid)
    requires Inv(v) && AtWork(v.worker, pid) && ProperlyClosed(v.sessions[pid])
    ensures Inv(Remove(v.(sessions := v.sessions[pid := v.sessions[pid].(running := false)]), pid))
  {
    RemoveKeepsInv(v, pid);
    var v' := v.(sessions := v.sessions[pid := v.sessions[pid].(running := false)]);
    assert Remove(v', pid).sessions == Remove(v, pid).sessions;
  }

  lemma WorkKeepsInv(v: Server, p: Step)
    requires Inv(v) && Enabled(v, p) && (p.Start? || p.Tick? || p.Expedite? || p.Finish?)
    ensures Inv(Apply(v, p))
  {
    var pid := v.worker.pid;
    var w := v.sessions[pid];
    assert WrapperInv(w, pid, v.worker);
    var v' := Apply(v, p);
    if p.Finish? {
      RemoveKeepsInv(v, pid);
    } else {
      RunKeepsInv(v, v'.worker, v'.sessions[pid]);
      assert v.sessions[pid := v'.sessions[pid]] == v'.sessions;
    }
  }

  lemma CallbackKeepsInv(v: Server, p: Step)
    requires Inv(v) && Enabled(v, p) && (p.Connect? || p.Disconnect? || p.Register? || p.Respond? || p.Request?)
    ensures Inv(Apply(v, p))
  {
    match p
    case Connect(pid) =>
    case Disconnect(pid) => if pid in v.sessions { ForceDeleteKeepsInv(v, pid); }
    case Register(pid) =>
      if pid !in v.disconnected && pid !in v.sessions {
        UpdateKeepsInv(v, pid, FRESH, false);
        EnqueueTickKeepsInv(v.(sessions := v.sessions[pid := FRESH]), pid);
      }
    case Respond(pid, same) =>
      if pid in v.sessions {
        BookkeepingKeepsInv(v, pid, false, 0);
        EnqueueTickKeepsInv(v.(sessions := v.sessions[pid := v.sessions[pid].(inFlight := false, misses := 0)]), pid);
      }
    case Request(pid, outcome) =>
      if pid in v.sessions {
        BookkeepingKeepsInv(v, pid, true, v.sessions[pid].misses);
        EnqueueForDeleteKeepsInv(v, pid);
      }
  }

  lemma StepKeepsInv(v: Server, p: Step)
    requires Inv(v) && Enabled(v, p)
    ensures Inv(Apply(v, p))
  {
    hide Inv;
    match p
    case Sweep(pid, c, e, m) => SweepKeepsInv(v, pid, c, e, m);
    case Pop => PopKeepsInv(v);
    case Judge => JudgeKeepsInv(v);
    case Start => WorkKeepsInv(v, p);
    case Tick(_) => WorkKeepsInv(v, p);
    case Expedite(_) => WorkKeepsInv(v, p);
    case Finish => WorkKeepsInv(v, p);
    case _ => CallbackKeepsInv(v, p);
  }

  // ----- Runs -----

  function Run(v: Server, steps: seq<Step>): Option<Server> {
    if steps == [] then Some(v)
    else
      match Run(v, steps[..|steps| - 1])
      case None => None
      case Some(u) => if Enabled(u, steps[|steps| - 1]) then Some(Apply(u, steps[|steps| - 1])) else None
  }

  ghost predicate Reachable(v: Server) {
    exists init: Server, steps: seq<Step> :: Init(init) && Run(init, steps) == Some(v)
  }

  lemma {:induction false} RunHasInv(init: Server, steps: seq<Step>, v: Server)
    requires Init(init) && Run(init, steps) == Some(v)
    ensures Inv(v)
  {
    if steps != [] {
      var n := |steps| - 1;
      var u := Run(init, steps[..n]).value;
      RunHasInv(init, steps[..n], u);
      hide Inv;
      StepKeepsInv(u, steps[n]);
    }
  }

  lemma ReachableHasInv(v: Server)
    requires Reachable(v)
    ensures Inv(v)
  {
    hide Inv; hide Run; hide Init;
    var init, steps :| Init(init) && Run(init, steps) == Some(v);
    RunHasInv(init, steps, v);
  }

  /**
   * Across all interleavings of worker, callbacks and watchdog: no pid is queued twice; a pid is queued
   * exactly when its session exists, is marked enqueued and is not running; the running session is the
   * worker's; and looking up the pid at the head of the queue always succeeds.
   */
  lemma WorkQueueConsistent(v: Server, pid: Pid)
    requires Reachable(v)
    ensures NoDuplicates(v.queue)
    ensures pid in v.queue <==> pid in v.sessions && v.sessions[pid].enqueued && !v.sessions[pid].running
    ensures pid in v.sessions && v.sessions[pid].running <==> !v.worker.Free? && v.worker.pid == pid
    ensures v.worker.Free? && v.queue != [] ==> Enabled(v, Pop)
  {
    ReachableHasInv(v);
    assert pid in v.queue <==> Queued(v.sessions, pid);
    if pid in v.sessions {
      assert WrapperInv(v.sessions[pid], pid, v.worker);
    }
    if v.queue != [] {
      assert v.queue[0] in v.queue <==> Queued(v.sessions, v.queue[0]);
    }
  }

  /** A session marked for deletion is always running or queued, so it is never stranded. */
  lemma MarkedIsNeverStranded(v: Server, pid: Pid)
    requires Reachable(v) && pid in v.sessions && v.sessions[pid].toDelete
    ensures v.sessions[pid].running || pid in v.queue
  {
    ReachableHasInv(v);
    assert WrapperInv(v.sessions[pid], pid, v.worker);
    assert pid in v.queue <==> Queued(v.sessions, pid);
  }

  /** The worker destroys a session only after telling it that the peer closed and running a full tick since. */
  lemma DestroyedAfterFinalTick(v: Server)
    requires Reachable(v)
    ensures forall i :: 0 <= i < |v.destroyed| ==> v.destroyed[i].notified && v.destroyed[i].ticked
  {
    ReachableHasInv(v);
  }

  /** Only the worker's own steps remove sessions, one at a time, and each removal is recorded. */
  lemma RemovalIsRecorded(v: Server, p: Step)
    requires Enabled(v, p)
    ensures var v' := Apply(v, p);
            || (v'.sessions.Keys >= v.sessions.Keys && v'.destroyed == v.destroyed)
            || (!v.worker.Free? && v'.sessions.Keys == v.sessions.Keys - {v.worker.pid} && |v'.destroyed| == |v.destroyed| + 1)
  {
  }
}
