/** The scheduler together with the sessions it runs: what has become of a session by the time it is destroyed. */
module Shutdown {
  import opened Options
  import K = Scheduler
  import S = Session
  import opened SessionTheorems
  import opened SessionDetach

  /** The server, the state of every registered session, and of those that were destroyed. */
  datatype Node = Node(v: K.Server, lives: map<K.Pid, S.System>, gone: seq<S.System>)

  datatype Step =
    | Schedule(k: K.Step, during: seq<S.Step>, born: S.System)  // `during` happens to a session while it is ticked
    | Live(pid: K.Pid, p: S.Step)                               // a writer, client or dispatch step of one session

  predicate Ticks(k: K.Step) { k.Tick? || k.Expedite? }

  /** The step tells the worker's session that its peer has closed. */
  predicate Notifies(v: K.Server, k: K.Step) {
    || (k.Start? && v.worker.Starting? && v.worker.closed)
    || (k.Judge? && v.worker.Judging? && v.worker.pid in v.sessions && v.sessions[v.worker.pid].toForceFinish && !v.worker.closed)
  }

  /** A whole tick: it begins and ends between two ticks, and anything may happen meanwhile. */
  predicate WholeTick(y: S.System, during: seq<S.Step>) {
    var z := S.Run(S.WorkStep(y, S.Sent), during);
    z.Some? && z.value.s.worker.Between?
  }

  predicate Enabled(n: Node, p: Step) {
    match p
    case Schedule(k, during, born) =>
      && K.Enabled(n.v, k) && S.Init(born)
      && (Ticks(k) ==> n.v.worker.pid in n.lives && WholeTick(n.lives[n.v.worker.pid], during))
    case Live(pid, q) => pid in n.lives && !q.Work? && !q.CloseByPeer? && S.Enabled(n.lives[pid], q)
  }

  /** What the scheduler's step does to the session that the worker has at hand. */
  function Touched(v: K.Server, k: K.Step, during: seq<S.Step>, y: S.System): S.System {
    if Ticks(k) then (if WholeTick(y, during) then S.Run(S.WorkStep(y, S.Sent), during).value else y)
    else if Notifies(v, k) then S.Apply(y, S.CloseByPeer)
    else y
  }

  function Apply(n: Node, p: Step): Node
    requires Enabled(n, p)
  {
    match p
    case Live(pid, q) => n.(lives := n.lives[pid := S.Apply(n.lives[pid], q)])
    case Schedule(k, during, born) =>
      var v' := K.Apply(n.v, k);
      if n.v.worker.Free? || n.v.worker.pid !in n.lives then Node(v', Registered(v'.sessions, n.lives, born), n.gone)
      else
        var pid := n.v.worker.pid;
        var y := Touched(n.v, k, during, n.lives[pid]);
        Node(v', Registered(v'.sessions, n.lives[pid := y], born), if pid in v'.sessions then n.gone else n.gone + [y])
  }

  function Registered(sessions: map<K.Pid, K.Wrapper>, lives: map<K.Pid, S.System>, born: S.System): map<K.Pid, S.System> {
    map pid | pid in sessions :: if pid in lives then lives[pid] else born
  }

  predicate Init(n: Node) { K.Init(n.v) && n.lives == map[] && n.gone == [] }

  function Run(n: Node, steps: seq<Step>): Option<Node> {
    if steps == [] then Some(n)
    else
      match Run(n, steps[..|steps| - 1])
      case None => None
      case Some(m) => if Enabled(m, steps[|steps| - 1]) then Some(Apply(m, steps[|steps| - 1])) else None
  }

  // ----- Invariant -----

  /** The session has processed its detached logs. */
  predicate Done(y: S.System) { y.s.detached && y.s.tail.Some? }

  ghost predicate LifeInv(y: S.System, w: K.Wrapper) {
    && S.Reachable(y) && y.s.worker.Between?
    && (w.notified ==> y.s.closed)
    && (w.notified && w.ticked ==> Done(y))
  }

  ghost predicate NodeInv(n: Node) {
    && K.Inv(n.v)
    && n.lives.Keys == n.v.sessions.Keys
    && (forall pid :: pid in n.lives ==> LifeInv(n.lives[pid], n.v.sessions[pid]))
    && (forall i :: 0 <= i < |n.gone| ==> Done(n.gone[i]))
  }

  // ----- One session -----

  lemma TickedLife(y: S.System, during: seq<S.Step>)
    requires S.Reachable(y) && y.s.worker.Between? && WholeTick(y, during)
    ensures var z := S.Run(S.WorkStep(y, S.Sent), during).value;
            && S.Reachable(z) && z.s.worker.Between? && (y.s.closed ==> z.s.closed && Done(z))
  {
    hide S.Reachable; hide S.Run;
    var x := DoWork(y);
    var z := S.Run(x, during).value;
    ReachAlong(x, during, z);
    if y.s.closed {
      if y.s.detached {
        ReachableHasSysInv(y);
        DetachedIsFinal(x, during, z);
        ReachableHasSysInv(z);
      } else {
        TickAfterCloseDetaches(x, during, z);
        ReachableHasSysInv(z);
      }
    }
  }

  lemma {:induction false} ReachAlong(y: S.System, steps: seq<S.Step>, z: S.System)
    requires S.Reachable(y) && S.Run(y, steps) == Some(z)
    ensures S.Reachable(z)
  {
    hide S.Reachable; hide S.Apply; hide S.Enabled;
    if steps != [] {
      var n := |steps| - 1;
      var u := S.Run(y, steps[..n]).value;
      ReachAlong(y, steps[..n], u);
      var t := Do(u, steps[n]);
    }
  }

  lemma LiveLife(y: S.System, w: K.Wrapper, q: S.Step)
    requires LifeInv(y, w) && !q.Work? && !q.CloseByPeer? && S.Enabled(y, q)
    ensures LifeInv(S.Apply(y, q), w)
  {
    hide S.Reachable;
    var z := Do(y, q);
  }

  predicate FlagsFollow(v: K.Server, k: K.Step, pid: K.Pid, w: K.Wrapper, w': K.Wrapper) {
    if K.AtWork(v.worker, pid) && Ticks(k) then w'.notified == w.notified
    else if K.AtWork(v.worker, pid) && Notifies(v, k) then w'.notified && !w'.ticked
    else w'.notified == w.notified && w'.ticked == w.ticked
  }

  lemma WorkerFlags(v: K.Server, k: K.Step, pid: K.Pid)
    requires K.Enabled(v, k) && pid in v.sessions && pid in K.Apply(v, k).sessions
    requires k.Pop? || k.Start? || k.Tick? || k.Judge? || k.Expedite? || k.Finish?
    ensures FlagsFollow(v, k, pid, v.sessions[pid], K.Apply(v, k).sessions[pid])
  {
  }

  predicate SameHistory(sessions: map<K.Pid, K.Wrapper>, pid: K.Pid, w: K.Wrapper) {
    pid in sessions && sessions[pid].notified == w.notified && sessions[pid].ticked == w.ticked
  }

  /** Marking a session, with its bookkeeping or not, touches the history of none. */
  lemma MarkingKeepsHistory(v: K.Server, p: K.Pid, pid: K.Pid, w: K.Wrapper)
    requires p in v.sessions && SameHistory(v.sessions, pid, w)
    ensures SameHistory(K.EnqueueForDelete(v, p).sessions, pid, w) && SameHistory(K.EnqueueTick(v, p).sessions, pid, w)
  {
  }

  lemma SweepFlags(v: K.Server, k: K.Step, pid: K.Pid)
    requires k.Sweep? && K.Enabled(v, k) && pid in v.sessions
    ensures SameHistory(K.Apply(v, k).sessions, pid, v.sessions[pid])
  {
    hide K.EnqueueForDelete; hide K.EnqueueTick;
    var w := v.sessions[k.pid];
    MarkingKeepsHistory(v, k.pid, pid, v.sessions[pid]);
    MarkingKeepsHistory(v.(sessions := v.sessions[k.pid := w.(inFlight := false, misses := w.misses + 1)]), k.pid, pid, v.sessions[pid]);
  }

  lemma CallbackFlags(v: K.Server, k: K.Step, pid: K.Pid)
    requires K.Enabled(v, k) && (k.Connect? || k.Disconnect? || k.Register? || k.Respond? || k.Request?) && pid in v.sessions
    ensures SameHistory(K.Apply(v, k).sessions, pid, v.sessions[pid])
  {
    hide K.EnqueueForDelete; hide K.EnqueueTick;
    if k.pid in v.sessions {
      var w := v.sessions[k.pid];
      match k
      case Disconnect(p) =>
        var v1 := v.(disconnected := v.disconnected + {p}, sessions := v.sessions[p := w.(connected := false, toForceFinish := true)]);
        MarkingKeepsHistory(v1, p, pid, v.sessions[pid]);
      case Respond(p, _) =>
        MarkingKeepsHistory(v.(sessions := v.sessions[p := w.(inFlight := false, misses := 0)]), p, pid, v.sessions[pid]);
      case Request(p, _) => MarkingKeepsHistory(v, p, pid, v.sessions[pid]);
      case _ =>
    } else if k.Register? {
      MarkingKeepsHistory(v.(sessions := v.sessions[k.pid := K.FRESH]), k.pid, pid, v.sessions[pid]);
    }
  }

  /** The flags of a session follow what happened to it. */
  lemma Flags(v: K.Server, k: K.Step, pid: K.Pid)
    requires K.Enabled(v, k) && pid in v.sessions && pid in K.Apply(v, k).sessions
    ensures FlagsFollow(v, k, pid, v.sessions[pid], K.Apply(v, k).sessions[pid])
  {
    hide K.Apply; hide K.Enabled;
    if k.Pop? || k.Start? || k.Tick? || k.Judge? || k.Expedite? || k.Finish? {
      WorkerFlags(v, k, pid);
    } else if k.Sweep? {
      SweepFlags(v, k, pid);
    } else {
      CallbackFlags(v, k, pid);
    }
  }

  lemma NewFlags(v: K.Server, k: K.Step, pid: K.Pid)
    requires K.Inv(v) && K.Enabled(v, k) && pid !in v.sessions && pid in K.Apply(v, k).sessions
    ensures !K.Apply(v, k).sessions[pid].notified
  {
  }

  lemma RemovedFlags(v: K.Server, k: K.Step, pid: K.Pid)
    requires K.Inv(v) && K.Enabled(v, k) && pid in v.sessions && pid !in K.Apply(v, k).sessions
    ensures K.AtWork(v.worker, pid) && !Ticks(k) && !Notifies(v, k) && v.sessions[pid].notified && v.sessions[pid].ticked
  {
    K.StepKeepsInv(v, k);
    var d := K.Apply(v, k).destroyed;
    assert K.ProperlyClosed(d[|d| - 1]);
  }

  /** The worker's session after the step. */
  lemma TouchedLife(v: K.Server, k: K.Step, during: seq<S.Step>, y: S.System)
    requires K.Inv(v) && K.Enabled(v, k) && !v.worker.Free? && v.worker.pid in v.sessions && LifeInv(y, v.sessions[v.worker.pid])
    requires Ticks(k) ==> WholeTick(y, during)
    ensures v.worker.pid in K.Apply(v, k).sessions ==> LifeInv(Touched(v, k, during, y), K.Apply(v, k).sessions[v.worker.pid])
    ensures v.worker.pid !in K.Apply(v, k).sessions ==> Done(Touched(v, k, during, y))
  {
    hide S.Reachable; hide K.Inv; hide K.Apply; hide S.Run; hide S.Apply;
    var pid := v.worker.pid;
    if pid in K.Apply(v, k).sessions {
      Flags(v, k, pid);
    } else {
      RemovedFlags(v, k, pid);
    }
    if Ticks(k) {
      TickedLife(y, during);
    } else if Notifies(v, k) {
      ClosedLife(y);
    }
  }

  lemma ClosedLife(y: S.System)
    requires S.Reachable(y)
    ensures var z := S.Apply(y, S.CloseByPeer); S.Reachable(z) && z.s == y.s.(closed := true)
  {
    hide S.Reachable;
    var z := Do(y, S.CloseByPeer);
  }

  lemma BornLife(y: S.System, w: K.Wrapper)
    requires S.Init(y) && !w.notified
    ensures LifeInv(y, w)
  {
    assert S.Run(y, []) == Some(y);
  }

  // ----- Runs -----

  lemma ScheduleKeepsInv(n: Node, k: K.Step, during: seq<S.Step>, born: S.System)
    requires NodeInv(n) && Enabled(n, Schedule(k, during, born))
    ensures NodeInv(Apply(n, Schedule(k, during, born)))
  {
    hide K.Inv; hide LifeInv; hide Done; hide K.Apply; hide K.Enabled; hide S.Init; hide WholeTick; hide Touched;
    K.StepKeepsInv(n.v, k);
    WorkerIsRegistered(n.v);
    var n' := Apply(n, Schedule(k, during, born));
    if !n.v.worker.Free? {
      TouchedLife(n.v, k, during, n.lives[n.v.worker.pid]);
    }
    forall pid | pid in n'.lives ensures LifeInv(n'.lives[pid], n'.v.sessions[pid]) {
      if pid !in n.lives {
        NewFlags(n.v, k, pid);
        BornLife(born, n'.v.sessions[pid]);
      } else if !K.AtWork(n.v.worker, pid) {
        Flags(n.v, k, pid);
        OtherLife(n.lives[pid], n.v.sessions[pid], n'.v.sessions[pid]);
      }
    }
  }

  lemma OtherLife(y: S.System, w: K.Wrapper, w': K.Wrapper)
    requires LifeInv(y, w) && w'.notified == w.notified && w'.ticked == w.ticked
    ensures LifeInv(y, w')
  {
  }

  lemma WorkerIsRegistered(v: K.Server)
    requires K.Inv(v)
    ensures !v.worker.Free? ==> v.worker.pid in v.sessions
  {
  }

  lemma StepKeepsInv(n: Node, p: Step)
    requires NodeInv(n) && Enabled(n, p)
    ensures NodeInv(Apply(n, p))
  {
    hide K.Inv; hide LifeInv; hide Done; hide K.Apply; hide K.Enabled; hide S.Init; hide S.Apply; hide S.Enabled;
    match p
    case Schedule(k, during, born) => ScheduleKeepsInv(n, k, during, born);
    case Live(pid, q) => LiveLife(n.lives[pid], n.v.sessions[pid], q);
  }

  lemma {:induction false} RunHasInv(init: Node, steps: seq<Step>, n: Node)
    requires Init(init) && Run(init, steps) == Some(n)
    ensures NodeInv(n)
  {
    hide Apply; hide Enabled;
    if steps != [] {
      var k := |steps| - 1;
      var m := Run(init, steps[..k]).value;
      RunHasInv(init, steps[..k], m);
      hide NodeInv;
      StepKeepsInv(m, steps[k]);
    }
  }

  /**
   * Over every run of the server with its sessions: each session that the worker has destroyed had processed its
   * detached logs, and each registered one that was told of its peer's end and ticked since has.
   */
  lemma DestroyedHasReadItsTail(init: Node, steps: seq<Step>, n: Node)
    requires Init(init) && Run(init, steps) == Some(n)
    ensures forall i :: 0 <= i < |n.gone| ==> n.gone[i].s.detached && n.gone[i].s.tail.Some?
    ensures n.lives.Keys == n.v.sessions.Keys
    ensures forall pid :: pid in n.lives && n.v.sessions[pid].notified && n.v.sessions[pid].ticked ==>
              n.lives[pid].s.detached && n.lives[pid].s.tail.Some?
  {
    hide K.Inv; hide S.Reachable; hide Run; hide Init;
    RunHasInv(init, steps, n);
  }
}
