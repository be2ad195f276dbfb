/** Shutdown terminates: when no new push of a client message begins and nobody wakes spuriously,
    every run is finite, and it can only end with ShardServer::Stop having returned.  Pushes that
    are under way when the network falls silent are part of the run. */
module ShardShutdown {
  import opened Common
  import opened Routing
  import opened ShardServer
  import opened ShardRuns
  import Q = MpmcQueue

  // ------------------------------------------------------------------ the measure

  function Weight(m: ShardMsg): nat { if m.Client? then 13 else 4 }

  function Queued(msgs: seq<ShardMsg>): nat
  {
    if msgs == [] then 0 else Weight(msgs[0]) + Queued(msgs[1..])
  }

  function PcWork(p: Q.Pc<ShardMsg>): nat
  {
    match p
    case Outside => 0
    case PushHold(m) => 4 + Weight(m)
    case PushNotify => 3
    case StopHold => 4
    case StopNotify => 3
    case PopHold(_) => 2
    case PopTake(_) => 1
    case Parked => 1
    case Woken => 3
  }

  /** The work of threads 0 .. k-1 inside one queue. */
  function ThreadWork(m: Q.Monitor<ShardMsg>, k: nat): nat
  {
    if k == 0 then 0 else ThreadWork(m, k - 1) + PcWork(m.At(k - 1))
  }

  /** `all` is a bound on the threads that take part. */
  function QueueWork(m: Q.Monitor<ShardMsg>, all: nat): nat { Queued(m.core.items) + ThreadWork(m, all) }

  function PhaseWork(p: Phase): nat
  {
    match p
    case Polling => 3
    case Popping => 0
    case Handling(_, post) => if post.MayPost? then 13 else 4
    case Exited => 0
  }

  function MainWork(m: MainPhase, n: nat): int
  {
    match m
    case Serving => 6 * n + 1
    case Stopping(k) => 6 * (n - k)
    case InStop(k) => 6 * (n - k) - 5
    case Joining(k) => 6 * (n - k) - 5
  }

  function AllQueues(qs: seq<Q.Monitor<ShardMsg>>, all: nat): nat
  {
    if qs == [] then 0 else QueueWork(qs[0], all) + AllQueues(qs[1..], all)
  }

  function AllPhases(ps: seq<Phase>): nat
  {
    if ps == [] then 0 else PhaseWork(ps[0]) + AllPhases(ps[1..])
  }

  function Measure(s: Server, all: nat): (r: int)
    requires Shape(s)
    ensures r >= 0
  {
    AllQueues(s.queues, all) + AllPhases(s.phases) + MainWork(s.main, |s.queues|)
  }

  lemma {:induction false} QueuedSnoc(msgs: seq<ShardMsg>, m: ShardMsg)
    ensures Queued(msgs + [m]) == Queued(msgs) + Weight(m)
  {
    if msgs == [] {
      assert msgs + [m] == [m];
    } else {
      assert (msgs + [m])[1..] == msgs[1..] + [m];
      QueuedSnoc(msgs[1..], m);
    }
  }

  lemma {:induction false} AllQueuesUpdate(qs: seq<Q.Monitor<ShardMsg>>, q: nat, m: Q.Monitor<ShardMsg>, all: nat)
    requires q < |qs|
    ensures AllQueues(qs[q := m], all) == AllQueues(qs, all) - QueueWork(qs[q], all) + QueueWork(m, all)
  {
    if q > 0 {
      assert qs[q := m][1..] == qs[1..][q - 1 := m];
      AllQueuesUpdate(qs[1..], q - 1, m, all);
    } else {
      assert qs[q := m][1..] == qs[1..];
    }
  }

  lemma {:induction false} AllPhasesUpdate(ps: seq<Phase>, i: nat, p: Phase)
    requires i < |ps|
    ensures AllPhases(ps[i := p]) == AllPhases(ps) - PhaseWork(ps[i]) + PhaseWork(p)
  {
    if i > 0 {
      assert ps[i := p][1..] == ps[1..][i - 1 := p];
      AllPhasesUpdate(ps[1..], i - 1, p);
    } else {
      assert ps[i := p][1..] == ps[1..];
    }
  }

  /** At most the threads t and u change place. */
  lemma {:induction false} ThreadWorkUpdate(m: Q.Monitor<ShardMsg>, m': Q.Monitor<ShardMsg>, k: nat, t: nat, u: nat)
    requires forall v: nat :: v < k && v != t && v != u ==> m'.At(v) == m.At(v)
    ensures ThreadWork(m', k) == ThreadWork(m, k)
              + (if t < k then PcWork(m'.At(t)) - PcWork(m.At(t)) else 0)
              + (if u < k && u != t then PcWork(m'.At(u)) - PcWork(m.At(u)) else 0)
  {
    if k > 0 {
      ThreadWorkUpdate(m, m', k - 1, t, u);
    }
  }

  // ------------------------------------------------------------------ every inner step lowers it

  /** Threads from `all` on are in no queue. */
  ghost predicate Bounded(s: Server, all: nat)
  {
    all > |s.queues| && forall j: nat, t: Q.Tid :: j < |s.queues| && t >= all ==> s.queues[j].At(t).Outside?
  }

  /** Any step but the start of a push by a network thread and a spurious wake. */
  predicate Inner(st: Step)
  {
    !(st.External? && st.a.BeginPush?) && !(st.Pop? && st.a.SpuriousWake?)
  }

  function Rise(m: Q.Monitor<ShardMsg>, a: QAction, m': Q.Monitor<ShardMsg>): int
  {
    PcWork(m'.At(a.t)) - PcWork(m.At(a.t)) + (if a.NotifyOne? || a.NotifyAll? then 2 else 0)
    + (if a.DoPush? && m.At(a.t).PushHold? then Weight(m.At(a.t).value) else 0)
    - (if a.Take? && m.core.items != [] then Weight(m.core.items[0]) else 0)
  }

  lemma ThreadRise(m: Q.Monitor<ShardMsg>, a: QAction, m': Q.Monitor<ShardMsg>, all: nat, q: nat)
    requires a.t < all && (forall v: Q.Tid :: v < all && v != a.t && v != q ==> m'.At(v) == m.At(v))
    requires q != a.t ==> m'.At(q) == m.At(q) || (m.At(q).Parked? && m'.At(q).Woken? && (a.NotifyOne? || a.NotifyAll?))
    ensures ThreadWork(m', all) <= ThreadWork(m, all) + PcWork(m'.At(a.t)) - PcWork(m.At(a.t))
              + (if a.NotifyOne? || a.NotifyAll? then 2 else 0)
  {
    ThreadWorkUpdate(m, m', all, a.t, q);
  }

  /** A step on queue q raises its work by at most `Rise`: besides the stepping thread only
      consumer q, the one thread that ever waits there, can move. */
  lemma QueueRise(s: Server, q: nat, a: QAction, s': Server, all: nat)
    requires Touches(s, q, a, s') && a.t < all && !a.SpuriousWake?
    requires forall t: Q.Tid :: t != a.t && !a.NotifyOne? && !a.NotifyAll? ==> s'.queues[q].At(t) == s.queues[q].At(t)
    ensures QueueWork(s'.queues[q], all) <= QueueWork(s.queues[q], all) + Rise(s.queues[q], a, s'.queues[q])
  {
    var m, m' := s.queues[q], s'.queues[q];
    forall v: Q.Tid | v < all && v != a.t && v != q
      ensures m'.At(v) == m.At(v)
    {
      assert Fits(s, q, v, m.At(v));
    }
    ThreadRise(m, a, m', all, q);
    QueuedRise(m, a, m');
  }

  lemma QueuedRise(m: Q.Monitor<ShardMsg>, a: QAction, m': Q.Monitor<ShardMsg>)
    requires Moves(m, a, m')
    ensures Queued(m'.core.items) == Queued(m.core.items)
              + (if a.DoPush? && m.At(a.t).PushHold? then Weight(m.At(a.t).value) else 0)
              - (if a.Take? && m.core.items != [] then Weight(m.core.items[0]) else 0)
  {
    if a.DoPush? && m.At(a.t).PushHold? {
      QueuedSnoc(m.core.items, m.At(a.t).value);
    }
  }

  lemma OthersStay(m: Q.Monitor<ShardMsg>, a: QAction)
    requires Q.Enabled(m, a) && !a.NotifyOne? && !a.NotifyAll?
    ensures forall t: Q.Tid :: t != a.t ==> Q.Apply(m, a).At(t) == m.At(t)
  {
  }

  lemma StaysBounded(s: Server, st: Step, all: nat)
    requires Inv(s) && Bounded(s, all) && Enabled(s, st) && Inner(st)
    ensures Bounded(Apply(s, st), all)
  {
    match st
    case External(q, a) => BoundedAfter(s, q, a, all);
    case Pop(i, a) => BoundedAfter(s, i, a, all);
    case Post(i, q, a) => BoundedAfter(s, q, a, all);
    case MainStop(a) => BoundedAfter(s, s.main.k, a, all);
    case _ =>
  }

  lemma BoundedAfter(s: Server, q: nat, a: QAction, all: nat)
    requires Bounded(s, all) && q < |s.queues| && Q.Enabled(s.queues[q], a) && (a.t < all || a.DoPush? || a.NotifyOne?)
    ensures Bounded(OnQueue(s, q, a), all)
  {
    ApplyMoves(s.queues[q], a);
  }

  lemma MeasureDrops(s: Server, st: Step, all: nat)
    requires Inv(s) && Bounded(s, all) && Enabled(s, st) && Inner(st)
    ensures Shape(Apply(s, st)) && Measure(Apply(s, st), all) < Measure(s, all)
  {
    match st
    case External(q, a) => ExternalDrops(s, q, a, all);
    case Pop(i, a) => PopDrops(s, i, a, all);
    case Post(i, q, a) => PostDrops(s, i, q, a, all);
    case MainStop(a) => MainStopDrops(s, a, all);
    case Finish(i) => AllPhasesUpdate(s.phases, i, Polling);
    case _ =>
  }

  lemma ExternalDrops(s: Server, q: nat, a: QAction, all: nat)
    requires Inv(s) && Bounded(s, all) && Enabled(s, External(q, a)) && !a.BeginPush?
    ensures Shape(Apply(s, External(q, a))) && Measure(Apply(s, External(q, a)), all) < Measure(s, all)
  {
    var s' := Apply(s, External(q, a));
    ApplyTouches(s, q, a, s');
    if !a.NotifyOne? {
      OthersStay(s.queues[q], a);
    }
    assert a.t < all;
    QueueRise(s, q, a, s', all);
    AllQueuesUpdate(s.queues, q, s'.queues[q], all);
  }

  lemma PopDrops(s: Server, i: nat, a: QAction, all: nat)
    requires Inv(s) && Bounded(s, all) && Enabled(s, Pop(i, a)) && !a.SpuriousWake?
    ensures Shape(Apply(s, Pop(i, a))) && Measure(Apply(s, Pop(i, a)), all) < Measure(s, all)
  {
    var s' := Apply(s, Pop(i, a));
    ApplyTouches(s, i, a, s');
    OthersStay(s.queues[i], a);
    QueueRise(s, i, a, s', all);
    PopRise(s, i, a);
    AllQueuesUpdate(s.queues, i, s'.queues[i], all);
    AllPhasesUpdate(s.phases, i, s'.phases[i]);
  }

  lemma PopRise(s: Server, i: nat, a: QAction)
    requires Shape(s) && Enabled(s, Pop(i, a)) && !a.SpuriousWake? && Fits(s, i, i, s.queues[i].At(i))
    ensures Rise(s.queues[i], a, Q.Apply(s.queues[i], a)) + PhaseWork(AfterPop(s.queues[i].core, a)) < PhaseWork(s.phases[i])
  {
  }

  lemma PostDrops(s: Server, i: nat, q: nat, a: QAction, all: nat)
    requires Inv(s) && Bounded(s, all) && Enabled(s, Post(i, q, a))
    ensures Shape(Apply(s, Post(i, q, a))) && Measure(Apply(s, Post(i, q, a)), all) < Measure(s, all)
  {
    var s' := Apply(s, Post(i, q, a));
    ApplyTouches(s, q, a, s');
    if !a.NotifyOne? {
      OthersStay(s.queues[q], a);
    }
    QueueRise(s, q, a, s', all);
    PostRise(s, i, q, a);
    AllQueuesUpdate(s.queues, q, s'.queues[q], all);
    AllPhasesUpdate(s.phases, i, s'.phases[i]);
  }

  lemma PostRise(s: Server, i: nat, q: nat, a: QAction)
    requires Shape(s) && EnabledPost(s, i, q, a) && Q.Enabled(s.queues[q], a) && Fits(s, q, i, s.queues[q].At(i))
    ensures Rise(s.queues[q], a, Q.Apply(s.queues[q], a)) + PhaseWork(s.phases[i].(post := AfterPost(s.phases[i].post, q, a)))
            < PhaseWork(s.phases[i])
  {
  }

  lemma MainStopDrops(s: Server, a: QAction, all: nat)
    requires Inv(s) && Bounded(s, all) && Enabled(s, MainStop(a))
    ensures Shape(Apply(s, MainStop(a))) && Measure(Apply(s, MainStop(a)), all) < Measure(s, all)
  {
    var s' := Apply(s, MainStop(a));
    ApplyTouches(s, s.main.k, a, s');
    if !a.NotifyAll? {
      OthersStay(s.queues[s.main.k], a);
    }
    QueueRise(s, s.main.k, a, s', all);
    AllQueuesUpdate(s.queues, s.main.k, s'.queues[s.main.k], all);
  }

  // ------------------------------------------------------------------ and one is always possible

  /** The step that thread t, standing inside queue j, takes next. */
  lemma NextInside(s: Server, j: nat, t: Q.Tid) returns (st: Step)
    requires Inv(s) && j < |s.queues|
    requires !s.queues[j].At(t).Outside? && !s.queues[j].At(t).Parked?
    requires s.queues[j].owner.None? || s.queues[j].owner == Some(t)
    ensures Enabled(s, st) && Inner(st)
  {
    var m, n := s.queues[j], |s.queues|;
    assert Fits(s, j, t, m.At(t));
    assert Q.Inv(m);
    match m.At(t)
    case PushHold(_) => st := if t > n then External(j, Q.DoPush(t)) else Post(t, j, Q.DoPush(t));
    case PushNotify =>
      var chosen: Option<Q.Tid> := None;
      if m.SomeParked() {
        var w: Q.Tid :| m.At(w).Parked?;
        chosen := Some(w);
      }
      st := if t > n then External(j, Q.NotifyOne(t, chosen)) else Post(t, j, Q.NotifyOne(t, chosen));
    case StopHold => st := MainStop(Q.DoStop(t));
    case StopNotify => st := MainStop(Q.NotifyAll(t));
    case PopHold(_) => st := Pop(t, Q.Evaluate(t));
    case PopTake(_) => st := Pop(t, Q.Take(t));
    case Woken => st := Pop(t, Q.Reacquire(t));
    case _ => assert false;
  }

  /** Until Stop has returned some inner step is enabled: no deadlock, and no consumer that
      sleeps through the stop request. */
  lemma Progress(s: Server) returns (st: Step)
    requires Inv(s) && !Stopped(s)
    ensures Enabled(s, st) && Inner(st)
  {
    var n := |s.queues|;
    if j: nat :| j < n && s.queues[j].owner.Some? {
      var t := s.queues[j].owner.value;
      assert Q.Inv(s.queues[j]) && s.queues[j].At(t).Holds();
      st := NextInside(s, j, t);
    } else {
      match s.main
      case Serving => st := BeginShutdown;
      case Stopping(k) =>
        assert Fits(s, k, n, s.queues[k].At(n));
        st := MainStop(Q.BeginStop(n));
      case InStop(k) =>
        assert Fits(s, k, n, s.queues[k].At(n));
        st := NextInside(s, k, n);
      case Joining(k) =>
        st := ConsumerMoves(s, k);
    }
  }

  lemma ConsumerMoves(s: Server, k: nat) returns (st: Step)
    requires Inv(s) && s.main == Joining(k)
    requires forall j: nat :: j < |s.queues| ==> s.queues[j].owner.None?
    ensures Enabled(s, st) && Inner(st)
  {
    var m, n := s.queues[k], |s.queues|;
    assert Fits(s, k, k, m.At(k));
    match s.phases[k]
    case Exited => st := JoinNext;
    case Polling => st := Pop(k, Q.BeginPop(k));
    case Handling(_, post) =>
      if post.Posting? {
        assert Fits(s, post.shard, k, s.queues[post.shard].At(k));
        st := NextInside(s, post.shard, k);
      } else {
        st := Finish(k);
      }
    case Popping =>
      StopIsHeard(s, k);
      st := NextInside(s, k, k);
  }

  /** The flag is set and notify_all has been sent: consumer k cannot still be parked. */
  lemma StopIsHeard(s: Server, k: nat)
    requires Inv(s) && s.main == Joining(k)
    ensures !s.queues[k].At(k).Parked?
  {
    var m := s.queues[k];
    forall t: Q.Tid
      ensures !m.At(t).StopNotify?
    {
      assert Fits(s, k, t, m.At(t));
    }
    assert Q.NoLostWakeup(m) && m.core.stopping;
  }

  // ------------------------------------------------------------------ so shutdown terminates

  ghost predicate InnerStep(s: Server, s': Server)
  {
    Shape(s) && exists st :: Enabled(s, st) && Inner(st) && s' == Apply(s, st)
  }

  ghost predicate InnerRun(run: seq<Server>)
  {
    run != [] && Inv(run[0]) && forall x :: 0 <= x < |run| - 1 ==> InnerStep(run[x], run[x + 1])
  }

  lemma {:induction false} InnerRunFacts(run: seq<Server>, x: nat, all: nat)
    requires InnerRun(run) && x < |run| && Bounded(run[0], all)
    ensures Inv(run[x]) && Bounded(run[x], all) && Measure(run[x], all) + x <= Measure(run[0], all)
  {
    if x > 0 {
      InnerRunFacts(run, x - 1, all);
      assert InnerStep(run[x - 1], run[x - 1 + 1]);
      var st :| Enabled(run[x - 1], st) && Inner(st) && run[x] == Apply(run[x - 1], st);
      StepKeepsInv(run[x - 1], st);
      StaysBounded(run[x - 1], st, all);
      MeasureDrops(run[x - 1], st, all);
    }
  }

  /** Finitely many threads are inside a queue. */
  lemma KeyBound(pc: map<Q.Tid, Q.Pc<ShardMsg>>) returns (all: nat)
    ensures forall t :: t in pc ==> t < all
    decreases |pc|
  {
    if pc == map[] {
      return 0;
    }
    var t :| t in pc;
    var rest := KeyBound(pc - {t});
    all := if t < rest then rest else t + 1;
    assert forall u :: u in pc ==> u == t || u in pc - {t};
  }

  lemma {:induction false} ThreadBound(qs: seq<Q.Monitor<ShardMsg>>) returns (all: nat)
    ensures forall j: nat, t: Q.Tid :: j < |qs| && t >= all ==> qs[j].At(t).Outside?
  {
    if qs == [] {
      return 0;
    }
    var init, last := qs[..|qs| - 1], qs[|qs| - 1];
    var a := ThreadBound(init);
    var b := KeyBound(last.pc);
    all := if a < b then b else a;
    forall j: nat, t: Q.Tid | j < |qs| && t >= all
      ensures qs[j].At(t).Outside?
    {
      if j < |init| {
        assert init[j].At(t).Outside?;
      }
    }
  }

  lemma BoundExists(s: Server) returns (all: nat)
    ensures Bounded(s, all)
  {
    var inside := ThreadBound(s.queues);
    all := if inside > |s.queues| then inside else |s.queues| + 1;
  }

  /** From any state that satisfies the invariant, with any pushes under way, the runs without
      new client messages and spurious wakes are bounded in length. */
  lemma ShutdownTerminates(s: Server) returns (bound: nat)
    requires Inv(s)
    ensures forall run :: InnerRun(run) && run[0] == s ==> |run| - 1 <= bound
  {
    var all := BoundExists(s);
    bound := Measure(s, all);
    forall run | InnerRun(run) && run[0] == s
      ensures |run| - 1 <= bound
    {
      InnerRunFacts(run, |run| - 1, all);
    }
  }

  /** And such a run that cannot be continued has seen ShardServer::Stop return. */
  lemma EndsStopped(run: seq<Server>)
    requires InnerRun(run)
    ensures var last := run[|run| - 1];
            Shape(last) && ((forall st :: Inner(st) ==> !Enabled(last, st)) ==> Stopped(last))
  {
    var all := BoundExists(run[0]);
    InnerRunFacts(run, |run| - 1, all);
    var last := run[|run| - 1];
    if !Stopped(last) {
      var st := Progress(last);
    }
  }
}
