/** Which messages shutdown is certain to handle: the last shard is always drained, and a trade
    message can be left in the queue of a lower shard than the one it came from. */
module ShardStranded {
  import opened Common
  import opened Routing
  import opened ShardServer
  import opened ShardRuns
  import opened ShardShutdown
  import Q = MpmcQueue

  type QState = Q.Monitor<ShardMsg>

  // ------------------------------------------------------------------ the top shard drains

  /** Everything pushed after a consumer left its loop is internal. */
  predicate LateInternal(s: Server)
    requires Inv(s)
  {
    forall i, x :: 0 <= i < |s.queues| && s.phases[i].Exited? && s.atExit[i].value <= x < |s.queues[i].pushed| ==>
      s.queues[i].pushed[x].Internal?
  }

  /** No network thread is inside a push. */
  ghost predicate Quiet(s: Server)
  {
    forall j: nat, t: Q.Tid :: j < |s.queues| && t > |s.queues| ==> s.queues[j].At(t).Outside?
  }

  lemma InnerKeepsLateInternal(s: Server, st: Step)
    requires Inv(s) && Quiet(s) && Enabled(s, st) && Inner(st) && LateInternal(s)
    ensures Inv(Apply(s, st)) && Quiet(Apply(s, st)) && LateInternal(Apply(s, st))
  {
    StepKeepsInv(s, st);
    var s' := Apply(s, st);
    match st
    case Pop(i, a) => PopKeepsLateInternal(s, i, a); QuietAfter(s, i, a);
    case Post(i, q, a) => PostKeepsLateInternal(s, i, q, a); QuietAfter(s, q, a);
    case MainStop(a) => MainStopKeepsLateInternal(s, a); QuietAfter(s, s.main.k, a);
    case _ =>
  }

  lemma QuietAfter(s: Server, q: nat, a: QAction)
    requires Quiet(s) && q < |s.queues| && Q.Enabled(s.queues[q], a) && a.t <= |s.queues|
    ensures Quiet(OnQueue(s, q, a))
  {
    ApplyMoves(s.queues[q], a);
  }

  lemma PopKeepsLateInternal(s: Server, i: nat, a: QAction)
    requires Inv(s) && Enabled(s, Pop(i, a)) && LateInternal(s) && Inv(Apply(s, Pop(i, a)))
    ensures LateInternal(Apply(s, Pop(i, a)))
  {
    ApplyTouches(s, i, a, Apply(s, Pop(i, a)));
    TouchKeepsLateInternal(s, i, a, Apply(s, Pop(i, a)));
  }

  lemma PostKeepsLateInternal(s: Server, i: nat, q: nat, a: QAction)
    requires Inv(s) && Enabled(s, Post(i, q, a)) && LateInternal(s) && Inv(Apply(s, Post(i, q, a)))
    ensures LateInternal(Apply(s, Post(i, q, a)))
  {
    ApplyTouches(s, q, a, Apply(s, Post(i, q, a)));
    TouchKeepsLateInternal(s, q, a, Apply(s, Post(i, q, a)));
  }

  lemma MainStopKeepsLateInternal(s: Server, a: QAction)
    requires Inv(s) && Enabled(s, MainStop(a)) && LateInternal(s) && Inv(Apply(s, MainStop(a)))
    ensures LateInternal(Apply(s, MainStop(a)))
  {
    ApplyTouches(s, s.main.k, a, Apply(s, MainStop(a)));
    TouchKeepsLateInternal(s, s.main.k, a, Apply(s, MainStop(a)));
  }

  lemma TouchKeepsLateInternal(s: Server, q: nat, a: QAction, s': Server)
    requires Touches(s, q, a, s') && Inv(s') && a.t <= |s.queues| && LateInternal(s)
    requires forall i :: 0 <= i < |s.queues| && s'.phases[i].Exited? ==>
      (s.phases[i].Exited? && s'.atExit[i] == s.atExit[i]) || s'.atExit[i] == Some(|s'.queues[i].pushed|)
    ensures LateInternal(s')
  {
    forall i, x | 0 <= i < |s'.queues| && s'.phases[i].Exited? && s'.atExit[i].value <= x < |s'.queues[i].pushed|
      ensures s'.queues[i].pushed[x].Internal?
    {
      if i == q {
        PushedInternal(s.queues[q], a, s'.queues[q], x) by {
          assert Fits(s, q, a.t, s.queues[q].At(a.t));
        }
      } else {
        assert s'.queues[i] == s.queues[i];
      }
    }
  }

  /** What a consumer or the main thread pushes is internal. */
  lemma PushedInternal(m: QState, a: QAction, m': QState, x: nat)
    requires Moves(m, a, m') && x < |m'.pushed|
    requires m.At(a.t).PushHold? ==> m.At(a.t).value.Internal?
    ensures (x < |m.pushed| && m'.pushed[x] == m.pushed[x]) || m'.pushed[x].Internal?
  {
  }

  lemma {:induction false} InnerRunKeepsLateInternal(run: seq<Server>, x: nat)
    requires InnerRun(run) && x < |run| && Quiet(run[0]) && LateInternal(run[0])
    ensures Inv(run[x]) && Quiet(run[x]) && LateInternal(run[x])
  {
    if x > 0 {
      InnerRunKeepsLateInternal(run, x - 1);
      assert InnerStep(run[x - 1], run[x - 1 + 1]);
      var st :| Enabled(run[x - 1], st) && Inner(st) && run[x] == Apply(run[x - 1], st);
      InnerKeepsLateInternal(run[x - 1], st);
    }
  }

  /** With the network quiet since before the shutdown began, every client message is handled:
      what is left in any queue are internal messages from higher shards. */
  lemma ClientsAreDrained(run: seq<Server>, i: nat, m: ShardMsg)
    requires InnerRun(run) && Quiet(run[0]) && run[0].main.Serving? && Stopped(run[|run| - 1])
    requires i < |run[|run| - 1].queues| && m in run[|run| - 1].queues[i].core.items
    ensures m.Internal? && Shard(m.from, |run[|run| - 1].queues|) > i
  {
    assert LateInternal(run[0]) by {
      assert forall j :: 0 <= j < |run[0].queues| ==> !StopSent(run[0], j);
    }
    InnerRunKeepsLateInternal(run, |run| - 1);
    var last := run[|run| - 1];
    var q := last.queues[i];
    assert last.phases[i].Exited? && LateFromAbove(last, i) && Q.Inv(q);
    assert ExitRecorded(last, i) && q.core.items == q.pushed[last.atExit[i].value..];
    var y :| 0 <= y < |q.core.items| && q.core.items[y] == m;
    assert q.pushed[last.atExit[i].value + y] == m;
  }

  /** So the last shard is left empty. */
  lemma TopShardDrains(run: seq<Server>)
    requires InnerRun(run) && Quiet(run[0]) && run[0].main.Serving? && Stopped(run[|run| - 1])
    ensures var last := run[|run| - 1];
            Shape(last) && last.queues[|last.queues| - 1].core.items == []
  {
    var last := run[|run| - 1];
    var all := BoundExists(run[0]);
    InnerRunFacts(run, |run| - 1, all);
    var top := |last.queues| - 1;
    if last.queues[top].core.items != [] {
      ClientsAreDrained(run, top, last.queues[top].core.items[0]);
    }
  }

  // ------------------------------------------------------------------ a lower one need not

  /** Every run can be continued until Stop has returned. */
  lemma RunToStop(run: seq<Server>) returns (full: seq<Server>)
    requires IsRun(run)
    ensures IsRun(full) && run <= full && Stopped(full[|full| - 1])
  {
    var all := BoundExists(run[|run| - 1]);
    full := RunOn(run, all);
  }

  lemma {:induction false} RunOn(run: seq<Server>, all: nat) returns (full: seq<Server>)
    requires IsRun(run) && Bounded(run[|run| - 1], all)
    ensures IsRun(full) && run <= full && Stopped(full[|full| - 1])
    decreases if Shape(run[|run| - 1]) then Measure(run[|run| - 1], all) else 0
  {
    var s := run[|run| - 1];
    RunKeepsInv(run, |run| - 1);
    if Stopped(s) {
      return run;
    }
    var st := Progress(s);
    StaysBounded(s, st, all);
    MeasureDrops(s, st, all);
    var run' := Extend(run, st);
    full := RunOn(run', all);
  }

  lemma Extend(run: seq<Server>, st: Step) returns (run': seq<Server>)
    requires IsRun(run) && Shape(run[|run| - 1]) && Enabled(run[|run| - 1], st)
    ensures IsRun(run') && run' == run + [Apply(run[|run| - 1], st)]
  {
    run' := run + [Apply(run[|run| - 1], st)];
    forall x | 0 <= x < |run'| - 1
      ensures StepsTo(run'[x], run'[x + 1])
    {
      if x < |run| - 1 {
        assert StepsTo(run[x], run[x + 1]);
      }
    }
  }

  lemma {:induction false} ItemsStay(run: seq<Server>, x: nat, y: nat, i: nat)
    requires IsRun(run) && x <= y < |run| && i < |run[x].phases| && i < |run[x].queues| && run[x].phases[i].Exited?
    ensures |run[y].queues| == |run[x].queues| && |run[y].phases| == |run[x].phases| && run[y].phases[i].Exited?
    ensures run[x].queues[i].core.items <= run[y].queues[i].core.items
    decreases y - x
  {
    if x < y {
      ItemsStay(run, x, y - 1, i);
      RunKeepsInv(run, y - 1);
      assert StepsTo(run[y - 1], run[y - 1 + 1]);
      var st :| Enabled(run[y - 1], st) && run[y] == Apply(run[y - 1], st);
      LeftoversStay(run[y - 1], st, i);
    }
  }

  // ------------------------------------------------------------------ one queue at a time

  function Mon(items: seq<ShardMsg>, stopping: bool, owner: Option<Q.Tid>, pc: map<Q.Tid, Q.Pc<ShardMsg>>, pushed: seq<ShardMsg>): QState
  {
    Q.Monitor(Q.Core(items, stopping), owner, pc, pushed, [])
  }

  function Empty(): QState { Mon([], false, None, map[], []) }

  /** An unused queue once thread n has stopped it, and once consumer k has left it. */
  function Told(n: nat): QState { Mon([], true, None, map[n := Q.Outside], []) }
  function Left(n: nat, k: nat): QState { Mon([], true, None, map[n := Q.Outside, k := Q.Outside], []) }

  /** A queue into which thread p has pushed one message. */
  function Loaded(p: nat, m: ShardMsg): QState { Mon([m], false, None, map[p := Q.Outside], [m]) }

  lemma StopUnused(n: nat) returns (m1: QState, m2: QState)
    ensures Q.Enabled(Empty(), Q.BeginStop(n)) && Q.Apply(Empty(), Q.BeginStop(n)) == m1
    ensures Q.Enabled(m1, Q.DoStop(n)) && Q.Apply(m1, Q.DoStop(n)) == m2
    ensures Q.Enabled(m2, Q.NotifyAll(n)) && Q.Apply(m2, Q.NotifyAll(n)) == Told(n)
  {
    m1 := Mon([], false, Some(n), map[n := Q.StopHold], []);
    m2 := Mon([], true, None, map[n := Q.StopNotify], []);
    assert Q.Apply(m2, Q.NotifyAll(n)).pc == map[n := Q.Outside];
  }

  lemma LeaveUnused(n: nat, k: nat) returns (m1: QState)
    requires k < n
    ensures Q.Enabled(Told(n), Q.BeginPop(k)) && Q.Apply(Told(n), Q.BeginPop(k)) == m1
    ensures Q.Enabled(m1, Q.Evaluate(k)) && Q.Apply(m1, Q.Evaluate(k)) == Left(n, k)
    ensures m1.core == Q.Core([], true)
  {
    m1 := Mon([], true, Some(k), map[n := Q.Outside, k := Q.PopHold(false)], []);
    assert Q.Apply(m1, Q.Evaluate(k)).pc == map[n := Q.Outside, k := Q.Outside];
  }

  lemma LoadUnused(p: nat, m: ShardMsg) returns (m1: QState, m2: QState)
    ensures Q.Enabled(Empty(), Q.BeginPush(p, m)) && Q.Apply(Empty(), Q.BeginPush(p, m)) == m1
    ensures Q.Enabled(m1, Q.DoPush(p)) && Q.Apply(m1, Q.DoPush(p)) == m2
    ensures Q.Enabled(m2, Q.NotifyOne(p, None)) && Q.Apply(m2, Q.NotifyOne(p, None)) == Loaded(p, m)
  {
    m1 := Mon([], false, Some(p), map[p := Q.PushHold(m)], []);
    m2 := Mon([m], false, None, map[p := Q.PushNotify], [m]);
    assert [] + [m] == [m];
    assert forall t: Q.Tid :: !m2.At(t).Parked?;
    assert Q.Apply(m2, Q.NotifyOne(p, None)).pc == map[p := Q.Outside];
  }

  lemma TakeLoaded(p: nat, m: ShardMsg, a: nat) returns (m1: QState, m2: QState)
    requires a != p
    ensures Q.Enabled(Loaded(p, m), Q.BeginPop(a)) && Q.Apply(Loaded(p, m), Q.BeginPop(a)) == m1
    ensures Q.Enabled(m1, Q.Evaluate(a)) && Q.Apply(m1, Q.Evaluate(a)) == m2
    ensures Q.Enabled(m2, Q.Take(a)) && m1.core == m2.core == Q.Core([m], false)
  {
    m1 := Q.Apply(Loaded(p, m), Q.BeginPop(a));
    m2 := Q.Apply(m1, Q.Evaluate(a));
  }

  // ------------------------------------------------------------------ the run

  /** `run` continued by one step on queue q, which turns it into `m`. */
  lemma OnQueueStep(run: seq<Server>, st: Step, q: nat, a: QAction, m: QState) returns (run': seq<Server>)
    requires IsRun(run) && Shape(run[|run| - 1]) && q < |run[|run| - 1].queues| && Enabled(run[|run| - 1], st)
    requires Q.Enabled(run[|run| - 1].queues[q], a) && Q.Apply(run[|run| - 1].queues[q], a) == m
    requires st == External(q, a) || st == Pop(q, a) || (st == MainStop(a) && run[|run| - 1].main.k == q)
    ensures IsRun(run') && run < run' && run'[|run'| - 1] == Apply(run[|run| - 1], st)
    ensures run'[|run'| - 1].queues == run[|run| - 1].queues[q := m]
  {
    run' := Extend(run, st);
  }

  /** Shutdown has got to consumer k; the consumers from k to a have done nothing yet and the
      message m waits for consumer a. */
  ghost predicate Waiting(s: Server, k: nat, a: nat, m: ShardMsg)
  {
    && Shape(s) && k <= a < |s.queues| && s.main == Stopping(k)
    && s.queues[a] == Loaded(|s.queues| + 1, m)
    && (forall j :: k <= j <= a ==> s.phases[j] == Polling && (j < a ==> s.queues[j] == Empty()))
    && (forall j :: 0 <= j < k ==> s.phases[j].Exited? && s.queues[j] == Left(|s.queues|, j))
  }

  lemma LoadShard(n: nat, a: nat, m: ShardMsg) returns (run: seq<Server>)
    requires a < n && m.Client? && Shard(m.sid, n) == a
    ensures IsRun(run) && Waiting(run[|run| - 1], 0, a, m) && |run[|run| - 1].queues| == n
  {
    run := PushFirst(n, a, m);
    run := Extend(run, BeginShutdown);
  }

  lemma PushFirst(n: nat, a: nat, m: ShardMsg) returns (run: seq<Server>)
    requires a < n && m.Client? && Shard(m.sid, n) == a
    ensures IsRun(run) && run[|run| - 1] == Init(n).(queues := Init(n).queues[a := Loaded(n + 1, m)])
  {
    var m1, m2 := LoadUnused(n + 1, m);
    run := [Init(n)];
    run := OnQueueStep(run, External(a, Q.BeginPush(n + 1, m)), a, Q.BeginPush(n + 1, m), m1);
    run := OnQueueStep(run, External(a, Q.DoPush(n + 1)), a, Q.DoPush(n + 1), m2);
    run := OnQueueStep(run, External(a, Q.NotifyOne(n + 1, None)), a, Q.NotifyOne(n + 1, None), Loaded(n + 1, m));
  }

  lemma StopNext(run: seq<Server>, k: nat, a: nat, m: ShardMsg) returns (run': seq<Server>)
    requires IsRun(run) && Waiting(run[|run| - 1], k, a, m) && k < a
    ensures IsRun(run') && run'[|run'| - 1].queues == run[|run| - 1].queues[k := Told(|run[|run| - 1].queues|)]
    ensures run'[|run'| - 1].phases == run[|run| - 1].phases && run'[|run'| - 1].main == Joining(k)
  {
    var n := |run[|run| - 1].queues|;
    var m1, m2 := StopUnused(n);
    run' := OnQueueStep(run, MainStop(Q.BeginStop(n)), k, Q.BeginStop(n), m1);
    run' := OnQueueStep(run', MainStop(Q.DoStop(n)), k, Q.DoStop(n), m2);
    run' := OnQueueStep(run', MainStop(Q.NotifyAll(n)), k, Q.NotifyAll(n), Told(n));
  }

  /** Consumer k finds its stopped queue empty and leaves the loop. */
  lemma LeaveLoop(run: seq<Server>, k: nat) returns (run': seq<Server>)
    requires IsRun(run) && Shape(run[|run| - 1]) && k < |run[|run| - 1].queues|
    requires run[|run| - 1].phases[k].Polling? && run[|run| - 1].queues[k] == Told(|run[|run| - 1].queues|)
    ensures IsRun(run') && run'[|run'| - 1].main == run[|run| - 1].main
    ensures run'[|run'| - 1].phases == run[|run| - 1].phases[k := Exited]
    ensures run'[|run'| - 1].queues == run[|run| - 1].queues[k := Left(|run[|run| - 1].queues|, k)]
  {
    var n := |run[|run| - 1].queues|;
    var m1 := LeaveUnused(n, k);
    run' := OnQueueStep(run, Pop(k, Q.BeginPop(k)), k, Q.BeginPop(k), m1);
    run' := OnQueueStep(run', Pop(k, Q.Evaluate(k)), k, Q.Evaluate(k), Left(n, k));
  }

  lemma JoinOne(run: seq<Server>, k: nat, a: nat, m: ShardMsg) returns (run': seq<Server>)
    requires IsRun(run) && Waiting(run[|run| - 1], k, a, m) && k < a
    ensures IsRun(run') && Waiting(run'[|run'| - 1], k + 1, a, m) && |run'[|run'| - 1].queues| == |run[|run| - 1].queues|
  {
    run' := StopNext(run, k, a, m);
    assert Shape(run'[|run'| - 1]) by {
      RunKeepsInv(run', |run'| - 1);
    }
    run' := LeaveLoop(run', k);
    assert Shape(run'[|run'| - 1]) by {
      RunKeepsInv(run', |run'| - 1);
    }
    run' := Extend(run', JoinNext);
  }

  lemma {:induction false} JoinUpto(run: seq<Server>, k: nat, a: nat, m: ShardMsg, last: nat) returns (run': seq<Server>)
    requires IsRun(run) && Waiting(run[|run| - 1], k, a, m) && k <= last <= a
    ensures IsRun(run') && Waiting(run'[|run'| - 1], last, a, m) && |run'[|run'| - 1].queues| == |run[|run| - 1].queues|
    decreases last - k
  {
    run' := run;
    if k < last {
      run' := JoinOne(run, k, a, m);
      run' := JoinUpto(run', k + 1, a, m, last);
    }
  }

  /** Consumer a enters Pop and finds the message. */
  lemma FindMessage(run: seq<Server>, a: nat, m: ShardMsg) returns (run': seq<Server>, found: QState)
    requires IsRun(run) && Shape(run[|run| - 1]) && a < |run[|run| - 1].queues|
    requires run[|run| - 1].phases[a].Polling? && run[|run| - 1].queues[a] == Loaded(|run[|run| - 1].queues| + 1, m)
    ensures IsRun(run') && Shape(run'[|run'| - 1]) && run'[|run'| - 1].queues == run[|run| - 1].queues[a := found]
    ensures run'[|run'| - 1].phases == run[|run| - 1].phases[a := Popping]
    ensures Q.Enabled(found, Q.Take(a)) && found.core == Q.Core([m], false)
  {
    var m1, m2 := TakeLoaded(|run[|run| - 1].queues| + 1, m, a);
    found := m2;
    run' := OnQueueStep(run, Pop(a, Q.BeginPop(a)), a, Q.BeginPop(a), m1);
    run' := OnQueueStep(run', Pop(a, Q.Evaluate(a)), a, Q.Evaluate(a), m2);
  }

  lemma TakeMessage(run: seq<Server>, k: nat, a: nat, m: ShardMsg) returns (run': seq<Server>)
    requires IsRun(run) && Waiting(run[|run| - 1], k, a, m) && m.Client?
    ensures IsRun(run') && |run'[|run'| - 1].queues| == |run[|run| - 1].queues| && Shape(run'[|run'| - 1])
    ensures run'[|run'| - 1].phases[a] == Handling(m, MayPost)
    ensures var s := run'[|run'| - 1]; forall j :: 0 <= j < k ==> s.phases[j].Exited? && s.queues[j] == Left(|s.queues|, j)
  {
    var found: QState;
    run', found := FindMessage(run, a, m);
    run' := OnQueueStep(run', Pop(a, Q.Take(a)), a, Q.Take(a), Q.Apply(found, Q.Take(a)));
  }

  lemma PostLate(run: seq<Server>, b: nat, a: nat, m: ShardMsg, trade: ShardMsg) returns (run': seq<Server>)
    requires IsRun(run) && Shape(run[|run| - 1]) && b < a < |run[|run| - 1].queues|
    requires run[|run| - 1].phases[a] == Handling(m, MayPost) && run[|run| - 1].phases[b].Exited?
    requires run[|run| - 1].queues[b] == Left(|run[|run| - 1].queues|, b)
    requires trade.Internal? && trade.from == m.sid && Shard(trade.sid, |run[|run| - 1].queues|) == b
    ensures IsRun(run') && |run'[|run'| - 1].queues| == |run[|run| - 1].queues| && Shape(run'[|run'| - 1])
    ensures run'[|run'| - 1].phases[b].Exited? && trade in run'[|run'| - 1].queues[b].core.items
  {
    run' := Extend(run, Post(a, b, Q.BeginPush(a, trade)));
    run' := Extend(run', Post(a, b, Q.DoPush(a)));
    assert run'[|run'| - 1].queues[b].core.items == [] + [trade];
  }

  /** Some run ends, after Stop has returned, with a trade message from a session on shard a
      still in the queue of shard b. */
  ghost predicate Strands(run: seq<Server>, n: nat, a: nat, b: nat, trade: ShardMsg)
    requires b < n
  {
    && IsRun(run) && Stopped(run[|run| - 1]) && |run[|run| - 1].queues| == n
    && trade.Internal? && Shard(trade.from, n) == a && trade in run[|run| - 1].queues[b].core.items
  }

  /** Consumer b has been joined when consumer a takes the request and posts the trade message. */
  lemma LateRun(n: nat, a: nat, b: nat, request: ShardMsg, trade: ShardMsg) returns (run: seq<Server>)
    requires b < a < n && request.Client? && trade.Internal? && trade.from == request.sid
    requires Shard(request.sid, n) == a && Shard(trade.sid, n) == b
    ensures IsRun(run) && Shape(run[|run| - 1]) && |run[|run| - 1].queues| == n
    ensures run[|run| - 1].phases[b].Exited? && trade in run[|run| - 1].queues[b].core.items
  {
    run := LoadShard(n, a, request);
    run := JoinUpto(run, 0, a, request, b + 1);
    run := TakeMessage(run, b + 1, a, request);
    run := PostLate(run, b, a, request, trade);
  }

  lemma StrandedRun(n: nat, a: nat, b: nat) returns (run: seq<Server>)
    requires b < a < n
    ensures Strands(run, n, a, b, Internal(b, a))
  {
    var late := LateRun(n, a, b, Client(a, "/t bob"), Internal(b, a));
    run := RunToStop(late);
    assert run[|late| - 1] == late[|late| - 1];
    ItemsStay(run, |late| - 1, |run| - 1, b);
  }

  /** For any number of shards: shutdown is certain to handle the trade messages from shard a to
      shard b exactly when b is not below a, because consumers are stopped in that order. */
  lemma TradeIsSafeExactly(n: nat, a: nat, b: nat)
    requires a < n && b < n
    ensures (forall run, trade :: !Strands(run, n, a, b, trade)) <==> a <= b
  {
    if a <= b {
      forall run, trade
        ensures !Strands(run, n, a, b, trade)
      {
        if Strands(run, n, a, b, trade) {
          LeftoversComeFromAbove(run, |run| - 1, b, trade);
        }
      }
    } else {
      var run := StrandedRun(n, a, b);
    }
  }
}
