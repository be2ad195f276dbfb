/** What every run of the shard server guarantees: routing, per-session order, what a
    shutdown drains, what it can leave behind, and that it terminates. */
module ShardRuns {
  import opened Common
  import opened Routing
  import opened ShardServer
  import Q = MpmcQueue

  ghost predicate StepsTo(s: Server, s': Server)
  {
    Shape(s) && exists st :: Enabled(s, st) && s' == Apply(s, st)
  }

  ghost predicate IsRun(run: seq<Server>)
  {
    && run != [] && (exists n: nat :: n > 0 && run[0] == Init(n))
    && forall x :: 0 <= x < |run| - 1 ==> StepsTo(run[x], run[x + 1])
  }

  lemma {:induction false} RunKeepsInv(run: seq<Server>, x: nat)
    requires IsRun(run) && x < |run|
    ensures Inv(run[x])
  {
    if x == 0 {
      var n: nat :| n > 0 && run[0] == Init(n);
      InitInv(n);
    } else {
      RunKeepsInv(run, x - 1);
      assert StepsTo(run[x - 1], run[x - 1 + 1]);
      var st :| Enabled(run[x - 1], st) && run[x] == Apply(run[x - 1], st);
      StepKeepsInv(run[x - 1], st);
    }
  }

  // ------------------------------------------------------------------ order per session

  /** The messages for one session, in order. */
  function Of(sid: nat, msgs: seq<ShardMsg>): seq<ShardMsg>
  {
    if msgs == [] then [] else (if msgs[0].sid == sid then [msgs[0]] else []) + Of(sid, msgs[1..])
  }

  lemma {:induction false} OfAppend(sid: nat, a: seq<ShardMsg>, b: seq<ShardMsg>)
    ensures Of(sid, a + b) == Of(sid, a) + Of(sid, b)
  {
    if a == [] {
      assert a + b == b;
    } else {
      assert (a + b)[1..] == a[1..] + b;
      OfAppend(sid, a[1..], b);
      Regroup(if a[0].sid == sid then [a[0]] else [], Of(sid, a[1..]), Of(sid, b));
    }
  }

  lemma {:induction false} OfNone(sid: nat, msgs: seq<ShardMsg>)
    requires forall x :: 0 <= x < |msgs| ==> msgs[x].sid != sid
    ensures Of(sid, msgs) == []
  {
    if msgs != [] {
      OfNone(sid, msgs[1..]);
    }
  }

  /** Nothing is lost, duplicated or reordered: in every reachable state and every shard,
      what was handled, then what is in hand, then what is queued is what was pushed. */
  lemma HandledInPushOrder(run: seq<Server>, x: nat, i: nat)
    requires IsRun(run) && x < |run| && i < |run[x].queues|
    ensures Shape(run[x])
    ensures var s := run[x];
            s.handled[i] + InHand(s.phases[i]) + s.queues[i].core.items == s.queues[i].pushed
  {
    RunKeepsInv(run, x);
    assert Q.Inv(run[x].queues[i]);
  }

  /** Whatever stands in queue j was pushed for a session that is dealt to shard j. */
  lemma PushedIsDealt(run: seq<Server>, x: nat, j: nat, m: ShardMsg)
    requires IsRun(run) && x < |run| && j < |run[x].queues| && m in run[x].queues[j].pushed
    ensures DealtTo(m.sid, |run[x].queues|, j)
  {
    RunKeepsInv(run, x);
    var y :| 0 <= y < |run[x].queues[j].pushed| && run[x].queues[j].pushed[y] == m;
    assert Routed(run[x]);
    ShardIsDealt(m.sid, |run[x].queues|, j);
  }

  /** One session's messages go to the one shard it is dealt to when sessions are dealt out in
      turn, and what was handled of them there is a prefix of what was pushed of them. */
  lemma SessionOrder(run: seq<Server>, x: nat, sid: nat, j: nat)
    requires IsRun(run) && x < |run| && j < |run[x].queues|
    ensures Shape(run[x])
    ensures var s := run[x];
            && Of(sid, s.handled[j]) <= Of(sid, s.queues[j].pushed)
            && (!DealtTo(sid, |s.queues|, j) ==> Of(sid, s.queues[j].pushed) == [] && Of(sid, s.handled[j]) == [])
  {
    RunKeepsInv(run, x);
    HandledInPushOrder(run, x, j);
    var s := run[x];
    var rest := InHand(s.phases[j]) + s.queues[j].core.items;
    assert s.handled[j] + rest == s.queues[j].pushed;
    OfAppend(sid, s.handled[j], rest);
    if !DealtTo(sid, |s.queues|, j) {
      ShardIsDealt(sid, |s.queues|, j);
      OfNone(sid, s.queues[j].pushed);
    }
  }

  /** Two consumers never handle messages of one session at the same time. */
  lemma OneHandlerPerSession(run: seq<Server>, x: nat, i: nat, j: nat)
    requires IsRun(run) && x < |run| && i < |run[x].phases| && j < |run[x].phases|
    requires run[x].phases[i].Handling? && run[x].phases[j].Handling?
    ensures run[x].phases[i].msg.sid == run[x].phases[j].msg.sid ==> i == j
  {
    RunKeepsInv(run, x);
    InHandRouted(run[x], i);
    InHandRouted(run[x], j);
  }

  // ------------------------------------------------------------------ after Stop has returned

  predicate Stopped(s: Server) { s.main == Stopping(|s.queues|) }

  /** When ShardServer::Stop has returned, every consumer has left its loop, everything
      pushed before its queue was stopped has been handled, and what remains in a queue is
      exactly what was pushed after its consumer left. */
  lemma AfterStop(run: seq<Server>, x: nat, i: nat)
    requires IsRun(run) && x < |run| && i < |run[x].queues| && Stopped(run[x])
    ensures var s := run[x];
            && Shape(s) && s.phases[i].Exited? && s.atStop[i].Some? && s.atExit[i].Some?
            && s.atStop[i].value <= s.atExit[i].value <= |s.queues[i].pushed|
            && s.queues[i].pushed[..s.atStop[i].value] <= s.handled[i]
            && s.handled[i] == s.queues[i].pushed[..s.atExit[i].value]
            && s.queues[i].core.items == s.queues[i].pushed[s.atExit[i].value..]
  {
    RunKeepsInv(run, x);
    HandledInPushOrder(run, x, i);
    assert ExitRecorded(run[x], i);
  }

  /** Any internal message left in queue i was posted by a consumer of a higher shard, which
      was still draining its queue when consumer i had already been joined. */
  lemma LeftoversComeFromAbove(run: seq<Server>, x: nat, i: nat, m: ShardMsg)
    requires IsRun(run) && x < |run| && i < |run[x].queues| && Stopped(run[x])
    requires m.Internal? && m in run[x].queues[i].core.items
    ensures |run[x].queues| > 0 && Shard(m.from, |run[x].queues|) > i
  {
    RunKeepsInv(run, x);
    AfterStop(run, x, i);
    var s := run[x];
    assert LateFromAbove(s, i);
    var y :| 0 <= y < |s.queues[i].core.items| && s.queues[i].core.items[y] == m;
    assert s.queues[i].pushed[s.atExit[i].value + y] == m;
  }

  /** Only consumer i takes from queue i. */
  lemma OnlyOwnerTakes(s: Server, q: nat, a: QAction, s': Server, i: nat)
    requires Touches(s, q, a, s') && i < |s.queues| && s.phases[i].Exited?
    ensures s.queues[i].core.items <= s'.queues[i].core.items
  {
    if i == q {
      assert Fits(s, q, a.t, s.queues[q].At(a.t));
    }
  }

  /** No step brings consumer i back into its loop. */
  lemma ExitedStays(s: Server, st: Step, i: nat)
    requires Inv(s) && Enabled(s, st) && i < |s.queues| && s.phases[i].Exited?
    ensures Shape(Apply(s, st)) && Apply(s, st).phases[i].Exited?
  {
  }

  /** Once consumer i has left its loop nothing takes from its queue any more. */
  lemma LeftoversStay(s: Server, st: Step, i: nat)
    requires Inv(s) && Enabled(s, st) && i < |s.queues| && s.phases[i].Exited?
    ensures Shape(Apply(s, st)) && Apply(s, st).phases[i].Exited?
    ensures s.queues[i].core.items <= Apply(s, st).queues[i].core.items
  {
    ExitedStays(s, st, i);
    match st
    case External(q, a) => ExternalLeaves(s, q, a, i);
    case Pop(j, a) => PopLeaves(s, j, a, i);
    case Post(j, q, a) => PostLeaves(s, j, q, a, i);
    case MainStop(a) => MainStopLeaves(s, a, i);
    case _ =>
  }

  lemma ExternalLeaves(s: Server, q: nat, a: QAction, i: nat)
    requires Inv(s) && Enabled(s, External(q, a)) && i < |s.queues| && s.phases[i].Exited?
    ensures s.queues[i].core.items <= Apply(s, External(q, a)).queues[i].core.items
  {
    ApplyTouches(s, q, a, Apply(s, External(q, a)));
    OnlyOwnerTakes(s, q, a, Apply(s, External(q, a)), i);
  }

  lemma PopLeaves(s: Server, j: nat, a: QAction, i: nat)
    requires Inv(s) && Enabled(s, Pop(j, a)) && i < |s.queues| && s.phases[i].Exited?
    ensures s.queues[i].core.items <= Apply(s, Pop(j, a)).queues[i].core.items
  {
    ApplyTouches(s, j, a, Apply(s, Pop(j, a)));
    OnlyOwnerTakes(s, j, a, Apply(s, Pop(j, a)), i);
  }

  lemma PostLeaves(s: Server, j: nat, q: nat, a: QAction, i: nat)
    requires Inv(s) && Enabled(s, Post(j, q, a)) && i < |s.queues| && s.phases[i].Exited?
    ensures s.queues[i].core.items <= Apply(s, Post(j, q, a)).queues[i].core.items
  {
    ApplyTouches(s, q, a, Apply(s, Post(j, q, a)));
    OnlyOwnerTakes(s, q, a, Apply(s, Post(j, q, a)), i);
  }

  lemma MainStopLeaves(s: Server, a: QAction, i: nat)
    requires Inv(s) && Enabled(s, MainStop(a)) && i < |s.queues| && s.phases[i].Exited?
    ensures s.queues[i].core.items <= Apply(s, MainStop(a)).queues[i].core.items
  {
    ApplyTouches(s, s.main.k, a, Apply(s, MainStop(a)));
    OnlyOwnerTakes(s, s.main.k, a, Apply(s, MainStop(a)), i);
  }
}
