/** ShardServer.h and the loop of Consumer.cpp: n queues, one consumer thread per queue,
    any number of threads posting client messages, and a main thread that stops and joins
    the consumers one after the other.

    Thread i < n is consumer i, thread n is the main thread, threads above n are the
    network threads.  Every access to queue j is a step of the monitor of MpmcQueue. */
module ShardServer {
  import opened Common
  import opened Routing
  import Q = MpmcQueue

  /** A message for the session `sid`; an internal one was posted while handling a client
      message of session `from`. */
  datatype ShardMsg = Client(sid: nat, text: string) | Internal(sid: nat, from: nat)

  /** How far the handler has got with the one message it may post. */
  datatype PostState = MayPost | Posting(shard: nat) | Finished

  datatype Phase =
    | Polling                                      // between two calls of Pop
    | Popping                                      // inside Pop
    | Handling(msg: ShardMsg, post: PostState)     // inside Handle
    | Exited                                       // Pop returned false, the loop is over

  /** `Stopping(k)`: consumers below k are joined, Stop of consumer k is next.
      `Stopping(n)`: ShardServer::Stop has returned. */
  datatype MainPhase = Serving | Stopping(k: nat) | InStop(k: nat) | Joining(k: nat)

  /** `atStop[i]` and `atExit[i]` record how many messages had been pushed to queue i when
      its flag was set and when its consumer left the loop. */
  datatype Server = Server(queues: seq<Q.Monitor<ShardMsg>>, phases: seq<Phase>, handled: seq<seq<ShardMsg>>,
                           main: MainPhase, atStop: seq<Option<nat>>, atExit: seq<Option<nat>>)

  function Init(n: nat): Server
  {
    Server(seq(n, _ => Q.Init()), seq(n, _ => Polling), seq(n, _ => []), Serving, seq(n, _ => None), seq(n, _ => None))
  }

  predicate Shape(s: Server)
  {
    var n := |s.queues|;
    && n > 0 && |s.phases| == n && |s.handled| == n && |s.atStop| == n && |s.atExit| == n
    && (s.main.Stopping? ==> s.main.k <= n)
    && (s.main.InStop? || s.main.Joining? ==> s.main.k < n)
  }

  // ------------------------------------------------------------------ the steps

  type QAction = Q.Action<ShardMsg>

  datatype Step =
    | External(q: nat, a: QAction)         // a network thread pushes a client message
    | Pop(i: nat, a: QAction)              // consumer i inside Pop
    | Post(i: nat, q: nat, a: QAction)     // the handler of consumer i posts a trade message
    | Finish(i: nat)                       // Handle returned, or threw and was caught
    | BeginShutdown
    | MainStop(a: QAction)                 // the main thread inside MPMCQueue::Stop
    | JoinNext                             // thread_.join() returns

  ghost predicate EnabledPost(s: Server, i: nat, q: nat, a: QAction)
    requires Shape(s)
  {
    var n := |s.queues|;
    && i < n && q < n && a.t == i && s.phases[i].Handling?
    && if a.BeginPush? then
         && s.phases[i].post.MayPost?
         && a.value.Internal? && a.value.from == s.phases[i].msg.sid && Shard(a.value.sid, n) == q
       else
         (a.DoPush? || a.NotifyOne?) && s.phases[i].post == Posting(q)
  }

  ghost predicate Enabled(s: Server, st: Step)
    requires Shape(s)
  {
    var n := |s.queues|;
    match st
    case External(q, a) =>
      && q < n && a.t > n && Q.Enabled(s.queues[q], a)
      && ((a.BeginPush? && a.value.Client? && Shard(a.value.sid, n) == q) || a.DoPush? || a.NotifyOne?)
    case Pop(i, a) =>
      && i < n && a.t == i && Q.Enabled(s.queues[i], a)
      && (if a.BeginPop? then s.phases[i].Polling?
          else (a.Evaluate? || a.Take? || a.SpuriousWake? || a.Reacquire?) && s.phases[i].Popping?)
    case Post(i, q, a) => EnabledPost(s, i, q, a) && Q.Enabled(s.queues[q], a)
    case Finish(i) => i < n && s.phases[i].Handling? && !s.phases[i].post.Posting?
    case BeginShutdown => s.main.Serving?
    case MainStop(a) =>
      && a.t == n
      && (if a.BeginStop? then s.main.Stopping? && s.main.k < n
          else (a.DoStop? || a.NotifyAll?) && s.main.InStop?)
      && Q.Enabled(s.queues[s.main.k], a)
    case JoinNext => s.main.Joining? && s.phases[s.main.k].Exited?
  }

  ghost function OnQueue(s: Server, q: nat, a: QAction): Server
    requires q < |s.queues| && Q.Enabled(s.queues[q], a)
  {
    s.(queues := s.queues[q := Q.Apply(s.queues[q], a)])
  }

  /** The phase of a consumer after a step inside Pop. */
  function AfterPop(core: Q.Core<ShardMsg>, a: QAction): Phase
  {
    if a.Evaluate? && core.items == [] && core.stopping then Exited
    else if a.Take? && core.items != [] then Handling(core.items[0], if core.items[0].Client? then MayPost else Finished)
    else Popping
  }

  function AfterPost(post: PostState, q: nat, a: QAction): PostState
  {
    if a.BeginPush? then Posting(q) else if a.NotifyOne? then Finished else post
  }

  ghost function Apply(s: Server, st: Step): Server
    requires Shape(s) && Enabled(s, st)
  {
    match st
    case External(q, a) => OnQueue(s, q, a)
    case Pop(i, a) =>
      var p := AfterPop(s.queues[i].core, a);
      OnQueue(s, i, a).(phases := s.phases[i := p],
                        atExit := if p.Exited? then s.atExit[i := Some(|s.queues[i].pushed|)] else s.atExit)
    case Post(i, q, a) =>
      OnQueue(s, q, a).(phases := s.phases[i := s.phases[i].(post := AfterPost(s.phases[i].post, q, a))])
    case Finish(i) =>
      s.(phases := s.phases[i := Polling], handled := s.handled[i := s.handled[i] + [s.phases[i].msg]])
    case BeginShutdown => s.(main := Stopping(0))
    case MainStop(a) =>
      var k := s.main.k;
      OnQueue(s, k, a).(main := if a.NotifyAll? then Joining(k) else InStop(k),
                        atStop := if a.DoStop? then s.atStop[k := Some(|s.queues[k].pushed|)] else s.atStop)
    case JoinNext => s.(main := Stopping(s.main.k + 1))
  }

  // ------------------------------------------------------------------ the invariant

  function InHand(p: Phase): seq<ShardMsg> { if p.Handling? then [p.msg] else [] }

  /** Where thread t may stand in queue j. */
  predicate Fits(s: Server, j: nat, t: nat, p: Q.Pc<ShardMsg>)
    requires Shape(s) && j < |s.queues|
  {
    var n := |s.queues|;
    if t > n then
      p.Outside? || p.PushNotify? || (p.PushHold? && p.value.Client? && Shard(p.value.sid, n) == j)
    else if t == n then
      if s.main == InStop(j) then p.StopHold? || p.StopNotify? else p.Outside?
    else if s.phases[t].Handling? && s.phases[t].post == Posting(j) then
      p.PushNotify? || (p.PushHold? && p.value.Internal? && Shard(p.value.from, n) == t && Shard(p.value.sid, n) == j)
    else if t == j && s.phases[t].Popping? then
      p.PopHold? || p.PopTake? || p.Parked? || p.Woken?
    else
      p.Outside?
  }

  ghost predicate Placed(s: Server)
    requires Shape(s)
  {
    forall j: nat, t: Q.Tid :: j < |s.queues| ==> Fits(s, j, t, s.queues[j].At(t))
  }

  /** Only the handler of a client message posts, and to an existing shard. */
  predicate PostsOnlyForClients(s: Server)
    requires Shape(s)
  {
    forall i :: 0 <= i < |s.phases| && s.phases[i].Handling? && !s.phases[i].post.Finished? ==>
      s.phases[i].msg.Client? && (s.phases[i].post.Posting? ==> s.phases[i].post.shard < |s.queues|)
  }

  predicate ExactlyOnce(s: Server)
    requires Shape(s)
  {
    forall i :: 0 <= i < |s.queues| ==> s.handled[i] + InHand(s.phases[i]) == s.queues[i].popped
  }

  predicate Routed(s: Server)
    requires Shape(s)
  {
    forall j, x :: 0 <= j < |s.queues| && 0 <= x < |s.queues[j].pushed| ==> Shard(s.queues[j].pushed[x].sid, |s.queues|) == j
  }

  /** Has the flag of queue j been set? */
  predicate StopSent(s: Server, j: nat)
    requires Shape(s) && j < |s.queues|
  {
    match s.main
    case Serving => false
    case Stopping(k) => j < k
    case InStop(k) => j < k || (j == k && s.queues[k].At(|s.queues|).StopNotify?)
    case Joining(k) => j <= k
  }

  predicate StopRecorded(s: Server)
    requires Shape(s)
  {
    forall j :: 0 <= j < |s.queues| ==>
      && s.queues[j].core.stopping == StopSent(s, j)
      && s.atStop[j].Some? == StopSent(s, j)
      && (s.atStop[j].Some? ==> s.atStop[j].value <= |s.queues[j].pushed|)
  }

  /** Consumer i has left its loop: what it handled is what had been pushed by then. */
  predicate ExitRecorded(s: Server, i: nat)
    requires Shape(s) && i < |s.queues|
  {
    && s.atStop[i].Some? && s.atExit[i].Some?
    && s.atStop[i].value <= s.atExit[i].value <= |s.queues[i].pushed|
    && s.handled[i] == s.queues[i].pushed[..s.atExit[i].value]
  }

  /** An internal message that came too late was posted from a higher shard. */
  predicate LateFromAbove(s: Server, i: nat)
    requires Shape(s) && i < |s.queues| && ExitRecorded(s, i)
  {
    forall x :: s.atExit[i].value <= x < |s.queues[i].pushed| && s.queues[i].pushed[x].Internal? ==>
      Shard(s.queues[i].pushed[x].from, |s.queues|) > i
  }

  predicate Exits(s: Server)
    requires Shape(s)
  {
    forall i :: 0 <= i < |s.queues| && s.phases[i].Exited? ==> ExitRecorded(s, i) && LateFromAbove(s, i)
  }

  function Joined(m: MainPhase): nat { if m.Serving? then 0 else m.k }

  predicate JoinedExited(s: Server)
    requires Shape(s)
  {
    forall i :: 0 <= i < Joined(s.main) ==> s.phases[i].Exited?
  }

  ghost predicate Inv(s: Server)
  {
    && Shape(s)
    && (forall j :: 0 <= j < |s.queues| ==> Q.Inv(s.queues[j]))
    && Placed(s) && PostsOnlyForClients(s) && ExactlyOnce(s) && Routed(s)
    && StopRecorded(s) && Exits(s) && JoinedExited(s)
  }

  // ------------------------------------------------------------------ every step keeps it

  /** What one step does to a monitor, as far as the server is concerned. */
  ghost predicate Moves(m: Q.Monitor<ShardMsg>, a: QAction, m': Q.Monitor<ShardMsg>)
  {
    && (forall t: Q.Tid :: t != a.t ==> m'.At(t) == m.At(t) || (m.At(t).Parked? && m'.At(t).Woken?))
    && m'.core.stopping == (m.core.stopping || a.DoStop?)
    && m'.core.items == (if a.DoPush? && m.At(a.t).PushHold? then m.core.items + [m.At(a.t).value]
                         else if a.Take? && m.core.items != [] then m.core.items[1..] else m.core.items)
    && m'.pushed == (if a.DoPush? && m.At(a.t).PushHold? then m.pushed + [m.At(a.t).value] else m.pushed)
    && m'.popped == (if a.Take? && m.core.items != [] then m.popped + [m.core.items[0]] else m.popped)
    && var p, p' := m.At(a.t), m'.At(a.t);
       match a
       case BeginPush(_, v) => p.Outside? && p' == Q.PushHold(v)
       case DoPush(_) => p.PushHold? && p'.PushNotify?
       case NotifyOne(_, _) => p.PushNotify? && p'.Outside?
       case BeginStop(_) => p.Outside? && p'.StopHold?
       case DoStop(_) => p.StopHold? && p'.StopNotify?
       case NotifyAll(_) => p.StopNotify? && p'.Outside?
       case BeginPop(_) => p.Outside? && p'.PopHold?
       case Evaluate(_) => p.PopHold? && (if !m.core.Ready() then p'.Parked? else if m.core.items == [] then p'.Outside? else p'.PopTake?)
       case Take(_) => p.PopTake? && m.core.items != [] && p'.Outside?
       case SpuriousWake(_) => p.Parked? && p'.Woken?
       case Reacquire(_) => p.Woken? && p'.PopHold?
  }

  lemma ApplyMoves(m: Q.Monitor<ShardMsg>, a: QAction)
    requires Q.Enabled(m, a)
    ensures Moves(m, a, Q.Apply(m, a))
  {
  }

  lemma InitInv(n: nat)
    requires n > 0
    ensures Inv(Init(n))
  {
    Q.InitInv<ShardMsg>();
  }

  /** The steps that touch queue q change one monitor by `Moves`; `s'` is the server after. */
  ghost predicate Touches(s: Server, q: nat, a: QAction, s': Server)
  {
    && Inv(s) && q < |s.queues| && |s'.queues| == |s.queues|
    && Moves(s.queues[q], a, s'.queues[q]) && Q.Inv(s'.queues[q])
    && s'.queues == s.queues[q := s'.queues[q]]
    && Fits(s, q, a.t, s.queues[q].At(a.t))
  }

  ghost predicate ExternalStep(s: Server, q: nat, a: QAction, s': Server)
  {
    && Touches(s, q, a, s') && s' == s.(queues := s'.queues) && a.t > |s.queues|
    && (a.DoPush? || a.NotifyOne? || (a.BeginPush? && a.value.Client? && Shard(a.value.sid, |s.queues|) == q))
  }

  ghost predicate PopStep(s: Server, i: nat, a: QAction, s': Server)
  {
    && Touches(s, i, a, s') && a.t == i
    && (if a.BeginPop? then s.phases[i].Polling?
        else (a.Evaluate? || a.Take? || a.SpuriousWake? || a.Reacquire?) && s.phases[i].Popping?)
    && var p := AfterPop(s.queues[i].core, a);
       s' == s.(queues := s'.queues, phases := s.phases[i := p],
                atExit := if p.Exited? then s.atExit[i := Some(|s.queues[i].pushed|)] else s.atExit)
  }

  ghost predicate PostStep(s: Server, i: nat, q: nat, a: QAction, s': Server)
  {
    && Touches(s, q, a, s') && EnabledPost(s, i, q, a)
    && s' == s.(queues := s'.queues, phases := s.phases[i := s.phases[i].(post := AfterPost(s.phases[i].post, q, a))])
  }

  ghost predicate MainStep(s: Server, a: QAction, s': Server)
  {
    && !s.main.Serving? && Touches(s, s.main.k, a, s') && a.t == |s.queues|
    && (if a.BeginStop? then s.main.Stopping? else (a.DoStop? || a.NotifyAll?) && s.main.InStop?)
    && var k := s.main.k;
       s' == s.(queues := s'.queues, main := if a.NotifyAll? then Joining(k) else InStop(k),
                atStop := if a.DoStop? then s.atStop[k := Some(|s.queues[k].pushed|)] else s.atStop)
  }

  lemma ApplyTouches(s: Server, q: nat, a: QAction, s': Server)
    requires Inv(s) && q < |s.queues| && Q.Enabled(s.queues[q], a)
    requires s'.queues == s.queues[q := Q.Apply(s.queues[q], a)]
    ensures Touches(s, q, a, s')
  {
    Q.StepKeepsInv(s.queues[q], a);
    ApplyMoves(s.queues[q], a);
  }

  lemma ExternalKeeps(s: Server, q: nat, a: QAction, s': Server)
    requires ExternalStep(s, q, a, s')
    ensures Inv(s')
  {
    ExternalKeepsPlaced(s, q, a, s');
    ExternalKeepsHistory(s, q, a, s');
    ExternalKeepsStops(s, q, a, s');
    ExternalKeepsExits(s, q, a, s');
  }

  lemma ExternalKeepsPlaced(s: Server, q: nat, a: QAction, s': Server)
    requires ExternalStep(s, q, a, s')
    ensures Shape(s') && Placed(s')
  {
    forall j: nat, t: Q.Tid | j < |s.queues|
      ensures Fits(s', j, t, s'.queues[j].At(t))
    {
      assert Fits(s, j, t, s.queues[j].At(t));
    }
  }

  lemma ExternalKeepsHistory(s: Server, q: nat, a: QAction, s': Server)
    requires ExternalStep(s, q, a, s')
    ensures Shape(s') && PostsOnlyForClients(s') && ExactlyOnce(s') && Routed(s')
  {
  }

  lemma ExternalKeepsStops(s: Server, q: nat, a: QAction, s': Server)
    requires ExternalStep(s, q, a, s')
    ensures Shape(s') && StopRecorded(s') && JoinedExited(s')
  {
  }

  lemma ExternalKeepsExits(s: Server, q: nat, a: QAction, s': Server)
    requires ExternalStep(s, q, a, s')
    ensures Shape(s') && Exits(s')
  {
    forall x | 0 <= x < |s'.queues| && s'.phases[x].Exited?
      ensures ExitRecorded(s', x) && LateFromAbove(s', x)
    {
      if s.phases[x].Exited? {
        assert ExitRecorded(s, x) && LateFromAbove(s, x);
      }
    }
  }

  lemma PopKeeps(s: Server, i: nat, a: QAction, s': Server)
    requires PopStep(s, i, a, s')
    ensures Inv(s')
  {
    PopKeepsPlaced(s, i, a, s');
    PopKeepsHistory(s, i, a, s');
    PopKeepsStops(s, i, a, s');
    PopKeepsExits(s, i, a, s');
  }

  lemma PopKeepsPlaced(s: Server, i: nat, a: QAction, s': Server)
    requires PopStep(s, i, a, s')
    ensures Shape(s') && Placed(s')
  {
    forall j: nat, t: Q.Tid | j < |s.queues|
      ensures Fits(s', j, t, s'.queues[j].At(t))
    {
      assert Fits(s, j, t, s.queues[j].At(t));
    }
  }

  lemma PopKeepsHistory(s: Server, i: nat, a: QAction, s': Server)
    requires PopStep(s, i, a, s')
    ensures Shape(s') && PostsOnlyForClients(s') && ExactlyOnce(s') && Routed(s')
  {
  }

  lemma PopKeepsStops(s: Server, i: nat, a: QAction, s': Server)
    requires PopStep(s, i, a, s')
    ensures Shape(s') && StopRecorded(s') && JoinedExited(s')
  {
  }

  lemma PopKeepsExits(s: Server, i: nat, a: QAction, s': Server)
    requires PopStep(s, i, a, s')
    ensures Shape(s') && Exits(s')
  {
    forall x | 0 <= x < |s'.queues| && s'.phases[x].Exited?
      ensures ExitRecorded(s', x) && LateFromAbove(s', x)
    {
      if s.phases[x].Exited? {
        assert ExitRecorded(s, x) && LateFromAbove(s, x);
      }
    }
  }

  lemma PostKeeps(s: Server, i: nat, q: nat, a: QAction, s': Server)
    requires PostStep(s, i, q, a, s')
    ensures Inv(s')
  {
    PostKeepsPlaced(s, i, q, a, s');
    PostKeepsHistory(s, i, q, a, s');
    PostKeepsStops(s, i, q, a, s');
    PostKeepsExits(s, i, q, a, s');
  }

  lemma PostKeepsPlaced(s: Server, i: nat, q: nat, a: QAction, s': Server)
    requires PostStep(s, i, q, a, s')
    ensures Shape(s') && Placed(s')
  {
    InHandRouted(s, i);
    forall j: nat, t: Q.Tid | j < |s.queues|
      ensures Fits(s', j, t, s'.queues[j].At(t))
    {
      assert Fits(s, j, t, s.queues[j].At(t)) && Fits(s, q, i, s.queues[q].At(i));
      PostKeepsFits(s, i, q, a, s', j, t);
    }
  }

  lemma PostKeepsFits(s: Server, i: nat, q: nat, a: QAction, s': Server, j: nat, t: Q.Tid)
    requires Shape(s) && j < |s.queues| && q < |s.queues|
    requires Fits(s, j, t, s.queues[j].At(t)) && Fits(s, q, i, s.queues[q].At(i))
    requires EnabledPost(s, i, q, a) && Shard(s.phases[i].msg.sid, |s.queues|) == i
    requires |s'.queues| == |s.queues| && s'.queues == s.queues[q := s'.queues[q]] && Moves(s.queues[q], a, s'.queues[q])
    requires s' == s.(queues := s'.queues, phases := s.phases[i := s.phases[i].(post := AfterPost(s.phases[i].post, q, a))])
    ensures Shape(s') && Fits(s', j, t, s'.queues[j].At(t))
  {
    if t == i {
      assert j != q ==> s.queues[j].At(t).Outside?;
    } else {
      assert j != q || s'.queues[j].At(t) == s.queues[j].At(t) || s.queues[j].At(t).Parked?;
    }
  }

  /** What a consumer is handling was routed to it. */
  lemma InHandRouted(s: Server, i: nat)
    requires Inv(s) && i < |s.queues| && s.phases[i].Handling?
    ensures Shard(s.phases[i].msg.sid, |s.queues|) == i
    ensures DealtTo(s.phases[i].msg.sid, |s.queues|, i)
  {
    var m := s.queues[i];
    assert m.pushed[|s.handled[i]|] == s.phases[i].msg by {
      assert m.pushed == s.handled[i] + [s.phases[i].msg] + m.core.items;
    }
    ShardIsDealt(s.phases[i].msg.sid, |s.queues|, i);
  }

  lemma PostKeepsHistory(s: Server, i: nat, q: nat, a: QAction, s': Server)
    requires PostStep(s, i, q, a, s')
    ensures Shape(s') && PostsOnlyForClients(s') && ExactlyOnce(s') && Routed(s')
  {
  }

  lemma PostKeepsStops(s: Server, i: nat, q: nat, a: QAction, s': Server)
    requires PostStep(s, i, q, a, s')
    ensures Shape(s') && StopRecorded(s') && JoinedExited(s')
  {
  }

  lemma PostKeepsExits(s: Server, i: nat, q: nat, a: QAction, s': Server)
    requires PostStep(s, i, q, a, s')
    ensures Shape(s') && Exits(s')
  {
    forall x | 0 <= x < |s'.queues| && s'.phases[x].Exited?
      ensures ExitRecorded(s', x) && LateFromAbove(s', x)
    {
      if s.phases[x].Exited? {
        assert ExitRecorded(s, x) && LateFromAbove(s, x);
      }
    }
  }

  lemma MainStopKeeps(s: Server, a: QAction, s': Server)
    requires MainStep(s, a, s')
    ensures Inv(s')
  {
    MainStopKeepsPlaced(s, a, s');
    MainStopKeepsHistory(s, a, s');
    MainStopKeepsStops(s, a, s');
    MainStopKeepsExits(s, a, s');
  }

  lemma MainStopKeepsPlaced(s: Server, a: QAction, s': Server)
    requires MainStep(s, a, s')
    ensures Shape(s') && Placed(s')
  {
    forall j: nat, t: Q.Tid | j < |s.queues|
      ensures Fits(s', j, t, s'.queues[j].At(t))
    {
      assert Fits(s, j, t, s.queues[j].At(t));
    }
  }

  lemma MainStopKeepsHistory(s: Server, a: QAction, s': Server)
    requires MainStep(s, a, s')
    ensures Shape(s') && PostsOnlyForClients(s') && ExactlyOnce(s') && Routed(s')
  {
  }

  lemma MainStopKeepsStops(s: Server, a: QAction, s': Server)
    requires MainStep(s, a, s')
    ensures Shape(s') && StopRecorded(s') && JoinedExited(s')
  {
  }

  lemma MainStopKeepsExits(s: Server, a: QAction, s': Server)
    requires MainStep(s, a, s')
    ensures Shape(s') && Exits(s')
  {
    forall x | 0 <= x < |s'.queues| && s'.phases[x].Exited?
      ensures ExitRecorded(s', x) && LateFromAbove(s', x)
    {
      if s.phases[x].Exited? {
        assert ExitRecorded(s, x) && LateFromAbove(s, x);
      }
    }
  }

  /** The steps that touch no queue. */
  lemma ThreadOnlyKeeps(s: Server, st: Step)
    requires Inv(s) && Enabled(s, st) && (st.Finish? || st.BeginShutdown? || st.JoinNext?)
    ensures Inv(Apply(s, st))
  {
    ThreadOnlyKeepsPlaced(s, st);
    ThreadOnlyKeepsHistory(s, st);
    ThreadOnlyKeepsExits(s, st);
  }

  lemma ThreadOnlyKeepsPlaced(s: Server, st: Step)
    requires Inv(s) && Enabled(s, st) && (st.Finish? || st.BeginShutdown? || st.JoinNext?)
    ensures Shape(Apply(s, st)) && Placed(Apply(s, st))
  {
    var s' := Apply(s, st);
    forall j: nat, t: Q.Tid | j < |s'.queues|
      ensures Fits(s', j, t, s'.queues[j].At(t))
    {
      assert Fits(s, j, t, s.queues[j].At(t));
    }
  }

  lemma ThreadOnlyKeepsHistory(s: Server, st: Step)
    requires Inv(s) && Enabled(s, st) && (st.Finish? || st.BeginShutdown? || st.JoinNext?)
    ensures var s' := Apply(s, st); Shape(s') && PostsOnlyForClients(s') && ExactlyOnce(s') && Routed(s')
  {
  }

  lemma ThreadOnlyKeepsExits(s: Server, st: Step)
    requires Inv(s) && Enabled(s, st) && (st.Finish? || st.BeginShutdown? || st.JoinNext?)
    ensures var s' := Apply(s, st); Shape(s') && StopRecorded(s') && Exits(s') && JoinedExited(s')
  {
    var s' := Apply(s, st);
    forall x | 0 <= x < |s'.queues| && s'.phases[x].Exited?
      ensures ExitRecorded(s', x) && LateFromAbove(s', x)
    {
      assert ExitRecorded(s, x) && LateFromAbove(s, x);
    }
  }

  lemma StepKeepsInv(s: Server, st: Step)
    requires Inv(s) && Enabled(s, st)
    ensures Inv(Apply(s, st))
  {
    var s' := Apply(s, st);
    match st
    case External(q, a) => ApplyTouches(s, q, a, s'); ExternalKeeps(s, q, a, s');
    case Pop(i, a) => ApplyTouches(s, i, a, s'); PopKeeps(s, i, a, s');
    case Post(i, q, a) => ApplyTouches(s, q, a, s'); PostKeeps(s, i, q, a, s');
    case MainStop(a) => ApplyTouches(s, s.main.k, a, s'); MainStopKeeps(s, a, s');
    case _ => ThreadOnlyKeeps(s, st);
  }
}
