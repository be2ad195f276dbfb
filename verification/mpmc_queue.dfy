/** MPMCQueue.h: a queue under a mutex with one condition variable and a stop flag.

    The class below holds the two guarded fields and has one method for each region that
    runs under the mutex.  The monitor that follows runs those regions for any number of
    producers, consumers and stoppers, one step for every point where threads interleave:
    lock acquisition, the region, the notification sent after unlocking, parking, waking
    (signalled or spurious) and re-acquisition. */
module MpmcQueue {
  import opened Common

  /** What the mutex guards. */
  datatype Core<T> = Core(items: seq<T>, stopping: bool)
  {
    /** The predicate of the wait. */
    predicate Ready() { items != [] || stopping }

    function Push(value: T): Core<T> { this.(items := items + [value]) }

    function Rest(): Core<T> requires items != [] { this.(items := items[1..]) }

    function Stop(): Core<T> { this.(stopping := true) }
  }

  datatype PopOutcome<T> = Taken(value: T) | Closed | MustWait

  class MPMCQueue<T> {
    var items: seq<T>
    var stopping: bool

    ghost function Snapshot(): Core<T> reads this { Core(items, stopping) }

    constructor ()
      ensures Snapshot() == Core([], false)
    {
      items, stopping := [], false;
    }

    method PushLocked(value: T)
      modifies this
      ensures Snapshot() == old(Snapshot()).Push(value)
    {
      items := items + [value];
    }

    /** From holding the mutex to either giving it up in the wait or returning from Pop. */
    method PopLocked() returns (r: PopOutcome<T>)
      modifies this
      ensures r.MustWait? <==> !old(Snapshot()).Ready()
      ensures r.Closed? <==> old(items) == [] && old(stopping)
      ensures r.Taken? ==> r.value == old(items)[0] && Snapshot() == old(Snapshot()).Rest()
      ensures !r.Taken? ==> Snapshot() == old(Snapshot())
    {
      if items == [] && !stopping {
        return MustWait;
      }
      if items == [] {
        return Closed;
      }
      r := Taken(items[0]);
      items := items[1..];
    }

    method StopLocked()
      modifies this
      ensures Snapshot() == old(Snapshot()).Stop()
    {
      stopping := true;
    }
  }

  // ------------------------------------------------------------------ the monitor

  type Tid = nat

  /** Where one thread stands with respect to this queue. */
  datatype Pc<T> =
    | Outside                  // in none of the queue's methods
    | PushHold(value: T)       // Push: owns the mutex, about to append
    | PushNotify               // Push: mutex released, notify_one still to come
    | StopHold                 // Stop: owns the mutex, about to set the flag
    | StopNotify               // Stop: mutex released, notify_all still to come
    | PopHold(woken: bool)     // Pop: owns the mutex, about to test the predicate
    | PopTake(woken: bool)     // Pop: predicate held and there is an item, about to take it
    | Parked                   // Pop: waiting on the condition variable
    | Woken                    // Pop: left the wait, has to re-acquire the mutex
  {
    predicate Holds() { PushHold? || StopHold? || PopHold? || PopTake? }

    /** Left the wait and has not yet parked again or returned. */
    predicate Awake() { Woken? || (PopHold? && woken) || (PopTake? && woken) }
  }

  /** `pushed` and `popped` record the order in which items went in and came out. */
  datatype Monitor<T> = Monitor(core: Core<T>, owner: Option<Tid>, pc: map<Tid, Pc<T>>,
                                pushed: seq<T>, popped: seq<T>)
  {
    function At(t: Tid): Pc<T> { if t in pc then pc[t] else Outside }

    function Move(t: Tid, p: Pc<T>): Monitor<T> { this.(pc := pc[t := p]) }

    function WakeAll(): map<Tid, Pc<T>> { map t | t in pc :: if pc[t].Parked? then Woken else pc[t] }

    ghost function Notifiers(): set<Tid> { set t | t in pc && pc[t].PushNotify? }

    ghost function AwakeThreads(): set<Tid> { set t | t in pc && pc[t].Awake() }

    ghost predicate SomeParked() { exists t: Tid :: At(t).Parked? }
  }

  function Init<T>(): Monitor<T> { Monitor(Core([], false), None, map[], [], []) }

  datatype Action<T> =
    | BeginPush(t: Tid, value: T)                // lock the mutex in Push
    | DoPush(t: Tid)                             // append and unlock
    | NotifyOne(t: Tid, chosen: Option<Tid>)     // wake one waiter, if there is one
    | BeginStop(t: Tid)
    | DoStop(t: Tid)
    | NotifyAll(t: Tid)
    | BeginPop(t: Tid)                           // lock the mutex in Pop
    | Evaluate(t: Tid)                           // test the predicate: take, return false or park
    | Take(t: Tid)                               // take the front, unlock and return true
    | SpuriousWake(t: Tid)
    | Reacquire(t: Tid)                          // lock the mutex again after a wake

  ghost predicate Enabled<T(!new)>(m: Monitor<T>, a: Action<T>)
  {
    match a
    case BeginPush(t, v) => m.At(t).Outside? && m.owner.None?
    case DoPush(t) => m.At(t).PushHold?
    case NotifyOne(t, chosen) =>
      m.At(t).PushNotify? && (if m.SomeParked() then chosen.Some? && m.At(chosen.value).Parked? else chosen.None?)
    case BeginStop(t) => m.At(t).Outside? && m.owner.None?
    case DoStop(t) => m.At(t).StopHold?
    case NotifyAll(t) => m.At(t).StopNotify?
    case BeginPop(t) => m.At(t).Outside? && m.owner.None?
    case Evaluate(t) => m.At(t).PopHold?
    case Take(t) => m.At(t).PopTake? && m.core.items != []
    case SpuriousWake(t) => m.At(t).Parked?
    case Reacquire(t) => m.At(t).Woken? && m.owner.None?
  }

  ghost function Apply<T(!new)>(m: Monitor<T>, a: Action<T>): Monitor<T>
    requires Enabled(m, a)
  {
    match a
    case BeginPush(t, v) => m.Move(t, PushHold(v)).(owner := Some(t))
    case DoPush(t) =>
      var v := m.At(t).value;
      m.Move(t, PushNotify).(owner := None, core := m.core.Push(v), pushed := m.pushed + [v])
    case NotifyOne(t, chosen) =>
      var m' := m.Move(t, Outside);
      if chosen.Some? then m'.Move(chosen.value, Woken) else m'
    case BeginStop(t) => m.Move(t, StopHold).(owner := Some(t))
    case DoStop(t) => m.Move(t, StopNotify).(owner := None, core := m.core.Stop())
    case NotifyAll(t) => m.(pc := m.WakeAll()).Move(t, Outside)
    case BeginPop(t) => m.Move(t, PopHold(false)).(owner := Some(t))
    case Evaluate(t) =>
      if m.core.items != [] then m.Move(t, PopTake(m.At(t).woken))
      else if m.core.stopping then m.Move(t, Outside).(owner := None)
      else m.Move(t, Parked).(owner := None)
    case Take(t) =>
      m.Move(t, Outside).(owner := None, core := m.core.Rest(),
                          popped := m.popped + [m.core.items[0]])
    case SpuriousWake(t) => m.Move(t, Woken)
    case Reacquire(t) => m.Move(t, PopHold(true)).(owner := Some(t))
  }

  // ------------------------------------------------------------------ the invariant

  /** The mutex belongs to exactly the thread that is inside a locked region. */
  ghost predicate Exclusive<T(!new)>(m: Monitor<T>)
  {
    forall t: Tid :: m.At(t).Holds() <==> m.owner == Some(t)
  }

  /** While somebody is parked, every queued item has a notification or a woken thread
      coming for it; once stop is set, notify_all is still to come. */
  ghost predicate NoLostWakeup<T(!new)>(m: Monitor<T>)
  {
    m.SomeParked() ==>
      if m.core.stopping then exists t: Tid :: m.At(t).StopNotify?
      else |m.core.items| <= |m.Notifiers()| + |m.AwakeThreads()|
  }

  ghost predicate Inv<T(!new)>(m: Monitor<T>)
  {
    && Exclusive(m)
    && (forall t: Tid :: m.At(t).PopTake? ==> m.core.items != [])
    && m.popped + m.core.items == m.pushed
    && NoLostWakeup(m)
  }

  lemma MoveCounts<T(!new)>(m: Monitor<T>, t: Tid, p: Pc<T>)
    ensures |m.Move(t, p).Notifiers()| ==
            |m.Notifiers()| - (if m.At(t).PushNotify? then 1 else 0) + (if p.PushNotify? then 1 else 0)
    ensures |m.Move(t, p).AwakeThreads()| ==
            |m.AwakeThreads()| - (if m.At(t).Awake() then 1 else 0) + (if p.Awake() then 1 else 0)
  {
    SetMove(m.Notifiers(), m.Move(t, p).Notifiers(), t);
    SetMove(m.AwakeThreads(), m.Move(t, p).AwakeThreads(), t);
  }

  lemma SetMove(before: set<Tid>, after: set<Tid>, t: Tid)
    requires forall u :: u != t ==> (u in before <==> u in after)
    ensures |after| == |before| - (if t in before then 1 else 0) + (if t in after then 1 else 0)
  {
    assert after - {t} == before - {t};
    assert t in before ==> before == (before - {t}) + {t};
    assert t in after ==> after == (after - {t}) + {t};
    assert t !in before ==> before == before - {t};
    assert t !in after ==> after == after - {t};
  }

  lemma InitInv<T(!new)>()
    ensures Inv(Init<T>())
  {
  }

  lemma StepKeepsInv<T(!new)>(m: Monitor<T>, a: Action<T>)
    requires Inv(m) && Enabled(m, a)
    ensures Inv(Apply(m, a))
  {
    StepKeepsExclusive(m, a);
    StepKeepsNoLostWakeup(m, a);
  }

  lemma StepKeepsExclusive<T(!new)>(m: Monitor<T>, a: Action<T>)
    requires Inv(m) && Enabled(m, a)
    ensures var m' := Apply(m, a);
            Exclusive(m') && (forall t: Tid :: m'.At(t).PopTake? ==> m'.core.items != [])
            && m'.popped + m'.core.items == m'.pushed
  {
    assert m.At(a.t).Holds() <==> m.owner == Some(a.t);
  }

  lemma StepKeepsNoLostWakeup<T(!new)>(m: Monitor<T>, a: Action<T>)
    requires Inv(m) && Enabled(m, a)
    ensures NoLostWakeup(Apply(m, a))
  {
    var m' := Apply(m, a);
    if m'.SomeParked() {
      var w: Tid :| m'.At(w).Parked?;
      assert !a.NotifyAll?;
      if m'.core.stopping {
        StopStillPending(m, a, w);
      } else if a.Evaluate? {
        EvaluateKeepsBalance(m, a);
      } else {
        assert m.At(w).Parked?;
        assert m.SomeParked() && !m.core.stopping;
        StepKeepsBalance(m, a);
      }
    }
  }

  /** How many queued items have nobody coming for them (negative when there are spare wake-ups). */
  ghost function Unserved<T(!new)>(m: Monitor<T>): int { |m.core.items| - |m.Notifiers()| - |m.AwakeThreads()| }

  /** While somebody is parked no step but the test of the predicate leaves more items unserved. */
  lemma StepKeepsBalance<T(!new)>(m: Monitor<T>, a: Action<T>)
    requires Enabled(m, a) && m.SomeParked() && !a.Evaluate?
    ensures Unserved(Apply(m, a)) <= Unserved(m)
  {
    var m' := Apply(m, a);
    if a.NotifyOne? {
      var one := m.Move(a.t, Outside);
      MoveCounts(m, a.t, Outside);
      MoveCounts(one, a.chosen.value, Woken);
      assert one.At(a.chosen.value).Parked?;
    } else if a.NotifyAll? {
      AllWoken(m, a.t);
    } else {
      MoveCounts(m, a.t, m'.At(a.t));
      SamePc(m', m.Move(a.t, m'.At(a.t)));
    }
  }

  lemma AllWoken<T(!new)>(m: Monitor<T>, t: Tid)
    requires m.At(t).StopNotify?
    ensures var m' := m.(pc := m.WakeAll()).Move(t, Outside);
            m'.Notifiers() == m.Notifiers() && |m.AwakeThreads()| <= |m'.AwakeThreads()|
  {
    var before, after := m.AwakeThreads(), m.(pc := m.WakeAll()).Move(t, Outside).AwakeThreads();
    assert after == before + (after - before);
  }

  lemma EvaluateKeepsBalance<T(!new)>(m: Monitor<T>, a: Action<T>)
    requires Inv(m) && Enabled(m, a) && a.Evaluate? && Apply(m, a).SomeParked() && !Apply(m, a).core.stopping
    ensures Unserved(Apply(m, a)) <= 0
  {
    var m' := Apply(m, a);
    if m.core.items != [] {
      var w: Tid :| m'.At(w).Parked?;
      assert m.At(w).Parked?;
      assert m.SomeParked();
      MoveCounts(m, a.t, m'.At(a.t));
      SamePc(m', m.Move(a.t, m'.At(a.t)));
    }
  }

  lemma SamePc<T(!new)>(m: Monitor<T>, m': Monitor<T>)
    requires m.pc == m'.pc
    ensures m.Notifiers() == m'.Notifiers() && m.AwakeThreads() == m'.AwakeThreads()
  {
  }

  lemma StopStillPending<T(!new)>(m: Monitor<T>, a: Action<T>, w: Tid)
    requires Inv(m) && Enabled(m, a) && Apply(m, a).At(w).Parked? && Apply(m, a).core.stopping
    ensures exists t: Tid :: Apply(m, a).At(t).StopNotify?
  {
    if a.DoStop? {
      assert Apply(m, a).At(a.t).StopNotify?;
    } else {
      assert m.At(w).Parked?;
      var t: Tid :| m.At(t).StopNotify?;
      assert Apply(m, a).At(t).StopNotify?;
    }
  }

  // ------------------------------------------------------------------ what follows

  /** Every state of a run from the empty queue. */
  ghost predicate IsRun<T(!new)>(run: seq<Monitor<T>>)
  {
    && run != [] && run[0] == Init()
    && forall i :: 0 <= i < |run| - 1 ==> StepsTo(run[i], run[i + 1])
  }

  ghost predicate StepsTo<T(!new)>(m: Monitor<T>, m': Monitor<T>)
  {
    exists a :: Enabled(m, a) && m' == Apply(m, a)
  }

  lemma {:induction false} RunKeepsInv<T(!new)>(run: seq<Monitor<T>>, i: nat)
    requires IsRun(run) && i < |run|
    ensures Inv(run[i])
  {
    if i == 0 {
      InitInv<T>();
    } else {
      RunKeepsInv(run, i - 1);
      assert StepsTo(run[i - 1], run[i - 1 + 1]);
      var a :| Enabled(run[i - 1], a) && run[i] == Apply(run[i - 1], a);
      StepKeepsInv(run[i - 1], a);
    }
  }

  /** Nobody is inside a method other than waiting. */
  ghost predicate Quiescent<T(!new)>(m: Monitor<T>)
  {
    forall t: Tid :: m.At(t).Outside? || m.At(t).Parked?
  }

  /** A quiescent state never has a waiter beside an item or a stop request. */
  lemma NoWaiterLeftBehind<T(!new)>(run: seq<Monitor<T>>, i: nat)
    requires IsRun(run) && i < |run|
    ensures var m := run[i];
            Quiescent(m) && m.SomeParked() ==> m.core.items == [] && !m.core.stopping
  {
    RunKeepsInv(run, i);
    var m := run[i];
    if Quiescent(m) {
      assert forall t :: t in m.pc ==> m.At(t) == m.pc[t];
      assert m.Notifiers() == {} && m.AwakeThreads() == {};
    }
  }

  /** The queue is never stuck: a thread in the middle of a method, other than a parked
      one, always leaves some non-spurious step enabled. */
  lemma NeverStuck<T(!new)>(m: Monitor<T>, t: Tid) returns (a: Action<T>)
    requires Inv(m) && !m.At(t).Outside? && !m.At(t).Parked?
    ensures Enabled(m, a) && !a.SpuriousWake?
    ensures !m.At(a.t).Outside?
  {
    var u := if m.owner.Some? then m.owner.value else t;
    match m.At(u)
    case PushHold(_) => a := DoPush(u);
    case PushNotify =>
      if m.SomeParked() {
        var w: Tid :| m.At(w).Parked?;
        a := NotifyOne(u, Some(w));
      } else {
        a := NotifyOne(u, None);
      }
    case StopHold => a := DoStop(u);
    case StopNotify => a := NotifyAll(u);
    case PopHold(_) => a := Evaluate(u);
    case PopTake(_) => a := Take(u);
    case Woken => a := Reacquire(u);
    case _ => assert false;
  }
}
