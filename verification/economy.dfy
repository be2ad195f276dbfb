/** Gold, items and enhancement: Consumer::RewardChat and Consumer::HandleEnhance over the
    transactions of Database.cpp, with the ranking updates they send. */
module Economy {
  import opened Common
  import opened Doubles
  import opened Rankings

  /** A row of `items`; the id is the position in the table, rows are never removed. */
  datatype Item = Item(owner: UserId, level: nat, power: nat)

  /** The tables `users` and `items`. */
  datatype State = State(gold: map<UserId, nat>, items: seq<Item>)

  function Gold(s: State, u: UserId): nat { if u in s.gold then s.gold[u] else 0 }

  /** SUM(power) over the items of u. */
  function TotalPower(items: seq<Item>, u: UserId): nat
  {
    if items == [] then 0
    else TotalPower(items[..|items| - 1], u) + (if items[|items| - 1].owner == u then items[|items| - 1].power else 0)
  }

  // ------------------------------------------------------------------ prices

  function Cost(level: nat): nat { 100 * (level + 1) }

  function Rate(level: nat): (r: nat)
    ensures 20 <= r <= 100
  {
    if 100 - 5 * level > 20 then 100 - 5 * level else 20
  }

  /** The success rate never rises with the level, and no level is out of reach. */
  lemma RateFalls(low: nat, high: nat)
    requires low <= high
    ensures 20 <= Rate(high) <= Rate(low) <= 100
  {
  }

  /** What reaching a level costs when every attempt succeeds. */
  function Price(level: nat): nat { 50 * (level * (level + 1)) }

  lemma PriceStep(level: nat)
    ensures Price(level + 1) == Price(level) + Cost(level)
  {
    assert (level + 1) * (level + 2) == level * (level + 1) + 2 * (level + 1);
  }

  // ------------------------------------------------------------------ the transactions

  datatype Fault = NoFault | BeforeCommit | AfterCommit

  /** What happens to the database and, with `ok`, whether the ranking update gets through.
      `seen` is the level an attempt has read before; cost and rate go by it. */
  datatype Event =
    | Chat(user: UserId, reward: nat, fault: Fault)
    | Drop(user: UserId, power: nat, fault: Fault, ok: bool)
    | Enhance(user: UserId, itemId: nat, seen: nat, roll: nat, newPower: nat, fault: Fault, ok: bool)

  predicate InRange(e: Event)
  {
    (e.Chat? ==> 1 <= e.reward <= 10) && (e.Enhance? ==> 1 <= e.roll <= 100)
  }

  datatype Outcome = NoSuchItem | NoGold | Lost | Won

  /** The outcome of an attempt whose transaction commits. */
  function Attempt(s: State, user: UserId, itemId: nat, seen: nat, roll: nat): (r: Outcome)
    ensures r.Won? || r.Lost? ==> itemId < |s.items| && s.items[itemId].owner == user && Cost(seen) <= Gold(s, user)
  {
    if user !in s.gold || s.gold[user] < Cost(seen) then NoGold
    else if itemId >= |s.items| || s.items[itemId].owner != user then NoSuchItem
    else if roll <= Rate(seen) then Won
    else Lost
  }

  /** The outcome of an event that is an attempt on item `id`, if it has one. */
  function OutcomeOn(s: State, e: Event, id: nat): Option<Outcome>
  {
    if e.Enhance? && e.itemId == id && !e.fault.BeforeCommit? then Some(Attempt(s, e.user, id, e.seen, e.roll)) else None
  }

  predicate Wins(s: State, e: Event, id: nat) { OutcomeOn(s, e, id) == Some(Won) }
  predicate Loses(s: State, e: Event, id: nat) { OutcomeOn(s, e, id) == Some(Lost) }

  function Apply(s: State, e: Event): (r: State)
  {
    if e.fault.BeforeCommit? then s
    else match e
      case Chat(u, reward, _) => if u in s.gold then s.(gold := s.gold[u := s.gold[u] + reward]) else s
      case Drop(u, power, _, _) => s.(items := s.items + [Item(u, 0, power)])
      case Enhance(u, id, seen, roll, newPower, _, _) =>
        match Attempt(s, u, id, seen, roll)
        case Won =>
          State(s.gold[u := s.gold[u] - Cost(seen)], s.items[id := Item(u, s.items[id].level + 1, newPower)])
        case Lost => s.(gold := s.gold[u := s.gold[u] - Cost(seen)])
        case _ => s
  }

  /** The tables after a run of events. */
  function After(s: State, log: seq<Event>): State
  {
    if log == [] then s else Apply(After(s, log[..|log| - 1]), log[|log| - 1])
  }

  /** An attempt that has read level `seen`, by an owner with enough gold: the price of the next
      level is charged, and the roll wins exactly up to 100 less five for each of the first 16
      levels.  Without the gold nothing happens. */
  predicate DecidedByRoll(now: State, later: State, reply: Outcome, user: UserId, id: nat, seen: nat, roll: nat, newPower: nat)
    requires id < |now.items| && now.items[id].owner == user
  {
    if user in now.gold && now.gold[user] >= 100 * (seen + 1) then
      && later.gold == now.gold[user := now.gold[user] - 100 * (seen + 1)]
      && if roll <= 100 - 5 * (if seen < 16 then seen else 16) then
           reply == Won && later.items == now.items[id := Item(user, now.items[id].level + 1, newPower)]
         else
           reply == Lost && later.items == now.items
    else
      reply == NoGold && later == now
  }

  lemma AttemptDecides(now: State, e: Event)
    requires e.Enhance? && e.fault.NoFault? && e.itemId < |now.items| && now.items[e.itemId].owner == e.user
    ensures var outcome := Attempt(now, e.user, e.itemId, e.seen, e.roll);
            DecidedByRoll(now, Apply(now, e), outcome, e.user, e.itemId, e.seen, e.roll, e.newPower)
  {
  }

  /** Of the rolls 1 to 100 exactly 100 - 5 * m win for an owner with enough gold, m being the level
      read but at most 16; every other roll loses. */
  lemma WinningRolls(now: State, user: UserId, id: nat, seen: nat, rolls: set<int>)
    requires forall roll :: roll in rolls <==> 1 <= roll <= 100
    requires id < |now.items| && now.items[id].owner == user && user in now.gold && now.gold[user] >= 100 * (seen + 1)
    ensures var m := if seen < 16 then seen else 16;
            |set roll | roll in rolls && Attempt(now, user, id, seen, roll).Won?| == 100 - 5 * m
    ensures forall roll :: roll in rolls && !Attempt(now, user, id, seen, roll).Won? ==>
              Attempt(now, user, id, seen, roll).Lost?
  {
    var m := if seen < 16 then seen else 16;
    var winning := Interval(1, 101 - 5 * m);
    assert (set roll | roll in rolls && Attempt(now, user, id, seen, roll).Won?) == winning;
  }

  /** The database as a pair of tables updated by transactions. */
  class Database {
    var gold: map<UserId, nat>
    var items: seq<Item>

    ghost function Tables(): State reads this { State(gold, items) }

    constructor (s: State)
      ensures Tables() == s
    {
      gold, items := s.gold, s.items;
    }

    /** The row of an item the user owns. */
    method GetItem(userId: UserId, itemId: nat) returns (item: Option<Item>)
      ensures item == if itemId < |items| && items[itemId].owner == userId then Some(items[itemId]) else None
    {
      if itemId < |items| && items[itemId].owner == userId {
        return Some(items[itemId]);
      }
      item := None;
    }

    /** UPDATE users ... WHERE gold >= cost; UPDATE items ... WHERE owner_id; one transaction. */
    method EnhanceItem(userId: UserId, itemId: nat, cost: nat, success: bool, newPower: nat)
      returns (status: Outcome, total: nat)
      modifies this
      ensures status.NoGold? <==> userId !in old(gold) || old(gold)[userId] < cost
      ensures status.NoSuchItem? <==> !status.NoGold? && !(itemId < |old(items)| && old(items)[itemId].owner == userId)
      ensures status.NoGold? || status.NoSuchItem? ==> Tables() == old(Tables())
      ensures !(status.NoGold? || status.NoSuchItem?) ==>
                && status == (if success then Won else Lost)
                && gold == old(gold)[userId := old(gold)[userId] - cost]
                && items == (if success then old(items)[itemId := Item(userId, old(items)[itemId].level + 1, newPower)] else old(items))
                && total == TotalPower(items, userId)
    {
      total := 0;
      if userId !in gold || gold[userId] < cost {
        return NoGold, 0;
      }
      if itemId >= |items| || items[itemId].owner != userId {
        return NoSuchItem, 0;
      }
      gold := gold[userId := gold[userId] - cost];
      if success {
        items := items[itemId := Item(userId, items[itemId].level + 1, newPower)];
      }
      total := SumPower(userId);
      status := if success then Won else Lost;
    }

    method SumPower(userId: UserId) returns (total: nat)
      ensures total == TotalPower(items, userId)
    {
      total := 0;
      for i := 0 to |items|
        invariant total == TotalPower(items[..i], userId)
      {
        assert items[..i + 1][..i] == items[..i];
        if items[i].owner == userId {
          total := total + items[i].power;
        }
      }
      assert items[..|items|] == items;
    }

    /** Throws when there is no such user. */
    method AddGold(userId: UserId, amount: nat) returns (found: bool)
      modifies this`gold
      ensures found == (userId in old(gold))
      ensures gold == if userId in old(gold) then old(gold)[userId := old(gold)[userId] + amount] else old(gold)
    {
      found := userId in gold;
      if found {
        gold := gold[userId := gold[userId] + amount];
      }
    }

    method DropItem(userId: UserId, power: nat) returns (total: nat)
      modifies this`items
      ensures items == old(items) + [Item(userId, 0, power)] && total == TotalPower(items, userId)
    {
      items := items + [Item(userId, 0, power)];
      total := SumPower(userId);
    }
  }

  /** Whether an event sends a ranking update: after a drop and after a won attempt that
      returned. */
  predicate Sends(s: State, e: Event)
  {
    e.fault.NoFault? && (e.Drop? || (e.Enhance? && Wins(s, e, e.itemId)))
  }

  /** Where the scores stand after an event: an update carries the user's new total. */
  function AfterEvent(scores: Scores, s: State, e: Event): Scores
  {
    if Sends(s, e) then AfterUpdate(scores, e.user, TotalPower(Apply(s, e).items, e.user), e.ok) else scores
  }

  function ScoresAfter(z: Scores, s: State, log: seq<Event>): Scores
  {
    if log == [] then z
    else AfterEvent(ScoresAfter(z, s, log[..|log| - 1]), After(s, log[..|log| - 1]), log[|log| - 1])
  }

  class Consumer {
    const db: Database
    const ranking: Ranking

    constructor (db: Database, ranking: Ranking)
      ensures this.db == db && this.ranking == ranking
    {
      this.db, this.ranking := db, ranking;
    }

    /** What the other consumers do in the meantime. */
    method Others(events: seq<Event>)
      modifies db, ranking`scores
      ensures db.Tables() == After(old(db.Tables()), events)
      ensures ranking.scores == ScoresAfter(old(ranking.scores), old(db.Tables()), events)
    {
      var s := After(State(db.gold, db.items), events);
      ranking.scores := ScoresAfter(ranking.scores, State(db.gold, db.items), events);
      db.gold, db.items := s.gold, s.items;
    }

    /** "/i enh <itemId>".  The level is read in one transaction and paid for in another; `between`
        is what others commit in between.  `roll`, `newPower` and the failures come from outside. */
    method HandleEnhance(userId: UserId, itemId: nat, roll: nat, newPower: nat, between: seq<Event>, fault: Fault, ok: bool)
      returns (reply: Option<Outcome>)
      modifies db, ranking`scores
      ensures var s, z := old(db.Tables()), old(ranking.scores);
              if itemId < |s.items| && s.items[itemId].owner == userId then
                var e := Enhance(userId, itemId, s.items[itemId].level, roll, newPower, fault, ok);
                && db.Tables() == After(s, between + [e])
                && ranking.scores == ScoresAfter(z, s, between + [e])
                && reply == if fault.NoFault? then OutcomeOn(After(s, between), e, itemId) else None
              else
                db.Tables() == s && ranking.scores == z && reply == Some(NoSuchItem)
      ensures var s := old(db.Tables());
              itemId < |s.items| && s.items[itemId].owner == userId && fault.NoFault? ==>
                var now := After(s, between);
                && itemId < |now.items| && now.items[itemId].owner == userId && reply.Some?
                && DecidedByRoll(now, db.Tables(), reply.value, userId, itemId, s.items[itemId].level, roll, newPower)
    {
      var item := db.GetItem(userId, itemId);
      if item.None? {
        return Some(NoSuchItem);
      }
      var cost := 100 * (item.value.level + 1);
      var rate := if 100 - item.value.level * 5 > 20 then 100 - item.value.level * 5 else 20;
      var success := roll <= rate;
      ghost var e := Enhance(userId, itemId, item.value.level, roll, newPower, fault, ok);
      assert (between + [e])[..|between + [e]| - 1] == between;
      OwnersStay(db.Tables(), between, itemId);
      if fault.NoFault? {
        AttemptDecides(After(db.Tables(), between), e);
      }
      Others(between);
      reply := None;
      if fault.BeforeCommit? {
        return;
      }
      var status, total := db.EnhanceItem(userId, itemId, cost, success, newPower);
      if fault.AfterCommit? {
        return;
      }
      reply := Some(status);
      if status.Won? {
        ranking.Update(userId, total, ok);
      }
    }

    /** The reward of a chat line: gold, and an item when `dropped`. */
    method RewardChat(userId: UserId, gold: nat, goldFault: Fault, dropped: bool, power: nat, dropFault: Fault, ok: bool)
      modifies db, ranking`scores
      ensures var s1 := Apply(old(db.Tables()), Chat(userId, gold, goldFault));
              var e2 := Drop(userId, power, dropFault, ok);
              if goldFault.NoFault? && userId in old(db.gold) && dropped then
                db.Tables() == Apply(s1, e2) && ranking.scores == AfterEvent(old(ranking.scores), s1, e2)
              else
                db.Tables() == s1 && ranking.scores == old(ranking.scores)
      ensures goldFault.NoFault? && userId in old(db.gold) ==> db.gold == old(db.gold)[userId := old(db.gold)[userId] + gold]
      ensures goldFault.NoFault? && userId in old(db.gold) && dropFault.NoFault? ==>
                db.items == if dropped then old(db.items) + [Item(userId, 0, power)] else old(db.items)
    {
      if goldFault.BeforeCommit? {
        return;
      }
      var found := db.AddGold(userId, gold);
      if !found || goldFault.AfterCommit? || !dropped || dropFault.BeforeCommit? {
        return;
      }
      var total := db.DropItem(userId, power);
      if dropFault.AfterCommit? {
        return;
      }
      ranking.Update(userId, total, ok);
    }
  }

  // ------------------------------------------------------------------ the ledger

  /** What one event pays to u. */
  function Pays(s: State, e: Event, u: UserId): nat
  {
    if e.Chat? && e.user == u && !e.fault.BeforeCommit? && u in s.gold then e.reward else 0
  }

  /** What one event charges for item `id`. */
  function Charges(s: State, e: Event, id: nat): nat
  {
    if Wins(s, e, id) || Loses(s, e, id) then Cost(e.seen) else 0
  }

  /** What one event charges u, whatever for. */
  function ChargesUser(s: State, e: Event, u: UserId): nat
  {
    if e.Enhance? && e.user == u then Charges(s, e, e.itemId) else 0
  }

  /** The part of it that bought nothing. */
  function Wastes(s: State, e: Event, id: nat): nat { if Loses(s, e, id) then Cost(e.seen) else 0 }

  function Paid(s: State, log: seq<Event>, u: UserId): nat
  {
    if log == [] then 0
    else Paid(s, log[..|log| - 1], u) + Pays(After(s, log[..|log| - 1]), log[|log| - 1], u)
  }

  function Charged(s: State, log: seq<Event>, u: UserId): nat
  {
    if log == [] then 0
    else Charged(s, log[..|log| - 1], u) + ChargesUser(After(s, log[..|log| - 1]), log[|log| - 1], u)
  }

  function ChargedFor(s: State, log: seq<Event>, id: nat): nat
  {
    if log == [] then 0
    else ChargedFor(s, log[..|log| - 1], id) + Charges(After(s, log[..|log| - 1]), log[|log| - 1], id)
  }

  function Wasted(s: State, log: seq<Event>, id: nat): nat
  {
    if log == [] then 0
    else Wasted(s, log[..|log| - 1], id) + Wastes(After(s, log[..|log| - 1]), log[|log| - 1], id)
  }

  function Chats(log: seq<Event>, u: UserId): nat
  {
    if log == [] then 0
    else Chats(log[..|log| - 1], u) + (if log[|log| - 1].Chat? && log[|log| - 1].user == u then 1 else 0)
  }

  /** The level of an item; 0, the level it will be dropped at, while it does not exist. */
  function LevelOf(s: State, id: nat): nat { if id < |s.items| then s.items[id].level else 0 }

  /** Gold is what there was, plus what was paid, minus what was charged; it never goes below
      zero because it is a natural number in every reachable state. */
  lemma {:induction false} GoldBalances(s: State, log: seq<Event>, u: UserId)
    ensures Gold(After(s, log), u) + Charged(s, log, u) == Gold(s, u) + Paid(s, log, u)
  {
    if log != [] {
      GoldBalances(s, log[..|log| - 1], u);
    }
  }

  lemma {:induction false} PaidAtMostTen(s: State, log: seq<Event>, u: UserId)
    requires forall i :: 0 <= i < |log| ==> InRange(log[i])
    ensures Paid(s, log, u) <= 10 * Chats(log, u)
  {
    if log != [] {
      PaidAtMostTen(s, log[..|log| - 1], u);
    }
  }

  // ------------------------------------------------------------------ what a level costs

  /** How often an attempt on the item is won. */
  function WinsOn(s: State, log: seq<Event>, id: nat): nat
  {
    if log == [] then 0
    else WinsOn(s, log[..|log| - 1], id) + (if Wins(After(s, log[..|log| - 1]), log[|log| - 1], id) then 1 else 0)
  }

  /** The level counts the won attempts.  So a level that was read is still the level when it is
      paid for exactly when no attempt on the item was won in between. */
  lemma {:induction false} LevelCountsWins(s: State, log: seq<Event>, id: nat)
    ensures LevelOf(After(s, log), id) == LevelOf(s, id) + WinsOn(s, log, id)
    ensures |s.items| <= |After(s, log).items|
  {
    if log != [] {
      LevelCountsWins(s, log[..|log| - 1], id);
    }
  }

  /** No attempt has read a level that the item had not reached. */
  ghost predicate Causal(s: State, log: seq<Event>)
  {
    log != [] ==>
      && Causal(s, log[..|log| - 1])
      && (log[|log| - 1].Enhance? ==> log[|log| - 1].seen <= LevelOf(After(s, log[..|log| - 1]), log[|log| - 1].itemId))
  }

  /** Every won attempt on the item paid for the level the item then had. */
  ghost predicate Fresh(s: State, log: seq<Event>, id: nat)
  {
    log != [] ==>
      && Fresh(s, log[..|log| - 1], id)
      && var now, e := After(s, log[..|log| - 1]), log[|log| - 1];
         (Wins(now, e, id) ==> e.seen == LevelOf(now, id))
  }

  /** By how much one event underpaid: the price of the level it bought less what it was charged. */
  function Saves(s: State, e: Event, id: nat): int
  {
    if Wins(s, e, id) then Cost(LevelOf(s, id)) - Cost(e.seen) else 0
  }

  function Saved(s: State, log: seq<Event>, id: nat): int
  {
    if log == [] then 0
    else Saved(s, log[..|log| - 1], id) + Saves(After(s, log[..|log| - 1]), log[|log| - 1], id)
  }

  /** What has been charged for an item is the price of the levels gained, plus what failed
      attempts wasted, less what attempts saved that had read an earlier level. */
  lemma {:induction false} LevelsArePaidFor(s: State, log: seq<Event>, id: nat)
    ensures Price(LevelOf(s, id)) + ChargedFor(s, log, id) + Saved(s, log, id) ==
            Price(LevelOf(After(s, log), id)) + Wasted(s, log, id)
  {
    if log != [] {
      LevelsArePaidFor(s, log[..|log| - 1], id);
      PriceStep(LevelOf(After(s, log[..|log| - 1]), id));
    }
  }

  lemma {:induction false} FreshSavesNothing(s: State, log: seq<Event>, id: nat)
    ensures Fresh(s, log, id) ==> Saved(s, log, id) == 0
    ensures Causal(s, log) ==> Saved(s, log, id) >= 0 && (Saved(s, log, id) == 0 ==> Fresh(s, log, id))
  {
    if log != [] {
      FreshSavesNothing(s, log[..|log| - 1], id);
    }
  }

  /** The price law, that an item has been charged exactly the price of its levels and what was
      wasted, holds over a run if and only if every won attempt on it paid for the level the item
      then had. */
  lemma PriceLawExactly(s: State, log: seq<Event>, id: nat)
    requires Causal(s, log)
    ensures Price(LevelOf(s, id)) + ChargedFor(s, log, id) == Price(LevelOf(After(s, log), id)) + Wasted(s, log, id) <==>
            Fresh(s, log, id)
  {
    LevelsArePaidFor(s, log, id);
    FreshSavesNothing(s, log, id);
  }

  /** Two attempts that have both read level 0 bring an item to level 2 for 200 gold instead
      of 300. */
  lemma TwoAttemptsAtOnce(s: State, log: seq<Event>)
    requires s == State(map[7 := 200], [Item(7, 0, 10)])
    requires log == [Enhance(7, 0, 0, 1, 12, NoFault, true), Enhance(7, 0, 0, 1, 14, NoFault, true)]
    ensures Causal(s, log) && !Fresh(s, log, 0)
    ensures LevelOf(After(s, log), 0) == 2 && ChargedFor(s, log, 0) == 200 && Price(2) == 300
  {
    var one := log[..1];
    assert log[..|log| - 1] == one && one[..0] == [];
    assert After(s, []) == s && ChargedFor(s, one, 0) == 100;
    assert After(s, one) == State(map[7 := 100], [Item(7, 1, 12)]);
  }

  /** Items do not change hands. */
  lemma {:induction false} OwnersStay(s: State, log: seq<Event>, id: nat)
    requires id < |s.items|
    ensures id < |After(s, log).items| && After(s, log).items[id].owner == s.items[id].owner
  {
    if log != [] {
      OwnersStay(s, log[..|log| - 1], id);
    }
  }

  /** Nothing is charged for an item before it is dropped. */
  lemma {:induction false} NothingBeforeTheDrop(s: State, log: seq<Event>, id: nat)
    requires id >= |After(s, log).items|
    ensures ChargedFor(s, log, id) == 0
  {
    if log != [] {
      NothingBeforeTheDrop(s, log[..|log| - 1], id);
    }
  }

  /** Whatever was charged for an item was charged to its owner, also when the item was dropped
      during the run. */
  lemma {:induction false} ItemIsChargedToOwner(s: State, log: seq<Event>, id: nat)
    requires id < |After(s, log).items|
    ensures ChargedFor(s, log, id) <= Charged(s, log, After(s, log).items[id].owner)
  {
    if log != [] {
      var init, e := log[..|log| - 1], log[|log| - 1];
      if id < |After(s, init).items| {
        ItemIsChargedToOwner(s, init, id);
        OneMoreEvent(After(s, init), e, id);
      } else {
        NothingBeforeTheDrop(s, init, id);
      }
    }
  }

  lemma OneMoreEvent(s: State, e: Event, id: nat)
    requires id < |s.items|
    ensures id < |Apply(s, e).items| && Apply(s, e).items[id].owner == s.items[id].owner
    ensures Charges(s, e, id) <= ChargesUser(s, e, s.items[id].owner)
  {
  }

  /** Raising an item from level a (0 for one dropped during the run) to level b needs at least
      50 (b (b + 1) - a (a + 1)) gold, less what was saved by paying for an earlier level, which is
      nothing when every won attempt was fresh.  The owner must have started with that gold or
      earned it at no more than ten a chat. */
  lemma LevelsNeedGold(s: State, log: seq<Event>, id: nat)
    requires id < |After(s, log).items| && forall i :: 0 <= i < |log| ==> InRange(log[i])
    ensures var a, b, u := LevelOf(s, id), LevelOf(After(s, log), id), After(s, log).items[id].owner;
            var needed := 50 * (b * (b + 1) - a * (a + 1)) - Saved(s, log, id);
            needed <= ChargedFor(s, log, id) && needed <= Gold(s, u) + 10 * Chats(log, u)
    ensures Fresh(s, log, id) ==> Saved(s, log, id) == 0
  {
    var u := After(s, log).items[id].owner;
    LevelsArePaidFor(s, log, id);
    FreshSavesNothing(s, log, id);
    ItemIsChargedToOwner(s, log, id);
    GoldBalances(s, log, u);
    PaidAtMostTen(s, log, u);
  }

  // ------------------------------------------------------------------ the ranking follows

  lemma {:induction false} TotalOfOther(items: seq<Item>, id: nat, item: Item, u: UserId)
    requires id < |items| && items[id].owner == item.owner && item.owner != u
    ensures TotalPower(items[id := item], u) == TotalPower(items, u)
  {
    var n := |items|;
    if id == n - 1 {
      assert items[id := item][..n - 1] == items[..n - 1];
    } else {
      assert items[id := item][..n - 1] == items[..n - 1][id := item];
      TotalOfOther(items[..n - 1], id, item, u);
    }
  }

  /** A drop adds the power of the item, and an item that is won changes the total by what its
      power changes by; nothing else is in the total. */
  lemma {:induction false} TotalOfOwn(items: seq<Item>, id: nat, power: nat, level: nat)
    requires id < |items|
    ensures var u := items[id].owner;
            TotalPower(items[id := Item(u, level, power)], u) == TotalPower(items, u) - items[id].power + power
  {
    var n, item := |items|, Item(items[id].owner, level, power);
    if id == n - 1 {
      assert items[id := item][..n - 1] == items[..n - 1];
    } else {
      assert items[id := item][..n - 1] == items[..n - 1][id := item];
      TotalOfOwn(items[..n - 1], id, power, level);
    }
  }

  /** What an event changes the user's total power by. */
  lemma TotalMoves(s: State, e: Event, u: UserId)
    requires !e.fault.BeforeCommit? && e.user == u
    ensures e.Drop? ==> TotalPower(Apply(s, e).items, u) == TotalPower(s.items, u) + e.power
    ensures e.Enhance? && Wins(s, e, e.itemId) ==>
              TotalPower(Apply(s, e).items, u) == TotalPower(s.items, u) - s.items[e.itemId].power + e.newPower
    ensures TotalPower([], u) == 0
  {
    match e
    case Drop(_, power, _, _) =>
      assert (s.items + [Item(u, 0, power)])[..|s.items|] == s.items;
    case Enhance(_, id, _, _, newPower, _, _) =>
      if Wins(s, e, id) {
        TotalOfOwn(s.items, id, newPower, s.items[id].level + 1);
      }
    case _ =>
  }

  /** Does this event change the total power of u's items (or rewrite an item of u)? */
  predicate Touches(s: State, e: Event, u: UserId)
  {
    && !e.fault.BeforeCommit? && e.user == u
    && (e.Drop? || (e.Enhance? && Wins(s, e, e.itemId)))
  }

  /** Only a drop or a won attempt of the user changes the user's total. */
  lemma TotalChangesOnlyWhenTouched(s: State, e: Event, u: UserId)
    requires !Touches(s, e, u)
    ensures TotalPower(Apply(s, e).items, u) == TotalPower(s.items, u)
  {
    match e
    case Drop(v, power, _, _) =>
      assert (s.items + [Item(v, 0, power)])[..|s.items|] == s.items;
    case Enhance(v, id, _, _, newPower, _, _) =>
      if Wins(s, e, id) {
        TotalOfOther(s.items, id, Item(v, s.items[id].level + 1, newPower), u);
      }
    case _ =>
  }

  predicate Agrees(z: Scores, s: State, u: UserId)
  {
    u in z && z[u] == ToDouble(TotalPower(s.items, u))
  }

  /** An event whose update gets through brings the score to the current total, whatever was
      missed before. */
  lemma DeliveredAgrees(z: Scores, s: State, e: Event, u: UserId)
    requires Touches(s, e, u) && Delivered(e)
    ensures Agrees(AfterEvent(z, s, e), Apply(s, e), u)
  {
  }

  /** An event that does not touch the user keeps agreement. */
  lemma UntouchedAgrees(z: Scores, s: State, e: Event, u: UserId)
    requires !Touches(s, e, u) && Agrees(z, s, u)
    ensures Agrees(AfterEvent(z, s, e), Apply(s, e), u)
  {
    TotalChangesOnlyWhenTouched(s, e, u);
    OtherScoresStay(z, s, e, u);
  }

  lemma OtherScoresStay(z: Scores, s: State, e: Event, u: UserId)
    requires !Touches(s, e, u) && u in z
    ensures u in AfterEvent(z, s, e) && AfterEvent(z, s, e)[u] == z[u]
  {
  }

  predicate Delivered(e: Event) { !e.Chat? && e.fault.NoFault? && e.ok }

  /** After any run, if the last event that touched u delivered its update, u's score is the
      total power u has now, rounded to a double: exactly that total when it is representable,
      as every total up to 2^53 is. */
  lemma {:induction false} ScoreFollowsPower(z: Scores, s: State, log: seq<Event>, k: nat, u: UserId)
    requires k < |log| && Delivered(log[k]) && Touches(After(s, log[..k]), log[k], u)
    requires forall i :: k < i < |log| ==> !Touches(After(s, log[..i]), log[i], u)
    ensures Agrees(ScoresAfter(z, s, log), After(s, log), u)
    ensures var total, scores := TotalPower(After(s, log).items, u), ScoresAfter(z, s, log);
            u in scores && (scores[u] == total <==> total % Ulp(total) == 0) && (total <= EXACT ==> scores[u] == total)
    decreases |log|
  {
    var init, e := log[..|log| - 1], log[|log| - 1];
    var before := ScoresAfter(z, s, init);
    if k < |log| - 1 {
      assert init[..k] == log[..k];
      assert forall i :: 0 <= i < |init| ==> init[..i] == log[..i];
      ScoreFollowsPower(z, s, init, k, u);
      assert !Touches(After(s, log[..|log| - 1]), e, u);
    }
    if k < |log| - 1 {
      UntouchedAgrees(before, After(s, init), e, u);
    } else {
      DeliveredAgrees(before, After(s, init), e, u);
    }
    StoredExactly(TotalPower(After(s, log).items, u));
  }
}
