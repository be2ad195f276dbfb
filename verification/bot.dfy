/** bot/bot.go: the weighted choice of an action and the list of pending requests. */
module Bots {
  import opened Common
  import opened FriendLists
  import opened FriendAgreement

  // ------------------------------------------------------------------ the weighted choice

  /** The names in the table of choices. */
  datatype Choice = ADD | LIST | CHAT | ACCEPT | REJECT

  datatype Weighted = Weighted(name: Choice, weight: int)

  /** The weights before position k, added up. */
  function Before(items: seq<Weighted>, k: nat): int
    requires k <= |items|
  {
    if k == 0 then 0 else Before(items, k - 1) + items[k - 1].weight
  }

  function Total(items: seq<Weighted>): int { Before(items, |items|) }

  /** The first position whose weights, with all before it, exceed n. */
  predicate Selects(items: seq<Weighted>, n: int, k: nat)
  {
    k < |items| && n < Before(items, k + 1) && forall j :: 1 <= j <= k ==> Before(items, j) <= n
  }

  /** pickWeighted; `n` is the draw rng.Intn(total).  The loop always returns: the fallback
      behind it is never reached, whatever the weights. */
  method PickWeighted(items: seq<Weighted>, n: int) returns (name: Option<Choice>, ghost k: nat)
    requires Total(items) > 0 ==> 0 <= n < Total(items)
    ensures Total(items) <= 0 ==> name == None
    ensures Total(items) > 0 ==> Selects(items, n, k) && name == Some(items[k].name)
  {
    name, k := None, 0;
    var total := 0;
    for i := 0 to |items|
      invariant total == Before(items, i)
    {
      total := total + items[i].weight;
    }
    if total <= 0 {
      return;
    }
    var left := n;
    for i := 0 to |items|
      invariant left == n - Before(items, i) && left >= 0
      invariant forall j :: 1 <= j <= i ==> Before(items, j) <= n
    {
      left := left - items[i].weight;
      if left < 0 {
        return Some(items[i].name), i;
      }
    }
    assert false;
  }

  lemma {:induction false} BeforeGrows(items: seq<Weighted>, j: nat, k: nat)
    requires j <= k <= |items| && forall i :: 0 <= i < |items| ==> items[i].weight >= 0
    ensures Before(items, j) <= Before(items, k)
  {
    if j < k {
      BeforeGrows(items, j, k - 1);
    }
  }

  /** With non-negative weights the draws that select position k form one interval. */
  lemma SelectsInterval(items: seq<Weighted>, n: int, k: nat)
    requires k < |items| && n >= 0 && forall i :: 0 <= i < |items| ==> items[i].weight >= 0
    ensures Selects(items, n, k) <==> Before(items, k) <= n < Before(items, k + 1)
  {
    forall j | 1 <= j <= k
      ensures Before(items, j) <= Before(items, k)
    {
      BeforeGrows(items, j, k);
    }
  }

  /** Of the draws 0 .. total - 1, exactly weight_k select position k. */
  lemma ChoiceIsExact(items: seq<Weighted>, k: nat)
    requires k < |items| && forall i :: 0 <= i < |items| ==> items[i].weight >= 0
    ensures 0 <= Total(items) && |set n | n in Interval(0, Total(items)) && Selects(items, n, k)| == items[k].weight
  {
    BeforeGrows(items, 0, |items|);
    BeforeGrows(items, 0, k);
    BeforeGrows(items, k + 1, |items|);
    var draws := Interval(0, Total(items));
    forall n | n in draws
      ensures Selects(items, n, k) <==> n in Interval(Before(items, k), Before(items, k + 1))
    {
      SelectsInterval(items, n, k);
    }
    assert (set n | n in draws && Selects(items, n, k)) == Interval(Before(items, k), Before(items, k + 1));
  }

  // ------------------------------------------------------------------ the pending requests

  datatype Action = Add(name: string) | List | Chat(text: string) | Accept(name: string) | Reject(name: string)

  const BASE: seq<Weighted> := [Weighted(ADD, 3), Weighted(LIST, 3), Weighted(CHAT, 2)]
  const ANSWERS: seq<Weighted> := [Weighted(ACCEPT, 3), Weighted(REJECT, 1)]

  /** onControl takes a message for a friend list by its first word. */
  predicate IsList(payload: string) { !("NICK " <= payload) && "Blocked" <= payload }

  class Bot {
    var pending: seq<string>
    var friends: seq<string>
    var listSeen: bool
    var sent: seq<Action>
    ghost var latest: seq<string>     // the Request section of the latest list
    ghost var taken: seq<string>      // what has been taken out of it

    /** What was taken from the latest list and what is still pending make up that list. */
    ghost predicate Valid()
      reads this
    {
      && multiset(taken) + multiset(pending) == multiset(latest)
      && AllPlain(pending) && (!listSeen ==> pending == [])
    }

    constructor ()
      ensures Valid() && pending == [] && sent == [] && !listSeen
    {
      pending, friends, listSeen, sent, latest, taken := [], [], false, [], [], [];
    }

    /** A control message from the server; only a friend list changes anything. */
    method OnControl(payload: string)
      requires Valid()
      modifies this`pending, this`friends, this`listSeen, this`latest, this`taken
      ensures Valid()
      ensures if IsList(payload) then
                && pending == latest == ReadPayload(payload).pending && friends == ReadPayload(payload).friends
                && listSeen && taken == []
              else
                && pending == old(pending) && friends == old(friends) && listSeen == old(listSeen)
                && latest == old(latest) && taken == old(taken)
    {
      if "NICK " <= payload {
        return;
      }
      if "Blocked" <= payload {
        ApplyFriendList(payload);
      }
    }

    method ApplyFriendList(payload: string)
      modifies this`pending, this`friends, this`listSeen, this`latest, this`taken
      ensures Valid() && taken == []
      ensures pending == latest == ReadPayload(payload).pending && friends == ReadPayload(payload).friends && listSeen
    {
      PayloadIsPlain(payload);
      pending, friends := ParseFriendList(payload);
      listSeen := true;
      latest, taken := pending, [];
    }

    method HasPending() returns (r: bool)
      requires Valid()
      ensures r <==> pending != []
    {
      r := listSeen && |pending| > 0;
    }

    /** Takes one pending name out, "" when there is none; `pick` stands for the random index. */
    method TakePending(pick: nat) returns (name: string)
      requires Valid()
      modifies this`pending, this`taken
      ensures Valid()
      ensures name == "" <==> old(pending) == []
      ensures name == "" ==> pending == old(pending) && taken == old(taken)
      ensures name != "" ==> name in old(pending) && name in latest && taken == old(taken) + [name]
                             && multiset(pending) + multiset{name} == multiset(old(pending))
    {
      if |pending| == 0 {
        return "";
      }
      var i := pick % |pending|;
      name := pending[i];
      TakeOut(taken, pending, latest, i);
      pending := pending[..i] + pending[i + 1..];
      taken := taken + [name];
    }

    /** The receive loop at work on `payloads`, as it runs beside the sending loop: the last list
        among them is in force, with nothing taken from it; without one nothing changes. */
    method Receive(payloads: seq<string>)
      requires Valid()
      modifies this`pending, this`friends, this`listSeen, this`latest, this`taken
      ensures Valid() && latest == LatestAfter(payloads, old(latest)) && pending == LatestAfter(payloads, old(pending))
      ensures taken == if HasList(payloads) then [] else old(taken)
    {
      for i := 0 to |payloads|
        invariant Valid()
        invariant latest == LatestAfter(payloads[..i], old(latest)) && pending == LatestAfter(payloads[..i], old(pending))
        invariant taken == if HasList(payloads[..i]) then [] else old(taken)
      {
        OnControl(payloads[i]);
        assert payloads[..i + 1][..i] == payloads[..i];
      }
      assert payloads[..|payloads|] == payloads;
    }

    /** The accept and reject branches.  The receive loop may handle the messages `before` ahead of
        the taking, and `after` between the taking and the sending.  What is sent answers a name
        pending after `before`, and nothing is sent exactly when there is none. */
    method Answer(accept: bool, pick: nat, before: seq<string>, after: seq<string>) returns (did: Option<Action>)
      requires Valid()
      modifies this
      ensures Valid()
      ensures did == None <==> LatestAfter(before, old(pending)) == []
      ensures did == None ==> sent == old(sent)
      ensures did.Some? ==>
                && sent == old(sent) + [did.value]
                && (if accept then did.value.Accept? else did.value.Reject?)
                && did.value.name in LatestAfter(before, old(pending)) && did.value.name in LatestAfter(before, old(latest))
      ensures did.Some? && !HasList(after) ==>
                multiset(pending) + multiset{did.value.name} == multiset(LatestAfter(before, old(pending)))
    {
      Receive(before);
      var name := TakePending(pick);
      KeptWithoutList(after, pending);
      Receive(after);
      if name == "" {
        return None;
      }
      var action := if accept then Accept(name) else Reject(name);
      sent := sent + [action];
      did := Some(action);
    }

    /** One friend command; `draw` picks it, and the answers are offered only when a request is pending. */
    method FriendAction(draw: nat, other: string, text: string, pick: nat, before: seq<string>, after: seq<string>)
      returns (did: Option<Action>)
      requires Valid() && draw < (if pending == [] then 8 else 12)
      modifies this
      ensures Valid() && sent == (if did.Some? then old(sent) + [did.value] else old(sent))
      ensures draw < 3 ==> did == if other == "" then None else Some(Add(other))
      ensures 3 <= draw < 6 ==> did == Some(List)
      ensures 6 <= draw < 8 ==> did == Some(Chat(text))
      ensures 8 <= draw ==> (did == None <==> LatestAfter(before, old(pending)) == [])
      ensures 8 <= draw && did.Some? ==>
                && (if draw < 11 then did.value.Accept? else did.value.Reject?)
                && did.value.name in LatestAfter(before, old(pending)) && did.value.name in LatestAfter(before, old(latest))
    {
      var choices := BASE;
      var has := HasPending();
      if has {
        choices := choices + ANSWERS;
      }
      TotalOfChoices(choices);
      var choice, k := PickWeighted(choices, draw);
      PositionOfDraw(choices, draw, k);
      match choice.value {
        case ADD => did := if other == "" then None else Some(Add(other));
        case LIST => did := Some(List);
        case CHAT => did := Some(Chat(text));
        case ACCEPT =>
          did := Answer(true, pick, before, after);
          return;
        case REJECT =>
          did := Answer(false, pick, before, after);
          return;
      }
      if did.Some? {
        sent := sent + [did.value];
      }
    }
  }

  lemma TakeOut(taken: seq<string>, names: seq<string>, latest: seq<string>, i: nat)
    requires i < |names| && AllPlain(names) && multiset(taken) + multiset(names) == multiset(latest)
    ensures var rest := names[..i] + names[i + 1..];
            && multiset(rest) + multiset{names[i]} == multiset(names)
            && multiset(taken + [names[i]]) + multiset(rest) == multiset(latest)
            && AllPlain(rest) && names[i] in latest && names[i] != ""
  {
    assert names == names[..i] + [names[i]] + names[i + 1..];
    assert names[i] in names && names[i] in multiset(latest);
    StillPlain(names, names[..i] + names[i + 1..]);
  }

  lemma StillPlain(names: seq<string>, rest: seq<string>)
    requires AllPlain(names) && forall name :: name in rest ==> name in names
    ensures AllPlain(rest)
  {
  }

  predicate HasList(payloads: seq<string>) {
    payloads != [] && (IsList(payloads[|payloads| - 1]) || HasList(payloads[..|payloads| - 1]))
  }

  /** The Request section of the last list among `payloads`, or `names` when there is no list. */
  function LatestAfter(payloads: seq<string>, names: seq<string>): seq<string> {
    if payloads == [] then
      names
    else
      var payload := payloads[|payloads| - 1];
      if IsList(payload) then ReadPayload(payload).pending
      else LatestAfter(payloads[..|payloads| - 1], names)
  }

  lemma {:induction false} KeptWithoutList(payloads: seq<string>, names: seq<string>)
    ensures !HasList(payloads) ==> LatestAfter(payloads, names) == names
  {
    if payloads != [] {
      KeptWithoutList(payloads[..|payloads| - 1], names);
    }
  }

  lemma PositionOfDraw(choices: seq<Weighted>, n: nat, k: nat)
    requires choices == BASE || choices == BASE + ANSWERS
    requires Selects(choices, n, k)
    ensures k == if n < 3 then 0 else if n < 6 then 1 else if n < 8 then 2 else if n < 11 then 3 else 4
  {
    assert Before(choices, 1) == 3 && Before(choices, 2) == 6 && Before(choices, 3) == 8;
    if choices == BASE + ANSWERS {
      assert Before(choices, 4) == 11 && Before(choices, 5) == 12;
    }
  }

  lemma TotalOfChoices(choices: seq<Weighted>)
    ensures choices == BASE ==> Total(choices) == 8
    ensures choices == BASE + ANSWERS ==> Total(choices) == 12
  {
    if choices == BASE {
      assert Before(choices, 1) == 3 && Before(choices, 2) == 6;
    }
    if choices == BASE + ANSWERS {
      assert Before(choices, 1) == 3 && Before(choices, 2) == 6 && Before(choices, 3) == 8 && Before(choices, 4) == 11;
    }
  }
}
