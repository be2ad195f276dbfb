/** The NICK announcement: Consumer::HandleNick prints it, the client's handleControl reads it. */
module Nick {
  import opened Common
  import opened Decimal
  import opened Protocol

  /** "NICK <id> <name>", as put into a packet. */
  function Announcement(id: nat, name: string): (body: string)
  {
    Cut("NICK " + ToString(id) + " " + name)
  }

  // ------------------------------------------------------------------ the client

  /** strings.SplitN(s, " ", n): at most n parts, the last one unsplit. */
  function SplitN(s: string, n: nat): (parts: seq<string>)
    requires n >= 1
    ensures 1 <= |parts| <= n
  {
    var i := IndexOf(s, ' ');
    if n == 1 || i == |s| then [s] else [s[..i]] + SplitN(s[i + 1..], n - 1)
  }

  /** The name map after a control message. */
  function Bound(names: map<nat, string>, payload: string): map<nat, string>
  {
    var parts := SplitN(payload, 3);
    if |parts| == 3 && parts[0] == "NICK" && ParseUint(parts[1], UINT16 - 1).Some?
    then names[ParseUint(parts[1], UINT16 - 1).value := parts[2]] else names
  }

  /** What the client keeps: the name map, and the messages it has shown. */
  datatype Screen = Screen(names: map<nat, string>, messages: seq<string>)

  predicate IsAnnouncement(payload: string) { |SplitN(payload, 3)| == 3 && SplitN(payload, 3)[0] == "NICK" }

  lemma FirstPart(s: string, n: nat)
    requires n >= 2
    ensures |SplitN(s, n)| >= 2 <==> ' ' in s
    ensures ' ' in s ==> SplitN(s, n) == [s[..IndexOf(s, ' ')]] + SplitN(s[IndexOf(s, ' ') + 1..], n - 1)
    ensures ' ' !in s ==> SplitN(s, n) == [s]
  {
  }

  /** Announcements are the messages that begin with "NICK " and have another space behind that. */
  lemma AnnouncementsBegin(payload: string)
    ensures IsAnnouncement(payload) <==> "NICK " <= payload && ' ' in payload[5..]
  {
    FirstPart(payload, 3);
    var k := IndexOf(payload, ' ');
    if k < |payload| {
      FirstPart(payload[k + 1..], 2);
    }
    if "NICK " <= payload {
      assert payload[4] == ' ' && payload[..4] == "NICK";
      assert k == 4;
    }
    if k == 4 && k < |payload| && payload[..4] == "NICK" {
      assert payload[..5] == "NICK" + " ";
    }
  }

  function AfterControl(s: Screen, payload: string): Screen
  {
    Screen(Bound(s.names, payload), if IsAnnouncement(payload) then s.messages else s.messages + ["[SYSTEM] " + payload])
  }

  /** The name shown for a packet id: the bound name, or the number itself. */
  function Shown(names: map<nat, string>, id: nat): string
  {
    if id in names then names[id] else ToString(id)
  }

  function ChatLine(name: string, text: string): string { "[" + name + "] " + text }

  /** After a packet: id 0 is a control message, any other id a chat line of that session. */
  function AfterPacket(s: Screen, id: nat, payload: string): Screen
  {
    if id == 0 then AfterControl(s, payload)
    else s.(messages := s.messages + [ChatLine(Shown(s.names, id), payload)])
  }

  class ChatUI {
    var names: map<nat, string>
    var messages: seq<string>

    ghost function State(): Screen reads this { Screen(names, messages) }

    constructor ()
      ensures names == map[] && messages == []
    {
      names, messages := map[], [];
    }

    method HandleControl(payload: string)
      modifies this
      ensures State() == AfterControl(old(State()), payload)
      ensures messages == if "NICK " <= payload && ' ' in payload[5..] then old(messages) else old(messages) + ["[SYSTEM] " + payload]
    {
      AnnouncementsBegin(payload);
      var parts := SplitN(payload, 3);
      if |parts| == 3 && parts[0] == "NICK" {
        var id := ParseUint(parts[1], UINT16 - 1);
        if id.Some? {
          names := names[id.value := parts[2]];
        }
        return;
      }
      messages := messages + ["[SYSTEM] " + payload];
    }

    method NameFor(id: nat) returns (name: string)
      ensures name == Shown(names, id)
    {
      if id in names {
        return names[id];
      }
      name := ToString(id);
    }

    /** One packet of the receive loop. */
    method Receive(id: nat, payload: string)
      modifies this
      ensures State() == AfterPacket(old(State()), id, payload)
      ensures id != 0 && id in old(names) ==> messages == old(messages) + ["[" + old(names)[id] + "] " + payload]
      ensures id != 0 && id !in old(names) ==> messages == old(messages) + ["[" + ToString(id) + "] " + payload]
    {
      if id == 0 {
        HandleControl(payload);
        return;
      }
      var name := NameFor(id);
      messages := messages + ["[" + name + "] " + payload];
    }
  }

  // ------------------------------------------------------------------ round trip

  /** A word before the first space is split off whole. */
  lemma SplitWord(word: string, rest: string, n: nat)
    requires n >= 2 && forall i :: 0 <= i < |word| ==> word[i] != ' '
    ensures SplitN(word + " " + rest, n) == [word] + SplitN(rest, n - 1)
  {
    var s := word + " " + rest;
    assert s[|word|] == ' ';
    assert forall j :: 0 <= j < |word| ==> s[j] == word[j];
    assert IndexOf(s, ' ') == |word|;
    assert s[..|word|] == word && s[|word| + 1..] == rest;
  }

  lemma WordsRegroup(a: string, b: string, c: string, d: string)
    ensures a + b + c + d == a + (b + c + d)
  {
  }

  lemma SplitAnnouncement(id: nat, name: string)
    requires |ToString(id)| + |name| + 6 <= MAX_PAYLOAD
    ensures SplitN(Announcement(id, name), 3) == ["NICK", ToString(id), name]
  {
    var digits := ToString(id);
    WordsRegroup("NICK ", digits, " ", name);
    assert "NICK " == "NICK" + " ";
    SplitWord("NICK", digits + " " + name, 3);
    SplitWord(digits, name, 2);
  }

  /** For any name that fits the packet next to the id, an announcement binds exactly that id
      to exactly that name when the id fits the client's 16 bits, and binds nothing when it
      does not. */
  lemma AnnouncementBinds(names: map<nat, string>, id: nat, name: string)
    requires |ToString(id)| + |name| + 6 <= MAX_PAYLOAD
    ensures Bound(names, Announcement(id, name)) == if id < UINT16 then names[id := name] else names
  {
    SplitAnnouncement(id, name);
    ParseOfToString(id, UINT16 - 1);
  }

  /** HandleNick's names (3 to 9 bytes) and 64-bit session ids always fit. */
  lemma NicksFit(id: nat, name: string)
    requires id <= UINT64_MAX && 3 <= |name| < 10
    ensures |ToString(id)| + |name| + 6 <= MAX_PAYLOAD
  {
    Uint64Digits(id);
  }

  // ------------------------------------------------------------------ over a run

  datatype Nicked = Nicked(id: nat, name: string)

  function AfterAll(names: map<nat, string>, log: seq<Nicked>): map<nat, string>
  {
    if log == [] then names
    else Bound(AfterAll(names, log[..|log| - 1]), Announcement(log[|log| - 1].id, log[|log| - 1].name))
  }

  function LastName(log: seq<Nicked>, id: nat): Option<string>
  {
    if log == [] then None
    else if log[|log| - 1].id == id then Some(log[|log| - 1].name) else LastName(log[..|log| - 1], id)
  }

  /** After any run of announcements the map holds, for every 16-bit id, the last announced
      name, and nothing for any other id. */
  lemma {:induction false} LastNameWins(log: seq<Nicked>, id: nat)
    requires Fitting(log)
    ensures var names := AfterAll(map[], log);
            if id < UINT16 && LastName(log, id).Some? then id in names && names[id] == LastName(log, id).value
            else id !in names
    decreases |log|
  {
    if log != [] {
      var init, last := log[..|log| - 1], log[|log| - 1];
      LastNameWins(init, id);
      AnnouncementBinds(AfterAll(map[], init), last.id, last.name);
    }
  }

  // ------------------------------------------------------------------ whose name a chat line is shown under

  predicate Fitting(log: seq<Nicked>)
  {
    forall i :: 0 <= i < |log| ==> |ToString(log[i].id)| + |log[i].name| + 6 <= MAX_PAYLOAD
  }

  /** The client after the announcements and then a chat packet of session `sid`, whose id the
      server has cut to 16 bits. */
  function AfterChat(log: seq<Nicked>, sid: nat, text: string): Screen
  {
    AfterPacket(Screen(AfterAll(map[], log), []), sid % UINT16, text)
  }

  /** In every case: a chat line goes under the last name announced for the low 16 bits of the
      session id, or under that number; when they are 0 the text is taken as a control message. */
  lemma ChatGoesByLowBits(log: seq<Nicked>, sid: nat, text: string)
    requires Fitting(log)
    ensures var low, s := sid % UINT16, AfterChat(log, sid, text);
            if low == 0 then s == AfterControl(Screen(AfterAll(map[], log), []), text)
            else s.messages == [ChatLine(if LastName(log, low).Some? then LastName(log, low).value else ToString(low), text)]
  {
    LastNameWins(log, sid % UINT16);
    assert forall line: string :: [] + [line] == [line];
  }

  /** The session's chat line is shown under the last name announced for the session. */
  ghost predicate ShownUnderItsName(log: seq<Nicked>, sid: nat, text: string)
  {
    Fitting(log) && LastName(log, sid).Some? ==> AfterChat(log, sid, text).messages == [ChatLine(LastName(log, sid).value, text)]
  }

  /** Chat is attributed to its sender, after any announcements, exactly for session ids up to
      65535. */
  lemma ChatIsAttributed(sid: nat)
    requires 1 <= sid <= UINT64_MAX
    ensures (forall log, text :: ShownUnderItsName(log, sid, text)) <==> sid < UINT16
  {
    if sid < UINT16 {
      forall log, text
        ensures ShownUnderItsName(log, sid, text)
      {
        if Fitting(log) {
          ChatGoesByLowBits(log, sid, text);
        }
      }
    } else {
      NotItsName(sid);
    }
  }

  lemma NotItsName(sid: nat)
    requires UINT16 <= sid <= UINT64_MAX
    ensures !ShownUnderItsName([Nicked(sid, "bob")], sid, "hi")
  {
    var log := [Nicked(sid, "bob")];
    NicksFit(sid, "bob");
    ChatGoesByLowBits(log, sid, "hi");
    var low := sid % UINT16;
    assert log[..|log| - 1] == [] && LastName([], low) == None;
    assert LastName(log, low) == None && LastName(log, sid) == Some("bob") && Fitting(log);
    OneWord();
    NumberIsNotBob(low);
    var shown := AfterChat(log, sid, "hi").messages;
    if low == 0 {
      assert shown[0] == "[SYSTEM] hi";
    } else {
      assert shown[0] == ChatLine(ToString(low), "hi");
    }
  }

  lemma OneWord()
    ensures !IsAnnouncement("hi")
    ensures "[SYSTEM] hi" != ChatLine("bob", "hi")
  {
    assert "[SYSTEM] hi"[1] != ChatLine("bob", "hi")[1];
    assert IndexOf("hi", ' ') == 2 by {
      assert IndexOf("hi"[1..][1..], ' ') == 0;
    }
  }

  lemma NumberIsNotBob(n: nat)
    ensures ChatLine(ToString(n), "hi") != ChatLine("bob", "hi")
  {
    var line := ChatLine(ToString(n), "hi");
    assert line[1] == ToString(n)[0] && IsDigit(line[1]);
    assert ChatLine("bob", "hi")[1] == 'b';
  }

  /** A session whose id is a multiple of 65536 is not shown at all when its text reads like an
      announcement: the client takes it for one and renames that session. */
  lemma ChatTakenForAnnouncement(log: seq<Nicked>, sid: nat, id: nat, name: string)
    requires sid % UINT16 == 0 && id < UINT16 && |ToString(id)| + |name| + 6 <= MAX_PAYLOAD
    ensures AfterChat(log, sid, Announcement(id, name)) == Screen(AfterAll(map[], log)[id := name], [])
  {
    AnnouncementBinds(AfterAll(map[], log), id, name);
    SplitAnnouncement(id, name);
  }
}
