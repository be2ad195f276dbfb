/** The printer and the parser of the friend list agree, also when the text is cut to a packet. */
module FriendAgreement {
  import opened Common
  import opened Protocol
  import opened FriendLists

  // ------------------------------------------------------------------ which names are safe

  predicate OneLine(name: string) { '\n' !in name }

  /** A name the parser takes as it stands. */
  predicate Plain(name: string)
  {
    Trimmed(name) && name != "" && !("---" <= name) && name != "Blocked" && name != "Request" && name != "Friends"
  }

  predicate AllPlain(names: seq<string>) { forall name :: name in names ==> Plain(name) }

  predicate AllOneLine(names: seq<string>) { forall i :: 0 <= i < |names| ==> OneLine(names[i]) }

  predicate OneLineList(list: FriendList)
  {
    AllOneLine(list.blocked) && AllOneLine(list.pending) && AllOneLine(list.friends)
  }

  lemma PlainIsTaken(name: string)
    ensures Plain(name) <==> Classify(name) == Name(name)
  {
    TrimSpaceTrims(name);
  }

  /** Whatever the parser takes as a name is plain. */
  lemma TakenIsPlain(raw: string)
    ensures Classify(raw).Name? ==> Plain(Classify(raw).name)
  {
    TrimSpaceTrims(raw);
  }

  predicate Visible(c: char) { ' ' < c <= '~' }

  /** A word that begins and ends with a visible ASCII character is not trimmed. */
  lemma VisibleEnds(s: string)
    requires s != "" && Visible(s[0]) && Visible(s[|s| - 1])
    ensures Trimmed(s)
  {
  }

  lemma FixedLines()
    ensures Classify("Blocked") == Header(InBlocked) && Classify("Request") == Header(InPending)
    ensures Classify("Friends") == Header(InFriends) && Classify(DASHES) == Skip && Classify("") == Skip
  {
    HeadingLine("Blocked");
    HeadingLine("Request");
    HeadingLine("Friends");
    Untouched(DASHES);
  }

  lemma HeadingLine(word: string)
    requires word == "Blocked" || word == "Request" || word == "Friends"
    ensures Classify(word) == Header(if word == "Blocked" then InBlocked else if word == "Request" then InPending else InFriends)
  {
    assert word[0] != '-';
    Untouched(word);
  }

  lemma Untouched(s: string)
    requires s != "" && Visible(s[0]) && Visible(s[|s| - 1])
    ensures TrimSpace(s) == s
  {
    VisibleEnds(s);
    TrimSpaceTrims(s);
  }

  // ------------------------------------------------------------------ cutting lines

  /** How many lines, with their newlines, fit into `room` bytes. */
  function Whole(lines: seq<string>, room: nat): (k: nat)
    ensures k <= |lines|
  {
    if lines == [] || |lines[0]| + 1 > room then 0 else 1 + Whole(lines[1..], room - |lines[0]| - 1)
  }

  lemma {:induction false} SplitLine(line: string, rest: string)
    requires OneLine(line)
    ensures Split(line + "\n" + rest) == [line] + Split(rest)
  {
    var s := line + "\n" + rest;
    if line == "" {
      assert s[1..] == rest;
    } else {
      assert s[1..] == line[1..] + "\n" + rest;
      SplitLine(line[1..], rest);
      assert [line[0]] + line[1..] == line;
    }
  }

  lemma {:induction false} SplitPart(part: string)
    requires OneLine(part)
    ensures Split(part) == [part]
  {
    if part != "" {
      SplitPart(part[1..]);
      assert [part[0]] + part[1..] == part;
    }
  }

  /** Splitting a cut text gives the lines that are whole and one leftover piece. */
  lemma {:induction false} SplitCut(lines: seq<string>, room: nat) returns (part: string)
    requires AllOneLine(lines) && room <= |Unlines(lines)|
    ensures Split(Unlines(lines)[..room]) == lines[..Whole(lines, room)] + [part]
    ensures room == |Unlines(lines)| ==> Whole(lines, room) == |lines| && part == ""
    decreases |lines|
  {
    var text := Unlines(lines);
    if lines == [] {
      return "";
    }
    var first, rest := lines[0], Unlines(lines[1..]);
    if |first| + 1 > room {
      part := text[..room];
      assert part == first[..room];
      SplitPart(part);
    } else {
      var more := room - |first| - 1;
      part := SplitCut(lines[1..], more);
      assert text[..room] == first + "\n" + rest[..more];
      SplitLine(first, rest[..more]);
      assert lines[..Whole(lines, room)] == [first] + lines[1..][..Whole(lines[1..], more)];
    }
  }

  lemma {:induction false} ReadLinesAppend(p: Parsing, a: seq<Line>, b: seq<Line>)
    ensures ReadLines(p, a + b) == ReadLines(ReadLines(p, a), b)
    decreases |a|
  {
    if a == [] {
      assert a + b == b;
    } else {
      assert (a + b)[1..] == a[1..] + b;
      ReadLinesAppend(ReadLine(p, a[0]), a[1..], b);
    }
  }

  lemma KindsAppend(a: seq<string>, b: seq<string>)
    ensures Kinds(a + b) == Kinds(a) + Kinds(b)
  {
    MapAppend(Classify, a, b);
  }

  lemma KindsOfOne(a: string)
    ensures Kinds([a]) == [Classify(a)]
  {
    assert Kinds([a])[0] == Classify([a][0]);
  }

  lemma KindsOfTwo(a: string, b: string)
    ensures Kinds([a]) == [Classify(a)] && Kinds([a, b]) == [Classify(a), Classify(b)]
  {
    KindsOfOne(a);
    KindsOfOne(b);
    assert [a, b] == [a] + [b];
    KindsAppend([a], [b]);
  }

  lemma FixedKinds()
    ensures Kinds(["Blocked"]) == [Header(InBlocked)]
    ensures Kinds([DASHES, "Request"]) == [Skip, Header(InPending)]
    ensures Kinds([DASHES, "Friends"]) == [Skip, Header(InFriends)]
    ensures Kinds([""]) == [Skip]
  {
    FixedLines();
    KindsOfTwo("Blocked", "");
    KindsOfTwo(DASHES, "Request");
    KindsOfTwo(DASHES, "Friends");
    KindsOfTwo("", "");
  }

  lemma {:induction false} WholeIsAll(lines: seq<string>, room: nat)
    requires |Unlines(lines)| <= room
    ensures Whole(lines, room) == |lines|
  {
    if lines != [] {
      WholeIsAll(lines[1..], room - |lines[0]| - 1);
    }
  }

  /** The bot reads exactly the lines that arrived whole: of a full packet it drops the last
      piece, and in a shorter one the piece after the last newline is empty. */
  lemma ReadsWholeLines(lines: seq<string>)
    requires AllOneLine(lines)
    ensures ReadPayload(Cut(Unlines(lines))) == ReadLines(START, Kinds(lines)[..Whole(lines, MAX_PAYLOAD)])
  {
    var text, k := Unlines(lines), Whole(lines, MAX_PAYLOAD);
    assert Kinds(lines[..k]) == Kinds(lines)[..k];
    if |text| < MAX_PAYLOAD {
      var part := SplitCut(lines, |text|);
      assert text[..|text|] == text;
      WholeIsAll(lines, MAX_PAYLOAD);
      assert lines[..|lines|] == lines;
      EmptyLineIsSkipped(lines);
    } else {
      var part := SplitCut(lines, MAX_PAYLOAD);
      assert Cut(text) == text[..MAX_PAYLOAD];
    }
  }

  lemma EmptyLineIsSkipped(lines: seq<string>)
    ensures ReadLines(START, Kinds(lines + [""])) == ReadLines(START, Kinds(lines))
  {
    FixedKinds();
    KindsAppend(lines, [""]);
    assert [Skip][1..] == [];
    ReadLinesAppend(START, Kinds(lines), [Skip]);
  }

  // ------------------------------------------------------------------ plain names under truncation

  function Names(names: seq<string>): (lines: seq<Line>)
    ensures |lines| == |names|
  {
    seq(|names|, i requires 0 <= i < |names| => Name(names[i]))
  }

  lemma PlainKinds(names: seq<string>)
    requires AllPlain(names)
    ensures Kinds(names) == Names(names)
  {
    forall i | 0 <= i < |names|
      ensures Kinds(names)[i] == Names(names)[i]
    {
      assert names[i] in names;
      PlainIsTaken(names[i]);
    }
  }

  /** The printed lines as the parser sees them, given how it sees the blocked names. */
  function Seen(blocked: seq<Line>, pending: seq<string>, friends: seq<string>): seq<Line>
  {
    [Header(InBlocked)] + blocked + [Skip, Header(InPending)] + Names(pending) + [Skip, Header(InFriends)] + Names(friends)
  }

  lemma PrintedIsSeen(list: FriendList)
    requires AllPlain(list.pending) && AllPlain(list.friends)
    ensures Kinds(AllLines(list)) == Seen(Kinds(list.blocked), list.pending, list.friends)
  {
    FixedKinds();
    PlainKinds(list.pending);
    PlainKinds(list.friends);
    var a := ["Blocked"] + list.blocked;
    var b := a + [DASHES, "Request"];
    var c := b + list.pending;
    KindsAppend(["Blocked"], list.blocked);
    KindsAppend(a, [DASHES, "Request"]);
    KindsAppend(b, list.pending);
    KindsAppend(c, [DASHES, "Friends"]);
    KindsAppend(c + [DASHES, "Friends"], list.friends);
  }

  lemma {:induction false} ReadNames(p: Parsing, names: seq<string>)
    ensures ReadLines(p, Names(names)) ==
            if p.section.InPending? then p.(pending := p.pending + names)
            else if p.section.InFriends? then p.(friends := p.friends + names)
            else p
    decreases |names|
  {
    if names == [] {
      assert p.pending + names == p.pending && p.friends + names == p.friends;
    } else {
      var rest := names[1..];
      assert Names(names)[1..] == Names(rest) && names == [names[0]] + rest;
      ReadNames(ReadLine(p, Name(names[0])), rest);
      assert p.pending + names == p.pending + [names[0]] + rest;
      assert p.friends + names == p.friends + [names[0]] + rest;
    }
  }

  lemma ReadHeading(p: Parsing, section: Section)
    ensures ReadLines(p, [Skip, Header(section)]) == p.(section := section)
    ensures ReadLines(p, [Header(section)]) == p.(section := section)
    ensures ReadLines(p, [Skip]) == p
  {
    assert [Skip, Header(section)][1..] == [Header(section)] && [Header(section)][1..] == [] && [Skip][1..] == [];
    assert ReadLines(p, [Skip, Header(section)]) == ReadLines(p, [Header(section)]);
  }

  /** Reading everything up to and including the pending names. */
  lemma ReadToPending(blocked: seq<Line>, pending: seq<string>)
    ensures var q := ReadLines(Parsing(InBlocked, [], []), blocked);
            ReadLines(START, [Header(InBlocked)] + blocked + [Skip, Header(InPending)] + Names(pending)) ==
            Parsing(InPending, q.pending + pending, q.friends)
  {
    var q := ReadLines(Parsing(InBlocked, [], []), blocked);
    var a := [Header(InBlocked)] + blocked;
    ReadLinesAppend(START, [Header(InBlocked)], blocked);
    ReadHeading(START, InBlocked);
    ReadLinesAppend(START, a, [Skip, Header(InPending)]);
    ReadHeading(q, InPending);
    ReadLinesAppend(START, a + [Skip, Header(InPending)], Names(pending));
    ReadNames(q.(section := InPending), pending);
  }

  /** Reading all of it. */
  lemma ReadToFriends(blocked: seq<Line>, pending: seq<string>, friends: seq<string>)
    ensures var q := ReadLines(Parsing(InBlocked, [], []), blocked);
            ReadLines(START, Seen(blocked, pending, friends)) == Parsing(InFriends, q.pending + pending, q.friends + friends)
  {
    var q := ReadLines(Parsing(InBlocked, [], []), blocked);
    ReadToPending(blocked, pending);
    var c := [Header(InBlocked)] + blocked + [Skip, Header(InPending)] + Names(pending);
    var p := Parsing(InPending, q.pending + pending, q.friends);
    ReadLinesAppend(START, c, [Skip, Header(InFriends)]);
    ReadHeading(p, InFriends);
    ReadLinesAppend(START, c + [Skip, Header(InFriends)], Names(friends));
    ReadNames(p.(section := InFriends), friends);
  }

  /** The prefix that is left after the first `skip` of `k` lines. */
  function Upto(names: seq<string>, k: nat, skip: nat): (r: seq<string>)
    ensures r <= names
  {
    if k <= skip then [] else if k - skip < |names| then names[..k - skip] else names
  }

  /** What the bot learns from a friend list. */
  function Learned(list: FriendList): Parsing
  {
    ReadPayload(Cut(Unlines(AllLines(list))))
  }

  lemma AllLinesAreOneLine(list: FriendList)
    requires OneLineList(list)
    ensures AllOneLine(AllLines(list))
  {
    assert OneLine("Blocked") && OneLine("Request") && OneLine("Friends") && OneLine(DASHES);
  }

  // ------------------------------------------------------------------ exactly which names agree

  /** The section the parser is in before line j of the blocked names. */
  function SectionBefore(lines: seq<Line>, j: nat): (s: Section)
    requires j <= |lines|
  {
    if j == 0 then InBlocked
    else if lines[j - 1].Header? then lines[j - 1].section
    else SectionBefore(lines, j - 1)
  }

  predicate InertUpto(lines: seq<Line>, j: nat)
    requires j <= |lines|
  {
    forall i :: 0 <= i < j && lines[i].Name? ==> !SectionBefore(lines, i).InPending? && !SectionBefore(lines, i).InFriends?
  }

  /** No blocked name stands behind a blocked "Request" or "Friends" that is still in force. */
  predicate Inert(blocked: seq<string>) { InertUpto(Kinds(blocked), |blocked|) }

  lemma {:induction false} ReadBlocked(lines: seq<Line>, j: nat)
    requires j <= |lines|
    ensures var r := ReadLines(Parsing(InBlocked, [], []), lines[..j]);
            r.section == SectionBefore(lines, j) && (r.pending == [] && r.friends == [] <==> InertUpto(lines, j))
  {
    if j > 0 {
      var p := Parsing(InBlocked, [], []);
      ReadBlocked(lines, j - 1);
      assert lines[..j] == lines[..j - 1] + [lines[j - 1]] && [lines[j - 1]][1..] == [];
      ReadLinesAppend(p, lines[..j - 1], [lines[j - 1]]);
    }
  }

  predicate NamesPlain(lines: seq<Line>) { forall line :: line in lines && line.Name? ==> Plain(line.name) }

  /** Everything that comes out of the parser is plain, whatever went in. */
  lemma {:induction false} LearnedIsPlain(p: Parsing, lines: seq<Line>)
    requires AllPlain(p.pending) && AllPlain(p.friends) && NamesPlain(lines)
    ensures AllPlain(ReadLines(p, lines).pending) && AllPlain(ReadLines(p, lines).friends)
    decreases |lines|
  {
    if lines != [] {
      assert lines[0] in lines;
      PlainLine(p, lines[0]);
      PlainRest(lines);
      LearnedIsPlain(ReadLine(p, lines[0]), lines[1..]);
    }
  }

  lemma PlainRest(lines: seq<Line>)
    requires lines != [] && NamesPlain(lines)
    ensures NamesPlain(lines[1..])
  {
    assert lines == [lines[0]] + lines[1..];
  }

  lemma PlainLine(p: Parsing, line: Line)
    requires AllPlain(p.pending) && AllPlain(p.friends) && (line.Name? ==> Plain(line.name))
    ensures AllPlain(ReadLine(p, line).pending) && AllPlain(ReadLine(p, line).friends)
  {
    if line.Name? {
      PlainSnoc(p.pending, line.name);
      PlainSnoc(p.friends, line.name);
    }
  }

  lemma PlainSnoc(names: seq<string>, name: string)
    requires AllPlain(names) && Plain(name)
    ensures AllPlain(names + [name])
  {
  }

  lemma KindsArePlain(raws: seq<string>)
    ensures NamesPlain(Kinds(raws))
  {
    forall line | line in Kinds(raws) && line.Name?
      ensures Plain(line.name)
    {
      var i :| 0 <= i < |raws| && Kinds(raws)[i] == line;
      TakenIsPlain(raws[i]);
    }
  }

  /** So the bot never learns anything but plain names. */
  lemma PayloadIsPlain(payload: string)
    ensures AllPlain(ReadPayload(payload).pending) && AllPlain(ReadPayload(payload).friends)
  {
    KindsArePlain(TrustedLines(payload));
    LearnedIsPlain(START, Kinds(TrustedLines(payload)));
  }

  /** Of each section the names among the first k printed lines. */
  function FirstLines(list: FriendList, k: nat): (r: FriendList)
    ensures r.blocked <= list.blocked && r.pending <= list.pending && r.friends <= list.friends
  {
    FriendList(Upto(list.blocked, k, 1), Upto(list.pending, k, |list.blocked| + 3),
               Upto(list.friends, k, |list.blocked| + |list.pending| + 5))
  }

  /** What arrives of a list: the names whose lines lie wholly within the packet. */
  function Arrived(list: FriendList): (r: FriendList)
    ensures r.blocked <= list.blocked && r.pending <= list.pending && r.friends <= list.friends
  {
    FirstLines(list, Whole(AllLines(list), MAX_PAYLOAD))
  }

  /** A friend arrives only behind all the requests, and everything arrives when the text fits. */
  lemma ArrivedInOrder(list: FriendList)
    ensures Arrived(list).friends != [] ==> Arrived(list).pending == list.pending && Arrived(list).blocked == list.blocked
    ensures Arrived(list).pending != [] ==> Arrived(list).blocked == list.blocked
    ensures |Unlines(AllLines(list))| <= MAX_PAYLOAD ==> Arrived(list) == list
  {
    if |Unlines(AllLines(list))| <= MAX_PAYLOAD {
      WholeIsAll(AllLines(list), MAX_PAYLOAD);
    }
  }

  /** The lines before the pending names, before the friends, and all of them. */
  function BlockedLines(blocked: seq<string>): seq<string> { ["Blocked"] + blocked }
  function PendingLines(blocked: seq<string>, pending: seq<string>): seq<string>
  {
    BlockedLines(blocked) + [DASHES, "Request"] + pending
  }

  /** Where the cut can fall: before anything, among the blocked names, behind them, among the
      pending names, behind them, or among the friends. */
  lemma CutLines(list: FriendList, k: nat)
    requires k <= |AllLines(list)|
    ensures var b, p := |list.blocked|, |list.pending|;
            AllLines(list)[..k] ==
            if k == 0 then []
            else if k <= b + 1 then BlockedLines(Upto(list.blocked, k, 1))
            else if k == b + 2 then BlockedLines(list.blocked) + [DASHES]
            else if k <= b + p + 3 then PendingLines(list.blocked, Upto(list.pending, k, b + 3))
            else if k == b + p + 4 then PendingLines(list.blocked, list.pending) + [DASHES]
            else AllLines(FirstLines(list, k))
  {
  }

  /** What the parser has after the blocked names. */
  function AfterBlocked(blocked: seq<string>): Parsing { ReadLines(Parsing(InBlocked, [], []), Kinds(blocked)) }

  /** What the parser makes of some printed lines. */
  function ReadPrinted(lines: seq<string>): Parsing { ReadLines(START, Kinds(lines)) }

  lemma ReadBlockedLines(blocked: seq<string>)
    ensures ReadPrinted(BlockedLines(blocked)) == AfterBlocked(blocked)
  {
    FixedKinds();
    KindsAppend(["Blocked"], blocked);
    ReadLinesAppend(START, [Header(InBlocked)], Kinds(blocked));
    ReadHeading(START, InBlocked);
  }

  lemma ReadPendingLines(blocked: seq<string>, pending: seq<string>)
    requires AllPlain(pending)
    ensures var q := AfterBlocked(blocked);
            ReadPrinted(PendingLines(blocked, pending)) == Parsing(InPending, q.pending + pending, q.friends)
  {
    FixedKinds();
    PlainKinds(pending);
    KindsAppend(["Blocked"], blocked);
    KindsAppend(BlockedLines(blocked), [DASHES, "Request"]);
    KindsAppend(BlockedLines(blocked) + [DASHES, "Request"], pending);
    ReadToPending(Kinds(blocked), pending);
  }

  /** Dashes at the end change nothing. */
  lemma ReadDashes(lines: seq<string>)
    ensures ReadPrinted(lines + [DASHES]) == ReadPrinted(lines)
  {
    FixedLines();
    KindsOfOne(DASHES);
    KindsAppend(lines, [DASHES]);
    ReadLinesAppend(START, Kinds(lines), [Skip]);
    ReadHeading(ReadPrinted(lines), InBlocked);
  }

  lemma LearnedIsPrinted(list: FriendList)
    requires OneLineList(list)
    ensures Learned(list) == ReadPrinted(AllLines(list)[..Whole(AllLines(list), MAX_PAYLOAD)])
  {
    AllLinesAreOneLine(list);
    ReadsWholeLines(AllLines(list));
    KindsOfPrefix(AllLines(list), Whole(AllLines(list), MAX_PAYLOAD));
  }

  /** `r` is what the parser makes of a list of which `blocked`, `pending` and `friends` arrived. */
  predicate ReadsAs(r: Parsing, a: FriendList)
  {
    r.pending == AfterBlocked(a.blocked).pending + a.pending && r.friends == AfterBlocked(a.blocked).friends + a.friends
  }

  lemma ReadAllLines(list: FriendList)
    requires AllPlain(list.pending) && AllPlain(list.friends)
    ensures ReadsAs(ReadPrinted(AllLines(list)), list)
  {
    PrintedIsSeen(list);
    ReadToFriends(Kinds(list.blocked), list.pending, list.friends);
  }

  lemma NothingBehind(blocked: seq<string>, pending: seq<string>)
    ensures ReadsAs(AfterBlocked(blocked), FriendList(blocked, [], []))
    ensures var q := AfterBlocked(blocked);
            ReadsAs(Parsing(InPending, q.pending + pending, q.friends), FriendList(blocked, pending, []))
  {
    var q := AfterBlocked(blocked);
    assert q.pending + [] == q.pending && q.friends + [] == q.friends;
  }

  lemma ReadCutInBlocked(list: FriendList, k: nat)
    requires k <= |list.blocked| + 2
    ensures ReadsAs(ReadPrinted(AllLines(list)[..k]), FirstLines(list, k))
  {
    var a := FirstLines(list, k);
    CutLines(list, k);
    NothingBehind(a.blocked, []);
    if k == 0 {
      NothingRead();
    } else {
      ReadBlockedLines(a.blocked);
      ReadDashes(BlockedLines(a.blocked));
    }
  }

  lemma ReadCutInPending(list: FriendList, k: nat)
    requires |list.blocked| + 3 <= k <= |list.blocked| + |list.pending| + 4 && AllPlain(FirstLines(list, k).pending)
    ensures ReadsAs(ReadPrinted(AllLines(list)[..k]), FirstLines(list, k))
  {
    var a := FirstLines(list, k);
    CutLines(list, k);
    NothingBehind(a.blocked, a.pending);
    ReadPendingLines(a.blocked, a.pending);
    ReadDashes(PendingLines(a.blocked, a.pending));
  }

  lemma ReadCutInFriends(list: FriendList, k: nat)
    requires |list.blocked| + |list.pending| + 5 <= k <= |AllLines(list)|
    requires AllPlain(FirstLines(list, k).pending) && AllPlain(FirstLines(list, k).friends)
    ensures ReadsAs(ReadPrinted(AllLines(list)[..k]), FirstLines(list, k))
  {
    CutLines(list, k);
    ReadAllLines(FirstLines(list, k));
  }

  /** When the pending and friend names that arrive are plain, the bot learns them behind
      whatever it made of the blocked names. */
  lemma LearnedBehindBlocked(list: FriendList)
    requires OneLineList(list) && AllPlain(Arrived(list).pending) && AllPlain(Arrived(list).friends)
    ensures ReadsAs(Learned(list), Arrived(list))
  {
    LearnedIsPrinted(list);
    ReadCut(list, Whole(AllLines(list), MAX_PAYLOAD));
  }

  lemma ReadCut(list: FriendList, k: nat)
    requires k <= |AllLines(list)| && AllPlain(FirstLines(list, k).pending) && AllPlain(FirstLines(list, k).friends)
    ensures ReadsAs(ReadPrinted(AllLines(list)[..k]), FirstLines(list, k))
  {
    if k <= |list.blocked| + 2 {
      ReadCutInBlocked(list, k);
    } else if k <= |list.blocked| + |list.pending| + 4 {
      ReadCutInPending(list, k);
    } else {
      ReadCutInFriends(list, k);
    }
  }

  lemma NothingRead()
    ensures ReadPrinted([]) == START && AfterBlocked([]) == Parsing(InBlocked, [], [])
  {
  }

  lemma KindsOfPrefix(lines: seq<string>, k: nat)
    requires k <= |lines|
    ensures Kinds(lines[..k]) == Kinds(lines)[..k]
  {
  }

  /** For every list, however much of it is cut off: the bot learns exactly the requests and the
      friends that arrived if and only if those names are plain and the blocked names that
      arrived are inert. */
  lemma AgreementExactly(list: FriendList)
    requires OneLineList(list)
    ensures Learned(list).pending == Arrived(list).pending && Learned(list).friends == Arrived(list).friends <==>
            AllPlain(Arrived(list).pending) && AllPlain(Arrived(list).friends) && Inert(Arrived(list).blocked)
  {
    PayloadIsPlain(Cut(Unlines(AllLines(list))));
    var a := Arrived(list);
    if AllPlain(a.pending) && AllPlain(a.friends) {
      LearnedBehindBlocked(list);
      InertIsSilent(a.blocked);
      OnlyEmptyAdds(AfterBlocked(a.blocked).pending, a.pending);
      OnlyEmptyAdds(AfterBlocked(a.blocked).friends, a.friends);
    }
  }

  lemma InertIsSilent(blocked: seq<string>)
    ensures AfterBlocked(blocked).pending == [] && AfterBlocked(blocked).friends == [] <==> Inert(blocked)
  {
    var lines := Kinds(blocked);
    assert lines[..|lines|] == lines;
    ReadBlocked(lines, |lines|);
  }

  /** In particular, with plain names and inert blocked ones the bot learns exactly what arrived:
      no partial and no invented name. */
  lemma CutAgreement(list: FriendList)
    requires OneLineList(list) && AllPlain(list.pending) && AllPlain(list.friends) && Inert(list.blocked)
    ensures Learned(list).pending == Arrived(list).pending && Learned(list).friends == Arrived(list).friends
  {
    ArrivesPlain(list);
    AgreementExactly(list);
  }

  lemma ArrivesPlain(list: FriendList)
    requires AllPlain(list.pending) && AllPlain(list.friends) && Inert(list.blocked)
    ensures AllPlain(Arrived(list).pending) && AllPlain(Arrived(list).friends) && Inert(Arrived(list).blocked)
  {
    PlainPart(Arrived(list), list);
    InertPart(Arrived(list).blocked, list.blocked);
  }

  lemma PlainPart(a: FriendList, list: FriendList)
    requires a.pending <= list.pending && a.friends <= list.friends
    requires AllPlain(list.pending) && AllPlain(list.friends)
    ensures AllPlain(a.pending) && AllPlain(a.friends)
  {
    PlainPrefix(a.pending, list.pending);
    PlainPrefix(a.friends, list.friends);
  }

  lemma InertPart(a: seq<string>, blocked: seq<string>)
    requires a <= blocked && Inert(blocked)
    ensures Inert(a)
  {
    assert a == blocked[..|a|];
    InertPrefix(blocked, |a|);
  }

  lemma PlainPrefix(a: seq<string>, b: seq<string>)
    requires a <= b && AllPlain(b)
    ensures AllPlain(a)
  {
    forall name | name in a
      ensures Plain(name)
    {
      assert b == a + b[|a|..];
    }
  }

  lemma InertPrefix(blocked: seq<string>, j: nat)
    requires j <= |blocked| && Inert(blocked)
    ensures Inert(blocked[..j])
  {
    KindsOfPrefix(blocked, j);
    forall i | 0 <= i < j
      ensures SectionBefore(Kinds(blocked[..j]), i) == SectionBefore(Kinds(blocked), i)
    {
      SameSection(Kinds(blocked), j, i);
    }
  }

  lemma {:induction false} SameSection(lines: seq<Line>, j: nat, i: nat)
    requires i <= j <= |lines|
    ensures SectionBefore(lines[..j], i) == SectionBefore(lines, i)
  {
    if i > 0 {
      SameSection(lines, j, i - 1);
    }
  }

  /** Plain blocked names are inert. */
  lemma PlainIsInert(blocked: seq<string>)
    requires AllPlain(blocked)
    ensures Inert(blocked)
  {
    PlainKinds(blocked);
    forall i | 0 <= i < |blocked|
      ensures SectionBefore(Names(blocked), i).InBlocked?
    {
      NamesStayBlocked(blocked, i);
    }
  }

  lemma {:induction false} NamesStayBlocked(names: seq<string>, i: nat)
    requires i <= |names|
    ensures SectionBefore(Names(names), i).InBlocked?
  {
    if i > 0 {
      NamesStayBlocked(names, i - 1);
    }
  }

  lemma OnlyEmptyAdds(a: seq<string>, b: seq<string>)
    ensures a + b == b <==> a == []
  {
    assert |a + b| == |a| + |b|;
    assert [] + b == b;
  }

  // ------------------------------------------------------------------ names that HandleNick lets through

  /** HandleNick: one word of 3 to 9 bytes, as operator>> reads it. */
  predicate IsNick(name: string)
  {
    3 <= |name| < 10 && forall i :: 0 <= i < |name| ==> !IsSpaceByte(name[i])
  }

  /** A nickname of visible ASCII characters is plain unless it is one of the three headings or
      begins with three dashes. */
  lemma AsciiNicks(name: string)
    requires IsNick(name) && forall i :: 0 <= i < |name| ==> Visible(name[i])
    ensures OneLine(name)
    ensures Plain(name) <==> !("---" <= name) && name != "Blocked" && name != "Request" && name != "Friends"
  {
    VisibleEnds(name);
  }

  /** Blocking a user called "Request", which is a valid nickname, makes the bot take the next
      blocked user for a pending request. */
  lemma InventedRequest(list: FriendList, heading: string, name: string)
    requires list == FriendList([heading, name], [], []) && heading == "Request" && IsNick(name) && Plain(name)
    ensures IsNick(heading) && Learned(list).pending == [name]
  {
    RequestIsNick();
    ShortText(list, heading, name);
    RequestThenName(heading, name);
    assert AfterBlocked(list.blocked) == Parsing(InPending, [name], []);
    LearnedWhole(list, name);
  }

  lemma RequestIsNick()
    ensures IsNick("Request")
  {
  }

  lemma LearnedWhole(list: FriendList, name: string)
    requires OneLineList(list) && |Unlines(AllLines(list))| <= MAX_PAYLOAD && list.pending == [] && list.friends == []
    requires AfterBlocked(list.blocked) == Parsing(InPending, [name], [])
    ensures Learned(list).pending == [name]
  {
    ArrivedInOrder(list);
    LearnedBehindBlocked(list);
  }

  lemma RequestThenName(heading: string, name: string)
    requires heading == "Request" && Plain(name)
    ensures ReadLines(Parsing(InBlocked, [], []), Kinds([heading, name])) == Parsing(InPending, [name], [])
  {
    FixedLines();
    PlainIsTaken(name);
    KindsOfTwo(heading, name);
    NameUnderPending(name);
  }

  lemma NameUnderPending(name: string)
    ensures ReadLines(Parsing(InBlocked, [], []), [Header(InPending), Name(name)]) == Parsing(InPending, [name], [])
  {
    var p := Parsing(InBlocked, [], []);
    ReadLinesAppend(p, [Header(InPending)], Names([name]));
    ReadHeading(p, InPending);
    ReadNames(p.(section := InPending), [name]);
    assert [Header(InPending)] + Names([name]) == [Header(InPending), Name(name)];
  }

  lemma ShortText(list: FriendList, heading: string, name: string)
    requires list == FriendList([heading, name], [], []) && heading == "Request" && IsNick(name)
    ensures OneLineList(list) && |Unlines(AllLines(list))| <= MAX_PAYLOAD
  {
    RenderedLines(list);
    UnlinesOne(heading);
    UnlinesOne(name);
    UnlinesAppend([heading], [name]);
    assert list.blocked == [heading] + [name];
  }

  /** A nickname may begin with a no-break space; the bot learns it without. */
  lemma PartialName()
    ensures var name := NBSP + "bob"; IsNick(name) && !Plain(name) && Classify(name) == Name("bob")
  {
    TrimsToBob();
    assert "bob"[0] != '-';
  }

  lemma TrimsToBob()
    ensures TrimSpace(NBSP + "bob") == "bob"
  {
    var name := NBSP + "bob";
    assert LeadingSpace(name) == 2 && name[2..] == "bob";
    VisibleEnds("bob");
  }

  const NBSP: string := [0xC2 as char, 0xA0 as char]
}
