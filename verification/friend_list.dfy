/** The friend list: printed by Consumer::HandleFriendList, cut to a packet by MakePacket, and
    read back by parseFriendList of the bot.  A character stands for one byte. */
module FriendLists {
  import opened Common
  import opened Protocol

  datatype FriendList = FriendList(blocked: seq<string>, pending: seq<string>, friends: seq<string>)

  const DASHES: string := "----------------"

  // ------------------------------------------------------------------ the printer

  /** Every line followed by a newline. */
  function Unlines(lines: seq<string>): (text: string)
  {
    if lines == [] then "" else lines[0] + "\n" + Unlines(lines[1..])
  }

  function AllLines(list: FriendList): seq<string>
  {
    ["Blocked"] + list.blocked + [DASHES, "Request"] + list.pending + [DASHES, "Friends"] + list.friends
  }

  lemma {:induction false} UnlinesAppend(a: seq<string>, b: seq<string>)
    ensures Unlines(a + b) == Unlines(a) + Unlines(b)
  {
    if a == [] {
      assert a + b == b;
    } else {
      assert (a + b)[1..] == a[1..] + b;
      UnlinesAppend(a[1..], b);
    }
  }

  lemma UnlinesOne(line: string)
    ensures Unlines([line]) == line + "\n"
  {
    assert [line][1..] == [];
  }

  method AppendNames(text: string, names: seq<string>) returns (msg: string)
    ensures msg == text + Unlines(names)
  {
    msg := text;
    for i := 0 to |names|
      invariant msg == text + Unlines(names[..i])
    {
      msg := msg + names[i] + "\n";
      assert names[..i + 1] == names[..i] + [names[i]];
      UnlinesAppend(names[..i], [names[i]]);
      UnlinesOne(names[i]);
    }
    assert names[..|names|] == names;
  }

  /** The text of HandleFriendList. */
  method Render(list: FriendList) returns (msg: string)
    ensures msg == Unlines(AllLines(list))
  {
    msg := "Blocked\n";
    msg := AppendNames(msg, list.blocked);
    msg := msg + "----------------\n";
    msg := msg + "Request\n";
    msg := AppendNames(msg, list.pending);
    msg := msg + "----------------\n";
    msg := msg + "Friends\n";
    msg := AppendNames(msg, list.friends);
    RenderedLines(list);
  }

  lemma RenderedLines(list: FriendList)
    ensures Unlines(AllLines(list)) ==
            "Blocked\n" + Unlines(list.blocked) + "----------------\n" + "Request\n" + Unlines(list.pending)
            + "----------------\n" + "Friends\n" + Unlines(list.friends)
  {
    var a := ["Blocked"] + list.blocked;
    UnlinesOne("Blocked");
    UnlinesAppend(["Blocked"], list.blocked);
    var text := "Blocked\n" + Unlines(list.blocked);
    NextSection(a, text, "Request", "Request\n", list.pending);
    NextSection(a + [DASHES, "Request"] + list.pending, text + "----------------\n" + "Request\n" + Unlines(list.pending),
                "Friends", "Friends\n", list.friends);
  }

  lemma NextSection(lines: seq<string>, text: string, word: string, line: string, names: seq<string>)
    requires Unlines(lines) == text && line == word + "\n"
    ensures Unlines(lines + [DASHES, word] + names) == text + "----------------\n" + line + Unlines(names)
  {
    UnlinesAppend(lines + [DASHES, word], names);
    UnlinesAppend(lines, [DASHES, word]);
    TwoLines(word);
    Regroup(text, "----------------\n", line);
  }

  lemma TwoLines(word: string)
    ensures Unlines([DASHES, word]) == "----------------\n" + (word + "\n")
  {
    assert [DASHES, word][1..] == [word];
    UnlinesOne(word);
  }

  // ------------------------------------------------------------------ strings of Go

  /** strings.Split(s, "\n"). */
  function Split(s: string): (lines: seq<string>)
    ensures lines != []
  {
    if s == "" then [""]
    else
      var rest := Split(s[1..]);
      if s[0] == '\n' then [""] + rest else [[s[0]] + rest[0]] + rest[1..]
  }

  /** The pieces with a newline between each two. */
  function Lines(pieces: seq<string>): string
  {
    if pieces == [] then "" else if |pieces| == 1 then pieces[0] else pieces[0] + "\n" + Lines(pieces[1..])
  }

  /** Splitting gives the pieces between the newlines: put together they are the text, and none of
      them holds a newline. */
  lemma {:induction false} SplitIsLines(s: string)
    ensures Lines(Split(s)) == s && forall i :: 0 <= i < |Split(s)| ==> '\n' !in Split(s)[i]
  {
    if s == "" {
    } else {
      var rest := Split(s[1..]);
      SplitIsLines(s[1..]);
      assert s == [s[0]] + s[1..];
      if s[0] == '\n' {
        assert ([""] + rest)[1..] == rest;
      } else {
        var first := [s[0]] + rest[0];
        assert ([first] + rest[1..])[1..] == rest[1..];
        assert |rest| > 1 ==> Lines(rest) == rest[0] + "\n" + Lines(rest[1..]);
      }
    }
  }

  /** The white space of ASCII. */
  predicate IsSpaceByte(c: char) { 0x09 <= c as int <= 0x0D || c == ' ' }

  /** The k bytes from position i on are the UTF-8 encoding of a character unicode.IsSpace accepts. */
  predicate IsSpaceAt(s: string, i: nat, k: nat)
    requires i + k <= |s|
  {
    || (k == 1 && IsSpaceByte(s[i]))
    || (k == 2 && IsSpacePair(s[i] as int, s[i + 1] as int))
    || (k == 3 && IsSpaceTriple(s[i] as int, s[i + 1] as int, s[i + 2] as int))
  }

  predicate IsSpacePair(a: int, b: int) { a == 0xC2 && (b == 0x85 || b == 0xA0) }

  predicate IsSpaceTriple(a: int, b: int, c: int)
  {
    || (a == 0xE1 && b == 0x9A && c == 0x80)
    || (a == 0xE2 && b == 0x80 && (0x80 <= c <= 0x8A || c == 0xA8 || c == 0xA9 || c == 0xAF))
    || (a == 0xE2 && b == 0x81 && c == 0x9F)
    || (a == 0xE3 && b == 0x80 && c == 0x80)
  }

  /** The length of the space character at the front, 0 when there is none. */
  function LeadingSpace(s: string): (k: nat)
    ensures k <= |s| && (k > 0 ==> IsSpaceAt(s, 0, k))
  {
    if |s| >= 1 && IsSpaceAt(s, 0, 1) then 1
    else if |s| >= 2 && IsSpaceAt(s, 0, 2) then 2
    else if |s| >= 3 && IsSpaceAt(s, 0, 3) then 3
    else 0
  }

  /** ... and of the one at the back. */
  function TrailingSpace(s: string): (k: nat)
    ensures k <= |s| && (k > 0 ==> IsSpaceAt(s, |s| - k, k))
  {
    if |s| >= 1 && IsSpaceAt(s, |s| - 1, 1) then 1
    else if |s| >= 2 && IsSpaceAt(s, |s| - 2, 2) then 2
    else if |s| >= 3 && IsSpaceAt(s, |s| - 3, 3) then 3
    else 0
  }

  function TrimLeft(s: string): (r: string)
    ensures LeadingSpace(r) == 0
    ensures LeadingSpace(s) == 0 ==> r == s
    decreases |s|
  {
    var k := LeadingSpace(s);
    if k == 0 then s else TrimLeft(s[k..])
  }

  function TrimRight(s: string): (r: string)
    ensures TrailingSpace(r) == 0 && r <= s
    ensures TrailingSpace(s) == 0 ==> r == s
    decreases |s|
  {
    var k := TrailingSpace(s);
    if k == 0 then s else TrimRight(s[..|s| - k])
  }

  /** strings.TrimSpace. */
  function TrimSpace(s: string): (r: string)
  {
    TrimRight(TrimLeft(s))
  }

  /** A string is left alone exactly when it neither begins nor ends with a space character. */
  predicate Trimmed(s: string) { LeadingSpace(s) == 0 && TrailingSpace(s) == 0 }

  lemma TrimSpaceTrims(s: string)
    ensures Trimmed(TrimSpace(s))
    ensures TrimSpace(s) == s <==> Trimmed(s)
  {
    var t, r := TrimLeft(s), TrimSpace(s);
    assert r <= t;
  }

  // ------------------------------------------------------------------ the parser

  datatype Section = Outside | InBlocked | InPending | InFriends

  datatype Parsing = Parsing(section: Section, pending: seq<string>, friends: seq<string>)

  /** What the parser sees in a line. */
  datatype Line = Skip | Header(section: Section) | Name(name: string)

  function Classify(raw: string): (r: Line)
    ensures r.Name? ==> r.name == TrimSpace(raw)
  {
    var line := TrimSpace(raw);
    if line == "" || "---" <= line then Skip
    else if line == "Blocked" then Header(InBlocked)
    else if line == "Request" then Header(InPending)
    else if line == "Friends" then Header(InFriends)
    else Name(line)
  }

  /** One turn of the parser's loop. */
  function ReadLine(p: Parsing, line: Line): (r: Parsing)
  {
    match line
    case Skip => p
    case Header(section) => p.(section := section)
    case Name(name) =>
      if p.section.InPending? then p.(pending := p.pending + [name])
      else if p.section.InFriends? then p.(friends := p.friends + [name])
      else p
  }

  function ReadLines(p: Parsing, lines: seq<Line>): (r: Parsing)
    decreases |lines|
  {
    if lines == [] then p else ReadLines(ReadLine(p, lines[0]), lines[1..])
  }

  function Kinds(raws: seq<string>): (lines: seq<Line>)
    ensures |lines| == |raws|
  {
    Map(Classify, raws)
  }

  const START: Parsing := Parsing(Outside, [], [])

  /** The lines parseFriendList looks at: of a full packet the last one is not trusted. */
  function TrustedLines(payload: string): (lines: seq<string>)
  {
    var lines := Split(payload);
    if |payload| >= MAX_PAYLOAD then lines[..|lines| - 1] else lines
  }

  /** What a payload says, read line by line. */
  function ReadPayload(payload: string): Parsing { ReadLines(START, Kinds(TrustedLines(payload))) }

  method ParseFriendList(payload: string) returns (pending: seq<string>, friends: seq<string>)
    ensures pending == ReadPayload(payload).pending && friends == ReadPayload(payload).friends
  {
    pending, friends := [], [];
    var lines := Split(payload);
    if |payload| >= MAX_PAYLOAD && |lines| > 0 {
      lines := lines[..|lines| - 1];
    }
    var section := Outside;
    var i := 0;
    while i < |lines|
      invariant i <= |lines|
      invariant ReadLines(Parsing(section, pending, friends), Kinds(lines)[i..]) == ReadLines(START, Kinds(lines))
    {
      assert Kinds(lines)[i..][0] == Classify(lines[i]) && Kinds(lines)[i..][1..] == Kinds(lines)[i + 1..];
      match Classify(lines[i]) {
        case Skip =>
        case Header(header) => section := header;
        case Name(name) =>
          if section.InPending? {
            pending := pending + [name];
          } else if section.InFriends? {
            friends := friends + [name];
          }
      }
      i := i + 1;
    }
  }
}
