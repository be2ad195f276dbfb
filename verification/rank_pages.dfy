/** Consumer::ShowRanker and Consumer::ShowMyRank: the ranking commands, read from one
    snapshot of the index. */
module RankPages {
  import opened Common
  import opened Decimal
  import opened Doubles
  import opened Paging
  import opened Protocol
  import opened RankText
  import opened Rankings

  // ------------------------------------------------------------------ the commands

  method TopLine(top: seq<RankEntry>, i: nat) returns (line: string)
    requires i < |top|
    ensures line == TopLines(top)[i] && line != []
  {
    line := RankLine(i + 1, top[i]);
  }

  method AroundLine(around: seq<RankEntry>, start: nat, mine: nat, i: nat) returns (line: string)
    requires i < |around|
    ensures line == AroundLines(around, start, mine)[i] && line != []
  {
    line := Marked(start + i == mine, RankLine(start + i + 1, around[i]));
  }

  lemma FrontLine(lines: seq<string>, i: nat)
    requires i < |lines|
    ensures lines[i..] == [lines[i]] + lines[i + 1..]
  {
  }

  /** One turn of the packing loop; `more` are the lines to come. */
  method AddLine(sent: seq<string>, body: string, line: string, ghost more: seq<string>)
    returns (sent': seq<string>, body': string)
    requires line != []
    ensures body' != [] && sent' + Pack(body', more) == sent + Pack(body, [line] + more)
  {
    sent', body' := sent, body;
    if |body| + |line| > MAX_PAYLOAD {
      sent' := sent' + [body'];
      body' := [];
    }
    body' := body' + line;
    ghost var lines := [line] + more;
    assert lines[0] == line && lines[1..] == more;
    assert [] + line == line;
  }

  /** The messages sent for "/r". */
  method ShowRanker(r: Ranking, rangeOk: bool, namesOk: bool) returns (sent: seq<string>)
    ensures var top := Ranked(r.scores, r.names, 0, 19);
            sent == if rangeOk && namesOk && top != [] then Pack(TOP_HEADER, TopLines(top)) else ["rank is empty"]
    ensures rangeOk && namesOk && r.scores != map[] ==> IsTopText(Join(sent), r.scores, r.names)
    ensures Storable(r.scores, r.names) ==> AllFit(sent) && [] !in sent
  {
    var topRank := r.Top(0, 19, rangeOk, namesOk);
    TopTextIsSent(r.scores, r.names);
    if topRank == [] {
      return ["rank is empty"];
    }
    sent := SendTop(topRank);
    if Storable(r.scores, r.names) {
      RankedFits(r.scores, r.names);
    }
  }

  method SendTop(topRank: seq<RankEntry>) returns (sent: seq<string>)
    ensures sent == Pack(TOP_HEADER, TopLines(topRank))
  {
    sent := [];
    var body := TOP_HEADER;
    ghost var lines := TopLines(topRank);
    var i := 0;
    while i < |topRank|
      invariant i <= |topRank| && body != []
      invariant sent + Pack(body, lines[i..]) == Pack(TOP_HEADER, lines)
    {
      var line := TopLine(topRank, i);
      FrontLine(lines, i);
      sent, body := AddLine(sent, body, line, lines[i + 1..]);
      i := i + 1;
    }
    if body != [] {
      sent := sent + [body];
    }
  }

  const SPAN: nat := 5

  /** The messages sent for "/r me". */
  method ShowMyRank(r: Ranking, userId: UserId, rankOk: bool, rangeOk: bool, namesOk: bool) returns (sent: seq<string>)
    ensures !rankOk || userId !in r.scores ==> sent == ["not ranked yet"]
    ensures rankOk && userId in r.scores ==> sent == MyReply(r.scores, r.names, userId, rangeOk && namesOk)
    ensures rankOk && rangeOk && namesOk && userId in r.scores ==> IsMyText(Join(sent), r.scores, r.names, userId)
    ensures Storable(r.scores, r.names) ==> AllFit(sent) && [] !in sent
  {
    sent := [];
    var myRank := r.RankOf(userId, rankOk);
    if myRank.None? {
      sent := ["not ranked yet"];
      return;
    }
    sent := ShowAround(r, userId, myRank.value, rangeOk, namesOk);
    MyTextIsSent(r.scores, r.names, userId);
    if Storable(r.scores, r.names) {
      WindowFits(r.scores, r.names, userId, rangeOk && namesOk);
    }
  }

  method ShowAround(r: Ranking, ghost userId: UserId, mine: nat, rangeOk: bool, namesOk: bool) returns (sent: seq<string>)
    requires userId in r.scores && mine == RankIn(r.scores, userId)
    ensures sent == MyReply(r.scores, r.names, userId, rangeOk && namesOk)
  {
    var start, around := Around(r, userId, mine, rangeOk, namesOk);
    sent := SendAround(around, start, mine);
  }

  /** The entries within SPAN ranks of the caller, and the rank of the first. */
  method Around(r: Ranking, ghost userId: UserId, mine: nat, rangeOk: bool, namesOk: bool)
    returns (start: nat, around: seq<RankEntry>)
    requires userId in r.scores && mine == RankIn(r.scores, userId)
    ensures start == First(mine)
    ensures around == if rangeOk && namesOk then Window(r.scores, r.names, userId) else []
  {
    start := if mine - SPAN > 0 then mine - SPAN else 0;
    WindowIsRanked(r.scores, r.names, userId);
    around := r.Top(start, mine + SPAN, rangeOk, namesOk);
  }

  lemma WindowIsRanked(z: Scores, names: map<UserId, string>, u: UserId)
    requires u in z
    ensures Ranked(z, names, First(RankIn(z, u)), RankIn(z, u) + SPAN) == Window(z, names, u)
  {
    RankIsOnBoard(z, u);
    RangeIsWindow(Board(z), RankIn(z, u));
  }

  lemma RangeIsWindow(board: seq<UserId>, mine: nat)
    requires mine < |board|
    ensures Range(board, First(mine), mine + SPAN) == board[First(mine)..Last(|board|, mine) + 1]
  {
  }

  method SendAround(entries: seq<RankEntry>, start: nat, mine: nat) returns (sent: seq<string>)
    requires start == First(mine)
    ensures sent == Reply(entries, mine)
  {
    sent := [];
    var header := MyHeader(mine + 1);
    var body := header;
    ghost var lines := AroundLines(entries, start, mine);
    var i := 0;
    while i < |entries|
      invariant i <= |entries| && body != []
      invariant sent + Pack(body, lines[i..]) == Pack(header, lines)
    {
      var line := AroundLine(entries, start, mine, i);
      FrontLine(lines, i);
      sent, body := AddLine(sent, body, line, lines[i + 1..]);
      i := i + 1;
    }
    if body != [] {
      sent := sent + [body];
    }
  }

  // ------------------------------------------------------------------ the window

  function First(mine: nat): (start: nat) { if mine <= SPAN then 0 else mine - SPAN }

  function Last(n: nat, mine: nat): (last: nat)
    requires mine < n
  {
    if mine + SPAN < n then mine + SPAN else n - 1
  }

  /** The entries at ranks First .. Last around u, in board order. */
  ghost function Window(z: Scores, names: map<UserId, string>, u: UserId): (around: seq<RankEntry>)
    requires u in z
  {
    RankIsOnBoard(z, u);
    var mine := RankIn(z, u);
    Entries(z, names, Board(z)[First(mine)..Last(|Board(z)|, mine) + 1])
  }

  /** The header and the window, the caller's line marked, packed; the window is missing when it
      could not be read. */
  ghost function MyReply(z: Scores, names: map<UserId, string>, u: UserId, ok: bool): seq<string>
    requires u in z
  {
    Reply(if ok then Window(z, names, u) else [], RankIn(z, u))
  }

  function Reply(around: seq<RankEntry>, mine: nat): seq<string>
  {
    Pack(MyHeader(mine + 1), AroundLines(around, First(mine), mine))
  }

  lemma RankIsOnBoard(z: Scores, u: UserId)
    requires u in z
    ensures RankIn(z, u) < |Board(z)| && Board(z)[RankIn(z, u)] == u
  {
    BoardIsRank(z, Board(z), u, RankIn(z, u));
  }

  /** One line of the window is marked, and it is the caller's; the lines are numbered by the
      ranks of the users they show, and show everybody within SPAN ranks. */
  lemma ExactlyTheCallerIsMarked(z: Scores, names: map<UserId, string>, u: UserId, i: nat)
    requires u in z && i < |Window(z, names, u)|
    ensures var mine, around := RankIn(z, u), Window(z, names, u);
            && First(mine) <= mine < First(mine) + |around|
            && (First(mine) + i == mine <==> around[i].userId == u)
            && around[i].userId in z && RankIn(z, around[i].userId) == First(mine) + i
  {
    WindowAt(z, names, u, i);
    var place := First(RankIn(z, u)) + i;
    BoardIsRank(z, Board(z), u, place);
    BoardIsRank(z, Board(z), Board(z)[place], place);
  }

  lemma WindowAt(z: Scores, names: map<UserId, string>, u: UserId, i: nat)
    requires u in z && i < |Window(z, names, u)|
    ensures RankIn(z, u) < |Board(z)| && |Window(z, names, u)| == Last(|Board(z)|, RankIn(z, u)) + 1 - First(RankIn(z, u))
    ensures var v := Board(z)[First(RankIn(z, u)) + i]; v in z && Window(z, names, u)[i] == Entry(z, names, v)
  {
    RankIsOnBoard(z, u);
  }

  /** Whoever is within SPAN ranks of the caller is in the window. */
  lemma NeighboursAreShown(z: Scores, names: map<UserId, string>, u: UserId, v: UserId)
    requires u in z && v in z
    ensures var mine, his := RankIn(z, u), RankIn(z, v);
            mine - SPAN <= his <= mine + SPAN <==>
            0 <= his - First(mine) < |Window(z, names, u)| && Window(z, names, u)[his - First(mine)] == Entry(z, names, v)
  {
    RankIsOnBoard(z, u);
    RankIsOnBoard(z, v);
  }

  // ------------------------------------------------------------------ the text that is sent

  /** The line shows the user of this rank. */
  ghost predicate TopLineAt(line: string, z: Scores, names: map<UserId, string>, rank: nat)
  {
    exists v :: ShowsUser(line, z, names, v) && RankIn(z, v) == rank
  }

  /** The line shows the user of this rank, marked exactly when that is the caller u. */
  ghost predicate MyLineAt(line: string, z: Scores, names: map<UserId, string>, u: UserId, rank: nat)
  {
    exists v :: ShowsMarked(line, z, names, u, v) && RankIn(z, v) == rank
  }

  /** Line i shows the user of rank i. */
  ghost predicate AreTopLines(lines: seq<string>, z: Scores, names: map<UserId, string>)
  {
    && |lines| == (if |z| < 20 then |z| else 20)
    && forall i :: 0 <= i < |lines| ==> TopLineAt(lines[i], z, names, i)
  }

  ghost predicate IsTopText(text: string, z: Scores, names: map<UserId, string>)
  {
    exists lines :: AreTopLines(lines, z, names) && text == "-- top 20 --\n" + Join(lines)
  }

  /** Line i shows the user i places behind the first of the window, and marks exactly the caller. */
  ghost predicate AreMyLines(lines: seq<string>, z: Scores, names: map<UserId, string>, u: UserId)
    requires u in z
  {
    var mine := RankIn(z, u);
    var start := if mine < 5 then 0 else mine - 5;
    && |lines| == (if mine + 5 < |z| then mine + 6 else |z|) - start
    && forall i :: 0 <= i < |lines| ==> MyLineAt(lines[i], z, names, u, start + i)
  }

  ghost predicate IsMyText(text: string, z: Scores, names: map<UserId, string>, u: UserId)
    requires u in z
  {
    exists header, lines :: HeaderShows(header, RankIn(z, u) + 1) && AreMyLines(lines, z, names, u) && text == header + Join(lines)
  }

  lemma TopLineShows(z: Scores, names: map<UserId, string>, i: nat) returns (v: UserId)
    requires i < |Ranked(z, names, 0, 19)|
    ensures ShowsUser(TopLines(Ranked(z, names, 0, 19))[i], z, names, v) && RankIn(z, v) == i
  {
    RangeIsRanked(z, 0, 19);
    v := Board(z)[i];
    BoardIsRank(z, Board(z), v, i);
    RankLineShows(i + 1, z, names, v);
  }

  lemma TopTextIsSent(z: Scores, names: map<UserId, string>)
    ensures var top := Ranked(z, names, 0, 19);
            (top == [] <==> z == map[]) && IsTopText(Join(Pack(TOP_HEADER, TopLines(top))), z, names)
  {
    var top := Ranked(z, names, 0, 19);
    var lines := TopLines(top);
    TopLinesShow(z, names);
    PackKeepsText(TOP_HEADER, lines);
    assert AreTopLines(lines, z, names);
  }

  lemma TopLinesShow(z: Scores, names: map<UserId, string>)
    ensures AreTopLines(TopLines(Ranked(z, names, 0, 19)), z, names)
    ensures Ranked(z, names, 0, 19) == [] <==> z == map[]
  {
    var lines := TopLines(Ranked(z, names, 0, 19));
    BoardSize(z, Board(z));
    forall i | 0 <= i < |lines|
      ensures TopLineAt(lines[i], z, names, i)
    {
      var v := TopLineShows(z, names, i);
    }
  }

  lemma MyLineShows(z: Scores, names: map<UserId, string>, u: UserId, i: nat) returns (v: UserId)
    requires u in z && i < |Window(z, names, u)|
    ensures var mine := RankIn(z, u);
            && ShowsMarked(AroundLines(Window(z, names, u), First(mine), mine)[i], z, names, u, v)
            && RankIn(z, v) == First(mine) + i
  {
    WindowAt(z, names, u, i);
    ExactlyTheCallerIsMarked(z, names, u, i);
    v := Window(z, names, u)[i].userId;
    MarkedShows(z, names, u, v);
  }

  lemma TextOfReply(around: seq<RankEntry>, mine: nat)
    ensures Join(Reply(around, mine)) == MyHeader(mine + 1) + Join(AroundLines(around, First(mine), mine))
  {
    PackKeepsText(MyHeader(mine + 1), AroundLines(around, First(mine), mine));
  }

  lemma HeaderAndLines(header: string, lines: seq<string>, z: Scores, names: map<UserId, string>, u: UserId)
    requires u in z && HeaderShows(header, RankIn(z, u) + 1) && AreMyLines(lines, z, names, u)
    ensures IsMyText(header + Join(lines), z, names, u)
  {
  }

  lemma MyTextIsSent(z: Scores, names: map<UserId, string>, u: UserId)
    ensures u in z ==> IsMyText(Join(MyReply(z, names, u, true)), z, names, u)
  {
    if u in z {
      var mine := RankIn(z, u);
      TextOfReply(Window(z, names, u), mine);
      MyLinesShow(z, names, u);
      MyHeaderShows(mine + 1);
      HeaderAndLines(MyHeader(mine + 1), AroundLines(Window(z, names, u), First(mine), mine), z, names, u);
    }
  }

  lemma MyLinesShow(z: Scores, names: map<UserId, string>, u: UserId)
    requires u in z
    ensures AreMyLines(AroundLines(Window(z, names, u), First(RankIn(z, u)), RankIn(z, u)), z, names, u)
  {
    var mine := RankIn(z, u);
    var lines := AroundLines(Window(z, names, u), First(mine), mine);
    BoardSize(z, Board(z));
    RankIsOnBoard(z, u);
    forall i | 0 <= i < |lines|
      ensures MyLineAt(lines[i], z, names, u, First(mine) + i)
    {
      var v := MyLineShows(z, names, u, i);
    }
  }

  /** "/r" shows the users of ranks 1 to 20 (fewer on a shorter board), each under its rank. */
  lemma TopIsByRank(z: Scores, u: UserId)
    requires u in z
    ensures var top := Range(Board(z), 0, 19);
            && |top| == (if |z| < 20 then |z| else 20)
            && (RankIn(z, u) < 20 <==> u in top)
            && (RankIn(z, u) < 20 ==> RankIn(z, u) < |top| && top[RankIn(z, u)] == u)
  {
    BoardSize(z, Board(z));
    RankIsOnBoard(z, u);
    if i :| 0 <= i < |Board(z)| && i < 20 && Board(z)[i] == u {
      BoardIsRank(z, Board(z), u, i);
    }
  }

  // ------------------------------------------------------------------ every line fits

  /** With nicknames and 64-bit numbers a line takes at most 62 bytes. */
  lemma LinesFit(rank: nat, e: RankEntry, mine: bool)
    requires rank <= WIDE && e.totalPower <= WIDE && |e.name| < 10
    ensures |Marked(mine, RankLine(rank, e))| <= 62 && |RankLine(rank, e)| <= 62 && |MyHeader(rank)| <= MAX_PAYLOAD
  {
    Uint64Digits(rank);
    Uint64Digits(e.totalPower);
  }

  lemma PagesFit(header: string, lines: seq<string>)
    requires header != [] && |header| <= MAX_PAYLOAD
    requires forall i :: 0 <= i < |lines| ==> lines[i] != [] && |lines[i]| <= MAX_PAYLOAD
    ensures AllFit(Pack(header, lines)) && [] !in Pack(header, lines)
  {
    PackFits(header, lines);
    PackNonEmpty(header, lines);
  }

  predicate Printable(entries: seq<RankEntry>)
  {
    forall i :: 0 <= i < |entries| ==> entries[i].totalPower <= WIDE && |entries[i].name| < 10
  }

  /** What is read from the index is printable when what was stored there is. */
  lemma EntriesArePrintable(z: Scores, names: map<UserId, string>, ids: seq<UserId>)
    requires Storable(z, names) && forall i :: 0 <= i < |ids| ==> ids[i] in z
    ensures Printable(Entries(z, names, ids))
  {
  }

  lemma KeysBelow(z: Scores, n: nat)
    requires forall u :: u in z ==> u < n
    ensures |z| <= n
  {
    var ids := Interval(0, n);
    var used := set u | u in ids && u in z;
    assert ids == used + (ids - used);
    assert z.Keys == used;
  }

  /** There are at most 2^64 ranks. */
  lemma BoardIsWide(z: Scores, names: map<UserId, string>)
    requires Storable(z, names)
    ensures |Board(z)| <= WIDE
  {
    BoardSize(z, Board(z));
    KeysBelow(z, WIDE);
  }

  /** Nothing "/r" sends is cut or empty. */
  lemma RankedFits(z: Scores, names: map<UserId, string>)
    requires Storable(z, names)
    ensures var sent := Pack(TOP_HEADER, TopLines(Ranked(z, names, 0, 19))); AllFit(sent) && [] !in sent
  {
    RangeIsRanked(z, 0, 19);
    EntriesArePrintable(z, names, Range(Board(z), 0, 19));
    TopBodiesFit(Ranked(z, names, 0, 19));
  }

  lemma TopBodiesFit(top: seq<RankEntry>)
    requires |top| <= WIDE && Printable(top)
    ensures AllFit(Pack(TOP_HEADER, TopLines(top))) && [] !in Pack(TOP_HEADER, TopLines(top))
  {
    var lines := TopLines(top);
    forall i | 0 <= i < |top|
      ensures lines[i] != [] && |lines[i]| <= MAX_PAYLOAD
    {
      LinesFit(i + 1, top[i], false);
    }
    PagesFit(TOP_HEADER, lines);
  }

  /** Nothing "/r me" sends is cut or empty, also when the window could not be read. */
  lemma WindowFits(z: Scores, names: map<UserId, string>, u: UserId, ok: bool)
    requires u in z && Storable(z, names)
    ensures AllFit(MyReply(z, names, u, ok)) && [] !in MyReply(z, names, u, ok)
  {
    var mine := RankIn(z, u);
    RankIsOnBoard(z, u);
    BoardIsWide(z, names);
    if ok {
      EntriesArePrintable(z, names, Board(z)[First(mine)..Last(|Board(z)|, mine) + 1]);
      ReplyFits(Window(z, names, u), mine);
    } else {
      ReplyFits([], mine);
    }
  }

  lemma ReplyFits(around: seq<RankEntry>, mine: nat)
    requires First(mine) + |around| <= WIDE && mine < WIDE && Printable(around)
    ensures AllFit(Reply(around, mine)) && [] !in Reply(around, mine)
  {
    var start := First(mine);
    var lines := AroundLines(around, start, mine);
    forall i | 0 <= i < |around|
      ensures lines[i] != [] && |lines[i]| <= MAX_PAYLOAD
    {
      LinesFit(start + i + 1, around[i], start + i == mine);
    }
    LinesFit(mine + 1, RankEntry(0, 0, ""), false);
    PagesFit(MyHeader(mine + 1), lines);
  }
}
