/** Ranking.cpp: the score index (a Redis sorted set) and the names (a Redis hash). */
module Rankings {
  import opened Common
  import opened Decimal
  import opened Doubles

  type UserId = nat

  datatype RankEntry = RankEntry(userId: UserId, totalPower: nat, name: string)

  // ------------------------------------------------------------------ the order of the sorted set

  /** memcmp order of the members, a proper prefix first. */
  predicate LexLess(a: string, b: string)
    decreases |a|
  {
    if b == [] then false
    else if a == [] then true
    else if a[0] != b[0] then a[0] < b[0]
    else LexLess(a[1..], b[1..])
  }

  lemma {:induction false} LexTotal(a: string, b: string)
    ensures a == b <==> !LexLess(a, b) && !LexLess(b, a)
    ensures !(LexLess(a, b) && LexLess(b, a))
    decreases |a|
  {
    if a != [] && b != [] {
      LexTotal(a[1..], b[1..]);
      assert a == [a[0]] + a[1..] && b == [b[0]] + b[1..];
    }
  }

  lemma {:induction false} LexTransitive(a: string, b: string, c: string)
    requires LexLess(a, b) && LexLess(b, c)
    ensures LexLess(a, c)
    decreases |a|
  {
    if a != [] && a[0] == b[0] && b[0] == c[0] {
      LexTransitive(a[1..], b[1..], c[1..]);
    }
  }

  /** Which of two strings is less shows at the first character in which they differ; when there
      is none the shorter is. */
  lemma {:induction false} LexAtFirstDifference(a: string, b: string, k: nat)
    requires k <= |a| && k <= |b| && a[..k] == b[..k]
    ensures k == |a| < |b| ==> LexLess(a, b) && !LexLess(b, a)
    ensures k < |a| && k < |b| && a[k] < b[k] ==> LexLess(a, b) && !LexLess(b, a)
    decreases k
  {
    if k > 0 {
      assert a[0] == a[..k][0] == b[..k][0] == b[0];
      assert a[1..][..k - 1] == a[..k][1..] && b[1..][..k - 1] == b[..k][1..];
      LexAtFirstDifference(a[1..], b[1..], k - 1);
    }
  }

  type Scores = map<UserId, nat>

  /** u stands before v in ZREVRANGE: higher score, equal scores by descending member. */
  predicate Above(z: Scores, u: UserId, v: UserId)
    requires u in z && v in z
  {
    z[u] > z[v] || (z[u] == z[v] && LexLess(ToString(v), ToString(u)))
  }

  lemma AboveTotal(z: Scores, u: UserId, v: UserId)
    requires u in z && v in z
    ensures u != v ==> Above(z, u, v) || Above(z, v, u)
    ensures !(Above(z, u, v) && Above(z, v, u))
  {
    LexTotal(ToString(u), ToString(v));
    ValueOfToString(u);
    ValueOfToString(v);
  }

  lemma AboveTransitive(z: Scores, u: UserId, v: UserId, w: UserId)
    requires u in z && v in z && w in z && Above(z, u, v) && Above(z, v, w)
    ensures Above(z, u, w)
  {
    if z[u] == z[v] == z[w] {
      LexTransitive(ToString(w), ToString(v), ToString(u));
    }
  }

  /** Members, each above all that follow. */
  ghost predicate InOrder(z: Scores, board: seq<UserId>)
  {
    && (forall i :: 0 <= i < |board| ==> board[i] in z)
    && (forall i, j :: 0 <= i < j < |board| ==> Above(z, board[i], board[j]))
  }

  /** The whole board: every member once, in order. */
  ghost predicate IsBoard(z: Scores, board: seq<UserId>)
  {
    InOrder(z, board) && forall u :: u in z ==> u in board
  }

  /** ZREVRANK: how many members stand above u. */
  ghost function RankIn(z: Scores, u: UserId): (r: nat)
    requires u in z
  {
    |AboveOf(z, u)|
  }

  ghost function AboveOf(z: Scores, u: UserId): set<UserId>
    requires u in z
  {
    set v | v in z && Above(z, v, u)
  }

  /** Top and RankOf are two views of one order: u is the i-th entry of the board exactly when
      i members stand above it. */
  lemma BoardIsRank(z: Scores, board: seq<UserId>, u: UserId, i: nat)
    requires IsBoard(z, board) && u in z
    ensures RankIn(z, u) == i <==> i < |board| && board[i] == u
  {
    var k :| 0 <= k < |board| && board[k] == u;
    Distinct(z, board);
    var before := board[..k];
    assert AboveOf(z, u) == Elements(before) by {
      forall v | v in z && Above(z, v, u)
        ensures v in before
      {
        var x :| 0 <= x < |board| && board[x] == v;
        AboveTotal(z, u, v);
        AboveTotal(z, u, u);
        assert x < k;
        assert before[x] == v;
      }
    }
    ElementsSize(before);
  }

  /** More power stands higher: along the board the scores never rise. */
  lemma BoardFalls(z: Scores, board: seq<UserId>, i: nat, j: nat)
    requires IsBoard(z, board) && i <= j < |board|
    ensures z[board[i]] >= z[board[j]]
  {
    if i < j {
      assert Above(z, board[i], board[j]);
    }
  }

  ghost function WithMore(z: Scores, score: nat): set<UserId> { set v | v in z && z[v] > score }
  ghost function WithAtLeast(z: Scores, score: nat): set<UserId> { set v | v in z && z[v] >= score }

  /** Everybody with a greater score stands above u, and nobody with a smaller one does. */
  lemma RankBounds(z: Scores, u: UserId)
    requires u in z
    ensures |WithMore(z, z[u])| <= RankIn(z, u) < |WithAtLeast(z, z[u])|
  {
    AboveTotal(z, u, u);
    var above, least := AboveOf(z, u), WithAtLeast(z, z[u]);
    SmallerSet(WithMore(z, z[u]), above);
    SmallerSet(above + {u}, least);
  }

  lemma SmallerSet(a: set<UserId>, b: set<UserId>)
    requires a <= b
    ensures |a| <= |b|
  {
    assert b == a + (b - a);
  }

  /** Raising a user's score never worsens the user's rank. */
  lemma RaisingHelps(z: Scores, u: UserId, score: nat)
    requires u in z && score >= z[u]
    ensures RankIn(z[u := score], u) <= RankIn(z, u)
  {
    var z' := z[u := score];
    AboveTotal(z', u, u);
    SmallerSet(AboveOf(z', u), AboveOf(z, u));
  }

  /** Equal scores stand by the printed ids in descending order: user 2 before user 10. */
  lemma TwoBeforeTen(z: Scores)
    requires 2 in z && 10 in z && z[2] == z[10]
    ensures Above(z, 2, 10) && RankIn(z, 2) < RankIn(z, 10)
  {
    assert ToString(10) == ToString(1) + [Digit(0)];
    assert ToString(2)[..0] == ToString(10)[..0];
    LexAtFirstDifference(ToString(10), ToString(2), 0);
    HigherRank(z, 2, 10);
  }

  /** Who stands above somebody has the better rank. */
  lemma HigherRank(z: Scores, u: UserId, v: UserId)
    requires u in z && v in z && Above(z, u, v)
    ensures RankIn(z, u) < RankIn(z, v)
  {
    forall w | w in AboveOf(z, u)
      ensures w in AboveOf(z, v)
    {
      AboveTransitive(z, w, u, v);
    }
    AboveTotal(z, u, u);
    SmallerSet(AboveOf(z, u) + {u}, AboveOf(z, v));
  }

  lemma Distinct(z: Scores, board: seq<UserId>)
    requires IsBoard(z, board)
    ensures forall i, j :: 0 <= i < j < |board| ==> board[i] != board[j]
  {
    forall i, j | 0 <= i < j < |board|
      ensures board[i] != board[j]
    {
      AboveTotal(z, board[i], board[j]);
      AboveTotal(z, board[i], board[i]);
    }
  }

  lemma BoardSize(z: Scores, board: seq<UserId>)
    requires IsBoard(z, board)
    ensures |board| == |z|
  {
    Distinct(z, board);
    ElementsSize(board);
    assert z.Keys == Elements(board);
  }

  /** There is one board. */
  lemma BoardIsUnique(z: Scores, a: seq<UserId>, b: seq<UserId>)
    requires IsBoard(z, a) && IsBoard(z, b)
    ensures a == b
  {
    BoardSize(z, a);
    BoardSize(z, b);
    forall i | 0 <= i < |a|
      ensures a[i] == b[i]
    {
      BoardIsRank(z, a, a[i], i);
      BoardIsRank(z, b, a[i], i);
    }
  }

  // ------------------------------------------------------------------ computing the board

  /** Puts u where it belongs among members that are already in order. */
  function Insert(z: Scores, board: seq<UserId>, u: UserId): (r: seq<UserId>)
    requires u in z && forall i :: 0 <= i < |board| ==> board[i] in z
    ensures forall v :: v in r <==> v == u || v in board
    decreases |board|
  {
    if board == [] then [u]
    else if Above(z, u, board[0]) then [u] + board
    else [board[0]] + Insert(z, board[1..], u)
  }

  lemma {:induction false} InsertInOrder(z: Scores, board: seq<UserId>, u: UserId)
    requires u in z && InOrder(z, board) && u !in board
    ensures InOrder(z, Insert(z, board, u))
    decreases |board|
  {
    var r := Insert(z, board, u);
    if board != [] {
      var first, rest := board[0], board[1..];
      AboveTotal(z, u, first);
      if Above(z, u, first) {
        forall j | 0 <= j < |board|
          ensures Above(z, u, board[j])
        {
          if j > 0 {
            AboveTransitive(z, u, first, board[j]);
          }
        }
      } else {
        InsertInOrder(z, rest, u);
        var tail := Insert(z, rest, u);
        forall j | 0 <= j < |tail|
          ensures Above(z, first, tail[j])
        {
          assert tail[j] in tail;
          if tail[j] != u {
            var k :| 0 <= k < |rest| && rest[k] == tail[j];
            assert board[k + 1] == tail[j];
          }
        }
      }
    }
  }

  /** ZREVRANGE 0 -1. */
  method ComputeBoard(z: Scores) returns (board: seq<UserId>)
    ensures IsBoard(z, board)
  {
    board := [];
    var left := z.Keys;
    while left != {}
      invariant left <= z.Keys && InOrder(z, board)
      invariant forall u :: u in z ==> (u in board <==> u !in left)
      decreases |left|
    {
      var u :| u in left;
      InsertInOrder(z, board, u);
      board := Insert(z, board, u);
      left := left - {u};
    }
  }

  lemma BoardExists(z: Scores) returns (board: seq<UserId>)
    ensures IsBoard(z, board)
    decreases |z|
  {
    if z == map[] {
      return [];
    }
    var u :| u in z;
    var z' := z - {u};
    var board' := BoardExists(z');
    assert InOrder(z, board') by {
      forall i, j | 0 <= i < j < |board'|
        ensures Above(z, board'[i], board'[j])
      {
        assert Above(z', board'[i], board'[j]);
      }
    }
    InsertInOrder(z, board', u);
    board := Insert(z, board', u);
    forall v | v in z
      ensures v in board
    {
      assert v == u || v in z';
    }
  }

  /** The board of a sorted set. */
  ghost function Board(z: Scores): (board: seq<UserId>)
    ensures IsBoard(z, board)
  {
    BoardHasValue(z);
    var b :| IsBoard(z, b);
    b
  }

  lemma BoardHasValue(z: Scores)
    ensures exists b :: IsBoard(z, b)
  {
    var b := BoardExists(z);
  }

  /** The inclusive index range of ZREVRANGE: negative indices count from the end, and the
      range is clamped to the board. */
  function Range<T>(board: seq<T>, start: int, stop: int): (r: seq<T>)
  {
    var n := |board|;
    var lo := if start >= 0 then start else if start + n >= 0 then start + n else 0;
    var hi := if stop < 0 then stop + n else if stop < n then stop else n - 1;
    if lo > hi || lo >= n then [] else board[lo..hi + 1]
  }

  // ------------------------------------------------------------------ the class

  function Entry(scores: Scores, names: map<UserId, string>, u: UserId): RankEntry
    requires u in scores
  {
    RankEntry(u, scores[u], if u in names then names[u] else "")
  }

  function Entries(scores: Scores, names: map<UserId, string>, ids: seq<UserId>): (r: seq<RankEntry>)
    requires forall i :: 0 <= i < |ids| ==> ids[i] in scores
    ensures |r| == |ids|
  {
    seq(|ids|, i requires 0 <= i < |ids| => Entry(scores, names, ids[i]))
  }

  lemma RangeIsRanked(scores: Scores, start: int, stop: int)
    ensures forall i :: 0 <= i < |Range(Board(scores), start, stop)| ==> Range(Board(scores), start, stop)[i] in scores
  {
  }

  /** The entries of a rank range. */
  ghost function Ranked(scores: Scores, names: map<UserId, string>, start: int, stop: int): seq<RankEntry>
  {
    RangeIsRanked(scores, start, stop);
    Entries(scores, names, Range(Board(scores), start, stop))
  }

  /** A range is a stretch of the board. */
  lemma RangeIsStretch(board: seq<UserId>, start: int, stop: int) returns (lo: nat)
    ensures var r := Range(board, start, stop); lo + |r| <= |board| && forall i :: 0 <= i < |r| ==> r[i] == board[lo + i]
  {
    var n := |board|;
    lo := if start >= 0 then start else if start + n >= 0 then start + n else 0;
    if Range(board, start, stop) == [] {
      lo := 0;
    }
  }

  lemma StretchFalls(z: Scores, board: seq<UserId>, names: map<UserId, string>, lo: nat, ids: seq<UserId>)
    requires IsBoard(z, board) && lo + |ids| <= |board| && forall i :: 0 <= i < |ids| ==> ids[i] == board[lo + i] && ids[i] in z
    ensures var out := Entries(z, names, ids); forall i, j :: 0 <= i < j < |out| ==> out[i].totalPower >= out[j].totalPower
  {
    forall i, j | 0 <= i < j < |ids|
      ensures z[ids[i]] >= z[ids[j]]
    {
      BoardFalls(z, board, lo + i, lo + j);
    }
  }

  lemma RankedFalls(scores: Scores, names: map<UserId, string>, start: int, stop: int)
    ensures var out := Ranked(scores, names, start, stop);
            forall i, j :: 0 <= i < j < |out| ==> out[i].totalPower >= out[j].totalPower
  {
    RangeIsRanked(scores, start, stop);
    var lo := RangeIsStretch(Board(scores), start, stop);
    StretchFalls(scores, Board(scores), names, lo, Range(Board(scores), start, stop));
  }

  function ScoresOf(all: seq<RankEntry>): Scores
  {
    if all == [] then map[] else ScoresOf(all[..|all| - 1])[all[|all| - 1].userId := ToDouble(all[|all| - 1].totalPower)]
  }

  function NamesOf(all: seq<RankEntry>): map<UserId, string>
  {
    if all == [] then map[] else NamesOf(all[..|all| - 1])[all[|all| - 1].userId := all[|all| - 1].name]
  }

  function AfterUpdate(scores: Scores, userId: UserId, totalPower: nat, ok: bool): Scores
  {
    if ok then scores[userId := ToDouble(totalPower)] else scores
  }

  /** The pipeline is DEL, DEL, ZADD, HMSET; a failure can leave any first part of it done. */
  function AfterRebuild(scores: Scores, all: seq<RankEntry>, done: nat): Scores
  {
    if done == 0 then scores else if all == [] || done < 3 then map[] else ScoresOf(all)
  }

  function NamesAfterRebuild(names: map<UserId, string>, all: seq<RankEntry>, done: nat): map<UserId, string>
  {
    if done < 2 then names else if all == [] || done < 4 then map[] else NamesOf(all)
  }

  // ------------------------------------------------------------------ what can stand in the index

  const WIDE: nat := 0x1_0000_0000_0000_0000      // 2^64

  /** An entry as it comes from the database: a 64-bit id and total, and a nickname. */
  predicate IsRow(r: RankEntry) { r.userId < WIDE && r.totalPower < WIDE && |r.name| < 10 }

  /** 64-bit ids, scores of 64-bit totals, and nicknames. */
  predicate Storable(scores: Scores, names: map<UserId, string>)
  {
    (forall u :: u in scores ==> u < WIDE && scores[u] <= WIDE) && (forall u :: u in names ==> |names[u]| < 10)
  }

  lemma {:induction false} RowsAreStorable(all: seq<RankEntry>)
    requires forall i :: 0 <= i < |all| ==> IsRow(all[i])
    ensures Storable(ScoresOf(all), NamesOf(all))
  {
    if all != [] {
      RowsAreStorable(all[..|all| - 1]);
      WideTotal(all[|all| - 1].totalPower);
    }
  }

  /** `ok` and `done` say how far the Redis commands of a call get before one throws. */
  class Ranking {
    var scores: Scores
    var names: map<UserId, string>

    constructor ()
      ensures scores == map[] && names == map[]
    {
      scores, names := map[], map[];
    }

    method Update(userId: UserId, totalPower: nat, ok: bool)
      modifies this`scores
      ensures scores == AfterUpdate(old(scores), userId, totalPower, ok)
      ensures userId < WIDE && totalPower < WIDE && Storable(old(scores), names) ==> Storable(scores, names)
    {
      if totalPower < WIDE {
        WideTotal(totalPower);
      }
      if !ok {
        return;
      }
      scores := scores[userId := ToDouble(totalPower)];
    }

    method Rebuild(all: seq<RankEntry>, done: nat)
      modifies this
      ensures scores == AfterRebuild(old(scores), all, done)
      ensures names == NamesAfterRebuild(old(names), all, done)
      ensures (forall i :: 0 <= i < |all| ==> IsRow(all[i])) && Storable(old(scores), old(names)) ==> Storable(scores, names)
    {
      if forall i :: 0 <= i < |all| ==> IsRow(all[i]) {
        RowsAreStorable(all);
      }
      if all == [] {
        if done >= 1 { scores := map[]; }
        if done >= 2 { names := map[]; }
        return;
      }
      var newScores: Scores, newNames: map<UserId, string> := map[], map[];
      for i := 0 to |all|
        invariant newScores == ScoresOf(all[..i]) && newNames == NamesOf(all[..i])
      {
        var r := all[i];
        assert all[..i + 1][..i] == all[..i];
        newScores := newScores[r.userId := ToDouble(r.totalPower)];
        newNames := newNames[r.userId := r.name];
      }
      assert all[..|all|] == all;
      if done >= 1 { scores := map[]; }
      if done >= 2 { names := map[]; }
      if done >= 3 { scores := newScores; }
      if done >= 4 { names := newNames; }
    }

    /** The entries of the inclusive rank range with their names, or nothing when a call fails. */
    method Top(start: int, stop: int, rangeOk: bool, namesOk: bool) returns (out: seq<RankEntry>)
      ensures out == if rangeOk && namesOk then Ranked(scores, names, start, stop) else []
      ensures forall i, j :: 0 <= i < j < |out| ==> out[i].totalPower >= out[j].totalPower
    {
      out := [];
      if !rangeOk {
        return;
      }
      var board := ComputeBoard(scores);
      BoardIsUnique(scores, board, Board(scores));
      var buf := Range(board, start, stop);
      if buf == [] || !namesOk {
        return;
      }
      RangeIsRanked(scores, start, stop);
      for i := 0 to |buf|
        invariant out == Entries(scores, names, buf[..i])
      {
        assert buf[..i + 1] == buf[..i] + [buf[i]];
        out := out + [Entry(scores, names, buf[i])];
      }
      assert buf[..|buf|] == buf;
      RankedFalls(scores, names, start, stop);
    }

    method RankOf(userId: UserId, ok: bool) returns (rank: Option<nat>)
      ensures !ok ==> rank == None
      ensures ok ==> rank == if userId in scores then Some(RankIn(scores, userId)) else None
      ensures rank.Some? ==>
                userId in scores && |WithMore(scores, scores[userId])| <= rank.value < |WithAtLeast(scores, scores[userId])|
    {
      rank := None;
      if !ok || userId !in scores {
        return;
      }
      var board := ComputeBoard(scores);
      var i := 0;
      while i < |board| && board[i] != userId
        invariant i <= |board| && userId !in board[..i]
      {
        i := i + 1;
      }
      assert i < |board|;
      BoardIsRank(scores, board, userId, i);
      RankBounds(scores, userId);
      rank := Some(i);
    }

    /** Names live apart from the scores: renaming moves nobody. */
    method SetName(userId: UserId, name: string, ok: bool)
      modifies this`names
      ensures names == if ok then old(names)[userId := name] else old(names)
      ensures |name| < 10 && Storable(scores, old(names)) ==> Storable(scores, names)
    {
      if ok {
        names := names[userId := name];
      }
    }
  }

  // ------------------------------------------------------------------ agreement with the database

  /** A change of a user's total power with the update that follows it, or a rebuild from the
      database's totals. */
  datatype Event = Changed(user: UserId, total: nat, ok: bool) | Rebuilt(all: seq<RankEntry>, done: nat)

  function Index(log: seq<Event>): Scores
  {
    if log == [] then map[]
    else match log[|log| - 1]
      case Changed(u, total, ok) => AfterUpdate(Index(log[..|log| - 1]), u, total, ok)
      case Rebuilt(all, done) => AfterRebuild(Index(log[..|log| - 1]), all, done)
  }

  function TotalIn(all: seq<RankEntry>, u: UserId): Option<nat>
  {
    if all == [] then None
    else if all[|all| - 1].userId == u then Some(all[|all| - 1].totalPower) else TotalIn(all[..|all| - 1], u)
  }

  /** What the last event that reached the index said about u; `None` when nothing did, or
      when a rebuild dropped u. */
  function LastGiven(log: seq<Event>, u: UserId): Option<nat>
  {
    if log == [] then None
    else match log[|log| - 1]
      case Changed(v, total, ok) => if ok && v == u then Some(total) else LastGiven(log[..|log| - 1], u)
      case Rebuilt(all, done) =>
        if done == 0 then LastGiven(log[..|log| - 1], u) else if done < 3 then None else TotalIn(all, u)
  }

  lemma {:induction false} ScoreInRebuild(all: seq<RankEntry>, u: UserId)
    ensures u in ScoresOf(all) <==> TotalIn(all, u).Some?
    ensures u in ScoresOf(all) ==> ScoresOf(all)[u] == ToDouble(TotalIn(all, u).value)
  {
    if all != [] {
      ScoreInRebuild(all[..|all| - 1], u);
    }
  }

  /** Of rows with different users every one is found again, name and score. */
  lemma {:induction false} RowIsKept(all: seq<RankEntry>, i: nat)
    requires i < |all| && forall j, k :: 0 <= j < k < |all| ==> all[j].userId != all[k].userId
    ensures var r := all[i];
            && r.userId in NamesOf(all) && NamesOf(all)[r.userId] == r.name
            && r.userId in ScoresOf(all) && ScoresOf(all)[r.userId] == ToDouble(r.totalPower)
  {
    if i < |all| - 1 {
      RowIsKept(all[..|all| - 1], i);
    }
  }

  /** Scores are absolute: whatever was missed before, a user's score is the total that last
      reached the index. */
  lemma {:induction false} ScoreIsLastGiven(log: seq<Event>, u: UserId)
    ensures u in Index(log) <==> LastGiven(log, u).Some?
    ensures u in Index(log) ==> Index(log)[u] == ToDouble(LastGiven(log, u).value)
  {
    if log != [] {
      ScoreIsLastGiven(log[..|log| - 1], u);
      match log[|log| - 1]
      case Rebuilt(all, done) => ScoreInRebuild(all, u);
      case _ =>
    }
  }

  /** No later event reaches u's score. */
  predicate Untouched(later: seq<Event>, u: UserId)
  {
    forall i :: 0 <= i < |later| ==>
      match later[i]
      case Changed(v, _, ok) => v != u || !ok
      case Rebuilt(_, done) => done == 0
  }

  lemma {:induction false} LaterDoesNotMatter(log: seq<Event>, later: seq<Event>, u: UserId)
    requires Untouched(later, u)
    ensures LastGiven(log + later, u) == LastGiven(log, u)
    decreases |later|
  {
    if later == [] {
      assert log + later == log;
    } else {
      var init := later[..|later| - 1];
      assert (log + later)[..|log + later| - 1] == log + init;
      assert (log + later)[|log + later| - 1] == later[|later| - 1];
      LaterDoesNotMatter(log, init, u);
    }
  }

  /** One delivered update restores agreement, however many were missed before it and whatever
      happens to other users after it: exactly when the total is representable, which every
      total up to 2^53 is. */
  lemma OneSuccessRestores(log: seq<Event>, u: UserId, total: nat, later: seq<Event>)
    requires Untouched(later, u)
    ensures var z := Index(log + [Changed(u, total, true)] + later);
            && u in z && (z[u] == total <==> total % Ulp(total) == 0)
            && (total <= EXACT ==> z[u] == total)
  {
    var now := log + [Changed(u, total, true)];
    LaterDoesNotMatter(now, later, u);
    ScoreIsLastGiven(now + later, u);
    StoredExactly(total);
  }

  /** A rebuild cut off between its DEL and its ZADD drops users that had a score. */
  lemma BrokenRebuildDropsScores()
    ensures var before := [Changed(7, 100, true)];
            7 in Index(before) && 7 !in Index(before + [Rebuilt([RankEntry(7, 100, "alice")], 1)])
  {
    var before := [Changed(7, 100, true)];
    ScoreIsLastGiven(before, 7);
    var log := before + [Rebuilt([RankEntry(7, 100, "alice")], 1)];
    assert log[..1] == before;
  }
}
