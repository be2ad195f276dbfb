/** The lines of the ranking replies, and what a reader finds in them. */
module RankText {
  import opened Common
  import opened Decimal
  import opened Rankings

  function NameOrUnknown(e: RankEntry): string { if e.name == "" then "unknown" else e.name }

  /** "<rank>. <name>  power=<power>\n" */
  function RankLine(rank: nat, e: RankEntry): (line: string)
    ensures line != []
  {
    ToString(rank) + ". " + NameOrUnknown(e) + "  power=" + ToString(e.totalPower) + "\n"
  }

  const TOP_HEADER: string := "-- top 20 --\n"

  function MyHeader(rank: nat): (s: string)
    ensures s != []
  {
    "-- my rank: " + ToString(rank) + " --\n"
  }

  function TopLines(top: seq<RankEntry>): (lines: seq<string>)
    ensures |lines| == |top|
  {
    seq(|top|, i requires 0 <= i < |top| => RankLine(i + 1, top[i]))
  }

  function Marked(mine: bool, line: string): (s: string)
    ensures s != []
  {
    (if mine then "> " else "  ") + line
  }

  function AroundLines(around: seq<RankEntry>, start: nat, mine: nat): (lines: seq<string>)
    ensures |lines| == |around|
  {
    seq(|around|, i requires 0 <= i < |around| => Marked(start + i == mine, RankLine(start + i + 1, around[i])))
  }

  // ------------------------------------------------------------------ what a line shows

  /** A decimal numeral for n. */
  predicate Numeral(d: string, n: nat) { d != [] && (forall i :: 0 <= i < |d| ==> IsDigit(d[i])) && Value(d) == n }

  lemma PrintedIsNumeral(n: nat)
    ensures Numeral(ToString(n), n)
  {
    ValueOfToString(n);
  }

  predicate LineText(line: string, d: string, name: string, p: string)
  {
    line == d + ". " + name + "  power=" + p + "\n"
  }

  /** The line reads "<rank>. <name>  power=<power>". */
  ghost predicate Shows(line: string, rank: nat, name: string, power: nat)
  {
    exists d, p :: Numeral(d, rank) && Numeral(p, power) && LineText(line, d, name, p)
  }

  /** The number before the first dot is the rank. */
  lemma NumberBeforeTheDot(line: string, rank: nat, name: string, power: nat)
    requires Shows(line, rank, name, power)
    ensures Numeral(line[..IndexOf(line, '.')], rank)
  {
    var d, p :| Numeral(d, rank) && Numeral(p, power) && LineText(line, d, name, p);
    assert line[|d|] == '.';
    assert forall i :: 0 <= i < |d| ==> line[i] == d[i] && IsDigit(d[i]);
    assert IndexOf(line, '.') == |d|;
    assert line[..|d|] == d;
  }

  /** The name kept for u, or "unknown". */
  function DisplayName(names: map<UserId, string>, u: UserId): string
  {
    if u in names && names[u] != "" then names[u] else "unknown"
  }

  lemma RankLineShows(rank: nat, z: Scores, names: map<UserId, string>, v: UserId)
    requires v in z
    ensures Shows(RankLine(rank, Entry(z, names, v)), rank, DisplayName(names, v), z[v])
  {
    PrintedIsNumeral(rank);
    PrintedIsNumeral(z[v]);
    assert LineText(RankLine(rank, Entry(z, names, v)), ToString(rank), DisplayName(names, v), ToString(z[v]));
  }

  /** The line shows user v: the rank from 1 on, the name and the score. */
  ghost predicate ShowsUser(line: string, z: Scores, names: map<UserId, string>, v: UserId)
  {
    v in z && Shows(line, RankIn(z, v) + 1, DisplayName(names, v), z[v])
  }

  /** ... behind "> " when v is the caller u, and behind two spaces when not. */
  ghost predicate ShowsMarked(line: string, z: Scores, names: map<UserId, string>, u: UserId, v: UserId)
  {
    && |line| >= 2 && ShowsUser(line[2..], z, names, v)
    && (line[..2] == "> " <==> v == u) && (line[..2] == "  " <==> v != u)
  }

  lemma MarkedParts(mine: bool, line: string)
    ensures |Marked(mine, line)| >= 2 && Marked(mine, line)[2..] == line
    ensures Marked(mine, line)[..2] == if mine then "> " else "  "
  {
  }

  lemma MarkedShows(z: Scores, names: map<UserId, string>, u: UserId, v: UserId)
    requires v in z
    ensures ShowsMarked(Marked(v == u, RankLine(RankIn(z, v) + 1, Entry(z, names, v))), z, names, u, v)
  {
    MarkedParts(v == u, RankLine(RankIn(z, v) + 1, Entry(z, names, v)));
    RankLineShows(RankIn(z, v) + 1, z, names, v);
    assert "> "[0] != "  "[0];
  }

  /** "-- my rank: <rank> --" */
  ghost predicate HeaderShows(header: string, rank: nat)
  {
    exists d :: Numeral(d, rank) && header == "-- my rank: " + d + " --\n"
  }

  lemma MyHeaderShows(rank: nat)
    ensures HeaderShows(MyHeader(rank), rank)
  {
    PrintedIsNumeral(rank);
  }
}
