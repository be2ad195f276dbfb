/** SessionManager::Post and SessionManager::Create: which shard a session belongs to. */
module Routing {

  /** sid % n, the shard of a session. */
  function Shard(sid: nat, n: nat): (j: nat)
    requires n > 0
    ensures j < n
  {
    sid % n
  }

  /** Sessions are dealt out to n shards in turn: sid is the j-th of its turn. */
  predicate AtTurn(sid: nat, n: nat, turn: nat, j: nat) { j < n && sid == n * turn + j }

  /** The place of a session when sessions are dealt out to n shards in turn. */
  ghost predicate DealtTo(sid: nat, n: nat, j: nat) { exists turn: nat :: AtTurn(sid, n, turn, j) }

  lemma Distribute(n: nat, a: nat, b: nat)
    ensures n * (a + b) == n * a + n * b
  {
  }

  lemma AtLeastOne(n: nat, d: nat)
    requires d >= 1
    ensures n * d >= n
  {
  }

  lemma MoreTurns(n: nat, t: nat, u: nat)
    requires t < u
    ensures n * u >= n * t + n
  {
    Distribute(n, t, u - t);
    AtLeastOne(n, u - t);
  }

  /** A session has one turn and one place in it. */
  lemma OnePlace(sid: nat, n: nat, t: nat, j: nat, u: nat, k: nat)
    requires AtTurn(sid, n, t, j) && AtTurn(sid, n, u, k)
    ensures t == u && j == k
  {
    if t < u {
      MoreTurns(n, t, u);
    } else if u < t {
      MoreTurns(n, u, t);
    }
  }

  /** The shard of a session is its place when sessions are dealt out in turn, and no other. */
  lemma ShardIsDealt(sid: nat, n: nat, j: nat)
    requires n > 0
    ensures Shard(sid, n) == j <==> DealtTo(sid, n, j)
  {
    var turn := sid / n;
    assert AtTurn(sid, n, turn, Shard(sid, n));
    if u: nat :| AtTurn(sid, n, u, j) {
      OnePlace(sid, n, turn, Shard(sid, n), u, j);
    }
  }

  /** Sessions of the same place are at least n apart. */
  lemma FarApart(n: nat, t: nat, u: nat, j: nat, a: nat, b: nat)
    requires AtTurn(a, n, t, j) && AtTurn(b, n, u, j) && a < b
    ensures b >= a + n
  {
    if u <= t {
      if u < t {
        MoreTurns(n, u, t);
      }
    } else {
      MoreTurns(n, t, u);
    }
  }

  /** From any session on, the one of the next n that has place j. */
  lemma NextOfPlace(first: nat, n: nat, turn: nat, r: nat, j: nat) returns (sid: nat)
    requires AtTurn(first, n, turn, r) && j < n
    ensures first <= sid < first + n && DealtTo(sid, n, j)
  {
    if j >= r {
      sid := first + (j - r);
      assert AtTurn(sid, n, turn, j);
    } else {
      sid := first + (j + n - r);
      Distribute(n, turn, 1);
      assert AtTurn(sid, n, turn + 1, j);
    }
  }

  /** Of any n sessions with consecutive ids every shard gets exactly one. */
  lemma EveryShardOnce(first: nat, n: nat, j: nat) returns (sid: nat)
    requires j < n
    ensures first <= sid < first + n && Shard(sid, n) == j
    ensures forall other :: first <= other < first + n && Shard(other, n) == j ==> other == sid
  {
    ShardIsDealt(first, n, Shard(first, n));
    var turn: nat :| AtTurn(first, n, turn, Shard(first, n));
    sid := NextOfPlace(first, n, turn, Shard(first, n), j);
    ShardIsDealt(sid, n, j);
    var t: nat :| AtTurn(sid, n, t, j);
    forall other | first <= other < first + n && Shard(other, n) == j
      ensures other == sid
    {
      ShardIsDealt(other, n, j);
      var u: nat :| AtTurn(other, n, u, j);
      if other < sid {
        FarApart(n, u, t, j, other, sid);
      } else if sid < other {
        FarApart(n, t, u, j, sid, other);
      }
    }
  }
}
