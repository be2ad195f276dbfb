/** UTF-8 well-formedness (section 4 of RFC 3629) and the back-off cut of bot/protocol.go. */
module Utf8 {
  import opened Common

  // ------------------------------------------------------------------ the grammar

  predicate Tail(b: Byte) { 0x80 <= b <= 0xBF }

  /** UTF8-char: UTF8-1 / UTF8-2 / UTF8-3 / UTF8-4. */
  predicate IsChar(s: seq<Byte>)
  {
    || (|s| == 1 && s[0] <= 0x7F)
    || (|s| == 2 && 0xC2 <= s[0] <= 0xDF && Tail(s[1]))
    || (|s| == 3 && Tail(s[2]) &&
        ((s[0] == 0xE0 && 0xA0 <= s[1] <= 0xBF) || (0xE1 <= s[0] <= 0xEC && Tail(s[1])) ||
         (s[0] == 0xED && 0x80 <= s[1] <= 0x9F) || (0xEE <= s[0] <= 0xEF && Tail(s[1]))))
    || (|s| == 4 && Tail(s[2]) && Tail(s[3]) &&
        ((s[0] == 0xF0 && 0x90 <= s[1] <= 0xBF) || (0xF1 <= s[0] <= 0xF3 && Tail(s[1])) ||
         (s[0] == 0xF4 && 0x80 <= s[1] <= 0x8F)))
  }

  /** UTF8-octets = *( UTF8-char ). */
  ghost predicate WellFormed(s: seq<Byte>)
    decreases |s|
  {
    s == [] || exists k :: 1 <= k <= |s| && IsChar(s[..k]) && WellFormed(s[k..])
  }

  // ------------------------------------------------------------------ a scanner for it

  /** The length of the character at the front, 0 when there is none. */
  function CharLen(s: seq<Byte>): (n: nat)
    ensures n <= |s| && n <= 4
    ensures n > 0 ==> IsChar(s[..n])
  {
    if |s| >= 1 && IsChar(s[..1]) then 1
    else if |s| >= 2 && IsChar(s[..2]) then 2
    else if |s| >= 3 && IsChar(s[..3]) then 3
    else if |s| >= 4 && IsChar(s[..4]) then 4
    else 0
  }

  /** utf8.Valid: scan character by character, failing at the first that is not one. */
  predicate Valid(s: seq<Byte>)
    decreases |s|
  {
    s == [] || (CharLen(s) > 0 && Valid(s[CharLen(s)..]))
  }

  /** No character is a proper prefix of another: the front of a string decodes one way. */
  lemma CharsArePrefixFree(s: seq<Byte>, k: nat)
    requires 1 <= k <= |s| && IsChar(s[..k])
    ensures CharLen(s) == k
  {
    var n := CharLen(s);
    assert s[..n][0] == s[0] && s[..k][0] == s[0];
  }

  lemma {:induction false} ValidIsWellFormed(s: seq<Byte>)
    ensures Valid(s) <==> WellFormed(s)
    decreases |s|
  {
    if s != [] {
      var n := CharLen(s);
      if n > 0 {
        ValidIsWellFormed(s[n..]);
      }
      if k :| 1 <= k <= |s| && IsChar(s[..k]) && WellFormed(s[k..]) {
        CharsArePrefixFree(s, k);
      }
    }
  }

  // ------------------------------------------------------------------ well-formed prefixes

  lemma SplitFront(r: seq<Byte>, t: seq<Byte>, k: nat)
    requires k <= |r|
    ensures (r + t)[..k] == r[..k] && (r + t)[k..] == r[k..] + t
  {
  }

  lemma {:induction false} Concatenation(r: seq<Byte>, t: seq<Byte>)
    requires WellFormed(r)
    ensures WellFormed(r + t) <==> WellFormed(t)
    decreases |r|
  {
    if r == [] {
      assert r + t == t;
    } else {
      var k :| 1 <= k <= |r| && IsChar(r[..k]) && WellFormed(r[k..]);
      var s := r + t;
      SplitFront(r, t, k);
      Concatenation(r[k..], t);
      if WellFormed(s) {
        var k' :| 1 <= k' <= |s| && IsChar(s[..k']) && WellFormed(s[k'..]);
        CharsArePrefixFree(s, k);
        CharsArePrefixFree(s, k');
      }
    }
  }

  /** The characters that can be read off the front. */
  function Scanned(b: seq<Byte>): (r: seq<Byte>)
    ensures r <= b
    decreases |b|
  {
    var n := CharLen(b);
    if n == 0 then [] else b[..n] + Scanned(b[n..])
  }

  /** A well-formed prefix begins with the character at the front. */
  lemma FrontOfPrefix(b: seq<Byte>, k: nat)
    requires 1 <= k <= |b| && WellFormed(b[..k])
    ensures var n := CharLen(b); 1 <= n <= k && WellFormed(b[n..][..k - n])
  {
    var p := b[..k];
    var c :| 1 <= c <= |p| && IsChar(p[..c]) && WellFormed(p[c..]);
    assert p[..c] == b[..c];
    CharsArePrefixFree(b, c);
    assert p[c..] == b[c..][..k - c];
  }

  /** Reading forward from the front finds the longest well-formed prefix. */
  lemma {:induction false} ScannedIsLongest(b: seq<Byte>, k: nat)
    requires k <= |b|
    ensures WellFormed(Scanned(b))
    ensures WellFormed(b[..k]) ==> k <= |Scanned(b)|
    decreases |b|
  {
    var n := CharLen(b);
    if n > 0 {
      ScannedIsLongest(b[n..], if k >= n then k - n else 0);
      var s := Scanned(b);
      assert s[..n] == b[..n] && s[n..] == Scanned(b[n..]);
    }
    if k > 0 && WellFormed(b[..k]) {
      FrontOfPrefix(b, k);
    }
  }

  /** A well-formed string has a character boundary in every window of four positions. */
  lemma {:induction false} BoundaryNear(b: seq<Byte>, limit: nat) returns (k: nat)
    requires WellFormed(b) && limit <= |b|
    ensures k <= limit <= k + 3 && WellFormed(b[..k])
    decreases |b|
  {
    if b == [] {
      return 0;
    }
    var c :| 1 <= c <= |b| && IsChar(b[..c]) && WellFormed(b[c..]);
    if limit < c {
      return 0;
    }
    var k' := BoundaryNear(b[c..], limit - c);
    k := c + k';
    assert b[..k][..c] == b[..c] && b[..k][c..] == b[c..][..k'];
  }

  /** No prefix longer than n and within the limit is well-formed. */
  ghost predicate NoLonger(b: seq<Byte>, n: nat, limit: nat)
    requires limit <= |b|
  {
    forall k :: n < k <= limit ==> !WellFormed(b[..k])
  }

  ghost predicate IsTruncation(b: seq<Byte>, limit: nat, r: seq<Byte>)
  {
    if |b| <= limit then r == b
    else r <= b && |r| <= limit && WellFormed(r) && NoLonger(b, |r|, limit)
  }

  /** truncateUTF8: cut at the limit, then drop bytes until the rest is valid. */
  method TruncateUTF8(b: seq<Byte>, limit: nat) returns (r: seq<Byte>)
    ensures IsTruncation(b, limit, r)
  {
    if |b| <= limit {
      return b;
    }
    r := b[..limit];
    while |r| > 0 && !Valid(r)
      invariant |r| <= limit && r == b[..|r|]
      invariant NoLonger(b, |r|, limit)
    {
      ValidIsWellFormed(r);
      r := r[..|r| - 1];
    }
    ValidIsWellFormed(r);
  }

  function Truncated(b: seq<Byte>, limit: nat): (r: seq<Byte>)
    ensures |r| <= limit && r <= b
  {
    if |b| <= limit then b else Scanned(b[..limit])
  }

  /** Backing off from the limit and scanning from the front agree: there is one truncation. */
  lemma TruncationIsScanned(b: seq<Byte>, limit: nat, r: seq<Byte>)
    ensures IsTruncation(b, limit, r) <==> r == Truncated(b, limit)
  {
    if |b| > limit {
      var cut := b[..limit];
      var s := Scanned(cut);
      ScannedIsLongest(cut, 0);
      assert s == b[..|s|];
      forall k | |s| < k <= limit
        ensures !WellFormed(b[..k])
      {
        ScannedIsLongest(cut, k);
        assert cut[..k] == b[..k];
      }
      if IsTruncation(b, limit, r) {
        ScannedIsLongest(cut, |r|);
        assert cut[..|r|] == r;
        assert |r| == |s|;
      }
    }
  }

  /** On well-formed input at most three bytes below the limit are lost, and the cut falls on
      a character boundary: what follows is well-formed too. */
  lemma TruncationLosesAtMostThree(b: seq<Byte>, limit: nat)
    requires WellFormed(b)
    ensures var r := Truncated(b, limit);
            WellFormed(r) && WellFormed(b[|r|..]) && (|b| > limit ==> limit - 3 <= |r|)
  {
    var r := Truncated(b, limit);
    if |b| > limit {
      var k := BoundaryNear(b, limit);
      assert b[..limit][..k] == b[..k];
      ScannedIsLongest(b[..limit], k);
    }
    assert r + b[|r|..] == b;
    Concatenation(r, b[|r|..]);
  }

  /** The bound is met: a four-byte character just over the limit costs three bytes. */
  lemma ThreeBytesCanBeLost()
    ensures var b := [0xF0, 0x9F, 0x98, 0x80]; WellFormed(b) && Truncated(b, 3) == []
  {
    var b: seq<Byte> := [0xF0, 0x9F, 0x98, 0x80];
    assert b[..4] == b && IsChar(b) && WellFormed(b[4..]);
    assert CharLen(b[..3]) == 0;
  }
}
