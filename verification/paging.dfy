/** The greedy line packer of Consumer::ShowRanker and Consumer::ShowMyRank. */
module Paging {
  import opened Common
  import opened Protocol

  /** The bodies sent for `lines` when `body` has been collected so far. */
  function Pack(body: string, lines: seq<string>): (sent: seq<string>)
    ensures sent != []
    decreases |lines|
  {
    if lines == [] then [body]
    else if |body| + |lines[0]| > MAX_PAYLOAD then [body] + Pack(lines[0], lines[1..])
    else Pack(body + lines[0], lines[1..])
  }

  // ------------------------------------------------------------------ lossless

  /** Nothing is lost, added or reordered. */
  lemma {:induction false} PackKeepsText(body: string, lines: seq<string>)
    ensures Join(Pack(body, lines)) == body + Join(lines)
    decreases |lines|
  {
    if lines == [] {
      assert [body][1..] == [];
    } else if |body| + |lines[0]| > MAX_PAYLOAD {
      PackKeepsText(lines[0], lines[1..]);
    } else {
      PackKeepsText(body + lines[0], lines[1..]);
    }
  }

  predicate AllFit(texts: seq<string>)
  {
    forall i :: 0 <= i < |texts| ==> |texts[i]| <= MAX_PAYLOAD
  }

  lemma AllFitCons(first: string, rest: seq<string>)
    ensures AllFit([first] + rest) <==> |first| <= MAX_PAYLOAD && AllFit(rest)
  {
    var texts := [first] + rest;
    assert texts[0] == first && texts[1..] == rest;
    assert forall i :: 0 <= i < |rest| ==> rest[i] == texts[i + 1];
  }

  /** Every body fits a packet exactly when every line and the header do. */
  lemma {:induction false} PackFits(body: string, lines: seq<string>)
    ensures AllFit(Pack(body, lines)) <==> |body| <= MAX_PAYLOAD && AllFit(lines)
    decreases |lines|
  {
    if lines != [] {
      AllFitCons(lines[0], lines[1..]);
      assert [lines[0]] + lines[1..] == lines;
      if |body| + |lines[0]| > MAX_PAYLOAD {
        PackFits(lines[0], lines[1..]);
        AllFitCons(body, Pack(lines[0], lines[1..]));
      } else {
        PackFits(body + lines[0], lines[1..]);
      }
    } else {
      AllFitCons(body, []);
      assert [body] + [] == [body];
    }
  }

  /** No body is empty. */
  lemma {:induction false} PackNonEmpty(body: string, lines: seq<string>)
    requires body != [] && forall i :: 0 <= i < |lines| ==> lines[i] != []
    ensures forall i :: 0 <= i < |Pack(body, lines)| ==> Pack(body, lines)[i] != []
    decreases |lines|
  {
    if lines != [] {
      PackNonEmpty(if |body| + |lines[0]| > MAX_PAYLOAD then lines[0] else body + lines[0], lines[1..]);
    }
  }

  // ------------------------------------------------------------------ optimal

  /** A way to send `units` in order without splitting any: consecutive groups that fit. */
  ghost predicate IsPaging(pages: seq<seq<string>>, units: seq<string>)
  {
    Join(pages) == units && forall i :: 0 <= i < |pages| ==> pages[i] != [] && |Join(pages[i])| <= MAX_PAYLOAD
  }

  /** The groups of lines behind the bodies of Pack; `page` is the group collected so far. */
  function Groups(page: seq<string>, lines: seq<string>): (pages: seq<seq<string>>)
    decreases |lines|
  {
    if lines == [] then [page]
    else if |Join(page)| + |lines[0]| > MAX_PAYLOAD then [page] + Groups([lines[0]], lines[1..])
    else Groups(page + [lines[0]], lines[1..])
  }

  /** The bodies of Pack are these groups put together, and the groups are a paging. */
  ghost predicate Pages(page: seq<string>, lines: seq<string>)
  {
    && IsPaging(Groups(page, lines), page + lines)
    && |Groups(page, lines)| == |Pack(Join(page), lines)|
    && forall i :: 0 <= i < |Groups(page, lines)| ==> Join(Groups(page, lines)[i]) == Pack(Join(page), lines)[i]
  }

  /** The bodies are whole lines put together: the packer's own output is such a paging. */
  lemma {:induction false} PackIsPaging(page: seq<string>, lines: seq<string>)
    requires page != [] && |Join(page)| <= MAX_PAYLOAD
    requires AllFit(lines)
    ensures Pages(page, lines)
    decreases |lines|
  {
    if lines == [] {
      assert [page][1..] == [] && page + [] == page;
    } else {
      JoinOne(lines[0]);
      assert AllFit(lines[1..]);
      if |Join(page)| + |lines[0]| > MAX_PAYLOAD {
        PackIsPaging([lines[0]], lines[1..]);
        Flushed(page, lines);
      } else {
        JoinSnoc(page, lines[0]);
        PackIsPaging(page + [lines[0]], lines[1..]);
        Regroup(page, [lines[0]], lines[1..]);
        assert lines == [lines[0]] + lines[1..];
      }
    }
  }

  lemma JoinOne(line: string)
    ensures Join([line]) == line
  {
    assert [line][1..] == [] && line + [] == line;
  }

  lemma Flushed(page: seq<string>, lines: seq<string>)
    requires page != [] && |Join(page)| <= MAX_PAYLOAD && lines != [] && |Join(page)| + |lines[0]| > MAX_PAYLOAD
    requires Join([lines[0]]) == lines[0] && Pages([lines[0]], lines[1..])
    ensures Pages(page, lines)
  {
    var g, p := Groups([lines[0]], lines[1..]), Pack(lines[0], lines[1..]);
    assert lines == [lines[0]] + lines[1..];
    PageFirst(page, g, lines);
    SameTexts(page, g, p);
  }

  lemma PageFirst(page: seq<string>, pages: seq<seq<string>>, units: seq<string>)
    requires page != [] && |Join(page)| <= MAX_PAYLOAD && IsPaging(pages, units)
    ensures IsPaging([page] + pages, page + units)
  {
    var all := [page] + pages;
    assert all[1..] == pages;
    forall i | 0 <= i < |all|
      ensures all[i] != [] && |Join(all[i])| <= MAX_PAYLOAD
    {
      assert i > 0 ==> all[i] == pages[i - 1];
    }
  }

  lemma SameTexts(page: seq<string>, pages: seq<seq<string>>, texts: seq<string>)
    requires |pages| == |texts| && forall i :: 0 <= i < |pages| ==> Join(pages[i]) == texts[i]
    ensures forall i :: 0 <= i < |[page] + pages| ==> Join(([page] + pages)[i]) == ([Join(page)] + texts)[i]
  {
    forall i | 0 <= i < |[page] + pages|
      ensures Join(([page] + pages)[i]) == ([Join(page)] + texts)[i]
    {
      if i > 0 {
        assert ([page] + pages)[i] == pages[i - 1] && ([Join(page)] + texts)[i] == texts[i - 1];
      }
    }
  }

  /** How often the packer flushes while reading `lines` with `size` bytes collected, and how
      many bytes it has collected at the end. */
  function Flushes(size: nat, lines: seq<string>): (r: (nat, nat))
    decreases |lines|
  {
    if lines == [] then (0, size)
    else if size + |lines[0]| > MAX_PAYLOAD then
      var r := Flushes(|lines[0]|, lines[1..]); (1 + r.0, r.1)
    else Flushes(size + |lines[0]|, lines[1..])
  }

  lemma {:induction false} PackCount(body: string, lines: seq<string>)
    ensures |Pack(body, lines)| == 1 + Flushes(|body|, lines).0
    decreases |lines|
  {
    if lines != [] {
      PackCount(if |body| + |lines[0]| > MAX_PAYLOAD then lines[0] else body + lines[0], lines[1..]);
    }
  }

  lemma {:induction false} FlushesAppend(size: nat, a: seq<string>, b: seq<string>)
    ensures var r, s := Flushes(size, a), Flushes(Flushes(size, a).1, b);
            Flushes(size, a + b) == (r.0 + s.0, s.1)
    decreases |a|
  {
    if a == [] {
      assert a + b == b;
    } else {
      assert (a + b)[1..] == a[1..] + b;
      FlushesAppend(if size + |a[0]| > MAX_PAYLOAD then |a[0]| else size + |a[0]|, a[1..], b);
    }
  }

  /** Lines that fit one packet cost at most one flush, and none when they fit behind what
      has been collected. */
  lemma {:induction false} OnePageOneFlush(size: nat, page: seq<string>)
    requires |Join(page)| <= MAX_PAYLOAD
    ensures Flushes(size, page).0 <= 1
    ensures size + |Join(page)| <= MAX_PAYLOAD ==> Flushes(size, page).0 == 0
    decreases |page|
  {
    if page != [] {
      OnePageOneFlush(if size + |page[0]| > MAX_PAYLOAD then |page[0]| else size + |page[0]|, page[1..]);
    }
  }

  lemma {:induction false} PagesBoundFlushes(size: nat, pages: seq<seq<string>>)
    requires forall i :: 0 <= i < |pages| ==> |Join(pages[i])| <= MAX_PAYLOAD
    ensures Flushes(size, Join(pages)).0 <= |pages|
    decreases |pages|
  {
    if pages != [] {
      OnePageOneFlush(size, pages[0]);
      FlushesAppend(size, pages[0], Join(pages[1..]));
      PagesBoundFlushes(Flushes(size, pages[0]).1, pages[1..]);
    }
  }

  /** No other way of sending the header and the lines in order, unsplit, uses fewer packets. */
  lemma GreedyIsOptimal(header: string, lines: seq<string>, pages: seq<seq<string>>)
    requires IsPaging(pages, [header] + lines)
    ensures |Pack(header, lines)| <= |pages|
  {
    PackCount(header, lines);
    assert pages != [] && ([header] + lines)[1..] == lines && ([header] + lines)[0] == header;
    var first := pages[0];
    assert first[0] == Join(pages)[0] == header;
    assert |header| <= |Join(first)|;
    OnePageOneFlush(0, first);
    FlushesAppend(0, first, Join(pages[1..]));
    PagesBoundFlushes(Flushes(0, first).1, pages[1..]);
    assert Flushes(0, [header] + lines) == Flushes(|header|, lines);
  }
}
