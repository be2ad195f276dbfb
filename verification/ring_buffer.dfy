/** RingBuffer.cpp: a byte FIFO in a fixed buffer with one slot kept free.  Bytes are written
    or peeked first and committed separately by moving the tail or the head. */
module RingBuffers {
  import opened Common

  // ------------------------------------------------------------------ positions

  /** A position at most one turn past the end, brought back into the buffer. */
  function Wrap(p: nat, n: nat): (r: nat)
    requires 0 < n && p < 2 * n
    ensures r < n
  {
    if p < n then p else p - n
  }

  lemma ModIsWrap(p: nat, n: nat)
    requires 0 < n && p < 2 * n
    ensures p % n == Wrap(p, n)
  {
    if p >= n {
      ModMinus(p, n);
    }
  }

  lemma ModMinus(p: nat, n: nat)
    requires 0 < n <= p
    ensures p % n == (p - n) % n
  {
    var q, r := (p - n) / n, (p - n) % n;
    assert p == n * (q + 1) + r;
    DivModUnique(p, n, q + 1, r);
  }

  lemma DivModUnique(p: nat, n: nat, q: int, r: nat)
    requires 0 < n && p == n * q + r && r < n
    ensures p % n == r
  {
    var q', r' := p / n, p % n;
    OnlyZeroIsSmall(n, q - q', r' - r);
  }

  lemma OnlyZeroIsSmall(n: int, d: int, x: int)
    requires -n < x < n && n * d == x
    ensures d == 0
  {
    if d >= 1 {
      MulAtLeast(n, d);
    } else if d <= -1 {
      MulAtLeast(n, -d);
    }
  }

  lemma MulAtLeast(n: int, d: int)
    requires n > 0 && d >= 1
    ensures n * d >= n
  {
  }

  function Used(head: nat, tail: nat, n: nat): (r: nat)
    requires head < n && tail < n
    ensures r < n && Wrap(head + r, n) == tail
  {
    if tail >= head then tail - head else tail + n - head
  }

  function LinearUsed(head: nat, tail: nat, n: nat): (r: nat)
    requires head < n && tail < n
    ensures r <= Used(head, tail, n) && head + r <= n
    ensures r == Used(head, tail, n) || head + r == n
  {
    if tail == head then 0 else if head < tail then tail - head else n - head
  }

  function LinearEmpty(head: nat, tail: nat, n: nat): (r: nat)
    requires head < n && tail < n
    ensures r <= n - 1 - Used(head, tail, n) && tail + r < n
    ensures r == 0 && Used(head, tail, n) < n - 1 <==> tail == n - 1 && head > 0
  {
    if tail >= head then n - tail - 1 else head - tail - 1
  }

  /** `len` bytes of the buffer from `start` on, around the end. */
  function Span(a: seq<Byte>, start: nat, len: nat): (r: seq<Byte>)
    requires start < |a| && len <= |a|
    ensures |r| == len
  {
    seq(len, i requires 0 <= i < len => a[Wrap(start + i, |a|)])
  }

  lemma SpanSplit(a: seq<Byte>, start: nat, k: nat, len: nat)
    requires start < |a| && k <= len <= |a|
    ensures Span(a, start, len)[..k] == Span(a, start, k)
    ensures k < |a| ==> Span(a, start, len)[k..] == Span(a, Wrap(start + k, |a|), len - k)
  {
    if k < |a| {
      var s, t := Span(a, start, len), Span(a, Wrap(start + k, |a|), len - k);
      forall i | 0 <= i < len - k
        ensures s[k..][i] == t[i]
      {
        assert Wrap(Wrap(start + k, |a|) + i, |a|) == Wrap(start + (k + i), |a|);
      }
    }
  }

  /** At most one seam: a span is one slice, or the slice up to the end and one from the start. */
  lemma SpanSlices(a: seq<Byte>, start: nat, len: nat)
    requires start < |a| && len <= |a|
    ensures Span(a, start, len) ==
            if start + len <= |a| then a[start..start + len] else a[start..] + a[..start + len - |a|]
  {
    var s := if start + len <= |a| then a[start..start + len] else a[start..] + a[..start + len - |a|];
    forall i | 0 <= i < len
      ensures s[i] == a[Wrap(start + i, |a|)]
    {
    }
  }

  /** A write behind the tail that fits into the free space touches no committed byte. */
  lemma LiveBytesStay(a: seq<Byte>, b: seq<Byte>, head: nat, tail: nat, len: nat)
    requires |a| == |b| && head < |a| && tail < |a| && Used(head, tail, |a|) + len < |a|
    requires forall j :: 0 <= j < |a| && (j < tail || j >= tail + len) && j >= tail + len - |a| ==> b[j] == a[j]
    ensures Span(b, head, Used(head, tail, |a|)) == Span(a, head, Used(head, tail, |a|))
  {
    var s, t := Span(b, head, Used(head, tail, |a|)), Span(a, head, Used(head, tail, |a|));
    forall i | 0 <= i < Used(head, tail, |a|)
      ensures s[i] == t[i]
    {
      var p := Wrap(head + i, |a|);
      assert (p < tail || p >= tail + len) && p >= tail + len - |a|;
      assert b[p] == a[p];
    }
  }

  /** `b` is `a` after `d` has been written from `start` on, around the end. */
  predicate Written(a: seq<Byte>, b: seq<Byte>, start: nat, d: seq<Byte>)
    requires start < |a| == |b| && |d| < |a|
  {
    forall j :: 0 <= j < |b| ==>
      b[j] == if start <= j < start + |d| then d[j - start]
              else if j < start + |d| - |b| then d[j + |b| - start]
              else a[j]
  }

  lemma WrittenSpan(a: seq<Byte>, b: seq<Byte>, start: nat, d: seq<Byte>)
    requires start < |a| == |b| && |d| < |a| && Written(a, b, start, d)
    ensures Span(b, start, |d|) == d
  {
    forall i | 0 <= i < |d|
      ensures Span(b, start, |d|)[i] == d[i]
    {
      assert b[Wrap(start + i, |b|)] == d[i];
    }
  }

  // ------------------------------------------------------------------ the class

  /** memcpy between two different buffers. */
  method CopyInto(dest: array<Byte>, at: nat, src: array<Byte>, from: nat, len: nat)
    requires dest != src && at + len <= dest.Length && from + len <= src.Length
    modifies dest
    ensures forall j :: 0 <= j < dest.Length ==> dest[j] == if at <= j < at + len then src[from + (j - at)] else old(dest[j])
  {
    forall i | 0 <= i < len {
      dest[at + i] := src[from + i];
    }
  }

  class RingBuffer {
    const buffer: array<Byte>
    var head: nat
    var tail: nat

    ghost predicate Valid() reads this { buffer.Length >= 2 && head < buffer.Length && tail < buffer.Length }

    /** The committed bytes, oldest first. */
    ghost function Contents(): (r: seq<Byte>)
      requires Valid()
      reads this, buffer
      ensures |r| < buffer.Length
    {
      Span(buffer[..], head, Used(head, tail, buffer.Length))
    }

    ghost function Free(): (r: nat)
      requires Valid()
      reads this, buffer
      ensures r + |Contents()| == buffer.Length - 1
    {
      buffer.Length - 1 - |Contents()|
    }

    /** The next `len` bytes of free space, whatever they hold. */
    ghost function Window(len: nat): (r: seq<Byte>)
      requires Valid() && len <= Free()
      reads this, buffer
      ensures |r| == len
    {
      Span(buffer[..], tail, len)
    }

    constructor (size: nat)
      requires size >= 2
      ensures Valid() && fresh(buffer) && buffer.Length == size && head == tail == 0 && Contents() == []
    {
      buffer := new Byte[size](_ => 0);
      head, tail := 0, 0;
    }

    method GetUsedSize() returns (r: nat)
      requires Valid()
      ensures r == |Contents()|
    {
      ModIsWrap(tail - head + buffer.Length, buffer.Length);
      r := (tail - head + buffer.Length) % buffer.Length;
    }

    method GetEmptySize() returns (r: nat)
      requires Valid()
      ensures r == Free()
    {
      var used := GetUsedSize();
      r := buffer.Length - used - 1;
    }

    /** How much can be read from the head without a seam. */
    method GetLinearUsedSize() returns (r: nat)
      requires Valid()
      ensures r == LinearUsed(head, tail, buffer.Length)
      ensures r <= |Contents()| && buffer[head..head + r] == Contents()[..r]
      ensures r == 0 ==> Contents() == []
    {
      if tail == head {
        r := 0;
      } else if head < tail {
        r := tail - head;
      } else {
        r := buffer.Length - head;
      }
      SpanSplit(buffer[..], head, r, |Contents()|);
      SpanSlices(buffer[..], head, r);
    }

    /** How much may be received at the tail without a seam. */
    method GetLinearEmptySize() returns (r: nat)
      requires Valid()
      ensures r == LinearEmpty(head, tail, buffer.Length)
      ensures r <= Free() && buffer[tail..tail + r] == Window(r)
      ensures r == 0 && Free() > 0 <==> tail == buffer.Length - 1 && head > 0
    {
      if tail >= head {
        r := buffer.Length - tail - 1;
      } else {
        r := head - tail - 1;
      }
      SpanSlices(buffer[..], tail, r);
    }

    method MoveHead(bytes: nat)
      requires Valid()
      modifies this`head
      ensures Valid() && head == (old(head) + bytes) % buffer.Length
      ensures bytes <= old(|Contents()|) ==> Contents() == old(Contents())[bytes..]
    {
      if bytes <= |Contents()| {
        ModIsWrap(head + bytes, buffer.Length);
        SpanSplit(buffer[..], head, bytes, |Contents()|);
      }
      head := (head + bytes) % buffer.Length;
    }

    method MoveTail(bytes: nat)
      requires Valid()
      modifies this`tail
      ensures Valid() && tail == (old(tail) + bytes) % buffer.Length
      ensures bytes <= old(Free()) ==> Contents() == old(Contents()) + old(Window(bytes))
    {
      ghost var used := |Contents()|;
      if bytes <= Free() {
        ModIsWrap(tail + bytes, buffer.Length);
        SpanSplit(buffer[..], head, used, used + bytes);
      }
      tail := (tail + bytes) % buffer.Length;
    }

    method Peek(dest: array<Byte>, len: nat)
      requires Valid() && dest != buffer && len <= dest.Length
      modifies dest
      ensures if len <= |Contents()| then dest[..] == Contents()[..len] + old(dest[len..]) else dest[..] == old(dest[..])
    {
      var used := GetUsedSize();
      if used < len {
        return;
      }
      ghost var all := buffer[..];
      if tail >= head {
        CopyInto(dest, 0, buffer, head, len);
      } else {
        var rightSize := buffer.Length - head;
        if len <= rightSize {
          CopyInto(dest, 0, buffer, head, len);
        } else {
          CopyInto(dest, 0, buffer, head, rightSize);
          CopyInto(dest, rightSize, buffer, 0, len - rightSize);
        }
      }
      assert buffer[..] == all;
      assert forall j :: 0 <= j < len ==> dest[j] == all[Wrap(head + j, buffer.Length)];
      assert dest[..len] == Contents()[..len];
    }

    /** Puts the bytes after the tail without committing them. */
    method Write(data: array<Byte>, len: nat) returns (ok: bool)
      requires Valid() && data != buffer && len <= data.Length
      modifies buffer
      ensures ok <==> len <= old(Free())
      ensures Contents() == old(Contents())
      ensures if ok then Window(len) == data[..len] else buffer[..] == old(buffer[..])
    {
      var empty := GetEmptySize();
      if len > empty {
        return false;
      }
      var rightSize := buffer.Length - tail;
      if len <= rightSize {
        CopyInto(buffer, tail, data, 0, len);
      } else {
        CopyInto(buffer, tail, data, 0, rightSize);
        CopyInto(buffer, 0, data, rightSize, len - rightSize);
      }
      ghost var was := old(buffer[..]);
      assert Written(was, buffer[..], tail, data[..len]);
      WrittenSpan(was, buffer[..], tail, data[..len]);
      LiveBytesStay(was, buffer[..], head, tail, len);
      ok := true;
    }

    method Clear()
      modifies this`head, this`tail
      ensures head == tail == 0
      ensures buffer.Length >= 2 ==> Valid() && Contents() == []
    {
      head, tail := 0, 0;
    }
  }

  // ------------------------------------------------------------------ linear windows

  /** Reading in seamless pieces recovers everything in at most two of them. */
  lemma TwoPieces(a: seq<Byte>, head: nat, tail: nat)
    requires head < |a| && tail < |a|
    ensures var n, first := |a|, LinearUsed(head, tail, |a|);
            var head' := (head + first) % n;
            var second := LinearUsed(head', tail, n);
            && Span(a, head, Used(head, tail, n)) == a[head..head + first] + a[head'..head' + second]
            && (head' + second) % n == tail
  {
    var n, first := |a|, LinearUsed(head, tail, |a|);
    ModIsWrap(head + first, n);
    var head' := Wrap(head + first, n);
    ModIsWrap(head' + LinearUsed(head', tail, n), n);
    SpanSlices(a, head, Used(head, tail, n));
  }

  /** A receive into the linear window, or a removal of committed bytes. */
  datatype Op = Receive(bytes: nat) | Remove(bytes: nat)

  predicate Fits(head: nat, tail: nat, n: nat, op: Op)
    requires head < n && tail < n
  {
    match op
    case Receive(k) => k <= LinearEmpty(head, tail, n)
    case Remove(k) => k <= Used(head, tail, n)
  }

  /** Head and tail after an operation. */
  function Moved(head: nat, tail: nat, n: nat, op: Op): (r: (nat, nat))
    requires head < n && tail < n
    ensures r.0 < n && r.1 < n
  {
    match op
    case Receive(k) => (head, (tail + k) % n)
    case Remove(k) => ((head + k) % n, tail)
  }

  predicate Legal(head: nat, tail: nat, n: nat, ops: seq<Op>)
    requires head < n && tail < n
    decreases |ops|
  {
    ops == [] ||
    (Fits(head, tail, n, ops[0]) && Legal(Moved(head, tail, n, ops[0]).0, Moved(head, tail, n, ops[0]).1, n, ops[1..]))
  }

  function Final(head: nat, tail: nat, n: nat, ops: seq<Op>): (r: (nat, nat))
    requires head < n && tail < n
    ensures r.0 < n && r.1 < n
    decreases |ops|
  {
    if ops == [] then (head, tail)
    else Final(Moved(head, tail, n, ops[0]).0, Moved(head, tail, n, ops[0]).1, n, ops[1..])
  }

  function ReceivedBy(op: Op): nat { if op.Receive? then op.bytes else 0 }

  function Received(ops: seq<Op>): nat
  {
    if ops == [] then 0 else ReceivedBy(ops[0]) + Received(ops[1..])
  }

  /** One operation: the tail moves by what was received and neither position goes around. */
  lemma MovedLinearly(head: nat, tail: nat, n: nat, op: Op)
    requires head <= tail < n && Fits(head, tail, n, op)
    ensures var (h, t) := Moved(head, tail, n, op); h <= t == tail + ReceivedBy(op) < n
  {
    match op
    case Receive(k) => ModIsWrap(tail + k, n);
    case Remove(k) => ModIsWrap(head + k, n);
  }

  /** A buffer filled only through its linear window never wraps: from the cleared state the
      tail is the number of bytes received so far, so at most n - 1 are ever accepted, and no
      room is offered any more exactly when that many have come, however much was removed. */
  lemma {:induction false} FilledLinearly(head: nat, tail: nat, n: nat, ops: seq<Op>)
    requires head <= tail < n && Legal(head, tail, n, ops)
    ensures var (h, t) := Final(head, tail, n, ops);
            && h <= t && t == tail + Received(ops) <= n - 1
            && (LinearEmpty(h, t, n) == 0 <==> tail + Received(ops) == n - 1)
    decreases |ops|
  {
    if ops != [] {
      MovedLinearly(head, tail, n, ops[0]);
      var (h, t) := Moved(head, tail, n, ops[0]);
      FilledLinearly(h, t, n, ops[1..]);
    }
  }
}
