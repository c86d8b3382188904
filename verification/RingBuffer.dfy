/** The bounded tail of a session's stderr. */
module RingBuffer {
  /** The last n characters of a text, or all of it. */
  function Tail(s: string, n: nat): string {
    if |s| <= n then s else s[|s| - n..]
  }

  function Concat(chunks: seq<string>): string {
    if chunks == [] then "" else Concat(chunks[..|chunks| - 1]) + chunks[|chunks| - 1]
  }

  /** What a buffer of n characters holds after the chunks were written one by one. */
  function Kept(chunks: seq<string>, n: nat): string {
    if chunks == [] then "" else Tail(Kept(chunks[..|chunks| - 1], n) + chunks[|chunks| - 1], n)
  }

  /** Whatever the chunks, the buffer holds the tail of all that was written. */
  lemma {:induction false} KeptIsTail(chunks: seq<string>, n: nat)
    ensures Kept(chunks, n) == Tail(Concat(chunks), n)
  {
    if chunks != [] {
      KeptIsTail(chunks[..|chunks| - 1], n);
      TailOfTail(Concat(chunks[..|chunks| - 1]), chunks[|chunks| - 1], n);
    }
  }

  lemma TailOfTail(s: string, p: string, n: nat)
    ensures Tail(Tail(s, n) + p, n) == Tail(s + p, n)
  {
  }

  /** Reading the ring from position pos. */
  function Unrolled(ring: string, pos: nat, full: bool): string
    requires pos <= |ring|
  {
    if full then ring[pos..] + ring[..pos] else ring[..pos]
  }

  function Overwritten(ring: string, at: nat, p: string): (r: string)
    requires at + |p| <= |ring|
    ensures |r| == |ring|
  {
    ring[..at] + p + ring[at + |p|..]
  }

  /** After a write of p, the ring reads as the tail of what it read before and of p. */
  ghost predicate Follows(ring: string, pos: nat, full: bool, p: string, after: string, at: nat, nowFull: bool) {
    && pos <= |ring| && at <= |after|
    && Unrolled(after, at, nowFull) == Tail(Unrolled(ring, pos, full) + p, |ring|)
  }

  lemma WriteInside(ring: string, pos: nat, full: bool, p: string)
    requires pos + |p| < |ring|
    ensures Follows(ring, pos, full, p, Overwritten(ring, pos, p), pos + |p|, full)
  {
  }

  lemma WriteToEnd(ring: string, pos: nat, full: bool, p: string)
    requires pos + |p| == |ring|
    ensures Follows(ring, pos, full, p, Overwritten(ring, pos, p), 0, true)
  {
  }

  lemma WriteAcross(ring: string, pos: nat, full: bool, p: string)
    requires pos <= |ring| <= |p|
    ensures Follows(ring, pos, full, p, Overwritten(ring, 0, p[|p| - |ring|..]), 0, true)
  {
  }

  /** Go's `end % n`, for an end that is less than a ring away. */
  method Remainder(end: nat, n: nat) returns (r: nat)
    requires end < 2 * n
    ensures r == if end < n then end else end - n
  {
    r := end % n;
  }

  lemma WriteSplit(a: string, c: string, d: string, full: bool, p1: string, p2: string)
    requires |p1| == |d| && |p2| == |a|
    ensures Unrolled(Overwritten(Overwritten(a + c + d, |a| + |c|, p1), 0, p2), |p2|, true) ==
      Tail(Unrolled(a + c + d, |a| + |c|, full) + (p1 + p2), |a| + |c| + |d|)
  {
  }

  lemma CutTwice(s: string, i: nat, j: nat)
    requires i <= j <= |s|
    ensures s == s[..i] + s[i..j] + s[j..]
  {
  }

  lemma CutOnce(s: string, i: nat)
    requires i <= |s|
    ensures s == s[..i] + s[i..]
  {
  }

  lemma WriteWraps(ring: string, pos: nat, full: bool, p: string)
    requires pos < |ring| && |p| < |ring| < pos + |p|
    ensures var (n, first) := (|ring|, |ring| - pos);
      var after := Overwritten(Overwritten(ring, pos, p[..first]), 0, p[first..]);
      Follows(ring, pos, full, p, after, pos + |p| - n, true)
  {
    var (first, at) := (|ring| - pos, pos + |p| - |ring|);
    CutTwice(ring, at, pos);
    CutOnce(p, first);
    WriteSplit(ring[..at], ring[at..pos], ring[pos..], full, p[..first], p[first..]);
  }

  class Buffer {
    const buf: array<char>
    const size: nat
    var full: bool
    var pos: nat

    ghost predicate Valid()
      reads this
    {
      buf.Length == size && pos <= size && (pos == size ==> size == 0)
    }

    /** The buffered characters in write order. */
    ghost function Contents(): string
      reads this, buf
      requires Valid()
    {
      Unrolled(buf[..], pos, full)
    }

    constructor (capacity: nat)
      ensures Valid() && size == capacity && Contents() == "" && fresh(buf)
    {
      buf := new char[capacity];
      size := capacity;
      full, pos := false, 0;
    }

    /** Go's `copy(buf[at:], p)`, for a p that fits. */
    method Copy(at: nat, p: string)
      requires Valid() && at + |p| <= size
      modifies buf
      ensures buf[..] == Overwritten(old(buf[..]), at, p)
    {
      ghost var was := buf[..];
      forall i | 0 <= i < |p| {
        buf[at + i] := p[i];
      }
      assert forall i :: 0 <= i < size ==> buf[i] == Overwritten(was, at, p)[i];
    }

    method Write(p: string) returns (n: nat)
      requires Valid()
      modifies this, buf
      ensures Valid() && n == |p|
      ensures Contents() == Tail(old(Contents()) + p, size)
    {
      n := WriteRing(p);
    }

    /** The three ways of writing, as the source has them. */
    method WriteRing(p: string) returns (n: nat)
      requires Valid()
      modifies this, buf
      ensures Valid() && n == |p|
      ensures Follows(old(buf[..]), old(pos), old(full), p, buf[..], pos, full)
    {
      n := |p|;
      ghost var ring := buf[..];
      var end := pos + n;
      if n >= size {
        WriteAcross(ring, pos, full, p);
        Copy(0, p[n - size..]);
        pos := 0;
        full := true;
      } else if end <= size {
        if end < size {
          WriteInside(ring, pos, full, p);
        } else {
          WriteToEnd(ring, pos, full, p);
        }
        Copy(pos, p);
        pos := Remainder(end, size);
        if end >= size {
          full := true;
        }
      } else {
        WriteWraps(ring, pos, full, p);
        var first := size - pos;
        Copy(pos, p[..first]);
        Copy(0, p[first..]);
        full := true;
        pos := Remainder(end, size);
      }
    }

    method Bytes() returns (out: string)
      requires Valid()
      ensures out == Contents()
    {
      out := if full then buf[pos..] + buf[..pos] else buf[..pos];
      assert buf[..][pos..] == buf[pos..] && buf[..][..pos] == buf[..pos];
    }
  }

  /** Writing a run of chunks to a fresh buffer and reading it back. */
  method WriteAll(chunks: seq<string>, capacity: nat) returns (out: string)
    ensures out == Tail(Concat(chunks), capacity)
  {
    var b := new Buffer(capacity);
    for i := 0 to |chunks|
      invariant b.Valid() && b.size == capacity && fresh(b) && fresh(b.buf)
      invariant b.Contents() == Kept(chunks[..i], capacity)
    {
      assert chunks[..i + 1][..i] == chunks[..i];
      var _ := b.Write(chunks[i]);
    }
    assert chunks[..|chunks|] == chunks;
    KeptIsTail(chunks, capacity);
    out := b.Bytes();
  }
}
