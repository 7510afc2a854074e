/** The recorder's fixed ring of raw audio: always the newest bytes since it was cleared. */
module Preroll {
  /** The last n items, or all there are. */
  function Tail<T>(s: seq<T>, n: nat): (t: seq<T>)
    ensures |t| == if |s| < n then |s| else n
  {
    if |s| < n then s else s[|s| - n..]
  }

  /** What was forgotten before stays irrelevant: the ring is a function of all bytes written. */
  lemma TailOfTail<T>(a: seq<T>, b: seq<T>, n: nat)
    ensures Tail(Tail(a, n) + b, n) == Tail(a + b, n)
  {}

  /** Of a chunk longer than the ring only the end can survive. */
  lemma TailOfLong<T>(a: seq<T>, b: seq<T>, n: nat)
    requires |b| >= n
    ensures Tail(a + b, n) == Tail(b, n) == Tail(a + Tail(b, n), n)
  {}

  /** The buffer as the part before the write position and the part from it on: a run that stops short
      of the end. */
  lemma Straight<T>(head: seq<T>, rear: seq<T>, src: seq<T>, full: bool)
    requires |src| < |rear|
    ensures !full ==> Tail(head + src, |head| + |rear|) == head + src
    ensures full ==> Tail(rear + head + src, |head| + |rear|) == rear[|src|..] + (head + src)
  {}

  /** A run that goes round. */
  lemma Wrapping<T>(head: seq<T>, rear: seq<T>, src: seq<T>, full: bool)
    requires |rear| <= |src| <= |head| + |rear|
    ensures var first := |rear|; var rest := |src| - first;
      Tail((if full then rear + head else head) + src, |head| + |rear|) == (head[rest..] + src[..first]) + src[first..]
  {}

  /** A ring's contents, oldest first. */
  function Ordered<T>(b: seq<T>, offset: nat, filled: nat): seq<T>
    requires offset <= |b| && filled <= |b|
  {
    if filled < |b| then b[..filled] else b[offset..] + b[..offset]
  }

  /** The buffer after a run was copied in from `offset` on. */
  ghost predicate Copied<T>(was: seq<T>, now: seq<T>, offset: nat, src: seq<T>) {
    && |now| == |was| && offset < |was| && |src| <= |was|
    && var n := offset + |src|;
      if n < |was| then now == was[..offset] + src + was[n..]
      else now == src[|was| - offset..] + was[n - |was|..offset] + src[..|was| - offset]
  }

  lemma TwoCopies<T>(was: seq<T>, mid: seq<T>, now: seq<T>, offset: nat, src: seq<T>, first: nat)
    requires offset < |was| && |src| <= |was| && first == if |src| < |was| - offset then |src| else |was| - offset
    requires mid == was[..offset] + src[..first] + was[offset + first..]
    requires now == if first < |src| then mid[..0] + src[first..] + mid[|src| - first..] else mid
    ensures Copied(was, now, offset, src)
  {
    if first == |src| {
      assert src[..first] == src && src[first..] == [];
    } else {
      assert mid == was[..offset] + src[..first];
    }
  }

  lemma StraightRing<T>(was: seq<T>, now: seq<T>, offset: nat, filled: nat, src: seq<T>)
    requires Copied(was, now, offset, src) && filled <= |was| && (filled < |was| ==> offset == filled)
      && offset + |src| < |was|
    ensures Ordered(now, offset + |src|, if |was| < filled + |src| then |was| else filled + |src|)
      == Tail(Ordered(was, offset, filled) + src, |was|)
  {
    var head, rear := was[..offset], was[offset..];
    Straight(head, rear, src, filled == |was|);
    assert now[..offset + |src|] == head + src && now[offset + |src|..] == rear[|src|..];
  }

  lemma RoundRing<T>(was: seq<T>, now: seq<T>, offset: nat, filled: nat, src: seq<T>)
    requires Copied(was, now, offset, src) && filled <= |was| && (filled < |was| ==> offset == filled)
      && |was| <= offset + |src|
    ensures Ordered(now, offset + |src| - |was|, |was|) == Tail(Ordered(was, offset, filled) + src, |was|)
  {
    var head, rear, rest := was[..offset], was[offset..], offset + |src| - |was|;
    Wrapping(head, rear, src, filled == |was|);
    hide Tail;
    var late, early, kept := src[|rear|..], src[..|rear|], head[rest..];
    assert was[rest..offset] == kept;
    assert now == late + (kept + early) && |late| == rest;
    assert now[..rest] == late && now[rest..] == kept + early;
  }

  /** A position within one lap of the end. */
  function Wrap(n: nat, cap: nat): (at: nat)
    requires n < 2 * cap
    ensures at == if n < cap then n else n - cap
  {
    n % cap
  }

  class PrerollRing<T(0)> {
    const buf: array<T>
    var offset: nat
    var filled: nat
    ghost var written: seq<T>         // everything since the last clear

    ghost predicate Shaped()
      reads this
    {
      buf.Length > 0 && offset < buf.Length && filled <= buf.Length && (filled < buf.Length ==> offset == filled)
    }

    /** Oldest first. */
    ghost function Contents(): seq<T>
      requires Shaped()
      reads this, buf
    {
      Ordered(buf[..], offset, filled)
    }

    /** Always the newest of everything written since the last clear, as much as there is room for. */
    ghost predicate Valid()
      reads this, buf
    {
      Shaped() && Contents() == Tail(written, buf.Length)
    }

    constructor (byteCapacity: nat)
      ensures Valid() && Contents() == [] && written == [] && fresh(buf) && buf.Length == if byteCapacity < 2 then 2
        else byteCapacity
    {
      buf := new T[if byteCapacity < 2 then 2 else byteCapacity];
      offset, filled, written := 0, 0, [];
    }

    /** Buffer.copy into the ring's buffer. */
    method Copy(at: nat, xs: seq<T>)
      requires at + |xs| <= buf.Length
      modifies buf
      ensures buf[..] == old(buf[..at]) + xs + old(buf[at + |xs|..])
    {
      forall k | 0 <= k < |xs| { buf[at + k] := xs[k]; }
    }

    /** A run that fits: up to the end of the buffer, the rest from its start. */
    method CopyRound(src: seq<T>)
      requires Shaped() && |src| <= buf.Length
      modifies buf
      ensures Copied(old(buf[..]), buf[..], offset, src)
    {
      var first := if |src| < buf.Length - offset then |src| else buf.Length - offset;
      ghost var was := buf[..];
      Copy(offset, src[..first]);
      ghost var mid := buf[..];
      if first < |src| { Copy(0, src[first..]); }
      TwoCopies(was, mid, buf[..], offset, src, first);
    }

    method WriteRun(src: seq<T>)
      requires Shaped() && |src| <= buf.Length
      modifies `offset, `filled, buf
      ensures Shaped() && Contents() == Tail(old(Contents()) + src, buf.Length)
    {
      hide Ordered, Tail, Copied, Wrap;
      var cap := buf.Length;
      ghost var was := buf[..];
      CopyRound(src);
      if offset + |src| < cap {
        StraightRing(was, buf[..], offset, filled, src);
      } else {
        RoundRing(was, buf[..], offset, filled, src);
      }
      offset := Wrap(offset + |src|, cap);
      filled := if cap < filled + |src| then cap else filled + |src|;
    }

    method Write(chunk: seq<T>)
      requires Valid()
      modifies this, buf
      ensures Valid() && written == old(written) + chunk
      ensures Contents() == Tail(old(Contents()) + chunk, buf.Length)
    {
      hide Ordered;
      var cap := buf.Length;
      var src := if |chunk| > cap then chunk[|chunk| - cap..] else chunk;
      if |chunk| > cap { TailOfLong(Contents(), chunk, cap); }
      TailOfTail(written, chunk, cap);
      WriteRun(src);
      written := written + chunk;
    }

    method Read() returns (bytes: seq<T>)
      requires Valid()
      ensures bytes == Contents() == Tail(written, buf.Length)
    {
      bytes := if filled < buf.Length then buf[..filled] else buf[offset..] + buf[..offset];
    }

    method Clear()
      requires Valid()
      modifies this
      ensures Valid() && Contents() == [] && written == []
    {
      offset, filled, written := 0, 0, [];
    }
  }
}
