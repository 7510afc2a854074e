/** The lock-free single-producer, single-consumer ring between the helper's threads: cursors that
    only grow, a power-of-two buffer, and each side working from a possibly stale view of the
    other's cursor. A queue operation is a ring operation on one item. */
module Spsc {
  import opened Arithmetic

  // ---- Capacity

  predicate PowerOfTwo(c: nat)
    decreases c
  {
    c == 1 || (c > 1 && c % 2 == 0 && PowerOfTwo(c / 2))
  }

  /** round_pow2: the smallest power of two that is not below n. */
  method RoundPow2(n: nat) returns (c: nat)
    ensures PowerOfTwo(c) && n <= c && (c == 1 || c / 2 < n)
  {
    c := 1;
    while c < n
      invariant PowerOfTwo(c) && (c == 1 || c / 2 < n)
      decreases n - c
    {
      c := c * 2;
    }
  }

  lemma {:induction false} Positive(c: nat)
    requires PowerOfTwo(c)
    ensures c >= 1
  {}

  /** Cursors are machine words that wrap: with a capacity dividing the word size, slot indices and
      differences of cursors within one word of each other come out as for the unbounded cursors. */
  lemma CursorsMayWrap(h: nat, t: nat, cap: nat, words: nat)
    requires cap > 0 && words > 0 && t <= h && h - t < cap * words
    ensures var w := cap * words; w > 0 && (h % w) % cap == h % cap && (h % w - t % w) % w == h - t
  {
    var w := cap * words;
    SlotOfWrapped(h, cap, words);
    WrappedDifference(h, t, w);
  }

  lemma SlotOfWrapped(h: nat, cap: nat, words: nat)
    requires cap > 0 && words > 0
    ensures var w := cap * words; w > 0 && (h % w) % cap == h % cap
  {
    AtLeastOnce(cap, words);
    var w := cap * words;
    var q := h / w;
    assert h == w * q + h % w;
    assert w * q == cap * (words * q);
    ModPlus(h % w, cap, words * q);
  }

  lemma WrappedDifference(h: nat, t: nat, w: nat)
    requires w > 0 && t <= h < t + w
    ensures (h % w - t % w) % w == h - t
  {
    var qh, qt := h / w, t / w;
    assert h == w * qh + h % w && t == w * qt + t % w;
    assert h % w - t % w == (h - t) + w * (qt - qh) by { assert w * (qt - qh) == w * qt - w * qh; }
    ModPlus(h - t, w, qt - qh);
    SmallMod(h - t, w);
  }

  lemma SmallMod(a: nat, w: nat)
    requires a < w
    ensures a % w == a
  {}

  lemma {:induction false} ModPlus(a: int, w: nat, k: int)
    requires w > 0
    ensures (a + w * k) % w == a % w
    decreases if k < 0 then 0 - k else k
  {
    if k > 0 {
      ModPlus(a, w, k - 1);
      assert a + w * k == a + w * (k - 1) + w;
      ModStep(a + w * (k - 1), w);
    } else if k < 0 {
      ModPlus(a, w, k + 1);
      assert a + w * (k + 1) == a + w * k + w;
      ModStep(a + w * k, w);
    }
  }

  lemma ModStep(n: int, w: nat)
    requires w > 0
    ensures (n + w) % w == n % w
  {
    var q, r := n / w, n % w;
    assert n == w * q + r && w * (q + 1) == w * q + w;
    Quotient(w, n + w, q + 1, r);
  }

  /** Two cursors less than a capacity apart use different slots. */
  lemma SlotsDiffer(i: nat, j: nat, cap: nat)
    requires i < j < i + cap
    ensures i % cap != j % cap
  {
    var q, r := i / cap, i % cap + (j - i);
    assert i == cap * q + i % cap && cap * (q + 1) == cap * q + cap;
    if r < cap { Quotient(cap, j, q, r); } else { Quotient(cap, j, q + 1, r - cap); }
  }

  // ---- Interleaved steps

  datatype Fate<T> = Read(value: T) | Skipped

  datatype Producer<T> = Away | Filling(items: seq<T>, done: nat)
  datatype Consumer<T> = Out | Reading(want: nat, got: seq<T>)

  /** The newest cursor of the other side that each side has loaded. */
  datatype Views = Views(tail: nat, head: nat)

  /** `accepted` are all items ever published, `fates` what became of the first `tail` of them. */
  datatype Ring<T> = Ring(slots: seq<T>, head: nat, tail: nat, producer: Producer<T>, consumer: Consumer<T>,
                          seen: Views, accepted: seq<T>, fates: seq<Fate<T>>)

  datatype Step<T> =
    | BeginWrite(xs: seq<T>, seenTail: nat)
    | FillSlot
    | PublishHead
    | BeginRead(n: nat, seenHead: nat)
    | CopySlot
    | PublishTail
    | Discard(n: nat, seenHead: nat)

  function Min(a: nat, b: nat): nat { if a < b then a else b }

  /** A load of the other side's cursor may lag by any amount, but never goes back. */
  predicate Enabled<T>(r: Ring<T>, s: Step<T>) {
    match s
    case BeginWrite(_, seen) => r.producer.Away? && r.seen.tail <= seen <= r.tail
    case FillSlot => r.producer.Filling? && r.producer.done < |r.producer.items|
    case PublishHead => r.producer.Filling? && r.producer.done == |r.producer.items|
    case BeginRead(_, seen) => r.consumer.Out? && r.seen.head <= seen <= r.head
    case CopySlot => r.consumer.Reading? && |r.consumer.got| < r.consumer.want
    case PublishTail => r.consumer.Reading? && |r.consumer.got| == r.consumer.want
    case Discard(_, seen) => r.consumer.Out? && r.seen.head <= seen <= r.head
  }

  /** Unsigned differences of cursors; the invariant shows that neither ever wraps. */
  function Room(cap: nat, head: nat, tail: nat): nat { if head <= tail + cap then cap - (head - tail) else 0 }

  function Behind(head: nat, tail: nat): nat { if tail <= head then head - tail else 0 }

  function Do<T>(r: Ring<T>, s: Step<T>): Ring<T>
    requires |r.slots| > 0 && Enabled(r, s)
  {
    match s
    case BeginWrite(xs, seen) => r.(seen := r.seen.(tail := seen),
      producer := Filling(xs[..Min(|xs|, Room(|r.slots|, r.head, seen))], 0))
    case FillSlot =>
      r.(slots := r.slots[(r.head + r.producer.done) % |r.slots| := r.producer.items[r.producer.done]],
         producer := r.producer.(done := r.producer.done + 1))
    case PublishHead =>
      r.(head := r.head + |r.producer.items|, accepted := r.accepted + r.producer.items, producer := Away)
    case BeginRead(n, seen) => r.(seen := r.seen.(head := seen), consumer := Reading(Min(n, Behind(seen, r.tail)), []))
    case CopySlot => r.(consumer := r.consumer.(got := r.consumer.got
      + [r.slots[(r.tail + |r.consumer.got|) % |r.slots|]]))
    case PublishTail =>
      r.(tail := r.tail + r.consumer.want, consumer := Out,
         fates := r.fates + seq(r.consumer.want, i requires 0 <= i < |r.consumer.got| => Read(r.consumer.got[i])))
    case Discard(n, seen) =>
      var k := Min(n, Behind(seen, r.tail));
      r.(seen := r.seen.(head := seen), tail := r.tail + k, fates := r.fates + seq(k, _ => Skipped))
  }

  /** The item published as number i sits in its slot. */
  ghost predicate Holds<T>(r: Ring<T>, i: nat)
    requires |r.slots| > 0 && i < |r.accepted|
  {
    r.slots[i % |r.slots|] == r.accepted[i]
  }

  ghost predicate Inv<T>(r: Ring<T>, cap: nat) {
    && |r.slots| == cap > 0 && r.tail <= r.seen.head <= r.head <= r.seen.tail + cap && r.seen.tail <= r.tail
    && |r.accepted| == r.head && |r.fates| == r.tail
    && (forall i :: r.tail <= i < r.head ==> Holds(r, i))
    && (forall i :: 0 <= i < r.tail && r.fates[i].Read? ==> r.fates[i].value == r.accepted[i])
    && (r.producer.Filling? ==>
          && r.producer.done <= |r.producer.items| && r.head + |r.producer.items| <= r.seen.tail + cap
          && forall k :: 0 <= k < r.producer.done ==> r.slots[(r.head + k) % cap] == r.producer.items[k])
    && (r.consumer.Reading? ==>
          && |r.consumer.got| <= r.consumer.want && r.tail + r.consumer.want <= r.seen.head
          && forall k :: 0 <= k < |r.consumer.got| ==> r.consumer.got[k] == r.accepted[r.tail + k])
  }

  lemma FillKeeps<T>(r: Ring<T>, cap: nat)
    requires Inv(r, cap) && Enabled(r, FillSlot)
    ensures Inv(Do(r, FillSlot), cap)
  {
    var at := r.head + r.producer.done;
    forall i | r.tail <= i < at ensures i % cap != at % cap { SlotsDiffer(i, at, cap); }
    var t := Do(r, FillSlot);
    forall i | r.tail <= i < r.head ensures Holds(t, i) { assert Holds(r, i); }
  }

  lemma PublishHeadKeeps<T>(r: Ring<T>, cap: nat)
    requires Inv(r, cap) && Enabled(r, PublishHead)
    ensures Inv(Do(r, PublishHead), cap)
  {
    var t := Do(r, PublishHead);
    forall i | t.tail <= i < t.head ensures Holds(t, i) {
      if i < r.head {
        assert Holds(r, i);
      } else {
        assert r.slots[(r.head + (i - r.head)) % cap] == r.producer.items[i - r.head];
      }
    }
  }

  lemma CopyKeeps<T>(r: Ring<T>, cap: nat)
    requires Inv(r, cap) && Enabled(r, CopySlot)
    ensures Inv(Do(r, CopySlot), cap)
  {
    assert Holds(r, r.tail + |r.consumer.got|);
    var t := Do(r, CopySlot);
    forall i | t.tail <= i < t.head ensures Holds(t, i) { assert Holds(r, i); }
  }

  lemma BeginKeeps<T>(r: Ring<T>, s: Step<T>, cap: nat)
    requires Inv(r, cap) && Enabled(r, s) && (s.BeginWrite? || s.BeginRead?)
    ensures Inv(Do(r, s), cap)
  {
    var t := Do(r, s);
    forall i | t.tail <= i < t.head ensures Holds(t, i) { assert Holds(r, i); }
  }

  lemma PublishTailKeeps<T>(r: Ring<T>, cap: nat)
    requires Inv(r, cap) && Enabled(r, PublishTail)
    ensures Inv(Do(r, PublishTail), cap)
  {
    var t := Do(r, PublishTail);
    forall i | t.tail <= i < t.head ensures Holds(t, i) { assert Holds(r, i); }
    forall i | 0 <= i < t.tail && t.fates[i].Read? ensures t.fates[i].value == t.accepted[i] {
      if i >= r.tail { assert t.fates[i] == Read(r.consumer.got[i - r.tail]); }
    }
  }

  lemma DiscardKeeps<T>(r: Ring<T>, s: Step<T>, cap: nat)
    requires Inv(r, cap) && Enabled(r, s) && s.Discard?
    ensures Inv(Do(r, s), cap)
  {
    var t := Do(r, s);
    forall i | t.tail <= i < t.head ensures Holds(t, i) { assert Holds(r, i); }
  }

  ghost predicate Trace<T>(rs: seq<Ring<T>>, steps: seq<Step<T>>, slots: seq<T>) {
    && |rs| == |steps| + 1 && |slots| > 0 && rs[0] == Ring(slots, 0, 0, Away, Out, Views(0, 0), [], [])
    && forall k :: 0 <= k < |steps| ==>
      |rs[k].slots| > 0 && Enabled(rs[k], steps[k])
      && rs[k + 1] == Do(rs[k], steps[k])
  }

  lemma {:induction false} TraceInv<T>(rs: seq<Ring<T>>, steps: seq<Step<T>>, slots: seq<T>, k: nat)
    requires Trace(rs, steps, slots) && k < |rs|
    ensures Inv(rs[k], |slots|)
  {
    if k > 0 {
      TraceInv(rs, steps, slots, k - 1);
      var r, s := rs[k - 1], steps[k - 1];
      assert Enabled(r, s) && rs[k] == Do(r, s);
      hide Inv, Do;
      match s
      case FillSlot => FillKeeps(r, |slots|);
      case PublishHead => PublishHeadKeeps(r, |slots|);
      case CopySlot => CopyKeeps(r, |slots|);
      case PublishTail => PublishTailKeeps(r, |slots|);
      case Discard(_, _) => DiscardKeeps(r, s, |slots|);
      case _ => BeginKeeps(r, s, |slots|);
    }
  }

  /** For every interleaving and every staleness: what was read is what was accepted, in order;
      every accepted item is read, skipped or still in its slot; and the ring never overfills. */
  lemma NothingLostOrReordered<T>(rs: seq<Ring<T>>, steps: seq<Step<T>>, slots: seq<T>, k: nat)
    requires Trace(rs, steps, slots) && k < |rs|
    ensures var r := rs[k];
      && |r.slots| == |slots| && r.tail <= r.head <= r.tail + |slots|
      && |r.accepted| == |r.fates| + (r.head - r.tail)
      && (forall i :: 0 <= i < |r.fates| && r.fates[i].Read? ==> r.fates[i].value == r.accepted[i])
      && (forall i :: |r.fates| <= i < |r.accepted| ==> r.slots[i % |slots|] == r.accepted[i])
  {
    TraceInv(rs, steps, slots, k);
    forall i | rs[k].tail <= i < rs[k].head ensures rs[k].slots[i % |slots|] == rs[k].accepted[i] {
      assert Holds(rs[k], i);
    }
  }

  // ---- The ring itself, one call at a time

  /** SpscRing. `seen` is the other side's cursor as the caller's thread loads it. */
  class SpscRing<T(0)> {
    const buf: array<T>
    var head: nat
    var tail: nat
    ghost var queued: seq<T>

    /** Slot of cursor i. */
    function Slot(i: nat): (k: nat)
      requires buf.Length > 0
      ensures k < buf.Length
    {
      i % buf.Length
    }

    ghost predicate InSlot(first: nat, xs: seq<T>, i: nat)
      requires buf.Length > 0 && first <= i < first + |xs|
      reads buf
    {
      buf[Slot(i)] == xs[i - first]
    }

    /** The items xs, numbered from `first`, are in their slots. */
    ghost predicate Stored(first: nat, xs: seq<T>)
      requires buf.Length > 0
      reads buf
    {
      forall i :: first <= i < first + |xs| ==> InSlot(first, xs, i)
    }

    ghost predicate Valid()
      reads this, buf
    {
      && buf.Length > 0 && PowerOfTwo(buf.Length)
      && tail <= head <= tail + buf.Length && |queued| == head - tail && Stored(tail, queued)
    }

    constructor (capacity: nat)
      ensures Valid() && queued == [] && capacity <= buf.Length && fresh(buf)
    {
      var cap := RoundPow2(capacity);
      Positive(cap);
      buf := new T[cap];
      head, tail, queued := 0, 0, [];
    }

    /** Filling the next slot disturbs none of the items still stored. */
    method PutSlot(ghost first: nat, ghost xs: seq<T>, at: nat, v: T)
      requires buf.Length > |xs| && at == first + |xs| && Stored(first, xs)
      modifies buf
      ensures Stored(first, xs + [v])
    {
      forall i | first <= i < at ensures Slot(i) != Slot(at) { SlotsDiffer(i, at, buf.Length); }
      buf[Slot(at)] := v;
      ghost var ys := xs + [v];
      forall i | first <= i <= at ensures InSlot(first, ys, i) {
        if i < at { assert old(InSlot(first, xs, i)) && Slot(i) != Slot(at); }
      }
    }

    /** Takes as much of xs as there is room for, as far as this side can see. */
    method Write(xs: seq<T>, seen: nat) returns (n: nat)
      requires Valid() && seen <= tail && head <= seen + buf.Length
      modifies this, buf
      ensures Valid() && n == Min(|xs|, buf.Length - (old(head) - seen))
      ensures queued == old(queued) + xs[..n] && tail == old(tail) && head == old(head) + n
    {
      hide PowerOfTwo;
      n := Min(|xs|, buf.Length - (head - seen));
      assert queued + xs[..0] == queued;
      for i := 0 to n
        invariant head == old(head) && tail == old(tail) && queued == old(queued)
        invariant Stored(tail, queued + xs[..i])
      {
        PutSlot(tail, queued + xs[..i], head + i, xs[i]);
        assert queued + xs[..i] + [xs[i]] == queued + xs[..i + 1];
      }
      head := head + n;
      queued := queued + xs[..n];
    }

    lemma StoredSuffix(first: nat, xs: seq<T>, m: nat)
      requires buf.Length > 0 && m <= |xs| && Stored(first, xs)
      ensures Stored(first + m, xs[m..])
    {
      var from, ys := first + m, xs[m..];
      forall i | from <= i < from + |ys| ensures InSlot(from, ys, i) { assert InSlot(first, xs, i); }
    }

    method Read(n: nat, seen: nat) returns (out: seq<T>)
      requires Valid() && tail <= seen <= head
      modifies this
      ensures Valid() && |out| == Min(n, seen - old(tail)) && head == old(head)
      ensures out + queued == old(queued)
    {
      hide PowerOfTwo;
      var m := Min(n, seen - tail);
      out := [];
      for i := 0 to m
        invariant Valid() && head == old(head) && tail == old(tail) && queued == old(queued)
        invariant out == queued[..i]
      {
        assert InSlot(tail, queued, tail + i);
        out := out + [buf[Slot(tail + i)]];
      }
      StoredSuffix(tail, queued, m);
      tail := tail + m;
      queued := queued[m..];
    }

    method Discard(n: nat, seen: nat) returns (m: nat)
      requires Valid() && tail <= seen <= head
      modifies this
      ensures Valid() && m == Min(n, seen - old(tail)) && head == old(head) && queued == old(queued)[m..]
    {
      m := Min(n, seen - tail);
      StoredSuffix(tail, queued, m);
      tail := tail + m;
      queued := queued[m..];
    }
  }
}
