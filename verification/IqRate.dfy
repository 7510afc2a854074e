/** The SpyServer stream's rate converter: unsigned byte pairs at 768 kHz to byte pairs at 750 kHz, I and Q
    each through a resampler of their own. */
module IqRate {
  import opened Resampling

  const UP: nat := 125
  const DOWN: nat := 128

  /** A byte as a sample between -1 and 1, and back with rounding and clipping. */
  function FromU8(b: nat): real { (b as real - 127.5) / 127.5 }

  function ToU8(v: real): (b: nat)
    ensures b < 256
  {
    var x := (127.5 + 127.5 * v + 0.5).Floor;
    if x < 0 then 0 else if x > 255 then 255 else x
  }

  function Distance(a: real, b: real): real { if a > b then a - b else b - a }

  /** The byte written is the one whose sample is nearest, for any value in or out of range. */
  lemma NearestByte(v: real, b: nat)
    requires b < 256
    ensures Distance(FromU8(ToU8(v)), v) <= Distance(FromU8(b), v)
  {
    var x, a := 127.5 + 127.5 * v, ToU8(v);
    var n := (x + 0.5).Floor;
    assert a == if n < 0 then 0 else if n > 255 then 255 else n;
    assert n as real <= x + 0.5 < n as real + 1.0;
    NearestInt(x, n, a, b);
    Sampled(a, v);
    Sampled(b, v);
  }

  lemma NearestInt(x: real, n: int, a: nat, b: nat)
    requires b < 256 && n as real <= x + 0.5 < n as real + 1.0
    requires a == if n < 0 then 0 else if n > 255 then 255 else n
    ensures Distance(a as real, x) <= Distance(b as real, x)
  {
    if b < a {
      assert b as real + 1.0 <= a as real <= n as real;
    } else if b > a {
      assert b as real >= a as real + 1.0 && a >= n;
    }
  }

  /** A byte is as far from a value as its sample is, in steps of 1 / 127.5. */
  lemma Sampled(b: nat, v: real)
    ensures Distance(b as real, 127.5 + 127.5 * v) == 127.5 * Distance(FromU8(b), v)
  {
    assert b as real == 127.5 * FromU8(b) + 127.5;
  }

  /** So every byte survives being read and written. */
  lemma ByteReadsBack(b: nat)
    requires b < 256
    ensures ToU8(FromU8(b)) == b
  {
    assert 127.5 + 127.5 * FromU8(b) == b as real;
  }

  /** The I (h = 0) or the Q (h = 1) samples of a run of byte pairs: 0 is -1, 255 is 1. */
  function Half(iq: seq<nat>, h: nat): (x: seq<real>)
    requires |iq| % 2 == 0 && h < 2
    ensures |x| == |iq| / 2 && forall k :: 0 <= k < |x| ==> 255.0 * (x[k] + 1.0) == 2.0 * iq[2 * k + h] as real
  {
    seq(|iq| / 2, k requires 0 <= k < |iq| / 2 => FromU8(iq[2 * k + h]))
  }

  function Paired(i: seq<real>, q: seq<real>): (iq: seq<nat>)
    requires |i| == |q|
    ensures |iq| == 2 * |i|
    ensures forall k :: 0 <= k < |i| ==> iq[2 * k] == ToU8(i[k]) && iq[2 * k + 1] == ToU8(q[k])
  {
    if i == [] then []
    else
      var m := |i| - 1;
      Paired(i[..m], q[..m]) + [ToU8(i[m]), ToU8(q[m])]
  }

  /** The working buffers never cut off what the caller has room for. */
  lemma BuffersFit(due: seq<real>, n0: nat, n: nat, made: nat, room: nat, inRoom: nat, outRoom: nat)
    requires 0 <= made * DOWN - n0 * UP < DOWN && 0 <= (made + |due|) * DOWN - (n0 + n) * UP < DOWN
    requires n <= inRoom && (inRoom > 0 ==> outRoom >= MaxOut(inRoom, UP, DOWN))
    ensures Kept(due, if room < outRoom then room else outRoom) == Kept(due, room)
    ensures room >= MaxOut(n, UP, DOWN) ==> Kept(due, room) == due
  {
    OutputsFit(n0, n, made, made + |due|, UP, DOWN);
  }

  lemma SameKept(a: seq<real>, b: seq<real>, cap: nat)
    requires |a| == |b|
    ensures |Kept(a, cap)| == |Kept(b, cap)|
  {}

  class IqRateConverter {
    const i: Resampler
    const q: Resampler
    var inRoom: nat       // sizes of the working buffers, which only grow
    var outRoom: nat

    ghost predicate Apart()
      reads this, i, q, i.ring, q.ring
    {
      i != q && i.ring != q.ring && i.ring.buf != q.ring.buf
    }

    /** Both halves have had the same number of samples. */
    ghost predicate Valid()
      reads this, i, q, i.ring, q.ring, i.ring.buf, q.ring.buf
    {
      && Apart() && i.Valid() && q.Valid() && i.InStep() && q.InStep()
      && i.up == q.up == UP && i.down == q.down == DOWN && |i.ring.x| == |q.ring.x|
      && (inRoom > 0 ==> outRoom >= MaxOut(inRoom, UP, DOWN))
    }

    /** However the input is split, the two halves always hold the same number of outputs. */
    ghost predicate InStep()
      reads this, i, q
    {
      |i.y| == |q.y|
    }

    constructor (taps: seq<real>)
      requires taps != []
      ensures Valid() && InStep() && i.ring.x == [] && i.y == []
      ensures fresh(i) && fresh(q) && fresh(i.ring) && fresh(q.ring) && fresh(i.ring.buf) && fresh(q.ring.buf)
    {
      i := new Resampler(UP, DOWN, taps);
      q := new Resampler(UP, DOWN, taps);
      inRoom, outRoom := 0, 0;
    }

    /** Takes in whole pairs and writes at most `room` pairs: pair k is output k of each half. Nothing is
        lost when there is room for MaxOut. */
    method Push(iq: seq<nat>, room: nat) returns (out: seq<nat>)
      requires Valid() && InStep() && |iq| % 2 == 0
      modifies this, i, q, i.ring, q.ring, i.ring.buf, q.ring.buf
      ensures Valid() && InStep()
      ensures i.ring.x == old(i.ring.x) + Half(iq, 0) && q.ring.x == old(q.ring.x) + Half(iq, 1)
      ensures old(i.y) <= i.y && old(q.y) <= q.y
      ensures out == Paired(Kept(i.y[|old(i.y)|..], room), Kept(q.y[|old(q.y)|..], room))
      ensures room >= MaxOut(|iq| / 2, UP, DOWN) ==> out == Paired(i.y[|old(i.y)|..], q.y[|old(q.y)|..])
    {
      hide Resampler.Valid, Resampler.MidStep, Kept, Half, Paired, MaxOut;
      var n := |iq| / 2;
      if inRoom < n { inRoom, outRoom := n, MaxOut(n, UP, DOWN); }
      var cap := if room < outRoom then room else outRoom;
      ghost var n0, made := |i.ring.x|, |i.y|;
      var xi, xq := Half(iq, 0), Half(iq, 1);
      var outI := i.Push(xi, cap);
      var outQ := q.Push(xq, cap);
      IqInStep(|i.ring.x|, |i.y|, |q.y|, UP, DOWN);
      BuffersFit(i.y[made..], n0, n, made, room, inRoom, outRoom);
      BuffersFit(q.y[made..], n0, n, made, room, inRoom, outRoom);
      SameKept(i.y[made..], q.y[made..], cap);
      out := Paired(outI, outQ);
    }

    method Reset()
      requires Valid()
      modifies this, i, q, i.ring, q.ring, i.ring.buf, q.ring.buf
      ensures Valid() && InStep() && i.ring.x == q.ring.x == [] && i.y == q.y == []
    {
      i.Reset();
      q.Reset();
    }
  }
}
