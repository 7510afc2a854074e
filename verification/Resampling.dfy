/** Streaming filters: the doubled-ring FIR and the rational polyphase resampler, against their
    textbook definitions. Samples are reals; rounding is not modelled. */
module Resampling {
  import opened Arithmetic

  function Prod(a: real, b: real): real { a * b }

  /** The first n products of two windows, summed. */
  function Dot(h: seq<real>, w: seq<real>, n: nat): real
    requires n <= |h| && n <= |w|
  {
    if n == 0 then 0.0 else Dot(h, w, n - 1) + Prod(h[n - 1], w[n - 1])
  }

  function Sum8(a: seq<real>): real
    requires |a| == 8
  {
    ((a[0] + a[1]) + (a[2] + a[3])) + ((a[4] + a[5]) + (a[6] + a[7]))
  }

  /** Eight partial sums, then the tail: the same sum. */
  method EightLaneDot(h: seq<real>, w: seq<real>) returns (acc: real)
    requires |h| == |w|
    ensures acc == Dot(h, w, |h|)
  {
    hide Prod;
    var a := seq(8, _ => 0.0);
    var j := 0;
    while j + 8 <= |h|
      invariant j <= |h| && |a| == 8 && Sum8(a) == Dot(h, w, j)
    {
      for k := 0 to 8
        invariant |a| == 8 && Sum8(a) == Dot(h, w, j + k)
      {
        a := a[k := a[k] + Prod(h[j + k], w[j + k])];
      }
      j := j + 8;
    }
    acc := Sum8(a);
    while j < |h|
      invariant j <= |h| && acc == Dot(h, w, j)
    {
      acc := acc + Prod(h[j], w[j]);
      j := j + 1;
    }
  }

  /** The last n inputs, oldest first, silence before the first. */
  function Tail(x: seq<real>, n: nat): (w: seq<real>)
    ensures |w| == n
  {
    (seq(n, _ => 0.0) + x)[|x|..]
  }

  lemma TailGrows(x: seq<real>, n: nat, v: real)
    requires 0 < n
    ensures Tail(x + [v], n) == Tail(x, n)[1..] + [v]
  {}

  /** The window one slot on, in a ring of two equal halves. */
  lemma WindowMoves(b: seq<real>, pos: nat, before: seq<real>, v: real)
    requires |b| == 2 * |before| && pos < |before|
    requires forall k :: 0 <= k < |before| ==> b[k] == b[k + |before|]
    requires forall j :: pos < j < pos + |before| ==> b[j] == before[j - pos]
    requires b[pos + |before|] == v
    ensures b[pos + 1..pos + 1 + |before|] == before[1..] + [v]
  {}

  /** A ring written twice, so that the last n inputs are always one contiguous window. */
  class DoubledRing {
    const n: nat
    const buf: array<real>
    var pos: nat
    ghost var x: seq<real>          // everything written since the last reset

    ghost predicate Valid()
      reads this, buf
    {
      && 0 < n && buf.Length == 2 * n && pos < n
      && (forall k :: 0 <= k < n ==> buf[k] == buf[k + n])
      && (forall j :: pos <= j < pos + n ==> buf[j] == Tail(x, n)[j - pos])
    }

    constructor (n: nat)
      requires 0 < n
      ensures Valid() && x == [] && fresh(buf) && this.n == n
    {
      this.n := n;
      buf := new real[2 * n](_ => 0.0);
      pos, x := 0, [];
    }

    /** Both copies of the oldest slot hold v: the window that ends with it is one slot on. */
    ghost predicate Stored(v: real)
      reads this, buf
    {
      && 0 < n && buf.Length == 2 * n && pos < n
      && (forall k :: 0 <= k < n ==> buf[k] == buf[k + n])
      && buf[pos + 1..pos + 1 + n] == Tail(x + [v], n)
    }

    method Store(v: real)
      requires Valid()
      modifies buf
      ensures Stored(v)
    {
      TailGrows(x, n, v);
      hide Tail;
      ghost var before := Tail(x, n);
      assert forall j :: pos < j < pos + n ==> buf[j] == before[j - pos];
      buf[pos] := v;
      buf[pos + n] := v;
      WindowMoves(buf[..], pos, before, v);
    }

    method Advance(v: real)
      requires Stored(v)
      modifies this
      ensures Valid() && x == old(x) + [v]
    {
      hide Tail;
      x := x + [v];
      ghost var w := buf[pos + 1..pos + 1 + n];
      if pos + 1 == n {
        pos := 0;
        assert forall j :: 0 <= j < n ==> buf[j] == buf[j + n] == w[j];
      } else {
        pos := pos + 1;
      }
    }

    /** Writes v and returns the window that ends with it. */
    method Put(v: real) returns (w: seq<real>)
      requires Valid()
      modifies this, buf
      ensures Valid() && x == old(x) + [v] && w == Tail(x, n)
    {
      Store(v);
      w := buf[pos + 1..pos + 1 + n];
      Advance(v);
    }

    method Reset()
      requires Valid()
      modifies this, buf
      ensures Valid() && x == []
    {
      forall k | 0 <= k < 2 * n { buf[k] := 0.0; }
      pos, x := 0, [];
    }
  }

  // ---- FIR

  /** Convolution: tap t against the input t steps back. */
  function Fir(taps: seq<real>, x: seq<real>, n: nat): real
    requires n <= |taps|
  {
    if n == 0 then 0.0 else Fir(taps, x, n - 1) + Prod(taps[|taps| - n], At(x, |x| - 1 - (|taps| - n)))
  }

  /** The input at time i, silent outside what was given. */
  function At(x: seq<real>, i: int): real { if 0 <= i < |x| then x[i] else 0.0 }

  function Reversed(s: seq<real>): (r: seq<real>)
    ensures |r| == |s| && forall k :: 0 <= k < |s| ==> r[k] == s[|s| - 1 - k]
  {
    seq(|s|, k requires 0 <= k < |s| => s[|s| - 1 - k])
  }

  lemma {:induction false} DotIsFir(taps: seq<real>, x: seq<real>, n: nat)
    requires n <= |taps|
    ensures Dot(Reversed(taps), Tail(x, |taps|), n) == Fir(taps, x, n)
  {
    hide Prod;
    if n > 0 { DotIsFir(taps, x, n - 1); }
  }

  /** The sum of a list. */
  function Total(p: seq<real>): real { if p == [] then 0.0 else p[0] + Total(p[1..]) }

  /** The convolution as its sum of products: tap t times the input t samples ago. */
  lemma FirIsConvolution(taps: seq<real>, x: seq<real>, p: seq<real>)
    requires |p| == |taps|
    requires forall t :: 0 <= t < |p| ==> p[t] == if t < |x| then taps[t] * x[|x| - 1 - t] else 0.0
    ensures Fir(taps, x, |taps|) == Total(p)
  {
    FirIsSum(taps, x, p, |taps|);
    assert p[0..] == p;
  }

  lemma {:induction false} FirIsSum(taps: seq<real>, x: seq<real>, p: seq<real>, n: nat)
    requires |p| == |taps| && n <= |taps|
    requires forall t :: 0 <= t < |p| ==> p[t] == if t < |x| then taps[t] * x[|x| - 1 - t] else 0.0
    ensures Fir(taps, x, n) == Total(p[|p| - n..])
  {
    if n > 0 {
      FirIsSum(taps, x, p, n - 1);
      assert p[|p| - n..][1..] == p[|p| - n + 1..];
      var t := |p| - n;
      ProdOr(taps[t], x, |x| - 1 - t);
    }
  }

  lemma ProdOr(tap: real, x: seq<real>, i: int)
    ensures Prod(tap, At(x, i)) == if 0 <= i < |x| then tap * x[i] else 0.0
  {}

  class FirFilter {
    const taps: seq<real>
    const rev: seq<real>
    const ring: DoubledRing

    ghost predicate Valid()
      reads this, ring, ring.buf
    {
      ring.Valid() && taps != [] && rev == Reversed(taps) && ring.n == |taps|
    }

    constructor (taps: seq<real>)
      requires taps != []
      ensures Valid() && fresh(ring) && fresh(ring.buf) && ring.x == [] && this.taps == taps
    {
      this.taps := taps;
      rev := Reversed(taps);
      ring := new DoubledRing(|taps|);
    }

    /** One sample in, one sample of the convolution out. */
    method Step(v: real) returns (y: real)
      requires Valid()
      modifies ring, ring.buf
      ensures Valid() && ring.x == old(ring.x) + [v] && y == Fir(taps, ring.x, |taps|)
    {
      var w := ring.Put(v);
      y := EightLaneDot(rev, w);
      DotIsFir(taps, ring.x, |taps|);
    }
  }

  // ---- Rational resampling

  /** The input with up - 1 zeros after each sample, at index i. */
  function Stuffed(x: seq<real>, up: nat, i: int): real
    requires up > 0
  {
    if i >= 0 && i % up == 0 then At(x, i / up) else 0.0
  }

  /** A tap with the gain the stuffed zeros cost made up. */
  function Scaled(tap: real, up: nat): real { up as real * tap }

  /** Taps lo and up of the prototype, scaled by `up`, convolved with the zero-stuffed input at index at. */
  function Taps(proto: seq<real>, x: seq<real>, up: nat, at: int, lo: nat): real
    requires up > 0 && lo <= |proto|
    decreases |proto| - lo
  {
    if lo == |proto| then 0.0
    else Taps(proto, x, up, at, lo + 1) + Prod(Scaled(proto[lo], up), Stuffed(x, up, at - lo))
  }

  /** Output m: the low-passed, zero-stuffed input, every down-th sample kept. */
  function Output(proto: seq<real>, x: seq<real>, up: nat, down: nat, m: nat): real
    requires up > 0
  {
    Taps(proto, x, up, m * down, 0)
  }

  /** z is x with up - 1 zeros after each sample. */
  ghost predicate ZeroStuffed(z: seq<real>, x: seq<real>, up: nat) {
    && |z| == up * |x|
    && forall k, r :: 0 <= k < |x| && 0 <= r < up ==> Placed(z, x, up, k, r)
  }

  predicate Placed(z: seq<real>, x: seq<real>, up: nat, k: nat, r: nat)
    requires k < |x|
  {
    up * k + r < |z| && z[up * k + r] == if r == 0 then x[k] else 0.0
  }

  /** Output m as its sum of products: up times tap t, times the zero-stuffed input t places before place
      m * down. */
  lemma OutputIsConvolution(proto: seq<real>, x: seq<real>, up: nat, down: nat, m: nat, z: seq<real>, p: seq<real>)
    requires up > 0 && ZeroStuffed(z, x, up) && |p| == |proto|
    requires forall t :: 0 <= t < |p| ==>
      p[t] == if 0 <= m * down - t < |z| then up as real * proto[t] * z[m * down - t] else 0.0
    ensures Output(proto, x, up, down, m) == Total(p)
  {
    hide ZeroStuffed;
    TapsAreSum(proto, x, up, m * down, z, p, 0);
    assert p[0..] == p;
  }

  lemma {:induction false} TapsAreSum(proto: seq<real>, x: seq<real>, up: nat, at: int, z: seq<real>, p: seq<real>,
      lo: nat)
    requires up > 0 && ZeroStuffed(z, x, up) && |p| == |proto| && lo <= |p|
    requires forall t :: 0 <= t < |p| ==>
      p[t] == if 0 <= at - t < |z| then up as real * proto[t] * z[at - t] else 0.0
    ensures Taps(proto, x, up, at, lo) == Total(p[lo..])
    decreases |p| - lo
  {
    hide ZeroStuffed, Prod, Scaled, Stuffed;
    if lo < |p| {
      TapsAreSum(proto, x, up, at, z, p, lo + 1);
      assert p[lo..][1..] == p[lo + 1..];
      StuffedIsPlaced(x, up, at - lo, z);
      OneProduct(proto[lo], up, if 0 <= at - lo < |z| then z[at - lo] else 0.0);
    }
  }

  lemma OneProduct(tap: real, up: nat, v: real)
    ensures Prod(Scaled(tap, up), v) == up as real * tap * v
    ensures v == 0.0 ==> Prod(Scaled(tap, up), v) == 0.0
  {}

  lemma StuffedIsPlaced(x: seq<real>, up: nat, i: int, z: seq<real>)
    requires up > 0 && ZeroStuffed(z, x, up)
    ensures Stuffed(x, up, i) == if 0 <= i < |z| then z[i] else 0.0
  {
    if i >= 0 {
      var k, r := i / up, i % up;
      assert i == up * k + r;
      StuffedAt(x, up, i, k, r);
      if i < |z| {
        Below(i, up, |x|);
        assert Placed(z, x, up, k, r);
      } else {
        NotBelow(i, up, |x|);
      }
    }
  }

  /** The zero-stuffed input, a whole number k of samples and an offset of less than one away. */
  lemma StuffedAt(x: seq<real>, up: int, i: int, k: int, off: int)
    requires 0 - up < off < up && i == up * k + off
    ensures Stuffed(x, up, i) == if off == 0 then At(x, k) else 0.0
  {
    AtLeastOnce(up, k);
    if off >= 0 {
      Quotient(up, i, k, off);
      if k == 0 { assert i == off; }
    } else {
      assert up * (k - 1) == up * k - up;
      Quotient(up, i, k - 1, up + off);
    }
  }

  /** Where block b of up taps starts. */
  function Block(up: nat, b: nat): nat { up * b }

  lemma BlockNext(up: nat, b: nat)
    ensures Block(up, b + 1) == Block(up, b) + up && Block(up, 0) == 0
  {}

  lemma {:induction false} BlockMonotone(up: nat, a: nat, b: nat)
    requires a <= b
    ensures Block(up, a) <= Block(up, b)
  {
    hide Block;
    if a < b {
      BlockMonotone(up, a, b - 1);
      BlockNext(up, b - 1);
    }
  }

  /** The prototype tap in place j of the row for `phase`: oldest-first, every up-th tap. */
  function TapIndex(up: nat, phase: nat, tpp: nat, j: nat): nat
    requires j < tpp
  {
    Block(up, tpp - 1 - j) + phase
  }

  predicate Entry(row: seq<real>, proto: seq<real>, up: nat, phase: nat, tpp: nat, j: nat)
    requires j < tpp
  {
    j < |row| && TapIndex(up, phase, tpp, j) < |proto| && row[j] == Scaled(proto[TapIndex(up, phase, tpp, j)], up)
  }

  /** Row `phase` of the polyphase table. */
  predicate PolyRow(row: seq<real>, proto: seq<real>, up: nat, phase: nat, tpp: nat) {
    |row| == tpp && forall j :: 0 <= j < tpp ==> Entry(row, proto, up, phase, tpp, j)
  }

  lemma TapIndexInside(up: nat, phase: nat, tpp: nat, j: nat)
    requires j < tpp && phase < up
    ensures TapIndex(up, phase, tpp, j) < Block(up, tpp)
  {
    BlockNext(up, tpp - 1 - j);
    BlockMonotone(up, tpp - j, tpp);
  }

  /** Of one block of up taps, only the one in phase meets an input sample. */
  lemma {:induction false} BlockOfTaps(proto: seq<real>, x: seq<real>, up: nat, at: int, b: nat, off: nat, k: int,
      phase: nat)
    requires up > 0 && phase < up && off <= up && at == up * k + Block(up, b) + phase
    requires Block(up, b) + up <= |proto|
    ensures Taps(proto, x, up, at, Block(up, b) + off) ==
      Taps(proto, x, up, at, Block(up, b) + up) + (if off <= phase then
        Prod(Scaled(proto[Block(up, b) + phase], up), At(x, k)) else 0.0)
    decreases up - off
  {
    hide Prod, Stuffed, Scaled, Block;
    if off < up {
      var t := Block(up, b) + off;
      BlockOfTaps(proto, x, up, at, b, off + 1, k, phase);
      StuffedAt(x, up, at - t, k, phase - off);
      ZeroProd(Scaled(proto[t], up));
    }
  }

  lemma ZeroProd(a: real)
    ensures Prod(a, 0.0) == 0.0
  {}

  /** The windowed dot product over the first n (oldest) places is the convolution over the last
      n blocks of taps. */
  lemma {:induction false} DotIsTaps(proto: seq<real>, x: seq<real>, up: nat, row: seq<real>, phase: nat, tpp: nat,
      at: int, n: nat)
    requires up > 0 && phase < up && |proto| == Block(up, tpp) && PolyRow(row, proto, up, phase, tpp) && n <= tpp
    requires at == up * (|x| - 1) + phase
    ensures Block(up, tpp - n) <= |proto|
    ensures Dot(row, Tail(x, tpp), n) == Taps(proto, x, up, at, Block(up, tpp - n))
  {
    hide Prod, Stuffed, Scaled, Taps, PolyRow, Tail, Block;
    if n == 0 {
      NoTaps(proto, x, up, at);
    } else {
      DotIsTaps(proto, x, up, row, phase, tpp, at, n - 1);
      var b, k := tpp - n, |x| - 1 - (tpp - n);
      BlockNext(up, b);
      InputOf(up, |x| - 1, b);
      BlockOfTaps(proto, x, up, at, b, 0, k, phase);
      RowEntry(proto, x, up, row, phase, tpp, n - 1);
    }
  }

  lemma InputOf(up: nat, q: int, b: nat)
    ensures up * q == up * (q - b) + Block(up, b)
  {}

  lemma NoTaps(proto: seq<real>, x: seq<real>, up: nat, at: int)
    requires up > 0
    ensures Taps(proto, x, up, at, |proto|) == 0.0
  {}

  lemma RowEntry(proto: seq<real>, x: seq<real>, up: nat, row: seq<real>, phase: nat, tpp: nat, j: nat)
    requires up > 0 && phase < up && PolyRow(row, proto, up, phase, tpp) && j < tpp
    ensures Block(up, tpp - 1 - j) + phase < |proto| && |row| == tpp
    ensures row[j] == Scaled(proto[Block(up, tpp - 1 - j) + phase], up) && Tail(x, tpp)[j] == At(x, |x| - tpp + j)
  {
    hide Scaled, Block;
    assert Entry(row, proto, up, phase, tpp, j);
  }

  lemma DotIsOutput(proto: seq<real>, x: seq<real>, up: nat, down: nat, row: seq<real>, phase: nat, tpp: nat, m: nat)
    requires up > 0 && phase < up && |proto| == Block(up, tpp) && PolyRow(row, proto, up, phase, tpp)
    requires phase == m * down - (|x| - 1) * up
    ensures |row| == tpp && Dot(row, Tail(x, tpp), tpp) == Output(proto, x, up, down, m)
  {
    DotIsTaps(proto, x, up, row, phase, tpp, m * down, tpp);
  }

  /** Later input does not change an output already due. */
  lemma {:induction false} TapsSettled(proto: seq<real>, x: seq<real>, v: real, up: nat, at: int, lo: nat)
    requires up > 0 && lo <= |proto| && at < up * |x|
    ensures Taps(proto, x + [v], up, at, lo) == Taps(proto, x, up, at, lo)
    decreases |proto| - lo
  {
    if lo < |proto| {
      TapsSettled(proto, x, v, up, at, lo + 1);
      var i := at - lo;
      if i >= 0 { Below(i, up, |x|); }
    }
  }

  lemma Below(i: nat, d: nat, n: nat)
    requires 0 < d && i < d * n
    ensures i / d < n
  {
    assert i == d * (i / d) + i % d;
    assert d * (i / d - n) == d * (i / d) - d * n < 0;
    AtLeastOnce(d, i / d - n);
  }

  lemma NotBelow(i: nat, d: nat, n: nat)
    requires 0 < d && i >= d * n
    ensures i / d >= n
  {
    assert i == d * (i / d) + i % d;
    assert d * (n - i / d) == d * n - d * (i / d) < d;
    AtLeastOnce(d, n - i / d);
  }

  method PolyTable(proto: seq<real>, up: nat, tpp: nat) returns (poly: seq<seq<real>>)
    requires 0 < up && |proto| == Block(up, tpp)
    ensures |poly| == up && forall p :: 0 <= p < up ==> PolyRow(poly[p], proto, up, p, tpp)
  {
    hide PolyRow;
    poly := [];
    for p := 0 to up
      invariant |poly| == p && forall q :: 0 <= q < p ==> PolyRow(poly[q], proto, up, q, tpp)
    {
      var row := PolyPhase(proto, up, tpp, p);
      poly := poly + [row];
    }
  }

  method PolyPhase(proto: seq<real>, up: nat, tpp: nat, p: nat) returns (row: seq<real>)
    requires p < up && |proto| == Block(up, tpp)
    ensures PolyRow(row, proto, up, p, tpp)
  {
    hide Scaled, TapIndex;
    row := [];
    for j := 0 to tpp
      invariant |row| == j
      invariant forall k :: 0 <= k < j ==> Entry(row, proto, up, p, tpp, k)
    {
      TapIndexInside(up, p, tpp, j);
      ghost var before := row;
      row := row + [Scaled(proto[TapIndex(up, p, tpp, j)], up)];
      forall k | 0 <= k < j + 1 ensures Entry(row, proto, up, p, tpp, k) {
        if k < j { assert Entry(before, proto, up, p, tpp, k); }
      }
    }
  }

  class Resampler {
    const up: nat
    const down: nat
    const tpp: nat
    const proto: seq<real>            // the prototype, zero-padded to whole blocks
    const poly: seq<seq<real>>        // one row per phase
    const ring: DoubledRing
    var phase: nat
    ghost var y: seq<real>            // every output since the last reset, kept or not

    ghost predicate Valid()
      reads this, ring, ring.buf
    {
      && 0 < up && 0 < down && 0 < tpp && |proto| == Block(up, tpp) && |poly| == up
      && (forall p :: 0 <= p < up ==> PolyRow(poly[p], proto, up, p, tpp))
      && ring.Valid() && ring.n == tpp
      && (forall m :: 0 <= m < |y| ==> y[m] == Output(proto, ring.x, up, down, m))
    }

    /** Between inputs: how far the next output is past the input consumed. */
    ghost predicate InStep()
      reads this, ring
    {
      phase < down && phase == |y| * down - |ring.x| * up
    }

    /** Pads the prototype to whole blocks and lays it out by phase. */
    constructor (up: nat, down: nat, taps: seq<real>)
      requires 0 < up && 0 < down && taps != []
      ensures Valid() && InStep() && fresh(ring) && fresh(ring.buf) && ring.x == [] && y == []
      ensures this.up == up && this.down == down && taps <= proto && forall k :: |taps| <= k < |proto| ==>
        proto[k] == 0.0
    {
      var tpp := (|taps| + up - 1) / up;
      BlocksCover(|taps|, up);
      var proto := taps + seq(up * tpp - |taps|, _ => 0.0);
      var poly := PolyTable(proto, up, tpp);
      this.up, this.down, this.tpp, this.proto, this.poly := up, down, tpp, proto, poly;
      phase, y := 0, [];
      ring := new DoubledRing(tpp);
    }

    method Reset()
      requires Valid()
      modifies this, ring, ring.buf
      ensures Valid() && InStep() && ring.x == [] && y == []
    {
      ring.Reset();
      phase, y := 0, [];
    }

    /** Mid-input: output |y| is the next due, `phase` places past the newest input. */
    ghost predicate MidStep()
      reads this, ring
    {
      |ring.x| > 0 && phase < up + down && phase == |y| * down - (|ring.x| - 1) * up
    }

    /** Makes the output that is due. */
    method Emit(w: seq<real>) returns (acc: real)
      requires Valid() && MidStep() && phase < up && w == Tail(ring.x, tpp)
      modifies this
      ensures Valid() && MidStep() && phase == old(phase) + down && y == old(y) + [acc]
    {
      hide PolyRow, Tail, Dot, Output, Taps;
      DotIsOutput(proto, ring.x, up, down, poly[phase], phase, tpp, |y|);
      acc := EightLaneDot(poly[phase], w);
      y := y + [acc];
      assert |y| * down == (|y| - 1) * down + down;
      phase := phase + down;
    }

    /** Takes input v in. */
    method TakeIn(v: real) returns (w: seq<real>)
      requires Valid() && InStep()
      modifies this, ring, ring.buf
      ensures Valid() && MidStep() && ring.x == old(ring.x) + [v] && y == old(y) && w == Tail(ring.x, tpp)
    {
      forall m | 0 <= m < |y| ensures y[m] == Output(proto, ring.x + [v], up, down, m) {
        OutputBound(m, |y|, up, down, |ring.x|, phase);
        TapsSettled(proto, ring.x, v, up, m * down, 0);
      }
      hide Output, PolyRow, Tail;
      w := ring.Put(v);
    }

    /** The outputs due after input v, added to `out` while it has room. */
    method PushOne(v: real, out: seq<real>, cap: nat) returns (o: seq<real>)
      requires Valid() && InStep() && |out| <= cap
      modifies this, ring, ring.buf
      ensures Valid() && InStep() && ring.x == old(ring.x) + [v] && old(y) <= y
      ensures o == Kept(out + y[|old(y)|..], cap)
    {
      hide Output, PolyRow, Tail, Kept;
      ghost var before := y;
      var w := TakeIn(v);
      o := out;
      assert out + y[|before|..] == out;
      while phase < up
        invariant Valid() && MidStep() && ring.x == old(ring.x) + [v] && w == Tail(ring.x, tpp) && before <= y
        invariant o == Kept(out + y[|before|..], cap)
        decreases up - phase
      {
        ghost var mid := y;
        var acc := Emit(w);
        KeptGrows(out + mid[|before|..], acc, cap);
        assert out + y[|before|..] == out + mid[|before|..] + [acc];
        if |o| < cap { o := o + [acc]; }
      }
      phase := phase - up;
      assert (|ring.x| - 1) * up == |ring.x| * up - up;
    }

    /** Pushes a block. Whatever the split into blocks, the outputs are those of the whole input;
        `out` holds the ones due in this block, and all of them when cap is at least MaxOut. */
    method Push(xs: seq<real>, cap: nat) returns (out: seq<real>)
      requires Valid() && InStep()
      modifies this, ring, ring.buf
      ensures Valid() && InStep() && ring.x == old(ring.x) + xs && old(y) <= y
      ensures out == Kept(y[|old(y)|..], cap)
      ensures cap >= MaxOut(|xs|, up, down) ==> out == y[|old(y)|..]
    {
      out := [];
      ghost var before := y;
      assert xs[..0] == [];
      for i := 0 to |xs|
        invariant Valid() && InStep() && ring.x == old(ring.x) + xs[..i] && before <= y
        invariant out == Kept(y[|before|..], cap)
      {
        ghost var mid := y;
        assert xs[..i + 1] == xs[..i] + [xs[i]];
        out := PushOne(xs[i], out, cap);
        assert y[|before|..] == mid[|before|..] + y[|mid|..];
        KeptTwice(mid[|before|..], y[|mid|..], cap);
      }
      assert xs[..|xs|] == xs;
      OutputsFit(|old(ring.x)|, |xs|, |before|, |y|, up, down);
    }
  }

  /** The first cap of a list. */
  function Kept(all: seq<real>, cap: nat): (k: seq<real>)
    ensures |k| <= cap && (|all| <= cap ==> k == all)
  {
    if |all| <= cap then all else all[..cap]
  }

  lemma KeptGrows(all: seq<real>, v: real, cap: nat)
    ensures Kept(all + [v], cap) == if |Kept(all, cap)| < cap then Kept(all, cap) + [v] else Kept(all, cap)
  {}

  lemma KeptTwice(a: seq<real>, b: seq<real>, cap: nat)
    ensures Kept(Kept(a, cap) + b, cap) == Kept(a + b, cap)
  {}

  lemma BlocksCover(n: nat, up: nat)
    requires 0 < n && 0 < up
    ensures var b := (n + up - 1) / up; 0 < b && n <= up * b
  {
    var b, r := (n + up - 1) / up, (n + up - 1) % up;
    assert n + up - 1 == up * b + r;
    AtLeastOnce(up, b - 1);
    assert up * b == up * (b - 1) + up;
  }

  /** An output already made is due before the next input. */
  lemma OutputBound(m: nat, made: nat, up: nat, down: nat, n: nat, phase: nat)
    requires m < made && 0 < down && phase < down && phase == made * down - n * up
    ensures m * down < up * n
  {
    AtLeastOnce(down, made - m);
    assert down * (made - m) == made * down - m * down;
  }

  function MaxOut(n: nat, up: nat, down: nat): nat
    requires 0 < down
  {
    n * up / down + 2
  }

  /** After n inputs from reset, exactly ceil(n * up / down) outputs: in step, the count is forced. */
  lemma OutputCount(n: nat, made: nat, up: nat, down: nat)
    requires 0 < down && 0 <= made * down - n * up < down
    ensures made == (n * up + down - 1) / down
  {
    var s := down - 1 - (made * down - n * up);
    assert n * up + down - 1 == down * made + s;
    Quotient(down, n * up + down - 1, made, s);
  }

  /** max_out is never short, from any phase. */
  lemma OutputsFit(n0: nat, n: nat, made0: nat, made: nat, up: nat, down: nat)
    requires 0 < down && 0 <= made0 * down - n0 * up < down && 0 <= made * down - (n0 + n) * up < down
    ensures made - made0 < MaxOut(n, up, down)
  {
    var q, r := n * up / down, n * up % down;
    assert n * up == down * q + r;
    assert (n0 + n) * up == n0 * up + n * up;
    var d := made - made0 - q - 2;
    assert down * d == made * down - made0 * down - down * q - 2 * down;
    if d >= 0 { if d >= 1 { AtLeastOnce(down, d); } }
  }

  /** Two resamplers at the same ratio fed in step, as I and Q are, always hold the same count. */
  lemma IqInStep(n: nat, madeI: nat, madeQ: nat, up: nat, down: nat)
    requires 0 < down && 0 <= madeI * down - n * up < down && 0 <= madeQ * down - n * up < down
    ensures madeI == madeQ
  {
    OutputCount(n, madeI, up, down);
    OutputCount(n, madeQ, up, down);
  }
}
