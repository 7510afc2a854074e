/** The pump that writes 16-bit samples to a non-blocking pipe: partial and refused writes, the byte
    carried over when a chunk is abandoned inside a sample, and what was dropped. */
module FdPump {
  /** One byte of the sample numbered `of` since the pipe was adopted: its low or its high half. */
  datatype Octet = Octet(of: nat, high: bool)

  function Octets(from: nat, n: nat): (b: seq<Octet>)
    ensures |b| == 2 * n
  {
    seq(2 * n, i requires 0 <= i < 2 * n => Octet(from + i / 2, i % 2 == 1))
  }

  /** How write() answers: some bytes taken, interrupted, or refused (full pipe or an error). */
  datatype Answer = Wrote(k: nat) | Interrupted | Refused

  /** The answers to the writes for `left` bytes, up to the one that ends them. */
  ghost predicate Answers(left: nat, writes: seq<Answer>)
    decreases |writes|
  {
    if left == 0 then writes == []
    else
      && writes != []
      && match writes[0]
        case Wrote(k) => 0 < k <= left && Answers(left - k, writes[1..])
        case Interrupted => Answers(left, writes[1..])
        case Refused => |writes| == 1
  }

  function Accepted(writes: seq<Answer>): nat {
    if writes == [] then 0 else (if writes[0].Wrote? then writes[0].k else 0) + Accepted(writes[1..])
  }

  // ---- Streams of bytes

  /** Even offsets hold low bytes and odd offsets high bytes. */
  ghost predicate Aligned(s: seq<Octet>) { forall i :: 0 <= i < |s| ==> s[i].high == (i % 2 == 1) }

  /** The two bytes at offset 2j are halves of one sample. */
  predicate WholeAt(s: seq<Octet>, j: nat)
    requires 2 * j + 1 < |s|
  {
    s[2 * j].of == s[2 * j + 1].of
  }

  ghost predicate Whole(s: seq<Octet>) { forall j: nat :: 2 * j + 1 < |s| ==> WholeAt(s, j) }

  /** Later pairs come from later samples, all before sample n. */
  ghost predicate Rising(s: seq<Octet>, n: nat) {
    (forall i :: 0 <= i < |s| ==> s[i].of < n) && forall i, j :: 0 <= i < j < |s| && i / 2 < j / 2 ==> s[i].of < s[j].of
  }

  lemma ChunkAppended(s: seq<Octet>, from: nat, n: nat)
    requires |s| % 2 == 0 && Aligned(s) && Rising(s, from)
    ensures var t := s + Octets(from, n);
      && |t| % 2 == 0 && Aligned(t) && Rising(t, from + n)
      && forall j: nat :: 2 * j >= |s| && 2 * j + 1 < |t| ==> WholeAt(t, j)
  {
    var t, h := s + Octets(from, n), |s| / 2;
    forall i | |s| <= i < |t| ensures t[i].of == from + (i / 2 - h) && t[i].high == (i % 2 == 1) {
      assert t[i] == Octets(from, n)[i - |s|];
      EvenShift(i, h);
    }
    hide Octets;
    forall i, j | 0 <= i < j < |t| && i / 2 < j / 2 ensures t[i].of < t[j].of {
      if j < |s| { assert s[i].of < s[j].of; }
    }
  }

  lemma EvenShift(i: nat, h: nat)
    requires 2 * h <= i
    ensures (i - 2 * h) / 2 == i / 2 - h && (i - 2 * h) % 2 == i % 2
  {}

  lemma WholeSplit(s: seq<Octet>, t: seq<Octet>)
    requires |s| % 2 == 0 && s <= t && forall j: nat :: 2 * j >= |s| && 2 * j + 1 < |t| ==> WholeAt(t, j)
    ensures Whole(t) <==> Whole(s)
  {
    if Whole(s) {
      forall j: nat | 2 * j + 1 < |t| ensures WholeAt(t, j) { if 2 * j < |s| { assert WholeAt(s, j); } }
    }
    if Whole(t) {
      forall j: nat | 2 * j + 1 < |s| ensures WholeAt(s, j) { assert WholeAt(t, j); }
    }
  }

  /** Abandoning t after `cut` bytes, an odd number from its end: the byte kept is t's last, a high
      byte -- of the sample whose low byte was sent exactly when nothing else is dropped. */
  lemma CarryTears(t: seq<Octet>, n: nat, cut: nat)
    requires |t| % 2 == 0 && Aligned(t) && Rising(t, n) && cut % 2 == 1 && cut < |t|
    ensures var s := t[..cut] + [t[|t| - 1]];
      |s| % 2 == 0 && Aligned(s) && Rising(s, n)
      && (cut + 1 < |t| ==> !Whole(s))
    ensures cut + 1 == |t| ==> t[..cut] + [t[|t| - 1]] == t
  {
    var s := t[..cut] + [t[|t| - 1]];
    if cut + 1 < |t| {
      var j := cut / 2;
      assert cut == 2 * j + 1 && t[2 * j].of < t[|t| - 1].of;
      assert !WholeAt(s, j);
    }
  }

  datatype Health = Misaligned | Torn | Sound

  /** A stream made from the first n samples: aligned pairs of rising samples, each pair one sample,
      or some pair torn. */
  ghost function HealthOf(s: seq<Octet>, n: nat): Health {
    if |s| % 2 != 0 || !Aligned(s) || !Rising(s, n) then Misaligned else if Whole(s) then Sound else Torn
  }

  function Verdict(torn: bool): Health { if torn then Torn else Sound }

  lemma HealthEven(s: seq<Octet>, n: nat, torn: bool)
    requires HealthOf(s, n) == Verdict(torn)
    ensures |s| % 2 == 0
  {}

  /** A chunk abandoned on a sample boundary loses whole samples only. */
  lemma EvenCut(s: seq<Octet>, n: nat, torn: bool, chunk: seq<Octet>, cut: nat)
    requires HealthOf(s, n) == Verdict(torn) && |chunk| % 2 == 0 && chunk == Octets(n, |chunk| / 2)
    requires |s| <= cut <= |s| + |chunk| && cut % 2 == 0
    ensures HealthOf((s + chunk)[..cut], n + |chunk| / 2) == Verdict(torn)
  {
    var t := s + chunk;
    ChunkAppended(s, n, |chunk| / 2);
    WholeSplit(s, t[..cut]);
  }

  lemma OddCut(s: seq<Octet>, n: nat, torn: bool, chunk: seq<Octet>, cut: nat)
    requires HealthOf(s, n) == Verdict(torn) && |chunk| % 2 == 0 && chunk == Octets(n, |chunk| / 2)
    requires |s| <= cut + 1 && cut < |s| + |chunk| && cut % 2 == 1
    ensures var t := s + chunk;
      HealthOf(t[..cut] + [t[|t| - 1]], n + |chunk| / 2) == Verdict(torn || cut + 1 < |t|)
  {
    hide Octets, Whole, Rising, Aligned;
    var t := s + chunk;
    ChunkAppended(s, n, |chunk| / 2);
    CarryTears(t, n + |chunk| / 2, cut);
    WholeSplit(s, t);
  }

  /** What is kept of a chunk given up with `left` bytes to go: nothing, or its last byte. */
  function Kept(buf: seq<Octet>, left: nat): (kept: seq<Octet>)
    requires left <= |buf|
    ensures |kept| == left % 2
  {
    if left % 2 == 1 then [buf[|buf| - 1]] else []
  }

  lemma StreamCut(sent: seq<Octet>, carry: seq<Octet>, chunk: seq<Octet>, k: nat)
    requires k <= |carry + chunk| && chunk != []
    ensures var t, buf := sent + carry + chunk, carry + chunk;
      |t| == |sent| + |buf| && t[..|sent| + k] == sent + buf[..k] && Kept(t, |buf| - k) == Kept(buf, |buf| - k)
  {
    assert sent + carry + chunk == sent + (carry + chunk);
  }

  lemma Settled(s: seq<Octet>, n: nat, was: bool, chunk: seq<Octet>, cut: nat)
    requires HealthOf(s, n) == Verdict(was) && |chunk| % 2 == 0 && chunk == Octets(n, |chunk| / 2)
    requires |s| <= cut + 1 && cut <= |s| + |chunk| && (cut % 2 == 0 ==> |s| <= cut)
    ensures var t := s + chunk; var left := |t| - cut;
      HealthOf(t[..cut] + Kept(t, left), n + |chunk| / 2) == Verdict(was || (left % 2 == 1 && left > 1))
  {
    HealthEven(s, n, was);
    hide HealthOf, Verdict, Octets;
    if cut % 2 == 1 {
      OddCut(s, n, was, chunk, cut);
    } else {
      EvenCut(s, n, was, chunk, cut);
      assert (s + chunk)[..cut] + [] == (s + chunk)[..cut];
    }
  }

  /** What a chunk does to the stream: k bytes of it and of the byte carried are sent, the rest given up. */
  lemma ChunkDone(sent: seq<Octet>, carry: seq<Octet>, n: nat, was: bool, chunk: seq<Octet>, k: nat)
    requires HealthOf(sent + carry, n) == Verdict(was) && |chunk| % 2 == 0 && chunk != []
      && chunk == Octets(n, |chunk| / 2)
    requires |carry| == |sent| % 2 && k <= |carry + chunk|
    ensures var buf := carry + chunk; var left := |buf| - k;
      HealthOf(sent + buf[..k] + Kept(buf, left), n + |chunk| / 2) == Verdict(was || (left % 2 == 1 && left > 1))
  {
    hide HealthOf, Verdict, Octets, Kept;
    StreamCut(sent, carry, chunk, k);
    Settled(sent + carry, n, was, chunk, |sent| + k);
  }

  /** Of two samples one byte is taken and the rest refused: the reader's first sample gets the low byte of
      one and the high byte of the other. */
  lemma TornSample()
    ensures Answers(4, [Wrote(1), Refused]) && Accepted([Wrote(1), Refused]) == 1
    ensures var chunk := Octets(0, 2);
      && HealthOf([], 0) == Sound && HealthOf(chunk[..1] + Kept(chunk, 3), 2) == Torn
      && chunk[..1] + Kept(chunk, 3) == [Octet(0, false), Octet(1, true)]
  {
    assert [Wrote(1), Refused][1..] == [Refused];
    var chunk := Octets(0, 2);
    var s := chunk[..1] + Kept(chunk, 3);
    assert s == [Octet(0, false), Octet(1, true)];
    assert !WholeAt(s, 0);
  }

  // ---- The pump

  class Pump {
    var curFd: int
    var haveCarry: bool
    var carry: Octet
    var dropped: nat
    ghost var sent: seq<Octet>
    ghost var read: nat
    ghost var droppedBefore: nat
    ghost var torn: bool

    function Carry(): seq<Octet>
      reads `haveCarry, `carry
    {
      if haveCarry then [carry] else []
    }

    /** What the reader of the pipe has, and the byte that comes next. `torn` says whether some chunk
        was abandoned with an odd number of bytes left other than one. */
    ghost predicate Valid()
      reads this
    {
      HealthOf(sent + Carry(), read) == Verdict(torn) && Accounted()
    }

    /** Bytes sent, the byte carried and twice the samples dropped are twice the samples read. */
    ghost predicate Accounted()
      reads this
    {
      droppedBefore <= dropped && |sent| + |Carry()| + 2 * (dropped - droppedBefore) == 2 * read
    }

    constructor ()
      ensures Valid() && curFd == -1 && dropped == 0
    {
      curFd, haveCarry, carry, dropped := -1, false, Octet(0, false), 0;
      sent, read, droppedBefore, torn := [], 0, 0, false;
    }

    /** A new pipe starts clean: a byte of the old stream must not bleed into it. */
    method Adopt(fd: int)
      modifies this
      ensures Valid() && curFd == fd && sent == [] && read == 0 && !torn && dropped == old(dropped)
    {
      curFd, haveCarry := fd, false;
      sent, read, droppedBefore, torn := [], 0, dropped, false;
    }

    /** Writes until all is taken or a write is refused. */
    method Send(outbuf: seq<Octet>, writes: seq<Answer>) returns (left: nat)
      requires Answers(|outbuf|, writes)
      modifies `sent
      ensures left == |outbuf| - Accepted(writes) && sent == old(sent) + outbuf[..|outbuf| - left]
    {
      left := |outbuf|;
      var i := 0;
      assert writes[0..] == writes;
      while left > 0
        invariant left <= |outbuf| && i <= |writes| && Answers(left, writes[i..])
        invariant sent == old(sent) + outbuf[..|outbuf| - left]
        invariant left == |outbuf| - Accepted(writes) + Accepted(writes[i..])
        decreases |writes| - i
      {
        var answer := writes[i];
        assert writes[i..][1..] == writes[i + 1..];
        i := i + 1;
        match answer {
          case Wrote(k) =>
            ghost var at := |outbuf| - left;
            assert outbuf[..at + k] == outbuf[..at] + outbuf[at..at + k];
            sent := sent + outbuf[at..at + k];
            left := left - k;
          case Interrupted =>
          case Refused =>
            assert writes[i..] == [];
            break;
        }
      }
    }

    /** Gives up the last `left` bytes of a chunk. */
    method Drop(outbuf: seq<Octet>, left: nat)
      requires left <= |outbuf| && !haveCarry
      modifies `dropped, `haveCarry, `carry, `torn
      ensures dropped == old(dropped) + left / 2 && Carry() == Kept(outbuf, left)
      ensures torn == (old(torn) || (left % 2 == 1 && left > 1))
    {
      dropped := dropped + left / 2;
      if left % 2 == 1 {
        haveCarry := true;
        carry := outbuf[|outbuf| - 1];
        torn := torn || left > 1;
      }
    }

    /** Sends a chunk, the carried byte first, and gives up what is refused. */
    method WriteOut(chunk: seq<Octet>, writes: seq<Answer>) returns (left: nat)
      requires Valid() && |chunk| % 2 == 0 && chunk != [] && chunk == Octets(read, |chunk| / 2)
        && Answers(|Carry() + chunk|, writes)
      modifies this
      ensures Valid() && curFd == old(curFd) && read == old(read) + |chunk| / 2
      ensures var buf := old(Carry()) + chunk;
        && left <= |buf| && left == |buf| - Accepted(writes) && sent == old(sent) + buf[..|buf| - left]
        && dropped == old(dropped) + left / 2 && Carry() == Kept(buf, left)
        && torn == (old(torn) || (left % 2 == 1 && left > 1))
    {
      hide HealthOf, Verdict, Octets, Answers, Accepted, Kept;
      ghost var before, c, n, was := sent, Carry(), read, torn;
      HealthEven(before + c, n, was);
      var outbuf := Carry() + chunk;
      haveCarry := false;
      left := Send(outbuf, writes);
      ChunkDone(before, c, n, was, chunk, |outbuf| - left);
      read := read + |chunk| / 2;
      Drop(outbuf, left);
      assert sent == before + outbuf[..|outbuf| - left] && Carry() == Kept(outbuf, left);
      assert sent + Carry() == before + outbuf[..|outbuf| - left] + Kept(outbuf, left);
      assert HealthOf(sent + Carry(), read) == Verdict(torn);
      assert |sent| + |Carry()| + 2 * (left / 2) == |before| + |c| + |chunk|;
      assert Accounted();
    }

    /** One chunk of samples from the ring. Without a pipe it is thrown away; a refused rest is dropped
        in whole samples, an odd byte of it kept for later. */
    method PumpChunk(chunk: seq<Octet>, writes: seq<Answer>)
      requires Valid() && |chunk| % 2 == 0 && chunk == Octets(read, |chunk| / 2)
      requires curFd >= 0 && chunk != [] ==> Answers(|Carry() + chunk|, writes)
      modifies this
      ensures Valid() && curFd == old(curFd)
      ensures curFd < 0 || chunk == [] ==>
        sent == old(sent) && Carry() == old(Carry()) && dropped == old(dropped)
        && read == old(read) && torn == old(torn)
      ensures curFd >= 0 && chunk != [] ==>
        var buf, k := old(Carry()) + chunk, Accepted(writes);
        && 0 <= k <= |buf| && sent == old(sent) + buf[..k] && read == old(read) + |chunk| / 2
        && dropped == old(dropped) + (|buf| - k) / 2 && Carry() == Kept(buf, |buf| - k)
        && torn == (old(torn) || ((|buf| - k) % 2 == 1 && |buf| - k > 1))
    {
      hide HealthOf, Octets, Answers, Accepted, Kept;
      if chunk == [] { return; }
      if curFd < 0 { return; }
      var left := WriteOut(chunk, writes);
    }
  }

  /** The reader's samples are true samples exactly when no chunk was abandoned in the middle of a
      sample with more than that one byte left. */
  lemma TrueSamples(p: Pump)
    requires p.Valid()
    ensures forall i :: 0 <= i < |p.sent| ==> p.sent[i].high == (i % 2 == 1)
    ensures p.torn <==> exists j: nat :: 2 * j + 1 < |p.sent + p.Carry()| && !WholeAt(p.sent + p.Carry(), j)
  {
    forall i | 0 <= i < |p.sent| ensures p.sent[i].high == (i % 2 == 1) { assert p.sent[i] == (p.sent + p.Carry())[i]; }
  }
}
