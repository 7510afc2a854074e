/** Close Call recording: which bytes of the speaker feed end up in a clip, and how many. Every byte is
    tagged with who owned the speaker when it arrived, and with the span of ownership it arrived in. */
module CcRecording {
  import opened Options
  import opened Preroll
  import opened SquelchSpec

  const BYTES_PER_SECOND: nat := 96000
  const RING_BYTES: nat := 2 * BYTES_PER_SECOND
  const EPSILON_BYTES: nat := 24000
  const MIN_CLIP_BYTES: nat := 33600
  const CAP_FLAP_MS: nat := 3000

  datatype Pcm = Pcm(span: nat, owner: Option<LaneId>)

  datatype Job = Job(freqHz: int, pcm: seq<Pcm>)

  /** One reading of the configured length, and how many bytes there were to take: first the pre-roll the
      clip may begin with, then each chunk. */
  datatype Take = Take(seconds: real, offered: nat)

  /** Where a clip comes from: the span it was heard in, how much of it is pre-roll, and what was offered. */
  datatype Origin = Origin(span: nat, seedLen: nat, takes: seq<Take>)

  function Min(a: nat, b: nat): nat { if a < b then a else b }

  /** The configured length need not be whole seconds, nor the cap a whole number of bytes. */
  function ClipCap(maxSeconds: real): real { (if maxSeconds < 1.0 then 1.0 else maxSeconds) * 96000.0 }

  // ---- The cap

  /** Buffer.subarray(0, end): a negative end counts from the back. */
  function FrontLen(n: nat, end: int): nat {
    if end > n then n else if end >= 0 then end else if n + end >= 0 then n + end else 0
  }

  /** A fractional index is cut off towards zero. */
  function Truncated(x: real): int { if x >= 0.0 then x.Floor else 0 - (0.0 - x).Floor }

  function Ceiling(x: real): (n: int)
    ensures (n - 1) as real < x <= n as real
  {
    0 - (0.0 - x).Floor
  }

  /** How much of an n byte chunk a clip of `have` bytes takes. */
  function TakenLen(n: nat, have: nat, cap: real): (m: nat)
    ensures m <= n
  {
    if n as real > cap - have as real then FrontLen(n, Truncated(cap - have as real)) else n
  }

  function Taken<T>(chunk: seq<T>, have: nat, cap: real): seq<T> { chunk[..TakenLen(|chunk|, have, cap)] }

  /** A chunk takes a clip over its cap only if the clip was over it already; such a clip then grows by
      all but the excess of the chunk. */
  lemma CapKept(n: nat, have: nat, cap: real)
    ensures (have + TakenLen(n, have, cap)) as real <= cap <==> have as real <= cap
    ensures var excess := (have as real - cap).Floor;
      have as real > cap ==> TakenLen(n, have, cap) == if excess == 0 || n < excess then 0 else n - excess
  {}

  /** What a clip takes of a chunk: within its cap, the front of the chunk, as many whole bytes as there is
      room for; over it, all but the whole bytes it is over by, or nothing. */
  lemma TakenFront(chunk: seq<Pcm>, have: nat, cap: real)
    ensures have as real <= cap ==>
      Taken(chunk, have, cap) == if have + |chunk| <= cap.Floor then chunk else chunk[..cap.Floor - have]
    ensures have as real > cap ==>
      var excess := (have as real - cap).Floor;
      Taken(chunk, have, cap) == if 0 < excess <= |chunk| then chunk[..|chunk| - excess] else []
  {}

  /** With room for less than a byte a clip takes nothing and does not reach its cap: it then ends only
      when the speaker changes hands. */
  lemma PartialByteWaits(n: nat, have: nat, cap: real)
    requires n > 0 && 0.0 < cap - have as real < 1.0
    ensures TakenLen(n, have, cap) == 0 && (have + TakenLen(n, have, cap)) as real < cap
  {}

  /** The length of a clip that was offered these bytes under these configured lengths. */
  function LengthOf(takes: seq<Take>): nat {
    if takes == [] then 0
    else
      var k := |takes| - 1;
      var cap := ClipCap(takes[k].seconds);
      if k == 0 then Min(takes[0].offered, Ceiling(cap))
      else LengthOf(takes[..k]) + TakenLen(takes[k].offered, LengthOf(takes[..k]), cap)
  }

  /** Not queued yet: a chunk that brings a clip to its cap ends it, the pre-roll never does. */
  predicate Records(takes: seq<Take>)
    requires takes != []
  {
    |takes| == 1 || LengthOf(takes) as real < ClipCap(takes[|takes| - 1].seconds)
  }

  /** What the recorder can have gone through with one clip. */
  predicate Possible(takes: seq<Take>) {
    && takes != []
    && (var k := |takes| - 1;
        if k == 0 then takes[0].offered <= RING_BYTES else Possible(takes[..k]) && Records(takes[..k]))
  }

  function Lengths(takes: seq<Take>): (ls: seq<real>)
    ensures |ls| == |takes|
  {
    seq(|takes|, i requires 0 <= i < |takes| => takes[i].seconds)
  }

  function LastCap(ls: seq<real>): real
    requires ls != []
  {
    ClipCap(ls[|ls| - 1])
  }

  /** The most a clip can hold when the last of these lengths is read: as pre-roll its first cap rounded up,
      with chunks since then anything short of the cap before the last. */
  function Reach(ls: seq<real>): nat
    requires ls != []
  {
    if |ls| <= 2 then Min(RING_BYTES, Ceiling(ClipCap(ls[0]))) else Ceiling(ClipCap(ls[|ls| - 2])) - 1
  }

  lemma CapHolds(takes: seq<Take>)
    requires Possible(takes)
    ensures var ls := Lengths(takes);
      && (Reach(ls) as real <= LastCap(ls) ==> LengthOf(takes) as real <= LastCap(ls))
      && (Reach(ls) as real < LastCap(ls) + 1.0 ==> LengthOf(takes) as real < LastCap(ls) + 1.0)
  {
    var k := |takes| - 1;
    var cap := ClipCap(takes[k].seconds);
    if k > 0 {
      var have := LengthOf(takes[..k]);
      assert have <= Reach(Lengths(takes));
      CapKept(takes[k].offered, have, cap);
    }
  }

  function Idle(ls: seq<real>): seq<Take> { seq(|ls|, i requires 0 <= i < |ls| => Take(ls[i], 0)) }

  lemma {:induction false} IdleIsPossible(ls: seq<real>)
    ensures LengthOf(Idle(ls)) == 0 && (ls != [] ==> Possible(Idle(ls)) && Records(Idle(ls)))
  {
    if ls != [] {
      var k := |ls| - 1;
      assert Idle(ls)[..k] == Idle(ls[..k]);
      IdleIsPossible(ls[..k]);
    }
  }

  /** A clip that holds n bytes when the last of these lengths is to be read. */
  function Holding(ls: seq<real>, n: nat): seq<Take>
    requires ls != []
  {
    Idle(ls[..|ls| - 1]) + [Take(ls[|ls| - 1], n)]
  }

  lemma HoldingIsPossible(ls: seq<real>, n: nat)
    requires ls != [] && n == if |ls| == 1 then Min(RING_BYTES, Ceiling(ClipCap(ls[0]))) else Ceiling(LastCap(ls)) - 1
    ensures Possible(Holding(ls, n)) && Records(Holding(ls, n)) && LengthOf(Holding(ls, n)) == n
      && Lengths(Holding(ls, n)) == ls
  {
    var held, k := Holding(ls, n), |ls| - 1;
    assert held[..k] == Idle(ls[..k]);
    IdleIsPossible(ls[..k]);
  }

  /** Beyond that reach some clip does exceed its cap. */
  lemma CapBreaks(ls: seq<real>) returns (takes: seq<Take>)
    requires ls != [] && Reach(ls) as real > LastCap(ls)
    ensures Possible(takes) && Lengths(takes) == ls && LengthOf(takes) as real > LastCap(ls)
  {
    hide Holding, Possible, Records, LengthOf, Lengths, Taken, RING_BYTES;
    var k := |ls| - 1;
    if k == 0 {
      takes := Holding(ls, Reach(ls));
      HoldingIsPossible(ls, Reach(ls));
    } else {
      var held := Holding(ls[..k], Reach(ls));
      HoldingIsPossible(ls[..k], Reach(ls));
      takes := held + [Take(ls[k], 0)];
      assert takes[..k] == held;
      LastTake(held, ls[k]);
      assert ls[..k] + [ls[k]] == ls;
    }
  }

  lemma LastTake(held: seq<Take>, seconds: real)
    requires held != [] && Possible(held) && Records(held)
    ensures var takes := held + [Take(seconds, 0)];
      Possible(takes) && LengthOf(takes) >= LengthOf(held) && Lengths(takes) == Lengths(held) + [seconds]
  {
    assert (held + [Take(seconds, 0)])[..|held|] == held;
  }

  /** When the cap is kept: for the lengths read during a clip, every clip ends within the last of them
      exactly if the reach is within it. */
  lemma CapIff(ls: seq<real>)
    requires ls != []
    ensures (forall takes :: Possible(takes) && Lengths(takes) == ls ==> LengthOf(takes) as real <= LastCap(ls))
            <==> Reach(ls) as real <= LastCap(ls)
  {
    forall takes | Possible(takes) && Lengths(takes) == ls && Reach(ls) as real <= LastCap(ls)
      ensures LengthOf(takes) as real <= LastCap(ls)
    {
      CapHolds(takes);
    }
    if Reach(ls) as real > LastCap(ls) { var takes := CapBreaks(ls); }
  }

  /** Unless the length was lowered at the end, the excess is under a byte; and there is none at all once a
      second chunk has come, or if the first cap is a whole number of bytes. */
  lemma NotLowered(ls: seq<real>)
    requires ls != [] && ClipCap(ls[if |ls| <= 2 then 0 else |ls| - 2]) <= LastCap(ls)
    ensures Reach(ls) as real < LastCap(ls) + 1.0
    ensures |ls| > 2 || Ceiling(ClipCap(ls[0])) as real == ClipCap(ls[0]) ==> Reach(ls) as real <= LastCap(ls)
  {}

  /** Lowered from three seconds to one, a clip of 200000 bytes takes 46000 of the next 150000: 2.6 seconds. */
  lemma LoweredCap()
    ensures var takes := [Take(3.0, 0), Take(3.0, 200000), Take(1.0, 150000)];
      Possible(takes) && LengthOf(takes) == 246000 && ClipCap(1.0) == 96000.0
  {
    var takes := [Take(3.0, 0), Take(3.0, 200000), Take(1.0, 150000)];
    assert takes[..2] == [Take(3.0, 0), Take(3.0, 200000)] && takes[..2][..1] == [Take(3.0, 0)];
    assert LengthOf(takes[..2][..1]) == 0;
    assert LengthOf(takes[..2]) == 200000;
  }

  /** A cap of 96000.96 bytes, never changed, is exceeded by pre-roll alone. */
  lemma FractionalCap()
    ensures var takes := [Take(1.00001, RING_BYTES)];
      Possible(takes) && LengthOf(takes) == 96001 && ClipCap(1.00001) == 96000.96
  {}

  // ---- The seed

  /** How much pre-roll a clip may begin with: no more than its cap, and no more than arrived in this
      silence plus the epsilon. */
  function SeedLimit(maxSeconds: real, gap: nat): (n: nat)
    ensures n == Min(gap + EPSILON_BYTES, Ceiling(ClipCap(maxSeconds)))
  {
    var cap, most := ClipCap(maxSeconds), (gap + EPSILON_BYTES) as real;
    Ceiling(if cap < most then cap else most)
  }

  /** Bytes other than the silence of the given span. */
  function Foreign(s: seq<Pcm>, span: nat): nat {
    if s == [] then 0 else Foreign(s[1..], span) + if s[0] == Pcm(span, None) then 0 else 1
  }

  /** The last n bytes are the silence of the given span. */
  ghost predicate LastSilent(s: seq<Pcm>, n: nat, span: nat) {
    forall i :: 0 <= i < |s| && i >= |s| - n ==> s[i] == Pcm(span, None)
  }

  /** No byte is of a later span. */
  ghost predicate UpTo(s: seq<Pcm>, span: nat) { forall i :: 0 <= i < |s| ==> s[i].span <= span }

  lemma {:induction false} SilentAreNotForeign(s: seq<Pcm>, n: nat, span: nat)
    requires LastSilent(s, n, span)
    ensures Foreign(s, span) <= if |s| < n then 0 else |s| - n
  {
    if s != [] { SilentAreNotForeign(s[1..], n, span); }
  }

  /** What a recording starts with: never more than the epsilon besides the silence before it. */
  lemma SeedIsFresh(ring: seq<Pcm>, gap: nat, span: nat, limit: nat)
    requires LastSilent(ring, gap, span) && UpTo(ring, span) && limit <= gap + EPSILON_BYTES
    ensures var seed := Tail(ring, limit);
      |seed| == Min(|ring|, limit) && Foreign(seed, span) <= EPSILON_BYTES && UpTo(seed, span)
  {
    var seed := Tail(ring, limit);
    assert LastSilent(seed, gap, span);
    SilentAreNotForeign(seed, gap, span);
  }

  /** The budget never exceeds what arrived in this silence. */
  lemma WriteKeepsFresh(ring: seq<Pcm>, gap: nat, span: nat, chunk: seq<Pcm>, owner: Option<LaneId>)
    requires LastSilent(ring, gap, span) && UpTo(ring, span) && forall i :: 0 <= i < |chunk| ==>
      chunk[i] == Pcm(span, owner)
    ensures var now := Tail(ring + chunk, RING_BYTES);
      UpTo(now, span) && LastSilent(now, if owner.None? then Min(RING_BYTES, gap + |chunk|) else 0, span)
  {}

  // ---- The recorder

  /** A clip of the lane on f. It begins with pre-roll from before its span, of which no more than the
      epsilon is anything but the silence right before it; all the rest arrived in its own span, while that
      lane owned the speaker. */
  ghost predicate OwnAudio(f: int, pcm: seq<Pcm>, o: Origin) {
    && 0 < o.span && o.seedLen <= |pcm| && o.seedLen <= RING_BYTES
    && UpTo(pcm[..o.seedLen], o.span - 1) && Foreign(pcm[..o.seedLen], o.span - 1) <= EPSILON_BYTES
    && forall i :: o.seedLen <= i < |pcm| ==> pcm[i] == Pcm(o.span, Some(CloseCall(f)))
  }

  ghost predicate Measured(pcm: seq<Pcm>, o: Origin) { Possible(o.takes) && |pcm| == LengthOf(o.takes) }

  ghost predicate GoodJob(job: Job, o: Origin) {
    |job.pcm| >= MIN_CLIP_BYTES && OwnAudio(job.freqHz, job.pcm, o) && Measured(job.pcm, o)
  }

  /** The same clip after one more chunk was offered to it. */
  function Longer(o: Origin, seconds: real, offered: nat): Origin { o.(takes := o.takes + [Take(seconds, offered)]) }

  function Begun(span: nat, seedLen: nat, seconds: real, offered: nat): Origin {
    Origin(span, seedLen, [Take(seconds, offered)])
  }

  lemma SeedIsOwn(f: int, ring: seq<Pcm>, gap: nat, span: nat, seconds: real)
    requires 0 < span && |ring| <= RING_BYTES && LastSilent(ring, gap, span - 1) && UpTo(ring, span - 1)
    ensures var seed := Tail(ring, SeedLimit(seconds, gap));
      var o := Begun(span, |seed|, seconds, Min(|ring|, gap + EPSILON_BYTES));
      OwnAudio(f, seed, o) && Measured(seed, o) && Records(o.takes)
  {
    hide LastSilent, UpTo;
    var seed := Tail(ring, SeedLimit(seconds, gap));
    SeedIsFresh(ring, gap, span - 1, SeedLimit(seconds, gap));
    assert seed[..|seed|] == seed;
  }

  lemma LongerIsOwn(f: int, pcm: seq<Pcm>, o: Origin, chunk: seq<Pcm>, seconds: real)
    requires OwnAudio(f, pcm, o) && Measured(pcm, o) && Records(o.takes)
    requires forall i :: 0 <= i < |chunk| ==> chunk[i] == Pcm(o.span, Some(CloseCall(f)))
    ensures var full, longer := pcm + Taken(chunk, |pcm|, ClipCap(seconds)), Longer(o, seconds, |chunk|);
      && OwnAudio(f, full, longer) && Measured(full, longer)
      && (|full| as real < ClipCap(seconds) ==> Records(longer.takes))
  {
    var full := pcm + Taken(chunk, |pcm|, ClipCap(seconds));
    assert full[..o.seedLen] == pcm[..o.seedLen];
    var takes := Longer(o, seconds, |chunk|).takes;
    assert takes[..|takes| - 1] == o.takes;
    hide UpTo, Foreign;
  }

  predicate Worth(freqHz: Option<int>, clip: seq<Pcm>) { freqHz.Some? && |clip| >= MIN_CLIP_BYTES }

  function Flushed(jobs: seq<Job>, freqHz: Option<int>, clip: seq<Pcm>): seq<Job> {
    if Worth(freqHz, clip) then jobs + [Job(freqHz.value, clip)] else jobs
  }

  /** A chunk while recording on f. What stays below the cap is appended whole; what reaches a whole-byte cap
      fills the clip to exactly the cap, and the clip is queued; a fractional cap is filled but for its last
      part of a byte, and the clip goes on; over a lowered cap the clip is queued with what it took. */
  predicate Fills(was: seq<Pcm>, chunk: seq<Pcm>, cap: real, f: int, queued: seq<Job>,
      clip: seq<Pcm>, freqHz: Option<int>, jobs: seq<Job>)
  {
    var have, n, room := |was|, |chunk|, cap.Floor - |was|;
    if (have + n) as real < cap then freqHz == Some(f) && clip == was + chunk && jobs == queued
    else if have as real > cap then
      var excess := (have as real - cap).Floor;
      && freqHz == None
      && jobs == queued + [Job(f, was + if 0 < excess <= n then chunk[..n - excess] else [])]
    else if cap == cap.Floor as real then
      0 <= room <= n && freqHz == None && jobs == queued + [Job(f, was + chunk[..room])]
    else 0 <= room <= n && freqHz == Some(f) && clip == was + chunk[..room] && jobs == queued
  }

  lemma FillsBy(was: seq<Pcm>, chunk: seq<Pcm>, maxSeconds: real, f: int, queued: seq<Job>)
    ensures var cap := ClipCap(maxSeconds);
      var full := was + Taken(chunk, |was|, cap);
      && cap == (if maxSeconds > 1.0 then 96000.0 * maxSeconds else 96000.0)
      && (if |full| as real >= cap then Fills(was, chunk, cap, f, queued, [], None, Flushed(queued, Some(f), full))
          else Fills(was, chunk, cap, f, queued, full, Some(f), queued))
  {
    var cap := ClipCap(maxSeconds);
    TakenFront(chunk, |was|, cap);
    CapIsLong(maxSeconds);
    hide Taken, ClipCap;
  }

  lemma CapIsLong(maxSeconds: real)
    ensures ClipCap(maxSeconds) == (if maxSeconds > 1.0 then 96000.0 * maxSeconds else 96000.0) >= 96000.0
  {}

  class CcRecorder {
    const ring: PrerollRing<Pcm>
    var clip: seq<Pcm>
    var freqHz: Option<int>
    var cappedId: Option<LaneId>
    var cappedAtMs: nat
    var currentId: Option<LaneId>
    var unowned: nat
    var jobs: seq<Job>
    ghost var span: nat              // changes of ownership so far
    ghost var origin: Origin         // of the clip being recorded
    ghost var origins: seq<Origin>   // of the clips queued

    ghost predicate RingOk()
      reads `span, `unowned, `currentId, ring, ring.buf
    {
      && ring.Valid() && ring.buf.Length == RING_BYTES
      && LastSilent(ring.Contents(), unowned, span) && UpTo(ring.Contents(), span)
      && (currentId.Some? ==> unowned == 0)
    }

    ghost predicate ClipOk()
      reads `clip, `freqHz, `currentId, `span, `origin
    {
      if freqHz.None? then clip == []
      else
        && currentId == Some(CloseCall(freqHz.value)) && origin.span == span
        && OwnAudio(freqHz.value, clip, origin) && Measured(clip, origin) && Records(origin.takes)
    }

    ghost predicate JobsOk()
      reads `jobs, `origins
    {
      |origins| == |jobs| && forall i :: 0 <= i < |jobs| ==> GoodJob(jobs[i], origins[i])
    }

    ghost predicate Valid()
      reads this, ring, ring.buf
    {
      RingOk() && ClipOk() && JobsOk()
    }

    constructor ()
      ensures Valid() && fresh(ring) && fresh(ring.buf) && jobs == [] && currentId == None && freqHz == None
    {
      ring := new PrerollRing(RING_BYTES);
      clip, freqHz, cappedId, cappedAtMs, currentId, unowned, jobs := [], None, None, 0, None, RING_BYTES, [];
      span, origin, origins := 0, Origin(0, 0, []), [];
    }

    method Flush()
      requires freqHz.Some? ==> OwnAudio(freqHz.value, clip, origin) && Measured(clip, origin)
      requires JobsOk()
      modifies `clip, `freqHz, `jobs, `origins
      ensures ClipOk() && JobsOk() && freqHz == None && clip == []
      ensures jobs == Flushed(old(jobs), old(freqHz), old(clip))
      ensures origins == if Worth(old(freqHz), old(clip)) then old(origins) + [origin] else old(origins)
    {
      hide OwnAudio, Measured;
      var f, pcm := freqHz, clip;
      freqHz, clip := None, [];
      if f.None? || |pcm| < MIN_CLIP_BYTES { return; }
      jobs, origins := jobs + [Job(f.value, pcm)], origins + [origin];
    }

    /** A chunk of the speaker feed, tagged with who owns the speaker now. */
    method OnPcm(chunk: seq<Pcm>, enabled: bool, maxSeconds: real, nowMs: nat)
      requires Valid() && forall i :: 0 <= i < |chunk| ==> chunk[i] == Pcm(span, currentId)
      modifies this, ring, ring.buf
      ensures Valid() && currentId == old(currentId) && span == old(span)
      ensures !enabled ==> freqHz == None && ring.Contents() == [] && unowned == 0 && jobs == old(jobs)
      ensures enabled && old(freqHz).None? ==>
        && freqHz == None && jobs == old(jobs) && ring.Contents() == Tail(old(ring.Contents()) + chunk, RING_BYTES)
        && unowned == if currentId.None? then Min(RING_BYTES, old(unowned) + |chunk|) else 0
      ensures enabled && old(freqHz).Some? ==>
        var cap := ClipCap(maxSeconds);
        var full := old(clip) + Taken(chunk, |old(clip)|, cap);
        && ring.Contents() == old(ring.Contents())
        && origin == Longer(old(origin), maxSeconds, |chunk|)
        && (if |full| as real >= cap then freqHz == None && jobs == Flushed(old(jobs), old(freqHz), full)
          && cappedId == currentId
            else freqHz == old(freqHz) && clip == full && jobs == old(jobs))
      ensures enabled && old(freqHz).Some? ==>
        Fills(old(clip), chunk, if maxSeconds > 1.0 then 96000.0 * maxSeconds else 96000.0,
              old(freqHz.value), old(jobs), clip, freqHz, jobs)
      ensures if enabled && old(freqHz).Some? && freqHz.None? then cappedId == currentId && cappedAtMs == nowMs
        else cappedId == old(cappedId) && cappedAtMs == old(cappedAtMs)
    {
      hide OwnAudio, GoodJob, Flushed, Measured, Records, Longer;
      if !enabled {
        freqHz, clip := None, [];
        ring.Clear();
        unowned := 0;
      } else if freqHz.None? {
        WriteKeepsFresh(ring.Contents(), unowned, span, chunk, currentId);
        ring.Write(chunk);
        unowned := if currentId.None? then Min(RING_BYTES, unowned + |chunk|) else 0;
      } else {
        FillsBy(clip, chunk, maxSeconds, freqHz.value, jobs);
        Record(chunk, maxSeconds, nowMs);
      }
    }

    /** A chunk while recording: the clip takes what there is room for, and is queued at its cap. */
    method Record(chunk: seq<Pcm>, maxSeconds: real, nowMs: nat)
      requires ClipOk() && JobsOk() && freqHz.Some? && forall i :: 0 <= i < |chunk| ==> chunk[i] == Pcm(span, currentId)
      modifies `clip, `freqHz, `jobs, `origins, `origin, `cappedId, `cappedAtMs
      ensures ClipOk() && JobsOk()
      ensures origin == Longer(old(origin), maxSeconds, |chunk|)
      ensures var cap := ClipCap(maxSeconds);
        var full := old(clip) + Taken(chunk, |old(clip)|, cap);
        if |full| as real >= cap then freqHz == None && jobs == Flushed(old(jobs), old(freqHz), full)
          && cappedId == currentId
        else freqHz == old(freqHz) && clip == full && jobs == old(jobs)
      ensures if freqHz.None? then cappedId == currentId && cappedAtMs == nowMs
        else cappedId == old(cappedId) && cappedAtMs == old(cappedAtMs)
    {
      hide OwnAudio, GoodJob, Flushed, Measured, Records;
      var cap := ClipCap(maxSeconds);
      var take := Taken(chunk, |clip|, cap);
      LongerIsOwn(freqHz.value, clip, origin, chunk, maxSeconds);
      clip := clip + take;
      origin := Longer(origin, maxSeconds, |chunk|);
      if |clip| as real >= cap {
        cappedId, cappedAtMs := currentId, nowMs;
        Flush();
      }
    }

    /** A new owner: the clip of the last one is complete, and the ring is no longer free pre-roll. */
    method HandOver(id: Option<LaneId>) returns (gap: nat)
      requires Valid() && id != currentId
      modifies `unowned, `currentId, `span, `clip, `freqHz, `jobs, `origins
      ensures Valid() && currentId == id && freqHz == None && span == old(span) + 1
      ensures gap == old(unowned) && unowned == (if id.Some? then 0 else gap)
      ensures jobs == Flushed(old(jobs), old(freqHz), old(clip))
      ensures LastSilent(ring.Contents(), gap, old(span)) && UpTo(ring.Contents(), old(span))
    {
      hide OwnAudio, GoodJob, Flushed, Measured, Records;
      gap := unowned;
      if id.Some? { unowned := 0; }
      Flush();
      currentId := id;
      span := span + 1;
    }

    /** The engine says who owns the speaker from now on. */
    method OnAudible(id: Option<LaneId>, enabled: bool, maxSeconds: real, recordable: bool, nowMs: nat)
      requires Valid()
      modifies this
      ensures Valid() && currentId == id && ring.Contents() == old(ring.Contents())
      ensures id == old(currentId) ==>
        freqHz == old(freqHz) && clip == old(clip) && jobs == old(jobs) && unowned == old(unowned) && span == old(span)
      ensures id != old(currentId) ==>
        var flap := id == old(cappedId) && nowMs < old(cappedAtMs) + CAP_FLAP_MS;
        && jobs == Flushed(old(jobs), old(freqHz), old(clip)) && span == old(span) + 1
        && unowned == (if id.Some? then 0 else old(unowned))
        && (if enabled && id.Some? && id.value.CloseCall? && recordable && !flap
            then freqHz == Some(id.value.freqHz) && clip == Tail(ring.Contents(), SeedLimit(maxSeconds, old(unowned)))
              && origin == Begun(span, |clip|, maxSeconds, Min(|ring.Contents()|, old(unowned) + EPSILON_BYTES))
            else freqHz == None)
        && cappedId == (if enabled && id.Some? && !flap then None else old(cappedId))
      ensures cappedAtMs == old(cappedAtMs) && (id == old(currentId) ==> cappedId == old(cappedId))
    {
      hide OwnAudio, GoodJob, Flushed, Measured, Records, LastSilent, UpTo;
      if id == currentId { return; }
      var gap := HandOver(id);
      if !enabled || id.None? { return; }
      if id == cappedId && nowMs < cappedAtMs + CAP_FLAP_MS { return; }
      cappedId := None;
      if !id.value.CloseCall? { return; }
      if !recordable { return; }
      Begin(id.value.freqHz, maxSeconds, gap);
    }

    /** A recording starts with the end of the pre-roll. */
    method Begin(f: int, maxSeconds: real, gap: nat)
      requires Valid() && currentId == Some(CloseCall(f)) && freqHz.None? && span > 0
      requires LastSilent(ring.Contents(), gap, span - 1) && UpTo(ring.Contents(), span - 1)
      modifies `freqHz, `clip, `origin
      ensures Valid() && freqHz == Some(f) && clip == Tail(ring.Contents(), SeedLimit(maxSeconds, gap))
      ensures origin == Begun(span, |clip|, maxSeconds, Min(|ring.Contents()|, gap + EPSILON_BYTES))
    {
      hide GoodJob, OwnAudio, Measured, Records;
      var preroll := ring.Read();
      SeedIsOwn(f, preroll, gap, span, maxSeconds);
      freqHz := Some(f);
      clip := Tail(preroll, SeedLimit(maxSeconds, gap));
      origin := Begun(span, |clip|, maxSeconds, Min(|preroll|, gap + EPSILON_BYTES));
    }

    /** The engine moved on without saying who is audible. */
    method Reset()
      requires Valid()
      modifies this, ring
      ensures Valid() && freqHz == None && currentId == None && ring.Contents() == [] && unowned == 0
      ensures jobs == Flushed(old(jobs), old(freqHz), old(clip))
    {
      hide OwnAudio, GoodJob, Flushed, Measured, Records;
      Flush();
      currentId, cappedId, cappedAtMs := None, None, 0;
      span := span + 1;
      ring.Clear();
      unowned := 0;
    }
  }

  /** Every queued clip is long enough and its own lane's audio: pre-roll from before its span, at most a
      quarter second of it anything but the silence right before, then only what its lane was heard on. */
  lemma ClipsAreOwn(r: CcRecorder, k: nat)
    requires r.Valid() && k < |r.jobs|
    ensures |r.origins| == |r.jobs|
    ensures var pcm, o, f := r.jobs[k].pcm, r.origins[k], r.jobs[k].freqHz;
      && |pcm| >= MIN_CLIP_BYTES && 0 < o.span && o.seedLen <= |pcm| && o.seedLen <= RING_BYTES
      && (forall i :: 0 <= i < o.seedLen ==> pcm[i].span < o.span)
      && Foreign(pcm[..o.seedLen], o.span - 1) <= EPSILON_BYTES
      && (forall i :: o.seedLen <= i < |pcm| ==> pcm[i] == Pcm(o.span, Some(CloseCall(f))))
  {
    var pcm, o := r.jobs[k].pcm, r.origins[k];
    assert GoodJob(r.jobs[k], o);
    forall i | 0 <= i < o.seedLen ensures pcm[i].span < o.span { assert pcm[..o.seedLen][i] == pcm[i]; }
  }

  /** No clip can be another lane's audio: of a clip of the lane on f at most a quarter second was heard
      while anyone else owned the speaker. */
  lemma HardlyForeign(r: CcRecorder, k: nat, who: LaneId)
    requires r.Valid() && k < |r.jobs| && who != CloseCall(r.jobs[k].freqHz)
    ensures HeardOn(r.jobs[k].pcm, who) <= EPSILON_BYTES
  {
    ClipsAreOwn(r, k);
    var pcm, o := r.jobs[k].pcm, r.origins[k];
    HeardOnSplit(pcm, o.seedLen, who);
    HeardIsForeign(pcm[..o.seedLen], o.span - 1, who);
    NotHeard(pcm[o.seedLen..], who);
  }

  /** Bytes that arrived while this lane owned the speaker. */
  function HeardOn(s: seq<Pcm>, who: LaneId): nat {
    if s == [] then 0 else HeardOn(s[1..], who) + if s[0].owner == Some(who) then 1 else 0
  }

  lemma {:induction false} HeardOnSplit(s: seq<Pcm>, n: nat, who: LaneId)
    requires n <= |s|
    ensures HeardOn(s, who) == HeardOn(s[..n], who) + HeardOn(s[n..], who)
  {
    if n > 0 {
      HeardOnSplit(s[1..], n - 1, who);
      assert s[..n][1..] == s[1..][..n - 1];
    }
  }

  lemma {:induction false} HeardIsForeign(s: seq<Pcm>, span: nat, who: LaneId)
    ensures HeardOn(s, who) <= Foreign(s, span)
  {
    if s != [] { HeardIsForeign(s[1..], span, who); }
  }

  lemma {:induction false} NotHeard(s: seq<Pcm>, who: LaneId)
    requires forall i :: 0 <= i < |s| ==> s[i].owner != Some(who)
    ensures HeardOn(s, who) == 0
  {
    if s != [] { NotHeard(s[1..], who); }
  }

  /** The length of every queued clip: within the last cap read whenever the configured lengths keep it, and
      less than a byte over when the length was not lowered at the end. */
  lemma ClipsKeepTheCap(r: CcRecorder, k: nat)
    requires r.Valid() && k < |r.jobs|
    ensures |r.origins| == |r.jobs| && Possible(r.origins[k].takes)
    ensures var pcm, takes := r.jobs[k].pcm, r.origins[k].takes;
      var ls := Lengths(takes);
      && |pcm| == LengthOf(takes)
      && (Reach(ls) as real <= LastCap(ls) ==> |pcm| as real <= LastCap(ls))
      && (ClipCap(ls[if |ls| <= 2 then 0 else |ls| - 2]) <= LastCap(ls) ==> |pcm| as real < LastCap(ls) + 1.0)
  {
    assert GoodJob(r.jobs[k], r.origins[k]);
    var takes := r.origins[k].takes;
    CapHolds(takes);
    var ls := Lengths(takes);
    if ClipCap(ls[if |ls| <= 2 then 0 else |ls| - 2]) <= LastCap(ls) { NotLowered(ls); }
  }
}
