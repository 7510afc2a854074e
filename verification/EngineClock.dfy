/** The engine's accounting: the sample clock over pushes, gaps and retunes, the poll cadence in lane
    samples, and the order in which the speaker path is fed, polled and retuned. */
module EngineClock {
  import opened Arithmetic

  const LANE_RATE: nat := 50000
  const LANES_PER_HOP: nat := 64
  const CHUNK: nat := 500

  /** What the speaker path is made to do: take n lane samples, or follow the scanner after a poll, a
      command or a retune. */
  datatype Cue = Fed(n: nat) | Polled | Commanded | Tuned

  /** Lane samples fed since the last poll or retune. */
  function Since(cues: seq<Cue>): nat {
    if cues == [] then 0
    else
      var c, before := cues[|cues| - 1], cues[..|cues| - 1];
      match c
      case Fed(n) => Since(before) + n
      case Commanded => Since(before)
      case _ => 0
  }

  const MIN_SPACING: nat := 448

  ghost predicate Spaced(cues: seq<Cue>) {
    forall k :: 0 <= k < |cues| && cues[k].Polled? ==> Since(cues[..k]) >= MIN_SPACING
  }

  lemma SpacedNext(cues: seq<Cue>, c: Cue)
    requires Spaced(cues) && (c.Polled? ==> Since(cues) >= MIN_SPACING)
    ensures Spaced(cues + [c])
    ensures Since(cues + [c]) == match c case Fed(n) => Since(cues) + n case Commanded => Since(cues) case _ => 0
  {
    var all := cues + [c];
    assert all[..|cues|] == cues;
    forall k | 0 <= k < |all| && all[k].Polled? ensures Since(all[..k]) >= MIN_SPACING {
      if k < |cues| { assert all[..k] == cues[..k] && cues[k].Polled?; }
    }
  }

  /** One hop of 64 lane samples; a poll each time another CHUNK is complete. */
  function HopCues(lane: nat): seq<Cue> {
    [Fed(LANES_PER_HOP)] + if (lane + LANES_PER_HOP) / CHUNK > lane / CHUNK then [Polled] else []
  }

  function Hops(lane: nat, k: nat): seq<Cue> {
    if k == 0 then [] else Hops(lane, k - 1) + HopCues(lane + LANES_PER_HOP * (k - 1))
  }

  /** Silence in runs of at most one hop. */
  function Silent(n: nat): seq<Cue> {
    if n == 0 then [] else if n <= LANES_PER_HOP then [Fed(n)] else [Fed(LANES_PER_HOP)] + Silent(n - LANES_PER_HOP)
  }

  function Total(cues: seq<Cue>): nat {
    if cues == [] then 0 else Total(cues[..|cues| - 1]) + if cues[|cues| - 1].Fed? then cues[|cues| - 1].n else 0
  }

  lemma {:induction false} TotalSplit(a: seq<Cue>, b: seq<Cue>)
    ensures Total(a + b) == Total(a) + Total(b)
  {
    if b == [] {
      assert a + b == a;
    } else {
      assert (a + b)[..|a + b| - 1] == a + b[..|b| - 1];
      TotalSplit(a, b[..|b| - 1]);
    }
  }

  /** A gap's silence is fed whole. */
  lemma {:induction false} SilentTotal(n: nat)
    ensures Total(Silent(n)) == n
  {
    if n > LANES_PER_HOP {
      SilentTotal(n - LANES_PER_HOP);
      TotalSplit([Fed(LANES_PER_HOP)], Silent(n - LANES_PER_HOP));
      assert [Fed(LANES_PER_HOP)][..0] == [];
    } else if n > 0 {
      assert [Fed(n)][..0] == [];
    }
  }

  lemma SilentRun(cues: seq<Cue>, n: nat, k: nat)
    requires 0 < k <= n && k == if n < LANES_PER_HOP then n else LANES_PER_HOP
    ensures cues + Silent(n) == cues + [Fed(k)] + Silent(n - k)
  {
    assert Silent(n) == [Fed(k)] + Silent(n - k);
  }

  /** A hop is shorter than a CHUNK, so it completes at most one. */
  lemma OneChunk(lane: nat)
    ensures var q := lane / CHUNK; (lane + LANES_PER_HOP) / CHUNK == if lane + LANES_PER_HOP >= CHUNK * (q + 1) then
      q + 1 else q
  {
    var q, r := lane / CHUNK, lane % CHUNK;
    var s := r + LANES_PER_HOP;
    if s < CHUNK {
      Quotient(CHUNK, lane + LANES_PER_HOP, q, s);
    } else {
      Quotient(CHUNK, lane + LANES_PER_HOP, q + 1, s - CHUNK);
    }
  }

  /** Whole hops that span all but a hop of a CHUNK are at least seven. */
  lemma WholeHops(d: nat)
    requires d % LANES_PER_HOP == 0 && d > CHUNK - LANES_PER_HOP
    ensures d >= MIN_SPACING
  {}

  class Engine {
    const rate: nat
    const hop: nat
    var pushed: nat
    var samples: nat
    var tuned: bool
    var fill: nat
    var laneSamples: nat
    var nextPoll: nat
    var polls: nat
    var gapAcc: nat
    var cues: seq<Cue>
    ghost var received: nat
    ghost var missed: nat
    ghost var silenced: nat
    ghost var spoken: nat
    ghost var polledAt: nat

    ghost predicate Clocked()
      reads `fill, `tuned, `pushed, `samples, `received, `missed
    {
      && rate > 0 && hop > 0 && fill < hop && (!tuned ==> fill == 0)
      && pushed == samples + fill && pushed == received + missed
    }

    /** Polls come once per CHUNK lane samples; the last one was at `polledAt`. */
    ghost predicate Paced()
      reads `polls, `laneSamples, `nextPoll, `polledAt, `cues
    {
      polls == laneSamples / CHUNK && nextPoll == CHUNK * (polls + 1) && Sounded()
    }

    ghost predicate Sounded()
      reads `laneSamples, `nextPoll, `polledAt, `cues
    {
      && polledAt <= laneSamples && (laneSamples - polledAt) % LANES_PER_HOP == 0
      && polledAt + CHUNK - LANES_PER_HOP < nextPoll && Since(cues) >= laneSamples - polledAt && Spaced(cues)
    }

    /** Silence owed for gaps, to the last fraction of a lane sample. */
    ghost predicate Repaid()
      reads `gapAcc, `spoken, `silenced
    {
      rate > 0 && gapAcc < rate && rate * spoken + gapAcc == silenced * LANE_RATE
    }

    ghost predicate Valid()
      reads this
    {
      Clocked() && Paced() && Repaid()
    }

    constructor (perLane: nat)
      requires perLane > 0
      ensures Valid() && pushed == 0 && !tuned && cues == [] && rate == perLane * LANE_RATE
        && hop == perLane * LANES_PER_HOP
    {
      rate, hop := perLane * LANE_RATE, perLane * LANES_PER_HOP;
      pushed, samples, tuned, fill, laneSamples, nextPoll, polls, gapAcc, cues := 0, 0, false, 0, 0, CHUNK, 0, 0, [];
      received, missed, silenced, spoken, polledAt := 0, 0, 0, 0, 0;
    }

    /** The silence so far is the time missed, in whole lane samples. */
    lemma SilenceIsFloor()
      requires Valid()
      ensures spoken == silenced * LANE_RATE / rate
    {
      Quotient(rate, silenced * LANE_RATE, spoken, gapAcc);
    }

    /** The clock lags the input by the hop that is still filling, and never goes back. */
    method Tune()
      requires Valid()
      modifies this
      ensures Valid() && tuned && samples == pushed == old(pushed) && samples >= old(samples) && laneSamples == 0
        && polls == 0
      ensures cues == old(cues) + [Cue.Tuned] && received == old(received) && missed == old(missed)
        && spoken == old(spoken)
    {
      SpacedNext(cues, Cue.Tuned);
      samples := pushed;
      cues := cues + [Cue.Tuned];
      fill := 0;
      laneSamples, nextPoll, polls, polledAt := 0, CHUNK, 0, 0;
      tuned := true;
    }

    /** A skip or an alert: the speaker follows at once. */
    method Command()
      requires Valid()
      modifies this
      ensures Valid() && cues == old(cues) + [Commanded] && samples == old(samples) && pushed == old(pushed)
        && tuned == old(tuned)
      ensures laneSamples == old(laneSamples) && spoken == old(spoken)
    {
      SpacedNext(cues, Commanded);
      cues := cues + [Commanded];
    }

    /** A CHUNK is complete: the speaker follows the scanner. */
    method Poll()
      requires Sounded() && laneSamples >= nextPoll && laneSamples < nextPoll + LANES_PER_HOP
      modifies `polls, `cues, `nextPoll, `polledAt
      ensures Sounded() && polls == old(polls) + 1 && nextPoll == old(nextPoll) + CHUNK && cues == old(cues) + [Polled]
    {
      WholeHops(laneSamples - polledAt);
      SpacedNext(cues, Polled);
      hide Spaced, Since;
      polls := polls + 1;
      cues := cues + [Polled];
      nextPoll := nextPoll + CHUNK;
      polledAt := laneSamples;
    }

    method FeedHop()
      requires Sounded()
      modifies `cues, `laneSamples
      ensures Sounded() && laneSamples == old(laneSamples) + LANES_PER_HOP && cues == old(cues) + [Fed(LANES_PER_HOP)]
    {
      SpacedNext(cues, Fed(LANES_PER_HOP));
      hide Spaced, Since;
      cues := cues + [Fed(LANES_PER_HOP)];
      laneSamples := laneSamples + LANES_PER_HOP;
    }

    method OnHop()
      requires Paced()
      modifies `samples, `cues, `laneSamples, `nextPoll, `polls, `polledAt
      ensures Paced() && samples == old(samples) + hop && laneSamples == old(laneSamples) + LANES_PER_HOP
      ensures cues == old(cues) + HopCues(old(laneSamples))
    {
      OneChunk(laneSamples);
      hide Spaced, Since;
      samples := samples + hop;
      FeedHop();
      ghost var fed, n := cues, polls;
      while laneSamples >= nextPoll
        invariant samples == old(samples) + hop && laneSamples == old(laneSamples) + LANES_PER_HOP
        invariant nextPoll == CHUNK * (polls + 1) && Sounded() && polls <= laneSamples / CHUNK
        invariant n <= polls <= n + 1 && cues == fed + if polls == n then [] else [Polled]
      {
        Poll();
      }
      assert cues == old(cues) + HopCues(old(laneSamples));
    }

    /** One more sample of the hop that is filling. */
    method TakeSample(ghost lane: nat, ghost hops: nat) returns (ghost done: nat)
      requires Paced() && fill < hop && laneSamples == lane + LANES_PER_HOP * hops
      modifies `fill, `samples, `cues, `laneSamples, `nextPoll, `polls, `polledAt
      ensures Paced() && fill < hop && samples + fill == old(samples) + old(fill) + 1 && samples >= old(samples)
      ensures (done == hops && fill == old(fill) + 1 && cues == old(cues))
        || (done == hops + 1 && fill == 0 && old(fill) + 1 == hop
          && cues == old(cues) + HopCues(lane + LANES_PER_HOP * hops))
      ensures laneSamples == lane + LANES_PER_HOP * done
    {
      hide Paced, HopCues;
      fill := fill + 1;
      done := hops;
      if fill == hop {
        OnHop();
        fill := 0;
        done := hops + 1;
      }
    }

    /** n samples of input: as many hops as they complete. */
    method PushU8(n: nat)
      requires Valid()
      modifies this
      ensures Valid() && pushed == old(pushed) + n && received == old(received) + n && missed == old(missed)
      ensures tuned == old(tuned) && samples >= old(samples) && spoken == old(spoken)
      ensures fill == if tuned then (old(fill) + n) % hop else 0
      ensures cues == old(cues) + if tuned then Hops(old(laneSamples), (old(fill) + n) / hop) else []
    {
      hide Paced, Repaid, HopCues;
      pushed, received := pushed + n, received + n;
      if !tuned {
        samples := samples + n;
        return;
      }
      ghost var hops := 0;
      for i := 0 to n
        invariant tuned && pushed == old(pushed) + n && received == old(received) + n && missed == old(missed)
          && Repaid() && spoken == old(spoken)
        invariant Paced() && fill < hop && samples + fill == old(pushed) + i && samples >= old(samples)
        invariant hop * hops + fill == old(fill) + i && laneSamples == old(laneSamples) + LANES_PER_HOP * hops
        invariant cues == old(cues) + Hops(old(laneSamples), hops)
      {
        ghost var done := TakeSample(old(laneSamples), hops);
        assert done == hops + 1 ==> hop * done == hop * hops + hop;
        hops := done;
      }
      Quotient(hop, old(fill) + n, hops, fill);
    }

    method FeedRun(k: nat)
      requires Paced()
      modifies `cues
      ensures Paced() && cues == old(cues) + [Fed(k)]
    {
      SpacedNext(cues, Fed(k));
      hide Spaced, Since;
      cues := cues + [Fed(k)];
    }

    /** Feeds laneN samples of silence. */
    method FeedSilence(laneN: nat)
      requires Paced()
      modifies `cues
      ensures Paced() && cues == old(cues) + Silent(laneN)
    {
      hide Paced;
      var left := laneN;
      while left > 0
        invariant left >= 0 && Paced() && cues + Silent(left) == old(cues) + Silent(laneN)
      {
        var k := if left < LANES_PER_HOP then left else LANES_PER_HOP;
        SilentRun(cues, left, k);
        FeedRun(k);
        left := left - k;
      }
    }

    /** Runs the speaker on silence for the wall time of n input samples. */
    method SpeakSilence(n: nat)
      requires Repaid() && Paced()
      modifies `gapAcc, `cues, `silenced, `spoken
      ensures Repaid() && Paced() && silenced == old(silenced) + n && spoken >= old(spoken)
      ensures cues == old(cues) + Silent(spoken - old(spoken))
    {
      hide Paced;
      gapAcc := gapAcc + n * LANE_RATE;
      var laneN := gapAcc / rate;
      assert gapAcc == rate * laneN + gapAcc % rate;
      gapAcc := gapAcc % rate;
      silenced, spoken := silenced + n, spoken + laneN;
      assert rate * spoken == rate * (spoken - laneN) + rate * laneN;
      FeedSilence(laneN);
    }

    /** Input the DSP never saw. */
    method NoteGap(n: int)
      requires Valid()
      modifies this
      ensures Valid() && tuned == old(tuned) && samples >= old(samples) && laneSamples == old(laneSamples)
      ensures pushed == old(pushed) + (if n > 0 then n else 0) && missed == old(missed) + (if n > 0 then n else 0)
        && received == old(received)
      ensures n > 0 ==> samples == pushed
      ensures silenced == old(silenced) + (if n > 0 && tuned then n else 0) && spoken >= old(spoken)
      ensures cues == old(cues) + Silent(spoken - old(spoken))
    {
      hide Paced, Repaid;
      if n <= 0 { return; }
      pushed, missed := pushed + n, missed + n;
      if tuned { SpeakSilence(n); }
      samples := pushed;
      if tuned { fill := 0; }
    }
  }
}
