/** The speaker path: a gain that fades in and out over FADE outputs, and a source (lane and demodulator)
    that is switched only between fades. Gains are exact reals; filters, AGC and limiter are not modelled. */
module Speaker {
  import opened SquelchSpec

  const FADE: nat := 288
  const STEP: real := 1.0 / 288.0

  datatype Source = Source(lane: int, demod: Demod)

  const NO_SOURCE := Source(-1, Fm)

  datatype Fade = Fade(gain: real, target: real, step: real, left: nat)

  datatype Path = Path(fade: Fade, wantTarget: real, switching: bool, cur: Source, want: Source)

  // ---- One operation

  /** Fades on a silence edge, jumps otherwise. */
  function Aim(f: Fade, t: real): Fade {
    if t == f.target then f
    else if (f.gain == 0.0 && t > 0.0) || t == 0.0 then Fade(f.gain, t, (t - f.gain) / 288.0, FADE)
    else Fade(t, t, f.step, 0)
  }

  function Gated(p: Path, t: real): Path {
    p.(wantTarget := t, fade := if p.switching then p.fade else Aim(p.fade, t))
  }

  function Switched(p: Path): Path {
    p.(cur := p.want, switching := false, fade := Aim(Fade(0.0, 0.0, p.fade.step, 0), p.wantTarget))
  }

  function Sourced(p: Path, s: Source): Path {
    if s == p.want then p
    else
      var q := p.(want := s);
      if p.fade.gain > 0.0 || p.fade.left > 0 then q.(switching := true, fade := Aim(p.fade, 0.0)) else Switched(q)
  }

  function Cleared(p: Path): Path { Switched(p.(want := NO_SOURCE, wantTarget := 0.0)) }

  /** The gain of one output sample. */
  function Tick(f: Fade): Fade {
    if f.left == 0 then f
    else f.(gain := if f.left == 1 then f.target else f.gain + f.step, left := f.left - 1)
  }

  function Ticks(f: Fade, m: nat): Fade { if m == 0 then f else Tick(Ticks(f, m - 1)) }

  /** The gains of the next m outputs. */
  function Gains(f: Fade, m: nat): (g: seq<real>)
    ensures |g| == m
  {
    if m == 0 then [] else Gains(f, m - 1) + [Ticks(f, m).gain]
  }

  function Processed(p: Path, m: nat): Path {
    var q := p.(fade := Ticks(p.fade, m));
    if q.switching && q.fade.left == 0 && q.fade.gain == 0.0 then Switched(q) else q
  }

  function Synced(p: Path, s: Source, gate: real): Path { Gated(Sourced(p, s), gate) }

  // ---- What keeps a fade smooth

  predicate OnOff(t: real) { t == 0.0 || t == 1.0 }

  /** A ramp ends at its target after `left` more steps, and no step is larger than STEP. */
  predicate FadeOk(f: Fade) {
    && 0.0 <= f.gain <= 1.0 && OnOff(f.target) && f.left <= FADE
    && (f.left == 0 ==> f.gain == f.target)
    && (f.left > 0 ==> f.gain + f.left as real * f.step == f.target && if f.target == 1.0 then 0.0 <= f.step <= STEP
      else -STEP <= f.step <= 0.0)
  }

  predicate Near(a: real, b: real) { -STEP <= a - b <= STEP }

  lemma SignOf(k: real, x: real)
    requires k >= 0.0
    ensures (x >= 0.0 ==> k * x >= 0.0) && (x <= 0.0 ==> k * x <= 0.0)
  {}

  lemma TickOk(f: Fade)
    requires FadeOk(f)
    ensures FadeOk(Tick(f)) && Near(Tick(f).gain, f.gain) && Tick(f).left == (if f.left > 0 then f.left - 1 else 0)
      && Tick(f).target == f.target
  {
    if f.left > 1 {
      var k := f.left - 1;
      assert f.left as real * f.step == k as real * f.step + f.step;
      SignOf(k as real, f.step);
    } else if f.left == 1 {
      assert f.left as real * f.step == f.step;
    }
  }

  /** Aiming moves the gain at once exactly when an unfinished fade-out is told to turn back. */
  lemma AimOk(f: Fade, t: real)
    requires FadeOk(f) && OnOff(t)
    ensures Aim(f, t).target == t
    ensures Aim(f, t).gain != f.gain <==> f.target == 0.0 && t == 1.0 && 0.0 < f.gain < 1.0
    ensures FadeOk(Aim(f, t))
  {
    var s := (t - f.gain) / 288.0;
    assert 288.0 * s == t - f.gain && FADE as real == 288.0;
  }

  /** The same for the path: its gain jumps exactly when the gate reopens on the source that is fading out. */
  lemma JumpIff(p: Path, t: real)
    requires FadeOk(p.fade) && OnOff(t)
    ensures Gated(p, t).fade.gain != p.fade.gain <==>
      !p.switching && p.fade.target == 0.0 && t == 1.0
      && 0.0 < p.fade.gain < 1.0
  {
    AimOk(p.fade, t);
  }

  lemma {:induction false} TicksOk(f: Fade, m: nat)
    requires FadeOk(f)
    ensures FadeOk(Ticks(f, m)) && Ticks(f, m).target == f.target && Ticks(f, m).left == if f.left > m then f.left - m
      else 0
  {
    if m > 0 {
      TicksOk(f, m - 1);
      TickOk(Ticks(f, m - 1));
    }
  }

  predicate Smooth(g: seq<real>) { forall k :: 0 < k < |g| ==> Near(g[k], g[k - 1]) }

  predicate EndsAt(g: seq<real>, gain: real) { g != [] ==> g[|g| - 1] == gain }

  /** A gain trace goes on smoothly through any number of outputs. */
  lemma {:induction false} GainsSmooth(g: seq<real>, f: Fade, m: nat)
    requires FadeOk(f) && Smooth(g) && EndsAt(g, f.gain)
    ensures Smooth(g + Gains(f, m)) && EndsAt(g + Gains(f, m), Ticks(f, m).gain)
  {
    if m == 0 {
      assert g + Gains(f, 0) == g;
    } else {
      GainsSmooth(g, f, m - 1);
      TicksOk(f, m - 1);
      TickOk(Ticks(f, m - 1));
      var h := g + Gains(f, m - 1);
      assert g + Gains(f, m) == h + [Ticks(f, m).gain];
    }
  }

  /** `since` outputs after the last poll: a fade-out that no source switch caused began at that poll. */
  predicate PathOk(p: Path, since: nat) {
    && FadeOk(p.fade) && OnOff(p.wantTarget)
    && (p.switching ==> p.fade.target == 0.0 && p.fade.left > 0)
    && (!p.switching ==> p.fade.target == p.wantTarget && p.cur == p.want)
    && (!p.switching && p.fade.target == 0.0 && p.fade.left > 0 ==> p.fade.left + since <= FADE)
  }

  lemma SwitchOk(p: Path, since: nat)
    requires FadeOk(p.fade) && OnOff(p.wantTarget) && p.fade.gain == 0.0
    ensures PathOk(Switched(p), since) && Switched(p).fade.gain == 0.0 && Switched(p).cur == p.want
    ensures Switched(p).want == p.want && Switched(p).wantTarget == p.wantTarget
  {
    AimOk(Fade(0.0, 0.0, p.fade.step, 0), p.wantTarget);
  }

  lemma SetSourceOk(p: Path, s: Source, since: nat)
    requires PathOk(p, since)
    ensures var q := Sourced(p, s);
      && PathOk(q, since) && q.want == s && q.fade.gain == p.fade.gain && q.wantTarget == p.wantTarget
      && (q.cur != p.cur ==> q.fade.gain == 0.0) && (s != p.want ==> q.switching || q.fade.gain == 0.0)
  {
    var q := p.(want := s);
    if s != p.want {
      if p.fade.gain > 0.0 || p.fade.left > 0 { AimOk(p.fade, 0.0); } else { SwitchOk(q, since); }
    }
  }

  /** A poll that comes at least FADE outputs after the last one never moves the gain at once. */
  lemma PollOk(p: Path, s: Source, gate: real, since: nat)
    requires PathOk(p, since) && OnOff(gate) && since >= FADE
    ensures var q := Synced(p, s, gate);
      PathOk(q, 0) && q.fade.gain == p.fade.gain && q.want == s && q.wantTarget == gate
        && (q.cur != p.cur ==> q.fade.gain == 0.0)
  {
    SetSourceOk(p, s, since);
    var q := Sourced(p, s);
    AimOk(q.fade, gate);
  }

  /** Nor does a command, at any time, if it changes the gate only along with the source. */
  lemma CommandOk(p: Path, s: Source, gate: real, since: nat)
    requires PathOk(p, since) && OnOff(gate) && (s == p.want ==> gate == p.wantTarget)
    ensures var q := Synced(p, s, gate);
      PathOk(q, since) && q.fade.gain == p.fade.gain && q.want == s && q.wantTarget == gate
        && (q.cur != p.cur ==> q.fade.gain == 0.0)
  {
    SetSourceOk(p, s, since);
    var q := Sourced(p, s);
    if !q.switching && s != p.want { AimOk(q.fade, gate); }
  }

  lemma ProcessOk(p: Path, m: nat, since: nat)
    requires PathOk(p, since)
    ensures var q := Processed(p, m);
      && PathOk(q, since + m) && q.fade.gain == Ticks(p.fade, m).gain
      && q.want == p.want && q.wantTarget == p.wantTarget && (q.cur != p.cur ==> q.fade.gain == 0.0)
  {
    TicksOk(p.fade, m);
    var q := p.(fade := Ticks(p.fade, m));
    if q.switching && q.fade.left == 0 { SwitchOk(q, since + m); }
  }

  // ---- Where it ends up

  /** Blocks of outputs, one after the other. */
  function Played(p: Path, ms: seq<nat>): Path
    decreases |ms|
  {
    if ms == [] then p else Played(Processed(p, ms[0]), ms[1..])
  }

  function Outputs(ms: seq<nat>): nat { if ms == [] then 0 else ms[0] + Outputs(ms[1..]) }

  /** On the way to a source and a gate. */
  predicate Heading(p: Path, s: Source, gate: real) {
    && FadeOk(p.fade) && OnOff(gate) && p.want == s && p.wantTarget == gate
    && (p.switching ==> p.fade.target == 0.0 && p.fade.left > 0)
    && (!p.switching ==> p.fade.target == gate && p.cur == s)
  }

  lemma HeadingOn(p: Path, s: Source, gate: real, m: nat)
    requires Heading(p, s, gate)
    ensures var q := Processed(p, m);
      && Heading(q, s, gate) && (q.switching ==> p.switching && q.fade.left == p.fade.left - m)
      && (!p.switching ==> q.fade.left == if p.fade.left > m then p.fade.left - m else 0)
  {
    TicksOk(p.fade, m);
    var q := p.(fade := Ticks(p.fade, m));
    if q.switching && q.fade.left == 0 { SwitchOk(q, 0); }
  }

  lemma {:induction false} Arrives(p: Path, s: Source, gate: real, ms: seq<nat>)
    requires Heading(p, s, gate)
    ensures Heading(Played(p, ms), s, gate)
    ensures Outputs(ms) >= FADE ==> !Played(p, ms).switching
    ensures p.switching && Outputs(ms) >= p.fade.left ==> !Played(p, ms).switching
    ensures !p.switching ==>
      && !Played(p, ms).switching
      && Played(p, ms).fade.left == if p.fade.left > Outputs(ms) then p.fade.left - Outputs(ms) else 0
    decreases |ms|
  {
    hide Heading, Processed;
    if ms != [] {
      HeadingOn(p, s, gate, ms[0]);
      Arrives(Processed(p, ms[0]), s, gate, ms[1..]);
    }
    HeadingLeft(p, s, gate);
  }

  lemma HeadingLeft(p: Path, s: Source, gate: real)
    requires Heading(p, s, gate)
    ensures p.fade.left <= FADE && (p.switching ==> p.fade.left > 0)
    ensures p.fade.left == 0 && !p.switching ==> p.cur == s && p.fade.gain == gate
  {}

  lemma {:induction false} PlayedOn(p: Path, a: seq<nat>, b: seq<nat>)
    ensures Played(p, a + b) == Played(Played(p, a), b)
    decreases |a|
  {
    if a == [] {
      assert a + b == b;
    } else {
      assert (a + b)[1..] == a[1..] + b && (a + b)[0] == a[0];
      PlayedOn(Processed(p, a[0]), a[1..], b);
    }
  }

  /** Two fades' worth of outputs after a poll, or after a command that moves the gate only with the source,
      the path plays the source it was told to play, at the gate it was told. */
  lemma SpeakerFollows(p: Path, s: Source, gate: real, since: nat, a: seq<nat>, b: seq<nat>)
    requires PathOk(p, since) && OnOff(gate) && (since >= FADE || (s == p.want ==> gate == p.wantTarget))
    requires Outputs(a) >= FADE && Outputs(b) >= FADE
    ensures var q := Played(Synced(p, s, gate), a + b); q.cur == s && q.fade.gain == gate && !q.switching
  {
    hide Played, Synced, PathOk, Outputs;
    if since >= FADE { PollOk(p, s, gate, since); } else { CommandOk(p, s, gate, since); }
    var q := Synced(p, s, gate);
    PathHeads(q, if since >= FADE then 0 else since);
    Arrives(q, s, gate, a);
    Arrives(Played(q, a), s, gate, b);
    HeadingLeft(Played(q, a), s, gate);
    HeadingLeft(Played(Played(q, a), b), s, gate);
    PlayedOn(q, a, b);
  }

  lemma PathHeads(p: Path, since: nat)
    requires PathOk(p, since)
    ensures Heading(p, p.want, p.wantTarget)
  {}

  // ---- The scanner behind it

  function FeedOf(s: State): Source
    requires s.Sane()
  {
    if s.audible >= 0 then Source(s.audible, s.lanes[s.audible].cfg.demod) else NO_SOURCE
  }

  /** Skipping never moves the gate without moving the audible lane. */
  lemma SkipMovesBoth(s: State, holdoffS: real, now: real)
    requires s.Sane()
    ensures var t := Skip(s, holdoffS, now); t.Sane() && (FeedOf(t) == FeedOf(s) ==> t.gate == s.gate)
  {}

  lemma AlertMovesBoth(s: State, id: LaneId, holdS: real, now: real)
    requires s.Sane()
    ensures var t := AlertUnmute(s, id, holdS, now); t.Sane() && (FeedOf(t) == FeedOf(s) ==> t.gate == s.gate)
  {}

  // ---- The path itself

  /** The last sample before a cut, decaying: its share of the i-th output. */
  function Held(hold: real, left: nat, i: nat): real {
    if i < left then hold * (left - 1 - i) as real / 288.0 else 0.0
  }

  /** After a cut the held sample runs down to exactly nothing in FADE equal steps. */
  lemma HeldRunsDown(hold: real, i: nat)
    ensures i + 1 < FADE ==> Held(hold, FADE, i) - Held(hold, FADE, i + 1) == hold / 288.0
    ensures hold - Held(hold, FADE, 0) == hold / 288.0
    ensures i + 1 >= FADE ==> Held(hold, FADE, i) == 0.0
  {
    if i + 1 < FADE {
      var k := (FADE - 2 - i) as real;
      assert hold * (k + 1.0) == hold * k + hold;
    } else if i + 1 == FADE {
      assert hold * (FADE - 1 - i) as real == 0.0;
    }
  }

  class SpeakerPath {
    var gain: real
    var target: real
    var wantTarget: real
    var rampStep: real
    var rampLeft: nat
    var switching: bool
    var curLane: int
    var cur: Demod
    var wantLane: int
    var want: Demod
    var lastOut: real
    var hold: real
    var holdLeft: nat

    ghost function Now(): Path
      reads this
    {
      Path(Fade(gain, target, rampStep, rampLeft), wantTarget, switching, Source(curLane, cur), Source(wantLane, want))
    }

    constructor ()
      ensures Now() == Path(Fade(0.0, 0.0, 0.0, 0), 0.0, false, NO_SOURCE, NO_SOURCE)
    {
      gain, target, wantTarget, rampStep, rampLeft := 0.0, 0.0, 0.0, 0.0, 0;
      switching, curLane, cur, wantLane, want := false, -1, Fm, -1, Fm;
      lastOut, hold, holdLeft := 0.0, 0.0, 0;
    }

    method ApplyTarget(t: real)
      modifies `gain, `target, `rampStep, `rampLeft
      ensures Now() == old(Now()).(fade := Aim(old(Now()).fade, t))
    {
      if t == target { return; }
      var edge := (gain == 0.0 && t > 0.0) || t == 0.0;
      if edge {
        rampStep := (t - gain) / 288.0;
        rampLeft := FADE;
      } else {
        gain := t;
        rampLeft := 0;
      }
      target := t;
    }

    method SetGain(t: real)
      modifies `gain, `target, `rampStep, `rampLeft, `wantTarget
      ensures Now() == Gated(old(Now()), t)
    {
      wantTarget := t;
      if !switching { ApplyTarget(t); }
    }

    method SwitchNow()
      modifies this
      ensures Now() == Switched(old(Now())) && lastOut == old(lastOut) && hold == old(hold) && holdLeft == old(holdLeft)
    {
      curLane, cur := wantLane, want;
      switching := false;
      gain, target := 0.0, 0.0;
      rampLeft := 0;
      ApplyTarget(wantTarget);
    }

    method SetSource(lane: int, d: Demod)
      modifies this
      ensures Now() == Sourced(old(Now()), Source(lane, d))
    {
      if lane == wantLane && d == want { return; }
      wantLane, want := lane, d;
      if gain > 0.0 || rampLeft > 0 {
        switching := true;
        ApplyTarget(0.0);
      } else {
        SwitchNow();
      }
    }

    method Reset()
      modifies this
      ensures Now() == Cleared(old(Now())) && holdLeft == 0 && lastOut == 0.0
    {
      wantLane, want, wantTarget := -1, Fm, 0.0;
      SwitchNow();
      holdLeft, lastOut := 0, 0.0;
    }

    /** A retune: everything is reset, but the last sample is held and run down. */
    method Cut()
      modifies this
      ensures Now() == Cleared(old(Now())) && hold == old(lastOut) && holdLeft == if old(lastOut) != 0.0 then FADE
        else 0
    {
      var held := lastOut;
      Reset();
      hold := held;
      holdLeft := if held != 0.0 then FADE else 0;
    }

    /** One output sample: the ramp, then the held sample of a cut. */
    method Emit(a: real) returns (v: real)
      modifies `gain, `rampLeft, `holdLeft
      ensures Now() == old(Now()).(fade := Tick(old(Now()).fade))
      ensures holdLeft == (if old(holdLeft) > 0 then old(holdLeft) - 1 else 0)
        && v == a * gain + Held(hold, old(holdLeft), 0)
    {
      if rampLeft > 0 {
        gain := gain + rampStep;
        rampLeft := rampLeft - 1;
        if rampLeft == 0 { gain := target; }
      }
      v := a * gain;
      if holdLeft > 0 {
        holdLeft := holdLeft - 1;
        v := v + hold * holdLeft as real / 288.0;
      }
    }

    /** Gates a run of resampled audio; `heard` is what the limiter and the rail make of the result. */
    method Process(audio: seq<real>, heard: seq<real>) returns (out: seq<real>)
      requires |heard| == |audio|
      modifies this
      ensures Now() == Processed(old(Now()), |audio|) && |out| == |audio|
      ensures forall i :: 0 <= i < |out| ==>
        out[i] == audio[i] * Ticks(old(Now()).fade, i + 1).gain
        + Held(old(hold), old(holdLeft), i)
      ensures lastOut == if heard == [] then old(lastOut) else heard[|heard| - 1]
    {
      hide Tick;
      ghost var before, h, l := Now(), hold, holdLeft;
      out := [];
      for i := 0 to |audio|
        invariant Now() == before.(fade := Ticks(before.fade, i)) && |out| == i
        invariant hold == h && holdLeft == (if i < l then l - i else 0)
        invariant forall k :: 0 <= k < i ==> out[k] == audio[k] * Ticks(before.fade, k + 1).gain + Held(h, l, k)
        invariant lastOut == if i == 0 then old(lastOut) else heard[i - 1]
      {
        var v := Emit(audio[i]);
        assert Held(h, if i < l then l - i else 0, 0) == Held(h, l, i);
        out := out + [v];
        lastOut := heard[i];
      }
      if switching && rampLeft == 0 && gain == 0.0 { SwitchNow(); }
    }
  }
}
