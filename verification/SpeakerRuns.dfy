/** The speaker path under the engine: for every input, gap, command and retune, no fade is cut short,
    because polls are spaced by the hop arithmetic and commands never reopen a gate on the same lane. */
module SpeakerRuns {
  import opened SquelchSpec
  import opened Speaker
  import opened EngineClock

  /** Outputs of the 24/25 resampler for n inputs since its reset. */
  function Outs(n: nat): nat { (n * 24 + 24) / 25 }

  /** More than a fade's worth of output between two polls. */
  lemma OutsSpaced(n: nat, d: nat)
    requires d >= MIN_SPACING
    ensures Outs(n + d) - Outs(n) >= 430 >= FADE
  {}

  lemma OutsGrow(n: nat, d: nat)
    ensures Outs(n) <= Outs(n + d)
  {}

  /** `gains` are the output gains since the last retune; `fed` and `synced` count the resampler's inputs. */
  datatype Playing = Playing(path: Path, fed: nat, synced: nat, gains: seq<real>)

  function Gate(s: State): real { if s.gate then 1.0 else 0.0 }

  function Follow(p: Path, s: State): Path
    requires s.Sane()
  {
    Synced(p, FeedOf(s), Gate(s))
  }

  /** One cue, with the scanner as it then is. */
  function Play(p: Playing, c: Cue, s: State): Playing
    requires s.Sane()
  {
    match c
    case Fed(n) =>
      var m := if Outs(p.fed) <= Outs(p.fed + n) then Outs(p.fed + n) - Outs(p.fed) else 0;
      p.(path := Processed(p.path, m), fed := p.fed + n, gains := p.gains + Gains(p.path.fade, m))
    case Polled => p.(path := Follow(p.path, s), synced := p.fed)
    case Commanded => p.(path := Follow(p.path, s))
    case Tuned => Playing(Follow(Cleared(p.path), s), 0, 0, [])
  }

  const SILENT := Playing(Path(Fade(0.0, 0.0, 0.0, 0), 0.0, false, NO_SOURCE, NO_SOURCE), 0, 0, [])

  datatype Press = PressSkip(holdoffS: real, now: real) | PressAlert(id: LaneId, holdS: real, now: real)

  function Pressed(s: State, c: Press): State
    requires s.Sane()
  {
    match c
    case PressSkip(h, now) => Skip(s, h, now)
    case PressAlert(id, h, now) => AlertUnmute(s, id, h, now)
  }

  /** The scanner changes what is audible, and its gate, at polls, commands and retunes only; a Close
      Call assignment in between takes a parked slot, so the speaker is fed the same. */
  ghost predicate Scanned(cues: seq<Cue>, ss: seq<State>) {
    && |ss| == |cues| + 1 && (forall k :: 0 <= k < |ss| ==> ss[k].Sane()) && ss[0].audible < 0 && !ss[0].gate
    && forall k :: 0 <= k < |cues| ==> Led(cues[k], ss[k], ss[k + 1])
  }

  ghost predicate Led(c: Cue, s: State, t: State)
    requires s.Sane() && t.Sane()
  {
    match c
    case Fed(_) => FeedOf(t) == FeedOf(s) && t.gate == s.gate
    case Commanded => exists press :: t == Pressed(s, press)
    case _ => true
  }

  /** Assigning a Close Call hit to a parked slot is such a change. */
  lemma AssignLeads(s: State, hz: int)
    requires s.Sane() && (s.audible >= 0 ==> !s.lanes[s.audible].IsParked())
    ensures FeedOf(AssignCc(s, hz)) == FeedOf(s) && AssignCc(s, hz).gate == s.gate
  {}

  function Run(cues: seq<Cue>, ss: seq<State>): Playing
    requires |ss| == |cues| + 1 && forall k :: 0 <= k < |ss| ==> ss[k].Sane()
  {
    if cues == [] then SILENT
    else
      var k := |cues| - 1;
      Play(Run(cues[..k], ss[..k + 1]), cues[k], ss[k + 1])
  }

  /** Everything that holds between cues. */
  ghost predicate Inv(p: Playing, s: State, since: nat)
    requires s.Sane()
  {
    && p.synced <= p.fed && p.fed - p.synced == since && Outs(p.synced) <= Outs(p.fed)
    && PathOk(p.path, Outs(p.fed) - Outs(p.synced))
    && p.path.want == FeedOf(s) && p.path.wantTarget == Gate(s)
    && Smooth(p.gains) && EndsAt(p.gains, p.path.fade.gain)
  }

  /** The fed lane changes only while the gain is 0. */
  predicate ChangesSilently(p: Playing, q: Playing) { q.path.cur != p.path.cur ==> q.path.fade.gain == 0.0 }

  lemma FedKeeps(p: Playing, n: nat, s: State, t: State, since: nat)
    requires s.Sane() && t.Sane() && Inv(p, s, since) && Led(Fed(n), s, t)
    ensures Inv(Play(p, Fed(n), t), t, since + n) && ChangesSilently(p, Play(p, Fed(n), t))
  {
    hide PathOk, Processed, Smooth, EndsAt, Outs;
    OutsGrow(p.fed, n);
    var m := Outs(p.fed + n) - Outs(p.fed);
    ProcessOk(p.path, m, Outs(p.fed) - Outs(p.synced));
    FadeOfPath(p.path, Outs(p.fed) - Outs(p.synced));
    GainsSmooth(p.gains, p.path.fade, m);
  }

  lemma FadeOfPath(p: Path, since: nat)
    requires PathOk(p, since)
    ensures FadeOk(p.fade)
  {}

  lemma PolledKeeps(p: Playing, s: State, t: State, since: nat)
    requires s.Sane() && t.Sane() && Inv(p, s, since) && since >= MIN_SPACING
    ensures Inv(Play(p, Polled, t), t, 0) && ChangesSilently(p, Play(p, Polled, t))
  {
    hide PathOk, Synced, Smooth, Outs;
    OutsSpaced(p.synced, since);
    PollOk(p.path, FeedOf(t), Gate(t), Outs(p.fed) - Outs(p.synced));
  }

  lemma CommandedKeeps(p: Playing, s: State, t: State, since: nat)
    requires s.Sane() && t.Sane() && Inv(p, s, since) && Led(Commanded, s, t)
    ensures Inv(Play(p, Commanded, t), t, since) && ChangesSilently(p, Play(p, Commanded, t))
  {
    hide PathOk, Synced, Smooth, Outs, Skip, AlertUnmute;
    var press :| t == Pressed(s, press);
    match press {
      case PressSkip(h, now) => SkipMovesBoth(s, h, now);
      case PressAlert(id, h, now) => AlertMovesBoth(s, id, h, now);
    }
    CommandOk(p.path, FeedOf(t), Gate(t), Outs(p.fed) - Outs(p.synced));
  }

  lemma TunedKeeps(p: Playing, s: State, t: State, since: nat)
    requires s.Sane() && t.Sane() && Inv(p, s, since)
    ensures Inv(Play(p, Cue.Tuned, t), t, 0)
  {
    var q := Cleared(p.path);
    assert PathOk(q, FADE);
    PollOk(q, FeedOf(t), Gate(t), FADE);
  }

  lemma {:induction false} RunKeeps(cues: seq<Cue>, ss: seq<State>)
    requires Scanned(cues, ss) && Spaced(cues)
    ensures Inv(Run(cues, ss), ss[|cues|], Since(cues))
  {
    if cues != [] {
      var k := |cues| - 1;
      var before, past := cues[..k], ss[..k + 1];
      assert forall i :: 0 <= i <= k ==> before[..i] == cues[..i];
      assert Spaced(before) && Scanned(before, past) by { ShorterRun(cues, ss); }
      RunKeeps(before, past);
      StepKeeps(Run(before, past), cues, ss);
    }
  }

  lemma ShorterRun(cues: seq<Cue>, ss: seq<State>)
    requires cues != [] && Scanned(cues, ss) && Spaced(cues)
    ensures var k := |cues| - 1; Scanned(cues[..k], ss[..k + 1]) && Spaced(cues[..k])
  {
    var k := |cues| - 1;
    forall i | 0 <= i < k && cues[..k][i].Polled? ensures Since(cues[..k][..i]) >= MIN_SPACING {
      assert cues[..k][..i] == cues[..i] && cues[i].Polled?;
    }
    forall i | 0 <= i < k ensures Led(cues[..k][i], ss[..k + 1][i], ss[..k + 1][i + 1]) {
      assert Led(cues[i], ss[i], ss[i + 1]);
    }
  }

  lemma StepKeeps(p: Playing, cues: seq<Cue>, ss: seq<State>)
    requires cues != [] && Scanned(cues, ss) && Spaced(cues)
    requires var k := |cues| - 1; Inv(p, ss[k], Since(cues[..k]))
    ensures var k := |cues| - 1; var q := Play(p, cues[k], ss[k + 1]);
      Inv(q, ss[k + 1], Since(cues)) && (!cues[k].Tuned? ==> ChangesSilently(p, q))
  {
    var k := |cues| - 1;
    var s, t, since := ss[k], ss[k + 1], Since(cues[..k]);
    assert Led(cues[k], s, t);
    hide Inv, Play, ChangesSilently, Led, Scanned;
    match cues[k]
    case Fed(n) => FedKeeps(p, n, s, t, since);
    case Polled => PolledKeeps(p, s, t, since);
    case Commanded => CommandedKeeps(p, s, t, since);
    case Tuned => TunedKeeps(p, s, t, since);
  }

  /** After any run whatever: consecutive output gains since the retune differ by at most one step of
      the fade, and the next cue other than a retune changes the fed lane only at gain exactly 0. */
  lemma NoClicks(cues: seq<Cue>, ss: seq<State>)
    requires cues != [] && Scanned(cues, ss) && Spaced(cues)
    ensures Smooth(Run(cues, ss).gains)
    ensures var k := |cues| - 1; !cues[k].Tuned? ==> ChangesSilently(Run(cues[..k], ss[..k + 1]), Run(cues, ss))
  {
    RunKeeps(cues, ss);
    ShorterRun(cues, ss);
    RunKeeps(cues[..|cues| - 1], ss[..|cues|]);
    StepKeeps(Run(cues[..|cues| - 1], ss[..|cues|]), cues, ss);
  }

  /** The engine's own cues are such a run. */
  lemma EngineNeverClicks(e: Engine, ss: seq<State>)
    requires e.Valid() && e.cues != [] && Scanned(e.cues, ss)
    ensures Smooth(Run(e.cues, ss).gains)
  {
    NoClicks(e.cues, ss);
  }
}
