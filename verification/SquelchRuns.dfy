/** Whole runs of the Scanner: any sequence of its commands from the state it is built in. */
module SquelchRuns {
  import opened Options
  import opened SquelchSpec
  import opened SquelchInvariants
  import opened SquelchLog
  import opened SquelchMeters

  datatype Cmd = DoPoll(now: real, r: seq<Reading>)
               | DoTune(centerHz: real, channels: seq<ChannelCmd>, monitor: bool, ccAudible: Option<seq<(real, real)>>)
               | DoSkip(holdoffS: real, at: real)
               | DoAlert(id: LaneId, holdS: real, since: real)
               | DoAssignCc(freqHz: int)

  function Step(s: State, c: Cmd, p: Params): (t: State)
    requires s.Sane()
    ensures |t.lanes| == |s.lanes| && t.Sane()
  {
    match c
    case DoPoll(now, r) => Poll(s, now, r, p)
    case DoTune(f, cs, m, cc) => Tune(SetCcAudible(s, cc), f, cs, m)
    case DoSkip(h, now) => Skip(s, h, now)
    case DoAlert(id, h, now) => AlertUnmute(s, id, h, now)
    case DoAssignCc(f) => AssignCc(s, f)
  }

  /** A scanner with n slots, as built. */
  function Built(n: nat): (s: State)
    ensures s.Sane() && |s.lanes| == n
  {
    State(seq(n, _ => PARKED_LANE), -1, false, false, map[], None, [])
  }

  function Exec(n: nat, cs: seq<Cmd>, p: Params): (s: State)
    ensures s.Sane() && |s.lanes| == n
  {
    if cs == [] then Built(n) else Step(Exec(n, cs[..|cs| - 1], p), cs[|cs| - 1], p)
  }

  /** What callers guarantee: a tune lists each channel once, and a Close Call hit is never on a
      frequency that is already assigned. */
  ghost predicate Allowed(s: State, c: Cmd) {
    match c
    case DoTune(_, cs, _, _) => DistinctCmds(cs)
    case DoAssignCc(f) => CloseCall(f) !in Ids(s.lanes)
    case _ => true
  }

  ghost predicate AllAllowed(n: nat, cs: seq<Cmd>, p: Params) {
    forall k :: 0 <= k < |cs| ==> Allowed(Exec(n, cs[..k], p), cs[k])
  }

  predicate NoAlerts(cs: seq<Cmd>) { forall k :: 0 <= k < |cs| ==> !cs[k].DoAlert? }

  lemma StepKeeps(s: State, c: Cmd, p: Params)
    requires Arbitrated(s)
    ensures Arbitrated(Step(s, c, p))
    ensures NoAlert(s) && Ranked(s) && !c.DoAlert? ==> NoAlert(Step(s, c, p)) && Ranked(Step(s, c, p))
  {
    hide Poll, Tune, Skip, AlertUnmute, AssignCc, Arbitrated, Ranked, NoAlert;
    match c
    case DoPoll(now, r) => PollKeeps(s, now, r, p);
    case DoTune(f, cs, m, cc) =>
      RangesKeep(s, cc);
      TuneKeeps(SetCcAudible(s, cc), f, cs, m);
    case DoSkip(h, now) => SkipKeeps(s, h, now);
    case DoAlert(id, h, now) => AlertUnmuteKeeps(s, id, h, now);
    case DoAssignCc(f) => AssignCcKeeps(s, f);
  }

  lemma StepLogs(s: State, c: Cmd, p: Params)
    requires Arbitrated(s) && Logged(s) && Allowed(s, c)
    ensures s.out <= Step(s, c, p).out && Logged(Step(s, c, p))
    ensures !c.DoTune? ==> Extends(s, Step(s, c, p))
  {
    hide Poll, Tune, Skip, AlertUnmute, AssignCc, Logged;
    match c
    case DoPoll(now, r) => PollExtends(s, now, r, p);
    case DoTune(f, cs, m, cc) =>
      RangesLog(s, cc, s, f);
      TuneLogs(SetCcAudible(s, cc), f, cs, m);
    case DoSkip(h, now) => SkipExtends(s, h, now);
    case DoAlert(id, h, now) => AlertUnmuteExtends(s, id, h, now);
    case DoAssignCc(f) => AssignCcExtends(s, f);
  }

  /** Safety over whole runs: the audible lane is open and may speak, silence means nobody may
      speak, the gate needs carrier and tone; without alert pull-ins no priority lane waits
      behind an ordinary one; and the log opens and closes each lane in turn. */
  lemma {:induction false} EveryRun(n: nat, cs: seq<Cmd>, p: Params)
    ensures Arbitrated(Exec(n, cs, p))
    ensures NoAlerts(cs) ==> Ranked(Exec(n, cs, p)) && NoAlert(Exec(n, cs, p))
    ensures AllAllowed(n, cs, p) ==> Logged(Exec(n, cs, p))
  {
    if cs != [] {
      var m := |cs| - 1;
      EveryRun(n, cs[..m], p);
      assert AllAllowed(n, cs, p) ==> AllAllowed(n, cs[..m], p) && Allowed(Exec(n, cs[..m], p), cs[m]) by {
        assert forall k :: 0 <= k <= m ==> cs[..m][..k] == cs[..k];
        assert forall k :: 0 <= k < m ==> cs[..m][k] == cs[k];
      }
      StepKeeps(Exec(n, cs[..m], p), cs[m], p);
      if AllAllowed(n, cs, p) { StepLogs(Exec(n, cs[..m], p), cs[m], p); }
    }
  }

  /** The Close Call ranges of the last tune. */
  function LastRanges(cs: seq<Cmd>): Option<seq<(real, real)>> {
    if cs == [] then None
    else if cs[|cs| - 1].DoTune? then cs[|cs| - 1].ccAudible
    else LastRanges(cs[..|cs| - 1])
  }

  lemma StepRanges(s: State, c: Cmd, p: Params)
    requires s.Sane()
    ensures Step(s, c, p).ccAudible == if c.DoTune? then c.ccAudible else s.ccAudible
    ensures !c.DoSkip? ==> Step(s, c, p).skipById == s.skipById
  {
    hide Poll, Tune, Skip, AlertUnmute, AssignCc;
    match c
    case DoPoll(now, r) => PollRanges(s, now, r, p);
    case DoTune(f, cs, m, cc) => TuneRanges(SetCcAudible(s, cc), f, cs, m);
    case DoSkip(h, now) => SkipRanges(s, h, now);
    case DoAlert(id, h, now) => AlertRanges(s, id, h, now);
    case DoAssignCc(f) => AssignRanges(s, f);
  }

  lemma TuneRanges(s: State, f: real, cs: seq<ChannelCmd>, m: bool)
    requires s.Sane()
    ensures Tune(s, f, cs, m).ccAudible == s.ccAudible && Tune(s, f, cs, m).skipById == s.skipById
  {
    hide Slots, Closings, Truncates, FirstAssigned;
  }

  lemma SkipRanges(s: State, h: real, now: real)
    requires s.Sane()
    ensures Skip(s, h, now).ccAudible == s.ccAudible
  {
    hide CloseLane, Unexpired;
    if s.audible >= 0 {
      var u := s.(lanes := s.lanes[s.audible := s.lanes[s.audible].(m := s.lanes[s.audible].m.(txActive := false))]);
      CloseRanges(u, s.audible);
    }
  }

  lemma AlertRanges(s: State, id: LaneId, h: real, now: real)
    requires s.Sane()
    ensures AlertUnmute(s, id, h, now).ccAudible == s.ccAudible && AlertUnmute(s, id, h, now).skipById == s.skipById
  {
    hide Find;
  }

  lemma AssignRanges(s: State, f: int)
    requires s.Sane()
    ensures AssignCc(s, f).ccAudible == s.ccAudible && AssignCc(s, f).skipById == s.skipById
  {
    hide Find;
  }

  lemma TurnRanges(s: State, i: nat, now: real, r: Reading, rated: bool, floor: Option<real>, p: Params)
    requires ValidSlot(s, i)
    ensures PollLane(s, i, now, r, rated, floor, p).ccAudible == s.ccAudible
    ensures PollLane(s, i, now, r, rated, floor, p).skipById == s.skipById
  {
    hide ExpireAlert, Meter, Decide;
    var L := s.lanes[i];
    if !(L.IsParked() || !rated || L.cfg.background || Base(L, floor).None?) {
      var base := Base(L, floor).value;
      var m := Meter(ExpireAlert(s, i, now), i, now, r, base, p);
      ExpireRanges(s, i, now);
      MeterRanges(ExpireAlert(s, i, now), i, now, r, base, p);
      DecideRanges(m, i, now, r.slowDb, base, p);
    }
  }

  lemma SetRanges(s: State, i: int)
    requires -1 <= i < |s.lanes|
    ensures SetAudible(s, i).ccAudible == s.ccAudible && SetAudible(s, i).skipById == s.skipById
  {}

  lemma ExpireRanges(s: State, i: nat, now: real)
    requires ValidSlot(s, i)
    ensures ExpireAlert(s, i, now).ccAudible == s.ccAudible && ExpireAlert(s, i, now).skipById == s.skipById
  {
    hide NextOpen, SetAudible;
    var t := s.(lanes := s.lanes[i := s.lanes[i].(alertUntil := -1.0, allowAudio := s.lanes[i].cfg.audible)],
      gate := false);
    SetRanges(t, NextOpen(t.lanes));
  }

  lemma MeterRanges(s: State, i: nat, now: real, r: Reading, base: real, p: Params)
    requires ValidSlot(s, i)
    ensures Meter(s, i, now, r, base, p).ccAudible == s.ccAudible && Meter(s, i, now, r, base, p).skipById == s.skipById
  {
    hide Measure;
  }

  lemma DecideRanges(s: State, i: nat, now: real, db: real, base: real, p: Params)
    requires ValidSlot(s, i)
    ensures Decide(s, i, now, db, base, p).ccAudible == s.ccAudible
    ensures Decide(s, i, now, db, base, p).skipById == s.skipById
  {
    hide OpenLane, CloseLane, OpenEvidence, HangS, OpenDb;
    OpenRanges(s, i);
    CloseRanges(s, i);
  }

  lemma OpenRanges(s: State, i: nat)
    requires ValidSlot(s, i)
    ensures OpenLane(s, i).ccAudible == s.ccAudible && OpenLane(s, i).skipById == s.skipById
  {}

  lemma CloseRanges(s: State, i: nat)
    requires ValidSlot(s, i)
    ensures CloseLane(s, i).ccAudible == s.ccAudible && CloseLane(s, i).skipById == s.skipById
  {
    hide NextOpen;
  }

  lemma {:induction false} TurnsRanges(s: State, k: nat, now: real, r: seq<Reading>, rated: seq<bool>,
      floor: Option<real>, p: Params)
    requires |r| == |rated| == |s.lanes| && k <= |s.lanes| && s.Sane()
    ensures PollUpTo(s, k, now, r, rated, floor, p).ccAudible == s.ccAudible
    ensures PollUpTo(s, k, now, r, rated, floor, p).skipById == s.skipById
  {
    if k > 0 {
      TurnsRanges(s, k - 1, now, r, rated, floor, p);
      TurnRanges(PollUpTo(s, k - 1, now, r, rated, floor, p), k - 1, now, r[k - 1], rated[k - 1], floor, p);
    }
  }

  lemma PollRanges(s: State, now: real, r: seq<Reading>, p: Params)
    requires s.Sane()
    ensures Poll(s, now, r, p).ccAudible == s.ccAudible && Poll(s, now, r, p).skipById == s.skipById
  {
    hide PollUpTo;
    if !s.monitor && |r| == |s.lanes| {
      var w := s.(lanes := WarmAll(s.lanes, r));
      TurnsRanges(w, |w.lanes|, now, r, RatedAll(s.lanes), SharedFloor(w.lanes, |w.lanes|), p);
    }
  }

  lemma {:induction false} RangesInForce(n: nat, cs: seq<Cmd>, p: Params)
    ensures Exec(n, cs, p).ccAudible == LastRanges(cs)
  {
    if cs != [] {
      var m := |cs| - 1;
      RangesInForce(n, cs[..m], p);
      StepRanges(Exec(n, cs[..m], p), cs[m], p);
    }
  }

  /** In any run a Close Call hit that finds a slot may speak, and pre-empt, exactly if the last tune's
      ranges hold its frequency. */
  lemma HitsFollowLastTune(n: nat, cs: seq<Cmd>, p: Params, f: int)
    requires Find(Exec(n, cs, p).lanes, Parked, 0) >= 0
    ensures var s := Exec(n, cs, p);
      var L, ok := AssignCc(s, f).lanes[Find(s.lanes, Parked, 0)], LastRanges(cs).Some? ==>
        InRanges(f, LastRanges(cs).value);
      L.cfg.id == CloseCall(f) && L.allowAudio == ok && L.cfg.priority == ok
  {
    RangesInForce(n, cs, p);
    HitFollowsRanges(Exec(n, cs, p), f);
  }

  // ---- Every open rests on OPEN_POLLS polls in a row that heard the lane

  /** How many polls in a row, up to now, have heard lane i. Commands in between do not
      break the row; a retune, a reassigned slot, an open lane and a poll that does not hear it do. */
  ghost function Streak(n: nat, cs: seq<Cmd>, p: Params, i: nat): nat
    requires i < n
  {
    if cs == [] then 0
    else
      var k := |cs| - 1;
      var s := Exec(n, cs[..k], p);
      match cs[k]
      case DoPoll(now, r) =>
        if Hears(s, i, now, r, p) then Streak(n, cs[..k], p, i) + 1
        else if s.monitor || |r| != n then Streak(n, cs[..k], p, i)
        else 0
      case DoTune(_, _, _, _) => 0
      case DoAssignCc(f) => if AssignCc(s, f).lanes[i] == s.lanes[i] then Streak(n, cs[..k], p, i) else 0
      case _ => if s.lanes[i].open then 0 else Streak(n, cs[..k], p, i)
  }

  /** A lane's evidence counter is its streak. */
  lemma {:induction false} EvidenceIsStreak(n: nat, cs: seq<Cmd>, p: Params, i: nat)
    requires i < n
    ensures NoEvidence(Exec(n, cs, p).lanes[i])
    ensures !Exec(n, cs, p).lanes[i].open ==> Exec(n, cs, p).lanes[i].above == Streak(n, cs, p, i)
  {
    if cs != [] {
      var k := |cs| - 1;
      var s, c := Exec(n, cs[..k], p), cs[k];
      EvidenceIsStreak(n, cs[..k], p, i);
      EveryRun(n, cs[..k], p);
      if c.DoPoll? && !s.monitor && |c.r| == n {
        if !s.lanes[i].open {
          OpensWhenHeard(s, i, c.now, c.r, p);
        } else {
          ClosesAfterHang(s, i, c.now, c.r, p);
        }
      } else if !c.DoPoll? {
        hide Streak;
        CommandEvidence(s, i, c, p);
      }
    }
  }

  lemma CommandEvidence(s: State, i: nat, c: Cmd, p: Params)
    requires Arbitrated(s) && i < |s.lanes| && !c.DoPoll? && NoEvidence(s.lanes[i])
    ensures var L, M := s.lanes[i], Step(s, c, p).lanes[i];
      && NoEvidence(M)
      && (!M.open ==> M.above == if c.DoTune? || L.open || (c.DoAssignCc? && M != L) then 0 else L.above)
  {
    hide NextOpen, Find, Truncates, Closings;
    match c
    case DoTune(f, cs, m, cc) =>
    case DoSkip(h, now) =>
    case DoAlert(id, h, now) =>
    case DoAssignCc(f) =>
  }

  /** Every open in every run: a poll opens a closed lane exactly when that poll completes
      OPEN_POLLS polls in a row that heard it. */
  lemma OpensAfterStreak(n: nat, cs: seq<Cmd>, p: Params, i: nat, now: real, r: seq<Reading>)
    requires i < n && !Exec(n, cs, p).lanes[i].open
    ensures var run := cs + [DoPoll(now, r)];
      && Streak(n, run, p, i) <= OPEN_POLLS
      && (Exec(n, run, p).lanes[i].open <==> Streak(n, run, p, i) == OPEN_POLLS)
  {
    var run, s := cs + [DoPoll(now, r)], Exec(n, cs, p);
    assert run[..|cs|] == cs;
    EvidenceIsStreak(n, cs, p, i);
    EveryRun(n, cs, p);
    if !s.monitor && |r| == n { OpensWhenHeard(s, i, now, r, p); }
    hide Hears, Poll;
  }

  /** The run one command longer. */
  lemma ExecLast(n: nat, run: seq<Cmd>, c: Cmd, p: Params)
    ensures Exec(n, run + [c], p) == Step(Exec(n, run, p), c, p)
  {
    hide Step;
    assert (run + [c])[..|run|] == run;
  }

  /** OPEN_POLLS polls one after the other, from no evidence at all, open a closed lane if and only if it was
      heard at every one of them; until the last it stays closed. */
  lemma {:induction false} RowOfPolls(n: nat, cs: seq<Cmd>, ps: seq<Cmd>, p: Params, i: nat)
    requires i < n && |ps| <= OPEN_POLLS && (forall k :: 0 <= k < |ps| ==> ps[k].DoPoll? && |ps[k].r| == n)
    requires var s := Exec(n, cs, p); !s.monitor && !s.lanes[i].open && s.lanes[i].above == 0
    ensures var t, all := Exec(n, cs + ps, p), AllHear(n, cs, ps, p, i);
      && !t.monitor
      && (t.lanes[i].open <==> |ps| == OPEN_POLLS && all)
      && (!t.lanes[i].open ==> t.lanes[i].above <= |ps| && (t.lanes[i].above == |ps| <==> all))
  {
    hide Exec, Step;
    if ps == [] {
      assert cs + ps == cs;
    } else {
      var k := |ps| - 1;
      var run := cs + ps[..k];
      assert cs + ps == run + [ps[k]];
      RowOfPolls(n, cs, ps[..k], p, i);
      ExecLast(n, run, ps[k], p);
      OnePoll(n, run, ps[k], p, i);
    }
  }

  lemma OnePoll(n: nat, run: seq<Cmd>, c: Cmd, p: Params, i: nat)
    requires i < n && c.DoPoll? && |c.r| == n && !Exec(n, run, p).monitor && !Exec(n, run, p).lanes[i].open
    ensures var s, t := Exec(n, run, p), Step(Exec(n, run, p), c, p);
      var L, M, yes := s.lanes[i], t.lanes[i], Hears(s, i, c.now, c.r, p);
      !t.monitor && M.above == (if yes then L.above + 1 else 0) && M.open == (yes && L.above + 1 >= OPEN_POLLS)
  {
    var s := Exec(n, run, p);
    EveryRun(n, run, p);
    EvidenceIsStreak(n, run, p, i);
    hide Hears, Poll, Streak, Exec;
    OpensWhenHeard(s, i, c.now, c.r, p);
    PollKeeps(s, c.now, c.r, p);
  }

  ghost predicate AllHear(n: nat, cs: seq<Cmd>, ps: seq<Cmd>, p: Params, i: nat)
    requires i < n && forall k :: 0 <= k < |ps| ==> ps[k].DoPoll?
  {
    ps == [] ||
    (var k := |ps| - 1; AllHear(n, cs, ps[..k], p, i) && Hears(Exec(n, cs + ps[..k], p), i, ps[k].now, ps[k].r, p))
  }

  // ---- Every close rests on a fade that outlasted the hang

  /** When the unbroken fade of open lane i began: the first of the polls in a row, up to now, at which it was
      under its closing threshold or unquieted. A retune and a closed lane end it; a time before zero is none. */
  ghost function FadeStart(n: nat, cs: seq<Cmd>, p: Params, i: nat): Option<real>
    requires i < n
  {
    if cs == [] then None
    else
      var k := |cs| - 1;
      var s, was := Exec(n, cs[..k], p), FadeStart(n, cs[..k], p, i);
      match cs[k]
      case DoPoll(now, r) =>
        if s.monitor || |r| != n then was
        else if !s.lanes[i].open || !Fades(s, i, r, p) then None
        else if was.Some? && was.value >= 0.0 then was
        else Some(now)
      case DoTune(_, _, _, _) => None
      case _ => was
  }

  lemma {:induction false} FadeTracked(n: nat, cs: seq<Cmd>, p: Params, i: nat)
    requires i < n
    ensures var L, f := Exec(n, cs, p).lanes[i], FadeStart(n, cs, p, i);
      L.open ==> L.belowSince == if f.None? then -1.0 else f.value
  {
    if cs != [] {
      var k := |cs| - 1;
      var s, c := Exec(n, cs[..k], p), cs[k];
      FadeTracked(n, cs[..k], p, i);
      EveryRun(n, cs[..k], p);
      hide Poll, Fades, Hears;
      match c
      case DoPoll(now, r) =>
        if s.monitor || |r| != n {
          IgnoredPoll(s, now, r, p);
        } else if s.lanes[i].open {
          ClosesAfterHang(s, i, now, r, p);
        } else {
          EvidenceIsStreak(n, cs[..k], p, i);
          hide Streak;
          OpensWhenHeard(s, i, now, r, p);
        }
      case _ => CommandFade(s, i, c, p);
    }
  }

  lemma CommandFade(s: State, i: nat, c: Cmd, p: Params)
    requires s.Sane() && i < |s.lanes| && !c.DoPoll?
    ensures var L, M := s.lanes[i], Step(s, c, p).lanes[i];
      M.open ==> if c.DoTune? then M.belowSince == -1.0 else L.open && M.belowSince == L.belowSince
  {
    hide NextOpen, Find, Truncates, Closings;
    match c
    case DoTune(f, cs, m, cc) =>
    case DoSkip(h, now) =>
    case DoAlert(id, h, now) =>
    case DoAssignCc(f) =>
  }

  lemma IgnoredPoll(s: State, now: real, r: seq<Reading>, p: Params)
    requires s.Sane() && (s.monitor || |r| != |s.lanes|)
    ensures Poll(s, now, r, p) == s
  {}

  /** In every run, a poll closes an open lane if and only if the lane fades at it and has faded at every poll
      since one that is its hang time or more ago. */
  lemma ClosesAfterFade(n: nat, cs: seq<Cmd>, p: Params, i: nat, now: real, r: seq<Reading>)
    requires i < n && |r| == n && !Exec(n, cs, p).monitor && Exec(n, cs, p).lanes[i].open
    ensures var s, t, since := Exec(n, cs, p), Exec(n, cs + [DoPoll(now, r)], p), FadeStart(n, cs, p, i);
      !t.lanes[i].open <==>
        Fades(s, i, r, p) && since.Some? && since.value >= 0.0 && now - since.value >= HangsFor(s.lanes[i], p)
  {
    var run := cs + [DoPoll(now, r)];
    assert run[..|cs|] == cs;
    FadeTracked(n, cs, p, i);
    EveryRun(n, cs, p);
    hide Fades, Poll, FadeStart;
    ClosesAfterHang(Exec(n, cs, p), i, now, r, p);
  }
}
