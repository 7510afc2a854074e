/** What a run's history leaves in the scanner: holdoffs that outlive retunes, tones that were really heard, a
    speaker that is always the one announced. */
module SquelchHistory {
  import opened Options
  import opened SquelchSpec
  import opened SquelchInvariants
  import opened SquelchLog
  import opened SquelchMeters
  import opened SquelchCommands
  import opened SquelchRuns

  // ---- What one poll leaves alone

  /** A closed lane's channel and holdoff. */
  lemma PollKeepsHoldoff(s: State, i: nat, now: real, r: seq<Reading>, p: Params)
    requires Arbitrated(s) && i < |s.lanes|
    ensures var L, M := s.lanes[i], Poll(s, now, r, p).lanes[i];
      M == PARKED_LANE || (M.cfg == L.cfg && M.skipUntil == L.skipUntil)
  {
    hide Poll, Hears, Fades;
    if s.monitor || |r| != |s.lanes| {
      IgnoredPoll(s, now, r, p);
    } else if !Rated(s.lanes[i]) || s.lanes[i].cfg.background {
      PollWaiting(s, i, now, r, p);
    } else {
      PollAlerts(s, i, now, r, p);
      PollKeepsChannel(s, i, now, r, p);
    }
  }

  lemma PollKeepsChannel(s: State, i: nat, now: real, r: seq<Reading>, p: Params)
    requires Arbitrated(s) && i < |s.lanes| && |r| == |s.lanes| && !s.monitor
    ensures var M := Poll(s, now, r, p).lanes[i]; M == PARKED_LANE || M.cfg == s.lanes[i].cfg
  {
    var n, w := |s.lanes|, s.(lanes := WarmAll(s.lanes, r));
    var rated, floor := RatedAll(s.lanes), SharedFloor(w.lanes, |s.lanes|);
    hide PollUpTo, PollLane, SharedFloor, Measure;
    WarmKeeps(s, r);
    OwnTurnOnly(w, n, i, now, r, rated, floor, p);
    TurnKeepsChannel(PollUpTo(w, i, now, r, rated, floor, p), i, now, r[i], rated[i], floor, p);
  }

  lemma TurnKeepsChannel(s: State, i: nat, now: real, r: Reading, rated: bool, floor: Option<real>, p: Params)
    requires ValidSlot(s, i)
    ensures var M := PollLane(s, i, now, r, rated, floor, p).lanes[i]; M == PARKED_LANE || M.cfg == s.lanes[i].cfg
  {
    hide ExpireAlert, Meter, Decide, Measure;
    var L := s.lanes[i];
    if !(L.IsParked() || !rated || L.cfg.background || Base(L, floor).None?) {
      var base := Base(L, floor).value;
      var e := ExpireAlert(s, i, now);
      ExpireAlertTouches(s, i, now);
      MeterTouches(e, i, now, r, base, p);
      DecideKeepsChannel(Meter(e, i, now, r, base, p), i, now, r.slowDb, base, p);
    }
  }

  lemma DecideKeepsChannel(s: State, i: nat, now: real, db: real, base: real, p: Params)
    requires ValidSlot(s, i)
    ensures var M := Decide(s, i, now, db, base, p).lanes[i]; M == PARKED_LANE || M.cfg == s.lanes[i].cfg
  {
    hide NextOpen, OpenEvidence, OpenDb, HangS;
  }

  // ---- Holdoffs

  /** Channel x is held off until then, wherever it is. */
  ghost predicate HeldOff(s: State, x: LaneId, until: real) {
    && x in s.skipById && s.skipById[x] == until
    && forall j :: 0 <= j < |s.lanes| && s.lanes[j].cfg.id == x ==> !s.lanes[j].open && s.lanes[j].skipUntil == until
  }

  /** A command that comes before that time, and is not weather-only, which opens its channel regardless. */
  predicate Before(c: Cmd, until: real) {
    match c
    case DoPoll(now, _) => now < until
    case DoTune(_, _, monitor, _) => !monitor
    case DoSkip(_, at) => at < until
    case _ => true
  }

  lemma HoldoffStands(s: State, c: Cmd, p: Params, x: LaneId, until: real)
    requires Arbitrated(s) && HeldOff(s, x, until) && Before(c, until) && !x.Parked? && !x.CloseCall?
    requires forall j :: 0 <= j < |s.lanes| ==> NoEvidence(s.lanes[j])
    ensures HeldOff(Step(s, c, p), x, until)
  {
    hide Poll, Skip, Tune, AlertUnmute, AssignCc, Arbitrated, Carries, GetsSlot;
    StepRanges(s, c, p);
    var t := Step(s, c, p);
    match c
    case DoPoll(now, r) =>
      forall j | 0 <= j < |t.lanes| && t.lanes[j].cfg.id == x
        ensures !t.lanes[j].open && t.lanes[j].skipUntil == until
      {
        PollKeepsHoldoff(s, j, now, r, p);
        if s.monitor || |r| != |s.lanes| { IgnoredPoll(s, now, r, p); } else { StaysShut(s, j, now, r, p); }
      }
    case DoTune(f, cs, m, cc) =>
      var u := SetCcAudible(s, cc);
      TuneAssigns(u, f, cs);
      forall j: nat | j < |t.lanes| && t.lanes[j].cfg.id == x
        ensures !t.lanes[j].open && t.lanes[j].skipUntil == until
      {
        var k: nat :| k < |cs| && GetsSlot(cs, |u.lanes|, k, j);
        AssignedSlot(t.lanes[j], cs[k], u.skipById);
      }
    case DoSkip(h, at) =>
      if s.audible >= 0 {
        SkipHoldsOff(s, h, at);
        AudibleIsOpen(s);
      } else {
        SkipOfNone(s, h, at);
      }
    case DoAlert(id, h, at) => AlertKeepsShut(s, id, h, at);
    case DoAssignCc(f) => AssignedElsewhere(s, f);
  }

  lemma StaysShut(s: State, j: nat, now: real, r: seq<Reading>, p: Params)
    requires Arbitrated(s) && j < |s.lanes| && |r| == |s.lanes| && !s.monitor
    requires !s.lanes[j].open && NoEvidence(s.lanes[j]) && now < s.lanes[j].skipUntil
    ensures !Poll(s, now, r, p).lanes[j].open
  {
    hide Poll;
    OpensWhenHeard(s, j, now, r, p);
  }

  lemma AssignedSlot(L: Lane, c: ChannelCmd, skipById: map<LaneId, real>)
    requires Carries(L, c, skipById)
    ensures !L.open && L.cfg.id == c.id && (c.id in skipById ==> L.skipUntil == skipById[c.id])
  {}

  lemma AudibleIsOpen(s: State)
    requires Arbitrated(s) && s.audible >= 0
    ensures s.lanes[s.audible].open
  {}

  lemma SkipOfNone(s: State, h: real, at: real)
    requires s.Sane() && s.audible < 0
    ensures Skip(s, h, at) == s
  {}

  lemma AlertKeepsShut(s: State, id: LaneId, h: real, at: real)
    requires s.Sane()
    ensures var t := AlertUnmute(s, id, h, at);
      forall j :: 0 <= j < |s.lanes| ==>
        t.lanes[j].cfg == s.lanes[j].cfg && t.lanes[j].open == s.lanes[j].open
        && t.lanes[j].skipUntil == s.lanes[j].skipUntil && t.lanes[j].m == s.lanes[j].m
  {
    hide Find;
  }

  lemma AssignedElsewhere(s: State, f: int)
    requires s.Sane()
    ensures var t := AssignCc(s, f);
      forall j :: 0 <= j < |s.lanes| && !t.lanes[j].cfg.id.CloseCall? ==> t.lanes[j] == s.lanes[j]
    ensures var t := AssignCc(s, f);
      forall j :: 0 <= j < |s.lanes| && t.lanes[j] != s.lanes[j] ==>
        !t.lanes[j].open && t.lanes[j].m == FRESH_METERS && t.lanes[j].cfg.dcs == None && t.lanes[j].cfg.ctcssHz == None
  {
    hide Find;
  }

  lemma SkipBegins(n: nat, before: seq<Cmd>, holdoffS: real, at: real, p: Params)
    requires AllAllowed(n, before, p)
    requires var s := Exec(n, before, p); s.audible >= 0 && !s.lanes[s.audible].cfg.id.CloseCall?
    ensures var s := Exec(n, before, p);
      !s.lanes[s.audible].IsParked() && HeldOff(Skip(s, holdoffS, at), s.lanes[s.audible].cfg.id, at + holdoffS)
  {
    var s := Exec(n, before, p);
    EveryRun(n, before, p);
    hide Exec, Skip, Logged, Arbitrated;
    OpenIsNotParked(s);
    SkipHoldsOff(s, holdoffS, at);
    OneLane(s);
  }

  /** The skipped channel stays shut until its holdoff is over: through polls, alerts, other skips and any
      retune away and back. */
  lemma {:induction false} SkipStands(n: nat, before: seq<Cmd>, holdoffS: real, at: real, after: seq<Cmd>, p: Params)
    requires AllAllowed(n, before, p)
    requires var s := Exec(n, before, p); s.audible >= 0 && !s.lanes[s.audible].cfg.id.CloseCall?
    requires forall k :: 0 <= k < |after| ==> Before(after[k], at + holdoffS)
    ensures var s, t := Exec(n, before, p), Exec(n, before + [DoSkip(holdoffS, at)] + after, p);
      HeldOff(t, s.lanes[s.audible].cfg.id, at + holdoffS)
  {
    hide Exec, Step, AllAllowed, HeldOff, Before;
    SkipBegins(n, before, holdoffS, at, p);
    var skip := DoSkip(holdoffS, at);
    if after == [] {
      assert before + [skip] + [] == before + [skip];
      ExecLast(n, before, skip, p);
      SkipStep(Exec(n, before, p), skip, p);
    } else {
      var k := |after| - 1;
      var run := before + [skip] + after[..k];
      assert before + [skip] + after == run + [after[k]];
      SkipStands(n, before, holdoffS, at, after[..k], p);
      ExecLast(n, run, after[k], p);
      EveryRun(n, run, p);
      forall j | 0 <= j < n ensures NoEvidence(Exec(n, run, p).lanes[j]) { EvidenceIsStreak(n, run, p, j); }
      var s := Exec(n, before, p);
      HoldoffStands(Exec(n, run, p), after[k], p, s.lanes[s.audible].cfg.id, at + holdoffS);
    }
  }

  lemma SkipStep(s: State, c: Cmd, p: Params)
    requires s.Sane() && c.DoSkip?
    ensures Step(s, c, p) == Skip(s, c.holdoffS, c.at)
  {}

  lemma OpenIsNotParked(s: State)
    requires Arbitrated(s) && s.audible >= 0
    ensures !s.lanes[s.audible].IsParked()
  {}

  lemma OneLane(s: State)
    requires Logged(s) && Arbitrated(s) && s.audible >= 0
    ensures forall j :: 0 <= j < |s.lanes| && j != s.audible ==> s.lanes[j].cfg.id != s.lanes[s.audible].cfg.id
  {
    OpenIsNotParked(s);
  }

  // ---- Tones

  /** The poll at that time had lane i's tone or code in its readings. */
  predicate HeardAt(c: Cmd, L: Lane, n: nat, i: nat, t: real)
    requires i < n
  {
    c.DoPoll? && |c.r| == n && c.now == t && Matches(L, c.r[i])
  }

  /** In every run, a lane's tone memory is the time of a poll of that run that heard its tone, and a lane that
      asks for no tone is never without one. */
  lemma {:induction false} ToneWasHeard(n: nat, cs: seq<Cmd>, p: Params, i: nat)
    requires i < n
    ensures var L := Exec(n, cs, p).lanes[i];
      && (L.m.toneSeen >= 0.0 ==> exists k :: 0 <= k < |cs| && HeardAt(cs[k], L, n, i, L.m.toneSeen))
      && (L.cfg.dcs.None? && L.cfg.ctcssHz.None? ==> L.m.toneOk)
  {
    if cs != [] {
      var m := |cs| - 1;
      var s, c, t := Exec(n, cs[..m], p), cs[m], Exec(n, cs, p);
      var L, M := s.lanes[i], t.lanes[i];
      ToneWasHeard(n, cs[..m], p, i);
      EveryRun(n, cs[..m], p);
      hide Step, Arbitrated;
      if c.DoPoll? {
        PollTone(s, i, c.now, c.r, p);
        PollIs(s, c, p);
      } else {
        CommandTone(s, i, c, p);
      }
      if M.m.toneSeen >= 0.0 && !HeardAt(c, M, n, i, M.m.toneSeen) {
        var k :| 0 <= k < m && HeardAt(cs[..m][k], L, n, i, L.m.toneSeen);
        assert HeardAt(cs[k], M, n, i, M.m.toneSeen);
      }
    } else {
      assert Exec(n, [], p) == Built(n);
    }
  }

  lemma PollIs(s: State, c: Cmd, p: Params)
    requires s.Sane() && c.DoPoll?
    ensures Step(s, c, p) == Poll(s, c.now, c.r, p)
  {}

  /** A lane's channel and tone memory after a step: fresh, updated by this poll's match, or as before. */
  predicate TonedFrom(L: Lane, M: Lane) {
    && (M.m.toneSeen >= 0.0 ==>
      M.m.toneSeen == L.m.toneSeen && M.cfg.dcs == L.cfg.dcs && M.cfg.ctcssHz == L.cfg.ctcssHz)
    && (M.cfg.dcs.None? && M.cfg.ctcssHz.None? ==>
      M.m.toneOk || (L.cfg.dcs.None? && L.cfg.ctcssHz.None? && !L.m.toneOk))
  }

  lemma PollTone(s: State, i: nat, now: real, r: seq<Reading>, p: Params)
    requires Arbitrated(s) && i < |s.lanes|
    ensures var L, M := s.lanes[i], Poll(s, now, r, p).lanes[i];
      || TonedFrom(L, M)
      || (|r| == |s.lanes| && Matches(M, r[i]) && M.m.toneSeen == now && (M.cfg.dcs.Some? || M.cfg.ctcssHz.Some?))
  {
    hide Poll, Over, Under, Quieted, Hears, FloorNow;
    if s.monitor || |r| != |s.lanes| {
      IgnoredPoll(s, now, r, p);
    } else if !Rated(s.lanes[i]) || s.lanes[i].cfg.background {
      PollWaiting(s, i, now, r, p);
    } else {
      PollMeters(s, i, now, r, p);
      PollKeepsChannel(s, i, now, r, p);
    }
  }

  lemma CommandTone(s: State, i: nat, c: Cmd, p: Params)
    requires Arbitrated(s) && i < |s.lanes| && !c.DoPoll?
    ensures TonedFrom(s.lanes[i], Step(s, c, p).lanes[i])
  {
    hide Poll, Skip, Tune, AlertUnmute, AssignCc, Arbitrated, Carries, GetsSlot;
    var t := Step(s, c, p);
    match c
    case DoTune(f, cs, m, cc) =>
      var u := SetCcAudible(s, cc);
      TuneAssigns(u, f, cs);
      MonitorHolds(u, f, cs);
      var v := Tune(u, f, cs, false);
      if k: nat :| k < |cs| && GetsSlot(cs, |u.lanes|, k, i) { AssignedTone(v.lanes[i], cs[k], u.skipById); }
    case DoSkip(h, at) =>
      if s.audible >= 0 { SkipHoldsOff(s, h, at); SkipTone(s, h, at); } else { SkipOfNone(s, h, at); }
    case DoAlert(id, h, at) => AlertKeepsShut(s, id, h, at);
    case DoAssignCc(f) => AssignedElsewhere(s, f);
  }

  lemma AssignedTone(L: Lane, c: ChannelCmd, skipById: map<LaneId, real>)
    requires Carries(L, c, skipById)
    ensures L.m.toneSeen == -1.0 && L.m.toneOk
  {}

  lemma SkipTone(s: State, h: real, at: real)
    requires s.Sane() && s.audible >= 0
    ensures var M := Skip(s, h, at).lanes[s.audible];
      M == PARKED_LANE || (M.cfg == s.lanes[s.audible].cfg && M.m == s.lanes[s.audible].m.(txActive := false))
  {
    hide NextOpen;
  }

  /** In every run, a lane that a poll opens read more than its opening margin above the floor it goes by, had
      quieting, was not held off, and if it asks for a tone or code, that was heard at this poll or within the
      loss time at an earlier one. */
  lemma OpenedForCause(n: nat, cs: seq<Cmd>, p: Params, i: nat, now: real, r: seq<Reading>)
    requires i < n && !Exec(n, cs, p).lanes[i].open && Exec(n, cs + [DoPoll(now, r)], p).lanes[i].open
    ensures |r| == n
    ensures var s := Exec(n, cs, p);
      var L := s.lanes[i];
      && L.cfg.id != Parked && !L.cfg.background && L.warmupPolls == 0
      && Over(s, r, i, r[i].slowDb, OpensAbove(L, p)) && Quieted(L, r[i], p) && now >= L.skipUntil
      && (L.cfg.dcs.Some? || L.cfg.ctcssHz.Some? ==>
        || Matches(L, r[i])
        || exists k :: 0 <= k < |cs| && cs[k].DoPoll? && HeardAt(cs[k], L, n, i, cs[k].now)
                     && now - cs[k].now <= if L.cfg.dcs.Some? then 0.4 else 0.3)
  {
    var run, s := cs + [DoPoll(now, r)], Exec(n, cs, p);
    assert run[..|cs|] == cs;
    EvidenceIsStreak(n, cs, p, i);
    EveryRun(n, cs, p);
    ToneWasHeard(n, cs, p, i);
    hide Poll, Streak, Over, Quieted;
    if s.monitor || |r| != n { IgnoredPoll(s, now, r, p); }
    OpensWhenHeard(s, i, now, r, p);
    var L := s.lanes[i];
    if (L.cfg.dcs.Some? || L.cfg.ctcssHz.Some?) && !Matches(L, r[i]) {
      var k :| 0 <= k < |cs| && HeardAt(cs[k], L, n, i, L.m.toneSeen);
      assert HeardAt(cs[k], L, n, i, cs[k].now);
    }
  }

  // ---- The speaker

  /** Whom the last announcement in the log gave the speaker. */
  function Announced(out: seq<Event>): Option<LaneId> {
    if out == [] then None
    else if out[|out| - 1].Audible? then out[|out| - 1].who
    else Announced(out[..|out| - 1])
  }

  function Speaker(s: State): Option<LaneId>
    requires s.Sane()
  {
    if s.audible >= 0 then Some(s.lanes[s.audible].cfg.id) else None
  }

  /** The log so far told who has the speaker. */
  predicate Told(s: State) { s.Sane() && Announced(s.out) == Speaker(s) }

  lemma AnnouncedAppend(out: seq<Event>, e: Event)
    ensures Announced(out + [e]) == if e.Audible? then e.who else Announced(out)
  {
    assert (out + [e])[..|out|] == out;
  }

  lemma SetTells(s: State, i: int)
    requires Told(s) && -1 <= i < |s.lanes|
    ensures Told(SetAudible(s, i))
  {
    AnnouncedAppend(s.out, Audible(None));
    if i >= 0 { AnnouncedAppend(s.out, Audible(Some(s.lanes[i].cfg.id))); }
  }

  /** Neither a lane's other fields nor other events move the speaker. */
  lemma StillTold(s: State, t: State, e: Option<Event>)
    requires Told(s) && t.Sane() && t.audible == s.audible && Speaker(t) == Speaker(s)
    requires t.out == (if e.Some? then s.out + [e.value] else s.out) && (e.Some? ==> !e.value.Audible?)
    ensures Told(t)
  {
    if e.Some? { AnnouncedAppend(s.out, e.value); }
  }

  lemma OpenTells(s: State, i: nat)
    requires Told(s) && ValidSlot(s, i)
    ensures Told(OpenLane(s, i))
  {
    hide Announced;
    var L := s.lanes[i].(open := true, belowSince := -1.0, above := s.lanes[i].above + 1);
    var t := s.(lanes := s.lanes[i := L], out := s.out + [Open(L.cfg.id)]);
    StillTold(s, t, Some(Open(L.cfg.id)));
    SetTells(t, i);
    hide SetAudible;
  }

  lemma CloseTells(s: State, i: nat)
    requires Told(s) && ValidSlot(s, i)
    ensures Told(CloseLane(s, i))
  {
    hide Announced, NextOpen, SetAudible;
    var L := s.lanes[i].(open := false, above := 0, belowSince := -1.0);
    var t := s.(lanes := s.lanes[i := L], out := s.out + [Close(L.cfg.id)]);
    StillTold(s, t, Some(Close(L.cfg.id)));
    SetTells(t, NextOpen(t.lanes));
    NextOther(t.lanes, i);
  }

  lemma NextOther(lanes: seq<Lane>, i: nat)
    requires i < |lanes| && !lanes[i].open
    ensures NextOpen(lanes) != i
  {
    assert NextOpen(lanes) == i ==> lanes[i].Speaks();
    hide NextOpen;
  }

  lemma ExpireTells(s: State, i: nat, now: real)
    requires Told(s) && ValidSlot(s, i)
    ensures Told(ExpireAlert(s, i, now))
  {
    hide Announced, NextOpen, SetAudible;
    var L := s.lanes[i];
    var t := s.(lanes := s.lanes[i := L.(alertUntil := -1.0, allowAudio := L.cfg.audible)]);
    StillTold(s, t, None);
    StillTold(s, t.(gate := false), None);
    SetTells(t.(gate := false), NextOpen(t.lanes));
  }

  lemma TurnTells(s: State, i: nat, now: real, r: Reading, rated: bool, floor: Option<real>, p: Params)
    requires Told(s) && ValidSlot(s, i)
    ensures Told(PollLane(s, i, now, r, rated, floor, p))
  {
    hide ExpireAlert, Meter, Decide, Announced;
    var L := s.lanes[i];
    if !(L.IsParked() || !rated || L.cfg.background || Base(L, floor).None?) {
      var base := Base(L, floor).value;
      ExpireTells(s, i, now);
      var e := ExpireAlert(s, i, now);
      MeterTells(e, i, now, r, base, p);
      DecideTells(Meter(e, i, now, r, base, p), i, now, r.slowDb, base, p);
    }
  }

  lemma MeterTells(s: State, i: nat, now: real, r: Reading, base: real, p: Params)
    requires Told(s) && ValidSlot(s, i)
    ensures Told(Meter(s, i, now, r, base, p))
  {
    hide Measure, Announced;
    StillTold(s, Meter(s, i, now, r, base, p), None);
  }

  lemma DecideTells(s: State, i: nat, now: real, db: real, base: real, p: Params)
    requires Told(s) && ValidSlot(s, i)
    ensures Told(Decide(s, i, now, db, base, p))
  {
    hide OpenLane, CloseLane, OpenEvidence, OpenDb, HangS, Announced;
    OpenTells(s, i);
    CloseTells(s, i);
  }

  lemma {:induction false} TurnsTell(s: State, k: nat, now: real, r: seq<Reading>, rated: seq<bool>,
      floor: Option<real>, p: Params)
    requires |r| == |rated| == |s.lanes| && k <= |s.lanes| && Told(s)
    ensures Told(PollUpTo(s, k, now, r, rated, floor, p))
  {
    hide PollLane, Announced;
    if k > 0 {
      TurnsTell(s, k - 1, now, r, rated, floor, p);
      TurnTells(PollUpTo(s, k - 1, now, r, rated, floor, p), k - 1, now, r[k - 1], rated[k - 1], floor, p);
    }
  }

  lemma PollTells(s: State, now: real, r: seq<Reading>, p: Params)
    requires Told(s)
    ensures Told(Poll(s, now, r, p))
  {
    hide PollUpTo, Announced, SharedFloor;
    if !s.monitor && |r| == |s.lanes| {
      var w := s.(lanes := WarmAll(s.lanes, r));
      assert forall j :: 0 <= j < |s.lanes| ==> w.lanes[j].cfg == s.lanes[j].cfg;
      TurnsTell(w, |w.lanes|, now, r, RatedAll(s.lanes), SharedFloor(w.lanes, |w.lanes|), p);
    }
  }

  lemma {:induction false} AnnouncedClosings(out: seq<Event>, lanes: seq<Lane>, k: nat)
    requires k <= |lanes|
    ensures Announced(out + Closings(lanes, k)) == Announced(out)
  {
    if k == 0 {
      assert out + Closings(lanes, 0) == out;
    } else {
      AnnouncedClosings(out, lanes, k - 1);
      var L, log := lanes[k - 1], out + Closings(lanes, k - 1);
      if !L.IsParked() && L.open {
        AnnouncedAppend(log, Close(L.cfg.id));
        assert out + Closings(lanes, k) == log + [Close(L.cfg.id)];
      } else {
        assert out + Closings(lanes, k) == log;
      }
    }
  }

  lemma TuneTells(s: State, f: real, cs: seq<ChannelCmd>, monitor: bool)
    requires Told(s)
    ensures Told(Tune(s, f, cs, monitor))
  {
    hide Announced, Slots, Closings, Truncates, SetAudible;
    AnnouncedClosings(s.out, s.lanes, |s.lanes|);
    var out := s.out + Closings(s.lanes, |s.lanes|);
    AnnouncedAppend(out, Log);
    assert out + [] == out;
    var log := out + (if Truncates(cs, |s.lanes|) then [Log] else []);
    var closed := s.(monitor := monitor, out := log);
    assert Told(closed);
    SetTells(closed, -1);
    var r := Retuned(s, f, cs, monitor);
    AnnouncedAppend(SetAudible(closed, -1).out, Tuned(f));
    assert Told(r);
    if monitor { HoldTells(r); }
  }

  lemma HoldTells(t: State)
    requires Told(t) && t.audible == -1
    ensures Told(HoldOpen(t))
  {
    hide Announced, SetAudible;
    var i := FirstAssigned(t.lanes, 0);
    if i >= 0 {
      var L := t.lanes[i].(open := true, m := t.lanes[i].m.(carrier := true, quiet := true));
      var u := t.(lanes := t.lanes[i := L], out := t.out + [Open(L.cfg.id)]);
      StillTold(t, u, Some(Open(L.cfg.id)));
      SetTells(u, i);
    }
  }

  lemma CommandTells(s: State, c: Cmd, p: Params)
    requires Told(s) && Arbitrated(s) && !c.DoPoll?
    ensures Told(Step(s, c, p))
  {
    hide Announced, Tune, CloseLane, SetAudible, Find, NextOpen;
    match c
    case DoTune(f, cs, m, cc) => TuneTells(SetCcAudible(s, cc), f, cs, m);
    case DoSkip(h, at) => SkipTells(s, h, at);
    case DoAlert(id, h, at) =>
      var i := Find(s.lanes, id, 0);
      if i >= 0 {
        var t := s.(lanes := s.lanes[i := s.lanes[i].(allowAudio := true, alertUntil := at + h)]);
        StillTold(s, t, None);
        SetTells(t, i);
      }
    case DoAssignCc(f) => if s.audible >= 0 { AudibleAssigned(s); }
  }

  lemma AudibleAssigned(s: State)
    requires Arbitrated(s) && s.audible >= 0
    ensures !s.lanes[s.audible].IsParked()
  {}

  lemma SkipTells(s: State, h: real, at: real)
    requires Told(s)
    ensures Told(Skip(s, h, at))
  {
    hide Announced, CloseLane;
    if s.audible >= 0 {
      var i := s.audible;
      var u := s.(lanes := s.lanes[i := s.lanes[i].(m := s.lanes[i].m.(txActive := false))]);
      StillTold(s, u, None);
      CloseTells(u, i);
      var t := CloseLane(u, i);
      StillTold(t, Skip(s, h, at), None);
    }
  }

  /** In every run the last announcement names the lane that has the speaker, or nobody. */
  lemma {:induction false} SpeakerIsAnnounced(n: nat, cs: seq<Cmd>, p: Params)
    ensures Told(Exec(n, cs, p))
  {
    if cs != [] {
      var k := |cs| - 1;
      var s := Exec(n, cs[..k], p);
      SpeakerIsAnnounced(n, cs[..k], p);
      EveryRun(n, cs[..k], p);
      hide Told, Poll, Step;
      if cs[k].DoPoll? {
        PollTells(s, cs[k].now, cs[k].r, p);
        PollIs(s, cs[k], p);
      } else {
        CommandTells(s, cs[k], p);
      }
    }
  }

  /** A lane's turn takes the speaker from another only if it opens with priority over it, takes it for itself
      only if it opens, and gives it up only when it closes or may no longer be heard. */
  lemma SpeakerMoves(s: State, i: nat, now: real, r: Reading, rated: bool, floor: Option<real>, p: Params)
    requires Arbitrated(s) && i < |s.lanes| && !s.monitor
    requires rated ==> s.lanes[i].warmupPolls == 0 && s.lanes[i].m.floorDb.Some?
    ensures var t := PollLane(s, i, now, r, rated, floor, p);
      var L, M := s.lanes[i], t.lanes[i];
      || t.audible == s.audible
      || (s.audible == i && !(M.open && M.allowAudio))
      || (t.audible == i && !L.open && M.open && M.allowAudio
          && (s.audible < 0 || (L.cfg.priority && !s.lanes[s.audible].cfg.priority)))
  {
    hide ExpireAlert, Meter, Decide, Measure;
    var L := s.lanes[i];
    if !(L.IsParked() || !rated || L.cfg.background || Base(L, floor).None?) {
      var base := Base(L, floor).value;
      var e := ExpireAlert(s, i, now);
      ExpireAlertKeeps(s, i, now);
      MeterKeeps(e, i, now, r, base, p);
      var m := Meter(e, i, now, r, base, p);
      ExpireMoves(s, i, now);
      DecideMoves(m, i, now, r.slowDb, base, p);
      MeterStays(e, i, now, r, base, p);
    }
  }

  lemma MeterStays(s: State, i: nat, now: real, r: Reading, base: real, p: Params)
    requires ValidSlot(s, i)
    ensures Meter(s, i, now, r, base, p).audible == s.audible
  {}

  lemma ExpireMoves(s: State, i: nat, now: real)
    requires Arbitrated(s) && i < |s.lanes|
    ensures var t := ExpireAlert(s, i, now);
      && (t.audible == s.audible
        || (s.audible == i && !t.lanes[i].allowAudio && t.lanes[i].open && t.audible != i))
      && forall j :: 0 <= j < |s.lanes| && j != i ==> t.lanes[j] == s.lanes[j]
  {
    hide NextOpen;
  }

  lemma DecideMoves(s: State, i: nat, now: real, db: real, base: real, p: Params)
    requires Arbitrated(s) && i < |s.lanes|
    ensures var t := Decide(s, i, now, db, base, p);
      var L, M := s.lanes[i], t.lanes[i];
      && (M == PARKED_LANE || (M.allowAudio == L.allowAudio && (L.open && s.audible != i ==> t.audible == s.audible)))
      && (|| t.audible == s.audible
          || (s.audible == i && !M.open)
          || (t.audible == i && !L.open && M.open && M.allowAudio
              && (s.audible < 0 || (L.cfg.priority && !s.lanes[s.audible].cfg.priority))))
  {
    hide NextOpen, OpenEvidence, OpenDb, HangS;
  }
}
