/** What every Scanner command keeps: the speaker is always with a lane that may speak, a
    priority lane is never outranked, and the event log opens and closes each lane in turn. */
module SquelchInvariants {
  import opened Options
  import opened SquelchSpec

  // ---- Arbitration

  predicate WellLane(L: Lane, monitor: bool) {
    && (L.IsParked() ==> !L.open)
    && (L.open && !monitor ==> !L.cfg.background && L.warmupPolls == 0 && L.m.floorDb.Some?)
    && (!L.open ==> L.above < OPEN_POLLS)
    && (L.alertUntil >= 0.0 ==> L.allowAudio)
  }

  /** The arbitration invariant of every reachable state. */
  ghost predicate Arbitrated(s: State): (b: bool)
    ensures b ==> s.Sane()
  {
    && s.Sane()
    && (forall j :: 0 <= j < |s.lanes| ==> WellLane(s.lanes[j], s.monitor))
    && (s.audible >= 0 ==> s.lanes[s.audible].open && (s.monitor || s.lanes[s.audible].allowAudio))
    && (s.audible < 0 ==> forall j :: 0 <= j < |s.lanes| ==> !s.lanes[j].Speaks())
    && (s.gate ==> s.audible >= 0 && s.lanes[s.audible].m.carrier && s.lanes[s.audible].m.toneOk)
  }

  /** No priority lane that may speak waits behind an ordinary one. */
  ghost predicate Ranked(s: State)
    requires s.Sane()
  {
    s.audible >= 0 && !s.lanes[s.audible].cfg.priority ==> forall j :: 0 <= j < |s.lanes| && s.lanes[j].Speaks() ==>
      !s.lanes[j].cfg.priority
  }

  ghost predicate NoAlert(s: State) { forall j :: 0 <= j < |s.lanes| ==> s.lanes[j].alertUntil < 0.0 }

  /** What a turn of lane i keeps: arbitration, rank without alerts, and every other lane. */
  ghost predicate Turn(s: State, t: State, i: int) {
    && Arbitrated(t) && t.monitor == s.monitor && |t.lanes| == |s.lanes|
    && (forall j :: 0 <= j < |s.lanes| && j != i ==> t.lanes[j] == s.lanes[j])
    && (s.Sane() && NoAlert(s) && Ranked(s) ==> NoAlert(t) && Ranked(t))
  }

  lemma CloseLaneKeeps(s: State, i: int)
    requires Arbitrated(s) && 0 <= i < |s.lanes| && s.lanes[i].open
    ensures Turn(s, CloseLane(s, i), i) && (Ranked(s) ==> Ranked(CloseLane(s, i)))
  {
    hide NextOpen, Ranked;
    var L := s.lanes[i].(open := false, above := 0, belowSince := -1.0);
    var t := s.(lanes := s.lanes[i := L], out := s.out + [Close(L.cfg.id)]);
    var u := if t.audible == i then SetAudible(t, NextOpen(t.lanes)) else t;
    HandOnKeeps(s, t, i);
    if L.cfg.id.CloseCall? { FreeKeeps(u, i); }
  }

  lemma HandOnKeeps(s: State, t: State, i: int)
    requires Arbitrated(s) && 0 <= i < |s.lanes| && s.lanes[i].open
    requires t == s.(lanes := s.lanes[i := s.lanes[i].(open := false, above := 0, belowSince := -1.0)], out := t.out)
    ensures var u := if t.audible == i then SetAudible(t, NextOpen(t.lanes)) else t;
      Turn(s, u, i) && (Ranked(s) ==> Ranked(u)) && !u.lanes[i].open
  {
    hide NextOpen;
  }

  /** Freeing a closed slot disturbs nothing. */
  lemma FreeKeeps(u: State, i: int)
    requires Arbitrated(u) && 0 <= i < |u.lanes| && !u.lanes[i].open
    ensures var v := u.(lanes := u.lanes[i := PARKED_LANE]);
      Turn(u, v, i) && (Ranked(u) ==> Ranked(v)) && (NoAlert(u) ==> NoAlert(v))
  {}

  lemma OpenLaneKeeps(s: State, i: int)
    requires Arbitrated(s) && 0 <= i < |s.lanes| && !s.lanes[i].open && !s.lanes[i].IsParked()
    requires !s.lanes[i].cfg.background && s.lanes[i].warmupPolls == 0 && s.lanes[i].m.floorDb.Some?
    ensures Turn(s, OpenLane(s, i), i)
  {}

  lemma ExpireAlertKeeps(s: State, i: int, now: real)
    requires Arbitrated(s) && 0 <= i < |s.lanes| && !s.monitor
    ensures Turn(s, ExpireAlert(s, i, now), i)
    ensures var L, M := s.lanes[i], ExpireAlert(s, i, now).lanes[i];
      M == L.(alertUntil := M.alertUntil, allowAudio := M.allowAudio)
  {
    hide NextOpen;
    var L := s.lanes[i];
    if L.alertUntil >= 0.0 && now >= L.alertUntil {
      var t := s.(lanes := s.lanes[i := L.(alertUntil := -1.0, allowAudio := L.cfg.audible)]);
      assert forall j :: 0 <= j < |s.lanes| ==> WellLane(t.lanes[j], t.monitor);
    }
  }

  lemma MeterKeeps(s: State, i: int, now: real, r: Reading, base: real, p: Params)
    requires Arbitrated(s) && 0 <= i < |s.lanes|
    ensures Turn(s, Meter(s, i, now, r, base, p), i)
    ensures Meter(s, i, now, r, base, p).lanes[i] == s.lanes[i].(m := Measure(s.lanes[i], now, r, base, p))
    ensures s.lanes[i].m.floorDb.Some? ==> Meter(s, i, now, r, base, p).lanes[i].m.floorDb.Some?
  {
    hide Measure;
  }

  lemma DecideKeeps(s: State, i: int, now: real, db: real, base: real, p: Params)
    requires Arbitrated(s) && 0 <= i < |s.lanes| && !s.lanes[i].IsParked() && !s.monitor
    requires !s.lanes[i].cfg.background && s.lanes[i].warmupPolls == 0 && s.lanes[i].m.floorDb.Some?
    ensures Turn(s, Decide(s, i, now, db, base, p), i)
  {
    hide OpenLane, CloseLane, OpenEvidence, HangS, OpenDb, Turn, Arbitrated;
    var L := s.lanes[i];
    if !L.open {
      if L.above + 1 < OPEN_POLLS { TallyKeeps(s, i, L.(above := L.above + 1)); }
      TallyKeeps(s, i, L.(above := 0));
      OpenLaneKeeps(s, i);
    } else {
      TallyKeeps(s, i, L.(belowSince := now));
      TallyKeeps(s, i, L.(belowSince := -1.0));
      TallyKeeps(s, i, L);
      CloseLaneKeeps(s, i);
    }
  }

  /** Counting evidence moves no speaker. */
  lemma TallyKeeps(s: State, i: int, L: Lane)
    requires Arbitrated(s) && 0 <= i < |s.lanes|
    requires L == s.lanes[i].(above := L.above, belowSince := L.belowSince) && (L.above < OPEN_POLLS || L.open)
    ensures Turn(s, s.(lanes := s.lanes[i := L]), i)
    ensures L == s.lanes[i] ==> s.(lanes := s.lanes[i := L]) == s
  {
    assert L == s.lanes[i] ==> s.lanes[i := L] == s.lanes;
  }

  lemma PollLaneKeeps(s: State, i: int, now: real, r: Reading, rated: bool, floor: Option<real>, p: Params)
    requires Arbitrated(s) && 0 <= i < |s.lanes| && !s.monitor
    requires rated ==> s.lanes[i].warmupPolls == 0 && s.lanes[i].m.floorDb.Some?
    ensures Turn(s, PollLane(s, i, now, r, rated, floor, p), i)
  {
    hide ExpireAlert, Meter, Decide, Measure;
    var L := s.lanes[i];
    if !(L.IsParked() || !rated || L.cfg.background || Base(L, floor).None?) {
      var base := Base(L, floor).value;
      var e := ExpireAlert(s, i, now);
      var m := Meter(e, i, now, r, base, p);
      ExpireAlertKeeps(s, i, now);
      MeterKeeps(e, i, now, r, base, p);
      DecideKeeps(m, i, now, r.slowDb, base, p);
      TurnTurn(s, e, m, i);
      TurnTurn(s, m, Decide(m, i, now, r.slowDb, base, p), i);
    } else {
      NoTurn(s, i);
    }
  }

  lemma NoTurn(s: State, i: int)
    requires Arbitrated(s)
    ensures Turn(s, s, i)
  {}

  lemma TurnTurn(s: State, t: State, u: State, i: int)
    requires Arbitrated(s) && Turn(s, t, i) && Turn(t, u, i)
    ensures Turn(s, u, i)
  {
    hide Ranked, NoAlert;
  }

  /** A rated lane has its noise floor, so no lane is passed over for want of a threshold. */
  lemma RatedHasFloor(s: State, r: seq<Reading>, i: int)
    requires |r| == |s.lanes| && 0 <= i < |s.lanes| && Rated(s.lanes[i])
    ensures WarmAll(s.lanes, r)[i].m.floorDb.Some? && WarmAll(s.lanes, r)[i].warmupPolls == 0
  {}

  lemma {:induction false} PollUpToKeeps(s: State, k: nat, now: real, r: seq<Reading>, rated: seq<bool>,
      floor: Option<real>, p: Params)
    requires |r| == |rated| == |s.lanes| && k <= |s.lanes|
    requires Arbitrated(s) && !s.monitor
    requires forall i :: 0 <= i < |rated| && rated[i] ==> s.lanes[i].warmupPolls == 0 && s.lanes[i].m.floorDb.Some?
    ensures var t := PollUpTo(s, k, now, r, rated, floor, p);
      && Arbitrated(t) && !t.monitor
      && (NoAlert(s) && Ranked(s) ==> NoAlert(t) && Ranked(t))
      && (forall j :: k <= j < |s.lanes| ==> t.lanes[j] == s.lanes[j])
  {
    hide PollLane, Arbitrated, Ranked, NoAlert;
    if k > 0 {
      PollUpToKeeps(s, k - 1, now, r, rated, floor, p);
      PollLaneKeeps(PollUpTo(s, k - 1, now, r, rated, floor, p), k - 1, now, r[k - 1], rated[k - 1], floor, p);
    }
  }

  /** Warming touches only the countdown and the floor. */
  lemma WarmTouches(L: Lane, db: real)
    ensures var M := Warm(L, db);
      && M == L.(warmupPolls := M.warmupPolls, m := L.m.(floorDb := M.m.floorDb))
      && M.warmupPolls <= L.warmupPolls
      && (L.m.floorDb.Some? ==> M.m.floorDb.Some?)
      && (Rated(L) ==> M.m.floorDb.Some?)
  {
    hide Track;
  }

  lemma WarmKeeps(s: State, r: seq<Reading>)
    requires Arbitrated(s) && |r| == |s.lanes|
    ensures var w := s.(lanes := WarmAll(s.lanes, r));
      Arbitrated(w) && (NoAlert(s) ==> NoAlert(w)) && (Ranked(s) ==> Ranked(w))
    ensures forall i :: 0 <= i < |s.lanes| && RatedAll(s.lanes)[i] ==>
      WarmAll(s.lanes, r)[i].warmupPolls == 0 && WarmAll(s.lanes, r)[i].m.floorDb.Some?
  {
    hide Warm;
    forall i | 0 <= i < |s.lanes|
      ensures var L, M := s.lanes[i], WarmAll(s.lanes, r)[i];
        M == L.(warmupPolls := M.warmupPolls, m := L.m.(floorDb := M.m.floorDb)) && M.warmupPolls <= L.warmupPolls
        && (L.m.floorDb.Some? || Rated(L) ==> M.m.floorDb.Some?)
    {
      WarmTouches(s.lanes[i], r[i].slowDb);
    }
  }

  /** A poll keeps the speaker where it may be, and without alert pull-ins keeps priority on top. */
  lemma PollKeeps(s: State, now: real, r: seq<Reading>, p: Params)
    requires Arbitrated(s)
    ensures Arbitrated(Poll(s, now, r, p)) && Poll(s, now, r, p).monitor == s.monitor
    ensures NoAlert(s) && Ranked(s) ==> NoAlert(Poll(s, now, r, p)) && Ranked(Poll(s, now, r, p))
  {
    hide PollUpTo, WarmAll, SharedFloor, Arbitrated, Ranked, NoAlert;
    if !s.monitor && |r| == |s.lanes| {
      WarmKeeps(s, r);
      var w := s.(lanes := WarmAll(s.lanes, r));
      PollUpToKeeps(w, |s.lanes|, now, r, RatedAll(s.lanes), SharedFloor(w.lanes, |w.lanes|), p);
    }
  }

  /** New Close Call ranges bear on later hits only. */
  lemma RangesKeep(s: State, ranges: Option<seq<(real, real)>>)
    ensures Arbitrated(SetCcAudible(s, ranges)) == Arbitrated(s)
  {}

  /** A Close Call hit may speak, and pre-empt, exactly if the ranges in force hold its frequency. */
  lemma HitFollowsRanges(s: State, f: int)
    requires s.Sane() && Find(s.lanes, Parked, 0) >= 0
    ensures var L := AssignCc(s, f).lanes[Find(s.lanes, Parked, 0)];
      var ok := s.ccAudible.Some? ==> InRanges(f, s.ccAudible.value);
      L.cfg.id == CloseCall(f) && L.allowAudio == ok && L.cfg.priority == ok
  {}

  lemma TuneKeeps(s: State, centerHz: real, channels: seq<ChannelCmd>, monitor: bool)
    requires Arbitrated(s)
    ensures var t := Tune(s, centerHz, channels, monitor);
      Arbitrated(t) && t.monitor == monitor && Ranked(t) && NoAlert(t)
      && (!monitor ==> t.audible < 0 && !t.gate && forall j :: 0 <= j < |t.lanes| ==> !t.lanes[j].open)
  {}

  lemma EndTxKeeps(s: State, i: int)
    requires Arbitrated(s) && 0 <= i < |s.lanes|
    ensures var u := s.(lanes := s.lanes[i := s.lanes[i].(m := s.lanes[i].m.(txActive := false))]);
      Turn(s, u, i) && (Ranked(s) ==> Ranked(u)) && (NoAlert(s) ==> NoAlert(u))
  {}

  lemma CloseLaneCloses(s: State, i: int)
    requires s.Sane() && 0 <= i < |s.lanes|
    ensures !CloseLane(s, i).lanes[i].open
    ensures NoAlert(s) ==> NoAlert(CloseLane(s, i))
  {
    hide NextOpen;
  }

  lemma SkipKeeps(s: State, holdoffS: real, now: real)
    requires Arbitrated(s)
    ensures var t := Skip(s, holdoffS, now);
      Arbitrated(t) && t.monitor == s.monitor && (Ranked(s) ==> Ranked(t)) && (NoAlert(s) ==> NoAlert(t))
      && (s.audible >= 0 ==> !t.lanes[s.audible].open)
  {
    hide NextOpen;
    if s.audible >= 0 {
      var i := s.audible;
      var u := s.(lanes := s.lanes[i := s.lanes[i].(m := s.lanes[i].m.(txActive := false))]);
      EndTxKeeps(s, i);
      CloseLaneKeeps(u, i);
      CloseLaneCloses(u, i);
      hide CloseLane;
    }
  }

  lemma AlertUnmuteKeeps(s: State, id: LaneId, holdS: real, now: real)
    requires Arbitrated(s)
    ensures Arbitrated(AlertUnmute(s, id, holdS, now)) && AlertUnmute(s, id, holdS, now).monitor == s.monitor
  {}

  lemma AssignCcKeeps(s: State, f: int)
    requires Arbitrated(s)
    ensures var t := AssignCc(s, f);
      Arbitrated(t) && t.monitor == s.monitor && (Ranked(s) ==> Ranked(t)) && (NoAlert(s) ==> NoAlert(t))
  {}

  lemma {:induction false} SharedFloorExists(lanes: seq<Lane>, n: nat, i: nat)
    requires i < n <= |lanes| && Wide(lanes[i])
    ensures SharedFloor(lanes, n).Some?
  {
    if i < n - 1 { SharedFloorExists(lanes, n - 1, i); }
  }
}
