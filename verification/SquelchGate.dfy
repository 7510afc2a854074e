/** When the speaker's gate stands open. The code sets it twice: a lane's own turn in a poll asks for
    carrier, quieting and tone, a hand-over only for carrier and tone. */
module SquelchGate {
  import opened Options
  import opened SquelchSpec
  import opened SquelchInvariants
  import opened SquelchRuns

  // ---- The gate after a poll

  /** The speaker was with lane a at the end of every turn from its own on. */
  ghost predicate HeldSinceTurn(w: State, a: nat, now: real, r: seq<Reading>, rated: seq<bool>, floor: Option<real>,
      p: Params, k: nat)
    requires |r| == |rated| == |w.lanes| && a < k <= |w.lanes| && w.Sane()
  {
    forall m :: a < m <= k ==> PollUpTo(w, m, now, r, rated, floor, p).audible == a
  }

  lemma {:induction false} GateUpTo(w: State, a: nat, now: real, r: seq<Reading>, rated: seq<bool>,
      floor: Option<real>, p: Params, k: nat)
    requires |r| == |rated| == |w.lanes| && a < k <= |w.lanes| && Arbitrated(w) && !w.monitor
    requires forall i :: 0 <= i < |rated| && rated[i] ==> w.lanes[i].warmupPolls == 0 && w.lanes[i].m.floorDb.Some?
    requires w.lanes[a].open ==> rated[a] && Base(w.lanes[a], floor).Some?
    requires PollUpTo(w, k, now, r, rated, floor, p).audible == a
    ensures var t := PollUpTo(w, k, now, r, rated, floor, p);
      t.gate == (t.lanes[a].m.carrier && t.lanes[a].m.toneOk
        && (t.lanes[a].m.quiet || !HeldSinceTurn(w, a, now, r, rated, floor, p, k)))
  {
    hide PollLane;
    var s := PollUpTo(w, k - 1, now, r, rated, floor, p);
    PollUpToKeeps(w, k - 1, now, r, rated, floor, p);
    PollLaneKeeps(s, k - 1, now, r[k - 1], rated[k - 1], floor, p);
    if k - 1 == a {
      GateOwnTurn(s, a, now, r[a], rated[a], floor, p);
    } else {
      GateOtherTurn(s, k - 1, a, now, r[k - 1], rated[k - 1], floor, p);
      if s.audible == a {
        GateUpTo(w, a, now, r, rated, floor, p, k - 1);
        assert HeldSinceTurn(w, a, now, r, rated, floor, p, k) <==> HeldSinceTurn(w, a, now, r, rated, floor, p, k - 1);
      }
    }
  }

  predicate FullGate(s: State)
    requires 0 <= s.audible < |s.lanes|
  {
    s.gate == (s.lanes[s.audible].m.carrier && s.lanes[s.audible].m.toneOk && s.lanes[s.audible].m.quiet)
  }

  lemma DecideGate(s: State, i: nat, now: real, db: real, base: real, p: Params)
    requires Arbitrated(s) && i < |s.lanes|
    requires s.audible == i ==> FullGate(s)
    requires Decide(s, i, now, db, base, p).audible == i
    ensures FullGate(Decide(s, i, now, db, base, p))
  {
    hide HangS, OpenDb, NextOpen;
  }

  lemma GateOwnTurn(s: State, a: nat, now: real, r: Reading, rated: bool, floor: Option<real>, p: Params)
    requires Arbitrated(s) && !s.monitor && a < |s.lanes|
    requires s.lanes[a].open ==> rated && Base(s.lanes[a], floor).Some?
    requires PollLane(s, a, now, r, rated, floor, p).audible == a
    ensures FullGate(PollLane(s, a, now, r, rated, floor, p))
  {
    hide ExpireAlert, Meter, Decide, Measure;
    var L := s.lanes[a];
    if !(L.IsParked() || !rated || L.cfg.background || Base(L, floor).None?) {
      var base := Base(L, floor).value;
      var e := ExpireAlert(s, a, now);
      ExpireAlertKeeps(s, a, now);
      MeterKeeps(e, a, now, r, base, p);
      MeterGate(e, a, now, r, base, p);
      DecideGate(Meter(e, a, now, r, base, p), a, now, r.slowDb, base, p);
    }
  }

  lemma MeterGate(s: State, i: nat, now: real, r: Reading, base: real, p: Params)
    requires s.Sane() && i < |s.lanes|
    ensures var t := Meter(s, i, now, r, base, p);
      t.audible == s.audible && (s.audible == i ==> FullGate(t)) && (s.audible != i ==> t.gate == s.gate)
  {
    hide Measure;
  }

  lemma GateOtherTurn(s: State, i: nat, a: nat, now: real, r: Reading, rated: bool, floor: Option<real>, p: Params)
    requires Arbitrated(s) && !s.monitor && a < |s.lanes| && i < |s.lanes| && i != a
    requires rated ==> s.lanes[i].warmupPolls == 0 && s.lanes[i].m.floorDb.Some?
    requires PollLane(s, i, now, r, rated, floor, p).audible == a
    ensures var t := PollLane(s, i, now, r, rated, floor, p);
      && (s.audible == a ==> t.gate == s.gate)
      && (s.audible != a ==> t.gate == (t.lanes[a].m.carrier && t.lanes[a].m.toneOk))
  {
    hide Measure, ExpireAlert, Meter, Decide;
    var L := s.lanes[i];
    if !(L.IsParked() || !rated || L.cfg.background || Base(L, floor).None?) {
      var base := Base(L, floor).value;
      var e := ExpireAlert(s, i, now);
      var m := Meter(e, i, now, r, base, p);
      ExpireAlertKeeps(s, i, now);
      MeterKeeps(e, i, now, r, base, p);
      MeterGate(e, i, now, r, base, p);
      DecideKeeps(m, i, now, r.slowDb, base, p);
      ExpireHands(s, i, a, now);
      DecideHands(m, i, a, now, r.slowDb, base, p);
    }
  }

  /** Whoever is handed the speaker by another lane's turn gets carrier-and-tone gating. */
  ghost predicate Hands(s: State, t: State, a: nat)
    requires a < |s.lanes| == |t.lanes|
  {
    t.audible == a ==>
      (s.audible == a && t.gate == s.gate)
      || (s.audible != a && t.gate == (t.lanes[a].m.carrier && t.lanes[a].m.toneOk))
  }

  lemma ExpireHands(s: State, i: nat, a: nat, now: real)
    requires Arbitrated(s) && a < |s.lanes| && i < |s.lanes| && i != a
    ensures Hands(s, ExpireAlert(s, i, now), a) && (s.audible == a ==> ExpireAlert(s, i, now).audible == a)
  {
    hide NextOpen;
  }

  lemma DecideHands(s: State, i: nat, a: nat, now: real, db: real, base: real, p: Params)
    requires Arbitrated(s) && a < |s.lanes| && i < |s.lanes| && i != a
    ensures Hands(s, Decide(s, i, now, db, base, p), a)
  {
    hide NextOpen, OpenEvidence, HangS, OpenDb;
  }

  /** After a poll the gate is open exactly when the audible lane has carrier and tone, and
      quieting too unless it took the speaker over after its own turn in this poll. */
  lemma GateAfterPoll(s: State, now: real, r: seq<Reading>, p: Params)
    requires Arbitrated(s) && !s.monitor && |r| == |s.lanes| && Poll(s, now, r, p).audible >= 0
    ensures var w := s.(lanes := WarmAll(s.lanes, r));
      var t, a := Poll(s, now, r, p), Poll(s, now, r, p).audible;
      var floor := SharedFloor(w.lanes, |w.lanes|);
      t.gate == (t.lanes[a].m.carrier && t.lanes[a].m.toneOk
                 && (t.lanes[a].m.quiet || !HeldSinceTurn(w, a, now, r, RatedAll(s.lanes), floor, p, |s.lanes|)))
  {
    var w := s.(lanes := WarmAll(s.lanes, r));
    var a, n := Poll(s, now, r, p).audible, |s.lanes|;
    WarmKeeps(s, r);
    if w.lanes[a].open && !w.lanes[a].cfg.demod.Ssb() { SharedFloorExists(w.lanes, n, a); }
    GateUpTo(w, a, now, r, RatedAll(s.lanes), SharedFloor(w.lanes, n), p, n);
  }

  /** The late hand-over is real: lane 0 rides its hang with a carrier but no quieting, lane 1
      closes, and lane 0 gets the speaker with the gate open. */
  lemma NoisyHandover() returns (s: State, r: seq<Reading>, p: Params)
    ensures Arbitrated(s) && !s.monitor && |r| == 2
    ensures var t := Poll(s, 10.0, r, p); t.audible == 0 && t.gate && !t.lanes[0].m.quiet
  {
    p := Params(9.0, -7.0, 2000.0);
    var L := PARKED_LANE.(cfg := NO_CHANNEL.(id := Channel("a")),
      m := FRESH_METERS.(carrier := true, floorDb := Some(-60.0)), open := true, above := 10);
    s := State([L, L.(cfg := L.cfg.(id := Channel("b")), m := L.m.(quiet := true), belowSince := 7.0)], 1, true,
      false, map[], None, []);
    r := [Reading(-40.0, -40.0, 0.0, true, None, None), Reading(-60.0, -60.0, 0.0, true, None, None)];
    var w := s.(lanes := WarmAll(s.lanes, r));
    assert w.lanes == s.lanes;
    assert RatedAll(s.lanes) == [true, true];
    assert SharedFloor(w.lanes, 0) == None;
    assert SharedFloor(w.lanes, 1) == Some(-60.0);
    assert SharedFloor(w.lanes, 2) == Some(-60.0);
    var s1 := PollLane(w, 0, 10.0, r[0], true, Some(-60.0), p);
    assert s1 == PollUpTo(w, 1, 10.0, r, [true, true], Some(-60.0), p) by {
      assert PollUpTo(w, 0, 10.0, r, [true, true], Some(-60.0), p) == w;
    }
    assert s1.audible == 1 && s1.lanes[0].m.carrier && !s1.lanes[0].m.quiet && s1.lanes[0].open
      && s1.lanes[1] == s.lanes[1];
  }

  // ---- The gate after commands, and in every run

  predicate CarrierAndTone(s: State)
    requires 0 <= s.audible < |s.lanes|
  {
    s.lanes[s.audible].m.carrier && s.lanes[s.audible].m.toneOk
  }

  /** A skip takes the speaker from its lane; whoever gets it is gated by carrier and tone alone. */
  lemma GateAfterSkip(s: State, holdoffS: real, now: real)
    requires Arbitrated(s)
    ensures var t := Skip(s, holdoffS, now);
      && (s.audible < 0 ==> t == s)
      && (s.audible >= 0 ==> t.audible != s.audible && t.gate == (t.audible >= 0 && CarrierAndTone(t)))
  {
    SkipKeeps(s, holdoffS, now);
    hide NextOpen;
  }

  /** An alert that moves the speaker gates it by carrier and tone; any other leaves the gate be. */
  lemma GateAfterAlert(s: State, id: LaneId, holdS: real, now: real)
    requires Arbitrated(s)
    ensures var t := AlertUnmute(s, id, holdS, now);
      if t.audible == s.audible then t.gate == s.gate && forall j :: 0 <= j < |s.lanes| ==> t.lanes[j].m == s.lanes[j].m
      else t.audible >= 0 && t.gate == CarrierAndTone(t)
  {
    hide Find;
  }

  lemma GateAfterAssign(s: State, f: int)
    requires Arbitrated(s)
    ensures var t := AssignCc(s, f);
      t.audible == s.audible && t.gate == s.gate && (s.audible >= 0 ==> t.lanes[s.audible] == s.lanes[s.audible])
  {
    hide Find;
  }

  /** A skip can hand the speaker, gate open, to a lane that is not quieted. */
  lemma NoisySkip() returns (s: State)
    ensures Arbitrated(s) && !s.monitor
    ensures var t := Skip(s, 1.0, 10.0); t.audible == 0 && t.gate && !t.lanes[0].m.quiet
  {
    var L := PARKED_LANE.(cfg := NO_CHANNEL.(id := Channel("a")),
      m := FRESH_METERS.(carrier := true, floorDb := Some(-60.0)), open := true, above := 10);
    s := State([L, L.(cfg := L.cfg.(id := Channel("b")))], 1, false, false, map[], None, []);
    assert Skip(s, 1.0, 10.0).lanes[0] == L;
  }

  /** Has the speaker stayed with its lane ever since that lane's own last turn in a poll? */
  ghost predicate OwnedSinceTurn(n: nat, cs: seq<Cmd>, p: Params) {
    if cs == [] then true
    else
      var k := |cs| - 1;
      var s, t := Exec(n, cs[..k], p), Exec(n, cs, p);
      match cs[k]
      case DoPoll(now, r) =>
        if s.monitor || |r| != n || t.audible < 0 then OwnedSinceTurn(n, cs[..k], p)
        else
          var w := s.(lanes := WarmAll(s.lanes, r));
          HeldSinceTurn(w, t.audible, now, r, RatedAll(s.lanes), SharedFloor(w.lanes, n), p, n)
      case _ => t.audible == s.audible && OwnedSinceTurn(n, cs[..k], p)
  }

  predicate Gated(s: State, owned: bool)
    requires s.Sane()
  {
    !s.monitor ==> s.gate == (s.audible >= 0 && CarrierAndTone(s) && (s.lanes[s.audible].m.quiet || !owned))
  }

  lemma GateAfterCommand(s: State, c: Cmd, p: Params, owned: bool)
    requires Arbitrated(s) && Gated(s, owned) && !c.DoPoll?
    ensures var t := Step(s, c, p); Gated(t, t.audible == s.audible && owned)
  {
    hide Tune, Skip, AlertUnmute, AssignCc, Arbitrated;
    match c
    case DoTune(f, channels, m, cc) =>
      RangesKeep(s, cc);
      TuneKeeps(SetCcAudible(s, cc), f, channels, m);
    case DoSkip(h, now) => GateAfterSkip(s, h, now); SkipKeeps(s, h, now);
    case DoAlert(id, h, now) => GateAfterAlert(s, id, h, now); AlertUnmuteKeeps(s, id, h, now);
    case DoAssignCc(f) => GateAfterAssign(s, f); AssignCcKeeps(s, f);
  }

  /** In every run outside weather-only, the gate is open exactly when the audible lane has carrier and tone,
      and quieting too -- unless the speaker changed hands since that lane's own last turn. */
  lemma {:induction false} GateInEveryRun(n: nat, cs: seq<Cmd>, p: Params)
    ensures Gated(Exec(n, cs, p), OwnedSinceTurn(n, cs, p))
  {
    if cs != [] {
      var k := |cs| - 1;
      var s := Exec(n, cs[..k], p);
      GateInEveryRun(n, cs[..k], p);
      hide Step, Gated;
      if !cs[k].DoPoll? {
        EveryRun(n, cs[..k], p);
        GateAfterCommand(s, cs[k], p, OwnedSinceTurn(n, cs[..k], p));
      } else if s.monitor || |cs[k].r| != n {
        PollIgnored(s, cs[k], p);
      } else {
        GatePolled(n, cs, p);
      }
    } else {
      hide OwnedSinceTurn;
    }
  }

  lemma PollIgnored(s: State, c: Cmd, p: Params)
    requires s.Sane() && c.DoPoll? && (s.monitor || |c.r| != |s.lanes|)
    ensures Step(s, c, p) == s
  {}

  lemma GatePolled(n: nat, cs: seq<Cmd>, p: Params)
    requires cs != [] && cs[|cs| - 1].DoPoll? && !Exec(n, cs[..|cs| - 1], p).monitor && |cs[|cs| - 1].r| == n
    ensures Gated(Exec(n, cs, p), OwnedSinceTurn(n, cs, p))
  {
    hide Poll, Arbitrated;
    var k := |cs| - 1;
    var s, t := Exec(n, cs[..k], p), Exec(n, cs, p);
    EveryRun(n, cs[..k], p);
    EveryRun(n, cs, p);
    if t.audible >= 0 { GateAfterPoll(s, cs[k].now, cs[k].r, p); } else { SilentGate(t); }
  }

  lemma SilentGate(s: State)
    requires Arbitrated(s) && s.audible < 0
    ensures !s.gate
  {}
}
