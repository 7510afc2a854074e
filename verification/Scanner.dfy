/** The Scanner itself: one object whose commands and polls update its lanes, the speaker owner
    and the gate in place. Every method is proved to make exactly the step of `SquelchSpec`. */
module ScannerClass {
  import opened Options
  import opened SquelchSpec

  class Scanner {
    const p: Params
    var lanes: seq<Lane>
    var audible: int
    var gate: bool
    var monitor: bool
    var skipById: map<LaneId, real>
    var ccAudible: Option<seq<(real, real)>>
    var out: seq<Event>                      // the events emitted so far

    ghost function Now(): State
      reads this
    {
      State(lanes, audible, gate, monitor, skipById, ccAudible, out)
    }

    ghost predicate Valid()
      reads this
    {
      Now().Sane()
    }

    constructor (p: Params, slots: nat)
      requires 1 <= slots <= 64
      ensures Valid() && this.p == p
      ensures Now() == State(seq(slots, _ => PARKED_LANE), -1, false, false, map[], None, [])
    {
      this.p := p;
      lanes := seq(slots, _ => PARKED_LANE);
      audible, gate, monitor := -1, false, false;
      skipById, ccAudible, out := map[], None, [];
    }

    method Emit(e: Event)
      modifies this`out
      ensures out == old(out) + [e]
    {
      out := out + [e];
    }

    method SetAudibleTo(i: int)
      requires Valid() && -1 <= i < |lanes|
      modifies this`audible, this`gate, this`out
      ensures Valid() && Now() == SetAudible(old(Now()), i)
    {
      if audible == i { return; }
      audible := i;
      gate := i >= 0 && lanes[i].m.carrier && lanes[i].m.toneOk;
      Emit(Audible(if i >= 0 then Some(lanes[i].cfg.id) else None));
    }

    /** The scan for the next speaker: the first priority lane found ends it. */
    method NextSpeaker() returns (best: int)
      requires Valid()
      ensures best == NextOpen(lanes)
    {
      best := -1;
      for i := 0 to |lanes|
        invariant -1 <= best < |lanes|
        invariant best >= 0 ==> best < i && lanes[best].Speaks()
        invariant forall j :: 0 <= j < i && lanes[j].Speaks() ==> !lanes[j].cfg.priority
        invariant forall j :: 0 <= j < (if best < 0 then i else best) ==> !lanes[j].Speaks()
      {
        if lanes[i].Speaks() {
          if lanes[i].cfg.priority { return i; }
          if best < 0 { best := i; }
        }
      }
    }

    method DoOpenLane(i: int)
      requires Valid() && 0 <= i < |lanes|
      modifies this
      ensures Valid() && Now() == OpenLane(old(Now()), i)
    {
      lanes := lanes[i := lanes[i].(open := true, belowSince := -1.0, above := lanes[i].above + 1)];
      Emit(Open(lanes[i].cfg.id));
      if !lanes[i].allowAudio {
        // see-only: reported, never heard
      } else if audible < 0 {
        SetAudibleTo(i);
      } else if lanes[i].cfg.priority && !lanes[audible].cfg.priority {
        SetAudibleTo(i);
      }
    }

    method DoCloseLane(i: int)
      requires Valid() && 0 <= i < |lanes|
      modifies this
      ensures Valid() && Now() == CloseLane(old(Now()), i)
    {
      lanes := lanes[i := lanes[i].(open := false, above := 0, belowSince := -1.0)];
      Emit(Close(lanes[i].cfg.id));
      if audible == i {
        var next := NextSpeaker();
        SetAudibleTo(next);
      }
      if lanes[i].cfg.id.CloseCall? { lanes := lanes[i := PARKED_LANE]; }
    }

    method ExpireLaneAlert(i: int, now: real)
      requires Valid() && 0 <= i < |lanes|
      modifies this
      ensures Valid() && Now() == ExpireAlert(old(Now()), i, now)
    {
      var L := lanes[i];
      if L.alertUntil >= 0.0 && now >= L.alertUntil {
        lanes := lanes[i := L.(alertUntil := -1.0, allowAudio := L.cfg.audible)];
        if !L.cfg.audible && audible == i {
          gate := false;
          var next := NextSpeaker();
          SetAudibleTo(next);
        }
      }
    }

    /** One lane's turn in the second pass of a poll. */
    method DoPollLane(i: int, now: real, r: Reading, rated: bool, floor: Option<real>)
      requires Valid() && 0 <= i < |lanes|
      modifies this
      ensures Valid() && Now() == PollLane(old(Now()), i, now, r, rated, floor, p)
    {
      hide Measure, NextOpen;
      if lanes[i].IsParked() || !rated || lanes[i].cfg.background { return; }
      var b := Base(lanes[i], floor);
      if b.None? { return; }
      var base, db := b.value, r.slowDb;
      ExpireLaneAlert(i, now);
      var m := Measure(lanes[i], now, r, base, p);
      lanes := lanes[i := lanes[i].(m := m)];
      if audible == i { gate := m.carrier && m.quiet && m.toneOk; }
      DecideLane(i, now, db, base);
    }

    method DecideLane(i: int, now: real, db: real, base: real)
      requires Valid() && 0 <= i < |lanes|
      modifies this
      ensures Valid() && Now() == Decide(old(Now()), i, now, db, base, p)
    {
      hide OpenLane, CloseLane;
      var L := lanes[i];
      if !L.open {
        if OpenEvidence(L, now, db, base, p) {
          if L.above + 1 >= OPEN_POLLS {
            DoOpenLane(i);
          } else {
            lanes := lanes[i := L.(above := L.above + 1)];
          }
        } else {
          lanes := lanes[i := L.(above := 0)];
        }
      } else if db < base + OpenDb(L, p) - CLOSE_HYST_DB || !L.m.quiet {
        if L.belowSince < 0.0 {
          lanes := lanes[i := L.(belowSince := now)];
        } else if now - L.belowSince >= HangS(L, p) {
          DoCloseLane(i);
        }
      } else {
        lanes := lanes[i := L.(belowSince := -1.0)];
      }
    }

    method DoPoll(now: real, r: seq<Reading>)
      requires Valid()
      modifies this
      ensures Valid() && Now() == Poll(old(Now()), now, r, p)
    {
      hide Warm, PollLane;
      if monitor || |r| != |lanes| { return; }
      ghost var s0 := Now();
      var n, rated, floor := |lanes|, RatedAll(lanes), None;
      for i := 0 to n
        invariant |lanes| == n && Now() == s0.(lanes := lanes)
        invariant forall j :: 0 <= j < n ==> lanes[j] == if j < i then Warm(s0.lanes[j], r[j].slowDb) else s0.lanes[j]
      {
        lanes := lanes[i := Warm(lanes[i], r[i].slowDb)];
      }
      assert lanes == WarmAll(s0.lanes, r);
      ghost var w := s0.(lanes := lanes);
      for i := 0 to n
        invariant floor == SharedFloor(lanes, i)
      {
        if Wide(lanes[i]) && (floor.None? || floor.value > lanes[i].m.floorDb.value) { floor := lanes[i].m.floorDb; }
      }
      for i := 0 to n
        invariant |lanes| == n && Valid()
        invariant Now() == PollUpTo(w, i, now, r, rated, floor, p)
      {
        DoPollLane(i, now, r[i], rated[i], floor);
      }
    }

    method DoSetCcAudible(ranges: Option<seq<(real, real)>>)
      requires Valid()
      modifies this`ccAudible
      ensures Valid() && Now() == SetCcAudible(old(Now()), ranges)
    {
      ccAudible := ranges;
    }

    method DoTune(centerHz: real, channels: seq<ChannelCmd>, monitored: bool)
      requires Valid()
      modifies this
      ensures Valid() && Now() == Tune(old(Now()), centerHz, channels, monitored)
    {
      hide Slots, Truncates, Closings, HoldOpen;
      ghost var s0 := Now();
      var n := |lanes|;
      CloseAll();
      ghost var log := if Truncates(channels, n) then [Log] else [];
      if Truncates(channels, n) { Emit(Log); }
      assert out == s0.out + Closings(s0.lanes, n) + log;
      monitor := monitored;
      SetAudibleTo(-1);
      lanes := Slots(channels, n, skipById);
      Emit(Tuned(centerHz));
      assert Now() == Retuned(s0, centerHz, channels, monitored);
      if monitored { HoldFirst(); }
    }

    /** Reports every open lane closed, before the slots are reassigned. */
    method CloseAll()
      modifies this`out
      ensures out == old(out) + Closings(lanes, |lanes|)
    {
      for i := 0 to |lanes|
        invariant out == old(out) + Closings(lanes, i)
      {
        if !lanes[i].IsParked() && lanes[i].open { Emit(Close(lanes[i].cfg.id)); }
      }
    }

    /** Weather-only: the first assigned lane is held open. */
    method HoldFirst()
      requires Valid()
      modifies this
      ensures Valid() && Now() == HoldOpen(old(Now()))
    {
      var i := FirstAssigned(lanes, 0);
      if i >= 0 {
        lanes := lanes[i := lanes[i].(open := true, m := lanes[i].m.(carrier := true, quiet := true))];
        Emit(Open(lanes[i].cfg.id));
        SetAudibleTo(i);
        gate := true;
      }
    }

    method DoSkip(holdoffS: real, now: real) returns (cc: int)
      requires Valid()
      modifies this
      ensures Valid() && Now() == Skip(old(Now()), holdoffS, now)
      ensures cc == if old(audible) >= 0 && old(lanes[audible].cfg.id.CloseCall?) then
        old(lanes[audible].cfg.id.freqHz) else 0
    {
      hide CloseLane;
      if audible < 0 { return 0; }
      var i := audible;
      var id := lanes[i].cfg.id;
      lanes := lanes[i := lanes[i].(m := lanes[i].m.(txActive := false))];
      DoCloseLane(i);
      if id.CloseCall? { return id.freqHz; }
      lanes := lanes[i := lanes[i].(skipUntil := now + holdoffS)];
      skipById := Unexpired(skipById, now)[id := now + holdoffS];
      return 0;
    }

    method DoAlertUnmute(id: LaneId, holdS: real, now: real)
      requires Valid()
      modifies this
      ensures Valid() && Now() == AlertUnmute(old(Now()), id, holdS, now)
    {
      var i := Find(lanes, id, 0);
      if i >= 0 && !id.Parked? {
        lanes := lanes[i := lanes[i].(allowAudio := true, alertUntil := now + holdS)];
        if lanes[i].open { SetAudibleTo(i); }
      }
    }

    method DoAssignCc(freqHz: int) returns (slot: int)
      requires Valid()
      modifies this
      ensures Valid() && Now() == AssignCc(old(Now()), freqHz)
      ensures slot == Find(old(lanes), Parked, 0)
    {
      slot := Find(lanes, Parked, 0);
      if slot >= 0 {
        lanes := lanes[slot := Assigned(CloseCallCmd(freqHz, ccAudible), skipById)];
      }
    }
  }
}
