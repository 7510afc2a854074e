/** What each scanner command does to the slots, the speaker and the holdoffs, said of their fields. */
module SquelchCommands {
  import opened Options
  import opened SquelchSpec
  import opened SquelchLog

  // ---- tune: who gets which slot

  /** How many of the first k channels are background channels, or are not. */
  function RankBefore(cs: seq<ChannelCmd>, k: nat, background: bool): nat
    requires k <= |cs|
  {
    if k == 0 then 0 else RankBefore(cs, k - 1, background) + if cs[k - 1].background == background then 1 else 0
  }

  predicate HasBackground(cs: seq<ChannelCmd>) { exists k :: 0 <= k < |cs| && cs[k].background }

  /** Slot j of n is for channel k: the first background channel has the last slot to itself, the others fill
      the slots before it in list order. */
  predicate GetsSlot(cs: seq<ChannelCmd>, n: nat, k: nat, j: nat)
    requires k < |cs|
  {
    if cs[k].background then RankBefore(cs, k, true) == 0 && j == n - 1
    else RankBefore(cs, k, false) == j && j < if HasBackground(cs) then n - 1 else n
  }

  /** A lane just assigned to a channel: closed, unmeasured, warming up, with the channel's own settings and
      what is left of a holdoff. Sub-audible squelch is for FM alone, a DCS code before a tone. */
  predicate Carries(L: Lane, c: ChannelCmd, skipById: map<LaneId, real>) {
    && L.cfg.id == c.id && L.cfg.freqHz == c.freqHz && L.cfg.priority == c.priority && L.cfg.demod == c.demod
    && L.cfg.audible == c.audible && L.cfg.background == c.background
    && L.cfg.openDb == c.openDb && L.cfg.hangMs == c.hangMs
    && (var fm := c.demod == Fm && !c.background;
        && L.cfg.dcs == (if fm then c.dcs else None)
        && L.cfg.ctcssHz == (if fm && c.dcs == None then c.ctcssHz else None))
    && !L.open && L.above == 0 && L.belowSince == -1.0 && L.warmupPolls == 50
    && L.m.floorDb == None && !L.m.carrier && !L.m.quiet && L.m.carrierSeen == -1.0
    && L.m.toneSeen == -1.0 && L.m.toneOk && !L.m.txActive
    && L.allowAudio == c.audible && L.alertUntil == -1.0
    && L.skipUntil == (if c.id in skipById then skipById[c.id] else 0.0)
  }

  lemma AssignedCarries(c: ChannelCmd, skipById: map<LaneId, real>)
    ensures Carries(Assigned(c, skipById), c, skipById)
  {}

  lemma {:induction false} RankOfRest(cs: seq<ChannelCmd>, k: nat, b: bool)
    requires 0 < k <= |cs|
    ensures RankBefore(cs, k, b) == RankBefore(cs[1..], k - 1, b) + if cs[0].background == b then 1 else 0
  {
    if k > 1 {
      RankOfRest(cs, k - 1, b);
      assert cs[1..][k - 2] == cs[k - 1];
    } else {
      assert RankBefore(cs, 1, b) == RankBefore(cs, 0, b) + if cs[0].background == b then 1 else 0;
    }
  }

  /** Filtering keeps list order: a channel's index is its rank. */
  lemma {:induction false} FilterRank(cs: seq<ChannelCmd>, k: nat, b: bool)
    requires k <= |cs|
    ensures k < |cs| && cs[k].background == b ==>
      RankBefore(cs, k, b) < |Filter(cs, b)| && Filter(cs, b)[RankBefore(cs, k, b)] == cs[k]
    ensures k == |cs| ==> RankBefore(cs, k, b) == |Filter(cs, b)|
  {
    if k > 0 {
      RankOfRest(cs, k, b);
      FilterRank(cs[1..], k - 1, b);
    }
  }

  lemma {:induction false} FilterAt(cs: seq<ChannelCmd>, b: bool, j: nat) returns (k: nat)
    requires j < |Filter(cs, b)|
    ensures k < |cs| && cs[k] == Filter(cs, b)[j] && cs[k].background == b && RankBefore(cs, k, b) == j
  {
    if cs[0].background == b && j == 0 {
      k := 0;
    } else {
      var at := if cs[0].background == b then j - 1 else j;
      assert at < |Filter(cs[1..], b)| && Filter(cs, b)[j] == Filter(cs[1..], b)[at];
      hide Filter, RankBefore;
      var i := FilterAt(cs[1..], b, at);
      k := i + 1;
      RankOfRest(cs, k, b);
    }
  }

  lemma BackgroundFilter(cs: seq<ChannelCmd>)
    ensures HasBackground(cs) <==> Filter(cs, true) != []
  {
    if k :| 0 <= k < |cs| && cs[k].background { assert cs[k] in Filter(cs, true); }
    if Filter(cs, true) != [] {
      var c := Filter(cs, true)[0];
      assert c in Filter(cs, true) && c in cs;
    }
  }

  lemma SlotIff(cs: seq<ChannelCmd>, n: nat, k: nat, j: nat)
    requires k < |cs| && j < n && GetsSlot(cs, n, k, j)
    ensures Slot(Filter(cs, false), Filter(cs, true), n, j) == Some(cs[k])
  {
    BackgroundFilter(cs);
    FilterRank(cs, k, cs[k].background);
  }

  lemma SlotTaken(cs: seq<ChannelCmd>, n: nat, j: nat) returns (k: nat)
    requires j < n && Slot(Filter(cs, false), Filter(cs, true), n, j).Some?
    ensures k < |cs| && GetsSlot(cs, n, k, j)
  {
    BackgroundFilter(cs);
    if j == n - 1 && Filter(cs, true) != [] {
      k := FilterAt(cs, true, 0);
    } else {
      k := FilterAt(cs, false, j);
    }
  }

  predicate Served(cs: seq<ChannelCmd>, n: nat, k: nat)
    requires k < |cs|
  {
    exists j :: 0 <= j < n && GetsSlot(cs, n, k, j)
  }

  lemma TruncatesIff(cs: seq<ChannelCmd>, n: nat)
    ensures Truncates(cs, n) <==> exists k :: 0 <= k < |cs| && !Served(cs, n, k)
  {
    var regs, bgs := Filter(cs, false), Filter(cs, true);
    BackgroundFilter(cs);
    if Truncates(cs, n) {
      var k: nat;
      if |bgs| > 1 {
        k := FilterAt(cs, true, 1);
      } else if bgs != [] && n == 0 {
        k := FilterAt(cs, true, 0);
      } else {
        k := FilterAt(cs, false, RegularSlots(n, bgs));
      }
      assert !Served(cs, n, k);
    } else {
      forall k | 0 <= k < |cs| ensures Served(cs, n, k) {
        FilterRank(cs, k, cs[k].background);
        assert GetsSlot(cs, n, k, if cs[k].background then n - 1 else RankBefore(cs, k, false));
      }
    }
  }

  lemma SlotsCarry(cs: seq<ChannelCmd>, n: nat, skipById: map<LaneId, real>, j: nat)
    requires j < n
    ensures var L := Slots(cs, n, skipById)[j];
      && (forall k: nat :: k < |cs| && GetsSlot(cs, n, k, j) ==> Carries(L, cs[k], skipById))
      && ((forall k: nat :: k < |cs| ==> !GetsSlot(cs, n, k, j)) ==> L == PARKED_LANE)
  {
    hide GetsSlot, Carries, Slot, Filter, Assigned, PARKED_LANE;
    var slot := Slot(Filter(cs, false), Filter(cs, true), n, j);
    SlotOf(cs, n, skipById, j);
    forall k: nat | k < |cs| && GetsSlot(cs, n, k, j) ensures Carries(Slots(cs, n, skipById)[j], cs[k], skipById) {
      SlotIff(cs, n, k, j);
      AssignedCarries(cs[k], skipById);
    }
    if slot.Some? { var k := SlotTaken(cs, n, j); }
  }

  lemma SlotOf(cs: seq<ChannelCmd>, n: nat, skipById: map<LaneId, real>, j: nat)
    requires j < n
    ensures Slots(cs, n, skipById)[j] ==
      match Slot(Filter(cs, false), Filter(cs, true), n, j)
      case Some(c) => Assigned(c, skipById)
      case None => PARKED_LANE
  {
    hide Slot, Filter, Assigned;
  }

  lemma TuneSlots(s: State, centerHz: real, cs: seq<ChannelCmd>)
    requires s.Sane()
    ensures var t, n := Tune(s, centerHz, cs, false), |s.lanes|;
      && t.lanes == Slots(cs, n, s.skipById) && t.audible == -1 && !t.monitor && t.skipById == s.skipById
      && s.out <= t.out && t.out[|t.out| - 1] == Tuned(centerHz)
      && (Log in t.out[|s.out|..] <==> Truncates(cs, n))
  {
    hide Slots, Truncates;
    var t, n := Tune(s, centerHz, cs, false), |s.lanes|;
    ClosingsOnly(s.lanes, n);
    var log, quiet := if Truncates(cs, n) then [Log] else [], if s.audible == -1 then [] else [Audible(None)];
    hide Closings;
    assert t.out == s.out + (Closings(s.lanes, n) + log + quiet + [Tuned(centerHz)]);
    assert t.out[|s.out|..] == Closings(s.lanes, n) + log + quiet + [Tuned(centerHz)];
  }

  /** A tune assigns every channel that has a slot to it, parks all other slots, and logs a truncation if and
      only if some channel has none. */
  lemma TuneAssigns(s: State, centerHz: real, cs: seq<ChannelCmd>)
    requires s.Sane()
    ensures var t, n := Tune(s, centerHz, cs, false), |s.lanes|;
      && |t.lanes| == n && t.audible == -1 && !t.monitor && t.skipById == s.skipById
      && (forall j: nat :: j < n ==>
        forall k: nat :: k < |cs| && GetsSlot(cs, n, k, j) ==> Carries(t.lanes[j], cs[k], s.skipById))
      && (forall j: nat :: j < n ==>
        (forall k: nat :: k < |cs| ==> !GetsSlot(cs, n, k, j)) ==> t.lanes[j] == PARKED_LANE)
      && s.out <= t.out && t.out[|t.out| - 1] == Tuned(centerHz)
      && (Log in t.out[|s.out|..] <==> exists k :: 0 <= k < |cs| && !Served(cs, n, k))
  {
    hide GetsSlot, Served, Carries, Tune, Slots, PARKED_LANE;
    TuneSlots(s, centerHz, cs);
    TruncatesIff(cs, |s.lanes|);
    forall j: nat | j < |s.lanes| ensures
      var L := Tune(s, centerHz, cs, false).lanes[j];
      && (forall k: nat :: k < |cs| && GetsSlot(cs, |s.lanes|, k, j) ==> Carries(L, cs[k], s.skipById))
      && ((forall k: nat :: k < |cs| ==> !GetsSlot(cs, |s.lanes|, k, j)) ==> L == PARKED_LANE)
    {
      SlotsCarry(cs, |s.lanes|, s.skipById, j);
    }
  }

  lemma {:induction false} ClosingsOnly(lanes: seq<Lane>, k: nat)
    requires k <= |lanes|
    ensures Log !in Closings(lanes, k)
  {
    if k > 0 { ClosingsOnly(lanes, k - 1); }
  }

  /** With each channel listed once, a channel that has a slot is on no other lane. */
  lemma TuneOnce(s: State, centerHz: real, cs: seq<ChannelCmd>, k: nat, j: nat, i: nat)
    requires s.Sane() && DistinctCmds(cs) && k < |cs| && j < |s.lanes| && i < |s.lanes| && GetsSlot(cs, |s.lanes|, k, j)
    ensures Tune(s, centerHz, cs, false).lanes[i].cfg.id == cs[k].id <==> i == j
  {
    hide Tune, Slots, GetsSlot;
    TuneSlots(s, centerHz, cs);
    SlotsDistinct(cs, |s.lanes|, s.skipById);
    SlotsCarry(cs, |s.lanes|, s.skipById, j);
  }

  /** And when all fit, the lanes are exactly the channels. */
  lemma TuneIds(s: State, centerHz: real, cs: seq<ChannelCmd>)
    requires s.Sane() && DistinctCmds(cs)
    requires forall k :: 0 <= k < |cs| ==> Served(cs, |s.lanes|, k)
    ensures Ids(Tune(s, centerHz, cs, false).lanes) == ChannelIds(cs)
  {
    hide Tune, Slots, GetsSlot, Distinct, OpenIds;
    var t := Tune(s, centerHz, cs, false);
    TuneSlots(s, centerHz, cs);
    SlotsDistinct(cs, |s.lanes|, s.skipById);
    forall id | id in ChannelIds(cs) ensures id in Ids(t.lanes) {
      var k :| 0 <= k < |cs| && cs[k].id == id;
      assert Served(cs, |s.lanes|, k);
      var j :| 0 <= j < |s.lanes| && GetsSlot(cs, |s.lanes|, k, j);
      SlotsCarry(cs, |s.lanes|, s.skipById, j);
      assert t.lanes[j].cfg.id == id;
    }
  }

  /** Weather-only: the same slots, but the first lane assigned is open, audible and ungated. */
  lemma MonitorHolds(s: State, centerHz: real, cs: seq<ChannelCmd>)
    requires s.Sane()
    ensures var t, u := Tune(s, centerHz, cs, true), Tune(s, centerHz, cs, false);
      && t.monitor && t.skipById == u.skipById
      && (t.audible == -1 ==> t.lanes == u.lanes && forall j :: 0 <= j < |u.lanes| ==> u.lanes[j].cfg.id == Parked)
      && (t.audible >= 0 ==>
        && t.gate && u.lanes[t.audible].cfg.id != Parked
        && (forall j :: 0 <= j < t.audible ==> u.lanes[j].cfg.id == Parked)
        && var L := u.lanes[t.audible];
          t.lanes == u.lanes[t.audible := L.(open := true, m := L.m.(carrier := true, quiet := true))])
  {
    hide Slots, Closings, Truncates;
    var r := Retuned(s, centerHz, cs, true);
    assert r == Tune(s, centerHz, cs, false).(monitor := true);
    hide Retuned;
  }

  // ---- skip, alert and Close Call

  /** A skip closes the audible lane and holds its channel off; a Close Call's slot is freed instead. Every
      other lane stays as it was, and only holdoffs that are over are forgotten. */
  lemma SkipHoldsOff(s: State, holdoffS: real, now: real)
    requires s.Sane() && s.audible >= 0
    ensures var t, a := Skip(s, holdoffS, now), s.audible;
      var id := s.lanes[a].cfg.id;
      && |t.lanes| == |s.lanes| && t.monitor == s.monitor && t.ccAudible == s.ccAudible
      && (forall j :: 0 <= j < |s.lanes| && j != a ==> t.lanes[j] == s.lanes[j])
      && (id.CloseCall? ==> t.lanes[a] == PARKED_LANE && t.skipById == s.skipById)
      && (!id.CloseCall? ==>
        && t.lanes[a].cfg == s.lanes[a].cfg && !t.lanes[a].open && t.lanes[a].skipUntil == now + holdoffS
        && id in t.skipById && t.skipById[id] == now + holdoffS
        && forall x :: x != id ==>
          (x in t.skipById <==> x in s.skipById && s.skipById[x] > now)
          && (x in t.skipById ==> t.skipById[x] == s.skipById[x]))
  {
    hide NextOpen;
  }

  /** An alert lets its channel's lane speak until the hold is over, at once if it is open; no other lane
      changes, and with no such lane nothing does. */
  lemma AlertSpeaks(s: State, id: LaneId, holdS: real, now: real, a: nat)
    requires s.Sane() && id != Parked && Distinct(s.lanes)
    requires a < |s.lanes| && s.lanes[a].cfg.id == id
    ensures var t := AlertUnmute(s, id, holdS, now);
      && t.lanes == s.lanes[a := s.lanes[a].(allowAudio := true, alertUntil := now + holdS)]
      && t.audible == (if s.lanes[a].open then a else s.audible) && t.skipById == s.skipById && t.monitor == s.monitor
  {
    var i := Find(s.lanes, id, 0);
  }

  lemma AlertMisses(s: State, id: LaneId, holdS: real, now: real)
    requires s.Sane() && (id == Parked || forall j :: 0 <= j < |s.lanes| ==> s.lanes[j].cfg.id != id)
    ensures AlertUnmute(s, id, holdS, now) == s
  {}

  /** What a Close Call hit asks for: FM except in the airband, audible and a priority unless its frequency is
      outside every range in force. */
  predicate Hit(c: ChannelCmd, f: int, ranges: Option<seq<(real, real)>>) {
    var ok := ranges == None
      || exists k :: 0 <= k < |ranges.value| && ranges.value[k].0 <= f as real <= ranges.value[k].1;
    c == ChannelCmd(CloseCall(f), f as real, ok, if 118_000_000 <= f <= 137_000_000 then Am else Fm, ok, false,
                    None, None, None, None)
  }

  lemma CloseCallIsHit(f: int, ranges: Option<seq<(real, real)>>)
    ensures Hit(CloseCallCmd(f, ranges), f, ranges)
  {}

  lemma FirstFind(lanes: seq<Lane>, id: LaneId, a: nat)
    requires a < |lanes| && lanes[a].cfg.id == id && forall j :: 0 <= j < a ==> lanes[j].cfg.id != id
    ensures Find(lanes, id, 0) == a
  {
    var i := Find(lanes, id, 0);
    hide Find;
    assert i >= 0 && !(a < i) && !(i < a);
  }

  /** A Close Call takes the first parked slot, and changes no other. */
  lemma AssignTakes(s: State, f: int, a: nat)
    requires s.Sane() && a < |s.lanes| && s.lanes[a].cfg.id == Parked
    requires forall j :: 0 <= j < a ==> s.lanes[j].cfg.id != Parked
    ensures var t := AssignCc(s, f);
      t == s.(lanes := s.lanes[a := t.lanes[a]])
      && exists c :: Hit(c, f, s.ccAudible) && Carries(t.lanes[a], c, s.skipById)
  {
    hide Find, Assigned, CloseCallCmd, Hit, Carries;
    FirstFind(s.lanes, Parked, a);
    CloseCallIsHit(f, s.ccAudible);
    AssignedCarries(CloseCallCmd(f, s.ccAudible), s.skipById);
  }

  /** With no parked slot it changes nothing. */
  lemma AssignMisses(s: State, f: int)
    requires s.Sane() && forall j :: 0 <= j < |s.lanes| ==> s.lanes[j].cfg.id != Parked
    ensures AssignCc(s, f) == s
  {}
}
