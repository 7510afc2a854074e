/** What one poll makes of a lane's readings, said of the readings: where the noise floor moves, when the
    gate's carrier, quieting and tone hold, and when the lane opens and closes. */
module SquelchMeters {
  import opened Options
  import opened SquelchSpec
  import opened SquelchInvariants

  // ---- The floor a lane is measured against

  /** The floor after a poll: the first trusted reading seeds it, and while the lane is closed it moves a
      fixed part of the way to each reading, a small one up and a larger one down. */
  function FloorNow(L: Lane, db: real): Option<real> {
    if L.cfg.id == Parked || L.warmupPolls > 1 then L.m.floorDb
    else if L.warmupPolls == 1 || L.m.floorDb.None? then Some(db)
    else if L.open then L.m.floorDb
    else
      var f := L.m.floorDb.value;
      if db > f then Some((1.0 - FLOOR_ALPHA_UP) * f + FLOOR_ALPHA_UP * db)
      else Some((1.0 - FLOOR_ALPHA_DOWN) * f + FLOOR_ALPHA_DOWN * db)
  }

  predicate Sideband(L: Lane) { L.cfg.demod == Lsb || L.cfg.demod == Usb }

  /** Lane j has a say in the shared floor. */
  predicate Shares(s: State, r: seq<Reading>, j: nat)
    requires j < |s.lanes| == |r|
  {
    s.lanes[j].cfg.id != Parked && !Sideband(s.lanes[j]) && FloorNow(s.lanes[j], r[j].slowDb).Some?
  }

  /** x is more than d above the floor lane i goes by: its own for a sideband lane, else the lowest of the
      wide lanes', so above some wide lane's. */
  ghost predicate Over(s: State, r: seq<Reading>, i: nat, x: real, d: real)
    requires i < |s.lanes| == |r|
  {
    if Sideband(s.lanes[i]) then
      var own := FloorNow(s.lanes[i], r[i].slowDb);
      own.Some? && x > own.value + d
    else exists j: nat :: j < |s.lanes| && Shares(s, r, j) && x > FloorNow(s.lanes[j], r[j].slowDb).value + d
  }

  /** x is less than d above that floor, so below every wide lane's. */
  ghost predicate Under(s: State, r: seq<Reading>, i: nat, x: real, d: real)
    requires i < |s.lanes| == |r|
  {
    if Sideband(s.lanes[i]) then
      var own := FloorNow(s.lanes[i], r[i].slowDb);
      own.Some? ==> x < own.value + d
    else forall j: nat :: j < |s.lanes| && Shares(s, r, j) ==> x < FloorNow(s.lanes[j], r[j].slowDb).value + d
  }

  lemma {:induction false} LowestFloor(lanes: seq<Lane>, n: nat)
    requires n <= |lanes|
    ensures var f := SharedFloor(lanes, n);
      && (f.Some? <==> exists j: nat :: j < n && Wide(lanes[j]))
      && (f.Some? ==>
        (exists j: nat :: j < n && Wide(lanes[j]) && lanes[j].m.floorDb == f)
        && forall j: nat :: j < n && Wide(lanes[j]) ==> f.value <= lanes[j].m.floorDb.value)
  {
    if n > 0 { LowestFloor(lanes, n - 1); }
  }

  lemma WarmFloor(L: Lane, db: real)
    ensures Warm(L, db).m.floorDb == FloorNow(L, db) && Warm(L, db).cfg == L.cfg && Warm(L, db).open == L.open
  {}

  /** Over and under are comparisons with the threshold's base. */
  lemma BaseIsFloor(s: State, r: seq<Reading>, i: nat, x: real, d: real)
    requires i < |s.lanes| == |r|
    requires Rated(s.lanes[i])
    ensures var w := WarmAll(s.lanes, r);
      var base := Base(w[i], SharedFloor(w, |w|));
      base.Some? && (x > base.value + d <==> Over(s, r, i, x, d)) && (x < base.value + d <==> Under(s, r, i, x, d))
  {
    var w := WarmAll(s.lanes, r);
    hide Warm, FloorNow, SharedFloor;
    forall j: nat | j < |w| ensures w[j].m.floorDb == FloorNow(s.lanes[j], r[j].slowDb) && w[j].cfg == s.lanes[j].cfg {
      WarmFloor(s.lanes[j], r[j].slowDb);
    }
    assert forall j: nat :: j < |w| ==> Wide(w[j]) == Shares(s, r, j);
    RatedHasFloor(s, r, i);
    LowestFloor(w, |w|);
    assert !Sideband(s.lanes[i]) ==> Wide(w[i]);
  }

  // ---- What a lane hears

  function OpensAbove(L: Lane, p: Params): real { if L.cfg.openDb.Some? then L.cfg.openDb.value else p.openDb }

  /** Quieting, with its hysteresis; a sideband lane needs none. */
  predicate Quieted(L: Lane, r: Reading, p: Params) {
    Sideband(L) || (r.quietReady && if L.m.quiet then r.quietDb < p.quietDb + 1.0 else r.quietDb < p.quietDb - 1.0)
  }

  /** The lane's DCS code or CTCSS tone is in this reading. */
  predicate Matches(L: Lane, r: Reading) {
    if L.cfg.dcs.Some? then r.dcs == L.cfg.dcs
    else L.cfg.ctcssHz.Some? && r.tone.Some? && L.cfg.ctcssHz.value - 1.0 <= r.tone.value <= L.cfg.ctcssHz.value + 1.0
  }

  /** The tone is there, or was within the loss time. */
  predicate Toned(L: Lane, now: real, r: Reading, remembers: bool) {
    if L.cfg.dcs.None? && L.cfg.ctcssHz.None? then L.m.toneOk
    else if Matches(L, r) then now >= 0.0
    else remembers && L.m.toneSeen >= 0.0 && now - L.m.toneSeen <= (if L.cfg.dcs.Some? then 0.4 else 0.3)
  }

  /** Everything a closed lane needs from one poll to open. */
  ghost predicate Hears(s: State, i: nat, now: real, r: seq<Reading>, p: Params)
    requires i < |s.lanes|
  {
    var L := s.lanes[i];
    && !s.monitor && |r| == |s.lanes|
    && !L.open && L.cfg.id != Parked && !L.cfg.background && L.warmupPolls == 0
    && Over(s, r, i, r[i].slowDb, OpensAbove(L, p)) && Quieted(L, r[i], p)
    && Toned(L, now, r[i], true) && now >= L.skipUntil
  }

  /** What makes an open lane's hang run: under the closing threshold, or without quieting. */
  ghost predicate Fades(s: State, i: nat, r: seq<Reading>, p: Params)
    requires i < |s.lanes| == |r|
  {
    Under(s, r, i, r[i].slowDb, OpensAbove(s.lanes[i], p) - 3.0) || !Quieted(s.lanes[i], r[i], p)
  }

  function HangsFor(L: Lane, p: Params): real { (if L.cfg.hangMs.Some? then L.cfg.hangMs.value else p.hangMs) / 1000.0 }

  lemma EvidenceIsHeard(L: Lane, now: real, r: Reading, base: real, p: Params)
    requires !L.open
    ensures OpenEvidence(L.(m := Measure(L, now, r, base, p)), now, r.slowDb, base, p) <==>
      r.slowDb > base + OpensAbove(L, p) && Quieted(L, r, p) && Toned(L, now, r, true) && now >= L.skipUntil
  {}

  // ---- A lane's own turn

  /** A closed lane that is parked, warming or in the background has no evidence. */
  predicate NoEvidence(L: Lane) {
    !L.open && (L.IsParked() || L.warmupPolls > 0 || L.cfg.background) ==> L.above == 0
  }

  /** What a closed, rated lane's own turn does to its evidence. */
  lemma OwnTurn(s: State, i: nat, now: real, r: Reading, floor: Option<real>, p: Params)
    requires ValidSlot(s, i) && !s.lanes[i].open && !s.lanes[i].IsParked() && !s.lanes[i].cfg.background
    requires Base(s.lanes[i], floor).Some?
    ensures var L, M := s.lanes[i], PollLane(s, i, now, r, true, floor, p).lanes[i];
      var base := Base(L, floor).value;
      var yes := OpenEvidence(L.(m := Measure(L, now, r, base, p)), now, r.slowDb, base, p);
      && M.open == (yes && L.above + 1 >= OPEN_POLLS) && M.above == (if yes then L.above + 1 else 0)
      && M.cfg == L.cfg && M.warmupPolls == L.warmupPolls && (M.open ==> M.belowSince == -1.0)
  {
    hide NextOpen, Meter, Measure, Decide, ExpireAlert;
    var L, base := s.lanes[i], Base(s.lanes[i], floor).value;
    var e := ExpireAlert(s, i, now);
    ExpireAlertTouches(s, i, now);
    MeasureIgnoresAlert(L, e.lanes[i], now, r, base, p);
    MeterTouches(e, i, now, r, base, p);
    DecideClosed(Meter(e, i, now, r, base, p), i, now, r.slowDb, base, p);
  }

  lemma ExpireAlertTouches(s: State, i: nat, now: real)
    requires ValidSlot(s, i)
    ensures var L, M := s.lanes[i], ExpireAlert(s, i, now).lanes[i];
      M == L.(alertUntil := M.alertUntil, allowAudio := M.allowAudio)
  {
    hide NextOpen;
  }

  lemma MeterTouches(s: State, i: nat, now: real, r: Reading, base: real, p: Params)
    requires ValidSlot(s, i)
    ensures Meter(s, i, now, r, base, p).lanes[i] == s.lanes[i].(m := Measure(s.lanes[i], now, r, base, p))
  {
    hide Measure;
  }

  lemma MeasureIgnoresAlert(L: Lane, M: Lane, now: real, r: Reading, base: real, p: Params)
    requires M == L.(alertUntil := M.alertUntil, allowAudio := M.allowAudio)
    ensures Measure(L, now, r, base, p) == Measure(M, now, r, base, p)
  {}

  lemma DecideClosed(s: State, i: nat, now: real, db: real, base: real, p: Params)
    requires ValidSlot(s, i) && !s.lanes[i].open
    ensures var L, M := s.lanes[i], Decide(s, i, now, db, base, p).lanes[i];
      var yes := OpenEvidence(L, now, db, base, p);
      && M.open == (yes && L.above + 1 >= OPEN_POLLS) && M.above == (if yes then L.above + 1 else 0)
      && M.cfg == L.cfg && M.warmupPolls == L.warmupPolls && (M.open ==> M.belowSince == -1.0)
  {
    hide OpenEvidence;
  }

  /** No other lane's turn touches lane i. */
  lemma {:induction false} OwnTurnOnly(s: State, k: nat, i: nat, now: real, r: seq<Reading>, rated: seq<bool>,
      floor: Option<real>, p: Params)
    requires |r| == |rated| == |s.lanes| && k <= |s.lanes| && i < |s.lanes| && Arbitrated(s) && !s.monitor
    requires forall j :: 0 <= j < |rated| && rated[j] ==> s.lanes[j].warmupPolls == 0 && s.lanes[j].m.floorDb.Some?
    ensures PollUpTo(s, i, now, r, rated, floor, p).lanes[i] == s.lanes[i]
    ensures PollUpTo(s, k, now, r, rated, floor, p).lanes[i] ==
      (if i < k then PollLane(PollUpTo(s, i, now, r, rated, floor, p), i, now, r[i], rated[i], floor, p).lanes[i]
        else s.lanes[i])
  {
    hide PollLane, Arbitrated;
    PollUpToKeeps(s, i, now, r, rated, floor, p);
    PollUpToKeeps(s, k, now, r, rated, floor, p);
    if i < k - 1 {
      OwnTurnOnly(s, k - 1, i, now, r, rated, floor, p);
      PollUpToKeeps(s, k - 1, now, r, rated, floor, p);
      PollLaneKeeps(PollUpTo(s, k - 1, now, r, rated, floor, p), k - 1, now, r[k - 1], rated[k - 1], floor, p);
    }
  }

  lemma SkippedTurn(s: State, i: nat, now: real, r: Reading, rated: bool, floor: Option<real>, p: Params)
    requires ValidSlot(s, i) && (!rated || s.lanes[i].cfg.background)
    ensures PollLane(s, i, now, r, rated, floor, p) == s
  {}

  lemma HeardIff(s: State, i: nat, now: real, r: seq<Reading>, p: Params)
    requires i < |s.lanes| == |r| && Rated(s.lanes[i]) && !s.lanes[i].open && !s.lanes[i].cfg.background && !s.monitor
    ensures var w := WarmAll(s.lanes, r);
      var base := Base(w[i], SharedFloor(w, |w|));
      base.Some? && (OpenEvidence(w[i].(m := Measure(w[i], now, r[i], base.value, p)), now, r[i].slowDb, base.value, p)
                     <==> Hears(s, i, now, r, p))
  {
    hide Warm, SharedFloor, Over, Under, OpenEvidence, Measure;
    var w, L := WarmAll(s.lanes, r), s.lanes[i];
    BaseIsFloor(s, r, i, r[i].slowDb, OpensAbove(L, p));
    RatedHasFloor(s, r, i);
    WarmTouches(L, r[i].slowDb);
    EvidenceIsHeard(w[i], now, r[i], Base(w[i], SharedFloor(w, |w|)).value, p);
  }

  /** One poll and a closed lane: it opens if it is heard and has now been heard OPEN_POLLS times. */
  lemma OpensWhenHeard(s: State, i: nat, now: real, r: seq<Reading>, p: Params)
    requires Arbitrated(s) && i < |s.lanes| && |r| == |s.lanes| && !s.monitor && !s.lanes[i].open
      && NoEvidence(s.lanes[i])
    ensures var L, M, yes := s.lanes[i], Poll(s, now, r, p).lanes[i], Hears(s, i, now, r, p);
      && M.above == (if yes then L.above + 1 else 0)
      && M.open == (yes && L.above + 1 >= OPEN_POLLS)
      && NoEvidence(M) && M.cfg == L.cfg && (M.open ==> M.belowSince == -1.0)
  {
    var n, w := |s.lanes|, s.(lanes := WarmAll(s.lanes, r));
    var rated, floor := RatedAll(s.lanes), SharedFloor(w.lanes, |s.lanes|);
    hide PollUpTo, PollLane, Warm, OpenEvidence, Measure, SharedFloor, Over, Quieted, Toned;
    WarmKeeps(s, r);
    WarmTouches(s.lanes[i], r[i].slowDb);
    OwnTurnOnly(w, n, i, now, r, rated, floor, p);
    PollUpToKeeps(w, i, now, r, rated, floor, p);
    var t := PollUpTo(w, i, now, r, rated, floor, p);
    if rated[i] && !s.lanes[i].cfg.background {
      HeardIff(s, i, now, r, p);
      OwnTurn(t, i, now, r[i], floor, p);
    } else {
      SkippedTurn(t, i, now, r[i], rated[i], floor, p);
    }
  }

  /** What becomes of an open lane: closed, its slot freed if it was a Close Call's; or open, its hang running
      since the first poll it faded at. */
  predicate Outlasts(L: Lane, M: Lane, now: real, fades: bool, hang: real) {
    if fades && L.belowSince >= 0.0 && now - L.belowSince >= hang then
      if L.cfg.id.CloseCall? then M == PARKED_LANE
      else !M.open && M.above == 0 && M.belowSince == -1.0 && M.cfg == L.cfg
    else
      M.open && M.cfg == L.cfg
      && M.belowSince == if !fades then -1.0 else if L.belowSince < 0.0 then now else L.belowSince
  }

  lemma DecideOpen(s: State, i: nat, now: real, db: real, base: real, p: Params)
    requires ValidSlot(s, i) && s.lanes[i].open
    ensures var L := s.lanes[i];
      Outlasts(L, Decide(s, i, now, db, base, p).lanes[i], now, db < base + OpensAbove(L, p) - 3.0 || !L.m.quiet,
               HangsFor(L, p))
  {
    hide NextOpen, OpenEvidence;
  }

  lemma OpenTurn(s: State, i: nat, now: real, r: Reading, floor: Option<real>, p: Params)
    requires ValidSlot(s, i) && s.lanes[i].open && !s.lanes[i].IsParked() && !s.lanes[i].cfg.background
    requires Base(s.lanes[i], floor).Some?
    ensures var L := s.lanes[i];
      var base := Base(L, floor).value;
      Outlasts(L, PollLane(s, i, now, r, true, floor, p).lanes[i], now,
               r.slowDb < base + (OpensAbove(L, p) - 3.0) || !Quieted(L, r, p), HangsFor(L, p))
  {
    hide NextOpen, Meter, Measure, Decide, ExpireAlert;
    var L, base := s.lanes[i], Base(s.lanes[i], floor).value;
    var e := ExpireAlert(s, i, now);
    ExpireAlertTouches(s, i, now);
    MeasureIgnoresAlert(L, e.lanes[i], now, r, base, p);
    MeterTouches(e, i, now, r, base, p);
    QuietedIff(L, now, r, base, p);
    DecideOpen(Meter(e, i, now, r, base, p), i, now, r.slowDb, base, p);
  }

  lemma QuietedIff(L: Lane, now: real, r: Reading, base: real, p: Params)
    ensures Measure(L, now, r, base, p).quiet == Quieted(L, r, p)
  {}

  /** One poll and an open lane: it closes if and only if it fades and its hang, running since it first did,
      is over. */
  lemma ClosesAfterHang(s: State, i: nat, now: real, r: seq<Reading>, p: Params)
    requires Arbitrated(s) && i < |s.lanes| && |r| == |s.lanes| && !s.monitor && s.lanes[i].open
    ensures Outlasts(s.lanes[i], Poll(s, now, r, p).lanes[i], now, Fades(s, i, r, p), HangsFor(s.lanes[i], p))
  {
    var n, w := |s.lanes|, s.(lanes := WarmAll(s.lanes, r));
    var rated, floor := RatedAll(s.lanes), SharedFloor(w.lanes, |s.lanes|);
    hide PollUpTo, PollLane, Warm, OpenEvidence, Measure, SharedFloor, Over, Under;
    WarmKeeps(s, r);
    WarmTouches(s.lanes[i], r[i].slowDb);
    BaseIsFloor(s, r, i, r[i].slowDb, OpensAbove(s.lanes[i], p) - 3.0);
    OwnTurnOnly(w, n, i, now, r, rated, floor, p);
    PollUpToKeeps(w, i, now, r, rated, floor, p);
    OpenTurn(PollUpTo(w, i, now, r, rated, floor, p), i, now, r[i], floor, p);
  }

  // ---- The meters

  /** Enough energy for the gate, with its hysteresis. */
  ghost predicate Energy(s: State, i: nat, r: seq<Reading>, p: Params)
    requires i < |s.lanes| == |r|
  {
    var L := s.lanes[i];
    Over(s, r, i, r[i].fastDb, OpensAbove(L, p) - 3.0 + if L.m.carrier then -0.5 else 0.5)
  }

  /** A carrier episode goes on, or starts: tones heard in it count. */
  ghost predicate InEpisode(s: State, i: nat, now: real, r: seq<Reading>, p: Params)
    requires i < |s.lanes| == |r|
  {
    var L := s.lanes[i];
    if L.m.txActive then !Under(s, r, i, r[i].slowDb, OpensAbove(L, p) - 3.0)
    else Over(s, r, i, r[i].slowDb, OpensAbove(L, p)) && now >= L.skipUntil
  }

  /** The readings of a lane's meters after a poll. */
  ghost predicate Metered(s: State, i: nat, now: real, r: seq<Reading>, p: Params, m: Meters)
    requires i < |s.lanes| == |r|
  {
    var L := s.lanes[i];
    var remembers := L.open || InEpisode(s, i, now, r, p);
    var gated := L.cfg.dcs.Some? || L.cfg.ctcssHz.Some?;
    && m.floorDb == FloorNow(L, r[i].slowDb)
    && (m.carrier <==> Energy(s, i, r, p) || (Sideband(L) && L.m.carrierSeen >= 0.0 && now - L.m.carrierSeen <= 0.4))
    && m.carrierSeen == (if Sideband(L) && Energy(s, i, r, p) then now else L.m.carrierSeen)
    && (m.quiet <==> Quieted(L, r[i], p))
    && (m.toneOk <==> Toned(L, now, r[i], remembers))
    && m.toneSeen == (if gated && Matches(L, r[i]) then now else if remembers then L.m.toneSeen else -1.0)
    && (m.txActive <==> InEpisode(s, i, now, r, p))
  }

  lemma MeasureIsMetered(s: State, i: nat, now: real, r: seq<Reading>, p: Params, W: Lane, base: real)
    requires i < |s.lanes| == |r|
    requires W == s.lanes[i].(warmupPolls := W.warmupPolls,
                              m := s.lanes[i].m.(floorDb := FloorNow(s.lanes[i], r[i].slowDb)))
    requires var L := s.lanes[i];
      && (r[i].slowDb > base + OpensAbove(L, p) <==> Over(s, r, i, r[i].slowDb, OpensAbove(L, p)))
      && (r[i].slowDb < base + (OpensAbove(L, p) - 3.0) <==> Under(s, r, i, r[i].slowDb, OpensAbove(L, p) - 3.0))
      && var d := OpensAbove(L, p) - 3.0 + if L.m.carrier then -0.5 else 0.5;
        r[i].fastDb > base + d <==> Over(s, r, i, r[i].fastDb, d)
    ensures Metered(s, i, now, r, p, Measure(W, now, r[i], base, p))
  {
    hide Over, Under, FloorNow;
  }

  /** Every lane that is measured and not freed by the poll has its meters where the readings put them. */
  lemma PollMeters(s: State, i: nat, now: real, r: seq<Reading>, p: Params)
    requires Arbitrated(s) && i < |s.lanes| && |r| == |s.lanes| && !s.monitor
    requires Rated(s.lanes[i]) && !s.lanes[i].cfg.background
    ensures var M := Poll(s, now, r, p).lanes[i];
      M == PARKED_LANE || Metered(s, i, now, r, p, M.m)
  {
    var n, w, L := |s.lanes|, s.(lanes := WarmAll(s.lanes, r)), s.lanes[i];
    var rated, floor := RatedAll(s.lanes), SharedFloor(w.lanes, |s.lanes|);
    hide PollUpTo, PollLane, Warm, Measure, SharedFloor, Over, Under, Metered, FloorNow;
    WarmKeeps(s, r);
    WarmTouches(L, r[i].slowDb);
    WarmFloor(L, r[i].slowDb);
    BaseIsFloor(s, r, i, r[i].slowDb, OpensAbove(L, p));
    BaseIsFloor(s, r, i, r[i].slowDb, OpensAbove(L, p) - 3.0);
    BaseIsFloor(s, r, i, r[i].fastDb, OpensAbove(L, p) - 3.0 + if L.m.carrier then -0.5 else 0.5);
    OwnTurnOnly(w, n, i, now, r, rated, floor, p);
    PollUpToKeeps(w, i, now, r, rated, floor, p);
    var base := Base(w.lanes[i], floor).value;
    MeasureIsMetered(s, i, now, r, p, w.lanes[i], base);
    MeteredTurn(PollUpTo(w, i, now, r, rated, floor, p), i, now, r[i], floor, p);
  }

  lemma MeteredTurn(s: State, i: nat, now: real, r: Reading, floor: Option<real>, p: Params)
    requires ValidSlot(s, i) && !s.lanes[i].IsParked() && !s.lanes[i].cfg.background && Base(s.lanes[i], floor).Some?
    ensures var L, M := s.lanes[i], PollLane(s, i, now, r, true, floor, p).lanes[i];
      M == PARKED_LANE || M.m == Measure(L, now, r, Base(L, floor).value, p)
  {
    hide NextOpen, Meter, Measure, Decide, ExpireAlert;
    var L, base := s.lanes[i], Base(s.lanes[i], floor).value;
    var e := ExpireAlert(s, i, now);
    ExpireAlertTouches(s, i, now);
    MeasureIgnoresAlert(L, e.lanes[i], now, r, base, p);
    MeterTouches(e, i, now, r, base, p);
    DecideTouches(Meter(e, i, now, r, base, p), i, now, r.slowDb, base, p);
  }

  /** A measured lane's alert ends at the first poll that is not before its end: the lane then has its own
      audibility back. Until then, and without an alert, neither changes. */
  lemma PollAlerts(s: State, i: nat, now: real, r: seq<Reading>, p: Params)
    requires Arbitrated(s) && i < |s.lanes| && |r| == |s.lanes| && !s.monitor
    requires Rated(s.lanes[i]) && !s.lanes[i].cfg.background
    ensures var L, M := s.lanes[i], Poll(s, now, r, p).lanes[i];
      var over := 0.0 <= L.alertUntil <= now;
      M == PARKED_LANE
      || (M.alertUntil == (if over then -1.0 else L.alertUntil)
          && M.allowAudio == (if over then L.cfg.audible else L.allowAudio) && M.skipUntil == L.skipUntil)
  {
    var n, w, L := |s.lanes|, s.(lanes := WarmAll(s.lanes, r)), s.lanes[i];
    var rated, floor := RatedAll(s.lanes), SharedFloor(w.lanes, |s.lanes|);
    hide PollUpTo, PollLane, Warm, SharedFloor, Over, Under;
    WarmKeeps(s, r);
    WarmTouches(L, r[i].slowDb);
    BaseIsFloor(s, r, i, 0.0, 0.0);
    OwnTurnOnly(w, n, i, now, r, rated, floor, p);
    PollUpToKeeps(w, i, now, r, rated, floor, p);
    AlertTurn(PollUpTo(w, i, now, r, rated, floor, p), i, now, r[i], floor, p);
  }

  lemma AlertTurn(s: State, i: nat, now: real, r: Reading, floor: Option<real>, p: Params)
    requires ValidSlot(s, i) && !s.lanes[i].IsParked() && !s.lanes[i].cfg.background && Base(s.lanes[i], floor).Some?
    ensures var L, M := s.lanes[i], PollLane(s, i, now, r, true, floor, p).lanes[i];
      var over := 0.0 <= L.alertUntil <= now;
      M == PARKED_LANE
      || (M.alertUntil == (if over then -1.0 else L.alertUntil)
          && M.allowAudio == (if over then L.cfg.audible else L.allowAudio) && M.skipUntil == L.skipUntil)
  {
    hide NextOpen, Meter, Measure, Decide, ExpireAlert;
    var base := Base(s.lanes[i], floor).value;
    var e := ExpireAlert(s, i, now);
    ExpiredLane(s, i, now);
    ExpireAlertTouches(s, i, now);
    MeterTouches(e, i, now, r, base, p);
    DecideTouches(Meter(e, i, now, r, base, p), i, now, r.slowDb, base, p);
  }

  lemma ExpiredLane(s: State, i: nat, now: real)
    requires ValidSlot(s, i)
    ensures var L, M := s.lanes[i], ExpireAlert(s, i, now).lanes[i];
      var over := 0.0 <= L.alertUntil <= now;
      M.alertUntil == (if over then -1.0 else L.alertUntil)
      && M.allowAudio == (if over then L.cfg.audible else L.allowAudio)
  {
    hide NextOpen;
  }

  lemma DecideTouches(s: State, i: nat, now: real, db: real, base: real, p: Params)
    requires ValidSlot(s, i)
    ensures var L, M := s.lanes[i], Decide(s, i, now, db, base, p).lanes[i];
      M == PARKED_LANE
      || (M.alertUntil == L.alertUntil && M.allowAudio == L.allowAudio && M.skipUntil == L.skipUntil && M.m == L.m)
  {
    hide NextOpen, OpenEvidence, OpenDb, HangS;
  }

  /** A lane that is not measured -- parked, warming up or in the background -- only counts down, its floor
      seeded by the last reading of the countdown. */
  lemma PollWaiting(s: State, i: nat, now: real, r: seq<Reading>, p: Params)
    requires Arbitrated(s) && i < |s.lanes| && |r| == |s.lanes| && !s.monitor
    requires !Rated(s.lanes[i]) || s.lanes[i].cfg.background
    ensures var L := s.lanes[i];
      Poll(s, now, r, p).lanes[i]
      == L.(warmupPolls := if L.cfg.id == Parked || L.warmupPolls == 0 then L.warmupPolls else L.warmupPolls - 1,
            m := L.m.(floorDb := FloorNow(L, r[i].slowDb)))
  {
    var n, w := |s.lanes|, s.(lanes := WarmAll(s.lanes, r));
    var rated, floor := RatedAll(s.lanes), SharedFloor(w.lanes, |s.lanes|);
    hide PollUpTo, PollLane, SharedFloor;
    WarmKeeps(s, r);
    OwnTurnOnly(w, n, i, now, r, rated, floor, p);
    SkippedTurn(PollUpTo(w, i, now, r, rated, floor, p), i, now, r[i], rated[i], floor, p);
  }
}
