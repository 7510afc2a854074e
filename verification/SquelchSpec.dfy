/** What kerchunk-dsp's Scanner decides, as functions of its state: one squelch decision per
    lane per poll, speaker arbitration, and the events it reports. `Scanner.dfy` holds the
    class that updates this state in place. Times are seconds, levels dB. */
module SquelchSpec {
  import opened Options

  const OPEN_POLLS: nat := 10
  const WARMUP_POLLS: nat := 50       // WARMUP_MS / POLL_MS
  const CLOSE_HYST_DB: real := 3.0
  const GATE_HYST_DB: real := 1.0
  const QUIET_HYST_DB: real := 2.0
  const FLOOR_ALPHA_UP: real := 0.01005
  const FLOOR_ALPHA_DOWN: real := 0.1056
  const CTCSS_MATCH_HZ: real := 1.0
  const CTCSS_LOSS_S: real := 0.3
  const DCS_LOSS_S: real := 0.4
  const SSB_GATE_HOLD_S: real := 0.4
  const AIRBAND_LO_HZ: int := 118_000_000
  const AIRBAND_HI_HZ: int := 137_000_000

  /** A lane's id; Close Call lanes carry the hit's frequency, an empty id is a parked slot. */
  datatype LaneId = Parked | Channel(name: string) | CloseCall(freqHz: int)

  datatype Demod = Fm | Am | Lsb | Usb {
    predicate Ssb() { Lsb? || Usb? }
  }

  datatype ChannelCmd = ChannelCmd(id: LaneId, freqHz: real, priority: bool, demod: Demod, audible: bool,
                                   background: bool, ctcssHz: Option<real>, dcs: Option<int>,
                                   openDb: Option<real>, hangMs: Option<real>)

  datatype Reading = Reading(fastDb: real, slowDb: real, quietDb: real, quietReady: bool,
                             tone: Option<real>, dcs: Option<int>)

  datatype Params = Params(openDb: real, quietDb: real, hangMs: real)

  /** The meters of one lane: noise floor, carrier gate, quieting, sub-audible squelch, and the
      carrier-episode flag (tx_[i].active) that gates tone_seen. */
  datatype Meters = Meters(floorDb: Option<real>, carrier: bool, quiet: bool, carrierSeen: real,
                           toneSeen: real, toneOk: bool, txActive: bool)

  /** LaneState: the command the slot was assigned from (its id, priority, configured audibility,
      demod and squelch profile), its meters, and its squelch and speaker state. */
  datatype Lane = Lane(cfg: ChannelCmd, m: Meters, warmupPolls: nat, open: bool, above: nat, belowSince: real,
                       allowAudio: bool, alertUntil: real, skipUntil: real)
  {
    predicate IsParked() { cfg.id.Parked? }

    predicate SubGated() { cfg.ctcssHz.Some? || cfg.dcs.Some? }

    /** May hold the speaker: an open lane that is allowed to be heard. */
    predicate Speaks() { !IsParked() && open && allowAudio }
  }

  const NO_CHANNEL: ChannelCmd := ChannelCmd(Parked, 0.0, false, Fm, true, false, None, None, None, None)

  const FRESH_METERS: Meters := Meters(None, false, false, -1.0, -1.0, true, false)

  const PARKED_LANE: Lane := Lane(NO_CHANNEL, FRESH_METERS, 0, false, 0, -1.0, true, -1.0, 0.0)

  datatype Event = Open(id: LaneId) | Close(id: LaneId) | Audible(who: Option<LaneId>) | Tuned(centerHz: real) | Log

  datatype State = State(lanes: seq<Lane>, audible: int, gate: bool, monitor: bool,
                         skipById: map<LaneId, real>, ccAudible: Option<seq<(real, real)>>, out: seq<Event>)
  {
    /** The slot count never changes and the speaker points at a slot or at none. */
    predicate Sane() { -1 <= audible < |lanes| }
  }

  predicate ValidSlot(s: State, i: int) { 0 <= i < |s.lanes| && s.Sane() }

  // ---- Speaker arbitration

  function SetAudible(s: State, i: int): (t: State)
    requires -1 <= i < |s.lanes|
    ensures t.lanes == s.lanes && t.audible == i
  {
    if s.audible == i then s
    else if i < 0 then s.(audible := i, gate := false, out := s.out + [Audible(None)])
    else s.(audible := i, gate := s.lanes[i].m.carrier
      && s.lanes[i].m.toneOk, out := s.out + [Audible(Some(s.lanes[i].cfg.id))])
  }

  function FirstSpeaker(lanes: seq<Lane>, from: nat, priorityOnly: bool): (i: int)
    requires from <= |lanes|
    ensures -1 <= i < |lanes|
    ensures i >= 0 ==> from <= i && lanes[i].Speaks() && (priorityOnly ==> lanes[i].cfg.priority)
    ensures forall j :: from <= j < (if i < 0 then |lanes| else i) ==>
      !(lanes[j].Speaks() && (priorityOnly ==> lanes[j].cfg.priority))
    decreases |lanes| - from
  {
    if from == |lanes| then -1
    else if lanes[from].Speaks() && (priorityOnly ==> lanes[from].cfg.priority) then from
    else FirstSpeaker(lanes, from + 1, priorityOnly)
  }

  /** Who gets the speaker next: the first priority lane that speaks, else the first that speaks. */
  function NextOpen(lanes: seq<Lane>): (i: int)
    ensures -1 <= i < |lanes|
    ensures i >= 0 <==> exists j :: 0 <= j < |lanes| && lanes[j].Speaks()
    ensures i >= 0 ==> lanes[i].Speaks()
    ensures i >= 0 && !lanes[i].cfg.priority ==> forall j :: 0 <= j < |lanes| && lanes[j].Speaks() ==>
      !lanes[j].cfg.priority
    ensures forall j :: 0 <= j < i && lanes[j].Speaks() ==> lanes[i].cfg.priority && !lanes[j].cfg.priority
  {
    var p := FirstSpeaker(lanes, 0, true);
    if p >= 0 then p else FirstSpeaker(lanes, 0, false)
  }

  function OpenLane(s: State, i: int): (t: State)
    requires ValidSlot(s, i)
    ensures |t.lanes| == |s.lanes| && t.Sane()
  {
    var L := s.lanes[i].(open := true, belowSince := -1.0, above := s.lanes[i].above + 1);
    var t := s.(lanes := s.lanes[i := L], out := s.out + [Open(L.cfg.id)]);
    if !L.allowAudio then t
    else if t.audible < 0 then SetAudible(t, i)
    else if L.cfg.priority && !t.lanes[t.audible].cfg.priority then SetAudible(t, i)
    else t
  }

  /** Ends an open lane; a Close Call slot is freed. */
  function CloseLane(s: State, i: int): (t: State)
    requires ValidSlot(s, i)
    ensures |t.lanes| == |s.lanes| && t.Sane()
  {
    var L := s.lanes[i].(open := false, above := 0, belowSince := -1.0);
    var t := s.(lanes := s.lanes[i := L], out := s.out + [Close(L.cfg.id)]);
    var u := if t.audible == i then SetAudible(t, NextOpen(t.lanes)) else t;
    if L.cfg.id.CloseCall? then u.(lanes := u.lanes[i := PARKED_LANE]) else u
  }

  // ---- poll

  /** First pass: a warming lane counts down, its first trusted reading seeds the noise floor,
      and a closed lane's floor then tracks the power. */
  function Warm(L: Lane, db: real): Lane {
    if L.IsParked() then L
    else if L.warmupPolls > 1 then L.(warmupPolls := L.warmupPolls - 1)
    else if L.warmupPolls == 1 then L.(warmupPolls := 0, m := L.m.(floorDb := Some(db)))
    else if L.m.floorDb.None? then L.(m := L.m.(floorDb := Some(db)))
    else if L.open then L
    else L.(m := L.m.(floorDb := Some(Track(L.m.floorDb.value, db))))
  }

  /** The noise floor after one closed-lane reading: slow up, fast down. */
  function Track(f: real, db: real): real {
    if db > f then f + FLOOR_ALPHA_UP * (db - f) else f + FLOOR_ALPHA_DOWN * (db - f)
  }

  function WarmAll(lanes: seq<Lane>, r: seq<Reading>): (w: seq<Lane>)
    requires |r| == |lanes|
    ensures |w| == |lanes|
  {
    seq(|lanes|, i requires 0 <= i < |lanes| => Warm(lanes[i], r[i].slowDb))
  }

  predicate Rated(L: Lane) { !L.IsParked() && L.warmupPolls == 0 }

  function RatedAll(lanes: seq<Lane>): (w: seq<bool>)
    ensures |w| == |lanes|
  {
    seq(|lanes|, i requires 0 <= i < |lanes| => Rated(lanes[i]))
  }

  predicate Wide(L: Lane) { !L.IsParked() && L.m.floorDb.Some? && !L.cfg.demod.Ssb() }

  /** The quietest wide lane's floor among the first n lanes. */
  function SharedFloor(lanes: seq<Lane>, n: nat): Option<real>
    requires n <= |lanes|
  {
    if n == 0 then None
    else
      var f := SharedFloor(lanes, n - 1);
      if !Wide(lanes[n - 1]) then f
      else if f.Some? && f.value <= lanes[n - 1].m.floorDb.value then f
      else lanes[n - 1].m.floorDb
  }

  function Base(L: Lane, floor: Option<real>): Option<real> { if L.cfg.demod.Ssb() then L.m.floorDb else floor }

  function OpenDb(L: Lane, p: Params): real { if L.cfg.openDb.Some? then L.cfg.openDb.value else p.openDb }

  function HangS(L: Lane, p: Params): real { (if L.cfg.hangMs.Some? then L.cfg.hangMs.value else p.hangMs) / 1000.0 }

  function Abs(x: real): real { if x < 0.0 then -x else x }

  predicate SubMatch(L: Lane, r: Reading) {
    if L.cfg.dcs.Some? then r.dcs == L.cfg.dcs
    else L.cfg.ctcssHz.Some? ==> r.tone.Some? && Abs(r.tone.value - L.cfg.ctcssHz.value) <= CTCSS_MATCH_HZ
  }

  function LossS(L: Lane): real { if L.cfg.dcs.Some? then DCS_LOSS_S else CTCSS_LOSS_S }

  /** A spent alert pull-in gives the lane its configured audibility back. */
  function ExpireAlert(s: State, i: int, now: real): (t: State)
    requires ValidSlot(s, i)
    ensures |t.lanes| == |s.lanes| && t.Sane()
  {
    var L := s.lanes[i];
    if !(L.alertUntil >= 0.0 && now >= L.alertUntil) then s
    else
      var t := s.(lanes := s.lanes[i := L.(alertUntil := -1.0, allowAudio := L.cfg.audible)]);
      if !L.cfg.audible && t.audible == i then SetAudible(t.(gate := false), NextOpen(t.lanes)) else t
  }

  /** The lane's episode flag, sub-audible squelch, carrier gate and quieting after one reading. */
  function Measure(L: Lane, now: real, r: Reading, base: real, p: Params): (t: Meters)
    ensures t.floorDb == L.m.floorDb
  {
    var m, ssb := L.m, L.cfg.demod.Ssb();
    var top := base + OpenDb(L, p);
    var tx := if m.txActive then r.slowDb >= top - CLOSE_HYST_DB else r.slowDb > top && now >= L.skipUntil;
    var toneSeen := if L.SubGated() && SubMatch(L, r) then now else if !L.open && !tx then -1.0 else m.toneSeen;
    var toneOk := if L.SubGated() then toneSeen >= 0.0 && now - toneSeen <= LossS(L) else m.toneOk;
    var energy := r.fastDb > top - CLOSE_HYST_DB + (if m.carrier then -GATE_HYST_DB / 2.0 else GATE_HYST_DB / 2.0);
    var held := ssb && m.carrierSeen >= 0.0 && now - m.carrierSeen <= SSB_GATE_HOLD_S;
    var quiet := ssb || (r.quietReady && r.quietDb < p.quietDb
      + (if m.quiet then QUIET_HYST_DB / 2.0 else -QUIET_HYST_DB / 2.0));
    Meters(m.floorDb, energy || held, quiet, if ssb && energy then now else m.carrierSeen, toneSeen, toneOk, tx)
  }

  function Meter(s: State, i: int, now: real, r: Reading, base: real, p: Params): (t: State)
    requires ValidSlot(s, i)
    ensures |t.lanes| == |s.lanes| && t.Sane()
  {
    var m := Measure(s.lanes[i], now, r, base, p);
    s.(lanes := s.lanes[i := s.lanes[i].(m := m)], gate := if s.audible == i then m.carrier && m.quiet && m.toneOk
      else s.gate)
  }

  /** One poll's worth of evidence for opening a closed, metered lane. */
  predicate OpenEvidence(L: Lane, now: real, db: real, base: real, p: Params) {
    db > base + OpenDb(L, p) && L.m.quiet && L.m.toneOk && now >= L.skipUntil
  }

  function Decide(s: State, i: int, now: real, db: real, base: real, p: Params): (t: State)
    requires ValidSlot(s, i)
    ensures |t.lanes| == |s.lanes| && t.Sane()
  {
    var L := s.lanes[i];
    if !L.open then
      if !OpenEvidence(L, now, db, base, p) then s.(lanes := s.lanes[i := L.(above := 0)])
      else if L.above + 1 >= OPEN_POLLS then OpenLane(s, i)
      else s.(lanes := s.lanes[i := L.(above := L.above + 1)])
    else if db < base + OpenDb(L, p) - CLOSE_HYST_DB || !L.m.quiet then
      if L.belowSince < 0.0 then s.(lanes := s.lanes[i := L.(belowSince := now)])
      else if now - L.belowSince >= HangS(L, p) then CloseLane(s, i)
      else s
    else s.(lanes := s.lanes[i := L.(belowSince := -1.0)])
  }

  function PollLane(s: State, i: int, now: real, r: Reading, rated: bool, floor: Option<real>, p: Params): (t: State)
    requires ValidSlot(s, i)
    ensures |t.lanes| == |s.lanes| && t.Sane()
  {
    var L := s.lanes[i];
    if L.IsParked() || !rated || L.cfg.background || Base(L, floor).None? then s
    else
      var base := Base(L, floor).value;
      Decide(Meter(ExpireAlert(s, i, now), i, now, r, base, p), i, now, r.slowDb, base, p)
  }

  /** The second pass over the first k lanes. */
  function PollUpTo(s: State, k: nat, now: real, r: seq<Reading>, rated: seq<bool>, floor: Option<real>,
      p: Params): (t: State)
    requires |r| == |rated| == |s.lanes| && k <= |s.lanes| && s.Sane()
    ensures |t.lanes| == |s.lanes| && t.Sane()
  {
    if k == 0 then s
    else PollLane(PollUpTo(s, k - 1, now, r, rated, floor, p), k - 1, now, r[k - 1], rated[k - 1], floor, p)
  }

  function Poll(s: State, now: real, r: seq<Reading>, p: Params): (t: State)
    requires s.Sane()
    ensures |t.lanes| == |s.lanes| && t.Sane()
  {
    if s.monitor || |r| != |s.lanes| then s
    else
      var w := s.(lanes := WarmAll(s.lanes, r));
      PollUpTo(w, |s.lanes|, now, r, RatedAll(s.lanes), SharedFloor(w.lanes, |w.lanes|), p)
  }

  // ---- Commands

  /** The squelch profile kept from a command: sub-audible squelch is an FM thing, DCS before CTCSS. */
  function Profile(c: ChannelCmd): ChannelCmd {
    if c.demod.Fm? && !c.background then (if c.dcs.Some? then c.(ctcssHz := None) else c)
    else c.(ctcssHz := None, dcs := None)
  }

  function Assigned(c: ChannelCmd, skipById: map<LaneId, real>): Lane {
    Lane(Profile(c), FRESH_METERS, WARMUP_POLLS, false, 0, -1.0, c.audible, -1.0,
         if c.id in skipById then skipById[c.id] else 0.0)
  }

  function Filter(cs: seq<ChannelCmd>, background: bool): (f: seq<ChannelCmd>)
    ensures forall c :: c in f <==> c in cs && c.background == background
  {
    if cs == [] then []
    else if cs[0].background == background then [cs[0]] + Filter(cs[1..], background)
    else Filter(cs[1..], background)
  }

  function RegularSlots(n: nat, bgs: seq<ChannelCmd>): int { if bgs == [] then n else n - 1 }

  /** What slot i of n carries: the background channel keeps the last slot, the rest fill in order. */
  function Slot(regs: seq<ChannelCmd>, bgs: seq<ChannelCmd>, n: nat, i: nat): Option<ChannelCmd>
  {
    if i == n - 1 && bgs != [] then Some(bgs[0])
    else if i < |regs| && i < RegularSlots(n, bgs) then Some(regs[i])
    else None
  }

  function Slots(channels: seq<ChannelCmd>, n: nat, skipById: map<LaneId, real>): (ls: seq<Lane>)
    ensures |ls| == n
  {
    var regs, bgs := Filter(channels, false), Filter(channels, true);
    seq(n, i requires 0 <= i < n =>
      match Slot(regs, bgs, n, i)
      case Some(c) => Assigned(c, skipById)
      case None => PARKED_LANE)
  }

  /** The close events of the first k lanes, in slot order. */
  function Closings(lanes: seq<Lane>, k: nat): seq<Event>
    requires k <= |lanes|
  {
    if k == 0 then []
    else Closings(lanes, k - 1) + (if !lanes[k - 1].IsParked() && lanes[k - 1].open then [Close(lanes[k - 1].cfg.id)]
      else [])
  }

  predicate Truncates(channels: seq<ChannelCmd>, n: nat) {
    var bgs := Filter(channels, true);
    |Filter(channels, false)| > RegularSlots(n, bgs) || |bgs| > 1
  }

  function FirstAssigned(lanes: seq<Lane>, from: nat): (i: int)
    requires from <= |lanes|
    ensures -1 <= i < |lanes|
    ensures i >= 0 ==> from <= i && !lanes[i].IsParked()
    ensures forall j :: from <= j < (if i < 0 then |lanes| else i) ==> lanes[j].IsParked()
    decreases |lanes| - from
  {
    if from == |lanes| then -1 else if !lanes[from].IsParked() then from else FirstAssigned(lanes, from + 1)
  }

  /** Weather-only: the operator's channel is held open and audible, squelch off. */
  function HoldOpen(s: State): (t: State)
    requires s.Sane()
  {
    var i := FirstAssigned(s.lanes, 0);
    if i < 0 then s
    else
      var L := s.lanes[i].(open := true, m := s.lanes[i].m.(carrier := true, quiet := true));
      SetAudible(s.(lanes := s.lanes[i := L], out := s.out + [Open(L.cfg.id)]), i).(gate := true)
  }

  /** A retune up to its ack: every open lane closed, the speaker silenced, the slots reassigned. */
  function Retuned(s: State, centerHz: real, channels: seq<ChannelCmd>, monitor: bool): (t: State)
    requires s.Sane()
    ensures |t.lanes| == |s.lanes| && t.audible == -1
  {
    var n := |s.lanes|;
    var log := if Truncates(channels, n) then [Log] else [];
    var silent := SetAudible(s.(monitor := monitor, out := s.out + Closings(s.lanes, n) + log), -1);
    silent.(lanes := Slots(channels, n, s.skipById), out := silent.out + [Tuned(centerHz)])
  }

  function Tune(s: State, centerHz: real, channels: seq<ChannelCmd>, monitor: bool): (t: State)
    requires s.Sane()
    ensures |t.lanes| == |s.lanes| && t.Sane()
  {
    var t := Retuned(s, centerHz, channels, monitor);
    if monitor then HoldOpen(t) else t
  }

  /** The ranges in which a Close Call may take the speaker, replaced by each tune command. */
  function SetCcAudible(s: State, ranges: Option<seq<(real, real)>>): (t: State)
    ensures t.lanes == s.lanes && t.audible == s.audible && t.out == s.out
  {
    s.(ccAudible := ranges)
  }

  /** Unexpired skip holdoffs. */
  function Unexpired(m: map<LaneId, real>, now: real): map<LaneId, real> { map k | k in m && m[k] > now :: m[k] }

  function Skip(s: State, holdoffS: real, now: real): (t: State)
    requires s.Sane()
    ensures |t.lanes| == |s.lanes| && t.Sane()
  {
    if s.audible < 0 then s
    else
      var i := s.audible;
      var id := s.lanes[i].cfg.id;
      var t := CloseLane(s.(lanes := s.lanes[i := s.lanes[i].(m := s.lanes[i].m.(txActive := false))]), i);
      if id.CloseCall? then t
      else t.(lanes := t.lanes[i := t.lanes[i].(skipUntil := now + holdoffS)],
              skipById := Unexpired(t.skipById, now)[id := now + holdoffS])
  }

  function Find(lanes: seq<Lane>, id: LaneId, from: nat): (i: int)
    requires from <= |lanes|
    ensures -1 <= i < |lanes|
    ensures i >= 0 ==> from <= i && lanes[i].cfg.id == id
    ensures forall j :: from <= j < (if i < 0 then |lanes| else i) ==> lanes[j].cfg.id != id
    decreases |lanes| - from
  {
    if from == |lanes| then -1 else if lanes[from].cfg.id == id then from else Find(lanes, id, from + 1)
  }

  function AlertUnmute(s: State, id: LaneId, holdS: real, now: real): (t: State)
    requires s.Sane()
    ensures |t.lanes| == |s.lanes| && t.Sane()
  {
    var i := Find(s.lanes, id, 0);
    if i < 0 || id.Parked? then s
    else
      var t := s.(lanes := s.lanes[i := s.lanes[i].(allowAudio := true, alertUntil := now + holdS)]);
      if t.lanes[i].open then SetAudible(t, i) else t
  }

  predicate InRanges(f: int, ranges: seq<(real, real)>) {
    exists k :: 0 <= k < |ranges| && ranges[k].0 <= f as real <= ranges[k].1
  }

  function CloseCallCmd(f: int, ccAudible: Option<seq<(real, real)>>): ChannelCmd {
    var ok := ccAudible.Some? ==> InRanges(f, ccAudible.value);
    ChannelCmd(CloseCall(f), f as real, ok, if AIRBAND_LO_HZ <= f <= AIRBAND_HI_HZ then Am
      else Fm, ok, false, None, None, None, None)
  }

  function AssignCc(s: State, f: int): (t: State)
    requires s.Sane()
    ensures |t.lanes| == |s.lanes| && t.Sane()
  {
    var i := Find(s.lanes, Parked, 0);
    if i < 0 then s else s.(lanes := s.lanes[i := Assigned(CloseCallCmd(f, s.ccAudible), s.skipById)])
  }
}
