/** What the scan scheduler keeps over whole runs: rotation order and dwell, priority looks
    that cost the interrupted group nothing, and a bound on how long one window can be held. */
module HopRuns {
  import opened Options
  import opened SquelchSpec
  import opened HopSpec

  datatype Input = AtTick(now: real, dwell: real)
                 | Got(e: Event, at: real)
                 | Alerted(id: LaneId, holdS: real, since: real)
                 | Retargeted(cfg: Config, groups: seq<Group>, sweeps: seq<real>, from: real)

  /** What can come in. The clock is a wall clock: it reads more than any dwell or look ever lasts. A new
      configuration has a group to tune to, and the hold cap is the engine's own. */
  predicate InputOk(cfg: Config, i: Input) {
    match i
    case AtTick(now, dwell) => now > 0.0 && now >= cfg.dwellMs && now >= cfg.lookMs && now >= dwell
    case Retargeted(next, groups, _, _) => groups != [] && next.maxHoldMs == cfg.maxHoldMs
    case _ => true
  }

  function Step(s: Node, cfg: Config, i: Input): (t: Node)
    requires s.Valid() && InputOk(cfg, i)
  {
    match i
    case AtTick(now, dwell) => Tick(s, cfg, now, dwell)
    case Got(e, at) => OnEvent(s, cfg, e, at)
    case Alerted(id, holdS, since) => OnAlert(s, id, holdS, since)
    case Retargeted(next, groups, sweeps, from) => Retarget(s, next, groups, sweeps, from)
  }

  /** The window's share before the timer moves on. */
  function Quota(s: Node, cfg: Config, dwell: real): real {
    if s.rot.sweeping then cfg.dwellMs else if s.rot.revisit.Some? then cfg.lookMs else dwell
  }

  predicate LookDue(s: Node, cfg: Config, deltaMs: real)
    requires s.Valid()
  {
    && !s.rot.sweeping && s.rot.revisit.None? && cfg.revisits && !cfg.monitor
    && (exists i :: 0 <= i < |s.rot.groups| && HasPriority(s.rot.groups[i])) && !HasPriority(s.rot.groups[s.rot.index])
    && s.rot.creditMs + deltaMs >= cfg.everyMs
  }

  /** The rotation either stays where it is, or hops: one tune, nothing believed open. */
  ghost predicate StaysOrHops(s: Node, t: Node) {
    || (t.sent == s.sent && t.openIds == s.openIds && t.rot.index == s.rot.index)
    || (|t.sent| == |s.sent| + 1 && s.sent <= t.sent && t.openIds == {}
        && t.rot.index < |t.rot.groups| && (t.sent[|s.sent|].channels == [] || t.sent[|s.sent|].channels
          == t.rot.groups[t.rot.index].channels))
  }

  lemma Candidates(groups: seq<Group>)
    ensures var targets := PriorityGroups(groups, |groups|);
      && (targets != [] ==> 0 <= targets[0] < |groups| && HasPriority(groups[targets[0]]))
      && (forall i :: 0 <= i < |groups| ==> (i in targets <==> HasPriority(groups[i])))
  {}

  lemma AdvanceHops(s: Node, cfg: Config, deltaMs: real, now: real, dwell: real)
    requires s.Valid()
    ensures var t := Advance(s, cfg, deltaMs, now, dwell);
      && t.Valid() && t.rot.groups == s.rot.groups && t.lastTickAt == s.lastTickAt
      && StaysOrHops(s, t)
      && (t.sent != s.sent ==> t.holdStartedAt == 0.0)
      && (t.sent == s.sent ==>
        t.holdStartedAt == s.holdStartedAt && t.groupStartedAt == s.groupStartedAt
        && t.rot == s.rot.(creditMs := t.rot.creditMs))
  {
    Candidates(s.rot.groups);
    hide PriorityGroups, Quota;
  }

  lemma AdvanceSends(s: Node, cfg: Config, deltaMs: real, now: real, dwell: real)
    requires s.Valid()
    ensures Advance(s, cfg, deltaMs, now, dwell).sent != s.sent <==>
      now - s.groupStartedAt >= Quota(s, cfg, dwell)
      || LookDue(s, cfg, deltaMs)
  {
    Candidates(s.rot.groups);
    hide PriorityGroups;
  }

  /** A breached hold always ends in a tune, so Node never forgets an open lane without making the
      helper close it -- exactly when the clock reads at least the window's share (or a look is due). */
  lemma ForcedHopTunes(s: Node, cfg: Config, now: real, dwell: real)
    requires s.Valid() && CapBreached(s, cfg, now)
    ensures Tick(s, cfg, now, dwell).openIds == {}
    ensures Tick(s, cfg, now, dwell).sent != s.sent <==>
      now >= Quota(s, cfg, dwell) || LookDue(s, cfg, if now > s.lastTickAt then now - s.lastTickAt else 0.0)
  {
    hide Advance;
    var deltaMs := if now > s.lastTickAt then now - s.lastTickAt else 0.0;
    var s2 := ReleaseOpen(s.(lastTickAt := now)).(holdStartedAt := 0.0, groupStartedAt := 0.0);
    AdvanceHops(s2, cfg, deltaMs, now, dwell);
    AdvanceSends(s2, cfg, deltaMs, now, dwell);
  }

  lemma TickHops(s: Node, cfg: Config, now: real, dwell: real)
    requires s.Valid() && InputOk(cfg, AtTick(now, dwell))
    ensures var t := Tick(s, cfg, now, dwell);
      t.Valid() && t.rot.groups == s.rot.groups && t.lastTickAt == now && StaysOrHops(s, t)
    ensures CapBreached(s, cfg, now) ==> Tick(s, cfg, now, dwell).sent != s.sent
  {
    hide Advance, CapBreached, HasAudibleOpen;
    var deltaMs := if now > s.lastTickAt then now - s.lastTickAt else 0.0;
    var s1 := s.(lastTickAt := now);
    AdvanceHops(ReleaseOpen(s1).(holdStartedAt := 0.0, groupStartedAt := 0.0), cfg, deltaMs, now, dwell);
    AdvanceSends(ReleaseOpen(s1).(holdStartedAt := 0.0, groupStartedAt := 0.0), cfg, deltaMs, now, dwell);
    AdvanceHops(s1.(holdStartedAt := 0.0), cfg, deltaMs, now, dwell);
    AdvanceSends(s1.(holdStartedAt := 0.0), cfg, deltaMs, now, dwell);
  }

  // ---- Whole runs

  lemma StepValid(s: Node, cfg: Config, i: Input)
    requires s.Valid() && InputOk(cfg, i)
    ensures Step(s, cfg, i).Valid()
  {
    hide Tick;
    if i.AtTick? { TickHops(s, cfg, i.now, i.dwell); }
  }

  /** The configuration in force after some inputs. */
  function InForce(cfg: Config, ins: seq<Input>): Config {
    if ins == [] then cfg
    else if ins[|ins| - 1].Retargeted? then ins[|ins| - 1].cfg
    else InForce(cfg, ins[..|ins| - 1])
  }

  predicate AllOk(cfg: Config, ins: seq<Input>): (b: bool)
    ensures b ==> InForce(cfg, ins).maxHoldMs == cfg.maxHoldMs
  {
    ins == [] || (AllOk(cfg, ins[..|ins| - 1]) && InputOk(InForce(cfg, ins[..|ins| - 1]), ins[|ins| - 1]))
  }

  function Run(s: Node, cfg: Config, ins: seq<Input>): (t: Node)
    requires s.Valid() && AllOk(cfg, ins)
    ensures t.Valid()
  {
    if ins == [] then s
    else
      var k := |ins| - 1;
      var u := Run(s, cfg, ins[..k]);
      StepValid(u, InForce(cfg, ins[..k]), ins[k]);
      Step(u, InForce(cfg, ins[..k]), ins[k])
  }

  // ---- Rotation

  datatype Stop = AtGroup(index: nat) | AtSweep

  /** Where the rotation stands; a look does not move it. */
  function Where(s: Node): Stop {
    if s.rot.sweeping then AtSweep else AtGroup(if s.rot.revisit.Some? then s.rot.revisit.value.returnIndex
      else s.rot.index)
  }

  /** Cyclic order, with one sweep stop per wrap when there is anything to sweep. */
  function NextStop(rot: Rotation, at: Stop): Stop {
    match at
    case AtSweep => AtGroup(0)
    case AtGroup(i) => if i + 1 < |rot.groups| then AtGroup(i + 1) else if rot.sweeps != [] then AtSweep else AtGroup(0)
  }

  /** What an arrival at a stop writes to the helper. */
  function ArrivalTune(s: Node, cfg: Config, at: Stop): TuneMsg
    requires at.AtGroup? ==> at.index < |s.rot.groups|
    requires at.AtSweep? ==> s.rot.sweeps != []
  {
    match at
    case AtSweep => TuneMsg(s.rot.sweeps[s.rot.sweepIndex % |s.rot.sweeps|], [], false, cfg.ccAudible)
    case AtGroup(i) => TuneMsg(s.rot.groups[i].centerHz + cfg.centerOffsetHz, s.rot.groups[i].channels, cfg.monitor,
      cfg.ccAudible)
  }

  /** Looks go from an ordinary group to a priority group, and never interrupt a sweep stop. */
  predicate LooksWell(s: Node)
    requires s.Valid()
  {
    && (s.rot.sweeping ==> s.rot.revisit.None? && s.rot.sweeps != [])
    && (s.rot.revisit.Some? ==>
      HasPriority(s.rot.groups[s.rot.index])
      && !HasPriority(s.rot.groups[s.rot.revisit.value.returnIndex]))
  }

  /** Time the current stop has had outside looks, at time t. */
  function Spent(s: Node, t: real): real {
    if s.rot.revisit.Some? then s.rot.revisit.value.elapsedMs else t - s.groupStartedAt
  }

  /** What a tick that nothing audible holds back may do: move to the next stop with its tune written,
      or stay with the time spent intact -- looks or no looks. */
  ghost predicate MovesOrStays(s: Node, cfg: Config, t: Node, now: real, moves: bool)
    requires s.Valid()
  {
    && t.Valid() && LooksWell(t)
    && t.rot.groups == s.rot.groups && t.rot.sweeps == s.rot.sweeps
    && (moves ==>
          && Where(t) == NextStop(s.rot, Where(s)) && (Where(t).AtSweep? ==> s.rot.sweeps != [])
          && Spent(t, now) == 0.0 && t.rot.revisit.None? && t.openIds == {}
          && t.sent == s.sent + [ArrivalTune(s, cfg, Where(t))]
          && t.rot.sweepIndex == s.rot.sweepIndex + (if Where(t).AtSweep? then 1 else 0))
    && (!moves ==>
          && Where(t) == Where(s) && Spent(t, now) == Spent(s, now) && t.rot.sweepIndex == s.rot.sweepIndex
          && (t.sent == s.sent ==> t.rot.revisit == s.rot.revisit)
          && (t.sent != s.sent ==>
            && t.rot.revisit.Some? != s.rot.revisit.Some?
            && t.sent == s.sent + [ArrivalTune(s, cfg, AtGroup(t.rot.index))]))
  }

  lemma LookStays(s: Node, cfg: Config, deltaMs: real, now: real)
    requires s.Valid() && LooksWell(s) && s.rot.revisit.None? && !s.rot.sweeping
    ensures MovesOrStays(s, cfg, MaybeStartRevisit(s, cfg, deltaMs, now), now, false)
  {
    var targets := PriorityGroups(s.rot.groups, |s.rot.groups|);
    if targets != [] {
      var pick := targets[s.rot.cursor % |targets|];
      assert HasPriority(s.rot.groups[pick]);
    }
    hide PriorityGroups, HasPriority;
  }

  lemma SweepStop(s: Node, cfg: Config, deltaMs: real, now: real, dwell: real)
    requires s.Valid() && LooksWell(s) && s.rot.sweeping
    ensures MovesOrStays(s, cfg, Advance(s, cfg, deltaMs, now, dwell), now, now - s.groupStartedAt >= cfg.dwellMs)
  {
    hide HasPriority;
  }

  lemma LookStop(s: Node, cfg: Config, deltaMs: real, now: real, dwell: real)
    requires s.Valid() && LooksWell(s) && !s.rot.sweeping && s.rot.revisit.Some?
    ensures MovesOrStays(s, cfg, Advance(s, cfg, deltaMs, now, dwell), now, false)
  {
    hide HasPriority;
  }

  lemma GroupStop(s: Node, cfg: Config, deltaMs: real, now: real, dwell: real)
    requires s.Valid() && LooksWell(s) && !s.rot.sweeping && s.rot.revisit.None?
    ensures MovesOrStays(s, cfg, Advance(s, cfg, deltaMs, now, dwell), now, now - s.groupStartedAt >= dwell)
  {
    hide MaybeStartRevisit, HasPriority;
    if now - s.groupStartedAt < dwell { LookStays(s, cfg, deltaMs, now); }
  }

  lemma AdvanceStop(s: Node, cfg: Config, deltaMs: real, now: real, dwell: real)
    requires s.Valid() && LooksWell(s)
    ensures MovesOrStays(s, cfg, Advance(s, cfg, deltaMs, now, dwell), now,
                         s.rot.revisit.None? && now - s.groupStartedAt >= Quota(s, cfg, dwell))
  {
    hide MovesOrStays, Advance;
    if s.rot.sweeping {
      SweepStop(s, cfg, deltaMs, now, dwell);
    } else if s.rot.revisit.Some? {
      LookStop(s, cfg, deltaMs, now, dwell);
    } else {
      GroupStop(s, cfg, deltaMs, now, dwell);
    }
  }

  /** Something audible is open and not yet taken for stuck. */
  predicate Held(s: Node, cfg: Config, now: real)
    requires s.Valid()
  {
    HasAudibleOpen(s, cfg, now) && !CapBreached(s, cfg, now)
  }

  /** Does this tick leave the stop? Not in a look, and either the hold was given up or the share is over. */
  predicate Leaves(s: Node, cfg: Config, now: real, dwell: real, spent: real)
    requires s.Valid()
  {
    && s.rot.revisit.None? && !Held(s, cfg, now)
    && (CapBreached(s, cfg, now) || spent >= Quota(s, cfg, dwell))
  }

  /** One tick. Held, it restarts the share of the window it is in and does nothing else; otherwise the stop
      moves on exactly when it is not in a look and has had its share, or its hold was given up. */
  lemma TickStop(s: Node, cfg: Config, now: real, dwell: real)
    requires s.Valid() && LooksWell(s) && InputOk(cfg, AtTick(now, dwell))
    ensures var t := Tick(s, cfg, now, dwell);
      && (Held(s, cfg, now) ==> t.rot == s.rot && t.sent == s.sent && t.openIds == s.openIds && t.groupStartedAt == now)
      && (!Held(s, cfg, now) ==> MovesOrStays(s, cfg, t, now, Leaves(s, cfg, now, dwell, now - s.groupStartedAt)))
  {
    hide Advance, HasAudibleOpen;
    var deltaMs := if now > s.lastTickAt then now - s.lastTickAt else 0.0;
    var s1 := s.(lastTickAt := now);
    if CapBreached(s, cfg, now) {
      AdvanceStop(ReleaseOpen(s1).(holdStartedAt := 0.0, groupStartedAt := 0.0), cfg, deltaMs, now, dwell);
    } else {
      AdvanceStop(s1.(holdStartedAt := 0.0), cfg, deltaMs, now, dwell);
    }
  }

  /** The close of the last open lane restarts the share if the lane was audible; a silent one does not. */
  predicate Rearms(s: Node, cfg: Config, e: Event, now: real)
    requires s.Valid()
  {
    e.Close? && s.openIds == {e.id} && Claims(s, cfg, e.id, now)
  }

  lemma EventStop(s: Node, cfg: Config, e: Event, now: real)
    requires s.Valid()
    ensures var t := OnEvent(s, cfg, e, now);
      t.rot == s.rot && t.sent == s.sent && t.groupStartedAt == if Rearms(s, cfg, e, now) then now else s.groupStartedAt
  {
    hide Claims;
  }

  /** At time t, how long the present stop has had since it was arrived at or last restarted by traffic,
      looks not counted -- read off the inputs and the tunes written, without the scheduler's clocks. */
  function Stay(s: Node, cfg: Config, ins: seq<Input>, t: real): real
    requires s.Valid() && AllOk(cfg, ins)
  {
    if ins == [] then t - s.groupStartedAt
    else
      var k := |ins| - 1;
      var u, v, c := Run(s, cfg, ins[..k]), Run(s, cfg, ins), InForce(cfg, ins[..k]);
      var inLook := u.rot.revisit.Some?;
      match ins[k]
      case AtTick(now, _) =>
        if v.sent != u.sent then
          if inLook then Stay(s, cfg, ins[..k], now) + t - now          // the look is over
          else if v.rot.revisit.Some? then Stay(s, cfg, ins[..k], now)  // a look begins
          else t - now                                                  // a new stop
        else if Held(u, c, now) && !inLook then t - now
        else Stay(s, cfg, ins[..k], t)
      case Got(e, at) => if Rearms(u, c, e, at) && !inLook then t - at else Stay(s, cfg, ins[..k], t)
      case Alerted(_, _, _) => Stay(s, cfg, ins[..k], t)
      case Retargeted(_, _, _, from) => t - from
  }

  /** In any run the scheduler's bookkeeping is that stay, whatever traffic, looks, alert pull-ins and new
      configurations there were. */
  lemma {:induction false} StayIsSpent(s: Node, cfg: Config, ins: seq<Input>, t: real)
    requires s.Valid() && LooksWell(s) && s.rot.revisit.None? && AllOk(cfg, ins)
    ensures LooksWell(Run(s, cfg, ins)) && Stay(s, cfg, ins, t) == Spent(Run(s, cfg, ins), t)
  {
    if ins != [] {
      hide Tick, OnEvent, LooksWell;
      var k := |ins| - 1;
      var u, c := Run(s, cfg, ins[..k]), InForce(cfg, ins[..k]);
      StayIsSpent(s, cfg, ins[..k], t);
      match ins[k]
      case AtTick(now, dwell) =>
        StayIsSpent(s, cfg, ins[..k], now);
        TickStop(u, c, now, dwell);
        TurnSpent(u, c, now, dwell, t);
      case Got(e, at) =>
        EventStop(u, c, e, at);
        SameLooks(u, OnEvent(u, c, e, at));
      case Alerted(_, _, _) => SameLooks(u, Run(s, cfg, ins));
      case Retargeted(_, _, _, _) => FreshLooks(Run(s, cfg, ins));
    }
  }

  lemma SameLooks(u: Node, v: Node)
    requires u.Valid() && v.Valid() && v.rot == u.rot && LooksWell(u)
    ensures LooksWell(v)
  {}

  lemma FreshLooks(v: Node)
    requires v.Valid() && v.rot.revisit.None? && !v.rot.sweeping
    ensures LooksWell(v)
  {}

  lemma TurnSpent(u: Node, c: Config, now: real, dwell: real, t: real)
    requires u.Valid() && LooksWell(u) && InputOk(c, AtTick(now, dwell))
    ensures var v := Tick(u, c, now, dwell);
      && v.Valid() && LooksWell(v)
      && Spent(v, t) == (if v.sent != u.sent then
                           if u.rot.revisit.Some? then Spent(u, now) + t - now
                           else if v.rot.revisit.Some? then Spent(u, now) else t - now
                         else if Held(u, c, now) && u.rot.revisit.None? then t - now else Spent(u, t))
  {
    TickStop(u, c, now, dwell);
    TickHops(u, c, now, dwell);
    QuietClock(u, c, now, dwell);
    hide Tick;
  }

  /** The scheduler's clock moves at a tick only with a tune or a hold. */
  lemma QuietClock(u: Node, c: Config, now: real, dwell: real)
    requires u.Valid() && InputOk(c, AtTick(now, dwell))
    ensures var v := Tick(u, c, now, dwell);
      v.sent == u.sent && !Held(u, c, now) ==> v.groupStartedAt == u.groupStartedAt
  {
    hide Advance, HasAudibleOpen;
    TickHops(u, c, now, dwell);
    AdvanceHops(u.(lastTickAt := now, holdStartedAt := 0.0), c, if now > u.lastTickAt then now - u.lastTickAt
      else 0.0, now, dwell);
  }

  /** Rotation over every run: a tick leaves the stop exactly when it is not in a look, nothing audible
      holds it, and either its own time adds up to its full share or its hold has just been given up;
      then it goes on to the next stop in cyclic order, with that stop's tune. */
  lemma RotationRun(s: Node, cfg: Config, ins: seq<Input>, now: real, dwell: real)
    requires s.Valid() && LooksWell(s) && s.rot.revisit.None?
    requires AllOk(cfg, ins) && AllOk(cfg, ins + [AtTick(now, dwell)])
    ensures var u, t, c := Run(s, cfg, ins), Run(s, cfg, ins + [AtTick(now, dwell)]), InForce(cfg, ins);
      && (Leaves(u, c, now, dwell, Stay(s, cfg, ins, now)) ==>
            Where(t) == NextStop(u.rot, Where(u)) && t.sent == u.sent + [ArrivalTune(u, c, Where(t))])
      && (!Leaves(u, c, now, dwell, Stay(s, cfg, ins, now)) ==> Where(t) == Where(u))
  {
    hide Tick;
    var run := ins + [AtTick(now, dwell)];
    assert run[..|ins|] == ins && run[|ins|] == AtTick(now, dwell);
    StayIsSpent(s, cfg, ins, now);
    TickStop(Run(s, cfg, ins), InForce(cfg, ins), now, dwell);
  }

  /** An input that leaves the window's share alone: a tick with nothing audible open that writes no tune,
      any open, any alert, and any close but the last audible one's. */
  predicate Quiet(s: Node, cfg: Config, i: Input)
    requires s.Valid() && InputOk(cfg, i)
  {
    match i
    case AtTick(now, dwell) => !HasAudibleOpen(s, cfg, now) && Tick(s, cfg, now, dwell).sent == s.sent
    case Got(e, at) => !Rearms(s, cfg, e, at)
    case Alerted(_, _, _) => true
    case Retargeted(_, _, _, _) => false
  }

  ghost predicate QuietSince(s: Node, cfg: Config, ins: seq<Input>, k: nat)
    requires s.Valid() && AllOk(cfg, ins) && k <= |ins|
  {
    k == |ins| || (var m := |ins| - 1;
                   QuietSince(s, cfg, ins[..m], k) && Quiet(Run(s, cfg, ins[..m]), InForce(cfg, ins[..m]), ins[m]))
  }

  /** Silent traffic takes no scan time: through any quiet stretch, with silent lanes opening and closing
      at will, the stay grows by the clock alone. */
  lemma {:induction false} QuietStay(s: Node, cfg: Config, ins: seq<Input>, k: nat, t: real)
    requires s.Valid() && AllOk(cfg, ins) && k <= |ins| && QuietSince(s, cfg, ins, k)
    ensures AllOk(cfg, ins[..k]) && Stay(s, cfg, ins, t) == Stay(s, cfg, ins[..k], t)
  {
    if k == |ins| {
      assert ins[..k] == ins;
    } else {
      var m := |ins| - 1;
      hide Tick, OnEvent;
      QuietStay(s, cfg, ins[..m], k, t);
      assert ins[..m][..k] == ins[..k];
    }
  }

  /** A stop arrived at by tick k - 1 is left, after a quiet stretch, by the first tick that comes its full
      share after that one. */
  lemma QuietRun(s: Node, cfg: Config, ins: seq<Input>, k: nat, now: real, dwell: real)
    requires s.Valid() && LooksWell(s) && s.rot.revisit.None?
    requires AllOk(cfg, ins) && AllOk(cfg, ins + [AtTick(now, dwell)])
    requires 0 < k <= |ins| && QuietSince(s, cfg, ins, k) && ins[k - 1].AtTick?
    requires !HasAudibleOpen(Run(s, cfg, ins), InForce(cfg, ins), now)
    requires AllOk(cfg, ins[..k]) && AllOk(cfg, ins[..k - 1])
    requires var a, b := Run(s, cfg, ins[..k - 1]), Run(s, cfg, ins[..k]);
      b.sent != a.sent && a.rot.revisit.None? && b.rot.revisit.None?
    ensures var u, t, c := Run(s, cfg, ins), Run(s, cfg, ins + [AtTick(now, dwell)]), InForce(cfg, ins);
      && u.rot.revisit.None?
      && (now - ins[k - 1].now >= Quota(u, c, dwell) ==>
            Where(t) == NextStop(u.rot, Where(u)) && t.sent == u.sent + [ArrivalTune(u, c, Where(t))])
      && (now - ins[k - 1].now < Quota(u, c, dwell) ==> Where(t) == Where(u))
  {
    hide HasAudibleOpen, Tick;
    assert ins[..k][..k - 1] == ins[..k - 1];
    QuietStay(s, cfg, ins, k, now);
    QuietLook(s, cfg, ins, k);
    RotationRun(s, cfg, ins, now, dwell);
  }

  lemma {:induction false} QuietLook(s: Node, cfg: Config, ins: seq<Input>, k: nat)
    requires s.Valid() && LooksWell(s) && s.rot.revisit.None?
    requires AllOk(cfg, ins) && k <= |ins| && QuietSince(s, cfg, ins, k)
    ensures AllOk(cfg, ins[..k]) && Run(s, cfg, ins).rot.revisit == Run(s, cfg, ins[..k]).rot.revisit
  {
    if k == |ins| {
      assert ins[..k] == ins;
    } else {
      var m := |ins| - 1;
      hide Tick, OnEvent;
      QuietLook(s, cfg, ins[..m], k);
      assert ins[..m][..k] == ins[..k];
      var u, c := Run(s, cfg, ins[..m]), InForce(cfg, ins[..m]);
      StayIsSpent(s, cfg, ins[..m], 0.0);
      match ins[m]
      case AtTick(now, dwell) => TickStop(u, c, now, dwell);
      case Got(e, at) => EventStop(u, c, e, at);
      case _ =>
    }
  }

  // ---- Max hold

  /** When the unbroken hold now running was first seen by a tick: each tick found something
      audible open and did not hop, and at no event did the last open lane close. */
  function HoldStart(s: Node, cfg: Config, ins: seq<Input>): Option<real>
    requires s.Valid() && AllOk(cfg, ins)
  {
    if ins == [] then None
    else
      var k := |ins| - 1;
      var u, t, h := Run(s, cfg, ins[..k]), Run(s, cfg, ins), HoldStart(s, cfg, ins[..k]);
      match ins[k]
      case AtTick(now, _) =>
        if !HasAudibleOpen(u, InForce(cfg, ins[..k]), now) || t.sent != u.sent then None
          else if h.None? then Some(now) else h
      case Got(e, _) => if e.Close? && u.openIds != {} && t.openIds == {} then None else h
      case Alerted(_, _, _) => h
      case Retargeted(_, _, _, _) => None
  }

  lemma {:induction false} HoldStartTracked(s: Node, cfg: Config, ins: seq<Input>)
    requires s.Valid() && s.holdStartedAt == 0.0 && cfg.maxHoldMs > 0.0
    requires AllOk(cfg, ins)
    ensures var t := Run(s, cfg, ins);
      && HoldStart(s, cfg, ins) == (if t.holdStartedAt == 0.0 then None else Some(t.holdStartedAt))
      && (t.holdStartedAt != 0.0 ==> t.lastTickAt - t.holdStartedAt < cfg.maxHoldMs)
  {
    if ins != [] {
      var k := |ins| - 1;
      HoldStartTracked(s, cfg, ins[..k]);
      var u := Run(s, cfg, ins[..k]);
      hide Tick, HasAudibleOpen;
      match ins[k]
      case AtTick(now, dwell) => HoldTick(u, InForce(cfg, ins[..k]), now, dwell);
      case Got(e, at) =>
      case Alerted(_, _, _) =>
      case Retargeted(_, _, _, _) =>
    }
  }

  lemma HoldTick(s: Node, cfg: Config, now: real, dwell: real)
    requires s.Valid() && InputOk(cfg, AtTick(now, dwell)) && cfg.maxHoldMs > 0.0
    ensures var t := Tick(s, cfg, now, dwell);
      && (t.sent != s.sent ==> t.holdStartedAt == 0.0)
      && (t.sent == s.sent && !HasAudibleOpen(s, cfg, now) ==> t.holdStartedAt == 0.0)
      && (t.sent == s.sent && HasAudibleOpen(s, cfg, now) ==> t.holdStartedAt == if s.holdStartedAt == 0.0 then now
        else s.holdStartedAt)
      && (t.holdStartedAt != 0.0 ==> now - t.holdStartedAt < cfg.maxHoldMs)
  {
    TickHops(s, cfg, now, dwell);
    hide Advance, HasAudibleOpen;
    var deltaMs := if now > s.lastTickAt then now - s.lastTickAt else 0.0;
    var s1 := s.(lastTickAt := now);
    AdvanceHops(ReleaseOpen(s1).(holdStartedAt := 0.0, groupStartedAt := 0.0), cfg, deltaMs, now, dwell);
    AdvanceSends(ReleaseOpen(s1).(holdStartedAt := 0.0, groupStartedAt := 0.0), cfg, deltaMs, now, dwell);
    AdvanceHops(s1.(holdStartedAt := 0.0), cfg, deltaMs, now, dwell);
    AdvanceSends(s1.(holdStartedAt := 0.0), cfg, deltaMs, now, dwell);
  }

  /** No hold outlives maxHoldMs by more than one tick: a tick that lets it go on finds it younger
      than the cap, and the tick that ends it comes within one tick of the cap. */
  lemma HoldIsBounded(s: Node, cfg: Config, ins: seq<Input>, now: real, dwell: real)
    requires s.Valid() && s.holdStartedAt == 0.0 && cfg.maxHoldMs > 0.0
    requires AllOk(cfg, ins) && AllOk(cfg, ins + [AtTick(now, dwell)])
    requires HoldStart(s, cfg, ins).Some? && HasAudibleOpen(Run(s, cfg, ins), InForce(cfg, ins), now)
    ensures var u, t, since := Run(s, cfg, ins), Run(s, cfg, ins + [AtTick(now, dwell)]), HoldStart(s, cfg, ins).value;
      && (t.sent == u.sent <==> now - since < cfg.maxHoldMs)
      && (t.sent != u.sent ==> now - since < cfg.maxHoldMs + (now - u.lastTickAt))
  {
    var run := ins + [AtTick(now, dwell)];
    assert run[..|ins|] == ins && run[|ins|] == AtTick(now, dwell);
    HoldStartTracked(s, cfg, ins);
    HoldTick(Run(s, cfg, ins), InForce(cfg, ins), now, dwell);
    TickHops(Run(s, cfg, ins), InForce(cfg, ins), now, dwell);
    hide Advance;
  }
}
