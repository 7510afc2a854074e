/** WidebandEngine's scheduler object, its fields changed in place by helper events and timer
    ticks; each method makes exactly the step of `HopSpec`. */
module HopScheduler {
  import opened Options
  import opened SquelchSpec
  import opened HopSpec

  class WidebandEngine {
    var cfg: Config
    var openIds: set<LaneId>
    var alertUntil: map<LaneId, real>
    var groupStartedAt: real
    var holdStartedAt: real
    var lastTickAt: real
    var groups: seq<Group>
    var groupIndex: nat
    var sweeps: seq<real>
    var sweepIndex: nat
    var sweeping: bool
    var revisit: Option<Look>
    var revisitCreditMs: real
    var revisitCursor: nat
    var sent: seq<TuneMsg>            // tune lines written to the helper's stdin

    ghost function Now(): Node
      reads this
    {
      Node(openIds, alertUntil, groupStartedAt, holdStartedAt, lastTickAt,
           Rotation(groups, groupIndex, sweeps, sweepIndex, sweeping, revisit, revisitCreditMs, revisitCursor), sent)
    }

    ghost predicate Valid()
      reads this
    {
      Now().Valid()
    }

    /** A live helper's engine right after its first tune. */
    constructor (cfg: Config, groups: seq<Group>, sweeps: seq<real>, now: real)
      requires groups != []
      ensures Valid() && this.cfg == cfg
      ensures Now() == Retarget(Node({}, map[], 0.0, 0.0, 0.0, Rotation([], 0, [], 0, false, None, 0.0, 0), []), cfg,
        groups, sweeps, now)
    {
      this.cfg := cfg;
      openIds, alertUntil, groupStartedAt, holdStartedAt, lastTickAt := {}, map[], now, 0.0, now;
      this.groups, groupIndex, this.sweeps, sweepIndex, sweeping := groups, 0, sweeps, 0, false;
      revisit, revisitCreditMs, revisitCursor := None, 0.0, 0;
      sent := [TuneMsg(groups[0].centerHz + cfg.centerOffsetHz, groups[0].channels, cfg.monitor, cfg.ccAudible)];
    }

    method HandleOpen(id: LaneId)
      requires Valid()
      modifies this`openIds
      ensures Valid() && Now() == OnOpen(old(Now()), id)
    {
      if !id.CloseCall? {
        var channel := FindIn(groups[groupIndex].channels, id);
        if channel.None? { return; }     // stale: a lane of a group hopped away from
      }
      openIds := openIds + {id};
    }

    method HandleClose(id: LaneId, now: real)
      requires Valid()
      modifies this
      ensures Valid() && cfg == old(cfg) && Now() == OnClose(old(Now()), cfg, id, now)
    {
      ghost var s := Now();
      if id !in openIds { return; }      // stale: already released by a hop
      openIds := openIds - {id};
      if openIds == {} {
        holdStartedAt := 0.0;
        var claims := LaneClaims(id, now);
        assert Claims(s, cfg, id, now) == Claims(Now(), cfg, id, now);
        if claims { groupStartedAt := now; }
      }
    }

    /** alertUnmute: the helper's hold is mirrored here. */
    method AlertUnmute(id: LaneId, holdSeconds: real, now: real)
      requires Valid()
      modifies this`alertUntil
      ensures Valid() && Now() == OnAlert(old(Now()), id, holdSeconds, now)
    {
      var hold := if holdSeconds < 1.0 then 1.0 else holdSeconds;
      alertUntil := alertUntil[id := now + hold * 1000.0];
    }

    /** retune on a live helper: a new configuration, from the first of its groups. */
    method Retune(newCfg: Config, newGroups: seq<Group>, newSweeps: seq<real>, now: real)
      requires Valid() && newGroups != []
      modifies this
      ensures Valid() && cfg == newCfg && Now() == Retarget(old(Now()), newCfg, newGroups, newSweeps, now)
    {
      hide SendTune;
      ghost var s := Now();
      cfg := newCfg;
      StartOver(newGroups, newSweeps, now);
      assert Now() == s.(rot := Restarted(s.rot, newGroups, newSweeps), lastTickAt := now);
      SendGroupTune(now);
    }

    method StartOver(newGroups: seq<Group>, newSweeps: seq<real>, now: real)
      requires newGroups != []
      modifies `groups, `groupIndex, `sweeps, `sweepIndex, `sweeping, `revisit, `revisitCreditMs, `lastTickAt
      ensures Now() == old(Now()).(rot := Restarted(old(Now()).rot, newGroups, newSweeps), lastTickAt := now)
    {
      groups, groupIndex, sweeps, sweepIndex, sweeping := newGroups, 0, newSweeps, 0, false;
      revisit, revisitCreditMs, lastTickAt := None, 0.0, now;
    }

    method LaneClaims(id: LaneId, now: real) returns (b: bool)
      requires Valid()
      ensures b == Claims(Now(), cfg, id, now)
    {
      var channel;
      if id.CloseCall? {
        channel := CloseCallCmd(id.freqHz, cfg.ccAudible);
      } else {
        var found := FindIn(groups[groupIndex].channels, id);
        if found.None? { return true; }
        channel := found.value;
      }
      b := channel.audible || (channel.id in alertUntil && now < alertUntil[channel.id]);
    }

    method AnyAudibleOpen(now: real) returns (b: bool)
      requires Valid()
      ensures b == HasAudibleOpen(Now(), cfg, now)
    {
      var left := openIds;
      while left != {}
        invariant left <= openIds
        invariant forall id :: id in openIds - left ==> !Claims(Now(), cfg, id, now)
      {
        var id :| id in left;
        var claims := LaneClaims(id, now);
        if claims { return true; }
        left := left - {id};
      }
      return false;
    }

    method ReleaseOpenOnHop()
      modifies this`openIds
      ensures openIds == {}
    {
      openIds := {};
    }

    method SendGroupTune(now: real)
      requires Valid()
      modifies this
      ensures Valid() && cfg == old(cfg) && Now() == SendTune(old(Now()), cfg, now)
    {
      var group := groups[groupIndex];
      ReleaseOpenOnHop();
      holdStartedAt := 0.0;
      groupStartedAt := now;
      sent := sent + [TuneMsg(group.centerHz + cfg.centerOffsetHz, group.channels, cfg.monitor, cfg.ccAudible)];
    }

    method SendEmptyTune(centerHz: real, now: real)
      requires Valid()
      modifies this
      ensures Valid() && cfg == old(cfg) && Now() == SendSweepTune(old(Now()), cfg, centerHz, now)
    {
      ReleaseOpenOnHop();
      holdStartedAt := 0.0;
      groupStartedAt := now;
      sent := sent + [TuneMsg(centerHz, [], false, cfg.ccAudible)];
    }

    method StartLook(deltaMs: real, now: real)
      requires Valid() && revisit.None?
      modifies this
      ensures Valid() && cfg == old(cfg) && Now() == MaybeStartRevisit(old(Now()), cfg, deltaMs, now)
    {
      var targets := PriorityGroups(groups, |groups|);
      if !cfg.revisits || cfg.monitor || targets == [] { return; }
      if groupIndex in targets {
        revisitCreditMs := 0.0;
        return;
      }
      revisitCreditMs := revisitCreditMs + deltaMs;
      if revisitCreditMs < cfg.everyMs { return; }
      var pick := targets[revisitCursor % |targets|];
      revisitCursor := (revisitCursor + 1) % |targets|;
      revisitCreditMs := 0.0;
      revisit := Some(Look(groupIndex, now - groupStartedAt));
      groupIndex := pick;
      SendGroupTune(now);
    }

    method EndLook(now: real)
      requires Valid() && revisit.Some?
      modifies this
      ensures Valid() && cfg == old(cfg) && Now() == EndRevisit(old(Now()), cfg, now)
    {
      var r := revisit.value;
      revisit := None;
      groupIndex := r.returnIndex;
      SendGroupTune(now);
      groupStartedAt := now - r.elapsedMs;
    }

    method Rotate(deltaMs: real, now: real, dwell: real)
      requires Valid()
      modifies this
      ensures Valid() && cfg == old(cfg) && Now() == Advance(old(Now()), cfg, deltaMs, now, dwell)
    {
      hide MaybeStartRevisit;
      if sweeping {
        if now - groupStartedAt >= cfg.dwellMs {
          sweeping := false;
          groupIndex := 0;
          SendGroupTune(now);
        }
      } else if revisit.Some? {
        if now - groupStartedAt >= cfg.lookMs { EndLook(now); }
      } else if now - groupStartedAt >= dwell {
        var wrapped := groupIndex == |groups| - 1;
        if wrapped && sweeps != [] {
          sweeping := true;
          SendEmptyTune(sweeps[sweepIndex % |sweeps|], now);
          sweepIndex := sweepIndex + 1;
        } else {
          groupIndex := (groupIndex + 1) % |groups|;
          SendGroupTune(now);
        }
      } else {
        StartLook(deltaMs, now);
      }
    }

    method OnTick(now: real, dwell: real)
      requires Valid()
      modifies this
      ensures Valid() && cfg == old(cfg) && Now() == Tick(old(Now()), cfg, now, dwell)
    {
      hide HasAudibleOpen, Advance;
      var deltaMs := if now > lastTickAt then now - lastTickAt else 0.0;
      var held := AnyAudibleOpen(now);
      lastTickAt := now;
      if held {
        var since := if holdStartedAt == 0.0 then now else holdStartedAt;
        if now - since < cfg.maxHoldMs {
          holdStartedAt := since;
          groupStartedAt := now;
          return;
        }
        ReleaseOpenOnHop();
        holdStartedAt := 0.0;
        groupStartedAt := 0.0;
      } else {
        holdStartedAt := 0.0;
      }
      Rotate(deltaMs, now, dwell);
    }
  }
}
