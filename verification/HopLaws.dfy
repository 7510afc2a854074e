/** What holds the radio, what a look visits and what a new configuration starts, said of the scheduler's
    fields: open ids, channel lists, alerts and clocks. */
module HopLaws {
  import Arithmetic
  import opened Options
  import opened SquelchSpec
  import opened HopSpec
  import opened HopRuns

  // ---- Who holds the radio

  ghost predicate First(cs: seq<ChannelCmd>, id: LaneId, k: nat) {
    k < |cs| && cs[k].id == id && forall j :: 0 <= j < k ==> cs[j].id != id
  }

  /** The current group's entry for an id. */
  ghost predicate ListedAt(s: Node, id: LaneId, k: nat)
    requires s.Valid()
  {
    First(s.rot.groups[s.rot.index].channels, id, k)
  }

  ghost predicate Alerting(s: Node, id: LaneId, now: real) { id in s.alertUntil && now < s.alertUntil[id] }

  /** An open lane holds the radio if it is a Close Call inside the ranges in force, a listed channel that is
      audible, a lane the group does not list, or any of these with an alert running. */
  ghost predicate Holds(s: Node, cfg: Config, id: LaneId, now: real)
    requires s.Valid()
  {
    || Alerting(s, id, now)
    || (id.CloseCall?
        && (cfg.ccAudible == None
            || exists k :: 0 <= k < |cfg.ccAudible.value|
                        && cfg.ccAudible.value[k].0 <= id.freqHz as real <= cfg.ccAudible.value[k].1))
    || (!id.CloseCall?
        && forall k: nat :: ListedAt(s, id, k) ==> s.rot.groups[s.rot.index].channels[k].audible)
  }

  lemma {:induction false} FindFirst(cs: seq<ChannelCmd>, id: LaneId)
    ensures var c := FindIn(cs, id);
      && (c.Some? ==> exists k :: 0 <= k < |cs| && cs[k] == c.value && First(cs, id, k))
      && (c.None? ==> forall k :: 0 <= k < |cs| ==> cs[k].id != id)
  {
    if cs != [] && cs[0].id != id {
      FindFirst(cs[1..], id);
      var c := FindIn(cs[1..], id);
      if c.Some? {
        var k :| 0 <= k < |cs[1..]| && cs[1..][k] == c.value && First(cs[1..], id, k);
        assert cs[k + 1] == c.value;
        assert forall j :: 0 <= j < k + 1 ==> cs[j].id != id by {
          assert forall j :: 0 < j < k + 1 ==> cs[j] == cs[1..][j - 1];
        }
      } else {
        assert forall k :: 0 < k < |cs| ==> cs[k] == cs[1..][k - 1];
      }
    }
  }

  lemma ClaimsIffHolds(s: Node, cfg: Config, id: LaneId, now: real)
    requires s.Valid()
    ensures Claims(s, cfg, id, now) <==> Holds(s, cfg, id, now)
  {
    hide FindIn;
    var channels := s.rot.groups[s.rot.index].channels;
    if !id.CloseCall? {
      FindFirst(channels, id);
      var c := FindIn(channels, id);
      if c.Some? {
        var k: nat :| k < |channels| && channels[k] == c.value && First(channels, id, k);
        assert ListedAt(s, id, k);
        forall m: nat | ListedAt(s, id, m) ensures m == k {}
      } else {
        assert forall k: nat :: !ListedAt(s, id, k);
      }
    }
  }

  ghost predicate SomethingHolds(s: Node, cfg: Config, now: real)
    requires s.Valid()
  {
    exists id :: id in s.openIds && Holds(s, cfg, id, now)
  }

  lemma HeldIff(s: Node, cfg: Config, now: real)
    requires s.Valid()
    ensures HasAudibleOpen(s, cfg, now) <==> SomethingHolds(s, cfg, now)
  {
    hide Claims, Holds;
    forall id | id in s.openIds ensures Claims(s, cfg, id, now) <==> Holds(s, cfg, id, now) {
      ClaimsIffHolds(s, cfg, id, now);
    }
  }

  /** Under a hold younger than the cap, a tick that finds something holding the radio writes no tune and stays
      where it is, the window's share starting over. */
  lemma HoldsThrough(s: Node, cfg: Config, now: real, dwell: real)
    requires s.Valid() && SomethingHolds(s, cfg, now) && cfg.maxHoldMs > 0.0
    requires s.holdStartedAt == 0.0 || now - s.holdStartedAt < cfg.maxHoldMs
    ensures var t := Tick(s, cfg, now, dwell);
      t == s.(lastTickAt := now, groupStartedAt := now,
              holdStartedAt := if s.holdStartedAt == 0.0 then now else s.holdStartedAt)
  {
    hide HasAudibleOpen, Advance;
    HeldIff(s, cfg, now);
  }

  /** A tick that finds nothing holding the radio ends any hold; if it writes no tune the window's share runs
      on, and it does write one when the share is over or a look is due. */
  lemma NothingHolds(s: Node, cfg: Config, now: real, dwell: real)
    requires s.Valid() && !SomethingHolds(s, cfg, now)
    ensures var t := Tick(s, cfg, now, dwell);
      var share := if s.rot.sweeping then cfg.dwellMs else if s.rot.revisit.Some? then cfg.lookMs else dwell;
      && t.holdStartedAt == 0.0
      && (t.sent == s.sent ==> t.groupStartedAt == s.groupStartedAt)
      && (now - s.groupStartedAt >= share ==> t.sent != s.sent)
  {
    hide HasAudibleOpen, Advance;
    HeldIff(s, cfg, now);
    var deltaMs := if now > s.lastTickAt then now - s.lastTickAt else 0.0;
    AdvanceHops(s.(lastTickAt := now, holdStartedAt := 0.0), cfg, deltaMs, now, dwell);
    AdvanceSends(s.(lastTickAt := now, holdStartedAt := 0.0), cfg, deltaMs, now, dwell);
  }

  // ---- Alerts

  /** When an alert on this id was last asked to end. */
  function AlertEnd(ins: seq<Input>, id: LaneId): Option<real> {
    if ins == [] then None
    else
      var k := |ins| - 1;
      if ins[k].Alerted? && ins[k].id == id then
        Some(ins[k].since + 1000.0 * (if ins[k].holdS > 1.0 then ins[k].holdS else 1.0))
      else AlertEnd(ins[..k], id)
  }

  lemma StepAlerts(s: Node, cfg: Config, i: Input)
    requires s.Valid() && InputOk(cfg, i)
    ensures !i.Alerted? ==> Step(s, cfg, i).alertUntil == s.alertUntil
  {
    hide HasAudibleOpen, CapBreached, PriorityGroups, Claims;
  }

  /** In every run an id is alerting until the end of its last alert: a second, or longer if asked for, from
      when it was raised; ticks, hops and new configurations leave it be. */
  lemma {:induction false} AlertStands(s: Node, cfg: Config, ins: seq<Input>, id: LaneId, now: real)
    requires s.Valid() && s.alertUntil == map[] && AllOk(cfg, ins)
    ensures Alerting(Run(s, cfg, ins), id, now) <==> AlertEnd(ins, id).Some? && now < AlertEnd(ins, id).value
    ensures id in Run(s, cfg, ins).alertUntil <==> AlertEnd(ins, id).Some?
    ensures AlertEnd(ins, id).Some? ==> Run(s, cfg, ins).alertUntil[id] == AlertEnd(ins, id).value
  {
    if ins != [] {
      var k := |ins| - 1;
      AlertStands(s, cfg, ins[..k], id, now);
      StepAlerts(Run(s, cfg, ins[..k]), InForce(cfg, ins[..k]), ins[k]);
      hide Tick, OnEvent, Retarget;
    }
  }

  /** So an open silent channel of the current group holds the radio at ticks before that end, and at none from
      then on. */
  lemma SilentHoldsWhileAlerting(s: Node, cfg: Config, ins: seq<Input>, id: LaneId, k: nat, now: real)
    requires s.Valid() && s.alertUntil == map[] && AllOk(cfg, ins) && !id.CloseCall?
    requires var u := Run(s, cfg, ins); ListedAt(u, id, k) && !u.rot.groups[u.rot.index].channels[k].audible
    ensures Holds(Run(s, cfg, ins), InForce(cfg, ins), id, now)
            <==> AlertEnd(ins, id).Some? && now < AlertEnd(ins, id).value
  {
    AlertStands(s, cfg, ins, id, now);
    hide Run, InForce, AlertEnd;
  }

  // ---- Looks

  /** A group worth a look has an audible priority channel that is not the background one. */
  ghost predicate WorthALook(g: Group) {
    exists c :: c in g.channels && c.priority && c.audible && !c.background
  }

  lemma WorthIff(g: Group)
    ensures WorthALook(g) <==> HasPriority(g)
  {
    if WorthALook(g) {
      var c :| c in g.channels && c.priority && c.audible && !c.background;
      var i :| 0 <= i < |g.channels| && g.channels[i] == c;
    }
    if HasPriority(g) {
      var i :| 0 <= i < |g.channels| && g.channels[i].priority && g.channels[i].audible && !g.channels[i].background;
      assert g.channels[i] in g.channels;
    }
  }

  /** The groups worth a look, in rotation order. */
  ghost predicate LookList(groups: seq<Group>, targets: seq<nat>) {
    && (forall i, j :: 0 <= i < j < |targets| ==> targets[i] < targets[j])
    && (forall g: nat :: g in targets <==> g < |groups| && WorthALook(groups[g]))
  }

  lemma {:induction false} PriorityGroupsAscend(groups: seq<Group>, n: nat)
    requires n <= |groups|
    ensures var out := PriorityGroups(groups, n);
      && (forall i, j :: 0 <= i < j < |out| ==> out[i] < out[j])
      && (forall g: nat :: g in out <==> g < n && HasPriority(groups[g]))
  {
    if n > 0 { PriorityGroupsAscend(groups, n - 1); }
  }

  lemma PriorityGroupsList(groups: seq<Group>)
    ensures LookList(groups, PriorityGroups(groups, |groups|))
  {
    PriorityGroupsAscend(groups, |groups|);
    forall g: nat | g < |groups| ensures WorthALook(groups[g]) == HasPriority(groups[g]) { WorthIff(groups[g]); }
    hide PriorityGroups, WorthALook, HasPriority;
  }

  /** Only one list is the groups worth a look in rotation order. */
  lemma {:induction false} OneList(a: seq<nat>, b: seq<nat>)
    requires forall i, j :: 0 <= i < j < |a| ==> a[i] < a[j]
    requires forall i, j :: 0 <= i < j < |b| ==> b[i] < b[j]
    requires forall x :: x in a <==> x in b
    ensures a == b
  {
    assert |a| > 0 ==> a[0] in a;
    assert |b| > 0 ==> b[0] in b;
    if a != [] {
      assert a[0] in b;
      assert b[0] in a;
      var i :| 0 <= i < |b| && b[i] == a[0];
      var j :| 0 <= j < |a| && a[j] == b[0];
      assert a[0] == b[0];
      forall x ensures x in a[1..] <==> x in b[1..] {
        if x in a[1..] { assert x in b; assert x != a[0]; }
        if x in b[1..] { assert x in a; assert x != b[0]; }
      }
      OneList(a[1..], b[1..]);
      assert a == [a[0]] + a[1..] && b == [b[0]] + b[1..];
    }
  }

  /** At this tick a look may start: looks are on, nothing holds the radio, the window's share is not over, no
      sweep stop and no other look is on, and some other group is worth one. */
  ghost predicate MayLook(s: Node, cfg: Config, now: real, dwell: real)
    requires s.Valid()
  {
    && cfg.revisits && !cfg.monitor && !s.rot.sweeping && s.rot.revisit.None?
    && !SomethingHolds(s, cfg, now) && now - s.groupStartedAt < dwell
    && (exists g :: 0 <= g < |s.rot.groups| && WorthALook(s.rot.groups[g]))
  }

  function Elapsed(s: Node, now: real): real { if now > s.lastTickAt then now - s.lastTickAt else 0.0 }

  /** What a tick does about looks: where one may start, quiet time on a group not worth one is saved up, and
      everyMs of it buys a look at the next group of the list; a group worth one clears the savings. Where none
      may start, savings and turn stay as they are. */
  ghost predicate LookStep(s: Node, cfg: Config, now: real, dwell: real, t: Node)
    requires s.Valid()
  {
    var saved := s.rot.creditMs + Elapsed(s, now);
    if !MayLook(s, cfg, now, dwell) then
      t.rot.creditMs == s.rot.creditMs && t.rot.cursor == s.rot.cursor && (s.rot.revisit.None? ==> t.rot.revisit.None?)
    else if WorthALook(s.rot.groups[s.rot.index]) then
      t.rot == s.rot.(creditMs := 0.0) && t.sent == s.sent
    else if saved < cfg.everyMs then
      t.rot == s.rot.(creditMs := saved) && t.sent == s.sent
    else
      && t.rot.revisit == Some(Look(s.rot.index, now - s.groupStartedAt)) && t.rot.creditMs == 0.0
      && (forall targets :: LookList(s.rot.groups, targets) ==>
        && targets != [] && t.rot.index == targets[s.rot.cursor % |targets|] < |s.rot.groups|
        && t.rot.cursor == (s.rot.cursor + 1) % |targets|
        && t.sent == s.sent + [TuneMsg(s.rot.groups[t.rot.index].centerHz + cfg.centerOffsetHz,
                                       s.rot.groups[t.rot.index].channels, cfg.monitor, cfg.ccAudible)])
  }

  lemma StartsLook(s: Node, cfg: Config, deltaMs: real, now: real)
    requires s.Valid() && s.rot.revisit.None?
    ensures var t := MaybeStartRevisit(s, cfg, deltaMs, now);
      var targets, saved := PriorityGroups(s.rot.groups, |s.rot.groups|), s.rot.creditMs + deltaMs;
      if !cfg.revisits || cfg.monitor || targets == [] then t == s
      else if s.rot.index in targets then t == s.(rot := s.rot.(creditMs := 0.0))
      else if saved < cfg.everyMs then t == s.(rot := s.rot.(creditMs := saved))
      else
        && t.rot.revisit == Some(Look(s.rot.index, now - s.groupStartedAt)) && t.rot.creditMs == 0.0
        && t.rot.index == targets[s.rot.cursor % |targets|] < |s.rot.groups|
        && t.rot.cursor == (s.rot.cursor + 1) % |targets|
        && t.sent == s.sent + [TuneMsg(s.rot.groups[t.rot.index].centerHz + cfg.centerOffsetHz,
                                       s.rot.groups[t.rot.index].channels, cfg.monitor, cfg.ccAudible)]
  {
    var targets := PriorityGroups(s.rot.groups, |s.rot.groups|);
    if targets != [] { assert targets[s.rot.cursor % |targets|] < |s.rot.groups|; }
    hide PriorityGroups;
  }

  lemma AdvanceLooks(s: Node, cfg: Config, deltaMs: real, now: real, dwell: real)
    requires s.Valid()
    ensures var t := Advance(s, cfg, deltaMs, now, dwell);
      if s.rot.sweeping || s.rot.revisit.Some? || now - s.groupStartedAt >= dwell then
        && t.rot.creditMs == s.rot.creditMs && t.rot.cursor == s.rot.cursor
        && (s.rot.revisit.None? ==> t.rot.revisit.None?)
      else t == MaybeStartRevisit(s, cfg, deltaMs, now)
  {
    hide MaybeStartRevisit;
  }

  lemma ListMeans(s: Node, targets: seq<nat>)
    requires s.Valid() && targets == PriorityGroups(s.rot.groups, |s.rot.groups|)
    ensures targets != [] <==> exists g :: 0 <= g < |s.rot.groups| && WorthALook(s.rot.groups[g])
    ensures s.rot.index in targets <==> WorthALook(s.rot.groups[s.rot.index])
    ensures forall list :: LookList(s.rot.groups, list) ==> list == targets
  {
    PriorityGroupsList(s.rot.groups);
    hide WorthALook, PriorityGroups;
    forall list | LookList(s.rot.groups, list) ensures list == targets { OneList(list, targets); }
    assert targets != [] ==> targets[0] in targets;
    if exists g :: 0 <= g < |s.rot.groups| && WorthALook(s.rot.groups[g]) {
      var g :| 0 <= g < |s.rot.groups| && WorthALook(s.rot.groups[g]);
      assert g in targets;
    }
  }

  /** The looks of one tick, from any state. */
  lemma LookTick(s: Node, cfg: Config, now: real, dwell: real)
    requires s.Valid() && InputOk(cfg, AtTick(now, dwell))
    ensures LookStep(s, cfg, now, dwell, Tick(s, cfg, now, dwell))
  {
    hide WorthALook, Tick, MaybeStartRevisit, PriorityGroups, HasAudibleOpen, SomethingHolds, LookList;
    ListMeans(s, PriorityGroups(s.rot.groups, |s.rot.groups|));
    HeldIff(s, cfg, now);
    TickLooks(s, cfg, now, dwell);
    if MayLook(s, cfg, now, dwell) {
      StartsLook(s.(lastTickAt := now, holdStartedAt := 0.0), cfg, Elapsed(s, now), now);
    } else if !s.rot.sweeping && s.rot.revisit.None? {
      StartsLook(s.(lastTickAt := now, holdStartedAt := 0.0), cfg, Elapsed(s, now), now);
    }
  }

  lemma TickLooks(s: Node, cfg: Config, now: real, dwell: real)
    requires s.Valid() && InputOk(cfg, AtTick(now, dwell))
    ensures var t, u := Tick(s, cfg, now, dwell), s.(lastTickAt := now, holdStartedAt := 0.0);
      if HasAudibleOpen(s, cfg, now) || s.rot.sweeping || s.rot.revisit.Some? || now - s.groupStartedAt >= dwell then
        && t.rot.creditMs == s.rot.creditMs && t.rot.cursor == s.rot.cursor
        && (s.rot.revisit.None? ==> t.rot.revisit.None?)
      else t == MaybeStartRevisit(u, cfg, Elapsed(s, now), now)
  {
    hide HasAudibleOpen, Advance, MaybeStartRevisit;
    var s1 := s.(lastTickAt := now);
    AdvanceLooks(ReleaseOpen(s1).(holdStartedAt := 0.0, groupStartedAt := 0.0), cfg, Elapsed(s, now), now, dwell);
    AdvanceLooks(s1.(holdStartedAt := 0.0), cfg, Elapsed(s, now), now, dwell);
  }

  /** The groups looked at in a run, one after the other. */
  ghost function Looked(s: Node, cfg: Config, ins: seq<Input>): seq<nat>
    requires s.Valid() && AllOk(cfg, ins)
  {
    if ins == [] then []
    else
      var k := |ins| - 1;
      var u, v := Run(s, cfg, ins[..k]), Run(s, cfg, ins);
      Looked(s, cfg, ins[..k]) + if u.rot.revisit.None? && v.rot.revisit.Some? then [v.rot.index] else []
  }

  lemma StepLooks(s: Node, cfg: Config, i: Input)
    requires s.Valid() && InputOk(cfg, i) && !i.AtTick? && !i.Retargeted?
    ensures Step(s, cfg, i).rot == s.rot
  {
    hide Claims;
  }

  /** Between two configurations the looks go round the groups worth one, in rotation order, none left out. */
  lemma {:induction false} LooksInTurn(s: Node, cfg: Config, ins: seq<Input>, targets: seq<nat>, j: nat)
    requires s.Valid() && AllOk(cfg, ins) && LookList(s.rot.groups, targets)
    requires targets != [] && forall k :: 0 <= k < |ins| ==> !ins[k].Retargeted?
    ensures var t, looked := Run(s, cfg, ins), Looked(s, cfg, ins);
      && t.rot.groups == s.rot.groups
      && Around(t.rot.cursor, |targets|) == Around(s.rot.cursor + |looked|, |targets|)
      && (j < |looked| ==> looked[j] == targets[Around(s.rot.cursor + j, |targets|)])
  {
    hide Tick, LookList;
    if ins != [] {
      var k := |ins| - 1;
      var u, c := Run(s, cfg, ins[..k]), InForce(cfg, ins[..k]);
      LooksInTurn(s, cfg, ins[..k], targets, j);
      OneLook(s, cfg, ins, targets, j);
    }
  }

  function Around(n: nat, m: nat): (r: nat)
    requires m > 0
    ensures r < m
  {
    n % m
  }

  lemma AroundTwice(n: nat, m: nat)
    requires m > 0
    ensures Around(Around(n, m), m) == Around(n, m)
  {
    var r := n % m;
    Arithmetic.Quotient(m, r, 0, r);
  }

  lemma AroundUp(n: nat, m: nat)
    requires m > 0
    ensures Around(n + 1, m) == if Around(n, m) + 1 < m then Around(n, m) + 1 else 0
  {
    var q, r := n / m, n % m;
    assert n == m * q + r;
    if r + 1 < m { Arithmetic.Quotient(m, n + 1, q, r + 1); } else { NextLap(n, m, q); }
  }

  lemma NextLap(n: nat, m: nat, q: nat)
    requires m > 0 && n + 1 == m * q + m
    ensures Around(n + 1, m) == 0
  {
    assert m * (q + 1) == m * q + m;
    Arithmetic.Quotient(m, n + 1, q + 1, 0);
  }

  /** One input's part in that: the turn goes on with each look and with nothing else. */
  lemma TurnStep(u: Node, c: Config, i: Input, targets: seq<nat>)
    requires u.Valid() && InputOk(c, i) && !i.Retargeted? && LookList(u.rot.groups, targets) && targets != []
    ensures var v := Step(u, c, i);
      && v.rot.groups == u.rot.groups
      && (if u.rot.revisit.None? && v.rot.revisit.Some? then
            && v.rot.index == targets[Around(u.rot.cursor, |targets|)]
            && v.rot.cursor == Around(u.rot.cursor + 1, |targets|)
          else v.rot.cursor == u.rot.cursor)
  {
    hide Tick, LookList, SomethingHolds, WorthALook, Elapsed;
    if i.AtTick? {
      LookTick(u, c, i.now, i.dwell);
      TickHops(u, c, i.now, i.dwell);
    } else {
      StepLooks(u, c, i);
    }
  }

  lemma OneLook(s: Node, cfg: Config, ins: seq<Input>, targets: seq<nat>, j: nat)
    requires ins != [] && s.Valid() && AllOk(cfg, ins) && LookList(s.rot.groups, targets) && targets != []
    requires !ins[|ins| - 1].Retargeted?
    requires var k := |ins| - 1; var u, looked := Run(s, cfg, ins[..k]), Looked(s, cfg, ins[..k]);
      && u.rot.groups == s.rot.groups && Around(u.rot.cursor, |targets|) == Around(s.rot.cursor + |looked|, |targets|)
      && (j < |looked| ==> looked[j] == targets[Around(s.rot.cursor + j, |targets|)])
    ensures var t, looked := Run(s, cfg, ins), Looked(s, cfg, ins);
      && t.rot.groups == s.rot.groups
      && Around(t.rot.cursor, |targets|) == Around(s.rot.cursor + |looked|, |targets|)
      && (j < |looked| ==> looked[j] == targets[Around(s.rot.cursor + j, |targets|)])
  {
    hide Step, LookList, Around, InputOk;
    var k := |ins| - 1;
    var u := Run(s, cfg, ins[..k]);
    AroundUp(s.rot.cursor + |Looked(s, cfg, ins[..k])|, |targets|);
    AroundUp(u.rot.cursor, |targets|);
    AroundTwice(u.rot.cursor + 1, |targets|);
    TurnStep(u, InForce(cfg, ins[..k]), ins[k], targets);
  }

  // ---- A new configuration

  /** A live helper is pointed at the first of the new groups, at once: one tune, nothing believed open, no hold,
      no look, no sweep stop, no savings. */
  lemma RetargetsAfresh(s: Node, cfg: Config, groups: seq<Group>, sweeps: seq<real>, now: real)
    requires groups != []
    ensures var t := Retarget(s, cfg, groups, sweeps, now);
      && t.rot == Rotation(groups, 0, sweeps, 0, false, None, 0.0, s.rot.cursor)
      && t.openIds == {} && t.alertUntil == s.alertUntil
      && t.groupStartedAt == now && t.lastTickAt == now && t.holdStartedAt == 0.0
      && t.sent == s.sent + [TuneMsg(groups[0].centerHz + cfg.centerOffsetHz, groups[0].channels, cfg.monitor,
                                     cfg.ccAudible)]
  {}
}
