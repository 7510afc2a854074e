/** Node and helper as two processes joined by two FIFO pipes. Tune lines go one way: Node's
    `sent`, the helper having read the first `taken`; LiveLoop keeps only the newest tune while a
    retune settles. Events go the other way: the scanner's `out`, Node having read the first
    `heard`. Node clears its open set on every hop, without waiting for the helper. */
module OpenSetProtocol {
  import opened Options
  import opened SquelchSpec
  import opened SquelchInvariants
  import opened SquelchLog
  import Runs = SquelchRuns
  import opened HopSpec
  import Hops = HopRuns

  datatype System = System(cfg: Config, node: Node, taken: nat, pending: Option<TuneMsg>, sc: State, heard: nat)
  {
    predicate Valid() { node.Valid() && sc.Sane() && taken <= |node.sent| && heard <= |sc.out| }

    /** A tune the scanner has not obeyed yet. */
    predicate TunePending() { taken < |node.sent| || pending.Some? }

    /** Both pipes are empty and no tune is waiting. */
    predicate Quiescent() { !TunePending() && heard == |sc.out| }
  }

  datatype Action =
    | NodeTick(now: real, dwell: real)
    | NodeHears(now: real)
    | NodeRetargets(next: Config, groups: seq<Group>, sweeps: seq<real>, now: real)
    | NodeAlerts(id: LaneId, holdS: real, now: real)
    | HelperReads
    | HelperTunes(kept: seq<ChannelCmd>)
    | HelperRuns(cmd: Runs.Cmd)

  /** When an action can happen. A pending tune is applied with the channels that fall inside the
      tuned window, each once; between tunes the scanner polls, skips, unmutes and takes Close
      Call hits. */
  ghost predicate Enabled(s: System, a: Action)
    requires s.Valid()
  {
    match a
    case NodeTick(now, dwell) => Hops.InputOk(s.cfg, Hops.AtTick(now, dwell))
    case NodeHears(_) => s.heard < |s.sc.out|
    case NodeRetargets(_, groups, _, _) => groups != []
    case NodeAlerts(_, _, _) => true
    case HelperReads => s.taken < |s.node.sent|
    case HelperTunes(kept) => s.pending.Some? && DistinctCmds(kept)
      && ChannelIds(kept) <= ChannelIds(s.pending.value.channels)
    case HelperRuns(cmd) => !cmd.DoTune? && Runs.Allowed(s.sc, cmd)
  }

  /** Engine::tune: the Close Call ranges first, then the lanes. */
  function Obey(sc: State, m: TuneMsg, kept: seq<ChannelCmd>): (t: State)
    requires sc.Sane()
    ensures t.Sane()
  {
    Tune(SetCcAudible(sc, m.ccAudible), m.centerHz, kept, m.monitor)
  }

  function Do(s: System, a: Action, p: Params): System
    requires s.Valid() && (a.NodeHears? ==> s.heard < |s.sc.out|) && (a.NodeRetargets? ==> a.groups != [])
    requires (a.HelperReads? ==> s.taken < |s.node.sent|) && (a.HelperTunes? ==> s.pending.Some?)
  {
    match a
    case NodeTick(now, dwell) => s.(node := Tick(s.node, s.cfg, now, dwell))
    case NodeHears(now) => s.(node := OnEvent(s.node, s.cfg, s.sc.out[s.heard], now), heard := s.heard + 1)
    case NodeRetargets(next, groups, sweeps, now) => s.(cfg := next,
      node := Retarget(s.node, next, groups, sweeps, now))
    case NodeAlerts(id, holdS, now) => s.(node := OnAlert(s.node, id, holdS, now))
    case HelperReads => s.(pending := Some(s.node.sent[s.taken]), taken := s.taken + 1)
    case HelperTunes(kept) => s.(sc := Obey(s.sc, s.pending.value, kept), pending := None)
    case HelperRuns(cmd) => s.(sc := Runs.Step(s.sc, cmd, p))
  }

  // ---- The invariant

  ghost function GroupIds(n: Node): set<LaneId>
    requires n.Valid()
  {
    ChannelIds(CurrentChannels(n))
  }

  /** The ids opened and not closed in the part of the stream Node has read. */
  function Seen(s: System): set<LaneId>
    requires s.heard <= |s.sc.out|
  {
    OpenAfter(s.sc.out[..s.heard])
  }

  ghost predicate CloseAhead(out: seq<Event>, from: nat, id: LaneId) {
    exists l :: from <= l < |out| && out[l] == Close(id)
  }

  /** The newest tune is for Node's current group, or for an empty sweep stop. */
  ghost predicate NewestTuneFits(s: System)
    requires s.Valid()
  {
    var n := |s.node.sent|;
    && (s.taken < n ==> ChannelIds(s.node.sent[n - 1].channels) <= GroupIds(s.node))
    && (s.taken == n && s.pending.Some? ==> ChannelIds(s.pending.value.channels) <= GroupIds(s.node))
    && (!s.TunePending() ==> forall id :: id in Ids(s.sc.lanes) ==> id.CloseCall? || id in GroupIds(s.node))
  }

  ghost predicate Inv(s: System) {
    && s.Valid() && Arbitrated(s.sc) && Logged(s.sc)
    && NewestTuneFits(s)
    && s.node.openIds <= Seen(s)
    && (forall id :: id in Seen(s) - s.node.openIds ==> s.TunePending() || CloseAhead(s.sc.out, s.heard, id))
    && (forall k :: s.heard <= k < |s.sc.out| && s.sc.out[k].Open? && !Known(s.node, s.sc.out[k].id) ==>
          s.TunePending() || CloseAhead(s.sc.out, k, s.sc.out[k].id))
  }

  lemma KnownIds(n: Node, id: LaneId)
    requires n.Valid()
    ensures Known(n, id) <==> id.CloseCall? || id in GroupIds(n)
  {}

  /** Node hops: whatever it forgets, the tune it writes makes the helper close. */
  lemma HopKeeps(s: System, node: Node, cfg: Config)
    requires Inv(s) && node.Valid()
    requires |node.sent| == |s.node.sent| + 1 && s.node.sent <= node.sent && node.openIds == {}
    requires ChannelIds(node.sent[|s.node.sent|].channels) <= GroupIds(node)
    ensures Inv(s.(node := node, cfg := cfg))
  {}

  /** Node's view changes in no way that matters here. */
  lemma StillKeeps(s: System, node: Node)
    requires Inv(s) && node.Valid() && node.sent == s.node.sent && node.openIds == s.node.openIds
    requires CurrentChannels(node) == CurrentChannels(s.node)
    ensures Inv(s.(node := node))
  {}

  lemma AlertKeeps(s: System, id: LaneId, holdS: real, now: real)
    requires Inv(s)
    ensures Inv(s.(node := OnAlert(s.node, id, holdS, now)))
  {
    StillKeeps(s, OnAlert(s.node, id, holdS, now));
  }

  lemma TickKeeps(s: System, now: real, dwell: real)
    requires Inv(s) && Hops.InputOk(s.cfg, Hops.AtTick(now, dwell))
    ensures Inv(s.(node := Tick(s.node, s.cfg, now, dwell)))
  {
    var t := Tick(s.node, s.cfg, now, dwell);
    Hops.TickHops(s.node, s.cfg, now, dwell);
    hide Inv, Tick;
    if t.sent == s.node.sent {
      StillKeeps(s, t);
    } else {
      if t.sent[|s.node.sent|].channels == [] { assert ChannelIds([]) == {}; }
      HopKeeps(s, t, s.cfg);
    }
  }

  /** Node hears one event. An unknown open is ignored, and then its close is still to come. */
  lemma HearKeeps(s: System, now: real)
    requires Inv(s) && s.heard < |s.sc.out|
    ensures Inv(s.(node := OnEvent(s.node, s.cfg, s.sc.out[s.heard], now), heard := s.heard + 1))
  {
    var out, k, e := s.sc.out, s.heard, s.sc.out[s.heard];
    var t := s.(node := OnEvent(s.node, s.cfg, e, now), heard := k + 1);
    assert out[..k + 1] == out[..k] + [e];
    Append(out[..k], e);
    hide OpenAfter, Alternates, Claims;
    assert t.node.rot == s.node.rot && t.node.sent == s.node.sent;
    forall id | id in Seen(t) - t.node.openIds ensures t.TunePending() || CloseAhead(out, k + 1, id) {
      if e == Open(id) {
        assert !Known(s.node, id);
        assert s.TunePending() || CloseAhead(out, k, id);
      } else {
        assert id in Seen(s) - s.node.openIds && e != Close(id);
      }
    }
    forall m | k + 1 <= m < |out| && out[m].Open? && !Known(t.node, out[m].id) ensures t.TunePending()
      || CloseAhead(out, m, out[m].id) {
      assert !Known(s.node, out[m].id);
    }
  }

  /** The scanner runs on: its events are about lanes of the last tune it obeyed. */
  lemma RunKeeps(s: System, cmd: Runs.Cmd, p: Params)
    requires Inv(s) && !cmd.DoTune? && Runs.Allowed(s.sc, cmd)
    ensures Inv(s.(sc := Runs.Step(s.sc, cmd, p)))
  {
    var u := Runs.Step(s.sc, cmd, p);
    Runs.StepKeeps(s.sc, cmd, p);
    Runs.StepLogs(s.sc, cmd, p);
    hide OpenAfter, Alternates, Arbitrated, Logged;
    OlderEvents(s, u);
    var t := s.(sc := u);
    forall k | t.heard <= k < |u.out| && u.out[k].Open? && !Known(t.node, u.out[k].id)
      ensures t.TunePending() || CloseAhead(u.out, k, u.out[k].id)
    {
      if k >= |s.sc.out| { KnownIds(t.node, u.out[k].id); }
    }
  }

  /** What is already in the pipe stays as it was. */
  lemma OlderEvents(s: System, u: State)
    requires Inv(s) && s.sc.out <= u.out
    ensures OpenAfter(u.out[..s.heard]) == Seen(s)
    ensures forall id, k: nat :: k <= |s.sc.out| && CloseAhead(s.sc.out, k, id) ==> CloseAhead(u.out, k, id)
    ensures forall k :: 0 <= k < |s.sc.out| ==> u.out[k] == s.sc.out[k]
  {
    assert u.out[..s.heard] == s.sc.out[..s.heard];
  }

  /** The scanner obeys the newest tune: it closes every open lane, so nothing stays stuck. */
  lemma TunesKeeps(s: System, kept: seq<ChannelCmd>)
    requires Inv(s) && s.pending.Some? && DistinctCmds(kept) && ChannelIds(kept) <= ChannelIds(s.pending.value.channels)
    ensures Inv(s.(sc := Obey(s.sc, s.pending.value, kept), pending := None))
  {
    var m := s.pending.value;
    var sc := SetCcAudible(s.sc, m.ccAudible);
    var u := Tune(sc, m.centerHz, kept, m.monitor);
    RangesKeep(s.sc, m.ccAudible);
    RangesLog(s.sc, m.ccAudible, u, m.centerHz);
    TuneKeeps(sc, m.centerHz, kept, m.monitor);
    TuneLogs(sc, m.centerHz, kept, m.monitor);
    var hz := m.centerHz;
    hide Arbitrated, Tune;
    ClosingKeeps(s, u, hz);
  }

  /** A tuned scanner has the newest tune's channels and has closed everything it had open. */
  lemma ClosingKeeps(s: System, u: State, hz: real)
    requires Inv(s) && s.pending.Some? && Arbitrated(u) && u.Sane() && Logged(u) && ClosedBeforeAck(s.sc, u, hz)
    requires Ids(u.lanes) <= ChannelIds(s.pending.value.channels)
    requires forall k :: |s.sc.out| <= k < |u.out| && u.out[k].Open? ==>
      u.out[k].id in ChannelIds(s.pending.value.channels)
    ensures Inv(s.(sc := u, pending := None))
  {
    var t := s.(sc := u, pending := None);
    hide Logged, Arbitrated, OpenAfter;
    assert s.sc.out <= u.out;
    OlderEvents(s, u);
    assert NewestTuneFits(t);
    forall id | id in Seen(t) - t.node.openIds ensures CloseAhead(u.out, t.heard, id) {
      ClosedByTune(s.sc, u, hz, s.heard, id);
    }
    forall k | t.heard <= k < |u.out| && u.out[k].Open? && !Known(t.node, u.out[k].id)
      ensures t.TunePending() || CloseAhead(u.out, k, u.out[k].id)
    {
      if k < |s.sc.out| { OpenedClosed(s.sc, u, hz, k); } else { KnownIds(t.node, u.out[k].id); }
    }
  }

  lemma OpenedClosed(sc: State, u: State, hz: real, k: nat)
    requires Logged(sc) && ClosedBeforeAck(sc, u, hz) && k < |sc.out| && sc.out[k].Open?
    ensures u.out[k] == sc.out[k] && CloseAhead(u.out, k, sc.out[k].id)
  {
    assert sc.out[..k + 1] == sc.out[..k] + [sc.out[k]];
    Append(sc.out[..k], sc.out[k]);
    ClosedByTune(sc, u, hz, k + 1, sc.out[k].id);
  }

  lemma ClosedByTune(sc: State, u: State, hz: real, k: nat, id: LaneId)
    requires Logged(sc) && k <= |sc.out| && id in OpenAfter(sc.out[..k]) && ClosedBeforeAck(sc, u, hz)
    ensures CloseAhead(u.out, k, id)
  {
    LeftByClose(sc.out, k, id);
    hide OpenAfter, Alternates;
    if id in OpenAfter(sc.out) {
      var q :| |sc.out| <= q < |u.out| && u.out[q] == Tuned(hz) && forall i :: i in OpenIds(sc.lanes) ==>
        Close(i) in u.out[|sc.out|..q];
      var l :| 0 <= l < |u.out[|sc.out|..q]| && u.out[|sc.out|..q][l] == Close(id);
      assert u.out[|sc.out| + l] == Close(id);
    } else {
      var l :| k <= l < |sc.out| && sc.out[l] == Close(id);
      assert u.out[l] == Close(id);
    }
  }

  /** The helper takes the next tune line in, in place of any it has not obeyed. */
  lemma ReadKeeps(s: System)
    requires Inv(s) && s.taken < |s.node.sent|
    ensures Inv(s.(pending := Some(s.node.sent[s.taken]), taken := s.taken + 1))
  {}

  /** Every action of either process, in any interleaving, keeps the invariant. */
  lemma ActionKeeps(s: System, a: Action, p: Params)
    requires Inv(s) && Enabled(s, a)
    ensures Inv(Do(s, a, p))
  {
    hide Inv;
    match a
    case NodeTick(now, dwell) => TickKeeps(s, now, dwell);
    case NodeHears(now) => HearKeeps(s, now);
    case NodeRetargets(next, groups, sweeps, now) => HopKeeps(s, Retarget(s.node, next, groups, sweeps, now), next);
    case NodeAlerts(id, holdS, now) => AlertKeeps(s, id, holdS, now);
    case HelperReads => ReadKeeps(s);
    case HelperTunes(kept) => TunesKeeps(s, kept);
    case HelperRuns(cmd) => RunKeeps(s, cmd, p);
  }
}
