/** The scan scheduler of WidebandEngine as functions of its state: which lanes it believes open,
    when it hops, peeks at a priority group, or gives up on a stuck lane. Times are milliseconds. */
module HopSpec {
  import opened Options
  import opened SquelchSpec

  datatype Group = Group(centerHz: real, channels: seq<ChannelCmd>)

  datatype TuneMsg = TuneMsg(centerHz: real, channels: seq<ChannelCmd>, monitor: bool,
      ccAudible: Option<seq<(real, real)>>)

  /** A priority look in progress: where to go back to, and how long that group had been quiet. */
  datatype Look = Look(returnIndex: nat, elapsedMs: real)

  datatype Config = Config(dwellMs: real, maxHoldMs: real, revisits: bool, everyMs: real, lookMs: real, monitor: bool,
                           centerOffsetHz: real, ccAudible: Option<seq<(real, real)>>)

  datatype Rotation = Rotation(groups: seq<Group>, index: nat, sweeps: seq<real>, sweepIndex: nat, sweeping: bool,
                               revisit: Option<Look>, creditMs: real, cursor: nat)

  datatype Node = Node(openIds: set<LaneId>, alertUntil: map<LaneId, real>, groupStartedAt: real, holdStartedAt: real,
                       lastTickAt: real, rot: Rotation, sent: seq<TuneMsg>)
  {
    /** At least one group, and both indices point at groups. */
    predicate Valid() {
      && rot.index < |rot.groups|
      && (rot.revisit.Some? ==> rot.revisit.value.returnIndex < |rot.groups|)
    }
  }

  // ---- What Node believes is open

  function FindIn(cs: seq<ChannelCmd>, id: LaneId): (c: Option<ChannelCmd>)
    ensures c.Some? <==> exists i :: 0 <= i < |cs| && cs[i].id == id
    ensures c.Some? ==> c.value.id == id
  {
    if cs == [] then None
    else if cs[0].id == id then Some(cs[0])
    else
      var c := FindIn(cs[1..], id);
      assert c.None? ==> forall i :: 0 < i < |cs| ==> cs[i] == cs[1..][i - 1];
      c
  }

  function CurrentChannels(s: Node): seq<ChannelCmd>
    requires s.Valid()
  {
    s.rot.groups[s.rot.index].channels
  }

  /** An id Node can place: a channel of the current group, or any Close Call lane. */
  predicate Known(s: Node, id: LaneId)
    requires s.Valid()
  {
    id.CloseCall? || FindIn(CurrentChannels(s), id).Some?
  }

  predicate AudibleNow(s: Node, c: ChannelCmd, now: real) {
    c.audible || (c.id in s.alertUntil && now < s.alertUntil[c.id])
  }

  /** Has this open lane a claim on the radio? Unknown ids do. */
  predicate Claims(s: Node, cfg: Config, id: LaneId, now: real)
    requires s.Valid()
  {
    if id.CloseCall? then AudibleNow(s, CloseCallCmd(id.freqHz, cfg.ccAudible), now)
    else
      var c := FindIn(CurrentChannels(s), id);
      c.None? || AudibleNow(s, c.value, now)
  }

  predicate HasAudibleOpen(s: Node, cfg: Config, now: real)
    requires s.Valid()
  {
    exists id :: id in s.openIds && Claims(s, cfg, id, now)
  }

  function OnOpen(s: Node, id: LaneId): Node
    requires s.Valid()
  {
    if Known(s, id) then s.(openIds := s.openIds + {id}) else s
  }

  function OnClose(s: Node, cfg: Config, id: LaneId, now: real): Node
    requires s.Valid()
  {
    if id !in s.openIds then s
    else
      var t := s.(openIds := s.openIds - {id});
      if t.openIds != {} then t
      else t.(holdStartedAt := 0.0, groupStartedAt := if Claims(s, cfg, id, now) then now else t.groupStartedAt)
  }

  function OnEvent(s: Node, cfg: Config, e: Event, now: real): Node
    requires s.Valid()
  {
    match e
    case Open(id) => OnOpen(s, id)
    case Close(id) => OnClose(s, cfg, id, now)
    case _ => s
  }

  /** An alert pull-in: a silent channel claims the radio, too, for at least a second. */
  function OnAlert(s: Node, id: LaneId, holdS: real, now: real): Node {
    s.(alertUntil := s.alertUntil[id := now + (if holdS < 1.0 then 1.0 else holdS) * 1000.0])
  }

  // ---- Tunes

  function ReleaseOpen(s: Node): Node { s.(openIds := {}) }

  function SendSweepTune(s: Node, cfg: Config, centerHz: real, now: real): Node {
    ReleaseOpen(s).(holdStartedAt := 0.0, groupStartedAt := now, sent := s.sent
      + [TuneMsg(centerHz, [], false, cfg.ccAudible)])
  }

  function SendTune(s: Node, cfg: Config, now: real): Node
    requires s.Valid()
  {
    var g := s.rot.groups[s.rot.index];
    ReleaseOpen(s).(holdStartedAt := 0.0, groupStartedAt := now,
                    sent := s.sent + [TuneMsg(g.centerHz + cfg.centerOffsetHz, g.channels, cfg.monitor, cfg.ccAudible)])
  }

  /** The first of new groups, with no look in progress; the round-robin over priority groups goes on. */
  function Restarted(rot: Rotation, groups: seq<Group>, sweeps: seq<real>): Rotation {
    Rotation(groups, 0, sweeps, 0, false, None, 0.0, rot.cursor)
  }

  /** A config change on a live helper: a hop to group 0 of the new groups, not a restart. */
  function Retarget(s: Node, cfg: Config, groups: seq<Group>, sweeps: seq<real>, now: real): Node
    requires groups != []
  {
    SendTune(s.(rot := Restarted(s.rot, groups, sweeps), lastTickAt := now), cfg, now)
  }

  // ---- The dwell timer

  predicate HasPriority(g: Group) {
    exists i :: 0 <= i < |g.channels| && g.channels[i].priority && g.channels[i].audible && !g.channels[i].background
  }

  /** Indices below n of the groups worth a look, in rotation order. */
  function PriorityGroups(groups: seq<Group>, n: nat): (out: seq<nat>)
    requires n <= |groups|
    ensures forall k :: 0 <= k < |out| ==> out[k] < n && HasPriority(groups[out[k]])
    ensures forall i :: 0 <= i < n && HasPriority(groups[i]) ==> i in out
  {
    if n == 0 then [] else PriorityGroups(groups, n - 1) + (if HasPriority(groups[n - 1]) then [n - 1] else [])
  }

  function MaybeStartRevisit(s: Node, cfg: Config, deltaMs: real, now: real): (t: Node)
    requires s.Valid() && s.rot.revisit.None?
  {
    var targets := PriorityGroups(s.rot.groups, |s.rot.groups|);
    if !cfg.revisits || cfg.monitor || targets == [] then s
    else if s.rot.index in targets then s.(rot := s.rot.(creditMs := 0.0))
    else if s.rot.creditMs + deltaMs < cfg.everyMs then s.(rot := s.rot.(creditMs := s.rot.creditMs + deltaMs))
    else
      var pick := targets[s.rot.cursor % |targets|];
      SendTune(s.(rot := s.rot.(revisit := Some(Look(s.rot.index, now - s.groupStartedAt)), creditMs := 0.0,
                                index := pick, cursor := (s.rot.cursor + 1) % |targets|)), cfg, now)
  }

  function EndRevisit(s: Node, cfg: Config, now: real): Node
    requires s.Valid() && s.rot.revisit.Some?
  {
    var look := s.rot.revisit.value;
    SendTune(s.(rot := s.rot.(revisit := None, index := look.returnIndex)), cfg,
      now).(groupStartedAt := now - look.elapsedMs)
  }

  /** The rotation's part of a tick: nothing audible holds the radio. */
  function Advance(s: Node, cfg: Config, deltaMs: real, now: real, dwell: real): Node
    requires s.Valid()
  {
    if s.rot.sweeping then
      if now - s.groupStartedAt >= cfg.dwellMs then
        SendTune(s.(rot := s.rot.(sweeping := false, index := 0)), cfg, now) else s
    else if s.rot.revisit.Some? then
      if now - s.groupStartedAt >= cfg.lookMs then EndRevisit(s, cfg, now) else s
    else if now - s.groupStartedAt >= dwell then
      if s.rot.index == |s.rot.groups| - 1 && s.rot.sweeps != [] then
        SendSweepTune(s.(rot := s.rot.(sweeping := true, sweepIndex := s.rot.sweepIndex + 1)),
                      cfg, s.rot.sweeps[s.rot.sweepIndex % |s.rot.sweeps|], now)
      else SendTune(s.(rot := s.rot.(index := (s.rot.index + 1) % |s.rot.groups|)), cfg, now)
    else MaybeStartRevisit(s, cfg, deltaMs, now)
  }

  /** An audible lane has been open past the cap: taken for stuck and abandoned. */
  predicate CapBreached(s: Node, cfg: Config, now: real)
    requires s.Valid()
  {
    HasAudibleOpen(s, cfg, now) && now - (if s.holdStartedAt == 0.0 then now else s.holdStartedAt) >= cfg.maxHoldMs
  }

  /** One tick; `dwell` is the current group's effective dwell at this moment. */
  function Tick(s: Node, cfg: Config, now: real, dwell: real): Node
    requires s.Valid()
  {
    var deltaMs := if now > s.lastTickAt then now - s.lastTickAt else 0.0;
    var s1 := s.(lastTickAt := now);
    if CapBreached(s, cfg, now) then
      Advance(ReleaseOpen(s1).(holdStartedAt := 0.0, groupStartedAt := 0.0), cfg, deltaMs, now, dwell)
    else if HasAudibleOpen(s, cfg, now) then
      s1.(holdStartedAt := if s.holdStartedAt == 0.0 then now else s.holdStartedAt, groupStartedAt := now)
    else Advance(s1.(holdStartedAt := 0.0), cfg, deltaMs, now, dwell)
  }
}
