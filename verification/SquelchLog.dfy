/** The Scanner's event log: opens and closes of each lane alternate, and every open rests on
    OPEN_POLLS qualifying polls in a row. */
module SquelchLog {
  import opened Options
  import opened SquelchSpec

  // ---- The open set an event stream leaves behind

  function Apply(o: set<LaneId>, e: Event): set<LaneId> {
    match e
    case Open(id) => o + {id}
    case Close(id) => o - {id}
    case _ => o
  }

  /** The ids opened and not closed by a stream. */
  function OpenAfter(out: seq<Event>): set<LaneId> {
    if out == [] then {} else Apply(OpenAfter(out[..|out| - 1]), out[|out| - 1])
  }

  /** No lane is opened while open or closed while closed. */
  predicate Alternates(out: seq<Event>) {
    out == [] ||
    (var o, e := OpenAfter(out[..|out| - 1]), out[|out| - 1];
     Alternates(out[..|out| - 1]) && (e.Open? ==> e.id !in o) && (e.Close? ==> e.id in o))
  }

  lemma Append(out: seq<Event>, e: Event)
    ensures OpenAfter(out + [e]) == Apply(OpenAfter(out), e)
    ensures Alternates(out + [e]) <==>
      Alternates(out) && (e.Open? ==> e.id !in OpenAfter(out))
      && (e.Close? ==> e.id in OpenAfter(out))
  {
    assert (out + [e])[..|out|] == out;
  }

  /** Events other than opens and closes leave the open set alone. */
  lemma AppendQuiet(out: seq<Event>, e: Event)
    requires !e.Open? && !e.Close?
    ensures OpenAfter(out + [e]) == OpenAfter(out) && Alternates(out + [e]) == Alternates(out)
  {
    Append(out, e);
  }

  /** An id once in the open set is there still, or was closed in between. */
  lemma {:induction false} LeftByClose(out: seq<Event>, k: nat, id: LaneId)
    requires k <= |out| && id in OpenAfter(out[..k])
    ensures id in OpenAfter(out) || exists l :: k <= l < |out| && out[l] == Close(id)
  {
    if k == |out| {
      assert out[..k] == out;
    } else {
      var m := |out| - 1;
      assert out[..m][..k] == out[..k];
      LeftByClose(out[..m], k, id);
      if id in OpenAfter(out[..m]) {
        assert id !in OpenAfter(out) ==> out[m] == Close(id);
      } else {
        var l :| k <= l < m && out[..m][l] == Close(id);
        assert out[l] == Close(id);
      }
    }
  }

  ghost function Ids(lanes: seq<Lane>): set<LaneId> {
    set i | 0 <= i < |lanes| && !lanes[i].IsParked() :: lanes[i].cfg.id
  }

  ghost function OpenIds(lanes: seq<Lane>): set<LaneId> {
    set i | 0 <= i < |lanes| && !lanes[i].IsParked() && lanes[i].open :: lanes[i].cfg.id
  }

  predicate Distinct(lanes: seq<Lane>) {
    forall i, j :: 0 <= i < j < |lanes| ==> lanes[i].cfg.id == lanes[j].cfg.id ==> lanes[i].IsParked()
  }

  /** The log tells exactly which lanes are open. */
  ghost predicate Logged(s: State) {
    Distinct(s.lanes) && Alternates(s.out) && OpenAfter(s.out) == OpenIds(s.lanes)
  }

  /** What any command but a tune adds to a good log: it stays good, its opens name lanes the
      scanner had, and no lane appears except Close Calls. */
  ghost predicate Extends(s: State, t: State) {
    && s.out <= t.out
    && Logged(t)
    && (forall k :: |s.out| <= k < |t.out| && t.out[k].Open? ==> t.out[k].id in Ids(s.lanes))
    && (forall id :: id in Ids(t.lanes) ==> id in Ids(s.lanes) || id.CloseCall?)
  }

  lemma ExtendsExtends(s: State, t: State, u: State)
    requires Extends(s, t) && Extends(t, u) && Ids(t.lanes) <= Ids(s.lanes)
    ensures Extends(s, u)
  {
    forall k | |s.out| <= k < |u.out| && u.out[k].Open? ensures u.out[k].id in Ids(s.lanes) {
      if k < |t.out| { assert t.out[k] == u.out[k]; }
    }
  }

  lemma OpenIdsUpdate(lanes: seq<Lane>, i: nat, L: Lane)
    requires i < |lanes| && Distinct(lanes) && L.cfg.id == lanes[i].cfg.id && !L.IsParked()
    ensures Distinct(lanes[i := L]) && Ids(lanes[i := L]) == Ids(lanes)
    ensures OpenIds(lanes[i := L]) == if L.open then OpenIds(lanes) + {L.cfg.id} else OpenIds(lanes) - {L.cfg.id}
  {
    var m := lanes[i := L];
    assert forall j :: 0 <= j < |lanes| ==> m[j].cfg.id == lanes[j].cfg.id;
    forall id | id in Ids(lanes) ensures id in Ids(m) {
      var j :| 0 <= j < |lanes| && !lanes[j].IsParked() && lanes[j].cfg.id == id;
      assert m[j].cfg.id == id && !m[j].IsParked();
    }
    forall id | id in OpenIds(lanes) && id != L.cfg.id ensures id in OpenIds(m) {
      var j :| 0 <= j < |lanes| && !lanes[j].IsParked() && lanes[j].open && lanes[j].cfg.id == id;
      assert m[j] == lanes[j];
    }
    if L.open { assert m[i].open; }
  }

  /** A turn that logs no open or close leaves the open set alone. */
  lemma QuietExtends(s: State, i: nat, L: Lane, t: State)
    requires Logged(s) && i < |s.lanes| && !L.IsParked() && L.cfg.id == s.lanes[i].cfg.id && L.open == s.lanes[i].open
    requires t.lanes == s.lanes[i := L] && (t.out == s.out || exists w :: t.out == s.out + [Audible(w)])
    ensures Extends(s, t)
  {
    OpenIdsUpdate(s.lanes, i, L);
    assert s.lanes[i].open ==> L.cfg.id in OpenIds(s.lanes);
    assert !s.lanes[i].open ==> L.cfg.id !in OpenIds(s.lanes);
    if t.out != s.out {
      var w :| t.out == s.out + [Audible(w)];
      Append(s.out, Audible(w));
    }
  }

  lemma SetAudibleExtends(s: State, i: int)
    requires Logged(s) && -1 <= i < |s.lanes|
    ensures Extends(s, SetAudible(s, i))
  {
    var t := SetAudible(s, i);
    if t.out != s.out { AppendQuiet(s.out, t.out[|s.out|]); }
    hide OpenAfter, Alternates, OpenIds;
  }

  lemma OpenedExtends(s: State, i: nat, L: Lane)
    requires Logged(s) && i < |s.lanes| && !s.lanes[i].IsParked() && !s.lanes[i].open && L.open
      && L.cfg == s.lanes[i].cfg
    ensures var t := s.(lanes := s.lanes[i := L], out := s.out + [Open(L.cfg.id)]);
      Extends(s, t) && Ids(t.lanes) == Ids(s.lanes)
  {
    Append(s.out, Open(L.cfg.id));
    OpenIdsUpdate(s.lanes, i, L);
    hide OpenAfter, Alternates;
    assert L.cfg.id in Ids(s.lanes);
    assert L.cfg.id !in OpenIds(s.lanes);
  }

  lemma OpenLaneExtends(s: State, i: nat)
    requires Logged(s) && ValidSlot(s, i) && !s.lanes[i].IsParked() && !s.lanes[i].open
    ensures Extends(s, OpenLane(s, i)) && Ids(OpenLane(s, i).lanes) == Ids(s.lanes)
  {
    var L := s.lanes[i].(open := true, belowSince := -1.0, above := s.lanes[i].above + 1);
    var t := s.(lanes := s.lanes[i := L], out := s.out + [Open(L.cfg.id)]);
    OpenedExtends(s, i, L);
    SetAudibleExtends(t, i);
    hide Extends, Logged;
    if OpenLane(s, i) != t { ExtendsExtends(s, t, SetAudible(t, i)); }
  }

  lemma CloseLaneExtends(s: State, i: nat)
    requires Logged(s) && ValidSlot(s, i) && !s.lanes[i].IsParked() && s.lanes[i].open
    ensures Extends(s, CloseLane(s, i)) && Ids(CloseLane(s, i).lanes) <= Ids(s.lanes)
    ensures Close(s.lanes[i].cfg.id) in CloseLane(s, i).out[|s.out|..]
  {
    hide NextOpen;
    var L := s.lanes[i].(open := false, above := 0, belowSince := -1.0);
    var t := s.(lanes := s.lanes[i := L], out := s.out + [Close(L.cfg.id)]);
    Append(s.out, Close(L.cfg.id));
    OpenIdsUpdate(s.lanes, i, L);
    assert L.cfg.id in OpenIds(s.lanes);
    assert Extends(s, t);
    var u := if t.audible == i then SetAudible(t, NextOpen(t.lanes)) else t;
    SetAudibleExtends(t, NextOpen(t.lanes));
    assert u.out[|s.out|] == Close(L.cfg.id);
    ExtendsExtends(s, t, u);
    var v := u.(lanes := u.lanes[i := PARKED_LANE]);
    FreeSlot(u, i);
    ExtendsExtends(s, u, v);
  }

  /** Freeing a closed slot forgets its id and nothing else. */
  lemma FreeSlot(u: State, i: nat)
    requires Logged(u) && i < |u.lanes| && !u.lanes[i].open
    ensures var v := u.(lanes := u.lanes[i := PARKED_LANE]);
      Extends(u, v) && Ids(v.lanes) <= Ids(u.lanes)
  {
    var m := u.lanes[i := PARKED_LANE];
    forall id | id in OpenIds(u.lanes) ensures id in OpenIds(m) {
      var j :| 0 <= j < |m| && !u.lanes[j].IsParked() && u.lanes[j].open && u.lanes[j].cfg.id == id;
      assert m[j] == u.lanes[j];
    }
  }

  lemma ExpireAlertExtends(s: State, i: nat, now: real)
    requires Logged(s) && ValidSlot(s, i) && !s.lanes[i].IsParked()
    ensures Extends(s, ExpireAlert(s, i, now)) && Ids(ExpireAlert(s, i, now).lanes) == Ids(s.lanes)
  {
    hide NextOpen;
    var L := s.lanes[i].(alertUntil := -1.0, allowAudio := s.lanes[i].cfg.audible);
    OpenIdsUpdate(s.lanes, i, L);
    QuietExtends(s, i, L, s.(lanes := s.lanes[i := L]));
    QuietExtends(s, i, s.lanes[i], s) by { assert s.lanes[i := s.lanes[i]] == s.lanes; }
    var t := ExpireAlert(s, i, now);
    if t != s { QuietExtends(s, i, L, t) by { assert t.lanes == s.lanes[i := L]; } }
  }

  lemma MeterExtends(s: State, i: nat, now: real, r: Reading, base: real, p: Params)
    requires Logged(s) && ValidSlot(s, i) && !s.lanes[i].IsParked()
    ensures Extends(s, Meter(s, i, now, r, base, p)) && Ids(Meter(s, i, now, r, base, p).lanes) == Ids(s.lanes)
  {
    hide Measure;
    var t := Meter(s, i, now, r, base, p);
    OpenIdsUpdate(s.lanes, i, t.lanes[i]);
    QuietExtends(s, i, t.lanes[i], t);
  }

  lemma DecideExtends(s: State, i: nat, now: real, db: real, base: real, p: Params)
    requires Logged(s) && ValidSlot(s, i) && !s.lanes[i].IsParked()
    ensures Extends(s, Decide(s, i, now, db, base, p)) && Ids(Decide(s, i, now, db, base, p).lanes) <= Ids(s.lanes)
  {
    hide OpenEvidence, HangS, OpenDb, OpenLane, CloseLane, Extends, Logged;
    var L := s.lanes[i];
    TallyExtends(s, i, L);
    assert s.(lanes := s.lanes[i := L]) == s by { assert s.lanes[i := L] == s.lanes; }
    if !L.open {
      TallyExtends(s, i, L.(above := 0));
      TallyExtends(s, i, L.(above := L.above + 1));
      OpenLaneExtends(s, i);
    } else {
      TallyExtends(s, i, L.(belowSince := now));
      TallyExtends(s, i, L.(belowSince := -1.0));
      CloseLaneExtends(s, i);
    }
  }

  lemma TallyExtends(s: State, i: nat, L: Lane)
    requires Logged(s) && i < |s.lanes| && !L.IsParked() && L.cfg.id == s.lanes[i].cfg.id && L.open == s.lanes[i].open
    ensures Extends(s, s.(lanes := s.lanes[i := L])) && Ids(s.lanes[i := L]) == Ids(s.lanes)
  {
    OpenIdsUpdate(s.lanes, i, L);
    QuietExtends(s, i, L, s.(lanes := s.lanes[i := L]));
  }

  lemma PollLaneExtends(s: State, i: nat, now: real, r: Reading, rated: bool, floor: Option<real>, p: Params)
    requires Logged(s) && ValidSlot(s, i)
    ensures Extends(s, PollLane(s, i, now, r, rated, floor, p))
      && Ids(PollLane(s, i, now, r, rated, floor, p).lanes) <= Ids(s.lanes)
  {
    hide ExpireAlert, Meter, Decide;
    var L := s.lanes[i];
    if !(L.IsParked() || !rated || L.cfg.background || Base(L, floor).None?) {
      var base := Base(L, floor).value;
      var e := ExpireAlert(s, i, now);
      var m := Meter(e, i, now, r, base, p);
      ExpireAlertExtends(s, i, now);
      SameId(s, i, now, r, base, p);
      MeterExtends(e, i, now, r, base, p);
      DecideExtends(m, i, now, r.slowDb, base, p);
      ExtendsExtends(s, e, m);
      ExtendsExtends(s, m, Decide(m, i, now, r.slowDb, base, p));
    }
  }

  lemma SameId(s: State, i: nat, now: real, r: Reading, base: real, p: Params)
    requires ValidSlot(s, i)
    ensures var e := ExpireAlert(s, i, now);
      e.lanes[i].cfg == s.lanes[i].cfg && Meter(e, i, now, r, base, p).lanes[i].cfg == s.lanes[i].cfg
  {
    hide Measure, NextOpen;
  }

  lemma {:induction false} PollUpToExtends(s: State, k: nat, now: real, r: seq<Reading>, rated: seq<bool>,
      floor: Option<real>, p: Params)
    requires |r| == |rated| == |s.lanes| && k <= |s.lanes| && Logged(s) && s.Sane()
    ensures var t := PollUpTo(s, k, now, r, rated, floor, p);
      Extends(s, t) && Ids(t.lanes) <= Ids(s.lanes)
  {
    hide PollLane;
    if k > 0 {
      var t := PollUpTo(s, k - 1, now, r, rated, floor, p);
      PollUpToExtends(s, k - 1, now, r, rated, floor, p);
      PollLaneExtends(t, k - 1, now, r[k - 1], rated[k - 1], floor, p);
      ExtendsExtends(s, t, PollUpTo(s, k, now, r, rated, floor, p));
    }
  }

  lemma PollExtends(s: State, now: real, r: seq<Reading>, p: Params)
    requires Logged(s) && s.Sane()
    ensures Extends(s, Poll(s, now, r, p))
  {
    hide PollUpTo, SharedFloor;
    if !s.monitor && |r| == |s.lanes| {
      var w := s.(lanes := WarmAll(s.lanes, r));
      assert forall i :: 0 <= i < |s.lanes| ==> w.lanes[i].cfg == s.lanes[i].cfg && w.lanes[i].open == s.lanes[i].open;
      assert Ids(w.lanes) == Ids(s.lanes) && OpenIds(w.lanes) == OpenIds(s.lanes);
      PollUpToExtends(w, |s.lanes|, now, r, RatedAll(s.lanes), SharedFloor(w.lanes, |w.lanes|), p);
      ExtendsExtends(s, w, Poll(s, now, r, p));
    }
  }

  lemma SkipExtends(s: State, holdoffS: real, now: real)
    requires Logged(s) && s.Sane()
    requires s.audible >= 0 ==> s.lanes[s.audible].open && !s.lanes[s.audible].IsParked()
    ensures Extends(s, Skip(s, holdoffS, now))
  {
    if s.audible >= 0 {
      var i := s.audible;
      var L := s.lanes[i].(m := s.lanes[i].m.(txActive := false));
      var u := s.(lanes := s.lanes[i := L]);
      TallyExtends(s, i, L);
      CloseLaneExtends(u, i);
      var t := CloseLane(u, i);
      ExtendsExtends(s, u, t);
      if !s.lanes[i].cfg.id.CloseCall? {
        KeepsSlot(u, i);
        hide CloseLane;
        TallyExtends(t, i, t.lanes[i].(skipUntil := now + holdoffS));
        ExtendsExtends(s, t, t.(lanes := t.lanes[i := t.lanes[i].(skipUntil := now + holdoffS)]));
      }
    }
  }

  lemma KeepsSlot(s: State, i: nat)
    requires ValidSlot(s, i) && !s.lanes[i].cfg.id.CloseCall?
    ensures CloseLane(s, i).lanes[i].cfg == s.lanes[i].cfg
  {
    hide NextOpen;
  }

  lemma AlertUnmuteExtends(s: State, id: LaneId, holdS: real, now: real)
    requires Logged(s) && s.Sane()
    ensures Extends(s, AlertUnmute(s, id, holdS, now))
  {
    hide Find;
    var i := Find(s.lanes, id, 0);
    if i >= 0 && !id.Parked? {
      var L := s.lanes[i].(allowAudio := true, alertUntil := now + holdS);
      TallyExtends(s, i, L);
      SetAudibleExtends(s.(lanes := s.lanes[i := L]), i);
      ExtendsExtends(s, s.(lanes := s.lanes[i := L]), SetAudible(s.(lanes := s.lanes[i := L]), i));
    }
  }

  lemma AssignCcExtends(s: State, f: int)
    requires Logged(s) && s.Sane() && CloseCall(f) !in Ids(s.lanes)
    requires forall j :: 0 <= j < |s.lanes| && s.lanes[j].IsParked() ==> !s.lanes[j].open
    ensures Extends(s, AssignCc(s, f))
  {
    hide Find;
    var i := Find(s.lanes, Parked, 0);
    if i >= 0 {
      var m := AssignCc(s, f).lanes;
      assert m == s.lanes[i := m[i]] && m[i].cfg.id == CloseCall(f) && !m[i].open;
      assert forall j :: 0 <= j < |m| && !s.lanes[j].IsParked() ==> s.lanes[j].cfg.id in Ids(s.lanes);
      assert Distinct(m);
      forall id | id in OpenIds(s.lanes) ensures id in OpenIds(m) {
        var j :| 0 <= j < |m| && !s.lanes[j].IsParked() && s.lanes[j].open && s.lanes[j].cfg.id == id;
        assert m[j] == s.lanes[j];
      }
    }
  }

  // ---- tune

  ghost function ChannelIds(cs: seq<ChannelCmd>): set<LaneId> { set i | 0 <= i < |cs| :: cs[i].id }

  /** The channel list of a tune names real channels, each once. */
  predicate DistinctCmds(cs: seq<ChannelCmd>) {
    && (forall i :: 0 <= i < |cs| ==> !cs[i].id.Parked?)
    && (forall i, j :: 0 <= i < j < |cs| ==> cs[i].id != cs[j].id)
  }

  lemma {:induction false} FilterDistinct(cs: seq<ChannelCmd>, b: bool)
    requires DistinctCmds(cs)
    ensures DistinctCmds(Filter(cs, b))
  {
    if cs != [] {
      FilterDistinct(cs[1..], b);
      var f := Filter(cs[1..], b);
      assert forall i :: 0 <= i < |f| ==> f[i] in f && f[i] in cs[1..];
      assert forall i :: 0 <= i < |f| ==> f[i].id != cs[0].id;
    }
  }

  lemma SlotsDistinct(cs: seq<ChannelCmd>, n: nat, skipById: map<LaneId, real>)
    requires DistinctCmds(cs)
    ensures Distinct(Slots(cs, n, skipById)) && Ids(Slots(cs, n, skipById)) <= ChannelIds(cs)
    ensures OpenIds(Slots(cs, n, skipById)) == {}
  {
    FilterDistinct(cs, false);
    FilterDistinct(cs, true);
    var regs, bgs, ls := Filter(cs, false), Filter(cs, true), Slots(cs, n, skipById);
    forall i | 0 <= i < n && !ls[i].IsParked()
      ensures Slot(regs, bgs, n, i).Some? && Slot(regs, bgs, n, i).value in cs
        && ls[i].cfg.id == Slot(regs, bgs, n, i).value.id && ls[i].cfg.id in ChannelIds(cs)
    {
      var c := Slot(regs, bgs, n, i).value;
      assert c in (if i == n - 1 && bgs != [] then bgs else regs);
      assert c in cs;
    }
    forall i, j | 0 <= i < j < n && !ls[i].IsParked() && !ls[j].IsParked() ensures ls[i].cfg.id != ls[j].cfg.id {
      var a, b := Slot(regs, bgs, n, i).value, Slot(regs, bgs, n, j).value;
      assert a == regs[i] && a in regs;
      if j == n - 1 && bgs != [] {
        assert b in bgs && a.background != b.background;
      } else {
        assert b == regs[j];
      }
    }
  }

  lemma OpenIdsSuffix(lanes: seq<Lane>, k: nat)
    requires k < |lanes| && Distinct(lanes)
    ensures var L := lanes[k];
      && (!L.IsParked() && L.open ==> L.cfg.id !in OpenIds(lanes[k + 1..]))
      && OpenIds(lanes[k..]) == OpenIds(lanes[k + 1..]) + if !L.IsParked() && L.open then {L.cfg.id} else {}
  {
    var L, now, later := lanes[k], lanes[k..], lanes[k + 1..];
    assert now[0] == L && forall j :: 0 <= j < |later| ==> later[j] == now[j + 1] == lanes[k + 1 + j];
    forall id | id in OpenIds(later) ensures id in OpenIds(now) && id != L.cfg.id {
      var j :| 0 <= j < |later| && !later[j].IsParked() && later[j].open && later[j].cfg.id == id;
      assert now[j + 1] == later[j];
    }
    forall id | id in OpenIds(now) ensures id in OpenIds(later) || (id == L.cfg.id && !L.IsParked() && L.open) {
      var j :| 0 <= j < |now| && !now[j].IsParked() && now[j].open && now[j].cfg.id == id;
      if j > 0 { assert later[j - 1] == now[j]; }
    }
  }

  lemma {:induction false} ClosingsClose(out: seq<Event>, lanes: seq<Lane>, k: nat)
    requires k <= |lanes| && Distinct(lanes) && Alternates(out) && OpenAfter(out) == OpenIds(lanes)
    ensures var l := out + Closings(lanes, k);
      Alternates(l) && OpenAfter(l) == OpenIds(lanes[k..])
    ensures forall e :: e in Closings(lanes, k) ==> e.Close?
    ensures forall i :: 0 <= i < k && !lanes[i].IsParked() && lanes[i].open ==>
      Close(lanes[i].cfg.id) in Closings(lanes, k)
  {
    hide OpenIds, OpenAfter, Alternates, Distinct;
    if k == 0 {
      assert out + Closings(lanes, 0) == out && lanes[0..] == lanes;
    } else {
      ClosingsClose(out, lanes, k - 1);
      OpenIdsSuffix(lanes, k - 1);
      var L, l := lanes[k - 1], out + Closings(lanes, k - 1);
      if !L.IsParked() && L.open {
        Append(l, Close(L.cfg.id));
        assert out + Closings(lanes, k) == l + [Close(L.cfg.id)];
      } else {
        assert out + Closings(lanes, k) == l;
      }
    }
  }

  /** The ack comes after a close for every lane that was open. */
  ghost predicate ClosedBeforeAck(s: State, t: State, centerHz: real) {
    && s.out <= t.out
    && exists q :: |s.out| <= q < |t.out| && t.out[q] == Tuned(centerHz) && forall id :: id in OpenIds(s.lanes) ==>
      Close(id) in t.out[|s.out|..q]
  }

  /** The log `out` goes on from s by closing every open lane and opening none. */
  ghost predicate Drained(s: State, out: seq<Event>) {
    && s.out <= out && Alternates(out) && OpenAfter(out) == {}
    && (forall k :: |s.out| <= k < |out| ==> !out[k].Open?)
    && (forall id :: id in OpenIds(s.lanes) ==> Close(id) in out[|s.out|..])
  }

  lemma DrainedByClosings(s: State)
    requires Logged(s)
    ensures Drained(s, s.out + Closings(s.lanes, |s.lanes|))
  {
    var closings := Closings(s.lanes, |s.lanes|);
    ClosingsClose(s.out, s.lanes, |s.lanes|);
    AllClosed(s.lanes, closings);
    NoLanes(s.lanes);
    hide OpenAfter, Alternates, Closings, OpenIds, Logged, Distinct;
    var out := s.out + closings;
    assert out[|s.out|..] == closings;
    forall k | |s.out| <= k < |out| ensures !out[k].Open? { assert out[k] in closings; }
  }

  lemma NoLanes(lanes: seq<Lane>)
    ensures OpenIds(lanes[|lanes|..]) == {}
  {}

  lemma AllClosed(lanes: seq<Lane>, closings: seq<Event>)
    requires forall i :: 0 <= i < |lanes| && !lanes[i].IsParked() && lanes[i].open ==>
      Close(lanes[i].cfg.id) in closings
    ensures forall id :: id in OpenIds(lanes) ==> Close(id) in closings
  {}

  lemma DrainedAppend(s: State, out: seq<Event>, e: Event)
    requires Drained(s, out) && !e.Open? && !e.Close?
    ensures Drained(s, out + [e])
  {
    AppendQuiet(out, e);
    hide OpenAfter, Alternates, OpenIds;
    assert (out + [e])[|s.out|..] == out[|s.out|..] + [e];
  }

  lemma RetunedLogs(s: State, centerHz: real, channels: seq<ChannelCmd>, monitor: bool)
    requires Logged(s) && s.Sane() && DistinctCmds(channels)
    ensures var t := Retuned(s, centerHz, channels, monitor);
      && Logged(t) && OpenIds(t.lanes) == {} && Ids(t.lanes) <= ChannelIds(channels)
      && ClosedBeforeAck(s, t, centerHz)
      && (forall k :: |s.out| <= k < |t.out| ==> !t.out[k].Open?)
  {
    hide Slots, Truncates, OpenAfter, Alternates, Closings, Drained;
    SlotsDistinct(channels, |s.lanes|, s.skipById);
    DrainedByClosings(s);
    var out1 := s.out + Closings(s.lanes, |s.lanes|);
    var out2 := out1 + (if Truncates(channels, |s.lanes|) then [Log] else []);
    DrainedAppend(s, out1, Log);
    assert out1 + [] == out1;
    var out3 := SetAudible(s.(monitor := monitor, out := out2), -1).out;
    DrainedAppend(s, out2, Audible(None));
    DrainedAppend(s, out3, Tuned(centerHz));
    RetunedAck(s, out3, centerHz);
    assert Retuned(s, centerHz, channels, monitor).out == out3 + [Tuned(centerHz)];
  }

  lemma RetunedAck(s: State, out: seq<Event>, centerHz: real)
    requires Drained(s, out) && Drained(s, out + [Tuned(centerHz)])
    ensures var l := out + [Tuned(centerHz)];
      && Alternates(l) && OpenAfter(l) == {} && s.out <= l && (forall k :: |s.out| <= k < |l| ==> !l[k].Open?)
      && exists q :: |s.out| <= q < |l| && l[q] == Tuned(centerHz) && forall id :: id in OpenIds(s.lanes) ==>
        Close(id) in l[|s.out|..q]
  {
    hide OpenAfter, Alternates;
    var l, q := out + [Tuned(centerHz)], |out|;
    assert l[q] == Tuned(centerHz) && l[|s.out|..q] == out[|s.out|..];
  }

  lemma RangesLog(s: State, ranges: Option<seq<(real, real)>>, t: State, centerHz: real)
    ensures Logged(SetCcAudible(s, ranges)) == Logged(s)
    ensures ClosedBeforeAck(SetCcAudible(s, ranges), t, centerHz) == ClosedBeforeAck(s, t, centerHz)
  {}

  /** A tune closes every open lane before it acks, then only ever opens lanes of its own list. */
  lemma TuneLogs(s: State, centerHz: real, channels: seq<ChannelCmd>, monitor: bool)
    requires Logged(s) && s.Sane() && DistinctCmds(channels)
    ensures var t := Tune(s, centerHz, channels, monitor);
      && Logged(t) && Ids(t.lanes) <= ChannelIds(channels) && ClosedBeforeAck(s, t, centerHz)
      && (forall k :: |s.out| <= k < |t.out| && t.out[k].Open? ==> t.out[k].id in ChannelIds(channels))
  {
    hide Retuned, HoldOpen, Logged;
    var t, u := Retuned(s, centerHz, channels, monitor), Tune(s, centerHz, channels, monitor);
    RetunedLogs(s, centerHz, channels, monitor);
    if monitor {
      HoldOpenLogs(t);
      var q :| |s.out| <= q < |t.out| && t.out[q] == Tuned(centerHz) && forall id :: id in OpenIds(s.lanes) ==>
        Close(id) in t.out[|s.out|..q];
      assert u.out[q] == Tuned(centerHz) && u.out[|s.out|..q] == t.out[|s.out|..q];
      assert forall k :: |s.out| <= k < |t.out| ==> u.out[k] == t.out[k];
    }
  }

  lemma HoldOpenLogs(t: State)
    requires Logged(t) && t.Sane() && OpenIds(t.lanes) == {}
    ensures var u := HoldOpen(t);
      t.out <= u.out && Logged(u) && Ids(u.lanes) == Ids(t.lanes)
      && (forall k :: |t.out| <= k < |u.out| && u.out[k].Open? ==> u.out[k].id in Ids(t.lanes))
  {
    var i := FirstAssigned(t.lanes, 0);
    if i >= 0 {
      var L := t.lanes[i].(open := true, m := t.lanes[i].m.(carrier := true, quiet := true));
      OpenIdsUpdate(t.lanes, i, L);
      Append(t.out, Open(L.cfg.id));
      assert L.cfg.id in Ids(t.lanes);
      var u := t.(lanes := t.lanes[i := L], out := t.out + [Open(L.cfg.id)]);
      assert Logged(u);
      SetAudibleExtends(u, i);
    }
  }
}
