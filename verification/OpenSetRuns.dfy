/** Whole runs of Node and helper: the two processes stepping in any order, over pipes of any length. */
module OpenSetRuns {
  import opened Options
  import opened SquelchSpec
  import opened SquelchInvariants
  import opened SquelchLog
  import Runs = SquelchRuns
  import opened HopSpec
  import opened OpenSetProtocol

  /** A spawned helper's first moment: Node has written its first tune, the scanner is as built. */
  function Spawned(cfg: Config, groups: seq<Group>, sweeps: seq<real>, now: real, slots: nat): System
    requires groups != []
  {
    var blank := Node({}, map[], 0.0, 0.0, 0.0, Rotation(groups, 0, sweeps, 0, false, None, 0.0, 0), []);
    System(cfg, Retarget(blank, cfg, groups, sweeps, now), 0, None, Runs.Built(slots), 0)
  }

  ghost predicate Next(s: System, a: Action, t: System, p: Params) {
    s.Valid() && Enabled(s, a) && t == Do(s, a, p)
  }

  /** ss is a run of the two processes: the states that the actions lead through, one by one. */
  ghost predicate Trace(ss: seq<System>, actions: seq<Action>, p: Params) {
    && |ss| == |actions| + 1
    && (exists cfg, groups, sweeps, now, slots :: groups != [] && ss[0] == Spawned(cfg, groups, sweeps, now, slots))
    && forall k :: 0 <= k < |actions| ==> Next(ss[k], actions[k], ss[k + 1], p)
  }

  lemma SpawnedInv(cfg: Config, groups: seq<Group>, sweeps: seq<real>, now: real, slots: nat)
    requires groups != []
    ensures Inv(Spawned(cfg, groups, sweeps, now, slots))
  {
    Runs.EveryRun(slots, [], Params(0.0, 0.0, 0.0));
    var s := Spawned(cfg, groups, sweeps, now, slots);
    assert s.sc.out[..0] == [];
  }

  lemma {:induction false} TraceInv(ss: seq<System>, actions: seq<Action>, p: Params, k: nat)
    requires Trace(ss, actions, p) && k < |ss|
    ensures Inv(ss[k])
  {
    hide Inv, Do, Enabled, Spawned;
    if k == 0 {
      var cfg, groups, sweeps, now, slots :| groups != [] && ss[0] == Spawned(cfg, groups, sweeps, now, slots);
      SpawnedInv(cfg, groups, sweeps, now, slots);
    } else {
      TraceInv(ss, actions, p, k - 1);
      assert Next(ss[k - 1], actions[k - 1], ss[k], p);
      ActionKeeps(ss[k - 1], actions[k - 1], p);
    }
  }

  /** In every interleaving, at every moment: Node believes open only what the stream it has read
      opened and did not close; an id it holds is open in the helper or has its close on the way,
      so none is ever stuck; and once both pipes are empty the two sides agree exactly. */
  lemma OpenSetIsTrue(ss: seq<System>, actions: seq<Action>, p: Params, k: nat)
    requires Trace(ss, actions, p) && k < |ss|
    ensures var s := ss[k];
      && s.Valid()
      && s.node.openIds <= Seen(s)
      && (forall id :: id in s.node.openIds ==> id in OpenIds(s.sc.lanes) || CloseAhead(s.sc.out, s.heard, id))
      && (s.Quiescent() ==> s.node.openIds == OpenIds(s.sc.lanes))
  {
    TraceInv(ss, actions, p, k);
    var s := ss[k];
    forall id | id in s.node.openIds ensures id in OpenIds(s.sc.lanes) || CloseAhead(s.sc.out, s.heard, id) {
      LeftByClose(s.sc.out, s.heard, id);
    }
    hide OpenAfter, Alternates, Arbitrated;
    if s.Quiescent() {
      assert s.sc.out[..s.heard] == s.sc.out;
      forall id | id in Seen(s) ensures id in s.node.openIds {
        assert !CloseAhead(s.sc.out, s.heard, id);
      }
    }
  }
}
