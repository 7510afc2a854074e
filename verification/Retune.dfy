/** The retune handshake: LiveLoop, between the source's generation tags and the engine. A sample
    is modelled by its era: how many retunes had taken hold in the radio when it was captured. */
module Retune {
  import opened Options

  /** A ring block: one tag, its samples' eras, and how many samples with that tag came before it
      (`at`, which only the proofs read). */
  datatype Block = Block(gen: nat, eras: seq<nat>, at: nat)

  /** The samples a block says it holds, two bytes each, and never more than it has room for. */
  function Clamped(b: Block, bytes: nat): (c: Block)
    ensures c.gen == b.gen && c.at == b.at && c.eras <= b.eras
    ensures bytes >= 2 * |b.eras| ==> c.eras == b.eras
    ensures bytes <= 2 * |b.eras| ==> 2 * |c.eras| <= bytes < 2 * |c.eras| + 2
  {
    var most := 2 * |b.eras|;
    var n := (if bytes > most then most else bytes) / 2;
    assert b.eras[..|b.eras|] == b.eras && b.eras[..n] <= b.eras;
    b.(eras := b.eras[..n])
  }

  datatype Tune = Tune(gen: nat, known: int)

  /** One pushed sample and the window the engine demodulated it as. */
  datatype Pushed = Pushed(era: nat, window: nat)

  datatype Loop = Loop(pending: Option<Tune>, settleLeft: int, failed: bool, window: nat, known: int,
                       pushed: seq<Pushed>, gapped: nat)

  function PushAll(eras: seq<nat>, window: nat): (p: seq<Pushed>)
    ensures |p| == |eras| && forall k :: 0 <= k < |p| ==> p[k] == Pushed(eras[k], window)
  {
    seq(|eras|, k requires 0 <= k < |eras| => Pushed(eras[k], window))
  }

  /** A tune command: the source was asked for the new center, and answered with its generation. */
  function OnTune(l: Loop, ok: bool, gen: nat, known: int, settle: nat): Loop {
    if ok then l.(pending := Some(Tune(gen, known)), settleLeft := settle) else l.(failed := true)
  }

  /** A known-list command goes to the engine now and into the tune that would overwrite it. */
  function OnKnown(l: Loop, known: int): Loop {
    l.(known := known, pending := if l.pending.Some? then Some(l.pending.value.(known := known)) else None)
  }

  /** What the source lost since the last step goes on the clock, too. */
  function OnLost(l: Loop, dropped: nat, discarded: nat): Loop { l.(gapped := l.gapped + dropped + discarded) }

  function OnBlock(l: Loop, b: Block): Loop {
    var n := |b.eras|;
    if l.pending.Some? && b.gen < l.pending.value.gen then l.(gapped := l.gapped + n)
    else if l.pending.Some? && l.settleLeft > 0 then l.(settleLeft := l.settleLeft - n, gapped := l.gapped + n)
    else
      var m := if l.pending.Some? then l.(window := l.pending.value.gen, known := l.pending.value.known,
        pending := None) else l;
      m.(pushed := m.pushed + PushAll(b.eras, m.window))
  }

  /** LiveLoop with the engine state it drives, updated in place on the DSP thread. */
  class LiveLoop {
    const settleSamples: nat
    var pending: Option<Tune>
    var settleLeft: int
    var failed: bool
    var window: nat
    var known: int
    var pushed: seq<Pushed>
    var gapped: nat

    ghost function Now(): Loop
      reads this
    {
      Loop(pending, settleLeft, failed, window, known, pushed, gapped)
    }

    /** rate * RETUNE_SETTLE_MS / 1000, rounded, on top of one full USB transfer (RTL_BUF_LEN / 2). */
    constructor (rate: nat)
      ensures settleSamples == 8192 + (rate * 20 + 500) / 1000
      ensures Now() == Loop(None, 0, false, 0, 0, [], 0)
    {
      settleSamples := 8192 + (rate * 20 + 500) / 1000;
      pending, settleLeft, failed, window, known, pushed, gapped := None, 0, false, 0, 0, [], 0;
    }

    method HandleTune(ok: bool, gen: nat, knownHz: int)
      modifies this
      ensures Now() == OnTune(old(Now()), ok, gen, knownHz, settleSamples)
    {
      if !ok {
        failed := true;
        return;
      }
      pending := Some(Tune(gen, knownHz));
      settleLeft := settleSamples;
    }

    method HandleKnown(knownHz: int)
      modifies this
      ensures Now() == OnKnown(old(Now()), knownHz)
    {
      if pending.Some? { pending := Some(pending.value.(known := knownHz)); }
      known := knownHz;
    }

    /** take_dropped and take_discarded, each reported if there is any. */
    method ReportLost(dropped: nat, discarded: nat)
      modifies this
      ensures Now() == OnLost(old(Now()), dropped, discarded)
    {
      if dropped > 0 { gapped := gapped + dropped; }
      if discarded > 0 { gapped := gapped + discarded; }
    }

    /** One block, of `bytes` bytes by its own account. */
    method Consume(block: Block, bytes: nat)
      modifies this
      ensures Now() == OnBlock(old(Now()), Clamped(block, bytes))
      ensures bytes == 2 * |block.eras| ==> Now() == OnBlock(old(Now()), block)
    {
      var b := Clamped(block, bytes);
      var n := |b.eras|;
      if pending.Some? {
        if b.gen < pending.value.gen {
          gapped := gapped + n;
          return;
        }
        if settleLeft > 0 {
          settleLeft := settleLeft - n;
          gapped := gapped + n;
          return;
        }
        window, known := pending.value.gen, pending.value.known;
        pending := None;
      }
      pushed := pushed + PushAll(b.eras, window);
    }
  }

  // ---- The loop and a source, run together

  /** The source side: its generation, a retune in progress on the DSP thread (the radio may already
      be on the new center), the last tag used and how many samples have carried it, and the ring. */
  datatype Rig = Rig(gen: nat, busy: bool, lastTag: nat, lead: nat, ring: seq<Block>, loop: Loop, lastKnown: int,
      lost: Lost)

  /** Samples the source has not reported yet: blocks the full ring refused, and what it threw away itself. */
  datatype Lost = Lost(dropped: nat, discarded: nat)

  datatype Action = Begin | End(ok: bool, known: int) | Known(known: int)
                  | Deliver(tag: nat, eras: seq<nat>, fits: bool) | Discard(n: nat) | Report | Take

  /** What a radio and its reader may do: tags never go back and never run ahead of the generation; no sample
      is from a center not yet asked for (a refused retune may still have moved the radio); and of the samples
      with one tag only the first `settle` may still be from an older center. */
  predicate Honest(r: Rig, tag: nat, eras: seq<nat>, settle: nat) {
    && r.lastTag <= tag <= r.gen
    && (forall j :: 0 <= j < |eras| ==> eras[j] <= r.gen + (if r.busy || r.loop.failed then 1 else 0))
    && (forall j :: 0 <= j < |eras| && eras[j] < tag ==> (if tag == r.lastTag then r.lead else 0) + j < settle)
  }

  /** Commands are drained between blocks, on the thread that consumes them. */
  predicate Enabled(r: Rig, a: Action, settle: nat) {
    match a
    case Begin => !r.busy && !r.loop.failed
    case End(_, _) => r.busy
    case Known(_) => !r.busy && !r.loop.failed
    case Deliver(tag, eras, _) => Honest(r, tag, eras, settle)
    case Discard(_) => true
    case Report => !r.busy && !r.loop.failed
    case Take => !r.busy && !r.loop.failed && r.ring != []
  }

  function Do(r: Rig, a: Action, settle: nat): Rig
    requires a.Take? ==> r.ring != []
  {
    match a
    case Begin => r.(busy := true)
    case End(ok, known) =>
      r.(busy := false, gen := if ok then r.gen + 1 else r.gen, lastKnown := if ok then known else r.lastKnown,
         loop := OnTune(r.loop, ok, r.gen + 1, known, settle))
    case Known(known) => r.(loop := OnKnown(r.loop, known), lastKnown := known)
    case Deliver(tag, eras, fits) =>
      var at := if tag == r.lastTag then r.lead else 0;
      r.(lastTag := tag, lead := at + |eras|, ring := if fits then r.ring + [Block(tag, eras, at)] else r.ring,
         lost := if fits then r.lost else r.lost.(dropped := r.lost.dropped + |eras|))
    case Discard(n) => r.(lost := r.lost.(discarded := r.lost.discarded + n))
    case Report => r.(loop := OnLost(r.loop, r.lost.dropped, r.lost.discarded), lost := Lost(0, 0))
    case Take => r.(ring := r.ring[1..], loop := OnBlock(r.loop, r.ring[0]))
  }

  predicate BlockOk(r: Rig, b: Block, settle: nat) {
    && b.gen <= r.lastTag
    && (b.gen == r.lastTag ==> b.at + |b.eras| <= r.lead)
    && (forall j :: 0 <= j < |b.eras| ==> b.eras[j] <= r.gen + (if r.busy || r.loop.failed then 1 else 0))
    && (forall j :: 0 <= j < |b.eras| && b.eras[j] < b.gen ==> b.at + j < settle)
  }

  /** Ring order is stream order. */
  predicate InOrder(ring: seq<Block>) {
    forall i, j :: 0 <= i < j < |ring| ==>
      ring[i].gen < ring[j].gen
      || (ring[i].gen == ring[j].gen && ring[i].at + |ring[i].eras| <= ring[j].at)
  }

  /** Samples of generation gen already thrown away by the settle count. */
  function Settled(l: Loop, settle: nat): int { settle - l.settleLeft }

  ghost predicate Inv(r: Rig, settle: nat) {
    && r.lastTag <= r.gen
    && (forall i :: 0 <= i < |r.ring| ==> BlockOk(r, r.ring[i], settle))
    && InOrder(r.ring)
    && (forall k :: 0 <= k < |r.loop.pushed| ==> r.loop.pushed[k].era == r.loop.pushed[k].window)
    && (r.loop.failed || (
      && (r.loop.pending.Some? ==>
        && r.loop.pending.value.gen == r.gen && 0 < r.gen && 0 <= Settled(r.loop, settle)
        && r.loop.pending.value.known == r.lastKnown
        && (if r.lastTag == r.gen then Settled(r.loop, settle) <= r.lead else Settled(r.loop, settle) == 0)
        && (forall i :: 0 <= i < |r.ring| && r.ring[i].gen == r.gen ==> Settled(r.loop, settle) <= r.ring[i].at))
      && (r.loop.pending.None? ==>
        && r.loop.window == r.gen && r.loop.known == r.lastKnown
        && (r.gen == 0 || (r.lastTag == r.gen && settle <= r.lead))
        && (forall i :: 0 <= i < |r.ring| ==> r.ring[i].gen == r.gen && (r.gen == 0 || settle <= r.ring[i].at)))))
  }

  lemma DeliverKeeps(r: Rig, tag: nat, eras: seq<nat>, fits: bool, settle: nat)
    requires Inv(r, settle) && Honest(r, tag, eras, settle)
    ensures Inv(Do(r, Deliver(tag, eras, fits), settle), settle)
  {
    var t := Do(r, Deliver(tag, eras, fits), settle);
    forall i | 0 <= i < |t.ring| ensures BlockOk(t, t.ring[i], settle) {
      if i < |r.ring| { assert BlockOk(r, r.ring[i], settle); }
    }
    forall i, j | 0 <= i < j < |t.ring|
      ensures t.ring[i].gen < t.ring[j].gen || (t.ring[i].gen == t.ring[j].gen && t.ring[i].at
        + |t.ring[i].eras| <= t.ring[j].at)
    {
      assert BlockOk(r, r.ring[i], settle);
    }
  }

  lemma TakeKeeps(r: Rig, settle: nat)
    requires Inv(r, settle) && !r.busy && !r.loop.failed && r.ring != []
    ensures Inv(Do(r, Take, settle), settle)
  {
    var t, b := Do(r, Take, settle), r.ring[0];
    assert BlockOk(r, b, settle);
    forall i | 0 <= i < |t.ring| ensures BlockOk(t, t.ring[i], settle) && t.ring[i] == r.ring[i + 1] {
      assert BlockOk(r, r.ring[i + 1], settle);
    }
    forall k | 0 <= k < |t.loop.pushed| ensures t.loop.pushed[k].era == t.loop.pushed[k].window {
      if k >= |r.loop.pushed| { assert b.eras[k - |r.loop.pushed|] <= r.gen; }
    }
  }

  lemma OtherKeeps(r: Rig, a: Action, settle: nat)
    requires Inv(r, settle) && Enabled(r, a, settle) && !a.Deliver? && !a.Take?
    ensures Inv(Do(r, a, settle), settle)
  {
    var t := Do(r, a, settle);
    forall i | 0 <= i < |t.ring| ensures BlockOk(t, t.ring[i], settle) {
      assert BlockOk(r, r.ring[i], settle);
    }
  }

  const START: Rig := Rig(0, false, 0, 0, [], Loop(None, 0, false, 0, 0, [], 0), 0, Lost(0, 0))

  /** rs is a run: the rigs the actions lead through, one by one. */
  ghost predicate Trace(rs: seq<Rig>, actions: seq<Action>, settle: nat) {
    && |rs| == |actions| + 1 && rs[0] == START
    && forall k :: 0 <= k < |actions| ==>
      Enabled(rs[k], actions[k], settle)
      && rs[k + 1] == Do(rs[k], actions[k], settle)
  }

  lemma {:induction false} TraceInv(rs: seq<Rig>, actions: seq<Action>, settle: nat, k: nat)
    requires Trace(rs, actions, settle) && k < |rs|
    ensures Inv(rs[k], settle)
  {
    hide Inv, Do;
    if k == 0 {
      StartInv(settle);
    } else {
      TraceInv(rs, actions, settle, k - 1);
      var r, a := rs[k - 1], actions[k - 1];
      assert Enabled(r, a, settle) && rs[k] == Do(r, a, settle);
      DoKeeps(r, a, settle);
    }
  }

  lemma StartInv(settle: nat)
    ensures Inv(START, settle)
  {}

  lemma DoKeeps(r: Rig, a: Action, settle: nat)
    requires Inv(r, settle) && Enabled(r, a, settle)
    ensures Inv(Do(r, a, settle), settle)
  {
    hide Inv, Do;
    match a
    case Deliver(tag, eras, fits) => DeliverKeeps(r, tag, eras, fits, settle);
    case Take => TakeKeeps(r, settle);
    case _ => OtherKeeps(r, a, settle);
  }

  /** Over every run of tunes, known lists, deliveries, ring overruns and reads: no sample is ever
      demodulated as a window it was not captured in, and once no tune is pending the engine sits on
      the newest window with the newest known list. */
  lemma NoStaleSample(rs: seq<Rig>, actions: seq<Action>, settle: nat, k: nat)
    requires Trace(rs, actions, settle) && k < |rs|
    ensures forall m :: 0 <= m < |rs[k].loop.pushed| ==> rs[k].loop.pushed[m].era == rs[k].loop.pushed[m].window
    ensures !rs[k].loop.failed && rs[k].loop.pending.None? ==>
      rs[k].loop.window == rs[k].gen
      && rs[k].loop.known == rs[k].lastKnown
  {
    TraceInv(rs, actions, settle, k);
  }

  /** The settle count is needed in full: discarding one sample less lets the last in-flight sample
      of the old window through, on a source that is honest about `settle`. */
  lemma SettleIsTight(settle: nat)
    requires settle > 0
    ensures var tuned := START.(gen := 1, loop := OnTune(START.loop, true, 1, 0, settle - 1));
      var stale := seq(settle - 1, _ => 0);
      var later := Do(tuned, Deliver(1, stale, true), settle);
      && Honest(tuned, 1, stale, settle) && Honest(later, 1, [0], settle)
      && Pushed(0, 1) in OnBlock(OnBlock(later.loop, Block(1, stale, 0)), Block(1, [0], settle - 1)).pushed
  {
    assert PushAll([0], 1) == [Pushed(0, 1)];
    var p := OnBlock(OnBlock(OnTune(START.loop, true, 1, 0, settle - 1), Block(1, seq(settle - 1, _ => 0), 0)),
      Block(1, [0], settle - 1)).pushed;
    assert p[|p| - 1] == Pushed(0, 1);
  }

  // ---- Sample accounting

  function InRing(ring: seq<Block>): nat { if ring == [] then 0 else |ring[0].eras| + InRing(ring[1..]) }

  lemma {:induction false} InRingAppend(ring: seq<Block>, b: Block)
    ensures InRing(ring + [b]) == InRing(ring) + |b.eras|
  {
    if ring != [] {
      assert (ring + [b])[1..] == ring[1..] + [b];
      InRingAppend(ring[1..], b);
    }
  }

  /** Samples the source delivered in a run, and those it threw away itself. */
  function Delivered(actions: seq<Action>): nat {
    if actions == [] then 0
    else Delivered(actions[..|actions| - 1]) + (if actions[|actions| - 1].Deliver? then |actions[|actions| - 1].eras|
      else 0)
  }

  function Discarded(actions: seq<Action>): nat {
    if actions == [] then 0
    else Discarded(actions[..|actions| - 1]) + (if actions[|actions| - 1].Discard? then actions[|actions| - 1].n else 0)
  }

  /** The engine's clock: samples demodulated and samples noted as gaps. */
  function Clock(l: Loop): nat { |l.pushed| + l.gapped }

  /** Over every run the clock, what is yet to be reported and what is still in the ring add up to all the
      source ever had; so once it has reported and the ring is empty, the clock has counted every sample. */
  lemma {:induction false} EverySampleCounts(rs: seq<Rig>, actions: seq<Action>, settle: nat, k: nat)
    requires Trace(rs, actions, settle) && k < |rs|
    ensures var r, had := rs[k], Delivered(actions[..k]) + Discarded(actions[..k]);
      && Clock(r.loop) + r.lost.dropped + r.lost.discarded + InRing(r.ring) == had
      && (r.lost == Lost(0, 0) && r.ring == [] ==> Clock(r.loop) == had)
  {
    if k > 0 {
      EverySampleCounts(rs, actions, settle, k - 1);
      hide Do, Clock;
      assert actions[..k][..k - 1] == actions[..k - 1];
      assert Enabled(rs[k - 1], actions[k - 1], settle) && rs[k] == Do(rs[k - 1], actions[k - 1], settle);
      StepCounts(rs[k - 1], actions[k - 1], settle);
    }
  }

  lemma StepCounts(r: Rig, a: Action, settle: nat)
    requires a.Take? ==> r.ring != []
    ensures var t := Do(r, a, settle);
      Clock(t.loop) + t.lost.dropped + t.lost.discarded + InRing(t.ring)
      == Clock(r.loop) + r.lost.dropped + r.lost.discarded + InRing(r.ring)
         + (if a.Deliver? then |a.eras| else if a.Discard? then a.n else 0)
  {
    if a.Deliver? { InRingAppend(r.ring, Block(a.tag, a.eras, if a.tag == r.lastTag then r.lead else 0)); }
  }

  // ---- When a retune is over

  function OnBlocks(l: Loop, bs: seq<Block>): Loop
    decreases |bs|
  {
    if bs == [] then l else OnBlocks(OnBlock(l, bs[0]), bs[1..])
  }

  function Eras(bs: seq<Block>): seq<nat> { if bs == [] then [] else bs[0].eras + Eras(bs[1..]) }

  ghost predicate AllOlder(bs: seq<Block>, g: nat) { forall i :: 0 <= i < |bs| ==> bs[i].gen < g }

  ghost predicate NoneOlder(bs: seq<Block>, g: nat) { forall i :: 0 <= i < |bs| ==> bs[i].gen >= g }

  /** With a tune to generation g pending: blocks of older generations are noted as gaps, and so are blocks of
      g until those before hold the settle count; every block from then on is demodulated, in order, as window g. */
  lemma SettleEnds(l: Loop, older: seq<Block>, settling: seq<Block>, rest: seq<Block>)
    requires l.pending.Some? && rest != [] && AllOlder(older, l.pending.value.gen)
    requires NoneOlder(settling, l.pending.value.gen) && NoneOlder(rest, l.pending.value.gen)
    requires InRing(settling) >= l.settleLeft
    requires settling != [] ==> InRing(settling[..|settling| - 1]) < l.settleLeft
    ensures var t, done := l.pending.value, OnBlocks(l, older + (settling + rest));
      && done.pending.None? && done.window == t.gen && done.known == t.known && done.failed == l.failed
      && done.gapped == l.gapped + InRing(older) + InRing(settling)
      && |done.pushed| == |l.pushed| + InRing(rest) && done.pushed == l.pushed + PushAll(Eras(rest), t.gen)
  {
    hide OnBlocks, PushAll;
    OlderGapped(l, older, settling + rest);
    var m := l.(gapped := l.gapped + InRing(older));
    SettlingGapped(m, settling, rest);
    var n := m.(settleLeft := m.settleLeft - InRing(settling), gapped := m.gapped + InRing(settling));
    FirstPushed(n, rest);
    EraCount(rest);
  }

  lemma {:induction false} OlderGapped(l: Loop, older: seq<Block>, tail: seq<Block>)
    requires l.pending.Some? && AllOlder(older, l.pending.value.gen)
    ensures OnBlocks(l, older + tail) == OnBlocks(l.(gapped := l.gapped + InRing(older)), tail)
    decreases |older|
  {
    if older == [] {
      assert older + tail == tail;
    } else {
      assert (older + tail)[1..] == older[1..] + tail && (older + tail)[0] == older[0];
      OlderGapped(OnBlock(l, older[0]), older[1..], tail);
    }
  }

  lemma {:induction false} SettlingGapped(l: Loop, settling: seq<Block>, tail: seq<Block>)
    requires l.pending.Some? && NoneOlder(settling, l.pending.value.gen)
    requires settling != [] ==> InRing(settling[..|settling| - 1]) < l.settleLeft
    ensures var n := InRing(settling);
      OnBlocks(l, settling + tail) == OnBlocks(l.(settleLeft := l.settleLeft - n, gapped := l.gapped + n), tail)
    decreases |settling|
  {
    if settling == [] {
      assert settling + tail == tail;
    } else {
      var front := settling[..|settling| - 1];
      assert (settling + tail)[1..] == settling[1..] + tail && (settling + tail)[0] == settling[0];
      if |settling| > 1 { assert front[1..] == settling[1..][..|settling| - 2] && front[0] == settling[0]; }
      SettlingGapped(OnBlock(l, settling[0]), settling[1..], tail);
    }
  }

  lemma FirstPushed(l: Loop, rest: seq<Block>)
    requires l.pending.Some? && NoneOlder(rest, l.pending.value.gen) && rest != [] && l.settleLeft <= 0
    ensures var t := l.pending.value;
      OnBlocks(l, rest)
        == l.(pending := None, window := t.gen, known := t.known, pushed := l.pushed + PushAll(Eras(rest), t.gen))
  {
    var m := OnBlock(l, rest[0]);
    AllPushed(m, rest[1..]);
    PushedOn(l.pushed, rest[0].eras, Eras(rest[1..]), l.pending.value.gen);
    hide PushAll;
  }

  lemma PushedOn(p: seq<Pushed>, a: seq<nat>, b: seq<nat>, window: nat)
    ensures p + PushAll(a, window) + PushAll(b, window) == p + PushAll(a + b, window)
  {}

  lemma {:induction false} AllPushed(l: Loop, bs: seq<Block>)
    requires l.pending.None?
    ensures OnBlocks(l, bs) == l.(pushed := l.pushed + PushAll(Eras(bs), l.window))
    decreases |bs|
  {
    if bs == [] {
      assert l.pushed + PushAll([], l.window) == l.pushed;
    } else {
      AllPushed(OnBlock(l, bs[0]), bs[1..]);
      PushedOn(l.pushed, bs[0].eras, Eras(bs[1..]), l.window);
      hide PushAll;
    }
  }

  lemma {:induction false} EraCount(bs: seq<Block>)
    ensures |Eras(bs)| == InRing(bs)
  {
    if bs != [] { EraCount(bs[1..]); }
  }
}
