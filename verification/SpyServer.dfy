/** SpyServer's retune marker. The protocol confirms nothing, but IQ frames echo the digital gain,
    so every retune also steps the gain through a cycle of three; the reader holds until it sees the
    new gain, drops two more frames, and only then tags samples with the new generation. */
module SpyServer {
  import opened IqSources
  import Retune

  const MARKER_STEPS: nat := 3
  const RETUNE_DROP_FRAMES: nat := 2
  const IN_RATE: nat := 768_000
  const OUT_RATE: nat := 750_000

  /** The reader thread's retune state. */
  datatype Reader = Reader(gen: nat, waiting: bool, drop: nat)

  datatype Verdict = Held | Dropped | Passed

  function Heard(c: Reader, g: nat): Reader { if g != c.gen then Reader(g, true, c.drop) else c }

  /** One IQ frame: g and want are the generation and the gain loaded while handling it. */
  function OnFrame(c: Reader, g: nat, want: nat, flags: nat): (Reader, Verdict) {
    var h := Heard(c, g);
    if h.waiting && flags != want then (h, Held)
    else
      var d := if h.waiting then RETUNE_DROP_FRAMES else h.drop;
      if d > 0 then (Reader(g, false, d - 1), Dropped) else (Reader(g, false, 0), Passed)
  }

  /** What becomes of the frames that echo these gains, while one generation and one gain are wanted. */
  function Verdicts(c: Reader, g: nat, want: nat, flags: seq<nat>): (vs: seq<Verdict>)
    ensures |vs| == |flags|
    decreases |flags|
  {
    if flags == [] then []
    else
      var (d, v) := OnFrame(c, g, want, flags[0]);
      [v] + Verdicts(d, g, want, flags[1..])
  }

  /** After a retune: frames are held until one echoes the wanted gain, that one and the next are dropped, and
      every later frame passes, whatever it echoes. */
  lemma {:induction false} EchoEndsHold(c: Reader, g: nat, want: nat, flags: seq<nat>, j: nat)
    requires (c.waiting || c.gen != g) && j < |flags|
    ensures var v := Verdicts(c, g, want, flags)[j];
      && (v.Held? <==> want !in flags[..j + 1])
      && (v.Passed? <==> j >= 2 && want in flags[..j - 1])
    decreases j
  {
    if j > 0 {
      assert flags[..j + 1] == [flags[0]] + flags[1..][..j];
      assert j >= 2 ==> flags[..j - 1] == [flags[0]] + flags[1..][..j - 2];
      if flags[0] == want {
        DropsOneMore(OnFrame(c, g, want, flags[0]).0, g, want, flags[1..], j - 1);
      } else {
        EchoEndsHold(OnFrame(c, g, want, flags[0]).0, g, want, flags[1..], j - 1);
        assert j >= 2 ==> flags[1..][..j - 2] == flags[1..j - 1];
      }
    } else {
      assert flags[..1] == [flags[0]];
    }
  }

  lemma {:induction false} DropsOneMore(c: Reader, g: nat, want: nat, flags: seq<nat>, j: nat)
    requires c == Reader(g, false, 1) && j < |flags|
    ensures Verdicts(c, g, want, flags)[j] == if j == 0 then Dropped else Passed
  {
    if j > 0 { AllPass(OnFrame(c, g, want, flags[0]).0, g, want, flags[1..], j - 1); }
  }

  lemma {:induction false} AllPass(c: Reader, g: nat, want: nat, flags: seq<nat>, j: nat)
    requires c == Reader(g, false, 0) && j < |flags|
    ensures Verdicts(c, g, want, flags)[j].Passed?
    decreases j
  {
    if j > 0 { AllPass(c, g, want, flags[1..], j - 1); }
  }

  class SpyServerSource {
    const digitalGain: nat
    const w: BlockWriter
    var gen: nat
    var wantGain: nat
    var markerStep: nat
    var reader: Reader
    var discardedIn: nat          // samples thrown away, at the server's rate
    var discardRem: nat

    ghost predicate Valid()
      reads this, w
    {
      w.Valid() && discardRem < IN_RATE && markerStep < MARKER_STEPS
    }

    constructor (digitalGain: nat)
      ensures Valid() && w.Pure() && w.Taken() == [] && fresh(w)
      ensures gen == 0 && reader == Reader(0, false, 0) && discardedIn == 0 && discardRem == 0
    {
      this.digitalGain := digitalGain;
      w := new BlockWriter(OUT_RATE / 100 * 2);
      gen, wantGain, markerStep, reader := 0, 0, 0, Reader(0, false, 0);
      discardedIn, discardRem := 0, 0;
    }

    /** Both settings sent: the new gain is stored first, then the generation. */
    method SetCenter(sent: bool) returns (ok: bool)
      requires Valid()
      modifies this
      ensures Valid() && ok == sent
      ensures markerStep == (old(markerStep) + 1) % MARKER_STEPS
      ensures ok ==> gen == old(gen) + 1 && wantGain == digitalGain + markerStep
      ensures !ok ==> gen == old(gen) && wantGain == old(wantGain)
      ensures reader == old(reader) && discardedIn == old(discardedIn) && discardRem == old(discardRem)
    {
      markerStep := (markerStep + 1) % MARKER_STEPS;
      if !sent { return false; }
      wantGain := digitalGain + markerStep;
      gen := gen + 1;
      return true;
    }

    /** A frame of n samples, which the rate converter would turn into `out`. */
    method OnIq(flags: nat, n: nat, out: seq<IqByte>, g: nat, want: nat)
      requires Valid() && AllGen(out, g)
      modifies this`reader, this`discardedIn, w
      ensures Valid() && reader == OnFrame(old(reader), g, want, flags).0
      ensures var verdict := OnFrame(old(reader), g, want, flags).1;
        && w.Taken() == old(w.Taken()) + (if verdict.Passed? then out else [])
        && discardedIn == old(discardedIn) + (if verdict.Passed? then 0 else n)
      ensures old(w.Pure()) && old(|w.acc| % 2 == 0 || w.accGen == g) ==> w.Pure()
    {
      hide Flat, LostBytes;
      if g != reader.gen {
        reader := Reader(g, true, reader.drop);
      }
      w.Retag(g);
      if reader.waiting {
        if flags != want {
          discardedIn := discardedIn + n;
          return;
        }
        reader := Reader(g, false, RETUNE_DROP_FRAMES);
      }
      if reader.drop > 0 {
        reader := reader.(drop := reader.drop - 1);
        discardedIn := discardedIn + n;
        return;
      }
      w.Append(out);
    }

    /** What was thrown away since the last call, at the converter's output rate. */
    method TakeDiscarded() returns (d: nat)
      requires Valid()
      modifies this`discardedIn, this`discardRem
      ensures Valid() && discardedIn == 0
      ensures IN_RATE * d + discardRem == OUT_RATE * old(discardedIn) + old(discardRem)
    {
      var scaled := discardedIn * OUT_RATE + discardRem;
      discardedIn := 0;
      discardRem := scaled % IN_RATE;
      d := scaled / IN_RATE;
    }
  }

  // ---- take_discarded over a run

  function Sum(xs: seq<nat>): nat { if xs == [] then 0 else Sum(xs[..|xs| - 1]) + xs[|xs| - 1] }

  /** ins[k] samples are discarded before the k-th call, which returns outs[k] and leaves rems[k]. */
  predicate Call(ins: seq<nat>, outs: seq<nat>, rems: seq<nat>, k: nat)
    requires k < |ins| == |outs| == |rems|
  {
    rems[k] < IN_RATE && IN_RATE * outs[k] + rems[k] == OUT_RATE * ins[k] + (if k == 0 then 0 else rems[k - 1])
  }

  predicate Calls(ins: seq<nat>, outs: seq<nat>, rems: seq<nat>) {
    |ins| == |outs| == |rems| && forall k :: 0 <= k < |ins| ==> Call(ins, outs, rems, k)
  }

  /** No sample is lost to rounding: the calls' total is the exact rate conversion, rounded down once. */
  lemma {:induction false} DiscardedTotal(ins: seq<nat>, outs: seq<nat>, rems: seq<nat>)
    requires Calls(ins, outs, rems)
    ensures IN_RATE * Sum(outs) + (if ins == [] then 0 else rems[|ins| - 1]) == OUT_RATE * Sum(ins)
    ensures Sum(outs) == Sum(ins) * 750 / 768
  {
    if ins != [] {
      var k := |ins| - 1;
      forall j | 0 <= j < k ensures Call(ins[..k], outs[..k], rems[..k], j) {
        assert Call(ins, outs, rems, j);
      }
      DiscardedTotal(ins[..k], outs[..k], rems[..k]);
      assert Call(ins, outs, rems, k);
      assert 768 * Sum(outs) <= 750 * Sum(ins) < 768 * (Sum(outs) + 1);
    }
  }

  // ---- The marker against an in-order server

  /** The gain of generation k, as an offset from the configured one. */
  function Marker(k: nat): nat { k % MARKER_STEPS }

  /** Retunes sent to the server, whose gain is wanted, and announced; the reader; the generations
      echoed by the last frame and the one before it. */
  datatype Spy = Spy(sent: nat, want: nat, gen: nat, reader: Reader, last: nat, beforeLast: nat)

  datatype Action = Send | Store | Announce | Frame(echo: nat, era: nat, loaded: nat)

  /** The server obeys settings in order and its frames echo the gain in force, so echoes never go
      back; a retune has taken hold two frames after its echo appears; and at most two older
      generations are still in the stream. `loaded` is the wanted generation the reader sees, which
      a retune in progress may step under it. */
  predicate Enabled(s: Spy, a: Action) {
    match a
    case Send => s.sent == s.gen
    case Store => s.sent == s.gen + 1 && s.want == s.gen
    case Announce => s.want == s.gen + 1
    case Frame(echo, era, loaded) =>
      s.last <= echo <= s.sent && s.beforeLast <= era <= s.sent && s.sent <= echo + 2
        && (loaded == s.want || loaded == s.sent)
  }

  function Do(s: Spy, a: Action): Spy {
    match a
    case Send => s.(sent := s.gen + 1)
    case Store => s.(want := s.sent)
    case Announce => s.(gen := s.want)
    case Frame(echo, _, loaded) =>
      s.(reader := OnFrame(s.reader, s.gen, Marker(loaded), Marker(echo)).0, last := echo, beforeLast := s.last)
  }

  predicate Inv(s: Spy) {
    && s.gen <= s.want <= s.sent <= s.gen + 1 && s.reader.gen <= s.gen && s.beforeLast <= s.last <= s.sent
    && s.reader.drop <= 1
    && (!s.reader.waiting && s.reader.drop == 1 ==> s.reader.gen <= s.last)
    && (!s.reader.waiting && s.reader.drop == 0 ==> s.reader.gen <= s.beforeLast)
  }

  const START: Spy := Spy(0, 0, 0, Reader(0, false, 0), 0, 0)

  ghost predicate Trace(ss: seq<Spy>, actions: seq<Action>) {
    && |ss| == |actions| + 1 && ss[0] == START
    && forall k :: 0 <= k < |actions| ==> Enabled(ss[k], actions[k]) && ss[k + 1] == Do(ss[k], actions[k])
  }

  lemma {:induction false} TraceInv(ss: seq<Spy>, actions: seq<Action>, k: nat)
    requires Trace(ss, actions) && k < |ss|
    ensures Inv(ss[k])
  {
    if k > 0 {
      TraceInv(ss, actions, k - 1);
      assert Enabled(ss[k - 1], actions[k - 1]) && ss[k] == Do(ss[k - 1], actions[k - 1]);
      if actions[k - 1].Frame? { EchoIsWanted(ss[k - 1], actions[k - 1].echo, actions[k - 1].loaded); }
    }
  }

  /** A matching gain is the wanted one: three steps tell apart everything still in the stream. */
  lemma EchoIsWanted(s: Spy, echo: nat, loaded: nat)
    requires s.gen <= s.want <= s.sent <= s.gen + 1 && (loaded == s.want || loaded == s.sent)
    requires echo <= s.sent <= echo + 2
    ensures Marker(echo) == Marker(loaded) <==> echo == loaded
  {}

  /** In every run, a frame passed under a generation was captured at that generation's center or a
      later one: what reaches the ring is honest about a settle of no samples at all. */
  lemma PassedIsHonest(ss: seq<Spy>, actions: seq<Action>, k: nat, n: nat, rig: Retune.Rig)
    requires Trace(ss, actions) && k < |actions| && actions[k].Frame?
    requires OnFrame(ss[k].reader, ss[k].gen, Marker(actions[k].loaded), Marker(actions[k].echo)).1.Passed?
    requires rig.gen == ss[k].gen && rig.busy == (ss[k].sent > ss[k].gen) && rig.lastTag <= ss[k].gen
    ensures ss[k].gen <= actions[k].era
    ensures Retune.Honest(rig, ss[k].gen, seq(n, _ => actions[k].era), 0)
  {
    TraceInv(ss, actions, k);
    assert Enabled(ss[k], actions[k]);
  }

  /** With g the wanted generation, a frame of generation t <= g is taken for the marker exactly when
      a multiple of three retunes lie between them: two older generations are told apart, three are not. */
  lemma MarkerAliases(g: nat, t: nat)
    requires t <= g
    ensures Marker(t) == Marker(g) <==> (g - t) % MARKER_STEPS == 0
    ensures g - t <= 2 ==> (Marker(t) == Marker(g) <==> t == g)
  {}

  /** So with three retunes in flight, old-center frames get through under the newest generation. */
  lemma ThreeInFlight(c: Reader)
    requires c.gen < 3
    ensures var c1 := OnFrame(c, 3, Marker(3), Marker(0)).0;
      var c2 := OnFrame(c1, 3, Marker(3), Marker(0)).0;
      OnFrame(c2, 3, Marker(3), Marker(0)).1.Passed?
  {}
}
