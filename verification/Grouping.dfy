/** Channel groups: cut the enabled channels, in frequency order, into the fewest windows the radio
    can hold, and among those into the ones that put fewest channels outside the flat passband. */
module Grouping {
  const CENTER_STEP_HZ: real := 5000.0

  datatype Channel = Channel(freq: real, enabled: bool, name: int)

  datatype Group = Group(centerHz: real, channels: seq<Channel>)

  predicate Sorted(ch: seq<Channel>) { forall i, j :: 0 <= i < j < |ch| ==> ch[i].freq <= ch[j].freq }

  // ---- The enabled channels, ascending by frequency

  /** Insertion before the first channel with a higher or equal frequency: a stable sort's step. */
  function Insert(c: Channel, ch: seq<Channel>): seq<Channel> {
    if ch == [] || c.freq <= ch[0].freq then [c] + ch else [ch[0]] + Insert(c, ch[1..])
  }

  lemma {:induction false} InsertKeeps(c: Channel, ch: seq<Channel>)
    ensures multiset(Insert(c, ch)) == multiset{c} + multiset(ch)
  {
    if ch != [] && c.freq > ch[0].freq {
      assert ch == [ch[0]] + ch[1..];
      InsertKeeps(c, ch[1..]);
    }
  }

  lemma {:induction false} InsertSorts(c: Channel, ch: seq<Channel>)
    requires Sorted(ch)
    ensures Sorted(Insert(c, ch)) && Insert(c, ch)[0].freq == if ch == [] || c.freq <= ch[0].freq then c.freq
      else ch[0].freq
  {
    if ch != [] && c.freq > ch[0].freq {
      InsertSorts(c, ch[1..]);
      var rest := Insert(c, ch[1..]);
      assert forall k :: 0 <= k < |rest| ==> rest[0].freq <= rest[k].freq;
      assert |ch| > 1 ==> ch[0].freq <= ch[1].freq;
    }
  }

  function SortedEnabled(ch: seq<Channel>): (r: seq<Channel>)
    ensures Sorted(r)
  {
    if ch == [] then []
    else if !ch[0].enabled then SortedEnabled(ch[1..])
    else
      InsertSorts(ch[0], SortedEnabled(ch[1..]));
      Insert(ch[0], SortedEnabled(ch[1..]))
  }

  /** Nothing enabled is lost or duplicated, nothing disabled gets in. */
  lemma {:induction false} SortedEnabledKeeps(ch: seq<Channel>, c: Channel)
    ensures multiset(SortedEnabled(ch))[c] == if c.enabled then multiset(ch)[c] else 0
  {
    if ch != [] {
      SortedEnabledKeeps(ch[1..], c);
      InsertKeeps(ch[0], SortedEnabled(ch[1..]));
      assert ch == [ch[0]] + ch[1..];
    }
  }

  // ---- Scoring a center

  /** How many of ch[i..j) lie below f; at or below f. */
  function Below(ch: seq<Channel>, i: nat, j: nat, f: real): nat
    requires i <= j <= |ch|
    decreases j
  {
    if i == j then 0 else Below(ch, i, j - 1, f) + (if ch[j - 1].freq < f then 1 else 0)
  }

  function AtMost(ch: seq<Channel>, i: nat, j: nat, f: real): nat
    requires i <= j <= |ch|
    decreases j
  {
    if i == j then 0 else AtMost(ch, i, j - 1, f) + (if ch[j - 1].freq <= f then 1 else 0)
  }

  function Abs(x: real): real { if x < 0.0 then -x else x }

  /** Linear counts: closer to c than d; farther from c than d; exactly at c. */
  function Near(ch: seq<Channel>, i: nat, j: nat, c: real, d: real): nat
    requires i <= j <= |ch|
    decreases j
  {
    if i == j then 0 else Near(ch, i, j - 1, c, d) + (if Abs(ch[j - 1].freq - c) < d then 1 else 0)
  }

  function Outside(ch: seq<Channel>, i: nat, j: nat, c: real, d: real): nat
    requires i <= j <= |ch|
    decreases j
  {
    if i == j then 0 else Outside(ch, i, j - 1, c, d) + (if Abs(ch[j - 1].freq - c) > d then 1 else 0)
  }

  function On(ch: seq<Channel>, i: nat, j: nat, c: real): nat
    requires i <= j <= |ch|
    decreases j
  {
    if i == j then 0 else On(ch, i, j - 1, c) + (if ch[j - 1].freq == c then 1 else 0)
  }

  /** The source's dc score: a difference of two searches. */
  function Dc(ch: seq<Channel>, i: nat, j: nat, c: real, clear: real): int
    requires i <= j <= |ch|
  {
    Below(ch, i, j, c + clear) - AtMost(ch, i, j, c - clear)
  }

  /** For a positive clearance the dc score counts the channels too close to the center; at zero it
      counts the channels exactly on it, negatively. */
  lemma {:induction false} DcCounts(ch: seq<Channel>, i: nat, j: nat, c: real, clear: real)
    requires i <= j <= |ch| && clear >= 0.0
    ensures clear > 0.0 ==> Dc(ch, i, j, c, clear) == Near(ch, i, j, c, clear)
    ensures clear == 0.0 ==> Dc(ch, i, j, c, clear) == 0 - On(ch, i, j, c) && Near(ch, i, j, c, clear) == 0
    decreases j
  {
    if i < j { DcCounts(ch, i, j - 1, c, clear); }
  }

  /** The dc score is the count of channels within the clearance exactly when the clearance is
      positive or no channel sits on the center. */
  lemma DcIsLinear(ch: seq<Channel>, i: nat, j: nat, c: real, clear: real)
    requires i <= j <= |ch| && clear >= 0.0
    ensures Dc(ch, i, j, c, clear) == Near(ch, i, j, c, clear) <==> clear > 0.0 || forall k :: i <= k < j ==>
      ch[k].freq != c
  {
    DcCounts(ch, i, j, c, clear);
    OnPositive(ch, i, j, c);
  }

  lemma {:induction false} OnPositive(ch: seq<Channel>, i: nat, j: nat, c: real)
    requires i <= j <= |ch|
    ensures On(ch, i, j, c) == 0 <==> forall k :: i <= k < j ==> ch[k].freq != c
    decreases j
  {
    if i < j { OnPositive(ch, i, j - 1, c); }
  }

  lemma {:induction false} EdgeCounts(ch: seq<Channel>, i: nat, j: nat, c: real, half: real)
    requires i <= j <= |ch| && half >= 0.0
    ensures Below(ch, i, j, c - half) + (j - i - AtMost(ch, i, j, c + half)) == Outside(ch, i, j, c, half)
    decreases j
  {
    if i < j { EdgeCounts(ch, i, j - 1, c, half); }
  }

  lemma {:induction false} SplitCounts(ch: seq<Channel>, i: nat, j: nat, a: nat, f: real)
    requires i <= a && i <= j <= |ch|
    requires forall k :: i <= k < j ==> (ch[k].freq < f <==> k < a)
    ensures Below(ch, i, j, f) == if a <= j then a - i else j - i
    decreases j
  {
    if i < j { SplitCounts(ch, i, j - 1, a, f); }
  }

  lemma {:induction false} SplitAtMost(ch: seq<Channel>, i: nat, j: nat, a: nat, f: real)
    requires i <= a && i <= j <= |ch|
    requires forall k :: i <= k < j ==> (ch[k].freq <= f <==> k < a)
    ensures AtMost(ch, i, j, f) == if a <= j then a - i else j - i
    decreases j
  {
    if i < j { SplitAtMost(ch, i, j - 1, a, f); }
  }

  /** Binary search: the first k in [i, j) with freq >= f. */
  method FirstAtLeast(ch: seq<Channel>, i: nat, j: nat, f: real) returns (a: nat)
    requires i <= j <= |ch| && Sorted(ch)
    ensures i <= a <= j && a - i == Below(ch, i, j, f)
    ensures forall k :: i <= k < j ==> (ch[k].freq < f <==> k < a)
  {
    a := i;
    var b := j;
    while a < b
      invariant i <= a <= b <= j
      invariant forall k :: i <= k < a ==> ch[k].freq < f
      invariant forall k :: b <= k < j ==> ch[k].freq >= f
    {
      var m := (a + b) / 2;
      if ch[m].freq < f { a := m + 1; } else { b := m; }
    }
    SplitCounts(ch, i, j, a, f);
  }

  /** Binary search: the first k in [i, j) with freq > f. */
  method FirstAbove(ch: seq<Channel>, i: nat, j: nat, f: real) returns (a: nat)
    requires i <= j <= |ch| && Sorted(ch)
    ensures i <= a <= j && a - i == AtMost(ch, i, j, f)
    ensures forall k :: i <= k < j ==> (ch[k].freq <= f <==> k < a)
  {
    a := i;
    var b := j;
    while a < b
      invariant i <= a <= b <= j
      invariant forall k :: i <= k < a ==> ch[k].freq <= f
      invariant forall k :: b <= k < j ==> ch[k].freq > f
    {
      var m := (a + b) / 2;
      if ch[m].freq <= f { a := m + 1; } else { b := m; }
    }
    SplitAtMost(ch, i, j, a, f);
  }

  datatype Score = Score(dc: int, edge: int)

  function ScoreOf(ch: seq<Channel>, i: nat, j: nat, c: real, flat: real, clear: real): Score
    requires i <= j <= |ch|
  {
    Score(Dc(ch, i, j, c, clear), Outside(ch, i, j, c, flat / 2.0))
  }

  method ScoreAt(ch: seq<Channel>, i: nat, j: nat, c: real, flat: real, clear: real) returns (s: Score)
    requires i <= j <= |ch| && Sorted(ch) && flat >= 0.0
    ensures s == ScoreOf(ch, i, j, c, flat, clear)
  {
    var dcHi := FirstAtLeast(ch, i, j, c + clear);
    var dcLo := FirstAbove(ch, i, j, c - clear);
    var edgeLo := FirstAtLeast(ch, i, j, c - flat / 2.0);
    var edgeHi := FirstAbove(ch, i, j, c + flat / 2.0);
    EdgeCounts(ch, i, j, c, flat / 2.0);
    s := Score((dcHi as int) - dcLo, (edgeLo as int - i) + (j as int - edgeHi));
  }

  // ---- Placing a center

  function Mid(ch: seq<Channel>, i: nat, j: nat): real
    requires i < j <= |ch|
  {
    (ch[i].freq + ch[j - 1].freq) / 2.0
  }

  /** c1 beats c2: fewer channels near the center, then fewer off the flat, then nearer the midpoint. */
  predicate Beats(ch: seq<Channel>, i: nat, j: nat, flat: real, clear: real, c1: real, c2: real)
    requires i < j <= |ch|
  {
    var s1, s2 := ScoreOf(ch, i, j, c1, flat, clear), ScoreOf(ch, i, j, c2, flat, clear);
    || s1.dc < s2.dc
    || (s1.dc == s2.dc && (s1.edge < s2.edge || (s1.edge == s2.edge
      && Abs(c1 - Mid(ch, i, j)) < Abs(c2 - Mid(ch, i, j)))))
  }

  function Grid(m: int): real { m as real * CENTER_STEP_HZ }

  /** The 5 kHz raster, as far as every member stays within half a window. */
  predicate OnRaster(ch: seq<Channel>, i: nat, j: nat, window: real, m: int)
    requires i < j <= |ch|
  {
    ch[j - 1].freq - window / 2.0 <= Grid(m) <= ch[i].freq + window / 2.0
  }

  function Ceil(x: real): (m: int)
    ensures (m - 1) as real < x <= m as real
  {
    -(-x).Floor
  }

  /** A center that keeps every member in the window. By the code's own score neither the midpoint nor any
      raster center beats it -- except that a midpoint which scores nothing is taken at once, and that can be
      beaten only when the clearance is zero. */
  ghost predicate CenterOk(ch: seq<Channel>, i: nat, j: nat, window: real, flat: real, clear: real, c: real)
    requires i < j <= |ch|
  {
    && (c == Mid(ch, i, j) || exists m :: OnRaster(ch, i, j, window, m) && c == Grid(m))
    && (forall k :: i <= k < j ==> Abs(ch[k].freq - c) <= window / 2.0)
    && (ScoreOf(ch, i, j, Mid(ch, i, j), flat, clear) == Score(0, 0) ==> c == Mid(ch, i, j))
    && (clear > 0.0 || ScoreOf(ch, i, j, Mid(ch, i, j), flat, clear) != Score(0, 0) ==>
          && !Beats(ch, i, j, flat, clear, Mid(ch, i, j), c)
          && forall m :: OnRaster(ch, i, j, window, m) ==> !Beats(ch, i, j, flat, clear, Grid(m), c))
  }

  method PlaceCenter(ch: seq<Channel>, i: nat, j: nat, window: real, flat: real, clear: real) returns (c: real)
    requires i < j <= |ch| && Sorted(ch) && flat >= 0.0 && clear >= 0.0
    requires ch[j - 1].freq - ch[i].freq <= window
    ensures CenterOk(ch, i, j, window, flat, clear, c)
  {
    hide ScoreOf;
    c := Mid(ch, i, j);
    var s := ScoreAt(ch, i, j, c, flat, clear);
    if s.dc == 0 && s.edge == 0 {
      ClearIsBest(ch, i, j, flat, clear);
      return;
    }
    var minC, maxC := ch[j - 1].freq - window / 2.0, ch[i].freq + window / 2.0;
    var m := Ceil(minC / CENTER_STEP_HZ);
    while Grid(m) <= maxC
      invariant Grid(m) >= minC
      invariant c == Mid(ch, i, j) || exists k :: OnRaster(ch, i, j, window, k) && c == Grid(k)
      invariant s == ScoreOf(ch, i, j, c, flat, clear)
      invariant !Beats(ch, i, j, flat, clear, Mid(ch, i, j), c)
      invariant forall k :: OnRaster(ch, i, j, window, k) && k < m ==> !Beats(ch, i, j, flat, clear, Grid(k), c)
      decreases Ceil(maxC / CENTER_STEP_HZ) - m
    {
      var t := ScoreAt(ch, i, j, Grid(m), flat, clear);
      var better := t.dc < s.dc || (t.dc == s.dc && (t.edge < s.edge
        || (t.edge == s.edge && Abs(Grid(m) - Mid(ch, i, j)) < Abs(c - Mid(ch, i, j)))));
      if better {
        BeatsChain(ch, i, j, flat, clear, Grid(m), c);
        assert OnRaster(ch, i, j, window, m);
        c, s := Grid(m), t;
      }
      m := m + 1;
    }
  }

  lemma BeatsChain(ch: seq<Channel>, i: nat, j: nat, flat: real, clear: real, c1: real, c2: real)
    requires i < j <= |ch| && Beats(ch, i, j, flat, clear, c1, c2)
    ensures forall c :: !Beats(ch, i, j, flat, clear, c, c2) ==> !Beats(ch, i, j, flat, clear, c, c1)
    ensures !Beats(ch, i, j, flat, clear, c1, c1)
  {}

  /** With a positive clearance, a midpoint that scores nothing cannot be beaten. */
  lemma ClearIsBest(ch: seq<Channel>, i: nat, j: nat, flat: real, clear: real)
    requires i < j <= |ch| && clear >= 0.0 && ScoreOf(ch, i, j, Mid(ch, i, j), flat, clear) == Score(0, 0)
    ensures clear > 0.0 ==> forall c :: !Beats(ch, i, j, flat, clear, c, Mid(ch, i, j))
  {
    if clear > 0.0 {
      forall c ensures !Beats(ch, i, j, flat, clear, c, Mid(ch, i, j)) { DcCounts(ch, i, j, c, clear); }
    }
  }

  /** At zero clearance the center beats a midpoint that scores nothing exactly if a channel sits on it: so
      that midpoint, taken at once, is by the code's own score not always the best. */
  lemma EarlyMidpoint(ch: seq<Channel>, i: nat, j: nat, flat: real, c: real)
    requires i < j <= |ch| && ScoreOf(ch, i, j, Mid(ch, i, j), flat, 0.0) == Score(0, 0)
    ensures Beats(ch, i, j, flat, 0.0, c, Mid(ch, i, j)) <==> exists k :: i <= k < j && ch[k].freq == c
  {
    DcCounts(ch, i, j, c, 0.0);
    OnPositive(ch, i, j, c);
  }

  // ---- The partition

  /** ch[i..j) fits one group: within the window and the lane count. */
  predicate Feasible(ch: seq<Channel>, i: nat, j: nat, window: real, maxPer: nat) {
    i < j <= |ch| && j - i <= maxPer && ch[j - 1].freq - ch[i].freq <= window
  }

  function EdgeAtMid(ch: seq<Channel>, i: nat, j: nat, flat: real): nat
    requires i < j <= |ch|
  {
    Outside(ch, i, j, Mid(ch, i, j), flat / 2.0)
  }

  datatype Cost = Cost(g: nat, edge: nat, from: int)

  predicate Cheaper(a: Cost, b: Cost) { a.g < b.g || (a.g == b.g && a.edge < b.edge) }

  /** The best cost of ch[..j) by the last group's start, scanned downwards from j - 1 to lo; a later
      candidate must be strictly cheaper. */
  function Scan(ch: seq<Channel>, j: nat, lo: nat, window: real, flat: real, maxPer: nat): (c: Cost)
    requires lo < j <= |ch| && maxPer >= 1 && window >= 0.0
    ensures lo <= c.from < j && Feasible(ch, c.from, j, window, maxPer)
    decreases j, 1, j - lo
  {
    if lo == j - 1 then Extend(ch, lo, j, window, flat, maxPer)
    else
      var best := Scan(ch, j, lo + 1, window, flat, maxPer);
      if Feasible(ch, lo, j, window, maxPer) && Cheaper(Extend(ch, lo, j, window, flat, maxPer), best) then
        Extend(ch, lo, j, window, flat, maxPer)
      else best
  }

  function Extend(ch: seq<Channel>, i: nat, j: nat, window: real, flat: real, maxPer: nat): Cost
    requires i < j <= |ch| && maxPer >= 1 && window >= 0.0
    decreases j, 0
  {
    var prev := Best(ch, i, window, flat, maxPer);
    Cost(prev.g + 1, prev.edge + EdgeAtMid(ch, i, j, flat), i)
  }

  function Best(ch: seq<Channel>, j: nat, window: real, flat: real, maxPer: nat): Cost
    requires j <= |ch| && maxPer >= 1 && window >= 0.0
    decreases j, 2
  {
    if j == 0 then Cost(0, 0, -1) else Scan(ch, j, 0, window, flat, maxPer)
  }

  /** Group k of a list of cut points. */
  predicate Rises(cuts: seq<nat>, k: nat, n: nat)
    requires k + 1 < |cuts|
  {
    cuts[k] < cuts[k + 1] <= n
  }

  predicate Ascending(cuts: seq<nat>, n: nat) { forall k: nat :: k + 1 < |cuts| ==> Rises(cuts, k, n) }

  predicate FitsAt(ch: seq<Channel>, cuts: seq<nat>, k: nat, window: real, maxPer: nat)
    requires k + 1 < |cuts|
  {
    Feasible(ch, cuts[k], cuts[k + 1], window, maxPer)
  }

  /** A partition is its cut points, from 0 to j. */
  predicate Partition(ch: seq<Channel>, cuts: seq<nat>, j: nat, window: real, maxPer: nat): (b: bool)
    ensures b ==> Ascending(cuts, |ch|)
  {
    && cuts != [] && cuts[0] == 0 && cuts[|cuts| - 1] == j
    && (forall k: nat :: k + 1 < |cuts| ==> FitsAt(ch, cuts, k, window, maxPer) && Rises(cuts, k, |ch|))
  }

  /** Adding or removing the last cut. */
  lemma LastCut(ch: seq<Channel>, cuts: seq<nat>, j: nat, window: real, maxPer: nat)
    requires |cuts| > 1 && cuts[|cuts| - 1] == j
    ensures Partition(ch, cuts, j, window, maxPer) <==>
      Partition(ch, cuts[..|cuts| - 1], cuts[|cuts| - 2], window, maxPer)
        && Feasible(ch, cuts[|cuts| - 2], j, window, maxPer)
  {
    var p, m := cuts[..|cuts| - 1], |cuts| - 2;
    assert forall k: nat :: k + 1 < |p| ==>
      FitsAt(ch, cuts, k, window, maxPer) == FitsAt(ch, p, k, window, maxPer)
      && Rises(cuts, k, |ch|) == Rises(p, k, |ch|);
    assert Partition(ch, cuts, j, window, maxPer) ==> FitsAt(ch, cuts, m, window, maxPer);
    forall k: nat | k + 1 < |cuts| && Partition(ch, p, cuts[m], window, maxPer)
      && Feasible(ch, cuts[m], j, window, maxPer)
      ensures FitsAt(ch, cuts, k, window, maxPer) && Rises(cuts, k, |ch|)
    {
      if k + 1 < |p| { assert FitsAt(ch, p, k, window, maxPer); }
    }
    forall k: nat | k + 1 < |p| && Partition(ch, cuts, j, window, maxPer)
      ensures FitsAt(ch, p, k, window, maxPer) && Rises(p, k, |ch|)
    {
      assert FitsAt(ch, cuts, k, window, maxPer);
    }
  }

  function EdgeSum(ch: seq<Channel>, cuts: seq<nat>, flat: real): nat
    requires Ascending(cuts, |ch|)
  {
    if |cuts| <= 1 then 0
    else
      var m := |cuts| - 1;
      assert Rises(cuts, m - 1, |ch|);
      assert forall k: nat :: k + 1 < m ==> Rises(cuts, k, |ch|) == Rises(cuts[..m], k, |ch|);
      EdgeSum(ch, cuts[..m], flat) + EdgeAtMid(ch, cuts[m - 1], cuts[m], flat)
  }

  function CostOf(ch: seq<Channel>, cuts: seq<nat>, flat: real): Cost
    requires cuts != [] && Ascending(cuts, |ch|)
  {
    Cost(|cuts| - 1, EdgeSum(ch, cuts, flat), -1)
  }

  /** The cuts that the `from` links lead through. */
  function Cuts(ch: seq<Channel>, j: nat, window: real, flat: real, maxPer: nat): (cuts: seq<nat>)
    requires j <= |ch| && maxPer >= 1 && window >= 0.0
    ensures Partition(ch, cuts, j, window, maxPer)
  {
    if j == 0 then [0]
    else
      var i := Best(ch, j, window, flat, maxPer).from;
      var cuts := Cuts(ch, i, window, flat, maxPer);
      assert (cuts + [j])[..|cuts|] == cuts;
      LastCut(ch, cuts + [j], j, window, maxPer);
      cuts + [j]
  }

  lemma {:induction false} CutsCost(ch: seq<Channel>, j: nat, window: real, flat: real, maxPer: nat)
    requires j <= |ch| && maxPer >= 1 && window >= 0.0
    ensures var best, cost := Best(ch, j, window, flat, maxPer), CostOf(ch, Cuts(ch, j, window, flat, maxPer), flat);
      best.g == cost.g && best.edge == cost.edge
  {
    if j > 0 {
      var i := Best(ch, j, window, flat, maxPer).from;
      CutsCost(ch, i, window, flat, maxPer);
      ScanIsExtend(ch, j, 0, window, flat, maxPer);
      var cuts := Cuts(ch, j, window, flat, maxPer);
      assert cuts[..|cuts| - 1] == Cuts(ch, i, window, flat, maxPer);
    }
  }

  lemma {:induction false} ScanIsExtend(ch: seq<Channel>, j: nat, lo: nat, window: real, flat: real, maxPer: nat)
    requires lo < j <= |ch| && maxPer >= 1 && window >= 0.0
    ensures var c := Scan(ch, j, lo, window, flat, maxPer); c == Extend(ch, c.from, j, window, flat, maxPer)
    decreases j - lo
  {
    if lo < j - 1 { ScanIsExtend(ch, j, lo + 1, window, flat, maxPer); }
  }

  /** No feasible last group is cheaper, and every later-starting one is strictly dearer or equal with
      this one kept: ties go to the latest start. */
  lemma {:induction false} ScanIsBest(ch: seq<Channel>, j: nat, lo: nat, window: real, flat: real, maxPer: nat, i: nat)
    requires lo <= i < j <= |ch| && maxPer >= 1 && window >= 0.0 && Feasible(ch, i, j, window, maxPer)
    ensures var c, e := Scan(ch, j, lo, window, flat, maxPer), Extend(ch, i, j, window, flat, maxPer);
      !Cheaper(e, c) && (c.from < i ==> Cheaper(c, e))
    decreases j - lo
  {
    if i > lo { ScanIsBest(ch, j, lo + 1, window, flat, maxPer, i); }
    else if lo < j - 1 { ScanIsExtend(ch, j, lo + 1, window, flat, maxPer); }
  }

  /** The dynamic program is optimal: no partition within window and lane count has fewer groups, or
      as few groups and fewer channels off the flat at their midpoints. */
  lemma {:induction false} BestIsOptimal(ch: seq<Channel>, cuts: seq<nat>, j: nat, window: real, flat: real,
      maxPer: nat)
    requires j <= |ch| && maxPer >= 1 && window >= 0.0 && Partition(ch, cuts, j, window, maxPer)
    ensures !Cheaper(CostOf(ch, cuts, flat), Best(ch, j, window, flat, maxPer))
    decreases |cuts|
  {
    if |cuts| > 1 {
      var m := |cuts| - 1;
      var i := cuts[m - 1];
      LastCut(ch, cuts, j, window, maxPer);
      BestIsOptimal(ch, cuts[..m], i, window, flat, maxPer);
      ScanIsBest(ch, j, 0, window, flat, maxPer, i);
    }
  }

  // ---- The dynamic program itself

  /** Earlier starts of an infeasible group are infeasible too, so the scan may stop there. */
  lemma {:induction false} ScanStops(ch: seq<Channel>, j: nat, i: nat, window: real, flat: real, maxPer: nat)
    requires Sorted(ch) && i < j - 1 && j <= |ch| && maxPer >= 1 && window >= 0.0
    requires !Feasible(ch, i, j, window, maxPer)
    ensures Scan(ch, j, 0, window, flat, maxPer) == Scan(ch, j, i + 1, window, flat, maxPer)
    decreases i
  {
    if i > 0 {
      assert ch[i - 1].freq <= ch[i].freq;
      ScanStops(ch, j, i - 1, window, flat, maxPer);
    }
  }

  /** best[j] for every j, filled left to right. */
  method FillBest(ch: seq<Channel>, window: real, flat: real, maxPer: nat) returns (best: array<Cost>)
    requires Sorted(ch) && maxPer >= 1 && window >= 0.0 && flat >= 0.0
    ensures fresh(best) && best.Length == |ch| + 1
    ensures forall j :: 0 <= j <= |ch| ==> best[j] == Best(ch, j, window, flat, maxPer)
  {
    var n := |ch|;
    best := new Cost[n + 1](_ => Cost(0, 0, -1));
    for j := 1 to n + 1
      invariant forall k :: 0 <= k < j ==> best[k] == Best(ch, k, window, flat, maxPer)
    {
      var cur := Cost(0, 0, -1);
      var i := j - 1;
      while i >= 0
        invariant -1 <= i < j
        invariant i == j - 1 || cur == Scan(ch, j, i + 1, window, flat, maxPer)
        invariant forall k :: 0 <= k < j ==> best[k] == Best(ch, k, window, flat, maxPer)
      {
        if j - i > maxPer || ch[j - 1].freq - ch[i].freq > window {
          ScanStops(ch, j, i, window, flat, maxPer);
          break;
        }
        var pick := ScoreAt(ch, i, j, Mid(ch, i, j), flat, 1.0);
        var cand := Cost(best[i].g + 1, best[i].edge + pick.edge, i);
        if i == j - 1 || Cheaper(cand, cur) { cur := cand; }
        i := i - 1;
      }
      best[j] := cur;
    }
  }

  ghost predicate GroupFits(g: Group, ch: seq<Channel>, cuts: seq<nat>, k: nat, window: real, flat: real, clear: real)
    requires k + 1 < |cuts|
  {
    && Rises(cuts, k, |ch|)
    && g.channels == ch[cuts[k]..cuts[k + 1]]
    && CenterOk(ch, cuts[k], cuts[k + 1], window, flat, clear, g.centerHz)
  }

  ghost predicate GroupsFit(groups: seq<Group>, ch: seq<Channel>, cuts: seq<nat>, window: real, flat: real,
      clear: real) {
    && |groups| + 1 == |cuts|
    && forall k :: 0 <= k < |groups| ==> GroupFits(groups[k], ch, cuts, k, window, flat, clear)
  }

  lemma NoGroups(ch: seq<Channel>, j: nat, window: real, flat: real, clear: real)
    ensures GroupsFit([], ch, [j], window, flat, clear)
  {}

  lemma GroupsFitCons(groups: seq<Group>, g: Group, ch: seq<Channel>, tail: seq<nat>, i: nat, window: real,
      flat: real, clear: real)
    requires tail != [] && GroupsFit(groups, ch, tail, window, flat, clear) && i < tail[0] <= |ch|
    requires g.channels == ch[i..tail[0]] && CenterOk(ch, i, tail[0], window, flat, clear, g.centerHz)
    ensures GroupsFit([g] + groups, ch, [i] + tail, window, flat, clear)
  {
    hide CenterOk;
    forall k | 0 <= k <= |groups| ensures GroupFits(([g] + groups)[k], ch, [i] + tail, k, window, flat, clear) {
      if k > 0 { assert GroupFits(groups[k - 1], ch, tail, k - 1, window, flat, clear); }
    }
  }

  /** groupChannels. `maxPer` is the helper's lane count; the flat passband is never wider than the window. */
  method GroupChannels(channels: seq<Channel>, window: real, maxPer: nat, flatHz: real, clear: real)
      returns (groups: seq<Group>)
    requires maxPer >= 1 && window >= 0.0 && flatHz >= 0.0 && clear >= 0.0
    ensures var ch, flat := SortedEnabled(channels), if flatHz < window then flatHz else window;
      var cuts := Cuts(ch, |ch|, window, flat, maxPer);
      GroupsFit(groups, ch, cuts, window, flat, clear)
  {
    hide CenterOk, GroupsFit, Scan, Sorted;
    var ch := SortedEnabled(channels);
    var flat := if flatHz < window then flatHz else window;
    var best := FillBest(ch, window, flat, maxPer);
    groups := [];
    var j := |ch|;
    ghost var all := Cuts(ch, |ch|, window, flat, maxPer);
    NoGroups(ch, j, window, flat, clear);
    ghost var tail: seq<nat> := [j];
    while j > 0
      invariant 0 <= j <= |ch| && tail != [] && tail[0] == j
      invariant forall k :: 0 <= k <= |ch| ==> best[k] == Best(ch, k, window, flat, maxPer)
      invariant Cuts(ch, j, window, flat, maxPer) + tail[1..] == all
      invariant GroupsFit(groups, ch, tail, window, flat, clear)
    {
      var i := best[j].from;
      var c := PlaceCenter(ch, i, j, window, flat, clear);
      GroupsFitCons(groups, Group(c, ch[i..j]), ch, tail, i, window, flat, clear);
      groups := [Group(c, ch[i..j])] + groups;
      assert Cuts(ch, i, window, flat, maxPer) + [j] + tail[1..] == Cuts(ch, i, window, flat, maxPer) + tail;
      tail := [i] + tail;
      j := i;
    }
    assert [0] + tail[1..] == tail;
  }

  /** Fewest groups, then fewest channels off the flat, over every way to cut the channels. */
  lemma FewestGroupsThenEdges(ch: seq<Channel>, cuts: seq<nat>, window: real, flat: real, maxPer: nat)
    requires maxPer >= 1 && window >= 0.0 && Partition(ch, cuts, |ch|, window, maxPer)
    ensures var chosen := Cuts(ch, |ch|, window, flat, maxPer);
      |chosen| < |cuts| || (|chosen| == |cuts| && EdgeSum(ch, chosen, flat) <= EdgeSum(ch, cuts, flat))
  {
    BestIsOptimal(ch, cuts, |ch|, window, flat, maxPer);
    CutsCost(ch, |ch|, window, flat, maxPer);
  }

  /** Channel k, in the group [i, j), is farther than half the flat passband from the middle of the group's
      lowest and highest frequencies. */
  predicate OffFlat(ch: seq<Channel>, i: nat, j: nat, flat: real, k: nat)
    requires i <= k < j <= |ch|
  {
    var lo, hi := ch[i].freq, ch[j - 1].freq;
    2.0 * ch[k].freq - (lo + hi) > flat || (lo + hi) - 2.0 * ch[k].freq > flat
  }

  predicate Away(f: real, c: real, d: real) { f - c > d || c - f > d }

  lemma OutsideLast(ch: seq<Channel>, i: nat, j: nat, c: real, d: real)
    requires i < j <= |ch|
    ensures Outside(ch, i, j, c, d) == Outside(ch, i, j - 1, c, d) + if Away(ch[j - 1].freq, c, d) then 1 else 0
  {}

  lemma {:induction false} OutsideIsSet(ch: seq<Channel>, i: nat, j: nat, c: real, d: real)
    requires i <= j <= |ch|
    ensures Outside(ch, i, j, c, d) == |set k | i <= k < j && Away(ch[k].freq, c, d)|
    decreases j
  {
    if i < j {
      OutsideIsSet(ch, i, j - 1, c, d);
      OutsideLast(ch, i, j, c, d);
      hide Away, Outside;
      var now, before := set k | i <= k < j && Away(ch[k].freq, c, d), set k | i <= k < j - 1 && Away(ch[k].freq, c, d);
      assert now == if Away(ch[j - 1].freq, c, d) then before + {j - 1} else before;
    }
  }

  /** What the optimum counts: a group's channels off the flat. */
  lemma EdgeCountsOff(ch: seq<Channel>, i: nat, j: nat, flat: real)
    requires i < j <= |ch|
    ensures EdgeAtMid(ch, i, j, flat) == |set k: nat | i <= k < j && OffFlat(ch, i, j, flat, k)|
  {
    var c, d := Mid(ch, i, j), flat / 2.0;
    OutsideIsSet(ch, i, j, c, d);
    var a, b := set k | i <= k < j && Away(ch[k].freq, c, d),
      set k: nat | i <= k < j && OffFlat(ch, i, j, flat, k);
    forall k: nat | i <= k < j ensures k in a <==> k in b {
      assert 2.0 * c == ch[i].freq + ch[j - 1].freq && 2.0 * d == flat;
    }
    assert a == b;
  }

  ghost predicate OffIn(ch: seq<Channel>, cuts: seq<nat>, flat: real, g: nat, k: nat) {
    g + 1 < |cuts| && cuts[g] <= k < cuts[g + 1] <= |ch| && OffFlat(ch, cuts[g], cuts[g + 1], flat, k)
  }

  /** The channels off the flat of the group they are in. */
  ghost function OffChannels(ch: seq<Channel>, cuts: seq<nat>, flat: real): set<nat> {
    set k: nat | k < |ch| && OffSome(ch, cuts, flat, k)
  }

  ghost predicate OffSome(ch: seq<Channel>, cuts: seq<nat>, flat: real, k: nat) {
    exists g: nat :: OffIn(ch, cuts, flat, g, k)
  }

  lemma OffLast(ch: seq<Channel>, cuts: seq<nat>, flat: real, k: nat)
    requires Ascending(cuts, |ch|) && |cuts| > 1
    ensures var m := |cuts| - 1;
      k in OffChannels(ch, cuts, flat) <==> k in OffChannels(ch, cuts[..m], flat) || OffIn(ch, cuts, flat, m - 1, k)
    ensures k in OffChannels(ch, cuts[..|cuts| - 1], flat) ==> k < cuts[|cuts| - 2]
  {
    var m := |cuts| - 1;
    var less := cuts[..m];
    assert Rises(cuts, m - 1, |ch|);
    forall g: nat ensures OffIn(ch, less, flat, g, k) <==> g + 1 < m && OffIn(ch, cuts, flat, g, k) {}
    if g: nat :| OffIn(ch, less, flat, g, k) { CutsRise(ch, cuts, g + 1, m - 1); }
    assert OffIn(ch, cuts, flat, m - 1, k) ==> k < |ch|;
  }

  lemma {:induction false} CutsRise(ch: seq<Channel>, cuts: seq<nat>, a: nat, b: nat)
    requires Ascending(cuts, |ch|) && a <= b < |cuts|
    ensures cuts[a] <= cuts[b]
  {
    if a < b {
      CutsRise(ch, cuts, a, b - 1);
      assert Rises(cuts, b - 1, |ch|);
    }
  }

  /** And the sum over a partition counts every channel off its own group's flat, once. */
  lemma {:induction false} EdgeSumCountsOff(ch: seq<Channel>, cuts: seq<nat>, flat: real)
    requires Ascending(cuts, |ch|) && cuts != []
    ensures EdgeSum(ch, cuts, flat) == |OffChannels(ch, cuts, flat)|
    decreases |cuts|
  {
    if |cuts| == 1 {
      assert forall g: nat, k: nat :: !OffIn(ch, cuts, flat, g, k);
      assert OffChannels(ch, cuts, flat) == {};
    } else {
      var m := |cuts| - 1;
      var lo, hi := cuts[m - 1], cuts[m];
      assert Rises(cuts, m - 1, |ch|);
      ShorterAscends(ch, cuts);
      EdgeSumCountsOff(ch, cuts[..m], flat);
      EdgeCountsOff(ch, lo, hi, flat);
      var all, rest := OffChannels(ch, cuts, flat), OffChannels(ch, cuts[..m], flat);
      var last := set k: nat | lo <= k < hi && OffFlat(ch, lo, hi, flat, k);
      forall k: nat ensures (k in all <==> k in rest || k in last) && (k in rest ==> k < lo) {
        OffLast(ch, cuts, flat, k);
      }
      assert all == rest + last && rest !! last;
    }
  }

  lemma ShorterAscends(ch: seq<Channel>, cuts: seq<nat>)
    requires Ascending(cuts, |ch|) && cuts != []
    ensures Ascending(cuts[..|cuts| - 1], |ch|)
  {
    var less := cuts[..|cuts| - 1];
    forall k: nat | k + 1 < |less| ensures Rises(less, k, |ch|) { assert Rises(cuts, k, |ch|); }
  }

  /** The channels of all groups, group by group. */
  function AllChannels(groups: seq<Group>): seq<Channel> {
    if groups == [] then [] else AllChannels(groups[..|groups| - 1]) + groups[|groups| - 1].channels
  }

  /** What the radio gets: every enabled channel once, in frequency order, in groups of at most maxPer that a
      window around their center holds. */
  lemma {:induction false} GroupsServe(groups: seq<Group>, ch: seq<Channel>, cuts: seq<nat>, window: real, flat: real,
      clear: real, maxPer: nat)
    requires cuts != [] && Partition(ch, cuts, cuts[|cuts| - 1], window, maxPer)
    requires GroupsFit(groups, ch, cuts, window, flat, clear)
    ensures cuts[|cuts| - 1] <= |ch| && AllChannels(groups) == ch[..cuts[|cuts| - 1]]
    ensures forall g :: 0 <= g < |groups| ==>
      && 0 < |groups[g].channels| <= maxPer
      && forall c :: c in groups[g].channels ==>
        groups[g].centerHz - window / 2.0 <= c.freq <= groups[g].centerHz + window / 2.0
  {
    if groups != [] {
      var m := |groups| - 1;
      hide CenterOk;
      assert GroupFits(groups[m], ch, cuts, m, window, flat, clear) && FitsAt(ch, cuts, m, window, maxPer);
      LastCut(ch, cuts, cuts[m + 1], window, maxPer);
      ShorterFit(groups, ch, cuts, window, flat, clear);
      GroupsServe(groups[..m], ch, cuts[..m + 1], window, flat, clear, maxPer);
      InWindow(ch, cuts[m], cuts[m + 1], window, flat, clear, groups[m].centerHz);
      assert ch[..cuts[m]] + ch[cuts[m]..cuts[m + 1]] == ch[..cuts[m + 1]];
    } else {
      assert cuts == [0] && ch[..0] == [];
    }
  }

  lemma ShorterFit(groups: seq<Group>, ch: seq<Channel>, cuts: seq<nat>, window: real, flat: real, clear: real)
    requires groups != [] && GroupsFit(groups, ch, cuts, window, flat, clear)
    ensures GroupsFit(groups[..|groups| - 1], ch, cuts[..|groups|], window, flat, clear)
  {
    hide CenterOk;
    var m := |groups| - 1;
    forall k | 0 <= k < m ensures GroupFits(groups[..m][k], ch, cuts[..m + 1], k, window, flat, clear) {
      assert GroupFits(groups[k], ch, cuts, k, window, flat, clear);
    }
  }

  lemma InWindow(ch: seq<Channel>, i: nat, j: nat, window: real, flat: real, clear: real, c: real)
    requires i < j <= |ch| && CenterOk(ch, i, j, window, flat, clear, c)
    ensures forall x :: x in ch[i..j] ==> c - window / 2.0 <= x.freq <= c + window / 2.0
  {
    hide ScoreOf;
    forall x | x in ch[i..j] ensures c - window / 2.0 <= x.freq <= c + window / 2.0 {
      var k :| 0 <= k < j - i && ch[i..j][k] == x;
      assert Abs(ch[i + k].freq - c) <= window / 2.0;
    }
  }

  // ---- The greedy split

  /** The farthest end of a group starting at i, at least j. */
  function FarthestEnd(ch: seq<Channel>, i: nat, j: nat, window: real, maxPer: nat): (e: nat)
    requires Sorted(ch) && i < j <= |ch| && Feasible(ch, i, j, window, maxPer)
    ensures j <= e <= |ch| && Feasible(ch, i, e, window, maxPer)
    ensures e < |ch| ==> !Feasible(ch, i, e + 1, window, maxPer)
    decreases |ch| - j
  {
    if j < |ch| && Feasible(ch, i, j + 1, window, maxPer) then FarthestEnd(ch, i, j + 1, window, maxPer) else j
  }

  /** Where the t-th greedy group ends: each group takes as many channels as fit. */
  function Reach(ch: seq<Channel>, t: nat, window: real, maxPer: nat): (e: nat)
    requires Sorted(ch) && maxPer >= 1 && window >= 0.0
    ensures e <= |ch|
  {
    if t == 0 then 0
    else
      var i := Reach(ch, t - 1, window, maxPer);
      if i == |ch| then i else FarthestEnd(ch, i, i + 1, window, maxPer)
  }

  /** The greedy cut points up to the t-th group. */
  function GreedyCuts(ch: seq<Channel>, t: nat, window: real, maxPer: nat): seq<nat>
    requires Sorted(ch) && maxPer >= 1 && window >= 0.0
  {
    if t == 0 then [0] else GreedyCuts(ch, t - 1, window, maxPer) + [Reach(ch, t, window, maxPer)]
  }

  /** No partition into t groups gets past the t-th greedy group. */
  lemma {:induction false} GreedyReachesFarthest(ch: seq<Channel>, cuts: seq<nat>, j: nat, window: real, maxPer: nat)
    requires Sorted(ch) && maxPer >= 1 && window >= 0.0 && Partition(ch, cuts, j, window, maxPer)
    ensures j <= Reach(ch, |cuts| - 1, window, maxPer)
    decreases |cuts|
  {
    if |cuts| > 1 {
      var m := |cuts| - 1;
      LastCut(ch, cuts, j, window, maxPer);
      GreedyReachesFarthest(ch, cuts[..m], cuts[m - 1], window, maxPer);
      var i := Reach(ch, m - 1, window, maxPer);
      if i < j { Narrower(ch, cuts[m - 1], i, j, FarthestEnd(ch, i, i + 1, window, maxPer), window, maxPer); }
    }
  }

  /** A group cut down from the left stays feasible, so greedy from there gets at least as far. */
  lemma Narrower(ch: seq<Channel>, i0: nat, i: nat, j: nat, e: nat, window: real, maxPer: nat)
    requires Sorted(ch) && i0 <= i < j && Feasible(ch, i0, j, window, maxPer)
    requires i < e <= |ch| && (e < |ch| ==> !Feasible(ch, i, e + 1, window, maxPer))
    ensures j <= e
  {}

  predicate NoneOffFlat(ch: seq<Channel>, window: real, flat: real, maxPer: nat) {
    forall i, j :: 0 <= i < j <= |ch| && Feasible(ch, i, j, window, maxPer) ==> EdgeAtMid(ch, i, j, flat) == 0
  }

  lemma {:induction false} BestHasNoEdge(ch: seq<Channel>, j: nat, window: real, flat: real, maxPer: nat)
    requires j <= |ch| && maxPer >= 1 && window >= 0.0 && NoneOffFlat(ch, window, flat, maxPer)
    ensures Best(ch, j, window, flat, maxPer).edge == 0
  {
    if j > 0 {
      ScanIsExtend(ch, j, 0, window, flat, maxPer);
      BestHasNoEdge(ch, Best(ch, j, window, flat, maxPer).from, window, flat, maxPer);
    }
  }

  /** The fewest groups for ch[..j) reach j greedily, too. */
  lemma BestReaches(ch: seq<Channel>, j: nat, window: real, flat: real, maxPer: nat)
    requires Sorted(ch) && j <= |ch| && maxPer >= 1 && window >= 0.0
    ensures j <= Reach(ch, Best(ch, j, window, flat, maxPer).g, window, maxPer)
  {
    CutsCost(ch, j, window, flat, maxPer);
    GreedyReachesFarthest(ch, Cuts(ch, j, window, flat, maxPer), j, window, maxPer);
  }

  lemma GreedyGroupIsFlat(ch: seq<Channel>, t: nat, window: real, flat: real, maxPer: nat)
    requires Sorted(ch) && maxPer >= 1 && window >= 0.0 && NoneOffFlat(ch, window, flat, maxPer)
    requires t > 0 && Reach(ch, t - 1, window, maxPer) < |ch|
    ensures var i, j := Reach(ch, t - 1, window, maxPer), Reach(ch, t, window, maxPer);
      i < j && Feasible(ch, i, j, window, maxPer) && EdgeAtMid(ch, i, j, flat) == 0
  {
    hide EdgeAtMid, Sorted;
  }

  /** When the passband never bites, the last group starts where the last greedy group does. */
  lemma LastGreedyStart(ch: seq<Channel>, t: nat, window: real, flat: real, maxPer: nat)
    requires Sorted(ch) && maxPer >= 1 && window >= 0.0 && NoneOffFlat(ch, window, flat, maxPer)
    requires t > 0 && Reach(ch, t - 1, window, maxPer) < |ch|
    requires Best(ch, Reach(ch, t - 1, window, maxPer), window, flat, maxPer).g == t - 1
    ensures var best := Best(ch, Reach(ch, t, window, maxPer), window, flat, maxPer);
      best.from == Reach(ch, t - 1, window, maxPer) && best.g == t
  {
    hide Scan, Best, NoneOffFlat, EdgeAtMid, Sorted, Feasible, Reach, Extend;
    var i, j := Reach(ch, t - 1, window, maxPer), Reach(ch, t, window, maxPer);
    GreedyGroupIsFlat(ch, t, window, flat, maxPer);
    BestIsExtend(ch, j, i, window, flat, maxPer);
    BestHasNoEdge(ch, i, window, flat, maxPer);
    BestHasNoEdge(ch, j, window, flat, maxPer);
    ReachNeeds(ch, j, t - 1, window, flat, maxPer);
    if Best(ch, j, window, flat, maxPer).from > i {
      ReachNeeds(ch, Best(ch, j, window, flat, maxPer).from, t - 1, window, flat, maxPer);
    }
  }

  /** What lies past the t-th greedy group takes more than t groups. */
  lemma ReachNeeds(ch: seq<Channel>, j: nat, t: nat, window: real, flat: real, maxPer: nat)
    requires Sorted(ch) && maxPer >= 1 && window >= 0.0 && Reach(ch, t, window, maxPer) < j <= |ch|
    ensures Best(ch, j, window, flat, maxPer).g > t
  {
    hide Best, Reach;
    BestReaches(ch, j, window, flat, maxPer);
    ReachMonotone(ch, Best(ch, j, window, flat, maxPer).g, t, window, maxPer);
  }

  lemma BestIsExtend(ch: seq<Channel>, j: nat, i: nat, window: real, flat: real, maxPer: nat)
    requires i < j <= |ch| && maxPer >= 1 && window >= 0.0 && Feasible(ch, i, j, window, maxPer)
    ensures var best, prev := Best(ch, j, window, flat, maxPer), Best(ch, i, window, flat, maxPer);
      var e := Cost(prev.g + 1, prev.edge + EdgeAtMid(ch, i, j, flat), i);
      && 0 <= best.from < j && best.g == Best(ch, best.from, window, flat, maxPer).g + 1
      && !Cheaper(e, best) && (best.from < i ==> Cheaper(best, e))
  {
    ScanIsExtend(ch, j, 0, window, flat, maxPer);
    ScanIsBest(ch, j, 0, window, flat, maxPer, i);
    hide Scan, EdgeAtMid, Feasible;
  }

  /** When the passband never bites, the dynamic program is the greedy split. */
  lemma {:induction false} GreedyWhenFlat(ch: seq<Channel>, t: nat, window: real, flat: real, maxPer: nat)
    requires Sorted(ch) && maxPer >= 1 && window >= 0.0 && NoneOffFlat(ch, window, flat, maxPer)
    requires t == 0 || Reach(ch, t - 1, window, maxPer) < |ch|
    ensures var j := Reach(ch, t, window, maxPer);
      Cuts(ch, j, window, flat, maxPer) == GreedyCuts(ch, t, window, maxPer) && Best(ch, j, window, flat, maxPer).g == t
  {
    hide Scan, NoneOffFlat, Sorted;
    if t > 0 {
      if t > 1 { ReachGrows(ch, t - 2, window, maxPer); }
      GreedyWhenFlat(ch, t - 1, window, flat, maxPer);
      LastGreedyStart(ch, t, window, flat, maxPer);
    }
  }

  /** For the whole list: some number of greedy groups takes it all, and those are the groups chosen. */
  lemma GreedyWhole(ch: seq<Channel>, window: real, flat: real, maxPer: nat) returns (t: nat)
    requires Sorted(ch) && maxPer >= 1 && window >= 0.0 && NoneOffFlat(ch, window, flat, maxPer)
    ensures Reach(ch, t, window, maxPer) == |ch| && Best(ch, |ch|, window, flat, maxPer).g == t
    ensures Cuts(ch, |ch|, window, flat, maxPer) == GreedyCuts(ch, t, window, maxPer)
  {
    hide Best, Cuts, GreedyCuts, NoneOffFlat, Sorted;
    t := 0;
    while Reach(ch, t, window, maxPer) < |ch|
      invariant t > 0 ==> Reach(ch, t - 1, window, maxPer) < |ch|
      invariant Reach(ch, t, window, maxPer) <= |ch|
      decreases |ch| - Reach(ch, t, window, maxPer)
    {
      ReachGrows(ch, t, window, maxPer);
      t := t + 1;
    }
    GreedyWhenFlat(ch, t, window, flat, maxPer);
  }

  lemma ReachGrows(ch: seq<Channel>, t: nat, window: real, maxPer: nat)
    requires Sorted(ch) && maxPer >= 1 && window >= 0.0
    ensures Reach(ch, t, window, maxPer) < |ch| ==> Reach(ch, t, window, maxPer) < Reach(ch, t + 1, window, maxPer)
    ensures Reach(ch, t, window, maxPer) <= Reach(ch, t + 1, window, maxPer)
  {}

  lemma {:induction false} ReachMonotone(ch: seq<Channel>, a: nat, b: nat, window: real, maxPer: nat)
    requires Sorted(ch) && maxPer >= 1 && window >= 0.0
    ensures a <= b ==> Reach(ch, a, window, maxPer) <= Reach(ch, b, window, maxPer)
  {
    hide *;
    if a < b {
      ReachMonotone(ch, a, b - 1, window, maxPer);
      ReachGrows(ch, b - 1, window, maxPer);
    }
  }
}
