/** Service families by frequency, and the ranges in which a Close Call may take the speaker. The
    allocation table is a parameter: the first entry that contains a frequency wins. */
module Family {
  import opened Options
  import Squelch = SquelchSpec

  datatype Allocation = Allocation(lo: int, hi: int, svc: string)

  datatype Kind = Air | Rail | Ham | Gmrs | Biz | Marine | Weather | PublicSafety | Unknown

  const MAX_HZ: int := 6_000_000_000

  predicate Within(a: Allocation, f: int) { a.lo <= f <= a.hi }

  function ServiceFor(table: seq<Allocation>, f: int): Option<string> {
    if table == [] then None else if Within(table[0], f) then Some(table[0].svc) else ServiceFor(table[1..], f)
  }

  predicate StartsWith(s: string, p: string) { p <= s }

  predicate Includes(s: string, p: string)
    decreases |s|
  {
    StartsWith(s, p) || (s != "" && Includes(s[1..], p))
  }

  function FamilyForService(svc: Option<string>): Kind {
    if svc.None? then Unknown
    else
      var s := svc.value;
      if s == "air" then Air
      else if s == "rail" then Rail
      else if StartsWith(s, "ham") then Ham
      else if s == "GMRS/FRS" then Gmrs
      else if s == "marine" then Marine
      else if s == "NOAA wx" then Weather
      else if s == "700 PS" || Includes(s, "trunked") then PublicSafety
      else if Includes(s, "biz") || s == "T-band" then Biz
      else Unknown
  }

  /** The first entry that contains a frequency gives its service, and only a frequency in none has none. */
  lemma {:induction false} FirstAllocation(table: seq<Allocation>, f: int, k: nat)
    requires k <= |table| && forall j :: 0 <= j < k ==> !(table[j].lo <= f <= table[j].hi)
    ensures k < |table| && table[k].lo <= f <= table[k].hi ==> ServiceFor(table, f) == Some(table[k].svc)
    ensures k == |table| ==> ServiceFor(table, f) == None
  {
    if k > 0 {
      assert forall j :: 0 <= j < k - 1 ==> table[1..][j] == table[j + 1];
      FirstAllocation(table[1..], f, k - 1);
    }
  }

  lemma {:induction false} IncludesIff(s: string, p: string)
    ensures Includes(s, p) <==> exists i :: 0 <= i <= |s| && p <= s[i..]
  {
    if s != "" { IncludesIff(s[1..], p); }
    if Includes(s, p) {
      if StartsWith(s, p) {
        assert s[0..] == s;
      } else {
        var i :| 0 <= i <= |s[1..]| && p <= s[1..][i..];
        assert s[1..][i..] == s[i + 1..];
      }
    }
    if i :| 0 <= i <= |s| && p <= s[i..] {
      if i == 0 { assert s[0..] == s; } else { assert s[1..][i - 1..] == s[i..]; }
    }
  }

  predicate Listed(table: seq<Allocation>, families: set<Kind>, f: int) {
    var fam := FamilyForService(ServiceFor(table, f));
    fam == Weather || fam in families
  }

  // ---- Edges

  predicate IsEdge(table: seq<Allocation>, e: int) {
    e == 0 || e == MAX_HZ + 1 || exists k :: 0 <= k < |table| && (e == table[k].lo || e == table[k].hi + 1)
  }

  predicate Increasing(s: seq<int>) { forall i, j :: 0 <= i < j < |s| ==> s[i] < s[j] }

  /** Adds an edge unless it is there. */
  function Insert(s: seq<int>, e: int): (t: seq<int>)
    requires Increasing(s)
    ensures Increasing(t) && forall x :: x in t <==> x in s || x == e
  {
    if s == [] then [e]
    else if e < s[0] then [e] + s
    else if e == s[0] then s
    else
      var t := [s[0]] + Insert(s[1..], e);
      assert forall x :: x in s <==> x == s[0] || x in s[1..];
      assert forall j :: 0 < j < |t| ==> t[j] in Insert(s[1..], e);
      t
  }

  /** The sorted edges of the table. */
  method Edges(table: seq<Allocation>) returns (pts: seq<int>)
    ensures Increasing(pts) && |pts| >= 2 && forall e :: e in pts <==> IsEdge(table, e)
  {
    pts := Insert(Insert([], 0), MAX_HZ + 1);
    for k := 0 to |table|
      invariant Increasing(pts) && forall e :: e in pts <==> IsEdge(table[..k], e)
    {
      pts := Insert(Insert(pts, table[k].lo), table[k].hi + 1);
      forall e ensures IsEdge(table[..k + 1], e) <==>
        IsEdge(table[..k], e) || e == table[k].lo
        || e == table[k].hi + 1 {
        MoreEdges(table, k, e);
      }
    }
    assert table[..|table|] == table;
    assert 0 in pts && MAX_HZ + 1 in pts;
  }

  lemma MoreEdges(table: seq<Allocation>, k: nat, e: int)
    requires k < |table|
    ensures IsEdge(table[..k + 1], e) <==> IsEdge(table[..k], e) || e == table[k].lo || e == table[k].hi + 1
  {
    var less, more := table[..k], table[..k + 1];
    assert more[k] == table[k];
    if j :| 0 <= j < |less| && (e == less[j].lo || e == less[j].hi + 1) { assert more[j] == less[j]; }
    if j :| 0 <= j < |more| && (e == more[j].lo || e == more[j].hi + 1) { assert j < k ==> less[j] == more[j]; }
  }

  /** Between two edges nothing changes. */
  lemma {:induction false} SameService(table: seq<Allocation>, lo: int, f: int)
    requires lo <= f && forall k :: 0 <= k < |table| ==> !(lo < table[k].lo <= f) && !(lo < table[k].hi + 1 <= f)
    ensures ServiceFor(table, f) == ServiceFor(table, lo)
  {
    if table != [] {
      assert Within(table[0], f) == Within(table[0], lo);
      SameService(table[1..], lo, f);
    }
  }

  lemma SameInside(table: seq<Allocation>, families: set<Kind>, pts: seq<int>, i: nat, f: int)
    requires Increasing(pts) && (forall e :: e in pts <==> IsEdge(table, e)) && i + 1 < |pts|
      && pts[i] <= f < pts[i + 1]
    ensures Listed(table, families, f) == Listed(table, families, pts[i])
  {
    forall k | 0 <= k < |table| ensures !(pts[i] < table[k].lo <= f) && !(pts[i] < table[k].hi + 1 <= f) {
      NoneBetween(pts, i, f, table[k].lo);
      NoneBetween(pts, i, f, table[k].hi + 1);
      assert IsEdge(table, table[k].lo) && IsEdge(table, table[k].hi + 1);
    }
    SameService(table, pts[i], f);
  }

  lemma NoneBetween(pts: seq<int>, i: nat, f: int, e: int)
    requires Increasing(pts) && i + 1 < |pts| && pts[i] <= f < pts[i + 1]
    ensures e in pts ==> !(pts[i] < e <= f)
  {
    if e in pts {
      var j :| 0 <= j < |pts| && pts[j] == e;
    }
  }

  // ---- Ranges

  type Range = (int, int)

  predicate InSome(f: int, out: seq<Range>) { exists k :: 0 <= k < |out| && out[k].0 <= f <= out[k].1 }

  /** In order, none empty, and with a gap between neighbours: the ranges cannot be merged further. */
  predicate Separate(out: seq<Range>) {
    (forall k :: 0 <= k < |out| ==> out[k].0 <= out[k].1) && forall j, k :: 0 <= j < k < |out| ==>
      out[j].1 + 1 < out[k].0
  }

  /** The next elementary interval goes on with the last range or starts one. */
  function Extend(out: seq<Range>, lo: int, hi: int): seq<Range> {
    var n := |out|;
    if n > 0 && out[n - 1].1 + 1 == lo then out[..n - 1] + [(out[n - 1].0, hi)] else out + [(lo, hi)]
  }

  lemma ExtendCovers(out: seq<Range>, lo: int, hi: int)
    requires Separate(out) && lo <= hi && forall k :: 0 <= k < |out| ==> out[k].1 < lo
    ensures Separate(Extend(out, lo, hi)) && forall k :: 0 <= k < |Extend(out, lo, hi)| ==>
      Extend(out, lo, hi)[k].1 <= hi
    ensures forall f :: InSome(f, Extend(out, lo, hi)) <==> InSome(f, out) || lo <= f <= hi
  {
    var n, t := |out|, Extend(out, lo, hi);
    forall f ensures InSome(f, t) <==> InSome(f, out) || lo <= f <= hi {
      if k :| 0 <= k < |out| && out[k].0 <= f <= out[k].1 { assert t[k].0 <= f <= t[k].1; }
      if lo <= f <= hi { assert t[|t| - 1].0 <= f <= t[|t| - 1].1; }
      if k :| 0 <= k < |t| && t[k].0 <= f <= t[k].1 { assert k < |t| - 1 ==> out[k] == t[k]; }
    }
  }

  /** Exactly the frequencies of listed families, and weather, as separate ranges. */
  method CcAudibleRanges(table: seq<Allocation>, families: set<Kind>) returns (out: seq<Range>)
    ensures Separate(out)
    ensures forall f :: 0 <= f <= MAX_HZ ==> (InSome(f, out) <==> Listed(table, families, f))
  {
    var pts := Edges(table);
    out := [];
    for i := 0 to |pts| - 1
      invariant Separate(out) && forall k :: 0 <= k < |out| ==> out[k].1 < pts[i]
      invariant forall f :: pts[0] <= f < pts[i] ==> (InSome(f, out) <==> Listed(table, families, f))
      invariant forall f :: InSome(f, out) ==> f < pts[i]
    {
      var lo, hi := pts[i], pts[i + 1] - 1;
      ghost var was := out;
      forall f | lo <= f <= hi ensures Listed(table, families, f) == Listed(table, families, lo) {
        SameInside(table, families, pts, i, f);
      }
      if Listed(table, families, lo) {
        ExtendCovers(out, lo, hi);
        out := Extend(out, lo, hi);
      }
    }
    assert IsEdge(table, 0) && IsEdge(table, MAX_HZ + 1);
    assert 0 in pts && MAX_HZ + 1 in pts;
  }

  // ---- Both sides of the pipe

  function AsReal(out: seq<Range>): seq<(real, real)> {
    seq(|out|, k requires 0 <= k < |out| => (out[k].0 as real, out[k].1 as real))
  }

  /** Node's and the helper's test for a Close Call agree, frequency by frequency: a hit may take the
      speaker, and pre-empt, exactly when its family is listed or is weather. */
  lemma BothSidesAgree(table: seq<Allocation>, families: set<Kind>, out: seq<Range>, f: int)
    requires 0 <= f <= MAX_HZ && (InSome(f, out) <==> Listed(table, families, f))
    ensures var c := Squelch.CloseCallCmd(f, Some(AsReal(out)));
      (c.audible <==> Listed(table, families, f)) && (c.priority <==> InSome(f, out))
  {
    var r := AsReal(out);
    if InSome(f, out) {
      var k :| 0 <= k < |out| && out[k].0 <= f <= out[k].1;
      assert r[k].0 <= f as real <= r[k].1;
    }
    if k :| 0 <= k < |r| && r[k].0 <= f as real <= r[k].1 { assert out[k].0 <= f <= out[k].1; }
  }
}
