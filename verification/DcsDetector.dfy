/** The DCS detector's decisions, one per received bit: per bit phase it remembers the class last
    matched and for how many periods, and it locks to a class matched on two periods in a row. */
module DcsDetector {
  import opened DcsClasses
  import opened DcsInversion
  import opened DcsCode

  const MATCH_PERIODS: nat := 2
  const RELOCK_BITS: nat := 46

  /** `code` is the index of the detected code, -1 for none. */
  datatype Det = Det(reg: Bits, bits: nat, cls: seq<int>, count: seq<nat>, locked: int, since: nat, code: int)
  {
    predicate Valid() { |reg| == |cls| == |count| == WORD_BITS }
  }

  function Start(): (s: Det)
    ensures s.Valid()
  {
    Det(seq(WORD_BITS, _ => false), 0, seq(WORD_BITS, _ => -1), seq(WORD_BITS, _ => 0), -1, 0, -1)
  }

  function OnBit(s: Det, bit: bool): (t: Det)
    requires s.Valid()
    ensures t.Valid()
  {
    var reg, slot := s.reg[1..] + [bit], s.bits % WORD_BITS;
    if s.bits + 1 < WORD_BITS then s.(reg := reg, bits := s.bits + 1)
    else
      var m := Lookup(reg);
      var n := if m < 0 then 0 else if s.cls[slot] == m then s.count[slot] + 1 else 1;
      var locked := if m >= 0 && n >= MATCH_PERIODS then m else s.locked;
      var since := if locked < 0 then s.since else if m == locked then 0 else s.since + 1;
      Det(reg, s.bits + 1, s.cls[slot := m], s.count[slot := n],
          if locked >= 0 && since > RELOCK_BITS then -1 else locked, since,
          if locked < 0 then s.code else if m == locked then locked else -1)
  }

  class Detector {
    var reg: Bits
    var bits: nat
    const histClass: array<int>
    const histCount: array<nat>
    var locked: int
    var sinceLock: nat
    var code: int

    ghost predicate Valid()
      reads this
    {
      |reg| == histClass.Length == histCount.Length == WORD_BITS
    }

    ghost function Now(): (d: Det)
      requires Valid()
      reads this, histClass, histCount
      ensures d.Valid()
    {
      Det(reg, bits, histClass[..], histCount[..], locked, sinceLock, code)
    }

    constructor ()
      ensures Valid() && Now() == Start() && fresh(histClass) && fresh(histCount)
    {
      reg, bits := seq(WORD_BITS, _ => false), 0;
      histClass := new int[WORD_BITS](_ => -1);
      histCount := new nat[WORD_BITS](_ => 0);
      locked, sinceLock, code := -1, 0, -1;
    }

    method Hear(bit: bool)
      requires Valid()
      modifies this, histClass, histCount
      ensures Valid() && Now() == OnBit(old(Now()), bit)
    {
      hide Lookup, CODES;
      reg := reg[1..] + [bit];
      var slot := bits % WORD_BITS;
      bits := bits + 1;
      if bits < WORD_BITS { return; }
      var m := Lookup(reg);
      if m >= 0 && histClass[slot] == m {
        histCount[slot] := histCount[slot] + 1;
      } else {
        histCount[slot] := if m >= 0 then 1 else 0;
      }
      histClass[slot] := m;
      if m >= 0 && histCount[slot] >= MATCH_PERIODS { locked := m; }
      if locked < 0 { return; }
      if m == locked {
        sinceLock := 0;
        code := locked;
      } else {
        code := -1;
        sinceLock := sinceLock + 1;
        if sinceLock > RELOCK_BITS { locked := -1; }
      }
    }
  }

  // ---- The same decisions from the bit history alone

  function Exec(h: Bits): (s: Det)
    ensures s.Valid()
  {
    if h == [] then Start() else OnBit(Exec(h[..|h| - 1]), h[|h| - 1])
  }

  /** The class of the 23 bits up to time t. */
  function Class(h: Bits, t: int): (m: int)
    ensures m >= -1
  {
    if WORD_BITS <= t <= |h| then Lookup(h[t - WORD_BITS..t]) else -1
  }

  /** At time t the class was confirmed: seen now and exactly one word earlier. */
  predicate Confirmed(h: Bits, t: int) { Class(h, t) >= 0 && Class(h, t) == Class(h, t - WORD_BITS) }

  datatype Lock = Lock(m: int, since: nat)

  /** The lock as a fold over the history: a confirmation takes it, more than RELOCK_BITS bits
      without a match drop it. */
  function LockOf(h: Bits): (l: Lock)
    ensures l.m >= -1
  {
    if h == [] then Lock(-1, 0)
    else
      var l, m := LockOf(h[..|h| - 1]), Class(h, |h|);
      var held := if Confirmed(h, |h|) then m else l.m;
      if held < 0 then Lock(-1, l.since)
      else if m == held then Lock(held, 0)
      else if l.since + 1 > RELOCK_BITS then Lock(-1, l.since + 1)
      else Lock(held, l.since + 1)
  }

  lemma SamePast(h: Bits, b: bool, t: int)
    requires t <= |h|
    ensures Class(h + [b], t) == Class(h, t)
  {
    hide Lookup;
    assert WORD_BITS <= t ==> (h + [b])[t - WORD_BITS..t] == h[t - WORD_BITS..t];
  }

  lemma ClassPrefix(h: Bits, b: bool, t: int)
    requires t <= |h|
    ensures Class(h + [b], t) == Class(h, t) && Confirmed(h + [b], t) == Confirmed(h, t)
  {
    hide Class;
    SamePast(h, b, t);
    SamePast(h, b, t - WORD_BITS);
  }

  /** The memory kept for time t, in the slot of its bit phase. */
  predicate Remembers(s: Det, h: Bits, t: int)
    requires s.Valid()
  {
    var slot := (t - 1) % WORD_BITS;
    && s.cls[slot] == Class(h, t)
    && (s.count[slot] >= 1 <==> Class(h, t) >= 0)
    && (s.count[slot] >= 2 <==> Confirmed(h, t))
  }

  /** The register is the last 23 bits, blank before the first. */
  function Last(h: Bits): (w: Bits)
    ensures |w| == WORD_BITS
  {
    (seq(WORD_BITS, _ => false) + h)[|h|..]
  }

  lemma {:induction false} RegisterIsLast(h: Bits)
    ensures Exec(h).reg == Last(h) && Exec(h).bits == |h|
    ensures |h| >= WORD_BITS ==> Lookup(Exec(h).reg) == Class(h, |h|)
  {
    hide Lookup, Last;
    if h == [] {
      LastStart();
    } else {
      RegisterIsLast(h[..|h| - 1]);
      LastNext(h);
    }
  }

  lemma LastStart()
    ensures Last([]) == seq(WORD_BITS, _ => false)
  {}

  lemma LastNext(h: Bits)
    requires h != []
    ensures Last(h) == Last(h[..|h| - 1])[1..] + [h[|h| - 1]]
    ensures |h| >= WORD_BITS ==> Last(h) == h[|h| - WORD_BITS..|h|]
  {}

  /** A bit touches the memory of its own phase only. */
  lemma OnBitMemory(s: Det, bit: bool)
    requires s.Valid()
    ensures var t, slot, m := OnBit(s, bit), s.bits % WORD_BITS, Lookup(OnBit(s, bit).reg);
      && (s.bits + 1 < WORD_BITS ==> t.cls == s.cls && t.count == s.count)
      && (s.bits + 1 >= WORD_BITS ==>
        t.cls == s.cls[slot := m]
        && t.count == s.count[slot := if m < 0 then 0 else if s.cls[slot] == m then s.count[slot] + 1 else 1])
  {
    hide Lookup;
  }

  lemma {:induction false} MemoryIsHistory(h: Bits, t: int)
    requires |h| - WORD_BITS < t <= |h|
    ensures Remembers(Exec(h), h, t)
  {
    hide Lookup, OnBit, Class, CODES;
    if h == [] {
      BlankMemory(t);
    } else {
      var g, b, n := h[..|h| - 1], h[|h| - 1], |h|;
      assert h == g + [b];
      RegisterIsLast(g);
      RegisterIsLast(h);
      OnBitMemory(Exec(g), b);
      if t < n {
        MemoryIsHistory(g, t);
        ClassPrefix(g, b, t);
        SlotsDiffer(t, n);
        assert n < WORD_BITS || Remembers(Exec(h), h, t);
      } else {
        MemoryIsHistory(g, n - WORD_BITS);
        ClassPrefix(g, b, n - WORD_BITS);
        SameSlot(n);
        if n < WORD_BITS { TooEarly(h, n); }
      }
    }
  }

  lemma BlankMemory(t: int)
    ensures Remembers(Start(), [], t)
  {}

  lemma TooEarly(h: Bits, t: int)
    requires t < WORD_BITS
    ensures Class(h, t) == -1 && Class(h, t - WORD_BITS) == -1
  {}

  lemma SameSlot(n: int)
    ensures (n - 1) % WORD_BITS == (n - WORD_BITS - 1) % WORD_BITS
  {}

  /** Phase memory refines history: the detector's lock and code are those of the fold, after any
      bits whatever. */
  lemma {:induction false} DetectorIsFold(h: Bits)
    ensures var s, l, m := Exec(h), LockOf(h), Class(h, |h|);
      && s.locked == l.m && s.since == l.since
      && s.code == (if l.m >= 0 && m == l.m then l.m else -1)
  {
    hide Lookup, Class, Last;
    if h != [] {
      var g, b, n := h[..|h| - 1], h[|h| - 1], |h|;
      assert h == g + [b];
      DetectorIsFold(g);
      if n < WORD_BITS {
        RegisterIsLast(g);
        TooEarly(h, n);
        EarlyUnlocked(g);
      } else {
        ConfirmedIsCounted(g, b);
      }
    }
  }

  /** Two periods in a row are counted exactly when the history confirms the class. */
  lemma ConfirmedIsCounted(g: Bits, b: bool)
    requires |g| + 1 >= WORD_BITS
    ensures var h, s, slot := g + [b], Exec(g), |g| % WORD_BITS;
      var m := Class(h, |h|);
      && s.bits == |g| && Lookup(s.reg[1..] + [b]) == m
      && (m >= 0 && s.cls[slot] == m && s.count[slot] + 1 >= MATCH_PERIODS <==> Confirmed(h, |h|))
  {
    hide Lookup, Class, Last, OnBit;
    var h := g + [b];
    assert h[..|h| - 1] == g;
    RegisterIsLast(g);
    RegisterIsLast(h);
    OnBitRegister(Exec(g), b);
    MemoryIsHistory(g, |h| - WORD_BITS);
    ClassPrefix(g, b, |h| - WORD_BITS);
    SameSlot(|h|);
  }

  lemma OnBitRegister(s: Det, bit: bool)
    requires s.Valid()
    ensures OnBit(s, bit).reg == s.reg[1..] + [bit]
  {
    hide Lookup;
  }

  lemma {:induction false} EarlyUnlocked(h: Bits)
    requires |h| < WORD_BITS
    ensures LockOf(h).m == -1
  {
    if h != [] {
      EarlyUnlocked(h[..|h| - 1]);
      TooEarly(h, |h|);
    }
  }

  lemma SlotsDiffer(t: int, n: int)
    requires n - WORD_BITS < t < n
    ensures (t - 1) % WORD_BITS != (n - 1) % WORD_BITS
  {}

  // ---- What locks, what holds, what lets go

  /** At time u the class had matched within the last RELOCK_BITS bits, at t or later. */
  ghost predicate Recent(h: Bits, t: int, m: int, u: int) {
    exists v :: t <= v <= u && u - v <= RELOCK_BITS && Class(h, v) == m
  }

  /** Confirmed at t for the last time, and never since without a recent match. */
  ghost predicate HeldSince(h: Bits, t: int, m: int) {
    && 0 < t <= |h| && Confirmed(h, t) && Class(h, t) == m
    && (forall u :: t < u <= |h| ==> !Confirmed(h, u))
    && (forall u :: t <= u <= |h| ==> Recent(h, t, m, u))
  }

  /** `since` counts back to the last match. */
  predicate LastMatch(h: Bits, t: int, m: int, since: nat) {
    t <= |h| - since && Class(h, |h| - since) == m && forall v :: |h| - since < v <= |h| ==> Class(h, v) != m
  }

  lemma HeldGoesOn(g: Bits, b: bool, t: int, m: int, since: nat)
    requires HeldSince(g, t, m) && LastMatch(g, t, m, since)
    requires var h := g + [b]; !Confirmed(h, |h|) && (Class(h, |h|) == m || since + 1 <= RELOCK_BITS)
    ensures var h := g + [b]; HeldSince(h, t, m) && LastMatch(h, t, m, if Class(h, |h|) == m then 0 else since + 1)
  {
    hide Lookup, Class;
    var h := g + [b];
    var n := |h|;
    forall u | u < n ensures Class(h, u) == Class(g, u) && Confirmed(h, u) == Confirmed(g, u) { ClassPrefix(g, b, u); }
    forall u | t <= u <= n ensures Recent(h, t, m, u) {
      if u < n {
        assert Recent(g, t, m, u);
      } else {
        assert Class(h, if Class(h, n) == m then n else n - 1 - since) == m;
      }
    }
  }

  lemma {:induction false} LockIsHeld(h: Bits)
    ensures var l := LockOf(h);
      (l.m >= 0 ==> l.since <= RELOCK_BITS && exists t :: HeldSince(h, t, l.m) && LastMatch(h, t, l.m, l.since))
  {
    hide Lookup, Class;
    var l := LockOf(h);
    if h != [] && l.m >= 0 {
      var n, g, b := |h|, h[..|h| - 1], h[|h| - 1];
      assert h == g + [b];
      LockIsHeld(g);
      if Confirmed(h, n) {
        assert Recent(h, n, l.m, n);
        assert HeldSince(h, n, l.m) && LastMatch(h, n, l.m, 0);
      } else {
        hide HeldSince, LastMatch, Confirmed;
        var t :| HeldSince(g, t, l.m) && LastMatch(g, t, l.m, LockOf(g).since);
        HeldGoesOn(g, b, t, l.m, LockOf(g).since);
        assert HeldSince(h, t, l.m) && LastMatch(h, t, l.m, l.since);
      }
    }
  }

  lemma {:induction false} HeldIsLock(h: Bits, t: int, m: int)
    requires HeldSince(h, t, m)
    ensures LockOf(h).m == m && LastMatch(h, t, m, LockOf(h).since)
  {
    hide Lookup, Class;
    var n, g, b := |h|, h[..|h| - 1], h[|h| - 1];
    assert h == g + [b];
    if t < n {
      forall u | u < n ensures Class(h, u) == Class(g, u) && Confirmed(h, u) == Confirmed(g, u) {
        ClassPrefix(g, b, u);
      }
      forall u | t <= u < n ensures Recent(g, t, m, u) {
        assert Recent(h, t, m, u);
        var v :| t <= v <= u && u - v <= RELOCK_BITS && Class(h, v) == m;
        assert Class(g, v) == m;
      }
      assert HeldSince(g, t, m);
      HeldIsLock(g, t, m);
      assert Recent(h, t, m, n);
    }
  }

  /** The detector is locked to a class exactly when that class was the last to be confirmed on two
      windows one word apart, and has matched again at least every RELOCK_BITS bits since. */
  lemma LockedIff(h: Bits, m: int)
    requires m >= 0
    ensures Exec(h).locked == m <==> exists t :: HeldSince(h, t, m)
  {
    DetectorIsFold(h);
    if LockOf(h).m == m { LockIsHeld(h); }
    if t :| HeldSince(h, t, m) { HeldIsLock(h, t, m); }
  }

  /** A code is reported only while it is locked and the current window matches it. */
  lemma CodeIsLocked(h: Bits)
    requires Exec(h).code >= 0
    ensures |h| >= 2 * WORD_BITS && Class(h, |h|) == Exec(h).code && exists t :: HeldSince(h, t, Exec(h).code)
  {
    hide *;
    DetectorIsFold(h);
    LockIsHeld(h);
    var t :| HeldSince(h, t, Exec(h).code);
    HeldIsConfirmed(h, t, Exec(h).code);
    ConfirmedLate(h, t);
  }

  /** The window of a reported code is in its class, and a codeword. */
  lemma CodeIsCurrent(h: Bits)
    requires Exec(h).code >= 0
    ensures |h| >= 2 * WORD_BITS
    ensures var w := h[|h| - WORD_BITS..];
      Lookup(w) == Exec(h).code && InCode(w)
  {
    hide *;
    CodeIsLocked(h);
    ClassIsLookup(h);
    LookupInCode(h[|h| - WORD_BITS..]);
  }

  lemma HeldIsConfirmed(h: Bits, t: int, m: int)
    requires HeldSince(h, t, m)
    ensures t <= |h| && Confirmed(h, t)
  {}

  lemma ConfirmedLate(h: Bits, t: int)
    requires Confirmed(h, t)
    ensures 2 * WORD_BITS <= t
  {}

  lemma ClassIsLookup(h: Bits)
    requires |h| >= WORD_BITS
    ensures Class(h, |h|) == Lookup(h[|h| - WORD_BITS..])
  {
    assert h[|h| - WORD_BITS..|h|] == h[|h| - WORD_BITS..];
  }

  /** 46 clean bits of any word in a class, from any bit phase, lock that class whatever came before. */
  lemma CleanWordLocks(h: Bits, w: Bits, r: nat)
    requires |w| == WORD_BITS && Lookup(w) >= 0 && r < WORD_BITS
    ensures var v := Turn(w, r);
      Exec(h + v + v).locked == Lookup(w) && Exec(h + v + v).code == Lookup(w)
  {
    hide Lookup, Turn;
    var v := Turn(w, r);
    var all := h + v + v;
    TurnLookup(w, r);
    DetectorIsFold(all);
    var n := |all|;
    assert all[n - WORD_BITS..n] == v && all[n - 2 * WORD_BITS..n - WORD_BITS] == v;
    assert Confirmed(all, n);
  }

  /** 46 clean bits of a standard code, from any bit phase, lock that code whatever came before. */
  lemma CleanBitsLock(h: Bits, k: nat, r: nat)
    requires k < |CODES| && r < WORD_BITS
    ensures var v := Turn(Word(CODES[k], false), r);
      Exec(h + v + v).locked == k && Exec(h + v + v).code == k
  {
    var w := Word(CODES[k], false);
    assert Turn(w, 0) == w;
    LookupIff(w, k);
    hide Lookup, Word, Turn;
    CleanWordLocks(h, w, r);
  }

  /** 46 clean bits of any standard code sent inverted lock the one standard code that sounds the same. */
  lemma InvertedLocks(h: Bits, k: nat, r: nat) returns (j: nat)
    requires k < |CODES| && r < WORD_BITS
    ensures j < |CODES| && InClass(Word(CODES[k], true), j)
    ensures var v := Turn(Word(CODES[k], true), r);
      Exec(h + v + v).locked == j && Exec(h + v + v).code == j
  {
    hide Lookup, Word, Turn, InClass;
    j := InvertedClass(k);
    LookupIff(Word(CODES[k], true), j);
    CleanWordLocks(h, Word(CODES[k], true), r);
  }

  lemma {:induction false} TurnLookup(w: Bits, r: nat)
    requires |w| == WORD_BITS && r <= WORD_BITS
    ensures Lookup(Turn(w, r)) == Lookup(w)
  {
    hide Lookup;
    if r == 0 {
      assert Turn(w, 0) == w;
    } else {
      TurnLookup(w, r - 1);
      RotateLookup(Turn(w, r - 1));
      assert Rotate(Turn(w, r - 1)) == Turn(w, r);
    }
  }

  /** The class-m lock outlives a stretch of bits that neither match it nor confirm anything exactly
      when the stretch is at most RELOCK_BITS long. */
  lemma {:induction false} LockDies(h: Bits, more: Bits, m: int)
    requires m >= 0 && LockOf(h) == Lock(m, 0)
    requires forall t :: |h| < t <= |h| + |more| ==> Class(h + more, t) != m && !Confirmed(h + more, t)
    ensures Exec(h + more).locked == m <==> |more| <= RELOCK_BITS
    ensures |more| > 0 ==> Exec(h + more).code == -1
    ensures LockOf(h + more).m == (if |more| <= RELOCK_BITS then m else -1)
    ensures |more| <= RELOCK_BITS ==> LockOf(h + more).since == |more|
  {
    hide Lookup, Class;
    if more == [] {
      assert h + more == h;
    } else {
      var g, b := more[..|more| - 1], more[|more| - 1];
      assert h + more == (h + g) + [b];
      forall t | |h| < t <= |h| + |g| ensures Class(h + g, t) != m && !Confirmed(h + g, t) { ClassPrefix(h + g, b, t); }
      LockDies(h, g, m);
      assert (h + more)[..|h + more| - 1] == h + g;
    }
    DetectorIsFold(h + more);
  }
}
