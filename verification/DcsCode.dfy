/** DCS, digital-coded squelch: a 23-bit Golay(23,12) word sent over and over (ETSI TS 103 236,
    TIA-603). A word is its bits, bit i first to be sent after i others and the coefficient of x^i.
    The encoder, and why a received window can be matched at any bit phase. */
module DcsCode {
  type Bits = seq<bool>

  const WORD_BITS: nat := 23

  /** The 104 standard codes, ascending: three octal digits each (19 is 023). */
  const CODES: seq<nat> := ROW0 + ROW1 + ROW2 + ROW3 + ROW4 + ROW5 + ROW6 + ROW7

  const ROW0: seq<nat> := [19, 21, 22, 25, 26, 30, 35, 39, 41, 43, 44, 53, 57]
  const ROW1: seq<nat> := [58, 59, 60, 76, 77, 78, 82, 85, 89, 90, 92, 99, 101]
  const ROW2: seq<nat> := [106, 109, 110, 114, 117, 122, 124, 133, 138, 147, 149, 150, 163]
  const ROW3: seq<nat> := [164, 165, 166, 169, 170, 173, 177, 179, 181, 182, 185, 188, 198]
  const ROW4: seq<nat> := [201, 205, 213, 217, 218, 227, 230, 233, 238, 244, 245, 249, 265]
  const ROW5: seq<nat> := [266, 267, 275, 281, 282, 293, 294, 298, 300, 301, 306, 308, 309]
  const ROW6: seq<nat> := [310, 323, 326, 334, 339, 342, 346, 358, 373, 390, 394, 404, 407]
  const ROW7: seq<nat> := [409, 410, 428, 434, 436, 451, 458, 467, 473, 474, 476, 483, 492]

  function At(p: Bits, i: int): bool { 0 <= i < |p| && p[i] }

  function Xor(a: bool, b: bool): bool { a != b }

  // ---- The encoder

  /** 0x08EA, what the feedback adds: bits 1, 3, 5, 6, 7 and 11. */
  function Tap(i: int): bool { i in {1, 3, 5, 6, 7, 11} }

  /** One step of the 24-bit register: shift up, and feed bit 12 back. */
  function LfsrStep(w: Bits): (s: Bits)
    requires |w| == 24
    ensures |s| == 24
  {
    var s := [false] + w[..23];
    if s[12] then seq(24, i requires 0 <= i < 24 => Xor(s[i], Tap(i))) else s
  }

  function Lfsr(data: Bits, n: nat): (w: Bits)
    requires |data| == 12
    ensures |w| == 24
  {
    if n == 0 then data + seq(12, _ => false) else LfsrStep(Lfsr(data, n - 1))
  }

  /** The data, then the register's bits 1 to 11 as parity. */
  function Golay(data: Bits): (w: Bits)
    requires |data| == 12
    ensures |w| == WORD_BITS
  {
    data + Lfsr(data, 12)[1..12]
  }

  /** golay23: twelve shifts of the feedback register. */
  method Golay23(data: Bits) returns (r: Bits)
    requires |data| == 12
    ensures r == Golay(data)
  {
    var w := data + seq(12, _ => false);
    for i := 0 to 12
      invariant w == Lfsr(data, i)
    {
      var s := [false] + w[..23];
      if s[12] { s := seq(24, k requires 0 <= k < 24 => Xor(s[k], Tap(k))); }
      assert s == LfsrStep(w);
      w := s;
    }
    r := data + w[1..12];
  }

  function Bit(n: nat, i: nat): bool { if i == 0 then n % 2 == 1 else Bit(n / 2, i - 1) }

  /** Nine code bits, then the fixed 0, 0, 1. */
  function DataBits(code: nat): (d: Bits)
    ensures |d| == 12
  {
    seq(12, i requires 0 <= i < 12 => if i < 9 then Bit(code, i) else i == 11)
  }

  function Flip(w: Bits): (f: Bits)
    ensures |f| == |w| && forall i :: 0 <= i < |w| ==> f[i] == !w[i]
  {
    seq(|w|, i requires 0 <= i < |w| => !w[i])
  }

  function Word(code: nat, inverted: bool): (w: Bits)
    ensures |w| == WORD_BITS
  {
    if inverted then Flip(Golay(DataBits(code))) else Golay(DataBits(code))
  }

  /** dcs_rotate: the window one bit later, while the word repeats. */
  function Rotate(w: Bits): (r: Bits)
    requires |w| == WORD_BITS
    ensures |r| == WORD_BITS
  {
    w[1..] + [w[0]]
  }

  // ---- Words are multiples of the generator x^11+x^10+x^6+x^5+x^4+x^2+1, 0xC75

  function Generator(i: int): bool { i in {0, 2, 4, 5, 6, 10, 11} }

  /** Coefficient i of q times the generator, modulo 2. */
  function Times(q: Bits, i: int): bool {
    Xor(At(q, i), Xor(At(q, i - 2), Xor(At(q, i - 4),
      Xor(At(q, i - 5), Xor(At(q, i - 6), Xor(At(q, i - 10), At(q, i - 11)))))))
  }

  predicate Multiple(w: Bits, q: Bits) {
    |w| == WORD_BITS && |q| == 12 && forall i :: 0 <= i < WORD_BITS ==> w[i] == Times(q, i)
  }

  /** A codeword: a multiple of the generator by 12 coefficients. */
  ghost predicate InCode(w: Bits) { exists q :: Multiple(w, q) }

  /** (x^23 + 1) / generator, 0x1F25. */
  const COFACTOR: Bits := [true, false, true, false, false, true, false, false, true, true, true, true, true]

  lemma CofactorTimes(i: int)
    requires 0 <= i <= 23
    ensures Times(COFACTOR, i) == (i == 0 || i == 23)
  {
    if i <= 11 { if i <= 5 {} else {} } else { if i <= 17 {} else {} }
  }

  /** The code is cyclic: dividing by x, after adding x^23 + 1 when the lowest bit is set. */
  lemma RotateStaysInCode(w: Bits)
    requires InCode(w)
    ensures InCode(Rotate(w))
  {
    var q :| Multiple(w, q);
    var u := seq(12, i requires 0 <= i < 12 => Xor(At(q, i + 1), q[0] && COFACTOR[i + 1]));
    forall i | 0 <= i < WORD_BITS ensures Rotate(w)[i] == Times(u, i) {
      RotatedCoefficient(q, u, i);
      if i < 22 { assert Rotate(w)[i] == w[i + 1]; }
    }
    assert Multiple(Rotate(w), u);
  }

  lemma RotatedCoefficient(q: Bits, u: Bits, i: int)
    requires |q| == |u| == 12 && 0 <= i < WORD_BITS
    requires forall j :: 0 <= j < 12 ==> u[j] == Xor(At(q, j + 1), q[0] && COFACTOR[j + 1])
    ensures Times(u, i) == if i < 22 then Times(q, i + 1) else q[0]
  {
    CofactorTimes(i + 1);
    forall j: int ensures At(u, j) == Xor(j != -1 && At(q, j + 1), q[0] && j != -1 && At(COFACTOR, j + 1)) {}
    assert Times(q, 23) == false;
  }

  /** The all-ones word is a codeword, by 0xAE3. */
  const ONES: Bits := [true, true, false, false, false, true, true, true, false, true, false, true]

  lemma OnesTimes(i: int)
    requires 0 <= i < WORD_BITS
    ensures Times(ONES, i)
  {
    if i <= 11 { if i <= 5 {} else {} } else { if i <= 17 {} else {} }
  }

  /** So the code is closed under complement, which is what inverted polarity sends. */
  lemma FlipStaysInCode(w: Bits)
    requires InCode(w)
    ensures InCode(Flip(w))
  {
    var q :| Multiple(w, q);
    var u := seq(12, i requires 0 <= i < 12 => Xor(q[i], ONES[i]));
    forall i | 0 <= i < WORD_BITS ensures Flip(w)[i] == Times(u, i) {
      OnesTimes(i);
      forall j: int ensures At(u, j) == Xor(At(q, j), At(ONES, j)) {}
      TimesSums(q, ONES, u, i);
    }
    assert Multiple(Flip(w), u);
  }

  lemma TimesSums(a: Bits, b: Bits, u: Bits, i: int)
    requires forall j: int :: At(u, j) == Xor(At(a, j), At(b, j))
    ensures Times(u, i) == Xor(Times(a, i), Times(b, i))
  {}

  // ---- The encoder's words are codewords

  /** The coefficients fed back by the first n steps, latest first: the quotient being divided off. */
  function FedBack(data: Bits, n: nat): (a: Bits)
    requires |data| == 12
    ensures |a| == n
  {
    if n == 0 then [] else [Lfsr(data, n - 1)[11]] + FedBack(data, n - 1)
  }

  /** What the register holds: x^n times the data, less the generator's multiple fed back, shifted
      once; from bit 12 on the two cancel. */
  lemma {:induction false} LfsrDivides(data: Bits, n: nat, i: nat)
    requires |data| == 12
    ensures i < 12 ==> Lfsr(data, n)[i] == Xor(At(data, i - n), Times(FedBack(data, n), i - 1))
    ensures i >= 12 ==> At(data, i - n) == Times(FedBack(data, n), i - 1)
  {
    hide Times, LfsrStep;
    if n == 0 {
      NothingTimes(i - 1);
    } else {
      var w, a, b := Lfsr(data, n - 1), FedBack(data, n - 1), FedBack(data, n);
      if i > 0 { LfsrDivides(data, n - 1, i - 1); }
      LfsrDivides(data, n - 1, 11);
      forall j: int ensures At(b, j) == if j == 0 then w[11] else At(a, j - 1) {}
      TimesShifts(a, b, w[11], i - 1);
      if i < 12 { LfsrStepAt(w, i); }
      if i == 0 { NegativeTimes(a, b); }
    }
  }

  /** Multiplying the quotient by x and adding a constant term. */
  lemma TimesShifts(a: Bits, b: Bits, bit: bool, i: int)
    requires forall j: int :: At(b, j) == if j == 0 then bit else At(a, j - 1)
    ensures Times(b, i) == Xor(Times(a, i - 1), bit && Generator(i))
  {
    assert !At(a, -1);
    hide At;
  }

  lemma NegativeTimes(a: Bits, b: Bits)
    ensures !Times(a, -2) && !Times(b, -1)
  {}

  lemma NothingTimes(i: int)
    ensures !Times([], i)
  {}

  lemma LfsrStepAt(w: Bits, i: nat)
    requires |w| == 24 && i < 12
    ensures LfsrStep(w)[i] == Xor(i > 0 && w[i - 1], w[11] && Tap(i))
  {}

  /** Rotated eleven bits, a multiple of the generator is the register's output: every encoded word
      is a codeword, for all data. */
  lemma GolayInCode(data: Bits)
    requires |data| == 12
    ensures InCode(Golay(data))
  {
    var a := FedBack(data, 12);
    var c := seq(WORD_BITS, i requires 0 <= i < WORD_BITS => Times(a, i));
    assert Multiple(c, a);
    TurnStaysInCode(c, 11);
    var g := Golay(data);
    forall i | 0 <= i < WORD_BITS ensures g[i] == Turn(c, 11)[i] {
      if i < 12 {
        LfsrDivides(data, 12, i + 12);
      } else {
        LfsrDivides(data, 12, i - 11);
      }
    }
    assert g == Turn(c, 11);
  }

  /** Every word on air, either polarity, is a codeword. */
  lemma WordInCode(code: nat, inverted: bool)
    ensures InCode(Word(code, inverted))
  {
    GolayInCode(DataBits(code));
    if inverted { FlipStaysInCode(Golay(DataBits(code))); }
  }

  // ---- On-air classes

  /** r rotations of a word. */
  function Turn(w: Bits, r: nat): (t: Bits)
    requires |w| == WORD_BITS && r <= WORD_BITS
    ensures |t| == WORD_BITS
  {
    w[r..] + w[..r]
  }

  lemma {:induction false} TurnStaysInCode(w: Bits, r: nat)
    requires InCode(w) && r <= WORD_BITS
    ensures InCode(Turn(w, r))
  {
    if r == 0 {
      assert Turn(w, 0) == w;
    } else {
      TurnStaysInCode(w, r - 1);
      RotateStaysInCode(Turn(w, r - 1));
      assert Rotate(Turn(w, r - 1)) == Turn(w, r);
    }
  }

  /** w is what standard code k sounds like at some bit phase. */
  predicate InClass(w: Bits, k: nat)
    requires k < |CODES|
  {
    exists r :: 0 <= r < WORD_BITS && w == Turn(Word(CODES[k], false), r)
  }

  function LookupFrom(w: Bits, k: nat): (m: int)
    requires k <= |CODES|
    ensures -1 <= m < |CODES| && (m >= 0 ==> k <= m && InClass(w, m))
    ensures forall j :: k <= j < (if m < 0 then |CODES| else m) ==> !InClass(w, j)
    decreases |CODES| - k
  {
    if k == |CODES| then -1 else if InClass(w, k) then k else LookupFrom(w, k + 1)
  }

  /** The first standard code whose class holds window w, or -1. */
  function Lookup(w: Bits): (m: int)
    ensures -1 <= m < |CODES| && (m >= 0 ==> InClass(w, m))
    ensures forall j :: 0 <= j < (if m < 0 then |CODES| else m) ==> !InClass(w, j)
  {
    LookupFrom(w, 0)
  }

  lemma RotateClass(w: Bits, k: nat)
    requires |w| == WORD_BITS && k < |CODES|
    ensures InClass(Rotate(w), k) <==> InClass(w, k)
  {
    hide Word, Rotate, Turn;
    var c := Word(CODES[k], false);
    if InClass(w, k) {
      var r :| 0 <= r < WORD_BITS && w == Turn(c, r);
      RotateTurn(c, r);
    }
    if InClass(Rotate(w), k) {
      var r :| 0 <= r < WORD_BITS && Rotate(w) == Turn(c, r);
      var r1 := if r == 0 then WORD_BITS - 1 else r - 1;
      RotateTurn(c, r1);
      RotateOneToOne(w, Turn(c, r1));
    }
  }

  lemma RotateTurn(c: Bits, r: nat)
    requires |c| == WORD_BITS && r < WORD_BITS
    ensures Rotate(Turn(c, r)) == Turn(c, if r + 1 == WORD_BITS then 0 else r + 1)
  {}

  lemma RotateOneToOne(a: Bits, b: Bits)
    requires |a| == |b| == WORD_BITS && Rotate(a) == Rotate(b)
    ensures a == b
  {
    assert a == [Rotate(a)[22]] + Rotate(a)[..22];
    assert b == [Rotate(b)[22]] + Rotate(b)[..22];
  }

  /** While a word repeats, every window looks up to the same class. */
  lemma RotateLookup(w: Bits)
    requires |w| == WORD_BITS
    ensures Lookup(Rotate(w)) == Lookup(w)
  {
    hide InClass;
    forall k | 0 <= k < |CODES| ensures InClass(Rotate(w), k) <==> InClass(w, k) { RotateClass(w, k); }
  }

  /** A window that looks up to a class is a codeword. */
  lemma LookupInCode(w: Bits)
    requires Lookup(w) >= 0
    ensures InCode(w)
  {
    var c := Word(CODES[Lookup(w)], false);
    var r :| 0 <= r < WORD_BITS && w == Turn(c, r);
    WordInCode(CODES[Lookup(w)], false);
    TurnStaysInCode(c, r);
  }
}
