/** The 104 standard codes sound different: no window of one, at any bit phase, is a window of another. */
module DcsClasses {
  import opened DcsCode

  // ---- Codewords recur: the cofactor annihilates them

  /** Bit i is the sum of the earlier bits the cofactor names. */
  predicate Fed(w: Bits, i: nat)
    requires |w| == WORD_BITS && 12 <= i < WORD_BITS
  {
    w[i] == Xor(w[i - 2], Xor(w[i - 5], Xor(w[i - 8], Xor(w[i - 9], Xor(w[i - 10], Xor(w[i - 11], w[i - 12]))))))
  }

  /** Multiplying a multiple of the generator by the cofactor leaves q and q shifted by 23. */
  lemma CofactorAnnihilates(q: Bits, i: nat)
    requires |q| == 12 && 12 <= i < WORD_BITS
    ensures Times(q, i) == Xor(Times(q, i - 2), Xor(Times(q, i - 5),
              Xor(Times(q, i - 8), Xor(Times(q, i - 9), Xor(Times(q, i - 10),
                Xor(Times(q, i - 11), Times(q, i - 12)))))))
  {}

  lemma CodewordsRecur(w: Bits, i: nat)
    requires InCode(w) && 12 <= i < WORD_BITS
    ensures |w| == WORD_BITS && Fed(w, i)
  {
    hide Times;
    var q :| Multiple(w, q);
    CofactorAnnihilates(q, i);
  }

  // ---- Where a word can be read as a standard code

  /** As in the table (StandardIsCode, CodesAscend), spelled out for the case analysis below. */
  predicate Standard(n: nat) {
    || n == 19 || n == 21 || n == 22 || n == 25 || n == 26 || n == 30 || n == 35 || n == 39
    || n == 41 || n == 43 || n == 44 || n == 53 || n == 57 || n == 58 || n == 59 || n == 60
    || n == 76 || n == 77 || n == 78 || n == 82 || n == 85 || n == 89 || n == 90 || n == 92
    || n == 99 || n == 101 || n == 106 || n == 109 || n == 110 || n == 114 || n == 117 || n == 122
    || n == 124 || n == 133 || n == 138 || n == 147 || n == 149 || n == 150 || n == 163 || n == 164
    || n == 165 || n == 166 || n == 169 || n == 170 || n == 173 || n == 177 || n == 179 || n == 181
    || n == 182 || n == 185 || n == 188 || n == 198 || n == 201 || n == 205 || n == 213 || n == 217
    || n == 218 || n == 227 || n == 230 || n == 233 || n == 238 || n == 244 || n == 245 || n == 249
    || n == 265 || n == 266 || n == 267 || n == 275 || n == 281 || n == 282 || n == 293 || n == 294
    || n == 298 || n == 300 || n == 301 || n == 306 || n == 308 || n == 309 || n == 310 || n == 323
    || n == 326 || n == 334 || n == 339 || n == 342 || n == 346 || n == 358 || n == 373 || n == 390
    || n == 394 || n == 404 || n == 407 || n == 409 || n == 410 || n == 428 || n == 434 || n == 436
    || n == 451 || n == 458 || n == 467 || n == 473 || n == 474 || n == 476 || n == 483 || n == 492
  }

  function Weight(b: bool, p: nat): nat { if b then p else 0 }

  /** An octal digit. */
  function Sum3(a: bool, b: bool, c: bool): nat { Weight(a, 1) + Weight(b, 2) + Weight(c, 4) }

  /** The nine code bits of a window that starts r bits in. */
  function CodeAt(w: Bits, r: nat): nat
    requires |w| == WORD_BITS
  {
    Weight(w[r % 23], 1) + Weight(w[(r + 1) % 23], 2) + Weight(w[(r + 2) % 23], 4)
    + Weight(w[(r + 3) % 23], 8) + Weight(w[(r + 4) % 23], 16) + Weight(w[(r + 5) % 23], 32)
    + Weight(w[(r + 6) % 23], 64) + Weight(w[(r + 7) % 23], 128) + Weight(w[(r + 8) % 23], 256)
  }

  /** The three fixed bits, 0, 0, 1, after the code bits of that window. */
  predicate Marked(w: Bits, r: nat)
    requires |w| == WORD_BITS
  {
    !w[(r + 9) % 23] && !w[(r + 10) % 23] && w[(r + 11) % 23]
  }

  /** That window looks like the start of a standard word. */
  predicate Framed(w: Bits, r: nat)
    requires |w| == WORD_BITS
  {
    Marked(w, r) && Standard(CodeAt(w, r))
  }

  predicate Recurs(w: Bits) {
    && |w| == WORD_BITS && Fed(w, 12) && Fed(w, 13) && Fed(w, 14) && Fed(w, 15) && Fed(w, 16) && Fed(w, 17)
    && Fed(w, 18) && Fed(w, 19) && Fed(w, 20) && Fed(w, 21) && Fed(w, 22)
  }

  lemma Apart1(w: Bits)
    requires Recurs(w) && Framed(w, 0)
    ensures !Framed(w, 1)
  {}

  lemma Apart2(w: Bits)
    requires Recurs(w) && Framed(w, 0)
    ensures !Framed(w, 2)
  {}

  lemma Apart3(w: Bits)
    requires Recurs(w) && Framed(w, 0)
    ensures !Framed(w, 3)
  {}

  lemma Apart4(w: Bits)
    requires Recurs(w) && Framed(w, 0)
    ensures !Framed(w, 4)
  {}

  lemma Apart5(w: Bits)
    requires Recurs(w) && Framed(w, 0)
    ensures !Framed(w, 5)
  {}

  lemma Apart6(w: Bits)
    requires Recurs(w) && Framed(w, 0)
    ensures !Framed(w, 6)
  {}

  lemma Apart7(w: Bits)
    requires Recurs(w) && Framed(w, 0)
    ensures !Framed(w, 7)
  {}

  lemma Apart8(w: Bits)
    requires Recurs(w) && Framed(w, 0)
    ensures !Framed(w, 8)
  {}

  lemma Apart9(w: Bits)
    requires Recurs(w) && Framed(w, 0)
    ensures !Framed(w, 9)
  {}

  lemma Apart10(w: Bits)
    requires Recurs(w) && Framed(w, 0)
    ensures !Framed(w, 10)
  {}

  lemma Apart11(w: Bits)
    requires Recurs(w) && Framed(w, 0)
    ensures !Framed(w, 11)
  {}

  /** A framed codeword is not framed again within half a turn. */
  lemma FramedOnce(w: Bits, r: nat)
    requires Recurs(w) && Framed(w, 0) && 0 < r <= 11
    ensures !Framed(w, r)
  {
    hide Recurs, Framed;
    match r
    case 1 => Apart1(w);
    case 2 => Apart2(w);
    case 3 => Apart3(w);
    case 4 => Apart4(w);
    case 5 => Apart5(w);
    case 6 => Apart6(w);
    case 7 => Apart7(w);
    case 8 => Apart8(w);
    case 9 => Apart9(w);
    case 10 => Apart10(w);
    case _ => Apart11(w);
  }

  // ---- The standard words

  predicate GoodRow(row: seq<nat>) {
    |row| == 13 && forall j :: 0 <= j < 13 ==> Standard(row[j]) && row[j] < 512 && (j > 0 ==> row[j - 1] < row[j])
  }

  lemma RowsAreGood()
    ensures GoodRow(ROW0) && ROW0[12] < ROW1[0]
    ensures GoodRow(ROW1) && ROW1[12] < ROW2[0]
    ensures GoodRow(ROW2) && ROW2[12] < ROW3[0]
    ensures GoodRow(ROW3) && ROW3[12] < ROW4[0]
    ensures GoodRow(ROW4) && ROW4[12] < ROW5[0]
    ensures GoodRow(ROW5) && ROW5[12] < ROW6[0]
    ensures GoodRow(ROW6) && ROW6[12] < ROW7[0]
    ensures GoodRow(ROW7)
  {
    LowRowsAreGood();
    HighRowsAreGood();
    hide GoodRow;
  }

  lemma LowRowsAreGood()
    ensures GoodRow(ROW0) && ROW0[12] < ROW1[0]
    ensures GoodRow(ROW1) && ROW1[12] < ROW2[0]
    ensures GoodRow(ROW2) && ROW2[12] < ROW3[0]
    ensures GoodRow(ROW3) && ROW3[12] < ROW4[0]
  {}

  lemma HighRowsAreGood()
    ensures GoodRow(ROW4) && ROW4[12] < ROW5[0]
    ensures GoodRow(ROW5) && ROW5[12] < ROW6[0]
    ensures GoodRow(ROW6) && ROW6[12] < ROW7[0]
    ensures GoodRow(ROW7)
  {}

  /** Code k by row and column. */
  lemma CodeInRow(k: nat)
    requires k < |CODES|
    ensures CODES[k] ==
      if k < 13 then ROW0[k] else if k < 26 then ROW1[k - 13] else if k < 39 then ROW2[k - 26]
      else if k < 52 then ROW3[k - 39] else if k < 65 then ROW4[k - 52] else if k < 78 then ROW5[k - 65]
      else if k < 91 then ROW6[k - 78] else ROW7[k - 91]
  {}

  lemma CodesAscend(k: nat)
    requires k < |CODES|
    ensures Standard(CODES[k]) && CODES[k] < 512 && (k > 0 ==> CODES[k - 1] < CODES[k])
  {
    CodeInRow(k);
    if k > 0 { CodeInRow(k - 1); }
    RowsAreGood();
    hide Standard;
  }

  lemma {:induction false} CodesDiffer(j: nat, k: nat)
    requires j < k < |CODES|
    ensures CODES[j] < CODES[k]
  {
    hide *;
    CodesAscend(k);
    if j < k - 1 { CodesDiffer(j, k - 1); }
  }

  lemma LowStandard(n: nat)
    requires Standard(n) && n <= 198
    ensures n in ROW0 || n in ROW1 || n in ROW2 || n in ROW3
  {}

  lemma HighStandard(n: nat)
    requires Standard(n) && n > 198
    ensures n in ROW4 || n in ROW5 || n in ROW6 || n in ROW7
  {}

  /** Row i of the table. */
  function Row(i: nat): (row: seq<nat>)
    requires i < 8
  {
    match i
    case 0 => ROW0
    case 1 => ROW1
    case 2 => ROW2
    case 3 => ROW3
    case 4 => ROW4
    case 5 => ROW5
    case 6 => ROW6
    case _ => ROW7
  }

  lemma InRow(n: nat) returns (i: nat)
    requires Standard(n)
    ensures i < 8 && n in Row(i)
  {
    if n <= 198 { LowStandard(n); } else { HighStandard(n); }
    hide Standard, ROW0, ROW1, ROW2, ROW3, ROW4, ROW5, ROW6, ROW7;
    i := if n in ROW0 then 0 else if n in ROW1 then 1 else if n in ROW2 then 2 else if n in ROW3 then 3
         else if n in ROW4 then 4 else if n in ROW5 then 5 else if n in ROW6 then 6 else 7;
  }

  lemma RowInCodes(i: nat, j: nat)
    requires i < 8 && j < 13
    ensures |Row(i)| == 13 && 13 * i + j < |CODES| && CODES[13 * i + j] == Row(i)[j]
  {
    hide CODES, ROW0, ROW1, ROW2, ROW3, ROW4, ROW5, ROW6, ROW7;
    TableSize();
    CodeInRow(13 * i + j);
  }

  lemma TableSize()
    ensures |CODES| == 104 && forall i: nat :: i < 8 ==> |Row(i)| == 13
  {}

  /** The standard codes are those of the table. */
  lemma StandardIsCode(n: nat) returns (k: nat)
    requires Standard(n)
    ensures k < |CODES| && CODES[k] == n
  {
    hide Standard, CODES, Row;
    var i := InRow(n);
    var j :| 0 <= j < |Row(i)| && Row(i)[j] == n;
    TableSize();
    RowInCodes(i, j);
    k := 13 * i + j;
  }

  /** n is its lowest bit and twice the rest. */
  lemma LowBit(n: nat, half: nat)
    requires half == n / 2
    ensures n == 2 * half + Weight(Bit(n, 0), 1) && forall i: nat :: Bit(n, i + 1) == Bit(half, i)
  {}

  lemma ThreeBits(n: nat) returns (rest: nat)
    ensures n == Sum3(Bit(n, 0), Bit(n, 1), Bit(n, 2)) + 8 * rest && forall i: nat :: Bit(n, i + 3) == Bit(rest, i)
  {
    var n1, n2 := n / 2, n / 2 / 2;
    rest := n2 / 2;
    LowBit(n, n1);
    LowBit(n1, n2);
    LowBit(n2, rest);
    hide Bit;
    assert Bit(n, 0 + 1) == Bit(n1, 0) && Bit(n, 1 + 1) == Bit(n1, 0 + 1) == Bit(n2, 0);
    forall i: nat ensures Bit(n, i + 3) == Bit(rest, i) {
      assert Bit(n, i + 2 + 1) == Bit(n1, i + 1 + 1) == Bit(n2, i + 1) == Bit(rest, i);
    }
  }

  lemma BinaryDigits(n: nat)
    requires n < 512
    ensures n == Sum3(Bit(n, 0), Bit(n, 1), Bit(n, 2)) + 8 * Sum3(Bit(n, 3), Bit(n, 4), Bit(n, 5))
      + 64 * Sum3(Bit(n, 6), Bit(n, 7), Bit(n, 8))
  {
    var m := ThreeBits(n);
    var k := ThreeBits(m);
    var top := ThreeBits(k);
    hide Bit, Sum3;
    assert Bit(n, 0 + 3) == Bit(m, 0) && Bit(n, 1 + 3) == Bit(m, 1) && Bit(n, 2 + 3) == Bit(m, 2);
    assert Bit(n, 3 + 3) == Bit(m, 0 + 3) == Bit(k, 0) && Bit(n, 4 + 3) == Bit(m, 1 + 3) == Bit(k, 1)
      && Bit(n, 5 + 3) == Bit(m, 2 + 3) == Bit(k, 2);
  }

  lemma WordRecurs(code: nat)
    ensures Recurs(Word(code, false))
  {
    var w := Word(code, false);
    WordInCode(code, false);
    hide Word, Fed;
    forall i | 12 <= i < WORD_BITS ensures Fed(w, i) { CodewordsRecur(w, i); }
  }

  lemma WordStarts(code: nat, i: nat)
    requires i < 12
    ensures Word(code, false)[i] == if i < 9 then Bit(code, i) else i == 11
  {
    hide Bit;
  }

  lemma OctalCode(w: Bits)
    requires |w| == WORD_BITS
    ensures CodeAt(w, 0) == Sum3(w[0], w[1], w[2]) + 8 * Sum3(w[3], w[4], w[5]) + 64 * Sum3(w[6], w[7], w[8])
  {}

  lemma WordReads(code: nat)
    requires code < 512
    ensures CodeAt(Word(code, false), 0) == code
  {
    var w := Word(code, false);
    forall i | 0 <= i < 12 ensures w[i] == if i < 9 then Bit(code, i) else i == 11 { WordStarts(code, i); }
    BinaryDigits(code);
    OctalCode(w);
    hide Bit, Word, Sum3, CodeAt;
  }

  /** The word of a standard code reads as that code from its start. */
  lemma WordFramed(k: nat)
    requires k < |CODES|
    ensures var w := Word(CODES[k], false); Recurs(w) && Framed(w, 0) && CodeAt(w, 0) == CODES[k]
  {
    hide Recurs, Word, Standard, CodeAt, Bit;
    var code := CODES[k];
    CodesAscend(k);
    WordRecurs(code);
    WordReads(code);
    WordStarts(code, 9);
    WordStarts(code, 10);
    WordStarts(code, 11);
  }

  lemma FramedTurn(w: Bits, r: nat)
    requires |w| == WORD_BITS && r < WORD_BITS
    ensures Framed(Turn(w, r), 0) == Framed(w, r) && CodeAt(Turn(w, r), 0) == CodeAt(w, r)
  {
    hide Turn, Standard, Weight;
    var t := Turn(w, r);
    forall i | 0 <= i < 12 ensures t[i] == w[(r + i) % 23] { TurnAt(w, r, i); }
    assert t[0] == w[(r + 0) % 23];
  }

  lemma TurnAt(w: Bits, r: nat, i: nat)
    requires |w| == WORD_BITS && r < WORD_BITS && i < WORD_BITS
    ensures Turn(w, r)[i] == w[(r + i) % WORD_BITS]
  {}

  lemma TurnTurn(w: Bits, a: nat, c: nat)
    requires |w| == WORD_BITS && a < WORD_BITS && c <= WORD_BITS
    ensures Turn(Turn(w, a), c) == Turn(w, if a + c < WORD_BITS then a + c else a + c - WORD_BITS)
  {
    var t := Turn(w, a);
    if a + c <= WORD_BITS {
      assert t[c..] == w[a + c..] + w[..a] && t[..c] == w[a..a + c];
      assert w[..a] + w[a..a + c] == w[..a + c];
    } else {
      var e := a + c - WORD_BITS;
      assert t[c..] == w[e..a] && t[..c] == w[a..] + w[..e];
      assert w[e..a] + w[a..] == w[e..];
    }
  }

  lemma TurnBack(w: Bits, v: Bits, a: nat, b: nat)
    requires |w| == |v| == WORD_BITS && b <= a < WORD_BITS && Turn(w, a) == Turn(v, b)
    ensures v == Turn(w, a - b) && (a > b ==> w == Turn(v, WORD_BITS - (a - b)))
  {
    TurnTurn(w, a, WORD_BITS - b);
    TurnTurn(v, b, WORD_BITS - b);
    TurnTurn(w, a, WORD_BITS - a);
    TurnTurn(v, b, WORD_BITS - a);
    WholeTurn(w);
    WholeTurn(v);
    hide Turn;
  }

  lemma WordsApart(j: nat, k: nat, r: nat)
    requires j < |CODES| && k < |CODES| && r < WORD_BITS && Word(CODES[k], false) == Turn(Word(CODES[j], false), r)
    ensures j == k
  {
    var w, v := Word(CODES[j], false), Word(CODES[k], false);
    WordFramed(j);
    WordFramed(k);
    FramedTurn(w, r);
    hide Recurs, Framed, CodeAt, Word, Turn;
    if r == 0 {
      assert Turn(w, 0) == w by { WholeTurn(w); }
      if j < k { CodesDiffer(j, k); } else if k < j { CodesDiffer(k, j); }
    } else if r <= 11 {
      FramedOnce(w, r);
    } else {
      WholeTurn(v);
      TurnBack(w, v, r, 0);
      FramedTurn(v, WORD_BITS - r);
      FramedOnce(v, WORD_BITS - r);
    }
  }

  lemma WholeTurn(w: Bits)
    requires |w| == WORD_BITS
    ensures Turn(w, 0) == w
  {}

  /** The classes are disjoint: a window is in at most one. */
  lemma ClassesDisjoint(w: Bits, j: nat, k: nat)
    requires j < |CODES| && k < |CODES| && InClass(w, j) && InClass(w, k)
    ensures j == k
  {
    var a :| 0 <= a < WORD_BITS && w == Turn(Word(CODES[j], false), a);
    var b :| 0 <= b < WORD_BITS && w == Turn(Word(CODES[k], false), b);
    hide Word, Turn;
    if b <= a {
      TurnBack(Word(CODES[j], false), Word(CODES[k], false), a, b);
      WordsApart(j, k, a - b);
    } else {
      TurnBack(Word(CODES[k], false), Word(CODES[j], false), b, a);
      WordsApart(k, j, b - a);
    }
  }

  /** So the table looks a window up to code k if and only if it is code k at some bit phase. */
  lemma LookupIff(w: Bits, k: nat)
    requires k < |CODES|
    ensures Lookup(w) == k <==> InClass(w, k)
  {
    if InClass(w, k) {
      assert Lookup(w) >= 0;
      ClassesDisjoint(w, Lookup(w), k);
    }
  }
}
