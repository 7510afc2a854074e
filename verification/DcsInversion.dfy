/** Inverted polarity: the complement of a standard word is another standard word at some bit phase, so
    the 104 codes in both polarities are the same 104 classes. */
module DcsInversion {
  import opened DcsCode
  import opened DcsClasses

  // ---- The digits of a code

  /** The binary digit of n worth p. */
  predicate Digit(n: nat, p: nat)
    requires p > 0
  {
    n / p % 2 == 1
  }

  /** w starts with the nine digits of n, the lowest first. */
  predicate Reads(w: Bits, n: nat)
    requires |w| == WORD_BITS
  {
    && w[0] == Digit(n, 1) && w[1] == Digit(n, 2) && w[2] == Digit(n, 4) && w[3] == Digit(n, 8) && w[4] == Digit(n, 16)
    && w[5] == Digit(n, 32) && w[6] == Digit(n, 64) && w[7] == Digit(n, 128) && w[8] == Digit(n, 256)
  }

  lemma ThreeDigits(n: nat, x: bool, y: bool, z: bool, high: nat)
    requires n == Sum3(x, y, z) + 8 * high
    ensures x == Digit(n, 1) && y == Digit(n, 2) && z == Digit(n, 4) && n / 8 == high
  {}

  lemma NextDigits(n: nat, m: nat)
    requires m == n / 8
    ensures Digit(n, 8) == Digit(m, 1) && Digit(n, 16) == Digit(m, 2) && Digit(n, 32) == Digit(m, 4)
    ensures Digit(n, 64) == Digit(m, 8) && Digit(n, 128) == Digit(m, 16) && Digit(n, 256) == Digit(m, 32)
  {}

  /** A window starts with the digits of the code it is read as. */
  lemma ReadsCode(w: Bits)
    requires |w| == WORD_BITS
    ensures Reads(w, CodeAt(w, 0))
  {
    hide Digit, CodeAt, Sum3, Weight;
    OctalCode(w);
    var n := CodeAt(w, 0);
    var b, c := Sum3(w[3], w[4], w[5]), Sum3(w[6], w[7], w[8]);
    ThreeDigits(n, w[0], w[1], w[2], b + 8 * c);
    ThreeDigits(b + 8 * c, w[3], w[4], w[5], c);
    ThreeDigits(c, w[6], w[7], w[8], 0);
    NextDigits(n, b + 8 * c);
    NextDigits(b + 8 * c, c);
  }

  // ---- Where the complement of a standard word is framed, by code

  lemma Flip2(w: Bits)
    requires Recurs(w) && Marked(w, 0)
    requires Reads(w, 78) || Reads(w, 310) || Reads(w, 404)
    ensures Framed(Flip(w), 2)
  {}

  lemma Flip3(w: Bits)
    requires Recurs(w) && Marked(w, 0)
    requires Reads(w, 85) || Reads(w, 89) || Reads(w, 138) || Reads(w, 301) || Reads(w, 309) || Reads(w, 342) ||
      Reads(w, 436)
    ensures Framed(Flip(w), 3)
  {}

  lemma Flip4(w: Bits)
    requires Recurs(w) && Marked(w, 0)
    requires Reads(w, 60) || Reads(w, 169)
    ensures Framed(Flip(w), 4)
  {}

  lemma Flip5(w: Bits)
    requires Recurs(w) && Marked(w, 0)
    requires Reads(w, 101) || Reads(w, 165) || Reads(w, 198) || Reads(w, 300) || Reads(w, 474)
    ensures Framed(Flip(w), 5)
  {}

  lemma Flip6(w: Bits)
    requires Recurs(w) && Marked(w, 0)
    requires Reads(w, 122) || Reads(w, 249) || Reads(w, 334) || Reads(w, 358) || Reads(w, 390) || Reads(w, 407)
    ensures Framed(Flip(w), 6)
  {}

  lemma Flip7(w: Bits)
    requires Recurs(w) && Marked(w, 0)
    requires Reads(w, 181) || Reads(w, 275) || Reads(w, 458)
    ensures Framed(Flip(w), 7)
  {}

  lemma Flip8(w: Bits)
    requires Recurs(w) && Marked(w, 0)
    requires Reads(w, 265) || Reads(w, 308) || Reads(w, 339) || Reads(w, 394)
    ensures Framed(Flip(w), 8)
  {}

  lemma Flip9(w: Bits)
    requires Recurs(w) && Marked(w, 0)
    requires Reads(w, 39) || Reads(w, 92) || Reads(w, 133) || Reads(w, 233) || Reads(w, 281) || Reads(w, 298) ||
      Reads(w, 326) || Reads(w, 346) || Reads(w, 373) || Reads(w, 428)
    ensures Framed(Flip(w), 9)
  {}

  lemma Flip10(w: Bits)
    requires Recurs(w) && Marked(w, 0)
    requires Reads(w, 26) || Reads(w, 35) || Reads(w, 53) || Reads(w, 82) || Reads(w, 106) || Reads(w, 164) ||
      Reads(w, 473)
    ensures Framed(Flip(w), 10)
  {}

  lemma Flip11(w: Bits)
    requires Recurs(w) && Marked(w, 0)
    requires Reads(w, 99) || Reads(w, 173) || Reads(w, 267) || Reads(w, 306) || Reads(w, 323)
    ensures Framed(Flip(w), 11)
  {}

  lemma Flip12(w: Bits)
    requires Recurs(w) && Marked(w, 0)
    requires Reads(w, 44) || Reads(w, 114) || Reads(w, 170) || Reads(w, 266) || Reads(w, 294)
    ensures Framed(Flip(w), 12)
  {}

  lemma Flip13(w: Bits)
    requires Recurs(w) && Marked(w, 0)
    requires Reads(w, 21) || Reads(w, 41) || Reads(w, 77) || Reads(w, 109) || Reads(w, 149) || Reads(w, 185) ||
      Reads(w, 293)
    ensures Framed(Flip(w), 13)
  {}

  lemma Flip14(w: Bits)
    requires Recurs(w) && Marked(w, 0)
    requires Reads(w, 19) || Reads(w, 43) || Reads(w, 59) || Reads(w, 147) || Reads(w, 163) || Reads(w, 179) ||
      Reads(w, 227) || Reads(w, 451) || Reads(w, 467) || Reads(w, 483)
    ensures Framed(Flip(w), 14)
  {}

  lemma Flip15(w: Bits)
    requires Recurs(w) && Marked(w, 0)
    requires Reads(w, 22) || Reads(w, 150) || Reads(w, 166) || Reads(w, 230)
    ensures Framed(Flip(w), 15)
  {}

  lemma Flip16(w: Bits)
    requires Recurs(w) && Marked(w, 0)
    requires Reads(w, 76) || Reads(w, 110) || Reads(w, 205)
    ensures Framed(Flip(w), 16)
  {}

  lemma Flip17(w: Bits)
    requires Recurs(w) && Marked(w, 0)
    requires Reads(w, 25) || Reads(w, 30) || Reads(w, 90) || Reads(w, 282) || Reads(w, 409) || Reads(w, 476)
    ensures Framed(Flip(w), 17)
  {}

  lemma Flip18(w: Bits)
    requires Recurs(w) && Marked(w, 0)
    requires Reads(w, 57) || Reads(w, 58) || Reads(w, 177) || Reads(w, 182) || Reads(w, 188)
    ensures Framed(Flip(w), 18)
  {}

  lemma Flip19(w: Bits)
    requires Recurs(w) && Marked(w, 0)
    requires Reads(w, 117) || Reads(w, 124)
    ensures Framed(Flip(w), 19)
  {}

  lemma Flip20(w: Bits)
    requires Recurs(w) && Marked(w, 0)
    requires Reads(w, 201) || Reads(w, 213) || Reads(w, 217) || Reads(w, 218) || Reads(w, 238) || Reads(w, 244) ||
      Reads(w, 245)
    ensures Framed(Flip(w), 20)
  {}

  lemma Flip21(w: Bits)
    requires Recurs(w) && Marked(w, 0)
    requires Reads(w, 410) || Reads(w, 434) || Reads(w, 492)
    ensures Framed(Flip(w), 21)
  {}

  /** The complement of a word framed at its start is framed somewhere, too. */
  lemma FlipIsFramed(w: Bits) returns (r: nat)
    requires Recurs(w) && Framed(w, 0)
    ensures r < WORD_BITS && Framed(Flip(w), r)
  {
    hide CodeAt, Marked, Fed, Reads;
    ReadsCode(w);
    var n := CodeAt(w, 0);
    if n == 78 || n == 310 || n == 404 {
      Flip2(w);
      r := 2;
    } else if n == 85 || n == 89 || n == 138 || n == 301 || n == 309 || n == 342 || n == 436 {
      Flip3(w);
      r := 3;
    } else if n == 60 || n == 169 {
      Flip4(w);
      r := 4;
    } else if n == 101 || n == 165 || n == 198 || n == 300 || n == 474 {
      Flip5(w);
      r := 5;
    } else if n == 122 || n == 249 || n == 334 || n == 358 || n == 390 || n == 407 {
      Flip6(w);
      r := 6;
    } else if n == 181 || n == 275 || n == 458 {
      Flip7(w);
      r := 7;
    } else if n == 265 || n == 308 || n == 339 || n == 394 {
      Flip8(w);
      r := 8;
    } else if n == 39 || n == 92 || n == 133 || n == 233 || n == 281 || n == 298 || n == 326 || n == 346 || n == 373 ||
       n == 428 {
      Flip9(w);
      r := 9;
    } else if n == 26 || n == 35 || n == 53 || n == 82 || n == 106 || n == 164 || n == 473 {
      Flip10(w);
      r := 10;
    } else if n == 99 || n == 173 || n == 267 || n == 306 || n == 323 {
      Flip11(w);
      r := 11;
    } else if n == 44 || n == 114 || n == 170 || n == 266 || n == 294 {
      Flip12(w);
      r := 12;
    } else if n == 21 || n == 41 || n == 77 || n == 109 || n == 149 || n == 185 || n == 293 {
      Flip13(w);
      r := 13;
    } else if n == 19 || n == 43 || n == 59 || n == 147 || n == 163 || n == 179 || n == 227 || n == 451 || n == 467 ||
       n == 483 {
      Flip14(w);
      r := 14;
    } else if n == 22 || n == 150 || n == 166 || n == 230 {
      Flip15(w);
      r := 15;
    } else if n == 76 || n == 110 || n == 205 {
      Flip16(w);
      r := 16;
    } else if n == 25 || n == 30 || n == 90 || n == 282 || n == 409 || n == 476 {
      Flip17(w);
      r := 17;
    } else if n == 57 || n == 58 || n == 177 || n == 182 || n == 188 {
      Flip18(w);
      r := 18;
    } else if n == 117 || n == 124 {
      Flip19(w);
      r := 19;
    } else if n == 201 || n == 213 || n == 217 || n == 218 || n == 238 || n == 244 || n == 245 {
      Flip20(w);
      r := 20;
    } else if n == 410 || n == 434 || n == 492 {
      Flip21(w);
      r := 21;
    } else {
      assert false;
    }
  }

  // ---- A codeword is its first twelve bits

  lemma {:induction false} FirstTwelve(v: Bits, u: Bits, i: nat)
    requires Recurs(v) && Recurs(u) && v[..12] == u[..12] && i < WORD_BITS
    ensures v[i] == u[i]
  {
    if i < 12 {
      assert v[i] == v[..12][i] == u[..12][i] == u[i];
    } else {
      FedAt(v, i);
      FedAt(u, i);
      FirstTwelve(v, u, i - 2);
      FirstTwelve(v, u, i - 5);
      FirstTwelve(v, u, i - 8);
      FirstTwelve(v, u, i - 9);
      FirstTwelve(v, u, i - 10);
      FirstTwelve(v, u, i - 11);
      FirstTwelve(v, u, i - 12);
    }
  }

  lemma FedAt(w: Bits, i: nat)
    requires Recurs(w) && 12 <= i < WORD_BITS
    ensures Fed(w, i)
  {
    hide Fed;
  }

  /** A window reads as one code only. */
  lemma CodeBits(v: Bits, u: Bits)
    requires |v| == |u| == WORD_BITS && CodeAt(v, 0) == CodeAt(u, 0)
    ensures forall i :: 0 <= i < 9 ==> v[i] == u[i]
  {
    ReadsCode(v);
    ReadsCode(u);
    hide CodeAt, Digit;
  }

  /** A codeword that starts like a standard word is that word. */
  lemma FramedIsWord(v: Bits) returns (j: nat)
    requires Recurs(v) && Framed(v, 0)
    ensures j < |CODES| && v == Word(CODES[j], false)
  {
    j := StandardIsCode(CodeAt(v, 0));
    hide *;
    var u := Word(CODES[j], false);
    WordFramed(j);
    CodeBits(v, u);
    assert v[..12] == u[..12] by { SameMarks(v, u); }
    forall i | 0 <= i < WORD_BITS ensures v[i] == u[i] { FirstTwelve(v, u, i); }
  }

  lemma SameMarks(v: Bits, u: Bits)
    requires |v| == |u| == WORD_BITS && Marked(v, 0) && Marked(u, 0) && forall i :: 0 <= i < 9 ==> v[i] == u[i]
    ensures v[..12] == u[..12]
  {}

  lemma CodeRecurs(w: Bits)
    requires InCode(w)
    ensures Recurs(w)
  {
    hide Fed;
    forall i | 12 <= i < WORD_BITS ensures |w| == WORD_BITS && Fed(w, i) { CodewordsRecur(w, i); }
  }

  /** Every standard code sent inverted sounds like exactly one standard code. */
  lemma InvertedClass(k: nat) returns (j: nat)
    requires k < |CODES|
    ensures j < |CODES| && InClass(Word(CODES[k], true), j)
    ensures forall i :: 0 <= i < |CODES| && InClass(Word(CODES[k], true), i) ==> i == j
  {
    var w := Word(CODES[k], false);
    var f := Flip(w);
    WordFramed(k);
    var r := FlipIsFramed(w);
    WordInCode(CODES[k], true);
    j := StandardIsCode(CodeAt(f, r));
    hide Word, Turn, Recurs, Framed, InCode, InClass;
    FramedWord(f, r, j);
    forall i | 0 <= i < |CODES| && InClass(f, i) ensures i == j { ClassesDisjoint(f, i, j); }
  }

  lemma TurnedInClass(f: Bits, r: nat, j: nat)
    requires |f| == WORD_BITS && r < WORD_BITS && j < |CODES| && Turn(f, r) == Word(CODES[j], false)
    ensures InClass(f, j)
  {
    hide Word, Turn;
    WholeTurn(f);
    if r > 0 { TurnTurn(f, r, WORD_BITS - r); }
    assert f == Turn(Word(CODES[j], false), if r == 0 then 0 else WORD_BITS - r);
  }

  lemma FlipTurn(w: Bits, r: nat)
    requires |w| == WORD_BITS && r <= WORD_BITS
    ensures Flip(Turn(w, r)) == Turn(Flip(w), r) && Flip(Flip(w)) == w
  {}

  /** Codes pair off: if one inverted sounds like the other, the other inverted sounds like the one. */
  lemma InversionPairs(k: nat, j: nat)
    requires k < |CODES| && j < |CODES| && InClass(Word(CODES[k], true), j)
    ensures InClass(Word(CODES[j], true), k)
  {
    var w, v := Word(CODES[k], false), Word(CODES[j], false);
    var r :| 0 <= r < WORD_BITS && Flip(w) == Turn(v, r);
    FlipTurn(v, r);
    FlipTurn(w, 0);
    hide Word, Turn, Flip;
    assert Turn(Flip(v), r) == w;
    TurnedInClass(Flip(v), r, k);
  }

  /** The classes of the 104 inverted codes are all 104 classes: each is taken, and no two codes share one. */
  lemma InversionIsOnto(j: nat) returns (k: nat)
    requires j < |CODES|
    ensures k < |CODES| && InClass(Word(CODES[k], true), j)
    ensures forall i :: 0 <= i < |CODES| && InClass(Word(CODES[i], true), j) ==> i == k
  {
    k := InvertedClass(j);
    InversionPairs(j, k);
    hide InClass;
    forall i | 0 <= i < |CODES| && InClass(Word(CODES[i], true), j) ensures i == k { InversionPairs(i, j); }
  }

  lemma InvertedWord(code: nat)
    ensures Word(code, true) == Flip(Word(code, false))
  {}

  lemma Flip047(w: Bits)
    requires Recurs(w) && Marked(w, 0) && Reads(w, 39)
    ensures CodeAt(Flip(w), 9) == 19
  {}

  /** A word's nine code bits, its marks 0, 0, 1, and the parity that follows from them. */
  lemma WordRead(code: nat)
    requires code < 512
    ensures var w := Word(code, false); Recurs(w) && Marked(w, 0) && Reads(w, code)
  {
    WordRecurs(code);
    WordReads(code);
    WordStarts(code, 9);
    WordStarts(code, 10);
    WordStarts(code, 11);
    ReadsCode(Word(code, false));
  }

  /** 0x763813, lowest bit first. */
  const WORD_023: Bits := [true, true, false, false, true, false, false, false, false, false, false, true,
    true, true, false, false, false, true, true, false, true, true, true]

  /** 023 goes on air as the word its published tables give. */
  lemma Published023()
    ensures Word(19, false) == WORD_023
  {
    hide Word;
    WordRead(19);
  }

  /** 023 inverted is 047, and 047 inverted is 023. */
  lemma Inverted023()
    ensures CODES[0] == 19 && CODES[7] == 39 && InClass(Word(19, true), 7) && InClass(Word(39, true), 0)
  {
    hide CODES, Word, Turn, Recurs, CodeAt, InClass, InCode, Reads, Standard;
    TableSize();
    RowInCodes(0, 0);
    RowInCodes(0, 7);
    var w := Word(39, false);
    assert Word(39, true) == Flip(w) by { InvertedWord(39); }
    WordFramed(7);
    ReadsCode(w);
    Flip047(w);
    Flip9(w);
    WordInCode(39, true);
    FramedWord(Flip(w), 9, 0);
    InversionPairs(7, 0);
  }

  /** A codeword framed r bits in is in the class of the code it is framed as. */
  lemma FramedWord(f: Bits, r: nat, j: nat)
    requires InCode(f) && |f| == WORD_BITS && r < WORD_BITS && Framed(f, r) && j < |CODES| && CodeAt(f, r) == CODES[j]
    ensures InClass(f, j)
  {
    TurnStaysInCode(f, r);
    CodeRecurs(Turn(f, r));
    FramedTurn(f, r);
    var i := FramedIsWord(Turn(f, r));
    WordFramed(i);
    hide Word, Turn, Recurs, CodeAt, InClass, InCode, Framed;
    if i < j { CodesDiffer(i, j); } else if j < i { CodesDiffer(j, i); }
    TurnedInClass(f, r, i);
  }
}
