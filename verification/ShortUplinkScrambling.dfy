/** ShortUplinkScrambler: the quaternary and binary registers behind the short code of section 4.3.2.3 of 3GPP TS 25.213. */
module ShortUplinkScrambling {
  import opened Gf2
  import opened Scrambler

  /** A quaternary digit; its arithmetic is modulo 4. */
  type Digit = bv2
  type Digits = nat -> Digit

  function Twice(b: bool): Digit { if b then 2 else 0 }

  // ---- the sequences of the standard ----

  /** The quaternary recurrence, with a(i + 8) on its left. */
  function SumA(a0: Digit, a1: Digit, a2: Digit, a3: Digit, a5: Digit): Digit {
    3 * a0 + 2 * a1 + 3 * a2 + a3 + 3 * a5
  }

  function A(n: Word, i: nat): Digit
    decreases i
  {
    if i == 0 then Twice(NumberBit(n, 0)) + 1
    else if i < 8 then Twice(NumberBit(n, i))
    else SumA(A(n, i - 8), A(n, i - 7), A(n, i - 6), A(n, i - 5), A(n, i - 3))
  }

  function B(n: Word, i: nat): bool
    decreases i
  {
    if i < 8 then NumberBit(n, i + 8) else Xor(B(n, i - 1), Xor(B(n, i - 3), Xor(B(n, i - 7), B(n, i - 8))))
  }

  function D(n: Word, i: nat): bool
    decreases i
  {
    if i < 8 then NumberBit(n, i + 16) else Xor(D(n, i - 1), Xor(D(n, i - 3), Xor(D(n, i - 4), D(n, i - 8))))
  }

  /** z_n(i). */
  function Z(n: Word, i: nat): Digit {
    A(n, i) + Twice(B(n, i)) + Twice(D(n, i))
  }

  /** The two columns of the mapping table. */
  function C1(z: Digit): int {
    if z == 0 || z == 3 then 1 else -1
  }

  function C2(z: Digit): int {
    if z == 0 || z == 1 then 1 else -1
  }

  /** One digit more turns the pair of chips, seen as a complex number, by a quarter. */
  lemma DigitTurns(z: Digit)
    ensures C1(0) == C2(0) == 1 && C1(z + 1) == -C2(z) && C2(z + 1) == C1(z)
  {
  }

  // ---- the registers ----

  function Low2(r: bv16): Digit { (r & 3) as bv2 }

  function ShiftIn(r: bv16, d: Digit): bv16 {
    (r >> 2) | ((d as bv16) << 14)
  }

  /** The register holds s(i) to s(i + 7), two bits each. */
  predicate WindowA(r: bv16, s: Digits, i: nat) {
    && Low2(r) == s(i) && Low2(r >> 2) == s(i + 1) && Low2(r >> 4) == s(i + 2) && Low2(r >> 6) == s(i + 3)
    && Low2(r >> 8) == s(i + 4) && Low2(r >> 10) == s(i + 5) && Low2(r >> 12) == s(i + 6) && Low2(r >> 14) == s(i + 7)
  }

  predicate Window(r: bv8, s: Bits, i: nat) {
    && (r & 0x1 != 0) == s(i) && (r & 0x2 != 0) == s(i + 1) && (r & 0x4 != 0) == s(i + 2) && (r & 0x8 != 0) == s(i + 3)
    && (r & 0x10 != 0) == s(i + 4) && (r & 0x20 != 0) == s(i + 5) && (r & 0x40 != 0) == s(i + 6) && (r & 0x80 != 0) == s(i + 7)
  }

  ghost predicate RuleA(s: Digits) {
    forall i: nat :: StepA(s, i)
  }

  predicate StepA(s: Digits, i: nat) {
    s(i + 8) == SumA(s(i), s(i + 1), s(i + 2), s(i + 3), s(i + 5))
  }

  ghost predicate RuleB(s: Bits) {
    forall i: nat :: StepB(s, i)
  }

  predicate StepB(s: Bits, i: nat) {
    s(i + 8) == Xor(s(i), Xor(s(i + 1), Xor(s(i + 5), s(i + 7))))
  }

  ghost predicate RuleD(s: Bits) {
    forall i: nat :: StepD(s, i)
  }

  predicate StepD(s: Bits, i: nat) {
    s(i + 8) == Xor(s(i), Xor(s(i + 4), Xor(s(i + 5), s(i + 7))))
  }

  function As(n: Word): Digits { (i: nat) => A(n, i) }
  function Bs(n: Word): Bits { (i: nat) => B(n, i) }
  function Ds(n: Word): Bits { (i: nat) => D(n, i) }

  lemma Recurrences(n: Word)
    ensures RuleA(As(n)) && RuleB(Bs(n)) && RuleD(Ds(n))
  {
    forall i: nat ensures StepA(As(n), i) && StepB(Bs(n), i) && StepD(Ds(n), i) {
      assert i + 8 - 7 == i + 1 && i + 8 - 6 == i + 2 && i + 8 - 5 == i + 3;
    }
  }

  lemma ShiftInDigits(r: bv16, d: Digit)
    ensures Low2(ShiftIn(r, d)) == Low2(r >> 2) && Low2(ShiftIn(r, d) >> 2) == Low2(r >> 4)
    ensures Low2(ShiftIn(r, d) >> 4) == Low2(r >> 6) && Low2(ShiftIn(r, d) >> 6) == Low2(r >> 8)
    ensures Low2(ShiftIn(r, d) >> 8) == Low2(r >> 10) && Low2(ShiftIn(r, d) >> 10) == Low2(r >> 12)
    ensures Low2(ShiftIn(r, d) >> 12) == Low2(r >> 14) && Low2(ShiftIn(r, d) >> 14) == d
  {
  }

  lemma ShiftedWindow(r: bv16, d: Digit, s: Digits, i: nat)
    requires WindowA(r, s, i) && d == s(i + 8)
    ensures WindowA(ShiftIn(r, d), s, i + 1)
  {
    ShiftInDigits(r, d);
  }

  /** After i rounds of the first loop the i upper digits are twice the bits of the scrambling number. */
  predicate Packed(r: bv16, n: Word, i: nat) {
    && Low2(r) == (if i > 7 then Twice(NumberBit(n, 0)) else 0)
    && Low2(r >> 2) == (if i > 6 then Twice(NumberBit(n, 1)) else 0)
    && Low2(r >> 4) == (if i > 5 then Twice(NumberBit(n, 2)) else 0)
    && Low2(r >> 6) == (if i > 4 then Twice(NumberBit(n, 3)) else 0)
    && Low2(r >> 8) == (if i > 3 then Twice(NumberBit(n, 4)) else 0)
    && Low2(r >> 10) == (if i > 2 then Twice(NumberBit(n, 5)) else 0)
    && Low2(r >> 12) == (if i > 1 then Twice(NumberBit(n, 6)) else 0)
    && Low2(r >> 14) == (if i > 0 then Twice(NumberBit(n, 7)) else 0)
  }

  /** A bit of the scrambling number, in the width of register A. */
  function BitOf(n: Word, k: nat): bv16
    requires k < 8
  {
    ((n >> k) & 0x01) as bv16
  }

  lemma BitOfNumber(n: Word, k: nat)
    requires k < 8
    ensures BitOf(n, k) == if NumberBit(n, k) then 1 else 0
  {
    if k == 0 {
    } else if k == 1 {
    } else if k == 2 {
    } else if k == 3 {
    } else if k == 4 {
    } else if k == 5 {
    } else if k == 6 {
    } else {
    }
  }

  /** The body of the first loop. */
  function PackBit(r: bv16, n: Word, i: nat): bv16
    requires i < 8
  {
    r | (BitOf(n, 7 - i) << (15 - 2 * i))
  }

  lemma PackNext(r: bv16, n: Word, i: nat)
    requires i < 8 && Packed(r, n, i)
    ensures Packed(PackBit(r, n, i), n, i + 1)
  {
    BitOfNumber(n, 7 - i);
    if i < 4 {
      PackUpper(r, n, i);
    } else if i < 6 {
      PackMiddle(r, n, i);
    } else {
      PackLower(r, n, i);
    }
  }

  lemma PackUpper(r: bv16, n: Word, i: nat)
    requires i < 4 && Packed(r, n, i)
    requires BitOf(n, 7 - i) == if NumberBit(n, 7 - i) then 1 else 0
    ensures Packed(PackBit(r, n, i), n, i + 1)
  {
    if i == 0 {
    } else if i == 1 {
    } else if i == 2 {
    } else {
    }
  }

  lemma PackMiddle(r: bv16, n: Word, i: nat)
    requires 4 <= i < 6 && Packed(r, n, i)
    requires BitOf(n, 7 - i) == if NumberBit(n, 7 - i) then 1 else 0
    ensures Packed(PackBit(r, n, i), n, i + 1)
  {
    if i == 4 {
    } else {
    }
  }

  lemma PackLower(r: bv16, n: Word, i: nat)
    requires 6 <= i < 8 && Packed(r, n, i)
    requires BitOf(n, 7 - i) == if NumberBit(n, 7 - i) then 1 else 0
    ensures Packed(PackBit(r, n, i), n, i + 1)
  {
    if i == 6 {
    } else {
    }
  }

  lemma PackedZero(n: Word)
    ensures Packed(0, n, 0)
  {
  }

  lemma PackedIncrement(r: bv16, n: Word)
    requires Packed(r, n, 8)
    ensures WindowA(r + 1, As(n), 0)
  {
  }

  function Byte(n: Word): bv8 { (n & 0xff) as bv8 }

  lemma ShiftTwice(n: Word)
    ensures (n >> 8) >> 8 == n >> 16
  {
  }

  lemma StartB(n: Word)
    ensures Window(Byte(n >> 8), Bs(n), 0)
  {
  }

  lemma StartD(n: Word)
    ensures Window(Byte(n >> 16), Ds(n), 0)
  {
  }

  // ---- the chips ----

  /** Row 0 of the mapping matrix, "+1 -1 -1 +1". */
  function Row0(z: bv8): int {
    if z == 0 then 1 else if z == 1 then -1 else if z == 2 then -1 else 1
  }

  /** Row 0 of the code's matrix is the first column of the standard's table. */
  lemma DigitSum(ra: bv16, rb: bv8, rd: bv8, a: Digits, b: Bits, d: Bits, i: nat)
    requires WindowA(ra, a, i) && Window(rb, b, i) && Window(rd, d, i)
    ensures Row0(((ra & 3) as bv8 + 2 * (rb & 1) + 2 * (rd & 1)) % 4) == C1(a(i) + Twice(b(i)) + Twice(d(i)))
  {
  }

  /** The imaginary part as the standard defines it, and as the code computes it. */
  function StandardImag(n: Word, i: nat): int { Signed(i, C1(Z(n, i)), C2(Z(n, EvenBelow(i)))) }
  function CodeImag(n: Word, i: nat): int { Signed(i, C1(Z(n, i)), C1(Z(n, EvenBelow(i)))) }

  /** The parity of the digits, which is the same for every scrambling number. */
  function OddDigit(i: nat): bool {
    if i < 8 then i == 0 else Xor(OddDigit(i - 8), Xor(OddDigit(i - 6), Xor(OddDigit(i - 5), OddDigit(i - 3))))
  }

  lemma SumParity(a0: Digit, a1: Digit, a2: Digit, a3: Digit, a5: Digit)
    ensures (SumA(a0, a1, a2, a3, a5) & 1 != 0) == Xor(a0 & 1 != 0, Xor(a2 & 1 != 0, Xor(a3 & 1 != 0, a5 & 1 != 0)))
  {
  }

  lemma {:induction false} DigitParity(n: Word, i: nat)
    ensures (A(n, i) & 1 != 0) == OddDigit(i)
    decreases i
  {
    if i >= 8 {
      DigitParity(n, i - 8);
      DigitParity(n, i - 6);
      DigitParity(n, i - 5);
      DigitParity(n, i - 3);
      SumParity(A(n, i - 8), A(n, i - 7), A(n, i - 6), A(n, i - 5), A(n, i - 3));
    }
  }

  /** The code takes c_short,2 from the row of c_short,1. The chips that this spoils are the same for every scrambling number. */
  lemma ImagIsStandard(n: Word, i: nat)
    ensures CodeImag(n, i) == StandardImag(n, i) <==> !OddDigit(EvenBelow(i))
  {
    var k := EvenBelow(i);
    DigitParity(n, k);
    assert (Z(n, k) & 1 != 0) == OddDigit(k);
  }

  /** The first two chips are among them. */
  lemma FirstChipsSpoiled(n: Word)
    ensures CodeImag(n, 0) != StandardImag(n, 0) && CodeImag(n, 1) != StandardImag(n, 1)
  {
    ImagIsStandard(n, 0);
    ImagIsStandard(n, 1);
  }

  /** The three registers hold the sequences from place i on. */
  predicate Holds(ra: bv16, rb: bv8, rd: bv8, n: Word, i: nat) {
    WindowA(ra, As(n), i) && Window(rb, Bs(n), i) && Window(rd, Ds(n), i)
  }

  class ShortUplinkScrambler {
    var seqNum: Word
    const seqLen: nat := 255
    const c1: array<int>
    const c2: array<int>
    const cReal: array<int>
    const cImag: array<int>

    predicate Sized() {
      && c1.Length == c2.Length == cReal.Length == cImag.Length == seqLen
      && c1 != c2 && c1 != cReal && c1 != cImag && c2 != cReal && c2 != cImag && cReal != cImag
    }

    constructor (n: Word)
      ensures seqNum == n && Sized()
      ensures fresh(c1) && fresh(c2) && fresh(cReal) && fresh(cImag)
    {
      seqNum := n;
      c1 := new int[255];
      c2 := new int[255];
      cReal := new int[255];
      cImag := new int[255];
    }

    /** The first chips of the vectors. */
    ghost predicate Filled(n: Word, count: nat)
      requires Sized()
      reads c1, c2, cReal, cImag
    {
      forall k :: 0 <= k < count <= seqLen ==>
        c1[k] == c2[k] == cReal[k] == C1(Z(n, k)) && cImag[k] == CodeImag(n, k)
    }

    /** The digits z and the chips made of them; the scrambling number is shifted out on the way. */
    method Generate()
      requires Sized()
      modifies this`seqNum, c1, c2, cReal, cImag
      ensures Filled(old(seqNum), seqLen)
      ensures seqNum == old(seqNum) >> 16
    {
      ghost var n := seqNum;
      var registerA := PresetA(n);
      var registerB, registerD := PresetBD(n);
      Run(registerA, registerB, registerD, n);
    }

    /** The second loop. */
    method Run(presetA: bv16, presetB: bv8, presetD: bv8, ghost n: Word)
      requires Sized() && Holds(presetA, presetB, presetD, n, 0)
      modifies c1, c2, cReal, cImag
      ensures Filled(n, seqLen)
    {
      var registerA, registerB, registerD := presetA, presetB, presetD;
      for i := 0 to seqLen
        invariant Holds(registerA, registerB, registerD, n, i)
        invariant Filled(n, i)
      {
        var chip := ChipOf(registerA, registerB, registerD, n, i);
        StoreChip(i, chip, n);
        registerA, registerB, registerD := Clock(registerA, registerB, registerD, n, i);
      }
    }

    /** One clock of the three registers. */
    method Clock(registerA: bv16, registerB: bv8, registerD: bv8, ghost n: Word, ghost i: nat)
      returns (nextA: bv16, nextB: bv8, nextD: bv8)
      requires Holds(registerA, registerB, registerD, n, i)
      ensures Holds(nextA, nextB, nextD, n, i + 1)
    {
      Recurrences(n);
      nextA := ClockA(registerA, As(n), i);
      nextB := ClockB(registerB, Bs(n), i);
      nextD := ClockD(registerD, Ds(n), i);
    }

    /** The first loop. */
    method PresetA(ghost n: Word) returns (registerA: bv16)
      requires n == seqNum
      ensures WindowA(registerA, As(n), 0)
    {
      PackedZero(n);
      registerA := 0;
      for i := 0 to 8
        invariant Packed(registerA, n, i)
      {
        PackNext(registerA, n, i);
        registerA := PackBit(registerA, seqNum, i);
      }
      PackedIncrement(registerA, n);
      registerA := registerA + 1;
    }

    method PresetBD(ghost n: Word) returns (registerB: bv8, registerD: bv8)
      requires n == seqNum
      modifies this`seqNum
      ensures Window(registerB, Bs(n), 0) && Window(registerD, Ds(n), 0)
      ensures seqNum == n >> 16
    {
      StartB(n);
      StartD(n);
      ShiftTwice(n);
      seqNum := seqNum >> 8;
      registerB := Byte(seqNum);
      seqNum := seqNum >> 8;
      registerD := Byte(seqNum);
    }

    method ChipOf(registerA: bv16, registerB: bv8, registerD: bv8, ghost n: Word, ghost i: nat) returns (chip: int)
      requires Holds(registerA, registerB, registerD, n, i)
      ensures chip == C1(Z(n, i))
    {
      DigitSum(registerA, registerB, registerD, As(n), Bs(n), Ds(n), i);
      var z := ((registerA & 3) as bv8 + 2 * (registerB & 1) + 2 * (registerD & 1)) % 4;
      chip := Row0(z);
    }

    method StoreChip(i: nat, chip: int, ghost n: Word)
      requires Sized() && i < seqLen && Filled(n, i) && chip == C1(Z(n, i))
      modifies c1, c2, cReal, cImag
      ensures Filled(n, i + 1)
    {
      c1[i] := chip;
      c2[i] := chip;
      cReal[i] := c1[i];
      if i % 2 == 0 {
        cImag[i] := c1[i] * c2[i];
      } else {
        cImag[i] := (-1) * c1[i] * c2[i - 1];
      }
    }

    /** The quaternary feedback, summed in eight bits and reduced at the end. */
    method ClockA(registerA: bv16, ghost s: Digits, ghost i: nat) returns (nextA: bv16)
      requires RuleA(s) && WindowA(registerA, s, i)
      ensures WindowA(nextA, s, i + 1)
    {
      var newA := SumTaps(registerA, s, i);
      nextA := registerA >> 2;
      nextA := nextA | ((newA as bv16) << 14);
      ShiftedWindow(registerA, newA as bv2, s, i);
    }

    method SumTaps(registerA: bv16, ghost s: Digits, ghost i: nat) returns (newA: bv8)
      requires RuleA(s) && WindowA(registerA, s, i)
      ensures newA < 4 && newA as bv2 == s(i + 8)
    {
      assert StepA(s, i);
      var tmpA := registerA;
      newA := 3 * ((tmpA & 3) as bv8);
      tmpA := tmpA >> 2;
      newA := newA + 2 * ((tmpA & 3) as bv8);
      tmpA := tmpA >> 2;
      newA := newA + 3 * ((tmpA & 3) as bv8);
      tmpA := tmpA >> 2;
      newA := newA + 1 * ((tmpA & 3) as bv8);
      tmpA := tmpA >> 4;
      newA := newA + 3 * ((tmpA & 3) as bv8);
      newA := newA % 4;
    }

    method ClockB(registerB: bv8, ghost s: Bits, ghost i: nat) returns (nextB: bv8)
      requires RuleB(s) && Window(registerB, s, i)
      ensures Window(nextB, s, i + 1)
    {
      assert StepB(s, i);
      var tmpB := registerB;
      var newB := tmpB & 1;
      tmpB := tmpB >> 1;
      newB := newB ^ (tmpB & 1);
      tmpB := tmpB >> 4;
      newB := newB ^ (tmpB & 1);
      tmpB := tmpB >> 2;
      newB := newB ^ (tmpB & 1);
      nextB := registerB >> 1;
      nextB := nextB | (newB << 7);
    }

    method ClockD(registerD: bv8, ghost s: Bits, ghost i: nat) returns (nextD: bv8)
      requires RuleD(s) && Window(registerD, s, i)
      ensures Window(nextD, s, i + 1)
    {
      assert StepD(s, i);
      var tmpD := registerD;
      var newD := tmpD & 1;
      tmpD := tmpD >> 4;
      newD := newD ^ (tmpD & 1);
      tmpD := tmpD >> 1;
      newD := newD ^ (tmpD & 1);
      tmpD := tmpD >> 2;
      newD := newD ^ (tmpD & 1);
      nextD := registerD >> 1;
      nextD := nextD | (newD << 7);
    }
  }
}
