/** DownlinkScrambler: the shift registers behind S_dl,n of section 5.2.2 of 3GPP TS 25.213. */
module DownlinkScrambling {
  import opened Gf2
  import opened Feedback
  import opened Scrambler
  import ShiftByTaps

  const PERIOD: nat := 262143

  // ---- the sequences of the standard ----

  function X(i: nat): bool {
    if i < 18 then i == 0 else Xor(X(i - 11), X(i - 18))
  }

  function Y(i: nat): bool {
    if i < 18 then true else Xor(Y(i - 8), Xor(Y(i - 11), Xor(Y(i - 13), Y(i - 18))))
  }

  /** z_n(i), for i below the period. */
  function Z(n: nat, i: nat): bool {
    Xor(X((i + n) % PERIOD), Y(i))
  }

  /** Taking y away from a code leaves x, read from the scrambling number on: the codes are shifts against each other. */
  lemma NumberShifts(n: nat, i: nat)
    ensures var k := (i + n) % PERIOD; Xor(Z(n, i), Y(i)) == Xor(Z(0, k), Y(k))
    ensures Xor(Z(n + 1, i), Y(i)) == Xor(Z(n, i + 1), Y(i + 1))
  {
  }

  function Xs(): Bits { (i: nat) => X(i) }
  function Ys(): Bits { (i: nat) => Y(i) }

  lemma Recurrences()
    ensures DownlinkX(Xs()) && DownlinkY(Ys())
  {
    forall j: nat ensures StepDownlinkX(Xs(), j) && StepDownlinkY(Ys(), j) {
      assert j + 18 - 11 == j + 7 && j + 18 - 8 == j + 10 && j + 18 - 13 == j + 5;
    }
  }

  lemma {:induction false} XModPeriod(k: nat)
    ensures X(k) == X(k % PERIOD)
    decreases k
  {
    if k >= PERIOD {
      Recurrences();
      ShiftByTaps.DownlinkPeriod(Xs(), k - PERIOD);
      assert Xs()(k) == X(k) && Xs()(k - PERIOD) == X(k - PERIOD);
      XModPeriod(k - PERIOD);
      assert (k - PERIOD) % PERIOD == k % PERIOD;
    }
  }

  /** The sequences that the registers produce are those of the standard, whose index reduction makes no difference. */
  lemma IsStandard(n: nat, i: nat)
    requires i + 131072 < PERIOD
    ensures Xor(Xs()(n + i), Ys()(i)) == Z(n, i)
    ensures Xor(Xs()(n + i + 131072), Ys()(i + 131072)) == Z(n, (i + 131072) % PERIOD)
  {
    XModPeriod(i + n);
    XModPeriod(i + 131072 + n);
  }

  // ---- the registers, as words ----

  /** One clock of register X. */
  function NextX(r: Word): Word {
    (r >> 1) | (Val(Xor(r & 0x1 != 0, r & 0x80 != 0)) << 17)
  }

  /** One clock of register Y. */
  function NextY(r: Word): Word {
    (r >> 1) | (Val(Xor(Xor(Xor(r & 0x1 != 0, r & 0x20 != 0), r & 0x80 != 0), r & 0x400 != 0)) << 17)
  }

  function RegisterX(i: nat): Word { if i == 0 then 0x01 else NextX(RegisterX(i - 1)) }
  function RegisterY(i: nat): Word { if i == 0 then 0x3ffff else NextY(RegisterY(i - 1)) }

  // ---- what the registers hold ----

  /** The register holds s(i) to s(i + 17), and nothing above. */
  predicate Window(r: Word, s: Bits, i: nat) {
    && r & 0xfffc_0000 == 0
    && (r & 0x1 != 0) == s(i) && (r & 0x2 != 0) == s(i + 1) && (r & 0x4 != 0) == s(i + 2)
    && (r & 0x8 != 0) == s(i + 3) && (r & 0x10 != 0) == s(i + 4) && (r & 0x20 != 0) == s(i + 5)
    && (r & 0x40 != 0) == s(i + 6) && (r & 0x80 != 0) == s(i + 7) && (r & 0x100 != 0) == s(i + 8)
    && (r & 0x200 != 0) == s(i + 9) && (r & 0x400 != 0) == s(i + 10) && (r & 0x800 != 0) == s(i + 11)
    && (r & 0x1000 != 0) == s(i + 12) && (r & 0x2000 != 0) == s(i + 13) && (r & 0x4000 != 0) == s(i + 14)
    && (r & 0x8000 != 0) == s(i + 15) && (r & 0x10000 != 0) == s(i + 16) && (r & 0x20000 != 0) == s(i + 17)
  }

  /** The sequence determines the register. */
  lemma WindowUnique(a: Word, b: Word, s: Bits, i: nat)
    requires Window(a, s, i) && Window(b, s, i)
    ensures a == b
  {
  }

  lemma NextXWindow(r: Word, s: Bits, i: nat)
    requires DownlinkX(s) && Window(r, s, i)
    ensures Window(NextX(r), s, i + 1)
  {
    assert StepDownlinkX(s, i);
  }

  lemma NextYWindow(r: Word, s: Bits, i: nat)
    requires DownlinkY(s) && Window(r, s, i)
    ensures Window(NextY(r), s, i + 1)
  {
    assert StepDownlinkY(s, i);
  }

  lemma {:induction false} RegisterXWindow(s: Bits, i: nat)
    requires DownlinkX(s) && Window(0x01, s, 0)
    ensures Window(RegisterX(i), s, i)
  {
    if i > 0 {
      RegisterXWindow(s, i - 1);
      NextXWindow(RegisterX(i - 1), s, i - 1);
    }
  }

  lemma {:induction false} RegisterYWindow(s: Bits, i: nat)
    requires DownlinkY(s) && Window(0x3ffff, s, 0)
    ensures Window(RegisterY(i), s, i)
  {
    if i > 0 {
      RegisterYWindow(s, i - 1);
      NextYWindow(RegisterY(i - 1), s, i - 1);
    }
  }

  lemma Starts()
    ensures Window(0x01, Xs(), 0) && Window(0x3ffff, Ys(), 0)
  {
  }

  // ---- what the chips are ----

  /** The ten taps of y, added to b in the order of the code. */
  predicate LowSum(b: bool, s: Bits, i: nat) {
    Xor(Xor(Xor(Xor(Xor(b, s(i + 5)), s(i + 6)), s(i + 8)), s(i + 9)), s(i + 10))
  }

  predicate HighSum(b: bool, s: Bits, i: nat) {
    Xor(Xor(Xor(Xor(Xor(b, s(i + 11)), s(i + 12)), s(i + 13)), s(i + 14)), s(i + 15))
  }

  lemma SumOfTaps(b: bool, s: Bits, i: nat)
    ensures HighSum(LowSum(b, s, i), s, i) == Xor(b, ShiftByTaps.QuadratureY(s, i))
  {
  }

  /** The in-phase bit. */
  lemma LowBits(rx: Word, ry: Word, x: Bits, y: Bits, j: nat, i: nat)
    requires Window(rx, x, j) && Window(ry, y, i)
    ensures LSB(rx) ^ LSB(ry) == Val(Xor(x(j), y(i)))
  {
  }

  /** Sequences that obey the feedback rules and start like the registers. */
  ghost predicate Driven(x: Bits, y: Bits) {
    DownlinkX(x) && DownlinkY(y) && Window(0x01, x, 0) && Window(0x3ffff, y, 0)
  }

  lemma InPhaseBit(x: Bits, y: Bits, j: nat, i: nat)
    requires Driven(x, y)
    ensures Mapping(LSB(RegisterX(j)) ^ LSB(RegisterY(i))) == Chip(Xor(x(j), y(i)))
  {
    RegisterXWindow(x, j);
    RegisterYWindow(y, i);
    LowBits(RegisterX(j), RegisterY(i), x, y, j, i);
    MappedBit(Xor(x(j), y(i)));
  }

  /** Adding the taps of y one after the other adds y(i + 131072). */
  lemma SumOfTapsShifted(b: bool, s: Bits, i: nat)
    requires DownlinkY(s)
    ensures HighSum(LowSum(b, s, i), s, i) == Xor(b, s(i + 131072))
  {
    SumOfTaps(b, s, i);
    ShiftByTaps.DownlinkYShift(s, i);
  }

  /** The two chips of a step, at place j of x and place i of y. */
  function InPhase(x: Bits, y: Bits, j: nat, i: nat): int {
    Chip(Xor(x(j), y(i)))
  }

  function Quadrature(x: Bits, y: Bits, j: nat, i: nat): int {
    Chip(Xor(x(j + 131072), y(i + 131072)))
  }

  /** The chips of step i with scrambling number n. */
  function RealChip(x: Bits, y: Bits, n: nat, i: nat): int { InPhase(x, y, n + i, i) }
  function ImagChip(x: Bits, y: Bits, n: nat, i: nat): int { Quadrature(x, y, n + i, i) }

  class DownlinkScrambler {
    var seqNum: nat
    const seqLen: nat := 38400
    const cReal: array<int>
    const cImag: array<int>

    predicate Sized() {
      cReal.Length == cImag.Length == seqLen && cReal != cImag
    }

    constructor (n: nat)
      ensures seqNum == n && fresh(cReal) && fresh(cImag) && Sized()
    {
      seqNum := n;
      cReal := new int[38400];
      cImag := new int[38400];
    }

    /** Fills both branches with the sequence that the standard defines for this scrambling number. */
    method Generate()
      requires Sized()
      modifies cReal, cImag
      ensures forall i :: 0 <= i < seqLen ==> cReal[i] == Chip(Z(seqNum, i))
      ensures forall i :: 0 <= i < seqLen ==> cImag[i] == Chip(Z(seqNum, (i + 131072) % PERIOD))
    {
      Recurrences();
      Starts();
      Clock(Xs(), Ys());
      forall i | 0 <= i < seqLen
        ensures cReal[i] == Chip(Z(seqNum, i)) && cImag[i] == Chip(Z(seqNum, (i + 131072) % PERIOD))
      {
        IsStandard(seqNum, i);
      }
    }

    /** The first chips of both branches are those of the sequences. */
    ghost predicate Filled(x: Bits, y: Bits, count: nat)
      requires Sized()
      reads this, cReal, cImag
    {
      forall k :: 0 <= k < count <= seqLen ==> cReal[k] == RealChip(x, y, seqNum, k) && cImag[k] == ImagChip(x, y, seqNum, k)
    }

    /** The two loops. */
    method Clock(ghost x: Bits, ghost y: Bits)
      requires Sized() && Driven(x, y)
      modifies cReal, cImag
      ensures Filled(x, y, seqLen)
    {
      var registerX := Skip(x, y);
      var registerY: Word := 0x3ffff;
      ghost var j := seqNum;
      for i := 0 to seqLen
        invariant j == seqNum + i
        invariant registerX == RegisterX(j) && registerY == RegisterY(i)
        invariant Filled(x, y, i)
      {
        var re, im;
        registerX, registerY, re, im := NextChip(registerX, registerY, x, y, j, i);
        StoreChip(i, re, im, x, y, j);
        j := j + 1;
      }
    }

    /** The first loop. */
    method Skip(ghost x: Bits, ghost y: Bits) returns (registerX: Word)
      requires Driven(x, y)
      ensures registerX == RegisterX(seqNum)
    {
      registerX := 0x01;
      for i := 0 to seqNum
        invariant registerX == RegisterX(i)
      {
        registerX := SkipX(registerX, x, y, i);
      }
    }

    /** The end of the body of the second loop. */
    method StoreChip(i: nat, re: int, im: int, ghost x: Bits, ghost y: Bits, ghost j: nat)
      requires Sized() && i < seqLen && Filled(x, y, i)
      requires j == seqNum + i && re == InPhase(x, y, j, i) && im == Quadrature(x, y, j, i)
      modifies cReal, cImag
      ensures Filled(x, y, i + 1)
    {
      cReal[i], cImag[i] := re, im;
    }

    /** The body of the first loop: one clock of register X. */
    method SkipX(registerX: Word, ghost x: Bits, ghost y: Bits, ghost i: nat) returns (nextX: Word)
      requires Driven(x, y) && registerX == RegisterX(i)
      ensures nextX == RegisterX(i + 1)
    {
      RegisterXWindow(x, i);
      nextX := ClockXOnly(registerX, x, i);
      RegisterXWindow(x, i + 1);
      WindowUnique(nextX, RegisterX(i + 1), x, i + 1);
    }

    method ClockXOnly(registerX: Word, ghost s: Bits, ghost i: nat) returns (nextX: Word)
      requires DownlinkX(s) && Window(registerX, s, i)
      ensures Window(nextX, s, i + 1)
    {
      assert StepDownlinkX(s, i);
      var tmpX := registerX;
      var newX := LSB(tmpX);
      tmpX := tmpX >> 7;
      newX := newX ^ LSB(tmpX);
      nextX := registerX >> 1;
      nextX := nextX | (newX << 17);
    }

    /** Both output bits, and one clock of both registers. */
    method NextChip(registerX: Word, registerY: Word, ghost x: Bits, ghost y: Bits, ghost j: nat, ghost i: nat)
      returns (nextX: Word, nextY: Word, re: int, im: int)
      requires Driven(x, y) && registerX == RegisterX(j) && registerY == RegisterY(i)
      ensures nextX == RegisterX(j + 1) && nextY == RegisterY(i + 1)
      ensures re == InPhase(x, y, j, i) && im == Quadrature(x, y, j, i)
    {
      re := LowChip(registerX, registerY, x, y, j, i);
      var q;
      nextX, q := StepX(registerX, x, y, j);
      nextY, q := StepY(registerY, x(j + 131072), q, x, y, i);
      MappedBit(Xor(x(j + 131072), y(i + 131072)));
      im := Mapping(q);
    }

    /** The in-phase chip. */
    method LowChip(registerX: Word, registerY: Word, ghost x: Bits, ghost y: Bits, ghost j: nat, ghost i: nat) returns (re: int)
      requires Driven(x, y) && registerX == RegisterX(j) && registerY == RegisterY(i)
      ensures re == InPhase(x, y, j, i)
    {
      InPhaseBit(x, y, j, i);
      re := Mapping(LSB(registerX) ^ LSB(registerY));
    }

    /** One clock of register X, with its part of the quadrature bit. */
    method StepX(registerX: Word, ghost x: Bits, ghost y: Bits, ghost j: nat) returns (nextX: Word, q: Word)
      requires Driven(x, y) && registerX == RegisterX(j)
      ensures nextX == RegisterX(j + 1) && q == Val(x(j + 131072))
    {
      RegisterXWindow(x, j);
      ShiftByTaps.DownlinkXShift(x, j);
      nextX, q := ClockX(registerX, x, j);
      RegisterXWindow(x, j + 1);
      WindowUnique(nextX, RegisterX(j + 1), x, j + 1);
    }

    /** One clock of register Y; its taps are added to the quadrature bit. */
    method StepY(registerY: Word, ghost b: bool, q0: Word, ghost x: Bits, ghost y: Bits, ghost i: nat)
      returns (nextY: Word, q: Word)
      requires Driven(x, y) && registerY == RegisterY(i) && q0 == Val(b)
      ensures nextY == RegisterY(i + 1) && q == Val(Xor(b, y(i + 131072)))
    {
      RegisterYWindow(y, i);
      nextY, q := TapsY(registerY, b, q0, y, i);
      SumOfTapsShifted(b, y, i);
      RegisterYWindow(y, i + 1);
      WindowUnique(nextY, RegisterY(i + 1), y, i + 1);
    }

    method TapsY(registerY: Word, ghost b: bool, q0: Word, ghost s: Bits, ghost i: nat) returns (nextY: Word, q: Word)
      requires DownlinkY(s) && Window(registerY, s, i) && q0 == Val(b)
      ensures Window(nextY, s, i + 1) && q == Val(HighSum(LowSum(b, s, i), s, i))
    {
      var tmpY: Word;
      nextY, tmpY, q := ClockY(registerY, b, q0, s, i);
      q := UpperTapsY(registerY, tmpY, LowSum(b, s, i), q, s, i);
    }

    /** The part of the body that works on register X. */
    method ClockX(registerX: Word, ghost s: Bits, ghost i: nat) returns (nextX: Word, q: Word)
      requires DownlinkX(s) && Window(registerX, s, i)
      ensures Window(nextX, s, i + 1)
      ensures q == Val(Xor(s(i + 4), Xor(s(i + 6), s(i + 15))))
    {
      assert StepDownlinkX(s, i);
      var tmpX := registerX;
      var newX := LSB(tmpX);
      tmpX := tmpX >> 4;
      q := LSB(tmpX);
      tmpX := tmpX >> 2;
      q := q ^ LSB(tmpX);
      tmpX := tmpX >> 1;
      newX := newX ^ LSB(tmpX);
      tmpX := tmpX >> 8;
      q := q ^ LSB(tmpX);
      nextX := registerX >> 1;
      nextX := nextX | (newX << 17);
    }

    /** The part that works on register Y, up to the last tap that is fed back. */
    method ClockY(registerY: Word, ghost b: bool, q0: Word, ghost s: Bits, ghost i: nat)
      returns (nextY: Word, tmpY: Word, q: Word)
      requires DownlinkY(s) && Window(registerY, s, i) && q0 == Val(b)
      ensures Window(nextY, s, i + 1) && tmpY == registerY >> 10 && q == Val(LowSum(b, s, i))
    {
      assert StepDownlinkY(s, i);
      q := q0;
      tmpY := registerY;
      var newY := LSB(tmpY);
      tmpY := tmpY >> 5;
      newY := newY ^ LSB(tmpY);
      q := q ^ LSB(tmpY);
      tmpY := tmpY >> 1;
      q := q ^ LSB(tmpY);
      tmpY := tmpY >> 1;
      newY := newY ^ LSB(tmpY);
      tmpY := tmpY >> 1;
      q := q ^ LSB(tmpY);
      tmpY := tmpY >> 1;
      q := q ^ LSB(tmpY);
      tmpY := tmpY >> 1;
      newY := newY ^ LSB(tmpY);
      q := q ^ LSB(tmpY);
      nextY := registerY >> 1;
      nextY := nextY | (newY << 17);
    }

    /** The remaining taps of register Y. */
    method UpperTapsY(ghost registerY: Word, tmp10: Word, ghost b: bool, q0: Word, ghost s: Bits, ghost i: nat) returns (q: Word)
      requires Window(registerY, s, i) && tmp10 == registerY >> 10 && q0 == Val(b)
      ensures q == Val(HighSum(b, s, i))
    {
      q := q0;
      var tmpY := tmp10;
      tmpY := tmpY >> 1;
      q := q ^ LSB(tmpY);
      tmpY := tmpY >> 1;
      q := q ^ LSB(tmpY);
      tmpY := tmpY >> 1;
      q := q ^ LSB(tmpY);
      tmpY := tmpY >> 1;
      q := q ^ LSB(tmpY);
      tmpY := tmpY >> 1;
      q := q ^ LSB(tmpY);
    }
  }
}
