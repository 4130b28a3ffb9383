/** LongUplinkScrambler: the shift registers behind C_long,n of section 4.3.2.2 of 3GPP TS 25.213. */
module LongUplinkScrambling {
  import opened Gf2
  import opened Feedback
  import opened Scrambler
  import ShiftByTaps

  const PERIOD: nat := 33554431

  // ---- the sequences of the standard ----

  function X(n: Word, i: nat): bool
    decreases i
  {
    if i < 24 then NumberBit(n, i) else if i == 24 then true else Xor(X(n, i - 22), X(n, i - 25))
  }

  function Y(i: nat): bool {
    if i < 25 then true else Xor(Y(i - 22), Xor(Y(i - 23), Xor(Y(i - 24), Y(i - 25))))
  }

  function Xs(n: Word): Bits { (i: nat) => X(n, i) }
  function Ys(): Bits { (i: nat) => Y(i) }

  /** z_n(i), for i below the period. */
  predicate Z(n: Word, i: nat) {
    Xor(X(n, i), Y(i))
  }

  /** c_long,1,n and c_long,2,n at any chip. */
  function C1(n: Word, i: nat): int { Chip(Z(n, i % PERIOD)) }
  function C2(n: Word, i: nat): int { Chip(Z(n, (i + 16777232) % PERIOD)) }

  /** The first 24 chips tell the scrambling numbers apart. */
  lemma NumberInChips(n: Word, k: Word, i: nat)
    requires i < 24
    ensures C1(n, i) == C1(k, i) <==> NumberBit(n, i) == NumberBit(k, i)
  {
    assert i % PERIOD == i;
    ChipOfXor(X(n, i), Y(i));
    ChipOfXor(X(k, i), Y(i));
  }

  lemma Recurrences(n: Word)
    ensures LongX(Xs(n)) && LongY(Ys())
  {
    forall j: nat ensures StepLongX(Xs(n), j) && StepLongY(Ys(), j) {
      assert j + 25 - 22 == j + 3 && j + 25 - 23 == j + 2 && j + 25 - 24 == j + 1;
    }
  }

  lemma {:induction false} ModPeriod(s: Bits, k: nat)
    requires LongX(s) || LongY(s)
    ensures s(k) == s(k % PERIOD)
    decreases k
  {
    if k >= PERIOD {
      ShiftByTaps.LongPeriod(s, k - PERIOD);
      ModPeriod(s, k - PERIOD);
      assert (k - PERIOD) % PERIOD == k % PERIOD;
    }
  }

  /** The sequences that the registers produce are those of the standard, whose index reduction makes no difference. */
  lemma IsStandard(n: Word, i: nat)
    ensures Chip(Xor(Xs(n)(i), Ys()(i))) == C1(n, i)
    ensures Chip(Xor(Xs(n)(i + 16777232), Ys()(i + 16777232))) == C2(n, i)
  {
    Recurrences(n);
    ModPeriod(Xs(n), i);
    ModPeriod(Ys(), i);
    ModPeriod(Xs(n), i + 16777232);
    ModPeriod(Ys(), i + 16777232);
  }

  // ---- the registers, as words ----

  function NextA(r: Word): Word {
    (r >> 1) | (Val(Xor(r & 0x1 != 0, r & 0x8 != 0)) << 24)
  }

  function NextB(r: Word): Word {
    (r >> 1) | (Val(Xor(Xor(Xor(r & 0x1 != 0, r & 0x2 != 0), r & 0x4 != 0), r & 0x8 != 0)) << 24)
  }

  function StartA(n: Word): Word { (n & 0xffffff) | 0x1000000 }

  function RegisterA(n: Word, i: nat): Word
    decreases i
  {
    if i == 0 then StartA(n) else NextA(RegisterA(n, i - 1))
  }

  function RegisterB(i: nat): Word {
    if i == 0 then 0x1ffffff else NextB(RegisterB(i - 1))
  }

  predicate In25Bits(r: Word) {
    r & 0xfe00_0000 == 0
  }

  lemma NextStaysAlive(r: Word)
    requires In25Bits(r) && r != 0
    ensures In25Bits(NextA(r)) && NextA(r) != 0 && In25Bits(NextB(r)) && NextB(r) != 0
  {
  }

  /** Both registers are 25 bits wide and never run empty. */
  lemma {:induction false} RegistersAlive(n: Word, i: nat)
    ensures In25Bits(RegisterA(n, i)) && RegisterA(n, i) != 0
    ensures In25Bits(RegisterB(i)) && RegisterB(i) != 0
    decreases i
  {
    if i > 0 {
      RegistersAlive(n, i - 1);
      NextStaysAlive(RegisterA(n, i - 1));
      NextStaysAlive(RegisterB(i - 1));
    } else {
      assert In25Bits(StartA(n)) && StartA(n) != 0;
    }
  }

  // ---- what the registers hold ----

  /** The register holds s(i) to s(i + 24), and nothing above. */
  predicate Window(r: Word, s: Bits, i: nat) {
    && In25Bits(r)
    && (r & 0x1 != 0) == s(i) && (r & 0x2 != 0) == s(i + 1) && (r & 0x4 != 0) == s(i + 2)
    && (r & 0x8 != 0) == s(i + 3) && (r & 0x10 != 0) == s(i + 4) && (r & 0x20 != 0) == s(i + 5)
    && (r & 0x40 != 0) == s(i + 6) && (r & 0x80 != 0) == s(i + 7) && (r & 0x100 != 0) == s(i + 8)
    && (r & 0x200 != 0) == s(i + 9) && (r & 0x400 != 0) == s(i + 10) && (r & 0x800 != 0) == s(i + 11)
    && (r & 0x1000 != 0) == s(i + 12) && (r & 0x2000 != 0) == s(i + 13) && (r & 0x4000 != 0) == s(i + 14)
    && (r & 0x8000 != 0) == s(i + 15) && (r & 0x10000 != 0) == s(i + 16) && (r & 0x20000 != 0) == s(i + 17)
    && (r & 0x40000 != 0) == s(i + 18) && (r & 0x80000 != 0) == s(i + 19) && (r & 0x100000 != 0) == s(i + 20)
    && (r & 0x200000 != 0) == s(i + 21) && (r & 0x400000 != 0) == s(i + 22) && (r & 0x800000 != 0) == s(i + 23)
    && (r & 0x1000000 != 0) == s(i + 24)
  }

  /** The sequence determines the register. */
  lemma WindowUnique(a: Word, b: Word, s: Bits, i: nat)
    requires Window(a, s, i) && Window(b, s, i)
    ensures a == b
  {
  }

  lemma NextAWindow(r: Word, s: Bits, i: nat)
    requires LongX(s) && Window(r, s, i)
    ensures Window(NextA(r), s, i + 1)
  {
    assert StepLongX(s, i);
  }

  lemma NextBWindow(r: Word, s: Bits, i: nat)
    requires LongY(s) && Window(r, s, i)
    ensures Window(NextB(r), s, i + 1)
  {
    assert StepLongY(s, i);
  }

  lemma {:induction false} RegisterAWindow(n: Word, s: Bits, i: nat)
    requires LongX(s) && Window(StartA(n), s, 0)
    ensures Window(RegisterA(n, i), s, i)
    decreases i
  {
    if i > 0 {
      RegisterAWindow(n, s, i - 1);
      NextAWindow(RegisterA(n, i - 1), s, i - 1);
    }
  }

  lemma {:induction false} RegisterBWindow(s: Bits, i: nat)
    requires LongY(s) && Window(0x1ffffff, s, 0)
    ensures Window(RegisterB(i), s, i)
    decreases i
  {
    if i > 0 {
      RegisterBWindow(s, i - 1);
      NextBWindow(RegisterB(i - 1), s, i - 1);
    }
  }

  predicate LowStart(r: Word, n: Word) {
    && (r & 0x1 != 0) == X(n, 0) && (r & 0x2 != 0) == X(n, 1) && (r & 0x4 != 0) == X(n, 2)
    && (r & 0x8 != 0) == X(n, 3) && (r & 0x10 != 0) == X(n, 4) && (r & 0x20 != 0) == X(n, 5)
    && (r & 0x40 != 0) == X(n, 6) && (r & 0x80 != 0) == X(n, 7) && (r & 0x100 != 0) == X(n, 8)
    && (r & 0x200 != 0) == X(n, 9) && (r & 0x400 != 0) == X(n, 10) && (r & 0x800 != 0) == X(n, 11)
  }

  predicate HighStart(r: Word, n: Word) {
    && (r & 0x1000 != 0) == X(n, 12) && (r & 0x2000 != 0) == X(n, 13) && (r & 0x4000 != 0) == X(n, 14)
    && (r & 0x8000 != 0) == X(n, 15) && (r & 0x10000 != 0) == X(n, 16) && (r & 0x20000 != 0) == X(n, 17)
    && (r & 0x40000 != 0) == X(n, 18) && (r & 0x80000 != 0) == X(n, 19) && (r & 0x100000 != 0) == X(n, 20)
    && (r & 0x200000 != 0) == X(n, 21) && (r & 0x400000 != 0) == X(n, 22) && (r & 0x800000 != 0) == X(n, 23)
    && (r & 0x1000000 != 0) == X(n, 24)
  }

  lemma StartsLow(n: Word)
    ensures LowStart(StartA(n), n)
  {
  }

  lemma StartsHigh(n: Word)
    ensures HighStart(StartA(n), n) && In25Bits(StartA(n))
  {
  }

  lemma StartWindow(r: Word, n: Word)
    requires LowStart(r, n) && HighStart(r, n) && In25Bits(r)
    ensures Window(r, Xs(n), 0)
  {
  }

  lemma StartsA(n: Word)
    ensures Window(StartA(n), Xs(n), 0)
  {
    StartsLow(n);
    StartsHigh(n);
    StartWindow(StartA(n), n);
  }

  lemma StartsB()
    ensures Window(0x1ffffff, Ys(), 0)
  {
  }

  /** Sequences that obey the feedback rules and start like the registers. */
  ghost predicate Driven(n: Word, x: Bits, y: Bits) {
    LongX(x) && LongY(y) && Window(StartA(n), x, 0) && Window(0x1ffffff, y, 0)
  }

  lemma LowBits(ra: Word, rb: Word, x: Bits, y: Bits, i: nat)
    requires Window(ra, x, i) && Window(rb, y, i)
    ensures LSB(ra) ^ LSB(rb) == Val(Xor(x(i), y(i)))
  {
  }

  lemma FirstBit(n: Word, x: Bits, y: Bits, i: nat)
    requires Driven(n, x, y)
    ensures Mapping(LSB(RegisterA(n, i)) ^ LSB(RegisterB(i))) == Chip(Xor(x(i), y(i)))
  {
    RegisterAWindow(n, x, i);
    RegisterBWindow(y, i);
    LowBits(RegisterA(n, i), RegisterB(i), x, y, i);
    MappedBit(Xor(x(i), y(i)));
  }

  /** The two chips of step i. */
  function First(x: Bits, y: Bits, i: nat): int {
    Chip(Xor(x(i), y(i)))
  }

  function Second(x: Bits, y: Bits, i: nat): int {
    Chip(Xor(x(i + 16777232), y(i + 16777232)))
  }

  /** The imaginary part of step i. */
  function Imaginary(x: Bits, y: Bits, i: nat): int {
    Signed(i, First(x, y, i), Second(x, y, EvenBelow(i)))
  }

  /** The imaginary part of C_long,n. */
  function Imag(n: Word, i: nat): int {
    (if i % 2 == 0 then 1 else -1) * C1(n, i) * C2(n, 2 * (i / 2))
  }

  lemma ImaginaryIsStandard(n: Word, i: nat)
    ensures Imaginary(Xs(n), Ys(), i) == Imag(n, i)
  {
    IsStandard(n, i);
    IsStandard(n, EvenBelow(i));
    assert EvenBelow(i) == 2 * (i / 2);
  }

  /** The chip whose c2 value is used at step i, relative to the first chip that is stored. */
  function SecondIndex(offset: nat, i: nat): int {
    if i % 2 == 0 then i - offset else i - offset - 1
  }

  /** With an odd offset the first chip would read c2 before the start of its vector; with an even one no chip does. */
  lemma SecondIndexInRange(offset: nat, seqLen: nat)
    requires seqLen > 0
    ensures (forall i :: offset <= i < offset + seqLen ==> 0 <= SecondIndex(offset, i) < seqLen) <==> offset % 2 == 0
  {
    if offset % 2 == 1 {
      assert SecondIndex(offset, offset) == -1;
    }
  }

  /** The one chip whose imaginary part is not what it should be: the first one, if the offset is odd. */
  predicate Astray(offset: nat, k: nat) { k == 0 && offset % 2 == 1 }

  /** An element of a vector; nothing is known of a value from outside of it. */
  method Element(v: array<int>, k: int) returns (e: int)
    ensures 0 <= k < v.Length ==> e == v[k]
  {
    if 0 <= k < v.Length {
      e := v[k];
    } else {
      e := *;
    }
  }

  class LongUplinkScrambler {
    var seqNum: Word
    const offset: nat
    const seqLen: nat := 38400
    const c1: array<int>
    const c2: array<int>
    const cReal: array<int>
    const cImag: array<int>

    predicate Sized() {
      && c1.Length == c2.Length == cReal.Length == cImag.Length == seqLen
      && c1 != c2 && c1 != cReal && c1 != cImag && c2 != cReal && c2 != cImag && cReal != cImag
    }

    constructor (n: Word, off: nat)
      ensures seqNum == n && offset == off && Sized()
      ensures fresh(c1) && fresh(c2) && fresh(cReal) && fresh(cImag)
    {
      seqNum := n;
      offset := off;
      c1 := new int[38400];
      c2 := new int[38400];
      cReal := new int[38400];
      cImag := new int[38400];
    }

    /** C_long,n(i) = c1(i) (1 + j (-1)^i c2(2 floor(i / 2))) for the chips from the offset on, but for the one that goes astray. */
    method Generate()
      requires Sized()
      modifies c1, c2, cReal, cImag
      ensures forall k :: 0 <= k < seqLen ==> cReal[k] == C1(seqNum, offset + k)
      ensures forall k :: 0 <= k < seqLen && !Astray(offset, k) ==> cImag[k] == Imag(seqNum, offset + k)
    {
      Recurrences(seqNum);
      StartsA(seqNum);
      StartsB();
      Clock(Xs(seqNum), Ys());
      forall k | 0 <= k < seqLen
        ensures cReal[k] == C1(seqNum, offset + k) && (!Astray(offset, k) ==> cImag[k] == Imag(seqNum, offset + k))
      {
        IsStandard(seqNum, offset + k);
        ImaginaryIsStandard(seqNum, offset + k);
      }
    }

    method Clock(ghost x: Bits, ghost y: Bits)
      requires Sized() && Driven(seqNum, x, y)
      modifies c1, c2, cReal, cImag
      ensures Filled(x, y, seqLen + offset)
    {
      var registerA, registerB := Preset();
      for i := 0 to seqLen + offset
        invariant registerA == RegisterA(seqNum, i) && registerB == RegisterB(i)
        invariant Filled(x, y, i)
      {
        var first, second;
        registerA, registerB, first, second := NextChip(registerA, registerB, x, y, i);
        StoreChip(i, first, second, x, y);
      }
    }

    method Preset() returns (registerA: Word, registerB: Word)
      ensures registerA == RegisterA(seqNum, 0) && registerB == RegisterB(0)
    {
      registerA := (seqNum & 0xffffff) | 0x1000000;
      registerB := 0x1ffffff;
    }

    /** The chips before step i are those of the sequences. */
    ghost predicate Filled(x: Bits, y: Bits, i: nat)
      requires Sized()
      reads c2, cReal, cImag
    {
      forall k :: 0 <= k < seqLen && offset + k < i ==>
        && c2[k] == Second(x, y, offset + k) && cReal[k] == First(x, y, offset + k)
        && (!Astray(offset, k) ==> cImag[k] == Imaginary(x, y, offset + k))
    }

    /** The last part of the loop body; the steps before the offset store nothing. */
    method StoreChip(i: nat, first: int, second: int, ghost x: Bits, ghost y: Bits)
      requires Sized() && i < offset + seqLen
      requires Filled(x, y, i) && first == First(x, y, i) && second == Second(x, y, i)
      modifies c1, c2, cReal, cImag
      ensures Filled(x, y, i + 1)
    {
      if i >= offset {
        var idx := i - offset;
        c1[idx] := first;
        c2[idx] := second;
        cReal[idx] := first;
        if i % 2 == 0 {
          cImag[idx] := c1[idx] * c2[idx];
        } else {
          var e := Element(c2, idx - 1);
          cImag[idx] := (-1) * c1[idx] * e;
        }
      }
    }

    /** The first part of the loop body: both output bits, and one clock of both registers. */
    method NextChip(registerA: Word, registerB: Word, ghost x: Bits, ghost y: Bits, ghost i: nat)
      returns (nextA: Word, nextB: Word, first: int, second: int)
      requires Driven(seqNum, x, y) && registerA == RegisterA(seqNum, i) && registerB == RegisterB(i)
      ensures nextA == RegisterA(seqNum, i + 1) && nextB == RegisterB(i + 1)
      ensures first == First(x, y, i) && second == Second(x, y, i)
    {
      FirstBit(seqNum, x, y, i);
      first := Mapping(LSB(registerA) ^ LSB(registerB));
      var bit2;
      nextA, bit2 := StepA(registerA, x, y, i);
      nextB, bit2 := StepB(registerB, x(i + 16777232), bit2, x, y, i);
      MappedBit(Xor(x(i + 16777232), y(i + 16777232)));
      second := Mapping(bit2);
    }

    /** One clock of register A, with its part of the second sequence. */
    method StepA(registerA: Word, ghost x: Bits, ghost y: Bits, ghost i: nat) returns (nextA: Word, bit2: Word)
      requires Driven(seqNum, x, y) && registerA == RegisterA(seqNum, i)
      ensures nextA == RegisterA(seqNum, i + 1) && bit2 == Val(x(i + 16777232))
    {
      RegisterAWindow(seqNum, x, i);
      ShiftByTaps.LongXShift(x, i);
      nextA, bit2 := ClockA(registerA, x, i);
      RegisterAWindow(seqNum, x, i + 1);
      WindowUnique(nextA, RegisterA(seqNum, i + 1), x, i + 1);
    }

    /** One clock of register B; its taps are added to the second sequence. */
    method StepB(registerB: Word, ghost b: bool, bit0: Word, ghost x: Bits, ghost y: Bits, ghost i: nat)
      returns (nextB: Word, bit2: Word)
      requires Driven(seqNum, x, y) && registerB == RegisterB(i) && bit0 == Val(b)
      ensures nextB == RegisterB(i + 1) && bit2 == Val(Xor(b, y(i + 16777232)))
    {
      RegisterBWindow(y, i);
      ShiftByTaps.LongYShift(y, i);
      nextB, bit2 := ClockB(registerB, b, bit0, y, i);
      RegisterBWindow(y, i + 1);
      WindowUnique(nextB, RegisterB(i + 1), y, i + 1);
    }

    /** The part of the loop body that works on register A. */
    method ClockA(registerA: Word, ghost s: Bits, ghost i: nat) returns (nextA: Word, bit2: Word)
      requires LongX(s) && Window(registerA, s, i)
      ensures Window(nextA, s, i + 1)
      ensures bit2 == Val(Xor(s(i + 4), Xor(s(i + 7), s(i + 18))))
    {
      assert StepLongX(s, i);
      var tmpA := registerA;
      var newA := LSB(tmpA);
      tmpA := tmpA >> 3;
      newA := newA ^ LSB(tmpA);
      tmpA := tmpA >> 1;
      bit2 := LSB(tmpA);
      tmpA := tmpA >> 3;
      bit2 := bit2 ^ LSB(tmpA);
      tmpA := tmpA >> 11;
      bit2 := bit2 ^ LSB(tmpA);
      nextA := registerA >> 1;
      nextA := nextA | (newA << 24);
    }

    /** The part of the loop body that works on register B. */
    method ClockB(registerB: Word, ghost b: bool, bit0: Word, ghost s: Bits, ghost i: nat) returns (nextB: Word, bit2: Word)
      requires LongY(s) && Window(registerB, s, i) && bit0 == Val(b)
      ensures Window(nextB, s, i + 1)
      ensures bit2 == Val(Xor(b, Xor(s(i + 4), Xor(s(i + 6), s(i + 17)))))
    {
      assert StepLongY(s, i);
      bit2 := bit0;
      var tmpB := registerB;
      var newB := LSB(tmpB);
      tmpB := tmpB >> 1;
      newB := newB ^ LSB(tmpB);
      tmpB := tmpB >> 1;
      newB := newB ^ LSB(tmpB);
      tmpB := tmpB >> 1;
      newB := newB ^ LSB(tmpB);
      tmpB := tmpB >> 1;
      bit2 := bit2 ^ LSB(tmpB);
      tmpB := tmpB >> 2;
      bit2 := bit2 ^ LSB(tmpB);
      tmpB := tmpB >> 11;
      bit2 := bit2 ^ LSB(tmpB);
      nextB := registerB >> 1;
      nextB := nextB | (newB << 24);
    }
  }
}
