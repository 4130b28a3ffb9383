/** Linear forms over GF(2): taps on a bit sequence, and what shifting the sequence by powers of two does to them. */
module Gf2 {

  /** A bit sequence. */
  type Bits = nat -> bool

  /** A set of taps: bit t of the word stands for the tap on s(i + t), or for the power z^t of the shift operator z. */
  type Taps = bv64

  /** The sum modulo 2 of two bits. */
  predicate Xor(a: bool, b: bool) {
    a != b
  }

  /** The sum of two forms: taps that occur in both cancel. */
  function Plus(x: Taps, y: Taps): Taps {
    x ^ y
  }

  predicate Odd(x: Taps) {
    x & 1 == 1
  }

  /** The sum modulo 2 of the bits tapped by the lowest n bits of x. */
  function Tap(x: Taps, n: nat, s: Bits, i: nat): bool
    decreases n
  {
    if n == 0 then false else Xor(Odd(x) && s(i), Tap(x >> 1, n - 1, s, i + 1))
  }

  /** Every tap lies below n. */
  predicate Within(x: Taps, n: nat)
    decreases n
  {
    if n == 0 then x == 0 else Within(x >> 1, n - 1)
  }

  predicate Short(x: Taps) {
    x & 0xffff_ffff_0000_0000 == 0
  }

  /** Shifting s by d is the linear form x; n only has to cover the word. */
  ghost predicate ShiftIs(s: Bits, d: nat, x: Taps) {
    forall n: nat, i: nat :: n >= 64 ==> s(i + d) == Tap(x, n, s, i)
  }

  // ---- facts about words alone ----

  lemma NextBits(x: Taps)
    ensures (x >> 1) >> 1 == x >> 2 && (x >> 2) >> 1 == x >> 3 && (x >> 3) >> 1 == x >> 4
  {
  }

  lemma XorBits(x: Taps, y: Taps, z: Taps) returns (hx: Taps, hy: Taps, hz: Taps)
    requires z == x ^ y
    ensures hx == x >> 1 && hy == y >> 1 && hz == z >> 1 && hz == hx ^ hy
    ensures Odd(z) == Xor(Odd(x), Odd(y))
  {
    hx, hy, hz := x >> 1, y >> 1, z >> 1;
  }

  lemma ShiftBits(x: Taps)
    requires x & 0x8000_0000_0000_0000 == 0
    ensures !Odd(x << 1) && (x << 1) >> 1 == x
  {
  }

  // ---- linearity, and taps that are not there ----

  lemma TapStep(x: Taps, half: Taps, n: nat, s: Bits, i: nat)
    requires half == x >> 1 && n > 0
    ensures Tap(x, n, s, i) == Xor(Odd(x) && s(i), Tap(half, n - 1, s, i + 1))
  {
  }

  lemma {:induction false} TapPlusOf(x: Taps, y: Taps, z: Taps, n: nat, s: Bits, i: nat)
    requires z == x ^ y
    ensures Tap(z, n, s, i) == Xor(Tap(x, n, s, i), Tap(y, n, s, i))
    decreases n
  {
    if n > 0 {
      var hx, hy, hz := XorBits(x, y, z);
      TapPlusOf(hx, hy, hz, n - 1, s, i + 1);
      TapStep(x, hx, n, s, i);
      TapStep(y, hy, n, s, i);
      TapStep(z, hz, n, s, i);
    }
  }

  lemma TapPlus(x: Taps, y: Taps, n: nat, s: Bits, i: nat)
    ensures Tap(Plus(x, y), n, s, i) == Xor(Tap(x, n, s, i), Tap(y, n, s, i))
  {
    TapPlusOf(x, y, Plus(x, y), n, s, i);
  }

  lemma {:induction false} TapZero(n: nat, s: Bits, i: nat)
    ensures !Tap(0, n, s, i)
    decreases n
  {
    if n > 0 {
      assert 0 as Taps >> 1 == 0;
      TapZero(n - 1, s, i + 1);
    }
  }

  lemma {:induction false} TapWiden(x: Taps, n: nat, m: nat, s: Bits, i: nat)
    requires Within(x, n) && n <= m
    ensures Tap(x, n, s, i) == Tap(x, m, s, i)
    decreases n
  {
    if n == 0 {
      TapZero(m, s, i);
    } else {
      TapWiden(x >> 1, n - 1, m - 1, s, i + 1);
    }
  }

  lemma Within4(x: Taps, n: nat)
    requires Within(x >> 4, n)
    ensures Within(x, n + 4)
  {
    NextBits(x);
    assert Within(x >> 3, n + 1);
    assert Within(x >> 2, n + 2);
    assert Within(x >> 1, n + 3);
  }

  lemma Within8(x: Taps, n: nat)
    requires Within(x >> 8, n)
    ensures Within(x, n + 8)
  {
    assert (x >> 4) >> 4 == x >> 8;
    Within4(x >> 4, n);
    Within4(x, n + 4);
  }

  lemma Within16(x: Taps, n: nat)
    requires Within(x >> 16, n)
    ensures Within(x, n + 16)
  {
    assert (x >> 8) >> 8 == x >> 16;
    Within8(x >> 8, n);
    Within8(x, n + 8);
  }

  lemma Within32(x: Taps, n: nat)
    requires Within(x >> 32, n)
    ensures Within(x, n + 32)
  {
    assert (x >> 16) >> 16 == x >> 32;
    Within16(x >> 16, n);
    Within16(x, n + 16);
  }

  /** The number of taps looked at does not matter once it covers all that are there. */
  lemma ShortTap(x: Taps, n: nat, m: nat, s: Bits, i: nat)
    requires Short(x) && n >= 32 && m >= 32
    ensures Tap(x, n, s, i) == Tap(x, m, s, i)
  {
    var k: nat := 0;
    assert x >> 32 == 0;
    Within32(x, k);
    TapWiden(x, k + 32, n, s, i);
    TapWiden(x, k + 32, m, s, i);
  }

  lemma WordTap(x: Taps, n: nat, m: nat, s: Bits, i: nat)
    requires n >= 64 && m >= 64
    ensures Tap(x, n, s, i) == Tap(x, m, s, i)
  {
    var k: nat := 0;
    assert (x >> 32) >> 32 == 0;
    Within32(x >> 32, k);
    Within32(x, k + 32);
    TapWiden(x, k + 64, n, s, i);
    TapWiden(x, k + 64, m, s, i);
  }

  /** Four taps at a time. */
  lemma TapFour(x: Taps, n: nat, s: Bits, i: nat)
    requires n >= 4
    ensures Tap(x, n, s, i) == Xor(Odd(x) && s(i), Xor(Odd(x >> 1) && s(i + 1),
                               Xor(Odd(x >> 2) && s(i + 2), Xor(Odd(x >> 3) && s(i + 3), Tap(x >> 4, n - 4, s, i + 4)))))
  {
    NextBits(x);
    assert Tap(x >> 3, n - 3, s, i + 3) == Xor(Odd(x >> 3) && s(i + 3), Tap(x >> 4, n - 4, s, i + 4));
    assert Tap(x >> 2, n - 2, s, i + 2) == Xor(Odd(x >> 2) && s(i + 2), Tap(x >> 3, n - 3, s, i + 3));
    assert Tap(x >> 1, n - 1, s, i + 1) == Xor(Odd(x >> 1) && s(i + 1), Tap(x >> 2, n - 2, s, i + 2));
  }

  // ---- multiplying by powers of z ----

  lemma TapShift1(x: Taps, n: nat, s: Bits, i: nat)
    requires x & 0x8000_0000_0000_0000 == 0
    ensures Tap(x << 1, n + 1, s, i) == Tap(x, n, s, i + 1)
  {
    ShiftBits(x);
    TapStep(x << 1, x, n + 1, s, i);
  }

  lemma TapShift2(x: Taps, n: nat, s: Bits, i: nat)
    requires x & 0xc000_0000_0000_0000 == 0
    ensures Tap(x << 2, n + 2, s, i) == Tap(x, n, s, i + 2)
  {
    assert (x << 1) << 1 == x << 2 && (x << 1) & 0x8000_0000_0000_0000 == 0 && x & 0x8000_0000_0000_0000 == 0;
    TapShift1(x << 1, n + 1, s, i);
    TapShift1(x, n, s, i + 1);
  }

  lemma TapShift4(x: Taps, n: nat, s: Bits, i: nat)
    requires x & 0xf000_0000_0000_0000 == 0
    ensures Tap(x << 4, n + 4, s, i) == Tap(x, n, s, i + 4)
  {
    assert (x << 2) << 2 == x << 4 && (x << 2) & 0xc000_0000_0000_0000 == 0 && x & 0xc000_0000_0000_0000 == 0;
    TapShift2(x << 2, n + 2, s, i);
    TapShift2(x, n, s, i + 2);
  }

  lemma TapShift8(x: Taps, n: nat, s: Bits, i: nat)
    requires x & 0xff00_0000_0000_0000 == 0
    ensures Tap(x << 8, n + 8, s, i) == Tap(x, n, s, i + 8)
  {
    assert (x << 4) << 4 == x << 8 && (x << 4) & 0xf000_0000_0000_0000 == 0 && x & 0xf000_0000_0000_0000 == 0;
    TapShift4(x << 4, n + 4, s, i);
    TapShift4(x, n, s, i + 4);
  }

  lemma TapShift16(x: Taps, n: nat, s: Bits, i: nat)
    requires x & 0xffff_0000_0000_0000 == 0
    ensures Tap(x << 16, n + 16, s, i) == Tap(x, n, s, i + 16)
  {
    assert (x << 8) << 8 == x << 16 && (x << 8) & 0xff00_0000_0000_0000 == 0 && x & 0xff00_0000_0000_0000 == 0;
    TapShift8(x << 8, n + 8, s, i);
    TapShift8(x, n, s, i + 8);
  }

  // ---- squaring: a shift by d done twice ----

  /** The sum over the taps t of x of the form y applied at i + t. */
  function Convolve(x: Taps, n: nat, y: Taps, m: nat, s: Bits, i: nat): bool
    decreases n
  {
    if n == 0 then false else Xor(Odd(x) && Tap(y, m, s, i), Convolve(x >> 1, n - 1, y, m, s, i + 1))
  }

  lemma {:induction false} TapOfShifted(x: Taps, n: nat, y: Taps, m: nat, s: Bits, d: nat, i: nat)
    requires ShiftIs(s, d, y) && m >= 64
    ensures Tap(x, n, s, i + d) == Convolve(x, n, y, m, s, i)
    decreases n
  {
    if n > 0 {
      assert s(i + d) == Tap(y, m, s, i);
      TapOfShifted(x >> 1, n - 1, y, m, s, d, i + 1);
    }
  }

  lemma {:induction false} ConvolveSplit(x: Taps, n: nat, y: Taps, half: Taps, m: nat, s: Bits, i: nat)
    requires half == y >> 1 && m > 0
    ensures Convolve(x, n, y, m, s, i) == Xor(Odd(y) && Tap(x, n, s, i), Convolve(x, n, half, m - 1, s, i + 1))
    decreases n
  {
    if n > 0 {
      TapStep(y, half, m, s, i);
      ConvolveSplit(x >> 1, n - 1, y, half, m, s, i + 1);
    }
  }

  /** The polynomial x(z) squared: every tap t moves to 2t, because the mixed terms cancel in pairs. */
  function Spread(x: Taps): Taps {
    var a := (x | (x << 16)) & 0x0000_ffff_0000_ffff;
    var b := (a | (a << 8)) & 0x00ff_00ff_00ff_00ff;
    var c := (b | (b << 4)) & 0x0f0f_0f0f_0f0f_0f0f;
    var d := (c | (c << 2)) & 0x3333_3333_3333_3333;
    (d | (d << 1)) & 0x5555_5555_5555_5555
  }

  lemma SpreadStep(x: Taps) returns (half: Taps, y: Taps, y1: Taps, y2: Taps)
    requires Short(x)
    ensures half == x >> 1 && y == Spread(x) && y1 == y >> 1 && y2 == y1 >> 1
    ensures Odd(y) == Odd(x) && !Odd(y1) && y2 == Spread(half) && Short(half)
  {
    half, y := x >> 1, Spread(x);
    y1 := y >> 1;
    y2 := y1 >> 1;
  }

  lemma ConvolveStep(x: Taps, half: Taps, n: nat, y: Taps, m: nat, s: Bits, i: nat)
    requires half == x >> 1 && n > 0
    ensures Convolve(x, n, y, m, s, i) == Xor(Odd(x) && Tap(y, m, s, i), Convolve(half, n - 1, y, m, s, i + 1))
  {
  }

  /** Two taps of the squared form at once: the odd one is never set. */
  lemma TapTwo(y: Taps, y1: Taps, y2: Taps, n: nat, s: Bits, i: nat)
    requires y1 == y >> 1 && y2 == y1 >> 1 && !Odd(y1) && n > 1
    ensures Tap(y, n, s, i) == Xor(Odd(y) && s(i), Tap(y2, n - 2, s, i + 2))
  {
    TapStep(y, y1, n, s, i);
    TapStep(y1, y2, n - 1, s, i + 1);
  }

  /** In the product of a form with itself every pair of different taps appears twice and cancels. */
  lemma PairsCancel(x: Taps, half: Taps, n: nat, s: Bits, i: nat)
    requires half == x >> 1 && n > 0
    ensures Convolve(x, n, x, n, s, i) == Xor(Odd(x) && s(i), Convolve(half, n - 1, half, n - 1, s, i + 2))
  {
    ConvolveStep(x, half, n, x, n, s, i);
    ConvolveSplit(half, n - 1, x, half, n, s, i + 1);
    TapStep(x, half, n, s, i);
  }

  lemma {:induction false} ConvolveSelf(x: Taps, n: nat, s: Bits, i: nat)
    requires Short(x)
    ensures Convolve(x, n, x, n, s, i) == Tap(Spread(x), 2 * n, s, i)
    decreases n
  {
    if n > 0 {
      var half, y, y1, y2 := SpreadStep(x);
      PairsCancel(x, half, n, s, i);
      ConvolveSelf(half, n - 1, s, i + 2);
      TapTwo(y, y1, y2, 2 * n, s, i);
    }
  }

  /** If a shift by d is the form x, a shift by 2d is its square. */
  lemma SquareDoublesShift(s: Bits, d: nat, x: Taps)
    requires ShiftIs(s, d, x) && Short(x)
    ensures ShiftIs(s, 2 * d, Spread(x))
  {
    forall n: nat, i: nat | n >= 64 ensures s(i + 2 * d) == Tap(Spread(x), n, s, i) {
      assert s((i + d) + d) == Tap(x, n, s, i + d);
      TapOfShifted(x, n, x, n, s, d, i);
      ConvolveSelf(x, n, s, i);
      WordTap(Spread(x), 2 * n, n, s, i);
    }
  }
}
