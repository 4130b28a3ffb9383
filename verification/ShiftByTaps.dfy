/** The far-shifted sequences of the UMTS scramblers, computed with a few taps. */
module ShiftByTaps {
  import opened Gf2
  import opened Feedback

  function Pow2(k: nat): nat {
    if k == 0 then 1 else 2 * Pow2(k - 1)
  }

  predicate In25(x: Taps) { x & 0xffff_ffff_fe00_0000 == 0 }
  predicate In18(x: Taps) { x & 0xffff_ffff_fffc_0000 == 0 }

  function SquareLongX(x: Taps): Taps { FoldLongX(FoldLongX(Spread(x))) }
  function SquareLongY(x: Taps): Taps { FoldLongY(FoldLongY(Spread(x))) }
  function SquareDownlinkX(x: Taps): Taps { FoldDownlinkX(FoldDownlinkX(Spread(x))) }
  function SquareDownlinkY(x: Taps): Taps { FoldDownlinkY(FoldDownlinkY(FoldDownlinkY(Spread(x)))) }

  /** z^(2^k) modulo the polynomial, by k squarings. */
  function PowerLongX(k: nat): Taps { if k == 0 then 2 else SquareLongX(PowerLongX(k - 1)) }
  function PowerLongY(k: nat): Taps { if k == 0 then 2 else SquareLongY(PowerLongY(k - 1)) }
  function PowerDownlinkX(k: nat): Taps { if k == 0 then 2 else SquareDownlinkX(PowerDownlinkX(k - 1)) }
  function PowerDownlinkY(k: nat): Taps { if k == 0 then 2 else SquareDownlinkY(PowerDownlinkY(k - 1)) }

  // ---- squaring modulo the polynomial keeps the words small ----

  lemma SquareLongXSmall(x: Taps)
    requires In25(x)
    ensures Short(x) && Spread(x) & 0xfffc_0000_0000_0000 == 0 && FoldLongX(Spread(x)) & 0xfffc_0000_0000_0000 == 0
    ensures In25(SquareLongX(x))
  {
  }

  lemma SquareLongYSmall(x: Taps)
    requires In25(x)
    ensures Short(x) && Spread(x) & 0xfffc_0000_0000_0000 == 0 && FoldLongY(Spread(x)) & 0xfffc_0000_0000_0000 == 0
    ensures In25(SquareLongY(x))
  {
  }

  lemma SquareDownlinkXSmall(x: Taps)
    requires In18(x)
    ensures Short(x) && Spread(x) & 0xfffc_0000_0000_0000 == 0 && FoldDownlinkX(Spread(x)) & 0xfffc_0000_0000_0000 == 0
    ensures In18(SquareDownlinkX(x))
  {
  }

  lemma SquareDownlinkYSmall(x: Taps)
    requires In18(x)
    ensures Short(x) && Spread(x) & 0xfffc_0000_0000_0000 == 0 && FoldDownlinkY(Spread(x)) & 0xfffc_0000_0000_0000 == 0
    ensures FoldDownlinkY(FoldDownlinkY(Spread(x))) & 0xfffc_0000_0000_0000 == 0 && In18(SquareDownlinkY(x))
  {
  }

  // ---- powers of two ----

  lemma TapOfZ(n: nat, s: Bits, i: nat)
    requires n >= 64
    ensures Tap(2, n, s, i) == s(i + 1)
  {
    TapFour(2, n, s, i);
    TapZero(n - 4, s, i + 4);
  }

  lemma ShiftByOne(s: Bits)
    ensures ShiftIs(s, 1, 2)
  {
    forall n: nat, i: nat | n >= 64 ensures s(i + 1) == Tap(2, n, s, i) {
      TapOfZ(n, s, i);
    }
  }

  lemma {:induction false} PowerLongXShifts(s: Bits, k: nat)
    requires LongX(s)
    ensures ShiftIs(s, Pow2(k), PowerLongX(k)) && In25(PowerLongX(k))
  {
    if k == 0 {
      ShiftByOne(s);
    } else {
      var x := PowerLongX(k - 1);
      PowerLongXShifts(s, k - 1);
      SquareLongXSmall(x);
      SquareDoublesShift(s, Pow2(k - 1), x);
      forall n: nat, i: nat | n >= 64 ensures s(i + Pow2(k)) == Tap(PowerLongX(k), n, s, i) {
        assert s(i + 2 * Pow2(k - 1)) == Tap(Spread(x), n, s, i);
        FoldLongXTap(Spread(x), n, s, i);
        FoldLongXTap(FoldLongX(Spread(x)), n, s, i);
      }
    }
  }

  lemma {:induction false} PowerLongYShifts(s: Bits, k: nat)
    requires LongY(s)
    ensures ShiftIs(s, Pow2(k), PowerLongY(k)) && In25(PowerLongY(k))
  {
    if k == 0 {
      ShiftByOne(s);
    } else {
      var x := PowerLongY(k - 1);
      PowerLongYShifts(s, k - 1);
      SquareLongYSmall(x);
      SquareDoublesShift(s, Pow2(k - 1), x);
      forall n: nat, i: nat | n >= 64 ensures s(i + Pow2(k)) == Tap(PowerLongY(k), n, s, i) {
        assert s(i + 2 * Pow2(k - 1)) == Tap(Spread(x), n, s, i);
        FoldLongYTap(Spread(x), n, s, i);
        FoldLongYTap(FoldLongY(Spread(x)), n, s, i);
      }
    }
  }

  lemma {:induction false} PowerDownlinkXShifts(s: Bits, k: nat)
    requires DownlinkX(s)
    ensures ShiftIs(s, Pow2(k), PowerDownlinkX(k)) && In18(PowerDownlinkX(k))
  {
    if k == 0 {
      ShiftByOne(s);
    } else {
      var x := PowerDownlinkX(k - 1);
      PowerDownlinkXShifts(s, k - 1);
      SquareDownlinkXSmall(x);
      SquareDoublesShift(s, Pow2(k - 1), x);
      forall n: nat, i: nat | n >= 64 ensures s(i + Pow2(k)) == Tap(PowerDownlinkX(k), n, s, i) {
        assert s(i + 2 * Pow2(k - 1)) == Tap(Spread(x), n, s, i);
        FoldDownlinkXTap(Spread(x), n, s, i);
        FoldDownlinkXTap(FoldDownlinkX(Spread(x)), n, s, i);
      }
    }
  }

  lemma {:induction false} PowerDownlinkYShifts(s: Bits, k: nat)
    requires DownlinkY(s)
    ensures ShiftIs(s, Pow2(k), PowerDownlinkY(k)) && In18(PowerDownlinkY(k))
  {
    if k == 0 {
      ShiftByOne(s);
    } else {
      var x := PowerDownlinkY(k - 1);
      PowerDownlinkYShifts(s, k - 1);
      SquareDownlinkYSmall(x);
      SquareDoublesShift(s, Pow2(k - 1), x);
      forall n: nat, i: nat | n >= 64 ensures s(i + Pow2(k)) == Tap(PowerDownlinkY(k), n, s, i) {
        assert s(i + 2 * Pow2(k - 1)) == Tap(Spread(x), n, s, i);
        FoldDownlinkYTap(Spread(x), n, s, i);
        FoldDownlinkYTap(FoldDownlinkY(Spread(x)), n, s, i);
        FoldDownlinkYTap(FoldDownlinkY(FoldDownlinkY(Spread(x))), n, s, i);
      }
    }
  }

  // ---- the powers that matter, square by square ----

  lemma EvalLongX()
    ensures PowerLongX(24) == 0x2004 && PowerLongX(25) == 2
  {
    assert PowerLongX(1) == 0x4; assert PowerLongX(2) == 0x10; assert PowerLongX(3) == 0x100; assert PowerLongX(4) == 0x10000;
    assert PowerLongX(5) == 0x480; assert PowerLongX(6) == 0x104000; assert PowerLongX(7) == 0x48048; assert PowerLongX(8) == 0x5960;
    assert PowerLongX(9) == 0x1411448; assert PowerLongX(10) == 0x1d814d2; assert PowerLongX(11) == 0xfdf116; assert PowerLongX(12) == 0x7eecee;
    assert PowerLongX(13) == 0xfaf2e; assert PowerLongX(14) == 0x547be6; assert PowerLongX(15) == 0x1099c4e; assert PowerLongX(16) == 0x1d135e6;
    assert PowerLongX(17) == 0xfdd094; assert PowerLongX(18) == 0x7facf8; assert PowerLongX(19) == 0xfaaf2; assert PowerLongX(20) == 0x452ab6;
    assert PowerLongX(21) == 0xc0986; assert PowerLongX(22) == 0x402814; assert PowerLongX(23) == 0x80102; assert PowerLongX(24) == 0x2004;
    assert PowerLongX(25) == 0x2;
  }

  lemma EvalLongY()
    ensures PowerLongY(24) == 0x1ffe007 && PowerLongY(25) == 2
  {
    assert PowerLongY(1) == 0x4; assert PowerLongY(2) == 0x10; assert PowerLongY(3) == 0x100; assert PowerLongY(4) == 0x10000;
    assert PowerLongY(5) == 0x780; assert PowerLongY(6) == 0x154000; assert PowerLongY(7) == 0x7fff8; assert PowerLongY(8) == 0x1553546;
    assert PowerLongY(9) == 0xeeef9b; assert PowerLongY(10) == 0x1d2c6c3; assert PowerLongY(11) == 0xbcf8c; assert PowerLongY(12) == 0x54b848;
    assert PowerLongY(13) == 0x13fe9be; assert PowerLongY(14) == 0x1d94543; assert PowerLongY(15) == 0xf77ec; assert PowerLongY(16) == 0x114d5b6;
    assert PowerLongY(17) == 0x96bc9d; assert PowerLongY(18) == 0xb7a6af; assert PowerLongY(19) == 0x1eda42b; assert PowerLongY(20) == 0x179a2a;
    assert PowerLongY(21) == 0x143e424; assert PowerLongY(22) == 0x1e81c07; assert PowerLongY(23) == 0x157e004; assert PowerLongY(24) == 0x1ffe007;
    assert PowerLongY(25) == 0x2;
  }

  lemma EvalDownlinkX()
    ensures PowerDownlinkX(17) == 0x8050 && PowerDownlinkX(18) == 2
  {
    assert PowerDownlinkX(1) == 0x4; assert PowerDownlinkX(2) == 0x10; assert PowerDownlinkX(3) == 0x100; assert PowerDownlinkX(4) == 0x10000;
    assert PowerDownlinkX(5) == 0x4408; assert PowerDownlinkX(6) == 0x20644; assert PowerDownlinkX(7) == 0x102b5; assert PowerDownlinkX(8) == 0x198;
    assert PowerDownlinkX(9) == 0x14140; assert PowerDownlinkX(10) == 0x35008; assert PowerDownlinkX(11) == 0x37028; assert PowerDownlinkX(12) == 0x3f528;
    assert PowerDownlinkX(13) == 0x2e62e; assert PowerDownlinkX(14) == 0x382f3; assert PowerDownlinkX(15) == 0x110ae; assert PowerDownlinkX(16) == 0x201c;
    assert PowerDownlinkX(17) == 0x8050; assert PowerDownlinkX(18) == 0x2;
  }

  lemma EvalDownlinkY()
    ensures PowerDownlinkY(17) == 0xff60 && PowerDownlinkY(18) == 2
  {
    assert PowerDownlinkY(1) == 0x4; assert PowerDownlinkY(2) == 0x10; assert PowerDownlinkY(3) == 0x100; assert PowerDownlinkY(4) == 0x10000;
    assert PowerDownlinkY(5) == 0x1440a; assert PowerDownlinkY(6) == 0x3c04e; assert PowerDownlinkY(7) == 0x8501; assert PowerDownlinkY(8) == 0x341d7;
    assert PowerDownlinkY(9) == 0x39712; assert PowerDownlinkY(10) == 0x23cb0; assert PowerDownlinkY(11) == 0x84fc; assert PowerDownlinkY(12) == 0x21486;
    assert PowerDownlinkY(13) == 0x6e59; assert PowerDownlinkY(14) == 0x27e51; assert PowerDownlinkY(15) == 0x242d8; assert PowerDownlinkY(16) == 0x3d7ec;
    assert PowerDownlinkY(17) == 0xff60; assert PowerDownlinkY(18) == 0x2;
  }

  lemma EvalPow2()
    ensures Pow2(17) == 131072 && Pow2(18) == 262144 && Pow2(24) == 16777216 && Pow2(25) == 33554432
  {
    assert Pow2(8) == 256;
    assert Pow2(16) == 65536;
    assert Pow2(18) == 262144;
    assert Pow2(24) == 16777216;
  }

  // ---- reading off the taps ----

  lemma TapsLongX(n: nat, s: Bits, i: nat)
    requires n >= 64
    ensures Tap(0x40090, n, s, i) == Xor(s(i + 4), Xor(s(i + 7), s(i + 18)))
  {
    TapFour(0x40090, n, s, i);
    TapFour(0x4009, n - 4, s, i + 4);
    TapFour(0x400, n - 8, s, i + 8);
    TapFour(0x40, n - 12, s, i + 12);
    TapFour(0x4, n - 16, s, i + 16);
    TapZero(n - 20, s, i + 20);
  }

  lemma TapsLongY(n: nat, s: Bits, i: nat)
    requires n >= 64
    ensures Tap(0x20050, n, s, i) == Xor(s(i + 4), Xor(s(i + 6), s(i + 17)))
  {
    TapFour(0x20050, n, s, i);
    TapFour(0x2005, n - 4, s, i + 4);
    TapFour(0x200, n - 8, s, i + 8);
    TapFour(0x20, n - 12, s, i + 12);
    TapFour(0x2, n - 16, s, i + 16);
    TapZero(n - 20, s, i + 20);
  }

  lemma TapsDownlinkX(n: nat, s: Bits, i: nat)
    requires n >= 64
    ensures Tap(0x8050, n, s, i) == Xor(s(i + 4), Xor(s(i + 6), s(i + 15)))
  {
    TapFour(0x8050, n, s, i);
    TapFour(0x805, n - 4, s, i + 4);
    TapFour(0x80, n - 8, s, i + 8);
    TapFour(0x8, n - 12, s, i + 12);
    TapZero(n - 16, s, i + 16);
  }

  /** The ten taps of the quadrature branch on y. */
  predicate QuadratureY(s: Bits, i: nat) {
    Xor(s(i + 5), Xor(s(i + 6), Xor(s(i + 8), Xor(s(i + 9), Xor(s(i + 10),
    Xor(s(i + 11), Xor(s(i + 12), Xor(s(i + 13), Xor(s(i + 14), s(i + 15))))))))))
  }

  lemma TapsDownlinkY(n: nat, s: Bits, i: nat)
    requires n >= 64
    ensures Tap(0xff60, n, s, i) == QuadratureY(s, i)
  {
    TapFour(0xff60, n, s, i);
    TapFour(0xff6, n - 4, s, i + 4);
    TapFour(0xff, n - 8, s, i + 8);
    TapFour(0xf, n - 12, s, i + 12);
    TapZero(n - 16, s, i + 16);
  }

  // ---- the theorems ----

  /** Shifting by 2^24 + 16, as section 4.3.2.2 of 3GPP TS 25.213 asks for the second long sequence. */
  lemma LongXShift(s: Bits, i: nat)
    requires LongX(s)
    ensures s(i + 16777232) == Xor(s(i + 4), Xor(s(i + 7), s(i + 18)))
  {
    var n: nat := 80;
    PowerLongXShifts(s, 24);
    EvalLongX();
    EvalPow2();
    assert s((i + 16) + 16777216) == Tap(0x2004, n - 16, s, i + 16);
    TapShift16(0x2004, n - 16, s, i);
    FoldLongXTap(0x2004_0000, n, s, i);
    FoldLongXTap(FoldLongX(0x2004_0000), n, s, i);
    TapsLongX(n, s, i);
  }

  lemma LongYShift(s: Bits, i: nat)
    requires LongY(s)
    ensures s(i + 16777232) == Xor(s(i + 4), Xor(s(i + 6), s(i + 17)))
  {
    var n: nat := 80;
    PowerLongYShifts(s, 24);
    EvalLongY();
    EvalPow2();
    assert s((i + 16) + 16777216) == Tap(0x1ffe007, n - 16, s, i + 16);
    TapShift16(0x1ffe007, n - 16, s, i);
    FoldLongYTap(0x1ff_e007_0000, n, s, i);
    FoldLongYTap(FoldLongY(0x1ff_e007_0000), n, s, i);
    TapsLongY(n, s, i);
  }

  /** Shifting by 2^17 = 131072, as section 5.2.2 of 3GPP TS 25.213 asks for the quadrature branch. */
  lemma DownlinkXShift(s: Bits, i: nat)
    requires DownlinkX(s)
    ensures s(i + 131072) == Xor(s(i + 4), Xor(s(i + 6), s(i + 15)))
  {
    var n: nat := 64;
    PowerDownlinkXShifts(s, 17);
    EvalDownlinkX();
    EvalPow2();
    assert s(i + Pow2(17)) == Tap(0x8050, n, s, i);
    TapsDownlinkX(n, s, i);
  }

  lemma DownlinkYShift(s: Bits, i: nat)
    requires DownlinkY(s)
    ensures s(i + 131072) == QuadratureY(s, i)
  {
    var n: nat := 64;
    PowerDownlinkYShifts(s, 17);
    EvalDownlinkY();
    EvalPow2();
    assert s(i + Pow2(17)) == Tap(0xff60, n, s, i);
    TapsDownlinkY(n, s, i);
  }

  lemma DownlinkTurn(s: Bits)
    requires DownlinkX(s) || DownlinkY(s)
    ensures ShiftIs(s, 262144, 2)
  {
    if DownlinkX(s) {
      PowerDownlinkXShifts(s, 18);
      EvalDownlinkX();
    } else {
      PowerDownlinkYShifts(s, 18);
      EvalDownlinkY();
    }
    EvalPow2();
  }

  lemma LongTurn(s: Bits)
    requires LongX(s) || LongY(s)
    ensures ShiftIs(s, 33554432, 2)
  {
    if LongX(s) {
      PowerLongXShifts(s, 25);
      EvalLongX();
    } else {
      PowerLongYShifts(s, 25);
      EvalLongY();
    }
    EvalPow2();
  }

  lemma LaterPeriod(s: Bits, period: nat, i: nat)
    requires ShiftIs(s, period + 1, 2) && i > 0
    ensures s(i + period) == s(i)
  {
    var n: nat := 64;
    assert s((i - 1) + (period + 1)) == Tap(2, n, s, i - 1);
    TapOfZ(n, s, i - 1);
  }

  /** Both downlink registers repeat after 2^18 - 1 chips. */
  lemma DownlinkPeriod(s: Bits, i: nat)
    requires DownlinkX(s) || DownlinkY(s)
    ensures s(i + 262143) == s(i)
  {
    DownlinkTurn(s);
    if i > 0 {
      LaterPeriod(s, 262143, i);
    } else {
      LaterPeriod(s, 262143, 5);
      LaterPeriod(s, 262143, 7);
      LaterPeriod(s, 262143, 10);
      LaterPeriod(s, 262143, 18);
      assert DownlinkX(s) ==> StepDownlinkX(s, 0) && StepDownlinkX(s, 262143);
      assert DownlinkY(s) ==> StepDownlinkY(s, 0) && StepDownlinkY(s, 262143);
    }
  }

  /** Both long registers repeat after 2^25 - 1 chips. */
  lemma LongPeriod(s: Bits, i: nat)
    requires LongX(s) || LongY(s)
    ensures s(i + 33554431) == s(i)
  {
    LongTurn(s);
    if i > 0 {
      LaterPeriod(s, 33554431, i);
    } else {
      LaterPeriod(s, 33554431, 1);
      LaterPeriod(s, 33554431, 2);
      LaterPeriod(s, 33554431, 3);
      LaterPeriod(s, 33554431, 25);
      assert LongX(s) ==> StepLongX(s, 0) && StepLongX(s, 33554431);
      assert LongY(s) ==> StepLongY(s, 0) && StepLongY(s, 33554431);
    }
  }
}
