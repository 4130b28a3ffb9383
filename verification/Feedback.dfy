/** The four feedback polynomials of the UMTS shift registers, and shifts by powers of two modulo each of them. */
module Feedback {
  import opened Gf2

  // ---- taps moved up by a constant ----

  lemma Delay1(x: Taps, n: nat, s: Bits, i: nat)
    requires Short(x) && n >= 64
    ensures Tap(x << 1, n, s, i) == Tap(x, n, s, i + 1)
  {
    TapShift1(x, n - 1, s, i);
    ShortTap(x, n - 1, n, s, i + 1);
  }

  lemma Delay2(x: Taps, n: nat, s: Bits, i: nat)
    requires Short(x) && n >= 64
    ensures Tap(x << 2, n, s, i) == Tap(x, n, s, i + 2)
  {
    TapShift2(x, n - 2, s, i);
    ShortTap(x, n - 2, n, s, i + 2);
  }

  lemma Delay3(x: Taps, n: nat, s: Bits, i: nat)
    requires Short(x) && n >= 64
    ensures Tap(x << 3, n, s, i) == Tap(x, n, s, i + 3)
  {
    assert (x << 2) << 1 == x << 3 && (x << 2) & 0x8000_0000_0000_0000 == 0;
    TapShift1(x << 2, n - 1, s, i);
    TapShift2(x, n - 3, s, i + 1);
    ShortTap(x, n - 3, n, s, i + 3);
  }

  lemma Delay5(x: Taps, n: nat, s: Bits, i: nat)
    requires Short(x) && n >= 64
    ensures Tap(x << 5, n, s, i) == Tap(x, n, s, i + 5)
  {
    assert (x << 4) << 1 == x << 5 && (x << 4) & 0x8000_0000_0000_0000 == 0;
    TapShift1(x << 4, n - 1, s, i);
    TapShift4(x, n - 5, s, i + 1);
    ShortTap(x, n - 5, n, s, i + 5);
  }

  lemma Delay7(x: Taps, n: nat, s: Bits, i: nat)
    requires Short(x) && n >= 64
    ensures Tap(x << 7, n, s, i) == Tap(x, n, s, i + 7)
  {
    assert (x << 6) << 1 == x << 7 && (x << 6) & 0x8000_0000_0000_0000 == 0;
    TapShift1(x << 6, n - 1, s, i);
    Delay6(x, n - 1, s, i + 1);
    ShortTap(x, n - 1, n, s, i + 7);
  }

  lemma Delay6(x: Taps, n: nat, s: Bits, i: nat)
    requires Short(x) && n >= 63
    ensures Tap(x << 6, n, s, i) == Tap(x, n, s, i + 6)
  {
    assert (x << 4) << 2 == x << 6 && (x << 4) & 0xc000_0000_0000_0000 == 0;
    TapShift2(x << 4, n - 2, s, i);
    TapShift4(x, n - 6, s, i + 2);
    ShortTap(x, n - 6, n, s, i + 6);
  }

  lemma Delay10(x: Taps, n: nat, s: Bits, i: nat)
    requires Short(x) && n >= 64
    ensures Tap(x << 10, n, s, i) == Tap(x, n, s, i + 10)
  {
    assert (x << 8) << 2 == x << 10 && (x << 8) & 0xc000_0000_0000_0000 == 0;
    TapShift2(x << 8, n - 2, s, i);
    TapShift8(x, n - 10, s, i + 2);
    ShortTap(x, n - 10, n, s, i + 10);
  }

  lemma Delay18(x: Taps, n: nat, s: Bits, i: nat)
    requires Short(x) && n >= 64
    ensures Tap(x << 18, n, s, i) == Tap(x, n, s, i + 18)
  {
    assert (x << 16) << 2 == x << 18 && (x << 16) & 0xc000_0000_0000_0000 == 0;
    TapShift2(x << 16, n - 2, s, i);
    TapShift16(x, n - 18, s, i + 2);
    ShortTap(x, n - 18, n, s, i + 18);
  }

  lemma Delay24(x: Taps, n: nat, s: Bits, i: nat)
    requires Short(x) && n >= 63
    ensures Tap(x << 24, n, s, i) == Tap(x, n, s, i + 24)
  {
    assert (x << 16) << 8 == x << 24 && (x << 16) & 0xff00_0000_0000_0000 == 0;
    TapShift8(x << 16, n - 8, s, i);
    TapShift16(x, n - 24, s, i + 8);
    ShortTap(x, n - 24, n, s, i + 24);
  }

  lemma Delay25(x: Taps, n: nat, s: Bits, i: nat)
    requires Short(x) && n >= 64
    ensures Tap(x << 25, n, s, i) == Tap(x, n, s, i + 25)
  {
    assert (x << 24) << 1 == x << 25 && (x << 24) & 0x8000_0000_0000_0000 == 0;
    TapShift1(x << 24, n - 1, s, i);
    Delay24(x, n - 1, s, i + 1);
    ShortTap(x, n - 1, n, s, i + 25);
  }

  // ---- the recurrences of 3GPP TS 25.213 ----

  /** x of section 5.2.2: 1 + X^7 + X^18. */
  ghost predicate DownlinkX(s: Bits) {
    forall j: nat :: StepDownlinkX(s, j)
  }

  predicate StepDownlinkX(s: Bits, j: nat) {
    s(j + 18) == Xor(s(j + 7), s(j))
  }

  /** y of section 5.2.2: 1 + X^5 + X^7 + X^10 + X^18. */
  ghost predicate DownlinkY(s: Bits) {
    forall j: nat :: StepDownlinkY(s, j)
  }

  predicate StepDownlinkY(s: Bits, j: nat) {
    s(j + 18) == Xor(s(j + 10), Xor(s(j + 7), Xor(s(j + 5), s(j))))
  }

  /** x of section 4.3.2.2: X^25 + X^3 + 1. */
  ghost predicate LongX(s: Bits) {
    forall j: nat :: StepLongX(s, j)
  }

  predicate StepLongX(s: Bits, j: nat) {
    s(j + 25) == Xor(s(j + 3), s(j))
  }

  /** y of section 4.3.2.2: X^25 + X^3 + X^2 + X + 1. */
  ghost predicate LongY(s: Bits) {
    forall j: nat :: StepLongY(s, j)
  }

  predicate StepLongY(s: Bits, j: nat) {
    s(j + 25) == Xor(s(j + 3), Xor(s(j + 2), Xor(s(j + 1), s(j))))
  }

  // ---- reduction modulo the polynomials ----

  function Low18(y: Taps): Taps { y & 0x3ffff }
  function High18(y: Taps): Taps { y >> 18 }
  function Join18(lo: Taps, h: Taps): Taps { Plus(lo, h << 18) }

  function Low25(y: Taps): Taps { y & 0x1ffffff }
  function High25(y: Taps): Taps { y >> 25 }
  function Join25(lo: Taps, h: Taps): Taps { Plus(lo, h << 25) }

  /** z^18 is replaced by z^7 + 1. */
  function ReduceDownlinkX(lo: Taps, h: Taps): Taps {
    Plus(lo, Plus(h, h << 7))
  }

  /** z^18 is replaced by z^10 + z^7 + z^5 + 1. */
  function ReduceDownlinkY(lo: Taps, h: Taps): Taps {
    Plus(lo, Plus(Plus(h, h << 5), Plus(h << 7, h << 10)))
  }

  /** z^25 is replaced by z^3 + 1. */
  function ReduceLongX(lo: Taps, h: Taps): Taps {
    Plus(lo, Plus(h, h << 3))
  }

  /** z^25 is replaced by z^3 + z^2 + z + 1. */
  function ReduceLongY(lo: Taps, h: Taps): Taps {
    Plus(lo, Plus(Plus(h, h << 1), Plus(h << 2, h << 3)))
  }

  function FoldDownlinkX(y: Taps): Taps { ReduceDownlinkX(Low18(y), High18(y)) }
  function FoldDownlinkY(y: Taps): Taps { ReduceDownlinkY(Low18(y), High18(y)) }
  function FoldLongX(y: Taps): Taps { ReduceLongX(Low25(y), High25(y)) }
  function FoldLongY(y: Taps): Taps { ReduceLongY(Low25(y), High25(y)) }

  lemma {:induction false} HighDownlinkX(h: Taps, n: nat, s: Bits, i: nat)
    requires DownlinkX(s)
    ensures Tap(h, n, s, i + 18) == Xor(Tap(h, n, s, i), Tap(h, n, s, i + 7))
    decreases n
  {
    if n > 0 {
      assert StepDownlinkX(s, i);
      HighDownlinkX(h >> 1, n - 1, s, i + 1);
    }
  }

  lemma {:induction false} HighDownlinkY(h: Taps, n: nat, s: Bits, i: nat)
    requires DownlinkY(s)
    ensures Tap(h, n, s, i + 18) == Xor(Xor(Tap(h, n, s, i), Tap(h, n, s, i + 5)), Xor(Tap(h, n, s, i + 7), Tap(h, n, s, i + 10)))
    decreases n
  {
    if n > 0 {
      assert StepDownlinkY(s, i);
      HighDownlinkY(h >> 1, n - 1, s, i + 1);
    }
  }

  lemma {:induction false} HighLongX(h: Taps, n: nat, s: Bits, i: nat)
    requires LongX(s)
    ensures Tap(h, n, s, i + 25) == Xor(Tap(h, n, s, i), Tap(h, n, s, i + 3))
    decreases n
  {
    if n > 0 {
      assert StepLongX(s, i);
      HighLongX(h >> 1, n - 1, s, i + 1);
    }
  }

  lemma {:induction false} HighLongY(h: Taps, n: nat, s: Bits, i: nat)
    requires LongY(s)
    ensures Tap(h, n, s, i + 25) == Xor(Xor(Tap(h, n, s, i), Tap(h, n, s, i + 1)), Xor(Tap(h, n, s, i + 2), Tap(h, n, s, i + 3)))
    decreases n
  {
    if n > 0 {
      var half := h >> 1;
      assert StepLongY(s, i);
      HighLongY(half, n - 1, s, i + 1);
      TapStep(h, half, n, s, i);
      TapStep(h, half, n, s, i + 1);
      TapStep(h, half, n, s, i + 2);
      TapStep(h, half, n, s, i + 3);
      TapStep(h, half, n, s, i + 25);
    }
  }

  lemma SumDownlinkX(lo: Taps, h: Taps, n: nat, s: Bits, i: nat)
    requires DownlinkX(s) && Short(h) && n >= 64
    ensures Tap(ReduceDownlinkX(lo, h), n, s, i) == Tap(Join18(lo, h), n, s, i)
  {
    calc {
      Tap(ReduceDownlinkX(lo, h), n, s, i);
      { TapPlus(lo, Plus(h, h << 7), n, s, i); }
      Xor(Tap(lo, n, s, i), Tap(Plus(h, h << 7), n, s, i));
      { TapPlus(h, h << 7, n, s, i); }
      Xor(Tap(lo, n, s, i), Xor(Tap(h, n, s, i), Tap(h << 7, n, s, i)));
      { Delay7(h, n, s, i); }
      Xor(Tap(lo, n, s, i), Xor(Tap(h, n, s, i), Tap(h, n, s, i + 7)));
      { HighDownlinkX(h, n, s, i); }
      Xor(Tap(lo, n, s, i), Tap(h, n, s, i + 18));
      { Delay18(h, n, s, i); }
      Xor(Tap(lo, n, s, i), Tap(h << 18, n, s, i));
      { TapPlus(lo, h << 18, n, s, i); }
      Tap(Join18(lo, h), n, s, i);
    }
  }

  lemma SumDownlinkY(lo: Taps, h: Taps, n: nat, s: Bits, i: nat)
    requires DownlinkY(s) && Short(h) && n >= 64
    ensures Tap(ReduceDownlinkY(lo, h), n, s, i) == Tap(Join18(lo, h), n, s, i)
  {
    TapPlus(lo, h << 18, n, s, i);
    Delay18(h, n, s, i);
    HighDownlinkY(h, n, s, i);
    Delay5(h, n, s, i);
    Delay7(h, n, s, i);
    Delay10(h, n, s, i);
    TapPlus(h, h << 5, n, s, i);
    TapPlus(h << 7, h << 10, n, s, i);
    TapPlus(Plus(h, h << 5), Plus(h << 7, h << 10), n, s, i);
    TapPlus(lo, Plus(Plus(h, h << 5), Plus(h << 7, h << 10)), n, s, i);
  }

  lemma SumLongX(lo: Taps, h: Taps, n: nat, s: Bits, i: nat)
    requires LongX(s) && Short(h) && n >= 64
    ensures Tap(ReduceLongX(lo, h), n, s, i) == Tap(Join25(lo, h), n, s, i)
  {
    calc {
      Tap(ReduceLongX(lo, h), n, s, i);
      { TapPlus(lo, Plus(h, h << 3), n, s, i); }
      Xor(Tap(lo, n, s, i), Tap(Plus(h, h << 3), n, s, i));
      { TapPlus(h, h << 3, n, s, i); }
      Xor(Tap(lo, n, s, i), Xor(Tap(h, n, s, i), Tap(h << 3, n, s, i)));
      { Delay3(h, n, s, i); }
      Xor(Tap(lo, n, s, i), Xor(Tap(h, n, s, i), Tap(h, n, s, i + 3)));
      { HighLongX(h, n, s, i); }
      Xor(Tap(lo, n, s, i), Tap(h, n, s, i + 25));
      { Delay25(h, n, s, i); }
      Xor(Tap(lo, n, s, i), Tap(h << 25, n, s, i));
      { TapPlus(lo, h << 25, n, s, i); }
      Tap(Join25(lo, h), n, s, i);
    }
  }

  lemma SumLongY(lo: Taps, h: Taps, n: nat, s: Bits, i: nat)
    requires LongY(s) && Short(h) && n >= 64
    ensures Tap(ReduceLongY(lo, h), n, s, i) == Tap(Join25(lo, h), n, s, i)
  {
    TapPlus(lo, h << 25, n, s, i);
    Delay25(h, n, s, i);
    HighLongY(h, n, s, i);
    Delay1(h, n, s, i);
    Delay2(h, n, s, i);
    Delay3(h, n, s, i);
    TapPlus(h, h << 1, n, s, i);
    TapPlus(h << 2, h << 3, n, s, i);
    TapPlus(Plus(h, h << 1), Plus(h << 2, h << 3), n, s, i);
    TapPlus(lo, Plus(Plus(h, h << 1), Plus(h << 2, h << 3)), n, s, i);
  }

  lemma Halves18(y: Taps)
    requires y & 0xfffc_0000_0000_0000 == 0
    ensures Join18(Low18(y), High18(y)) == y && Short(High18(y))
  {
  }

  lemma Halves25(y: Taps)
    requires y & 0xfffc_0000_0000_0000 == 0
    ensures Join25(Low25(y), High25(y)) == y && Short(High25(y))
  {
  }

  lemma FoldDownlinkXTap(y: Taps, n: nat, s: Bits, i: nat)
    requires DownlinkX(s) && y & 0xfffc_0000_0000_0000 == 0 && n >= 64
    ensures Tap(FoldDownlinkX(y), n, s, i) == Tap(y, n, s, i)
  {
    Halves18(y);
    SumDownlinkX(Low18(y), High18(y), n, s, i);
  }

  lemma FoldDownlinkYTap(y: Taps, n: nat, s: Bits, i: nat)
    requires DownlinkY(s) && y & 0xfffc_0000_0000_0000 == 0 && n >= 64
    ensures Tap(FoldDownlinkY(y), n, s, i) == Tap(y, n, s, i)
  {
    Halves18(y);
    SumDownlinkY(Low18(y), High18(y), n, s, i);
  }

  lemma FoldLongXTap(y: Taps, n: nat, s: Bits, i: nat)
    requires LongX(s) && y & 0xfffc_0000_0000_0000 == 0 && n >= 64
    ensures Tap(FoldLongX(y), n, s, i) == Tap(y, n, s, i)
  {
    Halves25(y);
    SumLongX(Low25(y), High25(y), n, s, i);
  }

  lemma FoldLongYTap(y: Taps, n: nat, s: Bits, i: nat)
    requires LongY(s) && y & 0xfffc_0000_0000_0000 == 0 && n >= 64
    ensures Tap(FoldLongY(y), n, s, i) == Tap(y, n, s, i)
  {
    Halves25(y);
    SumLongY(Low25(y), High25(y), n, s, i);
  }
}
