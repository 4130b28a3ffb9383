/** What the scrambling code generators share (scramble.hpp): words, chips and the bits of a scrambling number. */
module Scrambler {
  import Gf2

  type Word = bv32

  /** LSB of scramble.hpp. */
  function LSB(p: Word): Word { p & 1 }

  /** The value of a bit in a register. */
  function Val(b: bool): Word { if b then 1 else 0 }

  /** Bit 0 is sent as +1, bit 1 as -1. */
  function Chip(b: bool): int { if b then -1 else 1 }

  /** Adding bits modulo 2 is multiplying chips, and the two chips are +1 and another square root of 1. */
  lemma ChipOfXor(a: bool, b: bool)
    ensures Chip(Gf2.Xor(a, b)) == Chip(a) * Chip(b)
    ensures Chip(a) * Chip(a) == 1 && (Chip(a) == Chip(b) <==> a == b)
  {
  }

  /** The mapping vector "+1 -1". */
  function Mapping(bit: Word): int { if bit == 0 then 1 else -1 }

  lemma MappedBit(b: bool)
    ensures Mapping(Val(b)) == Chip(b)
  {
  }

  /** 2 floor(i / 2). */
  function EvenBelow(i: nat): nat {
    if i % 2 == 0 then i else i - 1
  }

  /** (-1)^i times two chips. */
  function Signed(i: nat, a: int, b: int): int {
    if i % 2 == 0 then a * b else (-1) * a * b
  }

  /** The sign changes from each chip to the next, and every even chip serves twice. */
  lemma SignsAlternate(i: nat, a: int, b: int)
    ensures Signed(0, a, b) == a * b && Signed(i + 1, a, b) == -Signed(i, a, b)
    ensures EvenBelow(i) == 2 * (i / 2)
  {
  }

  /** Bit t of the 24-bit scrambling number n. */
  predicate NumberBit(n: Word, t: nat) {
    if t == 0 then n & 0x1 != 0 else if t == 1 then n & 0x2 != 0 else if t == 2 then n & 0x4 != 0 else
    if t == 3 then n & 0x8 != 0 else if t == 4 then n & 0x10 != 0 else if t == 5 then n & 0x20 != 0 else
    if t == 6 then n & 0x40 != 0 else if t == 7 then n & 0x80 != 0 else if t == 8 then n & 0x100 != 0 else
    if t == 9 then n & 0x200 != 0 else if t == 10 then n & 0x400 != 0 else if t == 11 then n & 0x800 != 0 else
    if t == 12 then n & 0x1000 != 0 else if t == 13 then n & 0x2000 != 0 else if t == 14 then n & 0x4000 != 0 else
    if t == 15 then n & 0x8000 != 0 else if t == 16 then n & 0x10000 != 0 else if t == 17 then n & 0x20000 != 0 else
    if t == 18 then n & 0x40000 != 0 else if t == 19 then n & 0x80000 != 0 else if t == 20 then n & 0x100000 != 0 else
    if t == 21 then n & 0x200000 != 0 else if t == 22 then n & 0x400000 != 0 else
    n & 0x800000 != 0
  }

  /** The bit is the one that a shift by t brings to the end. */
  lemma ShiftedBit(n: Word, t: nat)
    requires t < 24
    ensures NumberBit(n, t) <==> (n >> t) & 1 == 1
  {
    match t {
      case 0 => case 1 => case 2 => case 3 => case 4 => case 5 => case 6 => case 7 =>
      case 8 => case 9 => case 10 => case 11 => case 12 => case 13 => case 14 => case 15 =>
      case 16 => case 17 => case 18 => case 19 => case 20 => case 21 => case 22 => case _ =>
    }
  }
}
