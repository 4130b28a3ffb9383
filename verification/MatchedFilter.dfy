/** Matched_Filter of block_RaisedCosineReceive.cpp: a decimating FIR filter over a circular buffer. */
module MatchedFilter {
  import Sequences

  /** The arithmetic of samples and coefficients. No law is assumed of it, so rounding is covered. */
  datatype Arithmetic<!T, !C> = Arithmetic(zero: T, add: (T, T) -> T, mul: (C, T) -> T)

  // ---- the filter that is meant ----

  /** x(i), with zeros before the start of the stream. */
  function Sample<T, C>(a: Arithmetic<T, C>, x: seq<T>, i: int): T
    requires i < |x|
  {
    if i < 0 then a.zero else x[i]
  }

  /** coeffs(0) x(pos) + ... + coeffs(n - 1) x(pos - n + 1), summed in this order. */
  function Fir<T, C>(a: Arithmetic<T, C>, coeffs: seq<C>, x: seq<T>, pos: nat, n: nat): T
    requires pos < |x| && n <= |coeffs|
  {
    if n == 0 then a.zero else a.add(Fir(a, coeffs, x, pos, n - 1), a.mul(coeffs[n - 1], Sample(a, x, pos - (n - 1))))
  }

  lemma {:induction false} FirOfPrefix<T, C>(a: Arithmetic<T, C>, coeffs: seq<C>, x: seq<T>, y: seq<T>, pos: nat, n: nat)
    requires pos < |x| && n <= |coeffs|
    ensures Fir(a, coeffs, x + y, pos, n) == Fir(a, coeffs, x, pos, n)
  {
    if n > 0 {
      FirOfPrefix(a, coeffs, x, y, pos, n - 1);
    }
  }

  lemma Whole(len: nat, d: nat, i: nat)
    requires d >= 1 && i < len / d
    ensures i * d + d <= len
  {
    assert (i + 1) * d <= (len / d) * d <= len;
  }

  /** Every d-th output of the filter over a frame that follows the samples in past. */
  function Decimated<T, C>(a: Arithmetic<T, C>, coeffs: seq<C>, d: nat, past: seq<T>, frame: seq<T>): (r: seq<T>)
    requires d >= 1
    ensures |r| == |frame| / d
  {
    seq(|frame| / d, i requires 0 <= i < |frame| / d =>
      Whole(|frame|, d, i);
      Fir(a, coeffs, past + frame, |past| + i * d, |coeffs|))
  }

  /** The samples of a frame that enter the buffer. */
  function Consumed<T>(d: nat, frame: seq<T>): seq<T>
    requires d >= 1
  {
    frame[..|frame| / d * d]
  }

  /** No sample is dropped exactly if the frame length is a multiple of the factor. */
  lemma NothingDropped<T>(d: nat, frame: seq<T>)
    requires d >= 1
    ensures Consumed(d, frame) == frame <==> |frame| % d == 0
  {
  }

  lemma QuotientIs(n: nat, d: nat, q: nat, r: nat)
    requires r < d && n == q * d + r
    ensures n / d == q
  {
    var e := n / d - q;
    assert n == n / d * d + n % d;
    assert e * d == r - n % d;
    NoSmallMultiple(e, d);
  }

  lemma NoSmallMultiple(e: int, d: int)
    requires d >= 1
    ensures -d < e * d < d ==> e == 0
  {
    if e >= 1 {
      assert (e - 1) * d >= 0;
    } else if e <= -1 {
      assert (-e - 1) * d >= 0;
    }
  }

  lemma Quotients(f: nat, g: nat, d: nat)
    requires d >= 1 && f % d == 0
    ensures (f + g) / d == f / d + g / d && f / d * d == f
  {
    var k, l := f / d, g / d;
    assert f == k * d && g == l * d + g % d;
    assert (k + l) * d == k * d + l * d;
    QuotientIs(f + g, d, k + l, g % d);
  }

  lemma Shifted(i: nat, k: nat, d: nat)
    requires k <= i
    ensures i * d == k * d + (i - k) * d
  {
  }

  /** A frame may be cut in two after a multiple of d samples. */
  lemma DecimatedSplit<T, C>(a: Arithmetic<T, C>, coeffs: seq<C>, d: nat, past: seq<T>, f: seq<T>, g: seq<T>)
    requires d >= 1 && |f| % d == 0
    ensures Decimated(a, coeffs, d, past, f + g) == Decimated(a, coeffs, d, past, f) + Decimated(a, coeffs, d, past + f, g)
  {
    var whole, left, right := Decimated(a, coeffs, d, past, f + g), Decimated(a, coeffs, d, past, f), Decimated(a, coeffs, d, past + f, g);
    Quotients(|f|, |g|, d);
    forall i | 0 <= i < |whole| ensures whole[i] == (left + right)[i] {
      OutputSplit(a, coeffs, d, past, f, g, i);
    }
  }

  lemma OutputSplit<T, C>(a: Arithmetic<T, C>, coeffs: seq<C>, d: nat, past: seq<T>, f: seq<T>, g: seq<T>, i: nat)
    requires d >= 1 && |f| % d == 0 && i < |f + g| / d && |f + g| / d == |f| / d + |g| / d
    ensures Decimated(a, coeffs, d, past, f + g)[i]
            == if i < |f| / d then Decimated(a, coeffs, d, past, f)[i] else Decimated(a, coeffs, d, past + f, g)[i - |f| / d]
  {
    var k := |f| / d;
    Whole(|f + g|, d, i);
    Sequences.Assoc(past, f, g);
    if i < k {
      Whole(|f|, d, i);
      FirOfPrefix(a, coeffs, past + f, g, |past| + i * d, |coeffs|);
    } else {
      Quotients(|f|, |g|, d);
      Shifted(i, k, d);
    }
  }

  /** The state of the stream after some frames: the outputs so far, and the samples that were consumed. */
  function Outputs<T, C>(a: Arithmetic<T, C>, coeffs: seq<C>, d: nat, frames: seq<seq<T>>): seq<T>
    requires d >= 1
  {
    if frames == [] then [] else
      var k := |frames| - 1;
      Outputs(a, coeffs, d, frames[..k]) + Decimated(a, coeffs, d, History(d, frames[..k]), frames[k])
  }

  function History<T>(d: nat, frames: seq<seq<T>>): seq<T>
    requires d >= 1
  {
    if frames == [] then [] else History(d, frames[..|frames| - 1]) + Consumed(d, frames[|frames| - 1])
  }

  /** However the stream is cut into frames of whole multiples of d, the output is that of the stream in one piece. */
  lemma {:induction false} FramesDoNotMatter<T, C>(a: Arithmetic<T, C>, coeffs: seq<C>, d: nat, frames: seq<seq<T>>)
    requires d >= 1 && forall f :: f in frames ==> |f| % d == 0
    ensures History(d, frames) == Sequences.Concat(frames) && |Sequences.Concat(frames)| % d == 0
    ensures Outputs(a, coeffs, d, frames) == Decimated(a, coeffs, d, [], Sequences.Concat(frames))
  {
    if frames != [] {
      var k := |frames| - 1;
      var earlier, last := frames[..k], frames[k];
      FramesDoNotMatter(a, coeffs, d, earlier);
      NothingDropped(d, last);
      assert frames == earlier + [last];
      Sequences.ConcatAppend(earlier, [last]);
      Sequences.ConcatOne(last);
      var x := Sequences.Concat(earlier);
      DecimatedSplit(a, coeffs, d, [], x, last);
      assert [] + x == x && [] + (x + last) == x + last;
      Multiples(|x|, |last|, d);
    }
  }

  lemma Multiples(f: nat, g: nat, d: nat)
    requires d >= 1 && f % d == 0 && g % d == 0
    ensures (f + g) % d == 0
  {
    Quotients(f, g, d);
    assert (f / d + g / d) * d == f / d * d + g / d * d;
  }

  /** The place in a buffer of n cells that a pointer reaches after one lap at most. */
  function Wrap(i: nat, n: nat): nat
    requires i < 2 * n
  {
    if i < n then i else i - n
  }

  /** From cell `from` on, and round the end, the buffer holds the latest samples, the newest first. */
  ghost predicate Recent<T, C>(a: Arithmetic<T, C>, buf: seq<T>, from: nat, x: seq<T>)
    requires from <= |buf|
  {
    forall k :: 0 <= k < |buf| ==> Latest(a, buf, from, x, k)
  }

  ghost predicate Latest<T, C>(a: Arithmetic<T, C>, buf: seq<T>, from: nat, x: seq<T>, k: nat)
    requires from <= |buf| && k < |buf|
  {
    buf[Wrap(from + k, |buf|)] == Sample(a, x, |x| - 1 - k)
  }

  /** Writing a sample before the newest one overwrites the oldest. */
  lemma WriteRecent<T, C>(a: Arithmetic<T, C>, buf: seq<T>, p: nat, x: seq<T>, sample: T)
    requires p < |buf| && Recent(a, buf, p + 1, x)
    ensures Recent(a, buf[p := sample], p, x + [sample])
  {
    var buf1, x1 := buf[p := sample], x + [sample];
    forall k | 0 <= k < |buf1| ensures Latest(a, buf1, p, x1, k) {
      if k > 0 {
        assert Latest(a, buf, p + 1, x, k - 1);
      }
    }
  }

  lemma BackRecent<T, C>(a: Arithmetic<T, C>, buf: seq<T>, p: nat, x: seq<T>)
    requires p < |buf| && Recent(a, buf, p, x)
    ensures Recent(a, buf, if p == 0 then |buf| else p, x)
  {
    if p == 0 {
      forall k | 0 <= k < |buf| ensures Latest(a, buf, |buf|, x, k) {
        assert Latest(a, buf, 0, x, k);
      }
    }
  }

  lemma PrefixOutput<T, C>(a: Arithmetic<T, C>, coeffs: seq<C>, past: seq<T>, v: seq<T>, base: nat)
    requires base < |v|
    ensures var x := past + v[..base + 1];
            Fir(a, coeffs, x, |x| - 1, |coeffs|) == Fir(a, coeffs, past + v, |past| + base, |coeffs|)
  {
    var x := past + v[..base + 1];
    assert past + v == x + v[base + 1..];
    FirOfPrefix(a, coeffs, x, v[base + 1..], |past| + base, |coeffs|);
  }

  class MatchedFilter<T, C> {
    const a: Arithmetic<T, C>
    const coeffs: seq<C>
    const mem: array<T>
    var output: T
    const factor: nat
    var inptr: nat

    /** Every sample that was put into the buffer, the oldest first. */
    ghost var past: seq<T>

    constructor (arithmetic: Arithmetic<T, C>, coeffsIn: seq<C>, factorIn: nat)
      requires coeffsIn != [] && factorIn >= 1
      ensures Valid() && past == [] && fresh(mem)
      ensures a == arithmetic && coeffs == coeffsIn && factor == factorIn
    {
      a, coeffs, factor := arithmetic, coeffsIn, factorIn;
      output := arithmetic.zero;
      mem := new T[|coeffsIn|](_ => arithmetic.zero);
      inptr := 0;
      past := [];
    }

    ghost predicate Sized()
      reads this
    {
      mem.Length == |coeffs| > 0 && factor >= 1 && inptr < mem.Length
    }

    /** The newest sample is in the cell after inptr, the oldest at inptr. */
    ghost predicate Valid()
      reads this, mem
    {
      Sized() && Recent(a, mem[..], inptr + 1, past)
    }

    /** Writes at inptr, which then points at the newest sample. */
    method Write(sample: T)
      requires Valid()
      modifies mem
      ensures Sized() && Recent(a, mem[..], inptr, past + [sample])
    {
      WriteRecent(a, mem[..], inptr, past, sample);
      ghost var buf := mem[..][inptr := sample];
      mem[inptr] := sample;
      assert mem[..] == buf;
    }

    /** The pointer steps back, over the oldest sample. */
    method StepBack(ghost x: seq<T>)
      requires Sized() && Recent(a, mem[..], inptr, x)
      modifies this`inptr, this`past
      ensures Valid() && past == x
    {
      BackRecent(a, mem[..], inptr, x);
      var next: int := inptr - 1;
      if next < 0 {
        next := next + mem.Length;
      }
      inptr := next;
      past := x;
    }

    method PutSample(sample: T)
      requires Valid()
      modifies this`inptr, this`past, mem
      ensures Valid() && past == old(past) + [sample]
    {
      Write(sample);
      StepBack(past + [sample]);
    }

    /** One output: the FIR sum at the newest sample. */
    method Filter(sample: T) returns (r: T)
      requires Valid()
      modifies this`inptr, this`past, this`output, mem
      ensures Valid() && past == old(past) + [sample]
      ensures r == output == Fir(a, coeffs, past, |past| - 1, |coeffs|)
    {
      output := a.zero;
      Write(sample);
      Accumulate(past + [sample]);
      StepBack(past + [sample]);
      r := output;
    }

    /** The sum over the two parts of the circular buffer. */
    method Accumulate(ghost x: seq<T>)
      requires Sized() && x != [] && Recent(a, mem[..], inptr, x) && output == a.zero
      modifies this`output
      ensures output == Fir(a, coeffs, x, |x| - 1, |coeffs|)
    {
      ghost var buf, from := mem[..], inptr;
      var l := mem.Length - inptr;
      for i := 0 to l
        invariant output == Fir(a, coeffs, x, |x| - 1, i)
      {
        assert Latest(a, buf, from, x, i);
        output := a.add(output, a.mul(coeffs[i], mem[inptr + i]));
      }
      for i := 0 to inptr
        invariant output == Fir(a, coeffs, x, |x| - 1, l + i)
      {
        assert Latest(a, buf, from, x, l + i);
        output := a.add(output, a.mul(coeffs[l + i], mem[i]));
      }
    }

    /** One frame: an output for the first of every `factor` samples, the others only enter the buffer. */
    method FilterFrame(v: seq<T>, out: array<T>)
      requires Valid() && out != mem && out.Length >= |v| / factor
      modifies this`inptr, this`past, this`output, mem, out
      ensures Valid() && past == old(past) + Consumed(factor, v)
      ensures out[..|v| / factor] == Decimated(a, coeffs, factor, old(past), v)
      ensures out[|v| / factor..] == old(out[|v| / factor..])
    {
      ghost var before := past;
      ghost var target := Decimated(a, coeffs, factor, before, v);
      ghost var rest := out[|v| / factor..];
      for i := 0 to |v| / factor
        invariant Valid() && i * factor <= |v| && past == before + v[..i * factor]
        invariant out[..i] == target[..i] && out[|v| / factor..] == rest
      {
        var r := FilterGroup(v, i, before);
        out[i] := r;
        assert out[..i + 1] == target[..i + 1];
      }
    }

    /** The body of the frame loop. */
    method FilterGroup(v: seq<T>, i: nat, ghost before: seq<T>) returns (r: T)
      requires Valid() && i < |v| / factor && i * factor <= |v| && past == before + v[..i * factor]
      modifies this`inptr, this`past, this`output, mem
      ensures Valid() && (i + 1) * factor <= |v| && past == before + v[..(i + 1) * factor]
      ensures r == Decimated(a, coeffs, factor, before, v)[i]
    {
      Whole(|v|, factor, i);
      var base := i * factor;
      r := Filter(v[base]);
      assert past == before + v[..base + 1];
      PrefixOutput(a, coeffs, before, v, base);
      for j := 1 to factor
        invariant Valid() && past == before + v[..base + j]
      {
        PutSample(v[base + j]);
        assert past == before + v[..base + j + 1];
      }
      assert (i + 1) * factor == base + factor;
    }
  }
}
