/** What makes the matched filter a filter: its impulse response, linearity and time invariance, which together fix it. */
module FilterLaws {
  import opened MatchedFilter

  // ---- laws of an arithmetic ----

  ghost predicate ZeroLaws<T(!new), C(!new)>(a: Arithmetic<T, C>) {
    && (forall t: T :: a.add(a.zero, t) == t && a.add(t, a.zero) == t)
    && (forall c: C :: a.mul(c, a.zero) == a.zero)
  }

  ghost predicate SumLaws<T(!new), C(!new)>(a: Arithmetic<T, C>) {
    && (forall s: T, t: T :: a.add(s, t) == a.add(t, s))
    && (forall r: T, s: T, t: T :: a.add(a.add(r, s), t) == a.add(r, a.add(s, t)))
  }

  ghost predicate Distributes<T(!new), C(!new)>(a: Arithmetic<T, C>) {
    forall c: C, s: T, t: T :: a.mul(c, a.add(s, t)) == a.add(a.mul(c, s), a.mul(c, t))
  }

  /** The terms of two sums may be exchanged, which is all that the filter needs of the laws of sums. */
  ghost predicate Exchanges<T(!new), C(!new)>(a: Arithmetic<T, C>) {
    forall p: T, q: T, r: T, s: T :: a.add(a.add(p, q), a.add(r, s)) == a.add(a.add(p, r), a.add(q, s))
  }

  lemma SumsExchange<T(!new), C(!new)>(a: Arithmetic<T, C>)
    requires SumLaws(a)
    ensures Exchanges(a)
  {
    forall p: T, q: T, r: T, s: T ensures a.add(a.add(p, q), a.add(r, s)) == a.add(a.add(p, r), a.add(q, s)) {
      calc {
        a.add(a.add(p, q), a.add(r, s));
        a.add(p, a.add(q, a.add(r, s)));
        a.add(p, a.add(a.add(q, r), s));
        a.add(p, a.add(a.add(r, q), s));
        a.add(p, a.add(r, a.add(q, s)));
        a.add(a.add(p, r), a.add(q, s));
      }
    }
  }

  /** A map of samples that respects sums and products, like the multiplication by a number. */
  ghost predicate Scales<T(!new), C(!new)>(a: Arithmetic<T, C>, scale: T -> T) {
    && scale(a.zero) == a.zero
    && (forall s: T, t: T :: scale(a.add(s, t)) == a.add(scale(s), scale(t)))
    && (forall c: C, t: T :: scale(a.mul(c, t)) == a.mul(c, scale(t)))
  }

  // ---- streams ----

  function Zeros<T, C>(a: Arithmetic<T, C>, n: nat): (x: seq<T>)
    ensures |x| == n && forall i :: 0 <= i < n ==> x[i] == a.zero
  {
    seq(n, i => a.zero)
  }

  /** The sample u, and n zeros after it. */
  function Impulse<T, C>(a: Arithmetic<T, C>, u: T, n: nat): (x: seq<T>)
    ensures |x| == n + 1 && x[0] == u && forall i :: 0 < i <= n ==> x[i] == a.zero
  {
    [u] + Zeros(a, n)
  }

  function Added<T, C>(a: Arithmetic<T, C>, x: seq<T>, y: seq<T>): (z: seq<T>)
    requires |x| == |y|
    ensures |z| == |x| && forall i :: 0 <= i < |x| ==> z[i] == a.add(x[i], y[i])
  {
    seq(|x|, i requires 0 <= i < |x| == |y| => a.add(x[i], y[i]))
  }

  function Mapped<T>(scale: T -> T, x: seq<T>): (z: seq<T>)
    ensures |z| == |x| && forall i :: 0 <= i < |x| ==> z[i] == scale(x[i])
  {
    seq(|x|, i requires 0 <= i < |x| => scale(x[i]))
  }

  /** The output of the filter at the last sample of x. */
  function Output<T, C>(a: Arithmetic<T, C>, coeffs: seq<C>, x: seq<T>): T
    requires x != []
  {
    Fir(a, coeffs, x, |x| - 1, |coeffs|)
  }

  // ---- the laws ----

  lemma {:induction false} ImpulseSum<T(!new), C(!new)>(a: Arithmetic<T, C>, coeffs: seq<C>, u: T, m: nat, n: nat)
    requires ZeroLaws(a) && n <= |coeffs|
    ensures Fir(a, coeffs, Impulse(a, u, m), m, n) == if m < n then a.mul(coeffs[m], u) else a.zero
  {
    if n > 0 {
      ImpulseSum(a, coeffs, u, m, n - 1);
    }
  }

  /** An impulse brings out one coefficient after the other, and then zeros. */
  lemma ImpulseResponse<T(!new), C(!new)>(a: Arithmetic<T, C>, coeffs: seq<C>, u: T, m: nat)
    requires ZeroLaws(a)
    ensures Output(a, coeffs, Impulse(a, u, m)) == if m < |coeffs| then a.mul(coeffs[m], u) else a.zero
  {
    ImpulseSum(a, coeffs, u, m, |coeffs|);
  }

  /** The filter does not know when the stream started. */
  lemma {:induction false} ShiftInvariant<T, C>(a: Arithmetic<T, C>, coeffs: seq<C>, k: nat, x: seq<T>, pos: nat, n: nat)
    requires pos < |x| && n <= |coeffs|
    ensures Fir(a, coeffs, Zeros(a, k) + x, k + pos, n) == Fir(a, coeffs, x, pos, n)
  {
    if n > 0 {
      ShiftInvariant(a, coeffs, k, x, pos, n - 1);
    }
  }

  /** The filter of a sum of streams is the sum of their filters. */
  lemma {:induction false} Additive<T(!new), C(!new)>(a: Arithmetic<T, C>, coeffs: seq<C>, x: seq<T>, y: seq<T>, pos: nat, n: nat)
    requires ZeroLaws(a) && Exchanges(a) && Distributes(a) && |x| == |y| && pos < |x| && n <= |coeffs|
    ensures Fir(a, coeffs, Added(a, x, y), pos, n) == a.add(Fir(a, coeffs, x, pos, n), Fir(a, coeffs, y, pos, n))
  {
    if n > 0 {
      Additive(a, coeffs, x, y, pos, n - 1);
      var c, i := coeffs[n - 1], pos - (n - 1);
      var s, t := Sample(a, x, i), Sample(a, y, i);
      assert Sample(a, Added(a, x, y), i) == a.add(s, t);
      var p, q := Fir(a, coeffs, x, pos, n - 1), Fir(a, coeffs, y, pos, n - 1);
      assert a.add(a.add(p, q), a.add(a.mul(c, s), a.mul(c, t))) == a.add(a.add(p, a.mul(c, s)), a.add(q, a.mul(c, t)));
    }
  }

  /** The filter of a scaled stream is the scaled filter of the stream. */
  lemma {:induction false} Homogeneous<T(!new), C(!new)>(a: Arithmetic<T, C>, coeffs: seq<C>, scale: T -> T, x: seq<T>, pos: nat, n: nat)
    requires Scales(a, scale) && pos < |x| && n <= |coeffs|
    ensures Fir(a, coeffs, Mapped(scale, x), pos, n) == scale(Fir(a, coeffs, x, pos, n))
  {
    if n > 0 {
      Homogeneous(a, coeffs, scale, x, pos, n - 1);
    }
  }

  // ---- the laws fix the filter ----

  ghost predicate RespectsSums<T(!new), C(!new)>(a: Arithmetic<T, C>, rule: seq<T> -> T) {
    forall x: seq<T>, y: seq<T> :: |x| == |y| > 0 ==> rule(Added(a, x, y)) == a.add(rule(x), rule(y))
  }

  ghost predicate IgnoresStart<T(!new), C(!new)>(a: Arithmetic<T, C>, rule: seq<T> -> T) {
    forall k: nat, x: seq<T> :: x != [] ==> rule(Zeros(a, k) + x) == rule(x)
  }

  ghost predicate HasResponse<T(!new), C(!new)>(a: Arithmetic<T, C>, coeffs: seq<C>, rule: seq<T> -> T) {
    forall u: T, m: nat :: rule(Impulse(a, u, m)) == if m < |coeffs| then a.mul(coeffs[m], u) else a.zero
  }

  /** The output at the last sample of a stream, for any stream. */
  function OutputRule<T, C>(a: Arithmetic<T, C>, coeffs: seq<C>): seq<T> -> T {
    (x: seq<T>) => if x == [] then a.zero else Output(a, coeffs, x)
  }

  lemma FilterRespectsSums<T(!new), C(!new)>(a: Arithmetic<T, C>, coeffs: seq<C>)
    requires ZeroLaws(a) && Exchanges(a) && Distributes(a)
    ensures RespectsSums(a, OutputRule(a, coeffs))
  {
    forall x: seq<T>, y: seq<T> | |x| == |y| > 0
      ensures OutputRule(a, coeffs)(Added(a, x, y)) == a.add(OutputRule(a, coeffs)(x), OutputRule(a, coeffs)(y))
    {
      Additive(a, coeffs, x, y, |x| - 1, |coeffs|);
    }
  }

  lemma FilterIgnoresStart<T(!new), C(!new)>(a: Arithmetic<T, C>, coeffs: seq<C>)
    ensures IgnoresStart(a, OutputRule(a, coeffs))
  {
    forall k: nat, x: seq<T> | x != [] ensures OutputRule(a, coeffs)(Zeros(a, k) + x) == OutputRule(a, coeffs)(x) {
      ShiftInvariant(a, coeffs, k, x, |x| - 1, |coeffs|);
    }
  }

  lemma FilterHasResponse<T(!new), C(!new)>(a: Arithmetic<T, C>, coeffs: seq<C>)
    requires ZeroLaws(a)
    ensures HasResponse(a, coeffs, OutputRule(a, coeffs))
  {
    forall u: T, m: nat ensures OutputRule(a, coeffs)(Impulse(a, u, m)) == if m < |coeffs| then a.mul(coeffs[m], u) else a.zero {
      ImpulseResponse(a, coeffs, u, m);
    }
  }

  /** The filter is linear and time-invariant, and the coefficients are its impulse response. */
  lemma FilterResponds<T(!new), C(!new)>(a: Arithmetic<T, C>, coeffs: seq<C>)
    requires ZeroLaws(a) && SumLaws(a) && Distributes(a)
    ensures var rule := OutputRule(a, coeffs); RespectsSums(a, rule) && IgnoresStart(a, rule) && HasResponse(a, coeffs, rule)
  {
    SumsExchange(a);
    FilterRespectsSums(a, coeffs);
    FilterIgnoresStart(a, coeffs);
    FilterHasResponse(a, coeffs);
  }

  /** A stream is the impulse of its first sample plus the rest, one step later. */
  lemma FirstAndRest<T(!new), C(!new)>(a: Arithmetic<T, C>, x: seq<T>)
    requires ZeroLaws(a) && x != []
    ensures x == Added(a, Impulse(a, x[0], |x| - 1), Zeros(a, 1) + x[1..])
  {
  }

  lemma RuleSplits<T(!new), C(!new)>(a: Arithmetic<T, C>, coeffs: seq<C>, rule: seq<T> -> T, x: seq<T>)
    requires ZeroLaws(a) && RespectsSums(a, rule) && IgnoresStart(a, rule) && HasResponse(a, coeffs, rule) && |x| > 1
    ensures rule(x) == a.add(if |x| - 1 < |coeffs| then a.mul(coeffs[|x| - 1], x[0]) else a.zero, rule(x[1..]))
  {
    FirstAndRest(a, x);
    calc {
      rule(x);
      rule(Added(a, Impulse(a, x[0], |x| - 1), Zeros(a, 1) + x[1..]));
      a.add(rule(Impulse(a, x[0], |x| - 1)), rule(Zeros(a, 1) + x[1..]));
      a.add(rule(Impulse(a, x[0], |x| - 1)), rule(x[1..]));
    }
  }

  /** Only one rule is linear, time-invariant and has the coefficients as its impulse response. */
  lemma {:induction false} ResponseFixesFilter<T(!new), C(!new)>(a: Arithmetic<T, C>, coeffs: seq<C>, rule: seq<T> -> T, x: seq<T>)
    requires ZeroLaws(a) && SumLaws(a) && Distributes(a) && x != []
    requires RespectsSums(a, rule) && IgnoresStart(a, rule) && HasResponse(a, coeffs, rule)
    ensures rule(x) == Output(a, coeffs, x)
    decreases |x|
  {
    if |x| == 1 {
      assert x == Impulse(a, x[0], 0);
      ImpulseResponse(a, coeffs, x[0], 0);
    } else {
      ResponseFixesFilter(a, coeffs, rule, x[1..]);
      FilterResponds(a, coeffs);
      RuleSplits(a, coeffs, rule, x);
      RuleSplits(a, coeffs, OutputRule(a, coeffs), x);
    }
  }

  // ---- decimation ----

  lemma InFrame(len: nat, d: nat, i: nat)
    requires d >= 1 && i < len / d
    ensures i * d < len && len / 1 == len
  {
    Whole(len, d, i);
  }

  /** The filter that decimates by d puts out the outputs 0, d, 2d, ... of the filter that does not decimate. */
  lemma DecimatedIsEveryDth<T, C>(a: Arithmetic<T, C>, coeffs: seq<C>, d: nat, past: seq<T>, frame: seq<T>, i: nat)
    requires d >= 1 && i < |frame| / d
    ensures |Decimated(a, coeffs, 1, past, frame)| == |frame| && i * d < |frame|
    ensures Decimated(a, coeffs, d, past, frame)[i] == Decimated(a, coeffs, 1, past, frame)[i * d] == Output(a, coeffs, past + frame[..i * d + 1])
  {
    InFrame(|frame|, d, i);
    PrefixOutput(a, coeffs, past, frame, i * d);
  }

  /** With a single coefficient that leaves samples as they are, what is left is the first of every d samples. */
  lemma Downsamples<T(!new), C(!new)>(a: Arithmetic<T, C>, one: C, d: nat, past: seq<T>, frame: seq<T>, i: nat)
    requires ZeroLaws(a) && d >= 1 && i < |frame| / d && forall t: T :: a.mul(one, t) == t
    ensures i * d < |frame| && Decimated(a, [one], d, past, frame)[i] == frame[i * d]
  {
    InFrame(|frame|, d, i);
    var x, pos := past + frame, |past| + i * d;
    assert Fir(a, [one], x, pos, 0) == a.zero;
    assert Sample(a, x, pos) == frame[i * d];
  }
}
