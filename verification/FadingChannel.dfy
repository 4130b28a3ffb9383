/** The overlap-add of block_FadingChannel.cpp: frames that come out of the channel longer than they went in. */
module FadingChannel {
  datatype Complex = Complex(re: real, im: real)

  const ZERO := Complex(0.0, 0.0)

  function Add(x: Complex, y: Complex): Complex { Complex(x.re + y.re, x.im + y.im) }

  /** A response as a signal over all time: nothing before it starts, nothing after it ends. */
  function At(response: seq<Complex>, i: int): Complex {
    if 0 <= i < |response| then response[i] else ZERO
  }

  /** The sum of the responses at time t, the k-th one shifted by the start k * n of its frame. */
  function Superposition(responses: seq<seq<Complex>>, n: nat, t: int): Complex {
    if responses == [] then ZERO else
      var k := |responses| - 1;
      Add(Superposition(responses[..k], n, t), At(responses[k], t - k * n))
  }

  // ---- what superposition means ----

  predicate Silent(response: seq<Complex>) {
    forall i :: 0 <= i < |response| ==> response[i] == ZERO
  }

  lemma {:induction false} SilentFrames(responses: seq<seq<Complex>>, n: nat, t: int)
    requires forall j :: 0 <= j < |responses| ==> Silent(responses[j])
    ensures Superposition(responses, n, t) == ZERO
  {
    if responses != [] {
      SilentFrames(responses[..|responses| - 1], n, t);
    }
  }

  /** A frame on its own is heard as it is, from the start of the frame on. */
  lemma {:induction false} OneFrameHeard(responses: seq<seq<Complex>>, n: nat, k: nat, t: int)
    requires k < |responses| && forall j :: 0 <= j < |responses| && j != k ==> Silent(responses[j])
    ensures Superposition(responses, n, t) == At(responses[k], t - k * n)
    decreases |responses|
  {
    var last := |responses| - 1;
    if k == last {
      SilentFrames(responses[..last], n, t);
    } else {
      OneFrameHeard(responses[..last], n, k, t);
      assert Silent(responses[last]);
    }
  }

  /** The responses of one channel on top of those of another. */
  ghost predicate SumOf(both: seq<seq<Complex>>, a: seq<seq<Complex>>, b: seq<seq<Complex>>) {
    && |both| == |a| == |b|
    && forall k, i :: 0 <= k < |both| ==> At(both[k], i) == Add(At(a[k], i), At(b[k], i))
  }

  lemma AddLaws(x: Complex, y: Complex, z: Complex)
    ensures Add(x, y) == Add(y, x) && Add(x, ZERO) == x && Add(Add(x, y), z) == Add(x, Add(y, z))
    ensures Add(x, y) == Add(x, z) ==> y == z
  {
  }

  lemma Exchange(p: Complex, q: Complex, r: Complex, s: Complex)
    ensures Add(Add(p, q), Add(r, s)) == Add(Add(p, r), Add(q, s))
  {
  }

  lemma SumOfFront(both: seq<seq<Complex>>, a: seq<seq<Complex>>, b: seq<seq<Complex>>)
    requires SumOf(both, a, b) && both != []
    ensures SumOf(both[..|both| - 1], a[..|a| - 1], b[..|b| - 1])
  {
  }

  /** The superposition of sums is the sum of the superpositions. */
  lemma {:induction false} SuperpositionIsLinear(both: seq<seq<Complex>>, a: seq<seq<Complex>>, b: seq<seq<Complex>>, n: nat, t: int)
    requires SumOf(both, a, b)
    ensures Superposition(both, n, t) == Add(Superposition(a, n, t), Superposition(b, n, t))
  {
    if both != [] {
      var k := |both| - 1;
      var i := t - k * n;
      SumOfFront(both, a, b);
      SuperpositionIsLinear(both[..k], a[..k], b[..k], n, t);
      assert At(both[k], i) == Add(At(a[k], i), At(b[k], i));
      Exchange(Superposition(a[..k], n, t), Superposition(b[..k], n, t), At(a[k], i), At(b[k], i));
    }
  }

  // ---- overlap-add ----

  /** Everything is over when the last response is. */
  lemma {:induction false} SilenceAtTheEnd(responses: seq<seq<Complex>>, n: nat, tail: nat, t: int)
    requires forall r :: r in responses ==> |r| == n + tail
    requires t >= |responses| * n + tail
    ensures Superposition(responses, n, t) == ZERO
  {
    if responses != [] {
      var k := |responses| - 1;
      Distribute(k, n);
      SilenceAtTheEnd(responses[..k], n, tail, t);
    }
  }

  /** The output of one frame: the first n samples of its response, the old tail added to the first of them. */
  function Overlapped(tail: seq<Complex>, response: seq<Complex>, n: nat): (out: seq<Complex>)
    requires |tail| <= n <= |response|
    ensures |out| == n
  {
    seq(n, i requires 0 <= i < n => if i < |tail| then Add(response[i], tail[i]) else response[i])
  }

  predicate Lengths(responses: seq<seq<Complex>>, n: nat, t: nat) {
    t <= n && forall r :: r in responses ==> |r| == n + t
  }

  /** All output samples after some frames, and the tail that is carried over; there is no tail but zeros at the start. */
  function Stream(responses: seq<seq<Complex>>, n: nat, t: nat): (r: (seq<Complex>, seq<Complex>))
    requires Lengths(responses, n, t)
    ensures |r.1| == t
  {
    if responses == [] then ([], seq(t, _ => ZERO)) else
      var k := |responses| - 1;
      var (sent, tail) := Stream(responses[..k], n, t);
      (sent + Overlapped(tail, responses[k], n), responses[k][n..])
  }

  /** One sample of the output and tail after one more frame. */
  lemma OneMoreSample(sent: seq<Complex>, tail: seq<Complex>, response: seq<Complex>, n: nat, sum: Complex, i: nat)
    requires |tail| <= n && |response| == n + |tail| && i < |sent| + |response|
    requires sum == if i < |sent| + |tail| then (sent + tail)[i] else ZERO
    ensures (sent + Overlapped(tail, response, n) + response[n..])[i] == Add(sum, At(response, i - |sent|))
  {
  }

  /** After any number of frames the output, followed by the tail, is the superposition of all responses. */
  lemma {:induction false} OverlapAddIsExact(responses: seq<seq<Complex>>, n: nat, t: nat, i: nat)
    requires Lengths(responses, n, t)
    ensures var (sent, tail) := Stream(responses, n, t);
            |sent| == |responses| * n && (i < |sent| + t ==> (sent + tail)[i] == Superposition(responses, n, i))
  {
    if responses != [] {
      var k := |responses| - 1;
      OverlapAddIsExact(responses[..k], n, t, i);
      var (sent, tail) := Stream(responses[..k], n, t);
      Distribute(k, n);
      if |sent| + t <= i {
        SilenceAtTheEnd(responses[..k], n, t, i);
      }
      if i < |sent| + n + t {
        OneMoreSample(sent, tail, responses[k], n, Superposition(responses[..k], n, i), i);
      }
    }
  }

  lemma Distribute(k: nat, n: nat)
    ensures (k + 1) * n == k * n + n
  {
  }

  class FadingChannel {
    const tailLength: nat
    var tail: seq<Complex>
    var outputTmp: seq<Complex>

    /** The frame size, what the channel filter returned for each frame, and all output samples in order. */
    ghost const frame: nat
    ghost var responses: seq<seq<Complex>>
    ghost var sent: seq<Complex>

    ghost predicate Valid()
      reads this
    {
      && 1 <= tailLength <= frame && Lengths(responses, frame, tailLength)
      && (sent, tail) == Stream(responses, frame, tailLength)
    }

    /** The channel filter, run on no input at all, leaves a tail of zeros. */
    constructor (t: nat, ghost n: nat)
      requires 1 <= t <= n
      ensures Valid() && tailLength == t && frame == n && responses == []
    {
      tailLength := t;
      tail := seq(t, _ => ZERO);
      outputTmp := [];
      frame := n;
      responses, sent := [], [];
    }

    /** One frame, whose response the channel filter has computed. */
    method Process(response: seq<Complex>, out: array<Complex>)
      requires Valid() && out.Length == frame && |response| == frame + tailLength
      modifies this`tail, this`outputTmp, this`responses, this`sent, out
      ensures Valid() && responses == old(responses) + [response]
      ensures sent == old(sent) + out[..]
    {
      outputTmp := response;
      forall i | 0 <= i < out.Length {
        out[i] := outputTmp[i];
      }
      forall i | 0 <= i < tailLength {
        out[i] := Add(out[i], tail[i]);
      }
      ghost var all := responses + [response];
      assert all[..|responses|] == responses;
      assert out[..] == Overlapped(tail, response, frame);
      tail := outputTmp[out.Length..];
      responses := all;
      sent := sent + out[..];
    }
  }
}
