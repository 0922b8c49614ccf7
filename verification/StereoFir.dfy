/** The 2x2 convolution the engine is loaded with (src/convolver_host.cpp:215-232), as a block processor that
    remembers only the last kernel-length input samples, and as one sum over a whole stream. */
module StereoFir {

  /** The four impulse responses; all have the length of `left`. The cross paths exist for four channels only. */
  datatype Kernel = Kernel(channels: nat, left: seq<real>, right: seq<real>, leftRight: seq<real>, rightLeft: seq<real>)

  /** A stereo signal; both sides always have the same length. */
  datatype Stereo = Stereo(l: seq<real>, r: seq<real>) {
    ghost predicate Lockstep() {
      |l| == |r|
    }

    function Take(n: nat): Stereo
      requires n <= |l| && n <= |r|
    {
      Stereo(l[..n], r[..n])
    }

    function Drop(n: nat): Stereo
      requires n <= |l| && n <= |r|
    {
      Stereo(l[n..], r[n..])
    }

    function Append(s: Stereo): Stereo {
      Stereo(l + s.l, r + s.r)
    }
  }

  const SILENT := Stereo([], [])

  function Zeros(n: nat): (z: seq<real>)
    ensures |z| == n && forall i :: 0 <= i < n ==> z[i] == 0.0
  {
    seq(n, i => 0.0)
  }

  function Silence(n: nat): Stereo {
    Stereo(Zeros(n), Zeros(n))
  }

  /** Sample `i` of a signal that is zero outside its recorded range. */
  function At(x: seq<real>, i: int): real {
    if 0 <= i < |x| then x[i] else 0.0
  }

  /** The taps `j..` of `h` applied at position `i` of `x`. */
  function TapSum(h: seq<real>, x: seq<real>, i: int, j: nat): real
    decreases |h| - j
  {
    if j >= |h| then 0.0 else h[j] * At(x, i - j) + TapSum(h, x, i, j + 1)
  }

  /** One pair of output samples: each output sums its direct path and, for four channels, its cross path. */
  function OutLeft(k: Kernel, x: Stereo, i: int): real {
    TapSum(k.left, x.l, i, 0) + (if k.channels == 4 then TapSum(k.rightLeft, x.r, i, 0) else 0.0)
  }

  function OutRight(k: Kernel, x: Stereo, i: int): real {
    TapSum(k.right, x.r, i, 0) + (if k.channels == 4 then TapSum(k.leftRight, x.l, i, 0) else 0.0)
  }

  /** The convolution of a whole stream. */
  function Convolve(k: Kernel, x: Stereo): (y: Stereo)
    ensures |y.l| == |y.r| == |x.l|
    ensures forall i :: 0 <= i < |x.l| ==> y.l[i] == OutLeft(k, x, i) && y.r[i] == OutRight(k, x, i)
  {
    Stereo(seq(|x.l|, i => OutLeft(k, x, i)), seq(|x.l|, i => OutRight(k, x, i)))
  }

  /** What the engine remembers between blocks: as many input samples as the kernel has taps. */
  function Memory(k: Kernel): nat {
    |k.left|
  }

  ghost predicate WellFormed(k: Kernel) {
    |k.right| == Memory(k) && (k.channels == 4 ==> |k.leftRight| == |k.rightLeft| == Memory(k))
  }

  function Recent(k: Kernel, x: Stereo): (h: Stereo)
    ensures |h.l| == |h.r| == Memory(k)
  {
    Stereo(LastSamples(Memory(k), x.l), LastSamples(Memory(k), x.r))
  }

  /** The last `m` samples of a signal that was silent before it began. */
  function LastSamples(m: nat, x: seq<real>): (h: seq<real>)
    ensures |h| == m
  {
    (Zeros(m) + x)[|x|..]
  }

  /** One block through the engine: the output, computed from the remembered samples and the block alone. */
  function BlockOutput(k: Kernel, recent: Stereo, block: Stereo): (y: Stereo)
    requires |recent.l| == |recent.r| == Memory(k)
    ensures |y.l| == |y.r| == |block.l|
  {
    var window := recent.Append(block);
    Stereo(seq(|block.l|, i => OutLeft(k, window, Memory(k) + i)),
           seq(|block.l|, i => OutRight(k, window, Memory(k) + i)))
  }

  function NextRecent(k: Kernel, recent: Stereo, block: Stereo): (h: Stereo)
    requires |recent.l| == |recent.r| == Memory(k) && block.Lockstep()
    ensures |h.l| == |h.r| == Memory(k)
  {
    recent.Append(block).Drop(|block.l|)
  }

  ghost predicate SameTap(x: seq<real>, a: int, y: seq<real>, b: int, t: nat) {
    At(x, a - t) == At(y, b - t)
  }

  lemma {:induction false} TapSumLocal(h: seq<real>, x: seq<real>, a: int, y: seq<real>, b: int, j: nat)
    requires forall t: nat :: j <= t < |h| ==> SameTap(x, a, y, b, t)
    ensures TapSum(h, x, a, j) == TapSum(h, y, b, j)
    decreases |h| - j
  {
    if j < |h| {
      assert SameTap(x, a, y, b, j);
      TapSumLocal(h, x, a, y, b, j + 1);
    }
  }

  lemma OutLocal(k: Kernel, x: Stereo, a: int, y: Stereo, b: int)
    requires WellFormed(k)
    requires forall t: nat :: t < Memory(k) ==> SameTap(x.l, a, y.l, b, t) && SameTap(x.r, a, y.r, b, t)
    ensures OutLeft(k, x, a) == OutLeft(k, y, b) && OutRight(k, x, a) == OutRight(k, y, b)
  {
    TapSumLocal(k.left, x.l, a, y.l, b, 0);
    TapSumLocal(k.right, x.r, a, y.r, b, 0);
    if k.channels == 4 {
      TapSumLocal(k.rightLeft, x.r, a, y.r, b, 0);
      TapSumLocal(k.leftRight, x.l, a, y.l, b, 0);
    }
  }

  /** Convolution is causal: a longer stream begins with the output of its prefix. */
  lemma ConvolveCausal(k: Kernel, x: Stereo, more: Stereo)
    requires WellFormed(k) && x.Lockstep() && more.Lockstep()
    ensures Convolve(k, x.Append(more)).Take(|x.l|) == Convolve(k, x)
  {
    var all := x.Append(more);
    forall i | 0 <= i < |x.l|
      ensures OutLeft(k, all, i) == OutLeft(k, x, i) && OutRight(k, all, i) == OutRight(k, x, i)
    {
      OutLocal(k, all, i, x, i);
    }
    assert Convolve(k, all).l[..|x.l|] == Convolve(k, x).l;
    assert Convolve(k, all).r[..|x.l|] == Convolve(k, x).r;
  }

  lemma LastSamplesAdvance(m: nat, x: seq<real>, block: seq<real>)
    ensures (LastSamples(m, x) + block)[|block|..] == LastSamples(m, x + block)
  {
    var z := Zeros(m);
    assert (z + x)[|x|..] + block == (z + x + block)[|x|..];
    assert z + x + block == z + (x + block);
  }

  lemma RecentAdvances(k: Kernel, x: Stereo, block: Stereo)
    requires x.Lockstep() && block.Lockstep()
    ensures NextRecent(k, Recent(k, x), block) == Recent(k, x.Append(block))
  {
    LastSamplesAdvance(Memory(k), x.l, block.l);
    LastSamplesAdvance(Memory(k), x.r, block.r);
  }

  /** The window the engine filters, remembered samples and block, shows the same taps as the stream. */
  lemma WindowTap(m: nat, x: seq<real>, block: seq<real>, i: nat, t: nat)
    requires i < |block| && t < m
    ensures SameTap(LastSamples(m, x) + block, m + i, x + block, |x| + i, t)
  {
    var z := Zeros(m);
    var window := LastSamples(m, x) + block;
    if i < t {
      assert window[m + i - t] == (z + x)[|x| + m + i - t];
    }
  }

  /** Filtering block by block with bounded memory yields the next samples of the whole-stream convolution. */
  lemma BlockIsStreamConvolution(k: Kernel, x: Stereo, block: Stereo)
    requires WellFormed(k) && x.Lockstep() && block.Lockstep()
    ensures Convolve(k, x).Append(BlockOutput(k, Recent(k, x), block)) == Convolve(k, x.Append(block))
  {
    var all, n := x.Append(block), |x.l|;
    var y := BlockOutput(k, Recent(k, x), block);
    var rest := Convolve(k, all).Drop(n);
    assert y.l == rest.l && y.r == rest.r by {
      forall i | 0 <= i < |rest.l|
        ensures y.l[i] == rest.l[i] && y.r[i] == rest.r[i]
      {
        BlockSample(k, x, block, i);
      }
    }
    ConvolveCausal(k, x, block);
    assert Convolve(k, all).l == Convolve(k, all).l[..n] + y.l;
    assert Convolve(k, all).r == Convolve(k, all).r[..n] + y.r;
  }

  lemma BlockSample(k: Kernel, x: Stereo, block: Stereo, i: nat)
    requires WellFormed(k) && x.Lockstep() && block.Lockstep() && i < |block.l|
    ensures BlockOutput(k, Recent(k, x), block).l[i] == OutLeft(k, x.Append(block), |x.l| + i)
    ensures BlockOutput(k, Recent(k, x), block).r[i] == OutRight(k, x.Append(block), |x.l| + i)
  {
    var m := Memory(k);
    var window, all, a, b := Recent(k, x).Append(block), x.Append(block), m + i, |x.l| + i;
    forall t: nat | t < m
      ensures SameTap(window.l, a, all.l, b, t) && SameTap(window.r, a, all.r, b, t)
    {
      WindowTap(m, x.l, block.l, i, t);
      WindowTap(m, x.r, block.r, i, t);
    }
    OutLocal(k, window, a, all, b);
  }

  // What the convolution is: linear, and given by its answers to impulses

  predicate IsImpulse(x: seq<real>, p: nat) {
    p < |x| && forall i :: 0 <= i < |x| ==> x[i] == if i == p then 1.0 else 0.0
  }

  predicate IsSilent(x: seq<real>) {
    forall i :: 0 <= i < |x| ==> x[i] == 0.0
  }

  lemma {:induction false} TapSumOfImpulse(h: seq<real>, x: seq<real>, p: nat, i: int, j: nat)
    requires IsImpulse(x, p)
    ensures TapSum(h, x, i, j) == if j <= i - p then At(h, i - p) else 0.0
    decreases |h| - j
  {
    if j < |h| {
      TapSumOfImpulse(h, x, p, i, j + 1);
    }
  }

  lemma {:induction false} TapSumOfSilence(h: seq<real>, x: seq<real>, i: int, j: nat)
    requires IsSilent(x)
    ensures TapSum(h, x, i, j) == 0.0
    decreases |h| - j
  {
    if j < |h| {
      TapSumOfSilence(h, x, i, j + 1);
    }
  }

  /** An impulse on the left comes out on the left as the left response, and on the right as the left-to-right
      response of a kernel that has cross paths. */
  lemma LeftImpulse(k: Kernel, x: Stereo, p: nat, i: nat)
    requires x.Lockstep() && IsImpulse(x.l, p) && IsSilent(x.r) && i < |x.l|
    ensures Convolve(k, x).l[i] == At(k.left, i - p)
    ensures Convolve(k, x).r[i] == if k.channels == 4 then At(k.leftRight, i - p) else 0.0
  {
    TapSumOfImpulse(k.left, x.l, p, i, 0);
    TapSumOfImpulse(k.leftRight, x.l, p, i, 0);
    TapSumOfSilence(k.right, x.r, i, 0);
    TapSumOfSilence(k.rightLeft, x.r, i, 0);
  }

  /** And an impulse on the right likewise. */
  lemma RightImpulse(k: Kernel, x: Stereo, p: nat, i: nat)
    requires x.Lockstep() && IsImpulse(x.r, p) && IsSilent(x.l) && i < |x.l|
    ensures Convolve(k, x).r[i] == At(k.right, i - p)
    ensures Convolve(k, x).l[i] == if k.channels == 4 then At(k.rightLeft, i - p) else 0.0
  {
    TapSumOfImpulse(k.right, x.r, p, i, 0);
    TapSumOfImpulse(k.rightLeft, x.r, p, i, 0);
    TapSumOfSilence(k.left, x.l, i, 0);
    TapSumOfSilence(k.leftRight, x.l, i, 0);
  }

  function Mix(a: real, x: real, b: real, y: real): real {
    a * x + b * y
  }

  /** `z` is `a` times `x` plus `b` times `y`, sample for sample. */
  ghost predicate IsMix(z: seq<real>, a: real, x: seq<real>, b: real, y: seq<real>) {
    |z| == |x| == |y| && forall i :: 0 <= i < |z| ==> z[i] == Mix(a, x[i], b, y[i])
  }

  lemma AtOfMix(z: seq<real>, a: real, x: seq<real>, b: real, y: seq<real>, i: int)
    requires IsMix(z, a, x, b, y)
    ensures At(z, i) == Mix(a, At(x, i), b, At(y, i))
  {
  }

  lemma TapOfMix(t: real, a: real, x: real, b: real, y: real)
    ensures t * Mix(a, x, b, y) == Mix(a, t * x, b, t * y)
  {
  }

  lemma SumOfMixes(a: real, x: real, u: real, b: real, y: real, v: real)
    ensures Mix(a, x, b, y) + Mix(a, u, b, v) == Mix(a, x + u, b, y + v)
  {
  }

  lemma {:induction false} TapSumIsLinear(h: seq<real>, z: seq<real>, a: real, x: seq<real>, b: real, y: seq<real>,
                                          i: int, j: nat)
    requires IsMix(z, a, x, b, y)
    ensures TapSum(h, z, i, j) == Mix(a, TapSum(h, x, i, j), b, TapSum(h, y, i, j))
    decreases |h| - j
  {
    if j >= |h| {
      assert TapSum(h, z, i, j) == 0.0;
    } else {
      hide Mix, IsMix, At;
      TapSumIsLinear(h, z, a, x, b, y, i, j + 1);
      AtOfMix(z, a, x, b, y, i - j);
      TapOfMix(h[j], a, At(x, i - j), b, At(y, i - j));
      SumOfMixes(a, h[j] * At(x, i - j), TapSum(h, x, i, j + 1), b, h[j] * At(y, i - j), TapSum(h, y, i, j + 1));
    }
  }

  lemma OutIsLinear(k: Kernel, z: Stereo, a: real, x: Stereo, b: real, y: Stereo, i: int)
    requires IsMix(z.l, a, x.l, b, y.l) && IsMix(z.r, a, x.r, b, y.r)
    ensures OutLeft(k, z, i) == Mix(a, OutLeft(k, x, i), b, OutLeft(k, y, i))
    ensures OutRight(k, z, i) == Mix(a, OutRight(k, x, i), b, OutRight(k, y, i))
  {
    hide TapSum, IsMix, Mix;
    TapSumIsLinear(k.left, z.l, a, x.l, b, y.l, i, 0);
    TapSumIsLinear(k.right, z.r, a, x.r, b, y.r, i, 0);
    if k.channels == 4 {
      TapSumIsLinear(k.rightLeft, z.r, a, x.r, b, y.r, i, 0);
      TapSumIsLinear(k.leftRight, z.l, a, x.l, b, y.l, i, 0);
      SumOfMixes(a, TapSum(k.left, x.l, i, 0), TapSum(k.rightLeft, x.r, i, 0),
                 b, TapSum(k.left, y.l, i, 0), TapSum(k.rightLeft, y.r, i, 0));
      SumOfMixes(a, TapSum(k.right, x.r, i, 0), TapSum(k.leftRight, x.l, i, 0),
                 b, TapSum(k.right, y.r, i, 0), TapSum(k.leftRight, y.l, i, 0));
    }
  }

  /** The convolution of a mix is the mix of the convolutions. */
  lemma ConvolveIsLinear(k: Kernel, z: Stereo, a: real, x: Stereo, b: real, y: Stereo)
    requires x.Lockstep() && y.Lockstep() && z.Lockstep()
    requires IsMix(z.l, a, x.l, b, y.l) && IsMix(z.r, a, x.r, b, y.r)
    ensures IsMix(Convolve(k, z).l, a, Convolve(k, x).l, b, Convolve(k, y).l)
    ensures IsMix(Convolve(k, z).r, a, Convolve(k, x).r, b, Convolve(k, y).r)
  {
    hide OutLeft, OutRight, Mix;
    forall i | 0 <= i < |z.l|
      ensures OutLeft(k, z, i) == Mix(a, OutLeft(k, x, i), b, OutLeft(k, y, i))
      ensures OutRight(k, z, i) == Mix(a, OutRight(k, x, i), b, OutRight(k, y, i))
    {
      OutIsLinear(k, z, a, x, b, y, i);
    }
  }
}
