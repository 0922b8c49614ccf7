/** Stereo width and automatic gain of the impulse responses, in place, over the reals
    (src/convolver_host.cpp:108-137 and :163-190). */
module KernelShaping {

  /** The sum of the squares. */
  function Energy(s: seq<real>): (e: real)
    ensures e >= 0.0
  {
    if s == [] then 0.0 else Energy(s[..|s| - 1]) + s[|s| - 1] * s[|s| - 1]
  }

  ghost predicate Scaled(s: seq<real>, t: seq<real>, gain: real) {
    |s| == |t| && forall i :: 0 <= i < |s| ==> t[i] == s[i] * gain
  }

  /** What an energy becomes when the samples are multiplied by a gain. */
  function Gained(gain: real, energy: real): real {
    gain * gain * energy
  }

  lemma {:induction false} EnergyScales(s: seq<real>, t: seq<real>, gain: real)
    requires Scaled(s, t, gain)
    ensures Energy(t) == Gained(gain, Energy(s))
  {
    if s != [] {
      var n := |s| - 1;
      EnergyScales(s[..n], t[..n], gain);
      SquareScales(s[n], gain);
      Distribute(gain * gain, Energy(s[..n]), s[n] * s[n]);
    }
  }

  lemma SquareScales(x: real, gain: real)
    ensures (x * gain) * (x * gain) == gain * gain * (x * x)
  {
  }

  lemma Distribute(a: real, b: real, c: real)
    ensures a * (b + c) == a * b + a * c
  {
  }

  ghost predicate IsSqrt(sqrt: real -> real) {
    forall x :: x > 0.0 ==> sqrt(x) > 0.0 && sqrt(x) * sqrt(x) == x
  }

  function Max(a: real, b: real): real {
    if a >= b then a else b
  }

  function Max4(a: real, b: real, c: real, d: real): (m: real)
    ensures m >= a && m >= b && m >= c && m >= d
    ensures m == a || m == b || m == c || m == d
  {
    Max(Max(a, b), Max(c, d))
  }

  /** What the width does to one direct pair: mid and side are scaled separately. */
  ghost predicate MidSide(l: real, r: real, newL: real, newR: real, mid: real, side: real) {
    && newL + newR == mid * (l + r)
    && newL - newR == side * (l - r)
  }

  /** The mixing weight of the source and the factors it amounts to. */
  function Weight(w: real): real
    requires w != -1.0
  {
    (1.0 - w) / (1.0 + w)
  }

  function Times(a: real, b: real): real {
    a * b
  }

  function MidFactor(w: real): real
    requires w != -1.0
  {
    2.0 / (1.0 + w)
  }

  function SideFactor(w: real): real
    requires w != -1.0
  {
    2.0 * w / (1.0 + w)
  }

  lemma WeightFactors(w: real)
    requires w != -1.0
    ensures 1.0 + Weight(w) == MidFactor(w)
    ensures 1.0 - Weight(w) == SideFactor(w)
  {
    var d := 1.0 + w;
    assert d / d == 1.0;
    assert 2.0 / d == (d + (1.0 - w)) / d && 2.0 * w / d == (d - (1.0 - w)) / d;
  }

  lemma DirectPair(l: real, r: real, x: real)
    ensures MidSide(l, r, l + x * r, r + x * l, 1.0 + x, 1.0 - x)
  {
  }

  lemma ScaledPair(l: real, r: real, a: real, b: real, mid: real, side: real, gain: real)
    requires MidSide(l, r, a, b, mid, side)
    ensures MidSide(l, r, a * gain, b * gain, gain * mid, gain * side)
  {
    Distribute(gain, a, b);
    assert gain * (a + b) == (gain * mid) * (l + r);
    assert a * gain - b * gain == gain * (a - b);
    assert gain * (a - b) == (gain * side) * (l - r);
  }

  /** Width on every sample of a pair of responses. */
  ghost predicate PairShaped(l: seq<real>, r: seq<real>, newL: seq<real>, newR: seq<real>, mid: real, side: real) {
    && |l| == |r| == |newL| == |newR|
    && forall i :: 0 <= i < |l| ==> MidSide(l[i], r[i], newL[i], newR[i], mid, side)
  }

  class KernelData {
    var channels: nat
    const left: array<real>
    const right: array<real>
    const leftRight: array<real>
    const rightLeft: array<real>

    ghost predicate Valid()
      reads this
    {
      && left != right && left != leftRight && left != rightLeft
      && right != leftRight && right != rightLeft && leftRight != rightLeft
      && right.Length == left.Length
      && (channels == 4 ==> leftRight.Length == rightLeft.Length == left.Length)
      && (channels != 4 ==> leftRight.Length == rightLeft.Length == 0)
    }

    constructor (channels: nat, frames: nat)
      ensures Valid() && this.channels == channels && left.Length == frames
      ensures fresh(left) && fresh(right) && fresh(leftRight) && fresh(rightLeft)
    {
      this.channels := channels;
      left := new real[frames];
      right := new real[frames];
      leftRight := new real[if channels == 4 then frames else 0];
      rightLeft := new real[if channels == 4 then frames else 0];
    }

    ghost function Peak(): real
      reads left, right, leftRight, rightLeft
    {
      Max4(Energy(left[..]), Energy(right[..]), Energy(leftRight[..]), Energy(rightLeft[..]))
    }

    /** Scales all paths by one gain so that none has energy above one; responses that already comply are left
        alone, and otherwise the strongest path ends at energy one exactly. */
    method NormalizeKernel(sqrt: real -> real) returns (gain: real)
      requires Valid() && IsSqrt(sqrt)
      modifies left, right, leftRight, rightLeft
      ensures 0.0 < gain <= 1.0
      ensures Scaled(old(left[..]), left[..], gain) && Scaled(old(right[..]), right[..], gain)
      ensures Scaled(old(leftRight[..]), leftRight[..], gain) && Scaled(old(rightLeft[..]), rightLeft[..], gain)
      ensures old(Peak()) <= 1.0 ==> gain == 1.0
      ensures old(Peak()) > 1.0 ==> Peak() == 1.0
      ensures Peak() <= 1.0
    {
      hide Energy, Scaled, Gained, Max4;
      var power := MeasurePeak();
      ScaledByOne(left[..]);
      ScaledByOne(right[..]);
      ScaledByOne(leftRight[..]);
      ScaledByOne(rightLeft[..]);
      if power <= 0.0 {
        return 1.0;
      }
      var inverse := 1.0 / sqrt(power);
      gain := if inverse <= 1.0 then inverse else 1.0;
      GainOfPower(power, sqrt(power), gain);
      ScaleAll(gain);
    }

    method MeasurePeak() returns (power: real)
      requires Valid()
      ensures power == Peak()
    {
      var powerLL, powerRR, powerLR, powerRL := 0.0, 0.0, 0.0, 0.0;
      for i := 0 to left.Length
        invariant powerLL == Energy(left[..][..i]) && powerRR == Energy(right[..][..i])
        invariant channels == 4 ==> powerLR == Energy(leftRight[..][..i]) && powerRL == Energy(rightLeft[..][..i])
        invariant channels != 4 ==> powerLR == powerRL == 0.0
      {
        TakeOneMore(left[..], i);
        TakeOneMore(right[..], i);
        powerLL := powerLL + left[i] * left[i];
        powerRR := powerRR + right[i] * right[i];
        if channels == 4 {
          TakeOneMore(leftRight[..], i);
          TakeOneMore(rightLeft[..], i);
          powerLR := powerLR + leftRight[i] * leftRight[i];
          powerRL := powerRL + rightLeft[i] * rightLeft[i];
        }
      }
      TakeAll(left[..]);
      TakeAll(right[..]);
      TakeAll(leftRight[..]);
      TakeAll(rightLeft[..]);
      power := Max4(powerLL, powerRR, powerLR, powerRL);
    }

    method ScaleAll(gain: real)
      requires Valid()
      modifies left, right, leftRight, rightLeft
      ensures Scaled(old(left[..]), left[..], gain) && Scaled(old(right[..]), right[..], gain)
      ensures Scaled(old(leftRight[..]), leftRight[..], gain) && Scaled(old(rightLeft[..]), rightLeft[..], gain)
      ensures Peak() == Gained(gain, old(Peak()))
    {
      hide Energy, Scaled, Gained, Max4;
      ghost var l, r, lr, rl := left[..], right[..], leftRight[..], rightLeft[..];
      ScaleInPlace(left, gain);
      ScaleInPlace(right, gain);
      if channels == 4 {
        ScaleInPlace(leftRight, gain);
        ScaleInPlace(rightLeft, gain);
      } else {
        assert lr == rl == [];
        NothingToScale(gain);
      }
      EnergyScales(l, left[..], gain);
      EnergyScales(r, right[..], gain);
      EnergyScales(lr, leftRight[..], gain);
      EnergyScales(rl, rightLeft[..], gain);
      PeakScales(Energy(l), Energy(r), Energy(lr), Energy(rl), gain);
    }

    /** Applies the width in percent and, if asked, the automatic gain. The sum of the direct paths is scaled by
        2 / (1 + w) and their difference by 2w / (1 + w); for the cross paths the two factors change places. */
    method ApplyIrWidthAndAutogain(irWidth: int, autogain: bool, sqrt: real -> real) returns (gain: real)
      requires Valid() && IsSqrt(sqrt) && irWidth != -100
      modifies left, right, leftRight, rightLeft
      ensures 0.0 < gain <= 1.0 && (!autogain ==> gain == 1.0)
      ensures autogain ==> Peak() <= 1.0 && (gain < 1.0 ==> Peak() == 1.0)
      ensures PairShaped(old(left[..]), old(right[..]), left[..], right[..],
                         Times(gain, MidFactor(WidthOf(irWidth))), Times(gain, SideFactor(WidthOf(irWidth))))
      ensures PairShaped(old(leftRight[..]), old(rightLeft[..]), leftRight[..], rightLeft[..],
                         Times(gain, SideFactor(WidthOf(irWidth))), Times(gain, MidFactor(WidthOf(irWidth))))
    {
      hide Energy, Scaled, MidSide, PairShaped, Max4, Weight, MidFactor, SideFactor, WidthOf, Times;
      ghost var l, r, lr, rl := left[..], right[..], leftRight[..], rightLeft[..];
      var w := WidthOf(irWidth);
      var x := Weight(w);
      WeightFactors(w);
      MixPair(left, right, x);
      if channels == 4 {
        MixPair(leftRight, rightLeft, -x);
      } else {
        assert lr == rl == [];
        NothingToMix(SideFactor(w), MidFactor(w));
      }
      ghost var a, b, ab, ba := left[..], right[..], leftRight[..], rightLeft[..];
      gain := 1.0;
      ScaledByOne(a);
      ScaledByOne(b);
      ScaledByOne(ab);
      ScaledByOne(ba);
      if autogain {
        gain := NormalizeKernel(sqrt);
      }
      var mid, side := MidFactor(w), SideFactor(w);
      assert PairShaped(l, r, a, b, mid, side) && PairShaped(lr, rl, ab, ba, side, mid);
      PairScaled(l, r, a, b, left[..], right[..], mid, side, gain);
      PairScaled(lr, rl, ab, ba, leftRight[..], rightLeft[..], side, mid, gain);
    }
  }

  function WidthOf(percent: int): (w: real)
    ensures percent != -100 ==> w != -1.0
  {
    percent as real / 100.0
  }

  /** Full width leaves mid and side as they are, and no width leaves twice the mid and no side. */
  lemma WidthsOfPercents(percent: int)
    requires percent != -100
    ensures percent == 100 ==> MidFactor(WidthOf(percent)) == SideFactor(WidthOf(percent)) == 1.0
    ensures percent == 0 ==> MidFactor(WidthOf(percent)) == 2.0 && SideFactor(WidthOf(percent)) == 0.0
    ensures SideFactor(WidthOf(percent)) * 100.0 == MidFactor(WidthOf(percent)) * percent as real
  {
    var w := WidthOf(percent);
    assert w * 100.0 == percent as real;
    var d := 1.0 + w;
    assert MidFactor(w) * d == 2.0;
    assert SideFactor(w) == MidFactor(w) * w;
  }

  lemma NothingToMix(mid: real, side: real)
    ensures PairShaped([], [], [], [], mid, side)
  {
  }

  lemma NothingToScale(gain: real)
    ensures Scaled([], [], gain)
  {
  }

  lemma ScaledByOne(s: seq<real>)
    ensures Scaled(s, s, 1.0)
  {
  }

  lemma TakeAll(s: seq<real>)
    ensures s[..|s|] == s
  {
  }

  lemma TakeOneMore(s: seq<real>, i: nat)
    requires i < |s|
    ensures Energy(s[..i + 1]) == Energy(s[..i]) + s[i] * s[i]
  {
    assert s[..i + 1][..i] == s[..i];
  }

  lemma GainOfPower(power: real, root: real, gain: real)
    requires power > 0.0 && root > 0.0 && root * root == power
    requires gain == if 1.0 / root <= 1.0 then 1.0 / root else 1.0
    ensures 0.0 < gain <= 1.0
    ensures power <= 1.0 ==> gain == 1.0
    ensures Gained(gain, power) == if power > 1.0 then 1.0 else power
  {
    var g := 1.0 / root;
    assert g * root == 1.0;
    if root > 1.0 {
      assert root * root > 1.0;
      assert g < 1.0;
      assert (g * g) * (root * root) == (g * root) * (g * root);
    } else {
      assert root * root <= 1.0;
      assert g >= 1.0;
    }
  }

  lemma PeakScales(a: real, b: real, c: real, d: real, gain: real)
    ensures Max4(Gained(gain, a), Gained(gain, b), Gained(gain, c), Gained(gain, d)) == Gained(gain, Max4(a, b, c, d))
  {
    hide Gained, Max;
    PairScales(a, b, gain);
    PairScales(c, d, gain);
    PairScales(Max(a, b), Max(c, d), gain);
  }

  lemma PairScales(a: real, b: real, gain: real)
    ensures Max(Gained(gain, a), Gained(gain, b)) == Gained(gain, Max(a, b))
  {
    assert gain * gain >= 0.0;
    Monotone(gain * gain, a, b);
  }

  lemma ProductSign(f: real, d: real)
    requires f >= 0.0 && d >= 0.0
    ensures f * d >= 0.0
  {
  }

  lemma ProductOfDifference(f: real, a: real, b: real)
    requires f >= 0.0 && a >= b
    ensures f * a >= f * b
  {
    ProductSign(f, a - b);
    assert f * (a - b) == f * a - f * b;
  }

  lemma Monotone(f: real, a: real, b: real)
    requires f >= 0.0
    ensures Max(f * a, f * b) == f * Max(a, b)
  {
    if a >= b {
      ProductOfDifference(f, a, b);
    } else {
      ProductOfDifference(f, b, a);
    }
  }

  lemma PairScaled(l: seq<real>, r: seq<real>, a: seq<real>, b: seq<real>, c: seq<real>, d: seq<real>,
                   mid: real, side: real, gain: real)
    requires PairShaped(l, r, a, b, mid, side) && Scaled(a, c, gain) && Scaled(b, d, gain)
    ensures PairShaped(l, r, c, d, Times(gain, mid), Times(gain, side))
  {
    forall i | 0 <= i < |l|
      ensures MidSide(l[i], r[i], c[i], d[i], gain * mid, gain * side)
    {
      ScaledPair(l[i], r[i], a[i], b[i], mid, side, gain);
    }
  }

  method ScaleInPlace(a: array<real>, gain: real)
    modifies a
    ensures Scaled(old(a[..]), a[..], gain)
  {
    for i := 0 to a.Length
      invariant forall k :: 0 <= k < i ==> a[k] == old(a[k]) * gain
      invariant forall k :: i <= k < a.Length ==> a[k] == old(a[k])
    {
      a[i] := a[i] * gain;
    }
  }

  method MixPair(a: array<real>, b: array<real>, x: real)
    requires a != b && a.Length == b.Length
    modifies a, b
    ensures PairShaped(old(a[..]), old(b[..]), a[..], b[..], 1.0 + x, 1.0 - x)
  {
    for i := 0 to a.Length
      invariant forall k :: 0 <= k < i ==> MidSide(old(a[k]), old(b[k]), a[k], b[k], 1.0 + x, 1.0 - x)
      invariant forall k :: i <= k < a.Length ==> a[k] == old(a[k]) && b[k] == old(b[k])
    {
      var u, v := a[i], b[i];
      a[i] := u + x * v;
      b[i] := v + x * u;
      DirectPair(u, v, x);
    }
  }
}
