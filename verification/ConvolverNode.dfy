/** The convolver's filter node in its processing branch (src/pipewire_router.cpp:867-916): the block is given to the
    host, and what comes back is mixed with the block itself, which has not been delayed. */
module ConvolverNode {
  import opened Basics
  import opened BlockAdapter
  import opened BlockSize
  import opened ConvolverHosts
  import opened StereoFir
  import Residues

  /** `volume` is 1.0 on a node that does not carry the volume. */
  datatype Levels = Levels(bypass: bool, input: real, dry: real, wet: real, output: real, volume: real)

  function Times(a: real, b: real): real {
    a * b
  }

  function Scale(s: seq<real>, gain: real): (r: seq<real>)
    ensures |r| == |s| && forall i :: 0 <= i < |s| ==> r[i] == Times(s[i], gain)
  {
    seq(|s|, i requires 0 <= i < |s| => Times(s[i], gain))
  }

  function Blend(y: seq<real>, x: seq<real>, wet: real, dry: real): (r: seq<real>)
    requires |y| == |x|
    ensures |r| == |x| && forall i :: 0 <= i < |x| ==> r[i] == Times(wet, y[i]) + Times(dry, x[i])
  {
    seq(|x|, i requires 0 <= i < |x| => Times(wet, y[i]) + Times(dry, x[i]))
  }

  /** One channel behind the input gain, mixed with what the host returned if it returned something. */
  function Mixed(v: Levels, given: seq<real>, y: Option<seq<real>>): (r: seq<real>)
    requires y.Some? ==> |y.value| == |given|
    ensures |r| == |given|
  {
    if y.Some? then Blend(y.value, given, v.wet, v.dry) else given
  }

  /** One channel of the node's output for the block `x`. */
  function Channel(v: Levels, x: seq<real>, y: Option<seq<real>>): (r: seq<real>)
    requires y.Some? ==> |y.value| == |x|
    ensures |r| == |x|
  {
    Scale(if v.bypass then x else Scale(Mixed(v, Scale(x, v.input), y), v.output), v.volume)
  }

  /** The samples a node plays: with both gains and the volume, mixed with what the host returned; with both gains and
      the volume only when the host gives nothing; with the volume only when it is bypassed. */
  lemma ChannelSamples(v: Levels, x: seq<real>, y: Option<seq<real>>, i: nat)
    requires i < |x| && (y.Some? ==> |y.value| == |x|)
    ensures v.bypass ==> Channel(v, x, y)[i] == x[i] * v.volume
    ensures !v.bypass && y.None? ==> Channel(v, x, y)[i] == x[i] * v.input * v.output * v.volume
    ensures !v.bypass && y.Some? ==>
              Channel(v, x, y)[i] == (v.wet * y.value[i] + v.dry * (x[i] * v.input)) * v.output * v.volume
  {
  }

  method ApplyGain(a: array<real>, gain: real)
    modifies a
    ensures a[..] == Scale(old(a[..]), gain)
  {
    if gain != 1.0 {
      for i := 0 to a.Length
        invariant forall k :: 0 <= k < i ==> a[k] == Times(old(a[k]), gain)
        invariant forall k :: i <= k < a.Length ==> a[k] == old(a[k])
      {
        a[i] := Times(a[i], gain);
      }
    }
    assert a[..] == Scale(old(a[..]), gain);
  }

  method BlendInto(y: array<real>, x: array<real>, wet: real, dry: real, out: array<real>)
    requires y.Length == x.Length == out.Length && out != x && out != y
    modifies out
    ensures out[..] == Blend(y[..], x[..], wet, dry)
  {
    for i := 0 to out.Length
      invariant forall k :: 0 <= k < i ==> out[k] == Times(wet, y[k]) + Times(dry, x[k])
    {
      out[i] := Times(wet, y[i]) + Times(dry, x[i]);
    }
    hide Times;
    assert out[..] == Blend(y[..], x[..], wet, dry);
  }

  /** Whether the host takes a block of n samples. */
  ghost predicate Takes(host: ConvolverHost, n: nat, locked: bool, processing: bool)
    reads host
  {
    locked && host.ready && processing && n == host.streamBlockSize
  }

  /** What the host does with the block `given`: nothing, or one call of its session, which may fail. */
  twostate predicate HostRan(host: ConvolverHost, given: Stereo, locked: bool, processing: bool, new y: Option<Stereo>)
    requires old(host.Valid()) && given.Lockstep()
    reads host
  {
    if old(Takes(host, |given.l|, locked, processing)) then
      var r := Call(old(host.Session()), old(host.Queues()), given);
      && host.Valid() && host.ready && host.Session() == old(host.Session()) && host.Queues() == r.next
      && y == if r.ok then Some(r.out) else None
    else
      unchanged(host) && y == None
  }

  /** Runs the host on a copy of the input and mixes. */
  method MixWithHost(host: ConvolverHost, v: Levels, inputLeft: array<real>, inputRight: array<real>,
                     leftOut: array<real>, rightOut: array<real>, locked: bool, processing: bool)
    returns (ghost y: Option<Stereo>)
    requires host.Valid()
    requires inputLeft.Length == inputRight.Length == leftOut.Length == rightOut.Length
    requires leftOut != rightOut && {inputLeft, inputRight} !! {leftOut, rightOut}
    requires {inputLeft, inputRight, leftOut, rightOut} !! {host.blockLeft, host.blockRight}
    requires leftOut[..] == inputLeft[..] && rightOut[..] == inputRight[..]
    modifies host, host.blockLeft, host.blockRight, leftOut, rightOut
    ensures host.blockLeft == old(host.blockLeft) && host.blockRight == old(host.blockRight)
    ensures host.Valid() && HostRan(host, Stereo(inputLeft[..], inputRight[..]), locked, processing, y)
    ensures y.Some? ==> |y.value.l| == |y.value.r| == inputLeft.Length
    ensures leftOut[..] == Mixed(v, inputLeft[..], if y.Some? then Some(y.value.l) else None)
    ensures rightOut[..] == Mixed(v, inputRight[..], if y.Some? then Some(y.value.r) else None)
  {
    hide Call, Blend;
    var scratchLeft, scratchRight := new real[leftOut.Length], new real[leftOut.Length];
    CopyInto(leftOut[..], scratchLeft);
    CopyInto(rightOut[..], scratchRight);
    var processed := host.Process(scratchLeft, scratchRight, locked, processing);
    y := None;
    if processed {
      y := Some(Stereo(scratchLeft[..], scratchRight[..]));
      BlendInto(scratchLeft, inputLeft, v.wet, v.dry, leftOut);
      BlendInto(scratchRight, inputRight, v.wet, v.dry, rightOut);
    }
  }

  function Left(y: Option<Stereo>): Option<seq<real>> {
    if y.Some? then Some(y.value.l) else None
  }

  function Right(y: Option<Stereo>): Option<seq<real>> {
    if y.Some? then Some(y.value.r) else None
  }

  function GivenToHost(v: Levels, x: Stereo): Stereo {
    Stereo(Scale(x.l, v.input), Scale(x.r, v.input))
  }

  /** A copy of a block behind the input gain. */
  method TakeInput(block: array<real>, gain: real) returns (input: array<real>)
    ensures fresh(input) && input[..] == Scale(block[..], gain)
  {
    input := new real[block.Length];
    CopyInto(block[..], input);
    ApplyGain(input, gain);
  }

  method ProcessThroughHost(host: ConvolverHost, v: Levels, leftIn: array<real>, rightIn: array<real>,
                            leftOut: array<real>, rightOut: array<real>, locked: bool, processing: bool)
    returns (ghost y: Option<Stereo>)
    requires host.Valid()
    requires leftIn.Length == rightIn.Length == leftOut.Length == rightOut.Length
    requires leftOut != rightOut && leftIn != rightOut && rightIn != leftOut
    requires {leftIn, rightIn, leftOut, rightOut} !! {host.blockLeft, host.blockRight}
    modifies host, host.blockLeft, host.blockRight, leftOut, rightOut
    ensures host.blockLeft == old(host.blockLeft) && host.blockRight == old(host.blockRight)
    ensures host.Valid() && HostRan(host, GivenToHost(v, old(Stereo(leftIn[..], rightIn[..]))), locked, processing, y)
    ensures y.Some? ==> |y.value.l| == |y.value.r| == leftIn.Length
    ensures leftOut[..] == Mixed(v, Scale(old(leftIn[..]), v.input), Left(y))
    ensures rightOut[..] == Mixed(v, Scale(old(rightIn[..]), v.input), Right(y))
  {
    hide Call, Scale, Mixed, Takes, IsNormalized, ValidAdapter;
    var inputLeft := TakeInput(leftIn, v.input);
    var inputRight := TakeInput(rightIn, v.input);
    CopyInto(inputLeft[..], leftOut);
    CopyInto(inputRight[..], rightOut);
    y := MixWithHost(host, v, inputLeft, inputRight, leftOut, rightOut, locked, processing);
  }

  /** One block of a ready node. `y` is what the host returned: nothing when the node is bypassed, the host refuses
      the block or the engine fails, and then the block passes with its gains. An input buffer may be the output
      buffer of its channel. */
  method ProcessReady(host: ConvolverHost, v: Levels, leftIn: array<real>, rightIn: array<real>, leftOut: array<real>,
                      rightOut: array<real>, locked: bool, processing: bool)
    returns (ghost y: Option<Stereo>)
    requires host.Valid()
    requires leftIn.Length == rightIn.Length == leftOut.Length == rightOut.Length
    requires leftOut != rightOut && leftIn != rightOut && rightIn != leftOut
    requires {leftIn, rightIn, leftOut, rightOut} !! {host.blockLeft, host.blockRight}
    modifies host, host.blockLeft, host.blockRight, leftOut, rightOut
    ensures host.blockLeft == old(host.blockLeft) && host.blockRight == old(host.blockRight)
    ensures host.Valid()
    ensures if v.bypass then y == None && unchanged(host)
            else HostRan(host, GivenToHost(v, old(Stereo(leftIn[..], rightIn[..]))), locked, processing, y)
    ensures y.Some? ==> |y.value.l| == |y.value.r| == leftIn.Length
    ensures leftOut[..] == Channel(v, old(leftIn[..]), Left(y))
    ensures rightOut[..] == Channel(v, old(rightIn[..]), Right(y))
  {
    hide Scale, Mixed, HostRan;
    if v.bypass {
      y := None;
      CopyInto(leftIn[..], leftOut);
      CopyInto(rightIn[..], rightOut);
    } else {
      y := ProcessThroughHost(host, v, leftIn, rightIn, leftOut, rightOut, locked, processing);
      ApplyGain(leftOut, v.output);
      ApplyGain(rightOut, v.output);
    }
    ApplyGain(leftOut, v.volume);
    ApplyGain(rightOut, v.volume);
  }

  // Dry and wet

  lemma RunGrows(c: Setup, blocks: seq<Stereo>)
    requires c.block > 0 && StreamBlocks(c, blocks) && blocks != []
    ensures Run(c, blocks).given == Run(c, Init(blocks)).given.Append(Last(blocks))
    ensures Run(c, blocks).failures == 0 ==> LastCall(c, blocks).ok
  {
    hide Call;
  }

  /** What a node plays for sample i of a block that begins at position `from` of the stream `x`: the wet part comes
      from the convolved stream `y`, `delay` samples before the dry part. */
  ghost predicate PlaysMix(v: Levels, x: Stereo, y: Stereo, left: seq<real>, right: seq<real>, from: int, delay: int,
                           i: nat)
    requires 0 <= delay <= from && i < |left| == |right| && from + |left| <= |x.l| == |x.r| == |y.l| == |y.r|
  {
    var gain := Times(v.output, v.volume);
    && left[i] == Times(Times(v.wet, y.l[from + i - delay]) + Times(v.dry, x.l[from + i]), gain)
    && right[i] == Times(Times(v.wet, y.r[from + i - delay]) + Times(v.dry, x.r[from + i]), gain)
  }

  lemma TimesTwice(a: real, b: real, c: real)
    ensures Times(Times(a, b), c) == Times(a, Times(b, c))
  {
  }

  lemma ChannelSample(v: Levels, x: seq<real>, y: seq<real>, i: nat)
    requires i < |x| == |y| && !v.bypass
    ensures Channel(v, x, Some(y))[i]
         == Times(Times(v.wet, y[i]) + Times(v.dry, Scale(x, v.input)[i]), Times(v.output, v.volume))
  {
    hide Times;
    var mix := Times(v.wet, y[i]) + Times(v.dry, Scale(x, v.input)[i]);
    assert Mixed(v, Scale(x, v.input), Some(y))[i] == mix;
    TimesTwice(mix, v.output, v.volume);
  }

  /** Sample i of the last call of a settled run: what was given, and what came back. */
  lemma SettledSample(c: Setup, blocks: seq<Stereo>, i: nat)
    requires ValidSetup(c) && StreamBlocks(c, blocks) && blocks != [] && i < c.stream
    ensures var t, r, x := Run(c, blocks), LastCall(c, blocks), Last(blocks);
            var delay, from := c.block - Residues.Gcd(c.stream, c.block), Sent(c, |blocks| - 1);
            var y := Convolve(c.kernel, t.given);
            t.failures == 0 && Residues.Period(c.stream, c.block) <= |blocks| ==>
              && r.ok && |r.out.l| == |r.out.r| == c.stream
              && 0 <= delay <= from && |t.given.l| == |t.given.r| == from + c.stream
              && t.given.l[from + i] == x.l[i] && t.given.r[from + i] == x.r[i]
              && r.out.l[i] == y.l[from + i - delay] && r.out.r[i] == y.r[from + i - delay]
  {
    hide Run, LastCall, Call, Convolve, Stretch, Sent, Residues.Gcd, Residues.Period;
    var n, delay, t := |blocks|, c.block - Residues.Gcd(c.stream, c.block), Run(c, blocks);
    if t.failures == 0 && Residues.Period(c.stream, c.block) <= n {
      PureDelay(c, blocks);
      RunGrows(c, blocks);
      GivenLength(c, blocks);
      GivenLength(c, Init(blocks));
      StretchAt(c, t.given, Sent(c, n - 1) - delay, Sent(c, n) - delay, i);
    }
  }

  /** In a settled run the wet part lags B - gcd(S, B) samples behind the dry part of the very same block; with the
      block size that the host chooses the two are aligned exactly when stream and engine blocks have the same size.
      `blocks` is what the host was given, the last of them the block `x` behind the input gain. */
  lemma WetLagsDry(c: Setup, v: Levels, blocks: seq<Stereo>, x: Stereo, i: nat)
    requires ValidSetup(c) && StreamBlocks(c, blocks) && blocks != [] && Last(blocks) == GivenToHost(v, x)
    requires IsNormalized(c.stream, c.block) && i < c.stream && !v.bypass
    ensures c.block - Residues.Gcd(c.stream, c.block) == 0 <==> c.stream == c.block
    ensures var n, t, r := |blocks|, Run(c, blocks), LastCall(c, blocks);
            var delay := c.block - Residues.Gcd(c.stream, c.block);
            t.failures == 0 && Residues.Period(c.stream, c.block) <= n ==>
              && r.ok && |r.out.l| == |r.out.r| == |x.l| == |x.r| == c.stream
              && 0 <= delay <= Sent(c, n - 1) && |t.given.l| == |t.given.r| == Sent(c, n - 1) + c.stream
              && PlaysMix(v, t.given, Convolve(c.kernel, t.given), Channel(v, x.l, Some(r.out.l)),
                          Channel(v, x.r, Some(r.out.r)), Sent(c, n - 1), delay, i)
  {
    hide Run, LastCall, Call, Convolve, Sent, Channel, Times, Scale, IsNormalized, Residues.Gcd, Residues.Period;
    var t, r := Run(c, blocks), LastCall(c, blocks);
    DelayVanishesIffSizesAgree(c.stream, c.block);
    SettledSample(c, blocks, i);
    if t.failures == 0 && Residues.Period(c.stream, c.block) <= |blocks| {
      ChannelSample(v, x.l, r.out.l, i);
      ChannelSample(v, x.r, r.out.r, i);
    }
  }

  // A whole stream

  function GivenBlocks(v: Levels, blocks: seq<Stereo>): (given: seq<Stereo>)
    ensures |given| == |blocks| && forall i :: 0 <= i < |blocks| ==> given[i] == GivenToHost(v, blocks[i])
  {
    seq(|blocks|, i requires 0 <= i < |blocks| => GivenToHost(v, blocks[i]))
  }

  /** What the host returned for block i, and what the node made of it. */
  ghost predicate Answers(c: Setup, v: Levels, given: seq<Stereo>, x: Stereo, y: Option<Stereo>, out: Stereo)
    requires c.block > 0 && StreamBlocks(c, given) && given != []
  {
    var r := LastCall(c, given);
    && y == (if r.ok then Some(r.out) else None)
    && (y.Some? ==> |y.value.l| == |x.l| && |y.value.r| == |x.r|)
    && out == Stereo(Channel(v, x.l, Left(y)), Channel(v, x.r, Right(y)))
  }

  /** The output `out` for the last block of `given`: all its samples mix the stream with its delayed convolution. */
  ghost predicate MixesStream(c: Setup, v: Levels, given: seq<Stereo>, out: Stereo)
    requires c.block > 0 && StreamBlocks(c, given) && given != []
  {
    var x, from, delay := Run(c, given).given, Sent(c, |given| - 1), c.block - Residues.Gcd(c.stream, c.block);
    && |out.l| == |out.r| == c.stream && 0 <= delay <= from && |x.l| == |x.r| == from + c.stream
    && forall i: nat :: i < c.stream ==> PlaysMix(v, x, Convolve(c.kernel, x), out.l, out.r, from, delay, i)
  }

  lemma SettledOutput(c: Setup, v: Levels, given: seq<Stereo>, x: Stereo, y: Option<Stereo>, out: Stereo)
    requires ValidSetup(c) && IsNormalized(c.stream, c.block) && StreamBlocks(c, given) && given != []
    requires Last(given) == GivenToHost(v, x) && !v.bypass && Answers(c, v, given, x, y, out)
    ensures Run(c, given).failures == 0 && Residues.Period(c.stream, c.block) <= |given| ==>
          MixesStream(c, v, given, out)
  {
    hide Run, LastCall, Convolve, Sent, Channel, PlaysMix, IsNormalized, Residues.Gcd, Residues.Period, StreamBlocks;
    if Run(c, given).failures == 0 && Residues.Period(c.stream, c.block) <= |given| {
      var stream, from, delay := Run(c, given).given, Sent(c, |given| - 1), c.block - Residues.Gcd(c.stream, c.block);
      var wet := Convolve(c.kernel, stream);
      WetLagsDry(c, v, given, x, 0);
      forall i: nat | i < c.stream ensures PlaysMix(v, stream, wet, out.l, out.r, from, delay, i) {
        WetLagsDry(c, v, given, x, i);
      }
    }
  }

  lemma PrefixesOfStream(c: Setup, v: Levels, blocks: seq<Stereo>, i: nat)
    requires StreamBlocks(c, GivenBlocks(v, blocks)) && i < |blocks|
    ensures var given := GivenBlocks(v, blocks)[..i + 1];
            given != [] && StreamBlocks(c, given) && Last(given) == GivenToHost(v, blocks[i])
  {
  }

  lemma GivenAreStreamBlocks(c: Setup, v: Levels, blocks: seq<Stereo>)
    requires StreamBlocks(c, blocks)
    ensures StreamBlocks(c, GivenBlocks(v, blocks))
  {
    hide Scale;
  }

  /** Block i of a stream whose answers are all those of its run. */
  lemma SettledBlock(c: Setup, v: Levels, blocks: seq<Stereo>, y: Option<Stereo>, out: Stereo, i: nat)
    requires ValidSetup(c) && IsNormalized(c.stream, c.block) && StreamBlocks(c, GivenBlocks(v, blocks)) && !v.bypass
    requires i < |blocks| && StreamBlocks(c, GivenBlocks(v, blocks)[..i + 1])
    requires Answers(c, v, GivenBlocks(v, blocks)[..i + 1], blocks[i], y, out)
    ensures Run(c, GivenBlocks(v, blocks)).failures == 0 && Residues.Period(c.stream, c.block) <= i + 1 ==>
              MixesStream(c, v, GivenBlocks(v, blocks)[..i + 1], out)
  {
    hide Run, Answers, MixesStream, IsNormalized, Residues.Period;
    PrefixesOfStream(c, v, blocks, i);
    PrefixFailsLess(c, GivenBlocks(v, blocks), i + 1);
    SettledOutput(c, v, GivenBlocks(v, blocks)[..i + 1], blocks[i], y, out);
  }

  ghost predicate AllAnswer(c: Setup, v: Levels, blocks: seq<Stereo>, ys: seq<Option<Stereo>>, out: seq<Stereo>)
    requires c.block > 0 && StreamBlocks(c, GivenBlocks(v, blocks))
  {
    && |ys| == |out| <= |blocks|
    && forall i :: 0 <= i < |out| ==> Answers(c, v, GivenBlocks(v, blocks)[..i + 1], blocks[i], ys[i], out[i])
  }

  lemma OneMoreAnswers(c: Setup, v: Levels, blocks: seq<Stereo>, ys: seq<Option<Stereo>>, out: seq<Stereo>,
                       y: Option<Stereo>, o: Stereo)
    requires c.block > 0 && StreamBlocks(c, GivenBlocks(v, blocks)) && |out| < |blocks|
    requires AllAnswer(c, v, blocks, ys, out)
    requires Answers(c, v, GivenBlocks(v, blocks)[..|out| + 1], blocks[|out|], y, o)
    ensures AllAnswer(c, v, blocks, ys + [y], out + [o])
  {
    hide Answers, GivenBlocks;
  }

  /** From call B / gcd(S, B) of a run without failures on, every output mixes the stream with its delayed
      convolution. */
  ghost predicate SettlesInto(c: Setup, v: Levels, given: seq<Stereo>, out: seq<Stereo>)
    requires c.block > 0 && StreamBlocks(c, given) && |out| <= |given|
  {
    Run(c, given).failures == 0 ==>
      forall i :: 0 <= i < |out| && Residues.Period(c.stream, c.block) <= i + 1 ==>
            MixesStream(c, v, given[..i + 1], out[i])
  }

  lemma SettledStream(c: Setup, v: Levels, blocks: seq<Stereo>, ys: seq<Option<Stereo>>, out: seq<Stereo>)
    requires ValidSetup(c) && IsNormalized(c.stream, c.block) && StreamBlocks(c, GivenBlocks(v, blocks)) && !v.bypass
    requires AllAnswer(c, v, blocks, ys, out)
    ensures SettlesInto(c, v, GivenBlocks(v, blocks), out)
  {
    hide Run, Answers, MixesStream, IsNormalized, Residues.Period;
    forall i |
      0 <= i < |out| && Run(c, GivenBlocks(v, blocks)).failures == 0 && Residues.Period(c.stream, c.block) <= i + 1
      ensures MixesStream(c, v, GivenBlocks(v, blocks)[..i + 1], out[i])
    {
      SettledBlock(c, v, blocks, ys[i], out[i], i);
    }
  }

  /** Block i of a stream through a node, in place. */
  method PlayBlock(host: ConvolverHost, v: Levels, left: array<real>, right: array<real>, x: Stereo,
                   ghost given: seq<Stereo>, ghost i: nat)
    returns (out: Stereo, ghost y: Option<Stereo>)
    requires host.Valid() && host.ready && !v.bypass
    requires left != right && {left, right} !! {host.blockLeft, host.blockRight}
    requires left.Length == right.Length == |x.l| == |x.r| == host.streamBlockSize
    requires StreamBlocks(host.Session(), given) && i < |given| && given[i] == GivenToHost(v, x)
    requires host.Queues() == Run(host.Session(), given[..i]).adapter
    modifies host, left, right, host.blockLeft, host.blockRight
    ensures host.Valid() && host.ready && host.Session() == old(host.Session())
    ensures host.blockLeft == old(host.blockLeft) && host.blockRight == old(host.blockRight)
    ensures StreamBlocks(host.Session(), given[..i + 1])
    ensures host.Queues() == Run(host.Session(), given[..i + 1]).adapter
    ensures Answers(host.Session(), v, given[..i + 1], x, y, out)
  {
    hide Call, Run, LastCall, Channel, Scale;
    CopyInto(x.l, left);
    CopyInto(x.r, right);
    RunExtends(host.Session(), given, i);
    y := ProcessReady(host, v, left, right, left, right, true, true);
    out := Stereo(left[..], right[..]);
  }

  /** A whole stream through a node, in place. From call B / gcd(S, B) on every sample of every block is the mix of
      the stream, behind the input gain, with its convolution B - gcd(S, B) samples earlier. */
  method PlayThroughNode(host: ConvolverHost, v: Levels, left: array<real>, right: array<real>, blocks: seq<Stereo>)
    returns (out: seq<Stereo>, ghost ys: seq<Option<Stereo>>)
    requires host.Valid() && host.ready && host.Queues() == Fresh(host.Session()) && !v.bypass
    requires left != right && {left, right} !! {host.blockLeft, host.blockRight}
    requires left.Length == right.Length == host.streamBlockSize
    requires StreamBlocks(host.Session(), blocks)
    modifies host, left, right, host.blockLeft, host.blockRight
    ensures host.Valid() && host.ready && host.Session() == old(host.Session())
    ensures |out| == |blocks| && StreamBlocks(host.Session(), GivenBlocks(v, blocks))
    ensures host.Queues() == Run(host.Session(), GivenBlocks(v, blocks)).adapter
    ensures AllAnswer(host.Session(), v, blocks, ys, out)
    ensures SettlesInto(host.Session(), v, GivenBlocks(v, blocks), out)
  {
    hide Run, Answers, SettlesInto, GivenToHost, AllAnswer, Fresh, GivenBlocks;
    ghost var c, given := host.Session(), GivenBlocks(v, blocks);
    assert ValidSetup(c) && IsNormalized(c.stream, c.block);
    out, ys := [], [];
    GivenAreStreamBlocks(c, v, blocks);
    EmptyRun(c);
    NothingAnswered(c, v, blocks);
    for i := 0 to |blocks|
      invariant host.Valid() && host.ready && host.Session() == c
      invariant host.blockLeft == old(host.blockLeft) && host.blockRight == old(host.blockRight)
      invariant |out| == i && host.Queues() == Run(c, given[..i]).adapter
      invariant AllAnswer(c, v, blocks, ys, out)
    {
      var o, y := PlayBlock(host, v, left, right, blocks[i], given, i);
      OneMoreAnswers(c, v, blocks, ys, out, y, o);
      out, ys := out + [o], ys + [y];
    }
    assert given[..|blocks|] == given;
    SettledStream(c, v, blocks, ys, out);
  }

  lemma NothingAnswered(c: Setup, v: Levels, blocks: seq<Stereo>)
    requires c.block > 0 && StreamBlocks(c, GivenBlocks(v, blocks))
    ensures AllAnswer(c, v, blocks, [], [])
  {
  }
}
