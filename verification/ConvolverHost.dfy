/** The convolver host as an object (src/convolver_host.cpp): its queues, block buffers and readiness are fields
    that the methods update, and every method is proved against the functions of `BlockAdapter`. */
module ConvolverHosts {
  import opened Basics
  import opened BlockSize
  import opened BlockAdapter
  import opened StereoFir
  import Residues

  /** With the block size the host chooses, the settled delay B - gcd(S, B) of the adapter vanishes only when
      stream and engine blocks have the same size. */
  lemma DelayVanishesIffSizesAgree(stream: nat, block: nat)
    requires stream > 0 && IsNormalized(stream, block)
    ensures Residues.Gcd(stream, block) <= block
    ensures block - Residues.Gcd(stream, block) == 0 <==> stream == block
  {
    var g := Residues.Gcd(stream, block);
    var p, q := Residues.GcdFactors(stream, block);
    Residues.MultipleOrder(g, 1, q);
    if stream == block {
      Residues.GcdIsGreatest(stream, block, stream, 1, 1);
    } else if g == block {
      Residues.QuotientIsUnique(stream, block, p, 0);
      DifferentBlockDoesNotDivide(stream, block);
    }
  }

  /** Silence is not a start-up matter only: with 441-sample blocks, for which the host chooses an engine of 256,
      calls one and four of any successful run pad and calls two and three do not. */
  lemma SilenceInsertedMidRun(c: Setup, blocks: seq<Stereo>)
    requires ValidSetup(c) && c.stream == 441 && IsNormalized(441, c.block) && StreamBlocks(c, blocks) && blocks != []
    ensures c.block == 256
    ensures Run(c, blocks).failures == 0 && |blocks| <= 4 ==>
              LastCall(c, blocks).silence == [185, 0, 0, 43][|blocks| - 1]
  {
    hide Run, LastCall, Call, StreamBlocks;
    assert IsNormalized(441, 256) by { assert Pow2(8) == 256; }
    NormalizedIsUnique(441, c.block, 256);
    CallOutput(c, blocks);
    SilenceOf(c, blocks);
    FirstMaxima();
  }

  lemma SilenceOf(c: Setup, blocks: seq<Stereo>)
    requires c.block > 0 && StreamBlocks(c, blocks) && blocks != []
    ensures PlaysInTurn(c, blocks) ==>
              LastCall(c, blocks).silence
              == Residues.MaxResidue(|blocks|, c.stream, c.block) - Residues.MaxResidue(|blocks| - 1, c.stream, c.block)
  {
  }

  lemma FirstMaxima()
    ensures Residues.MaxResidue(0, 441, 256) == 0
    ensures Residues.MaxResidue(1, 441, 256) == 185 && Residues.MaxResidue(2, 441, 256) == 185
    ensures Residues.MaxResidue(3, 441, 256) == 185
    ensures Residues.MaxResidue(4, 441, 256) == 228
  {
  }

  class ConvolverHost {
    const kernel: Kernel
    /** Which calls of the engine report an error. */
    const fails: nat -> bool

    var ready: bool
    var streamBlockSize: nat
    var blockSize: nat
    var conv: Option<Engine>
    var pendingInputLeft: seq<real>
    var pendingInputRight: seq<real>
    var pendingOutputLeft: seq<real>
    var pendingOutputRight: seq<real>
    var blockLeft: array<real>
    var blockRight: array<real>

    ghost predicate Valid()
      reads this
    {
      && WellFormed(kernel)
      && blockLeft != blockRight
      && (ready ==>
          && conv.Some?
          && 0 < streamBlockSize
          && IsNormalized(streamBlockSize, blockSize)
          && blockLeft.Length == blockRight.Length == blockSize
          && ValidAdapter(Session(), Queues()))
    }

    ghost function Session(): Setup
      reads this
    {
      Setup(kernel, streamBlockSize, blockSize, fails)
    }

    /** The state the functions of `BlockAdapter` speak of. */
    ghost function Queues(): Adapter
      reads this
      requires conv.Some?
    {
      Adapter(Stereo(pendingInputLeft, pendingInputRight), Stereo(pendingOutputLeft, pendingOutputRight), conv.value)
    }

    constructor (kernel: Kernel, fails: nat -> bool)
      requires WellFormed(kernel)
      ensures Valid() && !ready
      ensures this.kernel == kernel && this.fails == fails
      ensures fresh(blockLeft) && fresh(blockRight)
    {
      this.kernel, this.fails := kernel, fails;
      ready, streamBlockSize, blockSize, conv := false, 0, 0, None;
      pendingInputLeft, pendingInputRight, pendingOutputLeft, pendingOutputRight := [], [], [], [];
      var emptyLeft, emptyRight := new real[0], new real[0];
      blockLeft, blockRight := emptyLeft, emptyRight;
    }

    /** Configures the engine for a stream block size; `starts` says whether the engine accepts the kernel and
        starts. Asking again for the size in use changes nothing, so it never disturbs queued samples. */
    method EnsureReady(stream: nat, starts: bool) returns (ok: bool)
      requires Valid() && stream <= HALF_WORD
      modifies this
      ensures Valid()
      ensures ok <==> stream != 0 && ((old(ready) && old(streamBlockSize) == stream) || starts)
      ensures ok ==> ready && streamBlockSize == stream
      ensures ok && !(old(ready) && old(streamBlockSize) == stream) ==> Queues() == Fresh(Session())
      ensures stream == 0 || (old(ready) && old(streamBlockSize) == stream) ==>
                unchanged(this)
      ensures stream != 0 && !ok ==> !ready
      ensures blockLeft == old(blockLeft) || fresh(blockLeft)
      ensures blockRight == old(blockRight) || fresh(blockRight)
    {
      var block := NormalizedZitaBlockSize(stream);
      if stream == 0 || block == 0 {
        return false;
      }
      if ready {
        if streamBlockSize == stream {
          NormalizedIsUnique(stream, block, blockSize);
        }
        if streamBlockSize == stream && blockSize == block {
          return true;
        }
      }
      ok := Restart(stream, block, starts);
    }

    /** Replaces the engine and empties the queues. */
    method Restart(stream: nat, block: nat, starts: bool) returns (ok: bool)
      requires Valid() && stream > 0 && IsNormalized(stream, block)
      modifies this
      ensures Valid() && ok == starts == ready
      ensures ok ==> streamBlockSize == stream && Queues() == Fresh(Session())
      ensures blockLeft == old(blockLeft) || fresh(blockLeft)
      ensures blockRight == old(blockRight) || fresh(blockRight)
    {
      hide IsNormalized;
      ready := false;
      conv := Some(Engine(Silence(Memory(kernel)), 0));
      streamBlockSize, blockSize := stream, block;
      if !starts {
        return false;
      }
      pendingInputLeft, pendingInputRight, pendingOutputLeft, pendingOutputRight := [], [], [], [];
      AssignBlocks(block);
      ready := true;
      ok := true;
    }

    method AssignBlocks(block: nat)
      modifies this`blockLeft, this`blockRight
      ensures fresh(blockLeft) && fresh(blockRight) && blockLeft != blockRight
      ensures blockLeft[..] == blockRight[..] == Zeros(block)
    {
      blockLeft, blockRight := new real[block](_ => 0.0), new real[block](_ => 0.0);
      assert blockLeft[..] == Zeros(block) && blockRight[..] == Zeros(block);
    }

    /** One stream block, in place. `locked` says whether the try-lock succeeded, `processing` whether the engine
        is in its processing state. When the call is refused nothing changes. */
    method Process(left: array<real>, right: array<real>, locked: bool, processing: bool) returns (ok: bool)
      requires Valid()
      requires left != right && {left, right} !! {blockLeft, blockRight}
      modifies this, left, right, blockLeft, blockRight
      ensures Valid() && blockLeft == old(blockLeft) && blockRight == old(blockRight)
      ensures var accepted := locked && old(ready) && processing
                && left.Length == right.Length == old(streamBlockSize);
              if accepted then
                && ready && Session() == old(Session())
                && var r := Call(Session(), old(Queues()), Stereo(old(left[..]), old(right[..])));
                  ok == r.ok && Queues() == r.next && Stereo(left[..], right[..]) == r.out
              else
                !ok && unchanged(this) && left[..] == old(left[..]) && right[..] == old(right[..])
    {
      if !locked || !ready {
        return false;
      }
      if conv.None? || !processing {
        return false;
      }
      if left.Length != streamBlockSize || right.Length != streamBlockSize {
        return false;
      }
      if streamBlockSize != blockSize {
        ok := ProcessBuffered(left, right);
      } else {
        ok := ProcessZitaBlock(left, right);
      }
    }

    /** Feeds one engine block and overwrites it with the engine's answer unless the engine fails. */
    method ProcessZitaBlock(left: array<real>, right: array<real>) returns (ok: bool)
      requires Valid() && ready
      requires left != right && left.Length == right.Length == blockSize
      modifies this`conv, left, right
      ensures Valid()
      ensures var r := EngineStep(Session(), old(conv.value), Stereo(old(left[..]), old(right[..])));
              conv == Some(r.0) && ok == r.1 && Stereo(left[..], right[..]) == r.2
    {
      var engine, block := conv.value, Stereo(left[..], right[..]);
      conv := Some(Engine(NextRecent(kernel, engine.recent, block), engine.calls + 1));
      if fails(engine.calls) {
        return false;
      }
      var y := BlockOutput(kernel, engine.recent, block);
      CopyInto(y.l, left);
      CopyInto(y.r, right);
      assert Stereo(left[..], right[..]) == y;
      ok := true;
    }

    method ProcessBuffered(left: array<real>, right: array<real>) returns (ok: bool)
      requires Valid() && ready && streamBlockSize != blockSize
      requires left != right && {left, right} !! {blockLeft, blockRight}
      requires left.Length == right.Length == streamBlockSize
      modifies this`conv, this`pendingInputLeft, this`pendingInputRight, this`pendingOutputLeft, this`pendingOutputRight
      modifies left, right, blockLeft, blockRight
      ensures Valid()
      ensures var r := BufferedCall(Session(), old(Queues()), Stereo(old(left[..]), old(right[..])));
              ok == r.ok && Queues() == r.next && Stereo(left[..], right[..]) == r.out
    {
      ghost var c := Session();
      pendingInputLeft := pendingInputLeft + left[..];
      pendingInputRight := pendingInputRight + right[..];
      ghost var pushed := Queues();
      while |pendingInputLeft| >= blockSize
        invariant Valid() && Drain(c, Queues()) == Drain(c, pushed)
        invariant left[..] == old(left[..]) && right[..] == old(right[..])
        decreases |pendingInputLeft|
      {
        ghost var before := Queues();
        CopyInto(pendingInputLeft[..blockSize], blockLeft);
        CopyInto(pendingInputRight[..blockSize], blockRight);
        var done := ProcessZitaBlock(blockLeft, blockRight);
        if !done {
          return false;
        }
        pendingOutputLeft := pendingOutputLeft + blockLeft[..];
        pendingOutputRight := pendingOutputRight + blockRight[..];
        pendingInputLeft := pendingInputLeft[blockSize..];
        pendingInputRight := pendingInputRight[blockSize..];
        assert DrainOnce(c, before) == (Queues(), true);
      }
      ghost var r := Emit(Queues(), left.Length);
      if |pendingOutputLeft| >= left.Length {
        CopyInto(pendingOutputLeft[..left.Length], left);
        CopyInto(pendingOutputRight[..right.Length], right);
        pendingOutputLeft := pendingOutputLeft[left.Length..];
        pendingOutputRight := pendingOutputRight[right.Length..];
      } else {
        var offset := left.Length - |pendingOutputLeft|;
        CopyInto(Zeros(offset) + pendingOutputLeft, left);
        CopyInto(Zeros(offset) + pendingOutputRight, right);
        pendingOutputLeft, pendingOutputRight := [], [];
      }
      assert Queues() == r.next && Stereo(left[..], right[..]) == r.out;
      ok := true;
    }

    method Stop()
      requires Valid()
      modifies this
      ensures Valid() && !ready && blockLeft == old(blockLeft) && blockRight == old(blockRight)
      ensures pendingInputLeft == pendingInputRight == pendingOutputLeft == pendingOutputRight == []
    {
      ready := false;
      pendingInputLeft, pendingInputRight, pendingOutputLeft, pendingOutputRight := [], [], [], [];
    }
  }

  /** Copies a sequence over the whole of an array. */
  method CopyInto(source: seq<real>, target: array<real>)
    requires |source| == target.Length
    modifies target
    ensures target[..] == source
  {
    for i := 0 to target.Length
      invariant target[..i] == source[..i]
    {
      target[i] := source[i];
    }
  }

  lemma EmptyRun(c: Setup)
    requires c.block > 0
    ensures Run(c, []).adapter == Fresh(c)
  {
  }

  lemma RunExtends(c: Setup, blocks: seq<Stereo>, i: nat)
    requires c.block > 0 && StreamBlocks(c, blocks) && i < |blocks|
    ensures LastCall(c, blocks[..i + 1]) == Call(c, Run(c, blocks[..i]).adapter, blocks[i])
    ensures Run(c, blocks[..i + 1]).adapter == LastCall(c, blocks[..i + 1]).next
  {
    hide Call;
    assert Init(blocks[..i + 1]) == blocks[..i] && Last(blocks[..i + 1]) == blocks[i];
  }

  /** Any sequence of stream blocks through one ready host is a run of the adapter, so the refinement, latency and
      capacity results hold of the object. */
  method PlayStream(host: ConvolverHost, left: array<real>, right: array<real>, blocks: seq<Stereo>)
    returns (out: seq<Stereo>)
    requires host.Valid() && host.ready && host.Queues() == Fresh(host.Session())
    requires left != right && {left, right} !! {host.blockLeft, host.blockRight}
    requires left.Length == right.Length == host.streamBlockSize
    requires StreamBlocks(host.Session(), blocks)
    modifies host, left, right, host.blockLeft, host.blockRight
    ensures host.Valid() && host.ready && host.Session() == old(host.Session())
    ensures host.Queues() == Run(host.Session(), blocks).adapter
    ensures |out| == |blocks|
    ensures forall i :: 0 <= i < |blocks| ==> out[i] == LastCall(host.Session(), blocks[..i + 1]).out
  {
    hide Call, Run, LastCall;
    out := [];
    EmptyRun(host.Session());
    ghost var c := host.Session();
    for i := 0 to |blocks|
      invariant host.Valid() && host.ready && host.Session() == c
      invariant host.blockLeft == old(host.blockLeft) && host.blockRight == old(host.blockRight)
      invariant |out| == i
      invariant host.Queues() == Run(c, blocks[..i]).adapter
      invariant forall k :: 0 <= k < i ==> out[k] == LastCall(c, blocks[..k + 1]).out
    {
      CopyInto(blocks[i].l, left);
      CopyInto(blocks[i].r, right);
      RunExtends(c, blocks, i);
      var _ := host.Process(left, right, true, true);
      out := out + [Stereo(left[..], right[..])];
    }
    assert blocks[..|blocks|] == blocks;
  }

  /** Plays a stream and listens for an impulse at position p: while it is all that was given on its side and the
      other side was silent, every buffer holds the taps of its two responses. */
  method PlayImpulse(host: ConvolverHost, left: array<real>, right: array<real>, blocks: seq<Stereo>, p: nat)
    returns (out: seq<Stereo>)
    requires host.Valid() && host.ready && host.Queues() == Fresh(host.Session())
    requires left != right && {left, right} !! {host.blockLeft, host.blockRight}
    requires left.Length == right.Length == host.streamBlockSize
    requires StreamBlocks(host.Session(), blocks)
    modifies host, left, right, host.blockLeft, host.blockRight
    ensures host.Valid() && host.ready && host.Session() == old(host.Session()) && |out| == |blocks|
    ensures Run(host.Session(), blocks).failures == 0 ==>
              forall n :: 0 <= n < |blocks| ==> HoldsTaps(host.Session(), blocks[..n + 1], out[n], p)
  {
    hide Call, Run, LastCall, HoldsTaps;
    out := PlayStream(host, left, right, blocks);
    ghost var c := host.Session();
    assert ValidSetup(c);
    forall n | 0 <= n < |blocks| && Run(c, blocks).failures == 0 ensures HoldsTaps(c, blocks[..n + 1], out[n], p) {
      PrefixFailsLess(c, blocks, n + 1);
      HoldsTapsOfRun(c, blocks[..n + 1], p);
    }
  }

  ghost predicate HoldsTaps(c: Setup, blocks: seq<Stereo>, out: Stereo, p: nat) {
    && c.block > 0 && StreamBlocks(c, blocks) && blocks != [] && |out.l| == |out.r| == c.stream
    && var t, silence, k := Run(c, blocks), LastCall(c, blocks).silence, c.kernel;
       var from := Sent(c, |blocks| - 1) - t.silence;
       forall i: nat :: i < c.stream ==>
         && (IsImpulse(t.given.l, p) && IsSilent(t.given.r) ==>
               PlaysTaps(c, out.l, out.r, k.left, k.leftRight, silence, from, p, i))
         && (IsImpulse(t.given.r, p) && IsSilent(t.given.l) ==>
               PlaysTaps(c, out.r, out.l, k.right, k.rightLeft, silence, from, p, i))
  }

  lemma HoldsTapsOfRun(c: Setup, blocks: seq<Stereo>, p: nat)
    requires ValidSetup(c) && StreamBlocks(c, blocks) && blocks != [] && Run(c, blocks).failures == 0
    ensures HoldsTaps(c, blocks, LastCall(c, blocks).out, p)
  {
    hide Run, LastCall, Call, PlaysTaps, IsImpulse, IsSilent, Sent;
    assert c.stream > 0;
    ImpulseThroughRun(c, blocks, p, 0);
    forall i: nat | i < c.stream {
      ImpulseThroughRun(c, blocks, p, i);
    }
  }
}
