/** What an engine that reports errors does to the queues (src/convolver_host.cpp:250-254 and :297-331). A failed call
    returns early: its samples stay queued, and the queues are never shortened again. */
module EngineFailures {
  import opened BlockAdapter
  import opened Residues
  import opened StereoFir

  // Nothing is lost, and what is late

  /** In every run, failures included, the input queue is exactly the end of everything that was given. */
  lemma {:induction false} InputIsTail(c: Setup, blocks: seq<Stereo>)
    requires c.block > 0 && StreamBlocks(c, blocks) && c.stream != c.block
    ensures var t := Run(c, blocks);
            && |t.adapter.input.l| == |t.adapter.input.r| <= |t.given.l| == |t.given.r|
            && t.adapter.input == t.given.Drop(|t.given.l| - |t.adapter.input.l|)
  {
    hide Call;
    if blocks != [] {
      var t, x := Run(c, Init(blocks)), Last(blocks);
      InputIsTail(c, Init(blocks));
      TailGrows(c, t.adapter, t.given, x);
    }
  }

  lemma TailGrows(c: Setup, a: Adapter, given: Stereo, x: Stereo)
    requires c.block > 0 && ValidAdapter(c, a) && given.Lockstep() && x.Lockstep() && c.stream != c.block
    requires |a.input.l| <= |given.l| && a.input == given.Drop(|given.l| - |a.input.l|)
    ensures var b, all := Call(c, a, x).next, given.Append(x);
            |b.input.l| == |b.input.r| <= |all.l| == |all.r| && b.input == all.Drop(|all.l| - |b.input.l|)
  {
    hide Drain;
    var pushed, all := Push(a, x), given.Append(x);
    DrainKeepsInput(c, pushed);
    assert pushed.input == all.Drop(|given.l| - |a.input.l|);
    var d := Drain(c, pushed).0;
    DropDrop(all, |given.l| - |a.input.l|, |pushed.input.l| - |d.input.l|);
  }

  /** The stream samples played lag behind those given by the silence inserted and one whole block for every failed
      call, and this lag never shrinks. */
  lemma {:induction false} LagOfRun(c: Setup, blocks: seq<Stereo>)
    requires c.block > 0 && StreamBlocks(c, blocks)
    ensures var t := Run(c, blocks);
            |t.played.l| + t.silence + t.failures * c.stream == |t.given.l| == Sent(c, |blocks|)
    ensures blocks != [] ==>
              var t, u := Run(c, Init(blocks)), Run(c, blocks);
              t.silence + t.failures * c.stream <= u.silence + u.failures * c.stream
  {
    hide Call;
    GivenLength(c, blocks);
    if blocks != [] {
      var t, x := Run(c, Init(blocks)), Last(blocks);
      LagOfRun(c, Init(blocks));
      CallPlaysOneBlock(c, t.adapter, x);
      SuccTimes(t.failures, c.stream);
    }
  }

  lemma CallPlaysOneBlock(c: Setup, a: Adapter, x: Stereo)
    requires c.block > 0 && ValidAdapter(c, a) && x.Lockstep()
    ensures var r := Call(c, a, x); |r.out.l| == |r.out.r| == |x.l| && r.silence <= |x.l|
  {
    hide Drain;
  }

  // The reserve

  lemma {:induction false} MidCallAboveEnd(c: Setup, a: Adapter, rounds: nat)
    requires c.block > 0 && ValidAdapter(c, a)
    ensures |Drain(c, a).0.input.l| <= |MidCall(c, a, rounds).input.l|
    decreases rounds
  {
    DrainKeepsInput(c, a);
    if rounds > 0 && |a.input.l| >= c.block && DrainOnce(c, a).1 {
      MidCallAboveEnd(c, DrainOnce(c, a).0, rounds - 1);
    }
  }

  lemma {:induction false} MidCallEnds(c: Setup, a: Adapter) returns (rounds: nat)
    requires c.block > 0 && ValidAdapter(c, a)
    ensures MidCall(c, a, rounds) == Drain(c, a).0
    decreases |a.input.l|
  {
    if |a.input.l| < c.block {
      rounds := 0;
    } else if DrainOnce(c, a).1 {
      var k := MidCallEnds(c, DrainOnce(c, a).0);
      rounds := k + 1;
    } else {
      rounds := 1;
    }
  }

  /** No queue ever holds more than `limit` samples during the call. */
  ghost predicate StaysWithin(c: Setup, a: Adapter, x: Stereo, limit: nat)
    requires c.block > 0 && ValidAdapter(c, a) && x.Lockstep()
  {
    forall k: nat :: Within(MidCall(c, Push(a, x), k), limit)
  }

  predicate Within(b: Adapter, limit: nat) {
    |b.input.l| <= limit && |b.output.l| <= limit
  }

  /** The greatest sizes of the queues during any call, successful or not: the input queue after the block was
      appended, the output queue when the loop ends. */
  lemma PeakOfCall(c: Setup, a: Adapter, x: Stereo, limit: nat)
    requires c.block > 0 && ValidAdapter(c, a) && x.Lockstep()
    ensures StaysWithin(c, a, x, limit) <==>
              && |a.input.l| + |x.l| <= limit
              && |a.input.l| + |a.output.l| + |x.l| - |Drain(c, Push(a, x)).0.input.l| <= limit
  {
    hide Drain, MidCall;
    var pushed := Push(a, x);
    var d := Drain(c, pushed).0;
    DrainCounts(c, pushed);
    var last := MidCallEnds(c, pushed);
    MidCallStarts(c, pushed);
    if StaysWithin(c, a, x, limit) {
      assert Within(MidCall(c, pushed, 0), limit) && Within(MidCall(c, pushed, last), limit);
    }
    forall k: nat ensures |d.input.l| <= |MidCall(c, pushed, k).input.l| <= |pushed.input.l|
    ensures |MidCall(c, pushed, k).input.l| + |MidCall(c, pushed, k).output.l| == |pushed.input.l| + |pushed.output.l|
    {
      MidCallAboveEnd(c, pushed, k);
      MidCallConserves(c, pushed, k);
    }
  }

  lemma MidCallStarts(c: Setup, a: Adapter)
    requires c.block > 0 && ValidAdapter(c, a)
    ensures MidCall(c, a, 0) == a
  {
  }

  /** The vectors are reallocated on the audio thread exactly when a queue outgrows the S + B samples reserved for it.
      */
  ghost predicate FitsReserve(c: Setup, a: Adapter, x: Stereo)
    requires c.block > 0 && ValidAdapter(c, a) && x.Lockstep()
  {
    StaysWithin(c, a, x, c.stream + c.block)
  }

  lemma {:induction false} DrainTakesWholeBlocks(c: Setup, a: Adapter)
    requires c.block > 0 && ValidAdapter(c, a)
    ensures |Drain(c, a).0.input.l| % c.block == |a.input.l| % c.block
    decreases |a.input.l|
  {
    if |a.input.l| >= c.block && DrainOnce(c, a).1 {
      DrainTakesWholeBlocks(c, DrainOnce(c, a).0);
      RemainderDrops(|a.input.l|, c.block);
    }
  }

  function Remainder(n: nat, m: nat): nat
    requires m > 0
  {
    n % m
  }

  lemma CallTakesWholeBlocks(c: Setup, a: Adapter, x: Stereo)
    requires c.block > 0 && ValidAdapter(c, a) && x.Lockstep() && c.stream != c.block
    ensures var b := Call(c, a, x).next;
            Remainder(|b.input.l|, c.block) == Remainder(|a.input.l| + |x.l|, c.block)
    ensures Call(c, a, x).ok ==>
              && |Call(c, a, x).next.input.l| == Remainder(|a.input.l| + |x.l|, c.block)
              && |Drain(c, Push(a, x)).0.input.l| == Remainder(|a.input.l| + |x.l|, c.block)
  {
    hide Drain;
    DrainTakesWholeBlocks(c, Push(a, x));
    DrainCounts(c, Push(a, x));
  }

  lemma NextResidue(queued: nat, n: nat, s: nat, m: nat)
    requires m > 0 && Remainder(queued, m) == Residue(n, s, m)
    ensures Remainder(queued + s, m) == Residue(n + 1, s, m)
  {
    ResidueStep(n, s, m);
    var r := queued % m;
    QuotientIsUnique(queued + s, m, queued / m + (r + s) / m, (r + s) % m);
  }

  lemma NothingQueued(s: nat, m: nat)
    requires m > 0
    ensures Remainder(0, m) == Residue(0, s, m) == 0
  {
  }

  /** Whatever failed before, n calls leave nS mod B samples as input, up to whole blocks; after a successful call
      exactly. */
  lemma {:induction false} InputModuloBlock(c: Setup, blocks: seq<Stereo>)
    requires c.block > 0 && StreamBlocks(c, blocks) && c.stream != c.block
    ensures Remainder(|Run(c, blocks).adapter.input.l|, c.block) == Residue(|blocks|, c.stream, c.block)
    ensures blocks == [] || LastCall(c, blocks).ok ==>
              |Run(c, blocks).adapter.input.l| == Residue(|blocks|, c.stream, c.block)
  {
    hide Call, Residue, Remainder;
    NothingQueued(c.stream, c.block);
    if blocks != [] {
      var t, x := Run(c, Init(blocks)), Last(blocks);
      InputModuloBlock(c, Init(blocks));
      CallTakesWholeBlocks(c, t.adapter, x);
      NextResidue(|t.adapter.input.l|, |blocks| - 1, c.stream, c.block);
    }
  }

  /** Exactly which successful calls fit the reserve, after any run: the lag so far, less what stays as input, must
      not exceed one engine block, and no more than one engine block may have been left by a failed call. */
  lemma SuccessfulCallFits(c: Setup, blocks: seq<Stereo>, x: Stereo)
    requires c.block > 0 && StreamBlocks(c, blocks) && c.stream != c.block && |x.l| == |x.r| == c.stream
    ensures var t := Run(c, blocks);
            Call(c, t.adapter, x).ok ==>
              (FitsReserve(c, t.adapter, x) <==>
                 && |t.adapter.input.l| <= c.block
                 && t.silence + t.failures * c.stream - Residue(|blocks| + 1, c.stream, c.block) <= c.block)
  {
    hide Run, Call, Drain, MidCall, StaysWithin, Residue, Remainder;
    var t := Run(c, blocks);
    PeakOfCall(c, t.adapter, x, c.stream + c.block);
    Conservation(c, blocks);
    CallTakesWholeBlocks(c, t.adapter, x);
    InputModuloBlock(c, blocks);
    NextResidue(|t.adapter.input.l|, |blocks|, c.stream, c.block);
  }

  /** As long as no call has failed, every call fits, also the first that does fail. */
  lemma FitsUntilFailure(c: Setup, blocks: seq<Stereo>, x: Stereo)
    requires ValidSetup(c) && StreamBlocks(c, blocks) && c.stream != c.block && |x.l| == |x.r| == c.stream
    ensures Run(c, blocks).failures == 0 ==> FitsReserve(c, Run(c, blocks).adapter, x)
  {
    hide Run, MidCall;
    var t := Run(c, blocks);
    if t.failures == 0 {
      forall k: nat ensures Within(MidCall(c, Push(t.adapter, x), k), c.stream + c.block) {
        WithinCapacity(c, blocks, x, k);
      }
    }
  }

  lemma Lag(failures: nat, s: nat)
    ensures failures == 1 ==> failures * s == s
    ensures failures > 1 ==> failures * s >= 2 * s
  {
  }

  /** With stream blocks above the engine's size one failure is enough for a later successful call not to fit: at the
      latest the first at the end of a period of B / gcd(S, B) calls, and every one after a second failure. */
  lemma FailureOutgrowsReserve(c: Setup, blocks: seq<Stereo>, x: Stereo)
    requires 0 < c.block < c.stream && StreamBlocks(c, blocks) && |x.l| == |x.r| == c.stream
    ensures var t := Run(c, blocks);
            && Call(c, t.adapter, x).ok
            && (t.failures > 1 || (t.failures == 1 && AtPeriodEnd(c, |blocks| + 1))) ==>
              !FitsReserve(c, t.adapter, x)
  {
    hide Run, Call, FitsReserve, Residue, Period;
    var t := Run(c, blocks);
    SuccessfulCallFits(c, blocks, x);
    Lag(t.failures, c.stream);
    if AtPeriodEnd(c, |blocks| + 1) {
      var j: nat :| |blocks| + 1 == j * Period(c.stream, c.block);
      ResidueOfPeriod(j, c.stream, c.block);
    }
  }

  ghost predicate AtPeriodEnd(c: Setup, n: nat)
    requires c.block > 0
  {
    exists j: nat :: n == j * Period(c.stream, c.block)
  }

  lemma {:induction false} DrainSucceeds(c: Setup, a: Adapter)
    requires c.block > 0 && ValidAdapter(c, a) && forall k: nat :: a.engine.calls <= k ==> !c.fails(k)
    ensures Drain(c, a).1
    decreases |a.input.l|
  {
    if |a.input.l| >= c.block {
      DrainSucceeds(c, DrainOnce(c, a).0);
    }
  }

  /** One error on the very first engine block, 441-sample blocks on an engine of 256: in the second call, which
      succeeds, the output queue holds 768 samples, while room for 697 was reserved. */
  lemma OneFailureOutgrowsReserve(kernel: Kernel, x: Stereo, y: Stereo) returns (rounds: nat)
    requires WellFormed(kernel) && |x.l| == |x.r| == |y.l| == |y.r| == 441
    ensures var c := Setup(kernel, 441, 256, k => k == 0);
            var t := Run(c, [x]);
            && t.failures == 1 && Call(c, t.adapter, y).ok && !FitsReserve(c, t.adapter, y)
            && |MidCall(c, Push(t.adapter, y), rounds).output.l| == 768 > c.stream + c.block
  {
    hide BlockOutput, NextRecent;
    var c := Setup(kernel, 441, 256, k => k == 0);
    var a := Fresh(c);
    assert Init([x]) == [] && Last([x]) == x && Run(c, []) == Trace(a, SILENT, SILENT, 0, 0);
    assert Push(a, x) == Adapter(x, SILENT, a.engine) && a.engine.calls == 0;
    assert Call(c, a, x) == CallResult(Drain(c, Push(a, x)).0, false, x, 0);
    var t := Run(c, [x]);
    assert t.adapter.input == x && t.adapter.output == SILENT && t.adapter.engine.calls == 1;
    var pushed := Push(t.adapter, y);
    DrainSucceeds(c, pushed);
    DrainCounts(c, pushed);
    rounds := MidCallEnds(c, pushed);
    assert !Within(MidCall(c, pushed, rounds), c.stream + c.block);
  }
}
