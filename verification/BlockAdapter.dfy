/** The queues between a stream of S-sample blocks and an engine of B-sample blocks
    (src/convolver_host.cpp:260-331), as functions on values, and what every run of them does. */
module BlockAdapter {
  import opened Residues
  import opened StereoFir

  /** The configuration of a session. `fails(c)` says whether the engine reports an error on its call number c. */
  datatype Setup = Setup(kernel: Kernel, stream: nat, block: nat, fails: nat -> bool)

  ghost predicate ValidSetup(c: Setup) {
    WellFormed(c.kernel) && c.stream > 0 && c.block > 0
  }

  datatype Engine = Engine(recent: Stereo, calls: nat)

  datatype Adapter = Adapter(input: Stereo, output: Stereo, engine: Engine)

  ghost predicate ValidAdapter(c: Setup, a: Adapter) {
    && a.input.Lockstep()
    && a.output.Lockstep()
    && |a.engine.recent.l| == |a.engine.recent.r| == Memory(c.kernel)
  }

  function Fresh(c: Setup): (a: Adapter)
    ensures ValidAdapter(c, a)
  {
    Adapter(SILENT, SILENT, Engine(Silence(Memory(c.kernel)), 0))
  }

  function EngineStep(c: Setup, e: Engine, x: Stereo): (r: (Engine, bool, Stereo))
    requires |e.recent.l| == |e.recent.r| == Memory(c.kernel) && x.Lockstep()
    ensures |r.0.recent.l| == |r.0.recent.r| == Memory(c.kernel)
    ensures r.1 ==> |r.2.l| == |r.2.r| == |x.l|
    ensures !r.1 ==> r.2 == x
  {
    var next := Engine(NextRecent(c.kernel, e.recent, x), e.calls + 1);
    if c.fails(e.calls) then (next, false, x) else (next, true, BlockOutput(c.kernel, e.recent, x))
  }

  function Push(a: Adapter, x: Stereo): Adapter {
    a.(input := a.input.Append(x))
  }

  /** One round of the draining loop. A failed engine block stays at the front of the input queue. */
  function DrainOnce(c: Setup, a: Adapter): (r: (Adapter, bool))
    requires ValidAdapter(c, a) && |a.input.l| >= c.block
    ensures ValidAdapter(c, r.0)
  {
    var (e, ok, y) := EngineStep(c, a.engine, a.input.Take(c.block));
    if ok then (Adapter(a.input.Drop(c.block), a.output.Append(y), e), true) else (a.(engine := e), false)
  }

  function Drain(c: Setup, a: Adapter): (r: (Adapter, bool))
    requires c.block > 0 && ValidAdapter(c, a)
    ensures ValidAdapter(c, r.0)
    decreases |a.input.l|
  {
    if |a.input.l| < c.block then (a, true)
    else
      var (b, ok) := DrainOnce(c, a);
      if ok then Drain(c, b) else (b, false)
  }

  datatype CallResult = CallResult(next: Adapter, ok: bool, out: Stereo, silence: nat)

  /** Fills one stream block from the output queue, padding in front with silence when the queue is short. */
  function Emit(a: Adapter, n: nat): CallResult
    requires a.output.Lockstep()
  {
    var have := |a.output.l|;
    if have >= n then CallResult(a.(output := a.output.Drop(n)), true, a.output.Take(n), 0)
    else CallResult(a.(output := SILENT), true, Silence(n - have).Append(a.output), n - have)
  }

  function BufferedCall(c: Setup, a: Adapter, x: Stereo): (r: CallResult)
    requires c.block > 0 && ValidAdapter(c, a) && x.Lockstep()
    ensures ValidAdapter(c, r.next)
  {
    var (b, ok) := Drain(c, Push(a, x));
    if ok then Emit(b, |x.l|) else CallResult(b, false, x, 0)
  }

  function DirectCall(c: Setup, a: Adapter, x: Stereo): (r: CallResult)
    requires ValidAdapter(c, a) && x.Lockstep()
    ensures ValidAdapter(c, r.next)
  {
    var (e, ok, y) := EngineStep(c, a.engine, x);
    CallResult(a.(engine := e), ok, y, 0)
  }

  function Call(c: Setup, a: Adapter, x: Stereo): (r: CallResult)
    requires c.block > 0 && ValidAdapter(c, a) && x.Lockstep()
    ensures ValidAdapter(c, r.next)
  {
    if c.stream != c.block then BufferedCall(c, a, x) else DirectCall(c, a, x)
  }

  /** A run: the adapter, everything it was given, everything it played with the padding removed, how much
      padding it played, and how many calls failed. */
  datatype Trace = Trace(adapter: Adapter, given: Stereo, played: Stereo, silence: nat, failures: nat)

  ghost predicate StreamBlocks(c: Setup, blocks: seq<Stereo>) {
    forall x :: x in blocks ==> |x.l| == |x.r| == c.stream
  }

  /** One more call with the block `x`. */
  function Advance(c: Setup, t: Trace, x: Stereo): (u: Trace)
    requires c.block > 0 && ValidAdapter(c, t.adapter) && t.given.Lockstep() && x.Lockstep()
    ensures ValidAdapter(c, u.adapter) && u.given.Lockstep()
  {
    var r := Call(c, t.adapter, x);
    if r.ok then
      assert r.silence <= |r.out.l| && r.silence <= |r.out.r|;
      Trace(r.next, t.given.Append(x), t.played.Append(r.out.Drop(r.silence)), t.silence + r.silence, t.failures)
    else
      Trace(r.next, t.given.Append(x), t.played, t.silence, t.failures + 1)
  }

  function Run(c: Setup, blocks: seq<Stereo>): (t: Trace)
    requires c.block > 0 && StreamBlocks(c, blocks)
    ensures ValidAdapter(c, t.adapter) && t.given.Lockstep()
  {
    if blocks == [] then Trace(Fresh(c), SILENT, SILENT, 0, 0)
    else Advance(c, Run(c, Init(blocks)), Last(blocks))
  }

  function Init<T>(s: seq<T>): seq<T>
    requires s != []
  {
    s[..|s| - 1]
  }

  function Last<T>(s: seq<T>): T
    requires s != []
  {
    s[|s| - 1]
  }

  /** The result of the last call of a run. */
  function LastCall(c: Setup, blocks: seq<Stereo>): CallResult
    requires c.block > 0 && StreamBlocks(c, blocks) && blocks != []
  {
    Call(c, Run(c, Init(blocks)).adapter, Last(blocks))
  }

  // Counting

  lemma {:induction false} DrainCounts(c: Setup, a: Adapter)
    requires c.block > 0 && ValidAdapter(c, a)
    ensures var b := Drain(c, a).0; |b.input.l| + |b.output.l| == |a.input.l| + |a.output.l|
    ensures Drain(c, a).1 ==> |Drain(c, a).0.input.l| == |a.input.l| % c.block
    decreases |a.input.l|
  {
    if |a.input.l| >= c.block && DrainOnce(c, a).1 {
      DrainCounts(c, DrainOnce(c, a).0);
      RemainderDrops(|a.input.l|, c.block);
    }
  }

  lemma RemainderDrops(n: nat, m: nat)
    requires 0 < m <= n
    ensures (n - m) % m == n % m
  {
    QuotientIsUnique(n - m, m, n / m - 1, n % m);
  }

  lemma CallCounts(c: Setup, a: Adapter, x: Stereo)
    requires c.block > 0 && ValidAdapter(c, a) && x.Lockstep() && c.stream != c.block
    ensures var r := Call(c, a, x);
            var before, after := |a.input.l| + |a.output.l|, |r.next.input.l| + |r.next.output.l|;
            if r.ok then
              && |r.next.input.l| == (|a.input.l| + |x.l|) % c.block
              && after == before + r.silence == (if before < |r.next.input.l| then |r.next.input.l| else before)
            else
              after == before + |x.l| && r.silence == 0 && r.out == x
  {
    DrainCounts(c, Push(a, x));
  }

  /** The engine calls from number `from` on, `count` of them, all succeed. */
  ghost predicate AllSucceed(c: Setup, from: nat, count: nat) {
    forall k: nat :: from <= k < from + count ==> !c.fails(k)
  }

  lemma OneDrain(c: Setup, a: Adapter)
    requires ValidAdapter(c, a) && |a.input.l| >= c.block
    ensures var (b, ok) := DrainOnce(c, a);
            && b.engine.calls == a.engine.calls + 1
            && (ok <==> !c.fails(a.engine.calls))
            && (ok ==> |b.input.l| == |a.input.l| - c.block)
  {
  }

  /** Draining makes one engine call for each whole block that is queued, and succeeds exactly if all of them do. */
  lemma {:induction false} DrainSucceedsIff(c: Setup, a: Adapter)
    requires c.block > 0 && ValidAdapter(c, a)
    ensures Drain(c, a).1 <==> AllSucceed(c, a.engine.calls, |a.input.l| / c.block)
    ensures Drain(c, a).1 ==> Drain(c, a).0.engine.calls == a.engine.calls + |a.input.l| / c.block
    decreases |a.input.l|
  {
    if |a.input.l| >= c.block {
      QuotientIsUnique(|a.input.l| - c.block, c.block, |a.input.l| / c.block - 1, |a.input.l| % c.block);
      OneDrain(c, a);
      hide DrainOnce, ValidAdapter;
      if DrainOnce(c, a).1 {
        DrainSucceedsIff(c, DrainOnce(c, a).0);
        hide Drain;
      }
    } else {
      QuotientIsUnique(|a.input.l|, c.block, 0, |a.input.l|);
    }
  }

  lemma OneCall(c: Setup, n: nat)
    ensures AllSucceed(c, n, 1) <==> !c.fails(n)
  {
  }

  /** The engine calls that are due when n samples are queued: one for each whole block, or a single one when the sizes
      agree. */
  function CallsDue(c: Setup, n: nat): nat
    requires c.block > 0
  {
    if c.stream == c.block then 1 else n / c.block
  }

  /** A call succeeds exactly if every engine call that is due does. A failed call hands its block back as it came. */
  lemma CallSucceedsIff(c: Setup, a: Adapter, x: Stereo, r: CallResult)
    requires c.block > 0 && ValidAdapter(c, a) && x.Lockstep() && r == Call(c, a, x)
    ensures r.ok <==> AllSucceed(c, a.engine.calls, CallsDue(c, |a.input.l| + |x.l|))
    ensures r.ok ==> r.next.engine.calls == a.engine.calls + CallsDue(c, |a.input.l| + |x.l|)
    ensures !r.ok ==> r.out == x && r.silence == 0
  {
    DrainSucceedsIff(c, Push(a, x));
    hide Drain, AllSucceed, ValidAdapter, Emit;
    if c.stream == c.block {
      OneCall(c, a.engine.calls);
    }
  }

  lemma {:induction false} GivenLength(c: Setup, blocks: seq<Stereo>)
    requires c.block > 0 && StreamBlocks(c, blocks)
    ensures |Run(c, blocks).given.l| == Sent(c, |blocks|)
    ensures blocks != [] ==> Sent(c, |blocks|) == Sent(c, |blocks| - 1) + c.stream
  {
    if blocks != [] {
      GivenLength(c, Init(blocks));
      SuccTimes(|blocks| - 1, c.stream);
    }
  }

  /** The number of samples of n stream blocks. */
  function Sent(c: Setup, n: nat): nat {
    n * c.stream
  }

  lemma SuccTimes(n: nat, s: nat)
    ensures (n + 1) * s == n * s + s
  {
  }

  /** Whatever calls fail, every sample handed over is still queued, or was played one for one against the
      silence that was inserted. */
  lemma {:induction false} Conservation(c: Setup, blocks: seq<Stereo>)
    requires c.block > 0 && StreamBlocks(c, blocks) && c.stream != c.block
    ensures var t := Run(c, blocks);
            |t.adapter.input.l| + |t.adapter.output.l| == t.silence + t.failures * c.stream
  {
    hide Call;
    if blocks != [] {
      var t, x := Run(c, Init(blocks)), Last(blocks);
      Conservation(c, Init(blocks));
      CallCounts(c, t.adapter, x);
      SuccTimes(t.failures, c.stream);
    }
  }

  lemma DropDrop(x: Stereo, i: nat, j: nat)
    requires x.Lockstep() && i + j <= |x.l|
    ensures x.Drop(i).Drop(j) == x.Drop(i + j)
  {
    assert x.l[i..][j..] == x.l[i + j..];
    assert x.r[i..][j..] == x.r[i + j..];
  }

  lemma TakeExtends(x: Stereo, y: Stereo, n: nat)
    requires x.Lockstep() && y.Lockstep() && n <= |x.l|
    ensures x.Append(y).Take(n) == x.Take(n)
  {
    assert (x.l + y.l)[..n] == x.l[..n];
    assert (x.r + y.r)[..n] == x.r[..n];
  }

  /** The input queue lost only a prefix and the output queue only grew. */
  ghost predicate Keeps(a: Adapter, b: Adapter) {
    && a.input.Lockstep() && a.output.Lockstep() && b.input.Lockstep() && b.output.Lockstep()
    && |b.input.l| <= |a.input.l| && b.input == a.input.Drop(|a.input.l| - |b.input.l|)
    && |a.output.l| <= |b.output.l| && b.output.Take(|a.output.l|) == a.output
  }

  lemma KeepsItself(a: Adapter)
    requires a.input.Lockstep() && a.output.Lockstep()
    ensures Keeps(a, a)
  {
  }

  lemma KeepsTransitive(a: Adapter, b: Adapter, d: Adapter)
    requires Keeps(a, b) && Keeps(b, d)
    ensures Keeps(a, d)
  {
    DropDrop(a.input, |a.input.l| - |b.input.l|, |b.input.l| - |d.input.l|);
    TakeTake(d.output, |b.output.l|, |a.output.l|);
  }

  lemma DrainOnceKeeps(c: Setup, a: Adapter)
    requires ValidAdapter(c, a) && |a.input.l| >= c.block > 0
    ensures Keeps(a, DrainOnce(c, a).0)
    ensures DrainOnce(c, a).1 ==> |DrainOnce(c, a).0.input.l| < |a.input.l|
  {
    hide BlockOutput, NextRecent;
    var (e, ok, y) := EngineStep(c, a.engine, a.input.Take(c.block));
    if ok {
      TakeExtends(a.output, y, |a.output.l|);
    }
  }

  /** A call that fails keeps the samples it could not process, in order, in the input queue, and drops
      nothing from the output queue. */
  lemma {:induction false} DrainKeepsInput(c: Setup, a: Adapter)
    requires c.block > 0 && ValidAdapter(c, a)
    ensures Keeps(a, Drain(c, a).0)
    decreases |a.input.l|
  {
    hide DrainOnce;
    if |a.input.l| >= c.block && DrainOnce(c, a).1 {
      var b := DrainOnce(c, a).0;
      DrainOnceKeeps(c, a);
      DrainKeepsInput(c, b);
      KeepsTransitive(a, b, Drain(c, b).0);
    } else if |a.input.l| >= c.block {
      DrainOnceKeeps(c, a);
    } else {
      KeepsItself(a);
    }
  }

  lemma TakeTake(x: Stereo, i: nat, j: nat)
    requires x.Lockstep() && j <= i <= |x.l|
    ensures x.Take(i).Take(j) == x.Take(j)
  {
    assert x.l[..i][..j] == x.l[..j];
    assert x.r[..i][..j] == x.r[..j];
  }

  lemma ResidueStep(n: nat, s: nat, m: nat)
    requires m > 0
    ensures (Residue(n, s, m) + s) % m == Residue(n + 1, s, m)
  {
    SuccTimes(n, s);
    var d := (Residue(n, s, m) + s) / m;
    assert (n * s / m + d) * m == (n * s / m) * m + d * m;
    QuotientIsUnique((n + 1) * s, m, n * s / m + d, (Residue(n, s, m) + s) % m);
  }

  lemma FirstResidue(s: nat, m: nat)
    requires m > 0
    ensures Residue(0, s, m) == 0
    ensures s == m ==> forall n: nat :: Residue(n, s, m) == 0
  {
    if s == m {
      forall n: nat ensures Residue(n, s, m) == 0 {
        QuotientIsUnique(n * s, m, n, 0);
      }
    }
  }

  lemma DirectCounts(c: Setup, a: Adapter, x: Stereo)
    requires c.block > 0 && ValidAdapter(c, a) && x.Lockstep() && c.stream == c.block
    ensures var r := Call(c, a, x); r.silence == 0 && r.next.input == a.input && r.next.output == a.output
  {
  }

  /** After n successful calls the input queue holds nS mod B samples, both queues together hold as many as
      silent samples were played, and those are the greatest of the residues so far. */
  lemma {:induction false} QueueLengths(c: Setup, blocks: seq<Stereo>)
    requires ValidSetup(c) && StreamBlocks(c, blocks)
    ensures var t := Run(c, blocks);
            t.failures == 0 ==>
              && |t.adapter.input.l| == Residue(|blocks|, c.stream, c.block)
              && |t.adapter.input.l| + |t.adapter.output.l| == t.silence
              && t.silence == MaxResidue(|blocks|, c.stream, c.block)
              && (c.stream == c.block ==> t.silence == 0)
  {
    hide Call;
    FirstResidue(c.stream, c.block);
    if blocks != [] {
      var n := |blocks| - 1;
      var t, x := Run(c, Init(blocks)), Last(blocks);
      QueueLengths(c, Init(blocks));
      if c.stream != c.block {
        CallCounts(c, t.adapter, x);
        ResidueStep(n, c.stream, c.block);
      } else {
        DirectCounts(c, t.adapter, x);
      }
    }
  }

  // Refinement of the whole-stream convolution

  /** How much of the convolved stream has left the adapter once `x` was given. */
  function PlayedOf(a: Adapter, x: Stereo): int {
    |x.l| - |a.input.l| - |a.output.l|
  }

  /** The queues hold exactly the unprocessed end of the stream and the convolved stretch before it that has
      not been played yet; the engine remembers the last samples it was fed. */
  ghost predicate Holds(c: Setup, a: Adapter, x: Stereo) {
    && x.Lockstep()
    && PlayedOf(a, x) >= 0
    && var consumed := |x.l| - |a.input.l|;
      && a.input == x.Drop(consumed)
      && a.engine.recent == Recent(c.kernel, x.Take(consumed))
      && a.output == Convolve(c.kernel, x).Take(consumed).Drop(PlayedOf(a, x))
  }

  lemma PrefixOutput(c: Setup, x: Stereo, n: nat)
    requires WellFormed(c.kernel) && x.Lockstep() && n <= |x.l|
    ensures Convolve(c.kernel, x).Take(n) == Convolve(c.kernel, x.Take(n))
  {
    assert x == x.Take(n).Append(x.Drop(n));
    ConvolveCausal(c.kernel, x.Take(n), x.Drop(n));
  }

  lemma PushHolds(c: Setup, a: Adapter, x: Stereo, more: Stereo)
    requires ValidSetup(c) && more.Lockstep() && Holds(c, a, x)
    ensures Holds(c, Push(a, more), x.Append(more))
    ensures PlayedOf(Push(a, more), x.Append(more)) == PlayedOf(a, x)
  {
    var y, consumed := x.Append(more), |x.l| - |a.input.l|;
    assert y.Drop(consumed) == x.Drop(consumed).Append(more);
    assert y.Take(consumed) == x.Take(consumed);
    PrefixOutput(c, x, consumed);
    PrefixOutput(c, y, consumed);
  }

  lemma DrainOnceHolds(c: Setup, a: Adapter, x: Stereo)
    requires ValidSetup(c) && ValidAdapter(c, a) && Holds(c, a, x)
    requires |a.input.l| >= c.block && DrainOnce(c, a).1
    ensures Holds(c, DrainOnce(c, a).0, x)
    ensures PlayedOf(DrainOnce(c, a).0, x) == PlayedOf(a, x)
  {
    hide Convolve, Recent, BlockOutput, NextRecent;
    var consumed, played := |x.l| - |a.input.l|, PlayedOf(a, x);
    var next := consumed + c.block;
    var seen, head := x.Take(consumed), a.input.Take(c.block);
    TakeMore(x, consumed, c.block);
    DropDrop(x, consumed, c.block);
    assert DrainOnce(c, a).0.engine.recent == Recent(c.kernel, x.Take(next)) by {
      RecentAdvances(c.kernel, seen, head);
    }
    assert DrainOnce(c, a).0.output == Convolve(c.kernel, x).Take(next).Drop(played) by {
      BlockIsStreamConvolution(c.kernel, seen, head);
      PrefixOutput(c, x, consumed);
      PrefixOutput(c, x, next);
      AppendDrop(Convolve(c.kernel, seen), BlockOutput(c.kernel, a.engine.recent, head), played);
    }
  }

  lemma TakeMore(x: Stereo, n: nat, k: nat)
    requires x.Lockstep() && n + k <= |x.l|
    ensures x.Take(n + k) == x.Take(n).Append(x.Drop(n).Take(k))
  {
    assert x.l[..n + k] == x.l[..n] + x.l[n..][..k];
    assert x.r[..n + k] == x.r[..n] + x.r[n..][..k];
  }

  lemma AppendDrop(x: Stereo, y: Stereo, n: nat)
    requires x.Lockstep() && y.Lockstep() && n <= |x.l|
    ensures x.Append(y).Drop(n) == x.Drop(n).Append(y)
  {
    assert (x.l + y.l)[n..] == x.l[n..] + y.l;
    assert (x.r + y.r)[n..] == x.r[n..] + y.r;
  }

  lemma {:induction false} DrainHolds(c: Setup, a: Adapter, x: Stereo)
    requires ValidSetup(c) && ValidAdapter(c, a) && Holds(c, a, x) && Drain(c, a).1
    ensures Holds(c, Drain(c, a).0, x)
    ensures PlayedOf(Drain(c, a).0, x) == PlayedOf(a, x)
    decreases |a.input.l|
  {
    if |a.input.l| >= c.block {
      DrainOnceHolds(c, a, x);
      DrainHolds(c, DrainOnce(c, a).0, x);
    }
  }

  /** The stretch of the convolved stream between two positions. */
  function Stretch(c: Setup, x: Stereo, from: nat, to: nat): (y: Stereo)
    requires from <= to <= |x.l|
    ensures |y.l| == |y.r| == to - from
  {
    Convolve(c.kernel, x).Take(to).Drop(from)
  }

  lemma EmitHolds(c: Setup, a: Adapter, x: Stereo, n: nat)
    requires ValidSetup(c) && Holds(c, a, x)
    ensures var r := Emit(a, n);
            && Holds(c, r.next, x)
            && 0 <= PlayedOf(a, x) <= PlayedOf(r.next, x)
            && r.out == Silence(r.silence).Append(Stretch(c, x, PlayedOf(a, x), PlayedOf(r.next, x)))
  {
    var y, consumed, played := Convolve(c.kernel, x), |x.l| - |a.input.l|, PlayedOf(a, x);
    if played + n <= consumed {
      assert y.Take(consumed).Drop(played).Drop(n) == y.Take(consumed).Drop(played + n);
      assert y.Take(consumed).Drop(played).Take(n) == y.Take(played + n).Drop(played);
      assert Silence(0).Append(a.output.Take(n)) == a.output.Take(n);
    } else {
      assert y.Take(consumed).Drop(consumed) == SILENT;
    }
  }

  lemma WholeTake(x: Stereo)
    requires x.Lockstep()
    ensures x.Take(|x.l|) == x && x.Drop(|x.l|) == SILENT
  {
  }

  lemma DirectHolds(c: Setup, a: Adapter, x: Stereo, more: Stereo)
    requires ValidSetup(c) && ValidAdapter(c, a) && more.Lockstep()
    requires Holds(c, a, x) && a.input == a.output == SILENT && DirectCall(c, a, more).ok
    ensures var r, all := DirectCall(c, a, more), x.Append(more);
            && Holds(c, r.next, all)
            && r.out == Silence(0).Append(Stretch(c, all, |x.l|, |all.l|))
  {
    hide Convolve, Recent, BlockOutput, NextRecent, Silence;
    var all := x.Append(more);
    var y := BlockOutput(c.kernel, a.engine.recent, more);
    WholeTake(x);
    WholeTake(all);
    WholeTake(Convolve(c.kernel, all));
    RecentAdvances(c.kernel, x, more);
    BlockIsStreamConvolution(c.kernel, x, more);
    AppendDrop(Convolve(c.kernel, x), y, |x.l|);
    WholeTake(Convolve(c.kernel, x));
    assert SILENT.Append(y) == y;
    NoPadding(y);
  }

  /** One successful call plays the padding it inserts and then the next stretch of the convolved stream. */
  lemma CallHolds(c: Setup, a: Adapter, x: Stereo, more: Stereo)
    requires ValidSetup(c) && ValidAdapter(c, a) && more.Lockstep() && |more.l| == c.stream
    requires Holds(c, a, x) && (c.stream == c.block ==> a.input == a.output == SILENT)
    requires Call(c, a, more).ok
    ensures var r, all := Call(c, a, more), x.Append(more);
            && Holds(c, r.next, all)
            && 0 <= PlayedOf(a, x) <= PlayedOf(r.next, all)
            && r.out == Silence(r.silence).Append(Stretch(c, all, PlayedOf(a, x), PlayedOf(r.next, all)))
  {
    if c.stream != c.block {
      PushHolds(c, a, x, more);
      DrainHolds(c, Push(a, more), x.Append(more));
      EmitHolds(c, Drain(c, Push(a, more)).0, x.Append(more), c.stream);
    } else {
      DirectHolds(c, a, x, more);
    }
  }

  lemma JoinStretches(y: Stereo, from: nat, mid: nat, to: nat)
    requires y.Lockstep() && from <= mid <= to <= |y.l|
    ensures y.Take(mid).Drop(from).Append(y.Take(to).Drop(mid)) == y.Take(to).Drop(from)
  {
    assert y.l[..mid][from..] + y.l[..to][mid..] == y.l[..to][from..];
    assert y.r[..mid][from..] + y.r[..to][mid..] == y.r[..to][from..];
  }

  lemma StretchesJoin(c: Setup, x: Stereo, more: Stereo, mid: nat, to: nat)
    requires ValidSetup(c) && x.Lockstep() && more.Lockstep() && mid <= |x.l| && mid <= to <= |x.l| + |more.l|
    ensures var all := x.Append(more);
            Stretch(c, x, 0, mid).Append(Stretch(c, all, mid, to)) == Stretch(c, all, 0, to)
  {
    hide Convolve;
    var all := x.Append(more);
    var y := Convolve(c.kernel, all);
    ConvolveCausal(c.kernel, x, more);
    TakeTake(y, |x.l|, mid);
    JoinStretches(y, 0, mid, to);
  }

  /** The queues of a successful run hold what `Holds` says, and what was played, with the padding removed, is
      the beginning of the convolution of everything given: nothing lost, repeated or reordered, left and right
      in lockstep, wherever the stream was cut into blocks. */
  lemma {:induction false} StreamRefinement(c: Setup, blocks: seq<Stereo>)
    requires ValidSetup(c) && StreamBlocks(c, blocks)
    ensures var t := Run(c, blocks);
            t.failures == 0 ==>
              && Holds(c, t.adapter, t.given)
              && t.silence <= |t.given.l|
              && t.played == Convolve(c.kernel, t.given).Take(|t.given.l| - t.silence)
  {
    hide Call, Convolve, MaxResidue, Residue, Holds;
    QueueLengths(c, blocks);
    if blocks == [] {
      EmptyRunHolds(c);
    } else if Run(c, blocks).failures == 0 {
      PrefixSucceeds(c, blocks);
      StreamRefinement(c, Init(blocks));
      PlayedStep(c, blocks);
    }
  }

  /** What the last call of a successful run plays. */
  lemma {:induction false} NextStretch(c: Setup, blocks: seq<Stereo>)
    requires ValidSetup(c) && StreamBlocks(c, blocks) && Run(c, blocks).failures == 0 && blocks != []
    requires Holds(c, Run(c, Init(blocks)).adapter, Run(c, Init(blocks)).given)
    ensures var t, u, r := Run(c, Init(blocks)), Run(c, blocks), LastCall(c, blocks);
            && r.ok && Holds(c, u.adapter, u.given)
            && 0 <= PlayedOf(t.adapter, t.given) <= PlayedOf(u.adapter, u.given)
            && r.silence == u.silence - t.silence
            && r.out == Silence(r.silence).Append(Stretch(c, u.given, PlayedOf(t.adapter, t.given),
                                                          PlayedOf(u.adapter, u.given)))
  {
    hide Call, Convolve, MaxResidue, Residue, Holds, Stretch;
    var t, x := Run(c, Init(blocks)), Last(blocks);
    QueueLengths(c, Init(blocks));
    EmptyWhenEqual(c, t.adapter);
    CallHolds(c, t.adapter, t.given, x);
  }

  lemma PrefixSucceeds(c: Setup, blocks: seq<Stereo>)
    requires c.block > 0 && StreamBlocks(c, blocks) && blocks != [] && Run(c, blocks).failures == 0
    ensures Run(c, Init(blocks)).failures == 0
  {
    hide Call;
  }

  lemma PlayedOnce(c: Setup, blocks: seq<Stereo>)
    requires c.block > 0 && StreamBlocks(c, blocks) && blocks != [] && LastCall(c, blocks).ok
    ensures var r, t := LastCall(c, blocks), Run(c, Init(blocks));
            && r.silence <= |r.out.l| && r.silence <= |r.out.r|
            && Run(c, blocks).played == t.played.Append(r.out.Drop(r.silence))
            && Run(c, blocks).given == t.given.Append(Last(blocks))
  {
  }

  lemma PlayedStep(c: Setup, blocks: seq<Stereo>)
    requires ValidSetup(c) && StreamBlocks(c, blocks) && Run(c, blocks).failures == 0 && blocks != []
    requires var t := Run(c, Init(blocks));
             && Holds(c, t.adapter, t.given) && t.silence <= |t.given.l|
             && t.played == Convolve(c.kernel, t.given).Take(|t.given.l| - t.silence)
    ensures var u := Run(c, blocks);
            && Holds(c, u.adapter, u.given) && u.silence <= |u.given.l|
            && u.played == Convolve(c.kernel, u.given).Take(|u.given.l| - u.silence)
  {
    hide Call, Convolve, MaxResidue, Residue, Holds, LastCall, Stretch, Silence, Run;
    var t, u, r := Run(c, Init(blocks)), Run(c, blocks), LastCall(c, blocks);
    PrefixSucceeds(c, blocks);
    QueueLengths(c, Init(blocks));
    QueueLengths(c, blocks);
    NextStretch(c, blocks);
    PlayedOnce(c, blocks);
    var mid, to := PlayedOf(t.adapter, t.given), PlayedOf(u.adapter, u.given);
    DropSilence(r.silence, Stretch(c, u.given, mid, to));
    FromStart(c, t.given, mid);
    StretchesJoin(c, t.given, Last(blocks), mid, to);
    FromStart(c, u.given, to);
  }

  lemma NothingBefore(m: nat)
    ensures Stereo(LastSamples(m, []), LastSamples(m, [])) == Silence(m)
  {
    assert (Zeros(m) + [])[0..] == Zeros(m);
  }

  lemma EmptyRunHolds(c: Setup)
    requires ValidSetup(c)
    ensures Holds(c, Fresh(c), SILENT)
    ensures SILENT == Convolve(c.kernel, SILENT).Take(0)
  {
    hide Convolve, Silence;
    var m, y := Memory(c.kernel), Convolve(c.kernel, SILENT);
    assert y == SILENT && y.Take(0) == SILENT && y.Take(0).Drop(0) == SILENT;
    assert SILENT.Drop(0) == SILENT && SILENT.Take(0) == SILENT;
    assert Recent(c.kernel, SILENT) == Silence(m) by {
      NothingBefore(m);
    }
  }

  lemma FromStart(c: Setup, x: Stereo, to: nat)
    requires to <= |x.l|
    ensures Stretch(c, x, 0, to) == Convolve(c.kernel, x).Take(to)
  {
    hide Convolve;
    var y := Convolve(c.kernel, x).Take(to);
    assert y.l[0..] == y.l && y.r[0..] == y.r;
  }

  lemma DropSilence(n: nat, x: Stereo)
    requires x.Lockstep()
    ensures Silence(n).Append(x).Drop(n) == x
  {
    assert (Zeros(n) + x.l)[n..] == x.l && (Zeros(n) + x.r)[n..] == x.r;
  }

  lemma NoPadding(x: Stereo)
    ensures Silence(0).Append(x) == x
  {
    assert Zeros(0) + x.l == x.l && Zeros(0) + x.r == x.r;
  }

  lemma EmptyWhenEqual(c: Setup, a: Adapter)
    requires ValidAdapter(c, a)
    ensures |a.input.l| + |a.output.l| == 0 ==> a.input == a.output == SILENT
  {
  }

  /** The buffer that the last call hands back, sample for sample: the newly inserted silence in front, then the next
      convolved samples, late by the total silence so far. */
  ghost predicate PlaysInTurn(c: Setup, blocks: seq<Stereo>)
    requires c.block > 0 && StreamBlocks(c, blocks) && blocks != []
  {
    var n, r, x := |blocks|, LastCall(c, blocks), Run(c, blocks).given;
    var z0, z1 := MaxResidue(n - 1, c.stream, c.block), MaxResidue(n, c.stream, c.block);
    && z0 <= Sent(c, n - 1) <= Sent(c, n) == |x.l| == |x.r|
    && Sent(c, n - 1) - z0 <= Sent(c, n) - z1
    && r.silence == z1 - z0
    && r.out == Silence(z1 - z0).Append(Stretch(c, x, Sent(c, n - 1) - z0, Sent(c, n) - z1))
  }

  lemma CallOutput(c: Setup, blocks: seq<Stereo>)
    requires ValidSetup(c) && StreamBlocks(c, blocks) && blocks != []
    ensures Run(c, blocks).failures == 0 ==> PlaysInTurn(c, blocks)
  {
    hide Run, LastCall, Call, Convolve, Stretch, MaxResidue, Residue, Sent, Holds;
    if Run(c, blocks).failures == 0 {
      PrefixSucceeds(c, blocks);
      GivenLength(c, blocks);
      GivenLength(c, Init(blocks));
      QueueLengths(c, blocks);
      QueueLengths(c, Init(blocks));
      StreamRefinement(c, Init(blocks));
      NextStretch(c, blocks);
    }
  }

  /** The padding played in any successful run. */
  lemma LatencyBound(c: Setup, blocks: seq<Stereo>)
    requires ValidSetup(c) && StreamBlocks(c, blocks)
    ensures var t, limit := Run(c, blocks), c.block - Gcd(c.stream, c.block);
            t.failures == 0 ==>
              && t.silence <= limit
              && (Period(c.stream, c.block) - 1 <= |blocks| ==> t.silence == limit)
  {
    hide Run;
    QueueLengths(c, blocks);
    MaxResidueSettles(|blocks|, c.stream, c.block);
  }

  /** The last call inserted no silence and played the convolved stream, `delay` samples late. */
  ghost predicate PlaysDelayed(c: Setup, blocks: seq<Stereo>, delay: int)
    requires c.block > 0 && StreamBlocks(c, blocks) && blocks != []
  {
    var n, x := |blocks|, Run(c, blocks).given;
    && 0 <= delay <= Sent(c, n - 1) <= Sent(c, n) == |x.l| == |x.r|
    && LastCall(c, blocks).silence == 0
    && LastCall(c, blocks).out == Stretch(c, x, Sent(c, n - 1) - delay, Sent(c, n) - delay)
  }

  lemma SettledCall(c: Setup, blocks: seq<Stereo>)
    requires ValidSetup(c) && StreamBlocks(c, blocks) && blocks != [] && PlaysInTurn(c, blocks)
    ensures MaxResidue(|blocks|, c.stream, c.block) == MaxResidue(|blocks| - 1, c.stream, c.block) ==>
              PlaysDelayed(c, blocks, MaxResidue(|blocks|, c.stream, c.block))
  {
    hide Run, LastCall, Call, Convolve, Stretch, MaxResidue, Residue, Sent, StreamBlocks, Silence;
    var n, z, x := |blocks|, MaxResidue(|blocks|, c.stream, c.block), Run(c, blocks).given;
    if z == MaxResidue(n - 1, c.stream, c.block) {
      NoPadding(Stretch(c, x, Sent(c, n - 1) - z, Sent(c, n) - z));
    }
  }

  /** From call B / gcd(S, B) on no silence is inserted any more, and the output is the convolved stream
      delayed by exactly B - gcd(S, B) samples. */
  lemma PureDelay(c: Setup, blocks: seq<Stereo>)
    requires ValidSetup(c) && StreamBlocks(c, blocks) && blocks != []
    ensures Run(c, blocks).failures == 0 && Period(c.stream, c.block) <= |blocks| ==>
              PlaysDelayed(c, blocks, c.block - Gcd(c.stream, c.block))
  {
    assert c.stream > 0 && c.block > 0;
    hide *;
    if Run(c, blocks).failures == 0 && Period(c.stream, c.block) <= |blocks| {
      CallOutput(c, blocks);
      SettledResidues(|blocks|, c.stream, c.block);
      SettledCall(c, blocks);
    }
  }

  lemma {:induction false} PrefixFailsLess(c: Setup, blocks: seq<Stereo>, n: nat)
    requires c.block > 0 && StreamBlocks(c, blocks) && n <= |blocks|
    ensures Run(c, blocks[..n]).failures <= Run(c, blocks).failures
    decreases |blocks|
  {
    hide Call;
    if n == |blocks| {
      assert blocks[..n] == blocks;
    } else {
      assert Init(blocks)[..n] == blocks[..n];
      PrefixFailsLess(c, Init(blocks), n);
    }
  }

  // Impulses

  /** Sample i of the last buffer of a run: new silence, or the convolved stream late by all silence so far. */
  lemma BufferSample(c: Setup, blocks: seq<Stereo>, i: nat)
    requires ValidSetup(c) && StreamBlocks(c, blocks) && blocks != [] && i < c.stream
    ensures var t, r, y := Run(c, blocks), LastCall(c, blocks), Convolve(c.kernel, Run(c, blocks).given);
            var at := Sent(c, |blocks| - 1) + i - t.silence;
            t.failures == 0 ==>
              && |r.out.l| == |r.out.r| == c.stream && |t.given.l| == |t.given.r| == Sent(c, |blocks| - 1) + c.stream
              && at < |y.l| == |y.r|
              && (if i < r.silence then r.out.l[i] == r.out.r[i] == 0.0
                  else 0 <= at && r.out.l[i] == y.l[at] && r.out.r[i] == y.r[at])
  {
    hide Run, LastCall, Call, Convolve, MaxResidue, Residue, Sent, Stretch;
    var t, r, n := Run(c, blocks), LastCall(c, blocks), |blocks|;
    if t.failures == 0 {
      CallOutput(c, blocks);
      QueueLengths(c, blocks);
      GivenLength(c, blocks);
      var z0, z1 := MaxResidue(n - 1, c.stream, c.block), MaxResidue(n, c.stream, c.block);
      if i >= r.silence {
        StretchAt(c, t.given, Sent(c, n - 1) - z0, Sent(c, n) - z1, i - r.silence);
      }
    }
  }

  lemma StretchAt(c: Setup, x: Stereo, from: nat, to: nat, i: nat)
    requires from <= to <= |x.l| && i < to - from
    ensures var y := Convolve(c.kernel, x);
            Stretch(c, x, from, to).l[i] == y.l[from + i] && Stretch(c, x, from, to).r[i] == y.r[from + i]
  {
    hide Convolve;
  }

  /** What a host plays for an impulse, heard on its own side through `direct` and on the other through `cross`: tap
      `from + i - p` of each once the silence so far has passed. */
  ghost predicate PlaysTaps(c: Setup, own: seq<real>, other: seq<real>, direct: seq<real>, cross: seq<real>,
                            silence: nat, from: int, p: nat, i: nat)
    requires i < |own| == |other|
  {
    && own[i] == (if i < silence then 0.0 else At(direct, from + i - p))
    && other[i] == (if i < silence || c.kernel.channels != 4 then 0.0 else At(cross, from + i - p))
  }

  /** An impulse given to a host comes back as the taps of its responses, in every buffer and wherever the stream was
      cut: a left impulse through `left` and `leftRight`, a right impulse through `right` and `rightLeft`. */
  lemma ImpulseThroughRun(c: Setup, blocks: seq<Stereo>, p: nat, i: nat)
    requires ValidSetup(c) && StreamBlocks(c, blocks) && blocks != [] && i < c.stream
    ensures var t, r, k := Run(c, blocks), LastCall(c, blocks), c.kernel;
            var from := Sent(c, |blocks| - 1) - t.silence;
            t.failures == 0 ==>
              && |r.out.l| == |r.out.r| == c.stream
              && (IsImpulse(t.given.l, p) && IsSilent(t.given.r) ==>
                    PlaysTaps(c, r.out.l, r.out.r, k.left, k.leftRight, r.silence, from, p, i))
              && (IsImpulse(t.given.r, p) && IsSilent(t.given.l) ==>
                    PlaysTaps(c, r.out.r, r.out.l, k.right, k.rightLeft, r.silence, from, p, i))
  {
    hide Run, LastCall, Call, Convolve, Sent, IsImpulse, IsSilent, At;
    var t, r := Run(c, blocks), LastCall(c, blocks);
    BufferSample(c, blocks, i);
    var at := Sent(c, |blocks| - 1) + i - t.silence;
    if t.failures == 0 && i >= r.silence {
      if IsImpulse(t.given.l, p) && IsSilent(t.given.r) {
        LeftImpulse(c.kernel, t.given, p, at);
      }
      if IsImpulse(t.given.r, p) && IsSilent(t.given.l) {
        RightImpulse(c.kernel, t.given, p, at);
      }
    }
  }

  // Reserved capacity

  /** The adapter in the middle of a call, after `rounds` rounds of the draining loop, which a failing block ends. */
  function MidCall(c: Setup, a: Adapter, rounds: nat): (b: Adapter)
    requires c.block > 0 && ValidAdapter(c, a)
    ensures ValidAdapter(c, b)
    decreases rounds
  {
    if rounds == 0 || |a.input.l| < c.block then a
    else
      var (b, ok) := DrainOnce(c, a);
      if ok then MidCall(c, b, rounds - 1) else b
  }

  lemma {:induction false} MidCallConserves(c: Setup, a: Adapter, rounds: nat)
    requires c.block > 0 && ValidAdapter(c, a)
    ensures var b := MidCall(c, a, rounds);
            && |b.input.l| + |b.output.l| == |a.input.l| + |a.output.l|
            && |b.input.l| <= |a.input.l|
    decreases rounds
  {
    if rounds > 0 && |a.input.l| >= c.block && DrainOnce(c, a).1 {
      MidCallConserves(c, DrainOnce(c, a).0, rounds - 1);
    }
  }

  /** While no call fails, the queues stay below the S + B samples reserved for them, also between two rounds of the
      draining loop of the next call, and also if that one fails. */
  lemma WithinCapacity(c: Setup, blocks: seq<Stereo>, x: Stereo, rounds: nat)
    requires ValidSetup(c) && StreamBlocks(c, blocks) && c.stream != c.block
    requires |x.l| == |x.r| == c.stream
    ensures var b := MidCall(c, Push(Run(c, blocks).adapter, x), rounds);
            Run(c, blocks).failures == 0 ==>
              && |b.input.l| == |b.input.r| < c.stream + c.block
              && |b.output.l| == |b.output.r| < c.stream + c.block
  {
    var t := Run(c, blocks);
    QueueLengths(c, blocks);
    MidCallConserves(c, Push(t.adapter, x), rounds);
  }
}
