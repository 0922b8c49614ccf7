/** The guard against streams that are recreated again and again right after they were redirected
    (src/pipewire_router.cpp:57-59, :2226-2229 and :2272-2293). Times are nanoseconds of the steady clock. */
module LoopGuard {

  const RAPID_WINDOW: int := 1_500_000_000
  const SUPPRESS_DURATION: int := 5_000_000_000
  const SUPPRESS_THRESHOLD: nat := 3

  datatype Guard = Guard(rapidRemovals: nat, lastRemovedAt: int, suppressUntil: int)

  const NewGuard := Guard(0, 0, 0)

  /** A recorded removal: when the stream vanished and when it had been patched. */
  datatype Removal = Removal(at: int, patchedAt: int) {
    predicate Rapid() {
      at - patchedAt <= RAPID_WINDOW
    }
  }

  /** The update made when a patched stream is removed. */
  function Record(g: Guard, r: Removal): Guard {
    if r.Rapid() then
      var base := if r.at - g.lastRemovedAt > RAPID_WINDOW then 0 else g.rapidRemovals;
      Guard(base + 1, r.at, if base + 1 >= SUPPRESS_THRESHOLD then r.at + SUPPRESS_DURATION else g.suppressUntil)
    else
      Guard(0, r.at, g.suppressUntil)
  }

  function Replay(history: seq<Removal>): Guard {
    if history == [] then NewGuard else Record(Replay(history[..|history| - 1]), history[|history| - 1])
  }

  predicate Suppresses(g: Guard, now: int) {
    now < g.suppressUntil
  }

  /** All removals from position `from` on are rapid, at most 1.5 seconds after the stream was patched, and follow each
      other within the same time. */
  ghost predicate Chain(h: seq<Removal>, from: nat) {
    && from <= |h|
    && (forall i :: from <= i < |h| ==> h[i].at - h[i].patchedAt <= 1_500_000_000)
    && (forall i :: from < i < |h| ==> h[i].at - h[i - 1].at <= 1_500_000_000)
  }

  /** The clock never ran backwards, nor below zero. */
  ghost predicate Monotone(h: seq<Removal>) {
    (forall i :: 0 <= i < |h| ==> 0 <= h[i].at) && (forall i, j :: 0 <= i <= j < |h| ==> h[i].at <= h[j].at)
  }

  lemma ChainOfPrefix(h: seq<Removal>, k: nat)
    requires k < |h|
    ensures Chain(h, k) <==>
              && Chain(h[..|h| - 1], k) && h[|h| - 1].Rapid()
              && (k < |h| - 1 ==> h[|h| - 1].at - h[|h| - 2].at <= RAPID_WINDOW)
  {
    var p, last := h[..|h| - 1], |h| - 1;
    if Chain(p, k) {
      forall i | k <= i < last ensures h[i] == p[i] {
      }
    }
  }

  lemma ChainAtEnd(h: seq<Removal>)
    ensures Chain(h, |h|)
  {
  }

  /** The counter is the length of the longest chain of rapid removals at the end of the history. */
  lemma {:induction false} CounterIsLongestChain(h: seq<Removal>)
    ensures var n := Replay(h).rapidRemovals;
            && n <= |h| && Chain(h, |h| - n)
            && forall k: nat :: k < |h| - n ==> !Chain(h, k)
    ensures h != [] ==> Replay(h).lastRemovedAt == h[|h| - 1].at
  {
    hide Chain;
    ChainAtEnd(h);
    if h != [] {
      var p := h[..|h| - 1];
      CounterIsLongestChain(p);
      ChainAtEnd(p);
      var n := Replay(h).rapidRemovals;
      if n > 0 {
        ChainOfPrefix(h, |h| - n);
      }
      forall k: nat | k < |h| - n ensures !Chain(h, k) {
        ChainOfPrefix(h, k);
      }
    }
  }

  /** Three rapid removals in a row, ending with removal `i`, each within the window of the one before. */
  ghost predicate LoopAt(h: seq<Removal>, i: nat) {
    2 <= i < |h| && Chain(h[..i + 1], i - 2)
  }

  lemma {:induction false} ThresholdMeansLoop(h: seq<Removal>, i: nat)
    requires i < |h|
    ensures Replay(h[..i + 1]).rapidRemovals >= SUPPRESS_THRESHOLD <==> LoopAt(h, i)
  {
    var p := h[..i + 1];
    CounterIsLongestChain(p);
    var n := Replay(p).rapidRemovals;
    assert i >= 2 && i - 2 < |p| - n ==> !Chain(p, i - 2);
  }

  lemma {:induction false} DeadlineBehindClock(h: seq<Removal>)
    requires Monotone(h)
    ensures h == [] ==> Replay(h).suppressUntil == 0
    ensures h != [] ==> Replay(h).suppressUntil <= h[|h| - 1].at + SUPPRESS_DURATION
  {
    if h != [] {
      DeadlineBehindClock(h[..|h| - 1]);
    }
  }

  lemma MonotoneParts(h: seq<Removal>, r: Removal)
    requires Monotone(h + [r])
    ensures Monotone(h) && 0 <= r.at && (h != [] ==> h[|h| - 1].at <= r.at)
  {
    var all := h + [r];
    assert forall i :: 0 <= i < |h| ==> h[i] == all[i];
    assert all[|h|] == r;
    assert h != [] ==> all[|h| - 1].at <= all[|h|].at;
  }

  lemma ReplayAppend(h: seq<Removal>, r: Removal)
    ensures Replay(h + [r]) == Record(Replay(h), r)
  {
    assert (h + [r])[..|h|] == h;
  }

  /** Under a monotone clock the deadline never decreases. */
  lemma DeadlineNeverDecreases(h: seq<Removal>, r: Removal)
    requires Monotone(h + [r])
    ensures Replay(h).suppressUntil <= Replay(h + [r]).suppressUntil
  {
    MonotoneParts(h, r);
    DeadlineBehindClock(h);
    ReplayAppend(h, r);
  }

  lemma LoopInPrefix(h: seq<Removal>, r: Removal, i: nat)
    requires i < |h|
    ensures LoopAt(h + [r], i) <==> LoopAt(h, i)
  {
    assert (h + [r])[..i + 1] == h[..i + 1];
  }

  ghost predicate RecentLoop(h: seq<Removal>, now: int) {
    exists i: nat :: LoopAt(h, i) && now < h[i].at + 5_000_000_000
  }

  lemma RecentLoopAppend(h: seq<Removal>, r: Removal, now: int)
    ensures RecentLoop(h + [r], now) <==>
              RecentLoop(h, now) || (LoopAt(h + [r], |h|) && now < r.at + SUPPRESS_DURATION)
  {
    hide Chain;
    var all := h + [r];
    if RecentLoop(all, now) {
      var i: nat :| LoopAt(all, i) && now < all[i].at + SUPPRESS_DURATION;
      if i < |h| {
        LoopInPrefix(h, r, i);
      }
    }
    if RecentLoop(h, now) {
      var i: nat :| LoopAt(h, i) && now < h[i].at + SUPPRESS_DURATION;
      LoopInPrefix(h, r, i);
      assert LoopAt(all, i) && all[i] == h[i];
    }
  }

  lemma LatestLoopIsRecent(h: seq<Removal>, r: Removal, now: int)
    requires Monotone(h + [r]) && RecentLoop(h, now)
    ensures now < r.at + SUPPRESS_DURATION
  {
    var i: nat :| LoopAt(h, i) && now < h[i].at + SUPPRESS_DURATION;
    assert (h + [r])[i].at <= (h + [r])[|h|].at;
  }

  /** Repatching is suppressed at a time exactly if some removal completed a loop less than five seconds ago. */
  lemma {:induction false} SuppressionIffRecentLoop(h: seq<Removal>, now: int)
    requires Monotone(h) && 0 <= now
    ensures Suppresses(Replay(h), now) <==> RecentLoop(h, now)
  {
    if h == [] {
      assert !exists i: nat :: LoopAt(h, i);
    } else {
      var p, last := h[..|h| - 1], h[|h| - 1];
      assert h == p + [last];
      MonotoneParts(p, last);
      SuppressionIffRecentLoop(p, now);
      SuppressionStep(p, last, now);
    }
  }

  lemma SuppressionStep(h: seq<Removal>, r: Removal, now: int)
    requires Monotone(h + [r]) && (Suppresses(Replay(h), now) <==> RecentLoop(h, now))
    ensures Suppresses(Replay(h + [r]), now) <==> RecentLoop(h + [r], now)
  {
    hide Record, RecentLoop, LoopAt, Chain, Monotone, Replay;
    var all := h + [r];
    assert all[..|h| + 1] == all;
    RecentLoopAppend(h, r, now);
    ReplayAppend(h, r);
    ThresholdMeansLoop(all, |h|);
    RecordDeadline(Replay(h), r);
    if LoopAt(all, |h|) && RecentLoop(h, now) {
      LatestLoopIsRecent(h, r, now);
    }
  }

  lemma RecordDeadline(g: Guard, r: Removal)
    ensures var d := Record(g, r);
            d.suppressUntil == if d.rapidRemovals >= SUPPRESS_THRESHOLD then r.at + SUPPRESS_DURATION
                else g.suppressUntil
  {
  }
}
