/** The block size the convolution engine is configured with, in 32-bit unsigned arithmetic
    (src/convolver_host.cpp, `is_power_of_two` and `normalized_zita_block_size`). */
module BlockSize {

  const WORD: nat := 0x1_0000_0000
  const HALF_WORD: nat := 0x8000_0000
  const MIN_BLOCK: nat := 64

  function Pow2(k: nat): (p: nat)
    ensures p > 0
  {
    if k == 0 then 1 else 2 * Pow2(k - 1)
  }

  ghost predicate IsPow2(v: nat) {
    exists k: nat :: v == Pow2(k)
  }

  /** Bitwise conjunction of two unsigned numbers, bit by bit from the lowest. */
  function BitAnd(a: nat, b: nat): nat {
    if a == 0 || b == 0 then 0
    else (if a % 2 == 1 && b % 2 == 1 then 1 else 0) + 2 * BitAnd(a / 2, b / 2)
  }

  predicate IsPowerOfTwo(v: nat) {
    v != 0 && BitAnd(v, v - 1) == 0
  }

  /** A left shift by one of a 32-bit word: the top bit falls off. */
  function Shl1(v: nat): (r: nat)
    requires v < WORD
    ensures r < WORD
  {
    (2 * v) % WORD
  }

  lemma {:induction false} BitAndSelf(v: nat)
    ensures BitAnd(v, v) == v
  {
    if v > 0 {
      BitAndSelf(v / 2);
    }
  }

  lemma {:induction false} HalfOfPow2(v: nat)
    requires v >= 2
    ensures IsPow2(v) <==> v % 2 == 0 && IsPow2(v / 2)
  {
    if IsPow2(v) {
      var k: nat :| v == Pow2(k);
      assert v / 2 == Pow2(k - 1);
    }
    if v % 2 == 0 && IsPow2(v / 2) {
      var k: nat :| v / 2 == Pow2(k);
      assert v == Pow2(k + 1);
    }
  }

  /** `v & (v - 1) == 0` with `v != 0` holds exactly for the powers of two. */
  lemma {:induction false} BitTrickIsPowerOfTwo(v: nat)
    ensures IsPowerOfTwo(v) <==> IsPow2(v)
  {
    if v == 1 {
      assert v == Pow2(0);
    } else if v >= 2 {
      HalfOfPow2(v);
      BitTrickIsPowerOfTwo(v / 2);
      if v % 2 == 1 {
        BitAndSelf(v / 2);
        assert (v - 1) / 2 == v / 2;
      } else {
        assert (v - 1) / 2 == v / 2 - 1;
      }
    }
  }

  lemma {:induction false} Pow2Monotone(i: nat, j: nat)
    requires i < j
    ensures 2 * Pow2(i) <= Pow2(j)
    decreases j
  {
    if i + 1 < j {
      Pow2Monotone(i, j - 1);
    }
  }

  /** What the source promises of the result: zero for zero, otherwise the greatest power of two
      that is not above the stream block, but at least 64. */
  ghost predicate IsNormalized(stream: nat, block: nat) {
    if stream == 0 then
      block == 0
    else
      && IsPow2(block)
      && MIN_BLOCK <= block
      && (block <= stream || block == MIN_BLOCK)
      && stream < 2 * block
  }

  lemma NormalizedIsUnique(stream: nat, b: nat, c: nat)
    requires IsNormalized(stream, b) && IsNormalized(stream, c)
    ensures b == c
  {
    if stream > 0 && b != c {
      var i: nat, j: nat :| b == Pow2(i) && c == Pow2(j);
      if i < j {
        Pow2Monotone(i, j);
      } else if j < i {
        Pow2Monotone(j, i);
      }
    }
  }

  /** A block size that differs from the stream block never divides it, so the adapter has to buffer
      and its latency is never zero. */
  lemma DifferentBlockDoesNotDivide(stream: nat, block: nat)
    requires IsNormalized(stream, block) && stream > 0 && stream != block
    ensures stream % block != 0
    ensures MIN_BLOCK <= stream ==> block < stream < 2 * block
  {
    if block < stream {
      assert stream % block == stream - block by {
        assert stream == 1 * block + (stream - block);
      }
    }
  }

  method NormalizedZitaBlockSize(stream: nat) returns (block: nat)
    requires stream <= HALF_WORD
    ensures IsNormalized(stream, block)
    ensures block <= HALF_WORD
  {
    if stream == 0 {
      return 0;
    }
    block := stream;
    BitTrickIsPowerOfTwo(stream);
    if !IsPowerOfTwo(block) {
      assert HALF_WORD == Pow2(31) by { Pow2At31(); }
      block := 1;
      ghost var k := 0;
      while Shl1(block) <= stream
        invariant block == Pow2(k) && block <= stream
        decreases stream - block
      {
        block := Shl1(block);
        k := k + 1;
      }
    }
    assert MIN_BLOCK == Pow2(6);
    block := if block < MIN_BLOCK then MIN_BLOCK else block;
  }

  lemma Pow2At31()
    ensures Pow2(31) == HALF_WORD
  {
    assert Pow2(8) == 0x100;
    assert Pow2(16) == 0x1_0000;
    assert Pow2(24) == 0x100_0000;
  }

  /** The loop variable after `k` rounds that did not stop. */
  function LoopBlock(k: nat): (b: nat)
    ensures b < WORD
  {
    if k == 0 then 1 else Shl1(LoopBlock(k - 1))
  }

  lemma ShiftOfPow2(k: nat)
    requires k <= 31
    ensures Pow2(k) < WORD && Shl1(Pow2(k)) == if k < 31 then Pow2(k + 1) else 0
  {
    Pow2Fits(k);
    assert Pow2(k + 1) == 2 * Pow2(k);
  }

  lemma ShiftOfZero()
    ensures Shl1(0) == 0 && Pow2(0) == 1
  {
  }

  lemma {:induction false} LoopBlockValue(k: nat)
    ensures LoopBlock(k) == if k <= 31 then Pow2(k) else 0
  {
    hide Shl1, Pow2;
    ShiftOfZero();
    if k > 0 {
      LoopBlockValue(k - 1);
      if k <= 32 {
        ShiftOfPow2(k - 1);
      }
    }
  }

  lemma Pow2Fits(k: nat)
    requires k <= 31
    ensures Pow2(k) <= HALF_WORD
    ensures k < 31 ==> 2 * Pow2(k) <= HALF_WORD
    ensures k == 31 ==> 2 * Pow2(k) == WORD
  {
    Pow2At31();
    if k < 31 {
      Pow2Monotone(k, 31);
    }
  }

  /** The loop of the source can leave exactly when the stream block is below 2^31; since 2^31 itself is a
      power of two and skips the loop, every larger size makes the call hang on the wrapped-around zero. */
  lemma LoopStopsIffBelowHalfWord(stream: nat)
    requires stream < WORD
    ensures (exists k: nat :: !(Shl1(LoopBlock(k)) <= stream)) <==> stream < HALF_WORD
  {
    Pow2At31();
    if stream < HALF_WORD {
      LoopBlockValue(30);
      assert !(Shl1(LoopBlock(30)) <= stream);
    }
    if k: nat :| !(Shl1(LoopBlock(k)) <= stream) {
      LoopBlockValue(k);
      LoopBlockValue(k + 1);
      if k < 31 {
        if k + 1 < 31 {
          Pow2Monotone(k + 1, 31);
        }
      }
    }
  }

  /** The whole call ends exactly for stream blocks up to 2^31. */
  lemma CallEndsIffAtMostHalfWord(stream: nat)
    requires stream < WORD
    ensures stream == 0 || IsPowerOfTwo(stream) || (exists k: nat :: !(Shl1(LoopBlock(k)) <= stream)) <==>
              stream <= HALF_WORD
  {
    LoopStopsIffBelowHalfWord(stream);
    BitTrickIsPowerOfTwo(stream);
    Pow2At31();
    if IsPowerOfTwo(stream) {
      var i: nat :| stream == Pow2(i);
      if i > 31 {
        Pow2Monotone(31, i);
      } else {
        Pow2Fits(i);
      }
    }
    if stream == HALF_WORD {
      assert stream == Pow2(31);
    }
  }
}
