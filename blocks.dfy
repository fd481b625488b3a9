/**
 * The memory blocks that the /post-heavy handler allocates, the loop that
 * fills them, the loop that adds up their bytes, and the closed form of that
 * sum.
 *
 * Byte j of block i holds (i + j) mod 256. Indices are never negative, so
 * Dafny's `%` agrees with Go's here, and the value always fits a Go `byte`.
 */
module Blocks {

  /** A Go `byte` (uint8). */
  type Byte = b: int | 0 <= b < 256

  /** The sum of the bytes 0, 1, ..., 255: what one full period of the pattern adds up to. */
  const PeriodSum: int := 32640

  // ---------------------------------------------------------------------------
  // Specification: what the blocks hold and what their bytes add up to
  // ---------------------------------------------------------------------------

  /** The contents the handler gives block `i` of length `size`. */
  function Pattern(i: nat, size: nat): (p: seq<Byte>)
    ensures |p| == size
    ensures forall j :: 0 <= j < size ==> p[j] == (i + j) % 256
  {
    seq(size, j requires 0 <= j < size => (i + j) % 256)
  }

  /** The contents of the whole batch: `count` blocks of length `size`, in index order. */
  function Batch(count: nat, size: nat): (b: seq<seq<Byte>>)
    ensures |b| == count
    ensures forall i :: 0 <= i < count ==> b[i] == Pattern(i, size)
  {
    seq(count, i requires 0 <= i < count => Pattern(i, size))
  }

  /** The sum of a byte sequence, added up front to back. */
  function SumBytes(s: seq<Byte>): (sum: int)
  {
    if s == [] then 0 else SumBytes(s[..|s| - 1]) + s[|s| - 1]
  }

  /** The sum of every byte of every block, block by block. */
  function SumBatch(b: seq<seq<Byte>>): (sum: int)
  {
    if b == [] then 0 else SumBatch(b[..|b| - 1]) + SumBytes(b[|b| - 1])
  }

  /** The contents of a sequence of arrays, as values. */
  ghost function View(blocks: seq<array<Byte>>): (v: seq<seq<Byte>>)
    reads blocks
    ensures |v| == |blocks|
    ensures forall k :: 0 <= k < |blocks| ==> v[k] == blocks[k][..]
  {
    seq(|blocks|, k requires 0 <= k < |blocks| reads blocks => blocks[k][..])
  }

  // ---------------------------------------------------------------------------
  // The closed form of the sum
  // ---------------------------------------------------------------------------

  /** (i + 0) % 256 + ... + (i + n - 1) % 256, by index. */
  function PatternSum(i: nat, n: nat): (sum: int)
  {
    if n == 0 then 0 else PatternSum(i, n - 1) + (i + n - 1) % 256
  }

  /** Adding up a block's bytes gives its pattern sum. */
  lemma {:induction false} SumBytesOfPattern(i: nat, n: nat)
    ensures SumBytes(Pattern(i, n)) == PatternSum(i, n)
  {
    if n > 0 {
      assert Pattern(i, n)[..n - 1] == Pattern(i, n - 1);
      SumBytesOfPattern(i, n - 1);
    }
  }

  /** Below 256 the pattern of block 0 is 0, 1, ..., n - 1, so it adds up to n(n - 1)/2. */
  lemma {:induction false} PatternSumFromZero(n: nat)
    requires n <= 256
    ensures 2 * PatternSum(0, n) == n * (n - 1)
  {
    if n > 0 {
      PatternSumFromZero(n - 1);
    }
  }

  /** Moving the start one index on drops the first byte and takes in the next one. */
  lemma {:induction false} PatternSumShift(i: nat, n: nat)
    ensures PatternSum(i + 1, n) + i % 256 == PatternSum(i, n) + (i + n) % 256
  {
    if n > 0 {
      PatternSumShift(i, n - 1);
    }
  }

  /** Any 256 consecutive bytes of the pattern are 0..255 in some rotation. */
  lemma {:induction false} PatternSumPeriod(i: nat)
    ensures PatternSum(i, 256) == PeriodSum
  {
    if i == 0 {
      PatternSumFromZero(256);
    } else {
      PatternSumPeriod(i - 1);
      PatternSumShift(i - 1, 256);
      assert (i - 1 + 256) % 256 == (i - 1) % 256;
    }
  }

  /** A run of a + b bytes is a run of a bytes followed by a run of b bytes. */
  lemma {:induction false} PatternSumSplit(i: nat, a: nat, b: nat)
    ensures PatternSum(i, a + b) == PatternSum(i, a) + PatternSum(i + a, b)
  {
    if b > 0 {
      PatternSumSplit(i, a, b - 1);
    }
  }

  /** A block of m full periods adds up to m * 32640, whatever its index. */
  lemma {:induction false} PatternSumPeriods(i: nat, m: nat)
    ensures PatternSum(i, 256 * m) == m * PeriodSum
  {
    if m > 0 {
      PatternSumPeriods(i, m - 1);
      PatternSumSplit(i, 256 * (m - 1), 256);
      PatternSumPeriod(i + 256 * (m - 1));
    }
  }

  /** Every block whose size is a multiple of 256 adds up to (size / 256) * 32640. */
  lemma BlockSum(i: nat, size: nat)
    requires size % 256 == 0
    ensures SumBytes(Pattern(i, size)) == (size / 256) * PeriodSum
  {
    SumBytesOfPattern(i, size);
    PatternSumPeriods(i, size / 256);
  }

  /** The sum over the batch depends only on the count and the size: count * (size / 256) * 32640. */
  lemma {:induction false} BatchSum(count: nat, size: nat)
    requires size % 256 == 0
    ensures SumBatch(Batch(count, size)) == count * (size / 256) * PeriodSum
  {
    if count > 0 {
      var b, m := Batch(count, size), size / 256;
      assert b[..count - 1] == Batch(count - 1, size);
      BatchSum(count - 1, size);
      BlockSum(count - 1, size);
      assert SumBatch(b) == SumBatch(Batch(count - 1, size)) + SumBytes(Pattern(count - 1, size));
      assert SumBatch(b) == (count - 1) * m * PeriodSum + m * PeriodSum;
      assert (count - 1) * m * PeriodSum + m * PeriodSum == count * m * PeriodSum;
    }
  }

  // ---------------------------------------------------------------------------
  // The handler's two loops
  // ---------------------------------------------------------------------------

  /**
   * Allocates `count` fresh blocks of `size` bytes, appending each to `blocks`
   * after writing byte j of block i as (i + j) % 256.
   */
  method FillBlocks(count: nat, size: nat) returns (blocks: seq<array<Byte>>)
    ensures |blocks| == count
    ensures forall i :: 0 <= i < count ==> fresh(blocks[i]) && blocks[i].Length == size
    ensures forall i, i' :: 0 <= i < i' < count ==> blocks[i] != blocks[i']
    ensures View(blocks) == Batch(count, size)
  {
    blocks := [];
    var i := 0;
    while i < count
      invariant 0 <= i <= count
      invariant |blocks| == i
      invariant forall k :: 0 <= k < i ==> fresh(blocks[k]) && blocks[k].Length == size
      invariant forall k, k' :: 0 <= k < k' < i ==> blocks[k] != blocks[k']
      invariant forall k :: 0 <= k < i ==> blocks[k][..] == Pattern(k, size)
    {
      var block := new Byte[size];
      var j := 0;
      while j < size
        modifies block
        invariant 0 <= j <= size
        invariant forall t :: 0 <= t < j ==> block[t] == (i + t) % 256
      {
        block[j] := (i + j) % 256;
        j := j + 1;
      }
      assert block[..] == Pattern(i, size);
      blocks := blocks + [block];
      i := i + 1;
    }
  }

  /** Adds up every byte of every block, in block order and then byte order. */
  method Checksum(blocks: seq<array<Byte>>) returns (sum: int)
    ensures sum == SumBatch(View(blocks))
  {
    sum := 0;
    var k := 0;
    while k < |blocks|
      invariant 0 <= k <= |blocks|
      invariant sum == SumBatch(View(blocks[..k]))
    {
      var block := blocks[k];
      var j := 0;
      while j < block.Length
        invariant 0 <= j <= block.Length
        invariant sum == SumBatch(View(blocks[..k])) + SumBytes(block[..j])
      {
        assert block[..j + 1][..j] == block[..j];
        sum := sum + block[j];
        j := j + 1;
      }
      assert block[..j] == block[..];
      assert View(blocks[..k + 1])[..k] == View(blocks[..k]);
      k := k + 1;
    }
    assert blocks[..k] == blocks;
  }
}
