/** Power-of-two sizes and hash slices shared by the joins and the aggregate. */
module Sizes {
  function Pow2(n: nat): (p: nat)
    ensures p > 0
  {
    if n == 0 then 1 else 2 * Pow2(n - 1)
  }

  lemma {:induction false} Pow2Sum(a: nat, b: nat)
    ensures Pow2(a + b) == Pow2(a) * Pow2(b)
  {
    if a > 0 {
      Pow2Sum(a - 1, b);
      assert Pow2(a + b) == 2 * (Pow2(a - 1) * Pow2(b));
    }
  }

  ghost predicate IsPow2(x: nat) {
    exists n: nat :: x == Pow2(n)
  }

  /** Double `x` while it is below both the need and the limit. */
  function DoubleUntil(x: nat, need: nat, limit: nat): (r: nat)
    requires x > 0
    ensures r >= x
    ensures r >= need || r >= limit
    ensures r > x ==> r < 2 * need && r < 2 * limit
    decreases limit - x
  {
    if x < need && x < limit then DoubleUntil(2 * x, need, limit) else x
  }

  lemma DoublePow2(x: nat)
    requires IsPow2(x)
    ensures IsPow2(2 * x)
  {
    var n: nat :| x == Pow2(n);
    assert 2 * x == Pow2(n + 1);
  }

  lemma {:induction false} DoubleUntilPow2(x: nat, need: nat, limit: nat)
    requires x > 0 && IsPow2(x)
    ensures IsPow2(DoubleUntil(x, need, limit))
    decreases limit - x
  {
    if x < need && x < limit {
      DoublePow2(x);
      DoubleUntilPow2(2 * x, need, limit);
    }
  }

  const MAX_BUCKETS: nat := 0x8000_0000

  /** choose_bucket_count: at least 1024, at least twice the rows, at most 2^31. */
  function BucketCount(rows: nat): nat {
    DoubleUntil(1024, 2 * rows, MAX_BUCKETS)
  }

  /** next_partition_count: a power of two from 2 to 1024. */
  function PartitionCount(required: nat): nat {
    DoubleUntil(2, required, 1024)
  }

  /** `(hash >> shift) & (n - 1)` for a power of two `n`. */
  function Slice(hash: nat, shift: nat, n: nat): (p: nat)
    requires n > 0
    ensures p < n
  {
    (hash / Pow2(shift)) % n
  }
}
