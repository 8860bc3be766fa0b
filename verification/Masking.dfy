// The additive causal mask of a decoder block, and what a query sees through it.
module Masking {
  import opened Transformer

  /** The cache entries a query at absolute position p attends to. */
  function Visible(keys: seq<KV>, p: nat): seq<KV> {
    if p < |keys| then keys[..p + 1] else keys
  }

  /** The entries whose additive mask is zero: the others get weight exp(min) = 0 in the softmax. */
  function Unmasked(keys: seq<KV>, row: seq<real>): seq<KV>
    requires |row| == |keys|
  {
    if keys == [] then []
    else
      var n := |keys| - 1;
      Unmasked(keys[..n], row[..n]) + (if row[n] == 0.0 then [keys[n]] else [])
  }

  /** A row that is zero exactly up to index p shows exactly the entries up to p. */
  lemma {:induction false} CausalRowShowsPrefix(keys: seq<KV>, row: seq<real>, p: nat)
    requires |row| == |keys|
    requires forall k | 0 <= k < |row| :: row[k] == 0.0 <==> k <= p
    ensures Unmasked(keys, row) == Visible(keys, p)
  {
    if keys != [] {
      var n := |keys| - 1;
      CausalRowShowsPrefix(keys[..n], row[..n], p);
      assert keys == keys[..n] + [keys[n]];
    }
  }

  /** A zeroed buffer, filled in place with min where the key index exceeds the query's position. */
  method BuildCausalMask(cachePosition: seq<nat>, kvLen: nat, min: real) returns (mask: array2<real>)
    ensures fresh(mask) && mask.Length0 == |cachePosition| && mask.Length1 == kvLen
    ensures forall i, k | 0 <= i < |cachePosition| && 0 <= k < kvLen ::
              mask[i, k] == if k <= cachePosition[i] then 0.0 else min
  {
    var qLen := |cachePosition|;
    mask := new real[qLen, kvLen]((i, k) => 0.0);
    for i := 0 to qLen
      invariant forall r, k | 0 <= r < i && 0 <= k < kvLen ::
                  mask[r, k] == if k <= cachePosition[r] then 0.0 else min
      invariant forall r, k | i <= r < qLen && 0 <= k < kvLen :: mask[r, k] == 0.0
    {
      for j := 0 to kvLen
        invariant forall r, k | 0 <= r < i && 0 <= k < kvLen ::
                    mask[r, k] == if k <= cachePosition[r] then 0.0 else min
        invariant forall k | 0 <= k < j :: mask[i, k] == if k <= cachePosition[i] then 0.0 else min
        invariant forall k | j <= k < kvLen :: mask[i, k] == 0.0
        invariant forall r, k | i < r < qLen && 0 <= k < kvLen :: mask[r, k] == 0.0
      {
        if j > cachePosition[i] {
          mask[i, j] := min;
        }
      }
    }
  }
}
