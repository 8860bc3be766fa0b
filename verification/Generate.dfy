// In-process generation: the whole model with one cache, and the split pipeline with one cache per
// block. Both produce exactly the cache-free greedy tokens.
module Generate {
  import opened Text
  import opened Transformer
  import opened BlockSpec
  import opened Blocks

  /** What one decoding round feeds: everything but cur has been consumed. */
  predicate Feeding(ids: seq<Token>, generated: seq<Token>, cur: seq<Token>, cp: seq<nat>) {
    && cur != [] && |cur| == |cp| <= |ids| + |generated|
    && cur == (ids + generated)[|ids| + |generated| - |cur|..]
    && Contiguous(cp, |ids| + |generated| - |cur|)
  }

  lemma WholeStep(m: Model, all: seq<Token>, n: nat, cache: Cache, cp: seq<nat>)
    requires n < |all| && |cp| == |all| - n && Contiguous(cp, n)
    requires Holds(m, 0, m.numLayers, cache, Embed(m, all[..n]))
    ensures var r := RunSlab(m, 0, m.numLayers, cache, Embed(m, all[n..]), cp);
      && m.head(r.out[|r.out| - 1]) == NextToken(m, all)
      && Holds(m, 0, m.numLayers, r.cache, Embed(m, all))
  {
    hide Holds, Contiguous, Pass, RunSlab, NextToken;
    var xs := Embed(m, all);
    PassNothing(m, xs);
    PassNothing(m, xs[..n]);
    assert all == all[..n] + all[n..];
    EmbedConcat(m, all[..n], all[n..]);
    assert xs[..n] == Embed(m, all[..n]) && xs[n..] == Embed(m, all[n..]);
    SlabAdvances(m, 0, m.numLayers, cache, xs, n, cp);
    LastGivesNextToken(m, all, n, Pass(m, 0, m.numLayers, xs)[n..]);
  }

  /** Greedy decoding with the whole model and one growing cache. */
  method ReferenceGenerate(m: Model, ids: seq<Token>, maxNew: int) returns (generated: seq<Token>)
    requires ids != []
    ensures generated == Greedy(m, ids, Clip(maxNew))
  {
    hide Holds, RunSlab, NextToken;
    var cache: Cache := [];
    var seqLen := |ids|;
    var cur := ids;
    var cp: seq<nat> := Positions(0, seqLen);
    generated := [];
    NothingFed(m, Range(0, m.numLayers));
    for step := 0 to Clip(maxNew)
      invariant |generated| == step && generated == Greedy(m, ids, step)
      invariant Feeding(ids, generated, cur, cp)
      invariant Holds(m, 0, m.numLayers, cache, Embed(m, (ids + generated)[..seqLen + step - |cur|]))
    {
      ghost var all, n := ids + generated, seqLen + step - |cur|;
      WholeStep(m, all, n, cache, cp);
      var r := RunSlab(m, 0, m.numLayers, cache, Embed(m, cur), cp);
      var nextId := m.head(r.out[|r.out| - 1]);
      generated := generated + [nextId];
      cur := [nextId];
      cache := r.cache;
      cp := [seqLen + step];
      assert (ids + generated)[..seqLen + step] == all;
    }
  }

  /** Block k of the pipeline holds what the tokens produced below it. */
  ghost predicate BlockHolds(d: DecoderBlock, m: Model, ids: seq<Token>)
    reads d
  {
    Holds(m, d.slab.lo, d.slab.hi, d.cache, Pass(m, 0, d.slab.lo, Embed(m, ids)))
  }

  ghost predicate Pipeline(decoders: seq<DecoderBlock>, whole: WholeModel, boundaries: seq<nat>)
    reads whole, whole.layerIdx, decoders
    requires |boundaries| == |decoders| + 1
  {
    && (forall i | 0 <= i < |decoders| ::
          && decoders[i].whole == whole && decoders[i].Usable()
          && decoders[i].slab == Range(boundaries[i], boundaries[i + 1]))
    && (forall i, j | 0 <= i < j < |decoders| :: decoders[i] != decoders[j])
  }

  /** One block's turn in a round. */
  method RunOne(d: DecoderBlock, h: seq<Hidden>, cp: seq<nat>, ghost all: seq<Token>) returns (out: seq<Hidden>)
    requires d.Usable() && |cp| <= |all| && Contiguous(cp, |all| - |cp|)
    requires h == Pass(d.whole.params, 0, d.slab.lo, Embed(d.whole.params, all))[|all| - |cp|..]
    requires BlockHolds(d, d.whole.params, all[..|all| - |cp|])
    modifies d`cache
    ensures d.Usable() && BlockHolds(d, d.whole.params, all)
    ensures out == Pass(d.whole.params, 0, d.slab.hi, Embed(d.whole.params, all))[|all| - |cp|..]
  {
    hide Holds, Pass, RunSlab, Contiguous, RunTable, Uniform;
    ghost var m, n, xs := d.whole.params, |all| - |cp|, Embed(d.whole.params, all);
    assert all == all[..n] + all[n..];
    EmbedConcat(m, all[..n], all[n..]);
    SlabAdvances(m, d.slab.lo, d.slab.hi, d.cache, xs, n, cp);
    var passed := d.RunBlock(h, cp);
    out := passed.value;
  }

  /** One round through all blocks: h is the activation of the chunk that ends all. */
  method RunPipeline(whole: WholeModel, boundaries: seq<nat>, decoders: seq<DecoderBlock>,
                     cur: seq<Token>, cp: seq<nat>, ghost all: seq<Token>) returns (h: seq<Hidden>)
    requires whole.Valid() && IsSplit(boundaries, whole.params.numLayers)
    requires |boundaries| == |decoders| + 1 && Pipeline(decoders, whole, boundaries)
    requires |cur| == |cp| <= |all| && cur == all[|all| - |cur|..] && Contiguous(cp, |all| - |cur|)
    requires forall i | 0 <= i < |decoders| :: BlockHolds(decoders[i], whole.params, all[..|all| - |cur|])
    modifies set i | 0 <= i < |decoders| :: decoders[i]
    ensures Pipeline(decoders, whole, boundaries)
    ensures h == Pass(whole.params, 0, whole.params.numLayers, Embed(whole.params, all))[|all| - |cur|..]
    ensures forall i | 0 <= i < |decoders| :: BlockHolds(decoders[i], whole.params, all)
  {
    hide Holds, Pass, Contiguous, DecoderBlock.Usable;
    var m := whole.params;
    ghost var n := |all| - |cur|;
    ghost var xs := Embed(m, all);
    EmbedConcat(m, all[..n], all[n..]);
    assert all == all[..n] + all[n..];
    assert xs[..n] == Embed(m, all[..n]);
    h := Embed(m, cur);
    PassNothing(m, xs);
    for k := 0 to |decoders|
      invariant Pipeline(decoders, whole, boundaries)
      invariant h == Pass(m, 0, boundaries[k], xs)[n..]
      invariant forall i | 0 <= i < k :: BlockHolds(decoders[i], m, all)
      invariant forall i | k <= i < |decoders| :: BlockHolds(decoders[i], m, all[..n])
    {
      var d := decoders[k];
      assert d.whole == whole && d.Usable() && d.slab == Range(boundaries[k], boundaries[k + 1]);
      h := RunOne(d, h, cp, all);
    }
  }

  /** Greedy decoding through the split blocks reproduces the whole model's tokens. */
  method PipelineGenerate(whole: WholeModel, boundaries: seq<nat>, decoders: seq<DecoderBlock>,
                          ids: seq<Token>, maxNew: int) returns (generated: seq<Token>)
    requires whole.Valid() && IsSplit(boundaries, whole.params.numLayers)
    requires |boundaries| == |decoders| + 1 && FreshBlocks(decoders, whole, boundaries)
    requires ids != []
    modifies set i | 0 <= i < |decoders| :: decoders[i]
    ensures generated == Greedy(whole.params, ids, Clip(maxNew))
  {
    hide NextToken, Holds, Pass;
    var m := whole.params;
    var seqLen := |ids|;
    var cur := ids;
    var cp: seq<nat> := Positions(0, seqLen);
    generated := [];
    forall i | 0 <= i < |decoders|
      ensures BlockHolds(decoders[i], m, ids[..0])
    {
      NothingHeld(m, decoders[i].slab);
    }
    for step := 0 to Clip(maxNew)
      invariant |generated| == step && generated == Greedy(m, ids, step)
      invariant Feeding(ids, generated, cur, cp)
      invariant Pipeline(decoders, whole, boundaries)
      invariant forall i | 0 <= i < |decoders| ::
                  BlockHolds(decoders[i], m, (ids + generated)[..seqLen + step - |cur|])
    {
      ghost var all := ids + generated;
      var h := RunPipeline(whole, boundaries, decoders, cur, cp, all);
      LastGivesNextToken(m, all, |all| - |cur|, h);
      var nextId := m.head(h[|h| - 1]);
      generated := generated + [nextId];
      cur := [nextId];
      cp := [seqLen + step];
      assert (ids + generated)[..seqLen + step] == all;
    }
  }

  lemma NothingHeld(m: Model, s: Range)
    ensures Holds(m, s.lo, s.hi, [], Pass(m, 0, s.lo, Embed(m, [])))
  {
    assert |Pass(m, 0, s.lo, Embed(m, []))| == 0;
  }
}
