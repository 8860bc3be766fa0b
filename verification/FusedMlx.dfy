// Fused and single messages on an MLX worker: exactly when running several blocks in one message does
// what one message for each block does.
module FusedMlx {
  import opened Text
  import opened Transformer
  import opened BlockSpec
  import opened Blocks
  import opened Executor
  import opened Relay

  /** A run of decodes on one worker: the keys of blocks it loaded, no two of which share a layer. */
  predicate Loaded(spec: NodeSpec, n: nat, keys: seq<string>) {
    && (forall i | 0 <= i < |keys| :: LoadedAt(spec, n, keys[i]))
    && (forall i, j | 0 <= i < j < |keys| :: Apart(ParseKey(keys[i]).value, ParseKey(keys[j]).value))
  }

  predicate LoadedAt(spec: NodeSpec, n: nat, key: string) {
    && ParseKey(key).Some?
    && var r := ParseKey(key).value;
       r.lo < r.hi <= n && forall g | r.lo <= g < r.hi :: Serves(spec, g)
  }

  function First(key: string): nat {
    match ParseKey(key) case Some(r) => r.lo case None => 0
  }

  function Decodes(keys: seq<string>): (steps: seq<Op>)
    ensures |steps| == |keys|
  {
    seq(|keys|, i requires 0 <= i < |keys| => DecodeOp(keys[i]))
  }

  /** The first layer of every block is at the position sent. */
  predicate Seated(layers: Cache, keys: seq<string>, start: nat) {
    forall i | 0 <= i < |keys| :: First(keys[i]) < |layers| && |layers[First(keys[i])]| == start
  }

  /** The messages one by one, from given caches and an activation. */
  function Singles(m: Model, spec: NodeSpec, layers: Cache, hs: seq<Hidden>, keys: seq<string>, cp: seq<nat>): Handled {
    OneByOne(m, spec, Some(MlxJob(layers)), Some(hs), Decodes(keys), Tensors(None, None, Some(cp)))
  }

  /** The steps of one message, once it has been checked. */
  function Fused(m: Model, spec: NodeSpec, layers: Cache, hs: seq<Hidden>, keys: seq<string>, t: Tensors): Outcome {
    RunSteps(m, spec, true, MlxJob(layers), Some(hs), Decodes(keys), t)
  }

  /** The caches after the check of a message whose first decode is of the given block. */
  function Checked(m: Model, layers: Cache, key: string, cp: seq<nat>): (at: Cache)
    requires |layers| == m.numLayers && First(key) < |layers| && cp != []
    ensures |at| == |layers|
  {
    if |layers[First(key)]| == cp[0] then layers else seq(m.numLayers, _ => [])
  }

  /** One block: its layers advance, the others stay, and there is an activation of the same length. */
  lemma {:induction false} SlabRuns(m: Model, spec: NodeSpec, lo: nat, hi: nat, layers: Cache, hs: seq<Hidden>)
    requires lo <= hi <= |layers| && forall g | lo <= g < hi :: Serves(spec, g)
    ensures var r := MlxLayers(m, spec, lo, hi, layers, hs);
      && r.1.Some? && |r.1.value| == |hs| && |r.0| == |layers|
      && forall g | 0 <= g < |layers| ::
           |r.0[g]| == |layers[g]| + (if lo <= g < hi then |hs| else 0) && (!(lo <= g < hi) ==> r.0[g] == layers[g])
    decreases hi
  {
    hide Serves;
    if lo < hi {
      SlabRuns(m, spec, lo, hi - 1, layers, hs);
    }
  }

  lemma BlockRuns(m: Model, spec: NodeSpec, layers: Cache, hs: seq<Hidden>, key: string)
    requires LoadedAt(spec, |layers|, key)
    ensures var s := MlxDecode(m, spec, layers, key, Some(hs));
      var r := ParseKey(key).value;
      && s.out.Some? && |s.out.value| == |hs| && s.job.MlxJob? && |s.job.layers| == |layers|
      && forall g | 0 <= g < |layers| ::
           |s.job.layers[g]| == |layers[g]| + (if r.lo <= g < r.hi then |hs| else 0)
           && (!(r.lo <= g < r.hi) ==> s.job.layers[g] == layers[g])
  {
    hide ParseKey, MlxLayers, Serves;
    var r := ParseKey(key).value;
    SlabRuns(m, spec, r.lo, r.hi, layers, hs);
  }

  lemma KeyFirst(key: string)
    requires ParseKey(key).Some?
    ensures ParseInt(Text.Split(key, '-')[0]) == Some(First(key))
  {
  }

  /** A single decode message: the check first, then the block. */
  lemma SingleMessage(m: Model, spec: NodeSpec, layers: Cache, hs: seq<Hidden>, key: string, cp: seq<nat>)
    requires spec.mlx && |layers| == m.numLayers && cp != [] && LoadedAt(spec, |layers|, key)
    ensures var at := if |layers[First(key)]| == cp[0] then layers else seq(m.numLayers, _ => []);
      var s := MlxDecode(m, spec, at, key, Some(hs));
      s.out.Some? && Exec(m, spec, Some(MlxJob(layers)), Single(DecodeOp(key)), Tensors(None, Some(hs), Some(cp)))
                       == Handled(Some(s.job), Activation(s.out.value))
  {
    hide ParseKey, MlxDecode, LoadedAt;
    FirstIsInside(spec, |layers|, key);
    KeyFirst(key);
    var steps, t := [DecodeOp(key)], Tensors(None, Some(hs), Some(cp));
    assert FirstDecode(steps) == Some(key);
    var at := if |layers[First(key)]| == cp[0] then layers else seq(m.numLayers, _ => []);
    assert MlxAlign(m, layers, steps, Some(cp)) == Some(at);
    BlockRuns(m, spec, at, hs, key);
    RunDecode(m, spec, true, MlxJob(at), None, key, steps, t);
    var s := MlxDecode(m, spec, at, key, Some(hs));
    assert steps[1..] == [];
    assert RunSteps(m, spec, true, s.job, s.out, [], t) == Outcome(s.job, Activation(s.out.value));
  }

  lemma FirstIsInside(spec: NodeSpec, n: nat, key: string)
    requires LoadedAt(spec, n, key)
    ensures ParseKey(key).Some? && First(key) == ParseKey(key).value.lo && First(key) < ParseKey(key).value.hi <= n
  {
    hide ParseKey, Serves;
  }

  lemma SinglesStep(m: Model, spec: NodeSpec, layers: Cache, hs: seq<Hidden>, keys: seq<string>, cp: seq<nat>)
    requires spec.mlx && |layers| == m.numLayers && cp != [] && keys != [] && LoadedAt(spec, |layers|, keys[0])
    ensures var at := if |layers[First(keys[0])]| == cp[0] then layers else seq(m.numLayers, _ => []);
      var s := MlxDecode(m, spec, at, keys[0], Some(hs));
      s.out.Some? && s.job.MlxJob?
      && Singles(m, spec, layers, hs, keys, cp) == Singles(m, spec, s.job.layers, s.out.value, keys[1..], cp)
  {
    hide ParseKey, MlxDecode, LoadedAt, Exec;
    FirstIsInside(spec, |layers|, keys[0]);
    SingleMessage(m, spec, layers, hs, keys[0], cp);
    assert Decodes(keys)[0] == DecodeOp(keys[0]) && Decodes(keys)[1..] == Decodes(keys[1..]);
    var at := if |layers[First(keys[0])]| == cp[0] then layers else seq(m.numLayers, _ => []);
    BlockRuns(m, spec, at, hs, keys[0]);
  }

  lemma FusedStep(m: Model, spec: NodeSpec, layers: Cache, hs: seq<Hidden>, keys: seq<string>, t: Tensors)
    requires |layers| == m.numLayers && keys != [] && LoadedAt(spec, |layers|, keys[0])
    ensures var s := MlxDecode(m, spec, layers, keys[0], Some(hs));
      s.out.Some? && s.job.MlxJob?
      && Fused(m, spec, layers, hs, keys, t) == Fused(m, spec, s.job.layers, s.out.value, keys[1..], t)
  {
    hide ParseKey, MlxDecode, LoadedAt;
    BlockRuns(m, spec, layers, hs, keys[0]);
    assert Decodes(keys)[0] == DecodeOp(keys[0]) && Decodes(keys)[1..] == Decodes(keys[1..]);
    RunDecode(m, spec, true, MlxJob(layers), Some(hs), keys[0], Decodes(keys), t);
  }

  predicate Agree(single: Handled, fused: Outcome) {
    single == Handled(Some(fused.job), fused.reply)
  }

  lemma LoadedRest(spec: NodeSpec, n: nat, keys: seq<string>)
    requires Loaded(spec, n, keys) && keys != []
    ensures LoadedAt(spec, n, keys[0]) && Loaded(spec, n, keys[1..])
    ensures forall k | k in keys[1..] :: LoadedAt(spec, n, k) && Apart(ParseKey(keys[0]).value, ParseKey(k).value)
  {
    hide ParseKey, LoadedAt;
    assert forall i | 0 <= i < |keys| - 1 :: keys[1..][i] == keys[i + 1];
  }

  /** The other blocks sit where they sat before one block ran. */
  lemma SeatedStays(m: Model, spec: NodeSpec, layers: Cache, hs: seq<Hidden>, keys: seq<string>, start: nat)
    requires Loaded(spec, |layers|, keys) && keys != []
    ensures var s := MlxDecode(m, spec, layers, keys[0], Some(hs));
      s.job.MlxJob? && (Seated(s.job.layers, keys[1..], start) <==> Seated(layers, keys[1..], start))
  {
    hide ParseKey, MlxDecode, LoadedAt, Loaded;
    LoadedRest(spec, |layers|, keys);
    BlockRuns(m, spec, layers, hs, keys[0]);
    var after := MlxDecode(m, spec, layers, keys[0], Some(hs)).job.layers;
    forall k | k in keys[1..]
      ensures First(k) < |layers| && after[First(k)] == layers[First(k)]
    {
      FirstIsInside(spec, |layers|, k);
      FirstIsInside(spec, |layers|, keys[0]);
    }
    hide First;
    assert forall i | 0 <= i < |keys[1..]| :: keys[1..][i] in keys[1..];
  }

  /** Seated blocks: every check passes, and both ways do the same. */
  lemma {:induction false} SeatedAgree(m: Model, spec: NodeSpec, layers: Cache, hs: seq<Hidden>, keys: seq<string>,
                                       cp: seq<nat>, t: Tensors)
    requires spec.mlx && |layers| == m.numLayers && cp != [] && Loaded(spec, |layers|, keys)
    requires Seated(layers, keys, cp[0])
    ensures Agree(Singles(m, spec, layers, hs, keys, cp), Fused(m, spec, layers, hs, keys, t))
    decreases |keys|
  {
    hide ParseKey, MlxDecode, LoadedAt, Loaded;
    if keys != [] {
      hide Singles, Fused;
      LoadedRest(spec, |layers|, keys);
      SinglesStep(m, spec, layers, hs, keys, cp);
      FusedStep(m, spec, layers, hs, keys, t);
      BlockRuns(m, spec, layers, hs, keys[0]);
      SeatedStays(m, spec, layers, hs, keys, cp[0]);
      assert Seated(layers, keys[1..], cp[0]) by {
        assert forall i | 0 <= i < |keys| - 1 :: keys[1..][i] == keys[i + 1];
      }
      var s := MlxDecode(m, spec, layers, keys[0], Some(hs));
      SeatedAgree(m, spec, s.job.layers, s.out.value, keys[1..], cp, t);
    }
  }

  predicate Misses(spec: NodeSpec, n: nat, keys: seq<string>, g: nat) {
    forall k | k in keys :: LoadedAt(spec, n, k) && !(ParseKey(k).value.lo <= g < ParseKey(k).value.hi)
  }

  lemma MissesRest(spec: NodeSpec, n: nat, keys: seq<string>, g: nat)
    requires Misses(spec, n, keys, g) && keys != []
    ensures keys[0] in keys && Misses(spec, n, keys[1..], g)
  {
    hide LoadedAt, ParseKey;
  }

  /** Fused, a layer outside the blocks keeps its entries; one by one, an empty one stays empty. */
  lemma {:induction false} OutsideStays(m: Model, spec: NodeSpec, layers: Cache, hs: seq<Hidden>, keys: seq<string>,
                                        cp: seq<nat>, t: Tensors, g: nat)
    requires spec.mlx && |layers| == m.numLayers && g < |layers| && cp != [] && Misses(spec, |layers|, keys, g)
    ensures var f := Fused(m, spec, layers, hs, keys, t).job;
      f.MlxJob? && |f.layers| == |layers| && f.layers[g] == layers[g]
    ensures var p := Singles(m, spec, layers, hs, keys, cp).part;
      p.Some? && p.value.MlxJob? && |p.value.layers| == |layers| && (layers[g] == [] ==> p.value.layers[g] == [])
    decreases |keys|
  {
    hide ParseKey, MlxDecode, LoadedAt, Misses;
    if keys != [] {
      hide Singles, Fused;
      MissesRest(spec, |layers|, keys, g);
      MissesFirst(spec, |layers|, keys, g);
      FirstIsInside(spec, |layers|, keys[0]);
      FusedStep(m, spec, layers, hs, keys, t);
      BlockRuns(m, spec, layers, hs, keys[0]);
      var f := MlxDecode(m, spec, layers, keys[0], Some(hs));
      OutsideStays(m, spec, f.job.layers, f.out.value, keys[1..], cp, t, g);
      SinglesStep(m, spec, layers, hs, keys, cp);
      var at := if |layers[First(keys[0])]| == cp[0] then layers else seq(m.numLayers, _ => []);
      BlockRuns(m, spec, at, hs, keys[0]);
      var s := MlxDecode(m, spec, at, keys[0], Some(hs));
      OutsideStays(m, spec, s.job.layers, s.out.value, keys[1..], cp, t, g);
    }
  }

  lemma MissesFirst(spec: NodeSpec, n: nat, keys: seq<string>, g: nat)
    requires Misses(spec, n, keys, g) && keys != []
    ensures LoadedAt(spec, n, keys[0]) && !(ParseKey(keys[0]).value.lo <= g < ParseKey(keys[0]).value.hi)
  {
    hide LoadedAt, ParseKey;
    assert keys[0] in keys;
  }

  /** Once a layer holds something, a later block that is not seated makes the single messages start over. */
  lemma {:induction false} UnseatedDiffer(m: Model, spec: NodeSpec, layers: Cache, hs: seq<Hidden>, keys: seq<string>,
                                          cp: seq<nat>, t: Tensors, g: nat)
    requires spec.mlx && |layers| == m.numLayers && cp != [] && Loaded(spec, |layers|, keys)
    requires g < |layers| && layers[g] != [] && Misses(spec, |layers|, keys, g)
    requires !Seated(layers, keys, cp[0])
    ensures !Agree(Singles(m, spec, layers, hs, keys, cp), Fused(m, spec, layers, hs, keys, t))
    decreases |keys|
  {
    hide ParseKey, MlxDecode, LoadedAt, Loaded, Misses, Singles, Fused;
    LoadedRest(spec, |layers|, keys);
    MissesFirst(spec, |layers|, keys, g);
    MissesRest(spec, |layers|, keys, g);
    FirstIsInside(spec, |layers|, keys[0]);
    SinglesStep(m, spec, layers, hs, keys, cp);
    FusedStep(m, spec, layers, hs, keys, t);
    BlockRuns(m, spec, layers, hs, keys[0]);
    var f := MlxDecode(m, spec, layers, keys[0], Some(hs));
    if |layers[First(keys[0])]| == cp[0] {
      SeatedStays(m, spec, layers, hs, keys, cp[0]);
      NotSeatedRest(layers, keys, cp[0]);
      UnseatedDiffer(m, spec, f.job.layers, f.out.value, keys[1..], cp, t, g);
    } else {
      var empty: Cache := seq(m.numLayers, _ => []);
      BlockRuns(m, spec, empty, hs, keys[0]);
      var s := MlxDecode(m, spec, empty, keys[0], Some(hs));
      assert s.job.layers[g] == empty[g] == [];
      OutsideStays(m, spec, s.job.layers, s.out.value, keys[1..], cp, t, g);
      OutsideStays(m, spec, f.job.layers, f.out.value, keys[1..], cp, t, g);
    }
  }

  lemma NotSeatedRest(layers: Cache, keys: seq<string>, start: nat)
    requires keys != [] && First(keys[0]) < |layers| && |layers[First(keys[0])]| == start && !Seated(layers, keys, start)
    ensures !Seated(layers, keys[1..], start)
  {
    hide First;
    var i :| 0 <= i < |keys| && !(First(keys[i]) < |layers| && |layers[First(keys[i])]| == start);
    assert keys[1..][i - 1] == keys[i];
  }

  lemma ChainIsFused(m: Model, spec: NodeSpec, layers: Cache, hs: seq<Hidden>, keys: seq<string>, cp: seq<nat>)
    requires spec.mlx && |layers| == m.numLayers && cp != [] && keys != [] && LoadedAt(spec, |layers|, keys[0])
    ensures First(keys[0]) < |layers|
    ensures var t := Tensors(None, Some(hs), Some(cp));
      Agree(Exec(m, spec, Some(MlxJob(layers)), Request.Chain(Decodes(keys)), t),
            Fused(m, spec, Checked(m, layers, keys[0], cp), hs, keys, t))
  {
    hide ParseKey, MlxDecode, LoadedAt;
    FirstIsInside(spec, |layers|, keys[0]);
    KeyFirst(keys[0]);
    var t, at := Tensors(None, Some(hs), Some(cp)), Checked(m, layers, keys[0], cp);
    assert Decodes(keys)[0] == DecodeOp(keys[0]);
    assert MlxAlign(m, layers, Decodes(keys), Some(cp)) == Some(at);
    RunDecode(m, spec, true, MlxJob(at), None, keys[0], Decodes(keys), t);
    RunDecode(m, spec, true, MlxJob(at), Some(hs), keys[0], Decodes(keys), t);
  }

  /** The exact rule. A message that runs several loaded blocks on a non-empty activation does what one
      message for each of them does, reply and caches, if and only if after the one check of the fused
      message the first layer of every later block is at the position sent. */
  lemma FusedIsOneByOneIff(m: Model, spec: NodeSpec, layers: Cache, hs: seq<Hidden>, keys: seq<string>, cp: seq<nat>)
    requires spec.mlx && |layers| == m.numLayers && hs != [] && cp != [] && keys != [] && Loaded(spec, |layers|, keys)
    ensures First(keys[0]) < |layers|
    ensures var fused := Exec(m, spec, Some(MlxJob(layers)), Request.Chain(Decodes(keys)), Tensors(None, Some(hs), Some(cp)));
      Singles(m, spec, layers, hs, keys, cp) == fused <==> Seated(Checked(m, layers, keys[0], cp), keys[1..], cp[0])
  {
    hide ParseKey, MlxDecode, LoadedAt, Loaded, Singles, Fused, Exec, Seated;
    LoadedRest(spec, |layers|, keys);
    FirstIsInside(spec, |layers|, keys[0]);
    ChainIsFused(m, spec, layers, hs, keys, cp);
    var t, at := Tensors(None, Some(hs), Some(cp)), Checked(m, layers, keys[0], cp);
    SinglesStep(m, spec, layers, hs, keys, cp);
    FusedStep(m, spec, at, hs, keys, t);
    BlockRuns(m, spec, at, hs, keys[0]);
    SeatedStays(m, spec, at, hs, keys, cp[0]);
    var s := MlxDecode(m, spec, at, keys[0], Some(hs));
    if Seated(at, keys[1..], cp[0]) {
      SeatedAgree(m, spec, s.job.layers, s.out.value, keys[1..], cp, t);
    } else {
      assert |s.job.layers[First(keys[0])]| > 0;
      OthersMiss(spec, |layers|, keys);
      UnseatedDiffer(m, spec, s.job.layers, s.out.value, keys[1..], cp, t, First(keys[0]));
    }
  }

  lemma OthersMiss(spec: NodeSpec, n: nat, keys: seq<string>)
    requires Loaded(spec, n, keys) && keys != []
    ensures Misses(spec, n, keys[1..], First(keys[0]))
  {
    hide ParseKey, LoadedAt;
    LoadedRest(spec, n, keys);
    FirstIsInside(spec, n, keys[0]);
  }
}
