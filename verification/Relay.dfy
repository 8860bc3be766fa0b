// Why relaying a request hop by hop along a chain computes the whole model: what each worker must
// hold before and after every op of a decoding round, for torch and MLX workers alike.
module Relay {
  import opened Text
  import opened Transformer
  import opened BlockSpec
  import opened Blocks
  import opened Executor

  /** A decoder block and the worker chosen for it. */
  datatype Hop = Hop(key: string, id: string)

  datatype Route = Route(embed: string, decoders: seq<Hop>, head: string)

  /** Where the first i decoders end. */
  function End(decoders: seq<Hop>, i: nat): nat
    requires i <= |decoders|
  {
    if i == 0 then 0
    else match ParseKey(decoders[i - 1].key) case Some(r) => r.hi case None => 0
  }

  predicate TileAt(decoders: seq<Hop>, i: nat)
    requires i < |decoders|
  {
    ParseKey(decoders[i].key) == Some(Range(End(decoders, i), End(decoders, i + 1)))
    && End(decoders, i) < End(decoders, i + 1)
  }

  /** The decoder keys cut [0, numLayers) into consecutive non-empty blocks. */
  predicate Tiles(decoders: seq<Hop>, numLayers: nat) {
    && (forall i | 0 <= i < |decoders| :: TileAt(decoders, i))
    && End(decoders, |decoders|) == numLayers
  }

  lemma {:induction false} EndsIncrease(decoders: seq<Hop>, numLayers: nat, i: nat, j: nat)
    requires Tiles(decoders, numLayers) && i <= j <= |decoders|
    ensures End(decoders, i) <= End(decoders, j)
    decreases j
  {
    hide ParseKey, End;
    if i < j {
      assert TileAt(decoders, j - 1);
      EndsIncrease(decoders, numLayers, i, j - 1);
    }
  }

  datatype Placed = Placed(op: Op, id: string)

  /** The ops of one round in order: embed, every decoder block, head. */
  function Flat(r: Route): (ops: seq<Placed>)
    ensures |ops| == |r.decoders| + 2
    ensures ops[0] == Placed(EmbedOp, r.embed)
    ensures ops[|ops| - 1] == Placed(HeadOp, r.head)
    ensures forall i | 0 <= i < |r.decoders| :: ops[i + 1] == Placed(DecodeOp(r.decoders[i].key), r.decoders[i].id)
  {
    [Placed(EmbedOp, r.embed)]
    + seq(|r.decoders|, i requires 0 <= i < |r.decoders| => Placed(DecodeOp(r.decoders[i].key), r.decoders[i].id))
    + [Placed(HeadOp, r.head)]
  }

  predicate Provides(spec: NodeSpec, op: Op) {
    match op
    case EmbedOp => spec.embed
    case DecodeOp(key) => key in spec.prepared
    case HeadOp => spec.head
  }

  /** A worker's key "lo-hi" stands for the model's layers lo, ..., hi - 1, which on a torch worker were
      not renumbered by another block. */
  predicate Honest(spec: NodeSpec, numLayers: nat) {
    forall k | k in spec.prepared ::
      && ParseKey(k).Some? && spec.prepared[k] == Slab(numLayers, ParseKey(k).value)
      && (spec.mlx || Intact(spec.table, spec.prepared[k]))
  }

  predicate WellFormed(m: Model, spec: NodeSpec, job: JobCaches) {
    match job
    case TorchJob(_) => !spec.mlx
    case MlxJob(layers) => spec.mlx && |layers| == m.numLayers
  }

  /** The cache entries a job keeps for one block, by local layer. */
  function LocalCache(job: JobCaches, key: string, r: Range): Cache {
    match job
    case TorchJob(blocks) => TorchCache(blocks, key)
    case MlxJob(layers) => if r.lo <= r.hi <= |layers| then layers[r.lo..r.hi] else []
  }

  // ---- The MLX executor simulates the locally indexed one ----

  lemma UpdateInside(a: Cache, c: Cache, b: Cache, i: nat, added: seq<KV>)
    requires i < |c|
    ensures Update(a + c + b, |a| + i, added) == a + Update(c, i, added) + b
    ensures Entries(a + c + b, |a| + i) == Entries(c, i)
  {
  }

  lemma RunLayerInside(m: Model, g: nat, a: Cache, s: Run, b: Cache, i: nat, cp: seq<nat>)
    requires i < |s.cache| && |s.out| == |cp|
    ensures RunLayer(m, g, |a| + i, Run(a + s.cache + b, s.out), cp)
         == Run(a + RunLayer(m, g, i, s, cp).cache + b, RunLayer(m, g, i, s, cp).out)
  {
    UpdateInside(a, s.cache, b, i, Added(m, g, s.out, cp));
    UpdateInside(a, Update(s.cache, i, Added(m, g, s.out, cp)), b, i, []);
  }

  lemma {:induction false} RunSlabKeepsShape(m: Model, lo: nat, g: nat, c: Cache, hs: seq<Hidden>, cp: seq<nat>)
    requires lo <= g && |hs| == |cp| && g - lo <= |c|
    ensures var d := RunSlab(m, lo, g, c, hs, cp).cache;
      |d| == |c| && forall i | g - lo <= i < |c| :: d[i] == c[i]
    decreases g
  {
    if lo < g {
      RunSlabKeepsShape(m, lo, g - 1, c, hs, cp);
    }
  }

  /** One cache per model layer, advanced at each layer's own offset, does to layers lo, ..., g - 1
      what the block's own locally indexed cache does at the positions sent, provided the offsets of
      the slab are the next cache position; the layers outside the slab stay as they are. */
  lemma {:induction false} MlxSimulatesTorch(m: Model, spec: NodeSpec, lo: nat, g: nat, hi: nat,
                                             layers: Cache, hs: seq<Hidden>, n: nat)
    requires lo <= g <= hi <= |layers|
    requires forall i | lo <= i < hi :: |layers[i]| == n
    ensures var mlx := MlxLayers(m, spec, lo, g, layers, hs);
      var torch := RunSlab(m, lo, g, layers[lo..hi], hs, Positions(n, |hs|));
      mlx.1.Some? ==> mlx == (layers[..lo] + torch.cache + layers[hi..], Some(torch.out))
    decreases g
  {
    hide RunLayer;
    var cp := Positions(n, |hs|);
    if lo < g {
      MlxSimulatesTorch(m, spec, lo, g - 1, hi, layers, hs, n);
      var before := RunSlab(m, lo, g - 1, layers[lo..hi], hs, cp);
      RunSlabKeepsShape(m, lo, g - 1, layers[lo..hi], hs, cp);
      var mlx := MlxLayers(m, spec, lo, g - 1, layers, hs);
      if mlx.1.Some? {
        assert mlx.0[g - 1] == before.cache[g - 1 - lo] == layers[g - 1];
        RunLayerInside(m, g - 1, layers[..lo], before, layers[hi..], g - 1 - lo, cp);
      }
    } else {
      assert layers == layers[..lo] + layers[lo..hi] + layers[hi..];
    }
  }

  lemma {:induction false} MlxServesAll(m: Model, spec: NodeSpec, lo: nat, hi: nat, layers: Cache, hs: seq<Hidden>)
    requires lo <= hi <= |layers|
    ensures MlxLayers(m, spec, lo, hi, layers, hs).1.Some? <==> forall g | lo <= g < hi :: Serves(spec, g)
    decreases hi
  {
    hide RunLayer, Serves;
    if lo < hi {
      MlxServesAll(m, spec, lo, hi - 1, layers, hs);
    }
  }

  // ---- What the workers of a route hold ----

  predicate HoldsBlock(m: Model, job: JobCaches, key: string, r: Range, past: seq<Hidden>) {
    Holds(m, r.lo, r.hi, LocalCache(job, key, r), past)
  }

  lemma NothingHeldYet(m: Model, spec: NodeSpec, key: string, r: Range)
    requires r.lo <= r.hi <= m.numLayers
    ensures HoldsBlock(m, EmptyJob(m, spec), key, r, [])
  {
    FullCacheLengths(m, r.lo, r.hi, []);
    if spec.mlx {
      assert LocalCache(EmptyJob(m, spec), key, r) == FullCache(m, r.lo, r.hi, []);
    }
  }

  predicate Apart(a: Range, b: Range) {
    a.hi <= b.lo || b.hi <= a.lo
  }

  lemma TorchSlabAdvances(m: Model, table: seq<nat>, r: Range, c: Cache, xs: seq<Hidden>, n: nat, cp: seq<nat>)
    requires Intact(table, r) && r.lo < r.hi <= m.numLayers && n + |cp| == |xs| && Contiguous(cp, n)
    requires Holds(m, r.lo, r.hi, c, Pass(m, 0, r.lo, xs[..n]))
    ensures var p := RunTable(m, table, r, c, Pass(m, 0, r.lo, xs)[n..], cp);
      p.out == Some(Pass(m, 0, r.hi, xs)[n..]) && Holds(m, r.lo, r.hi, p.cache, Pass(m, 0, r.lo, xs))
  {
    hide Holds, Contiguous, Pass, RunSlab, RunTable, Intact, Uniform;
    SlabAdvances(m, r.lo, r.hi, c, xs, n, cp);
    HeldIsUniform(m, r.lo, r.hi, c, Pass(m, 0, r.lo, xs[..n]));
    IntactRunsItsSlab(m, table, r, c, Pass(m, 0, r.lo, xs)[n..], cp);
  }

  lemma TorchDecodeAdvances(m: Model, spec: NodeSpec, blocks: map<string, Cache>, key: string, r: Range,
                            xs: seq<Hidden>, n: nat, cp: seq<nat>)
    requires Honest(spec, m.numLayers) && !spec.mlx && ParseKey(key) == Some(r) && r.lo < r.hi <= m.numLayers
    requires n + |cp| == |xs| && Contiguous(cp, n)
    requires HoldsBlock(m, TorchJob(blocks), key, r, Pass(m, 0, r.lo, xs[..n]))
    ensures var s := TorchDecode(m, spec, blocks, key, Some(Pass(m, 0, r.lo, xs)[n..]), Some(cp));
      (key in spec.prepared <==> s.out.Some?) && (s.out.Some? ==>
        && s.out.value == Pass(m, 0, r.hi, xs)[n..]
        && s.job.TorchJob?
        && HoldsBlock(m, s.job, key, r, Pass(m, 0, r.lo, xs))
        && forall other | other != key :: TorchCache(s.job.blocks, other) == TorchCache(blocks, other))
  {
    hide Holds, Contiguous, Pass, RunTable, Intact, ParseKey;
    if key in spec.prepared {
      TorchSlabAdvances(m, spec.table, r, TorchCache(blocks, key), xs, n, cp);
    }
  }

  lemma Spliced(layers: Cache, r: Range, mid: Cache)
    requires r.lo <= r.hi <= |layers| && |mid| == r.hi - r.lo
    ensures var after := layers[..r.lo] + mid + layers[r.hi..];
      && |after| == |layers| && after[r.lo..r.hi] == mid
      && forall g | 0 <= g < |layers| && !(r.lo <= g < r.hi) :: after[g] == layers[g]
  {
  }

  lemma MlxSlabAdvances(m: Model, spec: NodeSpec, layers: Cache, r: Range, xs: seq<Hidden>, n: nat, cp: seq<nat>)
    requires r.lo < r.hi <= |layers| && n + |cp| == |xs| && Contiguous(cp, n)
    requires Holds(m, r.lo, r.hi, layers[r.lo..r.hi], Pass(m, 0, r.lo, xs[..n]))
    ensures var s := MlxLayers(m, spec, r.lo, r.hi, layers, Pass(m, 0, r.lo, xs)[n..]);
      s.1.Some? ==>
        && s.1.value == Pass(m, 0, r.hi, xs)[n..]
        && Holds(m, r.lo, r.hi, s.0[r.lo..r.hi], Pass(m, 0, r.lo, xs))
        && forall g | 0 <= g < |layers| && !(r.lo <= g < r.hi) :: s.0[g] == layers[g]
  {
    hide Holds, Pass, RunSlab, MlxLayers;
    var local := layers[r.lo..r.hi];
    var hs := Pass(m, 0, r.lo, xs)[n..];
    assert cp == Positions(n, |hs|);
    hide Contiguous, Positions;
    SlabAdvances(m, r.lo, r.hi, local, xs, n, cp);
    HeldLengths(m, r.lo, r.hi, local, Pass(m, 0, r.lo, xs[..n]));
    forall i | r.lo <= i < r.hi
      ensures |layers[i]| == n
    {
      assert local[i - r.lo] == layers[i];
    }
    MlxSimulatesTorch(m, spec, r.lo, r.hi, r.hi, layers, hs, n);
    RunSlabKeepsShape(m, r.lo, r.hi, local, hs, cp);
    Spliced(layers, r, RunSlab(m, r.lo, r.hi, local, hs, cp).cache);
  }

  lemma MlxDecodeAdvances(m: Model, spec: NodeSpec, layers: Cache, key: string, r: Range,
                          xs: seq<Hidden>, n: nat, cp: seq<nat>)
    requires |layers| == m.numLayers && ParseKey(key) == Some(r) && r.lo < r.hi <= m.numLayers
    requires n + |cp| == |xs| && Contiguous(cp, n)
    requires HoldsBlock(m, MlxJob(layers), key, r, Pass(m, 0, r.lo, xs[..n]))
    ensures var s := MlxDecode(m, spec, layers, key, Some(Pass(m, 0, r.lo, xs)[n..]));
      (s.out.Some? <==> forall g | r.lo <= g < r.hi :: Serves(spec, g)) && (s.out.Some? ==>
        && s.out.value == Pass(m, 0, r.hi, xs)[n..]
        && s.job.MlxJob? && |s.job.layers| == |layers|
        && HoldsBlock(m, s.job, key, r, Pass(m, 0, r.lo, xs))
        && forall g | 0 <= g < |layers| && !(r.lo <= g < r.hi) :: s.job.layers[g] == layers[g])
  {
    hide Holds, Pass, MlxLayers, Serves, Contiguous, ParseKey;
    MlxServesAll(m, spec, r.lo, r.hi, layers, Pass(m, 0, r.lo, xs)[n..]);
    MlxSlabAdvances(m, spec, layers, r, xs, n, cp);
  }

  lemma HeldLengths(m: Model, lo: nat, hi: nat, c: Cache, past: seq<Hidden>)
    requires lo < hi && |c| == hi - lo && Holds(m, lo, hi, c, past)
    ensures forall i | 0 <= i < |c| :: |c[i]| == |past|
  {
    FullCacheLengths(m, lo, hi, past);
  }

  lemma PreparedIsServed(m: Model, spec: NodeSpec, key: string, r: Range)
    requires Honest(spec, m.numLayers) && key in spec.prepared && ParseKey(key) == Some(r)
    requires r.lo < r.hi <= m.numLayers
    ensures forall g | r.lo <= g < r.hi :: Serves(spec, g)
  {
    hide ParseKey;
  }

  /** A decode step advances its own block from what the first n positions left to the whole
      sequence, answers with the tail above the block, and leaves every other block alone. */
  lemma DecodeAdvances(m: Model, spec: NodeSpec, job: JobCaches, key: string, r: Range,
                       xs: seq<Hidden>, n: nat, cp: seq<nat>)
    requires Honest(spec, m.numLayers) && WellFormed(m, spec, job)
    requires ParseKey(key) == Some(r) && r.lo < r.hi <= m.numLayers
    requires n + |cp| == |xs| && Contiguous(cp, n)
    requires HoldsBlock(m, job, key, r, Pass(m, 0, r.lo, xs[..n]))
    ensures var s := Decode(m, spec, job, key, Some(Pass(m, 0, r.lo, xs)[n..]), Some(cp));
      (key in spec.prepared ==> s.out.Some?) && (s.out.Some? ==>
        && s.out.value == Pass(m, 0, r.hi, xs)[n..]
        && WellFormed(m, spec, s.job)
        && HoldsBlock(m, s.job, key, r, Pass(m, 0, r.lo, xs))
        && forall key2, r2: Range | key2 != key && Apart(r, r2) ::
             LocalCache(s.job, key2, r2) == LocalCache(job, key2, r2))
  {
    hide Holds, Contiguous, Pass, TorchDecode, MlxDecode, TorchCache, Honest, Serves;
    match job
    case TorchJob(blocks) =>
      TorchDecodeAdvances(m, spec, blocks, key, r, xs, n, cp);
    case MlxJob(layers) =>
      if key in spec.prepared {
        PreparedIsServed(m, spec, key, r);
      }
      MlxDecodeAdvances(m, spec, layers, key, r, xs, n, cp);
  }

  // ---- One decoding round along a route ----

  /** The tokens all, of which the first n were fed in earlier rounds, along a route. */
  datatype Round = Round(m: Model, route: Route, all: seq<Token>, n: nat) {
    predicate Valid() {
      Tiles(route.decoders, m.numLayers) && n < |all|
    }

    function Inputs(): (xs: seq<Hidden>)
      ensures |xs| == |all|
    {
      Embed(m, all)
    }

    function Ops(): nat {
      |route.decoders| + 2
    }

    function Block(i: nat): Range
      requires i < |route.decoders|
    {
      Range(End(route.decoders, i), End(route.decoders, i + 1))
    }

    /** What decoder i has consumed once k ops of this round ran; it is op i + 1. */
    function Past(i: nat, k: nat): seq<Hidden>
      requires i < |route.decoders| && n <= |all|
    {
      Pass(m, 0, Block(i).lo, if i + 1 < k then Inputs() else Inputs()[..n])
    }

    /** The activation after k ops: the chunk's tail of the whole pass so far. */
    function Act(k: nat): seq<Hidden>
      requires 1 <= k < Ops() && n <= |all|
    {
      Pass(m, 0, End(route.decoders, k - 1), Inputs())[n..]
    }

    /** A worker's caches for this job are right for all blocks the route gives it. */
    predicate Ready(id: string, job: JobCaches, spec: NodeSpec, k: nat)
      requires n <= |all|
    {
      && WellFormed(m, spec, job)
      && forall i | 0 <= i < |route.decoders| && route.decoders[i].id == id ::
           HoldsBlock(m, job, route.decoders[i].key, Block(i), Past(i, k))
    }

    predicate Answers(reply: Reply, k: nat)
      requires Valid() && 1 <= k <= Ops()
    {
      if k == Ops() then reply == Picked(NextToken(m, all)) else reply == Activation(Act(k))
    }

    /** The ops k, ..., k2 - 1 of the round. */
    function Steps(k: nat, k2: nat): (steps: seq<Op>)
      requires k <= k2 <= Ops()
      ensures |steps| == k2 - k
    {
      seq(k2 - k, i requires 0 <= i < k2 - k => Flat(route)[k + i].op)
    }

    predicate AllOn(id: string, k: nat, k2: nat)
      requires k <= k2 <= Ops()
    {
      forall i | k <= i < k2 :: Flat(route)[i].id == id
    }

    /** A worker serves all of the ops k, ..., k2 - 1. */
    predicate Provided(spec: NodeSpec, k: nat, k2: nat)
      requires k <= k2 <= Ops()
    {
      forall i | k <= i < k2 :: Provides(spec, Flat(route)[i].op)
    }
  }

  lemma SlabIsParsed(d: Round, i: nat)
    requires d.Valid() && i < |d.route.decoders|
    ensures ParseKey(d.route.decoders[i].key) == Some(d.Block(i))
    ensures d.Block(i).lo < d.Block(i).hi <= d.m.numLayers
  {
    hide ParseKey, End;
    assert TileAt(d.route.decoders, i);
    EndsIncrease(d.route.decoders, d.m.numLayers, i + 1, |d.route.decoders|);
  }

  lemma SlabsApart(d: Round, i: nat, j: nat)
    requires d.Valid() && i < |d.route.decoders| && j < |d.route.decoders| && i != j
    ensures Apart(d.Block(i), d.Block(j)) && d.route.decoders[i].key != d.route.decoders[j].key
  {
    hide ParseKey, End, TileAt;
    SlabIsParsed(d, i);
    SlabIsParsed(d, j);
    if i < j {
      EndsIncrease(d.route.decoders, d.m.numLayers, i + 1, j);
    } else {
      EndsIncrease(d.route.decoders, d.m.numLayers, j + 1, i);
    }
  }

  /** Running decoder k - 1 of the round as op k. */
  lemma ReadyAfterDecode(d: Round, id: string, job: JobCaches, spec: NodeSpec, k: nat, cp: seq<nat>)
    requires d.Valid() && 1 <= k <= |d.route.decoders| && d.route.decoders[k - 1].id == id
    requires Honest(spec, d.m.numLayers) && d.Ready(id, job, spec, k)
    requires Contiguous(cp, d.n) && d.n + |cp| == |d.all|
    ensures var s := Decode(d.m, spec, job, d.route.decoders[k - 1].key, Some(d.Act(k)), Some(cp));
      && (d.route.decoders[k - 1].key in spec.prepared ==> s.out.Some?)
      && (s.out.Some? ==> s.out.value == d.Act(k + 1) && d.Ready(id, s.job, spec, k + 1))
  {
    hide Decode, Contiguous, Honest, Pass, LocalCache, Holds, End, ParseKey, TileAt, WellFormed;
    var i := k - 1;
    var key := d.route.decoders[i].key;
    SlabIsParsed(d, i);
    DecodeAdvances(d.m, spec, job, key, d.Block(i), d.Inputs(), d.n, cp);
    var s := Decode(d.m, spec, job, key, Some(d.Act(k)), Some(cp));
    if s.out.Some? {
      forall j | 0 <= j < |d.route.decoders| && d.route.decoders[j].id == id
        ensures HoldsBlock(d.m, s.job, d.route.decoders[j].key, d.Block(j), d.Past(j, k + 1))
      {
        if j != i {
          SlabsApart(d, i, j);
          assert d.Past(j, k + 1) == d.Past(j, k);
        }
      }
    }
  }

  lemma NotDecode(d: Round, id: string, job: JobCaches, spec: NodeSpec, k: nat)
    requires d.Valid() && d.Ready(id, job, spec, k) && (k == 0 || k == d.Ops() - 1)
    ensures d.Ready(id, job, spec, k + 1)
  {
    hide Holds, Pass;
    forall i | 0 <= i < |d.route.decoders|
      ensures d.Past(i, k + 1) == d.Past(i, k)
    {
    }
  }

  /** Where the activation of the op about to run comes from. */
  predicate Carries(d: Round, h: Option<seq<Hidden>>, t: Tensors, k: nat, wire: bool)
    requires d.Valid() && k < d.Ops()
  {
    if h.Some? then k > 0 && h.value == d.Act(k)
    else if k == 0 then t.ids == Some(d.all[d.n..])
    else t.hidden == Some(d.Act(k)) && (wire || k <= |d.route.decoders|)
  }

  /** Consecutive ops of the round on one worker: the worker is ready for what follows and the answer is
      the activation, or after the head the next token; it raises only where it does not serve an op. */
  lemma {:induction false} StepsAnswer(d: Round, id: string, job: JobCaches, spec: NodeSpec, wire: bool,
                                       h: Option<seq<Hidden>>, t: Tensors, k: nat, k2: nat)
    requires d.Valid() && k < k2 <= d.Ops() && d.AllOn(id, k, k2)
    requires Honest(spec, d.m.numLayers) && d.Ready(id, job, spec, k)
    requires t.cp.Some? ==> Contiguous(t.cp.value, d.n) && d.n + |t.cp.value| == |d.all|
    requires k2 > 1 && 1 <= |d.route.decoders| && k <= |d.route.decoders| ==> t.cp.Some?
    requires Carries(d, h, t, k, wire)
    ensures var o := RunSteps(d.m, spec, wire, job, h, d.Steps(k, k2), t);
      (o.reply.Raised? && !d.Provided(spec, k, k2)) || (d.Ready(id, o.job, spec, k2) && d.Answers(o.reply, k2))
    decreases k2 - k, 1
  {
    hide Decode, Contiguous, Honest, Pass, LocalCache, Holds, End, ParseKey, Tiles, WellFormed, NextToken;
    if k == 0 {
      EmbedAnswers(d, id, job, spec, wire, h, t, k2);
    } else if k == d.Ops() - 1 {
      assert d.Steps(k, k2) == [HeadOp];
      LastIsHead(d);
      NotDecode(d, id, job, spec, k);
    } else {
      DecodeAnswers(d, id, job, spec, wire, h, t, k, k2);
    }
  }

  lemma PeelStep(d: Round, id: string, spec: NodeSpec, k: nat, k2: nat)
    requires k < k2 <= d.Ops() && d.AllOn(id, k, k2)
    ensures d.Steps(k, k2)[0] == Flat(d.route)[k].op && d.Steps(k, k2)[1..] == d.Steps(k + 1, k2)
    ensures Flat(d.route)[k].id == id && d.AllOn(id, k + 1, k2)
    ensures d.Provided(spec, k, k2) ==> Provides(spec, Flat(d.route)[k].op) && d.Provided(spec, k + 1, k2)
  {
    hide Flat, Provides;
  }

  lemma EmbedAnswers(d: Round, id: string, job: JobCaches, spec: NodeSpec, wire: bool,
                     h: Option<seq<Hidden>>, t: Tensors, k2: nat)
    requires d.Valid() && 0 < k2 <= d.Ops() && d.AllOn(id, 0, k2)
    requires Honest(spec, d.m.numLayers) && d.Ready(id, job, spec, 0)
    requires t.cp.Some? ==> Contiguous(t.cp.value, d.n) && d.n + |t.cp.value| == |d.all|
    requires k2 > 1 && 1 <= |d.route.decoders| ==> t.cp.Some?
    requires Carries(d, h, t, 0, wire)
    ensures var o := RunSteps(d.m, spec, wire, job, h, d.Steps(0, k2), t);
      (o.reply.Raised? && !d.Provided(spec, 0, k2)) || (d.Ready(id, o.job, spec, k2) && d.Answers(o.reply, k2))
    decreases k2, 0
  {
    hide Decode, Contiguous, Honest, Pass, LocalCache, Holds, End, ParseKey, Tiles, WellFormed, NextToken;
    PeelStep(d, id, spec, 0, k2);
    var steps := d.Steps(0, k2);
    assert steps[0] == EmbedOp;
    hide Round.Steps, Round.AllOn, Round.Provided, Flat, Round.Act, Round.Answers;
    EmbedIsFirstActivation(d);
    NotDecode(d, id, job, spec, 0);
    if spec.embed {
      ContinueAfter(d, id, job, spec, wire, d.Act(1), t, 1, k2);
    }
  }

  lemma DecodeAnswers(d: Round, id: string, job: JobCaches, spec: NodeSpec, wire: bool,
                      h: Option<seq<Hidden>>, t: Tensors, k: nat, k2: nat)
    requires 1 <= k <= |d.route.decoders|
    requires d.Valid() && k < k2 <= d.Ops() && d.AllOn(id, k, k2)
    requires Honest(spec, d.m.numLayers) && d.Ready(id, job, spec, k)
    requires t.cp.Some? ==> Contiguous(t.cp.value, d.n) && d.n + |t.cp.value| == |d.all|
    requires k2 > 1 && 1 <= |d.route.decoders| && k <= |d.route.decoders| ==> t.cp.Some?
    requires Carries(d, h, t, k, wire)
    ensures var o := RunSteps(d.m, spec, wire, job, h, d.Steps(k, k2), t);
      (o.reply.Raised? && !d.Provided(spec, k, k2)) || (d.Ready(id, o.job, spec, k2) && d.Answers(o.reply, k2))
    decreases k2 - k, 0
  {
    hide Decode, Contiguous, Honest, Pass, LocalCache, Holds, End, ParseKey, Tiles, WellFormed, NextToken;
    hide Round.Steps, Round.AllOn, Round.Provided, Round.Act, Round.Ready, Round.Answers, RunSteps;
    PeelStep(d, id, spec, k, k2);
    var steps := d.Steps(k, k2);
    var key := d.route.decoders[k - 1].key;
    assert Flat(d.route)[k] == Placed(DecodeOp(key), d.route.decoders[k - 1].id);
    assert Provides(spec, DecodeOp(key)) <==> key in spec.prepared;
    CarriesSource(d, h, t, k, wire);
    hide Flat, Carries, Provides, Round.Valid;
    RunDecode(d.m, spec, wire, job, h, key, steps, t);
    ReadyAfterDecode(d, id, job, spec, k, t.cp.value);
    var s := Decode(d.m, spec, job, key, Some(d.Act(k)), t.cp);
    if s.out.Some? {
      ContinueAfter(d, id, s.job, spec, wire, d.Act(k + 1), t, k + 1, k2);
    }
  }

  lemma CarriesSource(d: Round, h: Option<seq<Hidden>>, t: Tensors, k: nat, wire: bool)
    requires d.Valid() && 1 <= k <= |d.route.decoders| && Carries(d, h, t, k, wire)
    ensures (if h.Some? then h else t.hidden) == Some(d.Act(k))
  {
    hide Round.Act;
  }

  lemma ContinueAfter(d: Round, id: string, job: JobCaches, spec: NodeSpec, wire: bool,
                      h: seq<Hidden>, t: Tensors, k: nat, k2: nat)
    requires d.Valid() && 1 <= k <= k2 <= d.Ops() && d.AllOn(id, k, k2)
    requires k < d.Ops() && h == d.Act(k)
    requires Honest(spec, d.m.numLayers) && d.Ready(id, job, spec, k)
    requires t.cp.Some? ==> Contiguous(t.cp.value, d.n) && d.n + |t.cp.value| == |d.all|
    requires k < k2 && k2 > 1 && 1 <= |d.route.decoders| && k <= |d.route.decoders| ==> t.cp.Some?
    ensures var o := RunSteps(d.m, spec, wire, job, Some(h), d.Steps(k, k2), t);
      (o.reply.Raised? && !d.Provided(spec, k, k2)) || (d.Ready(id, o.job, spec, k2) && d.Answers(o.reply, k2))
    decreases k2 - k, 2
  {
    hide Contiguous, Honest, Tiles, NextToken, Flat, Round.Steps, Round.Ready, Round.Act, Round.AllOn;
    if k < k2 {
      hide Round.Answers, RunSteps;
      StepsAnswer(d, id, job, spec, wire, Some(h), t, k, k2);
    }
  }

  lemma EmbedIsFirstActivation(d: Round)
    requires d.Valid()
    ensures Embed(d.m, d.all[d.n..]) == d.Act(1)
  {
    assert d.all == d.all[..d.n] + d.all[d.n..];
    EmbedConcat(d.m, d.all[..d.n], d.all[d.n..]);
    PassNothing(d.m, d.Inputs());
  }

  lemma LastIsHead(d: Round)
    requires d.Valid()
    ensures |d.Act(d.Ops() - 1)| == |d.all| - d.n
    ensures d.m.head(d.Act(d.Ops() - 1)[|d.all| - d.n - 1]) == NextToken(d.m, d.all)
  {
    hide NextToken;
    LastGivesNextToken(d.m, d.all, d.n, d.Act(d.Ops() - 1));
  }

  // ---- One message ----

  /** The message for ops k, ..., k2 - 1: a single op, or two and more fused. */
  predicate Carried(d: Round, req: Request, k: nat, k2: nat)
    requires k < k2 <= d.Ops()
  {
    (k2 == k + 1 && req == Single(Flat(d.route)[k].op)) || (k2 >= k + 2 && req == Request.Chain(d.Steps(k, k2)))
  }

  lemma FirstDecodeOfSteps(d: Round, k: nat, k2: nat)
    requires k < k2 <= d.Ops()
    ensures var i := if k == 0 then 0 else k - 1;
      FirstDecode(d.Steps(k, k2)) ==
        if i < |d.route.decoders| && i + 1 < k2 then Some(d.route.decoders[i].key) else None
  {
    var steps := d.Steps(k, k2);
    assert steps[0] == Flat(d.route)[k].op;
    if k2 > k + 1 {
      assert steps[1..] == d.Steps(k + 1, k2);
      assert steps[1] == Flat(d.route)[k + 1].op;
      var rest := steps[1..];
      assert rest[0] == steps[1];
      if k2 == k + 2 {
        assert rest[1..] == [];
        assert FirstDecode(rest) == if rest[0].DecodeOp? then Some(rest[0].key) else None;
      }
    } else {
      assert steps[1..] == [];
    }
  }

  lemma OffsetIsNextPosition(d: Round, id: string, layers: Cache, spec: NodeSpec, k: nat, i: nat)
    requires d.Valid() && i < |d.route.decoders| && d.route.decoders[i].id == id && k <= i + 1
    requires d.Ready(id, MlxJob(layers), spec, k)
    ensures d.Block(i).hi <= |layers|
    ensures forall g | d.Block(i).lo <= g < d.Block(i).hi :: |layers[g]| == d.n
  {
    hide Holds, Pass, End, ParseKey, Tiles;
    SlabIsParsed(d, i);
    var r := d.Block(i);
    assert HoldsBlock(d.m, MlxJob(layers), d.route.decoders[i].key, r, d.Past(i, k));
    var local := layers[r.lo..r.hi];
    HeldLengths(d.m, r.lo, r.hi, local, d.Past(i, k));
    forall g | r.lo <= g < r.hi
      ensures |layers[g]| == d.n
    {
      assert local[g - r.lo] == layers[g];
    }
  }

  lemma KeyStartsWithLo(key: string, r: Range)
    requires ParseKey(key) == Some(r)
    ensures ParseInt(Text.Split(key, '-')[0]) == Some(r.lo)
  {
  }

  /** Under the positions of a round the MLX reset branch is never taken, and every served layer's
      offset is the position sent. */
  lemma NeverReset(d: Round, id: string, layers: Cache, spec: NodeSpec, k: nat, k2: nat, cp: Option<seq<nat>>)
    requires d.Valid() && k < k2 <= d.Ops() && d.AllOn(id, k, k2)
    requires d.Ready(id, MlxJob(layers), spec, k)
    requires cp.Some? ==> Contiguous(cp.value, d.n) && d.n + |cp.value| == |d.all|
    ensures MlxAlign(d.m, layers, d.Steps(k, k2), cp) == Some(layers)
  {
    FirstDecodeOfSteps(d, k, k2);
    var i := if k == 0 then 0 else k - 1;
    if i < |d.route.decoders| && i + 1 < k2 && cp.Some? {
      assert Flat(d.route)[i + 1].id == id;
      hide Round.Steps, Round.Ready, Tiles, FirstDecode, End, ParseKey, ParseInt, Text.Split, Flat;
      OffsetIsNextPosition(d, id, layers, spec, k, i);
      SlabIsParsed(d, i);
      KeyStartsWithLo(d.route.decoders[i].key, d.Block(i));
    }
  }

  /** A message of the round, fused or not, to a torch or an MLX worker that is ready for it: it is ready
      for the next op and gives the specified answer; it raises only where it does not serve an op. */
  lemma MessageAnswers(d: Round, id: string, part: Option<JobCaches>, spec: NodeSpec, req: Request,
                       t: Tensors, k: nat, k2: nat)
    requires d.Valid() && k < k2 <= d.Ops() && d.AllOn(id, k, k2) && Carried(d, req, k, k2)
    requires Honest(spec, d.m.numLayers) && d.Ready(id, JobOr(d.m, spec, part), spec, k)
    requires t.cp.Some? ==> Contiguous(t.cp.value, d.n) && d.n + |t.cp.value| == |d.all|
    requires k2 > 1 && 1 <= |d.route.decoders| && k <= |d.route.decoders| ==> t.cp.Some?
    requires Carries(d, None, t, k, true)
    ensures var o := Exec(d.m, spec, part, req, t);
      (o.reply.Raised? && !d.Provided(spec, k, k2)) || (d.Ready(id, JobOr(d.m, spec, o.part), spec, k2) && d.Answers(o.reply, k2))
  {
    hide Contiguous, Honest, MlxAlign, Tiles, Pass, Holds, LocalCache, WellFormed, End, NextToken;
    var job := JobOr(d.m, spec, part);
    var steps := d.Steps(k, k2);
    assert k2 == k + 1 ==> steps == [Flat(d.route)[k].op];
    if job.MlxJob? {
      NeverReset(d, id, job.layers, spec, k, k2, t.cp);
      StepsAnswer(d, id, job, spec, true, None, t, k, k2);
    } else {
      StepsAnswer(d, id, job, spec, req.Single?, None, t, k, k2);
      if k2 == k + 1 && !Flat(d.route)[k].op.DecodeOp? {
        NotDecode(d, id, job, spec, k);
      }
    }
  }

  /** A worker that runs none of the ops k, ..., k2 - 1 is as ready after them as before. */
  lemma OthersStayReady(d: Round, id: string, job: JobCaches, spec: NodeSpec, k: nat, k2: nat)
    requires d.Valid() && k <= k2 <= d.Ops() && d.Ready(id, job, spec, k)
    requires forall i | k <= i < k2 :: Flat(d.route)[i].id != id
    ensures d.Ready(id, job, spec, k2)
  {
    hide Holds, Pass;
    forall i | 0 <= i < |d.route.decoders| && d.route.decoders[i].id == id
      ensures d.Past(i, k2) == d.Past(i, k)
    {
      assert Flat(d.route)[i + 1].id == id;
    }
  }

  /** After the last op of a round every worker is ready for the first op of the next one. */
  lemma NextRound(d: Round, id: string, job: JobCaches, spec: NodeSpec, token: Token)
    requires d.Valid() && d.Ready(id, job, spec, d.Ops())
    ensures Round(d.m, d.route, d.all + [token], |d.all|).Ready(id, job, spec, 0)
  {
    hide Holds, Pass;
    var e := Round(d.m, d.route, d.all + [token], |d.all|);
    EmbedConcat(d.m, d.all, [token]);
    assert e.Inputs()[..e.n] == d.Inputs();
  }

  /** A job that no worker has seen starts ready. */
  lemma FreshIsReady(d: Round, id: string, spec: NodeSpec)
    requires d.Valid() && d.n == 0
    ensures d.Ready(id, EmptyJob(d.m, spec), spec, 0)
  {
    hide Holds, LocalCache;
    forall i | 0 <= i < |d.route.decoders|
      ensures HoldsBlock(d.m, EmptyJob(d.m, spec), d.route.decoders[i].key, d.Block(i), d.Past(i, 0))
    {
      SlabIsParsed(d, i);
      NothingHeldYet(d.m, spec, d.route.decoders[i].key, d.Block(i));
      assert d.Past(i, 0) == [];
    }
  }
}
