// An MLX worker: per job one cache per model layer, whichever blocks it serves.
module MlxBackend {
  import opened Text
  import opened Transformer
  import opened BlockSpec
  import opened Blocks
  import opened Executor
  import opened Relay
  import opened Topology
  import opened NodeExec

  class MlxNodeState {
    const model: Model
    const stages: StageSpec
    var jobs: map<string, Cache>      // per job the entries of every model layer

    ghost predicate Valid()
      reads this
    {
      forall j | j in jobs :: |jobs[j]| == model.numLayers
    }

    function Spec(): NodeSpec {
      NodeSpec(true, stages.embed, stages.head, Prepared(model.numLayers, stages.decoders), [])
    }

    function PartOf(job: string): Option<JobCaches>
      reads this
    {
      if job in jobs then Some(MlxJob(jobs[job])) else None
    }

    constructor (model: Model, stages: StageSpec)
      ensures Valid() && jobs == map[] && Honest(Spec(), model.numLayers)
    {
      this.model, this.stages, jobs := model, stages, map[];
      PreparedIsHonest(NodeSpec(true, stages.embed, stages.head, Prepared(model.numLayers, stages.decoders), []),
                       model.numLayers, stages.decoders, seq(model.numLayers, g => g));
    }

    /** The job's cache, one empty list per model layer when first asked for. */
    method JobCache(job: string) returns (layers: Cache)
      requires Valid()
      modifies this
      ensures Valid() && jobs - {job} == old(jobs) - {job}
      ensures layers == JobOr(model, Spec(), old(PartOf(job))).layers && PartOf(job) == Some(MlxJob(layers))
    {
      if job !in jobs {
        jobs := jobs[job := seq(model.numLayers, _ => [])];
      }
      layers := jobs[job];
    }

    /** Layers lo, ..., hi - 1, each advancing its own cache. */
    method RunLayers(layers: Cache, lo: nat, hi: nat, hs: seq<Hidden>) returns (layers': Cache, out: Option<seq<Hidden>>)
      requires lo <= hi <= |layers|
      ensures (layers', out) == MlxLayers(model, Spec(), lo, hi, layers, hs)
    {
      hide RunLayer, Executor.Serves;
      layers', out := layers, Some(hs);
      for g := lo to hi
        invariant (layers', out) == MlxLayers(model, Spec(), lo, g, layers, hs)
        invariant out.Some? && |layers'| == |layers|
      {
        if !Executor.Serves(Spec(), g) {
          out := None;
          MlxStops(model, Spec(), lo, g + 1, hi, layers, hs);
          return;
        }
        var r := RunLayer(model, g, g, Run(layers', out.value), Positions(|layers'[g]|, |out.value|));
        LayerKeepsLength(model, g, Run(layers', out.value), Positions(|layers'[g]|, |out.value|));
        layers', out := r.cache, Some(r.out);
      }
    }

    /** An op or a fused chain of ops. */
    method HandleRequest(job: string, req: Request, t: Tensors) returns (reply: Reply)
      requires Valid()
      modifies this
      ensures Valid() && jobs - {job} == old(jobs) - {job}
      ensures Handled(PartOf(job), reply) == Exec(model, Spec(), old(PartOf(job)), req, t)
    {
      hide MlxAlign, RunSteps;
      if req.EndJob? {
        jobs := map j | j in jobs && j != job :: jobs[j];
        return Done;
      }
      if req.Unknown? {
        return Refused;
      }
      var steps := if req.Single? then [req.op] else req.steps;
      var layers := JobCache(job);
      var aligned := MlxAlign(model, layers, steps, t.cp);
      if aligned.None? {
        return Raised;
      }
      AlignKeepsLength(model, layers, steps, t.cp);
      jobs := jobs[job := aligned.value];
      reply := RunAll(job, steps, t);
    }

    /** The steps in order; the activation stays on the device between them. */
    method RunAll(job: string, steps: seq<Op>, t: Tensors) returns (reply: Reply)
      requires Valid() && job in jobs
      modifies this
      ensures Valid() && job in jobs && jobs - {job} == old(jobs) - {job}
      ensures Outcome(MlxJob(jobs[job]), reply) == RunSteps(model, Spec(), true, MlxJob(old(jobs[job])), None, steps, t)
    {
      hide MlxLayers, ParseKey, Prepared, Slab;
      var h: Option<seq<Hidden>> := None;
      ghost var start := MlxJob(jobs[job]);
      for i := 0 to |steps|
        invariant Valid() && job in jobs && jobs - {job} == old(jobs) - {job}
        invariant RunSteps(model, Spec(), true, start, None, steps, t)
               == RunSteps(model, Spec(), true, MlxJob(jobs[job]), h, steps[i..], t)
      {
        assert steps[i..][0] == steps[i] && steps[i..][1..] == steps[i + 1..];
        match steps[i] {
          case EmbedOp =>
            if !stages.embed || t.ids.None? {
              return Raised;
            }
            h := Some(Embed(model, t.ids.value));
          case DecodeOp(key) =>
            var src := if h.Some? then h else t.hidden;
            var r := ParseKey(key);
            if r.None? || src.None? {
              return Raised;
            }
            var s := Slab(model.numLayers, r.value);
            if s.lo == s.hi {
              return Raised;
            }
            var layers: Cache;
            layers, h := RunLayers(jobs[job], s.lo, s.hi, src.value);
            jobs := jobs[job := layers];
            if h.None? {
              return Raised;
            }
          case HeadOp =>
            return if !stages.head then Raised else Pick(model, if h.None? then t.hidden else h);
        }
      }
      assert steps[|steps|..] == [];
      return if h.Some? then Activation(h.value) else Raised;
    }
  }

  lemma LayerKeepsLength(m: Model, g: nat, s: Run, cp: seq<nat>)
    requires g < |s.cache| && |s.out| == |cp|
    ensures |RunLayer(m, g, g, s, cp).cache| == |s.cache|
  {
  }

  lemma AlignKeepsLength(m: Model, layers: Cache, steps: seq<Op>, cp: Option<seq<nat>>)
    requires |layers| == m.numLayers
    ensures var a := MlxAlign(m, layers, steps, cp); a.Some? ==> |a.value| == m.numLayers
  {
  }

  /** Once a layer that was not loaded raised, the rest of the slab does not run. */
  lemma {:induction false} MlxStops(m: Model, spec: NodeSpec, lo: nat, g: nat, hi: nat, layers: Cache, hs: seq<Hidden>)
    requires lo <= g <= hi <= |layers| && MlxLayers(m, spec, lo, g, layers, hs).1.None?
    ensures MlxLayers(m, spec, lo, hi, layers, hs) == MlxLayers(m, spec, lo, g, layers, hs)
    decreases hi
  {
    hide RunLayer, Executor.Serves;
    if g < hi {
      MlxStops(m, spec, lo, g, hi - 1, layers, hs);
    }
  }

  // ---- An MLX worker in place of a torch worker ----

  /** Both jobs keep the same entries for every layer of a block, the one at its model index and the
      other at its local index. */
  predicate SameEntries(torch: JobCaches, mlx: JobCaches, key: string, r: Range) {
    forall i | 0 <= i < r.hi - r.lo ::
      Entries(LocalCache(torch, key, r), i) == Entries(LocalCache(mlx, key, r), i)
  }

  lemma BothHeld(d: Round, id: string, torch: JobCaches, mlx: JobCaches, torchSpec: NodeSpec, mlxSpec: NodeSpec, k: nat)
    requires d.Valid() && d.Ready(id, torch, torchSpec, k) && d.Ready(id, mlx, mlxSpec, k)
    ensures forall i | 0 <= i < |d.route.decoders| && d.route.decoders[i].id == id ::
              SameEntries(torch, mlx, d.route.decoders[i].key, d.Block(i))
  {
    hide Holds, Pass, LocalCache, Entries, End;
    forall i | 0 <= i < |d.route.decoders| && d.route.decoders[i].id == id
      ensures SameEntries(torch, mlx, d.route.decoders[i].key, d.Block(i))
    {
      var r, key := d.Block(i), d.route.decoders[i].key;
      assert HoldsBlock(d.m, torch, key, r, d.Past(i, k)) && HoldsBlock(d.m, mlx, key, r, d.Past(i, k));
      HeldSame(d.m, r, LocalCache(torch, key, r), LocalCache(mlx, key, r), d.Past(i, k));
    }
  }

  lemma HeldSame(m: Model, r: Range, a: Cache, b: Cache, past: seq<Hidden>)
    requires Holds(m, r.lo, r.hi, a, past) && Holds(m, r.lo, r.hi, b, past)
    ensures forall i | 0 <= i < r.hi - r.lo :: Entries(a, i) == Entries(b, i)
  {
    hide Holds, Pass;
    forall i | 0 <= i < r.hi - r.lo
      ensures Entries(a, i) == Entries(b, i)
    {
      HeldEntries(m, r.lo, r.hi, a, past, r.lo + i);
      HeldEntries(m, r.lo, r.hi, b, past, r.lo + i);
    }
  }

  /** In any round, a torch and an MLX worker that serve the same ops and hold the same history give
      the same reply to the same message, fused or not, and hold the same entries afterwards. */
  lemma MlxAgreesWithTorch(d: Round, id: string, torch: Option<JobCaches>, mlx: Option<JobCaches>,
                           torchSpec: NodeSpec, mlxSpec: NodeSpec, req: Request, t: Tensors, k: nat, k2: nat)
    requires d.Valid() && k < k2 <= d.Ops() && d.AllOn(id, k, k2) && Carried(d, req, k, k2)
    requires !torchSpec.mlx && mlxSpec.mlx
    requires Honest(torchSpec, d.m.numLayers) && Honest(mlxSpec, d.m.numLayers)
    requires d.Provided(torchSpec, k, k2) && d.Provided(mlxSpec, k, k2)
    requires d.Ready(id, JobOr(d.m, torchSpec, torch), torchSpec, k)
    requires d.Ready(id, JobOr(d.m, mlxSpec, mlx), mlxSpec, k)
    requires t.cp.Some? ==> Contiguous(t.cp.value, d.n) && d.n + |t.cp.value| == |d.all|
    requires k2 > 1 && 1 <= |d.route.decoders| && k <= |d.route.decoders| ==> t.cp.Some?
    requires Carries(d, None, t, k, true)
    ensures var a, b := Exec(d.m, torchSpec, torch, req, t), Exec(d.m, mlxSpec, mlx, req, t);
      && a.reply == b.reply && !a.reply.Raised?
      && forall i | 0 <= i < |d.route.decoders| && d.route.decoders[i].id == id ::
           SameEntries(JobOr(d.m, torchSpec, a.part), JobOr(d.m, mlxSpec, b.part), d.route.decoders[i].key, d.Block(i))
  {
    hide Exec, Carries, Carried, Contiguous, Round.Ready, Round.Valid, Honest, JobOr, SameEntries, Round.Act, NextToken;
    MessageAnswers(d, id, torch, torchSpec, req, t, k, k2);
    MessageAnswers(d, id, mlx, mlxSpec, req, t, k, k2);
    var a, b := Exec(d.m, torchSpec, torch, req, t), Exec(d.m, mlxSpec, mlx, req, t);
    BothHeld(d, id, JobOr(d.m, torchSpec, a.part), JobOr(d.m, mlxSpec, b.part), torchSpec, mlxSpec, k2);
  }
}
