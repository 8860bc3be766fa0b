// A torch worker: served blocks, and per job one decoder block object (with its cache) per block key.
module NodeExec {
  import opened Text
  import opened Transformer
  import opened BlockSpec
  import opened Blocks
  import opened Executor
  import opened Relay
  import opened Topology

  function SlabsOf(numLayers: nat, decoders: seq<Range>): (slabs: seq<Range>)
    ensures |slabs| == |decoders|
  {
    seq(|decoders|, i requires 0 <= i < |decoders| => Slab(numLayers, decoders[i]))
  }

  /** {f"{lo}-{hi}": layers} for the served ranges. */
  function Prepared(numLayers: nat, decoders: seq<Range>): (p: map<string, Range>)
    ensures forall k | k in p :: exists i :: 0 <= i < |decoders| && k == Key(decoders[i])
                                             && p[k] == Slab(numLayers, decoders[i])
  {
    if decoders == [] then map[]
    else
      var n := |decoders| - 1;
      Prepared(numLayers, decoders[..n])[Key(decoders[n]) := Slab(numLayers, decoders[n])]
  }

  lemma {:induction false} PreparedAt(numLayers: nat, decoders: seq<Range>, i: nat)
    requires i < |decoders|
    ensures var p := Prepared(numLayers, decoders);
      Key(decoders[i]) in p && p[Key(decoders[i])] == Slab(numLayers, decoders[i])
  {
    hide Key, ParseKey, Slab;
    var n := |decoders| - 1;
    if i < n {
      PreparedAt(numLayers, decoders[..n], i);
      ParseKeyOfKey(decoders[i]);
      ParseKeyOfKey(decoders[n]);
    }
  }

  /** An MLX worker's keys always say what runs under them. A torch worker's do exactly when no range
      renumbered a layer of another one; disjoint ranges never do. */
  lemma PreparedIsHonest(spec: NodeSpec, numLayers: nat, decoders: seq<Range>, table: seq<nat>)
    requires spec.prepared == Prepared(numLayers, decoders) && |table| == numLayers
    requires !spec.mlx ==> spec.table == RemapAll(table, SlabsOf(numLayers, decoders))
    ensures Honest(spec, numLayers) <==>
      spec.mlx || forall i | 0 <= i < |decoders| :: Unshadowed(SlabsOf(numLayers, decoders), i)
    ensures Disjoint(SlabsOf(numLayers, decoders)) ==> Honest(spec, numLayers)
  {
    hide ParseKey, Key, Prepared, RemapAll, Intact, Unshadowed, Disjoint, Slab;
    var slabs := SlabsOf(numLayers, decoders);
    forall k | k in spec.prepared
      ensures ParseKey(k).Some? && spec.prepared[k] == Slab(numLayers, ParseKey(k).value)
      ensures exists i :: 0 <= i < |slabs| && slabs[i] == spec.prepared[k]
    {
      var i :| 0 <= i < |decoders| && k == Key(decoders[i]) && spec.prepared[k] == Slab(numLayers, decoders[i]);
      ParseKeyOfKey(decoders[i]);
      assert slabs[i] == spec.prepared[k];
    }
    if !spec.mlx {
      forall i | 0 <= i < |decoders|
        ensures Key(decoders[i]) in spec.prepared && spec.prepared[Key(decoders[i])] == slabs[i]
        ensures Intact(spec.table, slabs[i]) <==> Unshadowed(slabs, i)
        ensures Disjoint(slabs) ==> Intact(spec.table, slabs[i])
      {
        PreparedAt(numLayers, decoders, i);
        IntactAfterRemap(table, slabs, i);
        if Disjoint(slabs) {
          DisjointStayIntact(table, slabs, i);
        }
      }
    }
  }

  ghost function CachesOf(blocks: map<string, DecoderBlock>): (c: map<string, Cache>)
    reads blocks.Values
    ensures c.Keys == blocks.Keys
  {
    map k | k in blocks :: blocks[k].cache
  }

  lemma CachesExtend(blocks: map<string, DecoderBlock>, key: string, d: DecoderBlock)
    requires key !in blocks
    ensures CachesOf(blocks[key := d]) == CachesOf(blocks)[key := d.cache]
  {
  }

  class NodeState {
    const whole: WholeModel
    const embed: bool
    const head: bool
    const prepared: map<string, Range>
    var jobs: map<string, map<string, DecoderBlock>>

    ghost function JobBlocks(job: string): set<DecoderBlock>
      reads this
    {
      if job in jobs then jobs[job].Values else {}
    }

    /** Which job and key each block object was created for. */
    ghost var owner: map<DecoderBlock, (string, string)>

    ghost predicate Owned(j: string, k: string, b: DecoderBlock)
      reads this`owner
    {
      b in owner && owner[b] == (j, k) && k in prepared && b.whole == whole && b.slab == prepared[k]
    }

    ghost predicate Valid()
      reads this, whole
    {
      && whole.Valid()
      && (forall k | k in prepared :: prepared[k].lo <= prepared[k].hi <= whole.params.numLayers)
      && (forall j, k | j in jobs && k in jobs[j] :: Owned(j, k, jobs[j][k]))
    }

    function Spec(): NodeSpec
      reads whole.layerIdx
    {
      NodeSpec(false, embed, head, prepared, whole.layerIdx[..])
    }

    /** The caches kept for a job, as values. */
    ghost function PartOf(job: string): Option<JobCaches>
      reads this, JobBlocks(job)
    {
      if job in jobs then Some(TorchJob(CachesOf(jobs[job]))) else None
    }

    /** Any ranges are served. What a node advertises is what runs under its keys exactly when no range
        renumbers a layer of another, as disjoint ranges never do. */
    constructor (whole: WholeModel, stages: StageSpec)
      requires whole.Valid()
      modifies whole.layerIdx
      ensures Valid() && jobs == map[] && this.whole == whole
      ensures Spec() == NodeSpec(false, stages.embed, stages.head, Prepared(whole.params.numLayers, stages.decoders),
                                 RemapAll(old(whole.layerIdx[..]), SlabsOf(whole.params.numLayers, stages.decoders)))
      ensures Honest(Spec(), whole.params.numLayers) <==>
        forall i | 0 <= i < |stages.decoders| :: Unshadowed(SlabsOf(whole.params.numLayers, stages.decoders), i)
      ensures Disjoint(SlabsOf(whole.params.numLayers, stages.decoders)) ==> Honest(Spec(), whole.params.numLayers)
    {
      hide Unshadowed, Disjoint, Honest, RemapAll, SlabsOf;
      ghost var table := whole.layerIdx[..];
      var p := PrepareAll(whole, stages.decoders);
      PreparedIsHonest(NodeSpec(false, stages.embed, stages.head, p, whole.layerIdx[..]), whole.params.numLayers,
                       stages.decoders, table);
      this.whole, embed, head, prepared := whole, stages.embed, stages.head, p;
      jobs := map[];
      owner := map[];
    }

    /** The block of a job, created with an empty cache when first asked for; None for a key that is
        not served. */
    method BlockOf(job: string, key: string) returns (block: Option<DecoderBlock>)
      requires Valid()
      modifies this
      ensures Valid() && fresh(JobBlocks(job) - old(JobBlocks(job)))
      ensures jobs - {job} == old(jobs) - {job}
      ensures block.Some? <==> key in prepared
      ensures block.Some? ==> job in jobs && key in jobs[job] && jobs[job][key] == block.value
      ensures var blocks := BlocksOf(old(PartOf(job)));
        PartOf(job) == Some(TorchJob(if key in prepared then blocks[key := TorchCache(blocks, key)] else blocks))
    {
      hide NodeState.Valid, NodeState.Owned;
      EnsureJob(job);
      ghost var before := CachesOf(jobs[job]);
      if key in jobs[job] {
        OwnedBlock(job, key, jobs[job][key]);
        assert before[key := TorchCache(before, key)] == before;
        return Some(jobs[job][key]);
      }
      if key !in prepared {
        return None;
      }
      var d := AddBlock(job, key);
      return Some(d);
    }

    /** setdefault(job, {}) */
    method EnsureJob(job: string)
      requires Valid()
      modifies this`jobs
      ensures Valid() && job in jobs && jobs == if job in old(jobs) then old(jobs) else old(jobs)[job := map[]]
      ensures CachesOf(jobs[job]) == BlocksOf(old(PartOf(job)))
    {
      if job !in jobs {
        jobs := jobs[job := map[]];
      }
    }

    method AddBlock(job: string, key: string) returns (d: DecoderBlock)
      requires Valid() && job in jobs && key !in jobs[job] && key in prepared
      modifies this`jobs, this`owner
      ensures Valid() && fresh(d) && jobs == old(jobs)[job := old(jobs)[job][key := d]]
      ensures CachesOf(jobs[job]) == old(CachesOf(jobs[job]))[key := []]
    {
      d := new DecoderBlock(whole, prepared[key]);
      CachesExtend(jobs[job], key, d);
      Register(job, key, d);
    }

    method Register(job: string, key: string, d: DecoderBlock)
      requires Valid() && job in jobs && key in prepared && d.whole == whole && d.slab == prepared[key]
      requires forall j, k | j in jobs && k in jobs[j] :: jobs[j][k] != d
      modifies this`jobs, this`owner
      ensures Valid() && jobs == old(jobs)[job := old(jobs)[job][key := d]]
    {
      hide DecoderBlock.Valid;
      jobs := jobs[job := jobs[job][key := d]];
      owner := owner[d := (job, key)];
    }

    /** One decode step: the block is looked up or created before the tensors are read. */
    method DecodeStep(job: string, key: string, src: Option<seq<Hidden>>, cp: Option<seq<nat>>)
      returns (out: Option<seq<Hidden>>)
      requires Valid()
      modifies this, JobBlocks(job)
      ensures Valid() && fresh(JobBlocks(job) - old(JobBlocks(job)))
      ensures jobs - {job} == old(jobs) - {job}
      ensures var s := TorchDecode(whole.params, Spec(), BlocksOf(old(PartOf(job))), key, src, cp);
        PartOf(job) == Some(s.job) && out == s.out
    {
      hide RunTable, NodeState.Valid, NodeState.Owned, TorchDecode, TorchCache;
      ghost var blocks := BlocksOf(PartOf(job));
      DecodeInSteps(whole.params, Spec(), blocks, key, src, cp);
      var block := BlockOf(job, key);
      if block.None? {
        return None;
      }
      if src.None? || cp.None? || |cp.value| != |src.value| {
        return None;
      }
      out := RunOwned(job, key, block.value, src.value, cp.value);
    }

    /** Steps in order on the device; a decode without an activation reads it from the payload. */
    method RunChain(job: string, steps: seq<Op>, t: Tensors) returns (reply: Reply)
      requires Valid()
      modifies this, JobBlocks(job)
      ensures Valid() && jobs - {job} == old(jobs) - {job}
      ensures var o := RunSteps(whole.params, Spec(), false, TorchJob(BlocksOf(old(PartOf(job)))), None, steps, t);
        PartOf(job) == Some(o.job) && reply == o.reply
    {
      hide TorchDecode, NodeState.Valid, NodeState.Owned, CachesOf;
      var m := whole.params;
      EnsureJob(job);
      var h: Option<seq<Hidden>> := None;
      ghost var start := TorchJob(BlocksOf(PartOf(job)));
      ghost var current := start;
      for i := 0 to |steps|
        invariant Valid() && jobs - {job} == old(jobs) - {job}
        invariant fresh(JobBlocks(job) - old(JobBlocks(job)))
        invariant current.TorchJob? && PartOf(job) == Some(current)
        invariant RunSteps(m, Spec(), false, start, None, steps, t)
               == RunSteps(m, Spec(), false, current, h, steps[i..], t)
      {
        assert steps[i..][0] == steps[i] && steps[i..][1..] == steps[i + 1..];
        match steps[i] {
          case EmbedOp =>
            if !embed || t.ids.None? {
              return Raised;
            }
            h := Some(Embed(m, t.ids.value));
          case DecodeOp(key) =>
            h := DecodeStep(job, key, if h.Some? then h else t.hidden, t.cp);
            current := PartOf(job).value;
            if h.None? {
              return Raised;
            }
          case HeadOp =>
            return if !head then Raised else Pick(m, h);
        }
      }
      assert steps[|steps|..] == [];
      return if h.Some? then Activation(h.value) else Raised;
    }

    /** One hop. What it does to the job's caches and what it answers is the executor function. */
    method HandleRequest(job: string, req: Request, t: Tensors) returns (reply: Reply)
      requires Valid()
      modifies this, JobBlocks(job)
      ensures Valid() && jobs - {job} == old(jobs) - {job}
      ensures Handled(PartOf(job), reply) == Exec(whole.params, Spec(), old(PartOf(job)), req, t)
    {
      hide NodeState.Owned, TorchDecode, CachesOf;
      match req {
        case Single(op) =>
          assert [op][1..] == [];
          match op {
            case EmbedOp =>
              SingleEmbed(whole.params, Spec(), PartOf(job), t);
              if !embed || t.ids.None? {
                return Raised;
              }
              return Activation(Embed(whole.params, t.ids.value));
            case DecodeOp(key) =>
              SingleDecode(whole.params, Spec(), PartOf(job), key, t);
              var h := DecodeStep(job, key, t.hidden, t.cp);
              return if h.Some? then Activation(h.value) else Raised;
            case HeadOp =>
              return if !head then Raised else Pick(whole.params, t.hidden);
          }
        case Chain(steps) =>
          reply := RunChain(job, steps, t);
        case EndJob =>
          jobs := map j | j in jobs && j != job :: jobs[j];
          assert jobs - {job} == old(jobs) - {job};
          return Done;
        case Unknown =>
          return Refused;
      }
    }

    /** The same step behind HTTP: an unserved block is refused before the job is touched, which the next
        request for the job cannot tell from an empty job. */
    method ServeDecode(job: string, key: string, t: Tensors) returns (reply: Reply)
      requires Valid()
      modifies this, JobBlocks(job)
      ensures Valid() && jobs - {job} == old(jobs) - {job}
      ensures var done := Exec(whole.params, Spec(), old(PartOf(job)), Single(DecodeOp(key)), t);
        && JobOr(whole.params, Spec(), PartOf(job)) == JobOr(whole.params, Spec(), done.part)
        && (reply == Refused <==> key !in prepared)
        && reply == (if key in prepared then done.reply else Refused) && (key !in prepared ==> done.reply.Raised?)
    {
      hide NodeState.Owned, CachesOf, RunTable;
      SingleDecode(whole.params, Spec(), PartOf(job), key, t);
      if key !in prepared {
        return Refused;
      }
      var h := DecodeStep(job, key, t.hidden, t.cp);
      return if h.Some? then Activation(h.value) else Raised;
    }

    lemma OwnedBlock(job: string, key: string, block: DecoderBlock)
      requires Valid() && job in jobs && key in jobs[job] && jobs[job][key] == block
      ensures key in prepared && block.slab == prepared[key]
    {
      assert Owned(job, key, block);
    }

    method RunOwned(job: string, key: string, block: DecoderBlock, src: seq<Hidden>, cp: seq<nat>)
      returns (h: Option<seq<Hidden>>)
      requires Valid() && job in jobs && key in jobs[job] && jobs[job][key] == block && |src| == |cp|
      modifies block`cache
      ensures Valid()
      ensures Step(TorchJob(CachesOf(jobs[job])), h)
           == TorchDecode(whole.params, Spec(), old(CachesOf(jobs[job])), key, Some(src), Some(cp))
    {
      hide RunTable, Intact, Uniform;
      assert Owned(job, key, block);
      h := block.RunBlock(src, cp);
      forall j, k | j in jobs && k in jobs[j] && (j, k) != (job, key)
        ensures jobs[j][k].cache == old(jobs[j][k].cache)
      {
        assert Owned(j, k, jobs[j][k]);
      }
      assert CachesOf(jobs[job]) == old(CachesOf(jobs[job]))[key := block.cache];
    }
  }

  /** Creating the block first and then running it is one decode step. */
  lemma DecodeInSteps(m: Model, spec: NodeSpec, blocks: map<string, Cache>, key: string,
                      src: Option<seq<Hidden>>, cp: Option<seq<nat>>)
    ensures var created := blocks[key := TorchCache(blocks, key)];
      var s := TorchDecode(m, spec, blocks, key, src, cp);
      if key !in spec.prepared then s == Step(TorchJob(blocks), None)
      else if src.None? || cp.None? || |cp.value| != |src.value| then s == Step(TorchJob(created), None)
      else s == TorchDecode(m, spec, created, key, src, cp)
  {
    hide RunTable;
    var created := blocks[key := TorchCache(blocks, key)];
    if key in spec.prepared && src.Some? && cp.Some? && |cp.value| == |src.value| {
      var r := RunTable(m, spec.table, spec.prepared[key], TorchCache(blocks, key), src.value, cp.value);
      assert created[key := r.cache] == blocks[key := r.cache];
    }
  }

  method PrepareAll(whole: WholeModel, decoders: seq<Range>) returns (p: map<string, Range>)
    requires whole.Valid()
    modifies whole.layerIdx
    ensures p == Prepared(whole.params.numLayers, decoders)
    ensures forall k | k in p :: p[k].lo <= p[k].hi <= whole.params.numLayers
    ensures whole.layerIdx[..] == RemapAll(old(whole.layerIdx[..]), SlabsOf(whole.params.numLayers, decoders))
  {
    hide Remap, Key;
    ghost var slabs := SlabsOf(whole.params.numLayers, decoders);
    ghost var table := whole.layerIdx[..];
    p := map[];
    for i := 0 to |decoders|
      invariant whole.layerIdx[..] == RemapAll(table, slabs[..i])
      invariant p == Prepared(whole.params.numLayers, decoders[..i])
    {
      var s := PrepareDecoderBlock(whole, decoders[i]);
      assert slabs[..i + 1][..i] == slabs[..i] && decoders[..i + 1][..i] == decoders[..i];
      p := p[Key(decoders[i]) := s];
    }
    assert slabs[..|slabs|] == slabs && decoders[..|decoders|] == decoders;
  }
}
