// What a worker node does with one request, as a function of the caches it keeps for that job.
// Two kinds of worker: torch (one cache per block, locally indexed) and MLX (one cache per model layer).
module Executor {
  import opened Text
  import opened Transformer
  import opened BlockSpec
  import opened Blocks

  datatype Op = EmbedOp | DecodeOp(key: string) | HeadOp

  /** The named tensors of a request payload. */
  datatype Tensors = Tensors(ids: Option<seq<Token>>, hidden: Option<seq<Hidden>>, cp: Option<seq<nat>>)

  datatype Request = Single(op: Op) | Chain(steps: seq<Op>) | EndJob | Unknown

  /** Raised stands for an exception in the worker, which closes its connection. */
  datatype Reply = Raised | Activation(h: seq<Hidden>) | Picked(token: Token) | Done | Refused

  datatype JobCaches = TorchJob(blocks: map<string, Cache>) | MlxJob(layers: Cache)

  /** prepared maps each served block key to its layers; table holds the cache index each layer ended up
      with on a torch worker. */
  datatype NodeSpec = NodeSpec(mlx: bool, embed: bool, head: bool, prepared: map<string, Range>, table: seq<nat>)

  function EmptyJob(m: Model, spec: NodeSpec): JobCaches {
    if spec.mlx then MlxJob(seq(m.numLayers, _ => [])) else TorchJob(map[])
  }

  function JobOr(m: Model, spec: NodeSpec, part: Option<JobCaches>): JobCaches {
    if part.Some? then part.value else EmptyJob(m, spec)
  }

  datatype Step = Step(job: JobCaches, out: Option<seq<Hidden>>)

  function TorchCache(blocks: map<string, Cache>, key: string): Cache {
    if key in blocks then blocks[key] else []
  }

  /** A block is created with an empty cache when first asked for, then run; None where it raises. */
  function TorchDecode(m: Model, spec: NodeSpec, blocks: map<string, Cache>, key: string,
                       src: Option<seq<Hidden>>, cp: Option<seq<nat>>): Step {
    if key !in spec.prepared then Step(TorchJob(blocks), None)
    else
      var s := spec.prepared[key];
      var c := TorchCache(blocks, key);
      if src.None? || cp.None? || |cp.value| != |src.value| then Step(TorchJob(blocks[key := c]), None)
      else
        var r := RunTable(m, spec.table, s, c, src.value, cp.value);
        Step(TorchJob(blocks[key := r.cache]), r.out)
  }

  predicate Serves(spec: NodeSpec, g: nat) {
    exists k | k in spec.prepared :: spec.prepared[k].lo <= g < spec.prepared[k].hi
  }

  /** Layers lo, ..., hi - 1, each at the position its own cache has reached; a layer that was not
      loaded raises. */
  function MlxLayers(m: Model, spec: NodeSpec, lo: nat, hi: nat, layers: Cache, hs: seq<Hidden>): (s: (Cache, Option<seq<Hidden>>))
    requires hi <= |layers|
    ensures |s.0| == |layers|
  {
    if hi <= lo then (layers, Some(hs))
    else
      var (c, out) := MlxLayers(m, spec, lo, hi - 1, layers, hs);
      if out.None? || !Serves(spec, hi - 1) then (c, None)
      else
        var r := RunLayer(m, hi - 1, hi - 1, Run(c, out.value), Positions(|c[hi - 1]|, |out.value|));
        (r.cache, Some(r.out))
  }

  function MlxDecode(m: Model, spec: NodeSpec, layers: Cache, key: string, src: Option<seq<Hidden>>): Step {
    var r := ParseKey(key);
    if r.None? || src.None? then Step(MlxJob(layers), None)
    else
      var s := Slab(|layers|, r.value);
      if s.lo == s.hi then Step(MlxJob(layers), None)
      else
        var (c, out) := MlxLayers(m, spec, s.lo, s.hi, layers, src.value);
        Step(MlxJob(c), out)
  }

  function Decode(m: Model, spec: NodeSpec, job: JobCaches, key: string,
                  src: Option<seq<Hidden>>, cp: Option<seq<nat>>): Step {
    match job
    case TorchJob(blocks) => TorchDecode(m, spec, blocks, key, src, cp)
    case MlxJob(layers) => MlxDecode(m, spec, layers, key, src)
  }

  datatype Outcome = Outcome(job: JobCaches, reply: Reply)

  function Pick(m: Model, h: Option<seq<Hidden>>): Reply {
    if h.None? || h.value == [] then Raised else Picked(m.head(h.value[|h.value| - 1]))
  }

  /** The steps in order, the activation passed from one to the next. A decode without an activation
      reads it from the payload; a head does so only where headFromWire says so. */
  function RunSteps(m: Model, spec: NodeSpec, headFromWire: bool, job: JobCaches, h: Option<seq<Hidden>>,
                    steps: seq<Op>, t: Tensors): Outcome
    decreases |steps|
  {
    if steps == [] then Outcome(job, if h.Some? then Activation(h.value) else Raised)
    else
      match steps[0]
      case EmbedOp =>
        if !spec.embed || t.ids.None? then Outcome(job, Raised)
        else RunSteps(m, spec, headFromWire, job, Some(Embed(m, t.ids.value)), steps[1..], t)
      case DecodeOp(key) =>
        var s := Decode(m, spec, job, key, if h.Some? then h else t.hidden, t.cp);
        if s.out.None? then Outcome(s.job, Raised)
        else RunSteps(m, spec, headFromWire, s.job, s.out, steps[1..], t)
      case HeadOp =>
        Outcome(job, if !spec.head then Raised
                     else Pick(m, if h.None? && headFromWire then t.hidden else h))
  }

  lemma RunDecode(m: Model, spec: NodeSpec, headFromWire: bool, job: JobCaches, h: Option<seq<Hidden>>,
                  key: string, steps: seq<Op>, t: Tensors)
    requires steps != [] && steps[0] == DecodeOp(key)
    ensures var s := Decode(m, spec, job, key, if h.Some? then h else t.hidden, t.cp);
      RunSteps(m, spec, headFromWire, job, h, steps, t) ==
        if s.out.None? then Outcome(s.job, Raised) else RunSteps(m, spec, headFromWire, s.job, s.out, steps[1..], t)
  {
    hide Decode;
  }

  function FirstDecode(steps: seq<Op>): Option<string> {
    if steps == [] then None
    else if steps[0].DecodeOp? then Some(steps[0].key)
    else FirstDecode(steps[1..])
  }

  /** Before running, an MLX worker whose cache is not at the first position sent starts the job
      over; None where this check raises. */
  function MlxAlign(m: Model, layers: Cache, steps: seq<Op>, cp: Option<seq<nat>>): Option<Cache> {
    var key := FirstDecode(steps);
    if cp.None? || key.None? then Some(layers)
    else
      var lo := ParseInt(Split(key.value, '-')[0]);
      if cp.value == [] || lo.None? || lo.value >= |layers| then None
      else if |layers[lo.value]| != cp.value[0] then Some(seq(m.numLayers, _ => []))
      else Some(layers)
  }

  /** After that check the first layer of the first slab is at the position sent if and only if it was
      before, or the position is 0: starting over cannot bring back what is missing. */
  lemma AlignSeatsIff(m: Model, layers: Cache, steps: seq<Op>, cp: seq<nat>, key: string, lo: nat)
    requires |layers| == m.numLayers && cp != [] && FirstDecode(steps) == Some(key)
    requires ParseInt(Split(key, '-')[0]) == Some(lo) && lo < |layers|
    ensures var a := MlxAlign(m, layers, steps, Some(cp));
      && a.Some? && |a.value| == |layers|
      && (|a.value[lo]| == cp[0] <==> |layers[lo]| == cp[0] || cp[0] == 0)
  {
    hide FirstDecode, ParseInt, Split;
  }

  datatype Handled = Handled(part: Option<JobCaches>, reply: Reply)

  /** One request: the caches kept for its job afterwards, and the reply. */
  function Exec(m: Model, spec: NodeSpec, part: Option<JobCaches>, req: Request, t: Tensors): Handled {
    var job := JobOr(m, spec, part);
    match req
    case EndJob => Handled(None, Done)
    case Unknown => Handled(part, Refused)
    case Single(op) =>
      if job.MlxJob? then ExecMlx(m, spec, job.layers, [op], t)
      else
        var o := RunSteps(m, spec, true, job, None, [op], t);
        Handled(if op.DecodeOp? then Some(o.job) else part, o.reply)
    case Chain(steps) =>
      if job.MlxJob? then ExecMlx(m, spec, job.layers, steps, t)
      else
        var o := RunSteps(m, spec, false, job, None, steps, t);
        Handled(Some(o.job), o.reply)
  }

  function ExecMlx(m: Model, spec: NodeSpec, layers: Cache, steps: seq<Op>, t: Tensors): Handled {
    var aligned := MlxAlign(m, layers, steps, t.cp);
    if aligned.None? then Handled(Some(MlxJob(layers)), Raised)
    else
      var o := RunSteps(m, spec, true, MlxJob(aligned.value), None, steps, t);
      Handled(Some(o.job), o.reply)
  }

  // ---- The kind of an answer does not depend on what the worker keeps ----

  function OpsOf(req: Request): seq<Op> {
    match req
    case Single(op) => [op]
    case Chain(steps) => steps
    case _ => []
  }

  lemma {:induction false} StepsShape(m: Model, spec: NodeSpec, headFromWire: bool, job: JobCaches,
                                      h: Option<seq<Hidden>>, steps: seq<Op>, t: Tensors)
    ensures var r := RunSteps(m, spec, headFromWire, job, h, steps, t).reply;
      r.Raised? || (if HeadOp in steps then r.Picked? else r.Activation?)
    decreases |steps|
  {
    hide Decode;
    if steps != [] && !steps[0].HeadOp? {
      assert HeadOp in steps <==> HeadOp in steps[1..];
      if steps[0].EmbedOp? {
        if spec.embed && t.ids.Some? {
          StepsShape(m, spec, headFromWire, job, Some(Embed(m, t.ids.value)), steps[1..], t);
        }
      } else {
        var d := Decode(m, spec, job, steps[0].key, if h.Some? then h else t.hidden, t.cp);
        if d.out.Some? {
          StepsShape(m, spec, headFromWire, d.job, d.out, steps[1..], t);
        }
      }
    }
  }

  /** A message is answered by a token exactly when it contains the head, or raises. */
  lemma ReplyShape(m: Model, spec: NodeSpec, part: Option<JobCaches>, req: Request, t: Tensors)
    requires req.Single? || req.Chain?
    ensures var r := Exec(m, spec, part, req, t).reply;
      r.Raised? || (if HeadOp in OpsOf(req) then r.Picked? else r.Activation?)
  {
    hide RunSteps;
    var job := JobOr(m, spec, part);
    if job.MlxJob? {
      var aligned := MlxAlign(m, job.layers, OpsOf(req), t.cp);
      if aligned.Some? {
        StepsShape(m, spec, true, MlxJob(aligned.value), None, OpsOf(req), t);
      }
    } else {
      StepsShape(m, spec, req.Single?, job, None, OpsOf(req), t);
    }
  }

  // ---- What is not served is refused ----

  /** The worker has the op, and the message what an embed needs. */
  predicate Has(spec: NodeSpec, job: JobCaches, op: Op, t: Tensors) {
    match op
    case EmbedOp => spec.embed && t.ids.Some?
    case HeadOp => spec.head
    case DecodeOp(key) => if job.TorchJob? then key in spec.prepared else ParseKey(key).Some?
  }

  lemma {:induction false} AnsweredIsServed(m: Model, spec: NodeSpec, headFromWire: bool, job: JobCaches,
                                            h: Option<seq<Hidden>>, steps: seq<Op>, t: Tensors, i: nat)
    requires !RunSteps(m, spec, headFromWire, job, h, steps, t).reply.Raised?
    requires i < |steps| && HeadOp !in steps[..i]
    ensures Has(spec, job, steps[i], t)
    decreases i
  {
    hide MlxLayers, RunTable, ParseKey;
    if i > 0 {
      assert steps[..i][0] == steps[0];
      assert forall op | op in steps[1..][..i - 1] :: op in steps[..i];
      if steps[0].EmbedOp? {
        AnsweredIsServed(m, spec, headFromWire, job, Some(Embed(m, t.ids.value)), steps[1..], t, i - 1);
      } else {
        var d := Decode(m, spec, job, steps[0].key, if h.Some? then h else t.hidden, t.cp);
        AnsweredIsServed(m, spec, headFromWire, d.job, d.out, steps[1..], t, i - 1);
      }
    }
  }

  /** A message that is answered contains, up to its first head, only ops the worker has. */
  lemma RefusesUnserved(m: Model, spec: NodeSpec, part: Option<JobCaches>, req: Request, t: Tensors, i: nat)
    requires (req.Single? || req.Chain?) && !Exec(m, spec, part, req, t).reply.Raised?
    requires i < |OpsOf(req)| && HeadOp !in OpsOf(req)[..i]
    ensures Has(spec, JobOr(m, spec, part), OpsOf(req)[i], t)
  {
    hide RunSteps, MlxAlign;
    var job := JobOr(m, spec, part);
    if job.MlxJob? {
      var aligned := MlxAlign(m, job.layers, OpsOf(req), t.cp);
      AnsweredIsServed(m, spec, true, MlxJob(aligned.value), None, OpsOf(req), t, i);
    } else {
      AnsweredIsServed(m, spec, req.Single?, job, None, OpsOf(req), t, i);
    }
  }

  // ---- Fused and unfused execution ----

  /** What the coordinator sends for one op when it does not fuse. */
  function OpTensors(op: Op, ids: Option<seq<Token>>, h: Option<seq<Hidden>>, cp: Option<seq<nat>>): Tensors {
    match op
    case EmbedOp => Tensors(ids, None, None)
    case DecodeOp(_) => Tensors(None, h, cp)
    case HeadOp => Tensors(None, h, None)
  }

  /** One request per op, the activation relayed; stops at the first exception and at a head. */
  function OneByOne(m: Model, spec: NodeSpec, part: Option<JobCaches>, h: Option<seq<Hidden>>,
                    steps: seq<Op>, t: Tensors): Handled
    decreases |steps|
  {
    if steps == [] then Handled(part, if h.Some? then Activation(h.value) else Raised)
    else
      var r := Exec(m, spec, part, Single(steps[0]), OpTensors(steps[0], t.ids, h, t.cp));
      if r.reply.Activation? then OneByOne(m, spec, r.part, Some(r.reply.h), steps[1..], t) else r
  }

  function BlocksOf(part: Option<JobCaches>): map<string, Cache> {
    if part.Some? && part.value.TorchJob? then part.value.blocks else map[]
  }

  lemma SingleEmbed(m: Model, spec: NodeSpec, part: Option<JobCaches>, u: Tensors)
    requires !spec.mlx && (part.Some? ==> part.value.TorchJob?)
    ensures Exec(m, spec, part, Single(EmbedOp), u)
         == Handled(part, if spec.embed && u.ids.Some? then Activation(Embed(m, u.ids.value)) else Raised)
  {
    assert [EmbedOp][1..] == [];
    if spec.embed && u.ids.Some? {
      var out := Embed(m, u.ids.value);
      var job := JobOr(m, spec, part);
      assert RunSteps(m, spec, true, job, Some(out), [], u) == Outcome(job, Activation(out));
    }
  }

  lemma SingleDecode(m: Model, spec: NodeSpec, part: Option<JobCaches>, key: string, u: Tensors)
    requires !spec.mlx && (part.Some? ==> part.value.TorchJob?)
    ensures var s := Decode(m, spec, JobOr(m, spec, part), key, u.hidden, u.cp);
      && s.job.TorchJob?
      && Exec(m, spec, part, Single(DecodeOp(key)), u)
           == Handled(Some(s.job), if s.out.Some? then Activation(s.out.value) else Raised)
  {
    hide RunTable;
    var steps := [DecodeOp(key)];
    assert steps[1..] == [];
    var s := Decode(m, spec, JobOr(m, spec, part), key, u.hidden, u.cp);
    if s.out.Some? {
      assert RunSteps(m, spec, true, s.job, s.out, [], u) == Outcome(s.job, Activation(s.out.value));
    }
  }

  /** On a torch worker the steps of one message do exactly what one message per step does: the same
      reply and the same block caches, whatever the steps, also when one of them raises. */
  lemma {:induction false} ChainIsOneByOne(m: Model, spec: NodeSpec, part: Option<JobCaches>, h: Option<seq<Hidden>>,
                                           steps: seq<Op>, t: Tensors)
    requires !spec.mlx && (part.Some? ==> part.value.TorchJob?)
    requires h.Some? || (steps != [] && steps[0] != HeadOp)
    ensures var fused := RunSteps(m, spec, false, JobOr(m, spec, part), h, steps, t);
      var single := OneByOne(m, spec, part, if h.Some? then h else t.hidden, steps, t);
      single.reply == fused.reply && BlocksOf(single.part) == BlocksOf(Some(fused.job))
    decreases |steps|
  {
    hide Decode;
    if steps != [] {
      assert [steps[0]][1..] == [];
      var job := JobOr(m, spec, part);
      match steps[0]
      case EmbedOp =>
        SingleEmbed(m, spec, part, OpTensors(EmbedOp, t.ids, if h.Some? then h else t.hidden, t.cp));
        if spec.embed && t.ids.Some? {
          ChainIsOneByOne(m, spec, part, Some(Embed(m, t.ids.value)), steps[1..], t);
        }
      case DecodeOp(key) =>
        var s := Decode(m, spec, job, key, if h.Some? then h else t.hidden, t.cp);
        SingleDecode(m, spec, part, key, OpTensors(DecodeOp(key), t.ids, if h.Some? then h else t.hidden, t.cp));
        if s.out.Some? {
          ChainIsOneByOne(m, spec, Some(s.job), s.out, steps[1..], t);
        }
      case HeadOp =>
    }
  }

  /** The messages that leaves out: no op at all, or the head first with no activation at hand. There the
      fused message always raises, so both ways agree only where the single ones have nothing to answer. */
  lemma WithoutActivation(m: Model, spec: NodeSpec, part: Option<JobCaches>, steps: seq<Op>, t: Tensors)
    requires !spec.mlx && (part.Some? ==> part.value.TorchJob?)
    requires steps == [] || steps[0] == HeadOp
    ensures var fused := RunSteps(m, spec, false, JobOr(m, spec, part), None, steps, t);
      var single := OneByOne(m, spec, part, t.hidden, steps, t);
      && BlocksOf(single.part) == BlocksOf(Some(fused.job))
      && (single.reply == fused.reply <==>
            if steps == [] then t.hidden.None? else !spec.head || t.hidden.None? || t.hidden.value == [])
  {
  }
}
