// The remote workers as one request sees them: every call may fail before or after it took effect,
// and between calls other requests, new connections and departures change everything except the
// caches of the job being served. Those a worker only loses by restarting: behind a connection that
// ends the connection, behind a url the next process answers in its place, with nothing kept.
module Workers {
  import opened Text
  import opened Transformer
  import opened BlockSpec
  import opened Blocks
  import opened Executor
  import opened Relay
  import Routing

  datatype Worker = Worker(spec: NodeSpec, jobs: map<string, JobCaches>)

  function Part(w: Worker, job: string): Option<JobCaches> {
    if job in w.jobs then Some(w.jobs[job]) else None
  }

  function WithPart(w: Worker, job: string, part: Option<JobCaches>): Worker {
    match part
    case Some(c) => w.(jobs := w.jobs[job := c])
    case None => w.(jobs := map j | j in w.jobs && j != job :: w.jobs[j])
  }

  function JobName(prefix: string, k: nat): string {
    prefix + Print(k)
  }

  /** job is a name that has not been handed out yet: the prefix followed by a number from next on. */
  predicate Reserved(job: string, prefix: string, next: nat) {
    && |job| > |prefix| && job[..|prefix|] == prefix
    && AllDigits(job[|prefix|..]) && ToNat(job[|prefix|..]) >= next
  }

  lemma LaterNamesAreReserved(prefix: string, k: nat, next: nat)
    ensures Reserved(JobName(prefix, k), prefix, next) <==> next <= k
  {
    var job := JobName(prefix, k);
    assert job[..|prefix|] == prefix && job[|prefix|..] == Print(k);
    ToNatPrint(k);
  }

  lemma ReservedShrink(workers: map<string, Worker>, prefix: string, next: nat)
    requires NoReserved(workers, prefix, next)
    ensures NoReserved(workers, prefix, next + 1)
  {
    forall id, job | id in workers && job in workers[id].jobs
      ensures !Reserved(job, prefix, next + 1)
    {
      assert !Reserved(job, prefix, next);
    }
  }

  /** No worker keeps anything under a name that has not been handed out. */
  predicate NoReserved(workers: map<string, Worker>, prefix: string, next: nat) {
    forall id, job | id in workers && job in workers[id].jobs :: !Reserved(job, prefix, next)
  }

  predicate AllHonest(m: Model, workers: map<string, Worker>) {
    forall id | id in workers :: Honest(workers[id].spec, m.numLayers)
  }

  predicate JobsWellFormed(m: Model, workers: map<string, Worker>) {
    forall id, job | id in workers && job in workers[id].jobs :: WellFormed(m, workers[id].spec, workers[id].jobs[job])
  }

  /** Nobody else touches what is kept for the job. */
  predicate KeepsJob(before: map<string, Worker>, after: map<string, Worker>, job: string) {
    forall id | id in before ::
      id in after && after[id].spec == before[id].spec && Part(after[id], job) == Part(before[id], job)
  }

  /** Nobody who was there is forgotten or changes what it serves. */
  predicate Kept(before: map<string, Worker>, after: map<string, Worker>) {
    forall id | id in before :: id in after && after[id].spec == before[id].spec
  }

  /** One line of what is listed at a moment: a live connection, or a peer in the gossip registry. */
  datatype Listing = Listing(id: string, stages: Routing.Stages, caps: set<string>, load: int, reputation: real)

  /** Only stages that the worker can serve are advertised. */
  predicate Truthful(stages: Routing.Stages, spec: NodeSpec) {
    && (stages.embed ==> spec.embed)
    && (stages.head ==> spec.head)
    && forall k | k in stages.decoders :: k in spec.prepared
  }

  predicate TruthfulEntries(entries: seq<Routing.Entry>, workers: map<string, Worker>) {
    forall e | e in entries :: e.url in workers && Truthful(e.stages, workers[e.url].spec)
  }

  predicate ListedRight(listed: seq<Listing>, workers: map<string, Worker>) {
    && (forall l | l in listed :: l.id in workers && Truthful(l.stages, workers[l.id].spec))
    && DistinctIds(listed)
  }

  predicate DistinctIds(listed: seq<Listing>) {
    forall i, j | 0 <= i < j < |listed| :: listed[i].id != listed[j].id
  }

  function AsEntries(listed: seq<Listing>): (entries: seq<Routing.Entry>)
    ensures |entries| == |listed|
    ensures forall i | 0 <= i < |listed| :: entries[i] == Routing.Entry(listed[i].id, listed[i].stages)
  {
    seq(|listed|, i requires 0 <= i < |listed| => Routing.Entry(listed[i].id, listed[i].stages))
  }

  /** The dictionary id -> stages of what is listed and not excluded. */
  function EntriesFor(listed: seq<Listing>, excluded: set<string>): (entries: seq<Routing.Entry>) {
    Routing.Items(AsEntries(listed), excluded)
  }

  lemma ListedIsTruthful(listed: seq<Listing>, excluded: set<string>, workers: map<string, Worker>)
    requires ListedRight(listed, workers)
    ensures TruthfulEntries(EntriesFor(listed, excluded), workers)
  {
    hide Truthful;
    forall e | e in EntriesFor(listed, excluded)
      ensures e.url in workers && Truthful(e.stages, workers[e.url].spec)
    {
      assert e in AsEntries(listed);
      var i :| 0 <= i < |listed| && AsEntries(listed)[i] == e;
      assert listed[i] in listed;
    }
  }

  /** The same, except that some workers have lost it all. */
  predicate DropsJob(before: map<string, Worker>, after: map<string, Worker>, job: string) {
    forall id | id in before ::
      && id in after && after[id].spec == before[id].spec
      && (Part(after[id], job) == Part(before[id], job) || Part(after[id], job) == None)
  }

  lemma KeptOn(before: map<string, Worker>, mid: map<string, Worker>, after: map<string, Worker>)
    requires Kept(before, mid) && Kept(mid, after)
    ensures Kept(before, after)
  {
  }

  lemma KeptKeys(before: map<string, Worker>, after: map<string, Worker>)
    requires Kept(before, after)
    ensures before.Keys <= after.Keys
  {
  }

  lemma KeptNow(workers: map<string, Worker>)
    ensures Kept(workers, workers)
  {
  }

  lemma KeepsJobTransitive(a: map<string, Worker>, b: map<string, Worker>, c: map<string, Worker>, id: string,
                           w: Worker, job: string)
    requires KeepsJob(a, b, job) && id in b && w.spec == b[id].spec && KeepsJob(b[id := w], c, job)
    ensures Kept(a, c)
    ensures forall i | i in a && i != id :: Part(c[i], job) == Part(a[i], job)
    ensures Part(c[id], job) == Part(w, job)
  {
    hide Part;
    assert id in b[id := w];
    forall i | i in a
      ensures i in c && c[i].spec == a[i].spec && (i != id ==> Part(c[i], job) == Part(a[i], job))
    {
      assert i in b && i in b[id := w];
    }
  }

  class Swarm {
    const model: Model
    const prefix: string                // job names are this prefix and a counter
    const shared: bool                  // other requests draw job names from the same counter
    const urls: bool                    // identities are urls, which a restarted process takes up again
    var workers: map<string, Worker>    // every connection accepted so far, or every peer url (up or not)
    var listed: seq<Listing>            // the live connections, or the gossip registry, right now
    var next: nat                       // the next counter value to hand out
    ghost var faults: nat               // hops lost and workers restarted so far
    ghost var restarts: nat             // times workers came back without the caches of the job in service
    ghost var shown: set<seq<Listing>>  // everything listed so far
    ghost var calls: nat                // messages sent to workers
    ghost var picks: nat                // tokens picked by a worker and received
    ghost var waits: nat                // times a request waited for better coverage
    ghost var readings: nat             // times the listing was read over the network
    ghost var lastRead: Option<seq<Listing>>  // what the last such read gave; None if it failed
    ghost var seen: Option<seq<Listing>>      // what the last read that showed anything gave

    ghost predicate Valid()
      reads this
    {
      && AllHonest(model, workers) && JobsWellFormed(model, workers) && NoReserved(workers, prefix, next)
      && ListedRight(listed, workers) && listed in shown && (seen.Some? ==> seen.value in shown)
    }

    constructor (model: Model, prefix: string, shared: bool, urls: bool, workers: map<string, Worker>,
                 listed: seq<Listing>, next: nat)
      requires AllHonest(model, workers) && JobsWellFormed(model, workers) && NoReserved(workers, prefix, next)
      requires ListedRight(listed, workers)
      ensures Valid() && this.model == model && this.prefix == prefix && this.shared == shared && this.urls == urls
      ensures this.workers == workers && this.listed == listed && this.next == next && faults == restarts == 0
      ensures calls == picks == waits == readings == 0 && lastRead == None && seen == None
    {
      this.model, this.prefix, this.shared, this.urls := model, prefix, shared, urls;
      this.workers, this.listed, this.next := workers, listed, next;
      faults, restarts, shown := 0, 0, {listed};
      calls, picks, waits, readings, lastRead, seen := 0, 0, 0, 0, None, None;
    }

    /** Anything the rest of the world may do while the request waits, restarts included. */
    method Elapse(job: string)
      requires Valid()
      modifies `workers, `listed, `next, `faults, `restarts, `shown
      ensures Valid() && old(next) <= next && (!shared ==> next == old(next))
      ensures Kept(old(workers), workers) && old(shown) <= shown
      ensures old(restarts) <= restarts && old(faults) <= faults && (!urls ==> restarts == old(restarts))
      ensures if restarts == old(restarts) then KeepsJob(old(workers), workers, job) && faults == old(faults)
              else faults > old(faults)
    {
      var w: map<string, Worker> := *;
      var n: nat := *;
      var l: seq<Listing> := *;
      if AllHonest(model, w) && JobsWellFormed(model, w) && NoReserved(w, prefix, n) && ListedRight(l, w)
         && next <= n && (shared || n == next) {
        if KeepsJob(workers, w, job) {
          workers, listed, next := w, l, n;
          shown := shown + {l};
        } else if urls && DropsJob(workers, w, job) {
          workers, listed, next := w, l, n;
          shown := shown + {l};
          faults, restarts := faults + 1, restarts + 1;
        }
      }
    }

    /** The same while a request waits for coverage: no job is in service then, and nothing to lose. */
    method Idle()
      requires Valid()
      modifies `workers, `listed, `next, `shown, `waits
      ensures waits == old(waits) + 1 && Valid() && old(next) <= next && (!shared ==> next == old(next))
      ensures Kept(old(workers), workers) && old(shown) <= shown
    {
      waits := waits + 1;
      var w: map<string, Worker> := *;
      var n: nat := *;
      var l: seq<Listing> := *;
      if AllHonest(model, w) && JobsWellFormed(model, w) && NoReserved(w, prefix, n) && ListedRight(l, w)
         && Kept(workers, w) && next <= n && (shared || n == next) {
        workers, listed, next := w, l, n;
        shown := shown + {l};
      }
    }

    /** The listing read over the network, which may fail. */
    method ReadListing() returns (r: Option<seq<Listing>>)
      requires Valid()
      modifies `readings, `lastRead, `seen
      ensures Valid() && readings == old(readings) + 1 && lastRead == r && (r.Some? ==> r.value == listed)
      ensures seen == if r.Some? && listed != [] then Some(listed) else old(seen)
    {
      var unreadable: bool := *;
      r := if unreadable then None else Some(listed);
      readings, lastRead := readings + 1, r;
      seen := if r.Some? && listed != [] then r else seen;
    }

    /** A name no worker has seen. */
    method NextJob() returns (job: string)
      requires Valid()
      modifies `next
      ensures Valid() && next == old(next) + 1 && job == JobName(prefix, old(next))
      ensures forall id | id in workers :: Part(workers[id], job) == None
    {
      job := JobName(prefix, next);
      LaterNamesAreReserved(prefix, next, next);
      ReservedShrink(workers, prefix, next);
      next := next + 1;
    }

    /** One request to one worker. It fails by a fault, at whatever point, or by an exception in the worker;
        otherwise the worker handled it, starting from what it kept unless it restarted. */
    method Call(id: string, job: string, req: Request, t: Tensors) returns (r: Option<Reply>)
      requires Valid() && !Reserved(job, prefix, next)
      modifies `workers, `listed, `next, `faults, `restarts, `shown, `calls, `picks
      ensures Valid() && old(next) <= next && (!shared ==> next == old(next)) && !Reserved(job, prefix, next)
      ensures calls == old(calls) + 1 && picks == old(picks) + if r.Some? && r.value.Picked? then 1 else 0
      ensures Kept(old(workers), workers) && old(faults) <= faults && old(shown) <= shown
      ensures old(restarts) <= restarts && (!urls ==> restarts == old(restarts))
      ensures restarts > old(restarts) ==> faults > old(faults)
      ensures restarts == old(restarts) ==>
        forall w | w in old(workers) && w != id :: Part(workers[w], job) == Part(old(workers)[w], job)
      ensures r.Some? && restarts == old(restarts) ==>
        && id in old(workers)
        && var done := Exec(model, old(workers)[id].spec, Part(old(workers)[id], job), req, t);
           r.value == done.reply && Part(workers[id], job) == done.part
      ensures r.Some? ==>
        && id in old(workers) && !r.value.Raised?
        && exists part :: r.value == Exec(model, old(workers)[id].spec, part, req, t).reply
      ensures r.None? && faults == old(faults) && id in old(workers) ==>
        Exec(model, old(workers)[id].spec, Part(old(workers)[id], job), req, t).reply.Raised?
    {
      hide Exec, AllHonest, JobsWellFormed, NoReserved, ListedRight, Reserved;
      calls := calls + 1;
      if id !in workers {
        return None;
      }
      Elapse(job);
      StillIssued(job, prefix, old(next), next);
      PartIsWellFormed(model, workers, id, job);
      ghost var first, issued := workers, next;
      var lost: bool := *;
      if lost {
        faults := faults + 1;
        return None;
      }
      var w := workers[id];
      var part := Part(w, job);
      var done := Exec(model, w.spec, part, req, t);
      ExecKeepsWellFormed(model, w.spec, part, req, t);
      var w' := WithPart(w, job, done.part);
      Stored(model, prefix, next, workers, listed, id, job, done.part);
      workers := workers[id := w'];
      ghost var stored := workers;
      Elapse(job);
      StillIssued(job, prefix, issued, next);
      KeptThrough(old(workers), first, stored, workers, id);
      if restarts == old(restarts) {
        KeepsJobTransitive(old(workers), first, workers, id, w', job);
      }
      if done.reply.Raised? {
        return None;
      }
      lost := *;
      if lost {
        faults := faults + 1;
        return None;
      }
      picks := picks + if done.reply.Picked? then 1 else 0;
      return Some(done.reply);
    }
  }

  lemma KeptThrough(a: map<string, Worker>, b: map<string, Worker>, c: map<string, Worker>, d: map<string, Worker>,
                    id: string)
    requires Kept(a, b) && Kept(c, d) && id in b && id in c && c == b[id := c[id]] && c[id].spec == b[id].spec
    ensures Kept(a, d)
  {
  }

  lemma Stored(m: Model, prefix: string, next: nat, workers: map<string, Worker>, listed: seq<Listing>, id: string,
               job: string, part: Option<JobCaches>)
    requires id in workers && !Reserved(job, prefix, next) && ListedRight(listed, workers)
    requires AllHonest(m, workers) && JobsWellFormed(m, workers) && NoReserved(workers, prefix, next)
    requires part.Some? ==> WellFormed(m, workers[id].spec, part.value)
    ensures var w := WithPart(workers[id], job, part);
      && w.spec == workers[id].spec && Part(w, job) == part
      && AllHonest(m, workers[id := w]) && JobsWellFormed(m, workers[id := w])
      && NoReserved(workers[id := w], prefix, next) && ListedRight(listed, workers[id := w])
  {
    hide Reserved, Honest, WellFormed, Truthful;
  }

  lemma StillIssued(job: string, prefix: string, next: nat, later: nat)
    requires !Reserved(job, prefix, next) && next <= later
    ensures !Reserved(job, prefix, later)
  {
  }

  lemma PartIsWellFormed(m: Model, workers: map<string, Worker>, id: string, job: string)
    requires JobsWellFormed(m, workers) && id in workers
    ensures var part := Part(workers[id], job); part.Some? ==> WellFormed(m, workers[id].spec, part.value)
  {
    hide WellFormed;
  }

  lemma {:induction false} StepsKeepWellFormed(m: Model, spec: NodeSpec, wire: bool, job: JobCaches,
                                               h: Option<seq<Hidden>>, steps: seq<Op>, t: Tensors)
    requires WellFormed(m, spec, job)
    ensures WellFormed(m, spec, RunSteps(m, spec, wire, job, h, steps, t).job)
    decreases |steps|
  {
    hide MlxLayers, RunTable, ParseKey;
    if steps != [] && !steps[0].HeadOp? {
      if steps[0].EmbedOp? {
        if spec.embed && t.ids.Some? {
          StepsKeepWellFormed(m, spec, wire, job, Some(Embed(m, t.ids.value)), steps[1..], t);
        }
      } else {
        var s := Decode(m, spec, job, steps[0].key, if h.Some? then h else t.hidden, t.cp);
        StepsKeepWellFormed(m, spec, wire, s.job, s.out, steps[1..], t);
      }
    }
  }

  lemma ExecKeepsWellFormed(m: Model, spec: NodeSpec, part: Option<JobCaches>, req: Request, t: Tensors)
    requires part.Some? ==> WellFormed(m, spec, part.value)
    ensures var o := Exec(m, spec, part, req, t); o.part.Some? ==> WellFormed(m, spec, o.part.value)
  {
    hide RunSteps;
    var job := JobOr(m, spec, part);
    var steps := match req case Single(op) => [op] case Chain(s) => s case _ => [];
    if job.MlxJob? {
      var aligned := MlxAlign(m, job.layers, steps, t.cp);
      if aligned.Some? {
        StepsKeepWellFormed(m, spec, true, MlxJob(aligned.value), None, steps, t);
      }
    } else {
      StepsKeepWellFormed(m, spec, req.Single?, job, None, steps, t);
    }
  }
}
