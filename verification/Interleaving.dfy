// Requests served at the same time over the same workers and the same log: what one of them sees does
// not depend on what the others do, in any interleaving of their steps.
module Interleaving {
  import opened Text
  import opened Transformer
  import opened Executor
  import opened Relay
  import opened Workers
  import Log = JobStore

  datatype World = World(workers: map<string, Worker>, rows: map<string, Log.Row>)

  datatype Change = Create(row: Log.Row) | Append(token: int, position: nat) | SetTo(status: Log.Status)
                  | Finish(result: string, reason: string) | Fail(error: string)

  /** One step of some request: a hop for one of its jobs that took effect, or a write to its row that arrived. */
  datatype Step = Hop(job: string, id: string, req: Request, t: Tensors) | Write(log: string, change: Change)

  function Name(step: Step): string {
    match step case Hop(job, _, _, _) => job case Write(log, _) => log
  }

  function Changed(row: Log.Row, change: Change): Log.Row {
    match change
    case Create(created) => created
    case Append(token, position) =>
      var tokens := Log.Appended(row.tokens, token, position);
      row.(tokens := tokens, position := |tokens|)
    case SetTo(status) => row.(status := status)
    case Finish(result, reason) => row.(status := Log.DONE, result := Some(result), finishReason := Some(reason))
    case Fail(error) => row.(status := Log.FAILED, error := Some(error))
  }

  function Do(m: Model, w: World, step: Step): World {
    match step
    case Hop(job, id, req, t) =>
      if id !in w.workers then w
      else
        var done := Exec(m, w.workers[id].spec, Part(w.workers[id], job), req, t);
        w.(workers := w.workers[id := WithPart(w.workers[id], job, done.part)])
    case Write(log, change) =>
      if change.Create? then w.(rows := w.rows[log := change.row])
      else if log !in w.rows then w
      else w.(rows := w.rows[log := Changed(w.rows[log], change)])
  }

  function DoAll(m: Model, w: World, steps: seq<Step>): World {
    if steps == [] then w else Do(m, DoAll(m, w, steps[..|steps| - 1]), steps[|steps| - 1])
  }

  /** The replies a request gets: those of the hops for its own names. */
  function Replies(m: Model, w: World, steps: seq<Step>, mine: set<string>): seq<Option<Reply>> {
    if steps == [] then []
    else
      var n := |steps| - 1;
      var before := Replies(m, w, steps[..n], mine);
      if steps[n].Hop? && steps[n].job in mine then before + [Answer(m, DoAll(m, w, steps[..n]), steps[n])] else before
  }

  function Answer(m: Model, w: World, step: Step): Option<Reply>
    requires step.Hop?
  {
    if step.id !in w.workers then None
    else Some(Exec(m, w.workers[step.id].spec, Part(w.workers[step.id], step.job), step.req, step.t).reply)
  }

  /** The steps of one request, in the order they happened. */
  function Mine(steps: seq<Step>, mine: set<string>): seq<Step> {
    if steps == [] then []
    else
      var n := |steps| - 1;
      Mine(steps[..n], mine) + (if Name(steps[n]) in mine then [steps[n]] else [])
  }

  /** Two worlds look the same to the request with these job and log names. */
  ghost predicate Alike(a: World, b: World, mine: set<string>) {
    && a.workers.Keys == b.workers.Keys
    && (forall id | id in a.workers :: WorkerAlike(a.workers[id], b.workers[id], mine))
    && (forall j | j in mine :: RowAlike(a, b, j))
  }

  predicate WorkerAlike(v: Worker, w: Worker, mine: set<string>) {
    v.spec == w.spec && forall j | j in mine :: Part(v, j) == Part(w, j)
  }

  predicate RowAlike(a: World, b: World, j: string) {
    (j in a.rows <==> j in b.rows) && (j in a.rows ==> a.rows[j] == b.rows[j])
  }

  lemma StoredAlike(v: Worker, w: Worker, mine: set<string>, job: string, part: Option<JobCaches>)
    requires WorkerAlike(v, w, mine)
    ensures WorkerAlike(WithPart(v, job, part), WithPart(w, job, part), mine)
    ensures job !in mine ==> WorkerAlike(WithPart(v, job, part), w, mine)
  {
  }

  lemma OwnHop(m: Model, a: World, b: World, step: Step, mine: set<string>)
    requires Alike(a, b, mine) && step.Hop? && step.job in mine
    ensures Alike(Do(m, a, step), Do(m, b, step), mine) && Answer(m, a, step) == Answer(m, b, step)
  {
    hide Exec, Part, WithPart;
    RowsKept(m, a, b, step, mine);
    if step.id in a.workers {
      var v, w := a.workers[step.id], b.workers[step.id];
      assert WorkerAlike(v, w, mine) && Part(v, step.job) == Part(w, step.job);
      StoredAlike(v, w, mine, step.job, Exec(m, v.spec, Part(v, step.job), step.req, step.t).part);
      hide WorkerAlike;
    }
  }

  lemma RowsKept(m: Model, a: World, b: World, step: Step, mine: set<string>)
    requires step.Hop? && forall j | j in mine :: RowAlike(a, b, j)
    ensures forall j | j in mine :: RowAlike(Do(m, a, step), Do(m, b, step), j)
  {
    hide Exec, Part, WithPart;
    forall j | j in mine
      ensures RowAlike(Do(m, a, step), Do(m, b, step), j)
    {
      assert RowAlike(a, b, j);
    }
  }

  lemma OwnWrite(m: Model, a: World, b: World, step: Step, mine: set<string>)
    requires Alike(a, b, mine) && step.Write? && step.log in mine
    ensures Alike(Do(m, a, step), Do(m, b, step), mine)
  {
    hide Exec, Changed, WorkerAlike;
    assert RowAlike(a, b, step.log);
    var c, d := Do(m, a, step), Do(m, b, step);
    forall j | j in mine
      ensures RowAlike(c, d, j)
    {
      assert RowAlike(a, b, j);
    }
  }

  lemma OwnStep(m: Model, a: World, b: World, step: Step, mine: set<string>)
    requires Alike(a, b, mine) && Name(step) in mine
    ensures Alike(Do(m, a, step), Do(m, b, step), mine)
    ensures step.Hop? ==> Answer(m, a, step) == Answer(m, b, step)
  {
    hide Alike, Do, Answer;
    if step.Hop? {
      OwnHop(m, a, b, step, mine);
    } else {
      OwnWrite(m, a, b, step, mine);
    }
  }

  lemma OthersStep(m: Model, a: World, b: World, step: Step, mine: set<string>)
    requires Alike(a, b, mine) && Name(step) !in mine
    ensures Alike(Do(m, a, step), b, mine)
  {
    hide Exec, Changed, WithPart, WorkerAlike;
    if step.Hop? && step.id in a.workers {
      var v := a.workers[step.id];
      StoredAlike(v, b.workers[step.id], mine, step.job, Exec(m, v.spec, Part(v, step.job), step.req, step.t).part);
    }
    forall j | j in mine
      ensures RowAlike(Do(m, a, step), b, j)
    {
      assert RowAlike(a, b, j);
    }
  }

  lemma MinePush(steps: seq<Step>, step: Step, mine: set<string>)
    ensures Mine(steps + [step], mine) == Mine(steps, mine) + (if Name(step) in mine then [step] else [])
  {
    assert (steps + [step])[..|steps|] == steps;
  }

  lemma DoAllPush(m: Model, w: World, steps: seq<Step>, step: Step)
    ensures DoAll(m, w, steps + [step]) == Do(m, DoAll(m, w, steps), step)
  {
    hide Do;
    assert (steps + [step])[..|steps|] == steps;
  }

  lemma RepliesPush(m: Model, w: World, steps: seq<Step>, step: Step, mine: set<string>)
    ensures Replies(m, w, steps + [step], mine) == Replies(m, w, steps, mine)
              + (if step.Hop? && step.job in mine then [Answer(m, DoAll(m, w, steps), step)] else [])
  {
    hide Answer;
    assert (steps + [step])[..|steps|] == steps;
  }

  /** In any interleaving of any requests' steps, one request gets the replies it would get alone, and its
      caches and its row end up as they would alone. */
  lemma {:induction false} OthersDoNotMatter(m: Model, w: World, steps: seq<Step>, mine: set<string>)
    ensures Alike(DoAll(m, w, steps), DoAll(m, w, Mine(steps, mine)), mine)
    ensures Replies(m, w, steps, mine) == Replies(m, w, Mine(steps, mine), mine)
    decreases |steps|
  {
    hide Do, Alike, Answer, DoAll, Replies, Mine;
    if steps == [] {
      NothingDone(m, w, mine);
    } else {
      var n, before := |steps| - 1, steps[..|steps| - 1];
      var step := steps[n];
      assert before + [step] == steps;
      OthersDoNotMatter(m, w, before, mine);
      MinePush(before, step, mine);
      DoAllPush(m, w, before, step);
      RepliesPush(m, w, before, step, mine);
      if Name(step) in mine {
        DoAllPush(m, w, Mine(before, mine), step);
        RepliesPush(m, w, Mine(before, mine), step, mine);
        OwnStep(m, DoAll(m, w, before), DoAll(m, w, Mine(before, mine)), step, mine);
      } else {
        OthersStep(m, DoAll(m, w, before), DoAll(m, w, Mine(before, mine)), step, mine);
        assert Mine(before, mine) + [] == Mine(before, mine);
      }
    }
  }

  lemma NothingDone(m: Model, w: World, mine: set<string>)
    ensures Mine([], mine) == [] && Replies(m, w, [], mine) == [] && DoAll(m, w, []) == w && Alike(w, w, mine)
  {
  }

  /** Two requests that draw their names from one counter, at different times, have different names. */
  lemma NamesApart(prefix: string, a: nat, b: nat)
    requires a != b
    ensures JobName(prefix, a) != JobName(prefix, b)
  {
    if JobName(prefix, a) == JobName(prefix, b) {
      PrefixedPrintInjective(prefix, a, b);
    }
  }

  /** A hop of another request is one of the changes a waiting request is proved against. */
  lemma OthersHopIsElapse(m: Model, w: World, listed: seq<Listing>, prefix: string, next: nat, hop: Step, job: string)
    requires hop.Hop? && hop.job != job && !Reserved(hop.job, prefix, next)
    requires AllHonest(m, w.workers) && JobsWellFormed(m, w.workers) && NoReserved(w.workers, prefix, next)
    requires ListedRight(listed, w.workers)
    ensures var after := Do(m, w, hop).workers;
      && KeepsJob(w.workers, after, job)
      && AllHonest(m, after) && JobsWellFormed(m, after) && NoReserved(after, prefix, next)
      && ListedRight(listed, after)
  {
    hide Exec, AllHonest, JobsWellFormed, NoReserved, ListedRight, Reserved;
    if hop.id in w.workers {
      var worker := w.workers[hop.id];
      PartIsWellFormed(m, w.workers, hop.id, hop.job);
      ExecKeepsWellFormed(m, worker.spec, Part(worker, hop.job), hop.req, hop.t);
      var done := Exec(m, worker.spec, Part(worker, hop.job), hop.req, hop.t);
      Stored(m, prefix, next, w.workers, listed, hop.id, hop.job, done.part);
    }
  }
}
