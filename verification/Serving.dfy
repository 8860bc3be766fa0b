// One message of a decoding round sent to a remote worker, with everything a request may rely on
// while other requests, arrivals and departures go on around it.
module Serving {
  import opened Text
  import opened Transformer
  import opened BlockSpec
  import opened Executor
  import opened Relay
  import opened Workers
  import Routing
  import RoutingProofs

  /** The worker chosen for each op of a route serves it. */
  predicate Able(workers: map<string, Worker>, route: Route) {
    forall i | 0 <= i < |Flat(route)| :: AbleAt(workers, Flat(route)[i])
  }

  predicate AbleAt(workers: map<string, Worker>, p: Placed) {
    p.id in workers && Provides(workers[p.id].spec, p.op)
  }

  lemma AbleStays(before: map<string, Worker>, after: map<string, Worker>, route: Route)
    requires Kept(before, after) && Able(before, route)
    ensures Able(after, route)
  {
    hide Flat, Provides;
    forall i | 0 <= i < |Flat(route)|
      ensures AbleAt(after, Flat(route)[i])
    {
      assert AbleAt(before, Flat(route)[i]);
    }
  }

  lemma StillExcused(before: map<string, Worker>, mid: map<string, Worker>, route: Route)
    requires Kept(before, mid)
    ensures !Able(mid, route) ==> !Able(before, route)
  {
    if Able(before, route) {
      AbleStays(before, mid, route);
    }
  }

  /** What every step of a request, waiting included, leaves as it was: known workers stay known and keep
      what they serve. */
  twostate predicate Moved(s: Swarm)
    reads s
  {
    && Kept(old(s.workers), s.workers) && old(s.faults) <= s.faults && old(s.shown) <= s.shown
    && (!s.shared ==> s.next == old(s.next))
    && old(s.restarts) <= s.restarts && (!s.urls ==> s.restarts == old(s.restarts))
    && (s.restarts > old(s.restarts) ==> s.faults > old(s.faults))
  }

  /** And a step that neither waits nor reads the listing. */
  twostate predicate Onward(s: Swarm)
    reads s
  {
    && Moved(s) && s.waits == old(s.waits)
    && s.readings == old(s.readings) && s.lastRead == old(s.lastRead) && s.seen == old(s.seen)
  }

  /** Why a hop of the route may fail: a fault happened, or some worker does not serve its op. */
  twostate predicate Excused(s: Swarm, route: Route)
    reads s
  {
    s.faults > old(s.faults) || !Able(old(s.workers), route)
  }

  function RouteIds(r: Route): set<string> {
    {r.embed, r.head} + set i | 0 <= i < |r.decoders| :: r.decoders[i].id
  }

  lemma PlacedIdsAreRouteIds(r: Route, i: nat)
    requires i < |Flat(r)|
    ensures Flat(r)[i].id in RouteIds(r)
  {
    if 0 < i < |Flat(r)| - 1 {
      assert Flat(r)[i].id == r.decoders[i - 1].id;
    }
  }

  ghost predicate WorkerReady(d: Round, w: Worker, id: string, job: string, k: nat)
    requires d.Valid()
  {
    d.Ready(id, JobOr(d.m, w.spec, Part(w, job)), w.spec, k)
  }

  /** Every known worker holds for this job what the first k ops of the round leave it. */
  ghost predicate AllReady(workers: map<string, Worker>, known: set<string>, d: Round, job: string, k: nat)
    requires d.Valid()
  {
    forall id | id in known :: id in workers && WorkerReady(d, workers[id], id, job, k)
  }

  /** The swarm as one attempt sees it; r0 counts the restarts before the request. As long as there was
      none since, every known worker holds what it should. */
  ghost predicate InService(s: Swarm, known: set<string>, d: Round, job: string, k: nat, r0: nat)
    reads s
  {
    && s.Valid() && s.model == d.m && d.Valid()
    && !Reserved(job, s.prefix, s.next)
    && RouteIds(d.route) <= known <= s.workers.Keys
    && r0 <= s.restarts && (s.restarts == r0 ==> AllReady(s.workers, known, d, job, k))
  }

  lemma ServiceMeans(s: Swarm, known: set<string>, d: Round, job: string, k: nat, r0: nat)
    requires InService(s, known, d, job, k, r0)
    ensures s.Valid() && s.model == d.m && d.Valid() && !Reserved(job, s.prefix, s.next) && r0 <= s.restarts
  {
  }

  lemma AfterMessage(before: map<string, Worker>, after: map<string, Worker>, known: set<string>, d: Round,
                     id: string, job: string, req: Request, t: Tensors, reply: Reply, k: nat, k2: nat)
    requires d.Valid() && k < k2 <= d.Ops() && d.AllOn(id, k, k2) && Carried(d, req, k, k2)
    requires AllHonest(d.m, before) && AllReady(before, known, d, job, k) && id in known
    requires t.cp.Some? ==> Contiguous(t.cp.value, d.n) && d.n + |t.cp.value| == |d.all|
    requires k2 > 1 && 1 <= |d.route.decoders| && k <= |d.route.decoders| ==> t.cp.Some?
    requires Carries(d, None, t, k, true)
    requires forall w | w in before :: w in after && after[w].spec == before[w].spec
    requires forall w | w in before && w != id :: Part(after[w], job) == Part(before[w], job)
    requires Handled(Part(after[id], job), reply) == Exec(d.m, before[id].spec, Part(before[id], job), req, t)
    requires !reply.Raised?
    ensures AllReady(after, known, d, job, k2) && d.Answers(reply, k2)
  {
    hide Exec, Contiguous, Carries, Carried, Part, Round.Ready, Round.Answers, JobOr, Round.Valid, Honest;
    assert WorkerReady(d, before[id], id, job, k);
    MessageAnswers(d, id, Part(before[id], job), before[id].spec, req, t, k, k2);
    forall w | w in known
      ensures w in after && WorkerReady(d, after[w], w, job, k2)
    {
      if w != id {
        assert WorkerReady(d, before[w], w, job, k);
        OthersStayReady(d, w, JobOr(d.m, before[w].spec, Part(before[w], job)), before[w].spec, k, k2);
      }
    }
  }

  /** A worker that holds what it should raises only where it does not serve one of the ops. */
  lemma RaisedIsUnable(workers: map<string, Worker>, known: set<string>, d: Round, id: string, job: string,
                       req: Request, t: Tensors, k: nat, k2: nat)
    requires d.Valid() && k < k2 <= d.Ops() && d.AllOn(id, k, k2) && Carried(d, req, k, k2)
    requires AllHonest(d.m, workers) && AllReady(workers, known, d, job, k) && id in known
    requires t.cp.Some? ==> Contiguous(t.cp.value, d.n) && d.n + |t.cp.value| == |d.all|
    requires k2 > 1 && 1 <= |d.route.decoders| && k <= |d.route.decoders| ==> t.cp.Some?
    requires Carries(d, None, t, k, true)
    requires Exec(d.m, workers[id].spec, Part(workers[id], job), req, t).reply.Raised?
    ensures !Able(workers, d.route)
  {
    hide Exec, Contiguous, Carries, Carried, Part, Round.Ready, JobOr, Round.Valid, Honest, Flat, Provides;
    assert WorkerReady(d, workers[id], id, job, k);
    MessageAnswers(d, id, Part(workers[id], job), workers[id].spec, req, t, k, k2);
    RaisedAnswersNothing(d, k2);
    var i :| k <= i < k2 && !Provides(workers[id].spec, Flat(d.route)[i].op);
    assert Flat(d.route)[i].id == id && !AbleAt(workers, Flat(d.route)[i]);
  }

  lemma RaisedAnswersNothing(d: Round, k: nat)
    requires d.Valid() && 1 <= k <= d.Ops()
    ensures !d.Answers(Raised, k)
  {
    hide NextToken;
  }

  /** Sends ops k, ..., k2 - 1 of the round to their worker; None where the hop fails. */
  method Send(s: Swarm, id: string, job: string, req: Request, t: Tensors,
              ghost known: set<string>, ghost d: Round, ghost k: nat, ghost k2: nat, ghost r0: nat)
    returns (r: Option<Reply>)
    requires InService(s, known, d, job, k, r0)
    requires k < k2 <= d.Ops() && d.AllOn(id, k, k2) && Carried(d, req, k, k2)
    requires t.cp.Some? ==> Contiguous(t.cp.value, d.n) && d.n + |t.cp.value| == |d.all|
    requires k2 > 1 && 1 <= |d.route.decoders| && k <= |d.route.decoders| ==> t.cp.Some?
    requires s.restarts == r0 ==> Carries(d, None, t, k, true)
    modifies s
    ensures s.Valid() && !Reserved(job, s.prefix, s.next) && Onward(s)
    ensures r.Some? ==> InService(s, known, d, job, k2, r0) && (s.restarts == r0 ==> d.Answers(r.value, k2))
    ensures r.Some? && k2 == d.Ops() ==> r.value.Picked?
    ensures s.calls == old(s.calls) + 1 && s.picks == old(s.picks) + if r.Some? && k2 == d.Ops() then 1 else 0
    ensures r.None? ==> Excused(s, d.route) || old(s.restarts) > r0
  {
    hide Exec, Contiguous, Carries, Carried, Round.Ready, Round.Answers, JobOr, Round.Valid, Honest, Able;
    ghost var before := s.workers;
    assert id in known by {
      assert Flat(d.route)[k].id == id;
      PlacedIdsAreRouteIds(d.route, k);
    }
    r := s.Call(id, job, req, t);
    if r.Some? {
      if s.restarts == r0 {
        AfterMessage(before, s.workers, known, d, id, job, req, t, r.value, k, k2);
      }
      ghost var part :| r.value == Exec(s.model, before[id].spec, part, req, t).reply;
      CarriedShape(d, req, k, k2);
      ReplyShape(s.model, before[id].spec, part, req, t);
    } else if s.faults == old(s.faults) && old(s.restarts) == r0 {
      RaisedIsUnable(before, known, d, id, job, req, t, k, k2);
    }
  }

  lemma OpAt(d: Round, k: nat)
    requires k < d.Ops()
    ensures Flat(d.route)[k].op == EmbedOp <==> k == 0
    ensures Flat(d.route)[k].op == HeadOp <==> k == d.Ops() - 1
  {
    assert 0 < k < d.Ops() - 1 ==> Flat(d.route)[k].op == DecodeOp(d.route.decoders[k - 1].key);
  }

  lemma CarriedShape(d: Round, req: Request, k: nat, k2: nat)
    requires k < k2 <= d.Ops() && Carried(d, req, k, k2)
    ensures req.Single? || req.Chain?
    ensures k2 == d.Ops() <==> HeadOp in OpsOf(req)
  {
    var ops := OpsOf(req);
    hide Flat;
    forall i | 0 <= i < |ops|
      ensures ops[i] == HeadOp <==> k + i == d.Ops() - 1
    {
      OpAt(d, k + i);
    }
    assert k2 == d.Ops() ==> ops[k2 - 1 - k] == HeadOp;
  }

  /** A job name no worker has seen: every known worker is ready for the first op of a first round. */
  lemma FreshJobIsServed(s: Swarm, known: set<string>, d: Round, job: string)
    requires s.Valid() && s.model == d.m && d.Valid() && d.n == 0
    requires !Reserved(job, s.prefix, s.next)
    requires RouteIds(d.route) <= known <= s.workers.Keys
    requires forall id | id in s.workers :: Part(s.workers[id], job) == None
    ensures InService(s, known, d, job, 0, s.restarts)
  {
    hide Round.Ready, Round.Valid, EmptyJob;
    forall id | id in known
      ensures WorkerReady(d, s.workers[id], id, job, 0)
    {
      FreshIsReady(d, id, s.workers[id].spec);
    }
  }

  lemma NextRoundIsServed(s: Swarm, known: set<string>, d: Round, job: string, token: Token, r0: nat)
    requires InService(s, known, d, job, d.Ops(), r0)
    ensures InService(s, known, Round(d.m, d.route, d.all + [token], |d.all|), job, 0, r0)
  {
    hide Round.Ready, Tiles, JobOr;
    var e := Round(d.m, d.route, d.all + [token], |d.all|);
    if s.restarts == r0 {
      forall id | id in known
        ensures id in s.workers && WorkerReady(e, s.workers[id], id, job, 0)
      {
        assert WorkerReady(d, s.workers[id], id, job, d.Ops());
        NextRound(d, id, JobOr(d.m, s.workers[id].spec, Part(s.workers[id], job)), s.workers[id].spec, token);
      }
    }
  }

  /** No worker of the route keeps anything for the job. */
  predicate Cleared(workers: map<string, Worker>, ids: set<string>, job: string) {
    forall id | id in ids :: id in workers ==> Part(workers[id], job) == None
  }

  /** Drops the job's caches on one worker; a failure is ignored. */
  method EndAt(s: Swarm, id: string, job: string)
    requires s.Valid() && !Reserved(job, s.prefix, s.next) && id in s.workers
    modifies s
    ensures s.Valid() && !Reserved(job, s.prefix, s.next) && Onward(s)
    ensures s.calls == old(s.calls) + 1 && s.picks == old(s.picks)
    ensures s.faults == old(s.faults) ==> Part(s.workers[id], job) == None
    ensures s.faults == old(s.faults) ==>
      forall w | w in old(s.workers) && w != id :: Part(s.workers[w], job) == Part(old(s.workers)[w], job)
  {
    hide AllHonest, JobsWellFormed, NoReserved, ListedRight, Reserved, Part, Exec;
    ghost var before := s.workers;
    EndingDrops(s.model, before[id].spec, Part(before[id], job));
    var r := s.Call(id, job, EndJob, Tensors(None, None, None));
    if r.Some? {
      ghost var part :| r.value == Exec(s.model, before[id].spec, part, EndJob, Tensors(None, None, None)).reply;
      EndingDrops(s.model, before[id].spec, part);
    }
  }

  /** Drops the job's caches on every worker of the route; failures are ignored. */
  method EndEverywhere(s: Swarm, route: Route, job: string)
    requires s.Valid() && !Reserved(job, s.prefix, s.next) && RouteIds(route) <= s.workers.Keys
    modifies s
    ensures s.Valid() && Onward(s)
    ensures s.calls == old(s.calls) + |RouteIds(route)| && s.picks == old(s.picks)
    ensures s.faults == old(s.faults) ==> Cleared(s.workers, RouteIds(route), job)
  {
    hide AllHonest, JobsWellFormed, NoReserved, ListedRight, Reserved, RouteIds, Part;
    var todo := RouteIds(route);
    while todo != {}
      invariant s.Valid() && !Reserved(job, s.prefix, s.next) && Onward(s)
      invariant todo <= RouteIds(route) <= s.workers.Keys
      invariant s.calls + |todo| == old(s.calls) + |RouteIds(route)| && s.picks == old(s.picks)
      invariant s.faults == old(s.faults) ==> Cleared(s.workers, RouteIds(route) - todo, job)
      decreases |todo|
    {
      var id :| id in todo;
      EndAt(s, id, job);
      todo := todo - {id};
    }
  }

  lemma EndingDrops(m: Model, spec: NodeSpec, part: Option<JobCaches>)
    ensures Exec(m, spec, part, EndJob, Tensors(None, None, None)) == Handled(None, Done)
  {
  }

  // ---- One round ----

  datatype RoundResult = Sampled(token: Token) | HopFailed(id: string)

  /** What the coordinator carries after k ops: the activation, or after the head the token. */
  predicate Carrying(d: Round, k: nat, h: seq<Hidden>, head: Option<Token>)
    requires d.Valid() && k <= d.Ops()
  {
    if k == 0 then true
    else if k < d.Ops() then h == d.Act(k)
    else head == Some(NextToken(d.m, d.all))
  }

  /** The inputs a round starts from: the tokens not yet fed, at their absolute positions. */
  predicate FedFrom(d: Round, cur: seq<Token>, cp: seq<nat>)
    requires d.Valid()
  {
    cur == d.all[d.n..] && |cp| == |cur| && Contiguous(cp, d.n)
  }

  /** Sends one message and takes its answer in. */
  method Exchange(s: Swarm, id: string, job: string, req: Request, t: Tensors, h: seq<Hidden>,
                  ghost known: set<string>, ghost d: Round, ghost k: nat, ghost k2: nat, ghost r0: nat)
    returns (ok: bool, h': seq<Hidden>, head: Option<Token>)
    requires InService(s, known, d, job, k, r0)
    requires k < k2 <= d.Ops() && d.AllOn(id, k, k2) && Carried(d, req, k, k2)
    requires t.cp.Some? ==> Contiguous(t.cp.value, d.n) && d.n + |t.cp.value| == |d.all|
    requires k2 > 1 && 1 <= |d.route.decoders| && k <= |d.route.decoders| ==> t.cp.Some?
    requires s.restarts == r0 ==> Carries(d, None, t, k, true)
    modifies s
    ensures s.Valid() && !Reserved(job, s.prefix, s.next) && Onward(s)
    ensures ok ==> InService(s, known, d, job, k2, r0) && (s.restarts == r0 ==> Carrying(d, k2, h', head))
    ensures ok && k2 == d.Ops() ==> head.Some?
    ensures s.calls == old(s.calls) + 1 && s.picks == old(s.picks) + if ok && k2 == d.Ops() then 1 else 0
    ensures !ok ==> id in RouteIds(d.route) && (Excused(s, d.route) || old(s.restarts) > r0)
  {
    hide Able, Kept, Round.Valid, Round.Ready, Carries, Carried, Contiguous, NextToken, InService, AllReady, Round.Act;
    ServiceMeans(s, known, d, job, k, r0);
    ServedId(s, known, d, job, id, k, k2);
    var r := Send(s, id, job, req, t, known, d, k, k2, r0);
    h', head := h, None;
    ok := r.Some?;
    if ok {
      match r.value {
        case Activation(x) => h' := x;
        case Picked(token) => head := Some(token);
        case _ =>
      }
    }
  }

  lemma ServedId(s: Swarm, known: set<string>, d: Round, job: string, id: string, k: nat, k2: nat)
    requires d.Valid() && k < k2 <= d.Ops() && d.AllOn(id, k, k2)
    ensures id in RouteIds(d.route)
  {
    PlacedIdsAreRouteIds(d.route, k);
    assert Flat(d.route)[k].id == id;
  }

  /** One op of the round as a message of its own. */
  lemma OpOfRound(d: Round, op: Op, id: string, cur: seq<Token>, cp: seq<nat>, h: seq<Hidden>, k: nat)
    requires d.Valid() && FedFrom(d, cur, cp) && k < d.Ops() && Flat(d.route)[k] == Placed(op, id)
    ensures var t := OpTensors(op, Some(cur), Some(h), Some(cp));
      && d.AllOn(id, k, k + 1) && Carried(d, Single(op), k, k + 1)
      && (t.cp.Some? ==> Contiguous(t.cp.value, d.n) && d.n + |t.cp.value| == |d.all|)
      && (k + 1 > 1 && 1 <= |d.route.decoders| && k <= |d.route.decoders| ==> t.cp.Some?)
      && (Carrying(d, k, h, None) ==> Carries(d, None, t, k, true))
  {
    hide Contiguous, NextToken, Round.Act, Tiles;
    assert 0 < k < d.Ops() - 1 ==> op == DecodeOp(d.route.decoders[k - 1].key);
  }

  // ---- The answer a request is after ----

  datatype Finish = STOP | LENGTH

  /** What a greedy request on this model must return. */
  datatype Ask = Ask(m: Model, ids: seq<Token>, stop: set<Token>, maxNew: int) {
    function Answer(): seq<Token>
      requires ids != []
    {
      Expected(m, ids, stop, maxNew)
    }

    /** tokens is a correct beginning of the answer. */
    predicate Good(tokens: seq<Token>)
      requires ids != []
    {
      |tokens| <= Clip(maxNew) && tokens == Greedy(m, ids, |tokens|) && Clean(tokens, stop)
    }
  }

  lemma GoodIsPrefix(a: Ask, tokens: seq<Token>)
    requires a.ids != []
    ensures a.Good(tokens) <==> tokens <= a.Answer()
  {
    hide Greedy, CutAtStop;
    if a.Good(tokens) {
      CleanIsPrefixOfExpected(a.m, a.ids, a.stop, a.maxNew, tokens);
    }
    if tokens <= a.Answer() {
      PrefixOfExpected(a.m, a.ids, a.stop, a.maxNew, tokens);
    }
  }

  lemma GoodStep(a: Ask, tokens: seq<Token>, token: Token)
    requires a.ids != [] && a.Good(tokens) && |tokens| < Clip(a.maxNew)
    requires token == NextToken(a.m, a.ids + tokens)
    ensures token !in a.stop ==> a.Good(tokens + [token])
    ensures token in a.stop ==> tokens == a.Answer()
  {
    hide NextToken, Expected;
    if token in a.stop {
      CleanPrefixIsExpected(a.m, a.ids, a.stop, a.maxNew, tokens);
    } else {
      assert Greedy(a.m, a.ids, |tokens| + 1) == tokens + [token];
    }
  }

  lemma GoodAndLong(a: Ask, tokens: seq<Token>)
    requires a.ids != [] && a.Good(tokens) && |tokens| == Clip(a.maxNew)
    ensures tokens == a.Answer()
  {
    hide NextToken, Expected, Greedy;
    CleanPrefixIsExpected(a.m, a.ids, a.stop, a.maxNew, tokens);
  }

  /** A token that is not a stop token: the answer goes on with it. */
  lemma Accepted(a: Ask, tokens: seq<Token>, token: Token)
    requires a.ids != [] && a.Good(tokens) && |tokens| < Clip(a.maxNew) && token !in a.stop
    requires token == NextToken(a.m, a.ids + tokens)
    ensures a.Good(tokens + [token])
    ensures |tokens| < |a.Answer()| && a.Answer()[|tokens|] == token
  {
    hide Expected, NextToken, Greedy, Ask.Good;
    GoodStep(a, tokens, token);
    GoodIsPrefix(a, tokens + [token]);
    assert a.Answer()[..|tokens| + 1][|tokens|] == token;
  }

  /** After a token was taken the next round can start, fed only that token. */
  lemma RoundGoesOn(s: Swarm, known: set<string>, d: Round, job: string, ids: seq<Token>, tokens: seq<Token>,
                    token: Token, r0: nat)
    requires InService(s, known, d, job, d.Ops(), r0) && d.all == ids + tokens
    ensures var e := Round(d.m, d.route, d.all + [token], |d.all|);
      && e.Valid() && e.all == ids + (tokens + [token])
      && InService(s, known, e, job, 0, r0)
      && FedFrom(e, [token], [|ids| + |tokens|])
  {
    hide InService, Tiles;
    var e := Round(d.m, d.route, d.all + [token], |d.all|);
    ServiceMeans(s, known, d, job, d.Ops(), r0);
    NextRoundIsServed(s, known, d, job, token, r0);
    ServiceMeans(s, known, e, job, 0, r0);
    NextFed(e, [token], [|ids| + |tokens|]);
  }

  lemma StartRound(s: Swarm, known: set<string>, d: Round, job: string, cur: seq<Token>, cp: seq<nat>)
    requires s.Valid() && s.model == d.m && !Reserved(job, s.prefix, s.next)
    requires Tiles(d.route.decoders, d.m.numLayers) && RouteIds(d.route) <= known <= s.workers.Keys
    requires forall id | id in s.workers :: Part(s.workers[id], job) == None
    requires d.n == 0 && d.all != [] && cur == d.all && cp == Positions(0, |d.all|)
    ensures InService(s, known, d, job, 0, s.restarts) && d.Valid() && FedFrom(d, cur, cp)
  {
    hide Tiles;
    FreshJobIsServed(s, known, d, job);
  }

  lemma NextFed(d: Round, cur: seq<Token>, cp: seq<nat>)
    requires d.Valid() && d.n == |d.all| - 1 && cur == [d.all[d.n]] && cp == [d.n]
    ensures FedFrom(d, cur, cp)
  {
    hide Tiles;
  }

  /** A route built from truthful entries only uses workers that can serve what it gives them. */
  lemma BuiltIsAble(items: seq<Routing.Entry>, route: Route, workers: map<string, Worker>)
    requires RoutingProofs.Served(items, route) && TruthfulEntries(items, workers)
    ensures Able(workers, route)
  {
    var flat := Flat(route);
    forall i | 0 <= i < |flat|
      ensures AbleAt(workers, flat[i])
    {
      if i == 0 {
        assert RoutingProofs.Offered(items, route.embed, Routing.EmbedStage);
      } else if i == |flat| - 1 {
        assert RoutingProofs.Offered(items, route.head, Routing.HeadStage);
      } else {
        assert flat[i] == Placed(DecodeOp(route.decoders[i - 1].key), route.decoders[i - 1].id);
        assert RoutingProofs.Offered(items, route.decoders[i - 1].id, Routing.BlockStage(route.decoders[i - 1].key));
      }
    }
  }

  lemma RouteFromItems(items: seq<Routing.Entry>, route: Route)
    requires RoutingProofs.Served(items, route)
    ensures forall id | id in RouteIds(route) :: exists e :: e in items && e.url == id
  {
    forall id | id in RouteIds(route)
      ensures exists e :: e in items && e.url == id
    {
      if id == route.embed {
        assert RoutingProofs.Offered(items, id, Routing.EmbedStage);
      } else if id == route.head {
        assert RoutingProofs.Offered(items, id, Routing.HeadStage);
      } else {
        var i :| 0 <= i < |route.decoders| && route.decoders[i].id == id;
        assert RoutingProofs.Offered(items, id, Routing.BlockStage(route.decoders[i].key));
      }
    }
  }

  // ---- Routes from what is listed, and failovers ----

  /** A route built from truthful entries is able, and uses only nodes among the entries. */
  lemma RoutedIsAble(entries: seq<Routing.Entry>, exclude: set<string>, workers: map<string, Worker>, numLayers: nat,
                     scores: Routing.Scores, routed: Routing.Routed)
    requires TruthfulEntries(entries, workers) && routed.Found?
    requires Routing.Answer(Routing.Items(entries, exclude), numLayers, scores, routed)
    ensures Tiles(routed.route.decoders, numLayers) && Able(workers, routed.route)
    ensures RouteIds(routed.route) <= workers.Keys && RouteIds(routed.route) !! exclude
    ensures forall id | id in RouteIds(routed.route) :: exists e :: e in entries && e.url == id
  {
    hide Routing.Answer, Tiles, RoutingProofs.Served, Able, RouteIds;
    var items := Routing.Items(entries, exclude);
    RoutingProofs.ChainIsSound(items, numLayers, scores, routed);
    BuiltIsAble(items, routed.route, workers);
    RouteFromItems(items, routed.route);
  }

  method EntriesOf(listed: seq<Listing>, excluded: set<string>) returns (entries: seq<Routing.Entry>)
    ensures entries == EntriesFor(listed, excluded)
  {
    entries := [];
    ghost var all := AsEntries(listed);
    for i := 0 to |listed|
      invariant entries == Routing.Items(all[..i], excluded)
    {
      assert all[..i + 1][..i] == all[..i];
      if listed[i].id !in excluded {
        entries := entries + [Routing.Entry(listed[i].id, listed[i].stages)];
      }
    }
    assert all[..|listed|] == all;
  }

  /** Each failed attempt excluded a node of its own route from all later routes. */
  predicate Failovers(routes: seq<Route>, failed: seq<string>) {
    && |failed| <= |routes|
    && (forall i | 0 <= i < |failed| :: failed[i] in RouteIds(routes[i]))
    && (forall i, j | 0 <= i < j < |routes| && i < |failed| :: failed[i] !in RouteIds(routes[j]))
  }

  lemma NoFailovers()
    ensures Failovers([], [])
  {
  }

  lemma NextAttempt(routes: seq<Route>, failed: seq<string>, route: Route)
    requires Failovers(routes, failed) && |routes| == |failed|
    requires RouteIds(route) !! set id | id in failed
    ensures Failovers(routes + [route], failed)
    ensures forall id | id in RouteIds(route) :: Failovers(routes + [route], failed + [id])
  {
    hide RouteIds;
    var r := routes + [route];
    forall i | 0 <= i < |failed|
      ensures failed[i] !in RouteIds(route) && failed[i] in RouteIds(r[i])
    {
      assert failed[i] in (set id | id in failed);
    }
  }

  /** So no node fails twice. */
  lemma FailedAreDistinct(routes: seq<Route>, failed: seq<string>)
    requires Failovers(routes, failed)
    ensures forall i, j | 0 <= i < j < |failed| :: failed[i] != failed[j]
  {
    hide RouteIds;
  }
}
