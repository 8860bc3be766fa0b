// Peer-to-peer generation over HTTP: a static topology, an entry node without failover, and the
// resilient loop that excludes failed peers and replays the prefix.
module Orchestrator {
  import opened Text
  import opened Transformer
  import opened BlockSpec
  import opened Executor
  import opened Relay
  import opened Workers
  import opened Serving
  import opened Live
  import Routing
  import RoutingProofs

  /** The decoder hops of a round, one after the other. */
  method RelayDecoders(s: Swarm, route: Route, job: string, cur: seq<Token>, cp: seq<nat>, first: seq<Hidden>,
                       ghost known: set<string>, ghost d: Round, ghost r0: nat)
    returns (failed: Option<string>, h: seq<Hidden>)
    requires InService(s, known, d, job, 1, r0) && FedFrom(d, cur, cp) && d.route == route
    requires s.restarts == r0 ==> Carrying(d, 1, first, None)
    modifies s
    ensures s.Valid() && !Reserved(job, s.prefix, s.next) && Onward(s)
    ensures failed.None? ==> InService(s, known, d, job, d.Ops() - 1, r0)
                             && (s.restarts == r0 ==> Carrying(d, d.Ops() - 1, h, None))
    ensures s.picks == old(s.picks) && (failed.None? ==> s.calls == old(s.calls) + |route.decoders|)
    ensures failed.Some? ==> failed.value in RouteIds(route) && (Excused(s, route) || s.restarts > r0)
  {
    hide Contiguous, NextToken, InService, Round.Act, Round.Valid, FedFrom, Reserved, Able, Kept;
    ServiceMeans(s, known, d, job, 1, r0);
    KeptNow(s.workers);
    h, failed := first, None;
    for i := 0 to |route.decoders|
      invariant s.Valid() && !Reserved(job, s.prefix, s.next) && Onward(s)
      invariant InService(s, known, d, job, i + 1, r0) && (s.restarts == r0 ==> Carrying(d, i + 1, h, None))
      invariant s.picks == old(s.picks) && s.calls == old(s.calls) + i
    {
      ghost var mid := s.workers;
      var id, op := route.decoders[i].id, DecodeOp(route.decoders[i].key);
      OpOfRound(d, op, id, cur, cp, h, i + 1);
      var ok, out, _ := Exchange(s, id, job, Single(op), OpTensors(op, Some(cur), Some(h), Some(cp)), h,
                                 known, d, i + 1, i + 2, r0);
      KeptOn(old(s.workers), mid, s.workers);
      if !ok {
        StillExcused(old(s.workers), mid, route);
        return Some(id), h;
      }
      h := out;
    }
  }

  /** One round, one hop per op: embed, every decoder block, head. */
  method RelayRound(s: Swarm, route: Route, job: string, cur: seq<Token>, cp: seq<nat>,
                    ghost known: set<string>, ghost d: Round, ghost r0: nat) returns (r: RoundResult)
    requires InService(s, known, d, job, 0, r0) && FedFrom(d, cur, cp) && d.route == route
    modifies s
    ensures s.Valid() && !Reserved(job, s.prefix, s.next) && Onward(s)
    ensures r.Sampled? ==>
      InService(s, known, d, job, d.Ops(), r0) && (s.restarts == r0 ==> r.token == NextToken(d.m, d.all))
    ensures r.Sampled? ==> s.calls == old(s.calls) + |route.decoders| + 2
    ensures s.picks == old(s.picks) + if r.Sampled? then 1 else 0
    ensures r.HopFailed? ==> r.id in RouteIds(route) && (Excused(s, route) || s.restarts > r0)
  {
    hide Contiguous, NextToken, InService, Round.Act, Round.Valid, FedFrom, Reserved, Able, Kept;
    ServiceMeans(s, known, d, job, 0, r0);
    var n := |route.decoders| + 1;
    OpOfRound(d, EmbedOp, route.embed, cur, cp, [], 0);
    var ok, h, head := Exchange(s, route.embed, job, Single(EmbedOp),
                                OpTensors(EmbedOp, Some(cur), Some([]), Some(cp)), [], known, d, 0, 1, r0);
    if !ok {
      return HopFailed(route.embed);
    }
    ghost var mid := s.workers;
    var failed;
    failed, h := RelayDecoders(s, route, job, cur, cp, h, known, d, r0);
    KeptOn(old(s.workers), mid, s.workers);
    if failed.Some? {
      StillExcused(old(s.workers), mid, route);
      return HopFailed(failed.value);
    }
    mid := s.workers;
    OpOfRound(d, HeadOp, route.head, cur, cp, h, n);
    ok, h, head := Exchange(s, route.head, job, Single(HeadOp),
                            OpTensors(HeadOp, Some(cur), Some(h), Some(cp)), h, known, d, n, n + 1, r0);
    KeptOn(old(s.workers), mid, s.workers);
    if !ok {
      StillExcused(old(s.workers), mid, route);
      return HopFailed(route.head);
    }
    return Sampled(head.value);
  }

  /** Rounds from the given tokens on, until maxNew tokens exist or a stop token appears; a failing
      hop ends it with what was produced so far. The tokens are a beginning of the answer, and all of it
      unless a hop failed, as long as no worker restarted; they never contain a stop token. */
  method RelayTokens(s: Swarm, route: Route, job: string, ids: seq<Token>, stop: set<Token>, maxNew: int,
                     done: seq<Token>, ghost known: set<string>, ghost r0: nat)
    returns (tokens: seq<Token>, finish: Finish, failed: Option<string>)
    requires ids != [] && s.Valid() && !Reserved(job, s.prefix, s.next) && r0 <= s.restarts
    requires Tiles(route.decoders, s.model.numLayers) && RouteIds(route) <= known <= s.workers.Keys
    requires forall id | id in s.workers :: Part(s.workers[id], job) == None
    requires |done| <= Clip(maxNew) && Clean(done, stop)
    requires s.restarts == r0 ==> Ask(s.model, ids, stop, maxNew).Good(done)
    modifies s
    ensures s.Valid() && !Reserved(job, s.prefix, s.next) && Onward(s)
    ensures done <= tokens && |tokens| <= Clip(maxNew) && Clean(tokens, stop)
    ensures s.picks == old(s.picks) + |tokens| - |done| + if failed.None? && finish == STOP then 1 else 0
    ensures failed.Some? ==> failed.value in RouteIds(route) && Excused(s, route)
    ensures failed.None? ==> (finish == STOP <==> |tokens| < Clip(maxNew)) && (finish == STOP ==> stop != {})
    ensures s.restarts == r0 ==> Ask(s.model, ids, stop, maxNew).Good(tokens)
    ensures s.restarts == r0 && failed.None? ==> tokens == Ask(s.model, ids, stop, maxNew).Answer()
  {
    hide Expected, NextToken, InService, Contiguous, Tiles, Round.Valid, AllReady, Greedy, FedFrom, Reserved, CutAtStop;
    hide Able, Kept, RouteIds, Ask.Good;
    ghost var a, r1 := Ask(s.model, ids, stop, maxNew), s.restarts;
    var seqLen := |ids|;
    var cur := ids + done;
    var cp: seq<nat> := Positions(0, seqLen + |done|);
    tokens, finish, failed := done, LENGTH, None;
    ghost var d := Round(s.model, route, ids + done, 0);
    StartRound(s, known, d, job, cur, cp);
    KeptNow(s.workers);
    while |tokens| < maxNew
      invariant s.Valid() && !Reserved(job, s.prefix, s.next) && Onward(s)
      invariant d.m == a.m && d.route == route && d.all == ids + tokens && d.Valid()
      invariant InService(s, known, d, job, 0, r1) && FedFrom(d, cur, cp)
      invariant done <= tokens && |tokens| <= Clip(maxNew) && Clean(tokens, stop)
      invariant s.restarts == r0 ==> a.Good(tokens)
      invariant s.picks == old(s.picks) + |tokens| - |done|
    {
      ghost var mid := s.workers;
      var sampled := RelayRound(s, route, job, cur, cp, known, d, r1);
      KeptOn(old(s.workers), mid, s.workers);
      if sampled.HopFailed? {
        StillExcused(old(s.workers), mid, route);
        return tokens, finish, Some(sampled.id);
      }
      var token := sampled.token;
      if token in stop {
        if s.restarts == r0 {
          GoodStep(a, tokens, token);
        }
        return tokens, STOP, None;
      }
      if s.restarts == r0 {
        Accepted(a, tokens, token);
      }
      RoundGoesOn(s, known, d, job, ids, tokens, token, r1);
      tokens := tokens + [token];
      cur := [token];
      cp := [seqLen + |tokens| - 1];
      d := Round(a.m, route, d.all + [token], |d.all|);
    }
    if s.restarts == r0 {
      GoodAndLong(a, tokens);
    }
  }

  lemma {:induction false} NothingToCut(tokens: seq<Token>)
    ensures CutAtStop(tokens, {}) == tokens
  {
    if tokens != [] {
      NothingToCut(tokens[1..]);
    }
  }

  lemma NothingIsGood(a: Ask)
    requires a.ids != []
    ensures a.Good([])
  {
  }

  /** Milestone 0: a fixed topology, no stop tokens, no failover. None stands for the exception. */
  method DistributedGenerate(s: Swarm, topology: Route, ids: seq<Token>, maxNew: int, job: string)
    returns (r: Option<seq<Token>>)
    requires ids != [] && s.Valid() && !Reserved(job, s.prefix, s.next)
    requires Tiles(topology.decoders, s.model.numLayers) && RouteIds(topology) <= s.workers.Keys
    requires forall id | id in s.workers :: Part(s.workers[id], job) == None
    modifies s
    ensures s.Valid()
    ensures r.Some? ==> |r.value| == Clip(maxNew)
    ensures r.Some? && s.restarts == old(s.restarts) ==> r.value == Greedy(s.model, ids, Clip(maxNew))
    ensures r.Some? ==> s.picks == old(s.picks) + |r.value|
    ensures r.None? ==> Excused(s, topology)
    ensures s.faults == old(s.faults) ==> Cleared(s.workers, RouteIds(topology), job)
  {
    hide Tiles, NextToken, Reserved, AllHonest, JobsWellFormed, NoReserved, Able, Greedy;
    ghost var a := Ask(s.model, ids, {}, maxNew);
    NothingIsGood(a);
    var tokens, finish, failed := RelayTokens(s, topology, job, ids, {}, maxNew, [], s.workers.Keys, s.restarts);
    if failed.None? && s.restarts == old(s.restarts) {
      NothingToCut(Greedy(s.model, ids, Clip(maxNew)));
    }
    EndEverywhere(s, topology, job);
    return if failed.Some? then None else Some(tokens);
  }

  datatype Generated = Generated(tokens: seq<Token>, promptLen: nat, finish: Finish)

  /** The loop with injected transport, as the entry node uses it: stops at a stop token, no failover. */
  method GenerateTokens(s: Swarm, route: Route, ids: seq<Token>, stop: set<Token>, maxNew: int, job: string)
    returns (r: Option<Generated>)
    requires ids != [] && s.Valid() && !Reserved(job, s.prefix, s.next)
    requires Tiles(route.decoders, s.model.numLayers) && RouteIds(route) <= s.workers.Keys
    requires forall id | id in s.workers :: Part(s.workers[id], job) == None
    modifies s
    ensures s.Valid()
    ensures r.Some? ==>
      && r.value.promptLen == |ids| && |r.value.tokens| <= Clip(maxNew) && Clean(r.value.tokens, stop)
      && (r.value.finish == STOP <==> |r.value.tokens| < Clip(maxNew))
    ensures r.Some? && s.restarts == old(s.restarts) ==>
      r.value.tokens == CutAtStop(Greedy(s.model, ids, Clip(maxNew)), stop)
    ensures r.Some? ==>
      s.picks == old(s.picks) + |r.value.tokens| + if r.value.finish == STOP then 1 else 0
    ensures r.None? ==> Excused(s, route)
  {
    hide Tiles, NextToken, Reserved, AllHonest, JobsWellFormed, NoReserved, Able;
    NothingIsGood(Ask(s.model, ids, stop, maxNew));
    var tokens, finish, failed := RelayTokens(s, route, job, ids, stop, maxNew, [], s.workers.Keys, s.restarts);
    return if failed.Some? then None else Some(Generated(tokens, |ids|, finish));
  }

  // ---- Failover ----

  datatype Resilient = Ok(tokens: seq<Token>, failovers: int, finish: Finish)
                     | Uncovered(tokens: seq<Token>, failovers: int)
                     | TooManyFailovers(tokens: seq<Token>, failovers: int)
                     | Malformed

  /** Entry i is node i of what was listed. */
  predicate Lists(entries: seq<Routing.Entry>, listed: seq<Listing>) {
    && |entries| == |listed|
    && forall i | 0 <= i < |entries| :: entries[i] == Routing.Entry(listed[i].id, listed[i].stages)
  }

  /** What a request goes by: what the last read that showed anything gave, or the stages it started from. */
  predicate Current(seen: Option<seq<Listing>>, stages: seq<Routing.Entry>, entries: seq<Routing.Entry>) {
    match seen
    case None => entries == stages
    case Some(listed) => Lists(entries, listed)
  }

  /** One read of the gossip registry; an empty or failing one leaves the entries as they were. */
  method Refresh(s: Swarm, entries: seq<Routing.Entry>) returns (latest: seq<Routing.Entry>)
    requires s.Valid() && TruthfulEntries(entries, s.workers)
    modifies s`readings, s`lastRead, s`seen
    ensures s.Valid() && s.readings == old(s.readings) + 1 && (s.lastRead.Some? ==> s.lastRead.value == s.listed)
    ensures s.lastRead.Some? && s.listed != [] ==> Lists(latest, s.listed) && s.seen == Some(s.listed)
    ensures s.lastRead.None? || s.listed == [] ==> latest == entries && s.seen == old(s.seen)
    ensures TruthfulEntries(latest, s.workers)
  {
    hide AllHonest, JobsWellFormed, NoReserved, Truthful;
    var r := s.ReadListing();
    if r.None? || r.value == [] {
      return entries;
    }
    latest := EntriesOf(r.value, {});
    ListedIsTruthful(s.listed, {}, s.workers);
    NothingExcluded(s.listed);
  }

  lemma NothingExcluded(listed: seq<Listing>)
    ensures Lists(EntriesFor(listed, {}), listed)
  {
    ItemsAll(AsEntries(listed));
  }

  lemma StillTruthful(entries: seq<Routing.Entry>, before: map<string, Worker>, after: map<string, Worker>)
    requires TruthfulEntries(entries, before) && Kept(before, after)
    ensures TruthfulEntries(entries, after)
  {
    hide Truthful;
  }

  /** Polls until the peers not excluded cover the model or the deadline has passed; polls counts what is
      left until then, over all attempts. Every wait is followed by a read; the result is about what the
      last read that showed anything gave, and without a chain no poll is left. */
  method ResolveChain(s: Swarm, entries: seq<Routing.Entry>, numLayers: nat, excluded: set<string>, polls: nat,
                      ghost stages: seq<Routing.Entry>)
    returns (routed: Routing.Routed, entries': seq<Routing.Entry>, polls': nat)
    requires s.Valid() && TruthfulEntries(entries, s.workers) && Current(s.seen, stages, entries)
    modifies s
    ensures s.Valid() && Moved(s) && s.faults == old(s.faults) && s.restarts == old(s.restarts)
    ensures TruthfulEntries(entries', s.workers) && Current(s.seen, stages, entries')
    ensures s.picks == old(s.picks)
    ensures polls' <= polls && s.waits == old(s.waits) + (polls - polls') && s.readings == old(s.readings) + (polls - polls')
    ensures polls' < polls && s.lastRead.Some? ==>
      s.lastRead.value == s.listed && (s.listed != [] ==> s.seen == Some(s.listed))
    ensures routed.NoChain? ==> !Coverable(Listed(entries'), excluded, numLayers) && polls' == 0
    ensures routed.Malformed? <==> LiveCrash(Listed(entries'), excluded)
    ensures Coverable(Listed(entries), excluded, numLayers) ==> !routed.NoChain? && polls' == polls
    ensures routed.Found? ==>
      && PlainChoice(Listed(entries'), excluded, numLayers, routed.route)
      && Tiles(routed.route.decoders, numLayers) && Able(s.workers, routed.route)
      && RouteIds(routed.route) <= s.workers.Keys && RouteIds(routed.route) !! excluded
  {
    hide Tiles, Routing.Answer, AllHonest, JobsWellFormed, NoReserved, ListedRight, Able, RouteIds, Kept, TruthfulEntries;
    hide EntriesFor, Coverable, LiveCrash, PlainChoice, Current, Lists;
    entries', polls' := entries, polls;
    KeptNow(s.workers);
    while true
      invariant s.Valid() && Moved(s) && s.faults == old(s.faults) && s.restarts == old(s.restarts)
      invariant TruthfulEntries(entries', s.workers) && Current(s.seen, stages, entries')
      invariant polls' <= polls && s.picks == old(s.picks)
      invariant s.waits == old(s.waits) + (polls - polls') && s.readings == old(s.readings) + (polls - polls')
      invariant polls' < polls && s.lastRead.Some? ==>
        s.lastRead.value == s.listed && (s.listed != [] ==> s.seen == Some(s.listed))
      invariant if polls' == polls then entries' == entries else !Coverable(Listed(entries), excluded, numLayers)
      decreases polls'
    {
      routed := Routing.BuildChain(entries', numLayers, excluded, Routing.NO_SCORES);
      PlainMeans(entries', excluded, numLayers, routed);
      if routed.Found? {
        RoutedIsAble(entries', excluded, s.workers, numLayers, Routing.NO_SCORES, routed);
        return;
      }
      if routed.Malformed? || polls' == 0 {
        return;
      }
      polls' := polls' - 1;
      ghost var mid, before := s.workers, entries';
      s.Idle();
      KeptOn(old(s.workers), mid, s.workers);
      StillTruthful(entries', mid, s.workers);
      ghost var seen := s.seen;
      entries' := Refresh(s, entries');
      StillCurrent(s, seen, stages, before, entries');
    }
  }

  lemma StillCurrent(s: Swarm, seen: Option<seq<Listing>>, stages: seq<Routing.Entry>, before: seq<Routing.Entry>,
                     entries: seq<Routing.Entry>)
    requires Current(seen, stages, before)
    requires s.lastRead.Some? && s.listed != [] ==> Lists(entries, s.listed) && s.seen == Some(s.listed)
    requires s.lastRead.None? || s.listed == [] ==> entries == before && s.seen == seen
    ensures Current(s.seen, stages, entries)
  {
  }

  /** The route was the one to be chosen, without the peers that had failed, from the stages the request
      started from or from something listed. */
  ghost predicate PlainOnce(shown: set<seq<Listing>>, stages: seq<Routing.Entry>, numLayers: nat, route: Route,
                            failed: seq<string>) {
    var excluded := set id | id in failed;
    exists entries :: PlainChoice(Listed(entries), excluded, numLayers, route)
      && (entries == stages || exists l :: l in shown && Lists(entries, l))
  }

  /** Every route of a request in that sense. */
  ghost predicate PlainWhenShown(shown: set<seq<Listing>>, stages: seq<Routing.Entry>, numLayers: nat,
                                 routes: seq<Route>, failed: seq<string>)
    requires |failed| <= |routes| <= |failed| + 1
  {
    forall i | 0 <= i < |routes| :: PlainOnce(shown, stages, numLayers, routes[i], failed[..i])
  }

  lemma NonePlain(shown: set<seq<Listing>>, stages: seq<Routing.Entry>, numLayers: nat)
    ensures PlainWhenShown(shown, stages, numLayers, [], [])
  {
  }

  lemma PlainNow(s: Swarm, stages: seq<Routing.Entry>, entries: seq<Routing.Entry>, numLayers: nat, route: Route,
                 failed: seq<string>)
    requires s.Valid() && Current(s.seen, stages, entries)
    requires PlainChoice(Listed(entries), (set id | id in failed), numLayers, route)
    ensures PlainOnce(s.shown, stages, numLayers, route, failed)
  {
    hide PlainChoice, Lists, AllHonest, JobsWellFormed, NoReserved, ListedRight;
  }

  lemma StillPlain(before: set<seq<Listing>>, after: set<seq<Listing>>, stages: seq<Routing.Entry>, numLayers: nat,
                   routes: seq<Route>, failed: seq<string>)
    requires |failed| <= |routes| <= |failed| + 1 && before <= after
    requires PlainWhenShown(before, stages, numLayers, routes, failed)
    ensures PlainWhenShown(after, stages, numLayers, routes, failed)
  {
    hide PlainChoice, Lists;
    forall i | 0 <= i < |routes|
      ensures PlainOnce(after, stages, numLayers, routes[i], failed[..i])
    {
      assert PlainOnce(before, stages, numLayers, routes[i], failed[..i]);
    }
  }

  lemma NextPlain(shown: set<seq<Listing>>, stages: seq<Routing.Entry>, numLayers: nat, routes: seq<Route>,
                  failed: seq<string>, route: Route)
    requires |failed| == |routes| && PlainWhenShown(shown, stages, numLayers, routes, failed)
    requires PlainOnce(shown, stages, numLayers, route, failed)
    ensures PlainWhenShown(shown, stages, numLayers, routes + [route], failed)
    ensures forall id :: PlainWhenShown(shown, stages, numLayers, routes + [route], failed + [id])
  {
    hide PlainOnce;
    var r := routes + [route];
    assert failed[..|failed|] == failed;
    forall id, i | 0 <= i < |r|
      ensures (failed + [id])[..i] == failed[..i] && PlainOnce(shown, stages, numLayers, r[i], failed[..i])
    {
      assert i < |routes| ==> PlainOnce(shown, stages, numLayers, routes[i], failed[..i]);
    }
  }

  /** Whichever hops are lost, and when: the tokens returned, also with an error, are a beginning of the
      whole model's answer, and all of it on success, as long as no peer restarted during an attempt and
      answered in its predecessor's place. An attempt only fails because of a fault, and the peer that
      failed is left out of all later routes. Giving up for lack of coverage means that the time is up and
      that what was read last holds no chain without the failed peers; it was read just now if the request
      waited since its last attempt began. */
  method DistributedGenerateResilient(s: Swarm, stages: seq<Routing.Entry>, ids: seq<Token>, maxNew: int,
                                      stop: set<Token>, maxFailovers: int, polls: nat)
    returns (r: Resilient, ghost last: seq<Routing.Entry>, ghost routes: seq<Route>, ghost failed: seq<string>,
             ghost began: nat)
    requires ids != [] && s.Valid() && !s.shared && s.next == 0 && s.seen == None
    requires TruthfulEntries(stages, s.workers)
    modifies s
    ensures s.Valid()
    ensures r.Ok? ==> r.failovers == |failed| && (r.finish == STOP <==> |r.tokens| < Clip(maxNew))
    ensures !r.Malformed? ==> |r.tokens| <= Clip(maxNew) && Clean(r.tokens, stop)
    ensures !r.Malformed? && s.restarts == old(s.restarts) ==> r.tokens <= Expected(s.model, ids, stop, maxNew)
    ensures r.Ok? && s.restarts == old(s.restarts) ==> r.tokens == Expected(s.model, ids, stop, maxNew)
    ensures !r.Malformed? ==> s.picks == old(s.picks) + |r.tokens| + if r.Ok? && r.finish == STOP then 1 else 0
    ensures Failovers(routes, failed) && |routes| <= Clip(maxFailovers + 1)
    ensures |routes| == |failed| + (if r.Ok? then 1 else 0) && s.faults >= old(s.faults) + |failed|
    ensures PlainWhenShown(s.shown, stages, s.model.numLayers, routes, failed)
    ensures r.Ok? && s.faults == old(s.faults) + |failed| ==>
      Cleared(s.workers, RouteIds(routes[|failed|]), JobName(s.prefix, |failed|))
    ensures r.TooManyFailovers? ==> |failed| == Clip(maxFailovers + 1) && r.failovers == maxFailovers
    ensures Current(s.seen, stages, last)
    ensures old(s.waits) <= s.waits <= old(s.waits) + polls && s.readings - old(s.readings) == s.waits - old(s.waits)
    ensures r.Uncovered? ==>
      && r.failovers == |failed| && s.waits == old(s.waits) + polls
      && !Coverable(Listed(last), (set id | id in failed), s.model.numLayers)
    ensures failed == [] ==> began == old(s.waits)
    ensures r.Uncovered? && s.waits > began && s.lastRead.Some? && s.listed != [] ==>
      s.lastRead.value == s.listed && Lists(last, s.listed)
    ensures r.Malformed? ==> LiveCrash(Listed(last), (set id | id in failed))
  {
    hide Tiles, NextToken, Reserved, AllHonest, JobsWellFormed, NoReserved, ListedRight, RouteIds, Expected, Ask.Good;
    hide Able, Kept, TruthfulEntries, Failovers, Coverable, LiveCrash, PlainChoice, Lists, Cleared;
    hide PlainOnce, PlainWhenShown;
    ghost var a, r0 := Ask(s.model, ids, stop, maxNew), s.restarts;
    var tokens: seq<Token> := [];
    var excluded: set<string> := {};
    var entries := stages;
    var left: nat := polls;
    routes, failed, began := [], [], s.waits;
    NoFailovers();
    NothingIsGood(a);
    NonePlain(s.shown, stages, s.model.numLayers);
    for attempt := 0 to Clip(maxFailovers + 1)
      invariant s.Valid() && s.next == attempt && r0 <= s.restarts
      invariant |tokens| <= Clip(maxNew) && Clean(tokens, stop) && (s.restarts == r0 ==> a.Good(tokens))
      invariant TruthfulEntries(entries, s.workers) && Current(s.seen, stages, entries)
      invariant |failed| == |routes| == attempt && excluded == set id | id in failed
      invariant Failovers(routes, failed) && s.faults >= old(s.faults) + |failed|
      invariant PlainWhenShown(s.shown, stages, s.model.numLayers, routes, failed)
      invariant s.picks == old(s.picks) + |tokens|
      invariant left <= polls && s.waits == old(s.waits) + (polls - left)
      invariant s.readings == old(s.readings) + (polls - left)
      invariant began == s.waits && (failed == [] ==> began == old(s.waits))
    {
      var routed;
      ghost var shown := s.shown;
      routed, entries, left := ResolveChain(s, entries, s.model.numLayers, excluded, left, stages);
      GoodIsPrefix(a, tokens);
      StillPlain(shown, s.shown, stages, s.model.numLayers, routes, failed);
      if routed.Malformed? {
        return Malformed, entries, routes, failed, began;
      }
      if routed.NoChain? {
        return Uncovered(tokens, attempt), entries, routes, failed, began;
      }
      var route := routed.route;
      NextAttempt(routes, failed, route);
      PlainNow(s, stages, entries, s.model.numLayers, route, failed);
      NextPlain(s.shown, stages, s.model.numLayers, routes, failed, route);
      routes := routes + [route];
      var job := s.NextJob();
      LaterNamesAreReserved(s.prefix, s.next - 1, s.next);
      ghost var mid := s.workers;
      shown := s.shown;
      var finish, hop;
      tokens, finish, hop := RelayTokens(s, route, job, ids, stop, maxNew, tokens, s.workers.Keys, r0);
      if hop.None? {
        KeptKeys(mid, s.workers);
        GoodIsPrefix(a, tokens);
        EndEverywhere(s, route, job);
        StillPlain(shown, s.shown, stages, s.model.numLayers, routes, failed);
        return Ok(tokens, attempt, finish), entries, routes, failed, began;
      }
      StillTruthful(entries, mid, s.workers);
      failed := failed + [hop.value];
      StillPlain(shown, s.shown, stages, s.model.numLayers, routes, failed);
      excluded := excluded + {hop.value};
      began := s.waits;
    }
    GoodIsPrefix(a, tokens);
    return TooManyFailovers(tokens, maxFailovers), entries, routes, failed, began;
  }
}
