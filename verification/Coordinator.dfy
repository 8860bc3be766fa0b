// The coordinator's generation: per-node segments, fused messages, the durable log, failover.
module Coordinator {
  import opened Text
  import opened Transformer
  import opened BlockSpec
  import opened Executor
  import opened Relay
  import opened Workers
  import opened Serving
  import opened Live
  import Routing
  import RoutingProofs
  import Log = JobStore

  const MAX_FAILOVERS := 5

  // ---- Segments ----

  /** A maximal run of consecutive ops on one node; chain says whether it goes out as one message. */
  datatype Segment = Segment(id: string, ops: seq<Op>, chain: bool)

  function PlacedOps(s: Segment): (p: seq<Placed>)
    ensures |p| == |s.ops|
  {
    seq(|s.ops|, i requires 0 <= i < |s.ops| => Placed(s.ops[i], s.id))
  }

  function Unsegmented(segments: seq<Segment>): seq<Placed> {
    if segments == [] then []
    else Unsegmented(segments[..|segments| - 1]) + PlacedOps(segments[|segments| - 1])
  }

  /** Every op in order, no empty segment, neighbours on different nodes, and a segment is sent as one
      message exactly when it has several ops and its node can run them. */
  predicate Segmentation(flat: seq<Placed>, segments: seq<Segment>, canChain: set<string>) {
    && Grouped(flat, segments)
    && forall i | 0 <= i < |segments| ::
         segments[i].chain <==> |segments[i].ops| > 1 && segments[i].id in canChain
  }

  lemma UnsegmentedExtend(segments: seq<Segment>, s: Segment, p: Placed)
    requires p.id == s.id
    ensures Unsegmented(segments + [s.(ops := s.ops + [p.op])]) == Unsegmented(segments + [s]) + [p]
  {
    var t := s.(ops := s.ops + [p.op]);
    assert (segments + [t])[..|segments|] == segments && (segments + [s])[..|segments|] == segments;
    assert PlacedOps(t) == PlacedOps(s) + [p];
  }

  predicate Grouped(flat: seq<Placed>, segments: seq<Segment>) {
    && Unsegmented(segments) == flat
    && (forall i | 0 <= i < |segments| :: segments[i].ops != [])
    && (forall i | 0 <= i < |segments| - 1 :: Turns(segments, i))
  }

  predicate Turns(segments: seq<Segment>, i: nat)
    requires i + 1 < |segments|
  {
    segments[i].id != segments[i + 1].id
  }

  lemma TurnsStay(a: seq<Segment>, b: seq<Segment>)
    requires |a| == |b| && forall i | 0 <= i < |a| :: a[i].id == b[i].id
    requires forall i | 0 <= i < |a| - 1 :: Turns(a, i)
    ensures forall i | 0 <= i < |b| - 1 :: Turns(b, i)
  {
    forall i | 0 <= i < |b| - 1
      ensures Turns(b, i)
    {
      assert Turns(a, i);
    }
  }

  lemma GroupedPush(flat: seq<Placed>, segments: seq<Segment>, p: Placed)
    requires Grouped(flat, segments)
    ensures var n := |segments| - 1;
      if n >= 0 && segments[n].id == p.id
      then Grouped(flat + [p], segments[n := segments[n].(ops := segments[n].ops + [p.op])])
      else Grouped(flat + [p], segments + [Segment(p.id, [p.op], false)])
  {
    var n := |segments| - 1;
    if n >= 0 && segments[n].id == p.id {
      UnsegmentedExtend(segments[..n], segments[n], p);
      assert segments[..n] + [segments[n]] == segments;
      var s := segments[n].(ops := segments[n].ops + [p.op]);
      assert segments[..n] + [s] == segments[n := s];
      hide Unsegmented, Turns;
      TurnsStay(segments, segments[n := s]);
    } else {
      var s := Segment(p.id, [p.op], false);
      assert (segments + [s])[..|segments|] == segments;
      assert PlacedOps(s) == [p];
      hide Unsegmented;
      forall i | 0 <= i < |segments|
        ensures Turns(segments + [s], i)
      {
        assert i < n ==> Turns(segments, i);
      }
    }
  }

  method GroupSegments(flat: seq<Placed>, canChain: set<string>) returns (segments: seq<Segment>)
    ensures Segmentation(flat, segments, canChain)
  {
    segments := [];
    assert Grouped([], segments);
    hide Grouped;
    for k := 0 to |flat|
      invariant Grouped(flat[..k], segments)
    {
      var p, n := flat[k], |segments| - 1;
      GroupedPush(flat[..k], segments, p);
      if n >= 0 && segments[n].id == p.id {
        segments := segments[n := segments[n].(ops := segments[n].ops + [p.op])];
      } else {
        segments := segments + [Segment(p.id, [p.op], false)];
      }
      assert flat[..k + 1] == flat[..k] + [p];
    }
    assert flat[..|flat|] == flat;
    ghost var grouped := segments;
    segments := MarkChains(segments, canChain);
    MarkedIsGrouped(flat, grouped, segments);
  }

  lemma MarkedIsGrouped(flat: seq<Placed>, grouped: seq<Segment>, segments: seq<Segment>)
    requires Grouped(flat, grouped) && |segments| == |grouped|
    requires forall i | 0 <= i < |segments| :: segments[i].id == grouped[i].id && segments[i].ops == grouped[i].ops
    ensures Grouped(flat, segments)
  {
    hide Unsegmented, Turns;
    SameOps(segments, grouped);
    TurnsStay(grouped, segments);
  }

  method MarkChains(grouped: seq<Segment>, canChain: set<string>) returns (segments: seq<Segment>)
    ensures |segments| == |grouped| && forall i | 0 <= i < |segments| ::
              && segments[i].id == grouped[i].id && segments[i].ops == grouped[i].ops
              && (segments[i].chain <==> |segments[i].ops| > 1 && segments[i].id in canChain)
  {
    segments := grouped;
    for i := 0 to |grouped|
      invariant |segments| == |grouped|
      invariant forall j | 0 <= j < |segments| :: segments[j].id == grouped[j].id && segments[j].ops == grouped[j].ops
      invariant forall j | 0 <= j < i ::
                  segments[j].chain <==> |segments[j].ops| > 1 && segments[j].id in canChain
    {
      var s := segments[i];
      segments := segments[i := s.(chain := |s.ops| > 1 && s.id in canChain)];
    }
  }

  lemma {:induction false} SameOps(a: seq<Segment>, b: seq<Segment>)
    requires |a| == |b| && forall i | 0 <= i < |a| :: a[i].id == b[i].id && a[i].ops == b[i].ops
    ensures Unsegmented(a) == Unsegmented(b)
  {
    if a != [] {
      SameOps(a[..|a| - 1], b[..|b| - 1]);
    }
  }

  /** Where the first n segments end in the flat list. */
  function Offset(segments: seq<Segment>, n: nat): nat
    requires n <= |segments|
  {
    if n == 0 then 0 else Offset(segments, n - 1) + |segments[n - 1].ops|
  }

  lemma {:induction false} OffsetOfAll(segments: seq<Segment>, n: nat)
    requires n <= |segments|
    ensures Offset(segments, n) == |Unsegmented(segments[..n])| <= |Unsegmented(segments)|
    ensures Unsegmented(segments)[..Offset(segments, n)] == Unsegmented(segments[..n])
    decreases |segments| - n
  {
    if n == |segments| {
      assert segments[..n] == segments;
      OffsetIsLength(segments, n);
    } else {
      OffsetOfAll(segments, n + 1);
      OffsetIsLength(segments, n);
      assert segments[..n + 1][..n] == segments[..n];
      var u := Unsegmented(segments[..n + 1]);
      assert u == Unsegmented(segments[..n]) + PlacedOps(segments[n]);
      assert Unsegmented(segments)[..Offset(segments, n)] == u[..Offset(segments, n)];
    }
  }

  lemma {:induction false} OffsetIsLength(segments: seq<Segment>, n: nat)
    requires n <= |segments|
    ensures Offset(segments, n) == |Unsegmented(segments[..n])|
  {
    if n > 0 {
      OffsetIsLength(segments, n - 1);
      assert segments[..n][..n - 1] == segments[..n - 1];
    }
  }

  /** The ops of segment i are the flat ops from its offset on, all placed on its node. */
  lemma SegmentOps(segments: seq<Segment>, i: nat, j: nat)
    requires i < |segments| && j < |segments[i].ops|
    ensures Offset(segments, i) + j < Offset(segments, i + 1) <= |Unsegmented(segments)|
    ensures Unsegmented(segments)[Offset(segments, i) + j] == Placed(segments[i].ops[j], segments[i].id)
  {
    OffsetOfAll(segments, i + 1);
    OffsetIsLength(segments, i);
    assert segments[..i + 1][..i] == segments[..i];
    var u := Unsegmented(segments[..i + 1]);
    assert u == Unsegmented(segments[..i]) + PlacedOps(segments[i]);
    assert Unsegmented(segments)[Offset(segments, i) + j] == u[Offset(segments, i) + j];
  }

  lemma SegmentIsRun(flat: seq<Placed>, segments: seq<Segment>, i: nat)
    requires Grouped(flat, segments) && i < |segments|
    ensures var k, k2 := Offset(segments, i), Offset(segments, i + 1);
      && k < k2 <= |flat| && k2 == k + |segments[i].ops|
      && (forall j | k <= j < k2 :: flat[j] == Placed(segments[i].ops[j - k], segments[i].id))
      && (i == |segments| - 1 <==> k2 == |flat|)
  {
    hide Unsegmented;
    var k, k2 := Offset(segments, i), Offset(segments, i + 1);
    SegmentOps(segments, i, 0);
    forall j | k <= j < k2
      ensures flat[j] == Placed(segments[i].ops[j - k], segments[i].id)
    {
      SegmentOps(segments, i, j - k);
    }
    LastSegmentEnds(segments, i);
  }

  /** What the segments of a route tell the round: their ops, and that no message that carries several
      ops starts with the head. */
  lemma SegmentInRound(d: Round, segments: seq<Segment>, i: nat, k: nat, k2: nat)
    requires Grouped(Flat(d.route), segments) && i < |segments|
    requires k == Offset(segments, i) && k2 == k + |segments[i].ops|
    ensures k < k2 <= d.Ops() && k2 == Offset(segments, i + 1)
    ensures d.AllOn(segments[i].id, k, k2) && segments[i].ops == d.Steps(k, k2)
    ensures i == |segments| - 1 <==> k2 == d.Ops()
    ensures |segments[i].ops| > 1 ==> segments[i].ops[0] != HeadOp
    ensures segments[i].ops[0] == EmbedOp <==> k == 0
    ensures segments[i].ops[k2 - k - 1] == HeadOp <==> k2 == d.Ops()
  {
    hide Unsegmented, Offset, Turns, Flat, Round.Steps, Round.AllOn;
    SegmentIsRun(Flat(d.route), segments, i);
    hide Grouped;
    RunInRound(d, segments[i].id, segments[i].ops, k, k2);
  }

  lemma RunInRound(d: Round, id: string, ops: seq<Op>, k: nat, k2: nat)
    requires k < k2 <= d.Ops() && |ops| == k2 - k
    requires forall j | k <= j < k2 :: Flat(d.route)[j] == Placed(ops[j - k], id)
    ensures d.AllOn(id, k, k2) && ops == d.Steps(k, k2)
    ensures |ops| > 1 ==> ops[0] != HeadOp
    ensures ops[0] == EmbedOp <==> k == 0
    ensures ops[|ops| - 1] == HeadOp <==> k2 == d.Ops()
  {
    var flat := Flat(d.route);
    assert flat[k].op == ops[k - k] && flat[k2 - 1].op == ops[k2 - 1 - k];
    OpAt(d, k);
    OpAt(d, k2 - 1);
    hide Flat;
    forall j | 0 <= j < |ops|
      ensures ops[j] == d.Steps(k, k2)[j]
    {
      var i := k + j;
      assert flat[i] == Placed(ops[i - k], id);
    }
  }

  lemma LastSegmentEnds(segments: seq<Segment>, i: nat)
    requires i < |segments| && forall j | 0 <= j < |segments| :: segments[j].ops != []
    ensures i == |segments| - 1 <==> Offset(segments, i + 1) == |Unsegmented(segments)|
  {
    OffsetOfAll(segments, |segments|);
    assert segments[..|segments|] == segments;
    if i < |segments| - 1 {
      SegmentOps(segments, i + 1, 0);
    }
  }

  // ---- One round ----

  /** One op per message. */
  method RunUnfused(s: Swarm, segment: Segment, job: string, cur: seq<Token>, cp: seq<nat>, h: seq<Hidden>,
                    ghost known: set<string>, ghost d: Round, ghost k: nat)
    returns (ok: bool, h': seq<Hidden>, head: Option<Token>)
    requires !s.urls && InService(s, known, d, job, k, s.restarts) && FedFrom(d, cur, cp)
    requires segment.ops != [] && k + |segment.ops| <= d.Ops()
    requires d.AllOn(segment.id, k, k + |segment.ops|) && segment.ops == d.Steps(k, k + |segment.ops|)
    requires Carrying(d, k, h, None)
    modifies s
    ensures s.Valid() && !Reserved(job, s.prefix, s.next) && Onward(s)
    ensures ok ==> InService(s, known, d, job, k + |segment.ops|, s.restarts) && Carrying(d, k + |segment.ops|, h', head)
    ensures !ok ==> segment.id in RouteIds(d.route) && Excused(s, d.route)
    ensures ok ==> s.calls == old(s.calls) + |segment.ops|
    ensures s.picks == old(s.picks) + if ok && k + |segment.ops| == d.Ops() then 1 else 0
  {
    hide Contiguous, NextToken, InService, Round.Act, Round.Valid, FedFrom, Flat, Round.AllOn, Round.Steps, Able;
    ServiceMeans(s, known, d, job, k, s.restarts);
    h', head := h, None;
    for j := 0 to |segment.ops|
      invariant s.Valid() && !Reserved(job, s.prefix, s.next) && Onward(s)
      invariant InService(s, known, d, job, k + j, s.restarts) && Carrying(d, k + j, h', head)
      invariant s.calls == old(s.calls) + j && s.picks == old(s.picks) + if k + j == d.Ops() then 1 else 0
    {
      var op := segment.ops[j];
      OpOfSegment(d, segment, k, j);
      OpOfRound(d, op, segment.id, cur, cp, h', k + j);
      ghost var mid := s.workers;
      ok, h', head := Exchange(s, segment.id, job, Single(op), OpTensors(op, Some(cur), Some(h'), Some(cp)), h',
                               known, d, k + j, k + j + 1, s.restarts);
      if !ok {
        StillExcused(old(s.workers), mid, d.route);
        return;
      }
    }
    ok := true;
  }

  lemma OpOfSegment(d: Round, segment: Segment, k: nat, j: nat)
    requires j < |segment.ops| && k + |segment.ops| <= d.Ops()
    requires d.AllOn(segment.id, k, k + |segment.ops|) && segment.ops == d.Steps(k, k + |segment.ops|)
    ensures Flat(d.route)[k + j] == Placed(segment.ops[j], segment.id)
  {
    assert d.Steps(k, k + |segment.ops|)[j] == Flat(d.route)[k + j].op;
    assert Flat(d.route)[k + j].id == segment.id;
  }

  /** All ops of the segment in one message. */
  method RunFused(s: Swarm, segment: Segment, job: string, cur: seq<Token>, cp: seq<nat>, h: seq<Hidden>,
                  ghost known: set<string>, ghost d: Round, ghost k: nat)
    returns (ok: bool, h': seq<Hidden>, head: Option<Token>)
    requires !s.urls && InService(s, known, d, job, k, s.restarts) && FedFrom(d, cur, cp)
    requires |segment.ops| > 1 && k + |segment.ops| <= d.Ops()
    requires d.AllOn(segment.id, k, k + |segment.ops|) && segment.ops == d.Steps(k, k + |segment.ops|)
    requires segment.ops[0] == EmbedOp <==> k == 0
    requires Carrying(d, k, h, None)
    modifies s
    ensures s.Valid() && !Reserved(job, s.prefix, s.next) && Onward(s)
    ensures ok ==> InService(s, known, d, job, k + |segment.ops|, s.restarts) && Carrying(d, k + |segment.ops|, h', head)
    ensures !ok ==> segment.id in RouteIds(d.route) && Excused(s, d.route)
    ensures s.calls == old(s.calls) + 1
    ensures s.picks == old(s.picks) + if ok && k + |segment.ops| == d.Ops() then 1 else 0
  {
    hide Contiguous, NextToken, InService, Round.Act, Tiles, Round.AllOn, Round.Steps, Able, Kept;
    ServiceMeans(s, known, d, job, k, s.restarts);
    assert Carried(d, Request.Chain(segment.ops), k, k + |segment.ops|);
    var t := if segment.ops[0] == EmbedOp then Tensors(Some(cur), None, Some(cp))
             else Tensors(None, Some(h), Some(cp));
    ok, h', head := Exchange(s, segment.id, job, Request.Chain(segment.ops), t, h,
                             known, d, k, k + |segment.ops|, s.restarts);
  }

  /** A segment, in one message or one for each op. */
  method RunSegment(s: Swarm, segment: Segment, job: string, cur: seq<Token>, cp: seq<nat>, h: seq<Hidden>,
                    ghost known: set<string>, ghost d: Round, ghost k: nat)
    returns (ok: bool, h': seq<Hidden>, head: Option<Token>)
    requires !s.urls && InService(s, known, d, job, k, s.restarts) && FedFrom(d, cur, cp)
    requires segment.ops != [] && k + |segment.ops| <= d.Ops() && (segment.chain ==> |segment.ops| > 1)
    requires d.AllOn(segment.id, k, k + |segment.ops|) && segment.ops == d.Steps(k, k + |segment.ops|)
    requires segment.ops[0] == EmbedOp <==> k == 0
    requires Carrying(d, k, h, None)
    modifies s
    ensures s.Valid() && !Reserved(job, s.prefix, s.next) && Onward(s)
    ensures ok ==> InService(s, known, d, job, k + |segment.ops|, s.restarts) && Carrying(d, k + |segment.ops|, h', head)
    ensures !ok ==> segment.id in RouteIds(d.route) && Excused(s, d.route)
    ensures ok ==> s.calls == old(s.calls) + if segment.chain then 1 else |segment.ops|
    ensures s.picks == old(s.picks) + if ok && k + |segment.ops| == d.Ops() then 1 else 0
  {
    hide InService, Round.Act, Round.Valid, Round.AllOn, Round.Steps, FedFrom, Able, Kept, Carrying;
    if segment.chain {
      ok, h', head := RunFused(s, segment, job, cur, cp, h, known, d, k);
    } else {
      ok, h', head := RunUnfused(s, segment, job, cur, cp, h, known, d, k);
    }
  }

  /** How many messages a round takes: one for a segment that goes out fused, one for each op of another. */
  function Messages(segments: seq<Segment>): nat {
    if segments == [] then 0
    else
      var last := segments[|segments| - 1];
      Messages(segments[..|segments| - 1]) + if last.chain then 1 else |last.ops|
  }

  /** One decoding round over the segments of a route. */
  method RunRound(s: Swarm, segments: seq<Segment>, job: string, cur: seq<Token>, cp: seq<nat>,
                  ghost known: set<string>, ghost d: Round, ghost canChain: set<string>) returns (r: RoundResult)
    requires !s.urls && InService(s, known, d, job, 0, s.restarts) && FedFrom(d, cur, cp)
    requires Segmentation(Flat(d.route), segments, canChain)
    modifies s
    ensures s.Valid() && !Reserved(job, s.prefix, s.next) && Onward(s)
    ensures r.Sampled? ==> InService(s, known, d, job, d.Ops(), s.restarts) && r.token == NextToken(d.m, d.all)
    ensures r.HopFailed? ==> r.id in RouteIds(d.route) && Excused(s, d.route)
    ensures r.Sampled? ==> s.calls == old(s.calls) + Messages(segments) && s.picks == old(s.picks) + 1
    ensures r.HopFailed? ==> s.picks == old(s.picks)
  {
    hide Contiguous, NextToken, InService, Round.Act, Round.Valid, Round.AllOn, Round.Steps, Unsegmented, Turns, FedFrom, Able;
    hide Kept, Flat, Grouped, RouteIds, Reserved, AllHonest, JobsWellFormed, NoReserved, ListedRight, Carrying;
    var h: seq<Hidden>, head: Option<Token> := [], None;
    ghost var k := 0;
    ServiceMeans(s, known, d, job, 0, s.restarts);
    SegmentsEnd(d, segments);
    CarryingNothing(d, h, head);
    KeptNow(s.workers);
    for i := 0 to |segments|
      invariant s.Valid() && !Reserved(job, s.prefix, s.next) && Onward(s)
      invariant k == Offset(segments, i) <= d.Ops()
      invariant s.calls == old(s.calls) + Messages(segments[..i])
      invariant s.picks == old(s.picks) + if k == d.Ops() then 1 else 0
      invariant !s.urls && InService(s, known, d, job, k, s.restarts) && Carrying(d, k, h, head)
    {
      var segment := segments[i];
      assert segments[..i + 1][..i] == segments[..i];
      ghost var k2 := k + |segment.ops|;
      SegmentInRound(d, segments, i, k, k2);
      CarryingActivation(d, k, h, head);
      var ok: bool;
      ghost var mid := s.workers;
      ok, h, head := RunSegment(s, segment, job, cur, cp, h, known, d, k);
      KeptOn(old(s.workers), mid, s.workers);
      if !ok {
        StillExcused(old(s.workers), mid, d.route);
        return HopFailed(segment.id);
      }
      k := k2;
    }
    assert segments[..|segments|] == segments;
    CarryingToken(d, h, head);
    return Sampled(head.value);
  }

  lemma CarryingNothing(d: Round, h: seq<Hidden>, head: Option<Token>)
    requires d.Valid()
    ensures Carrying(d, 0, h, head)
  {
  }

  lemma CarryingToken(d: Round, h: seq<Hidden>, head: Option<Token>)
    requires d.Valid() && Carrying(d, d.Ops(), h, head)
    ensures head == Some(NextToken(d.m, d.all))
  {
  }

  lemma CarryingActivation(d: Round, k: nat, h: seq<Hidden>, head: Option<Token>)
    requires d.Valid() && k < d.Ops() && Carrying(d, k, h, head)
    ensures Carrying(d, k, h, None)
  {
  }

  lemma SegmentsEnd(d: Round, segments: seq<Segment>)
    requires Grouped(Flat(d.route), segments)
    ensures Offset(segments, 0) == 0 && Offset(segments, |segments|) == d.Ops() >= 2
  {
    OffsetOfAll(segments, |segments|);
    assert segments[..|segments|] == segments;
  }

  // ---- One attempt ----

  datatype Generation = Generated(tokens: seq<Token>, promptLen: nat, finish: Finish) | NodeFailed(id: string)

  /** The log row of the request holds a correct beginning of the answer. */
  ghost predicate LogFollows(store: Log.JobStore, log: string, a: Ask)
    reads store
    requires a.ids != []
  {
    store.Valid() && store.Tokens(log) <= a.Answer()
  }

  /** The log only moves forward: no other row changes, what the row says of its request stays, and no stored
      token of it is rewritten. */
  predicate Grows(before: map<string, Log.Row>, after: map<string, Log.Row>, log: string) {
    && after.Keys == before.Keys
    && (forall j | j in before && j != log :: after[j] == before[j])
    && (log in before ==> SameRequest(before[log], after[log]) && (Active(before[log]) ==> Active(after[log])))
    && Log.TokensIn(before, log) <= Log.TokensIn(after, log)
  }

  predicate Active(row: Log.Row) {
    row.status == Log.RUNNING || row.status == Log.WAITING_COVERAGE
  }

  predicate SameRequest(a: Log.Row, b: Log.Row) {
    a.modelId == b.modelId && a.prompt == b.prompt && a.promptLen == b.promptLen
  }

  twostate predicate LogGrows(store: Log.JobStore, log: string)
    reads store
  {
    Grows(old(store.rows), store.rows, log) && store.rows.Keys == old(store.rows.Keys) && old(store.lost) <= store.lost
  }

  lemma GrowsOn(before: map<string, Log.Row>, mid: map<string, Log.Row>, after: map<string, Log.Row>, log: string)
    requires Grows(before, mid, log) && Grows(mid, after, log)
    ensures Grows(before, after, log)
  {
  }

  lemma GrowsTokens(before: map<string, Log.Row>, after: map<string, Log.Row>, log: string, tokens: seq<int>)
    requires Grows(before, after, log) && tokens <= Log.TokensIn(before, log)
    ensures tokens <= Log.TokensIn(after, log)
  {
  }

  lemma GrowsNot(rows: map<string, Log.Row>, log: string)
    ensures Grows(rows, rows, log)
  {
  }

  /** The durable write of a produced token, which may be lost. */
  method OnToken(store: Log.JobStore, log: string, token: Token, position: nat, ghost a: Ask)
    requires a.ids != [] && LogFollows(store, log, a)
    requires position < |a.Answer()| && a.Answer()[position] == token
    modifies store
    ensures LogFollows(store, log, a) && LogGrows(store, log)
    ensures store.lost == old(store.lost) && log in store.rows && position <= old(|store.Tokens(log)|) ==>
              position < |store.Tokens(log)| && (position == old(|store.Tokens(log)|) ==> |store.Tokens(log)| == position + 1)
  {
    hide Expected;
    var lost: bool := *;
    if lost {
      store.Lose();
    } else {
      Log.AppendFollowsIff(store.Tokens(log), a.Answer(), token, position);
      Log.GrowsOrKeeps(store.Tokens(log), a.Answer(), token, position);
      store.AppendToken(log, token, position);
    }
  }

  /** Greedy generation along one route, resuming after tokens already produced. Whatever happens to
      the hops and the log writes, a finished attempt has the whole answer, and the log only ever holds
      a beginning of it: all of it, once every write of an attempt that resumed from the log arrived. */
  method RunGeneration(s: Swarm, store: Log.JobStore, log: string, route: Route, canChain: set<string>,
                       ids: seq<Token>, stop: set<Token>, maxNew: int, job: string, resume: seq<Token>,
                       ghost known: set<string>) returns (r: Generation)
    requires ids != [] && (s as object) != store && !s.urls
    requires s.Valid() && !Reserved(job, s.prefix, s.next)
    requires Tiles(route.decoders, s.model.numLayers) && RouteIds(route) <= known <= s.workers.Keys
    requires forall id | id in s.workers :: Part(s.workers[id], job) == None
    requires LogFollows(store, log, Ask(s.model, ids, stop, maxNew))
    requires resume <= Ask(s.model, ids, stop, maxNew).Answer()
    modifies s, store
    ensures s.Valid() && Onward(s)
    ensures LogFollows(store, log, Ask(s.model, ids, stop, maxNew)) && LogGrows(store, log)
    ensures r.Generated? ==>
      && r.tokens == Ask(s.model, ids, stop, maxNew).Answer() && r.promptLen == |ids|
      && (r.finish == STOP <==> |r.tokens| < Clip(maxNew))
    ensures r.Generated? && resume <= old(store.Tokens(log)) && store.lost == old(store.lost) && log in store.rows ==>
              store.Tokens(log) == r.tokens
    ensures r.Generated? && s.faults == old(s.faults) ==> Cleared(s.workers, RouteIds(route), job)
    ensures r.NodeFailed? ==> r.id in RouteIds(route) && Excused(s, route)
    ensures r.Generated? ==> s.picks == old(s.picks) + |r.tokens| - |resume| + if r.finish == STOP then 1 else 0
    ensures resume == old(store.Tokens(log)) && store.lost == old(store.lost) && log in store.rows ==>
      s.picks == old(s.picks) + |store.Tokens(log)| - |resume| + if r.Generated? && r.finish == STOP then 1 else 0
  {
    hide Expected, NextToken, InService, Contiguous, Segmentation, Tiles, Round.Valid, AllReady, Greedy, FedFrom, Reserved;
    hide CutAtStop, LogFollows, Able, Cleared, Kept, Grows, RouteIds, Flat, Log.JobStore.Tokens;
    ghost var a := Ask(s.model, ids, stop, maxNew);
    GoodIsPrefix(a, resume);
    var seqLen := |ids|;
    var segments := GroupSegments(Flat(route), canChain);
    var cur := ids + resume;
    var cp: seq<nat> := Positions(0, seqLen + |resume|);
    var tokens := resume;
    var finish := LENGTH;
    ghost var d := Round(s.model, route, ids + resume, 0);
    StartRound(s, known, d, job, cur, cp);
    KeptNow(s.workers);
    GrowsNot(store.rows, log);
    for i := 0 to Clip(maxNew - |resume|)
      invariant s.Valid() && !Reserved(job, s.prefix, s.next) && Onward(s)
      invariant d.m == a.m && d.route == route && d.all == ids + tokens && d.Valid()
      invariant !s.urls && InService(s, known, d, job, 0, s.restarts) && FedFrom(d, cur, cp)
      invariant |tokens| == |resume| + i && a.Good(tokens)
      invariant LogFollows(store, log, a) && LogGrows(store, log)
      invariant resume <= old(store.Tokens(log)) && store.lost == old(store.lost) && log in store.rows ==>
                  |tokens| <= |store.Tokens(log)|
      invariant s.picks == old(s.picks) + i && finish == LENGTH
      invariant resume == old(store.Tokens(log)) && store.lost == old(store.lost) && log in store.rows ==>
                  |tokens| == |store.Tokens(log)|
    {
      ghost var mid, rows := s.workers, store.rows;
      var sampled := RunRound(s, segments, job, cur, cp, known, d, canChain);
      KeptOn(old(s.workers), mid, s.workers);
      if sampled.HopFailed? {
        StillExcused(old(s.workers), mid, route);
        return NodeFailed(sampled.id);
      }
      var token := sampled.token;
      if token in stop {
        GoodStep(a, tokens, token);
        finish := STOP;
        break;
      }
      Accepted(a, tokens, token);
      RoundGoesOn(s, known, d, job, ids, tokens, token, s.restarts);
      tokens := tokens + [token];
      OnToken(store, log, token, |tokens| - 1, a);
      GrowsOn(old(store.rows), rows, store.rows, log);
      cur := [token];
      cp := [seqLen + |tokens| - 1];
      d := Round(a.m, route, d.all + [token], |d.all|);
    }
    if finish == LENGTH {
      GoodAndLong(a, tokens);
    }
    LongLogIsAnswer(store, log, a);
    ghost var mid := s.workers;
    KeptKeys(old(s.workers), mid);
    EndEverywhere(s, route, job);
    KeptOn(old(s.workers), mid, s.workers);
    return Generated(tokens, seqLen, finish);
  }

  lemma LongLogIsAnswer(store: Log.JobStore, log: string, a: Ask)
    requires a.ids != [] && LogFollows(store, log, a)
    ensures |a.Answer()| <= |store.Tokens(log)| ==> store.Tokens(log) == a.Answer()
  {
    hide Expected;
  }

  // ---- Coverage and failover ----

  function CanChain(listed: seq<Listing>): set<string> {
    set l | l in listed && "chain" in l.caps :: l.id
  }

  lemma ListedDistinct(s: Swarm)
    requires s.Valid()
    ensures DistinctIds(s.listed)
  {
    hide AllHonest, JobsWellFormed, NoReserved, Truthful;
  }

  datatype Coverage = Covered(route: Route, canChain: set<string>) | TimedOut | Crashed

  method SetStatusSafe(store: Log.JobStore, log: string, status: Log.Status, ghost a: Ask)
    requires a.ids != [] && LogFollows(store, log, a)
    requires status == Log.RUNNING || status == Log.WAITING_COVERAGE
    modifies store
    ensures LogFollows(store, log, a) && LogGrows(store, log) && store.Tokens(log) == old(store.Tokens(log))
    ensures store.lost == old(store.lost) && log in store.rows ==> store.rows[log].status == status
  {
    hide Ask.Answer;
    var lost: bool := *;
    if lost {
      store.Lose();
    } else {
      store.SetStatus(log, status);
    }
  }

  /** Waits until the nodes not excluded cover the model, or the time is up, which is after so many polls.
      The answer is always about the connections as they are on return: the route that is to be chosen among
      them, or that there is none. A network that is covered is served without waiting, and a request that
      waits is marked as waiting. */
  method AwaitCoverage(s: Swarm, store: Log.JobStore, log: string, numLayers: nat, excluded: set<string>,
                       polls: nat, ghost a: Ask) returns (c: Coverage)
    requires s.Valid() && (s as object) != store && a.ids != [] && LogFollows(store, log, a)
    modifies s, store
    ensures s.Valid() && LogFollows(store, log, a) && Moved(s) && s.faults == old(s.faults) && LogGrows(store, log)
    ensures c.Covered? ==>
      && LiveChoice(s.listed, excluded, numLayers, c.route)
      && (forall id :: id in c.canChain <==> exists l :: l in s.listed && l.id == id && "chain" in l.caps)
      && Able(s.workers, c.route) && RouteIds(c.route) <= s.workers.Keys && RouteIds(c.route) !! excluded
    ensures c.TimedOut? ==> !Coverable(s.listed, excluded, numLayers) && s.waits == old(s.waits) + polls
    ensures c.Crashed? <==> LiveCrash(s.listed, excluded)
    ensures old(s.waits) <= s.waits <= old(s.waits) + polls
    ensures s.picks == old(s.picks) && store.Tokens(log) == old(store.Tokens(log))
    ensures Coverable(old(s.listed), excluded, numLayers) ==> !c.TimedOut? && s.waits == old(s.waits)
    ensures store.lost == old(store.lost) && log in old(store.rows) && old(store.rows)[log].status == Log.RUNNING ==>
      && (c.Covered? ==> store.rows[log].status == Log.RUNNING)
      && (c.TimedOut? ==> store.rows[log].status == Log.WAITING_COVERAGE)
  {
    hide Ask.Answer, Tiles, Routing.Answer, LogFollows, AllHonest, JobsWellFormed, NoReserved, ListedRight, Able, RouteIds;
    hide ScoresOf, Kept, Grows, LiveChoice, Coverable, LiveCrash, EntriesFor, Routing.Items;
    ListedDistinct(s);
    KeptNow(s.workers);
    GrowsNot(store.rows, log);
    var marked := false;
    var left := polls;
    while true
      invariant s.Valid() && LogFollows(store, log, a) && Moved(s) && s.faults == old(s.faults) && LogGrows(store, log)
      invariant store.lost == old(store.lost) && log in old(store.rows) && old(store.rows)[log].status == Log.RUNNING ==>
                  store.rows[log].status == if marked then Log.WAITING_COVERAGE else Log.RUNNING
      invariant DistinctIds(s.listed) && s.waits - old(s.waits) + left == polls
      invariant s.picks == old(s.picks) && store.Tokens(log) == old(store.Tokens(log))
      invariant if left == polls then s.listed == old(s.listed) else !Coverable(old(s.listed), excluded, numLayers)
      decreases left
    {
      ghost var mid, rows := s.workers, store.rows;
      var entries := EntriesOf(s.listed, excluded);
      var routed := Routing.BuildChain(entries, numLayers, {}, ScoresOf(s.listed));
      RoutedMeans(s.listed, excluded, numLayers, routed);
      if routed.Malformed? {
        return Crashed;
      }
      if routed.Found? {
        RoutedFromListed(s.listed, excluded, s.workers, numLayers, routed);
        if marked {
          SetStatusSafe(store, log, Log.RUNNING, a);
          GrowsOn(old(store.rows), rows, store.rows, log);
        }
        return Covered(routed.route, CanChain(s.listed));
      }
      if !marked {
        SetStatusSafe(store, log, Log.WAITING_COVERAGE, a);
        GrowsOn(old(store.rows), rows, store.rows, log);
        marked := true;
      }
      if left == 0 {
        return TimedOut;
      }
      left := left - 1;
      s.Idle();
      KeptOn(old(s.workers), mid, s.workers);
      ListedDistinct(s);
    }
  }

  lemma RoutedFromListed(listed: seq<Listing>, excluded: set<string>, workers: map<string, Worker>, numLayers: nat,
                         routed: Routing.Routed)
    requires ListedRight(listed, workers) && DistinctIds(listed) && routed.Found?
    requires Routing.Answer(Routing.Items(EntriesFor(listed, excluded), {}), numLayers, ScoresOf(listed), routed)
    ensures Able(workers, routed.route)
    ensures RouteIds(routed.route) <= workers.Keys && RouteIds(routed.route) !! excluded
  {
    hide Routing.Answer, ScoresOf, Able, RouteIds, Tiles, ListedRight, TruthfulEntries;
    ListedIsTruthful(listed, excluded, workers);
    RoutedIsAble(EntriesFor(listed, excluded), {}, workers, numLayers, ScoresOf(listed), routed);
  }

  datatype Served = Served(tokens: seq<Token>, promptLen: nat, failovers: nat, finish: Finish)
                  | NoCoverage(excluded: set<string>) | TooManyFailovers(lastFailed: string) | Raised500

  /** The tokens to resume from, read back from the log; an unreadable log means starting over. */
  method ReadLog(store: Log.JobStore, log: string, ghost a: Ask) returns (tokens: seq<Token>)
    requires a.ids != [] && LogFollows(store, log, a)
    modifies store`lost
    ensures LogFollows(store, log, a) && store.lost >= old(store.lost)
    ensures tokens <= a.Answer() && (tokens == [] || tokens == store.Tokens(log))
    ensures store.lost == old(store.lost) ==> tokens == store.Tokens(log)
  {
    hide Ask.Answer;
    var unreadable: bool := *;
    if unreadable {
      store.Lose();
      return [];
    }
    var row := store.GetJob(log);
    tokens := if row.Some? then row.value.tokens else [];
  }

  /** What one request may come to: the whole model's own answer; no chain among the nodes that are
      connected now and did not fail; six failed attempts; or a node advertising a malformed block. */
  ghost predicate Outcome(s: Swarm, ids: seq<Token>, stop: set<Token>, maxNew: int, r: Served, failed: seq<string>)
    reads s
    requires ids != []
  {
    var excluded := set id | id in failed;
    match r
    case Served(tokens, promptLen, failovers, finish) =>
      && tokens == Expected(s.model, ids, stop, maxNew) && promptLen == |ids|
      && (finish == STOP <==> |tokens| < Clip(maxNew))
      && failovers == |failed| <= 5
    case NoCoverage(left) => left == excluded && !Coverable(s.listed, excluded, s.model.numLayers)
    case TooManyFailovers(last) => |failed| == 6 && last == failed[5]
    case Raised500 => LiveCrash(s.listed, excluded)
  }

  lemma OutcomeIs(s: Swarm, ids: seq<Token>, stop: set<Token>, maxNew: int, r: Served, failed: seq<string>)
    requires ids != []
    ensures r.NoCoverage? && r.excluded == (set id | id in failed) && !Coverable(s.listed, r.excluded, s.model.numLayers)
            ==> Outcome(s, ids, stop, maxNew, r, failed)
    ensures r.Raised500? && LiveCrash(s.listed, set id | id in failed)
            ==> Outcome(s, ids, stop, maxNew, r, failed)
    ensures r.TooManyFailovers? && |failed| == MAX_FAILOVERS + 1 && r.lastFailed == failed[MAX_FAILOVERS]
            ==> Outcome(s, ids, stop, maxNew, r, failed)
  {
    hide Coverable, LiveCrash;
  }

  lemma ServedOutcome(s: Swarm, a: Ask, r: Served, failed: seq<string>)
    requires s.model == a.m && a.ids != [] && r.Served? && r.tokens == a.Answer() && r.promptLen == |a.ids|
    requires (r.finish == STOP <==> |r.tokens| < Clip(a.maxNew)) && r.failovers == |failed| <= MAX_FAILOVERS
    ensures Outcome(s, a.ids, a.stop, a.maxNew, r, failed)
  {
    hide Expected;
  }

  /** One attempt: a route without the excluded nodes, a job name no worker has seen, a generation that
      resumes from what the log gave. It fails only where a fault happened. */
  method Attempt(s: Swarm, store: Log.JobStore, log: string, ids: seq<Token>, stop: set<Token>, maxNew: int,
                 excluded: set<string>, polls: nat, resume: seq<Token>) returns (c: Coverage, g: Option<Generation>)
    requires s.Valid() && !s.urls && (s as object) != store && ids != []
    requires LogFollows(store, log, Ask(s.model, ids, stop, maxNew)) && resume <= store.Tokens(log)
    modifies s, store
    ensures s.Valid() && s.faults >= old(s.faults) && old(s.shown) <= s.shown
    ensures LogFollows(store, log, Ask(s.model, ids, stop, maxNew)) && LogGrows(store, log)
    ensures c.Covered? <==> g.Some?
    ensures old(s.waits) <= s.waits <= old(s.waits) + polls
    ensures c.TimedOut? ==> !Coverable(s.listed, excluded, s.model.numLayers) && s.waits == old(s.waits) + polls
    ensures c.Crashed? ==> LiveCrash(s.listed, excluded)
    ensures Coverable(old(s.listed), excluded, s.model.numLayers) ==> !c.TimedOut? && s.waits == old(s.waits)
    ensures c.Covered? ==>
      && RouteIds(c.route) !! excluded
      && exists l :: l in s.shown && LiveChoice(l, excluded, s.model.numLayers, c.route)
    ensures g.Some? && g.value.Generated? ==>
      && g.value.tokens == Ask(s.model, ids, stop, maxNew).Answer() && g.value.promptLen == |ids|
      && (g.value.finish == STOP <==> |g.value.tokens| < Clip(maxNew))
      && (store.lost == old(store.lost) && log in store.rows ==> store.Tokens(log) == g.value.tokens)
    ensures g.Some? && g.value.NodeFailed? ==> g.value.id in RouteIds(c.route) && s.faults > old(s.faults)
    ensures resume == old(store.Tokens(log)) && store.lost == old(store.lost) && log in store.rows ==>
      s.picks == old(s.picks) + |store.Tokens(log)| - |resume|
                 + if g.Some? && g.value.Generated? && g.value.finish == STOP then 1 else 0
  {
    hide Ask.Answer, Tiles, Reserved, AllHonest, JobsWellFormed, NoReserved, ListedRight, RouteIds, Able, Kept, Grows;
    hide Coverable, LiveChoice, LiveCrash;
    ghost var a := Ask(s.model, ids, stop, maxNew);
    ghost var before := store.rows;
    c := AwaitCoverage(s, store, log, s.model.numLayers, excluded, polls, a);
    if !c.Covered? {
      return c, None;
    }
    GrowsTokens(before, store.rows, log, resume);
    FollowsAnswer(store, log, a, resume);
    hide LogFollows;
    ghost var rows := store.rows;
    ChosenHasTiles(s, excluded, s.model.numLayers, c.route);
    var job := s.NextJob();
    NotReservedOnceIssued(s, job);
    var ran := RunGeneration(s, store, log, c.route, c.canChain, ids, stop, maxNew, job, resume, s.workers.Keys);
    GrowsOn(before, rows, store.rows, log);
    return c, Some(ran);
  }

  lemma ChosenHasTiles(s: Swarm, excluded: set<string>, numLayers: nat, route: Route)
    requires LiveChoice(s.listed, excluded, numLayers, route)
    ensures Tiles(route.decoders, numLayers)
  {
    hide Tiles;
  }

  lemma FollowsAnswer(store: Log.JobStore, log: string, a: Ask, resume: seq<Token>)
    requires a.ids != [] && LogFollows(store, log, a) && resume <= store.Tokens(log)
    ensures resume <= a.Answer()
  {
    hide Ask.Answer;
  }

  /** The route was the one to be chosen, without the nodes that had failed, from something listed. */
  ghost predicate ChosenOnce(shown: set<seq<Listing>>, numLayers: nat, route: Route, failed: seq<string>) {
    var excluded := set id | id in failed;
    exists l :: l in shown && LiveChoice(l, excluded, numLayers, route)
  }

  /** Every route of a request in that sense. */
  ghost predicate ChosenWhenShown(shown: set<seq<Listing>>, numLayers: nat, routes: seq<Route>, failed: seq<string>)
    requires |failed| <= |routes| <= |failed| + 1
  {
    forall i | 0 <= i < |routes| :: ChosenOnce(shown, numLayers, routes[i], failed[..i])
  }

  lemma NoneChosen(shown: set<seq<Listing>>, numLayers: nat)
    ensures ChosenWhenShown(shown, numLayers, [], [])
  {
  }

  lemma StillChosen(before: set<seq<Listing>>, after: set<seq<Listing>>, numLayers: nat, routes: seq<Route>,
                    failed: seq<string>)
    requires |failed| <= |routes| <= |failed| + 1 && before <= after
    requires ChosenWhenShown(before, numLayers, routes, failed)
    ensures ChosenWhenShown(after, numLayers, routes, failed)
  {
    hide LiveChoice;
    forall i | 0 <= i < |routes|
      ensures ChosenOnce(after, numLayers, routes[i], failed[..i])
    {
      assert ChosenOnce(before, numLayers, routes[i], failed[..i]);
    }
  }

  lemma NextChosen(shown: set<seq<Listing>>, numLayers: nat, routes: seq<Route>, failed: seq<string>, route: Route)
    requires |failed| == |routes| && ChosenWhenShown(shown, numLayers, routes, failed)
    requires ChosenOnce(shown, numLayers, route, failed)
    ensures ChosenWhenShown(shown, numLayers, routes + [route], failed)
    ensures forall id :: ChosenWhenShown(shown, numLayers, routes + [route], failed + [id])
  {
    hide ChosenOnce;
    var r := routes + [route];
    assert failed[..|failed|] == failed;
    forall id, i | 0 <= i < |r|
      ensures (failed + [id])[..i] == failed[..i] && ChosenOnce(shown, numLayers, r[i], failed[..i])
    {
      assert i < |routes| ==> ChosenOnce(shown, numLayers, routes[i], failed[..i]);
    }
  }

  /** Attempts until one succeeds. For every schedule of failures, arrivals, departures and lost writes:
      an answer is the whole model's own; an attempt only fails because of a fault, and the node that
      failed is left out from then on; the log never holds anything but a beginning of the answer, never
      loses a token, and holds all of it when no write was lost. */
  method GenerateWithFailover(s: Swarm, store: Log.JobStore, log: string, ids: seq<Token>, stop: set<Token>,
                              maxNew: int, polls: nat -> nat)
    returns (r: Served, ghost routes: seq<Route>, ghost failed: seq<string>)
    requires s.Valid() && !s.urls && (s as object) != store && ids != []
    requires LogFollows(store, log, Ask(s.model, ids, stop, maxNew))
    modifies s, store
    ensures s.Valid() && LogFollows(store, log, Ask(s.model, ids, stop, maxNew)) && LogGrows(store, log)
    ensures Outcome(s, ids, stop, maxNew, r, failed)
    ensures |routes| <= 6 && |routes| == |failed| + (if r.Served? then 1 else 0)
    ensures Failovers(routes, failed) && ChosenWhenShown(s.shown, s.model.numLayers, routes, failed)
    ensures s.faults >= old(s.faults) + |failed|
    ensures r.NoCoverage? ==> s.waits >= old(s.waits) + polls(|failed|)
    ensures r.Served? && store.lost == old(store.lost) && log in store.rows ==> store.Tokens(log) == r.tokens
    ensures old(store.Tokens(log)) == [] && store.lost == old(store.lost) && log in store.rows ==>
      s.picks == old(s.picks) + |store.Tokens(log)| + if r.Served? && r.finish == STOP then 1 else 0
  {
    hide Ask.Answer, Tiles, LogFollows, Expected, Reserved, AllHonest, JobsWellFormed, NoReserved, ListedRight, RouteIds, Able;
    hide Coverable, LiveCrash, LiveChoice, Grows, Failovers, Outcome, ChosenWhenShown;
    GrowsNot(store.rows, log);
    ghost var a := Ask(s.model, ids, stop, maxNew);
    routes, failed := [], [];
    NoFailovers();
    NoneChosen(s.shown, s.model.numLayers);
    var excluded: set<string> := {};
    var lastFailed := "";
    var resume: seq<Token> := [];
    for attempt := 0 to MAX_FAILOVERS + 1
      invariant s.Valid() && LogFollows(store, log, a) && LogGrows(store, log)
      invariant resume <= store.Tokens(log)
      invariant |failed| == |routes| == attempt && excluded == set id | id in failed
      invariant Failovers(routes, failed) && (failed != [] ==> lastFailed == failed[attempt - 1])
      invariant ChosenWhenShown(s.shown, s.model.numLayers, routes, failed)
      invariant s.faults >= old(s.faults) + |failed| && s.waits >= old(s.waits)
      invariant old(store.Tokens(log)) == [] && store.lost == old(store.lost) && log in store.rows ==>
                  resume == store.Tokens(log) && s.picks == old(s.picks) + |resume|
    {
      ghost var before, shown := store.rows, s.shown;
      var c, g := Attempt(s, store, log, ids, stop, maxNew, excluded, polls(attempt), resume);
      StillChosen(shown, s.shown, s.model.numLayers, routes, failed);
      GrowsOn(old(store.rows), before, store.rows, log);
      if c.TimedOut? {
        OutcomeIs(s, ids, stop, maxNew, NoCoverage(excluded), failed);
        return NoCoverage(excluded), routes, failed;
      }
      if c.Crashed? {
        OutcomeIs(s, ids, stop, maxNew, Raised500, failed);
        return Raised500, routes, failed;
      }
      NextAttempt(routes, failed, c.route);
      NextChosen(s.shown, s.model.numLayers, routes, failed, c.route);
      routes := routes + [c.route];
      if g.value.Generated? {
        r := Served(g.value.tokens, g.value.promptLen, attempt, g.value.finish);
        ServedOutcome(s, a, r, failed);
        return;
      }
      lastFailed := g.value.id;
      failed := failed + [lastFailed];
      excluded := excluded + {lastFailed};
      resume := ReadLog(store, log, a);
    }
    OutcomeIs(s, ids, stop, maxNew, TooManyFailovers(lastFailed), failed);
    return TooManyFailovers(lastFailed), routes, failed;
  }

  lemma NotReservedOnceIssued(s: Swarm, job: string)
    requires s.next > 0 && job == JobName(s.prefix, s.next - 1)
    ensures !Reserved(job, s.prefix, s.next)
  {
    LaterNamesAreReserved(s.prefix, s.next - 1, s.next);
  }

  /** What the row of a request says in the end. */
  predicate Recorded(row: Log.Row, r: Served, decode: seq<Token> -> string) {
    match r
    case Served(tokens, _, _, finish) =>
      && row.status == Log.DONE && row.result == Some(decode(tokens))
      && row.finishReason == Some(if finish == STOP then "stop" else "length")
    case NoCoverage(_) => row.status == Log.FAILED && row.error == Some("coverage timeout: model not operational")
    case TooManyFailovers(last) =>
      row.status == Log.FAILED && row.error == Some("too many failovers (last failed node: " + last + ")")
    case Raised500 => Active(row)
  }

  method RecordResult(store: Log.JobStore, log: string, r: Served, decode: seq<Token> -> string)
    requires store.Valid()
    modifies store
    ensures store.Valid() && store.lost >= old(store.lost) && store.Tokens(log) == old(store.Tokens(log))
    ensures store.rows.Keys == old(store.rows).Keys && (r.Raised500? ==> store.rows == old(store.rows))
    ensures forall j | j in store.rows ::
              if j == log then SameRequest(old(store.rows)[j], store.rows[j]) else store.rows[j] == old(store.rows)[j]
    ensures store.lost == old(store.lost) && log in store.rows && !r.Raised500? ==> Recorded(store.rows[log], r, decode)
  {
    var lost: bool := *;
    if lost {
      store.Lose();
    } else {
      match r {
        case Served(tokens, _, _, finish) =>
          store.Finish(log, decode(tokens), if finish == STOP then "stop" else "length");
        case NoCoverage(_) => store.Fail(log, "coverage timeout: model not operational");
        case TooManyFailovers(last) => store.Fail(log, "too many failovers (last failed node: " + last + ")");
        case Raised500 =>
      }
    }
  }

  /** POST /infer for a greedy request. The row of the request, where no write was lost, ends with exactly
      the tokens answered. */
  method Infer(s: Swarm, store: Log.JobStore, modelId: string, prompt: string, ids: seq<Token>, stop: set<Token>,
               maxNew: int, polls: nat -> nat, decode: seq<Token> -> string)
    returns (r: Served, ghost routes: seq<Route>, ghost failed: seq<string>)
    requires s.Valid() && !s.urls && (s as object) != store && store.Valid() && ids != []
    requires forall j | j in store.rows :: !Reserved(j, s.prefix, s.next)
    modifies s, store
    ensures s.Valid() && store.Valid()
    ensures Outcome(s, ids, stop, maxNew, r, failed) && s.faults >= old(s.faults) + |failed|
    ensures |routes| == |failed| + (if r.Served? then 1 else 0)
    ensures Failovers(routes, failed) && ChosenWhenShown(s.shown, s.model.numLayers, routes, failed)
    ensures r.NoCoverage? ==> s.waits >= old(s.waits) + polls(|failed|)
    ensures forall j | j in old(store.rows) :: j in store.rows && store.rows[j] == old(store.rows)[j]
    ensures forall j | j in store.rows && j !in old(store.rows) ::
              && j == JobName(s.prefix, old(s.next))
              && store.rows[j].tokens <= Expected(s.model, ids, stop, maxNew)
    ensures store.lost == old(store.lost) ==>
      var j := JobName(s.prefix, old(s.next));
      && j in store.rows && Recorded(store.rows[j], r, decode)
      && (r.Served? ==> store.rows[j].tokens == r.tokens)
      && s.picks == old(s.picks) + |store.rows[j].tokens| + (if r.Served? && r.finish == STOP then 1 else 0)
      && store.rows[j].modelId == modelId && store.rows[j].prompt == prompt && store.rows[j].promptLen == |ids|
  {
    hide Expected, LogFollows, Outcome, Recorded, AllHonest, JobsWellFormed, NoReserved, ListedRight, Failovers;
    hide Reserved, JobName, ChosenWhenShown;
    var log := s.NextJob();
    LaterNamesAreReserved(s.prefix, s.next - 1, old(s.next));
    assert log !in store.rows;
    var lost: bool := *;
    if lost {
      store.Lose();
    } else {
      store.CreateJob(log, modelId, prompt, |ids|);
    }
    ghost var a := Ask(s.model, ids, stop, maxNew);
    EmptyLogFollows(store, log, a);
    r, routes, failed := GenerateWithFailover(s, store, log, ids, stop, maxNew, polls);
    FollowingLog(store, log, a);
    RecordResult(store, log, r, decode);
    if r.Raised500? && log in store.rows {
      StaysUnfinished(store.rows[log], r, decode);
    }
  }

  lemma StaysUnfinished(row: Log.Row, r: Served, decode: seq<Token> -> string)
    requires r.Raised500?
    ensures Active(row) ==> Recorded(row, r, decode)
  {
  }

  lemma EmptyLogFollows(store: Log.JobStore, log: string, a: Ask)
    requires store.Valid() && a.ids != [] && store.Tokens(log) == []
    ensures LogFollows(store, log, a)
  {
    hide Expected;
  }

  lemma FollowingLog(store: Log.JobStore, log: string, a: Ask)
    requires a.ids != [] && LogFollows(store, log, a)
    ensures store.Valid() && store.Tokens(log) <= Expected(a.m, a.ids, a.stop, a.maxNew)
  {
  }
}
