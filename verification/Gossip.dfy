// Gossip among nodes: stamping, pushing, pulling, merging and pruning in any interleaving, with
// messages delayed, repeated or lost and with clocks that may go backwards.
module Gossip {
  import opened Text
  import opened Registry
  import Routing

  /** A heartbeat for a new self-advert: the clock, or a little more than the last one. */
  function NextHb(last: real, clock: real): (t: real)
    ensures t > last && t >= clock
    ensures t == clock || t == last + 0.001
    ensures clock > last ==> t == clock
  {
    if clock <= last then last + 0.001 else clock
  }

  datatype Push = Push(url: string, node: Option<Advert>)
  datatype Body = SelfPush(push: Push) | RelayPush(nodes: map<string, Advert>) | Other

  const EMPTY_ADVERT := Advert(Routing.Stages(false, false, []), None)

  /** What an incoming POST /registry does to the entries. */
  function Received(entries: Entries, body: Body, now: real, ttl: real): Entries {
    match body
    case SelfPush(push) =>
      entries[push.url := Held(if push.node.Some? then push.node.value else EMPTY_ADVERT, now + ttl)]
    case RelayPush(nodes) => Merged(entries, nodes, now, ttl)
    case Other => entries
  }

  /** The entries after the replies of the peers polled in one round; None is a failed pull. */
  function Pulled(entries: Entries, replies: seq<Option<map<string, Advert>>>, now: real, ttl: real): Entries {
    if replies == [] then entries
    else
      var n := |replies| - 1;
      var before := Pulled(entries, replies[..n], now, ttl);
      if replies[n].Some? then Merged(before, replies[n].value, now, ttl) else before
  }

  /** What the peers said of u in one round. */
  function Heard(replies: seq<Option<map<string, Advert>>>, u: string): set<Advert> {
    set i | 0 <= i < |replies| && replies[i].Some? && u in replies[i].value :: replies[i].value[u]
  }

  /** Among what was held and what the peers said, the freshest record is held afterwards: what was held if
      nothing said beats it, and otherwise a record said, with a new time to live. */
  lemma {:induction false} PullKeepsFreshest(entries: Entries, replies: seq<Option<map<string, Advert>>>, now: real,
                                             ttl: real, u: string)
    ensures var after := Pulled(entries, replies, now, ttl);
      && (u in after <==> u in entries || Heard(replies, u) != {})
      && (u in after ==>
            && ((u in entries && after[u] == entries[u])
                || (after[u].advert in Heard(replies, u) && after[u].expiry == now + ttl))
            && (forall a | a in Heard(replies, u) :: !Beats(a, after[u].advert))
            && (u in entries ==> after[u] == entries[u] || Beats(after[u].advert, entries[u].advert)))
  {
    if replies != [] {
      var n := |replies| - 1;
      PullKeepsFreshest(entries, replies[..n], now, ttl, u);
      HeardOneMore(replies, u);
      var before := Pulled(entries, replies[..n], now, ttl);
      if replies[n].Some? {
        MergedMeans(before, replies[n].value, now, ttl);
        hide Merged, Heard;
      }
    }
  }

  lemma HeardOneMore(replies: seq<Option<map<string, Advert>>>, u: string)
    requires replies != []
    ensures var n := |replies| - 1;
      Heard(replies, u) == Heard(replies[..n], u)
        + (if replies[n].Some? && u in replies[n].value then {replies[n].value[u]} else {})
  {
    var n := |replies| - 1;
    assert forall i | 0 <= i < n :: replies[..n][i] == replies[i];
    forall a | a in Heard(replies[..n], u)
      ensures a in Heard(replies, u)
    {
      var i :| 0 <= i < n && replies[..n][i].Some? && u in replies[..n][i].value && replies[..n][i].value[u] == a;
      assert replies[i] == replies[..n][i];
    }
  }

  class GossipNode {
    const url: string
    const ttl: real
    var hb: real
    const registry: Registry

    /** The counter starts from the wall clock; the node knows itself at once. */
    constructor (url: string, ttl: real, seed: real, clock: real, stages: Routing.Stages, now: real)
      ensures this.url == url && this.ttl == ttl && fresh(registry)
      ensures hb == NextHb(seed, clock)
      ensures registry.entries == map[][url := Held(Advert(stages, Some(hb)), now + ttl)]
    {
      var r := new Registry();
      r.Upsert(url, Advert(stages, Some(NextHb(seed, clock))), now, ttl);
      this.url, this.ttl, hb, registry := url, ttl, NextHb(seed, clock), r;
    }

    /** Strictly increasing whatever the clock does. */
    method NextHeartbeat(clock: real) returns (t: real)
      modifies this`hb
      ensures t == hb == NextHb(old(hb), clock)
    {
      t := clock;
      if t <= hb {
        t := hb + 0.001;
      }
      hb := t;
    }

    /** The step body of the gossip thread: advertise itself, pull from and push to every peer, prune. */
    method GossipStep(stages: Routing.Stages, clock: real, now: real, replies: seq<Option<map<string, Advert>>>)
      returns (pushed: Push)
      modifies this`hb, registry
      ensures hb == NextHb(old(hb), clock) && pushed == Push(url, Some(Advert(stages, Some(hb))))
      ensures registry.entries ==
        Pruned(Pulled(old(registry.entries)[url := Held(Advert(stages, Some(hb)), now + ttl)], replies, now, ttl), now)
    {
      var t := NextHeartbeat(clock);
      var advert := Advert(stages, Some(t));
      registry.Upsert(url, advert, now, ttl);
      ghost var start := registry.entries;
      for i := 0 to |replies|
        invariant hb == t && registry.entries == Pulled(start, replies[..i], now, ttl)
      {
        assert replies[..i + 1][..i] == replies[..i];
        if replies[i].Some? {
          registry.Merge(replies[i].value, now, ttl);
        }
      }
      assert replies[..|replies|] == replies;
      registry.Prune(now);
      pushed := Push(url, Some(advert));
    }

    method PostRegistry(body: Body, now: real)
      modifies registry
      ensures registry.entries == Received(old(registry.entries), body, now, ttl)
      ensures body.SelfPush? ==> registry.entries == old(registry.entries)[body.push.url :=
                Held(match body.push.node case Some(a) => a case None => Advert(Routing.Stages(false, false, []), None),
                     now + ttl)]
      ensures body.RelayPush? ==>
        var before := old(registry.entries);
        && (forall u :: u in registry.entries <==> u in before || u in body.nodes)
        && (forall u | u in body.nodes && (u !in before || Beats(body.nodes[u], before[u].advert)) ::
              registry.entries[u] == Held(body.nodes[u], now + ttl))
        && (forall u | u in before && (u !in body.nodes || !Beats(body.nodes[u], before[u].advert)) ::
              registry.entries[u] == before[u])
      ensures body.Other? ==> registry.entries == old(registry.entries)
    {
      match body {
        case SelfPush(push) =>
          registry.Upsert(push.url, if push.node.Some? then push.node.value else EMPTY_ADVERT, now, ttl);
        case RelayPush(nodes) => registry.Merge(nodes, now, ttl);
        case Other =>
      }
    }
  }

  // ---- The network ----

  /** A node: its time to live, its last heartbeat, all records it ever stamped, what it holds, its latest
      local time. */
  datatype Node = Node(ttl: real, hb: real, stamped: seq<Advert>, entries: Entries, latest: real)

  /** Messages once sent stay deliverable, so any delay, repetition and loss is covered. */
  datatype Net = Net(nodes: map<string, Node>, sent: set<Body>)

  datatype Action =
    | Stamp(u: string, stages: Routing.Stages, clock: real, now: real)
    | Serve(u: string, now: real)                       // answer a pull or relay what is visible
    | Deliver(u: string, body: Body, now: real)
    | Prune(u: string, now: real)

  function Later(a: real, b: real): real {
    if a < b then b else a
  }

  function Act(net: Net, a: Action): Net {
    if a.u !in net.nodes then net
    else
      var n := net.nodes[a.u];
      match a
      case Stamp(u, stages, clock, now) =>
        var hb := NextHb(n.hb, clock);
        var advert := Advert(stages, Some(hb));
        var n' := n.(hb := hb, stamped := n.stamped + [advert], entries := n.entries[u := Held(advert, now + n.ttl)],
                    latest := Later(n.latest, now));
        Net(net.nodes[u := n'], net.sent + {SelfPush(Push(u, Some(advert)))})
      case Serve(u, now) => net.(sent := net.sent + {RelayPush(Visible(n.entries, now))})
      case Deliver(u, body, now) =>
        if body !in net.sent then net
        else
          var n' := n.(entries := Received(n.entries, body, now, n.ttl), latest := Later(n.latest, now));
          net.(nodes := net.nodes[u := n'])
      case Prune(u, now) =>
        net.(nodes := net.nodes[u := n.(entries := Pruned(n.entries, now))])
  }

  /** A record that the node of that url stamped, not fresher than its latest heartbeat. */
  predicate Genuine(net: Net, u: string, a: Advert) {
    u in net.nodes && a in net.nodes[u].stamped && a.hb.Some? && a.hb.value <= net.nodes[u].hb
  }

  predicate GenuineMap(net: Net, m: map<string, Advert>) {
    forall u | u in m :: Genuine(net, u, m[u])
  }

  predicate GenuineBody(net: Net, b: Body) {
    match b
    case SelfPush(push) => push.node.Some? && Genuine(net, push.url, push.node.value)
    case RelayPush(nodes) => GenuineMap(net, nodes)
    case Other => false
  }

  predicate GenuineEntries(net: Net, entries: Entries) {
    forall u | u in entries :: Genuine(net, u, entries[u].advert)
  }

  predicate NotTooLong(entries: Entries, limit: real) {
    forall u | u in entries :: entries[u].expiry <= limit
  }

  /** Heartbeats strictly increase from record to record. */
  predicate Increasing(n: Node) {
    && (forall i | 0 <= i < |n.stamped| :: n.stamped[i].hb.Some? && n.stamped[i].hb.value <= n.hb)
    && (forall i, j | 0 <= i < j < |n.stamped| :: n.stamped[i].hb.value < n.stamped[j].hb.value)
  }

  predicate Inv(net: Net) {
    && (forall v | v in net.nodes ::
          && Increasing(net.nodes[v])
          && GenuineEntries(net, net.nodes[v].entries)
          && NotTooLong(net.nodes[v].entries, net.nodes[v].latest + net.nodes[v].ttl))
    && (forall b | b in net.sent :: GenuineBody(net, b))
  }

  predicate Start(net: Net) {
    net.sent == {} && forall v | v in net.nodes :: net.nodes[v].stamped == [] && net.nodes[v].entries == map[]
  }

  /** later has everything stamped that net has, and no older heartbeats. */
  predicate Extends(net: Net, later: Net) {
    forall u | u in net.nodes ::
      && u in later.nodes && later.nodes[u].ttl == net.nodes[u].ttl
      && net.nodes[u].stamped <= later.nodes[u].stamped && net.nodes[u].hb <= later.nodes[u].hb
  }

  lemma ActExtends(net: Net, a: Action)
    ensures Extends(net, Act(net, a))
  {
  }

  lemma GenuineStays(net: Net, later: Net, u: string, a: Advert)
    requires Extends(net, later) && Genuine(net, u, a)
    ensures Genuine(later, u, a)
  {
    var i :| 0 <= i < |net.nodes[u].stamped| && net.nodes[u].stamped[i] == a;
    assert later.nodes[u].stamped[i] == a;
  }

  lemma GenuineEntriesStay(net: Net, later: Net, entries: Entries)
    requires Extends(net, later) && GenuineEntries(net, entries)
    ensures GenuineEntries(later, entries)
  {
    hide Extends, Genuine;
    forall u | u in entries
      ensures Genuine(later, u, entries[u].advert)
    {
      GenuineStays(net, later, u, entries[u].advert);
    }
  }

  lemma GenuineBodyStays(net: Net, later: Net, b: Body)
    requires Extends(net, later) && GenuineBody(net, b)
    ensures GenuineBody(later, b)
  {
    hide Extends, Genuine;
    match b
    case SelfPush(push) => GenuineStays(net, later, push.url, push.node.value);
    case RelayPush(nodes) =>
      forall u | u in nodes
        ensures Genuine(later, u, nodes[u])
      {
        GenuineStays(net, later, u, nodes[u]);
      }
  }

  lemma ReceivedIsGenuine(net: Net, entries: Entries, body: Body, latest: real, now: real, ttl: real)
    requires GenuineEntries(net, entries) && GenuineBody(net, body) && NotTooLong(entries, latest + ttl)
    ensures GenuineEntries(net, Received(entries, body, now, ttl))
    ensures NotTooLong(Received(entries, body, now, ttl), Later(latest, now) + ttl)
  {
    hide Genuine, HbNewer;
  }

  lemma {:induction false} ActKeepsInv(net: Net, a: Action)
    requires Inv(net)
    ensures Inv(Act(net, a))
  {
    hide Genuine, Received, NotTooLong, Increasing, Merged;
    var later := Act(net, a);
    ActExtends(net, a);
    forall v | v in later.nodes
      ensures Increasing(later.nodes[v])
      ensures GenuineEntries(later, later.nodes[v].entries)
      ensures NotTooLong(later.nodes[v].entries, later.nodes[v].latest + later.nodes[v].ttl)
    {
      NodeKeepsInv(net, a, v);
    }
    forall b | b in later.sent
      ensures GenuineBody(later, b)
    {
      if b in net.sent {
        GenuineBodyStays(net, later, b);
      } else {
        NewBodyIsGenuine(net, a, b);
      }
    }
  }

  lemma StampKeepsInv(net: Net, a: Action)
    requires Inv(net) && a.Stamp? && a.u in net.nodes
    ensures var later := Act(net, a);
      && Increasing(later.nodes[a.u])
      && GenuineEntries(later, later.nodes[a.u].entries)
      && NotTooLong(later.nodes[a.u].entries, later.nodes[a.u].latest + later.nodes[a.u].ttl)
  {
    hide Received, Merged, Extends, GenuineBody, Genuine, Visible, NextHb;
    var later := Act(net, a);
    var n := net.nodes[a.u];
    ActExtends(net, a);
    GenuineEntriesStay(net, later, n.entries);
    StampedIsGenuine(later, a.u, n.stamped, Advert(a.stages, Some(NextHb(n.hb, a.clock))));
  }

  lemma NodeKeepsInv(net: Net, a: Action, v: string)
    requires Inv(net) && v in Act(net, a).nodes
    ensures var later := Act(net, a);
      && Increasing(later.nodes[v])
      && GenuineEntries(later, later.nodes[v].entries)
      && NotTooLong(later.nodes[v].entries, later.nodes[v].latest + later.nodes[v].ttl)
  {
    hide Received, Merged, Extends, GenuineBody, Genuine, Visible, NextHb;
    var later := Act(net, a);
    var n := net.nodes[v];
    ActExtends(net, a);
    GenuineEntriesStay(net, later, n.entries);
    if a.u == v {
      match a
      case Stamp(_, _, _, _) => StampKeepsInv(net, a);
      case Serve(_, _) =>
      case Deliver(u, body, now) =>
        if body in net.sent {
          GenuineBodyStays(net, later, body);
          ReceivedIsGenuine(later, n.entries, body, n.latest, now, n.ttl);
        }
      case Prune(u, now) =>
    }
  }

  lemma StampedIsGenuine(net: Net, u: string, before: seq<Advert>, a: Advert)
    requires u in net.nodes && net.nodes[u].stamped == before + [a] && a.hb == Some(net.nodes[u].hb)
    ensures Genuine(net, u, a)
  {
    assert net.nodes[u].stamped[|before|] == a;
  }

  lemma NewBodyIsGenuine(net: Net, a: Action, b: Body)
    requires Inv(net) && b in Act(net, a).sent && b !in net.sent
    ensures GenuineBody(Act(net, a), b)
  {
    hide Received, Merged;
    var later := Act(net, a);
    ActExtends(net, a);
    var n := net.nodes[a.u];
    GenuineEntriesStay(net, later, n.entries);
    if a.Stamp? {
      StampedIsGenuine(later, a.u, n.stamped, Advert(a.stages, Some(NextHb(n.hb, a.clock))));
    }
  }

  function RunAll(net: Net, actions: seq<Action>): Net {
    if actions == [] then net
    else Act(RunAll(net, actions[..|actions| - 1]), actions[|actions| - 1])
  }

  /** Over every run: a record held anywhere for a url is one that url's node stamped, with a heartbeat
      not beyond its latest; heartbeats of a node strictly increase whatever its clock does; and no entry
      outlives the latest local time used plus the time to live. */
  lemma {:induction false} EveryRun(net: Net, actions: seq<Action>)
    requires Start(net)
    ensures Inv(RunAll(net, actions))
  {
    hide Act;
    if actions == [] {
    } else {
      EveryRun(net, actions[..|actions| - 1]);
      ActKeepsInv(RunAll(net, actions[..|actions| - 1]), actions[|actions| - 1]);
    }
  }

  /** So each heartbeat of a node is on one record only, which is what order-independent merging needs. */
  lemma OneRecordPerHeartbeat(net: Net, actions: seq<Action>, u: string, said: set<Advert>)
    requires Start(net) && u in RunAll(net, actions).nodes
    requires forall a | a in said :: Genuine(RunAll(net, actions), u, a)
    ensures OnePerHb(said)
  {
    hide RunAll, GenuineEntries, NotTooLong, GenuineBody;
    EveryRun(net, actions);
    OneStampPerHeartbeat(RunAll(net, actions), u, said);
  }

  lemma OneStampPerHeartbeat(net: Net, u: string, said: set<Advert>)
    requires u in net.nodes && Increasing(net.nodes[u]) && forall a | a in said :: Genuine(net, u, a)
    ensures OnePerHb(said)
  {
    var n := net.nodes[u];
    forall a, b | a in said && b in said && a.hb == b.hb
      ensures a == b
    {
      assert Genuine(net, u, a) && Genuine(net, u, b);
      var i :| 0 <= i < |n.stamped| && n.stamped[i] == a;
      var j :| 0 <= j < |n.stamped| && n.stamped[j] == b;
    }
  }

  // ---- A node's step is made of those actions ----

  /** The replies of one round of pulls as deliveries; a failed pull delivers nothing. */
  function Deliveries(u: string, replies: seq<Option<map<string, Advert>>>, now: real): (actions: seq<Action>)
    ensures |actions| == |replies|
  {
    seq(|replies|, i requires 0 <= i < |replies| =>
      Deliver(u, if replies[i].Some? then RelayPush(replies[i].value) else Other, now))
  }

  lemma {:induction false} RunAllConcat(net: Net, a: seq<Action>, b: seq<Action>)
    ensures RunAll(net, a + b) == RunAll(RunAll(net, a), b)
    decreases |b|
  {
    hide Act;
    if b == [] {
      assert a + b == a;
    } else {
      var n := |b| - 1;
      RunAllConcat(net, a, b[..n]);
      assert (a + b)[..|a + b| - 1] == a + b[..n];
    }
  }

  lemma OneAction(net: Net, a: Action)
    ensures RunAll(net, [a]) == Act(net, a)
  {
    hide Act;
    assert [a][..0] == [];
    assert RunAll(net, [a][..0]) == net;
  }

  lemma {:induction false} PullsAreDeliveries(net: Net, u: string, replies: seq<Option<map<string, Advert>>>, now: real)
    requires u in net.nodes
    requires forall i | 0 <= i < |replies| && replies[i].Some? :: RelayPush(replies[i].value) in net.sent
    ensures var after := RunAll(net, Deliveries(u, replies, now));
      && u in after.nodes && after.sent == net.sent
      && after.nodes[u].hb == net.nodes[u].hb && after.nodes[u].ttl == net.nodes[u].ttl
      && after.nodes[u].entries == Pulled(net.nodes[u].entries, replies, now, net.nodes[u].ttl)
  {
    hide Merged;
    if replies != [] {
      var n := |replies| - 1;
      assert forall i | 0 <= i < n :: replies[..n][i] == replies[i];
      PullsAreDeliveries(net, u, replies[..n], now);
      assert Deliveries(u, replies, now)[..n] == Deliveries(u, replies[..n], now);
    }
  }

  lemma StampIs(net: Net, u: string, stages: Routing.Stages, clock: real, now: real)
    requires u in net.nodes
    ensures var n, after := net.nodes[u], Act(net, Stamp(u, stages, clock, now));
      var advert := Advert(stages, Some(NextHb(n.hb, clock)));
      && u in after.nodes && after.sent == net.sent + {SelfPush(Push(u, Some(advert)))}
      && after.nodes[u].hb == NextHb(n.hb, clock) && after.nodes[u].ttl == n.ttl
      && after.nodes[u].entries == n.entries[u := Held(advert, now + n.ttl)]
  {
    hide NextHb;
  }

  /** Stamping, taking in what was pulled, and pruning: the effect GossipStep ensures is that of these
      actions, so EveryRun speaks about the nodes' own steps. */
  lemma StepIsActions(net: Net, u: string, stages: Routing.Stages, clock: real, now: real,
                      replies: seq<Option<map<string, Advert>>>)
    requires u in net.nodes
    requires forall i | 0 <= i < |replies| && replies[i].Some? :: RelayPush(replies[i].value) in net.sent
    ensures var n := net.nodes[u];
      var actions := [Stamp(u, stages, clock, now)] + Deliveries(u, replies, now) + [Prune(u, now)];
      var after := RunAll(net, actions);
      var hb := NextHb(n.hb, clock);
      && u in after.nodes && after.nodes[u].hb == hb
      && SelfPush(Push(u, Some(Advert(stages, Some(hb))))) in after.sent
      && after.nodes[u].entries ==
           Pruned(Pulled(n.entries[u := Held(Advert(stages, Some(hb)), now + n.ttl)], replies, now, n.ttl), now)
  {
    hide Merged, Pulled, NextHb, Deliveries, Pruned, Act, RunAll;
    var stamp, prune := Stamp(u, stages, clock, now), Prune(u, now);
    var stamped := Act(net, stamp);
    OneAction(net, stamp);
    StampIs(net, u, stages, clock, now);
    RunAllConcat(net, [stamp], Deliveries(u, replies, now));
    PullsAreDeliveries(stamped, u, replies, now);
    var pulled := RunAll(stamped, Deliveries(u, replies, now));
    RunAllConcat(net, [stamp] + Deliveries(u, replies, now), [prune]);
    OneAction(pulled, prune);
    PruneIs(pulled, u, now);
  }

  lemma PruneIs(net: Net, u: string, now: real)
    requires u in net.nodes
    ensures Act(net, Prune(u, now)) == net.(nodes := net.nodes[u := net.nodes[u].(entries := Pruned(net.nodes[u].entries, now))])
  {
  }
}
