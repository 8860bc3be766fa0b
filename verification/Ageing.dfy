// When a record ages out. At one registry: exactly when what is held for a url is replaced. Among several:
// two live nodes that prune at different times keep a dead node's record for ever.
module Ageing {
  import opened Text
  import opened Registry
  import opened Gossip
  import Routing

  // ---- One registry ----

  datatype Event = Relayed(advert: map<string, Advert>, now: real) | PrunedAt(now: real)

  function After(entries: Entries, events: seq<Event>, ttl: real): Entries {
    if events == [] then entries
    else
      var before := After(entries, events[..|events| - 1], ttl);
      match events[|events| - 1]
      case Relayed(advert, now) => Merged(before, advert, now, ttl)
      case PrunedAt(now) => Pruned(before, now)
  }

  /** The event writes what is held for u, record and expiry. */
  predicate Writes(entries: Entries, e: Event, u: string) {
    e.Relayed? && u in e.advert && (u !in entries || HbNewer(e.advert[u].hb, entries[u].advert.hb))
  }

  predicate WritesAt(entries: Entries, events: seq<Event>, ttl: real, u: string, i: nat) {
    i < |events| && Writes(After(entries, events[..i], ttl), events[i], u)
  }

  /** What was held for u at the start is replaced somewhere along the way. */
  predicate Replaced(entries: Entries, events: seq<Event>, ttl: real, u: string) {
    exists i: nat | i < |events| :: WritesAt(entries, events, ttl, u, i)
  }

  /** A prune that removes what was held for u at the start. */
  predicate Drops(held: Held, events: seq<Event>, j: nat) {
    j < |events| && events[j].PrunedAt? && held.expiry <= events[j].now
  }

  /** A relay that carries u and is strictly fresher than the record held at the start, or comes after a
      prune past its expiry. */
  predicate Revives(held: Held, events: seq<Event>, u: string, i: nat) {
    && i < |events| && events[i].Relayed? && u in events[i].advert
    && (Beats(events[i].advert[u], held.advert) || exists j: nat | j < i :: Drops(held, events, j))
  }

  lemma BeatsIsNewer(a: Advert, b: Advert)
    ensures Beats(a, b) <==> HbNewer(a.hb, b.hb)
  {
  }

  lemma RevivesPrefix(held: Held, events: seq<Event>, u: string, n: nat, i: nat)
    requires i < n <= |events|
    ensures Revives(held, events[..n], u, i) <==> Revives(held, events, u, i)
    ensures Drops(held, events[..n], i) <==> Drops(held, events, i)
  {
    assert events[..n][i] == events[i];
    forall j: nat | j < i
      ensures Drops(held, events[..n], j) <==> Drops(held, events, j)
    {
      assert events[..n][j] == events[j];
    }
  }

  /** Until something revives it, the entry is what it was, or gone since a prune past its expiry. */
  lemma {:induction false} Quiet(entries: Entries, events: seq<Event>, ttl: real, u: string)
    requires u in entries && forall i: nat | i < |events| :: !Revives(entries[u], events, u, i)
    ensures !Replaced(entries, events, ttl, u)
    ensures var after := After(entries, events, ttl);
      && (u in after <==> !exists j: nat | j < |events| :: Drops(entries[u], events, j))
      && (u in after ==> after[u] == entries[u])
  {
    hide HbNewer, Beats;
    if events != [] {
      var n := |events| - 1;
      var held := entries[u];
      forall i: nat | i < n
        ensures Revives(held, events[..n], u, i) <==> Revives(held, events, u, i)
        ensures Drops(held, events[..n], i) <==> Drops(held, events, i)
      {
        RevivesPrefix(held, events, u, n, i);
      }
      Quiet(entries, events[..n], ttl, u);
      if events[n].Relayed? && u in events[n].advert {
        BeatsIsNewer(events[n].advert[u], held.advert);
        assert !Revives(held, events, u, n);
      }
      forall i: nat | i < |events|
        ensures !WritesAt(entries, events, ttl, u, i)
      {
        if i < n {
          assert events[..n][..i] == events[..i] && events[..n][i] == events[i];
          assert !WritesAt(entries, events[..n], ttl, u, i);
        } else {
          assert !Revives(held, events, u, n);
        }
      }
      assert Drops(held, events, n) <==> events[n].PrunedAt? && held.expiry <= events[n].now;
    }
  }

  /** The exact rule. Over any merges and prunes, what a registry held for a url is replaced if and only if a
      strictly fresher relay arrived, or a relay that carries the url arrived after a prune removed it. */
  lemma ReplacedIff(entries: Entries, events: seq<Event>, ttl: real, u: string)
    requires u in entries
    ensures Replaced(entries, events, ttl, u) <==> exists i: nat | i < |events| :: Revives(entries[u], events, u, i)
  {
    if i: nat :| i < |events| && Revives(entries[u], events, u, i) {
      var first := FirstRevival(entries[u], events, u, i);
      forall k: nat | k < first
        ensures !Revives(entries[u], events[..first], u, k)
      {
        RevivesPrefix(entries[u], events, u, first, k);
      }
      Quiet(entries, events[..first], ttl, u);
      forall j: nat | j < first
        ensures Drops(entries[u], events[..first], j) <==> Drops(entries[u], events, j)
      {
        RevivesPrefix(entries[u], events, u, first, j);
      }
      BeatsIsNewer(events[first].advert[u], entries[u].advert);
      assert WritesAt(entries, events, ttl, u, first);
    } else {
      Quiet(entries, events, ttl, u);
    }
  }

  lemma {:induction false} FirstRevival(held: Held, events: seq<Event>, u: string, i: nat) returns (first: nat)
    requires i < |events| && Revives(held, events, u, i)
    ensures first <= i && Revives(held, events, u, first)
    ensures forall k: nat | k < first :: !Revives(held, events, u, k)
  {
    if k: nat :| k < i && Revives(held, events, u, k) {
      first := FirstRevival(held, events, u, k);
    } else {
      first := i;
    }
  }

  // ---- Two live nodes and a dead one ----

  /** a and b hold nothing but the dead node's record, a until x and b until y. */
  predicate Passing(net: Net, a: string, b: string, d: string, advert: Advert, ttl: real, x: real, y: real) {
    && a in net.nodes && b in net.nodes && a != b && x < y < x + ttl
    && net.nodes[a].ttl == ttl && net.nodes[b].ttl == ttl
    && net.nodes[a].entries == map[d := Held(advert, x)] && net.nodes[b].entries == map[d := Held(advert, y)]
  }

  /** a prunes the record when it expires and then pulls it from b, where it still has time to live. */
  function Turn(a: string, b: string, d: string, advert: Advert, x: real): (actions: seq<Action>) {
    [Prune(a, x), Serve(b, x), Deliver(a, RelayPush(map[d := advert]), x)]
  }

  lemma ThreeActions(net: Net, p: Action, q: Action, r: Action)
    ensures RunAll(net, [p, q, r]) == Act(Act(Act(net, p), q), r)
  {
    hide Act;
    OneAction(net, p);
    RunAllConcat(net, [p], [q]);
    OneAction(Act(net, p), q);
    RunAllConcat(net, [p] + [q], [r]);
    OneAction(Act(Act(net, p), q), r);
    assert [p] + [q] + [r] == [p, q, r];
  }

  lemma TurnPasses(net: Net, a: string, b: string, d: string, advert: Advert, ttl: real, x: real, y: real)
    requires Passing(net, a, b, d, advert, ttl, x, y)
    ensures Passing(RunAll(net, Turn(a, b, d, advert, x)), b, a, d, advert, ttl, y, x + ttl)
  {
    var relay := RelayPush(map[d := advert]);
    ThreeActions(net, Prune(a, x), Serve(b, x), Deliver(a, relay, x));
    var pruned := Act(net, Prune(a, x));
    assert pruned.nodes[a].entries == map[];
    var served := Act(pruned, Serve(b, x));
    assert Visible(pruned.nodes[b].entries, x) == map[d := advert];
    assert relay in served.sent;
    var after := Act(served, Deliver(a, relay, x));
    assert after.nodes[a].entries == map[d := Held(advert, x + ttl)];
  }

  /** k turns of a and k of b, each at the moment its own record expires. */
  function Rounds(a: string, b: string, d: string, advert: Advert, ttl: real, x: real, y: real, k: nat): seq<Action>
    decreases k
  {
    if k == 0 then []
    else Turn(a, b, d, advert, x) + Turn(b, a, d, advert, y) + Rounds(a, b, d, advert, ttl, x + ttl, y + ttl, k - 1)
  }

  predicate Silent(actions: seq<Action>) {
    forall i | 0 <= i < |actions| :: !actions[i].Stamp?
  }

  /** x, k times to live later. */
  function Until(x: real, ttl: real, k: nat): real
    decreases k
  {
    if k == 0 then x else Until(x + ttl, ttl, k - 1)
  }

  lemma {:induction false} UntilIs(x: real, ttl: real, k: nat)
    ensures Until(x, ttl, k) == x + k as real * ttl
    decreases k
  {
    if k > 0 {
      UntilIs(x + ttl, ttl, k - 1);
      assert k as real * ttl == ttl + (k - 1) as real * ttl;
    }
  }

  /** For every number of rounds the record is held on, with the same heartbeat and an ever later expiry,
      although nobody stamps anything. */
  lemma {:induction false} NeverAgesOut(net: Net, a: string, b: string, d: string, advert: Advert, ttl: real,
                                        x: real, y: real, k: nat)
    requires Passing(net, a, b, d, advert, ttl, x, y)
    ensures var actions := Rounds(a, b, d, advert, ttl, x, y, k);
      Silent(actions) && Passing(RunAll(net, actions), a, b, d, advert, ttl, Until(x, ttl, k), Until(y, ttl, k))
    decreases k
  {
    hide Turn, Passing, Act, Silent, RunAll;
    if k == 0 {
      NothingRuns(net);
    } else {
      var t1, t2 := Turn(a, b, d, advert, x), Turn(b, a, d, advert, y);
      var rest := Rounds(a, b, d, advert, ttl, x + ttl, y + ttl, k - 1);
      TurnPasses(net, a, b, d, advert, ttl, x, y);
      TurnPasses(RunAll(net, t1), b, a, d, advert, ttl, y, x + ttl);
      NeverAgesOut(RunAll(RunAll(net, t1), t2), a, b, d, advert, ttl, x + ttl, y + ttl, k - 1);
      hide Rounds;
      ThreeRuns(net, t1, t2, rest);
      TurnIsSilent(a, b, d, advert, x);
      TurnIsSilent(b, a, d, advert, y);
      AllSilent(t1, t2);
      AllSilent(t1 + t2, rest);
      RoundsAre(a, b, d, advert, ttl, x, y, k);
    }
  }

  lemma RoundsAre(a: string, b: string, d: string, advert: Advert, ttl: real, x: real, y: real, k: nat)
    requires k > 0
    ensures Rounds(a, b, d, advert, ttl, x, y, k) ==
      Turn(a, b, d, advert, x) + Turn(b, a, d, advert, y) + Rounds(a, b, d, advert, ttl, x + ttl, y + ttl, k - 1)
  {
    hide Turn;
  }

  lemma ThreeRuns(net: Net, a: seq<Action>, b: seq<Action>, c: seq<Action>)
    ensures RunAll(net, a + b + c) == RunAll(RunAll(RunAll(net, a), b), c)
  {
    hide RunAll;
    RunAllConcat(net, a, b);
    RunAllConcat(net, a + b, c);
  }

  lemma NothingRuns(net: Net)
    ensures RunAll(net, []) == net && Silent([])
  {
  }

  lemma AllSilent(a: seq<Action>, b: seq<Action>)
    requires Silent(a) && Silent(b)
    ensures Silent(a + b)
  {
  }

  lemma TurnIsSilent(a: string, b: string, d: string, advert: Advert, x: real)
    ensures Silent(Turn(a, b, d, advert, x))
  {
  }

  const ANY := Routing.Stages(false, true, [])

  /** d stamps itself once, at time 0, and dies; a hears of it at once and b five seconds later. */
  function Death(a: string, b: string, d: string): seq<Action> {
    var push := SelfPush(Push(d, Some(Advert(ANY, Some(1.0)))));
    [Stamp(d, ANY, 1.0, 0.0), Deliver(a, push, 0.0), Deliver(b, push, 5.0)]
  }

  function Three(a: string, b: string, d: string): Net {
    var n := Node(10.0, 0.0, [], map[], 0.0);
    Net(map[a := n, b := n, d := n], {})
  }

  /** From a fresh network with a time to live of 10 seconds: for every k, at time 10 k + 9 the dead node is
      still visible, at the heartbeat of its only advert. */
  lemma DeadNodeStaysVisible(a: string, b: string, d: string, k: nat)
    requires a != b && a != d && b != d
    ensures Start(Three(a, b, d))
    ensures var advert := Advert(ANY, Some(1.0));
      var rounds := Rounds(a, b, d, advert, 10.0, 10.0, 15.0, k);
      var after := RunAll(Three(a, b, d), Death(a, b, d) + rounds);
      var now := 10.0 * k as real + 9.0;
      Silent(rounds) && a in after.nodes && d in Visible(after.nodes[a].entries, now)
      && Visible(after.nodes[a].entries, now)[d] == advert
  {
    hide Rounds, RunAll;
    var net, advert := Three(a, b, d), Advert(ANY, Some(1.0));
    var push := SelfPush(Push(d, Some(advert)));
    ThreeActions(net, Stamp(d, ANY, 1.0, 0.0), Deliver(a, push, 0.0), Deliver(b, push, 5.0));
    var born := Act(net, Stamp(d, ANY, 1.0, 0.0));
    assert push in born.sent;
    var heard := Act(born, Deliver(a, push, 0.0));
    assert heard.nodes[a].entries == map[d := Held(advert, 10.0)];
    var known := Act(heard, Deliver(b, push, 5.0));
    assert known.nodes[b].entries == map[d := Held(advert, 15.0)];
    NeverAgesOut(known, a, b, d, advert, 10.0, 10.0, 15.0, k);
    UntilIs(10.0, 10.0, k);
    RunAllConcat(net, Death(a, b, d), Rounds(a, b, d, advert, 10.0, 10.0, 15.0, k));
  }
}
