// Decentralised discovery state of one node: url -> record with a relative time to live.
module Registry {
  import opened Text
  import Routing

  /** What a node says about itself; hb is the heartbeat its origin stamped on it. */
  datatype Advert = Advert(stages: Routing.Stages, hb: Option<real>)

  datatype Held = Held(advert: Advert, expiry: real)

  type Entries = map<string, Held>

  /** Strictly fresher; a missing heartbeat sorts oldest. */
  predicate HbNewer(a: Option<real>, b: Option<real>) {
    a.Some? && (b.None? || a.value > b.value)
  }

  function Merged(entries: Entries, relayed: map<string, Advert>, now: real, ttl: real): (r: Entries)
    ensures r.Keys == entries.Keys + relayed.Keys
  {
    map u | u in entries.Keys + relayed.Keys ::
      if u !in entries then Held(relayed[u], now + ttl)
      else if u in relayed && HbNewer(relayed[u].hb, entries[u].advert.hb) then Held(relayed[u], now + ttl)
      else entries[u]
  }

  function Pruned(entries: Entries, now: real): Entries {
    map u | u in entries && entries[u].expiry > now :: entries[u]
  }

  function Visible(entries: Entries, now: real): map<string, Advert> {
    map u | u in entries && entries[u].expiry > now :: entries[u].advert
  }

  class Registry {
    var entries: Entries

    constructor ()
      ensures entries == map[]
    {
      entries := map[];
    }

    /** The origin itself speaking: always taken. */
    method Upsert(url: string, advert: Advert, now: real, ttl: real)
      modifies this
      ensures entries == old(entries)[url := Held(advert, now + ttl)]
    {
      entries := entries[url := Held(advert, now + ttl)];
    }

    /** A relay: an unknown url is adopted, a known one only replaced by a fresher heartbeat, and what is taken
        lives from now on; everything else stays as it is. */
    method Merge(relayed: map<string, Advert>, now: real, ttl: real)
      modifies this
      ensures entries == Merged(old(entries), relayed, now, ttl)
      ensures forall u :: u in entries <==> u in old(entries) || u in relayed
      ensures forall u | u in relayed && (u !in old(entries) || Beats(relayed[u], old(entries)[u].advert)) ::
                entries[u] == Held(relayed[u], now + ttl)
      ensures forall u | u in old(entries) && (u !in relayed || !Beats(relayed[u], old(entries)[u].advert)) ::
                entries[u] == old(entries)[u]
    {
      hide Merged, HbNewer;
      var todo := relayed.Keys;
      ghost var start := entries;
      MergeNothing(start, relayed, now, ttl);
      while todo != {}
        invariant todo <= relayed.Keys
        invariant entries == Merged(start, Without(relayed, todo), now, ttl)
        decreases |todo|
      {
        var u :| u in todo;
        ghost var before := entries;
        if u !in entries || HbNewer(relayed[u].hb, entries[u].advert.hb) {
          entries := entries[u := Held(relayed[u], now + ttl)];
        }
        assert todo - {u} + {u} == todo;
        todo := todo - {u};
        MergeOneMore(start, relayed, todo, u, now, ttl, before, entries);
      }
      assert Without(relayed, {}) == relayed;
      MergedMeans(start, relayed, now, ttl);
    }

    method Prune(now: real)
      modifies this
      ensures entries == Pruned(old(entries), now)
      ensures forall u :: u in entries <==> u in old(entries) && now < old(entries)[u].expiry
      ensures forall u | u in entries :: entries[u] == old(entries)[u]
    {
      entries := map u | u in entries && entries[u].expiry > now :: entries[u];
    }

    method StagesByUrl(now: real) returns (r: map<string, Advert>)
      ensures r == Visible(entries, now)
      ensures forall u :: u in r <==> u in entries && now < entries[u].expiry
      ensures forall u | u in r :: r[u] == entries[u].advert
    {
      r := map u | u in entries && entries[u].expiry > now :: entries[u].advert;
    }
  }

  /** The heartbeat of a is later, or only a has one. */
  predicate Beats(a: Advert, b: Advert) {
    match (a.hb, b.hb)
    case (Some(x), Some(y)) => y < x
    case (Some(_), None) => true
    case (None, _) => false
  }

  lemma MergedMeans(start: Entries, relayed: map<string, Advert>, now: real, ttl: real)
    ensures var after := Merged(start, relayed, now, ttl);
      && (forall u | u in relayed && (u !in start || Beats(relayed[u], start[u].advert)) ::
            u in after && after[u] == Held(relayed[u], now + ttl))
      && (forall u | u in start && (u !in relayed || !Beats(relayed[u], start[u].advert)) ::
            u in after && after[u] == start[u])
  {
  }

  function Without(relayed: map<string, Advert>, todo: set<string>): map<string, Advert> {
    map u | u in relayed && u !in todo :: relayed[u]
  }

  lemma MergeNothing(start: Entries, relayed: map<string, Advert>, now: real, ttl: real)
    ensures Merged(start, Without(relayed, relayed.Keys), now, ttl) == start
  {
  }

  lemma MergeOneMore(start: Entries, relayed: map<string, Advert>, todo: set<string>, u: string, now: real, ttl: real,
                     before: Entries, after: Entries)
    requires u in relayed && u !in todo
    requires before == Merged(start, Without(relayed, todo + {u}), now, ttl)
    requires after == if u !in before || HbNewer(relayed[u].hb, before[u].advert.hb)
                      then before[u := Held(relayed[u], now + ttl)] else before
    ensures after == Merged(start, Without(relayed, todo), now, ttl)
  {
    hide HbNewer;
    var goal := Merged(start, Without(relayed, todo), now, ttl);
    assert after.Keys == goal.Keys;
    forall v | v in after
      ensures after[v] == goal[v]
    {
    }
  }

  /** Pruning shows in nothing that is read then or later, and leaves exactly what is visible. */
  lemma PruneHidesNothing(entries: Entries, now: real, later: real)
    requires now <= later
    ensures Visible(Pruned(entries, now), later) == Visible(entries, later)
    ensures Visible(Pruned(entries, now), now).Keys == Pruned(entries, now).Keys
  {
    assert forall u | u in entries && entries[u].expiry > later :: u in Pruned(entries, now);
  }

  // ---- Relays only ----

  datatype Relay = Relay(advert: map<string, Advert>, now: real)

  function MergeAll(entries: Entries, relays: seq<Relay>, ttl: real): Entries {
    if relays == [] then entries
    else
      var n := |relays| - 1;
      Merged(MergeAll(entries, relays[..n], ttl), relays[n].advert, relays[n].now, ttl)
  }

  /** Everything said about a url: what was held at the start and what the relays carried. */
  function Said(entries: Entries, relays: seq<Relay>, u: string): set<Advert> {
    (if u in entries then {entries[u].advert} else {})
    + set i | 0 <= i < |relays| && u in relays[i].advert :: relays[i].advert[u]
  }

  /** After any relays the held record is one of those said, and none of them is fresher. */
  lemma {:induction false} MergeKeepsFreshest(entries: Entries, relays: seq<Relay>, ttl: real, u: string)
    ensures var after := MergeAll(entries, relays, ttl);
      && (u in after <==> Said(entries, relays, u) != {})
      && (u in after ==>
            && after[u].advert in Said(entries, relays, u)
            && forall a | a in Said(entries, relays, u) :: !Beats(a, after[u].advert))
  {
    if relays != [] {
      var n := |relays| - 1;
      MergeKeepsFreshest(entries, relays[..n], ttl, u);
      SaidOneMore(entries, relays, u);
    }
  }

  lemma SaidOneMore(entries: Entries, relays: seq<Relay>, u: string)
    requires relays != []
    ensures var n := |relays| - 1;
      Said(entries, relays, u) == Said(entries, relays[..n], u)
        + (if u in relays[n].advert then {relays[n].advert[u]} else {})
  {
    var n := |relays| - 1;
    forall a | a in Said(entries, relays, u)
      ensures a in Said(entries, relays[..n], u) || (u in relays[n].advert && a == relays[n].advert[u])
    {
      if u in entries && a == entries[u].advert {
      } else {
        var i :| 0 <= i < |relays| && u in relays[i].advert && relays[i].advert[u] == a;
        assert i < n ==> relays[..n][i] == relays[i];
      }
    }
    forall a | a in Said(entries, relays[..n], u)
      ensures a in Said(entries, relays, u)
    {
      if !(u in entries && a == entries[u].advert) {
        var i :| 0 <= i < n && u in relays[..n][i].advert && relays[..n][i].advert[u] == a;
        assert relays[i] == relays[..n][i];
      }
    }
  }

  /** One record per heartbeat. */
  predicate OnePerHb(said: set<Advert>) {
    forall a, b | a in said && b in said && a.hb == b.hb :: a == b
  }

  /** Order and repetition of the relays do not matter: whatever carries the same records about a url
      leaves the same record, provided an origin stamps each heartbeat on one record only. */
  lemma MergeOrderDoesNotMatter(entries: Entries, relays: seq<Relay>, others: seq<Relay>, ttl: real, u: string)
    requires Said(entries, relays, u) == Said(entries, others, u) && OnePerHb(Said(entries, relays, u))
    ensures var a, b := MergeAll(entries, relays, ttl), MergeAll(entries, others, ttl);
      (u in a <==> u in b) && (u in a ==> a[u].advert == b[u].advert)
  {
    hide Said, MergeAll;
    MergeKeepsFreshest(entries, relays, ttl, u);
    MergeKeepsFreshest(entries, others, ttl, u);
  }

  /** Relays that never beat the held heartbeat never move its expiry: once that is over the url is
      invisible, however often it is gossiped. */
  lemma {:induction false} StaleRelaysNeverRefresh(entries: Entries, relays: seq<Relay>, ttl: real, u: string, now: real)
    requires u in entries
    requires forall i | 0 <= i < |relays| && u in relays[i].advert ::
               !Beats(relays[i].advert[u], entries[u].advert)
    ensures var after := MergeAll(entries, relays, ttl);
      u in after && after[u] == entries[u] && (u in Visible(after, now) <==> now < entries[u].expiry)
  {
    if relays != [] {
      var n := |relays| - 1;
      assert forall i | 0 <= i < n :: relays[..n][i] == relays[i];
      StaleRelaysNeverRefresh(entries, relays[..n], ttl, u, now);
    }
  }

  /** The exact rule while nothing is pruned: the record is replaced if and only if one of the relays is
      fresher than what is held. */
  lemma {:induction false} RefreshedIffFresher(entries: Entries, relays: seq<Relay>, ttl: real, u: string)
    requires u in entries
    ensures var after := MergeAll(entries, relays, ttl);
      u in after && (after[u].advert != entries[u].advert <==>
      exists i :: 0 <= i < |relays| && u in relays[i].advert && Beats(relays[i].advert[u], entries[u].advert))
  {
    var after := MergeAll(entries, relays, ttl);
    MergeKeepsFreshest(entries, relays, ttl, u);
    if i :| 0 <= i < |relays| && u in relays[i].advert && Beats(relays[i].advert[u], entries[u].advert) {
      assert relays[i].advert[u] in Said(entries, relays, u);
    } else {
      StaleRelaysNeverRefresh(entries, relays, ttl, u, 0.0);
    }
  }
}
