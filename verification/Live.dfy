// What the nodes listed at a moment allow, said of the listing itself: which routes exist among those not
// excluded, and which node gets each stage.
module Live {
  import opened Text
  import opened Relay
  import opened Routing
  import opened RoutingProofs
  import opened Workers

  /** Node i is listed, not excluded, and offers the stage. */
  predicate Offering(listed: seq<Listing>, excluded: set<string>, s: Stage, i: nat) {
    && i < |listed| && listed[i].id !in excluded
    && match s
       case EmbedStage => listed[i].stages.embed
       case HeadStage => listed[i].stages.head
       case BlockStage(key) => key in listed[i].stages.decoders
  }

  predicate OfferedBy(listed: seq<Listing>, excluded: set<string>, s: Stage, id: string) {
    exists i: nat | i < |listed| :: Offering(listed, excluded, s, i) && listed[i].id == id
  }

  /** A route whose blocks tile the model and whose every stage is offered by the node it is given to. */
  ghost predicate LiveRoute(listed: seq<Listing>, excluded: set<string>, numLayers: nat, r: Route) {
    && Tiles(r.decoders, numLayers)
    && OfferedBy(listed, excluded, EmbedStage, r.embed)
    && OfferedBy(listed, excluded, HeadStage, r.head)
    && forall i | 0 <= i < |r.decoders| :: OfferedBy(listed, excluded, BlockStage(r.decoders[i].key), r.decoders[i].id)
  }

  /** Some node offers a block of exactly these layers. */
  predicate LiveBlock(listed: seq<Listing>, excluded: set<string>, lo: nat, hi: nat) {
    exists i: nat, k: nat | i < |listed| && k < |listed[i].stages.decoders| ::
      listed[i].id !in excluded && ParseKey(listed[i].stages.decoders[k]) == Some(Range(lo, hi))
  }

  /** Every block of the tiling is the shortest non-empty one starting at its layer, and none starts behind
      the last. */
  ghost predicate LiveShortest(listed: seq<Listing>, excluded: set<string>, hops: seq<Hop>) {
    && (forall j, hi: nat | 0 <= j < |hops| && LiveBlock(listed, excluded, End(hops, j), hi) && End(hops, j) < hi ::
          End(hops, j + 1) <= hi)
    && (forall hi: nat | LiveBlock(listed, excluded, End(hops, |hops|), hi) :: hi <= End(hops, |hops|))
  }

  ghost predicate Coverable(listed: seq<Listing>, excluded: set<string>, numLayers: nat) {
    exists r :: LiveRoute(listed, excluded, numLayers, r) && LiveShortest(listed, excluded, r.decoders)
  }

  /** Some node that is not excluded advertises a key that is not "lo-hi". */
  predicate LiveMalformed(listed: seq<Listing>, excluded: set<string>) {
    exists i: nat, k: nat | i < |listed| && k < |listed[i].stages.decoders| ::
      listed[i].id !in excluded && ParseKey(listed[i].stages.decoders[k]).None?
  }

  /** By reputation, then load, then the order of the listing. */
  predicate Before(listed: seq<Listing>, i: nat, j: nat)
    requires i < |listed| && j < |listed|
  {
    || listed[i].reputation > listed[j].reputation
    || (listed[i].reputation == listed[j].reputation
        && (listed[i].load < listed[j].load || (listed[i].load == listed[j].load && i <= j)))
  }

  /** Of the nodes offering a stage: the highest reputation, then the lowest load, then the first listed. */
  predicate LiveBest(listed: seq<Listing>, excluded: set<string>, s: Stage, id: string) {
    exists i: nat | i < |listed| ::
      && Offering(listed, excluded, s, i) && listed[i].id == id
      && forall j: nat | j < |listed| && Offering(listed, excluded, s, j) :: Before(listed, i, j)
  }

  /** The shortest tiling, each stage with the best of the nodes offering it. */
  ghost predicate LiveChoice(listed: seq<Listing>, excluded: set<string>, numLayers: nat, r: Route) {
    && LiveRoute(listed, excluded, numLayers, r)
    && LiveShortest(listed, excluded, r.decoders)
    && LiveBest(listed, excluded, EmbedStage, r.embed)
    && LiveBest(listed, excluded, HeadStage, r.head)
    && forall i | 0 <= i < |r.decoders| :: LiveBest(listed, excluded, BlockStage(r.decoders[i].key), r.decoders[i].id)
  }

  predicate LiveFirst(listed: seq<Listing>, excluded: set<string>, s: Stage, id: string) {
    exists i: nat | i < |listed| ::
      && Offering(listed, excluded, s, i) && listed[i].id == id
      && forall j: nat | j < i :: !Offering(listed, excluded, s, j)
  }

  /** No node offers the same layers under a spelling that reads before the key, and none with the same
      spelling has a name that reads before. */
  predicate LiveLeast(listed: seq<Listing>, excluded: set<string>, hop: Hop) {
    forall i: nat, k: nat | i < |listed| && k < |listed[i].stages.decoders| && listed[i].id !in excluded
                            && ParseKey(listed[i].stages.decoders[k]) == ParseKey(hop.key) ::
      && ReadsBefore(hop.key, listed[i].stages.decoders[k])
      && (listed[i].stages.decoders[k] == hop.key ==> ReadsBefore(hop.id, listed[i].id))
  }

  /** The shortest tiling without scores: each end at the first node offering it, each block at the first by
      spelling and name. */
  ghost predicate PlainChoice(listed: seq<Listing>, excluded: set<string>, numLayers: nat, r: Route) {
    && LiveRoute(listed, excluded, numLayers, r)
    && LiveShortest(listed, excluded, r.decoders)
    && LiveFirst(listed, excluded, EmbedStage, r.embed)
    && LiveFirst(listed, excluded, HeadStage, r.head)
    && forall i | 0 <= i < |r.decoders| :: LiveLeast(listed, excluded, r.decoders[i])
  }

  /** Entries without scores, as a listing. */
  function Listed(entries: seq<Entry>): (listed: seq<Listing>)
    ensures |listed| == |entries|
    ensures forall i | 0 <= i < |entries| :: listed[i].id == entries[i].url && listed[i].stages == entries[i].stages
  {
    seq(|entries|, i requires 0 <= i < |entries| => Listing(entries[i].url, entries[i].stages, {}, 0, 0.0))
  }

  /** Both ends are offered, and a malformed key is in the way of reading the blocks. */
  predicate LiveCrash(listed: seq<Listing>, excluded: set<string>) {
    && (exists i: nat | i < |listed| :: Offering(listed, excluded, EmbedStage, i))
    && (exists i: nat | i < |listed| :: Offering(listed, excluded, HeadStage, i))
    && LiveMalformed(listed, excluded)
  }

  // ---- The dictionary built from the listing ----

  lemma EntriesAre(listed: seq<Listing>, excluded: set<string>, e: Entry)
    ensures e in EntriesFor(listed, excluded) <==>
      exists i: nat | i < |listed| :: listed[i].id !in excluded && e == Entry(listed[i].id, listed[i].stages)
  {
    var all := AsEntries(listed);
    if e in EntriesFor(listed, excluded) {
      assert e in all && e.url !in excluded;
      var i :| 0 <= i < |all| && all[i] == e;
      assert listed[i].id !in excluded;
    }
    if i: nat :| i < |listed| && listed[i].id !in excluded && e == Entry(listed[i].id, listed[i].stages) {
      assert all[i] == e;
      ItemsKeepsAll(all, excluded, e);
    }
  }

  lemma OfferedIs(listed: seq<Listing>, excluded: set<string>, s: Stage, id: string)
    ensures Offered(EntriesFor(listed, excluded), id, s) <==> OfferedBy(listed, excluded, s, id)
  {
    var items := EntriesFor(listed, excluded);
    hide EntriesFor;
    if Offered(items, id, s) {
      var e :| e in items && e.url == id && Offers(e, s);
      EntriesAre(listed, excluded, e);
      var i: nat :| i < |listed| && listed[i].id !in excluded && e == Entry(listed[i].id, listed[i].stages);
      assert Offering(listed, excluded, s, i);
    }
    if i: nat :| i < |listed| && Offering(listed, excluded, s, i) && listed[i].id == id {
      var e := Entry(listed[i].id, listed[i].stages);
      EntriesAre(listed, excluded, e);
      assert e in items && Offers(e, s);
    }
  }

  lemma CoversIs(listed: seq<Listing>, excluded: set<string>, numLayers: nat, r: Route)
    ensures Covers(EntriesFor(listed, excluded), numLayers, r) <==> LiveRoute(listed, excluded, numLayers, r)
  {
    hide Tiles, EntriesFor, Offered, OfferedBy;
    forall s: Stage, id: string
      ensures Offered(EntriesFor(listed, excluded), id, s) <==> OfferedBy(listed, excluded, s, id)
    {
      OfferedIs(listed, excluded, s, id);
    }
  }

  lemma ParsesIff(listed: seq<Listing>, excluded: set<string>)
    ensures AllParse(EntriesFor(listed, excluded)) <==> !LiveMalformed(listed, excluded)
  {
    hide ParseKey;
    var items := EntriesFor(listed, excluded);
    hide EntriesFor;
    if !AllParse(items) {
      var e :| e in items && !KeysParse(e);
      EntriesAre(listed, excluded, e);
      var i: nat :| i < |listed| && listed[i].id !in excluded && e == Entry(listed[i].id, listed[i].stages);
      var key :| key in e.stages.decoders && ParseKey(key).None?;
      var k: nat :| k < |listed[i].stages.decoders| && listed[i].stages.decoders[k] == key;
    }
    if i: nat, k: nat :| i < |listed| && k < |listed[i].stages.decoders| && listed[i].id !in excluded
                         && ParseKey(listed[i].stages.decoders[k]).None? {
      var e := Entry(listed[i].id, listed[i].stages);
      EntriesAre(listed, excluded, e);
      assert e in items && listed[i].stages.decoders[k] in e.stages.decoders;
    }
  }

  lemma BlockIs(listed: seq<Listing>, excluded: set<string>, lo: nat, hi: nat)
    requires AllParse(EntriesFor(listed, excluded))
    ensures HasTile(Candidates(EntriesFor(listed, excluded)), lo, hi) <==> LiveBlock(listed, excluded, lo, hi)
  {
    hide ParseKey, AllParse;
    var items := EntriesFor(listed, excluded);
    hide EntriesFor, Candidates;
    if HasTile(Candidates(items), lo, hi) {
      var c :| c in Candidates(items) && c.lo == lo && c.hi == hi;
      CandidatesAre(items, c);
      var e :| e in items && c.key in e.stages.decoders && ParseKey(c.key) == Some(Range(lo, hi));
      EntriesAre(listed, excluded, e);
      var i: nat :| i < |listed| && listed[i].id !in excluded && e == Entry(listed[i].id, listed[i].stages);
      var k: nat :| k < |e.stages.decoders| && e.stages.decoders[k] == c.key;
      assert listed[i].stages.decoders[k] == c.key;
    }
    if i: nat, k: nat :| i < |listed| && k < |listed[i].stages.decoders| && listed[i].id !in excluded
                         && ParseKey(listed[i].stages.decoders[k]) == Some(Range(lo, hi)) {
      var e := Entry(listed[i].id, listed[i].stages);
      EntriesAre(listed, excluded, e);
      var c := Cand(lo, hi, listed[i].stages.decoders[k], e.url);
      assert e in items && c.key in e.stages.decoders;
      CandidatesAre(items, c);
    }
  }

  lemma ShortestIs(listed: seq<Listing>, excluded: set<string>, hops: seq<Hop>)
    requires AllParse(EntriesFor(listed, excluded))
    ensures Shortest(Candidates(EntriesFor(listed, excluded)), hops) <==> LiveShortest(listed, excluded, hops)
  {
    hide ParseKey, AllParse, EntriesFor, Candidates, LiveBlock, End;
    var cs := Candidates(EntriesFor(listed, excluded));
    forall lo: nat, hi: nat
      ensures HasTile(cs, lo, hi) <==> LiveBlock(listed, excluded, lo, hi)
    {
      BlockIs(listed, excluded, lo, hi);
    }
    ShortestByTiles(cs, hops);
  }

  lemma ShortestByTiles(cs: seq<Cand>, hops: seq<Hop>)
    ensures Shortest(cs, hops) <==>
      && (forall j, hi: nat | 0 <= j < |hops| && HasTile(cs, End(hops, j), hi) && End(hops, j) < hi :: End(hops, j + 1) <= hi)
      && (forall hi: nat | HasTile(cs, End(hops, |hops|), hi) :: hi <= End(hops, |hops|))
  {
    hide End;
    forall c | c in cs
      ensures HasTile(cs, c.lo, c.hi)
    {
    }
  }

  // ---- What is returned, and for whom ----

  lemma {:induction false} ItemsAll(entries: seq<Entry>)
    ensures Items(entries, {}) == entries
  {
    if entries != [] {
      var n := |entries| - 1;
      ItemsAll(entries[..n]);
      assert entries == entries[..n] + [entries[n]];
    }
  }

  lemma ScoresMean(listed: seq<Listing>, i: nat)
    requires DistinctIds(listed) && i < |listed|
    ensures var scores := ScoresOf(listed);
      && scores.load.Some? && listed[i].id in scores.load.value && scores.load.value[listed[i].id] == listed[i].load
      && scores.reputation.Some? && listed[i].id in scores.reputation.value
      && scores.reputation.value[listed[i].id] == listed[i].reputation
      && scores.speed.None?
  {
    assert listed[i] in listed;
  }

  /** What the connections say when they are read for a route. */
  function ScoresOf(listed: seq<Listing>): Scores
    requires DistinctIds(listed)
  {
    Scores(Some(map l | l in listed :: l.id := l.load), Some(map l | l in listed :: l.id := l.reputation), None)
  }

  /** Entry k of the dictionary is listed node kept[k]. */
  predicate From(listed: seq<Listing>, excluded: set<string>, items: seq<Entry>, kept: seq<nat>) {
    && |kept| == |items|
    && (forall k | 0 <= k < |kept| :: kept[k] < |listed| && items[k] == Entry(listed[kept[k]].id, listed[kept[k]].stages)
                                      && listed[kept[k]].id !in excluded)
    && (forall k, l | 0 <= k < l < |kept| :: kept[k] < kept[l])
    && (forall i: nat | i < |listed| && listed[i].id !in excluded :: i in kept)
  }

  lemma EntriesFrom(listed: seq<Listing>, excluded: set<string>) returns (kept: seq<nat>)
    ensures From(listed, excluded, EntriesFor(listed, excluded), kept)
  {
    var all, items := AsEntries(listed), EntriesFor(listed, excluded);
    ItemsAreKept(all, excluded);
    kept :| Keeps(all, excluded, items, kept);
    hide EntriesFor;
    forall k | 0 <= k < |kept|
      ensures kept[k] < |listed| && listed[kept[k]].id !in excluded
    {
      assert kept[k] in kept;
      assert all[kept[k]].url !in excluded;
    }
    forall i: nat | i < |listed| && listed[i].id !in excluded
      ensures i in kept
    {
      assert all[i].url !in excluded;
    }
  }

  /** The candidate chosen among the entries is one of the listed nodes, compared with all of them. */
  lemma ChosenIsListed(listed: seq<Listing>, excluded: set<string>, s: Stage, id: string, scores: Scores) returns (at: nat)
    requires Chosen(EntriesFor(listed, excluded), s, scores, id)
    ensures at < |listed| && Offering(listed, excluded, s, at) && listed[at].id == id
    ensures forall j: nat | j < |listed| && Offering(listed, excluded, s, j) :: NoWorse(scores, id, listed[j].id, at <= j)
  {
    hide NoWorse, EntriesFor;
    var items := EntriesFor(listed, excluded);
    var kept := EntriesFrom(listed, excluded);
    var i: nat :| i < |items| && items[i].url == id && Offers(items[i], s)
      && forall j | 0 <= j < |items| && Offers(items[j], s) :: NoWorse(scores, id, items[j].url, i <= j);
    at := kept[i];
    OfferingIs(listed, excluded, items, kept, s, i);
    forall j: nat | j < |listed| && Offering(listed, excluded, s, j)
      ensures NoWorse(scores, id, listed[j].id, at <= j)
    {
      assert j in kept;
      var k: nat :| k < |kept| && kept[k] == j;
      OfferingIs(listed, excluded, items, kept, s, k);
      SameOrder(listed, excluded, items, kept, i, k);
    }
  }

  lemma OfferingIs(listed: seq<Listing>, excluded: set<string>, items: seq<Entry>, kept: seq<nat>, s: Stage, k: nat)
    requires From(listed, excluded, items, kept) && k < |items|
    ensures kept[k] < |listed| && items[k].url == listed[kept[k]].id
    ensures Offers(items[k], s) <==> Offering(listed, excluded, s, kept[k])
  {
  }

  lemma SameOrder(listed: seq<Listing>, excluded: set<string>, items: seq<Entry>, kept: seq<nat>, i: nat, k: nat)
    requires From(listed, excluded, items, kept) && i < |items| && k < |items|
    ensures i <= k <==> kept[i] <= kept[k]
  {
  }

  lemma ScoredBefore(listed: seq<Listing>, i: nat, j: nat)
    requires DistinctIds(listed) && i < |listed| && j < |listed|
    ensures NoWorse(ScoresOf(listed), listed[i].id, listed[j].id, i <= j) <==> Before(listed, i, j)
  {
    ScoresMean(listed, i);
    ScoresMean(listed, j);
    hide ScoresOf;
  }

  lemma ChosenIsBest(listed: seq<Listing>, excluded: set<string>, s: Stage, id: string)
    requires DistinctIds(listed) && Chosen(EntriesFor(listed, excluded), s, ScoresOf(listed), id)
    ensures LiveBest(listed, excluded, s, id)
  {
    hide EntriesFor, ScoresOf, Offering, Chosen, NoWorse;
    var at := ChosenIsListed(listed, excluded, s, id, ScoresOf(listed));
    forall j: nat | j < |listed| && Offering(listed, excluded, s, j)
      ensures Before(listed, at, j)
    {
      assert NoWorse(ScoresOf(listed), id, listed[j].id, at <= j);
      ScoredBefore(listed, at, j);
    }
  }

  /** What is routed from a listing: no chain exactly when it is not coverable, unless reading the blocks
      raises; otherwise the route that is to be chosen. */
  lemma RoutedMeans(listed: seq<Listing>, excluded: set<string>, numLayers: nat, routed: Routed)
    requires DistinctIds(listed)
    requires Answer(Items(EntriesFor(listed, excluded), {}), numLayers, ScoresOf(listed), routed)
    ensures routed.Malformed? <==> LiveCrash(listed, excluded)
    ensures routed.NoChain? ==> !Coverable(listed, excluded, numLayers)
    ensures routed.Found? ==> LiveChoice(listed, excluded, numLayers, routed.route)
  {
    hide Sort, Candidates, Picks, Reach, AllParse, Tiles, End, ParseKey, EntriesFor, ScoresOf, LiveCrash, Answer, LiveBest;
    var items, scores := EntriesFor(listed, excluded), ScoresOf(listed);
    ItemsAll(items);
    CrashesIff(listed, excluded, numLayers, scores, routed);
    ScoresGiven(listed);
    if routed.NoChain? {
      NotCoverable(listed, excluded, numLayers, scores, routed);
    } else if routed.Found? {
      hide Shortest, LiveRoute, LiveShortest;
      FoundParses(items, numLayers, scores, routed);
      ChainIsSound(items, numLayers, scores, routed);
      CoversIs(listed, excluded, numLayers, routed.route);
      FoundIsShortest(items, numLayers, scores, routed);
      ShortestIs(listed, excluded, routed.route.decoders);
      ScoredIsBest(listed, excluded, numLayers, routed);
    }
  }

  lemma CrashesIff(listed: seq<Listing>, excluded: set<string>, numLayers: nat, scores: Scores, r: Routed)
    requires Answer(EntriesFor(listed, excluded), numLayers, scores, r)
    ensures r.Malformed? <==> LiveCrash(listed, excluded)
  {
    hide Sort, Candidates, Picks, Reach, AllParse, EntriesFor, Offering, LiveMalformed;
    ParsesIff(listed, excluded);
    HeldIff(listed, excluded, EmbedStage);
    HeldIff(listed, excluded, HeadStage);
  }

  lemma HeldIff(listed: seq<Listing>, excluded: set<string>, s: Stage)
    ensures Holders(EntriesFor(listed, excluded), s) != [] <==> exists i: nat | i < |listed| :: Offering(listed, excluded, s, i)
  {
    hide EntriesFor, Offering;
    var items := EntriesFor(listed, excluded);
    var us := Holders(items, s);
    if us != [] {
      assert us[0] in us;
      OfferedIs(listed, excluded, s, us[0]);
      hide Offers;
    }
    if i: nat :| i < |listed| && Offering(listed, excluded, s, i) {
      OfferedIs(listed, excluded, s, listed[i].id);
      var e :| e in items && e.url == listed[i].id && Offers(e, s);
      HoldersComplete(items, s, e);
    }
  }

  /** The same for entries without scores. */
  lemma PlainMeans(entries: seq<Entry>, excluded: set<string>, numLayers: nat, routed: Routed)
    requires Answer(Items(entries, excluded), numLayers, NO_SCORES, routed)
    ensures routed.Malformed? <==> LiveCrash(Listed(entries), excluded)
    ensures routed.NoChain? ==> !Coverable(Listed(entries), excluded, numLayers)
    ensures routed.Found? ==> PlainChoice(Listed(entries), excluded, numLayers, routed.route)
  {
    hide Sort, Candidates, Picks, Reach, AllParse, Tiles, End, ParseKey, EntriesFor, LiveCrash, Answer, LiveFirst, LiveLeast;
    var listed := Listed(entries);
    ListedEntries(entries, excluded);
    var items := EntriesFor(listed, excluded);
    CrashesIff(listed, excluded, numLayers, NO_SCORES, routed);
    if routed.NoChain? {
      NotCoverable(listed, excluded, numLayers, NO_SCORES, routed);
    } else if routed.Found? {
      hide Shortest, LiveRoute, LiveShortest;
      FoundParses(items, numLayers, NO_SCORES, routed);
      ChainIsSound(items, numLayers, NO_SCORES, routed);
      CoversIs(listed, excluded, numLayers, routed.route);
      FoundIsShortest(items, numLayers, NO_SCORES, routed);
      ShortestIs(listed, excluded, routed.route.decoders);
      PlainIsFirst(listed, excluded, numLayers, routed);
    }
  }

  lemma ListedEntries(entries: seq<Entry>, excluded: set<string>)
    ensures EntriesFor(Listed(entries), excluded) == Items(entries, excluded)
  {
    hide Items;
    assert AsEntries(Listed(entries)) == entries;
  }

  lemma PlainIsFirst(listed: seq<Listing>, excluded: set<string>, numLayers: nat, routed: Routed)
    requires routed.Found? && Answer(EntriesFor(listed, excluded), numLayers, NO_SCORES, routed)
    requires AllParse(EntriesFor(listed, excluded))
    requires Tiles(routed.route.decoders, numLayers)
    ensures LiveFirst(listed, excluded, EmbedStage, routed.route.embed)
    ensures LiveFirst(listed, excluded, HeadStage, routed.route.head)
    ensures forall i | 0 <= i < |routed.route.decoders| :: LiveLeast(listed, excluded, routed.route.decoders[i])
  {
    hide Answer, AllParse, EntriesFor, IsFirst, LiveFirst, LiveLeast, Tiles, TileAt, ParseKey, End;
    var items := EntriesFor(listed, excluded);
    EndsAreFirst(items, numLayers, routed);
    FirstIsListed(listed, excluded, EmbedStage, routed.route.embed);
    FirstIsListed(listed, excluded, HeadStage, routed.route.head);
    forall i | 0 <= i < |routed.route.decoders|
      ensures LiveLeast(listed, excluded, routed.route.decoders[i])
    {
      HopIsLeast(listed, excluded, numLayers, routed, i);
    }
  }

  lemma EndsAreFirst(items: seq<Entry>, numLayers: nat, r: Routed)
    requires Answer(items, numLayers, NO_SCORES, r) && r.Found?
    ensures IsFirst(items, EmbedStage, r.route.embed) && IsFirst(items, HeadStage, r.route.head)
  {
    hide IsFirst, Offers, Candidates, Sort, Picks, Reach, AllParse;
    FirstHolder(items, EmbedStage);
    FirstHolder(items, HeadStage);
  }

  lemma FirstIsListed(listed: seq<Listing>, excluded: set<string>, s: Stage, id: string)
    requires IsFirst(EntriesFor(listed, excluded), s, id)
    ensures LiveFirst(listed, excluded, s, id)
  {
    hide EntriesFor;
    var items := EntriesFor(listed, excluded);
    var kept := EntriesFrom(listed, excluded);
    var i: nat :| i < |items| && items[i].url == id && Offers(items[i], s) && forall j | 0 <= j < i :: !Offers(items[j], s);
    OfferingIs(listed, excluded, items, kept, s, i);
    forall j: nat | j < kept[i]
      ensures !Offering(listed, excluded, s, j)
    {
      if Offering(listed, excluded, s, j) {
        assert j in kept;
        var k: nat :| k < |kept| && kept[k] == j;
        OfferingIs(listed, excluded, items, kept, s, k);
        SameOrder(listed, excluded, items, kept, i, k);
      }
    }
  }

  lemma HopIsLeast(listed: seq<Listing>, excluded: set<string>, numLayers: nat, r: Routed, i: nat)
    requires Answer(EntriesFor(listed, excluded), numLayers, NO_SCORES, r) && r.Found?
    requires AllParse(EntriesFor(listed, excluded))
    requires Tiles(r.route.decoders, numLayers) && i < |r.route.decoders|
    ensures LiveLeast(listed, excluded, r.route.decoders[i])
  {
    hide Answer, AllParse, EntriesFor, IsFirst, Tiles, ParseKey, End, ReadsBefore;
    var items, hop := EntriesFor(listed, excluded), r.route.decoders[i];
    TileOf(r.route.decoders, numLayers, i);
    forall n: nat, k: nat | n < |listed| && k < |listed[n].stages.decoders| && listed[n].id !in excluded
                            && ParseKey(listed[n].stages.decoders[k]) == ParseKey(hop.key)
      ensures ReadsBefore(hop.key, listed[n].stages.decoders[k])
      ensures listed[n].stages.decoders[k] == hop.key ==> ReadsBefore(hop.id, listed[n].id)
    {
      var e := Entry(listed[n].id, listed[n].stages);
      EntriesAre(listed, excluded, e);
      var range := ParseKey(hop.key).value;
      var c := Cand(range.lo, range.hi, listed[n].stages.decoders[k], e.url);
      assert e in items && c.key in e.stages.decoders && IsCand(items, c);
      UnscoredTakesFirst(items, numLayers, r, i, c);
    }
  }

  lemma ScoresGiven(listed: seq<Listing>)
    requires DistinctIds(listed)
    ensures ScoresOf(listed).load.Some?
  {
  }

  lemma FoundParses(items: seq<Entry>, numLayers: nat, scores: Scores, r: Routed)
    requires Answer(items, numLayers, scores, r) && r.Found?
    ensures AllParse(items)
  {
    hide AllParse;
  }

  lemma ScoredIsBest(listed: seq<Listing>, excluded: set<string>, numLayers: nat, routed: Routed)
    requires DistinctIds(listed) && routed.Found?
    requires Answer(EntriesFor(listed, excluded), numLayers, ScoresOf(listed), routed)
    ensures LiveBest(listed, excluded, EmbedStage, routed.route.embed)
    ensures LiveBest(listed, excluded, HeadStage, routed.route.head)
    ensures forall i | 0 <= i < |routed.route.decoders| ::
              LiveBest(listed, excluded, BlockStage(routed.route.decoders[i].key), routed.route.decoders[i].id)
  {
    hide Sort, Candidates, Picks, Reach, AllParse, ParseKey, EntriesFor, ScoresOf, Chosen, LiveBest;
    var items, scores := EntriesFor(listed, excluded), ScoresOf(listed);
    ScoresGiven(listed);
    LeastIsChosen(items, EmbedStage, scores);
    LeastIsChosen(items, HeadStage, scores);
    ChosenIsBest(listed, excluded, EmbedStage, routed.route.embed);
    ChosenIsBest(listed, excluded, HeadStage, routed.route.head);
    forall i | 0 <= i < |routed.route.decoders|
      ensures LiveBest(listed, excluded, BlockStage(routed.route.decoders[i].key), routed.route.decoders[i].id)
    {
      var s := BlockStage(routed.route.decoders[i].key);
      LeastIsChosen(items, s, scores);
      ChosenIsBest(listed, excluded, s, routed.route.decoders[i].id);
    }
  }

  /** No chain although the keys parse or an end is missing: nothing is coverable. */
  lemma NotCoverable(listed: seq<Listing>, excluded: set<string>, numLayers: nat, scores: Scores, r: Routed)
    requires Answer(EntriesFor(listed, excluded), numLayers, scores, r) && r.NoChain?
    ensures !Coverable(listed, excluded, numLayers)
  {
    hide ParseKey, AllParse, EntriesFor, Candidates, Tiles, End, Answer, LiveRoute, LiveShortest;
    var items := EntriesFor(listed, excluded);
    if route :| LiveRoute(listed, excluded, numLayers, route) && LiveShortest(listed, excluded, route.decoders) {
      CoversIs(listed, excluded, numLayers, route);
      EndsAreHeld(items, route);
      NoChainParses(items, numLayers, scores, r);
      ShortestIs(listed, excluded, route.decoders);
      ChainIffShortestTiling(items, numLayers, scores, r);
    }
  }

  lemma NoChainParses(items: seq<Entry>, numLayers: nat, scores: Scores, r: Routed)
    requires Answer(items, numLayers, scores, r) && r.NoChain?
    requires Holders(items, EmbedStage) != [] && Holders(items, HeadStage) != []
    ensures AllParse(items)
  {
    hide AllParse;
  }
}
