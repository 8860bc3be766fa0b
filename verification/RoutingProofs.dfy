// What a built chain guarantees, when one is found, and what the scores may change.
module RoutingProofs {
  import opened Text
  import opened Relay
  import opened Routing

  // ---- Sound: a chain tiles the model with stages its nodes advertise ----

  predicate Offered(items: seq<Entry>, url: string, s: Stage) {
    exists e :: e in items && e.url == url && Offers(e, s)
  }

  predicate Served(items: seq<Entry>, r: Route) {
    && Offered(items, r.embed, EmbedStage)
    && Offered(items, r.head, HeadStage)
    && forall i | 0 <= i < |r.decoders| :: Offered(items, r.decoders[i].id, BlockStage(r.decoders[i].key))
  }

  /** Picked blocks follow each other without gap or overlap. */
  predicate Linked(picks: seq<Cand>, from: nat, to: nat) {
    if picks == [] then from == to
    else picks[0].lo == from < picks[0].hi && Linked(picks[1..], picks[0].hi, to)
  }

  lemma {:induction false} PicksLinked(cs: seq<Cand>, cursor: nat)
    ensures Linked(Picks(cs, cursor), cursor, Reach(cs, cursor))
    decreases |cs|
  {
    if cs != [] {
      if cs[0].lo == cursor < cs[0].hi {
        PicksLinked(cs[1..], cs[0].hi);
        assert Picks(cs, cursor)[1..] == Picks(cs[1..], cs[0].hi);
      } else {
        PicksLinked(cs[1..], cursor);
      }
    }
  }

  lemma {:induction false} LinkedAt(picks: seq<Cand>, from: nat, to: nat, i: nat)
    requires Linked(picks, from, to) && i < |picks|
    ensures picks[i].lo == (if i == 0 then from else picks[i - 1].hi) && picks[i].lo < picks[i].hi
    ensures to == picks[|picks| - 1].hi
    decreases |picks|
  {
    if i > 0 {
      LinkedAt(picks[1..], picks[0].hi, to, i - 1);
    } else if |picks| > 1 {
      LinkedAt(picks[1..], picks[0].hi, to, 0);
    }
  }

  lemma LinkedTiles(picks: seq<Cand>, hops: seq<Hop>, numLayers: nat)
    requires Linked(picks, 0, numLayers) && |hops| == |picks|
    requires forall i | 0 <= i < |picks| ::
               hops[i].key == picks[i].key && ParseKey(picks[i].key) == Some(Range(picks[i].lo, picks[i].hi))
    ensures Tiles(hops, numLayers)
  {
    hide ParseKey;
    forall i | 0 <= i < |hops|
      ensures TileAt(hops, i)
    {
      LinkedAt(picks, 0, numLayers, i);
    }
    if picks != [] {
      LinkedAt(picks, 0, numLayers, 0);
    }
  }

  /** Whatever the scores: a chain cuts [0, numLayers) exactly, and gives every stage to a node among
      the items that advertises it. */
  lemma ChainIsSound(items: seq<Entry>, numLayers: nat, scores: Scores, r: Routed)
    requires Answer(items, numLayers, scores, r) && r.Found?
    ensures Tiles(r.route.decoders, numLayers) && Served(items, r.route)
  {
    hide ParseKey, Sort, Candidates, Picks, Reach, Tiles, AllParse;
    var cs := Sort(Candidates(items));
    var picks := Picks(cs, 0);
    PicksAreHeld(items, cs);
    PicksLinked(cs, 0);
    var hops := r.route.decoders;
    forall i | 0 <= i < |picks|
      ensures ParseKey(picks[i].key) == Some(Range(picks[i].lo, picks[i].hi))
      ensures Offered(items, hops[i].id, BlockStage(picks[i].key))
    {
      PicksAreCands(cs, 0, i);
      var e :| e in items && picks[i].key in e.stages.decoders && picks[i].url == e.url
               && ParseKey(picks[i].key) == Some(Range(picks[i].lo, picks[i].hi));
      assert Offers(e, BlockStage(picks[i].key));
      assert hops[i].id == picks[i].url || hops[i].id in Holders(items, BlockStage(picks[i].key));
    }
    LinkedTiles(picks, hops, numLayers);
    assert r.route.embed in Holders(items, EmbedStage) && r.route.head in Holders(items, HeadStage);
  }

  // ---- Complete: a chain is found whenever one exists ----

  /** Some advertised blocks tile the model and both ends are served. */
  predicate Covers(items: seq<Entry>, numLayers: nat, r: Route) {
    Tiles(r.decoders, numLayers) && Served(items, r)
  }

  predicate HasTile(cs: seq<Cand>, lo: nat, hi: nat) {
    exists c :: c in cs && c.lo == lo && c.hi == hi
  }

  /** The tiles from the i-th on are among the blocks still to be walked. */
  predicate TilesRemain(cs: seq<Cand>, hops: seq<Hop>, i: nat) {
    forall j | i <= j < |hops| :: HasTile(cs, End(hops, j), End(hops, j + 1))
  }

  predicate NoneShorter(cs: seq<Cand>, lo: nat, hi: nat) {
    forall c | c in cs && c.lo == lo < c.hi :: hi <= c.hi
  }

  predicate NoneStarts(cs: seq<Cand>, lo: nat) {
    forall c | c in cs && c.lo == lo :: c.hi <= lo
  }

  /** Every tile is the shortest non-empty block starting where it starts, and no non-empty block
      starts where the tiling ends. */
  predicate Shortest(cs: seq<Cand>, hops: seq<Hop>) {
    && (forall j | 0 <= j < |hops| :: NoneShorter(cs, End(hops, j), End(hops, j + 1)))
    && NoneStarts(cs, End(hops, |hops|))
  }

  lemma HeadBefore(cs: seq<Cand>, y: Cand)
    requires Sorted(cs) && y in cs
    ensures Leq(cs[0], y) || cs[0] == y
  {
    var k :| 0 <= k < |cs| && cs[k] == y;
    if k > 0 {
      assert Leq(cs[0], cs[k]);
    }
  }

  lemma SomeTile(cs: seq<Cand>, hops: seq<Hop>, i: nat)
    requires TilesRemain(cs, hops, i) && i < |hops|
    ensures HasTile(cs, End(hops, i), End(hops, i + 1)) && cs != []
  {
    assert HasTile(cs, End(hops, i), End(hops, i + 1));
  }

  lemma {:induction false} WalkReaches(cs: seq<Cand>, hops: seq<Hop>, numLayers: nat, i: nat)
    requires Tiles(hops, numLayers) && i <= |hops|
    requires Sorted(cs) && Shortest(cs, hops)
    requires TilesRemain(cs, hops, i)
    ensures Reach(cs, End(hops, i)) == numLayers
    decreases |cs|
  {
    hide ParseKey, End;
    if i < |hops| {
      SomeTile(cs, hops, i);
    }
    if cs != [] {
      var x, rest := cs[0], cs[1..];
      assert forall c | c in rest :: c in cs;
      if i == |hops| {
        WalkReaches(rest, hops, numLayers, i);
      } else {
        var cursor := End(hops, i);
        assert TileAt(hops, i) && NoneShorter(cs, cursor, End(hops, i + 1));
        var y :| y in cs && y.lo == cursor && y.hi == End(hops, i + 1);
        HeadBefore(cs, y);
        var next := if x.lo == cursor < x.hi then i + 1 else i;
        TilesStay(cs, hops, numLayers, i, next);
        forall j | 0 <= j < |hops|
          ensures NoneShorter(rest, End(hops, j), End(hops, j + 1))
        {
          assert NoneShorter(cs, End(hops, j), End(hops, j + 1));
        }
        WalkReaches(rest, hops, numLayers, next);
      }
    }
  }

  /** Stepping over the first block loses none of the tiles that remain. */
  lemma TilesStay(cs: seq<Cand>, hops: seq<Hop>, numLayers: nat, i: nat, next: nat)
    requires Tiles(hops, numLayers) && i < |hops| && cs != []
    requires TilesRemain(cs, hops, i) && cs[0].lo <= End(hops, i)
    requires next == if cs[0].lo == End(hops, i) < cs[0].hi then i + 1 else i
    ensures TilesRemain(cs[1..], hops, next)
  {
    hide ParseKey, End;
    var rest := cs[1..];
    assert TileAt(hops, i);
    forall j | next <= j < |hops|
      ensures HasTile(rest, End(hops, j), End(hops, j + 1))
    {
      assert HasTile(cs, End(hops, j), End(hops, j + 1));
      var z :| z in cs && z.lo == End(hops, j) && z.hi == End(hops, j + 1);
      assert TileAt(hops, j);
      EndsIncrease(hops, numLayers, next, j);
      assert z != cs[0];
    }
  }

  /** Every block of all that could still be taken from the cursor on is among cs. */
  predicate Remaining(all: seq<Cand>, cs: seq<Cand>, cursor: nat) {
    forall c | c in all && cursor <= c.lo < c.hi :: c in cs
  }

  lemma {:induction false} PicksAreShortest(all: seq<Cand>, cs: seq<Cand>, cursor: nat)
    requires Sorted(cs) && Remaining(all, cs, cursor)
    ensures forall i | 0 <= i < |Picks(cs, cursor)| ::
              NoneShorter(all, Picks(cs, cursor)[i].lo, Picks(cs, cursor)[i].hi)
    ensures NoneStarts(all, Reach(cs, cursor))
    decreases |cs|
  {
    if cs != [] {
      var x, rest := cs[0], cs[1..];
      if x.lo > cursor {
        forall c | c in cs
          ensures c.lo > cursor
        {
          HeadBefore(cs, c);
        }
        StuckAt(cs, cursor);
      } else if x.lo == cursor < x.hi {
        forall c | c in all && c.lo == x.lo < c.hi
          ensures x.hi <= c.hi
        {
          HeadBefore(cs, c);
        }
        assert NoneShorter(all, x.lo, x.hi);
        PicksAreShortest(all, rest, x.hi);
      } else {
        PicksAreShortest(all, rest, cursor);
      }
    }
  }

  lemma {:induction false} StuckAt(cs: seq<Cand>, cursor: nat)
    requires forall c | c in cs :: c.lo > cursor
    ensures Picks(cs, cursor) == [] && Reach(cs, cursor) == cursor
  {
    if cs != [] {
      assert cs[0] in cs;
      StuckAt(cs[1..], cursor);
    }
  }

  /** Exactly when a chain is returned: both ends are served and some advertised blocks tile the model
      such that each is the shortest one starting at its layer and none starts at the end. */
  lemma ChainIffShortestTiling(items: seq<Entry>, numLayers: nat, scores: Scores, r: Routed)
    requires Answer(items, numLayers, scores, r) && AllParse(items)
    ensures r.Found? <==>
      exists route :: Covers(items, numLayers, route) && Shortest(Candidates(items), route.decoders)
  {
    hide ParseKey, Sort, Candidates, Picks, Reach, AllParse, Tiles, End;
    var all := Candidates(items);
    var cs := Sort(all);
    SortSorted(all);
    if r.Found? {
      ChainIsSound(items, numLayers, scores, r);
      FoundIsShortest(items, numLayers, scores, r);
      assert Covers(items, numLayers, r.route) && Shortest(all, r.route.decoders);
    } else if route :| Covers(items, numLayers, route) && Shortest(all, route.decoders) {
      EndsAreHeld(items, route);
      TilesAreCands(items, route, numLayers);
      SortedKeepsTiles(cs, all, route.decoders);
      EndOfNothing(route.decoders);
      WalkReaches(cs, route.decoders, numLayers, 0);
    }
  }

  /** The chain that is found is itself a shortest tiling. */
  lemma FoundIsShortest(items: seq<Entry>, numLayers: nat, scores: Scores, r: Routed)
    requires Answer(items, numLayers, scores, r) && AllParse(items) && r.Found?
    ensures Shortest(Candidates(items), r.route.decoders)
  {
    hide ParseKey, Sort, Candidates, Picks, Reach, AllParse, Tiles, End;
    var all := Candidates(items);
    var cs := Sort(all);
    SortSorted(all);
    ChainIsSound(items, numLayers, scores, r);
    PicksAreShortest(all, cs, 0);
    ShortestPicks(items, all, cs, r.route.decoders, numLayers);
  }

  lemma EndOfNothing(hops: seq<Hop>)
    ensures End(hops, 0) == 0
  {
  }

  lemma ShortestPicks(items: seq<Entry>, all: seq<Cand>, cs: seq<Cand>, hops: seq<Hop>, numLayers: nat)
    requires AllParse(items) && all == Candidates(items) && cs == Sort(all)
    requires Tiles(hops, numLayers) && Reach(cs, 0) == numLayers
    requires |hops| == |Picks(cs, 0)| && forall i | 0 <= i < |hops| :: hops[i].key == Picks(cs, 0)[i].key
    requires forall i | 0 <= i < |Picks(cs, 0)| :: NoneShorter(all, Picks(cs, 0)[i].lo, Picks(cs, 0)[i].hi)
    requires NoneStarts(all, numLayers)
    ensures Shortest(all, hops)
  {
    hide ParseKey, Sort, Candidates, Picks, Reach, AllParse, End;
    var picks := Picks(cs, 0);
    PicksAreHeld(items, cs);
    forall i | 0 <= i < |hops|
      ensures NoneShorter(all, End(hops, i), End(hops, i + 1))
    {
      PicksAreCands(cs, 0, i);
      assert TileAt(hops, i) && IsCand(items, picks[i]);
      assert NoneShorter(all, picks[i].lo, picks[i].hi);
    }
  }

  // ---- The usual case: blocks that start together end together ----

  predicate BlocksInside(cs: seq<Cand>, numLayers: nat) {
    forall c | c in cs :: c.lo < c.hi ==> c.hi <= numLayers
  }

  predicate SameStartSameEnd(cs: seq<Cand>) {
    forall c, d | c in cs && d in cs && c.lo < c.hi && d.lo < d.hi && c.lo == d.lo :: c.hi == d.hi
  }

  /** When blocks that start at the same layer end at the same layer and none passes the last one, a
      chain is returned exactly if some advertised blocks tile the model and both ends are served. */
  lemma ChainIffCovered(items: seq<Entry>, numLayers: nat, scores: Scores, r: Routed)
    requires Answer(items, numLayers, scores, r) && AllParse(items)
    requires BlocksInside(Candidates(items), numLayers) && SameStartSameEnd(Candidates(items))
    ensures r.Found? <==> exists route :: Covers(items, numLayers, route)
  {
    hide ParseKey, Sort, Candidates, AllParse, Answer;
    ChainIffShortestTiling(items, numLayers, scores, r);
    if route :| Covers(items, numLayers, route) {
      TilesAreCands(items, route, numLayers);
      UniqueIsShortest(Candidates(items), route.decoders, numLayers);
      assert Covers(items, numLayers, route) && Shortest(Candidates(items), route.decoders);
    }
  }

  lemma UniqueIsShortest(cs: seq<Cand>, hops: seq<Hop>, numLayers: nat)
    requires Tiles(hops, numLayers) && TilesRemain(cs, hops, 0)
    requires BlocksInside(cs, numLayers) && SameStartSameEnd(cs)
    ensures Shortest(cs, hops)
  {
    hide ParseKey, End;
    forall j | 0 <= j < |hops|
      ensures NoneShorter(cs, End(hops, j), End(hops, j + 1))
    {
      assert TileAt(hops, j);
      assert HasTile(cs, End(hops, j), End(hops, j + 1));
    }
  }

  lemma EndsAreHeld(items: seq<Entry>, route: Route)
    requires Served(items, route)
    ensures Holders(items, EmbedStage) != [] && Holders(items, HeadStage) != []
  {
    var e :| e in items && e.url == route.embed && Offers(e, EmbedStage);
    HoldersComplete(items, EmbedStage, e);
    var h :| h in items && h.url == route.head && Offers(h, HeadStage);
    HoldersComplete(items, HeadStage, h);
  }

  lemma TilesAreCands(items: seq<Entry>, route: Route, numLayers: nat)
    requires AllParse(items) && Served(items, route) && Tiles(route.decoders, numLayers)
    ensures TilesRemain(Candidates(items), route.decoders, 0)
  {
    hide ParseKey, End, Candidates, AllParse;
    var hops := route.decoders;
    forall j | 0 <= j < |hops|
      ensures HasTile(Candidates(items), End(hops, j), End(hops, j + 1))
    {
      assert TileAt(hops, j) && Offered(items, hops[j].id, BlockStage(hops[j].key));
      var e :| e in items && e.url == hops[j].id && Offers(e, BlockStage(hops[j].key));
      var c := Cand(End(hops, j), End(hops, j + 1), hops[j].key, e.url);
      assert IsCand(items, c);
      CandidatesAre(items, c);
    }
  }

  lemma SortedKeepsTiles(cs: seq<Cand>, ds: seq<Cand>, hops: seq<Hop>)
    requires TilesRemain(ds, hops, 0) && forall c :: c in cs <==> c in ds
    ensures TilesRemain(cs, hops, 0)
  {
    hide End;
    forall j | 0 <= j < |hops|
      ensures HasTile(cs, End(hops, j), End(hops, j + 1))
    {
      assert HasTile(ds, End(hops, j), End(hops, j + 1));
    }
  }

  /** One node that advertises 0-1, 0-2 and 2-3 of a three-layer model. */
  function Overlapping(): Entry {
    Entry("a", Stages(true, true, [Key(Range(0, 1)), Key(Range(0, 2)), Key(Range(2, 3))]))
  }

  function LongWay(): Route {
    Route("a", [Hop(Key(Range(0, 2)), "a"), Hop(Key(Range(2, 3)), "a")], "a")
  }

  /** Without that hypothesis the answer may be "no chain" although one exists: of two blocks that
      start together the shorter one is taken and never given up. */
  lemma ShorterBlockHidesAChain(r: Routed)
    requires Answer([Overlapping()], 3, NO_SCORES, r)
    ensures Covers([Overlapping()], 3, LongWay()) && r == NoChain
  {
    hide Overlapping, LongWay, Tiles, TilesRemain, Shortest, HasTile, Served;
    var items := [Overlapping()];
    LongWayCovers();
    OverlappingCands();
    ChainIffShortestTiling(items, 3, NO_SCORES, r);
    if route :| Covers(items, 3, route) && Shortest(Candidates(items), route.decoders) {
      TilesAreCands(items, route, 3);
      NoTilingThroughOne(Candidates(items), route.decoders);
    }
  }

  lemma LongWayCovers()
    ensures Covers([Overlapping()], 3, LongWay())
  {
    hide Key, ParseKey;
    ParseKeyOfKey(Range(0, 2));
    ParseKeyOfKey(Range(2, 3));
    var e, hops := Overlapping(), LongWay().decoders;
    assert TileAt(hops, 0) && TileAt(hops, 1);
    assert e in [Overlapping()];
    assert Offers(e, EmbedStage) && Offers(e, HeadStage);
    assert hops[0].key == e.stages.decoders[1] && hops[1].key == e.stages.decoders[2];
    assert Offers(e, BlockStage(hops[0].key)) && Offers(e, BlockStage(hops[1].key));
  }

  lemma OverlappingCands()
    ensures AllParse([Overlapping()])
    ensures HasTile(Candidates([Overlapping()]), 0, 1)
    ensures forall c | c in Candidates([Overlapping()]) :: c.lo != 1
  {
    hide Key, ParseKey, Candidates;
    ParseKeyOfKey(Range(0, 1));
    ParseKeyOfKey(Range(0, 2));
    ParseKeyOfKey(Range(2, 3));
    var e := Overlapping();
    var keys, items := e.stages.decoders, [e];
    assert AllParse(items);
    forall c | c in Candidates(items)
      ensures c.lo != 1
    {
      CandidatesAre(items, c);
    }
    assert e in items && keys[0] in keys;
    CandidatesAre(items, Cand(0, 1, keys[0], "a"));
  }

  lemma NoTilingThroughOne(cs: seq<Cand>, hops: seq<Hop>)
    requires Tiles(hops, 3) && HasTile(cs, 0, 1) && forall c | c in cs :: c.lo != 1
    ensures !(TilesRemain(cs, hops, 0) && Shortest(cs, hops))
  {
    hide ParseKey;
    assert |hops| > 0;
    assert TileAt(hops, 0);
    if TilesRemain(cs, hops, 0) && Shortest(cs, hops) {
      assert NoneShorter(cs, End(hops, 0), End(hops, 1));
      assert End(hops, 1) == 1;
      SomeTile(cs, hops, 1);
    }
  }

  // ---- What the scores may change ----

  /** By the maps themselves, a missing score counting as 0: u has the higher reputation, or the same and
      the higher speed, or the same of both and the lower load, or all the same and comes first. */
  predicate NoWorse(scores: Scores, u: string, v: string, first: bool) {
    var ru := if scores.reputation.Some? && u in scores.reputation.value then scores.reputation.value[u] else 0.0;
    var rv := if scores.reputation.Some? && v in scores.reputation.value then scores.reputation.value[v] else 0.0;
    var su := if scores.speed.Some? && u in scores.speed.value then scores.speed.value[u] else 0.0;
    var sv := if scores.speed.Some? && v in scores.speed.value then scores.speed.value[v] else 0.0;
    var lu := if scores.load.Some? && u in scores.load.value then scores.load.value[u] else 0;
    var lv := if scores.load.Some? && v in scores.load.value then scores.load.value[v] else 0;
    ru > rv || (ru == rv && (su > sv || (su == sv && (lu < lv || (lu == lv && first)))))
  }

  /** u is a candidate that is no worse than any, and comes first among its equals. */
  predicate IsLeast(us: seq<string>, scores: Scores, u: string) {
    exists i :: 0 <= i < |us| && us[i] == u && forall j | 0 <= j < |us| :: NoWorse(scores, u, us[j], i <= j)
  }

  lemma BetterOrNot(scores: Scores, u: string, v: string)
    ensures scores.Better(u, v) <==> NoWorse(scores, u, v, false)
    ensures scores.Better(u, v) <==> !NoWorse(scores, v, u, true)
  {
  }

  lemma NoWorseTransitive(scores: Scores, u: string, v: string, w: string, a: bool, b: bool)
    requires NoWorse(scores, u, v, a) && NoWorse(scores, v, w, b)
    ensures NoWorse(scores, u, w, a || b)
    ensures !a || !b ==> NoWorse(scores, u, w, false)
  {
  }

  lemma {:induction false} LeastIsLeast(us: seq<string>, scores: Scores)
    requires us != []
    ensures IsLeast(us, scores, Least(us, scores))
  {
    var n := |us| - 1;
    if n > 0 {
      LeastIsLeast(us[..n], scores);
      LeastStep(us, scores, Least(us[..n], scores));
    } else {
      assert us[0] == Least(us, scores) && NoWorse(scores, us[0], us[0], true);
    }
  }

  lemma LeastStep(us: seq<string>, scores: Scores, best: string)
    requires |us| > 1 && IsLeast(us[..|us| - 1], scores, best)
    ensures var last := us[|us| - 1]; IsLeast(us, scores, if scores.Better(last, best) then last else best)
  {
    hide NoWorse, Scores.Better;
    var n := |us| - 1;
    var last, early := us[n], us[..n];
    var i :| 0 <= i < n && early[i] == best && forall j | 0 <= j < n :: NoWorse(scores, best, early[j], i <= j);
    BetterOrNot(scores, last, best);
    if scores.Better(last, best) {
      forall j | 0 <= j < |us|
        ensures NoWorse(scores, last, us[j], n <= j)
      {
        if j < n {
          assert us[j] == early[j];
          NoWorseTransitive(scores, last, best, us[j], false, i <= j);
        } else {
          Same(scores, last);
        }
      }
      assert us[n] == last;
    } else {
      forall j | 0 <= j < |us|
        ensures NoWorse(scores, best, us[j], i <= j)
      {
        assert j < n ==> us[j] == early[j];
      }
      assert us[i] == best;
    }
  }

  lemma Same(scores: Scores, u: string)
    ensures NoWorse(scores, u, u, true)
  {
  }

  /** Of the nodes offering a stage, u is the one no worse than any, in dictionary order. */
  predicate Chosen(items: seq<Entry>, s: Stage, scores: Scores, u: string) {
    exists i ::
      && 0 <= i < |items| && items[i].url == u && Offers(items[i], s)
      && forall j | 0 <= j < |items| && Offers(items[j], s) :: NoWorse(scores, u, items[j].url, i <= j)
  }

  lemma {:induction false} LeastIsChosen(items: seq<Entry>, s: Stage, scores: Scores)
    requires Holders(items, s) != []
    ensures Chosen(items, s, scores, Least(Holders(items, s), scores))
  {
    hide Offers, NoWorse, Scores.Better, Chosen, Least;
    var n := |items| - 1;
    var early, last := items[..n], items[n];
    HoldersStep(items, s);
    if !Offers(last, s) {
      LeastIsChosen(early, s, scores);
      ChosenSkips(items, s, scores, Least(Holders(items, s), scores));
    } else if Holders(early, s) == [] {
      OnlyHolder(items, s, scores);
      LeastOfOne(last.url, scores);
    } else {
      LeastIsChosen(early, s, scores);
      ChosenStep(items, s, scores, Least(Holders(early, s), scores));
      LeastOfMore(Holders(early, s), last.url, scores);
    }
  }

  lemma HoldersStep(items: seq<Entry>, s: Stage)
    requires items != []
    ensures var early, last := items[..|items| - 1], items[|items| - 1];
      Holders(items, s) == if Offers(last, s) then Holders(early, s) + [last.url] else Holders(early, s)
  {
    hide Offers;
  }

  lemma LeastOfOne(u: string, scores: Scores)
    ensures Least([u], scores) == u
  {
  }

  lemma LeastOfMore(us: seq<string>, u: string, scores: Scores)
    requires us != []
    ensures Least(us + [u], scores) == if scores.Better(u, Least(us, scores)) then u else Least(us, scores)
  {
    assert (us + [u])[..|us|] == us;
  }

  lemma ChosenSkips(items: seq<Entry>, s: Stage, scores: Scores, u: string)
    requires items != [] && Chosen(items[..|items| - 1], s, scores, u) && !Offers(items[|items| - 1], s)
    ensures Chosen(items, s, scores, u)
  {
    hide Offers, NoWorse;
    var n, early := |items| - 1, items[..|items| - 1];
    var i :| 0 <= i < n && early[i].url == u && Offers(early[i], s)
      && forall j | 0 <= j < n && Offers(early[j], s) :: NoWorse(scores, u, early[j].url, i <= j);
    assert items[i] == early[i] && forall j | 0 <= j < n :: items[j] == early[j];
  }

  lemma OnlyHolder(items: seq<Entry>, s: Stage, scores: Scores)
    requires items != [] && Offers(items[|items| - 1], s) && Holders(items[..|items| - 1], s) == []
    ensures Holders(items, s) == [items[|items| - 1].url] && Chosen(items, s, scores, items[|items| - 1].url)
  {
    hide Offers, NoWorse, Holders;
    var n, u := |items| - 1, items[|items| - 1].url;
    HoldersStep(items, s);
    NoneOffers(items[..n], s);
    Same(scores, u);
    assert forall j | 0 <= j < n :: items[..n][j] == items[j];
    assert items[n].url == u && NoWorse(scores, u, items[n].url, n <= n);
  }

  lemma NoneOffers(items: seq<Entry>, s: Stage)
    requires Holders(items, s) == []
    ensures forall j | 0 <= j < |items| :: !Offers(items[j], s)
  {
    hide Offers;
    forall j | 0 <= j < |items|
      ensures !Offers(items[j], s)
    {
      if Offers(items[j], s) {
        HoldersComplete(items, s, items[j]);
      }
    }
  }

  lemma ChosenStep(items: seq<Entry>, s: Stage, scores: Scores, best: string)
    requires items != [] && Chosen(items[..|items| - 1], s, scores, best) && Offers(items[|items| - 1], s)
    ensures var last := items[|items| - 1].url; Chosen(items, s, scores, if scores.Better(last, best) then last else best)
  {
    hide Offers, NoWorse, Scores.Better;
    var n := |items| - 1;
    var last, early := items[n].url, items[..n];
    var i :| 0 <= i < n && early[i].url == best && Offers(early[i], s)
      && forall j | 0 <= j < n && Offers(early[j], s) :: NoWorse(scores, best, early[j].url, i <= j);
    BetterOrNot(scores, last, best);
    if scores.Better(last, best) {
      forall j | 0 <= j < |items| && Offers(items[j], s)
        ensures NoWorse(scores, last, items[j].url, n <= j)
      {
        if j < n {
          assert items[j] == early[j];
          NoWorseTransitive(scores, last, best, items[j].url, false, i <= j);
        } else {
          Same(scores, last);
        }
      }
      assert items[n].url == last;
    } else {
      forall j | 0 <= j < |items| && Offers(items[j], s)
        ensures NoWorse(scores, best, items[j].url, i <= j)
      {
        assert j < n ==> items[j] == early[j];
      }
      assert items[i] == early[i];
    }
  }

  /** A node whose reputation exceeds that of every other one offering the stage gets it. */
  lemma BestReputationIsChosen(items: seq<Entry>, s: Stage, scores: Scores, chosen: string, u: string,
                               reputation: map<string, real>)
    requires Chosen(items, s, scores, chosen) && scores.reputation == Some(reputation)
    requires u in reputation && exists k :: 0 <= k < |items| && items[k].url == u && Offers(items[k], s)
    requires forall j | 0 <= j < |items| && Offers(items[j], s) && items[j].url != u ::
               reputation[u] > if items[j].url in reputation then reputation[items[j].url] else 0.0
    ensures chosen == u
  {
    hide Offers;
    var i :| 0 <= i < |items| && items[i].url == chosen && Offers(items[i], s)
      && forall j | 0 <= j < |items| && Offers(items[j], s) :: NoWorse(scores, chosen, items[j].url, i <= j);
    var k :| 0 <= k < |items| && items[k].url == u && Offers(items[k], s);
  }

  /** Scores change neither whether a chain is found nor which blocks it uses in which order; they only
      choose, for each stage, the node that is best by reputation, then speed, then load, then order. */
  lemma ScoresOnlyChooseHolders(items: seq<Entry>, numLayers: nat, scores: Scores, plain: Routed, scored: Routed)
    requires scores.load.Some? || scores.reputation.Some? || scores.speed.Some?
    requires Answer(items, numLayers, NO_SCORES, plain) && Answer(items, numLayers, scores, scored)
    ensures plain.Malformed? <==> scored.Malformed?
    ensures plain.Found? <==> scored.Found?
    ensures plain.Found? ==>
      && |plain.route.decoders| == |scored.route.decoders|
      && (forall i | 0 <= i < |plain.route.decoders| ::
            plain.route.decoders[i].key == scored.route.decoders[i].key)
      && Chosen(items, EmbedStage, scores, scored.route.embed)
      && Chosen(items, HeadStage, scores, scored.route.head)
      && (forall i | 0 <= i < |scored.route.decoders| ::
            Chosen(items, BlockStage(scored.route.decoders[i].key), scores, scored.route.decoders[i].id))
  {
    hide ParseKey, Sort, Candidates, AllParse, Chosen, Least, Picks, Reach;
    if scored.Found? {
      LeastIsChosen(items, EmbedStage, scores);
      LeastIsChosen(items, HeadStage, scores);
      forall i | 0 <= i < |scored.route.decoders|
        ensures Chosen(items, BlockStage(scored.route.decoders[i].key), scores, scored.route.decoders[i].id)
      {
        LeastIsChosen(items, BlockStage(scored.route.decoders[i].key), scores);
      }
    }
  }

  // ---- Without scores ----

  /** The first node in dictionary order that offers a stage. */
  predicate IsFirst(items: seq<Entry>, s: Stage, u: string) {
    exists i :: 0 <= i < |items| && items[i].url == u && Offers(items[i], s) && forall j | 0 <= j < i :: !Offers(items[j], s)
  }

  lemma {:induction false} FirstHolder(items: seq<Entry>, s: Stage)
    requires Holders(items, s) != []
    ensures IsFirst(items, s, Holders(items, s)[0])
  {
    hide Offers;
    var n := |items| - 1;
    var early := items[..n];
    if Holders(early, s) == [] {
      NoneOffers(early, s);
      assert forall j | 0 <= j < n :: items[j] == early[j];
      assert items[n].url == Holders(items, s)[0];
    } else {
      FirstHolder(early, s);
      var i :| 0 <= i < n && early[i].url == Holders(early, s)[0] && Offers(early[i], s)
        && forall j | 0 <= j < i :: !Offers(early[j], s);
      assert items[i] == early[i] && forall j | 0 <= j < i :: items[j] == early[j];
    }
  }

  /** a equals b up to where it ends or has the smaller character. */
  predicate ReadsBefore(a: string, b: string) {
    a <= b || exists k: nat :: k < |a| && k < |b| && a[..k] == b[..k] && a[k] < b[k]
  }

  lemma {:induction false} TextLeqIsReadsBefore(a: string, b: string)
    ensures TextLeq(a, b) <==> ReadsBefore(a, b)
  {
    hide ReadsBefore;
    if a == "" || b == "" {
      ReadsBeforeEmpty(a, b);
    } else if a[0] == b[0] {
      TextLeqIsReadsBefore(a[1..], b[1..]);
      ReadsBeforeRest(a, b);
    } else {
      ReadsBeforeFirst(a, b);
    }
  }

  lemma ReadsBeforeEmpty(a: string, b: string)
    requires a == "" || b == ""
    ensures ReadsBefore(a, b) <==> a == ""
  {
  }

  lemma ReadsBeforeRest(a: string, b: string)
    requires a != "" && b != "" && a[0] == b[0]
    ensures ReadsBefore(a, b) <==> ReadsBefore(a[1..], b[1..])
  {
    var c, d := a[1..], b[1..];
    assert a == [a[0]] + c && b == [b[0]] + d;
    if k: nat :| k < |c| && k < |d| && c[..k] == d[..k] && c[k] < d[k] {
      assert a[..k + 1] == [a[0]] + c[..k] && b[..k + 1] == [b[0]] + d[..k];
      assert a[k + 1] < b[k + 1];
    }
    if k: nat :| k < |a| && k < |b| && a[..k] == b[..k] && a[k] < b[k] {
      assert c[..k - 1] == a[..k][1..] && d[..k - 1] == b[..k][1..];
      assert c[k - 1] < d[k - 1];
    }
  }

  lemma ReadsBeforeFirst(a: string, b: string)
    requires a != "" && b != "" && a[0] != b[0]
    ensures ReadsBefore(a, b) <==> a[0] < b[0]
  {
    if a[0] < b[0] {
      assert a[..0] == b[..0];
    }
    forall k: nat | k < |a| && k < |b| && a[..k] == b[..k]
      ensures k == 0
    {
      FirstAgrees(a, b, k);
    }
  }

  lemma FirstAgrees(a: string, b: string, k: nat)
    requires k < |a| && k < |b| && a[..k] == b[..k]
    ensures k == 0 || a[0] == b[0]
  {
    if k > 0 {
      assert a[..k][0] == b[..k][0];
    }
  }

  /** Without scores every stage goes to the first node that can take it: the ends in dictionary order,
      a block to the least url among those advertising the least spelling of its range. */
  lemma UnscoredTakesFirst(items: seq<Entry>, numLayers: nat, r: Routed, i: nat, c: Cand)
    requires Answer(items, numLayers, NO_SCORES, r) && r.Found? && i < |r.route.decoders|
    requires AllParse(items) && IsCand(items, c) && c.lo == End(r.route.decoders, i) && c.hi == End(r.route.decoders, i + 1)
    ensures IsFirst(items, EmbedStage, r.route.embed) && IsFirst(items, HeadStage, r.route.head)
    ensures var hop := r.route.decoders[i];
      ReadsBefore(hop.key, c.key) && (hop.key == c.key ==> ReadsBefore(hop.id, c.url))
  {
    hide ParseKey, Sort, Candidates, AllParse, End, Tiles, TextLeq, ReadsBefore, IsFirst, Offers;
    var cs := Sort(Candidates(items));
    SortSorted(Candidates(items));
    CandidatesAre(items, c);
    FirstHolder(items, EmbedStage);
    FirstHolder(items, HeadStage);
    ChainIsSound(items, numLayers, NO_SCORES, r);
    var picks := Picks(cs, 0);
    PicksAreHeld(items, cs);
    PicksAreCands(cs, 0, i);
    assert TileAt(r.route.decoders, i) by {
      TileOf(r.route.decoders, numLayers, i);
    }
    PickIsFirst(cs, cs, 0, i, c);
    TextLeqIsReadsBefore(picks[i].key, c.key);
    TextLeqIsReadsBefore(picks[i].url, c.url);
    TextLeqTotal(c.key, c.key);
  }

  // ---- What the exclusion keeps ----

  /** kept lists, in order and each once, the positions of the entries that are not excluded. */
  predicate Keeps(entries: seq<Entry>, exclude: set<string>, items: seq<Entry>, kept: seq<nat>) {
    && |kept| == |items|
    && (forall k | 0 <= k < |kept| :: kept[k] < |entries| && items[k] == entries[kept[k]])
    && (forall k, l | 0 <= k < l < |kept| :: kept[k] < kept[l])
    && (forall i: nat | i < |entries| :: i in kept <==> entries[i].url !in exclude)
  }

  /** Exactly the nodes that are not excluded take part, each once and in order. */
  lemma {:induction false} ItemsAreKept(entries: seq<Entry>, exclude: set<string>)
    ensures exists kept: seq<nat> :: Keeps(entries, exclude, Items(entries, exclude), kept)
  {
    if entries == [] {
      var none: seq<nat> := [];
      assert Keeps(entries, exclude, Items(entries, exclude), none);
    } else {
      var n := |entries| - 1;
      ItemsAreKept(entries[..n], exclude);
      var kept: seq<nat> :| Keeps(entries[..n], exclude, Items(entries[..n], exclude), kept);
      KeepsStep(entries, exclude, Items(entries[..n], exclude), kept);
      var more := if entries[n].url in exclude then kept else kept + [n];
      assert Items(entries[..n], exclude) + [] == Items(entries[..n], exclude);
      assert Keeps(entries, exclude, Items(entries, exclude), more);
    }
  }

  lemma KeepsStep(entries: seq<Entry>, exclude: set<string>, items: seq<Entry>, kept: seq<nat>)
    requires entries != [] && Keeps(entries[..|entries| - 1], exclude, items, kept)
    ensures var n := |entries| - 1;
      if entries[n].url in exclude then Keeps(entries, exclude, items, kept)
      else Keeps(entries, exclude, items + [entries[n]], kept + [n])
  {
    var n := |entries| - 1;
    var early := entries[..n];
    assert n !in kept;
    forall i: nat | i < n
      ensures entries[i] == early[i] && (i in kept <==> entries[i].url !in exclude)
    {
    }
  }

  lemma TileOf(hops: seq<Hop>, numLayers: nat, i: nat)
    requires Tiles(hops, numLayers) && i < |hops|
    ensures TileAt(hops, i)
  {
    hide ParseKey, End;
  }

  lemma {:induction false} PickIsFirst(all: seq<Cand>, cs: seq<Cand>, cursor: nat, i: nat, c: Cand)
    requires Sorted(cs) && i < |Picks(cs, cursor)| && Remaining(all, cs, cursor)
    requires c in all && c.lo == Picks(cs, cursor)[i].lo < c.hi
    ensures Leq(Picks(cs, cursor)[i], c)
    decreases |cs|
  {
    var x, rest := cs[0], cs[1..];
    LeqTotal(x, x);
    if x.lo == cursor < x.hi {
      if i == 0 {
        HeadBefore(cs, c);
      } else {
        LaterPicksAreHigher(rest, x.hi, i - 1);
        StaysRemaining(all, cs, cursor, x.hi);
        PickIsFirst(all, rest, x.hi, i - 1, c);
      }
    } else if x.lo > cursor {
      forall d | d in cs
        ensures d.lo > cursor
      {
        HeadBefore(cs, d);
      }
      StuckAt(cs, cursor);
    } else {
      LaterPicksAreHigher(rest, cursor, i);
      StaysRemaining(all, cs, cursor, cursor);
      PickIsFirst(all, rest, cursor, i, c);
    }
  }

  lemma {:induction false} LaterPicksAreHigher(cs: seq<Cand>, cursor: nat, i: nat)
    requires i < |Picks(cs, cursor)|
    ensures cursor <= Picks(cs, cursor)[i].lo
    decreases |cs|
  {
    if cs[0].lo == cursor < cs[0].hi {
      if i > 0 {
        LaterPicksAreHigher(cs[1..], cs[0].hi, i - 1);
      }
    } else {
      LaterPicksAreHigher(cs[1..], cursor, i);
    }
  }

  lemma StaysRemaining(all: seq<Cand>, cs: seq<Cand>, cursor: nat, next: nat)
    requires cs != [] && Remaining(all, cs, cursor) && cursor <= next
    requires cs[0].lo < next || cs[0].hi <= cs[0].lo
    ensures Remaining(all, cs[1..], next)
  {
  }
}
