// The network assembling itself: serial joins that claim what the planner returns close every gap,
// and then routing finds a chain.
module Assembly {
  import opened Text
  import opened Relay
  import opened Routing
  import opened RoutingProofs
  import opened Topology
  import opened Coverage
  import opened Allocator

  /** Non-empty blocks inside the model that do not overlap. */
  predicate DisjointInside(cs: seq<Cand>, numLayers: nat) {
    && (forall i | 0 <= i < |cs| :: cs[i].lo < cs[i].hi <= numLayers)
    && (forall i, j | 0 <= i < j < |cs| :: cs[i].hi <= cs[j].lo || cs[j].hi <= cs[i].lo)
  }

  predicate Orderly(entries: seq<Entry>, numLayers: nat) {
    AllParse(entries) && DisjointInside(Candidates(entries), numLayers)
  }

  /** What a node started with a specification advertises. */
  function AdvertOf(spec: StageSpec): Stages {
    Stages(spec.embed, spec.head, seq(|spec.decoders|, i requires 0 <= i < |spec.decoders| => Key(spec.decoders[i])))
  }

  /** A node plans for target 1 from the entries as they are and joins with what it planned. */
  ghost predicate Joins(before: seq<Entry>, after: seq<Entry>, numLayers: nat, maxDecoderLayers: nat, take: bool) {
    exists url: string, spec: StageSpec ::
      && Planned(before, numLayers, 1, maxDecoderLayers, take, spec)
      && after == before + [Entry(url, AdvertOf(spec))]
  }

  lemma {:induction false} CoveredIsInBlock(cs: seq<Cand>, i: nat)
    ensures CoverAt(cs, i) > 0 <==> exists k :: 0 <= k < |cs| && cs[k].lo <= i < cs[k].hi
  {
    if cs != [] {
      var n := |cs| - 1;
      CoveredIsInBlock(cs[..n], i);
      if k :| 0 <= k < |cs| && cs[k].lo <= i < cs[k].hi {
        assert k < n ==> cs[..n][k] == cs[k];
      }
      if k :| 0 <= k < n && cs[..n][k].lo <= i < cs[..n][k].hi {
        assert cs[k] == cs[..n][k];
      }
    }
  }

  /** A block whose layers were all uncovered does not overlap any other. */
  lemma PushKeepsDisjoint(cs: seq<Cand>, c: Cand, numLayers: nat)
    requires DisjointInside(cs, numLayers) && c.lo < c.hi <= numLayers
    requires forall i | c.lo <= i < c.hi :: CoverAt(cs, i) < 1
    ensures DisjointInside(cs + [c], numLayers)
  {
    hide CoverAt;
    forall k | 0 <= k < |cs|
      ensures cs[k].hi <= c.lo || c.hi <= cs[k].lo
    {
      if !(cs[k].hi <= c.lo || c.hi <= cs[k].lo) {
        var i := if cs[k].lo < c.lo then c.lo else cs[k].lo;
        CoveredIsInBlock(cs, i);
      }
    }
  }

  lemma JoinedCands(before: seq<Entry>, url: string, spec: StageSpec)
    requires AllParse(before) && |spec.decoders| <= 1
    ensures var after := before + [Entry(url, AdvertOf(spec))];
      && AllParse(after)
      && Candidates(after) == Candidates(before)
           + (if spec.decoders == [] then []
              else [Cand(spec.decoders[0].lo, spec.decoders[0].hi, Key(spec.decoders[0]), url)])
  {
    hide Key, ParseKey;
    var e := Entry(url, AdvertOf(spec));
    var after := before + [e];
    assert after[..|before|] == before;
    if spec.decoders != [] {
      ParseKeyOfKey(spec.decoders[0]);
      assert Advertised(e) == [Cand(spec.decoders[0].lo, spec.decoders[0].hi, Key(spec.decoders[0]), url)];
    } else {
      assert Advertised(e) == [];
    }
  }

  /** A join keeps the blocks disjoint; with room for a layer and a layer uncovered, the claim lowers the
      number of uncovered layers by its length, which is at least one. */
  lemma JoinMakesProgress(before: seq<Entry>, after: seq<Entry>, numLayers: nat, maxDecoderLayers: nat, take: bool)
    requires Orderly(before, numLayers) && Joins(before, after, numLayers, maxDecoderLayers, take)
    ensures Orderly(after, numLayers)
    ensures Deficit(Candidates(after), 1, numLayers) <= Deficit(Candidates(before), 1, numLayers)
    ensures maxDecoderLayers > 0 && Deficit(Candidates(before), 1, numLayers) > 0 ==>
              Deficit(Candidates(after), 1, numLayers) < Deficit(Candidates(before), 1, numLayers)
  {
    hide AllParse, Candidates, AdvertOf, Planned, Deficit, CoverAt, Key;
    var url: string, spec: StageSpec :| Planned(before, numLayers, 1, maxDecoderLayers, take, spec)
      && after == before + [Entry(url, AdvertOf(spec))];
    var key := if spec.decoders != [] then Key(spec.decoders[0]) else "";
    ClaimInsideGap(before, numLayers, 1, maxDecoderLayers, take, spec, key, url);
    JoinedCands(before, url, spec);
    if spec.decoders != [] {
      PushKeepsDisjoint(Candidates(before), Cand(spec.decoders[0].lo, spec.decoders[0].hi, key, url), numLayers);
    } else {
      assert Candidates(before) + [] == Candidates(before);
    }
  }

  /** Both ends are served by some node. */
  predicate EndsServed(entries: seq<Entry>) {
    (exists e :: e in entries && e.stages.embed) && exists e :: e in entries && e.stages.head
  }

  /** After a node that takes ends has joined, both ends are served; and a join takes no node away. */
  lemma JoinServesEnds(before: seq<Entry>, after: seq<Entry>, numLayers: nat, maxDecoderLayers: nat, take: bool)
    requires Joins(before, after, numLayers, maxDecoderLayers, take)
    ensures before <= after
    ensures take || EndsServed(before) ==> EndsServed(after)
  {
    hide AllParse, Candidates, AreGaps, CoverOf, IsNeediest, StartOf;
    var url: string, spec: StageSpec :| Planned(before, numLayers, 1, maxDecoderLayers, take, spec)
      && after == before + [Entry(url, AdvertOf(spec))];
    var gaps :| PlannedFor(before, numLayers, 1, maxDecoderLayers, take, spec, gaps);
    var last := |before|;
    assert after[last] == Entry(url, AdvertOf(spec));
    assert forall e | e in before :: e in after;
    if take {
      var embeds := set k: nat | k < |before| && before[k].stages.embed;
      var heads := set k: nat | k < |before| && before[k].stages.head;
      if embeds != {} {
        var k :| k in embeds;
        assert before[k] in after;
      } else {
        assert after[last] in after && after[last].stages.embed;
      }
      if heads != {} {
        var k :| k in heads;
        assert before[k] in after;
      } else {
        assert after[last] in after && after[last].stages.head;
      }
    }
  }

  /** A history of networks, each the previous one after a join of a node with room for a layer. */
  ghost predicate History(nets: seq<seq<Entry>>, numLayers: nat) {
    forall i | 0 <= i < |nets| - 1 :: JoinAt(nets, i, numLayers)
  }

  ghost predicate JoinAt(nets: seq<seq<Entry>>, i: nat, numLayers: nat)
    requires i + 1 < |nets|
  {
    RoomyJoin(nets[i], nets[i + 1], numLayers)
  }

  ghost predicate RoomyJoin(before: seq<Entry>, after: seq<Entry>, numLayers: nat) {
    exists room: nat, take: bool :: room > 0 && Joins(before, after, numLayers, room, take)
  }

  function UpTo(n: nat, k: nat): nat {
    if k < n then n - k else 0
  }

  lemma {:induction false} JoinsCloseGaps(nets: seq<seq<Entry>>, numLayers: nat, k: nat)
    requires k < |nets| && History(nets, numLayers) && Orderly(nets[0], numLayers)
    ensures Orderly(nets[k], numLayers)
    ensures Deficit(Candidates(nets[k]), 1, numLayers) <= UpTo(Deficit(Candidates(nets[0]), 1, numLayers), k)
  {
    hide Orderly, Joins, Candidates, Deficit;
    if k > 0 {
      JoinsCloseGaps(nets, numLayers, k - 1);
      assert JoinAt(nets, k - 1, numLayers);
      assert RoomyJoin(nets[k - 1], nets[k], numLayers);
      var room: nat, take: bool :| room > 0 && Joins(nets[k - 1], nets[k], numLayers, room, take);
      JoinMakesProgress(nets[k - 1], nets[k], numLayers, room, take);
    }
  }

  lemma {:induction false} DeficitBound(cs: seq<Cand>, n: nat)
    ensures Deficit(cs, 1, n) <= n
  {
    if n > 0 {
      DeficitBound(cs, n - 1);
    }
  }

  lemma {:induction false} NoDeficitCoversAll(cs: seq<Cand>, n: nat, i: nat)
    requires Deficit(cs, 1, n) == 0 && i < n
    ensures CoverAt(cs, i) > 0
  {
    if i < n - 1 {
      NoDeficitCoversAll(cs, n - 1, i);
    }
  }

  // ---- Disjoint blocks that cover everything are walked to the end ----

  /** The blocks still to be walked lie beyond the cursor, do not overlap and cover everything there. */
  predicate CoversFrom(cs: seq<Cand>, cursor: nat, numLayers: nat) {
    && cursor <= numLayers
    && DisjointInside(cs, numLayers)
    && (forall i | 0 <= i < |cs| :: cursor <= cs[i].lo)
    && (forall i | cursor <= i < numLayers :: InSome(cs, i))
  }

  predicate InSome(cs: seq<Cand>, i: nat) {
    exists k :: 0 <= k < |cs| && cs[k].lo <= i < cs[k].hi
  }

  lemma {:induction false} WalkCovers(cs: seq<Cand>, cursor: nat, numLayers: nat)
    requires Sorted(cs) && CoversFrom(cs, cursor, numLayers)
    ensures Reach(cs, cursor) == numLayers
    decreases |cs|
  {
    if cs == [] {
      NothingLeft(cs, cursor, numLayers);
    } else {
      FirstStartsHere(cs, cursor, numLayers);
      NextCovers(cs, cursor, numLayers);
      WalkCovers(cs[1..], cs[0].hi, numLayers);
    }
  }

  lemma NothingLeft(cs: seq<Cand>, cursor: nat, numLayers: nat)
    requires cs == [] && CoversFrom(cs, cursor, numLayers)
    ensures cursor == numLayers
  {
    assert !InSome(cs, cursor);
  }

  lemma FirstStartsHere(cs: seq<Cand>, cursor: nat, numLayers: nat)
    requires cs != [] && Sorted(cs) && CoversFrom(cs, cursor, numLayers)
    ensures cs[0].lo == cursor < cs[0].hi
  {
    assert cursor <= cs[0].lo < cs[0].hi <= numLayers;
    assert InSome(cs, cursor);
    var k :| 0 <= k < |cs| && cs[k].lo <= cursor < cs[k].hi;
    HeadBefore(cs, cs[k]);
  }

  lemma NextCovers(cs: seq<Cand>, cursor: nat, numLayers: nat)
    requires cs != [] && Sorted(cs) && CoversFrom(cs, cursor, numLayers) && cs[0].lo == cursor
    ensures CoversFrom(cs[1..], cs[0].hi, numLayers)
  {
    var x, rest := cs[0], cs[1..];
    forall k | 0 <= k < |rest|
      ensures x.hi <= rest[k].lo
    {
      assert rest[k] == cs[k + 1] && cursor <= cs[k + 1].lo < cs[k + 1].hi;
    }
    forall i | x.hi <= i < numLayers
      ensures InSome(rest, i)
    {
      assert InSome(cs, i);
      var k :| 0 <= k < |cs| && cs[k].lo <= i < cs[k].hi;
      assert rest[k - 1] == cs[k];
    }
  }

  predicate ApartFrom(c: Cand, cs: seq<Cand>) {
    forall d | d in cs :: d.hi <= c.lo || c.hi <= d.lo
  }

  lemma ConsDisjoint(c: Cand, cs: seq<Cand>, numLayers: nat)
    requires c.lo < c.hi <= numLayers && ApartFrom(c, cs)
    ensures DisjointInside([c] + cs, numLayers) <==> DisjointInside(cs, numLayers)
  {
    if DisjointInside([c] + cs, numLayers) {
      assert ([c] + cs)[1..] == cs;
      TailDisjoint([c] + cs, numLayers);
    }
  }

  lemma TailDisjoint(cs: seq<Cand>, numLayers: nat)
    requires cs != [] && DisjointInside(cs, numLayers)
    ensures DisjointInside(cs[1..], numLayers) && ApartFrom(cs[0], cs[1..])
    ensures cs[0].lo < cs[0].hi <= numLayers
  {
  }

  lemma Members(cs: seq<Cand>, c: Cand, d: Cand)
    ensures d in Insert(c, cs) <==> d == c || d in cs
  {
    assert d in Insert(c, cs) <==> d in multiset(Insert(c, cs));
    assert d in cs <==> d in multiset(cs);
  }

  lemma {:induction false} SortedDisjoint(cs: seq<Cand>, numLayers: nat)
    requires DisjointInside(cs, numLayers)
    ensures DisjointInside(Sort(cs), numLayers)
  {
    hide Leq, DisjointInside, Insert, Sorted;
    if cs != [] {
      TailDisjoint(cs, numLayers);
      SortedDisjoint(cs[1..], numLayers);
      SortSorted(cs[1..]);
      InsertDisjoint(cs[0], Sort(cs[1..]), numLayers);
    } else {
      assert Sort(cs) == cs;
    }
  }

  lemma {:induction false} InsertDisjoint(c: Cand, cs: seq<Cand>, numLayers: nat)
    requires DisjointInside(cs, numLayers) && c.lo < c.hi <= numLayers && ApartFrom(c, cs)
    ensures DisjointInside(Insert(c, cs), numLayers)
  {
    hide Leq, DisjointInside;
    if cs == [] || Leq(c, cs[0]) {
      ConsDisjoint(c, cs, numLayers);
      assert cs == [] ==> [c] + cs == [c];
    } else {
      TailDisjoint(cs, numLayers);
      InsertDisjoint(c, cs[1..], numLayers);
      var r := Insert(c, cs[1..]);
      forall d | d in r
        ensures d.hi <= cs[0].lo || cs[0].hi <= d.lo
      {
        Members(cs[1..], c, d);
        assert cs[0] in cs;
      }
      ConsDisjoint(cs[0], r, numLayers);
    }
  }

  /** Once no layer is uncovered and both ends are served, routing finds a chain, whatever the scores. */
  lemma FullCoverageIsRouted(entries: seq<Entry>, numLayers: nat, scores: Scores, r: Routed)
    requires Orderly(entries, numLayers) && Deficit(Candidates(entries), 1, numLayers) == 0
    requires Holders(entries, EmbedStage) != [] && Holders(entries, HeadStage) != []
    requires Answer(entries, numLayers, scores, r)
    ensures r.Found? && Covers(entries, numLayers, r.route)
  {
    hide AllParse, Candidates, Leq, Picks, Tiles, Served, Sorted, DisjointInside;
    var cs := Sort(Candidates(entries));
    SortSorted(Candidates(entries));
    SortedDisjoint(Candidates(entries), numLayers);
    hide Sort;
    AllInSome(Candidates(entries), cs, numLayers);
    WalkCovers(cs, 0, numLayers);
    ChainIsSound(entries, numLayers, scores, r);
  }

  lemma AllInSome(all: seq<Cand>, cs: seq<Cand>, numLayers: nat)
    requires Deficit(all, 1, numLayers) == 0 && forall c :: c in cs <==> c in all
    ensures forall i | 0 <= i < numLayers :: InSome(cs, i)
  {
    hide Deficit, CoverAt;
    forall i | 0 <= i < numLayers
      ensures InSome(cs, i)
    {
      NoDeficitCoversAll(all, numLayers, i);
      CoveredIsInBlock(all, i);
      var k :| 0 <= k < |all| && all[k].lo <= i < all[k].hi;
      assert all[k] in cs;
    }
  }

  /** A join by a node that takes ends. */
  ghost predicate EndsJoin(before: seq<Entry>, after: seq<Entry>, numLayers: nat) {
    exists room: nat :: Joins(before, after, numLayers, room, true)
  }

  /** Once a node that takes ends has joined, both stay served. */
  lemma {:induction false} EndsStayServed(nets: seq<seq<Entry>>, numLayers: nat, i: nat, k: nat)
    requires i < k < |nets| && History(nets, numLayers) && EndsJoin(nets[i], nets[i + 1], numLayers)
    ensures EndsServed(nets[k])
    decreases k
  {
    hide EndsServed, Joins;
    if k == i + 1 {
      var before, after := nets[i], nets[i + 1];
      var room: nat :| Joins(before, after, numLayers, room, true);
      JoinServesEnds(before, after, numLayers, room, true);
    } else {
      EndsStayServed(nets, numLayers, i, k - 1);
      assert JoinAt(nets, k - 1, numLayers);
      assert RoomyJoin(nets[k - 1], nets[k], numLayers);
      var room: nat, take: bool :| room > 0 && Joins(nets[k - 1], nets[k], numLayers, room, take);
      JoinServesEnds(nets[k - 1], nets[k], numLayers, room, take);
    }
  }

  /** Self-assembly: from any orderly network of an N-layer model, also the empty one, N serial joins of nodes
      with room for at least one layer, among them one that takes ends, leave a network in which routing
      finds a chain. */
  lemma SelfAssembly(nets: seq<seq<Entry>>, numLayers: nat, i: nat, scores: Scores, r: Routed)
    requires |nets| > numLayers && History(nets, numLayers) && Orderly(nets[0], numLayers)
    requires i + 1 < |nets| && EndsJoin(nets[i], nets[i + 1], numLayers)
    requires Answer(nets[|nets| - 1], numLayers, scores, r)
    ensures r.Found? && Covers(nets[|nets| - 1], numLayers, r.route)
  {
    hide AllParse, DisjointInside, Candidates, Deficit, History, Answer, Covers, EndsJoin, EndsServed;
    JoinsCloseGaps(nets, numLayers, |nets| - 1);
    DeficitBound(Candidates(nets[0]), numLayers);
    EndsStayServed(nets, numLayers, i, |nets| - 1);
    EndsAreHeldBy(nets[|nets| - 1]);
    FullCoverageIsRouted(nets[|nets| - 1], numLayers, scores, r);
  }

  lemma EndsAreHeldBy(entries: seq<Entry>)
    requires EndsServed(entries)
    ensures Holders(entries, EmbedStage) != [] && Holders(entries, HeadStage) != []
  {
    var e :| e in entries && e.stages.embed;
    HoldersComplete(entries, EmbedStage, e);
    var h :| h in entries && h.stages.head;
    HoldersComplete(entries, HeadStage, h);
  }
}
