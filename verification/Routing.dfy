// Building a chain of nodes that covers the whole model from the stages they advertise.
module Routing {
  import opened Text
  import opened Relay

  datatype Stages = Stages(embed: bool, head: bool, decoders: seq<string>)

  /** One item of a dictionary url -> stages, in insertion order. */
  datatype Entry = Entry(url: string, stages: Stages)

  datatype Scores = Scores(load: Option<map<string, int>>, reputation: Option<map<string, real>>,
                           speed: Option<map<string, real>>)
  {
    predicate Given() {
      load.Some? || reputation.Some? || speed.Some?
    }

    function Load(u: string): int {
      if load.Some? && u in load.value then load.value[u] else 0
    }

    function Reputation(u: string): real {
      if reputation.Some? && u in reputation.value then reputation.value[u] else 0.0
    }

    function Speed(u: string): real {
      if speed.Some? && u in speed.value then speed.value[u] else 0.0
    }

    /** Whether u sorts before v by (-reputation, -speed, load), leaving ties to the caller. */
    predicate Better(u: string, v: string) {
      || Reputation(u) > Reputation(v)
      || (Reputation(u) == Reputation(v)
          && (Speed(u) > Speed(v) || (Speed(u) == Speed(v) && Load(u) < Load(v))))
    }
  }

  const NO_SCORES := Scores(None, None, None)

  /** Malformed stands for the exception of a key that is not "lo-hi". */
  datatype Routed = Malformed | NoChain | Found(route: Route)

  function Items(entries: seq<Entry>, exclude: set<string>): (items: seq<Entry>)
    ensures forall e | e in items :: e in entries && e.url !in exclude
  {
    if entries == [] then []
    else
      var n := |entries| - 1;
      Items(entries[..n], exclude) + (if entries[n].url in exclude then [] else [entries[n]])
  }

  lemma {:induction false} ItemsKeepsAll(entries: seq<Entry>, exclude: set<string>, e: Entry)
    requires e in entries && e.url !in exclude
    ensures e in Items(entries, exclude)
  {
    var n := |entries| - 1;
    if e != entries[n] {
      ItemsKeepsAll(entries[..n], exclude, e);
    }
  }

  /** The stage a node is chosen for. */
  datatype Stage = EmbedStage | HeadStage | BlockStage(key: string)

  predicate Offers(e: Entry, s: Stage) {
    match s
    case EmbedStage => e.stages.embed
    case HeadStage => e.stages.head
    case BlockStage(key) => key in e.stages.decoders
  }

  /** The urls offering a stage, in dictionary order. */
  function Holders(items: seq<Entry>, s: Stage): (us: seq<string>)
    ensures forall u | u in us :: exists e :: e in items && e.url == u && Offers(e, s)
  {
    if items == [] then []
    else
      var n := |items| - 1;
      Holders(items[..n], s) + (if Offers(items[n], s) then [items[n].url] else [])
  }

  lemma {:induction false} HoldersComplete(items: seq<Entry>, s: Stage, e: Entry)
    requires e in items && Offers(e, s)
    ensures e.url in Holders(items, s)
  {
    var n := |items| - 1;
    if e != items[n] {
      HoldersComplete(items[..n], s, e);
    }
  }

  /** One advertised block: its range, its key and who advertises it. */
  datatype Cand = Cand(lo: nat, hi: nat, key: string, url: string)

  predicate KeysParse(e: Entry) {
    forall k | k in e.stages.decoders :: ParseKey(k).Some?
  }

  predicate AllParse(items: seq<Entry>) {
    forall e | e in items :: KeysParse(e)
  }

  function CandOf(e: Entry, key: string): Cand
    requires ParseKey(key).Some?
  {
    var r := ParseKey(key).value;
    Cand(r.lo, r.hi, key, e.url)
  }

  function Advertised(e: Entry): (cs: seq<Cand>)
    requires KeysParse(e)
  {
    seq(|e.stages.decoders|, i requires 0 <= i < |e.stages.decoders| =>
      assert e.stages.decoders[i] in e.stages.decoders; CandOf(e, e.stages.decoders[i]))
  }

  function Candidates(items: seq<Entry>): (cs: seq<Cand>)
    requires AllParse(items)
  {
    if items == [] then []
    else
      var n := |items| - 1;
      Candidates(items[..n]) + Advertised(items[n])
  }

  predicate IsCand(items: seq<Entry>, c: Cand) {
    exists e :: e in items && c.key in e.stages.decoders && c.url == e.url
                && ParseKey(c.key) == Some(Range(c.lo, c.hi))
  }

  lemma {:induction false} CandidatesAre(items: seq<Entry>, c: Cand)
    requires AllParse(items)
    ensures c in Candidates(items) <==> IsCand(items, c)
  {
    hide ParseKey;
    if items != [] {
      var n := |items| - 1;
      CandidatesAre(items[..n], c);
      AdvertisedAre(items[n], c);
      assert items == items[..n] + [items[n]];
    }
  }

  lemma AdvertisedAre(e: Entry, c: Cand)
    requires KeysParse(e)
    ensures c in Advertised(e) <==>
      c.key in e.stages.decoders && c.url == e.url && ParseKey(c.key) == Some(Range(c.lo, c.hi))
  {
    hide ParseKey;
    if c.key in e.stages.decoders && c.url == e.url && ParseKey(c.key) == Some(Range(c.lo, c.hi)) {
      var i :| 0 <= i < |e.stages.decoders| && e.stages.decoders[i] == c.key;
      assert Advertised(e)[i] == c;
    }
  }

  // ---- Tuple order and sorting ----

  /** Python's string order. */
  predicate TextLeq(a: string, b: string) {
    a == "" || (b != "" && (a[0] < b[0] || (a[0] == b[0] && TextLeq(a[1..], b[1..]))))
  }

  predicate Leq(a: Cand, b: Cand) {
    || a.lo < b.lo
    || (a.lo == b.lo && a.hi < b.hi)
    || (a.lo == b.lo && a.hi == b.hi && (if a.key == b.key then TextLeq(a.url, b.url) else TextLeq(a.key, b.key)))
  }

  lemma {:induction false} TextLeqTotal(a: string, b: string)
    ensures TextLeq(a, b) || TextLeq(b, a)
    ensures TextLeq(a, b) && TextLeq(b, a) ==> a == b
  {
    if a != "" && b != "" && a[0] == b[0] {
      TextLeqTotal(a[1..], b[1..]);
      assert a == [a[0]] + a[1..] && b == [b[0]] + b[1..];
    }
  }

  lemma {:induction false} TextLeqTransitive(a: string, b: string, c: string)
    requires TextLeq(a, b) && TextLeq(b, c)
    ensures TextLeq(a, c)
  {
    if a != "" && a[0] == b[0] == c[0] {
      TextLeqTransitive(a[1..], b[1..], c[1..]);
    }
  }

  lemma LeqTotal(a: Cand, b: Cand)
    ensures Leq(a, b) || Leq(b, a)
  {
    hide TextLeq;
    TextLeqTotal(a.key, b.key);
    TextLeqTotal(a.url, b.url);
  }

  lemma LeqTransitive(a: Cand, b: Cand, c: Cand)
    requires Leq(a, b) && Leq(b, c)
    ensures Leq(a, c)
  {
    hide TextLeq;
    if a.lo == b.lo == c.lo && a.hi == b.hi == c.hi {
      if a.key == b.key == c.key {
        TextLeqTransitive(a.url, b.url, c.url);
      } else if a.key != b.key && b.key != c.key {
        TextLeqTransitive(a.key, b.key, c.key);
        TextLeqTotal(a.key, b.key);
      }
    }
  }

  predicate Sorted(cs: seq<Cand>) {
    forall i, j | 0 <= i < j < |cs| :: Leq(cs[i], cs[j])
  }

  function Insert(c: Cand, cs: seq<Cand>): (r: seq<Cand>)
    ensures multiset(r) == multiset(cs) + multiset{c}
  {
    if cs == [] then [c]
    else if Leq(c, cs[0]) then [c] + cs
    else
      assert cs == [cs[0]] + cs[1..];
      [cs[0]] + Insert(c, cs[1..])
  }

  /** ranges.sort() */
  function Sort(cs: seq<Cand>): (r: seq<Cand>)
    ensures multiset(r) == multiset(cs)
  {
    if cs == [] then []
    else
      assert cs == [cs[0]] + cs[1..];
      Insert(cs[0], Sort(cs[1..]))
  }

  lemma {:induction false} InsertSorted(c: Cand, cs: seq<Cand>)
    requires Sorted(cs)
    ensures Sorted(Insert(c, cs))
  {
    hide Leq;
    if cs != [] && !Leq(c, cs[0]) {
      LeqTotal(c, cs[0]);
      InsertSorted(c, cs[1..]);
      var r := Insert(c, cs[1..]);
      forall x | x in r
        ensures Leq(cs[0], x)
      {
        assert x in multiset(r);
        assert x == c || x in multiset(cs[1..]);
      }
    } else if cs != [] {
      forall i | 0 <= i < |cs|
        ensures Leq(c, cs[i])
      {
        if i > 0 {
          LeqTransitive(c, cs[0], cs[i]);
        }
      }
    }
  }

  lemma {:induction false} SortSorted(cs: seq<Cand>)
    ensures Sorted(Sort(cs))
    ensures forall c :: c in Sort(cs) <==> c in cs
  {
    if cs != [] {
      SortSorted(cs[1..]);
      InsertSorted(cs[0], Sort(cs[1..]));
    }
    forall c
      ensures c in Sort(cs) <==> c in cs
    {
      assert c in Sort(cs) <==> c in multiset(Sort(cs));
      assert c in cs <==> c in multiset(cs);
    }
  }

  // ---- Choosing blocks and holders ----

  /** Walking the sorted blocks, every one that starts at the cursor and is not empty is taken. */
  function Picks(cs: seq<Cand>, cursor: nat): seq<Cand> {
    if cs == [] then []
    else if cs[0].lo == cursor < cs[0].hi then [cs[0]] + Picks(cs[1..], cs[0].hi)
    else Picks(cs[1..], cursor)
  }

  function Reach(cs: seq<Cand>, cursor: nat): nat {
    if cs == [] then cursor
    else if cs[0].lo == cursor < cs[0].hi then Reach(cs[1..], cs[0].hi)
    else Reach(cs[1..], cursor)
  }

  /** The first url that no other beats. */
  function Least(us: seq<string>, scores: Scores): (u: string)
    requires us != []
    ensures u in us
  {
    var n := |us| - 1;
    if n == 0 then us[0]
    else
      var best := Least(us[..n], scores);
      if scores.Better(us[n], best) then us[n] else best
  }

  function AsPicked(picks: seq<Cand>): (hops: seq<Hop>)
    ensures |hops| == |picks|
  {
    seq(|picks|, i requires 0 <= i < |picks| => Hop(picks[i].key, picks[i].url))
  }

  /** Every picked key has a holder: the one it was picked from. */
  predicate AllHeld(items: seq<Entry>, keys: seq<Hop>) {
    forall i | 0 <= i < |keys| :: Holders(items, BlockStage(keys[i].key)) != []
  }

  function Rebalanced(items: seq<Entry>, hops: seq<Hop>, scores: Scores): (r: seq<Hop>)
    requires AllHeld(items, hops)
    ensures |r| == |hops|
  {
    seq(|hops|, i requires 0 <= i < |hops| =>
      Hop(hops[i].key, Least(Holders(items, BlockStage(hops[i].key)), scores)))
  }

  /** What routing answers for a set of items. */
  ghost predicate Answer(items: seq<Entry>, numLayers: nat, scores: Scores, r: Routed) {
    var es, hs := Holders(items, EmbedStage), Holders(items, HeadStage);
    if es == [] || hs == [] then r == NoChain
    else if !AllParse(items) then r == Malformed
    else
      var cs := Sort(Candidates(items));
      var hops := AsPicked(Picks(cs, 0));
      if Reach(cs, 0) != numLayers then r == NoChain
      else if !scores.Given() then r == Found(Route(es[0], hops, hs[0]))
      else AllHeld(items, hops)
           && r == Found(Route(Least(es, scores), Rebalanced(items, hops, scores), Least(hs, scores)))
  }

  lemma {:induction false} PicksAreCands(cs: seq<Cand>, cursor: nat, i: nat)
    requires i < |Picks(cs, cursor)|
    ensures Picks(cs, cursor)[i] in cs
  {
    if cs[0].lo == cursor < cs[0].hi {
      if i > 0 {
        PicksAreCands(cs[1..], cs[0].hi, i - 1);
      }
    } else {
      PicksAreCands(cs[1..], cursor, i);
    }
  }

  lemma PicksAreHeld(items: seq<Entry>, cs: seq<Cand>)
    requires AllParse(items) && cs == Sort(Candidates(items))
    ensures forall c | c in cs :: IsCand(items, c)
    ensures AllHeld(items, AsPicked(Picks(cs, 0)))
  {
    hide ParseKey, AllParse, Sort, Candidates;
    var picks := Picks(cs, 0);
    SortSorted(Candidates(items));
    forall c | c in cs
      ensures IsCand(items, c)
    {
      CandidatesAre(items, c);
    }
    forall i | 0 <= i < |picks|
      ensures Holders(items, BlockStage(picks[i].key)) != []
    {
      PicksAreCands(cs, 0, i);
      var e :| e in items && picks[i].key in e.stages.decoders && picks[i].url == e.url;
      HoldersComplete(items, BlockStage(picks[i].key), e);
    }
  }

  /** Builds (embed node, [(block, node)], head node) covering layers 0, ..., numLayers - 1. */
  method BuildChain(entries: seq<Entry>, numLayers: nat, exclude: set<string>, scores: Scores) returns (r: Routed)
    ensures Answer(Items(entries, exclude), numLayers, scores, r)
  {
    hide ParseKey;
    var items: seq<Entry> := [];
    for i := 0 to |entries|
      invariant items == Items(entries[..i], exclude)
    {
      assert entries[..i + 1][..i] == entries[..i];
      if entries[i].url !in exclude {
        items := items + [entries[i]];
      }
    }
    assert entries[..|entries|] == entries;
    var es, hs := Holders(items, EmbedStage), Holders(items, HeadStage);
    if es == [] || hs == [] {
      return NoChain;
    }
    var parsed, cs := CollectRanges(items);
    if !parsed {
      return Malformed;
    }
    cs := Sort(cs);
    var chain, cursor := TileGreedily(cs);
    if cursor != numLayers {
      return NoChain;
    }
    PicksAreHeld(items, cs);
    if !scores.Given() {
      return Found(Route(es[0], chain, hs[0]));
    }
    return Found(Route(Least(es, scores), Rebalanced(items, chain, scores), Least(hs, scores)));
  }

  method CollectRanges(items: seq<Entry>) returns (parsed: bool, cs: seq<Cand>)
    ensures parsed <==> AllParse(items)
    ensures parsed ==> cs == Candidates(items)
  {
    hide ParseKey;
    cs := [];
    for i := 0 to |items|
      invariant AllParse(items[..i]) && cs == Candidates(items[..i])
    {
      var e := items[i];
      var own: seq<Cand> := [];
      for j := 0 to |e.stages.decoders|
        invariant |own| == j
        invariant forall k | 0 <= k < j ::
                    ParseKey(e.stages.decoders[k]).Some? && own[k] == CandOf(e, e.stages.decoders[k])
      {
        if ParseKey(e.stages.decoders[j]).None? {
          assert e in items && e.stages.decoders[j] in e.stages.decoders && !KeysParse(e);
          return false, [];
        }
        own := own + [CandOf(e, e.stages.decoders[j])];
      }
      assert own == Advertised(e);
      assert items[..i + 1][..i] == items[..i];
      cs := cs + own;
    }
    assert items[..|items|] == items;
    parsed := true;
  }

  method TileGreedily(cs: seq<Cand>) returns (chain: seq<Hop>, cursor: nat)
    ensures chain == AsPicked(Picks(cs, 0)) && cursor == Reach(cs, 0)
  {
    chain, cursor := [], 0;
    ghost var picked: seq<Cand> := [];
    for i := 0 to |cs|
      invariant picked + Picks(cs[i..], cursor) == Picks(cs, 0)
      invariant chain == AsPicked(picked)
      invariant Reach(cs[i..], cursor) == Reach(cs, 0)
    {
      var c := cs[i];
      assert cs[i..][0] == c && cs[i..][1..] == cs[i + 1..];
      if c.lo == cursor && c.hi > cursor {
        picked := picked + [c];
        chain := chain + [Hop(c.key, c.url)];
        cursor := c.hi;
      }
    }
    assert cs[|cs|..] == [];
  }
}
