// How often each layer is covered, and the maximal ranges that are covered too little.
module Coverage {
  import opened Text
  import opened Routing

  /** How many advertised block occurrences contain layer i. */
  function CoverAt(cs: seq<Cand>, i: nat): nat {
    if cs == [] then 0
    else CoverAt(cs[..|cs| - 1], i) + (if cs[|cs| - 1].lo <= i < cs[|cs| - 1].hi then 1 else 0)
  }

  datatype Gap = Gap(lo: nat, hi: nat, replicas: nat)

  datatype Gaps = Gaps(decoderGaps: seq<Gap>, embedReplicas: nat, headReplicas: nat, target: nat)

  /** [lo, hi) is a run of layers below target that cannot be extended. */
  predicate MaximalRun(cover: seq<nat>, target: nat, lo: nat, hi: nat) {
    && lo < hi <= |cover|
    && (forall i | lo <= i < hi :: cover[i] < target)
    && (lo == 0 || cover[lo - 1] >= target)
    && (hi == |cover| || cover[hi] >= target)
  }

  /** r is the smallest cover in [lo, hi). */
  predicate IsMin(cover: seq<nat>, lo: nat, hi: nat, r: nat) {
    lo < hi <= |cover| && (forall i | lo <= i < hi :: r <= cover[i]) && exists i :: lo <= i < hi && cover[i] == r
  }

  predicate Listed(gaps: seq<Gap>, lo: nat, hi: nat) {
    exists k :: 0 <= k < |gaps| && gaps[k].lo == lo && gaps[k].hi == hi
  }

  /** Exactly the maximal runs, in order, never touching, each with its true minimum. */
  ghost predicate AreGaps(cover: seq<nat>, target: nat, gaps: seq<Gap>) {
    && (forall k | 0 <= k < |gaps| ::
          && MaximalRun(cover, target, gaps[k].lo, gaps[k].hi)
          && IsMin(cover, gaps[k].lo, gaps[k].hi, gaps[k].replicas))
    && (forall k, l | 0 <= k < l < |gaps| :: gaps[k].hi < gaps[l].lo)
    && (forall lo: nat, hi: nat | MaximalRun(cover, target, lo, hi) :: Listed(gaps, lo, hi))
  }

  function CoverOf(cs: seq<Cand>, numLayers: nat): (cover: seq<nat>)
    ensures |cover| == numLayers
  {
    seq(numLayers, i requires 0 <= i < numLayers => CoverAt(cs, i))
  }

  function CountHolders(entries: seq<Entry>, s: Stage): nat {
    if entries == [] then 0
    else CountHolders(entries[..|entries| - 1], s) + (if Offers(entries[|entries| - 1], s) then 1 else 0)
  }

  // ---- What is counted ----

  predicate KeyCovers(key: string, i: nat) {
    ParseKey(key).Some? && ParseKey(key).value.lo <= i < ParseKey(key).value.hi
  }

  /** Which advertised keys of the first n entries, and of the first m keys of the next, contain layer i. */
  function Copies(entries: seq<Entry>, n: nat, m: nat, i: nat): set<(nat, nat)>
    requires n <= |entries|
  {
    set e: nat, k: nat | e < |entries| && k < |entries[e].stages.decoders| && (e < n || (e == n && k < m))
                         && KeyCovers(entries[e].stages.decoders[k], i) :: (e, k)
  }

  /** The cover of a layer is the number of advertised keys, over all nodes, whose range contains it. */
  lemma CoverCounts(entries: seq<Entry>, i: nat)
    requires AllParse(entries)
    ensures CoverAt(Candidates(entries), i) == |Copies(entries, |entries|, 0, i)|
  {
    hide KeyCovers, Candidates, CoverAt, Copies;
    CoverCountsTo(entries, |entries|, 0, i);
    assert entries[..|entries|] == entries;
    CoverSoFarAll(entries, i);
  }

  /** The blocks of the first n entries, and the first m of the next. */
  function SoFar(entries: seq<Entry>, n: nat, m: nat): seq<Cand>
    requires AllParse(entries) && n <= |entries| && (n < |entries| ==> m <= |entries[n].stages.decoders|)
    requires n == |entries| ==> m == 0
  {
    Candidates(entries[..n]) + if n < |entries| then Advertised(entries[n])[..m] else []
  }

  lemma CoverSoFarAll(entries: seq<Entry>, i: nat)
    requires AllParse(entries)
    ensures SoFar(entries, |entries|, 0) == Candidates(entries)
  {
    assert entries[..|entries|] == entries;
  }

  lemma {:induction false} CoverCountsTo(entries: seq<Entry>, n: nat, m: nat, i: nat)
    requires AllParse(entries) && n <= |entries| && (n < |entries| ==> m <= |entries[n].stages.decoders|)
    requires n == |entries| ==> m == 0
    ensures CoverAt(SoFar(entries, n, m), i) == |Copies(entries, n, m, i)|
    decreases n, m
  {
    hide KeyCovers, Copies, SoFar, CoverAt;
    if m > 0 {
      CoverCountsTo(entries, n, m - 1, i);
      OneMoreKey(entries, n, m, i);
    } else if n > 0 {
      var all := |entries[n - 1].stages.decoders|;
      CoverCountsTo(entries, n - 1, all, i);
      NextEntry(entries, n, i);
    } else {
      NothingYet(entries, i);
    }
  }

  lemma NothingYet(entries: seq<Entry>, i: nat)
    requires AllParse(entries)
    ensures SoFar(entries, 0, 0) == [] && Copies(entries, 0, 0, i) == {} && CoverAt([], i) == 0
  {
  }

  lemma NextEntry(entries: seq<Entry>, n: nat, i: nat)
    requires AllParse(entries) && 0 < n <= |entries|
    ensures var all := |entries[n - 1].stages.decoders|;
      SoFar(entries, n, 0) == SoFar(entries, n - 1, all) && Copies(entries, n, 0, i) == Copies(entries, n - 1, all, i)
  {
    hide ParseKey, KeyCovers;
    assert entries[..n][..n - 1] == entries[..n - 1];
    assert Advertised(entries[n - 1])[..|entries[n - 1].stages.decoders|] == Advertised(entries[n - 1]);
  }

  lemma OneMoreKey(entries: seq<Entry>, n: nat, m: nat, i: nat)
    requires AllParse(entries) && n < |entries| && 0 < m <= |entries[n].stages.decoders|
    ensures var more := if KeyCovers(entries[n].stages.decoders[m - 1], i) then 1 else 0;
      && CoverAt(SoFar(entries, n, m), i) == CoverAt(SoFar(entries, n, m - 1), i) + more
      && |Copies(entries, n, m, i)| == |Copies(entries, n, m - 1, i)| + more
  {
    hide KeyCovers, CoverAt, SoFar, Copies, AllParse;
    OneMoreBlock(entries, n, m, i);
    OneMoreCopy(entries, n, m, i);
  }

  lemma OneMoreCopy(entries: seq<Entry>, n: nat, m: nat, i: nat)
    requires n < |entries| && 0 < m <= |entries[n].stages.decoders|
    ensures |Copies(entries, n, m, i)| ==
      |Copies(entries, n, m - 1, i)| + if KeyCovers(entries[n].stages.decoders[m - 1], i) then 1 else 0
  {
    hide KeyCovers;
    var before, after, last := Copies(entries, n, m - 1, i), Copies(entries, n, m, i), (n, m - 1);
    assert last !in before;
    assert before <= after;
    forall p | p in after && p != last
      ensures p in before
    {
    }
    if KeyCovers(entries[n].stages.decoders[m - 1], i) {
      assert after == before + {last};
    } else {
      assert after == before;
    }
  }

  lemma OneMoreBlock(entries: seq<Entry>, n: nat, m: nat, i: nat)
    requires AllParse(entries) && n < |entries| && 0 < m <= |entries[n].stages.decoders|
    ensures CoverAt(SoFar(entries, n, m), i) ==
      CoverAt(SoFar(entries, n, m - 1), i) + if KeyCovers(entries[n].stages.decoders[m - 1], i) then 1 else 0
  {
    hide ParseKey, Candidates;
    var x := SoFar(entries, n, m);
    var adv := Advertised(entries[n]);
    assert adv[..m] == adv[..m - 1] + [adv[m - 1]];
    assert x[..|x| - 1] == SoFar(entries, n, m - 1) && x[|x| - 1] == adv[m - 1];
    assert entries[n].stages.decoders[m - 1] in entries[n].stages.decoders;
  }

  function Offering(entries: seq<Entry>, s: Stage): set<nat> {
    set k: nat | k < |entries| && Offers(entries[k], s)
  }

  /** The nodes counted for a stage are those that offer it. */
  lemma {:induction false} HoldersCounted(entries: seq<Entry>, s: Stage)
    ensures CountHolders(entries, s) == |Offering(entries, s)|
  {
    hide Offers, Offering;
    if entries == [] {
      NobodyOffers(s);
    } else {
      HoldersCounted(entries[..|entries| - 1], s);
      OneMoreOffering(entries, s);
    }
  }

  lemma NobodyOffers(s: Stage)
    ensures Offering([], s) == {}
  {
  }

  lemma OneMoreOffering(entries: seq<Entry>, s: Stage)
    requires entries != []
    ensures var n := |entries| - 1;
      |Offering(entries, s)| == |Offering(entries[..n], s)| + if Offers(entries[n], s) then 1 else 0
  {
    hide Offers;
    var n := |entries| - 1;
    var all, early := Offering(entries, s), Offering(entries[..n], s);
    assert forall k: nat | k < n :: entries[..n][k] == entries[k];
    assert n !in early && early <= all;
    assert forall k | k in all :: k == n || k in early;
    if Offers(entries[n], s) {
      assert all == early + {n};
    } else {
      assert all == early;
    }
  }

  method MinOf(cover: array<nat>, lo: nat, hi: nat) returns (r: nat)
    requires lo < hi <= cover.Length
    ensures IsMin(cover[..], lo, hi, r)
  {
    r := cover[lo];
    for i := lo + 1 to hi
      invariant forall k | lo <= k < i :: r <= cover[k]
      invariant exists k :: lo <= k < i && cover[k] == r
    {
      if cover[i] < r {
        r := cover[i];
      }
    }
  }

  /** One block counted in place, clipped to the model. */
  method CountBlock(cover: array<nat>, c: Cand, ghost before: seq<Cand>)
    requires cover[..] == CoverOf(before, cover.Length)
    modifies cover
    ensures cover[..] == CoverOf(before + [c], cover.Length)
  {
    var top: nat := if c.hi < cover.Length then c.hi else cover.Length;
    ghost var start := cover[..];
    var i: nat := c.lo;
    while i < top
      invariant c.lo <= i && (i <= top || i == c.lo)
      invariant forall k | 0 <= k < cover.Length ::
                  cover[k] == start[k] + if c.lo <= k < i then 1 else 0
    {
      cover[i] := cover[i] + 1;
      i := i + 1;
    }
    assert (before + [c])[..|before|] == before;
    forall k | 0 <= k < cover.Length
      ensures cover[k] == CoverAt(before + [c], k)
    {
      assert start[k] == CoverAt(before, k);
    }
  }

  /** The end of the run below target that begins at i. */
  method RunEnd(cover: array<nat>, target: nat, i: nat) returns (j: nat)
    requires i < cover.Length && cover[i] < target && (i == 0 || cover[i - 1] >= target)
    ensures MaximalRun(cover[..], target, i, j)
  {
    j := i;
    while j < cover.Length && cover[j] < target
      invariant i <= j <= cover.Length
      invariant forall k | i <= k < j :: cover[k] < target
    {
      j := j + 1;
    }
  }

  /** The gaps found so far: true ones, in order, never touching, and all that begin before i. */
  ghost predicate FoundBefore(cover: seq<nat>, target: nat, gaps: seq<Gap>, i: nat) {
    && (forall k | 0 <= k < |gaps| ::
          && MaximalRun(cover, target, gaps[k].lo, gaps[k].hi) && gaps[k].hi <= i
          && IsMin(cover, gaps[k].lo, gaps[k].hi, gaps[k].replicas))
    && (forall k, l | 0 <= k < l < |gaps| :: gaps[k].hi < gaps[l].lo)
    && (forall lo: nat, hi: nat | MaximalRun(cover, target, lo, hi) && lo < i :: Listed(gaps, lo, hi))
  }

  /** A layer that is covered enough begins no gap. */
  lemma FoundNone(cover: seq<nat>, target: nat, gaps: seq<Gap>, i: nat)
    requires FoundBefore(cover, target, gaps, i) && i < |cover| && cover[i] >= target
    ensures FoundBefore(cover, target, gaps, i + 1)
  {
  }

  lemma FoundOne(cover: seq<nat>, target: nat, gaps: seq<Gap>, g: Gap)
    requires FoundBefore(cover, target, gaps, g.lo)
    requires MaximalRun(cover, target, g.lo, g.hi) && IsMin(cover, g.lo, g.hi, g.replicas)
    ensures FoundBefore(cover, target, gaps + [g], g.hi)
  {
    RunListed(cover, target, gaps, g);
    hide Listed, IsMin;
    forall k | 0 <= k < |gaps|
      ensures gaps[k].hi < g.lo
    {
      assert MaximalRun(cover, target, gaps[k].lo, gaps[k].hi);
    }
  }

  /** The maximal runs below target, left to right. */
  method ScanGaps(cover: array<nat>, target: nat) returns (gaps: seq<Gap>)
    ensures AreGaps(cover[..], target, gaps)
  {
    gaps := [];
    var i: nat := 0;
    while i < cover.Length
      invariant i <= cover.Length && FoundBefore(cover[..], target, gaps, i)
      invariant 0 < i < cover.Length && cover[i - 1] < target ==> cover[i] >= target
    {
      hide FoundBefore, IsMin;
      if cover[i] < target {
        var j := RunEnd(cover, target, i);
        var r := MinOf(cover, i, j);
        FoundOne(cover[..], target, gaps, Gap(i, j, r));
        gaps := gaps + [Gap(i, j, r)];
        i := j;
      } else {
        FoundNone(cover[..], target, gaps, i);
        i := i + 1;
      }
    }
  }

  /** Appending the run found keeps everything found before, and nothing else starts inside it. */
  lemma RunListed(cover: seq<nat>, target: nat, gaps: seq<Gap>, g: Gap)
    requires MaximalRun(cover, target, g.lo, g.hi)
    requires forall lo: nat, hi: nat | MaximalRun(cover, target, lo, hi) && lo < g.lo :: Listed(gaps, lo, hi)
    ensures forall lo: nat, hi: nat | MaximalRun(cover, target, lo, hi) && lo < g.hi :: Listed(gaps + [g], lo, hi)
  {
    forall lo: nat, hi: nat | MaximalRun(cover, target, lo, hi) && lo < g.hi
      ensures Listed(gaps + [g], lo, hi)
    {
      if lo < g.lo {
        var k :| 0 <= k < |gaps| && gaps[k].lo == lo && gaps[k].hi == hi;
        assert (gaps + [g])[k] == gaps[k];
      } else {
        SameRun(cover, target, lo, hi, g.lo, g.hi);
        assert (gaps + [g])[|gaps|] == g;
      }
    }
  }

  lemma SameRun(cover: seq<nat>, target: nat, lo: nat, hi: nat, a: nat, b: nat)
    requires MaximalRun(cover, target, lo, hi) && MaximalRun(cover, target, a, b) && a <= lo < b
    ensures lo == a && hi == b
  {
  }

  /** None stands for the exception of a key that is not "lo-hi". */
  method CoverageGaps(entries: seq<Entry>, numLayers: nat, target: nat) returns (r: Option<Gaps>)
    ensures r.Some? <==> AllParse(entries)
    ensures r.Some? ==>
      && AreGaps(CoverOf(Candidates(entries), numLayers), target, r.value.decoderGaps)
      && r.value.embedReplicas == CountHolders(entries, EmbedStage)
      && r.value.headReplicas == CountHolders(entries, HeadStage)
      && r.value.target == target
  {
    var parsed, cs := CollectRanges(entries);
    if !parsed {
      return None;
    }
    var cover := new nat[numLayers](_ => 0);
    for i := 0 to |cs|
      invariant cover[..] == CoverOf(cs[..i], numLayers)
    {
      CountBlock(cover, cs[i], cs[..i]);
      assert cs[..i + 1] == cs[..i] + [cs[i]];
    }
    assert cs[..|cs|] == cs;
    var gaps := ScanGaps(cover, target);
    return Some(Gaps(gaps, CountHolders(entries, EmbedStage), CountHolders(entries, HeadStage), target));
  }
}
