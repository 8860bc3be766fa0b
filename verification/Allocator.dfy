// What a joining node claims: capacity, choice of a gap, and the printed specification.
module Allocator {
  import opened Text
  import opened Routing
  import opened Topology
  import opened Coverage

  /** Model dimensions; zero stands for a missing optional entry. */
  datatype Dims = Dims(hidden: nat, numLayers: nat, heads: nat, kvHeads: nat, intermediate: nat, vocab: nat)

  datatype Fit = Fit(ramPerLayer: real, ramEmbedHead: real, usable: real, maxDecoderLayers: nat, fitsWholeModel: bool)

  const GB := 1073741824.0

  function RamPerLayer(d: Dims, bytesPerParam: nat): real
    requires d.heads > 0
  {
    var hidden := d.hidden as real;
    var kv := (if d.kvHeads > 0 then d.kvHeads else d.heads) as real;
    var inter := if d.intermediate > 0 then d.intermediate as real else 4.0 * hidden;
    var kvDim := hidden * kv / d.heads as real;
    (2.0 * hidden * hidden + 2.0 * hidden * kvDim + 3.0 * hidden * inter) * bytesPerParam as real
  }

  function RamEmbedHead(d: Dims, bytesPerParam: nat): real {
    d.vocab as real * d.hidden as real * bytesPerParam as real
  }

  function Usable(ramGb: real, reserve: real): real {
    ramGb * (1.0 - reserve) * GB
  }

  /** How many times each goes into usable, at least 0 and at most limit. */
  function WholeTimes(usable: real, each: real, limit: nat): (n: nat)
    ensures n <= limit
  {
    var whole := if each > 0.0 then (usable / each).Floor else 0;
    var atLeast: nat := if whole < 0 then 0 else whole;
    if atLeast < limit then atLeast else limit
  }

  /** How many decoder layers fit the RAM that is not reserved; sizes in bytes, not yet rounded for display. */
  function FitLayers(d: Dims, bytesPerParam: nat, ramGb: real, reserve: real): (f: Fit)
    requires d.heads > 0
    ensures f.maxDecoderLayers <= d.numLayers
  {
    var ramLayer := RamPerLayer(d, bytesPerParam);
    var ramEmbedHead := RamEmbedHead(d, bytesPerParam);
    var usable := Usable(ramGb, reserve);
    Fit(ramLayer, ramEmbedHead, usable, WholeTimes(usable, ramLayer, d.numLayers),
        d.numLayers as real * ramLayer + ramEmbedHead <= usable)
  }

  lemma FloorFits(usable: real, each: real, n: nat)
    requires each > 0.0 && n <= (usable / each).Floor
    ensures n as real * each <= usable
  {
    var q := usable / each;
    assert n as real <= q;
    assert q * each == usable;
    assert n as real * each <= q * each;
  }

  lemma FloorIsTight(usable: real, each: real, n: nat)
    requires each > 0.0 && n > (usable / each).Floor
    ensures n as real * each > usable
  {
    var q := usable / each;
    assert n as real > q;
    assert q * each == usable;
    assert n as real * each > q * each;
  }

  /** The layers allowed fit the usable RAM, and unless they are all the model has, one more would not; layers
      of no size allow none. */
  lemma FittedLayersFit(d: Dims, bytesPerParam: nat, ramGb: real, reserve: real)
    requires d.heads > 0
    ensures var f := FitLayers(d, bytesPerParam, ramGb, reserve);
      && f.usable == ramGb * (1.0 - reserve) * 1024.0 * 1024.0 * 1024.0
      && (f.fitsWholeModel <==> d.numLayers as real * f.ramPerLayer + f.ramEmbedHead <= f.usable)
      && (f.ramPerLayer <= 0.0 ==> f.maxDecoderLayers == 0)
      && (f.maxDecoderLayers > 0 ==> f.maxDecoderLayers as real * f.ramPerLayer <= f.usable)
      && (f.ramPerLayer > 0.0 && f.maxDecoderLayers < d.numLayers ==>
            (f.maxDecoderLayers + 1) as real * f.ramPerLayer > f.usable)
  {
    hide RamPerLayer, RamEmbedHead, Usable, WholeTimes;
    var f := FitLayers(d, bytesPerParam, ramGb, reserve);
    if f.ramPerLayer > 0.0 {
      Bracket(f.usable, f.ramPerLayer, d.numLayers);
    }
    NoneTimes(f.usable, f.ramPerLayer, d.numLayers);
    UsableIs(ramGb, reserve);
  }

  lemma UsableIs(ramGb: real, reserve: real)
    ensures Usable(ramGb, reserve) == ramGb * (1.0 - reserve) * 1024.0 * 1024.0 * 1024.0
  {
    var part := ramGb * (1.0 - reserve);
    assert part * 1073741824.0 == part * 1024.0 * 1024.0 * 1024.0;
  }

  /** A layer is its weights: queries and outputs over all heads, keys and values over theirs, by default as
      many, and the three matrices of the feed-forward part, by default four times as wide as the layer; the
      ends are one matrix over the vocabulary. */
  lemma WeightsCounted(d: Dims, bytesPerParam: nat, ramGb: real, reserve: real, headSize: nat)
    requires d.heads > 0 && d.hidden == d.heads * headSize
    ensures var f := FitLayers(d, bytesPerParam, ramGb, reserve);
      var kv := if d.kvHeads == 0 then d.hidden else d.kvHeads * headSize;
      var inter := if d.intermediate == 0 then 4 * d.hidden else d.intermediate;
      var weights := d.hidden * d.hidden + d.hidden * kv + d.hidden * kv + d.hidden * d.hidden
                     + d.hidden * inter + d.hidden * inter + inter * d.hidden;
      && f.ramPerLayer == (weights * bytesPerParam) as real
      && f.ramEmbedHead == (d.vocab * d.hidden * bytesPerParam) as real
  {
    hide WholeTimes, Usable;
    KvSize(d.hidden, d.heads, if d.kvHeads == 0 then d.heads else d.kvHeads, headSize);
    var h := d.hidden;
    var kv := if d.kvHeads == 0 then d.hidden else d.kvHeads * headSize;
    var inter := if d.intermediate == 0 then 4 * d.hidden else d.intermediate;
    var weights := h * h + h * kv + h * kv + h * h + h * inter + h * inter + inter * h;
    assert 2.0 * (h as real) * (h as real) == (h * h + h * h) as real;
    assert 2.0 * (h as real) * (kv as real) == (h * kv + h * kv) as real;
    assert 3.0 * (h as real) * (inter as real) == (h * inter + h * inter + inter * h) as real;
  }

  lemma KvSize(hidden: nat, heads: nat, kvHeads: nat, headSize: nat)
    requires heads > 0 && hidden == heads * headSize
    ensures hidden as real * kvHeads as real / heads as real == (kvHeads * headSize) as real
  {
    assert hidden as real == heads as real * headSize as real;
    assert hidden as real * kvHeads as real == (headSize as real * kvHeads as real) * heads as real;
  }

  lemma NoneTimes(usable: real, each: real, limit: nat)
    ensures each <= 0.0 ==> WholeTimes(usable, each, limit) == 0
  {
  }

  lemma Bracket(usable: real, each: real, limit: nat)
    requires each > 0.0
    ensures var n := WholeTimes(usable, each, limit);
      && (n > 0 ==> n as real * each <= usable)
      && (n < limit ==> (n + 1) as real * each > usable)
  {
    var n := WholeTimes(usable, each, limit);
    if n > 0 {
      FloorFits(usable, each, n);
    }
    if n < limit {
      FloorIsTight(usable, each, n + 1);
    }
  }

  /** First by fewest replicas, then by length. */
  predicate Needier(a: Gap, b: Gap) {
    a.replicas < b.replicas || (a.replicas == b.replicas && a.hi - a.lo > b.hi - b.lo)
  }

  /** sorted(gaps, key=(replicas, -length))[0]: the first that no other beats. */
  function Neediest(gaps: seq<Gap>): (g: Gap)
    requires gaps != []
    ensures g in gaps
  {
    var n := |gaps| - 1;
    if n == 0 then gaps[0]
    else
      var best := Neediest(gaps[..n]);
      if Needier(gaps[n], best) then gaps[n] else best
  }

  /** Gap k has the fewest replicas, and is the longest of those, and the first of those. */
  predicate IsNeediest(gaps: seq<Gap>, k: nat)
    requires k < |gaps|
  {
    forall j | 0 <= j < |gaps| ::
      || gaps[k].replicas < gaps[j].replicas
      || (gaps[k].replicas == gaps[j].replicas
          && (gaps[k].hi - gaps[k].lo > gaps[j].hi - gaps[j].lo
              || (gaps[k].hi - gaps[k].lo == gaps[j].hi - gaps[j].lo && k <= j)))
  }

  lemma {:induction false} NeediestIsFirst(gaps: seq<Gap>) returns (k: nat)
    requires gaps != []
    ensures k < |gaps| && gaps[k] == Neediest(gaps) && IsNeediest(gaps, k)
  {
    var n := |gaps| - 1;
    if n == 0 {
      k := 0;
    } else {
      k := NeediestIsFirst(gaps[..n]);
      NeediestStep(gaps, k);
      k := if Needier(gaps[n], gaps[k]) then n else k;
    }
  }

  lemma NeediestStep(gaps: seq<Gap>, k: nat)
    requires |gaps| > 1 && k < |gaps| - 1 && IsNeediest(gaps[..|gaps| - 1], k)
    ensures var n := |gaps| - 1; IsNeediest(gaps, if Needier(gaps[n], gaps[k]) then n else k)
  {
    var early := gaps[..|gaps| - 1];
    assert forall j | 0 <= j < |early| :: early[j] == gaps[j];
  }

  /** What a node that has room for so many decoder layers claims in view of the gaps: each end exactly if it
      takes ends and the end is served less often than the target; and exactly if there is a gap and room,
      one range: from the beginning of the neediest gap, to its end or as far as the room goes. */
  predicate Claims(gaps: Gaps, maxDecoderLayers: nat, takeEmbedHead: bool, spec: StageSpec) {
    && (spec.embed <==> takeEmbedHead && gaps.embedReplicas < gaps.target)
    && (spec.head <==> takeEmbedHead && gaps.headReplicas < gaps.target)
    && |spec.decoders| <= 1
    && (spec.decoders == [] <==> gaps.decoderGaps == [] || maxDecoderLayers == 0)
    && (spec.decoders != [] ==> exists k: nat :: k < |gaps.decoderGaps| && IsNeediest(gaps.decoderGaps, k)
                                                 && StartOf(spec.decoders[0], gaps.decoderGaps[k], maxDecoderLayers))
  }

  /** As much of the gap as fits, from its beginning. */
  predicate StartOf(r: Range, g: Gap, room: nat) {
    && r.lo == g.lo && r.hi <= g.hi && r.hi <= r.lo + room
    && (r.hi == g.hi || r.hi == r.lo + room)
  }

  /** The claim, printed; reading it back gives what is claimed. */
  method ChooseStages(gaps: Gaps, maxDecoderLayers: nat, takeEmbedHead: bool) returns (spec: string, ghost plan: Plan)
    ensures TakeAll(Split(spec, ',')).Some?
    ensures Claims(gaps, maxDecoderLayers, takeEmbedHead, TakeAll(Split(spec, ',')).value)
    ensures spec == Render(plan)
  {
    hide Neediest, IsNeediest, TakeAll, Split, Join, Key;
    var parts: seq<string> := [];
    plan := Plan(false, None, false);
    if takeEmbedHead && gaps.embedReplicas < gaps.target {
      parts := parts + ["embed"];
      plan := plan.(embed := true);
    }
    if gaps.decoderGaps != [] && maxDecoderLayers > 0 {
      var g := Neediest(gaps.decoderGaps);
      ghost var k := NeediestIsFirst(gaps.decoderGaps);
      var hi := if g.hi < g.lo + maxDecoderLayers then g.hi else g.lo + maxDecoderLayers;
      parts := parts + [DECODER + Key(Range(g.lo, hi))];
      plan := plan.(range := Some(Range(g.lo, hi)));
      assert StartOf(plan.range.value, gaps.decoderGaps[k], maxDecoderLayers);
    }
    if takeEmbedHead && gaps.headReplicas < gaps.target {
      parts := parts + ["head"];
      plan := plan.(head := true);
    }
    assert parts == Parts(plan);
    spec := Join(parts, ',');
    ParseRendered(plan);
  }

  /** A node whose RAM takes every decoder layer also offers to take the ends. */
  function TakesEnds(f: Fit, numLayers: nat): bool {
    f.fitsWholeModel || f.maxDecoderLayers >= numLayers
  }

  /** What is claimed for these entries: the claim for exactly their gaps and the ends they serve. */
  ghost predicate Planned(entries: seq<Entry>, numLayers: nat, target: nat, maxDecoderLayers: nat,
                          takeEmbedHead: bool, spec: StageSpec) {
    && AllParse(entries)
    && exists gaps :: PlannedFor(entries, numLayers, target, maxDecoderLayers, takeEmbedHead, spec, gaps)
  }

  ghost predicate PlannedFor(entries: seq<Entry>, numLayers: nat, target: nat, maxDecoderLayers: nat,
                             takeEmbedHead: bool, spec: StageSpec, gaps: seq<Gap>)
    requires AllParse(entries)
  {
    var embeds := |set k: nat | k < |entries| && entries[k].stages.embed|;
    var heads := |set k: nat | k < |entries| && entries[k].stages.head|;
    && AreGaps(CoverOf(Candidates(entries), numLayers), target, gaps)
    && Claims(Gaps(gaps, embeds, heads, target), maxDecoderLayers, takeEmbedHead, spec)
  }

  lemma EndsCounted(entries: seq<Entry>)
    ensures CountHolders(entries, EmbedStage) == |set k: nat | k < |entries| && entries[k].stages.embed|
    ensures CountHolders(entries, HeadStage) == |set k: nat | k < |entries| && entries[k].stages.head|
  {
    HoldersCounted(entries, EmbedStage);
    HoldersCounted(entries, HeadStage);
    var embeds := set k: nat | k < |entries| && entries[k].stages.embed;
    var heads := set k: nat | k < |entries| && entries[k].stages.head;
    assert embeds == Offering(entries, EmbedStage);
    assert heads == Offering(entries, HeadStage);
  }

  /** Capacity and gaps combined into a claim, which whoever parses it reads as claimed; None stands for an
      exception on a malformed key. */
  method PlanAutoStages(d: Dims, bytesPerParam: nat, ramGb: real, reserve: real, entries: seq<Entry>, target: nat)
    returns (spec: Option<string>, ghost plan: Plan)
    requires d.heads > 0
    ensures spec.Some? <==> AllParse(entries)
    ensures spec.Some? ==>
      var f := FitLayers(d, bytesPerParam, ramGb, reserve);
      var takes := f.fitsWholeModel || f.maxDecoderLayers >= d.numLayers;
      && TakeAll(Split(spec.value, ',')).Some?
      && Planned(entries, d.numLayers, target, f.maxDecoderLayers, takes, TakeAll(Split(spec.value, ',')).value)
      && spec.value == Render(plan)
  {
    hide FitLayers, AreGaps, Render, Candidates, AllParse, TakeAll, Split, Claims, CountHolders;
    plan := Plan(false, None, false);
    var f := FitLayers(d, bytesPerParam, ramGb, reserve);
    var gaps := CoverageGaps(entries, d.numLayers, target);
    if gaps.None? {
      return None, plan;
    }
    EndsCounted(entries);
    var s;
    s, plan := ChooseStages(gaps.value, f.maxDecoderLayers, TakesEnds(f, d.numLayers));
    assert PlannedFor(entries, d.numLayers, target, f.maxDecoderLayers, TakesEnds(f, d.numLayers),
                      TakeAll(Split(s, ',')).value, gaps.value.decoderGaps);
    return Some(s), plan;
  }

  // ---- What a claim is worth ----

  function Missing(cover: nat, target: nat): nat {
    if cover < target then target - cover else 0
  }

  /** How many layer copies are missing below layer n. */
  function Deficit(cs: seq<Cand>, target: nat, n: nat): nat {
    if n == 0 then 0 else Deficit(cs, target, n - 1) + Missing(CoverAt(cs, n - 1), target)
  }

  function Overlap(lo: nat, hi: nat, n: nat): nat {
    if n <= lo then 0 else if n < hi then n - lo else if lo < hi then hi - lo else 0
  }

  lemma CoverAtPush(cs: seq<Cand>, c: Cand, i: nat)
    ensures CoverAt(cs + [c], i) == CoverAt(cs, i) + (if c.lo <= i < c.hi then 1 else 0)
  {
    assert (cs + [c])[..|cs|] == cs;
  }

  /** A block all of whose layers were below target lowers the deficit by exactly its length. */
  lemma {:induction false} ClaimLowersDeficit(cs: seq<Cand>, c: Cand, target: nat, n: nat)
    requires forall i | c.lo <= i < c.hi :: CoverAt(cs, i) < target
    ensures Deficit(cs + [c], target, n) + Overlap(c.lo, c.hi, n) == Deficit(cs, target, n)
  {
    if n > 0 {
      ClaimLowersDeficit(cs, c, target, n - 1);
      CoverAtPush(cs, c, n - 1);
    }
  }

  lemma ClaimFromGap(cs: seq<Cand>, numLayers: nat, maxDecoderLayers: nat, gaps: Gaps, take: bool, spec: StageSpec)
    requires AreGaps(CoverOf(cs, numLayers), gaps.target, gaps.decoderGaps) && Claims(gaps, maxDecoderLayers, take, spec)
    requires spec.decoders != []
    ensures var r := spec.decoders[0];
      && r.lo < r.hi <= numLayers && r.hi - r.lo <= maxDecoderLayers
      && forall i | r.lo <= i < r.hi :: CoverAt(cs, i) < gaps.target
  {
    hide CoverAt, IsNeediest;
    var cover, r := CoverOf(cs, numLayers), spec.decoders[0];
    var k: nat :| k < |gaps.decoderGaps| && IsNeediest(gaps.decoderGaps, k)
      && StartOf(r, gaps.decoderGaps[k], maxDecoderLayers);
    var g := gaps.decoderGaps[k];
    assert MaximalRun(cover, gaps.target, g.lo, g.hi);
    forall i | r.lo <= i < r.hi
      ensures CoverAt(cs, i) < gaps.target
    {
      assert cover[i] < gaps.target;
    }
  }

  /** The claimed range lies inside one gap, needs no more layers than allowed, and lowers the total
      deficit by exactly its length. A range is claimed exactly when there is a gap and room. */
  lemma ClaimInsideGap(entries: seq<Entry>, numLayers: nat, target: nat, maxDecoderLayers: nat, take: bool,
                       spec: StageSpec, key: string, url: string)
    requires Planned(entries, numLayers, target, maxDecoderLayers, take, spec)
    ensures |spec.decoders| == if maxDecoderLayers > 0 && Deficit(Candidates(entries), target, numLayers) > 0 then 1 else 0
    ensures spec.decoders != [] ==>
      var r, cs := spec.decoders[0], Candidates(entries);
      && r.lo < r.hi <= numLayers && r.hi - r.lo <= maxDecoderLayers
      && (forall i | r.lo <= i < r.hi :: CoverAt(cs, i) < target)
      && Deficit(cs + [Cand(r.lo, r.hi, key, url)], target, numLayers) == Deficit(cs, target, numLayers) - (r.hi - r.lo)
  {
    hide Candidates, AllParse, AreGaps, CoverOf, IsNeediest, CoverAt, Deficit;
    var cs := Candidates(entries);
    var runs :| PlannedFor(entries, numLayers, target, maxDecoderLayers, take, spec, runs);
    var gaps := Gaps(runs, |set k: nat | k < |entries| && entries[k].stages.embed|,
                     |set k: nat | k < |entries| && entries[k].stages.head|, target);
    GapsIffDeficit(cs, numLayers, target, runs);
    if spec.decoders != [] {
      ClaimFromGap(cs, numLayers, maxDecoderLayers, gaps, take, spec);
      ClaimLowersDeficit(cs, Cand(spec.decoders[0].lo, spec.decoders[0].hi, key, url), target, numLayers);
    }
  }

  lemma GapsIffDeficit(cs: seq<Cand>, numLayers: nat, target: nat, gaps: seq<Gap>)
    requires AreGaps(CoverOf(cs, numLayers), target, gaps)
    ensures gaps != [] <==> Deficit(cs, target, numLayers) > 0
  {
    var cover := CoverOf(cs, numLayers);
    if gaps != [] {
      var g := gaps[0];
      assert cover[g.lo] < target;
      DeficitAtLeast(cs, target, numLayers, g.lo);
    }
    if Deficit(cs, target, numLayers) > 0 {
      var i := SomeMissing(cs, target, numLayers);
      SomeGap(cover, target, gaps, i);
    }
  }

  lemma SomeGap(cover: seq<nat>, target: nat, gaps: seq<Gap>, i: nat)
    requires AreGaps(cover, target, gaps) && i < |cover| && cover[i] < target
    ensures gaps != []
  {
    var lo, hi := RunAround(cover, target, i);
    assert Listed(gaps, lo, hi);
  }

  lemma {:induction false} DeficitAtLeast(cs: seq<Cand>, target: nat, n: nat, i: nat)
    requires i < n && CoverAt(cs, i) < target
    ensures Deficit(cs, target, n) > 0
  {
    if i < n - 1 {
      DeficitAtLeast(cs, target, n - 1, i);
    }
  }

  lemma {:induction false} SomeMissing(cs: seq<Cand>, target: nat, n: nat) returns (i: nat)
    requires Deficit(cs, target, n) > 0
    ensures i < n && CoverAt(cs, i) < target
  {
    if CoverAt(cs, n - 1) < target {
      i := n - 1;
    } else {
      i := SomeMissing(cs, target, n - 1);
    }
  }

  /** Every layer below target lies in a maximal run. */
  lemma RunAround(cover: seq<nat>, target: nat, i: nat) returns (lo: nat, hi: nat)
    requires i < |cover| && cover[i] < target
    ensures lo <= i < hi && MaximalRun(cover, target, lo, hi)
  {
    lo, hi := i, i + 1;
    while lo > 0 && cover[lo - 1] < target
      invariant lo <= i && forall k | lo <= k <= i :: cover[k] < target
    {
      lo := lo - 1;
    }
    while hi < |cover| && cover[hi] < target
      invariant i < hi <= |cover| && forall k | lo <= k < hi :: cover[k] < target
    {
      hi := hi + 1;
    }
  }
}
