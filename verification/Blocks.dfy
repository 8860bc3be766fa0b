// Decoder blocks as objects: the shared model whose layers carry a mutable cache index, a block
// with its own cache, and the ways a model is cut into blocks.
module Blocks {
  import opened Text
  import opened Transformer
  import opened Masking
  import opened BlockSpec
  import opened CacheCodec

  const FINFO_MIN: real := -340282346638528859811704183484516925440.0

  /** Layer indices that layers[lo:hi] selects from a list of n layers. */
  function Slab(n: nat, r: Range): (s: Range)
    ensures s.lo <= s.hi <= n
    ensures r.lo <= r.hi <= n ==> s == r
    ensures r.lo < r.hi && r.lo < n ==> s.lo == r.lo && (s.hi == r.hi || (s.hi == n && n < r.hi))
    ensures r.hi <= r.lo || n <= r.lo ==> s.lo == s.hi
  {
    var lo := if r.lo < n then r.lo else n;
    var hi := if r.hi < n then r.hi else n;
    Range(lo, if lo < hi then hi else lo)
  }

  /** The layers of s know their local position in the block. */
  predicate Intact(table: seq<nat>, s: Range) {
    s.lo <= s.hi <= |table| && forall g | s.lo <= g < s.hi :: table[g] == g - s.lo
  }

  function Remap(table: seq<nat>, s: Range): (t: seq<nat>)
    ensures |t| == |table|
  {
    seq(|table|, g requires 0 <= g < |table| => if s.lo <= g < s.hi then g - s.lo else table[g])
  }

  function RemapAll(table: seq<nat>, slabs: seq<Range>): (t: seq<nat>)
    ensures |t| == |table|
  {
    if slabs == [] then table
    else Remap(RemapAll(table, slabs[..|slabs| - 1]), slabs[|slabs| - 1])
  }

  /** The slab prepared last among those that contain layer g. */
  function Owner(slabs: seq<Range>, g: nat): Option<Range> {
    if slabs == [] then None
    else
      var last := slabs[|slabs| - 1];
      if last.lo <= g < last.hi then Some(last) else Owner(slabs[..|slabs| - 1], g)
  }

  lemma RemapOneMore(table: seq<nat>, slabs: seq<Range>, s: Range)
    ensures RemapAll(table, slabs + [s]) == Remap(RemapAll(table, slabs), s)
  {
    assert (slabs + [s])[..|slabs|] == slabs;
  }

  lemma {:induction false} RemapAllAt(table: seq<nat>, slabs: seq<Range>, g: nat)
    requires g < |table|
    ensures RemapAll(table, slabs)[g] ==
      match Owner(slabs, g) case None => table[g] case Some(s) => if s.lo <= g then g - s.lo else table[g]
  {
    if slabs != [] {
      RemapAllAt(table, slabs[..|slabs| - 1], g);
    }
  }

  lemma {:induction false} OwnerOfMember(slabs: seq<Range>, i: nat, g: nat)
    requires i < |slabs| && slabs[i].lo <= g < slabs[i].hi
    ensures var o := Owner(slabs, g); o.Some? && o.value in slabs && o.value.lo <= g < o.value.hi
  {
    var n := |slabs| - 1;
    if !(slabs[n].lo <= g < slabs[n].hi) {
      OwnerOfMember(slabs[..n], i, g);
    }
  }

  /** Every layer of slab i was prepared last by a slab that starts where slab i starts. */
  predicate Unshadowed(slabs: seq<Range>, i: nat)
    requires i < |slabs|
  {
    forall g | slabs[i].lo <= g < slabs[i].hi ::
      var o := Owner(slabs, g); o.Some? && o.value.lo == slabs[i].lo
  }

  /** Preparing several slabs of one model leaves a slab's layers at their local positions exactly when no
      later slab shadows one of them from another starting layer: overlapping slabs renumber each other.
      What a renumbered block answers is the subject of Renumbered. */
  lemma IntactAfterRemap(table: seq<nat>, slabs: seq<Range>, i: nat)
    requires i < |slabs| && slabs[i].lo <= slabs[i].hi <= |table|
    ensures Intact(RemapAll(table, slabs), slabs[i]) <==> Unshadowed(slabs, i)
  {
    hide RemapAll, Owner;
    var t := RemapAll(table, slabs);
    forall g | slabs[i].lo <= g < slabs[i].hi
      ensures Owner(slabs, g).Some? && t[g] == g - Owner(slabs, g).value.lo
    {
      OwnerOfMember(slabs, i, g);
      RemapAllAt(table, slabs, g);
    }
    if Intact(t, slabs[i]) {
      forall g | slabs[i].lo <= g < slabs[i].hi
        ensures Owner(slabs, g).value.lo == slabs[i].lo
      {
        assert t[g] == g - slabs[i].lo;
      }
    }
  }

  predicate Disjoint(slabs: seq<Range>) {
    forall i, j | 0 <= i < j < |slabs| :: slabs[i].hi <= slabs[j].lo || slabs[j].hi <= slabs[i].lo
  }

  lemma DisjointStayIntact(table: seq<nat>, slabs: seq<Range>, i: nat)
    requires i < |slabs| && slabs[i].lo <= slabs[i].hi <= |table| && Disjoint(slabs)
    ensures Intact(RemapAll(table, slabs), slabs[i])
  {
    forall g | slabs[i].lo <= g < slabs[i].hi
      ensures Owner(slabs, g) == Some(slabs[i])
    {
      OwnerOfMember(slabs, i, g);
    }
    IntactAfterRemap(table, slabs, i);
  }

  /** Two slabs that share a layer and start at different ones: preparing the second moves every shared layer
      from its local position in the first. */
  lemma OverlapRenumbers(table: seq<nat>, first: Range, second: Range, g: nat)
    requires first.lo <= g < first.hi <= |table| && second.lo <= g < second.hi && first.lo != second.lo
    ensures var t := RemapAll(table, [first, second]);
      t[g] != g - first.lo && t[g] == g - second.lo && !Intact(t, first)
  {
    var slabs := [first, second];
    RemapAllAt(table, slabs, g);
    assert slabs[..1] == [first];
  }

  class WholeModel {
    const params: Model
    const layerIdx: array<nat>      // layer.self_attn.layer_idx

    ghost predicate Valid()
      reads this
    {
      layerIdx.Length == params.numLayers
    }

    constructor (params: Model)
      ensures Valid() && this.params == params && fresh(layerIdx)
      ensures Intact(layerIdx[..], Range(0, params.numLayers))
    {
      this.params := params;
      layerIdx := new nat[params.numLayers](i => i);
    }
  }

  /** layers[lo:hi], their cache index overwritten with the position inside the slab. */
  method PrepareDecoderBlock(whole: WholeModel, r: Range) returns (s: Range)
    requires whole.Valid()
    modifies whole.layerIdx
    ensures s == Slab(whole.params.numLayers, r)
    ensures whole.layerIdx[..] == Remap(old(whole.layerIdx[..]), s)
  {
    s := Slab(whole.params.numLayers, r);
    for k := 0 to s.hi - s.lo
      invariant forall g | s.lo <= g < s.lo + k :: whole.layerIdx[g] == g - s.lo
      invariant forall g | 0 <= g < whole.layerIdx.Length && !(s.lo <= g < s.lo + k) ::
                  whole.layerIdx[g] == old(whole.layerIdx[g])
    {
      whole.layerIdx[s.lo + k] := k;
    }
  }

  /** The cache is empty or has n lists of the same length. */
  predicate Uniform(c: Cache, n: nat) {
    c == [] || (|c| == n && forall i | 0 <= i < n :: |c[i]| == |c[0]|)
  }

  lemma {:induction false} FullCacheLengths(m: Model, lo: nat, hi: nat, past: seq<Hidden>)
    requires lo <= hi
    ensures forall i | 0 <= i < hi - lo :: |FullCache(m, lo, hi, past)[i]| == |past|
    decreases hi
  {
    if lo < hi {
      FullCacheLengths(m, lo, hi - 1, past);
    }
  }

  lemma HeldIsUniform(m: Model, lo: nat, hi: nat, c: Cache, past: seq<Hidden>)
    requires lo <= hi && Holds(m, lo, hi, c, past)
    ensures Uniform(c, hi - lo)
  {
    FullCacheLengths(m, lo, hi, past);
  }

  function Rows(mask: array2<real>): (rows: seq<seq<real>>)
    reads mask
    ensures |rows| == mask.Length0
    ensures forall i, k | 0 <= i < mask.Length0 && 0 <= k < mask.Length1 ::
              |rows[i]| == mask.Length1 && rows[i][k] == mask[i, k]
  {
    seq(mask.Length0, i requires 0 <= i < mask.Length0 reads mask =>
      seq(mask.Length1, k requires 0 <= k < mask.Length1 reads mask => mask[i, k]))
  }

  /** A layer takes a mask by broadcasting: one with too many columns is cut, a single column stands for
      all entries, and any other shape raises. */
  predicate MaskFits(entries: nat, columns: nat) {
    entries <= columns || columns == 1
  }

  function Through(keys: seq<KV>, row: seq<real>): seq<KV>
    requires MaskFits(|keys|, |row|)
  {
    if |keys| <= |row| then Unmasked(keys, row[..|keys|]) else if row[0] == 0.0 then keys else []
  }

  /** One layer's outputs for a chunk, through an additive mask. */
  function AttendMasked(m: Model, g: nat, keys: seq<KV>, hs: seq<Hidden>, cp: seq<nat>, rows: seq<seq<real>>)
    : (out: seq<Hidden>)
    requires |hs| == |cp| == |rows|
    requires forall i | 0 <= i < |rows| :: MaskFits(|keys|, |rows[i]|)
  {
    seq(|hs|, i requires 0 <= i < |hs| => m.att(g, cp[i], hs[i], Through(keys, rows[i])))
  }

  /** The mask lets the query at cp[i] see the first cp[i] + 1 of n entries. */
  predicate CausalRows(rows: seq<seq<real>>, cp: seq<nat>, n: nat) {
    && |rows| == |cp|
    && (forall i | 0 <= i < |rows| :: |rows[i]| == n)
    && (forall i, k | 0 <= i < |rows| && 0 <= k < n :: rows[i][k] == 0.0 <==> k <= cp[i])
  }

  /** What a query at position p sees of the entries when the causal mask has the given columns. */
  function Seen(keys: seq<KV>, p: nat, columns: nat): seq<KV>
    requires MaskFits(|keys|, columns)
  {
    if |keys| <= columns then Visible(keys, p) else keys
  }

  lemma CausalRowShows(keys: seq<KV>, row: seq<real>, p: nat)
    requires MaskFits(|keys|, |row|) && forall k | 0 <= k < |row| :: row[k] == 0.0 <==> k <= p
    ensures Through(keys, row) == Seen(keys, p, |row|)
  {
    if |keys| <= |row| {
      CausalRowShowsPrefix(keys, row[..|keys|], p);
    }
  }

  function AttendSeen(m: Model, g: nat, keys: seq<KV>, hs: seq<Hidden>, cp: seq<nat>, columns: nat): (out: seq<Hidden>)
    requires |hs| == |cp| && MaskFits(|keys|, columns)
    ensures |out| == |hs|
  {
    seq(|hs|, i requires 0 <= i < |hs| => m.att(g, cp[i], hs[i], Seen(keys, cp[i], columns)))
  }

  lemma MaskedIsSeen(m: Model, g: nat, keys: seq<KV>, hs: seq<Hidden>, cp: seq<nat>, rows: seq<seq<real>>, columns: nat)
    requires |hs| == |cp| && CausalRows(rows, cp, columns) && MaskFits(|keys|, columns)
    ensures AttendMasked(m, g, keys, hs, cp, rows) == AttendSeen(m, g, keys, hs, cp, columns)
  {
    forall i | 0 <= i < |hs|
      ensures Through(keys, rows[i]) == Seen(keys, cp[i], columns)
    {
      CausalRowShows(keys, rows[i], cp[i]);
    }
  }

  // ---- A block whose layers carry any cache indices ----

  /** The cache index of layer g; layers start out with their own number. */
  function IndexAt(table: seq<nat>, g: nat): nat {
    if g < |table| then table[g] else g
  }

  /** The cache after a run and its outputs; None where a layer could not take the mask. */
  datatype Passed = Passed(cache: Cache, out: Option<seq<Hidden>>)

  /** Layers lo, ..., hi - 1 on a chunk, layer g at the index the table gives it, under one mask. */
  function RunThrough(m: Model, table: seq<nat>, lo: nat, hi: nat, columns: nat,
                      c: Cache, hs: seq<Hidden>, cp: seq<nat>): (r: Passed)
    requires |hs| == |cp|
    ensures r.out.Some? ==> |r.out.value| == |hs|
  {
    if hi <= lo then Passed(c, Some(hs))
    else
      var before := RunThrough(m, table, lo, hi - 1, columns, c, hs, cp);
      if before.out.None? then before
      else LayerThrough(m, hi - 1, IndexAt(table, hi - 1), columns, before.cache, before.out.value, cp)
  }

  function LayerThrough(m: Model, g: nat, idx: nat, columns: nat, c: Cache, hs: seq<Hidden>, cp: seq<nat>): (r: Passed)
    requires |hs| == |cp|
    ensures r.out.Some? ==> |r.out.value| == |hs|
  {
    var after := Update(c, idx, Added(m, g, hs, cp));
    var keys := Entries(after, idx);
    Passed(after, if MaskFits(|keys|, columns) then Some(AttendSeen(m, g, keys, hs, cp, columns)) else None)
  }

  /** A block on a chunk: the mask has a column for each entry of local layer 0 and of the chunk. */
  function RunTable(m: Model, table: seq<nat>, s: Range, c: Cache, hs: seq<Hidden>, cp: seq<nat>): (r: Passed)
    requires |hs| == |cp|
    ensures r.out.Some? ==> |r.out.value| == |hs|
  {
    RunThrough(m, table, s.lo, s.hi, SeqLength(c) + |hs|, c, hs, cp)
  }

  lemma {:induction false} ThroughStops(m: Model, table: seq<nat>, lo: nat, g: nat, hi: nat, columns: nat,
                                        c: Cache, hs: seq<Hidden>, cp: seq<nat>)
    requires |hs| == |cp| && g <= hi && RunThrough(m, table, lo, g, columns, c, hs, cp).out.None?
    ensures RunThrough(m, table, lo, hi, columns, c, hs, cp) == RunThrough(m, table, lo, g, columns, c, hs, cp)
    decreases hi
  {
    hide LayerThrough;
    if g < hi {
      ThroughStops(m, table, lo, g, hi - 1, columns, c, hs, cp);
    }
  }

  /** Within an intact slab the indices are the local positions and the mask always fits. */
  lemma IntactLayer(m: Model, g: nat, idx: nat, n: nat, n0: nat, columns: nat, s: Run, cp: seq<nat>)
    requires |s.out| == |cp| && n0 + |cp| == columns && idx < n
    requires Growing(s.cache, n, idx, n0, columns)
    ensures var r := RunLayer(m, g, idx, s, cp);
      LayerThrough(m, g, idx, columns, s.cache, s.out, cp) == Passed(r.cache, Some(r.out))
      && Growing(r.cache, n, idx + 1, n0, columns)
  {
    var added := Added(m, g, s.out, cp);
    GrowingStep(s.cache, n, idx, n0, columns, added);
    EntriesGrow(s.cache, idx, added);
    SeenAll(m, g, Entries(Update(s.cache, idx, added), idx), s.out, cp);
    hide Growing, Update, Entries;
  }

  lemma EntriesGrow(c: Cache, idx: nat, added: seq<KV>)
    ensures Entries(Update(c, idx, added), idx) == Entries(c, idx) + added
  {
  }

  lemma SeenAll(m: Model, g: nat, keys: seq<KV>, hs: seq<Hidden>, cp: seq<nat>)
    requires |hs| == |cp|
    ensures AttendSeen(m, g, keys, hs, cp, |keys|) == Attend(m, g, keys, hs, cp)
  {
    forall i | 0 <= i < |hs|
      ensures AttendSeen(m, g, keys, hs, cp, |keys|)[i] == Attend(m, g, keys, hs, cp)[i]
    {
      assert Seen(keys, cp[i], |keys|) == Visible(keys, cp[i]);
      assert Attend(m, g, keys, hs, cp)[i] == m.att(g, cp[i], hs[i], Visible(keys, cp[i]));
      assert AttendSeen(m, g, keys, hs, cp, |keys|)[i] == m.att(g, cp[i], hs[i], Seen(keys, cp[i], |keys|));
    }
  }

  lemma UniformStarts(c: Cache, n: nat, n1: nat)
    requires Uniform(c, n)
    ensures Growing(c, n, 0, SeqLength(c), n1)
  {
  }

  lemma {:induction false} IntactPartial(m: Model, table: seq<nat>, s: Range, g: nat, c: Cache, hs: seq<Hidden>, cp: seq<nat>)
    requires Intact(table, s) && Uniform(c, s.hi - s.lo) && |hs| == |cp| && s.lo <= g <= s.hi
    ensures var r := RunSlab(m, s.lo, g, c, hs, cp);
      && RunThrough(m, table, s.lo, g, SeqLength(c) + |hs|, c, hs, cp) == Passed(r.cache, Some(r.out))
      && Growing(r.cache, s.hi - s.lo, g - s.lo, SeqLength(c), SeqLength(c) + |hs|)
    decreases g
  {
    hide LayerThrough, RunLayer, Growing, Uniform;
    if s.lo == g {
      UniformStarts(c, s.hi - s.lo, SeqLength(c) + |hs|);
    } else {
      IntactPartial(m, table, s, g - 1, c, hs, cp);
      IntactLayer(m, g - 1, g - 1 - s.lo, s.hi - s.lo, SeqLength(c), SeqLength(c) + |hs|,
                  RunSlab(m, s.lo, g - 1, c, hs, cp), cp);
    }
  }

  /** A block whose layers kept their local positions runs as its slab. */
  lemma IntactRunsItsSlab(m: Model, table: seq<nat>, s: Range, c: Cache, hs: seq<Hidden>, cp: seq<nat>)
    requires Intact(table, s) && Uniform(c, s.hi - s.lo) && |hs| == |cp|
    ensures var r := RunSlab(m, s.lo, s.hi, c, hs, cp);
      RunTable(m, table, s, c, hs, cp) == Passed(r.cache, Some(r.out)) && Uniform(r.cache, s.hi - s.lo)
  {
    hide RunSlab, RunThrough;
    IntactPartial(m, table, s, s.hi, c, hs, cp);
  }

  /** During a run: the first k lists have grown to length n1, the others still have length n0. */
  predicate Growing(c: Cache, n: nat, k: nat, n0: nat, n1: nat) {
    && k <= n
    && (|c| == n || (n0 == 0 && |c| == k))
    && forall i | 0 <= i < |c| :: |c[i]| == if i < k then n1 else n0
  }

  lemma GrowingStep(c: Cache, n: nat, k: nat, n0: nat, n1: nat, added: seq<KV>)
    requires Growing(c, n, k, n0, n1) && k < n && n0 + |added| == n1
    ensures |Entries(c, k)| == n0
    ensures Growing(Update(c, k, added), n, k + 1, n0, n1)
  {
  }

  class DecoderBlock {
    const whole: WholeModel
    const slab: Range
    var cache: Cache

    ghost predicate Valid()
      reads whole
    {
      whole.Valid() && slab.lo <= slab.hi <= whole.params.numLayers
    }

    /** The layers still carry their local positions and the cache fits them. */
    ghost predicate Usable()
      reads this, whole, whole.layerIdx
    {
      Valid() && Intact(whole.layerIdx[..], slab) && Uniform(cache, slab.hi - slab.lo)
    }

    constructor (whole: WholeModel, slab: Range)
      requires whole.Valid() && slab.lo <= slab.hi <= whole.params.numLayers
      ensures Valid() && this.whole == whole && this.slab == slab && cache == []
    {
      this.whole := whole;
      this.slab := slab;
      cache := [];
    }

    /** Runs the block on a chunk at the given absolute positions, through whatever cache indices its
        layers carry by now; None where a layer raises, the cache then being advanced that far. */
    method RunBlock(hs: seq<Hidden>, cp: seq<nat>) returns (out: Option<seq<Hidden>>)
      requires Valid() && |hs| == |cp|
      modifies this`cache
      ensures Passed(cache, out) == RunTable(whole.params, whole.layerIdx[..], slab, old(cache), hs, cp)
      ensures old(Usable()) ==>
        Usable() && out.Some? && Run(cache, out.value) == RunSlab(whole.params, slab.lo, slab.hi, old(cache), hs, cp)
    {
      hide AttendSeen, AttendMasked, Update, Entries, RunSlab;
      var m := whole.params;
      ghost var table := whole.layerIdx[..];
      if Usable() {
        IntactRunsItsSlab(m, table, slab, cache, hs, cp);
      }
      hide Intact, Uniform;
      var kvLen := SeqLength(cache) + |hs|;
      var mask := BuildCausalMask(cp, kvLen, FINFO_MIN);
      var rows := Rows(mask);
      var h := hs;
      for g := slab.lo to slab.hi
        invariant |h| == |hs|
        invariant Passed(cache, Some(h)) == RunThrough(m, table, slab.lo, g, kvLen, old(cache), hs, cp)
      {
        var idx := whole.layerIdx[g];
        assert idx == IndexAt(table, g);
        cache := Update(cache, idx, Added(m, g, h, cp));
        var keys := Entries(cache, idx);
        if !MaskFits(|keys|, kvLen) {
          ThroughStops(m, table, slab.lo, g + 1, slab.hi, kvLen, old(cache), hs, cp);
          return None;
        }
        MaskedIsSeen(m, g, keys, h, cp, rows, kvLen);
        h := AttendMasked(m, g, keys, h, cp, rows);
      }
      return Some(h);
    }

    method SetCache(c: Cache)
      modifies this`cache
      ensures cache == c
      ensures old(Usable()) ==> (Usable() <==> Uniform(c, slab.hi - slab.lo))
    {
      cache := c;
    }
  }

  /** A strictly increasing list of boundaries from 0 to n. */
  predicate IsSplit(boundaries: seq<nat>, n: nat) {
    && |boundaries| > 0 && boundaries[0] == 0 && boundaries[|boundaries| - 1] == n
    && forall i, j | 0 <= i < j < |boundaries| :: boundaries[i] < boundaries[j]
  }

  /** Distinct usable blocks with empty caches, one for each pair of neighbouring boundaries. */
  ghost predicate FreshBlocks(decoders: seq<DecoderBlock>, whole: WholeModel, boundaries: seq<nat>)
    reads whole, whole.layerIdx, decoders
    requires |boundaries| > |decoders|
  {
    && (forall i | 0 <= i < |decoders| ::
          && decoders[i].whole == whole && decoders[i].Usable() && decoders[i].cache == []
          && decoders[i].slab == Range(boundaries[i], boundaries[i + 1]))
    && (forall i, j | 0 <= i < j < |decoders| :: decoders[i] != decoders[j])
  }

  /** layers[lo:hi] for each pair of neighbouring boundaries. */
  function SlabsBetween(n: nat, boundaries: seq<nat>): (slabs: seq<Range>)
    ensures |slabs| == if boundaries == [] then 0 else |boundaries| - 1
    ensures forall i | 0 <= i < |slabs| :: slabs[i] == Slab(n, Range(boundaries[i], boundaries[i + 1]))
  {
    if boundaries == [] then []
    else seq(|boundaries| - 1, i requires 0 <= i < |boundaries| - 1 => Slab(n, Range(boundaries[i], boundaries[i + 1])))
  }

  lemma SplitBounds(n: nat, boundaries: seq<nat>, i: nat, j: nat)
    requires IsSplit(boundaries, n) && i <= j < |boundaries|
    ensures boundaries[i] <= boundaries[j] <= n
  {
  }

  lemma SplitIsDisjoint(n: nat, boundaries: seq<nat>)
    requires IsSplit(boundaries, n)
    ensures Disjoint(SlabsBetween(n, boundaries))
  {
    hide IsSplit, Slab, SlabsBetween;
    var slabs := SlabsBetween(n, boundaries);
    forall i: nat, j: nat | i < j < |slabs|
      ensures slabs[i].hi <= slabs[j].lo
    {
      SplitSlab(n, boundaries, i);
      SplitSlab(n, boundaries, j);
      SplitBounds(n, boundaries, i + 1, j);
    }
  }

  lemma SplitSlab(n: nat, boundaries: seq<nat>, i: nat)
    requires IsSplit(boundaries, n) && i + 1 < |boundaries|
    ensures SlabsBetween(n, boundaries)[i] == Range(boundaries[i], boundaries[i + 1])
  {
    hide IsSplit;
    SplitBounds(n, boundaries, i, i + 1);
  }

  /** Cuts the whole model into blocks with empty caches. Any list of boundaries is taken; a strictly
      increasing one from 0 to the last layer gives blocks that are all usable. */
  method SplitIntoBlocks(whole: WholeModel, boundaries: seq<nat>) returns (decoders: seq<DecoderBlock>)
    requires whole.Valid()
    modifies whole.layerIdx
    ensures |decoders| == |SlabsBetween(whole.params.numLayers, boundaries)| && fresh(decoders)
    ensures forall i | 0 <= i < |decoders| ::
              && decoders[i].whole == whole && decoders[i].Valid() && decoders[i].cache == []
              && decoders[i].slab == SlabsBetween(whole.params.numLayers, boundaries)[i]
    ensures whole.layerIdx[..] == RemapAll(old(whole.layerIdx[..]), SlabsBetween(whole.params.numLayers, boundaries))
    ensures IsSplit(boundaries, whole.params.numLayers) ==> FreshBlocks(decoders, whole, boundaries)
  {
    hide IsSplit, Remap, Slab, Intact, Disjoint, SlabsBetween;
    var n := whole.params.numLayers;
    ghost var slabs, table := SlabsBetween(n, boundaries), whole.layerIdx[..];
    decoders := [];
    for i := 0 to if boundaries == [] then 0 else |boundaries| - 1
      invariant |decoders| == i && fresh(decoders)
      invariant forall k | 0 <= k < i ::
                  && decoders[k].whole == whole && decoders[k].Valid() && decoders[k].cache == []
                  && decoders[k].slab == slabs[k]
      invariant forall k, l | 0 <= k < l < i :: decoders[k] != decoders[l]
      invariant whole.layerIdx[..] == RemapAll(table, slabs[..i])
    {
      assert slabs[..i + 1] == slabs[..i] + [slabs[i]];
      RemapOneMore(table, slabs[..i], slabs[i]);
      var s := PrepareDecoderBlock(whole, Range(boundaries[i], boundaries[i + 1]));
      var block := new DecoderBlock(whole, s);
      decoders := decoders + [block];
    }
    assert slabs[..|slabs|] == slabs;
    if IsSplit(boundaries, n) {
      SplitIsDisjoint(n, boundaries);
      forall i | 0 <= i < |decoders|
        ensures decoders[i].Usable() && decoders[i].slab == Range(boundaries[i], boundaries[i + 1])
      {
        DisjointStayIntact(table, slabs, i);
        SplitSlab(n, boundaries, i);
      }
      NotEmptySplit(boundaries, n);
    }
  }

  lemma NotEmptySplit(boundaries: seq<nat>, n: nat)
    requires IsSplit(boundaries, n)
    ensures |boundaries| > 0
  {
  }

  /** The slab sizes differ by at most one and never grow. */
  predicate Balanced(boundaries: seq<int>) {
    forall i, j | 0 <= i < j < |boundaries| - 1 ::
      var a: int, b: int := boundaries[i + 1] - boundaries[i], boundaries[j + 1] - boundaries[j];
      b <= a <= b + 1
  }

  function Boundary(base: nat, extra: nat, i: nat): nat {
    i * base + (if i < extra then i else extra)
  }

  lemma BoundarySteps(base: nat, extra: nat, n: nat)
    ensures forall i, j | 0 <= i < j <= n :: Boundary(base, extra, j) - Boundary(base, extra, i) >= (j - i) * base
    ensures forall i | 0 <= i < n ::
              Boundary(base, extra, i + 1) == Boundary(base, extra, i) + base + (if i < extra then 1 else 0)
  {
    forall i, j | 0 <= i < j <= n
      ensures Boundary(base, extra, j) - Boundary(base, extra, i) >= (j - i) * base
    {
      assert (j - i) * base == j * base - i * base;
    }
    forall i | 0 <= i < n
      ensures Boundary(base, extra, i + 1) == Boundary(base, extra, i) + base + (if i < extra then 1 else 0)
    {
      assert (i + 1) * base == i * base + base;
    }
  }

  lemma BoundariesAreBalanced(base: nat, extra: nat, n: nat, b: seq<nat>)
    requires n > 0 && base > 0 && extra < n && |b| == n + 1
    requires forall i | 0 <= i <= n :: b[i] == Boundary(base, extra, i)
    ensures IsSplit(b, n * base + extra) && Balanced(b)
  {
    BoundarySteps(base, extra, n);
    assert Boundary(base, extra, 0) == 0 by { assert 0 * base == 0; }
    hide Boundary;
    forall i, j | 0 <= i < j <= n
      ensures b[i] < b[j]
    {
      assert (j - i) * base >= 1 by { MulAtLeast(j - i, base); }
    }
  }

  lemma MulAtLeast(a: nat, b: nat)
    requires a > 0 && b > 0
    ensures a * b >= 1
  {
  }

  /** n blocks as equal as possible; None stands for the ValueError. */
  method ComputeBoundaries(numLayers: nat, nBlocks: int) returns (r: Option<seq<nat>>)
    ensures r.Some? <==> 1 <= nBlocks <= numLayers
    ensures r.Some? ==> |r.value| == nBlocks + 1 && IsSplit(r.value, numLayers) && Balanced(r.value)
  {
    hide Balanced, IsSplit;
    if nBlocks < 1 || nBlocks > numLayers {
      return None;
    }
    var base, extra := numLayers / nBlocks, numLayers % nBlocks;
    assert nBlocks * base + extra == numLayers && base > 0;
    var boundaries: seq<nat> := [0];
    BoundarySteps(base, extra, nBlocks);
    assert Boundary(base, extra, 0) == 0 by { assert 0 * base == 0; }
    for i := 0 to nBlocks
      invariant |boundaries| == i + 1
      invariant forall k | 0 <= k <= i :: boundaries[k] == Boundary(base, extra, k)
    {
      var size := base + (if i < extra then 1 else 0);
      boundaries := boundaries + [boundaries[|boundaries| - 1] + size];
    }
    BoundariesAreBalanced(base, extra, nBlocks, boundaries);
    return Some(boundaries);
  }

  // ---- Chunked execution with the cache serialised in between ----

  function Concat(chunks: seq<seq<Hidden>>): seq<Hidden> {
    if chunks == [] then [] else Concat(chunks[..|chunks| - 1]) + chunks[|chunks| - 1]
  }

  /** What a slab answers to a list of chunks at contiguous positions; before chunk i the cache is
      read back from bytes[i] where such bytes are given. */
  function Feed(m: Model, s: Range, chunks: seq<seq<Hidden>>, bytes: seq<Option<Bytes>>): (r: Option<Run>)
    requires |bytes| == |chunks|
  {
    if chunks == [] then Some(Run([], []))
    else
      var n := |chunks| - 1;
      var before := Feed(m, s, chunks[..n], bytes[..n]);
      if before.None? then None
      else
        var c := if bytes[n].Some? then CacheFromBytes(bytes[n].value) else Some(before.value.cache);
        if c.None? then None
        else
          var r := RunSlab(m, s.lo, s.hi, c.value, chunks[n], Positions(|Concat(chunks[..n])|, |chunks[n]|));
          Some(Run(r.cache, before.value.out + r.out))
  }

  /** Every given byte string was written from the cache at that point. */
  predicate Handoffs(m: Model, s: Range, chunks: seq<seq<Hidden>>, bytes: seq<Option<Bytes>>)
    requires |bytes| == |chunks|
  {
    forall n | 0 <= n < |chunks| && bytes[n].Some? ::
      Feed(m, s, chunks[..n], bytes[..n]).Some? &&
      Encodes(bytes[n].value, Feed(m, s, chunks[..n], bytes[..n]).value.cache)
  }

  lemma {:induction false} HandoffsPrefix(m: Model, s: Range, chunks: seq<seq<Hidden>>, bytes: seq<Option<Bytes>>)
    requires |bytes| == |chunks| > 0 && Handoffs(m, s, chunks, bytes)
    ensures var n := |chunks| - 1; Handoffs(m, s, chunks[..n], bytes[..n])
  {
    hide Feed, Encodes;
    var k := |chunks| - 1;
    forall n | 0 <= n < k && bytes[..k][n].Some?
      ensures Feed(m, s, chunks[..k][..n], bytes[..k][..n]).Some?
      ensures Encodes(bytes[..k][n].value, Feed(m, s, chunks[..k][..n], bytes[..k][..n]).value.cache)
    {
      assert chunks[..k][..n] == chunks[..n] && bytes[..k][..n] == bytes[..n];
    }
  }

  /** However a sequence is cut into chunks, and wherever the cache is serialised and reloaded, the
      block answers and ends up holding what one pass over the whole sequence gives, a cache that any block
      of these layers takes over. */
  lemma {:induction false} ChunksEqualWhole(m: Model, s: Range, chunks: seq<seq<Hidden>>, bytes: seq<Option<Bytes>>)
    requires s.lo <= s.hi && |bytes| == |chunks|
    requires Handoffs(m, s, chunks, bytes)
    ensures var r := Feed(m, s, chunks, bytes);
      && r.Some?
      && r.value.out == Pass(m, s.lo, s.hi, Concat(chunks))
      && Holds(m, s.lo, s.hi, r.value.cache, Concat(chunks))
      && Uniform(r.value.cache, s.hi - s.lo)
  {
    hide Holds, Pass, RunSlab, Encodes, CacheFromBytes, Uniform;
    if chunks == [] {
      NothingFed(m, s);
    } else {
      var n := |chunks| - 1;
      var past := Concat(chunks[..n]);
      HandoffsPrefix(m, s, chunks, bytes);
      ChunksEqualWhole(m, s, chunks[..n], bytes[..n]);
      var c := Feed(m, s, chunks[..n], bytes[..n]).value.cache;
      if bytes[n].Some? {
        DecodeEncoded(bytes[n].value, c);
      }
      RunSlabChunk(m, s.lo, s.hi, c, past, chunks[n], Positions(|past|, |chunks[n]|));
      var all := past + chunks[n];
      PassPrefix(m, s.lo, s.hi, all, |past|);
      assert all[..|past|] == past;
    }
    HeldIsUniform(m, s.lo, s.hi, Feed(m, s, chunks, bytes).value.cache, Concat(chunks));
  }

  lemma NothingFed(m: Model, s: Range)
    ensures Holds(m, s.lo, s.hi, [], []) && Pass(m, s.lo, s.hi, []) == []
  {
  }
}
