// What a block answers whose layers were renumbered by another block of the same model: exactly when
// it is still right, for every model.
module Renumbered {
  import opened Text
  import opened Transformer
  import opened Masking
  import opened BlockSpec
  import opened Blocks

  predicate In(g: nat, s: Range) {
    s.lo <= g < s.hi
  }

  /** No two layers of the block share a cache index. */
  ghost predicate DistinctIndices(table: seq<nat>, s: Range) {
    forall g: nat, l: nat | In(g, s) && In(l, s) && g < l :: IndexAt(table, g) != IndexAt(table, l)
  }

  /** Some layer of the block is at index 0, whose length the mask is built from. */
  ghost predicate UsesZero(table: seq<nat>, s: Range) {
    exists g: nat :: In(g, s) && IndexAt(table, g) == 0
  }

  /** What a fresh block answers to a list of chunks at contiguous positions. */
  function FeedTable(m: Model, table: seq<nat>, s: Range, chunks: seq<seq<Hidden>>): (r: Passed)
  {
    if chunks == [] then Passed([], Some([]))
    else
      var n := |chunks| - 1;
      var before := FeedTable(m, table, s, chunks[..n]);
      if before.out.None? then before
      else
        var r := RunTable(m, table, s, before.cache, chunks[n], Positions(|Concat(chunks[..n])|, |chunks[n]|));
        if r.out.None? then r else Passed(r.cache, Some(before.out.value + r.out.value))
  }

  predicate AnswersRight(m: Model, table: seq<nat>, s: Range, chunks: seq<seq<Hidden>>) {
    FeedTable(m, table, s, chunks).out == Some(Pass(m, s.lo, s.hi, Concat(chunks)))
  }

  /** The mask the block builds fits every layer in every chunk. */
  ghost predicate MasksFit(table: seq<nat>, s: Range, chunks: seq<seq<Hidden>>) {
    UsesZero(table, s) || forall i | 1 <= i < |chunks| :: |chunks[i]| == 1
  }

  lemma UpdateAt(c: Cache, i: nat, j: nat, added: seq<KV>)
    ensures Entries(Update(c, i, added), j) == if i == j then Entries(c, j) + added else Entries(c, j)
  {
  }

  lemma LengthIsAtZero(c: Cache)
    ensures SeqLength(c) == |Entries(c, 0)|
  {
  }

  // ---- Distinct indices: right ----

  predicate EntriesAt(m: Model, table: seq<nat>, s: Range, g: nat, c: Cache, past: seq<Hidden>) {
    Entries(c, IndexAt(table, g)) == Keys(m, g, Pass(m, s.lo, g, past))
  }

  /** The block holds past, each layer at its own index, and nothing at index 0 unless it is used. */
  ghost predicate HoldsAt(m: Model, table: seq<nat>, s: Range, c: Cache, past: seq<Hidden>) {
    && (forall g: nat | In(g, s) :: EntriesAt(m, table, s, g, c, past))
    && (UsesZero(table, s) || Entries(c, 0) == [])
  }

  lemma HeldLength(m: Model, table: seq<nat>, s: Range, c: Cache, past: seq<Hidden>)
    requires HoldsAt(m, table, s, c, past)
    ensures SeqLength(c) == if UsesZero(table, s) then |past| else 0
  {
    LengthIsAtZero(c);
    if UsesZero(table, s) {
      var g: nat :| In(g, s) && IndexAt(table, g) == 0;
      assert EntriesAt(m, table, s, g, c, past);
    }
  }

  /** One layer at its own index under a mask that fits. */
  lemma LayerAt(m: Model, g: nat, idx: nat, columns: nat, c: Cache, whole: seq<Hidden>, n: nat, cp: seq<nat>)
    requires n + |cp| == |whole| && Contiguous(cp, n)
    requires Entries(c, idx) == Keys(m, g, whole[..n])
    requires columns == |whole| || (columns == 1 && |cp| == 1)
    ensures var r := LayerThrough(m, g, idx, columns, c, whole[n..], cp);
      && r.out == Some(Layer(m, g, whole)[n..])
      && Entries(r.cache, idx) == Keys(m, g, whole)
      && forall j: nat | j != idx :: Entries(r.cache, j) == Entries(c, j)
  {
    var added := Added(m, g, whole[n..], cp);
    LayerChunk(m, g, whole, n, cp);
    UpdateAt(c, idx, idx, added);
    forall j: nat | j != idx
      ensures Entries(Update(c, idx, added), j) == Entries(c, j)
    {
      UpdateAt(c, idx, j, added);
    }
    var keys := Keys(m, g, whole);
    hide Update, Entries, Keys, Layer;
    forall i | 0 <= i < |cp|
      ensures Seen(keys, cp[i], columns) == Visible(keys, cp[i])
    {
    }
    AttendsAlike(m, g, keys, whole[n..], cp, columns);
  }

  lemma AttendsAlike(m: Model, g: nat, keys: seq<KV>, hs: seq<Hidden>, cp: seq<nat>, columns: nat)
    requires |hs| == |cp| && MaskFits(|keys|, columns)
    requires forall i | 0 <= i < |cp| :: Seen(keys, cp[i], columns) == Visible(keys, cp[i])
    ensures AttendSeen(m, g, keys, hs, cp, columns) == Attend(m, g, keys, hs, cp)
  {
    hide Seen, Visible;
    forall i | 0 <= i < |hs|
      ensures AttendSeen(m, g, keys, hs, cp, columns)[i] == Attend(m, g, keys, hs, cp)[i]
    {
      assert Attend(m, g, keys, hs, cp)[i] == m.att(g, cp[i], hs[i], Visible(keys, cp[i]));
      assert AttendSeen(m, g, keys, hs, cp, columns)[i] == m.att(g, cp[i], hs[i], Seen(keys, cp[i], columns));
    }
  }

  /** The layers run so far hold the longer pass at their indices, the others what they held before. */
  lemma {:induction false} RunDistinct(m: Model, table: seq<nat>, s: Range, g: nat, columns: nat, c: Cache,
                                       all: seq<Hidden>, n: nat, cp: seq<nat>)
    requires DistinctIndices(table, s) && s.lo <= g <= s.hi && n + |cp| == |all| && Contiguous(cp, n)
    requires HoldsAt(m, table, s, c, all[..n])
    requires columns == |all| || (columns == 1 && |cp| == 1)
    ensures var r := RunThrough(m, table, s.lo, g, columns, c, all[n..], cp);
      && r.out == Some(Pass(m, s.lo, g, all)[n..])
      && (forall l: nat | In(l, s) :: EntriesAt(m, table, s, l, r.cache, if l < g then all else all[..n]))
      && (UsesZero(table, s) || Entries(r.cache, 0) == [])
    decreases g
  {
    hide LayerThrough, Layer, Keys, Contiguous, Entries, IndexAt;
    if s.lo < g {
      RunDistinct(m, table, s, g - 1, columns, c, all, n, cp);
      PassPrefix(m, s.lo, g - 1, all, n);
      var before := RunThrough(m, table, s.lo, g - 1, columns, c, all[n..], cp);
      assert In(g - 1, s) && EntriesAt(m, table, s, g - 1, before.cache, all[..n]);
      LayerAt(m, g - 1, IndexAt(table, g - 1), columns, before.cache, Pass(m, s.lo, g - 1, all), n, cp);
      var r := RunThrough(m, table, s.lo, g, columns, c, all[n..], cp);
      forall l: nat | In(l, s)
        ensures EntriesAt(m, table, s, l, r.cache, if l < g then all else all[..n])
      {
        assert EntriesAt(m, table, s, l, before.cache, if l < g - 1 then all else all[..n]);
      }
    }
  }

  lemma ChunkRight(m: Model, table: seq<nat>, s: Range, c: Cache, past: seq<Hidden>, hs: seq<Hidden>)
    requires DistinctIndices(table, s) && s.lo < s.hi && HoldsAt(m, table, s, c, past)
    requires UsesZero(table, s) || past == [] || |hs| == 1
    ensures var r := RunTable(m, table, s, c, hs, Positions(|past|, |hs|));
      r.out == Some(Pass(m, s.lo, s.hi, past + hs)[|past|..]) && HoldsAt(m, table, s, r.cache, past + hs)
  {
    hide EntriesAt, RunThrough, UsesZero, Contiguous;
    var all := past + hs;
    assert all[..|past|] == past && all[|past|..] == hs;
    HeldLength(m, table, s, c, past);
    RunDistinct(m, table, s, s.hi, SeqLength(c) + |hs|, c, all, |past|, Positions(|past|, |hs|));
  }

  lemma {:induction false} DistinctIsRight(m: Model, table: seq<nat>, s: Range, chunks: seq<seq<Hidden>>)
    requires s.lo < s.hi && DistinctIndices(table, s) && MasksFit(table, s, chunks)
    ensures AnswersRight(m, table, s, chunks)
    ensures HoldsAt(m, table, s, FeedTable(m, table, s, chunks).cache, Concat(chunks))
  {
    hide RunTable, DistinctIndices, HoldsAt, Pass, MasksFit;
    if chunks == [] {
      NothingHeldAt(m, table, s);
    } else {
      var n := |chunks| - 1;
      var past := Concat(chunks[..n]);
      FitsBefore(table, s, chunks);
      DistinctIsRight(m, table, s, chunks[..n]);
      ChunkRight(m, table, s, FeedTable(m, table, s, chunks[..n]).cache, past, chunks[n]);
      PassJoins(m, s, past, chunks[n]);
    }
  }

  lemma FitsBefore(table: seq<nat>, s: Range, chunks: seq<seq<Hidden>>)
    requires chunks != [] && MasksFit(table, s, chunks)
    ensures var n := |chunks| - 1;
      MasksFit(table, s, chunks[..n]) && (UsesZero(table, s) || Concat(chunks[..n]) == [] || |chunks[n]| == 1)
  {
    hide UsesZero;
    var n := |chunks| - 1;
    assert forall i | 1 <= i < n :: chunks[..n][i] == chunks[i];
    NothingBefore(chunks[..n]);
  }

  lemma PassJoins(m: Model, s: Range, past: seq<Hidden>, hs: seq<Hidden>)
    ensures Pass(m, s.lo, s.hi, past) + Pass(m, s.lo, s.hi, past + hs)[|past|..] == Pass(m, s.lo, s.hi, past + hs)
  {
    hide Pass;
    var all := past + hs;
    PassPrefix(m, s.lo, s.hi, all, |past|);
    assert all[..|past|] == past;
  }

  lemma NothingBefore(chunks: seq<seq<Hidden>>)
    ensures chunks == [] ==> Concat(chunks) == []
  {
  }

  lemma NothingHeldAt(m: Model, table: seq<nat>, s: Range)
    ensures HoldsAt(m, table, s, [], []) && Pass(m, s.lo, s.hi, []) == []
  {
    forall g: nat | In(g, s)
      ensures EntriesAt(m, table, s, g, [], [])
    {
      assert |Pass(m, s.lo, g, [])| == 0;
    }
  }

  // ---- Shared indices or a mask that does not fit: wrong for some model ----

  /** Layers that lengthen a position's vector exactly when it does not see as many entries as it should. */
  function Counting(): Model {
    Model(0, t => [], (g, p, h) => KV([], []),
          (g: nat, p: nat, h: Hidden, keys: seq<KV>) => if |keys| == p + 1 then h else h + [0.0], h => 0)
  }

  lemma {:induction false} CountingPasses(lo: nat, hi: nat, xs: seq<Hidden>)
    ensures Pass(Counting(), lo, hi, xs) == xs
    decreases hi
  {
    if lo < hi {
      CountingPasses(lo, hi - 1, xs);
      assert Layer(Counting(), hi - 1, xs) == xs;
    }
  }

  /** Later layers neither bring a raised run back nor shorten a vector. */
  lemma {:induction false} CountingGrows(table: seq<nat>, lo: nat, g: nat, hi: nat, columns: nat,
                                         c: Cache, hs: seq<Hidden>, cp: seq<nat>)
    requires |hs| == |cp| && g <= hi
    requires RunThrough(Counting(), table, lo, hi, columns, c, hs, cp).out.Some?
    ensures var early := RunThrough(Counting(), table, lo, g, columns, c, hs, cp);
      && early.out.Some?
      && forall i | 0 <= i < |hs| ::
           |early.out.value[i]| <= |RunThrough(Counting(), table, lo, hi, columns, c, hs, cp).out.value[i]|
    decreases hi
  {
    if g < hi && lo < hi {
      CountingGrows(table, lo, g, hi - 1, columns, c, hs, cp);
    }
  }

  /** Every layer that ran has at least the chunk's entries at its index, and no index loses entries. */
  lemma {:induction false} EntriesCount(m: Model, table: seq<nat>, lo: nat, g: nat, columns: nat,
                                        c: Cache, hs: seq<Hidden>, cp: seq<nat>, j: nat)
    requires |hs| == |cp| && RunThrough(m, table, lo, g, columns, c, hs, cp).out.Some?
    ensures var after := RunThrough(m, table, lo, g, columns, c, hs, cp).cache;
      && |Entries(c, j)| <= |Entries(after, j)|
      && ((exists l: nat :: lo <= l < g && IndexAt(table, l) == j) ==> |Entries(c, j)| + |hs| <= |Entries(after, j)|)
      && ((forall l: nat | lo <= l < g :: IndexAt(table, l) != j) ==> Entries(after, j) == Entries(c, j))
    decreases g
  {
    hide AttendSeen, IndexAt, Update, Entries;
    if lo < g {
      EntriesCount(m, table, lo, g - 1, columns, c, hs, cp, j);
      var before := RunThrough(m, table, lo, g - 1, columns, c, hs, cp);
      UpdateAt(before.cache, IndexAt(table, g - 1), j, Added(m, g - 1, before.out.value, cp));
    }
  }

  /** The second of two layers at one index either raises or shows its first position too much. */
  lemma SharedShows(table: seq<nat>, s: Range, g: nat, l: nat, hs: seq<Hidden>)
    requires In(g, s) && In(l, s) && g < l && IndexAt(table, g) == IndexAt(table, l) && hs != []
    ensures var r := RunTable(Counting(), table, s, [], hs, Positions(0, |hs|));
      r.out.Some? ==> |r.out.value[0]| > |hs[0]|
  {
    hide IndexAt, RunThrough, LayerThrough, Counting;
    var m, q, cp := Counting(), |hs|, Positions(0, |hs|);
    if RunThrough(m, table, s.lo, s.hi, q, [], hs, cp).out.Some? {
      CountingGrows(table, s.lo, l + 1, s.hi, q, [], hs, cp);
      CountingGrows(table, s.lo, l, l + 1, q, [], hs, cp);
      StartsWithChunk(m, table, s.lo, l, q, hs, cp);
      EntriesCount(m, table, s.lo, l, q, [], hs, cp, IndexAt(table, l));
      OneMoreLayer(m, table, s.lo, l, q, [], hs, cp);
      var before := RunThrough(m, table, s.lo, l, q, [], hs, cp);
      SharedLayer(l, IndexAt(table, l), q, before.cache, before.out.value, cp);
    }
  }

  lemma StartsWithChunk(m: Model, table: seq<nat>, lo: nat, g: nat, columns: nat, hs: seq<Hidden>, cp: seq<nat>)
    requires m == Counting() && lo <= g && |hs| == |cp| && RunThrough(m, table, lo, g, columns, [], hs, cp).out.Some?
    ensures forall i | 0 <= i < |hs| :: |hs[i]| <= |RunThrough(m, table, lo, g, columns, [], hs, cp).out.value[i]|
  {
    CountingGrows(table, lo, lo, g, columns, [], hs, cp);
  }

  lemma OneMoreLayer(m: Model, table: seq<nat>, lo: nat, g: nat, columns: nat, c: Cache, hs: seq<Hidden>, cp: seq<nat>)
    requires lo <= g && |hs| == |cp| && RunThrough(m, table, lo, g, columns, c, hs, cp).out.Some?
    ensures var before := RunThrough(m, table, lo, g, columns, c, hs, cp);
      RunThrough(m, table, lo, g + 1, columns, c, hs, cp)
        == LayerThrough(m, g, IndexAt(table, g), columns, before.cache, before.out.value, cp)
  {
    hide LayerThrough, IndexAt;
  }

  lemma SharedLayer(g: nat, idx: nat, q: nat, c: Cache, hs: seq<Hidden>, cp: seq<nat>)
    requires |hs| == |cp| == q > 0 && cp[0] == 0 && |Entries(c, idx)| >= q
    ensures var r := LayerThrough(Counting(), g, idx, q, c, hs, cp);
      r.out.Some? ==> |r.out.value[0]| > |hs[0]|
  {
    var added := Added(Counting(), g, hs, cp);
    UpdateAt(c, idx, idx, added);
    var keys := Entries(Update(c, idx, added), idx);
    assert |keys| >= 2 * q;
    if MaskFits(|keys|, q) {
      assert AttendSeen(Counting(), g, keys, hs, cp, q)[0] == Counting().att(g, cp[0], hs[0], Seen(keys, cp[0], q));
    }
  }

  lemma {:induction false} FeedPrefix(m: Model, table: seq<nat>, s: Range, chunks: seq<seq<Hidden>>, k: nat)
    requires k <= |chunks| && FeedTable(m, table, s, chunks).out.Some?
    ensures var early := FeedTable(m, table, s, chunks[..k]);
      early.out.Some? && early.out.value <= FeedTable(m, table, s, chunks).out.value
      && |early.out.value| == |Concat(chunks[..k])| && Concat(chunks[..k]) <= Concat(chunks)
    decreases |chunks|
  {
    hide RunTable;
    var n := |chunks| - 1;
    if k == |chunks| {
      assert chunks[..k] == chunks;
      if k > 0 {
        FeedPrefix(m, table, s, chunks[..n], n);
        assert chunks[..n][..n] == chunks[..n];
      }
    } else {
      FeedPrefix(m, table, s, chunks[..n], k);
      assert chunks[..n][..k] == chunks[..k];
    }
  }

  lemma SharedIsWrong(table: seq<nat>, s: Range, chunks: seq<seq<Hidden>>)
    requires !DistinctIndices(table, s) && chunks != [] && chunks[0] != []
    ensures !AnswersRight(Counting(), table, s, chunks)
  {
    hide RunTable, FeedTable, Concat;
    var m := Counting();
    if AnswersRight(m, table, s, chunks) {
      var g: nat, l: nat :| In(g, s) && In(l, s) && g < l && IndexAt(table, g) == IndexAt(table, l);
      CountingPasses(s.lo, s.hi, Concat(chunks));
      FeedPrefix(m, table, s, chunks, 1);
      FirstChunk(m, table, s, chunks);
      SharedShows(table, s, g, l, chunks[0]);
    }
  }

  lemma FirstChunk(m: Model, table: seq<nat>, s: Range, chunks: seq<seq<Hidden>>)
    requires chunks != []
    ensures var r := RunTable(m, table, s, [], chunks[0], Positions(0, |chunks[0]|));
      FeedTable(m, table, s, chunks[..1]).out == r.out && Concat(chunks[..1]) == chunks[0]
  {
    hide RunTable;
    assert chunks[..1][..0] == [];
    assert Concat(chunks[..1][..0]) == [];
    assert FeedTable(m, table, s, chunks[..1][..0]) == Passed([], Some([]));
    var r := RunTable(m, table, s, [], chunks[0], Positions(0, |chunks[0]|));
    if r.out.Some? {
      assert [] + r.out.value == r.out.value;
    }
  }

  /** Index 0 stays empty where it is not used, and the first layer keeps an entry for each position fed. */
  lemma {:induction false} FedEntries(m: Model, table: seq<nat>, s: Range, chunks: seq<seq<Hidden>>)
    requires s.lo < s.hi && FeedTable(m, table, s, chunks).out.Some?
    ensures var c := FeedTable(m, table, s, chunks).cache;
      && |Concat(chunks)| <= |Entries(c, IndexAt(table, s.lo))|
      && (UsesZero(table, s) || Entries(c, 0) == [])
  {
    hide RunThrough, Entries, IndexAt;
    if chunks == [] {
      NoEntries(IndexAt(table, s.lo));
      NoEntries(0);
    } else {
      var n := |chunks| - 1;
      FedEntries(m, table, s, chunks[..n]);
      var before := FeedTable(m, table, s, chunks[..n]);
      var q, cp := |chunks[n]|, Positions(|Concat(chunks[..n])|, |chunks[n]|);
      EntriesCount(m, table, s.lo, s.hi, SeqLength(before.cache) + q, before.cache, chunks[n], cp, IndexAt(table, s.lo));
      EntriesCount(m, table, s.lo, s.hi, SeqLength(before.cache) + q, before.cache, chunks[n], cp, 0);
      assert UsesZero(table, s) || forall l: nat | s.lo <= l < s.hi :: IndexAt(table, l) != 0 by {
        assert forall l: nat | s.lo <= l < s.hi :: In(l, s);
      }
    }
  }

  lemma NoEntries(j: nat)
    ensures Entries([], j) == []
  {
  }

  /** A later chunk of several positions raises in the first layer, whatever the model. */
  lemma LaterChunkRaises(m: Model, table: seq<nat>, s: Range, chunks: seq<seq<Hidden>>, i: nat)
    requires s.lo < s.hi && !UsesZero(table, s) && 1 <= i < |chunks| && |chunks[i]| > 1 && chunks[0] != []
    ensures !AnswersRight(m, table, s, chunks)
  {
    hide RunTable, UsesZero, Entries, Update, IndexAt;
    if AnswersRight(m, table, s, chunks) {
      FeedPrefix(m, table, s, chunks, i + 1);
      FeedPrefix(m, table, s, chunks, i);
      assert chunks[..i + 1][..i] == chunks[..i];
      var c := FeedTable(m, table, s, chunks[..i]).cache;
      FedEntries(m, table, s, chunks[..i]);
      FirstIsFed(chunks, i);
      LengthIsAtZero(c);
      FirstLayerRaises(m, table, s, c, chunks[i], Positions(|Concat(chunks[..i])|, |chunks[i]|));
    }
  }

  lemma {:induction false} FirstIsFed(chunks: seq<seq<Hidden>>, i: nat)
    requires 1 <= i <= |chunks|
    ensures |Concat(chunks[..i])| >= |chunks[0]|
  {
    if i > 1 {
      FirstIsFed(chunks, i - 1);
      assert chunks[..i][..i - 1] == chunks[..i - 1];
    }
  }

  lemma FirstLayerRaises(m: Model, table: seq<nat>, s: Range, c: Cache, hs: seq<Hidden>, cp: seq<nat>)
    requires s.lo < s.hi && |hs| == |cp| && |hs| > 1 && SeqLength(c) == 0 && |Entries(c, IndexAt(table, s.lo))| > 0
    ensures RunTable(m, table, s, c, hs, cp).out.None?
  {
    hide IndexAt, LayerThrough, RunThrough, Entries;
    NoLayers(m, table, s.lo, |hs|, c, hs, cp);
    OneMoreLayer(m, table, s.lo, s.lo, |hs|, c, hs, cp);
    LayerRaises(m, s.lo, IndexAt(table, s.lo), c, hs, cp);
    ThroughStops(m, table, s.lo, s.lo + 1, s.hi, |hs|, c, hs, cp);
  }

  lemma NoLayers(m: Model, table: seq<nat>, lo: nat, columns: nat, c: Cache, hs: seq<Hidden>, cp: seq<nat>)
    requires |hs| == |cp|
    ensures RunThrough(m, table, lo, lo, columns, c, hs, cp) == Passed(c, Some(hs))
  {
  }

  lemma LayerRaises(m: Model, g: nat, idx: nat, c: Cache, hs: seq<Hidden>, cp: seq<nat>)
    requires |hs| == |cp| && |hs| > 1 && |Entries(c, idx)| > 0
    ensures LayerThrough(m, g, idx, |hs|, c, hs, cp).out.None?
  {
    hide AttendSeen, Update, Entries;
    UpdateAt(c, idx, idx, Added(m, g, hs, cp));
  }

  /** The exact rule. A fresh block answers chunks that follow each other as the whole pass would, for
      every model, if and only if its layers have pairwise distinct cache indices and either one of them
      is index 0 or every chunk after the first is a single position. */
  lemma RenumberedRightIff(table: seq<nat>, s: Range, chunks: seq<seq<Hidden>>)
    requires s.lo < s.hi && chunks != [] && forall i | 0 <= i < |chunks| :: chunks[i] != []
    ensures (forall m: Model :: AnswersRight(m, table, s, chunks)) <==>
      DistinctIndices(table, s) && MasksFit(table, s, chunks)
  {
    hide AnswersRight, DistinctIndices, UsesZero;
    if DistinctIndices(table, s) && MasksFit(table, s, chunks) {
      forall m: Model
        ensures AnswersRight(m, table, s, chunks)
      {
        DistinctIsRight(m, table, s, chunks);
      }
    } else if !DistinctIndices(table, s) {
      SharedIsWrong(table, s, chunks);
    } else {
      var i :| 1 <= i < |chunks| && |chunks[i]| != 1;
      LaterChunkRaises(Counting(), table, s, chunks, i);
    }
  }

  /** Preparing 0-2 and then 1-3 on one model: the block 0-2 answers wrong, on a single position. */
  lemma OverlapAnswersWrong()
    ensures var table := RemapAll([0, 1, 2], [Range(0, 2), Range(1, 3)]);
      !AnswersRight(Counting(), table, Range(0, 2), [[[]]])
  {
    var slabs := [Range(0, 2), Range(1, 3)];
    var table := RemapAll([0, 1, 2], slabs);
    RemapAllAt([0, 1, 2], slabs, 0);
    RemapAllAt([0, 1, 2], slabs, 1);
    assert slabs[..1] == [Range(0, 2)];
    assert In(0, Range(0, 2)) && In(1, Range(0, 2)) && IndexAt(table, 0) == IndexAt(table, 1);
    SharedIsWrong(table, Range(0, 2), [[[]]]);
  }

  /** Preparing 2-5 and then 1-5 shifts the layers of 2-5 by one, and yet a prompt followed by single
      tokens is answered right. */
  lemma ShiftedAnswersRight(m: Model, prompt: seq<Hidden>, tokens: seq<Hidden>)
    requires prompt != []
    ensures var table := RemapAll([0, 1, 2, 3, 4], [Range(2, 5), Range(1, 5)]);
      !Intact(table, Range(2, 5)) && AnswersRight(m, table, Range(2, 5), [prompt] + Singles(tokens))
  {
    var slabs, start := [Range(2, 5), Range(1, 5)], [0, 1, 2, 3, 4];
    var table := RemapAll(start, slabs);
    RemapAllAt(start, slabs, 2);
    RemapAllAt(start, slabs, 3);
    RemapAllAt(start, slabs, 4);
    assert IndexAt(table, 2) == 1 && IndexAt(table, 3) == 2 && IndexAt(table, 4) == 3;
    assert table[2] == 1;
    DistinctIsRight(m, table, Range(2, 5), [prompt] + Singles(tokens));
  }

  function Singles(tokens: seq<Hidden>): (chunks: seq<seq<Hidden>>)
    ensures |chunks| == |tokens| && forall i | 0 <= i < |chunks| :: chunks[i] == [tokens[i]]
  {
    seq(|tokens|, i requires 0 <= i < |tokens| => [tokens[i]])
  }
}
