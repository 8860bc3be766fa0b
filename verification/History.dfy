// What a worker answers from whatever it was fed before: exactly which histories of a block's cache
// give the right answer to a decode, for every model. A restarted worker has an empty history, a job
// id used again has too long a one.
module History {
  import opened Text
  import opened Transformer
  import opened Masking
  import opened BlockSpec
  import opened Blocks
  import opened Executor

  /** One decode a block object has run since it was created. */
  datatype Fed = Fed(hs: seq<Hidden>, cp: seq<nat>)

  predicate Matched(fed: seq<Fed>) {
    forall i | 0 <= i < |fed| :: |fed[i].hs| == |fed[i].cp|
  }

  function CacheAfter(m: Model, s: Range, fed: seq<Fed>): Cache
    requires Matched(fed)
  {
    if fed == [] then []
    else
      var n := |fed| - 1;
      RunSlab(m, s.lo, s.hi, CacheAfter(m, s, fed[..n]), fed[n].hs, fed[n].cp).cache
  }

  function Inputs(fed: seq<Fed>): seq<Hidden> {
    if fed == [] then [] else Inputs(fed[..|fed| - 1]) + fed[|fed| - 1].hs
  }

  function Places(fed: seq<Fed>): (ps: seq<nat>)
    requires Matched(fed)
    ensures |ps| == |Inputs(fed)|
  {
    if fed == [] then [] else Places(fed[..|fed| - 1]) + fed[|fed| - 1].cp
  }

  /** The block was fed at least the first w of xs, at positions 0, ..., w - 1, before anything else. */
  predicate Starts(fed: seq<Fed>, w: nat, xs: seq<Hidden>)
    requires Matched(fed)
  {
    w <= |Inputs(fed)| && w <= |xs| && Inputs(fed)[..w] == xs[..w] && Contiguous(Places(fed)[..w], 0)
  }

  /** The block was fed exactly past. */
  predicate Follows(fed: seq<Fed>, past: seq<Hidden>)
    requires Matched(fed)
  {
    |Inputs(fed)| == |past| && Starts(fed, |past|, past)
  }

  predicate AnswersRight(m: Model, s: Range, fed: seq<Fed>, past: seq<Hidden>, hs: seq<Hidden>)
    requires Matched(fed)
  {
    RunSlab(m, s.lo, s.hi, CacheAfter(m, s, fed), hs, Positions(|past|, |hs|)).out
      == Pass(m, s.lo, s.hi, past + hs)[|past|..]
  }

  predicate HoldsAfter(m: Model, s: Range, fed: seq<Fed>, past: seq<Hidden>)
    requires Matched(fed)
  {
    Holds(m, s.lo, s.hi, CacheAfter(m, s, fed), past)
  }

  // ---- Right histories ----

  lemma {:induction false} FollowsHolds(m: Model, s: Range, fed: seq<Fed>, past: seq<Hidden>)
    requires s.lo < s.hi && Matched(fed) && Follows(fed, past)
    ensures HoldsAfter(m, s, fed, past)
  {
    hide RunSlab;
    if fed != [] {
      hide Holds;
      var n, last := |fed| - 1, fed[|fed| - 1];
      var k := |Inputs(fed[..n])|;
      var early := past[..k];
      assert Inputs(fed)[..k] == Inputs(fed[..n]) && Places(fed)[..k] == Places(fed[..n]);
      assert past == Inputs(fed)[..|past|] == Inputs(fed);
      assert Places(fed)[..|past|] == Places(fed);
      assert past[k..] == last.hs && early + last.hs == past;
      forall i | 0 <= i < |last.cp|
        ensures last.cp[i] == k + i
      {
        assert Places(fed)[k + i] == last.cp[i];
      }
      FollowsHolds(m, s, fed[..n], early);
      RunSlabChunk(m, s.lo, s.hi, CacheAfter(m, s, fed[..n]), early, last.hs, last.cp);
    }
  }

  lemma FollowsIsRight(m: Model, s: Range, fed: seq<Fed>, past: seq<Hidden>, hs: seq<Hidden>)
    requires s.lo < s.hi && Matched(fed) && Follows(fed, past)
    ensures AnswersRight(m, s, fed, past, hs)
    ensures HoldsAfter(m, s, fed + [Fed(hs, Positions(|past|, |hs|))], past + hs)
  {
    hide Holds, RunSlab, Follows;
    FollowsHolds(m, s, fed, past);
    var more := fed + [Fed(hs, Positions(|past|, |hs|))];
    assert more[..|fed|] == fed;
    RunSlabChunk(m, s.lo, s.hi, CacheAfter(m, s, fed), past, hs, Positions(|past|, |hs|));
  }

  /** What one layer answers for a position depends on the entries up to that position only. */
  lemma AttendAt(m: Model, g: nat, keys: seq<KV>, hs: seq<Hidden>, cp: seq<nat>, ys: seq<Hidden>, n: nat, i: nat)
    requires |hs| == |cp| && i < |hs| && n + i < |ys| && n + i < |keys|
    requires hs[i] == ys[n + i] && cp[i] == n + i && keys[..n + i + 1] == Keys(m, g, ys)[..n + i + 1]
    ensures Attend(m, g, keys, hs, cp)[i] == Layer(m, g, ys)[n + i]
  {
    assert Visible(keys, cp[i]) == keys[..n + i + 1];
  }

  /** What the block keeps for layer l. */
  function At(c: Cache, s: Range, l: nat): seq<KV> {
    if s.lo <= l then Entries(c, l - s.lo) else []
  }

  /** Local entries of every layer from g on begin with those of the pass over xs, up to w of them. */
  predicate Begins(m: Model, s: Range, g: nat, c: Cache, xs: seq<Hidden>, w: nat) {
    forall l: nat | g <= l < s.hi && s.lo <= l :: BeginsAt(m, s, l, c, xs, w)
  }

  predicate BeginsAt(m: Model, s: Range, l: nat, c: Cache, xs: seq<Hidden>, w: nat) {
    && s.lo <= l && w <= |xs| && w <= |At(c, s, l)|
    && At(c, s, l)[..w] == Keys(m, l, Pass(m, s.lo, l, xs))[..w]
  }

  lemma UpdateGrows(c: Cache, i: nat, j: nat, added: seq<KV>)
    ensures Entries(Update(c, i, added), j) == if i == j then Entries(c, j) + added else Entries(c, j)
  {
  }

  lemma RunOne(m: Model, s: Range, g: nat, c: Cache, hs: seq<Hidden>, cp: seq<nat>)
    requires s.lo <= g && |hs| == |cp|
    ensures var before, r := RunSlab(m, s.lo, g, c, hs, cp), RunSlab(m, s.lo, g + 1, c, hs, cp);
      var keys := At(before.cache, s, g) + Added(m, g, before.out, cp);
      && At(r.cache, s, g) == keys && r.out == Attend(m, g, keys, before.out, cp)
      && (forall l: nat | l != g :: At(r.cache, s, l) == At(before.cache, s, l))
  {
    hide Entries, Update, Attend;
    var before, r := RunSlab(m, s.lo, g, c, hs, cp), RunSlab(m, s.lo, g + 1, c, hs, cp);
    var added := Added(m, g, before.out, cp);
    UpdateGrows(before.cache, g - s.lo, g - s.lo, added);
    forall l: nat | l != g
      ensures At(r.cache, s, l) == At(before.cache, s, l)
    {
      if s.lo <= l {
        UpdateGrows(before.cache, g - s.lo, l - s.lo, added);
      }
    }
  }

  /** A cache that already begins with the whole sequence answers any part of it right again. */
  lemma {:induction false} StaleRun(m: Model, s: Range, g: nat, c: Cache, xs: seq<Hidden>, n: nat, hs: seq<Hidden>, cp: seq<nat>)
    requires s.lo <= g <= s.hi && n + |hs| == |xs| && |cp| == |hs| && hs == xs[n..] && Contiguous(cp, n)
    requires Begins(m, s, s.lo, c, xs, |xs|)
    ensures var r := RunSlab(m, s.lo, g, c, hs, cp);
      r.out == Pass(m, s.lo, g, xs)[n..] && Begins(m, s, g, r.cache, xs, |xs|)
    decreases g
  {
    hide At, Keys, Layer, Attend;
    if s.lo < g {
      var f := g - 1;
      StaleRun(m, s, f, c, xs, n, hs, cp);
      RunOne(m, s, f, c, hs, cp);
      hide RunSlab, Added, Contiguous;
      var before, r, ys := RunSlab(m, s.lo, f, c, hs, cp), RunSlab(m, s.lo, g, c, hs, cp), Pass(m, s.lo, f, xs);
      assert BeginsAt(m, s, f, before.cache, xs, |xs|);
      StaleLayer(m, f, At(before.cache, s, f), Added(m, f, before.out, cp), before.out, cp, ys, n);
      forall l: nat | g <= l < s.hi && s.lo <= l
        ensures BeginsAt(m, s, l, r.cache, xs, |xs|)
      {
        assert BeginsAt(m, s, l, before.cache, xs, |xs|);
      }
    }
  }

  lemma StaleLayer(m: Model, g: nat, kept: seq<KV>, added: seq<KV>, hs: seq<Hidden>, cp: seq<nat>, ys: seq<Hidden>, n: nat)
    requires n + |hs| == |ys| && |cp| == |hs| && hs == ys[n..] && Contiguous(cp, n)
    requires |ys| <= |kept| && kept[..|ys|] == Keys(m, g, ys)[..|ys|]
    ensures Attend(m, g, kept + added, hs, cp) == Layer(m, g, ys)[n..]
  {
    hide Keys, Attend, Layer;
    var keys, w := kept + added, |ys|;
    var out, right := Attend(m, g, keys, hs, cp), Layer(m, g, ys);
    forall i | 0 <= i < |hs|
      ensures out[i] == right[n..][i]
    {
      assert keys[..n + i + 1] == kept[..w][..n + i + 1];
      assert Keys(m, g, ys)[..n + i + 1] == Keys(m, g, ys)[..w][..n + i + 1];
      AttendAt(m, g, keys, hs, cp, ys, n, i);
    }
  }

  /** Layer l during a run that has reached layer g. */
  predicate Stored(m: Model, s: Range, l: nat, g: nat, c: Cache, after: Cache, xs: seq<Hidden>, n: nat, j: nat) {
    if l < g then BeginsAt(m, s, l, after, xs, n + j) else At(after, s, l) == At(c, s, l)
  }

  /** One layer of that: it stores and answers the part of the chunk as the pass does. */
  lemma LayerBegins(m: Model, g: nat, kept: seq<KV>, ys: seq<Hidden>, n: nat, j: nat, hs: seq<Hidden>, cp: seq<nat>)
    requires |cp| == |hs| && j <= |hs| && n + j <= |ys| && |kept| == n && kept == Keys(m, g, ys)[..n]
    requires hs[..j] == ys[n..n + j] && Contiguous(cp[..j], n)
    ensures var keys := kept + Added(m, g, hs, cp);
      keys[..n + j] == Keys(m, g, ys)[..n + j] && Attend(m, g, keys, hs, cp)[..j] == Layer(m, g, ys)[n..n + j]
  {
    hide Keys, Layer, Attend, Added;
    var keys := kept + Added(m, g, hs, cp);
    assert keys[..n] == kept && keys[n..] == Added(m, g, hs, cp);
    StoredAlike(m, g, keys, hs, cp, ys, n, j);
    AttendedAlike(m, g, keys, hs, cp, ys, n, j);
  }

  /** The part of a chunk that goes on with xs is stored as the pass over xs stores it. */
  lemma {:induction false} RunBegins(m: Model, s: Range, g: nat, c: Cache, xs: seq<Hidden>, n: nat, j: nat,
                                     hs: seq<Hidden>, cp: seq<nat>)
    requires s.lo <= g <= s.hi && |cp| == |hs| && j <= |hs| && n + j <= |xs|
    requires hs[..j] == xs[n..n + j] && Contiguous(cp[..j], n)
    requires forall l: nat | s.lo <= l < s.hi :: |At(c, s, l)| == n && BeginsAt(m, s, l, c, xs, n)
    ensures var r := RunSlab(m, s.lo, g, c, hs, cp);
      && r.out[..j] == Pass(m, s.lo, g, xs)[n..n + j]
      && (forall l: nat | s.lo <= l < s.hi :: Stored(m, s, l, g, c, r.cache, xs, n, j))
    decreases g
  {
    hide At, Keys, Layer, Attend, Contiguous, Added, BeginsAt;
    if s.lo < g {
      var f := g - 1;
      RunBegins(m, s, f, c, xs, n, j, hs, cp);
      RunOne(m, s, f, c, hs, cp);
      hide RunSlab;
      var before, r, ys := RunSlab(m, s.lo, f, c, hs, cp), RunSlab(m, s.lo, g, c, hs, cp), Pass(m, s.lo, f, xs);
      assert Stored(m, s, f, f, c, before.cache, xs, n, j) && BeginsAt(m, s, f, c, xs, n);
      BeginsExactly(m, s, f, c, xs, n);
      LayerBegins(m, f, At(c, s, f), ys, n, j, before.out, cp);
      NowBegins(m, s, f, r.cache, xs, n + j);
      forall l: nat | s.lo <= l < s.hi
        ensures Stored(m, s, l, g, c, r.cache, xs, n, j)
      {
        assert Stored(m, s, l, f, c, before.cache, xs, n, j);
        if l < f {
          SameBegins(m, s, l, before.cache, r.cache, xs, n + j);
        }
      }
    }
  }

  lemma BeginsExactly(m: Model, s: Range, l: nat, c: Cache, xs: seq<Hidden>, n: nat)
    requires BeginsAt(m, s, l, c, xs, n) && |At(c, s, l)| == n
    ensures At(c, s, l) == Keys(m, l, Pass(m, s.lo, l, xs))[..n]
  {
    assert At(c, s, l)[..n] == At(c, s, l);
  }

  lemma NowBegins(m: Model, s: Range, l: nat, c: Cache, xs: seq<Hidden>, w: nat)
    ensures s.lo <= l && w <= |xs| && w <= |At(c, s, l)| && At(c, s, l)[..w] == Keys(m, l, Pass(m, s.lo, l, xs))[..w]
            ==> BeginsAt(m, s, l, c, xs, w)
  {
  }

  lemma SameBegins(m: Model, s: Range, l: nat, c: Cache, after: Cache, xs: seq<Hidden>, w: nat)
    requires BeginsAt(m, s, l, c, xs, w) && At(after, s, l) == At(c, s, l)
    ensures BeginsAt(m, s, l, after, xs, w)
  {
  }

  lemma AttendedAlike(m: Model, g: nat, keys: seq<KV>, hs: seq<Hidden>, cp: seq<nat>, ys: seq<Hidden>, n: nat, j: nat)
    requires |hs| == |cp| && j <= |hs| && n + j <= |ys| && n + j <= |keys|
    requires keys[..n + j] == Keys(m, g, ys)[..n + j] && hs[..j] == ys[n..n + j] && Contiguous(cp[..j], n)
    ensures Attend(m, g, keys, hs, cp)[..j] == Layer(m, g, ys)[n..n + j]
  {
    hide Keys, Attend, Layer;
    var out, right := Attend(m, g, keys, hs, cp), Layer(m, g, ys);
    forall i | 0 <= i < j
      ensures out[..j][i] == right[n..n + j][i]
    {
      assert hs[i] == hs[..j][i] && cp[i] == cp[..j][i];
      assert keys[..n + i + 1] == keys[..n + j][..n + i + 1];
      assert Keys(m, g, ys)[..n + i + 1] == Keys(m, g, ys)[..n + j][..n + i + 1];
      AttendAt(m, g, keys, hs, cp, ys, n, i);
    }
  }

  lemma StoredAlike(m: Model, g: nat, keys: seq<KV>, hs: seq<Hidden>, cp: seq<nat>, ys: seq<Hidden>, n: nat, j: nat)
    requires |hs| == |cp| && j <= |hs| && n + j <= |ys| && |keys| == n + |hs|
    requires keys[..n] == Keys(m, g, ys)[..n] && keys[n..] == Added(m, g, hs, cp)
    requires hs[..j] == ys[n..n + j] && Contiguous(cp[..j], n)
    ensures keys[..n + j] == Keys(m, g, ys)[..n + j]
  {
    forall i | 0 <= i < n + j
      ensures keys[i] == Keys(m, g, ys)[i]
    {
      if i < n {
        assert keys[..n][i] == keys[i];
      } else {
        assert keys[i] == keys[n..][i - n] && hs[..j][i - n] == ys[i] && cp[..j][i - n] == i;
      }
    }
  }

  /** Every layer of the block keeps one entry for each position fed. */
  lemma {:induction false} RunCounts(m: Model, s: Range, g: nat, c: Cache, hs: seq<Hidden>, cp: seq<nat>, l: nat)
    requires s.lo <= g <= s.hi && |hs| == |cp| && s.lo <= l < s.hi
    ensures var after := RunSlab(m, s.lo, g, c, hs, cp).cache;
      At(c, s, l) <= At(after, s, l) && |At(after, s, l)| == |At(c, s, l)| + (if l < g then |hs| else 0)
    decreases g
  {
    hide At, Attend;
    if s.lo < g {
      RunCounts(m, s, g - 1, c, hs, cp, l);
      RunOne(m, s, g - 1, c, hs, cp);
    }
  }

  lemma {:induction false} FedCounts(m: Model, s: Range, fed: seq<Fed>, l: nat)
    requires Matched(fed) && s.lo <= l < s.hi
    ensures |At(CacheAfter(m, s, fed), s, l)| == |Inputs(fed)|
  {
    hide RunSlab;
    if fed != [] {
      var n := |fed| - 1;
      FedCounts(m, s, fed[..n], l);
      RunCounts(m, s, s.hi, CacheAfter(m, s, fed[..n]), fed[n].hs, fed[n].cp, l);
    }
  }

  lemma NothingBegins(m: Model, s: Range, xs: seq<Hidden>)
    ensures Begins(m, s, s.lo, [], xs, 0)
  {
    hide Keys, Pass;
    forall l: nat | s.lo <= l < s.hi
      ensures BeginsAt(m, s, l, [], xs, 0)
    {
      assert At([], s, l)[..0] == Keys(m, l, Pass(m, s.lo, l, xs))[..0] == [];
    }
  }

  /** What the last message adds to a history that starts with xs. */
  lemma LastFed(fed: seq<Fed>, w: nat, xs: seq<Hidden>)
    requires fed != [] && Matched(fed) && Starts(fed, w, xs)
    ensures var n := |fed| - 1;
      var k, last := |Inputs(fed[..n])|, fed[n];
      && Starts(fed[..n], if w <= k then w else k, xs)
      && (w > k ==> w - k <= |last.hs| && last.hs[..w - k] == xs[k..w] && Contiguous(last.cp[..w - k], k))
  {
    var n := |fed| - 1;
    var k, last := |Inputs(fed[..n])|, fed[n];
    var v := if w <= k then w else k;
    var ins, ps := Inputs(fed), Places(fed);
    assert ins[..v] == Inputs(fed[..n])[..v] && ps[..v] == Places(fed[..n])[..v];
    assert ins[..v] == ins[..w][..v] && ps[..v] == ps[..w][..v] && xs[..w][..v] == xs[..v];
    if w > k {
      assert last.hs[..w - k] == ins[..w][k..] == xs[..w][k..] == xs[k..w];
      var next, early := last.cp[..w - k], ps[..w];
      forall i | 0 <= i < w - k
        ensures next[i] == k + i
      {
        assert early[k + i] == ps[k + i] == last.cp[i];
      }
    }
  }

  /** More entries behind those that begin right change nothing. */
  lemma StillBegins(m: Model, s: Range, c: Cache, hs: seq<Hidden>, cp: seq<nat>, xs: seq<Hidden>, w: nat)
    requires s.lo <= s.hi && |hs| == |cp| && Begins(m, s, s.lo, c, xs, w)
    ensures Begins(m, s, s.lo, RunSlab(m, s.lo, s.hi, c, hs, cp).cache, xs, w)
  {
    hide RunSlab, At, Keys, Pass;
    var after := RunSlab(m, s.lo, s.hi, c, hs, cp).cache;
    forall l: nat | s.lo <= l < s.hi
      ensures BeginsAt(m, s, l, after, xs, w)
    {
      assert BeginsAt(m, s, l, c, xs, w);
      RunCounts(m, s, s.hi, c, hs, cp, l);
      assert At(after, s, l)[..w] == At(c, s, l)[..w];
    }
  }

  /** A history that starts with xs leaves caches that begin with those of the pass over xs. */
  lemma {:induction false} StartsBegins(m: Model, s: Range, fed: seq<Fed>, xs: seq<Hidden>, w: nat)
    requires s.lo < s.hi && Matched(fed) && Starts(fed, w, xs)
    ensures Begins(m, s, s.lo, CacheAfter(m, s, fed), xs, w)
  {
    hide RunSlab, At, Keys, Starts, BeginsAt, Begins, Contiguous, Places;
    if fed == [] {
      StartsWithNothing(fed, w, xs);
      NothingBegins(m, s, xs);
    } else {
      var n, last := |fed| - 1, fed[|fed| - 1];
      var k, c := |Inputs(fed[..n])|, CacheAfter(m, s, fed[..n]);
      LastFed(fed, w, xs);
      StartsWithNothing(fed, w, xs);
      StartsBegins(m, s, fed[..n], xs, if w <= k then w else k);
      assert CacheAfter(m, s, fed) == RunSlab(m, s.lo, s.hi, c, last.hs, last.cp).cache;
      if w <= k {
        StillBegins(m, s, c, last.hs, last.cp, xs, w);
      } else {
        AllCounted(m, s, fed[..n], xs);
        GoesOn(m, s, c, last.hs, last.cp, xs, k, w - k);
      }
    }
  }

  lemma GoesOn(m: Model, s: Range, c: Cache, hs: seq<Hidden>, cp: seq<nat>, xs: seq<Hidden>, k: nat, j: nat)
    requires s.lo <= s.hi && |cp| == |hs| && j <= |hs| && k + j <= |xs|
    requires hs[..j] == xs[k..k + j] && Contiguous(cp[..j], k)
    requires forall l: nat | s.lo <= l < s.hi :: |At(c, s, l)| == k && BeginsAt(m, s, l, c, xs, k)
    ensures Begins(m, s, s.lo, RunSlab(m, s.lo, s.hi, c, hs, cp).cache, xs, k + j)
  {
    hide RunSlab, At, Keys, BeginsAt, Contiguous, Pass;
    RunBegins(m, s, s.hi, c, xs, k, j, hs, cp);
    AllStored(m, s, c, RunSlab(m, s.lo, s.hi, c, hs, cp).cache, xs, k, j);
  }

  lemma AllStored(m: Model, s: Range, c: Cache, after: Cache, xs: seq<Hidden>, k: nat, j: nat)
    requires forall l: nat | s.lo <= l < s.hi :: Stored(m, s, l, s.hi, c, after, xs, k, j)
    ensures Begins(m, s, s.lo, after, xs, k + j)
  {
    hide At, Keys, BeginsAt;
    var w := k + j;
    forall l: nat | s.lo <= l < s.hi
      ensures BeginsAt(m, s, l, after, xs, w)
    {
      assert Stored(m, s, l, s.hi, c, after, xs, k, j);
    }
  }

  lemma AllCounted(m: Model, s: Range, fed: seq<Fed>, xs: seq<Hidden>)
    requires Matched(fed) && Begins(m, s, s.lo, CacheAfter(m, s, fed), xs, |Inputs(fed)|)
    ensures var k, c := |Inputs(fed)|, CacheAfter(m, s, fed);
      forall l: nat | s.lo <= l < s.hi :: |At(c, s, l)| == k && BeginsAt(m, s, l, c, xs, k)
  {
    hide BeginsAt, CacheAfter, Inputs;
    forall l: nat | s.lo <= l < s.hi
      ensures |At(CacheAfter(m, s, fed), s, l)| == |Inputs(fed)|
    {
      FedCounts(m, s, fed, l);
    }
  }

  lemma StartsWithNothing(fed: seq<Fed>, w: nat, xs: seq<Hidden>)
    requires Matched(fed) && Starts(fed, w, xs)
    ensures w <= |xs| && (fed == [] ==> w == 0)
  {
  }

  lemma StaleIsRight(m: Model, s: Range, fed: seq<Fed>, past: seq<Hidden>, hs: seq<Hidden>)
    requires s.lo < s.hi && Matched(fed) && Starts(fed, |past| + |hs|, past + hs)
    ensures AnswersRight(m, s, fed, past, hs)
  {
    hide RunSlab, Starts, Begins;
    var xs := past + hs;
    StartsBegins(m, s, fed, xs, |xs|);
    assert xs[|past|..] == hs;
    StaleRun(m, s, s.hi, CacheAfter(m, s, fed), xs, |past|, hs, Positions(|past|, |hs|));
  }

  // ---- Wrong histories ----

  function Mark(p: nat, h: Hidden): KV {
    KV([p as real], h)
  }

  /** A model whose block answers [] exactly where its first layer sees the expected entries. */
  function Probe(lo: nat, expected: seq<KV>): Model {
    Model(0, t => [], (g: nat, p: nat, h: Hidden) => Mark(p, h),
          (g: nat, p: nat, h: Hidden, keys: seq<KV>) => if g != lo then h else if keys == expected then [] else [0.0], h => 0)
  }

  lemma {:induction false} ProbeRuns(lo: nat, hi: nat, expected: seq<KV>, c: Cache, hs: seq<Hidden>, cp: seq<nat>)
    requires lo < hi && |hs| == |cp|
    ensures var m := Probe(lo, expected);
      RunSlab(m, lo, hi, c, hs, cp).out == Attend(m, lo, Entries(c, 0) + Added(m, lo, hs, cp), hs, cp)
    decreases hi
  {
    var m := Probe(lo, expected);
    if hi == lo + 1 {
      UpdateGrows(c, 0, 0, Added(m, lo, hs, cp));
      assert RunSlab(m, lo, lo, c, hs, cp) == Run(c, hs);
    } else {
      ProbeRuns(lo, hi - 1, expected, c, hs, cp);
    }
  }

  lemma {:induction false} ProbePasses(lo: nat, hi: nat, expected: seq<KV>, xs: seq<Hidden>)
    requires lo < hi
    ensures Pass(Probe(lo, expected), lo, hi, xs) == Layer(Probe(lo, expected), lo, xs)
    decreases hi
  {
    var m := Probe(lo, expected);
    if hi == lo + 1 {
      assert Pass(m, lo, lo, xs) == xs;
    } else {
      ProbePasses(lo, hi - 1, expected, xs);
      var ys := Pass(m, lo, hi - 1, xs);
      assert Layer(m, hi - 1, ys) == ys;
    }
  }

  lemma {:induction false} BottomRun(m: Model, lo: nat, hi: nat, c: Cache, hs: seq<Hidden>, cp: seq<nat>)
    requires lo < hi && |hs| == |cp|
    ensures Entries(RunSlab(m, lo, hi, c, hs, cp).cache, 0) == Entries(c, 0) + Added(m, lo, hs, cp)
    decreases hi
  {
    hide Entries, Update, Attend;
    var before := RunSlab(m, lo, hi - 1, c, hs, cp);
    UpdateGrows(before.cache, hi - 1 - lo, 0, Added(m, hi - 1, before.out, cp));
    if hi > lo + 1 {
      BottomRun(m, lo, hi - 1, c, hs, cp);
    }
  }

  /** The block's first layer stores what it was fed, at the positions it was fed at. */
  lemma {:induction false} BottomEntries(m: Model, s: Range, fed: seq<Fed>)
    requires s.lo < s.hi && Matched(fed)
    ensures Entries(CacheAfter(m, s, fed), 0) == Added(m, s.lo, Inputs(fed), Places(fed))
  {
    hide RunSlab;
    if fed != [] {
      var n := |fed| - 1;
      BottomEntries(m, s, fed[..n]);
      BottomRun(m, s.lo, s.hi, CacheAfter(m, s, fed[..n]), fed[n].hs, fed[n].cp);
    }
  }

  /** What the first layer of the probe sees at the last position, if the answer is right. */
  lemma RightSees(s: Range, fed: seq<Fed>, past: seq<Hidden>, hs: seq<Hidden>, expected: seq<KV>)
    requires s.lo < s.hi && Matched(fed) && hs != []
    requires expected == Keys(Probe(s.lo, expected), s.lo, past + hs)
    requires AnswersRight(Probe(s.lo, expected), s, fed, past, hs)
    ensures var m, p := Probe(s.lo, expected), |past| + |hs| - 1;
      Visible(Added(m, s.lo, Inputs(fed), Places(fed)) + Added(m, s.lo, hs, Positions(|past|, |hs|)), p) == expected
  {
    hide RunSlab, Pass;
    var m, xs, q := Probe(s.lo, expected), past + hs, |hs|;
    var c, cp := CacheAfter(m, s, fed), Positions(|past|, q);
    BottomEntries(m, s, fed);
    ProbeRuns(s.lo, s.hi, expected, c, hs, cp);
    ProbePasses(s.lo, s.hi, expected, xs);
    var keys := Added(m, s.lo, Inputs(fed), Places(fed)) + Added(m, s.lo, hs, cp);
    hide AnswersRight, CacheAfter;
    assert Attend(m, s.lo, keys, hs, cp)[q - 1] == m.att(s.lo, cp[q - 1], hs[q - 1], Visible(keys, cp[q - 1]));
    assert Layer(m, s.lo, xs)[|past| + q - 1] == m.att(s.lo, |past| + q - 1, xs[|past| + q - 1], Keys(m, s.lo, xs)[..|past| + q]);
    assert Keys(m, s.lo, xs)[..|past| + q] == expected;
  }

  lemma MarksDiffer(p: nat, q: nat, h: Hidden, k: Hidden)
    requires Mark(p, h) == Mark(q, k)
    ensures p == q && h == k
  {
    assert [p as real][0] == [q as real][0];
  }

  /** Seeing the right entries leaves two histories: exactly past, or one that already went on with hs. */
  lemma SeenDecides(fed: seq<Fed>, past: seq<Hidden>, hs: seq<Hidden>, keys: seq<KV>, expected: seq<KV>)
    requires Matched(fed) && hs != []
    requires |keys| == |Inputs(fed)| + |hs| && |expected| == |past| + |hs|
    requires forall j | 0 <= j < |Inputs(fed)| :: keys[j] == Mark(Places(fed)[j], Inputs(fed)[j])
    requires forall j | 0 <= j < |hs| :: keys[|Inputs(fed)| + j] == Mark(|past| + j, hs[j])
    requires forall j | 0 <= j < |expected| :: expected[j] == Mark(j, (past + hs)[j])
    requires Visible(keys, |past| + |hs| - 1) == expected
    ensures Answerable(fed, past, hs)
  {
    hide Mark, Inputs, Places;
    var f, n, w, xs := |Inputs(fed)|, |past|, |expected|, past + hs;
    assert keys[..w] == expected && f >= n;
    forall j | 0 <= j < w && j < f
      ensures Places(fed)[j] == j && Inputs(fed)[j] == xs[j]
    {
      assert keys[j] == expected[j];
      MarksDiffer(Places(fed)[j], j, Inputs(fed)[j], xs[j]);
    }
    if f < w {
      assert keys[f] == expected[f];
      MarksDiffer(n, f, hs[0], xs[f]);
      assert Inputs(fed)[..n] == past[..n];
    } else {
      assert Inputs(fed)[..w] == xs[..w];
    }
  }

  /** What the worker was fed under this block and job is exactly the positions before the chunk, or begins
      with all of them and the chunk itself. */
  predicate Answerable(fed: seq<Fed>, past: seq<Hidden>, hs: seq<Hidden>)
    requires Matched(fed)
  {
    Follows(fed, past) || Starts(fed, |past| + |hs|, past + hs)
  }

  lemma RightIsAnswerable(s: Range, fed: seq<Fed>, past: seq<Hidden>, hs: seq<Hidden>)
    requires s.lo < s.hi && Matched(fed) && hs != []
    requires forall m: Model :: AnswersRight(m, s, fed, past, hs)
    ensures Answerable(fed, past, hs)
  {
    hide AnswersRight, Answerable, Keys, Added, Visible;
    var xs := past + hs;
    var expected := seq(|xs|, i requires 0 <= i < |xs| => Mark(i, xs[i]));
    var m := Probe(s.lo, expected);
    MarkedKeys(s.lo, expected, xs);
    RightSees(s, fed, past, hs, expected);
    var keys := Added(m, s.lo, Inputs(fed), Places(fed)) + Added(m, s.lo, hs, Positions(|past|, |hs|));
    MarkedAdded(s.lo, expected, Inputs(fed), Places(fed));
    MarkedAdded(s.lo, expected, hs, Positions(|past|, |hs|));
    SeenDecides(fed, past, hs, keys, expected);
  }

  lemma MarkedKeys(lo: nat, expected: seq<KV>, xs: seq<Hidden>)
    requires |expected| == |xs| && forall i | 0 <= i < |xs| :: expected[i] == Mark(i, xs[i])
    ensures Keys(Probe(lo, expected), lo, xs) == expected
  {
  }

  lemma MarkedAdded(lo: nat, expected: seq<KV>, hs: seq<Hidden>, cp: seq<nat>)
    requires |hs| == |cp|
    ensures forall i | 0 <= i < |hs| :: Added(Probe(lo, expected), lo, hs, cp)[i] == Mark(cp[i], hs[i])
  {
  }

  /** The exact rule for one decode at position |past|. The block answers as the whole pass would, for every
      model, if and only if what it was fed since it was created is exactly the inputs before the chunk at
      their positions, or already begins with those and the chunk. */
  lemma RightIff(s: Range, fed: seq<Fed>, past: seq<Hidden>, hs: seq<Hidden>)
    requires s.lo < s.hi && Matched(fed) && hs != []
    ensures (forall m: Model :: AnswersRight(m, s, fed, past, hs)) <==> Answerable(fed, past, hs)
  {
    hide AnswersRight, Follows, Starts;
    if Answerable(fed, past, hs) {
      forall m: Model
        ensures AnswersRight(m, s, fed, past, hs)
      {
        if Follows(fed, past) {
          FollowsIsRight(m, s, fed, past, hs);
        } else {
          StaleIsRight(m, s, fed, past, hs);
        }
      }
    } else if forall m: Model :: AnswersRight(m, s, fed, past, hs) {
      RightIsAnswerable(s, fed, past, hs);
    }
  }

  /** A cache holds the inputs before the chunk, for every model, exactly if they are what it was fed. */
  lemma HoldsIff(s: Range, fed: seq<Fed>, past: seq<Hidden>)
    requires s.lo < s.hi && Matched(fed)
    ensures (forall m: Model :: HoldsAfter(m, s, fed, past)) <==> Follows(fed, past)
  {
    hide HoldsAfter, Follows;
    if Follows(fed, past) {
      forall m: Model
        ensures HoldsAfter(m, s, fed, past)
      {
        FollowsHolds(m, s, fed, past);
      }
    }
    if HoldsAfter(Probe(s.lo, []), s, fed, past) {
      HeldIsFed(s, fed, past);
    }
  }

  lemma HeldIsFed(s: Range, fed: seq<Fed>, past: seq<Hidden>)
    requires s.lo < s.hi && Matched(fed) && HoldsAfter(Probe(s.lo, []), s, fed, past)
    ensures Follows(fed, past)
  {
    hide RunSlab, CacheAfter, Holds, Inputs, Places, Mark;
    var m := Probe(s.lo, []);
    BottomEntries(m, s, fed);
    HeldEntries(m, s.lo, s.hi, CacheAfter(m, s, fed), past, s.lo);
    assert Pass(m, s.lo, s.lo, past) == past;
    MarkedAdded(s.lo, [], Inputs(fed), Places(fed));
    var keys := Keys(m, s.lo, past);
    forall j | 0 <= j < |past|
      ensures Places(fed)[j] == j && Inputs(fed)[j] == past[j]
    {
      assert keys[j] == Mark(j, past[j]);
      MarksDiffer(Places(fed)[j], j, Inputs(fed)[j], past[j]);
    }
  }

  /** The right answer and a cache fit for the next position, for every model: exactly if the cache held
      the inputs before the chunk. A history that is too long may answer right, but never goes on right. */
  lemma RightAndReadyIff(s: Range, fed: seq<Fed>, past: seq<Hidden>, hs: seq<Hidden>)
    requires s.lo < s.hi && Matched(fed) && hs != []
    ensures var more := fed + [Fed(hs, Positions(|past|, |hs|))];
      (forall m: Model :: AnswersRight(m, s, fed, past, hs) && HoldsAfter(m, s, more, past + hs))
        <==> forall m: Model :: HoldsAfter(m, s, fed, past)
  {
    hide AnswersRight, HoldsAfter, Starts;
    var more := fed + [Fed(hs, Positions(|past|, |hs|))];
    assert more[..|fed|] == fed;
    HoldsIff(s, fed, past);
    HoldsIff(s, more, past + hs);
    RightIff(s, fed, past, hs);
    if Follows(fed, past) {
      forall m: Model
        ensures AnswersRight(m, s, fed, past, hs) && HoldsAfter(m, s, more, past + hs)
      {
        FollowsIsRight(m, s, fed, past, hs);
      }
    } else if forall m: Model :: AnswersRight(m, s, fed, past, hs) && HoldsAfter(m, s, more, past + hs) {
      assert Follows(more, past + hs) && |Inputs(more)| == |Inputs(fed)| + |hs|;
      MoreStarts(fed, past, hs);
    }
  }

  lemma MoreStarts(fed: seq<Fed>, past: seq<Hidden>, hs: seq<Hidden>)
    requires Matched(fed) && Matched(fed + [Fed(hs, Positions(|past|, |hs|))])
    requires Follows(fed + [Fed(hs, Positions(|past|, |hs|))], past + hs)
    ensures Follows(fed, past)
  {
    var more := fed + [Fed(hs, Positions(|past|, |hs|))];
    assert more[..|fed|] == fed;
    var f, xs := |Inputs(fed)|, past + hs;
    assert f == |past|;
    assert Inputs(fed) == Inputs(more)[..|xs|][..f] == xs[..f] == past;
    assert Places(fed) == Places(more)[..|xs|][..f];
  }

  /** After a restart, in the middle of a job, the answer is wrong for some model. */
  lemma RestartIsWrong(s: Range, past: seq<Hidden>, hs: seq<Hidden>)
    requires s.lo < s.hi && past != [] && hs != []
    ensures exists m: Model :: !AnswersRight(m, s, [], past, hs)
  {
    hide AnswersRight;
    RightIff(s, [], past, hs);
  }

  /** A job id used again, for a prompt the block was not fed first: the answer is wrong for some model. */
  lemma ReusedJobIsWrong(s: Range, fed: seq<Fed>, prompt: seq<Hidden>)
    requires s.lo < s.hi && Matched(fed) && prompt != []
    requires Inputs(fed) != [] && !Starts(fed, |prompt|, prompt)
    ensures exists m: Model :: !AnswersRight(m, s, fed, [], prompt)
  {
    hide AnswersRight, Starts;
    assert [] + prompt == prompt;
    RightIff(s, fed, [], prompt);
  }

  // ---- On a worker ----

  lemma {:induction false} HistoryIsUniform(m: Model, s: Range, fed: seq<Fed>)
    requires s.lo <= s.hi && Matched(fed)
    ensures Uniform(CacheAfter(m, s, fed), s.hi - s.lo)
  {
    hide RunSlab;
    if fed != [] {
      hide Uniform;
      var n := |fed| - 1;
      HistoryIsUniform(m, s, fed[..n]);
      var table := seq(s.hi, g requires 0 <= g < s.hi => if s.lo <= g then g - s.lo else 0);
      IntactRunsItsSlab(m, table, s, CacheAfter(m, s, fed[..n]), fed[n].hs, fed[n].cp);
    }
  }

  /** What a torch worker replies to a decode message, given what its block was fed under the job. */
  lemma WorkerAnswers(m: Model, spec: NodeSpec, key: string, s: Range, fed: seq<Fed>, past: seq<Hidden>, hs: seq<Hidden>)
    requires !spec.mlx && key in spec.prepared && spec.prepared[key] == s && Intact(spec.table, s)
    requires s.lo < s.hi && Matched(fed)
    ensures var part := Some(TorchJob(map[key := CacheAfter(m, s, fed)]));
      var t := Tensors(None, Some(hs), Some(Positions(|past|, |hs|)));
      var right := Activation(Pass(m, s.lo, s.hi, past + hs)[|past|..]);
      (Exec(m, spec, part, Single(DecodeOp(key)), t).reply == right) <==> AnswersRight(m, s, fed, past, hs)
  {
    hide RunSlab, RunTable, CacheAfter, Intact, Uniform, Exec;
    HistoryIsUniform(m, s, fed);
    var c := CacheAfter(m, s, fed);
    IntactRunsItsSlab(m, spec.table, s, c, hs, Positions(|past|, |hs|));
    SingleDecode(m, spec, Some(TorchJob(map[key := c])), key, Tensors(None, Some(hs), Some(Positions(|past|, |hs|))));
  }

  // ---- A run that goes wrong without an error ----

  /** One layer that answers how many positions it sees. */
  function Counter(): Model {
    Model(1, t => [t as real], (g, p, h) => KV([], []), (g: nat, p: nat, h: Hidden, keys: seq<KV>) => [|keys| as real],
          (h: Hidden) => if h == [] then 0 else h[0].Floor)
  }

  const WHOLE := NodeSpec(false, true, true, map["0-1" := Range(0, 1)], [0])

  function CounterDecode(part: Option<JobCaches>, token: Token, position: nat): Handled {
    Exec(Counter(), WHOLE, part, Single(DecodeOp("0-1")), Tensors(None, Some(Embed(Counter(), [token])), Some([position])))
  }


  lemma CounterRuns(c: Cache, h: Hidden, p: nat)
    requires |c| <= 1
    ensures var r := RunTable(Counter(), [0], Range(0, 1), c, [h], [p]);
      var n: nat := SeqLength(c) + 1;
      && r.out == Some([[(if p < n then p + 1 else n) as real]])
      && |r.cache| == 1 && SeqLength(r.cache) == n
  {
    var m: Model, n: nat := Counter(), SeqLength(c) + 1;
    var after := Update(c, 0, Added(m, 0, [h], [p]));
    assert |Entries(after, 0)| == n;
    var r := RunThrough(m, [0], 0, 0, n, c, [h], [p]);
    assert r == Passed(c, Some([h]));
    assert RunTable(m, [0], Range(0, 1), c, [h], [p]) == LayerThrough(m, 0, 0, n, c, [h], [p]);
    var keys := Entries(after, 0);
    assert |Seen(keys, p, n)| == if p < n then p + 1 else n;
    assert AttendSeen(m, 0, keys, [h], [p], n)[0] == m.att(0, p, h, Seen(keys, p, n));
    assert AttendSeen(m, 0, keys, [h], [p], n) == [[|Seen(keys, p, n)| as real]];
  }

  lemma CounterNext(ids: seq<Token>)
    requires ids != []
    ensures NextToken(Counter(), ids) == |ids|
  {
    var m, n := Counter(), |ids|;
    var xs := Embed(m, ids);
    assert Pass(m, 0, 0, xs) == xs;
    assert Pass(m, 0, 1, xs) == Layer(m, 0, xs);
    assert Layer(m, 0, xs)[n - 1] == [n as real];
  }

  /** A worker that restarts after the first of two rounds. Nothing raises: the second round is answered
      from an empty cache, as if its token were the first of the prompt, and the head picks another token
      than the whole model does. */
  lemma RestartGoesUnnoticed()
    ensures NextToken(Counter(), [5]) == 1 && NextToken(Counter(), [5, 1]) == 2
    ensures var first := CounterDecode(None, 5, 0);
      && first.reply == Activation([[1.0]])
      && CounterDecode(first.part, 1, 1).reply == Activation([[2.0]])
      && CounterDecode(None, 1, 1).reply == Activation([[1.0]])
    ensures Counter().head([1.0]) == 1 && Counter().head([2.0]) == 2
  {
    hide RunTable, Exec;
    CounterNext([5]);
    CounterNext([5, 1]);
    var m := Counter();
    var t5 := Tensors(None, Some(Embed(m, [5])), Some([0]));
    var t1 := Tensors(None, Some(Embed(m, [1])), Some([1]));
    assert Embed(m, [5]) == [[5 as real]] && Embed(m, [1]) == [[1 as real]];
    SingleDecode(m, WHOLE, None, "0-1", t5);
    CounterRuns([], [5 as real], 0);
    var first := CounterDecode(None, 5, 0);
    SingleDecode(m, WHOLE, None, "0-1", t1);
    CounterRuns([], [1 as real], 1);
    SingleDecode(m, WHOLE, first.part, "0-1", t1);
    CounterRuns(RunTable(m, [0], Range(0, 1), [], [[5 as real]], [0]).cache, [1 as real], 1);
  }
}
