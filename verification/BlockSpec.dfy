// Decoder slabs with a local key/value cache: the functional meaning of one run of a slab on a
// chunk, and the theorem that chunks at contiguous cache positions add up to one whole pass.
module BlockSpec {
  import opened Transformer
  import opened Masking

  /** DynamicCache: one list of entries per local layer index, grown on demand. */
  type Cache = seq<seq<KV>>

  function SeqLength(c: Cache): nat {
    if c == [] then 0 else |c[0]|
  }

  function Entries(c: Cache, idx: nat): seq<KV> {
    if idx < |c| then c[idx] else []
  }

  function Update(c: Cache, idx: nat, added: seq<KV>): Cache {
    if idx < |c| then c[idx := c[idx] + added]
    else c + seq(idx - |c|, _ => []) + [added]
  }

  function Added(m: Model, g: nat, hs: seq<Hidden>, cp: seq<nat>): (ks: seq<KV>)
    requires |hs| == |cp|
    ensures |ks| == |hs|
  {
    seq(|hs|, i requires 0 <= i < |hs| => m.kv(g, cp[i], hs[i]))
  }

  function Attend(m: Model, g: nat, keys: seq<KV>, hs: seq<Hidden>, cp: seq<nat>): (out: seq<Hidden>)
    requires |hs| == |cp|
    ensures |out| == |hs|
  {
    seq(|hs|, i requires 0 <= i < |hs| => m.att(g, cp[i], hs[i], Visible(keys, cp[i])))
  }

  datatype Run = Run(cache: Cache, out: seq<Hidden>)

  /** Layer g on a chunk, its entries kept at local index idx. */
  function RunLayer(m: Model, g: nat, idx: nat, s: Run, cp: seq<nat>): (r: Run)
    requires |s.out| == |cp|
    ensures |r.out| == |cp|
  {
    var after := Update(s.cache, idx, Added(m, g, s.out, cp));
    Run(after, Attend(m, g, Entries(after, idx), s.out, cp))
  }

  /** Layers lo, ..., hi - 1 on a chunk, layer g at local index g - lo. */
  function RunSlab(m: Model, lo: nat, hi: nat, c: Cache, hs: seq<Hidden>, cp: seq<nat>): (r: Run)
    requires |hs| == |cp|
    ensures |r.out| == |hs|
  {
    if hi <= lo then Run(c, hs) else RunLayer(m, hi - 1, hi - 1 - lo, RunSlab(m, lo, hi - 1, c, hs, cp), cp)
  }

  predicate Contiguous(cp: seq<nat>, start: nat) {
    forall i | 0 <= i < |cp| :: cp[i] == start + i
  }

  function Positions(start: nat, n: nat): (cp: seq<nat>)
    ensures |cp| == n && Contiguous(cp, start)
  {
    seq(n, i => start + i)
  }

  /** The cache of slab [lo, hi) after one whole pass over the inputs past. */
  function FullCache(m: Model, lo: nat, hi: nat, past: seq<Hidden>): (c: Cache)
    ensures |c| == if lo <= hi then hi - lo else 0
  {
    if hi <= lo then []
    else FullCache(m, lo, hi - 1, past) + [Keys(m, hi - 1, Pass(m, lo, hi - 1, past))]
  }

  /** c is what the slab holds once it has consumed past; a slab that never ran holds nothing. */
  predicate Holds(m: Model, lo: nat, hi: nat, c: Cache, past: seq<Hidden>) {
    c == FullCache(m, lo, hi, past) || (c == [] && past == [])
  }

  lemma {:induction false} FullCacheAt(m: Model, lo: nat, hi: nat, past: seq<Hidden>, g: nat)
    requires lo <= g < hi
    ensures FullCache(m, lo, hi, past)[g - lo] == Keys(m, g, Pass(m, lo, g, past))
    decreases hi
  {
    if g < hi - 1 {
      FullCacheAt(m, lo, hi - 1, past, g);
    }
  }

  lemma HeldEntries(m: Model, lo: nat, hi: nat, c: Cache, past: seq<Hidden>, g: nat)
    requires lo <= g < hi && Holds(m, lo, hi, c, past)
    ensures c == [] || g - lo < |c|
    ensures Entries(c, g - lo) == Keys(m, g, Pass(m, lo, g, past))
  {
    FullCacheAt(m, lo, hi, past, g);
  }

  /** One layer: old entries plus the chunk's entries are the entries of the longer pass, and the
      chunk's outputs are the tail of the longer pass. */
  lemma LayerChunk(m: Model, g: nat, whole: seq<Hidden>, n: nat, cp: seq<nat>)
    requires n + |cp| == |whole| && Contiguous(cp, n)
    ensures Keys(m, g, whole[..n]) + Added(m, g, whole[n..], cp) == Keys(m, g, whole)
    ensures Attend(m, g, Keys(m, g, whole), whole[n..], cp) == Layer(m, g, whole)[n..]
  {
    KeysPrefix(m, g, whole, n);
    var ks := Keys(m, g, whole);
    forall i | 0 <= i < |cp|
      ensures Attend(m, g, ks, whole[n..], cp)[i] == Layer(m, g, whole)[n..][i]
    {
      assert cp[i] == n + i && Visible(ks, cp[i]) == ks[..n + i + 1];
    }
  }

  function Rest(c: Cache, n: nat): Cache {
    if n <= |c| then c[n..] else []
  }

  lemma RestAll(c: Cache)
    ensures [] + Rest(c, 0) == c
  {
  }

  lemma UpdateNext(full: Cache, c: Cache, n: nat, added: seq<KV>)
    requires |full| == n && (c == [] || n < |c|)
    ensures Update(full + Rest(c, n), n, added) == full + [Entries(c, n) + added] + Rest(c, n + 1)
  {
    if c == [] {
      assert [] + added == added;
      assert full + [] == full;
    } else {
      assert Rest(c, n) == [c[n]] + Rest(c, n + 1);
    }
  }

  lemma RunLayerChunk(m: Model, g: nat, idx: nat, full: Cache, c: Cache, whole: seq<Hidden>, n: nat, cp: seq<nat>)
    requires |full| == idx && (c == [] || idx < |c|)
    requires n + |cp| == |whole| && Contiguous(cp, n)
    requires Entries(c, idx) == Keys(m, g, whole[..n])
    ensures RunLayer(m, g, idx, Run(full + Rest(c, idx), whole[n..]), cp)
         == Run(full + [Keys(m, g, whole)] + Rest(c, idx + 1), Layer(m, g, whole)[n..])
  {
    LayerChunk(m, g, whole, n, cp);
    UpdateNext(full, c, idx, Added(m, g, whole[n..], cp));
  }

  /** The layers run so far hold the longer pass, the others what they held before. */
  lemma {:induction false} RunSlabPartial(m: Model, lo: nat, g: nat, hi: nat, c: Cache,
                                          all: seq<Hidden>, n: nat, cp: seq<nat>)
    requires lo <= g <= hi && n + |cp| == |all|
    requires Holds(m, lo, hi, c, all[..n]) && Contiguous(cp, n)
    ensures RunSlab(m, lo, g, c, all[n..], cp)
         == Run(FullCache(m, lo, g, all) + Rest(c, g - lo), Pass(m, lo, g, all)[n..])
    decreases g
  {
    hide RunLayer, Layer, Keys, Contiguous, Holds, Rest, Entries;
    if lo < g {
      RunSlabPartial(m, lo, g - 1, hi, c, all, n, cp);
      PassPrefix(m, lo, g - 1, all, n);
      HeldEntries(m, lo, hi, c, all[..n], g - 1);
      RunLayerChunk(m, g - 1, g - 1 - lo, FullCache(m, lo, g - 1, all), c, Pass(m, lo, g - 1, all), n, cp);
    } else {
      RestAll(c);
    }
  }

  /** A slab that has consumed past and is fed a chunk at the next positions answers with the tail
      of the whole pass and then holds the whole pass. */
  lemma RunSlabChunk(m: Model, lo: nat, hi: nat, c: Cache, past: seq<Hidden>, hs: seq<Hidden>, cp: seq<nat>)
    requires lo <= hi && |hs| == |cp|
    requires Holds(m, lo, hi, c, past) && Contiguous(cp, |past|)
    ensures var r := RunSlab(m, lo, hi, c, hs, cp);
      r.out == Pass(m, lo, hi, past + hs)[|past|..] && Holds(m, lo, hi, r.cache, past + hs)
  {
    var all := past + hs;
    assert all[..|past|] == past && all[|past|..] == hs;
    RunSlabPartial(m, lo, hi, hi, c, all, |past|, cp);
  }

  /** A slab inside the model: if it holds what the first n positions of xs produced below it, then
      fed the rest of that sequence it produces the rest of the sequence above it. */
  lemma SlabAdvances(m: Model, lo: nat, hi: nat, c: Cache, xs: seq<Hidden>, n: nat, cp: seq<nat>)
    requires lo <= hi && n + |cp| == |xs| && Contiguous(cp, n)
    requires Holds(m, lo, hi, c, Pass(m, 0, lo, xs[..n]))
    ensures var r := RunSlab(m, lo, hi, c, Pass(m, 0, lo, xs)[n..], cp);
      r.out == Pass(m, 0, hi, xs)[n..] && Holds(m, lo, hi, r.cache, Pass(m, 0, lo, xs))
  {
    hide Holds, Contiguous, Layer;
    var x := Pass(m, 0, lo, xs);
    PassPrefix(m, 0, lo, xs, n);
    RunSlabChunk(m, lo, hi, c, x[..n], x[n..], cp);
    assert x[..n] + x[n..] == x;
    PassCompose(m, 0, lo, hi, xs);
  }

  /** The last hidden state of a chunk that ends the sequence gives the specified next token. */
  lemma LastGivesNextToken(m: Model, ids: seq<Token>, n: nat, h: seq<Hidden>)
    requires n < |ids| && h == Pass(m, 0, m.numLayers, Embed(m, ids))[n..]
    ensures |h| == |ids| - n && m.head(h[|h| - 1]) == NextToken(m, ids)
  {
    hide Pass;
  }
}
