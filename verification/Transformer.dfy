// The whole decoder-only model as uninterpreted layer functions, and the cache-free
// specification of greedy decoding: recompute every position, read the last one.
module Transformer {
  type Token = int
  type Hidden = seq<real>
  datatype KV = KV(key: seq<real>, value: seq<real>)

  /** kv(layer, position, h) is what a layer stores for a position; att(layer, position, h, visible)
      is the layer's output for one query that attends to the visible entries. */
  datatype Model = Model(
    numLayers: nat,
    emb: Token -> Hidden,
    kv: (nat, nat, Hidden) -> KV,
    att: (nat, nat, Hidden, seq<KV>) -> Hidden,
    head: Hidden -> Token)

  function Embed(m: Model, ids: seq<Token>): (hs: seq<Hidden>)
    ensures |hs| == |ids|
  {
    seq(|ids|, i requires 0 <= i < |ids| => m.emb(ids[i]))
  }

  /** The entries layer g stores for the inputs hs at positions 0, 1, ... */
  function Keys(m: Model, g: nat, hs: seq<Hidden>): (ks: seq<KV>)
    ensures |ks| == |hs|
  {
    seq(|hs|, i requires 0 <= i < |hs| => m.kv(g, i, hs[i]))
  }

  /** One layer over a whole sequence, each position seeing itself and what precedes it. */
  function Layer(m: Model, g: nat, hs: seq<Hidden>): (out: seq<Hidden>)
    ensures |out| == |hs|
  {
    seq(|hs|, i requires 0 <= i < |hs| => m.att(g, i, hs[i], Keys(m, g, hs)[..i + 1]))
  }

  /** Layers lo, ..., hi - 1 in order over a whole sequence. */
  function Pass(m: Model, lo: nat, hi: nat, hs: seq<Hidden>): (out: seq<Hidden>)
    ensures |out| == |hs|
  {
    if hi <= lo then hs else Layer(m, hi - 1, Pass(m, lo, hi - 1, hs))
  }

  /** The specification of one decoding step: no cache, the full sequence recomputed. */
  function NextToken(m: Model, ids: seq<Token>): Token
    requires ids != []
  {
    m.head(Pass(m, 0, m.numLayers, Embed(m, ids))[|ids| - 1])
  }

  function Greedy(m: Model, ids: seq<Token>, n: nat): (tokens: seq<Token>)
    requires ids != []
    ensures |tokens| == n
  {
    if n == 0 then []
    else
      var t := Greedy(m, ids, n - 1);
      t + [NextToken(m, ids + t)]
  }

  /** A request for a negative number of tokens is one for none. */
  function Clip(n: int): (k: nat)
    ensures if n < 0 then k == 0 else k == n
  {
    if n < 0 then 0 else n
  }

  /** The part of a token list before the first stop token. */
  function CutAtStop(tokens: seq<Token>, stop: set<Token>): seq<Token> {
    if tokens == [] || tokens[0] in stop then [] else [tokens[0]] + CutAtStop(tokens[1..], stop)
  }

  predicate Clean(tokens: seq<Token>, stop: set<Token>) {
    forall i | 0 <= i < |tokens| :: tokens[i] !in stop
  }

  /** What a request for n tokens should return. */
  function Expected(m: Model, ids: seq<Token>, stop: set<Token>, n: int): seq<Token>
    requires ids != []
  {
    CutAtStop(Greedy(m, ids, Clip(n)), stop)
  }

  // ---- Causality: what a position computes depends only on what precedes it ----

  lemma {:induction false} KeysPrefix(m: Model, g: nat, hs: seq<Hidden>, n: nat)
    requires n <= |hs|
    ensures Keys(m, g, hs[..n]) == Keys(m, g, hs)[..n]
  {
  }

  lemma {:induction false} LayerPrefix(m: Model, g: nat, hs: seq<Hidden>, n: nat)
    requires n <= |hs|
    ensures Layer(m, g, hs[..n]) == Layer(m, g, hs)[..n]
  {
    KeysPrefix(m, g, hs, n);
    var ks := Keys(m, g, hs);
    forall i | 0 <= i < n
      ensures Layer(m, g, hs[..n])[i] == Layer(m, g, hs)[i]
    {
      assert ks[..n][..i + 1] == ks[..i + 1];
    }
  }

  lemma {:induction false} PassPrefix(m: Model, lo: nat, hi: nat, hs: seq<Hidden>, n: nat)
    requires n <= |hs|
    ensures Pass(m, lo, hi, hs[..n]) == Pass(m, lo, hi, hs)[..n]
    decreases hi
  {
    if lo < hi {
      PassPrefix(m, lo, hi - 1, hs, n);
      LayerPrefix(m, hi - 1, Pass(m, lo, hi - 1, hs), n);
    }
  }

  lemma {:induction false} PassCompose(m: Model, lo: nat, mid: nat, hi: nat, hs: seq<Hidden>)
    requires lo <= mid <= hi
    ensures Pass(m, mid, hi, Pass(m, lo, mid, hs)) == Pass(m, lo, hi, hs)
    decreases hi
  {
    if mid < hi {
      PassCompose(m, lo, mid, hi - 1, hs);
    }
  }

  lemma PassNothing(m: Model, xs: seq<Hidden>)
    ensures Pass(m, 0, 0, xs) == xs
  {
  }

  lemma EmbedConcat(m: Model, a: seq<Token>, b: seq<Token>)
    ensures Embed(m, a + b) == Embed(m, a) + Embed(m, b)
    ensures Embed(m, a + b)[..|a|] == Embed(m, a)
  {
  }

  // ---- Greedy decoding ----

  lemma {:induction false} GreedyPrefix(m: Model, ids: seq<Token>, k: nat, n: nat)
    requires ids != [] && k <= n
    ensures Greedy(m, ids, n)[..k] == Greedy(m, ids, k)
    decreases n
  {
    hide NextToken;
    if k < n {
      GreedyPrefix(m, ids, k, n - 1);
      assert Greedy(m, ids, n)[..k] == Greedy(m, ids, n - 1)[..k];
    }
  }

  /** Resuming from an already produced prefix continues the same sequence: prefix replay is sound. */
  lemma {:induction false} GreedyResume(m: Model, ids: seq<Token>, done: seq<Token>, n: nat)
    requires ids != [] && done == Greedy(m, ids, |done|)
    ensures done + Greedy(m, ids + done, n) == Greedy(m, ids, |done| + n)
    decreases n
  {
    hide NextToken;
    if n == 0 {
    } else {
      var more := Greedy(m, ids + done, n - 1);
      GreedyResume(m, ids, done, n - 1);
      assert ids + done + more == ids + (done + more);
    }
  }

  lemma {:induction false} CutOfClean(a: seq<Token>, b: seq<Token>, stop: set<Token>)
    requires Clean(a, stop)
    ensures CutAtStop(a + b, stop) == a + CutAtStop(b, stop)
    decreases |a|
  {
    if a == [] {
      assert a + b == b;
    } else {
      assert (a + b)[1..] == a[1..] + b;
      CutOfClean(a[1..], b, stop);
    }
  }

  /** CutAtStop is the longest prefix free of stop tokens. */
  lemma {:induction false} CutIsLongestCleanPrefix(t: seq<Token>, stop: set<Token>)
    ensures var c := CutAtStop(t, stop);
      c <= t && Clean(c, stop) && (|c| < |t| ==> t[|c|] in stop)
  {
    if t != [] && t[0] !in stop {
      CutIsLongestCleanPrefix(t[1..], stop);
      assert t == [t[0]] + t[1..];
    }
  }

  lemma GreedyAt(m: Model, ids: seq<Token>, k: nat, n: nat)
    requires ids != [] && k < n
    ensures Greedy(m, ids, n)[k] == NextToken(m, ids + Greedy(m, ids, k))
  {
    hide NextToken;
    GreedyPrefix(m, ids, k + 1, n);
    assert Greedy(m, ids, n)[k] == Greedy(m, ids, n)[..k + 1][k];
  }

  /** How every generation loop ends: a clean greedy prefix that is long enough, or one whose
      next token is a stop token, is exactly the expected answer. */
  lemma CleanPrefixIsExpected(m: Model, ids: seq<Token>, stop: set<Token>, n: int, t: seq<Token>)
    requires ids != [] && |t| <= Clip(n)
    requires t == Greedy(m, ids, |t|) && Clean(t, stop)
    requires |t| == Clip(n) || NextToken(m, ids + t) in stop
    ensures t == Expected(m, ids, stop, n)
  {
    hide NextToken;
    hide Greedy;
    var all := Greedy(m, ids, Clip(n));
    GreedyPrefix(m, ids, |t|, Clip(n));
    assert all == t + all[|t|..];
    CutOfClean(t, all[|t|..], stop);
    if |t| < Clip(n) {
      GreedyAt(m, ids, |t|, Clip(n));
    }
  }

  /** A clean greedy list no longer than the request is a prefix of the expected answer. */
  lemma CleanIsPrefixOfExpected(m: Model, ids: seq<Token>, stop: set<Token>, n: int, t: seq<Token>)
    requires ids != [] && |t| <= Clip(n)
    requires t == Greedy(m, ids, |t|) && Clean(t, stop)
    ensures t <= Expected(m, ids, stop, n)
  {
    hide NextToken;
    hide Greedy;
    var all := Greedy(m, ids, Clip(n));
    GreedyPrefix(m, ids, |t|, Clip(n));
    assert all == t + all[|t|..];
    CutOfClean(t, all[|t|..], stop);
  }

  lemma {:induction false} PrefixOfExpected(m: Model, ids: seq<Token>, stop: set<Token>, n: int, t: seq<Token>)
    requires ids != [] && t <= Expected(m, ids, stop, n)
    ensures |t| <= Clip(n) && t == Greedy(m, ids, |t|) && Clean(t, stop)
  {
    hide NextToken;
    hide Greedy;
    var all := Greedy(m, ids, Clip(n));
    CutIsLongestCleanPrefix(all, stop);
    assert t == all[..|t|];
    GreedyPrefix(m, ids, |t|, Clip(n));
  }

  // ---- The answer in one formula ----

  /** The head applied to what the whole model makes of the last position. */
  function Picked(m: Model, all: seq<Token>): Token
    requires all != []
  {
    m.head(Pass(m, 0, m.numLayers, Embed(m, all))[|all| - 1])
  }

  /** At most n tokens, each the one picked after all before it and none a stop token; and fewer than n only
      if a stop token would be next. */
  predicate IsAnswer(m: Model, ids: seq<Token>, stop: set<Token>, n: int, tokens: seq<Token>)
    requires ids != []
  {
    && (n >= |tokens| || tokens == [])
    && (forall k | 0 <= k < |tokens| :: tokens[k] !in stop && tokens[k] == Picked(m, ids + tokens[..k]))
    && (|tokens| < n ==> Picked(m, ids + tokens) in stop)
  }

  /** That determines the expected answer. */
  lemma ExpectedIff(m: Model, ids: seq<Token>, stop: set<Token>, n: int, tokens: seq<Token>)
    requires ids != []
    ensures tokens == Expected(m, ids, stop, n) <==> IsAnswer(m, ids, stop, n, tokens)
  {
    if tokens == Expected(m, ids, stop, n) {
      ExpectedIsAnswer(m, ids, stop, n);
    }
    if IsAnswer(m, ids, stop, n, tokens) {
      hide Greedy, Pass, Embed, Expected;
      AnswerIsGreedy(m, ids, stop, n, tokens, |tokens|);
      assert tokens[..|tokens|] == tokens;
      CleanPrefixIsExpected(m, ids, stop, n, tokens);
    }
  }

  lemma ExpectedIsAnswer(m: Model, ids: seq<Token>, stop: set<Token>, n: int)
    requires ids != []
    ensures IsAnswer(m, ids, stop, n, Expected(m, ids, stop, n))
  {
    hide Greedy, Pass, Embed, CutAtStop;
    var tokens, all := Expected(m, ids, stop, n), Greedy(m, ids, Clip(n));
    CutIsLongestCleanPrefix(all, stop);
    forall k | 0 <= k < |tokens|
      ensures tokens[k] == Picked(m, ids + tokens[..k])
    {
      GreedyAt(m, ids, k, Clip(n));
      GreedyPrefix(m, ids, k, Clip(n));
      assert tokens[..k] == all[..k];
    }
    if |tokens| < n {
      GreedyAt(m, ids, |tokens|, Clip(n));
      GreedyPrefix(m, ids, |tokens|, Clip(n));
      assert tokens == all[..|tokens|];
    }
  }

  lemma {:induction false} AnswerIsGreedy(m: Model, ids: seq<Token>, stop: set<Token>, n: int, tokens: seq<Token>, k: nat)
    requires ids != [] && IsAnswer(m, ids, stop, n, tokens) && k <= |tokens|
    ensures tokens[..k] == Greedy(m, ids, k)
  {
    hide Pass, Embed;
    if k > 0 {
      AnswerIsGreedy(m, ids, stop, n, tokens, k - 1);
      assert tokens[..k] == tokens[..k - 1] + [tokens[k - 1]];
    }
  }
}
