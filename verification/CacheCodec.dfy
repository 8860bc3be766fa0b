// Serialising a slab's cache as named tensors and reading it back.
module CacheCodec {
  import opened Text
  import opened Transformer
  import opened BlockSpec

  type Tensor = seq<seq<real>>
  type Bytes = map<string, Tensor>

  function KeyName(i: nat): string {
    "key_" + Print(i)
  }

  function ValueName(i: nat): string {
    "value_" + Print(i)
  }

  function KeyTensor(entries: seq<KV>): (t: Tensor)
    ensures |t| == |entries|
  {
    seq(|entries|, i requires 0 <= i < |entries| => entries[i].key)
  }

  function ValueTensor(entries: seq<KV>): (t: Tensor)
    ensures |t| == |entries|
  {
    seq(|entries|, i requires 0 <= i < |entries| => entries[i].value)
  }

  function Zip(ks: Tensor, vs: Tensor): seq<KV>
    requires |ks| == |vs|
  {
    seq(|ks|, i requires 0 <= i < |ks| => KV(ks[i], vs[i]))
  }

  function Names(n: nat): set<string> {
    if n == 0 then {} else Names(n - 1) + {KeyName(n - 1), ValueName(n - 1)}
  }

  predicate EncodesLayer(b: Bytes, i: nat, entries: seq<KV>) {
    && KeyName(i) in b && b[KeyName(i)] == KeyTensor(entries)
    && ValueName(i) in b && b[ValueName(i)] == ValueTensor(entries)
  }

  /** One key tensor and one value tensor per layer, and nothing else. */
  predicate Encodes(b: Bytes, c: Cache) {
    && b.Keys == Names(|c|)
    && |b| == 2 * |c|
    && (forall i | 0 <= i < |c| :: EncodesLayer(b, i, c[i]))
  }

  lemma NamesDiffer(i: nat, j: nat)
    ensures KeyName(i) != ValueName(j)
    ensures i != j ==> KeyName(i) != KeyName(j) && ValueName(i) != ValueName(j)
  {
    assert KeyName(i)[0] != ValueName(j)[0];
    if KeyName(i) == KeyName(j) {
      PrefixedPrintInjective("key_", i, j);
    }
    if ValueName(i) == ValueName(j) {
      PrefixedPrintInjective("value_", i, j);
    }
  }

  lemma {:induction false} NamesFresh(n: nat, i: nat)
    requires n <= i
    ensures KeyName(i) !in Names(n) && ValueName(i) !in Names(n)
  {
    hide KeyName, ValueName;
    if n > 0 {
      NamesFresh(n - 1, i);
      NamesDiffer(i, n - 1);
      NamesDiffer(n - 1, i);
    }
  }

  lemma TwoMore(b: Bytes, k: string, v: string, x: Tensor, y: Tensor, b': Bytes)
    requires k !in b && v !in b && k != v && b' == b[k := x][v := y]
    ensures b'.Keys == b.Keys + {k, v} && |b'| == |b| + 2
    ensures b'[k] == x && b'[v] == y && forall n | n in b :: b'[n] == b[n]
  {
    assert |b'.Keys| == |b.Keys| + 2;
  }

  lemma EncodesOneMore(b: Bytes, c: Cache, i: nat, b': Bytes)
    requires i < |c| && Encodes(b, c[..i])
    requires b'.Keys == b.Keys + {KeyName(i), ValueName(i)} && |b'| == |b| + 2
    requires EncodesLayer(b', i, c[i]) && forall n | n in b :: b'[n] == b[n]
    ensures Encodes(b', c[..i + 1])
  {
    hide KeyName, ValueName, KeyTensor, ValueTensor;
    forall j | 0 <= j < i
      ensures EncodesLayer(b', j, c[j])
    {
      assert EncodesLayer(b, j, c[..i][j]);
    }
  }

  lemma EncodeLayer(b: Bytes, c: Cache, i: nat, b': Bytes)
    requires i < |c| && Encodes(b, c[..i])
    requires b' == b[KeyName(i) := KeyTensor(c[i])][ValueName(i) := ValueTensor(c[i])]
    ensures Encodes(b', c[..i + 1])
  {
    hide KeyName, ValueName, KeyTensor, ValueTensor;
    NamesFresh(i, i);
    NamesDiffer(i, i);
    TwoMore(b, KeyName(i), ValueName(i), KeyTensor(c[i]), ValueTensor(c[i]), b');
    EncodesOneMore(b, c, i, b');
  }

  /** The tensors of a layer, named after their kind and the layer, hold its keys and its values in order. */
  predicate Named(b: Bytes, i: nat, entries: seq<KV>) {
    var key, value := "key_" + Print(i), "value_" + Print(i);
    && key in b && value in b && |b[key]| == |b[value]| == |entries|
    && forall p | 0 <= p < |entries| :: b[key][p] == entries[p].key && b[value][p] == entries[p].value
  }

  lemma EncodedNames(b: Bytes, c: Cache)
    requires Encodes(b, c)
    ensures forall i | 0 <= i < |c| :: Named(b, i, c[i])
  {
    hide Print;
    forall i | 0 <= i < |c|
      ensures Named(b, i, c[i])
    {
      assert EncodesLayer(b, i, c[i]);
    }
  }

  method CacheToBytes(c: Cache) returns (b: Bytes)
    ensures Encodes(b, c)
    ensures forall i | 0 <= i < |c| :: Named(b, i, c[i])
  {
    b := map[];
    for i := 0 to |c|
      invariant Encodes(b, c[..i])
    {
      ghost var before := b;
      b := b[KeyName(i) := KeyTensor(c[i])];
      b := b[ValueName(i) := ValueTensor(c[i])];
      EncodeLayer(before, c, i, b);
    }
    assert c[..|c|] == c;
    EncodedNames(b, c);
  }

  predicate Readable(b: Bytes, n: nat) {
    forall i | 0 <= i < n ::
      KeyName(i) in b && ValueName(i) in b && |b[KeyName(i)]| == |b[ValueName(i)]|
  }

  /** None where a named tensor is missing. */
  function CacheFromBytes(b: Bytes): Option<Cache> {
    var n := |b| / 2;
    if Readable(b, n) then
      Some(seq(n, i requires 0 <= i < n && Readable(b, n) => Zip(b[KeyName(i)], b[ValueName(i)])))
    else None
  }

  lemma ZipTensors(entries: seq<KV>)
    ensures Zip(KeyTensor(entries), ValueTensor(entries)) == entries
  {
  }

  /** Reading back what was written gives the same cache: the round trip is lossless. */
  lemma DecodeEncoded(b: Bytes, c: Cache)
    requires Encodes(b, c)
    ensures CacheFromBytes(b) == Some(c)
  {
    hide KeyName, ValueName, KeyTensor, ValueTensor, Zip;
    assert |b| / 2 == |c|;
    forall i | 0 <= i < |c|
      ensures KeyName(i) in b && ValueName(i) in b && |b[KeyName(i)]| == |b[ValueName(i)]|
      ensures Zip(b[KeyName(i)], b[ValueName(i)]) == c[i]
    {
      assert EncodesLayer(b, i, c[i]);
      ZipTensors(c[i]);
    }
    assert CacheFromBytes(b).value == c;
  }
}
