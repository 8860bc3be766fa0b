// The stage specification a node is started with, and its textual form "embed,decoder:0-12,head".
module Topology {
  import opened Text

  datatype StageSpec = StageSpec(embed: bool, head: bool, decoders: seq<Range>)

  const NO_STAGES := StageSpec(false, false, [])
  const DECODER := "decoder:"

  /** One comma-separated token taken into the specification; None stands for the ValueError. */
  function Take(out: StageSpec, raw: string): Option<StageSpec> {
    var token := Strip(raw);
    if token == "" then Some(out)
    else if token == "embed" then Some(out.(embed := true))
    else if token == "head" then Some(out.(head := true))
    else if DECODER <= token then
      match ParseKey(token[|DECODER|..])
      case Some(r) => Some(out.(decoders := out.decoders + [r]))
      case None => None
    else None
  }

  function TakeAll(raws: seq<string>): Option<StageSpec> {
    if raws == [] then Some(NO_STAGES)
    else
      var before := TakeAll(raws[..|raws| - 1]);
      if before.None? then None else Take(before.value, raws[|raws| - 1])
  }

  lemma {:induction false} FailsForGood(raws: seq<string>, n: nat)
    requires n <= |raws| && TakeAll(raws[..n]).None?
    ensures TakeAll(raws).None?
    decreases |raws|
  {
    if n < |raws| {
      assert raws[..|raws| - 1][..n] == raws[..n];
      FailsForGood(raws[..|raws| - 1], n);
    } else {
      assert raws[..n] == raws;
    }
  }

  predicate IsBlock(token: string) {
    "decoder:" <= token
  }

  /** The token is "decoder:" and the key of a range. */
  predicate Names(token: string, r: Range) {
    IsBlock(token) && ParseKey(token[8..]) == Some(r)
  }

  predicate Known(token: string) {
    token == "" || token == "embed" || token == "head" || (IsBlock(token) && ParseKey(token[8..]).Some?)
  }

  /** at lists, in order and each once, the positions of the tokens that name a range. */
  predicate RangesAt(raws: seq<string>, ranges: seq<Range>, at: seq<nat>) {
    && |at| == |ranges|
    && (forall k | 0 <= k < |at| :: at[k] < |raws| && Names(Strip(raws[at[k]]), ranges[k]))
    && (forall k, l | 0 <= k < l < |at| :: at[k] < at[l])
    && (forall i: nat | i < |raws| && IsBlock(Strip(raws[i])) :: i in at)
  }

  /** The specification says of the tokens whether "embed" and "head" are among them, and lists the ranges. */
  ghost predicate Reads(raws: seq<string>, spec: StageSpec) {
    && (spec.embed <==> exists i :: 0 <= i < |raws| && Strip(raws[i]) == "embed")
    && (spec.head <==> exists i :: 0 <= i < |raws| && Strip(raws[i]) == "head")
    && exists at :: RangesAt(raws, spec.decoders, at)
  }

  /** Parsing fails exactly if some token, without its surrounding blanks, is none of those known; otherwise
      it reads exactly what the tokens say. */
  lemma {:induction false} ParseMeans(raws: seq<string>)
    ensures TakeAll(raws).Some? <==> forall i | 0 <= i < |raws| :: Known(Strip(raws[i]))
    ensures TakeAll(raws).Some? ==> Reads(raws, TakeAll(raws).value)
  {
    hide Strip, ParseKey, Reads;
    if raws == [] {
      NothingRead();
    } else {
      var n := |raws| - 1;
      ParseMeans(raws[..n]);
      assert forall i | 0 <= i < n :: raws[..n][i] == raws[i];
      if TakeAll(raws[..n]).Some? {
        TakeKnows(TakeAll(raws[..n]).value, raws[n]);
        if Known(Strip(raws[n])) {
          OneMoreRead(raws, TakeAll(raws[..n]).value);
        }
      }
    }
  }

  lemma NothingRead()
    ensures Reads([], NO_STAGES)
  {
    var none: seq<nat> := [];
    assert RangesAt([], [], none);
  }

  lemma TakeKnows(out: StageSpec, raw: string)
    ensures Take(out, raw).Some? <==> Known(Strip(raw))
  {
    hide Strip, ParseKey;
  }

  lemma OneMoreRead(raws: seq<string>, out: StageSpec)
    requires raws != [] && Reads(raws[..|raws| - 1], out) && Take(out, raws[|raws| - 1]).Some?
    ensures Reads(raws, Take(out, raws[|raws| - 1]).value)
  {
    hide Strip, ParseKey, RangesAt;
    var n := |raws| - 1;
    var token, after := Strip(raws[n]), Take(out, raws[n]).value;
    var at :| RangesAt(raws[..n], out.decoders, at);
    MoreRanges(raws, out, at);
    assert forall i | 0 <= i < n :: raws[..n][i] == raws[i];
    assert token == "" || token == "embed" || token == "head" || token[0] == 'd';
  }

  lemma MoreRanges(raws: seq<string>, out: StageSpec, at: seq<nat>)
    requires raws != [] && RangesAt(raws[..|raws| - 1], out.decoders, at) && Take(out, raws[|raws| - 1]).Some?
    ensures var n := |raws| - 1;
      RangesAt(raws, Take(out, raws[n]).value.decoders, if IsBlock(Strip(raws[n])) then at + [n] else at)
  {
    hide Strip, ParseKey, Take, Names, IsBlock, RangesAt;
    var n := |raws| - 1;
    var more := Take(out, raws[n]).value.decoders;
    TakesRange(out, raws[n]);
    if IsBlock(Strip(raws[n])) {
      NextRange(raws, out.decoders, at, more[|more| - 1]);
      assert more == out.decoders + [more[|more| - 1]];
    } else {
      SameRanges(raws, out.decoders, at);
    }
  }

  lemma SameRanges(raws: seq<string>, ranges: seq<Range>, at: seq<nat>)
    requires raws != [] && RangesAt(raws[..|raws| - 1], ranges, at) && !IsBlock(Strip(raws[|raws| - 1]))
    ensures RangesAt(raws, ranges, at)
  {
    hide Strip, Names, IsBlock;
    var early := raws[..|raws| - 1];
    forall i | 0 <= i < |early|
      ensures early[i] == raws[i]
    {
    }
  }

  lemma NextRange(raws: seq<string>, ranges: seq<Range>, at: seq<nat>, r: Range)
    requires raws != [] && RangesAt(raws[..|raws| - 1], ranges, at) && Names(Strip(raws[|raws| - 1]), r)
    ensures RangesAt(raws, ranges + [r], at + [|raws| - 1])
  {
    hide Strip, Names, IsBlock;
    var n := |raws| - 1;
    var early, more, at' := raws[..n], ranges + [r], at + [n];
    forall k | 0 <= k < |at'|
      ensures at'[k] < |raws| && Names(Strip(raws[at'[k]]), more[k])
    {
      assert k < |at| ==> early[at[k]] == raws[at[k]];
    }
    forall i: nat | i < |raws| && IsBlock(Strip(raws[i]))
      ensures i in at'
    {
      if i < n {
        assert early[i] == raws[i] && i in at;
      } else {
        assert at'[|at|] == i;
      }
    }
  }

  lemma TakesRange(out: StageSpec, raw: string)
    requires Take(out, raw).Some?
    ensures var token, more := Strip(raw), Take(out, raw).value.decoders;
      if IsBlock(token) then more != [] && more[..|more| - 1] == out.decoders && Names(token, more[|more| - 1])
      else more == out.decoders
  {
    hide Strip, ParseKey;
    var token := Strip(raw);
    assert DECODER == "decoder:";
    assert "decoder:" <= token ==> token[0] == 'd';
  }

  method ParseStages(spec: string) returns (r: Option<StageSpec>)
    ensures r == TakeAll(Split(spec, ','))
  {
    hide Take;
    var raws := Split(spec, ',');
    var out := NO_STAGES;
    for i := 0 to |raws|
      invariant TakeAll(raws[..i]) == Some(out)
    {
      assert raws[..i + 1][..i] == raws[..i];
      var next := Take(out, raws[i]);
      if next.None? {
        FailsForGood(raws, i + 1);
        return None;
      }
      out := next.value;
    }
    assert raws[..|raws|] == raws;
    return Some(out);
  }

  /** A claim: the ends, and at most one decoder range. */
  datatype Plan = Plan(embed: bool, range: Option<Range>, head: bool)

  function Parts(p: Plan): seq<string> {
    (if p.embed then ["embed"] else [])
    + (if p.range.Some? then [DECODER + Key(p.range.value)] else [])
    + (if p.head then ["head"] else [])
  }

  function Render(p: Plan): string {
    Join(Parts(p), ',')
  }

  function SpecOf(p: Plan): StageSpec {
    StageSpec(p.embed, p.head, if p.range.Some? then [p.range.value] else [])
  }

  lemma KeyHasNoComma(r: Range)
    ensures ',' !in DECODER + Key(r)
  {
  }

  lemma {:induction false} StripDecoder(r: Range)
    ensures Strip(DECODER + Key(r)) == DECODER + Key(r)
  {
    var s := DECODER + Key(r);
    assert s[0] == 'd';
    var d := Print(r.hi);
    assert s[|s| - 1] == d[|d| - 1] && IsDigit(d[|d| - 1]);
  }

  lemma TakeDecoder(out: StageSpec, r: Range)
    ensures Take(out, DECODER + Key(r)) == Some(out.(decoders := out.decoders + [r]))
  {
    hide ParseKey, Strip;
    var token := DECODER + Key(r);
    StripDecoder(r);
    ParseKeyOfKey(r);
    assert token[|DECODER|..] == Key(r);
    assert token[0] == 'd' && DECODER <= token;
  }

  lemma TakeEnds(out: StageSpec)
    ensures Take(out, "embed") == Some(out.(embed := true))
    ensures Take(out, "head") == Some(out.(head := true))
    ensures Take(out, "") == Some(out)
  {
  }

  lemma TakeAllPush(raws: seq<string>, raw: string)
    requires TakeAll(raws).Some?
    ensures TakeAll(raws + [raw]) == Take(TakeAll(raws).value, raw)
  {
    assert (raws + [raw])[..|raws|] == raws;
  }

  lemma TakeParts(p: Plan)
    ensures TakeAll(Parts(p)) == Some(SpecOf(p))
  {
    hide Take, Key, TakeAll;
    var a: seq<string> := if p.embed then ["embed"] else [];
    var b: seq<string> := if p.range.Some? then [DECODER + Key(p.range.value)] else [];
    var c: seq<string> := if p.head then ["head"] else [];
    assert Parts(p) == a + b + c;
    TakeNone();
    if p.embed {
      TakeEnds(NO_STAGES);
      TakeAllPush([], "embed");
      assert [] + ["embed"] == a;
    }
    assert TakeAll(a) == Some(StageSpec(p.embed, false, []));
    TakeBlock(a, p);
    if p.head {
      TakeEnds(TakeAll(a + b).value);
      TakeAllPush(a + b, "head");
    } else {
      assert a + b + c == a + b;
    }
  }

  lemma TakeNone()
    ensures TakeAll([]) == Some(NO_STAGES)
  {
  }

  lemma TakeBlock(a: seq<string>, p: Plan)
    requires TakeAll(a) == Some(StageSpec(p.embed, false, []))
    ensures TakeAll(a + if p.range.Some? then [DECODER + Key(p.range.value)] else []) == Some(SpecOf(p.(head := false)))
  {
    hide Take, Key, TakeAll;
    if p.range.Some? {
      TakeDecoder(TakeAll(a).value, p.range.value);
      TakeAllPush(a, DECODER + Key(p.range.value));
      assert [] + [p.range.value] == [p.range.value];
    } else {
      assert a + [] == a;
    }
  }

  lemma PartsHaveNoComma(p: Plan)
    ensures forall s | s in Parts(p) :: ',' !in s
  {
    hide Key;
    if p.range.Some? {
      KeyHasNoComma(p.range.value);
    }
  }

  /** Parsing what a plan prints gives back exactly the plan, for every plan and all ranges. */
  lemma ParseRendered(p: Plan)
    ensures TakeAll(Split(Render(p), ',')) == Some(SpecOf(p))
  {
    hide Take, Split, Key, Join, Parts;
    TakeParts(p);
    if Parts(p) == [] {
      EmptyRendered();
      TakeEnds(NO_STAGES);
      TakeAllPush([], "");
      assert [] + [""] == [""];
    } else {
      PartsHaveNoComma(p);
      SplitJoin(Parts(p), ',');
    }
  }

  lemma EmptyRendered()
    ensures Split(Join([], ','), ',') == [""]
  {
  }
}
