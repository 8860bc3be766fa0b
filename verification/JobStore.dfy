// The durable job log: one row per job, tokens appended by position.
module JobStore {
  import opened Text

  datatype Status = RUNNING | WAITING_COVERAGE | DONE | FAILED | INTERRUPTED

  datatype Row = Row(modelId: string, status: Status, prompt: string, promptLen: nat, position: nat,
                     tokens: seq<int>, result: Option<string>, finishReason: Option<string>, error: Option<string>)

  /** The stored tokens after token arrives for a position: rewritten in place, appended, or ignored. */
  function Appended(tokens: seq<int>, token: int, position: nat): seq<int> {
    if position < |tokens| then tokens[position := token]
    else if position == |tokens| then tokens + [token]
    else tokens
  }

  /** Exactly when a list that follows ref still follows it after one more write: the write is ahead of
      the list, or it carries ref's own token. */
  lemma AppendFollowsIff(tokens: seq<int>, ref: seq<int>, token: int, position: nat)
    requires tokens <= ref
    ensures Appended(tokens, token, position) <= ref <==>
      position > |tokens| || (position < |ref| && ref[position] == token)
  {
    var after := Appended(tokens, token, position);
    if after <= ref && position <= |tokens| {
      assert after[position] == token;
      assert ref[..|after|][position] == ref[position];
    }
    if position < |ref| && ref[position] == token && position <= |tokens| {
      forall i | 0 <= i < |after|
        ensures after[i] == ref[i]
      {
      }
    }
  }

  /** What may happen to a row during generation: a write that arrives, or one that is lost. */
  datatype Event = Write(position: nat, token: int) | Lost

  function Replay(tokens: seq<int>, events: seq<Event>): seq<int> {
    if events == [] then tokens
    else
      var before := Replay(tokens, events[..|events| - 1]);
      match events[|events| - 1]
      case Write(position, token) => Appended(before, token, position)
      case Lost => before
  }

  predicate Follow(events: seq<Event>, ref: seq<int>) {
    forall i | 0 <= i < |events| && events[i].Write? ::
      events[i].position < |ref| && ref[events[i].position] == events[i].token
  }

  /** In any order, with any repetition and loss, writes that follow one sequence never rewrite a token:
      the stored list only grows, and stays a prefix of that sequence. */
  lemma {:induction false} ReplayNeverRewrites(tokens: seq<int>, events: seq<Event>, ref: seq<int>)
    requires tokens <= ref && Follow(events, ref)
    ensures tokens <= Replay(tokens, events) <= ref
  {
    if events != [] {
      var n := |events| - 1;
      assert Follow(events[..n], ref) by {
        assert forall i | 0 <= i < n :: events[..n][i] == events[i];
      }
      ReplayNeverRewrites(tokens, events[..n], ref);
      var before := Replay(tokens, events[..n]);
      if events[n].Write? {
        AppendFollowsIff(before, ref, events[n].token, events[n].position);
        GrowsOrKeeps(before, ref, events[n].token, events[n].position);
      }
    }
  }

  lemma GrowsOrKeeps(tokens: seq<int>, ref: seq<int>, token: int, position: nat)
    requires tokens <= ref && position < |ref| && ref[position] == token
    ensures tokens <= Appended(tokens, token, position)
  {
    if position < |tokens| {
      assert tokens[position] == ref[position];
      assert tokens[position := token] == tokens;
    }
  }

  /** Writing ref's tokens in order, from any position already reached on, completes the list. */
  lemma {:induction false} ReplayInOrderCompletes(tokens: seq<int>, ref: seq<int>, from: nat, events: seq<Event>)
    requires tokens <= ref && from <= |tokens| && |events| <= |ref| - from
    requires forall i | 0 <= i < |events| :: events[i] == Write(from + i, ref[from + i])
    ensures var r := Replay(tokens, events);
      r <= ref && |r| == if from + |events| < |tokens| then |tokens| else from + |events|
  {
    if events != [] {
      var n := |events| - 1;
      assert forall i | 0 <= i < n :: events[..n][i] == events[i];
      ReplayInOrderCompletes(tokens, ref, from, events[..n]);
      AppendFollowsIff(Replay(tokens, events[..n]), ref, ref[from + n], from + n);
    }
  }

  // ---- Any writes at all ----

  predicate WritesAt(events: seq<Event>, position: nat) {
    exists i :: 0 <= i < |events| && events[i].Write? && events[i].position == position
  }

  /** A position nobody writes keeps its token, and none is ever taken away. */
  lemma {:induction false} UnwrittenStays(tokens: seq<int>, events: seq<Event>, position: nat)
    requires position < |tokens| && !WritesAt(events, position)
    ensures position < |Replay(tokens, events)| && Replay(tokens, events)[position] == tokens[position]
  {
    if events != [] {
      var n := |events| - 1;
      assert !WritesAt(events[..n], position) by {
        assert forall i | 0 <= i < n :: events[..n][i] == events[i];
      }
      UnwrittenStays(tokens, events[..n], position);
    }
  }

  lemma {:induction false} ReplayOn(tokens: seq<int>, first: seq<Event>, rest: seq<Event>)
    ensures Replay(tokens, first + rest) == Replay(Replay(tokens, first), rest)
  {
    if rest == [] {
      assert first + rest == first;
    } else {
      var n := |rest| - 1;
      assert (first + rest)[..|first| + n] == first + rest[..n];
      ReplayOn(tokens, first, rest[..n]);
    }
  }

  /** The last write to a position stands, whatever is written elsewhere, provided it was not ahead of the
      list when it came; a write that was ahead leaves no trace. */
  lemma LastWriteStands(tokens: seq<int>, events: seq<Event>, k: nat)
    requires k < |events| && events[k].Write? && !WritesAt(events[k + 1..], events[k].position)
    ensures var before, r, position := Replay(tokens, events[..k]), Replay(tokens, events), events[k].position;
      if position <= |before| then position < |r| && r[position] == events[k].token
      else r == Replay(tokens, events[..k] + events[k + 1..])
  {
    hide WritesAt;
    var position := events[k].position;
    var after := Replay(tokens, events[..k + 1]);
    assert events[..k + 1][..k] == events[..k];
    assert events == events[..k + 1] + events[k + 1..];
    ReplayOn(tokens, events[..k + 1], events[k + 1..]);
    ReplayOn(tokens, events[..k], events[k + 1..]);
    if position < |after| {
      UnwrittenStays(after, events[k + 1..], position);
    }
  }

  function TokensIn(rows: map<string, Row>, job: string): seq<int> {
    if job in rows then rows[job].tokens else []
  }

  class JobStore {
    var rows: map<string, Row>
    ghost var lost: nat                 // reads and writes that raised and were only logged

    /** The position column always is the number of stored tokens. */
    ghost predicate Valid()
      reads this
    {
      forall j | j in rows :: rows[j].position == |rows[j].tokens|
    }

    function Tokens(job: string): seq<int>
      reads this
    {
      TokensIn(rows, job)
    }

    constructor ()
      ensures Valid() && rows == map[] && lost == 0
    {
      rows, lost := map[], 0;
    }

    /** What raises changes no row: durability is best effort. */
    ghost method Lose()
      modifies `lost
      ensures lost == old(lost) + 1
    {
      lost := lost + 1;
    }

    /** A running row with nothing produced yet; a row of that id is replaced. */
    method CreateJob(job: string, modelId: string, prompt: string, promptLen: nat)
      requires Valid()
      modifies `rows
      ensures Valid()
      ensures rows == old(rows)[job := Row(modelId, RUNNING, prompt, promptLen, 0, [], None, None, None)]
    {
      rows := rows[job := Row(modelId, RUNNING, prompt, promptLen, 0, [], None, None, None)];
    }

    /** Idempotent on (position, token); beyond the next position the write is ignored. */
    method AppendToken(job: string, token: int, position: nat)
      requires Valid()
      modifies `rows
      ensures Valid() && rows.Keys == old(rows.Keys)
      ensures job in rows ==> Tokens(job) == Appended(old(Tokens(job)), token, position)
      ensures job in rows && position <= old(|Tokens(job)|) ==>
        && |Tokens(job)| == (if position < old(|Tokens(job)|) then old(|Tokens(job)|) else position + 1)
        && Tokens(job)[position] == token
        && forall i | 0 <= i < old(|Tokens(job)|) && i != position :: Tokens(job)[i] == old(Tokens(job))[i]
      ensures forall j | j in rows :: rows[j] == if j == job
                then old(rows)[j].(tokens := Tokens(job), position := |Tokens(job)|) else old(rows)[j]
    {
      if job !in rows {
        return;
      }
      var toks := rows[job].tokens;
      if position < |toks| {
        if toks[position] == token {
          assert toks[position := token] == toks;
          return;
        }
        toks := toks[position := token];
      } else if position == |toks| {
        toks := toks + [token];
      } else {
        return;
      }
      rows := rows[job := rows[job].(tokens := toks, position := |toks|)];
    }

    method ResetProgress(job: string)
      requires Valid()
      modifies `rows
      ensures Valid() && Tokens(job) == []
      ensures rows == if job in old(rows) then old(rows)[job := old(rows)[job].(tokens := [], position := 0)] else old(rows)
    {
      if job in rows {
        rows := rows[job := rows[job].(tokens := [], position := 0)];
      }
    }

    method Finish(job: string, result: string, finishReason: string)
      requires Valid()
      modifies `rows
      ensures Valid()
      ensures rows == if job in old(rows)
        then old(rows)[job := old(rows)[job].(status := DONE, result := Some(result), finishReason := Some(finishReason))]
        else old(rows)
    {
      if job in rows {
        rows := rows[job := rows[job].(status := DONE, result := Some(result), finishReason := Some(finishReason))];
      }
    }

    method Fail(job: string, error: string)
      requires Valid()
      modifies `rows
      ensures Valid()
      ensures rows == if job in old(rows)
        then old(rows)[job := old(rows)[job].(status := FAILED, error := Some(error))] else old(rows)
    {
      if job in rows {
        rows := rows[job := rows[job].(status := FAILED, error := Some(error))];
      }
    }

    method SetStatus(job: string, status: Status)
      requires Valid()
      modifies `rows
      ensures Valid()
      ensures rows == if job in old(rows) then old(rows)[job := old(rows)[job].(status := status)] else old(rows)
    {
      if job in rows {
        rows := rows[job := rows[job].(status := status)];
      }
    }

    /** At startup every job that was still active is marked interrupted; the tokens stay. */
    method Recover() returns (rowcount: nat)
      requires Valid()
      modifies `rows
      ensures Valid() && rows.Keys == old(rows.Keys)
      ensures rowcount == |set j | j in old(rows) && old(rows)[j].status in {RUNNING, WAITING_COVERAGE}|
      ensures forall j | j in rows :: rows[j] ==
                if old(rows)[j].status in {RUNNING, WAITING_COVERAGE} then old(rows)[j].(status := INTERRUPTED)
                else old(rows)[j]
      ensures forall j | j in rows :: rows[j].status !in {RUNNING, WAITING_COVERAGE}
    {
      var active := set j | j in rows && rows[j].status in {RUNNING, WAITING_COVERAGE};
      rows := map j | j in rows :: if j in active then rows[j].(status := INTERRUPTED) else rows[j];
      rowcount := |active|;
    }

    method GetJob(job: string) returns (row: Option<Row>)
      ensures row == if job in rows then Some(rows[job]) else None
    {
      row := if job in rows then Some(rows[job]) else None;
    }
  }
}
