// The coordinator as a concurrent state machine: connections, calls waiting for replies, load and
// reputation, interleaved at the points where a request waits.
module CoordinatorState {
  import opened Text
  import opened Workers

  const REP_INITIAL := 1.0
  const REP_REWARD := 0.5
  const REP_PENALTY := 2.0
  const REP_MIN := 0.0
  const REP_MAX := 10.0

  /** A future awaited by one call. */
  datatype Future = Unresolved | Result(reply: string) | Error

  datatype Conn = Conn(pending: set<string>, load: int, reputation: real)

  /** waiting maps the request id of every call still inside its await to the connection it called;
      attempts holds the nodes of every generation attempt in flight. */
  datatype State = State(conns: map<string, Conn>, futures: map<string, Future>,
                         waiting: map<string, string>, attempts: map<nat, set<string>>, next: nat)

  datatype Ending = Success | NodeFailure(id: string) | Aborted

  datatype Action =
    | Accept                                      // a node connects and announces itself
    | BeginCall(id: string)                       // a hop is sent to a connection
    | SendFails(rid: string)                      // sending raised
    | Reply(id: string, rid: string, body: string)  // a message arrives on a connection
    | Resume(rid: string)                         // a call whose future is resolved goes on
    | Disconnect(id: string)
    | BeginAttempt(a: nat, chain: set<string>)
    | EndAttempt(a: nat, ending: Ending)

  function ConnName(k: nat): string {
    JobName("c", k)
  }

  function RequestName(k: nat): string {
    JobName("r", k)
  }

  function Clamp(load: int): int {
    if load < 0 then 0 else load
  }

  function Rewarded(reputation: real): real {
    if reputation + REP_REWARD < REP_MAX then reputation + REP_REWARD else REP_MAX
  }

  function Penalised(reputation: real): real {
    if reputation - REP_PENALTY > REP_MIN then reputation - REP_PENALTY else REP_MIN
  }

  /** What an attempt's end does to the reputation of one connection. */
  function Rated(id: string, c: Conn, chain: set<string>, ending: Ending): Conn {
    match ending
    case Success => if id in chain then c.(reputation := Rewarded(c.reputation)) else c
    case NodeFailure(bad) => if id == bad then c.(reputation := Penalised(c.reputation)) else c
    case Aborted => c
  }

  function Released(id: string, c: Conn, chain: set<string>): Conn {
    if id in chain then c.(load := Clamp(c.load - 1)) else c
  }

  /** Reputation changes first, then the load taken at the start is given back. */
  function Settled(id: string, c: Conn, chain: set<string>, ending: Ending): Conn {
    Released(id, Rated(id, c, chain, ending), chain)
  }

  function Failed(futures: map<string, Future>, rids: set<string>): map<string, Future> {
    map r | r in futures :: if r in rids && futures[r] == Unresolved then Error else futures[r]
  }

  /** Whether an action can happen: an attempt starts on a chain of live connections, and calls and
      attempts end once. */
  predicate Enabled(s: State, a: Action) {
    match a
    case SendFails(rid) => rid in s.waiting
    case Resume(rid) => rid in s.waiting && rid in s.futures && s.futures[rid] != Unresolved
    case BeginAttempt(n, chain) => n !in s.attempts && chain <= s.conns.Keys
    case EndAttempt(n, _) => n in s.attempts
    case _ => true
  }

  function Next(s: State, a: Action): State
    requires Enabled(s, a)
  {
    match a
    case Accept =>
      s.(conns := s.conns[ConnName(s.next) := Conn({}, 0, REP_INITIAL)], next := s.next + 1)
    case BeginCall(id) =>
      if id !in s.conns then s
      else
        var rid := RequestName(s.next);
        s.(conns := s.conns[id := s.conns[id].(pending := s.conns[id].pending + {rid})],
           futures := s.futures[rid := Unresolved], waiting := s.waiting[rid := id], next := s.next + 1)
    case SendFails(rid) => s.(waiting := s.waiting - {rid})
    case Reply(id, rid, body) =>
      if id !in s.conns || rid !in s.conns[id].pending then s
      else
        s.(conns := s.conns[id := s.conns[id].(pending := s.conns[id].pending - {rid})],
           futures := if rid in s.futures && s.futures[rid] == Unresolved
                      then s.futures[rid := Result(body)] else s.futures)
    case Resume(rid) => s.(waiting := s.waiting - {rid})
    case Disconnect(id) =>
      if id !in s.conns then s
      else s.(conns := s.conns - {id}, futures := Failed(s.futures, s.conns[id].pending))
    case BeginAttempt(n, chain) =>
      s.(conns := map c | c in s.conns :: if c in chain then s.conns[c].(load := s.conns[c].load + 1) else s.conns[c],
         attempts := s.attempts[n := chain])
    case EndAttempt(n, ending) =>
      s.(conns := map c | c in s.conns :: Settled(c, s.conns[c], s.attempts[n], ending),
         attempts := s.attempts - {n})
  }

  // ---- The invariant ----

  /** The attempts in flight whose chain contains a connection. */
  function AttemptsOn(attempts: map<nat, set<string>>, id: string): set<nat> {
    set n | n in attempts && id in attempts[n]
  }

  predicate LoadsRight(s: State) {
    forall c | c in s.conns :: s.conns[c].load == |AttemptsOn(s.attempts, c)|
  }

  predicate ReputationsInRange(s: State) {
    forall c | c in s.conns :: REP_MIN <= s.conns[c].reputation <= REP_MAX
  }

  /** A call that still waits without a result is pending on a live connection. */
  predicate NoneHangs(s: State) {
    forall r | r in s.waiting ::
      r in s.futures && (s.futures[r] == Unresolved ==> s.waiting[r] in s.conns && r in s.conns[s.waiting[r]].pending)
  }

  /** A request is pending on at most one connection, and is unresolved while it is. */
  predicate PendingRight(s: State) {
    && (forall c, r | c in s.conns && r in s.conns[c].pending :: r in s.futures && s.futures[r] == Unresolved)
    && (forall c, d, r | c in s.conns && d in s.conns && r in s.conns[c].pending && r in s.conns[d].pending :: c == d)
  }

  /** Names in use have been handed out. */
  predicate NamesIssued(s: State) {
    && (forall c | c in s.conns :: !Reserved(c, "c", s.next))
    && (forall n, c | n in s.attempts && c in s.attempts[n] :: !Reserved(c, "c", s.next))
    && (forall r | r in s.futures :: !Reserved(r, "r", s.next))
  }

  predicate Inv(s: State) {
    LoadsRight(s) && ReputationsInRange(s) && NoneHangs(s) && PendingRight(s) && NamesIssued(s)
  }

  predicate Start(s: State) {
    s.conns == map[] && s.futures == map[] && s.waiting == map[] && s.attempts == map[]
  }

  lemma NamesStayIssued(s: State, t: State)
    requires NamesIssued(s) && s.next <= t.next <= s.next + 1
    requires forall c | c in t.conns && c !in s.conns :: !Reserved(c, "c", t.next)
    requires forall n, c | n in t.attempts && c in t.attempts[n] :: c in s.conns || (n in s.attempts && c in s.attempts[n])
    requires forall r | r in t.futures && r !in s.futures :: !Reserved(r, "r", t.next)
    ensures NamesIssued(t)
  {
    hide Reserved;
    forall id: string, prefix: string | !Reserved(id, prefix, s.next)
      ensures !Reserved(id, prefix, t.next)
    {
      if t.next == s.next + 1 {
        StillIssued(id, prefix, s.next, t.next);
      }
    }
  }

  lemma FreshNames(s: State)
    requires NamesIssued(s)
    ensures ConnName(s.next) !in s.conns && AttemptsOn(s.attempts, ConnName(s.next)) == {}
    ensures RequestName(s.next) !in s.futures
    ensures !Reserved(ConnName(s.next), "c", s.next + 1) && !Reserved(RequestName(s.next), "r", s.next + 1)
  {
    LaterNamesAreReserved("c", s.next, s.next);
    LaterNamesAreReserved("c", s.next, s.next + 1);
    LaterNamesAreReserved("r", s.next, s.next);
    LaterNamesAreReserved("r", s.next, s.next + 1);
  }

  lemma AcceptKeeps(s: State)
    requires Inv(s)
    ensures Inv(Next(s, Accept))
  {
    hide Reserved, ConnName, AttemptsOn, NamesIssued;
    FreshNames(s);
    NamesStayIssued(s, Next(s, Accept));
  }

  lemma BeginCallIsPending(s: State, id: string)
    requires Inv(s)
    ensures PendingRight(Next(s, BeginCall(id))) && NoneHangs(Next(s, BeginCall(id)))
  {
    hide Reserved, RequestName, NamesIssued, LoadsRight, ReputationsInRange;
    FreshNames(s);
  }

  lemma BeginCallKeeps(s: State, id: string)
    requires Inv(s)
    ensures Inv(Next(s, BeginCall(id)))
  {
    hide Reserved, RequestName, AttemptsOn, NamesIssued, PendingRight, NoneHangs;
    FreshNames(s);
    NamesStayIssued(s, Next(s, BeginCall(id)));
    BeginCallIsPending(s, id);
  }

  /** Attempts touch neither calls nor futures. */
  lemma CallsUntouched(s: State, t: State)
    requires PendingRight(s) && NoneHangs(s) && t.futures == s.futures && t.waiting == s.waiting
    requires t.conns.Keys == s.conns.Keys && forall c | c in s.conns :: t.conns[c].pending == s.conns[c].pending
    ensures PendingRight(t) && NoneHangs(t)
  {
  }

  lemma ReplyKeeps(s: State, id: string, rid: string, body: string)
    requires Inv(s)
    ensures Inv(Next(s, Reply(id, rid, body)))
  {
    hide Reserved, AttemptsOn;
  }

  lemma EndCallKeeps(s: State, a: Action)
    requires Inv(s) && Enabled(s, a) && (a.SendFails? || a.Resume?)
    ensures Inv(Next(s, a))
  {
    hide Reserved, AttemptsOn;
  }

  lemma DisconnectKeeps(s: State, id: string)
    requires Inv(s)
    ensures Inv(Next(s, Disconnect(id)))
  {
    hide Reserved, AttemptsOn;
  }

  lemma OneMore(attempts: map<nat, set<string>>, n: nat, chain: set<string>, id: string)
    requires n !in attempts
    ensures |AttemptsOn(attempts[n := chain], id)| == |AttemptsOn(attempts, id)| + (if id in chain then 1 else 0)
  {
    var more := AttemptsOn(attempts[n := chain], id);
    assert more == AttemptsOn(attempts, id) + (if id in chain then {n} else {});
  }

  lemma BeginAttemptKeeps(s: State, n: nat, chain: set<string>)
    requires Inv(s) && Enabled(s, BeginAttempt(n, chain))
    ensures Inv(Next(s, BeginAttempt(n, chain)))
  {
    hide Reserved, AttemptsOn, NamesIssued, PendingRight, NoneHangs;
    var t := Next(s, BeginAttempt(n, chain));
    CallsUntouched(s, t);
    forall c | c in t.conns
      ensures t.conns[c].load == |AttemptsOn(t.attempts, c)|
    {
      OneMore(s.attempts, n, chain, c);
    }
    NamesStayIssued(s, t);
  }

  /** The load of a node in a chain in flight is at least one: giving it back never goes below zero. */
  lemma ClampNeverActs(s: State, n: nat, id: string)
    requires Inv(s) && n in s.attempts && id in s.attempts[n] && id in s.conns
    ensures s.conns[id].load >= 1
    ensures |AttemptsOn(s.attempts - {n}, id)| == |AttemptsOn(s.attempts, id)| - 1
  {
    assert n in AttemptsOn(s.attempts, id);
    assert AttemptsOn(s.attempts - {n}, id) == AttemptsOn(s.attempts, id) - {n};
  }

  lemma EndAttemptKeeps(s: State, n: nat, ending: Ending)
    requires Inv(s) && n in s.attempts
    ensures Inv(Next(s, EndAttempt(n, ending)))
  {
    hide Reserved, AttemptsOn, NamesIssued, PendingRight, NoneHangs;
    var t := Next(s, EndAttempt(n, ending));
    CallsUntouched(s, t);
    forall c | c in t.conns
      ensures t.conns[c].load == |AttemptsOn(t.attempts, c)|
    {
      if c in s.attempts[n] {
        ClampNeverActs(s, n, c);
      } else {
        NotOn(s.attempts, n, c);
      }
    }
    NamesStayIssued(s, t);
  }

  lemma NotOn(attempts: map<nat, set<string>>, n: nat, id: string)
    requires n in attempts && id !in attempts[n]
    ensures AttemptsOn(attempts - {n}, id) == AttemptsOn(attempts, id)
  {
  }

  lemma NextKeepsInv(s: State, a: Action)
    requires Inv(s) && Enabled(s, a)
    ensures Inv(Next(s, a))
  {
    hide Inv, Next;
    match a
    case Accept => AcceptKeeps(s);
    case BeginCall(id) => BeginCallKeeps(s, id);
    case Reply(id, rid, body) => ReplyKeeps(s, id, rid, body);
    case SendFails(_) => EndCallKeeps(s, a);
    case Resume(_) => EndCallKeeps(s, a);
    case Disconnect(id) => DisconnectKeeps(s, id);
    case BeginAttempt(n, chain) => BeginAttemptKeeps(s, n, chain);
    case EndAttempt(n, ending) => EndAttemptKeeps(s, n, ending);
  }

  /** States one after the other, each by some possible action. */
  ghost predicate Run(states: seq<State>, actions: seq<Action>) {
    && |states| == |actions| + 1
    && forall i | 0 <= i < |actions| :: StepAt(states, actions, i)
  }

  ghost predicate StepAt(states: seq<State>, actions: seq<Action>, i: nat)
    requires |states| == |actions| + 1 && i < |actions|
  {
    Enabled(states[i], actions[i]) && states[i + 1] == Next(states[i], actions[i])
  }

  /** In every interleaving, at every moment: each live connection's load is the number of attempts in
      flight on it, reputations stay in range, and every call that waits without a result is pending on
      a live connection. */
  lemma {:induction false} EveryInterleaving(states: seq<State>, actions: seq<Action>, k: nat)
    requires Run(states, actions) && Start(states[0]) && k < |states|
    ensures Inv(states[k])
  {
    hide Next;
    if k == 0 {
      hide Reserved;
    } else {
      EveryInterleaving(states, actions, k - 1);
      assert StepAt(states, actions, k - 1);
      NextKeepsInv(states[k - 1], actions[k - 1]);
    }
  }

  // ---- What changes, and by which action ----

  /** Reputations only change when an attempt ends: a success raises that of each node of its chain by 0.5,
      up to 10, and a failure lowers that of the failing node alone by 2, down to 0. */
  lemma ReputationChanges(s: State, a: Action, id: string)
    requires Inv(s) && Enabled(s, a) && id in s.conns && id in Next(s, a).conns
    ensures var before, after := s.conns[id].reputation, Next(s, a).conns[id].reputation;
      if a.EndAttempt? && a.ending == Success && id in s.attempts[a.a] then
        before <= after && after == if before > 9.5 then 10.0 else before + 0.5
      else if a.EndAttempt? && a.ending == NodeFailure(id) then
        after <= before && after == if before < 2.0 then 0.0 else before - 2.0
      else after == before
  {
    hide Reserved, AttemptsOn, ConnName, NoneHangs, PendingRight, LoadsRight;
    if a.Accept? {
      FreshNames(s);
    }
  }

  /** The load of a node counts up when an attempt on it begins and down when one ends, and at no other time. */
  lemma LoadChanges(s: State, a: Action, id: string)
    requires Inv(s) && Enabled(s, a) && id in s.conns && id in Next(s, a).conns
    ensures Next(s, a).conns[id].load - s.conns[id].load ==
      if a.BeginAttempt? && id in a.chain then 1
      else if a.EndAttempt? && id in s.attempts[a.a] then -1
      else 0
  {
    hide Reserved, AttemptsOn, ConnName, NoneHangs, PendingRight, Rated;
    if a.Accept? {
      FreshNames(s);
    } else if a.EndAttempt? && id in s.attempts[a.a] {
      ClampNeverActs(s, a.a, id);
      RatedKeepsLoad(id, s.conns[id], s.attempts[a.a], a.ending);
    } else if a.EndAttempt? {
      RatedKeepsLoad(id, s.conns[id], s.attempts[a.a], a.ending);
    }
  }

  lemma RatedKeepsLoad(id: string, c: Conn, chain: set<string>, ending: Ending)
    ensures Rated(id, c, chain, ending).load == c.load && Rated(id, c, chain, ending).pending == c.pending
  {
  }

  /** An attempt is in flight, with its chain, from its beginning to its end. */
  lemma AttemptChanges(s: State, a: Action, n: nat)
    requires Enabled(s, a)
    ensures var t := Next(s, a);
      if a.BeginAttempt? && a.a == n then n in t.attempts && t.attempts[n] == a.chain
      else if a.EndAttempt? && a.a == n then n !in t.attempts
      else (n in t.attempts <==> n in s.attempts) && (n in s.attempts ==> t.attempts[n] == s.attempts[n])
  {
    hide Settled, Failed;
  }

  /** A node is connected from the moment it is accepted, with nothing pending, no load and reputation 1, until
      it disconnects. */
  lemma ConnectionChanges(s: State, a: Action, id: string)
    requires Inv(s) && Enabled(s, a)
    ensures var t := Next(s, a);
      && (id in s.conns && id !in t.conns <==> id in s.conns && a == Disconnect(id))
      && (id !in s.conns && id in t.conns <==> a == Accept && id == "c" + Print(s.next))
      && (id !in s.conns && id in t.conns ==> t.conns[id] == Conn({}, 0, 1.0))
  {
    hide Reserved, AttemptsOn, Settled, Failed, Print;
    FreshNames(s);
  }

  /** A call is pending on its connection from the moment it is sent until it is answered or the connection
      is lost; sent means that it waits, unresolved. */
  lemma PendingChanges(s: State, a: Action, id: string, rid: string)
    requires Inv(s) && Enabled(s, a) && id in s.conns && id in Next(s, a).conns
    ensures var t := Next(s, a);
      && (rid !in s.conns[id].pending && rid in t.conns[id].pending <==> a == BeginCall(id) && rid == "r" + Print(s.next))
      && (rid in s.conns[id].pending && rid !in t.conns[id].pending <==>
            rid in s.conns[id].pending && a.Reply? && a.id == id && a.rid == rid)
  {
    hide Reserved, AttemptsOn, Rated, Failed, Print, ConnName;
    FreshNames(s);
    if a.EndAttempt? {
      RatedKeepsLoad(id, s.conns[id], s.attempts[a.a], a.ending);
    }
  }

  /** A call sent to a live connection waits unresolved; it stops waiting when it goes on, or because sending
      raised. */
  lemma WaitingChanges(s: State, a: Action, rid: string)
    requires Inv(s) && Enabled(s, a)
    ensures var t := Next(s, a);
      && (a.BeginCall? && a.id in s.conns && rid == "r" + Print(s.next) ==>
            rid in t.waiting && t.waiting[rid] == a.id && rid in t.futures && t.futures[rid] == Unresolved)
      && (rid in s.waiting ==>
            if a == SendFails(rid) || a == Resume(rid) then rid !in t.waiting
            else rid in t.waiting && t.waiting[rid] == s.waiting[rid])
      && (rid !in s.waiting && rid in t.waiting ==> a.BeginCall? && a.id in s.conns && rid == "r" + Print(s.next))
  {
    hide Reserved, AttemptsOn, Settled, Failed, Print, ConnName;
    FreshNames(s);
  }

  /** An answer to a pending call is its result; losing the connection makes every call pending on it fail. */
  lemma ReplyResolves(s: State, id: string, rid: string, body: string)
    requires Inv(s) && id in s.conns && rid in s.conns[id].pending
    ensures var t := Next(s, Reply(id, rid, body)); rid in t.futures && t.futures[rid] == Result(body)
    ensures var t := Next(s, Disconnect(id)); rid in t.futures && t.futures[rid] == Error
  {
    hide Reserved, AttemptsOn;
  }

  /** Node id ends no attempt by failing between two moments. */
  predicate NeverFails(actions: seq<Action>, from: nat, to: nat, id: string)
    requires from <= to <= |actions|
  {
    forall i | from <= i < to :: !(actions[i].EndAttempt? && actions[i].ending == NodeFailure(id))
  }

  /** Over any stretch of any run in which a node stays connected and no attempt fails because of it, its
      reputation does not fall; every attempt that ends adds 0.5 or nothing, up to 10. */
  lemma {:induction false} OnlyFailuresLower(states: seq<State>, actions: seq<Action>, i: nat, k: nat, id: string)
    requires Run(states, actions) && Start(states[0]) && i <= k < |states| && NeverFails(actions, i, k, id)
    requires forall j | i <= j <= k :: id in states[j].conns
    ensures states[i].conns[id].reputation <= states[k].conns[id].reputation <= 10.0
    ensures states[k].conns[id].reputation <= states[i].conns[id].reputation + 0.5 * Successes(states, actions, i, k, id) as real
    decreases k
  {
    hide Next, Inv;
    EveryInterleaving(states, actions, k);
    InRange(states[k], id);
    if i < k {
      OnlyFailuresLower(states, actions, i, k - 1, id);
      EveryInterleaving(states, actions, k - 1);
      assert StepAt(states, actions, k - 1);
      ReputationChanges(states[k - 1], actions[k - 1], id);
    }
  }

  lemma InRange(s: State, id: string)
    requires Inv(s) && id in s.conns
    ensures s.conns[id].reputation <= 10.0
  {
    hide LoadsRight, NoneHangs, PendingRight, NamesIssued;
  }

  /** How many attempts on the node succeed between two moments. */
  ghost function Successes(states: seq<State>, actions: seq<Action>, i: nat, k: nat, id: string): nat
    requires |states| == |actions| + 1 && i <= k < |states|
    decreases k
  {
    if i == k then 0
    else
      var a := actions[k - 1];
      Successes(states, actions, i, k - 1, id)
      + if a.EndAttempt? && a.ending == Success && a.a in states[k - 1].attempts && id in states[k - 1].attempts[a.a] then 1 else 0
  }

  /** The same over runs: each success of an attempt on the node counts, and each failure, and nothing else. */
  lemma RatedInAnyRun(states: seq<State>, actions: seq<Action>, k: nat, id: string)
    requires Run(states, actions) && Start(states[0]) && k < |actions|
    requires id in states[k].conns && id in states[k + 1].conns
    ensures var before, after := states[k].conns[id].reputation, states[k + 1].conns[id].reputation;
      match actions[k]
      case EndAttempt(n, Success) =>
        n in states[k].attempts
        && after == (if id !in states[k].attempts[n] then before else if before > 9.5 then 10.0 else before + 0.5)
      case EndAttempt(_, NodeFailure(bad)) =>
        after == if id != bad then before else if before < 2.0 then 0.0 else before - 2.0
      case _ => after == before
  {
    hide Next, Inv;
    EveryInterleaving(states, actions, k);
    assert StepAt(states, actions, k);
    ReputationChanges(states[k], actions[k], id);
  }

  // ---- Replies and disconnects ----

  /** A future is only ever resolved while unresolved, by a reply that echoes its request id on the
      connection it is pending on, or by that connection going away. */
  lemma ResolvedOnlyByItsReply(s: State, a: Action, rid: string)
    requires Inv(s) && Enabled(s, a) && rid in s.futures
    ensures var t := Next(s, a);
      && rid in t.futures
      && (t.futures[rid] != s.futures[rid] ==>
            && s.futures[rid] == Unresolved
            && ((a.Reply? && a.rid == rid && a.id in s.conns && rid in s.conns[a.id].pending
                 && t.futures[rid] == Result(a.body))
                || (a.Disconnect? && a.id in s.conns && rid in s.conns[a.id].pending && t.futures[rid] == Error)))
  {
    hide Reserved, AttemptsOn;
    if a.BeginCall? {
      FreshNames(s);
    }
  }

  /** So it is resolved at most once: a result never changes again. */
  lemma {:induction false} ResolvedOnce(states: seq<State>, actions: seq<Action>, i: nat, k: nat, rid: string)
    requires Run(states, actions) && Start(states[0]) && i <= k < |states|
    requires rid in states[i].futures && states[i].futures[rid] != Unresolved
    ensures rid in states[k].futures && states[k].futures[rid] == states[i].futures[rid]
    decreases k
  {
    hide Next, Inv;
    if i < k {
      ResolvedOnce(states, actions, i, k - 1, rid);
      EveryInterleaving(states, actions, k - 1);
      assert StepAt(states, actions, k - 1);
      ResolvedOnlyByItsReply(states[k - 1], actions[k - 1], rid);
    }
  }

  /** A disconnect leaves no call on that connection hanging: each can go on at once. */
  lemma DisconnectReleasesCalls(s: State, id: string, rid: string)
    requires Inv(s) && rid in s.waiting && s.waiting[rid] == id
    ensures Enabled(Next(s, Disconnect(id)), Resume(rid))
  {
    hide Reserved, AttemptsOn;
  }

  lemma FailNone(futures: map<string, Future>)
    ensures Failed(futures, {}) == futures
  {
  }

  lemma FailOne(futures: map<string, Future>, rids: set<string>, r: string)
    ensures var failed := Failed(futures, rids);
      Failed(futures, rids + {r}) == if r in failed && failed[r] == Unresolved then failed[r := Error] else failed
  {
  }

  // ---- The coordinator itself ----

  class App {
    var conns: map<string, Conn>
    var futures: map<string, Future>
    var waiting: map<string, string>
    var attempts: map<nat, set<string>>
    var next: nat

    function Snapshot(): State
      reads this
    {
      State(conns, futures, waiting, attempts, next)
    }

    constructor ()
      ensures Start(Snapshot())
    {
      conns, futures, waiting, attempts, next := map[], map[], map[], map[], 1;
    }

    method Connect() returns (id: string)
      modifies this
      ensures Snapshot() == Next(old(Snapshot()), Accept) && id == ConnName(old(next))
    {
      id := ConnName(next);
      next := next + 1;
      conns := conns[id := Conn({}, 0, REP_INITIAL)];
    }

    /** The part of a call before it waits; None where the connection is gone. */
    method Call(id: string) returns (rid: Option<string>)
      modifies this
      ensures Snapshot() == Next(old(Snapshot()), BeginCall(id))
      ensures rid == if id in old(conns) then Some(RequestName(old(next))) else None
    {
      if id !in conns {
        return None;
      }
      var r := RequestName(next);
      next := next + 1;
      futures := futures[r := Unresolved];
      conns := conns[id := conns[id].(pending := conns[id].pending + {r})];
      waiting := waiting[r := id];
      return Some(r);
    }

    /** The part of a call after it waited. */
    method Return(rid: string) returns (result: Future)
      requires Enabled(Snapshot(), Resume(rid))
      modifies this
      ensures Snapshot() == Next(old(Snapshot()), Resume(rid)) && result == old(futures)[rid]
    {
      waiting := waiting - {rid};
      result := futures[rid];
    }

    method OnMessage(id: string, rid: string, body: string)
      modifies this
      ensures Snapshot() == Next(old(Snapshot()), Reply(id, rid, body))
    {
      if id in conns && rid in conns[id].pending {
        conns := conns[id := conns[id].(pending := conns[id].pending - {rid})];
        if rid in futures && futures[rid] == Unresolved {
          futures := futures[rid := Result(body)];
        }
      }
    }

    /** Whoever still waits for an answer on this connection gets an error at once. */
    method OnDisconnect(id: string)
      modifies this
      ensures Snapshot() == Next(old(Snapshot()), Disconnect(id))
    {
      if id !in conns {
        return;
      }
      hide Failed;
      FailNone(futures);
      var todo := conns[id].pending;
      ghost var all := todo;
      conns := conns - {id};
      assert all - all == {};
      while todo != {}
        invariant todo <= all && futures == Failed(old(futures), all - todo)
        invariant conns == old(conns) - {id} && waiting == old(waiting) && attempts == old(attempts) && next == old(next)
        decreases |todo|
      {
        var r :| r in todo;
        FailOne(old(futures), all - todo, r);
        assert all - todo + {r} == all - (todo - {r});
        if r in futures && futures[r] == Unresolved {
          futures := futures[r := Error];
        }
        todo := todo - {r};
      }
      assert all - todo == all;
    }

    /** Counts the attempt on those nodes of its chain that are still there. */
    method StartAttempt(n: nat, chain: set<string>)
      requires Enabled(Snapshot(), BeginAttempt(n, chain))
      modifies this
      ensures Snapshot() == Next(old(Snapshot()), BeginAttempt(n, chain))
    {
      var todo := chain;
      while todo != {}
        invariant todo <= chain && futures == old(futures) && waiting == old(waiting)
        invariant attempts == old(attempts) && next == old(next)
        invariant conns == map c | c in old(conns) ::
                    if c in chain && c !in todo then old(conns)[c].(load := old(conns)[c].load + 1) else old(conns)[c]
        decreases |todo|
      {
        var c :| c in todo;
        if c in conns {
          conns := conns[c := conns[c].(load := conns[c].load + 1)];
        }
        todo := todo - {c};
      }
      attempts := attempts[n := chain];
    }

    method Rate(chain: set<string>, ending: Ending)
      modifies `conns
      ensures conns == map c | c in old(conns) :: Rated(c, old(conns)[c], chain, ending)
    {
      hide Rewarded, Penalised;
      match ending {
        case Success =>
          var todo := chain;
          while todo != {}
            invariant todo <= chain
            invariant conns == map c | c in old(conns) ::
                        if c !in todo then Rated(c, old(conns)[c], chain, ending) else old(conns)[c]
            decreases |todo|
          {
            var c :| c in todo;
            if c in conns {
              conns := conns[c := conns[c].(reputation := Rewarded(conns[c].reputation))];
            }
            todo := todo - {c};
          }
        case NodeFailure(bad) =>
          if bad in conns {
            conns := conns[bad := conns[bad].(reputation := Penalised(conns[bad].reputation))];
          }
        case Aborted =>
      }
    }

    method GiveBack(chain: set<string>)
      modifies `conns
      ensures conns == map c | c in old(conns) :: Released(c, old(conns)[c], chain)
    {
      hide Clamp;
      var todo := chain;
      while todo != {}
        invariant todo <= chain
        invariant conns == map c | c in old(conns) ::
                    if c !in todo then Released(c, old(conns)[c], chain) else old(conns)[c]
        decreases |todo|
      {
        var c :| c in todo;
        if c in conns {
          conns := conns[c := conns[c].(load := Clamp(conns[c].load - 1))];
        }
        todo := todo - {c};
      }
    }

    /** Rewards or penalises, then gives the load back. */
    method FinishAttempt(n: nat, ending: Ending)
      requires Enabled(Snapshot(), EndAttempt(n, ending))
      modifies this
      ensures Snapshot() == Next(old(Snapshot()), EndAttempt(n, ending))
    {
      hide Rated, Released;
      Rate(attempts[n], ending);
      GiveBack(attempts[n]);
      attempts := attempts - {n};
    }
  }
}
