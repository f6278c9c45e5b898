/** Runs of one node against any peer: every promise the dispatcher accepts is settled at most
    once, the sweep after a lost connection leaves none unsettled, and the mailbox is a queue. */
module RpcRuns {
  import opened Options
  import opened Wire
  import opened RpcNode

  datatype Action = Put(event: Event) | Finish(id: Id, result: Result) | Turn

  /** Calls bring their own promise; the dispatcher turns while it runs. */
  predicate Enabled(n: Node, a: Action) {
    match a
    case Put(e) => n.mail.None? && (e.Request? ==> e.token !in n.accepted)
    case Finish(id, _) => id in n.workers && n.workers[id].result.None?
    case Turn => CanTurn(n) && n.running && !n.stuck
  }

  function Act(n: Node, a: Action): Node
    requires Enabled(n, a)
  {
    match a
    case Put(e) => Deposit(n, e)
    case Finish(id, r) => FinishWork(n, id, r)
    case Turn => Dispatch(n).0
  }

  ghost predicate Run(n: Node, actions: seq<Action>, end: Node)
    decreases |actions|
  {
    if actions == [] then n == end
    else Enabled(n, actions[0]) && Run(Act(n, actions[0]), actions[1..], end)
  }

  ghost predicate SettledOnce(settled: seq<(Token, Settlement)>) {
    forall i, j :: 0 <= i < j < |settled| ==> settled[i].0 != settled[j].0
  }

  function SettledTokens(settled: seq<(Token, Settlement)>): set<Token> {
    set i | 0 <= i < |settled| :: settled[i].0
  }

  function Outstanding(requests: Table): set<Token> {
    set id | id in requests :: requests[id].token
  }

  /** Accepted promises are either settled or in the table, never both, never twice. */
  ghost predicate Accounted(n: Node) {
    && SettledOnce(n.settled)
    && Distinct(n.requests)
    && SettledTokens(n.settled) !! Outstanding(n.requests)
    && (forall t :: t in n.accepted <==> t in SettledTokens(n.settled) + Outstanding(n.requests))
    && (n.mail.Some? && n.mail.value.Request? ==> n.mail.value.token !in n.accepted)
    && (!n.running ==> n.requests == map[])
  }

  /** The promises that a sweep from `lo` settles. */
  function OutstandingFrom(requests: Table, lo: nat): set<Token> {
    set id | id in requests && lo <= id :: requests[id].token
  }

  lemma {:induction false} SweepSettlesAll(requests: Table, lo: nat)
    requires Distinct(requests)
    ensures SettledTokens(SweepRequests(requests, lo)) == OutstandingFrom(requests, lo)
    ensures SettledOnce(SweepRequests(requests, lo))
    decreases 0x1_0000 - lo
  {
    if lo < 0x1_0000 {
      SweepSettlesAll(requests, lo + 1);
      var rest := SweepRequests(requests, lo + 1);
      if lo in requests {
        var first := (requests[lo].token, Closed);
        assert SweepRequests(requests, lo) == [first] + rest;
        OneSettled(first);
        AppendSettled([first], rest);
        assert OutstandingFrom(requests, lo) == {first.0} + OutstandingFrom(requests, lo + 1);
      } else {
        assert SweepRequests(requests, lo) == rest;
        assert OutstandingFrom(requests, lo) == OutstandingFrom(requests, lo + 1);
      }
    }
  }

  lemma OutstandingAdds(requests: Table, id: Id, p: Pending)
    requires id !in requests
    ensures Outstanding(requests[id := p]) == Outstanding(requests) + {p.token}
  {
    var m := requests[id := p];
    assert m[id].token in Outstanding(m);
    forall x | x in requests ensures requests[x].token in Outstanding(m) {
      assert m[x] == requests[x];
    }
  }

  lemma OutstandingDrops(requests: Table, id: Id)
    requires id in requests && Distinct(requests)
    ensures Outstanding(requests - {id}) == Outstanding(requests) - {requests[id].token}
  {
    var m := requests - {id};
    forall x | x in m ensures requests[x].token in Outstanding(requests) && x != id {
      assert m[x] == requests[x];
    }
    forall x | x in requests && x != id ensures requests[x].token in Outstanding(m) {
      assert m[x] == requests[x];
    }
  }

  lemma OneSettled(p: (Token, Settlement))
    ensures SettledTokens([p]) == {p.0}
  {
    assert [p][0] == p;
  }

  lemma AppendSettled(s: seq<(Token, Settlement)>, t: seq<(Token, Settlement)>)
    requires SettledOnce(s) && SettledOnce(t) && SettledTokens(s) !! SettledTokens(t)
    ensures SettledOnce(s + t) && SettledTokens(s + t) == SettledTokens(s) + SettledTokens(t)
  {
    var u := s + t;
    assert forall i :: 0 <= i < |s| ==> u[i] == s[i];
    assert forall i :: 0 <= i < |t| ==> u[|s| + i] == t[i];
    forall i, j | 0 <= i < j < |s + t| ensures (s + t)[i].0 != (s + t)[j].0 {
      if i < |s| <= j {
        assert s[i].0 in SettledTokens(s) && t[j - |s|].0 in SettledTokens(t);
      }
    }
  }

  lemma RequestKeepsAccounts(n: Node, channel: Channel, payload: Bytes, token: Token)
    requires Accounted(n) && n.running && n.mail.None? && token !in n.accepted
    ensures Accounted(DispatchRequest(n, channel, payload, token).0)
  {
    var m := DispatchRequest(n, channel, payload, token).0;
    if NextId(n.lastId) in n.requests {
      OneSettled((token, BrokenPromise));
      AppendSettled(n.settled, [(token, BrokenPromise)]);
    } else {
      OutstandingAdds(n.requests, NextId(n.lastId), Pending(token, n.issued + 1));
    }
  }

  lemma ReplyKeepsAccounts(n: Node, f: Frame)
    requires Accounted(n) && n.running && n.mail.None?
    ensures Accounted(DispatchReply(n, f))
  {
    if f.id in n.requests {
      var t := n.requests[f.id].token;
      var last := (t, ToSettlement(f.body));
      OneSettled(last);
      AppendSettled(n.settled, [last]);
      OutstandingDrops(n.requests, f.id);
    }
  }

  lemma ExceptionKeepsAccounts(n: Node)
    requires Accounted(n) && n.mail.None?
    ensures Accounted(DispatchException(n))
  {
    SweepSettlesAll(n.requests, 0);
    assert OutstandingFrom(n.requests, 0) == Outstanding(n.requests);
    AppendSettled(n.settled, SweepRequests(n.requests, 0));
  }

  lemma TurnKeepsAccounts(n: Node)
    requires Accounted(n) && Enabled(n, Turn)
    ensures Accounted(Act(n, Turn))
  {
    var m := n.(mail := None);
    match n.mail.value {
      case Request(channel, payload, token) => RequestKeepsAccounts(m, channel, payload, token);
      case Incoming(f) => ReplyKeepsAccounts(m, f);
      case Response(id) =>
      case Exception => ExceptionKeepsAccounts(m);
    }
  }

  lemma ActKeepsAccounts(n: Node, a: Action)
    requires Accounted(n) && Enabled(n, a)
    ensures Accounted(Act(n, a))
    ensures n.settled <= Act(n, a).settled
  {
    if a.Turn? {
      TurnKeepsAccounts(n);
    }
  }

  lemma {:induction false} RunKeepsAccounts(n: Node, actions: seq<Action>, end: Node)
    requires Accounted(n) && Run(n, actions, end)
    ensures Accounted(end) && n.settled <= end.settled
    decreases |actions|
  {
    if actions != [] {
      ActKeepsAccounts(n, actions[0]);
      RunKeepsAccounts(Act(n, actions[0]), actions[1..], end);
    }
  }

  /** Whatever the peer, the callers and the workers do: no promise is settled twice, only accepted
      ones are settled, and once the dispatcher has left, every accepted one is. */
  lemma PromisesSettled(channels: set<Channel>, actions: seq<Action>, end: Node)
    requires Run(InitNode(channels), actions, end)
    ensures SettledOnce(end.settled)
    ensures forall p :: p in end.settled ==> p.0 in end.accepted
    ensures !end.running ==> forall t :: t in end.accepted ==> t in SettledTokens(end.settled)
    ensures forall t :: t in end.accepted && t !in SettledTokens(end.settled) ==> t in Outstanding(end.requests)
  {
    RunKeepsAccounts(InitNode(channels), actions, end);
    assert forall p :: p in end.settled ==> p.0 in SettledTokens(end.settled);
  }

  // --- The mailbox as a queue

  function Waiting(n: Node): seq<Event> {
    if n.mail.Some? then [n.mail.value] else []
  }

  /** The events that the producers put in, in order. */
  function PutIn(actions: seq<Action>): seq<Event> {
    if actions == [] then []
    else (if actions[0].Put? then [actions[0].event] else []) + PutIn(actions[1..])
  }

  /** The events that the dispatcher handled, in order. */
  ghost function Handled(n: Node, actions: seq<Action>): seq<Event>
    decreases |actions|
  {
    if actions == [] || !Enabled(n, actions[0]) then []
    else (if actions[0].Turn? then [n.mail.value] else []) + Handled(Act(n, actions[0]), actions[1..])
  }

  lemma ActMail(n: Node, a: Action)
    requires Enabled(n, a)
    ensures a.Put? ==> Waiting(n) == [] && Waiting(Act(n, a)) == [a.event]
    ensures a.Finish? ==> Waiting(Act(n, a)) == Waiting(n)
    ensures a.Turn? ==> Waiting(n) == [n.mail.value] && Waiting(Act(n, a)) == []
  {
    hide SweepRequests, SweepWorkers;
  }

  /** However many producers there are and however they are scheduled, each event that is put into
      the slot is handled once, unchanged and in order; the last one may still wait. */
  lemma {:induction false} MailboxIsQueue(n: Node, actions: seq<Action>, end: Node)
    requires Run(n, actions, end)
    ensures Waiting(n) + PutIn(actions) == Handled(n, actions) + Waiting(end)
    decreases |actions|
  {
    if actions != [] {
      var m, rest := Act(n, actions[0]), actions[1..];
      ActMail(n, actions[0]);
      MailboxIsQueue(m, rest, end);
      hide Act, Waiting;
      match actions[0] {
        case Put(e) =>
          assert PutIn(actions) == [e] + PutIn(rest);
        case Finish(_, _) =>
          assert PutIn(actions) == PutIn(rest) && Handled(n, actions) == Handled(m, rest);
        case Turn =>
          assert PutIn(actions) == PutIn(rest);
          assert Handled(n, actions) == Waiting(n) + Handled(m, rest);
      }
    }
  }

  // --- The loss of the connection

  /** What the peer is told about a call that is not answered any more. */
  function Goodbye(id: Id): Frame {
    Frame(CHANNEL_RESPONSE, id, Failure(Error(TRANSPORT, CONNECTION_CLOSED)))
  }

  lemma {:induction false} SweepCloses(requests: Table, lo: nat)
    ensures forall p :: p in SweepRequests(requests, lo) ==> p.1 == Closed && p.0 in Outstanding(requests)
    ensures forall id :: id in requests && lo <= id ==> (requests[id].token, Closed) in SweepRequests(requests, lo)
    decreases 0x1_0000 - lo
  {
    if lo < 0x1_0000 {
      SweepCloses(requests, lo + 1);
      assert lo in requests ==> requests[lo].token in Outstanding(requests);
      hide Outstanding;
    }
  }

  lemma {:induction false} SweepTells(workers: Workers, lo: nat)
    ensures forall id: Id ::
              multiset(SweepWorkers(workers, lo))[Goodbye(id)] == if id in workers && lo <= id then 1 else 0
    ensures forall f :: f in SweepWorkers(workers, lo) ==> f == Goodbye(f.id)
    decreases 0x1_0000 - lo
  {
    if lo < 0x1_0000 {
      SweepTells(workers, lo + 1);
      var first: seq<Frame> := if lo in workers then [Goodbye(lo)] else [];
      assert SweepWorkers(workers, lo) == first + SweepWorkers(workers, lo + 1);
    }
  }

  /** The dispatcher has left, with empty tables. */
  ghost predicate Down(n: Node) {
    !n.running && n.requests == map[] && n.workers == map[]
  }

  lemma {:induction false} DownStays(n: Node, actions: seq<Action>, end: Node)
    requires Down(n) && Run(n, actions, end)
    ensures Down(end) && end.settled == n.settled
    decreases |actions|
  {
    if actions != [] {
      assert Down(Act(n, actions[0])) && Act(n, actions[0]).settled == n.settled;
      DownStays(Act(n, actions[0]), actions[1..], end);
    }
  }

  lemma LossTurn(n: Node)
    requires Enabled(n, Turn) && n.mail == Some(Exception)
    ensures Down(Act(n, Turn))
    ensures Act(n, Turn).settled == n.settled + SweepRequests(n.requests, 0)
    ensures Dispatch(n).1 == SweepWorkers(n.workers, 0)
  {
  }

  /** Any run that handles the loss of the connection, in whatever state, ends with the dispatcher gone
      and the tables empty. */
  lemma {:induction false} LossEnds(n: Node, actions: seq<Action>, end: Node)
    requires Run(n, actions, end) && Exception in Handled(n, actions)
    ensures Down(end)
    decreases |actions|
  {
    var m, rest := Act(n, actions[0]), actions[1..];
    if actions[0].Turn? && n.mail == Some(Exception) {
      LossTurn(n);
      DownStays(m, rest, end);
    } else {
      hide Act, Down;
      LossEnds(m, rest, end);
    }
  }

  /** When the dispatcher, in whatever state, handles the loss of the connection, every promise that is outstanding is
      settled as closed, for good, nothing else is settled any more, and the peer is sent exactly one
      error for each call that a worker has not answered. */
  lemma LossClosesAll(n: Node, after: seq<Action>, end: Node)
    requires Enabled(n, Turn) && n.mail == Some(Exception) && Run(Act(n, Turn), after, end)
    ensures Down(end) && n.settled <= end.settled
    ensures forall id :: id in n.requests ==> (n.requests[id].token, Closed) in end.settled
    ensures forall p :: p in end.settled[|n.settled|..] ==> p.1 == Closed && p.0 in Outstanding(n.requests)
    ensures forall id: Id :: multiset(Dispatch(n).1)[Goodbye(id)] == if id in n.workers then 1 else 0
    ensures forall f :: f in Dispatch(n).1 ==> f == Goodbye(f.id)
  {
    LossTurn(n);
    hide Act, Dispatch, SweepRequests, SweepWorkers, Outstanding, Goodbye;
    DownStays(Act(n, Turn), after, end);
    SweepCloses(n.requests, 0);
    SweepTells(n.workers, 0);
    assert end.settled[|n.settled|..] == SweepRequests(n.requests, 0);
  }

  /** So after the loss of the connection no accepted promise is left unsettled. */
  lemma LossSettlesAll(channels: set<Channel>, actions: seq<Action>, end: Node)
    requires Run(InitNode(channels), actions, end) && Exception in Handled(InitNode(channels), actions)
    ensures Down(end)
    ensures forall t :: t in end.accepted ==> t in SettledTokens(end.settled)
  {
    hide Run, Handled, SettledTokens;
    LossEnds(InitNode(channels), actions, end);
    PromisesSettled(channels, actions, end);
  }
}
