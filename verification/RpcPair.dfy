/** Two RPC nodes over an ordered, reliable stream each way. Every interleaving of calls, nested
    calls and handler completions in both directions is a sequence of steps of the two sides. */
module RpcPair {
  import opened Options
  import opened Wire
  import opened RpcNode
  import opened RpcIds

  /** How a call is answered: by what its handler did, or refused because its channel is unknown. */
  datatype Made = Handled(result: Result) | Refused

  /** The answer to a call, with the arguments it was made from. */
  datatype Answer = Answer(channel: Channel, payload: Body, made: Made)

  /** What the reply to an answered call carries. */
  function Carried(made: Made): Body {
    match made
    case Handled(result) => ToBody(result)
    case Refused => Failure(UNKNOWN_CHANNEL_ERROR)
  }

  /** One direction of the conversation: the calls of `caller`, served by `server`. The last two
      fields record what was asked and what was answered; no step depends on them. */
  datatype Talk = Talk(calls: map<Token, (Channel, Bytes)>, answers: map<Token, Answer>)

  /** Seen from one side: this node, its peer, the frames on the way, and the two directions. */
  datatype Pair = Pair(me: Node, peer: Node, out: seq<Frame>, back: seq<Frame>, mine: Talk, theirs: Talk)

  function Flip(s: Pair): Pair {
    Pair(s.peer, s.me, s.back, s.out, s.theirs, s.mine)
  }

  datatype Step =
    | Call(channel: Channel, payload: Bytes, token: Token)
    | Receive
    | Finish(id: Id, result: Result)
    | Respond(id: Id)
    | Turn
    | Channels(channels: set<Channel>)

  predicate Enabled(s: Pair, step: Step) {
    match step
    case Call(channel, _, token) => s.me.mail.None? && channel != CHANNEL_RESPONSE && token !in s.mine.calls
    case Receive => s.me.mail.None? && s.back != []
    case Finish(id, _) => id in s.me.workers && s.me.workers[id].result.None?
    case Respond(id) => s.me.mail.None? && id in s.me.workers && s.me.workers[id].result.Some?
    case Turn => CanTurn(s.me) && s.me.running && !s.me.stuck
    case Channels(_) => true
  }

  function Answered(t: Talk, requests: Table, id: Id, a: Answer): Talk {
    if id in requests then t.(answers := t.answers[requests[id].token := a]) else t
  }

  function Apply(s: Pair, step: Step): Pair
    requires Enabled(s, step)
  {
    match step
    case Call(channel, payload, token) =>
      s.(me := Deposit(s.me, Request(channel, payload, token)),
         mine := s.mine.(calls := s.mine.calls[token := (channel, payload)]))
    case Receive => s.(me := Deposit(s.me, Incoming(s.back[0])), back := s.back[1..])
    case Finish(id, r) =>
      var w := s.me.workers[id];
      s.(me := FinishWork(s.me, id, r),
         theirs := Answered(s.theirs, s.peer.requests, id, Answer(w.channel, w.payload, Handled(r))))
    case Respond(id) => s.(me := Deposit(s.me, Response(id)))
    case Turn =>
      var (me, sent) := Dispatch(s.me);
      s.(me := me, out := s.out + sent, theirs := TurnAnswers(s))
    case Channels(cs) => s.(me := s.me.(channels := cs))
  }

  /** A request for an unknown channel is answered by the dispatcher itself. */
  function TurnAnswers(s: Pair): Talk
    requires s.me.mail.Some?
  {
    match s.me.mail.value
    case Incoming(f) =>
      if f.channel != CHANNEL_RESPONSE && f.channel !in s.me.channels
      then Answered(s.theirs, s.peer.requests, f.id, Answer(f.channel, f.body, Refused))
      else s.theirs
    case _ => s.theirs
  }

  // --- Where a call is

  function RequestIds(fs: seq<Frame>): multiset<Id> {
    if fs == [] then multiset{}
    else (if fs[0].channel != CHANNEL_RESPONSE then multiset{fs[0].id} else multiset{}) + RequestIds(fs[1..])
  }

  function ReplyIds(fs: seq<Frame>): multiset<Id> {
    if fs == [] then multiset{}
    else (if fs[0].channel == CHANNEL_RESPONSE then multiset{fs[0].id} else multiset{}) + ReplyIds(fs[1..])
  }

  function MailFrame(n: Node): seq<Frame> {
    if n.mail.Some? && n.mail.value.Incoming? then [n.mail.value.frame] else []
  }

  /** The frames on their way to a node, with the one in its mailbox at the head. */
  function Inbox(n: Node, wire: seq<Frame>): seq<Frame> {
    MailFrame(n) + wire
  }

  /** Every place where an id of a call can be, with multiplicity: a request on its way, a task of
      the server, a reply on its way. */
  function Places(workers: Workers, toServer: seq<Frame>, toCaller: seq<Frame>): multiset<Id> {
    RequestIds(toServer) + multiset(workers.Keys) + ReplyIds(toCaller)
  }

  // --- What each place holds

  predicate RequestOk(requests: Table, t: Talk, channel: Channel, payload: Body, id: Id) {
    id in requests ==>
      var token := requests[id].token;
      token in t.calls && payload == Value(t.calls[token].1) && channel == t.calls[token].0 && token !in t.answers
  }

  predicate WorkerOk(requests: Table, t: Talk, w: Worker, id: Id) {
    if w.result.None? then RequestOk(requests, t, w.channel, w.payload, id)
    else AnswerOk(requests, t, ToBody(w.result.value), id)
  }

  /** The call is answered by `body`, and the answer was made from the call's own arguments. */
  predicate AnswerOk(requests: Table, t: Talk, body: Body, id: Id) {
    id in requests ==> OwnAnswer(t, requests[id].token, body)
  }

  predicate OwnAnswer(t: Talk, token: Token, body: Body) {
    && token in t.calls && token in t.answers
    && t.answers[token].channel == t.calls[token].0 && t.answers[token].payload == Value(t.calls[token].1)
    && Carried(t.answers[token].made) == body
  }

  ghost predicate RequestsOk(requests: Table, t: Talk, toServer: seq<Frame>) {
    forall f :: f in toServer && f.channel != CHANNEL_RESPONSE ==> RequestOk(requests, t, f.channel, f.body, f.id)
  }

  ghost predicate RepliesOk(requests: Table, t: Talk, toCaller: seq<Frame>) {
    forall f :: f in toCaller && f.channel == CHANNEL_RESPONSE ==> AnswerOk(requests, t, f.body, f.id)
  }

  ghost predicate WorkersOk(requests: Table, t: Talk, workers: Workers) {
    forall id :: id in workers ==> WorkerOk(requests, t, workers[id], id)
  }

  ghost predicate TokensOk(requests: Table, mail: Option<Event>, t: Talk) {
    && Distinct(requests)
    && (forall id :: id in requests ==> requests[id].token in t.calls)
    && t.answers.Keys <= t.calls.Keys
    && (mail.Some? && mail.value.Request? ==> MailOk(requests, mail.value, t))
  }

  ghost predicate MailOk(requests: Table, e: Event, t: Talk)
    requires e.Request?
  {
    && e.channel != CHANNEL_RESPONSE
    && e.token in t.calls && t.calls[e.token] == (e.channel, e.payload) && e.token !in t.answers
    && forall id :: id in requests ==> requests[id].token != e.token
  }

  /** Every promise settled so far got the outcome computed from its own call's arguments. */
  ghost predicate SettledOk(settled: seq<(Token, Settlement)>, t: Talk) {
    forall p :: p in settled ==>
      && p.0 in t.answers && OwnAnswer(t, p.0, Carried(t.answers[p.0].made))
      && p.1 == ToSettlement(Carried(t.answers[p.0].made))
  }

  ghost predicate Alive(n: Node) {
    && n.running && !n.stuck
    && (n.mail.Some? ==> !n.mail.value.Exception?)
    && (n.mail.Some? && n.mail.value.Response? ==>
          n.mail.value.id in n.workers && n.workers[n.mail.value.id].result.Some?)
  }

  /** Each id in the request table is in exactly one place, and each place holds its call's data. */
  ghost predicate Conserved(r: Table, workers: Workers,
                            toServer: seq<Frame>, toCaller: seq<Frame>, t: Talk) {
    && Places(workers, toServer, toCaller) == multiset(r.Keys)
    && RequestsOk(r, t, toServer)
    && WorkersOk(r, t, workers)
    && RepliesOk(r, t, toCaller)
  }

  /** The invariant for the calls of `s.me`. */
  ghost predicate Half(s: Pair) {
    && Conserved(s.me.requests, s.peer.workers, Inbox(s.peer, s.out), Inbox(s.me, s.back), s.mine)
    && TokensOk(s.me.requests, s.me.mail, s.mine)
    && SettledOk(s.me.settled, s.mine)
    && Alive(s.me)
  }

  ghost predicate Inv(s: Pair) {
    Half(s) && Half(Flip(s))
  }

  // --- Counting lemmas

  lemma {:induction false} AppendRequestIds(fs: seq<Frame>, gs: seq<Frame>)
    ensures RequestIds(fs + gs) == RequestIds(fs) + RequestIds(gs)
  {
    if fs == [] {
      assert fs + gs == gs;
    } else {
      var all, rest := fs + gs, fs[1..] + gs;
      assert all[0] == fs[0] && all[1..] == rest;
      AppendRequestIds(fs[1..], gs);
      assert RequestIds(all) == RequestIds([fs[0]]) + RequestIds(rest);
      assert RequestIds(fs) == RequestIds([fs[0]]) + RequestIds(fs[1..]);
    }
  }

  lemma {:induction false} AppendReplyIds(fs: seq<Frame>, gs: seq<Frame>)
    ensures ReplyIds(fs + gs) == ReplyIds(fs) + ReplyIds(gs)
  {
    if fs == [] {
      assert fs + gs == gs;
    } else {
      var all, rest := fs + gs, fs[1..] + gs;
      assert all[0] == fs[0] && all[1..] == rest;
      AppendReplyIds(fs[1..], gs);
      assert ReplyIds(all) == ReplyIds([fs[0]]) + ReplyIds(rest);
      assert ReplyIds(fs) == ReplyIds([fs[0]]) + ReplyIds(fs[1..]);
    }
  }

  lemma {:induction false} IdCounted(fs: seq<Frame>, f: Frame)
    requires f in fs
    ensures if f.channel == CHANNEL_RESPONSE then f.id in ReplyIds(fs) else f.id in RequestIds(fs)
  {
    if f != fs[0] {
      IdCounted(fs[1..], f);
    }
  }

  lemma InboxIsWire(n: Node, wire: seq<Frame>)
    requires n.mail.None?
    ensures Inbox(n, wire) == wire
  {
  }

  lemma InboxAppends(n: Node, wire: seq<Frame>, f: Frame)
    ensures Inbox(n, wire + [f]) == Inbox(n, wire) + [f]
  {
  }

  lemma NotCounted(fs: seq<Frame>, id: Id)
    ensures id !in RequestIds(fs) ==> forall f :: f in fs && f.channel != CHANNEL_RESPONSE ==> f.id != id
    ensures id !in ReplyIds(fs) ==> forall f :: f in fs && f.channel == CHANNEL_RESPONSE ==> f.id != id
  {
    forall f | f in fs
      ensures if f.channel == CHANNEL_RESPONSE then f.id in ReplyIds(fs) else f.id in RequestIds(fs)
    {
      IdCounted(fs, f);
    }
  }

  // --- Conservation, move by move

  lemma CallKeeps(r: Table, ws: Workers, there: seq<Frame>, back: seq<Frame>, t: Talk,
                  token: Token, call: (Channel, Bytes))
    requires Conserved(r, ws, there, back, t) && token !in t.calls
    ensures Conserved(r, ws, there, back, t.(calls := t.calls[token := call]))
  {
  }

  /** An entry that no place mentions can join or leave the table. */
  lemma TableMoves(r: Table, q: Table, ws: Workers, there: seq<Frame>, back: seq<Frame>, t: Talk, id: Id)
    requires RequestsOk(r, t, there) && WorkersOk(r, t, ws) && RepliesOk(r, t, back)
    requires id !in Places(ws, there, back)
    requires forall x :: x != id && x in q ==> x in r && r[x] == q[x]
    ensures RequestsOk(q, t, there) && WorkersOk(q, t, ws) && RepliesOk(q, t, back)
  {
    NotCounted(there, id);
    NotCounted(back, id);
  }

  lemma RequestsAppend(r: Table, t: Talk, there: seq<Frame>, f: Frame)
    requires RequestsOk(r, t, there)
    requires f.channel != CHANNEL_RESPONSE ==> RequestOk(r, t, f.channel, f.body, f.id)
    ensures RequestsOk(r, t, there + [f])
  {
  }

  lemma RepliesAppend(r: Table, t: Talk, back: seq<Frame>, f: Frame)
    requires RepliesOk(r, t, back)
    requires f.channel == CHANNEL_RESPONSE ==> AnswerOk(r, t, f.body, f.id)
    ensures RepliesOk(r, t, back + [f])
  {
  }

  lemma KeysGrow(r: Table, id: Id, p: Pending)
    requires id !in r
    ensures multiset(r[id := p].Keys) == multiset(r.Keys) + multiset{id}
    ensures id !in multiset(r.Keys)
  {
    assert r[id := p].Keys == r.Keys + {id};
  }

  /** The caller's dispatcher sends a request under a fresh id. */
  lemma RequestKeeps(r: Table, ws: Workers, there: seq<Frame>, back: seq<Frame>, t: Talk,
                     id: Id, p: Pending, f: Frame)
    requires Conserved(r, ws, there, back, t) && id !in r
    requires f.id == id && f.channel != CHANNEL_RESPONSE && p.token in t.calls && p.token !in t.answers
    requires (f.channel, f.body) == (t.calls[p.token].0, Value(t.calls[p.token].1))
    ensures Conserved(r[id := p], ws, there + [f], back, t)
  {
    hide RequestsOk, WorkersOk, RepliesOk;
    var q := r[id := p];
    AppendRequestIds(there, [f]);
    assert RequestIds([f]) == multiset{id};
    KeysGrow(r, id, p);
    assert Places(ws, there + [f], back) == multiset(r.Keys) + multiset{id};
    hide RequestIds, ReplyIds, Places;
    TableMoves(r, q, ws, there, back, t, id);
    RequestsAppend(q, t, there, f);
  }

  /** The caller's dispatcher takes the reply at the head of its inbox. */
  lemma ReplyKeeps(r: Table, ws: Workers, there: seq<Frame>, back: seq<Frame>, t: Talk)
    requires Conserved(r, ws, there, back, t) && back != [] && back[0].channel == CHANNEL_RESPONSE
    ensures back[0].id in r && Conserved(r - {back[0].id}, ws, there, back[1..], t)
  {
    var id := back[0].id;
    assert RepliesOk(r, t, back[1..]);
    assert ReplyIds(back) == multiset{id} + ReplyIds(back[1..]);
    hide RequestsOk, WorkersOk, RepliesOk, ReplyIds, RequestIds;
    assert id in Places(ws, there, back);
    assert Places(ws, there, back[1..]) == multiset(r.Keys) - multiset{id};
    assert (r - {id}).Keys == r.Keys - {id};
    TableMoves(r, r - {id}, ws, there, back[1..], t, id);
  }

  /** The server's dispatcher starts a task for the request at the head of its inbox. */
  lemma StartKeeps(r: Table, ws: Workers, there: seq<Frame>, back: seq<Frame>, t: Talk)
    requires Conserved(r, ws, there, back, t) && there != [] && there[0].channel != CHANNEL_RESPONSE
    ensures there[0].id !in ws
    ensures Conserved(r, ws[there[0].id := Worker(there[0].channel, there[0].body, None)], there[1..], back, t)
  {
    var id := there[0].id;
    assert Places(ws, there, back)[id] <= 1;
    assert ws[id := Worker(there[0].channel, there[0].body, None)].Keys == ws.Keys + {id};
  }

  /** The server's dispatcher refuses the request at the head of its inbox. */
  lemma RefuseKeeps(r: Table, ws: Workers, there: seq<Frame>, back: seq<Frame>, t: Talk, f: Frame)
    requires Conserved(r, ws, there, back, t) && there != [] && there[0].channel != CHANNEL_RESPONSE
    requires f == Frame(CHANNEL_RESPONSE, there[0].id, Carried(Refused)) && Distinct(r)
    ensures Conserved(r, ws, there[1..], back + [f],
                      Answered(t, r, f.id, Answer(there[0].channel, there[0].body, Refused)))
  {
    var w := Worker(there[0].channel, there[0].body, None);
    var result, a := ThrowsRpc(f.body.error), Answer(w.channel, w.payload, Refused);
    StartKeeps(r, ws, there, back, t);
    var ws1 := ws[f.id := w];
    FinishKeeps(r, ws1, there[1..], back, t, f.id, result, a);
    var ws2 := ws1[f.id := w.(result := Some(result))];
    SendKeeps(r, ws2, there[1..], back, Answered(t, r, f.id, a), f.id, f);
    assert ws2 - {f.id} == ws;
  }

  /** A task of the server finishes, with a result that carries what the answer says. */
  lemma FinishKeeps(r: Table, ws: Workers, there: seq<Frame>, back: seq<Frame>, t: Talk,
                    id: Id, result: Result, a: Answer)
    requires Conserved(r, ws, there, back, t) && id in ws && ws[id].result.None? && Distinct(r)
    requires a.channel == ws[id].channel && a.payload == ws[id].payload && Carried(a.made) == ToBody(result)
    ensures Conserved(r, ws[id := ws[id].(result := Some(result))], there, back, Answered(t, r, id, a))
  {
    assert Places(ws, there, back)[id] == 1;
    assert id !in RequestIds(there) && id !in ReplyIds(back);
    NotCounted(there, id);
    NotCounted(back, id);
    assert ws[id := ws[id].(result := Some(result))].Keys == ws.Keys;
  }

  /** The server's dispatcher sends the reply of a finished task. */
  lemma SendKeeps(r: Table, ws: Workers, there: seq<Frame>, back: seq<Frame>, t: Talk, id: Id, f: Frame)
    requires Conserved(r, ws, there, back, t) && id in ws && ws[id].result.Some?
    requires f == Frame(CHANNEL_RESPONSE, id, ToBody(ws[id].result.value))
    ensures Conserved(r, ws - {id}, there, back + [f], t)
  {
    AppendReplyIds(back, [f]);
    assert ReplyIds([f]) == multiset{id};
    assert (ws - {id}).Keys == ws.Keys - {id};
  }

  /** Frames of the other direction share the wires. */
  lemma OtherSent(r: Table, ws: Workers, there: seq<Frame>, back: seq<Frame>, t: Talk, f: Frame)
    requires Conserved(r, ws, there, back, t)
    ensures f.channel == CHANNEL_RESPONSE ==> Conserved(r, ws, there + [f], back, t)
    ensures f.channel != CHANNEL_RESPONSE ==> Conserved(r, ws, there, back + [f], t)
  {
    hide RequestsOk, WorkersOk, RepliesOk;
    AppendRequestIds(there, [f]);
    AppendReplyIds(back, [f]);
    if f.channel == CHANNEL_RESPONSE {
      RequestsAppend(r, t, there, f);
    } else {
      RepliesAppend(r, t, back, f);
    }
  }

  lemma OtherTaken(r: Table, ws: Workers, there: seq<Frame>, back: seq<Frame>, t: Talk)
    requires Conserved(r, ws, there, back, t)
    ensures there != [] && there[0].channel == CHANNEL_RESPONSE ==> Conserved(r, ws, there[1..], back, t)
    ensures back != [] && back[0].channel != CHANNEL_RESPONSE ==> Conserved(r, ws, there, back[1..], t)
  {
  }

  // --- Steps

  lemma AnswerKeepsTokens(requests: Table, mail: Option<Event>, settled: seq<(Token, Settlement)>,
                          t: Talk, id: Id, a: Answer)
    requires TokensOk(requests, mail, t) && SettledOk(settled, t)
    requires id in requests ==> requests[id].token !in t.answers
    ensures TokensOk(requests, mail, Answered(t, requests, id, a))
    ensures SettledOk(settled, Answered(t, requests, id, a))
  {
  }

  /** Settling the promise of a reply that carries its own call's answer. */
  lemma SettleKeepsTokens(requests: Table, settled: seq<(Token, Settlement)>, t: Talk, id: Id, body: Body)
    requires TokensOk(requests, None, t) && SettledOk(settled, t) && id in requests && AnswerOk(requests, t, body, id)
    ensures TokensOk(requests - {id}, None, t)
    ensures SettledOk(settled + [(requests[id].token, ToSettlement(body))], t)
  {
  }

  lemma CallStep(s: Pair, step: Step)
    requires Inv(s) && step.Call? && Enabled(s, step)
    ensures Inv(Apply(s, step))
  {
    hide Conserved;
    CallKeeps(s.me.requests, s.peer.workers, Inbox(s.peer, s.out), Inbox(s.me, s.back), s.mine,
              step.token, (step.channel, step.payload));
  }

  lemma ReceiveStep(s: Pair)
    requires Inv(s) && Enabled(s, Receive)
    ensures Inv(Apply(s, Receive))
  {
    hide Conserved;
    assert Inbox(Apply(s, Receive).me, s.back[1..]) == Inbox(s.me, s.back);
  }

  lemma FinishStep(s: Pair, id: Id, result: Result)
    requires Inv(s) && Enabled(s, Finish(id, result))
    ensures Inv(Apply(s, Finish(id, result)))
  {
    var w := s.me.workers[id];
    assert WorkerOk(s.peer.requests, s.theirs, w, id);
    assert Distinct(s.peer.requests);
    hide Conserved, TokensOk, SettledOk, RequestOk, AnswerOk;
    var a := Answer(w.channel, w.payload, Handled(result));
    FinishKeeps(s.peer.requests, s.me.workers, Inbox(s.me, s.back), Inbox(s.peer, s.out), s.theirs, id, result, a);
    AnswerKeepsTokens(s.peer.requests, s.peer.mail, s.peer.settled, s.theirs, id, a);
    assert Apply(s, Finish(id, result)) ==
           s.(me := FinishWork(s.me, id, result), theirs := Answered(s.theirs, s.peer.requests, id, a));
    assert Inbox(FinishWork(s.me, id, result), s.back) == Inbox(s.me, s.back);
    hide Apply, Inbox;
    var u := Pair(FinishWork(s.me, id, result), s.peer, s.out, s.back, s.mine,
                  Answered(s.theirs, s.peer.requests, id, a));
    hide Answered;
    assert Half(u);
    assert Half(Flip(u));
  }

  lemma RespondStep(s: Pair, id: Id)
    requires Inv(s) && Enabled(s, Respond(id))
    ensures Inv(Apply(s, Respond(id)))
  {
    hide Conserved;
  }

  lemma TurnRequestStep(s: Pair)
    requires Inv(s) && Enabled(s, Turn) && s.me.mail.value.Request? && Fresh(s.me)
    ensures Inv(Apply(s, Turn))
  {
    hide Conserved;
    var e, n := s.me.mail.value, s.me;
    var id := NextId(n.lastId);
    var f := Frame(e.channel, id, Value(e.payload));
    RequestKeeps(n.requests, s.peer.workers, Inbox(s.peer, s.out), Inbox(n, s.back), s.mine,
                 id, Pending(e.token, n.issued + 1), f);
    OtherSent(s.peer.requests, n.workers, Inbox(n, s.back), Inbox(s.peer, s.out), s.theirs, f);
    InboxAppends(s.peer, s.out, f);
  }

  lemma ReplyTurn(s: Pair)
    requires Enabled(s, Turn) && s.me.mail.value.Incoming?
    requires s.me.mail.value.frame.channel == CHANNEL_RESPONSE && s.me.mail.value.frame.id in s.me.requests
    ensures var (n, f) := (s.me, s.me.mail.value.frame);
            Apply(s, Turn) == s.(me := n.(mail := None, requests := n.requests - {f.id},
                                          settled := n.settled + [(n.requests[f.id].token, ToSettlement(f.body))]))
  {
    assert Dispatch(s.me).1 == [];
    assert s.out + [] == s.out;
  }

  lemma RefuseTurn(s: Pair, g: Frame, a: Answer)
    requires Enabled(s, Turn) && s.me.mail.value.Incoming?
    requires var f := s.me.mail.value.frame;
             && f.channel != CHANNEL_RESPONSE && f.channel !in s.me.channels
             && g == Frame(CHANNEL_RESPONSE, f.id, Failure(UNKNOWN_CHANNEL_ERROR))
             && a == Answer(f.channel, f.body, Refused)
    ensures Apply(s, Turn) == s.(me := s.me.(mail := None), out := s.out + [g],
                                 theirs := Answered(s.theirs, s.peer.requests, g.id, a))
  {
    assert Dispatch(s.me).1 == [g];
  }

  lemma TurnReplyStep(s: Pair)
    requires Inv(s) && Enabled(s, Turn)
    requires s.me.mail.value.Incoming? && s.me.mail.value.frame.channel == CHANNEL_RESPONSE
    ensures Inv(Apply(s, Turn))
  {
    var n, f := s.me, s.me.mail.value.frame;
    assert Inbox(n, s.back) == [f] + s.back;
    assert AnswerOk(n.requests, s.mine, f.body, f.id) by {
      assert f in Inbox(n, s.back);
    }
    hide Conserved, TokensOk, SettledOk, AnswerOk;
    ReplyKeeps(n.requests, s.peer.workers, Inbox(s.peer, s.out), Inbox(n, s.back), s.mine);
    OtherTaken(s.peer.requests, n.workers, Inbox(n, s.back), Inbox(s.peer, s.out), s.theirs);
    var m := n.(mail := None, requests := n.requests - {f.id},
                settled := n.settled + [(n.requests[f.id].token, ToSettlement(f.body))]);
    ReplyTurn(s);
    hide Apply, Dispatch, DispatchReply;
    MailTaken(n.requests, n.mail, s.mine);
    SettleKeepsTokens(n.requests, n.settled, s.mine, f.id, f.body);
    InboxIsWire(m, s.back);
    hide Inbox, MailFrame, ToSettlement;
    var u := s.(me := m);
    assert Half(u);
    assert Half(Flip(u));
  }

  lemma MailTaken(requests: Table, mail: Option<Event>, t: Talk)
    requires TokensOk(requests, mail, t)
    ensures TokensOk(requests, None, t)
  {
  }

  lemma TurnStartStep(s: Pair)
    requires Inv(s) && Enabled(s, Turn) && s.me.mail.value.Incoming?
    requires s.me.mail.value.frame.channel != CHANNEL_RESPONSE && s.me.mail.value.frame.channel in s.me.channels
    ensures Inv(Apply(s, Turn))
  {
    hide Conserved;
    var n := s.me;
    assert Inbox(n, s.back)[1..] == s.back && s.out + [] == s.out;
    StartKeeps(s.peer.requests, n.workers, Inbox(n, s.back), Inbox(s.peer, s.out), s.theirs);
    OtherTaken(n.requests, s.peer.workers, Inbox(s.peer, s.out), Inbox(n, s.back), s.mine);
    InboxIsWire(Apply(s, Turn).me, s.back);
  }

  lemma TurnRefuseStep(s: Pair)
    requires Inv(s) && Enabled(s, Turn) && s.me.mail.value.Incoming?
    requires s.me.mail.value.frame.channel != CHANNEL_RESPONSE && s.me.mail.value.frame.channel !in s.me.channels
    ensures Inv(Apply(s, Turn))
  {
    var n, f := s.me, s.me.mail.value.frame;
    var g := Frame(CHANNEL_RESPONSE, f.id, Failure(UNKNOWN_CHANNEL_ERROR));
    var a := Answer(f.channel, f.body, Refused);
    assert Inbox(n, s.back) == [f] + s.back;
    assert RequestOk(s.peer.requests, s.theirs, f.channel, f.body, f.id) by {
      assert f in Inbox(n, s.back);
    }
    assert Distinct(s.peer.requests);
    hide Conserved, TokensOk, SettledOk;
    RefuseKeeps(s.peer.requests, n.workers, Inbox(n, s.back), Inbox(s.peer, s.out), s.theirs, g);
    OtherTaken(n.requests, s.peer.workers, Inbox(s.peer, s.out), Inbox(n, s.back), s.mine);
    assert Inbox(n, s.back)[1..] == s.back;
    OtherSent(n.requests, s.peer.workers, Inbox(s.peer, s.out), s.back, s.mine, g);
    AnswerKeepsTokens(s.peer.requests, s.peer.mail, s.peer.settled, s.theirs, f.id, a);
    MailTaken(n.requests, n.mail, s.mine);
    var m := n.(mail := None);
    RefuseTurn(s, g, a);
    InboxAppends(s.peer, s.out, g);
    InboxIsWire(m, s.back);
    hide Apply, Dispatch, RequestOk, Inbox, MailFrame;
    var u := Pair(m, s.peer, s.out + [g], s.back, s.mine, Answered(s.theirs, s.peer.requests, f.id, a));
    hide Answered;
    assert Half(u);
    assert Half(Flip(u));
  }

  lemma TurnResponseStep(s: Pair)
    requires Inv(s) && Enabled(s, Turn) && s.me.mail.value.Response?
    ensures Inv(Apply(s, Turn))
  {
    hide Conserved;
    var n, id := s.me, s.me.mail.value.id;
    var f := Frame(CHANNEL_RESPONSE, id, ToBody(n.workers[id].result.value));
    SendKeeps(s.peer.requests, n.workers, Inbox(n, s.back), Inbox(s.peer, s.out), s.theirs, id, f);
    OtherSent(n.requests, s.peer.workers, Inbox(s.peer, s.out), Inbox(n, s.back), s.mine, f);
    InboxAppends(s.peer, s.out, f);
    assert Inbox(n.(mail := None), s.back) == Inbox(n, s.back);
  }

  /** Every step keeps the invariant, provided that a dispatched call gets a fresh id. */
  lemma StepKeeps(s: Pair, step: Step)
    requires Inv(s) && Enabled(s, step)
    requires step.Turn? && s.me.mail.value.Request? ==> Fresh(s.me)
    ensures Inv(Apply(s, step))
  {
    hide Conserved, TokensOk, SettledOk;
    match step {
      case Call(_, _, _) => CallStep(s, step);
      case Receive => ReceiveStep(s);
      case Finish(id, result) => FinishStep(s, id, result);
      case Respond(id) => RespondStep(s, id);
      case Turn =>
        match s.me.mail.value {
          case Request(_, _, _) => TurnRequestStep(s);
          case Incoming(f) =>
            if f.channel == CHANNEL_RESPONSE {
              TurnReplyStep(s);
            } else if f.channel in s.me.channels {
              TurnStartStep(s);
            } else {
              TurnRefuseStep(s);
            }
          case Response(_) => TurnResponseStep(s);
          case Exception =>
        }
      case Channels(cs) => ChannelsStep(s, cs);
    }
  }

  lemma ChannelsStep(s: Pair, cs: set<Channel>)
    requires Inv(s)
    ensures Inv(Apply(s, Channels(cs)))
  {
    hide Conserved;
  }

  // --- Runs

  /** A step of this side, or of the peer. */
  datatype Move = Mine(step: Step) | Theirs(step: Step)

  function View(s: Pair, m: Move): Pair {
    if m.Mine? then s else Flip(s)
  }

  /** A move that can be made, where a call that gets its id has no outstanding predecessor of the
      same node that is 65536 calls older. */
  ghost predicate Legal(s: Pair, m: Move) {
    var v := View(s, m);
    && Enabled(v, m.step)
    && (m.step.Turn? && v.me.mail.value.Request? ==> Young(v.me))
  }

  function Moved(s: Pair, m: Move): Pair
    requires Enabled(View(s, m), m.step)
  {
    var v := Apply(View(s, m), m.step);
    if m.Mine? then v else Flip(v)
  }

  ghost predicate Run(s: Pair, moves: seq<Move>, end: Pair)
    decreases |moves|
  {
    if moves == [] then s == end
    else Legal(s, moves[0]) && Run(Moved(s, moves[0]), moves[1..], end)
  }

  function InitPair(mine: set<Channel>, theirs: set<Channel>): Pair {
    Pair(InitNode(mine), InitNode(theirs), [], [], Talk(map[], map[]), Talk(map[], map[]))
  }

  ghost predicate Good(s: Pair) {
    Inv(s) && Numbered(s.me) && Numbered(s.peer)
  }

  lemma StepKeepsNumbers(s: Pair, step: Step)
    requires Numbered(s.me) && Enabled(s, step)
    ensures Numbered(Apply(s, step).me) && Apply(s, step).peer == s.peer
  {
    if step.Turn? {
      DispatchKeepsNumbers(s.me);
      hide Dispatch;
    }
  }

  lemma MoveKeeps(s: Pair, m: Move)
    requires Good(s) && Legal(s, m)
    ensures Good(Moved(s, m))
  {
    var v := View(s, m);
    hide Half, Apply, Numbered;
    if m.step.Turn? && v.me.mail.value.Request? {
      YoungIsFresh(v.me);
    }
    StepKeeps(v, m.step);
    StepKeepsNumbers(v, m.step);
  }

  lemma {:induction false} RunKeeps(s: Pair, moves: seq<Move>, end: Pair)
    requires Good(s) && Run(s, moves, end)
    ensures Good(end)
    decreases |moves|
  {
    hide Good;
    if moves != [] {
      MoveKeeps(s, moves[0]);
      RunKeeps(Moved(s, moves[0]), moves[1..], end);
    }
  }

  lemma RunFromStart(cs: set<Channel>, ds: set<Channel>, moves: seq<Move>, end: Pair)
    requires Run(InitPair(cs, ds), moves, end)
    ensures Good(end)
  {
    hide Run;
    RunKeeps(InitPair(cs, ds), moves, end);
  }

  /** What the caller sees for each way in which its call can be answered. */
  predicate Right(x: Settlement, made: Made) {
    match made
    case Handled(Returns(bytes)) => x == Fulfilled(bytes)
    case Handled(ThrowsRpc(error)) => x == RemoteError(error)
    case Handled(ThrowsSystem(code)) => x == RemoteError(Error(SYSTEM, code))
    case Handled(ThrowsOther) => x == RemoteError(Error(APPLICATION, NOPE))
    case Refused => x == RemoteError(Error(TRANSPORT, UNKNOWN_CHANNEL))
  }

  /** A completed call of a node was answered from that call's own channel and payload, and the caller
      got exactly what the handler returned or threw, or the error for an unknown channel. */
  ghost predicate OwnReplies(n: Node, t: Talk) {
    forall p :: p in n.settled ==>
      && p.0 in t.calls && p.0 in t.answers
      && t.answers[p.0].channel == t.calls[p.0].0
      && t.answers[p.0].payload == Value(t.calls[p.0].1)
      && Right(p.1, t.answers[p.0].made)
  }

  lemma CarriedRight(made: Made)
    ensures Right(ToSettlement(Carried(made)), made)
  {
  }

  lemma SettledRight(n: Node, t: Talk)
    requires SettledOk(n.settled, t)
    ensures OwnReplies(n, t)
  {
    hide Carried, ToSettlement, Right;
    forall p | p in n.settled
      ensures p.0 in t.answers && Right(p.1, t.answers[p.0].made)
    {
      CarriedRight(t.answers[p.0].made);
    }
  }

  /** Correlation, in every reachable state and for the calls of both nodes. */
  lemma CallsGetTheirOwnReply(cs: set<Channel>, ds: set<Channel>, moves: seq<Move>, end: Pair)
    requires Run(InitPair(cs, ds), moves, end)
    ensures OwnReplies(end.me, end.mine) && OwnReplies(end.peer, end.theirs)
  {
    RunFromStart(cs, ds, moves, end);
    hide OwnReplies, Run, SettledOk, TokensOk, Conserved;
    SettledRight(end.me, end.mine);
    SettledRight(end.peer, end.theirs);
  }

  /** Conservation: in every reachable state each outstanding id of either node is in exactly one
      place, no place holds any other id, and neither dispatcher has met a missing or doubled key. */
  lemma EachCallInOnePlace(cs: set<Channel>, ds: set<Channel>, moves: seq<Move>, end: Pair)
    requires Run(InitPair(cs, ds), moves, end)
    ensures forall id: Id ::
              Places(end.peer.workers, Inbox(end.peer, end.out), Inbox(end.me, end.back))[id]
              == if id in end.me.requests then 1 else 0
    ensures forall id: Id ::
              Places(end.me.workers, Inbox(end.me, end.back), Inbox(end.peer, end.out))[id]
              == if id in end.peer.requests then 1 else 0
    ensures !end.me.stuck && !end.peer.stuck
  {
    RunFromStart(cs, ds, moves, end);
  }

  /** The answer on record is the handler's: a task that finishes with a result answers the call it was
      started for, with that call's channel and payload. */
  lemma HandlerAnswers(s: Pair, id: Id, result: Result)
    requires Inv(s) && Enabled(s, Finish(id, result))
    ensures id in s.peer.requests
    ensures var (token, u) := (s.peer.requests[id].token, Apply(s, Finish(id, result)).theirs);
            && token in s.theirs.calls && token in u.answers
            && u.answers[token]
               == Answer(s.theirs.calls[token].0, Value(s.theirs.calls[token].1), Handled(result))
  {
    hide RequestsOk, RepliesOk, SettledOk;
    assert Places(s.me.workers, Inbox(s.me, s.back), Inbox(s.peer, s.out))[id] >= 1;
    assert WorkerOk(s.peer.requests, s.theirs, s.me.workers[id], id);
  }

  ghost predicate Keeps(t: Talk, u: Talk) {
    forall token :: token in t.answers ==> token in u.answers && u.answers[token] == t.answers[token]
  }

  lemma StepAnswersStay(s: Pair, step: Step)
    requires Inv(s) && Enabled(s, step)
    ensures Keeps(s.theirs, Apply(s, step).theirs)
    ensures Apply(s, step).mine.answers == s.mine.answers
  {
    if step.Finish? {
      assert WorkerOk(s.peer.requests, s.theirs, s.me.workers[step.id], step.id);
      hide Half, Dispatch;
    } else if step.Turn? {
      TurnAnswersStay(s);
      hide Half, Dispatch, TurnAnswers, Keeps;
    } else {
      hide Half;
    }
  }

  /** A call in the mailbox of its server is not answered yet. */
  lemma MailIsUnanswered(s: Pair, f: Frame)
    requires Half(Flip(s)) && s.me.mail == Some(Incoming(f)) && f.channel != CHANNEL_RESPONSE
    ensures RequestOk(s.peer.requests, s.theirs, f.channel, f.body, f.id)
  {
    hide WorkersOk, RepliesOk, TokensOk, SettledOk, RequestOk, Places, Alive;
    assert f in Inbox(s.me, s.back);
  }

  lemma TurnAnswersStay(s: Pair)
    requires Inv(s) && Enabled(s, Turn)
    ensures Keeps(s.theirs, TurnAnswers(s))
  {
    hide Half;
    if s.me.mail.value.Incoming? && s.me.mail.value.frame.channel != CHANNEL_RESPONSE {
      MailIsUnanswered(s, s.me.mail.value.frame);
    }
  }

  lemma MoveAnswersStay(s: Pair, m: Move)
    requires Inv(s) && Legal(s, m)
    ensures Keeps(s.mine, Moved(s, m).mine) && Keeps(s.theirs, Moved(s, m).theirs)
  {
    hide Half, Apply;
    StepAnswersStay(View(s, m), m.step);
  }

  lemma {:induction false} RunAnswersStay(s: Pair, moves: seq<Move>, end: Pair)
    requires Good(s) && Run(s, moves, end)
    ensures Keeps(s.mine, end.mine) && Keeps(s.theirs, end.theirs)
    decreases |moves|
  {
    if moves != [] {
      MoveKeeps(s, moves[0]);
      MoveAnswersStay(s, moves[0]);
      hide Good, Legal, Moved;
      RunAnswersStay(Moved(s, moves[0]), moves[1..], end);
    }
  }

  /** An answer is given once: from any reachable state on, no run ever replaces it. */
  lemma AnswersStay(cs: set<Channel>, ds: set<Channel>, moves: seq<Move>, s: Pair, more: seq<Move>, end: Pair)
    requires Run(InitPair(cs, ds), moves, s) && Run(s, more, end)
    ensures Keeps(s.mine, end.mine) && Keeps(s.theirs, end.theirs)
  {
    RunFromStart(cs, ds, moves, s);
    hide Good, Run, Keeps;
    RunAnswersStay(s, more, end);
  }

  /** Dispatching a call under an id that is still outstanding puts the id in two places. */
  lemma StaleBreaks(r: Table, ws: Workers, there: seq<Frame>, back: seq<Frame>, t: Talk, f: Frame)
    requires Conserved(r, ws, there, back, t) && f.id in r && f.channel != CHANNEL_RESPONSE
    ensures !Conserved(r, ws, there + [f], back, t)
  {
    AppendRequestIds(there, [f]);
    assert RequestIds([f]) == multiset{f.id};
    assert Places(ws, there, back)[f.id] == 1;
    assert Places(ws, there + [f], back)[f.id] == 2;
  }

  /** Dispatching a call keeps the table and the places in step exactly if its id is fresh. */
  lemma ConservedExactlyIfFresh(s: Pair)
    requires Inv(s) && Enabled(s, Turn) && s.me.mail.value.Request?
    ensures Fresh(s.me) <==> (Half(Apply(s, Turn)) && Half(Flip(Apply(s, Turn))))
  {
    if Fresh(s.me) {
      TurnRequestStep(s);
    } else {
      var e, id := s.me.mail.value, NextId(s.me.lastId);
      var f := Frame(e.channel, id, Value(e.payload));
      StaleBreaks(s.me.requests, s.peer.workers, Inbox(s.peer, s.out), Inbox(s.me, s.back), s.mine, f);
      InboxAppends(s.peer, s.out, f);
      var t := Apply(s, Turn);
      hide Conserved, TokensOk, SettledOk;
      assert Inbox(t.me, t.back) == Inbox(s.me, s.back);
      assert t.out == s.out + [f] && t.me.requests == s.me.requests;
    }
  }
}
