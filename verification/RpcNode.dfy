/** One RPC node: the one-slot mailbox with its several producers, and the dispatcher that alone
    updates the request and worker tables. */
module RpcNode {
  import opened Options
  import opened Wire

  type Channel = Word16
  type Id = Word16
  type Token = nat   // names one call; stands for its promise

  /** What a handler does with a request. */
  datatype Result = Returns(bytes: Bytes) | ThrowsRpc(error: Error) | ThrowsSystem(code: Word32) | ThrowsOther

  /** A running or finished handler task. */
  datatype Worker = Worker(channel: Channel, payload: Body, result: Option<Result>)

  /** An entry of the request table: the promise, and which allocation gave it its id. */
  datatype Pending = Pending(token: Token, number: nat)

  type Table = map<Id, Pending>
  type Workers = map<Id, Worker>

  ghost predicate Distinct(requests: Table) {
    forall x, y :: x in requests && y in requests && requests[x].token == requests[y].token ==> x == y
  }

  datatype Settlement = Fulfilled(bytes: Bytes) | RemoteError(error: Error) | Closed | BrokenPromise

  datatype Event =
    | Request(channel: Channel, payload: Bytes, token: Token)
    | Incoming(frame: Frame)
    | Response(id: Id)
    | Exception

  datatype Node = Node(
    lastId: Id,
    issued: nat,                               // how many ids were allocated
    mail: Option<Event>,
    requests: Table,
    workers: Workers,
    channels: set<Channel>,
    accepted: seq<Token>,                      // promises taken over by the dispatcher, in order
    settled: seq<(Token, Settlement)>,         // promises settled, in order
    running: bool,
    stuck: bool)                               // the dispatcher died on a missing or doubled key

  const CLOSED_ERROR := Error(TRANSPORT, CONNECTION_CLOSED)
  const UNKNOWN_CHANNEL_ERROR := Error(TRANSPORT, UNKNOWN_CHANNEL)

  function InitNode(channels: set<Channel>): Node {
    Node(0, 0, None, map[], map[], channels, [], [], true, false)
  }

  function NextId(id: Id): Id {
    (id + 1) % 0x1_0000
  }

  function ToBody(r: Result): Body {
    match r
    case Returns(bytes) => Value(bytes)
    case ThrowsRpc(error) => Failure(error)
    case ThrowsSystem(code) => Failure(Error(SYSTEM, code))
    case ThrowsOther => Failure(Error(APPLICATION, NOPE))
  }

  function ToSettlement(b: Body): Settlement {
    match b
    case Value(bytes) => Fulfilled(bytes)
    case Failure(error) => RemoteError(error)
  }

  // --- Producers: each waits for an empty mailbox

  function Deposit(n: Node, e: Event): Node
    requires n.mail.None?
  {
    n.(mail := Some(e))
  }

  function FinishWork(n: Node, id: Id, r: Result): Node
    requires id in n.workers && n.workers[id].result.None?
  {
    n.(workers := n.workers[id := n.workers[id].(result := Some(r))])
  }

  // --- The dispatcher: one turn of its loop gives the new node and the frames it sends

  /** There is an event, and if it is a worker's, its result: the dispatcher waits for both. */
  predicate CanTurn(n: Node) {
    && n.mail.Some?
    && (n.mail.value.Response? && n.mail.value.id in n.workers ==> n.workers[n.mail.value.id].result.Some?)
  }

  function Dispatch(n: Node): (Node, seq<Frame>)
    requires CanTurn(n)
  {
    var m := n.(mail := None);
    match n.mail.value
    case Request(channel, payload, token) => DispatchRequest(m, channel, payload, token)
    case Incoming(f) => if f.channel == CHANNEL_RESPONSE then (DispatchReply(m, f), []) else DispatchIncoming(m, f)
    case Response(id) => DispatchResponse(m, id)
    case Exception => (DispatchException(m), SweepWorkers(m.workers, 0))
  }

  /** `emplace` keeps an entry that is already there, and the new promise dies unset. */
  function DispatchRequest(n: Node, channel: Channel, payload: Bytes, token: Token): (Node, seq<Frame>) {
    var id := NextId(n.lastId);
    var m := n.(lastId := id, issued := n.issued + 1, accepted := n.accepted + [token]);
    (if id in n.requests
     then m.(settled := n.settled + [(token, BrokenPromise)])
     else m.(requests := n.requests[id := Pending(token, n.issued + 1)]),
     [Frame(channel, id, Value(payload))])
  }

  function DispatchReply(n: Node, f: Frame): Node {
    if f.id !in n.requests then n.(stuck := true)
    else n.(requests := n.requests - {f.id},
            settled := n.settled + [(n.requests[f.id].token, ToSettlement(f.body))])
  }

  function DispatchIncoming(n: Node, f: Frame): (Node, seq<Frame>) {
    if f.channel !in n.channels then (n, [Frame(CHANNEL_RESPONSE, f.id, Failure(UNKNOWN_CHANNEL_ERROR))])
    else if f.id in n.workers then (n.(stuck := true), [])
    else (n.(workers := n.workers[f.id := Worker(f.channel, f.body, None)]), [])
  }

  /** The producer of this event was the worker itself. */
  function DispatchResponse(n: Node, id: Id): (Node, seq<Frame>)
    requires id in n.workers ==> n.workers[id].result.Some?
  {
    if id !in n.workers then (n.(stuck := true), [])
    else (n.(workers := n.workers - {id}),
          [Frame(CHANNEL_RESPONSE, id, ToBody(n.workers[id].result.value))])
  }

  function DispatchException(n: Node): Node {
    n.(settled := n.settled + SweepRequests(n.requests, 0), requests := map[], workers := map[], running := false)
  }

  /** The promises of the table from id `lo` up, in the order of the table. */
  function SweepRequests(requests: Table, lo: nat): seq<(Token, Settlement)>
    decreases 0x1_0000 - lo
  {
    if lo >= 0x1_0000 then []
    else (if lo in requests then [(requests[lo].token, Closed)] else []) + SweepRequests(requests, lo + 1)
  }

  function SweepWorkers(workers: Workers, lo: nat): seq<Frame>
    decreases 0x1_0000 - lo
  {
    if lo >= 0x1_0000 then []
    else (if lo in workers then [Frame(CHANNEL_RESPONSE, lo, Failure(CLOSED_ERROR))] else [])
         + SweepWorkers(workers, lo + 1)
  }
}
