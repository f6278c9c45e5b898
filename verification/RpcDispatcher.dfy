/** The node as the program keeps it: a reason with one payload field for each kind of event, and
    the tables, updated in place. Every method is one critical section. */
module RpcDispatcher {
  import opened Options
  import opened Wire
  import opened RpcNode

  datatype Reason = NoReason | ForRequest | ForIncoming | ForResponse | ForException

  /** What `call` throws at once. */
  datatype CallResult = Deposited | ConnectionLost | NotReady | ReservedChannel

  class Rpc {
    var ready: bool
    var lastResponse: Id
    var reason: Reason
    var request: (Channel, Bytes, Token)
    var incoming: Frame
    var response: Id
    var exception: bool
    var requests: Table
    var workers: Workers
    var channels: set<Channel>
    var settled: seq<(Token, Settlement)>
    var sent: seq<Frame>
    var running: bool
    var stuck: bool
    var issued: nat                    // how many ids were given out; the program does not keep it
    ghost var accepted: seq<Token>
    ghost var deposits: seq<Event>     // events put into the mailbox, in order
    ghost var dispatched: seq<Event>   // events the dispatcher has handled, in order

    constructor (channels: set<Channel>)
      ensures Valid() && Abs() == InitNode(channels) && sent == [] && !exception && !ready
      ensures deposits == [] && dispatched == []
    {
      ready, lastResponse, reason, exception := false, 0, NoReason, false;
      request, incoming, response := (0, [], 0), Frame(0, 0, Value([])), 0;
      requests, workers, this.channels, settled, sent := map[], map[], channels, [], [];
      running, stuck := true, false;
      issued, accepted, deposits, dispatched := 0, [], [], [];
    }

    /** The event in the mailbox: the reason selects one payload field, the others are stale. */
    ghost function Mail(): Option<Event>
      reads this
    {
      match reason
      case NoReason => None
      case ForRequest => Some(Request(request.0, request.1, request.2))
      case ForIncoming => Some(Incoming(incoming))
      case ForResponse => Some(Response(response))
      case ForException => Some(Exception)
    }

    ghost function Abs(): Node
      reads this
    {
      Node(lastResponse, issued, Mail(), requests, workers, channels, accepted, settled, running, stuck)
    }

    /** The mailbox is a queue: what was put in is what was handled, in order, and then what waits. */
    ghost predicate Valid()
      reads this
    {
      deposits == dispatched + if Mail().Some? then [Mail().value] else []
    }

    /** `call`, up to where it blocks on its promise. */
    method Call(channel: Channel, payload: Bytes, token: Token) returns (r: CallResult)
      requires Valid() && reason.NoReason?
      modifies this`request, this`reason, this`deposits
      ensures Valid()
      ensures r == if exception then ConnectionLost else if !ready then NotReady
                   else if channel == CHANNEL_RESPONSE then ReservedChannel else Deposited
      ensures r.Deposited? ==> Abs() == Deposit(old(Abs()), Request(channel, payload, token))
      ensures r.Deposited? ==> deposits == old(deposits) + [Request(channel, payload, token)]
      ensures !r.Deposited? ==> Abs() == old(Abs()) && deposits == old(deposits)
    {
      if exception {
        return ConnectionLost;
      }
      if !ready {
        return NotReady;
      }
      if channel == CHANNEL_RESPONSE {
        return ReservedChannel;
      }
      request := (channel, payload, token);
      reason := ForRequest;
      deposits := deposits + [Request(channel, payload, token)];
      return Deposited;
    }

    /** The receiver hands over a frame. */
    method Receive(f: Frame)
      requires Valid() && reason.NoReason?
      modifies this`incoming, this`reason, this`deposits
      ensures Valid() && Abs() == Deposit(old(Abs()), Incoming(f)) && deposits == old(deposits) + [Incoming(f)]
    {
      incoming := f;
      reason := ForIncoming;
      deposits := deposits + [Incoming(f)];
    }

    /** The receiver has lost the connection. */
    method Lose()
      requires Valid() && reason.NoReason?
      modifies this`exception, this`reason, this`deposits
      ensures Valid() && exception
      ensures Abs() == Deposit(old(Abs()), Exception) && deposits == old(deposits) + [Exception]
    {
      exception := true;
      reason := ForException;
      deposits := deposits + [Exception];
    }

    /** A task tells that its result is there. */
    method Respond(id: Id)
      requires Valid() && reason.NoReason?
      modifies this`response, this`reason, this`deposits
      ensures Valid() && Abs() == Deposit(old(Abs()), Response(id)) && deposits == old(deposits) + [Response(id)]
    {
      response := id;
      reason := ForResponse;
      deposits := deposits + [Response(id)];
    }

    /** One turn of the dispatcher. */
    method Turn()
      requires Valid() && CanTurn(Abs())
      modifies this
      ensures Valid() && Mail().None?
      ensures Abs() == Dispatch(old(Abs())).0 && sent == old(sent) + Dispatch(old(Abs())).1
      ensures dispatched == old(dispatched) + [old(Mail().value)] && deposits == old(deposits)
    {
      ghost var event := Mail().value;
      Handle();
      reason := NoReason;
      dispatched := dispatched + [event];
    }

    method Handle()
      requires CanTurn(Abs())
      modifies this`lastResponse, this`issued, this`accepted, this`requests, this`settled, this`sent,
               this`workers, this`stuck, this`running
      ensures Abs().(mail := None) == Dispatch(old(Abs())).0
      ensures sent == old(sent) + Dispatch(old(Abs())).1
    {
      match reason {
        case ForRequest => TakeRequest();
        case ForIncoming =>
          if incoming.channel == CHANNEL_RESPONSE {
            TakeReply();
            assert sent == old(sent) + [];
          } else {
            TakeIncoming();
          }
        case ForResponse => TakeResponse();
        case ForException => TakeException();
      }
    }

    method TakeRequest()
      requires reason.ForRequest?
      modifies this`lastResponse, this`issued, this`accepted, this`requests, this`settled, this`sent
      ensures var (n, out) := DispatchRequest(old(Abs()).(mail := None), request.0, request.1, request.2);
              Abs().(mail := None) == n && sent == old(sent) + out
    {
      lastResponse := NextId(lastResponse);
      issued, accepted := issued + 1, accepted + [request.2];
      if lastResponse in requests {
        settled := settled + [(request.2, BrokenPromise)];
      } else {
        requests := requests[lastResponse := Pending(request.2, issued)];
      }
      sent := sent + [Frame(request.0, lastResponse, Value(request.1))];
    }

    method TakeReply()
      requires reason.ForIncoming?
      modifies this`requests, this`settled, this`stuck
      ensures Abs().(mail := None) == DispatchReply(old(Abs()).(mail := None), incoming)
    {
      if incoming.id !in requests {
        stuck := true;
        return;
      }
      var promise := requests[incoming.id].token;
      requests := requests - {incoming.id};
      match incoming.body {
        case Failure(error) => settled := settled + [(promise, RemoteError(error))];
        case Value(bytes) => settled := settled + [(promise, Fulfilled(bytes))];
      }
    }

    method TakeIncoming()
      requires reason.ForIncoming?
      modifies this`workers, this`stuck, this`sent
      ensures var (n, out) := DispatchIncoming(old(Abs()).(mail := None), incoming);
              Abs().(mail := None) == n && sent == old(sent) + out
    {
      if incoming.channel !in channels {
        sent := sent + [Frame(CHANNEL_RESPONSE, incoming.id, Failure(UNKNOWN_CHANNEL_ERROR))];
      } else if incoming.id in workers {
        stuck := true;
      } else {
        workers := workers[incoming.id := Worker(incoming.channel, incoming.body, None)];
      }
    }

    method TakeResponse()
      requires reason.ForResponse? && (response in workers ==> workers[response].result.Some?)
      modifies this`workers, this`stuck, this`sent
      ensures var (n, out) := DispatchResponse(old(Abs()).(mail := None), response);
              Abs().(mail := None) == n && sent == old(sent) + out
    {
      if response !in workers {
        stuck := true;
        return;
      }
      var result := workers[response].result.value;
      workers := workers - {response};
      match result {
        case Returns(bytes) => sent := sent + [Frame(CHANNEL_RESPONSE, response, Value(bytes))];
        case ThrowsRpc(error) => sent := sent + [Frame(CHANNEL_RESPONSE, response, Failure(error))];
        case ThrowsSystem(code) => sent := sent + [Frame(CHANNEL_RESPONSE, response, Failure(Error(SYSTEM, code)))];
        case ThrowsOther => sent := sent + [Frame(CHANNEL_RESPONSE, response, Failure(Error(APPLICATION, NOPE)))];
      }
    }

    method TakeException()
      requires reason.ForException?
      modifies this`requests, this`workers, this`settled, this`sent, this`running
      ensures Abs().(mail := None) == DispatchException(old(Abs()).(mail := None))
      ensures sent == old(sent) + SweepWorkers(old(workers), 0)
    {
      SweepPromises();
      SweepTasks();
      running := false;
    }

    method SweepPromises()
      modifies this`requests, this`settled
      ensures requests == map[] && settled == old(settled) + SweepRequests(old(requests), 0)
    {
      for id := 0 to 0x1_0000
        invariant requests == old(requests)
        invariant settled + SweepRequests(requests, id) == old(settled) + SweepRequests(requests, 0)
      {
        if id in requests {
          settled := settled + [(requests[id].token, Closed)];
        }
      }
      requests := map[];
    }

    method SweepTasks()
      modifies this`workers, this`sent
      ensures workers == map[] && sent == old(sent) + SweepWorkers(old(workers), 0)
    {
      for id := 0 to 0x1_0000
        invariant workers == old(workers)
        invariant sent + SweepWorkers(workers, id) == old(sent) + SweepWorkers(workers, 0)
      {
        if id in workers {
          sent := sent + [Frame(CHANNEL_RESPONSE, id, Failure(CLOSED_ERROR))];
        }
      }
      workers := map[];
    }
  }
}
