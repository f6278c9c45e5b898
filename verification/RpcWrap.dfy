/** The freshness bound of the two-node system is tight: a run that keeps it up to the last call
    reaches a call whose id is still outstanding, and dispatching that call breaks its promise. */
module RpcWrap {
  import opened Options
  import opened Wire
  import opened RpcNode
  import opened RpcIds
  import opened RpcPair

  lemma {:induction false} RunAppends(s: Pair, moves: seq<Move>, mid: Pair, m: Move)
    requires Run(s, moves, mid) && Legal(mid, m)
    ensures Run(s, moves + [m], RpcPair.Moved(mid, m))
    decreases |moves|
  {
    var all := moves + [m];
    if moves == [] {
      assert all[1..] == [];
      assert Run(RpcPair.Moved(mid, m), all[1..], RpcPair.Moved(mid, m));
    } else {
      assert all[0] == moves[0] && all[1..] == moves[1..] + [m];
      RunAppends(RpcPair.Moved(s, moves[0]), moves[1..], mid, m);
    }
  }

  /** `k` calls were dispatched, with their numbers as promises, and none was answered. */
  ghost predicate Flooded(s: Pair, k: nat) {
    && s.me.mail.None? && s.me.running && !s.me.stuck && s.me.settled == []
    && s.me.issued == k && Numbered(s.me)
    && (forall t :: t in s.mine.calls ==> t <= k)
    && (forall id :: id in s.me.requests ==> s.me.requests[id].number > 0)
    && (forall j :: 1 <= j <= k ==> IdOf(j) in s.me.requests && s.me.requests[IdOf(j)] == Pending(j, j))
  }

  /** One more call, up to where it waits in the mailbox. */
  lemma FloodCall(s: Pair, k: nat, channel: Channel) returns (u: Pair)
    requires Flooded(s, k) && channel != CHANNEL_RESPONSE
    ensures var m := Mine(Call(channel, [], k + 1)); Legal(s, m) && u == RpcPair.Moved(s, m)
    ensures u.me == s.me.(mail := Some(Request(channel, [], k + 1)))
    ensures u.mine.calls == s.mine.calls[k + 1 := (channel, [])]
  {
    u := RpcPair.Moved(s, Mine(Call(channel, [], k + 1)));
  }

  /** Its id is fresh as long as it is one of the first 65536. */
  lemma FloodFresh(s: Pair, u: Pair, k: nat, channel: Channel)
    requires Flooded(s, k) && k < 0x1_0000
    requires u.me == s.me.(mail := Some(Request(channel, [], k + 1)))
    ensures Legal(u, Mine(Turn)) && Fresh(s.me)
  {
    hide IdOf, NextId;
    YoungIsFresh(u.me);
  }

  /** It joins the table. */
  lemma FloodGrows(s: Pair, v: Pair, k: nat, channel: Channel)
    requires Flooded(s, k) && Fresh(s.me)
    requires v.me == DispatchRequest(s.me, channel, [], k + 1).0
    requires v.mine.calls == s.mine.calls[k + 1 := (channel, [])]
    ensures Flooded(v, k + 1)
  {
    hide IdOf, NextId, Numbered;
    RequestKeepsNumbers(s.me, channel, [], k + 1);
    NextNumber(s.me);
    var id, p := IdOf(k + 1), Pending(k + 1, k + 1);
    assert v.me.requests == s.me.requests[id := p] && id !in s.me.requests;
    hide DispatchRequest, Fresh;
    forall j | 1 <= j <= k ensures IdOf(j) in v.me.requests && v.me.requests[IdOf(j)] == Pending(j, j) {
    }
  }

  lemma FloodTurn(s: Pair, u: Pair, k: nat, channel: Channel) returns (v: Pair)
    requires Flooded(s, k) && k < 0x1_0000
    requires u.me == s.me.(mail := Some(Request(channel, [], k + 1)))
    requires u.mine.calls == s.mine.calls[k + 1 := (channel, [])]
    ensures Legal(u, Mine(Turn)) && v == RpcPair.Moved(u, Mine(Turn)) && Flooded(v, k + 1)
  {
    FloodFresh(s, u, k, channel);
    v := RpcPair.Moved(u, Mine(Turn));
    assert v.me == DispatchRequest(s.me, channel, [], k + 1).0 by {
      hide DispatchRequest, Numbered, Legal, Fresh;
    }
    hide Dispatch, DispatchRequest, Apply, RpcPair.Moved, View, Legal, Fresh, Flooded;
    FloodGrows(s, v, k, channel);
  }

  lemma {:induction false} Flood(cs: set<Channel>, ds: set<Channel>, channel: Channel, k: nat)
    returns (moves: seq<Move>, s: Pair)
    requires channel != CHANNEL_RESPONSE && k <= 0x1_0000
    ensures Run(InitPair(cs, ds), moves, s) && Flooded(s, k)
  {
    if k == 0 {
      moves, s := [], InitPair(cs, ds);
    } else {
      moves, s := Flood(cs, ds, channel, k - 1);
      var u := FloodCall(s, k - 1, channel);
      RunAppends(InitPair(cs, ds), moves, s, Mine(Call(channel, [], k)));
      moves := moves + [Mine(Call(channel, [], k))];
      var v := FloodTurn(s, u, k - 1, channel);
      RunAppends(InitPair(cs, ds), moves, u, Mine(Turn));
      moves, s := moves + [Mine(Turn)], v;
    }
  }

  /** After 65536 of them, the next call meets the id of the first. */
  lemma FloodedIsStale(s: Pair, u: Pair, channel: Channel)
    requires Flooded(s, 0x1_0000)
    requires u.me == s.me.(mail := Some(Request(channel, [], 0x1_0001)))
    ensures Enabled(u, Turn) && !Fresh(u.me)
    ensures Apply(u, Turn).me.settled == [(0x1_0001, BrokenPromise)]
  {
    hide IdOf, NextId;
    NextNumber(u.me);
    IdsCollide(1, 0x1_0001);
    assert IdOf(1) in s.me.requests;
  }

  /** 65536 calls that nobody answers leave an id under which the next call breaks its promise
      and the correspondence of table and places. */
  lemma BoundIsTight(cs: set<Channel>, ds: set<Channel>) returns (moves: seq<Move>, end: Pair)
    ensures Run(InitPair(cs, ds), moves, end) && Enabled(end, Turn) && end.me.mail.value.Request?
    ensures !Fresh(end.me) && !Inv(Apply(end, Turn))
    ensures Apply(end, Turn).me.settled == [(0x1_0001, BrokenPromise)]
  {
    var s;
    moves, s := Flood(cs, ds, 1, 0x1_0000);
    end := FloodCall(s, 0x1_0000, 1);
    var last := Mine(Call(1, [], 0x1_0001));
    RunAppends(InitPair(cs, ds), moves, s, last);
    moves := moves + [last];
    FloodedIsStale(s, end, 1);
    hide Flooded, Run, Apply, InitPair;
    RunFromStart(cs, ds, moves, end);
    hide Half;
    ConservedExactlyIfFresh(end);
  }
}
