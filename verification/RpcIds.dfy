/** Call ids: a 16-bit counter that wraps. */
module RpcIds {
  import opened Options
  import opened Wire
  import opened RpcNode
  import opened Machine

  /** Bitwise and of two naturals. */
  function And(x: nat, y: nat): nat {
    if x == 0 || y == 0 then 0 else x % 2 * (y % 2) + 2 * And(x / 2, y / 2)
  }

  lemma {:induction false} AndDigits(x: nat, y: nat, k: nat)
    ensures Digit(And(x, y), k) == Digit(x, k) * Digit(y, k)
  {
    var a, b := x % 2 * (y % 2), And(x / 2, y / 2);
    if x == 0 || y == 0 {
      ZeroDigits(k);
    } else {
      assert And(x, y) % 2 == a && And(x, y) / 2 == b;
      if k > 0 {
        AndDigits(x / 2, y / 2, k - 1);
      }
    }
  }

  lemma {:induction false} ZeroDigits(k: nat)
    ensures Digit(0, k) == 0
  {
    if k > 0 {
      ZeroDigits(k - 1);
    }
  }

  lemma AndOdd(x: nat, p: nat)
    requires p > 0
    ensures And(x, 2 * p - 1) == x % 2 + 2 * And(x / 2, p - 1)
  {
    var y := 2 * p - 1;
    assert y % 2 == 1 && y / 2 == p - 1;
  }

  lemma LowBitsStep(x: nat, p: nat)
    requires p > 0 && And(x / 2, p - 1) == x / 2 % p
    ensures And(x, 2 * p - 1) == x % (2 * p)
  {
    hide And;
    AndOdd(x, p);
    DoubleMod(x, p);
  }

  lemma {:induction false} LowBits(x: nat, n: nat)
    ensures And(x, Pow2(n) - 1) == x % Pow2(n)
  {
    if n > 0 {
      hide And;
      LowBits(x / 2, n - 1);
      LowBitsStep(x, Pow2(n - 1));
    }
  }

  lemma DoubleMod(x: nat, p: nat)
    requires p > 0
    ensures x % (2 * p) == x % 2 + 2 * (x / 2 % p)
  {
    var a, b := x / 2 / p, x / 2 % p;
    assert x / 2 == p * a + b;
    ModIs(x, 2 * p, a, x % 2 + 2 * b);
  }

  lemma ModIs(x: nat, m: nat, q: nat, r: nat)
    requires x == m * q + r && r < m
    ensures x % m == r
  {
    var d := x / m - q;
    assert m * d == r - x % m;
    assert d == 0;
  }

  /** The Python peer's next id: `(last + 1) & 0xffff`. */
  function PyNextId(last: Id): nat {
    And(last + 1, 0xffff)
  }

  /** Both nodes number their calls alike. */
  lemma SameNextId(last: Id)
    ensures PyNextId(last) == NextId(last)
  {
    assert Pow2(8) == 0x100;
    assert Pow2(16) == 0x1_0000;
    LowBits(last + 1, 16);
  }

  /** The id of the `k`-th call of a node. */
  function IdOf(k: nat): Id {
    if k == 0 then 0 else NextId(IdOf(k - 1))
  }

  lemma {:induction false} IdWraps(k: nat)
    ensures IdOf(k) == k % 0x1_0000
  {
    if k > 0 {
      IdWraps(k - 1);
    }
  }

  /** Two calls share an id exactly if a multiple of 65536 calls lies between them, so the ids of
      fewer than 65537 successive calls are distinct and the next one repeats the first. */
  lemma IdsCollide(j: nat, k: nat)
    requires j <= k
    ensures IdOf(j) == IdOf(k) <==> (k - j) % 0x1_0000 == 0
    ensures j < k < j + 0x1_0000 ==> IdOf(j) != IdOf(k)
    ensures IdOf(j) == IdOf(j + 0x1_0000)
  {
    hide IdOf;
    IdWraps(j);
    IdWraps(k);
    IdWraps(j + 0x1_0000);
    assert k - j == 0x1_0000 * (k / 0x1_0000 - j / 0x1_0000) + (k % 0x1_0000 - j % 0x1_0000);
  }

  /** Each entry of the table sits at the id of the call that made it. */
  ghost predicate Numbered(n: Node) {
    && n.lastId == IdOf(n.issued)
    && forall id :: id in n.requests ==> n.requests[id].number <= n.issued && id == IdOf(n.requests[id].number)
  }

  predicate Fresh(n: Node) {
    NextId(n.lastId) !in n.requests
  }

  /** Fewer than 65536 calls, counting the next one, were made after any outstanding call. */
  predicate Young(n: Node) {
    forall id :: id in n.requests ==> n.issued + 1 - n.requests[id].number < 0x1_0000
  }

  lemma NextNumber(n: Node)
    requires Numbered(n)
    ensures NextId(n.lastId) == IdOf(n.issued + 1)
  {
  }

  lemma YoungIsFresh(n: Node)
    requires Numbered(n) && Young(n)
    ensures Fresh(n)
  {
    var id := NextId(n.lastId);
    NextNumber(n);
    if id in n.requests {
      IdsCollide(n.requests[id].number, n.issued + 1);
    }
  }

  /** The next id is taken exactly if some outstanding call is a multiple of 65536 calls old. */
  lemma StaleExactly(n: Node)
    requires Numbered(n)
    ensures !Fresh(n) <==> exists id :: id in n.requests && (n.issued + 1 - n.requests[id].number) % 0x1_0000 == 0
  {
    var next := NextId(n.lastId);
    NextNumber(n);
    forall id | id in n.requests
      ensures id == next <==> (n.issued + 1 - n.requests[id].number) % 0x1_0000 == 0
    {
      IdsCollide(n.requests[id].number, n.issued + 1);
    }
  }

  lemma RequestKeepsNumbers(n: Node, channel: Channel, payload: Bytes, token: Token)
    requires Numbered(n)
    ensures Numbered(DispatchRequest(n, channel, payload, token).0)
  {
    NextNumber(n);
    hide IdOf, NextId;
  }

  lemma DispatchKeepsNumbers(n: Node)
    requires Numbered(n) && CanTurn(n)
    ensures Numbered(Dispatch(n).0)
  {
    hide IdOf, NextId, DispatchRequest, SweepRequests, SweepWorkers;
    if n.mail.value.Request? {
      var e := n.mail.value;
      RequestKeepsNumbers(n.(mail := None), e.channel, e.payload, e.token);
    }
  }
}
