/** How the server's log of hits can be read back, with nothing but the client's actions at hand. */
module Hearing {
  import opened Options
  import opened HookedThread

  /** The next call's number, and the calls whose return is still to be heard, the latest last. */
  datatype Score = Score(calls: nat, open: seq<int>)

  /** Reads a log from call number `n` on. A call is open if its action is break-on-return, and a
      return must be that of the latest open call. */
  function Play(hits: seq<Hit>, plan: nat -> Action, n: nat, open: seq<int>): Option<Score> {
    if hits == [] then Some(Score(n, open))
    else if !hits[0].isReturning
    then Play(hits[1..], plan, n + 1, if plan(n).BreakOnReturn? then open + [hits[0].va] else open)
    else if open != [] && open[|open| - 1] == hits[0].va
    then Play(hits[1..], plan, n, open[..|open| - 1])
    else None
  }

  /** The calls of a log. */
  function CallsIn(hits: seq<Hit>): seq<int> {
    if hits == [] then []
    else (if hits[0].isReturning then [] else [hits[0].va]) + CallsIn(hits[1..])
  }

  /** The calls of a log that were not skipped. */
  function Ran(hits: seq<Hit>, plan: nat -> Action, n: nat): seq<int> {
    if hits == [] then []
    else if hits[0].isReturning then Ran(hits[1..], plan, n)
    else (if plan(n).Skip? then [] else [hits[0].va]) + Ran(hits[1..], plan, n + 1)
  }

  /** How many returns of `va` a log has. */
  function ReturnsOf(hits: seq<Hit>, va: int): nat {
    if hits == [] then 0
    else (if hits[0] == Hit(va, true) then 1 else 0) + ReturnsOf(hits[1..], va)
  }

  lemma {:induction false} PlayAppends(a: seq<Hit>, b: seq<Hit>, plan: nat -> Action, n: nat, open: seq<int>)
    ensures Play(a + b, plan, n, open)
            == match Play(a, plan, n, open)
               case None => None
               case Some(s) => Play(b, plan, s.calls, s.open)
  {
    if a == [] {
      assert a + b == b;
    } else {
      assert (a + b)[0] == a[0] && (a + b)[1..] == a[1..] + b;
      if !a[0].isReturning {
        PlayAppends(a[1..], b, plan, n + 1, if plan(n).BreakOnReturn? then open + [a[0].va] else open);
      } else if open != [] && open[|open| - 1] == a[0].va {
        PlayAppends(a[1..], b, plan, n, open[..|open| - 1]);
      }
    }
  }

  lemma {:induction false} PlayCounts(hits: seq<Hit>, plan: nat -> Action, n: nat, open: seq<int>)
    ensures Play(hits, plan, n, open).Some? ==> Play(hits, plan, n, open).value.calls == n + |CallsIn(hits)|
  {
    if hits != [] {
      if !hits[0].isReturning {
        PlayCounts(hits[1..], plan, n + 1, if plan(n).BreakOnReturn? then open + [hits[0].va] else open);
      } else if open != [] {
        PlayCounts(hits[1..], plan, n, open[..|open| - 1]);
      }
    }
  }

  lemma {:induction false} CallsAppend(a: seq<Hit>, b: seq<Hit>)
    ensures CallsIn(a + b) == CallsIn(a) + CallsIn(b)
  {
    if a == [] {
      assert a + b == b;
    } else {
      assert (a + b)[0] == a[0] && (a + b)[1..] == a[1..] + b;
      CallsAppend(a[1..], b);
    }
  }

  lemma {:induction false} RanAppends(a: seq<Hit>, b: seq<Hit>, plan: nat -> Action, n: nat)
    ensures Ran(a + b, plan, n) == Ran(a, plan, n) + Ran(b, plan, n + |CallsIn(a)|)
  {
    if a == [] {
      assert a + b == b;
    } else {
      var m := if a[0].isReturning then n else n + 1;
      assert (a + b)[0] == a[0] && (a + b)[1..] == a[1..] + b;
      RanAppends(a[1..], b, plan, m);
      assert m + |CallsIn(a[1..])| == n + |CallsIn(a)|;
    }
  }

  lemma {:induction false} ReturnsAppends(a: seq<Hit>, b: seq<Hit>, va: int)
    ensures ReturnsOf(a + b, va) == ReturnsOf(a, va) + ReturnsOf(b, va)
  {
    if a == [] {
      assert a + b == b;
    } else {
      assert (a + b)[0] == a[0] && (a + b)[1..] == a[1..] + b;
      ReturnsAppends(a[1..], b, va);
    }
  }

  lemma {:induction false} RanAll(hits: seq<Hit>, plan: nat -> Action, n: nat)
    requires forall k :: !plan(k).Skip?
    ensures Ran(hits, plan, n) == CallsIn(hits)
  {
    if hits != [] {
      RanAll(hits[1..], plan, if hits[0].isReturning then n else n + 1);
    }
  }
}
