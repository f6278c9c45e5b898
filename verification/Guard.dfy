/** The victim's thread-local flag: a hook reached from inside a guarded routine of the hook machinery
    passes through. The two system calls that read and write the flag are made outside the guard, so
    they must not lead to a hook themselves. */
module Guard {
  import opened Options
  import opened HookedThread
  import opened Hearing

  /** What a thread does: it calls functions, which call functions. For a hooked one, `inside` is what
      each guarded routine of the machinery calls on its behalf while the flag is set; `stopping` and
      `returnStopping` say whether the victim is being stopped when the callback's wait ends. */
  datatype Act =
    | Plain(body: seq<Act>)
    | Hooked(va: int, stopping: bool, breakOnReturn: bool, returnStopping: bool, inside: seq<Act>, body: seq<Act>)

  /** What a call of TlsGetValue and of TlsSetValue amounts to. */
  datatype Tls = Tls(read: Act, write: Act)

  /** What the server hears, and whether the thread comes through. */
  datatype Heard = Heard(reports: seq<Hit>, alive: bool)

  /** What the server hears of these calls on a thread whose hooks are reported. Calls made by the
      machinery are never among them. A declined return is where a thread ends. */
  function Hears(acts: seq<Act>): Heard {
    if acts == [] then Heard([], true)
    else
      var h := HearsOne(acts[0]);
      if !h.alive then h
      else var r := Hears(acts[1..]); Heard(h.reports + r.reports, r.alive)
  }

  function HearsOne(act: Act): Heard {
    match act
    case Plain(body) => Hears(body)
    case Hooked(va, stopping, breakOnReturn, returnStopping, _, body) =>
      var b := Hears(body);
      if stopping then b
      else if b.alive && breakOnReturn && !returnStopping
      then Heard([Hit(va, false)] + b.reports + [Hit(va, true)], true)
      else Heard([Hit(va, false)] + b.reports, b.alive && !breakOnReturn)
  }

  predicate HasHook(acts: seq<Act>) {
    acts != [] && (IsHooked(acts[0]) || HasHook(acts[1..]))
  }

  /** A hooked function is called here, at any depth. */
  predicate IsHooked(act: Act) {
    match act
    case Plain(body) => HasHook(body)
    case Hooked(_, _, _, _, _, _) => true
  }

  predicate Clear(tls: Tls) {
    !IsHooked(tls.read) && !IsHooked(tls.write)
  }

  lemma {:induction false} ClearIsSilent(acts: seq<Act>)
    requires !HasHook(acts)
    ensures Hears(acts) == Heard([], true)
  {
    if acts != [] {
      ClearIsSilent(acts[0].body);
      ClearIsSilent(acts[1..]);
    }
  }

  // --- What is heard, in terms of the calls alone

  /** The calls that the victim does not let pass, in the order in which they begin, with whether the
      client breaks on their return. */
  function Calls(acts: seq<Act>): seq<(int, bool)> {
    if acts == [] then [] else CallsOf(acts[0]) + Calls(acts[1..])
  }

  function CallsOf(act: Act): seq<(int, bool)> {
    match act
    case Plain(body) => Calls(body)
    case Hooked(va, stopping, breakOnReturn, _, _, body) =>
      (if stopping then [] else [(va, breakOnReturn)]) + Calls(body)
  }

  /** Some return that the client breaks on is declined. */
  predicate Caught(acts: seq<Act>) {
    acts != [] && (CaughtIn(acts[0]) || Caught(acts[1..]))
  }

  predicate CaughtIn(act: Act) {
    match act
    case Plain(body) => Caught(body)
    case Hooked(_, stopping, breakOnReturn, returnStopping, _, body) =>
      Caught(body) || (!stopping && breakOnReturn && returnStopping)
  }

  /** The client's plan breaks on the return of the calls `cs`, numbered from `n`, that say so. */
  ghost predicate Follows(plan: nat -> Action, n: nat, cs: seq<(int, bool)>) {
    forall i :: 0 <= i < |cs| ==> (plan(n + i).BreakOnReturn? <==> cs[i].1)
  }

  function Addresses(cs: seq<(int, bool)>): seq<int> {
    if cs == [] then [] else [cs[0].0] + Addresses(cs[1..])
  }

  function Breaks(cs: seq<(int, bool)>, va: int): nat {
    if cs == [] then 0 else (if cs[0] == (va, true) then 1 else 0) + Breaks(cs[1..], va)
  }

  /** The log `hits` tells of exactly the calls `cs`, from number `n` on: the same calls in order, a
      return for each that is broken on, each return that of the latest open call, none left open. */
  ghost predicate TellsOf(hits: seq<Hit>, cs: seq<(int, bool)>) {
    && CallsIn(hits) == Addresses(cs)
    && (forall va :: ReturnsOf(hits, va) == Breaks(cs, va))
    && forall plan: nat -> Action, n: nat, open: seq<int> :: Follows(plan, n, cs) ==>
         Play(hits, plan, n, open) == Some(Score(n + |cs|, open))
  }

  lemma {:induction false} ListsAppend(a: seq<(int, bool)>, b: seq<(int, bool)>)
    ensures Addresses(a + b) == Addresses(a) + Addresses(b)
    ensures forall va :: Breaks(a + b, va) == Breaks(a, va) + Breaks(b, va)
  {
    if a == [] {
      assert a + b == b;
    } else {
      assert (a + b)[0] == a[0] && (a + b)[1..] == a[1..] + b;
      ListsAppend(a[1..], b);
    }
  }

  lemma FollowsParts(plan: nat -> Action, n: nat, a: seq<(int, bool)>, b: seq<(int, bool)>)
    requires Follows(plan, n, a + b)
    ensures Follows(plan, n, a) && Follows(plan, n + |a|, b)
  {
    forall i | 0 <= i < |a| ensures plan(n + i).BreakOnReturn? <==> a[i].1 {
      assert (a + b)[i] == a[i];
    }
    forall i | 0 <= i < |b| ensures plan(n + |a| + i).BreakOnReturn? <==> b[i].1 {
      assert (a + b)[|a| + i] == b[i];
    }
  }

  lemma TellsAppend(h: seq<Hit>, a: seq<(int, bool)>, g: seq<Hit>, b: seq<(int, bool)>)
    requires TellsOf(h, a) && TellsOf(g, b)
    ensures TellsOf(h + g, a + b)
  {
    ListsAppend(a, b);
    CallsAppend(h, g);
    forall va ensures ReturnsOf(h + g, va) == Breaks(a + b, va) {
      ReturnsAppends(h, g, va);
    }
    forall plan: nat -> Action, n: nat, open: seq<int> | Follows(plan, n, a + b)
      ensures Play(h + g, plan, n, open) == Some(Score(n + |a + b|, open))
    {
      FollowsParts(plan, n, a, b);
      PlayAppends(h, g, plan, n, open);
    }
  }

  /** A call that is not broken on, and then what its body tells. */
  lemma TellsCall(va: int, h: seq<Hit>, a: seq<(int, bool)>)
    requires TellsOf(h, a)
    ensures TellsOf([Hit(va, false)] + h, [(va, false)] + a)
  {
    var one, call := [Hit(va, false)], [(va, false)];
    assert one[1..] == [] && call[1..] == [];
    forall plan: nat -> Action, n: nat, open: seq<int> | Follows(plan, n, call)
      ensures Play(one, plan, n, open) == Some(Score(n + |call|, open))
    {
      assert !call[0].1;
      assert !plan(n + 0).BreakOnReturn?;
      assert Play(one[1..], plan, n + 1, open) == Some(Score(n + 1, open));
    }
    TellsAppend(one, call, h, a);
  }

  lemma BreakPlays(va: int, h: seq<Hit>, plan: nat -> Action, n: nat, m: nat, open: seq<int>)
    requires plan(n).BreakOnReturn?
    requires Play(h, plan, n + 1, open + [va]) == Some(Score(m, open + [va]))
    ensures Play([Hit(va, false)] + h + [Hit(va, true)], plan, n, open) == Some(Score(m, open))
  {
    var one, back := [Hit(va, false)], [Hit(va, true)];
    assert one[1..] == [] && back[1..] == [] && (open + [va])[..|open + [va]| - 1] == open;
    PlayAppends(one, h, plan, n, open);
    PlayAppends(one + h, back, plan, n, open);
    assert Play(one, plan, n, open) == Play(one[1..], plan, n + 1, open + [va]);
    assert Play(back, plan, m, open + [va]) == Play(back[1..], plan, m, open);
  }

  lemma BreakCounts(va: int, h: seq<Hit>, a: seq<(int, bool)>)
    requires CallsIn(h) == Addresses(a)
    requires forall w :: ReturnsOf(h, w) == Breaks(a, w)
    ensures CallsIn([Hit(va, false)] + h + [Hit(va, true)]) == Addresses([(va, true)] + a)
    ensures forall w :: ReturnsOf([Hit(va, false)] + h + [Hit(va, true)], w) == Breaks([(va, true)] + a, w)
  {
    var one, back, call := [Hit(va, false)], [Hit(va, true)], [(va, true)];
    assert one[1..] == [] && back[1..] == [] && call[1..] == [];
    assert CallsIn(one) == [va] + CallsIn([]) && CallsIn(back) == CallsIn([]);
    assert Addresses(call) == [va] + Addresses([]);
    ListsAppend(call, a);
    CallsAppend(one, h);
    CallsAppend(one + h, back);
    forall w ensures ReturnsOf(one + h + back, w) == Breaks(call + a, w) {
      ReturnsAppends(one, h, w);
      ReturnsAppends(one + h, back, w);
      assert ReturnsOf(one, w) == ReturnsOf([], w);
      assert ReturnsOf(back, w) == Breaks(call, w);
    }
  }

  /** A call that is broken on, what its body tells, and its return. */
  lemma TellsBreak(va: int, h: seq<Hit>, a: seq<(int, bool)>)
    requires TellsOf(h, a)
    ensures TellsOf([Hit(va, false)] + h + [Hit(va, true)], [(va, true)] + a)
  {
    hide CallsIn, Addresses, ReturnsOf, Breaks, Play;
    BreakCounts(va, h, a);
    var call := [(va, true)];
    forall plan: nat -> Action, n: nat, open: seq<int> | Follows(plan, n, call + a)
      ensures Play([Hit(va, false)] + h + [Hit(va, true)], plan, n, open) == Some(Score(n + |call + a|, open))
    {
      FollowsParts(plan, n, call, a);
      assert call[0].1 && plan(n + 0).BreakOnReturn?;
      BreakPlays(va, h, plan, n, n + |call + a|, open);
    }
  }

  /** A thread comes through exactly if no return that the client breaks on is declined, and then the
      server has heard of exactly the calls that were not let pass, and of their returns. */
  lemma {:induction false} HearsCalls(acts: seq<Act>)
    ensures Hears(acts).alive <==> !Caught(acts)
    ensures Hears(acts).alive ==> TellsOf(Hears(acts).reports, Calls(acts))
  {
    if acts != [] {
      HearsCall(acts[0]);
      HearsCalls(acts[1..]);
      if Hears(acts).alive {
        TellsAppend(HearsOne(acts[0]).reports, CallsOf(acts[0]), Hears(acts[1..]).reports, Calls(acts[1..]));
      }
      hide TellsOf;
    }
  }

  lemma {:induction false} HearsCall(act: Act)
    ensures HearsOne(act).alive <==> !CaughtIn(act)
    ensures HearsOne(act).alive ==> TellsOf(HearsOne(act).reports, CallsOf(act))
  {
    hide TellsOf;
    HearsCalls(act.body);
    assert [] + Calls(act.body) == Calls(act.body);
    if act.Hooked? && HearsOne(act).alive && !act.stopping {
      if act.breakOnReturn {
        TellsBreak(act.va, Hears(act.body).reports, Calls(act.body));
      } else {
        TellsCall(act.va, Hears(act.body).reports, Calls(act.body));
      }
    }
  }

  /** Whatever becomes of the thread, the calls heard are the first of those calls, in order. */
  lemma {:induction false} HearsFirst(acts: seq<Act>)
    ensures CallsIn(Hears(acts).reports) <= Addresses(Calls(acts))
  {
    if acts != [] {
      HearsFirstOf(acts[0]);
      HearsFirst(acts[1..]);
      ListsAppend(CallsOf(acts[0]), Calls(acts[1..]));
      CallsAppend(HearsOne(acts[0]).reports, Hears(acts[1..]).reports);
      HearsCall(acts[0]);
    }
  }

  lemma {:induction false} HearsFirstOf(act: Act)
    ensures CallsIn(HearsOne(act).reports) <= Addresses(CallsOf(act))
  {
    HearsFirst(act.body);
    assert [] + Calls(act.body) == Calls(act.body);
    if act.Hooked? && !act.stopping {
      var h, one, call := Hears(act.body).reports, [Hit(act.va, false)], [(act.va, act.breakOnReturn)];
      assert one[1..] == [] && call[1..] == [] && [Hit(act.va, true)][1..] == [];
      assert CallsIn(one) == [act.va] + CallsIn(one[1..]) && Addresses(call) == [act.va] + Addresses(call[1..]);
      assert CallsIn([Hit(act.va, true)]) == CallsIn([Hit(act.va, true)][1..]);
      CallsAppend(one, h);
      CallsAppend(one + h, [Hit(act.va, true)]);
      ListsAppend([(act.va, act.breakOnReturn)], Calls(act.body));
    }
  }

  class Thread {
    var tls: int
    var guards: nat                 // slimtls_guard objects alive
    var reports: seq<Hit>
    const isRpcThread: bool

    constructor (isRpcThread: bool)
      ensures Valid() && tls == 0 && reports == [] && this.isRpcThread == isRpcThread
    {
      tls, guards, reports, this.isRpcThread := 0, 0, [], isRpcThread;
    }

    /** The flag is set exactly while one guard is alive, and there is never more than one. */
    ghost predicate Valid()
      reads this
    {
      guards <= 1 && (tls != 0 <==> guards == 1)
    }

    predicate Internal()
      reads this
    {
      tls != 0 || isRpcThread
    }

    /** A system call on the flag. */
    method SystemCall(call: Act, t: Tls)
      requires Valid() && Clear(t) && !IsHooked(call)
      modifies this
      ensures Valid() && tls == old(tls) && reports == old(reports)
      decreases false, call, 5
    {
      ClearIsSilent(call.body);
      var _ := RunOne(call, t);
    }

    /** A routine under slimtls_guard; `tls == 0` on entry means that guards do not nest. */
    method Guarded(inside: seq<Act>, t: Tls)
      requires Valid() && Clear(t) && tls == 0
      modifies this
      ensures Valid() && tls == 0 && reports == old(reports)
      decreases true, inside, 1
    {
      SystemCall(t.write, t);
      tls, guards := 1, guards + 1;
      var _ := RunAll(inside, t);
      SystemCall(t.write, t);
      tls, guards := 0, guards - 1;
    }

    method OnHook(va: int, isReturning: bool, stopping: bool, inside: seq<Act>, t: Tls) returns (accepted: bool)
      requires Valid() && Clear(t)
      modifies this
      ensures Valid() && tls == old(tls)
      ensures accepted == (!old(Internal()) && !stopping)
      ensures reports == old(reports) + if accepted then [Hit(va, isReturning)] else []
      decreases true, inside, 2
    {
      SystemCall(t.read, t);
      if tls != 0 {
        return false;
      }
      SystemCall(t.read, t);
      if isRpcThread {
        return false;
      }
      Guarded(inside, t);
      if stopping {
        return false;
      }
      reports := reports + [Hit(va, isReturning)];
      return true;
    }

    method RunAll(acts: seq<Act>, t: Tls) returns (alive: bool)
      requires Valid() && Clear(t)
      modifies this
      ensures Valid() && tls == old(tls)
      ensures old(Internal()) ==> alive && reports == old(reports)
      ensures !old(Internal()) ==> Hears(acts).alive == alive && reports == old(reports) + Hears(acts).reports
      decreases HasHook(acts), acts, 0
    {
      alive := true;
      if acts != [] {
        alive := RunOne(acts[0], t);
        if alive {
          alive := RunAll(acts[1..], t);
        }
      }
    }

    method RunOne(act: Act, t: Tls) returns (alive: bool)
      requires Valid() && Clear(t)
      modifies this
      ensures Valid() && tls == old(tls)
      ensures old(Internal()) ==> alive && reports == old(reports)
      ensures !old(Internal()) ==> HearsOne(act).alive == alive && reports == old(reports) + HearsOne(act).reports
      decreases IsHooked(act), act, 3
    {
      match act {
        case Plain(body) => alive := RunAll(body, t);
        case Hooked(va, stopping, breakOnReturn, returnStopping, inside, body) =>
          var accepted := OnHook(va, false, stopping, inside, t);
          if accepted && breakOnReturn {
            Guarded(inside, t);   // push of the hook pointer
            Guarded(inside, t);   // push of the return address
          }
          alive := RunAll(body, t);
          if alive && accepted && breakOnReturn {
            Guarded(inside, t);   // the two pops
            Guarded(inside, t);
            alive := OnHook(va, true, returnStopping, inside, t);
          }
      }
    }
  }

  // --- Hooks on the system calls themselves

  /** Do these calls come to an end, when calls of the machinery on the flag may nest `depth` deep? */
  predicate Ends(acts: seq<Act>, t: Tls, flag: bool, rpc: bool, depth: nat)
    decreases depth, acts
  {
    acts == [] || (EndsOne(acts[0], t, flag, rpc, depth) && Ends(acts[1..], t, flag, rpc, depth))
  }

  predicate EndsOne(act: Act, t: Tls, flag: bool, rpc: bool, depth: nat)
    decreases depth, act
  {
    match act
    case Plain(body) => Ends(body, t, flag, rpc, depth)
    case Hooked(_, _, _, _, inside, body) =>
      && depth > 0
      && EndsOne(t.read, t, flag, rpc, depth - 1)
      && (flag || rpc ||
          (&& EndsOne(t.write, t, false, rpc, depth - 1)
           && Ends(inside, t, true, rpc, depth)
           && EndsOne(t.write, t, true, rpc, depth - 1)))
      && Ends(body, t, flag, rpc, depth)
  }

  /** The system calls that a hooked call makes here lead to no hook: with the flag set, or on an RPC
      thread, the flag is only read. */
  predicate Safe(t: Tls, flag: bool, rpc: bool) {
    !IsHooked(t.read) && (flag || rpc || !IsHooked(t.write))
  }

  lemma {:induction false} SafeEnds(acts: seq<Act>, t: Tls, flag: bool, rpc: bool, depth: nat)
    requires !HasHook(acts) || (Safe(t, flag, rpc) && depth > 0)
    ensures Ends(acts, t, flag, rpc, depth)
    decreases depth, acts
  {
    if acts != [] {
      SafeEnds(acts[0].body, t, flag, rpc, depth);
      SafeEnds(acts[1..], t, flag, rpc, depth);
      if acts[0].Hooked? {
        SafeEnds([t.read], t, flag, rpc, depth - 1);
        if !flag && !rpc {
          SafeEnds(acts[0].inside, t, true, rpc, depth);
          SafeEnds([t.write], t, false, rpc, depth - 1);
          SafeEnds([t.write], t, true, rpc, depth - 1);
        }
      }
    }
  }

  /** A hooked function that is reached calls back for ever if a system call that it makes on the flag
      leads to a hook. */
  lemma {:induction false} HookedTlsNeverEnds(act: Act, t: Tls, flag: bool, rpc: bool, depth: nat)
    requires !Safe(t, flag, rpc) && IsHooked(act)
    ensures !EndsOne(act, t, flag, rpc, depth)
    decreases depth, act, 1
  {
    match act {
      case Plain(body) => BodyNeverEnds(body, t, flag, rpc, depth);
      case Hooked(_, _, _, _, inside, _) =>
        if depth > 0 {
          HookedTlsNeverEnds(if IsHooked(t.read) then t.read else t.write, t, flag, rpc, depth - 1);
        }
    }
  }

  lemma {:induction false} BodyNeverEnds(acts: seq<Act>, t: Tls, flag: bool, rpc: bool, depth: nat)
    requires !Safe(t, flag, rpc) && HasHook(acts)
    ensures !Ends(acts, t, flag, rpc, depth)
    decreases depth, acts, 0
  {
    if IsHooked(acts[0]) {
      HookedTlsNeverEnds(acts[0], t, flag, rpc, depth);
    } else {
      BodyNeverEnds(acts[1..], t, flag, rpc, depth);
    }
  }

  predicate EndsWithin(acts: seq<Act>, t: Tls, flag: bool, rpc: bool, depth: nat) {
    Ends(acts, t, flag, rpc, depth)
  }

  /** What a thread does comes to an end exactly if it calls no hooked function, or the system calls on
      the flag that are made on the way lead to none: with the flag clear on a thread whose hooks are
      reported, neither of them. */
  lemma EndsExactlyIfClear(acts: seq<Act>, t: Tls, flag: bool, rpc: bool)
    ensures (exists depth :: EndsWithin(acts, t, flag, rpc, depth)) <==> !HasHook(acts) || Safe(t, flag, rpc)
    ensures Safe(t, false, false) <==> Clear(t)
  {
    if HasHook(acts) && !Safe(t, flag, rpc) {
      forall depth ensures !EndsWithin(acts, t, flag, rpc, depth) {
        BodyNeverEnds(acts, t, flag, rpc, depth);
      }
    } else {
      SafeEnds(acts, t, flag, rpc, 1);
      assert EndsWithin(acts, t, flag, rpc, 1);
    }
  }

  /** With TlsGetValue hooked, a call of it, or of any other hooked function, never ends. */
  lemma HookedTlsGetValue(va: int, act: Act, write: Act, depth: nat)
    requires IsHooked(act)
    ensures !Ends([act], Tls(Hooked(va, false, false, false, [], []), write), false, false, depth)
  {
    BodyNeverEnds([act], Tls(Hooked(va, false, false, false, [], []), write), false, false, depth);
  }
}
