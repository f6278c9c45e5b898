/** The instrumented run of a program on a hooked thread, proved against the reference. */
module Transparency {
  import opened Machine
  import opened HookedThread
  import opened Program
  import opened Alignment
  import opened Hearing
  import opened Options
  import opened Reporting

  /** The thread's hook table serves the hooked addresses, and `pointers` finds the entry patched
      into each detour. RPC threads report no hits. */
  ghost predicate Hooked(e: Setting, pointers: map<int, int>, t: Thread) {
    && e.faults
    && pointers.Keys == e.hooked
    && (forall va :: va in pointers ==> pointers[va] in t.hooks && t.hooks[pointers[va]].va == va)
    && t.isRpcThread == !e.reports
  }

  /** The thread shows the program the reference state: the same registers, and the same defined
      stack cells except for return addresses that a return stub has diverted. */
  ghost predicate Shows(t: Thread, s: State, diverted: set<int>)
    reads t
  {
    && t.tls == 0 && t.vol == s.vol && t.rest == s.rest && t.rsp == s.rsp
    && t.bodies == s.bodies && t.hits == s.hits
    && ShowsStack(t.mem, s.stack, diverted)
    && forall a :: a in s.stack ==> s.rsp <= a
  }

  ghost predicate ShowsStack(m: Memory, stack: map<int, int>, diverted: set<int>) {
    forall a :: a in stack ==> m.At(a) == if a in diverted then RETURN_ROUTINE else stack[a]
  }

  /** A function entered with RSP at its return address: its detour, the hit and what the server
      makes of it, the original body, and for break-on-return the second hit. */
  method EnterHooked(t: Thread, e: Setting, pointers: map<int, int>, va: int, count: Count,
                     ghost s: State, ghost live: set<int>, ghost diverted: set<int>, ghost fuel: nat)
    returns (count': Count)
    requires Hooked(e, pointers, t)
    requires Shows(t, s, diverted) && diverted <= live && count == s.count
    requires s.rsp in s.stack
    requires Enter(e, va, s, live, fuel).Done?
    modifies t
    ensures Shows(t, Enter(e, va, s, live, fuel).state, diverted)
    ensures count' == Enter(e, va, s, live, fuel).state.count
    ensures t.rip == old(t.mem.At(t.rsp))
    ensures t.returnStack == old(t.returnStack)
    decreases fuel, 1, 2
  {
    hide Body;
    if va !in pointers {
      count' := BodyHooked(t, e, pointers, va, count, s, live, diverted, fuel);
      return;
    }
    if AnswerTo(e, count.callbacks).Passes? {
      t.PassHit(pointers[va], e.reports);
      assert t.rip == t.hooks[pointers[va]].trampoline;
      count' := BodyHooked(t, e, pointers, va, Count(count.calls + 1, count.callbacks + 1),
                           Met(s), live, diverted, fuel);
    } else {
      count' := ServedHooked(t, e, pointers, va, count, s, live, diverted, fuel);
    }
  }

  /** The same for a hit that is reported. */
  method ServedHooked(t: Thread, e: Setting, pointers: map<int, int>, va: int, count: Count,
                      ghost s: State, ghost live: set<int>, ghost diverted: set<int>, ghost fuel: nat)
    returns (count': Count)
    requires Hooked(e, pointers, t) && va in pointers && AnswerTo(e, count.callbacks).Serves?
    requires Shows(t, s, diverted) && diverted <= live && count == s.count
    requires s.rsp in s.stack
    requires Enter(e, va, s, live, fuel).Done?
    modifies t
    ensures Shows(t, Enter(e, va, s, live, fuel).state, diverted)
    ensures count' == Enter(e, va, s, live, fuel).state.count
    ensures t.rip == old(t.mem.At(t.rsp))
    ensures t.returnStack == old(t.returnStack)
    decreases fuel, 1, 1
  {
    hide Body;
    var action := e.plan(count.calls);
    t.TakeHit(pointers[va], action);
    count' := Count(count.calls + 1, count.callbacks + 1);
    match action {
      case Skip(_, _) =>
      case Go =>
        assert t.rip == t.hooks[pointers[va]].trampoline;
        count' := BodyHooked(t, e, pointers, va, count', Reported(s, va), live, diverted, fuel);
      case BreakOnReturn =>
        count' := BreakHooked(t, e, pointers, va, count', Reported(s, va), live, diverted, fuel);
    }
  }

  /** A hooked call that the server sent to the return stub: the body runs with a diverted return
      address, and its return is reported. */
  method BreakHooked(t: Thread, e: Setting, pointers: map<int, int>, va: int, count: Count,
                     ghost s: State, ghost live: set<int>, ghost diverted: set<int>, ghost fuel: nat)
    returns (count': Count)
    requires Hooked(e, pointers, t) && va in pointers && t.tls == 0 && !t.isRpcThread
    requires t.rip == RETURN_STUB && t.rsp == s.rsp - 8 && t.mem.At(t.rsp) == pointers[va]
    requires t.vol == s.vol && t.rest == s.rest && t.bodies == s.bodies && t.hits == s.hits
    requires ShowsStack(t.mem, s.stack, diverted) && forall a :: a in s.stack ==> s.rsp <= a
    requires diverted <= live && count == s.count && s.rsp in s.stack && s.rsp % 16 == 8
    requires Body(e, va, s, live, fuel).Done? && Return(e, va, Body(e, va, s, live, fuel).state).Done?
    modifies t
    ensures var u := Return(e, va, Body(e, va, s, live, fuel).state).state;
            Shows(t, u, diverted) && count' == u.count
    ensures t.rip == old(t.mem.At(t.rsp + 8))
    ensures t.returnStack == old(t.returnStack)
    decreases fuel, 1, 0
  {
    hide Body;
    ghost var slot, home := s.rsp, t.mem.At(s.rsp);
    t.HookLLReturnStub();
    assert ShowsStack(t.mem, s.stack, diverted + {slot});
    assert t.rip == t.hooks[pointers[va]].trampoline;
    count' := BodyHooked(t, e, pointers, va, count, s, live, diverted + {slot}, fuel);
    assert t.rip == RETURN_ROUTINE;
    assert t.returnStack == old(t.returnStack) + [pointers[va], home];
    var _ := t.DivertedReturn(false, false);
    count' := count'.(callbacks := count'.callbacks + 1);
    assert t.returnStack == old(t.returnStack);
  }

  method BodyHooked(t: Thread, e: Setting, pointers: map<int, int>, va: int, count: Count,
                    ghost s: State, ghost live: set<int>, ghost diverted: set<int>, ghost fuel: nat)
    returns (count': Count)
    requires Hooked(e, pointers, t)
    requires Shows(t, s, diverted) && diverted <= live + {s.rsp} && count == s.count
    requires s.rsp in s.stack
    requires Body(e, va, s, live, fuel).Done?
    modifies t
    ensures Shows(t, Body(e, va, s, live, fuel).state, diverted)
    ensures count' == Body(e, va, s, live, fuel).state.count
    ensures t.rip == old(t.mem.At(t.rsp))
    ensures t.returnStack == old(t.returnStack)
    decreases fuel, 0
  {
    t.bodies := t.bodies + [va];
    count' := RunHooked(t, e, pointers, e.code(va), count, s.(bodies := s.bodies + [va]),
                        s.rsp, s.stack[s.rsp], live + {s.rsp}, diverted, fuel - 1);
  }

  /** A `call` instruction and what it leads to, up to the instruction after it. */
  method CallHooked(t: Thread, e: Setting, pointers: map<int, int>, callee: int, returnAddr: int, count: Count,
                    ghost s: State, ghost live: set<int>, ghost diverted: set<int>, ghost fuel: nat)
    returns (count': Count)
    requires Hooked(e, pointers, t)
    requires Shows(t, s, diverted) && diverted <= live && count == s.count
    requires s.rsp - 8 !in live
    requires Enter(e, callee, Called(s, returnAddr), live, fuel).Done?
    modifies t
    ensures Shows(t, Enter(e, callee, Called(s, returnAddr), live, fuel).state, diverted)
    ensures count' == Enter(e, callee, Called(s, returnAddr), live, fuel).state.count
    ensures t.rip == returnAddr
    ensures t.returnStack == old(t.returnStack)
    decreases fuel, 2
  {
    hide Enter;
    t.Push(returnAddr);
    count' := EnterHooked(t, e, pointers, callee, count, Called(s, returnAddr), live, diverted, fuel);
  }

  /** A function that has come to a call: the call, then the rest of the function. */
  method CallAndRunHooked(t: Thread, e: Setting, pointers: map<int, int>, p: Prog, count: Count,
                          ghost s: State, ghost slot: int, ghost home: int,
                          ghost live: set<int>, ghost diverted: set<int>, ghost fuel: nat)
    returns (count': Count)
    requires Hooked(e, pointers, t) && p.Call?
    requires Shows(t, s, diverted) && diverted <= live && slot in live && count == s.count
    requires slot in s.stack ==> s.stack[slot] == home
    requires Run(e, p, s, slot, live, fuel).Done?
    modifies t
    ensures Shows(t, Run(e, p, s, slot, live, fuel).state, diverted)
    ensures count' == Run(e, p, s, slot, live, fuel).state.count
    ensures t.rip == if slot in diverted then RETURN_ROUTINE else home
    ensures t.returnStack == old(t.returnStack)
    decreases fuel, 2, 0
  {
    hide Enter, Shows;
    ghost var s1 := Enter(e, p.va, Called(s, p.returnAddr), live, fuel - 1).state;
    count' := CallHooked(t, e, pointers, p.va, p.returnAddr, count, s, live, diverted, fuel - 1);
    count' := RunHooked(t, e, pointers, p.next, count', s1, slot, home, live, diverted, fuel - 1);
  }

  method RunHooked(t: Thread, e: Setting, pointers: map<int, int>, p: Prog, count: Count,
                   ghost s: State, ghost slot: int, ghost home: int,
                   ghost live: set<int>, ghost diverted: set<int>, ghost fuel: nat)
    returns (count': Count)
    requires Hooked(e, pointers, t)
    requires Shows(t, s, diverted) && diverted <= live && slot in live && count == s.count
    requires slot in s.stack ==> s.stack[slot] == home
    requires Run(e, p, s, slot, live, fuel).Done?
    modifies t
    ensures Shows(t, Run(e, p, s, slot, live, fuel).state, diverted)
    ensures count' == Run(e, p, s, slot, live, fuel).state.count
    ensures t.rip == if slot in diverted then RETURN_ROUTINE else home
    ensures t.returnStack == old(t.returnStack)
    decreases fuel, 2
  {
    hide Enter;
    match p {
      case Ret =>
        t.Ret();
        count' := count;
      case Inspect(view) =>
        count' := RunHooked(t, e, pointers, view(t.vol, t.rest, t.rsp), count,
                            s, slot, home, live, diverted, fuel - 1);
      case Compute(vol, rest, next) =>
        t.vol, t.rest := vol, rest;
        count' := RunHooked(t, e, pointers, next, count,
                            Computed(s, vol, rest), slot, home, live, diverted, fuel - 1);
      case MoveRsp(to, next) =>
        t.rsp := to;
        count' := RunHooked(t, e, pointers, next, count,
                            Moved(s, to), slot, home, live, diverted, fuel - 1);
      case Load(a, value) =>
        count' := RunHooked(t, e, pointers, value(t.mem.At(a)), count, s, slot, home, live, diverted, fuel - 1);
      case Store(a, v, next) =>
        t.mem := t.mem.Put(a, v);
        count' := RunHooked(t, e, pointers, next, count,
                            Stored(s, a, v), slot, home, live, diverted, fuel - 1);
      case Call(_, _, _) =>
        count' := CallAndRunHooked(t, e, pointers, p, count, s, slot, home, live, diverted, fuel);
      case Jump(callee) =>
        count' := EnterHooked(t, e, pointers, callee, count, s, live, diverted, fuel - 1);
    }
  }

  // --- Without Skip, the reference is the run with no hooks at all

  ghost predicate NeverSkips(e: Setting) {
    forall n :: !e.plan(n).Skip?
  }

  /** The same state except for what the server saw. */
  ghost predicate SameState(s: State, u: State) {
    s.(hits := u.hits, count := u.count) == u
  }

  ghost predicate SameOutcome(o: Outcome, u: Outcome) {
    if o.Done? && u.Done? then SameState(o.state, u.state) else o == u || o.Lost?
  }

  /** Agreement of a run and the unhooked one, where the function's return address is at `slot`. */
  ghost predicate Unhooks(slot: int, o: Outcome, w: Outcome) {
    SameOutcome(o, w) && (o.Done? ==> o.state.rsp == slot + 8 && !o.state.skewed)
  }

  lemma {:induction false} EnterUnhooked(e: Setting, va: int, s: State, u: State, live: set<int>, fuel: nat)
    requires NeverSkips(e) && SameState(s, u) && s.rsp % 16 == 8 && !s.skewed
    ensures Unhooks(s.rsp, Enter(e, va, s, live, fuel), Enter(Unhooked(e), va, u, live, fuel))
    decreases fuel, 1
  {
    hide Body, KeepsLive, AnswerTo;
    if va !in e.hooked {
      BodyUnhooked(e, va, s, u, live, fuel);
    } else if AnswerTo(e, s.count.callbacks).Passes? {
      BodyUnhooked(e, va, Met(s), u, live, fuel);
    } else if AnswerTo(e, s.count.callbacks).Serves? {
      BodyUnhooked(e, va, Reported(s, va), u, live, fuel);
    }
  }

  lemma {:induction false} BodyUnhooked(e: Setting, va: int, s: State, u: State, live: set<int>, fuel: nat)
    requires NeverSkips(e) && SameState(s, u) && s.rsp % 16 == 8 && !s.skewed
    ensures Unhooks(s.rsp, Body(e, va, s, live, fuel), Body(Unhooked(e), va, u, live, fuel))
    decreases fuel, 0
  {
    hide Run;
    if fuel > 0 {
      RunUnhooked(e, e.code(va), s.(bodies := s.bodies + [va]), u.(bodies := u.bodies + [va]),
                  s.rsp, live + {s.rsp}, fuel - 1);
    }
  }

  lemma SameView(s: State, u: State)
    requires SameState(s, u)
    ensures s.vol == u.vol && s.rest == u.rest && s.rsp == u.rsp && s.stack == u.stack
  {
  }

  lemma SameMoved(s: State, u: State, to: int)
    requires SameState(s, u)
    ensures SameState(Moved(s, to), Moved(u, to)) && Moved(s, to).rsp == to
  {
  }

  lemma SameComputed(s: State, u: State, vol: Vol, rest: Rest)
    requires SameState(s, u)
    ensures SameState(Computed(s, vol, rest), Computed(u, vol, rest))
  {
  }

  lemma SameStored(s: State, u: State, a: int, v: int)
    requires SameState(s, u)
    ensures SameState(Stored(s, a, v), Stored(u, a, v))
  {
  }

  lemma SameCalled(s: State, u: State, ret: int)
    requires SameState(s, u)
    ensures SameState(Called(s, ret), Called(u, ret)) && Called(s, ret).rsp == s.rsp - 8
  {
  }

  lemma {:induction false} CallUnhooked(e: Setting, va: int, ret: int, next: Prog, s: State, u: State,
                                        slot: int, live: set<int>, fuel: nat)
    requires NeverSkips(e) && SameState(s, u) && slot % 16 == 8 && !s.skewed && fuel > 0
    ensures var p := Call(va, ret, next);
            Unhooks(slot, Run(e, p, s, slot, live, fuel), Run(Unhooked(e), p, u, slot, live, fuel))
    decreases fuel, 1
  {
    SameView(s, u);
    SameCalled(s, u, ret);
    hide Enter, Called, SameState;
    if s.rsp % 16 == 0 {
      var s1, u1 := Called(s, ret), Called(u, ret);
      EnterUnhooked(e, va, s1, u1, live, fuel - 1);
      var o, w := Enter(e, va, s1, live, fuel - 1), Enter(Unhooked(e), va, u1, live, fuel - 1);
      if o.Done? {
        RunUnhooked(e, next, o.state, w.state, slot, live, fuel - 1);
      }
    }
  }

  lemma {:induction false} JumpUnhooked(e: Setting, va: int, s: State, u: State, slot: int, live: set<int>, fuel: nat)
    requires NeverSkips(e) && SameState(s, u) && slot % 16 == 8 && !s.skewed && fuel > 0
    ensures Unhooks(slot, Run(e, Jump(va), s, slot, live, fuel), Run(Unhooked(e), Jump(va), u, slot, live, fuel))
    decreases fuel, 1
  {
    SameView(s, u);
    hide Enter, SameState;
    if s.rsp == slot {
      EnterUnhooked(e, va, s, u, live, fuel - 1);
    }
  }

  lemma {:induction false} RunUnhooked(e: Setting, p: Prog, s: State, u: State, slot: int, live: set<int>, fuel: nat)
    requires NeverSkips(e) && SameState(s, u) && slot % 16 == 8 && !s.skewed
    ensures Unhooks(slot, Run(e, p, s, slot, live, fuel), Run(Unhooked(e), p, u, slot, live, fuel))
    decreases fuel, 2
  {
    SameView(s, u);
    hide Enter, Moved, Stored, Called, Computed, SameState;
    if fuel > 0 {
      match p {
        case Ret => SameMoved(s, u, slot + 8);
        case Inspect(view) => RunUnhooked(e, view(s.vol, s.rest, s.rsp), s, u, slot, live, fuel - 1);
        case Compute(vol, rest, next) =>
          SameComputed(s, u, vol, rest);
          RunUnhooked(e, next, Computed(s, vol, rest), Computed(u, vol, rest), slot, live, fuel - 1);
        case MoveRsp(to, next) =>
          SameMoved(s, u, to);
          RunUnhooked(e, next, Moved(s, to), Moved(u, to), slot, live, fuel - 1);
        case Load(a, value) =>
          if a in s.stack {
            RunUnhooked(e, value(s.stack[a]), s, u, slot, live, fuel - 1);
          }
        case Store(a, v, next) =>
          SameStored(s, u, a, v);
          RunUnhooked(e, next, Stored(s, a, v), Stored(u, a, v), slot, live, fuel - 1);
        case Call(va, ret, next) => CallUnhooked(e, va, ret, next, s, u, slot, live, fuel);
        case Jump(va) => JumpUnhooked(e, va, s, u, slot, live, fuel);
      }
    }
  }

  /** What a thread that started with no hooked call behind it was heard of: every hooked call, the
      returns of those that are broken on, properly nested, and as many calls not skipped, in order, as
      hooked functions were run. */
  ghost predicate HeardOf(e: Setting, hits0: seq<Hit>, hits: seq<Hit>, bodies0: seq<int>, bodies: seq<int>) {
    && hits0 <= hits && bodies0 <= bodies
    && var h := hits[|hits0|..];
    && Play(h, e.plan, 0, []) == Some(Score(|CallsIn(h)|, []))
    && Ran(h, e.plan, 0) == Among(bodies[|bodies0|..], e.hooked)
  }

  /** Any plan, skips included. If all skips release multiples of 16 and the call completes for the
      ideal debugger, the hooked run completes it in the same state, returns to the same address and
      leaves the return stack as it was. */
  method RunAligned(t: Thread, e: Setting, pointers: map<int, int>, va: int,
                    ghost s: State, ghost live: set<int>, ghost fuel: nat)
    requires Hooked(e, pointers, t) && Aligned(e.plan)
    requires Shows(t, s, {}) && s.count == Count(0, 0) && !s.skewed && s.rsp in s.stack && s.rsp % 16 == 8
    requires Enter(Ideal(e), va, s, live, fuel).Done?
    modifies t
    ensures Shows(t, Enter(Ideal(e), va, s, live, fuel).state, {})
    ensures t.rip == old(t.mem.At(t.rsp))
    ensures t.returnStack == old(t.returnStack)
    ensures AllHeard(e) ==> HeardOf(e, old(t.hits), t.hits, old(t.bodies), t.bodies)
  {
    hide Enter;
    EnterAgrees(e, va, s, live, fuel);
    if AllHeard(e) {
      EveryCallIsHeard(e, va, s, live, fuel);
    }
    hide Play, Ran, Among, CallsIn;
    var _ := EnterHooked(t, e, pointers, va, Count(0, 0), s, live, {}, fuel);
  }

  /** Transparency. Take any function on any thread, and suppose that its unhooked run finishes and
      keeps the calling convention. Then the hooked run, with any set of hooks and Go or BreakOnReturn
      chosen at each hooked call, runs the same bodies in the same order and returns to the same
      address with the same registers, memory, RSP and defined stack cells, and leaves the return
      stack as it was, unless a rundown of the victim catches it. */
  method RunTransparently(t: Thread, e: Setting, pointers: map<int, int>, va: int,
                          ghost s: State, ghost live: set<int>, ghost fuel: nat)
    requires Hooked(e, pointers, t) && NeverSkips(e)
    requires Shows(t, s, {}) && s.count == Count(0, 0) && !s.skewed && s.rsp in s.stack && s.rsp % 16 == 8
    requires Enter(Unhooked(e), va, s, live, fuel).Done?
    requires e.rundown.Never? || !Enter(e, va, s, live, fuel).Lost?
    modifies t
    ensures var u := Enter(Unhooked(e), va, s, live, fuel).state;
            && t.bodies == u.bodies
            && t.vol == u.vol && t.rest == u.rest
            && t.rsp == u.rsp == s.rsp + 8
            && (forall a :: a in u.stack ==> t.mem.At(a) == u.stack[a])
    ensures t.rip == old(t.mem.At(t.rsp))
    ensures t.returnStack == old(t.returnStack)
    ensures AllHeard(e) ==> HeardOf(e, old(t.hits), t.hits, old(t.bodies), t.bodies)
    ensures AllHeard(e) ==> CallsIn(t.hits[|old(t.hits)|..]) == Among(t.bodies[|old(t.bodies)|..], e.hooked)
    ensures !e.reports ==> t.hits == old(t.hits)
  {
    EnterUnhooked(e, va, s, s, live, fuel);
    if AllHeard(e) {
      EveryCallIsHeard(e, va, s, live, fuel);
      EveryRunIsHeard(e, va, s, live, fuel);
    }
    EnterCounts(e, va, s, live, fuel);
    hide Enter, Play, Ran, Among, CallsIn;
    var _ := EnterHooked(t, e, pointers, va, Count(0, 0), s, live, {}, fuel);
  }

  /** From equal states, a declined hit and a hit answered with Go reach the same trampoline with
      the same registers, flags, RSP, return address and caller's cells. */
  method PassAndGoAgree(t: Thread, u: Thread, hook: int)
    requires t != u && t.hooks == u.hooks && hook in t.hooks && t.rsp % 16 == 8 && !t.Internal() && !u.Internal()
    requires t.vol == u.vol && t.rsp == u.rsp && t.mem == u.mem
    modifies t, u
    ensures t.vol == u.vol == old(t.vol) && t.rsp == u.rsp == old(t.rsp)
    ensures t.rip == u.rip == t.hooks[hook].trampoline
    ensures SameFrom(t.mem, old(t.mem), t.rsp) && SameFrom(u.mem, old(t.mem), t.rsp)
  {
    t.PassHit(hook, true);
    u.TakeHit(hook, Go);
  }
}
