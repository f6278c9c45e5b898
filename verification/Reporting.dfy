/** What the server hears of a run: every hooked call, in order, and the return of every call that the
    client breaks on, each closing the latest open one. */
module Reporting {
  import opened Machine
  import opened Options
  import opened HookedThread
  import opened Hearing
  import opened Program

  /** The hooked ones among some functions that were run. */
  function Among(bodies: seq<int>, hooked: set<int>): seq<int> {
    if bodies == [] then []
    else (if bodies[0] in hooked then [bodies[0]] else []) + Among(bodies[1..], hooked)
  }

  lemma {:induction false} AmongAppends(a: seq<int>, b: seq<int>, hooked: set<int>)
    ensures Among(a + b, hooked) == Among(a, hooked) + Among(b, hooked)
  {
    if a == [] {
      assert a + b == b;
    } else {
      var first := if a[0] in hooked then [a[0]] else [];
      assert (a + b)[0] == a[0] && (a + b)[1..] == a[1..] + b;
      AmongAppends(a[1..], b, hooked);
      assert Among(a + b, hooked) == first + Among(a[1..] + b, hooked);
    }
  }

  /** A log `h` of everything between two counts: one hit for each callback, one call for each hooked
      call, and as a whole it leaves the open calls as they were. The functions `b` that were run
      between are, as far as they are hooked, the calls that were not skipped. */
  ghost predicate Log(e: Setting, c: Count, d: Count, h: seq<Hit>, b: seq<int>) {
    && c.callbacks + |h| == d.callbacks
    && (forall open :: Play(h, e.plan, c.calls, open) == Some(Score(d.calls, open)))
    && Ran(h, e.plan, c.calls) == Among(b, e.hooked)
  }

  ghost predicate Tells(e: Setting, s: State, u: State, h: seq<Hit>, b: seq<int>) {
    u.hits == s.hits + h && u.bodies == s.bodies + b && Log(e, s.count, u.count, h, b)
  }

  ghost predicate AllHeard(e: Setting) {
    e.reports && e.rundown.Never?
  }

  lemma LogsAppend(e: Setting, c: Count, d: Count, f: Count, h: seq<Hit>, b: seq<int>, g: seq<Hit>, a: seq<int>)
    requires Log(e, c, d, h, b) && Log(e, d, f, g, a)
    ensures Log(e, c, f, h + g, b + a)
  {
    RanAppends(h, g, e.plan, c.calls);
    AmongAppends(b, a, e.hooked);
    PlayCounts(h, e.plan, c.calls, []);
    forall open ensures Play(h + g, e.plan, c.calls, open) == Some(Score(f.calls, open)) {
      PlayAppends(h, g, e.plan, c.calls, open);
    }
  }

  /** A call that is let run, with the log of its body. */
  lemma GoLog(e: Setting, c: Count, d: Count, va: int, h: seq<Hit>, b: seq<int>)
    requires va in e.hooked && e.plan(c.calls).Go?
    requires Log(e, Count(c.calls + 1, c.callbacks + 1), d, h, b)
    ensures Log(e, c, d, [Hit(va, false)] + h, [va] + b)
  {
    var all := [Hit(va, false)] + h;
    assert all[1..] == h && ([va] + b)[1..] == b;
  }

  lemma BreakLog(e: Setting, c: Count, d: Count, va: int, h: seq<Hit>, b: seq<int>)
    requires va in e.hooked && e.plan(c.calls).BreakOnReturn?
    requires Log(e, Count(c.calls + 1, c.callbacks + 1), d, h, b)
    ensures Log(e, c, d.(callbacks := d.callbacks + 1), [Hit(va, false)] + (h + [Hit(va, true)]), [va] + b)
  {
    var back := [Hit(va, true)];
    var all := [Hit(va, false)] + (h + back);
    assert all[1..] == h + back && ([va] + b)[1..] == b;
    RanAppends(h, back, e.plan, c.calls + 1);
    assert Ran(back, e.plan, c.calls + 1 + |CallsIn(h)|) == [];
    forall open ensures Play(all, e.plan, c.calls, open) == Some(Score(d.calls, open)) {
      PlayAppends(h, back, e.plan, c.calls + 1, open + [va]);
      assert back[1..] == [] && (open + [va])[..|open + [va]| - 1] == open;
    }
  }

  lemma SkipLog(e: Setting, c: Count, va: int)
    requires e.plan(c.calls).Skip?
    ensures Log(e, c, Count(c.calls + 1, c.callbacks + 1), [Hit(va, false)], [])
  {
    var h := [Hit(va, false)];
    assert h[1..] == [] && Ran(h, e.plan, c.calls) == [];
    forall open ensures Play(h, e.plan, c.calls, open) == Some(Score(c.calls + 1, open)) {
      assert Play(h[1..], e.plan, c.calls + 1, open) == Some(Score(c.calls + 1, open));
    }
  }

  lemma PlainLog(e: Setting, c: Count, d: Count, va: int, h: seq<Hit>, b: seq<int>)
    requires va !in e.hooked && Log(e, c, d, h, b)
    ensures Log(e, c, d, h, [va] + b)
  {
    assert ([va] + b)[1..] == b;
  }

  lemma {:induction false} EnterTells(e: Setting, va: int, s: State, live: set<int>, fuel: nat)
    returns (h: seq<Hit>, b: seq<int>)
    requires AllHeard(e) && Enter(e, va, s, live, fuel).Done?
    ensures Tells(e, s, Enter(e, va, s, live, fuel).state, h, b)
    decreases fuel, 1
  {
    hide Body, Log, KeepsLive, Later;
    var u := Enter(e, va, s, live, fuel).state;
    if va !in e.hooked {
      h, b := BodyTells(e, va, s, live, fuel);
      PlainLog(e, s.count, u.count, va, h, b);
      b := [va] + b;
    } else {
      match e.plan(s.count.calls) {
        case Skip(_, _) =>
          h, b := [Hit(va, false)], [];
          SkipLog(e, s.count, va);
        case Go =>
          h, b := BodyTells(e, va, Reported(s, va), live, fuel);
          GoLog(e, s.count, u.count, va, h, b);
          h, b := [Hit(va, false)] + h, [va] + b;
        case BreakOnReturn =>
          h, b := BodyTells(e, va, Reported(s, va), live, fuel);
          BreakLog(e, s.count, Body(e, va, Reported(s, va), live, fuel).state.count, va, h, b);
          h, b := [Hit(va, false)] + (h + [Hit(va, true)]), [va] + b;
      }
    }
  }

  /** The log of a body, without the body itself. */
  lemma {:induction false} BodyTells(e: Setting, va: int, s: State, live: set<int>, fuel: nat)
    returns (h: seq<Hit>, b: seq<int>)
    requires AllHeard(e) && Body(e, va, s, live, fuel).Done?
    ensures var u := Body(e, va, s, live, fuel).state;
            u.hits == s.hits + h && u.bodies == s.bodies + ([va] + b) && Log(e, s.count, u.count, h, b)
    decreases fuel, 0
  {
    hide Run, Log;
    h, b := RunTells(e, e.code(va), s.(bodies := s.bodies + [va]), s.rsp, live + {s.rsp}, fuel - 1);
  }

  lemma EmptyLog(e: Setting, c: Count)
    ensures Log(e, c, c, [], [])
  {
  }

  lemma {:induction false} RunTells(e: Setting, p: Prog, s: State, slot: int, live: set<int>, fuel: nat)
    returns (h: seq<Hit>, b: seq<int>)
    requires AllHeard(e) && Run(e, p, s, slot, live, fuel).Done?
    ensures Tells(e, s, Run(e, p, s, slot, live, fuel).state, h, b)
    decreases fuel, 2
  {
    hide Enter, Log, KeepsLive, Later, From;
    match p {
      case Ret =>
        EmptyLog(e, s.count);
        h, b := [], [];
      case Inspect(view) => h, b := RunTells(e, view(s.vol, s.rest, s.rsp), s, slot, live, fuel - 1);
      case Compute(vol, rest, next) => h, b := RunTells(e, next, Computed(s, vol, rest), slot, live, fuel - 1);
      case MoveRsp(to, next) => h, b := RunTells(e, next, Moved(s, to), slot, live, fuel - 1);
      case Load(a, value) => h, b := RunTells(e, value(s.stack[a]), s, slot, live, fuel - 1);
      case Store(a, v, next) => h, b := RunTells(e, next, Stored(s, a, v), slot, live, fuel - 1);
      case Call(va, ret, next) => h, b := CallTells(e, va, ret, next, s, slot, live, fuel);
      case Jump(va) => h, b := EnterTells(e, va, s, live, fuel - 1);
    }
  }

  lemma {:induction false} CallTells(e: Setting, va: int, ret: int, next: Prog, s: State,
                                     slot: int, live: set<int>, fuel: nat) returns (h: seq<Hit>, b: seq<int>)
    requires AllHeard(e) && Run(e, Call(va, ret, next), s, slot, live, fuel).Done?
    ensures Tells(e, s, Run(e, Call(va, ret, next), s, slot, live, fuel).state, h, b)
    decreases fuel, 1
  {
    hide Enter, Log, KeepsLive, Later;
    var m := Enter(e, va, Called(s, ret), live, fuel - 1).state;
    var u := Run(e, next, m, slot, live, fuel - 1).state;
    var h1, b1 := EnterTells(e, va, Called(s, ret), live, fuel - 1);
    var h2, b2 := RunTells(e, next, m, slot, live, fuel - 1);
    LogsAppend(e, s.count, m.count, u.count, h1, b1, h2, b2);
    h, b := h1 + h2, b1 + b2;
  }

  // --- RPC threads and rundowns

  /** Whether the callback that a stopping victim declines is one of those from `a` to before `b`. */
  function Declines(e: Setting, a: nat, b: nat): nat {
    if e.rundown.After? && e.rundown.last.Declined? && a < e.rundown.n <= b then 1 else 0
  }

  /** A reporting thread is heard once for each callback, but for a declined one; an RPC thread never. */
  ghost predicate Counted(e: Setting, s: State, u: State) {
    if e.reports
    then |u.hits| + Declines(e, s.count.callbacks, u.count.callbacks)
         == |s.hits| + u.count.callbacks - s.count.callbacks
    else u.hits == s.hits
         && u.count.calls - s.count.calls == u.count.callbacks - s.count.callbacks
  }

  lemma {:induction false} EnterCounts(e: Setting, va: int, s: State, live: set<int>, fuel: nat)
    ensures var o := Enter(e, va, s, live, fuel); o.Done? ==> Counted(e, s, o.state)
    decreases fuel, 1
  {
    hide Body, KeepsLive;
    if va !in e.hooked {
      BodyCounts(e, va, s, live, fuel);
    } else if AnswerTo(e, s.count.callbacks).Passes? {
      BodyCounts(e, va, Met(s), live, fuel);
    } else if AnswerTo(e, s.count.callbacks).Serves? {
      BodyCounts(e, va, Reported(s, va), live, fuel);
    }
  }

  lemma {:induction false} BodyCounts(e: Setting, va: int, s: State, live: set<int>, fuel: nat)
    ensures var o := Body(e, va, s, live, fuel); o.Done? ==> Counted(e, s, o.state)
    decreases fuel, 0
  {
    hide Run;
    if fuel > 0 {
      RunCounts(e, e.code(va), s.(bodies := s.bodies + [va]), s.rsp, live + {s.rsp}, fuel - 1);
    }
  }

  lemma {:induction false} RunCounts(e: Setting, p: Prog, s: State, slot: int, live: set<int>, fuel: nat)
    ensures var o := Run(e, p, s, slot, live, fuel); o.Done? ==> Counted(e, s, o.state)
    decreases fuel, 2
  {
    hide Enter, KeepsLive, From;
    if fuel > 0 {
      match p {
        case Ret =>
        case Inspect(view) => RunCounts(e, view(s.vol, s.rest, s.rsp), s, slot, live, fuel - 1);
        case Compute(vol, rest, next) => RunCounts(e, next, Computed(s, vol, rest), slot, live, fuel - 1);
        case MoveRsp(to, next) => RunCounts(e, next, Moved(s, to), slot, live, fuel - 1);
        case Load(a, value) =>
          if a in s.stack {
            RunCounts(e, value(s.stack[a]), s, slot, live, fuel - 1);
          }
        case Store(a, v, next) => RunCounts(e, next, Stored(s, a, v), slot, live, fuel - 1);
        case Call(va, ret, next) =>
          EnterCounts(e, va, Called(s, ret), live, fuel - 1);
          var o := Enter(e, va, Called(s, ret), live, fuel - 1);
          if o.Done? {
            RunCounts(e, next, o.state, slot, live, fuel - 1);
          }
        case Jump(va) => EnterCounts(e, va, s, live, fuel - 1);
      }
    }
  }

  // --- The laws

  /** A completed run of a reporting thread, without a rundown: the log numbers all hooked calls, the
      returns in it close the latest open calls, nothing stays open, and the hooked functions that were
      run are the calls that were not skipped. */
  lemma EveryCallIsHeard(e: Setting, va: int, s: State, live: set<int>, fuel: nat)
    requires AllHeard(e) && Enter(e, va, s, live, fuel).Done?
    ensures var u := Enter(e, va, s, live, fuel).state;
            && s.hits <= u.hits && s.bodies <= u.bodies
            && var h := u.hits[|s.hits|..];
            && Play(h, e.plan, s.count.calls, []) == Some(Score(u.count.calls, []))
            && |CallsIn(h)| == u.count.calls - s.count.calls && |h| == u.count.callbacks - s.count.callbacks
            && Ran(h, e.plan, s.count.calls) == Among(u.bodies[|s.bodies|..], e.hooked)
  {
    var u := Enter(e, va, s, live, fuel).state;
    var h, b := EnterTells(e, va, s, live, fuel);
    hide Enter;
    assert u.hits[|s.hits|..] == h && u.bodies[|s.bodies|..] == b;
    PlayCounts(h, e.plan, s.count.calls, []);
  }

  /** With no skips, the server hears of exactly the hooked functions that were run, in order. */
  lemma EveryRunIsHeard(e: Setting, va: int, s: State, live: set<int>, fuel: nat)
    requires AllHeard(e) && Enter(e, va, s, live, fuel).Done? && forall n :: !e.plan(n).Skip?
    ensures var u := Enter(e, va, s, live, fuel).state;
            && s.hits <= u.hits && s.bodies <= u.bodies
            && CallsIn(u.hits[|s.hits|..]) == Among(u.bodies[|s.bodies|..], e.hooked)
  {
    hide Enter, Among, Ran;
    EveryCallIsHeard(e, va, s, live, fuel);
    RanAll(Enter(e, va, s, live, fuel).state.hits[|s.hits|..], e.plan, s.count.calls);
  }

  /** A skipped call: the function does not run, RAX and RSP are what the client asked for, and every
      other register, the caller's cells and the rest of memory are as at the call. */
  lemma SkippedCall(e: Setting, va: int, s: State, v: Option<int>, b: Option<nat>, live: set<int>, fuel: nat)
    requires AllHeard(e) && va in e.hooked && s.rsp % 16 == 8 && e.plan(s.count.calls) == Skip(v, b)
    ensures Enter(e, va, s, live, fuel).Done?
    ensures var u, top := Enter(e, va, s, live, fuel).state, s.rsp + 8 + (if b.Some? then b.value else 0);
            && u.rsp == top && u.rest == s.rest && u.bodies == s.bodies
            && u.vol.rax == (if v.Some? then v.value else s.vol.rax)
            && u.vol.(rax := s.vol.rax) == s.vol
            && (forall a :: a in u.stack <==> a in s.stack && top <= a)
            && (forall a :: a in u.stack ==> u.stack[a] == s.stack[a])
  {
  }
}
