/** Programs that use up any number of hooked calls, whatever the client decides at each. */
module Chains {
  import opened Machine
  import opened Options
  import opened HookedThread
  import opened Program

  const LEAF := 3

  /** How far above the call's return address an action leaves RSP. */
  function Released(a: Action): nat {
    if a.Skip? && a.stackBytes.Some? then a.stackBytes.value else 0
  }

  /** Code that uses up the choices `lo..hi` on calls of a leaf, then goes on with RSP at its return
      address. */
  function Chain(plan: nat -> Action, slot: int, lo: nat, hi: nat, last: Prog): Prog
    decreases hi - lo
  {
    if lo >= hi then last
    else MoveRsp(slot - 8 - 16 * Released(plan(lo)), Call(LEAF, 0, MoveRsp(slot, Chain(plan, slot, lo + 1, hi, last))))
  }

  /** RSP is at the return address, and if the leaf is hooked, `calls` calls of it are over. */
  ghost predicate AtSlot(e: Setting, s: State, slot: int, calls: nat) {
    s.rsp == slot && slot in s.stack && (LEAF in e.hooked ==> s.count.calls == calls)
  }

  ghost predicate LeafOf(e: Setting) {
    e.code(LEAF) == Ret
  }

  lemma LeafBody(e: Setting, s: State, live: set<int>, fuel: nat)
    requires LeafOf(e) && fuel >= 2 && s.rsp in s.stack
    ensures Body(e, LEAF, s, live, fuel) == Done(Moved(s.(bodies := s.bodies + [LEAF]), s.rsp + 8))
  {
    assert Run(e, Ret, s.(bodies := s.bodies + [LEAF]), s.rsp, live + {s.rsp}, fuel - 1)
           == Done(Moved(s.(bodies := s.bodies + [LEAF]), s.rsp + 8));
  }

  /** A call of the leaf comes back, unless it is caught in a rundown. */
  ghost predicate Back(e: Setting, s: State, u: State, slot: int) {
    && slot in u.stack
    && (LEAF in e.hooked ==> u.count.calls == s.count.calls + 1 && u.count.callbacks > s.count.callbacks)
    && (LEAF !in e.hooked ==> u.count == s.count)
    && s.rsp + 8 <= u.rsp
  }

  lemma LeafReturns(e: Setting, s: State, lo: nat, slot: int, fuel: nat) returns (o: Outcome)
    requires LeafOf(e) && fuel >= 2 && (LEAF in e.hooked ==> s.count.calls == lo)
    requires s.rsp in s.stack && slot in s.stack && s.rsp + 8 + Released(e.plan(lo)) <= slot
    requires e.faults ==> s.rsp % 16 == 8
    ensures o == Enter(e, LEAF, s, {slot}, fuel)
    ensures if o.Done? then Back(e, s, o.state, slot) && o.state.rsp <= slot else o.Lost?
    ensures LEAF in e.hooked && e.rundown.After? && s.count.callbacks >= e.rundown.n ==> o.Lost?
    ensures LEAF in e.hooked && e.rundown.Never? && e.reports ==>
              && o.state.rsp == s.rsp + 8 + Released(e.plan(lo))
              && (Released(e.plan(lo)) % 16 != 0 ==> o.state.skewed)
    ensures LEAF !in e.hooked ==> o.Done? && o.state.rsp == s.rsp + 8
  {
    LeafBody(e, s, {slot}, fuel);
    LeafBody(e, Met(s), {slot}, fuel);
    LeafBody(e, Reported(s, LEAF), {slot}, fuel);
    hide Body;
    o := Enter(e, LEAF, s, {slot}, fuel);
  }

  lemma EnterRuns(e: Setting, va: int, s: State, fuel: nat)
    requires va !in e.hooked && fuel > 0
    ensures Enter(e, va, s, {}, fuel)
            == Run(e, e.code(va), s.(bodies := s.bodies + [va]), s.rsp, {s.rsp}, fuel - 1)
  {
    assert {} + {s.rsp} == {s.rsp};
    hide Run;
  }

  lemma RetRuns(e: Setting, s: State, slot: int, fuel: nat)
    requires s.rsp == slot && slot in s.stack && fuel > 0
    ensures Run(e, Ret, s, slot, {slot}, fuel).Done?
  {
  }

  lemma JumpRuns(e: Setting, va: int, s: State, slot: int, live: set<int>, fuel: nat)
    requires s.rsp == slot && slot in s.stack && fuel > 0
    ensures Run(e, Jump(va), s, slot, live, fuel) == Enter(e, va, s, live, fuel - 1)
  {
    hide Enter;
  }

  lemma MoveRuns(e: Setting, to: int, next: Prog, s: State, slot: int, live: set<int>, fuel: nat)
    requires fuel > 0
    ensures Run(e, MoveRsp(to, next), s, slot, live, fuel) == Run(e, next, Moved(s, to), slot, live, fuel - 1)
  {
  }

  lemma CallRuns(e: Setting, va: int, ret: int, next: Prog, s: State, slot: int, live: set<int>, fuel: nat)
    requires fuel > 0 && (s.rsp % 16 == 0 || s.skewed) && s.rsp - 8 !in live
    ensures var o := Enter(e, va, Called(s, ret), live, fuel - 1);
            Run(e, Call(va, ret, next), s, slot, live, fuel)
            == if o.Done? then Run(e, next, o.state, slot, live, fuel - 1) else o
  {
    hide Enter;
  }

  lemma ChainStep(e: Setting, s: State, slot: int, lo: nat, hi: nat, last: Prog, fuel: nat) returns (o: Outcome)
    requires LeafOf(e) && fuel >= 4 && slot % 16 == 8 && AtSlot(e, s, slot, lo) && lo < hi
    ensures if o.Done?
            then && AtSlot(e, o.state, slot, lo + 1)
                 && (LEAF in e.hooked ==> o.state.count.callbacks > s.count.callbacks)
                 && (LEAF !in e.hooked ==> o.state.count == s.count)
                 && Run(e, Chain(e.plan, slot, lo, hi, last), s, slot, {slot}, fuel)
                    == Run(e, Chain(e.plan, slot, lo + 1, hi, last), o.state, slot, {slot}, fuel - 3)
            else o.Lost? && e.rundown.After? && LEAF in e.hooked
                 && Run(e, Chain(e.plan, slot, lo, hi, last), s, slot, {slot}, fuel) == Lost
    ensures LEAF in e.hooked && e.rundown.After? && s.count.callbacks >= e.rundown.n ==> o.Lost?
  {
    hide Run, Enter;
    var rest := Chain(e.plan, slot, lo + 1, hi, last);
    var s1 := Moved(s, slot - 8 - 16 * Released(e.plan(lo)));
    assert s1.rsp % 16 == 0 && s1.rsp - 8 !in {slot};
    o := LeafReturns(e, Called(s1, 0), lo, slot, fuel - 2);
    MoveRuns(e, s1.rsp, Call(LEAF, 0, MoveRsp(slot, rest)), s, slot, {slot}, fuel);
    CallRuns(e, LEAF, 0, MoveRsp(slot, rest), s1, slot, {slot}, fuel - 1);
    if o.Done? {
      MoveRuns(e, slot, rest, o.state, slot, {slot}, fuel - 2);
      o := Done(Moved(o.state, slot));
    }
  }

  /** Without a rundown, a chain is run to its end. */
  lemma {:induction false} ChainRuns(e: Setting, s: State, slot: int, lo: nat, hi: nat, last: Prog, fuel: nat)
    returns (u: State)
    requires LeafOf(e) && (e.rundown.Never? || LEAF !in e.hooked) && fuel >= 3 * (hi - lo) + 1
    requires slot % 16 == 8 && AtSlot(e, s, slot, lo) && lo <= hi
    ensures AtSlot(e, u, slot, hi)
    ensures Run(e, Chain(e.plan, slot, lo, hi, last), s, slot, {slot}, fuel)
            == Run(e, last, u, slot, {slot}, fuel - 3 * (hi - lo))
    decreases hi - lo
  {
    hide Run;
    if lo == hi {
      u := s;
    } else {
      var o := ChainStep(e, s, slot, lo, hi, last, fuel);
      u := ChainRuns(e, o.state, slot, lo + 1, hi, last, fuel - 3);
    }
  }

  /** With a rundown, a chain that calls the hooked leaf once too often is lost. */
  lemma {:induction false} ChainLost(e: Setting, s: State, slot: int, lo: nat, hi: nat, last: Prog, fuel: nat)
    requires LeafOf(e) && e.rundown.After? && LEAF in e.hooked && fuel >= 3 * (hi - lo) + 1
    requires slot % 16 == 8 && AtSlot(e, s, slot, lo) && lo < hi
    requires s.count.callbacks + (hi - lo) > e.rundown.n
    ensures Run(e, Chain(e.plan, slot, lo, hi, last), s, slot, {slot}, fuel) == Lost
    decreases hi - lo
  {
    hide Run;
    var o := ChainStep(e, s, slot, lo, hi, last, fuel);
    if o.Done? {
      ChainLost(e, o.state, slot, lo + 1, hi, last, fuel - 3);
    }
  }
}
