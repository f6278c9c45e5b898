/** Skips that release stack bytes, and the alignment that the register saves of the stubs need. A plan
    is free of alignment faults, whatever the program, exactly if all its skips release multiples of 16. */
module Alignment {
  import opened Machine
  import opened Options
  import opened HookedThread
  import opened Program
  import opened Chains

  predicate Misaligns(a: Action) {
    Released(a) % 16 != 0
  }

  ghost predicate Aligned(plan: nat -> Action) {
    forall n :: !Misaligns(plan(n))
  }

  // --- The condition suffices

  /** The two references agree, and a run that completes ends aligned. */
  ghost predicate Agree(o: Outcome, i: Outcome) {
    o == i && (o.Done? ==> o.state.rsp % 16 == 0 && !o.state.skewed)
  }

  lemma {:induction false} EnterAgrees(e: Setting, va: int, s: State, live: set<int>, fuel: nat)
    requires Aligned(e.plan) && s.rsp % 16 == 8 && !s.skewed
    ensures Agree(Enter(e, va, s, live, fuel), Enter(Ideal(e), va, s, live, fuel))
    decreases fuel, 1
  {
    assert forall n :: AnswerTo(Ideal(e), n) == AnswerTo(e, n);
    assert !Misaligns(e.plan(s.count.calls));
    hide Body, AnswerTo, Aligned, From, KeepsLive;
    if va !in e.hooked {
      BodyAgrees(e, va, s, live, fuel);
    } else if AnswerTo(e, s.count.callbacks).Passes? {
      BodyAgrees(e, va, Met(s), live, fuel);
    } else if AnswerTo(e, s.count.callbacks).Serves? && !e.plan(s.count.calls).Skip? {
      BodyAgrees(e, va, Reported(s, va), live, fuel);
    }
  }

  lemma {:induction false} BodyAgrees(e: Setting, va: int, s: State, live: set<int>, fuel: nat)
    requires Aligned(e.plan) && s.rsp % 16 == 8 && !s.skewed
    ensures Agree(Body(e, va, s, live, fuel), Body(Ideal(e), va, s, live, fuel))
    decreases fuel, 0
  {
    hide Run;
    if fuel > 0 {
      RunAgrees(e, e.code(va), s.(bodies := s.bodies + [va]), s.rsp, live + {s.rsp}, fuel - 1);
    }
  }

  lemma {:induction false} CallAgrees(e: Setting, va: int, ret: int, next: Prog, s: State,
                                      slot: int, live: set<int>, fuel: nat)
    requires Aligned(e.plan) && slot % 16 == 8 && s.rsp % 16 == 0 && !s.skewed && fuel > 0
    ensures var o := Enter(e, va, Called(s, ret), live, fuel - 1);
            && o == Enter(Ideal(e), va, Called(s, ret), live, fuel - 1)
            && (o.Done? ==> Agree(Run(e, next, o.state, slot, live, fuel - 1),
                                  Run(Ideal(e), next, o.state, slot, live, fuel - 1)))
    decreases fuel, 1
  {
    EnterAgrees(e, va, Called(s, ret), live, fuel - 1);
    var o := Enter(e, va, Called(s, ret), live, fuel - 1);
    hide Enter, Run, Aligned;
    if o.Done? {
      RunAgrees(e, next, o.state, slot, live, fuel - 1);
    }
  }

  lemma {:induction false} RunAgrees(e: Setting, p: Prog, s: State, slot: int, live: set<int>, fuel: nat)
    requires Aligned(e.plan) && slot % 16 == 8 && !s.skewed
    ensures Agree(Run(e, p, s, slot, live, fuel), Run(Ideal(e), p, s, slot, live, fuel))
    decreases fuel, 2
  {
    hide Enter, Aligned, From;
    if fuel > 0 {
      match p {
        case Ret =>
        case Inspect(view) => RunAgrees(e, view(s.vol, s.rest, s.rsp), s, slot, live, fuel - 1);
        case Compute(vol, rest, next) => RunAgrees(e, next, Computed(s, vol, rest), slot, live, fuel - 1);
        case MoveRsp(to, next) => RunAgrees(e, next, Moved(s, to), slot, live, fuel - 1);
        case Load(a, value) =>
          if a in s.stack {
            RunAgrees(e, value(s.stack[a]), s, slot, live, fuel - 1);
          }
        case Store(a, v, next) => RunAgrees(e, next, Stored(s, a, v), slot, live, fuel - 1);
        case Call(va, ret, next) =>
          if s.rsp % 16 == 0 {
            CallAgrees(e, va, ret, next, s, slot, live, fuel);
          }
        case Jump(va) =>
          if s.rsp == slot {
            EnterAgrees(e, va, s, live, fuel - 1);
          }
      }
    }
  }

  // --- The condition is necessary

  const MAIN := 0

  /** Where RSP is before the first of two calls that use up the choices `n` and `n + 1`. */
  function Base(plan: nat -> Action, slot: int, n: nat): int {
    slot - 8 - 16 * (Released(plan(n)) + Released(plan(n + 1)))
  }

  lemma BaseFits(plan: nat -> Action, slot: int, n: nat)
    requires slot % 16 == 8
    ensures Base(plan, slot, n) % 16 == 0
    ensures Base(plan, slot, n) + Released(plan(n)) + Released(plan(n + 1)) + 8 <= slot
  {
  }

  /** Two calls in a row, with RSP as the first one left it at the second. */
  function TwoCalls(plan: nat -> Action, slot: int, n: nat): Prog {
    MoveRsp(Base(plan, slot, n), Call(LEAF, 0, Call(LEAF, 0, MoveRsp(slot, Ret))))
  }

  function Code(plan: nat -> Action, slot: int, n: nat): int -> Prog {
    va => if va == MAIN then Chain(plan, slot, 0, n, TwoCalls(plan, slot, n)) else Ret
  }

  /** A function that makes `n + 2` calls of a leaf, which may be hooked. */
  ghost predicate Caller(e: Setting, slot: int, n: nat) {
    && e.code == Code(e.plan, slot, n) && slot % 16 == 8 && e.hooked <= {LEAF} && e.rundown.Never? && e.reports
    && Misaligns(e.plan(n))
  }

  lemma TwoCallsFault(e: Setting, s: State, slot: int, n: nat, fuel: nat)
    requires Caller(e, slot, n) && AtSlot(e, s, slot, n) && fuel >= 6
    ensures var o := Run(e, TwoCalls(e.plan, slot, n), s, slot, {slot}, fuel);
            if e.faults && LEAF in e.hooked then o == Faulted else o.Done?
  {
    var tail := MoveRsp(slot, Ret);
    var s1 := Moved(s, Base(e.plan, slot, n));
    hide Run, Enter, Base;
    var o1 := FirstCall(e, s, s1, slot, n, fuel - 2);
    hide Code, From, Moved, LeafOf;
    MoveRuns(e, s1.rsp, Call(LEAF, 0, Call(LEAF, 0, tail)), s, slot, {slot}, fuel);
    CallRuns(e, LEAF, 0, Call(LEAF, 0, tail), s1, slot, {slot}, fuel - 1);
    SecondCallFaults(e, s1, o1.state, slot, n, fuel - 2);
  }

  lemma FirstCall(e: Setting, s: State, s1: State, slot: int, n: nat, fuel: nat) returns (o: Outcome)
    requires Caller(e, slot, n) && AtSlot(e, s, slot, n) && fuel >= 2
    requires s1 == Moved(s, Base(e.plan, slot, n))
    ensures s1.rsp % 16 == 0 && s1.rsp - 8 !in {slot}
    ensures o == Enter(e, LEAF, Called(s1, 0), {slot}, fuel) && o.Done?
    ensures Back(e, Called(s1, 0), o.state, slot)
    ensures o.state.rsp == s1.rsp + if LEAF in e.hooked then Released(e.plan(n)) else 0
    ensures LEAF in e.hooked ==> o.state.count.calls == n + 1 && o.state.skewed
  {
    assert LeafOf(e) && Misaligns(e.plan(n));
    BaseFits(e.plan, slot, n);
    assert slot in s1.stack;
    hide Enter, Base, Code;
    o := LeafReturns(e, Called(s1, 0), n, slot, fuel);
  }

  /** The way back from the second call. */
  lemma TailEnds(e: Setting, u: State, slot: int, fuel: nat)
    requires slot in u.stack && fuel >= 2
    ensures Run(e, MoveRsp(slot, Ret), u, slot, {slot}, fuel).Done?
  {
    MoveRuns(e, slot, Ret, u, slot, {slot}, fuel);
    assert slot in Moved(u, slot).stack;
  }

  lemma SecondCallFaults(e: Setting, s1: State, s2: State, slot: int, n: nat, fuel: nat)
    requires Caller(e, slot, n) && fuel >= 4
    requires s1.rsp == Base(e.plan, slot, n) && Back(e, Called(s1, 0), s2, slot)
    requires s2.rsp == s1.rsp + if LEAF in e.hooked then Released(e.plan(n)) else 0
    requires LEAF in e.hooked ==> s2.count.calls == n + 1 && s2.skewed
    ensures var o := Run(e, Call(LEAF, 0, MoveRsp(slot, Ret)), s2, slot, {slot}, fuel);
            if e.faults && LEAF in e.hooked then o == Faulted else o.Done?
  {
    BaseFits(e.plan, slot, n);
    assert LeafOf(e);
    hide Code, Base, LeafOf;
    var tail := MoveRsp(slot, Ret);
    CallRuns(e, LEAF, 0, tail, s2, slot, {slot}, fuel);
    hide Run;
    if e.faults && LEAF in e.hooked {
      assert s2.rsp % 16 != 0;
    } else {
      hide Enter;
      var o := LeafReturns(e, Called(s2, 0), n + 1, slot, fuel - 1);
      TailEnds(e, o.state, slot, fuel - 1);
    }
  }

  lemma CallerFaults(e: Setting, s: State, n: nat, fuel: nat)
    requires Caller(e, s.rsp, n) && s.rsp in s.stack && s.count.calls == 0 && fuel >= 3 * n + 7
    ensures var o := Enter(e, MAIN, s, {}, fuel);
            if e.faults && LEAF in e.hooked then o == Faulted else o.Done?
  {
    var slot := s.rsp;
    var s1 := s.(bodies := s.bodies + [MAIN]);
    hide Run, Enter, Chain, TwoCalls;
    EnterRuns(e, MAIN, s, fuel);
    var u := ChainRuns(e, s1, slot, 0, n, TwoCalls(e.plan, slot, n), fuel - 1);
    TwoCallsFault(e, u, slot, n, fuel - 1 - 3 * n);
  }

  /** A plan with a skip that misaligns faults on some program, from any state, where the ideal
      debugger completes it; and with no hooks the program completes too. */
  lemma PlanFaults(plan: nat -> Action, n: nat, s: State) returns (e: Setting, fuel: nat)
    requires Misaligns(plan(n))
    requires s.rsp % 16 == 8 && s.rsp in s.stack && s.count.calls == 0
    ensures e.plan == plan && e.faults
    ensures Enter(e, MAIN, s, {}, fuel) == Faulted
    ensures Enter(Ideal(e), MAIN, s, {}, fuel).Done? && Enter(Unhooked(e), MAIN, s, {}, fuel).Done?
  {
    e := Setting(Code(plan, s.rsp, n), {LEAF}, plan, true, Never, true);
    fuel := 3 * n + 7;
    hide Enter;
    CallerFaults(e, s, n, fuel);
    CallerFaults(Ideal(e), s, n, fuel);
    CallerFaults(Unhooked(e), s, n, fuel);
  }

  /** The machine runs every program as the ideal debugger would exactly if the plan is aligned. */
  lemma FaultFreeExactlyIfAligned(plan: nat -> Action)
    ensures Aligned(plan) <==>
              forall e: Setting, va: int, s: State, live: set<int>, fuel: nat ::
                e.plan == plan && s.rsp % 16 == 8 && !s.skewed && s.count == Count(0, 0)
                ==> Enter(e, va, s, live, fuel) == Enter(Ideal(e), va, s, live, fuel)
  {
    if Aligned(plan) {
      forall e: Setting, va: int, s: State, live: set<int>, fuel: nat | e.plan == plan && s.rsp % 16 == 8 && !s.skewed
        ensures Enter(e, va, s, live, fuel) == Enter(Ideal(e), va, s, live, fuel)
      {
        EnterAgrees(e, va, s, live, fuel);
      }
    } else {
      var n :| Misaligns(plan(n));
      var x := Xmm(0, 0);
      var vol := Vol(0, 0, 0, 0, 0, 0, 0, 0, x, x, x, x, x, x, 0);
      var s := State(vol, Rest([], map[]), 8, map[8 := 0], false, [], [], Count(0, 0));
      var e, fuel := PlanFaults(plan, n, s);
    }
  }

  /** The tail call of the case below leaves RSP where the skip has put it. */
  lemma TailCallEnds(second: Action, s: State, live: set<int>)
    requires s.rsp % 16 == 8 && s.rsp in s.stack && s.count == Count(1, 1)
    requires second == Skip(None, Some(8)) || second == Go
    ensures var o := Enter(TailSetting(second), 2, s, live, 3);
            o.Done? && o.state.rsp == s.rsp + 8 + Released(second)
  {
    var e, u := TailSetting(second), Reported(s, 2);
    var b := u.(bodies := u.bodies + [2]);
    assert Run(e, Ret, b, s.rsp, live + {s.rsp}, 2) == Done(Moved(b, s.rsp + 8));
    assert Body(e, 2, u, live, 3) == Done(Moved(b, s.rsp + 8));
    hide Body, Run, From;
  }

  /** The smallest case with a return: function 1 tail-calls function 2, the client breaks on the return
      of 1 and skips 2 with 8 stack bytes. Letting 2 run instead is fine. */
  lemma TailSkipFaults(s: State, second: Action)
    requires s.rsp % 16 == 8 && s.rsp in s.stack && s.count == Count(0, 0)
    requires second == Skip(None, Some(8)) || second == Go
    ensures var e := TailSetting(second);
            if second.Go? then Enter(e, 1, s, {}, 5).Done? else Enter(e, 1, s, {}, 5) == Faulted
  {
    var e, s1 := TailSetting(second), Reported(s, 1);
    var s2, live := s1.(bodies := s1.bodies + [1]), {} + {s.rsp};
    TailCallEnds(second, s2, live);
    JumpRuns(e, 2, s2, s.rsp, live, 4);
    assert Body(e, 1, s1, {}, 5) == Enter(e, 2, s2, live, 3) by {
      hide Enter, Run;
    }
    hide Body, Run, From;
  }

  function TailSetting(second: Action): Setting {
    Setting(va => if va == 1 then Jump(2) else Ret, {1, 2}, k => if k == 0 then BreakOnReturn else second,
            true, Never, true)
  }

  /** And with calls only: a function calls a hooked leaf twice in a row, and the client skips the first
      call with 8 stack bytes. Without hooks the function completes. */
  lemma CallAfterSkipFaults(s: State)
    requires s.rsp % 16 == 8 && s.rsp in s.stack && s.count == Count(0, 0)
    ensures var plan: nat -> Action := k => if k == 0 then Skip(None, Some(8)) else Go;
            var e := Setting(Code(plan, s.rsp, 0), {LEAF}, plan, true, Never, true);
            && e.code(MAIN) == MoveRsp(s.rsp - 136, Call(LEAF, 0, Call(LEAF, 0, MoveRsp(s.rsp, Ret))))
            && e.code(LEAF) == Ret
            && Enter(e, MAIN, s, {}, 7) == Faulted && Enter(Unhooked(e), MAIN, s, {}, 7).Done?
  {
    hide Enter;
    var plan: nat -> Action := k => if k == 0 then Skip(None, Some(8)) else Go;
    var e := Setting(Code(plan, s.rsp, 0), {LEAF}, plan, true, Never, true);
    assert Released(plan(0)) == 8 && Released(plan(1)) == 0;
    CallerFaults(e, s, 0, 7);
    CallerFaults(Unhooked(e), s, 0, 7);
  }
}
