/** What a rundown of the victim does to a thread in the reference: it leaves the run as it is exactly as
    long as no callback falls into it. */
module Rundown {
  import opened Machine
  import opened Options
  import opened HookedThread
  import opened Program
  import opened Chains

  /** The same victim, never taken down. */
  function Lasting(e: Setting): Setting {
    e.(rundown := Never)
  }

  /** How many callbacks of the thread are answered as if there were no rundown. */
  function Quota(e: Setting): nat
    requires e.rundown.After?
  {
    if e.reports && !e.rundown.last.Served? && e.rundown.n > 0 then e.rundown.n - 1 else e.rundown.n
  }

  /** A completed run is the same in a rundown if its callbacks are within the quota, and otherwise
      lost, unless the callback at the quota is declined, which lets a call go on. */
  ghost predicate Limited(e: Setting, o: Outcome, w: Outcome)
    requires e.rundown.After?
  {
    o.Done? ==>
      if o.state.count.callbacks <= Quota(e) then w == o
      else w.Lost? || (e.reports && e.rundown.n > 0 && e.rundown.last.Declined?)
  }

  lemma AnswersLimited(e: Setting, n: nat)
    requires e.rundown.After? && n <= Quota(e)
    ensures n < Quota(e) ==> AnswerTo(e, n) == AnswerTo(Lasting(e), n)
    ensures n == Quota(e) && !(e.reports && e.rundown.n > 0 && e.rundown.last.Declined?)
            ==> AnswerTo(e, n).Throws? || AnswerTo(e, n).Strands?
  {
  }

  lemma {:induction false} EnterLimited(e: Setting, va: int, s: State, live: set<int>, fuel: nat)
    requires e.rundown.After? && s.count.callbacks <= Quota(e)
    ensures Limited(e, Enter(Lasting(e), va, s, live, fuel), Enter(e, va, s, live, fuel))
    decreases fuel, 1
  {
    hide Body, KeepsLive;
    AnswersLimited(e, s.count.callbacks);
    if va !in e.hooked {
      hide AnswerTo, Quota;
      BodyLimited(e, va, s, live, fuel);
    } else if s.count.callbacks < Quota(e) {
      var u := if e.reports then Reported(s, va) else Met(s);
      BodyLimited(e, va, u, live, fuel);
      var o := Body(Lasting(e), va, u, live, fuel);
      if o.Done? && o.state.count.callbacks <= Quota(e) {
        AnswersLimited(e, o.state.count.callbacks);
      }
      hide Quota;
    }
  }

  lemma {:induction false} BodyLimited(e: Setting, va: int, s: State, live: set<int>, fuel: nat)
    requires e.rundown.After? && s.count.callbacks <= Quota(e)
    ensures Limited(e, Body(Lasting(e), va, s, live, fuel), Body(e, va, s, live, fuel))
    decreases fuel, 0
  {
    hide Run;
    if fuel > 0 {
      RunLimited(e, e.code(va), s.(bodies := s.bodies + [va]), s.rsp, live + {s.rsp}, fuel - 1);
    }
  }

  lemma {:induction false} CallLimited(e: Setting, va: int, ret: int, next: Prog, s: State,
                                       slot: int, live: set<int>, fuel: nat)
    requires e.rundown.After? && s.count.callbacks <= Quota(e) && fuel > 0
    ensures var p := Call(va, ret, next);
            Limited(e, Run(Lasting(e), p, s, slot, live, fuel), Run(e, p, s, slot, live, fuel))
    decreases fuel, 1
  {
    hide Enter, Quota, KeepsLive;
    EnterLimited(e, va, Called(s, ret), live, fuel - 1);
    var o := Enter(Lasting(e), va, Called(s, ret), live, fuel - 1);
    if o.Done? && o.state.count.callbacks <= Quota(e) {
      RunLimited(e, next, o.state, slot, live, fuel - 1);
    }
  }

  lemma {:induction false} RunLimited(e: Setting, p: Prog, s: State, slot: int, live: set<int>, fuel: nat)
    requires e.rundown.After? && s.count.callbacks <= Quota(e)
    ensures Limited(e, Run(Lasting(e), p, s, slot, live, fuel), Run(e, p, s, slot, live, fuel))
    decreases fuel, 2
  {
    hide Enter, Quota, From, KeepsLive;
    if fuel > 0 {
      match p {
        case Ret =>
        case Inspect(view) => RunLimited(e, view(s.vol, s.rest, s.rsp), s, slot, live, fuel - 1);
        case Compute(vol, rest, next) => RunLimited(e, next, Computed(s, vol, rest), slot, live, fuel - 1);
        case MoveRsp(to, next) => RunLimited(e, next, Moved(s, to), slot, live, fuel - 1);
        case Load(a, value) =>
          if a in s.stack {
            RunLimited(e, value(s.stack[a]), s, slot, live, fuel - 1);
          }
        case Store(a, v, next) => RunLimited(e, next, Stored(s, a, v), slot, live, fuel - 1);
        case Call(va, ret, next) => CallLimited(e, va, ret, next, s, slot, live, fuel);
        case Jump(va) =>
          if s.rsp == slot {
            EnterLimited(e, va, s, live, fuel - 1);
          }
      }
    }
  }

  /** Function 0 makes `n` calls of a leaf, which may be hooked, and returns. */
  ghost predicate Caller(e: Setting, slot: int, n: nat) {
    e.code(0) == Chain(e.plan, slot, 0, n, Ret) && LeafOf(e) && 0 !in e.hooked
  }

  lemma CallerCaught(e: Setting, s: State, n: nat, fuel: nat)
    requires Caller(e, s.rsp, n + 1) && e.rundown.After? && e.rundown.n == n && LEAF in e.hooked
    requires s.rsp % 16 == 8 && s.rsp in s.stack && s.count == Count(0, 0) && fuel >= 3 * n + 5
    ensures Enter(e, 0, s, {}, fuel).Lost?
  {
    hide Run, Enter, Chain;
    EnterRuns(e, 0, s, fuel);
    ChainLost(e, s.(bodies := s.bodies + [0]), s.rsp, 0, n + 1, Ret, fuel - 1);
  }

  lemma CallerReturns(e: Setting, s: State, n: nat, fuel: nat)
    requires Caller(e, s.rsp, n) && LEAF !in e.hooked
    requires s.rsp % 16 == 8 && s.rsp in s.stack && fuel >= 3 * n + 2
    ensures Enter(e, 0, s, {}, fuel).Done?
  {
    hide Run, Enter, Chain;
    EnterRuns(e, 0, s, fuel);
    var u := ChainRuns(e, s.(bodies := s.bodies + [0]), s.rsp, 0, n, Ret, fuel - 1);
    RetRuns(e, u, s.rsp, fuel - 1 - 3 * n);
  }

  /** A rundown catches some program, for every plan and whenever it begins, that completes with no hooks. */
  lemma RundownCatches(plan: nat -> Action, n: nat, last: Fate, s: State) returns (e: Setting, va: int, fuel: nat)
    requires s.rsp % 16 == 8 && s.rsp in s.stack && s.count == Count(0, 0)
    ensures e.plan == plan && e.rundown == After(n, last) && e.faults
    ensures Enter(e, va, s, {}, fuel).Lost? && Enter(Unhooked(e), va, s, {}, fuel).Done?
  {
    var slot := s.rsp;
    var code: int -> Prog := f => if f == 0 then Chain(plan, slot, 0, n + 1, Ret) else Ret;
    e := Setting(code, {LEAF}, plan, true, After(n, last), true);
    va, fuel := 0, 3 * n + 6;
    hide Enter, Chain;
    CallerCaught(e, s, n, fuel);
    CallerReturns(Unhooked(e), s, n + 1, fuel);
  }

  /** No program is ever caught exactly if there is no rundown. */
  lemma CaughtExactlyInRundown(plan: nat -> Action, rundown: Rundown)
    ensures rundown.Never? <==>
              forall e: Setting, va: int, s: State, live: set<int>, fuel: nat ::
                e.plan == plan && e.rundown == rundown && s.rsp % 16 == 8 && s.count == Count(0, 0)
                ==> !Enter(e, va, s, live, fuel).Lost?
  {
    if rundown.After? {
      var x := Xmm(0, 0);
      var vol := Vol(0, 0, 0, 0, 0, 0, 0, 0, x, x, x, x, x, x, 0);
      var s := State(vol, Rest([], map[]), 8, map[8 := 0], false, [], [], Count(0, 0));
      var e, va, fuel := RundownCatches(plan, rundown.n, rundown.last, s);
    }
  }
}
