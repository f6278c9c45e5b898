/** When a pending hit comes back. Every hit of a thread can still be completed, so that the thread runs
    on with its return address restored, until the victim begins to stop. From then on a return that the
    handler has not yet taken is lost, and so is a call that was accepted and not yet taken: no step of
    any thread, the handler or the monitor frees its thread any more. */
module Returns {
  import opened Machine
  import opened Options
  import opened Rendezvous

  /** The hit that a thread inside or past its callback is about. */
  function PendingOf(ph: Phase): Option<Params> {
    match ph
    case Running => None
    case Notified(_) => None
    case Thrown => None
    case Entering(p) => Some(p)
    case Accepted(p) => Some(p)
    case Declined(p) => Some(p)
    case Spinning(p) => Some(p)
    case Lost(p) => Some(p)
  }

  ghost predicate Pending(s: State, t: Tid, p: Params) {
    t in s.threads && PendingOf(s.threads[t].phase) == Some(p)
  }

  /** The handler has woken on this hit, and its reply is on the way or already with the monitor. */
  predicate Taken(s: State, p: Params) {
    s.handler == Watching(p) || s.handler == Replied(p) || s.monitor == Holding(p)
  }

  ghost predicate Free(s: State, t: Tid, p: Params) {
    t in s.threads && s.threads[t] == Thread(Running, p.initial, p.initial)
  }

  /** Some run from here frees the thread, with its return address restored. */
  ghost predicate CanComeBack(s: State, t: Tid, p: Params) {
    exists more, u :: Run(s, more, u) && Free(u, t, p)
  }

  // --- Lost hits stay lost

  /** Inside the callback with a call, which a stopping victim lets pass. */
  predicate WillPass(s: State, t: Tid) {
    t in s.threads && s.threads[t].phase.Entering? && !s.threads[t].phase.p.isReturning
  }

  ghost predicate Doomed(s: State, t: Tid, p: Params) {
    Pending(s, t, p) && p.hook != 0 && s.stopping && !Taken(s, p) && !WillPass(s, t)
  }

  lemma DoomedStep(s: State, step: Step, t: Tid, p: Params)
    requires Inv(s) && Enabled(s, step) && Doomed(s, t, p)
    ensures Doomed(Next(s, step), t, p)
  {
    assert ThreadOk(s, t);
  }

  lemma {:induction false} DoomedStays(s: State, steps: seq<Step>, end: State, t: Tid, p: Params)
    requires Inv(s) && Run(s, steps, end) && Doomed(s, t, p)
    ensures Doomed(end, t, p)
    decreases |steps|
  {
    if steps != [] {
      NextKeeps(s, steps[0]);
      DoomedStep(s, steps[0], t, p);
      hide Doomed, Inv;
      DoomedStays(Next(s, steps[0]), steps[1..], end, t, p);
    }
  }

  // --- The others can be completed

  lemma {:induction false} RunThen(s: State, steps: seq<Step>, mid: State, more: seq<Step>, end: State)
    requires Run(s, steps, mid) && Run(mid, more, end)
    ensures Run(s, steps + more, end)
    decreases |steps|
  {
    var all := steps + more;
    if steps == [] {
      assert all == more;
    } else {
      assert all[0] == steps[0] && all[1..] == steps[1..] + more;
      RunThen(Next(s, steps[0]), steps[1..], mid, more, end);
    }
  }

  lemma RunStep(s: State, step: Step, more: seq<Step>, end: State)
    requires Enabled(s, step) && Run(Next(s, step), more, end)
    ensures Run(s, [step] + more, end)
  {
    assert ([step] + more)[1..] == more;
  }

  /** The steps that the current hit is away from its edit. */
  function Rank(s: State): nat {
    if s.monitor.Holding? then 1
    else if s.handler.Replied? then 2
    else 3 + (if s.handler.Waiting? then 1 else 0)
         + if Current(s).Some? && Current(s).value.tid in s.threads
              && s.threads[Current(s).value.tid].phase.Accepted? then 1 else 0
  }

  function Forward(s: State): Step
    requires Current(s).Some?
  {
    var p := Current(s).value;
    if s.monitor.Holding? then Edit
    else if s.handler.Replied? then Reply
    else if p.tid in s.threads && s.threads[p.tid].phase.Accepted? then Hit(p.tid)
    else if s.handler.Waiting? then Take
    else Watch
  }

  /** The current hit is on its way to its edit and nothing will stop it. */
  ghost predicate Moving(s: State, p: Params) {
    Inv(s) && Current(s) == Some(p) && (s.stopping ==> Taken(s, p))
  }

  lemma ForwardStep(s: State, p: Params)
    requires Moving(s, p)
    ensures Enabled(s, Forward(s))
    ensures var n := Next(s, Forward(s));
            && n.stopping == s.stopping
            && (forall t :: t in s.threads && t != p.tid ==> t in n.threads && n.threads[t] == s.threads[t])
            && if s.monitor.Holding?
               then n.monitor.Asking? && (p.hook != 0 ==> Free(n, p.tid, p))
               else Current(n) == Some(p) && (s.stopping ==> Taken(n, p)) && Rank(n) < Rank(s)
  {
    assert ThreadOk(s, p.tid);
  }

  /** The current hit can be completed: its thread is free, the others are where they were. */
  lemma {:induction false} Complete(s: State, p: Params) returns (steps: seq<Step>, u: State)
    requires Moving(s, p)
    ensures Run(s, steps, u) && Inv(u) && u.stopping == s.stopping && u.monitor.Asking?
    ensures p.hook != 0 ==> Free(u, p.tid, p)
    ensures forall t :: t in s.threads && t != p.tid ==> t in u.threads && u.threads[t] == s.threads[t]
    decreases Rank(s)
  {
    var step := Forward(s);
    var n := Next(s, step);
    ForwardStep(s, p);
    NextKeeps(s, step);
    if s.monitor.Holding? {
      steps, u := [], n;
    } else {
      hide Free, Current;
      steps, u := Complete(n, p);
    }
    RunStep(s, step, steps, u);
    steps := [step] + steps;
  }

  /** Until the victim stops, the slot can be freed for the next hit. */
  lemma FreeSlot(s: State) returns (steps: seq<Step>, u: State)
    requires Inv(s) && !s.stopping
    ensures Run(s, steps, u) && Inv(u) && !u.stopping && u.handler.Waiting? && !u.hit
    ensures forall t :: t in s.threads && s.threads[t].phase.Entering? ==>
              t in u.threads && u.threads[t] == s.threads[t]
  {
    var first: seq<Step>, m := [], s;
    if Current(s).Some? {
      assert CurrentOk(s);
      first, m := Complete(s, Current(s).value);
    }
    if m.handler.Waiting? {
      steps, u := first, m;
    } else {
      var v := m;
      if m.monitor.Asking? {
        NextKeeps(m, Ask);
        v := Next(m, Ask);
      }
      NextKeeps(v, Start);
      u := Next(v, Start);
      assert Run(u, [], u);
      RunStep(v, Start, [], u);
      var last := [Start] + [];
      if m.monitor.Asking? {
        RunStep(m, Ask, last, u);
        last := [Ask] + last;
      }
      RunThen(s, first, m, last, u);
      steps := first + last;
    }
  }

  lemma CompleteEntering(s: State, t: Tid, p: Params)
    requires Inv(s) && !s.stopping && t in s.threads && s.threads[t].phase == Entering(p) && p.hook != 0
    ensures CanComeBack(s, t, p)
  {
    var first, m := FreeSlot(s);
    assert ThreadOk(s, t);
    NextKeeps(m, Accept(t));
    var n := Next(m, Accept(t));
    var rest, v := Complete(n, p);
    RunStep(m, Accept(t), rest, v);
    RunThen(s, first, m, [Accept(t)] + rest, v);
    assert Run(s, first + ([Accept(t)] + rest), v) && Free(v, t, p);
  }

  /** Once the victim stops, a call inside the callback passes as soon as the handler lets go of the mutex. */
  lemma PassEntering(s: State, t: Tid, p: Params)
    requires Inv(s) && s.stopping && WillPass(s, t) && s.threads[t].phase == Entering(p) && p.hook != 0
    ensures CanComeBack(s, t, p)
  {
    assert ThreadOk(s, t);
    var first: seq<Step>, m := [], s;
    if s.handler.Watching? {
      assert CurrentOk(s);
      first, m := Complete(s, s.handler.p);
      assert !m.handler.Watching?;
    }
    var u := Next(m, Decline(t));
    assert Run(u, [], u);
    RunStep(m, Decline(t), [], u);
    RunThen(s, first, m, [Decline(t)] + [], u);
    assert Run(s, first + ([Decline(t)] + []), u) && Free(u, t, p);
  }

  lemma PendingIsCurrent(s: State, t: Tid, p: Params)
    requires Inv(s) && Pending(s, t, p) && p.hook != 0 && (!s.stopping || Taken(s, p))
    ensures s.threads[t].phase == Entering(p) || Current(s) == Some(p)
    ensures Taken(s, p) ==> Current(s) == Some(p) && !s.threads[t].phase.Entering?
    ensures p.tid == t
  {
    assert ThreadOk(s, t);
  }

  /** A pending hit of any hook, wherever its thread is, can still come back, with its return address
      restored, exactly if the victim is not being stopped, or the handler has already taken the hit, or
      it is a call whose callback has not decided yet. */
  lemma ComesBackExactlyIf(threads: map<Tid, Dword>, steps: seq<Step>, s: State, t: Tid, p: Params)
    requires Run(Init(threads), steps, s) && Pending(s, t, p) && p.hook != 0
    ensures CanComeBack(s, t, p)
            <==> !s.stopping || Taken(s, p) || WillPass(s, t)
  {
    RunFromInit(threads, steps, s);
    if !s.stopping || Taken(s, p) {
      PendingIsCurrent(s, t, p);
      hide Inv, Current, Taken;
      if s.threads[t].phase.Entering? {
        CompleteEntering(s, t, p);
      } else {
        var more, u := Complete(s, p);
        assert Run(s, more, u) && Free(u, t, p);
      }
    } else if WillPass(s, t) {
      PassEntering(s, t, p);
    } else {
      forall more, u | Run(s, more, u) ensures !Free(u, t, p) {
        DoomedStays(s, more, u, t, p);
      }
    }
  }

  /** A return comes back exactly if the victim is not being stopped or the handler has taken it; inside
      the callback that means: exactly if the victim is not being stopped when its wait ends. */
  lemma ReturnsExactlyIf(threads: map<Tid, Dword>, steps: seq<Step>, s: State, t: Tid, p: Params)
    requires Run(Init(threads), steps, s) && Pending(s, t, p) && p.isReturning && p.hook != 0
    ensures CanComeBack(s, t, p) <==> !s.stopping || Taken(s, p)
    ensures s.threads[t].phase.Entering? ==> !Taken(s, p)
  {
    ComesBackExactlyIf(threads, steps, s, t, p);
    RunFromInit(threads, steps, s);
    if Taken(s, p) {
      PendingIsCurrent(s, t, p);
    }
    assert ThreadOk(s, t);
  }

  lemma StrandingRun(threads: map<Tid, Dword>, t: Tid, p: Params) returns (steps: seq<Step>, s: State)
    requires t in threads && p.hook != 0 && p.tid == t
    ensures steps == [Ask, Start, Enter(t, p.hook, p.isReturning, p.initial), Accept(t), Close, Stop]
    ensures Run(Init(threads), steps, s)
    ensures s.stopping && s.handler.Waiting? && s.monitor.Asked?
    ensures t in s.threads && s.threads[t].phase == Accepted(p)
  {
    var begin := Enter(t, p.hook, p.isReturning, p.initial);
    var s1 := Next(Next(Init(threads), Ask), Start);
    var s2 := Next(Next(s1, begin), Accept(t));
    assert s2.threads[t].phase == Accepted(p) && !s2.closing && s2.handler.Waiting? && s2.monitor.Asked?;
    s := Next(Next(s2, Close), Stop);
    assert Run(s, [], s);
    RunStep(Next(s2, Close), Stop, [], s);
    RunStep(s2, Close, [Stop], s);
    RunStep(Next(s1, begin), Accept(t), [Close, Stop], s);
    RunStep(s1, begin, [Accept(t), Close, Stop], s);
    RunStep(Next(Init(threads), Ask), Start, [begin, Accept(t), Close, Stop], s);
    RunStep(Init(threads), Ask, [Start, begin, Accept(t), Close, Stop], s);
    steps := [Ask, Start, begin, Accept(t), Close, Stop];
    hide Run;
  }

  /** A call that is lost: it is accepted just before the victim stops, and the handler has not woken. */
  lemma StrandedCall(threads: map<Tid, Dword>, t: Tid, hook: nat, word: Dword)
    returns (steps: seq<Step>, s: State, p: Params)
    requires t in threads && hook != 0
    ensures steps == [Ask, Start, Enter(t, hook, false, word), Accept(t), Close, Stop]
    ensures Run(Init(threads), steps, s) && Pending(s, t, p) && p == Params(hook, t, false, word)
    ensures !CanComeBack(s, t, p)
  {
    p := Params(hook, t, false, word);
    steps, s := StrandingRun(threads, t, p);
    hide Run, Init;
    ComesBackExactlyIf(threads, steps, s, t, p);
  }

  /** A thread that comes to a stub after the rundown has begun, by a hooked call or by a diverted return,
      can only leave it by an exception, and never comes back. */
  lemma LateNeverBack(threads: map<Tid, Dword>, steps: seq<Step>, s: State, t: Tid)
    requires Run(Init(threads), steps, s) && s.closing && t in s.threads && s.threads[t].phase.Running?
    ensures forall hook, isReturning, word :: Enabled(s, Enter(t, hook, isReturning, word)) ==> hook == 0
    ensures Enabled(s, Throw(t))
    ensures forall more, u :: Run(Next(s, Throw(t)), more, u) ==> t in u.threads && u.threads[t].phase.Thrown?
  {
    RunFromInit(threads, steps, s);
    var n := Next(s, Throw(t));
    NextKeeps(s, Throw(t));
    forall more, u | Run(n, more, u) ensures t in u.threads && u.threads[t].phase.Thrown? {
      ThrownStays(n, more, u, t);
    }
  }

  lemma ThrownStep(s: State, step: Step, t: Tid)
    requires Inv(s) && Enabled(s, step) && t in s.threads && s.threads[t].phase.Thrown?
    ensures var n := Next(s, step); t in n.threads && n.threads[t].phase.Thrown?
  {
    hide QueuesOk, SlotOk;
  }

  lemma {:induction false} ThrownStays(s: State, steps: seq<Step>, end: State, t: Tid)
    requires Inv(s) && Run(s, steps, end) && t in s.threads && s.threads[t].phase.Thrown?
    ensures t in end.threads && end.threads[t].phase.Thrown?
    decreases |steps|
  {
    if steps != [] {
      NextKeeps(s, steps[0]);
      ThrownStep(s, steps[0], t);
      hide Inv, Next, Enabled;
      ThrownStays(Next(s, steps[0]), steps[1..], end, t);
    }
  }

  /** Nothing is declined or lost before the victim stops, and only threads that were inside the callback
      when the rundown began can be: from then on no thread enters with a hook. */
  lemma LostOnlyInRundown(threads: map<Tid, Dword>, steps: seq<Step>, s: State, t: Tid)
    requires Run(Init(threads), steps, s) && t in s.threads
    ensures s.threads[t].phase.Declined? || s.threads[t].phase.Lost? ==> s.stopping
    ensures s.stopping ==> forall hook, isReturning, word :: Enabled(s, Enter(t, hook, isReturning, word)) ==> hook == 0
  {
    RunFromInit(threads, steps, s);
    assert ThreadOk(s, t);
  }
}
