/** The hook rendezvous: any number of hooked threads, one WaitForHook handler and one sequential
    monitor share a single slot, and each hit borrows the thread's return-address word as its
    event. One step is one critical section or one atomic access to a word. */
module Rendezvous {
  import opened Machine
  import opened Options

  type Tid = nat

  /** _hitParams. A null hook (0) marks the initial hit of a dynamic attach. */
  datatype Params = Params(hook: nat, tid: Tid, isReturning: bool, initial: Dword)

  /** A victim thread: running its own code, inside the hit callback, on its way from an accepted or a
      declined hit to _HookLLHit, at `jmp $` with either, past the notify of the initial hit, or out of a
      stub by an exception because the instance is gone. */
  datatype Phase =
    | Running
    | Entering(p: Params)
    | Accepted(p: Params)
    | Declined(p: Params)
    | Spinning(p: Params)
    | Lost(p: Params)
    | Notified(p: Params)
    | Thrown

  /** `word` is the low half of the word the thread's hit uses as event, `home` what it was before. */
  datatype Thread = Thread(phase: Phase, word: Dword, home: Dword)

  datatype Handler = Idle | Waiting | Watching(p: Params) | Replied(p: Params) | Gone

  datatype Monitor = Asking | Asked | Holding(p: Params) | Ended

  datatype State = State(
    hit: bool,
    params: Option<Params>,
    threads: map<Tid, Thread>,
    handler: Handler,
    monitor: Monitor,
    closing: bool,           // the destructor has begun: the instance cannot be got any more
    stopping: bool,          // _hitStop
    waits: nat,
    accepted: seq<Params>,   // hits accepted, in order
    reported: seq<Params>,   // hits reported to the monitor, in order
    edited: seq<Params>)     // hits the monitor has finished with, in order

  function Init(threads: map<Tid, Dword>): State {
    State(true, None, map t | t in threads :: Thread(Running, threads[t], threads[t]), Idle, Asking,
          false, false, 0, [], [], [])
  }

  datatype Step =
    | Enter(tid: Tid, hook: nat, isReturning: bool, word: Dword)   // the callback reads its event word
    | Accept(tid: Tid)        // the callback's critical section, with the slot free
    | Hit(tid: Tid)           // `lock not`, or the notify of the initial hit
    | Ask                     // the monitor calls WaitForHook
    | Start                   // the handler frees the slot and waits
    | Take                    // the handler wakes on a hit and keeps the mutex
    | Watch                   // one exchange of its wait loop
    | Reply                   // the monitor gets the reply and suspends the thread
    | Edit                    // the monitor edits the context and resumes the thread
    | Close                   // the instance gives way to the sentinel
    | Stop                    // the destructor sets _hitStop
    | Decline(tid: Tid)       // the callback's critical section after that
    | Throw(tid: Tid)         // a stub cannot get the instance
    | Quit                    // the handler wakes after that, and its error ends the monitor

  predicate Enabled(s: State, step: Step) {
    match step
    case Enter(t, hook, _, _) => t in s.threads && s.threads[t].phase.Running? && (hook == 0 || !s.closing)
    case Accept(t) => t in s.threads && s.threads[t].phase.Entering? && !s.handler.Watching? && !s.hit && !s.stopping
    case Hit(t) => t in s.threads && (s.threads[t].phase.Accepted? || s.threads[t].phase.Declined?)
    case Ask => s.monitor.Asking?
    case Start => s.monitor.Asked? && s.handler.Idle?
    case Take => s.handler.Waiting? && s.hit && s.params.Some? && !s.stopping
    case Watch => s.handler.Watching? && s.handler.p.tid in s.threads
    case Reply => s.handler.Replied? && s.monitor.Asked?
    case Edit => s.monitor.Holding? && s.monitor.p.tid in s.threads
    case Close => !s.closing
    case Stop => s.closing && !s.stopping
    case Decline(t) => t in s.threads && s.threads[t].phase.Entering? && !s.handler.Watching? && s.stopping
    case Throw(t) => t in s.threads && s.threads[t].phase.Running? && s.closing
    case Quit => s.handler.Waiting? && s.stopping
  }

  function Next(s: State, step: Step): State
    requires Enabled(s, step)
  {
    match step
    case Enter(t, hook, isReturning, word) =>
      s.(threads := s.threads[t := Thread(Entering(Params(hook, t, isReturning, word)), word, word)])
    case Accept(t) =>
      var p := s.threads[t].phase.p;
      s.(hit := true, params := Some(p), accepted := s.accepted + [p],
         threads := s.threads[t := s.threads[t].(phase := Accepted(p))])
    case Hit(t) =>
      var p := s.threads[t].phase.p;
      s.(threads := s.threads[t := HitThread(s.threads[t], p)])
    case Ask => s.(monitor := Asked, waits := s.waits + 1)
    case Start => s.(hit := false, handler := Waiting)
    case Take => s.(handler := Watching(s.params.value))
    case Watch =>
      var p := s.handler.p;
      var th := s.threads[p.tid];
      var m := s.(threads := s.threads[p.tid := th.(word := p.initial)]);
      if th.word == p.initial then m else m.(handler := Replied(p), reported := s.reported + [p])
    case Reply => s.(handler := Idle, monitor := Holding(s.handler.p))
    case Edit =>
      var p := s.monitor.p;
      var m := s.(monitor := Asking, edited := s.edited + [p]);
      if p.hook == 0 then m else m.(threads := s.threads[p.tid := s.threads[p.tid].(phase := Running)])
    case Close => s.(closing := true)
    case Stop => s.(stopping := true)
    case Decline(t) =>
      var p := s.threads[t].phase.p;
      s.(threads := s.threads[t := s.threads[t].(phase := DeclinedPhase(p))])
    case Throw(t) => s.(threads := s.threads[t := s.threads[t].(phase := Thrown)])
    case Quit => s.(handler := Gone, monitor := Ended)
  }

  /** `lock not` complements the word and the thread spins; the initial hit's notify stores the
      complement of what it read and, as nothing else wrote, is done. */
  function HitThread(th: Thread, p: Params): Thread {
    th.(word := Not32(th.word),
        phase := if p.hook == 0 then Notified(p) else if th.phase.Declined? then Lost(p) else Spinning(p))
  }

  /** A declined call goes to the trampoline; a declined return and the initial hit go on as if they
      had been accepted. */
  function DeclinedPhase(p: Params): Phase {
    if p.hook != 0 && !p.isReturning then Running else Declined(p)
  }

  ghost predicate Run(s: State, steps: seq<Step>, end: State)
    decreases |steps|
  {
    if steps == [] then s == end else Enabled(s, steps[0]) && Run(Next(s, steps[0]), steps[1..], end)
  }

  // --- The invariant

  /** The hit that occupies the slot, from its acceptance until the monitor is done with it. */
  function Current(s: State): Option<Params> {
    if s.monitor.Holding? then Some(s.monitor.p)
    else if s.handler.Replied? || s.handler.Watching? then Some(s.handler.p)
    else if (s.handler.Waiting? || s.handler.Gone?) && s.hit then s.params
    else None
  }

  predicate ThreadOk(s: State, t: Tid)
    requires t in s.threads
  {
    var th := s.threads[t];
    match th.phase
    case Running => true
    case Thrown => s.closing
    case Entering(p) => p.tid == t && p.initial == th.home == th.word
    case Accepted(p) => p.tid == t && p.initial == th.home == th.word && Current(s) == Some(p) && !Reported(s)
    case Declined(p) => p.tid == t && p.initial == th.home == th.word && s.stopping && (p.hook == 0 || p.isReturning)
    case Lost(p) => p.tid == t && p.initial == th.home && p.isReturning && s.stopping && th.word == Not32(th.home)
    case Spinning(p) => p.tid == t && p.initial == th.home && p.hook != 0 && Current(s) == Some(p) && WordOk(s, th)
    case Notified(p) => p.tid == t && p.initial == th.home && p.hook == 0 && (Current(s) == Some(p) ==> WordOk(s, th))
  }

  predicate Reported(s: State) {
    s.handler.Replied? || s.monitor.Holding?
  }

  predicate WordOk(s: State, th: Thread) {
    th.word == if Reported(s) then th.home else Not32(th.home)
  }

  predicate CurrentOk(s: State) {
    Current(s).Some? ==>
      var p := Current(s).value;
      && p.tid in s.threads
      && match s.threads[p.tid].phase
         case Running => false
         case Thrown => false
         case Entering(_) => false
         case Declined(_) => false
         case Lost(_) => false
         case Accepted(q) => q == p
         case Spinning(q) => q == p
         case Notified(q) => q == p
  }

  predicate SlotOk(s: State) {
    && (s.monitor.Asked? || s.handler.Idle? || s.handler.Gone?)
    && (s.handler.Gone? <==> s.monitor.Ended?)
    && (s.handler.Gone? ==> s.stopping) && (s.stopping ==> s.closing)
    && (s.handler.Watching? ==> s.params == Some(s.handler.p) && s.hit)
    && (s.handler.Replied? ==> s.hit)
    && (s.handler.Idle? ==> s.hit)
    && (s.hit && (s.handler.Waiting? || s.handler.Gone?) ==> s.params.Some?)
    && (s.waits == 0 ==> s.monitor.Asking? && s.accepted == [])
  }

  /** Accepted hits are the finished ones and then the current one, if any; reports lag by at most
      the current one. */
  predicate QueuesOk(s: State) {
    && s.accepted == s.edited + (if Current(s).Some? then [Current(s).value] else [])
    && s.waits == |s.edited| + (if s.monitor.Asking? then 0 else 1)
    && s.reported == s.edited + (if Reported(s) then [Current(s).value] else [])
  }

  ghost predicate Inv(s: State) {
    SlotOk(s) && CurrentOk(s) && QueuesOk(s) && forall t :: t in s.threads ==> ThreadOk(s, t)
  }

  lemma EnterKeeps(s: State, step: Step)
    requires Inv(s) && Enabled(s, step) && (step.Enter? || step.Accept?)
    ensures Inv(Next(s, step))
  {
  }

  lemma HitKeeps(s: State, step: Step)
    requires Inv(s) && Enabled(s, step) && (step.Hit? || step.Decline?)
    ensures Inv(Next(s, step))
  {
  }

  lemma ThrowKeeps(s: State, t: Tid)
    requires Inv(s) && Enabled(s, Throw(t))
    ensures Inv(Next(s, Throw(t)))
  {
  }

  lemma HandlerKeeps(s: State, step: Step)
    requires Inv(s) && Enabled(s, step) && (step.Start? || step.Take? || step.Watch? || step.Quit?)
    ensures Inv(Next(s, step))
  {
  }

  lemma MonitorKeeps(s: State, step: Step)
    requires Inv(s) && Enabled(s, step)
    requires step.Ask? || step.Reply? || step.Edit? || step.Close? || step.Stop?
    ensures Inv(Next(s, step))
  {
  }

  lemma NextKeeps(s: State, step: Step)
    requires Inv(s) && Enabled(s, step)
    ensures Inv(Next(s, step))
  {
    match step {
      case Enter(_, _, _, _) => EnterKeeps(s, step);
      case Accept(_) => EnterKeeps(s, step);
      case Hit(_) => HitKeeps(s, step);
      case Decline(_) => HitKeeps(s, step);
      case Throw(t) => ThrowKeeps(s, t);
      case Start => HandlerKeeps(s, step);
      case Take => HandlerKeeps(s, step);
      case Watch => HandlerKeeps(s, step);
      case Quit => HandlerKeeps(s, step);
      case Ask => MonitorKeeps(s, step);
      case Reply => MonitorKeeps(s, step);
      case Edit => MonitorKeeps(s, step);
      case Close => MonitorKeeps(s, step);
      case Stop => MonitorKeeps(s, step);
    }
    hide Inv, Next;
  }

  lemma {:induction false} RunKeeps(s: State, steps: seq<Step>, end: State)
    requires Inv(s) && Run(s, steps, end)
    ensures Inv(end)
    decreases |steps|
  {
    if steps != [] {
      NextKeeps(s, steps[0]);
      RunKeeps(Next(s, steps[0]), steps[1..], end);
    }
  }

  lemma RunFromInit(threads: map<Tid, Dword>, steps: seq<Step>, s: State)
    requires Run(Init(threads), steps, s)
    ensures Inv(s)
  {
    RunKeeps(Init(threads), steps, s);
  }

  // --- What every run keeps

  /** Accepted hits and reports match one to one in order, with at most one accepted hit not yet
      reported and at most one reported hit not yet edited; no hit passes without a WaitForHook. */
  lemma HitsMatchReports(threads: map<Tid, Dword>, steps: seq<Step>, s: State)
    requires Run(Init(threads), steps, s)
    ensures s.edited <= s.reported <= s.accepted
    ensures |s.accepted| <= |s.reported| + 1 && |s.reported| <= |s.edited| + 1
    ensures |s.accepted| <= |s.edited| + 1 && |s.accepted| <= s.waits
  {
    RunFromInit(threads, steps, s);
  }

  /** A hit that is accepted, or whose thread is inside the callback. */
  ghost predicate Known(s: State, p: Params) {
    p in s.accepted || exists t :: t in s.threads && s.threads[t].phase == Entering(p)
  }

  function Entry(p: Params): Step {
    Enter(p.tid, p.hook, p.isReturning, p.initial)
  }

  lemma NextKnows(s: State, step: Step, p: Params)
    requires Enabled(s, step) && Known(Next(s, step), p)
    ensures Known(s, p) || step == Entry(p)
  {
    var n := Next(s, step);
    if p !in n.accepted {
      var t :| t in n.threads && n.threads[t].phase == Entering(p);
      assert s.threads[t].phase == Entering(p) || step == Entry(p);
    } else if p !in s.accepted {
      assert step.Accept? && s.threads[step.tid].phase == Entering(p);
    }
  }

  lemma {:induction false} RunKnows(s: State, steps: seq<Step>, end: State, p: Params)
    requires Run(s, steps, end) && Known(end, p)
    ensures Known(s, p) || Entry(p) in steps
    decreases |steps|
  {
    if steps != [] {
      RunKnows(Next(s, steps[0]), steps[1..], end, p);
      if Known(Next(s, steps[0]), p) {
        NextKnows(s, steps[0], p);
      }
    }
  }

  /** What is reported is what a thread came with: its hook, its id, the direction, and its own word. */
  lemma ReportsAreEntries(threads: map<Tid, Dword>, steps: seq<Step>, s: State)
    requires Run(Init(threads), steps, s)
    ensures forall p :: p in s.reported ==> Entry(p) in steps
  {
    HitsMatchReports(threads, steps, s);
    forall p | p in s.reported ensures Entry(p) in steps {
      assert p in s.accepted;
      RunKnows(Init(threads), steps, s, p);
    }
  }

  /** The slot is written only when everything accepted before has been reported and edited. */
  lemma SlotNotOverwritten(threads: map<Tid, Dword>, steps: seq<Step>, s: State, t: Tid)
    requires Run(Init(threads), steps, s) && Enabled(s, Accept(t))
    ensures s.edited == s.reported == s.accepted
  {
    RunFromInit(threads, steps, s);
  }

  /** What the handler reports is the hit that was accepted last. */
  lemma ReportIsLastAccepted(threads: map<Tid, Dword>, steps: seq<Step>, s: State)
    requires Run(Init(threads), steps, s) && Enabled(s, Take)
    ensures s.accepted != [] && s.params == Some(s.accepted[|s.accepted| - 1])
  {
    RunFromInit(threads, steps, s);
  }

  /** When the monitor edits a context, the thread it edits has hit and is at `jmp $`, and the word
      that served as its event is the return address again. */
  lemma EditsFindThreadSpinning(threads: map<Tid, Dword>, steps: seq<Step>, s: State)
    requires Run(Init(threads), steps, s) && Enabled(s, Edit) && s.monitor.p.hook != 0
    ensures var th := s.threads[s.monitor.p.tid];
            th.phase == Spinning(s.monitor.p) && th.word == th.home
  {
    RunFromInit(threads, steps, s);
  }

  /** No two threads are between the acceptance of a hit and the end of its edit. */
  lemma OneThreadStopped(threads: map<Tid, Dword>, steps: seq<Step>, s: State, t: Tid, u: Tid)
    requires Run(Init(threads), steps, s) && t in s.threads && u in s.threads
    requires s.threads[t].phase.Spinning? || s.threads[t].phase.Accepted?
    requires s.threads[u].phase.Spinning? || s.threads[u].phase.Accepted?
    ensures t == u
  {
    RunFromInit(threads, steps, s);
  }

  // --- The program's own fields and critical sections

  class Victim {
    var hit: bool
    var hitStop: bool
    var hitParams: Option<Params>

    constructor ()
      ensures hit && !hitStop && hitParams == None
    {
      hit, hitStop, hitParams := true, false, None;
    }

    /** The fields are those of `s`. */
    ghost predicate Matches(s: State)
      reads this
    {
      hit == s.hit && hitParams == s.params && hitStop == s.stopping
    }

    /** hookHLOnHook, once its wait is over. */
    method OnHook(p: Params, ghost s: State) returns (accepted: bool)
      requires !hit || hitStop
      requires Matches(s) && p.tid in s.threads && s.threads[p.tid].phase == Entering(p) && !s.handler.Watching?
      modifies this`hit, this`hitParams
      ensures accepted == !hitStop
      ensures accepted ==> Enabled(s, Accept(p.tid)) && Matches(Next(s, Accept(p.tid)))
      ensures !accepted ==> Enabled(s, Decline(p.tid)) && Matches(Next(s, Decline(p.tid)))
    {
      if hitStop {
        return false;
      }
      hitParams := Some(p);
      hit := true;
      return true;
    }

    /** _onRpcWaitForHook, up to its wait. */
    method BeginWait(ghost s: State)
      requires Matches(s) && Enabled(s, Start)
      modifies this`hit
      ensures Matches(Next(s, Start))
    {
      hit := false;
    }

    /** _onRpcWaitForHook, after its wait: what it will reply, unless the victim stops. */
    method EndWait(ghost s: State) returns (r: Option<Params>)
      requires hit || hitStop
      requires Matches(s) && s.handler.Waiting? && (hit ==> hitParams.Some?)
      ensures r == None <==> hitStop
      ensures hitStop ==> Enabled(s, Quit) && Matches(Next(s, Quit))
      ensures !hitStop ==> Enabled(s, Take) && Next(s, Take).handler == Watching(r.value) && Matches(Next(s, Take))
    {
      if hitStop {
        return None;
      }
      return hitParams;
    }

    /** The destructor begins its rundown. */
    method BeginRundown(ghost s: State)
      requires Matches(s) && Enabled(s, Stop)
      modifies this`hitStop
      ensures Matches(Next(s, Stop))
    {
      hitStop := true;
    }
  }
}
