/** The reference: what a thread's code does when no stub is in the way. Code is a deterministic
    program that may depend on everything it reads; calls nest properly. The reference also
    says what a skipped call means, since the client may ask for that. */
module Program {
  import opened Machine
  import opened Options
  import opened HookedThread

  /** What the code of one function does next. */
  datatype Prog =
    | Ret
    | Inspect(view: (Vol, Rest, int) -> Prog)           // depend on the registers and RSP
    | Compute(vol: Vol, rest: Rest, next: Prog)         // set registers and other memory
    | MoveRsp(to: int, next: Prog)                      // allocate or free stack cells
    | Load(a: int, value: int -> Prog)
    | Store(a: int, v: int, next: Prog)
    | Call(va: int, returnAddr: int, next: Prog)
    | Jump(va: int)                                     // tail call

  /** How many hooked calls a thread has made, and how many times it was in the hit callback. */
  datatype Count = Count(calls: nat, callbacks: nat)

  /** `stack` holds exactly the cells that are defined and not below RSP. `skewed` records that a skip
      has moved RSP by something else than a multiple of 16. */
  datatype State = State(
    vol: Vol, rest: Rest, rsp: int, stack: map<int, int>, skewed: bool,
    bodies: seq<int>, hits: seq<Hit>, count: Count)

  /** Broken: the code does not keep the calling convention. Faulted: a register save has met a
      stack that is not aligned. Lost: the rundown of the victim has caught the thread in a stub. */
  datatype Outcome = Done(state: State) | Broken | Faulted | Lost | OutOfFuel

  /** What becomes of the last callback before a rundown: it is served as ever, it is declined, or it
      is accepted and never taken by the handler. */
  datatype Fate = Served | Declined | Stranded

  /** The rundown of the victim as one thread meets it: its first `n` callbacks begin before the
      instance is closed, and every later one throws. */
  datatype Rundown = Never | After(n: nat, last: Fate)

  datatype Answer = Passes | Serves | Strands | Throws

  /** One run is fixed by the code at each address, the hooked addresses, the client's choices by
      number of the hooked call, whether the thread reports its hits (RPC threads do not), and the
      rundown. On the machine a register save `faults` on a stack that is not aligned; the ideal
      debugger has no such fault. */
  datatype Setting = Setting(
    code: int -> Prog, hooked: set<int>, plan: nat -> Action, reports: bool, rundown: Rundown, faults: bool)

  function Ideal(e: Setting): Setting {
    e.(faults := false)
  }

  function Unhooked(e: Setting): Setting {
    e.(hooked := {})
  }

  /** How the thread's callback number `n` ends. */
  function AnswerTo(e: Setting, n: nat): Answer {
    if e.rundown.After? && n >= e.rundown.n then Throws
    else if !e.reports then Passes
    else if e.rundown.After? && n + 1 == e.rundown.n
    then match e.rundown.last case Served => Serves case Declined => Passes case Stranded => Strands
    else Serves
  }

  function From(stack: map<int, int>, lo: int): map<int, int> {
    map a | a in stack && lo <= a :: stack[a]
  }

  function SkipState(s: State, returnValue: Option<int>, stackBytes: Option<nat>): State {
    var bytes := if stackBytes.Some? then stackBytes.value else 0;
    Moved(s, s.rsp + 8 + bytes).(
      vol := if returnValue.Some? then s.vol.(rax := returnValue.value) else s.vol,
      skewed := s.skewed || bytes % 16 != 0)
  }

  /** After the callback of a hooked call. */
  function Met(s: State): State {
    s.(count := Count(s.count.calls + 1, s.count.callbacks + 1))
  }

  /** After a hooked call was reported. */
  function Reported(s: State, va: int): State {
    Met(s).(hits := s.hits + [Hit(va, false)])
  }

  /** After RSP has moved: cells below it are gone. */
  function Moved(s: State, to: int): State {
    s.(rsp := to, stack := From(s.stack, to))
  }

  function Computed(s: State, vol: Vol, rest: Rest): State {
    s.(vol := vol, rest := rest)
  }

  function Stored(s: State, a: int, v: int): State {
    s.(stack := s.stack[a := v])
  }

  /** After a `call` instruction. */
  function Called(s: State, returnAddr: int): State {
    s.(rsp := s.rsp - 8, stack := s.stack[s.rsp - 8 := returnAddr])
  }

  /** No return address in progress is changed, though it may be popped. */
  ghost predicate KeepsLive(before: map<int, int>, after: map<int, int>, live: set<int>) {
    forall a :: a in live && a in after ==> a in before && after[a] == before[a]
  }

  /** A function entered with RSP at its return address. */
  function Enter(e: Setting, va: int, s: State, live: set<int>, fuel: nat): (o: Outcome)
    ensures o.Done? ==> KeepsLive(s.stack, o.state.stack, live) && s.rsp < o.state.rsp && Later(s, o.state)
    ensures o.Faulted? ==> e.faults
    ensures o.Lost? ==> e.rundown.After?
    decreases fuel, 1
  {
    if va !in e.hooked then Body(e, va, s, live, fuel)
    else if e.faults && s.rsp % 16 != 8 then Faulted
    else
      match AnswerTo(e, s.count.callbacks)
      case Strands => Lost
      case Throws => Lost
      case Passes => Body(e, va, Met(s), live, fuel)
      case Serves =>
        match e.plan(s.count.calls)
        case Skip(v, b) => Done(SkipState(Reported(s, va), v, b))
        case Go => Body(e, va, Reported(s, va), live, fuel)
        case BreakOnReturn =>
          match Body(e, va, Reported(s, va), live, fuel)
          case Done(u) => Return(e, va, u)
          case other => other
  }

  /** The diverted return of a function. */
  function Return(e: Setting, va: int, s: State): Outcome {
    if e.faults && s.rsp % 16 != 0 then Faulted
    else if !AnswerTo(e, s.count.callbacks).Serves? then Lost
    else Done(s.(count := s.count.(callbacks := s.count.callbacks + 1), hits := s.hits + [Hit(va, true)]))
  }

  ghost predicate Later(s: State, u: State) {
    && s.count.calls <= u.count.calls && s.count.callbacks <= u.count.callbacks
    && (s.skewed ==> u.skewed)
  }

  function Body(e: Setting, va: int, s: State, live: set<int>, fuel: nat): (o: Outcome)
    ensures o.Done? ==> KeepsLive(s.stack, o.state.stack, live) && s.rsp < o.state.rsp && Later(s, o.state)
    ensures o.Faulted? ==> e.faults
    ensures o.Lost? ==> e.rundown.After?
    decreases fuel, 0
  {
    if fuel == 0 then OutOfFuel
    else Run(e, e.code(va), s.(bodies := s.bodies + [va]), s.rsp, live + {s.rsp}, fuel - 1)
  }

  /** The rest of a function whose return address is at `slot`; `live` are the cells that hold the
      return addresses of the calls in progress. Touching those by anything but `ret`, reading
      undefined cells, returning with RSP elsewhere, or calling with RSP not aligned is Broken; a
      skip that has moved RSP is not the code's fault, and the code goes on with what it finds. */
  function Run(e: Setting, p: Prog, s: State, slot: int, live: set<int>, fuel: nat): (o: Outcome)
    ensures o.Done? ==> KeepsLive(s.stack, o.state.stack, live) && slot < o.state.rsp && Later(s, o.state)
    ensures o.Faulted? ==> e.faults
    ensures o.Lost? ==> e.rundown.After?
    decreases fuel, 2
  {
    if fuel == 0 then OutOfFuel
    else
      match p
      case Ret =>
        if s.rsp == slot && slot in s.stack
        then Done(Moved(s, slot + 8))
        else Broken
      case Inspect(view) => Run(e, view(s.vol, s.rest, s.rsp), s, slot, live, fuel - 1)
      case Compute(vol, rest, next) => Run(e, next, Computed(s, vol, rest), slot, live, fuel - 1)
      case MoveRsp(to, next) =>
        Run(e, next, Moved(s, to), slot, live, fuel - 1)
      case Load(a, value) =>
        if a in s.stack && a !in live then Run(e, value(s.stack[a]), s, slot, live, fuel - 1) else Broken
      case Store(a, v, next) =>
        if s.rsp <= a && a % 8 == 0 && a !in live
        then Run(e, next, Stored(s, a, v), slot, live, fuel - 1)
        else Broken
      case Call(va, ret, next) =>
        if (s.rsp % 16 == 0 || s.skewed) && s.rsp - 8 !in live then
          match Enter(e, va, Called(s, ret), live, fuel - 1)
          case Done(s2) => Run(e, next, s2, slot, live, fuel - 1)
          case other => other
        else Broken
      case Jump(va) =>
        if s.rsp == slot && slot in s.stack then Enter(e, va, s, live, fuel - 1) else Broken
  }

  // --- What code can tell

  /** Code sees the registers and the memory that it has set, and RSP where it has put it. */
  lemma SeesWhatItSet(e: Setting, vol: Vol, rest: Rest, to: int, view: (Vol, Rest, int) -> Prog,
                      s: State, slot: int, live: set<int>, fuel: nat)
    requires fuel >= 3
    ensures exists u ::
              && Run(e, Compute(vol, rest, MoveRsp(to, Inspect(view))), s, slot, live, fuel)
                 == Run(e, view(vol, rest, to), u, slot, live, fuel - 3)
              && u.vol == vol && u.rest == rest && u.rsp == to
              && (forall a :: a in u.stack <==> a in s.stack && to <= a)
              && (forall a :: a in u.stack ==> u.stack[a] == s.stack[a])
              && (u.bodies, u.hits, u.count, u.skewed) == (s.bodies, s.hits, s.count, s.skewed)
  {
    var u := Moved(Computed(s, vol, rest), to);
    assert Run(e, Inspect(view), u, slot, live, fuel - 2) == Run(e, view(vol, rest, to), u, slot, live, fuel - 3);
    assert Run(e, MoveRsp(to, Inspect(view)), Computed(s, vol, rest), slot, live, fuel - 1)
           == Run(e, Inspect(view), u, slot, live, fuel - 2);
  }

  /** Code loads what it has stored, and elsewhere what was there. */
  lemma LoadsWhatItStored(e: Setting, a: int, v: int, b: int, value: int -> Prog,
                          s: State, slot: int, live: set<int>, fuel: nat)
    requires fuel >= 2 && s.rsp <= a && a % 8 == 0 && a !in live && b !in live && (b == a || b in s.stack)
    ensures exists u ::
              && Run(e, Store(a, v, Load(b, value)), s, slot, live, fuel)
                 == Run(e, value(if b == a then v else s.stack[b]), u, slot, live, fuel - 2)
              && (u.vol, u.rest, u.rsp, u.stack) == (s.vol, s.rest, s.rsp, s.stack[a := v])
              && (u.bodies, u.hits, u.count, u.skewed) == (s.bodies, s.hits, s.count, s.skewed)
  {
    var u := Stored(s, a, v);
    assert Run(e, Load(b, value), u, slot, live, fuel - 1)
           == Run(e, value(if b == a then v else s.stack[b]), u, slot, live, fuel - 2);
  }

  /** A call of a function that only returns comes back to the next instruction with everything as it
      was, but for the cells below RSP. */
  lemma ReturnsWhereCalled(e: Setting, va: int, ret: int, next: Prog, s: State, slot: int, live: set<int>, fuel: nat)
    requires fuel >= 4 && e.code(va) == Ret && va !in e.hooked && s.rsp % 16 == 0 && s.rsp - 8 !in live
    requires forall a :: a in s.stack ==> s.rsp <= a
    ensures Run(e, Call(va, ret, next), s, slot, live, fuel)
            == Run(e, next, s.(bodies := s.bodies + [va]), slot, live, fuel - 1)
  {
    var c := Called(s, ret).(bodies := s.bodies + [va]);
    assert Run(e, Ret, c, c.rsp, live + {c.rsp}, fuel - 2) == Done(Moved(c, c.rsp + 8));
    assert From(c.stack, s.rsp) == s.stack;
    assert Enter(e, va, Called(s, ret), live, fuel - 1) == Done(s.(bodies := s.bodies + [va]));
  }

  /** A tail call of such a function returns to the caller of the function that makes it. */
  lemma ReturnsForItsCaller(e: Setting, va: int, s: State, slot: int, live: set<int>, fuel: nat)
    requires fuel >= 3 && e.code(va) == Ret && va !in e.hooked && s.rsp == slot && slot in s.stack
    ensures Run(e, Jump(va), s, slot, live, fuel) == Done(Moved(s.(bodies := s.bodies + [va]), slot + 8))
  {
    var b := s.(bodies := s.bodies + [va]);
    assert Run(e, Ret, b, slot, live + {slot}, fuel - 2) == Done(Moved(b, slot + 8));
    assert Enter(e, va, s, live, fuel - 1) == Done(Moved(b, slot + 8));
  }
}
