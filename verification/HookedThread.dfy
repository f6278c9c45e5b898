/** A victim thread with the x64 hook stubs, the hit callback, and the context edits
    that the server's monitor makes on the stopped thread. */
module HookedThread {
  import opened Machine
  import opened Options

  // Code addresses inside the victim library.
  const HOOK_LL_CALL := -6     // _HookLLCall
  const HIT := -1              // first instruction of _HookLLHit
  const SPIN := -2             // its `jmp $`
  const RETURN_STUB := -3      // HookLLReturnStub
  const RETURN_ROUTINE := -4   // _HookLLReturn
  const AFTER_CALL := -5       // the instruction after an internal `call`

  /** hook_t: what the stubs and the server read through a hook pointer. */
  datatype Hook = Hook(va: int, trampoline: int)

  /** The four-tuple that OnHook leaves for the WaitForHook handler. */
  datatype HitParams = HitParams(hook: int, isReturning: bool, event: int, initial: Dword)

  datatype Hit = Hit(va: int, isReturning: bool)

  datatype Action = Go | BreakOnReturn | Skip(returnValue: Option<int>, stackBytes: Option<nat>)

  /** What one call into C++ code leaves in the registers and cells it may change. */
  datatype Junk = Junk(vol: Vol, cells: Memory)

  const STACK_SIZE := CONTEXT_SIZE + 0x20

  function StoreXmm(m: Memory, a: int, x: Xmm): (r: Memory)
    requires a % 16 == 0
    ensures XmmAt(r, a, x) && SameOutside(r, m, a, a + 16)
  {
    m.Put(a, x.lo).Put(a + 8, x.hi)
  }

  function LoadXmm(m: Memory, a: int): (x: Xmm)
    requires a % 16 == 0
    ensures XmmAt(m, a, x)
  {
    Xmm(m.At(a), m.At(a + 8))
  }

  class Thread {
    var vol: Vol
    var rest: Rest
    var rsp: int
    var rip: int
    var mem: Memory
    var tls: int                        // the victim's flag; zero while the program's own code runs
    const isRpcThread: bool
    var returnStack: seq<int>           // the thread's std::stack of return data
    var params: Option<HitParams>
    var hits: seq<Hit>                  // what the server was told, in order
    var bodies: seq<int>                // addresses of the original functions run, in order
    var externals: nat
    const hooks: map<int, Hook>
    const junk: nat -> Junk

    constructor (hooks: map<int, Hook>, junk: nat -> Junk, isRpcThread: bool,
                 vol: Vol, rest: Rest, rsp: int, mem: Memory)
      ensures this.hooks == hooks && this.junk == junk && this.isRpcThread == isRpcThread && tls == 0
      ensures this.vol == vol && this.rest == rest && this.rsp == rsp && this.mem == mem
      ensures returnStack == [] && hits == [] && bodies == []
    {
      this.hooks, this.junk, this.vol, this.rest, this.rsp, this.mem := hooks, junk, vol, rest, rsp, mem;
      this.isRpcThread, tls := isRpcThread, 0;
      rip, returnStack, params, hits, bodies, externals := 0, [], None, [], [], 0;
    }

    // --- Instructions

    method Push(v: int)
      modifies this`rsp, this`mem
      ensures rsp == old(rsp) - 8 && mem == old(mem).Put(rsp, v)
    {
      rsp := rsp - 8;
      mem := mem.Put(rsp, v);
    }

    method Ret()
      modifies this`rsp, this`rip
      ensures rip == mem.At(old(rsp)) && rsp == old(rsp) + 8
    {
      rip := mem.At(rsp);
      rsp := rsp + 8;
    }

    // --- Register save and restore. `vmovdqa` faults unless its address is a multiple of 16,
    // hence the alignment demands.

    method SaveGeneral(c: int)
      modifies this`mem
      ensures GeneralAt(mem, c, vol) && SameOutside(mem, old(mem), c, c + O_RFLAGS)
    {
      var m := mem;
      m := m.Put(c + O_RAX, vol.rax);
      m := m.Put(c + O_RCX, vol.rcx);
      m := m.Put(c + O_RDX, vol.rdx);
      m := m.Put(c + O_R8, vol.r8);
      m := m.Put(c + O_R9, vol.r9);
      m := m.Put(c + O_R10, vol.r10);
      m := m.Put(c + O_R11, vol.r11);
      mem := m;
    }

    method SaveXmms(c: int)
      requires c % 16 == 0
      modifies this`mem
      ensures XmmsAt(mem, c, vol) && SameOutside(mem, old(mem), c + O_XMM0, c + O_MXCSR)
    {
      var m := mem;
      m := StoreXmm(m, c + O_XMM0, vol.xmm0);
      m := StoreXmm(m, c + O_XMM1, vol.xmm1);
      m := StoreXmm(m, c + O_XMM2, vol.xmm2);
      m := StoreXmm(m, c + O_XMM3, vol.xmm3);
      m := StoreXmm(m, c + O_XMM4, vol.xmm4);
      m := StoreXmm(m, c + O_XMM5, vol.xmm5);
      mem := m;
    }

    method LoadGeneral(c: int)
      modifies this`vol
      ensures GeneralAt(mem, c, vol)
    {
      vol := vol.(rax := mem.At(c + O_RAX));
      vol := vol.(rcx := mem.At(c + O_RCX));
      vol := vol.(rdx := mem.At(c + O_RDX));
      vol := vol.(r8 := mem.At(c + O_R8));
      vol := vol.(r9 := mem.At(c + O_R9));
      vol := vol.(r10 := mem.At(c + O_R10));
      vol := vol.(r11 := mem.At(c + O_R11));
    }

    method LoadXmms(c: int)
      requires c % 16 == 0
      modifies this`vol
      ensures XmmsAt(mem, c, vol)
      ensures vol == old(vol).(xmm0 := vol.xmm0, xmm1 := vol.xmm1, xmm2 := vol.xmm2,
                               xmm3 := vol.xmm3, xmm4 := vol.xmm4, xmm5 := vol.xmm5)
    {
      vol := vol.(xmm0 := LoadXmm(mem, c + O_XMM0));
      vol := vol.(xmm1 := LoadXmm(mem, c + O_XMM1));
      vol := vol.(xmm2 := LoadXmm(mem, c + O_XMM2));
      vol := vol.(xmm3 := LoadXmm(mem, c + O_XMM3));
      vol := vol.(xmm4 := LoadXmm(mem, c + O_XMM4));
      vol := vol.(xmm5 := LoadXmm(mem, c + O_XMM5));
    }

    method SaveContext()
      requires rsp % 16 == 8
      modifies this`mem, this`rsp, this`rip
      ensures ContextAt(mem, old(rsp) + 0x28, vol)
      ensures forall a :: !(old(rsp) + 0x28 <= a < old(rsp) + 0x28 + CONTEXT_SIZE) && a != old(rsp) - 8
                          ==> mem.At(a) == old(mem).At(a)
      ensures rip == old(mem).At(old(rsp)) && rsp == old(rsp) + 8
    {
      var c := rsp + 0x28;
      SaveGeneral(c);
      Push(vol.rflags);
      mem := mem.Put(c + O_RFLAGS, mem.At(rsp));
      rsp := rsp + 8;
      SaveXmms(c);
      mem := mem.Put(c + O_MXCSR, vol.mxcsr);
      Ret();
    }

    method RestoreContext(ghost v: Vol)
      requires rsp % 16 == 8
      requires ContextAt(mem, rsp + 0x28, v)
      modifies this`vol, this`mem, this`rsp, this`rip
      ensures vol == v
      ensures forall a :: a != old(rsp) - 8 ==> mem.At(a) == old(mem).At(a)
      ensures rip == old(mem).At(old(rsp)) && rsp == old(rsp) + 8
    {
      var c := rsp + 0x28;
      hide XmmAt;
      LoadGeneral(c);
      Push(mem.At(c + O_RFLAGS));
      vol := vol.(rflags := mem.At(rsp));
      rsp := rsp + 8;
      LoadXmms(c);
      vol := vol.(mxcsr := mem.At(c + O_MXCSR));
      ContextMoves(old(mem), mem, c, v);
      ContextUnique(mem, c, v, vol);
      Ret();
    }

    // --- Calls into C++ code

    /** A callee that follows the calling convention: it keeps RSP and the caller's cells above
        the 32-byte home area, and may leave anything in the volatile registers and below. */
    method External()
      requires rsp % 16 == 0
      modifies this`vol, this`mem, this`externals
      ensures SameFrom(mem, old(mem), rsp + 0x20)
    {
      var j := junk(externals);
      externals := externals + 1;
      vol := j.vol;
      mem := mem.Scribble(j.cells, rsp + 0x20);
    }

    /** Hits are ignored inside the hook machinery and on RPC threads. */
    predicate Internal()
      reads this`tls
    {
      tls != 0 || isRpcThread
    }

    /** HookLLOnHook(rcx, rdx, r8): the value in RAX tells whether the hit was accepted. `stopping`
        is whether the victim is being taken down when the wait for the slot ends. */
    method OnHook(hook: int, event: int, r8: int, stopping: bool) returns (rax: int)
      requires rsp % 16 == 0
      modifies this`vol, this`mem, this`externals, this`params, this`tls
      ensures SameFrom(mem, old(mem), rsp + 0x20) && tls == old(tls)
      ensures rax == if Internal() || stopping then 0 else 1
      ensures params == if Internal() || stopping then old(params)
                        else Some(HitParams(hook, r8 != 0, event, Low32(old(mem).At(event))))
    {
      if Internal() {
        External();
        return 0;
      }
      tls := 1;
      if !stopping {
        params := Some(HitParams(hook, r8 != 0, event, Low32(mem.At(event))));
      }
      External();
      tls := 0;
      rax := if stopping then 0 else 1;
    }

    /** HookLLReturnStackPush(rcx). */
    method ReturnStackPush(value: int)
      requires rsp % 16 == 0
      modifies this`vol, this`mem, this`externals, this`returnStack, this`tls
      ensures SameFrom(mem, old(mem), rsp + 0x20) && tls == 0
      ensures returnStack == old(returnStack) + [value]
    {
      tls := 1;
      returnStack := returnStack + [value];
      External();
      tls := 0;
    }

    /** HookLLReturnStackPop(), with its result in RAX. */
    method ReturnStackPop() returns (rax: int)
      requires rsp % 16 == 0
      requires returnStack != []
      modifies this`vol, this`mem, this`externals, this`returnStack, this`tls
      ensures SameFrom(mem, old(mem), rsp + 0x20) && tls == 0
      ensures old(returnStack) == returnStack + [rax]
    {
      tls := 1;
      rax := returnStack[|returnStack| - 1];
      returnStack := returnStack[..|returnStack| - 1];
      External();
      tls := 0;
    }

    // --- The stubs

    /** How every stub begins: reserve `size` bytes and save the volatile registers there. */
    method Prologue(size: int)
      requires (rsp - size) % 16 == 0 && size >= STACK_SIZE
      modifies this`mem, this`rsp, this`rip
      ensures rsp == old(rsp) - size
      ensures ContextAt(mem, rsp + 0x20, vol)
      ensures SameFrom(mem, old(mem), rsp + STACK_SIZE)
    {
      rsp := rsp - size;
      Push(AFTER_CALL);
      SaveContext();
      assert rip == AFTER_CALL;
    }

    /** How every stub ends: restore what the prologue saved and release the `size` bytes. */
    method Epilogue(size: int, ghost v: Vol, ghost saved: Memory)
      requires rsp % 16 == 0 && size >= STACK_SIZE
      requires ContextAt(saved, rsp + 0x20, v)
      requires SameWithin(mem, saved, rsp + 0x20, rsp + STACK_SIZE)
      modifies this`vol, this`mem, this`rsp, this`rip
      ensures rsp == old(rsp) + size && vol == v
      ensures SameFrom(mem, old(mem), old(rsp))
    {
      hide ContextAt;
      Push(AFTER_CALL);
      ContextMoves(saved, mem, rsp + 0x28, v);
      RestoreContext(v);
      assert rip == AFTER_CALL;
      rsp := rsp + size;
    }

    /** HookLLCallStub: the detour target, patched with its own hook pointer. */
    method HookLLCallStub(hook: int)
      modifies this`rsp, this`mem, this`rip
      ensures rsp == old(rsp) - 8 && mem.At(rsp) == hook && rip == HOOK_LL_CALL
      ensures SameFrom(mem, old(mem), old(rsp))
    {
      Push(hook);
      Push(HOOK_LL_CALL);
      Ret();
    }

    /** What _HookLLCall does between save and restore: the callback decides where its `ret` goes,
        and the target takes the place of the hook pointer. */
    method ChooseTarget(stopping: bool)
      requires rsp % 16 == 0 && mem.At(rsp + STACK_SIZE) in hooks
      modifies this`vol, this`mem, this`externals, this`params, this`tls
      ensures tls == old(tls)
      ensures SameWithin(mem, old(mem), rsp + 0x20, rsp + STACK_SIZE)
      ensures SameFrom(mem, old(mem), rsp + STACK_SIZE + 8)
      ensures mem.At(rsp + STACK_SIZE)
              == if Internal() || stopping then hooks[old(mem).At(rsp + STACK_SIZE)].trampoline else HIT
      ensures params == if Internal() || stopping then old(params)
                        else Some(HitParams(old(mem).At(rsp + STACK_SIZE), false, rsp + STACK_SIZE + 8,
                                            Low32(old(mem).At(rsp + STACK_SIZE + 8))))
    {
      hide Low32;
      var accepted := OnHook(mem.At(rsp + STACK_SIZE), rsp + STACK_SIZE + 8, 0, stopping);
      var target := HIT;
      if accepted == 0 {
        target := hooks[mem.At(rsp + STACK_SIZE)].trampoline;
      }
      mem := mem.Put(rsp + STACK_SIZE, target);
    }

    /** _HookLLCall: RSP points at the hook pointer, the return address is above it. Ends at the
        hit routine or at the trampoline with the registers and caller's cells of its entry. */
    method HookLLCall(stopping: bool)
      requires rsp % 16 == 0 && rip == HOOK_LL_CALL
      requires mem.At(rsp) in hooks
      modifies this`vol, this`mem, this`rsp, this`rip, this`externals, this`params, this`tls
      ensures vol == old(vol) && rsp == old(rsp) + 8 && tls == old(tls)
      ensures SameFrom(mem, old(mem), rsp)
      ensures rip == if Internal() || stopping then hooks[old(mem).At(old(rsp))].trampoline else HIT
      ensures params == if Internal() || stopping then old(params)
                        else Some(HitParams(old(mem).At(old(rsp)), false, rsp, Low32(mem.At(rsp))))
    {
      hide ContextAt, Low32;
      Prologue(STACK_SIZE);
      ghost var saved := mem;
      ChooseTarget(stopping);
      Epilogue(STACK_SIZE, old(vol), saved);
      Ret();
    }

    /** What HookLLReturnStub does between save and restore. */
    method DivertReturn()
      requires rsp % 16 == 0 && mem.At(rsp + STACK_SIZE) in hooks
      modifies this`vol, this`mem, this`externals, this`returnStack, this`tls
      ensures tls == 0
      ensures SameWithin(mem, old(mem), rsp + 0x20, rsp + STACK_SIZE)
      ensures SameFrom(mem, old(mem), rsp + STACK_SIZE + 9)
      ensures mem.At(rsp + STACK_SIZE) == hooks[old(mem).At(rsp + STACK_SIZE)].trampoline
      ensures mem.At(rsp + STACK_SIZE + 8) == RETURN_ROUTINE
      ensures returnStack
              == old(returnStack) + [old(mem).At(rsp + STACK_SIZE), old(mem).At(rsp + STACK_SIZE + 8)]
    {
      ReturnStackPush(mem.At(rsp + STACK_SIZE));
      ReturnStackPush(mem.At(rsp + STACK_SIZE + 8));
      mem := mem.Put(rsp + STACK_SIZE + 8, RETURN_ROUTINE);
      mem := mem.Put(rsp + STACK_SIZE, hooks[mem.At(rsp + STACK_SIZE)].trampoline);
    }

    /** HookLLReturnStub: moves the hook pointer and the return address to the return stack and
        redirects the return address before it goes on to the trampoline. */
    method HookLLReturnStub()
      requires rsp % 16 == 0 && rip == RETURN_STUB
      requires mem.At(rsp) in hooks
      modifies this`vol, this`mem, this`rsp, this`rip, this`externals, this`returnStack, this`tls
      ensures vol == old(vol) && rsp == old(rsp) + 8 && tls == 0
      ensures mem.At(rsp) == RETURN_ROUTINE && SameFrom(mem, old(mem), rsp + 1)
      ensures rip == hooks[old(mem).At(old(rsp))].trampoline
      ensures returnStack == old(returnStack) + [old(mem).At(old(rsp)), old(mem).At(rsp)]
    {
      hide ContextAt;
      Prologue(STACK_SIZE);
      ghost var saved := mem;
      DivertReturn();
      Epilogue(STACK_SIZE, old(vol), saved);
      Ret();
    }

    /** What _HookLLReturn does between save and restore. */
    method TakeReturn(stopping: bool)
      requires rsp % 16 == 0 && |returnStack| >= 2
      modifies this`vol, this`mem, this`externals, this`returnStack, this`params, this`tls
      ensures tls == 0
      ensures SameWithin(mem, old(mem), rsp + 0x20, rsp + STACK_SIZE)
      ensures SameFrom(mem, old(mem), rsp + STACK_SIZE + 9)
      ensures |returnStack| == |old(returnStack)| - 2 && returnStack <= old(returnStack)
      ensures mem.At(rsp + STACK_SIZE + 8) == old(returnStack[|returnStack| - 1])
      ensures params == if isRpcThread || stopping then old(params)
                        else Some(HitParams(old(returnStack[|returnStack| - 2]), true, rsp + STACK_SIZE + 8,
                                            Low32(mem.At(rsp + STACK_SIZE + 8))))
    {
      hide Low32;
      var returnAddr := ReturnStackPop();
      mem := mem.Put(rsp + STACK_SIZE + 8, returnAddr);
      var hook := ReturnStackPop();
      var r8 := if vol.r8 % 2 == 0 then vol.r8 + 1 else vol.r8;
      var _ := OnHook(hook, rsp + STACK_SIZE + 8, r8, stopping);
    }

    /** _HookLLReturn: entered by the redirected `ret`. Puts the real return address back under
        RSP, offers the return as a hit, and goes to the hit routine whatever the answer. */
    method HookLLReturn(stopping: bool)
      requires rsp % 16 == 0 && rip == RETURN_ROUTINE
      requires |returnStack| >= 2
      modifies this`vol, this`mem, this`rsp, this`rip, this`externals, this`returnStack, this`params, this`tls
      ensures vol == old(vol) && rsp == old(rsp) - 8 && rip == HIT && tls == 0
      ensures SameFrom(mem, old(mem), old(rsp))
      ensures |returnStack| == |old(returnStack)| - 2 && returnStack <= old(returnStack)
      ensures mem.At(rsp) == old(returnStack[|returnStack| - 1])
      ensures params == if isRpcThread || stopping then old(params)
                        else Some(HitParams(old(returnStack[|returnStack| - 2]), true, rsp, Low32(mem.At(rsp))))
    {
      hide ContextAt, Low32;
      Prologue(STACK_SIZE + 16);
      ghost var saved := mem;
      TakeReturn(stopping);
      Epilogue(STACK_SIZE + 8, old(vol), saved);
      rip := HIT;
    }

    /** _HookLLHit: complements the low half of the return address, then spins. */
    method HookLLHit()
      requires rip == HIT
      modifies this`mem, this`rip
      ensures mem == old(mem).Put(rsp, WithLow32(old(mem).At(rsp), Not32(Low32(old(mem).At(rsp)))))
      ensures rip == SPIN
    {
      mem := mem.Put(rsp, WithLow32(mem.At(rsp), Not32(Low32(mem.At(rsp)))));
      rip := SPIN;
    }

    // --- The server's side of a hit

    method ExchangeLow32(a: int, d: Dword) returns (seen: Dword)
      modifies this`mem
      ensures seen == Low32(old(mem).At(a)) && mem == old(mem).Put(a, WithLow32(old(mem).At(a), d))
    {
      seen := Low32(mem.At(a));
      mem := mem.Put(a, WithLow32(mem.At(a), d));
    }

    /** slimevent::wait on a triggered event. */
    method EventWait(a: int, initial: Dword)
      requires Low32(mem.At(a)) == Not32(initial)
      modifies this`mem
      ensures mem.At(a) == WithLow32(old(mem).At(a), initial)
      ensures forall x :: x != a ==> mem.At(x) == old(mem).At(x)
    {
      var seen := ExchangeLow32(a, initial);
      assert seen != initial;
    }

    method ManipGo(hookData: Hook)
      requires rip == SPIN
      modifies this`rip
      ensures rip == hookData.trampoline
    {
      rip := hookData.trampoline;
    }

    method ManipBreakOnReturn(hook: int)
      requires rip == SPIN
      modifies this`rip, this`rsp, this`mem
      ensures rip == RETURN_STUB && rsp == old(rsp) - 8 && mem == old(mem).Put(rsp, hook)
    {
      rsp := rsp - 8;
      mem := mem.Put(rsp, hook);
      rip := RETURN_STUB;
    }

    method ManipSkip(returnValue: Option<int>, stackBytes: Option<nat>)
      requires rip == SPIN
      modifies this`rip, this`rsp, this`vol
      ensures vol == if returnValue.Some? then old(vol).(rax := returnValue.value) else old(vol)
      ensures rip == mem.At(old(rsp))
      ensures rsp == old(rsp) + 8 + if stackBytes.Some? then stackBytes.value else 0
    {
      if returnValue.Some? {
        vol := vol.(rax := returnValue.value);
      }
      var returnAddr := mem.At(rsp);
      rip := returnAddr;
      rsp := rsp + 8 + if stackBytes.Some? then stackBytes.value else 0;
    }

    /** One turn of the monitor loop: wait for the event, report the hit, edit the context. */
    method Monitor(action: Action)
      requires rip == SPIN
      requires params.Some? && params.value.hook in hooks && params.value.event == rsp
      requires Low32(mem.At(rsp)) == Not32(params.value.initial)
      modifies this`mem, this`rip, this`rsp, this`vol, this`hits
      ensures hits == old(hits) + [Hit(hooks[params.value.hook].va, params.value.isReturning)]
      ensures SameFrom(mem, old(mem), old(rsp) + 1)
      ensures mem.At(old(rsp)) == WithLow32(old(mem).At(old(rsp)), params.value.initial)
      ensures params.value.isReturning ==>
                vol == old(vol) && rsp == old(rsp) + 8 && rip == mem.At(old(rsp))
      ensures !params.value.isReturning && action.Skip? ==>
                && vol == (if action.returnValue.Some? then old(vol).(rax := action.returnValue.value) else old(vol))
                && rsp == old(rsp) + 8 + (if action.stackBytes.Some? then action.stackBytes.value else 0)
                && rip == mem.At(old(rsp))
      ensures !params.value.isReturning && action.Go? ==>
                vol == old(vol) && rsp == old(rsp) && rip == hooks[params.value.hook].trampoline
      ensures !params.value.isReturning && action.BreakOnReturn? ==>
                vol == old(vol) && rsp == old(rsp) - 8 && rip == RETURN_STUB && mem.At(rsp) == params.value.hook
    {
      var p := params.value;
      EventWait(p.event, p.initial);
      var hookData := hooks[p.hook];
      hits := hits + [Hit(hookData.va, p.isReturning)];
      if p.isReturning {
        ManipSkip(None, None);
      } else if action.Skip? {
        ManipSkip(action.returnValue, action.stackBytes);
      } else if action.Go? {
        ManipGo(hookData);
      } else {
        ManipBreakOnReturn(p.hook);
      }
    }

    // --- Whole passages between the program and its stubs

    /** The spin ends and the monitor acts; the word that served as the event is itself again. */
    method Serve(action: Action)
      requires rip == HIT
      requires params.Some? && params.value.hook in hooks && params.value.event == rsp
      requires params.value.initial == Low32(mem.At(rsp))
      modifies this`mem, this`rip, this`rsp, this`vol, this`hits
      ensures hits == old(hits) + [Hit(hooks[params.value.hook].va, params.value.isReturning)]
      ensures SameFrom(mem, old(mem), old(rsp))
      ensures params.value.isReturning ==>
                vol == old(vol) && rsp == old(rsp) + 8 && rip == old(mem).At(old(rsp))
      ensures !params.value.isReturning ==> Acted(action, params.value.hook, old(vol), old(rsp), old(mem))
    {
      ghost var w := mem.At(rsp);
      HookLLHit();
      Low32Restores(w, mem.At(rsp), Not32(Low32(w)));
      Monitor(action);
      assert mem.At(old(rsp)) == w;
    }

    ghost predicate Acted(action: Action, hook: int, vol0: Vol, rsp0: int, mem0: Memory)
      requires hook in hooks
      reads this
    {
      match action
      case Go => vol == vol0 && rsp == rsp0 && rip == hooks[hook].trampoline
      case BreakOnReturn => vol == vol0 && rsp == rsp0 - 8 && rip == RETURN_STUB && mem.At(rsp) == hook
      case Skip(v, b) =>
        && vol == (if v.Some? then vol0.(rax := v.value) else vol0)
        && rsp == rsp0 + 8 + (if b.Some? then b.value else 0)
        && rip == mem0.At(rsp0)
    }

    /** A detoured call that is reported, up to where the server sends the thread. */
    method TakeHit(hook: int, action: Action)
      requires rsp % 16 == 8 && hook in hooks && !Internal()
      modifies this`vol, this`mem, this`rsp, this`rip, this`externals, this`params, this`hits, this`tls
      ensures tls == old(tls) && hits == old(hits) + [Hit(hooks[hook].va, false)]
      ensures SameFrom(mem, old(mem), old(rsp))
      ensures Acted(action, hook, old(vol), old(rsp), old(mem))
    {
      HookLLCallStub(hook);
      HookLLCall(false);
      Serve(action);
    }

    /** A detoured call that is declined reaches the trampoline unchanged. */
    method PassHit(hook: int, stopping: bool)
      requires rsp % 16 == 8 && hook in hooks && (Internal() || stopping)
      modifies this`vol, this`mem, this`rsp, this`rip, this`externals, this`params, this`tls
      ensures tls == old(tls) && vol == old(vol) && rsp == old(rsp) && rip == hooks[hook].trampoline
      ensures SameFrom(mem, old(mem), rsp)
    {
      HookLLCallStub(hook);
      HookLLCall(stopping);
    }

    /** A diverted return, up to the real return address. That address is reached exactly if the
        instance is still there for the pops and the victim is not being stopped when the callback's
        wait ends. Without the instance the first pop throws; in a stop the thread spins on a
        complemented word. An RPC thread is never here, for its calls are never diverted. */
    method DivertedReturn(closed: bool, stopping: bool) returns (threw: bool)
      requires rsp % 16 == 0 && rip == RETURN_ROUTINE && !isRpcThread
      requires |returnStack| >= 2 && returnStack[|returnStack| - 2] in hooks
      modifies this`vol, this`mem, this`rsp, this`rip, this`externals, this`returnStack,
               this`params, this`hits, this`tls
      ensures SameFrom(mem, old(mem), old(rsp)) && threw == closed
      ensures closed ==> returnStack == old(returnStack) && hits == old(hits) && params == old(params)
      ensures !closed ==> tls == 0 && vol == old(vol)
      ensures !closed ==> |returnStack| == |old(returnStack)| - 2 && returnStack <= old(returnStack)
      ensures !closed && !stopping ==>
                && rsp == old(rsp) && rip == old(returnStack[|returnStack| - 1])
                && hits == old(hits) + [Hit(hooks[old(returnStack[|returnStack| - 2])].va, true)]
      ensures !closed && stopping ==>
                && rsp == old(rsp) - 8 && rip == SPIN && hits == old(hits) && params == old(params)
                && Low32(mem.At(rsp)) == Not32(Low32(old(returnStack[|returnStack| - 1])))
    {
      if closed {
        Prologue(STACK_SIZE + 16);
        External();
        return true;
      }
      HookLLReturn(stopping);
      if stopping {
        HookLLHit();
      } else {
        Serve(Go);
      }
      return false;
    }
  }
}
