# DollDbg: the hooking and RPC core, proved

DollDbg lets a client stop the threads of a victim process at inline hooks, decide there whether the
call goes on, is skipped or is to be reported again when it returns, and does all of this over a small
RPC protocol. This project models the parts of it whose correctness is hard to see from one routine
and proves what they promise. It covers the x64 stubs only.

`dafny verify dfyconfig.toml` checks everything.

## What is modelled

**Transparent hooks** (`Machine`, `HookedThread`, `Program`, `Hearing`, `Reporting`, `Chains`, `Alignment`, `Rundown`,
`Transparency`). A thread has its volatile registers, RSP, RIP, a stack of 8-byte cells and the side stack of diverted return addresses. Every stub
and every context edit of the server is a method that changes them step by step, and C++ code called from a stub
may leave anything in the registers and cells that the calling convention lets it change. `Program.Run`
is the reference: a function's code is an arbitrary program that may depend on everything it reads,
calls nest to any depth, and the choice at each hooked call is arbitrary. `Transparency.RunHooked` runs the same
program through the detours and shows the reference state at every step; `Transparency.RunUnhooked` removes
the hooks from the reference; `Transparency.RunTransparently` is the two together. What the server hears of a run
is read back by `Hearing.Play`, which knows nothing but the client's actions, and `Reporting` proves that every
run passes it. For plans with skips the
ideal reference knows no alignment faults; `Alignment` says exactly when the machine has none either, and
`Transparency.RunAligned` is the theorem for those plans. A run may also meet the rundown of the victim, which
begins after any number of the thread's callbacks; `Rundown` says which runs it leaves as they are. `Chains`
builds the programs that show these conditions to be necessary.

**The rendezvous** (`Rendezvous`, `Returns`, `SlimEvent`, `Guard`). Any number of hooked threads, the `WaitForHook`
handler and the server's monitor share one slot, and a hit borrows the thread's return-address word as
its event. One step is one critical section or one atomic exchange, and the victim may begin to stop at any
time; the theorems are about all runs. `Returns` says which pending hits can still be completed.

**RPC** (`Wire`, `Transport`, `RpcNode`, `RpcDispatcher`, `RpcRuns`, `RpcIds`, `RpcPair`, `RpcWrap`).
`RpcNode.Dispatch` is the specification of one turn of the dispatcher, and the class
`RpcDispatcher.Rpc` is the program's own state, proved to follow it. `RpcRuns` takes one node with an
arbitrary peer, through the loss of the connection. `RpcPair` composes two nodes over ordered streams. Its
fields `calls` and `answers` only record what was asked and answered; no step depends on
them. `RpcWrap` shows that the bound on the age of outstanding calls cannot be improved.

**Supports** (`HookTable`, `Singleton`).

## Where the code falls short of a plain statement of its promise

- When the victim is taken down, threads that are in the hook machinery can be lost. A diverted return goes on
  to the hit routine whatever the callback answers (`DollDbg.Victim/hookll.x64.asm:231-236`), so a return that is
  declined never reaches its caller. The handler gives up without looking at the slot
  (`DollDbg.Victim/rpc.cpp:70-72`), so a hit, call or return, that was accepted and not yet taken is never edited
  and spins. A stub that begins later cannot get the instance (`DollDbg.Victim/hookll.cpp:11-21`) and throws.
  `Returns.ComesBackExactlyIf` proves over all runs that a pending hit can still come back if and only if the
  victim is not being stopped, or the handler has taken the hit, or it is a call whose callback has not decided;
  `Returns.StrandedCall` is a run that loses a call, and `Returns.LateNeverBack` is about the stubs that begin
  later. `HookedThread.Thread.DivertedReturn` proves the outcomes of a return on the machine. For a whole program,
  `Rundown.EnterLimited` says how many callbacks leave the run as it is, and `Rundown.CaughtExactlyInRundown`
  that every rundown catches some program. What becomes of a lost thread when the library is unloaded under it
  (`DollDbg.Victim/initfini.cpp:30`) is outside the model.
- The register saves of the stubs need an aligned stack. A skip that also releases a number of stack bytes that
  is not a multiple of 16 leaves RSP unaligned, and the next hooked call faults, or the return of a function that
  breaks on return and was left by a tail call; `Alignment.CallAfterSkipFaults` and `Alignment.TailSkipFaults` are
  the smallest cases. `Alignment.FaultFreeExactlyIfAligned` gives the exact condition on the client's plan: no
  program that keeps the calling convention by itself can fault if and only if every skip releases a multiple of 16.
- A hooked function called by `TlsGetValue` or `TlsSetValue`, or a hook on them, makes every hook on the thread
  call back for ever, since the callback reads and writes its flag through them outside the guard.
  `Guard.EndsExactlyIfClear` proves that a thread's calls come to an end exactly if there is no such hook, or
  no hooked function is called at all.
- Ids wrap after 65536 calls and `emplace` keeps an entry that is already there
  (`DollDbg.Rpc/Rpc.cpp:59-60`). `RpcIds.StaleExactly` says when the next id is taken,
  `RpcPair.ConservedExactlyIfFresh` that correctness of the pair survives the dispatch of a call
  exactly if it is not, and `RpcWrap.BoundIsTight` gives a run in which it is.
- A payload of 0xffffffff bytes or more does not survive the 32-bit length field.
  `Wire.FrameSurvivesIff` gives the exact condition. The casts to `int` and `DWORD` in the transports set
  limits of their own, 2^31 and 2^32 bytes, which the contracts of `Send` and `Recv` give exactly.
- A constructor that throws inside `Singleton::init` leaves the sentinel without an owner, and after
  that nothing ever changes the singleton. `Singleton.OrphanExactlyIfThrown` proves that this happens in
  exactly the runs in which a constructor throws, and `Singleton.ThrowingInitOrphans` gives such a run.

## Model

| member | source | states |
|---|---|---|
| HookedThread.Thread.SaveGeneral | DollDbg.Victim/hookll.x64.asm:67-73 | the seven volatile general registers are in their slots of the block, and no cell outside is changed |
| HookedThread.Thread.SaveXmms | DollDbg.Victim/hookll.x64.asm:76-81 | the same for XMM0 to XMM5, whose stores need an aligned block |
| HookedThread.Thread.LoadGeneral | DollDbg.Victim/hookll.x64.asm:92-98 | afterwards the general registers are those of the block |
| HookedThread.Thread.LoadXmms | DollDbg.Victim/hookll.x64.asm:101-106 | afterwards XMM0 to XMM5 are those of the block, and no other register has changed |
| HookedThread.Thread.SaveContext | DollDbg.Victim/hookll.x64.asm:66-84 | the block holds all volatile registers and the flags of the moment of the call; besides it only the scratch cell below RSP changes |
| HookedThread.Thread.RestoreContext | DollDbg.Victim/hookll.x64.asm:91-109 | whatever the registers were, they become exactly what the block holds, flags included |
| HookedThread.Thread.OnHook | DollDbg.Victim/hookhl.cpp:194-213 | the hit is accepted exactly if the flag is clear, the thread is no RPC thread and the victim is not being stopped when the wait ends; then hook, direction, event address and the low half of the word there are stored, and otherwise nothing; the flag is as before |
| HookedThread.Thread.ReturnStackPop | DollDbg.Victim/hookhl.cpp:227-234 | undoes one push and returns what it pushed |
| HookedThread.Thread.HookLLCallStub | DollDbg.Victim/hookll.x64.asm:129-140 | control reaches the common routine with the hook pointer under RSP and the caller's cells untouched |
| HookedThread.Thread.ChooseTarget | DollDbg.Victim/hookll.x64.asm:157-167 | between save and restore, the saved block is untouched, and the hit routine or the trampoline takes the place of the hook pointer as the callback decides |
| HookedThread.Thread.HookLLCall | DollDbg.Victim/hookll.x64.asm:148-174 | goes to the trampoline if the callback ignores or declines the hit and to the hit routine otherwise, with every volatile register, the flags, RSP and all cells from the return address up as on entry to the hooked function |
| HookedThread.Thread.DivertReturn | DollDbg.Victim/hookll.x64.asm:191-201 | between save and restore, hook pointer and return address go to the return stack in this order, the return address is diverted, and the saved block is untouched |
| HookedThread.Thread.HookLLReturnStub | DollDbg.Victim/hookll.x64.asm:182-208 | the hook pointer and then the real return address are on the return stack, the return address is diverted, and nothing else that the body can see differs |
| HookedThread.Thread.TakeReturn | DollDbg.Victim/hookll.x64.asm:224-231 | between save and restore, the return address and the hook come off the return stack, the former goes into its slot, the latter is offered as a returning hit, and the saved block is untouched |
| HookedThread.Thread.HookLLReturn | DollDbg.Victim/hookll.x64.asm:216-237 | takes two entries off the return stack, puts the real return address back under RSP, offers a returning hit for that hook and goes to the hit routine with all volatile registers as the body left them |
| Machine.Not32Complements | DollDbg.Victim/hookll.x64.asm:118 | the complement of the event word differs from it in each of its 32 binary digits |
| HookedThread.Thread.EventWait | DollDbg.Common/dolldbg/util/slimevent.h:51-55 | on a triggered event, the word gets its initial low half back and no other cell changes |
| HookedThread.Thread.ManipBreakOnReturn | DollDbg.Server/debugger.x64.cpp:34-59 | the hook pointer is pushed and the thread goes on in the return stub |
| HookedThread.Thread.ManipSkip | DollDbg.Server/debugger.x64.cpp:61-96 | the call returns at once, with the given RAX if any, and releases the given stack bytes if any |
| HookedThread.Thread.Monitor | DollDbg.Server/debugger.cpp:124-214 | one hit is reported, the event word is restored, and the edit is the one for the direction of the hit and the client's action; a returning hit ignores the action |
| HookedThread.Thread.Serve | DollDbg.Victim/hookll.x64.asm:116-123 | from the hit routine to where the server sends the thread, the caller's cells are unchanged, the borrowed word among them |
| HookedThread.Thread.TakeHit | DollDbg.Victim/hookll.x64.asm:129-174 | a reported call ends at the trampoline, the return stub or the caller as the action says, with all volatile registers and caller's cells as at the call, but for RAX and RSP of a skip |
| HookedThread.Thread.PassHit | DollDbg.Victim/hookll.x64.asm:129-174 | a call that is ignored or declined reaches the trampoline with all volatile registers, RSP and caller's cells as at the call |
| HookedThread.Thread.DivertedReturn | DollDbg.Victim/hookll.x64.asm:216-237 | the real return address is reached, with the registers the body left and the return stack shorter by its own two entries, exactly if the instance is there for the pops and the victim is not being stopped when the callback decides; without the instance it throws and nothing is popped, and in a stop the thread spins on the complemented address |
| Transparency.EnterHooked | DollDbg.Victim/hookll.x64.asm:129-237 | a call through a detour that completes in the reference, with any action at it and inside it, Skip included, and with any rundown, shows the reference state, returns to the same address and leaves the return stack as it found it |
| Transparency.ServedHooked | DollDbg.Server/debugger.cpp:203-212 | the same for a hit that is reported, for each of the three actions |
| Transparency.BreakHooked | DollDbg.Victim/hookll.x64.asm:182-237 | for break-on-return, the pops of the return take exactly what the matching return stub pushed, across everything the body does in between |
| Transparency.CallHooked | DollDbg.Victim/hookll.x64.asm:129-237 | a call instruction comes back to the instruction after it in the reference state |
| Transparency.RunHooked | DollDbg.Victim/hookll.x64.asm:129-237 | any code, with nested calls and tail calls of hooked and other functions, runs in step with the reference and leaves through the real or the diverted return address, whichever its caller has put there |
| Transparency.EnterUnhooked | DollDbg.Server/debugger.cpp:203-212 | without Skip, hooks change neither the outcome of a call in the reference nor whether it is broken or unfinished, unless a rundown catches it |
| Transparency.RunUnhooked | DollDbg.Server/debugger.cpp:203-212 | the same for any code in the middle of a function, which moreover leaves RSP just above its return address, so that a diverted return finds it aligned |
| Transparency.RunAligned | DollDbg.Victim/hookll.x64.asm:148-237 | for every plan whose skips all release multiples of 16: if the ideal debugger completes the call, so does the hooked run, in the same state, at the same return address and with the return stack as before; on a reporting thread the server has heard of every hooked call and of the returns that are broken on, properly nested, and the calls not skipped are the hooked functions that were run |
| Alignment.EnterAgrees | DollDbg.Victim/hookll.x64.asm:76-81 | under such a plan the machine and the ideal debugger agree on every call, at every register save of a hooked call or a diverted return, and a call that completes ends with RSP aligned |
| Alignment.RunAgrees | DollDbg.Victim/hookll.x64.asm:76-81 | the same for any code in the middle of a function |
| Alignment.PlanFaults | DollDbg.Server/debugger.x64.cpp:91-95 | for every other plan, and from any state, some program faults that completes for the ideal debugger and with no hooks |
| Alignment.FaultFreeExactlyIfAligned | DollDbg.Victim/hookll.x64.asm:76-81 | a plan is free of alignment faults for all programs, states and hooks if and only if every skip of it releases a multiple of 16 stack bytes |
| Alignment.TailSkipFaults | DollDbg.Server/debugger.x64.cpp:91-95 | a function that breaks on return and tail-calls one that is skipped with 8 stack bytes faults, and does not when the latter runs |
| Alignment.CallAfterSkipFaults | DollDbg.Victim/hookll.x64.asm:148-155 | a function that calls a hooked one twice in a row, the first call skipped with 8 stack bytes, faults at the second; with no hooks it completes |
| Rundown.EnterLimited | DollDbg.Victim/hookhl.cpp:204-212 | a run that completes without a rundown completes alike in one if its callbacks are within the quota, and is lost otherwise, except that a call declined at the quota goes on |
| Rundown.RunLimited | DollDbg.Victim/hookhl.cpp:204-212 | the same for any code in the middle of a function |
| Rundown.RundownCatches | DollDbg.Victim/hookll.cpp:9-12 | whenever the rundown begins and whatever the plan, some program that completes with no hooks is caught |
| Rundown.CaughtExactlyInRundown | DollDbg.Victim/initfini.cpp:89-95 | no program is ever caught if and only if there is no rundown |
| Transparency.RunTransparently | DollDbg.Victim/hookll.x64.asm:148-237 | for every program, set of hooks and choice of Go or BreakOnReturn at every hooked call, on reporting and on RPC threads, and with any rundown that does not catch the run: the same bodies in the same order, and on return the same address, registers, RSP, memory and defined stack cells as with no hooks, with the return stack balanced; the server has heard of exactly the hooked functions that were run, in order, with the returns that are broken on properly nested, and of nothing on an RPC thread |
| Reporting.EveryCallIsHeard | DollDbg.Server/debugger.cpp:124-213 | in a completed run of a reporting thread there is one report for each callback and one call for each hooked call; each return is that of the latest open call, where exactly the calls broken on open, and none stays open; the calls not skipped are the hooked functions that were run, in order |
| Reporting.EveryRunIsHeard | DollDbg.Victim/hookhl.cpp:201-212 | with no skips, the calls heard are exactly the hooked functions that were run, in order |
| Reporting.EnterCounts | DollDbg.Victim/hookhl.cpp:194-213 | with any rundown: a reporting thread is heard once for each callback but a declined one, and an RPC thread never |
| Reporting.SkippedCall | DollDbg.Server/debugger.x64.cpp:61-96 | a skipped function does not run; RAX and RSP are what the client asked for, and every other register, the caller's cells and the other memory are as at the call |
| Transparency.PassAndGoAgree | DollDbg.Victim/hookll.x64.asm:148-174 | from equal states, a declined hit and a hit answered with Go reach the trampoline in equal states |
| Rendezvous.NextKeeps | DollDbg.Victim/hookhl.cpp:201-212 | every step of any thread, the handler, the monitor or the destructor keeps the invariant: who holds the slot, what each borrowed word contains, and how far accepted, reported and edited hits are apart |
| Rendezvous.RunFromInit | DollDbg.Victim/initfini.cpp:36-37 | the invariant holds in every state reachable from the initial one, in which the slot is taken |
| Rendezvous.HitsMatchReports | DollDbg.Victim/rpc.cpp:64-84 | reports are the accepted hits in order, at most one accepted hit is unreported, and the number of accepted hits never exceeds that of WaitForHook calls |
| Rendezvous.SlotNotOverwritten | DollDbg.Victim/hookhl.cpp:204-209 | when a hit is written to the slot, every earlier one has been reported and acted on |
| Rendezvous.ReportIsLastAccepted | DollDbg.Victim/rpc.cpp:70-83 | when the handler takes a hit from the slot, it is the last one accepted |
| Rendezvous.ReportsAreEntries | DollDbg.Victim/hookhl.cpp:208 | every reported hit is one that some thread came with, with its hook, thread, direction and the word it found |
| Rendezvous.EditsFindThreadSpinning | DollDbg.Server/debugger.cpp:195-212 | when the monitor edits a context, that thread has executed `lock not` and spins, and the word under its RSP is the true return address again |
| Rendezvous.OneThreadStopped | DollDbg.Victim/hookhl.cpp:204-212 | no two threads are between the acceptance of their hit and its edit |
| Rendezvous.Victim.constructor | DollDbg.Victim/initfini.cpp:36-37 | the slot starts taken, so that no hit passes before WaitForHook |
| Rendezvous.Victim.OnHook | DollDbg.Victim/hookhl.cpp:204-212 | after its wait the callback makes exactly the step Decline if the victim stops and the step Accept otherwise |
| Rendezvous.Victim.BeginWait | DollDbg.Victim/rpc.cpp:66-70 | freeing the slot is exactly the step Start |
| Rendezvous.Victim.EndWait | DollDbg.Victim/rpc.cpp:70-83 | waking up is exactly the step Quit, with an error, if the victim stops, and otherwise the step Take, with the reply built from the slot |
| Rendezvous.Victim.BeginRundown | DollDbg.Victim/initfini.cpp:93-95 | setting the stop flag is exactly the step Stop |
| Returns.DoomedStays | DollDbg.Victim/hookll.x64.asm:231-236 | a pending hit that is neither taken when the victim stops nor a call still inside its callback is pending for ever: no run frees its thread |
| Returns.Complete | DollDbg.Server/debugger.cpp:124-214 | a hit that occupies the slot can be completed by some run, unless the victim stops before the handler takes it; its thread then runs on with its word restored, and no other thread has moved |
| Returns.ComesBackExactlyIf | DollDbg.Victim/rpc.cpp:70-83 | in every reachable state, a pending hit, call or return, can still come back with its return address restored if and only if the victim is not being stopped, the handler has taken the hit, or it is a call whose callback has not decided yet |
| Returns.ReturnsExactlyIf | DollDbg.Victim/hookll.x64.asm:231-236 | in every reachable state, a pending return can still come back, its return address restored, if and only if the victim is not being stopped or the handler has taken the hit |
| Returns.StrandedCall | DollDbg.Victim/rpc.cpp:70-72 | the run Ask, Start, Enter, Accept, Close, Stop loses a call: no continuation brings it back |
| Returns.LateNeverBack | DollDbg.Victim/hookll.cpp:9-22 | a thread that reaches a stub after the rundown has begun, by a call or a diverted return, can only throw, and never comes back |
| Returns.LostOnlyInRundown | DollDbg.Victim/initfini.cpp:89-95 | nothing is declined or lost before the victim stops, and once it stops no thread gets into the callback with a hook any more |
| SlimEvent.Event.WaitOnce | DollDbg.Common/dolldbg/util/slimevent.h:51-55 | the word becomes the initial value, and the loop ends exactly if it was another |
| SlimEvent.Event.NotifyOnce | DollDbg.Common/dolldbg/util/slimevent.h:57-61 | the word becomes the complement, and the loop ends exactly if it was the initial value |
| SlimEvent.EventConserved | DollDbg.Common/dolldbg/util/slimevent.h:51-61 | over any interleaving of any number of loops the word is the initial value or its complement, and completed notifies less completed waits is 1 if it is the complement and 0 otherwise |
| SlimEvent.LastTurnDecides | DollDbg.Common/dolldbg/util/slimevent.h:51-61 | after any turns the word is the initial value if the last one was a wait and the complement if it was a notify |
| SlimEvent.LeavesExactlyIf | DollDbg.Common/dolldbg/util/slimevent.h:51-61 | a turn ends its loop exactly if the one before it was of the other kind; the first does if it is a wait on a complemented word or a notify on an initial one |
| Guard.Thread.Guarded | DollDbg.Common/dolldbg/util/slimtls.h:65-78 | a guard is only taken with the flag clear, the flag is clear again afterwards, and nothing reached inside or through the calls that write the flag is reported |
| Guard.Thread.OnHook | DollDbg.Victim/hookhl.cpp:194-213 | a hit is accepted exactly if the thread is not inside the machinery, is not an RPC thread and the victim is not stopping; only then is it reported |
| Guard.Thread.RunAll | DollDbg.Victim/hookhl.cpp:194-246 | if the system calls on the flag lead to no hook: over any tree of calls of hooked and other functions, with hooked functions called anywhere inside the guarded routines, the reports are exactly those of the calls outside the machinery, in order, up to the first return that a stopping victim declines, and the flag ends as it began |
| Guard.Thread.RunOne | DollDbg.Victim/hookhl.cpp:194-234 | the same for one call and its return, each with its own stop flag |
| Guard.HearsCalls | DollDbg.Victim/hookhl.cpp:194-234 | for any tree of calls: the thread comes through exactly if no return that is broken on is declined, and then the reports name exactly the calls not let pass, in the order in which they begin, with one return of each address for each of its calls that is broken on, each return that of the latest open call |
| Guard.HearsFirst | DollDbg.Victim/hookhl.cpp:194-213 | also for a thread that is lost, the calls reported are the first of those calls, in order |
| Guard.EndsExactlyIfClear | DollDbg.Victim/hookhl.cpp:194-201 | calls come to an end exactly if none is hooked or the system calls on the flag that are made on the way lead to no hook: reading and writing with the flag clear on a reporting thread, only reading otherwise |
| Guard.HookedTlsNeverEnds | DollDbg.Common/dolldbg/util/slimtls.h:46-62 | otherwise every hooked call, at whatever depth, calls back for ever |
| Guard.HookedTlsGetValue | DollDbg.Common/dolldbg/util/slimtls.h:46-48 | such an input: with TlsGetValue hooked no call that reaches a hook ends |
| Wire.SwapBytes16 | DollDbg.Common/dolldbg/util/htonx.h:19-27 | the 16-bit swap is its own inverse and its little-endian bytes are the value in network order |
| Wire.SwapBytes | DollDbg.Common/dolldbg/util/htonx.h:21-29 | the same for 32 bits |
| Wire.HeadersAgree | DollDbg.Client/DollDbg/_Rpc/Rpc.py:20-29 | the packed C++ header and the Python `!HHI` header are the same bytes for all fields |
| Wire.HeaderFields | DollDbg.Rpc/rpc.h:23-31 | the accessors give back the fields the header was made from |
| Wire.ErrorRoundTrip | DollDbg.Common/dolldbg/rpc/exc.h:36-42 | an error payload has its fixed size and decodes to its category and code |
| Wire.FrameRoundTrip | DollDbg.Rpc/Rpc.cpp:170-175 | one turn of the receive loop on a sent frame and any further bytes gives that frame and those bytes |
| Wire.LongPayloadLost | DollDbg.Rpc/Rpc.cpp:216-219 | a payload of 0xffffffff bytes or more never comes back |
| Wire.FrameSurvivesIff | DollDbg.Rpc/Rpc.cpp:170-175 | a frame survives the wire exactly if its payload is shorter than 0xffffffff |
| Wire.StreamRoundTrip | DollDbg.Rpc/Rpc.cpp:170-175 | the receive loop on the bytes of any list of value and error frames gives that list |
| Wire.FrameLayout | DollDbg.Client/DollDbg/_Rpc/Rpc.py:20-29 | the bytes of a frame are channel, id and length, most significant byte first, then the payload, or the reserved length, category and code |
| Wire.CodesSpell | DollDbg.Common/dolldbg/rpc/exc.h:16-29 | the error categories and codes are the words that their four letters spell |
| Transport.TcpTransport.Send | DollDbg.Rpc/TcpTransport.cpp:32-49 | for every schedule of partial transfers and every buffer, exactly the buffer is appended to the stream, and otherwise a prefix of it; if the system never fails, the send completes exactly for buffers below 2^31 bytes; a failure is the cancelled error or the system error of the call that has failed |
| Transport.TcpTransport.Recv | DollDbg.Rpc/TcpTransport.cpp:51-73 | exactly the next bytes of the stream, as many as asked for; if the system never fails, this happens exactly for sizes below 2^31 that the stream still holds, and an ended stream is the connection-closed error |
| Transport.OverlappedTransport.Send | DollDbg.Rpc/OverlappedTransport.cpp:31-53 | as for TCP, with 2^32 as the limit, beyond which the loop stalls on requests for no bytes |
| Transport.OverlappedTransport.Recv | DollDbg.Rpc/OverlappedTransport.cpp:55-78 | as for TCP, with 2^32 as the limit and a broken pipe as the error |
| Transport.Connection.SendFrame | DollDbg.Rpc/Rpc.cpp:216-247 | over either transport, header and payload in two sends append exactly the encoded frame; if the system never fails, exactly for payloads below the limit |
| Transport.Connection.RecvFrame | DollDbg.Rpc/Rpc.cpp:172-174 | one turn takes exactly the first frame off the stream, or there is none that passes |
| Transport.Connection.ReceiveAll | DollDbg.Rpc/Rpc.cpp:164-185 | the loop ends and hands over exactly the frames that the incoming bytes hold; a failing transport only cuts the list short |
| Transport.Deliver | DollDbg.Rpc/Rpc.cpp:164-247 | what one node sends frame by frame is what the other's receive loop hands over, for every list of frames below the limits, every schedule of partial transfers on both ends and any mix of transports |
| RpcDispatcher.Rpc.constructor | DollDbg.Rpc/Rpc.cpp:11-16 | the initial node, with an empty mailbox and no id given out |
| RpcDispatcher.Rpc.Call | DollDbg.Rpc/Rpc.cpp:265-289 | the three immediate errors in their order, which change nothing; otherwise the call is put into the mailbox |
| RpcDispatcher.Rpc.Receive | DollDbg.Rpc/Rpc.cpp:176-183 | the frame is put into the mailbox |
| RpcDispatcher.Rpc.Lose | DollDbg.Rpc/Rpc.cpp:186-196 | the loss of the connection is put into the mailbox and later calls fail |
| RpcDispatcher.Rpc.Respond | DollDbg.Rpc/Rpc.cpp:203-212 | the id of a finished task is put into the mailbox |
| RpcDispatcher.Rpc.Turn | DollDbg.Rpc/Rpc.cpp:52-158 | the new state and the frames sent are those of the specification that the run theorems are about; the event handled is the oldest one deposited, and the slot is free again |
| RpcDispatcher.Rpc.TakeRequest | DollDbg.Rpc/Rpc.cpp:57-63 | the id is the last one plus 1 modulo 65536; the promise is accepted and enters the table at it, or breaks if the id is taken; one frame with the call's channel, that id and the payload is sent |
| RpcDispatcher.Rpc.TakeReply | DollDbg.Rpc/Rpc.cpp:66-75 | the promise at the reply's id leaves the table and is settled by the value or the error of the frame; a missing id kills the dispatcher |
| RpcDispatcher.Rpc.TakeIncoming | DollDbg.Rpc/Rpc.cpp:76-106 | an unknown channel is answered with its error under the same id; otherwise a worker with the frame's channel and payload starts under it |
| RpcDispatcher.Rpc.TakeResponse | DollDbg.Rpc/Rpc.cpp:108-129 | the worker leaves the table and one response frame with its id is sent: the value, the handler's RPC error, a system error with its code, or the application error NOPE |
| RpcDispatcher.Rpc.SweepPromises | DollDbg.Rpc/Rpc.cpp:135-137 | the loop settles the promises of the whole table, in its order, and empties it |
| RpcDispatcher.Rpc.SweepTasks | DollDbg.Rpc/Rpc.cpp:139-150 | the loop sends the connection-closed error for every task and empties the table |
| RpcDispatcher.Rpc.TakeException | DollDbg.Rpc/Rpc.cpp:130-154 | every outstanding promise is settled as closed, every worker's caller is sent the connection-closed error, both tables are empty and the dispatcher ends |
| RpcRuns.SweepSettlesAll | DollDbg.Rpc/Rpc.cpp:135-137 | the sweep settles exactly the outstanding promises, each once |
| RpcRuns.ActKeepsAccounts | DollDbg.Rpc/Rpc.cpp:57-154 | every step of a node keeps the accounts: an accepted promise is either settled or in the table, never both, and neither twice |
| RpcRuns.RunKeepsAccounts | DollDbg.Rpc/Rpc.cpp:47-158 | the same over any run, along which settlements are only ever added |
| RpcRuns.PromisesSettled | DollDbg.Rpc/Rpc.cpp:57-137 | over any run with any peer no promise is settled twice, only accepted ones are settled, and after the sweep every accepted one is |
| RpcRuns.LossEnds | DollDbg.Rpc/Rpc.cpp:130-153 | any run that handles the loss of the connection, from whatever state, ends with the dispatcher gone and both tables empty |
| RpcRuns.LossClosesAll | DollDbg.Rpc/Rpc.cpp:130-153 | handling the loss settles every outstanding promise as closed, for good, and nothing else is settled from then on; the peer is sent exactly one connection-closed error for each worker's id and no other frame |
| RpcRuns.LossSettlesAll | DollDbg.Rpc/Rpc.cpp:57-137 | so in any run with a loss no accepted promise is left unsettled |
| RpcRuns.MailboxIsQueue | DollDbg.Rpc/Rpc.cpp:54-157 | over any run of any number of producers, the one-slot mailbox is a queue: each event is handled once, unchanged and in order |
| RpcIds.SameNextId | DollDbg.Client/DollDbg/_Rpc/Rpc.py:116-117 | the Python mask and the C++ 16-bit increment give the same next id |
| RpcIds.AndDigits | DollDbg.Client/DollDbg/_Rpc/Rpc.py:116 | the mask works digit by digit |
| RpcIds.IdWraps | DollDbg.Rpc/Rpc.cpp:260-263 | the id of a call is its number modulo 65536 |
| RpcIds.IdsCollide | DollDbg.Rpc/Rpc.cpp:260-263 | two calls share an id exactly if a multiple of 65536 calls lies between them |
| RpcIds.YoungIsFresh | DollDbg.Rpc/Rpc.cpp:59-60 | if fewer than 65536 calls were made after each outstanding one, the next id is not in the table |
| RpcIds.StaleExactly | DollDbg.Rpc/Rpc.cpp:59-60 | the next id is taken exactly if some outstanding call is a multiple of 65536 calls old |
| RpcIds.DispatchKeepsNumbers | DollDbg.Rpc/Rpc.cpp:57-154 | every turn of the dispatcher keeps each table entry at the id of the call that made it |
| RpcPair.RequestKeeps | DollDbg.Rpc/Rpc.cpp:57-63 | a request under a fresh id keeps table and places in step |
| RpcPair.ReplyKeeps | DollDbg.Rpc/Rpc.cpp:66-75 | the id of a reply at the head of the inbox is in the table, and taking it out of both keeps them in step |
| RpcPair.StartKeeps | DollDbg.Rpc/Rpc.cpp:96-102 | the id of an incoming request has no task yet, and starting one keeps table and places in step |
| RpcPair.FinishKeeps | DollDbg.Rpc/Rpc.cpp:199-214 | a finished task still holds the one place of its call, now with the answer to that call's own arguments |
| RpcPair.RefuseKeeps | DollDbg.Rpc/Rpc.cpp:80-83 | so does the error reply to a request on an unknown channel |
| RpcPair.SendKeeps | DollDbg.Rpc/Rpc.cpp:108-129 | so does the reply of a finished task |
| RpcPair.StepKeeps | DollDbg.Rpc/Rpc.cpp:47-158 | every step of either node keeps the two-node invariant in both directions, if a call that is dispatched gets a fresh id |
| RpcPair.CallsGetTheirOwnReply | DollDbg.Rpc/Rpc.cpp:57-129 | in every reachable state, every completed call of either node was answered from its own channel and payload, and the caller got the bytes that the handler returned, the RPC error that it threw, its system error code as a system error, the application error NOPE for anything else, or the unknown-channel error of a refusal |
| RpcPair.HandlerAnswers | DollDbg.Rpc/Rpc.cpp:199-214 | what a handler makes of a call is the answer to that call: the one whose channel and payload its worker was started with |
| RpcPair.EachCallInOnePlace | DollDbg.Rpc/Rpc.cpp:57-129 | in every reachable state each outstanding id of either node is in exactly one place (request on its way, worker, reply on its way), no other id is anywhere, and no table lookup has failed |
| RpcPair.AnswersStay | DollDbg.Rpc/Rpc.cpp:199-214 | an answer that is computed in a reachable state is the call's answer in every later state, in both directions |
| RpcPair.StaleBreaks | DollDbg.Rpc/Rpc.cpp:59-61 | a request under an id that is still outstanding always breaks the correspondence |
| RpcPair.ConservedExactlyIfFresh | DollDbg.Rpc/Rpc.cpp:57-63 | dispatching a call keeps the two-node invariant exactly if its id is not in the table |
| RpcWrap.BoundIsTight | DollDbg.Rpc/Rpc.cpp:260-263 | some run that keeps the bound for 65536 calls reaches a call whose id is taken, and dispatching it breaks its promise and the invariant |
| HookTable.Table.Hook | DollDbg.Victim/hookhl.cpp:97-137 | succeeds exactly if the address is not hooked and nothing fails; success adds one entry to each of table, descriptors, stubs and detours, which refer to each other, and failure at any point leaves all four as they were |
| HookTable.Table.Unhook | DollDbg.Victim/hookhl.cpp:139-152 | fails exactly if the address is not hooked or the detour transaction is aborted, changing nothing; otherwise takes away the hook, its detour, its stub and its descriptor, and nothing else |
| HookTable.Table.UnhookAll | DollDbg.Victim/initfini.cpp:109-115 | empties hooks, detours, stubs and descriptors exactly if no transaction is aborted, and leaves them one to one otherwise |
| HookTable.Extend | DollDbg.Victim/hookhl.cpp:105-136 | a new hook with its descriptor, stub and detour keeps the correspondence one to one |
| Singleton.NextKeeps | DollDbg.Common/dolldbg/util/singleton.h:28-46 | every interlocked step of any thread keeps the invariant about owner, live object and deletions |
| Singleton.SingletonSafe | DollDbg.Common/dolldbg/util/singleton.h:28-54 | over any interleaving the sentinel has exactly one owner as long as no constructor throws and never more, at most one object is alive, none is deleted twice, and `get` gives an object exactly if one is alive and no `init` or `fini` is under way |
| Singleton.LifeCycle | DollDbg.Common/dolldbg/util/singleton.h:28-54 | left alone, `init` makes the object that `get` gives and a second `init` changes nothing, and `fini` deletes it and makes room for the next |
| Singleton.OrphanExactlyIfThrown | DollDbg.Common/dolldbg/util/singleton.h:30-35 | the sentinel is without owner exactly in the runs in which a constructor has thrown |
| Singleton.ThrowingInitOrphans | DollDbg.Common/dolldbg/util/singleton.h:30-35 | such a run from the start: the first `init` throws, and no step of any thread changes anything afterwards |
| Singleton.OrphanStays | DollDbg.Common/dolldbg/util/singleton.h:30-45 | a sentinel without owner is final: no step of any thread changes anything |

## Left out

- Transparency.RunTransparently: assumes that callees keep the Microsoft x64 calling convention, that calls nest properly (no longjmp, no unwinding) and that code is deterministic; the unhooked run must finish and must not read or overwrite a return address in progress.
- Transparency.EnterHooked: no hook is removed while one of its hits or returns is pending, so hooks stay for the whole run, also during a rundown; where a thread that the reference calls lost ends up is said by `Returns` and `HookedThread.Thread.DivertedReturn` and not by this method.
- Rundown.EnterLimited: after a call that a stopping victim declines, the run is not compared with the one that had been served.
- Alignment.PlanFaults: stack cells do not overlap in the model, also where a skip of a number of bytes that is not a multiple of 8 has put RSP between two of them.
- HookedThread.Thread.EventWait: the spin on an event that is not yet triggered is a step of the rendezvous and the slimevent models, not of this method.
- HookedThread.Thread.Monitor: DbgEng failures, and the unhooking of the entry-point hook that attaching puts in place.
- Machine words are unbounded integers, so RSP does not wrap and the stack does not run out; the stack consists of 8-byte cells.
- The stubs' own use of volatile registers between save and restore (arguments in RCX, RDX and R8) appears as parameters; the mxcsr field has a whole cell.
- Upper YMM halves, x87 state, instruction encodings, Detours trampolines and unwind data.
- The x86 stubs: their restore loads XMM5 three times (`DollDbg.Victim/hookll.x86.asm:98-100`) and their return routine overwrites EBX (`DollDbg.Victim/hookll.x86.asm:210`).
- Returns.ComesBackExactlyIf: that a hit comes back is a possibility of some run; fairness of the scheduler is not modelled.
- Returns.LateNeverBack: where the exception of a stub goes, and the unloading of the library.
- Guard.Thread.RunAll: that hooks on the flag's system calls recurse is a separate theorem; each routine's own calls inside the guard are the same for every routine on behalf of one hooked call.
- RpcPair.CallsGetTheirOwnReply: two-node runs keep the connection, in them sends succeed, payloads fit the length field, and a dispatched call has no outstanding predecessor that is 65536 or more calls older.
- RpcRuns.PromisesSettled: the workers that are alive when the connection is lost are dropped at once; the program waits for them with the mutex held (`DollDbg.Rpc/Rpc.cpp:139-150`).
- RpcDispatcher.Rpc.Call: the wait for an empty mailbox is a precondition of every producer, and a call that races with the end of the dispatcher is not followed further.
- RpcDispatcher.Rpc.TakeRequest: a promise whose `emplace` finds the id taken is recorded as broken at once; the program may keep it until the next call.
- Transport.TcpTransport.Send: the system is taken to refuse negative sizes, and a transfer of a positive size moves at least one byte.
- Failures of a send in the RPC layer, whose handlers lock a mutex that the dispatcher holds (`DollDbg.Rpc/Rpc.cpp:225-234`).
- The Python node beyond its header format and its ids.
- HookTable.Table.Hook: memory for the descriptor and the table entry is there, and committing succeeds; the trampoline is not modelled.
- HookTable.Table.Unhook: the results of detach and commit, which the program ignores, are not modelled.
- The client interface, the user interface, serialization, Detours and DbgEng themselves, sockets, pipes, processes and build files.
