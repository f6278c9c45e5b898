/** The hook table of the victim and the resources behind it: hook descriptors, stubs on the
    executable heap, and installed detours. */
module HookTable {

  type Va = int
  type Address = nat

  /** hook_t; the trampoline is not part of this model. */
  datatype Descriptor = Descriptor(va: Va, llstub: Address)

  /** Where `_hook` can throw. */
  datatype Fault = NoFault | BadCode | NoMemory | DetourFails

  datatype Result = Done | Throws

  lemma SomeIn(vas: set<Va>)
    requires vas != {}
    ensures exists va: Va :: va in vas
  {
    assert (forall va: Va :: va !in vas) ==> vas == {};
  }

  lemma AddedAndDropped<T>(m: map<Address, T>, k: Address, v: T)
    requires k !in m
    ensures m[k := v] - {k} == m
  {
  }

  /** Hooks, descriptors, stubs and detours correspond one to one: each hook owns one live
      descriptor and one live stub that points back to it, and nothing else is alive. */
  ghost predicate OneToOne(hooks: map<Va, Address>, descriptors: map<Address, Descriptor>,
                           stubs: map<Address, Address>, detours: map<Va, Address>, next: Address) {
    && detours.Keys == hooks.Keys
    && (forall va :: va in hooks ==>
          hooks[va] in descriptors && descriptors[hooks[va]].va == va
          && detours[va] == descriptors[hooks[va]].llstub)
    && (forall p :: p in descriptors ==>
          && p < next
          && descriptors[p].va in hooks && hooks[descriptors[p].va] == p
          && descriptors[p].llstub in stubs && stubs[descriptors[p].llstub] == p)
    && (forall s :: s in stubs ==>
          s < next && stubs[s] in descriptors && descriptors[stubs[s]].llstub == s)
  }

  lemma Extend(hooks: map<Va, Address>, descriptors: map<Address, Descriptor>,
               stubs: map<Address, Address>, detours: map<Va, Address>, next: Address, va: Va)
    requires OneToOne(hooks, descriptors, stubs, detours, next) && va !in hooks
    ensures next !in descriptors && next + 1 !in stubs
    ensures OneToOne(hooks, descriptors, stubs, detours, next + 1)
    ensures OneToOne(hooks, descriptors, stubs, detours, next + 2)
    ensures OneToOne(hooks[va := next], descriptors[next := Descriptor(va, next + 1)],
                     stubs[next + 1 := next], detours[va := next + 1], next + 2)
  {
  }

  class Table {
    var hooks: map<Va, Address>                // the descriptor of each hook
    var descriptors: map<Address, Descriptor>  // hook_t objects alive
    var stubs: map<Address, Address>           // stubs alive, with the hook pointer patched into each
    var detours: map<Va, Address>              // installed detours, with their target
    var next: Address                          // the allocators never hand out a live address

    constructor ()
      ensures Valid() && hooks == map[]
    {
      hooks, descriptors, stubs, detours, next := map[], map[], map[], map[], 0;
    }

    ghost predicate Valid()
      reads this
    {
      OneToOne(hooks, descriptors, stubs, detours, next)
    }

    /** _hook, with the fault it meets, if any. A failure leaves no trace. */
    method Hook(va: Va, fault: Fault) returns (r: Result)
      requires Valid()
      modifies this
      ensures Valid()
      ensures r.Done? <==> va !in old(hooks) && fault.NoFault?
      ensures r.Done? ==> va in hooks && va in detours
                          && hooks == old(hooks)[va := hooks[va]] && detours == old(detours)[va := detours[va]]
                          && descriptors == old(descriptors)[hooks[va] := Descriptor(va, detours[va])]
                          && stubs == old(stubs)[detours[va] := hooks[va]]
      ensures r.Throws? ==> hooks == old(hooks) && descriptors == old(descriptors)
                            && stubs == old(stubs) && detours == old(detours)
    {
      hide OneToOne;
      if va in hooks || fault.BadCode? {
        return Throws;
      }
      Extend(hooks, descriptors, stubs, detours, next, va);
      var hook := next;
      descriptors := descriptors[hook := Descriptor(va, 0)];
      next := next + 1;
      if fault.NoMemory? {
        AddedAndDropped(old(descriptors), hook, Descriptor(va, 0));
        descriptors := descriptors - {hook};
        return Throws;
      }
      var llstub := next;
      stubs := stubs[llstub := hook];
      descriptors := descriptors[hook := Descriptor(va, llstub)];
      assert descriptors == old(descriptors)[hook := Descriptor(va, llstub)];
      next := next + 1;
      if fault.DetourFails? {
        AddedAndDropped(old(stubs), llstub, hook);
        AddedAndDropped(old(descriptors), hook, Descriptor(va, llstub));
        stubs := stubs - {llstub};
        descriptors := descriptors - {hook};
        return Throws;
      }
      detours := detours[va := llstub];
      hooks := hooks[va := hook];
      return Done;
    }

    /** _unhook; `fails` is whether the detour transaction is aborted. A failure changes nothing. */
    method Unhook(va: Va, fails: bool) returns (r: Result)
      requires Valid()
      modifies this
      ensures Valid()
      ensures r.Done? <==> va in old(hooks) && !fails
      ensures r.Done? ==> hooks == old(hooks) - {va} && detours == old(detours) - {va}
                          && descriptors == old(descriptors) - {old(hooks[va])}
                          && stubs == old(stubs) - {old(detours[va])}
      ensures r.Throws? ==> hooks == old(hooks) && descriptors == old(descriptors)
                            && stubs == old(stubs) && detours == old(detours)
    {
      if va !in hooks || fails {
        return Throws;
      }
      var hook := hooks[va];
      detours := detours - {va};
      hooks := hooks - {va};
      stubs := stubs - {descriptors[hook].llstub};
      descriptors := descriptors - {hook};
      return Done;
    }

    /** The destructor's loop: it copies the addresses first, for the table shrinks under it, and
        ends early only if some transaction is aborted. */
    method UnhookAll(fails: Va -> bool) returns (r: Result)
      requires Valid()
      modifies this
      ensures Valid()
      ensures r.Done? <==> forall va :: va in old(hooks) ==> !fails(va)
      ensures r.Done? ==> hooks == map[] && detours == map[] && stubs == map[] && descriptors == map[]
    {
      var vas := hooks.Keys;
      while vas != {}
        invariant Valid() && hooks.Keys == vas <= old(hooks.Keys)
        invariant forall va :: va in old(hooks) && va !in vas ==> !fails(va)
        decreases vas
      {
        SomeIn(vas);
        var va: Va :| va in vas;
        r := Unhook(va, fails(va));
        if r.Throws? {
          return;
        }
        vas := vas - {va};
      }
      r := Done;
    }
  }
}
