/** Singleton: one static pointer, changed by interlocked exchanges of any number of threads. */
module Singleton {

  type Tid = nat
  type Object = nat

  datatype Pointer = Null | Running | To(id: Object)

  /** Where a thread is inside `init` or `fini`. */
  datatype Place =
    | Outside
    | Constructing
    | Publishing(id: Object)
    | Deleting(found: Pointer)
    | Clearing

  datatype State = State(
    instance: Pointer,
    threads: map<Tid, Place>,
    live: set<Object>,          // constructed and not deleted
    deleted: seq<Object>,       // in order
    next: Object)

  function Init(tids: set<Tid>): State {
    State(Null, map t | t in tids :: Outside, {}, [], 0)
  }

  datatype Step =
    | InitSwap(tid: Tid)          // compare-exchange of null with the sentinel, or throw
    | Construct(tid: Tid)
    | ConstructThrows(tid: Tid)   // the sentinel stays
    | Publish(tid: Tid)
    | FiniSwap(tid: Tid)          // exchange with the sentinel
    | Delete(tid: Tid)
    | Clear(tid: Tid)

  predicate Enabled(s: State, step: Step) {
    step.tid in s.threads &&
    match step
    case InitSwap(t) => s.threads[t].Outside?
    case Construct(t) => s.threads[t].Constructing?
    case ConstructThrows(t) => s.threads[t].Constructing?
    case Publish(t) => s.threads[t].Publishing?
    case FiniSwap(t) => s.threads[t].Outside?
    case Delete(t) => s.threads[t].Deleting?
    case Clear(t) => s.threads[t].Clearing?
  }

  function At(s: State, t: Tid, p: Place): State {
    s.(threads := s.threads[t := p])
  }

  function Next(s: State, step: Step): State
    requires Enabled(s, step)
  {
    match step
    case InitSwap(t) => if s.instance.Null? then At(s.(instance := Running), t, Constructing) else s
    case Construct(t) => At(s.(live := s.live + {s.next}, next := s.next + 1), t, Publishing(s.next))
    case ConstructThrows(t) => At(s, t, Outside)
    case Publish(t) => At(s.(instance := To(s.threads[t].id)), t, Outside)
    case FiniSwap(t) =>
      if s.instance.Running? then s else At(s.(instance := Running), t, Deleting(s.instance))
    case Delete(t) =>
      var found := s.threads[t].found;
      At(if found.To? then s.(live := s.live - {found.id}, deleted := s.deleted + [found.id]) else s, t, Clearing)
    case Clear(t) => At(s.(instance := Null), t, Outside)
  }

  /** `get`: null and the sentinel throw. */
  function Get(s: State): Pointer {
    if s.instance.To? then s.instance else Null
  }

  ghost predicate Run(s: State, steps: seq<Step>, end: State)
    decreases |steps|
  {
    if steps == [] then s == end else Enabled(s, steps[0]) && Run(Next(s, steps[0]), steps[1..], end)
  }

  predicate Owns(s: State, t: Tid) {
    t in s.threads && !s.threads[t].Outside?
  }

  /** The object that is alive, by where the pointer or the owner of the sentinel keeps it. */
  predicate Holds(s: State, t: Tid)
    requires Owns(s, t)
  {
    match s.threads[t]
    case Publishing(o) => s.live == {o}
    case Deleting(To(o)) => s.live == {o}
    case Deleting(Running) => false
    case _ => s.live == {}
  }

  ghost predicate Inv(s: State) {
    && (forall t :: Owns(s, t) ==> s.instance.Running? && Holds(s, t))
    && (forall t, u :: Owns(s, t) && Owns(s, u) ==> t == u)
    && (s.instance.To? ==> s.live == {s.instance.id})
    && (s.instance.Null? ==> s.live == {})
    && (s.instance.Running? && (forall t :: !Owns(s, t)) ==> s.live == {})
    && (forall o :: o in s.live || o in s.deleted ==> o < s.next)
    && (forall o :: o in s.live ==> o !in s.deleted)
    && (forall i, j :: 0 <= i < j < |s.deleted| ==> s.deleted[i] != s.deleted[j])
  }

  lemma NextKeeps(s: State, step: Step)
    requires Inv(s) && Enabled(s, step)
    ensures Inv(Next(s, step))
  {
    var n, t := Next(s, step), step.tid;
    assert Owns(s, t) <==> !s.threads[t].Outside?;
    assert Owns(n, t) <==> !n.threads[t].Outside?;
    assert forall u :: u != t ==> (Owns(n, u) <==> Owns(s, u));
  }

  lemma {:induction false} RunKeeps(s: State, steps: seq<Step>, end: State)
    requires Inv(s) && Run(s, steps, end)
    ensures Inv(end)
    decreases |steps|
  {
    if steps != [] {
      NextKeeps(s, steps[0]);
      RunKeeps(Next(s, steps[0]), steps[1..], end);
    }
  }

  /** The sentinel is there and no thread will take it away. */
  ghost predicate Orphan(s: State) {
    s.instance.Running? && forall t :: !Owns(s, t)
  }

  ghost predicate Throws(steps: seq<Step>) {
    exists i :: 0 <= i < |steps| && steps[i].ConstructThrows?
  }

  lemma StepOrphans(s: State, step: Step)
    requires Inv(s) && Enabled(s, step)
    ensures Orphan(Next(s, step)) <==> Orphan(s) || step.ConstructThrows?
  {
    var n, t := Next(s, step), step.tid;
    assert Owns(s, t) <==> !s.threads[t].Outside?;
    assert Owns(n, t) <==> !n.threads[t].Outside?;
    assert forall u :: u != t ==> (Owns(n, u) <==> Owns(s, u));
  }

  lemma {:induction false} RunOrphans(s: State, steps: seq<Step>, end: State)
    requires Inv(s) && Run(s, steps, end)
    ensures Orphan(end) <==> Orphan(s) || Throws(steps)
    decreases |steps|
  {
    if steps != [] {
      NextKeeps(s, steps[0]);
      StepOrphans(s, steps[0]);
      hide Orphan, Inv;
      RunOrphans(Next(s, steps[0]), steps[1..], end);
      if steps[0].ConstructThrows? {
        assert Throws(steps);
      } else if Throws(steps) {
        var i :| 0 <= i < |steps| && steps[i].ConstructThrows?;
        assert steps[1..][i - 1].ConstructThrows?;
      } else {
        assert forall i :: 0 <= i < |steps| - 1 ==> steps[1..][i] == steps[i + 1];
      }
    }
  }

  /** The sentinel loses its owner exactly in the runs in which a constructor throws. */
  lemma OrphanExactlyIfThrown(tids: set<Tid>, steps: seq<Step>, s: State)
    requires Run(Init(tids), steps, s)
    ensures Orphan(s) <==> Throws(steps)
  {
    RunOrphans(Init(tids), steps, s);
  }

  /** Whatever the threads do: at most one object is alive, no object is deleted twice, and `get`
      gives only an object that is alive. The sentinel has at most one owner, and as long as no
      constructor throws it has exactly one. */
  lemma SingletonSafe(tids: set<Tid>, steps: seq<Step>, s: State)
    requires Run(Init(tids), steps, s)
    ensures forall t, u :: Owns(s, t) && Owns(s, u) ==> t == u && s.instance.Running?
    ensures s.instance.Running? && !Throws(steps) ==> exists t :: Owns(s, t)
    ensures |s.live| <= 1
    ensures forall i, j :: 0 <= i < j < |s.deleted| ==> s.deleted[i] != s.deleted[j]
    ensures Get(s).To? ==> Get(s).id in s.live && Get(s).id !in s.deleted
    ensures !Get(s).Running?
    ensures !Throws(steps) ==> (Get(s).To? <==> s.live != {} && forall t :: !Owns(s, t))
  {
    RunKeeps(Init(tids), steps, s);
    OrphanExactlyIfThrown(tids, steps, s);
    if exists t :: Owns(s, t) {
      var t :| Owns(s, t);
      assert Holds(s, t);
    }
  }

  /** Left alone, `init` makes the object that `get` then gives, and `fini` deletes it and makes room for
      the next; a second `init` and a `fini` with nothing there change nothing but that. */
  lemma LifeCycle(s: State, t: Tid)
    requires Inv(s) && s.instance.Null? && t in s.threads && s.threads[t].Outside?
    ensures exists m, u ::
              && Run(s, [InitSwap(t), Construct(t), Publish(t)], m) && Run(m, [FiniSwap(t), Delete(t), Clear(t)], u)
              && Get(m) == To(s.next) && m.live == {s.next} && Next(m, InitSwap(t)) == m
              && Get(u).Null? && u.instance.Null? && u.live == {} && u.deleted == s.deleted + [s.next]
  {
    var a := Next(s, InitSwap(t));
    var b := Next(a, Construct(t));
    var m := Next(b, Publish(t));
    var c := Next(m, FiniSwap(t));
    var d := Next(c, Delete(t));
    var u := Next(d, Clear(t));
    RunThree(s, InitSwap(t), Construct(t), Publish(t));
    RunThree(m, FiniSwap(t), Delete(t), Clear(t));
  }

  lemma RunThree(s: State, x: Step, y: Step, z: Step)
    requires Enabled(s, x) && Enabled(Next(s, x), y) && Enabled(Next(Next(s, x), y), z)
    ensures Run(s, [x, y, z], Next(Next(Next(s, x), y), z))
  {
    var n := Next(Next(Next(s, x), y), z);
    assert [x, y, z][1..] == [y, z] && [y, z][1..] == [z] && [z][1..] == [];
    assert Run(n, [], n);
    assert Run(Next(Next(s, x), y), [z], n);
    assert Run(Next(s, x), [y, z], n);
  }

  /** A run in which that happens: the first `init` throws. Nothing can change the singleton then. */
  lemma ThrowingInitOrphans(tids: set<Tid>, t: Tid) returns (steps: seq<Step>, s: State)
    requires t in tids
    ensures steps == [InitSwap(t), ConstructThrows(t)] && Run(Init(tids), steps, s)
    ensures Orphan(s) && Get(s).Null?
    ensures forall step :: Enabled(s, step) ==> Next(s, step) == s
  {
    steps := [InitSwap(t), ConstructThrows(t)];
    var m := Next(Init(tids), InitSwap(t));
    s := Next(m, ConstructThrows(t));
    assert steps[1..] == [ConstructThrows(t)] && [ConstructThrows(t)][1..] == [];
    assert Run(s, [], s);
    assert Run(m, [ConstructThrows(t)], s);
    RunKeeps(Init(tids), steps, s);
    OrphanExactlyIfThrown(tids, steps, s);
    assert steps[1].ConstructThrows?;
    forall step | Enabled(s, step) ensures Next(s, step) == s {
      OrphanStays(s, step);
    }
  }

  /** An orphaned sentinel is final: every `init` and `get` throws and `fini` does nothing. */
  lemma OrphanStays(s: State, step: Step)
    requires Orphan(s) && Enabled(s, step)
    ensures Next(s, step) == s
  {
    assert !Owns(s, step.tid);
  }
}
