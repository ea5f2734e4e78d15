/**
 * The Singleton variants: get-or-create caches over a class-level slot or a
 * class-to-instance table. A slot that is empty takes the object the call
 * allocates; once filled it never changes. Python's `__new__`, `__init__`
 * and metaclass dispatch are written as explicit methods, and each Python
 * class object (with its class attributes) as an instance of a Dafny class.
 */
module Singleton {
  import opened Wrappers
  import opened PyObjects

  // ---------------------------------------------------------------------
  // Specification: successive get-or-create calls, as functions on values.
  // In a sequence of calls, `candidates[i]` is the object call i would
  // allocate if it found the slot empty.
  // ---------------------------------------------------------------------

  /** One check-then-create step on a slot: an empty slot takes `candidate`. */
  function Fill<T>(slot: Option<T>, candidate: T): Option<T>
  {
    if slot.None? then Some(candidate) else slot
  }

  /** The slot after a sequence of get-or-create calls: whatever it held, else the first candidate. */
  function SlotAfter<T>(slot: Option<T>, candidates: seq<T>): (r: Option<T>)
    ensures slot.Some? ==> r == slot
    ensures slot.None? && |candidates| > 0 ==> r == Some(candidates[0])
    ensures slot.None? && |candidates| == 0 ==> r == None
    decreases |candidates|
  {
    if candidates == [] then slot
    else SlotAfter(Fill(slot, candidates[0]), candidates[1..])
  }

  /** What each call of such a sequence returns: the slot's value once the call has filled it. */
  function SlotResults<T>(slot: Option<T>, candidates: seq<T>): (rs: seq<T>)
    ensures |rs| == |candidates|
    ensures forall i :: 0 <= i < |rs| ==> Some(rs[i]) == SlotAfter(slot, candidates)
    decreases |candidates|
  {
    if candidates == [] then []
    else
      var filled := Fill(slot, candidates[0]);
      [filled.value] + SlotResults(filled, candidates[1..])
  }

  /** How many calls of such a sequence allocate: those that find the slot empty. */
  function Allocations<T>(slot: Option<T>, candidates: seq<T>): (n: nat)
    ensures n <= 1
    ensures n == 1 <==> slot.None? && |candidates| > 0
    decreases |candidates|
  {
    if candidates == [] then 0
    else (if slot.None? then 1 else 0) + Allocations(Fill(slot, candidates[0]), candidates[1..])
  }

  /** Any two calls of such a sequence return the identical object (a corollary of the two functions above). */
  lemma SlotCallsAgree<T>(slot: Option<T>, candidates: seq<T>, i: nat, j: nat)
    requires i < |candidates| && j < |candidates|
    ensures SlotResults(slot, candidates)[i] == SlotResults(slot, candidates)[j]
    ensures SlotResults(slot, candidates)[i] == if slot.Some? then slot.value else candidates[0]
  {
  }

  /** One check-then-create step on a table: a class not yet in it gets `candidate`. */
  function Cached<T>(table: map<ClassName, T>, cls: ClassName, candidate: T): map<ClassName, T>
  {
    if cls in table then table else table[cls := candidate]
  }

  /** The candidate of the first call for `cls` in `calls`, if there is one. */
  function FirstFor<T>(calls: seq<(ClassName, T)>, cls: ClassName): Option<T>
    decreases |calls|
  {
    if calls == [] then None
    else if calls[0].0 == cls then Some(calls[0].1)
    else FirstFor(calls[1..], cls)
  }

  /**
   * The table after a sequence of calls, each naming a class and the object it
   * would construct: entries already there are kept, and a class first seen in
   * the sequence is bound to the object of its first call.
   */
  function TableAfter<T>(table: map<ClassName, T>, calls: seq<(ClassName, T)>): (r: map<ClassName, T>)
    ensures forall c :: c in r <==> c in table || FirstFor(calls, c).Some?
    ensures forall c :: c in table ==> r[c] == table[c]
    ensures forall c :: c in r && c !in table ==> r[c] == FirstFor(calls, c).value
    decreases |calls|
  {
    if calls == [] then table
    else TableAfter(Cached(table, calls[0].0, calls[0].1), calls[1..])
  }

  /** What each call of such a sequence returns: the final entry for its class. */
  function TableResults<T>(table: map<ClassName, T>, calls: seq<(ClassName, T)>): (rs: seq<T>)
    ensures |rs| == |calls|
    ensures forall i :: 0 <= i < |rs| ==>
      calls[i].0 in TableAfter(table, calls) && rs[i] == TableAfter(table, calls)[calls[i].0]
    decreases |calls|
  {
    if calls == [] then []
    else
      var next := Cached(table, calls[0].0, calls[0].1);
      [next[calls[0].0]] + TableResults(next, calls[1..])
  }

  /**
   * A call for one class adds at most that class: a class absent from the
   * table that no call names is absent afterwards too.
   */
  lemma {:induction false} TableOnlyGrows<T>(table: map<ClassName, T>, calls: seq<(ClassName, T)>)
    ensures forall c :: c !in table && (forall i :: 0 <= i < |calls| ==> calls[i].0 != c) ==>
      c !in TableAfter(table, calls)
    decreases |calls|
  {
    if calls != [] {
      TableOnlyGrows(Cached(table, calls[0].0, calls[0].1), calls[1..]);
    }
  }

  // ---------------------------------------------------------------------
  // Example 1: `Singleton`. Every construction is a new object; the class
  // attribute `_instance` keeps only the first one.
  // ---------------------------------------------------------------------

  class SimpleSingleton {
    /** The class attribute `_instance`. */
    var instance: Option<Obj>

    constructor ()
      ensures instance == None
    {
      instance := None;
    }

    /** `get_instance`: the stored instance, None before any construction. */
    method GetInstance() returns (r: Option<Obj>)
      ensures r == instance
    {
      r := instance;
    }

    /** `Singleton()`: a new object, stored only when the slot is empty. */
    method Construct() returns (o: Obj)
      modifies this
      ensures fresh(o) && o.cls == "Singleton"
      ensures instance == Fill(old(instance), o)
    {
      o := new Obj("Singleton", [], map[]);
      if instance == None {
        instance := Some(o);
      }
    }
  }

  // ---------------------------------------------------------------------
  // Example 2: `SingletonMeta`. One table, shared by every class whose
  // metaclass it is, from class to its instance.
  // ---------------------------------------------------------------------

  class SingletonMeta {
    /** The metaclass attribute `instances`. */
    var instances: map<ClassName, Obj>

    constructor ()
      ensures instances == map[]
    {
      instances := map[];
    }

    /** `cls(*args)`: the cached instance of `cls`, constructed from `args` on the first call only. */
    method Call(cls: ClassName, args: seq<Value>) returns (o: Obj)
      modifies this
      ensures cls in old(instances) ==> o == old(instances)[cls]
      ensures cls !in old(instances) ==> fresh(o) && o.cls == cls && o.args == args
      ensures instances == Cached(old(instances), cls, o)
    {
      if cls !in instances {
        var created := new Obj(cls, args, map[]);
        instances := instances[cls := created];
      }
      o := instances[cls];
    }
  }

  // ---------------------------------------------------------------------
  // Example 3: `SingletonNew`. `__new__` fills the class attribute once.
  // ---------------------------------------------------------------------

  class SingletonNew {
    /** The class attribute `_instance`. */
    var instance: Option<Obj>

    constructor ()
      ensures instance == None
    {
      instance := None;
    }

    /** `SingletonNew()`: the stored instance, allocated by the first call only. */
    method New() returns (o: Obj)
      modifies this
      ensures old(instance).Some? ==> o == old(instance).value
      ensures old(instance).None? ==> fresh(o) && o.cls == "SingletonNew"
      ensures instance == Fill(old(instance), o) == Some(o)
    {
      if instance.None? {
        var created := new Obj("SingletonNew", [], map[]);
        instance := Some(created);
      }
      o := instance.value;
    }
  }

  // ---------------------------------------------------------------------
  // Example 4: `singleton_decorator`. The closure `get_instance` replaces
  // the decorated class and caches its instance in its own `_instances`.
  // ---------------------------------------------------------------------

  class DecoratedClass {
    /** The decorated class, captured by the closure. */
    const cls: ClassName
    /** The closure's `_instances`. */
    var instances: map<ClassName, Obj>

    /** The closure only ever stores an instance of its own class. */
    predicate Valid()
      reads this
    {
      instances.Keys <= {cls}
    }

    /** `singleton_decorator(cls)`: a fresh closure with an empty cache. */
    constructor (cls: ClassName)
      ensures this.cls == cls && instances == map[] && Valid()
    {
      this.cls := cls;
      instances := map[];
    }

    /** `get_instance(*args)`: the cached instance, constructed from `args` on the first call only. */
    method GetInstance(args: seq<Value>) returns (o: Obj)
      requires Valid()
      modifies this
      ensures Valid()
      ensures cls in old(instances) ==> o == old(instances)[cls]
      ensures cls !in old(instances) ==> fresh(o) && o.cls == cls && o.args == args
      ensures instances == Cached(old(instances), cls, o)
    {
      if cls !in instances {
        var created := new Obj(cls, args, map[]);
        instances := instances[cls := created];
      }
      o := instances[cls];
    }
  }

  // ---------------------------------------------------------------------
  // Example 5: `SingletonDispatcher`. The same `__new__` as Example 3.
  // ---------------------------------------------------------------------

  class SingletonDispatcher {
    /** The class attribute `_instance`. */
    var instance: Option<Obj>

    constructor ()
      ensures instance == None
    {
      instance := None;
    }

    /** `SingletonDispatcher()`: the stored instance, allocated by the first call only. */
    method New() returns (o: Obj)
      modifies this
      ensures old(instance).Some? ==> o == old(instance).value
      ensures old(instance).None? ==> fresh(o) && o.cls == "SingletonDispatcher"
      ensures instance == Fill(old(instance), o) == Some(o)
    {
      if instance.None? {
        var created := new Obj("SingletonDispatcher", [], map[]);
        instance := Some(created);
      }
      o := instance.value;
    }
  }

  // ---------------------------------------------------------------------
  // Example 6: `SingletonThreadSafe`. Double-checked creation; the lock is
  // not modelled, so the check is run as one sequential call.
  // ---------------------------------------------------------------------

  class SingletonThreadSafe {
    /** The class attribute `_instance`. */
    var instance: Option<Obj>

    constructor ()
      ensures instance == None
    {
      instance := None;
    }

    /** `SingletonThreadSafe()`: the same result as `SingletonNew()`; allocation only if still empty on the re-check. */
    method New() returns (o: Obj)
      modifies this
      ensures old(instance).Some? ==> o == old(instance).value
      ensures old(instance).None? ==> fresh(o) && o.cls == "SingletonThreadSafe"
      ensures instance == Fill(old(instance), o) == Some(o)
    {
      if instance.None? {
        // `with cls._lock:` would be taken here
        if instance.None? {
          var created := new Obj("SingletonThreadSafe", [], map[]);
          instance := Some(created);
        }
      }
      o := instance.value;
    }
  }

  // ---------------------------------------------------------------------
  // Scenarios: what callers can conclude from the contracts above.
  // ---------------------------------------------------------------------

  /** `get_instance()` is None before any construction, then the first object constructed, for good. */
  method SimpleSingletonScenario() returns (before: Option<Obj>, s1: Obj, s2: Obj, after: Option<Obj>)
    ensures before == None
    ensures s1 != s2
    ensures after == Some(s1)
  {
    var holder := new SimpleSingleton();
    before := holder.GetInstance();
    s1 := holder.Construct();
    s2 := holder.Construct();
    after := holder.GetInstance();
  }

  /**
   * Two calls of `MySingletonMeta` give one object; the first call takes no
   * arguments, as the class requires, and a later call's arguments are ignored.
   * A second class under the same metaclass gets its own object.
   */
  method MetaScenario(args2: seq<Value>) returns (s1: Obj, s2: Obj, other: Obj)
    ensures s1 == s2 && s1.args == [] && s1.cls == "MySingletonMeta"
    ensures other != s1 && other.cls == "Other"
  {
    var meta := new SingletonMeta();
    s1 := meta.Call("MySingletonMeta", []);
    other := meta.Call("Other", []);
    s2 := meta.Call("MySingletonMeta", args2);
  }

  /** Two calls of `SingletonNew`, `SingletonDispatcher` or `SingletonThreadSafe` give one object each. */
  method SlotScenario() returns (n1: Obj, n2: Obj, d1: Obj, d2: Obj, t1: Obj, t2: Obj)
    ensures n1 == n2 && d1 == d2 && t1 == t2
    ensures n1 != d1 && d1 != t1 && n1 != t1
  {
    var sn := new SingletonNew();
    var sd := new SingletonDispatcher();
    var st := new SingletonThreadSafe();
    n1 := sn.New();
    n2 := sn.New();
    d1 := sd.New();
    d2 := sd.New();
    t1 := st.New();
    t2 := st.New();
  }

  /** Two calls of `SingletonDecorated` give one object; a later call's arguments are ignored. */
  method DecoratedScenario(args2: seq<Value>) returns (s1: Obj, s2: Obj)
    ensures s1 == s2 && s1.args == [] && s1.cls == "SingletonDecorated"
  {
    var decorated := new DecoratedClass("SingletonDecorated");
    s1 := decorated.GetInstance([]);
    s2 := decorated.GetInstance(args2);
  }

  // ---------------------------------------------------------------------
  // Sequences of calls on the classes, tied to the specification functions.
  // ---------------------------------------------------------------------

  /** Appending one call to a sequence is one more step on the table it leaves. */
  lemma {:induction false} TableAfterSnoc<T>(table: map<ClassName, T>, calls: seq<(ClassName, T)>, call: (ClassName, T))
    ensures TableAfter(table, calls + [call]) == Cached(TableAfter(table, calls), call.0, call.1)
    decreases |calls|
  {
    if calls != [] {
      assert (calls + [call])[1..] == calls[1..] + [call];
      TableAfterSnoc(Cached(table, calls[0].0, calls[0].1), calls[1..], call);
    }
  }

  /**
   * `n` successive `SingletonNew()` calls: the slot ends as `SlotAfter` of the
   * returned objects, and every call returned the object the slot holds.
   */
  method NewRepeatedly(s: SingletonNew, n: nat) returns (os: seq<Obj>)
    modifies s
    ensures |os| == n
    ensures s.instance == SlotAfter(old(s.instance), os)
    ensures forall i :: 0 <= i < n ==> s.instance == Some(os[i])
  {
    os := [];
    while |os| < n
      invariant |os| <= n
      invariant s.instance == SlotAfter(old(s.instance), os)
      invariant os != [] ==> s.instance.Some?
      invariant forall i :: 0 <= i < |os| ==> s.instance == Some(os[i])
    {
      var o := s.New();
      os := os + [o];
    }
  }

  /**
   * Successive metaclass calls, one per entry of `classes`: the table ends as
   * `TableAfter` of the calls, each paired with the object it returned, and
   * each call returned the final entry for its class.
   */
  method CallEach(meta: SingletonMeta, classes: seq<ClassName>) returns (os: seq<Obj>)
    modifies meta
    ensures |os| == |classes|
    ensures meta.instances == TableAfter(old(meta.instances), Zip(classes, os))
    ensures forall i :: 0 <= i < |os| ==> classes[i] in meta.instances && os[i] == meta.instances[classes[i]]
  {
    os := [];
    while |os| < |classes|
      invariant |os| <= |classes|
      invariant meta.instances == TableAfter(old(meta.instances), Zip(classes[..|os|], os))
      invariant forall i :: 0 <= i < |os| ==> classes[i] in meta.instances && os[i] == meta.instances[classes[i]]
    {
      var o := meta.Call(classes[|os|], []);
      TableAfterSnoc(old(meta.instances), Zip(classes[..|os|], os), (classes[|os|], o));
      assert classes[..|os| + 1] == classes[..|os|] + [classes[|os|]];
      ZipSnoc(classes[..|os|], os, classes[|os|], o);
      os := os + [o];
    }
    assert classes[..|os|] == classes;
  }

  /** Pairs each class with the object of the same position. */
  function Zip<T>(classes: seq<ClassName>, os: seq<T>): (calls: seq<(ClassName, T)>)
    requires |classes| == |os|
    ensures |calls| == |os|
    ensures forall i :: 0 <= i < |os| ==> calls[i] == (classes[i], os[i])
  {
    seq(|os|, i requires 0 <= i < |os| => (classes[i], os[i]))
  }

  /** Appending a pair to both sequences appends it to their pairing. */
  lemma ZipSnoc<T>(classes: seq<ClassName>, os: seq<T>, c: ClassName, o: T)
    requires |classes| == |os|
    ensures Zip(classes + [c], os + [o]) == Zip(classes, os) + [(c, o)]
  {
  }
}
