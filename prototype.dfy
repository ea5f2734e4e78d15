/**
 * The Prototype registry: a table from names to exemplar objects, and
 * cloning by name. A clone is a new object of the exemplar's class, built by
 * the class's no-argument constructor, whose attribute dictionary is then
 * updated with the exemplar's (a shallow copy).
 */
module Prototype {
  import opened Wrappers
  import opened PyObjects

  /** The exceptions the registry lets escape. */
  datatype Error =
    | KeyError(key: string)   // `del` of a name that is not in the table
    | AttributeError          // clone of a name that is not in the table: `None` has no `__dict__`

  /**
   * Python's `d.update(e)` seen on values: every entry of `top`, and the
   * entries of `base` whose key `top` does not have.
   */
  function Update(base: Fields, top: Fields): (r: Fields)
    ensures r.Keys == base.Keys + top.Keys
    ensures forall k :: k in top ==> r[k] == top[k]
    ensures forall k :: k in base && k !in top ==> r[k] == base[k]
  {
    base + top
  }

  /**
   * What `speak()` returns on an instance of `cls`: only `Cat` and `Dog`
   * implement it (`Animal` declares it abstract); None for any other class.
   */
  function Speak(cls: ClassName): (s: Option<string>)
    ensures s.Some? <==> cls == "Cat" || cls == "Dog"
  {
    if cls == "Cat" then Some("meow meow..")
    else if cls == "Dog" then Some("hau hau..")
    else None
  }

  /** Registering a name that was absent and then unregistering it gives back the old table. */
  lemma UnregisterUndoesRegister(table: map<string, Obj>, name: string, obj: Obj)
    requires name !in table
    ensures table[name := obj] - {name} == table
  {
  }

  /** The last registration under a name wins. */
  lemma LastRegistrationWins(table: map<string, Obj>, name: string, first: Obj, second: Obj)
    ensures table[name := first][name := second] == table[name := second]
  {
  }

  class Registry {
    /** `_objects`: the exemplars by name. */
    var objects: map<string, Obj>

    constructor ()
      ensures objects == map[]
    {
      objects := map[];
    }

    /** Stores `obj` under `name`, replacing any earlier entry; other names keep theirs. */
    method Register(name: string, obj: Obj)
      modifies this
      ensures objects == old(objects)[name := obj]
    {
      objects := objects[name := obj];
    }

    /** Removes exactly `name`; raises KeyError, changing nothing, when it is absent. */
    method Unregister(name: string) returns (r: Outcome<Error>)
      modifies this
      ensures r == if name in old(objects) then Pass else Fail(KeyError(name))
      ensures objects == old(objects) - {name}
    {
      if name !in objects {
        return Fail(KeyError(name));
      }
      objects := objects - {name};
      r := Pass;
    }

    /**
     * Clones the exemplar registered under `name`. `init` gives the attributes
     * each class's no-argument constructor sets. The table and the exemplar
     * are left as they were (no `modifies`).
     */
    method Clone(name: string, init: ClassName -> Fields) returns (r: Result<Obj, Error>)
      ensures name !in objects ==> r == Failure(AttributeError)
      ensures name in objects ==>
        && r.Success?
        && fresh(r.value)
        && r.value.cls == objects[name].cls
        && r.value.args == []
        && r.value.fields == Update(init(objects[name].cls), objects[name].fields)
    {
      if name !in objects {
        return Failure(AttributeError);
      }
      var exemplar := objects[name];
      var copy := new Obj(exemplar.cls, [], init(exemplar.cls));
      copy.fields := Update(copy.fields, exemplar.fields);
      r := Success(copy);
    }
  }

  /** A Cat registered and cloned speaks as the original does, and is another object. */
  method CloneCatScenario() returns (cat1: Obj, cat2: Obj)
    ensures cat1 != cat2
    ensures cat1.cls == cat2.cls
    ensures Speak(cat1.cls) == Speak(cat2.cls) == Some("meow meow..")
  {
    var p := new Registry();
    cat1 := new Obj("Cat", [], map[]);
    p.Register("cat", cat1);
    var r := p.Clone("cat", _ => map[]);
    cat2 := r.value;
  }

  /** Two clones of one exemplar are two distinct objects with equal attributes. */
  method TwoClonesScenario(exemplar: Obj) returns (c1: Obj, c2: Obj)
    ensures c1 != c2 && c1 != exemplar && c2 != exemplar
    ensures c1.cls == c2.cls == exemplar.cls
    ensures c1.fields == c2.fields == exemplar.fields
  {
    var p := new Registry();
    p.Register("x", exemplar);
    var r1 := p.Clone("x", _ => map[]);
    var r2 := p.Clone("x", _ => map[]);
    c1, c2 := r1.value, r2.value;
  }

  /**
   * The clone shares the values of the exemplar's attributes (a referenced
   * object is the same object), keeps the constructor's attributes the
   * exemplar lacks, and has a dictionary of its own: rebinding an attribute
   * of the exemplar afterwards leaves the clone as it was.
   */
  method ShallowCopyScenario(shared: Obj) returns (copy: Obj)
    ensures copy.fields == map["friend" := Ref(shared), "legs" := IntValue(3), "tail" := BoolValue(true)]
  {
    var exemplar := new Obj("Dog", [], map["friend" := Ref(shared), "legs" := IntValue(3)]);
    var p := new Registry();
    p.Register("dog", exemplar);
    var r := p.Clone("dog", cls => map["legs" := IntValue(0), "tail" := BoolValue(true)]);
    copy := r.value;
    exemplar.fields := exemplar.fields["friend" := NoneValue];
  }

  /** After unregistering a name, unregistering it again raises KeyError and cloning it AttributeError. */
  method UnregisterScenario(obj: Obj) returns (second: Outcome<Error>, cloned: Result<Obj, Error>)
    ensures second == Fail(KeyError("cat"))
    ensures cloned == Failure(AttributeError)
  {
    var p := new Registry();
    p.Register("cat", obj);
    var first := p.Unregister("cat");
    assert first == Pass;
    second := p.Unregister("cat");
    cloned := p.Clone("cat", _ => map[]);
  }
}
