# Creational patterns: Prototype registry and Singleton caches

This project models the two facilities of a small Python collection of
creational design patterns. Both are in-memory and sequential.

- **Prototype registry** (`patterns/creational/prototype.py`). A table from
  names to exemplar objects. `register` inserts or overwrites an entry.
  `unregister` deletes one and raises `KeyError` when the name is absent.
  `clone` builds a new object of the exemplar's class with its no-argument
  constructor. It then updates the new object's attribute dictionary with
  the exemplar's, so exemplar attributes win and the copy is shallow.
- **Singleton caches** (`patterns/creational/singleton.py`). There are six
  variants of one get-or-create state machine. An empty slot becomes a
  filled slot, and a filled slot never changes. `SingletonNew`,
  `SingletonDispatcher` and `SingletonThreadSafe` hold one class-level slot.
  `SingletonMeta` and `singleton_decorator` hold a class-to-instance table
  that only grows. `Singleton` (Example 1) differs: every construction
  returns a new object, and only the first one is stored.

Files:

- `wrappers.dfy`: `Option`, `Result` and `Outcome`. They model `None`,
  and the exceptions an operation raises instead of returning.
- `py_objects.dfy`: a Python object (`Obj`). It has a class name, the
  arguments it was constructed with and a mutable attribute dictionary.
  Attribute values (`Value`) may be references to other objects, so
  copying a value shares the object it refers to.
- `prototype.dfy`: `Registry`, a class whose `objects` map is updated in
  place, with `Register`, `Unregister` and `Clone`. Alongside it are
  `Update`, which is `dict.update` on values, `Speak`, and scenario methods
  that follow the unit test.
- `singleton.dfy`: one class per variant, each with a get-or-create
  method whose contract is stated through the step functions `Fill` (for a
  slot) and `Cached` (for a table). The functions `SlotAfter`,
  `SlotResults`, `Allocations`, `TableAfter` and `TableResults` describe
  any sequence of such calls. Each is proved by induction: every call
  returns the same object, there is at most one allocation, existing
  entries never change, and a class is added only by a call for it.
  `NewRepeatedly` and `CallEach` run sequences of calls on `SingletonNew`
  and `SingletonMeta` and prove that the resulting state is the one these
  functions give.

Python class objects with class attributes (`_instance`, `instances`) are
modelled as Dafny objects, one per Python class. `__new__`, `__init__` and
metaclass `__call__` become explicit methods. A call's allocation is a Dafny
`new`, so "returns the identical object" is reference equality and
"allocates" is `fresh`.

`clone` of an unregistered name raises `AttributeError`, not `KeyError`:
`self._objects.get(name)` yields `None`, `None.__class__()` is `None` again,
and `None` has no `__dict__`, so line 25 raises. `Clone` returns
`Failure(AttributeError)`.

## Model

| member | source | states |
|---|---|---|
| Prototype.Registry.constructor | patterns/creational/prototype.py:10-11 | a new registry starts with an empty table |
| Prototype.Registry.Register | patterns/creational/prototype.py:13-15 | the table maps `name` to `obj` afterwards, an earlier entry under `name` is overwritten, and every other name keeps its entry |
| Prototype.Registry.Unregister | patterns/creational/prototype.py:17-19 | removes exactly `name` and leaves every other entry unchanged; raises `KeyError(name)` and changes nothing when `name` is absent |
| Prototype.Registry.Clone | patterns/creational/prototype.py:21-26 | for a registered name, returns a freshly allocated object of the exemplar's class, distinct from the exemplar and from every earlier clone; its attributes are the constructor's attributes updated with the exemplar's, exemplar values winning and shared rather than copied; the table and the exemplar are not modified; for an unregistered name, raises `AttributeError` |
| Prototype.Update | patterns/creational/prototype.py:25 | `dict.update`: the keys are the union; the exemplar's value is kept wherever it has the key, and the constructor's value elsewhere |
| Prototype.Speak | patterns/creational/prototype.py:29-48 | `speak()` exists exactly on `Cat` and `Dog` (`Animal` declares it abstract) |
| Prototype.UnregisterUndoesRegister | patterns/creational/prototype.py:13-19 | unregistering a name just registered, when it was absent before, gives back the old table |
| Prototype.LastRegistrationWins | patterns/creational/prototype.py:13-15 | two registrations under one name leave only the second |
| Prototype.CloneCatScenario | tests/test_prototype.py:8-15 | a registered `Cat` and its clone are different objects of the same class, and both `speak()` `"meow meow.."` |
| Prototype.TwoClonesScenario | patterns/creational/prototype.py:21-26 | two clones of one exemplar are distinct from each other and from the exemplar, and have the exemplar's class and attributes |
| Prototype.ShallowCopyScenario | patterns/creational/prototype.py:24-25 | a clone refers to the same objects as the exemplar, keeps the constructor attributes the exemplar lacks, takes the exemplar's value where both have one, and does not see later rebindings on the exemplar |
| Prototype.UnregisterScenario | patterns/creational/prototype.py:17-25 | after `unregister`, a second `unregister` raises `KeyError` and `clone` raises `AttributeError` |
| Singleton.SlotAfter | patterns/creational/singleton.py:47-50 | after any sequence of get-or-create calls, a filled slot is unchanged, and an empty slot holds the first call's object |
| Singleton.SlotResults | patterns/creational/singleton.py:47-50 | every call in a sequence of get-or-create calls returns the object the slot finally holds |
| Singleton.Allocations | patterns/creational/singleton.py:97-102 | a sequence of get-or-create calls allocates at most once, and exactly once when the slot starts empty and there is a call |
| Singleton.SlotCallsAgree | tests/test_singleton.py:30-52 | any two calls return the identical object: the slot's old value, or else the first call's object |
| Singleton.TableAfter | patterns/creational/singleton.py:31-34 | after a sequence of calls, the table keeps every old entry, and a class first seen is bound to the object of its first call; no other key appears |
| Singleton.TableResults | patterns/creational/singleton.py:31-34 | every call returns the final table entry for its class, so two calls for one class return the identical object |
| Singleton.TableOnlyGrows | patterns/creational/singleton.py:29-34 | a call for one class adds at most that class: a class absent before that no call names is absent afterwards |
| Singleton.TableAfterSnoc | patterns/creational/singleton.py:31-34 | one more call on a table is one more check-then-create step on the table the earlier calls left |
| Singleton.SimpleSingleton.constructor | patterns/creational/singleton.py:13 | `_instance` starts as `None` |
| Singleton.SimpleSingleton.GetInstance | patterns/creational/singleton.py:15-18 | `get_instance()` returns the stored instance, `None` before any construction |
| Singleton.SimpleSingleton.Construct | patterns/creational/singleton.py:20-22 | every construction returns a new object; it is stored only when the slot is empty, so a stored instance is never replaced |
| Singleton.SingletonMeta.constructor | patterns/creational/singleton.py:29 | the shared `instances` table starts empty |
| Singleton.SingletonMeta.Call | patterns/creational/singleton.py:31-34 | returns the cached object for `cls` when present and changes nothing; otherwise constructs one from `args`, caches it under `cls` only and returns it |
| Singleton.SingletonNew.constructor | patterns/creational/singleton.py:45 | `_instance` starts as `None` |
| Singleton.SingletonNew.New | patterns/creational/singleton.py:47-50 | the first call fills the slot with a fresh object; every later call returns that object and leaves the slot unchanged |
| Singleton.DecoratedClass.constructor | patterns/creational/singleton.py:54-56 | decorating a class gives a closure with an empty `_instances` |
| Singleton.DecoratedClass.GetInstance | patterns/creational/singleton.py:58-62 | returns the cached instance, constructing it from `args` only on the first call; the cache only ever holds the decorated class |
| Singleton.SingletonDispatcher.constructor | patterns/creational/singleton.py:82 | `_instance` starts as `None` |
| Singleton.SingletonDispatcher.New | patterns/creational/singleton.py:84-87 | the same get-or-create contract as `SingletonNew.New` |
| Singleton.SingletonThreadSafe.constructor | patterns/creational/singleton.py:94 | `_instance` starts as `None` |
| Singleton.SingletonThreadSafe.New | patterns/creational/singleton.py:97-102 | run sequentially, the same result as `SingletonNew.New`: the re-check allocates only when the slot is still empty |
| Singleton.SimpleSingletonScenario | tests/test_singleton.py:15-22 | `get_instance()` is `None` first; two constructions give two objects, and `get_instance()` then returns the first |
| Singleton.MetaScenario | tests/test_singleton.py:24-28 | two calls of `MySingletonMeta` return the identical object, built by the first, argument-free call; a later call's arguments are ignored; another class gets its own object |
| Singleton.SlotScenario | tests/test_singleton.py:30-52 | two calls of `SingletonNew`, `SingletonDispatcher` or `SingletonThreadSafe` return the identical object, and the three classes hold different objects |
| Singleton.DecoratedScenario | tests/test_singleton.py:36-40 | two calls of `SingletonDecorated` return the identical object, built by the first, argument-free call; a later call's arguments are ignored |
| Singleton.NewRepeatedly | patterns/creational/singleton.py:47-50 | after any number of `SingletonNew()` calls the slot is `SlotAfter` of the objects returned, and every call returned the object the slot holds |
| Singleton.CallEach | patterns/creational/singleton.py:31-34 | after any sequence of metaclass calls the table is `TableAfter` of the calls paired with their results, and each call returned the final entry for its class |

## Left out

- The lock of `SingletonThreadSafe` and any claim about concurrent callers or memory publication: the model is sequential, so the double check is run as one call.
- The `singledispatch` registration of `SingletonDispatcher`: it does not affect the slot.
- `functools.wraps` metadata copying and the `ABC`/`abstractmethod` machinery: library mechanics with no effect on the caches or the table.
- Python's `__new__`/`__init__`/metaclass dispatch itself: each variant's construction is an explicit method.
- The truthiness test `not cls._instance`: the slot is an `Option`, which assumes instances are truthy; they are for these classes.
- Class attributes inherited by subclasses, such as a subclass reading its parent's `_instance`: not exercised by the code.
- The constructed classes' own `__init__`: a class constructed through `SingletonMeta` or the decorator is assumed to accept its positional arguments and to succeed. The new object records the arguments and starts with no attributes. `MySingletonMeta` and `SingletonDecorated` take no arguments, so in Python a first call with arguments raises `TypeError`; the scenarios make their first call with none. A construction that raises leaves the cache as it was in Python; this is not modelled.
- Keyword arguments (`**kwargs` of `SingletonMeta.__call__` and of the decorator's `get_instance`): only positional arguments are recorded; keyword arguments, like positional ones, matter only on the first call.
- Prototype.Registry.Clone: the exemplar's class is assumed to allocate a new object with an attribute dictionary when called with no arguments, and to succeed. Its constructor's code is outside the registry, so `Clone` takes the attributes it sets as the parameter `init`. Python runs the class's own `__new__` instead: cloning a registered `SingletonNew()` (likewise `SingletonDispatcher`, `SingletonThreadSafe` or `MySingletonMeta`) returns the exemplar itself, not a fresh object; and an exemplar without a `__dict__`, such as the integer `5`, makes line 25 raise `AttributeError` (`(5).__class__()` is `0`). The model's promise that a clone is fresh and distinct from the exemplar holds only for classes that allocate.
- Registering `None` as an exemplar: the table holds object references only. Python would accept it, and a later `clone` would raise `AttributeError` as for an absent name.
