/**
 * The slice of Python's object model that the creational patterns touch:
 * an object has a class, remembers the arguments it was constructed with,
 * and carries an attribute dictionary (`__dict__`) that can be updated in place.
 */
module PyObjects {

  /** A Python class, identified by its name. */
  type ClassName = string

  /** An attribute value. `Ref` holds a reference, so copying it shares the object. */
  datatype Value =
    | NoneValue
    | BoolValue(b: bool)
    | IntValue(i: int)
    | StrValue(s: string)
    | Ref(obj: Obj)

  /** An attribute dictionary, `__dict__`. */
  type Fields = map<string, Value>

  /** A Python object on the heap. */
  class Obj {
    const cls: ClassName
    const args: seq<Value>
    var fields: Fields

    constructor (cls: ClassName, args: seq<Value>, fields: Fields)
      ensures this.cls == cls && this.args == args && this.fields == fields
    {
      this.cls := cls;
      this.args := args;
      this.fields := fields;
    }
  }
}
