/**
 * The decoded form of one annotation: its type descriptor, whether it is
 * visible at run time, and its named parameters. It offers the read side
 * of a map; of its own mutators only `put` is supported, and the others fail.
 */
module Annotations {
  import opened Wrappers

  /** The failure `clear`, `putAll` and `remove` always end in. */
  datatype UnsupportedOperation = UnsupportedOperation

  class AnnotationData<V(==)> {
    const desc: string
    const visible: bool
    var parameters: map<string, V>

    /** A new annotation has its descriptor and visibility and no parameters. */
    constructor (desc: string, visible: bool)
      ensures this.desc == desc && this.visible == visible
      ensures parameters == map[]
    {
      this.desc := desc;
      this.visible := visible;
      parameters := map[];
    }

    /** The value stored under `key`, if any. */
    function Get(key: string): (r: Option<V>)
      reads this
      ensures r.Some? <==> key in parameters
      ensures r.Some? ==> r.value == parameters[key]
    {
      if key in parameters then Some(parameters[key]) else None
    }

    function ContainsKey(key: string): (r: bool)
      reads this
      ensures r <==> Get(key).Some?
    {
      key in parameters
    }

    /** Some key maps to `value`. */
    function ContainsValue(value: V): (r: bool)
      reads this
      ensures r <==> exists key :: key in parameters && parameters[key] == value
    {
      value in parameters.Values
    }

    function KeySet(): (r: set<string>)
      reads this
      ensures forall key :: key in r <==> ContainsKey(key)
    {
      parameters.Keys
    }

    function Size(): (r: nat)
      reads this
      ensures r == |KeySet()|
    {
      |parameters|
    }

    function IsEmpty(): (r: bool)
      reads this
      ensures r <==> Size() == 0
      ensures r <==> forall key :: !ContainsKey(key)
    {
      |parameters| == 0
    }

    /**
     * Stores `value` under `name` and answers what was stored there before.
     * The size grows by one exactly when the key is new; every other key keeps its value.
     */
    method Put(name: string, value: V) returns (previous: Option<V>)
      modifies this
      ensures previous == old(Get(name))
      ensures Get(name) == Some(value) && ContainsKey(name)
      ensures forall key :: key != name ==> Get(key) == old(Get(key))
      ensures Size() == old(Size()) + (if previous.None? then 1 else 0)
    {
      previous := Get(name);
      parameters := parameters[name := value];
      if previous.Some? {
        assert parameters.Keys == old(parameters.Keys);
      } else {
        assert parameters.Keys == old(parameters.Keys) + {name};
      }
    }

    /** `clear` is not supported; the parameters stay as they are. */
    method Clear() returns (r: Result<(), UnsupportedOperation>)
      ensures r.Failure?
    {
      return Failure(UnsupportedOperation);
    }

    /** `putAll` is not supported; the parameters stay as they are. */
    method PutAll(m: map<string, V>) returns (r: Result<(), UnsupportedOperation>)
      ensures r.Failure?
    {
      return Failure(UnsupportedOperation);
    }

    /** `remove` is not supported; the parameters stay as they are. */
    method Remove(key: string) returns (r: Result<Option<V>, UnsupportedOperation>)
      ensures r.Failure?
    {
      return Failure(UnsupportedOperation);
    }
  }
}
