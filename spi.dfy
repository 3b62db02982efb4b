/**
 * The service-provider vocabulary shared by the analyzer, the reader and the
 * writer: runtime values, and the registered strategy, converter and wrapper
 * objects, each identified by what the core can observe of it.
 */
module Spi {
  import opened Wrappers
  import opened Reflection

  /**
   * A runtime Java value. `Lit` is an instance of a library class with its
   * `toString()`; `Obj` is any other object; `Coll` an `Iterable`; `Arr` a
   * reference array.
   */
  datatype Value =
    | Null
    | Lit(litClass: JClass, text: string)
    | Obj(objClass: JClass, id: nat)
    | Coll(collClass: JClass, elems: seq<Value>)
    | Arr(arrClass: JClass, elems: seq<Value>)

  /** `getClass()` of a non-null value. */
  function ClassOf(v: Value): JClass
    requires v != Null
  {
    match v
    case Lit(c, _) => c
    case Obj(c, _) => c
    case Coll(c, _) => c
    case Arr(c, _) => c
  }

  /** The outcome of invoking code the core cannot see (a method handle, a converter, a constructor). */
  datatype Invocation = Returned(value: Value) | Threw

  /** A constructor handle, identified by its class and parameter types. */
  datatype ConstructorRef = ConstructorRef(owner: JClass, params: seq<JClass>)

  /** A registered `ValueConverter`. */
  datatype ValueConverter = ValueConverter(id: nat)

  /** A registered `WrapperHandler`; `supported` is the set of classes its `supports` accepts. */
  datatype WrapperHandler = WrapperHandler(id: nat, supported: set<JClass>)

  /** The outcome of `WrapperHandler.handle`. */
  datatype Unwrapped = Handled(content: Option<Value>) | HandlerThrew

  /**
   * A registered `ArgumentStrategy.Factory`: the array strategy of the core, or
   * another implementation whose `supports` accepts `supported`.
   */
  datatype ArgumentFactory = ArrayArguments | OtherArguments(id: nat, supported: set<JClass>)

  /**
   * A registered `InstanceStrategy.Factory`: the record and constructor
   * strategies, or another implementation (setter or builder based) whose
   * `supports` accepts `supported`.
   */
  datatype InstanceFactory = RecordInstances | ConstructorInstances | OtherInstances(id: nat, supported: set<JClass>)

  /** `stream().filter(h -> h.supports(c)).findFirst()` over the registered wrapper handlers. */
  function FirstHandler(handlers: seq<WrapperHandler>, c: JClass): (r: Option<WrapperHandler>)
    ensures r.Some? ==> r.value in handlers && c in r.value.supported
    ensures r.Some? ==> exists i :: 0 <= i < |handlers| && handlers[i] == r.value
                           && forall j :: 0 <= j < i ==> c !in handlers[j].supported
    ensures r.None? ==> forall h :: h in handlers ==> c !in h.supported
  {
    if |handlers| == 0 then None
    else if c in handlers[0].supported then Some(handlers[0])
    else
      var r := FirstHandler(handlers[1..], c);
      if r.Some? then
        ghost var i :| 0 <= i < |handlers[1..]| && handlers[1..][i] == r.value
                       && forall j :: 0 <= j < i ==> c !in handlers[1..][j].supported;
        assert handlers[i + 1] == r.value;
        r
      else r
  }
}
