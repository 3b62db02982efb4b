/**
 * `ConstructorInstanceStrategy`: collects the values of a class's properties
 * into the argument slots of its `@ConstructorProperties` constructor, by
 * parameter index, then invokes that constructor.
 */
module ConstructorInstanceStrategy {
  import opened Wrappers
  import opened Reflection
  import opened Errors
  import opened Spi
  import opened IntrinsicTypes
  import opened PropertyAnalysis
  import opened Inspection
  import ConstructorTypeInspector

  /** `Factory.supports`: some declared constructor carries `@ConstructorProperties`. */
  predicate FactorySupports(u: Universe, c: JClass)
  {
    exists k :: k in Decl(u, c).constructors && k.constructorProperties.Some?
  }

  /** What the strategy holds: the constructor handle and the argument slots. */
  datatype ConstructorArguments = ConstructorArguments(handle: ConstructorRef, arguments: seq<Value>)

  /**
   * The constructor: the first annotated constructor, which must list one name
   * per parameter; one slot per listed name, all null.
   */
  function Start(u: Universe, c: JClass): Result<ConstructorArguments, Error>
  {
    match FirstPropertiesConstructor(Decl(u, c).constructors)
    case None => Err(Read(NoAnnotatedConstructorForRead))
    case Some(ctor) =>
      var length := |ctor.constructorProperties.value|;
      if |ctor.params| != length then Err(Read(ConstructorPropertiesMismatch))
      else Ok(ConstructorArguments(ConstructorRef(c, ParameterTypes(ctor)), seq(length, _ => Null)))
  }

  /**
   * `add(property, value)`: a constructor-family property stores the value at
   * its index; a property of any other family is ignored.
   */
  function Put(s: ConstructorArguments, property: FieldProperty, value: Value): Result<ConstructorArguments, Error>
  {
    match property.family
    case ConstructorFamily(index) =>
      if index < |s.arguments| then Ok(s.(arguments := s.arguments[index := value])) else Err(IndexOutOfBounds)
    case _ => Ok(s)
  }

  /** `create()`: the constructor invoked on the slots; anything it throws becomes a read error. */
  function Construct(s: ConstructorArguments, construct: (ConstructorRef, seq<Value>) -> Invocation): Result<Value, Error>
  {
    match construct(s.handle, s.arguments)
    case Threw => Err(Read(ConstructionFailed))
    case Returned(v) => Ok(v)
  }

  // ---- properties of the strategy ----

  /** The strategy exists exactly for the classes the factory supports whose annotation lists one name per parameter. */
  lemma StartIffSupported(u: Universe, c: JClass)
    ensures Start(u, c).Ok? ==> FactorySupports(u, c)
    ensures Start(u, c).Ok? <==> (FirstPropertiesConstructor(Decl(u, c).constructors).Some? &&
              |FirstPropertiesConstructor(Decl(u, c).constructors).value.params|
                == |FirstPropertiesConstructor(Decl(u, c).constructors).value.constructorProperties.value|)
    ensures Start(u, c).Ok? ==> |Start(u, c).value.arguments| == |FirstPropertiesConstructor(Decl(u, c).constructors).value.params|
  {
  }

  /**
   * The two halves of the constructor support agree: every index the
   * constructor inspector hands to the analyzer names a slot of the strategy
   * for the same class, so `add` never goes out of bounds for them.
   */
  lemma InspectedIndicesFit(u: Universe, c: JClass, k: AnnotationKind, resolvers: seq<Resolver>,
                            handlers: seq<WrapperHandler>, j: nat)
    requires j < |ConstructorTypeInspector.ConstructorInspection(u, c, k, resolvers, handlers).yielded|
    requires Start(u, c).Ok?
    ensures ConstructorTypeInspector.ConstructorInspection(u, c, k, resolvers, handlers).yielded[j].index.Some?
    ensures ConstructorTypeInspector.ConstructorInspection(u, c, k, resolvers, handlers).yielded[j].index.value
              < |Start(u, c).value.arguments|
  {
    ConstructorTypeInspector.YieldedDescribeParameters(u, c, k, resolvers, handlers, j);
  }

  /**
   * `add` writes the value into the property's own slot and no other; a
   * property of another family changes nothing, and an index past the slots
   * is an `ArrayIndexOutOfBoundsException`.
   */
  lemma PutSlot(s: ConstructorArguments, p: FieldProperty, v: Value)
    ensures !p.family.ConstructorFamily? ==> Put(s, p, v) == Ok(s)
    ensures p.family.ConstructorFamily? && p.family.index >= |s.arguments| ==> Put(s, p, v) == Err(IndexOutOfBounds)
    ensures p.family.ConstructorFamily? && p.family.index < |s.arguments| ==>
              && Put(s, p, v).Ok? && Put(s, p, v).value.handle == s.handle
              && |Put(s, p, v).value.arguments| == |s.arguments|
              && Put(s, p, v).value.arguments[p.family.index] == v
              && forall j :: 0 <= j < |s.arguments| && j != p.family.index ==> Put(s, p, v).value.arguments[j] == s.arguments[j]
  {
  }

  /** Values for two properties with different indices land in the same slots in either order. */
  lemma PutCommutes(s: ConstructorArguments, p: FieldProperty, v: Value, q: FieldProperty, w: Value)
    requires p.family.ConstructorFamily? && q.family.ConstructorFamily? && p.family.index != q.family.index
    requires Put(s, p, v).Ok? && Put(s, q, w).Ok?
    ensures Put(Put(s, p, v).value, q, w) == Put(Put(s, q, w).value, p, v)
  {
    var i, j := p.family.index, q.family.index;
    assert s.arguments[i := v][j := w] == s.arguments[j := w][i := v];
  }

  /** The values of a sequence of properties, added one by one, stopping at the first failure. */
  function PutAll(s: ConstructorArguments, properties: seq<FieldProperty>, values: seq<Value>): Result<ConstructorArguments, Error>
    requires |properties| == |values|
    decreases |properties|
  {
    if |properties| == 0 then Ok(s)
    else
      match Put(s, properties[0], values[0])
      case Err(e) => Err(e)
      case Ok(s') => PutAll(s', properties[1..], values[1..])
  }

  lemma {:induction false} PutAllInOrder(s: ConstructorArguments, properties: seq<FieldProperty>, values: seq<Value>, from: nat)
    requires |properties| == |values| && from + |values| <= |s.arguments|
    requires forall i :: 0 <= i < |properties| ==> properties[i].family == ConstructorFamily(from + i)
    ensures PutAll(s, properties, values) == Ok(s.(arguments := s.arguments[..from] + values + s.arguments[from + |values|..]))
    decreases |properties|
  {
    if |properties| == 0 {
      assert s.arguments[..from] + values + s.arguments[from..] == s.arguments;
    } else {
      var s' := Put(s, properties[0], values[0]).value;
      PutAllInOrder(s', properties[1..], values[1..], from + 1);
      assert s'.arguments[..from + 1] + values[1..] + s'.arguments[from + 1 + |values[1..]|..]
          == s.arguments[..from] + values + s.arguments[from + |values|..];
    }
  }

  /**
   * The purpose of the strategy: when one property per parameter is added, in
   * parameter order, the constructor receives their values as its arguments.
   */
  lemma FilledInParameterOrder(u: Universe, c: JClass, properties: seq<FieldProperty>, values: seq<Value>)
    requires Start(u, c).Ok?
    requires |properties| == |values| == |Start(u, c).value.arguments|
    requires forall i :: 0 <= i < |properties| ==> properties[i].family == ConstructorFamily(i)
    ensures PutAll(Start(u, c).value, properties, values) == Ok(Start(u, c).value.(arguments := values))
  {
    var s := Start(u, c).value;
    PutAllInOrder(s, properties, values, 0);
    assert s.arguments[..0] + values + s.arguments[|values|..] == values;
  }

  /** `new ConstructorInstanceStrategy(type)`, with the argument slots as a fixed-size array. */
  class ConstructorInstances {
    const handle: ConstructorRef
    const arguments: array<Value>

    function State(): ConstructorArguments
      reads this, arguments
    {
      ConstructorArguments(handle, arguments[..])
    }

    constructor Init(handle: ConstructorRef, length: nat)
      ensures fresh(arguments)
      ensures State() == ConstructorArguments(handle, seq(length, _ => Null))
    {
      this.handle := handle;
      arguments := new Value[length](_ => Null);
    }

    /** Stores the value at the property's index; no other slot changes. */
    method Add(property: FieldProperty, value: Value) returns (failure: Option<Error>)
      modifies arguments
      ensures failure.None? <==> Put(old(State()), property, value).Ok?
      ensures failure.None? ==> Put(old(State()), property, value) == Ok(State())
      ensures failure.Some? ==> Put(old(State()), property, value) == Err(failure.value) && State() == old(State())
    {
      if property.family.ConstructorFamily? {
        var index := property.family.index;
        if index >= arguments.Length {
          return Some(IndexOutOfBounds);
        }
        arguments[index] := value;
      }
      failure := None;
    }

    /** Invokes the constructor on the slots. Nothing changes. */
    method Create(construct: (ConstructorRef, seq<Value>) -> Invocation) returns (r: Result<Value, Error>)
      ensures r == Construct(State(), construct)
    {
      var outcome := construct(handle, arguments[..]);
      if outcome.Threw? {
        return Err(Read(ConstructionFailed));
      }
      r := Ok(outcome.value);
    }
  }

  /** `Factory.create(type)`: the strategy for a class, or the reason there is none. */
  method New(u: Universe, c: JClass) returns (r: Result<ConstructorInstances, Error>)
    ensures r.Err? ==> Start(u, c) == Err(r.error)
    ensures r.Ok? ==> fresh(r.value.arguments) && Start(u, c) == Ok(r.value.State())
  {
    var ctor := FirstPropertiesConstructor(Decl(u, c).constructors);
    if ctor.None? {
      return Err(Read(NoAnnotatedConstructorForRead));
    }
    var length := |ctor.value.constructorProperties.value|;
    if |ctor.value.params| != length {
      return Err(Read(ConstructorPropertiesMismatch));
    }
    var strategy := new ConstructorInstances.Init(ConstructorRef(c, ParameterTypes(ctor.value)), length);
    r := Ok(strategy);
  }
}
