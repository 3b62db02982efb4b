/**
 * `RecordInstanceStrategy`: collects the values of a record's properties into
 * the slots of its canonical constructor, looked up by component name, then
 * invokes that constructor.
 */
module RecordInstanceStrategy {
  import opened Wrappers
  import opened Reflection
  import opened Errors
  import opened Spi
  import opened PropertyAnalysis

  /** `Factory.supports`: the strategy serves record classes. */
  predicate FactorySupports(u: Universe, c: JClass)
  {
    Decl(u, c).isRecord
  }

  function ComponentTypes(components: seq<ComponentDecl>): (types: seq<JClass>)
    ensures |types| == |components|
    ensures forall i :: 0 <= i < |components| ==> types[i] == components[i].componentType
  {
    seq(|components|, i requires 0 <= i < |components| => components[i].componentType)
  }

  function ComponentNames(components: seq<ComponentDecl>): (names: seq<string>)
    ensures |names| == |components|
    ensures forall i :: 0 <= i < |components| ==> names[i] == components[i].name
  {
    seq(|components|, i requires 0 <= i < |components| => components[i].name)
  }

  /** `getDeclaredConstructor(types)`: a declared constructor with exactly these parameter types. */
  function FindConstructor(ctors: seq<ConstructorDecl>, types: seq<JClass>): (r: Option<ConstructorDecl>)
    ensures r.Some? ==> r.value in ctors && ParameterTypes(r.value) == types
    ensures r.None? ==> forall k :: k in ctors ==> ParameterTypes(k) != types
  {
    if |ctors| == 0 then None
    else if ParameterTypes(ctors[0]) == types then Some(ctors[0])
    else FindConstructor(ctors[1..], types)
  }

  /**
   * The name-to-position mapping: each component name mapped to its position,
   * a later component overwriting an earlier one of the same name.
   */
  function IndexMap(names: seq<string>): (m: map<string, nat>)
    ensures m.Keys == set n | n in names
  {
    if |names| == 0 then map[]
    else IndexMap(names[..|names| - 1])[names[|names| - 1] := |names| - 1]
  }

  /** Each name maps to the position of its last occurrence. */
  lemma {:induction false} IndexMapLastOccurrence(names: seq<string>, n: string)
    requires n in names
    ensures IndexMap(names)[n] < |names| && names[IndexMap(names)[n]] == n
    ensures forall j :: IndexMap(names)[n] < j < |names| ==> names[j] != n
  {
    var last := |names| - 1;
    if names[last] != n {
      assert n in names[..last] by {
        var i :| 0 <= i < |names| && names[i] == n;
        assert names[..last][i] == n;
      }
      IndexMapLastOccurrence(names[..last], n);
    }
  }

  /** With distinct names every component maps to its own position and the mapping has one entry per component. */
  lemma {:induction false} DistinctNamesIndexMap(names: seq<string>)
    requires forall i, j :: 0 <= i < j < |names| ==> names[i] != names[j]
    ensures forall i :: 0 <= i < |names| ==> IndexMap(names)[names[i]] == i
    ensures |IndexMap(names)| == |names|
  {
    forall i | 0 <= i < |names|
      ensures IndexMap(names)[names[i]] == i
    {
      IndexMapLastOccurrence(names, names[i]);
    }
    if |names| > 0 {
      var last := |names| - 1;
      DistinctNamesIndexMap(names[..last]);
      assert names[last] !in names[..last];
    }
  }

  /**
   * What the strategy holds: the constructor handle, the name-to-position
   * mapping, and the argument slots.
   */
  datatype RecordArguments = RecordArguments(handle: ConstructorRef, indices: map<string, nat>, arguments: seq<Value>)

  /**
   * The constructor. A class that is not a record has no components (a null
   * array, hence `NullPointerException`); a record without a constructor over
   * its component types is a read error. There is one slot per mapped name.
   */
  function Start(u: Universe, c: JClass): Result<RecordArguments, Error>
  {
    if !Decl(u, c).isRecord then Err(NullPointer)
    else
      var types := ComponentTypes(Decl(u, c).components);
      if FindConstructor(Decl(u, c).constructors, types).None? then Err(Read(NoRecordConstructor))
      else
        var indices := IndexMap(ComponentNames(Decl(u, c).components));
        Ok(RecordArguments(ConstructorRef(c, types), indices, seq(|indices|, _ => Null)))
  }

  /** `add(property, value)`: the value goes to the slot of the property's name. */
  function Put(s: RecordArguments, property: FieldProperty, value: Value): Result<RecordArguments, Error>
  {
    if property.name !in s.indices then Err(Read(UnknownRecordProperty(property.name)))
    else if s.indices[property.name] >= |s.arguments| then Err(IndexOutOfBounds)
    else Ok(s.(arguments := s.arguments[s.indices[property.name] := value]))
  }

  /** `create()`: the constructor invoked on the slots; anything it throws becomes a read error. */
  function Construct(s: RecordArguments, construct: (ConstructorRef, seq<Value>) -> Invocation): Result<Value, Error>
  {
    match construct(s.handle, s.arguments)
    case Threw => Err(Read(ConstructionFailed))
    case Returned(v) => Ok(v)
  }

  // ---- properties of the strategy ----

  /**
   * For a record with distinct component names and a canonical constructor,
   * every component name has its own slot, at its position.
   */
  lemma StartedRecordSlots(u: Universe, c: JClass)
    requires Start(u, c).Ok?
    requires var cs := Decl(u, c).components; forall i, j :: 0 <= i < j < |cs| ==> cs[i].name != cs[j].name
    ensures var s := Start(u, c).value; var cs := Decl(u, c).components;
            && |s.arguments| == |cs|
            && (forall i :: 0 <= i < |cs| ==> cs[i].name in s.indices && s.indices[cs[i].name] == i)
            && s.handle == ConstructorRef(c, ComponentTypes(cs))
  {
    var cs := Decl(u, c).components;
    DistinctNamesIndexMap(ComponentNames(cs));
  }

  /** Only the names of the record's components have a slot. */
  lemma StartedRecordNames(u: Universe, c: JClass, n: string)
    requires Start(u, c).Ok?
    ensures n in Start(u, c).value.indices <==> exists i :: 0 <= i < |Decl(u, c).components| && Decl(u, c).components[i].name == n
  {
    var names := ComponentNames(Decl(u, c).components);
    if n in names {
      var i :| 0 <= i < |names| && names[i] == n;
    }
  }

  /**
   * `add` writes the value into the slot mapped to the property's name and no
   * other; an unknown name is a read error.
   */
  lemma PutSlot(s: RecordArguments, p: FieldProperty, v: Value)
    ensures p.name !in s.indices ==> Put(s, p, v) == Err(Read(UnknownRecordProperty(p.name)))
    ensures p.name in s.indices && s.indices[p.name] < |s.arguments| ==>
              && Put(s, p, v).Ok? && Put(s, p, v).value.handle == s.handle && Put(s, p, v).value.indices == s.indices
              && |Put(s, p, v).value.arguments| == |s.arguments|
              && Put(s, p, v).value.arguments[s.indices[p.name]] == v
              && forall j :: 0 <= j < |s.arguments| && j != s.indices[p.name] ==> Put(s, p, v).value.arguments[j] == s.arguments[j]
  {
  }

  /** Adding values for two different properties gives the same slots in either order. */
  lemma PutCommutes(s: RecordArguments, p: FieldProperty, v: Value, q: FieldProperty, w: Value, names: seq<string>)
    requires s.indices == IndexMap(names)
    requires p.name != q.name
    requires Put(s, p, v).Ok? && Put(s, q, w).Ok?
    ensures Put(Put(s, p, v).value, q, w) == Put(Put(s, q, w).value, p, v)
  {
    IndexMapLastOccurrence(names, p.name);
    IndexMapLastOccurrence(names, q.name);
    var i, j := s.indices[p.name], s.indices[q.name];
    assert i != j;
    assert s.arguments[i := v][j := w] == s.arguments[j := w][i := v];
  }

  /** The values of a sequence of properties, added one by one, stopping at the first failure. */
  function PutAll(s: RecordArguments, properties: seq<FieldProperty>, values: seq<Value>): Result<RecordArguments, Error>
    requires |properties| == |values|
    decreases |properties|
  {
    if |properties| == 0 then Ok(s)
    else
      match Put(s, properties[0], values[0])
      case Err(e) => Err(e)
      case Ok(s') => PutAll(s', properties[1..], values[1..])
  }

  lemma {:induction false} PutAllInOrder(s: RecordArguments, properties: seq<FieldProperty>, values: seq<Value>, from: nat)
    requires |properties| == |values| && from + |values| <= |s.arguments|
    requires forall i :: 0 <= i < |properties| ==> properties[i].name in s.indices && s.indices[properties[i].name] == from + i
    ensures PutAll(s, properties, values) == Ok(s.(arguments := s.arguments[..from] + values + s.arguments[from + |values|..]))
    decreases |properties|
  {
    if |properties| == 0 {
      assert s.arguments[..from] + values + s.arguments[from..] == s.arguments;
    } else {
      var s' := Put(s, properties[0], values[0]).value;
      PutAllInOrder(s', properties[1..], values[1..], from + 1);
      assert s'.arguments[..from + 1] + values[1..] + s'.arguments[from + 1 + |values[1..]|..]
          == s.arguments[..from] + values + s.arguments[from + |values|..];
    }
  }

  /**
   * The purpose of the strategy: when a record's properties are added in
   * component order, the constructor receives their values as its arguments,
   * in component order.
   */
  lemma FilledInComponentOrder(u: Universe, c: JClass, properties: seq<FieldProperty>, values: seq<Value>)
    requires Start(u, c).Ok?
    requires var cs := Decl(u, c).components; forall i, j :: 0 <= i < j < |cs| ==> cs[i].name != cs[j].name
    requires |properties| == |values| == |Decl(u, c).components|
    requires forall i :: 0 <= i < |properties| ==> properties[i].name == Decl(u, c).components[i].name
    ensures PutAll(Start(u, c).value, properties, values).Ok?
    ensures PutAll(Start(u, c).value, properties, values).value.arguments == values
  {
    var s := Start(u, c).value;
    StartedRecordSlots(u, c);
    PutAllInOrder(s, properties, values, 0);
    assert s.arguments[..0] + values + s.arguments[|values|..] == values;
  }

  /** `new RecordInstanceStrategy(type)`, with the argument slots as a fixed-size array. */
  class RecordInstances {
    const handle: ConstructorRef
    const parameterIndices: map<string, nat>
    const arguments: array<Value>

    function State(): RecordArguments
      reads this, arguments
    {
      RecordArguments(handle, parameterIndices, arguments[..])
    }

    constructor Init(handle: ConstructorRef, parameterIndices: map<string, nat>)
      ensures fresh(arguments)
      ensures State() == RecordArguments(handle, parameterIndices, seq(|parameterIndices|, _ => Null))
    {
      this.handle := handle;
      this.parameterIndices := parameterIndices;
      arguments := new Value[|parameterIndices|](_ => Null);
    }

    /** Stores the value in the slot of the property's name; no other slot changes. */
    method Add(property: FieldProperty, value: Value) returns (failure: Option<Error>)
      modifies arguments
      ensures failure.None? <==> Put(old(State()), property, value).Ok?
      ensures failure.None? ==> Put(old(State()), property, value) == Ok(State())
      ensures failure.Some? ==> Put(old(State()), property, value) == Err(failure.value)
                                && State() == old(State())
    {
      if property.name !in parameterIndices {
        return Some(Read(UnknownRecordProperty(property.name)));
      }
      var index := parameterIndices[property.name];
      if index >= arguments.Length {
        return Some(IndexOutOfBounds);
      }
      arguments[index] := value;
      failure := None;
    }

    /** Invokes the constructor on the slots. Nothing changes. */
    method Create(construct: (ConstructorRef, seq<Value>) -> Invocation) returns (r: Result<Value, Error>)
      ensures r == Construct(State(), construct)
    {
      var outcome := construct(handle, arguments[..]);
      if outcome.Threw? {
        return Err(Read(ConstructionFailed));
      }
      r := Ok(outcome.value);
    }
  }

  /** The position of every component name, built by a loop over the components. */
  method BuildIndices(names: seq<string>) returns (mapping: map<string, nat>)
    ensures mapping == IndexMap(names)
  {
    mapping := map[];
    var i := 0;
    while i < |names|
      invariant 0 <= i <= |names|
      invariant mapping == IndexMap(names[..i])
    {
      assert names[..i + 1][..i] == names[..i];
      mapping := mapping[names[i] := i];
      i := i + 1;
    }
    assert names[..|names|] == names;
  }

  /** `Factory.create(type)`: the strategy for a record class, or the reason there is none. */
  method New(u: Universe, c: JClass) returns (r: Result<RecordInstances, Error>)
    ensures r.Err? ==> Start(u, c) == Err(r.error)
    ensures r.Ok? ==> fresh(r.value.arguments) && Start(u, c) == Ok(r.value.State())
  {
    if !Decl(u, c).isRecord {
      return Err(NullPointer);
    }
    var components := Decl(u, c).components;
    var types := ComponentTypes(components);
    var ctor := FindConstructor(Decl(u, c).constructors, types);
    if ctor.None? {
      return Err(Read(NoRecordConstructor));
    }
    var indices := BuildIndices(ComponentNames(components));
    var strategy := new RecordInstances.Init(ConstructorRef(c, types), indices);
    r := Ok(strategy);
  }
}
