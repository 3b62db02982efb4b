/**
 * `CoreTransmogReader`: reads an instance of a class from a collection of RDF
 * statements, following the descriptor the analyzer gives for the class.
 * Nested properties are read recursively; scalar ones go through the
 * property's converter.
 */
module Reader {
  import opened Wrappers
  import opened Reflection
  import opened Errors
  import opened Spi
  import opened PropertyAnalysis
  import opened ClassAnalysis
  import opened Rdf
  import ArrayArgumentStrategy
  import RecordInstanceStrategy
  import ConstructorInstanceStrategy

  /**
   * What the reader calls but cannot see: the analyzer, the constructors the
   * instance strategies invoke, the converters, and the setter- and
   * builder-based instance strategies and other argument strategies, each
   * given by what it returns for the values it was handed.
   */
  datatype ReadEnv = ReadEnv(
    u: Universe,
    analyze: JClass -> Result<ClassAnalysis, Error>,
    construct: (ConstructorRef, seq<Value>) -> Invocation,
    convert: (ValueConverter, Term) -> Invocation,
    otherInstance: (nat, JClass, seq<Supplied>) -> Invocation,
    otherArgument: (nat, FieldProperty, nat, seq<Value>) -> Invocation)

  /** One `strategy.add(property, argument)` call. */
  datatype Supplied = Supplied(property: FieldProperty, argument: Value)

  /** The state of the `InstanceStrategy` being filled. */
  datatype InstanceState =
    | RecordState(record: RecordInstanceStrategy.RecordArguments)
    | ConstructorState(ctor: ConstructorInstanceStrategy.ConstructorArguments)
    | OtherInstanceState(id: nat, target: JClass, supplied: seq<Supplied>)

  /** The state of the `ArgumentStrategy` collecting one property's values. */
  datatype ArgumentState =
    | ArrayState(collected: ArrayArgumentStrategy.Collected)
    | OtherArgumentState(argId: nat, property: FieldProperty, size: nat, values: seq<Value>)

  // ---- the strategies, as the reader drives them ----

  /** `analysis.factory().create(clazz)`: a class without a factory fails on the null factory. */
  function StartInstance(env: ReadEnv, factory: Option<InstanceFactory>, c: JClass): Result<InstanceState, Error>
  {
    match factory
    case None => Err(NullPointer)
    case Some(RecordInstances) =>
      var s :- RecordInstanceStrategy.Start(env.u, c);
      Ok(RecordState(s))
    case Some(ConstructorInstances) =>
      var s :- ConstructorInstanceStrategy.Start(env.u, c);
      Ok(ConstructorState(s))
    case Some(OtherInstances(id, _)) => Ok(OtherInstanceState(id, c, []))
  }

  /** `strategy.add(property, argument)`. */
  function AddInstance(s: InstanceState, p: FieldProperty, v: Value): Result<InstanceState, Error>
  {
    match s
    case RecordState(r) =>
      var r' :- RecordInstanceStrategy.Put(r, p, v);
      Ok(RecordState(r'))
    case ConstructorState(k) =>
      var k' :- ConstructorInstanceStrategy.Put(k, p, v);
      Ok(ConstructorState(k'))
    case OtherInstanceState(id, c, supplied) => Ok(OtherInstanceState(id, c, supplied + [Supplied(p, v)]))
  }

  /** `strategy.create()`. */
  function CreateInstance(env: ReadEnv, s: InstanceState): Result<Value, Error>
  {
    match s
    case RecordState(r) => RecordInstanceStrategy.Construct(r, env.construct)
    case ConstructorState(k) => ConstructorInstanceStrategy.Construct(k, env.construct)
    case OtherInstanceState(id, c, supplied) =>
      (match env.otherInstance(id, c, supplied)
       case Threw => Err(Read(ConstructionFailed))
       case Returned(v) => Ok(v))
  }

  /** `property.getFactory().create(property, size)`. */
  function StartArgument(p: FieldProperty, size: nat): Result<ArgumentState, Error>
  {
    match p.factory
    case ArrayArguments =>
      var s :- ArrayArgumentStrategy.Start(p.intrinsicType, size);
      Ok(ArrayState(s))
    case OtherArguments(id, _) => Ok(OtherArgumentState(id, p, size, []))
  }

  /** `strategy.add(value)`. */
  function AddArgument(s: ArgumentState, v: Value): Result<ArgumentState, Error>
  {
    match s
    case ArrayState(a) =>
      var a' :- ArrayArgumentStrategy.Append(a, v);
      Ok(ArrayState(a'))
    case OtherArgumentState(id, p, size, values) => Ok(OtherArgumentState(id, p, size, values + [v]))
  }

  /** `strategy.create()`. */
  function CreateArgument(env: ReadEnv, s: ArgumentState): Result<Value, Error>
  {
    match s
    case ArrayState(a) => ArrayArgumentStrategy.Finish(a)
    case OtherArgumentState(id, p, size, values) =>
      (match env.otherArgument(id, p, size, values)
       case Threw => Err(Thrown)
       case Returned(v) => Ok(v))
  }

  // ---- the required/readonly decision ----

  /** What `readInternal` does with one property. */
  datatype Decision = Skip | Supply | Reject(failure: ReadFailure)

  /**
   * The required/readonly table of `readInternal`, given whether the model has
   * objects for the property's predicate.
   */
  function Decide(a: Annotation, present: bool): (d: Decision)
    requires a.PredicateAnnotation?
    ensures d.Supply? <==> present && !a.readonly
    ensures d.Skip? <==> !present && (a.readonly || !a.required)
    ensures d == Reject(MissingRequired(a.iri)) <==> !present && a.required && !a.readonly
    ensures d == Reject(ReadonlyPopulated(a.iri)) <==> present && a.readonly
  {
    if !present then
      if !a.readonly && a.required then Reject(MissingRequired(a.iri)) else Skip
    else if a.readonly then Reject(ReadonlyPopulated(a.iri))
    else Supply
  }

  /** The objects the model holds for a property of `subject`. */
  function ObjectsOf(model: seq<Statement>, subject: Term, p: FieldProperty): seq<Term>
    requires p.annotation.PredicateAnnotation?
  {
    Objects(model, subject, Iri(p.annotation.iri))
  }

  // ---- the reader, as functions ----

  /**
   * `readInternal(model, c, subject)`. `fuel` bounds the depth of nested
   * reads; a graph that nests deeper (a cycle, say) overflows the stack.
   */
  function ReadInstance(env: ReadEnv, model: seq<Statement>, c: JClass, subject: Term, fuel: nat): (r: Result<Option<Value>, Error>)
    ensures !HasSubject(model, subject) ==> r == Ok(None)
    ensures r == Ok(None) ==> !HasSubject(model, subject)
    decreases fuel, 0, 0
  {
    if !HasSubject(model, subject) then Ok(None)
    else if fuel == 0 then Err(StackOverflow)
    else
      var a :- env.analyze(c);
      var s :- StartInstance(env, a.factory, c);
      var s' :- ReadProperties(env, model, subject, a.predicates, s, fuel - 1);
      var v :- CreateInstance(env, s');
      Ok(Some(v))
  }

  /** The loop of `readInternal` over the descriptor's predicates, from the instance strategy's state `s`. */
  function ReadProperties(env: ReadEnv, model: seq<Statement>, subject: Term, props: seq<FieldProperty>,
                          s: InstanceState, fuel: nat): Result<InstanceState, Error>
    decreases fuel, 3, |props|
  {
    if |props| == 0 then Ok(s)
    else
      var p := props[0];
      if !p.annotation.PredicateAnnotation? then Err(ClassCast)
      else
        var objects := ObjectsOf(model, subject, p);
        match Decide(p.annotation, |objects| > 0)
        case Reject(f) => Err(Read(f))
        case Skip => ReadProperties(env, model, subject, props[1..], s, fuel)
        case Supply =>
          var argument :- Argument(env, model, p, objects, fuel);
          var s' :- AddInstance(s, p, argument);
          ReadProperties(env, model, subject, props[1..], s', fuel)
  }

  /** `readArgument(property, objects, model)`: an argument strategy sized to the number of objects. */
  function Argument(env: ReadEnv, model: seq<Statement>, p: FieldProperty, objects: seq<Term>, fuel: nat): Result<Value, Error>
    decreases fuel, 2, 0
  {
    var s :- StartArgument(p, |objects|);
    var s' :- ReadObjects(env, model, p, objects, s, fuel);
    CreateArgument(env, s')
  }

  /**
   * The loop of `readArgument`: a nested property reads each object as an
   * instance of its intrinsic type and drops absent results; a scalar one
   * converts each object.
   */
  function ReadObjects(env: ReadEnv, model: seq<Statement>, p: FieldProperty, objects: seq<Term>,
                       s: ArgumentState, fuel: nat): Result<ArgumentState, Error>
    decreases fuel, 1, |objects|
  {
    if |objects| == 0 then Ok(s)
    else
      var next :- ReadObject(env, model, p, objects[0], fuel);
      if next.None? then ReadObjects(env, model, p, objects[1..], s, fuel)
      else
        var s' :- AddArgument(s, next.value);
        ReadObjects(env, model, p, objects[1..], s', fuel)
  }

  /** The value one object contributes, if any. A literal cannot be read as a nested subject. */
  function ReadObject(env: ReadEnv, model: seq<Statement>, p: FieldProperty, o: Term, fuel: nat): Result<Option<Value>, Error>
    decreases fuel, 0, 1
  {
    if p.nested then
      if o.Literal? then Err(ClassCast)
      else ReadInstance(env, model, p.intrinsicType, o, fuel)
    else if p.valueConverter.None? then Err(NullPointer)
    else
      match env.convert(p.valueConverter.value, o)
      case Threw => Err(Thrown)
      case Returned(v) => Ok(Some(v))
  }

  // ---- the reader, as methods ----

  /** `readInternal`: one `strategy.add` per supplied property, in descriptor order, then `create()`. */
  method ReadInternal(env: ReadEnv, model: seq<Statement>, c: JClass, subject: Term, fuel: nat)
    returns (r: Result<Option<Value>, Error>)
    ensures r == ReadInstance(env, model, c, subject, fuel)
    decreases fuel, 0
  {
    if !HasSubject(model, subject) {
      return Ok(None);
    }
    if fuel == 0 {
      return Err(StackOverflow);
    }
    var analysis := env.analyze(c);
    if analysis.Err? {
      return Err(analysis.error);
    }
    var a := analysis.value;
    var start := StartInstance(env, a.factory, c);
    if start.Err? {
      return Err(start.error);
    }
    var s := start.value;
    var i := 0;
    while i < |a.predicates|
      invariant 0 <= i <= |a.predicates|
      invariant ReadProperties(env, model, subject, a.predicates, start.value, fuel - 1)
                == ReadProperties(env, model, subject, a.predicates[i..], s, fuel - 1)
    {
      var p := a.predicates[i];
      assert a.predicates[i..][1..] == a.predicates[i + 1..];
      if !p.annotation.PredicateAnnotation? {
        return Err(ClassCast);
      }
      var objects := Objects(model, subject, Iri(p.annotation.iri));
      if |objects| == 0 {
        if !p.annotation.readonly && p.annotation.required {
          return Err(Read(MissingRequired(p.annotation.iri)));
        }
      } else {
        if p.annotation.readonly {
          return Err(Read(ReadonlyPopulated(p.annotation.iri)));
        }
        var argument := ReadArgument(env, model, p, objects, fuel - 1);
        if argument.Err? {
          return Err(argument.error);
        }
        var added := AddInstance(s, p, argument.value);
        if added.Err? {
          return Err(added.error);
        }
        s := added.value;
      }
      i := i + 1;
    }
    var v := CreateInstance(env, s);
    if v.Err? {
      return Err(v.error);
    }
    r := Ok(Some(v.value));
  }

  /** `readArgument`: the strategy is sized to the objects, and absent nested results are not added. */
  method ReadArgument(env: ReadEnv, model: seq<Statement>, p: FieldProperty, objects: seq<Term>, fuel: nat)
    returns (r: Result<Value, Error>)
    ensures r == Argument(env, model, p, objects, fuel)
    decreases fuel, 1
  {
    var start := StartArgument(p, |objects|);
    if start.Err? {
      return Err(start.error);
    }
    var s := start.value;
    var i := 0;
    while i < |objects|
      invariant 0 <= i <= |objects|
      invariant ReadObjects(env, model, p, objects, start.value, fuel) == ReadObjects(env, model, p, objects[i..], s, fuel)
    {
      assert objects[i..][1..] == objects[i + 1..];
      var next: Result<Option<Value>, Error>;
      if p.nested {
        if objects[i].Literal? {
          return Err(ClassCast);
        }
        next := ReadInternal(env, model, p.intrinsicType, objects[i], fuel);
      } else if p.valueConverter.None? {
        return Err(NullPointer);
      } else {
        match env.convert(p.valueConverter.value, objects[i])
        case Threw => return Err(Thrown);
        case Returned(v) => next := Ok(Some(v));
      }
      if next.Err? {
        return Err(next.error);
      }
      if next.value.Some? {
        var added := AddArgument(s, next.value.value);
        if added.Err? {
          return Err(added.error);
        }
        s := added.value;
      }
      i := i + 1;
    }
    r := CreateArgument(env, s);
  }

  // ---- properties of the reader ----

  /** The properties `readInternal` hands an argument for: those whose predicate has objects, in descriptor order. */
  function SuppliedProperties(model: seq<Statement>, subject: Term, props: seq<FieldProperty>): (ps: seq<FieldProperty>)
    ensures |ps| <= |props|
    ensures forall q :: q in ps ==> q in props && q.annotation.PredicateAnnotation? && |ObjectsOf(model, subject, q)| > 0
  {
    if |props| == 0 then []
    else
      var p := props[0];
      (if p.annotation.PredicateAnnotation? && |ObjectsOf(model, subject, p)| > 0 then [p] else [])
        + SuppliedProperties(model, subject, props[1..])
  }

  /** `strategy.add(props[i], args[i])` for each `i` in turn, stopping at the first failure. */
  function AddAll(s: InstanceState, props: seq<FieldProperty>, args: seq<Value>): Result<InstanceState, Error>
    requires |props| == |args|
    decreases |props|
  {
    if |props| == 0 then Ok(s)
    else
      var s' :- AddInstance(s, props[0], args[0]);
      AddAll(s', props[1..], args[1..])
  }

  /**
   * A successful pass over the predicates met the required/readonly table for
   * every property: no required writable predicate was missing and no
   * readonly one had objects.
   */
  lemma {:induction false} ReadPropertiesAdmitted(env: ReadEnv, model: seq<Statement>, subject: Term,
                                                  props: seq<FieldProperty>, s: InstanceState, fuel: nat)
    requires ReadProperties(env, model, subject, props, s, fuel).Ok?
    ensures forall i :: 0 <= i < |props| ==>
              (props[i].annotation.PredicateAnnotation?
               && !Decide(props[i].annotation, |ObjectsOf(model, subject, props[i])| > 0).Reject?)
    decreases |props|
  {
    if |props| > 0 {
      var p, rest := props[0], props[1..];
      assert forall i :: 1 <= i < |props| ==> props[i] == rest[i - 1];
      var objects := ObjectsOf(model, subject, p);
      if |objects| == 0 {
        ReadPropertiesAdmitted(env, model, subject, rest, s, fuel);
      } else {
        var argument := Argument(env, model, p, objects, fuel).value;
        ReadPropertiesAdmitted(env, model, subject, rest, AddInstance(s, p, argument).value, fuel);
      }
    }
  }

  /** The arguments of the supplied properties, when each can be read. */
  predicate SuppliedArguments(env: ReadEnv, model: seq<Statement>, subject: Term, supplied: seq<FieldProperty>,
                              args: seq<Value>, fuel: nat)
    requires forall q :: q in supplied ==> q.annotation.PredicateAnnotation?
  {
    && |args| == |supplied|
    && forall j :: 0 <= j < |supplied| ==>
         Argument(env, model, supplied[j], ObjectsOf(model, subject, supplied[j]), fuel) == Ok(args[j])
  }

  /**
   * A successful pass over the predicates filled the instance strategy with
   * exactly one `add` per property whose predicate has objects, in descriptor
   * order, each with that property's argument.
   */
  lemma {:induction false} ReadPropertiesSupplies(env: ReadEnv, model: seq<Statement>, subject: Term,
                                                  props: seq<FieldProperty>, s: InstanceState, fuel: nat)
    requires ReadProperties(env, model, subject, props, s, fuel).Ok?
    ensures var supplied := SuppliedProperties(model, subject, props);
            exists args: seq<Value> ::
              && SuppliedArguments(env, model, subject, supplied, args, fuel)
              && AddAll(s, supplied, args) == ReadProperties(env, model, subject, props, s, fuel)
    decreases |props|
  {
    var result := ReadProperties(env, model, subject, props, s, fuel);
    if |props| == 0 {
      assert SuppliedArguments(env, model, subject, [], [], fuel);
      assert AddAll(s, [], []) == result;
    } else {
      var p, rest := props[0], props[1..];
      var objects := ObjectsOf(model, subject, p);
      var later := SuppliedProperties(model, subject, rest);
      if |objects| == 0 {
        ReadPropertiesSupplies(env, model, subject, rest, s, fuel);
        var args :| SuppliedArguments(env, model, subject, later, args, fuel) && AddAll(s, later, args) == result;
        assert SuppliedProperties(model, subject, props) == later;
      } else {
        var argument := Argument(env, model, p, objects, fuel).value;
        var s' := AddInstance(s, p, argument).value;
        ReadPropertiesSupplies(env, model, subject, rest, s', fuel);
        var args' :| SuppliedArguments(env, model, subject, later, args', fuel) && AddAll(s', later, args') == result;
        SuppliedCons(env, model, subject, p, later, argument, args', fuel);
        assert AddAll(s, [p] + later, [argument] + args') == result by {
          assert ([p] + later)[1..] == later && ([argument] + args')[1..] == args';
        }
      }
    }
  }

  /** Supplying one more property in front, with its argument. */
  lemma SuppliedCons(env: ReadEnv, model: seq<Statement>, subject: Term, p: FieldProperty, later: seq<FieldProperty>,
                     argument: Value, args: seq<Value>, fuel: nat)
    requires p.annotation.PredicateAnnotation? && forall q :: q in later ==> q.annotation.PredicateAnnotation?
    requires Argument(env, model, p, ObjectsOf(model, subject, p), fuel) == Ok(argument)
    requires SuppliedArguments(env, model, subject, later, args, fuel)
    ensures SuppliedArguments(env, model, subject, [p] + later, [argument] + args, fuel)
  {
    assert ([p] + later)[1..] == later && ([argument] + args)[1..] == args;
  }

  /** The values the objects contribute to the argument strategy, in order: absent nested results are left out. */
  function Kept(env: ReadEnv, model: seq<Statement>, p: FieldProperty, objects: seq<Term>, fuel: nat): (vs: seq<Value>)
    ensures |vs| <= |objects|
  {
    if |objects| == 0 then []
    else
      (match ReadObject(env, model, p, objects[0], fuel)
       case Ok(Some(v)) => [v]
       case _ => [])
      + Kept(env, model, p, objects[1..], fuel)
  }

  /** An object that contributes nothing leaves the kept values short of the objects. */
  lemma {:induction false} KeptShort(env: ReadEnv, model: seq<Statement>, p: FieldProperty, objects: seq<Term>, fuel: nat, i: nat)
    requires i < |objects| && ReadObject(env, model, p, objects[i], fuel) == Ok(None)
    ensures |Kept(env, model, p, objects, fuel)| < |objects|
    decreases i
  {
    if i > 0 {
      assert objects[1..][i - 1] == objects[i];
      KeptShort(env, model, p, objects[1..], fuel, i - 1);
    }
  }

  /** Filling an array strategy appends exactly the kept values, in order. */
  lemma {:induction false} ArrayObjectsKept(env: ReadEnv, model: seq<Statement>, p: FieldProperty, objects: seq<Term>,
                                            a: ArrayArgumentStrategy.Collected, fuel: nat)
    requires ReadObjects(env, model, p, objects, ArrayState(a), fuel).Ok?
    ensures ReadObjects(env, model, p, objects, ArrayState(a), fuel).value
            == ArrayState(a.(values := a.values + Kept(env, model, p, objects, fuel)))
    decreases |objects|
  {
    if |objects| == 0 {
      assert a.values + [] == a.values;
    } else {
      match ReadObject(env, model, p, objects[0], fuel)
      case Ok(None) =>
        ArrayObjectsKept(env, model, p, objects[1..], a, fuel);
      case Ok(Some(v)) =>
        var a' := a.(values := a.values + [v]);
        ArrayObjectsKept(env, model, p, objects[1..], a', fuel);
        assert a.values + [v] + Kept(env, model, p, objects[1..], fuel)
               == a.values + Kept(env, model, p, objects, fuel);
    }
  }

  /**
   * An array argument holds one value per object, in the objects' order. The
   * array is sized to the objects before any is read, so a nested object that
   * is not a subject of the model (its read is absent) makes the argument fail.
   */
  lemma ArrayArgumentFull(env: ReadEnv, model: seq<Statement>, p: FieldProperty, objects: seq<Term>, fuel: nat)
    requires p.factory == ArrayArguments
    ensures Argument(env, model, p, objects, fuel).Ok? ==>
              && |Kept(env, model, p, objects, fuel)| == |objects|
              && Argument(env, model, p, objects, fuel) == Ok(Arr(ArrayOf(p.intrinsicType), Kept(env, model, p, objects, fuel)))
    ensures p.nested && (exists i :: 0 <= i < |objects| && !objects[i].Literal? && !HasSubject(model, objects[i])) ==>
              Argument(env, model, p, objects, fuel).Err?
  {
    var start := StartArgument(p, |objects|);
    if start.Ok? && ReadObjects(env, model, p, objects, start.value, fuel).Ok? {
      ArrayObjectsKept(env, model, p, objects, start.value.collected, fuel);
      assert [] + Kept(env, model, p, objects, fuel) == Kept(env, model, p, objects, fuel);
    }
    if p.nested && exists i :: 0 <= i < |objects| && !objects[i].Literal? && !HasSubject(model, objects[i]) {
      var i :| 0 <= i < |objects| && !objects[i].Literal? && !HasSubject(model, objects[i]);
      KeptShort(env, model, p, objects, fuel, i);
    }
  }

  /** A scalar property whose converter succeeds on every object keeps the converted objects, in order. */
  lemma {:induction false} ScalarKept(env: ReadEnv, model: seq<Statement>, p: FieldProperty, objects: seq<Term>, fuel: nat)
    requires !p.nested && p.valueConverter.Some?
    requires forall o :: o in objects ==> env.convert(p.valueConverter.value, o).Returned?
    ensures Kept(env, model, p, objects, fuel)
            == seq(|objects|, i requires 0 <= i < |objects| => env.convert(p.valueConverter.value, objects[i]).value)
    decreases |objects|
  {
    if |objects| > 0 {
      ScalarKept(env, model, p, objects[1..], fuel);
    }
  }
}
