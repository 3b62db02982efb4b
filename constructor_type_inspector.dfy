/**
 * `ConstructorTypeInspector`: finds the properties of a class through its
 * `@ConstructorProperties` constructor, one candidate per constructor parameter.
 */
module ConstructorTypeInspector {
  import opened Wrappers
  import opened Reflection
  import opened Errors
  import opened Spi
  import opened Naming
  import opened IntrinsicTypes
  import opened PropertyAnalysis
  import opened Inspection

  /** `supports`: some declared constructor carries `@ConstructorProperties`. */
  predicate Supports(u: Universe, c: JClass)
  {
    FirstPropertiesConstructor(Decl(u, c).constructors).Some?
  }

  lemma SupportsIffAnnotatedConstructor(u: Universe, c: JClass)
    ensures Supports(u, c) <==> exists k :: k in Decl(u, c).constructors && k.constructorProperties.Some?
  {
  }

  /**
   * The name parameter `i` stands for: its compiled name when the class keeps
   * parameter names, else the `i`-th entry of `@ConstructorProperties`, which
   * may be missing.
   */
  function ArgumentName(ctor: ConstructorDecl, i: nat): Result<string, Error>
    requires i < |ctor.params| && ctor.constructorProperties.Some?
  {
    if ctor.params[i].compiledName.Some? then Ok(ctor.params[i].compiledName.value)
    else if i < |ctor.constructorProperties.value| then Ok(ctor.constructorProperties.value[i])
    else Err(IndexOutOfBounds)
  }

  /** The outcome of parameter `i` of the chosen constructor (one iteration of the loop). */
  function ParameterStep(u: Universe, c: JClass, k: AnnotationKind, resolvers: seq<Resolver>,
                         handlers: seq<WrapperHandler>, ctor: ConstructorDecl, i: nat): Step
    requires i < |ctor.params| && ctor.constructorProperties.Some?
  {
    match ArgumentName(ctor, i)
    case Err(e) => Fail(e)
    case Ok(name) =>
      match GetDeclaredField(u, c, name)
      case None => Fail(Analysis(NoFieldForArgument(name)))
      case Some(field) =>
        match GetMethod(u, c, GetterName(field.fieldType, field.name), [])
        case None => Fail(Analysis(NoGetter(name)))
        case Some(getter) =>
          match AnnotationOf(field.annotations, k).Or(AnnotationOf(getter.annotations, k))
          case None => Skip
          case Some(a) => Candidate(u, c, resolvers, handlers, a, field, getter, i)
  }

  /** An annotated parameter: its property, or the resolver's exception. */
  function Candidate(u: Universe, c: JClass, resolvers: seq<Resolver>, handlers: seq<WrapperHandler>,
                     a: Annotation, field: FieldDecl, getter: MethodDecl, i: nat): Step
  {
    match FirstResolved(u, resolvers, field.genericType, field.fieldType)
    case Err(e) => Fail(e)
    case Ok(intrinsic) =>
      Yield(EmptyDraft(ConstructorKind).(
        annotation := Some(a), name := Some(field.name), propertyType := Some(field.fieldType),
        accessor := Some(HandleOf(c, getter)), index := Some(i), intrinsicType := Some(intrinsic),
        wrapperHandler := FirstHandler(handlers, getter.returnType)))
  }

  function ParameterSteps(u: Universe, c: JClass, k: AnnotationKind, resolvers: seq<Resolver>,
                          handlers: seq<WrapperHandler>, ctor: ConstructorDecl): seq<Step>
    requires ctor.constructorProperties.Some?
  {
    seq(|ctor.params|, i requires 0 <= i < |ctor.params| => ParameterStep(u, c, k, resolvers, handlers, ctor, i))
  }

  /** `inspect(type, k, resolvers, handlers, consumer)`, as the builders the consumer receives. */
  function ConstructorInspection(u: Universe, c: JClass, k: AnnotationKind, resolvers: seq<Resolver>,
                                 handlers: seq<WrapperHandler>): Inspection
  {
    match FirstPropertiesConstructor(Decl(u, c).constructors)
    case None => Inspection([], Some(Analysis(NoAnnotatedConstructor)))
    case Some(ctor) => Run(ParameterSteps(u, c, k, resolvers, handlers, ctor))
  }

  /** One iteration of the inspection loop: the checks on parameter `i`, and a fresh builder if it is annotated. */
  method InspectParameter(u: Universe, c: JClass, k: AnnotationKind, resolvers: seq<Resolver>,
                          handlers: seq<WrapperHandler>, ctor: ConstructorDecl, i: nat)
    returns (step: Step)
    requires i < |ctor.params| && ctor.constructorProperties.Some?
    ensures step == ParameterStep(u, c, k, resolvers, handlers, ctor, i)
  {
    var parameter := ctor.params[i];
    var names := ctor.constructorProperties.value;
    var name: string;
    if parameter.compiledName.Some? {
      name := parameter.compiledName.value;
    } else if i < |names| {
      name := names[i];
    } else {
      return Fail(IndexOutOfBounds);
    }
    assert ArgumentName(ctor, i) == Ok(name);
    var field := GetDeclaredField(u, c, name);
    if field.None? {
      return Fail(Analysis(NoFieldForArgument(name)));
    }
    var getter := GetMethod(u, c, GetterName(field.value.fieldType, field.value.name), []);
    if getter.None? {
      return Fail(Analysis(NoGetter(name)));
    }
    var annotation := AnnotationOf(field.value.annotations, k).Or(AnnotationOf(getter.value.annotations, k));
    if annotation.None? {
      return Skip;
    }
    step := BuildCandidate(u, c, resolvers, handlers, annotation.value, field.value, getter.value, i);
  }

  /** The builder filled in for an annotated parameter. */
  method BuildCandidate(u: Universe, c: JClass, resolvers: seq<Resolver>, handlers: seq<WrapperHandler>,
                        a: Annotation, field: FieldDecl, getter: MethodDecl, i: nat)
    returns (step: Step)
    ensures step == Candidate(u, c, resolvers, handlers, a, field, getter, i)
  {
    var builder := new PropertyBuilder(ConstructorKind);
    builder := builder.Annotation(a);
    builder := builder.Name(field.name);
    builder := builder.Type(field.fieldType);
    builder := builder.Accessor(HandleOf(c, getter));
    builder := builder.Index(i);
    var resolved := FirstResolved(u, resolvers, field.genericType, field.fieldType);
    if resolved.Err? {
      return Fail(resolved.error);
    }
    builder := builder.IntrinsicType(resolved.value);
    var handler := FirstHandler(handlers, getter.returnType);
    if handler.Some? {
      builder := builder.WrapperHandler(handler.value);
    }
    step := Yield(builder.State());
  }

  /** The inspection loop: one iteration per constructor parameter, in order, until one fails. */
  method Inspect(u: Universe, c: JClass, k: AnnotationKind, resolvers: seq<Resolver>, handlers: seq<WrapperHandler>)
    returns (r: Inspection)
    ensures r == ConstructorInspection(u, c, k, resolvers, handlers)
  {
    var found := FirstPropertiesConstructor(Decl(u, c).constructors);
    if found.None? {
      return Inspection([], Some(Analysis(NoAnnotatedConstructor)));
    }
    var ctor := found.value;
    ghost var steps := ParameterSteps(u, c, k, resolvers, handlers, ctor);
    var yielded: seq<Draft> := [];
    var failure: Option<Error> := None;
    var i := 0;
    while i < |ctor.params| && failure.None?
      invariant 0 <= i <= |ctor.params|
      invariant failure.None? ==> Run(steps) == Prepend(yielded, Run(steps[i..]))
      invariant failure.Some? ==> Run(steps) == Inspection(yielded, failure)
    {
      var step := InspectParameter(u, c, k, resolvers, handlers, ctor, i);
      assert steps[i] == step;
      Advance(steps, i, yielded);
      match step {
        case Fail(e) =>
          failure := Some(e);
        case Skip =>
        case Yield(d) =>
          yielded := yielded + [d];
      }
      i := i + 1;
    }
    if failure.None? {
      Finish(steps, yielded);
    }
    assert Run(steps) == Inspection(yielded, failure);
    assert ConstructorInspection(u, c, k, resolvers, handlers) == Run(steps);
    r := Inspection(yielded, failure);
  }

  // ---- properties of the inspection ----

  /** Without an annotated constructor the inspection fails at once, before any callback. */
  lemma NoConstructorFails(u: Universe, c: JClass, k: AnnotationKind, resolvers: seq<Resolver>, handlers: seq<WrapperHandler>)
    requires !Supports(u, c)
    ensures ConstructorInspection(u, c, k, resolvers, handlers) == Inspection([], Some(Analysis(NoAnnotatedConstructor)))
  {
  }

  /**
   * What a builder for parameter `i` holds: the parameter's index, the
   * annotation from the field or else from the getter, the field's name and
   * type, the getter's handle (`is`/`get` plus the capitalised name, no
   * parameters), the first supporting resolver's class (else the declared type)
   * and the first wrapper handler for the getter's return type.
   */
  ghost predicate DescribesParameter(u: Universe, c: JClass, k: AnnotationKind, resolvers: seq<Resolver>,
                                     handlers: seq<WrapperHandler>, ctor: ConstructorDecl, i: nat, d: Draft)
    requires i < |ctor.params| && ctor.constructorProperties.Some?
  {
    && ArgumentName(ctor, i).Ok?
    && var name := ArgumentName(ctor, i).value;
    && GetDeclaredField(u, c, name).Some?
    && var field := GetDeclaredField(u, c, name).value;
    && GetMethod(u, c, GetterName(field.fieldType, field.name), []).Some?
    && var getter := GetMethod(u, c, GetterName(field.fieldType, field.name), []).value;
    && d.kind == ConstructorKind && d.index == Some(i)
    && d.factory.None? && d.valueConverter.None? && !d.nested
    && d.annotation.Some? && d.annotation == AnnotationOf(field.annotations, k).Or(AnnotationOf(getter.annotations, k))
    && d.name == Some(name) && d.propertyType == Some(field.fieldType)
    && d.accessor == Some(HandleOf(c, getter))
    && d.intrinsicType.Some? && Ok(d.intrinsicType.value) == FirstResolved(u, resolvers, field.genericType, field.fieldType)
    && d.wrapperHandler == FirstHandler(handlers, getter.returnType)
  }

  lemma StepDescribesParameter(u: Universe, c: JClass, k: AnnotationKind, resolvers: seq<Resolver>,
                               handlers: seq<WrapperHandler>, ctor: ConstructorDecl, i: nat)
    requires i < |ctor.params| && ctor.constructorProperties.Some?
    requires ParameterStep(u, c, k, resolvers, handlers, ctor, i).Yield?
    ensures DescribesParameter(u, c, k, resolvers, handlers, ctor, i, ParameterStep(u, c, k, resolvers, handlers, ctor, i).draft)
  {
  }

  /** Every builder the consumer receives describes one parameter of the first annotated constructor. */
  lemma YieldedDescribeParameters(u: Universe, c: JClass, k: AnnotationKind, resolvers: seq<Resolver>,
                                  handlers: seq<WrapperHandler>, j: nat)
    requires j < |ConstructorInspection(u, c, k, resolvers, handlers).yielded|
    ensures Supports(u, c)
    ensures var ctor := FirstPropertiesConstructor(Decl(u, c).constructors).value;
            exists i :: 0 <= i < |ctor.params| &&
              DescribesParameter(u, c, k, resolvers, handlers, ctor, i, ConstructorInspection(u, c, k, resolvers, handlers).yielded[j])
  {
    var ctor := FirstPropertiesConstructor(Decl(u, c).constructors).value;
    var steps := ParameterSteps(u, c, k, resolvers, handlers, ctor);
    YieldedComeFromSteps(steps, j);
    var i :| 0 <= i < Stop(steps) && steps[i] == Yield(Run(steps).yielded[j]);
    StepDescribesParameter(u, c, k, resolvers, handlers, ctor, i);
  }

  lemma StepIndex(u: Universe, c: JClass, k: AnnotationKind, resolvers: seq<Resolver>,
                  handlers: seq<WrapperHandler>, ctor: ConstructorDecl, i: nat)
    requires i < |ctor.params| && ctor.constructorProperties.Some?
    ensures ParameterStep(u, c, k, resolvers, handlers, ctor, i).Yield? ==>
              ParameterStep(u, c, k, resolvers, handlers, ctor, i).draft.index == Some(i)
  {
  }

  /** Callbacks follow the parameter order: the received indices strictly increase. */
  lemma IndicesIncrease(u: Universe, c: JClass, k: AnnotationKind, resolvers: seq<Resolver>,
                        handlers: seq<WrapperHandler>, j: nat, j': nat)
    requires j < j' < |ConstructorInspection(u, c, k, resolvers, handlers).yielded|
    ensures ConstructorInspection(u, c, k, resolvers, handlers).yielded[j].index.Some?
    ensures ConstructorInspection(u, c, k, resolvers, handlers).yielded[j'].index.Some?
    ensures ConstructorInspection(u, c, k, resolvers, handlers).yielded[j].index.value
          < ConstructorInspection(u, c, k, resolvers, handlers).yielded[j'].index.value
  {
    var ctor := FirstPropertiesConstructor(Decl(u, c).constructors).value;
    var steps := ParameterSteps(u, c, k, resolvers, handlers, ctor);
    forall i | 0 <= i < |steps| && steps[i].Yield?
      ensures steps[i].draft.index == Some(0 + i)
    {
      StepIndex(u, c, k, resolvers, handlers, ctor, i);
    }
    IndexedRunIncreasing(steps, 0);
  }

  /**
   * A parameter whose field and getter both lack the annotation yields nothing;
   * a parameter without a declared field or without a getter is an analysis error.
   */
  lemma ParameterOutcomes(u: Universe, c: JClass, k: AnnotationKind, resolvers: seq<Resolver>,
                          handlers: seq<WrapperHandler>, ctor: ConstructorDecl, i: nat, name: string)
    requires i < |ctor.params| && ctor.constructorProperties.Some? && ArgumentName(ctor, i) == Ok(name)
    ensures GetDeclaredField(u, c, name).None? ==>
              ParameterStep(u, c, k, resolvers, handlers, ctor, i) == Fail(Analysis(NoFieldForArgument(name)))
    ensures GetDeclaredField(u, c, name).Some? ==>
              var field := GetDeclaredField(u, c, name).value;
              var getter := GetMethod(u, c, GetterName(field.fieldType, field.name), []);
              && (getter.None? ==> ParameterStep(u, c, k, resolvers, handlers, ctor, i) == Fail(Analysis(NoGetter(name))))
              && ((getter.Some? && AnnotationOf(field.annotations, k).None? && AnnotationOf(getter.value.annotations, k).None?)
                  ==> ParameterStep(u, c, k, resolvers, handlers, ctor, i) == Skip)
  {
  }

  /** In a closed universe every builder the consumer receives names classes of that universe only. */
  lemma YieldedInside(u: Universe, c: JClass, k: AnnotationKind, resolvers: seq<Resolver>,
                      handlers: seq<WrapperHandler>, j: nat)
    requires Closed(u) && ResolversClosed(resolvers, u.classes)
    requires j < |ConstructorInspection(u, c, k, resolvers, handlers).yielded|
    ensures DraftInside(ConstructorInspection(u, c, k, resolvers, handlers).yielded[j], u.classes)
  {
    YieldedDescribeParameters(u, c, k, resolvers, handlers, j);
    var ctor := FirstPropertiesConstructor(Decl(u, c).constructors).value;
    var i :| 0 <= i < |ctor.params| &&
      DescribesParameter(u, c, k, resolvers, handlers, ctor, i, ConstructorInspection(u, c, k, resolvers, handlers).yielded[j]);
    var field := GetDeclaredField(u, c, ArgumentName(ctor, i).value).value;
    DeclOfClosed(u, c);
    FirstResolvedStaysInside(u, resolvers, field.genericType, field.fieldType, u.classes);
  }
}
