/**
 * `BuilderTypeInspector`: finds the properties of a class built through a
 * nested `Builder` class, one candidate per declared field, each of which must
 * have a getter on the class and a setter-like method on its builder.
 */
module BuilderTypeInspector {
  import opened Wrappers
  import opened Reflection
  import opened Errors
  import opened Spi
  import opened Naming
  import opened IntrinsicTypes
  import opened PropertyAnalysis
  import opened Inspection

  /** The name of the static factory method that creates a builder. */
  const BuilderFactoryMethodName := "builder"
  /** The simple name of the nested builder class. */
  const BuilderClassName := "Builder"

  /** `supports`: the class has a public static no-argument `builder()` method. */
  predicate Supports(u: Universe, c: JClass)
  {
    var m := GetMethod(u, c, BuilderFactoryMethodName, []);
    m.Some? && m.value.isStatic
  }

  /** The first declared member class whose simple name is `Builder`. */
  function BuilderClass(u: Universe, declared: seq<JClass>): (r: Option<JClass>)
    ensures r.Some? ==> r.value in declared && Decl(u, r.value).simpleName == BuilderClassName
    ensures r.Some? ==> exists i :: 0 <= i < |declared| && declared[i] == r.value
                           && forall j :: 0 <= j < i ==> Decl(u, declared[j]).simpleName != BuilderClassName
    ensures r.None? <==> forall d :: d in declared ==> Decl(u, d).simpleName != BuilderClassName
  {
    if |declared| == 0 then None
    else if Decl(u, declared[0]).simpleName == BuilderClassName then Some(declared[0])
    else
      var r := BuilderClass(u, declared[1..]);
      if r.Some? then
        ghost var i :| 0 <= i < |declared[1..]| && declared[1..][i] == r.value
                       && forall j :: 0 <= j < i ==> Decl(u, declared[1..][j]).simpleName != BuilderClassName;
        assert declared[i + 1] == r.value;
        r
      else
        assert forall d :: d in declared ==> d == declared[0] || d in declared[1..];
        r
  }

  /** The annotation of kind `k` on the field, else on the getter. */
  function BuilderAnnotation(field: FieldDecl, getter: MethodDecl, k: AnnotationKind): Option<Annotation>
  {
    AnnotationOf(field.annotations, k).Or(AnnotationOf(getter.annotations, k))
  }

  /** The outcome of one declared field (one iteration of the loop). */
  function FieldStep(u: Universe, c: JClass, k: AnnotationKind, resolvers: seq<Resolver>,
                     handlers: seq<WrapperHandler>, builderType: JClass, field: FieldDecl): Step
  {
    match GetMethod(u, c, GetterName(field.fieldType, field.name), [])
    case None => Fail(Analysis(NoGetter(field.name)))
    case Some(getter) =>
      match BuilderAnnotation(field, getter, k)
      case None => Skip
      case Some(a) => Candidate(u, c, resolvers, handlers, builderType, a, field, getter)
  }

  /** An annotated field: its property, the resolver's exception, or a missing builder method. */
  function Candidate(u: Universe, c: JClass, resolvers: seq<Resolver>, handlers: seq<WrapperHandler>,
                     builderType: JClass, a: Annotation, field: FieldDecl, getter: MethodDecl): Step
  {
    match FirstResolved(u, resolvers, field.genericType, field.fieldType)
    case Err(e) => Fail(e)
    case Ok(intrinsic) =>
      match GetDeclaredMethod(u, builderType, field.name, [intrinsic])
      case None => Fail(Analysis(NoBuilderMethod(field.name)))
      case Some(m) =>
        Yield(EmptyDraft(BuilderKind).(
          annotation := Some(a), name := Some(field.name), propertyType := Some(field.fieldType),
          accessor := Some(HandleOf(c, getter)), intrinsicType := Some(intrinsic),
          builderProperty := Some(HandleOf(builderType, m)),
          wrapperHandler := FirstHandler(handlers, getter.returnType)))
  }

  function FieldSteps(u: Universe, c: JClass, k: AnnotationKind, resolvers: seq<Resolver>,
                      handlers: seq<WrapperHandler>, builderType: JClass): seq<Step>
  {
    var fields := Decl(u, c).fields;
    seq(|fields|, i requires 0 <= i < |fields| => FieldStep(u, c, k, resolvers, handlers, builderType, fields[i]))
  }

  /** `inspect(type, k, resolvers, handlers, consumer)`, as the builders the consumer receives. */
  function BuilderInspection(u: Universe, c: JClass, k: AnnotationKind, resolvers: seq<Resolver>,
                             handlers: seq<WrapperHandler>): Inspection
  {
    match BuilderClass(u, Decl(u, c).declaredClasses)
    case None => Inspection([], Some(NoSuchElement))
    case Some(builderType) => Run(FieldSteps(u, c, k, resolvers, handlers, builderType))
  }

  /** One iteration of the inspection loop. */
  method InspectField(u: Universe, c: JClass, k: AnnotationKind, resolvers: seq<Resolver>,
                      handlers: seq<WrapperHandler>, builderType: JClass, field: FieldDecl)
    returns (step: Step)
    ensures step == FieldStep(u, c, k, resolvers, handlers, builderType, field)
  {
    var getter := GetMethod(u, c, GetterName(field.fieldType, field.name), []);
    if getter.None? {
      return Fail(Analysis(NoGetter(field.name)));
    }
    var annotation := AnnotationOf(field.annotations, k).Or(AnnotationOf(getter.value.annotations, k));
    if annotation.None? {
      return Skip;
    }
    step := BuildCandidate(u, c, resolvers, handlers, builderType, annotation.value, field, getter.value);
  }

  /** The builder filled in for an annotated field. */
  method BuildCandidate(u: Universe, c: JClass, resolvers: seq<Resolver>, handlers: seq<WrapperHandler>,
                        builderType: JClass, a: Annotation, field: FieldDecl, getter: MethodDecl)
    returns (step: Step)
    ensures step == Candidate(u, c, resolvers, handlers, builderType, a, field, getter)
  {
    var builder := new PropertyBuilder(BuilderKind);
    builder := builder.Annotation(a);
    builder := builder.Name(field.name);
    builder := builder.Type(field.fieldType);
    builder := builder.Accessor(HandleOf(c, getter));
    var resolved := FirstResolved(u, resolvers, field.genericType, field.fieldType);
    if resolved.Err? {
      return Fail(resolved.error);
    }
    builder := builder.IntrinsicType(resolved.value);
    var builderProperty := GetDeclaredMethod(u, builderType, field.name, [resolved.value]);
    if builderProperty.None? {
      return Fail(Analysis(NoBuilderMethod(field.name)));
    }
    builder := builder.BuilderProperty(HandleOf(builderType, builderProperty.value));
    var handler := FirstHandler(handlers, getter.returnType);
    if handler.Some? {
      builder := builder.WrapperHandler(handler.value);
    }
    step := Yield(builder.State());
  }

  /** The inspection: find the builder class, then loop over the declared fields until one fails. */
  method Inspect(u: Universe, c: JClass, k: AnnotationKind, resolvers: seq<Resolver>, handlers: seq<WrapperHandler>)
    returns (r: Inspection)
    ensures r == BuilderInspection(u, c, k, resolvers, handlers)
  {
    var found := BuilderClass(u, Decl(u, c).declaredClasses);
    if found.None? {
      return Inspection([], Some(NoSuchElement));
    }
    r := InspectFields(u, c, k, resolvers, handlers, found.value);
  }

  /** The loop over the declared fields, in order, until one fails. */
  method InspectFields(u: Universe, c: JClass, k: AnnotationKind, resolvers: seq<Resolver>,
                       handlers: seq<WrapperHandler>, builderType: JClass)
    returns (r: Inspection)
    ensures r == Run(FieldSteps(u, c, k, resolvers, handlers, builderType))
  {
    var fields := Decl(u, c).fields;
    ghost var steps := FieldSteps(u, c, k, resolvers, handlers, builderType);
    var yielded: seq<Draft> := [];
    var failure: Option<Error> := None;
    var i := 0;
    while i < |fields| && failure.None?
      invariant 0 <= i <= |fields|
      invariant failure.None? ==> Run(steps) == Prepend(yielded, Run(steps[i..]))
      invariant failure.Some? ==> Run(steps) == Inspection(yielded, failure)
    {
      var step := InspectField(u, c, k, resolvers, handlers, builderType, fields[i]);
      assert steps[i] == step;
      Advance(steps, i, yielded);
      match step {
        case Fail(e) =>
          failure := Some(e);
        case Skip =>
        case Yield(d) =>
          yielded := yielded + [d];
      }
      i := i + 1;
    }
    if failure.None? {
      Finish(steps, yielded);
    }
    r := Inspection(yielded, failure);
    assert Run(steps) == r;
  }

  // ---- properties of the inspection ----

  /**
   * What a builder for a field holds: the annotation from the field, else the
   * getter; the field's name and type; the getter as accessor; the resolved
   * intrinsic type; the builder class's declared method named after the field
   * and taking the intrinsic type; and the first wrapper handler supporting the
   * getter's return type, if any.
   */
  ghost predicate DescribesField(u: Universe, c: JClass, k: AnnotationKind, resolvers: seq<Resolver>,
                                 handlers: seq<WrapperHandler>, builderType: JClass, field: FieldDecl, d: Draft)
  {
    && GetMethod(u, c, GetterName(field.fieldType, field.name), []).Some?
    && var getter := GetMethod(u, c, GetterName(field.fieldType, field.name), []).value;
    && d.kind == BuilderKind
    && d.factory.None? && d.valueConverter.None? && !d.nested
    && d.annotation.Some? && d.annotation == BuilderAnnotation(field, getter, k)
    && d.name == Some(field.name) && d.propertyType == Some(field.fieldType)
    && d.accessor == Some(HandleOf(c, getter))
    && d.intrinsicType.Some? && Ok(d.intrinsicType.value) == FirstResolved(u, resolvers, field.genericType, field.fieldType)
    && GetDeclaredMethod(u, builderType, field.name, [d.intrinsicType.value]).Some?
    && d.builderProperty == Some(HandleOf(builderType, GetDeclaredMethod(u, builderType, field.name, [d.intrinsicType.value]).value))
    && d.wrapperHandler == FirstHandler(handlers, getter.returnType)
  }

  lemma StepDescribesField(u: Universe, c: JClass, k: AnnotationKind, resolvers: seq<Resolver>,
                           handlers: seq<WrapperHandler>, builderType: JClass, field: FieldDecl)
    requires FieldStep(u, c, k, resolvers, handlers, builderType, field).Yield?
    ensures DescribesField(u, c, k, resolvers, handlers, builderType, field,
                           FieldStep(u, c, k, resolvers, handlers, builderType, field).draft)
  {
  }

  /** Every builder the consumer receives describes one declared field, against the nested `Builder` class. */
  lemma YieldedDescribeFields(u: Universe, c: JClass, k: AnnotationKind, resolvers: seq<Resolver>,
                              handlers: seq<WrapperHandler>, j: nat)
    requires j < |BuilderInspection(u, c, k, resolvers, handlers).yielded|
    ensures BuilderClass(u, Decl(u, c).declaredClasses).Some?
    ensures exists i :: 0 <= i < |Decl(u, c).fields| &&
              DescribesField(u, c, k, resolvers, handlers, BuilderClass(u, Decl(u, c).declaredClasses).value,
                             Decl(u, c).fields[i], BuilderInspection(u, c, k, resolvers, handlers).yielded[j])
  {
    var builderType := BuilderClass(u, Decl(u, c).declaredClasses).value;
    var steps := FieldSteps(u, c, k, resolvers, handlers, builderType);
    YieldedComeFromSteps(steps, j);
    var i :| 0 <= i < Stop(steps) && steps[i] == Yield(Run(steps).yielded[j]);
    StepDescribesField(u, c, k, resolvers, handlers, builderType, Decl(u, c).fields[i]);
  }

  /** Without a nested `Builder` class nothing is inspected and `NoSuchElementException` is thrown. */
  lemma NoBuilderClassFails(u: Universe, c: JClass, k: AnnotationKind, resolvers: seq<Resolver>, handlers: seq<WrapperHandler>)
    requires forall d :: d in Decl(u, c).declaredClasses ==> Decl(u, d).simpleName != BuilderClassName
    ensures BuilderInspection(u, c, k, resolvers, handlers) == Inspection([], Some(NoSuchElement))
  {
  }

  /** Every declared field needs a getter, annotated or not: one without makes the inspection fail. */
  lemma MissingGetterFails(u: Universe, c: JClass, k: AnnotationKind, resolvers: seq<Resolver>,
                           handlers: seq<WrapperHandler>, i: nat)
    requires i < |Decl(u, c).fields|
    requires var field := Decl(u, c).fields[i];
             GetMethod(u, c, GetterName(field.fieldType, field.name), []).None?
    ensures BuilderInspection(u, c, k, resolvers, handlers).failure.Some?
  {
    var found := BuilderClass(u, Decl(u, c).declaredClasses);
    if found.Some? {
      var steps := FieldSteps(u, c, k, resolvers, handlers, found.value);
      assert steps[i].Fail?;
      RunCharacterisation(steps);
    }
  }

  /** In a closed universe every builder the consumer receives names classes of that universe only. */
  lemma YieldedInside(u: Universe, c: JClass, k: AnnotationKind, resolvers: seq<Resolver>,
                      handlers: seq<WrapperHandler>, j: nat)
    requires Closed(u) && ResolversClosed(resolvers, u.classes)
    requires j < |BuilderInspection(u, c, k, resolvers, handlers).yielded|
    ensures DraftInside(BuilderInspection(u, c, k, resolvers, handlers).yielded[j], u.classes)
  {
    YieldedDescribeFields(u, c, k, resolvers, handlers, j);
    var builderType := BuilderClass(u, Decl(u, c).declaredClasses).value;
    var i :| 0 <= i < |Decl(u, c).fields| &&
      DescribesField(u, c, k, resolvers, handlers, builderType, Decl(u, c).fields[i],
                     BuilderInspection(u, c, k, resolvers, handlers).yielded[j]);
    var field := Decl(u, c).fields[i];
    DeclOfClosed(u, c);
    assert field in Decl(u, c).fields;
    FirstResolvedStaysInside(u, resolvers, field.genericType, field.fieldType, u.classes);
  }
}
