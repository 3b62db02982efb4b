/**
 * `BeanTypeInspector`: finds the properties of a JavaBean, one candidate per
 * declared field, each of which must have a getter and a setter.
 */
module BeanTypeInspector {
  import opened Wrappers
  import opened Reflection
  import opened Errors
  import opened Naming
  import opened IntrinsicTypes
  import opened PropertyAnalysis
  import opened Inspection

  /** The annotation of kind `k` on the field, else on the getter, else on the setter. */
  function BeanAnnotation(field: FieldDecl, getter: MethodDecl, setter: MethodDecl, k: AnnotationKind): Option<Annotation>
  {
    AnnotationOf(field.annotations, k).Or(AnnotationOf(getter.annotations, k)).Or(AnnotationOf(setter.annotations, k))
  }

  /** The outcome of one declared field (one iteration of the loop). */
  function FieldStep(u: Universe, c: JClass, k: AnnotationKind, resolvers: seq<Resolver>, field: FieldDecl): Step
  {
    match GetMethod(u, c, GetterName(field.fieldType, field.name), [])
    case None => Fail(Analysis(NoGetter(field.name)))
    case Some(getter) =>
      match GetMethod(u, c, SetterName(field.name), [field.fieldType])
      case None => Fail(Analysis(NoSetter(field.name)))
      case Some(setter) =>
        match BeanAnnotation(field, getter, setter, k)
        case None => Skip
        case Some(a) => Candidate(u, c, resolvers, a, field, getter, setter)
  }

  /** An annotated field: its property, or the resolver's exception. */
  function Candidate(u: Universe, c: JClass, resolvers: seq<Resolver>, a: Annotation,
                     field: FieldDecl, getter: MethodDecl, setter: MethodDecl): Step
  {
    match FirstResolved(u, resolvers, field.genericType, field.fieldType)
    case Err(e) => Fail(e)
    case Ok(intrinsic) =>
      Yield(EmptyDraft(BeanKind).(
        intrinsicType := Some(intrinsic), annotation := Some(a),
        mutator := Some(HandleOf(c, setter)), accessor := Some(HandleOf(c, getter)),
        name := Some(field.name), propertyType := Some(field.fieldType)))
  }

  function FieldSteps(u: Universe, c: JClass, k: AnnotationKind, resolvers: seq<Resolver>): seq<Step>
  {
    var fields := Decl(u, c).fields;
    seq(|fields|, i requires 0 <= i < |fields| => FieldStep(u, c, k, resolvers, fields[i]))
  }

  /** `inspect(type, k, resolvers, consumer)`, as the builders the consumer receives. */
  function BeanInspection(u: Universe, c: JClass, k: AnnotationKind, resolvers: seq<Resolver>): Inspection
  {
    Run(FieldSteps(u, c, k, resolvers))
  }

  /** The loop's `i`-th step is the outcome of the `i`-th declared field. */
  lemma StepAt(u: Universe, c: JClass, k: AnnotationKind, resolvers: seq<Resolver>, i: nat)
    requires i < |Decl(u, c).fields|
    ensures |FieldSteps(u, c, k, resolvers)| == |Decl(u, c).fields|
    ensures FieldSteps(u, c, k, resolvers)[i] == FieldStep(u, c, k, resolvers, Decl(u, c).fields[i])
  {
  }

  /** One iteration of the inspection loop. */
  method InspectField(u: Universe, c: JClass, k: AnnotationKind, resolvers: seq<Resolver>, field: FieldDecl)
    returns (step: Step)
    ensures step == FieldStep(u, c, k, resolvers, field)
  {
    var getter := GetMethod(u, c, GetterName(field.fieldType, field.name), []);
    if getter.None? {
      return Fail(Analysis(NoGetter(field.name)));
    }
    var setter := GetMethod(u, c, SetterName(field.name), [field.fieldType]);
    if setter.None? {
      return Fail(Analysis(NoSetter(field.name)));
    }
    var annotation := AnnotationOf(field.annotations, k).Or(AnnotationOf(getter.value.annotations, k))
                                                        .Or(AnnotationOf(setter.value.annotations, k));
    if annotation.None? {
      return Skip;
    }
    step := BuildCandidate(u, c, resolvers, annotation.value, field, getter.value, setter.value);
  }

  /** The builder filled in for an annotated field. */
  method BuildCandidate(u: Universe, c: JClass, resolvers: seq<Resolver>, a: Annotation,
                        field: FieldDecl, getter: MethodDecl, setter: MethodDecl)
    returns (step: Step)
    ensures step == Candidate(u, c, resolvers, a, field, getter, setter)
  {
    var builder := new PropertyBuilder(BeanKind);
    var resolved := FirstResolved(u, resolvers, field.genericType, field.fieldType);
    if resolved.Err? {
      return Fail(resolved.error);
    }
    builder := builder.IntrinsicType(resolved.value);
    builder := builder.Annotation(a);
    builder := builder.Mutator(HandleOf(c, setter));
    builder := builder.Accessor(HandleOf(c, getter));
    builder := builder.Name(field.name);
    builder := builder.Type(field.fieldType);
    step := Yield(builder.State());
  }

  /** The inspection loop over the declared fields, in order, until one fails. */
  method Inspect(u: Universe, c: JClass, k: AnnotationKind, resolvers: seq<Resolver>) returns (r: Inspection)
    ensures r == BeanInspection(u, c, k, resolvers)
  {
    var fields := Decl(u, c).fields;
    ghost var steps := FieldSteps(u, c, k, resolvers);
    var yielded: seq<Draft> := [];
    var failure: Option<Error> := None;
    var i := 0;
    while i < |fields| && failure.None?
      invariant 0 <= i <= |fields| == |steps|
      invariant failure.None? ==> Run(steps) == Prepend(yielded, Run(steps[i..]))
      invariant failure.Some? ==> Run(steps) == Inspection(yielded, failure)
    {
      var step := InspectField(u, c, k, resolvers, fields[i]);
      StepAt(u, c, k, resolvers, i);
      Advance(steps, i, yielded);
      match step {
        case Fail(e) =>
          failure := Some(e);
        case Skip =>
        case Yield(d) =>
          yielded := yielded + [d];
      }
      i := i + 1;
    }
    if failure.None? {
      Finish(steps, yielded);
    }
    r := Inspection(yielded, failure);
  }

  // ---- properties of the inspection ----

  /**
   * What a builder for a field holds: the annotation from the field, else the
   * getter, else the setter; the field's name and type; the getter (`is`/`get`
   * plus the capitalised name) as accessor and the one-argument setter (`set`
   * plus the capitalised name, taking the field's type) as mutator; and the
   * first supporting resolver's class, else the declared type.
   */
  ghost predicate DescribesField(u: Universe, c: JClass, k: AnnotationKind, resolvers: seq<Resolver>, field: FieldDecl, d: Draft)
  {
    && GetMethod(u, c, GetterName(field.fieldType, field.name), []).Some?
    && GetMethod(u, c, SetterName(field.name), [field.fieldType]).Some?
    && var getter := GetMethod(u, c, GetterName(field.fieldType, field.name), []).value;
    && var setter := GetMethod(u, c, SetterName(field.name), [field.fieldType]).value;
    && d.kind == BeanKind
    && d.factory.None? && d.valueConverter.None? && !d.nested
    && d.annotation.Some? && d.annotation == BeanAnnotation(field, getter, setter, k)
    && d.name == Some(field.name) && d.propertyType == Some(field.fieldType)
    && d.accessor == Some(HandleOf(c, getter)) && d.mutator == Some(HandleOf(c, setter))
    && d.intrinsicType.Some? && Ok(d.intrinsicType.value) == FirstResolved(u, resolvers, field.genericType, field.fieldType)
    && d.wrapperHandler.None?
  }

  lemma StepDescribesField(u: Universe, c: JClass, k: AnnotationKind, resolvers: seq<Resolver>, field: FieldDecl)
    requires FieldStep(u, c, k, resolvers, field).Yield?
    ensures DescribesField(u, c, k, resolvers, field, FieldStep(u, c, k, resolvers, field).draft)
  {
  }

  /** Every builder the consumer receives describes one declared field. */
  lemma YieldedDescribeFields(u: Universe, c: JClass, k: AnnotationKind, resolvers: seq<Resolver>, j: nat)
    requires j < |BeanInspection(u, c, k, resolvers).yielded|
    ensures exists i :: 0 <= i < |Decl(u, c).fields| &&
              DescribesField(u, c, k, resolvers, Decl(u, c).fields[i], BeanInspection(u, c, k, resolvers).yielded[j])
  {
    var steps := FieldSteps(u, c, k, resolvers);
    YieldedComeFromSteps(steps, j);
    var i :| 0 <= i < Stop(steps) && steps[i] == Yield(Run(steps).yielded[j]);
    StepDescribesField(u, c, k, resolvers, Decl(u, c).fields[i]);
  }

  /**
   * Every declared field needs a getter and a setter, annotated or not: one
   * without either makes the inspection fail.
   */
  lemma MissingAccessorFails(u: Universe, c: JClass, k: AnnotationKind, resolvers: seq<Resolver>, i: nat)
    requires i < |Decl(u, c).fields|
    requires var field := Decl(u, c).fields[i];
             GetMethod(u, c, GetterName(field.fieldType, field.name), []).None?
             || GetMethod(u, c, SetterName(field.name), [field.fieldType]).None?
    ensures BeanInspection(u, c, k, resolvers).failure.Some?
  {
    var steps := FieldSteps(u, c, k, resolvers);
    assert steps[i].Fail?;
    RunCharacterisation(steps);
  }

  /** A field with no annotation on it, its getter or its setter never reaches the consumer. */
  lemma UnannotatedFieldSkipped(u: Universe, c: JClass, k: AnnotationKind, resolvers: seq<Resolver>, field: FieldDecl)
    requires GetMethod(u, c, GetterName(field.fieldType, field.name), []).Some?
    requires GetMethod(u, c, SetterName(field.name), [field.fieldType]).Some?
    requires AnnotationOf(field.annotations, k).None?
    requires AnnotationOf(GetMethod(u, c, GetterName(field.fieldType, field.name), []).value.annotations, k).None?
    requires AnnotationOf(GetMethod(u, c, SetterName(field.name), [field.fieldType]).value.annotations, k).None?
    ensures FieldStep(u, c, k, resolvers, field) == Skip
  {
  }

  /** When no field fails, the consumer receives one builder per annotated field, in declaration order. */
  lemma NoFailureYieldsEveryAnnotatedField(u: Universe, c: JClass, k: AnnotationKind, resolvers: seq<Resolver>)
    requires forall i :: 0 <= i < |Decl(u, c).fields| ==> !FieldStep(u, c, k, resolvers, Decl(u, c).fields[i]).Fail?
    ensures BeanInspection(u, c, k, resolvers) == Inspection(Drafts(FieldSteps(u, c, k, resolvers)), None)
  {
    NoFailureYieldsAll(FieldSteps(u, c, k, resolvers));
  }

  /** In a closed universe every builder the consumer receives names classes of that universe only. */
  lemma YieldedInside(u: Universe, c: JClass, k: AnnotationKind, resolvers: seq<Resolver>, j: nat)
    requires Closed(u) && ResolversClosed(resolvers, u.classes)
    requires j < |BeanInspection(u, c, k, resolvers).yielded|
    ensures DraftInside(BeanInspection(u, c, k, resolvers).yielded[j], u.classes)
  {
    YieldedDescribeFields(u, c, k, resolvers, j);
    var i :| 0 <= i < |Decl(u, c).fields| &&
      DescribesField(u, c, k, resolvers, Decl(u, c).fields[i], BeanInspection(u, c, k, resolvers).yielded[j]);
    var field := Decl(u, c).fields[i];
    DeclOfClosed(u, c);
    assert field in Decl(u, c).fields;
    FirstResolvedStaysInside(u, resolvers, field.genericType, field.fieldType, u.classes);
  }
}
