/**
 * `RecordTypeInspector`: finds the properties of a record class, one candidate
 * per annotated record component.
 */
module RecordTypeInspector {
  import opened Wrappers
  import opened Reflection
  import opened Errors
  import opened IntrinsicTypes
  import opened PropertyAnalysis
  import opened Inspection

  /** `supports`: the class is a record. */
  predicate Supports(u: Universe, c: JClass)
  {
    Decl(u, c).isRecord
  }

  /** The outcome of one record component (one iteration of the loop). */
  function ComponentStep(u: Universe, c: JClass, k: AnnotationKind, resolvers: seq<Resolver>, component: ComponentDecl): Step
  {
    match AnnotationOf(component.annotations, k)
    case None => Skip
    case Some(a) =>
      match FirstResolved(u, resolvers, component.genericType, component.componentType)
      case Err(e) => Fail(e)
      case Ok(intrinsic) =>
        Yield(EmptyDraft(RecordKind).(
          intrinsicType := Some(intrinsic),
          accessor := Some(MethodRef(c, component.name, [])),
          name := Some(component.name), propertyType := Some(component.componentType),
          annotation := Some(a)))
  }

  function ComponentSteps(u: Universe, c: JClass, k: AnnotationKind, resolvers: seq<Resolver>,
                          components: seq<ComponentDecl>): (steps: seq<Step>)
    ensures |steps| == |components|
    ensures forall i :: 0 <= i < |components| ==> steps[i] == ComponentStep(u, c, k, resolvers, components[i])
  {
    seq(|components|, i requires 0 <= i < |components| => ComponentStep(u, c, k, resolvers, components[i]))
  }

  /**
   * `inspect(type, k, resolvers, consumer)`, as the builders the consumer
   * receives; `getRecordComponents()` is null for a class that is not a record,
   * and the loop over it throws `NullPointerException`.
   */
  function RecordInspection(u: Universe, c: JClass, k: AnnotationKind, resolvers: seq<Resolver>): Inspection
  {
    if !Decl(u, c).isRecord then Inspection([], Some(NullPointer))
    else Run(ComponentSteps(u, c, k, resolvers, Decl(u, c).components))
  }

  /** One iteration of the inspection loop. */
  method InspectComponent(u: Universe, c: JClass, k: AnnotationKind, resolvers: seq<Resolver>, component: ComponentDecl)
    returns (step: Step)
    ensures step == ComponentStep(u, c, k, resolvers, component)
  {
    var annotation := AnnotationOf(component.annotations, k);
    if annotation.None? {
      return Skip;
    }
    var builder := new PropertyBuilder(RecordKind);
    var resolved := FirstResolved(u, resolvers, component.genericType, component.componentType);
    if resolved.Err? {
      return Fail(resolved.error);
    }
    builder := builder.IntrinsicType(resolved.value);
    builder := builder.Accessor(MethodRef(c, component.name, []));
    builder := builder.Name(component.name);
    builder := builder.Type(component.componentType);
    builder := builder.Annotation(annotation.value);
    step := Yield(builder.State());
  }

  /** The inspection loop over the record components, in order, until one fails. */
  method Inspect(u: Universe, c: JClass, k: AnnotationKind, resolvers: seq<Resolver>) returns (r: Inspection)
    ensures r == RecordInspection(u, c, k, resolvers)
  {
    if !Decl(u, c).isRecord {
      return Inspection([], Some(NullPointer));
    }
    var components := Decl(u, c).components;
    ghost var steps := ComponentSteps(u, c, k, resolvers, components);
    var yielded: seq<Draft> := [];
    var failure: Option<Error> := None;
    var i := 0;
    while i < |components| && failure.None?
      invariant 0 <= i <= |components|
      invariant failure.None? ==> Run(steps) == Prepend(yielded, Run(steps[i..]))
      invariant failure.Some? ==> Run(steps) == Inspection(yielded, failure)
    {
      var step := InspectComponent(u, c, k, resolvers, components[i]);
      assert steps[i] == step;
      Advance(steps, i, yielded);
      match step {
        case Fail(e) =>
          failure := Some(e);
        case Skip =>
        case Yield(d) =>
          yielded := yielded + [d];
      }
      i := i + 1;
    }
    if failure.None? {
      Finish(steps, yielded);
    }
    r := Inspection(yielded, failure);
    assert Run(steps) == r;
  }

  // ---- properties of the inspection ----

  /** The names of the components annotated with kind `k`, in declaration order. */
  function AnnotatedNames(components: seq<ComponentDecl>, k: AnnotationKind): (names: seq<string>)
    ensures |names| <= |components|
  {
    if |components| == 0 then []
    else (if AnnotationOf(components[0].annotations, k).Some? then [components[0].name] else [])
         + AnnotatedNames(components[1..], k)
  }

  lemma {:induction false} DraftNames(u: Universe, c: JClass, k: AnnotationKind, resolvers: seq<Resolver>,
                                      components: seq<ComponentDecl>)
    ensures var ds := Drafts(ComponentSteps(u, c, k, resolvers, components));
            var names := AnnotatedNames(components, k);
            (forall i :: 0 <= i < |components| ==> !ComponentStep(u, c, k, resolvers, components[i]).Fail?) ==>
              |ds| == |names| && forall j :: 0 <= j < |ds| ==> ds[j].name == Some(names[j])
  {
    if |components| > 0 {
      var steps := ComponentSteps(u, c, k, resolvers, components);
      assert steps[1..] == ComponentSteps(u, c, k, resolvers, components[1..]);
      DraftNames(u, c, k, resolvers, components[1..]);
    }
  }

  /**
   * When every annotated component resolves, the consumer receives exactly one
   * builder per annotated component, in declaration order, named after it, and
   * nothing is thrown.
   */
  lemma YieldsAnnotatedComponents(u: Universe, c: JClass, k: AnnotationKind, resolvers: seq<Resolver>)
    requires Decl(u, c).isRecord
    requires forall p :: p in Decl(u, c).components && AnnotationOf(p.annotations, k).Some? ==>
               FirstResolved(u, resolvers, p.genericType, p.componentType).Ok?
    ensures RecordInspection(u, c, k, resolvers).failure.None?
    ensures var ds := RecordInspection(u, c, k, resolvers).yielded;
            var names := AnnotatedNames(Decl(u, c).components, k);
            |ds| == |names| && forall j :: 0 <= j < |ds| ==> ds[j].name == Some(names[j])
  {
    var components := Decl(u, c).components;
    var steps := ComponentSteps(u, c, k, resolvers, components);
    assert forall i :: 0 <= i < |steps| ==> !steps[i].Fail? by {
      forall i | 0 <= i < |steps|
        ensures !steps[i].Fail?
      {
        assert components[i] in components;
      }
    }
    NoFailureYieldsAll(steps);
    DraftNames(u, c, k, resolvers, components);
  }

  /**
   * What a builder for a component holds: the component's annotation, name and
   * type, its accessor method, and the resolved intrinsic type.
   */
  ghost predicate DescribesComponent(u: Universe, c: JClass, k: AnnotationKind, resolvers: seq<Resolver>,
                                     component: ComponentDecl, d: Draft)
  {
    && d.kind == RecordKind
    && d.factory.None? && d.valueConverter.None? && !d.nested
    && d.annotation.Some? && d.annotation == AnnotationOf(component.annotations, k)
    && d.name == Some(component.name) && d.propertyType == Some(component.componentType)
    && d.accessor == Some(MethodRef(c, component.name, []))
    && d.intrinsicType.Some? && Ok(d.intrinsicType.value) == FirstResolved(u, resolvers, component.genericType, component.componentType)
    && d.wrapperHandler.None?
  }

  /** Every builder the consumer receives describes one record component. */
  lemma YieldedDescribeComponents(u: Universe, c: JClass, k: AnnotationKind, resolvers: seq<Resolver>, j: nat)
    requires j < |RecordInspection(u, c, k, resolvers).yielded|
    ensures Supports(u, c)
    ensures exists i :: 0 <= i < |Decl(u, c).components| &&
              DescribesComponent(u, c, k, resolvers, Decl(u, c).components[i], RecordInspection(u, c, k, resolvers).yielded[j])
  {
    var steps := ComponentSteps(u, c, k, resolvers, Decl(u, c).components);
    YieldedComeFromSteps(steps, j);
    var i :| 0 <= i < Stop(steps) && steps[i] == Yield(Run(steps).yielded[j]);
    assert DescribesComponent(u, c, k, resolvers, Decl(u, c).components[i], steps[i].draft);
  }

  /** In a closed universe every builder the consumer receives names classes of that universe only. */
  lemma YieldedInside(u: Universe, c: JClass, k: AnnotationKind, resolvers: seq<Resolver>, j: nat)
    requires Closed(u) && ResolversClosed(resolvers, u.classes)
    requires j < |RecordInspection(u, c, k, resolvers).yielded|
    ensures DraftInside(RecordInspection(u, c, k, resolvers).yielded[j], u.classes)
  {
    YieldedDescribeComponents(u, c, k, resolvers, j);
    var i :| 0 <= i < |Decl(u, c).components| &&
      DescribesComponent(u, c, k, resolvers, Decl(u, c).components[i], RecordInspection(u, c, k, resolvers).yielded[j]);
    var component := Decl(u, c).components[i];
    DeclOfClosed(u, c);
    assert component in Decl(u, c).components;
    FirstResolvedStaysInside(u, resolvers, component.genericType, component.componentType, u.classes);
  }
}
