/**
 * `CoreTransmogAnalyzer`: turns a class into its `ClassAnalysis` descriptor,
 * inheriting from the superclass's descriptor, classifying every property as
 * nested or scalar, and analysing nested classes on the way. Descriptors are
 * cached per class; one top-level call keeps a stack of the classes it has
 * entered, which is never popped and guards against cycles.
 */
module Analyzer {
  import opened Wrappers
  import opened Reflection
  import opened Errors
  import opened Spi
  import opened TransmogUtil
  import opened IntrinsicTypes
  import opened PropertyAnalysis
  import opened ClassAnalysis
  import opened Inspection
  import ConstructorTypeInspector
  import BeanTypeInspector
  import BuilderTypeInspector
  import RecordTypeInspector
  import ArrayArgumentStrategy
  import RecordInstanceStrategy
  import ConstructorInstanceStrategy

  // ---- the registered service providers ----

  /**
   * A registered `TypeInspector`. The bean inspector's `supports` comes from a
   * base class outside this model and is given as the set of classes it accepts.
   */
  datatype TypeInspector = ConstructorInspector | BeanInspector(supported: set<JClass>) | BuilderInspector | RecordInspector

  predicate InspectorSupports(u: Universe, insp: TypeInspector, c: JClass)
  {
    match insp
    case ConstructorInspector => ConstructorTypeInspector.Supports(u, c)
    case BeanInspector(supported) => c in supported
    case BuilderInspector => BuilderTypeInspector.Supports(u, c)
    case RecordInspector => RecordTypeInspector.Supports(u, c)
  }

  /** `inspect(c, k, resolvers, handlers, consumer)` of a registered inspector. */
  function InspectionOf(u: Universe, insp: TypeInspector, c: JClass, k: AnnotationKind,
                        resolvers: seq<Resolver>, handlers: seq<WrapperHandler>): Inspection
  {
    match insp
    case ConstructorInspector => ConstructorTypeInspector.ConstructorInspection(u, c, k, resolvers, handlers)
    case BeanInspector(_) => BeanTypeInspector.BeanInspection(u, c, k, resolvers)
    case BuilderInspector => BuilderTypeInspector.BuilderInspection(u, c, k, resolvers, handlers)
    case RecordInspector => RecordTypeInspector.RecordInspection(u, c, k, resolvers)
  }

  method Inspect(u: Universe, insp: TypeInspector, c: JClass, k: AnnotationKind,
                 resolvers: seq<Resolver>, handlers: seq<WrapperHandler>) returns (r: Inspection)
    ensures r == InspectionOf(u, insp, c, k, resolvers, handlers)
  {
    match insp
    case ConstructorInspector =>
      r := ConstructorTypeInspector.Inspect(u, c, k, resolvers, handlers);
    case BeanInspector(_) =>
      r := BeanTypeInspector.Inspect(u, c, k, resolvers);
    case BuilderInspector =>
      r := BuilderTypeInspector.Inspect(u, c, k, resolvers, handlers);
    case RecordInspector =>
      r := RecordTypeInspector.Inspect(u, c, k, resolvers);
  }

  /** Every registered inspector hands over builders that name classes of a closed universe only. */
  lemma InspectedDraftsInside(u: Universe, insp: TypeInspector, c: JClass, k: AnnotationKind,
                              resolvers: seq<Resolver>, handlers: seq<WrapperHandler>)
    requires Closed(u) && ResolversClosed(resolvers, u.classes)
    ensures forall j :: 0 <= j < |InspectionOf(u, insp, c, k, resolvers, handlers).yielded| ==>
              DraftInside(InspectionOf(u, insp, c, k, resolvers, handlers).yielded[j], u.classes)
  {
    forall j | 0 <= j < |InspectionOf(u, insp, c, k, resolvers, handlers).yielded|
      ensures DraftInside(InspectionOf(u, insp, c, k, resolvers, handlers).yielded[j], u.classes)
    {
      match insp
      case ConstructorInspector => ConstructorTypeInspector.YieldedInside(u, c, k, resolvers, handlers, j);
      case BeanInspector(_) => BeanTypeInspector.YieldedInside(u, c, k, resolvers, j);
      case BuilderInspector => BuilderTypeInspector.YieldedInside(u, c, k, resolvers, handlers, j);
      case RecordInspector => RecordTypeInspector.YieldedInside(u, c, k, resolvers, j);
    }
  }

  predicate InstanceSupports(u: Universe, f: InstanceFactory, c: JClass)
  {
    match f
    case RecordInstances => RecordInstanceStrategy.FactorySupports(u, c)
    case ConstructorInstances => ConstructorInstanceStrategy.FactorySupports(u, c)
    case OtherInstances(_, supported) => c in supported
  }

  predicate ArgumentSupports(f: ArgumentFactory, t: JClass)
  {
    match f
    case ArrayArguments => ArrayArgumentStrategy.FactorySupports(t)
    case OtherArguments(_, supported) => t in supported
  }

  /** The first registered instance factory that supports the class. */
  function FirstInstanceFactory(u: Universe, factories: seq<InstanceFactory>, c: JClass): (r: Option<InstanceFactory>)
    ensures r.Some? ==> r.value in factories && InstanceSupports(u, r.value, c)
    ensures r.None? ==> forall x :: x in factories ==> !InstanceSupports(u, x, c)
  {
    if |factories| == 0 then None
    else if InstanceSupports(u, factories[0], c) then Some(factories[0])
    else FirstInstanceFactory(u, factories[1..], c)
  }

  /** The factory found is the first one, in registration order, that supports the class. */
  lemma {:induction false} FirstInstanceFactoryIsFirst(u: Universe, factories: seq<InstanceFactory>, c: JClass)
    requires FirstInstanceFactory(u, factories, c).Some?
    ensures exists i :: 0 <= i < |factories| && factories[i] == FirstInstanceFactory(u, factories, c).value
                        && forall j :: 0 <= j < i ==> !InstanceSupports(u, factories[j], c)
  {
    if !InstanceSupports(u, factories[0], c) {
      FirstInstanceFactoryIsFirst(u, factories[1..], c);
      var i :| 0 <= i < |factories[1..]| && factories[1..][i] == FirstInstanceFactory(u, factories[1..], c).value
               && forall j :: 0 <= j < i ==> !InstanceSupports(u, factories[1..][j], c);
      assert factories[i + 1] == factories[1..][i];
    } else {
      assert factories[0] == FirstInstanceFactory(u, factories, c).value;
    }
  }

  /** The first registered type inspector that supports the class. */
  function FirstInspector(u: Universe, inspectors: seq<TypeInspector>, c: JClass): (r: Option<TypeInspector>)
    ensures r.Some? ==> r.value in inspectors && InspectorSupports(u, r.value, c)
    ensures r.None? ==> forall x :: x in inspectors ==> !InspectorSupports(u, x, c)
  {
    if |inspectors| == 0 then None
    else if InspectorSupports(u, inspectors[0], c) then Some(inspectors[0])
    else FirstInspector(u, inspectors[1..], c)
  }

  /** The inspector found is the first one, in registration order, that supports the class. */
  lemma {:induction false} FirstInspectorIsFirst(u: Universe, inspectors: seq<TypeInspector>, c: JClass)
    requires FirstInspector(u, inspectors, c).Some?
    ensures exists i :: 0 <= i < |inspectors| && inspectors[i] == FirstInspector(u, inspectors, c).value
                        && forall j :: 0 <= j < i ==> !InspectorSupports(u, inspectors[j], c)
  {
    if !InspectorSupports(u, inspectors[0], c) {
      FirstInspectorIsFirst(u, inspectors[1..], c);
      var i :| 0 <= i < |inspectors[1..]| && inspectors[1..][i] == FirstInspector(u, inspectors[1..], c).value
               && forall j :: 0 <= j < i ==> !InspectorSupports(u, inspectors[1..][j], c);
      assert inspectors[i + 1] == inspectors[1..][i];
    } else {
      assert inspectors[0] == FirstInspector(u, inspectors, c).value;
    }
  }

  /** The first registered argument factory that supports the declared type. */
  function FirstArgumentFactory(factories: seq<ArgumentFactory>, t: JClass): (r: Option<ArgumentFactory>)
    ensures r.Some? ==> r.value in factories && ArgumentSupports(r.value, t)
    ensures r.None? ==> forall x :: x in factories ==> !ArgumentSupports(x, t)
  {
    if |factories| == 0 then None
    else if ArgumentSupports(factories[0], t) then Some(factories[0])
    else FirstArgumentFactory(factories[1..], t)
  }

  /** The argument factory found is the first one, in registration order, that supports the declared type. */
  lemma {:induction false} FirstArgumentFactoryIsFirst(factories: seq<ArgumentFactory>, t: JClass)
    requires FirstArgumentFactory(factories, t).Some?
    ensures exists i :: 0 <= i < |factories| && factories[i] == FirstArgumentFactory(factories, t).value
                        && forall j :: 0 <= j < i ==> !ArgumentSupports(factories[j], t)
  {
    if !ArgumentSupports(factories[0], t) {
      FirstArgumentFactoryIsFirst(factories[1..], t);
      var i :| 0 <= i < |factories[1..]| && factories[1..][i] == FirstArgumentFactory(factories[1..], t).value
               && forall j :: 0 <= j < i ==> !ArgumentSupports(factories[1..][j], t);
      assert factories[i + 1] == factories[1..][i];
    } else {
      assert factories[0] == FirstArgumentFactory(factories, t).value;
    }
  }

  /** The analyzer's registries and the class universe reflection answers from. */
  datatype Registry = Registry(
    u: Universe,
    instanceStrategies: seq<InstanceFactory>,
    typeInspectors: seq<TypeInspector>,
    resolvers: seq<Resolver>,
    argumentStrategies: seq<ArgumentFactory>,
    valueConverters: map<JClass, ValueConverter>,
    wrapperHandlers: seq<WrapperHandler>)

  // ---- what an analysis computes, apart from the nested analyses ----

  /** The class a property's values are instances of: the intrinsic type, else the declared type. */
  function IntrinsicOf(d: Draft): JClass
    requires d.propertyType.Some?
  {
    if d.intrinsicType.Some? then d.intrinsicType.value else d.propertyType.value
  }

  /**
   * `consumeProperty` up to the nested analysis: a property over a non-system
   * class is nested; one over a system class takes the converter registered
   * for exactly that class; then the first argument factory supporting the
   * declared type; then the descriptor is built.
   */
  function PropertyOf(reg: Registry, d: Draft): Result<FieldProperty, Error>
  {
    if d.propertyType.None? then Err(NoSuchElement)
    else
      var declared := d.propertyType.value;
      var intrinsic := IntrinsicOf(d);
      if IsSystemClass(intrinsic) && intrinsic !in reg.valueConverters then Err(Analysis(NoValueConverter(intrinsic)))
      else
        var classified := if IsSystemClass(intrinsic) then d.(valueConverter := Some(reg.valueConverters[intrinsic]))
                          else d.(nested := true);
        match FirstArgumentFactory(reg.argumentStrategies, declared)
        case None => Err(Analysis(NoArgumentStrategy(declared)))
        case Some(f) => Build(classified.(factory := Some(f)))
  }

  /** The descriptors of a sequence of builders, in order, stopping at the first failure. */
  function ConsumeAll(reg: Registry, ds: seq<Draft>): (r: Result<seq<FieldProperty>, Error>)
    ensures r.Ok? ==> |r.value| == |ds|
  {
    if |ds| == 0 then Ok([])
    else
      match ConsumeAll(reg, ds[..|ds| - 1])
      case Err(e) => Err(e)
      case Ok(ps) =>
        match PropertyOf(reg, ds[|ds| - 1])
        case Err(e) => Err(e)
        case Ok(p) => Ok(ps + [p])
  }

  lemma ConsumeAllStep(reg: Registry, ds: seq<Draft>, i: nat, p: FieldProperty)
    requires i < |ds| && ConsumeAll(reg, ds[..i]).Ok? && PropertyOf(reg, ds[i]) == Ok(p)
    ensures ConsumeAll(reg, ds[..i + 1]) == Ok(ConsumeAll(reg, ds[..i]).value + [p])
  {
    assert ds[..i + 1][..i] == ds[..i];
  }

  /** An inspection seen by the analyzer: every builder handed over is consumed, then the inspector's own failure. */
  function Consumed(reg: Registry, ins: Inspection): Result<seq<FieldProperty>, Error>
  {
    match ConsumeAll(reg, ins.yielded)
    case Err(e) => Err(e)
    case Ok(ps) => if ins.failure.Some? then Err(ins.failure.value) else Ok(ps)
  }

  /** The callback an inspection of kind `k` feeds: predicates and types are appended, a subject overwrites. */
  function Deliver(b: ClassAnalysis, k: AnnotationKind, p: FieldProperty): ClassAnalysis
  {
    match k
    case PredicateKind => b.(predicates := b.predicates + [p])
    case SubjectKind => b.(subject := Some(FieldLevel(p)))
    case SemanticTypeKind => b.(types := b.types + [FieldLevel(p)])
  }

  function DeliverAll(b: ClassAnalysis, k: AnnotationKind, ps: seq<FieldProperty>): ClassAnalysis
  {
    if |ps| == 0 then b else Deliver(DeliverAll(b, k, ps[..|ps| - 1]), k, ps[|ps| - 1])
  }

  lemma DeliverAllStep(b: ClassAnalysis, k: AnnotationKind, ps: seq<FieldProperty>, p: FieldProperty)
    ensures DeliverAll(b, k, ps + [p]) == Deliver(DeliverAll(b, k, ps), k, p)
  {
    assert (ps + [p])[..|ps|] == ps;
  }

  function Absorb(reg: Registry, b: ClassAnalysis, k: AnnotationKind, ins: Inspection): Result<ClassAnalysis, Error>
  {
    match Consumed(reg, ins)
    case Err(e) => Err(e)
    case Ok(ps) => Ok(DeliverAll(b, k, ps))
  }

  /** `consumeTypeAnnotation(c, k, consumer)`: a class-level annotation feeds the same callback as a property would. */
  function TypeAnnotated(u: Universe, c: JClass, k: AnnotationKind, b: ClassAnalysis): ClassAnalysis
    requires k != PredicateKind
  {
    match AnnotationOf(Decl(u, c).annotations, k)
    case None => b
    case Some(a) =>
      if k == SubjectKind then b.(subject := Some(TypeLevel(a))) else b.(types := b.types + [TypeLevel(a)])
  }

  /** The descriptor before the inspector runs: type-level annotations, then the instance factory. */
  function Prepared(reg: Registry, c: JClass, base: ClassAnalysis): ClassAnalysis
  {
    var typed := TypeAnnotated(reg.u, c, SemanticTypeKind, TypeAnnotated(reg.u, c, SubjectKind, base));
    match FirstInstanceFactory(reg.u, reg.instanceStrategies, c)
    case None => typed
    case Some(f) => typed.(factory := Some(f))
  }

  /**
   * The descriptor of class `c` starting from `base` (the superclass's
   * descriptor or the empty one), or the analysis error, leaving out the
   * failures of nested analyses.
   */
  function Describe(reg: Registry, c: JClass, base: ClassAnalysis): Result<ClassAnalysis, Error>
  {
    match FirstInspector(reg.u, reg.typeInspectors, c)
    case None => Err(Analysis(NoTypeInspector))
    case Some(insp) => Staged(reg, c, insp, Prepared(reg, c, base))
  }

  /** The three inspections of `c` by `insp`, for predicates, then subjects, then semantic types. */
  function Staged(reg: Registry, c: JClass, insp: TypeInspector, b: ClassAnalysis): Result<ClassAnalysis, Error>
  {
    match Absorb(reg, b, PredicateKind, InspectionOf(reg.u, insp, c, PredicateKind, reg.resolvers, reg.wrapperHandlers))
    case Err(e) => Err(e)
    case Ok(b1) => LaterStaged(reg, c, insp, b1)
  }

  /** The subject and semantic-type inspections, after the predicate one. */
  function LaterStaged(reg: Registry, c: JClass, insp: TypeInspector, b: ClassAnalysis): Result<ClassAnalysis, Error>
  {
    match Absorb(reg, b, SubjectKind, InspectionOf(reg.u, insp, c, SubjectKind, reg.resolvers, reg.wrapperHandlers))
    case Err(e) => Err(e)
    case Ok(b2) => Absorb(reg, b2, SemanticTypeKind, InspectionOf(reg.u, insp, c, SemanticTypeKind, reg.resolvers, reg.wrapperHandlers))
  }

  /** Whether `c` starts from its superclass's descriptor: a superclass that is not a system class and not on the stack. */
  predicate Inherits(u: Universe, c: JClass, pushed: set<JClass>)
  {
    var parent := Decl(u, c).superclass;
    parent.Some? && !IsSystemClass(parent.value) && parent.value !in pushed
  }

  /** The descriptor a class starts from: its superclass's, when that one is analysed and cached, else the empty one. */
  function BaseOf(u: Universe, c: JClass, pushed: set<JClass>, cache: map<JClass, ClassAnalysis>): ClassAnalysis
  {
    if Inherits(u, c, pushed) && Decl(u, c).superclass.value in cache
    then cache[Decl(u, c).superclass.value] else EmptyAnalysis
  }

  // ---- the classification the analyzer establishes ----

  /**
   * A property is nested exactly when its intrinsic type is not a system class,
   * and exactly then it has no value converter; its argument factory supports
   * its declared type.
   */
  predicate PropertyCoherent(p: FieldProperty)
  {
    && (p.nested <==> !IsSystemClass(p.intrinsicType))
    && (p.nested <==> p.valueConverter.None?)
    && ArgumentSupports(p.factory, p.propertyType)
  }

  predicate EntryCoherent(e: AnnotationProperty)
  {
    e.FieldLevel? ==> PropertyCoherent(e.property)
  }

  predicate Coherent(a: ClassAnalysis)
  {
    && (a.subject.Some? ==> EntryCoherent(a.subject.value))
    && (forall e :: e in a.types ==> EntryCoherent(e))
    && (forall p :: p in a.predicates ==> PropertyCoherent(p))
  }

  /**
   * The classification of one property: a system intrinsic type without a
   * registered converter, or a declared type without a supporting argument
   * strategy, is an analysis error; otherwise the descriptor keeps the
   * builder's values, is nested exactly for a non-system intrinsic type, and
   * carries the converter registered for its intrinsic type otherwise.
   */
  lemma Classification(reg: Registry, d: Draft)
    requires d.propertyType.Some? && d.valueConverter.None? && !d.nested
    ensures IsSystemClass(IntrinsicOf(d)) && IntrinsicOf(d) !in reg.valueConverters ==>
              PropertyOf(reg, d) == Err(Analysis(NoValueConverter(IntrinsicOf(d))))
    ensures (!IsSystemClass(IntrinsicOf(d)) || IntrinsicOf(d) in reg.valueConverters) &&
            FirstArgumentFactory(reg.argumentStrategies, d.propertyType.value).None? ==>
              PropertyOf(reg, d) == Err(Analysis(NoArgumentStrategy(d.propertyType.value)))
    ensures PropertyOf(reg, d).Ok? ==>
              var p := PropertyOf(reg, d).value;
              && PropertyCoherent(p)
              && p.intrinsicType == IntrinsicOf(d) && Some(p.propertyType) == d.propertyType
              && Some(p.name) == d.name && Some(p.accessor) == d.accessor && KindOf(p.family) == d.kind
              && Some(p.factory) == FirstArgumentFactory(reg.argumentStrategies, p.propertyType)
              && (!p.nested ==> p.valueConverter == Some(reg.valueConverters[p.intrinsicType]))
  {
  }

  lemma {:induction false} ConsumeAllCoherent(reg: Registry, ds: seq<Draft>)
    requires forall j :: 0 <= j < |ds| ==> ds[j].propertyType.Some? && ds[j].valueConverter.None? && !ds[j].nested
    ensures ConsumeAll(reg, ds).Ok? ==> forall p :: p in ConsumeAll(reg, ds).value ==> PropertyCoherent(p)
  {
    if |ds| > 0 {
      ConsumeAllCoherent(reg, ds[..|ds| - 1]);
      Classification(reg, ds[|ds| - 1]);
    }
  }

  lemma {:induction false} DeliverAllCoherent(b: ClassAnalysis, k: AnnotationKind, ps: seq<FieldProperty>)
    requires Coherent(b) && forall p :: p in ps ==> PropertyCoherent(p)
    ensures Coherent(DeliverAll(b, k, ps))
  {
    if |ps| > 0 {
      assert ps[|ps| - 1] in ps;
      DeliverAllCoherent(b, k, ps[..|ps| - 1]);
    }
  }

  lemma AbsorbCoherent(reg: Registry, b: ClassAnalysis, k: AnnotationKind, ins: Inspection)
    requires Coherent(b)
    requires forall j :: 0 <= j < |ins.yielded| ==> DraftInside(ins.yielded[j], reg.u.classes)
    ensures Absorb(reg, b, k, ins).Ok? ==> Coherent(Absorb(reg, b, k, ins).value)
  {
    ConsumeAllCoherent(reg, ins.yielded);
    if ConsumeAll(reg, ins.yielded).Ok? {
      DeliverAllCoherent(b, k, ConsumeAll(reg, ins.yielded).value);
    }
  }

  lemma StagedCoherent(reg: Registry, c: JClass, insp: TypeInspector, b: ClassAnalysis)
    requires Closed(reg.u) && ResolversClosed(reg.resolvers, reg.u.classes)
    requires Coherent(b)
    ensures Staged(reg, c, insp, b).Ok? ==> Coherent(Staged(reg, c, insp, b).value)
  {
    var ins0 := InspectionOf(reg.u, insp, c, PredicateKind, reg.resolvers, reg.wrapperHandlers);
    var ins1 := InspectionOf(reg.u, insp, c, SubjectKind, reg.resolvers, reg.wrapperHandlers);
    var ins2 := InspectionOf(reg.u, insp, c, SemanticTypeKind, reg.resolvers, reg.wrapperHandlers);
    InspectedDraftsInside(reg.u, insp, c, PredicateKind, reg.resolvers, reg.wrapperHandlers);
    AbsorbCoherent(reg, b, PredicateKind, ins0);
    var b1 := Absorb(reg, b, PredicateKind, ins0);
    if b1.Ok? {
      InspectedDraftsInside(reg.u, insp, c, SubjectKind, reg.resolvers, reg.wrapperHandlers);
      AbsorbCoherent(reg, b1.value, SubjectKind, ins1);
      var b2 := Absorb(reg, b1.value, SubjectKind, ins1);
      if b2.Ok? {
        InspectedDraftsInside(reg.u, insp, c, SemanticTypeKind, reg.resolvers, reg.wrapperHandlers);
        AbsorbCoherent(reg, b2.value, SemanticTypeKind, ins2);
      }
    }
  }

  /**
   * The invariant of the cache: a descriptor built on a coherent base from
   * inspector output is coherent.
   */
  lemma DescribeCoherent(reg: Registry, c: JClass, base: ClassAnalysis)
    requires Closed(reg.u) && ResolversClosed(reg.resolvers, reg.u.classes)
    requires Coherent(base)
    ensures Describe(reg, c, base).Ok? ==> Coherent(Describe(reg, c, base).value)
  {
    var insp := FirstInspector(reg.u, reg.typeInspectors, c);
    if insp.Some? {
      PreparedShape(reg, c, base);
      StagedCoherent(reg, c, insp.value, Prepared(reg, c, base));
    }
  }

  // ---- the shape of a descriptor ----

  lemma {:induction false} DeliverAllShape(b: ClassAnalysis, k: AnnotationKind, ps: seq<FieldProperty>)
    ensures k == PredicateKind ==> DeliverAll(b, k, ps) == b.(predicates := b.predicates + ps)
    ensures k == SubjectKind ==> DeliverAll(b, k, ps) == b.(subject := if |ps| == 0 then b.subject else Some(FieldLevel(ps[|ps| - 1])))
    ensures k == SemanticTypeKind ==> DeliverAll(b, k, ps) == b.(types := b.types + FieldLevels(ps))
  {
    if |ps| > 0 {
      var init, last := ps[..|ps| - 1], ps[|ps| - 1];
      DeliverAllShape(b, k, init);
      assert DeliverAll(b, k, ps) == Deliver(DeliverAll(b, k, init), k, last);
      assert init + [last] == ps;
      match k
      case PredicateKind =>
        assert b.predicates + init + [last] == b.predicates + ps;
      case SubjectKind =>
      case SemanticTypeKind =>
        assert FieldLevels(ps) == FieldLevels(init) + [FieldLevel(last)];
        assert b.types + FieldLevels(init) + [FieldLevel(last)] == b.types + FieldLevels(ps);
    } else {
      assert b.predicates + ps == b.predicates;
      assert b.types + FieldLevels(ps) == b.types;
    }
  }

  function FieldLevels(ps: seq<FieldProperty>): (es: seq<AnnotationProperty>)
    ensures |es| == |ps| && forall i :: 0 <= i < |ps| ==> es[i] == FieldLevel(ps[i])
  {
    seq(|ps|, i requires 0 <= i < |ps| => FieldLevel(ps[i]))
  }

  /** The three inspections: every builder of each is consumed, and each kind lands where its callback puts it. */
  lemma StagedShape(reg: Registry, c: JClass, insp: TypeInspector, b: ClassAnalysis)
    requires Staged(reg, c, insp, b).Ok?
    ensures var preds := Consumed(reg, InspectionOf(reg.u, insp, c, PredicateKind, reg.resolvers, reg.wrapperHandlers));
            var subjects := Consumed(reg, InspectionOf(reg.u, insp, c, SubjectKind, reg.resolvers, reg.wrapperHandlers));
            var types := Consumed(reg, InspectionOf(reg.u, insp, c, SemanticTypeKind, reg.resolvers, reg.wrapperHandlers));
            var a := Staged(reg, c, insp, b).value;
            && preds.Ok? && subjects.Ok? && types.Ok?
            && a.predicates == b.predicates + preds.value
            && a.types == b.types + FieldLevels(types.value)
            && a.subject == (if |subjects.value| > 0 then Some(FieldLevel(subjects.value[|subjects.value| - 1])) else b.subject)
            && a.factory == b.factory
  {
    var preds := Consumed(reg, InspectionOf(reg.u, insp, c, PredicateKind, reg.resolvers, reg.wrapperHandlers)).value;
    DeliverAllShape(b, PredicateKind, preds);
    var b1 := DeliverAll(b, PredicateKind, preds);
    var subjects := Consumed(reg, InspectionOf(reg.u, insp, c, SubjectKind, reg.resolvers, reg.wrapperHandlers)).value;
    DeliverAllShape(b1, SubjectKind, subjects);
    var b2 := DeliverAll(b1, SubjectKind, subjects);
    var types := Consumed(reg, InspectionOf(reg.u, insp, c, SemanticTypeKind, reg.resolvers, reg.wrapperHandlers)).value;
    DeliverAllShape(b2, SemanticTypeKind, types);
  }

  /** Before the inspections: the class-level annotations and the instance factory on top of the base. */
  lemma PreparedShape(reg: Registry, c: JClass, base: ClassAnalysis)
    ensures var typeAnnotation := AnnotationOf(Decl(reg.u, c).annotations, SemanticTypeKind);
            var subjectAnnotation := AnnotationOf(Decl(reg.u, c).annotations, SubjectKind);
            var factory := FirstInstanceFactory(reg.u, reg.instanceStrategies, c);
            var a := Prepared(reg, c, base);
            && a.predicates == base.predicates
            && a.types == base.types + (if typeAnnotation.Some? then [TypeLevel(typeAnnotation.value)] else [])
            && a.subject == (if subjectAnnotation.Some? then Some(TypeLevel(subjectAnnotation.value)) else base.subject)
            && a.factory == (if factory.Some? then factory else base.factory)
    ensures Coherent(base) ==> Coherent(Prepared(reg, c, base))
  {
    assert base.types + [] == base.types;
  }

  /**
   * What a successful analysis holds: the inherited predicates followed by the
   * class's own, in inspection order; the inherited types, then the
   * class-level `@SemanticType`, then the property-level ones; as subject the
   * last property-level subject, else the class-level `@Subject`, else the
   * inherited one; and the first supporting instance factory, else the
   * inherited one.
   */
  lemma DescribeShape(reg: Registry, c: JClass, base: ClassAnalysis)
    requires Describe(reg, c, base).Ok?
    ensures FirstInspector(reg.u, reg.typeInspectors, c).Some?
    ensures var insp := FirstInspector(reg.u, reg.typeInspectors, c).value;
            var preds := Consumed(reg, InspectionOf(reg.u, insp, c, PredicateKind, reg.resolvers, reg.wrapperHandlers));
            var subjects := Consumed(reg, InspectionOf(reg.u, insp, c, SubjectKind, reg.resolvers, reg.wrapperHandlers));
            var types := Consumed(reg, InspectionOf(reg.u, insp, c, SemanticTypeKind, reg.resolvers, reg.wrapperHandlers));
            var typeAnnotation := AnnotationOf(Decl(reg.u, c).annotations, SemanticTypeKind);
            var subjectAnnotation := AnnotationOf(Decl(reg.u, c).annotations, SubjectKind);
            var factory := FirstInstanceFactory(reg.u, reg.instanceStrategies, c);
            var a := Describe(reg, c, base).value;
            && preds.Ok? && subjects.Ok? && types.Ok?
            && a.predicates == base.predicates + preds.value
            && a.types == base.types + (if typeAnnotation.Some? then [TypeLevel(typeAnnotation.value)] else [])
                          + FieldLevels(types.value)
            && a.subject == (if |subjects.value| > 0 then Some(FieldLevel(subjects.value[|subjects.value| - 1]))
                             else if subjectAnnotation.Some? then Some(TypeLevel(subjectAnnotation.value))
                             else base.subject)
            && a.factory == (if factory.Some? then factory else base.factory)
  {
    PreparedShape(reg, c, base);
    StagedShape(reg, c, FirstInspector(reg.u, reg.typeInspectors, c).value, Prepared(reg, c, base));
  }

  /** Without a supporting type inspector the analysis fails, whatever the base. */
  lemma NoInspectorFails(reg: Registry, c: JClass, base: ClassAnalysis)
    requires forall insp :: insp in reg.typeInspectors ==> !InspectorSupports(reg.u, insp, c)
    ensures Describe(reg, c, base) == Err(Analysis(NoTypeInspector))
  {
  }

  // ---- the analyzer ----

  /** How many classes of the universe are not yet on the stack: the measure of the recursion. */
  function Remaining(classes: set<JClass>, stack: set<JClass>): nat
  {
    |classes - stack|
  }

  lemma RemainingShrinks(classes: set<JClass>, stack: set<JClass>, c: JClass)
    requires c in classes && c !in stack
    ensures Remaining(classes, stack + {c}) < Remaining(classes, stack)
  {
    assert classes - stack == (classes - (stack + {c})) + {c};
  }

  lemma RemainingMonotone(classes: set<JClass>, stack: set<JClass>, stack': set<JClass>)
    requires stack <= stack'
    ensures Remaining(classes, stack') <= Remaining(classes, stack)
  {
    var after := classes - stack';
    var before := classes - stack;
    assert before == after + (before - after);
    assert after * (before - after) == {};
  }

  /** The cache only grows, and what it held stays as it was. */
  ghost predicate Extends(before: map<JClass, ClassAnalysis>, after: map<JClass, ClassAnalysis>)
  {
    forall k :: k in before ==> k in after && after[k] == before[k]
  }

  /** Seen from before `c` was pushed, the steps after the push did not cache `c`. */
  lemma ProgressPushed(classes: set<JClass>, before: map<JClass, ClassAnalysis>, after: map<JClass, ClassAnalysis>,
                       stack: set<JClass>, stack': set<JClass>, c: JClass)
    requires c !in before && Progress(classes, before, after, stack + {c}, stack')
    ensures c !in after && c in stack' && Progress(classes, before, after, stack, stack')
  {
  }

  lemma ProgressPut(classes: set<JClass>, before: map<JClass, ClassAnalysis>, after: map<JClass, ClassAnalysis>,
                    stack: set<JClass>, stack': set<JClass>, c: JClass, v: ClassAnalysis)
    requires c !in before && c !in stack && Progress(classes, before, after, stack, stack')
    ensures Progress(classes, before, after[c := v], stack, stack')
  {
    assert after[c := v].Keys - before.Keys <= (after.Keys - before.Keys) + {c};
  }

  lemma ProgressTrans(classes: set<JClass>, m0: map<JClass, ClassAnalysis>, m1: map<JClass, ClassAnalysis>,
                      m2: map<JClass, ClassAnalysis>, s0: set<JClass>, s1: set<JClass>, s2: set<JClass>)
    requires Progress(classes, m0, m1, s0, s1) && Progress(classes, m1, m2, s1, s2)
    ensures Progress(classes, m0, m2, s0, s2)
  {
    assert m2.Keys - m0.Keys <= (m2.Keys - m1.Keys) + (m1.Keys - m0.Keys);
  }

  /** Every cached descriptor is coherent. */
  ghost predicate CacheCoherent(cache: map<JClass, ClassAnalysis>)
  {
    forall c :: c in cache ==> Coherent(cache[c])
  }

  lemma CacheCoherentPut(cache: map<JClass, ClassAnalysis>, c: JClass, v: ClassAnalysis)
    requires CacheCoherent(cache) && Coherent(v)
    ensures CacheCoherent(cache[c := v])
  {
  }

  /** Growing the cache leaves a base that was already there as it was. */
  lemma BaseOfStable(u: Universe, c: JClass, pushed: set<JClass>, before: map<JClass, ClassAnalysis>,
                     after: map<JClass, ClassAnalysis>)
    requires Extends(before, after)
    requires Inherits(u, c, pushed) ==> Decl(u, c).superclass.value in before
    ensures BaseOf(u, c, pushed, after) == BaseOf(u, c, pushed, before)
  {
  }

  /**
   * What every step of an analysis keeps: the cache only grows and gains no
   * class that was on the stack; the stack only grows, inside the universe.
   */
  ghost predicate Progress(classes: set<JClass>, before: map<JClass, ClassAnalysis>, after: map<JClass, ClassAnalysis>,
                           stack: set<JClass>, stack': set<JClass>)
  {
    Extends(before, after) && (after.Keys - before.Keys) !! stack && stack <= stack' <= classes
  }

  // ---- analyses that start no fresh nested analysis ----

  /** A property whose class needs no fresh analysis: a system class, one already analysed, or one on the stack. */
  predicate Settled(cache: map<JClass, ClassAnalysis>, stack: set<JClass>, d: Draft)
  {
    d.propertyType.Some? ==> IsSystemClass(IntrinsicOf(d)) || IntrinsicOf(d) in cache || IntrinsicOf(d) in stack
  }

  /** Every builder of the sequence is settled. */
  predicate AllSettled(cache: map<JClass, ClassAnalysis>, stack: set<JClass>, ds: seq<Draft>)
  {
    forall j :: 0 <= j < |ds| ==> Settled(cache, stack, ds[j])
  }

  /** Every builder the inspection hands over is settled. */
  predicate InspectionSettled(cache: map<JClass, ClassAnalysis>, stack: set<JClass>, ins: Inspection)
  {
    AllSettled(cache, stack, ins.yielded)
  }

  /** Every property the three inspections of `c` by `insp` hand over is settled. */
  predicate StagesSettled(reg: Registry, c: JClass, insp: TypeInspector, cache: map<JClass, ClassAnalysis>, stack: set<JClass>)
  {
    && InspectionSettled(cache, stack, InspectionOf(reg.u, insp, c, PredicateKind, reg.resolvers, reg.wrapperHandlers))
    && InspectionSettled(cache, stack, InspectionOf(reg.u, insp, c, SubjectKind, reg.resolvers, reg.wrapperHandlers))
    && InspectionSettled(cache, stack, InspectionOf(reg.u, insp, c, SemanticTypeKind, reg.resolvers, reg.wrapperHandlers))
  }

  /** The properties the inspector chosen for `c` hands over are settled. */
  predicate InspectorSettled(reg: Registry, c: JClass, cache: map<JClass, ClassAnalysis>, stack: set<JClass>)
  {
    FirstInspector(reg.u, reg.typeInspectors, c).Some? ==>
      StagesSettled(reg, c, FirstInspector(reg.u, reg.typeInspectors, c).value, cache, stack)
  }

  /**
   * Analysing `c` with `pushed` on the stack starts no fresh analysis: an
   * inherited superclass is already analysed, and every property class the
   * inspections meet is settled.
   */
  predicate SelfContained(reg: Registry, c: JClass, cache: map<JClass, ClassAnalysis>, pushed: set<JClass>)
  {
    && (Inherits(reg.u, c, pushed) ==> Decl(reg.u, c).superclass.value in cache)
    && InspectorSettled(reg, c, cache, pushed)
  }

  /** A property the classification rejects ends the consumption with that error, whatever follows it. */
  lemma {:induction false} ConsumeAllStops(reg: Registry, ds: seq<Draft>, i: nat, e: Error)
    requires i < |ds| && ConsumeAll(reg, ds[..i]).Ok? && PropertyOf(reg, ds[i]) == Err(e)
    ensures ConsumeAll(reg, ds) == Err(e)
    decreases |ds|
  {
    if |ds| == i + 1 {
      assert ds[..|ds| - 1] == ds[..i];
    } else {
      var init := ds[..|ds| - 1];
      assert init[..i] == ds[..i] && init[i] == ds[i];
      ConsumeAllStops(reg, init, i, e);
    }
  }

  class CoreTransmogAnalyzer {
    /** The classes reflection can report, and their declarations. */
    const u: Universe
    var cache: map<JClass, ClassAnalysis>
    var instanceStrategies: seq<InstanceFactory>
    var typeInspectors: seq<TypeInspector>
    var intrinsicTypeResolvers: seq<Resolver>
    var argumentStrategies: seq<ArgumentFactory>
    var valueConverters: map<JClass, ValueConverter>
    var wrapperHandlers: seq<WrapperHandler>

    function Reg(): Registry
      reads this`instanceStrategies, this`typeInspectors, this`intrinsicTypeResolvers,
            this`argumentStrategies, this`valueConverters, this`wrapperHandlers
    {
      Registry(u, instanceStrategies, typeInspectors, intrinsicTypeResolvers, argumentStrategies,
               valueConverters, wrapperHandlers)
    }

    /** The universe is closed, the registered resolvers stay inside it, and every cached descriptor is coherent. */
    ghost predicate Valid()
      reads this
    {
      && Closed(u) && ResolversClosed(intrinsicTypeResolvers, u.classes)
      && CacheCoherent(cache)
    }

    constructor (u: Universe)
      requires Closed(u)
      ensures Valid() && this.u == u && cache == map[]
      ensures Reg() == Registry(u, [], [], [], [], map[], [])
    {
      this.u := u;
      cache := map[];
      instanceStrategies, typeInspectors, intrinsicTypeResolvers := [], [], [];
      argumentStrategies, valueConverters, wrapperHandlers := [], map[], [];
    }

    method RegisterInstanceStrategy(f: InstanceFactory)
      requires Valid()
      modifies this`instanceStrategies
      ensures Valid() && Reg() == old(Reg()).(instanceStrategies := old(instanceStrategies) + [f])
    {
      instanceStrategies := instanceStrategies + [f];
    }

    method RegisterTypeInspector(insp: TypeInspector)
      requires Valid()
      modifies this`typeInspectors
      ensures Valid() && Reg() == old(Reg()).(typeInspectors := old(typeInspectors) + [insp])
    {
      typeInspectors := typeInspectors + [insp];
    }

    /** A resolver whose table names classes must name classes of the universe. */
    method RegisterIntrinsicTypeResolver(r: Resolver)
      requires Valid()
      requires r.TableResolver? ==> r.table.Values <= u.classes
      modifies this`intrinsicTypeResolvers
      ensures Valid() && Reg() == old(Reg()).(resolvers := old(intrinsicTypeResolvers) + [r])
    {
      intrinsicTypeResolvers := intrinsicTypeResolvers + [r];
    }

    method RegisterArgumentStrategy(f: ArgumentFactory)
      requires Valid()
      modifies this`argumentStrategies
      ensures Valid() && Reg() == old(Reg()).(argumentStrategies := old(argumentStrategies) + [f])
    {
      argumentStrategies := argumentStrategies + [f];
    }

    /** A later converter for the same class replaces the earlier one. */
    method RegisterValueConverter(target: JClass, converter: ValueConverter)
      requires Valid()
      modifies this`valueConverters
      ensures Valid() && Reg() == old(Reg()).(valueConverters := old(valueConverters)[target := converter])
    {
      valueConverters := valueConverters[target := converter];
    }

    method RegisterWrapperHandler(h: WrapperHandler)
      requires Valid()
      modifies this`wrapperHandlers
      ensures Valid() && Reg() == old(Reg()).(wrapperHandlers := old(wrapperHandlers) + [h])
    {
      wrapperHandlers := wrapperHandlers + [h];
    }

    /**
     * `analyze(c)`: analysis with a fresh stack. A cached class is answered
     * from the cache with nothing changed, so repeating a successful call
     * returns the same descriptor.
     */
    method Analyze(c: JClass) returns (r: Result<ClassAnalysis, Error>)
      requires Valid() && c in u.classes
      modifies this`cache
      ensures Valid() && Extends(old(cache), cache)
      ensures c in old(cache) ==> r == Ok(old(cache)[c]) && cache == old(cache)
      ensures r.Ok? ==> c in cache && cache[c] == r.value && Coherent(r.value)
      ensures r.Err? ==> c !in cache
      ensures r.Ok? && c !in old(cache) ==> Describe(Reg(), c, BaseOf(u, c, {c}, cache)) == r
      ensures c !in old(cache) && SelfContained(Reg(), c, old(cache), {c}) ==> r == Describe(Reg(), c, BaseOf(u, c, {c}, old(cache)))
    {
      var stack;
      r, stack := AnalyzeInternal(c, {});
    }

    /**
     * `analyzeInternal(c, stack)`. Pushes `c`, starts from the superclass's
     * descriptor when the superclass is not a system class and not yet on the
     * stack (analysing it first), and caches the result on success only.
     */
    method AnalyzeInternal(c: JClass, stack: set<JClass>) returns (r: Result<ClassAnalysis, Error>, stack': set<JClass>)
      requires Valid() && c in u.classes && c !in stack
      requires stack <= u.classes
      modifies this`cache
      decreases Remaining(u.classes, stack), 1
      ensures Valid() && Progress(u.classes, old(cache), cache, stack, stack')
      ensures c in old(cache) ==> r == Ok(old(cache)[c]) && cache == old(cache) && stack' == stack
      ensures c !in old(cache) ==> c in stack'
      ensures r.Ok? ==> c in cache && cache[c] == r.value && Coherent(r.value)
      ensures r.Err? ==> c !in cache
      ensures r.Ok? && c !in old(cache) ==> Describe(Reg(), c, BaseOf(u, c, stack + {c}, cache)) == r
      ensures c !in old(cache) && SelfContained(Reg(), c, old(cache), stack + {c}) ==>
                r == Describe(Reg(), c, BaseOf(u, c, stack + {c}, old(cache)))
    {
      if c in cache {
        return Ok(cache[c]), stack;
      }
      r, stack' := AnalyzeFresh(c, stack);
    }

    /** `analyzeInternal` for a class not in the cache. */
    method AnalyzeFresh(c: JClass, stack: set<JClass>) returns (r: Result<ClassAnalysis, Error>, stack': set<JClass>)
      requires Valid() && c in u.classes && c !in stack && c !in cache
      requires stack <= u.classes
      modifies this`cache
      decreases Remaining(u.classes, stack), 0
      ensures Valid() && Progress(u.classes, old(cache), cache, stack, stack')
      ensures c in stack'
      ensures r.Ok? ==> c in cache && cache[c] == r.value && Coherent(r.value)
      ensures r.Err? ==> c !in cache
      ensures r.Ok? ==> Describe(Reg(), c, BaseOf(u, c, stack + {c}, cache)) == r
      ensures SelfContained(Reg(), c, old(cache), stack + {c}) ==> r == Describe(Reg(), c, BaseOf(u, c, stack + {c}, old(cache)))
    {
      stack' := stack + {c};
      RemainingShrinks(u.classes, stack, c);
      var start;
      start, stack' := StartBuilder(c, stack');
      if start.Err? {
        ProgressPushed(u.classes, old(cache), cache, stack, stack', c);
        return Err(start.error), stack';
      }
      RemainingMonotone(u.classes, stack + {c}, stack');
      ProgressPushed(u.classes, old(cache), cache, stack, stack', c);
      r, stack' := Complete(c, stack, stack', start.value);
    }

    /**
     * The rest of `analyzeInternal` once the starting builder exists:
     * assembly, then caching on success. `outer` is the stack before `c` was pushed.
     */
    method Complete(c: JClass, ghost outer: set<JClass>, stack: set<JClass>, builder: ClassAnalysisBuilder)
      returns (r: Result<ClassAnalysis, Error>, stack': set<JClass>)
      requires Valid() && c !in outer && c !in cache
      requires stack <= u.classes && outer + {c} <= stack
      requires builder.Build() == BaseOf(u, c, outer + {c}, cache) && Coherent(builder.Build())
      requires Inherits(u, c, outer + {c}) ==> Decl(u, c).superclass.value in cache
      modifies this`cache, builder
      decreases Remaining(u.classes, stack), 10
      ensures Valid() && Progress(u.classes, old(cache), cache, outer, stack') && stack <= stack'
      ensures r.Ok? ==> c in cache && cache[c] == r.value && Coherent(r.value)
      ensures r.Err? ==> c !in cache
      ensures r.Ok? ==> Describe(Reg(), c, BaseOf(u, c, outer + {c}, cache)) == r
      ensures InspectorSettled(Reg(), c, old(cache), stack) ==> r == Describe(Reg(), c, BaseOf(u, c, outer + {c}, old(cache)))
    {
      ghost var cacheAtBase := cache;
      r, stack' := Assemble(c, stack, builder);
      BaseOfStable(u, c, outer + {c}, cacheAtBase, cache);
      if r.Ok? {
        ProgressPut(u.classes, old(cache), cache, outer, stack', c, r.value);
        BaseOfStable(u, c, outer + {c}, cache, cache[c := r.value]);
        Put(c, r.value);
      }
    }

    /** `cache.put(c, a)`. */
    method Put(c: JClass, a: ClassAnalysis)
      requires Valid() && Coherent(a)
      modifies this`cache
      ensures Valid() && cache == old(cache)[c := a]
    {
      CacheCoherentPut(cache, c, a);
      cache := cache[c := a];
    }

    /**
     * The builder `analyzeInternal` starts from: a copy of the superclass's
     * descriptor when the superclass is not a system class and not on the
     * stack (its analysis failing fails this one), else an empty one.
     */
    method StartBuilder(c: JClass, stack: set<JClass>) returns (r: Result<ClassAnalysisBuilder, Error>, stack': set<JClass>)
      requires Valid() && c in u.classes
      requires stack <= u.classes
      modifies this`cache
      decreases Remaining(u.classes, stack), 2
      ensures Valid() && Progress(u.classes, old(cache), cache, stack, stack')
      ensures r.Ok? ==> fresh(r.value) && r.value.Build() == BaseOf(u, c, stack, cache) && Coherent(r.value.Build())
      ensures r.Ok? ==> Inherits(u, c, stack) ==> Decl(u, c).superclass.value in cache
      ensures (Inherits(u, c, stack) ==> Decl(u, c).superclass.value in old(cache)) ==>
                r.Ok? && cache == old(cache) && stack' == stack
    {
      if Inherits(u, c, stack) {
        DeclOfClosed(u, c);
        var inherited;
        inherited, stack' := AnalyzeInternal(Decl(u, c).superclass.value, stack);
        if inherited.Err? {
          return Err(inherited.error), stack';
        }
        var builder := new ClassAnalysisBuilder.Copy(inherited.value);
        r := Ok(builder);
      } else {
        stack' := stack;
        var builder := new ClassAnalysisBuilder();
        r := Ok(builder);
      }
    }

    /** The body of `analyzeInternal` after the superclass: annotations, factory, and the three inspections. */
    method Assemble(c: JClass, stack: set<JClass>, builder: ClassAnalysisBuilder)
      returns (r: Result<ClassAnalysis, Error>, stack': set<JClass>)
      requires Valid() && Coherent(builder.Build())
      requires stack <= u.classes
      modifies this`cache, builder
      decreases Remaining(u.classes, stack), 9
      ensures Valid() && Progress(u.classes, old(cache), cache, stack, stack')
      ensures r.Ok? ==> Describe(Reg(), c, old(builder.Build())) == r && Coherent(r.value)
      ensures InspectorSettled(Reg(), c, old(cache), stack) ==> r == Describe(Reg(), c, old(builder.Build()))
    {
      ghost var base := builder.Build();
      stack' := stack;
      ConsumeTypeAnnotation(c, SubjectKind, builder);
      ConsumeTypeAnnotation(c, SemanticTypeKind, builder);
      var factory := FirstInstanceFactory(u, instanceStrategies, c);
      if factory.Some? {
        builder.Factory(factory.value);
      }
      assert builder.Build() == Prepared(Reg(), c, base);
      var inspector := FirstInspector(u, typeInspectors, c);
      if inspector.None? {
        return Err(Analysis(NoTypeInspector)), stack';
      }
      r, stack' := Inspections(c, inspector.value, stack', builder);
      if r.Ok? {
        DescribeCoherent(Reg(), c, base);
      }
    }

    /** The three `inspector.inspect` calls of `analyzeInternal`, then `builder.build()`. */
    method Inspections(c: JClass, inspector: TypeInspector, stack: set<JClass>, builder: ClassAnalysisBuilder)
      returns (r: Result<ClassAnalysis, Error>, stack': set<JClass>)
      requires Valid()
      requires stack <= u.classes
      modifies this`cache, builder
      decreases Remaining(u.classes, stack), 8
      ensures Valid() && Progress(u.classes, old(cache), cache, stack, stack')
      ensures r.Ok? ==> Staged(Reg(), c, inspector, old(builder.Build())) == r
      ensures StagesSettled(Reg(), c, inspector, old(cache), stack) ==>
                r == Staged(Reg(), c, inspector, old(builder.Build())) && cache == old(cache) && stack' == stack
    {
      var failure;
      failure, stack' := Stage(c, inspector, PredicateKind, stack, builder);
      if failure.Some? {
        return Err(failure.value), stack';
      }
      RemainingMonotone(u.classes, stack, stack');
      r, stack' := LaterInspections(c, inspector, stack', builder);
    }

    /** The subject and semantic-type `inspect` calls, then `builder.build()`. */
    method LaterInspections(c: JClass, inspector: TypeInspector, stack: set<JClass>, builder: ClassAnalysisBuilder)
      returns (r: Result<ClassAnalysis, Error>, stack': set<JClass>)
      requires Valid()
      requires stack <= u.classes
      modifies this`cache, builder
      decreases Remaining(u.classes, stack), 7
      ensures Valid() && Progress(u.classes, old(cache), cache, stack, stack')
      ensures r.Ok? ==> LaterStaged(Reg(), c, inspector, old(builder.Build())) == r
      ensures && InspectionSettled(old(cache), stack, InspectionOf(u, inspector, c, SubjectKind, intrinsicTypeResolvers, wrapperHandlers))
              && InspectionSettled(old(cache), stack, InspectionOf(u, inspector, c, SemanticTypeKind, intrinsicTypeResolvers, wrapperHandlers))
              ==> r == LaterStaged(Reg(), c, inspector, old(builder.Build())) && cache == old(cache) && stack' == stack
    {
      var failure;
      failure, stack' := Stage(c, inspector, SubjectKind, stack, builder);
      if failure.Some? {
        return Err(failure.value), stack';
      }
      RemainingMonotone(u.classes, stack, stack');
      failure, stack' := Stage(c, inspector, SemanticTypeKind, stack', builder);
      if failure.Some? {
        return Err(failure.value), stack';
      }
      r := Ok(builder.Build());
    }

    /** `consumeTypeAnnotation`: a class-level annotation of kind `k` goes to the subject or the types. */
    method ConsumeTypeAnnotation(c: JClass, k: AnnotationKind, builder: ClassAnalysisBuilder)
      requires k != PredicateKind
      modifies builder
      ensures builder.Build() == TypeAnnotated(u, c, k, old(builder.Build()))
    {
      var a := AnnotationOf(Decl(u, c).annotations, k);
      if a.Some? {
        if k == SubjectKind {
          builder.Subject(TypeLevel(a.value));
        } else {
          builder.Type(TypeLevel(a.value));
        }
      }
    }

    /** One `inspector.inspect(c, k, …, consumer)` call, its builders consumed into the callback of kind `k`. */
    method Stage(c: JClass, inspector: TypeInspector, k: AnnotationKind, stack: set<JClass>, builder: ClassAnalysisBuilder)
      returns (failure: Option<Error>, stack': set<JClass>)
      requires Valid()
      requires stack <= u.classes
      modifies this`cache, builder
      decreases Remaining(u.classes, stack), 6
      ensures Valid() && Progress(u.classes, old(cache), cache, stack, stack')
      ensures failure.None? ==>
                Absorb(Reg(), old(builder.Build()), k, InspectionOf(u, inspector, c, k, intrinsicTypeResolvers, wrapperHandlers))
                == Ok(builder.Build())
      ensures InspectionSettled(old(cache), stack, InspectionOf(u, inspector, c, k, intrinsicTypeResolvers, wrapperHandlers)) ==>
                && Absorb(Reg(), old(builder.Build()), k, InspectionOf(u, inspector, c, k, intrinsicTypeResolvers, wrapperHandlers))
                   == (if failure.None? then Ok(builder.Build()) else Err(failure.value))
                && cache == old(cache) && stack' == stack
    {
      var ins := Inspect(u, inspector, c, k, intrinsicTypeResolvers, wrapperHandlers);
      InspectedDraftsInside(u, inspector, c, k, intrinsicTypeResolvers, wrapperHandlers);
      failure, stack' := ConsumeInspection(ins, k, stack, builder);
    }

    /** Every builder an inspection hands over goes through `consumeProperty`, then the inspector's own failure is raised. */
    method ConsumeInspection(ins: Inspection, k: AnnotationKind, stack: set<JClass>, builder: ClassAnalysisBuilder)
      returns (failure: Option<Error>, stack': set<JClass>)
      requires Valid()
      requires stack <= u.classes
      requires forall j :: 0 <= j < |ins.yielded| ==> DraftInside(ins.yielded[j], u.classes)
      modifies this`cache, builder
      decreases Remaining(u.classes, stack), 5
      ensures Valid() && Progress(u.classes, old(cache), cache, stack, stack')
      ensures failure.None? ==> Absorb(Reg(), old(builder.Build()), k, ins) == Ok(builder.Build())
      ensures InspectionSettled(old(cache), stack, ins) ==>
                && Absorb(Reg(), old(builder.Build()), k, ins) == (if failure.None? then Ok(builder.Build()) else Err(failure.value))
                && cache == old(cache) && stack' == stack
    {
      failure, stack' := ConsumeYielded(ins.yielded, k, stack, builder, InspectionSettled(cache, stack, ins));
      if failure.None? && ins.failure.Some? {
        failure := ins.failure;
      }
    }

    /** The consumer applied to each builder in the order the inspector hands them over, stopping at the first failure. */
    method ConsumeYielded(ds: seq<Draft>, k: AnnotationKind, stack: set<JClass>, builder: ClassAnalysisBuilder, ghost settled: bool)
      returns (failure: Option<Error>, stack': set<JClass>)
      requires Valid()
      requires settled ==> AllSettled(cache, stack, ds)
      requires stack <= u.classes
      requires forall j :: 0 <= j < |ds| ==> DraftInside(ds[j], u.classes)
      modifies this`cache, builder
      decreases Remaining(u.classes, stack), 4
      ensures Valid() && Progress(u.classes, old(cache), cache, stack, stack')
      ensures failure.None? ==> ConsumeAll(Reg(), ds).Ok? && builder.Build() == DeliverAll(old(builder.Build()), k, ConsumeAll(Reg(), ds).value)
      ensures settled ==>
                && (failure.Some? ==> ConsumeAll(Reg(), ds) == Err(failure.value))
                && cache == old(cache) && stack' == stack
    {
      ghost var b0 := builder.Build();
      ghost var consumed: seq<FieldProperty> := [];
      stack', failure := stack, None;
      var i := 0;
      while i < |ds| && failure.None?
        invariant 0 <= i <= |ds|
        invariant Valid() && Progress(u.classes, old(cache), cache, stack, stack')
        invariant failure.None? ==> ConsumeAll(Reg(), ds[..i]) == Ok(consumed) && builder.Build() == DeliverAll(b0, k, consumed)
        invariant settled ==> cache == old(cache) && stack' == stack
        invariant settled && failure.Some? ==> ConsumeAll(Reg(), ds) == Err(failure.value)
        decreases |ds| - i, if failure.None? then 1 else 0
      {
        RemainingMonotone(u.classes, stack, stack');
        ghost var cacheBefore, stackBefore := cache, stack';
        if settled {
          assert Settled(cacheBefore, stackBefore, ds[i]);
        }
        var p;
        p, stack' := ConsumeAndFeed(ds[i], k, stack', builder);
        ProgressTrans(u.classes, old(cache), cacheBefore, cache, stack, stackBefore, stack');
        if p.Err? {
          if settled {
            ConsumeAllStops(Reg(), ds, i, p.error);
          }
          failure := Some(p.error);
        } else {
          ConsumeAllStep(Reg(), ds, i, p.value);
          DeliverAllStep(b0, k, consumed, p.value);
          consumed := consumed + [p.value];
          i := i + 1;
        }
      }
      if failure.None? {
        assert ds[..i] == ds;
      }
    }

    /** `consumeProperty` through to `callback.accept(builder.build())`: a descriptor it returns is fed to the callback of kind `k`. */
    method ConsumeAndFeed(d: Draft, k: AnnotationKind, stack: set<JClass>, builder: ClassAnalysisBuilder)
      returns (r: Result<FieldProperty, Error>, stack': set<JClass>)
      requires Valid() && DraftInside(d, u.classes)
      requires stack <= u.classes
      modifies this`cache, builder
      decreases Remaining(u.classes, stack), 3
      ensures Valid() && Progress(u.classes, old(cache), cache, stack, stack')
      ensures r.Ok? ==> PropertyOf(Reg(), d) == r && builder.Build() == Deliver(old(builder.Build()), k, r.value)
      ensures Settled(old(cache), stack, d) ==> r == PropertyOf(Reg(), d) && cache == old(cache) && stack' == stack
    {
      r, stack' := ConsumeProperty(d, stack);
      if r.Ok? {
        Feed(k, r.value, builder);
      }
    }

    /** The callback of kind `k`: `builder::predicate`, `builder::subject` or `builder::type`. */
    method Feed(k: AnnotationKind, p: FieldProperty, builder: ClassAnalysisBuilder)
      modifies builder
      ensures builder.Build() == Deliver(old(builder.Build()), k, p)
    {
      match k
      case PredicateKind => builder.Predicate(p);
      case SubjectKind => builder.Subject(FieldLevel(p));
      case SemanticTypeKind => builder.Type(FieldLevel(p));
    }

    /**
     * `consumeProperty`: the nested analysis of a non-system intrinsic type not
     * yet on the stack, whose analyzer failures are wrapped; then the
     * classification and the argument factory, as `PropertyOf` states.
     */
    method ConsumeProperty(d: Draft, stack: set<JClass>) returns (r: Result<FieldProperty, Error>, stack': set<JClass>)
      requires Valid() && DraftInside(d, u.classes)
      requires stack <= u.classes
      modifies this`cache
      decreases Remaining(u.classes, stack), 2
      ensures Valid() && Progress(u.classes, old(cache), cache, stack, stack')
      ensures r.Ok? ==> PropertyOf(Reg(), d) == r
      ensures PropertyOf(Reg(), d).Err? ==> r.Err?
      ensures Settled(old(cache), stack, d) ==> r == PropertyOf(Reg(), d) && cache == old(cache) && stack' == stack
      ensures r == PropertyOf(Reg(), d)
              || (&& !Settled(old(cache), stack, d) && r.Err? && IntrinsicOf(d) !in cache
                  && (IsAnalyzerException(r.error) ==> r.error.NestedAnalysis? && r.error.nested == IntrinsicOf(d)))
    {
      var builder := new PropertyBuilder.Resume(d);
      stack' := stack;
      if d.propertyType.None? {
        return Err(NoSuchElement), stack';
      }
      var declared := d.propertyType.value;
      var intrinsic := if d.intrinsicType.Some? then d.intrinsicType.value else declared;
      if !IsSystemClass(intrinsic) {
        if intrinsic !in stack {
          var nested;
          nested, stack' := AnalyzeInternal(intrinsic, stack);
          if nested.Err? {
            r := Err(if IsAnalyzerException(nested.error) then NestedAnalysis(intrinsic, nested.error) else nested.error);
            return;
          }
        }
        builder := builder.Nested(true);
      } else {
        if intrinsic !in valueConverters {
          return Err(Analysis(NoValueConverter(intrinsic))), stack';
        }
        builder := builder.ValueConverter(valueConverters[intrinsic]);
      }
      var f := FirstArgumentFactory(argumentStrategies, declared);
      if f.None? {
        return Err(Analysis(NoArgumentStrategy(declared))), stack';
      }
      builder := builder.Factory(f.value);
      r := Build(builder.State());
    }
  }
}
