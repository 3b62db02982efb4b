/**
 * `FieldPropertyAnalysis` and its builder, with the four families of the
 * support modules (bean, builder, constructor, record) folded in as a tag that
 * carries each family's extra component.
 */
module PropertyAnalysis {
  import opened Wrappers
  import opened Reflection
  import opened Errors
  import opened Spi

  /** The concrete descriptor class, with the component only that class has. */
  datatype Family =
    | BeanFamily(mutator: MethodRef)              // BeanPropertyAnalysis
    | BuilderFamily(builderProperty: MethodRef)   // BuilderPropertyAnalysis
    | ConstructorFamily(index: nat)               // ConstructorPropertyAnalysis
    | RecordFamily                                // RecordPropertyAnalysis

  datatype FamilyKind = BeanKind | BuilderKind | ConstructorKind | RecordKind

  function KindOf(f: Family): FamilyKind
  {
    match f
    case BeanFamily(_) => BeanKind
    case BuilderFamily(_) => BuilderKind
    case ConstructorFamily(_) => ConstructorKind
    case RecordFamily => RecordKind
  }

  /**
   * A built property descriptor. Its getters are the datatype's selectors, so
   * each returns exactly what was built in. `nested` is a primitive boolean and
   * cannot be null; the converter is optional (see `PropertyCoherent`).
   */
  datatype FieldProperty = FieldProperty(
    annotation: Annotation,
    name: string,
    propertyType: JClass,
    intrinsicType: JClass,
    accessor: MethodRef,
    factory: ArgumentFactory,
    valueConverter: Option<ValueConverter>,
    wrapperHandler: Option<WrapperHandler>,
    nested: bool,
    family: Family)

  /** The state of a `FieldPropertyAnalysis.Builder` of one family: every field may still be unset. */
  datatype Draft = Draft(
    kind: FamilyKind,
    annotation: Option<Annotation>,
    name: Option<string>,
    propertyType: Option<JClass>,
    intrinsicType: Option<JClass>,
    accessor: Option<MethodRef>,
    factory: Option<ArgumentFactory>,
    valueConverter: Option<ValueConverter>,
    wrapperHandler: Option<WrapperHandler>,
    nested: bool,
    index: Option<nat>,
    builderProperty: Option<MethodRef>,
    mutator: Option<MethodRef>)

  /** A fresh builder: every reference field null and `nested` false. */
  function EmptyDraft(kind: FamilyKind): Draft
  {
    Draft(kind, None, None, None, None, None, None, None, None, false, None, None, None)
  }

  /** The non-null checks of the descriptor constructors: the common ones, then the family's own. */
  predicate Complete(d: Draft)
  {
    && d.annotation.Some? && d.name.Some? && d.propertyType.Some? && d.accessor.Some? && d.factory.Some?
    && match d.kind
       case BeanKind => d.mutator.Some?
       case BuilderKind => d.builderProperty.Some?
       case ConstructorKind => d.index.Some?
       case RecordKind => true
  }

  /**
   * `build()`: the descriptor of the builder's family holding the builder's
   * values, or a `NullPointerException` from `Objects.requireNonNull` when a
   * checked field is unset. The bean descriptor's constructor takes no wrapper
   * handler, so a bean property never has one.
   */
  function Build(d: Draft): (r: Result<FieldProperty, Error>)
    ensures r.Ok? <==> Complete(d)
    ensures r.Err? ==> r.error == NullPointer
    ensures r.Ok? ==> KindOf(r.value.family) == d.kind
    ensures r.Ok? ==> Some(r.value.annotation) == d.annotation && Some(r.value.name) == d.name
                      && Some(r.value.propertyType) == d.propertyType && Some(r.value.accessor) == d.accessor
                      && Some(r.value.factory) == d.factory && r.value.valueConverter == d.valueConverter
                      && r.value.nested == d.nested
  {
    if !Complete(d) then Err(NullPointer)
    else
      var family := match d.kind
        case BeanKind => BeanFamily(d.mutator.value)
        case BuilderKind => BuilderFamily(d.builderProperty.value)
        case ConstructorKind => ConstructorFamily(d.index.value)
        case RecordKind => RecordFamily;
      Ok(FieldProperty(
        d.annotation.value, d.name.value, d.propertyType.value,
        if d.intrinsicType.Some? then d.intrinsicType.value else d.propertyType.value,
        d.accessor.value, d.factory.value, d.valueConverter,
        if d.kind == BeanKind then None else d.wrapperHandler,
        d.nested, family))
  }

  /**
   * `build()` with the non-null check of `valueConverter` that the
   * seven-argument constructor of `FieldPropertyAnalysis` makes: a builder
   * without a converter is rejected like one without a name. That constructor
   * belongs to an older revision than the analyzer's, which builds with an
   * intrinsic type and a wrapper handler.
   */
  function BuildAsWritten(d: Draft): (r: Result<FieldProperty, Error>)
    ensures r.Ok? <==> Complete(d) && d.valueConverter.Some?
    ensures r.Err? ==> r.error == NullPointer
    ensures r.Ok? ==> r == Build(d)
  {
    if Complete(d) && d.valueConverter.None? then Err(NullPointer) else Build(d)
  }

  /**
   * A nested property never receives a converter, so with the converter check
   * as written no nested property could be built; without it, it is built
   * with its nesting and without a converter.
   */
  lemma NestedRejectedAsWritten(d: Draft)
    requires Complete(d) && d.nested && d.valueConverter.None?
    ensures BuildAsWritten(d) == Err(NullPointer)
    ensures Build(d).Ok? && Build(d).value.nested && Build(d).value.valueConverter.None?
  {
  }

  /** The builder state that produces a given descriptor. */
  function DraftOf(p: FieldProperty): Draft
  {
    Draft(KindOf(p.family), Some(p.annotation), Some(p.name), Some(p.propertyType), Some(p.intrinsicType),
          Some(p.accessor), Some(p.factory), p.valueConverter, p.wrapperHandler, p.nested,
          if p.family.ConstructorFamily? then Some(p.family.index) else None,
          if p.family.BuilderFamily? then Some(p.family.builderProperty) else None,
          if p.family.BeanFamily? then Some(p.family.mutator) else None)
  }

  /** Every descriptor a builder can produce is rebuilt exactly from its own values. */
  lemma BuildRoundTrip(p: FieldProperty)
    requires p.family.BeanFamily? ==> p.wrapperHandler.None?
    ensures Build(DraftOf(p)) == Ok(p)
  {
  }

  /** Building keeps everything the builder held that the descriptor has a place for. */
  lemma BuildKeepsDraft(d: Draft)
    requires Build(d).Ok?
    requires d.intrinsicType.Some? && (d.kind == BeanKind ==> d.wrapperHandler.None?)
    requires d.kind != ConstructorKind ==> d.index.None?
    requires d.kind != BuilderKind ==> d.builderProperty.None?
    requires d.kind != BeanKind ==> d.mutator.None?
    ensures DraftOf(Build(d).value) == d
  {
  }

  /**
   * `FieldPropertyAnalysis.Builder` and its family subclasses: chained setters
   * that each overwrite one field and return the same builder.
   */
  class PropertyBuilder {
    const kind: FamilyKind
    var annotation: Option<Annotation>
    var name: Option<string>
    var propertyType: Option<JClass>
    var intrinsicType: Option<JClass>
    var accessor: Option<MethodRef>
    var factory: Option<ArgumentFactory>
    var valueConverter: Option<ValueConverter>
    var wrapperHandler: Option<WrapperHandler>
    var nested: bool
    var index: Option<nat>
    var builderProperty: Option<MethodRef>
    var mutator: Option<MethodRef>

    /** The builder's current state. */
    function State(): Draft
      reads this
    {
      Draft(kind, annotation, name, propertyType, intrinsicType, accessor, factory, valueConverter,
            wrapperHandler, nested, index, builderProperty, mutator)
    }

    /** `XPropertyAnalysis.builder()`: every field starts unset. */
    constructor (kind: FamilyKind)
      ensures State() == EmptyDraft(kind)
    {
      this.kind := kind;
      annotation, name, propertyType, intrinsicType := None, None, None, None;
      accessor, factory, valueConverter, wrapperHandler := None, None, None, None;
      nested, index, builderProperty, mutator := false, None, None, None;
    }

    /** A builder handed on in the state an inspector left it in. */
    constructor Resume(d: Draft)
      ensures State() == d
    {
      kind := d.kind;
      annotation, name, propertyType, intrinsicType := d.annotation, d.name, d.propertyType, d.intrinsicType;
      accessor, factory, valueConverter, wrapperHandler := d.accessor, d.factory, d.valueConverter, d.wrapperHandler;
      nested, index, builderProperty, mutator := d.nested, d.index, d.builderProperty, d.mutator;
    }

    method Annotation(a: Annotation) returns (self: PropertyBuilder)
      modifies this
      ensures self == this && State() == old(State()).(annotation := Some(a))
    {
      annotation := Some(a);
      self := this;
    }

    method Name(n: string) returns (self: PropertyBuilder)
      modifies this
      ensures self == this && State() == old(State()).(name := Some(n))
    {
      name := Some(n);
      self := this;
    }

    method Type(t: JClass) returns (self: PropertyBuilder)
      modifies this
      ensures self == this && State() == old(State()).(propertyType := Some(t))
    {
      propertyType := Some(t);
      self := this;
    }

    method IntrinsicType(t: JClass) returns (self: PropertyBuilder)
      modifies this
      ensures self == this && State() == old(State()).(intrinsicType := Some(t))
    {
      intrinsicType := Some(t);
      self := this;
    }

    method Accessor(m: MethodRef) returns (self: PropertyBuilder)
      modifies this
      ensures self == this && State() == old(State()).(accessor := Some(m))
    {
      accessor := Some(m);
      self := this;
    }

    method Factory(f: ArgumentFactory) returns (self: PropertyBuilder)
      modifies this
      ensures self == this && State() == old(State()).(factory := Some(f))
    {
      factory := Some(f);
      self := this;
    }

    method ValueConverter(v: ValueConverter) returns (self: PropertyBuilder)
      modifies this
      ensures self == this && State() == old(State()).(valueConverter := Some(v))
    {
      valueConverter := Some(v);
      self := this;
    }

    method WrapperHandler(h: WrapperHandler) returns (self: PropertyBuilder)
      modifies this
      ensures self == this && State() == old(State()).(wrapperHandler := Some(h))
    {
      wrapperHandler := Some(h);
      self := this;
    }

    method Nested(b: bool) returns (self: PropertyBuilder)
      modifies this
      ensures self == this && State() == old(State()).(nested := b)
    {
      nested := b;
      self := this;
    }

    /** `ConstructorPropertyAnalysis.Builder.index`. */
    method Index(i: nat) returns (self: PropertyBuilder)
      modifies this
      ensures self == this && State() == old(State()).(index := Some(i))
    {
      index := Some(i);
      self := this;
    }

    /** `BuilderPropertyAnalysis.Builder.builderProperty`. */
    method BuilderProperty(m: MethodRef) returns (self: PropertyBuilder)
      modifies this
      ensures self == this && State() == old(State()).(builderProperty := Some(m))
    {
      builderProperty := Some(m);
      self := this;
    }

    /** `BeanPropertyAnalysis.Builder.mutator`. */
    method Mutator(m: MethodRef) returns (self: PropertyBuilder)
      modifies this
      ensures self == this && State() == old(State()).(mutator := Some(m))
    {
      mutator := Some(m);
      self := this;
    }
  }
}
