/**
 * `ClassAnalysis`: the descriptor of one mapped class, and the builder the
 * analyzer fills in, starting empty or from a copy of the superclass's
 * descriptor.
 */
module ClassAnalysis {
  import opened Wrappers
  import opened Reflection
  import opened Spi
  import opened PropertyAnalysis

  /**
   * An `AnnotationPropertyAnalysis`: a type-level annotation, or a field-level
   * property descriptor (which is also one).
   */
  datatype AnnotationProperty = TypeLevel(typeAnnotation: Annotation) | FieldLevel(property: FieldProperty)
  {
    function AnnotationValue(): Annotation
    {
      match this
      case TypeLevel(a) => a
      case FieldLevel(p) => p.annotation
    }
  }

  datatype ClassAnalysis = ClassAnalysis(
    subject: Option<AnnotationProperty>,
    types: seq<AnnotationProperty>,
    predicates: seq<FieldProperty>,
    factory: Option<InstanceFactory>)

  const EmptyAnalysis := ClassAnalysis(None, [], [], None)

  class ClassAnalysisBuilder {
    var subject: Option<AnnotationProperty>
    var types: seq<AnnotationProperty>
    var predicates: seq<FieldProperty>
    var factory: Option<InstanceFactory>

    /** `build()`: the record of the builder's current four components. */
    function Build(): ClassAnalysis
      reads this
    {
      ClassAnalysis(subject, types, predicates, factory)
    }

    /** `ClassAnalysis.builder()`: no subject, no factory, no types, no predicates. */
    constructor ()
      ensures Build() == EmptyAnalysis
    {
      subject, types, predicates, factory := None, [], [], None;
    }

    /**
     * `ClassAnalysis.copy(source)`: the source's types and predicates in their
     * order, its subject and its factory. The lists are the builder's own, so
     * extending them leaves `source` as it is.
     */
    constructor Copy(source: ClassAnalysis)
      ensures Build() == source
    {
      subject, types, predicates, factory := source.subject, source.types, source.predicates, source.factory;
    }

    /** Overwrites the subject: the last call wins. */
    method Subject(s: AnnotationProperty)
      modifies this
      ensures Build() == old(Build()).(subject := Some(s))
    {
      subject := Some(s);
    }

    /** Appends a type entry after the earlier ones. */
    method Type(t: AnnotationProperty)
      modifies this
      ensures Build() == old(Build()).(types := old(types) + [t])
    {
      types := types + [t];
    }

    /** Appends a predicate after the earlier ones. */
    method Predicate(p: FieldProperty)
      modifies this
      ensures Build() == old(Build()).(predicates := old(predicates) + [p])
    {
      predicates := predicates + [p];
    }

    /** Overwrites the instance factory: the last call wins. */
    method Factory(f: InstanceFactory)
      modifies this
      ensures Build() == old(Build()).(factory := Some(f))
    {
      factory := Some(f);
    }
  }
}
