/**
 * `CoreTransmogWriter`: writes an instance as RDF statements about a subject,
 * following the descriptor the analyzer gives for its class. Nested values get
 * a subject of their own, linked from the parent and written recursively.
 */
module Writer {
  import opened Wrappers
  import opened Reflection
  import opened Errors
  import opened Spi
  import opened PropertyAnalysis
  import opened ClassAnalysis
  import opened Rdf

  /**
   * What the writer calls but cannot see: the analyzer, accessor handles,
   * wrapper handlers, `toString()` of non-null values, and the identifiers
   * `Values.bnode()` generates.
   */
  datatype WriteEnv = WriteEnv(
    analyze: JClass -> Result<ClassAnalysis, Error>,
    invoke: (MethodRef, Value) -> Invocation,
    handle: (WrapperHandler, Value) -> Unwrapped,
    show: Value -> string,
    blankId: nat -> string)

  /** `toString()` of a resource. */
  function TermText(env: WriteEnv, t: Term): string
  {
    match t
    case Iri(iri) => iri
    case BNode(id) => "_:" + id
    case FreshBNode(n) => "_:" + env.blankId(n)
    case Literal(lexical, _, _) => lexical
  }

  /** `Character.isWhitespace` on the ASCII range. */
  predicate Whitespace(ch: char)
  {
    ch == ' ' || ch == '\t' || ch == '\n' || ch == '\U{B}' || ch == '\U{C}' || ch == '\r'
    || ('\U{1C}' <= ch <= '\U{1F}')
  }

  /** `String.isBlank`: empty or whitespace only. */
  predicate IsBlank(s: string)
  {
    forall i :: 0 <= i < |s| ==> Whitespace(s[i])
  }

  /**
   * `unwrap(property, instance)`: the accessor's result through the wrapper
   * handler when there is one, else the result if it is not null. Anything the
   * accessor or the handler throws becomes a write error.
   */
  function Unwrap(env: WriteEnv, p: FieldProperty, instance: Value): (r: Result<Option<Value>, Error>)
    ensures r.Err? ==> r.error == Write(AccessorFailed)
    ensures p.wrapperHandler.None? && r.Ok? ==> r.value != Some(Null)
  {
    match env.invoke(p.accessor, instance)
    case Threw => Err(Write(AccessorFailed))
    case Returned(v) =>
      if p.wrapperHandler.Some? then
        match env.handle(p.wrapperHandler.value, v)
        case HandlerThrew => Err(Write(AccessorFailed))
        case Handled(content) => Ok(content)
      else if v == Null then Ok(None)
      else Ok(Some(v))
  }

  /**
   * `iterate(target, consumer)`: what the consumer is called with, in order:
   * each element of an `Iterable` or (reference) array, else the target itself.
   */
  function Elements(v: Value): (es: seq<Value>)
    ensures v.Coll? || v.Arr? ==> |es| == |v.elems| && forall i :: 0 <= i < |es| ==> es[i] == v.elems[i]
    ensures !v.Coll? && !v.Arr? ==> es == [v]
  {
    match v
    case Coll(_, es) => es
    case Arr(_, es) => es
    case _ => [v]
  }

  /**
   * Every statement has a resource as subject and an IRI as predicate, and
   * every generated blank node in the output has a serial below the next one.
   */
  ghost predicate WellTyped(out: Output)
  {
    forall st :: st in out.statements ==>
      !st.subj.Literal? && st.pred.Iri?
      && (st.subj.FreshBNode? ==> st.subj.serial < out.nextBlank) && (st.obj.FreshBNode? ==> st.obj.serial < out.nextBlank)
  }

  /** The statements are a set (each once), well-formed, and every generated blank node in them was generated before. */
  ghost predicate WellFormed(out: Output)
  {
    Distinct(out.statements) && WellTyped(out)
  }

  /** A term that can be a subject: not a literal, and not a blank node generated after `out`. */
  predicate Known(out: Output, t: Term)
  {
    !t.Literal? && (t.FreshBNode? ==> t.serial < out.nextBlank)
  }

  /** The output only grows: earlier statements stay, in their order, and the blank-node serial never goes back. */
  predicate Grows(out: Output, out': Output)
  {
    out.statements <= out'.statements && out.nextBlank <= out'.nextBlank
  }

  // ---- type statements ----

  /** The IRIs of a `@SemanticType`. */
  function TypeIris(a: Annotation): seq<string>
  {
    if a.SemanticTypeAnnotation? then a.iris else []
  }

  /** `(subject, rdf:type, iri)` for each IRI, in order. */
  function EmitTypes(out: Output, subject: Term, iris: seq<string>): (r: Output)
    ensures out.statements <= r.statements && r.nextBlank == out.nextBlank
    ensures WellFormed(out) && Known(out, subject) ==> WellFormed(r)
    ensures forall x :: x in r.statements <==> x in out.statements || exists i :: 0 <= i < |iris| && x == Statement(subject, RdfType, Iri(iris[i]))
    decreases |iris|
  {
    if |iris| == 0 then out
    else
      var r := EmitTypes(Emit(out, Statement(subject, RdfType, Iri(iris[0]))), subject, iris[1..]);
      assert forall i :: 1 <= i < |iris| ==> iris[1..][i - 1] == iris[i];
      r
  }

  /** `(subject, rdf:type, iri(element.toString()))` for each element; a null element has no `toString()`. */
  function EmitElementTypes(env: WriteEnv, out: Output, subject: Term, elems: seq<Value>): (r: Result<Output, Error>)
    ensures r.Ok? ==> out.statements <= r.value.statements && r.value.nextBlank == out.nextBlank
    ensures r.Ok? && WellFormed(out) && Known(out, subject) ==> WellFormed(r.value)
    ensures r.Err? <==> exists i :: 0 <= i < |elems| && elems[i] == Null
    ensures r.Err? ==> r.error == NullPointer
    ensures r.Ok? ==> forall x :: x in r.value.statements <==>
      x in out.statements || exists i :: 0 <= i < |elems| && x == Statement(subject, RdfType, Iri(env.show(elems[i])))
    decreases |elems|
  {
    if |elems| == 0 then Ok(out)
    else if elems[0] == Null then Err(NullPointer)
    else
      var r := EmitElementTypes(env, Emit(out, Statement(subject, RdfType, Iri(env.show(elems[0])))), subject, elems[1..]);
      assert forall i :: 1 <= i < |elems| ==> elems[1..][i - 1] == elems[i];
      r
  }

  /**
   * One entry of the descriptor's types: the annotation's IRIs, then, for a
   * property-level entry, one `rdf:type` per element of its unwrapped value.
   */
  function TypeEntryOut(env: WriteEnv, out: Output, instance: Value, e: AnnotationProperty, subject: Term): (r: Result<Output, Error>)
    ensures r.Ok? ==> out.statements <= r.value.statements && r.value.nextBlank == out.nextBlank
    ensures r.Ok? ==> forall j :: 0 <= j < |TypeIris(e.AnnotationValue())| ==>
      Statement(subject, RdfType, Iri(TypeIris(e.AnnotationValue())[j])) in r.value.statements
    ensures r.Ok? && WellFormed(out) && Known(out, subject) ==> WellFormed(r.value)
  {
    var out1 := EmitTypes(out, subject, TypeIris(e.AnnotationValue()));
    if e.TypeLevel? then Ok(out1)
    else
      var value :- Unwrap(env, e.property, instance);
      if value.None? then Ok(out1)
      else EmitElementTypes(env, out1, subject, Elements(value.value))
  }

  /** The first loop of `writeInternal`, over the descriptor's types. */
  function TypesOut(env: WriteEnv, out: Output, instance: Value, entries: seq<AnnotationProperty>, subject: Term): (r: Result<Output, Error>)
    ensures r.Ok? ==> out.statements <= r.value.statements && r.value.nextBlank == out.nextBlank
    ensures r.Ok? && WellFormed(out) && Known(out, subject) ==> WellFormed(r.value)
    decreases |entries|
  {
    if |entries| == 0 then Ok(out)
    else
      var out1 :- TypeEntryOut(env, out, instance, entries[0], subject);
      TypesOut(env, out1, instance, entries[1..], subject)
  }

  // ---- subjects of nested values ----

  /**
   * The text of a nested value's subject: the subject property's value read
   * from the target (absent when null), or the type-level `@Subject` value,
   * appended to the parent subject and separator when it is relative.
   */
  function SubjectText(env: WriteEnv, sp: AnnotationProperty, subject: Term, target: Value): (r: Result<Option<string>, Error>)
    requires sp.AnnotationValue().SubjectAnnotation?
    ensures sp.TypeLevel? ==> (r.Err? <==> IsBlank(sp.typeAnnotation.value))
    ensures sp.TypeLevel? && r.Ok? ==>
      r.value == Some(if sp.typeAnnotation.relative then TermText(env, subject) + [sp.typeAnnotation.separator] + sp.typeAnnotation.value
                      else sp.typeAnnotation.value)
    ensures sp.FieldLevel? ==> (r.Err? <==> env.invoke(sp.property.accessor, target).Threw?)
    ensures sp.FieldLevel? && r.Ok? ==>
      (r.value.None? <==> env.invoke(sp.property.accessor, target) == Returned(Null))
      && (r.value.Some? ==> r.value.value == env.show(env.invoke(sp.property.accessor, target).value))
    ensures r.Err? ==> IsWriterException(r.error)
  {
    match sp
    case FieldLevel(fp) =>
      (match env.invoke(fp.accessor, target)
       case Threw => Err(Write(AccessorFailed))
       case Returned(v) => Ok(if v == Null then None else Some(env.show(v))))
    case TypeLevel(a) =>
      if IsBlank(a.value) then Err(Write(BlankSubject))
      else if a.relative then Ok(Some(TermText(env, subject) + [a.separator] + a.value))
      else Ok(Some(a.value))
  }

  /** How a nested value's subject is obtained: a term made of its subject text, or a generated blank node. */
  datatype Identity = Minted(t: Term) | Generated

  /**
   * The subject of a nested value, from the subject descriptor of its class: a
   * blank node when `blankNode` is set (a generated one when there is no text),
   * else an IRI, which needs text. A class without a subject descriptor fails.
   */
  function SubjectIdentity(env: WriteEnv, subjectProperty: Option<AnnotationProperty>, subject: Term, target: Value)
    : (r: Result<Identity, Error>)
    ensures subjectProperty.None? ==> r == Err(NoSuchElement)
    ensures r.Ok? ==> subjectProperty.Some? && subjectProperty.value.AnnotationValue().SubjectAnnotation?
    ensures r.Ok? ==> var a := subjectProperty.value.AnnotationValue();
      && (r.value.Generated? ==> a.blankNode
                                 && SubjectText(env, subjectProperty.value, subject, target) == Ok(None))
      && (r.value.Minted? ==>
            var text := SubjectText(env, subjectProperty.value, subject, target);
            text.Ok? && text.value.Some? && r.value.t == (if a.blankNode then BNode(text.value.value) else Iri(text.value.value)))
    ensures (subjectProperty.Some? && subjectProperty.value.AnnotationValue().SubjectAnnotation?
             && !subjectProperty.value.AnnotationValue().blankNode
             && SubjectText(env, subjectProperty.value, subject, target) == Ok(None)) ==> r == Err(NoSuchElement)
  {
    match subjectProperty
    case None => Err(NoSuchElement)
    case Some(sp) =>
      var a := sp.AnnotationValue();
      if !a.SubjectAnnotation? then Err(ClassCast)
      else
        var text :- SubjectText(env, sp, subject, target);
        if a.blankNode then
          if text.None? then Ok(Generated) else Ok(Minted(BNode(text.value)))
        else if text.None? then Err(NoSuchElement)
        else Ok(Minted(Iri(text.value)))
  }

  /** The subject term of a nested value; a generated blank node takes the next serial. */
  function NestedSubject(env: WriteEnv, out: Output, subjectProperty: Option<AnnotationProperty>, subject: Term,
                         target: Value): (r: Result<(Term, Output), Error>)
    ensures r.Ok? ==> r.value.1.statements == out.statements && out.nextBlank <= r.value.1.nextBlank
    ensures r.Ok? ==> Known(r.value.1, r.value.0)
    ensures r.Ok? && r.value.0.FreshBNode? ==> r.value.0.serial == out.nextBlank
  {
    var id :- SubjectIdentity(env, subjectProperty, subject, target);
    match id
    case Minted(t) => Ok((t, out))
    case Generated => Ok((FreshBNode(out.nextBlank), out.(nextBlank := out.nextBlank + 1)))
  }

  // ---- predicate statements ----

  /** The object of a scalar statement: a typed literal of the value's text (never language-tagged), or an IRI made of it. */
  function ScalarObject(env: WriteEnv, p: FieldProperty, target: Value): Term
    requires p.annotation.PredicateAnnotation?
  {
    if p.annotation.literal then Literal(env.show(target), p.annotation.datatypeIri, None) else Iri(env.show(target))
  }

  /** `writeInternal(model, instance, analysis, subject)`: the types, then the predicates. */
  function WriteOut(env: WriteEnv, out: Output, instance: Value, a: ClassAnalysis, subject: Term, fuel: nat): (r: Result<Output, Error>)
    ensures r.Ok? ==> Grows(out, r.value)
    ensures r.Ok? && WellFormed(out) && Known(out, subject) ==> WellFormed(r.value)
    decreases fuel, 5, 0
  {
    var out1 :- TypesOut(env, out, instance, a.types, subject);
    PredicatesOut(env, out1, instance, a.predicates, subject, fuel)
  }

  /** The second loop of `writeInternal`, over the descriptor's predicates. */
  function PredicatesOut(env: WriteEnv, out: Output, instance: Value, props: seq<FieldProperty>, subject: Term, fuel: nat)
    : (r: Result<Output, Error>)
    ensures r.Ok? ==> Grows(out, r.value)
    ensures r.Ok? && WellFormed(out) && Known(out, subject) ==> WellFormed(r.value)
    decreases fuel, 4, |props|
  {
    if |props| == 0 then Ok(out)
    else
      var out1 :- PropertyOut(env, out, instance, props[0], subject, fuel);
      PredicatesOut(env, out1, instance, props[1..], subject, fuel)
  }

  /**
   * One predicate property: an absent value fails when the predicate is
   * required and writes nothing otherwise; a present one is iterated.
   */
  function PropertyOut(env: WriteEnv, out: Output, instance: Value, p: FieldProperty, subject: Term, fuel: nat)
    : (r: Result<Output, Error>)
    ensures r.Ok? ==> Grows(out, r.value)
    ensures r.Ok? && WellFormed(out) && Known(out, subject) ==> WellFormed(r.value)
    decreases fuel, 3, 0
  {
    var value :- Unwrap(env, p, instance);
    if !p.annotation.PredicateAnnotation? then Err(ClassCast)
    else if value.None? then
      if p.annotation.required then Err(Write(MissingRequiredValue)) else Ok(out)
    else ElementsOut(env, out, p, subject, Iri(p.annotation.iri), Elements(value.value), fuel)
  }

  /** The `iterate` callback of one predicate property, over the elements of its value. */
  function ElementsOut(env: WriteEnv, out: Output, p: FieldProperty, subject: Term, pred: Term, elems: seq<Value>,
                       fuel: nat): (r: Result<Output, Error>)
    requires p.annotation.PredicateAnnotation? && pred.Iri?
    ensures r.Ok? ==> Grows(out, r.value)
    ensures r.Ok? && WellFormed(out) && Known(out, subject) ==> WellFormed(r.value)
    decreases fuel, 2, |elems|
  {
    if |elems| == 0 then Ok(out)
    else
      var out1 :- StatementOut(env, out, p, subject, pred, elems[0], fuel);
      ElementsOut(env, out1, p, subject, pred, elems[1..], fuel)
  }

  /**
   * `writeStatement`: a nested value is linked to its own subject, and then
   * written under it (a writer failure there is wrapped); a scalar one becomes
   * one literal or IRI statement. `fuel` bounds the nesting depth; an object
   * graph that nests deeper (a cycle, say) overflows the stack.
   */
  function StatementOut(env: WriteEnv, out: Output, p: FieldProperty, subject: Term, pred: Term, target: Value,
                        fuel: nat): (r: Result<Output, Error>)
    requires p.annotation.PredicateAnnotation? && pred.Iri?
    ensures r.Ok? ==> Grows(out, r.value)
    ensures r.Ok? && WellFormed(out) && Known(out, subject) ==> WellFormed(r.value)
    decreases fuel, 1, 0
  {
    if target == Null then Err(NullPointer)
    else if p.nested then
      var a :- env.analyze(ClassOf(target));
      var found :- NestedSubject(env, out, a.subject, subject, target);
      NestedOut(env, Emit(found.1, Statement(subject, pred, found.0)), target, a, found.0, fuel)
    else Ok(Emit(out, Statement(subject, pred, ScalarObject(env, p, target))))
  }

  /**
   * A nested value written under its own subject `node`; a writer failure
   * there is wrapped in another.
   */
  function NestedOut(env: WriteEnv, out: Output, target: Value, a: ClassAnalysis, node: Term, fuel: nat): (r: Result<Output, Error>)
    ensures r.Ok? ==> Grows(out, r.value)
    ensures r.Ok? && WellFormed(out) && Known(out, node) ==> WellFormed(r.value)
    ensures r.Err? && IsWriterException(r.error) ==> r.error.NestedWrite?
    decreases fuel, 0, 0
  {
    if fuel == 0 then Err(StackOverflow)
    else
      match WriteOut(env, out, target, a, node, fuel - 1)
      case Ok(out3) => Ok(out3)
      case Err(e) => Err(if IsWriterException(e) then NestedWrite(e) else e)
  }

  // ---- the writer proper, adding to a shared model ----

  /** A call that ends with `failure` and leaves the model as `now` did what `r` describes. */
  predicate Outcome(r: Result<Output, Error>, failure: Option<Error>, now: Output)
  {
    match r
    case Ok(out) => failure.None? && now == out
    case Err(e) => failure == Some(e)
  }

  /** `writeInternal`. */
  method WriteInternal(env: WriteEnv, g: Graph, instance: Value, a: ClassAnalysis, subject: Term, fuel: nat)
    returns (failure: Option<Error>)
    modifies g
    ensures Outcome(WriteOut(env, old(g.State()), instance, a, subject, fuel), failure, g.State())
    ensures Grows(old(g.State()), g.State())
    decreases fuel, 3
  {
    ghost var start := g.State();
    var i := 0;
    while i < |a.types|
      invariant 0 <= i <= |a.types|
      invariant TypesOut(env, start, instance, a.types, subject) == TypesOut(env, g.State(), instance, a.types[i..], subject)
      invariant Grows(start, g.State())
    {
      assert a.types[i..][1..] == a.types[i + 1..];
      failure := WriteType(env, g, instance, a.types[i], subject);
      if failure.Some? {
        return;
      }
      i := i + 1;
    }
    assert TypesOut(env, start, instance, a.types, subject) == Ok(g.State());
    i := 0;
    while i < |a.predicates|
      invariant 0 <= i <= |a.predicates|
      invariant WriteOut(env, start, instance, a, subject, fuel)
                == PredicatesOut(env, g.State(), instance, a.predicates[i..], subject, fuel)
      invariant Grows(start, g.State())
    {
      assert a.predicates[i..][1..] == a.predicates[i + 1..];
      failure := WriteProperty(env, g, instance, a.predicates[i], subject, fuel);
      if failure.Some? {
        return;
      }
      i := i + 1;
    }
    failure := None;
  }

  /** One entry of the first loop of `writeInternal`. */
  method WriteType(env: WriteEnv, g: Graph, instance: Value, e: AnnotationProperty, subject: Term)
    returns (failure: Option<Error>)
    modifies g
    ensures Outcome(TypeEntryOut(env, old(g.State()), instance, e, subject), failure, g.State())
    ensures Grows(old(g.State()), g.State())
  {
    ghost var start := g.State();
    var iris := TypeIris(e.AnnotationValue());
    var i := 0;
    while i < |iris|
      invariant 0 <= i <= |iris|
      invariant EmitTypes(start, subject, iris) == EmitTypes(g.State(), subject, iris[i..])
      invariant Grows(start, g.State())
    {
      assert iris[i..][1..] == iris[i + 1..];
      g.Add(Statement(subject, RdfType, Iri(iris[i])));
      i := i + 1;
    }
    if e.TypeLevel? {
      return None;
    }
    var value := Unwrap(env, e.property, instance);
    if value.Err? {
      return Some(value.error);
    }
    if value.value.None? {
      return None;
    }
    var elems := Elements(value.value.value);
    ghost var afterIris := g.State();
    i := 0;
    while i < |elems|
      invariant 0 <= i <= |elems|
      invariant EmitElementTypes(env, afterIris, subject, elems) == EmitElementTypes(env, g.State(), subject, elems[i..])
      invariant Grows(start, g.State())
    {
      assert elems[i..][1..] == elems[i + 1..];
      if elems[i] == Null {
        return Some(NullPointer);
      }
      g.Add(Statement(subject, RdfType, Iri(env.show(elems[i]))));
      i := i + 1;
    }
    failure := None;
  }

  /** One entry of the second loop of `writeInternal`. */
  method WriteProperty(env: WriteEnv, g: Graph, instance: Value, p: FieldProperty, subject: Term, fuel: nat)
    returns (failure: Option<Error>)
    modifies g
    ensures Outcome(PropertyOut(env, old(g.State()), instance, p, subject, fuel), failure, g.State())
    ensures Grows(old(g.State()), g.State())
    decreases fuel, 2
  {
    ghost var start := g.State();
    var value := Unwrap(env, p, instance);
    if value.Err? {
      return Some(value.error);
    }
    if !p.annotation.PredicateAnnotation? {
      return Some(ClassCast);
    }
    if value.value.None? {
      return if p.annotation.required then Some(Write(MissingRequiredValue)) else None;
    }
    var pred := Iri(p.annotation.iri);
    var elems := Elements(value.value.value);
    var i := 0;
    while i < |elems|
      invariant 0 <= i <= |elems|
      invariant ElementsOut(env, start, p, subject, pred, elems, fuel) == ElementsOut(env, g.State(), p, subject, pred, elems[i..], fuel)
      invariant Grows(start, g.State())
    {
      assert elems[i..][1..] == elems[i + 1..];
      failure := WriteStatement(env, g, p, subject, pred, elems[i], fuel);
      if failure.Some? {
        return;
      }
      i := i + 1;
    }
    failure := None;
  }

  /** `writeStatement`. */
  method WriteStatement(env: WriteEnv, g: Graph, p: FieldProperty, subject: Term, pred: Term, target: Value, fuel: nat)
    returns (failure: Option<Error>)
    requires p.annotation.PredicateAnnotation? && pred.Iri?
    modifies g
    ensures Outcome(StatementOut(env, old(g.State()), p, subject, pred, target, fuel), failure, g.State())
    ensures Grows(old(g.State()), g.State())
    decreases fuel, 1
  {
    ghost var s0 := g.State();
    if target == Null {
      return Some(NullPointer);
    }
    if !p.nested {
      g.Add(Statement(subject, pred, ScalarObject(env, p, target)));
      return None;
    }
    var analysis := env.analyze(ClassOf(target));
    if analysis.Err? {
      return Some(analysis.error);
    }
    var a := analysis.value;
    var identity := SubjectIdentity(env, a.subject, subject, target);
    if identity.Err? {
      return Some(identity.error);
    }
    var node: Term;
    if identity.value.Minted? {
      node := identity.value.t;
    } else {
      node := g.FreshBlank();
    }
    assert NestedSubject(env, s0, a.subject, subject, target) == Ok((node, g.State()));
    g.Add(Statement(subject, pred, node));
    failure := WriteNested(env, g, target, a, node, fuel);
  }

  /** The nested `writeInternal` call of `writeStatement`, with its failure wrapped. */
  method WriteNested(env: WriteEnv, g: Graph, target: Value, a: ClassAnalysis, node: Term, fuel: nat)
    returns (failure: Option<Error>)
    modifies g
    ensures Outcome(NestedOut(env, old(g.State()), target, a, node, fuel), failure, g.State())
    ensures Grows(old(g.State()), g.State())
    decreases fuel, 0
  {
    if fuel == 0 {
      return Some(StackOverflow);
    }
    var nestedFailure := WriteInternal(env, g, target, a, node, fuel - 1);
    if nestedFailure.Some? {
      var e := nestedFailure.value;
      failure := Some(if IsWriterException(e) then NestedWrite(e) else e);
    } else {
      failure := None;
    }
  }

  // ---- what the writer promises ----

  /** Every fixed IRI of every type entry, property-level ones included, is written as an `rdf:type` of the subject. */
  lemma {:induction false} TypesOutWritten(env: WriteEnv, out: Output, instance: Value, entries: seq<AnnotationProperty>,
                                           subject: Term)
    requires TypesOut(env, out, instance, entries, subject).Ok?
    ensures forall k, j :: 0 <= k < |entries| && 0 <= j < |TypeIris(entries[k].AnnotationValue())| ==>
      Statement(subject, RdfType, Iri(TypeIris(entries[k].AnnotationValue())[j]))
        in TypesOut(env, out, instance, entries, subject).value.statements
    decreases |entries|
  {
    if |entries| > 0 {
      var out1 := TypeEntryOut(env, out, instance, entries[0], subject).value;
      var r := TypesOut(env, out1, instance, entries[1..], subject).value;
      TypesOutWritten(env, out1, instance, entries[1..], subject);
      forall k, j | 0 <= k < |entries| && 0 <= j < |TypeIris(entries[k].AnnotationValue())|
        ensures Statement(subject, RdfType, Iri(TypeIris(entries[k].AnnotationValue())[j])) in r.statements
      {
        if k > 0 {
          assert entries[1..][k - 1] == entries[k];
        }
      }
    }
  }

  /** The type statements of a whole `writeInternal` call. */
  lemma TypesWritten(env: WriteEnv, out: Output, instance: Value, a: ClassAnalysis, subject: Term, fuel: nat)
    requires WriteOut(env, out, instance, a, subject, fuel).Ok?
    ensures forall k, j :: 0 <= k < |a.types| && 0 <= j < |TypeIris(a.types[k].AnnotationValue())| ==>
      Statement(subject, RdfType, Iri(TypeIris(a.types[k].AnnotationValue())[j]))
        in WriteOut(env, out, instance, a, subject, fuel).value.statements
  {
    TypesOutWritten(env, out, instance, a.types, subject);
  }

  /**
   * A property-level type entry whose value unwraps to something also types
   * the subject with each element of that value, and none of them is null.
   */
  lemma PropertyTypesWritten(env: WriteEnv, out: Output, instance: Value, e: AnnotationProperty, subject: Term, v: Value)
    requires e.FieldLevel? && Unwrap(env, e.property, instance) == Ok(Some(v))
    requires TypeEntryOut(env, out, instance, e, subject).Ok?
    ensures forall i :: 0 <= i < |Elements(v)| ==>
      Elements(v)[i] != Null && Statement(subject, RdfType, Iri(env.show(Elements(v)[i]))) in TypeEntryOut(env, out, instance, e, subject).value.statements
  {
  }

  /**
   * After a successful pass over the predicates, every property carried a
   * predicate annotation, its accessor worked, and a required one had a value.
   */
  lemma {:induction false} PredicatesRequired(env: WriteEnv, out: Output, instance: Value, props: seq<FieldProperty>,
                                              subject: Term, fuel: nat)
    requires PredicatesOut(env, out, instance, props, subject, fuel).Ok?
    ensures forall k :: 0 <= k < |props| ==>
      props[k].annotation.PredicateAnnotation? && Unwrap(env, props[k], instance).Ok?
      && (props[k].annotation.required ==> Unwrap(env, props[k], instance).value.Some?)
    decreases |props|
  {
    if |props| > 0 {
      var out1 := PropertyOut(env, out, instance, props[0], subject, fuel).value;
      PredicatesRequired(env, out1, instance, props[1..], subject, fuel);
      assert forall k :: 1 <= k < |props| ==> props[1..][k - 1] == props[k];
    }
  }

  /** Optional predicates whose values are all absent write nothing at all. */
  lemma {:induction false} AbsentOptionalWritesNothing(env: WriteEnv, out: Output, instance: Value, props: seq<FieldProperty>,
                                                       subject: Term, fuel: nat)
    requires forall k :: 0 <= k < |props| ==>
      props[k].annotation.PredicateAnnotation? && !props[k].annotation.required && Unwrap(env, props[k], instance) == Ok(None)
    ensures PredicatesOut(env, out, instance, props, subject, fuel) == Ok(out)
    decreases |props|
  {
    if |props| > 0 {
      assert forall k :: 1 <= k < |props| ==> props[1..][k - 1] == props[k];
      AbsentOptionalWritesNothing(env, out, instance, props[1..], subject, fuel);
    }
  }

  /**
   * A scalar property writes one statement per element of its value, in
   * order: a typed literal or an IRI of the element's text. It fails exactly
   * when an element is null.
   */
  lemma {:induction false} ScalarElements(env: WriteEnv, out: Output, p: FieldProperty, subject: Term, pred: Term,
                                          elems: seq<Value>, fuel: nat)
    requires p.annotation.PredicateAnnotation? && pred.Iri? && !p.nested
    ensures ElementsOut(env, out, p, subject, pred, elems, fuel).Err? <==> exists i :: 0 <= i < |elems| && elems[i] == Null
    ensures ElementsOut(env, out, p, subject, pred, elems, fuel).Ok? ==>
      forall x :: x in ElementsOut(env, out, p, subject, pred, elems, fuel).value.statements <==>
        x in out.statements || exists i :: 0 <= i < |elems| && x == Statement(subject, pred, ScalarObject(env, p, elems[i]))
    decreases |elems|
  {
    if |elems| > 0 {
      assert forall i :: 1 <= i < |elems| ==> elems[1..][i - 1] == elems[i];
      if elems[0] != Null {
        var out1 := Emit(out, Statement(subject, pred, ScalarObject(env, p, elems[0])));
        ScalarElements(env, out1, p, subject, pred, elems[1..], fuel);
      }
    }
  }

  /**
   * A nested value is linked to its subject before anything about it is
   * written: the link is either already in the model or comes right after
   * what was there. A generated blank node occurs nowhere in the model yet.
   */
  lemma NestedLinkFirst(env: WriteEnv, out: Output, p: FieldProperty, subject: Term, pred: Term, target: Value, fuel: nat)
    requires p.annotation.PredicateAnnotation? && pred.Iri? && p.nested
    requires StatementOut(env, out, p, subject, pred, target, fuel).Ok?
    ensures target != Null && env.analyze(ClassOf(target)).Ok?
    ensures var a := env.analyze(ClassOf(target)).value;
      NestedSubject(env, out, a.subject, subject, target).Ok?
      && var node := NestedSubject(env, out, a.subject, subject, target).value.0;
      var link := Statement(subject, pred, node);
      var r := StatementOut(env, out, p, subject, pred, target, fuel).value;
      (link in out.statements || out.statements + [link] <= r.statements)
      && (node.FreshBNode? && WellTyped(out) ==> forall st :: st in out.statements ==> st.subj != node && st.obj != node)
  {
  }

  /** The subject text of a property-level subject ignores the `relative` flag. */
  lemma RelativeIgnoredForProperty(env: WriteEnv, fp: FieldProperty, relative: bool, subject: Term, target: Value)
    requires fp.annotation.SubjectAnnotation?
    ensures SubjectText(env, FieldLevel(fp), subject, target)
            == SubjectText(env, FieldLevel(fp.(annotation := fp.annotation.(relative := relative))), subject, target)
  {
  }

  /**
   * `write(source, sink, subject)` up to the serialization: the source's
   * descriptor written under the IRI `subject` into a fresh model. What comes
   * out is a set of statements with consistently generated blank nodes.
   */
  function WriteDocument(env: WriteEnv, source: Value, subject: string, fuel: nat): (r: Result<Output, Error>)
    ensures r.Ok? ==> WellFormed(r.value)
  {
    if source == Null then Err(NullPointer)
    else
      var a :- env.analyze(ClassOf(source));
      WriteOut(env, Output([], 0), source, a, Iri(subject), fuel)
  }
}
