/**
 * `ParameterizedIntrinsicTypeResolver` and the first-match selection over the
 * registered resolvers that every type inspector performs.
 */
module IntrinsicTypes {
  import opened Wrappers
  import opened Reflection
  import opened Errors

  /**
   * A registered `IntrinsicTypeResolver`: the parameterized resolver of the
   * core, or another implementation given by the table of generic types it
   * supports and the class it resolves each one to.
   */
  datatype Resolver = ParameterizedResolver | TableResolver(table: map<JType, JClass>)

  /** `(Class<?>) t`: succeeds only when the type term is a class. */
  function AsClass(t: JType): (r: Result<JClass, Error>)
    ensures r.Ok? <==> t.Plain?
    ensures r.Ok? ==> r.value == t.cls
    ensures r.Err? ==> r.error == ClassCast
  {
    if t.Plain? then Ok(t.cls) else Err(ClassCast)
  }

  /**
   * `supports(AnnotatedType)`: true for a parameterized type; for any other
   * type, whether its class declares type parameters. A type variable or a
   * generic array is not a `GenericDeclaration`, so the cast throws.
   */
  function ParameterizedSupports(u: Universe, t: JType): Result<bool, Error>
  {
    match t
    case Parameterized(_, _) => Ok(true)
    case Plain(c) => Ok(Decl(u, c).typeParameterCount > 0)
    case _ => Err(ClassCast)
  }

  /**
   * `resolve(AnnotatedType)`: the first actual type argument, with a wildcard
   * resolved to its lower bound if it has one and else to its upper bound, and
   * a type variable to its first bound or `Object`; a raw generic class
   * resolves to `Object` and a non-generic class is rejected.
   */
  function ParameterizedResolve(u: Universe, t: JType): Result<JClass, Error>
  {
    match t
    case Parameterized(_, args) =>
      if |args| == 0 then Err(IndexOutOfBounds)
      else (
        match args[0]
        case Wildcard(upper, lower) => if lower.Some? then AsClass(lower.value) else AsClass(upper)
        case TypeVar(_, bounds) => if |bounds| > 0 then AsClass(bounds[0]) else Ok(ObjectClass)
        case _ => AsClass(args[0]))
    case Plain(c) =>
      if Decl(u, c).typeParameterCount > 0 then Ok(ObjectClass) else Err(Analysis(NonParameterizedType))
    case _ => Err(ClassCast)
  }

  function Supports(u: Universe, r: Resolver, t: JType): Result<bool, Error>
  {
    match r
    case ParameterizedResolver => ParameterizedSupports(u, t)
    case TableResolver(table) => Ok(t in table)
  }

  function Resolve(u: Universe, r: Resolver, t: JType): Result<JClass, Error>
  {
    match r
    case ParameterizedResolver => ParameterizedResolve(u, t)
    case TableResolver(table) => if t in table then Ok(table[t]) else Err(NoSuchElement)
  }

  /**
   * `resolvers.filter(r -> r.supports(t)).findFirst().map(r -> r.resolve(t))`,
   * falling back to the declared class: `supports` is asked in registration
   * order until one accepts, and that one resolves.
   */
  function FirstResolved(u: Universe, resolvers: seq<Resolver>, t: JType, declared: JClass): Result<JClass, Error>
  {
    if |resolvers| == 0 then Ok(declared)
    else
      match Supports(u, resolvers[0], t)
      case Err(e) => Err(e)
      case Ok(true) => Resolve(u, resolvers[0], t)
      case Ok(false) => FirstResolved(u, resolvers[1..], t, declared)
  }

  // ---- properties of the parameterized resolver ----

  /** `supports` accepts every parameterized type, and a class exactly when it declares type parameters. */
  lemma SupportsCases(u: Universe, t: JType)
    ensures t.Parameterized? ==> ParameterizedSupports(u, t) == Ok(true)
    ensures t.Plain? ==> ParameterizedSupports(u, t) == Ok(Decl(u, t.cls).typeParameterCount > 0)
  {
  }

  /**
   * The analyzer exception "nope" is raised for a non-generic class and for
   * nothing else, so it is never raised for a type `supports` accepts.
   */
  lemma RejectsExactlyNonGeneric(u: Universe, t: JType)
    ensures (ParameterizedResolve(u, t) == Err(Analysis(NonParameterizedType)))
        <==> (t.Plain? && Decl(u, t.cls).typeParameterCount == 0)
    ensures ParameterizedSupports(u, t) == Ok(true) ==> ParameterizedResolve(u, t) != Err(Analysis(NonParameterizedType))
  {
  }

  /** The type argument `resolve` consults is a class, or a wildcard or variable bounded by a class. */
  predicate FirstArgumentIsClassLike(t: JType)
    requires t.Parameterized?
  {
    |t.args| > 0 &&
    match t.args[0]
    case Wildcard(upper, lower) => if lower.Some? then lower.value.Plain? else upper.Plain?
    case TypeVar(_, bounds) => |bounds| == 0 || bounds[0].Plain?
    case Plain(_) => true
    case _ => false
  }

  /** Whenever `supports` accepts and the consulted argument is class-like, `resolve` succeeds. */
  lemma SupportedResolves(u: Universe, t: JType)
    requires ParameterizedSupports(u, t) == Ok(true)
    requires t.Parameterized? ==> FirstArgumentIsClassLike(t)
    ensures ParameterizedResolve(u, t).Ok?
  {
  }

  /** Only the first actual type argument is consulted. */
  lemma OnlyFirstArgument(u: Universe, raw: JClass, raw': JClass, first: JType, rest: seq<JType>, rest': seq<JType>)
    ensures ParameterizedResolve(u, Parameterized(raw, [first] + rest))
         == ParameterizedResolve(u, Parameterized(raw', [first] + rest'))
  {
  }

  /** `<? super X>` resolves to X whatever the upper bound; `<? extends X>` and `<?>` resolve to the upper bound. */
  lemma WildcardArguments(u: Universe, raw: JClass, x: JClass, upper: JType, rest: seq<JType>)
    ensures ParameterizedResolve(u, Parameterized(raw, [Wildcard(upper, Some(Plain(x)))] + rest)) == Ok(x)
    ensures ParameterizedResolve(u, Parameterized(raw, [Wildcard(Plain(x), None)] + rest)) == Ok(x)
  {
  }

  /** `<T extends X & ...>` resolves to X; an unbounded variable resolves to `Object`. */
  lemma TypeVariableArguments(u: Universe, raw: JClass, name: string, x: JClass, bounds: seq<JType>, rest: seq<JType>)
    ensures ParameterizedResolve(u, Parameterized(raw, [TypeVar(name, [Plain(x)] + bounds)] + rest)) == Ok(x)
    ensures ParameterizedResolve(u, Parameterized(raw, [TypeVar(name, [])] + rest)) == Ok(ObjectClass)
  {
  }

  /** `<X>` resolves to X; a raw generic class resolves to `Object`. */
  lemma ConcreteAndRawTypes(u: Universe, raw: JClass, x: JClass, rest: seq<JType>, c: JClass)
    ensures ParameterizedResolve(u, Parameterized(raw, [Plain(x)] + rest)) == Ok(x)
    ensures Decl(u, c).typeParameterCount > 0 ==> ParameterizedResolve(u, Plain(c)) == Ok(ObjectClass)
  {
  }

  // ---- what the resolvers can produce ----

  /** A resolved class is one named in the type term, or `Object`. */
  lemma ResolvedIsMentioned(u: Universe, t: JType, c: JClass)
    requires ParameterizedResolve(u, t) == Ok(c)
    ensures c in Mentioned(t) || c == ObjectClass
  {
    if t.Parameterized? {
      var a := t.args[0];
      assert forall x :: x in Mentioned(a) ==> x in Mentioned(t);
      match a
      case Wildcard(upper, lower) =>
        if lower.Some? {
          assert c in Mentioned(lower.value);
        } else {
          assert c in Mentioned(upper);
        }
      case TypeVar(_, bounds) =>
        if |bounds| > 0 {
          assert c in Mentioned(bounds[0]);
          assert c in Mentioned(a);
        }
      case _ =>
    }
  }

  /** Every class a table resolver produces lies in `classes`. */
  ghost predicate ResolversClosed(resolvers: seq<Resolver>, classes: set<JClass>)
  {
    forall r :: r in resolvers && r.TableResolver? ==> r.table.Values <= classes
  }

  /**
   * First-match resolution never leaves the class universe: its result is the
   * declared class, a class named in the type term, `Object`, or a table entry.
   */
  lemma {:induction false} FirstResolvedStaysInside(u: Universe, resolvers: seq<Resolver>, t: JType,
                                                    declared: JClass, classes: set<JClass>)
    requires ResolversClosed(resolvers, classes)
    requires declared in classes && ObjectClass in classes && Mentioned(t) <= classes
    requires FirstResolved(u, resolvers, t, declared).Ok?
    ensures FirstResolved(u, resolvers, t, declared).value in classes
  {
    if |resolvers| > 0 {
      match Supports(u, resolvers[0], t)
      case Err(_) =>
      case Ok(true) =>
        if resolvers[0].ParameterizedResolver? {
          ResolvedIsMentioned(u, t, FirstResolved(u, resolvers, t, declared).value);
        } else {
          assert resolvers[0] in resolvers;
          assert resolvers[0].table[t] in resolvers[0].table.Values;
        }
      case Ok(false) =>
        assert ResolversClosed(resolvers[1..], classes) by {
          forall r | r in resolvers[1..] ensures r in resolvers { }
        }
        FirstResolvedStaysInside(u, resolvers[1..], t, declared, classes);
    }
  }

  /** With no resolver registered, or none supporting the type, the intrinsic type is the declared one. */
  lemma {:induction false} FallbackWhenNoneSupports(u: Universe, resolvers: seq<Resolver>, t: JType, declared: JClass)
    requires forall i :: 0 <= i < |resolvers| ==> Supports(u, resolvers[i], t) == Ok(false)
    ensures FirstResolved(u, resolvers, t, declared) == Ok(declared)
  {
    if |resolvers| > 0 {
      assert Supports(u, resolvers[0], t) == Ok(false);
      FallbackWhenNoneSupports(u, resolvers[1..], t, declared);
    }
  }

  /** The first resolver that supports the type decides; later ones are never asked. */
  lemma {:induction false} FirstSupportingDecides(u: Universe, resolvers: seq<Resolver>, t: JType, declared: JClass, k: nat)
    requires k < |resolvers|
    requires forall i :: 0 <= i < k ==> Supports(u, resolvers[i], t) == Ok(false)
    requires Supports(u, resolvers[k], t) == Ok(true)
    ensures FirstResolved(u, resolvers, t, declared) == Resolve(u, resolvers[k], t)
  {
    if k > 0 {
      assert Supports(u, resolvers[0], t) == Ok(false);
      FirstSupportingDecides(u, resolvers[1..], t, declared, k - 1);
    }
  }
}
