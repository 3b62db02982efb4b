/**
 * The class universe that stands in for Java reflection: classes, their generic
 * type terms, annotations and declarations. Every query the core makes through
 * `java.lang.Class` or `java.lang.reflect` is a function over these values.
 */
module Reflection {
  import opened Wrappers

  /** A Java identifier; the language guarantees it is not empty. */
  type Identifier = s: string | |s| > 0 witness "x"

  /** A runtime class: a primitive, an array class, or a named class or interface. */
  datatype JClass =
    | Primitive(name: string)
    | ArrayOf(component: JClass)
    | Named(packageName: string, binaryName: string)

  const BooleanClass: JClass := Primitive("boolean")
  const ObjectClass: JClass := Named("java.lang", "java.lang.Object")

  /** A generic type term, as `java.lang.reflect.Type` / `AnnotatedType` expose it. */
  datatype JType =
    | Plain(cls: JClass)
    | Parameterized(raw: JClass, args: seq<JType>)
    | Wildcard(upper: JType, lower: Option<JType>)
    | TypeVar(name: string, bounds: seq<JType>)
    | GenericArray(component: JType)

  /** Every class named anywhere inside a generic type term. */
  function Mentioned(t: JType): set<JClass>
  {
    match t
    case Plain(c) => {c}
    case Parameterized(raw, args) => {raw} + (set i, x | 0 <= i < |args| && x in Mentioned(args[i]) :: x)
    case Wildcard(upper, lower) => Mentioned(upper) + (if lower.Some? then Mentioned(lower.value) else {})
    case TypeVar(_, bounds) => set i, x | 0 <= i < |bounds| && x in Mentioned(bounds[i]) :: x
    case GenericArray(component) => Mentioned(component)
  }

  /** The mapping annotations the core recognises, with their attribute values. */
  datatype Annotation =
    | PredicateAnnotation(iri: string, required: bool, readonly: bool, literal: bool, datatypeIri: string)
    | SubjectAnnotation(value: string, relative: bool, separator: char, blankNode: bool)
    | SemanticTypeAnnotation(iris: seq<string>)
    | OtherAnnotation(name: string)

  /** The annotation classes `@Predicate`, `@Subject` and `@SemanticType`. */
  datatype AnnotationKind = PredicateKind | SubjectKind | SemanticTypeKind

  predicate OfKind(a: Annotation, k: AnnotationKind)
  {
    match k
    case PredicateKind => a.PredicateAnnotation?
    case SubjectKind => a.SubjectAnnotation?
    case SemanticTypeKind => a.SemanticTypeAnnotation?
  }

  /** `getAnnotation(kind)`: the annotation of that kind on an element, if any. */
  function AnnotationOf(annotations: seq<Annotation>, k: AnnotationKind): (r: Option<Annotation>)
    ensures r.Some? ==> r.value in annotations && OfKind(r.value, k)
    ensures r.None? ==> forall a :: a in annotations ==> !OfKind(a, k)
  {
    if |annotations| == 0 then None
    else if OfKind(annotations[0], k) then Some(annotations[0])
    else AnnotationOf(annotations[1..], k)
  }

  datatype FieldDecl = FieldDecl(name: Identifier, fieldType: JClass, genericType: JType, annotations: seq<Annotation>)

  datatype MethodDecl = MethodDecl(
    name: string, params: seq<JClass>, returnType: JClass, isStatic: bool, annotations: seq<Annotation>)

  /** A constructor parameter; `compiledName` is present when the class was compiled with `-parameters`. */
  datatype ParameterDecl = ParameterDecl(compiledName: Option<string>, paramType: JClass)

  /** A declared constructor; `constructorProperties` is the value of its `@ConstructorProperties`, if any. */
  datatype ConstructorDecl = ConstructorDecl(params: seq<ParameterDecl>, constructorProperties: Option<seq<string>>)

  /** `Constructor.getParameterTypes()`: the declared type of each parameter, in order. */
  function ParameterTypes(ctor: ConstructorDecl): (types: seq<JClass>)
    ensures |types| == |ctor.params|
    ensures forall i :: 0 <= i < |ctor.params| ==> types[i] == ctor.params[i].paramType
  {
    seq(|ctor.params|, i requires 0 <= i < |ctor.params| => ctor.params[i].paramType)
  }

  datatype ComponentDecl = ComponentDecl(name: string, componentType: JClass, genericType: JType, annotations: seq<Annotation>)

  /**
   * What reflection reports about one class. `publicMethods` is what `getMethod`
   * searches (public members, inherited ones included); `declaredMethods` is what
   * `getDeclaredMethod` searches.
   */
  datatype ClassDecl = ClassDecl(
    simpleName: string,
    superclass: Option<JClass>,
    isRecord: bool,
    typeParameterCount: nat,
    fields: seq<FieldDecl>,
    publicMethods: seq<MethodDecl>,
    declaredMethods: seq<MethodDecl>,
    constructors: seq<ConstructorDecl>,
    components: seq<ComponentDecl>,
    declaredClasses: seq<JClass>,
    annotations: seq<Annotation>)

  const EmptyDecl := ClassDecl("", None, false, 0, [], [], [], [], [], [], [])

  /** The classes a program can name, and the declarations of those that have any. */
  datatype Universe = Universe(classes: set<JClass>, decls: map<JClass, ClassDecl>)

  function Decl(u: Universe, c: JClass): ClassDecl
  {
    if c in u.decls then u.decls[c] else EmptyDecl
  }

  /** Everything a declaration refers to is itself a class of the universe. */
  ghost predicate DeclClosed(classes: set<JClass>, d: ClassDecl)
  {
    && (d.superclass.Some? ==> d.superclass.value in classes)
    && (forall f :: f in d.fields ==> f.fieldType in classes && Mentioned(f.genericType) <= classes)
    && (forall p :: p in d.components ==> p.componentType in classes && Mentioned(p.genericType) <= classes)
    && (forall m :: m in d.publicMethods ==> m.returnType in classes)
  }

  /** Reflection never yields a class outside the universe. */
  ghost predicate Closed(u: Universe)
  {
    && ObjectClass in u.classes
    && u.decls.Keys <= u.classes
    && forall c :: c in u.decls ==> DeclClosed(u.classes, u.decls[c])
  }

  lemma DeclOfClosed(u: Universe, c: JClass)
    requires Closed(u)
    ensures DeclClosed(u.classes, Decl(u, c))
  {
  }

  /** A method handle, identified by the method it was unreflected from. */
  datatype MethodRef = MethodRef(owner: JClass, name: string, params: seq<JClass>)

  /** `Class.getMethod(name, params)`: the first public method with that name and parameter list. */
  function GetMethod(u: Universe, c: JClass, name: string, params: seq<JClass>): (r: Option<MethodDecl>)
    ensures r.Some? ==> r.value in Decl(u, c).publicMethods && r.value.name == name && r.value.params == params
    ensures r.None? ==> forall m :: m in Decl(u, c).publicMethods ==> !(m.name == name && m.params == params)
  {
    FindMethod(Decl(u, c).publicMethods, name, params)
  }

  /** `Class.getDeclaredMethod(name, params)`. */
  function GetDeclaredMethod(u: Universe, c: JClass, name: string, params: seq<JClass>): (r: Option<MethodDecl>)
    ensures r.Some? ==> r.value in Decl(u, c).declaredMethods && r.value.name == name && r.value.params == params
    ensures r.None? ==> forall m :: m in Decl(u, c).declaredMethods ==> !(m.name == name && m.params == params)
  {
    FindMethod(Decl(u, c).declaredMethods, name, params)
  }

  function FindMethod(ms: seq<MethodDecl>, name: string, params: seq<JClass>): (r: Option<MethodDecl>)
    ensures r.Some? ==> r.value in ms && r.value.name == name && r.value.params == params
    ensures r.None? ==> forall m :: m in ms ==> !(m.name == name && m.params == params)
  {
    if |ms| == 0 then None
    else if ms[0].name == name && ms[0].params == params then Some(ms[0])
    else FindMethod(ms[1..], name, params)
  }

  /** `Class.getDeclaredField(name)`. */
  function GetDeclaredField(u: Universe, c: JClass, name: string): (r: Option<FieldDecl>)
    ensures r.Some? ==> r.value in Decl(u, c).fields && r.value.name == name
    ensures r.None? ==> forall f :: f in Decl(u, c).fields ==> f.name != name
  {
    FindField(Decl(u, c).fields, name)
  }

  function FindField(fs: seq<FieldDecl>, name: string): (r: Option<FieldDecl>)
    ensures r.Some? ==> r.value in fs && r.value.name == name
    ensures r.None? ==> forall f :: f in fs ==> f.name != name
  {
    if |fs| == 0 then None
    else if fs[0].name == name then Some(fs[0])
    else FindField(fs[1..], name)
  }

  /**
   * `Arrays.stream(getDeclaredConstructors()).filter(c -> c.isAnnotationPresent(ConstructorProperties.class)).findFirst()`.
   */
  function FirstPropertiesConstructor(ctors: seq<ConstructorDecl>): (r: Option<ConstructorDecl>)
    ensures r.Some? ==> r.value in ctors && r.value.constructorProperties.Some?
    ensures r.Some? ==> exists i :: 0 <= i < |ctors| && ctors[i] == r.value
                           && forall j :: 0 <= j < i ==> ctors[j].constructorProperties.None?
    ensures r.None? <==> forall k :: k in ctors ==> k.constructorProperties.None?
  {
    if |ctors| == 0 then None
    else if ctors[0].constructorProperties.Some? then Some(ctors[0])
    else
      var r := FirstPropertiesConstructor(ctors[1..]);
      if r.Some? then
        ghost var i :| 0 <= i < |ctors[1..]| && ctors[1..][i] == r.value
                       && forall j :: 0 <= j < i ==> ctors[1..][j].constructorProperties.None?;
        assert ctors[i + 1] == r.value;
        r
      else
        assert forall k :: k in ctors ==> k == ctors[0] || k in ctors[1..];
        r
  }

  function HandleOf(owner: JClass, m: MethodDecl): MethodRef
  {
    MethodRef(owner, m.name, m.params)
  }
}
