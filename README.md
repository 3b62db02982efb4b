# transmog — a Dafny model of the analysis and RDF codec engine

transmog maps Java objects to RDF graphs and back. This project models its engine in Dafny and proves properties of that model:

- **The class analyzer.** `CoreTransmogAnalyzer` turns a class into a `ClassAnalysis` descriptor: a subject, semantic types, predicates and an instance factory. It keeps a per-class cache and an in-progress stack. It starts a subclass from a copy of its superclass's descriptor, picks the first registered strategy or inspector that supports a class, and classifies every property as *nested* or *scalar*.
- **The four type inspectors** (constructor, bean, builder, record). Each walks the elements of a class in order and hands a `FieldPropertyAnalysis.Builder` to a consumer for each annotated element. Each has its own naming rules, annotation precedence and error cases.
- **The descriptors** `ClassAnalysis` and `FieldPropertyAnalysis`, with their mutable builders.
- **The reader** `CoreTransmogReader.readInternal` / `readArgument`. It reads an object back from a model: a required/readonly decision table per property, then instance and argument strategies filled one `add` at a time.
- **The writer** `CoreTransmogWriter.writeInternal` / `writeStatement` / `unwrap` / `iterate`. It emits `rdf:type` and predicate statements into a `LinkedHashModel`. It gives nested entities an absolute, relative or blank-node subject.
- **The helpers and accumulators:**
  - `TransmogUtil.isSystemClass`;
  - the generic-type case analysis of `ParameterizedIntrinsicTypeResolver`;
  - the fixed-capacity buffer of `ArrayArgumentStrategy`;
  - the argument slots of `RecordInstanceStrategy` and `ConstructorInstanceStrategy`.

## How the model is organised

- **Reflection** is replaced by a finite `Universe` (`reflection.dfy`): for each class, its package, flags, superclass, declared fields, public and declared methods, constructors, record components, nested classes and annotations.
  - `Closed(u)` says every class a declaration mentions is in the universe. The analyzer's termination measure is the number of universe classes not yet on its stack.
- **Method handles, converters, wrapper handlers and the constructors the strategies call** are code the core cannot see. They are function parameters (`ReadEnv`, `WriteEnv`, the `construct` argument of `Create`).
- **The imperative core files are imperative Dafny.** Each class with fields the source updates in place is a `class`:
  - `ClassAnalysisBuilder`, `PropertyBuilder`, `ArrayArguments` (an `array` and a fill counter);
  - `RecordInstances` and `ConstructorInstances` (argument `array`s written slot by slot);
  - `CoreTransmogAnalyzer` (registry lists and the cache);
  - `Graph` (the writer's statement sink).
- **Each loop of the source is a `method` with a loop.** The loops are the inspectors' element loops, the reader's property and object loops, the writer's type, predicate and element loops, and the record strategy's index map.
- **Each method is proved against a pure specification function of its inputs or its old state.**
  - An inspector's result is `Run` of its per-element steps: the builders handed over before the first exception, then that exception.
  - The reader's result is `ReadInstance`.
  - The writer's new sink is `WriteOut` of the old one.
  - A successful analysis returns `Describe` of the registry and the inherited descriptor. When every class the analysis meets is a system class, already cached or on the stack, the result is exactly `Describe`'s, success or error, and the cache and stack stay as they were.
- **The properties** are proved about those functions as lemmas.
- **Recursion over a possibly cyclic graph carries a `fuel` bound.** This covers the reader over a model, and the writer over nested objects. Running out of fuel is the `StackOverflow` error that the unbounded Java recursion would raise.

Files: `wrappers.dfy`, `errors.dfy`, `reflection.dfy`, `spi.dfy`, `rdf.dfy`, `transmog_util.dfy`, `naming.dfy`, `intrinsic_types.dfy`, `property_analysis.dfy`, `class_analysis.dfy`, `inspection.dfy`, the four `*_type_inspector.dfy`, the three strategy files, `analyzer.dfy`, `reader.dfy` and `writer.dfy`.

## Model

| member | source | states |
|---|---|---|
| TransmogUtil.IsSystemClass | transmog-core/src/main/java/io/github/fairdevkit/transmog/core/util/TransmogUtil.java:31-41 | definition: a primitive class is a system class, an array class is one exactly when its component class is, and any other class is one when its whole package name matches `^java(x?)\..+`; what this admits and rejects is stated by the lemmas below |
| TransmogUtil.ArraySystemIffElement | transmog-core/src/main/java/io/github/fairdevkit/transmog/core/util/TransmogUtil.java:31-41 | an array class (of any depth) is a system class exactly when its element class is; the recursion follows the component chain |
| TransmogUtil.PrimitiveArraysAreSystem | transmog-core/src/main/java/io/github/fairdevkit/transmog/core/util/TransmogUtil.java:32-38 | every primitive class, and every array of one, is a system class |
| TransmogUtil.JdkSubpackagesAreSystem | transmog-core/src/main/java/io/github/fairdevkit/transmog/core/util/TransmogUtil.java:29-40 | a named class whose package is `java.` or `javax.` followed by at least one character that is not a line terminator is a system class |
| TransmogUtil.NearMissesAreNotSystem | transmog-core/src/main/java/io/github/fairdevkit/transmog/core/util/TransmogUtil.java:29-40 | packages named exactly `java`, `java.`, `javafx.…` or the default package are not system packages |
| Naming.Capitalize | transmog-support-bean/src/main/java/io/github/fairdevkit/transmog/bean/BeanTypeInspector.java:89-91 | same length; the first character upper-cased (ASCII), and no other character changed |
| Naming.CapitalizeIdempotent | transmog-support-constructor/src/main/java/io/github/fairdevkit/transmog/constructor/ConstructorTypeInspector.java:122-124 | capitalising twice equals capitalising once |
| Naming.CapitalizeFixesCapitalised | transmog-support-builder/src/main/java/io/github/fairdevkit/transmog/builder/BuilderTypeInspector.java:115-117 | a name that does not start with a lower-case letter is unchanged |
| Naming.GetterPrefix | transmog-support-bean/src/main/java/io/github/fairdevkit/transmog/bean/BeanTypeInspector.java:47 | the getter prefix is `is` exactly for primitive `boolean`, otherwise `get` |
| Naming.GetterName | transmog-support-bean/src/main/java/io/github/fairdevkit/transmog/bean/BeanTypeInspector.java:43-48 | definition: the getter looked up for a field is `is` (primitive `boolean`) or `get`, then the capitalised field name; `GetterNameShape` states its shape |
| Naming.SetterName | transmog-support-bean/src/main/java/io/github/fairdevkit/transmog/bean/BeanTypeInspector.java:55 | definition: the bean setter looked up for a field is `set` then the capitalised field name |
| Naming.GetterNameShape | transmog-support-constructor/src/main/java/io/github/fairdevkit/transmog/constructor/ConstructorTypeInspector.java:81-83 | the getter name is `is`/`get` followed by the capitalised field name: its length and every character after the first of the name |
| IntrinsicTypes.ParameterizedSupports | transmog-support-common/src/main/java/io/github/fairdevkit/transmog/common/ParameterizedIntrinsicTypeResolver.java:48-55 | definition: a parameterized type is supported; another type is supported when its class declares type parameters; a type that is not a `GenericDeclaration` fails the cast; `SupportsCases` and `RejectsExactlyNonGeneric` state the cases |
| IntrinsicTypes.ParameterizedResolve | transmog-support-common/src/main/java/io/github/fairdevkit/transmog/common/ParameterizedIntrinsicTypeResolver.java:68-106 | definition: the first type argument (a wildcard's lower bound, else its upper bound; a type variable's first bound, else `Object`), `Object` for a raw generic class, and an analysis error for a non-generic class; the lemmas below state the cases |
| IntrinsicTypes.AsClass | transmog-support-common/src/main/java/io/github/fairdevkit/transmog/common/ParameterizedIntrinsicTypeResolver.java:77-95 | the `(Class<?>)` cast succeeds exactly on a class term and returns it; on any other term it is a `ClassCastException` |
| IntrinsicTypes.SupportsCases | transmog-support-common/src/main/java/io/github/fairdevkit/transmog/common/ParameterizedIntrinsicTypeResolver.java:48-55 | `supports` is true for every parameterized type; for a plain class it is true exactly when the class declares a type parameter |
| IntrinsicTypes.RejectsExactlyNonGeneric | transmog-support-common/src/main/java/io/github/fairdevkit/transmog/common/ParameterizedIntrinsicTypeResolver.java:96-105 | `resolve` throws the analysis error exactly for a plain class without type parameters, so never on a type `supports` accepts |
| IntrinsicTypes.SupportedResolves | transmog-support-common/src/main/java/io/github/fairdevkit/transmog/common/ParameterizedIntrinsicTypeResolver.java:68-107 | on a supported type whose first argument is a class, bound or variable, `resolve` succeeds |
| IntrinsicTypes.OnlyFirstArgument | transmog-support-common/src/main/java/io/github/fairdevkit/transmog/common/ParameterizedIntrinsicTypeResolver.java:70-72 | the result depends only on the first actual type argument, not on the raw type or the later arguments |
| IntrinsicTypes.WildcardArguments | transmog-support-common/src/main/java/io/github/fairdevkit/transmog/common/ParameterizedIntrinsicTypeResolver.java:74-82 | `? super X` resolves to X, whatever the upper bound; `? extends X` and a bare `?` resolve to the upper bound |
| IntrinsicTypes.TypeVariableArguments | transmog-support-common/src/main/java/io/github/fairdevkit/transmog/common/ParameterizedIntrinsicTypeResolver.java:84-92 | a type variable resolves to its first bound, or to `Object` when it has none |
| IntrinsicTypes.ConcreteAndRawTypes | transmog-support-common/src/main/java/io/github/fairdevkit/transmog/common/ParameterizedIntrinsicTypeResolver.java:94-102 | `<X>` resolves to X; a raw generic class resolves to `Object` |
| IntrinsicTypes.ResolvedIsMentioned | transmog-support-common/src/main/java/io/github/fairdevkit/transmog/common/ParameterizedIntrinsicTypeResolver.java:68-107 | a resolved class is one the type term mentions, or `Object` |
| IntrinsicTypes.FallbackWhenNoneSupports | transmog-support-bean/src/main/java/io/github/fairdevkit/transmog/bean/BeanTypeInspector.java:70-75 | when no resolver supports the element, the intrinsic type is its declared type |
| IntrinsicTypes.FirstSupportingDecides | transmog-support-constructor/src/main/java/io/github/fairdevkit/transmog/constructor/ConstructorTypeInspector.java:105-111 | when resolver k is the first that supports the element, the outcome is resolver k's `resolve` |
| IntrinsicTypes.FirstResolvedStaysInside | transmog-support-builder/src/main/java/io/github/fairdevkit/transmog/builder/BuilderTypeInspector.java:90-96 | a resolved intrinsic type lies in the universe when the resolvers and the declared type do |
| Reflection.AnnotationOf | transmog-support-constructor/src/main/java/io/github/fairdevkit/transmog/constructor/ConstructorTypeInspector.java:88-89 | `getAnnotation`: an annotation of the requested kind from the list, or none exactly when the list has no such annotation |
| Reflection.GetMethod | transmog-support-bean/src/main/java/io/github/fairdevkit/transmog/bean/BeanTypeInspector.java:45-58 | `getMethod`: a public method with that name and parameter types, or none exactly when there is no such method |
| Reflection.GetDeclaredMethod | transmog-support-builder/src/main/java/io/github/fairdevkit/transmog/builder/BuilderTypeInspector.java:98-103 | `getDeclaredMethod`: a declared method with that name and parameter types, or none exactly when there is no such method |
| Reflection.GetDeclaredField | transmog-support-constructor/src/main/java/io/github/fairdevkit/transmog/constructor/ConstructorTypeInspector.java:72-77 | `getDeclaredField`: the declared field with that name, or none exactly when there is no such field |
| Reflection.FirstPropertiesConstructor | transmog-support-constructor/src/main/java/io/github/fairdevkit/transmog/constructor/ConstructorTypeInspector.java:55-58 | the first declared constructor carrying `@ConstructorProperties`; none exactly when no constructor carries it |
| Spi.FirstHandler | transmog-support-builder/src/main/java/io/github/fairdevkit/transmog/builder/BuilderTypeInspector.java:106-109 | the first registered wrapper handler that supports the class, with none before it supporting it; none exactly when no handler does |
| Inspection.Stop | transmog-support-constructor/src/main/java/io/github/fairdevkit/transmog/constructor/ConstructorTypeInspector.java:62-119 | where an inspection loop stops: no element before it fails, and the element there (if any) fails |
| Inspection.RunCharacterisation | transmog-support-bean/src/main/java/io/github/fairdevkit/transmog/bean/BeanTypeInspector.java:42-86 | an inspection hands over, in element order, the builders of the yielding elements before the first failure, and ends with that failure exactly when there is one |
| Inspection.NoFailureYieldsAll | transmog-support-record/src/main/java/io/github/fairdevkit/transmog/record/RecordTypeInspector.java:46-66 | with no failing element, every yielding element's builder is handed over and the inspection ends normally |
| Inspection.YieldedComeFromSteps | transmog-support-builder/src/main/java/io/github/fairdevkit/transmog/builder/BuilderTypeInspector.java:64-112 | every builder handed over comes from a yielding element before the stop |
| Inspection.IndexedRunIncreasing | transmog-support-constructor/src/main/java/io/github/fairdevkit/transmog/constructor/ConstructorTypeInspector.java:62-118 | when element i can only yield index i, the consumer receives strictly increasing indices |
| Inspection.Advance | transmog-support-bean/src/main/java/io/github/fairdevkit/transmog/bean/BeanTypeInspector.java:42-86 | one loop iteration: a failing element ends the inspection, a skipped one adds nothing, a yielding one appends its builder |
| PropertyAnalysis.Build | transmog-spi/src/main/java/io/github/fairdevkit/transmog/spi/analyzer/FieldPropertyAnalysis.java:40-49 | `build()` succeeds exactly when annotation, name, type, accessor, factory and the family's own field are set (else `NullPointerException`; the annotation check is the super constructor's, transmog-spi/src/main/java/io/github/fairdevkit/transmog/spi/analyzer/AnnotationPropertyAnalysis.java:33), and keeps every value the builder holds |
| PropertyAnalysis.BuildAsWritten | transmog-spi/src/main/java/io/github/fairdevkit/transmog/spi/analyzer/FieldPropertyAnalysis.java:47 | the constructor as written: it also fails with `NullPointerException` when no value converter is set |
| PropertyAnalysis.NestedRejectedAsWritten | transmog-spi/src/main/java/io/github/fairdevkit/transmog/spi/analyzer/FieldPropertyAnalysis.java:47 | a complete nested builder without a converter is rejected as written, but built by `Build` |
| PropertyAnalysis.BuildRoundTrip | transmog-spi/src/main/java/io/github/fairdevkit/transmog/spi/analyzer/FieldPropertyAnalysis.java:51-73 | the getters return what was given: building the builder state of a descriptor gives back that descriptor |
| PropertyAnalysis.BuildKeepsDraft | transmog-spi/src/main/java/io/github/fairdevkit/transmog/spi/analyzer/FieldPropertyAnalysis.java:51-73 | a built descriptor holds exactly the builder's fields, so reading them back gives the same builder state |
| PropertyAnalysis.PropertyBuilder.constructor | transmog-spi/src/main/java/io/github/fairdevkit/transmog/spi/analyzer/FieldPropertyAnalysis.java:83-84 | a fresh builder has every reference field unset and `nested` false |
| PropertyAnalysis.PropertyBuilder.Resume | transmog-core/src/main/java/io/github/fairdevkit/transmog/core/analyzer/CoreTransmogAnalyzer.java:157-160 | a builder that continues from a given state (the builder an inspector handed over) |
| PropertyAnalysis.PropertyBuilder.Annotation | transmog-spi/src/main/java/io/github/fairdevkit/transmog/spi/analyzer/AnnotationPropertyAnalysis.java:50-53 | sets the annotation only and returns the same builder |
| PropertyAnalysis.PropertyBuilder.Name | transmog-spi/src/main/java/io/github/fairdevkit/transmog/spi/analyzer/FieldPropertyAnalysis.java:86-89 | sets the name only and returns the same builder |
| PropertyAnalysis.PropertyBuilder.Type | transmog-spi/src/main/java/io/github/fairdevkit/transmog/spi/analyzer/FieldPropertyAnalysis.java:91-94 | sets the declared type only and returns the same builder |
| PropertyAnalysis.PropertyBuilder.IntrinsicType | transmog-support-bean/src/main/java/io/github/fairdevkit/transmog/bean/BeanTypeInspector.java:70-75 | sets the intrinsic type only and returns the same builder |
| PropertyAnalysis.PropertyBuilder.Accessor | transmog-spi/src/main/java/io/github/fairdevkit/transmog/spi/analyzer/FieldPropertyAnalysis.java:96-99 | sets the accessor only and returns the same builder |
| PropertyAnalysis.PropertyBuilder.Factory | transmog-spi/src/main/java/io/github/fairdevkit/transmog/spi/analyzer/FieldPropertyAnalysis.java:101-104 | sets the argument factory only and returns the same builder |
| PropertyAnalysis.PropertyBuilder.ValueConverter | transmog-spi/src/main/java/io/github/fairdevkit/transmog/spi/analyzer/FieldPropertyAnalysis.java:106-109 | sets the value converter only and returns the same builder |
| PropertyAnalysis.PropertyBuilder.WrapperHandler | transmog-support-constructor/src/main/java/io/github/fairdevkit/transmog/constructor/ConstructorTypeInspector.java:113-116 | sets the wrapper handler only and returns the same builder |
| PropertyAnalysis.PropertyBuilder.Nested | transmog-spi/src/main/java/io/github/fairdevkit/transmog/spi/analyzer/FieldPropertyAnalysis.java:111-114 | sets the nested flag only and returns the same builder |
| PropertyAnalysis.PropertyBuilder.Index | transmog-support-constructor/src/main/java/io/github/fairdevkit/transmog/constructor/ConstructorPropertyAnalysis.java:58-61 | sets the constructor index only and returns the same builder |
| PropertyAnalysis.PropertyBuilder.BuilderProperty | transmog-support-builder/src/main/java/io/github/fairdevkit/transmog/builder/BuilderPropertyAnalysis.java:58-61 | sets the builder method only and returns the same builder |
| PropertyAnalysis.PropertyBuilder.Mutator | transmog-support-bean/src/main/java/io/github/fairdevkit/transmog/bean/BeanPropertyAnalysis.java:56-59 | sets the setter only and returns the same builder |
| ClassAnalysis.ClassAnalysisBuilder.constructor | transmog-spi/src/main/java/io/github/fairdevkit/transmog/spi/analyzer/ClassAnalysis.java:54-57 | `builder()` builds no subject, no types, no predicates and no factory |
| ClassAnalysis.ClassAnalysisBuilder.Copy | transmog-spi/src/main/java/io/github/fairdevkit/transmog/spi/analyzer/ClassAnalysis.java:59-67 | `copy(src)` builds exactly `src`: its subject, its types and predicates in order, its factory; the source value is never changed |
| ClassAnalysis.ClassAnalysisBuilder.Subject | transmog-spi/src/main/java/io/github/fairdevkit/transmog/spi/analyzer/ClassAnalysis.java:69-72 | overwrites the subject (the last call wins) and changes nothing else |
| ClassAnalysis.ClassAnalysisBuilder.Type | transmog-spi/src/main/java/io/github/fairdevkit/transmog/spi/analyzer/ClassAnalysis.java:74-77 | appends one type entry after the earlier ones and changes nothing else |
| ClassAnalysis.ClassAnalysisBuilder.Predicate | transmog-spi/src/main/java/io/github/fairdevkit/transmog/spi/analyzer/ClassAnalysis.java:79-82 | appends one predicate after the earlier ones and changes nothing else |
| ClassAnalysis.ClassAnalysisBuilder.Factory | transmog-spi/src/main/java/io/github/fairdevkit/transmog/spi/analyzer/ClassAnalysis.java:84-87 | overwrites the instance factory (the last call wins) and changes nothing else |
| ArrayArgumentStrategy.FactorySupports | transmog-support-common/src/main/java/io/github/fairdevkit/transmog/common/ArrayArgumentStrategy.java:67-69 | definition: the strategy serves array-typed properties |
| ArrayArgumentStrategy.Start | transmog-support-common/src/main/java/io/github/fairdevkit/transmog/common/ArrayArgumentStrategy.java:39-42 | definition: an empty buffer for the component class and size; a primitive component class fails the `Object[]` cast |
| ArrayArgumentStrategy.Append | transmog-support-common/src/main/java/io/github/fairdevkit/transmog/common/ArrayArgumentStrategy.java:45-53 | definition: a value is appended while fewer than the allocated size are held, else the array-full read error; `AppendAllCollects` states the effect of a sequence of adds |
| ArrayArgumentStrategy.Finish | transmog-support-common/src/main/java/io/github/fairdevkit/transmog/common/ArrayArgumentStrategy.java:56-62 | definition: the array of the held values when exactly the allocated size is held, else the underfilled read error; `RoundTrip` states add-then-create |
| ArrayArgumentStrategy.AppendAllCollects | transmog-support-common/src/main/java/io/github/fairdevkit/transmog/common/ArrayArgumentStrategy.java:45-53 | a run of `add` calls succeeds exactly when it stays within the size; then the values are kept in insertion order; otherwise it is the "array full" read error |
| ArrayArgumentStrategy.RoundTrip | transmog-support-common/src/main/java/io/github/fairdevkit/transmog/common/ArrayArgumentStrategy.java:39-62 | adding exactly `size` values and calling `create` returns them in order; fewer is the "not populated" read error; more fails in `add` |
| ArrayArgumentStrategy.ArrayArguments.constructor | transmog-support-common/src/main/java/io/github/fairdevkit/transmog/common/ArrayArgumentStrategy.java:39-42 | the buffer has `size` null slots, the target is `size` and the fill index is 0 |
| ArrayArgumentStrategy.ArrayArguments.Add | transmog-support-common/src/main/java/io/github/fairdevkit/transmog/common/ArrayArgumentStrategy.java:45-53 | fails exactly when the buffer is full, changing nothing; otherwise writes slot `index`, leaves every other slot, and advances `index` by one; `0 <= index <= length` is kept |
| ArrayArgumentStrategy.ArrayArguments.Create | transmog-support-common/src/main/java/io/github/fairdevkit/transmog/common/ArrayArgumentStrategy.java:56-62 | succeeds exactly when `index == size`, returning the buffer; it changes nothing, so repeated calls agree |
| ArrayArgumentStrategy.Create | transmog-support-common/src/main/java/io/github/fairdevkit/transmog/common/ArrayArgumentStrategy.java:72-74 | `Factory.create` sizes a fresh buffer to the count for a reference component class; a primitive component class fails the `Object[]` cast |
| ConstructorInstanceStrategy.FactorySupports | transmog-support-constructor/src/main/java/io/github/fairdevkit/transmog/constructor/ConstructorInstanceStrategy.java:105-108 | definition: some declared constructor carries `@ConstructorProperties` |
| ConstructorInstanceStrategy.Start | transmog-support-constructor/src/main/java/io/github/fairdevkit/transmog/constructor/ConstructorInstanceStrategy.java:47-72 | definition: the first annotated constructor's handle and one null slot per listed name; no annotated constructor, or a name count other than the parameter count, is a read error; `StartIffSupported` states when it succeeds |
| ConstructorInstanceStrategy.Put | transmog-support-constructor/src/main/java/io/github/fairdevkit/transmog/constructor/ConstructorInstanceStrategy.java:75-83 | definition: a constructor-family property's value goes to its index (out of range fails); a property of another family is ignored; `PutSlot` and `PutCommutes` state the effect |
| ConstructorInstanceStrategy.Construct | transmog-support-constructor/src/main/java/io/github/fairdevkit/transmog/constructor/ConstructorInstanceStrategy.java:87-93 | definition: the constructor invoked on the slots; anything it throws becomes a read error |
| ConstructorInstanceStrategy.StartIffSupported | transmog-support-constructor/src/main/java/io/github/fairdevkit/transmog/constructor/ConstructorInstanceStrategy.java:47-72 | the strategy exists exactly when there is an annotated constructor whose annotation lists one name per parameter (so `Factory.supports` holds), with one slot per parameter |
| ConstructorInstanceStrategy.InspectedIndicesFit | transmog-support-constructor/src/main/java/io/github/fairdevkit/transmog/constructor/ConstructorInstanceStrategy.java:71-79 | every index the constructor inspector yields is a slot of the strategy for the same class |
| ConstructorInstanceStrategy.PutSlot | transmog-support-constructor/src/main/java/io/github/fairdevkit/transmog/constructor/ConstructorInstanceStrategy.java:75-83 | `add` stores the value at the property's index and leaves the other slots; a property of another family is a silent no-op |
| ConstructorInstanceStrategy.PutCommutes | transmog-support-constructor/src/main/java/io/github/fairdevkit/transmog/constructor/ConstructorInstanceStrategy.java:75-83 | values for two different indices land in the same slots in either order |
| ConstructorInstanceStrategy.PutAllInOrder | transmog-support-constructor/src/main/java/io/github/fairdevkit/transmog/constructor/ConstructorInstanceStrategy.java:75-83 | adding consecutive indices writes exactly that stretch of slots with the values, in order |
| ConstructorInstanceStrategy.FilledInParameterOrder | transmog-support-constructor/src/main/java/io/github/fairdevkit/transmog/constructor/ConstructorInstanceStrategy.java:87-93 | one value per parameter, added by index, gives exactly those values as the constructor arguments, in index order |
| ConstructorInstanceStrategy.ConstructorInstances.Init | transmog-support-constructor/src/main/java/io/github/fairdevkit/transmog/constructor/ConstructorInstanceStrategy.java:70-71 | the slot array has the given length and every slot starts null |
| ConstructorInstanceStrategy.ConstructorInstances.Add | transmog-support-constructor/src/main/java/io/github/fairdevkit/transmog/constructor/ConstructorInstanceStrategy.java:75-83 | the new slots are `Put` of the old ones; a failure changes nothing |
| ConstructorInstanceStrategy.ConstructorInstances.Create | transmog-support-constructor/src/main/java/io/github/fairdevkit/transmog/constructor/ConstructorInstanceStrategy.java:87-93 | invokes the constructor on the slots in index order; a throw becomes a read error |
| ConstructorInstanceStrategy.New | transmog-support-constructor/src/main/java/io/github/fairdevkit/transmog/constructor/ConstructorInstanceStrategy.java:47-72 | the strategy is created exactly as `Start` describes, or fails with `Start`'s error |
| RecordInstanceStrategy.FactorySupports | transmog-support-record/src/main/java/io/github/fairdevkit/transmog/record/RecordInstanceStrategy.java:100-102 | definition: the strategy serves record classes |
| RecordInstanceStrategy.Start | transmog-support-record/src/main/java/io/github/fairdevkit/transmog/record/RecordInstanceStrategy.java:50-77 | definition: the canonical constructor's handle, the name-to-position map, and one null slot per mapped name; a non-record fails on the null components and a record without a canonical constructor is a read error; `StartedRecordSlots` and `StartedRecordNames` state the slots |
| RecordInstanceStrategy.Put | transmog-support-record/src/main/java/io/github/fairdevkit/transmog/record/RecordInstanceStrategy.java:80-85 | definition: the value goes to the slot of the property's name, and an unknown name is a read error; `PutSlot` and `PutCommutes` state the effect |
| RecordInstanceStrategy.Construct | transmog-support-record/src/main/java/io/github/fairdevkit/transmog/record/RecordInstanceStrategy.java:89-95 | definition: the constructor invoked on the slots; anything it throws becomes a read error |
| RecordInstanceStrategy.FindConstructor | transmog-support-record/src/main/java/io/github/fairdevkit/transmog/record/RecordInstanceStrategy.java:53-56 | `getDeclaredConstructor(types)`: a constructor over exactly the component types, or none exactly when there is no such constructor |
| RecordInstanceStrategy.IndexMap | transmog-support-record/src/main/java/io/github/fairdevkit/transmog/record/RecordInstanceStrategy.java:64-74 | the map's keys are exactly the component names |
| RecordInstanceStrategy.IndexMapLastOccurrence | transmog-support-record/src/main/java/io/github/fairdevkit/transmog/record/RecordInstanceStrategy.java:68-72 | each name maps to the position of its last occurrence, because a later `put` overwrites |
| RecordInstanceStrategy.DistinctNamesIndexMap | transmog-support-record/src/main/java/io/github/fairdevkit/transmog/record/RecordInstanceStrategy.java:64-74 | with distinct names, the i-th name maps to i and there are as many entries as names |
| RecordInstanceStrategy.StartedRecordSlots | transmog-support-record/src/main/java/io/github/fairdevkit/transmog/record/RecordInstanceStrategy.java:50-77 | for a record with distinct component names, there is one null slot per component, component i maps to slot i, and the constructor is the one over the component types |
| RecordInstanceStrategy.StartedRecordNames | transmog-support-record/src/main/java/io/github/fairdevkit/transmog/record/RecordInstanceStrategy.java:64-74 | a name has a slot exactly when it is a component name |
| RecordInstanceStrategy.PutSlot | transmog-support-record/src/main/java/io/github/fairdevkit/transmog/record/RecordInstanceStrategy.java:80-85 | `add` stores the value at the slot of the property's name and leaves the others; an unknown name is a read error |
| RecordInstanceStrategy.PutCommutes | transmog-support-record/src/main/java/io/github/fairdevkit/transmog/record/RecordInstanceStrategy.java:80-85 | values for two different names land in the same slots in either order |
| RecordInstanceStrategy.PutAllInOrder | transmog-support-record/src/main/java/io/github/fairdevkit/transmog/record/RecordInstanceStrategy.java:80-85 | adding names mapped to consecutive slots writes exactly that stretch of slots, in order |
| RecordInstanceStrategy.FilledInComponentOrder | transmog-support-record/src/main/java/io/github/fairdevkit/transmog/record/RecordInstanceStrategy.java:80-95 | one value per component, added by name, gives exactly those values as the constructor arguments, in component order |
| RecordInstanceStrategy.RecordInstances.Init | transmog-support-record/src/main/java/io/github/fairdevkit/transmog/record/RecordInstanceStrategy.java:76 | one slot per mapped name, every slot null |
| RecordInstanceStrategy.RecordInstances.Add | transmog-support-record/src/main/java/io/github/fairdevkit/transmog/record/RecordInstanceStrategy.java:80-85 | the new slots are `Put` of the old ones; an unknown name throws and changes no slot |
| RecordInstanceStrategy.RecordInstances.Create | transmog-support-record/src/main/java/io/github/fairdevkit/transmog/record/RecordInstanceStrategy.java:89-95 | invokes the constructor on the slots in component order; a throw becomes a read error |
| RecordInstanceStrategy.BuildIndices | transmog-support-record/src/main/java/io/github/fairdevkit/transmog/record/RecordInstanceStrategy.java:64-74 | the loop builds exactly the name-to-position map |
| RecordInstanceStrategy.New | transmog-support-record/src/main/java/io/github/fairdevkit/transmog/record/RecordInstanceStrategy.java:50-77 | the strategy is created exactly as `Start` describes, or fails with `Start`'s error |
| BeanTypeInspector.StepAt | transmog-support-bean/src/main/java/io/github/fairdevkit/transmog/bean/BeanTypeInspector.java:42 | the loop's i-th step is the outcome of the i-th declared field |
| BeanTypeInspector.InspectField | transmog-support-bean/src/main/java/io/github/fairdevkit/transmog/bean/BeanTypeInspector.java:43-85 | one loop iteration computes exactly the field's step: fail, skip or yield |
| BeanTypeInspector.BuildCandidate | transmog-support-bean/src/main/java/io/github/fairdevkit/transmog/bean/BeanTypeInspector.java:68-85 | the builder of an annotated field, or the resolver's exception |
| BeanTypeInspector.Inspect | transmog-support-bean/src/main/java/io/github/fairdevkit/transmog/bean/BeanTypeInspector.java:40-87 | the builders handed to the consumer, and the exception, are exactly `Run` over the declared fields' steps |
| BeanTypeInspector.StepDescribesField | transmog-support-bean/src/main/java/io/github/fairdevkit/transmog/bean/BeanTypeInspector.java:45-83 | a yielded builder has the field's name and type, the getter as accessor, the setter as mutator, the annotation by precedence field, then getter, then setter, and the first resolver's intrinsic type |
| BeanTypeInspector.YieldedDescribeFields | transmog-support-bean/src/main/java/io/github/fairdevkit/transmog/bean/BeanTypeInspector.java:42-85 | every builder handed over describes one declared field in that way |
| BeanTypeInspector.MissingAccessorFails | transmog-support-bean/src/main/java/io/github/fairdevkit/transmog/bean/BeanTypeInspector.java:45-58 | a declared field, annotated or not, without an `is`/`get` getter or a `set` setter makes the inspection fail |
| BeanTypeInspector.UnannotatedFieldSkipped | transmog-support-bean/src/main/java/io/github/fairdevkit/transmog/bean/BeanTypeInspector.java:60-66 | a field with no annotation on the field, the getter or the setter is skipped |
| BeanTypeInspector.NoFailureYieldsEveryAnnotatedField | transmog-support-bean/src/main/java/io/github/fairdevkit/transmog/bean/BeanTypeInspector.java:42-85 | without failures, one builder per yielding field is handed over, in declared-field order |
| BeanTypeInspector.YieldedInside | transmog-support-bean/src/main/java/io/github/fairdevkit/transmog/bean/BeanTypeInspector.java:79-83 | the classes a yielded builder names lie in the universe |
| BuilderTypeInspector.Supports | transmog-support-builder/src/main/java/io/github/fairdevkit/transmog/builder/BuilderTypeInspector.java:45-53 | definition: the class has a public no-argument `builder` method and it is static; a missing method means unsupported |
| BuilderTypeInspector.BuilderClass | transmog-support-builder/src/main/java/io/github/fairdevkit/transmog/builder/BuilderTypeInspector.java:59-62 | the first nested class named `Builder`; none exactly when there is none |
| BuilderTypeInspector.InspectField | transmog-support-builder/src/main/java/io/github/fairdevkit/transmog/builder/BuilderTypeInspector.java:65-111 | one loop iteration computes exactly the field's step |
| BuilderTypeInspector.BuildCandidate | transmog-support-builder/src/main/java/io/github/fairdevkit/transmog/builder/BuilderTypeInspector.java:82-111 | the builder of an annotated field with its `Builder` method and wrapper handler, or the error |
| BuilderTypeInspector.Inspect | transmog-support-builder/src/main/java/io/github/fairdevkit/transmog/builder/BuilderTypeInspector.java:56-113 | the outcome is exactly `Run` over the declared fields' steps, after the `Builder` class lookup |
| BuilderTypeInspector.InspectFields | transmog-support-builder/src/main/java/io/github/fairdevkit/transmog/builder/BuilderTypeInspector.java:64-112 | the field loop computes exactly `Run` over the fields' steps |
| BuilderTypeInspector.StepDescribesField | transmog-support-builder/src/main/java/io/github/fairdevkit/transmog/builder/BuilderTypeInspector.java:67-109 | a yielded builder has the field's name and type, the getter as accessor, the annotation from the field or else the getter, the first resolver's intrinsic type, the `Builder` method named like the field and taking that intrinsic type, and the first supporting wrapper handler |
| BuilderTypeInspector.YieldedDescribeFields | transmog-support-builder/src/main/java/io/github/fairdevkit/transmog/builder/BuilderTypeInspector.java:59-111 | every builder handed over describes one declared field in that way, under the found `Builder` class |
| BuilderTypeInspector.NoBuilderClassFails | transmog-support-builder/src/main/java/io/github/fairdevkit/transmog/builder/BuilderTypeInspector.java:59-62 | without a nested `Builder` class nothing is handed over and the inspection fails with `NoSuchElementException` |
| BuilderTypeInspector.MissingGetterFails | transmog-support-builder/src/main/java/io/github/fairdevkit/transmog/builder/BuilderTypeInspector.java:67-73 | a declared field without a getter, annotated or not, makes the inspection fail |
| BuilderTypeInspector.YieldedInside | transmog-support-builder/src/main/java/io/github/fairdevkit/transmog/builder/BuilderTypeInspector.java:86-96 | the classes a yielded builder names lie in the universe |
| ConstructorTypeInspector.Supports | transmog-support-constructor/src/main/java/io/github/fairdevkit/transmog/constructor/ConstructorTypeInspector.java:46-49 | definition: the first `@ConstructorProperties` constructor exists; `SupportsIffAnnotatedConstructor` states that this is "some declared constructor is annotated" |
| ConstructorTypeInspector.SupportsIffAnnotatedConstructor | transmog-support-constructor/src/main/java/io/github/fairdevkit/transmog/constructor/ConstructorTypeInspector.java:46-49 | `supports` holds exactly when some declared constructor carries `@ConstructorProperties` |
| ConstructorTypeInspector.InspectParameter | transmog-support-constructor/src/main/java/io/github/fairdevkit/transmog/constructor/ConstructorTypeInspector.java:63-118 | one loop iteration computes exactly parameter i's step |
| ConstructorTypeInspector.BuildCandidate | transmog-support-constructor/src/main/java/io/github/fairdevkit/transmog/constructor/ConstructorTypeInspector.java:95-118 | the builder of an annotated parameter, with its index, intrinsic type and wrapper handler |
| ConstructorTypeInspector.Inspect | transmog-support-constructor/src/main/java/io/github/fairdevkit/transmog/constructor/ConstructorTypeInspector.java:52-120 | the outcome is exactly `Run` over the first annotated constructor's parameter steps |
| ConstructorTypeInspector.NoConstructorFails | transmog-support-constructor/src/main/java/io/github/fairdevkit/transmog/constructor/ConstructorTypeInspector.java:55-58 | without an annotated constructor nothing is handed over and the inspection fails with the analysis error |
| ConstructorTypeInspector.StepDescribesParameter | transmog-support-constructor/src/main/java/io/github/fairdevkit/transmog/constructor/ConstructorTypeInspector.java:65-116 | a yielded builder is named after parameter i (compiled name, else the i-th annotation entry), has that field's type, its getter as accessor, the annotation from the field or else the getter, index i, the first resolver's intrinsic type and the first supporting wrapper handler |
| ConstructorTypeInspector.YieldedDescribeParameters | transmog-support-constructor/src/main/java/io/github/fairdevkit/transmog/constructor/ConstructorTypeInspector.java:62-118 | every builder handed over describes one parameter of the first annotated constructor in that way |
| ConstructorTypeInspector.StepIndex | transmog-support-constructor/src/main/java/io/github/fairdevkit/transmog/constructor/ConstructorTypeInspector.java:103 | a yielded builder for parameter i has index i |
| ConstructorTypeInspector.IndicesIncrease | transmog-support-constructor/src/main/java/io/github/fairdevkit/transmog/constructor/ConstructorTypeInspector.java:62-118 | the consumer receives the builders in strictly increasing index order |
| ConstructorTypeInspector.ParameterOutcomes | transmog-support-constructor/src/main/java/io/github/fairdevkit/transmog/constructor/ConstructorTypeInspector.java:72-93 | a name without a declared field, or a field without a getter, is an analysis error; a parameter with no annotation on its field or getter is skipped |
| ConstructorTypeInspector.YieldedInside | transmog-support-constructor/src/main/java/io/github/fairdevkit/transmog/constructor/ConstructorTypeInspector.java:99-111 | the classes a yielded builder names lie in the universe |
| RecordTypeInspector.Supports | transmog-support-record/src/main/java/io/github/fairdevkit/transmog/record/RecordTypeInspector.java:39-41 | definition: the class is a record |
| RecordTypeInspector.ComponentSteps | transmog-support-record/src/main/java/io/github/fairdevkit/transmog/record/RecordTypeInspector.java:46 | one step per record component, in declaration order |
| RecordTypeInspector.InspectComponent | transmog-support-record/src/main/java/io/github/fairdevkit/transmog/record/RecordTypeInspector.java:47-65 | one loop iteration computes exactly the component's step |
| RecordTypeInspector.Inspect | transmog-support-record/src/main/java/io/github/fairdevkit/transmog/record/RecordTypeInspector.java:44-67 | the outcome is exactly `Run` over the components' steps |
| RecordTypeInspector.DraftNames | transmog-support-record/src/main/java/io/github/fairdevkit/transmog/record/RecordTypeInspector.java:46-65 | with no failing component, the builders handed over are named after exactly the annotated components, in order |
| RecordTypeInspector.YieldsAnnotatedComponents | transmog-support-record/src/main/java/io/github/fairdevkit/transmog/record/RecordTypeInspector.java:46-65 | for a record whose annotated components all resolve, the inspection ends normally with one builder per annotated component, in declaration order |
| RecordTypeInspector.YieldedDescribeComponents | transmog-support-record/src/main/java/io/github/fairdevkit/transmog/record/RecordTypeInspector.java:39-63 | builders are handed over only for records, and each takes its accessor, name, type and annotation from one component, and its intrinsic type from the first supporting resolver, else the component type |
| RecordTypeInspector.YieldedInside | transmog-support-record/src/main/java/io/github/fairdevkit/transmog/record/RecordTypeInspector.java:53-63 | the classes a yielded builder names lie in the universe |
| Analyzer.Inspect | transmog-core/src/main/java/io/github/fairdevkit/transmog/core/analyzer/CoreTransmogAnalyzer.java:139-141 | dispatches to the inspector's own `inspect`, for the class and annotation kind |
| Analyzer.InspectedDraftsInside | transmog-core/src/main/java/io/github/fairdevkit/transmog/core/analyzer/CoreTransmogAnalyzer.java:139-141 | whatever the inspector, the builders it hands over name only classes of the universe, and leave factory, converter and nested flag to the analyzer |
| Analyzer.FirstInstanceFactory | transmog-core/src/main/java/io/github/fairdevkit/transmog/core/analyzer/CoreTransmogAnalyzer.java:128-131 | a registered instance factory that supports the class; none exactly when none does |
| Analyzer.FirstInstanceFactoryIsFirst | transmog-core/src/main/java/io/github/fairdevkit/transmog/core/analyzer/CoreTransmogAnalyzer.java:128-131 | the chosen instance factory is the first supporting one in registration order |
| Analyzer.FirstInspector | transmog-core/src/main/java/io/github/fairdevkit/transmog/core/analyzer/CoreTransmogAnalyzer.java:134-137 | a registered type inspector that supports the class; none exactly when none does |
| Analyzer.FirstInspectorIsFirst | transmog-core/src/main/java/io/github/fairdevkit/transmog/core/analyzer/CoreTransmogAnalyzer.java:134-137 | the chosen inspector is the first supporting one in registration order |
| Analyzer.FirstArgumentFactory | transmog-core/src/main/java/io/github/fairdevkit/transmog/core/analyzer/CoreTransmogAnalyzer.java:179-184 | a registered argument factory that supports the declared type; none exactly when none does |
| Analyzer.FirstArgumentFactoryIsFirst | transmog-core/src/main/java/io/github/fairdevkit/transmog/core/analyzer/CoreTransmogAnalyzer.java:179-184 | the chosen argument factory is the first supporting one in registration order |
| Analyzer.PropertyOf | transmog-core/src/main/java/io/github/fairdevkit/transmog/core/analyzer/CoreTransmogAnalyzer.java:157-186 | definition: the classification of one builder, without the nested analysis; `Classification` states its cases |
| Analyzer.Describe | transmog-core/src/main/java/io/github/fairdevkit/transmog/core/analyzer/CoreTransmogAnalyzer.java:116-143 | definition: the class descriptor over an inherited one, or the first analysis error, without the failures of nested analyses; `DescribeShape` and `DescribeCoherent` state what it holds |
| Analyzer.ConsumeAll | transmog-core/src/main/java/io/github/fairdevkit/transmog/core/analyzer/CoreTransmogAnalyzer.java:139-141 | one descriptor per builder when every builder is consumed |
| Analyzer.ConsumeAllStops | transmog-core/src/main/java/io/github/fairdevkit/transmog/core/analyzer/CoreTransmogAnalyzer.java:139-141 | the first builder the classification rejects ends the consumption with its error, whatever follows it |
| Analyzer.Classification | transmog-core/src/main/java/io/github/fairdevkit/transmog/core/analyzer/CoreTransmogAnalyzer.java:157-186 | a system intrinsic type (falling back to the declared type) without a converter registered for exactly that class is an analysis error; then a declared type without a supporting argument strategy is one; a built descriptor keeps the builder's values, is nested exactly for a non-system intrinsic type, carries exactly then no converter (else the registered one), and its factory is the first supporting one |
| Analyzer.ConsumeAllCoherent | transmog-core/src/main/java/io/github/fairdevkit/transmog/core/analyzer/CoreTransmogAnalyzer.java:157-186 | every descriptor consumed from inspector builders is classified coherently |
| Analyzer.DeliverAllCoherent | transmog-core/src/main/java/io/github/fairdevkit/transmog/core/analyzer/CoreTransmogAnalyzer.java:139-141 | feeding coherent descriptors to the callbacks keeps the class descriptor coherent |
| Analyzer.AbsorbCoherent | transmog-core/src/main/java/io/github/fairdevkit/transmog/core/analyzer/CoreTransmogAnalyzer.java:139-141 | a consumed inspection keeps the class descriptor coherent |
| Analyzer.StagedCoherent | transmog-core/src/main/java/io/github/fairdevkit/transmog/core/analyzer/CoreTransmogAnalyzer.java:139-141 | the three inspections together keep the class descriptor coherent |
| Analyzer.DescribeCoherent | transmog-core/src/main/java/io/github/fairdevkit/transmog/core/analyzer/CoreTransmogAnalyzer.java:116-143 | a class descriptor built from a coherent base is coherent |
| Analyzer.DeliverAllShape | transmog-core/src/main/java/io/github/fairdevkit/transmog/core/analyzer/CoreTransmogAnalyzer.java:139-141 | predicates are appended in order; type entries are appended in order; a property-level subject overwrites, the last one winning |
| Analyzer.StagedShape | transmog-core/src/main/java/io/github/fairdevkit/transmog/core/analyzer/CoreTransmogAnalyzer.java:139-141 | after the predicate, subject and type inspections: the predicates and types are extended by the consumed descriptors in order, the subject is the last property-level one if any, and the factory is untouched |
| Analyzer.PreparedShape | transmog-core/src/main/java/io/github/fairdevkit/transmog/core/analyzer/CoreTransmogAnalyzer.java:123-131 | a type-level `@Subject` replaces the inherited subject, a type-level `@SemanticType` is appended, the first supporting instance factory replaces the inherited one, and with none the inherited (or null) factory stays |
| Analyzer.DescribeShape | transmog-core/src/main/java/io/github/fairdevkit/transmog/core/analyzer/CoreTransmogAnalyzer.java:116-141 | the whole descriptor: inherited predicates then the class's, inherited types then the type-level one then the property-level ones, a property-level subject over a type-level one over the inherited one, and the factory as above |
| Analyzer.NoInspectorFails | transmog-core/src/main/java/io/github/fairdevkit/transmog/core/analyzer/CoreTransmogAnalyzer.java:134-137 | a class no registered inspector supports is an analysis error |
| Analyzer.RemainingShrinks | transmog-core/src/main/java/io/github/fairdevkit/transmog/core/analyzer/CoreTransmogAnalyzer.java:114-121 | pushing a class not yet on the stack shrinks the number of universe classes left to push, which bounds the recursion on self-referential types |
| Analyzer.CoreTransmogAnalyzer.constructor | transmog-core/src/main/java/io/github/fairdevkit/transmog/core/analyzer/CoreTransmogAnalyzer.java:63-72 | an empty cache and empty registries |
| Analyzer.CoreTransmogAnalyzer.RegisterInstanceStrategy | transmog-core/src/main/java/io/github/fairdevkit/transmog/core/analyzer/CoreTransmogAnalyzer.java:74-77 | appends the factory and changes no other registry |
| Analyzer.CoreTransmogAnalyzer.RegisterTypeInspector | transmog-core/src/main/java/io/github/fairdevkit/transmog/core/analyzer/CoreTransmogAnalyzer.java:79-82 | appends the inspector and changes no other registry |
| Analyzer.CoreTransmogAnalyzer.RegisterIntrinsicTypeResolver | transmog-core/src/main/java/io/github/fairdevkit/transmog/core/analyzer/CoreTransmogAnalyzer.java:84-87 | appends the resolver and changes no other registry |
| Analyzer.CoreTransmogAnalyzer.RegisterArgumentStrategy | transmog-core/src/main/java/io/github/fairdevkit/transmog/core/analyzer/CoreTransmogAnalyzer.java:89-92 | appends the factory and changes no other registry |
| Analyzer.CoreTransmogAnalyzer.RegisterValueConverter | transmog-core/src/main/java/io/github/fairdevkit/transmog/core/analyzer/CoreTransmogAnalyzer.java:94-97 | maps the class to the converter (a later one replaces it) and changes no other registry |
| Analyzer.CoreTransmogAnalyzer.RegisterWrapperHandler | transmog-core/src/main/java/io/github/fairdevkit/transmog/core/analyzer/CoreTransmogAnalyzer.java:99-102 | appends the handler and changes no other registry |
| Analyzer.CoreTransmogAnalyzer.Analyze | transmog-core/src/main/java/io/github/fairdevkit/transmog/core/analyzer/CoreTransmogAnalyzer.java:104-146 | a cached class returns its cached descriptor and changes nothing; a success caches the result, which is the class's descriptor over its inherited one and coherent; a failure leaves the class uncached; cached entries never change; for an uncached class whose superclass (when inherited) is cached and whose properties meet only system, cached or in-progress classes, the result is exactly `Describe` over the inherited descriptor, success and error alike |
| Analyzer.CoreTransmogAnalyzer.AnalyzeInternal | transmog-core/src/main/java/io/github/fairdevkit/transmog/core/analyzer/CoreTransmogAnalyzer.java:109-147 | as `analyze`, with the stack: it only grows, a class not cached before is pushed, and no class on the caller's stack gets cached; when no fresh superclass or nested analysis is needed, the result is exactly `Describe` over the inherited descriptor |
| Analyzer.CoreTransmogAnalyzer.AnalyzeFresh | transmog-core/src/main/java/io/github/fairdevkit/transmog/core/analyzer/CoreTransmogAnalyzer.java:114-147 | an uncached class is pushed, its superclass handled, then described and cached on success; when no fresh superclass or nested analysis is needed, the result is exactly `Describe` over the inherited descriptor |
| Analyzer.CoreTransmogAnalyzer.StartBuilder | transmog-core/src/main/java/io/github/fairdevkit/transmog/core/analyzer/CoreTransmogAnalyzer.java:116-121 | the builder starts from a copy of the superclass's descriptor when the superclass is present, not a system class and not on the stack, otherwise empty; when such a superclass is already cached, it succeeds and changes neither cache nor stack |
| Analyzer.CoreTransmogAnalyzer.Complete | transmog-core/src/main/java/io/github/fairdevkit/transmog/core/analyzer/CoreTransmogAnalyzer.java:123-146 | the descriptor built on the inherited one is `Describe`'s, and it is cached exactly on success; when every property class is settled (system, cached or on the stack), the result is exactly `Describe`'s |
| Analyzer.CoreTransmogAnalyzer.Put | transmog-core/src/main/java/io/github/fairdevkit/transmog/core/analyzer/CoreTransmogAnalyzer.java:143-146 | stores one descriptor in the cache and nothing else |
| Analyzer.CoreTransmogAnalyzer.Assemble | transmog-core/src/main/java/io/github/fairdevkit/transmog/core/analyzer/CoreTransmogAnalyzer.java:124-141 | type annotations, factory, inspector and the inspections, as `Describe` of the builder's state on success, and exactly `Describe`'s, error included, when every property class is settled, with cache and stack unchanged |
| Analyzer.CoreTransmogAnalyzer.Inspections | transmog-core/src/main/java/io/github/fairdevkit/transmog/core/analyzer/CoreTransmogAnalyzer.java:139-141 | the three inspections in order: predicates, subjects, semantic types; a success is `Staged` of the old builder, and when every property class is settled the result is exactly `Staged`'s, with cache and stack unchanged |
| Analyzer.CoreTransmogAnalyzer.LaterInspections | transmog-core/src/main/java/io/github/fairdevkit/transmog/core/analyzer/CoreTransmogAnalyzer.java:140-141 | the subject and semantic-type inspections after the predicate one; a success is `LaterStaged` of the old builder, and exactly `LaterStaged`'s when every property class is settled |
| Analyzer.CoreTransmogAnalyzer.ConsumeTypeAnnotation | transmog-core/src/main/java/io/github/fairdevkit/transmog/core/analyzer/CoreTransmogAnalyzer.java:149-155 | a type-level annotation feeds the subject or type callback; without it nothing changes |
| Analyzer.CoreTransmogAnalyzer.Stage | transmog-core/src/main/java/io/github/fairdevkit/transmog/core/analyzer/CoreTransmogAnalyzer.java:139-141 | one inspection of the class for one annotation kind: on success the builder holds `Absorb` of its old state; when every property class it meets is settled, the outcome (the new builder or the first error) is exactly `Absorb`'s and cache and stack are unchanged |
| Analyzer.CoreTransmogAnalyzer.ConsumeInspection | transmog-core/src/main/java/io/github/fairdevkit/transmog/core/analyzer/CoreTransmogAnalyzer.java:139-141 | the builders consumed one by one in order and delivered to the callback: on success the builder holds `Absorb` of its old state; when every property class is settled, the outcome is exactly `Absorb`'s, the first rejected builder's error included, and cache and stack are unchanged |
| Analyzer.CoreTransmogAnalyzer.ConsumeYielded | transmog-core/src/main/java/io/github/fairdevkit/transmog/core/analyzer/CoreTransmogAnalyzer.java:139-141 | the consumer applied to the builders in the order the inspector hands them over: without a failure every builder was classified and the callback received the descriptors in that order; when every builder is settled, a failure is the first rejected builder's error and cache and stack are unchanged |
| Analyzer.CoreTransmogAnalyzer.Feed | transmog-core/src/main/java/io/github/fairdevkit/transmog/core/analyzer/CoreTransmogAnalyzer.java:139-141 | the callback of the kind: predicates and types append, a subject overwrites |
| Analyzer.CoreTransmogAnalyzer.ConsumeProperty | transmog-core/src/main/java/io/github/fairdevkit/transmog/core/analyzer/CoreTransmogAnalyzer.java:157-187 | a descriptor returned is the classification of the builder, and a builder the classification rejects is rejected here; a nested class is analysed first unless it is on the stack; a settled builder (system, cached or in-progress class) gets exactly the classification, success or error, and changes neither cache nor stack; otherwise the only other outcome is a failed nested analysis: it leaves that class uncached, and an analyzer exception from it is rethrown as the nested analysis error for that class |
| Analyzer.CoreTransmogAnalyzer.ConsumeAndFeed | transmog-core/src/main/java/io/github/fairdevkit/transmog/core/analyzer/CoreTransmogAnalyzer.java:157-186 | `consumeProperty` through to `callback.accept`: a returned descriptor is the classification of the builder and the callback of kind `k` received it; a settled builder gets exactly the classification, with cache and stack unchanged |
| Reader.StartInstance | transmog-core/src/main/java/io/github/fairdevkit/transmog/core/reader/CoreTransmogReader.java:86-88 | definition: the descriptor's instance factory creates the strategy for the class (a missing factory fails on null); the record and constructor strategies start as their own `Start` |
| Reader.AddInstance | transmog-core/src/main/java/io/github/fairdevkit/transmog/core/reader/CoreTransmogReader.java:106 | definition: `strategy.add(property, argument)`, delegating to the strategy's own `Put`; other strategies record the pair |
| Reader.CreateInstance | transmog-core/src/main/java/io/github/fairdevkit/transmog/core/reader/CoreTransmogReader.java:109 | definition: `strategy.create()`, delegating to the strategy's own `Construct` |
| Reader.StartArgument | transmog-core/src/main/java/io/github/fairdevkit/transmog/core/reader/CoreTransmogReader.java:113-114 | definition: the property's argument factory creates a strategy sized to the number of objects |
| Reader.AddArgument | transmog-core/src/main/java/io/github/fairdevkit/transmog/core/reader/CoreTransmogReader.java:120-124 | definition: `strategy.add(value)`, delegating to the array strategy's `Append` |
| Reader.CreateArgument | transmog-core/src/main/java/io/github/fairdevkit/transmog/core/reader/CoreTransmogReader.java:128 | definition: `strategy.create()`, delegating to the array strategy's `Finish` |
| Reader.ReadProperties | transmog-core/src/main/java/io/github/fairdevkit/transmog/core/reader/CoreTransmogReader.java:90-107 | definition: the loop over the descriptor's predicates: the required/readonly decision, then `readArgument` and `add` for each supplied one, stopping at the first error; `ReadPropertiesAdmitted` and `ReadPropertiesSupplies` state what it does |
| Reader.ReadObjects | transmog-core/src/main/java/io/github/fairdevkit/transmog/core/reader/CoreTransmogReader.java:116-126 | definition: the loop of `readArgument` over the objects, adding each present value, stopping at the first error; `ArrayObjectsKept` states that it appends the `Kept` values, in order |
| Reader.ReadObject | transmog-core/src/main/java/io/github/fairdevkit/transmog/core/reader/CoreTransmogReader.java:117-125 | definition: a nested property reads the object as a subject of its intrinsic type (a literal fails the `Resource` cast); a scalar one converts it |
| Reader.Decide | transmog-core/src/main/java/io/github/fairdevkit/transmog/core/reader/CoreTransmogReader.java:95-103 | the required/readonly table: no objects and required and not readonly is an error; no objects otherwise is a skip; objects for a readonly property is an error; otherwise the property is supplied |
| Reader.ReadInstance | transmog-core/src/main/java/io/github/fairdevkit/transmog/core/reader/CoreTransmogReader.java:81-84 | the result is empty exactly when the model has no statement about the subject, decided before any analysis |
| Reader.ReadInternal | transmog-core/src/main/java/io/github/fairdevkit/transmog/core/reader/CoreTransmogReader.java:81-110 | the loop over the descriptor's predicates computes exactly `ReadInstance` |
| Reader.ReadArgument | transmog-core/src/main/java/io/github/fairdevkit/transmog/core/reader/CoreTransmogReader.java:112-129 | the loop over the objects computes exactly `Argument`: an argument strategy sized to the distinct objects, filled, then created |
| Reader.SuppliedProperties | transmog-core/src/main/java/io/github/fairdevkit/transmog/core/reader/CoreTransmogReader.java:90-103 | the properties that get an `add` are properties of the descriptor with objects in the model |
| Reader.ReadPropertiesAdmitted | transmog-core/src/main/java/io/github/fairdevkit/transmog/core/reader/CoreTransmogReader.java:95-103 | after a successful read no property was rejected by the table |
| Reader.ReadPropertiesSupplies | transmog-core/src/main/java/io/github/fairdevkit/transmog/core/reader/CoreTransmogReader.java:90-106 | a successful read makes exactly one `add` per supplied property, in descriptor order, each with that property's argument |
| Reader.Kept | transmog-core/src/main/java/io/github/fairdevkit/transmog/core/reader/CoreTransmogReader.java:116-126 | the values added: at most one per object |
| Reader.KeptShort | transmog-core/src/main/java/io/github/fairdevkit/transmog/core/reader/CoreTransmogReader.java:117-120 | a nested object that reads as absent is dropped, not added |
| Reader.ArrayObjectsKept | transmog-core/src/main/java/io/github/fairdevkit/transmog/core/reader/CoreTransmogReader.java:116-126 | an array argument receives exactly the kept values, in object order |
| Reader.ArrayArgumentFull | transmog-core/src/main/java/io/github/fairdevkit/transmog/core/reader/CoreTransmogReader.java:114-128 | an array argument that succeeds is the array of the kept values and every object gave one, since the buffer is sized to the object count; a nested non-literal object that is not a subject of the model makes the read fail |
| Reader.ScalarKept | transmog-core/src/main/java/io/github/fairdevkit/transmog/core/reader/CoreTransmogReader.java:121-125 | for a scalar property each object is passed through the converter and every result is added, in order |
| Rdf.Objects | transmog-core/src/main/java/io/github/fairdevkit/transmog/core/reader/CoreTransmogReader.java:93 | `Models.getProperties`: each object of the subject and predicate exactly once; literals that differ only in their language tag are distinct objects |
| Rdf.ObjectsHaveSubject | transmog-core/src/main/java/io/github/fairdevkit/transmog/core/reader/CoreTransmogReader.java:82-93 | a subject with objects is a subject of the model |
| Rdf.Emit | transmog-core/src/main/java/io/github/fairdevkit/transmog/core/writer/CoreTransmogWriter.java:172 | `model.add`: the statement is present afterwards, earlier statements stay in order, nothing else is added, and no statement is held twice |
| Rdf.Graph.constructor | transmog-core/src/main/java/io/github/fairdevkit/transmog/core/writer/CoreTransmogWriter.java:77 | a fresh model is empty |
| Rdf.Graph.Add | transmog-core/src/main/java/io/github/fairdevkit/transmog/core/writer/CoreTransmogWriter.java:172 | the new model is `Emit` of the old one |
| Rdf.Graph.FreshBlank | transmog-core/src/main/java/io/github/fairdevkit/transmog/core/writer/CoreTransmogWriter.java:164 | `Values.bnode()` returns a blank node no earlier call returned |
| Writer.IsBlank | transmog-core/src/main/java/io/github/fairdevkit/transmog/core/writer/CoreTransmogWriter.java:146-148 | definition: `String.isBlank`, empty or whitespace only, guarding the subject annotation's value |
| Writer.Unwrap | transmog-core/src/main/java/io/github/fairdevkit/transmog/core/writer/CoreTransmogWriter.java:192-209 | an accessor failure is a write error; without a wrapper handler, a null value is absent |
| Writer.Elements | transmog-core/src/main/java/io/github/fairdevkit/transmog/core/writer/CoreTransmogWriter.java:211-223 | `iterate`: the elements of an `Iterable` or array in order, otherwise the value itself once |
| Writer.TypeIris | transmog-core/src/main/java/io/github/fairdevkit/transmog/core/writer/CoreTransmogWriter.java:90-93 | definition: the IRIs listed by a `@SemanticType` annotation, none for other annotations |
| Writer.EmitTypes | transmog-core/src/main/java/io/github/fairdevkit/transmog/core/writer/CoreTransmogWriter.java:90-93 | every fixed IRI of a type entry is emitted as `(subject, rdf:type, iri)`, and nothing else |
| Writer.EmitElementTypes | transmog-core/src/main/java/io/github/fairdevkit/transmog/core/writer/CoreTransmogWriter.java:95-102 | each element of a property-level type value is emitted as `(subject, rdf:type, iri)`; a null element fails |
| Writer.TypeEntryOut | transmog-core/src/main/java/io/github/fairdevkit/transmog/core/writer/CoreTransmogWriter.java:90-103 | a type entry emits all its fixed IRIs, property-level entries included |
| Writer.TypesOut | transmog-core/src/main/java/io/github/fairdevkit/transmog/core/writer/CoreTransmogWriter.java:90-104 | the type loop only adds statements and keeps the output well formed |
| Writer.SubjectText | transmog-core/src/main/java/io/github/fairdevkit/transmog/core/writer/CoreTransmogWriter.java:133-158 | a type-level blank value is a write error; a relative one is `subject + separator + value`, an absolute one the value; a property-level subject is the accessor's value, absent when null, and an accessor failure is a write error |
| Writer.SubjectIdentity | transmog-core/src/main/java/io/github/fairdevkit/transmog/core/writer/CoreTransmogWriter.java:132-170 | with `blankNode` the subject is a blank node from the value, or a fresh one when there is none; otherwise the IRI of the value, and no value is an error; a class without a subject descriptor is an error |
| Writer.NestedSubject | transmog-core/src/main/java/io/github/fairdevkit/transmog/core/writer/CoreTransmogWriter.java:160-170 | a generated blank node is new to the output and the output's statements are unchanged |
| Writer.ScalarObject | transmog-core/src/main/java/io/github/fairdevkit/transmog/core/writer/CoreTransmogWriter.java:180-188 | definition: a literal typed by the annotation's datatype when the annotation asks for a literal, else an IRI, both of the value's text |
| Writer.WriteOut | transmog-core/src/main/java/io/github/fairdevkit/transmog/core/writer/CoreTransmogWriter.java:89-126 | `writeInternal` only adds statements, and keeps the output well formed: no statement twice, every subject a resource, every predicate an IRI, every blank node allocated |
| Writer.PredicatesOut | transmog-core/src/main/java/io/github/fairdevkit/transmog/core/writer/CoreTransmogWriter.java:106-125 | the predicate loop only adds statements and keeps the output well formed |
| Writer.PropertyOut | transmog-core/src/main/java/io/github/fairdevkit/transmog/core/writer/CoreTransmogWriter.java:107-124 | one predicate only adds statements and keeps the output well formed |
| Writer.ElementsOut | transmog-core/src/main/java/io/github/fairdevkit/transmog/core/writer/CoreTransmogWriter.java:122-124 | the elements of one predicate only add statements and keep the output well formed |
| Writer.StatementOut | transmog-core/src/main/java/io/github/fairdevkit/transmog/core/writer/CoreTransmogWriter.java:128-190 | one statement (and, for a nested value, its subtree) only adds statements and keeps the output well formed |
| Writer.NestedOut | transmog-core/src/main/java/io/github/fairdevkit/transmog/core/writer/CoreTransmogWriter.java:174-178 | a writer exception of the nested write is rethrown wrapped |
| Writer.WriteInternal | transmog-core/src/main/java/io/github/fairdevkit/transmog/core/writer/CoreTransmogWriter.java:89-126 | the method's new model is `WriteOut` of the old one, and its failure is `WriteOut`'s |
| Writer.WriteType | transmog-core/src/main/java/io/github/fairdevkit/transmog/core/writer/CoreTransmogWriter.java:90-103 | the method's new model is `TypeEntryOut` of the old one |
| Writer.WriteProperty | transmog-core/src/main/java/io/github/fairdevkit/transmog/core/writer/CoreTransmogWriter.java:107-124 | the method's new model is `PropertyOut` of the old one |
| Writer.WriteStatement | transmog-core/src/main/java/io/github/fairdevkit/transmog/core/writer/CoreTransmogWriter.java:128-190 | the method's new model is `StatementOut` of the old one |
| Writer.WriteNested | transmog-core/src/main/java/io/github/fairdevkit/transmog/core/writer/CoreTransmogWriter.java:174-178 | the method's new model is `NestedOut` of the old one |
| Writer.TypesOutWritten | transmog-core/src/main/java/io/github/fairdevkit/transmog/core/writer/CoreTransmogWriter.java:90-93 | after the type loop every fixed IRI of every type entry is in the model |
| Writer.TypesWritten | transmog-core/src/main/java/io/github/fairdevkit/transmog/core/writer/CoreTransmogWriter.java:89-104 | after `writeInternal` every fixed IRI of every type entry is in the model |
| Writer.PropertyTypesWritten | transmog-core/src/main/java/io/github/fairdevkit/transmog/core/writer/CoreTransmogWriter.java:95-102 | a property-level type entry whose value is present also types the subject with each element of the value |
| Writer.PredicatesRequired | transmog-core/src/main/java/io/github/fairdevkit/transmog/core/writer/CoreTransmogWriter.java:111-117 | after a successful write every required predicate had a present value |
| Writer.AbsentOptionalWritesNothing | transmog-core/src/main/java/io/github/fairdevkit/transmog/core/writer/CoreTransmogWriter.java:111-117 | optional predicates whose values are absent write nothing |
| Writer.ScalarElements | transmog-core/src/main/java/io/github/fairdevkit/transmog/core/writer/CoreTransmogWriter.java:180-189 | a non-nested predicate emits exactly one statement per element, a literal with the datatype or an IRI of its text; a null element fails |
| Writer.NestedLinkFirst | transmog-core/src/main/java/io/github/fairdevkit/transmog/core/writer/CoreTransmogWriter.java:172-178 | the link `(subject, predicate, nested subject)` is added before the nested element's own statements, and a generated node appears nowhere before |
| Writer.RelativeIgnoredForProperty | transmog-core/src/main/java/io/github/fairdevkit/transmog/core/writer/CoreTransmogWriter.java:136-142 | a property-level subject ignores its `relative` flag |
| Writer.WriteDocument | transmog-core/src/main/java/io/github/fairdevkit/transmog/core/writer/CoreTransmogWriter.java:73-80 | `write` up to the serialization: a fresh model for the source under the IRI `subject`, well formed on success |

## Left out

- Analyzer.CoreTransmogAnalyzer.ConsumeProperty: when the nested analysis is fresh (its class neither a system class, cached nor on the stack), the contract says only that success is the classification and that failure is a nested analysis error for that class (the `catch` and rethrow at transmog-core/src/main/java/io/github/fairdevkit/transmog/core/analyzer/CoreTransmogAnalyzer.java:164-168); it does not promise success when the nested class is analysable.
- Analyzer.CoreTransmogAnalyzer.Analyze, Analyzer.CoreTransmogAnalyzer.AnalyzeInternal, Analyzer.CoreTransmogAnalyzer.AnalyzeFresh: the result is promised to be exactly `Describe`'s only when the analysis needs no fresh analysis of a superclass or a nested property class; with fresh nested analyses, only the success direction (a result is `Describe`'s) and the failure effects on the cache are stated.
- Analyzer.CoreTransmogAnalyzer.StartBuilder, Analyzer.CoreTransmogAnalyzer.Complete, Analyzer.CoreTransmogAnalyzer.Assemble, Analyzer.CoreTransmogAnalyzer.Inspections, Analyzer.CoreTransmogAnalyzer.LaterInspections, Analyzer.CoreTransmogAnalyzer.Stage, Analyzer.CoreTransmogAnalyzer.ConsumeInspection, Analyzer.CoreTransmogAnalyzer.ConsumeYielded, Analyzer.CoreTransmogAnalyzer.ConsumeAndFeed: the exact outcome (`Describe`, `Staged`, `LaterStaged`, `Absorb` or `PropertyOf`, success or error) is stated only when every builder they consume is settled: a system class, cached or on the stack.
- Analyzer.CoreTransmogAnalyzer.StartBuilder: its exact outcome also needs an inherited superclass that is already cached.
- Analyzer.CoreTransmogAnalyzer.StartBuilder, Analyzer.CoreTransmogAnalyzer.Complete, Analyzer.CoreTransmogAnalyzer.Assemble, Analyzer.CoreTransmogAnalyzer.Inspections, Analyzer.CoreTransmogAnalyzer.LaterInspections, Analyzer.CoreTransmogAnalyzer.Stage, Analyzer.CoreTransmogAnalyzer.ConsumeInspection, Analyzer.CoreTransmogAnalyzer.ConsumeYielded, Analyzer.CoreTransmogAnalyzer.ConsumeAndFeed: when a fresh superclass or nested analysis is needed, only the success direction and the effects on the cache and stack are stated. Success is not promised there, since it depends on the recursive analysis.
- Analyzer.CoreTransmogAnalyzer.AnalyzeInternal: the in-progress stack is a `Deque` in the source and a set here. Only membership is ever asked of it, and the stack only grows, as `analyzeInternal` never pops.
- Analyzer.CoreTransmogAnalyzer.Analyze: the result of a failed analysis is an error value, not the exception's message text or cause chain.
- Writer.WriteInternal: after a failure the model is only known to have grown. The statements added before the exception are not listed.
- Reader.ReadInstance and Writer.WriteOut: the recursion into nested subjects and nested objects carries a `fuel` bound, and running out of it is the `StackOverflow` error. The Java recursion has no bound of its own, so a cyclic model or object graph ends in `StackOverflowError` there too, but at a depth set by the JVM rather than by `fuel`.
- The reader and the writer call the analyzer through an `analyze` function parameter. The cache makes repeated Java calls agree, so this is the same function once the cache is warm; the order in which a first call fills the cache is not modelled there.
- The reader's instance and argument strategies are pure step functions (`StartInstance`, `AddInstance`, `CreateInstance` and the argument counterparts). The classes `RecordInstances`, `ConstructorInstances` and `ArrayArguments` model the same strategies in place, and their methods are proved equal to those step functions.
- `BeanInstanceStrategy`, `BuilderInstanceStrategy` and argument strategies other than the array one are not part of this model. They appear only as `Other*` states whose behaviour is a parameter of `ReadEnv`.
- The bean inspector's `supports` check delegates to code that is not part of this model. A bean inspector therefore carries the set of classes it supports.
- `FieldPropertyAnalysis` is modelled in the form the analyzer and the inspectors use: with an intrinsic type and a wrapper handler, and with an optional value converter. The `FieldPropertyAnalysis` at transmog-spi/src/main/java/io/github/fairdevkit/transmog/spi/analyzer/FieldPropertyAnalysis.java:40-49 belongs to an older revision than the analyzer: its constructor has neither an intrinsic type nor a wrapper handler, and its `Builder` has no `peekType`, `peekIntrinsicType` or `intrinsicType`, which transmog-core/src/main/java/io/github/fairdevkit/transmog/core/analyzer/CoreTransmogAnalyzer.java:159-160 and transmog-support-bean/src/main/java/io/github/fairdevkit/transmog/bean/BeanTypeInspector.java:74 call. The 9-argument constructor that `BuilderPropertyAnalysis`, `ConstructorPropertyAnalysis` and `RecordPropertyAnalysis` call is not part of this model, so whether the analyzer's revision still requires a converter is not known; the finding below rests on the older revision's requirement.
- The bean and record inspectors' `inspect` with a `Stream` of resolvers (transmog-support-bean/src/main/java/io/github/fairdevkit/transmog/bean/BeanTypeInspector.java:70, transmog-support-record/src/main/java/io/github/fairdevkit/transmog/record/RecordTypeInspector.java:53) runs `filter(...).findFirst()` on the same stream for every element, so in Java the second annotated field or component throws `IllegalStateException`. The analyzer never calls that form: it passes collections (transmog-core/src/main/java/io/github/fairdevkit/transmog/core/analyzer/CoreTransmogAnalyzer.java:139-141), and the model follows that collection form, where each element searches the resolvers afresh in registration order.
- `ParameterizedIntrinsicTypeResolver`'s casts to `Class<?>` and `GenericDeclaration` are a `ClassCast` error when the type argument is of another kind. The JVM's own type checks are not modelled.
- Writer.Elements: a primitive array reaching `iterate` fails there on the `Object[]` cast (transmog-core/src/main/java/io/github/fairdevkit/transmog/core/writer/CoreTransmogWriter.java:217). The model treats every array alike.
- Reflection.HandleOf: access control on method handles is not modelled. `MethodHandles.lookup().unreflect` and `publicLookup().unreflect`/`unreflectConstructor` can throw `IllegalAccessException` (transmog-support-bean/src/main/java/io/github/fairdevkit/transmog/bean/BeanTypeInspector.java:93-98, transmog-support-record/src/main/java/io/github/fairdevkit/transmog/record/RecordTypeInspector.java:69-75, transmog-support-builder/src/main/java/io/github/fairdevkit/transmog/builder/BuilderTypeInspector.java:119-125, transmog-support-constructor/src/main/java/io/github/fairdevkit/transmog/constructor/ConstructorTypeInspector.java:126-132). Here every method yields a handle, so `BeanTypeInspector.BuildCandidate`, `BuilderTypeInspector.BuildCandidate`, `ConstructorTypeInspector.BuildCandidate` and `RecordTypeInspector.ComponentStep` never fail with the analyzer error that Java raises for an inaccessible getter, setter or builder method.
- RecordInstanceStrategy.Start and RecordInstanceStrategy.New: a record that `publicLookup()` may not access (a package-private or private record) gets a constructor handle here, where Java throws `TransmogReaderException` (transmog-support-record/src/main/java/io/github/fairdevkit/transmog/record/RecordInstanceStrategy.java:56-60).
- ConstructorInstanceStrategy.Start, ConstructorInstanceStrategy.New and ConstructorInstanceStrategy.StartIffSupported: a class whose `@ConstructorProperties` constructor is not public gets a handle here, where Java throws `TransmogReaderException` (transmog-support-constructor/src/main/java/io/github/fairdevkit/transmog/constructor/ConstructorInstanceStrategy.java:62-66). The "exactly when supported" of `StartIffSupported` holds only because every constructor is taken to be accessible.
- Reflection is a closed, finite `Universe`. Classes outside it, class loading, and annotations inherited through `@Inherited` are not modelled.
- Naming.Capitalize: upper-casing is the ASCII mapping; other characters stay as they are, where Java's `toUpperCase` maps by the full Unicode tables. `Writer.IsBlank` likewise counts only the Latin-1 whitespace characters of `Character.isWhitespace`, not the other Unicode space separators. A field name is a Java identifier, so in practice this matters only for non-ASCII names.
- IRIs are strings, and their syntax is not validated (`Values.iri` would reject a malformed one).
- The identifier of a generated blank node is the `blankId` parameter of `WriteEnv`. `Values.bnode()` draws it at random.
- `Rio.parse`, `Rio.write`, namespaces and serialization formats are not modelled. `WriteDocument` stops at the filled model.
- The service loading and wiring that build an analyzer, reader and writer are not modelled, and neither are logging and concurrent use of the cache.

## Findings

| source | as written | input that shows it | evidently intended | confidence | as-written member | corrected member |
|---|---|---|---|---|---|---|
| transmog-spi/src/main/java/io/github/fairdevkit/transmog/spi/analyzer/FieldPropertyAnalysis.java:47 | in this `FieldPropertyAnalysis`, a revision older than the analyzer's (it lacks the `peekType`/`peekIntrinsicType` the analyzer calls), the descriptor's constructor rejects a null value converter, yet `consumeProperty` (transmog-core/src/main/java/io/github/fairdevkit/transmog/core/analyzer/CoreTransmogAnalyzer.java:162-170) sets no converter on a nested property, so building a nested property throws | a property whose intrinsic type is not a system class, such as the `child` field of `Nesting.Parent` | a nested property is built without a converter, as the writer and reader treat nested properties (they never call its converter) | not executed; the premise comes from an older revision of `FieldPropertyAnalysis` than the analyzer's, and the constructor matching the analyzer's revision is not part of this model | PropertyAnalysis.BuildAsWritten, PropertyAnalysis.NestedRejectedAsWritten | PropertyAnalysis.Build, Analyzer.Classification |
