/**
 * The failure kinds of the core. Messages are not modelled, only which exception
 * class is thrown and, for the core's own exceptions, why.
 */
module Errors {
  import opened Reflection

  /** Why a `TransmogAnalyzerException` is thrown. */
  datatype AnalysisFailure =
    | NoTypeInspector
    | NoValueConverter(intrinsicType: JClass)
    | NoArgumentStrategy(declaredType: JClass)
    | NonParameterizedType
    | NoAnnotatedConstructor
    | NoFieldForArgument(argument: string)
    | NoGetter(property: string)
    | NoSetter(property: string)
    | NoBuilderMethod(property: string)

  /** Why a `TransmogReaderException` is thrown. */
  datatype ReadFailure =
    | MissingRequired(predicateIri: string)
    | ReadonlyPopulated(readonlyIri: string)
    | ArrayFull
    | ArrayUnderfilled
    | UnknownRecordProperty(name: string)
    | NoRecordConstructor
    | ConstructorPropertiesMismatch
    | NoAnnotatedConstructorForRead
    | ConstructionFailed

  /** Why a `TransmogWriterException` is thrown. */
  datatype WriteFailure =
    | MissingRequiredValue
    | AccessorFailed
    | BlankSubject

  datatype Error =
    | Analysis(failure: AnalysisFailure)
    | NestedAnalysis(nested: JClass, cause: Error)   // an analyzer exception wrapping a nested one
    | Read(readFailure: ReadFailure)
    | Write(writeFailure: WriteFailure)
    | NestedWrite(writeCause: Error)                 // a writer exception wrapping a nested one
    | ClassCast
    | IndexOutOfBounds
    | NoSuchElement
    | NullPointer
    | StackOverflow
    | Thrown                                         // raised by code outside the core and not caught

  /** Exceptions that `catch (TransmogAnalyzerException e)` intercepts. */
  predicate IsAnalyzerException(e: Error)
  {
    e.Analysis? || e.NestedAnalysis?
  }

  /** Exceptions that `catch (TransmogWriterException e)` intercepts. */
  predicate IsWriterException(e: Error)
  {
    e.Write? || e.NestedWrite?
  }
}
