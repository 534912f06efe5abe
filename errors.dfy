/** The exceptions the core raises or lets through, as error values. */
module Errors {

  /** One `ConfigValidationError`: a document field whose value does not have
      the declared (resolved) type. */
  datatype Finding = Finding(fieldName: string, expected: string, got: string)
  {
    /** `str(error)`: `Field '<name>' expected <type>, got <type>`. */
    function Message(): string
    {
      "Field '" + fieldName + "' expected " + expected + ", got " + got
    }
  }

  datatype Error =
      /** `ConfigNotLoadedError`: a field read before `load()` */
    | ConfigNotLoaded(message: string)
      /** the `ExceptionGroup` that carries every finding of one validation pass */
    | ValidationFailed(message: string, findings: seq<Finding>)
      /** `ValueError` from `DataClass(cls)` when `cls` is not a dataclass */
    | NotADataclass(message: string)
      /** `AttributeError` for a private slot that was never written */
    | MissingAttribute(name: string)
      /** an error raised by reading the file or parsing the YAML */
    | ReadFailed(message: string)
      /** an error raised by the marshmallow deserialiser, such as
          "Unknown field." or "Missing data for required field." */
    | DeserializationFailed(message: string)

  /** The message of the finding for a string in an `int` field named
      `age`. */
  lemma MessageExample()
    ensures Finding("age", "int", "str").Message() == "Field 'age' expected int, got str"
  {
  }
}
