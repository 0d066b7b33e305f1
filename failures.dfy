/** The ways a call into the core can fail. Each stands for a C++ exception
    that the source lets travel up to AlembicStorage::open or
    AlembicStorage::read, or for the null those return. */
module Failures {

  /** The two runtime_errors AttributeSpreadSheet::get_as throws. */
  datatype SheetError = KeyNotFound | ValueTypeMismatch

  function SheetMessage(e: SheetError): string {
    match e
    case KeyNotFound => "[SpreadSheet] key not found."
    case ValueTypeMismatch => "[SpreadSheet] value type mismatch"
  }

  datatype Failure =
    /** A typed property was asked for under a name that does not exist. */
    | MissingProperty(name: string)
    /** A typed property was asked for under the name of a property of another type. */
    | MismatchedProperty(name: string)
    /** A spreadsheet lookup failed. */
    | SheetFailure(error: SheetError)
    /** The archive library itself failed, with this message. */
    | LibraryFailure(message: string)
}
