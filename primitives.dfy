/** Value types of the .NET runtime that the service relies on, and the exceptions it raises. */
module Primitives {

  /** A System.Guid, as its 128-bit value; Guid.Empty is zero. */
  type Guid = g: nat | g < 0x1_0000_0000_0000_0000_0000_0000_0000_0000

  const EmptyGuid: Guid := 0

  /** A point in time, in milliseconds. */
  type DateTime = int

  const MillisecondsPerMinute := 60_000

  const Int32Modulus := 0x1_0000_0000
  const Int32Min := -0x8000_0000
  const Int32Max := 0x7FFF_FFFF

  predicate InInt32(x: int) { Int32Min <= x <= Int32Max }

  /** A C# `int`. */
  type Int32 = x: int | Int32Min <= x <= Int32Max

  /** A `List<T>`: its Count is an `int`, so it never holds more than Int32Max elements. */
  type List<T> = s: seq<T> | |s| <= Int32Max witness []

  /** A C# `long`. */
  type Int64 = x: int | -0x8000_0000_0000_0000 <= x <= 0x7FFF_FFFF_FFFF_FFFF

  /** Unchecked C# `int` arithmetic: the mathematical result reduced to 32-bit two's complement. */
  function WrapInt32(x: int): (r: Int32)
    ensures (r - x) % Int32Modulus == 0
    ensures InInt32(x) ==> r == x
  {
    var m := (x - Int32Min) % Int32Modulus;
    m + Int32Min
  }

  /** One FluentValidation failure: the property it is about and its message. */
  datatype ValidationFailure = ValidationFailure(propertyName: string, errorMessage: string)

  /**
   * The exceptions raised along the modelled paths. Those raised by the runtime itself
   * (JSON accessors, parsers) carry no message in this model.
   */
  datatype Exception =
    | ValidationException(errors: seq<ValidationFailure>)
    | NotFoundException(message: string)
    | UnauthorizedException(message: string)
    | ForbiddenException(message: string)
    | ArgumentException(paramName: string, message: string)
    | ArgumentNullException(paramName: string, message: string)
    | ArgumentOutOfRangeException(paramName: string, message: string)
    | InvalidOperationException(message: string)
    | JsonKindMismatch         // InvalidOperationException from a JsonElement accessor
    | JsonPropertyMissing(name: string)  // KeyNotFoundException from JsonElement.GetProperty
    | GuidFormatError          // FormatException from JsonElement.GetGuid
    | JsonReaderError          // raised by JsonDocument.Parse on malformed text
    | GeneralException(message: string)  // `new Exception(message)`

  /** The name of the exception's runtime type, as `ex.GetType().Name` gives it. */
  function TypeName(e: Exception): (name: string)
    ensures name != ""
  {
    match e
    case ValidationException(_) => "ValidationException"
    case NotFoundException(_) => "NotFoundException"
    case UnauthorizedException(_) => "UnauthorizedException"
    case ForbiddenException(_) => "ForbiddenException"
    case ArgumentException(_, _) => "ArgumentException"
    case ArgumentNullException(_, _) => "ArgumentNullException"
    case ArgumentOutOfRangeException(_, _) => "ArgumentOutOfRangeException"
    case InvalidOperationException(_) => "InvalidOperationException"
    case JsonKindMismatch => "InvalidOperationException"
    case JsonPropertyMissing(_) => "KeyNotFoundException"
    case GuidFormatError => "FormatException"
    case JsonReaderError => "JsonReaderException"
    case GeneralException(_) => "Exception"
  }

  function ValidationSummary(errors: seq<ValidationFailure>): string
  {
    if errors == [] then ""
    else
      "\n -- " + errors[0].propertyName + ": " + errors[0].errorMessage + " Severity: Error"
      + ValidationSummary(errors[1..])
  }

  /** `ex.Message`: argument exceptions append the parameter name, as the runtime does. */
  function Message(e: Exception): string
  {
    match e
    case ValidationException(errors) => "Validation failed: " + ValidationSummary(errors)
    case NotFoundException(m) => m
    case UnauthorizedException(m) => m
    case ForbiddenException(m) => m
    case ArgumentException(p, m) => m + " (Parameter '" + p + "')"
    case ArgumentNullException(p, m) => m + " (Parameter '" + p + "')"
    case ArgumentOutOfRangeException(p, m) => m + " (Parameter '" + p + "')"
    case InvalidOperationException(m) => m
    case JsonKindMismatch => ""
    case JsonPropertyMissing(_) => ""
    case GuidFormatError => ""
    case JsonReaderError => ""
    case GeneralException(m) => m
  }
}
