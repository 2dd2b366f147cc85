/** Java exceptions as values: a kind and the message the exception reports,
    None standing for a null message. Subclasses collapse into the kind of the
    class a catch clause names. */
module Exceptions {
  import opened Wrappers

  datatype ExceptionKind =
    | IOException
    | ParseException
    | NullPointerException
    | ClassCastException
    | IllegalArgumentException
    | JOSEException
    | TokenValidationException
    | RuntimeException

  datatype Exception = Exception(kind: ExceptionKind, message: Option<string>)

  /** A NullPointerException raised by the JVM; on Java 8 it has no message. */
  const NullPointer: Exception := Exception(NullPointerException, None)

  /** A failed downcast raised by the JVM, which always reports a message
      naming the value's type and the target class. */
  function ClassCast(valueType: string, target: string): (e: Exception)
    ensures e.kind.ClassCastException? && e.message.Some?
  {
    Exception(ClassCastException, Some(valueType + " cannot be cast to " + target))
  }

  /** A TokenValidationException with the given message. */
  function Validation(message: Option<string>): (e: Exception)
    ensures e.kind.TokenValidationException? && e.message == message
  {
    Exception(TokenValidationException, message)
  }

  /** The catch-all clause of the validators: whatever was thrown, a
      TokenValidationException with the same message leaves. */
  function RethrowAsValidation(e: Exception): (v: Exception)
    ensures v.kind.TokenValidationException?
    ensures v.message == e.message
    ensures e.kind.TokenValidationException? ==> v == e
  {
    Validation(e.message)
  }

  /** How a possibly-null string is printed into a formatted message: null
      prints as "null". */
  function JavaText(s: Option<string>): (t: string)
    ensures s.Some? ==> t == s.value
    ensures s.None? ==> t == "null"
  {
    match s
    case Some(v) => v
    case None => "null"
  }
}
