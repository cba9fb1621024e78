/**
 * The data store's error taxonomy and the single failure channel of every
 * operation: a promise that rejects and a call that throws both become a
 * Failure here.
 */
module Errors {
  import opened Values

  datatype Error =
    /** a structurally valid call names a resource that is not registered */
    | RuntimeError(message: string)
    /** a caller-supplied argument has the wrong shape */
    | IllegalArgumentError(message: string)
    /** an unexpected internal fault, wrapped so that callers see a typed error */
    | UnhandledError(cause: Error)
    /** an exception raised by the engine itself, such as a property read on undefined */
    | Fault(message: string)
    /**
     * the shape a hook, a transform or an adapter takes when it rejects or
     * throws with a plain value; hook results are free to carry any Error
     */
    | Rejected(reason: Value)

  datatype Result<+T> = Success(value: T) | Failure(error: Error)

  const NotRegistered := " is not a registered resource!"
  const IdMustBePrimitive := "id: Must be a string or a number!"
  const AttrsMustBeObject := "attrs: Must be an object!"
  const OptionsMustBeObject := "options: Must be an object!"

  /** Under one operation's prefix the three argument messages stay distinct. */
  lemma ArgumentMessagesDistinct(prefix: string)
    ensures prefix + IdMustBePrimitive != prefix + AttrsMustBeObject
    ensures prefix + IdMustBePrimitive != prefix + OptionsMustBeObject
    ensures prefix + AttrsMustBeObject != prefix + OptionsMustBeObject
  {
    assert (prefix + IdMustBePrimitive)[|prefix|] == 'i';
    assert (prefix + AttrsMustBeObject)[|prefix|] == 'a';
    assert (prefix + OptionsMustBeObject)[|prefix|] == 'o';
  }
}
