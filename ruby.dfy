/** Notions of the Ruby runtime that the client library relies on: nil-able
    values, raised exceptions, and strings as byte sequences. */
module Ruby {

  /** A value that may be nil. */
  datatype Option<+T> = None | Some(value: T)

  /** The exceptions the modelled code can raise. `OutsideModel` marks the
      few inputs whose Ruby behaviour this model does not describe. */
  datatype RubyError =
    | NoMethodError(name: string)
    | TypeError
    | IndexError
    | ParserError
    | OutsideModel

  /** Either a value or the exception raised while computing it; usable
      with `:-`, an exception propagating to the caller. */
  datatype Result<+T> = Ok(value: T) | Raise(error: RubyError) {
    predicate IsFailure() { Raise? }

    function PropagateFailure<U>(): Result<U>
      requires Raise?
    {
      Raise(error)
    }

    function Extract(): T
      requires Ok?
    {
      value
    }
  }

  /** Ruby 1.8 strings are byte strings: a character below 256 is one byte. */
  type Byte = c: char | c as int < 256 witness 'a'

  type Bytes = seq<Byte>
}
