/** The error values of the decoder (src/parser.rs). */
module ParseErrors {
  import opened Prelude

  datatype ParseError =
    | LengthError(len: nat)        // a frame of the wrong length, carrying the length seen
    | NoLfAfterCr                  // declared by the source, never produced
    | InvalidRange(rangeByte: byte)
    | InvalidFunction(functionByte: byte)
    | InvalidDigit(digitByte: byte)
}
