# ES51986 multimeter protocol decoder, modelled in Dafny

The ES51986 family of multimeter chips sends its readings over a serial
link as ASCII lines. Each line is a nine-byte frame ended by CR, LF or
CR LF. The frame holds a range byte, four digit bytes, a function byte, a
status byte, an unused "option1" byte and an option byte. The Rust crate
modelled here has two parts:

- `src/lib.rs` decodes one frame into an `Output` record. It also turns a
  record into a value string with a decimal point and a unit, using a
  fixed (range, function) table.
- `src/parser.rs` holds the `Parser`. This byte-at-a-time framer keeps a
  state (`Idle` or `FoundCr`) and a byte buffer. It cuts the stream at the
  terminators and decodes each buffered frame.

The Dafny project has these modules:

- `Prelude` (`prelude.dfy`): `byte`, `Option`, and `Result` with the
  failure-propagation members that play the part of Rust's `?`.
- `ParseErrors` (`parse_errors.dfy`): the `ParseError` enum.
- `DecimalText` (`decimal_text.dfy`): the part of `format!("{}", n)` the
  value formatter needs. `Render(n)` gives the canonical decimal numeral
  of `n`. `Value` reads a numeral back.
- `Es51986` (`es51986.dfy`): the field decoders, `Output::parse`,
  `Digits::to_value` and `Output::get_value`. All of them are pure
  functions. Each decoder has an encoder as its partner, and each
  round trip is proved.
- `StreamParser` (`parser.dfy`): the framer. `Transition`
  and `Run` specify it on values. The `Parser` class has the fields
  `state` and `buf`, which its methods update in place. Its methods are
  proved against `Transition` and `Run`. The class keeps this invariant:
  at most nine bytes are buffered, and none in `FoundCr`.
- `TestVectors` (`test_vectors.dfy`): every reading from the crate's unit
  tests, as concrete lemmas.

## Quirks of the code that the model keeps

- `Output::parse` validates the range byte first, then the function byte,
  then the digits (src/lib.rs:264-271). A frame with both a bad function
  byte and a bad digit reports `InvalidFunction`.
- After a CR, an LF clears the buffer and leaves the parser in `FoundCr`
  (src/parser.rs:61-63). Any number of LFs after a CR is swallowed
  (`RunLfAfterCr`).
- After a CR, a second CR is not a terminator: it is appended to the buffer
  as data and the parser returns to `Idle` (src/parser.rs:64-67;
  `TransitionCrAfterCr`, `RunCrCrLf`).
- Every data byte beyond the ninth reports its own `LengthError{len: 10}`
  and drops the oldest buffered byte (src/parser.rs:48-57). The terminator
  then decodes the last nine bytes. For "0123456789ABCDEFGHI" CR LF this
  gives ten `LengthError{len: 10}` and then `InvalidRange(0x41)`
  (`OverlongLine`).
- `NoLfAfterCr` is declared but never produced (`Transition`, `Run`).

## Model

| member | source | states |
|---|---|---|
| DecimalText.Render | src/lib.rs:225-240 | The `{}` rendering of a number is a canonical numeral: digits only, no leading zero unless it is "0". The numeral reads back as the number. |
| DecimalText.RenderValue | src/lib.rs:225-240 | Rendering inverts reading on canonical numerals. So each canonical numeral is the rendering of exactly one number. |
| DecimalText.ValueAppend | src/lib.rs:231-239 | The value of a numeral `a + b` is the value of `a` shifted by `|b|` places, plus the value of `b`. It is the splitting step in the proof of `RenderValue`. |
| Es51986.ParseRange | src/lib.rs:17-28 | A range byte is accepted exactly when it is '0'..'6'. The range index equals the byte minus '0'. Any other byte fails with `InvalidRange` carrying that byte. |
| Es51986.RangeByte | src/lib.rs:17-28 | Encoding a range and decoding it gives the range back. |
| Es51986.ParseFunction | src/lib.rs:51-70 | A function byte is accepted exactly when it is 0x30..0x3f and not 0x37. Any other byte fails with `InvalidFunction` carrying that byte. |
| Es51986.FunctionByte | src/lib.rs:51-70 | Encoding a function and decoding it gives the function back. |
| Es51986.FunctionByteOfParse | src/lib.rs:51-70 | Every accepted function byte is the encoding of what it decodes to. |
| Es51986.ParseFunctionInjective | src/lib.rs:51-70 | No two accepted bytes decode to the same function. |
| Es51986.SignOfStatusByte | src/lib.rs:80-93 | `is_minus` holds exactly when bit 2 of the status byte is set, and `is_not_minus` exactly when it is clear. `SIGN_MINUS` is minus and `SIGN_PLUS` is not. |
| Es51986.SignFactor | src/lib.rs:95-123 | The integer form of a sign is -1 exactly when the sign is minus, and 1 exactly when it is not. |
| Es51986.StatusByte | src/lib.rs:134-141 | The status flags encode into bits 3..0 only. |
| Es51986.ParseStatus | src/lib.rs:134-141 | Decoding never fails. The decoded flags re-encode to the byte's low four bits: bit 3 Celsius, bit 2 minus, bit 1 battery, bit 0 overflow. |
| Es51986.ParseStatusByte | src/lib.rs:134-141 | Decoding an encoded status gives it back. |
| Es51986.ParseStatusLowNibble | src/lib.rs:134-141 | Bits 7..4 of the status byte never matter. |
| Es51986.Option2Byte | src/lib.rs:152-158 | The option flags encode into bits 3..1 only. |
| Es51986.ParseOption2 | src/lib.rs:152-158 | Decoding never fails. The decoded flags re-encode to bits 3..1 of the byte: DC, AC, auto. |
| Es51986.ParseOption2Byte | src/lib.rs:152-158 | Decoding encoded option flags gives them back. |
| Es51986.ParseDigit | src/lib.rs:207-213 | A byte is accepted exactly when it is '0'..'9', and its digit is the byte minus '0'. Any other byte fails with `InvalidDigit` carrying that byte. |
| Es51986.ParseDigitChar | src/lib.rs:207-213 | The ASCII character of a digit decodes to that digit. |
| Es51986.ParseDigits | src/lib.rs:215-223 | Four bytes from `loc` are accepted exactly when all are digits. The decoded digits spell those bytes. Otherwise the error is `InvalidDigit` of the first bad byte, left to right. |
| Es51986.ToValue | src/lib.rs:225-241 | The value string is non-empty, longer than the number of places after the point, and made of digits and the point only. `ToValueLayout` states where the point goes and what each part reads as. |
| Es51986.ToValuePointed | src/lib.rs:231-239 | With a point, the value is the rendered number without its last k digits, then '.', then those k digits as characters. |
| Es51986.ToValueLayout | src/lib.rs:225-241 | With no point, the value is the canonical numeral of the four-digit number. With k places, it has a '.' k characters from the end. The part before the point is canonical and reads as the number divided by 10^k. The part after it is exactly the last k digits and reads as the number modulo 10^k. |
| Es51986.ParseOutput | src/lib.rs:262-276 | A frame is accepted exactly when it has nine bytes, a range byte at 0, digits at 1..4 and a function byte at 5. A wrong length gives `LengthError` with the actual length. Then, in code order, the first bad range, function or digit byte is the error. The error is never `NoLfAfterCr`. On success each field re-encodes to its byte (status and option modulo their ignored bits). |
| Es51986.EncodeOutput | src/lib.rs:262-276 | Every record is decoded from some nine-byte frame, whatever the unused byte 7 holds. |
| Es51986.ParseOutputIgnoresOption1 | src/lib.rs:266-268 | Byte 7 never changes the result. |
| Es51986.ValueTable | src/lib.rs:278-452 | The 30-entry table has an entry exactly for the pairs listed in `HasUnit`. Each entry's base unit is the one the function measures in. |
| Es51986.GetValue | src/lib.rs:278-452 | There is a value exactly when the pair has a unit. Its base unit is the function's. Its string is `to_value` of the digits at the point position the table gives for the pair, and its unit is the table's unit. |
| Es51986.GetValueReadsRangeFunctionDigits | src/lib.rs:278-452 | Only the range, the function and the digits decide the value. Sign, flags and options do not. |
| StreamParser.Transition | src/parser.rs:35-71 | One byte keeps the invariant: at most nine bytes buffered, none in `FoundCr`. It never yields `NoLfAfterCr`. Under the invariant, a `LengthError` reports at most 10. |
| StreamParser.Run | src/parser.rs:73-84 | Folding over a chunk yields at most one result per byte. It keeps the invariant and never yields `NoLfAfterCr`. |
| StreamParser.RunAppend | src/parser.rs:73-84 | Chunk independence: running over `a + b` equals running over `a`, then over `b` from where `a` stopped, with the results concatenated. |
| StreamParser.TransitionData | src/parser.rs:48-57 | A data byte in `Idle` is appended. If the buffer then holds ten bytes, the oldest is dropped and `LengthError{len: 10}` is reported. |
| StreamParser.RunData | src/parser.rs:48-57 | Data bytes in `Idle` slide a nine-byte window. Each byte beyond nine reports its own `LengthError{len: 10}`. |
| StreamParser.RunLfAfterCr | src/parser.rs:60-63 | After a CR, any run of LFs is swallowed. Nothing is reported and the parser stays in `FoundCr` with an empty buffer. |
| StreamParser.TransitionCrAfterCr | src/parser.rs:64-67 | In `FoundCr` a CR is data: it is appended to the buffer, nothing is reported and the state goes to `Idle`. |
| StreamParser.RunDoubleCr | src/parser.rs:36-42 | CR CR after a buffered payload reports the payload's decoding once and leaves the second CR buffered in `Idle`. |
| StreamParser.RunCrCrLf | src/parser.rs:36-67 | CR CR LF after a buffered payload reports the payload's decoding, then the decoding of the one-byte frame holding the second CR. |
| StreamParser.RunCrCrLfEmpty | src/parser.rs:36-67 | On a new parser, CR CR LF reports `LengthError{len: 0}` and then `LengthError{len: 1}`. |
| StreamParser.RunPayload | src/parser.rs:48-68 | Up to nine data bytes, from an empty buffer in either state, are buffered whole and report nothing. |
| StreamParser.RunTerminator | src/parser.rs:36-47 | A CR, LF or CR LF after a buffered payload reports exactly the payload's decoding and empties the buffer. |
| StreamParser.RunFrame | src/parser.rs:35-71 | A payload of up to nine data bytes plus any terminator reports exactly the payload's decoding. |
| StreamParser.RunOverlongLine | src/parser.rs:36-57 | A line longer than nine bytes reports one `LengthError{len: 10}` per extra byte. Then the terminator reports the decoding of the last nine bytes. |
| StreamParser.TerminatorEquivalence | src/parser.rs:36-68 | Sending a payload twice gives its decoding twice, whichever of CR, LF or CR LF ends it. |
| StreamParser.Parser.constructor | src/parser.rs:28-33 | A new parser is `Idle` with an empty buffer. |
| StreamParser.Parser.ParseCh | src/parser.rs:35-71 | Consuming one byte updates `state` and `buf` and returns the outcome exactly as `Transition` says. It keeps the invariant. |
| StreamParser.Parser.Parse | src/parser.rs:73-84 | Consuming a chunk returns exactly the results of `Run` and leaves the state where `Run` ends. It keeps the invariant. |
| TestVectors.VoltageFrame1 | src/lib.rs:467-474 | "00000;<0:" decodes to Range0, Voltage, minus sign, DC and auto. |
| TestVectors.VoltageValue1 | src/lib.rs:475 | That record reads "0.000" V. |
| TestVectors.VoltageFrame2 | src/lib.rs:477-484 | "00002;80:" decodes to Range0, Voltage, plus sign, DC and auto. |
| TestVectors.VoltageValue2 | src/lib.rs:485 | That record reads "0.002" V. |
| TestVectors.VoltageFrame3 | src/lib.rs:487-494 | "20989;806" decodes to Range2, Voltage, AC and auto. |
| TestVectors.VoltageValue3 | src/lib.rs:495 | That record reads "98.9" V. |
| TestVectors.OhmFrame1 | src/lib.rs:500-507 | "560003902" decodes to Range5, Ohm, with overflow set. |
| TestVectors.OhmValue1 | src/lib.rs:508 | That record reads "60.00" MOhm. |
| TestVectors.OhmFrame2 | src/lib.rs:510-517 | "109853802" decodes to Range1, Ohm. |
| TestVectors.OhmValue2 | src/lib.rs:518 | That record reads "0.985" kOhm. |
| TestVectors.OhmFrame3 | src/lib.rs:520-527 | "000003802" decodes to Range0, Ohm. |
| TestVectors.OhmValue3 | src/lib.rs:528 | That record reads "0.0" Ohm. |
| TestVectors.CapacitanceFrame1 | src/lib.rs:533-540 | "660006902" decodes to Range6, Capacitor, with overflow set. |
| TestVectors.CapacitanceValue1 | src/lib.rs:541 | That record reads "6.000" mF. |
| TestVectors.CapacitanceFrame2 | src/lib.rs:543-550 | "211656802" decodes to Range2, Capacitor. |
| TestVectors.CapacitanceValue2 | src/lib.rs:551 | That record reads "116.5" nF. |
| TestVectors.CapacitanceFrame3 | src/lib.rs:553-560 | "000226802" decodes to Range0, Capacitor. |
| TestVectors.CapacitanceValue3 | src/lib.rs:561 | That record reads "0.022" nF. |
| TestVectors.FrequencyFrame1 | src/lib.rs:566-573 | "000002802" decodes to Range0, Frequency. |
| TestVectors.FrequencyValue1 | src/lib.rs:574 | That record reads "0.000" kHz. |
| TestVectors.FrequencyFrame2 | src/lib.rs:576-583 | "210012802" decodes to Range2, Frequency. |
| TestVectors.FrequencyValue2 | src/lib.rs:584 | That record reads "100.1" kHz. |
| TestVectors.LuxFrame | src/lib.rs:589-596 | "00136>800" decodes to Range0, Adp0, with no option flags. |
| TestVectors.LuxValue | src/lib.rs:597-598 | The digits render as "136" with no point. The record has no value. |
| TestVectors.SoundLevelFrame | src/lib.rs:603-610 | "00676<800" decodes to Range0, Adp1. |
| TestVectors.SoundLevelValue | src/lib.rs:611-612 | The digits render as "676". The record has no value. |
| TestVectors.TemperatureFrame1 | src/lib.rs:617-624 | "060004900" decodes to Range0, Temperature, with overflow set. |
| TestVectors.TemperatureValue1 | src/lib.rs:625-626 | The digits render as "6000". The record has no value. |
| TestVectors.TemperatureFrame2 | src/lib.rs:628-635 | "000304800" decodes to Range0, Temperature. |
| TestVectors.TemperatureValue2 | src/lib.rs:636-637 | The digits render as "30". The record has no value. |
| TestVectors.MilliAmpereFrame | src/lib.rs:642-649 | "00002?<0:" decodes to Range0, MilliAmpere, minus sign, DC and auto. |
| TestVectors.MilliAmpereValue | src/lib.rs:650-651 | The digits render as "2", and the record reads "0.02" mA. |
| TestVectors.AmpereFrame | src/lib.rs:656-663 | "000019808" decodes to Range0, ManualAmpere, DC. |
| TestVectors.AmpereValue | src/lib.rs:664-665 | The digits render as "1", and the record reads "0.001" A. |
| TestVectors.OnlyCr | src/lib.rs:669-681 | The ampere frame sent twice, each ended by a bare CR, gives two identical records through the framer. |
| TestVectors.CrLf | src/lib.rs:684-696 | The same with CR LF. |
| TestVectors.OnlyLf | src/lib.rs:699-711 | The same with a bare LF. |
| TestVectors.OverlongLine | src/parser.rs:48-57 | "0123456789ABCDEFGHI" CR LF gives ten `LengthError{len: 10}` and then `InvalidRange(0x41)`. |

## Left out

- I/O: the serial port, and the crate's example program, which opens a port and prints records. The model takes the bytes as a parameter.
- SignFactor: the five `Into<i8>` .. `Into<i128>` conversions are one function to an unbounded `int`. Every target type holds -1 and 1, so no width matters.
- `Debug`, `Clone` and `PartialEq` derives are not modelled. Dafny datatypes have structural equality.
- `ValueUnit::new` is the datatype constructor `ValueUnit`.
- DecimalText.Render covers only what `format!` does to the non-negative integers used here. Rust's `usize` width is not modelled, because the largest value formatted is 9999.
- The digits are held as values 0..9 (`Digit`) rather than `u8`. `parse_digit` is the only producer, so no other value can occur.
- `LengthError.len` is an unbounded `nat` rather than `usize`.
- Coverage of the value table by readings: the unit tests read 12 of the 30 entries (`TestVectors`). The other 18 rest on the table's text alone, since no independent source of the meter's ranges is modelled.
- The test lemmas state each frame's decoding with `ParseOutput` rather than through `Parser::parse`. `RunFrame` shows that a frame plus any terminator, through a new parser, yields exactly that decoding. `OnlyCr`, `CrLf` and `OnlyLf` do go through the framer.
- The `to_u8` test helper is `Ascii`, which maps each character below 256 to its byte.
