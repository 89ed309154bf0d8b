/** Frame and field decoding for the ES51986 multimeter serial protocol, and the
    (range, function) table that turns a decoded frame into a value with a unit
    (src/lib.rs). Everything here is a pure function of its input. */
module Es51986 {
  import opened Prelude
  import opened ParseErrors
  import opened DecimalText

  // ---------------------------------------------------------------- range byte

  datatype Range = Range0 | Range1 | Range2 | Range3 | Range4 | Range5 | Range6

  /** The position of a range in the declaration order, 0 to 6. */
  function RangeIndex(r: Range): (i: nat)
    ensures i < 7
  {
    match r
    case Range0 => 0
    case Range1 => 1
    case Range2 => 2
    case Range3 => 3
    case Range4 => 4
    case Range5 => 5
    case Range6 => 6
  }

  predicate IsRangeByte(c: byte) {
    0x30 <= c <= 0x36
  }

  /** The wire byte of a range: ASCII '0' plus its index. */
  function RangeByte(r: Range): (c: byte)
    ensures ParseRange(c) == Ok(r)
  {
    0x30 + RangeIndex(r) as byte
  }

  /** `Range::parse`: the bytes '0'..'6' select Range0..Range6. */
  function ParseRange(c: byte): (r: Result<Range, ParseError>)
    ensures r.Ok? <==> IsRangeByte(c)
    ensures r.Ok? ==> RangeIndex(r.value) as byte == c - 0x30
    ensures r.Err? ==> r.error == InvalidRange(c)
  {
    match c
    case 0x30 => Ok(Range0)
    case 0x31 => Ok(Range1)
    case 0x32 => Ok(Range2)
    case 0x33 => Ok(Range3)
    case 0x34 => Ok(Range4)
    case 0x35 => Ok(Range5)
    case 0x36 => Ok(Range6)
    case _ => Err(InvalidRange(c))
  }

  // ------------------------------------------------------------- function byte

  datatype Function =
    | Voltage | MicroAmpere | MilliAmpere | AutoAmpere | ManualAmpere
    | Ohm | Continuity | Diode | Frequency | Capacitor | Temperature
    | Adp0 | Adp1 | Adp2 | Adp3

  /** The fifteen function bytes: '0' to '?' except '7'. */
  predicate IsFunctionByte(c: byte) {
    0x30 <= c <= 0x3f && c != 0x37
  }

  /** The wire byte of a function. */
  function FunctionByte(f: Function): (c: byte)
    ensures ParseFunction(c) == Ok(f)
  {
    match f
    case Voltage => 0x3b
    case MicroAmpere => 0x3d
    case MilliAmpere => 0x3f
    case AutoAmpere => 0x30
    case ManualAmpere => 0x39
    case Ohm => 0x33
    case Continuity => 0x35
    case Diode => 0x31
    case Frequency => 0x32
    case Capacitor => 0x36
    case Temperature => 0x34
    case Adp0 => 0x3e
    case Adp1 => 0x3c
    case Adp2 => 0x38
    case Adp3 => 0x3a
  }

  /** `Function::parse`: an irregular table over the bytes 0x30..0x3f. */
  function ParseFunction(c: byte): (r: Result<Function, ParseError>)
    ensures r.Ok? <==> IsFunctionByte(c)
    ensures r.Err? ==> r.error == InvalidFunction(c)
  {
    match c
    case 0x3b => Ok(Voltage)
    case 0x3d => Ok(MicroAmpere)
    case 0x3f => Ok(MilliAmpere)
    case 0x30 => Ok(AutoAmpere)
    case 0x39 => Ok(ManualAmpere)
    case 0x33 => Ok(Function.Ohm)
    case 0x35 => Ok(Continuity)
    case 0x31 => Ok(Diode)
    case 0x32 => Ok(Frequency)
    case 0x36 => Ok(Capacitor)
    case 0x34 => Ok(Temperature)
    case 0x3e => Ok(Adp0)
    case 0x3c => Ok(Adp1)
    case 0x38 => Ok(Adp2)
    case 0x3a => Ok(Adp3)
    case _ => Err(InvalidFunction(c))
  }

  /** Every accepted function byte is the wire byte of what it decodes to. */
  lemma FunctionByteOfParse(c: byte)
    requires IsFunctionByte(c)
    ensures ParseFunction(c).Ok? && FunctionByte(ParseFunction(c).value) == c
  {
  }

  /** No two accepted bytes decode to the same function. */
  lemma ParseFunctionInjective(a: byte, b: byte)
    requires ParseFunction(a).Ok? && ParseFunction(a) == ParseFunction(b)
    ensures a == b
  {
    FunctionByteOfParse(a);
    FunctionByteOfParse(b);
  }

  // ---------------------------------------------------------------- status byte

  datatype TemperatureUnit = Celsius | Fahrenheit

  /** The sign of the reading: `minus` is true for a negative reading. */
  datatype Sign = Sign(minus: bool)

  const SignPlus := Sign(false)
  const SignMinus := Sign(true)

  predicate IsMinus(s: Sign) {
    s.minus
  }

  predicate IsNotMinus(s: Sign) {
    !IsMinus(s)
  }

  /** `is_minus` and `is_not_minus` read bit 2 of the status byte, and the two
      sign constants are what their names say. */
  lemma SignOfStatusByte(c: byte)
    ensures IsMinus(ParseStatus(c).sign) <==> c & 0x04 != 0
    ensures IsNotMinus(ParseStatus(c).sign) <==> c & 0x04 == 0
    ensures IsMinus(SignMinus) && IsNotMinus(SignPlus)
  {
  }

  /** The sign as a factor, as the `Into<i8>` .. `Into<i128>` conversions give it. */
  function SignFactor(s: Sign): (f: int)
    ensures f == -1 <==> IsMinus(s)
    ensures f == 1 <==> IsNotMinus(s)
  {
    if IsMinus(s) then -1 else 1
  }

  datatype Status = Status(
    temperatureUnit: TemperatureUnit,
    sign: Sign,
    isBatteryDepleted: bool,
    isOverflow: bool)

  /** The status byte with the flags of `s` in bits 3..0 and nothing else set. */
  function StatusByte(s: Status): (c: byte)
    ensures c & 0xf0 == 0
  {
    (if s.temperatureUnit == Celsius then 0x08 else 0)
    | (if IsMinus(s.sign) then 0x04 else 0)
    | (if s.isBatteryDepleted then 0x02 else 0)
    | (if s.isOverflow then 0x01 else 0)
  }

  /** `Status::parse`: total; bit 3 Celsius, bit 2 minus, bit 1 battery, bit 0
      overflow; the upper four bits are ignored. */
  function ParseStatus(c: byte): (s: Status)
    ensures StatusByte(s) == c & 0x0f
  {
    Status(
      if c & 0x08 != 0 then Celsius else Fahrenheit,
      Sign(c & 0x04 != 0),
      c & 0x02 != 0,
      c & 0x01 != 0)
  }

  /** Decoding the encoding of a status gives the status back. */
  lemma ParseStatusByte(s: Status)
    ensures ParseStatus(StatusByte(s)) == s
  {
  }

  /** Bits 4..7 of the status byte never matter. */
  lemma ParseStatusLowNibble(c: byte)
    ensures ParseStatus(c) == ParseStatus(c & 0x0f)
  {
    ParseStatusByte(ParseStatus(c));
  }

  // ---------------------------------------------------------------- option byte

  datatype Option2 = Option2(isDc: bool, isAc: bool, isAuto: bool)

  /** The option byte with the flags of `o` in bits 3..1 and nothing else set. */
  function Option2Byte(o: Option2): (c: byte)
    ensures c & 0xf1 == 0
  {
    (if o.isDc then 0x08 else 0)
    | (if o.isAc then 0x04 else 0)
    | (if o.isAuto then 0x02 else 0)
  }

  /** `Option2::parse`: total; bit 3 DC, bit 2 AC, bit 1 auto-range; bit 0 and
      the upper four bits are ignored. */
  function ParseOption2(c: byte): (o: Option2)
    ensures Option2Byte(o) == c & 0x0e
  {
    Option2(c & 0x08 != 0, c & 0x04 != 0, c & 0x02 != 0)
  }

  /** Decoding the encoding of the option flags gives them back. */
  lemma ParseOption2Byte(o: Option2)
    ensures ParseOption2(Option2Byte(o)) == o
  {
  }

  // ---------------------------------------------------------------- digit bytes

  /** Exactly four digit values, most significant first. */
  type DigitGroup = s: seq<Digit> | |s| == 4 witness [0, 0, 0, 0]

  datatype Digits = Digits(digits: DigitGroup)

  /** Where the decimal point goes: before the last 0, 1, 2 or 3 digits. */
  datatype DigitRadix = Zero | Minus1 | Minus2 | Minus3

  function Places(radix: DigitRadix): (k: nat)
    ensures k <= 3
  {
    match radix
    case Zero => 0
    case Minus1 => 1
    case Minus2 => 2
    case Minus3 => 3
  }

  /** The four-digit number the group spells. */
  function Number(d: Digits): nat {
    var g: seq<nat> := d.digits;
    g[0] * 1000 + g[1] * 100 + g[2] * 10 + g[3]
  }

  predicate IsDigitByte(c: byte) {
    0x30 <= c <= 0x39
  }

  /** `Digits::parse_digit`: an ASCII digit byte gives its value. */
  function ParseDigit(c: byte): (r: Result<Digit, ParseError>)
    ensures r.Ok? <==> IsDigitByte(c)
    ensures r.Ok? ==> DigitChar(r.value) as int == c as int
    ensures r.Err? ==> r.error == InvalidDigit(c)
  {
    if 0x30 <= c && c <= 0x39 then Ok((c - 0x30) as int) else Err(InvalidDigit(c))
  }

  /** The ASCII character of a digit decodes back to that digit. */
  lemma ParseDigitChar(d: Digit)
    ensures ParseDigit(DigitChar(d) as byte) == Ok(d)
  {
  }

  /** `j` is the first of the four digit positions from `loc` that is not an
      ASCII digit. */
  predicate FirstBadDigit(input: seq<byte>, loc: nat, j: nat)
    requires loc + 4 <= |input|
  {
    loc <= j < loc + 4 && !IsDigitByte(input[j])
    && forall i | loc <= i < j :: IsDigitByte(input[i])
  }

  /** `Digits::parse`: the four bytes from `loc`, left to right, stopping at the
      first that is not a digit. */
  function ParseDigits(input: seq<byte>, loc: nat): (r: Result<Digits, ParseError>)
    requires loc + 4 <= |input|
    ensures r.Ok? <==> forall i | loc <= i < loc + 4 :: IsDigitByte(input[i])
    ensures r.Ok? ==> forall i | 0 <= i < 4 :: DigitChar(r.value.digits[i]) as int == input[loc + i] as int
    ensures forall j: nat :: FirstBadDigit(input, loc, j) ==> r == Err(InvalidDigit(input[j]))
  {
    var d0 :- ParseDigit(input[loc]);
    var d1 :- ParseDigit(input[loc + 1]);
    var d2 :- ParseDigit(input[loc + 2]);
    var d3 :- ParseDigit(input[loc + 3]);
    Ok(Digits([d0, d1, d2, d3]))
  }

  /** `Digits::to_value`: the group with a decimal point `Places(radix)` digits
      from the right; the part before the point is rendered without leading
      zeros, each digit after it as one character. */
  function ToValue(d: Digits, radix: DigitRadix): (s: string)
    ensures forall i | 0 <= i < |s| :: IsDigitChar(s[i]) || s[i] == '.'
    ensures |s| > Places(radix)
  {
    var g: seq<nat> := d.digits;
    match radix
    case Zero => Render(g[0] * 1000 + g[1] * 100 + g[2] * 10 + g[3])
    case Minus1 => Render(g[0] * 100 + g[1] * 10 + g[2]) + "." + Render(g[3])
    case Minus2 => Render(g[0] * 10 + g[1]) + "." + Render(g[2]) + Render(g[3])
    case Minus3 => Render(g[0]) + "." + Render(g[1]) + Render(g[2]) + Render(g[3])
  }

  /** A single digit renders as its one character. */
  lemma RenderDigit(d: Digit)
    ensures Render(d) == [DigitChar(d)]
  {
  }

  /** Reading a short digit string of known characters. */
  lemma ValueOfChars(ds: seq<Digit>)
    requires 1 <= |ds| <= 3
    ensures forall i | 0 <= i < |ds| :: IsDigitChar(Chars(ds)[i])
    ensures Value(Chars(ds)) == if |ds| == 1 then ds[0] as nat
                                else if |ds| == 2 then ds[0] as nat * 10 + ds[1]
                                else ds[0] as nat * 100 + ds[1] as nat * 10 + ds[2]
  {
    var f := Chars(ds);
    var f1 := [DigitChar(ds[0])];
    assert f1[..0] == [];
    assert Value(f1) == ds[0];
    if |ds| == 1 {
      assert f == f1;
    } else {
      var f2 := f1 + [DigitChar(ds[1])];
      assert f2[..1] == f1;
      assert Value(f2) == ds[0] as nat * 10 + ds[1];
      if |ds| == 2 {
        assert f == f2;
      } else {
        var f3 := f2 + [DigitChar(ds[2])];
        assert f3[..2] == f2;
        assert f == f3;
      }
    }
  }

  /** The layout of a string `a + "." + f`: the part before the point is `a`
      and the part after it is `f`. */
  lemma PointedLayout(a: string, f: string, s: string)
    requires s == a + "." + f
    ensures |s| == |a| + 1 + |f| && s[|s| - |f| - 1] == '.'
    ensures s[..|s| - |f| - 1] == a && s[|s| - |f|..] == f
  {
  }
  /** Splitting the four-digit number at k places: the digits before the
      point and the digits after it. */
  lemma NumberSplit(d: Digits, k: nat)
    requires 1 <= k <= 3
    ensures var g: seq<nat> := d.digits; var n := Number(d);
      && n / Pow10(k) == (if k == 1 then g[0] * 100 + g[1] * 10 + g[2]
                          else if k == 2 then g[0] * 10 + g[1] else g[0])
      && n % Pow10(k) == (if k == 1 then g[3]
                          else if k == 2 then g[2] * 10 + g[3] else g[1] * 100 + g[2] * 10 + g[3])
  {
    assert Pow10(1) == 10 && Pow10(2) == 100 && Pow10(3) == 1000;
  }

  /** With a point, `ToValue` is the rendered number without its last k
      digits, a '.', and those k digit characters. */
  lemma ToValuePointed(d: Digits, radix: DigitRadix)
    requires Places(radix) > 0
    ensures var k := Places(radix);
      ToValue(d, radix) == Render(Number(d) / Pow10(k)) + "." + Chars(d.digits[4 - k..])
  {
    var g := d.digits;
    var k := Places(radix);
    NumberSplit(d, k);
    RenderDigit(g[1]);
    RenderDigit(g[2]);
    RenderDigit(g[3]);
    var a := Render(Number(d) / Pow10(k));
    var f := Chars(g[4 - k..]);
    if k == 1 {
      assert Render(g[3]) == f;
    } else if k == 2 {
      assert Render(g[2]) + Render(g[3]) == f;
      assert a + "." + Render(g[2]) + Render(g[3]) == a + "." + f;
    } else {
      assert Render(g[1]) + Render(g[2]) + Render(g[3]) == f;
      assert a + "." + Render(g[1]) + Render(g[2]) + Render(g[3]) == a + "." + f;
    }
  }

  /** What `ToValue` writes: with no point, the canonical numeral of the
      four-digit number; otherwise the canonical numeral of the number without
      its last k digits, a '.', and exactly those last k digits, so that the
      string reads back as the four-digit number scaled by 10^-k. */
  lemma ToValueLayout(d: Digits, radix: DigitRadix)
    ensures var s, k, n := ToValue(d, radix), Places(radix), Number(d);
      if k == 0 then
        IsCanonical(s) && Value(s) == n
      else
        |s| >= k + 2 && s[|s| - k - 1] == '.'
        && IsCanonical(s[..|s| - k - 1]) && Value(s[..|s| - k - 1]) == n / Pow10(k)
        && s[|s| - k..] == Chars(d.digits[4 - k..])
        && Value(s[|s| - k..]) == n % Pow10(k)
  {
    var k := Places(radix);
    if k > 0 {
      var g := d.digits;
      var n := Number(d);
      ToValuePointed(d, radix);
      ValueOfChars(g[4 - k..]);
      NumberSplit(d, k);
      PointedParts(ToValue(d, radix), Render(n / Pow10(k)), Chars(g[4 - k..]), n, k);
    }
  }

  /** The parts of a pointed numeral, read back. */
  lemma PointedParts(s: string, a: string, f: string, n: nat, k: nat)
    requires s == a + "." + f && |f| == k
    requires IsCanonical(a) && Value(a) == n / Pow10(k)
    requires forall i | 0 <= i < |f| :: IsDigitChar(f[i])
    requires Value(f) == n % Pow10(k)
    ensures |s| >= k + 2 && s[|s| - k - 1] == '.'
    ensures IsCanonical(s[..|s| - k - 1]) && Value(s[..|s| - k - 1]) == n / Pow10(k)
    ensures s[|s| - k..] == f && Value(s[|s| - k..]) == n % Pow10(k)
  {
    PointedLayout(a, f, s);
  }

  // ---------------------------------------------------------------- whole frame

  /** The number of payload bytes in a frame. */
  const OutputLength: nat := 9

  /** One decoded frame. */
  datatype Output = Output(
    range: Range,
    digits: Digits,
    func: Function,
    status: Status,
    option2: Option2)

  /** A frame `ParseOutput` accepts: nine bytes, a range byte at 0, a function
      byte at 5 and digit bytes at 1..4; bytes 6, 7 and 8 may be anything. */
  predicate IsFrame(input: seq<byte>) {
    |input| == OutputLength && IsRangeByte(input[0]) && IsFunctionByte(input[5])
    && forall i | 1 <= i <= 4 :: IsDigitByte(input[i])
  }

  /** `Output::parse`: checks the length, then the range byte, then the function
      byte, then the digit bytes left to right; the first failure is the error.
      Byte 7 ("option1") is not read. */
  function ParseOutput(input: seq<byte>): (r: Result<Output, ParseError>)
    ensures r.Ok? <==> IsFrame(input)
    ensures |input| != OutputLength ==> r == Err(LengthError(|input|))
    ensures |input| == OutputLength && !IsRangeByte(input[0]) ==> r == Err(InvalidRange(input[0]))
    ensures |input| == OutputLength && IsRangeByte(input[0]) && !IsFunctionByte(input[5])
      ==> r == Err(InvalidFunction(input[5]))
    ensures |input| == OutputLength && IsRangeByte(input[0]) && IsFunctionByte(input[5])
      ==> forall j: nat :: FirstBadDigit(input, 1, j) ==> r == Err(InvalidDigit(input[j]))
    ensures r.Err? ==> r.error != NoLfAfterCr
    ensures r.Ok? ==>
      && RangeByte(r.value.range) == input[0]
      && (forall i | 0 <= i < 4 :: DigitChar(r.value.digits.digits[i]) as int == input[1 + i] as int)
      && FunctionByte(r.value.func) == input[5]
      && StatusByte(r.value.status) == input[6] & 0x0f
      && Option2Byte(r.value.option2) == input[8] & 0x0e
  {
    if |input| == OutputLength then
      var range :- ParseRange(input[0]);
      var func :- ParseFunction(input[5]);
      var status := ParseStatus(input[6]);
      var option2 := ParseOption2(input[8]);
      var digits :- ParseDigits(input, 1);
      assert FunctionByte(func) == input[5] by { FunctionByteOfParse(input[5]); }
      Ok(Output(range, digits, func, status, option2))
    else
      Err(LengthError(|input|))
  }

  /** A frame for `o`, with `option1` in the unused byte 7. */
  function EncodeOutput(o: Output, option1: byte): (frame: seq<byte>)
    ensures |frame| == OutputLength
    ensures ParseOutput(frame) == Ok(o)
  {
    var g := o.digits.digits;
    var frame := [RangeByte(o.range),
                  DigitChar(g[0]) as byte, DigitChar(g[1]) as byte,
                  DigitChar(g[2]) as byte, DigitChar(g[3]) as byte,
                  FunctionByte(o.func), StatusByte(o.status), option1, Option2Byte(o.option2)];
    EncodeOutputParses(o, frame);
    frame
  }

  lemma EncodeOutputParses(o: Output, frame: seq<byte>)
    requires |frame| == OutputLength
    requires var g := o.digits.digits;
      frame == [RangeByte(o.range),
                DigitChar(g[0]) as byte, DigitChar(g[1]) as byte,
                DigitChar(g[2]) as byte, DigitChar(g[3]) as byte,
                FunctionByte(o.func), StatusByte(o.status), frame[7], Option2Byte(o.option2)]
    ensures ParseOutput(frame) == Ok(o)
  {
    var g := o.digits.digits;
    ParseDigitChar(g[0]);
    ParseDigitChar(g[1]);
    ParseDigitChar(g[2]);
    ParseDigitChar(g[3]);
    assert ParseDigits(frame, 1) == Ok(o.digits) by {
      assert Digits([g[0], g[1], g[2], g[3]]) == o.digits;
    }
    ParseStatusByte(o.status);
    ParseOption2Byte(o.option2);
  }

  /** Byte 7 never affects the result. */
  lemma ParseOutputIgnoresOption1(input: seq<byte>, b: byte)
    requires |input| == OutputLength
    ensures ParseOutput(input[7 := b]) == ParseOutput(input)
  {
    assert input[7 := b][..5] == input[..5];
  }

  // ---------------------------------------------------------------- value table

  datatype PrefixUnit = Mega | Kilo | None | Millis | Micro | Nano

  /** The source spells hertz "Hearts". */
  datatype BaseUnit = Ampere | Volt | Ohm | Hearts | Farad

  datatype ValueUnit = ValueUnit(prefixUnit: PrefixUnit, baseUnit: BaseUnit)

  datatype OutputValue = OutputValue(digits: string, valueUnit: ValueUnit)

  /** One entry of the value table: where the point goes and the unit. */
  datatype Placement = Placement(radix: DigitRadix, valueUnit: ValueUnit)

  /** The (range, function) pairs the table covers: Capacitor in every range,
      Voltage and Frequency in Range0..Range4, Ohm in Range0..Range5, the
      micro-, milli- and auto-ranged ampere functions in Range0..Range1, the
      manual ampere function in Range0 only, and nothing else. */
  predicate HasUnit(range: Range, func: Function) {
    var i := RangeIndex(range);
    match func
    case Capacitor => true
    case Voltage => i <= 4
    case Frequency => i <= 4
    case Ohm => i <= 5
    case MicroAmpere => i <= 1
    case MilliAmpere => i <= 1
    case AutoAmpere => i <= 1
    case ManualAmpere => i == 0
    case _ => false
  }

  /** The base unit a function measures in, if it has one. */
  function BaseUnitOf(func: Function): Option<BaseUnit> {
    match func
    case Voltage => Some(Volt)
    case MicroAmpere => Some(Ampere)
    case MilliAmpere => Some(Ampere)
    case AutoAmpere => Some(Ampere)
    case ManualAmpere => Some(Ampere)
    case Ohm => Some(BaseUnit.Ohm)
    case Frequency => Some(Hearts)
    case Capacitor => Some(Farad)
    case _ => Option.None
  }

  /** The table inside `Output::get_value`, range outer, function inner. */
  function ValueTable(range: Range, func: Function): (p: Option<Placement>)
    ensures p.Some? <==> HasUnit(range, func)
    ensures p.Some? ==> BaseUnitOf(func) == Some(p.value.valueUnit.baseUnit)
  {
    match range
    case Range0 => (
      match func
      case Voltage => Some(Placement(Minus3, ValueUnit(PrefixUnit.None, Volt)))
      case MicroAmpere => Some(Placement(Minus1, ValueUnit(Micro, Ampere)))
      case MilliAmpere => Some(Placement(Minus2, ValueUnit(Millis, Ampere)))
      case AutoAmpere => Some(Placement(Minus3, ValueUnit(PrefixUnit.None, Ampere)))
      case ManualAmpere => Some(Placement(Minus3, ValueUnit(PrefixUnit.None, Ampere)))
      case Ohm => Some(Placement(Minus1, ValueUnit(PrefixUnit.None, BaseUnit.Ohm)))
      case Frequency => Some(Placement(Minus3, ValueUnit(Kilo, Hearts)))
      case Capacitor => Some(Placement(Minus3, ValueUnit(Nano, Farad)))
      case _ => Option.None)
    case Range1 => (
      match func
      case Voltage => Some(Placement(Minus2, ValueUnit(PrefixUnit.None, Volt)))
      case MicroAmpere => Some(Placement(Zero, ValueUnit(Micro, Ampere)))
      case MilliAmpere => Some(Placement(Minus1, ValueUnit(Millis, Ampere)))
      case AutoAmpere => Some(Placement(Minus2, ValueUnit(PrefixUnit.None, Ampere)))
      case Ohm => Some(Placement(Minus3, ValueUnit(Kilo, BaseUnit.Ohm)))
      case Frequency => Some(Placement(Minus2, ValueUnit(Kilo, Hearts)))
      case Capacitor => Some(Placement(Minus2, ValueUnit(Nano, Farad)))
      case _ => Option.None)
    case Range2 => (
      match func
      case Voltage => Some(Placement(Minus1, ValueUnit(PrefixUnit.None, Volt)))
      case Ohm => Some(Placement(Minus2, ValueUnit(Kilo, BaseUnit.Ohm)))
      case Frequency => Some(Placement(Minus1, ValueUnit(Kilo, Hearts)))
      case Capacitor => Some(Placement(Minus1, ValueUnit(Nano, Farad)))
      case _ => Option.None)
    case Range3 => (
      match func
      case Voltage => Some(Placement(Zero, ValueUnit(PrefixUnit.None, Volt)))
      case Ohm => Some(Placement(Minus1, ValueUnit(Kilo, BaseUnit.Ohm)))
      case Frequency => Some(Placement(Minus3, ValueUnit(Mega, Hearts)))
      case Capacitor => Some(Placement(Minus3, ValueUnit(Micro, Farad)))
      case _ => Option.None)
    case Range4 => (
      match func
      case Voltage => Some(Placement(Minus1, ValueUnit(Millis, Volt)))
      case Ohm => Some(Placement(Minus3, ValueUnit(Mega, BaseUnit.Ohm)))
      case Frequency => Some(Placement(Minus2, ValueUnit(Mega, Hearts)))
      case Capacitor => Some(Placement(Minus2, ValueUnit(Micro, Farad)))
      case _ => Option.None)
    case Range5 => (
      match func
      case Ohm => Some(Placement(Minus2, ValueUnit(Mega, BaseUnit.Ohm)))
      case Capacitor => Some(Placement(Minus2, ValueUnit(Micro, Farad)))
      case _ => Option.None)
    case Range6 => (
      match func
      case Capacitor => Some(Placement(Minus3, ValueUnit(Millis, Farad)))
      case _ => Option.None)
  }

  /** `Output::get_value`: the reading with its decimal point and unit, or
      nothing for a (range, function) pair without a unit. */
  function GetValue(o: Output): (r: Option<OutputValue>)
    ensures r.Some? <==> HasUnit(o.range, o.func)
    ensures r.Some? ==> BaseUnitOf(o.func) == Some(r.value.valueUnit.baseUnit)
    ensures r.Some? ==> exists radix :: r.value.digits == ToValue(o.digits, radix)
    ensures r.Some? ==> var p := ValueTable(o.range, o.func).value;
      r.value == OutputValue(ToValue(o.digits, p.radix), p.valueUnit)
  {
    match ValueTable(o.range, o.func)
    case None => Option.None
    case Some(p) => Some(OutputValue(ToValue(o.digits, p.radix), p.valueUnit))
  }

  /** Only the range, the function and the digits are read: sign, overflow,
      battery and option flags never change the value. */
  lemma GetValueReadsRangeFunctionDigits(o1: Output, o2: Output)
    requires o1.range == o2.range && o1.func == o2.func && o1.digits == o2.digits
    ensures GetValue(o1) == GetValue(o2)
  {
  }
}
