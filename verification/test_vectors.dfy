/** The readings of the source's unit tests (src/lib.rs, `mod tests`) as
    concrete instances of the model: each frame's decoding, each record's
    value, the three terminator streams, and an over-long line. */
module TestVectors {
  import opened Prelude
  import opened ParseErrors
  import opened DecimalText
  import opened Es51986
  import opened StreamParser

  /** The bytes of an ASCII string, as the tests' `to_u8` helper gives them. */
  function Ascii(s: string): (b: seq<byte>)
    requires forall i | 0 <= i < |s| :: s[i] as int < 256
    ensures |b| == |s|
  {
    seq(|s|, i requires 0 <= i < |s| => s[i] as int as byte)
  }

  /** Celsius, positive, battery fine, no overflow: the status most tests see. */
  const Plain := Status(Celsius, SignPlus, false, false)

  /** The frame "00000;<0:" decodes to the test's record (negative zero volts). */
  lemma VoltageFrame1()
    ensures ParseOutput(Ascii("00000;<0:"))
      == Ok(Output(Range0, Digits([0, 0, 0, 0]), Voltage,
             Status(Celsius, SignMinus, false, false), Option2(true, false, true)))
  {
    assert Ascii("00000;<0:") == [0x30, 0x30, 0x30, 0x30, 0x30, 0x3b, 0x3c, 0x30, 0x3a];
  }

  /** The record of "00000;<0:" reads 0.000 with its unit. */
  lemma VoltageValue1()
    ensures GetValue(Output(Range0, Digits([0, 0, 0, 0]), Voltage,
                     Status(Celsius, SignMinus, false, false), Option2(true, false, true)))
      == Some(OutputValue("0.000", ValueUnit(PrefixUnit.None, Volt)))
  {
    assert ValueTable(Range0, Voltage) == Some(Placement(Minus3, ValueUnit(PrefixUnit.None, Volt)));
    assert ToValue(Digits([0, 0, 0, 0]), Minus3) == "0.000" by {
      assert Render(0) == "0";
    }
  }

  /** The frame "00002;80:" decodes to the test's record (volts, DC). */
  lemma VoltageFrame2()
    ensures ParseOutput(Ascii("00002;80:"))
      == Ok(Output(Range0, Digits([0, 0, 0, 2]), Voltage,
             Plain, Option2(true, false, true)))
  {
    assert Ascii("00002;80:") == [0x30, 0x30, 0x30, 0x30, 0x32, 0x3b, 0x38, 0x30, 0x3a];
  }

  /** The record of "00002;80:" reads 0.002 with its unit. */
  lemma VoltageValue2()
    ensures GetValue(Output(Range0, Digits([0, 0, 0, 2]), Voltage,
                     Plain, Option2(true, false, true)))
      == Some(OutputValue("0.002", ValueUnit(PrefixUnit.None, Volt)))
  {
    assert ValueTable(Range0, Voltage) == Some(Placement(Minus3, ValueUnit(PrefixUnit.None, Volt)));
    assert ToValue(Digits([0, 0, 0, 2]), Minus3) == "0.002" by {
      assert Render(0) == "0";
      assert Render(2) == "2";
    }
  }

  /** The frame "20989;806" decodes to the test's record (volts, AC). */
  lemma VoltageFrame3()
    ensures ParseOutput(Ascii("20989;806"))
      == Ok(Output(Range2, Digits([0, 9, 8, 9]), Voltage,
             Plain, Option2(false, true, true)))
  {
    assert Ascii("20989;806") == [0x32, 0x30, 0x39, 0x38, 0x39, 0x3b, 0x38, 0x30, 0x36];
  }

  /** The record of "20989;806" reads 98.9 with its unit. */
  lemma VoltageValue3()
    ensures GetValue(Output(Range2, Digits([0, 9, 8, 9]), Voltage,
                     Plain, Option2(false, true, true)))
      == Some(OutputValue("98.9", ValueUnit(PrefixUnit.None, Volt)))
  {
    assert ValueTable(Range2, Voltage) == Some(Placement(Minus1, ValueUnit(PrefixUnit.None, Volt)));
    assert ToValue(Digits([0, 9, 8, 9]), Minus1) == "98.9" by {
      assert Render(9) == "9";
      assert Render(98) == "98";
    }
  }

  /** The frame "560003902" decodes to the test's record (megaohms, overflow set). */
  lemma OhmFrame1()
    ensures ParseOutput(Ascii("560003902"))
      == Ok(Output(Range5, Digits([6, 0, 0, 0]), Function.Ohm,
             Status(Celsius, SignPlus, false, true), Option2(false, false, true)))
  {
    assert Ascii("560003902") == [0x35, 0x36, 0x30, 0x30, 0x30, 0x33, 0x39, 0x30, 0x32];
  }

  /** The record of "560003902" reads 60.00 with its unit. */
  lemma OhmValue1()
    ensures GetValue(Output(Range5, Digits([6, 0, 0, 0]), Function.Ohm,
                     Status(Celsius, SignPlus, false, true), Option2(false, false, true)))
      == Some(OutputValue("60.00", ValueUnit(Mega, BaseUnit.Ohm)))
  {
    assert ValueTable(Range5, Function.Ohm) == Some(Placement(Minus2, ValueUnit(Mega, BaseUnit.Ohm)));
    assert ToValue(Digits([6, 0, 0, 0]), Minus2) == "60.00" by {
      assert Render(0) == "0";
      assert Render(60) == "60";
    }
  }

  /** The frame "109853802" decodes to the test's record (kiloohms). */
  lemma OhmFrame2()
    ensures ParseOutput(Ascii("109853802"))
      == Ok(Output(Range1, Digits([0, 9, 8, 5]), Function.Ohm,
             Plain, Option2(false, false, true)))
  {
    assert Ascii("109853802") == [0x31, 0x30, 0x39, 0x38, 0x35, 0x33, 0x38, 0x30, 0x32];
  }

  /** The record of "109853802" reads 0.985 with its unit. */
  lemma OhmValue2()
    ensures GetValue(Output(Range1, Digits([0, 9, 8, 5]), Function.Ohm,
                     Plain, Option2(false, false, true)))
      == Some(OutputValue("0.985", ValueUnit(Kilo, BaseUnit.Ohm)))
  {
    assert ValueTable(Range1, Function.Ohm) == Some(Placement(Minus3, ValueUnit(Kilo, BaseUnit.Ohm)));
    assert ToValue(Digits([0, 9, 8, 5]), Minus3) == "0.985" by {
      assert Render(0) == "0";
      assert Render(5) == "5";
      assert Render(8) == "8";
      assert Render(9) == "9";
    }
  }

  /** The frame "000003802" decodes to the test's record (ohms). */
  lemma OhmFrame3()
    ensures ParseOutput(Ascii("000003802"))
      == Ok(Output(Range0, Digits([0, 0, 0, 0]), Function.Ohm,
             Plain, Option2(false, false, true)))
  {
    assert Ascii("000003802") == [0x30, 0x30, 0x30, 0x30, 0x30, 0x33, 0x38, 0x30, 0x32];
  }

  /** The record of "000003802" reads 0.0 with its unit. */
  lemma OhmValue3()
    ensures GetValue(Output(Range0, Digits([0, 0, 0, 0]), Function.Ohm,
                     Plain, Option2(false, false, true)))
      == Some(OutputValue("0.0", ValueUnit(PrefixUnit.None, BaseUnit.Ohm)))
  {
    assert ValueTable(Range0, Function.Ohm) == Some(Placement(Minus1, ValueUnit(PrefixUnit.None, BaseUnit.Ohm)));
    assert ToValue(Digits([0, 0, 0, 0]), Minus1) == "0.0" by {
      assert Render(0) == "0";
    }
  }

  /** The frame "660006902" decodes to the test's record (millifarads, overflow set). */
  lemma CapacitanceFrame1()
    ensures ParseOutput(Ascii("660006902"))
      == Ok(Output(Range6, Digits([6, 0, 0, 0]), Capacitor,
             Status(Celsius, SignPlus, false, true), Option2(false, false, true)))
  {
    assert Ascii("660006902") == [0x36, 0x36, 0x30, 0x30, 0x30, 0x36, 0x39, 0x30, 0x32];
  }

  /** The record of "660006902" reads 6.000 with its unit. */
  lemma CapacitanceValue1()
    ensures GetValue(Output(Range6, Digits([6, 0, 0, 0]), Capacitor,
                     Status(Celsius, SignPlus, false, true), Option2(false, false, true)))
      == Some(OutputValue("6.000", ValueUnit(Millis, Farad)))
  {
    assert ValueTable(Range6, Capacitor) == Some(Placement(Minus3, ValueUnit(Millis, Farad)));
    assert ToValue(Digits([6, 0, 0, 0]), Minus3) == "6.000" by {
      assert Render(0) == "0";
      assert Render(6) == "6";
    }
  }

  /** The frame "211656802" decodes to the test's record (nanofarads). */
  lemma CapacitanceFrame2()
    ensures ParseOutput(Ascii("211656802"))
      == Ok(Output(Range2, Digits([1, 1, 6, 5]), Capacitor,
             Plain, Option2(false, false, true)))
  {
    assert Ascii("211656802") == [0x32, 0x31, 0x31, 0x36, 0x35, 0x36, 0x38, 0x30, 0x32];
  }

  /** The record of "211656802" reads 116.5 with its unit. */
  lemma CapacitanceValue2()
    ensures GetValue(Output(Range2, Digits([1, 1, 6, 5]), Capacitor,
                     Plain, Option2(false, false, true)))
      == Some(OutputValue("116.5", ValueUnit(Nano, Farad)))
  {
    assert ValueTable(Range2, Capacitor) == Some(Placement(Minus1, ValueUnit(Nano, Farad)));
    assert ToValue(Digits([1, 1, 6, 5]), Minus1) == "116.5" by {
      assert Render(5) == "5";
      assert Render(116) == "116";
    }
  }

  /** The frame "000226802" decodes to the test's record (nanofarads). */
  lemma CapacitanceFrame3()
    ensures ParseOutput(Ascii("000226802"))
      == Ok(Output(Range0, Digits([0, 0, 2, 2]), Capacitor,
             Plain, Option2(false, false, true)))
  {
    assert Ascii("000226802") == [0x30, 0x30, 0x30, 0x32, 0x32, 0x36, 0x38, 0x30, 0x32];
  }

  /** The record of "000226802" reads 0.022 with its unit. */
  lemma CapacitanceValue3()
    ensures GetValue(Output(Range0, Digits([0, 0, 2, 2]), Capacitor,
                     Plain, Option2(false, false, true)))
      == Some(OutputValue("0.022", ValueUnit(Nano, Farad)))
  {
    assert ValueTable(Range0, Capacitor) == Some(Placement(Minus3, ValueUnit(Nano, Farad)));
    assert ToValue(Digits([0, 0, 2, 2]), Minus3) == "0.022" by {
      assert Render(0) == "0";
      assert Render(2) == "2";
    }
  }

  /** The frame "000002802" decodes to the test's record (kilohertz). */
  lemma FrequencyFrame1()
    ensures ParseOutput(Ascii("000002802"))
      == Ok(Output(Range0, Digits([0, 0, 0, 0]), Frequency,
             Plain, Option2(false, false, true)))
  {
    assert Ascii("000002802") == [0x30, 0x30, 0x30, 0x30, 0x30, 0x32, 0x38, 0x30, 0x32];
  }

  /** The record of "000002802" reads 0.000 with its unit. */
  lemma FrequencyValue1()
    ensures GetValue(Output(Range0, Digits([0, 0, 0, 0]), Frequency,
                     Plain, Option2(false, false, true)))
      == Some(OutputValue("0.000", ValueUnit(Kilo, Hearts)))
  {
    assert ValueTable(Range0, Frequency) == Some(Placement(Minus3, ValueUnit(Kilo, Hearts)));
    assert ToValue(Digits([0, 0, 0, 0]), Minus3) == "0.000" by {
      assert Render(0) == "0";
    }
  }

  /** The frame "210012802" decodes to the test's record (kilohertz). */
  lemma FrequencyFrame2()
    ensures ParseOutput(Ascii("210012802"))
      == Ok(Output(Range2, Digits([1, 0, 0, 1]), Frequency,
             Plain, Option2(false, false, true)))
  {
    assert Ascii("210012802") == [0x32, 0x31, 0x30, 0x30, 0x31, 0x32, 0x38, 0x30, 0x32];
  }

  /** The record of "210012802" reads 100.1 with its unit. */
  lemma FrequencyValue2()
    ensures GetValue(Output(Range2, Digits([1, 0, 0, 1]), Frequency,
                     Plain, Option2(false, false, true)))
      == Some(OutputValue("100.1", ValueUnit(Kilo, Hearts)))
  {
    assert ValueTable(Range2, Frequency) == Some(Placement(Minus1, ValueUnit(Kilo, Hearts)));
    assert ToValue(Digits([1, 0, 0, 1]), Minus1) == "100.1" by {
      assert Render(1) == "1";
      assert Render(100) == "100";
    }
  }

  /** The frame "00136>800" decodes to the test's record (luminance). */
  lemma LuxFrame()
    ensures ParseOutput(Ascii("00136>800"))
      == Ok(Output(Range0, Digits([0, 1, 3, 6]), Adp0,
             Plain, Option2(false, false, false)))
  {
    assert Ascii("00136>800") == [0x30, 0x30, 0x31, 0x33, 0x36, 0x3e, 0x38, 0x30, 0x30];
  }

  /** The record of "00136>800" has no value, and its digits render as "136" without a point. */
  lemma LuxValue()
    ensures ToValue(Digits([0, 1, 3, 6]), Zero) == "136"
    ensures GetValue(Output(Range0, Digits([0, 1, 3, 6]), Adp0,
                     Plain, Option2(false, false, false)))
      == Option.None
  {
    assert Render(136) == "136";
    assert ValueTable(Range0, Adp0) == Option.None;
  }

  /** The frame "00676<800" decodes to the test's record (sound level). */
  lemma SoundLevelFrame()
    ensures ParseOutput(Ascii("00676<800"))
      == Ok(Output(Range0, Digits([0, 6, 7, 6]), Adp1,
             Plain, Option2(false, false, false)))
  {
    assert Ascii("00676<800") == [0x30, 0x30, 0x36, 0x37, 0x36, 0x3c, 0x38, 0x30, 0x30];
  }

  /** The record of "00676<800" has no value, and its digits render as "676" without a point. */
  lemma SoundLevelValue()
    ensures ToValue(Digits([0, 6, 7, 6]), Zero) == "676"
    ensures GetValue(Output(Range0, Digits([0, 6, 7, 6]), Adp1,
                     Plain, Option2(false, false, false)))
      == Option.None
  {
    assert Render(676) == "676";
    assert ValueTable(Range0, Adp1) == Option.None;
  }

  /** The frame "060004900" decodes to the test's record (temperature, overflow set). */
  lemma TemperatureFrame1()
    ensures ParseOutput(Ascii("060004900"))
      == Ok(Output(Range0, Digits([6, 0, 0, 0]), Temperature,
             Status(Celsius, SignPlus, false, true), Option2(false, false, false)))
  {
    assert Ascii("060004900") == [0x30, 0x36, 0x30, 0x30, 0x30, 0x34, 0x39, 0x30, 0x30];
  }

  /** The record of "060004900" has no value, and its digits render as "6000" without a point. */
  lemma TemperatureValue1()
    ensures ToValue(Digits([6, 0, 0, 0]), Zero) == "6000"
    ensures GetValue(Output(Range0, Digits([6, 0, 0, 0]), Temperature,
                     Status(Celsius, SignPlus, false, true), Option2(false, false, false)))
      == Option.None
  {
    assert Render(6000) == "6000";
    assert ValueTable(Range0, Temperature) == Option.None;
  }

  /** The frame "000304800" decodes to the test's record (temperature). */
  lemma TemperatureFrame2()
    ensures ParseOutput(Ascii("000304800"))
      == Ok(Output(Range0, Digits([0, 0, 3, 0]), Temperature,
             Plain, Option2(false, false, false)))
  {
    assert Ascii("000304800") == [0x30, 0x30, 0x30, 0x33, 0x30, 0x34, 0x38, 0x30, 0x30];
  }

  /** The record of "000304800" has no value, and its digits render as "30" without a point. */
  lemma TemperatureValue2()
    ensures ToValue(Digits([0, 0, 3, 0]), Zero) == "30"
    ensures GetValue(Output(Range0, Digits([0, 0, 3, 0]), Temperature,
                     Plain, Option2(false, false, false)))
      == Option.None
  {
    assert Render(30) == "30";
    assert ValueTable(Range0, Temperature) == Option.None;
  }

  /** The frame "00002?<0:" decodes to the test's record (negative milliamperes). */
  lemma MilliAmpereFrame()
    ensures ParseOutput(Ascii("00002?<0:"))
      == Ok(Output(Range0, Digits([0, 0, 0, 2]), MilliAmpere,
             Status(Celsius, SignMinus, false, false), Option2(true, false, true)))
  {
    assert Ascii("00002?<0:") == [0x30, 0x30, 0x30, 0x30, 0x32, 0x3f, 0x3c, 0x30, 0x3a];
  }

  /** The record of "00002?<0:" reads 0.02 with its unit, and its digits render as "2" without a point. */
  lemma MilliAmpereValue()
    ensures ToValue(Digits([0, 0, 0, 2]), Zero) == "2"
    ensures GetValue(Output(Range0, Digits([0, 0, 0, 2]), MilliAmpere,
                     Status(Celsius, SignMinus, false, false), Option2(true, false, true)))
      == Some(OutputValue("0.02", ValueUnit(Millis, Ampere)))
  {
    assert Render(2) == "2";
    assert ValueTable(Range0, MilliAmpere) == Some(Placement(Minus2, ValueUnit(Millis, Ampere)));
    assert ToValue(Digits([0, 0, 0, 2]), Minus2) == "0.02" by {
      assert Render(0) == "0";
      assert Render(2) == "2";
    }
  }

  /** The frame "000019808" decodes to the test's record (amperes, manual range). */
  lemma AmpereFrame()
    ensures ParseOutput(Ascii("000019808"))
      == Ok(Output(Range0, Digits([0, 0, 0, 1]), ManualAmpere,
             Plain, Option2(true, false, false)))
  {
    assert Ascii("000019808") == [0x30, 0x30, 0x30, 0x30, 0x31, 0x39, 0x38, 0x30, 0x38];
  }

  /** The record of "000019808" reads 0.001 with its unit, and its digits render as "1" without a point. */
  lemma AmpereValue()
    ensures ToValue(Digits([0, 0, 0, 1]), Zero) == "1"
    ensures GetValue(Output(Range0, Digits([0, 0, 0, 1]), ManualAmpere,
                     Plain, Option2(true, false, false)))
      == Some(OutputValue("0.001", ValueUnit(PrefixUnit.None, Ampere)))
  {
    assert Render(1) == "1";
    assert ValueTable(Range0, ManualAmpere) == Some(Placement(Minus3, ValueUnit(PrefixUnit.None, Ampere)));
    assert ToValue(Digits([0, 0, 0, 1]), Minus3) == "0.001" by {
      assert Render(0) == "0";
      assert Render(1) == "1";
    }
  }

  /** The ampere frame terminated by a bare CR, twice: two identical records. */
  lemma OnlyCr()
    ensures var r := Ok(Output(Range0, Digits([0, 0, 0, 1]), ManualAmpere, Plain, Option2(true, false, false)));
      var p := Ascii("000019808");
      Run(Snapshot(Idle, []), p + [CR] + p + [CR]).results == [r, r]
  {
    var p := Ascii("000019808");
    assert forall i | 0 <= i < |p| :: IsData(p[i]) by {
      assert p == [0x30, 0x30, 0x30, 0x30, 0x31, 0x39, 0x38, 0x30, 0x38];
    }
    AmpereFrame();
    TerminatorEquivalence(p, [CR]);
  }

  /** The ampere frame terminated by CR LF, twice: two identical records. */
  lemma CrLf()
    ensures var r := Ok(Output(Range0, Digits([0, 0, 0, 1]), ManualAmpere, Plain, Option2(true, false, false)));
      var p := Ascii("000019808");
      Run(Snapshot(Idle, []), p + [CR, LF] + p + [CR, LF]).results == [r, r]
  {
    var p := Ascii("000019808");
    assert forall i | 0 <= i < |p| :: IsData(p[i]) by {
      assert p == [0x30, 0x30, 0x30, 0x30, 0x31, 0x39, 0x38, 0x30, 0x38];
    }
    AmpereFrame();
    TerminatorEquivalence(p, [CR, LF]);
  }

  /** The ampere frame terminated by a bare LF, twice: two identical records. */
  lemma OnlyLf()
    ensures var r := Ok(Output(Range0, Digits([0, 0, 0, 1]), ManualAmpere, Plain, Option2(true, false, false)));
      var p := Ascii("000019808");
      Run(Snapshot(Idle, []), p + [LF] + p + [LF]).results == [r, r]
  {
    var p := Ascii("000019808");
    assert forall i | 0 <= i < |p| :: IsData(p[i]) by {
      assert p == [0x30, 0x30, 0x30, 0x30, 0x31, 0x39, 0x38, 0x30, 0x38];
    }
    AmpereFrame();
    TerminatorEquivalence(p, [LF]);
  }

  /** Nineteen data bytes before a terminator (the line "0123456789ABCDEFGHI"
      CR LF, written out as bytes): each of the ten overflowing bytes reports
      `LengthError{len: 10}`, and the CR then decodes the last nine bytes,
      whose range byte 'A' is invalid. */
  lemma OverlongLine()
    ensures Run(Snapshot(Idle, []), [0x30, 0x31, 0x32, 0x33, 0x34, 0x35, 0x36, 0x37, 0x38, 0x39,
                                     0x41, 0x42, 0x43, 0x44, 0x45, 0x46, 0x47, 0x48, 0x49, CR, LF]).results
      == Overflows(10) + [Err(InvalidRange(0x41))]
  {
    var d: seq<byte> := [0x30, 0x31, 0x32, 0x33, 0x34, 0x35, 0x36, 0x37, 0x38, 0x39,
                         0x41, 0x42, 0x43, 0x44, 0x45, 0x46, 0x47, 0x48, 0x49];
    assert d + [CR, LF] == [0x30, 0x31, 0x32, 0x33, 0x34, 0x35, 0x36, 0x37, 0x38, 0x39,
                            0x41, 0x42, 0x43, 0x44, 0x45, 0x46, 0x47, 0x48, 0x49, CR, LF];
    RunOverlongLine(d, [CR, LF]);
    assert ParseOutput(d[10..]) == Err(InvalidRange(0x41)) by {
      assert d[10..][0] == 0x41;
    }
  }
}
