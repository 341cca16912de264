/**
 * The sample lines quoted beside parse_from_jt9 and parse_from_wsprd in
 * owrx/wsjt.py, run through the parser model. Each fact about a fixed
 * string is its own small lemma so that the solver evaluates one step at a
 * time.
 */
module WsjtParsingExamples {
  import opened Basics
  import opened Text
  import opened WsjtParsing

  const Ft8Rest := "-15 -0.0  508 ~  CQ EA7MJ IM66"
  const Ft8Line := "222100 " + Ft8Rest

  lemma Ft8LineShape()
    ensures RStrip(Ft8Line) == Ft8Line
    ensures !IsDebugLine(Ft8Line)
    ensures |Ft8Line| > 21 && IsJt9Line(Ft8Line) && !IsModeMarker(Ft8Line[19])
  {
    RStripSkips(Ft8Line, |Ft8Line|);
    assert Ft8Line[0] == '2';
  }

  lemma Ft8Columns()
    ensures Slice(Ft8Line, 0, 6) == "222100"
    ensures Slice(Ft8Line, 7, |Ft8Line|) == Ft8Rest
  {
  }

  lemma Ft8RestColumns()
    ensures Slice(Ft8Rest, 14, 15) == "~"
    ensures Slice(Ft8Rest, 17, 53) == "CQ EA7MJ IM66"
    ensures Slice(Ft8Rest, 0, 3) == "-15" && Slice(Ft8Rest, 4, 8) == "-0.0" && Slice(Ft8Rest, 9, 13) == " 508"
  {
  }

  lemma Clock222100()
    ensures ParseClock("222100", true) == Some(80460)
  {
    assert AllDigits("222100");
    assert "222100"[0..2] == "22" && "222100"[2..4] == "21" && "222100"[4..6] == "00";
    assert DigitsValue("2") == 2 && DigitsValue("0") == 0;
    assert DigitsValue("22") == 22 && DigitsValue("21") == 21 && DigitsValue("00") == 0;
  }

  lemma FloatMinus15()
    ensures ParseFloat("-15") == Some(-15.0)
  {
    StripTrimmed("-15");
    assert "-15"[1..] == "15";
    DecimalValueOfDigits("15");
    assert DigitsValue("1") == 1;
    assert DigitsValue("15") == 15;
  }

  lemma FloatMinusZero()
    ensures ParseFloat("-0.0") == Some(0.0)
  {
    StripTrimmed("-0.0");
    assert "-0.0"[1..] == "0.0";
    assert PointIndex("0.0") == 1;
    assert "0.0"[..1] == "0" && "0.0"[2..] == "0";
    assert DigitsValue("0") == 0;
  }

  lemma Strip508()
    ensures Strip(" 508") == "508"
  {
    RStripSkips(" 508", 4);
    LStripSkips(" 508", 1);
  }

  lemma Int508()
    ensures ParseInt(" 508") == Some(508)
  {
    Strip508();
    assert AllDigits("508");
    assert "508"[..2] == "50" && "50"[..1] == "5";
    assert DigitsValue("5") == 5;
    assert DigitsValue("50") == 50;
  }

  lemma Ft8Locator(band: Option<string>)
    ensures ParseLocator("CQ EA7MJ IM66", "FT8", band) == Some(LocationUpdate("EA7MJ", "IM66", "FT8", band))
  {
    var msg := "CQ EA7MJ IM66";
    assert msg[3..8] == "EA7MJ" && msg[9..] == "IM66";
    LocatorMatchComplete(msg, 2, "EA7MJ", "IM66");
  }

  lemma Ft8Jt9Columns(timestamp: int, band: Option<string>)
    ensures Jt9Columns(Ft8Rest, timestamp, band)
         == Written(Jt9Spot(timestamp, -15.0, 0.0, 508, "FT8", "CQ EA7MJ IM66"),
                    Some(LocationUpdate("EA7MJ", "IM66", "FT8", band)))
  {
    Ft8RestColumns();
    StripTrimmed("CQ EA7MJ IM66");
    assert ModeName("~") == "FT8";
    Ft8Locator(band);
    FloatMinus15();
    FloatMinusZero();
    Int508();
    Jt9ColumnsContents(Ft8Rest, timestamp, band);
  }

  lemma Ft8Jt9(dayStart: int, band: Option<string>)
    ensures ParseFromJt9(Ft8Line, dayStart, band)
         == Written(Jt9Spot((dayStart + 80460) * 1000, -15.0, 0.0, 508, "FT8", "CQ EA7MJ IM66"),
                    Some(LocationUpdate("EA7MJ", "IM66", "FT8", band)))
  {
    Ft8LineShape();
    Ft8Columns();
    Clock222100();
    assert Timestamp(dayStart, Slice(Ft8Line, 0, 6), true) == Some((dayStart + 80460) * 1000);
    Ft8Jt9Columns((dayStart + 80460) * 1000, band);
  }

  /**
   * The FT8 sample: seconds in the clock, mode from "~", frequency 508,
   * -15 dB, and a map update for EA7MJ in IM66.
   */
  lemma Ft8Sample(dayStart: int, band: Option<string>)
    ensures Parse(Ft8Line, dayStart, band)
         == Written(Jt9Spot((dayStart + 80460) * 1000, -15.0, 0.0, 508, "FT8", "CQ EA7MJ IM66"),
                    Some(LocationUpdate("EA7MJ", "IM66", "FT8", band)))
  {
    Ft8LineShape();
    Ft8Jt9(dayStart, band);
  }

  const WsprLine := "0052 -29  2.6   0.001486  0  G02CWT IO92 23"
  const LateWsprLine := "2600 -24  0.4   0.001492 -1  G8AXA JO01 33"

  lemma WsprLineShape()
    ensures RStrip(WsprLine) == WsprLine && !IsDebugLine(WsprLine)
    ensures |WsprLine| > 21 && !IsJt9Line(WsprLine)
  {
    assert WsprLine[0] == '0' && WsprLine[19] == '0' && WsprLine[21] == '4';
    RStripSkips(WsprLine, |WsprLine|);
  }

  lemma LateWsprLineShape()
    ensures RStrip(LateWsprLine) == LateWsprLine && !IsDebugLine(LateWsprLine)
    ensures |LateWsprLine| > 21 && !IsJt9Line(LateWsprLine)
  {
    assert LateWsprLine[0] == '2' && LateWsprLine[19] == '0' && LateWsprLine[21] == '4';
    RStripSkips(LateWsprLine, |LateWsprLine|);
  }

  lemma WsprColumns()
    ensures Slice(WsprLine, 0, 4) == "0052" && Slice(WsprLine, 5, 8) == "-29" && Slice(WsprLine, 9, 13) == " 2.6"
  {
  }

  lemma WsprLaterColumns()
    ensures Slice(WsprLine, 14, 24) == "  0.001486" && Slice(WsprLine, 25, 28) == " 0 "
    ensures Slice(WsprLine, 29, |WsprLine|) == "G02CWT IO92 23"
  {
  }

  lemma LateWsprColumns()
    ensures Slice(LateWsprLine, 0, 4) == "2600"
    ensures Slice(LateWsprLine, 29, |LateWsprLine|) == "G8AXA JO01 33"
  {
  }

  lemma Clock0052()
    ensures ParseClock("0052", false) == Some(3120)
  {
    assert AllDigits("0052");
    assert "0052"[0..2] == "00" && "0052"[2..4] == "52";
    assert DigitsValue("0") == 0 && DigitsValue("5") == 5;
    assert DigitsValue("00") == 0 && DigitsValue("52") == 52;
  }

  /** strptime rejects hour 26, whatever the rest of the line says. */
  lemma Clock2600()
    ensures ParseClock("2600", false) == None
  {
    assert "2600"[0..2] == "26";
    assert DigitsValue("2") == 2;
    assert DigitsValue("26") == 26;
  }

  lemma FloatMinus29()
    ensures ParseFloat("-29") == Some(-29.0)
  {
    StripTrimmed("-29");
    assert "-29"[1..] == "29";
    DecimalValueOfDigits("29");
    assert DigitsValue("2") == 2;
    assert DigitsValue("29") == 29;
  }

  lemma Strip2point6()
    ensures Strip(" 2.6") == "2.6"
  {
    RStripSkips(" 2.6", 4);
    LStripSkips(" 2.6", 1);
  }

  lemma Decimal2point6()
    ensures DecimalValue("2.6") == Some(2.6)
  {
    assert PointIndex("2.6") == 1;
    assert "2.6"[..1] == "2" && "2.6"[2..] == "6";
    assert DigitsValue("2") == 2 && DigitsValue("6") == 6;
  }

  lemma Signed2point6()
    ensures SignedDecimal("2.6") == Some(2.6)
  {
    Decimal2point6();
    assert "2.6"[0] == '2';
  }

  lemma Float2point6()
    ensures ParseFloat(" 2.6") == Some(2.6)
  {
    Strip2point6();
    Signed2point6();
  }

  lemma StripFreq()
    ensures Strip("  0.001486") == "0.001486"
  {
    RStripSkips("  0.001486", 10);
    LStripSkips("  0.001486", 2);
  }

  lemma Digits001486()
    ensures AllDigits("001486") && DigitsValue("001486") == 1486
  {
    assert "001486"[..5] == "00148" && "00148"[..4] == "0014" && "0014"[..3] == "001";
    assert "001"[..2] == "00" && "00"[..1] == "0";
    assert DigitsValue("0") == 0;
    assert DigitsValue("00") == 0;
    assert DigitsValue("001") == 1;
    assert DigitsValue("0014") == 14;
    assert DigitsValue("00148") == 148;
  }

  lemma DecimalFreq()
    ensures DecimalValue("0.001486") == Some(0.001486)
  {
    assert PointIndex("0.001486") == 1;
    assert "0.001486"[..1] == "0" && "0.001486"[2..] == "001486";
    assert DigitsValue("0") == 0;
    Digits001486();
    assert Pow10(6) == 1000000;
  }

  lemma SignedFreq()
    ensures SignedDecimal("0.001486") == Some(0.001486)
  {
    DecimalFreq();
    assert "0.001486"[0] == '0';
  }

  lemma FloatFreq()
    ensures ParseFloat("  0.001486") == Some(0.001486)
  {
    StripFreq();
    SignedFreq();
  }

  lemma IntZero()
    ensures ParseInt(" 0 ") == Some(0)
  {
    RStripSkips(" 0 ", 2);
    assert " 0 "[..2] == " 0";
    LStripSkips(" 0", 1);
    assert Strip(" 0 ") == "0";
    assert DigitsValue("0") == 0;
  }

  lemma WsprSplitter(band: Option<string>)
    ensures ParseWsprMessage("G02CWT IO92 23", band) == Some(LocationUpdate("G02CWT", "IO92", "WSPR", band))
  {
    var msg := "G02CWT IO92 23";
    assert msg[..6] == "G02CWT" && msg[7..11] == "IO92";
    WsprMatchComplete(msg, 6, "G02CWT", "IO92");
  }

  lemma LateWsprSplitter(band: Option<string>)
    ensures ParseWsprMessage("G8AXA JO01 33", band) == Some(LocationUpdate("G8AXA", "JO01", "WSPR", band))
  {
    var msg := "G8AXA JO01 33";
    assert msg[..5] == "G8AXA" && msg[6..10] == "JO01";
    WsprMatchComplete(msg, 5, "G8AXA", "JO01");
  }

  lemma WsprClockField(dayStart: int)
    ensures Timestamp(dayStart, Slice(WsprLine, 0, 4), false) == Some((dayStart + 3120) * 1000)
  {
    WsprColumns();
    Clock0052();
  }

  lemma WsprNumberFields()
    ensures ParseFloat(Slice(WsprLine, 5, 8)) == Some(-29.0)
    ensures ParseFloat(Slice(WsprLine, 9, 13)) == Some(2.6)
  {
    WsprColumns();
    FloatMinus29();
    Float2point6();
  }

  lemma WsprFreqDriftFields()
    ensures ParseFloat(Slice(WsprLine, 14, 24)) == Some(0.001486)
    ensures ParseInt(Slice(WsprLine, 25, 28)) == Some(0)
  {
    WsprLaterColumns();
    FloatFreq();
    IntZero();
  }

  lemma WsprPayloadField()
    ensures Strip(Slice(WsprLine, 29, |WsprLine|)) == "G02CWT IO92 23"
  {
    WsprLaterColumns();
    StripTrimmed("G02CWT IO92 23");
  }

  /** parse_from_wsprd on any line whose fields read as those of the 00:52 sample. */
  lemma WsprFromFields(msg: string, dayStart: int, band: Option<string>)
    requires Timestamp(dayStart, Slice(msg, 0, 4), false) == Some((dayStart + 3120) * 1000)
    requires ParseFloat(Slice(msg, 5, 8)) == Some(-29.0) && ParseFloat(Slice(msg, 9, 13)) == Some(2.6)
    requires ParseFloat(Slice(msg, 14, 24)) == Some(0.001486) && ParseInt(Slice(msg, 25, 28)) == Some(0)
    requires Strip(Slice(msg, 29, |msg|)) == "G02CWT IO92 23"
    requires ParseWsprMessage("G02CWT IO92 23", band) == Some(LocationUpdate("G02CWT", "IO92", "WSPR", band))
    ensures ParseFromWsprd(msg, dayStart, band)
         == Written(WsprSpot((dayStart + 3120) * 1000, -29.0, 2.6, 0.001486, 0, "G02CWT IO92 23"),
                    Some(LocationUpdate("G02CWT", "IO92", "WSPR", band)))
  {
  }

  lemma WsprFromWsprd(dayStart: int, band: Option<string>)
    ensures ParseFromWsprd(WsprLine, dayStart, band)
         == Written(WsprSpot((dayStart + 3120) * 1000, -29.0, 2.6, 0.001486, 0, "G02CWT IO92 23"),
                    Some(LocationUpdate("G02CWT", "IO92", "WSPR", band)))
  {
    WsprClockField(dayStart);
    WsprNumberFields();
    WsprFreqDriftFields();
    WsprPayloadField();
    WsprSplitter(band);
    WsprFromFields(WsprLine, dayStart, band);
  }

  /** The wsprd sample at 00:52: a WSPR spot at 0.001486 MHz and a map update for G02CWT in IO92. */
  lemma WsprSample(dayStart: int, band: Option<string>)
    ensures Parse(WsprLine, dayStart, band)
         == Written(WsprSpot((dayStart + 3120) * 1000, -29.0, 2.6, 0.001486, 0, "G02CWT IO92 23"),
                    Some(LocationUpdate("G02CWT", "IO92", "WSPR", band)))
  {
    WsprLineShape();
    WsprFromWsprd(dayStart, band);
  }

  /**
   * The wsprd sample with the clock "2600": the map is updated for G8AXA
   * before the timestamp is read, and then the line is rejected.
   */
  lemma LateWsprSample(dayStart: int, band: Option<string>)
    ensures Parse(LateWsprLine, dayStart, band) == Rejected(Some(LocationUpdate("G8AXA", "JO01", "WSPR", band)))
  {
    LateWsprLineShape();
    LateWsprColumns();
    Clock2600();
    StripTrimmed("G8AXA JO01 33");
    LateWsprSplitter(band);
  }
}
