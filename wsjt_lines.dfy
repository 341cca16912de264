/**
 * The line formats the parser in owrx/wsjt.py reads, written out as the
 * decoders print them, and the round trips: a line written from a spot's
 * values parses back to a spot with those values. The jt9 format is
 * "%s %3d %4.1f %4d %c  %s" (clock, dB, time offset, audio frequency, mode
 * marker, message); the wsprd format is "%s %3d %4.1f %10.6f %2d  %s"
 * (clock, dB, time offset, frequency in MHz, drift, message).
 */
module WsjtLines {
  import opened Basics
  import opened Text
  import opened WsjtParsing

  /** A number's column: the text right-aligned in the column's width. */
  function IntField(n: int, width: nat): string {
    PadLeft(IntText(n), width)
  }

  /** A fixed-point column with one or more decimals. */
  function FixedField(v: int, places: nat, width: nat): string
    requires places >= 1
  {
    PadLeft(FixedText(v, places), width)
  }

  /** int() and float() read an integer column back as the integer. */
  lemma IntFieldValue(n: int, width: nat)
    ensures ParseInt(IntField(n, width)).Some? && ParseInt(IntField(n, width)).value == n
    ensures ParseFloat(IntField(n, width)).Some? && ParseFloat(IntField(n, width)).value == n as real
  {
    IntTextTrimmed(n);
    ParsePadLeft(IntText(n), width);
    ParseIntText(n);
    ParseFloatIntText(n);
  }

  /** float() reads a fixed-point column back as the value written. */
  lemma FixedFieldValue(v: int, places: nat, width: nat)
    requires places >= 1
    ensures ParseFloat(FixedField(v, places, width)).Some? && ParseFloat(FixedField(v, places, width)).value == Scaled(v, places)
  {
    FixedTextShape(v, places);
    ParsePadLeft(FixedText(v, places), width);
    ParseFloatFixedText(v, places);
  }

  /** A number's column holds blanks and number characters only, so no mode marker. */
  lemma FieldHasNoMarker(t: string, width: nat, i: nat)
    requires NumberChars(t) && i < |PadLeft(t, width)|
    ensures !IsModeMarker(PadLeft(t, width)[i])
  {
    var s := PadLeft(t, width);
    if i >= |s| - |t| {
      assert s[i] == s[|s| - |t|..][i - (|s| - |t|)];
    }
  }

  /** An integer column ends with a digit. */
  lemma IntFieldEndsWithDigit(n: int, width: nat)
    ensures var s := IntField(n, width); s != [] && IsDigit(s[|s| - 1])
  {
    var t := IntText(n);
    var s := PadLeft(t, width);
    IntTextTrimmed(n);
    assert s[|s| - 1] == s[|s| - |t|..][|t| - 1];
  }

  // jt9

  /** The jt9 columns after the clock and its blank. */
  function Jt9Rest(db: int, dt: int, freq: int, marker: char, message: string): string {
    IntField(db, 3) + " " + FixedField(dt, 1, 4) + " " + IntField(freq, 4) + " " + [marker] + "  " + message
  }

  /** A whole jt9 line; the clock has seconds or not. */
  function Jt9Line(h: nat, m: nat, sec: nat, withSeconds: bool,
                   db: int, dt: int, freq: int, marker: char, message: string): string
    requires h < 24 && m < 60 && sec < 60
  {
    ClockText(h, m, sec, withSeconds) + " " + Jt9Rest(db, dt, freq, marker, message)
  }

  /**
   * The values fit their columns (dB -99..999, offset -9.9..99.9, frequency
   * -999..9999) and the message fits the 36 characters the parser keeps and
   * has no blanks at its ends.
   */
  predicate Jt9Fits(db: int, dt: int, freq: int, message: string) {
    && |IntText(db)| <= 3 && |FixedText(dt, 1)| <= 4 && |IntText(freq)| <= 4
    && |message| <= 36 && Trimmed(message)
  }

  /** Where each piece of the columns lands, for pieces of the column widths. */
  lemma Jt9RestSlices(a: string, b: string, c: string, marker: char, message: string)
    requires |a| == 3 && |b| == 4 && |c| == 4 && |message| <= 36
    ensures var rest := a + " " + b + " " + c + " " + [marker] + "  " + message;
      && |rest| == 17 + |message|
      && Slice(rest, 0, 3) == a && Slice(rest, 4, 8) == b && Slice(rest, 9, 13) == c
      && Slice(rest, 14, 15) == [marker]
      && Slice(rest, 17, 53) == message
  {
    var rest := a + " " + b + " " + c + " " + [marker] + "  " + message;
    assert rest[0..3] == a && rest[4..8] == b && rest[9..13] == c;
    assert rest[14..15] == [marker] && rest[17..] == message;
  }

  /** The spot a jt9 line written from these values stands for. */
  function Jt9Expected(timestamp: int, db: int, dt: int, freq: int, marker: char, message: string,
                       band: Option<string>): LineOutcome
  {
    var mode := ModeName([marker]);
    Written(Jt9Spot(timestamp, db as real, Scaled(dt, 1), freq, mode, message), ParseLocator(message, mode, band))
  }

  /** The columns of any pieces of the column widths are read as float(), int() and strip() read the pieces. */
  lemma Jt9ColumnsOfPieces(a: string, b: string, c: string, marker: char, message: string,
                           dbv: real, dtv: real, fv: int, timestamp: int, band: Option<string>)
    requires |a| == 3 && |b| == 4 && |c| == 4 && |message| <= 36 && Trimmed(message)
    requires ParseFloat(a) == Some(dbv) && ParseFloat(b) == Some(dtv) && ParseInt(c) == Some(fv)
    ensures Jt9Columns(a + " " + b + " " + c + " " + [marker] + "  " + message, timestamp, band)
         == Written(Jt9Spot(timestamp, dbv, dtv, fv, ModeName([marker]), message),
                    ParseLocator(message, ModeName([marker]), band))
  {
    Jt9RestSlices(a, b, c, marker, message);
    StripTrimmed(message);
  }

  /** The columns read back the values they were written from. */
  lemma Jt9ColumnsRoundTrip(db: int, dt: int, freq: int, marker: char, message: string,
                            timestamp: int, band: Option<string>)
    requires Jt9Fits(db, dt, freq, message)
    ensures Jt9Columns(Jt9Rest(db, dt, freq, marker, message), timestamp, band)
         == Jt9Expected(timestamp, db, dt, freq, marker, message, band)
  {
    IntFieldValue(db, 3);
    FixedFieldValue(dt, 1, 4);
    IntFieldValue(freq, 4);
    Jt9ColumnsOfPieces(IntField(db, 3), FixedField(dt, 1, 4), IntField(freq, 4), marker, message,
                       db as real, Scaled(dt, 1), freq, timestamp, band);
  }

  /** The characters a jt9 line's probes and rstrip look at, for pieces of the column widths. */
  lemma Jt9RestIndexes(a: string, b: string, c: string, marker: char, message: string)
    requires |a| == 3 && |b| == 4 && |c| == 4
    ensures var rest := a + " " + b + " " + c + " " + [marker] + "  " + message;
      && |rest| == 17 + |message| && rest[12] == c[3] && rest[14] == marker
      && (message != [] ==> rest[|rest| - 1] == message[|message| - 1])
  {
  }

  /** The written columns: 17 characters and the message, the marker at 14 and a digit at 12. */
  lemma Jt9RestShape(db: int, dt: int, freq: int, marker: char, message: string)
    requires Jt9Fits(db, dt, freq, message)
    ensures var rest := Jt9Rest(db, dt, freq, marker, message);
      && |rest| == 17 + |message| && rest[14] == marker && IsDigit(rest[12])
      && (message != [] ==> rest[|rest| - 1] == message[|message| - 1])
  {
    IntFieldEndsWithDigit(freq, 4);
    Jt9RestIndexes(IntField(db, 3), FixedField(dt, 1, 4), IntField(freq, 4), marker, message);
  }

  /** Where the clock and the columns land in a jt9 line. */
  lemma Jt9LineSlices(clock: string, rest: string)
    requires (|clock| == 4 || |clock| == 6) && |rest| > 14
    ensures var line := clock + " " + rest;
      && |line| == |clock| + 1 + |rest|
      && Slice(line, 0, |clock|) == clock && Slice(line, |clock| + 1, |line|) == rest
      && line[0] == clock[0] && line[|line| - 1] == rest[|rest| - 1]
      && line[|clock| + 13] == rest[12] && line[|clock| + 15] == rest[14]
  {
    var line := clock + " " + rest;
    assert line[..|clock|] == clock && line[|clock| + 1..] == rest;
  }

  /**
   * The clock width parse_from_jt9 chooses is the written one: after an HHMM
   * clock index 19 holds the marker, after an HHMMSS clock it holds column
   * 12 of the rest, a digit and so not a marker.
   */
  lemma Jt9ClockWidthOfPieces(clock: string, rest: string)
    requires (|clock| == 4 || |clock| == 6) && |rest| > 14
    requires IsModeMarker(rest[14]) && IsDigit(rest[12])
    ensures Jt9ClockWidth(clock + " " + rest) == |clock|
  {
    Jt9LineSlices(clock, rest);
  }

  /** The clock text strftime writes is read back by parse_timestamp as that time of today. */
  lemma ClockTextTimestamp(dayStart: int, h: nat, m: nat, sec: nat, withSeconds: bool)
    requires h < 24 && m < 60 && sec < 60
    ensures ParseClock(ClockText(h, m, sec, withSeconds), withSeconds).Some?
    ensures Timestamp(dayStart, ClockText(h, m, sec, withSeconds), withSeconds).Some?
    ensures Timestamp(dayStart, ClockText(h, m, sec, withSeconds), withSeconds).value
         == (dayStart + ClockSeconds(h, m, sec, withSeconds)) * 1000
  {
    ParseClockText(h, m, sec, withSeconds);
    TimestampOfClock(dayStart, ClockText(h, m, sec, withSeconds), withSeconds);
  }

  /** A line whose clock reads as this time and whose columns after the clock are rest: the columns, stamped. */
  lemma ParseFromJt9OfLine(line: string, timestamp: int, rest: string, dayStart: int, band: Option<string>)
    requires Jt9Timestamp(line, dayStart).Some? && Jt9Timestamp(line, dayStart).value == timestamp
    requires Slice(line, Jt9ClockWidth(line) + 1, |line|) == rest
    ensures ParseFromJt9(line, dayStart, band) == Jt9Columns(rest, timestamp, band)
  {
    Jt9ClockThenColumns(line, dayStart, band);
  }

  /** parse_from_jt9 on a clock, a blank and columns that put the marker at 14 and a digit at 12: the clock's time, then the columns. */
  lemma ParseFromJt9OfPieces(clock: string, rest: string, withSeconds: bool, timestamp: int,
                             dayStart: int, band: Option<string>)
    requires |clock| == (if withSeconds then 6 else 4)
    requires Timestamp(dayStart, clock, withSeconds).Some? && Timestamp(dayStart, clock, withSeconds).value == timestamp
    requires |rest| > 14 && IsModeMarker(rest[14]) && IsDigit(rest[12])
    ensures ParseFromJt9(clock + " " + rest, dayStart, band) == Jt9Columns(rest, timestamp, band)
  {
    var line := clock + " " + rest;
    Jt9LineSlices(clock, rest);
    Jt9ClockWidthOfPieces(clock, rest);
    assert Jt9Timestamp(line, dayStart).Some? && Jt9Timestamp(line, dayStart).value == timestamp;
    ParseFromJt9OfLine(line, timestamp, rest, dayStart, band);
  }

  /** parse_from_jt9 on a written clock, a blank and written columns: the spot the columns were written from, at the clock's time. */
  lemma ParseFromJt9OfClock(h: nat, m: nat, sec: nat, withSeconds: bool,
                            db: int, dt: int, freq: int, marker: char, message: string,
                            dayStart: int, band: Option<string>)
    requires h < 24 && m < 60 && sec < 60
    requires Jt9Fits(db, dt, freq, message) && IsModeMarker(marker)
    ensures ParseFromJt9(ClockText(h, m, sec, withSeconds) + " " + Jt9Rest(db, dt, freq, marker, message), dayStart, band)
         == Jt9Expected((dayStart + ClockSeconds(h, m, sec, withSeconds)) * 1000, db, dt, freq, marker, message, band)
  {
    var timestamp := (dayStart + ClockSeconds(h, m, sec, withSeconds)) * 1000;
    ClockTextTimestamp(dayStart, h, m, sec, withSeconds);
    Jt9RestShape(db, dt, freq, marker, message);
    ParseFromJt9OfPieces(ClockText(h, m, sec, withSeconds), Jt9Rest(db, dt, freq, marker, message), withSeconds, timestamp, dayStart, band);
    Jt9ColumnsRoundTrip(db, dt, freq, marker, message, timestamp, band);
  }

  /**
   * parse_from_jt9 reads a jt9 line back: a mode marker after an HHMM clock
   * sits at index 19; after an HHMMSS clock index 19 holds the last digit of
   * the frequency, so the clock width is chosen right either way.
   */
  lemma ParseFromJt9RoundTrip(h: nat, m: nat, sec: nat, withSeconds: bool,
                              db: int, dt: int, freq: int, marker: char, message: string,
                              dayStart: int, band: Option<string>)
    requires h < 24 && m < 60 && sec < 60
    requires Jt9Fits(db, dt, freq, message) && IsModeMarker(marker)
    ensures ParseFromJt9(Jt9Line(h, m, sec, withSeconds, db, dt, freq, marker, message), dayStart, band)
         == Jt9Expected((dayStart + ClockSeconds(h, m, sec, withSeconds)) * 1000,
                        db, dt, freq, marker, message, band)
  {
    ParseFromJt9OfClock(h, m, sec, withSeconds, db, dt, freq, marker, message, dayStart, band);
  }

  /** A line ending in text without trailing blanks is left whole by rstrip. */
  lemma RStripKeeps(line: string)
    requires line != [] && !IsSpace(line[|line| - 1])
    ensures RStrip(line) == line
  {
    RStripSkips(line, |line|);
    assert line[..|line|] == line;
  }

  /** A line starting with a digit is not one of the decoders' debug lines. */
  lemma NotDebugLine(line: string)
    requires line != [] && IsDigit(line[0])
    ensures !IsDebugLine(line)
  {
    assert "<DecodeFinished>"[0] == '<' && " EOF on input file"[0] == ' ';
  }

  /** parse reads a whole jt9 line, with a nonempty message, back to the spot it was written from. */
  lemma ParseJt9RoundTrip(h: nat, m: nat, sec: nat, withSeconds: bool,
                          db: int, dt: int, freq: int, marker: char, message: string,
                          dayStart: int, band: Option<string>)
    requires h < 24 && m < 60 && sec < 60
    requires Jt9Fits(db, dt, freq, message) && IsModeMarker(marker) && message != []
    ensures Parse(Jt9Line(h, m, sec, withSeconds, db, dt, freq, marker, message), dayStart, band)
         == Jt9Expected((dayStart + ClockSeconds(h, m, sec, withSeconds)) * 1000,
                        db, dt, freq, marker, message, band)
  {
    var clock := ClockText(h, m, sec, withSeconds);
    var rest := Jt9Rest(db, dt, freq, marker, message);
    var line := clock + " " + rest;
    Jt9RestShape(db, dt, freq, marker, message);
    Jt9LineSlices(clock, rest);
    RStripKeeps(line);
    NotDebugLine(line);
    assert IsJt9Line(line);
    ParseFromJt9RoundTrip(h, m, sec, withSeconds, db, dt, freq, marker, message, dayStart, band);
  }

  // wsprd

  /** A whole wsprd line: HHMM clock, dB, time offset, frequency in MHz with six decimals, drift, message. */
  function WsprdLine(h: nat, m: nat, db: int, dt: int, freq: int, drift: int, message: string): string
    requires h < 24 && m < 60
  {
    ClockText(h, m, 0, false) + " " + IntField(db, 3) + " " + FixedField(dt, 1, 4) + " "
      + FixedField(freq, 6, 10) + " " + IntField(drift, 2) + "  " + message
  }

  /** The values fit their columns and the message has no blanks at its ends. */
  predicate WsprdFits(db: int, dt: int, freq: int, drift: int, message: string) {
    && |IntText(db)| <= 3 && |FixedText(dt, 1)| <= 4 && |FixedText(freq, 6)| <= 10 && |IntText(drift)| <= 2
    && message != [] && Trimmed(message)
  }

  /** Where each piece of a wsprd line lands, for pieces of the column widths. */
  lemma WsprdSlices(clock: string, a: string, b: string, c: string, d: string, message: string)
    requires |clock| == 4 && |a| == 3 && |b| == 4 && |c| == 10 && |d| == 2
    ensures var line := clock + " " + a + " " + b + " " + c + " " + d + "  " + message;
      && Slice(line, 0, 4) == clock && Slice(line, 5, 8) == a && Slice(line, 9, 13) == b
      && Slice(line, 14, 24) == c && Slice(line, 25, 28) == d + " " && Slice(line, 29, |line|) == message
  {
    var line := clock + " " + a + " " + b + " " + c + " " + d + "  " + message;
    assert line[0..4] == clock && line[5..8] == a && line[9..13] == b;
    assert line[14..24] == c && line[25..28] == d + " " && line[29..] == message;
  }

  /** The characters of a wsprd line that parse looks at to tell the two layouts apart. */
  lemma WsprdIndexes(clock: string, a: string, b: string, c: string, d: string, message: string)
    requires |clock| == 4 && |a| == 3 && |b| == 4 && |c| == 10 && |d| == 2
    ensures var line := clock + " " + a + " " + b + " " + c + " " + d + "  " + message;
      && |line| == 29 + |message| && line[0] == clock[0] && line[19] == c[5] && line[21] == c[7]
      && (message != [] ==> line[|line| - 1] == message[|message| - 1])
  {
  }

  /** The spot a wsprd line written from these values stands for. */
  function WsprdExpected(timestamp: int, db: int, dt: int, freq: int, drift: int, message: string,
                         band: Option<string>): LineOutcome
  {
    Written(WsprSpot(timestamp, db as real, Scaled(dt, 1), Scaled(freq, 6), drift, message), ParseWsprMessage(message, band))
  }

  /** parse_from_wsprd on a line whose columns convert to these values. */
  lemma ParseFromWsprdOfColumns(line: string, timestamp: int, dbv: real, dtv: real, fv: real, driftv: int,
                                message: string, dayStart: int, band: Option<string>)
    requires Timestamp(dayStart, Slice(line, 0, 4), false).Some? && Timestamp(dayStart, Slice(line, 0, 4), false).value == timestamp
    requires ParseClock(Slice(line, 0, 4), false).Some?
    requires ParseFloat(Slice(line, 5, 8)).Some? && ParseFloat(Slice(line, 5, 8)).value == dbv
    requires ParseFloat(Slice(line, 9, 13)).Some? && ParseFloat(Slice(line, 9, 13)).value == dtv
    requires ParseFloat(Slice(line, 14, 24)).Some? && ParseFloat(Slice(line, 14, 24)).value == fv
    requires ParseInt(Slice(line, 25, 28)).Some? && ParseInt(Slice(line, 25, 28)).value == driftv
    requires Strip(Slice(line, 29, |line|)) == message
    ensures ParseFromWsprd(line, dayStart, band)
         == Written(WsprSpot(timestamp, dbv, dtv, fv, driftv, message), ParseWsprMessage(message, band))
  {
    ParseFromWsprdContents(line, dayStart, band);
  }

  /** parse_from_wsprd on a line cut into pieces that convert to these values. */
  lemma ParseFromWsprdOfSlices(line: string, clock: string, a: string, b: string, c: string, d: string, message: string,
                               timestamp: int, dbv: real, dtv: real, fv: real, driftv: int, dayStart: int, band: Option<string>)
    requires Slice(line, 0, 4) == clock && Slice(line, 5, 8) == a && Slice(line, 9, 13) == b
    requires Slice(line, 14, 24) == c && Slice(line, 25, 28) == d + " " && Slice(line, 29, |line|) == message
    requires message != [] && Trimmed(message)
    requires ParseClock(clock, false).Some?
    requires Timestamp(dayStart, clock, false).Some? && Timestamp(dayStart, clock, false).value == timestamp
    requires ParseFloat(a).Some? && ParseFloat(a).value == dbv && ParseFloat(b).Some? && ParseFloat(b).value == dtv
    requires ParseFloat(c).Some? && ParseFloat(c).value == fv && ParseInt(d).Some? && ParseInt(d).value == driftv
    ensures ParseFromWsprd(line, dayStart, band)
         == Written(WsprSpot(timestamp, dbv, dtv, fv, driftv, message), ParseWsprMessage(message, band))
  {
    StripTrimmed(message);
    StripBlankLast(d);
    ParseFromWsprdOfColumns(line, timestamp, dbv, dtv, fv, driftv, message, dayStart, band);
  }

  /** parse_from_wsprd on pieces of the column widths reads them as strptime, float(), int() and strip() read the pieces. */
  lemma WsprdOfPieces(clock: string, a: string, b: string, c: string, d: string, message: string,
                      timestamp: int, dbv: real, dtv: real, fv: real, driftv: int, dayStart: int, band: Option<string>)
    requires |clock| == 4 && |a| == 3 && |b| == 4 && |c| == 10 && |d| == 2 && message != [] && Trimmed(message)
    requires ParseClock(clock, false).Some?
    requires Timestamp(dayStart, clock, false).Some? && Timestamp(dayStart, clock, false).value == timestamp
    requires ParseFloat(a).Some? && ParseFloat(a).value == dbv && ParseFloat(b).Some? && ParseFloat(b).value == dtv
    requires ParseFloat(c).Some? && ParseFloat(c).value == fv && ParseInt(d).Some? && ParseInt(d).value == driftv
    ensures ParseFromWsprd(clock + " " + a + " " + b + " " + c + " " + d + "  " + message, dayStart, band)
         == Written(WsprSpot(timestamp, dbv, dtv, fv, driftv, message), ParseWsprMessage(message, band))
  {
    WsprdSlices(clock, a, b, c, d, message);
    ParseFromWsprdOfSlices(clock + " " + a + " " + b + " " + c + " " + d + "  " + message, clock, a, b, c, d, message,
                           timestamp, dbv, dtv, fv, driftv, dayStart, band);
  }

  /** The four number columns of a wsprd line convert back to the values written into them. */
  lemma WsprdNumbersRead(db: int, dt: int, freq: int, drift: int)
    ensures ParseFloat(IntField(db, 3)).Some? && ParseFloat(IntField(db, 3)).value == db as real
    ensures ParseFloat(FixedField(dt, 1, 4)).Some? && ParseFloat(FixedField(dt, 1, 4)).value == Scaled(dt, 1)
    ensures ParseFloat(FixedField(freq, 6, 10)).Some? && ParseFloat(FixedField(freq, 6, 10)).value == Scaled(freq, 6)
    ensures ParseInt(IntField(drift, 2)).Some? && ParseInt(IntField(drift, 2)).value == drift
  {
    IntFieldValue(db, 3);
    FixedFieldValue(dt, 1, 4);
    FixedFieldValue(freq, 6, 10);
    IntFieldValue(drift, 2);
  }

  /** Each column a wsprd line is written with converts back to the value written into it. */
  lemma WsprdFieldsRead(h: nat, m: nat, db: int, dt: int, freq: int, drift: int, dayStart: int)
    requires h < 24 && m < 60
    ensures ParseClock(ClockText(h, m, 0, false), false).Some?
    ensures Timestamp(dayStart, ClockText(h, m, 0, false), false).Some?
    ensures Timestamp(dayStart, ClockText(h, m, 0, false), false).value == (dayStart + ClockSeconds(h, m, 0, false)) * 1000
    ensures ParseFloat(IntField(db, 3)).Some? && ParseFloat(IntField(db, 3)).value == db as real
    ensures ParseFloat(FixedField(dt, 1, 4)).Some? && ParseFloat(FixedField(dt, 1, 4)).value == Scaled(dt, 1)
    ensures ParseFloat(FixedField(freq, 6, 10)).Some? && ParseFloat(FixedField(freq, 6, 10)).value == Scaled(freq, 6)
    ensures ParseInt(IntField(drift, 2)).Some? && ParseInt(IntField(drift, 2)).value == drift
  {
    ClockTextTimestamp(dayStart, h, m, 0, false);
    WsprdNumbersRead(db, dt, freq, drift);
  }

  /** parse_from_wsprd reads a wsprd line back to the values it was written from. */
  lemma ParseFromWsprdRoundTrip(h: nat, m: nat, db: int, dt: int, freq: int, drift: int, message: string,
                                dayStart: int, band: Option<string>)
    requires h < 24 && m < 60
    requires WsprdFits(db, dt, freq, drift, message)
    ensures ParseFromWsprd(WsprdLine(h, m, db, dt, freq, drift, message), dayStart, band)
         == WsprdExpected((dayStart + ClockSeconds(h, m, 0, false)) * 1000, db, dt, freq, drift, message, band)
  {
    WsprdFieldsRead(h, m, db, dt, freq, drift, dayStart);
    WsprdOfPieces(ClockText(h, m, 0, false), IntField(db, 3), FixedField(dt, 1, 4), FixedField(freq, 6, 10),
                  IntField(drift, 2), message, (dayStart + ClockSeconds(h, m, 0, false)) * 1000,
                  db as real, Scaled(dt, 1), Scaled(freq, 6), drift, dayStart, band);
  }

  /**
   * parse reads a whole wsprd line back: indexes 19 and 21 fall inside the
   * frequency column, which holds no mode marker, so the line goes to
   * parse_from_wsprd.
   */
  lemma ParseWsprdRoundTrip(h: nat, m: nat, db: int, dt: int, freq: int, drift: int, message: string,
                            dayStart: int, band: Option<string>)
    requires h < 24 && m < 60
    requires WsprdFits(db, dt, freq, drift, message)
    ensures Parse(WsprdLine(h, m, db, dt, freq, drift, message), dayStart, band)
         == WsprdExpected((dayStart + ClockSeconds(h, m, 0, false)) * 1000, db, dt, freq, drift, message, band)
  {
    var clock := ClockText(h, m, 0, false);
    var c := FixedField(freq, 6, 10);
    var line := WsprdLine(h, m, db, dt, freq, drift, message);
    WsprdIndexes(clock, IntField(db, 3), FixedField(dt, 1, 4), c, IntField(drift, 2), message);
    RStripKeeps(line);
    NotDebugLine(line);
    FixedTextShape(freq, 6);
    FieldHasNoMarker(FixedText(freq, 6), 10, 5);
    FieldHasNoMarker(FixedText(freq, 6), 10, 7);
    assert !IsJt9Line(line);
    ParseFromWsprdRoundTrip(h, m, db, dt, freq, drift, message, dayStart, band);
  }

  /** The 0052 sample line beside parse_from_wsprd is a wsprd line, so the round trip covers it. */
  lemma WsprSampleIsWsprdLine()
    ensures WsprdFits(-29, 26, 1486, 0, "G02CWT IO92 23")
    ensures WsprdLine(0, 52, -29, 26, 1486, 0, "G02CWT IO92 23") == "0052 -29  2.6   0.001486  0  G02CWT IO92 23"
  {
    SampleFits();
    SampleColumns();
    SampleText();
  }

  /** The sample's text is its columns side by side. */
  lemma SampleText()
    ensures "0052" + " " + "-29" + " " + " 2.6" + " " + "  0.001486" + " " + " 0" + "  " + "G02CWT IO92 23"
         == "0052 -29  2.6   0.001486  0  G02CWT IO92 23"
  {
    assert "0052" + " " + "-29" + " " == "0052 -29 ";
    assert "0052 -29 " + " 2.6" + " " == "0052 -29  2.6 ";
    assert "0052 -29  2.6 " + "  0.001486" + " " == "0052 -29  2.6   0.001486 ";
    assert "0052 -29  2.6   0.001486 " + " 0" + "  " == "0052 -29  2.6   0.001486  0  ";
    assert "0052 -29  2.6   0.001486  0  " + "G02CWT IO92 23" == "0052 -29  2.6   0.001486  0  G02CWT IO92 23";
  }

  /** The sample's values fit their columns. */
  lemma SampleFits()
    ensures WsprdFits(-29, 26, 1486, 0, "G02CWT IO92 23")
  {
    SampleDb();
    SampleDt();
    SampleFrequency();
    assert IntText(0) == "0";
  }

  /** The columns of the 0052 sample, each written from its value. */
  lemma SampleColumns()
    ensures ClockText(0, 52, 0, false) == "0052"
    ensures IntField(-29, 3) == "-29"
    ensures FixedField(26, 1, 4) == " 2.6"
    ensures FixedField(1486, 6, 10) == "  0.001486"
    ensures IntField(0, 2) == " 0"
  {
    SampleDb();
    SampleDt();
    SampleFrequency();
    assert Spaces(1) == " ";
  }

  /** The dB column of the sample. */
  lemma SampleDb()
    ensures IntText(-29) == "-29"
  {
    assert NatText(29) == NatText(2) + "9";
  }

  /** The time-offset column of the sample. */
  lemma SampleDt()
    ensures FixedText(26, 1) == "2.6"
  {
    assert LastDigits(26, 1) == LastDigits(2, 0) + "6";
  }

  /** The frequency column of the sample, 1486 millionths of a MHz. */
  lemma SampleFrequency()
    ensures FixedText(1486, 6) == "0.001486"
  {
    SampleFrequencyHigh();
    assert DropDigits(1486, 6) == DropDigits(148, 5);
    assert LastDigits(1486, 6) == LastDigits(148, 5) + "6";
  }

  /** The frequency digits above the last one. */
  lemma SampleFrequencyHigh()
    ensures DropDigits(148, 5) == 0 && LastDigits(148, 5) == "00148"
  {
    SampleFrequencyTop();
    assert DropDigits(148, 5) == DropDigits(14, 4);
    assert LastDigits(148, 5) == LastDigits(14, 4) + "8";
  }

  /** The frequency digits above the last two. */
  lemma SampleFrequencyTop()
    ensures DropDigits(14, 4) == 0 && LastDigits(14, 4) == "0014"
  {
    assert LastDigits(0, 2) == "00";
    assert LastDigits(1, 3) == "001";
  }
}
