/**
 * WsjtParser of owrx/wsjt.py: one decoder output line becomes a spot and,
 * when the message carries a callsign and a Maidenhead locator, a location
 * update for the shared map. The two regular expressions are written out as
 * a computed matcher and a declarative description of what the pattern
 * accepts, proved to agree.
 */
module WsjtParsing {
  import opened Basics
  import opened Text

  /** A written spot: the jt9 format (FT8, JT65, JT9, FT4) or the wsprd format. */
  datatype Spot =
    | Jt9Spot(timestamp: int, db: real, dt: real, freq: int, mode: string, msg: string)
    | WsprSpot(timestamp: int, db: real, dt: real, freqMhz: real, drift: int, msg: string)

  /** A call to the map's updateLocation; the band comes from the dial frequency. */
  datatype LocationUpdate = LocationUpdate(callsign: string, locator: string, mode: string, band: Option<string>)

  /**
   * What parsing one line does: nothing, write a spot (and perhaps update the
   * map), fail with a ValueError after perhaps updating the map, or raise an
   * IndexError out of parse because the line is too short.
   */
  datatype LineOutcome =
    | Skipped
    | Written(spot: Spot, update: Option<LocationUpdate>)
    | Rejected(update: Option<LocationUpdate>)
    | IndexErrorRaised

  /** The keys of the mode table. */
  predicate IsModeMarker(c: char) {
    c == '~' || c == '#' || c == '@' || c == '+'
  }

  /** The mode table: "~" FT8, "#" JT65, "@" JT9, "+" FT4, anything else "unknown". */
  function ModeName(key: string): (mode: string)
    ensures mode != "unknown" <==> |key| == 1 && IsModeMarker(key[0])
    ensures mode != "WSPR"
  {
    if key == "~" then "FT8"
    else if key == "#" then "JT65"
    else if key == "@" then "JT9"
    else if key == "+" then "FT4"
    else "unknown"
  }

  function SpotMode(s: Spot): string {
    match s
    case Jt9Spot(_, _, _, _, mode, _) => mode
    case WsprSpot(_, _, _, _, _, _) => "WSPR"
  }

  predicate IsLocator(s: string) {
    |s| == 4 && 'A' <= s[0] <= 'R' && 'A' <= s[1] <= 'R' && IsDigit(s[2]) && IsDigit(s[3])
  }

  /** The character class [A-Z0-9]. */
  predicate IsCallsignChar(c: char) {
    'A' <= c <= 'Z' || IsDigit(c)
  }

  predicate AllCallsignChars(s: string) {
    forall i :: 0 <= i < |s| ==> IsCallsignChar(s[i])
  }

  /** The position of the last whitespace character before index k, if any. */
  function LastSpaceBefore(s: string, k: nat): (j: Option<nat>)
    requires k <= |s|
    ensures j.Some? ==> j.value < k && IsSpace(s[j.value])
    ensures forall i :: (if j.Some? then j.value + 1 else 0) <= i < k ==> !IsSpace(s[i])
  {
    if k == 0 then None
    else if IsSpace(s[k - 1]) then Some(k - 1)
    else LastSpaceBefore(s, k - 1)
  }

  /**
   * One way for the locator pattern ".*\s([A-Z0-9]+)\s([A-R]{2}[0-9]{2})$"
   * to match at the start of msg: "." does not match a line feed, the
   * whitespace before the callsign is at j, and the locator ends the text.
   */
  ghost predicate LocatorSplit(msg: string, j: int, callsign: string, locator: string) {
    var n := |msg|;
    && 0 <= j && j + 1 < n - 5
    && (forall i :: 0 <= i < j ==> msg[i] != '\n')
    && IsSpace(msg[j])
    && callsign == msg[j + 1..n - 5] && AllCallsignChars(callsign)
    && IsSpace(msg[n - 5])
    && locator == msg[n - 4..] && IsLocator(locator)
  }

  /** locator_pattern.match(msg), giving group 1 and group 2. */
  function LocatorMatch(msg: string): (m: Option<(string, string)>)
    ensures m.Some? ==> exists j :: LocatorSplit(msg, j, m.value.0, m.value.1)
  {
    var n := |msg|;
    if n < 7 || !IsSpace(msg[n - 5]) || !IsLocator(msg[n - 4..]) then None
    else match LastSpaceBefore(msg, n - 5)
      case None => None
      case Some(j) =>
        if j + 1 < n - 5 && AllCallsignChars(msg[j + 1..n - 5]) && (forall i :: 0 <= i < j ==> msg[i] != '\n') then
          assert LocatorSplit(msg, j, msg[j + 1..n - 5], msg[n - 4..]);
          Some((msg[j + 1..n - 5], msg[n - 4..]))
        else None
  }

  /** Every way the pattern can match is the one the matcher finds: the groups are unique. */
  lemma LocatorMatchComplete(msg: string, j: int, callsign: string, locator: string)
    requires LocatorSplit(msg, j, callsign, locator)
    ensures LocatorMatch(msg) == Some((callsign, locator))
  {
    var n := |msg|;
    var k := LastSpaceBefore(msg, n - 5);
    assert !IsSpace(msg[j + 1]) by {
      assert msg[j + 1] == callsign[0];
    }
    assert forall i :: j < i < n - 5 ==> msg[i] == callsign[i - j - 1];
  }

  /**
   * parseLocator: the map update a payload causes, if any. "RR73" has
   * locator syntax but means "roger, 73" and is ignored.
   */
  function ParseLocator(msg: string, mode: string, band: Option<string>): (u: Option<LocationUpdate>)
    ensures u.Some? <==> LocatorMatch(msg).Some? && LocatorMatch(msg).value.1 != "RR73"
    ensures u.Some? ==>
      && u.value.mode == mode && u.value.band == band && u.value.locator != "RR73"
      && exists j :: LocatorSplit(msg, j, u.value.callsign, u.value.locator)
  {
    match LocatorMatch(msg)
    case None => None
    case Some((callsign, locator)) =>
      if locator == "RR73" then None else Some(LocationUpdate(callsign, locator, mode, band))
  }

  /** The length of the longest prefix of [A-Z0-9] characters. */
  function CallsignRun(s: string): (k: nat)
    ensures k <= |s| && AllCallsignChars(s[..k])
    ensures k < |s| ==> !IsCallsignChar(s[k])
  {
    if s == [] || !IsCallsignChar(s[0]) then 0
    else
      var k := 1 + CallsignRun(s[1..]);
      assert forall i :: 1 <= i < k ==> s[..k][i] == s[1..][..k - 1][i - 1];
      k
  }

  /**
   * One way for the WSPR splitter "([A-Z0-9]*)\s([A-R]{2}[0-9]{2})\s([0-9]+)"
   * to match at the start of msg, the callsign ending at k.
   */
  ghost predicate WsprSplit(msg: string, k: int, callsign: string, locator: string) {
    && 0 <= k && k + 6 < |msg|
    && callsign == msg[..k] && AllCallsignChars(callsign)
    && IsSpace(msg[k])
    && locator == msg[k + 1..k + 5] && IsLocator(locator)
    && IsSpace(msg[k + 5])
    && IsDigit(msg[k + 6])
  }

  /** wspr_splitter_pattern.match(msg), giving group 1 and group 2. */
  function WsprMatch(msg: string): (m: Option<(string, string)>)
    ensures m.Some? ==> WsprSplit(msg, |m.value.0|, m.value.0, m.value.1)
  {
    var k := CallsignRun(msg);
    if k + 6 < |msg| && IsSpace(msg[k]) && IsLocator(msg[k + 1..k + 5]) && IsSpace(msg[k + 5]) && IsDigit(msg[k + 6])
    then Some((msg[..k], msg[k + 1..k + 5]))
    else None
  }

  /** The splitter's callsign group is the whole leading run, so every match is the one found. */
  lemma WsprMatchComplete(msg: string, k: int, callsign: string, locator: string)
    requires WsprSplit(msg, k, callsign, locator)
    ensures WsprMatch(msg) == Some((callsign, locator))
  {
    var r := CallsignRun(msg);
  }

  /** parseWsprMessage: the map update a WSPR payload causes, if any; the mode is always "WSPR". */
  function ParseWsprMessage(msg: string, band: Option<string>): (u: Option<LocationUpdate>)
    ensures u.Some? <==> WsprMatch(msg).Some?
    ensures u.Some? ==>
      && u.value.mode == "WSPR" && u.value.band == band
      && WsprSplit(msg, |u.value.callsign|, u.value.callsign, u.value.locator)
  {
    match WsprMatch(msg)
    case None => None
    case Some((callsign, locator)) => Some(LocationUpdate(callsign, locator, "WSPR", band))
  }

  /**
   * parse_timestamp: the clock text read as a time of today, in milliseconds
   * since the epoch; `dayStart` is the epoch second at which today began.
   */
  function Timestamp(dayStart: int, clock: string, withSeconds: bool): (ms: Option<int>)
    ensures ms.Some? ==> dayStart * 1000 <= ms.value < (dayStart + 86400) * 1000
  {
    var seconds := ParseClock(clock, withSeconds);
    if seconds.None? then None else Some((dayStart + seconds.value) * 1000)
  }

  /** A clock that parses gives the time of today it shows, in milliseconds. */
  lemma TimestampOfClock(dayStart: int, clock: string, withSeconds: bool)
    requires ParseClock(clock, withSeconds).Some?
    ensures Timestamp(dayStart, clock, withSeconds).Some?
    ensures Timestamp(dayStart, clock, withSeconds).value == (dayStart + ParseClock(clock, withSeconds).value) * 1000
  {
  }

  /**
   * The columns of a jt9 line after the clock and one blank: dB, time
   * offset, audio frequency, the mode marker, and the payload. The locator
   * update happens before the numbers are converted.
   */
  function Jt9Columns(rest: string, timestamp: int, band: Option<string>): (o: LineOutcome)
    ensures o.Written? || o.Rejected?
    ensures o.Written? ==> o.spot.Jt9Spot? && o.spot.timestamp == timestamp
    ensures o.Written? ==> o.spot.mode != "WSPR" && o.spot.msg == Strip(o.spot.msg)
    ensures o.update.Some? ==>
      && IsLocator(o.update.value.locator) && AllCallsignChars(o.update.value.callsign)
      && o.update.value.locator != "RR73"
  {
    var mode := ModeName(Slice(rest, 14, 15));
    var payload := Strip(Slice(rest, 17, 53));
    StripIdempotent(Slice(rest, 17, 53));
    var update := ParseLocator(payload, mode, band);
    Jt9Row(timestamp, ParseFloat(Slice(rest, 0, 3)), ParseFloat(Slice(rest, 4, 8)), ParseInt(Slice(rest, 9, 13)),
           mode, payload, update)
  }

  /** The outcome of a jt9 line from its converted columns: a spot when all three numbers convert, otherwise a rejection. */
  function Jt9Row(timestamp: int, db: Option<real>, dt: Option<real>, freq: Option<int>,
                  mode: string, payload: string, update: Option<LocationUpdate>): (o: LineOutcome)
    ensures (o.Written? || o.Rejected?) && o.update == update
    ensures o.Written? <==> db.Some? && dt.Some? && freq.Some?
    ensures o.Written? ==> o.spot == Jt9Spot(timestamp, db.value, dt.value, freq.value, mode, payload)
  {
    if db.None? || dt.None? || freq.None? then Rejected(update)
    else Written(Jt9Spot(timestamp, db.value, dt.value, freq.value, mode, payload), update)
  }

  /**
   * What each jt9 column holds: dB is float(rest[0:3]), the time offset
   * float(rest[4:8]), the frequency int(rest[9:13]), the mode the table entry
   * for rest[14:15], the message rest[17:53] stripped; the map update is
   * decided from mode and message whether or not the numbers convert.
   */
  lemma Jt9ColumnsContents(rest: string, timestamp: int, band: Option<string>)
    ensures var o := Jt9Columns(rest, timestamp, band);
      && o.update == ParseLocator(Strip(Slice(rest, 17, 53)), ModeName(Slice(rest, 14, 15)), band)
      && (o.Written? <==>
            ParseFloat(Slice(rest, 0, 3)).Some? && ParseFloat(Slice(rest, 4, 8)).Some? && ParseInt(Slice(rest, 9, 13)).Some?)
      && (o.Written? ==> o.spot == Jt9Spot(timestamp,
            ParseFloat(Slice(rest, 0, 3)).value, ParseFloat(Slice(rest, 4, 8)).value, ParseInt(Slice(rest, 9, 13)).value,
            ModeName(Slice(rest, 14, 15)), Strip(Slice(rest, 17, 53))))
  {
  }

  /** The width of a jt9 line's clock: 4 (HHMM) when a mode marker sits at index 19, 6 (HHMMSS) otherwise. */
  function Jt9ClockWidth(msg: string): (w: nat)
    ensures w == 4 || w == 6
    ensures w == 4 <==> |msg| > 19 && IsModeMarker(msg[19])
  {
    if |msg| > 19 && IsModeMarker(msg[19]) then 4 else 6
  }

  /** The time of a jt9 line: msg[0:4] read as %H%M or msg[0:6] as %H%M%S, by the clock width. */
  function Jt9Timestamp(msg: string, dayStart: int): Option<int> {
    var w := Jt9ClockWidth(msg);
    Timestamp(dayStart, Slice(msg, 0, w), w == 6)
  }

  /**
   * parse_from_jt9: the clock is read first, as HHMM or HHMMSS by the width
   * the marker position selects; the columns follow the clock and one blank.
   */
  function ParseFromJt9(msg: string, dayStart: int, band: Option<string>): (o: LineOutcome)
    ensures o.Written? || o.Rejected?
    ensures o.Written? ==> dayStart * 1000 <= o.spot.timestamp < (dayStart + 86400) * 1000
  {
    var timestamp := Jt9Timestamp(msg, dayStart);
    if timestamp.None? then Rejected(None)
    else Jt9Columns(Slice(msg, Jt9ClockWidth(msg) + 1, |msg|), timestamp.value, band)
  }

  /**
   * A jt9 line is its clock, read first (a clock that does not convert
   * rejects the line before any map update), then the columns after the
   * clock and one blank, stamped with the clock's time of the day.
   */
  lemma Jt9ClockThenColumns(msg: string, dayStart: int, band: Option<string>)
    ensures Jt9Timestamp(msg, dayStart).None? ==> ParseFromJt9(msg, dayStart, band) == Rejected(None)
    ensures Jt9Timestamp(msg, dayStart).Some? ==>
      ParseFromJt9(msg, dayStart, band) == Jt9Columns(Slice(msg, Jt9ClockWidth(msg) + 1, |msg|), Jt9Timestamp(msg, dayStart).value, band)
  {
  }

  /**
   * parse_from_wsprd: the payload runs from column 29 to the end and the
   * WSPR update happens before any number is converted.
   */
  function ParseFromWsprd(msg: string, dayStart: int, band: Option<string>): (o: LineOutcome)
    ensures o.Written? || o.Rejected?
    ensures o.update == ParseWsprMessage(Strip(Slice(msg, 29, |msg|)), band)
    ensures o.Written? ==> o.spot.WsprSpot? && o.spot.msg == Strip(Slice(msg, 29, |msg|))
    ensures o.Written? ==> dayStart * 1000 <= o.spot.timestamp < (dayStart + 86400) * 1000
  {
    var payload := Strip(Slice(msg, 29, |msg|));
    WsprdColumns(Timestamp(dayStart, Slice(msg, 0, 4), false), ParseFloat(Slice(msg, 5, 8)), ParseFloat(Slice(msg, 9, 13)),
                 ParseFloat(Slice(msg, 14, 24)), ParseInt(Slice(msg, 25, 28)), payload, ParseWsprMessage(payload, band))
  }

  /** The outcome of a wsprd line from its converted columns: a spot when all five convert, otherwise a rejection. */
  function WsprdColumns(timestamp: Option<int>, db: Option<real>, dt: Option<real>, freq: Option<real>, drift: Option<int>,
                        payload: string, update: Option<LocationUpdate>): (o: LineOutcome)
    ensures (o.Written? || o.Rejected?) && o.update == update
    ensures o.Written? <==> timestamp.Some? && db.Some? && dt.Some? && freq.Some? && drift.Some?
    ensures o.Written? ==> o.spot == WsprSpot(timestamp.value, db.value, dt.value, freq.value, drift.value, payload)
  {
    if timestamp.None? || db.None? || dt.None? || freq.None? || drift.None? then Rejected(update)
    else Written(WsprSpot(timestamp.value, db.value, dt.value, freq.value, drift.value, payload), update)
  }

  /**
   * What each wsprd column holds: the clock msg[0:4] as %H%M, dB
   * float(msg[5:8]), the time offset float(msg[9:13]), the frequency
   * float(msg[14:24]), the drift int(msg[25:28]) and the message msg[29:]
   * stripped; the line is rejected, after the WSPR map update, exactly when
   * one of them does not convert.
   */
  lemma ParseFromWsprdContents(msg: string, dayStart: int, band: Option<string>)
    ensures
      && ParseClock(Slice(msg, 0, 4), false).Some?
      && ParseFloat(Slice(msg, 5, 8)).Some? && ParseFloat(Slice(msg, 9, 13)).Some?
      && ParseFloat(Slice(msg, 14, 24)).Some? && ParseInt(Slice(msg, 25, 28)).Some?
      ==> ParseFromWsprd(msg, dayStart, band)
          == Written(WsprSpot(Timestamp(dayStart, Slice(msg, 0, 4), false).value,
                              ParseFloat(Slice(msg, 5, 8)).value, ParseFloat(Slice(msg, 9, 13)).value,
                              ParseFloat(Slice(msg, 14, 24)).value, ParseInt(Slice(msg, 25, 28)).value,
                              Strip(Slice(msg, 29, |msg|))),
                     ParseWsprMessage(Strip(Slice(msg, 29, |msg|)), band))
    ensures
      || ParseClock(Slice(msg, 0, 4), false).None?
      || ParseFloat(Slice(msg, 5, 8)).None? || ParseFloat(Slice(msg, 9, 13)).None?
      || ParseFloat(Slice(msg, 14, 24)).None? || ParseInt(Slice(msg, 25, 28)).None?
      ==> ParseFromWsprd(msg, dayStart, band) == Rejected(ParseWsprMessage(Strip(Slice(msg, 29, |msg|)), band))
  {
  }

  predicate IsDebugLine(msg: string) {
    StartsWith(msg, "<DecodeFinished>") || StartsWith(msg, " EOF on input file")
  }

  /** The format probe: a mode marker at index 21 or 19 selects the jt9 format. */
  predicate IsJt9Line(msg: string)
    requires |msg| > 21
  {
    IsModeMarker(msg[21]) || IsModeMarker(msg[19])
  }

  /**
   * parse: one decoded line after rstrip. The probe reads index 21 before
   * anything else, so a short line raises IndexError, which parse does not
   * catch.
   */
  function Parse(line: string, dayStart: int, band: Option<string>): (o: LineOutcome)
    ensures o == Skipped <==> IsDebugLine(RStrip(line))
    ensures o == IndexErrorRaised <==> !IsDebugLine(RStrip(line)) && |RStrip(line)| <= 21
    ensures o.Written? ==> (o.spot.Jt9Spot? <==> IsJt9Line(RStrip(line)))
    ensures o.Written? ==> dayStart * 1000 <= o.spot.timestamp < (dayStart + 86400) * 1000
    ensures o.Written? ==> o.spot.msg == Strip(o.spot.msg)
    ensures (o.Written? || o.Rejected?) && o.update.Some? ==>
      && IsLocator(o.update.value.locator) && AllCallsignChars(o.update.value.callsign)
      && (IsJt9Line(RStrip(line)) ==> o.update.value.locator != "RR73")
  {
    var msg := RStrip(line);
    if IsDebugLine(msg) then Skipped
    else if |msg| <= 21 then IndexErrorRaised
    else if IsJt9Line(msg) then ParseFromJt9(msg, dayStart, band)
    else
      StripIdempotent(Slice(msg, 29, |msg|));
      ParseFromWsprd(msg, dayStart, band)
  }
}
