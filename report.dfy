/**
 * The LONG_FORMAT rendering of a record: a labelled report, one line per
 * reading, printed to standard output by successive `printf` calls.
 */
module LongReport {
  import opened Wrappers
  import opened Bytes
  import opened Text
  import opened HistoryRecord
  import opened Wind
  import opened CRuntime

  const DATE_LABEL: string := "Date:                 "
  const PRESSURE_NO_DATA_LINE: string := "Pressure:              no data\n"
  const PRESSURE_LABEL: string := "Pressure:            "
  const PRESSURE_UNIT: string := "  hPa\n"
  const INDOOR_TEMPERATURE_LABEL: string := "Indoor  temperature:   "
  const CELSIUS_UNIT: string := " \U{00B0}C\n"
  const INDOOR_HUMIDITY_LABEL: string := "Indoor  humidity:      "
  const NO_DATA_TAIL: string := "no data\n"
  const PERCENT_UNIT: string := "    %\n"
  const OUTDOOR_TEMPERATURE_NO_DATA_LINE: string := "Outdoor temperature:   no data\n"
  const OUTDOOR_TEMPERATURE_LABEL: string := "Outdoor temperature:   "
  const OUTDOOR_HUMIDITY_LABEL: string := "Outdoor humidity:      "
  const WIND_SPEED_NO_DATA_LINE: string := "Wind speed:            no data\n"
  const WIND_DIRECTION_NO_DATA_LINE: string := "Wind direction:        no data\n"
  const WIND_SPEED_LABEL: string := "Wind speed:            "
  const WIND_SPEED_UNIT: string := "  m/s\n"
  const WIND_DIRECTION_LABEL: string := "Wind direction:         "
  const RAIN_LABEL: string := "Total rainfall:      "
  const RAIN_UNIT: string := "  mm\n"

  /** The date line: asctime of the localtime of the (shifted) date; asctime supplies the newline. */
  function DateLine(rt: Runtime, f: Fields, longDate: bool): string {
    DATE_LABEL + rt.asctime(rt.localtime(EffectiveDate(f, longDate)))
  }

  /**
   * After its heading the date line is asctime's text for the localtime of
   * the shifted date, or of the stored date in the LONG_DATE build.
   */
  lemma DateLineText(rt: Runtime, f: Fields, longDate: bool)
    ensures var line := DateLine(rt, f, longDate);
      DATE_LABEL <= line &&
      (!longDate ==> line[|DATE_LABEL|..] == rt.asctime(rt.localtime(ShiftDate(f.date)))) &&
      (longDate ==> line[|DATE_LABEL|..] == rt.asctime(rt.localtime(f.date)))
  {
    var line := DateLine(rt, f, longDate);
    assert line[..|DATE_LABEL|] == DATE_LABEL;
  }

  /** The pressure line: no data below 700, otherwise `%6.1f` hPa. */
  function PressureLine(rt: Runtime, f: Fields): string {
    if rt.pressureBelow700(f.pressure) then PRESSURE_NO_DATA_LINE
    else PRESSURE_LABEL + rt.formatFloat(F_6_1, f.pressure) + PRESSURE_UNIT
  }

  /** A humidity line: the heading, then no data above 100 or the percentage. */
  function HumidityLine(heading: string, h: Byte): string {
    heading + if HumidityNoData(h) then NO_DATA_TAIL else DecimalString(h) + PERCENT_UNIT
  }

  /** The indoor temperature line, which has no "no data" case, and the indoor humidity line. */
  function IndoorLines(rt: Runtime, f: Fields): seq<string> {
    [ INDOOR_TEMPERATURE_LABEL + rt.formatFloat(F_LEFT_4_1, f.inTemp) + CELSIUS_UNIT,
      HumidityLine(INDOOR_HUMIDITY_LABEL, f.inHumidity) ]
  }

  /** The outdoor temperature line, no data under the marker in bytes 28-31. */
  function OutTempLine(rt: Runtime, record: RawRecord): string {
    if OutTempNoData(record) then OUTDOOR_TEMPERATURE_NO_DATA_LINE
    else OUTDOOR_TEMPERATURE_LABEL + rt.formatFloat(F_LEFT_4_1, Decode(record).outTemp) + CELSIUS_UNIT
  }

  function OutdoorLines(rt: Runtime, record: RawRecord): seq<string> {
    [OutTempLine(rt, record), HumidityLine(OUTDOOR_HUMIDITY_LABEL, Decode(record).outHumidity)]
  }

  /** What `printf_wind` prints: the compass point, or nothing for an index above 15. */
  function PointText(windDir: int): string {
    match CompassPoint(windDir) case Some(p) => p case None => ""
  }

  /** Nothing is printed exactly for an index outside 0..15; a printed point reads back as the index. */
  lemma PointTextReadsBack(windDir: int)
    ensures PointText(windDir) == "" <==> !(0 <= windDir < 16)
    ensures 0 <= windDir < 16 ==> CompassIndex(PointText(windDir)) == Some(windDir)
  {
    if 0 <= windDir < 16 {
      CompassRoundTrip(windDir);
    }
  }

  /** The two wind lines: both no data under the marker in bytes 12-15. */
  function WindLines(rt: Runtime, record: RawRecord): seq<string> {
    var f := Decode(record);
    if WindNoData(record) then [WIND_SPEED_NO_DATA_LINE, WIND_DIRECTION_NO_DATA_LINE]
    else [ WIND_SPEED_LABEL + rt.formatFloat(F_SPACE_4_1, f.windSpeed) + WIND_SPEED_UNIT,
           WIND_DIRECTION_LABEL + PointText(f.windDir) + "\n" ]
  }

  /** The indoor temperature line, never suppressed: its heading, the `%-4.1f` text and the degree unit. */
  lemma IndoorTempLineText(rt: Runtime, f: Fields)
    ensures var line := IndoorLines(rt, f)[0];
      |line| >= |INDOOR_TEMPERATURE_LABEL| + |CELSIUS_UNIT| &&
      line[..|INDOOR_TEMPERATURE_LABEL|] == INDOOR_TEMPERATURE_LABEL && line[|line| - |CELSIUS_UNIT|..] == CELSIUS_UNIT &&
      line[|INDOOR_TEMPERATURE_LABEL|..|line| - |CELSIUS_UNIT|] == rt.formatFloat(F_LEFT_4_1, f.inTemp)
  {
    Framed(INDOOR_TEMPERATURE_LABEL, rt.formatFloat(F_LEFT_4_1, f.inTemp), CELSIUS_UNIT);
  }

  /** The rainfall line: `% 6.1f` and mm. */
  function RainLine(rt: Runtime, f: Fields): string {
    RAIN_LABEL + rt.formatFloat(F_SPACE_6_1, f.rainTotal) + RAIN_UNIT
  }

  /** The rainfall line is its heading, the `% 6.1f` text of the total and the unit. */
  lemma RainLineText(rt: Runtime, f: Fields)
    ensures var line := RainLine(rt, f);
      |line| >= |RAIN_LABEL| + |RAIN_UNIT| &&
      line[..|RAIN_LABEL|] == RAIN_LABEL && line[|line| - |RAIN_UNIT|..] == RAIN_UNIT &&
      line[|RAIN_LABEL|..|line| - |RAIN_UNIT|] == rt.formatFloat(F_SPACE_6_1, f.rainTotal)
  {
    Framed(RAIN_LABEL, rt.formatFloat(F_SPACE_6_1, f.rainTotal), RAIN_UNIT);
  }

  /** The report's lines in order: always nine of them. */
  function ReportLines(rt: Runtime, record: RawRecord, longDate: bool): (lines: seq<string>)
    ensures |lines| == 9
  {
    var f := Decode(record);
    [DateLine(rt, f, longDate)] + [PressureLine(rt, f)] + IndoorLines(rt, f) + OutdoorLines(rt, record)
    + WindLines(rt, record) + [RainLine(rt, f)]
  }

  /** Everything the LONG_FORMAT build prints for a record. */
  function Report(rt: Runtime, record: RawRecord, longDate: bool): string {
    Concat(ReportLines(rt, record, longDate))
  }

  /** `printf_wind`: print the compass point of `windDir`, or nothing for an index outside the table. */
  method PrintfWind(stdout: TextBuffer, windDir: int)
    modifies stdout
    ensures stdout.text == old(stdout.text) + PointText(windDir)
  {
    match CompassPoint(windDir)
    case Some(p) => stdout.Append(p);
    case None =>
  }


  /** A whole line of the report printed by one `printf`. */
  method PrintLine(stdout: TextBuffer, ghost lines: seq<string>, line: string) returns (ghost lines': seq<string>)
    requires stdout.text == Concat(lines)
    modifies stdout
    ensures lines' == lines + [line] && stdout.text == Concat(lines')
  {
    stdout.Append(line);
    lines' := lines + [line];
    assert lines'[..|lines'| - 1] == lines;
  }

  /** A line printed in two calls: first its heading, then the rest. */
  method PrintLabelled(stdout: TextBuffer, ghost lines: seq<string>, heading: string, rest: string)
    returns (ghost lines': seq<string>)
    requires stdout.text == Concat(lines)
    modifies stdout
    ensures lines' == lines + [heading + rest] && stdout.text == Concat(lines')
  {
    stdout.Append(heading);
    stdout.Append(rest);
    lines' := lines + [heading + rest];
    assert lines'[..|lines'| - 1] == lines;
  }

  /** `printf("Date:...")` and the asctime text of the localtime of `date`. */
  method PrintDate(stdout: TextBuffer, ghost lines: seq<string>, rt: Runtime, f: Fields, longDate: bool, date: U32)
    returns (ghost lines': seq<string>)
    requires date == EffectiveDate(f, longDate)
    requires stdout.text == Concat(lines)
    modifies stdout
    ensures lines' == lines + [DateLine(rt, f, longDate)] && stdout.text == Concat(lines')
  {
    lines' := PrintLabelled(stdout, lines, DATE_LABEL, rt.asctime(rt.localtime(date)));
  }

  method PrintPressure(stdout: TextBuffer, ghost lines: seq<string>, rt: Runtime, f: Fields)
    returns (ghost lines': seq<string>)
    requires stdout.text == Concat(lines)
    modifies stdout
    ensures lines' == lines + [PressureLine(rt, f)] && stdout.text == Concat(lines')
  {
    if rt.pressureBelow700(f.pressure) {
      lines' := PrintLine(stdout, lines, PRESSURE_NO_DATA_LINE);
    } else {
      lines' := PrintLine(stdout, lines, PRESSURE_LABEL + rt.formatFloat(F_6_1, f.pressure) + PRESSURE_UNIT);
    }
  }

  /** `printf("<heading>")`, then the no-data text or `printf("%u    %%\n", h)`. */
  method PrintHumidity(stdout: TextBuffer, ghost lines: seq<string>, heading: string, h: Byte)
    returns (ghost lines': seq<string>)
    requires stdout.text == Concat(lines)
    modifies stdout
    ensures lines' == lines + [HumidityLine(heading, h)] && stdout.text == Concat(lines')
  {
    if h > 100 {
      lines' := PrintLabelled(stdout, lines, heading, NO_DATA_TAIL);
    } else {
      lines' := PrintLabelled(stdout, lines, heading, DecimalString(h) + PERCENT_UNIT);
    }
  }

  method PrintIndoor(stdout: TextBuffer, ghost lines: seq<string>, rt: Runtime, f: Fields)
    returns (ghost lines': seq<string>)
    requires stdout.text == Concat(lines)
    modifies stdout
    ensures lines' == lines + IndoorLines(rt, f) && stdout.text == Concat(lines')
  {
    lines' := PrintLine(stdout, lines, INDOOR_TEMPERATURE_LABEL + rt.formatFloat(F_LEFT_4_1, f.inTemp) + CELSIUS_UNIT);
    lines' := PrintHumidity(stdout, lines', INDOOR_HUMIDITY_LABEL, f.inHumidity);
  }

  /** The outdoor lines; the temperature marker is tested on the raw bytes 28-31. */
  method PrintOutdoor(stdout: TextBuffer, ghost lines: seq<string>, rt: Runtime, record: RawRecord)
    returns (ghost lines': seq<string>)
    requires stdout.text == Concat(lines)
    modifies stdout
    ensures lines' == lines + OutdoorLines(rt, record) && stdout.text == Concat(lines')
  {
    var f := Decode(record);
    if record[28] == 0x52 && record[29] == 0x38 && record[30] == 0xA2 && record[31] == 0x42 {
      lines' := PrintLine(stdout, lines, OUTDOOR_TEMPERATURE_NO_DATA_LINE);
    } else {
      lines' := PrintLine(stdout, lines, OUTDOOR_TEMPERATURE_LABEL + rt.formatFloat(F_LEFT_4_1, f.outTemp) + CELSIUS_UNIT);
    }
    lines' := PrintHumidity(stdout, lines', OUTDOOR_HUMIDITY_LABEL, f.outHumidity);
  }

  /** `printf("Wind direction: ")`, `printf_wind(wind_dir)`, `printf("\n")`. */
  method PrintDirection(stdout: TextBuffer, ghost lines: seq<string>, windDir: int)
    returns (ghost lines': seq<string>)
    requires stdout.text == Concat(lines)
    modifies stdout
    ensures lines' == lines + [WIND_DIRECTION_LABEL + PointText(windDir) + "\n"] && stdout.text == Concat(lines')
  {
    stdout.Append(WIND_DIRECTION_LABEL);
    PrintfWind(stdout, windDir);
    stdout.Append("\n");
    lines' := lines + [WIND_DIRECTION_LABEL + PointText(windDir) + "\n"];
    assert lines'[..|lines'| - 1] == lines;
  }

  /** The wind lines; the marker is tested on the raw bytes 12-15. */
  method PrintWind(stdout: TextBuffer, ghost lines: seq<string>, rt: Runtime, record: RawRecord)
    returns (ghost lines': seq<string>)
    requires stdout.text == Concat(lines)
    modifies stdout
    ensures lines' == lines + WindLines(rt, record) && stdout.text == Concat(lines')
  {
    var f := Decode(record);
    var speed := rt.formatFloat(F_SPACE_4_1, f.windSpeed);
    ghost var want := WindLines(rt, record);
    if record[12] == 0x00 && record[13] == 0x00 && record[14] == 0x4C && record[15] == 0x42 {
      lines' := PrintLine(stdout, lines, WIND_SPEED_NO_DATA_LINE);
      lines' := PrintLine(stdout, lines', WIND_DIRECTION_NO_DATA_LINE);
    } else {
      lines' := PrintLine(stdout, lines, WIND_SPEED_LABEL + speed + WIND_SPEED_UNIT);
      lines' := PrintDirection(stdout, lines', f.windDir);
    }
    AppendPair(lines, want);
  }

  /** Two lines appended one at a time are the pair appended at once. */
  lemma AppendPair(lines: seq<string>, pair: seq<string>)
    requires |pair| == 2
    ensures lines + [pair[0]] + [pair[1]] == lines + pair
  {
  }

  /**
   * Decodes the record and prints its report as hwread.c does, `printf` by
   * `printf`, onto an empty standard output; the text printed is returned.
   */
  method PrintReport(rt: Runtime, record: RawRecord, longDate: bool) returns (out: string)
    ensures out == Report(rt, record, longDate)
  {
    var f := Decode(record);
    var date := f.date;
    if !longDate {
      date := ShiftDate(date);
    }
    var stdout := new TextBuffer();
    ghost var lines: seq<string> := [];
    lines := PrintDate(stdout, lines, rt, f, longDate, date);
    lines := PrintPressure(stdout, lines, rt, f);
    lines := PrintIndoor(stdout, lines, rt, f);
    lines := PrintOutdoor(stdout, lines, rt, record);
    lines := PrintWind(stdout, lines, rt, record);
    lines := PrintLine(stdout, lines, RainLine(rt, f));
    out := stdout.text;
  }

  // Properties of the report.

  /** How each of the nine lines begins. */
  const LINE_HEADINGS: seq<string> := [
    "Date:", "Pressure:", "Indoor  temperature:", "Indoor  humidity:", "Outdoor temperature:",
    "Outdoor humidity:", "Wind speed:", "Wind direction:", "Total rainfall:"]

  /** Which function gives each of the nine lines. */
  lemma ReportLinesParts(rt: Runtime, record: RawRecord, longDate: bool)
    ensures var lines := ReportLines(rt, record, longDate); var f := Decode(record);
      lines[0] == DateLine(rt, f, longDate) && lines[1] == PressureLine(rt, f) &&
      lines[2] == IndoorLines(rt, f)[0] && lines[3] == IndoorLines(rt, f)[1] &&
      lines[4] == OutdoorLines(rt, record)[0] && lines[5] == OutdoorLines(rt, record)[1] &&
      lines[6] == WindLines(rt, record)[0] && lines[7] == WindLines(rt, record)[1] &&
      lines[8] == RainLine(rt, f)
  {
    var f := Decode(record);
    var head := [DateLine(rt, f, longDate)] + [PressureLine(rt, f)];
    var indoor := IndoorLines(rt, f);
    var outdoor := OutdoorLines(rt, record);
    var wind := WindLines(rt, record);
    var lines := ReportLines(rt, record, longDate);
    assert lines == head + indoor + outdoor + wind + [RainLine(rt, f)];
  }

  /**
   * The report is nine lines in a fixed order, each starting with its
   * heading; every line after the date ends with a newline.
   */
  lemma ReportLayout(rt: Runtime, record: RawRecord, longDate: bool)
    ensures var lines := ReportLines(rt, record, longDate);
      forall i :: 0 <= i < 9 ==> LINE_HEADINGS[i] <= lines[i]
    ensures var lines := ReportLines(rt, record, longDate);
      forall i :: 1 <= i < 9 ==> |lines[i]| > 0 && lines[i][|lines[i]| - 1] == '\n'
  {
    var f := Decode(record);
    ReportLinesParts(rt, record, longDate);
    DateAndPressureLayout(rt, f, longDate);
    IndoorLayout(rt, f);
    OutdoorLayout(rt, record);
    WindAndRainLayout(rt, record);
    var lines := ReportLines(rt, record, longDate);
    forall i | 0 <= i < 9
      ensures LINE_HEADINGS[i] <= lines[i]
      ensures 1 <= i ==> EndsLine(lines[i])
    {
      if i == 0 {
      } else if i == 1 {
      } else if i == 2 {
      } else if i == 3 {
      } else if i == 4 {
      } else if i == 5 {
      } else if i == 6 {
      } else if i == 7 {
      } else {
      }
    }
  }

  /** A line that is non-empty and ends with a newline. */
  predicate EndsLine(line: string) {
    |line| > 0 && line[|line| - 1] == '\n'
  }

  lemma DateAndPressureLayout(rt: Runtime, f: Fields, longDate: bool)
    ensures LINE_HEADINGS[0] <= DateLine(rt, f, longDate)
    ensures LINE_HEADINGS[1] <= PressureLine(rt, f) && EndsLine(PressureLine(rt, f))
  {
    StartsWith(LINE_HEADINGS[0], DATE_LABEL, rt.asctime(rt.localtime(EffectiveDate(f, longDate))));
    if !rt.pressureBelow700(f.pressure) {
      StartsWith(LINE_HEADINGS[1], PRESSURE_LABEL, rt.formatFloat(F_6_1, f.pressure) + PRESSURE_UNIT);
      assert PressureLine(rt, f) == PRESSURE_LABEL + (rt.formatFloat(F_6_1, f.pressure) + PRESSURE_UNIT);
    }
  }

  lemma HumidityLayout(heading: string, lineLabel: string, h: Byte)
    requires heading <= lineLabel
    ensures heading <= HumidityLine(lineLabel, h) && EndsLine(HumidityLine(lineLabel, h))
  {
    StartsWith(heading, lineLabel, if HumidityNoData(h) then NO_DATA_TAIL else DecimalString(h) + PERCENT_UNIT);
  }

  lemma IndoorLayout(rt: Runtime, f: Fields)
    ensures var lines := IndoorLines(rt, f);
      LINE_HEADINGS[2] <= lines[0] && EndsLine(lines[0]) && LINE_HEADINGS[3] <= lines[1] && EndsLine(lines[1])
  {
    var rest := rt.formatFloat(F_LEFT_4_1, f.inTemp) + CELSIUS_UNIT;
    StartsWith(LINE_HEADINGS[2], INDOOR_TEMPERATURE_LABEL, rest);
    assert IndoorLines(rt, f)[0] == INDOOR_TEMPERATURE_LABEL + rest;
    HumidityLayout(LINE_HEADINGS[3], INDOOR_HUMIDITY_LABEL, f.inHumidity);
  }

  lemma OutdoorLayout(rt: Runtime, record: RawRecord)
    ensures var lines := OutdoorLines(rt, record);
      LINE_HEADINGS[4] <= lines[0] && EndsLine(lines[0]) && LINE_HEADINGS[5] <= lines[1] && EndsLine(lines[1])
  {
    if !OutTempNoData(record) {
      var rest := rt.formatFloat(F_LEFT_4_1, Decode(record).outTemp) + CELSIUS_UNIT;
      StartsWith(LINE_HEADINGS[4], OUTDOOR_TEMPERATURE_LABEL, rest);
      assert OutTempLine(rt, record) == OUTDOOR_TEMPERATURE_LABEL + rest;
    }
    HumidityLayout(LINE_HEADINGS[5], OUTDOOR_HUMIDITY_LABEL, Decode(record).outHumidity);
  }

  lemma WindAndRainLayout(rt: Runtime, record: RawRecord)
    ensures var lines := WindLines(rt, record);
      LINE_HEADINGS[6] <= lines[0] && EndsLine(lines[0]) && LINE_HEADINGS[7] <= lines[1] && EndsLine(lines[1])
    ensures LINE_HEADINGS[8] <= RainLine(rt, Decode(record)) && EndsLine(RainLine(rt, Decode(record)))
  {
    var f := Decode(record);
    if !WindNoData(record) {
      var speed := rt.formatFloat(F_SPACE_4_1, f.windSpeed) + WIND_SPEED_UNIT;
      StartsWith(LINE_HEADINGS[6], WIND_SPEED_LABEL, speed);
      assert WindLines(rt, record)[0] == WIND_SPEED_LABEL + speed;
      StartsWith(LINE_HEADINGS[7], WIND_DIRECTION_LABEL, PointText(f.windDir) + "\n");
      assert WindLines(rt, record)[1] == WIND_DIRECTION_LABEL + (PointText(f.windDir) + "\n");
    }
    var rain := rt.formatFloat(F_SPACE_6_1, f.rainTotal) + RAIN_UNIT;
    StartsWith(LINE_HEADINGS[8], RAIN_LABEL, rain);
    assert RainLine(rt, f) == RAIN_LABEL + rain;
  }

  /** A line starts with the heading its label starts with, and ends as its rest does. */
  lemma StartsWith(heading: string, lineLabel: string, rest: string)
    requires heading <= lineLabel
    ensures heading <= lineLabel + rest
    ensures |rest| > 0 ==> (lineLabel + rest)[|lineLabel + rest| - 1] == rest[|rest| - 1]
  {
    assert (lineLabel + rest)[..|heading|] == lineLabel[..|heading|];
  }

  /** A value framed by a heading and a unit can be cut out of the line again. */
  lemma Framed(heading: string, value: string, unit: string)
    ensures var line := heading + value + unit;
      |line| == |heading| + |value| + |unit| &&
      line[..|heading|] == heading && line[|line| - |unit|..] == unit &&
      line[|heading|..|line| - |unit|] == value
  {
    var line := heading + value + unit;
    assert line[..|heading|] == heading;
    assert line[|line| - |unit|..] == unit;
    assert line[|heading|..|line| - |unit|] == value;
  }

  /**
   * The pressure line says "no data" exactly when the pressure is below 700;
   * otherwise its `%6.1f` text sits between the heading and "hPa".
   */
  lemma PressureLineNoData(rt: Runtime, f: Fields)
    ensures PressureLine(rt, f) == PRESSURE_NO_DATA_LINE <==> rt.pressureBelow700(f.pressure)
    ensures var line := PressureLine(rt, f);
      !rt.pressureBelow700(f.pressure) ==>
        |line| >= |PRESSURE_LABEL| + |PRESSURE_UNIT| &&
        line[|PRESSURE_LABEL|..|line| - |PRESSURE_UNIT|] == rt.formatFloat(F_6_1, f.pressure)
  {
    var s := PressureLine(rt, f);
    if !rt.pressureBelow700(f.pressure) {
      Framed(PRESSURE_LABEL, rt.formatFloat(F_6_1, f.pressure), PRESSURE_UNIT);
      assert s[|s| - 3] == 'P';
    }
  }

  /**
   * A humidity line says "no data" exactly when the byte is above 100;
   * otherwise the text between the heading and the per-cent unit is the
   * byte in decimal, which reads back as the byte.
   */
  lemma HumidityLineNoData(heading: string, h: Byte)
    ensures HumidityLine(heading, h) == heading + NO_DATA_TAIL <==> HumidityNoData(h)
    ensures !HumidityNoData(h) ==>
      HumidityLine(heading, h) == heading + DecimalString(h) + PERCENT_UNIT && ReadsAs(DecimalString(h), h)
  {
    if !HumidityNoData(h) {
      var line := HumidityLine(heading, h);
      var s := DecimalString(h);
      assert line == heading + s + PERCENT_UNIT;
      assert line[|line| - 2] == '%';
      DecimalRoundTrip(h);
    }
  }

  /**
   * The outdoor temperature line says "no data" exactly under the marker in
   * bytes 28-31; otherwise its `%-4.1f` text sits between the heading and
   * the degree unit.
   */
  lemma OutTempLineNoData(rt: Runtime, record: RawRecord)
    ensures OutTempLine(rt, record) == OUTDOOR_TEMPERATURE_NO_DATA_LINE <==> OutTempNoData(record)
    ensures var line := OutTempLine(rt, record);
      !OutTempNoData(record) ==>
        |line| >= |OUTDOOR_TEMPERATURE_LABEL| + |CELSIUS_UNIT| &&
        line[|OUTDOOR_TEMPERATURE_LABEL|..|line| - |CELSIUS_UNIT|] == rt.formatFloat(F_LEFT_4_1, Decode(record).outTemp)
  {
    var s := OutTempLine(rt, record);
    if !OutTempNoData(record) {
      Framed(OUTDOOR_TEMPERATURE_LABEL, rt.formatFloat(F_LEFT_4_1, Decode(record).outTemp), CELSIUS_UNIT);
      assert s[|s| - 2] == 'C';
    }
  }

  /**
   * Both wind lines say "no data" exactly under the marker in bytes 12-15.
   * Otherwise the speed's `% 4.1f` text sits between its heading and "m/s",
   * and the direction line names the compass point of byte 16, which reads
   * back as that byte, or is left blank for an index above 15.
   */
  lemma WindLinesNoData(rt: Runtime, record: RawRecord)
    ensures |WindLines(rt, record)| == 2
    ensures var lines := WindLines(rt, record);
      (lines[0] == WIND_SPEED_NO_DATA_LINE <==> WindNoData(record)) &&
      (lines[1] == WIND_DIRECTION_NO_DATA_LINE <==> WindNoData(record))
    ensures var speed := WindLines(rt, record)[0];
      !WindNoData(record) ==>
        |speed| >= |WIND_SPEED_LABEL| + |WIND_SPEED_UNIT| &&
        speed[|WIND_SPEED_LABEL|..|speed| - |WIND_SPEED_UNIT|] == rt.formatFloat(F_SPACE_4_1, Decode(record).windSpeed)
    ensures var lines := WindLines(rt, record);
      !WindNoData(record) && record[16] <= 15 ==>
        lines[1] == WIND_DIRECTION_LABEL + COMPASS[record[16]] + "\n" &&
        CompassIndex(COMPASS[record[16]]) == Some(record[16] as nat)
    ensures !WindNoData(record) && record[16] > 15 ==> WindLines(rt, record)[1] == WIND_DIRECTION_LABEL + "\n"
  {
    var lines := WindLines(rt, record);
    if !WindNoData(record) {
      var speed := lines[0];
      Framed(WIND_SPEED_LABEL, rt.formatFloat(F_SPACE_4_1, Decode(record).windSpeed), WIND_SPEED_UNIT);
      assert speed[|speed| - 2] == 's';
      var direction := lines[1];
      assert direction[23] == ' ';
      if record[16] <= 15 {
        CompassRoundTrip(record[16]);
      }
    }
  }

  // The report as lines of text.

  /** A line whose text before its unit holds no newline is one line. */
  lemma FramedLine(heading: string, value: string, unit: string)
    requires '\n' !in heading && '\n' !in value && IsLine(unit)
    ensures IsLine(heading + value + unit)
  {
    var line := heading + value + unit;
    assert line[..|line| - 1] == heading + value + unit[..|unit| - 1];
  }

  /** The fixed lines and units of the report each end with their only newline. */
  lemma FixedLines()
    ensures IsLine(PRESSURE_NO_DATA_LINE) && IsLine(OUTDOOR_TEMPERATURE_NO_DATA_LINE)
    ensures IsLine(WIND_SPEED_NO_DATA_LINE) && IsLine(WIND_DIRECTION_NO_DATA_LINE)
    ensures IsLine(PRESSURE_UNIT) && IsLine(CELSIUS_UNIT) && IsLine(NO_DATA_TAIL) && IsLine(PERCENT_UNIT)
    ensures IsLine(WIND_SPEED_UNIT) && IsLine(RAIN_UNIT) && IsLine("\n")
  {
  }

  /** A humidity line is one line. */
  lemma HumidityLineIsLine(heading: string, h: Byte)
    requires '\n' !in heading
    ensures IsLine(HumidityLine(heading, h))
  {
    FixedLines();
    if HumidityNoData(h) {
      FramedLine(heading, "", NO_DATA_TAIL);
      assert HumidityLine(heading, h) == heading + "" + NO_DATA_TAIL;
    } else {
      assert AllDigits(DecimalString(h));
      FramedLine(heading, DecimalString(h), PERCENT_UNIT);
    }
  }

  /** The date line is one line when asctime's text is. */
  lemma DateLineIsLine(rt: Runtime, f: Fields, longDate: bool)
    requires PrintsLines(rt)
    ensures IsLine(DateLine(rt, f, longDate))
  {
    var text := rt.asctime(rt.localtime(EffectiveDate(f, longDate)));
    FramedLine(DATE_LABEL, "", text);
    assert DateLine(rt, f, longDate) == DATE_LABEL + "" + text;
  }

  lemma PressureLineIsLine(rt: Runtime, f: Fields)
    requires PrintsLines(rt)
    ensures IsLine(PressureLine(rt, f))
  {
    FixedLines();
    if !rt.pressureBelow700(f.pressure) {
      FramedLine(PRESSURE_LABEL, rt.formatFloat(F_6_1, f.pressure), PRESSURE_UNIT);
    }
  }

  lemma IndoorLinesAreLines(rt: Runtime, f: Fields)
    requires PrintsLines(rt)
    ensures forall k :: 0 <= k < 2 ==> IsLine(IndoorLines(rt, f)[k])
  {
    FixedLines();
    FramedLine(INDOOR_TEMPERATURE_LABEL, rt.formatFloat(F_LEFT_4_1, f.inTemp), CELSIUS_UNIT);
    HumidityLineIsLine(INDOOR_HUMIDITY_LABEL, f.inHumidity);
  }

  lemma OutdoorLinesAreLines(rt: Runtime, record: RawRecord)
    requires PrintsLines(rt)
    ensures forall k :: 0 <= k < 2 ==> IsLine(OutdoorLines(rt, record)[k])
  {
    FixedLines();
    if !OutTempNoData(record) {
      FramedLine(OUTDOOR_TEMPERATURE_LABEL, rt.formatFloat(F_LEFT_4_1, Decode(record).outTemp), CELSIUS_UNIT);
    }
    HumidityLineIsLine(OUTDOOR_HUMIDITY_LABEL, Decode(record).outHumidity);
  }

  lemma WindLinesAreLines(rt: Runtime, record: RawRecord)
    requires PrintsLines(rt)
    ensures forall k :: 0 <= k < 2 ==> IsLine(WindLines(rt, record)[k])
  {
    FixedLines();
    var f := Decode(record);
    if !WindNoData(record) {
      FramedLine(WIND_SPEED_LABEL, rt.formatFloat(F_SPACE_4_1, f.windSpeed), WIND_SPEED_UNIT);
      if 0 <= f.windDir < 16 {
        CompassLetters(f.windDir);
      }
      FramedLine(WIND_DIRECTION_LABEL, PointText(f.windDir), "\n");
    }
  }

  lemma RainLineIsLine(rt: Runtime, f: Fields)
    requires PrintsLines(rt)
    ensures IsLine(RainLine(rt, f))
  {
    FixedLines();
    FramedLine(RAIN_LABEL, rt.formatFloat(F_SPACE_6_1, f.rainTotal), RAIN_UNIT);
  }

  /** Every entry of the report is one line. */
  lemma ReportLinesAreLines(rt: Runtime, record: RawRecord, longDate: bool)
    requires PrintsLines(rt)
    ensures forall k :: 0 <= k < 9 ==> IsLine(ReportLines(rt, record, longDate)[k])
  {
    var f := Decode(record);
    ReportLinesParts(rt, record, longDate);
    DateLineIsLine(rt, f, longDate);
    PressureLineIsLine(rt, f);
    IndoorLinesAreLines(rt, f);
    OutdoorLinesAreLines(rt, record);
    WindLinesAreLines(rt, record);
    RainLineIsLine(rt, f);
  }

  /**
   * With a C library whose texts keep to their lines, the report splits at
   * its newlines into exactly its nine lines, each without its newline,
   * followed by the empty text after the last one.
   */
  lemma ReportSplitsIntoLines(rt: Runtime, record: RawRecord, longDate: bool)
    requires PrintsLines(rt)
    ensures var parts := Split(Report(rt, record, longDate), '\n');
      var lines := ReportLines(rt, record, longDate);
      |parts| == 10 && parts[9] == "" && forall k :: 0 <= k < 9 ==> parts[k] + "\n" == lines[k]
  {
    ReportLinesAreLines(rt, record, longDate);
    SplitLines(ReportLines(rt, record, longDate));
  }
}
