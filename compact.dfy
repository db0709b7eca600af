/**
 * The default rendering of a record: one tab-separated row, built by
 * successive `sprintf` appends into `outstr`.  Columns, in order: pressure,
 * indoor temperature, indoor humidity, outdoor temperature, outdoor humidity,
 * dew point, wind chill, wind speed, wind direction, total rainfall, date.
 */
module CompactRow {
  import opened Wrappers
  import opened Bytes
  import opened Text
  import opened HistoryRecord
  import opened Wind
  import opened CRuntime

  const TAB: char := '\t'

  /** What a column holds when its sensor gave no reading. */
  const NO_DATA: string := " - "

  /** The pressure column when the pressure is below 700. */
  const PRESSURE_NO_DATA: string := "  -  "

  /** The date as `%4d-%02d-%02d %02d:%02d:%02d` of tm_year+1900, tm_mon+1, tm_mday, ... */
  function DateText(tm: Tm): string {
    FormatUnsigned(tm.tmYear + 1900, 4, ' ') + "-" + FormatUnsigned(tm.tmMon + 1, 2, '0') + "-"
    + FormatUnsigned(tm.tmMday, 2, '0') + " " + FormatUnsigned(tm.tmHour, 2, '0') + ":"
    + FormatUnsigned(tm.tmMin, 2, '0') + ":" + FormatUnsigned(tm.tmSec, 2, '0')
  }

  /** A padded number holds only its pad character and digits. */
  lemma FormatUnsignedHasNoTab(n: nat, width: nat, pad: char)
    requires pad != TAB
    ensures TAB !in FormatUnsigned(n, width, pad)
  {
    var digits := DecimalString(n);
    assert TAB !in digits;
    if |digits| < width {
      assert TAB !in seq(width - |digits|, _ => pad);
    }
  }

  lemma DateTextHasNoTab(tm: Tm)
    ensures TAB !in DateText(tm)
  {
    var y := FormatUnsigned(tm.tmYear + 1900, 4, ' ');
    var mo := FormatUnsigned(tm.tmMon + 1, 2, '0');
    var d := FormatUnsigned(tm.tmMday, 2, '0');
    var h := FormatUnsigned(tm.tmHour, 2, '0');
    var mi := FormatUnsigned(tm.tmMin, 2, '0');
    var se := FormatUnsigned(tm.tmSec, 2, '0');
    FormatUnsignedHasNoTab(tm.tmYear + 1900, 4, ' ');
    FormatUnsignedHasNoTab(tm.tmMon + 1, 2, '0');
    FormatUnsignedHasNoTab(tm.tmMday, 2, '0');
    FormatUnsignedHasNoTab(tm.tmHour, 2, '0');
    FormatUnsignedHasNoTab(tm.tmMin, 2, '0');
    FormatUnsignedHasNoTab(tm.tmSec, 2, '0');
    var date := y + "-" + mo + "-" + d;
    var time := h + ":" + mi + ":" + se;
    assert TAB !in date;
    assert TAB !in time;
    assert DateText(tm) == date + " " + time;
  }

  /** A field sits at its own offset in a concatenation. */
  lemma FieldAt(field: string, after: string, before: string)
    ensures (before + field + after)[|before|..|before| + |field|] == field
  {
  }

  /** Where each field of a `YYYY-MM-DD hh:mm:ss` text sits. */
  lemma DateLayout(y: string, mo: string, d: string, h: string, mi: string, se: string)
    requires |y| == 4 && |mo| == 2 && |d| == 2 && |h| == 2 && |mi| == 2 && |se| == 2
    ensures var s := y + "-" + mo + "-" + d + " " + h + ":" + mi + ":" + se;
      |s| == 19 && s[4] == '-' && s[7] == '-' && s[10] == ' ' && s[13] == ':' && s[16] == ':' &&
      s[0..4] == y && s[5..7] == mo && s[8..10] == d && s[11..13] == h && s[14..16] == mi && s[17..19] == se
  {
    var s := y + "-" + mo + "-" + d + " " + h + ":" + mi + ":" + se;
    assert s[5..7] == mo by { FieldAt(mo, "-" + d + " " + h + ":" + mi + ":" + se, y + "-"); }
    assert s[8..10] == d by { FieldAt(d, " " + h + ":" + mi + ":" + se, y + "-" + mo + "-"); }
    assert s[11..13] == h by { FieldAt(h, ":" + mi + ":" + se, y + "-" + mo + "-" + d + " "); }
    assert s[14..16] == mi by { FieldAt(mi, ":" + se, y + "-" + mo + "-" + d + " " + h + ":"); }
  }

  /**
   * For calendar fields of the usual widths the date text is 19 characters,
   * `YYYY-MM-DD hh:mm:ss`, and each numeric field reads back as the value
   * printed: the year plus 1900, the month plus 1, the rest unchanged.
   */
  lemma DateTextFields(tm: Tm)
    requires tm.tmYear + 1900 < 10000 && tm.tmMon + 1 < 100 && tm.tmMday < 100
    requires tm.tmHour < 100 && tm.tmMin < 100 && tm.tmSec < 100
    ensures var s := DateText(tm);
      |s| == 19 && s[4] == '-' && s[7] == '-' && s[10] == ' ' && s[13] == ':' && s[16] == ':' &&
      ReadsAs(s[0..4], tm.tmYear + 1900) && ReadsAs(s[5..7], tm.tmMon + 1) &&
      ReadsAs(s[8..10], tm.tmMday) && ReadsAs(s[11..13], tm.tmHour) &&
      ReadsAs(s[14..16], tm.tmMin) && ReadsAs(s[17..19], tm.tmSec)
  {
    FourDigitField(tm.tmYear + 1900);
    TwoDigitField(tm.tmMon + 1);
    TwoDigitField(tm.tmMday);
    TwoDigitField(tm.tmHour);
    TwoDigitField(tm.tmMin);
    TwoDigitField(tm.tmSec);
    DateLayout(FormatUnsigned(tm.tmYear + 1900, 4, ' '), FormatUnsigned(tm.tmMon + 1, 2, '0'),
      FormatUnsigned(tm.tmMday, 2, '0'), FormatUnsigned(tm.tmHour, 2, '0'),
      FormatUnsigned(tm.tmMin, 2, '0'), FormatUnsigned(tm.tmSec, 2, '0'));
  }

  /** A humidity column: the percentage in decimal, or no data above 100. */
  function HumidityText(h: Byte): string {
    if HumidityNoData(h) then NO_DATA else DecimalString(h)
  }

  /** A shown humidity is never mistaken for no data, and reads back as the byte. */
  lemma HumidityTextReadsBack(h: Byte)
    ensures HumidityText(h) == NO_DATA <==> HumidityNoData(h)
    ensures !HumidityNoData(h) ==> ReadsAs(HumidityText(h), h)
  {
    if !HumidityNoData(h) {
      var s := DecimalString(h);
      assert IsDigit(s[0]);
      DecimalRoundTrip(h);
    }
  }

  /**
   * The date column: the localtime of the shifted date, or, in the LONG_DATE
   * build, the stored date as `%lu`.
   */
  function DateColumn(rt: Runtime, f: Fields, longDate: bool): string {
    if longDate then DecimalString(f.date) else DateText(rt.localtime(EffectiveDate(f, false)))
  }

  /**
   * The date column holds no tab.  In the default build it is the date text
   * of the shifted date's localtime; in the LONG_DATE build it reads back as
   * the stored date.
   */
  lemma DateColumnText(rt: Runtime, f: Fields, longDate: bool)
    ensures TAB !in DateColumn(rt, f, longDate)
    ensures !longDate ==> DateColumn(rt, f, longDate) == DateText(rt.localtime(ShiftDate(f.date)))
    ensures longDate ==> ReadsAs(DateColumn(rt, f, longDate), f.date)
  {
    if longDate {
      DecimalRoundTrip(f.date);
    } else {
      DateTextHasNoTab(rt.localtime(ShiftDate(f.date)));
    }
  }

  /**
   * The wind speed and direction columns: two no-data columns under the
   * wind marker; otherwise the speed and, for an index 0..15, the compass
   * point (an index above 15 gives no column at all).
   */
  function WindColumns(rt: Runtime, record: RawRecord): (cols: seq<string>)
    ensures |cols| == if !WindNoData(record) && record[16] > 15 then 1 else 2
  {
    var f := Decode(record);
    if WindNoData(record) then [NO_DATA, NO_DATA]
    else
      [rt.formatFloat(F_4_1, f.windSpeed)]
      + match CompassPoint(f.windDir) case Some(p) => [p] case None => []
  }

  /** The pressure column: dashes below 700, otherwise `%5.1f`. */
  function PressureText(rt: Runtime, f: Fields): string {
    if rt.pressureBelow700(f.pressure) then PRESSURE_NO_DATA else rt.formatFloat(F_5_1, f.pressure)
  }

  /** Printed pressure text is never the dashes, so they mark exactly the low readings. */
  lemma PressureTextNoData(rt: Runtime, f: Fields)
    requires PrintsFloats(rt)
    ensures PressureText(rt, f) == PRESSURE_NO_DATA <==> rt.pressureBelow700(f.pressure)
    ensures !rt.pressureBelow700(f.pressure) ==> IsFloatText(PressureText(rt, f))
  {
    assert IsFloatText(rt.formatFloat(F_5_1, f.pressure));
  }

  /** The outdoor temperature column: no data under the marker, otherwise `%-4.1f`. */
  function OutTempText(rt: Runtime, record: RawRecord): string {
    if OutTempNoData(record) then NO_DATA else rt.formatFloat(F_LEFT_4_1, Decode(record).outTemp)
  }

  /** A printed temperature is never the no-data text, so that text marks exactly the marker. */
  lemma OutTempTextNoData(rt: Runtime, record: RawRecord)
    requires PrintsFloats(rt)
    ensures OutTempText(rt, record) == NO_DATA <==> OutTempNoData(record)
    ensures !OutTempNoData(record) ==> IsFloatText(OutTempText(rt, record))
  {
    assert IsFloatText(rt.formatFloat(F_LEFT_4_1, Decode(record).outTemp));
  }

  /** The indoor temperature (`%-4.1f`) and humidity columns. */
  function IndoorColumns(rt: Runtime, f: Fields): seq<string> {
    [rt.formatFloat(F_LEFT_4_1, f.inTemp), HumidityText(f.inHumidity)]
  }

  /** The outdoor temperature and humidity columns. */
  function OutdoorColumns(rt: Runtime, record: RawRecord): seq<string> {
    [OutTempText(rt, record), HumidityText(Decode(record).outHumidity)]
  }

  /** The last two columns: total rainfall and the date. */
  function Tail(rt: Runtime, f: Fields, longDate: bool): seq<string> {
    [rt.formatFloat(F_3_1, f.rainTotal), DateColumn(rt, f, longDate)]
  }

  /** The row's columns in order, without their separating tabs. */
  function Columns(rt: Runtime, record: RawRecord, longDate: bool): (cols: seq<string>)
    ensures |cols| == if !WindNoData(record) && record[16] > 15 then 10 else 11
  {
    var f := Decode(record);
    [PressureText(rt, f)] + IndoorColumns(rt, f) + OutdoorColumns(rt, record)
    + [NO_DATA] + [NO_DATA]  // dew point, wind chill
    + WindColumns(rt, record) + Tail(rt, f, longDate)
  }

  /** The row printed for a record: its columns joined by tabs. */
  function Row(rt: Runtime, record: RawRecord, longDate: bool): string {
    Join(Columns(rt, record, longDate), TAB)
  }

  /** `sprintf_wind`: append a tab and the compass point, or nothing for an index above 15. */
  method SprintfWind(outstr: TextBuffer, windDir: int)
    modifies outstr
    ensures outstr.text == old(outstr.text) + match CompassPoint(windDir) case Some(p) => [TAB] + p case None => ""
  {
    match CompassPoint(windDir)
    case Some(p) => outstr.Append([TAB] + p);
    case None =>
  }

  /** `sprintf(outstr, "%s\t<column>", outstr)`: one more column on the row. */
  method AppendColumn(outstr: TextBuffer, ghost cols: seq<string>, column: string) returns (ghost cols': seq<string>)
    requires |cols| >= 1 && outstr.text == Join(cols, TAB)
    modifies outstr
    ensures cols' == cols + [column] && outstr.text == Join(cols', TAB)
  {
    outstr.Append([TAB] + column);
    cols' := cols + [column];
    assert cols'[..|cols'| - 1] == cols;
  }

  /**
   * A column guarded by a "no data" test: `sprintf(outstr, "%s\t - ", outstr)`
   * when the test holds, otherwise the value is appended.
   */
  method AppendUnlessNoData(outstr: TextBuffer, ghost cols: seq<string>, noData: bool, value: string)
    returns (ghost cols': seq<string>)
    requires |cols| >= 1 && outstr.text == Join(cols, TAB)
    modifies outstr
    ensures cols' == cols + [if noData then NO_DATA else value] && outstr.text == Join(cols', TAB)
  {
    if noData {
      cols' := AppendColumn(outstr, cols, NO_DATA);
    } else {
      cols' := AppendColumn(outstr, cols, value);
    }
  }

  /**
   * The wind columns: two no-data columns under the wind marker, otherwise
   * the speed (already printed as `speed`) followed by `sprintf_wind`.
   */
  method AppendWind(outstr: TextBuffer, ghost cols: seq<string>, rt: Runtime, record: RawRecord, speed: string)
    returns (ghost cols': seq<string>)
    requires speed == rt.formatFloat(F_4_1, Decode(record).windSpeed)
    requires |cols| >= 1 && outstr.text == Join(cols, TAB)
    modifies outstr
    ensures cols' == cols + WindColumns(rt, record) && outstr.text == Join(cols', TAB)
  {
    ghost var wind := WindColumns(rt, record);
    if record[12] == 0x00 && record[13] == 0x00 && record[14] == 0x4C && record[15] == 0x42 {
      assert wind == [NO_DATA, NO_DATA];
      cols' := AppendColumn(outstr, cols, NO_DATA);
      cols' := AppendColumn(outstr, cols', NO_DATA);
    } else {
      ghost var point := CompassPoint(Decode(record).windDir);
      assert Decode(record).windDir == record[16];
      assert wind == [speed] + match point case Some(p) => [p] case None => [];
      cols' := AppendColumn(outstr, cols, speed);
      SprintfWind(outstr, record[16]);
      match point
      case Some(p) =>
        assert (cols' + [p])[..|cols'|] == cols';
        cols' := cols' + [p];
      case None =>
    }
  }

  /** The indoor columns, appended one `sprintf` at a time. */
  method AppendIndoor(outstr: TextBuffer, ghost cols: seq<string>, rt: Runtime, f: Fields)
    returns (ghost cols': seq<string>)
    requires |cols| >= 1 && outstr.text == Join(cols, TAB)
    modifies outstr
    ensures cols' == cols + IndoorColumns(rt, f) && outstr.text == Join(cols', TAB)
  {
    var inTemp := rt.formatFloat(F_LEFT_4_1, f.inTemp);
    cols' := AppendColumn(outstr, cols, inTemp);
    cols' := AppendUnlessNoData(outstr, cols', f.inHumidity > 100, DecimalString(f.inHumidity));
  }

  /** The outdoor columns; the temperature marker is tested on the raw bytes 28-31. */
  method AppendOutdoor(outstr: TextBuffer, ghost cols: seq<string>, rt: Runtime, record: RawRecord)
    returns (ghost cols': seq<string>)
    requires |cols| >= 1 && outstr.text == Join(cols, TAB)
    modifies outstr
    ensures cols' == cols + OutdoorColumns(rt, record) && outstr.text == Join(cols', TAB)
  {
    var f := Decode(record);
    var outTemp := rt.formatFloat(F_LEFT_4_1, f.outTemp);
    cols' := AppendUnlessNoData(outstr, cols,
      record[28] == 0x52 && record[29] == 0x38 && record[30] == 0xA2 && record[31] == 0x42, outTemp);
    cols' := AppendUnlessNoData(outstr, cols', f.outHumidity > 100, DecimalString(f.outHumidity));
  }

  /** The rainfall and date columns; `time` is the localtime of the date. */
  method AppendTail(outstr: TextBuffer, ghost cols: seq<string>, rt: Runtime, f: Fields, longDate: bool,
                    date: U32, time: Tm)
    returns (ghost cols': seq<string>)
    requires date == EffectiveDate(f, longDate) && time == rt.localtime(date)
    requires |cols| >= 1 && outstr.text == Join(cols, TAB)
    modifies outstr
    ensures cols' == cols + Tail(rt, f, longDate) && outstr.text == Join(cols', TAB)
  {
    var rainTotal := rt.formatFloat(F_3_1, f.rainTotal);
    cols' := AppendColumn(outstr, cols, rainTotal);
    if !longDate {
      cols' := AppendColumn(outstr, cols', DateText(time));
    } else {
      cols' := AppendColumn(outstr, cols', DecimalString(date));
    }
  }

  /**
   * Decodes the record and builds its row as hwread.c does, append by append.
   * The C library's results (the pressure test, localtime, float texts) are
   * taken before the buffer is written.
   */
  method FormatRow(rt: Runtime, record: RawRecord, longDate: bool) returns (row: string)
    ensures row == Row(rt, record, longDate)
  {
    var f := Decode(record);
    var date := f.date;
    if !longDate {
      date := ShiftDate(date);
    }
    var time := rt.localtime(date);
    var pressureLow := rt.pressureBelow700(f.pressure);
    var pressure := rt.formatFloat(F_5_1, f.pressure);
    var windSpeed := rt.formatFloat(F_4_1, f.windSpeed);

    var outstr := new TextBuffer();
    ghost var cols: seq<string>;
    if pressureLow {
      outstr.Write(PRESSURE_NO_DATA);
    } else {
      outstr.Write(pressure);
    }
    cols := [PressureText(rt, f)];
    cols := AppendIndoor(outstr, cols, rt, f);
    cols := AppendOutdoor(outstr, cols, rt, record);
    cols := AppendColumn(outstr, cols, NO_DATA);  // dew point
    cols := AppendColumn(outstr, cols, NO_DATA);  // wind chill
    cols := AppendWind(outstr, cols, rt, record, windSpeed);
    cols := AppendTail(outstr, cols, rt, f, longDate, date, time);
    row := outstr.text;
  }

  // Properties of the row.

  /**
   * Splitting the row at its tabs gives back the columns: 11 of them, or 10
   * when the wind marker is absent and the direction index is above 15.
   */
  lemma RowSplitsIntoColumns(rt: Runtime, record: RawRecord, longDate: bool)
    requires PrintsFloats(rt)
    ensures Split(Row(rt, record, longDate), TAB) == Columns(rt, record, longDate)
    ensures |Split(Row(rt, record, longDate), TAB)| == if !WindNoData(record) && record[16] > 15 then 10 else 11
  {
    ColumnsHaveNoTab(rt, record, longDate);
    SplitJoin(Columns(rt, record, longDate), TAB);
  }

  /** No column holds a tab, so the tabs of the row are exactly its separators. */
  lemma ColumnsHaveNoTab(rt: Runtime, record: RawRecord, longDate: bool)
    requires PrintsFloats(rt)
    ensures NoSeparator(Columns(rt, record, longDate), TAB)
  {
    var f := Decode(record);
    var pressure := [PressureText(rt, f)];
    var indoor := IndoorColumns(rt, f);
    var outdoor := OutdoorColumns(rt, record);
    var wind := WindColumns(rt, record);
    var tail := Tail(rt, f, longDate);
    assert NoSeparator(pressure, TAB) by {
      assert IsFloatText(rt.formatFloat(F_5_1, f.pressure));
    }
    assert NoSeparator(indoor, TAB) by {
      assert IsFloatText(rt.formatFloat(F_LEFT_4_1, f.inTemp));
      assert AllDigits(DecimalString(f.inHumidity));
    }
    assert NoSeparator(outdoor, TAB) by {
      assert IsFloatText(rt.formatFloat(F_LEFT_4_1, f.outTemp));
      assert AllDigits(DecimalString(f.outHumidity));
    }
    WindColumnsHaveNoTab(rt, record);
    assert NoSeparator(tail, TAB) by {
      assert IsFloatText(rt.formatFloat(F_3_1, f.rainTotal));
      assert AllDigits(DecimalString(f.date));
      DateTextHasNoTab(rt.localtime(EffectiveDate(f, false)));
    }
    NoSeparatorAppend(pressure, indoor);
    NoSeparatorAppend(pressure + indoor, outdoor);
    NoSeparatorAppend(pressure + indoor + outdoor, [NO_DATA]);
    NoSeparatorAppend(pressure + indoor + outdoor + [NO_DATA], [NO_DATA]);
    NoSeparatorAppend(pressure + indoor + outdoor + [NO_DATA] + [NO_DATA], wind);
    NoSeparatorAppend(pressure + indoor + outdoor + [NO_DATA] + [NO_DATA] + wind, tail);
  }

  /** The wind columns hold a float text, a compass point or the no-data text: never a tab. */
  lemma WindColumnsHaveNoTab(rt: Runtime, record: RawRecord)
    requires PrintsFloats(rt)
    ensures NoSeparator(WindColumns(rt, record), TAB)
  {
    var f := Decode(record);
    var speed := rt.formatFloat(F_4_1, f.windSpeed);
    assert IsFloatText(speed);
    if !WindNoData(record) {
      match CompassPoint(f.windDir)
      case Some(p) =>
        CompassLetters(f.windDir);
        assert WindColumns(rt, record) == [speed, p];
      case None =>
        assert WindColumns(rt, record) == [speed];
    }
  }

  lemma NoSeparatorAppend(a: seq<string>, b: seq<string>)
    requires NoSeparator(a, TAB) && NoSeparator(b, TAB)
    ensures NoSeparator(a + b, TAB)
  {
    forall k | 0 <= k < |a + b|
      ensures TAB !in (a + b)[k]
    {
      if k >= |a| {
        assert (a + b)[k] == b[k - |a|];
      }
    }
  }

  /** The pressure column is the no-data dashes exactly when the pressure is below 700. */
  lemma PressureColumn(rt: Runtime, record: RawRecord, longDate: bool)
    requires PrintsFloats(rt)
    ensures var p := Decode(record).pressure;
      (Columns(rt, record, longDate)[0] == PRESSURE_NO_DATA <==> rt.pressureBelow700(p)) &&
      (!rt.pressureBelow700(p) ==> Columns(rt, record, longDate)[0] == rt.formatFloat(F_5_1, p))
  {
    var p := Decode(record).pressure;
    var s := rt.formatFloat(F_5_1, p);
    assert IsFloatText(s);
  }

  /**
   * Each humidity column is no data exactly when its byte is above 100;
   * otherwise it is the byte in decimal, which reads back as the byte.
   */
  lemma HumidityColumns(rt: Runtime, record: RawRecord, longDate: bool)
    ensures var cols := Columns(rt, record, longDate);
      (cols[2] == NO_DATA <==> record[32] > 100) &&
      (cols[4] == NO_DATA <==> record[34] > 100) &&
      (record[32] <= 100 ==> AllDigits(cols[2]) && DecimalValue(cols[2]) == record[32]) &&
      (record[34] <= 100 ==> AllDigits(cols[4]) && DecimalValue(cols[4]) == record[34])
  {
    var f := Decode(record);
    HumidityTextReadsBack(f.inHumidity);
    HumidityTextReadsBack(f.outHumidity);
  }

  /**
   * The outdoor temperature column is no data exactly when bytes 28-31 hold
   * the marker; otherwise it is the copied float printed with `%-4.1f`.
   */
  lemma OutTempColumn(rt: Runtime, record: RawRecord, longDate: bool)
    requires PrintsFloats(rt)
    ensures var cols := Columns(rt, record, longDate);
      (cols[3] == NO_DATA <==> OutTempNoData(record)) &&
      (!OutTempNoData(record) ==> cols[3] == rt.formatFloat(F_LEFT_4_1, Decode(record).outTemp))
  {
    var s := rt.formatFloat(F_LEFT_4_1, Decode(record).outTemp);
    assert IsFloatText(s);
  }

  /**
   * Under the wind marker both wind columns are no data, whatever byte 16
   * holds, and the row keeps 11 columns.  Otherwise the speed is printed and
   * the direction column, when there is one, reads back as byte 16.
   */
  lemma WindColumnsInRow(rt: Runtime, record: RawRecord, longDate: bool)
    requires PrintsFloats(rt)
    ensures var cols := Columns(rt, record, longDate);
      (WindNoData(record) ==> |cols| == 11 && cols[7] == NO_DATA && cols[8] == NO_DATA) &&
      (!WindNoData(record) ==> cols[7] == rt.formatFloat(F_4_1, Decode(record).windSpeed) && cols[7] != NO_DATA) &&
      (!WindNoData(record) && record[16] <= 15 ==>
        cols[8] == COMPASS[record[16]] && CompassIndex(cols[8]) == Some(record[16] as nat))
  {
    var s := rt.formatFloat(F_4_1, Decode(record).windSpeed);
    assert IsFloatText(s);
    if !WindNoData(record) && record[16] <= 15 {
      CompassRoundTrip(record[16]);
    }
  }

  /**
   * The columns that never depend on a marker: indoor temperature and
   * rainfall are always printed, dew point and wind chill are always no
   * data, and the date comes last.
   */
  lemma FixedColumns(rt: Runtime, record: RawRecord, longDate: bool)
    ensures var cols := Columns(rt, record, longDate); var f := Decode(record);
      cols[1] == rt.formatFloat(F_LEFT_4_1, f.inTemp) &&
      cols[5] == NO_DATA && cols[6] == NO_DATA &&
      cols[|cols| - 2] == rt.formatFloat(F_3_1, f.rainTotal) &&
      cols[|cols| - 1] == DateColumn(rt, f, longDate)
  {
  }

  /**
   * The last column: in the default build the localtime of the shifted date
   * as `YYYY-MM-DD hh:mm:ss`; in the LONG_DATE build the stored date, which
   * reads back unshifted.
   */
  lemma DateColumnInRow(rt: Runtime, record: RawRecord, longDate: bool)
    ensures var cols := Columns(rt, record, longDate); var f := Decode(record);
      (!longDate ==> cols[|cols| - 1] == DateText(rt.localtime(ShiftDate(f.date)))) &&
      (longDate ==> AllDigits(cols[|cols| - 1]) && DecimalValue(cols[|cols| - 1]) == f.date)
  {
    DecimalRoundTrip(Decode(record).date);
  }
}
