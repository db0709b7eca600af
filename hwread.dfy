/**
 * The program as a whole: one record decoded and printed either as the
 * compact tab-separated row (the default build) or as the labelled report
 * (the LONG_FORMAT build), and how the two renderings relate.
 */
module HwRead {
  import opened Bytes
  import opened Text
  import opened HistoryRecord
  import opened CRuntime
  import opened CompactRow
  import opened LongReport

  /**
   * What the program prints for the record it has read: the report under
   * LONG_FORMAT, otherwise the row followed by a newline (`printf("%s\n", outstr)`).
   */
  method Output(rt: Runtime, record: RawRecord, longFormat: bool, longDate: bool) returns (out: string)
    ensures out == if longFormat then Report(rt, record, longDate) else Row(rt, record, longDate) + "\n"
  {
    if longFormat {
      out := PrintReport(rt, record, longDate);
    } else {
      var row := FormatRow(rt, record, longDate);
      var stdout := new TextBuffer();
      stdout.Append(row + "\n");
      out := stdout.text;
    }
  }

  /**
   * The two renderings agree on which readings are missing: each report line
   * says "no data" exactly when the matching row column is a no-data column.
   * Both name the wind direction by the same compass point, and both print
   * the date through the same localtime result.
   */
  lemma RenderingsAgree(rt: Runtime, record: RawRecord, longDate: bool)
    requires PrintsFloats(rt)
    ensures var cols := Columns(rt, record, longDate); var lines := ReportLines(rt, record, longDate);
      (lines[1] == PRESSURE_NO_DATA_LINE <==> cols[0] == PRESSURE_NO_DATA) &&
      (lines[3] == INDOOR_HUMIDITY_LABEL + NO_DATA_TAIL <==> cols[2] == NO_DATA) &&
      (lines[4] == OUTDOOR_TEMPERATURE_NO_DATA_LINE <==> cols[3] == NO_DATA) &&
      (lines[5] == OUTDOOR_HUMIDITY_LABEL + NO_DATA_TAIL <==> cols[4] == NO_DATA) &&
      (lines[6] == WIND_SPEED_NO_DATA_LINE <==> cols[7] == NO_DATA) &&
      (lines[7] == WIND_DIRECTION_NO_DATA_LINE <==> cols[8] == NO_DATA)
    ensures !WindNoData(record) && record[16] <= 15 ==>
      ReportLines(rt, record, longDate)[7] == WIND_DIRECTION_LABEL + Columns(rt, record, longDate)[8] + "\n"
    ensures var cols := Columns(rt, record, longDate); var lines := ReportLines(rt, record, longDate);
      var tm := rt.localtime(EffectiveDate(Decode(record), longDate));
      lines[0] == DATE_LABEL + rt.asctime(tm) && (!longDate ==> cols[|cols| - 1] == DateText(tm))
  {
    PressureAgrees(rt, record, longDate);
    HumidityAgrees(rt, record, longDate);
    OutTempAgrees(rt, record, longDate);
    WindAgrees(rt, record, longDate);
    DateAgrees(rt, record, longDate);
  }

  lemma PressureAgrees(rt: Runtime, record: RawRecord, longDate: bool)
    requires PrintsFloats(rt)
    ensures ReportLines(rt, record, longDate)[1] == PRESSURE_NO_DATA_LINE <==>
      Columns(rt, record, longDate)[0] == PRESSURE_NO_DATA
  {
    ReportLinesParts(rt, record, longDate);
    PressureLineNoData(rt, Decode(record));
    PressureColumn(rt, record, longDate);
  }

  lemma HumidityAgrees(rt: Runtime, record: RawRecord, longDate: bool)
    ensures var cols := Columns(rt, record, longDate); var lines := ReportLines(rt, record, longDate);
      (lines[3] == INDOOR_HUMIDITY_LABEL + NO_DATA_TAIL <==> cols[2] == NO_DATA) &&
      (lines[5] == OUTDOOR_HUMIDITY_LABEL + NO_DATA_TAIL <==> cols[4] == NO_DATA)
  {
    var f := Decode(record);
    ReportLinesParts(rt, record, longDate);
    HumidityLineNoData(INDOOR_HUMIDITY_LABEL, f.inHumidity);
    HumidityLineNoData(OUTDOOR_HUMIDITY_LABEL, f.outHumidity);
    HumidityColumns(rt, record, longDate);
  }

  lemma OutTempAgrees(rt: Runtime, record: RawRecord, longDate: bool)
    requires PrintsFloats(rt)
    ensures ReportLines(rt, record, longDate)[4] == OUTDOOR_TEMPERATURE_NO_DATA_LINE <==>
      Columns(rt, record, longDate)[3] == NO_DATA
  {
    ReportLinesParts(rt, record, longDate);
    OutTempLineNoData(rt, record);
    OutTempColumn(rt, record, longDate);
  }

  lemma WindAgrees(rt: Runtime, record: RawRecord, longDate: bool)
    requires PrintsFloats(rt)
    ensures var cols := Columns(rt, record, longDate); var lines := ReportLines(rt, record, longDate);
      (lines[6] == WIND_SPEED_NO_DATA_LINE <==> cols[7] == NO_DATA) &&
      (lines[7] == WIND_DIRECTION_NO_DATA_LINE <==> cols[8] == NO_DATA)
    ensures !WindNoData(record) && record[16] <= 15 ==>
      ReportLines(rt, record, longDate)[7] == WIND_DIRECTION_LABEL + Columns(rt, record, longDate)[8] + "\n"
  {
    var f := Decode(record);
    var cols := Columns(rt, record, longDate);
    ReportLinesParts(rt, record, longDate);
    WindLinesNoData(rt, record);
    WindColumnsInRow(rt, record, longDate);
    if !WindNoData(record) && record[16] > 15 {
      assert cols[8] == rt.formatFloat(F_3_1, f.rainTotal);
      assert IsFloatText(cols[8]);
    }
  }

  lemma DateAgrees(rt: Runtime, record: RawRecord, longDate: bool)
    ensures var cols := Columns(rt, record, longDate); var lines := ReportLines(rt, record, longDate);
      var tm := rt.localtime(EffectiveDate(Decode(record), longDate));
      lines[0] == DATE_LABEL + rt.asctime(tm) && (!longDate ==> cols[|cols| - 1] == DateText(tm))
  {
    ReportLinesParts(rt, record, longDate);
  }

  /**
   * A worked record: stored date D8 05 8D 85 plus one hour, pressure
   * 33 33 7D 44, wind 5.0 m/s (00 00 A0 40) from the east, rainfall
   * 9A 99 19 3F, indoor 21.5 degrees (00 00 AC 41), outdoor temperature
   * marker, humidities 45 and 60 per cent; the unread bytes may hold
   * anything.
   */
  predicate IsExampleRecord(record: RawRecord) {
    record[4..8] == [0xE8, 0x13, 0x8D, 0x85] && record[8..12] == [0x33, 0x33, 0x7D, 0x44] &&
    record[12..16] == [0x00, 0x00, 0xA0, 0x40] && record[16] == 4 &&
    record[20..24] == [0x9A, 0x99, 0x19, 0x3F] && record[24..28] == [0x00, 0x00, 0xAC, 0x41] &&
    record[28..32] == [0x52, 0x38, 0xA2, 0x42] && record[32] == 45 && record[34] == 60
  }

  /**
   * The worked record's row.  The wind speed and indoor temperature begin
   * with a zero byte and so are printed as the float whose bytes are all zero.
   */
  lemma ExampleRow(rt: Runtime, record: RawRecord)
    requires IsExampleRecord(record)
    ensures var zero := Float32([0, 0, 0, 0]);
      var pressure := Float32([0x33, 0x33, 0x7D, 0x44]);
      EffectiveDate(Decode(record), false) == 3600 &&
      Columns(rt, record, false) == [
        if rt.pressureBelow700(pressure) then PRESSURE_NO_DATA else rt.formatFloat(F_5_1, pressure),
        rt.formatFloat(F_LEFT_4_1, zero), "45", NO_DATA, "60", NO_DATA, NO_DATA,
        rt.formatFloat(F_4_1, zero), "E ",
        rt.formatFloat(F_3_1, Float32([0x9A, 0x99, 0x19, 0x3F])),
        DateText(rt.localtime(3600))]
  {
    ExampleFields(record);
    assert !WindNoData(record) by {
      assert record[14] == record[12..16][2];
    }
    OutTempNoDataIsMarker(record);
    ExampleColumns(rt, record);
  }

  /** The row of a record whose fields and markers are the worked record's. */
  lemma ExampleColumns(rt: Runtime, record: RawRecord)
    requires var f := Decode(record); var zero := Float32([0, 0, 0, 0]);
      f.windSpeed == zero && f.windDir == 4 && f.inTemp == zero &&
      f.inHumidity == 45 && f.outHumidity == 60 && EffectiveDate(f, false) == 3600 &&
      f.rainTotal == Float32([0x9A, 0x99, 0x19, 0x3F]) && f.pressure == Float32([0x33, 0x33, 0x7D, 0x44])
    requires !WindNoData(record) && OutTempNoData(record)
    ensures var zero := Float32([0, 0, 0, 0]);
      var pressure := Float32([0x33, 0x33, 0x7D, 0x44]);
      Columns(rt, record, false) == [
        if rt.pressureBelow700(pressure) then PRESSURE_NO_DATA else rt.formatFloat(F_5_1, pressure),
        rt.formatFloat(F_LEFT_4_1, zero), "45", NO_DATA, "60", NO_DATA, NO_DATA,
        rt.formatFloat(F_4_1, zero), "E ",
        rt.formatFloat(F_3_1, Float32([0x9A, 0x99, 0x19, 0x3F])),
        DateText(rt.localtime(3600))]
  {
    var f := Decode(record);
    var zero := Float32([0, 0, 0, 0]);
    SmallDecimals();
    var left := [PressureText(rt, f)] + [rt.formatFloat(F_LEFT_4_1, zero), "45"] + [NO_DATA, "60"];
    var right := [NO_DATA] + [NO_DATA] + [rt.formatFloat(F_4_1, zero), "E "];
    assert IndoorColumns(rt, f) == [rt.formatFloat(F_LEFT_4_1, zero), "45"];
    assert OutdoorColumns(rt, record) == [NO_DATA, "60"];
    assert WindColumns(rt, record) == [rt.formatFloat(F_4_1, zero), "E "];
    assert left == [PressureText(rt, f), rt.formatFloat(F_LEFT_4_1, zero), "45", NO_DATA, "60"];
    assert right == [NO_DATA, NO_DATA, rt.formatFloat(F_4_1, zero), "E "];
  }

  /** The fields copied out of the worked record. */
  lemma ExampleFields(record: RawRecord)
    requires IsExampleRecord(record)
    ensures var f := Decode(record); var zero := Float32([0, 0, 0, 0]);
      f.pressure == Float32([0x33, 0x33, 0x7D, 0x44]) && f.windSpeed == zero && f.windDir == 4 &&
      f.rainTotal == Float32([0x9A, 0x99, 0x19, 0x3F]) && f.inTemp == zero &&
      f.inHumidity == 45 && f.outHumidity == 60 && EffectiveDate(f, false) == 3600
  {
    DateRoundTrip(record, 3600);
    CopyWordLeadingZero(record, 12);
    CopyWordLeadingZero(record, 24);
    StrNCpyExact(record[8..12], 4);
    StrNCpyExact(record[20..24], 4);
  }

  lemma SmallDecimals()
    ensures DecimalString(45) == "45" && DecimalString(60) == "60"
  {
  }
}
