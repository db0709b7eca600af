# hwread record codec in Dafny

This project models the record codec of `hwread.c`. The program reads one
36-byte record of a Heavy Weather `history.dat` file (a weather station's
binary log) and prints the record in one of two forms:

- the default build prints a compact tab-separated row;
- the `LONG_FORMAT` build prints a labelled report.

The model covers:

- copying each field out of the record buffer. The 4-byte values use
  `strncpy`; wind direction and both humidities are read as single bytes.
- the "no data" tests:
  - wind: raw bytes 12-15 are `00 00 4C 42`;
  - outdoor temperature: raw bytes 28-31 are `52 38 A2 42`;
  - humidity: the byte is above 100;
  - pressure: the float is below 700.
- the shift of the stored date onto the Unix epoch. It subtracts 2240611800
  with unsigned wrap-around and is skipped in the `LONG_DATE` build.
- the 16-point compass table shared by `printf_wind` and `sprintf_wind`.
- the compact row, built by successive appends to `outstr` and followed by
  a newline.
- the labelled report, built by successive `printf` calls.

Module layout:

| file | module | what it holds |
|---|---|---|
| `wrappers.dfy` | `Wrappers` | `Option` |
| `bytes.dfy` | `Bytes` | bytes, 4-byte words, `strncpy` and the little-endian reading of a word |
| `text.dfy` | `Text` | decimal rendering and its inverse; `%4d`/`%02d` padding; joining and splitting on a separator; `TextBuffer`, the buffer that `sprintf` and `printf` append to |
| `record.dfy` | `HistoryRecord` | the record layout, `Decode`, the markers and the date shift |
| `wind.dfy` | `Wind` | the compass table and its inverse |
| `cruntime.dfy` | `CRuntime` | the C library the codec calls |
| `compact.dfy` | `CompactRow` | the default row |
| `report.dfy` | `LongReport` | the `LONG_FORMAT` report |
| `hwread.dfy` | `HwRead` | the choice between the two outputs and how they relate, plus a worked record |

The C library calls are passed in as a `Runtime` value: `%f` printing, the
`< 700` comparison, `localtime` and `asctime`. Every result is therefore
proved for any behaviour of those functions. Where a result needs the float
text to contain no tab, it assumes `PrintsFloats` (the text has no tab and
at least one letter or digit). Where a result needs the report to split
into its lines, it assumes `PrintsLines` (the float text has no newline and
asctime's text is exactly one line).

Three results of the code may not be what the reader expects:

- **The row has 11 or 10 columns.** `sprintf_wind` appends nothing for a
  direction byte above 15, so when the wind marker is absent and byte 16 is
  above 15 the row has 10 columns.
- **The no-data columns are not all alike.** Every no-data column of the
  row is the three characters space, dash, space (`" - "`), except
  pressure's, which is the five characters `"  -  "` (`hwread.c:262`).
- **strncpy stops at the first zero byte.** A float whose first stored byte is
  zero is copied as four zero bytes, so it is printed as 0.0. Examples are
  21.5 (`00 00 AC 41`) and 23.5 (`00 00 BC 41`); the source's own comment at
  `hwread.c:48` notes 23.5 read as 0.0. A date whose low byte is zero is read
  as 0 and shifted to 2054355496.

The model follows the code in all three cases.

## Model

| member | source | states |
|---|---|---|
| Bytes.StrNCpy | hwread.c:157-166 | The copy has `n` bytes. Byte `i` is the source byte unless a zero byte came before it, in which case it is zero. |
| Bytes.StrNCpyShape | hwread.c:157-166 | The copy equals the source up to and including the first zero byte, and is zero after it. With no zero byte, the copy is exact. |
| Bytes.StrNCpyIdempotent | hwread.c:157-166 | Copying a copy gives the same copy. |
| Bytes.StrNCpyExact | hwread.c:157-166 | A word with no zero byte is copied unchanged. |
| Bytes.LeadingZeroErasesWord | hwread.c:157-166 | A word whose first byte is zero is copied as four zero bytes, whatever follows. |
| Bytes.ZeroIndex | hwread.c:157-166 | The first zero byte's index: the byte there is zero, and no zero comes before it. |
| Bytes.IsStrNCpyOf | hwread.c:157-166 | The strncpy relation on its own, as used by `StrNCpy` and `Decode`: byte `i` of the copy is the source byte, or zero once a zero byte has gone before. |
| Bytes.LE32OfToLE32 | hwread.c:157 | Storing an unsigned 32-bit value little-endian and reading it back gives the value. |
| Bytes.ToLE32OfLE32 | hwread.c:157 | Reading a word as a little-endian value and storing it again gives the word. |
| HistoryRecord.Decode | hwread.c:157-174 | The date word and the five float words are the strncpy copies of their slices (offsets 4, 8, 12, 20, 24, 28). Wind direction and both humidities are bytes 16, 32 and 34. |
| HistoryRecord.DecodeIgnoresUnreadBytes | hwread.c:157-174 | Records that agree on bytes 4-16, 20-32 and 34 decode to the same fields. Bytes 0-3, 17-19, 33 and 35 are never read. |
| HistoryRecord.WindMarkerLostByCopy | hwread.c:159 | Under the wind marker the copied wind speed is all zeros, so the marker can only be tested on the raw record. |
| HistoryRecord.OutTempMarkerSurvivesCopy | hwread.c:166 | The outdoor temperature marker has no zero byte, so it survives the copy intact. |
| HistoryRecord.CopyWordIntact | hwread.c:157-166 | A 4-byte field with no zero byte is copied into its local unchanged. |
| HistoryRecord.CopyWordLeadingZero | hwread.c:157-166 | A 4-byte field whose first stored byte is zero is copied as four zero bytes, so 21.5 (`00 00 AC 41`) and 23.5 (`00 00 BC 41`) read as 0.0. |
| HistoryRecord.WindNoDataIsMarker | hwread.c:246-247 | The wind test holds exactly when raw bytes 12-15 are the word `00 00 4C 42`. |
| HistoryRecord.OutTempNoDataIsMarker | hwread.c:232-233 | The outdoor temperature test holds exactly when raw bytes 28-31 are the word `52 38 A2 42`. |
| HistoryRecord.ShiftDate | hwread.c:195-197 | The shifted date plus 2240611800 is the stored date modulo 2^32. For a stored date at or above the shift, the result is the plain difference. |
| HistoryRecord.ShiftStoredDate | hwread.c:195-197 | Shifting the stored form `(t + 2240611800) mod 2^32` of a Unix time `t` gives `t` back, wrap-around included. |
| HistoryRecord.ShiftDateInjective | hwread.c:196 | Distinct stored dates shift to distinct times. |
| HistoryRecord.EffectiveDate | hwread.c:195-198 | The date passed to localtime is the stored date in the `LONG_DATE` build, otherwise the shifted date. |
| HistoryRecord.DateRoundTrip | hwread.c:157-198 | A record storing `(t + 2240611800) mod 2^32` with no zero byte yields the Unix time `t`. |
| HistoryRecord.DateWithLowZeroByte | hwread.c:157-198 | A stored date whose low byte is zero is read as 0 and shifted to 2054355496. |
| Wind.CompassPoint | hwread.c:54-74 | A point exists exactly for indices 0..15. It is 2 or 3 characters long, starts with N, E, S or W, and ends in a space exactly for the four cardinal points. |
| Wind.FindPoint | hwread.c:54-74 | The search from `from` returns an index at or after `from` whose point is the name. It returns none only when no later index has that name. |
| Wind.CompassLetters | hwread.c:54-74 | Every abbreviation is spelt with N, E, S, W and the space only, so it holds no tab or newline. |
| Wind.CompassDistinct | hwread.c:54-74 | No two directions share an abbreviation. |
| Wind.CompassRoundTrip | hwread.c:54-74 | Reading back the printed abbreviation of a direction gives that direction. |
| Wind.CompassIndexSound | hwread.c:54-74 | Every abbreviation that reads back came from the table at that index. |
| Text.DecimalString | hwread.c:271 | `%u` of a value is a non-empty run of digits with no leading zero. |
| Text.DecimalRoundTrip | hwread.c:271 | Reading back the decimal text of a number gives the number. |
| Text.FormatUnsigned | hwread.c:300 | `%<width>d` of a value is as long as its digits, or `width` when the digits are shorter. |
| Text.FormatUnsignedShape | hwread.c:300 | The padded text is pad characters followed by exactly the decimal digits of the value. |
| Text.TwoDigitField | hwread.c:300 | `%02d` of a value below 100 is two digits that read back as the value. |
| Text.FourDigitField | hwread.c:300 | `%4d` of a four-digit value is its four digits, which read back as the value. |
| Text.SplitJoin | hwread.c:261-303 | Fields with no separator are recovered by splitting their join. |
| Text.SplitLines | hwread.c:212-258 | Text written as a run of lines splits at its newlines into those lines, each without its newline, and the empty text after the last one. |
| Text.TextBuffer.constructor | hwread.c:117 | `outstr` starts empty. |
| Text.TextBuffer.Write | hwread.c:262 | `sprintf(outstr, s)` leaves exactly `s`. |
| Text.TextBuffer.Append | hwread.c:266 | `sprintf(outstr, "%s...", outstr)` or `printf` appends to what was there. |
| CompactRow.DateTextFields | hwread.c:300 | For calendar fields of the usual widths the date text is `YYYY-MM-DD hh:mm:ss` (19 characters). Each field reads back as the year plus 1900, the month plus 1, and the day, hour, minute and second. |
| CompactRow.DateTextHasNoTab | hwread.c:300 | The date text holds no tab. |
| CompactRow.DateColumnText | hwread.c:299-303 | The date column holds no tab. In the default build it is the date text of the shifted date's localtime; under `LONG_DATE` it reads back as the stored date. |
| CompactRow.PressureTextNoData | hwread.c:261-265 | The pressure column is `"  -  "` exactly when the pressure is below 700; otherwise it is the `%5.1f` text. |
| CompactRow.OutTempTextNoData | hwread.c:273-278 | The outdoor temperature column is `" - "` exactly under the marker in bytes 28-31; otherwise it is the `%-4.1f` text. |
| CompactRow.HumidityTextReadsBack | hwread.c:268-272 | A humidity column is no data exactly when the byte is above 100. Otherwise it reads back as the byte. |
| CompactRow.WindColumns | hwread.c:287-294 | The wind gives two columns, or one when the marker is absent and the direction is above 15. |
| CompactRow.Columns | hwread.c:261-303 | The row has 10 columns when the wind marker is absent and byte 16 is above 15, and 11 otherwise. |
| CompactRow.SprintfWind | hwread.c:76-96 | Appends a tab and the compass point, or nothing for an index outside 0..15. |
| CompactRow.AppendColumn | hwread.c:266 | One more column. The buffer stays the tab-join of the columns so far. |
| CompactRow.AppendUnlessNoData | hwread.c:268-272 | Appends the no-data column when the test holds, and the value otherwise. The join invariant is kept. |
| CompactRow.AppendIndoor | hwread.c:266-272 | Appends the indoor temperature and humidity columns, keeping the join invariant. |
| CompactRow.AppendOutdoor | hwread.c:273-283 | Appends the outdoor columns, with the temperature marker tested on the raw bytes 28-31. |
| CompactRow.AppendWind | hwread.c:287-294 | Appends the wind columns, with the marker tested on the raw bytes 12-15. |
| CompactRow.AppendTail | hwread.c:296-303 | Appends rainfall and then the date: localtime text, or `%lu` of the stored date under `LONG_DATE`. |
| CompactRow.FormatRow | hwread.c:261-303 | The buffer ends up holding the columns joined by tabs. |
| CompactRow.RowSplitsIntoColumns | hwread.c:261-303 | Splitting the row at its tabs gives back exactly the columns, 11 of them or 10. |
| CompactRow.ColumnsHaveNoTab | hwread.c:261-303 | No column contains a tab. |
| CompactRow.WindColumnsHaveNoTab | hwread.c:287-294 | Neither wind column contains a tab. |
| CompactRow.PressureColumn | hwread.c:261-265 | The pressure column is the dashes exactly when the pressure is below 700. Otherwise it is the `%5.1f` text. |
| CompactRow.HumidityColumns | hwread.c:268-283 | Columns 3 and 5 are no data exactly when bytes 32 and 34 are above 100. Otherwise they read back as the bytes. |
| CompactRow.OutTempColumn | hwread.c:273-278 | Column 4 is no data exactly under the marker in bytes 28-31. Otherwise it is the copied float printed with `%-4.1f`. |
| CompactRow.WindColumnsInRow | hwread.c:287-294 | Under the wind marker both wind columns are no data, whatever byte 16 holds, and the row keeps 11 columns. Otherwise the speed is printed and, when byte 16 is at most 15, the direction reads back as byte 16; above 15 the direction column is missing. |
| CompactRow.FixedColumns | hwread.c:266-303 | Indoor temperature and rainfall are always printed. Dew point and wind chill are always no data. The date comes last. |
| CompactRow.DateColumnInRow | hwread.c:299-303 | The last column is the shifted date's localtime text. Under `LONG_DATE` it is digits that read back as the stored date. |
| LongReport.ReportLines | hwread.c:212-258 | The report is printed as nine pieces, one per `printf` line; `ReportSplitsIntoLines` shows each is one line of text. |
| LongReport.ReportSplitsIntoLines | hwread.c:212-258 | The report splits at its newlines into exactly nine lines and the empty text after the last newline; each line is the matching piece without its newline. |
| LongReport.ReportLinesParts | hwread.c:212-258 | The nine lines in order: date, pressure, indoor temperature and humidity, outdoor temperature and humidity, wind speed and direction, rainfall. |
| LongReport.DateLineText | hwread.c:214-216 | After its heading the date line is asctime's text for the localtime of the shifted date, or of the stored date under `LONG_DATE`. |
| LongReport.DateLineIsLine | hwread.c:214-216 | The date line is one line, with asctime supplying its newline. |
| LongReport.PressureLineIsLine | hwread.c:218-222 | The pressure line is one line. |
| LongReport.HumidityLineIsLine | hwread.c:225-230 | A humidity line is one line. |
| LongReport.IndoorLinesAreLines | hwread.c:224-230 | The indoor lines are one line each. |
| LongReport.OutdoorLinesAreLines | hwread.c:232-243 | The outdoor lines are one line each. |
| LongReport.WindLinesAreLines | hwread.c:245-255 | The two wind lines are one line each; the compass point holds no newline. |
| LongReport.RainLineIsLine | hwread.c:258 | The rainfall line is one line. |
| LongReport.ReportLinesAreLines | hwread.c:212-258 | Every one of the nine pieces is one line. |
| LongReport.IndoorTempLineText | hwread.c:224 | The indoor temperature line is always printed: its heading, the `%-4.1f` text of the temperature, and the degree unit, with the value cut back out. |
| LongReport.RainLineText | hwread.c:258 | The rainfall line is its heading, the `% 6.1f` text of the total, and "mm". |
| LongReport.PointTextReadsBack | hwread.c:54-74 | `printf_wind` prints nothing exactly for an index outside 0..15. A printed point reads back as the index. |
| LongReport.PrintfWind | hwread.c:54-74 | Prints the compass point, or nothing for an index outside 0..15. |
| LongReport.PrintLine | hwread.c:219 | One `printf` of a whole line. The output stays the concatenation of the lines so far. |
| LongReport.PrintLabelled | hwread.c:225-229 | A line printed as its heading followed by its value. |
| LongReport.PrintDate | hwread.c:214-216 | The heading followed by asctime of the localtime of the date. |
| LongReport.PrintPressure | hwread.c:218-222 | "no data" below 700, otherwise `%6.1f` and hPa. |
| LongReport.PrintHumidity | hwread.c:225-230 | The heading, then "no data" above 100 or `%u` and the per-cent sign. |
| LongReport.PrintIndoor | hwread.c:224-230 | The indoor temperature and humidity lines. |
| LongReport.PrintOutdoor | hwread.c:232-243 | The outdoor lines, with the marker tested on the raw bytes 28-31. |
| LongReport.PrintDirection | hwread.c:252-254 | The heading, `printf_wind` and a newline, as one line. |
| LongReport.PrintWind | hwread.c:245-255 | The two wind lines, with the marker tested on the raw bytes 12-15. |
| LongReport.PrintReport | hwread.c:212-258 | The printed text is the report's lines in order. |
| LongReport.ReportLayout | hwread.c:212-258 | Each of the nine lines starts with its heading, in order. Every line after the date ends with a newline. |
| LongReport.DateAndPressureLayout | hwread.c:214-222 | The date and pressure lines start with their headings, and the pressure line ends with a newline. |
| LongReport.IndoorLayout | hwread.c:224-230 | The indoor lines start with their headings and end with a newline. |
| LongReport.OutdoorLayout | hwread.c:232-243 | The outdoor lines start with their headings and end with a newline. |
| LongReport.WindAndRainLayout | hwread.c:245-258 | The wind and rainfall lines start with their headings and end with a newline. |
| LongReport.PressureLineNoData | hwread.c:218-222 | The pressure line says "no data" exactly when the pressure is below 700. Otherwise the `%6.1f` text sits between the heading and "hPa". |
| LongReport.HumidityLineNoData | hwread.c:225-230 | A humidity line says "no data" exactly when the byte is above 100. Otherwise it holds digits that read back as the byte. |
| LongReport.OutTempLineNoData | hwread.c:232-237 | The outdoor temperature line says "no data" exactly under the marker. Otherwise the `%-4.1f` text sits between the heading and the degree unit. |
| LongReport.WindLinesNoData | hwread.c:245-255 | Both wind lines say "no data" exactly under the marker. Otherwise the `% 4.1f` speed sits between its heading and "m/s", and the direction line names the compass point of byte 16, which reads back as byte 16, or is blank above 15. |
| HwRead.Output | hwread.c:212-306 | Prints the report under `LONG_FORMAT`, otherwise the row and a newline. |
| HwRead.RenderingsAgree | hwread.c:212-303 | Each report line says "no data" exactly when the matching row column is no data. Both outputs name the same compass point, and both print the date from the same localtime result. |
| HwRead.PressureAgrees | hwread.c:218-265 | The report's pressure line is "no data" exactly when the row's pressure column is `"  -  "`. |
| HwRead.HumidityAgrees | hwread.c:225-283 | Each report humidity line is "no data" exactly when its row column is `" - "`. |
| HwRead.OutTempAgrees | hwread.c:232-278 | The report's outdoor temperature line is "no data" exactly when its row column is `" - "`. |
| HwRead.WindAgrees | hwread.c:245-294 | The wind lines are "no data" exactly when the wind columns are, and both outputs name the same compass point. |
| HwRead.DateAgrees | hwread.c:198-300 | Both outputs print the date from the same localtime result. |
| HwRead.ExampleRow | hwread.c:157-303 | The columns of a worked record. The date is one hour after the epoch. Humidities 45 and 60 print as "45" and "60", and direction 4 as "E ". The marked outdoor temperature prints as no data. Wind speed and indoor temperature begin with a zero byte and print as the all-zero float. |
| HwRead.ExampleFields | hwread.c:157-198 | The fields copied out of the worked record. |
| HwRead.ExampleColumns | hwread.c:261-303 | The row of any record whose copied fields and markers are the worked record's. |

## Left out

- Command-line handling, opening the file, the `fread` loop and its error exits (`hwread.c:119-155`). The record is a parameter.
- What the `fread` loop leaves in the buffer is not modelled; the record is whatever 36 bytes it holds. The loop tests `feof` before it calls `fread` (`hwread.c:139-140`), and `feof` is only set by a read that has already failed. So asking for the record just past the end of the file reprints the last record, and a short final read keeps bytes of the previous record. For `n` of 0 or less the loop does not run, and the all-zero buffer from `calloc` is printed (`hwread.c:134`, `hwread.c:138`).
- The C library is a parameter (`CRuntime.Runtime`). Its internals are not modelled: `printf`'s `%f` conversion of IEEE 754 floats, the float comparison `pressure < 700`, `localtime` and `asctime`. The time-zone rules that `localtime` applies are also not modelled.
- The floats themselves are kept as their four bytes and never interpreted.
- HistoryRecord.ShiftDate: models `unsigned long` as 32 bits. On a 64-bit `long`, `strncpy` fills only the low four bytes of `date`, the upper four are uninitialised, and the subtraction wraps modulo 2^64.
- The 128-byte bound of `outstr` is not checked. The model's buffer is unbounded, so a row longer than 127 characters is not shown to overflow.
- `sprintf(outstr, "%s...", outstr)` copies between overlapping buffers, which C leaves undefined. It is modelled as an append.
- CompactRow.FormatRow takes the library results before writing the buffer: the pressure test, localtime and the float texts. The source calls them as it goes, which makes no difference to pure library functions.
- The degree sign is one character, U+00B0. The source file holds its UTF-8 bytes `C2 B0`.
- The commented-out `mktime` calculation (`hwread.c:200-210`) is not modelled. Neither are the unused `dewpoint` and `windchill` variables.
- CompactRow.RowSplitsIntoColumns: holds only for a runtime whose `%f` texts contain no tab (`PrintsFloats`).
- CompactRow.ColumnsHaveNoTab: holds only for a runtime whose `%f` texts contain no tab (`PrintsFloats`).
- CompactRow.PressureColumn: needs `PrintsFloats`, so that a printed pressure is never the dashes.
- CompactRow.OutTempColumn: needs `PrintsFloats`, so that a printed temperature is never the no-data text.
- CompactRow.WindColumnsInRow: needs `PrintsFloats`, so that a printed wind speed is never the no-data text.
- HwRead.RenderingsAgree: needs `PrintsFloats` for the same reason.
- HwRead.PressureAgrees, HwRead.OutTempAgrees, HwRead.WindAgrees: need `PrintsFloats` for the same reason.
- CompactRow.PressureTextNoData: needs `PrintsFloats`, so that a printed pressure is never the dashes.
- CompactRow.OutTempTextNoData: needs `PrintsFloats`, so that a printed temperature is never the no-data text.
- CompactRow.WindColumnsHaveNoTab: needs `PrintsFloats`, so that the printed wind speed holds no tab.
- LongReport.ReportSplitsIntoLines: holds only for a runtime whose `%f` texts hold no newline and whose asctime text is exactly one line (`PrintsLines`). The same holds for LongReport.ReportLinesAreLines and the per-line `...IsLine`/`...AreLines` lemmas.
- CompactRow.DateTextFields: covers only calendar fields that fit their printed widths (year before 10000, the others below 100). Wider values make the text longer.
