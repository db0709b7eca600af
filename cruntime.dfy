/**
 * What the codec takes from the C library and does not model: printing a
 * float with a `%f` conversion, comparing a float with 700, and turning a
 * time into calendar fields (`localtime`) or into text (`asctime`).  They are
 * handed to the codec as a `Runtime` value, so every result is stated for
 * whatever the library does.
 */
module CRuntime {
  import opened Bytes
  import opened Text
  import opened HistoryRecord

  /** A `%f` conversion: the '-' flag, the ' ' flag, field width and precision. */
  datatype FloatConversion = FloatConversion(leftAlign: bool, spaceSign: bool, width: nat, precision: nat)

  /** `%5.1f`, compact pressure. */
  const F_5_1: FloatConversion := FloatConversion(false, false, 5, 1)
  /** `%-4.1f`, both temperatures in both renderings. */
  const F_LEFT_4_1: FloatConversion := FloatConversion(true, false, 4, 1)
  /** `%4.1f`, compact wind speed. */
  const F_4_1: FloatConversion := FloatConversion(false, false, 4, 1)
  /** `%3.1f`, compact rainfall. */
  const F_3_1: FloatConversion := FloatConversion(false, false, 3, 1)
  /** `%6.1f`, report pressure. */
  const F_6_1: FloatConversion := FloatConversion(false, false, 6, 1)
  /** `% 4.1f`, report wind speed. */
  const F_SPACE_4_1: FloatConversion := FloatConversion(false, true, 4, 1)
  /** `% 6.1f`, report rainfall. */
  const F_SPACE_6_1: FloatConversion := FloatConversion(false, true, 6, 1)

  /**
   * The calendar fields of `struct tm` that the compact row prints: years
   * since 1900, months since January, day of the month, hours, minutes,
   * seconds.  The weekday, which only `asctime` prints, is left to the
   * `asctime` the runtime supplies.
   */
  datatype Tm = Tm(tmYear: nat, tmMon: nat, tmMday: nat, tmHour: nat, tmMin: nat, tmSec: nat)

  datatype Runtime = Runtime(
    formatFloat: (FloatConversion, Float32) -> string,
    pressureBelow700: Float32 -> bool,
    localtime: U32 -> Tm,
    asctime: Tm -> string)

  predicate IsAlphanumeric(c: char) {
    '0' <= c <= '9' || 'a' <= c <= 'z' || 'A' <= c <= 'Z'
  }

  /**
   * Text a `%f` conversion can produce: never a tab, and always some digit
   * or letter (the digits of the value, or "inf"/"nan").
   */
  predicate IsFloatText(s: string) {
    '\t' !in s && exists i :: 0 <= i < |s| && IsAlphanumeric(s[i])
  }

  /** The runtime prints floats as `%f` does. */
  ghost predicate PrintsFloats(rt: Runtime) {
    forall c, x :: IsFloatText(rt.formatFloat(c, x))
  }

  /**
   * The runtime's texts keep to their lines, as C's do: a `%f` text holds no
   * newline, and asctime's text is one line, `Www Mmm dd hh:mm:ss yyyy`
   * followed by a newline.
   */
  ghost predicate PrintsLines(rt: Runtime) {
    (forall c, x :: '\n' !in rt.formatFloat(c, x)) && (forall tm :: IsLine(rt.asctime(tm)))
  }
}
