/**
 * One 36-byte record of a Heavy Weather `history.dat` file: where each value
 * sits, how hwread.c copies it out of the buffer, which raw byte patterns mean
 * "no data", and the shift that moves the stored date onto the Unix epoch.
 *
 * Layout (byte offsets): 0-3 unit tag (never read), 4-7 date, 8-11 pressure,
 * 12-15 wind speed, 16 wind direction, 17-19 blank, 20-23 total rainfall,
 * 24-27 indoor temperature, 28-31 outdoor temperature, 32 indoor humidity,
 * 33 blank, 34 outdoor humidity, 35 blank.
 */
module HistoryRecord {
  import opened Bytes

  const RECORD_LENGTH_BYTES: nat := 36

  type RawRecord = s: seq<Byte> | |s| == RECORD_LENGTH_BYTES witness seq(36, _ => 0)

  /**
   * A single-precision float, kept as the four bytes of its storage in host
   * (little-endian) order.  The codec never looks inside it: comparing and
   * printing it is done by the C runtime (see CRuntime).
   */
  datatype Float32 = Float32(bytes: Word)

  /** The locals of hwread.c's main after the record has been copied out. */
  datatype Fields = Fields(
    date: U32,
    pressure: Float32,
    windSpeed: Float32,
    windDir: Byte,
    rainTotal: Float32,
    inTemp: Float32,
    outTemp: Float32,
    inHumidity: Byte,
    outHumidity: Byte)

  /** `strncpy(&local, record + at, 4)`: the word a 4-byte local receives. */
  function CopyWord(record: RawRecord, at: nat): Word
    requires at + 4 <= RECORD_LENGTH_BYTES
  {
    StrNCpy(record[at..at + 4], 4)
  }

  /** A word with no zero byte arrives intact. */
  lemma CopyWordIntact(record: RawRecord, at: nat)
    requires at + 4 <= RECORD_LENGTH_BYTES
    requires 0 !in record[at..at + 4]
    ensures CopyWord(record, at) == record[at..at + 4]
  {
    StrNCpyExact(record[at..at + 4], 4);
  }

  /**
   * A word whose first byte is zero arrives as four zeros, so a float stored
   * as 00 00 BC 41 (23.5) or 00 00 AC 41 (21.5) is read as 0.0.
   */
  lemma CopyWordLeadingZero(record: RawRecord, at: nat)
    requires at + 4 <= RECORD_LENGTH_BYTES
    requires record[at] == 0
    ensures CopyWord(record, at) == [0, 0, 0, 0]
  {
    LeadingZeroErasesWord(record[at..at + 4]);
  }

  /**
   * Copies every field out of the record: the 4-byte values with strncpy,
   * the 1-byte values directly.
   */
  function Decode(record: RawRecord): (f: Fields)
    ensures IsStrNCpyOf(ToLE32(f.date), record[4..8])
    ensures IsStrNCpyOf(f.pressure.bytes, record[8..12])
    ensures IsStrNCpyOf(f.windSpeed.bytes, record[12..16])
    ensures IsStrNCpyOf(f.rainTotal.bytes, record[20..24])
    ensures IsStrNCpyOf(f.inTemp.bytes, record[24..28])
    ensures IsStrNCpyOf(f.outTemp.bytes, record[28..32])
    ensures f.windDir == record[16] && f.inHumidity == record[32] && f.outHumidity == record[34]
  {
    var dateBytes := CopyWord(record, 4);
    ToLE32OfLE32(dateBytes);
    Fields(
      date := LE32(dateBytes),
      pressure := Float32(CopyWord(record, 8)),
      windSpeed := Float32(CopyWord(record, 12)),
      windDir := record[16],
      rainTotal := Float32(CopyWord(record, 20)),
      inTemp := Float32(CopyWord(record, 24)),
      outTemp := Float32(CopyWord(record, 28)),
      inHumidity := record[32],
      outHumidity := record[34])
  }

  /** Bytes 0-3, 17-19, 33 and 35 are never read. */
  lemma DecodeIgnoresUnreadBytes(r1: RawRecord, r2: RawRecord)
    requires forall i :: 4 <= i < 17 || 20 <= i < 33 || i == 34 ==> r1[i] == r2[i]
    ensures Decode(r1) == Decode(r2)
  {
    assert r1[4..8] == r2[4..8];
    assert r1[8..12] == r2[8..12];
    assert r1[12..16] == r2[12..16];
    assert r1[20..24] == r2[20..24];
    assert r1[24..28] == r2[24..28];
    assert r1[28..32] == r2[28..32];
  }

  // "No data" markers, tested on the raw record.

  /** The raw wind speed word that marks the wind reading as absent. */
  const WIND_MARKER: seq<Byte> := [0x00, 0x00, 0x4C, 0x42]

  /** The raw outdoor temperature word that marks that reading as absent. */
  const OUT_TEMP_MARKER: seq<Byte> := [0x52, 0x38, 0xA2, 0x42]

  /** Wind speed (and with it the direction) is absent: hwread.c's byte test on bytes 12-15. */
  predicate WindNoData(record: RawRecord) {
    record[12] == 0x00 && record[13] == 0x00 && record[14] == 0x4C && record[15] == 0x42
  }

  /** Outdoor temperature is absent: hwread.c's byte test on bytes 28-31. */
  predicate OutTempNoData(record: RawRecord) {
    record[28] == 0x52 && record[29] == 0x38 && record[30] == 0xA2 && record[31] == 0x42
  }

  /** A humidity byte above 100 (per cent) means the sensor gave no reading. */
  predicate HumidityNoData(h: Byte) {
    h > 100
  }

  /** The wind test holds exactly when bytes 12-15 are the wind marker word. */
  lemma WindNoDataIsMarker(record: RawRecord)
    ensures WindNoData(record) <==> record[12..16] == WIND_MARKER
  {
    assert record[12..16] == [record[12], record[13], record[14], record[15]];
  }

  /** The outdoor temperature test holds exactly when bytes 28-31 are its marker word. */
  lemma OutTempNoDataIsMarker(record: RawRecord)
    ensures OutTempNoData(record) <==> record[28..32] == OUT_TEMP_MARKER
  {
    assert record[28..32] == [record[28], record[29], record[30], record[31]];
  }

  /**
   * The wind marker begins with a zero byte, so the strncpy'd wind speed is
   * all zeros: the marker can only be seen in the raw record, which is where
   * hwread.c tests it.
   */
  lemma WindMarkerLostByCopy(record: RawRecord)
    requires WindNoData(record)
    ensures Decode(record).windSpeed.bytes == [0, 0, 0, 0]
  {
    LeadingZeroErasesWord(record[12..16]);
  }

  /** The outdoor temperature marker has no zero byte, so it survives the copy intact. */
  lemma OutTempMarkerSurvivesCopy(record: RawRecord)
    requires OutTempNoData(record)
    ensures Decode(record).outTemp.bytes == [0x52, 0x38, 0xA2, 0x42]
  {
    StrNCpyExact(record[28..32], 4);
  }

  // The date.

  /** Seconds between the record's date origin and 1970-01-01 00:00:00. */
  const EPOCH_SHIFT: U32 := 2240611800

  /** `date - 2240611800` on an unsigned 32-bit value: the subtraction wraps. */
  function ShiftDate(date: U32): (t: U32)
    ensures (t + EPOCH_SHIFT) % TWO_TO_32 == date
    ensures date >= EPOCH_SHIFT ==> t == date - EPOCH_SHIFT
    ensures date < EPOCH_SHIFT ==> t == date - EPOCH_SHIFT + TWO_TO_32
  {
    (date - EPOCH_SHIFT) % TWO_TO_32
  }

  /** The shift has an inverse, so distinct stored dates stay distinct. */
  lemma ShiftDateInjective(d1: U32, d2: U32)
    requires ShiftDate(d1) == ShiftDate(d2)
    ensures d1 == d2
  {
  }

  /** Shifting the stored form `(t + 2240611800) mod 2^32` of a Unix time `t` gives `t` back. */
  lemma ShiftStoredDate(t: U32)
    ensures ShiftDate((t + EPOCH_SHIFT) % TWO_TO_32) == t
  {
    var stored := (t + EPOCH_SHIFT) % TWO_TO_32;
    if t + EPOCH_SHIFT < TWO_TO_32 {
      assert stored == t + EPOCH_SHIFT;
    } else {
      assert stored == t + EPOCH_SHIFT - TWO_TO_32;
    }
  }

  /**
   * The date handed to localtime: shifted, or the raw stored value in the
   * LONG_DATE build.
   */
  function EffectiveDate(f: Fields, longDate: bool): (t: U32)
    ensures longDate ==> t == f.date
    ensures !longDate ==> (t + EPOCH_SHIFT) % TWO_TO_32 == f.date
  {
    if longDate then f.date else ShiftDate(f.date)
  }

  /**
   * A record that stores `(t + 2240611800) mod 2^32` at bytes 4-7 with no
   * zero byte yields the Unix time `t`; in particular 2240611800 (D8 05 8D 85)
   * yields 0, 1970-01-01 00:00:00.
   */
  lemma {:induction false} DateRoundTrip(record: RawRecord, t: U32)
    requires record[4..8] == ToLE32((t + EPOCH_SHIFT) % TWO_TO_32)
    requires 0 !in record[4..8]
    ensures Decode(record).date == (t + EPOCH_SHIFT) % TWO_TO_32
    ensures EffectiveDate(Decode(record), false) == t
  {
    var f := Decode(record);
    var stored := (t + EPOCH_SHIFT) % TWO_TO_32;
    assert f.date == stored by {
      var w := CopyWord(record, 4);
      CopyWordIntact(record, 4);
      assert w == ToLE32(stored);
      LE32OfToLE32(stored);
      assert f.date == LE32(w);
    }
    ShiftStoredDate(t);
    assert EffectiveDate(f, false) == ShiftDate(stored);
  }

  /**
   * A stored date whose low byte is zero is copied as 0, which the shift then
   * wraps round to 2054355496 (early 2035).
   */
  lemma DateWithLowZeroByte(record: RawRecord)
    requires record[4] == 0
    ensures Decode(record).date == 0
    ensures EffectiveDate(Decode(record), false) == 2054355496
  {
    var f := Decode(record);
    assert f.date == 0 by {
      var w := CopyWord(record, 4);
      CopyWordLeadingZero(record, 4);
      assert w == [0, 0, 0, 0];
      assert f.date == LE32(w);
    }
    assert EffectiveDate(f, false) == ShiftDate(0) == 2054355496;
  }
}
