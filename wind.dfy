/**
 * The 16-point compass table of `printf_wind` and `sprintf_wind`: a wind
 * direction index, clockwise from north in 22.5 degree steps, names a point.
 * The four cardinal points are padded with a space to two characters.
 */
module Wind {
  import opened Wrappers

  const COMPASS: seq<string> := [
    "N ", "NNE", "NE", "ENE", "E ", "ESE", "SE", "SSE",
    "S ", "SSW", "SW", "WSW", "W ", "WNW", "NW", "NNW"]

  /** The abbreviation printed for `dir`; none for an index outside 0..15. */
  function CompassPoint(dir: int): (p: Option<string>)
    ensures p.Some? <==> 0 <= dir < 16
    ensures p.Some? ==> 2 <= |p.value| <= 3 && p.value[0] in "NESW"
    ensures p.Some? ==> (p.value[|p.value| - 1] == ' ' <==> dir % 4 == 0)
  {
    if 0 <= dir < |COMPASS| then Some(COMPASS[dir]) else None
  }

  /** An abbreviation is spelt with the letters N, E, S, W and the space. */
  lemma CompassLetters(dir: int)
    requires 0 <= dir < 16
    ensures forall c :: c in COMPASS[dir] ==> c in "NESW "
  {
  }

  /** The index whose abbreviation is `name`, searching the table from `from` on. */
  function FindPoint(name: string, from: nat): (d: Option<nat>)
    requires from <= |COMPASS|
    ensures d.Some? ==> from <= d.value < |COMPASS| && COMPASS[d.value] == name
    ensures d.None? ==> forall k :: from <= k < |COMPASS| ==> COMPASS[k] != name
    decreases |COMPASS| - from
  {
    if from == |COMPASS| then None
    else if COMPASS[from] == name then Some(from)
    else FindPoint(name, from + 1)
  }

  /** The wind direction index a printed abbreviation stands for, if any. */
  function CompassIndex(name: string): Option<nat> {
    FindPoint(name, 0)
  }

  /** No two directions share an abbreviation. */
  lemma CompassDistinct(i: nat, j: nat)
    requires i < 16 && j < 16 && i != j
    ensures COMPASS[i] != COMPASS[j]
  {
    var a, b := COMPASS[i], COMPASS[j];
    if |a| == |b| && a[0] == b[0] && a[1] == b[1] {
      assert a[2] != b[2];
    }
  }

  /** Reading back a printed direction gives its index. */
  lemma CompassRoundTrip(dir: int)
    requires 0 <= dir < 16
    ensures CompassIndex(CompassPoint(dir).value) == Some(dir)
  {
    var d := CompassIndex(COMPASS[dir]);
    if d.Some? && d.value != dir {
      CompassDistinct(d.value, dir);
    }
  }

  /** Every name the table reads back came from the table. */
  lemma CompassIndexSound(name: string)
    requires CompassIndex(name).Some?
    ensures CompassPoint(CompassIndex(name).value) == Some(name)
  {
  }
}
