/**
 * Raw memory as the record codec sees it: unsigned chars, the 4-byte words that
 * hold a float or an unsigned 32-bit date, C's strncpy on such a word, and the
 * little-endian reading of a word as an unsigned 32-bit integer.
 */
module Bytes {

  /** An unsigned char. */
  type Byte = b: int | 0 <= b < 0x100

  /** Four bytes in memory order: the storage of a float or of a 32-bit date. */
  type Word = s: seq<Byte> | |s| == 4 witness [0, 0, 0, 0]

  /** An unsigned 32-bit integer. */
  type U32 = n: int | 0 <= n < 0x1_0000_0000

  const TWO_TO_32: int := 0x1_0000_0000

  /** Index of the first zero byte of `s`, or `|s|` when `s` holds none. */
  function ZeroIndex(s: seq<Byte>): (k: nat)
    ensures k <= |s|
    ensures k < |s| ==> s[k] == 0
    ensures 0 !in s[..k]
  {
    if s == [] || s[0] == 0 then 0
    else
      var k' := ZeroIndex(s[1..]);
      assert s[..1 + k'] == [s[0]] + s[1..][..k'];
      1 + k'
  }

  /**
   * `dst` is what strncpy leaves when it copies `|dst|` bytes of `src`: byte
   * `i` is `src[i]` unless a zero byte came before it, and zero if one did.
   */
  predicate IsStrNCpyOf(dst: seq<Byte>, src: seq<Byte>)
    requires |dst| <= |src|
  {
    forall i :: 0 <= i < |dst| ==> dst[i] == if 0 in src[..i] then 0 else src[i]
  }

  /**
   * The `n` bytes that `strncpy(dst, src, n)` leaves in `dst`: the bytes of
   * `src` up to the first zero byte, and zeros from there on.
   */
  function StrNCpy(src: seq<Byte>, n: nat): (dst: seq<Byte>)
    requires n <= |src|
    ensures |dst| == n
    ensures IsStrNCpyOf(dst, src)
  {
    if n == 0 then []
    else if src[0] == 0 then seq(n, _ => 0)
    else
      var rest := StrNCpy(src[1..], n - 1);
      assert forall i :: 1 <= i <= n ==> src[..i] == [src[0]] + src[1..][..i - 1];
      [src[0]] + rest
  }

  /**
   * The shape of a strncpy copy: it agrees with the source up to and
   * including the first zero byte, and every later byte is zero.
   */
  lemma {:induction false} StrNCpyShape(src: seq<Byte>, n: nat)
    requires n <= |src|
    ensures var k := ZeroIndex(src[..n]);
      (k < n ==> StrNCpy(src, n)[..k + 1] == src[..k + 1]) &&
      (k == n ==> StrNCpy(src, n) == src[..n]) &&
      (forall i :: k < i < n ==> StrNCpy(src, n)[i] == 0)
  {
    var k := ZeroIndex(src[..n]);
    var dst := StrNCpy(src, n);
    StrNCpyBeforeZero(src, n, k);
    if k < n {
      assert dst[..k + 1] == src[..k + 1];
    } else {
      assert dst == src[..n];
    }
    forall i | k < i < n
      ensures dst[i] == 0
    {
      assert src[..i][k] == 0;
    }
  }

  /** Up to the first zero byte, the copy is the source. */
  lemma StrNCpyBeforeZero(src: seq<Byte>, n: nat, k: nat)
    requires n <= |src| && k == ZeroIndex(src[..n])
    ensures forall i :: 0 <= i <= k && i < n ==> StrNCpy(src, n)[i] == src[i]
  {
    forall i | 0 <= i <= k && i < n
      ensures StrNCpy(src, n)[i] == src[i]
    {
      assert src[..i] == src[..n][..k][..i];
    }
  }

  /** Copying a copy changes nothing. */
  lemma {:induction false} StrNCpyIdempotent(src: seq<Byte>, n: nat)
    requires n <= |src|
    ensures StrNCpy(StrNCpy(src, n), n) == StrNCpy(src, n)
  {
    var dst := StrNCpy(src, n);
    var again := StrNCpy(dst, n);
    forall i | 0 <= i < n
      ensures again[i] == dst[i]
    {
      if 0 !in src[..i] {
        assert dst[..i] == src[..i] by {
          forall j | 0 <= j < i
            ensures dst[j] == src[j]
          {
            assert src[..j] == src[..i][..j];
          }
        }
      }
    }
  }

  /** A word with no zero byte is copied exactly. */
  lemma {:induction false} StrNCpyExact(src: seq<Byte>, n: nat)
    requires n <= |src|
    requires 0 !in src[..n]
    ensures StrNCpy(src, n) == src[..n]
  {
    var dst := StrNCpy(src, n);
    forall i | 0 <= i < n
      ensures dst[i] == src[i]
    {
      assert src[..i] == src[..n][..i];
    }
  }

  /** A word whose first byte is zero is copied as four zero bytes, whatever follows. */
  lemma LeadingZeroErasesWord(w: Word)
    requires w[0] == 0
    ensures StrNCpy(w, 4) == [0, 0, 0, 0]
  {
    var dst := StrNCpy(w, 4);
    forall i | 0 <= i < 4
      ensures dst[i] == 0
    {
      if i > 0 {
        assert w[..i][0] == 0;
      }
    }
  }

  /** Byte `lo` below the multiple `hi` of 0x100: division by 0x100 separates them again. */
  lemma SplitByte(lo: int, hi: int)
    requires 0 <= lo < 0x100
    ensures (lo + 0x100 * hi) % 0x100 == lo
    ensures (lo + 0x100 * hi) / 0x100 == hi
  {
  }

  /** The unsigned 32-bit integer stored little-endian in `w`. */
  function LE32(w: Word): U32 {
    w[0] as int + 0x100 * (w[1] as int + 0x100 * (w[2] as int + 0x100 * w[3] as int))
  }

  /** The little-endian storage of `v`. */
  function ToLE32(v: U32): Word {
    [v % 0x100, v / 0x100 % 0x100, v / 0x100 / 0x100 % 0x100, v / 0x100 / 0x100 / 0x100]
  }

  /** Storing a value and reading it back gives the value. */
  lemma LE32OfToLE32(v: U32)
    ensures LE32(ToLE32(v)) == v
  {
    var q0 := v / 0x100;
    var q1 := q0 / 0x100;
    assert v == v % 0x100 + 0x100 * q0;
    assert q0 == q0 % 0x100 + 0x100 * q1;
    assert q1 == q1 % 0x100 + 0x100 * (q1 / 0x100);
  }

  /** Reading a word and storing the value gives the word back. */
  lemma ToLE32OfLE32(w: Word)
    ensures ToLE32(LE32(w)) == w
  {
    var q1 := w[2] as int + 0x100 * w[3] as int;
    var q0 := w[1] as int + 0x100 * q1;
    SplitByte(w[0], q0);
    SplitByte(w[1], q1);
    SplitByte(w[2], w[3]);
    assert w[3] as int / 0x100 == 0;
  }
}
