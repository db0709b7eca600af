/**
 * Text as the codec produces it: decimal rendering of unsigned integers
 * (printf's `%u`, `%lu`, `%Nd` and `%0Nd`) with its inverse, joining fields
 * with a separator and splitting them apart again, and the character buffer
 * that `sprintf`/`printf` append to.
 */
module Text {

  predicate IsDigit(c: char) {
    '0' <= c <= '9'
  }

  predicate AllDigits(s: string) {
    forall i :: 0 <= i < |s| ==> IsDigit(s[i])
  }

  function DigitChar(d: int): (c: char)
    requires 0 <= d < 10
    ensures IsDigit(c)
  {
    ('0' as int + d) as char
  }

  /** The decimal digits of `n`, most significant first, without leading zeros. */
  function DecimalString(n: nat): (s: string)
    ensures 1 <= |s| && AllDigits(s)
    ensures |s| > 1 ==> s[0] != '0'
  {
    if n < 10 then [DigitChar(n)] else DecimalString(n / 10) + [DigitChar(n % 10)]
  }

  /** The number a string of decimal digits denotes. */
  function DecimalValue(s: string): nat
    requires AllDigits(s)
  {
    if s == [] then 0
    else 10 * DecimalValue(s[..|s| - 1]) + (s[|s| - 1] as int - '0' as int)
  }

  /** `s` is a run of decimal digits denoting `n`. */
  predicate ReadsAs(s: string, n: nat) {
    AllDigits(s) && DecimalValue(s) == n
  }

  /** Rendering a number in decimal and reading it back gives the number. */
  lemma {:induction false} DecimalRoundTrip(n: nat)
    ensures DecimalValue(DecimalString(n)) == n
  {
    if n >= 10 {
      var s := DecimalString(n);
      assert s[..|s| - 1] == DecimalString(n / 10);
      DecimalRoundTrip(n / 10);
    }
  }

  /** How many digits `n` has, for the ranges the date fields take. */
  lemma {:induction false} DecimalLength(n: nat)
    ensures n < 10 ==> |DecimalString(n)| == 1
    ensures 10 <= n < 100 ==> |DecimalString(n)| == 2
    ensures 1000 <= n < 10000 ==> |DecimalString(n)| == 4
  {
    if n >= 10 {
      DecimalLength(n / 10);
      if n >= 1000 {
        DecimalLength(n / 100);
        DecimalLength(n / 1000);
        assert n / 10 / 10 == n / 100;
        assert n / 100 / 10 == n / 1000;
      }
    }
  }

  /**
   * printf's `%<width>u`/`%<width>d` (pad ' ') and `%0<width>d` (pad '0') of a
   * non-negative value: the decimal digits, padded on the left to `width`.
   */
  function FormatUnsigned(n: nat, width: nat, pad: char): (s: string)
    ensures |s| == if |DecimalString(n)| < width then width else |DecimalString(n)|
  {
    var digits := DecimalString(n);
    if |digits| < width then seq(width - |digits|, _ => pad) + digits else digits
  }

  /** The padded text is pad characters followed by the decimal digits of `n`. */
  lemma FormatUnsignedShape(n: nat, width: nat, pad: char)
    ensures var s := FormatUnsigned(n, width, pad); var digits := DecimalString(n);
      s[|s| - |digits|..] == digits &&
      forall i :: 0 <= i < |s| - |digits| ==> s[i] == pad
  {
  }

  /** A zero-padded two-digit field reads back as its value. */
  lemma TwoDigitField(n: nat)
    requires n < 100
    ensures |FormatUnsigned(n, 2, '0')| == 2
    ensures AllDigits(FormatUnsigned(n, 2, '0'))
    ensures DecimalValue(FormatUnsigned(n, 2, '0')) == n
  {
    DecimalLength(n);
    DecimalRoundTrip(n);
    var s := FormatUnsigned(n, 2, '0');
    if n < 10 {
      assert s == ['0'] + DecimalString(n);
      assert s[..1] == ['0'];
    }
  }

  /** A four-digit value printed with `%4d` reads back as its value. */
  lemma FourDigitField(n: nat)
    requires 1000 <= n < 10000
    ensures FormatUnsigned(n, 4, ' ') == DecimalString(n)
    ensures |FormatUnsigned(n, 4, ' ')| == 4
    ensures DecimalValue(FormatUnsigned(n, 4, ' ')) == n
  {
    DecimalLength(n);
    DecimalRoundTrip(n);
  }

  /** The fields joined into one string, `sep` between neighbours. */
  function Join(fields: seq<string>, sep: char): string
    requires |fields| >= 1
  {
    if |fields| == 1 then fields[0]
    else Join(fields[..|fields| - 1], sep) + [sep] + fields[|fields| - 1]
  }

  /** The pieces written one after another. */
  function Concat(pieces: seq<string>): string {
    if pieces == [] then "" else Concat(pieces[..|pieces| - 1]) + pieces[|pieces| - 1]
  }

  /** Index of the last `c` in `s`. */
  function LastIndexOf(s: string, c: char): (i: nat)
    requires c in s
    ensures i < |s| && s[i] == c
    ensures c !in s[i + 1..]
  {
    if s[|s| - 1] == c then |s| - 1
    else
      assert c in s[..|s| - 1] by {
        var j :| 0 <= j < |s| && s[j] == c;
        assert s[..|s| - 1][j] == c;
      }
      var i := LastIndexOf(s[..|s| - 1], c);
      assert s[i + 1..] == s[..|s| - 1][i + 1..] + [s[|s| - 1]];
      i
  }

  /** The pieces of `s` between occurrences of `sep`. */
  function Split(s: string, sep: char): (fields: seq<string>)
    ensures |fields| >= 1
    decreases |s|
  {
    if sep !in s then [s]
    else
      var i := LastIndexOf(s, sep);
      Split(s[..i], sep) + [s[i + 1..]]
  }

  predicate NoSeparator(fields: seq<string>, sep: char) {
    forall k :: 0 <= k < |fields| ==> sep !in fields[k]
  }

  /** A separator followed by text without one ends the split with that text as its last piece. */
  lemma SplitAfterSeparator(front: string, sep: char, last: string)
    requires sep !in last
    ensures Split(front + [sep] + last, sep) == Split(front, sep) + [last]
  {
    var s := front + [sep] + last;
    assert s[|front|] == sep;
    assert s[|front| + 1..] == last;
    var i := LastIndexOf(s, sep);
    assert i == |front|;
    assert s[..i] == front;
  }

  /** Fields that hold no separator are recovered by splitting their join. */
  lemma {:induction false} SplitJoin(fields: seq<string>, sep: char)
    requires |fields| >= 1
    requires NoSeparator(fields, sep)
    ensures Split(Join(fields, sep), sep) == fields
  {
    var n := |fields|;
    if n == 1 {
      assert sep !in fields[0];
    } else {
      var front := fields[..n - 1];
      assert sep !in fields[n - 1];
      SplitAfterSeparator(Join(front, sep), sep, fields[n - 1]);
      SplitJoin(front, sep);
      assert front + [fields[n - 1]] == fields;
    }
  }

  /** `s` is one line of output: it ends with a newline and holds no other. */
  predicate IsLine(s: string) {
    |s| > 0 && s[|s| - 1] == '\n' && '\n' !in s[..|s| - 1]
  }

  /** A single line splits into its text and the empty text after its newline. */
  lemma SplitOneLine(line: string)
    requires IsLine(line)
    ensures Split(line, '\n') == [line[..|line| - 1], ""]
  {
    var body := line[..|line| - 1];
    assert line == body + ['\n'] + "";
    SplitAfterSeparator(body, '\n', "");
  }

  /** A line written after a newline adds its text and a new empty last piece. */
  lemma SplitLineAfterNewline(before: string, body: string)
    requires '\n' !in body
    ensures Split(before + ['\n'] + body + ['\n'], '\n') == Split(before, '\n') + [body, ""]
  {
    var s := before + ['\n'] + body;
    assert s + ['\n'] == s + ['\n'] + "";
    SplitAfterSeparator(s, '\n', "");
    SplitAfterSeparator(before, '\n', body);
  }

  /** Text that ends with a newline splits into the pieces before it and an empty last piece. */
  lemma SplitEndingInNewline(before: string)
    ensures var earlier := Split(before + ['\n'], '\n');
      earlier[..|earlier| - 1] == Split(before, '\n') && earlier[|earlier| - 1] == ""
  {
    assert before + ['\n'] == before + ['\n'] + "";
    SplitAfterSeparator(before, '\n', "");
  }

  /**
   * Appending a line to text that is empty or ends with a newline replaces
   * the empty last piece of its split by the line's text, and adds a new
   * empty last piece.
   */
  lemma SplitAppendLine(text: string, line: string)
    requires text == "" || text[|text| - 1] == '\n'
    requires IsLine(line)
    ensures var earlier := Split(text, '\n');
      Split(text + line, '\n') == earlier[..|earlier| - 1] + [line[..|line| - 1]] + [""]
  {
    var body := line[..|line| - 1];
    var earlier := Split(text, '\n');
    if text == "" {
      assert text + line == line;
      assert earlier == [""];
      SplitOneLine(line);
    } else {
      var before := text[..|text| - 1];
      assert text == before + ['\n'];
      SplitEndingInNewline(before);
      assert earlier[..|earlier| - 1] == Split(before, '\n');
      assert text + line == before + ['\n'] + body + ['\n'];
      SplitLineAfterNewline(before, body);
      assert Split(text + line, '\n') == Split(before, '\n') + [body, ""];
    }
  }

  /**
   * Text written as a run of lines splits at its newlines into those lines,
   * each without its newline, followed by the empty text after the last one.
   */
  lemma {:induction false} SplitLines(lines: seq<string>)
    requires forall k :: 0 <= k < |lines| ==> IsLine(lines[k])
    ensures var parts := Split(Concat(lines), '\n');
      |parts| == |lines| + 1 && parts[|lines|] == "" &&
      forall k :: 0 <= k < |lines| ==> parts[k] + "\n" == lines[k]
  {
    if lines != [] {
      var n := |lines|;
      var front := lines[..n - 1];
      var line := lines[n - 1];
      var text := Concat(front);
      var earlier := Split(text, '\n');
      SplitLines(front);
      if front != [] {
        assert text == Concat(front[..n - 2]) + front[n - 2];
        assert IsLine(front[n - 2]);
      }
      SplitAppendLine(text, line);
      var parts := Split(Concat(lines), '\n');
      assert parts == earlier[..n - 1] + [line[..|line| - 1]] + [""];
      forall k | 0 <= k < n
        ensures parts[k] + "\n" == lines[k]
      {
        if k < n - 1 {
          assert parts[k] == earlier[k];
          assert lines[k] == front[k];
        }
      }
    }
  }

  /** A string buffer written by `sprintf` or `printf`. */
  class TextBuffer {
    var text: string

    constructor ()
      ensures text == ""
    {
      text := "";
    }

    /** `sprintf(buf, "<s>")`: the buffer now holds exactly `s`. */
    method Write(s: string)
      modifies this
      ensures text == s
    {
      text := s;
    }

    /** `sprintf(buf, "%s<s>", buf)` or `printf("<s>")`: `s` is appended. */
    method Append(s: string)
      modifies this
      ensures text == old(text) + s
    {
      text := text + s;
    }
  }
}
