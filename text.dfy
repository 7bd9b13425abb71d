/**
 * The little string machinery the plugin borrows from Python: the decimal
 * rendering of an integer that `%d` and `%s` produce, `str.split("\n")`,
 * `str.replace` of one character, and the newline-terminated concatenation
 * that a run of `s += "...\n"` statements builds.
 */
module Text {

  predicate IsDigit(c: char) {
    '0' <= c <= '9'
  }

  predicate AllDigits(s: string) {
    forall i :: 0 <= i < |s| ==> IsDigit(s[i])
  }

  /** A string holds no line break. */
  predicate SingleLine(s: string) {
    '\n' !in s
  }

  predicate AllSingleLine(lines: seq<string>) {
    forall i :: 0 <= i < |lines| ==> SingleLine(lines[i])
  }

  lemma SingleLineConcat(a: string, b: string)
    requires SingleLine(a) && SingleLine(b)
    ensures SingleLine(a + b)
  {
  }

  function DigitChar(d: nat): (c: char)
    requires d < 10
    ensures IsDigit(c) && c as int - '0' as int == d
  {
    ('0' as int + d) as char
  }

  /** Decimal digits of a natural number, most significant first, no leading zero. */
  function NatToDecimal(n: nat): (s: string)
    ensures |s| >= 1 && AllDigits(s)
    ensures s[0] == '0' ==> n == 0 && s == "0"
    decreases n
  {
    if n < 10 then [DigitChar(n)] else NatToDecimal(n / 10) + [DigitChar(n % 10)]
  }

  /** Python's `"%d" % i` (and `str(i)`): an optional minus sign, then the digits of |i|. */
  function IntToDecimal(i: int): (s: string)
    ensures SingleLine(s)
    ensures i < 0 <==> (|s| > 0 && s[0] == '-')
    ensures i >= 0 ==> AllDigits(s)
    ensures i < 0 ==> AllDigits(s[1..]) && |s| >= 2
    ensures var d := if i < 0 then s[1..] else s; |d| >= 1 && (d[0] == '0' ==> d == "0")
  {
    var digits := NatToDecimal(if i < 0 then -i else i);
    assert forall k :: 0 <= k < |digits| ==> digits[k] != '\n' && digits[k] != '-';
    if i < 0 then "-" + digits else digits
  }

  /** The value of a string of decimal digits; the reference reading for NatToDecimal. */
  function DecimalValue(s: string): nat
    requires AllDigits(s)
  {
    if s == [] then 0
    else DecimalValue(s[..|s| - 1]) * 10 + (s[|s| - 1] as int - '0' as int)
  }

  /** The digits NatToDecimal produces read back as the number they came from. */
  lemma {:induction false} NatToDecimalRoundTrip(n: nat)
    ensures DecimalValue(NatToDecimal(n)) == n
    decreases n
  {
    var s := NatToDecimal(n);
    if n >= 10 {
      var prefix := NatToDecimal(n / 10);
      assert s[..|s| - 1] == prefix;
      NatToDecimalRoundTrip(n / 10);
    }
  }

  /** Reading IntToDecimal back: a leading '-' negates the digits that follow. */
  lemma IntToDecimalRoundTrip(i: int)
    ensures var s := IntToDecimal(i);
      if i < 0 then -(DecimalValue(s[1..]) as int) == i else DecimalValue(s) == i
  {
    if i < 0 {
      assert IntToDecimal(i)[1..] == NatToDecimal(-i);
      NatToDecimalRoundTrip(-i);
    } else {
      NatToDecimalRoundTrip(i);
    }
  }

  /** Python's `s.split("\n")`: the pieces between line breaks, always at least one. */
  function Split(s: string): (parts: seq<string>)
    ensures |parts| >= 1
    ensures AllSingleLine(parts)
  {
    if |s| == 0 then [""]
    else
      var rest := Split(s[1..]);
      if s[0] == '\n' then [""] + rest
      else [[s[0]] + rest[0]] + rest[1..]
  }

  /** Python's `"\n".join(parts)`. */
  function Join(parts: seq<string>): string
    requires |parts| >= 1
  {
    if |parts| == 1 then parts[0] else parts[0] + "\n" + Join(parts[1..])
  }

  /** What a run of `s += line + "\n"` builds from an empty string. */
  function Terminated(lines: seq<string>): string {
    if lines == [] then "" else lines[0] + "\n" + Terminated(lines[1..])
  }

  /** A line-break-free prefix glues onto the first piece of what follows it. */
  lemma {:induction false} SplitPrefix(a: string, t: string)
    requires SingleLine(a)
    ensures Split(a + t) == [a + Split(t)[0]] + Split(t)[1..]
    decreases |a|
  {
    if |a| > 0 {
      assert (a + t)[1..] == a[1..] + t;
      assert a[0] != '\n';
      SplitPrefix(a[1..], t);
      assert [a[0]] + (a[1..] + Split(t)[0]) == a + Split(t)[0];
    } else {
      assert a + t == t;
      assert a + Split(t)[0] == Split(t)[0];
      assert [Split(t)[0]] + Split(t)[1..] == Split(t);
    }
  }

  /** A line break starts a new, initially empty piece. */
  lemma SplitBreak(a: string, t: string)
    requires SingleLine(a)
    ensures Split(a + "\n" + t) == [a] + Split(t)
  {
    var nt := "\n" + t;
    assert nt[0] == '\n' && nt[1..] == t;
    assert Split(nt) == [""] + Split(t);
    SplitPrefix(a, nt);
    assert a + "\n" + t == a + nt;
    assert a + "" == a;
  }

  /** Splitting undoes joining when no piece holds a line break. */
  lemma {:induction false} SplitJoin(parts: seq<string>)
    requires |parts| >= 1 && AllSingleLine(parts)
    ensures Split(Join(parts)) == parts
    decreases |parts|
  {
    if |parts| > 1 {
      SplitJoin(parts[1..]);
      SplitBreak(parts[0], Join(parts[1..]));
    } else {
      SplitPrefix(parts[0], "");
      assert parts[0] + "" == parts[0];
    }
  }

  /** Newline-terminated lines split into those lines and one empty trailing piece. */
  lemma {:induction false} SplitTerminated(lines: seq<string>)
    requires AllSingleLine(lines)
    ensures Split(Terminated(lines)) == lines + [""]
    decreases |lines|
  {
    if lines != [] {
      SplitTerminated(lines[1..]);
      SplitBreak(lines[0], Terminated(lines[1..]));
      assert [lines[0]] + (lines[1..] + [""]) == lines + [""];
    }
  }

  lemma {:induction false} TerminatedAppend(xs: seq<string>, ys: seq<string>)
    ensures Terminated(xs + ys) == Terminated(xs) + Terminated(ys)
    decreases |xs|
  {
    if xs != [] {
      assert (xs + ys)[1..] == xs[1..] + ys;
      TerminatedAppend(xs[1..], ys);
    } else {
      assert xs + ys == ys;
    }
  }

  /** Python's `s += line + "\n"`. */
  function AppendLine(s: string, line: string): string {
    s + (line + "\n")
  }

  /** Appending a line to the text is appending it to the list of lines. */
  lemma TerminatedSnoc(lines: seq<string>, line: string)
    ensures Terminated(lines + [line]) == AppendLine(Terminated(lines), line)
  {
    TerminatedAppend(lines, [line]);
    assert [line][1..] == [];
  }

  /** Python's `s.replace(sep, "/")` for a one-character separator. */
  function ReplaceWithSlash(s: string, sep: char): (r: string)
    ensures |r| == |s|
    ensures forall i :: 0 <= i < |s| ==> r[i] == (if s[i] == sep then '/' else s[i])
  {
    if s == [] then [] else [if s[0] == sep then '/' else s[0]] + ReplaceWithSlash(s[1..], sep)
  }

  /** After the replacement no separator is left, unless the separator is '/' itself. */
  lemma ReplaceWithSlashRemovesSeparator(s: string, sep: char)
    requires sep != '/'
    ensures sep !in ReplaceWithSlash(s, sep)
  {
  }

  /** Replacing '/' by '/' changes nothing, as on every platform whose separator is '/'. */
  lemma ReplaceSlashIsIdentity(s: string)
    ensures ReplaceWithSlash(s, '/') == s
  {
    var r := ReplaceWithSlash(s, '/');
    assert |r| == |s|;
    assert forall i :: 0 <= i < |s| ==> r[i] == s[i];
  }
}
