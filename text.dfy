/** Text helpers shared by the three simulators: integers written the way a
    Kotlin string template writes them, `String.toIntOrNull`, `split` on one
    character, `joinToString`, and case mapping (restricted to ASCII). */
module Text {

  datatype Option<+T> = None | Some(value: T)

  /** Bounds of Kotlin's 32-bit `Int`. */
  const INT_MIN: int := -0x8000_0000
  const INT_MAX: int := 0x7FFF_FFFF

  predicate IsDigit(c: char) {
    '0' <= c <= '9'
  }

  predicate AllDigits(s: string) {
    forall i :: 0 <= i < |s| ==> IsDigit(s[i])
  }

  function DigitChar(d: nat): (c: char)
    requires d < 10
    ensures IsDigit(c) && c as int - '0' as int == d
  {
    ('0' as int + d) as char
  }

  /** Concatenation regroups freely. */
  lemma ConcatAssoc(a: string, b: string, c: string)
    ensures a + b + c == a + (b + c)
  {
  }

  /** Decimal digits of a natural number, most significant first, no leading zeros. */
  function NatToString(n: nat): (s: string)
    ensures |s| >= 1 && AllDigits(s)
    decreases n
  {
    if n < 10 then [DigitChar(n)] else NatToString(n / 10) + [DigitChar(n % 10)]
  }

  /** How `"$n"` renders an `Int`: a minus sign for negative values, then the digits. */
  function IntToString(n: int): (s: string)
    ensures |s| >= 1
    ensures forall i :: 0 <= i < |s| ==> IsDigit(s[i]) || (i == 0 && s[i] == '-')
  {
    if n < 0 then "-" + NatToString(-n) else NatToString(n)
  }

  /** The number that a string of decimal digits denotes. */
  function DigitsValue(s: string): nat
    requires AllDigits(s)
    decreases |s|
  {
    if s == [] then 0 else DigitsValue(s[..|s| - 1]) * 10 + (s[|s| - 1] as int - '0' as int)
  }

  /** `String.toIntOrNull()`: an optional leading `-` or `+`, then at least one
      ASCII decimal digit and nothing else; `None` when that is not the form or when
      the value does not fit in an `Int`. */
  function ParseInt(s: string): (r: Option<int>)
    ensures r.Some? ==> INT_MIN <= r.value <= INT_MAX
    ensures r.Some? ==> |s| >= 1 && (IsDigit(s[0]) || s[0] == '-' || s[0] == '+')
  {
    if |s| == 0 then None
    else
      var digits := if s[0] == '-' || s[0] == '+' then s[1..] else s;
      if |digits| == 0 || !AllDigits(digits) then None
      else
        var v: int := if s[0] == '-' then -(DigitsValue(digits) as int) else DigitsValue(digits);
        if INT_MIN <= v <= INT_MAX then Some(v) else None
  }

  lemma {:induction false} NatToStringValue(n: nat)
    ensures DigitsValue(NatToString(n)) == n
    decreases n
  {
    if n >= 10 {
      NatToStringValue(n / 10);
      var s := NatToString(n);
      assert s[..|s| - 1] == NatToString(n / 10);
    }
  }

  /** Every `Int` written by a string template reads back as itself. */
  lemma ParseIntToString(n: int)
    requires INT_MIN <= n <= INT_MAX
    ensures ParseInt(IntToString(n)) == Some(n)
  {
    var s := IntToString(n);
    if n < 0 {
      NatToStringValue(-n);
      assert s[1..] == NatToString(-n);
    } else {
      NatToStringValue(n);
    }
  }

  /** `String.split(sep)` with one delimiter character: the pieces between
      delimiters, empty pieces kept, so that `""` gives `[""]`. */
  function Split(s: string, sep: char): (parts: seq<string>)
    ensures |parts| >= 1
    ensures forall i :: 0 <= i < |parts| ==> sep !in parts[i]
    decreases |s|
  {
    if s == [] then [""]
    else
      var rest := Split(s[1..], sep);
      if s[0] == sep then [""] + rest else [[s[0]] + rest[0]] + rest[1..]
  }

  /** `joinToString(sep)`: the parts with `sep` between neighbours and nowhere else. */
  function Join(parts: seq<string>, sep: string): string
    decreases |parts|
  {
    if parts == [] then ""
    else if |parts| == 1 then parts[0]
    else parts[0] + sep + Join(parts[1..], sep)
  }

  /** Joining the pieces of a split with the delimiter gives the string back. */
  lemma {:induction false} JoinSplit(s: string, sep: char)
    ensures Join(Split(s, sep), [sep]) == s
    decreases |s|
  {
    if s != [] {
      JoinSplit(s[1..], sep);
      var rest := Split(s[1..], sep);
      if s[0] != sep && |rest| > 1 {
        assert ([[s[0]] + rest[0]] + rest[1..])[1..] == rest[1..];
      }
    }
  }

  lemma {:induction false} SplitPrefix(a: string, t: string, sep: char)
    requires sep !in a
    ensures Split(a + t, sep) == [a + Split(t, sep)[0]] + Split(t, sep)[1..]
    decreases |a|
  {
    if a != [] {
      assert (a + t)[0] == a[0] && a[0] != sep;
      assert (a + t)[1..] == a[1..] + t;
      SplitPrefix(a[1..], t, sep);
      var rest := Split(a[1..] + t, sep);
      assert rest[0] == a[1..] + Split(t, sep)[0];
      assert rest[1..] == Split(t, sep)[1..];
      assert Split(a + t, sep) == [[a[0]] + rest[0]] + rest[1..];
      assert [a[0]] + (a[1..] + Split(t, sep)[0]) == a + Split(t, sep)[0];
    } else {
      var parts := Split(t, sep);
      assert a + t == t && a + parts[0] == parts[0];
      assert [parts[0]] + parts[1..] == parts;
    }
  }

  /** Splitting a join on a delimiter that no part contains gives the parts back. */
  lemma {:induction false} SplitJoin(parts: seq<string>, sep: char)
    requires |parts| >= 1
    requires forall i :: 0 <= i < |parts| ==> sep !in parts[i]
    ensures Split(Join(parts, [sep]), sep) == parts
    decreases |parts|
  {
    if |parts| == 1 {
      SplitPrefix(parts[0], "", sep);
      assert parts[0] + "" == parts[0];
    } else {
      var tail := Join(parts[1..], [sep]);
      SplitJoin(parts[1..], sep);
      assert Join(parts, [sep]) == parts[0] + ([sep] + tail);
      SplitPrefix(parts[0], [sep] + tail, sep);
      assert ([sep] + tail)[1..] == tail;
      assert Split([sep] + tail, sep) == [""] + parts[1..];
      assert parts[0] + "" == parts[0];
    }
  }

  /** Joining one more part adds the separator and that part at the end. */
  lemma {:induction false} JoinAppend(parts: seq<string>, last: string, sep: string)
    requires |parts| >= 1
    ensures Join(parts + [last], sep) == Join(parts, sep) + sep + last
    decreases |parts|
  {
    if |parts| == 1 {
      assert parts + [last] == [parts[0], last];
      assert [parts[0], last][1..] == [last];
    } else {
      JoinAppend(parts[1..], last, sep);
      assert (parts + [last])[1..] == parts[1..] + [last];
    }
  }

  /** Lines written one after another with `appendLine`: each followed by a newline. */
  function Terminated(lines: seq<string>): string
    decreases |lines|
  {
    if lines == [] then "" else lines[0] + "\n" + Terminated(lines[1..])
  }

  /** Splitting newline-terminated lines at newlines gives the lines and one final empty part. */
  lemma {:induction false} SplitTerminated(lines: seq<string>)
    requires forall i :: 0 <= i < |lines| ==> '\n' !in lines[i]
    ensures Split(Terminated(lines), '\n') == lines + [""]
    decreases |lines|
  {
    if lines != [] {
      var rest := Terminated(lines[1..]);
      SplitTerminated(lines[1..]);
      assert Terminated(lines) == lines[0] + ("\n" + rest);
      assert ("\n" + rest)[1..] == rest;
      assert Split("\n" + rest, '\n') == [""] + (lines[1..] + [""]);
      SplitPrefix(lines[0], "\n" + rest, '\n');
      assert lines[0] + "" == lines[0];
      assert lines + [""] == [lines[0]] + (lines[1..] + [""]);
    }
  }

  /** Newline-terminated lines end in a newline. */
  lemma {:induction false} TerminatedEndsInNewline(lines: seq<string>)
    requires |lines| >= 1
    ensures |Terminated(lines)| >= 1 && Terminated(lines)[|Terminated(lines)| - 1] == '\n'
    decreases |lines|
  {
    if |lines| > 1 {
      TerminatedEndsInNewline(lines[1..]);
    }
  }

  function Lower(c: char): char {
    if 'A' <= c <= 'Z' then (c as int + 32) as char else c
  }

  function Upper(c: char): char {
    if 'a' <= c <= 'z' then (c as int - 32) as char else c
  }

  /** `String.lowercase()` on ASCII letters. */
  function LowerStr(s: string): string {
    seq(|s|, i requires 0 <= i < |s| => Lower(s[i]))
  }

  /** `equals(other, ignoreCase = true)` on ASCII letters. */
  predicate EqualsIgnoreCase(a: string, b: string) {
    LowerStr(a) == LowerStr(b)
  }

  /** `Char.isWhitespace()` on the ASCII range. */
  predicate IsWhitespace(c: char) {
    c == ' ' || '\t' <= c <= '\r' || '\U{1C}' <= c <= '\U{1F}'
  }

  /** `String.isBlank()`: empty, or whitespace only. */
  predicate IsBlank(s: string) {
    forall i :: 0 <= i < |s| ==> IsWhitespace(s[i])
  }
}
