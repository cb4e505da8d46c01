/** The JavaScript string operations the core relies on, over `seq<char>`.
    Case mapping covers ASCII letters only. */
module Strings {
  import opened Wrappers

  /** A JavaScript optional string is truthy when it is present and non-empty. */
  predicate Truthy(o: Option<string>) {
    o.Some? && o.value != ""
  }

  /** `c.repeat(n)` for a one-character string `c`. */
  function Repeat(c: char, n: nat): (r: string)
    ensures |r| == n
    ensures forall i :: 0 <= i < n ==> r[i] == c
  {
    seq(n, _ => c)
  }

  /** `s.padEnd(width)`: pads with spaces on the right up to `width`. */
  function PadEnd(s: string, width: int): (r: string)
    ensures |s| >= width ==> r == s
    ensures |s| < width ==> |r| == width && r[..|s|] == s
    ensures forall i :: |s| <= i < |r| ==> r[i] == ' '
  {
    if |s| >= width then s else s + Repeat(' ', width - |s|)
  }

  /** `s.slice(0, end)`: a negative `end` counts back from the end of `s`. */
  function SliceTo(s: string, end: int): (r: string)
    ensures 0 <= end <= |s| ==> r == s[..end]
    ensures end > |s| ==> r == s
    ensures end < 0 ==> r == s[..if |s| + end < 0 then 0 else |s| + end]
  {
    if end >= 0 then (if end <= |s| then s[..end] else s)
    else if |s| + end < 0 then ""
    else s[..|s| + end]
  }

  /** `parts.join(sep)`. */
  function Join(parts: seq<string>, sep: string): string
  {
    if |parts| == 0 then ""
    else if |parts| == 1 then parts[0]
    else Join(parts[..|parts| - 1], sep) + sep + parts[|parts| - 1]
  }

  /** The total length of a sequence of strings. */
  function TotalLength(parts: seq<string>): nat
  {
    if |parts| == 0 then 0 else TotalLength(parts[..|parts| - 1]) + |parts[|parts| - 1]|
  }

  /** A joined string is as long as its parts plus one separator between each two. */
  lemma {:induction false} JoinLength(parts: seq<string>, sep: string)
    requires |parts| > 0
    ensures |Join(parts, sep)| == TotalLength(parts) + |sep| * (|parts| - 1)
  {
    if |parts| > 1 {
      var init, last := parts[..|parts| - 1], parts[|parts| - 1];
      JoinLength(init, sep);
      assert Join(parts, sep) == Join(init, sep) + sep + last;
      assert TotalLength(parts) == TotalLength(init) + |last|;
    }
  }

  /** The text of a sequence of lines, each one followed by a newline. */
  function Unlines(lines: seq<string>): string
  {
    if lines == [] then "" else Unlines(lines[..|lines| - 1]) + lines[|lines| - 1] + "\n"
  }

  lemma {:induction false} UnlinesAppend(a: seq<string>, b: seq<string>)
    ensures Unlines(a + b) == Unlines(a) + Unlines(b)
    decreases |b|
  {
    if b == [] {
      assert a + b == a;
    } else {
      var b' := b[..|b| - 1];
      assert (a + b)[..|a + b| - 1] == a + b';
      UnlinesAppend(a, b');
    }
  }

  /** Appending one line to a text of lines. */
  lemma UnlinesSnoc(a: seq<string>, line: string)
    ensures Unlines(a + [line]) == Unlines(a) + line + "\n"
  {
    assert (a + [line])[..|a|] == a;
  }

  lemma UnlinesOne(a: string)
    ensures Unlines([a]) == a + "\n"
  {
    UnlinesSnoc([], a);
  }

  lemma UnlinesTwo(a: string, b: string)
    ensures Unlines([a, b]) == a + "\n" + b + "\n"
  {
    UnlinesSnoc([a], b);
    UnlinesOne(a);
  }

  /** `text += line + '\n'` on a text that holds the lines `done`. */
  method AppendLine(text: string, ghost done: seq<string>, line: string) returns (r: string)
    requires text == Unlines(done)
    ensures r == text + line + "\n"
    ensures r == Unlines(done + [line])
  {
    UnlinesSnoc(done, line);
    r := text + line + "\n";
  }

  lemma UnlinesFour(a: string, b: string, c: string, d: string)
    ensures Unlines([a, b, c, d]) == a + "\n" + b + "\n" + c + "\n" + d + "\n"
  {
    UnlinesTwo(a, b);
    UnlinesSnoc([a, b], c);
    assert [a, b] + [c] == [a, b, c];
    UnlinesSnoc([a, b, c], d);
    assert [a, b, c] + [d] == [a, b, c, d];
  }

  function UpperChar(c: char): char {
    if 'a' <= c <= 'z' then (c as int - 'a' as int + 'A' as int) as char else c
  }

  function LowerChar(c: char): char {
    if 'A' <= c <= 'Z' then (c as int - 'A' as int + 'a' as int) as char else c
  }

  /** `s.toUpperCase()` on ASCII text. */
  function ToUpper(s: string): (r: string)
    ensures |r| == |s|
    ensures forall i :: 0 <= i < |s| ==> r[i] == UpperChar(s[i])
  {
    seq(|s|, i requires 0 <= i < |s| => UpperChar(s[i]))
  }

  /** `s.toLowerCase()` on ASCII text. */
  function ToLower(s: string): (r: string)
    ensures |r| == |s|
    ensures forall i :: 0 <= i < |s| ==> r[i] == LowerChar(s[i])
  {
    seq(|s|, i requires 0 <= i < |s| => LowerChar(s[i]))
  }

  predicate IsDigit(c: char) {
    '0' <= c <= '9'
  }

  function DigitChar(d: nat): (c: char)
    requires d < 10
    ensures IsDigit(c)
  {
    ('0' as int + d) as char
  }

  /** The decimal text of a natural number, as `${n}` renders it. */
  function NatToString(n: nat): (r: string)
    ensures |r| > 0 && IsDigit(r[|r| - 1])
    ensures forall i :: 0 <= i < |r| ==> IsDigit(r[i])
  {
    if n < 10 then [DigitChar(n)] else NatToString(n / 10) + [DigitChar(n % 10)]
  }

  /** The decimal text of an integer, with a leading '-' when negative. */
  function IntToString(n: int): (r: string)
    ensures |r| > 0
    ensures n >= 0 ==> r == NatToString(n)
    ensures n < 0 ==> r == "-" + NatToString(-n)
  {
    if n >= 0 then NatToString(n) else "-" + NatToString(-n)
  }

  /** Distinct numbers have distinct decimal texts. */
  lemma {:induction false} NatToStringInjective(a: nat, b: nat)
    requires NatToString(a) == NatToString(b)
    ensures a == b
  {
    var s := NatToString(a);
    if a < 10 || b < 10 {
    } else {
      var ta, tb := NatToString(a / 10), NatToString(b / 10);
      assert s == ta + [DigitChar(a % 10)];
      assert s == tb + [DigitChar(b % 10)];
      assert ta == s[..|s| - 1] == tb;
      assert DigitChar(a % 10) == s[|s| - 1] == DigitChar(b % 10);
      NatToStringInjective(a / 10, b / 10);
    }
  }

  lemma IntToStringInjective(a: int, b: int)
    requires IntToString(a) == IntToString(b)
    ensures a == b
  {
    var s := IntToString(a);
    assert IsDigit(NatToString(if a >= 0 then a else -a)[0]);
    assert IsDigit(NatToString(if b >= 0 then b else -b)[0]);
    assert (s[0] == '-') == (a < 0) == (b < 0);
    if a >= 0 {
      NatToStringInjective(a, b);
    } else {
      assert NatToString(-a) == s[1..] == NatToString(-b);
      NatToStringInjective(-a, -b);
    }
  }

  predicate StartsWith(s: string, prefix: string) {
    |prefix| <= |s| && s[..|prefix|] == prefix
  }

  /** Whatever follows a text keeps its prefix. */
  lemma StartsWithConcat(s: string, t: string, p: string)
    requires StartsWith(s, p)
    ensures StartsWith(s + t, p)
  {
    assert (s + t)[..|p|] == s[..|p|];
  }

  /** The text of lines starts with the first line and its newline. */
  lemma UnlinesStartsWith(lines: seq<string>)
    requires lines != []
    ensures StartsWith(Unlines(lines), lines[0] + "\n")
  {
    assert lines == [lines[0]] + lines[1..];
    UnlinesAppend([lines[0]], lines[1..]);
    UnlinesOne(lines[0]);
    StartsWithConcat(lines[0] + "\n", Unlines(lines[1..]), lines[0] + "\n");
  }

  /** A text that starts with `p + q` starts with `p`. */
  lemma StartsWithShorter(s: string, p: string, q: string)
    requires StartsWith(s, p + q)
    ensures StartsWith(s, p)
  {
    assert (p + q)[..|p|] == p;
    assert s[..|p|] == s[..|p + q|][..|p|];
  }

  predicate EndsWith(s: string, suffix: string) {
    |suffix| <= |s| && s[|s| - |suffix|..] == suffix
  }

  /** `s.includes(t)`. */
  ghost predicate Contains(s: string, t: string) {
    exists i :: OccursAt(s, t, i)
  }

  predicate OccursAt(s: string, t: string, i: int) {
    0 <= i <= |s| - |t| && s[i..i + |t|] == t
  }

  /** A string contains each part it is assembled from. */
  lemma ContainsMiddle(a: string, t: string, b: string)
    ensures Contains(a + t + b, t)
  {
    assert (a + t + b)[|a|..|a| + |t|] == t;
    assert OccursAt(a + t + b, t, |a|);
  }

  /** The text of lines starts with the first character of the first line. */
  lemma UnlinesHead(lines: seq<string>)
    requires lines != [] && lines[0] != ""
    ensures Unlines(lines) != "" && Unlines(lines)[0] == lines[0][0]
  {
    assert lines == [lines[0]] + lines[1..];
    UnlinesAppend([lines[0]], lines[1..]);
    UnlinesOne(lines[0]);
  }

  lemma ContainsAt(s: string, t: string, i: nat)
    requires i + |t| <= |s| && s[i..i + |t|] == t
    ensures Contains(s, t)
  {
    assert OccursAt(s, t, i);
  }
}
