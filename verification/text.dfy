/**
 * The handful of Python string operations the transcoder relies on:
 * `str(n)` for integers, `startswith`, `lstrip(chars)`, `rstrip()` and the
 * way iterating over a text file yields its lines.
 */
module Text {
  import opened Basics

  predicate IsDigit(c: char) { '0' <= c <= '9' }

  predicate AllDigits(s: string) { forall k :: 0 <= k < |s| ==> IsDigit(s[k]) }

  function DigitChar(d: nat): (c: char)
    requires d < 10
    ensures IsDigit(c) && c as int - '0' as int == d
  {
    (d + '0' as int) as char
  }

  /** The number a string of decimal digits denotes. */
  function DigitsValue(s: string): nat
    requires AllDigits(s)
  {
    if s == [] then 0 else 10 * DigitsValue(s[..|s| - 1]) + (s[|s| - 1] as int - '0' as int)
  }

  /** `str(n)` for a non-negative integer: decimal digits, no leading zero. */
  function NatToString(n: nat): (s: string)
    ensures |s| > 0 && AllDigits(s)
    ensures s[0] == '0' <==> n == 0
    ensures s[0] == '0' ==> |s| == 1
    ensures DigitsValue(s) == n
  {
    if n < 10 then [DigitChar(n)] else
      var front := NatToString(n / 10);
      assert (front + [DigitChar(n % 10)])[..|front|] == front;
      front + [DigitChar(n % 10)]
  }

  /** `str(i)` for any integer: a minus sign in front of the magnitude when negative. */
  function IntToString(i: int): (s: string)
    ensures s != [] && (s[0] == '-' <==> i < 0)
    ensures i >= 0 ==> AllDigits(s) && DigitsValue(s) == i
    ensures i < 0 ==> AllDigits(s[1..]) && DigitsValue(s[1..]) == -i
    ensures i >= 0 && s[0] == '0' ==> s == "0"
    ensures i < 0 ==> |s| > 1 && s[1] != '0'
    ensures forall c :: c in s ==> IsDigit(c) || c == '-'
  {
    if i < 0 then "-" + NatToString(-i) else NatToString(i)
  }

  /** Two numbers are rendered alike only when they are equal. */
  lemma NatToStringInjective(a: nat, b: nat)
    requires NatToString(a) == NatToString(b)
    ensures a == b
  {
    assert DigitsValue(NatToString(a)) == DigitsValue(NatToString(b));
  }

  predicate StartsWith(s: string, prefix: string) {
    |prefix| <= |s| && s[..|prefix|] == prefix
  }

  /** The three parts of `a + b + c` are found again at their offsets, and nothing else is in it. */
  lemma ConcatParts(a: string, b: string, c: string)
    ensures var s := a + b + c;
      && s[..|a|] == a && s[|a|..|a| + |b|] == b && s[|a| + |b|..] == c
      && forall ch :: ch in s <==> ch in a || ch in b || ch in c
  {
    var s := a + b + c;
    assert s[..|a|] == a;
    assert s[|a|..|a| + |b|] == b;
    assert s[|a| + |b|..] == c;
  }

  /** Two numbers joined by `_` hold no path separator. */
  lemma SizesHaveNoSeparator(w: int, h: int)
    ensures '/' !in IntToString(w) + "_" + IntToString(h)
  {
    var a, b := IntToString(w), IntToString(h);
    assert '/' !in a && '/' !in b;
  }

  /** `name + "_" + tag + ext` shows each part at its offset; a separator after `name` must come from `tag` or `ext`. */
  lemma TaggedName(name: string, tag: string, ext: string)
    ensures var s := name + "_" + tag + ext;
      && StartsWith(s, name + "_") && |s| == |name| + 1 + |tag| + |ext|
      && s[|name| + 1..|s| - |ext|] == tag && s[|s| - |ext|..] == ext
      && ('/' !in tag && '/' !in ext ==> '/' !in s[|name|..])
  {
    var s := name + "_" + tag + ext;
    ConcatParts(name + "_", tag, ext);
    assert s[|name|..] == "_" + tag + ext;
  }

  /** Python's `str.isspace()` for one character (ASCII and the Unicode space separators). */
  predicate IsSpace(c: char) {
    || c == ' ' || (9 <= c as int <= 13) || (0x1C <= c as int <= 0x1F)
    || c as int == 0x85 || c as int == 0xA0 || c as int == 0x1680
    || (0x2000 <= c as int <= 0x200A) || c as int == 0x2028 || c as int == 0x2029
    || c as int == 0x202F || c as int == 0x205F || c as int == 0x3000
  }

  /** `s.rstrip()`: drops the longest run of whitespace at the end of `s`. */
  function RStrip(s: string): (r: string)
    ensures |r| <= |s| && r == s[..|r|]
    ensures r == [] || !IsSpace(r[|r| - 1])
    ensures forall k :: |r| <= k < |s| ==> IsSpace(s[k])
  {
    if s != [] && IsSpace(s[|s| - 1]) then RStrip(s[..|s| - 1]) else s
  }

  /** `s.lstrip(chars)`: drops the longest run at the front of `s` made of characters in `chars`. */
  function LStrip(s: string, chars: set<char>): (r: string)
    ensures |r| <= |s| && r == s[|s| - |r|..]
    ensures r == [] || r[0] !in chars
    ensures forall k :: 0 <= k < |s| - |r| ==> s[k] in chars
  {
    if s != [] && s[0] in chars then LStrip(s[1..], chars) else s
  }

  /**
   * Index just past the first newline of `s`, or `|s|` when `s` holds none:
   * the length of the first line Python reads from a text file holding `s`.
   */
  function LineEnd(s: string): (k: nat)
    requires s != []
    ensures 0 < k <= |s|
    ensures forall j :: 0 <= j < k - 1 ==> s[j] != '\n'
    ensures k < |s| ==> s[k - 1] == '\n'
  {
    if s[0] == '\n' || |s| == 1 then 1 else 1 + LineEnd(s[1..])
  }

  function Concat(lines: seq<string>): string {
    if lines == [] then [] else lines[0] + Concat(lines[1..])
  }

  /**
   * The lines `for line in file` yields for a file holding `s`: each keeps its
   * terminating newline, and a last line without one is yielded as it is.
   */
  function Lines(s: string): (ls: seq<string>)
    ensures Concat(ls) == s
    ensures forall i :: 0 <= i < |ls| ==> ls[i] != []
    ensures forall i :: 0 <= i < |ls| - 1 ==> ls[i][|ls[i]| - 1] == '\n'
    ensures forall i :: 0 <= i < |ls| ==> '\n' !in ls[i][..|ls[i]| - 1]
    decreases |s|
  {
    if s == [] then [] else
      var k := LineEnd(s);
      assert s == s[..k] + s[k..];
      LinesCons(s[..k], Lines(s[k..]));
      [s[..k]] + Lines(s[k..])
  }

  /** A first line in front of well-formed lines: the shape `Lines` promises carries over. */
  lemma LinesCons(first: string, rest: seq<string>)
    requires first != [] && '\n' !in first[..|first| - 1]
    requires rest != [] ==> first[|first| - 1] == '\n'
    requires forall i :: 0 <= i < |rest| ==> rest[i] != [] && '\n' !in rest[i][..|rest[i]| - 1]
    requires forall i :: 0 <= i < |rest| - 1 ==> rest[i][|rest[i]| - 1] == '\n'
    ensures forall i :: 0 <= i < |[first] + rest| ==> ([first] + rest)[i] != []
    ensures forall i :: 0 <= i < |[first] + rest| - 1 ==> ([first] + rest)[i][|([first] + rest)[i]| - 1] == '\n'
    ensures forall i :: 0 <= i < |[first] + rest| ==> '\n' !in ([first] + rest)[i][..|([first] + rest)[i]| - 1]
  {
    var ls := [first] + rest;
    assert forall i :: 1 <= i < |ls| ==> ls[i] == rest[i - 1];
  }

  lemma {:induction false} LineEndOfLine(p: string)
    requires '\n' !in p
    ensures LineEnd(p + "\n") == |p| + 1
    decreases |p|
  {
    if p != [] {
      assert (p + "\n")[1..] == p[1..] + "\n";
      LineEndOfLine(p[1..]);
    }
  }

  lemma {:induction false} LineEndOfAppend(a: string, b: string)
    requires a != [] && a[|a| - 1] == '\n'
    ensures LineEnd(a + b) == LineEnd(a)
    decreases |a|
  {
    if a[0] != '\n' {
      assert (a + b)[1..] == a[1..] + b;
      LineEndOfAppend(a[1..], b);
    }
  }

  /** Appending to a file that is empty or ends with a newline only adds lines after the old ones. */
  lemma {:induction false} LinesAppend(a: string, b: string)
    requires a == [] || a[|a| - 1] == '\n'
    ensures Lines(a + b) == Lines(a) + Lines(b)
    decreases |a|
  {
    if a == [] {
      assert a + b == b;
    } else {
      var k := LineEnd(a);
      var rest := a[k..];
      FirstLineOfAppend(a, b);
      assert rest == [] || rest[|rest| - 1] == '\n';
      LinesAppend(rest, b);
      AppendAssoc([a[..k]], Lines(rest), Lines(b));
    }
  }

  /** The first line of `a + b`, for `a` ending with a newline, is the first line of `a`. */
  lemma FirstLineOfAppend(a: string, b: string)
    requires a != [] && a[|a| - 1] == '\n'
    ensures Lines(a + b) == [a[..LineEnd(a)]] + Lines(a[LineEnd(a)..] + b)
  {
    var k := LineEnd(a);
    LineEndOfAppend(a, b);
    assert (a + b)[..k] == a[..k];
    assert (a + b)[k..] == a[k..] + b;
  }

  /** A text with one newline, at its end, is read as exactly one line. */
  lemma LinesOfOneLine(p: string)
    requires '\n' !in p
    ensures Lines(p + "\n") == [p + "\n"]
  {
    LineEndOfLine(p);
    assert (p + "\n")[..|p| + 1] == p + "\n";
  }
}
