/**
 * The chunk list `chunks.txt`: an ffmpeg "ffconcat" list with one
 * `file <name>` line per chunk, written line by line by the manual split and
 * read back by `Transcoder.chunk_files`.
 */
module Manifest {
  import opened Basics
  import opened Text
  import opened Paths

  const ListFileName := "chunks.txt"
  const ChunkBaseName := "chunk"
  const SegmentFormat := "%d"
  const GlobFormat := "*"

  /** The prefix that marks an entry line. */
  const EntryPrefix := "file "

  /** The characters `line.lstrip("file ")` removes from the front of an entry line. */
  const EntryChars: set<char> := {'f', 'i', 'l', 'e', ' '}

  /** The header line ffmpeg puts at the top of an ffconcat list. */
  const HeaderText := "ffconcat version 1.0"
  const Header := HeaderText + "\n"

  /** `chunk<i><ext>`: chunk `i`'s file name, relative to the source's directory. */
  function ChunkName(i: nat, ext: string): (s: string)
    ensures StartsWith(s, ChunkBaseName) && s[0] == 'c'
    ensures |ChunkBaseName| + |ext| < |s| && s[|s| - |ext|..] == ext
    ensures AllDigits(s[|ChunkBaseName|..|s| - |ext|]) && DigitsValue(s[|ChunkBaseName|..|s| - |ext|]) == i
    ensures s[|ChunkBaseName|] == '0' ==> |s| == |ChunkBaseName| + 1 + |ext|
    ensures '\n' !in ext ==> '\n' !in s
    ensures '/' !in ext ==> '/' !in s
  {
    var digits := NatToString(i);
    ConcatParts(ChunkBaseName, digits, ext);
    var s := ChunkBaseName + digits + ext;
    assert s[|ChunkBaseName|] == digits[0];
    s
  }

  /** Distinct chunks have distinct names. */
  lemma ChunkNameInjective(i: nat, j: nat, ext: string)
    requires ChunkName(i, ext) == ChunkName(j, ext)
    ensures i == j
  {
    var a, b := NatToString(i), NatToString(j);
    assert |a| == |b|;
    assert a == ChunkName(i, ext)[|ChunkBaseName|..|ChunkBaseName| + |a|];
    assert b == ChunkName(j, ext)[|ChunkBaseName|..|ChunkBaseName| + |b|];
    NatToStringInjective(i, j);
  }

  /** The line the manual split appends for a chunk: `"file {}\n".format(name)`. */
  function EntryLine(name: string): string
  {
    EntryPrefix + name + "\n"
  }

  /** An entry line is the entry prefix, then the name, then one newline. */
  lemma EntryLineParts(name: string)
    ensures var line := EntryLine(name);
      |line| == |EntryPrefix| + |name| + 1 && StartsWith(line, EntryPrefix)
      && line[|EntryPrefix|..|line| - 1] == name && line[|line| - 1] == '\n'
  {
    var line := EntryLine(name);
    assert line[..|EntryPrefix|] == EntryPrefix;
    assert line[|EntryPrefix|..|line| - 1] == name;
  }

  /** What a file extension must avoid for its chunk names to read back unchanged. */
  predicate ListSafe(ext: string) {
    '\n' !in ext && (ext == [] || !IsSpace(ext[|ext| - 1]))
  }

  /** The text the manual split appends to the list for chunks `0 .. n-1`, in that order. */
  function ListText(n: nat, ext: string): (t: string)
    ensures t == [] || t[|t| - 1] == '\n'
    ensures n > 0 ==> t != []
  {
    if n == 0 then [] else ListText(n - 1, ext) + EntryLine(ChunkName(n - 1, ext))
  }

  /** Appending one more chunk's entry to a list that already holds chunks `0 .. n-1`. */
  lemma ListTextStep(prior: string, n: nat, ext: string)
    ensures prior + ListText(n, ext) + EntryLine(ChunkName(n, ext)) == prior + ListText(n + 1, ext)
  {
    var t, e := ListText(n, ext), EntryLine(ChunkName(n, ext));
    assert ListText(n + 1, ext) == t + e;
    AppendAssoc(prior, t, e);
  }

  /** The lines of `ListText(n, ext)`, one per chunk. */
  function EntryLines(n: nat, ext: string): (ls: seq<string>)
    ensures |ls| == n
    ensures forall i :: 0 <= i < n ==> ls[i] == EntryLine(ChunkName(i, ext))
  {
    if n == 0 then [] else EntryLines(n - 1, ext) + [EntryLine(ChunkName(n - 1, ext))]
  }

  /** `os.path.join(dir, name)` for the chunks `0 .. n-1`, in order. */
  function ChunkPathsIn(dir: string, n: nat, ext: string): (ps: seq<string>)
    ensures |ps| == n
    ensures forall i :: 0 <= i < n ==> ps[i] == Join(dir, ChunkName(i, ext))
  {
    if n == 0 then [] else ChunkPathsIn(dir, n - 1, ext) + [Join(dir, ChunkName(n - 1, ext))]
  }

  /**
   * What `chunk_files` makes of one line: a line starting with `file ` gives
   * `os.path.join(dir, line.lstrip("file ").rstrip())`; any other line gives nothing.
   */
  function EntryPath(dir: string, line: string): (r: seq<string>)
    ensures |r| == (if StartsWith(line, EntryPrefix) then 1 else 0)
  {
    if StartsWith(line, EntryPrefix) then [Join(dir, RStrip(LStrip(line, EntryChars)))] else []
  }

  /** The paths `chunk_files` collects from the given lines, in line order. */
  function ParseLines(dir: string, lines: seq<string>): (ps: seq<string>)
    ensures |ps| <= |lines|
  {
    if lines == [] then [] else ParseLines(dir, lines[..|lines| - 1]) + EntryPath(dir, lines[|lines| - 1])
  }

  /**
   * The paths `chunk_files` returns for a list file holding `text`: each is
   * what some line of the file gives.
   */
  function ParseList(dir: string, text: string): (ps: seq<string>)
    ensures |ps| <= |Lines(text)|
    ensures forall k :: 0 <= k < |ps| ==> FromSomeLine(dir, Lines(text), ps[k])
  {
    ParseLinesFromEntries(dir, Lines(text));
    ParseLines(dir, Lines(text))
  }

  /** Path `p` is what one of `lines` gives: that line starts with `file ` and reads as `p`. */
  predicate FromSomeLine(dir: string, lines: seq<string>, p: string) {
    exists j :: 0 <= j < |lines| && EntryPath(dir, lines[j]) == [p]
  }

  /** Every path `chunk_files` collects is what some line gives. */
  lemma {:induction false} ParseLinesFromEntries(dir: string, lines: seq<string>)
    ensures forall k :: 0 <= k < |ParseLines(dir, lines)| ==> FromSomeLine(dir, lines, ParseLines(dir, lines)[k])
  {
    if lines != [] {
      var front, last := lines[..|lines| - 1], lines[|lines| - 1];
      assert front + [last] == lines;
      ParseLinesFromEntries(dir, front);
      forall k | 0 <= k < |ParseLines(dir, lines)|
        ensures FromSomeLine(dir, lines, ParseLines(dir, lines)[k])
      {
        FromSomeLineStep(dir, front, last, k);
      }
    }
  }

  /** The induction step of `ParseLinesFromEntries`: one more line at the end. */
  lemma FromSomeLineStep(dir: string, front: seq<string>, last: string, k: nat)
    requires forall k' :: 0 <= k' < |ParseLines(dir, front)| ==> FromSomeLine(dir, front, ParseLines(dir, front)[k'])
    requires k < |ParseLines(dir, front + [last])|
    ensures FromSomeLine(dir, front + [last], ParseLines(dir, front + [last])[k])
  {
    var lines, earlier := front + [last], ParseLines(dir, front);
    ParseLinesSnoc(dir, front, last);
    if k < |earlier| {
      assert FromSomeLine(dir, front, earlier[k]);
      var j :| 0 <= j < |front| && EntryPath(dir, front[j]) == [earlier[k]];
      assert lines[j] == front[j];
    } else {
      assert lines[|front|] == last;
    }
  }

  lemma ParseLinesSnoc(dir: string, lines: seq<string>, line: string)
    ensures ParseLines(dir, lines + [line]) == ParseLines(dir, lines) + EntryPath(dir, line)
  {
    assert (lines + [line])[..|lines|] == lines;
  }

  /** Parsing keeps line order: the entries of two runs of lines are those of each, one after the other. */
  lemma {:induction false} ParseLinesAppend(dir: string, a: seq<string>, b: seq<string>)
    ensures ParseLines(dir, a + b) == ParseLines(dir, a) + ParseLines(dir, b)
    decreases |b|
  {
    if b == [] {
      assert a + b == a;
    } else {
      var init, last := b[..|b| - 1], b[|b| - 1];
      assert a + b == (a + init) + [last];
      assert b == init + [last];
      ParseLinesSnoc(dir, a + init, last);
      ParseLinesSnoc(dir, init, last);
      ParseLinesAppend(dir, a, init);
    }
  }

  /** A line that does not start with `file ` (such as the ffconcat header) contributes nothing, wherever it stands. */
  lemma SkipsNonEntry(dir: string, a: seq<string>, line: string, b: seq<string>)
    requires !StartsWith(line, EntryPrefix)
    ensures ParseLines(dir, a + [line] + b) == ParseLines(dir, a + b)
  {
    ParseLinesAppend(dir, a + [line], b);
    ParseLinesSnoc(dir, a, line);
    ParseLinesAppend(dir, a, b);
  }

  /** `lstrip` over a run of stripped characters stops at the first character outside the set. */
  lemma {:induction false} LStripRun(p: string, s: string, chars: set<char>)
    requires forall k :: 0 <= k < |p| ==> p[k] in chars
    requires s != [] && s[0] !in chars
    ensures LStrip(p + s, chars) == s
    decreases |p|
  {
    if p == [] {
      assert p + s == s;
    } else {
      assert (p + s)[1..] == p[1..] + s;
      LStripRun(p[1..], s, chars);
    }
  }

  /** `rstrip` removes a trailing run of whitespace and stops at the last character that is not whitespace. */
  lemma {:induction false} RStripRun(name: string, spaces: string)
    requires name != [] && !IsSpace(name[|name| - 1])
    requires forall k :: 0 <= k < |spaces| ==> IsSpace(spaces[k])
    ensures RStrip(name + spaces) == name
    decreases |spaces|
  {
    if spaces == [] {
      assert name + spaces == name;
    } else {
      var s := name + spaces;
      assert s[..|s| - 1] == name + spaces[..|spaces| - 1];
      RStripRun(name, spaces[..|spaces| - 1]);
    }
  }

  lemma RStripNewline(name: string)
    requires name != [] && !IsSpace(name[|name| - 1])
    ensures RStrip(name + "\n") == name
  {
    RStripRun(name, "\n");
  }

  /**
   * An entry line reads back as the name written into it, provided the name
   * is not empty, does not begin with one of the characters `lstrip("file ")`
   * removes and does not end in whitespace.
   */
  lemma EntryRoundTrip(dir: string, name: string)
    requires name != [] && name[0] !in EntryChars && !IsSpace(name[|name| - 1])
    ensures EntryPath(dir, EntryLine(name)) == [Join(dir, name)]
  {
    var line := EntryLine(name);
    assert line == EntryPrefix + (name + "\n");
    assert StartsWith(line, EntryPrefix);
    LStripRun(EntryPrefix, name + "\n", EntryChars);
    RStripNewline(name);
  }

  lemma LinesOfEntryLine(name: string)
    requires '\n' !in name
    ensures Lines(EntryLine(name)) == [EntryLine(name)]
  {
    var p := EntryPrefix + name;
    assert '\n' !in p by {
      assert forall c :: c in p ==> c in EntryPrefix || c in name;
    }
    LinesOfOneLine(p);
  }

  /** The text of chunks `0 .. n-1` is read as exactly their `n` entry lines, in order. */
  lemma {:induction false} LinesOfListText(n: nat, ext: string)
    requires '\n' !in ext
    ensures Lines(ListText(n, ext)) == EntryLines(n, ext)
  {
    if n > 0 {
      var line := EntryLine(ChunkName(n - 1, ext));
      LinesOfListText(n - 1, ext);
      LinesAppend(ListText(n - 1, ext), line);
      LinesOfEntryLine(ChunkName(n - 1, ext));
    }
  }

  /** Chunk names read back unchanged: they start with `c` and end in a digit or in the extension. */
  lemma ChunkNameRoundTrip(dir: string, i: nat, ext: string)
    requires ListSafe(ext)
    ensures EntryPath(dir, EntryLine(ChunkName(i, ext))) == [Join(dir, ChunkName(i, ext))]
  {
    var name := ChunkName(i, ext);
    var digits := NatToString(i);
    assert name[|name| - 1] == if ext == [] then digits[|digits| - 1] else ext[|ext| - 1];
    EntryRoundTrip(dir, name);
  }

  /**
   * Round trip: the list of chunks `0 .. n-1`, parsed with the chunks'
   * directory, gives back each chunk's path, in order.
   */
  lemma {:induction false} ListRoundTrip(dir: string, n: nat, ext: string)
    requires ListSafe(ext)
    ensures ParseList(dir, ListText(n, ext)) == ChunkPathsIn(dir, n, ext)
  {
    LinesOfListText(n, ext);
    EntryLinesParse(dir, n, ext);
  }

  lemma {:induction false} EntryLinesParse(dir: string, n: nat, ext: string)
    requires ListSafe(ext)
    ensures ParseLines(dir, EntryLines(n, ext)) == ChunkPathsIn(dir, n, ext)
  {
    if n > 0 {
      EntryLinesParse(dir, n - 1, ext);
      ParseLinesSnoc(dir, EntryLines(n - 1, ext), EntryLine(ChunkName(n - 1, ext)));
      ChunkNameRoundTrip(dir, n - 1, ext);
    }
  }

  /**
   * Appending chunks `0 .. n-1` to a list that is empty or ends with a
   * newline keeps the list's entries in front and adds the chunks' paths
   * after them, in order.
   */
  lemma AppendKeepsEntries(dir: string, prior: string, n: nat, ext: string)
    requires prior == [] || prior[|prior| - 1] == '\n'
    requires ListSafe(ext)
    ensures ParseList(dir, prior + ListText(n, ext)) == ParseList(dir, prior) + ChunkPathsIn(dir, n, ext)
  {
    LinesAppend(prior, ListText(n, ext));
    ParseLinesAppend(dir, Lines(prior), Lines(ListText(n, ext)));
    ListRoundTrip(dir, n, ext);
  }

  /** The ffconcat header is read as one line, and that line is not an entry. */
  lemma HeaderIsNoEntry(dir: string)
    ensures Lines(Header) == [Header]
    ensures ParseLines(dir, [Header]) == []
  {
    LinesOfOneLine(HeaderText);
    assert !StartsWith(Header, EntryPrefix) by {
      assert Header[..|EntryPrefix|][1] == 'f' != EntryPrefix[1];
    }
    ParseLinesSnoc(dir, [], Header);
  }

  /** A list in ffconcat form, header first, parses to the chunks' paths: the header is skipped. */
  lemma FfconcatRoundTrip(dir: string, n: nat, ext: string)
    requires ListSafe(ext)
    ensures ParseList(dir, Header + ListText(n, ext)) == ChunkPathsIn(dir, n, ext)
  {
    AppendKeepsEntries(dir, Header, n, ext);
    HeaderIsNoEntry(dir);
  }

  /**
   * `lstrip("file ")` is not the removal of a prefix: an entry whose name
   * starts with one of its characters loses them too (`file e0.mp4` reads as `0.mp4`).
   */
  lemma StripEatsLeadingNameCharacters(dir: string)
    ensures EntryPath(dir, EntryLine("e0.mp4")) == [Join(dir, "0.mp4")]
  {
    var line := EntryLine("e0.mp4");
    assert line == "file e" + ("0.mp4" + "\n");
    assert StartsWith(line, EntryPrefix) by { assert line[..5] == EntryPrefix; }
    LStripRun("file e", "0.mp4" + "\n", EntryChars);
    RStripNewline("0.mp4");
  }

  /** Whitespace at the end of a name is lost: the entry for `name + spaces` reads back as `name`. */
  lemma EntryDropsTrailingSpace(dir: string, name: string, spaces: string)
    requires name != [] && name[0] !in EntryChars && !IsSpace(name[|name| - 1])
    requires forall k :: 0 <= k < |spaces| ==> IsSpace(spaces[k])
    ensures EntryPath(dir, EntryLine(name + spaces)) == [Join(dir, name)]
  {
    var tail := spaces + "\n";
    var line := EntryLine(name + spaces);
    assert line == EntryPrefix + (name + tail);
    assert StartsWith(line, EntryPrefix);
    assert (name + tail)[0] == name[0];
    LStripRun(EntryPrefix, name + tail, EntryChars);
    assert forall k :: 0 <= k < |tail| ==> IsSpace(tail[k]) by {
      assert tail[|tail| - 1] == '\n';
    }
    RStripRun(name, tail);
  }

  /** Chunk 0's name is `chunk0` followed by the extension. */
  lemma FirstChunkName(ext: string)
    ensures ChunkName(0, ext) == "chunk0" + ext
  {
    assert NatToString(0) == "0" by { assert DigitChar(0) == '0'; }
    assert ChunkBaseName + "0" == "chunk0";
  }

  /** An extension ending in whitespace does not survive `rstrip`: chunk 0 of `x.mp4 ` reads back as `chunk0.mp4`. */
  lemma TrailingSpaceExtensionIsLost(dir: string)
    ensures ChunkName(0, ".mp4 ") == "chunk0.mp4 "
    ensures EntryPath(dir, EntryLine(ChunkName(0, ".mp4 "))) == [Join(dir, "chunk0.mp4")]
  {
    SpacedChunkName();
    EntryDropsTrailingSpace(dir, "chunk0.mp4", " ");
  }

  /** With the extension `.mp4 `, chunk 0 is `chunk0.mp4` followed by a space. */
  lemma SpacedChunkName()
    ensures ChunkName(0, ".mp4 ") == "chunk0.mp4" + " "
  {
    FirstChunkName(".mp4 ");
    assert "chunk0" + ".mp4 " == "chunk0.mp4" + " ";
  }
}
