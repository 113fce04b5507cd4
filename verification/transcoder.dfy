/**
 * The `Transcoder` of ffperf: the paths it derives from its input, the chunk
 * list it reads back, and the operations that split the input into chunks,
 * scale a chunk in place, stitch the chunks together and clean up.
 *
 * Each operation that changes files is a method on the host, proved to have
 * exactly the effect a function of the old host state describes
 * (`...Effect`); the lemmas in module `TranscoderFacts` are about those functions.
 */
module Transcoding {
  import opened Basics
  import opened Text
  import opened Paths
  import opened Manifest
  import opened Schedule
  import opened Hosting

  /** The exceptions the core lets escape. */
  datatype Error =
    | FileNotFound(path: string)   // `FileNotFoundError` from the constructor, `transsize`, `os.remove` or `os.rename`
    | FFmpegFailed(status: int)    // `FFmpegException` raised by the segment split
    | ZeroDivision                 // `ZeroDivisionError`: `split(0)`
    | AssertionFailed              // `AssertionError`: a chunk opened without width and height
    | NoDuration                   // `AttributeError`: `split` on a chunk, which has no duration

  datatype Outcome = Done | Raised(error: Error)

  /** What an operation returns or raises, and the host it leaves behind. */
  datatype Effect = Effect(outcome: Outcome, disk: Disk)

  /** What the constructor knows of its input: width and height given for a chunk, or width, height and duration from `ffprobe`. */
  datatype Info = ChunkInfo(width: int, height: int) | Probed(width: int, height: int, duration: real)

  /** `chunk_file=''`: `transsize` on the whole input. */
  const NoChunk := MediaPath("", "", "")

  /** How many times `for i in range(n)` runs. */
  function RangeLength(n: int): (r: nat)
    ensures n <= 0 ==> r == 0
    ensures n >= 0 ==> r == n
  {
    if n > 0 then n else 0
  }

  /**
   * `Transcoder(input_file, width, height, is_chunk)`: raises when the input
   * is not a file, or when a chunk is given a zero width or height; otherwise
   * derives the list's path and the chunks' base path from the input's directory.
   */
  function Open(files: map<string, string>, input: MediaPath, info: Info): (r: Result<Transcoder, Error>)
    ensures input.Full() !in files ==> r == Err(FileNotFound(input.Full()))
    ensures input.Full() in files && info.ChunkInfo? && (info.width == 0 || info.height == 0) ==> r == Err(AssertionFailed)
    ensures r.Ok? <==> input.Full() in files && (info.ChunkInfo? ==> info.width != 0 && info.height != 0)
    ensures r.Ok? ==> r.value.Valid() && r.value.input == input
    ensures r.Ok? ==> r.value.width == info.width && r.value.height == info.height
    ensures r.Ok? ==> r.value.duration == if info.Probed? then Some(info.duration) else None
  {
    if input.Full() !in files then Err(FileNotFound(input.Full()))
    else
      var listPath, chunkBasePath := Join(input.dir, ListFileName), Join(input.dir, ChunkBaseName);
      match info
      case ChunkInfo(w, h) =>
        if w == 0 || h == 0 then Err(AssertionFailed) else Ok(Transcoder(input, w, h, None, listPath, chunkBasePath))
      case Probed(w, h, d) => Ok(Transcoder(input, w, h, Some(d), listPath, chunkBasePath))
  }

  /**
   * An open transcoder: its input, the dimensions it was given or probed, the
   * duration (probed inputs only), and the two paths the constructor derives,
   * `.../chunks.txt` and `.../chunk`.
   */
  datatype Transcoder = Transcoder(
    input: MediaPath, width: int, height: int, duration: Option<real>,
    listPath: string, chunkBasePath: string)
  {
    /** The paths are the ones the constructor derives from the input's directory. */
    predicate Valid() {
      && listPath == Join(input.dir, ListFileName)
      && chunkBasePath == Join(input.dir, ChunkBaseName)
    }

    /** `.../chunk%d<ext>`, the segmenter's output pattern. */
    function SegmentPattern(): (s: string)
      ensures StartsWith(s, chunkBasePath) && s[|chunkBasePath|..] == SegmentFormat + input.ext
    {
      chunkBasePath + SegmentFormat + input.ext
    }

    /** The segmenter names chunk `i` by putting `i`'s digits in place of the pattern's `%d`. */
    lemma SegmentPatternNamesChunk(i: nat)
      ensures var s := SegmentPattern();
        s[..|chunkBasePath|] + NatToString(i) + s[|chunkBasePath| + |SegmentFormat|..] == ChunkPath(i)
    {
      var s := SegmentPattern();
      assert s[|chunkBasePath| + |SegmentFormat|..] == input.ext;
    }

    /** `.../chunk*<ext>`, the cleanup's glob: the glob matches exactly the chunk files. */
    function GlobPattern(): (g: string)
      ensures |g| == |chunkBasePath| + 1 + |input.ext| && g[|chunkBasePath|] == '*'
      ensures forall p :: IsChunkFile(p) <==> GlobMatch(p, g[..|chunkBasePath|], g[|chunkBasePath| + 1..])
    {
      ConcatParts(chunkBasePath, GlobFormat, input.ext);
      chunkBasePath + GlobFormat + input.ext
    }

    /** `.../chunk<i><ext>`: where the manual split writes chunk `i`, and the name the segmenter gives it. */
    function ChunkPath(i: nat): string { chunkBasePath + NatToString(i) + input.ext }

    /** Chunk `i`'s path is the base path, then decimal digits that denote `i`, then the input's extension. */
    lemma ChunkPathParts(i: nat)
      ensures var p := ChunkPath(i);
        && StartsWith(p, chunkBasePath) && |chunkBasePath| + |input.ext| < |p|
        && p[|p| - |input.ext|..] == input.ext
        && AllDigits(p[|chunkBasePath|..|p| - |input.ext|])
        && DigitsValue(p[|chunkBasePath|..|p| - |input.ext|]) == i
    {
      ConcatParts(chunkBasePath, NatToString(i), input.ext);
    }

    /** Whether `glob(GlobPattern())` yields the existing file `p`. */
    predicate IsChunkFile(p: string) { GlobMatch(p, chunkBasePath, input.ext) }

    /** The glob yields exactly the paths `.../chunk` + a run without separators + the extension. */
    lemma IsChunkFileIff(p: string)
      ensures IsChunkFile(p) <==> exists mid :: '/' !in mid && p == chunkBasePath + mid + input.ext
    {
      if IsChunkFile(p) {
        GlobMatchIsFill(p, chunkBasePath, input.ext);
        var mid := p[|chunkBasePath|..|p| - |input.ext|];
        assert '/' !in mid && p == chunkBasePath + mid + input.ext;
      }
      if exists mid :: '/' !in mid && p == chunkBasePath + mid + input.ext {
        var mid :| '/' !in mid && p == chunkBasePath + mid + input.ext;
        GlobMatchesFill(chunkBasePath, mid, input.ext);
      }
    }

    /** The path of chunk `i` is the list entry for chunk `i` joined to the input's directory. */
    lemma ChunkPathIsEntry(i: nat)
      requires Valid()
      ensures ChunkPath(i) == Join(input.dir, ChunkName(i, input.ext))
    {
      var digits := NatToString(i);
      assert ChunkName(i, input.ext) == ChunkBaseName + (digits + input.ext) by {
        AppendAssoc(ChunkBaseName, digits, input.ext);
      }
      JoinAppend(input.dir, ChunkBaseName, digits + input.ext);
      AppendAssoc(chunkBasePath, digits, input.ext);
    }

    /** Distinct chunks have distinct paths. */
    lemma ChunkPathInjective(i: nat, j: nat)
      ensures ChunkPath(i) == ChunkPath(j) ==> i == j
    {
      if ChunkPath(i) == ChunkPath(j) {
        var a, b := NatToString(i), NatToString(j);
        var p := ChunkPath(i);
        assert |a| == |b|;
        assert a == p[|chunkBasePath|..|chunkBasePath| + |a|];
        assert b == ChunkPath(j)[|chunkBasePath|..|chunkBasePath| + |b|];
        NatToStringInjective(i, j);
      }
    }

    /** No chunk is written over the list. */
    lemma ChunkPathIsNotList(i: nat)
      requires Valid()
      ensures ChunkPath(i) != listPath
    {
      var pre, p, n := Prefix(input.dir), ChunkPath(i), |chunkBasePath|;
      ChunkPathParts(i);
      assert chunkBasePath == pre + ChunkBaseName && listPath == pre + ListFileName;
      var digits := p[n..|p| - |input.ext|];
      assert p[n] == digits[0] && IsDigit(digits[0]);
      assert listPath[n] == ListFileName[|ChunkBaseName|] == 's';
    }

    /** The cleanup's glob finds every chunk: digits hold no separator. */
    lemma ChunkPathMatchesGlob(i: nat)
      ensures IsChunkFile(ChunkPath(i))
    {
      var digits := NatToString(i);
      assert '/' !in digits by {
        assert forall k :: 0 <= k < |digits| ==> IsDigit(digits[k]);
      }
      GlobMatchesFill(chunkBasePath, digits, input.ext);
    }

    /**
     * The files the segmenter leaves behind: chunk `i` for each
     * `i < |seg.chunks|`, all of them found by the cleanup's glob, and the
     * list if it wrote one.
     */
    function SegmentWrites(seg: SegmentRun): (w: map<string, string>)
      ensures forall i :: 0 <= i < |seg.chunks| ==> ChunkPath(i) in w
      ensures forall i :: 0 <= i < |seg.chunks| && ChunkPath(i) != listPath ==> w[ChunkPath(i)] == seg.chunks[i]
      ensures seg.list.Some? ==> listPath in w && w[listPath] == seg.list.value
      ensures (forall i :: 0 <= i < |seg.chunks| ==> ChunkPath(i) != listPath) ==> (listPath in w <==> seg.list.Some?)
      ensures forall p :: p in w && p != listPath ==> IsChunkFile(p)
    {
      var chunks := ChunkWrites(seg.chunks, |seg.chunks|);
      if seg.list.Some? then chunks[listPath := seg.list.value] else chunks
    }

    /** Chunks `0 .. k-1` with the given contents. */
    function ChunkWrites(chunks: seq<string>, k: nat): (w: map<string, string>)
      requires k <= |chunks|
      ensures forall i :: 0 <= i < k ==> ChunkPath(i) in w && w[ChunkPath(i)] == chunks[i]
      ensures forall p :: p in w ==> IsChunkFile(p)
      ensures (forall i :: 0 <= i < k ==> ChunkPath(i) != listPath) ==> listPath !in w
    {
      if k == 0 then map[] else
        var w := ChunkWrites(chunks, k - 1)[ChunkPath(k - 1) := chunks[k - 1]];
        assert forall i :: 0 <= i < k - 1 ==> ChunkPath(i) != ChunkPath(k - 1) by {
          forall i | 0 <= i < k - 1 {
            ChunkPathInjective(i, k - 1);
          }
        }
        ChunkPathMatchesGlob(k - 1);
        w
    }

    /** The segmenter writes nothing but the list and chunks `0 .. |seg.chunks|-1`. */
    lemma SegmentWritesOnly(seg: SegmentRun, p: string)
      requires p != listPath && forall i :: 0 <= i < |seg.chunks| ==> p != ChunkPath(i)
      ensures p !in SegmentWrites(seg)
    {
      ChunkWritesOnly(seg.chunks, |seg.chunks|, p);
    }

    /** Chunks `0 .. k-1` are the only files written. */
    lemma {:induction false} ChunkWritesOnly(chunks: seq<string>, k: nat, p: string)
      requires k <= |chunks|
      requires forall i :: 0 <= i < k ==> p != ChunkPath(i)
      ensures p !in ChunkWrites(chunks, k)
    {
      if k > 0 {
        ChunkWritesOnly(chunks, k - 1, p);
      }
    }

    /**
     * `__remove_chunk_files`: removes the list, raising if it is missing,
     * then every file the glob `.../chunk*<ext>` yields. Files that survive
     * keep their content, and nothing is logged.
     */
    function RemoveChunkFilesEffect(d: Disk): (e: Effect)
      ensures e.disk.log == d.log
      ensures listPath !in d.files ==> e == Effect(Raised(FileNotFound(listPath)), d)
      ensures listPath in d.files ==> e.outcome == Done
      ensures listPath in d.files ==> forall p :: p in d.files ==> (p in e.disk.files <==> p != listPath && !IsChunkFile(p))
      ensures e.disk.files.Keys <= d.files.Keys
      ensures forall p :: p in e.disk.files ==> e.disk.files[p] == d.files[p]
    {
      if listPath !in d.files then Effect(Raised(FileNotFound(listPath)), d)
      else Effect(Done, d.(files := map p | p in d.files && p != listPath && !IsChunkFile(p) :: d.files[p]))
    }

    /**
     * `__split_with_segment(chunk_time)`: one segmenting `ffmpeg` run; a
     * non-zero exit status removes the list and chunk files and raises
     * `FFmpegException`, unless the removal itself raises first.
     */
    function SegmentEffect(d: Disk, chunkTime: int, seg: SegmentRun): (e: Effect)
      ensures e.disk.log == d.log + [Segment(input.Full(), chunkTime, listPath, SegmentPattern())]
      ensures seg.status == 0 ==> e.outcome == Done
      ensures seg.status != 0 ==> (e.outcome ==
        if listPath in d.files || listPath in SegmentWrites(seg) then Raised(FFmpegFailed(seg.status))
        else Raised(FileNotFound(listPath)))
      ensures e.outcome == Raised(FFmpegFailed(seg.status)) ==> forall p :: p in e.disk.files ==> p != listPath && !IsChunkFile(p)
    {
      var ran := Executed(d, Segment(input.Full(), chunkTime, listPath, SegmentPattern()), SegmentWrites(seg));
      if seg.status == 0 then Effect(Done, ran)
      else
        var removed := RemoveChunkFilesEffect(ran);
        if removed.outcome.Raised? then removed else Effect(Raised(FFmpegFailed(seg.status)), removed.disk)
    }

    /** The trims the manual split issues for chunks `0 .. k-1`: chunk `i` from `i * chunk_time`, `chunk_time` long. */
    function TrimLog(k: nat, chunkTime: int): (log: seq<Invocation>)
      ensures |log| == k
    {
      if k == 0 then [] else TrimLog(k - 1, chunkTime) + [TrimOf(k - 1, chunkTime)]
    }

    /** The trim that cuts chunk `i`: `chunk_time` seconds from `i * chunk_time`, into chunk `i`'s path. */
    function TrimOf(i: nat, chunkTime: int): (t: Invocation)
      ensures t.Trim? && t.input == input.Full() && t.output == ChunkPath(i)
      ensures t.start == Offset(i, chunkTime) && t.length == chunkTime
    {
      Trim(Offset(i, chunkTime), chunkTime, input.Full(), ChunkPath(i))
    }

    /** Each trim ends where the next one starts: the chunks are cut back to back. */
    lemma TrimsAdjoin(i: nat, chunkTime: int)
      ensures TrimOf(i, chunkTime).start + TrimOf(i, chunkTime).length == TrimOf(i + 1, chunkTime).start
    {
      assert (i + 1) * chunkTime == i * chunkTime + chunkTime;
    }

    /** Trim `i` of the manual split cuts chunk `i`. */
    lemma {:induction false} TrimLogAt(k: nat, chunkTime: int, i: nat)
      requires i < k
      ensures TrimLog(k, chunkTime)[i] == TrimOf(i, chunkTime)
    {
      var earlier := TrimLog(k - 1, chunkTime);
      assert TrimLog(k, chunkTime) == earlier + [TrimOf(k - 1, chunkTime)];
      if i < k - 1 {
        TrimLogAt(k - 1, chunkTime, i);
        assert TrimLog(k, chunkTime)[i] == earlier[i];
      }
    }

    /** Round `i` of `__split_manually`: trim chunk `i` out of the input, then append its entry to the list. */
    function ManualStep(d: Disk, i: nat, chunkTime: int, trims: nat -> Run): (d': Disk)
      ensures d'.log == d.log + [TrimOf(i, chunkTime)]
      ensures listPath in d'.files
    {
      var out := ChunkPath(i);
      var ran := Executed(d, TrimOf(i, chunkTime), Written(out, trims(i)));
      Appended(ran, listPath, EntryLine(ChunkName(i, input.ext)))
    }

    /** Round `i` adds chunk `i`'s entry at the end of the list, unless the trim wrote over the list. */
    lemma ManualStepAppends(d: Disk, i: nat, chunkTime: int, trims: nat -> Run)
      requires ChunkPath(i) != listPath
      ensures ManualStep(d, i, chunkTime, trims).files[listPath] == TextOf(d, listPath) + EntryLine(ChunkName(i, input.ext))
    {}

    /**
     * The first `k` rounds of `__split_manually`: each trims chunk `i` out of
     * the input, then appends its entry to the list, whatever `ffmpeg` did.
     */
    function ManualEffect(d: Disk, k: nat, chunkTime: int, trims: nat -> Run): (d': Disk)
      ensures k > 0 ==> listPath in d'.files
    {
      if k == 0 then d else ManualStep(ManualEffect(d, k - 1, chunkTime, trims), k - 1, chunkTime, trims)
    }

    /** The manual split issues one trim per chunk, in chunk order, after whatever ran before. */
    lemma {:induction false} ManualLog(d: Disk, k: nat, chunkTime: int, trims: nat -> Run)
      ensures ManualEffect(d, k, chunkTime, trims).log == d.log + TrimLog(k, chunkTime)
    {
      if k > 0 {
        var before := ManualEffect(d, k - 1, chunkTime, trims);
        var trim := TrimOf(k - 1, chunkTime);
        var prior, earlier := d.log, TrimLog(k - 1, chunkTime);
        ManualLog(d, k - 1, chunkTime, trims);
        assert ManualEffect(d, k, chunkTime, trims).log == before.log + [trim];
        assert TrimLog(k, chunkTime) == earlier + [trim];
        AppendAssoc(prior, earlier, [trim]);
      }
    }

    /** The manual split appends the entries of chunks `0 .. k-1`, in order, to whatever the list held. */
    lemma {:induction false} ManualListText(d: Disk, k: nat, chunkTime: int, trims: nat -> Run)
      requires forall i :: 0 <= i < k ==> ChunkPath(i) != listPath
      ensures TextOf(ManualEffect(d, k, chunkTime, trims), listPath) == TextOf(d, listPath) + ListText(k, input.ext)
    {
      if k == 0 {
        assert TextOf(d, listPath) + [] == TextOf(d, listPath);
      } else {
        ManualListText(d, k - 1, chunkTime, trims);
        ManualListTextStep(ManualEffect(d, k - 1, chunkTime, trims), k, chunkTime, trims, TextOf(d, listPath));
      }
    }

    /** The induction step of `ManualListText`: round `k - 1` adds the entry of chunk `k - 1`. */
    lemma ManualListTextStep(before: Disk, k: nat, chunkTime: int, trims: nat -> Run, prior: string)
      requires k > 0 && ChunkPath(k - 1) != listPath
      requires TextOf(before, listPath) == prior + ListText(k - 1, input.ext)
      ensures TextOf(ManualStep(before, k - 1, chunkTime, trims), listPath) == prior + ListText(k, input.ext)
    {
      ManualStepAppends(before, k - 1, chunkTime, trims);
      ListTextStep(prior, k - 1, input.ext);
    }

    /**
     * `split(num_chunks)`: the segment split first; the manual split only
     * when the segment split raised `FFmpegException`.
     */
    function SplitEffect(d: Disk, numChunks: int, seg: SegmentRun, trims: nat -> Run): (e: Effect)
      ensures duration.None? ==> e == Effect(Raised(NoDuration), d)
      ensures duration.Some? && numChunks == 0 ==> e == Effect(Raised(ZeroDivision), d)
      ensures duration.Some? && numChunks != 0 ==>
        |e.disk.log| > |d.log| && e.disk.log[|d.log|] == Segment(input.Full(), ChunkTime(duration.value, numChunks), listPath, SegmentPattern())
    {
      if duration.None? then Effect(Raised(NoDuration), d)
      else if numChunks == 0 then Effect(Raised(ZeroDivision), d)
      else
        var chunkTime := ChunkTime(duration.value, numChunks);
        var segmented := SegmentEffect(d, chunkTime, seg);
        if segmented.outcome.Raised? && segmented.outcome.error.FFmpegFailed? then
          var manual := ManualEffect(segmented.disk, RangeLength(numChunks), chunkTime, trims);
          ManualLog(segmented.disk, RangeLength(numChunks), chunkTime, trims);
          Effect(Done, manual)
        else segmented
    }

    /** `"{name}_{w}_{h}{ext}"`, with the input's extension. */
    function ScaledPath(name: string, w: int, h: int): (s: string)
      ensures |name| + 1 + |input.ext| < |s|
      ensures StartsWith(s, name + "_") && s[|s| - |input.ext|..] == input.ext
      ensures '/' !in input.ext ==> '/' !in s[|name|..]
      ensures s[|name| + 1..|s| - |input.ext|] == IntToString(w) + "_" + IntToString(h)
    {
      var sizes := IntToString(w) + "_" + IntToString(h);
      SizesHaveNoSeparator(w, h);
      TaggedName(name, sizes, input.ext);
      name + "_" + sizes + input.ext
    }

    /**
     * `transsize(height, aspect_ratio, chunk_file)`: refuses to upscale;
     * raises for a missing chunk before running anything; otherwise scales
     * into a new file and, for a chunk, renames that file over the chunk.
     */
    function TranssizeEffect(d: Disk, h: int, ratio: Ratio, chunk: MediaPath, run: Run): (e: Effect)
      ensures h >= height ==> e == Effect(Done, d)
      ensures h < height && chunk.Full() != [] && chunk.Full() !in d.files ==>
        e == Effect(Raised(FileNotFound(chunk.Full())), d)
      ensures h < height && (chunk.Full() == [] || chunk.Full() in d.files) ==>
        |e.disk.log| == |d.log| + 1 && e.disk.log[|d.log|].Scale? &&
        e.disk.log[|d.log|].width == Width(h, ratio) && e.disk.log[|d.log|].height == h &&
        e.disk.log[|d.log|].input == if chunk.Full() != [] then chunk.Full() else input.Full()
    {
      if h >= height then Effect(Done, d)
      else
        var chunkFile := chunk.Full();
        if chunkFile != [] && chunkFile !in d.files then Effect(Raised(FileNotFound(chunkFile)), d)
        else
          var w := Width(h, ratio);
          var source := if chunkFile != [] then chunkFile else input.Full();
          var name := if chunk.Name() != [] then chunk.Name() else input.Name();
          var output := ScaledPath(name, w, h);
          var ran := Executed(d, Scale(source, w, h, output), Written(output, run));
          if chunkFile == [] then Effect(Done, ran)
          else if output !in ran.files then Effect(Raised(FileNotFound(output)), ran)
          else Effect(Done, Renamed(ran, output, chunkFile))
    }

    /** `"{name}_{suffix}{ext}"`, where an empty suffix is replaced by the clock reading. */
    function StitchedPath(suffix: string, clock: string): (s: string)
      ensures |input.Name()| + 1 + |input.ext| <= |s|
      ensures StartsWith(s, input.Name() + "_") && s[|s| - |input.ext|..] == input.ext
      ensures s[|input.Name()| + 1..|s| - |input.ext|] == if suffix != [] then suffix else clock
    {
      var tag := if suffix != [] then suffix else clock;
      TaggedName(input.Name(), tag, input.ext);
      input.Name() + "_" + tag + input.ext
    }

    /**
     * `stitch(suffix)`: one concatenating `ffmpeg` run into the stitched
     * path, then `__remove_chunk_files`, whatever the run's exit status.
     */
    function StitchEffect(d: Disk, suffix: string, clock: string, run: Run): (e: Effect)
      ensures e.disk.log == d.log + [Concat(listPath, StitchedPath(suffix, clock))]
      ensures listPath !in e.disk.files
      ensures e.outcome == Done ==> forall p :: p in e.disk.files ==> !IsChunkFile(p)
      ensures e.outcome.Raised? ==> e.outcome == Raised(FileNotFound(listPath))
    {
      var output := StitchedPath(suffix, clock);
      var ran := Executed(d, Concat(listPath, output), Written(output, run));
      RemoveChunkFilesEffect(ran)
    }

    /** `chunk_files`: `None` without a list; otherwise the paths of its `file ` lines, in order. */
    function ChunkFilesOf(files: map<string, string>): (r: Option<seq<string>>)
      ensures r.None? <==> listPath !in files
    {
      if listPath in files then Some(ParseList(input.dir, files[listPath])) else None
    }

    method ChunkFiles(host: Host) returns (r: Option<seq<string>>)
      ensures r == ChunkFilesOf(host.files)
    {
      var present := host.IsFile(listPath);
      if !present {
        return None;
      }
      var text := host.Read(listPath);
      var files := CollectEntries(Lines(text));
      r := Some(files);
    }

    /** The loop of `chunk_files` over the lines of the list. */
    method CollectEntries(lines: seq<string>) returns (files: seq<string>)
      ensures files == ParseLines(input.dir, lines)
    {
      files := [];
      for i := 0 to |lines|
        invariant files == ParseLines(input.dir, lines[..i])
      {
        var line := lines[i];
        assert lines[..i + 1] == lines[..i] + [line];
        ParseLinesSnoc(input.dir, lines[..i], line);
        if StartsWith(line, EntryPrefix) {
          files := files + [Join(input.dir, RStrip(LStrip(line, EntryChars)))];
        }
      }
      assert lines[..|lines|] == lines;
    }

    method RemoveChunkFiles(host: Host) returns (o: Outcome)
      modifies host
      ensures Effect(o, host.State()) == RemoveChunkFilesEffect(old(host.State()))
    {
      ghost var start := host.State();
      var removed := host.Remove(listPath);
      if !removed {
        return Raised(FileNotFound(listPath));
      }
      var pattern, star := GlobPattern(), |chunkBasePath|;
      var matched := set p | p in host.files && GlobMatch(p, pattern[..star], pattern[star + 1..]);
      assert matched == set p | p in host.files && IsChunkFile(p);
      RemoveEach(host, matched);
      o := Done;
      CleanupInTwoSteps(start);
    }

    /** Removing the list, and then the files the glob yields, is the cleanup's effect. */
    lemma CleanupInTwoSteps(d: Disk)
      requires listPath in d.files
      ensures var rest := Removed(d, listPath);
        Effect(Done, RemovedAll(rest, set p | p in rest.files && IsChunkFile(p))) == RemoveChunkFilesEffect(d)
    {
      var rest := Removed(d, listPath);
      assert RemovedAll(rest, set p | p in rest.files && IsChunkFile(p)).files == RemoveChunkFilesEffect(d).disk.files;
    }

    /** The loop of `__remove_chunk_files` over the files the glob yields. */
    method RemoveEach(host: Host, targets: set<string>)
      requires targets <= host.files.Keys
      modifies host
      ensures host.State() == RemovedAll(old(host.State()), targets)
    {
      ghost var start := host.State();
      var pending := targets;
      while pending != {}
        invariant pending <= targets && pending <= host.files.Keys
        invariant host.State() == RemovedAll(start, targets - pending)
        decreases pending
      {
        var p :| p in pending;
        var ok := host.Remove(p);
        assert ok;
        pending := pending - {p};
      }
    }

    method SplitWithSegment(host: Host, chunkTime: int, seg: SegmentRun) returns (o: Outcome)
      modifies host
      ensures Effect(o, host.State()) == SegmentEffect(old(host.State()), chunkTime, seg)
    {
      host.Execute(Segment(input.Full(), chunkTime, listPath, SegmentPattern()), SegmentWrites(seg));
      if seg.status == 0 {
        return Done;
      }
      o := RemoveChunkFiles(host);
      if o == Done {
        o := Raised(FFmpegFailed(seg.status));
      }
    }

    method SplitManually(host: Host, numChunks: int, chunkTime: int, trims: nat -> Run)
      modifies host
      ensures host.State() == ManualEffect(old(host.State()), RangeLength(numChunks), chunkTime, trims)
    {
      ghost var start := host.State();
      for i := 0 to RangeLength(numChunks)
        invariant host.State() == ManualEffect(start, i, chunkTime, trims)
      {
        SplitRound(host, i, chunkTime, trims);
      }
    }

    /** One iteration of the loop of `__split_manually`. */
    method SplitRound(host: Host, i: nat, chunkTime: int, trims: nat -> Run)
      modifies host
      ensures host.State() == ManualStep(old(host.State()), i, chunkTime, trims)
    {
      var output := chunkBasePath + NatToString(i) + input.ext;
      host.Execute(Trim(Offset(i, chunkTime), chunkTime, input.Full(), output), Written(output, trims(i)));
      host.Append(listPath, EntryLine(ChunkName(i, input.ext)));
    }

    method Split(host: Host, numChunks: int, seg: SegmentRun, trims: nat -> Run) returns (o: Outcome)
      modifies host
      ensures Effect(o, host.State()) == SplitEffect(old(host.State()), numChunks, seg, trims)
    {
      if duration.None? {
        return Raised(NoDuration);
      }
      if numChunks == 0 {
        return Raised(ZeroDivision);
      }
      var chunkTime := ChunkTime(duration.value, numChunks);
      o := SplitWithSegment(host, chunkTime, seg);
      if o.Raised? && o.error.FFmpegFailed? {
        SplitManually(host, numChunks, chunkTime, trims);
        o := Done;
      }
    }

    method Transsize(host: Host, h: int, ratio: Ratio, chunk: MediaPath, run: Run) returns (o: Outcome)
      modifies host
      ensures Effect(o, host.State()) == TranssizeEffect(old(host.State()), h, ratio, chunk, run)
    {
      if h >= height {
        return Done;
      }
      var chunkFile := chunk.Full();
      if chunkFile != [] {
        var present := host.IsFile(chunkFile);
        if !present {
          return Raised(FileNotFound(chunkFile));
        }
      }
      var w := Width(h, ratio);
      var source := if chunkFile != [] then chunkFile else input.Full();
      var name := if chunk.Name() != [] then chunk.Name() else input.Name();
      var output := ScaledPath(name, w, h);
      host.Execute(Scale(source, w, h, output), Written(output, run));
      o := Done;
      if chunkFile != [] {
        var renamed := host.Rename(output, chunkFile);
        if !renamed {
          o := Raised(FileNotFound(output));
        }
      }
    }

    method Stitch(host: Host, suffix: string, clock: string, run: Run) returns (o: Outcome)
      modifies host
      ensures Effect(o, host.State()) == StitchEffect(old(host.State()), suffix, clock, run)
    {
      var output := StitchedPath(suffix, clock);
      host.Execute(Concat(listPath, output), Written(output, run));
      o := RemoveChunkFiles(host);
    }
  }
}
