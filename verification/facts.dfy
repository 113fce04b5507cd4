/**
 * What the transcoder's operations promise, and what they do that a caller
 * may not expect, stated about the effect functions of module `Transcoding`.
 */
module TranscoderFacts {
  import opened Basics
  import opened Text
  import opened Paths
  import opened Manifest
  import opened Schedule
  import opened Hosting
  import opened Transcoding

  /** A well-formed media path is its path without the extension, followed by the extension. */
  lemma NameThenExtension(m: MediaPath)
    requires m.WellFormed()
    ensures m.Full() == m.Name() + m.ext
  {
    JoinAppend(m.dir, m.stem, m.ext);
  }

  /** The input as its directory's prefix followed by its base name. */
  lemma InputPath(t: Transcoder)
    requires t.chunkBasePath == Join(t.input.dir, ChunkBaseName) && t.input.WellFormed()
    ensures t.input.Full() == Prefix(t.input.dir) + (t.input.stem + t.input.ext)
    ensures t.chunkBasePath == Prefix(t.input.dir) + ChunkBaseName
  {
    assert (t.input.stem + t.input.ext)[0] == t.input.stem[0];
  }

  /**
   * The cleanup's glob `.../chunk*<ext>` yields the input itself exactly
   * when the input's name starts with `chunk`.
   */
  lemma InputMatchesGlobIff(t: Transcoder)
    requires t.Valid() && t.input.WellFormed()
    ensures t.IsChunkFile(t.input.Full()) <==> StartsWith(t.input.stem, ChunkBaseName)
  {
    if StartsWith(t.input.stem, ChunkBaseName) {
      ChunkNamedInputMatches(t);
    }
    if t.IsChunkFile(t.input.Full()) {
      MatchingInputIsChunkNamed(t);
    }
  }

  lemma ChunkNamedInputMatches(t: Transcoder)
    requires t.chunkBasePath == Join(t.input.dir, ChunkBaseName) && t.input.WellFormed()
    requires StartsWith(t.input.stem, ChunkBaseName)
    ensures t.IsChunkFile(t.input.Full())
  {
    InputPath(t);
    var stem, ext := t.input.stem, t.input.ext;
    var rest := stem[|ChunkBaseName|..];
    assert stem == ChunkBaseName + rest;
    AppendAssoc(ChunkBaseName, rest, ext);
    AppendAssoc(Prefix(t.input.dir), ChunkBaseName + rest, ext);
    AppendAssoc(Prefix(t.input.dir), ChunkBaseName, rest);
    GlobMatchesFill(t.chunkBasePath, rest, ext);
  }

  lemma MatchingInputIsChunkNamed(t: Transcoder)
    requires t.chunkBasePath == Join(t.input.dir, ChunkBaseName) && t.input.WellFormed()
    requires t.IsChunkFile(t.input.Full())
    ensures StartsWith(t.input.stem, ChunkBaseName)
  {
    InputPath(t);
    var p, base, pre := t.input.Full(), t.chunkBasePath, Prefix(t.input.dir);
    var stem, ext := t.input.stem, t.input.ext;
    var n := |ChunkBaseName|;
    assert |p| == |pre| + |stem| + |ext| && |base| == |pre| + n;
    assert GlobMatch(p, base, ext);
    assert |stem| >= n;
    assert p[..|base|] == base;
    calc {
      stem[..n];
      (stem + ext)[..n];
      p[|pre|..|base|];
      base[|pre|..];
      ChunkBaseName;
    }
  }

  /** The scaled file never has the name of the file it is scaled from. */
  lemma ScaledPathIsNew(t: Transcoder, m: MediaPath, w: int, h: int)
    requires m.WellFormed()
    ensures m.Name() != []
    ensures t.ScaledPath(m.Name(), w, h) != m.Full()
  {
    NameThenExtension(m);
    var name, out := m.Name(), t.ScaledPath(m.Name(), w, h);
    assert out[|name|] == '_';
    if m.ext != [] {
      assert m.Full()[|name|] == '.';
    }
  }

  /**
   * `transsize` of an existing chunk whose scaling succeeds: the chunk is
   * replaced by the scaled picture, the intermediate file is gone, and no
   * other file changes.
   */
  lemma TranssizeChunkInPlace(t: Transcoder, d: Disk, h: int, ratio: Ratio, chunk: MediaPath, run: Run)
    requires h < t.height && chunk.WellFormed() && chunk.Full() in d.files && run.output.Some?
    ensures var e := t.TranssizeEffect(d, h, ratio, chunk, run);
      var output := t.ScaledPath(chunk.Name(), Width(h, ratio), h);
      && e.outcome == Done
      && e.disk.log == d.log + [Scale(chunk.Full(), Width(h, ratio), h, output)]
      && chunk.Full() in e.disk.files && e.disk.files[chunk.Full()] == run.output.value
      && output !in e.disk.files
      && forall p :: p != output && p != chunk.Full() ==>
        (p in e.disk.files <==> p in d.files) && (p in d.files ==> e.disk.files[p] == d.files[p])
  {
    var output := t.ScaledPath(chunk.Name(), Width(h, ratio), h);
    ScaledPathIsNew(t, chunk, Width(h, ratio), h);
    TranssizeOnChunk(t, d, h, ratio, chunk, run);
    WriteThenRename(d, Scale(chunk.Full(), Width(h, ratio), h, output), output, chunk.Full(), run);
  }

  /** A run that writes `out`, followed by renaming `out` over `dst`: `dst` holds what the run wrote, `out` is gone, and no other file changes. */
  lemma WriteThenRename(d: Disk, inv: Invocation, out: string, dst: string, run: Run)
    requires out != dst && run.output.Some?
    ensures var ran := Executed(d, inv, Written(out, run));
      out in ran.files &&
      var e := Renamed(ran, out, dst);
      && dst in e.files && e.files[dst] == run.output.value
      && out !in e.files
      && forall p :: p != out && p != dst ==> (p in e.files <==> p in d.files) && (p in d.files ==> e.files[p] == d.files[p])
  {}

  /** `transsize` of an existing chunk, when downscaling: one scaling run into the scaled path, then the rename over the chunk. */
  lemma TranssizeOnChunk(t: Transcoder, d: Disk, h: int, ratio: Ratio, chunk: MediaPath, run: Run)
    requires h < t.height && chunk.Full() != [] && chunk.Full() in d.files && chunk.Name() != []
    ensures var output := t.ScaledPath(chunk.Name(), Width(h, ratio), h);
      var ran := Executed(d, Scale(chunk.Full(), Width(h, ratio), h, output), Written(output, run));
      t.TranssizeEffect(d, h, ratio, chunk, run) ==
        if output !in ran.files then Effect(Raised(FileNotFound(output)), ran) else Effect(Done, Renamed(ran, output, chunk.Full()))
  {}

  /**
   * `transsize` of an existing chunk when `ffmpeg` wrote nothing and no
   * scaled file was left from before: the rename raises `FileNotFoundError`
   * for the missing scaled file, and every file, the chunk included, is as
   * it was.
   */
  lemma TranssizeLostOutput(t: Transcoder, d: Disk, h: int, ratio: Ratio, chunk: MediaPath, run: Run)
    requires h < t.height && chunk.WellFormed() && chunk.Full() in d.files && run.output.None?
    requires t.ScaledPath(chunk.Name(), Width(h, ratio), h) !in d.files
    ensures var e := t.TranssizeEffect(d, h, ratio, chunk, run);
      && e.outcome == Raised(FileNotFound(t.ScaledPath(chunk.Name(), Width(h, ratio), h)))
      && e.disk.files == d.files
  {
    var output := t.ScaledPath(chunk.Name(), Width(h, ratio), h);
    ScaledPathIsNew(t, chunk, Width(h, ratio), h);
    TranssizeOnChunk(t, d, h, ratio, chunk, run);
    NothingWritten(d, Scale(chunk.Full(), Width(h, ratio), h, output), output, run);
  }

  /** A run that wrote no output leaves the files as they were. */
  lemma NothingWritten(d: Disk, inv: Invocation, out: string, run: Run)
    requires run.output.None?
    ensures Executed(d, inv, Written(out, run)).files == d.files
  {
    assert Written(out, run) == map[];
  }

  /**
   * `transsize` without a chunk scales the input into `<name>_<w>_<h><ext>`
   * beside it and changes no other file.
   */
  lemma TranssizeWholeInput(t: Transcoder, d: Disk, h: int, ratio: Ratio, run: Run)
    requires h < t.height && t.input.WellFormed()
    ensures var e := t.TranssizeEffect(d, h, ratio, NoChunk, run);
      var output := t.ScaledPath(t.input.Name(), Width(h, ratio), h);
      && e.outcome == Done
      && e.disk.log == d.log + [Scale(t.input.Full(), Width(h, ratio), h, output)]
      && output != t.input.Full()
      && (output in e.disk.files <==> output in d.files || run.output.Some?)
      && (run.output.Some? ==> e.disk.files[output] == run.output.value)
      && forall p :: p != output ==> (p in e.disk.files <==> p in d.files) && (p in d.files ==> e.disk.files[p] == d.files[p])
  {
    var w := Width(h, ratio);
    var output := t.ScaledPath(t.input.Name(), w, h);
    ScaledPathIsNew(t, t.input, w, h);
    assert NoChunk.Full() == [] && NoChunk.Name() == [];
    var ran := Executed(d, Scale(t.input.Full(), w, h, output), Written(output, run));
    assert t.TranssizeEffect(d, h, ratio, NoChunk, run) == Effect(Done, ran);
  }

  /**
   * `transsize` of an existing chunk when `ffmpeg` wrote nothing but a
   * scaled file of the same name is left from before: the rename succeeds
   * and the chunk silently takes that old file's content.
   */
  lemma TranssizeStaleOutput(t: Transcoder, d: Disk, h: int, ratio: Ratio, chunk: MediaPath, run: Run)
    requires h < t.height && chunk.WellFormed() && chunk.Full() in d.files && run.output.None?
    requires t.ScaledPath(chunk.Name(), Width(h, ratio), h) in d.files
    ensures var e := t.TranssizeEffect(d, h, ratio, chunk, run);
      && e.outcome == Done
      && e.disk.files[chunk.Full()] == d.files[t.ScaledPath(chunk.Name(), Width(h, ratio), h)]
  {
    ScaledPathIsNew(t, chunk, Width(h, ratio), h);
    TranssizeOnChunk(t, d, h, ratio, chunk, run);
  }

  /** With a suffix given, `stitch` does not read the clock: its effect is the same whatever the time. */
  lemma StitchSuffixIgnoresClock(t: Transcoder, d: Disk, suffix: string, clock: string, clock': string, run: Run)
    requires suffix != []
    ensures t.StitchEffect(d, suffix, clock, run) == t.StitchEffect(d, suffix, clock', run)
  {}

  /**
   * `stitch` ignores how `ffmpeg` ended; it raises only when the list is
   * missing, and then `ffmpeg` has already run.
   */
  lemma StitchOutcome(t: Transcoder, d: Disk, suffix: string, clock: string, run: Run)
    ensures var e := t.StitchEffect(d, suffix, clock, run);
      e.outcome == Done <==> t.listPath in d.files || (t.StitchedPath(suffix, clock) == t.listPath && run.output.Some?)
  {}

  /**
   * After a `stitch` that found its list, the stitched file holds what
   * `ffmpeg` wrote, provided the cleanup's glob does not match its name,
   * and every other file that is neither the list nor a chunk is unchanged.
   */
  lemma StitchKeepsOutput(t: Transcoder, d: Disk, suffix: string, clock: string, run: Run)
    requires t.listPath in d.files
    ensures var e, output := t.StitchEffect(d, suffix, clock, run), t.StitchedPath(suffix, clock);
      && (run.output.Some? && output != t.listPath && !t.IsChunkFile(output) ==>
        output in e.disk.files && e.disk.files[output] == run.output.value)
      && forall p :: p in d.files && p != output && p != t.listPath && !t.IsChunkFile(p) ==>
        p in e.disk.files && e.disk.files[p] == d.files[p]
  {}

  /** The stitched file of an input named `chunk...`, stitched with a suffix that has no separator. */
  lemma StitchedPathMatchesGlob(t: Transcoder, suffix: string, clock: string)
    requires t.chunkBasePath == Join(t.input.dir, ChunkBaseName) && t.input.WellFormed()
    requires StartsWith(t.input.stem, ChunkBaseName) && suffix != [] && '/' !in suffix
    ensures t.IsChunkFile(t.StitchedPath(suffix, clock))
  {
    var pre, stem := Prefix(t.input.dir), t.input.stem;
    var rest := stem[|ChunkBaseName|..];
    assert stem == ChunkBaseName + rest;
    assert '/' !in rest by {
      assert forall k :: 0 <= k < |rest| ==> rest[k] == stem[|ChunkBaseName| + k];
    }
    assert t.input.Name() == pre + stem by {
      assert stem[0] == 'c';
    }
    var tail := "_" + suffix;
    assert t.StitchedPath(suffix, clock) == pre + stem + tail + t.input.ext by {
      AppendAssoc(pre + stem, "_", suffix);
    }
    Regroup(pre, ChunkBaseName, rest, tail, t.input.ext);
    GlobMatchesFill(t.chunkBasePath, rest + tail, t.input.ext);
  }

  lemma Regroup(pre: string, base: string, rest: string, tail: string, ext: string)
    ensures pre + (base + rest) + tail + ext == (pre + base) + (rest + tail) + ext
  {
    AppendAssoc(pre, base, rest);
    AppendAssoc(pre + base, rest, tail);
  }

  /**
   * When the input's name starts with `chunk`, `stitch` with a suffix
   * deletes both the input and the file it has just stitched: the cleanup's
   * glob `.../chunk*<ext>` matches both names.
   */
  lemma StitchDeletesChunkNamedFiles(t: Transcoder, d: Disk, suffix: string, clock: string, run: Run)
    requires t.Valid() && t.input.WellFormed() && StartsWith(t.input.stem, ChunkBaseName)
    requires suffix != [] && '/' !in suffix && t.listPath in d.files
    ensures var e := t.StitchEffect(d, suffix, clock, run);
      && e.outcome == Done
      && t.StitchedPath(suffix, clock) !in e.disk.files
      && t.input.Full() !in e.disk.files
  {
    StitchedPathMatchesGlob(t, suffix, clock);
    ChunkNamedInputMatches(t);
  }

  /** No chunk path is the list's path. */
  lemma NoChunkIsList(t: Transcoder)
    requires t.Valid()
    ensures forall i: nat :: t.ChunkPath(i) != t.listPath
  {
    forall i: nat {
      t.ChunkPathIsNotList(i);
    }
  }

  /**
   * A failed segment split raises `FFmpegException` exactly when there was
   * a list to remove, from before or written by `ffmpeg`; otherwise the
   * cleanup's `FileNotFoundError` escapes instead.
   */
  lemma SegmentFailureOutcome(t: Transcoder, d: Disk, chunkTime: int, seg: SegmentRun)
    requires t.Valid() && seg.status != 0
    ensures var e := t.SegmentEffect(d, chunkTime, seg);
      && (e.outcome == Raised(FFmpegFailed(seg.status)) <==> t.listPath in d.files || seg.list.Some?)
      && (e.outcome != Raised(FFmpegFailed(seg.status)) ==> e.outcome == Raised(FileNotFound(t.listPath)))
  {
    NoChunkIsList(t);
  }

  /**
   * After a failed segment split that raised `FFmpegException`, neither the
   * list nor any chunk `ffmpeg` wrote is left, and every other file that the
   * cleanup's glob does not match is as it was.
   */
  lemma SegmentFailureCleansUp(t: Transcoder, d: Disk, chunkTime: int, seg: SegmentRun)
    requires t.Valid() && seg.status != 0 && (t.listPath in d.files || seg.list.Some?)
    ensures var e := t.SegmentEffect(d, chunkTime, seg);
      && t.listPath !in e.disk.files
      && (forall i :: 0 <= i < |seg.chunks| ==> t.ChunkPath(i) !in e.disk.files)
      && forall p :: p in d.files && p != t.listPath && !t.IsChunkFile(p) ==>
        p in e.disk.files && e.disk.files[p] == d.files[p]
  {
    SegmentFailureOutcome(t, d, chunkTime, seg);
    forall i | 0 <= i < |seg.chunks| {
      t.ChunkPathMatchesGlob(i);
    }
  }

  /**
   * A successful segment split logs the one segmenting run, leaves each
   * chunk and the list, when written, with the content `ffmpeg` gave it,
   * and changes no other file.
   */
  lemma SegmentSuccess(t: Transcoder, d: Disk, chunkTime: int, seg: SegmentRun)
    requires t.Valid() && seg.status == 0
    ensures var e := t.SegmentEffect(d, chunkTime, seg);
      && e.outcome == Done
      && e.disk.log == d.log + [Segment(t.input.Full(), chunkTime, t.listPath, t.SegmentPattern())]
      && (forall i :: 0 <= i < |seg.chunks| ==> t.ChunkPath(i) in e.disk.files && e.disk.files[t.ChunkPath(i)] == seg.chunks[i])
      && Lookup(e.disk.files, t.listPath) == (if seg.list.Some? then seg.list else Lookup(d.files, t.listPath))
      && forall p :: p != t.listPath && (forall i :: 0 <= i < |seg.chunks| ==> p != t.ChunkPath(i)) ==>
        Lookup(e.disk.files, p) == Lookup(d.files, p)
  {
    SegmentSuccessFiles(t, d, chunkTime, seg);
    SegmentSuccessWrites(t, d.files, seg);
  }

  /** A successful segment split only adds what the segmenter wrote. */
  lemma SegmentSuccessFiles(t: Transcoder, d: Disk, chunkTime: int, seg: SegmentRun)
    requires seg.status == 0
    ensures t.SegmentEffect(d, chunkTime, seg) == Effect(Done, Executed(d, Segment(t.input.Full(), chunkTime, t.listPath, t.SegmentPattern()), t.SegmentWrites(seg)))
  {}

  /** Adding the segmenter's files: each chunk and the list as written, every other file as before. */
  lemma SegmentSuccessWrites(t: Transcoder, files: map<string, string>, seg: SegmentRun)
    requires t.Valid()
    ensures var files' := files + t.SegmentWrites(seg);
      && (forall i :: 0 <= i < |seg.chunks| ==> t.ChunkPath(i) in files' && files'[t.ChunkPath(i)] == seg.chunks[i])
      && Lookup(files', t.listPath) == (if seg.list.Some? then seg.list else Lookup(files, t.listPath))
      && forall p :: p != t.listPath && (forall i :: 0 <= i < |seg.chunks| ==> p != t.ChunkPath(i)) ==>
        Lookup(files', p) == Lookup(files, p)
  {
    NoChunkIsList(t);
    SegmentListWrite(t, files, seg);
    forall p | p != t.listPath && (forall i :: 0 <= i < |seg.chunks| ==> p != t.ChunkPath(i))
      ensures Lookup(files + t.SegmentWrites(seg), p) == Lookup(files, p)
    {
      t.SegmentWritesOnly(seg, p);
    }
  }

  /** The list after the segmenter: what it wrote, or else what was there. */
  lemma SegmentListWrite(t: Transcoder, files: map<string, string>, seg: SegmentRun)
    requires t.Valid()
    ensures Lookup(files + t.SegmentWrites(seg), t.listPath) == (if seg.list.Some? then seg.list else Lookup(files, t.listPath))
  {
    NoChunkIsList(t);
  }


  /** One round of the manual split changes, besides the list, only chunk `i`, and that only when `ffmpeg` wrote it. */
  lemma ManualStepFile(t: Transcoder, d: Disk, i: nat, chunkTime: int, trims: nat -> Run, p: string)
    requires p != t.listPath
    ensures var d', wrote := t.ManualStep(d, i, chunkTime, trims), p == t.ChunkPath(i) && trims(i).output.Some?;
      && (p in d'.files <==> p in d.files || wrote)
      && (p in d'.files ==> d'.files[p] == if wrote then trims(i).output.value else d.files[p])
  {}

  /**
   * After `k` rounds of the manual split, chunk `i` exists when it existed
   * before or, for `i < k`, when its trim wrote it; it then holds what the
   * trim wrote, or else what it held before.
   */
  lemma {:induction false} ManualChunk(t: Transcoder, d: Disk, k: nat, chunkTime: int, trims: nat -> Run, i: nat)
    requires t.ChunkPath(i) != t.listPath
    ensures Lookup(t.ManualEffect(d, k, chunkTime, trims).files, t.ChunkPath(i)) ==
      if i < k && trims(i).output.Some? then trims(i).output else Lookup(d.files, t.ChunkPath(i))
  {
    if k > 0 {
      var before := t.ManualEffect(d, k - 1, chunkTime, trims);
      ManualChunk(t, d, k - 1, chunkTime, trims, i);
      ManualChunkStep(t, d, before, k, chunkTime, trims, i);
    }
  }

  /** The induction step of `ManualChunk`: round `k - 1` on the host that the first `k - 1` rounds left. */
  lemma ManualChunkStep(t: Transcoder, d: Disk, before: Disk, k: nat, chunkTime: int, trims: nat -> Run, i: nat)
    requires k > 0 && t.ChunkPath(i) != t.listPath
    requires Lookup(before.files, t.ChunkPath(i)) ==
      if i < k - 1 && trims(i).output.Some? then trims(i).output else Lookup(d.files, t.ChunkPath(i))
    ensures Lookup(t.ManualStep(before, k - 1, chunkTime, trims).files, t.ChunkPath(i)) ==
      if i < k && trims(i).output.Some? then trims(i).output else Lookup(d.files, t.ChunkPath(i))
  {
    t.ChunkPathInjective(i, k - 1);
    ManualStepChunk(t, before, k - 1, chunkTime, trims, i);
  }

  /** Round `j` of the manual split writes chunk `i` only when `i == j`. */
  lemma ManualStepChunk(t: Transcoder, d: Disk, j: nat, chunkTime: int, trims: nat -> Run, i: nat)
    requires t.ChunkPath(i) != t.listPath
    ensures Lookup(t.ManualStep(d, j, chunkTime, trims).files, t.ChunkPath(i)) ==
      if i == j && trims(i).output.Some? then trims(i).output else Lookup(d.files, t.ChunkPath(i))
  {
    ManualStepFile(t, d, j, chunkTime, trims, t.ChunkPath(i));
    t.ChunkPathInjective(i, j);
  }

  /**
   * `k` rounds of the manual split leave every file other than the list and
   * chunks `0..k-1` as it was, including files the cleanup's glob matches
   * (a stale `chunk007.mp4` or `chunk_old.mp4`).
   */
  lemma {:induction false} ManualKeepsOthers(t: Transcoder, d: Disk, k: nat, chunkTime: int, trims: nat -> Run, p: string)
    requires p != t.listPath && forall i :: 0 <= i < k ==> p != t.ChunkPath(i)
    ensures var m := t.ManualEffect(d, k, chunkTime, trims);
      (p in m.files <==> p in d.files) && (p in m.files ==> m.files[p] == d.files[p])
  {
    if k > 0 {
      ManualKeepsOthers(t, d, k - 1, chunkTime, trims, p);
      ManualStepFile(t, t.ManualEffect(d, k - 1, chunkTime, trims), k - 1, chunkTime, trims, p);
    }
  }

  /**
   * When the segment split raises `FFmpegException`, `split` runs the manual
   * split on what the cleanup left: no list and no file the glob matches.
   */
  lemma FallbackStart(t: Transcoder, d: Disk, numChunks: int, seg: SegmentRun, trims: nat -> Run)
    requires t.Valid() && t.duration.Some? && numChunks != 0
    requires seg.status != 0 && (t.listPath in d.files || seg.list.Some?)
    ensures var chunkTime := ChunkTime(t.duration.value, numChunks);
      var segmented := t.SegmentEffect(d, chunkTime, seg);
      && segmented.outcome == Raised(FFmpegFailed(seg.status))
      && t.SplitEffect(d, numChunks, seg, trims) == Effect(Done, t.ManualEffect(segmented.disk, RangeLength(numChunks), chunkTime, trims))
      && t.listPath !in segmented.disk.files
      && forall p :: p in segmented.disk.files ==> !t.IsChunkFile(p)
  {
    SegmentFailureOutcome(t, d, ChunkTime(t.duration.value, numChunks), seg);
  }

  /**
   * After the fallback, `chunk_files` reads back from the list the path of
   * every chunk the manual split cut, in order: the list was removed by the
   * cleanup, so it holds exactly the manual split's entries.
   */
  lemma FallbackChunkList(t: Transcoder, d: Disk, n: nat, chunkTime: int, trims: nat -> Run)
    requires t.Valid() && t.listPath !in d.files && n > 0 && ListSafe(t.input.ext)
    ensures var r := t.ChunkFilesOf(t.ManualEffect(d, n, chunkTime, trims).files);
      r.Some? && |r.value| == n && forall i :: 0 <= i < n ==> r.value[i] == t.ChunkPath(i)
  {
    var m := t.ManualEffect(d, n, chunkTime, trims);
    NoChunkIsList(t);
    t.ManualListText(d, n, chunkTime, trims);
    assert TextOf(d, t.listPath) + ListText(n, t.input.ext) == ListText(n, t.input.ext);
    assert m.files[t.listPath] == ListText(n, t.input.ext);
    ListRoundTrip(t.input.dir, n, t.input.ext);
    forall i | 0 <= i < n {
      t.ChunkPathIsEntry(i);
    }
  }

  /**
   * The fallback of `split`: it ends normally, having logged the failed
   * segmenting run and then one trim per chunk, in chunk order.
   */
  lemma SplitFallback(t: Transcoder, d: Disk, numChunks: int, seg: SegmentRun, trims: nat -> Run)
    requires t.Valid() && t.duration.Some? && numChunks != 0
    requires seg.status != 0 && (t.listPath in d.files || seg.list.Some?)
    ensures var e, chunkTime := t.SplitEffect(d, numChunks, seg, trims), ChunkTime(t.duration.value, numChunks);
      && e.outcome == Done
      && e.disk.log == d.log + [Segment(t.input.Full(), chunkTime, t.listPath, t.SegmentPattern())] + t.TrimLog(RangeLength(numChunks), chunkTime)
  {
    var chunkTime := ChunkTime(t.duration.value, numChunks);
    FallbackStart(t, d, numChunks, seg, trims);
    t.ManualLog(t.SegmentEffect(d, chunkTime, seg).disk, RangeLength(numChunks), chunkTime, trims);
  }

  /** After the fallback, chunk `i` exists exactly when its trim wrote it, and holds what that trim wrote. */
  lemma SplitFallbackChunks(t: Transcoder, d: Disk, numChunks: int, seg: SegmentRun, trims: nat -> Run)
    requires t.Valid() && t.duration.Some? && numChunks != 0
    requires seg.status != 0 && (t.listPath in d.files || seg.list.Some?)
    ensures var e := t.SplitEffect(d, numChunks, seg, trims);
      forall i :: 0 <= i < RangeLength(numChunks) ==>
        && (t.ChunkPath(i) in e.disk.files <==> trims(i).output.Some?)
        && (trims(i).output.Some? ==> e.disk.files[t.ChunkPath(i)] == trims(i).output.value)
  {
    var chunkTime := ChunkTime(t.duration.value, numChunks);
    FallbackStart(t, d, numChunks, seg, trims);
    ManualChunksFromClean(t, t.SegmentEffect(d, chunkTime, seg).disk, RangeLength(numChunks), chunkTime, trims);
  }

  /** Started with no chunk files, the manual split leaves chunk `i` exactly when its trim wrote it. */
  lemma ManualChunksFromClean(t: Transcoder, d: Disk, n: nat, chunkTime: int, trims: nat -> Run)
    requires t.Valid() && forall p :: p in d.files ==> !t.IsChunkFile(p)
    ensures var m := t.ManualEffect(d, n, chunkTime, trims);
      forall i :: 0 <= i < n ==>
        && (t.ChunkPath(i) in m.files <==> trims(i).output.Some?)
        && (trims(i).output.Some? ==> m.files[t.ChunkPath(i)] == trims(i).output.value)
  {
    var m := t.ManualEffect(d, n, chunkTime, trims);
    forall i | 0 <= i < n
      ensures t.ChunkPath(i) in m.files <==> trims(i).output.Some?
      ensures trims(i).output.Some? ==> m.files[t.ChunkPath(i)] == trims(i).output.value
    {
      t.ChunkPathMatchesGlob(i);
      t.ChunkPathIsNotList(i);
      ManualChunk(t, d, n, chunkTime, trims, i);
    }
  }

  /**
   * After the fallback, the list holds the manual split's entries alone, so
   * `chunk_files` gives the path of every chunk, in order; after
   * `split` with a negative count there is no list at all.
   */
  lemma SplitFallbackList(t: Transcoder, d: Disk, numChunks: int, seg: SegmentRun, trims: nat -> Run)
    requires t.Valid() && t.duration.Some? && numChunks != 0
    requires seg.status != 0 && (t.listPath in d.files || seg.list.Some?)
    ensures var r := t.ChunkFilesOf(t.SplitEffect(d, numChunks, seg, trims).disk.files);
      && (numChunks > 0 && ListSafe(t.input.ext) ==>
        r.Some? && |r.value| == numChunks && forall i :: 0 <= i < numChunks ==> r.value[i] == t.ChunkPath(i))
      && (numChunks < 0 ==> r.None?)
  {
    var chunkTime := ChunkTime(t.duration.value, numChunks);
    var segmented := t.SegmentEffect(d, chunkTime, seg);
    FallbackStart(t, d, numChunks, seg, trims);
    if numChunks > 0 && ListSafe(t.input.ext) {
      FallbackChunkList(t, segmented.disk, numChunks, chunkTime, trims);
    }
  }

  /**
   * The fallback leaves every file that is neither the list nor matched by
   * the cleanup's glob as it was.
   */
  lemma SplitFallbackKeepsOthers(t: Transcoder, d: Disk, numChunks: int, seg: SegmentRun, trims: nat -> Run, p: string)
    requires t.Valid() && t.duration.Some? && numChunks != 0
    requires seg.status != 0 && (t.listPath in d.files || seg.list.Some?)
    requires p in d.files && p != t.listPath && !t.IsChunkFile(p)
    ensures var e := t.SplitEffect(d, numChunks, seg, trims);
      p in e.disk.files && e.disk.files[p] == d.files[p]
  {
    var chunkTime := ChunkTime(t.duration.value, numChunks);
    var segmented := t.SegmentEffect(d, chunkTime, seg);
    FallbackStart(t, d, numChunks, seg, trims);
    SegmentFailureCleansUp(t, d, chunkTime, seg);
    forall i | 0 <= i < RangeLength(numChunks)
      ensures p != t.ChunkPath(i)
    {
      t.ChunkPathMatchesGlob(i);
    }
    ManualKeepsOthers(t, segmented.disk, RangeLength(numChunks), chunkTime, trims, p);
  }

  /**
   * When the segmenting run fails and there is no list to remove, the
   * cleanup's `FileNotFoundError` escapes `split`: the manual split never
   * runs and only the segmenting run is logged.
   */
  lemma SplitWithoutList(t: Transcoder, d: Disk, numChunks: int, seg: SegmentRun, trims: nat -> Run)
    requires t.Valid() && t.duration.Some? && numChunks != 0
    requires seg.status != 0 && t.listPath !in d.files && seg.list.None?
    ensures var e := t.SplitEffect(d, numChunks, seg, trims);
      && e.outcome == Raised(FileNotFound(t.listPath))
      && e.disk.log == d.log + [Segment(t.input.Full(), ChunkTime(t.duration.value, numChunks), t.listPath, t.SegmentPattern())]
  {
    SegmentFailureOutcome(t, d, ChunkTime(t.duration.value, numChunks), seg);
  }

  /** When the segmenting run succeeds, `split` does nothing more: its effect on the files is the segment split's. */
  lemma SplitBySegment(t: Transcoder, d: Disk, numChunks: int, seg: SegmentRun, trims: nat -> Run)
    requires t.duration.Some? && numChunks != 0 && seg.status == 0
    ensures var e := t.SplitEffect(d, numChunks, seg, trims);
      && e.outcome == Done
      && e == t.SegmentEffect(d, ChunkTime(t.duration.value, numChunks), seg)
      && e.disk.log == d.log + [Segment(t.input.Full(), ChunkTime(t.duration.value, numChunks), t.listPath, t.SegmentPattern())]
  {}

  /**
   * The trims of the manual split together cover a probed input: every
   * instant lies in the stretch that some trim cuts into its chunk. With
   * `SplitFallback`, these are the trims the fallback logs.
   */
  lemma TrimsCoverInput(t: Transcoder, numChunks: int, x: real)
    requires t.duration.Some? && numChunks >= 1 && 0.0 <= x < t.duration.value
    ensures var trims := t.TrimLog(numChunks, ChunkTime(t.duration.value, numChunks));
      exists i :: 0 <= i < numChunks &&
        trims[i].Trim? && trims[i].input == t.input.Full() && trims[i].output == t.ChunkPath(i) &&
        trims[i].start as real <= x < (trims[i].start + trims[i].length) as real
  {
    var chunkTime := ChunkTime(t.duration.value, numChunks);
    var trims := t.TrimLog(numChunks, chunkTime);
    var i := ChunkOfInstant(t.duration.value, numChunks, x);
    t.TrimLogAt(numChunks, chunkTime, i);
    assert trims[i] == Trim(Offset(i, chunkTime), chunkTime, t.input.Full(), t.ChunkPath(i));
  }

  /**
   * For a non-empty input, the trims start at strictly increasing offsets
   * and do not overlap: each ends no later than the next one starts.
   */
  lemma TrimsInOrder(t: Transcoder, numChunks: int, i: nat, j: nat)
    requires t.duration.Some? && t.duration.value > 0.0 && numChunks >= 1 && i < j < numChunks
    ensures var trims := t.TrimLog(numChunks, ChunkTime(t.duration.value, numChunks));
      && trims[i].Trim? && trims[j].Trim?
      && trims[i].start < trims[j].start
      && trims[i].start + trims[i].length <= trims[j].start
  {
    var chunkTime := ChunkTime(t.duration.value, numChunks);
    t.TrimLogAt(numChunks, chunkTime, i);
    t.TrimLogAt(numChunks, chunkTime, j);
    OffsetsIncrease(t.duration.value, numChunks, i, j);
    assert Offset(i + 1, chunkTime) == Offset(i, chunkTime) + chunkTime;
  }

  /**
   * After a successful segment split whose list is in ffconcat form (the
   * header, then one `file` line per chunk), `chunk_files` gives the path of
   * every chunk, in order: the header line is skipped.
   */
  lemma SegmentListReadBack(t: Transcoder, d: Disk, chunkTime: int, seg: SegmentRun, n: nat)
    requires t.Valid() && seg.status == 0 && ListSafe(t.input.ext)
    requires seg.list == Some(Header + ListText(n, t.input.ext))
    ensures var r := t.ChunkFilesOf(t.SegmentEffect(d, chunkTime, seg).disk.files);
      r.Some? && |r.value| == n && forall i :: 0 <= i < n ==> r.value[i] == t.ChunkPath(i)
  {
    FfconcatRoundTrip(t.input.dir, n, t.input.ext);
    forall i | 0 <= i < n {
      t.ChunkPathIsEntry(i);
    }
  }

  /** A second cleanup finds no list: it raises `FileNotFoundError` and changes nothing. */
  lemma RemoveChunkFilesTwice(t: Transcoder, d: Disk)
    requires t.listPath in d.files
    ensures var once := t.RemoveChunkFilesEffect(d);
      once.outcome == Done && t.RemoveChunkFilesEffect(once.disk) == Effect(Raised(FileNotFound(t.listPath)), once.disk)
  {}
}
