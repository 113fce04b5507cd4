# ffperf `Transcoder`: a verified model of its chunk bookkeeping

ffperf measures how fast `ffmpeg` works when a video is cut into chunks that
are processed separately and then joined again. Its `Transcoder` class
(`transcoder.py`) does the following:

- It derives three things from the input file's path: the chunk list
  `chunks.txt`, the chunk names `chunk<i><ext>`, and the cleanup glob
  `chunk*<ext>`.
- It splits the input into chunks. It first tries one segmenting `ffmpeg` run.
  If that fails, it cleans up and falls back to one trimming run per chunk,
  appending `file chunk<i><ext>` to the list after each run.
- It reads the list back (`chunk_files`).
- It scales the input, or one chunk in place, by writing a new file and
  renaming it over the chunk (`transsize`).
- It concatenates the chunks (`stitch`).
- It removes the list and every file the glob matches.

This project models that bookkeeping in Dafny.

**Disk.** The host's file system is a map from path to content, together with
a log of every `ffmpeg` invocation the transcoder started (`Hosting.Disk`).

**Host class.** The mutable `Hosting.Host` class wraps the disk. Its methods
are `os.path.isfile`, reading a file, running `ffmpeg`, `os.remove`,
`os.rename` and appending to a file.

**ffmpeg.** `ffmpeg` is opaque. What a run returns and writes is a parameter:
- a `Run` has an exit status and the content of its output, if it wrote one;
- a `SegmentRun` has an exit status, the chunks written, and the list, if it
  wrote one.

**Operations.** Each operation of the transcoder has two forms:
- a method on the host that changes its state;
- a function `…Effect` that gives the outcome and the new disk from the old
  disk.

Each method is proved to have exactly the effect its function describes.
Module `TranscoderFacts` proves what the source promises about those
functions.

**The model follows the code as written; in particular:**
- The manual split appends a list entry for every chunk, whatever the trimming
  run's exit status. It does not append only for successful chunks.
- The width is `int(height * aspect_ratio)`, which truncates toward zero. It is
  not a floor.
- `stitch` removes the list and the chunk files whatever `ffmpeg`'s exit
  status.
- `transsize` does not look at `ffmpeg`'s exit status. It raises only when the
  chunk is missing, or when the rename finds no file to move.
- `chunk_files` returns `None` when there is no list. It does not fall back to
  globbing.
- `split` has no `num_chunks >= 1` precondition:
  - `split(0)` raises `ZeroDivisionError`;
  - a negative count runs no trims.

## Model

| member | source | states |
|---|---|---|
| Text.NatToString | transcoder.py:175 | `str(i)` for a chunk number is non-empty decimal digits denoting `i`, and starts with `0` only when it is exactly `0` |
| Text.IntToString | transcoder.py:110-112 | `str(w)` starts with a minus sign exactly for negative numbers, followed by decimal digits denoting the magnitude with no leading zero (only `0` itself starts with `0`); it holds nothing but digits and `-` |
| Text.NatToStringInjective | transcoder.py:175 | distinct chunk numbers render as distinct strings |
| Text.SizesHaveNoSeparator | transcoder.py:110-112 | the `{w}_{h}` part of a scaled name holds no path separator |
| Text.RStrip | transcoder.py:88 | `rstrip()` removes exactly the longest trailing run of whitespace and keeps a prefix |
| Text.LStrip | transcoder.py:88 | `lstrip(chars)` removes exactly the longest leading run of characters from `chars` and keeps a suffix |
| Text.Lines | transcoder.py:83 | iterating a text file gives non-empty lines that concatenate back to the text, each but the last ending in a newline, and none holding a newline before its end |
| Text.LinesAppend | transcoder.py:178-181 | appending to a text that is empty or ends in a newline only adds lines after the existing ones |
| Paths.Prefix | transcoder.py:33-39 | what `os.path.join` puts before a relative name: the directory, ending in a separator unless empty; a directory that already ends in one is kept as is, otherwise one separator is added |
| Paths.Join | transcoder.py:33-39 | `os.path.join(dir, name)` ends with `name`; an absolute name replaces the directory; otherwise the result is the directory's prefix followed by `name`, exactly as long as the two together |
| Paths.JoinAppend | transcoder.py:37-45 | joining `chunk` and then appending `i` and the extension equals joining the whole chunk name |
| Paths.MediaPath.Full | transcoder.py:28-30 | the input path ends with its base name `stem + ext` and, for a relative base name, starts with the directory's join prefix |
| Paths.MediaPath.Name | transcoder.py:30 | `os.path.splitext(path)[0]` ends with the stem and, for a relative stem, starts with the directory's join prefix |
| Paths.GlobMatchesFill | transcoder.py:200 | filling the `*` with a run free of separators gives a path the glob yields |
| Paths.GlobMatchIsFill | transcoder.py:200 | every path the glob yields is such a filling |
| Manifest.ChunkName | transcoder.py:180 | `chunk<i><ext>` starts with `chunk` and ends with the extension, and between them holds decimal digits denoting `i`, with a leading `0` only for chunk 0; it has no newline or separator unless the extension has one |
| Manifest.ChunkNameInjective | transcoder.py:180 | distinct chunks get distinct list names |
| Manifest.EntryLineParts | transcoder.py:179 | the line appended for a chunk is `file `, then the name, then one newline |
| Manifest.ListText | transcoder.py:178-181 | the text the manual split appends for `n` chunks ends in a newline and is non-empty when `n > 0` |
| Manifest.ListTextStep | transcoder.py:178-181 | appending chunk `n`'s entry to the text of chunks `0 .. n-1` gives the text of chunks `0 .. n` |
| Manifest.EntryLines | transcoder.py:179-180 | the lines for `n` chunks are `file chunk<i><ext>\n`, one per chunk, in order |
| Manifest.ChunkPathsIn | transcoder.py:86-89 | the joined paths of chunks `0 .. n-1`, in order |
| Manifest.EntryPath | transcoder.py:84-90 | a line contributes one path when it starts with `file ` and none otherwise |
| Manifest.ParseLines | transcoder.py:83-90 | `chunk_files` collects at most one path per line |
| Manifest.ParseList | transcoder.py:82-90 | `chunk_files` returns at most one path per line of the list, and every path it returns comes from one of the list's `file ` lines |
| Manifest.ParseLinesFromEntries | transcoder.py:83-90 | every path the loop collects is the path of one of the lines it read |
| Manifest.FromSomeLineStep | transcoder.py:83-90 | one more line keeps every earlier path traceable to its line, and the new path, if any, comes from that line |
| Manifest.ParseLinesSnoc | transcoder.py:83-90 | one more line adds its entry, if any, at the end of the result |
| Manifest.ParseLinesAppend | transcoder.py:83-90 | parsing keeps line order: the entries of two runs of lines are those of each, one after the other |
| Manifest.SkipsNonEntry | transcoder.py:84 | a line not starting with `file ` contributes nothing, wherever it stands |
| Manifest.LStripRun | transcoder.py:88 | `lstrip` of a run of stripped characters stops at the first character outside the set |
| Manifest.RStripRun | transcoder.py:88 | `rstrip` drops a trailing whitespace run and stops at the last non-whitespace character |
| Manifest.RStripNewline | transcoder.py:88 | `rstrip` removes the line's newline and nothing before it |
| Manifest.EntryRoundTrip | transcoder.py:84-90 | an entry line for a name that starts outside `{f,i,l,e, }` and ends in non-whitespace reads back as the name joined to the directory |
| Manifest.LinesOfEntryLine | transcoder.py:178-181 | an entry line is read as exactly one line |
| Manifest.LinesOfListText | transcoder.py:178-181 | the manual split's text is read as exactly its `n` entry lines, in order |
| Manifest.ChunkNameRoundTrip | transcoder.py:88 | every chunk name reads back unchanged, for an extension free of newlines and trailing whitespace |
| Manifest.ListRoundTrip | transcoder.py:79-91 | the list written for `n` chunks parses to the paths of chunks `0 .. n-1`, in order |
| Manifest.EntryLinesParse | transcoder.py:83-90 | the `n` entry lines parse to the paths of chunks `0 .. n-1` |
| Manifest.AppendKeepsEntries | transcoder.py:178-181 | appending the manual split's entries to a list keeps the entries already there in front |
| Manifest.HeaderIsNoEntry | transcoder.py:84 | the ffconcat header line is one line and contributes no path |
| Manifest.FfconcatRoundTrip | transcoder.py:79-91 | a list in ffconcat form, with the header first, parses to the chunks' paths |
| Manifest.StripEatsLeadingNameCharacters | transcoder.py:88 | `lstrip("file ")` is not prefix removal: the entry `file e0.mp4` reads back as `0.mp4` |
| Manifest.EntryDropsTrailingSpace | transcoder.py:88 | whitespace at the end of a name is lost when read back |
| Manifest.FirstChunkName | transcoder.py:180 | chunk 0 is named `chunk0` followed by the extension |
| Manifest.SpacedChunkName | transcoder.py:180 | with the extension `.mp4 `, chunk 0 is named `chunk0.mp4` followed by a space |
| Manifest.TrailingSpaceExtensionIsLost | transcoder.py:88 | with the extension `.mp4 `, chunk 0 is written as `chunk0.mp4 ` but read back as `chunk0.mp4` |
| Schedule.Ceil | transcoder.py:143 | `math.ceil` is the least integer not below its argument |
| Schedule.ChunkTime | transcoder.py:143 | `chunk_time = ceil(D / N)` is not below the exact quotient and less than one above it |
| Schedule.ChunkTimeBounds | transcoder.py:143 | `N * chunk_time >= D` and `N * (chunk_time - 1) < D` |
| Schedule.ChunkTimeSign | transcoder.py:143 | a non-empty input gets chunks of at least one second; an empty one gets chunks of zero seconds |
| Schedule.Offset | transcoder.py:170 | the seek offset `i * chunk_time` is non-negative for a non-negative index and chunk time |
| Schedule.OffsetIndex | transcoder.py:170 | for a positive chunk time the offset is a multiple of it, and dividing by it gives back the chunk index |
| Schedule.OffsetsIncrease | transcoder.py:170-171 | for a non-empty input, seek offsets strictly increase and each chunk ends no later than the next one starts |
| Schedule.IndexOfInstant | transcoder.py:168-171 | every instant lies in the interval of some chunk index |
| Schedule.ScheduleCovers | transcoder.py:168-171 | the intervals `[i * chunk_time, (i + 1) * chunk_time)` for `i < N` cover `[0, D)` |
| Schedule.ChunkOfInstant | transcoder.py:168-171 | the chunk `i < N` whose interval holds a given instant |
| Schedule.IndexBelowCount | transcoder.py:168-171 | an instant before the end never falls beyond chunk `N - 1` |
| Schedule.LastChunkCanStartAtEnd | transcoder.py:143 | with `D = 10` and `N = 6`, `chunk_time = 2` and the last chunk starts at the end of the input |
| Schedule.TruncDiv | transcoder.py:103 | `int()` of a quotient rounds toward zero |
| Schedule.TruncDivNearQuotient | transcoder.py:103 | the truncated quotient is within one of the exact quotient, on the side of zero |
| Schedule.Width | transcoder.py:103 | `int(height * aspect_ratio)` is within one of the exact product, on the side of zero |
| Hosting.Written | transcoder.py:176 | a run's output file exists afterwards exactly when `ffmpeg` wrote it, it holds what `ffmpeg` wrote, and no other file is written |
| Hosting.Executed | transcoder.py:176 | running `ffmpeg` adds or overwrites the files it writes, keeps the others, and logs the invocation |
| Hosting.Removed | transcoder.py:199 | `os.remove` deletes one path, keeps the rest and logs nothing |
| Hosting.RemovedAll | transcoder.py:200-201 | removing a set of paths deletes exactly those and keeps the others' content |
| Hosting.Renamed | transcoder.py:124 | `os.rename` moves the source's content to the destination, replacing it, and removes the source |
| Hosting.Appended | transcoder.py:178-181 | opening in append mode creates the file if missing and adds the text at its end |
| Hosting.Host.IsFile | transcoder.py:101 | `os.path.isfile` is true exactly for existing files |
| Hosting.Host.Read | transcoder.py:82-83 | reading gives the file's content |
| Hosting.Host.Execute | transcoder.py:176 | the host afterwards is the described `ffmpeg` effect of the old host |
| Hosting.Host.Remove | transcoder.py:199-201 | fails, changing nothing, exactly when the path is missing; otherwise removes it |
| Hosting.Host.Rename | transcoder.py:124 | fails, changing nothing, exactly when the source is missing; otherwise renames |
| Hosting.Host.Append | transcoder.py:178-181 | the host afterwards is the old host with the text appended |
| Transcoding.Open | transcoder.py:24-61 | the constructor raises `FileNotFoundError` for a missing input and `AssertionError` for a chunk without width and height; otherwise it derives the list and chunk paths from the input's directory |
| Transcoding.RangeLength | transcoder.py:168 | `range(n)` runs `n` times for a non-negative `n` and not at all for a negative one |
| Transcoding.Transcoder.SegmentPattern | transcoder.py:40-45 | the segmenter's pattern is the chunk base path followed by `%d` and the input's extension |
| Transcoding.Transcoder.SegmentPatternNamesChunk | transcoder.py:40-45 | putting `str(i)` in place of the pattern's `%d` gives chunk `i`'s path, the name the manual split uses too |
| Transcoding.Transcoder.GlobPattern | transcoder.py:46-50 | the cleanup's pattern is the chunk base path, one `*`, and the input's extension, and the glob over it yields exactly the files `IsChunkFile` accepts |
| Transcoding.Transcoder.ChunkPathParts | transcoder.py:175 | chunk `i`'s path is the chunk base path, then decimal digits denoting `i`, then the input's extension |
| Transcoding.Transcoder.ChunkPathIsEntry | transcoder.py:175 | the path the manual split writes chunk `i` to is its list name joined to the input's directory |
| Transcoding.Transcoder.ChunkPathInjective | transcoder.py:175 | distinct chunks get distinct paths |
| Transcoding.Transcoder.ChunkPathIsNotList | transcoder.py:33-39 | no chunk path is the list's path |
| Transcoding.Transcoder.ChunkPathMatchesGlob | transcoder.py:200 | the cleanup's glob yields every chunk path |
| Transcoding.Transcoder.IsChunkFileIff | transcoder.py:200 | the glob yields a path exactly when it is the chunk base path, a run of characters without a separator, and the input's extension |
| Transcoding.Transcoder.SegmentWrites | transcoder.py:150-162 | the segmenting run writes every chunk with its content, under a name the glob matches, and the list exactly when it wrote one |
| Transcoding.Transcoder.ChunkWrites | transcoder.py:162 | chunks `0 .. k-1` get their contents, every path matches the glob, and the list is not among them |
| Transcoding.Transcoder.SegmentWritesOnly | transcoder.py:150-162 | the segmenting run writes no file other than the list and chunks `0 .. n-1` |
| Transcoding.Transcoder.ChunkWritesOnly | transcoder.py:162 | the chunks `0 .. k-1` are the only files written |
| Transcoding.Transcoder.RemoveChunkFilesEffect | transcoder.py:198-201 | raises `FileNotFoundError` and changes nothing when the list is missing; otherwise removes exactly the list and every file the glob matches, keeping the others' content |
| Transcoding.Transcoder.CleanupInTwoSteps | transcoder.py:198-201 | removing the list and then every file the glob yields is the cleanup's effect |
| Transcoding.Transcoder.SegmentEffect | transcoder.py:150-165 | logs one segmenting run; on failure it raises `FFmpegException`, or `FileNotFoundError` when there was no list to remove; after `FFmpegException`, no list or chunk file remains |
| Transcoding.Transcoder.TrimLog | transcoder.py:168-176 | the manual split issues one trim per chunk |
| Transcoding.Transcoder.TrimLogAt | transcoder.py:168-176 | trim `i` cuts chunk `i`, from `i * chunk_time`, `chunk_time` long |
| Transcoding.Transcoder.TrimOf | transcoder.py:169-176 | the trim for chunk `i` cuts the input from `i * chunk_time`, `chunk_time` long, into chunk `i`'s path |
| Transcoding.Transcoder.TrimsAdjoin | transcoder.py:170-171 | each trim ends where the next one starts |
| Transcoding.Transcoder.ManualStep | transcoder.py:168-181 | one round logs its trim and leaves a list behind |
| Transcoding.Transcoder.ManualStepAppends | transcoder.py:178-181 | one round adds chunk `i`'s entry at the end of the list |
| Transcoding.Transcoder.ManualEffect | transcoder.py:167-181 | after at least one round, the list exists |
| Transcoding.Transcoder.ManualLog | transcoder.py:167-176 | the manual split logs one trim per chunk, in chunk order, after what ran before |
| Transcoding.Transcoder.ManualListText | transcoder.py:167-181 | the manual split appends the entries of chunks `0 .. n-1`, in order, after whatever the list held, whatever each trim's status |
| Transcoding.Transcoder.ManualListTextStep | transcoder.py:178-181 | round `k - 1` extends the text of chunks `0 .. k-2` to that of chunks `0 .. k-1` |
| Transcoding.Transcoder.SplitEffect | transcoder.py:141-148 | raises for a chunk (no duration) and for zero chunks; otherwise the segmenting run with `ceil(D/N)` is issued first |
| Transcoding.Transcoder.TranssizeEffect | transcoder.py:95-127 | no-op when not downscaling; raises for a missing chunk before any run; otherwise one scale to `trunc(h * ratio)` by `h` of the chunk or the input |
| Transcoding.Transcoder.ScaledPath | transcoder.py:110-112 | `{name}_{w}_{h}{ext}`: starts with the name and `_`, the part before the input's extension is `str(w)_str(h)`, ends with the input's extension, and adds no separator after the name unless the extension has one |
| Transcoding.Transcoder.StitchEffect | transcoder.py:183-196 | logs one concat of the list into the stitched path, then cleans up whatever the concat's exit status: no list remains, and after success no chunk file remains |
| Transcoding.Transcoder.StitchedPath | transcoder.py:191-194 | `{name}_{suffix}{ext}` is the input's name, `_`, the suffix (the clock reading when the suffix is empty) and the input's extension |
| Transcoding.Transcoder.ChunkFilesOf | transcoder.py:79-93 | `None` exactly when the list is missing |
| Transcoding.Transcoder.ChunkFiles | transcoder.py:79-93 | returns the list's entries as paths, or `None` without a list |
| Transcoding.Transcoder.CollectEntries | transcoder.py:83-90 | the loop collects the paths of the `file ` lines in order |
| Transcoding.Transcoder.RemoveChunkFiles | transcoder.py:198-201 | the host afterwards is the described cleanup of the old host |
| Transcoding.Transcoder.RemoveEach | transcoder.py:200-201 | the loop removes exactly the globbed files |
| Transcoding.Transcoder.SplitWithSegment | transcoder.py:150-165 | the host afterwards is the described segment split of the old host |
| Transcoding.Transcoder.SplitManually | transcoder.py:167-181 | the loop's host afterwards is `num_chunks` rounds of the manual split on the old host |
| Transcoding.Transcoder.SplitRound | transcoder.py:168-181 | one iteration is one round: the trim and then the list entry |
| Transcoding.Transcoder.Split | transcoder.py:141-148 | the host afterwards is the described split of the old host |
| Transcoding.Transcoder.Transsize | transcoder.py:95-127 | the host afterwards is the described `transsize` of the old host |
| Transcoding.Transcoder.Stitch | transcoder.py:183-196 | the host afterwards is the described stitch of the old host |
| TranscoderFacts.NameThenExtension | transcoder.py:30 | a path is its name without the extension, followed by the extension |
| TranscoderFacts.InputPath | transcoder.py:28-39 | the input and the chunk base path share the directory's prefix |
| TranscoderFacts.InputMatchesGlobIff | transcoder.py:200 | the cleanup's glob matches the input itself exactly when the input's name starts with `chunk` |
| TranscoderFacts.ChunkNamedInputMatches | transcoder.py:200 | an input named `chunk…` is matched by the cleanup's glob |
| TranscoderFacts.MatchingInputIsChunkNamed | transcoder.py:200 | an input the glob matches is named `chunk…` |
| TranscoderFacts.ScaledPathIsNew | transcoder.py:105-112 | the scaled file's name differs from the file it is scaled from |
| TranscoderFacts.TranssizeOnChunk | transcoder.py:101-124 | `transsize` of an existing chunk, when downscaling, is one scaling run into the scaled path followed by the rename over the chunk |
| TranscoderFacts.TranssizeChunkInPlace | transcoder.py:101-124 | on an existing chunk, the chunk takes the scaled content, the temporary output is gone, one scale is logged, and no other file changes |
| TranscoderFacts.WriteThenRename | transcoder.py:120-124 | writing a file and renaming it over another leaves the other with the new content, the written file gone, and every other file unchanged |
| TranscoderFacts.TranssizeLostOutput | transcoder.py:120-124 | if `ffmpeg` wrote nothing and no old output exists, the rename raises `FileNotFoundError` and no file changes |
| TranscoderFacts.NothingWritten | transcoder.py:120 | a run that wrote nothing leaves every file as it was |
| TranscoderFacts.TranssizeStaleOutput | transcoder.py:120-124 | if `ffmpeg` wrote nothing but an old output of that name exists, the chunk silently takes that old content |
| TranscoderFacts.TranssizeWholeInput | transcoder.py:104-120 | without a chunk, the input is scaled into `<name>_<w>_<h><ext>` beside it and no other file changes |
| TranscoderFacts.StitchSuffixIgnoresClock | transcoder.py:191 | with a suffix given, the clock does not matter |
| TranscoderFacts.StitchOutcome | transcoder.py:195-199 | `stitch` ignores `ffmpeg`'s status and raises only when no list exists after the concat run |
| TranscoderFacts.StitchKeepsOutput | transcoder.py:192-196 | after `stitch`, the output holds what `ffmpeg` wrote unless the glob matches it, and other non-chunk files are unchanged |
| TranscoderFacts.StitchedPathMatchesGlob | transcoder.py:192-194 | the stitched output of an input named `chunk…` matches the cleanup's glob |
| TranscoderFacts.StitchDeletesChunkNamedFiles | transcoder.py:192-201 | for an input named `chunk…`, `stitch` deletes both the input and the file it has just stitched |
| TranscoderFacts.NoChunkIsList | transcoder.py:175 | no chunk path is the list path |
| TranscoderFacts.SegmentFailureOutcome | transcoder.py:161-165 | a failed segmenting run raises `FFmpegException` exactly when there was a list to remove; otherwise `FileNotFoundError` |
| TranscoderFacts.SegmentFailureCleansUp | transcoder.py:161-165 | after `FFmpegException`, neither the list nor any chunk `ffmpeg` wrote remains, and other non-chunk files are unchanged |
| TranscoderFacts.SegmentSuccess | transcoder.py:150-162 | a successful segmenting run logs one run, leaves each chunk and the list as `ffmpeg` wrote them (the list as before when it wrote none), and changes no other file |
| TranscoderFacts.SegmentSuccessFiles | transcoder.py:161-162 | a successful segmenting run only adds the files it wrote and logs itself |
| TranscoderFacts.SegmentSuccessWrites | transcoder.py:150-162 | after the segmenter's writes, each chunk and the list hold what it wrote, and every other file is unchanged |
| TranscoderFacts.SegmentListWrite | transcoder.py:156-162 | the list afterwards is the one the segmenter wrote, or the old one when it wrote none |
| TranscoderFacts.ManualStepFile | transcoder.py:175-176 | one round changes, besides the list, only chunk `i`, and only when `ffmpeg` wrote it |
| TranscoderFacts.ManualChunk | transcoder.py:168-176 | after `k` rounds, chunk `i < k` holds what its trim wrote, or what it held before when the trim wrote nothing |
| TranscoderFacts.ManualChunkStep | transcoder.py:168-176 | the induction step of `ManualChunk` |
| TranscoderFacts.ManualStepChunk | transcoder.py:175-176 | round `j` writes chunk `i` only when `i == j` |
| TranscoderFacts.ManualKeepsOthers | transcoder.py:167-181 | k rounds of the manual split leave every file other than the list and chunks 0..k-1 as it was, including stale files the cleanup's glob matches |
| TranscoderFacts.FallbackStart | transcoder.py:144-148 | when the segment split raises `FFmpegException`, `split` runs the manual split on a host with no list and no globbed file |
| TranscoderFacts.FallbackChunkList | transcoder.py:167-181 | after the manual split from a host without a list, `chunk_files` gives chunk `i`'s path for each `i < N`, in order |
| TranscoderFacts.SplitFallback | transcoder.py:144-148 | the fallback ends normally, having logged the failed segmenting run and then one trim per chunk, in order |
| TranscoderFacts.SplitFallbackChunks | transcoder.py:144-148 | after the fallback, chunk `i` exists exactly when its trim wrote it, and holds what that trim wrote |
| TranscoderFacts.ManualChunksFromClean | transcoder.py:167-176 | starting without chunk files, the manual split leaves chunk `i` exactly when its trim wrote it |
| TranscoderFacts.SplitFallbackList | transcoder.py:144-148 | after the fallback, `chunk_files` gives exactly the `N` chunk paths in order; with a negative count there is no list |
| TranscoderFacts.SplitFallbackKeepsOthers | transcoder.py:144-148 | the fallback leaves every non-list, non-globbed file as it was |
| TranscoderFacts.SplitWithoutList | transcoder.py:144-148 | with no list to remove, the cleanup's `FileNotFoundError` escapes `split` and the manual split never runs |
| TranscoderFacts.SplitBySegment | transcoder.py:144-145 | when the segmenting run succeeds, `split`'s outcome and files are exactly those of the segment split with `ceil(D/N)`: it does nothing more |
| TranscoderFacts.TrimsCoverInput | transcoder.py:168-176 | every instant of the input lies in the stretch that some trim cuts into its chunk |
| TranscoderFacts.TrimsInOrder | transcoder.py:168-171 | for a non-empty input, the trims start at strictly increasing offsets and do not overlap |
| TranscoderFacts.SegmentListReadBack | transcoder.py:79-91 | after a successful segment split that wrote an ffconcat list of `n` chunks, `chunk_files` gives their paths in order |
| TranscoderFacts.RemoveChunkFilesTwice | transcoder.py:198-199 | a second cleanup finds no list, raises `FileNotFoundError` and changes nothing |

## Left out

- The `ffprobe` call and its JSON decoding (`__get_file_info_json`, transcoder.py:58-72). A probed input's width, height and duration are inputs to `Open`.
- The `dimensions` property (transcoder.py:74-76). It only returns two fields.
- The empty `transcode` and `transrate` stubs (transcoder.py:129-139).
- All `print` output, including the message `chunk_files` prints before returning `None`.
- `run.py`, which is a timing harness around a process pool.
- The media semantics of `ffmpeg`. Each run is opaque: its exit status and the files it writes are parameters.
- The command-line options passed to `ffmpeg` (`BASE_FFMPEG_OPTIONS` and the rest). The `Invocation` log records only the arguments that carry the core's data: the input, offsets, lengths, sizes, the list, the pattern and the output.
- The exit status of `subprocess.call` (transcoder.py:120, 176, 195). The source ignores it, and so does the model. `check_call`'s non-zero status is modelled as a failed segment split.
- The clock. `stitch`'s default suffix `time()` is the `clock` parameter of `StitchedPath` and `StitchEffect`. The clock's formatting as a float is not modelled.
- Floating point. The duration is an exact `real`, the aspect ratio an exact fraction, and `int()` an exact truncation.
- Full `os.path` semantics. Paths are `(dir, stem, ext)` triples, and `os.path.join` takes two components with no normalisation.
- The input's own name. The constructor does not check that `dir`, `stem` and `ext` are what `dirname` and `splitext` would return. Lemmas that need this assume `MediaPath.WellFormed`.
- Text-file decoding. Files are strings of characters with no encoding, and lines split on `\n` only. Python's universal newlines (`\r`, `\r\n`) are not modelled.
- Parts of `glob`:
  - wildcard characters inside the directory or the extension;
  - the rule that `*` does not match a leading dot;
  - directories;
  - the order in which `glob` returns names. It does not matter, because the loop removes every name.
- Concurrency. Nothing in the core runs concurrently.
- Transcoding.Transcoder.ChunkFilesOf: its contract says only when the result is `None`. The paths it returns are stated by `Manifest.ListRoundTrip`, `TranscoderFacts.FallbackChunkList` and `TranscoderFacts.SegmentListReadBack`.
- Transcoding.Transcoder.ManualStep: its contract states only the log and that a list exists. Its effect on files is stated by `ManualStepAppends` and `TranscoderFacts.ManualStepFile`.
- Transcoding.Transcoder.SplitEffect: its contract states only the error cases and the first logged run. The fallback and success paths are stated by the `TranscoderFacts.Split…` and `Fallback…` lemmas.
- Transcoding.Transcoder.TranssizeEffect: its contract does not state the files after the run. These are stated by the `TranscoderFacts.Transsize…` lemmas.
- Transcoding.Transcoder.ChunkWrites: its contract does not say that no other path is written. `Transcoding.Transcoder.ChunkWritesOnly` states that.
- Transcoding.Transcoder.SegmentWrites: its contract does not say that nothing but the list and the chunks is written. `Transcoding.Transcoder.SegmentWritesOnly` states that.
- Transcoding.Transcoder.ChunkPath: it has no contract of its own: a contract would be carried into every proof that mentions a chunk path and make those proofs too costly. Its shape is stated by `Transcoding.Transcoder.ChunkPathParts`, `ChunkPathIsEntry` and `ChunkPathInjective`.
- Transcoding.Transcoder.IsChunkFile: it has no contract of its own. What the glob yields is stated by `Transcoding.Transcoder.IsChunkFileIff` and `Transcoding.Transcoder.GlobPattern`.
- `ffmpeg` failing to start. The model assumes every `ffmpeg` run starts and ends with an exit status. When the binary is missing, `subprocess.call` and `check_call` raise `OSError` instead (transcoder.py:120, 161, 176, 195). The members below leave that path out.
- Transcoding.Transcoder.SegmentEffect: does not model `ffmpeg` failing to start. The error is no `CalledProcessError`, so there is no cleanup, no `FFmpegException` and no manual fallback; the error escapes `split`.
- Transcoding.Transcoder.StitchEffect: does not model `ffmpeg` failing to start. Then the cleanup after the concat never runs.
- Transcoding.Transcoder.TranssizeEffect: does not model `ffmpeg` failing to start. Then the error is raised before the rename.
- Transcoding.Transcoder.ManualStep: does not model `ffmpeg` failing to start. Then the round stops before it appends its entry to the list.
- Hosting.Host.Execute: does not model `ffmpeg` failing to start. It always logs the invocation and writes the run's output.
- Transcoding.Transcoder.SegmentWrites: it assumes the segmenter expands only the final `%d` of `SegmentPattern`. `ffmpeg` expands `%` conversions across the whole output path (transcoder.py:41-45, 161). A `%` in the input's directory makes the pattern invalid, or, for `%%`, puts the chunks at paths other than `ChunkPath(i)` and outside the cleanup glob. The model and `SegmentPatternNamesChunk` cover directories without `%`.
- Manifest.EntryLine: it has no contract of its own. Its shape is stated by `Manifest.EntryLineParts`, and its reading back by `Manifest.EntryRoundTrip`.
