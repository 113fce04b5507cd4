/**
 * The machine the transcoder runs on: its files (path to content) and the
 * external `ffmpeg` processes it has started. `ffmpeg` is opaque: each
 * invocation is recorded, and what it returns and writes is given from
 * outside as a `Run` or a `SegmentRun`.
 */
module Hosting {
  import opened Basics

  /** An external `ffmpeg` invocation, with the arguments the core passes it. */
  datatype Invocation =
    | Segment(input: string, segmentTime: int, list: string, pattern: string)
    | Trim(start: int, length: int, input: string, output: string)
    | Scale(input: string, width: int, height: int, output: string)
    | Concat(list: string, output: string)

  /** How a single-output invocation ended: its exit status and, if it wrote its output file, that file's content. */
  datatype Run = Run(status: int, output: Option<string>)

  /** How the segmenting invocation ended: its exit status, the chunk files it wrote (chunk `i` holds `chunks[i]`) and the list it wrote, if any. */
  datatype SegmentRun = SegmentRun(status: int, chunks: seq<string>, list: Option<string>)

  /** A snapshot of the host: every file with its content, and every invocation so far, oldest first. */
  datatype Disk = Disk(files: map<string, string>, log: seq<Invocation>)

  /** The files a single-output run leaves behind: its output, if it wrote one. */
  function Written(path: string, run: Run): (w: map<string, string>)
    ensures w.Keys <= {path}
    ensures path in w <==> run.output.Some?
    ensures run.output.Some? ==> w[path] == run.output.value
  {
    if run.output.Some? then map[path := run.output.value] else map[]
  }

  /** Running `inv`: the files in `writes` are created or overwritten, and `inv` is logged. */
  function Executed(d: Disk, inv: Invocation, writes: map<string, string>): (d': Disk)
    ensures d'.files.Keys == d.files.Keys + writes.Keys
    ensures forall p :: p in d'.files ==> d'.files[p] == if p in writes then writes[p] else d.files[p]
    ensures d'.log == d.log + [inv]
  {
    Disk(d.files + writes, d.log + [inv])
  }

  /** `os.remove(p)` of an existing file. */
  function Removed(d: Disk, p: string): (d': Disk)
    ensures d'.files.Keys == d.files.Keys - {p}
    ensures forall q :: q in d'.files ==> d'.files[q] == d.files[q]
    ensures d'.log == d.log
  {
    d.(files := d.files - {p})
  }

  /** Removing every file in `targets`: the others keep their content, and nothing is logged. */
  function RemovedAll(d: Disk, targets: set<string>): (d': Disk)
    ensures d'.files.Keys == d.files.Keys - targets
    ensures forall q :: q in d'.files ==> d'.files[q] == d.files[q]
    ensures d'.log == d.log
  {
    d.(files := map q | q in d.files && q !in targets :: d.files[q])
  }

  /** `os.rename(src, dst)` of an existing file: `dst` gets `src`'s content, replacing any file there, and `src` is gone unless it is `dst`. */
  function Renamed(d: Disk, src: string, dst: string): (d': Disk)
    requires src in d.files
    ensures d'.files.Keys == d.files.Keys - {src} + {dst}
    ensures d'.files[dst] == d.files[src]
    ensures forall q :: q in d'.files && q != dst ==> d'.files[q] == d.files[q]
    ensures d'.log == d.log
  {
    d.(files := (d.files - {src})[dst := d.files[src]])
  }

  /** The content of file `p`, if it exists. */
  function Lookup(files: map<string, string>, p: string): (r: Option<string>)
    ensures r.Some? <==> p in files
    ensures r.Some? ==> r.value == files[p]
  {
    if p in files then Some(files[p]) else None
  }

  /** The text of a file, or nothing when it does not exist: what `open(p, "a")` appends to. */
  function TextOf(d: Disk, p: string): string {
    if p in d.files then d.files[p] else []
  }

  /** `open(p, "a").write(s)`: the file is created if missing and `s` is added at its end. */
  function Appended(d: Disk, p: string, s: string): (d': Disk)
    ensures d'.files.Keys == d.files.Keys + {p}
    ensures d'.files[p] == TextOf(d, p) + s
    ensures forall q :: q in d'.files && q != p ==> d'.files[q] == d.files[q]
    ensures d'.log == d.log
  {
    d.(files := d.files[p := TextOf(d, p) + s])
  }

  /** The host itself, whose files the transcoder changes in place. */
  class Host {
    var files: map<string, string>
    var log: seq<Invocation>

    function State(): Disk
      reads this
    {
      Disk(files, log)
    }

    constructor (initial: Disk)
      ensures State() == initial
    {
      files := initial.files;
      log := initial.log;
    }

    /** `os.path.isfile(p)`. */
    method IsFile(p: string) returns (b: bool)
      ensures b <==> p in files
    {
      b := p in files;
    }

    /** Reading the whole of an existing file. */
    method Read(p: string) returns (s: string)
      requires p in files
      ensures s == files[p]
    {
      s := files[p];
    }

    /** Starting `ffmpeg` and waiting for it: it writes `writes` and is logged. */
    method Execute(inv: Invocation, writes: map<string, string>)
      modifies this
      ensures State() == Executed(old(State()), inv, writes)
    {
      files := files + writes;
      log := log + [inv];
    }

    /** `os.remove(p)`: fails, changing nothing, when `p` does not exist. */
    method Remove(p: string) returns (ok: bool)
      modifies this
      ensures ok <==> p in old(files)
      ensures State() == if ok then Removed(old(State()), p) else old(State())
    {
      ok := p in files;
      if ok {
        files := files - {p};
      }
    }

    /** `os.rename(src, dst)`: fails, changing nothing, when `src` does not exist. */
    method Rename(src: string, dst: string) returns (ok: bool)
      modifies this
      ensures ok <==> src in old(files)
      ensures State() == if ok then Renamed(old(State()), src, dst) else old(State())
    {
      ok := src in files;
      if ok {
        files := (files - {src})[dst := files[src]];
      }
    }

    /** Appending `s` to the text file `p`, creating it if needed. */
    method Append(p: string, s: string)
      modifies this
      ensures State() == Appended(old(State()), p, s)
    {
      var prior := if p in files then files[p] else [];
      files := files[p := prior + s];
    }
  }
}
