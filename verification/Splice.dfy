/** The bounded-memory copy loop (`writer/verity.rs`). */
module Splice {
  import opened Wrappers
  import opened Sequences
  import opened Bytes
  import opened Progress

  const PIPE_SIZE: nat := 1024 * 1024
  const FLUSH_INTERVAL: nat := 64 * 1024 * 1024

  // ---- Kernel objects ----

  /** A file open for reading. */
  class Source {
    const data: seq<byte>
    var pos: nat

    constructor (data: seq<byte>)
      ensures this.data == data && pos == 0
    {
      this.data := data;
      pos := 0;
    }

    ghost predicate Valid()
      reads this
    {
      pos <= |data|
    }
  }

  class Pipe {
    var held: seq<byte>

    constructor ()
      ensures held == []
    {
      held := [];
    }
  }

  /** One `flush_and_drop` call. */
  datatype Window = Window(offset: nat, len: nat)

  /** A file open for writing, with the flush calls made on it. `unflushed`
      counts bytes delivered and not yet flushed, `peak` its highest value ever. */
  class Sink {
    var written: seq<byte>
    var windows: seq<Window>
    ghost var unflushed: nat
    ghost var peak: nat

    constructor ()
      ensures written == [] && windows == [] && unflushed == peak == 0
    {
      written, windows, unflushed, peak := [], [], 0, 0;
    }
  }

  function Max(a: nat, b: nat): nat {
    if a < b then b else a
  }

  /** The kernel, and how many of the calls a copy cannot survive have failed. */
  class Kernel {
    ghost var failures: nat

    constructor ()
      ensures failures == 0
    {
      failures := 0;
    }

    ghost method Count(failed: bool)
      modifies this
      ensures failures == old(failures) + if failed then 1 else 0
    {
      failures := failures + if failed then 1 else 0;
    }

    /** `pipe(2)`. */
    method OpenPipe() returns (pipe: Option<Pipe>)
      modifies this
      ensures pipe.Some? ==> fresh(pipe.value) && pipe.value.held == []
      ensures failures == old(failures) + if pipe.Some? then 0 else 1
    {
      var ok: bool := *;
      Count(!ok);
      if ok {
        var made := new Pipe();
        return Some(made);
      }
      pipe := None;
    }

    /** Opening a file: one that is not there cannot be opened. */
    method OpenFile(present: bool) returns (ok: bool)
      modifies this
      ensures ok ==> present
      ensures failures == old(failures) + if ok then 0 else 1
    {
      ok := *;
      ok := ok && present;
      Count(!ok);
    }

    /** `splice(2)` into the pipe: an error, any short count, and 0 only at end of file. */
    method SpliceIn(src: Source, pipe: Pipe, want: nat) returns (n: int)
      requires src.Valid() && want > 0
      modifies this, src, pipe
      ensures src.Valid()
      ensures failures == old(failures) + if n < 0 then 1 else 0
      ensures n < 0 ==> src.pos == old(src.pos) && pipe.held == old(pipe.held)
      ensures n >= 0 ==>
        && n <= want && src.pos == old(src.pos) + n
        && pipe.held == old(pipe.held) + src.data[old(src.pos)..src.pos]
        && (n == 0 ==> src.pos == |src.data|)
    {
      n := *;
      var most := if want < |src.data| - src.pos then want else |src.data| - src.pos;
      Count(n < 0);
      if n < 0 {
        return -1;
      } else if n == 0 || n > most {
        n := if most > 0 then 1 else 0;
      }
      pipe.held := pipe.held + src.data[src.pos..src.pos + n];
      src.pos := src.pos + n;
    }

    /** `splice(2)` out of a pipe that holds bytes: an error, no bytes at all, or any short count. */
    method SpliceOut(pipe: Pipe, sink: Sink, want: nat) returns (n: int)
      modifies this, pipe, sink
      ensures failures == old(failures) + if n <= 0 then 1 else 0
      ensures sink.windows == old(sink.windows)
      ensures n < 0 ==> pipe.held == old(pipe.held) && sink.written == old(sink.written)
      ensures sink.unflushed == old(sink.unflushed) + (if n < 0 then 0 else n)
      ensures sink.peak == Max(old(sink.peak), sink.unflushed)
      ensures n >= 0 ==>
        && n <= want && n <= |old(pipe.held)|
        && sink.written == old(sink.written) + old(pipe.held)[..n]
        && pipe.held == old(pipe.held)[n..]
    {
      n := *;
      if n < 0 {
        n := -1;
      } else if n > want || n > |pipe.held| {
        n := 0;
      }
      Count(n <= 0);
      if n > 0 {
        sink.written := sink.written + pipe.held[..n];
        pipe.held := pipe.held[n..];
        sink.unflushed := sink.unflushed + n;
      }
      sink.peak := Max(sink.peak, sink.unflushed);
    }
  }

  /** Write back and drop one range; the kernel's answers are ignored. */
  method FlushAndDrop(sink: Sink, offset: nat, len: nat)
    modifies sink`windows, sink`unflushed
    ensures sink.windows == old(sink.windows) + [Window(offset, len)]
    ensures sink.unflushed == if len <= old(sink.unflushed) then old(sink.unflushed) - len else 0
  {
    sink.unflushed := if len <= sink.unflushed then sink.unflushed - len else 0;
    sink.windows := sink.windows + [Window(offset, len)];
  }

  // ---- What a copy achieves ----

  /** Where the last window ends. */
  function FlushedTo(windows: seq<Window>): nat {
    if windows == [] then 0 else windows[|windows| - 1].offset + windows[|windows| - 1].len
  }

  /** The windows follow one another from 0 on; each but the last is at least one interval long. */
  predicate Tiles(windows: seq<Window>) {
    && (windows != [] ==> windows[0].offset == 0)
    && (forall i :: 0 <= i < |windows| ==> 0 < windows[i].len < FLUSH_INTERVAL + PIPE_SIZE)
    && (forall i :: 0 <= i < |windows| - 1 ==>
          windows[i].len >= FLUSH_INTERVAL && windows[i + 1].offset == windows[i].offset + windows[i].len)
  }

  /** Tiled windows cover every byte exactly once. */
  lemma {:induction false} TilesCoverOnce(windows: seq<Window>, b: nat)
    requires Tiles(windows)
    ensures b < FlushedTo(windows)
       <==> exists i :: 0 <= i < |windows| && windows[i].offset <= b < windows[i].offset + windows[i].len
    ensures forall i, j :: 0 <= i < j < |windows| ==> windows[i].offset + windows[i].len <= windows[j].offset
  {
    if windows != [] {
      var front, last := windows[..|windows| - 1], windows[|windows| - 1];
      var k := |front| - 1;
      assert front != [] ==> front[k] == windows[k] && windows[k + 1] == last;
      assert Tiles(front) && FlushedTo(front) == last.offset;
      TilesCoverOnce(front, b);
      forall i, j | 0 <= i < j < |windows|
        ensures windows[i].offset + windows[i].len <= windows[j].offset
      {
        if j == |front| {
          assert front[i] == windows[i] && front[k] == windows[k];
          assert i < k ==> front[i].offset + front[i].len <= front[k].offset;
        } else {
          assert front[i].offset + front[i].len <= front[j].offset;
        }
      }
      if b < FlushedTo(windows) {
        if b < last.offset {
          var i :| 0 <= i < |front| && front[i].offset <= b < front[i].offset + front[i].len;
          assert windows[i] == front[i];
        } else {
          assert windows[|front|].offset <= b;
        }
      }
    }
  }

  /** The last report, or the starting point. */
  function ReportedTo(sent: seq<Snapshot>, low: nat): nat {
    if sent == [] then low else sent[|sent| - 1].bytesWritten
  }

  /** Cumulative reports of one copy, rising from above `low`. */
  predicate Rising(sent: seq<Snapshot>, low: nat, total: Option<nat>) {
    && (forall i :: 0 <= i < |sent| ==> sent[i] == Snapshot(sent[i].bytesWritten, total, Writing))
    && (sent != [] ==> low < sent[0].bytesWritten)
    && (forall i :: 0 < i < |sent| ==> sent[i - 1].bytesWritten < sent[i].bytesWritten)
  }

  /** Bytes a copy is to deliver: all that is left, or the expected number if that is less. */
  function Wanted(expected: Option<nat>, left: nat): nat {
    match expected
    case None => left
    case Some(e) => if e < left then e else left
  }

  datatype CopyError = PipeFailed | SourceFailed | SinkFailed | SinkStalled

  /** `splice_fd_to_fd`: a copy succeeds exactly if no call fails, and the first that fails ends it. */
  method SpliceFdToFd(kernel: Kernel, src: Source, sink: Sink, expected: Option<nat>, bytesOffset: nat,
                      totalBytes: Option<nat>, reporter: Reporter)
    returns (r: Result<nat, CopyError>, ghost moved: nat)
    requires src.Valid()
    modifies kernel, src, sink, reporter
    ensures kernel.failures == old(kernel.failures) + if r.Success? then 0 else 1
    ensures src.Valid() && old(src.pos) + moved <= src.pos
    // The sink receives a prefix of what was left of the source, whatever happens.
    ensures sink.written == old(sink.written) + src.data[old(src.pos)..old(src.pos) + moved]
    ensures moved <= Wanted(expected, |src.data| - old(src.pos))
    // Success delivers all of it and leaves nothing in the pipe; early end of file is success.
    ensures r.Success? ==> r.value == moved == Wanted(expected, |src.data| - old(src.pos))
    ensures r.Success? ==> src.pos == old(src.pos) + moved
    // Flushing.
    ensures old(sink.windows) <= sink.windows
    ensures var w := sink.windows[|old(sink.windows)|..];
      Tiles(w) && FlushedTo(w) <= moved && (r.Success? ==> FlushedTo(w) == moved)
    ensures r.Success? ==> sink.unflushed == old(sink.unflushed)
    ensures sink.peak <= Max(old(sink.peak), old(sink.unflushed) + FLUSH_INTERVAL + PIPE_SIZE - 1)
    // Progress.
    ensures old(reporter.sent) <= reporter.sent
    ensures var s := reporter.sent[|old(reporter.sent)|..];
      && Rising(s, bytesOffset, totalBytes)
      && ReportedTo(s, bytesOffset) <= bytesOffset + moved
      && (r.Success? ==> ReportedTo(s, bytesOffset) == bytesOffset + moved)
  {
    moved := 0;
    var pipe := kernel.OpenPipe();
    if pipe.None? {
      return Failure(PipeFailed), moved;
    }
    ghost var flushed, reported;
    r, moved, flushed, reported := CopyLoop(kernel, src, sink, pipe.value, expected, bytesOffset, totalBytes, reporter);
  }

  /** `now` is `before` and then `moved` bytes of the source from position `from`. */
  ghost predicate Delivered(before: seq<byte>, now: seq<byte>, data: seq<byte>, from: nat, moved: nat) {
    from + moved <= |data| && now == before + data[from..from + moved]
  }

  lemma DeliveredStep(before: seq<byte>, now: seq<byte>, data: seq<byte>, from: nat, moved: nat, held: seq<byte>, n: nat)
    requires Delivered(before, now, data, from, moved)
    requires n <= |held| && from + moved + |held| <= |data| && held == data[from + moved..from + moved + |held|]
    ensures Delivered(before, now + held[..n], data, from, moved + n)
    ensures held[n..] == data[from + moved + n..from + moved + |held|]
  {
  }

  /** The windows added since `before` tile the range up to `flushed`. */
  ghost predicate Flushed(before: seq<Window>, now: seq<Window>, flushed: nat) {
    before <= now && Tiles(now[|before|..]) && FlushedTo(now[|before|..]) == flushed
  }

  /** So far only full windows were added. */
  ghost predicate Flushing(before: seq<Window>, now: seq<Window>, flushed: nat) {
    && Flushed(before, now, flushed)
    && forall i :: |before| <= i < |now| ==> now[i].len >= FLUSH_INTERVAL
  }

  lemma FlushingStep(before: seq<Window>, now: seq<Window>, flushed: nat, to: nat)
    requires Flushing(before, now, flushed) && flushed < to < flushed + FLUSH_INTERVAL + PIPE_SIZE
    ensures Flushed(before, now + [Window(flushed, to - flushed)], to)
    ensures to - flushed >= FLUSH_INTERVAL ==> Flushing(before, now + [Window(flushed, to - flushed)], to)
  {
    AppendAfter(now, |before|, Window(flushed, to - flushed));
    var added := now[|before|..];
    assert forall i :: 0 <= i < |added| ==> added[i] == now[|before| + i];
    TilesAppend(added, Window(flushed, to - flushed));
  }

  lemma TilesAppend(windows: seq<Window>, w: Window)
    requires Tiles(windows) && w.offset == FlushedTo(windows) && 0 < w.len < FLUSH_INTERVAL + PIPE_SIZE
    requires forall i :: 0 <= i < |windows| ==> windows[i].len >= FLUSH_INTERVAL
    ensures Tiles(windows + [w]) && FlushedTo(windows + [w]) == w.offset + w.len
  {
  }

  /** The reports added since `before` rise to `low + moved`. */
  ghost predicate Reporting(before: seq<Snapshot>, now: seq<Snapshot>, low: nat, moved: nat, total: Option<nat>) {
    && before <= now
    && Rising(now[|before|..], low, total) && ReportedTo(now[|before|..], low) == low + moved
  }

  lemma ReportingStep(before: seq<Snapshot>, now: seq<Snapshot>, low: nat, moved: nat, to: nat, total: Option<nat>)
    requires Reporting(before, now, low, moved, total) && moved < to
    ensures Reporting(before, now + [Snapshot(low + to, total, Writing)], low, to, total)
  {
    AppendAfter(now, |before|, Snapshot(low + to, total, Writing));
  }

  lemma NothingCopied(before: seq<byte>, data: seq<byte>, from: nat, windows: seq<Window>, sent: seq<Snapshot>, low: nat,
                      total: Option<nat>)
    requires from <= |data|
    ensures Delivered(before, before, data, from, 0)
    ensures Flushing(windows, windows, 0) && Flushed(windows, windows, 0)
    ensures Reporting(sent, sent, low, 0, total)
  {
  }

  /** The outer loop, between opening and closing the pipe. */
  method CopyLoop(kernel: Kernel, src: Source, sink: Sink, pipe: Pipe, expected: Option<nat>, bytesOffset: nat,
                  totalBytes: Option<nat>, reporter: Reporter)
    returns (r: Result<nat, CopyError>, ghost moved: nat, ghost flushed: nat, ghost reported: nat)
    requires src.Valid() && pipe.held == []
    modifies kernel, src, sink, pipe, reporter
    ensures kernel.failures == old(kernel.failures) + if r.Success? then 0 else 1
    ensures src.Valid() && old(src.pos) + moved <= src.pos
    ensures Delivered(old(sink.written), sink.written, src.data, old(src.pos), moved)
    ensures moved <= Wanted(expected, |src.data| - old(src.pos))
    ensures r.Success? ==> r.value == moved == Wanted(expected, |src.data| - old(src.pos))
    ensures r.Success? ==> src.pos == old(src.pos) + moved && pipe.held == []
    ensures Flushed(old(sink.windows), sink.windows, flushed)
    ensures flushed <= moved && (r.Success? ==> flushed == moved && sink.unflushed == old(sink.unflushed))
    ensures sink.peak <= Max(old(sink.peak), old(sink.unflushed) + FLUSH_INTERVAL + PIPE_SIZE - 1)
    ensures Reporting(old(reporter.sent), reporter.sent, bytesOffset, reported, totalBytes)
    ensures reported <= moved && (r.Success? ==> reported == moved)
  {
    hide Delivered, Flushed, Flushing, Reporting;
    var transferred: nat, lastFlushed: nat := 0, 0;
    ghost var from, before, w, s := src.pos, sink.written, sink.windows, reporter.sent;
    ghost var limit := Max(sink.peak, sink.unflushed + FLUSH_INTERVAL + PIPE_SIZE - 1);
    moved, flushed, reported := 0, 0, 0;
    NothingCopied(before, src.data, from, w, s, bytesOffset, totalBytes);
    while true
      invariant kernel.failures == old(kernel.failures)
      invariant src.Valid() && src.pos == from + transferred && pipe.held == []
      invariant reported == moved == transferred <= Wanted(expected, |src.data| - from)
      invariant flushed == lastFlushed <= transferred < lastFlushed + FLUSH_INTERVAL
      invariant Delivered(before, sink.written, src.data, from, transferred)
      invariant Flushing(w, sink.windows, lastFlushed) && Flushed(w, sink.windows, lastFlushed)
      invariant sink.unflushed == old(sink.unflushed) + transferred - lastFlushed
      invariant sink.peak <= limit
      invariant Reporting(s, reporter.sent, bytesOffset, transferred, totalBytes)
      decreases |src.data| - src.pos
    {
      var toSplice: nat := PIPE_SIZE;
      if expected.Some? {
        var remaining: nat := expected.value - transferred;
        if remaining == 0 {
          break;
        }
        toSplice := if remaining < PIPE_SIZE then remaining else PIPE_SIZE;
      }
      var chunk;
      chunk, moved := CopyChunk(kernel, src, sink, pipe, toSplice, from, transferred, before);
      if chunk.Failure? {
        return chunk, moved, flushed, reported;
      }
      var nToPipe := chunk.value;
      if nToPipe == 0 {
        break;
      }
      transferred := transferred + nToPipe;
      lastFlushed := ReportAndFlush(sink, reporter, bytesOffset, transferred, lastFlushed, totalBytes,
                                    transferred - nToPipe, w, s);
      flushed, reported := lastFlushed, transferred;
    }
    FlushRest(sink, transferred, lastFlushed, w);
    flushed := transferred;
    r := Success(transferred);
  }

  /** After the loop: flush what is left. */
  method FlushRest(sink: Sink, transferred: nat, lastFlushed: nat, ghost w: seq<Window>)
    requires lastFlushed <= transferred < lastFlushed + FLUSH_INTERVAL
    requires Flushing(w, sink.windows, lastFlushed) && sink.unflushed >= transferred - lastFlushed
    modifies sink
    ensures sink.written == old(sink.written) && sink.peak == old(sink.peak)
    ensures Flushed(w, sink.windows, transferred)
    ensures sink.unflushed == old(sink.unflushed) - (transferred - lastFlushed)
  {
    if transferred > lastFlushed {
      FlushingStep(w, sink.windows, lastFlushed, transferred);
      FlushAndDrop(sink, lastFlushed, transferred - lastFlushed);
    }
  }

  /** The end of one iteration: report, and flush when a full interval is due. */
  method ReportAndFlush(sink: Sink, reporter: Reporter, bytesOffset: nat, transferred: nat, lastFlushed: nat,
                        totalBytes: Option<nat>, ghost t0: nat, ghost w: seq<Window>, ghost s: seq<Snapshot>)
    returns (flushed: nat)
    requires lastFlushed <= t0 < lastFlushed + FLUSH_INTERVAL && t0 < transferred <= t0 + PIPE_SIZE
    requires Flushing(w, sink.windows, lastFlushed) && Flushed(w, sink.windows, lastFlushed)
    requires Reporting(s, reporter.sent, bytesOffset, t0, totalBytes)
    requires sink.unflushed >= transferred - lastFlushed
    modifies sink, reporter
    ensures sink.written == old(sink.written) && sink.peak == old(sink.peak)
    ensures flushed <= transferred < flushed + FLUSH_INTERVAL
    ensures lastFlushed <= flushed && sink.unflushed == old(sink.unflushed) - (flushed - lastFlushed)
    ensures Flushing(w, sink.windows, flushed) && Flushed(w, sink.windows, flushed)
    ensures Reporting(s, reporter.sent, bytesOffset, transferred, totalBytes)
  {
    hide Flushed, Reporting, Flushing;
    ReportingStep(s, reporter.sent, bytesOffset, t0, transferred, totalBytes);
    reporter.Report(bytesOffset + transferred, totalBytes);
    flushed := lastFlushed;
    if transferred - lastFlushed >= FLUSH_INTERVAL {
      FlushingStep(w, sink.windows, lastFlushed, transferred);
      FlushAndDrop(sink, lastFlushed, transferred - lastFlushed);
      flushed := transferred;
    }
  }

  lemma AppendAfter<T>(s: seq<T>, k: nat, x: T)
    requires k <= |s|
    ensures (s + [x])[k..] == s[k..] + [x]
  {
  }

  /** One fill of the pipe, and its emptying; 0 at end of file. */
  method CopyChunk(kernel: Kernel, src: Source, sink: Sink, pipe: Pipe, toSplice: nat,
                   ghost from: nat, ghost transferred: nat, ghost before: seq<byte>)
    returns (n: Result<nat, CopyError>, ghost moved: nat)
    requires src.Valid() && 0 < toSplice && from + transferred == src.pos && pipe.held == []
    requires Delivered(before, sink.written, src.data, from, transferred)
    modifies kernel, src, pipe, sink
    ensures kernel.failures == old(kernel.failures) + if n.Success? then 0 else 1
    ensures src.Valid() && sink.windows == old(sink.windows)
    ensures transferred <= moved <= transferred + toSplice && from + moved <= src.pos
    ensures Delivered(before, sink.written, src.data, from, moved)
    ensures n.Success? ==> n.value <= toSplice && moved == transferred + n.value && src.pos == from + moved
    ensures n.Success? ==> pipe.held == [] && (n.value == 0 ==> src.pos == |src.data|)
    ensures sink.unflushed == old(sink.unflushed) + moved - transferred
    ensures sink.peak <= Max(old(sink.peak), sink.unflushed)
  {
    moved := transferred;
    var nToPipe := kernel.SpliceIn(src, pipe, toSplice);
    if nToPipe < 0 {
      return Failure(SourceFailed), moved;
    }
    if nToPipe == 0 {
      return Success(0), moved;
    }
    var failure;
    failure, moved := DrainPipe(kernel, src, sink, pipe, nToPipe, from, transferred, before);
    n := if failure.Some? then Failure(failure.value) else Success(nToPipe);
  }

  /** The inner loop: empty the pipe into the sink. */
  method DrainPipe(kernel: Kernel, src: Source, sink: Sink, pipe: Pipe, nToPipe: nat,
                   ghost from: nat, ghost transferred: nat, ghost before: seq<byte>)
    returns (failure: Option<CopyError>, ghost moved: nat)
    requires src.Valid() && 0 < nToPipe && from + transferred + nToPipe == src.pos
    requires pipe.held == src.data[from + transferred..src.pos]
    requires Delivered(before, sink.written, src.data, from, transferred)
    modifies kernel, pipe, sink
    ensures kernel.failures == old(kernel.failures) + if failure.None? then 0 else 1
    ensures sink.windows == old(sink.windows)
    ensures transferred <= moved <= transferred + nToPipe
    ensures Delivered(before, sink.written, src.data, from, moved)
    ensures failure.None? ==> moved == transferred + nToPipe && pipe.held == []
    ensures sink.unflushed == old(sink.unflushed) + moved - transferred
    ensures sink.peak == Max(old(sink.peak), sink.unflushed)
  {
    moved := transferred;
    var piped: nat := 0;
    hide Delivered;
    while piped < nToPipe
      invariant kernel.failures == old(kernel.failures)
      invariant piped <= nToPipe && moved == transferred + piped
      invariant pipe.held == src.data[from + moved..src.pos]
      invariant sink.windows == old(sink.windows)
      invariant Delivered(before, sink.written, src.data, from, moved)
      invariant sink.unflushed == old(sink.unflushed) + piped
      invariant sink.peak == if piped == 0 then old(sink.peak) else Max(old(sink.peak), sink.unflushed)
      decreases nToPipe - piped
    {
      ghost var held, was := pipe.held, sink.written;
      var nFromPipe := kernel.SpliceOut(pipe, sink, nToPipe - piped);
      if nFromPipe < 0 {
        return Some(SinkFailed), moved;
      }
      if nFromPipe == 0 {
        return Some(SinkStalled), moved;
      }
      DeliveredStep(before, was, src.data, from, moved, held, nFromPipe);
      piped := piped + nFromPipe;
      moved := moved + nFromPipe;
    }
    failure := None;
  }

  // ---- The integrity check ----

  function TotalSize(files: seq<(string, nat)>): nat {
    if files == [] then 0 else TotalSize(files[..|files| - 1]) + files[|files| - 1].1
  }

  /** Everything the check reads: each file up to its recorded size. */
  function CheckedBytes(images: map<string, seq<byte>>, files: seq<(string, nat)>): seq<byte>
    requires forall i :: 0 <= i < |files| ==> files[i].0 in images
  {
    if files == [] then []
    else
      var (name, size) := files[|files| - 1];
      CheckedBytes(images, files[..|files| - 1]) + images[name][..Wanted(Some(size), |images[name]|)]
  }

  datatype CheckError = CannotOpen(file: string) | Unreadable(file: string, cause: CopyError)

  /** Read every image into the null device. It passes exactly if no call fails: a
      shortened file passes, one that is missing or cannot be read does not. */
  method IntegrityCheck(kernel: Kernel, images: map<string, seq<byte>>, files: seq<(string, nat)>, devNull: Sink,
                        reporter: Reporter)
    returns (r: Outcome<CheckError>)
    modifies kernel, devNull, reporter
    ensures kernel.failures == old(kernel.failures) + if r.Pass? then 0 else 1
    ensures (forall i :: 0 <= i < |files| ==> files[i].0 in images) && r.Pass? ==>
      devNull.written == old(devNull.written) + CheckedBytes(images, files)
    ensures (exists i :: 0 <= i < |files| && files[i].0 !in images) ==> r.Fail?
    ensures r.Pass? ==> reporter.sent != []
    ensures r.Pass? ==>
      reporter.sent[|reporter.sent| - 1] == Snapshot(TotalSize(files), Some(TotalSize(files)), Writing)
  {
    var totalBytes := TotalSize(files);
    var bytesOffset: nat := 0;
    var found := kernel.OpenFile(true);
    if !found {
      return Fail(CannotOpen("/dev/null"));
    }
    var i := 0;
    ghost var done: seq<byte> := [];
    while i < |files|
      invariant 0 <= i <= |files|
      invariant kernel.failures == old(kernel.failures)
      invariant forall k :: 0 <= k < i ==> files[k].0 in images
      invariant done == CheckedBytes(images, files[..i])
      invariant devNull.written == old(devNull.written) + done
    {
      var (name, size) := files[i];
      found := kernel.OpenFile(name in images);
      if !found {
        return Fail(CannotOpen(name));
      }
      var src := new Source(images[name]);
      var copied; ghost var moved;
      copied, moved := SpliceFdToFd(kernel, src, devNull, Some(size), bytesOffset, Some(totalBytes), reporter);
      if copied.Failure? {
        return Fail(Unreadable(name, copied.error));
      }
      CheckOneMore(images, files, i);
      Associative(old(devNull.written), done, images[name][..moved]);
      done := done + images[name][..moved];
      bytesOffset := bytesOffset + copied.value;
      i := i + 1;
    }
    assert files[..i] == files;
    reporter.Report(totalBytes, Some(totalBytes));
    r := Pass;
  }

  lemma CheckOneMore(images: map<string, seq<byte>>, files: seq<(string, nat)>, i: nat)
    requires i < |files| && forall k :: 0 <= k <= i ==> files[k].0 in images
    ensures CheckedBytes(images, files[..i + 1])
         == CheckedBytes(images, files[..i]) + images[files[i].0][..Wanted(Some(files[i].1), |images[files[i].0]|)]
  {
    assert files[..i + 1][..i] == files[..i];
  }
}
