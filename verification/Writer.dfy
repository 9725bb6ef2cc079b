/** Writing the partition images (`writer/disk_writer.rs`, `writer/manifest.rs`, `writer/luks.rs`). */
module Writer {
  import opened Wrappers
  import opened Text
  import opened Bytes
  import opened Progress
  import opened Splice
  import opened Machine
  import opened Luks
  import opened PartitionPaths

  datatype PartitionEntry = PartitionEntry(role: string, sizeMib: nat, image: string)

  /** What a `DiskWriter` is made for, and what it is told to write. */
  datatype Job = Job(target: string, encryption: Encryption, passphrase: Option<string>, manifest: seq<PartitionEntry>)

  // ---- Sizes ----

  predicate AllPresent(images: map<string, seq<byte>>, manifest: seq<PartitionEntry>) {
    forall i :: 0 <= i < |manifest| ==> manifest[i].image in images
  }

  /** Sum of the image sizes. */
  function SumSizes(images: map<string, seq<byte>>, manifest: seq<PartitionEntry>): nat
    requires AllPresent(images, manifest)
  {
    if manifest == [] then 0
    else SumSizes(images, manifest[..|manifest| - 1]) + |images[manifest[|manifest| - 1].image]|
  }

  /** Ask for the size of an image. */
  method AskSize(m: Machine, image: string, vital: bool, ghost since: Stretch) returns (exit: Exit, size: nat)
    requires Quiet(since, m.trace)
    modifies m`trace
    ensures Quiet(since, m.trace) && Keeps(old(m.trace), m.trace, since.From())
    ensures Accounted(old(m.trace), m.trace, since.From(),
                      if exit.Ok? || !vital then Pass else Fail(Failed(StatImage(image, vital))))
    ensures Seen(m.trace, since.From(), StatImage(image, vital), exit.Ok?)
    ensures exists e: Entry :: m.trace == old(m.trace) + [e] && e.cmd.StatImage?
    ensures exit.Ok? ==> image in m.images && size == |m.images[image]|
  {
    hide Quiet, Seen, Holding, Leaked, Stuck, Finds;
    ghost var t, e := m.trace, m.Next(StatImage(image, vital), Ok);
    exit, size := m.StatAt(image, vital);
    StepOne(since, t, e.(exit := exit));
    assert m.trace == t + [e.(exit := exit)];
  }

  /** `partition_images_total_size`; it fails only on an image that cannot be asked for its size. */
  method PartitionImagesTotalSize(m: Machine, manifest: seq<PartitionEntry>, vital: bool, ghost since: Stretch)
    returns (r: Result<nat, InstallError>)
    requires Quiet(since, m.trace)
    modifies m`trace
    ensures Quiet(since, m.trace)
    ensures forall i :: |old(m.trace)| <= i < |m.trace| ==> m.trace[i].cmd.StatImage?
    ensures Accounted(old(m.trace), m.trace, since.From(), if r.Success? || !vital then Pass else Fail(r.error))
    ensures r.Failure? ==> Blamed(r.error, m.trace, since.From()) && r.error.cmd.StatImage?
    ensures r.Success? ==> AllPresent(m.images, manifest) && r.value == SumSizes(m.images, manifest)
  {
    hide Quiet, Seen, Holding, Leaked, Stuck, Keeps;
    var total: nat := 0;
    var i := 0;
    while i < |manifest|
      invariant 0 <= i <= |manifest|
      invariant Quiet(since, m.trace) && |old(m.trace)| <= |m.trace|
      invariant Accounted(old(m.trace), m.trace, since.From(), Pass)
      invariant forall i :: |old(m.trace)| <= i < |m.trace| ==> m.trace[i].cmd.StatImage?
      invariant AllPresent(m.images, manifest[..i]) && total == SumSizes(m.images, manifest[..i])
    {
      var exit, size := AskSize(m, manifest[i].image, vital, since);
      if !exit.Ok? {
        return Failure(Failed(StatImage(manifest[i].image, vital)));
      }
      assert manifest[..i + 1][..i] == manifest[..i];
      total := total + size;
      i := i + 1;
    }
    assert manifest[..i] == manifest;
    r := Success(total);
  }

  // ---- The freshly formatted container ----

  /** Commands after which a mapping is no longer the fresh one. */
  predicate TouchesMapper(cmd: Cmd) {
    cmd.LuksFormat? || (cmd.LuksOpen? && cmd.name == LUKS_NAME) || cmd == LuksClose(LUKS_NAME)
  }

  /** The installer's mapping was opened on a container formatted just before, and not touched since. */
  ghost predicate FreshMapper(t: seq<Entry>, partition: string) {
    exists j, k :: 0 <= j < k < |t|
      && t[j].cmd == LuksFormat(partition) && t[j].exit.Ok?
      && t[k].cmd == LuksOpen(partition, LUKS_NAME) && t[k].exit.Ok?
      && forall l :: j < l < |t| && l != k ==> !TouchesMapper(t[l].cmd)
  }

  lemma FreshKept(t0: seq<Entry>, t1: seq<Entry>, partition: string)
    requires FreshMapper(t0, partition) && t0 <= t1
    requires forall l :: |t0| <= l < |t1| ==> !TouchesMapper(t1[l].cmd)
    ensures FreshMapper(t1, partition)
  {
    var j, k :| 0 <= j < k < |t0|
      && t0[j].cmd == LuksFormat(partition) && t0[j].exit.Ok?
      && t0[k].cmd == LuksOpen(partition, LUKS_NAME) && t0[k].exit.Ok?
      && forall l :: j < l < |t0| && l != k ==> !TouchesMapper(t0[l].cmd);
    assert t1[j] == t0[j] && t1[k] == t0[k];
    assert forall l :: j < l < |t0| ==> t1[l] == t0[l];
  }

  /** The container is formatted, empty, and open under the installer's name. */
  ghost predicate OpenedFresh(m: Machine, partition: string, mapped: set<string>, devices: map<string, seq<byte>>)
    reads m
  {
    && FreshMapper(m.trace, partition)
    && LUKS_NAME !in mapped && m.mapped == mapped + {LUKS_NAME}
    && m.devices == devices[MapperPath(LUKS_NAME) := []]
  }

  /** The installer's mapping was opened since `from`, and not closed after. */
  ghost predicate LeftOpen(t: seq<Entry>, from: nat) {
    |t| > from &&
    var e := t[|t| - 1];
    || (e.exit.Ok? && e.cmd.LuksOpen? && e.cmd.name == LUKS_NAME)
    || (LeftOpen(t[..|t| - 1], from) && !(e.exit.Ok? && e.cmd.LuksClose? && e.cmd.name == LUKS_NAME))
  }

  lemma {:induction false} LeftOpenIsHeld(t: seq<Entry>, from: nat)
    requires LeftOpen(t, from)
    ensures Holding(t, from)
  {
    var e, front := t[|t| - 1], t[..|t| - 1];
    if LeftOpen(front, from) {
      LeftOpenIsHeld(front, from);
    }
  }

  lemma {:induction false} LeftOpenSame(t0: seq<Entry>, t1: seq<Entry>, from: nat)
    requires t0 <= t1 && from <= |t0| && forall i :: |t0| <= i < |t1| ==> !TouchesMapper(t1[i].cmd)
    ensures LeftOpen(t1, from) <==> LeftOpen(t0, from)
    decreases |t1|
  {
    if |t1| > |t0| {
      LeftOpenSame(t0, t1[..|t1| - 1], from);
    } else {
      assert t0 == t1;
    }
  }

  /** With nothing left open before, only what came after counts. */
  lemma {:induction false} LeftOpenSince(t0: seq<Entry>, t1: seq<Entry>, from: nat)
    requires t0 <= t1 && from <= |t0| && !LeftOpen(t0, from)
    ensures LeftOpen(t1, from) <==> LeftOpen(t1, |t0|)
    decreases |t1|
  {
    if |t1| > |t0| {
      LeftOpenSince(t0, t1[..|t1| - 1], from);
    } else {
      assert t0 == t1;
    }
  }

  lemma {:induction false} NothingOpened(t: seq<Entry>, from: nat)
    requires forall i :: from <= i < |t| ==> !(t[i].cmd.LuksOpen? && t[i].exit.Ok?)
    ensures !LeftOpen(t, from)
  {
    if |t| > from {
      NothingOpened(t[..|t| - 1], from);
    }
  }

  /** The keyfile, then the container. */
  method Format(m: Machine, partition: string, passphrase: string, ghost since: Stretch) returns (r: Outcome<InstallError>)
    requires since == Stretch(m.trace, None, passphrase)
    modifies m`trace, m`keyfile, m`devices
    ensures Quiet(since, m.trace) && old(m.trace) <= m.trace
    ensures !LeftOpen(m.trace, since.From()) && Stuck(m.trace, since.From()) == {}
    ensures r.Pass? ==>
      && |m.trace| > |old(m.trace)| && m.trace[|m.trace| - 1].cmd == LuksFormat(partition) && m.trace[|m.trace| - 1].exit.Ok?
      && m.devices == old(m.devices)[MapperPath(LUKS_NAME) := []] && m.keyfile == Some(passphrase)
    ensures r.Fail? ==> Blamed(r.error, m.trace, since.From()) && !IsCopyError(r.error)
    ensures r.Fail? && r.error != Failed(MakeKeyfile(passphrase)) ==> m.keyfile == Some(passphrase)
  {
    hide Stuck, LeftOpen, MapperPath, Finds;
    ghost var j, t := |m.trace|, m.trace;
    Beginning(since);
    var made := m.MakeKeyAt(passphrase);
    assert m.trace[j].cmd == MakeKeyfile(passphrase);
    if made.Ok? {
      var formatted := m.FormatAt(partition, MapperPath(LUKS_NAME));
      assert m.trace[j + 1].cmd == LuksFormat(partition);
      r := if formatted.Ok? then Pass else Fail(Failed(LuksFormat(partition)));
    } else {
      r := Fail(Failed(MakeKeyfile(passphrase)));
    }
    StuckSame(t, m.trace, j);
    NothingOpened(m.trace, j);
  }

  lemma FreshNow(t: seq<Entry>, partition: string)
    requires |t| >= 2 && t[|t| - 2].cmd == LuksFormat(partition) && t[|t| - 2].exit.Ok?
    requires t[|t| - 1].cmd == LuksOpen(partition, LUKS_NAME) && t[|t| - 1].exit.Ok?
    ensures FreshMapper(t, partition)
  {
    var j, k := |t| - 2, |t| - 1;
    assert t[j].cmd == LuksFormat(partition) && t[k].cmd == LuksOpen(partition, LUKS_NAME);
  }

  /** The keyfile, then the container, then the mapping; each step only after the one before. */
  method FormatAndOpen(m: Machine, partition: string, passphrase: string, ghost since: Stretch)
    returns (r: Outcome<InstallError>)
    requires since == Stretch(m.trace, None, passphrase)
    modifies m`trace, m`keyfile, m`mapped, m`devices
    ensures Quiet(since, m.trace) && old(m.trace) <= m.trace
    ensures r.Pass? ==> OpenedFresh(m, partition, old(m.mapped), old(m.devices))
    ensures LeftOpen(m.trace, since.From()) <==> r.Pass?
    ensures Stuck(m.trace, since.From()) == {}
    ensures r.Fail? ==> m.mapped == old(m.mapped) && Blamed(r.error, m.trace, since.From()) && !IsCopyError(r.error)
    ensures r.Fail? && r.error != Failed(MakeKeyfile(passphrase)) ==> m.keyfile == Some(passphrase)
  {
    hide Stuck, FreshMapper, MapperPath, Quiet, Seen, Holding, Leaked, Finds;
    :- Format(m, partition, passphrase, since);
    ghost var t := m.trace;
    var exit := OpenIn(m, partition, LUKS_NAME, since);
    ghost var e := m.trace[|t|];
    assert m.trace[..|t|] == t;
    if exit.Ok? {
      FreshNow(m.trace, partition);
    }
    r := if exit.Ok? then Pass else Fail(Failed(LuksOpen(partition, LUKS_NAME)));
  }

  predicate IsCopyError(error: InstallError) {
    error.Failed? && error.cmd.WriteImage?
  }

  /** `format_luks_for_root`. A container that cannot be formatted or opened leaves the passphrase file behind. */
  method FormatLuksForRoot(m: Machine, partition: string, passphrase: string) returns (r: Outcome<InstallError>)
    modifies m`trace, m`keyfile, m`mapped, m`devices
    ensures Quiet(Stretch(old(m.trace), None, passphrase), m.trace) && old(m.trace) <= m.trace
    ensures r.Pass? ==> OpenedFresh(m, partition, old(m.mapped), old(m.devices))
    ensures LeftOpen(m.trace, |old(m.trace)|) <==> r.Pass?
    ensures Stuck(m.trace, |old(m.trace)|) == {}
    ensures r.Fail? ==> m.mapped == old(m.mapped) && Blamed(r.error, m.trace, |old(m.trace)|) && !IsCopyError(r.error)
    ensures r.Fail? && r.error != Failed(MakeKeyfile(passphrase)) ==> m.keyfile == Some(passphrase)
    ensures r.Pass? ==> KeyTidy(None, m.keyfile, m.trace, |old(m.trace)|)
  {
    hide OpenedFresh, FreshMapper, Quiet, Seen, Holding, Leaked, Stuck, LeftOpen, MapperPath;
    ghost var since := Stretch(m.trace, None, passphrase);
    :- FormatAndOpen(m, partition, passphrase, since);
    DropKeyfile(m, partition, old(m.mapped), old(m.devices), since);
    r := Pass;
  }

  method DropKeyfile(m: Machine, partition: string, ghost mapped: set<string>, ghost devices: map<string, seq<byte>>,
                     ghost since: Stretch)
    requires Quiet(since, m.trace) && OpenedFresh(m, partition, mapped, devices)
    modifies m`trace, m`keyfile
    ensures Quiet(since, m.trace) && old(m.trace) <= m.trace && OpenedFresh(m, partition, mapped, devices)
    ensures LeftOpen(m.trace, since.From()) <==> LeftOpen(old(m.trace), since.From())
    ensures Stuck(m.trace, since.From()) == Stuck(old(m.trace), since.From())
    ensures KeyTidy(None, m.keyfile, m.trace, since.From())
  {
    hide FreshMapper, Quiet, Seen, Holding, Leaked, Stuck;
    ghost var t, e := m.trace, m.Next(RemoveKeyfile, Ok);
    var exit := m.RemoveKeyAt();
    StepOne(since, t, e.(exit := exit));
    FreshKept(t, t + [e.(exit := exit)], partition);
    QuietStart(since, t);
    LeftOpenSame(t, t + [e.(exit := exit)], since.From());
  }

  lemma QuietStart(since: Stretch, t: seq<Entry>)
    requires Quiet(since, t)
    ensures since.From() <= |t|
  {
    hide QuietEntry;
  }

  // ---- One image ----

  /** Neither sensitive nor about keyfiles, the target's files, or giving back. */
  predicate PlainEntry(e: Entry) {
    !Sensitive(e.cmd) && !NeedsKey(e.cmd) && !e.cmd.MakeKeyfile? && !OnTarget(e.cmd) && !GivesBack(e.cmd)
  }

  /** From `t0` on, only this image was written and no mapping was touched. */
  ghost predicate Copying(t0: seq<Entry>, t1: seq<Entry>, write: Cmd, mapped: set<string>) {
    && t0 <= t1
    && forall i :: |t0| <= i < |t1| ==>
         && !TouchesMapper(t1[i].cmd)
         && (if t1[i].cmd.WriteImage? then t1[i].cmd == write && t1[i].mapped == mapped else PlainEntry(t1[i]))
  }

  method RunCopying(m: Machine, cmd: Cmd, ghost write: Cmd, ghost t0: seq<Entry>) returns (exit: Exit)
    requires Copying(t0, m.trace, write, m.mapped) && !TouchesMapper(cmd) && PlainEntry(m.Next(cmd, Ok))
    modifies m`trace
    ensures Copying(t0, m.trace, write, m.mapped) && old(m.trace) <= m.trace
    ensures Seen(m.trace, |t0|, cmd, exit.Ok?)
  {
    exit := m.Run(cmd);
    assert m.trace[|m.trace| - 1].cmd == cmd;
  }

  /** Copy the whole image onto the opened device; the copy fails exactly if a call of the kernel does. */
  method CopyImage(m: Machine, kernel: Kernel, image: string, expected: Option<nat>, role: string, device: string,
                   bytesOffset: nat, totalBytes: Option<nat>, reporter: Reporter, ghost t0: seq<Entry>)
    returns (r: Result<nat, InstallError>)
    requires Copying(t0, m.trace, WriteImage(image, role, device), m.mapped)
    requires image in m.images && expected in {None, Some(|m.images[image]|)}
    modifies m`trace, m`devices, kernel, reporter
    ensures Copying(t0, m.trace, WriteImage(image, role, device), m.mapped)
    ensures kernel.failures == old(kernel.failures) + if r.Success? then 0 else 1
    ensures Seen(m.trace, |t0|, WriteImage(image, role, device), r.Success?)
    ensures if r.Success? then r.value == |m.images[image]| else r.error == Failed(WriteImage(image, role, device))
    ensures r.Success? ==>
      m.devices == old(m.devices)[device := Overlay(ContentOf(old(m.devices), device), m.images[image])]
    ensures forall d :: d != device ==> ContentOf(m.devices, d) == ContentOf(old(m.devices), d)
    ensures old(reporter.sent) <= reporter.sent
    ensures var s := reporter.sent[|old(reporter.sent)|..];
      Rising(s, bytesOffset, totalBytes) && (r.Success? ==> ReportedTo(s, bytesOffset) == bytesOffset + r.value)
  {
    var src := new Source(m.images[image]);
    var sink := new Sink();
    var copied; ghost var moved;
    copied, moved := SpliceFdToFd(kernel, src, sink, expected, bytesOffset, totalBytes, reporter);
    assert copied.Success? ==> sink.written == m.images[image];
    m.WriteImageAt(image, role, device, sink.written, copied.Success?);
    assert m.trace[|m.trace| - 1].cmd == WriteImage(image, role, device);
    r := if copied.Success? then Success(copied.value) else Failure(Failed(WriteImage(image, role, device)));
  }

  method OpenImageCopying(m: Machine, image: string, ghost write: Cmd, ghost t0: seq<Entry>) returns (exit: Exit)
    requires Copying(t0, m.trace, write, m.mapped)
    modifies m`trace
    ensures Copying(t0, m.trace, write, m.mapped)
    ensures Seen(m.trace, |t0|, OpenImage(image), exit.Ok?)
    ensures exit.Ok? ==> image in m.images
  {
    exit := m.OpenImageAt(image);
    assert m.trace[|m.trace| - 1].cmd == OpenImage(image);
  }

  /** Open the image and the device; the image's size is known unless its metadata cannot be read. */
  method OpenEnds(m: Machine, image: string, role: string, device: string, ghost t0: seq<Entry>)
    returns (r: Result<Option<nat>, InstallError>)
    requires Copying(t0, m.trace, WriteImage(image, role, device), m.mapped)
    modifies m`trace
    ensures Copying(t0, m.trace, WriteImage(image, role, device), m.mapped)
    ensures r.Success? ==> image in m.images && r.value in {None, Some(|m.images[image]|)}
    ensures r.Failure? ==> Blamed(r.error, m.trace, |t0|) && !IsCopyError(r.error)
  {
    hide Copying, Seen;
    ghost var write := WriteImage(image, role, device);
    var exit := OpenImageCopying(m, image, write, t0);
    if !exit.Ok? {
      return Failure(Failed(OpenImage(image)));
    }
    exit := RunCopying(m, StatImage(image, false), write, t0);
    var expected := if exit.Ok? then Some(|m.images[image]|) else None;
    exit := RunCopying(m, OpenDevice(device), write, t0);
    r := if exit.Ok? then Success(expected) else Failure(Failed(OpenDevice(device)));
  }

  /** `splice_to_device`: success leaves exactly the image over the start of the device. */
  method SpliceToDevice(m: Machine, kernel: Kernel, image: string, role: string, device: string, bytesOffset: nat,
                        totalBytes: Option<nat>, reporter: Reporter)
    returns (r: Result<nat, InstallError>)
    modifies m`trace, m`devices, kernel, reporter
    ensures Copying(old(m.trace), m.trace, WriteImage(image, role, device), m.mapped)
    ensures r.Failure? ==> Blamed(r.error, m.trace, |old(m.trace)|)
    ensures kernel.failures == old(kernel.failures) + if r.Failure? && IsCopyError(r.error) then 1 else 0
    ensures r.Success? ==> image in m.images && r.value == |m.images[image]|
    ensures r.Success? ==> DoneSince(m.trace, |old(m.trace)|, WriteImage(image, role, device))
    ensures r.Success? ==>
      m.devices == old(m.devices)[device := Overlay(ContentOf(old(m.devices), device), m.images[image])]
    ensures forall d :: d != device ==> ContentOf(m.devices, d) == ContentOf(old(m.devices), d)
    ensures old(reporter.sent) <= reporter.sent
    ensures var s := reporter.sent[|old(reporter.sent)|..];
      Rising(s, bytesOffset, totalBytes) && (r.Success? ==> ReportedTo(s, bytesOffset) == bytesOffset + r.value)
  {
    hide Copying, Rising, ReportedTo, Overlay, ContentOf, Seen;
    NothingReported(reporter.sent, bytesOffset, totalBytes);
    ghost var t0 := m.trace;
    ghost var write := WriteImage(image, role, device);
    NothingCopying(t0, write, m.mapped);
    var ends := OpenEnds(m, image, role, device, t0);
    if ends.Failure? {
      return Failure(ends.error);
    }
    r := CopyImage(m, kernel, image, ends.value, role, device, bytesOffset, totalBytes, reporter, t0);
    if r.Success? {
      ghost var t := m.trace;
      var exit := RunCopying(m, SyncDevice(device), write, t0);
      SeenLater(t, m.trace, |t0|, write, true);
      if !exit.Ok? {
        r := Failure(Failed(SyncDevice(device)));
      }
    }
  }

  lemma NothingCopying(t: seq<Entry>, write: Cmd, mapped: set<string>)
    ensures Copying(t, t, write, mapped)
  {
  }

  /** Copying touches no mapping and gives nothing back. */
  lemma CopyingKeeps(t0: seq<Entry>, t1: seq<Entry>, write: Cmd, mapped: set<string>, from: nat)
    requires Copying(t0, t1, write, mapped) && from <= |t0|
    ensures LeftOpen(t1, from) <==> LeftOpen(t0, from)
    ensures Stuck(t1, from) == Stuck(t0, from)
  {
    hide LeftOpen, PlainEntry;
    LeftOpenSame(t0, t1, from);
    forall i | |t0| <= i < |t1|
      ensures !GivesBack(t1[i].cmd)
    {
      if !t1[i].cmd.WriteImage? {
        PlainGivesNothing(t1[i]);
      }
    }
    StuckSame(t0, t1, from);
  }

  lemma PlainGivesNothing(e: Entry)
    requires PlainEntry(e)
    ensures !GivesBack(e.cmd)
  {
  }

  lemma {:induction false} StuckSame(t0: seq<Entry>, t1: seq<Entry>, from: nat)
    requires t0 <= t1 && from <= |t0| && forall i :: |t0| <= i < |t1| ==> !GivesBack(t1[i].cmd)
    ensures Stuck(t1, from) == Stuck(t0, from)
    decreases |t1|
  {
    if |t1| > |t0| {
      StuckSame(t0, t1[..|t1| - 1], from);
    } else {
      assert t0 == t1;
    }
  }

  // ---- All images ----

  predicate IsRoot(entry: PartitionEntry, encryption: Encryption) {
    entry.role == "root" && encryption.IsEncrypted()
  }

  /** Where partition `i` (from 0) of the manifest is written. */
  function WriteDevice(job: Job, i: nat): string
    requires i < |job.manifest|
  {
    if IsRoot(job.manifest[i], job.encryption) then MapperPath(LUKS_NAME) else PartitionPath(job.target, i + 1)
  }

  /** The command that writes image `i`. */
  function ImageWrite(job: Job, i: nat): Cmd
    requires i < |job.manifest|
  {
    WriteImage(job.manifest[i].image, job.manifest[i].role, WriteDevice(job, i))
  }

  /** The first `n` images have been written since `from`. */
  ghost predicate ImagesDone(t: seq<Entry>, from: nat, job: Job, n: nat)
    requires n <= |job.manifest|
  {
    forall i :: 0 <= i < n ==> DoneSince(t, from, ImageWrite(job, i))
  }

  lemma ImagesDoneLater(t0: seq<Entry>, t1: seq<Entry>, from: nat, job: Job, n: nat)
    requires n <= |job.manifest| && t0 <= t1 && ImagesDone(t0, from, job, n)
    ensures ImagesDone(t1, from, job, n)
  {
    hide Seen, ImageWrite;
    forall i | 0 <= i < n
      ensures DoneSince(t1, from, ImageWrite(job, i))
    {
      SeenLater(t0, t1, from, ImageWrite(job, i), true);
    }
  }

  /** The devices after the first `n` images: each over what its device held, the encrypted root over an empty container. */
  function AfterWrites(devices: map<string, seq<byte>>, images: map<string, seq<byte>>, job: Job, n: nat)
    : map<string, seq<byte>>
    requires n <= |job.manifest| && AllPresent(images, job.manifest[..n])
  {
    if n == 0 then devices
    else
      var i := n - 1;
      assert job.manifest[..n][i] == job.manifest[i];
      var before := AfterWrites(devices, images, job, i);
      var device := WriteDevice(job, i);
      var base := if IsRoot(job.manifest[i], job.encryption) then [] else ContentOf(before, device);
      before[device := Overlay(base, images[job.manifest[i].image])]
  }

  /** Every image stands, byte for byte, at the start of its own device, if no two share a device. */
  lemma {:induction false} EachImageOnItsDevice(devices: map<string, seq<byte>>, images: map<string, seq<byte>>, job: Job,
                                                n: nat, k: nat)
    requires k < n <= |job.manifest| && AllPresent(images, job.manifest[..n])
    requires forall i, j :: 0 <= i < j < n ==> WriteDevice(job, i) != WriteDevice(job, j)
    ensures images[job.manifest[..n][k].image] <= ContentOf(AfterWrites(devices, images, job, n), WriteDevice(job, k))
  {
    hide WriteDevice, IsRoot;
    if k < n - 1 {
      EachImageOnItsDevice(devices, images, job, n - 1, k);
      assert job.manifest[..n - 1][k] == job.manifest[..n][k];
    }
  }

  /** Devices are distinct as long as at most one partition goes through the container. */
  lemma OwnDevices(job: Job, i: nat, j: nat)
    requires i < j < |job.manifest|
    requires !(IsRoot(job.manifest[i], job.encryption) && IsRoot(job.manifest[j], job.encryption))
    ensures WriteDevice(job, i) != WriteDevice(job, j)
  {
    hide PartitionPath, MapperPath;
    PartitionsDistinct(job.target, i + 1, j + 1);
    NotAMapper(job.target, i + 1);
    NotAMapper(job.target, j + 1);
  }

  /** Partition paths end in a digit; the installer's mapper path does not. */
  lemma NotAMapper(target: string, n: nat)
    ensures PartitionPath(target, n) != MapperPath(LUKS_NAME)
  {
    var path, mapper := PartitionPath(target, n), MapperPath(LUKS_NAME);
    assert IsDigit(path[|path| - 1]) by {
      var d := Decimal(n);
      assert path[|path| - 1] == d[|d| - 1];
    }
    assert mapper[|mapper| - 1] == LUKS_NAME[|LUKS_NAME| - 1] == 't';
  }

  /** At most one partition goes through the container. */
  predicate OneRoot(job: Job) {
    forall i, j :: 0 <= i < j < |job.manifest| ==>
      !(IsRoot(job.manifest[i], job.encryption) && IsRoot(job.manifest[j], job.encryption))
  }

  /** Every device begins with its image. */
  predicate EachBegins(devices: map<string, seq<byte>>, images: map<string, seq<byte>>, job: Job) {
    forall k :: 0 <= k < |job.manifest| ==>
      job.manifest[k].image in images && images[job.manifest[k].image] <= ContentOf(devices, WriteDevice(job, k))
  }

  /** With one encrypted root at most, writing all images leaves each at the start of its own device. */
  lemma AllImagesBegin(devices: map<string, seq<byte>>, images: map<string, seq<byte>>, job: Job)
    requires AllPresent(images, job.manifest[..|job.manifest|]) && OneRoot(job)
    ensures EachBegins(AfterWrites(devices, images, job, |job.manifest|), images, job)
  {
    hide WriteDevice, IsRoot, AfterWrites, ContentOf;
    var n := |job.manifest|;
    forall i, j | 0 <= i < j < n
      ensures WriteDevice(job, i) != WriteDevice(job, j)
    {
      OwnDevices(job, i, j);
    }
    forall k | 0 <= k < n
      ensures job.manifest[k].image in images
      ensures images[job.manifest[k].image] <= ContentOf(AfterWrites(devices, images, job, n), WriteDevice(job, k))
    {
      EachImageOnItsDevice(devices, images, job, n, k);
      assert job.manifest[..n][k] == job.manifest[k];
    }
  }

  /** The disk was wiped as far as possible, partitioned, and the kernel sees the partitions. */
  ghost predicate LaidOut(t: seq<Entry>, from: nat) {
    && Tried(t, from, Wipefs) && Tried(t, from, ZapAll) && Tried(t, from, ZeroEnds)
    && DoneSince(t, from, CreateTable) && DoneSince(t, from, Partprobe) && DoneSince(t, from, EnsureDevices)
  }

  lemma LaidOutLater(t0: seq<Entry>, t1: seq<Entry>, from: nat)
    requires t0 <= t1 && LaidOut(t0, from)
    ensures LaidOut(t1, from) && LaidOut(t1, 0)
  {
    hide Seen;
    forall cmd, ok | Seen(t0, from, cmd, ok)
      ensures Seen(t1, from, cmd, ok) && Seen(t1, 0, cmd, ok)
    {
      SeenLater(t0, t1, from, cmd, ok);
    }
  }

  /** The entry writes image `i`, on its own device; the root image of an encrypted
      install through the installer's mapping, open on the root partition's container
      formatted just before. */
  ghost predicate WritesImage(before: seq<Entry>, e: Entry, job: Job, i: nat) {
    && i < |job.manifest| && e.cmd == ImageWrite(job, i)
    && (IsRoot(job.manifest[i], job.encryption) ==>
          LUKS_NAME in e.mapped && FreshMapper(before, PartitionPath(job.target, i + 1)))
  }

  /** The rule for writing images: only after the disk is laid out, and each by its manifest entry. */
  ghost predicate ImageRule(before: seq<Entry>, e: Entry, job: Job) {
    e.cmd.WriteImage? ==> LaidOut(before, 0) && exists i :: WritesImage(before, e, job, i)
  }

  /** From `t0` on: images written by the rule, everything else quiet. */
  ghost predicate WritingImages(t0: seq<Entry>, t: seq<Entry>, job: Job) {
    && t0 <= t
    && forall i :: |t0| <= i < |t| ==>
         ImageRule(t[..i], t[i], job) && (!t[i].cmd.WriteImage? ==> QuietEntry(t[i], None, OrDefault(job.passphrase)))
  }

  lemma QuietIsWriting(t0: seq<Entry>, t: seq<Entry>, t1: seq<Entry>, job: Job)
    requires WritingImages(t0, t, job) && Quiet(Stretch(t, None, OrDefault(job.passphrase)), t1)
    ensures WritingImages(t0, t1, job) && (LaidOut(t, 0) ==> LaidOut(t1, 0))
  {
    hide LaidOut, FreshMapper, WritesImage;
    if LaidOut(t, 0) {
      LaidOutLater(t, t1, 0);
    }
    forall i | |t0| <= i < |t1|
      ensures ImageRule(t1[..i], t1[i], job)
      ensures !t1[i].cmd.WriteImage? ==> QuietEntry(t1[i], None, OrDefault(job.passphrase))
    {
      if i < |t| {
        assert t1[..i] == t[..i] && ImageRule(t[..i], t[i], job);
      }
    }
  }

  lemma CopyingIsWriting(t0: seq<Entry>, t: seq<Entry>, t1: seq<Entry>, job: Job, k: nat, mapped: set<string>)
    requires k < |job.manifest| && LaidOut(t, 0)
    requires WritingImages(t0, t, job) && Copying(t, t1, ImageWrite(job, k), mapped)
    requires IsRoot(job.manifest[k], job.encryption) ==>
      LUKS_NAME in mapped && FreshMapper(t, PartitionPath(job.target, k + 1))
    ensures WritingImages(t0, t1, job) && LaidOut(t1, 0)
  {
    hide LaidOut, FreshMapper, PartitionPath, WriteDevice, WritesImage;
    LaidOutLater(t, t1, 0);
    forall i | |t0| <= i < |t1|
      ensures ImageRule(t1[..i], t1[i], job)
      ensures !t1[i].cmd.WriteImage? ==> QuietEntry(t1[i], None, OrDefault(job.passphrase))
    {
      if i < |t| {
        assert t1[..i] == t[..i] && ImageRule(t[..i], t[i], job);
      } else if t1[i].cmd.WriteImage? {
        LaidOutLater(t, t1[..i], 0);
        StillFresh(t, t1, i, job, k, mapped);
      }
    }
  }

  lemma StillFresh(t: seq<Entry>, t1: seq<Entry>, i: nat, job: Job, k: nat, mapped: set<string>)
    requires k < |job.manifest| && |t| <= i < |t1|
    requires Copying(t, t1, ImageWrite(job, k), mapped) && t1[i].cmd.WriteImage?
    requires IsRoot(job.manifest[k], job.encryption) ==>
      LUKS_NAME in mapped && FreshMapper(t, PartitionPath(job.target, k + 1))
    ensures WritesImage(t1[..i], t1[i], job, k)
  {
    hide FreshMapper, PartitionPath, WriteDevice;
    if IsRoot(job.manifest[k], job.encryption) {
      FreshKept(t, t1[..i], PartitionPath(job.target, k + 1));
    }
  }

  /** What is true of the history while the images are being written. */
  ghost predicate Written(t0: seq<Entry>, t: seq<Entry>, job: Job, n: nat) {
    && n <= |job.manifest| && t0 <= t && Stuck(t, |t0|) == {}
    && WritingImages(t0, t, job) && LaidOut(t, 0) && ImagesDone(t, |t0|, job, n)
  }

  lemma WrittenLater(t0: seq<Entry>, t: seq<Entry>, t1: seq<Entry>, job: Job, n: nat)
    requires Written(t0, t, job, n) && Quiet(Stretch(t, None, OrDefault(job.passphrase)), t1) && Stuck(t1, |t|) == {}
    ensures Written(t0, t1, job, n)
  {
    hide ImagesDone, LaidOut, WritingImages, Stuck;
    QuietIsWriting(t0, t, t1, job);
    ImagesDoneLater(t, t1, |t0|, job, n);
    StuckSum(t, t1, |t0|);
  }

  /** An image copied, whole or in part. */
  lemma WrittenMore(t0: seq<Entry>, t: seq<Entry>, t1: seq<Entry>, job: Job, n: nat, mapped: set<string>)
    requires Written(t0, t, job, n) && n < |job.manifest| && Copying(t, t1, ImageWrite(job, n), mapped)
    requires IsRoot(job.manifest[n], job.encryption) ==>
      LUKS_NAME in mapped && FreshMapper(t, PartitionPath(job.target, n + 1))
    ensures Written(t0, t1, job, n)
    ensures DoneSince(t1, |t|, ImageWrite(job, n)) ==> Written(t0, t1, job, n + 1)
    ensures LeftOpen(t1, |t0|) <==> LeftOpen(t, |t0|)
  {
    hide LaidOut, WritingImages, ImageWrite, FreshMapper, IsRoot, Seen, Stuck, LeftOpen;
    CopyingIsWriting(t0, t, t1, job, n, mapped);
    ImagesDoneLater(t, t1, |t0|, job, n);
    CopyingKeeps(t, t1, ImageWrite(job, n), mapped, |t0|);
    if DoneSince(t1, |t|, ImageWrite(job, n)) {
      SeenSooner(t1, |t|, |t0|, ImageWrite(job, n), true);
    }
  }

  lemma SeenSooner(t: seq<Entry>, from: nat, sooner: nat, cmd: Cmd, ok: bool)
    requires sooner <= from && Seen(t, from, cmd, ok)
    ensures Seen(t, sooner, cmd, ok)
  {
  }

  lemma BlamedSooner(error: InstallError, t: seq<Entry>, from: nat, sooner: nat)
    requires sooner <= from && Blamed(error, t, from)
    ensures Blamed(error, t, sooner)
  {
    hide Seen;
    SeenSooner(t, from, sooner, error.cmd, false);
  }

  /** The mapping is open exactly if the history left it open. */
  ghost predicate MappingAs(before: set<string>, after: set<string>, t: seq<Entry>, from: nat) {
    after == if LeftOpen(t, from) then before + {LUKS_NAME} else before
  }

  /** What preparing and closing the device of one partition says of everything but the images. */
  ghost predicate StepOver(before: set<string>, after: set<string>, t0: seq<Entry>, t: seq<Entry>, r: Outcome<InstallError>) {
    && MappingAs(before, after, t, |t0|)
    && (r.Fail? ==> Blamed(r.error, t, |t0|))
  }

  /** The root's container, if partition `i` goes into it. */
  method PrepareDevice(m: Machine, job: Job, i: nat, ghost t0: seq<Entry>) returns (r: Outcome<InstallError>)
    requires i < |job.manifest| && Written(t0, m.trace, job, i) && !LeftOpen(m.trace, |t0|)
    modifies m`trace, m`keyfile, m`mapped, m`devices
    ensures Written(t0, m.trace, job, i) && old(m.trace) <= m.trace
    ensures StepOver(old(m.mapped), m.mapped, t0, m.trace, r) && (r.Fail? ==> !IsCopyError(r.error))
    ensures LeftOpen(m.trace, |t0|) <==> r.Pass? && IsRoot(job.manifest[i], job.encryption)
    ensures r.Pass? && IsRoot(job.manifest[i], job.encryption) ==>
      OpenedFresh(m, PartitionPath(job.target, i + 1), old(m.mapped), old(m.devices))
    ensures !IsRoot(job.manifest[i], job.encryption) ==> r.Pass? && m.devices == old(m.devices)
    ensures r.Pass? ==> KeyTidy(old(m.keyfile), m.keyfile, m.trace, |t0|)
  {
    hide Written, Quiet, OpenedFresh, PartitionPath, LeftOpen, Stuck, Seen;
    r := Pass;
    if IsRoot(job.manifest[i], job.encryption) {
      ghost var t := m.trace;
      r := FormatLuksForRoot(m, PartitionPath(job.target, i + 1), OrDefault(job.passphrase));
      WrittenLater(t0, t, m.trace, job, i);
      FormattedSince(t0, t, m.trace, job, i, r);
      if r.Pass? {
        MappedOfFresh(m, PartitionPath(job.target, i + 1), old(m.mapped), old(m.devices));
      }
    }
  }

  lemma MappedOfFresh(m: Machine, partition: string, mapped: set<string>, devices: map<string, seq<byte>>)
    requires OpenedFresh(m, partition, mapped, devices)
    ensures m.mapped == mapped + {LUKS_NAME}
  {
    hide FreshMapper;
  }

  /** What is known from `t` on is known from `t0` on. */
  lemma FormattedSince(t0: seq<Entry>, t: seq<Entry>, t1: seq<Entry>, job: Job, n: nat, r: Outcome<InstallError>)
    requires Written(t0, t, job, n) && t <= t1 && !LeftOpen(t, |t0|)
    ensures LeftOpen(t1, |t0|) <==> LeftOpen(t1, |t|)
    ensures r.Fail? && Blamed(r.error, t1, |t|) ==> Blamed(r.error, t1, |t0|)
    ensures FailedSince(t1, |t|, RemoveKeyfile) ==> FailedSince(t1, |t0|, RemoveKeyfile)
  {
    hide WritingImages, LaidOut, ImagesDone, Stuck, LeftOpen, Seen;
    LeftOpenSince(t, t1, |t0|);
    if r.Fail? && Blamed(r.error, t1, |t|) {
      BlamedSooner(r.error, t1, |t|, |t0|);
    }
    if FailedSince(t1, |t|, RemoveKeyfile) {
      SeenSooner(t1, |t|, |t0|, RemoveKeyfile, false);
    }
  }

  /** One partition of the manifest. Whatever fails, the mapping is open exactly if the history left it open. */
  method WriteOne(m: Machine, kernel: Kernel, job: Job, i: nat, bytesOffset: nat, totalBytes: Option<nat>,
                  reporter: Reporter, ghost t0: seq<Entry>)
    returns (r: Result<nat, InstallError>)
    requires i < |job.manifest| && Written(t0, m.trace, job, i) && !LeftOpen(m.trace, |t0|)
    modifies m`trace, m`keyfile, m`mapped, m`devices, kernel, reporter
    ensures Written(t0, m.trace, job, i) && old(m.trace) <= m.trace
    ensures MappingAs(old(m.mapped), m.mapped, m.trace, |t0|)
    ensures r.Failure? ==> Blamed(r.error, m.trace, |t0|)
    ensures kernel.failures == old(kernel.failures) + if r.Failure? && IsCopyError(r.error) then 1 else 0
    ensures r.Success? ==> Written(t0, m.trace, job, i + 1) && !LeftOpen(m.trace, |t0|)
    ensures r.Success? ==> KeyTidy(old(m.keyfile), m.keyfile, m.trace, |t0|)
    ensures r.Success? ==> job.manifest[i].image in m.images && r.value == |m.images[job.manifest[i].image]|
    ensures r.Success? ==>
      var device := WriteDevice(job, i);
      var base := if IsRoot(job.manifest[i], job.encryption) then [] else ContentOf(old(m.devices), device);
      m.devices == old(m.devices)[device := Overlay(base, m.images[job.manifest[i].image])]
    ensures old(reporter.sent) <= reporter.sent
    ensures var s := reporter.sent[|old(reporter.sent)|..];
      Rising(s, bytesOffset, totalBytes) && (r.Success? ==> ReportedTo(s, bytesOffset) == bytesOffset + r.value)
  {
    hide Rising, ReportedTo, FreshMapper, Written, Copying, Quiet, Seen, PartitionPath, MapperPath, Overlay, LeftOpen;
    NothingReported(reporter.sent, bytesOffset, totalBytes);
    var prepared := PrepareDevice(m, job, i, t0);
    if prepared.Fail? {
      return Failure(prepared.error);
    }
    ghost var key, t := m.keyfile, m.trace;
    r := CopyPrepared(m, kernel, job, i, bytesOffset, totalBytes, reporter, t0);
    KeyTidyLater(old(m.keyfile), key, t, m.trace, |t0|);
    if r.Success? && IsRoot(job.manifest[i], job.encryption) {
      var closed := CloseRoot(m, job, i + 1, old(m.mapped), t0);
      KeyTidyLater(old(m.keyfile), key, t, m.trace, |t0|);
      if closed.Fail? {
        r := Failure(closed.error);
      }
    }
  }

  lemma KeyTidyLater(before: Option<string>, after: Option<string>, t: seq<Entry>, t1: seq<Entry>, from: nat)
    requires KeyTidy(before, after, t, from) && t <= t1
    ensures KeyTidy(before, after, t1, from)
  {
    hide Seen;
    if FailedSince(t, from, RemoveKeyfile) {
      SeenLater(t, t1, from, RemoveKeyfile, false);
    }
  }

  lemma KeyTidyTogether(k0: Option<string>, k1: Option<string>, k2: Option<string>, t: seq<Entry>, from: nat)
    requires KeyTidy(k0, k1, t, from) && KeyTidy(k1, k2, t, from)
    ensures KeyTidy(k0, k2, t, from)
  {
  }

  /** The copy onto the prepared device. */
  method CopyPrepared(m: Machine, kernel: Kernel, job: Job, i: nat, bytesOffset: nat, totalBytes: Option<nat>,
                      reporter: Reporter, ghost t0: seq<Entry>)
    returns (r: Result<nat, InstallError>)
    requires i < |job.manifest| && Written(t0, m.trace, job, i)
    requires IsRoot(job.manifest[i], job.encryption) ==>
      LUKS_NAME in m.mapped && FreshMapper(m.trace, PartitionPath(job.target, i + 1))
    modifies m`trace, m`devices, kernel, reporter
    ensures Written(t0, m.trace, job, i) && old(m.trace) <= m.trace
    ensures LeftOpen(m.trace, |t0|) <==> LeftOpen(old(m.trace), |t0|)
    ensures r.Failure? ==> Blamed(r.error, m.trace, |t0|)
    ensures kernel.failures == old(kernel.failures) + if r.Failure? && IsCopyError(r.error) then 1 else 0
    ensures r.Success? ==> Written(t0, m.trace, job, i + 1)
    ensures r.Success? ==> job.manifest[i].image in m.images && r.value == |m.images[job.manifest[i].image]|
    ensures r.Success? ==>
      var device := WriteDevice(job, i);
      m.devices == old(m.devices)[device := Overlay(ContentOf(old(m.devices), device), m.images[job.manifest[i].image])]
    ensures old(reporter.sent) <= reporter.sent
    ensures var s := reporter.sent[|old(reporter.sent)|..];
      Rising(s, bytesOffset, totalBytes) && (r.Success? ==> ReportedTo(s, bytesOffset) == bytesOffset + r.value)
  {
    hide Rising, ReportedTo, FreshMapper, Written, Copying, Quiet, Seen, PartitionPath, MapperPath, Overlay, LeftOpen, IsRoot,
         WriteDevice, ContentOf;
    var entry := job.manifest[i];
    ghost var t := m.trace;
    r := SpliceToDevice(m, kernel, entry.image, entry.role, WriteDevice(job, i), bytesOffset, totalBytes, reporter);
    WrittenMore(t0, t, m.trace, job, i, m.mapped);
    CopyingFrom(t0, t, m.trace, job, i, m.mapped);
    if r.Failure? {
      BlamedSooner(r.error, m.trace, |t|, |t0|);
    }
  }

  lemma CopyingFrom(t0: seq<Entry>, t: seq<Entry>, t1: seq<Entry>, job: Job, n: nat, mapped: set<string>)
    requires Written(t0, t, job, n) && n < |job.manifest| && Copying(t, t1, ImageWrite(job, n), mapped)
    ensures |t0| <= |t| && t <= t1
  {
    hide WritingImages, LaidOut, ImagesDone, Stuck, PlainEntry;
  }

  lemma NothingReported(sent: seq<Snapshot>, low: nat, total: Option<nat>)
    ensures Rising(sent[|sent|..], low, total) && ReportedTo(sent[|sent|..], low) == low
  {
  }

  /** `close_luks_root`, checked. */
  method CloseRoot(m: Machine, job: Job, ghost n: nat, ghost mapped: set<string>, ghost t0: seq<Entry>)
    returns (r: Outcome<InstallError>)
    requires 0 < n && Written(t0, m.trace, job, n) && LeftOpen(m.trace, |t0|)
    requires LUKS_NAME !in mapped && m.mapped == mapped + {LUKS_NAME}
    modifies m`trace, m`mapped
    ensures Written(t0, m.trace, job, n) && Written(t0, m.trace, job, n - 1) && old(m.trace) <= m.trace
    ensures MappingAs(mapped, m.mapped, m.trace, |t0|) && (LeftOpen(m.trace, |t0|) <==> r.Fail?)
    ensures r.Fail? ==> Blamed(r.error, m.trace, |t0|) && !IsCopyError(r.error)
  {
    hide WritingImages, LaidOut, ImagesDone, Holding, Leaked, ImageWrite;
    ghost var t := m.trace;
    ghost var since := Stretch(t, None, OrDefault(job.passphrase));
    assert LUKS_NAME != BOOT_NAME by { NamesDiffer(); }
    var exit := m.CloseMapping(LUKS_NAME);
    ghost var e := m.trace[|t|];
    assert m.trace == t + [e] && m.trace[..|t|] == t;
    StepOne(since, t, e);
    assert Stuck(m.trace[..|t|], |t|) == {};
    WrittenLater(t0, t, m.trace, job, n);
    FewerDone(m.trace, |t0|, job, n);
    r := if exit.Ok? then Pass else Fail(Failed(LuksClose(LUKS_NAME)));
  }

  lemma FewerDone(t: seq<Entry>, from: nat, job: Job, n: nat)
    requires 0 < n <= |job.manifest| && ImagesDone(t, from, job, n)
    ensures ImagesDone(t, from, job, n - 1)
  {
    hide Seen, ImageWrite;
  }

  lemma RisingJoin(before: seq<Snapshot>, now: seq<Snapshot>, total: Option<nat>)
    requires before <= now
    requires Rising(before, 0, total) && Rising(now[|before|..], ReportedTo(before, 0), total)
    ensures Rising(now, 0, total) && ReportedTo(now, 0) == ReportedTo(now[|before|..], ReportedTo(before, 0))
  {
    var b := now[|before|..];
    assert forall i :: |before| <= i < |now| ==> now[i] == b[i - |before|];
  }

  lemma RisingIsOrderly(sent: seq<Snapshot>, total: Option<nat>)
    requires Rising(sent, 0, total)
    ensures Orderly(sent) && forall i :: 0 <= i < |sent| ==> sent[i].phase == Writing
    ensures Orderly(sent + [Snapshot(ReportedTo(sent, 0), Some(ReportedTo(sent, 0)), Writing)])
  {
    assert forall i :: 0 <= i < |sent| ==> sent[i] == Snapshot(sent[i].bytesWritten, total, Writing);
  }

  lemma AfterOneMore(devices: map<string, seq<byte>>, images: map<string, seq<byte>>, job: Job, i: nat)
    requires i < |job.manifest| && AllPresent(images, job.manifest[..i]) && job.manifest[i].image in images
    ensures AllPresent(images, job.manifest[..i + 1])
    ensures SumSizes(images, job.manifest[..i + 1]) == SumSizes(images, job.manifest[..i]) + |images[job.manifest[i].image]|
    ensures var before := AfterWrites(devices, images, job, i);
      var device := WriteDevice(job, i);
      var base := if IsRoot(job.manifest[i], job.encryption) then [] else ContentOf(before, device);
      AfterWrites(devices, images, job, i + 1) == before[device := Overlay(base, images[job.manifest[i].image])]
  {
    assert job.manifest[..i + 1][..i] == job.manifest[..i];
  }

  /** The first `i` images are on their devices, and they and the last report add up to `bytes`. */
  ghost predicate WrittenUpTo(m: Machine, reporter: Reporter, devices: map<string, seq<byte>>, job: Job, i: nat, bytes: nat)
    requires i <= |job.manifest|
    reads m, reporter
  {
    && ReportedTo(reporter.sent, 0) == bytes
    && AllPresent(m.images, job.manifest[..i]) && bytes == SumSizes(m.images, job.manifest[..i])
    && m.devices == AfterWrites(devices, m.images, job, i)
  }

  /** One turn of the loop over the manifest; the bytes written so far are returned. */
  method WriteNext(m: Machine, kernel: Kernel, job: Job, i: nat, bytesOffset: nat, totalBytes: Option<nat>,
                   reporter: Reporter, ghost devices: map<string, seq<byte>>, ghost t0: seq<Entry>)
    returns (r: Result<nat, InstallError>)
    requires i < |job.manifest| && Written(t0, m.trace, job, i) && !LeftOpen(m.trace, |t0|)
    requires Rising(reporter.sent, 0, totalBytes) && WrittenUpTo(m, reporter, devices, job, i, bytesOffset)
    modifies m`trace, m`keyfile, m`mapped, m`devices, kernel, reporter
    ensures Written(t0, m.trace, job, i) && old(m.trace) <= m.trace
    ensures MappingAs(old(m.mapped), m.mapped, m.trace, |t0|)
    ensures Rising(reporter.sent, 0, totalBytes)
    ensures r.Failure? ==> Blamed(r.error, m.trace, |t0|)
    ensures kernel.failures == old(kernel.failures) + if r.Failure? && IsCopyError(r.error) then 1 else 0
    ensures r.Success? ==> Written(t0, m.trace, job, i + 1) && !LeftOpen(m.trace, |t0|)
    ensures r.Success? ==> KeyTidy(old(m.keyfile), m.keyfile, m.trace, |t0|)
    ensures r.Success? ==> WrittenUpTo(m, reporter, devices, job, i + 1, r.value)
  {
    hide Written, Rising, ReportedTo, SumSizes, AfterWrites, WriteDevice, Overlay, ContentOf, AllPresent, IsRoot, LeftOpen,
         Blamed, KeyTidy;
    ghost var sent := reporter.sent;
    r := WriteOne(m, kernel, job, i, bytesOffset, totalBytes, reporter, t0);
    RisingJoin(sent, reporter.sent, totalBytes);
    if r.Success? {
      AfterOneMore(devices, m.images, job, i);
      r := Success(bytesOffset + r.value);
    }
  }

  lemma NothingWrittenYet(m: Machine, reporter: Reporter, t0: seq<Entry>, job: Job, total: Option<nat>)
    requires WritingImages(t0, m.trace, job) && LaidOut(m.trace, 0) && Stuck(m.trace, |t0|) == {} && reporter.sent == []
    ensures Written(t0, m.trace, job, 0) && Rising(reporter.sent, 0, total)
    ensures WrittenUpTo(m, reporter, m.devices, job, 0, 0)
  {
    hide LaidOut, ImageRule, QuietEntry, Stuck;
  }

  /** The loop over the manifest. */
  method WriteAll(m: Machine, kernel: Kernel, job: Job, totalBytes: Option<nat>, reporter: Reporter, ghost t0: seq<Entry>)
    returns (r: Result<nat, InstallError>)
    requires WritingImages(t0, m.trace, job) && LaidOut(m.trace, 0) && reporter.sent == []
    requires !LeftOpen(m.trace, |t0|) && Stuck(m.trace, |t0|) == {}
    modifies m`trace, m`keyfile, m`mapped, m`devices, kernel, reporter
    ensures WritingImages(t0, m.trace, job) && Rising(reporter.sent, 0, totalBytes) && Stuck(m.trace, |t0|) == {}
    ensures MappingAs(old(m.mapped), m.mapped, m.trace, |t0|) && (LeftOpen(m.trace, |t0|) ==> r.Failure?)
    ensures r.Failure? ==> Blamed(r.error, m.trace, |t0|)
    ensures kernel.failures == old(kernel.failures) + if r.Failure? && IsCopyError(r.error) then 1 else 0
    ensures r.Success? ==> ImagesDone(m.trace, |t0|, job, |job.manifest|)
    ensures r.Success? ==> KeyTidy(old(m.keyfile), m.keyfile, m.trace, |t0|)
    ensures r.Success? ==> WrittenUpTo(m, reporter, old(m.devices), job, |job.manifest|, r.value)
  {
    hide Written, WrittenUpTo, WritingImages, LaidOut, ImagesDone, Rising, LeftOpen, Blamed, KeyTidy, Stuck;
    var bytesOffset: nat := 0;
    var i := 0;
    ghost var devices := m.devices;
    NothingWrittenYet(m, reporter, t0, job, totalBytes);
    KeyAsBefore(m.keyfile, m.trace, |t0|);
    while i < |job.manifest|
      invariant 0 <= i <= |job.manifest| && Written(t0, m.trace, job, i) && Rising(reporter.sent, 0, totalBytes)
      invariant !LeftOpen(m.trace, |t0|) && m.mapped == old(m.mapped)
      invariant kernel.failures == old(kernel.failures)
      invariant KeyTidy(old(m.keyfile), m.keyfile, m.trace, |t0|)
      invariant WrittenUpTo(m, reporter, devices, job, i, bytesOffset)
    {
      ghost var key, t := m.keyfile, m.trace;
      r := WriteNext(m, kernel, job, i, bytesOffset, totalBytes, reporter, devices, t0);
      if r.Failure? {
        WrittenMeans(t0, m.trace, job, i);
        return;
      }
      KeyTidyLater(old(m.keyfile), key, t, m.trace, |t0|);
      KeyTidyTogether(old(m.keyfile), key, m.keyfile, m.trace, |t0|);
      bytesOffset := r.value;
      i := i + 1;
    }
    WrittenMeans(t0, m.trace, job, i);
    r := Success(bytesOffset);
  }

  lemma KeyAsBefore(keyfile: Option<string>, t: seq<Entry>, from: nat)
    ensures KeyTidy(keyfile, keyfile, t, from)
  {
  }

  lemma WrittenMeans(t0: seq<Entry>, t: seq<Entry>, job: Job, n: nat)
    requires Written(t0, t, job, n)
    ensures n <= |job.manifest| && WritingImages(t0, t, job) && ImagesDone(t, |t0|, job, n) && Stuck(t, |t0|) == {}
  {
    hide WritingImages, LaidOut, ImagesDone, Stuck;
  }

  lemma AllWritten(m: Machine, reporter: Reporter, devices: map<string, seq<byte>>, job: Job, bytes: nat)
    requires WrittenUpTo(m, reporter, devices, job, |job.manifest|, bytes)
    ensures ReportedTo(reporter.sent, 0) == bytes
    ensures AllPresent(m.images, job.manifest) && bytes == SumSizes(m.images, job.manifest)
    ensures OnDevices(devices, m.images, job, m.devices)
  {
    assert job.manifest[..|job.manifest|] == job.manifest;
    if OneRoot(job) {
      AllImagesBegin(devices, m.images, job);
    }
  }

  /** The devices hold the images as specified; with one encrypted root at most, each image begins its own device. */
  ghost predicate OnDevices(before: map<string, seq<byte>>, images: map<string, seq<byte>>, job: Job,
                            devices: map<string, seq<byte>>) {
    && AllPresent(images, job.manifest[..|job.manifest|])
    && devices == AfterWrites(before, images, job, |job.manifest|)
    && (OneRoot(job) ==> EachBegins(devices, images, job))
  }

  /** `wipe_disk`: only a tool that cannot be started is an error. */
  method WipeDisk(m: Machine, ghost since: Stretch) returns (r: Outcome<InstallError>)
    requires Quiet(since, m.trace)
    modifies m`trace
    ensures Quiet(since, m.trace) && Accounted(old(m.trace), m.trace, since.From(), r)
    ensures r.Pass? ==>
      Tried(m.trace, since.From(), Wipefs) && Tried(m.trace, since.From(), ZapAll) && Tried(m.trace, since.From(), ZeroEnds)
    ensures r.Fail? ==> !IsCopyError(r.error)
  {
    hide Quiet, Seen, Holding, Leaked, Stuck, Finds;
    :- WipeTables(m, since);
    var _ := Try(m, ZeroEnds, since);
    r := Pass;
  }

  method WipeTables(m: Machine, ghost since: Stretch) returns (r: Outcome<InstallError>)
    requires Quiet(since, m.trace)
    modifies m`trace
    ensures Quiet(since, m.trace) && Accounted(old(m.trace), m.trace, since.From(), r)
    ensures r.Pass? ==> Tried(m.trace, since.From(), Wipefs) && Tried(m.trace, since.From(), ZapAll)
    ensures r.Fail? ==> !IsCopyError(r.error)
  {
    hide Quiet, Seen, Holding, Leaked, Stuck, Finds;
    :- Start(m, Wipefs, since);
    r := Start(m, ZapAll, since);
  }

  /** Create the table and make the kernel see the partitions. */
  method Partition(m: Machine, ghost since: Stretch) returns (r: Outcome<InstallError>)
    requires Quiet(since, m.trace)
    modifies m`trace
    ensures Quiet(since, m.trace) && Accounted(old(m.trace), m.trace, since.From(), r)
    ensures Keeps(old(m.trace), m.trace, since.From())
    ensures r.Pass? ==> DoneSince(m.trace, since.From(), CreateTable) && DoneSince(m.trace, since.From(), Partprobe)
    ensures r.Fail? ==> !IsCopyError(r.error)
  {
    hide Quiet, Seen, Holding, Leaked, Stuck, Finds;
    :- Must(m, CreateTable, since);
    r := Must(m, Partprobe, since);
  }

  /** Wipe, partition, and wait for the partitions' devices. */
  method LayOutDisk(m: Machine, ghost since: Stretch) returns (r: Outcome<InstallError>)
    requires Quiet(since, m.trace)
    modifies m`trace
    ensures Quiet(since, m.trace) && Accounted(old(m.trace), m.trace, since.From(), r)
    ensures r.Pass? ==> LaidOut(m.trace, since.From())
    ensures r.Fail? ==> !IsCopyError(r.error)
  {
    hide Quiet, Seen, Holding, Leaked, Stuck, Finds;
    :- WipeDisk(m, since);
    :- Partition(m, since);
    r := AwaitPartitions(m, since);
  }

  method AwaitPartitions(m: Machine, ghost since: Stretch) returns (r: Outcome<InstallError>)
    requires Quiet(since, m.trace)
    modifies m`trace
    ensures Quiet(since, m.trace) && Accounted(old(m.trace), m.trace, since.From(), r)
    ensures Keeps(old(m.trace), m.trace, since.From())
    ensures if r.Pass? then DoneSince(m.trace, since.From(), EnsureDevices) else !IsCopyError(r.error)
  {
    hide Quiet, Seen, Holding, Leaked, Stuck, Finds;
    var _ := Try(m, SettleUdev, since);
    r := Must(m, EnsureDevices, since);
  }

  lemma NothingWritten(t: seq<Entry>, job: Job)
    ensures WritingImages(t, t, job) && Orderly([])
  {
  }

  /** The disk is laid out, with nothing taken. */
  lemma NothingLeftOpen(t: seq<Entry>, from: nat)
    requires !Holding(t, from)
    ensures !LeftOpen(t, from)
  {
    hide LeftOpen, Holding;
    if LeftOpen(t, from) {
      LeftOpenIsHeld(t, from);
    }
  }

  /** `write_partitions`. On success every image was written and is on its device, byte
      for byte, and the last report says all of `partition_images_total_size` is written.
      A failure names a failed command, and a failed copy a failed call of the kernel.
      Whatever fails, the mapping is open exactly if the history left it open. */
  method WritePartitions(m: Machine, kernel: Kernel, job: Job, reporter: Reporter) returns (r: Outcome<InstallError>)
    requires reporter.sent == []
    modifies m`trace, m`keyfile, m`mapped, m`devices, kernel, reporter
    ensures WritingImages(old(m.trace), m.trace, job) && Stuck(m.trace, |old(m.trace)|) == {}
    ensures Orderly(reporter.sent) && forall i :: 0 <= i < |reporter.sent| ==> reporter.sent[i].phase == Writing
    ensures MappingAs(old(m.mapped), m.mapped, m.trace, |old(m.trace)|)
    ensures LeftOpen(m.trace, |old(m.trace)|) ==> r.Fail?
    ensures r.Fail? ==> Blamed(r.error, m.trace, |old(m.trace)|)
    ensures kernel.failures == old(kernel.failures) + if r.Fail? && IsCopyError(r.error) then 1 else 0
    ensures r.Pass? ==> ImagesDone(m.trace, |old(m.trace)|, job, |job.manifest|)
    ensures r.Pass? ==> KeyTidy(old(m.keyfile), m.keyfile, m.trace, |old(m.trace)|)
    ensures r.Pass? ==> AllPresent(m.images, job.manifest) && OnDevices(old(m.devices), m.images, job, m.devices)
    ensures r.Pass? ==> reporter.sent != []
    ensures r.Pass? ==>
      var total := SumSizes(m.images, job.manifest);
      reporter.sent[|reporter.sent| - 1] == Snapshot(total, Some(total), Writing)
  {
    hide Quiet, WritingImages, LaidOut, ImagesDone, Rising, ReportedTo, SumSizes, WrittenUpTo, Orderly, Seen, AllPresent,
         OnDevices, LeftOpen, Stuck, Holding, Leaked, KeyTidy, Blamed;
    ghost var t, devices := m.trace, m.devices;
    ghost var since := Stretch(t, None, OrDefault(job.passphrase));
    Beginning(since);
    NothingWritten(t, job);
    var total := PartitionImagesTotalSize(m, job.manifest, false, since);
    var totalBytes := if total.Success? then Some(total.value) else None;
    r := LayOutDisk(m, since);
    NothingLeftOpen(m.trace, since.From());
    QuietIsWriting(t, t, m.trace, job);
    if r.Fail? {
      return;
    }
    LaidOutLater(m.trace, m.trace, since.From());
    var written := WriteAll(m, kernel, job, totalBytes, reporter, t);
    RisingIsOrderly(reporter.sent, totalBytes);
    if written.Failure? {
      return Fail(written.error);
    }
    AllWritten(m, reporter, devices, job, written.value);
    reporter.Report(written.value, Some(written.value));
    r := Pass;
  }
}
