/** The machine the installer acts on: open LUKS mappings, mounts, files of the
    target root, device contents, and the history of every command. Each command
    may fail, by exit status or by not starting at all. */
module Machine {
  import opened Wrappers
  import opened Bytes

  datatype MountPoint = TargetRoot | Boot | Efi | Proc | Sys | Dev | Elsewhere(path: string)

  predicate Below(a: MountPoint, b: MountPoint) {
    || (b == TargetRoot && a in {Boot, Efi, Proc, Sys, Dev})
    || (b == Boot && a == Efi)
  }

  /** Same place, or one hides or holds the other. */
  predicate Related(a: MountPoint, b: MountPoint) {
    a == b || Below(a, b) || Below(b, a)
  }

  /** Files of the target root the installer reads or writes. */
  datatype TargetFile =
    | Fstab | Crypttab | DracutCryptConf | DracutKeyfileConf | DracutPortableConf
    | GrubDefaults | GrubProbe | GrubProbeReal | LuksKeyfile | EmptyKeyfile | ImageVariant | HostnameFile
    | OtherFile(path: string)

  /** File contents, as far as the installer tells them apart. */
  datatype Content =
    | Original(text: string)
    | CrypttabTpm | CrypttabKeyfile | ForceCryptModule | IncludeKeyfile | RandomKey(key: string)
    | UuidFstab(rootDevice: string, xbootUuid: string, efiUuid: string)
    | PatchedGrubDefaults | GrubProbeWrapper | Variant(name: string) | Empty

  datatype Directory = MountBase | BootDir | EfiDir | LuksDir | DracutConfDir | VariantDir

  /** Mapper name used while installing. */
  const LUKS_NAME: string := "bes-target-root"
  /** Mapper name of the installed system, used while its initramfs is built. */
  const BOOT_NAME: string := "root"

  datatype Cmd =
    // Preliminary checks; a size that is not vital is asked for and may stay unknown.
    | StatImage(image: string, vital: bool)
    | SizeCheck(imageSize: nat, diskSize: nat)
    | MediaCheck(read: seq<byte>)
    // Disk and partitions.
    | Wipefs | ZapAll | ZeroEnds | CreateTable | Partprobe | SettleUdev | EnsureDevices
    | OpenImage(image: string) | OpenDevice(device: string)
    | WriteImage(image: string, role: string, device: string) | SyncDevice(device: string)
    | BtrfsResize | Mlabel | E2fsck | Tune2fs | BtrfsTune | Blkid(device: string) | VerifyTable
    // LUKS.
    | MakeKeyfile(passphrase: string) | RemoveKeyfile
    | LuksFormat(partition: string) | LuksOpen(partition: string, name: string)
    | LuksClose(name: string) | LuksResize(name: string)
    | ReadRandom | MakeNewKeyfile | RemoveNewKeyfile | LuksAddKey(partition: string, key: string) | EnrollTpm(partition: string)
    // Mounts and files.
    | MakeDir(dir: Directory) | RemoveDir | Mount(point: MountPoint) | Unmount(point: MountPoint)
    | ReadFile(file: TargetFile) | TryReadFile(file: TargetFile)
    | WriteFile(file: TargetFile, content: Content) | RemoveFile(file: TargetFile)
    | RenameFile(file: TargetFile, to: TargetFile) | SetMode(file: TargetFile)
    | ReadModules | RemoveInitramfs
    // Chroot and configuration.
    | Dracut | UpdateGrub | ApplyConfig | CopyLog | SaveRecoveryKey

  datatype Exit = Ok | ExitFailed | NotSpawned

  /** A command, how it ended, and the state it started in: open mappings, whether
      the target root is mounted, the passphrase in the temporary keyfile, and the
      target's files. */
  datatype Entry = Entry(cmd: Cmd, exit: Exit, mapped: set<string>, mounted: bool, keyfile: Option<string>,
                         files: map<TargetFile, Content>)

  /** Commands that read the temporary keyfile. */
  predicate NeedsKey(cmd: Cmd) {
    cmd.LuksFormat? || cmd.LuksOpen? || cmd.LuksResize? || cmd.LuksAddKey? || cmd.EnrollTpm?
  }

  ghost predicate HasFile(files: map<TargetFile, Content>, file: TargetFile, content: Content) {
    file in files && files[file] == content
  }

  ghost predicate SameFile(a: map<TargetFile, Content>, b: map<TargetFile, Content>, file: TargetFile) {
    (file in a <==> file in b) && (file in a ==> a[file] == b[file])
  }

  function ContentOf(devices: map<string, seq<byte>>, device: string): seq<byte> {
    if device in devices then devices[device] else []
  }

  /** `bytes` written over the start of `before`. */
  function Overlay(before: seq<byte>, bytes: seq<byte>): seq<byte> {
    if |bytes| < |before| then bytes + before[|bytes|..] else bytes
  }

  class Machine {
    const images: map<string, seq<byte>>
    var mapped: set<string>
    var mounts: seq<MountPoint>
    var files: map<TargetFile, Content>
    var devices: map<string, seq<byte>>
    var keyfile: Option<string>
    ghost var trace: seq<Entry>

    constructor (images: map<string, seq<byte>>, mapped: set<string>, mounts: seq<MountPoint>,
                 files: map<TargetFile, Content>, devices: map<string, seq<byte>>)
      ensures this.images == images && this.mapped == mapped && this.mounts == mounts
      ensures this.files == files && this.devices == devices && keyfile == None && trace == []
    {
      this.images, this.mapped, this.mounts, this.files, this.devices := images, mapped, mounts, files, devices;
      keyfile, trace := None, [];
    }

    ghost function Next(cmd: Cmd, exit: Exit): Entry
      reads this
    {
      Entry(cmd, exit, mapped, TargetRoot in mounts, keyfile, files)
    }

    /** A command with no effect on the modelled state. */
    method Run(cmd: Cmd) returns (exit: Exit)
      modifies this`trace
      ensures trace == old(trace) + [Next(cmd, exit)]
    {
      exit := *;
      trace := trace + [Next(cmd, exit)];
    }

    /** A check the installer makes itself, and its verdict. */
    method Record(cmd: Cmd, exit: Exit)
      modifies this`trace
      ensures trace == old(trace) + [Next(cmd, exit)]
    {
      trace := trace + [Next(cmd, exit)];
    }

    /** `create_passphrase_keyfile`; a failure may leave anything in the file. */
    method MakeKeyAt(passphrase: string) returns (exit: Exit)
      modifies this`trace, this`keyfile
      ensures trace == old(trace) + [old(Next(MakeKeyfile(passphrase), exit))]
      ensures exit.Ok? ==> keyfile == Some(passphrase)
    {
      exit := *;
      trace := trace + [Next(MakeKeyfile(passphrase), exit)];
      var left: Option<string> := *;
      keyfile := if exit.Ok? then Some(passphrase) else left;
    }

    method RemoveKeyAt() returns (exit: Exit)
      modifies this`trace, this`keyfile
      ensures trace == old(trace) + [old(Next(RemoveKeyfile, exit))]
      ensures keyfile == if exit.Ok? then None else old(keyfile)
    {
      exit := *;
      trace := trace + [Next(RemoveKeyfile, exit)];
      if exit.Ok? {
        keyfile := None;
      }
    }

    /** The size of an image file; a missing file has none. */
    method StatAt(image: string, vital: bool) returns (exit: Exit, size: nat)
      modifies this`trace
      ensures trace == old(trace) + [Next(StatImage(image, vital), exit)]
      ensures exit.Ok? ==> image in images && size == |images[image]|
    {
      exit := *;
      size := 0;
      if image in images {
        size := |images[image]|;
      } else if exit.Ok? {
        exit := ExitFailed;
      }
      trace := trace + [Next(StatImage(image, vital), exit)];
    }

    /** Opening an image; one that is not there cannot be opened. */
    method OpenImageAt(image: string) returns (exit: Exit)
      modifies this`trace
      ensures trace == old(trace) + [Next(OpenImage(image), exit)]
      ensures exit.Ok? ==> image in images
    {
      exit := *;
      if exit.Ok? && image !in images {
        exit := ExitFailed;
      }
      trace := trace + [Next(OpenImage(image), exit)];
    }

    /** `cryptsetup luksFormat`: a new, empty container. */
    method FormatAt(partition: string, mapper: string) returns (exit: Exit)
      modifies this`trace, this`devices
      ensures trace == old(trace) + [Next(LuksFormat(partition), exit)]
      ensures devices == if exit.Ok? then old(devices)[mapper := []] else old(devices)
    {
      exit := *;
      trace := trace + [Next(LuksFormat(partition), exit)];
      if exit.Ok? {
        devices := devices[mapper := []];
      }
    }

    /** Record that these bytes were laid over the start of a device. */
    method WriteImageAt(image: string, role: string, device: string, written: seq<byte>, ok: bool)
      modifies this`trace, this`devices
      ensures trace == old(trace) + [Next(WriteImage(image, role, device), if ok then Ok else ExitFailed)]
      ensures devices == old(devices)[device := Overlay(ContentOf(old(devices), device), written)]
    {
      trace := trace + [Next(WriteImage(image, role, device), if ok then Ok else ExitFailed)];
      devices := devices[device := Overlay(ContentOf(devices, device), written)];
    }

    /** `cryptsetup open`: refused when the mapper name is taken. */
    method OpenMapping(partition: string, name: string) returns (exit: Exit)
      modifies this`trace, this`mapped
      ensures trace == old(trace) + [old(Next(LuksOpen(partition, name), exit))]
      ensures exit.Ok? ==> name !in old(mapped) && mapped == old(mapped) + {name}
      ensures !exit.Ok? ==> mapped == old(mapped)
    {
      exit := *;
      if exit.Ok? && name in mapped {
        exit := ExitFailed;
      }
      trace := trace + [Next(LuksOpen(partition, name), exit)];
      if exit.Ok? {
        mapped := mapped + {name};
      }
    }

    method CloseMapping(name: string) returns (exit: Exit)
      modifies this`trace, this`mapped
      ensures trace == old(trace) + [old(Next(LuksClose(name), exit))]
      ensures exit.Ok? ==> name in old(mapped) && mapped == old(mapped) - {name}
      ensures !exit.Ok? ==> mapped == old(mapped)
    {
      exit := *;
      if exit.Ok? && name !in mapped {
        exit := ExitFailed;
      }
      trace := trace + [Next(LuksClose(name), exit)];
      if exit.Ok? {
        mapped := mapped - {name};
      }
    }

    method MountAt(point: MountPoint) returns (exit: Exit)
      modifies this`trace, this`mounts
      ensures trace == old(trace) + [old(Next(Mount(point), exit))]
      ensures mounts == if exit.Ok? then old(mounts) + [point] else old(mounts)
    {
      exit := *;
      trace := trace + [Next(Mount(point), exit)];
      if exit.Ok? {
        mounts := mounts + [point];
      }
    }

    /** `umount`: works on the mount visible at the path, and only when nothing is mounted over or below it. */
    method UnmountAt(point: MountPoint) returns (exit: Exit)
      modifies this`trace, this`mounts
      ensures trace == old(trace) + [old(Next(Unmount(point), exit))]
      ensures exit.Ok? ==> exists k ::
        && 0 <= k < |old(mounts)| && old(mounts)[k] == point
        && (forall l :: k < l < |old(mounts)| ==> !Related(old(mounts)[l], point))
        && mounts == old(mounts)[..k] + old(mounts)[k + 1..]
      ensures !exit.Ok? ==> mounts == old(mounts)
    {
      exit := *;
      var k := |mounts|;
      while k > 0 && !Related(mounts[k - 1], point)
        invariant 0 <= k <= |mounts|
        invariant forall l :: k <= l < |mounts| ==> !Related(mounts[l], point)
      {
        k := k - 1;
      }
      if exit.Ok? && (k == 0 || mounts[k - 1] != point) {
        exit := ExitFailed;
      }
      trace := trace + [Next(Unmount(point), exit)];
      if exit.Ok? {
        mounts := mounts[..k - 1] + mounts[k..];
      }
    }

    /** Reading a file, with `ReadFile` or `TryReadFile`; one that does not exist cannot be read. */
    method ReadAt(cmd: Cmd, file: TargetFile) returns (exit: Exit, content: Content)
      modifies this`trace
      ensures trace == old(trace) + [Next(cmd, exit)]
      ensures exit.Ok? ==> file in files && content == files[file]
    {
      exit := *;
      content := Empty;
      if file in files {
        content := files[file];
      } else if exit.Ok? {
        exit := ExitFailed;
      }
      trace := trace + [Next(cmd, exit)];
    }

    /** A failed write may leave anything in that file. */
    method WriteAt(file: TargetFile, content: Content) returns (exit: Exit)
      modifies this`trace, this`files
      ensures trace == old(trace) + [old(Next(WriteFile(file, content), exit))]
      ensures exit.Ok? ==> files == old(files)[file := content]
      ensures forall f :: f != file ==> SameFile(old(files), files, f)
    {
      exit := *;
      trace := trace + [Next(WriteFile(file, content), exit)];
      var left: Content := *;
      files := files[file := if exit.Ok? then content else left];
    }

    method RemoveAt(file: TargetFile) returns (exit: Exit)
      modifies this`trace, this`files
      ensures trace == old(trace) + [old(Next(RemoveFile(file), exit))]
      ensures files == if exit.Ok? then old(files) - {file} else old(files)
    {
      exit := *;
      trace := trace + [Next(RemoveFile(file), exit)];
      if exit.Ok? {
        files := files - {file};
      }
    }

    method RenameAt(file: TargetFile, to: TargetFile) returns (exit: Exit)
      requires file != to
      modifies this`trace, this`files
      ensures trace == old(trace) + [old(Next(RenameFile(file, to), exit))]
      ensures exit.Ok? ==> file in old(files) && files == (old(files) - {file})[to := old(files)[file]]
      ensures !exit.Ok? ==> files == old(files)
    {
      exit := *;
      if exit.Ok? && file !in files {
        exit := ExitFailed;
      }
      trace := trace + [Next(RenameFile(file, to), exit)];
      if exit.Ok? {
        files := (files - {file})[to := files[file]];
      }
    }
  }

  // ---- Clean-up ----

  /** A success that takes something to be given back. */
  predicate Acquires(e: Entry) {
    e.exit.Ok? && (e.cmd.LuksOpen? || e.cmd.Mount?)
  }

  /** Failures the installer works on after: ignored, or kept until clean-up is done. */
  predicate Tolerated(e: Entry) {
    var cmd := e.cmd;
    || cmd.BtrfsResize? || cmd.Dracut? || cmd.UpdateGrub? || cmd.RemoveKeyfile? || cmd.RemoveNewKeyfile?
    || cmd.RemoveInitramfs? || cmd.RemoveDir?
    || cmd.SettleUdev? || cmd.Mlabel? || cmd.ZeroEnds? || cmd.CopyLog? || cmd.SaveRecoveryKey?
    || ((cmd.BtrfsTune? || cmd.Wipefs? || cmd.ZapAll? || cmd.E2fsck?) && e.exit.ExitFailed?)
    || ((cmd.Mount? || cmd.Unmount?) && cmd.point != TargetRoot)
    || cmd == MakeDir(BootDir) || cmd == MakeDir(EfiDir)
    || (cmd.StatImage? && !cmd.vital) || cmd.TryReadFile? || cmd.RemoveFile? || (cmd.RenameFile? && cmd.to == GrubProbe)
  }

  predicate Fatal(e: Entry) {
    !e.exit.Ok? && !Tolerated(e)
  }

  /** Something was acquired since `from`. */
  ghost predicate Holding(trace: seq<Entry>, from: nat) {
    |trace| > from && (Acquires(trace[|trace| - 1]) || Holding(trace[..|trace| - 1], from))
  }

  /** A fatal failure struck while something acquired since `from` could be held. */
  ghost predicate Leaked(trace: seq<Entry>, from: nat) {
    |trace| > from &&
    (Leaked(trace[..|trace| - 1], from) || (Fatal(trace[|trace| - 1]) && Holding(trace[..|trace| - 1], from)))
  }

  lemma {:induction false} HoldingMeans(trace: seq<Entry>, from: nat)
    ensures Holding(trace, from) <==> exists j :: from <= j < |trace| && Acquires(trace[j])
  {
    if |trace| > from {
      HoldingMeans(trace[..|trace| - 1], from);
    }
  }

  /** A leak is a fatal failure after an acquisition. */
  lemma {:induction false} LeakedMeans(trace: seq<Entry>, from: nat)
    ensures Leaked(trace, from)
       <==> exists i, j :: from <= j < i < |trace| && Acquires(trace[j]) && Fatal(trace[i])
  {
    if |trace| > from {
      var front := trace[..|trace| - 1];
      LeakedMeans(front, from);
      HoldingMeans(front, from);
      if Leaked(front, from) {
        var i, j :| from <= j < i < |front| && Acquires(front[j]) && Fatal(front[i]);
        assert Acquires(trace[j]) && Fatal(trace[i]);
      } else if Leaked(trace, from) {
        var j :| from <= j < |front| && Acquires(front[j]);
        assert Acquires(trace[j]) && Fatal(trace[|trace| - 1]);
      }
      if i, j :| from <= j < i < |trace| && Acquires(trace[j]) && Fatal(trace[i]) {
        assert Acquires(front[j]);
        assert i < |front| ==> Fatal(front[i]);
      }
    }
  }

  /** Steps that give back what a run can do without: it may fail to and still succeed. */
  predicate GivesBack(cmd: Cmd) {
    (cmd.Unmount? && cmd.point.TargetRoot?) || (cmd.LuksClose? && cmd.name == BOOT_NAME)
  }

  /** Those that failed since `from`. */
  ghost function Stuck(trace: seq<Entry>, from: nat): set<Cmd> {
    if |trace| <= from then {}
    else
      var e, before := trace[|trace| - 1], Stuck(trace[..|trace| - 1], from);
      if GivesBack(e.cmd) && !e.exit.Ok? then before + {e.cmd} else before
  }

  lemma {:induction false} StuckMeans(trace: seq<Entry>, from: nat, cmd: Cmd)
    ensures cmd in Stuck(trace, from) <==> GivesBack(cmd) && FailedSince(trace, from, cmd)
  {
    if |trace| > from {
      var front := trace[..|trace| - 1];
      StuckMeans(front, from, cmd);
      if FailedSince(front, from, cmd) {
        SeenLater(front, trace, from, cmd, false);
      }
      if FailedSince(trace, from, cmd) {
        var i :| from <= i < |trace| && trace[i].cmd == cmd && trace[i].exit.Ok? == false;
        if i < |front| {
          assert front[i] == trace[i];
        }
      }
    }
  }

  lemma {:induction false} StuckSum(t0: seq<Entry>, t1: seq<Entry>, from: nat)
    requires t0 <= t1 && from <= |t0|
    ensures Stuck(t1, from) == Stuck(t0, from) + Stuck(t1, |t0|)
    decreases |t1|
  {
    if |t1| > |t0| {
      assert t1[..|t1| - 1][..|t0|] == t0;
      StuckSum(t0, t1[..|t1| - 1], from);
    } else {
      assert t0 == t1;
    }
  }

  // ---- Reading the history ----

  /** `cmd` has ended this way since `from`. */
  ghost predicate Seen(trace: seq<Entry>, from: nat, cmd: Cmd, ok: bool) {
    exists i :: from <= i < |trace| && trace[i].cmd == cmd && trace[i].exit.Ok? == ok
  }

  ghost predicate DoneSince(trace: seq<Entry>, from: nat, cmd: Cmd) {
    Seen(trace, from, cmd, true)
  }

  ghost predicate FailedSince(trace: seq<Entry>, from: nat, cmd: Cmd) {
    Seen(trace, from, cmd, false)
  }

  ghost predicate Done(trace: seq<Entry>, cmd: Cmd) {
    Seen(trace, 0, cmd, true)
  }

  /** `cmd` was run since `from`, with or without success. */
  ghost predicate Tried(trace: seq<Entry>, from: nat, cmd: Cmd) {
    Seen(trace, from, cmd, true) || Seen(trace, from, cmd, false)
  }

  lemma SeenLater(earlier: seq<Entry>, later: seq<Entry>, from: nat, cmd: Cmd, ok: bool)
    requires earlier <= later && Seen(earlier, from, cmd, ok)
    ensures Seen(later, from, cmd, ok) && Seen(later, 0, cmd, ok)
  {
    var i :| from <= i < |earlier| && earlier[i].cmd == cmd && earlier[i].exit.Ok? == ok;
    assert later[i] == earlier[i];
  }

  /** Commands whose timing the safety rules restrict beyond the preliminary checks. */
  predicate Sensitive(cmd: Cmd) {
    cmd.WriteImage? || cmd.Dracut? || cmd.SizeCheck? || cmd.MediaCheck?
  }

  /** `unwrap_or_default`. */
  function OrDefault(passphrase: Option<string>): string {
    if passphrase.Some? then passphrase.value else ""
  }

  /** The files dracut must find when the root is encrypted. */
  predicate IsCryptFile(file: TargetFile) {
    file.Crypttab? || file.DracutCryptConf? || file.LuksKeyfile? || file.DracutKeyfileConf?
  }

  /** These files are the same in both. */
  ghost predicate SameCryptFiles(a: map<TargetFile, Content>, b: map<TargetFile, Content>) {
    && SameFile(a, b, Crypttab) && SameFile(a, b, DracutCryptConf)
    && SameFile(a, b, LuksKeyfile) && SameFile(a, b, DracutKeyfileConf)
  }

  /** What dracut is to find: the open mappings, the files about encryption as in `files`, and this fstab. */
  datatype DracutView = DracutView(mapped: set<string>, files: map<TargetFile, Content>, fstab: Content)

  ghost predicate Finds(e: Entry, view: DracutView) {
    e.mapped == view.mapped && SameCryptFiles(view.files, e.files) && HasFile(e.files, Fstab, view.fstab)
  }

  /** A stretch of the history: where it began, what dracut is to find if it may
      run, and the passphrase its keyfiles hold. */
  datatype Stretch = Stretch(start: seq<Entry>, dracut: Option<DracutView>, passphrase: string) {
    function From(): nat {
      |start|
    }
  }

  /** Commands that work on the mounted target. */
  predicate OnTarget(cmd: Cmd) {
    cmd.WriteFile? || cmd.BtrfsResize? || cmd.Dracut? || cmd.UpdateGrub? || cmd.ApplyConfig?
  }

  /** An entry that is not sensitive, or is the dracut run that was announced.
      What works on the mounted target finds it mounted; keyfiles hold the
      passphrase, and the commands that read one find it. */
  ghost predicate QuietEntry(e: Entry, dracut: Option<DracutView>, passphrase: string) {
    && (e.cmd.MakeKeyfile? ==> e.cmd.passphrase == passphrase) && (NeedsKey(e.cmd) ==> e.keyfile == Some(passphrase))
    && (Sensitive(e.cmd) ==> e.cmd.Dracut? && dracut.Some? && Finds(e, dracut.value))
    && (OnTarget(e.cmd) ==> e.mounted)
  }

  ghost predicate Quiet(since: Stretch, t: seq<Entry>) {
    && since.start <= t
    && forall i :: since.From() <= i < |t| ==> QuietEntry(t[i], since.dracut, since.passphrase)
  }

  /** Nothing seen since `from` is forgotten. */
  ghost predicate Keeps(t0: seq<Entry>, t1: seq<Entry>, from: nat) {
    forall cmd, ok :: Seen(t0, from, cmd, ok) ==> Seen(t1, from, cmd, ok)
  }

  /** One more quiet entry in the stretch that began at `since`. */
  ghost predicate Step(since: Stretch, t0: seq<Entry>, e: Entry, t1: seq<Entry>) {
    && Quiet(since, t1)
    && Keeps(t0, t1, since.From())
    && Seen(t1, since.From(), e.cmd, e.exit.Ok?)
    && (Holding(t1, since.From()) <==> Acquires(e) || Holding(t0, since.From()))
    && (Leaked(t1, since.From()) <==> Leaked(t0, since.From()) || (Fatal(e) && Holding(t0, since.From())))
    && Stuck(t1, since.From()) ==
         if GivesBack(e.cmd) && !e.exit.Ok? then Stuck(t0, since.From()) + {e.cmd} else Stuck(t0, since.From())
  }

  lemma StepOne(since: Stretch, t0: seq<Entry>, e: Entry)
    requires Quiet(since, t0) && QuietEntry(e, since.dracut, since.passphrase)
    ensures Step(since, t0, e, t0 + [e])
  {
    var t1 := t0 + [e];
    assert t1[..|t0|] == t0;
    assert t1[|t0|] == e;
    forall cmd, ok | Seen(t0, since.From(), cmd, ok)
      ensures Seen(t1, since.From(), cmd, ok)
    {
      SeenLater(t0, t1, since.From(), cmd, ok);
    }
  }

  lemma Beginning(since: Stretch)
    ensures Quiet(since, since.start)
    ensures !Holding(since.start, since.From()) && !Leaked(since.start, since.From())
    ensures Stuck(since.start, since.From()) == {}
  {
  }
}
