/** `rebuild_boot_config` (`writer/disk_writer.rs`): dracut and grub in a chroot,
    with a temporary fstab and a temporary grub-probe. */
module BootConfig {
  import opened Wrappers
  import opened Machine
  import opened Luks
  import opened PartitionPaths

  /** What the clean-up of the target tree relies on between two steps. */
  ghost predicate InTree(m: Machine, base: seq<MountPoint>, since: Stretch)
    reads m
  {
    && Quiet(since, m.trace) && Holding(m.trace, since.From()) && TargetTree(base, m.mounts)
    && Stuck(m.trace, since.From()) == {}
  }

  /** A command inside the tree whose failure does not end the rebuild. */
  method Tolerate(m: Machine, cmd: Cmd, ghost base: seq<MountPoint>, ghost since: Stretch) returns (exit: Exit)
    requires InTree(m, base, since) && QuietEntry(m.Next(cmd, Ok), since.dracut, since.passphrase)
    requires Optional(cmd)
    modifies m`trace
    ensures InTree(m, base, since) && Keeps(old(m.trace), m.trace, since.From())
    ensures Leaked(m.trace, since.From()) <==> Leaked(old(m.trace), since.From())
    ensures Tried(m.trace, since.From(), cmd) && Seen(m.trace, since.From(), cmd, exit.Ok?)
  {
    hide Seen, Leaked, Quiet, Holding, Stuck, Finds;
    exit := Try(m, cmd, since);
  }

  method MountInTree(m: Machine, point: MountPoint, ghost base: seq<MountPoint>, ghost since: Stretch) returns (exit: Exit)
    requires InTree(m, base, since) && Below(point, TargetRoot)
    modifies m`trace, m`mounts
    ensures InTree(m, base, since) && Keeps(old(m.trace), m.trace, since.From())
    ensures Leaked(m.trace, since.From()) <==> Leaked(old(m.trace), since.From())
    ensures Tried(m.trace, since.From(), Mount(point))
  {
    hide Seen, Leaked, Quiet, Holding, Stuck, Finds;
    exit := MountIn(m, point, since);
  }

  method UnmountInside(m: Machine, point: MountPoint, ghost base: seq<MountPoint>, ghost since: Stretch)
    requires InTree(m, base, since) && Below(point, TargetRoot)
    modifies m`trace, m`mounts
    ensures InTree(m, base, since) && Keeps(old(m.trace), m.trace, since.From())
    ensures Leaked(m.trace, since.From()) <==> Leaked(old(m.trace), since.From())
  {
    hide Seen, Leaked, Quiet, Holding, Stuck, Finds;
    var _ := UnmountIn(m, point, base, since);
  }

  datatype Mounted = Mounted(boot: bool, efi: bool)

  ghost predicate AllMountsTried(t: seq<Entry>, from: nat) {
    && Tried(t, from, Mount(Boot)) && Tried(t, from, Mount(Efi))
    && Tried(t, from, Mount(Proc)) && Tried(t, from, Mount(Sys)) && Tried(t, from, Mount(Dev))
  }

  /** Boot, and efi inside it. */
  method MountBoot(m: Machine, ghost base: seq<MountPoint>, ghost since: Stretch) returns (mounted: Mounted)
    requires InTree(m, base, since)
    modifies m`trace, m`mounts
    ensures InTree(m, base, since) && Keeps(old(m.trace), m.trace, since.From())
    ensures Leaked(m.trace, since.From()) <==> Leaked(old(m.trace), since.From())
    ensures Tried(m.trace, since.From(), Mount(Boot)) && Tried(m.trace, since.From(), Mount(Efi))
  {
    hide Leaked, InTree, Seen;
    var _ := Tolerate(m, MakeDir(BootDir), base, since);
    var boot := MountInTree(m, Boot, base, since);
    var _ := Tolerate(m, MakeDir(EfiDir), base, since);
    var efi := MountInTree(m, Efi, base, since);
    mounted := Mounted(boot.Ok?, efi.Ok?);
  }

  /** The bind mounts of the host's kernel filesystems. */
  method MountBinds(m: Machine, ghost base: seq<MountPoint>, ghost since: Stretch)
    requires InTree(m, base, since)
    modifies m`trace, m`mounts
    ensures InTree(m, base, since) && Keeps(old(m.trace), m.trace, since.From())
    ensures Leaked(m.trace, since.From()) <==> Leaked(old(m.trace), since.From())
    ensures Tried(m.trace, since.From(), Mount(Proc))
    ensures Tried(m.trace, since.From(), Mount(Sys)) && Tried(m.trace, since.From(), Mount(Dev))
  {
    hide Leaked, InTree, Seen;
    var _ := MountInTree(m, Proc, base, since);
    var _ := MountInTree(m, Sys, base, since);
    var _ := MountInTree(m, Dev, base, since);
  }

  /** Mount boot, efi and the bind mounts; none of them has to succeed. */
  method MountTree(m: Machine, ghost base: seq<MountPoint>, ghost since: Stretch) returns (mounted: Mounted)
    requires InTree(m, base, since)
    modifies m`trace, m`mounts
    ensures InTree(m, base, since) && Keeps(old(m.trace), m.trace, since.From())
    ensures Leaked(m.trace, since.From()) <==> Leaked(old(m.trace), since.From())
    ensures AllMountsTried(m.trace, since.From())
  {
    hide Leaked, InTree, Seen;
    mounted := MountBoot(m, base, since);
    MountBinds(m, base, since);
  }

  /** A command inside the tree whose failure ends the rebuild without clean-up. */
  method Insist(m: Machine, cmd: Cmd, ghost base: seq<MountPoint>, ghost since: Stretch) returns (r: Outcome<InstallError>)
    requires InTree(m, base, since) && QuietEntry(m.Next(cmd, Ok), since.dracut, since.passphrase)
    requires Vital(cmd)
    modifies m`trace
    ensures InTree(m, base, since) && Keeps(old(m.trace), m.trace, since.From())
    ensures Leaked(m.trace, since.From()) <==> Leaked(old(m.trace), since.From()) || r.Fail?
    ensures r.Fail? ==> Blamed(r.error, m.trace, since.From())
  {
    hide Seen, Leaked, Quiet, Holding, Stuck, Finds;
    r := Must(m, cmd, since);
  }

  method InsistWrite(m: Machine, file: TargetFile, content: Content, ghost base: seq<MountPoint>, ghost since: Stretch)
    returns (r: Outcome<InstallError>)
    requires InTree(m, base, since)
    modifies m`trace, m`files
    ensures InTree(m, base, since) && Keeps(old(m.trace), m.trace, since.From())
    ensures Leaked(m.trace, since.From()) <==> Leaked(old(m.trace), since.From()) || r.Fail?
    ensures r.Fail? ==> Blamed(r.error, m.trace, since.From())
    ensures r.Pass? ==> m.files == old(m.files)[file := content]
    ensures !IsCryptFile(file) ==> SameCryptFiles(old(m.files), m.files)
  {
    hide Seen, Leaked, Quiet, Holding, Stuck, Finds;
    r := MustWrite(m, file, content, since);
  }

  // ---- dracut, behind a temporary fstab ----

  /** The image's own dracut override and initramfs are gone, as far as they could be removed. */
  ghost predicate Stripped(m: Machine, from: nat)
    reads m
  {
    && Tried(m.trace, from, RemoveInitramfs)
    && (DracutPortableConf !in m.files || FailedSince(m.trace, from, RemoveFile(DracutPortableConf)))
  }

  /** The machine has what dracut is to find, except for the temporary fstab. */
  ghost predicate ReadyForDracut(m: Machine, since: Stretch)
    reads m
  {
    since.dracut.Some? && since.dracut.value.mapped == m.mapped && SameCryptFiles(since.dracut.value.files, m.files)
  }

  /** dracut runs only on a stripped target with the files about encryption and the temporary fstab. */
  method CallDracut(m: Machine, ghost base: seq<MountPoint>, ghost since: Stretch)
    returns (exit: Exit)
    requires InTree(m, base, since) && ReadyForDracut(m, since)
    requires Stripped(m, since.From()) && HasFile(m.files, Fstab, since.dracut.value.fstab)
    modifies m`trace
    ensures InTree(m, base, since) && Keeps(old(m.trace), m.trace, since.From())
    ensures Leaked(m.trace, since.From()) <==> Leaked(old(m.trace), since.From())
    ensures Tried(m.trace, since.From(), Dracut) && Seen(m.trace, since.From(), Dracut, exit.Ok?)
  {
    hide Seen, Leaked, Holding, Stuck, Stripped;
    exit := Tolerate(m, Dracut, base, since);
  }

  /** Write the temporary fstab, run dracut, put the original back. dracut's failure is kept for later. */
  method RunDracut(m: Machine, temporary: Content, ghost base: seq<MountPoint>, ghost since: Stretch)
    returns (r: Outcome<InstallError>, dracut: Exit)
    requires InTree(m, base, since) && Stripped(m, since.From())
    requires ReadyForDracut(m, since) && since.dracut.value.fstab == temporary
    modifies m`trace, m`files
    ensures InTree(m, base, since) && Keeps(old(m.trace), m.trace, since.From())
    ensures SameCryptFiles(old(m.files), m.files)
    ensures Leaked(m.trace, since.From()) <==> Leaked(old(m.trace), since.From()) || r.Fail?
    ensures r.Fail? ==> Blamed(r.error, m.trace, since.From())
    ensures r.Pass? ==> Tried(m.trace, since.From(), Dracut) && Seen(m.trace, since.From(), Dracut, dracut.Ok?)
    ensures r.Pass? && !FailedSince(m.trace, since.From(), TryReadFile(Fstab)) ==> m.files == old(m.files)
    ensures r.Pass? ==> m.files == old(m.files) || m.files == old(m.files)[Fstab := temporary]
    // With no readable fstab the temporary one stays.
    ensures r.Pass? && Fstab !in old(m.files) ==> m.files == old(m.files)[Fstab := temporary]
  {
    hide Seen, Leaked, Quiet, Holding, Stuck, Finds;
    dracut := Ok;
    var read, original := TryReadIn(m, Fstab, since);
    var written := InsistWrite(m, Fstab, temporary, base, since);
    if written.Fail? {
      return written, dracut;
    }
    dracut := CallDracut(m, base, since);
    r := Pass;
    if read.Ok? {
      r := InsistWrite(m, Fstab, original, base, since);
    }
  }

  // ---- update-grub, behind a temporary grub-probe ----

  method PatchGrubDefaults(m: Machine, ghost base: seq<MountPoint>, ghost since: Stretch) returns (r: Outcome<InstallError>)
    requires InTree(m, base, since)
    modifies m`trace, m`files
    ensures InTree(m, base, since) && Keeps(old(m.trace), m.trace, since.From())
    ensures Leaked(m.trace, since.From()) <==> Leaked(old(m.trace), since.From()) || r.Fail?
    ensures r.Fail? ==> Blamed(r.error, m.trace, since.From())
    ensures r.Pass? ==> m.files == old(m.files)[GrubDefaults := PatchedGrubDefaults]
    ensures SameCryptFiles(old(m.files), m.files)
  {
    hide Seen, Leaked, Quiet, Holding, Stuck, Finds;
    var read, _ := ReadIn(m, GrubDefaults, since);
    if !read.Ok? {
      return Fail(Failed(ReadFile(GrubDefaults)));
    }
    r := InsistWrite(m, GrubDefaults, PatchedGrubDefaults, base, since);
  }

  /** The files while the wrapper is in place. */
  function WithWrapper(files: map<TargetFile, Content>): map<TargetFile, Content> {
    if GrubProbe in files then
      (files - {GrubProbe})[GrubProbeReal := files[GrubProbe]][GrubProbe := GrubProbeWrapper]
    else
      files[GrubProbe := GrubProbeWrapper]
  }

  /** Move the real grub-probe aside, if there is one. */
  method KeepGrubProbe(m: Machine, ghost base: seq<MountPoint>, ghost since: Stretch)
    returns (r: Outcome<InstallError>, backup: bool)
    requires InTree(m, base, since)
    modifies m`trace, m`files
    ensures InTree(m, base, since) && Keeps(old(m.trace), m.trace, since.From())
    ensures Leaked(m.trace, since.From()) <==> Leaked(old(m.trace), since.From()) || r.Fail?
    ensures r.Fail? ==> Blamed(r.error, m.trace, since.From())
    ensures backup <==> GrubProbe in old(m.files)
    ensures r.Pass? && backup ==> m.files == (old(m.files) - {GrubProbe})[GrubProbeReal := old(m.files)[GrubProbe]]
    ensures r.Fail? || !backup ==> m.files == old(m.files)
  {
    hide Seen, Leaked, Quiet, Holding, Stuck, Finds;
    backup := GrubProbe in m.files;
    r := Pass;
    if backup {
      var renamed := RenameIn(m, GrubProbe, GrubProbeReal, since);
      r := if renamed.Ok? then Pass else Fail(Failed(RenameFile(GrubProbe, GrubProbeReal)));
    }
  }

  method InstallGrubProbeWrapper(m: Machine, ghost base: seq<MountPoint>, ghost since: Stretch)
    returns (r: Outcome<InstallError>, backup: bool)
    requires InTree(m, base, since)
    modifies m`trace, m`files
    ensures InTree(m, base, since) && Keeps(old(m.trace), m.trace, since.From())
    ensures Leaked(m.trace, since.From()) <==> Leaked(old(m.trace), since.From()) || r.Fail?
    ensures r.Fail? ==> Blamed(r.error, m.trace, since.From())
    ensures r.Pass? ==> m.files == WithWrapper(old(m.files)) && (backup <==> GrubProbe in old(m.files))
    ensures SameCryptFiles(old(m.files), m.files)
  {
    hide Seen, Leaked, Quiet, Holding, Stuck, Finds, InTree;
    r, backup := KeepGrubProbe(m, base, since);
    if r.Fail? {
      return;
    }
    r := InsistWrite(m, GrubProbe, GrubProbeWrapper, base, since);
    if r.Pass? {
      r := Insist(m, SetMode(GrubProbe), base, since);
    }
  }

  method RemoveGrubProbeWrapper(m: Machine, backup: bool, ghost base: seq<MountPoint>, ghost since: Stretch)
    requires InTree(m, base, since)
    modifies m`trace, m`files
    ensures InTree(m, base, since) && Keeps(old(m.trace), m.trace, since.From())
    ensures Leaked(m.trace, since.From()) <==> Leaked(old(m.trace), since.From())
    ensures backup && !FailedSince(m.trace, since.From(), RenameFile(GrubProbeReal, GrubProbe)) ==>
      GrubProbeReal in old(m.files) && m.files == (old(m.files) - {GrubProbeReal})[GrubProbe := old(m.files)[GrubProbeReal]]
    ensures !backup && !FailedSince(m.trace, since.From(), RemoveFile(GrubProbe)) ==>
      m.files == old(m.files) - {GrubProbe}
    ensures SameFile(old(m.files), m.files, Fstab) && SameCryptFiles(old(m.files), m.files)
  {
    hide Seen, Leaked, Quiet, Holding, Stuck, Finds;
    if backup {
      var _ := RenameIn(m, GrubProbeReal, GrubProbe, since);
    } else {
      var _ := RemoveIn(m, GrubProbe, since);
    }
  }

  /** The clean-up of grub-probe did not fail. */
  ghost predicate ProbePutBack(trace: seq<Entry>, from: nat) {
    && !FailedSince(trace, from, RenameFile(GrubProbeReal, GrubProbe))
    && !FailedSince(trace, from, RemoveFile(GrubProbe))
  }

  lemma PutBackEarlier(t0: seq<Entry>, t1: seq<Entry>, from: nat)
    requires Keeps(t0, t1, from)
    ensures ProbePutBack(t1, from) ==> ProbePutBack(t0, from)
    ensures FailedSince(t0, from, TryReadFile(Fstab)) ==> FailedSince(t1, from, TryReadFile(Fstab))
  {
    hide Seen;
  }

  /** Files a rebuild may change; every other file ends as it was. */
  const CHANGED: set<TargetFile> := {DracutPortableConf, GrubDefaults, GrubProbeReal}

  ghost predicate SameButChanged(a: map<TargetFile, Content>, b: map<TargetFile, Content>) {
    forall file :: file !in CHANGED ==> SameFile(a, b, file)
  }

  /** What a rebuild that cleaned up leaves of the files: fstab as it was if it could be read,
      and the temporary one if there was none; and whatever became of fstab, every other
      file as it was, but for those a rebuild may change, unless putting grub-probe back failed. */
  ghost predicate Restored(before: map<TargetFile, Content>, after: map<TargetFile, Content>, temporary: Content,
                           trace: seq<Entry>, from: nat) {
    && (!FailedSince(trace, from, TryReadFile(Fstab)) ==> SameFile(before, after, Fstab))
    && (SameFile(before, after, Fstab) || HasFile(after, Fstab, temporary))
    && (Fstab !in before ==> HasFile(after, Fstab, temporary))
    && (ProbePutBack(trace, from) ==> forall file :: file !in CHANGED && file != Fstab ==> SameFile(before, after, file))
  }

  /** update-grub runs only behind the wrapper, and when encrypted on patched defaults. */
  method CallUpdateGrub(m: Machine, encrypted: bool, ghost base: seq<MountPoint>, ghost since: Stretch) returns (exit: Exit)
    requires InTree(m, base, since)
    requires HasFile(m.files, GrubProbe, GrubProbeWrapper)
    requires encrypted ==> HasFile(m.files, GrubDefaults, PatchedGrubDefaults)
    modifies m`trace
    ensures InTree(m, base, since) && Keeps(old(m.trace), m.trace, since.From())
    ensures Leaked(m.trace, since.From()) <==> Leaked(old(m.trace), since.From())
    ensures Tried(m.trace, since.From(), UpdateGrub) && Seen(m.trace, since.From(), UpdateGrub, exit.Ok?)
  {
    hide Seen, Leaked, Holding, Stuck;
    exit := Tolerate(m, UpdateGrub, base, since);
  }

  /** grub defaults, wrapper in, update-grub, wrapper out. update-grub's failure is kept for later. */
  method RunUpdateGrub(m: Machine, encrypted: bool, ghost base: seq<MountPoint>, ghost since: Stretch)
    returns (r: Outcome<InstallError>, grub: Exit)
    requires InTree(m, base, since)
    modifies m`trace, m`files
    ensures InTree(m, base, since) && Keeps(old(m.trace), m.trace, since.From())
    ensures Leaked(m.trace, since.From()) <==> Leaked(old(m.trace), since.From()) || r.Fail?
    ensures r.Fail? ==> Blamed(r.error, m.trace, since.From())
    ensures r.Pass? ==> Seen(m.trace, since.From(), UpdateGrub, grub.Ok?)
    ensures r.Pass? && ProbePutBack(m.trace, since.From()) ==> SameButChanged(old(m.files), m.files)
    ensures r.Pass? ==> SameFile(old(m.files), m.files, Fstab)
    ensures SameCryptFiles(old(m.files), m.files)
  {
    hide Seen, Leaked, InTree;
    grub := Ok;
    r := Pass;
    if encrypted {
      r := PatchGrubDefaults(m, base, since);
    }
    if r.Fail? {
      return;
    }
    var backup;
    r, backup := InstallGrubProbeWrapper(m, base, since);
    if r.Fail? {
      return;
    }
    grub := CallUpdateGrub(m, encrypted, base, since);
    RemoveGrubProbeWrapper(m, backup, base, since);
  }

  // ---- The whole rebuild ----

  /** Strip the portable dracut override and stale initramfs images; failures are only logged. */
  method StripImageLeftovers(m: Machine, ghost base: seq<MountPoint>, ghost since: Stretch)
    requires InTree(m, base, since)
    modifies m`trace, m`files
    ensures InTree(m, base, since) && Keeps(old(m.trace), m.trace, since.From())
    ensures Leaked(m.trace, since.From()) <==> Leaked(old(m.trace), since.From())
    ensures SameButChanged(old(m.files), m.files) && SameCryptFiles(old(m.files), m.files)
    ensures Stripped(m, since.From()) && Tried(m.trace, since.From(), RemoveInitramfs)
  {
    hide Seen, Leaked, Quiet, Holding, Stuck, Finds;
    if DracutPortableConf in m.files {
      var _ := RemoveIn(m, DracutPortableConf, since);
    }
    var _ := Tolerate(m, RemoveInitramfs, base, since);
  }

  /** Everything done inside the mounted tree. */
  method WorkInTree(m: Machine, temporary: Content, encrypted: bool, ghost base: seq<MountPoint>, ghost since: Stretch)
    returns (r: Outcome<InstallError>, dracut: Exit, grub: Exit)
    requires InTree(m, base, since) && ReadyForDracut(m, since) && since.dracut.value.fstab == temporary
    modifies m`trace, m`files
    ensures InTree(m, base, since) && SameCryptFiles(old(m.files), m.files) && Keeps(old(m.trace), m.trace, since.From())
    ensures Leaked(m.trace, since.From()) <==> Leaked(old(m.trace), since.From()) || r.Fail?
    ensures r.Fail? ==> Blamed(r.error, m.trace, since.From())
    ensures r.Pass? ==> Tried(m.trace, since.From(), RemoveInitramfs)
    ensures r.Pass? ==>
      Seen(m.trace, since.From(), Dracut, dracut.Ok?) && Seen(m.trace, since.From(), UpdateGrub, grub.Ok?)
    ensures r.Pass? ==> Restored(old(m.files), m.files, temporary, m.trace, since.From())
  {
    hide Seen, Leaked, InTree, ProbePutBack, Stripped, SameButChanged, Restored, Blamed;
    dracut, grub := Ok, Ok;
    r := Pass;
    if * {
      r := Insist(m, ReadModules, base, since);
    }
    if r.Fail? {
      return;
    }
    ghost var f := m.files;
    StripImageLeftovers(m, base, since);
    ghost var stripped := m.files;
    r, dracut := RunDracut(m, temporary, base, since);
    if r.Fail? {
      return;
    }
    ghost var t, fixed := m.trace, m.files;
    r, grub := RunUpdateGrub(m, encrypted, base, since);
    PutBackEarlier(t, m.trace, since.From());
    if r.Pass? {
      NowRestored(f, stripped, fixed, m.files, temporary, m.trace, since.From());
    }
  }

  lemma NowRestored(f: map<TargetFile, Content>, stripped: map<TargetFile, Content>, fixed: map<TargetFile, Content>,
                    after: map<TargetFile, Content>, temporary: Content, t: seq<Entry>, from: nat)
    requires SameButChanged(f, stripped)
    requires fixed == stripped || fixed == stripped[Fstab := temporary]
    requires !FailedSince(t, from, TryReadFile(Fstab)) ==> fixed == stripped
    requires Fstab !in stripped ==> fixed == stripped[Fstab := temporary]
    requires ProbePutBack(t, from) ==> SameButChanged(fixed, after)
    requires SameFile(fixed, after, Fstab)
    ensures Restored(f, after, temporary, t, from)
  {
    hide Seen, ProbePutBack;
    assert SameFile(f, stripped, Fstab);
    if ProbePutBack(t, from) {
      forall file | file !in CHANGED && file != Fstab
        ensures SameFile(f, after, file)
      {
        assert SameFile(f, stripped, file) && SameFile(fixed, after, file);
      }
    }
  }

  lemma RestoredLater(f: map<TargetFile, Content>, after: map<TargetFile, Content>, temporary: Content, t0: seq<Entry>,
                      t1: seq<Entry>, from: nat)
    requires Restored(f, after, temporary, t0, from) && Keeps(t0, t1, from)
    ensures Restored(f, after, temporary, t1, from)
  {
    hide Seen, ProbePutBack;
    PutBackEarlier(t0, t1, from);
  }

  /** Take the tree down and close the mapping; every failure is ignored. */
  method UnmountTree(m: Machine, mounted: Mounted, encrypted: bool, ghost base: seq<MountPoint>, ghost since: Stretch)
    requires InTree(m, base, since) && (encrypted ==> BOOT_NAME in m.mapped)
    modifies m`trace, m`mapped, m`mounts
    ensures Quiet(since, m.trace) && Keeps(old(m.trace), m.trace, since.From())
    ensures !Leaked(m.trace, since.From()) <==>
      && !Leaked(old(m.trace), since.From()) && m.mounts == base
      && m.mapped == if encrypted then old(m.mapped) - {BOOT_NAME} else old(m.mapped)
    ensures TakenDown(base, m.mounts, old(m.mapped), m.mapped, m.trace, since.From(), encrypted)
  {
    hide Seen, Leaked, Quiet, Holding, Stuck, Finds, TakenDown;
    UnmountInside(m, Dev, base, since);
    UnmountInside(m, Sys, base, since);
    UnmountInside(m, Proc, base, since);
    if mounted.efi {
      UnmountInside(m, Efi, base, since);
    }
    if mounted.boot {
      UnmountInside(m, Boot, base, since);
    }
    UnmountRoot(m, encrypted, base, since);
  }

  /** The root is unmounted and the mapping closed, each unless its step failed. */
  ghost predicate TakenDown(base: seq<MountPoint>, mounts: seq<MountPoint>, before: set<string>, after: set<string>,
                            trace: seq<Entry>, from: nat, encrypted: bool) {
    && MountsTidy(base, mounts, trace, from)
    && after == (if encrypted && LuksClose(BOOT_NAME) !in Stuck(trace, from) then before - {BOOT_NAME} else before)
    && (!encrypted ==> LuksClose(BOOT_NAME) !in Stuck(trace, from))
  }

  method UnmountRoot(m: Machine, encrypted: bool, ghost base: seq<MountPoint>, ghost since: Stretch)
    requires InTree(m, base, since) && (encrypted ==> BOOT_NAME in m.mapped)
    modifies m`trace, m`mapped, m`mounts
    ensures Quiet(since, m.trace) && Keeps(old(m.trace), m.trace, since.From())
    ensures !Leaked(m.trace, since.From()) <==>
      && !Leaked(old(m.trace), since.From()) && m.mounts == base
      && m.mapped == if encrypted then old(m.mapped) - {BOOT_NAME} else old(m.mapped)
    ensures TakenDown(base, m.mounts, old(m.mapped), m.mapped, m.trace, since.From(), encrypted)
  {
    hide Seen, Leaked, Quiet, Holding, Stuck, Finds;
    var _ := UnmountIn(m, TargetRoot, base, since);
    if encrypted {
      var _ := CloseIn(m, BOOT_NAME, since);
    }
  }

  /** Open the container under its production name and learn the identifiers. */
  method OpenForBoot(m: Machine, target: string, encryption: Encryption, passphrase: Option<string>, ghost since: Stretch)
    returns (r: Outcome<InstallError>)
    requires since.start == m.trace && since.passphrase == OrDefault(passphrase)
    modifies m`trace, m`keyfile, m`mapped
    ensures Quiet(since, m.trace) && Stuck(m.trace, since.From()) == {}
    ensures r.Pass? ==> !Leaked(m.trace, since.From()) && m.mapped == MappedForBoot(old(m.mapped), encryption)
    ensures r.Pass? && encryption.IsEncrypted() ==>
      BOOT_NAME !in old(m.mapped) && DoneSince(m.trace, since.From(), LuksOpen(PartitionPath(target, 3), BOOT_NAME))
    ensures r.Fail? ==> (m.mapped == old(m.mapped) <==> !Leaked(m.trace, since.From()))
    ensures r.Pass? ==> (Holding(m.trace, since.From()) <==> encryption.IsEncrypted())
    ensures
      if r.Pass? then KeyTidy(old(m.keyfile), m.keyfile, m.trace, since.From()) else Blamed(r.error, m.trace, since.From())
  {
    hide Seen, Leaked, Quiet, Holding, Stuck, Finds, PartitionPath;
    Beginning(since);
    var device := PartitionPath(target, 3);
    if encryption.IsEncrypted() {
      :- OpenLuksRootAs(m, device, OrDefault(passphrase), BOOT_NAME, since);
      device := MapperPath(BOOT_NAME);
    }
    :- ReadUuids(m, device, PartitionPath(target, 2), PartitionPath(target, 1), since);
    r := Must(m, MakeDir(MountBase), since);
  }

  /** Learn the identifiers of root, boot and efi. */
  method ReadUuids(m: Machine, root: string, xboot: string, efi: string, ghost since: Stretch)
    returns (r: Outcome<InstallError>)
    requires Quiet(since, m.trace)
    modifies m`trace
    ensures Quiet(since, m.trace) && Keeps(old(m.trace), m.trace, since.From())
    ensures Accounted(old(m.trace), m.trace, since.From(), r)
  {
    hide Seen, Leaked, Quiet, Holding, Stuck, Finds;
    :- Must(m, Blkid(root), since);
    r := ReadBootUuids(m, xboot, efi, since);
  }

  method ReadBootUuids(m: Machine, xboot: string, efi: string, ghost since: Stretch) returns (r: Outcome<InstallError>)
    requires Quiet(since, m.trace)
    modifies m`trace
    ensures Quiet(since, m.trace) && Keeps(old(m.trace), m.trace, since.From())
    ensures Accounted(old(m.trace), m.trace, since.From(), r)
  {
    hide Seen, Leaked, Quiet, Holding, Stuck, Finds;
    :- Must(m, Blkid(xboot), since);
    r := Must(m, Blkid(efi), since);
  }

  /** The mappings open while dracut runs. */
  function MappedForBoot(mapped: set<string>, encryption: Encryption): set<string> {
    if encryption.IsEncrypted() then mapped + {BOOT_NAME} else mapped
  }

  /** Filesystem identifiers of root, boot and efi, as blkid reports them. */
  datatype Uuids = Uuids(root: string, xboot: string, efi: string)

  /** The temporary fstab. */
  function DracutFstab(encryption: Encryption, uuids: Uuids): Content {
    UuidFstab(if encryption.IsEncrypted() then MapperPath(BOOT_NAME) else "UUID=" + uuids.root, uuids.xboot, uuids.efi)
  }

  /** What dracut finds in a rebuild that starts in this state. */
  ghost function ViewForBoot(m: Machine, encryption: Encryption, uuids: Uuids): DracutView
    reads m
  {
    DracutView(MappedForBoot(m.mapped, encryption), m.files, DracutFstab(encryption, uuids))
  }

  /** `rebuild_boot_config`. Whatever fails, mounts and mappings end as they were
      exactly if no fatal failure struck after something was acquired; a failed
      dracut or update-grub is reported but is not fatal. Then fstab and grub-probe
      are put back too. */
  method RebuildBootConfig(m: Machine, target: string, encryption: Encryption, passphrase: Option<string>,
                           uuids: Uuids, ghost since: Stretch)
    returns (r: Outcome<InstallError>)
    requires since == Stretch(m.trace, Some(ViewForBoot(m, encryption, uuids)), OrDefault(passphrase))
    modifies m`trace, m`keyfile, m`mapped, m`mounts, m`files
    ensures Quiet(since, m.trace) && SameCryptFiles(old(m.files), m.files)
    ensures m.mapped == old(m.mapped) && m.mounts == old(m.mounts) <==> !Leaked(m.trace, since.From())
    ensures r.Fail? ==> Blamed(r.error, m.trace, since.From())
    ensures r.Pass? ==> DoneSince(m.trace, since.From(), Dracut) && DoneSince(m.trace, since.From(), UpdateGrub)
    ensures r.Pass? ==> AllMountsTried(m.trace, since.From()) && Tried(m.trace, since.From(), RemoveInitramfs)
    ensures r.Pass? || !Leaked(m.trace, since.From()) ==>
      || (r.Fail? && m.files == old(m.files))
      || Restored(old(m.files), m.files, DracutFstab(encryption, uuids), m.trace, since.From())
    ensures r.Pass? ==> Tidy(old(ResourcesOf(m)), ResourcesOf(m), m.trace, since.From(), encryption)
  {
    hide Seen, Leaked, Quiet, Holding, Stuck, Finds, Restored, PartitionPath, DracutFstab;
    ghost var base := m.mounts;
    :- OpenForBoot(m, target, encryption, passphrase, since);
    var exit := MountIn(m, TargetRoot, since);
    if !exit.Ok? {
      return Fail(Failed(Mount(TargetRoot)));
    }
    r := RebuildMounted(m, encryption, uuids, base, since);
  }

  /** From the mounted root to the end. */
  method RebuildMounted(m: Machine, encryption: Encryption, uuids: Uuids,
                        ghost base: seq<MountPoint>, ghost since: Stretch)
    returns (r: Outcome<InstallError>)
    requires InTree(m, base, since) && !Leaked(m.trace, since.From())
    requires ReadyForDracut(m, since) && since.dracut.value.fstab == DracutFstab(encryption, uuids)
    requires encryption.IsEncrypted() ==> BOOT_NAME in m.mapped
    modifies m`trace, m`mapped, m`mounts, m`files
    ensures Quiet(since, m.trace) && Keeps(old(m.trace), m.trace, since.From()) && SameCryptFiles(old(m.files), m.files)
    ensures !Leaked(m.trace, since.From()) <==>
      m.mounts == base && m.mapped == if encryption.IsEncrypted() then old(m.mapped) - {BOOT_NAME} else old(m.mapped)
    ensures r.Fail? ==> Blamed(r.error, m.trace, since.From())
    ensures r.Pass? ==> DoneSince(m.trace, since.From(), Dracut) && DoneSince(m.trace, since.From(), UpdateGrub)
    ensures r.Pass? ==> AllMountsTried(m.trace, since.From()) && Tried(m.trace, since.From(), RemoveInitramfs)
    ensures r.Pass? || !Leaked(m.trace, since.From()) ==>
      Restored(old(m.files), m.files, DracutFstab(encryption, uuids), m.trace, since.From())
    ensures r.Pass? ==> TakenDown(base, m.mounts, old(m.mapped), m.mapped, m.trace, since.From(), encryption.IsEncrypted())
  {
    hide Seen, Leaked, Quiet, Holding, Stuck, Restored, TakenDown, DracutFstab;
    var mounted := MountTree(m, base, since);
    var work, dracut, grub := WorkInTree(m, DracutFstab(encryption, uuids), encryption.IsEncrypted(), base, since);
    if work.Fail? {
      return work;
    }
    ghost var t := m.trace;
    UnmountTree(m, mounted, encryption.IsEncrypted(), base, since);
    RestoredLater(old(m.files), m.files, DracutFstab(encryption, uuids), t, m.trace, since.From());
    r := if !dracut.Ok? then Fail(Failed(Dracut)) else if !grub.Ok? then Fail(Failed(UpdateGrub)) else Pass;
  }
}
