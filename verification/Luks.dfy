/** LUKS steps and the mounted target (`writer/luks.rs`, `firstboot.rs`, `encryption.rs`). */
module Luks {
  import opened Wrappers
  import opened Machine

  function MapperPath(name: string): string {
    "/dev/mapper/" + name
  }

  datatype Encryption = Tpm | Keyfile | NoEncryption {
    predicate IsEncrypted() {
      Tpm? || Keyfile?
    }
  }

  datatype InstallError =
    | Failed(cmd: Cmd)
    | DiskTooSmall(image: nat, disk: nat)
    | EncryptionNotEnabled

  /** The error names a command that failed since `from`. */
  ghost predicate Blamed(error: InstallError, trace: seq<Entry>, from: nat) {
    error.Failed? && FailedSince(trace, from, error.cmd)
  }

  /** The keyfile is as before or gone, unless removing one failed. */
  ghost predicate KeyTidy(before: Option<string>, after: Option<string>, trace: seq<Entry>, from: nat) {
    after == before || after.None? || FailedSince(trace, from, RemoveKeyfile)
  }

  /** Work that takes nothing and gives nothing back: a failure names a failed command,
      and it is a leak if something was held. */
  ghost predicate Accounted(t0: seq<Entry>, t1: seq<Entry>, from: nat, r: Outcome<InstallError>) {
    && (Holding(t1, from) <==> Holding(t0, from))
    && (Leaked(t1, from) <==> Leaked(t0, from) || (r.Fail? && Holding(t0, from)))
    && (r.Fail? ==> Blamed(r.error, t1, from))
    && Stuck(t1, from) == Stuck(t0, from)
  }

  /** A command that takes nothing, gives nothing back, and whose every failure is fatal. */
  predicate Vital(cmd: Cmd) {
    && !cmd.LuksOpen? && !cmd.Mount? && !GivesBack(cmd)
    && !Tolerated(Entry(cmd, ExitFailed, {}, false, None, map[])) && !Tolerated(Entry(cmd, NotSpawned, {}, false, None, map[]))
  }

  /** One that takes nothing, gives nothing back, and may fail. */
  predicate Optional(cmd: Cmd) {
    && !cmd.LuksOpen? && !cmd.Mount? && !GivesBack(cmd)
    && Tolerated(Entry(cmd, ExitFailed, {}, false, None, map[])) && Tolerated(Entry(cmd, NotSpawned, {}, false, None, map[]))
  }

  /** The mounts are as before unless unmounting the root failed; then more is mounted. */
  ghost predicate MountsTidy(before: seq<MountPoint>, after: seq<MountPoint>, trace: seq<Entry>, from: nat) {
    before <= after && (after == before <==> Unmount(TargetRoot) !in Stuck(trace, from))
  }

  /** The mappings are as before, but for the boot mapping if closing it failed, and
      when encrypting perhaps the installer's own. */
  ghost predicate MappedTidy(before: set<string>, after: set<string>, trace: seq<Entry>, from: nat, encryption: Encryption) {
    var stuck := LuksClose(BOOT_NAME) in Stuck(trace, from);
    var base := if stuck then before + {BOOT_NAME} else before;
    && (after == base || (encryption.IsEncrypted() && after == base + {LUKS_NAME}))
    && (stuck ==> BOOT_NAME !in before)
  }

  /** What is taken and given back during an install. */
  datatype Resources = Resources(mounts: seq<MountPoint>, mapped: set<string>, keyfile: Option<string>)

  ghost function ResourcesOf(m: Machine): Resources
    reads m
  {
    Resources(m.mounts, m.mapped, m.keyfile)
  }

  /** What a passing operation leaves as it found it. */
  ghost predicate Tidy(before: Resources, after: Resources, trace: seq<Entry>, from: nat, encryption: Encryption) {
    && MountsTidy(before.mounts, after.mounts, trace, from)
    && MappedTidy(before.mapped, after.mapped, trace, from, encryption)
    && KeyTidy(before.keyfile, after.keyfile, trace, from)
  }

  lemma NamesDiffer()
    ensures LUKS_NAME != BOOT_NAME
  {
    assert |LUKS_NAME| != |BOOT_NAME|;
  }

  // ---- Commands in a quiet stretch that began at `since` ----

  method RunIn(m: Machine, cmd: Cmd, ghost since: Stretch) returns (exit: Exit)
    requires Quiet(since, m.trace) && QuietEntry(m.Next(cmd, Ok), since.dracut, since.passphrase)
    modifies m`trace
    ensures Step(since, old(m.trace), m.Next(cmd, exit), m.trace)
  {
    ghost var t, e := m.trace, m.Next(cmd, Ok);
    exit := m.Run(cmd);
    StepOne(since, t, e.(exit := exit));
  }

  /** A command whose failure is propagated. */
  method Must(m: Machine, cmd: Cmd, ghost since: Stretch) returns (r: Outcome<InstallError>)
    requires Quiet(since, m.trace) && QuietEntry(m.Next(cmd, Ok), since.dracut, since.passphrase) && Vital(cmd)
    modifies m`trace
    ensures Quiet(since, m.trace) && Accounted(old(m.trace), m.trace, since.From(), r)
    ensures Keeps(old(m.trace), m.trace, since.From())
    ensures if r.Pass? then DoneSince(m.trace, since.From(), cmd) else r.error == Failed(cmd)
  {
    hide Quiet, Seen, Holding, Leaked, Stuck;
    var exit := RunIn(m, cmd, since);
    r := if exit.Ok? then Pass else Fail(Failed(cmd));
  }

  /** A command whose failure is ignored, or kept for later. */
  method Try(m: Machine, cmd: Cmd, ghost since: Stretch) returns (exit: Exit)
    requires Quiet(since, m.trace) && QuietEntry(m.Next(cmd, Ok), since.dracut, since.passphrase) && Optional(cmd)
    modifies m`trace
    ensures Quiet(since, m.trace) && Accounted(old(m.trace), m.trace, since.From(), Pass)
    ensures Keeps(old(m.trace), m.trace, since.From())
    ensures Seen(m.trace, since.From(), cmd, exit.Ok?)
  {
    hide Quiet, Seen, Holding, Leaked, Stuck;
    exit := RunIn(m, cmd, since);
  }

  /** One that takes nothing, gives nothing back, and must only be started. */
  predicate Startable(cmd: Cmd) {
    && !cmd.LuksOpen? && !cmd.Mount? && !GivesBack(cmd)
    && Tolerated(Entry(cmd, ExitFailed, {}, false, None, map[])) && !Tolerated(Entry(cmd, NotSpawned, {}, false, None, map[]))
  }

  /** A command that only fails when it cannot be started. */
  method Start(m: Machine, cmd: Cmd, ghost since: Stretch) returns (r: Outcome<InstallError>)
    requires Quiet(since, m.trace) && QuietEntry(m.Next(cmd, Ok), since.dracut, since.passphrase) && Startable(cmd)
    modifies m`trace
    ensures Quiet(since, m.trace) && Accounted(old(m.trace), m.trace, since.From(), r)
    ensures Keeps(old(m.trace), m.trace, since.From())
    ensures if r.Pass? then Tried(m.trace, since.From(), cmd) else r.error == Failed(cmd)
  {
    hide Quiet, Seen, Holding, Leaked, Stuck;
    var exit := RunIn(m, cmd, since);
    r := if exit.NotSpawned? then Fail(Failed(cmd)) else Pass;
  }

  /** `create_passphrase_keyfile`, whose failure is propagated. */
  method MakeKeyIn(m: Machine, passphrase: string, ghost since: Stretch) returns (r: Outcome<InstallError>)
    requires Quiet(since, m.trace) && since.passphrase == passphrase
    modifies m`trace, m`keyfile
    ensures Quiet(since, m.trace) && Accounted(old(m.trace), m.trace, since.From(), r)
    ensures Keeps(old(m.trace), m.trace, since.From())
    ensures if r.Pass? then m.keyfile == Some(passphrase) else r.error == Failed(MakeKeyfile(passphrase))
  {
    ghost var t, e := m.trace, m.Next(MakeKeyfile(passphrase), Ok);
    var exit := m.MakeKeyAt(passphrase);
    StepOne(since, t, e.(exit := exit));
    r := if exit.Ok? then Pass else Fail(Failed(MakeKeyfile(passphrase)));
  }

  method RemoveKeyIn(m: Machine, ghost since: Stretch)
    requires Quiet(since, m.trace)
    modifies m`trace, m`keyfile
    ensures Quiet(since, m.trace) && Accounted(old(m.trace), m.trace, since.From(), Pass)
    ensures Keeps(old(m.trace), m.trace, since.From())
    ensures KeyTidy(None, m.keyfile, m.trace, since.From())
  {
    ghost var t, e := m.trace, m.Next(RemoveKeyfile, Ok);
    var exit := m.RemoveKeyAt();
    StepOne(since, t, e.(exit := exit));
  }

  method OpenIn(m: Machine, partition: string, name: string, ghost since: Stretch) returns (exit: Exit)
    requires Quiet(since, m.trace) && m.keyfile == Some(since.passphrase)
    modifies m`trace, m`mapped
    ensures Step(since, old(m.trace), old(m.Next(LuksOpen(partition, name), exit)), m.trace)
    ensures m.trace == old(m.trace) + [old(m.Next(LuksOpen(partition, name), exit))]
    ensures exit.Ok? ==> name !in old(m.mapped) && m.mapped == old(m.mapped) + {name}
    ensures !exit.Ok? ==> m.mapped == old(m.mapped)
  {
    ghost var t, e := m.trace, m.Next(LuksOpen(partition, name), Ok);
    exit := m.OpenMapping(partition, name);
    StepOne(since, t, e.(exit := exit));
  }

  method CloseIn(m: Machine, name: string, ghost since: Stretch) returns (exit: Exit)
    requires Quiet(since, m.trace)
    modifies m`trace, m`mapped
    ensures Step(since, old(m.trace), old(m.Next(LuksClose(name), exit)), m.trace)
    ensures exit.Ok? ==> name in old(m.mapped) && m.mapped == old(m.mapped) - {name}
    ensures !exit.Ok? ==> m.mapped == old(m.mapped)
  {
    ghost var t, e := m.trace, m.Next(LuksClose(name), Ok);
    exit := m.CloseMapping(name);
    StepOne(since, t, e.(exit := exit));
  }

  method MountIn(m: Machine, point: MountPoint, ghost since: Stretch) returns (exit: Exit)
    requires Quiet(since, m.trace)
    modifies m`trace, m`mounts
    ensures Quiet(since, m.trace) && Keeps(old(m.trace), m.trace, since.From())
    ensures Seen(m.trace, since.From(), Mount(point), exit.Ok?)
    ensures Holding(m.trace, since.From()) <==> exit.Ok? || Holding(old(m.trace), since.From())
    ensures Leaked(m.trace, since.From()) <==>
      Leaked(old(m.trace), since.From()) || (!exit.Ok? && point.TargetRoot? && Holding(old(m.trace), since.From()))
    ensures Stuck(m.trace, since.From()) == Stuck(old(m.trace), since.From())
    ensures m.mounts == if exit.Ok? then old(m.mounts) + [point] else old(m.mounts)
  {
    hide Quiet, Seen, Holding, Leaked, Stuck;
    ghost var t, e := m.trace, m.Next(Mount(point), Ok);
    exit := m.MountAt(point);
    StepOne(since, t, e.(exit := exit));
  }

  method WriteIn(m: Machine, file: TargetFile, content: Content, ghost since: Stretch) returns (exit: Exit)
    requires TargetRoot in m.mounts && Quiet(since, m.trace)
    modifies m`trace, m`files
    ensures Step(since, old(m.trace), old(m.Next(WriteFile(file, content), exit)), m.trace)
    ensures exit.Ok? ==> m.files == old(m.files)[file := content]
    ensures !IsCryptFile(file) ==> SameCryptFiles(old(m.files), m.files)
  {
    ghost var t, e := m.trace, m.Next(WriteFile(file, content), Ok);
    exit := m.WriteAt(file, content);
    StepOne(since, t, e.(exit := exit));
  }

  method MustWrite(m: Machine, file: TargetFile, content: Content, ghost since: Stretch)
    returns (r: Outcome<InstallError>)
    requires TargetRoot in m.mounts && Quiet(since, m.trace)
    modifies m`trace, m`files
    ensures Quiet(since, m.trace) && Accounted(old(m.trace), m.trace, since.From(), r)
    ensures Keeps(old(m.trace), m.trace, since.From())
    ensures if r.Pass? then m.files == old(m.files)[file := content] else r.error == Failed(WriteFile(file, content))
    ensures !IsCryptFile(file) ==> SameCryptFiles(old(m.files), m.files)
  {
    hide Quiet, Seen, Holding, Leaked, Stuck;
    var exit := WriteIn(m, file, content, since);
    r := if exit.Ok? then Pass else Fail(Failed(WriteFile(file, content)));
  }

  method ReadIn(m: Machine, file: TargetFile, ghost since: Stretch) returns (exit: Exit, content: Content)
    requires Quiet(since, m.trace)
    modifies m`trace
    ensures Step(since, old(m.trace), m.Next(ReadFile(file), exit), m.trace)
    ensures exit.Ok? ==> HasFile(m.files, file, content)
  {
    ghost var t, e := m.trace, m.Next(ReadFile(file), Ok);
    exit, content := m.ReadAt(ReadFile(file), file);
    StepOne(since, t, e.(exit := exit));
  }

  /** Reading a file that need not be there. */
  method TryReadIn(m: Machine, file: TargetFile, ghost since: Stretch) returns (exit: Exit, content: Content)
    requires Quiet(since, m.trace)
    modifies m`trace
    ensures Step(since, old(m.trace), m.Next(TryReadFile(file), exit), m.trace)
    ensures exit.Ok? ==> HasFile(m.files, file, content)
  {
    ghost var t, e := m.trace, m.Next(TryReadFile(file), Ok);
    exit, content := m.ReadAt(TryReadFile(file), file);
    StepOne(since, t, e.(exit := exit));
  }

  method RemoveIn(m: Machine, file: TargetFile, ghost since: Stretch) returns (exit: Exit)
    requires Quiet(since, m.trace)
    modifies m`trace, m`files
    ensures Step(since, old(m.trace), old(m.Next(RemoveFile(file), exit)), m.trace)
    ensures m.files == if exit.Ok? then old(m.files) - {file} else old(m.files)
  {
    ghost var t, e := m.trace, m.Next(RemoveFile(file), Ok);
    exit := m.RemoveAt(file);
    StepOne(since, t, e.(exit := exit));
  }

  method RenameIn(m: Machine, file: TargetFile, to: TargetFile, ghost since: Stretch) returns (exit: Exit)
    requires Quiet(since, m.trace) && file != to
    modifies m`trace, m`files
    ensures Step(since, old(m.trace), old(m.Next(RenameFile(file, to), exit)), m.trace)
    ensures exit.Ok? ==> file in old(m.files) && m.files == (old(m.files) - {file})[to := old(m.files)[file]]
    ensures !exit.Ok? ==> m.files == old(m.files)
  {
    ghost var t, e := m.trace, m.Next(RenameFile(file, to), Ok);
    exit := m.RenameAt(file, to);
    StepOne(since, t, e.(exit := exit));
  }

  // ---- Opening and closing the container ----

  /** Open the LUKS container; the temporary keyfile is removed before the exit status is looked at. */
  method OpenLuksRootAs(m: Machine, partition: string, passphrase: string, name: string, ghost since: Stretch)
    returns (r: Outcome<InstallError>)
    requires since.passphrase == passphrase
    requires Quiet(since, m.trace) && !Holding(m.trace, since.From())
    modifies m`trace, m`keyfile, m`mapped
    ensures Quiet(since, m.trace)
    ensures Leaked(m.trace, since.From()) <==> Leaked(old(m.trace), since.From())
    ensures Holding(m.trace, since.From()) <==> r.Pass?
    ensures Keeps(old(m.trace), m.trace, since.From())
    ensures r.Pass? ==> name !in old(m.mapped) && m.mapped == old(m.mapped) + {name}
    ensures r.Pass? ==> DoneSince(m.trace, since.From(), LuksOpen(partition, name))
    ensures r.Fail? ==> m.mapped == old(m.mapped) && Blamed(r.error, m.trace, since.From())
    ensures r.Pass? ==> KeyTidy(None, m.keyfile, m.trace, since.From())
    ensures Stuck(m.trace, since.From()) == Stuck(old(m.trace), since.From())
  {
    hide Quiet, Seen, Holding, Leaked, Stuck;
    :- MakeKeyIn(m, passphrase, since);
    var exit := OpenIn(m, partition, name, since);
    RemoveKeyIn(m, since);
    r := if exit.Ok? then Pass else Fail(Failed(LuksOpen(partition, name)));
  }

  // ---- The mounted target ----

  /** Wait for the devices, and open the container when encrypted. */
  method OpenTarget(m: Machine, partition: string, encryption: Encryption, passphrase: Option<string>, ghost since: Stretch)
    returns (r: Outcome<InstallError>)
    requires since.start == m.trace && since.passphrase == OrDefault(passphrase)
    modifies m`trace, m`keyfile, m`mapped
    ensures Quiet(since, m.trace) && !Leaked(m.trace, since.From()) && Stuck(m.trace, since.From()) == {}
    ensures Holding(m.trace, since.From()) <==> r.Pass? && encryption.IsEncrypted()
    ensures m.mapped == if r.Pass? && encryption.IsEncrypted() then old(m.mapped) + {LUKS_NAME} else old(m.mapped)
    ensures r.Pass? && encryption.IsEncrypted() ==>
      LUKS_NAME !in old(m.mapped) && DoneSince(m.trace, since.From(), LuksOpen(partition, LUKS_NAME))
    ensures
      if r.Pass? then KeyTidy(old(m.keyfile), m.keyfile, m.trace, since.From()) else Blamed(r.error, m.trace, since.From())
  {
    hide Quiet, Seen, Holding, Leaked, Stuck;
    Beginning(since);
    r := Must(m, EnsureDevices, since);
    if r.Pass? && encryption.IsEncrypted() {
      r := OpenLuksRootAs(m, partition, OrDefault(passphrase), LUKS_NAME, since);
    }
  }

  /** Mount the target root, through its LUKS container when encrypted. */
  method MountTarget(m: Machine, partition: string, encryption: Encryption, passphrase: Option<string>, ghost since: Stretch)
    returns (r: Outcome<InstallError>)
    requires since.start == m.trace && since.passphrase == OrDefault(passphrase)
    modifies m`trace, m`keyfile, m`mapped, m`mounts
    ensures Quiet(since, m.trace) && Stuck(m.trace, since.From()) == {}
    ensures r.Pass? ==> m.mounts == old(m.mounts) + [TargetRoot] && !Leaked(m.trace, since.From())
    ensures r.Pass? ==> Holding(m.trace, since.From())
    ensures r.Pass? ==> m.mapped == if encryption.IsEncrypted() then old(m.mapped) + {LUKS_NAME} else old(m.mapped)
    ensures r.Pass? && encryption.IsEncrypted() ==>
      LUKS_NAME !in old(m.mapped) && DoneSince(m.trace, since.From(), LuksOpen(partition, LUKS_NAME))
    ensures r.Fail? ==> m.mounts == old(m.mounts) && (m.mapped == old(m.mapped) <==> !Leaked(m.trace, since.From()))
    ensures r.Fail? && !encryption.IsEncrypted() ==> !Holding(m.trace, since.From())
    ensures
      if r.Pass? then KeyTidy(old(m.keyfile), m.keyfile, m.trace, since.From()) else Blamed(r.error, m.trace, since.From())
  {
    hide Quiet, Seen, Holding, Leaked, Stuck, Finds;
    :- OpenTarget(m, partition, encryption, passphrase, since);
    :- Must(m, MakeDir(MountBase), since);
    var exit := MountIn(m, TargetRoot, since);
    r := if exit.Ok? then Pass else Fail(Failed(Mount(TargetRoot)));
  }

  /** The target root, mounted over `base`, and mounts inside it. */
  ghost predicate TargetTree(base: seq<MountPoint>, mounts: seq<MountPoint>) {
    && base <= mounts && |base| < |mounts| && mounts[|base|] == TargetRoot
    && forall l :: |base| < l < |mounts| ==> Below(mounts[l], TargetRoot)
  }

  /** What a successful unmount at `k` takes out of a target tree. */
  lemma UnmountInTree(base: seq<MountPoint>, mounts: seq<MountPoint>, point: MountPoint, k: nat)
    requires TargetTree(base, mounts) && (point == TargetRoot || Below(point, TargetRoot))
    requires k < |mounts| && mounts[k] == point && forall l :: k < l < |mounts| ==> !Related(mounts[l], point)
    ensures point == TargetRoot ==> mounts[..k] + mounts[k + 1..] == base
    ensures point != TargetRoot ==> TargetTree(base, mounts[..k] + mounts[k + 1..])
  {
    assert k >= |base|;
    if point == TargetRoot {
      assert k == |base|;
      assert k + 1 < |mounts| ==> Related(mounts[k + 1], TargetRoot);
    }
  }

  /** Unmount something in the target tree. */
  method UnmountIn(m: Machine, point: MountPoint, ghost base: seq<MountPoint>, ghost since: Stretch) returns (exit: Exit)
    requires Quiet(since, m.trace)
    requires TargetTree(base, m.mounts) && (point == TargetRoot || Below(point, TargetRoot))
    modifies m`trace, m`mounts
    ensures Step(since, old(m.trace), old(m.Next(Unmount(point), exit)), m.trace)
    ensures exit.Ok? && point == TargetRoot ==> m.mounts == base
    ensures !exit.Ok? || point != TargetRoot ==> TargetTree(base, m.mounts)
  {
    ghost var t, e := m.trace, m.Next(Unmount(point), Ok);
    ghost var was := m.mounts;
    exit := m.UnmountAt(point);
    StepOne(since, t, e.(exit := exit));
    if exit.Ok? {
      ghost var k :| 0 <= k < |was| && was[k] == point && (forall l :: k < l < |was| ==> !Related(was[l], point))
        && m.mounts == was[..k] + was[k + 1..];
      UnmountInTree(base, was, point, k);
    }
  }

  /** Unmount the target and close its container; both are checked. */
  method UnmountTarget(m: Machine, encryption: Encryption, ghost base: seq<MountPoint>, ghost since: Stretch)
    returns (r: Outcome<InstallError>)
    requires Quiet(since, m.trace) && m.mounts == base + [TargetRoot]
    modifies m`trace, m`mapped, m`mounts
    ensures Quiet(since, m.trace) && Keeps(old(m.trace), m.trace, since.From())
    ensures r.Pass? ==> m.mounts == base
    ensures r.Pass? ==> m.mapped == if encryption.IsEncrypted() then old(m.mapped) - {LUKS_NAME} else old(m.mapped)
    ensures r.Fail? ==> m.mapped == old(m.mapped) && (m.mounts != base || encryption.IsEncrypted())
    ensures Leaked(m.trace, since.From()) <==>
      Leaked(old(m.trace), since.From()) || (r.Fail? && Holding(old(m.trace), since.From()))
    ensures r.Fail? ==> Blamed(r.error, m.trace, since.From())
    ensures r.Pass? ==> Stuck(m.trace, since.From()) == Stuck(old(m.trace), since.From())
  {
    hide Quiet, Seen, Holding, Leaked, Stuck;
    var exit := UnmountIn(m, TargetRoot, base, since);
    if !exit.Ok? {
      return Fail(Failed(Unmount(TargetRoot)));
    }
    if encryption.IsEncrypted() {
      var closed := CloseIn(m, LUKS_NAME, since);
      if !closed.Ok? {
        return Fail(Failed(LuksClose(LUKS_NAME)));
      }
    }
    var _ := Try(m, RemoveDir, since);
    r := Pass;
  }

  // ---- Enrolment ----

  /** The command that enrols the unlock mechanism. */
  function EnrollCmd(partition: string, encryption: Encryption, key: string): Cmd {
    if encryption.Tpm? then EnrollTpm(partition) else LuksAddKey(partition, key)
  }

  predicate IsEnrolment(error: InstallError) {
    error.Failed? && (error.cmd.EnrollTpm? || error.cmd.LuksAddKey?)
  }

  function CrypttabFor(encryption: Encryption): Content {
    if encryption.Tpm? then CrypttabTpm else CrypttabKeyfile
  }

  /** The mechanism's own files. */
  ghost predicate MechanismFiles(files: map<TargetFile, Content>, encryption: Encryption, key: string) {
    && HasFile(files, Crypttab, CrypttabFor(encryption))
    && (encryption.Keyfile? ==>
          HasFile(files, LuksKeyfile, RandomKey(key)) && HasFile(files, DracutKeyfileConf, IncludeKeyfile))
  }

  /** The files dracut must find, with their contents. */
  ghost predicate FilesForDracut(files: map<TargetFile, Content>, encryption: Encryption, key: string) {
    MechanismFiles(files, encryption, key) && HasFile(files, DracutCryptConf, ForceCryptModule)
  }

  lemma SameFilesForDracut(a: map<TargetFile, Content>, b: map<TargetFile, Content>, encryption: Encryption, key: string)
    requires FilesForDracut(a, encryption, key) && SameCryptFiles(a, b)
    ensures FilesForDracut(b, encryption, key)
  {
  }

  /** The unlock mechanism is enrolled, and a key file is closed to readers. */
  ghost predicate Enrolled(trace: seq<Entry>, from: nat, partition: string, encryption: Encryption, key: string) {
    && DoneSince(trace, from, EnrollCmd(partition, encryption, key))
    && (encryption.Keyfile? ==> DoneSince(trace, from, SetMode(LuksKeyfile)))
  }

  lemma EnrolledLater(t0: seq<Entry>, t1: seq<Entry>, from: nat, partition: string, encryption: Encryption, key: string)
    requires Enrolled(t0, from, partition, encryption, key) && Keeps(t0, t1, from)
    ensures Enrolled(t1, from, partition, encryption, key)
  {
    hide Seen;
  }

  method EnrollTpmMethod(m: Machine, partition: string, passphrase: string, ghost since: Stretch)
    returns (r: Outcome<InstallError>)
    requires since.passphrase == passphrase
    requires TargetRoot in m.mounts && Quiet(since, m.trace)
    modifies m`trace, m`keyfile, m`files
    ensures Quiet(since, m.trace) && Accounted(old(m.trace), m.trace, since.From(), r)
    ensures Keeps(old(m.trace), m.trace, since.From())
    ensures r.Pass? ==> DoneSince(m.trace, since.From(), EnrollTpm(partition))
    ensures r.Pass? ==> KeyTidy(None, m.keyfile, m.trace, since.From())
    ensures r.Fail? && IsEnrolment(r.error) ==> m.keyfile == Some(passphrase)
    ensures r.Pass? ==> m.files == old(m.files)[Crypttab := CrypttabTpm]
  {
    hide Quiet, Seen, Holding, Leaked, Stuck;
    :- MakeKeyIn(m, passphrase, since);
    :- Must(m, EnrollTpm(partition), since);
    RemoveKeyIn(m, since);
    r := MustWrite(m, Crypttab, CrypttabTpm, since);
  }

  /** Both keyfiles luksAddKey reads. */
  method MakeKeyfiles(m: Machine, passphrase: string, ghost since: Stretch) returns (r: Outcome<InstallError>)
    requires since.passphrase == passphrase
    requires Quiet(since, m.trace)
    modifies m`trace, m`keyfile
    ensures Quiet(since, m.trace) && Accounted(old(m.trace), m.trace, since.From(), r)
    ensures Keeps(old(m.trace), m.trace, since.From())
    ensures if r.Pass? then m.keyfile == Some(passphrase) else !IsEnrolment(r.error)
  {
    hide Quiet, Seen, Holding, Leaked, Stuck, Finds;
    :- MakeKeyIn(m, passphrase, since);
    r := Must(m, MakeNewKeyfile, since);
  }

  /** luksAddKey; the passphrase file is removed only after it succeeded. */
  method AddKey(m: Machine, partition: string, passphrase: string, key: string, ghost since: Stretch)
    returns (r: Outcome<InstallError>)
    requires Quiet(since, m.trace) && since.passphrase == passphrase && m.keyfile == Some(passphrase)
    modifies m`trace, m`keyfile
    ensures Quiet(since, m.trace) && Accounted(old(m.trace), m.trace, since.From(), r)
    ensures Keeps(old(m.trace), m.trace, since.From())
    ensures r.Pass? ==> DoneSince(m.trace, since.From(), LuksAddKey(partition, key))
    ensures if r.Pass? then KeyTidy(None, m.keyfile, m.trace, since.From()) else m.keyfile == Some(passphrase)
  {
    hide Quiet, Seen, Holding, Leaked, Stuck, Finds;
    :- Must(m, LuksAddKey(partition, key), since);
    RemoveKeyIn(m, since);
    r := Pass;
  }

  /** Add a random key to the container. */
  method AddRandomKey(m: Machine, partition: string, passphrase: string, key: string, ghost since: Stretch)
    returns (r: Outcome<InstallError>)
    requires since.passphrase == passphrase
    requires Quiet(since, m.trace)
    modifies m`trace, m`keyfile
    ensures Quiet(since, m.trace) && Accounted(old(m.trace), m.trace, since.From(), r)
    ensures Keeps(old(m.trace), m.trace, since.From())
    ensures r.Pass? ==> DoneSince(m.trace, since.From(), LuksAddKey(partition, key))
    ensures r.Pass? ==> KeyTidy(None, m.keyfile, m.trace, since.From())
    ensures r.Fail? && IsEnrolment(r.error) ==> m.keyfile == Some(passphrase)
  {
    hide Quiet, Seen, Holding, Leaked, Stuck, Finds;
    :- Must(m, ReadRandom, since);
    :- MakeKeyfiles(m, passphrase, since);
    r := AddKey(m, partition, passphrase, key, since);
  }

  /** Write a file and close it to readers. */
  method WriteClosed(m: Machine, file: TargetFile, content: Content, ghost since: Stretch) returns (r: Outcome<InstallError>)
    requires TargetRoot in m.mounts && Quiet(since, m.trace)
    modifies m`trace, m`files
    ensures Quiet(since, m.trace) && Accounted(old(m.trace), m.trace, since.From(), r)
    ensures r.Fail? ==> !IsEnrolment(r.error)
    ensures Keeps(old(m.trace), m.trace, since.From())
    ensures r.Pass? ==> DoneSince(m.trace, since.From(), SetMode(file)) && m.files == old(m.files)[file := content]
  {
    hide Quiet, Seen, Holding, Leaked, Stuck, Finds, SameCryptFiles, IsCryptFile;
    :- MustWrite(m, file, content, since);
    r := Must(m, SetMode(file), since);
  }

  /** Install the key in the target, closed to readers. */
  method PlaceKey(m: Machine, key: string, ghost since: Stretch) returns (r: Outcome<InstallError>)
    requires TargetRoot in m.mounts && Quiet(since, m.trace)
    modifies m`trace, m`files
    ensures Quiet(since, m.trace) && Accounted(old(m.trace), m.trace, since.From(), r)
    ensures r.Fail? ==> !IsEnrolment(r.error)
    ensures Keeps(old(m.trace), m.trace, since.From())
    ensures r.Pass? ==> DoneSince(m.trace, since.From(), SetMode(LuksKeyfile))
    ensures r.Pass? ==> m.files == old(m.files)[LuksKeyfile := RandomKey(key)]
  {
    hide Quiet, Seen, Holding, Leaked, Stuck, Finds;
    :- Must(m, MakeDir(LuksDir), since);
    r := WriteClosed(m, LuksKeyfile, RandomKey(key), since);
  }

  /** Install the key and point crypttab and dracut at it. */
  method InstallRandomKey(m: Machine, key: string, ghost since: Stretch) returns (r: Outcome<InstallError>)
    requires TargetRoot in m.mounts && Quiet(since, m.trace)
    modifies m`trace, m`files
    ensures Quiet(since, m.trace) && Accounted(old(m.trace), m.trace, since.From(), r)
    ensures r.Fail? ==> !IsEnrolment(r.error)
    ensures Keeps(old(m.trace), m.trace, since.From())
    ensures r.Pass? ==> DoneSince(m.trace, since.From(), SetMode(LuksKeyfile))
    ensures r.Pass? ==>
      m.files == old(m.files)[LuksKeyfile := RandomKey(key)][Crypttab := CrypttabKeyfile][DracutKeyfileConf := IncludeKeyfile]
  {
    hide Quiet, Seen, Holding, Leaked, Stuck;
    :- PlaceKey(m, key, since);
    var _ := Try(m, RemoveNewKeyfile, since);
    :- MustWrite(m, Crypttab, CrypttabKeyfile, since);
    r := MustWrite(m, DracutKeyfileConf, IncludeKeyfile, since);
  }

  method EnrollUnlockMechanism(m: Machine, partition: string, encryption: Encryption, passphrase: string, key: string,
                               ghost since: Stretch)
    returns (r: Outcome<InstallError>)
    requires since.passphrase == passphrase
    requires encryption.IsEncrypted() && TargetRoot in m.mounts && Quiet(since, m.trace)
    modifies m`trace, m`keyfile, m`files
    ensures Quiet(since, m.trace) && Accounted(old(m.trace), m.trace, since.From(), r)
    ensures Keeps(old(m.trace), m.trace, since.From())
    ensures r.Pass? ==> Enrolled(m.trace, since.From(), partition, encryption, key)
    ensures r.Pass? ==> MechanismFiles(m.files, encryption, key)
    ensures r.Pass? ==> KeyTidy(None, m.keyfile, m.trace, since.From())
    ensures r.Fail? && IsEnrolment(r.error) ==> m.keyfile == Some(passphrase)
  {
    hide Quiet, Seen, Holding, Leaked, Stuck;
    if encryption.Tpm? {
      r := EnrollTpmMethod(m, partition, passphrase, since);
    } else {
      :- AddRandomKey(m, partition, passphrase, key, since);
      r := InstallRandomKey(m, key, since);
    }
  }

  /** `enroll_and_configure_encryption`: enrol the unlock mechanism and write what dracut must find. */
  method EnrollAndConfigure(m: Machine, partition: string, encryption: Encryption, passphrase: string, key: string,
                            ghost since: Stretch)
    returns (r: Outcome<InstallError>)
    requires since.passphrase == passphrase
    requires TargetRoot in m.mounts && Quiet(since, m.trace)
    modifies m`trace, m`keyfile, m`files
    ensures Quiet(since, m.trace) && Keeps(old(m.trace), m.trace, since.From())
    ensures !encryption.IsEncrypted() ==> r == Fail(EncryptionNotEnabled)
    ensures !encryption.IsEncrypted() ==> m.trace == old(m.trace) && m.files == old(m.files)
    ensures encryption.IsEncrypted() ==> Accounted(old(m.trace), m.trace, since.From(), r)
    ensures r.Pass? ==> KeyTidy(old(m.keyfile), m.keyfile, m.trace, since.From())
    // A failed enrolment leaves the passphrase behind.
    ensures r.Fail? && IsEnrolment(r.error) ==> m.keyfile == Some(passphrase)
    ensures r.Pass? ==> Enrolled(m.trace, since.From(), partition, encryption, key)
    ensures r.Pass? ==> FilesForDracut(m.files, encryption, key)
  {
    hide Quiet, Seen, Enrolled, Holding, Leaked, Stuck;
    if !encryption.IsEncrypted() {
      return Fail(EncryptionNotEnabled);
    }
    :- EnrollUnlockMechanism(m, partition, encryption, passphrase, key, since);
    ghost var t := m.trace;
    r := ForceCrypt(m, since);
    if r.Pass? {
      EnrolledLater(t, m.trace, since.From(), partition, encryption, key);
    }
  }

  /** Tell dracut to include the crypt module. */
  method ForceCrypt(m: Machine, ghost since: Stretch) returns (r: Outcome<InstallError>)
    requires TargetRoot in m.mounts && Quiet(since, m.trace)
    modifies m`trace, m`files
    ensures Quiet(since, m.trace) && Accounted(old(m.trace), m.trace, since.From(), r)
    ensures r.Fail? ==> !IsEnrolment(r.error)
    ensures Keeps(old(m.trace), m.trace, since.From())
    ensures r.Pass? ==> m.files == old(m.files)[DracutCryptConf := ForceCryptModule]
  {
    hide Quiet, Seen, Holding, Leaked, Stuck;
    :- Must(m, MakeDir(DracutConfDir), since);
    r := MustWrite(m, DracutCryptConf, ForceCryptModule, since);
  }
}
