/** The install pipeline (`ui/run.rs` `run_full_install`, `run.rs` `run_auto`):
    what may happen when, whichever commands fail. */
module Install {
  import opened Wrappers
  import opened Bytes
  import opened Progress
  import opened Splice
  import opened Machine
  import opened Luks
  import opened DiskWriter
  import opened BootConfig
  import opened Writer
  import opened PartitionPaths
  import opened Fstab

  /** What was decided before the install, the identifiers the new filesystems get,
      and the state the install began in. */
  datatype Plan = Plan(job: Job, key: string, uuids: Uuids, images: map<string, seq<byte>>, disk: nat, checkMedia: bool,
                       start: Resources, devices: map<string, seq<byte>>)

  // ---- The rules ----

  /** The images are all there and fit on the disk. */
  predicate Fits(images: map<string, seq<byte>>, manifest: seq<PartitionEntry>, disk: nat) {
    AllPresent(images, manifest) && SumSizes(images, manifest) <= disk
  }

  /** All bytes of all images, in manifest order. */
  function AllBytes(images: map<string, seq<byte>>, manifest: seq<PartitionEntry>): seq<byte>
    requires AllPresent(images, manifest)
  {
    if manifest == [] then []
    else AllBytes(images, manifest[..|manifest| - 1]) + images[manifest[|manifest| - 1].image]
  }

  predicate Preliminary(cmd: Cmd) {
    cmd.StatImage? || cmd.SizeCheck? || cmd.MediaCheck?
  }

  ghost predicate SizeChecked(before: seq<Entry>, plan: Plan) {
    && Fits(plan.images, plan.job.manifest, plan.disk)
    && Done(before, SizeCheck(SumSizes(plan.images, plan.job.manifest), plan.disk))
  }

  ghost predicate MediaChecked(before: seq<Entry>, plan: Plan) {
    && AllPresent(plan.images, plan.job.manifest)
    && Done(before, MediaCheck(AllBytes(plan.images, plan.job.manifest)))
  }

  ghost predicate Checked(before: seq<Entry>, plan: Plan) {
    SizeChecked(before, plan) && (plan.checkMedia ==> MediaChecked(before, plan))
  }

  /** The size check compares the real sizes, and only passes if the images fit. */
  predicate TrueSizes(e: Entry, plan: Plan) {
    && AllPresent(plan.images, plan.job.manifest)
    && e.cmd == SizeCheck(SumSizes(plan.images, plan.job.manifest), plan.disk)
    && (e.exit.Ok? <==> Fits(plan.images, plan.job.manifest, plan.disk))
  }

  /** The command that enrols the unlock mechanism of this install. */
  function Enrolment(plan: Plan): Cmd {
    EnrollCmd(PartitionPath(plan.job.target, 3), plan.job.encryption, plan.key)
  }

  /** dracut sees the temporary fstab, and the container under its production name
      only; with a passphrase, the mechanism is enrolled and every file it needs
      has its contents. */
  ghost predicate DracutRule(before: seq<Entry>, e: Entry, plan: Plan) {
    var encryption := plan.job.encryption;
    e.cmd.Dracut? ==>
      && HasFile(e.files, Fstab, DracutFstab(encryption, plan.uuids))
      && (encryption.IsEncrypted() ==> BOOT_NAME in e.mapped)
      && (plan.job.passphrase.Some? ==>
            && encryption.IsEncrypted() && LUKS_NAME !in e.mapped
            && Done(before, Enrolment(plan)) && FilesForDracut(e.files, encryption, plan.key))
  }

  /** What may be done after `before`. */
  ghost predicate Allowed(before: seq<Entry>, e: Entry, plan: Plan) {
    // Until the checks have passed, nothing but the checks, and those are true.
    && (!e.cmd.StatImage? && !e.cmd.SizeCheck? ==> SizeChecked(before, plan))
    && (!Preliminary(e.cmd) ==> Checked(before, plan))
    && (e.cmd.SizeCheck? ==> TrueSizes(e, plan))
    && (e.cmd.MediaCheck? && e.exit.Ok? ==>
          AllPresent(plan.images, plan.job.manifest) && e.cmd.read == AllBytes(plan.images, plan.job.manifest))
    // Images go to their own devices, a root image of an encrypted install into the fresh container only.
    && ImageRule(before, e, plan.job)
    && DracutRule(before, e, plan)
    // Every LUKS step is given the passphrase of the session.
    && (e.cmd.MakeKeyfile? ==> e.cmd.passphrase == OrDefault(plan.job.passphrase))
    && (NeedsKey(e.cmd) ==> e.keyfile == Some(OrDefault(plan.job.passphrase)))
    // What works on the mounted target finds it mounted.
    && (OnTarget(e.cmd) ==> e.mounted)
  }

  ghost predicate Safe(t: seq<Entry>, plan: Plan) {
    forall i :: 0 <= i < |t| ==> Allowed(t[..i], t[i], plan)
  }

  // ---- Keeping the rules, stretch by stretch ----

  lemma SafeFront(t0: seq<Entry>, t1: seq<Entry>, plan: Plan)
    requires t0 <= t1 && Safe(t0, plan)
    ensures forall i :: 0 <= i < |t0| ==> Allowed(t1[..i], t1[i], plan)
  {
    hide Allowed;
    forall i | 0 <= i < |t0|
      ensures Allowed(t1[..i], t1[i], plan)
    {
      assert t1[..i] == t0[..i] && t1[i] == t0[i];
    }
  }

  lemma SafeSoFar(t: seq<Entry>, plan: Plan)
    requires t != [] && forall i :: 0 <= i < |t| - 1 ==> Allowed(t[..i], t[i], plan)
    requires Allowed(t[..|t| - 1], t[|t| - 1], plan)
    ensures Safe(t, plan)
  {
    hide Allowed;
  }

  lemma CheckedLater(t0: seq<Entry>, t1: seq<Entry>, plan: Plan)
    requires t0 <= t1
    ensures SizeChecked(t0, plan) ==> SizeChecked(t1, plan)
    ensures Checked(t0, plan) ==> Checked(t1, plan)
  {
    hide Seen, Fits, SumSizes, AllBytes, AllPresent;
    if SizeChecked(t0, plan) {
      FitsMeans(plan.images, plan.job.manifest, plan.disk);
      SeenLater(t0, t1, 0, SizeCheck(SumSizes(plan.images, plan.job.manifest), plan.disk), true);
    }
    if MediaChecked(t0, plan) {
      SeenLater(t0, t1, 0, MediaCheck(AllBytes(plan.images, plan.job.manifest)), true);
    }
  }

  lemma FitsMeans(images: map<string, seq<byte>>, manifest: seq<PartitionEntry>, disk: nat)
    requires Fits(images, manifest, disk)
    ensures AllPresent(images, manifest) && SumSizes(images, manifest) <= disk
  {
  }

  /** Whatever else fails later: a command that is no check comes only after true checks. */
  lemma ChecksComeFirst(t: seq<Entry>, plan: Plan, i: nat)
    requires Safe(t, plan) && i < |t| && !Preliminary(t[i].cmd)
    ensures Fits(plan.images, plan.job.manifest, plan.disk) && Checked(t[..i], plan)
  {
    hide Done, ImageRule, DracutRule, Fits;
    assert Allowed(t[..i], t[i], plan);
  }

  /** Safe, and past the checks. */
  ghost predicate Ready(t: seq<Entry>, plan: Plan) {
    Safe(t, plan) && Checked(t, plan)
  }

  /** A quiet stretch keeps the rules; with dracut in it, if its own conditions hold at the start. */
  lemma ReadyAfterQuiet(since: Stretch, t1: seq<Entry>, plan: Plan)
    requires Ready(since.start, plan) && Quiet(since, t1) && since.passphrase == OrDefault(plan.job.passphrase)
    requires since.dracut.Some? ==> DracutPrepared(since.start, since.dracut.value, plan)
    ensures Ready(t1, plan)
  {
    hide Seen, Allowed, Checked, DracutPrepared, QuietEntry;
    var t0 := since.start;
    CheckedLater(t0, t1, plan);
    SafeFront(t0, t1, plan);
    forall i | |t0| <= i < |t1|
      ensures Allowed(t1[..i], t1[i], plan)
    {
      CheckedLater(t0, t1[..i], plan);
      QuietAllowed(t0, t1[..i], t1[i], since.dracut, plan);
    }
  }

  lemma QuietAllowed(t0: seq<Entry>, before: seq<Entry>, e: Entry, dracut: Option<DracutView>, plan: Plan)
    requires t0 <= before && Checked(before, plan) && QuietEntry(e, dracut, OrDefault(plan.job.passphrase))
    requires dracut.Some? ==> DracutPrepared(t0, dracut.value, plan)
    ensures Allowed(before, e, plan)
  {
    hide Seen, Fits, MediaChecked, FilesForDracut, SameCryptFiles, Enrolment, DracutFstab, TrueSizes;
    if e.cmd.Dracut? && plan.job.passphrase.Some? {
      SeenLater(t0, before, 0, Enrolment(plan), true);
      SameFilesForDracut(dracut.value.files, e.files, plan.job.encryption, plan.key);
    }
  }

  lemma ReadyAfterWriting(t0: seq<Entry>, t1: seq<Entry>, plan: Plan)
    requires Ready(t0, plan) && WritingImages(t0, t1, plan.job)
    ensures Ready(t1, plan)
  {
    hide Seen, Checked, Allowed, ImageRule, QuietEntry;
    CheckedLater(t0, t1, plan);
    SafeFront(t0, t1, plan);
    forall i | |t0| <= i < |t1|
      ensures Allowed(t1[..i], t1[i], plan)
    {
      CheckedLater(t0, t1[..i], plan);
      assert ImageRule(t1[..i], t1[i], plan.job);
      if t1[i].cmd.WriteImage? {
        WriteAllowed(t1[..i], t1[i], plan);
      } else {
        QuietAllowed(t0, t1[..i], t1[i], None, plan);
      }
    }
  }

  lemma WriteAllowed(before: seq<Entry>, e: Entry, plan: Plan)
    requires Checked(before, plan) && e.cmd.WriteImage? && ImageRule(before, e, plan.job)
    ensures Allowed(before, e, plan)
  {
    hide Seen, Fits, MediaChecked, ImageRule;
  }

  // ---- Progress of an install ----

  /** Orderly reports, none of a phase later than `phase`. */
  predicate UpTo(sent: seq<Snapshot>, phase: InstallPhase) {
    Orderly(sent) && forall i :: 0 <= i < |sent| ==> BarEnd(sent[i].phase) <= BarEnd(phase)
  }

  lemma NextPhase(sent: seq<Snapshot>, phase: InstallPhase, next: InstallPhase)
    requires UpTo(sent, phase) && BarEnd(phase) <= BarStart(next)
    ensures UpTo(sent + [Snapshot(0, None, next)], next)
  {
  }

  /** The root filesystem fills its partition, through its container when encrypted. */
  ghost predicate Grown(t: seq<Entry>, from: nat, job: Job) {
    && DoneSince(t, from, BtrfsResize)
    && (job.encryption.IsEncrypted() ==>
          DoneSince(t, from, LuksOpen(PartitionPath(job.target, 3), LUKS_NAME)) && DoneSince(t, from, LuksResize(LUKS_NAME)))
  }

  /** Step `n` of the steps every successful install completes, since `from`. */
  ghost predicate StepSince(t: seq<Entry>, from: nat, plan: Plan, n: nat) {
    && (n == 1 ==> ImagesDone(t, from, plan.job, |plan.job.manifest|))
    && (n == 2 ==> Grown(t, from, plan.job))
    && (n == 3 ==> DoneSince(t, from, Tune2fs) && DoneSince(t, from, BtrfsTune))
    && (n == 4 && plan.job.passphrase.Some? ==> DoneSince(t, from, Enrolment(plan)))
    && (n == 5 ==> DoneSince(t, from, Dracut) && DoneSince(t, from, UpdateGrub))
    && (n == 6 ==> DoneSince(t, from, VerifyTable))
    && (n == 7 ==> DoneSince(t, from, ApplyConfig))
  }

  /** The first `n` steps, each after the one before it. */
  ghost predicate StepsDone(t: seq<Entry>, plan: Plan, n: nat)
    decreases n
  {
    n > 0 ==> exists k :: 0 <= k <= |t| && StepsDone(t[..k], plan, n - 1) && StepSince(t, k, plan, n)
  }

  /** The rules were kept, the first `n` steps are done, and what was taken is given back
      but for what could not be. */
  ghost predicate Underway(t: seq<Entry>, now: Resources, plan: Plan, n: nat) {
    Ready(t, plan) && StepsDone(t, plan, n) && Tidy(plan.start, now, t, 0, plan.job.encryption)
  }

  lemma StepMeans(t: seq<Entry>, from: nat, plan: Plan)
    ensures StepSince(t, from, plan, 1) <==> ImagesDone(t, from, plan.job, |plan.job.manifest|)
    ensures StepSince(t, from, plan, 2) <==> Grown(t, from, plan.job)
    ensures StepSince(t, from, plan, 3) <==> DoneSince(t, from, Tune2fs) && DoneSince(t, from, BtrfsTune)
    ensures StepSince(t, from, plan, 4) <==> (plan.job.passphrase.Some? ==> DoneSince(t, from, Enrolment(plan)))
    ensures StepSince(t, from, plan, 5) <==> DoneSince(t, from, Dracut) && DoneSince(t, from, UpdateGrub)
    ensures StepSince(t, from, plan, 6) <==> DoneSince(t, from, VerifyTable)
    ensures StepSince(t, from, plan, 7) <==> DoneSince(t, from, ApplyConfig)
  {
    hide DoneSince, ImagesDone, Enrolment, Grown;
  }

  lemma StepLater(t0: seq<Entry>, t1: seq<Entry>, from: nat, plan: Plan, n: nat)
    requires t0 <= t1 && StepSince(t0, from, plan, n)
    ensures StepSince(t1, from, plan, n)
  {
    hide Seen, Enrolment, ImageWrite;
    forall cmd | DoneSince(t0, from, cmd)
      ensures DoneSince(t1, from, cmd)
    {
      SeenLater(t0, t1, from, cmd, true);
    }
  }

  lemma {:induction false} StepsLater(t0: seq<Entry>, t1: seq<Entry>, plan: Plan, n: nat)
    requires t0 <= t1 && StepsDone(t0, plan, n)
    ensures StepsDone(t1, plan, n)
  {
    hide StepSince;
    if n > 0 {
      var k :| 0 <= k <= |t0| && StepsDone(t0[..k], plan, n - 1) && StepSince(t0, k, plan, n);
      assert t1[..k] == t0[..k];
      StepLater(t0, t1, k, plan, n);
    }
  }

  lemma StepTaken(t0: seq<Entry>, t1: seq<Entry>, plan: Plan, n: nat)
    requires t0 <= t1 && StepsDone(t0, plan, n) && StepSince(t1, |t0|, plan, n + 1)
    ensures StepsDone(t1, plan, n + 1)
  {
    hide StepSince;
    assert t1[..|t0|] == t0;
  }

  lemma MountsTogether(a: seq<MountPoint>, b: seq<MountPoint>, c: seq<MountPoint>, t0: seq<Entry>, t1: seq<Entry>)
    requires t0 <= t1 && MountsTidy(a, b, t0, 0) && MountsTidy(b, c, t1, |t0|)
    ensures MountsTidy(a, c, t1, 0)
  {
    hide Stuck;
    StuckSum(t0, t1, 0);
  }

  lemma MappedTogether(a: set<string>, b: set<string>, c: set<string>, t0: seq<Entry>, t1: seq<Entry>, encryption: Encryption)
    requires t0 <= t1 && MappedTidy(a, b, t0, 0, encryption) && MappedTidy(b, c, t1, |t0|, encryption)
    ensures MappedTidy(a, c, t1, 0, encryption)
  {
    hide Stuck;
    StuckSum(t0, t1, 0);
  }

  lemma KeyTogether(a: Option<string>, b: Option<string>, c: Option<string>, t0: seq<Entry>, t1: seq<Entry>)
    requires t0 <= t1 && KeyTidy(a, b, t0, 0) && KeyTidy(b, c, t1, |t0|)
    ensures KeyTidy(a, c, t1, 0)
  {
    hide Seen;
    if FailedSince(t0, 0, RemoveKeyfile) {
      SeenLater(t0, t1, 0, RemoveKeyfile, false);
    }
    if FailedSince(t1, |t0|, RemoveKeyfile) {
      SeenSooner(t1, |t0|, 0, RemoveKeyfile, false);
    }
  }

  /** One tidy stretch after another is tidy. */
  lemma TidyTogether(a: Resources, b: Resources, c: Resources, t0: seq<Entry>, t1: seq<Entry>, encryption: Encryption)
    requires t0 <= t1 && Tidy(a, b, t0, 0, encryption) && Tidy(b, c, t1, |t0|, encryption)
    ensures Tidy(a, c, t1, 0, encryption)
  {
    hide MountsTidy, MappedTidy, KeyTidy;
    MountsTogether(a.mounts, b.mounts, c.mounts, t0, t1);
    MappedTogether(a.mapped, b.mapped, c.mapped, t0, t1, encryption);
    KeyTogether(a.keyfile, b.keyfile, c.keyfile, t0, t1);
  }

  /** Everything given back, and nothing failed to be. */
  lemma TidyMeans(now: Resources, t: seq<Entry>, from: nat, encryption: Encryption)
    requires Stuck(t, from) == {}
    ensures Tidy(now, now, t, from, encryption)
  {
    hide Stuck, Seen;
  }

  /** dracut may run on what it then finds. */
  ghost predicate DracutPrepared(t: seq<Entry>, view: DracutView, plan: Plan) {
    var encryption := plan.job.encryption;
    && view.fstab == DracutFstab(encryption, plan.uuids)
    && (encryption.IsEncrypted() ==> BOOT_NAME in view.mapped)
    && (plan.job.passphrase.Some? ==>
          && encryption.IsEncrypted() && LUKS_NAME !in view.mapped
          && Done(t, Enrolment(plan)) && FilesForDracut(view.files, encryption, plan.key))
  }

  /** A stage that was one quiet stretch: the rules hold after it, and if it took its
      step and was tidy, the install is that much further. */
  lemma StageOver(since: Stretch, before: Resources, t1: seq<Entry>, after: Resources, plan: Plan, n: nat, to: nat)
    requires Underway(since.start, before, plan, n) && Quiet(since, t1)
    requires since.passphrase == OrDefault(plan.job.passphrase)
    requires since.dracut.Some? ==> DracutPrepared(since.start, since.dracut.value, plan)
    ensures Safe(t1, plan) && since.start <= t1
    ensures (to == n || (to == n + 1 && StepSince(t1, since.From(), plan, to)))
      && Tidy(before, after, t1, since.From(), plan.job.encryption)
      ==> Underway(t1, after, plan, to)
  {
    hide Safe, Checked, StepsDone, StepSince, Seen, DracutPrepared, QuietEntry, Tidy;
    ReadyAfterQuiet(since, t1, plan);
    StepsLater(since.start, t1, plan, n);
    if to == n + 1 && StepSince(t1, since.From(), plan, to) {
      StepTaken(since.start, t1, plan, n);
    }
    if Tidy(before, after, t1, since.From(), plan.job.encryption) {
      TidyTogether(plan.start, before, after, since.start, t1, plan.job.encryption);
    }
  }

  /** The disk is too small for these images. */
  predicate TooSmall(error: InstallError, images: map<string, seq<byte>>, manifest: seq<PartitionEntry>, disk: nat) {
    && AllPresent(images, manifest) && SumSizes(images, manifest) > disk
    && error == DiskTooSmall(SumSizes(images, manifest), disk)
  }

  /** Why an install fails: a command failed, the images do not fit, or there is a
      passphrase without encryption. */
  ghost predicate Explained(error: InstallError, t: seq<Entry>, plan: Plan) {
    || Blamed(error, t, 0)
    || TooSmall(error, plan.images, plan.job.manifest, plan.disk)
    || (error == EncryptionNotEnabled && plan.job.passphrase.Some? && !plan.job.encryption.IsEncrypted())
  }

  /** Errors that come from a call of the kernel while bytes are read or copied. */
  predicate FromKernel(error: InstallError) {
    error.Failed? && (error.cmd.WriteImage? || error.cmd.MediaCheck?)
  }

  /** A command failed that reads and copies no images. */
  ghost predicate Struck(error: InstallError, t: seq<Entry>) {
    Blamed(error, t, 0) && !FromKernel(error)
  }

  /** A failure of a quiet stage is a failure of the install. */
  lemma StageFailed(since: Stretch, t: seq<Entry>, error: InstallError)
    requires Quiet(since, t) && Blamed(error, t, since.From())
    ensures Struck(error, t)
  {
    BlamedSooner(error, t, since.From(), 0);
  }

  lemma WritingFailed(t0: seq<Entry>, t1: seq<Entry>, job: Job, error: InstallError)
    requires WritingImages(t0, t1, job) && Blamed(error, t1, |t0|)
    ensures Blamed(error, t1, 0) && !error.cmd.MediaCheck?
  {
    hide ImageRule;
    BlamedSooner(error, t1, |t0|, 0);
  }

  // ---- The checks ----

  /** The size check: images against disk. It fails only on an image that cannot be asked
      for its size, or on images that do not fit. */
  method CheckDiskSize(m: Machine, ghost plan: Plan, manifest: seq<PartitionEntry>, diskSize: nat)
    returns (r: Outcome<InstallError>)
    requires m.trace == [] && plan.images == m.images && plan.job.manifest == manifest && plan.disk == diskSize
    modifies m`trace
    ensures Safe(m.trace, plan) && Stuck(m.trace, 0) == {}
    ensures r.Pass? ==> SizeChecked(m.trace, plan)
    ensures r.Fail? ==>
      && !FromKernel(r.error)
      && ((Blamed(r.error, m.trace, 0) && r.error.cmd.StatImage?) || TooSmall(r.error, m.images, manifest, diskSize))
  {
    hide Stuck, Safe, SizeChecked, Accounted, SumSizes, AllPresent;
    var total := PartitionImagesTotalSize(m, manifest, true, Stretch([], None, ""));
    SizesAsked(m.trace, plan);
    if total.Failure? {
      return Fail(total.error);
    }
    var enough := total.value <= diskSize;
    ghost var t, e := m.trace, m.Next(SizeCheck(total.value, diskSize), if enough then Ok else ExitFailed);
    m.Record(SizeCheck(total.value, diskSize), if enough then Ok else ExitFailed);
    SizesCompared(t, e, plan);
    r := if enough then Pass else Fail(DiskTooSmall(total.value, diskSize));
  }

  lemma AskingAllowed(before: seq<Entry>, e: Entry, plan: Plan)
    requires e.cmd.StatImage?
    ensures Allowed(before, e, plan)
  {
    hide SizeChecked, Checked, WritesImage, AllPresent, AllBytes;
  }

  lemma SizesAsked(t: seq<Entry>, plan: Plan)
    requires forall i :: 0 <= i < |t| ==> t[i].cmd.StatImage?
    ensures Safe(t, plan) && Stuck(t, 0) == {}
  {
    hide Allowed;
    StuckSame([], t, 0);
    forall i | 0 <= i < |t|
      ensures Allowed(t[..i], t[i], plan)
    {
      AskingAllowed(t[..i], t[i], plan);
    }
  }

  lemma SizesCompared(t: seq<Entry>, e: Entry, plan: Plan)
    requires forall i :: 0 <= i < |t| ==> t[i].cmd.StatImage?
    requires e.cmd.SizeCheck? && TrueSizes(e, plan)
    ensures Safe(t + [e], plan) && Stuck(t + [e], 0) == {}
    ensures e.exit.Ok? ==> SizeChecked(t + [e], plan)
  {
    hide Fits, SumSizes, AllPresent, Stuck, Safe, Checked, WritesImage;
    SizesAsked(t, plan);
    StuckSame(t, t + [e], 0);
    assert (t + [e])[|t|] == e;
    SafeFront(t, t + [e], plan);
    SafeSoFar(t + [e], plan);
  }

  // ---- The media check of the automatic install ----

  /** `image_file_sizes` on images that are all there. */
  function FileSizes(images: map<string, seq<byte>>, manifest: seq<PartitionEntry>): (files: seq<(string, nat)>)
    requires AllPresent(images, manifest)
    ensures |files| == |manifest|
    ensures forall i :: 0 <= i < |files| ==> files[i] == (manifest[i].image, |images[manifest[i].image]|)
  {
    if manifest == [] then []
    else
      var image := manifest[|manifest| - 1].image;
      FileSizes(images, manifest[..|manifest| - 1]) + [(image, |images[image]|)]
  }

  /** With the files' own sizes the integrity check reads every byte of every
      image, as many as `partition_images_total_size` announces. */
  lemma {:induction false} ChecksEveryByte(images: map<string, seq<byte>>, manifest: seq<PartitionEntry>)
    requires AllPresent(images, manifest)
    ensures CheckedBytes(images, FileSizes(images, manifest)) == AllBytes(images, manifest)
    ensures TotalSize(FileSizes(images, manifest)) == SumSizes(images, manifest) == |AllBytes(images, manifest)|
  {
    if manifest != [] {
      var front := manifest[..|manifest| - 1];
      ChecksEveryByte(images, front);
      var files := FileSizes(images, manifest);
      assert files[..|files| - 1] == FileSizes(images, front);
    }
  }

  method ImageFileSizes(m: Machine, manifest: seq<PartitionEntry>, ghost since: Stretch)
    returns (r: Result<seq<(string, nat)>, InstallError>)
    requires Quiet(since, m.trace)
    modifies m`trace
    ensures Quiet(since, m.trace)
    ensures r.Success? ==> AllPresent(m.images, manifest) && r.value == FileSizes(m.images, manifest)
    ensures r.Failure? ==> Blamed(r.error, m.trace, since.From()) && r.error.cmd.StatImage?
    ensures forall i :: |old(m.trace)| <= i < |m.trace| ==> m.trace[i].cmd.StatImage?
  {
    hide Quiet, Seen, Holding, Leaked, Stuck, Keeps, Accounted;
    var files: seq<(string, nat)> := [];
    var i := 0;
    while i < |manifest|
      invariant 0 <= i <= |manifest|
      invariant Quiet(since, m.trace) && |old(m.trace)| <= |m.trace|
      invariant forall i :: |old(m.trace)| <= i < |m.trace| ==> m.trace[i].cmd.StatImage?
      invariant AllPresent(m.images, manifest[..i]) && files == FileSizes(m.images, manifest[..i])
    {
      var exit, size := AskSize(m, manifest[i].image, true, since);
      if !exit.Ok? {
        return Failure(Failed(StatImage(manifest[i].image, true)));
      }
      assert manifest[..i + 1][..i] == manifest[..i];
      files := files + [(manifest[i].image, size)];
      i := i + 1;
    }
    assert manifest[..i] == manifest;
    r := Success(files);
  }

  lemma SafeAfterChecks(t0: seq<Entry>, t1: seq<Entry>, plan: Plan)
    requires Safe(t0, plan) && SizeChecked(t0, plan) && t0 <= t1
    requires forall i :: |t0| <= i < |t1| ==> t1[i].cmd.StatImage? || t1[i].cmd.MediaCheck?
    requires forall i :: |t0| <= i < |t1| && t1[i].cmd.MediaCheck? && t1[i].exit.Ok? ==>
      AllPresent(plan.images, plan.job.manifest) && t1[i].cmd.read == AllBytes(plan.images, plan.job.manifest)
    ensures Safe(t1, plan) && SizeChecked(t1, plan) && Stuck(t1, 0) == Stuck(t0, 0)
  {
    hide SizeChecked, Checked, AllBytes, AllPresent, Stuck;
    StuckSame(t0, t1, 0);
    CheckedLater(t0, t1, plan);
    SafeFront(t0, t1, plan);
    forall i | |t0| <= i < |t1|
      ensures Allowed(t1[..i], t1[i], plan)
    {
      CheckedLater(t0, t1[..i], plan);
    }
  }

  /** `image_file_sizes`, then the integrity check; passing means every byte of every image
      was read, and failing that an image cannot be asked for its size or a call of the kernel failed. */
  method CheckMedia(m: Machine, kernel: Kernel, ghost plan: Plan, manifest: seq<PartitionEntry>)
    returns (r: Outcome<InstallError>)
    requires Safe(m.trace, plan) && SizeChecked(m.trace, plan)
    requires plan.images == m.images && plan.job.manifest == manifest
    modifies m`trace, kernel
    ensures Safe(m.trace, plan) && old(m.trace) <= m.trace && Stuck(m.trace, 0) == Stuck(old(m.trace), 0)
    ensures r.Pass? ==> SizeChecked(m.trace, plan) && MediaChecked(m.trace, plan)
    ensures r.Fail? ==> Blamed(r.error, m.trace, 0) && (r.error.cmd.StatImage? || r.error.cmd.MediaCheck?)
    ensures kernel.failures == old(kernel.failures) + if r.Fail? && FromKernel(r.error) then 1 else 0
  {
    hide Safe, SizeChecked, AllPresent, QuietEntry, Stuck, Seen;
    ghost var t := m.trace;
    ghost var since := Stretch(t, None, "");
    Beginning(since);
    var files := ImageFileSizes(m, manifest, since);
    SafeAfterChecks(t, m.trace, plan);
    if files.Failure? {
      StageFailed(since, m.trace, files.error);
      return Fail(files.error);
    }
    r := ReadMedia(m, kernel, plan, manifest, files.value);
  }

  /** The integrity check, and its verdict. */
  method ReadMedia(m: Machine, kernel: Kernel, ghost plan: Plan, manifest: seq<PartitionEntry>, files: seq<(string, nat)>)
    returns (r: Outcome<InstallError>)
    requires Safe(m.trace, plan) && SizeChecked(m.trace, plan)
    requires plan.images == m.images && plan.job.manifest == manifest
    requires AllPresent(m.images, manifest) && files == FileSizes(m.images, manifest)
    modifies m`trace, kernel
    ensures Safe(m.trace, plan) && old(m.trace) <= m.trace && Stuck(m.trace, 0) == Stuck(old(m.trace), 0)
    ensures r.Pass? ==> SizeChecked(m.trace, plan) && MediaChecked(m.trace, plan)
    ensures r.Fail? ==> Blamed(r.error, m.trace, 0) && r.error.cmd.MediaCheck?
    ensures kernel.failures == old(kernel.failures) + if r.Pass? then 0 else 1
  {
    hide Safe, SizeChecked, AllPresent, Quiet, Stuck;
    ghost var t := m.trace;
    var devNull := new Sink();
    var progress := new Reporter();
    var checked := IntegrityCheck(kernel, m.images, files, devNull, progress);
    ChecksEveryByte(m.images, manifest);
    ghost var e := m.Next(MediaCheck(devNull.written), if checked.Pass? then Ok else ExitFailed);
    m.Record(MediaCheck(devNull.written), if checked.Pass? then Ok else ExitFailed);
    SafeAfterChecks(t, t + [e], plan);
    assert (t + [e])[|t|] == e;
    r := if checked.Pass? then Pass else Fail(Failed(MediaCheck(devNull.written)));
  }

  // ---- The stages ----

  method WriteStage(m: Machine, kernel: Kernel, job: Job, reporter: Reporter, ghost plan: Plan)
    returns (r: Outcome<InstallError>)
    requires Underway(m.trace, ResourcesOf(m), plan, 0) && reporter.sent == [] && plan.job == job
    modifies m`trace, m`keyfile, m`mapped, m`devices, kernel, reporter
    ensures Safe(m.trace, plan) && old(m.trace) <= m.trace && UpTo(reporter.sent, Writing)
    ensures if r.Pass? then Underway(m.trace, ResourcesOf(m), plan, 1) else Blamed(r.error, m.trace, 0)
    ensures kernel.failures == old(kernel.failures) + if r.Fail? && FromKernel(r.error) then 1 else 0
    ensures r.Pass? ==> OnDevices(old(m.devices), m.images, job, m.devices)
  {
    hide WritingImages, Safe, Orderly, OnDevices, SumSizes, AllPresent, Seen, Underway, ImagesDone, Stuck, LeftOpen, KeyTidy,
         Blamed;
    ghost var before, t := ResourcesOf(m), m.trace;
    r := WritePartitions(m, kernel, job, reporter);
    WriteStageOver(t, before, m.trace, ResourcesOf(m), plan);
    if r.Fail? {
      WritingFailed(t, m.trace, job, r.error);
    }
  }

  lemma WriteStageOver(t0: seq<Entry>, before: Resources, t1: seq<Entry>, after: Resources, plan: Plan)
    requires Underway(t0, before, plan, 0) && WritingImages(t0, t1, plan.job) && Stuck(t1, |t0|) == {}
    ensures Safe(t1, plan) && t0 <= t1
    ensures ImagesDone(t1, |t0|, plan.job, |plan.job.manifest|)
      && after.mounts == before.mounts && after.mapped == before.mapped && KeyTidy(before.keyfile, after.keyfile, t1, |t0|)
      ==> Underway(t1, after, plan, 1)
  {
    hide Safe, Checked, Seen, ImageRule, QuietEntry, ImagesDone, StepSince, StepsDone, Stuck, KeyTidy, Tidy;
    ReadyAfterWriting(t0, t1, plan);
    StepMeans(t1, |t0|, plan);
    if ImagesDone(t1, |t0|, plan.job, |plan.job.manifest|) {
      StepTaken(t0, t1, plan, 0);
    }
    if after.mounts == before.mounts && after.mapped == before.mapped && KeyTidy(before.keyfile, after.keyfile, t1, |t0|) {
      TidyButKey(before, after, t1, |t0|, plan.job.encryption);
      TidyTogether(plan.start, before, after, t0, t1, plan.job.encryption);
    }
  }

  lemma TidyButKey(before: Resources, after: Resources, t: seq<Entry>, from: nat, encryption: Encryption)
    requires Stuck(t, from) == {} && after.mounts == before.mounts && after.mapped == before.mapped
    requires KeyTidy(before.keyfile, after.keyfile, t, from)
    ensures Tidy(before, after, t, from, encryption)
  {
    hide Stuck, KeyTidy;
  }

  method ExpandStage(m: Machine, job: Job, ghost plan: Plan) returns (r: Outcome<InstallError>)
    requires plan.job == job && Underway(m.trace, ResourcesOf(m), plan, 1)
    modifies m`trace, m`keyfile, m`mapped, m`mounts
    ensures Safe(m.trace, plan) && old(m.trace) <= m.trace
    ensures if r.Pass? then Underway(m.trace, ResourcesOf(m), plan, 2) else Struck(r.error, m.trace)
  {
    hide Quiet, DoneSince, Seen, Leaked, Safe, Underway, StepSince, DracutPrepared, Tidy, Blamed;
    ghost var before := ResourcesOf(m);
    ghost var since := Stretch(m.trace, None, OrDefault(job.passphrase));
    r := ExpandRootFilesystem(m, job.target, job.encryption, job.passphrase, since);
    StepMeans(m.trace, since.From(), plan);
    StageOver(since, before, m.trace, ResourcesOf(m), plan, 1, 2);
    if r.Fail? {
      StageFailed(since, m.trace, r.error);
    }
  }

  method RandomizeStage(m: Machine, job: Job, ghost plan: Plan) returns (r: Outcome<InstallError>)
    requires plan.job == job && Underway(m.trace, ResourcesOf(m), plan, 2)
    modifies m`trace, m`keyfile, m`mapped
    ensures Safe(m.trace, plan) && old(m.trace) <= m.trace
    ensures if r.Pass? then Underway(m.trace, ResourcesOf(m), plan, 3) else Struck(r.error, m.trace)
  {
    hide Quiet, DoneSince, Seen, Leaked, Safe, Underway, StepSince, DracutPrepared, Tidy, Blamed;
    ghost var before := ResourcesOf(m);
    ghost var since := Stretch(m.trace, None, OrDefault(job.passphrase));
    r := RandomizeFilesystemUuids(m, job.target, job.encryption, job.passphrase, since);
    StepMeans(m.trace, since.From(), plan);
    StageOver(since, before, m.trace, ResourcesOf(m), plan, 2, 3);
    if r.Fail? {
      StageFailed(since, m.trace, r.error);
    }
  }

  /** Mount, enrol, unmount. Mounts and mappings end as they were exactly if nothing
      leaked; without encryption the refusal leaves the target mounted. */
  method SetUpEncryption(m: Machine, target: string, encryption: Encryption, passphrase: string, key: string,
                         ghost since: Stretch)
    returns (r: Outcome<InstallError>)
    requires since.start == m.trace && since.passphrase == passphrase
    modifies m`trace, m`keyfile, m`mapped, m`mounts, m`files
    ensures Quiet(since, m.trace)
    ensures m.mounts == old(m.mounts) && m.mapped == old(m.mapped) <==>
      !Leaked(m.trace, since.From()) && (encryption.IsEncrypted() || !Holding(m.trace, since.From()))
    ensures !encryption.IsEncrypted() ==> r.Fail?
    ensures r.Fail? ==>
      Blamed(r.error, m.trace, since.From()) || (!encryption.IsEncrypted() && r.error == EncryptionNotEnabled)
    ensures r.Pass? ==> LUKS_NAME !in m.mapped && Tidy(old(ResourcesOf(m)), ResourcesOf(m), m.trace, since.From(), encryption)
    ensures r.Pass? ==> Enrolled(m.trace, since.From(), PartitionPath(target, 3), encryption, key)
    ensures r.Pass? ==> FilesForDracut(m.files, encryption, key)
  {
    hide Quiet, Seen, Leaked, Holding, Enrolled, FilesForDracut, Keeps, Stuck, Tidy, KeyTidy, Blamed;
    ghost var before := ResourcesOf(m);
    var partition := PartitionPath(target, 3);
    :- MountTarget(m, partition, encryption, Some(passphrase), since);
    ghost var key1, t1 := m.keyfile, m.trace;
    :- EnrollAndConfigure(m, partition, encryption, passphrase, key, since);
    ghost var t := m.trace;
    r := UnmountTarget(m, encryption, before.mounts, since);
    EnrolledLater(t, m.trace, since.From(), partition, encryption, key);
    KeyKept(before.keyfile, key1, m.keyfile, t1, t, m.trace, since.From());
    if r.Pass? {
      TidyButKey(before, ResourcesOf(m), m.trace, since.From(), encryption);
    }
  }

  lemma KeyKept(a: Option<string>, b: Option<string>, c: Option<string>, t1: seq<Entry>, t: seq<Entry>, t2: seq<Entry>,
                from: nat)
    requires KeyTidy(a, b, t1, from) && KeyTidy(b, c, t, from) && Keeps(t1, t, from) && Keeps(t, t2, from)
    ensures KeyTidy(a, c, t2, from)
  {
    hide Seen;
  }

  lemma Prepared(t: seq<Entry>, view: DracutView, plan: Plan, mapped: set<string>, files: map<TargetFile, Content>)
    requires view == DracutView(MappedForBoot(mapped, plan.job.encryption), files, DracutFstab(plan.job.encryption, plan.uuids))
    requires plan.job.passphrase.Some? ==>
      && plan.job.encryption.IsEncrypted() && LUKS_NAME !in mapped
      && Done(t, Enrolment(plan)) && FilesForDracut(files, plan.job.encryption, plan.key)
    ensures DracutPrepared(t, view, plan)
  {
    hide FilesForDracut, Done, Enrolment, DracutFstab;
  }

  method EnrollStage(m: Machine, job: Job, passphrase: string, key: string, ghost plan: Plan)
    returns (r: Outcome<InstallError>)
    requires plan.job == job && job.passphrase == Some(passphrase) && plan.key == key
    requires Underway(m.trace, ResourcesOf(m), plan, 3)
    modifies m`trace, m`keyfile, m`mapped, m`mounts, m`files
    ensures Safe(m.trace, plan) && old(m.trace) <= m.trace
    ensures if r.Pass? then Underway(m.trace, ResourcesOf(m), plan, 4)
      else Explained(r.error, m.trace, plan) && !FromKernel(r.error)
    ensures r.Pass? ==> job.encryption.IsEncrypted() && LUKS_NAME !in m.mapped
    ensures r.Pass? ==> Done(m.trace, Enrolment(plan)) && FilesForDracut(m.files, job.encryption, key)
  {
    hide Quiet, DoneSince, Seen, Leaked, Holding, Safe, Underway, StepSince, Enrolled, FilesForDracut, DracutPrepared,
         PartitionPath, Tidy, Blamed, TooSmall;
    ghost var before := ResourcesOf(m);
    ghost var since := Stretch(m.trace, None, passphrase);
    r := SetUpEncryption(m, job.target, job.encryption, passphrase, key, since);
    StepMeans(m.trace, since.From(), plan);
    if r.Pass? {
      EnrolledMeans(m.trace, since.From(), plan);
    } else if r.error != EncryptionNotEnabled || job.encryption.IsEncrypted() {
      StageFailed(since, m.trace, r.error);
    }
    StageOver(since, before, m.trace, ResourcesOf(m), plan, 3, 4);
  }

  lemma EnrolledMeans(t: seq<Entry>, from: nat, plan: Plan)
    requires Enrolled(t, from, PartitionPath(plan.job.target, 3), plan.job.encryption, plan.key)
    ensures DoneSince(t, from, Enrolment(plan)) && Done(t, Enrolment(plan))
  {
    hide PartitionPath, Seen;
    SeenLater(t, t, from, Enrolment(plan), true);
  }

  /** What the rebuild finds of the encryption stage. */
  ghost predicate ReadyToRebuild(m: Machine, plan: Plan)
    reads m
  {
    plan.job.passphrase.Some? ==>
      && plan.job.encryption.IsEncrypted() && LUKS_NAME !in m.mapped
      && Done(m.trace, Enrolment(plan)) && FilesForDracut(m.files, plan.job.encryption, plan.key)
  }

  /** The encryption stage: skipped without a passphrase, refused without encryption. */
  method EncryptionStage(m: Machine, job: Job, key: string, ghost plan: Plan) returns (r: Outcome<InstallError>)
    requires Underway(m.trace, ResourcesOf(m), plan, 3) && plan.job == job && plan.key == key
    modifies m`trace, m`keyfile, m`mapped, m`mounts, m`files
    ensures Safe(m.trace, plan) && old(m.trace) <= m.trace
    ensures if r.Pass? then Underway(m.trace, ResourcesOf(m), plan, 4)
      else Explained(r.error, m.trace, plan) && !FromKernel(r.error)
    ensures r.Pass? ==> ReadyToRebuild(m, plan)
  {
    hide Safe, Checked, Underway, Done, Enrolment, FilesForDracut, Explained;
    r := Pass;
    if job.passphrase.Some? {
      r := EnrollStage(m, job, job.passphrase.value, key, plan);
    } else {
      NothingToEnrol(m.trace, ResourcesOf(m), plan);
    }
  }

  lemma NothingToEnrol(t: seq<Entry>, now: Resources, plan: Plan)
    requires Underway(t, now, plan, 3) && plan.job.passphrase.None?
    ensures Safe(t, plan) && Underway(t, now, plan, 4)
  {
    hide Safe, Checked, StepSince, Tidy;
    StepMeans(t, |t|, plan);
    StepTaken(t, t, plan, 3);
  }

  method RebuildStage(m: Machine, job: Job, uuids: Uuids, ghost plan: Plan) returns (r: Outcome<InstallError>)
    requires plan.job == job && plan.uuids == uuids
    requires Underway(m.trace, ResourcesOf(m), plan, 4) && ReadyToRebuild(m, plan)
    modifies m`trace, m`keyfile, m`mapped, m`mounts, m`files
    ensures Safe(m.trace, plan) && old(m.trace) <= m.trace
    ensures if r.Pass? then Underway(m.trace, ResourcesOf(m), plan, 5) else Struck(r.error, m.trace)
    ensures SameCryptFiles(old(m.files), m.files)
  {
    hide Quiet, DoneSince, Done, Seen, Leaked, Safe, Underway, StepSince, DracutPrepared, MappedForBoot, Restored,
         SameCryptFiles, Enrolment, FilesForDracut, DracutFstab, Tidy, Blamed;
    ghost var before := ResourcesOf(m);
    ghost var since := Stretch(m.trace, Some(ViewForBoot(m, job.encryption, uuids)), OrDefault(job.passphrase));
    Prepared(m.trace, since.dracut.value, plan, m.mapped, m.files);
    r := RebuildBootConfig(m, job.target, job.encryption, job.passphrase, uuids, since);
    StepMeans(m.trace, since.From(), plan);
    StageOver(since, before, m.trace, ResourcesOf(m), plan, 4, 5);
    if r.Fail? {
      StageFailed(since, m.trace, r.error);
    }
  }

  /** `verify_partition_table`. */
  method VerifyPartitionTable(m: Machine, ghost since: Stretch) returns (r: Outcome<InstallError>)
    requires since.start == m.trace
    modifies m`trace
    ensures Quiet(since, m.trace)
    ensures Accounted(old(m.trace), m.trace, since.From(), r) && Stuck(m.trace, since.From()) == {}
    ensures r.Pass? ==> DoneSince(m.trace, since.From(), VerifyTable)
  {
    hide Quiet, Seen, Leaked, Holding, Stuck, Finds;
    Beginning(since);
    r := Must(m, VerifyTable, since);
  }

  method VerifyStage(m: Machine, ghost plan: Plan) returns (r: Outcome<InstallError>)
    requires Underway(m.trace, ResourcesOf(m), plan, 5)
    modifies m`trace
    ensures Safe(m.trace, plan) && old(m.trace) <= m.trace
    ensures if r.Pass? then Underway(m.trace, ResourcesOf(m), plan, 6) else Struck(r.error, m.trace)
  {
    hide Quiet, DoneSince, Seen, Leaked, Holding, Stuck, Safe, Underway, StepSince, DracutPrepared, Tidy, Blamed;
    ghost var before := ResourcesOf(m);
    ghost var since := Stretch(m.trace, None, OrDefault(plan.job.passphrase));
    r := VerifyPartitionTable(m, since);
    StepMeans(m.trace, since.From(), plan);
    TidyMeans(before, m.trace, since.From(), plan.job.encryption);
    StageOver(since, before, m.trace, ResourcesOf(m), plan, 5, 6);
    if r.Fail? {
      StageFailed(since, m.trace, r.error);
    }
  }

  // ---- The first-boot configuration ----

  function VariantName(encryption: Encryption): string {
    match encryption
    case Tpm => "luks-tpm"
    case Keyfile => "luks-keyfile"
    case NoEncryption => "plain"
  }

  /** The files after `fixup_for_encrypted_install`. */
  function WithFixups(files: map<TargetFile, Content>, hasHostname: bool): map<TargetFile, Content> {
    var fixed := if Fstab in files then files[Fstab := ForMapper(files[Fstab])] else files;
    (if hasHostname then fixed else fixed[HostnameFile := Empty])[EmptyKeyfile := Empty]
  }

  /** Rewrite fstab if there is one and it changes. */
  method FixFstab(m: Machine, ghost since: Stretch) returns (r: Outcome<InstallError>)
    requires TargetRoot in m.mounts && Quiet(since, m.trace)
    modifies m`trace, m`files
    ensures Quiet(since, m.trace) && Accounted(old(m.trace), m.trace, since.From(), r)
    ensures Keeps(old(m.trace), m.trace, since.From())
    ensures r.Pass? && Fstab in old(m.files) ==> m.files == old(m.files)[Fstab := ForMapper(old(m.files)[Fstab])]
    ensures r.Pass? && Fstab !in old(m.files) ==> m.files == old(m.files)
  {
    hide Quiet, Seen, Holding, Leaked, Stuck, Finds, ForMapper;
    r := Pass;
    if Fstab in m.files {
      var read, contents := ReadIn(m, Fstab, since);
      if !read.Ok? {
        return Fail(Failed(ReadFile(Fstab)));
      }
      var rewritten := ForMapper(contents);
      if rewritten != contents {
        r := MustWrite(m, Fstab, rewritten, since);
      }
    }
  }

  /** The empty keyfile, closed to readers. */
  method MakeEmptyKeyfile(m: Machine, ghost since: Stretch) returns (r: Outcome<InstallError>)
    requires TargetRoot in m.mounts && Quiet(since, m.trace)
    modifies m`trace, m`files
    ensures Quiet(since, m.trace) && Accounted(old(m.trace), m.trace, since.From(), r)
    ensures Keeps(old(m.trace), m.trace, since.From())
    ensures r.Pass? ==> DoneSince(m.trace, since.From(), SetMode(EmptyKeyfile))
    ensures r.Pass? ==> m.files == old(m.files)[EmptyKeyfile := Empty]
  {
    hide Quiet, Seen, Holding, Leaked, Stuck, Finds;
    :- Must(m, MakeDir(LuksDir), since);
    r := WriteClosed(m, EmptyKeyfile, Empty, since);
  }

  /** `fixup_for_encrypted_install`. */
  method FixupForEncryptedInstall(m: Machine, hasHostname: bool, ghost since: Stretch) returns (r: Outcome<InstallError>)
    requires TargetRoot in m.mounts && Quiet(since, m.trace)
    modifies m`trace, m`files
    ensures Quiet(since, m.trace) && Accounted(old(m.trace), m.trace, since.From(), r)
    ensures Keeps(old(m.trace), m.trace, since.From())
    ensures r.Pass? ==> DoneSince(m.trace, since.From(), SetMode(EmptyKeyfile))
    ensures r.Pass? ==> m.files == WithFixups(old(m.files), hasHostname)
  {
    hide Quiet, Seen, Holding, Leaked, Stuck, Finds, ForMapper;
    :- FixFstab(m, since);
    if !hasHostname {
      :- MustWrite(m, HostnameFile, Empty, since);
    }
    r := MakeEmptyKeyfile(m, since);
  }

  /** The files once the variant is written and, when encrypting, the fix-ups are made. */
  function Adapted(files: map<TargetFile, Content>, encryption: Encryption, hasHostname: bool): map<TargetFile, Content> {
    var named := files[ImageVariant := Variant(VariantName(encryption))];
    if encryption.IsEncrypted() then WithFixups(named, hasHostname) else named
  }

  /** What the first-boot stage leaves in the target besides the configuration itself. */
  ghost predicate Finished(files: map<TargetFile, Content>, encryption: Encryption, hasHostname: bool) {
    && HasFile(files, ImageVariant, Variant(VariantName(encryption)))
    && (encryption.IsEncrypted() ==>
          && HasFile(files, EmptyKeyfile, Empty)
          && (!hasHostname ==> HasFile(files, HostnameFile, Empty))
          && (Fstab in files ==> !MentionsLabel(files[Fstab])))
  }

  /** The adapted target names its variant, finds its root by the mapper name only, and keeps what dracut needed. */
  lemma AdaptedIsFinished(files: map<TargetFile, Content>, encryption: Encryption, hasHostname: bool)
    ensures var after := Adapted(files, encryption, hasHostname);
      Finished(after, encryption, hasHostname) && SameCryptFiles(files, after)
  {
    hide ForMapper, MentionsLabel;
    if Fstab in files {
      FixupExact(files[Fstab]);
    }
  }

  /** The image variant, and the fix-ups when encrypting. */
  method AdaptTarget(m: Machine, encryption: Encryption, hasHostname: bool, ghost since: Stretch)
    returns (r: Outcome<InstallError>)
    requires TargetRoot in m.mounts && Quiet(since, m.trace)
    modifies m`trace, m`files
    ensures Quiet(since, m.trace) && Accounted(old(m.trace), m.trace, since.From(), r)
    ensures Keeps(old(m.trace), m.trace, since.From())
    ensures r.Pass? ==> m.files == Adapted(old(m.files), encryption, hasHostname)
  {
    hide Quiet, Seen, Holding, Leaked, Stuck, Finds, WithFixups, VariantName;
    :- Must(m, MakeDir(VariantDir), since);
    :- MustWrite(m, ImageVariant, Variant(VariantName(encryption)), since);
    r := Pass;
    if encryption.IsEncrypted() {
      r := FixupForEncryptedInstall(m, hasHostname, since);
    }
  }

  /** The variant, the fix-ups, the configuration itself, and the log. */
  method ConfigureMounted(m: Machine, encryption: Encryption, choices: Choices, ghost since: Stretch)
    returns (r: Outcome<InstallError>)
    requires TargetRoot in m.mounts && Quiet(since, m.trace)
    modifies m`trace, m`files
    ensures Quiet(since, m.trace) && Accounted(old(m.trace), m.trace, since.From(), r)
    ensures Keeps(old(m.trace), m.trace, since.From())
    ensures r.Pass? ==> DoneSince(m.trace, since.From(), ApplyConfig)
    ensures r.Pass? ==> m.files == Adapted(old(m.files), encryption, choices.hasHostname)
    ensures r.Pass? && choices.copyLog ==> Tried(m.trace, since.From(), CopyLog)
  {
    hide Quiet, Seen, Holding, Leaked, Stuck, Finds, Adapted;
    :- AdaptTarget(m, encryption, choices.hasHostname, since);
    :- Must(m, ApplyConfig, since);
    if choices.copyLog {
      var _ := Try(m, CopyLog, since);
    }
    r := Pass;
  }

  /** Mount, configure, unmount. Mounts and mappings end as they were exactly if nothing leaked. */
  method ConfigureTarget(m: Machine, target: string, encryption: Encryption, passphrase: Option<string>, choices: Choices,
                         ghost since: Stretch)
    returns (r: Outcome<InstallError>)
    requires since.start == m.trace && since.passphrase == OrDefault(passphrase)
    modifies m`trace, m`keyfile, m`mapped, m`mounts, m`files
    ensures Quiet(since, m.trace)
    ensures m.mounts == old(m.mounts) && m.mapped == old(m.mapped) <==> !Leaked(m.trace, since.From())
    ensures r.Fail? ==> Blamed(r.error, m.trace, since.From())
    ensures r.Pass? ==> Tidy(old(ResourcesOf(m)), ResourcesOf(m), m.trace, since.From(), encryption)
    ensures r.Pass? && encryption.IsEncrypted() ==> LUKS_NAME !in m.mapped
    ensures r.Pass? ==> DoneSince(m.trace, since.From(), ApplyConfig)
    ensures r.Pass? ==> m.files == Adapted(old(m.files), encryption, choices.hasHostname)
  {
    hide Quiet, Seen, Leaked, Holding, Adapted, Stuck, Tidy, KeyTidy, Blamed, PartitionPath, Keeps;
    ghost var before := ResourcesOf(m);
    :- MountTarget(m, PartitionPath(target, 3), encryption, passphrase, since);
    ghost var t1 := m.trace;
    :- ConfigureMounted(m, encryption, choices, since);
    ghost var t := m.trace;
    r := UnmountTarget(m, encryption, before.mounts, since);
    KeptLater(t1, t, m.trace, since.From(), before.keyfile, m.keyfile);
    if r.Pass? {
      TidyButKey(before, ResourcesOf(m), m.trace, since.From(), encryption);
    }
  }

  lemma KeptLater(t1: seq<Entry>, t: seq<Entry>, t2: seq<Entry>, from: nat, a: Option<string>, b: Option<string>)
    requires KeyTidy(a, b, t1, from) && Keeps(t1, t, from) && Keeps(t, t2, from)
    ensures KeyTidy(a, b, t2, from)
    ensures DoneSince(t, from, ApplyConfig) ==> DoneSince(t2, from, ApplyConfig)
  {
    hide Seen;
  }

  method ConfigStage(m: Machine, job: Job, choices: Choices, ghost plan: Plan) returns (r: Outcome<InstallError>)
    requires plan.job == job && Underway(m.trace, ResourcesOf(m), plan, 6)
    modifies m`trace, m`keyfile, m`mapped, m`mounts, m`files
    ensures Safe(m.trace, plan) && old(m.trace) <= m.trace
    ensures if r.Pass? then Underway(m.trace, ResourcesOf(m), plan, 7) else Struck(r.error, m.trace)
    ensures r.Pass? ==> Finished(m.files, job.encryption, choices.hasHostname) && SameCryptFiles(old(m.files), m.files)
    ensures r.Pass? && job.encryption.IsEncrypted() ==> LUKS_NAME !in m.mapped
  {
    hide Quiet, DoneSince, Seen, Leaked, Safe, Underway, StepSince, DracutPrepared, Finished, Adapted, SameCryptFiles,
         Tidy, Blamed;
    AdaptedIsFinished(m.files, job.encryption, choices.hasHostname);
    ghost var before := ResourcesOf(m);
    ghost var since := Stretch(m.trace, None, OrDefault(job.passphrase));
    r := ConfigureTarget(m, job.target, job.encryption, job.passphrase, choices, since);
    StepMeans(m.trace, since.From(), plan);
    StageOver(since, before, m.trace, ResourcesOf(m), plan, 6, 7);
    if r.Fail? {
      StageFailed(since, m.trace, r.error);
    }
  }

  method SaveRecoveryKeyIn(m: Machine, ghost since: Stretch)
    requires since.start == m.trace
    modifies m`trace
    ensures Quiet(since, m.trace) && Stuck(m.trace, since.From()) == {}
  {
    hide Quiet, Seen, Leaked, Holding, Stuck, Finds;
    Beginning(since);
    var _ := Try(m, SaveRecoveryKey, since);
  }

  /** Saving the recovery key may fail without harm. */
  method SaveKeyStage(m: Machine, save: bool, ghost plan: Plan)
    requires Underway(m.trace, ResourcesOf(m), plan, 7)
    modifies m`trace
    ensures Underway(m.trace, ResourcesOf(m), plan, 7) && old(m.trace) <= m.trace
  {
    hide Quiet, DoneSince, Seen, Leaked, Stuck, Safe, Underway, StepSince, DracutPrepared, Tidy;
    if save {
      ghost var before := ResourcesOf(m);
      ghost var since := Stretch(m.trace, None, OrDefault(plan.job.passphrase));
      SaveRecoveryKeyIn(m, since);
      TidyMeans(before, m.trace, since.From(), plan.job.encryption);
      StageOver(since, before, m.trace, ResourcesOf(m), plan, 7, 7);
    }
  }

  // ---- The two pipelines ----

  ghost function PlanFor(m: Machine, job: Job, key: string, uuids: Uuids, disk: nat, checkMedia: bool): Plan
    reads m
  {
    Plan(job, key, uuids, m.images, disk, checkMedia, ResourcesOf(m), m.devices)
  }

  /** What the user chose for the installed system. */
  datatype Choices = Choices(hasHostname: bool, copyLog: bool, saveKey: bool)

  lemma Begun(m: Machine, t: seq<Entry>, plan: Plan)
    requires Safe(t, plan) && Checked(t, plan) && ResourcesOf(m) == plan.start && Stuck(t, 0) == {}
    ensures Underway(t, ResourcesOf(m), plan, 0)
  {
    hide Checked, Safe, Stuck, Tidy;
    TidyMeans(plan.start, t, 0, plan.job.encryption);
  }

  /** The last reports announce these phases, one by one. */
  predicate Announced(sent: seq<Snapshot>, phases: seq<InstallPhase>) {
    && |phases| <= |sent|
    && forall i :: 0 <= i < |phases| ==> sent[|sent| - |phases| + i] == Snapshot(0, None, phases[i])
  }

  /** The phases a successful install announces after writing. */
  function Phases(hasPassphrase: bool): seq<InstallPhase> {
    BootPhases(hasPassphrase) + [ApplyingConfig]
  }

  function BootPhases(hasPassphrase: bool): seq<InstallPhase> {
    SystemPhases() + (if hasPassphrase then [EncryptionSetup] else [])
    + [InstallPhase.RebuildingBootConfig] + [VerifyingPartitions]
  }

  function SystemPhases(): seq<InstallPhase> {
    [] + [Expanding] + [RandomizingUuids]
  }

  lemma NoneAnnounced(sent: seq<Snapshot>)
    ensures Announced(sent, []) && SystemPhases() + [] == SystemPhases()
  {
  }

  /** From writing to new identifiers. */
  method PutSystem(m: Machine, kernel: Kernel, job: Job, reporter: Reporter, ghost plan: Plan)
    returns (r: Outcome<InstallError>)
    requires Underway(m.trace, ResourcesOf(m), plan, 0) && reporter.sent == [] && plan.job == job
    modifies m`trace, m`keyfile, m`mapped, m`mounts, m`devices, kernel, reporter
    ensures Safe(m.trace, plan) && old(m.trace) <= m.trace && UpTo(reporter.sent, RandomizingUuids)
    ensures if r.Pass? then Underway(m.trace, ResourcesOf(m), plan, 3) else Blamed(r.error, m.trace, 0)
    ensures kernel.failures == old(kernel.failures) + if r.Fail? && FromKernel(r.error) then 1 else 0
    ensures r.Pass? ==> Announced(reporter.sent, SystemPhases())
    ensures r.Pass? ==> OnDevices(old(m.devices), m.images, job, m.devices)
  {
    hide Safe, Underway, Orderly, Announced, OnDevices, Blamed;
    :- WriteStage(m, kernel, job, reporter, plan);
    NoneAnnounced(reporter.sent);
    Advance(reporter, Writing, Expanding, []);
    :- ExpandStage(m, job, plan);
    Advance(reporter, Expanding, RandomizingUuids, [] + [Expanding]);
    r := RandomizeStage(m, job, plan);
  }

  /** Announce a phase. */
  method Advance(reporter: Reporter, ghost phase: InstallPhase, next: InstallPhase, ghost phases: seq<InstallPhase>)
    requires UpTo(reporter.sent, phase) && BarEnd(phase) <= BarStart(next) && Announced(reporter.sent, phases)
    modifies reporter
    ensures UpTo(reporter.sent, next) && Announced(reporter.sent, phases + [next])
  {
    NextPhase(reporter.sent, phase, next);
    reporter.SendPhase(next);
  }

  /** What the stages after writing leave in the target. */
  ghost predicate Bootable(m: Machine, plan: Plan, choices: Choices)
    reads m
  {
    && Finished(m.files, plan.job.encryption, choices.hasHostname)
    && (plan.job.encryption.IsEncrypted() ==> LUKS_NAME !in m.mapped)
    // A passphrase without encryption cannot succeed.
    && (plan.job.passphrase.Some? ==>
          plan.job.encryption.IsEncrypted() && FilesForDracut(m.files, plan.job.encryption, plan.key))
  }

  /** From enrolment to the verified partition table. */
  method MakeBootable(m: Machine, job: Job, key: string, uuids: Uuids, reporter: Reporter, ghost plan: Plan)
    returns (r: Outcome<InstallError>)
    requires Underway(m.trace, ResourcesOf(m), plan, 3) && UpTo(reporter.sent, RandomizingUuids)
    requires Announced(reporter.sent, SystemPhases())
    requires plan.job == job && plan.key == key && plan.uuids == uuids
    modifies m`trace, m`keyfile, m`mapped, m`mounts, m`files, reporter
    ensures Safe(m.trace, plan) && old(m.trace) <= m.trace && UpTo(reporter.sent, VerifyingPartitions)
    ensures if r.Pass? then Underway(m.trace, ResourcesOf(m), plan, 6)
      else Explained(r.error, m.trace, plan) && !FromKernel(r.error)
    ensures r.Pass? ==> Announced(reporter.sent, BootPhases(job.passphrase.Some?))
    ensures r.Pass? && job.passphrase.Some? ==> job.encryption.IsEncrypted() && FilesForDracut(m.files, job.encryption, key)
  {
    hide Safe, Underway, Orderly, Announced, SystemPhases, FilesForDracut, SameCryptFiles, Done, Enrolment, Blamed,
         TooSmall;
    ghost var phases := SystemPhases() + if job.passphrase.Some? then [EncryptionSetup] else [];
    NoneAnnounced(reporter.sent);
    if job.passphrase.Some? {
      Advance(reporter, RandomizingUuids, EncryptionSetup, SystemPhases());
    }
    :- EncryptionStage(m, job, key, plan);
    Advance(reporter, EncryptionSetup, InstallPhase.RebuildingBootConfig, phases);
    ghost var files := m.files;
    :- RebuildStage(m, job, uuids, plan);
    if job.passphrase.Some? {
      SameFilesForDracut(files, m.files, job.encryption, key);
    }
    Advance(reporter, InstallPhase.RebuildingBootConfig, VerifyingPartitions, phases + [InstallPhase.RebuildingBootConfig]);
    r := VerifyStage(m, plan);
  }

  /** The last stage: the configured target. */
  method Finish(m: Machine, job: Job, choices: Choices, reporter: Reporter, ghost plan: Plan) returns (r: Outcome<InstallError>)
    requires Underway(m.trace, ResourcesOf(m), plan, 6) && UpTo(reporter.sent, VerifyingPartitions) && plan.job == job
    requires Announced(reporter.sent, BootPhases(job.passphrase.Some?))
    requires job.passphrase.Some? ==> job.encryption.IsEncrypted() && FilesForDracut(m.files, job.encryption, plan.key)
    modifies m`trace, m`keyfile, m`mapped, m`mounts, m`files, reporter
    ensures Safe(m.trace, plan) && old(m.trace) <= m.trace && UpTo(reporter.sent, ApplyingConfig)
    ensures if r.Pass? then Underway(m.trace, ResourcesOf(m), plan, 7) else Struck(r.error, m.trace)
    ensures r.Pass? ==> Bootable(m, plan, choices)
    ensures r.Pass? ==> Announced(reporter.sent, Phases(job.passphrase.Some?))
  {
    hide Safe, Underway, Orderly, Announced, BootPhases, Finished, FilesForDracut, SameCryptFiles, StepsDone, Blamed;
    Advance(reporter, VerifyingPartitions, ApplyingConfig, BootPhases(job.passphrase.Some?));
    ghost var files := m.files;
    :- ConfigStage(m, job, choices, plan);
    if job.passphrase.Some? {
      SameFilesForDracut(files, m.files, job.encryption, plan.key);
      SaveKeyStage(m, choices.saveKey, plan);
    }
    r := Pass;
    UnderwaySafe(m.trace, ResourcesOf(m), plan, 7);
  }

  lemma UnderwaySafe(t: seq<Entry>, now: Resources, plan: Plan, n: nat)
    requires Underway(t, now, plan, n)
    ensures Safe(t, plan) && StepsDone(t, plan, n) && Tidy(plan.start, now, t, 0, plan.job.encryption)
  {
    hide Safe, Checked, StepsDone, Tidy;
  }

  /** What a successful install leaves of what it took: the mounts are as before exactly if no
      unmounting of the root failed, the mappings exactly if closing the boot mapping did not,
      and the passphrase file is as before or gone unless removing it failed once. */
  ghost predicate GivenBack(before: Resources, now: Resources, t: seq<Entry>) {
    && before.mounts <= now.mounts && before.mapped <= now.mapped <= before.mapped + {BOOT_NAME}
    && (now.mounts == before.mounts <==> !FailedSince(t, 0, Unmount(TargetRoot)))
    && (now.mapped == before.mapped <==> !FailedSince(t, 0, LuksClose(BOOT_NAME)))
    && (now.keyfile == before.keyfile || now.keyfile.None? || FailedSince(t, 0, RemoveKeyfile))
  }

  lemma TidyIsGivenBack(before: Resources, now: Resources, t: seq<Entry>, encryption: Encryption)
    requires Tidy(before, now, t, 0, encryption) && (encryption.IsEncrypted() ==> LUKS_NAME !in now.mapped)
    ensures GivenBack(before, now, t)
  {
    hide Seen, Stuck;
    StuckMeans(t, 0, Unmount(TargetRoot));
    StuckMeans(t, 0, LuksClose(BOOT_NAME));
  }

  /** Everything after the checks; `run_auto` prints a line where `run_full_install` announces a phase. */
  method InstallChecked(m: Machine, kernel: Kernel, job: Job, key: string, uuids: Uuids, choices: Choices, reporter: Reporter,
                        ghost plan: Plan)
    returns (r: Outcome<InstallError>)
    requires Safe(m.trace, plan) && Checked(m.trace, plan) && reporter.sent == []
    requires plan == PlanFor(m, job, key, uuids, plan.disk, plan.checkMedia) && Stuck(m.trace, 0) == {}
    modifies m`trace, m`keyfile, m`mapped, m`mounts, m`files, m`devices, kernel, reporter
    ensures Safe(m.trace, plan) && old(m.trace) <= m.trace && Orderly(reporter.sent)
    ensures r.Pass? ==> Installed(m, plan, choices) && Announced(reporter.sent, Phases(job.passphrase.Some?))
    ensures r.Fail? ==> Explained(r.error, m.trace, plan)
    ensures kernel.failures == old(kernel.failures) + if r.Fail? && FromKernel(r.error) then 1 else 0
  {
    hide Safe, Checked, Underway, UpTo, Orderly, Finished, OnDevices, StepsDone, Announced, Phases, SystemPhases,
         BootPhases, FilesForDracut, Blamed, TooSmall, Tidy, GivenBack;
    Begun(m, m.trace, plan);
    r := PutSystem(m, kernel, job, reporter, plan);
    OrderlyUpTo(reporter.sent, RandomizingUuids);
    if r.Pass? {
      r := MakeBootable(m, job, key, uuids, reporter, plan);
      OrderlyUpTo(reporter.sent, VerifyingPartitions);
      if r.Pass? {
        r := Finish(m, job, choices, reporter, plan);
        OrderlyUpTo(reporter.sent, ApplyingConfig);
        if r.Pass? {
          UnderwaySafe(m.trace, ResourcesOf(m), plan, 7);
          TidyIsGivenBack(plan.start, ResourcesOf(m), m.trace, job.encryption);
        }
      }
    }
  }

  lemma OrderlyUpTo(sent: seq<Snapshot>, phase: InstallPhase)
    requires UpTo(sent, phase)
    ensures Orderly(sent)
  {
    hide Orderly;
  }

  /** What success means: every step is done in order, beginning with a write of every
      image; the devices hold the images; the target is bootable; and what was taken is
      given back but for what could not be. */
  ghost predicate Installed(m: Machine, plan: Plan, choices: Choices)
    reads m
  {
    && StepsDone(m.trace, plan, 7) && OnDevices(plan.devices, plan.images, plan.job, m.devices)
    && Bootable(m, plan, choices)
    && GivenBack(plan.start, ResourcesOf(m), m.trace)
  }

  /** Until the checks have passed nothing is touched, whatever fails later. */
  ghost predicate Guarded(t: seq<Entry>, plan: Plan) {
    forall i :: 0 <= i < |t| && !Preliminary(t[i].cmd) ==>
      Fits(plan.images, plan.job.manifest, plan.disk) && Checked(t[..i], plan)
  }

  lemma SafeIsGuarded(t: seq<Entry>, plan: Plan)
    requires Safe(t, plan)
    ensures Guarded(t, plan)
  {
    hide Safe, Checked, Fits;
    forall i | 0 <= i < |t| && !Preliminary(t[i].cmd)
      ensures Fits(plan.images, plan.job.manifest, plan.disk) && Checked(t[..i], plan)
    {
      ChecksComeFirst(t, plan, i);
    }
  }

  lemma NothingSent()
    ensures Orderly([])
  {
  }

  /** Devices, files, mounts and mappings are those of the beginning. */
  twostate predicate Untouched(m: Machine)
    reads m
  {
    && m.devices == old(m.devices) && m.files == old(m.files)
    && m.mounts == old(m.mounts) && m.mapped == old(m.mapped) && m.keyfile == old(m.keyfile)
  }

  /** `run_full_install`. Whatever fails, every command run was allowed, none but the
      checks came before the images were found to fit, and the bar was orderly; images
      that do not fit leave the machine untouched. It succeeds, with the passphrase handed
      in, unless there is something to blame. */
  method RunFullInstall(m: Machine, kernel: Kernel, job: Job, key: string, uuids: Uuids, diskSize: nat, choices: Choices,
                        reporter: Reporter)
    returns (r: Result<Option<string>, InstallError>)
    requires m.trace == [] && reporter.sent == []
    modifies m`trace, m`keyfile, m`mapped, m`mounts, m`files, m`devices, kernel, reporter
    ensures var plan := old(PlanFor(m, job, key, uuids, diskSize, false));
      && Safe(m.trace, plan) && Guarded(m.trace, plan) && Orderly(reporter.sent)
      && (if r.Success? then r.value == job.passphrase && Installed(m, plan, choices) else Explained(r.error, m.trace, plan))
    ensures kernel.failures == old(kernel.failures) + if r.Failure? && FromKernel(r.error) then 1 else 0
    ensures r.Success? ==> Announced(reporter.sent, Phases(job.passphrase.Some?))
    ensures !Checked(m.trace, old(PlanFor(m, job, key, uuids, diskSize, false))) ==> r.Failure? && Untouched(m)
  {
    hide Safe, Guarded, SizeChecked, Orderly, Installed, Fits, Announced, Phases, Blamed, TooSmall, Stuck;
    ghost var plan := PlanFor(m, job, key, uuids, diskSize, false);
    var done := CheckDiskSize(m, plan, job.manifest, diskSize);
    NothingSent();
    if done.Pass? {
      ghost var t := m.trace;
      done := InstallChecked(m, kernel, job, key, uuids, choices, reporter, plan);
      CheckedLater(t, m.trace, plan);
    }
    SafeIsGuarded(m.trace, plan);
    r := if done.Pass? then Success(job.passphrase) else Failure(done.error);
  }

  /** `run_auto`: the passphrase is the configured one or else a generated one, and
      exists exactly when encrypting; with a verity mount every byte of the media is
      checked before anything else. */
  method RunAuto(m: Machine, kernel: Kernel, target: string, encryption: Encryption, configured: Option<string>,
                 generated: string, manifest: seq<PartitionEntry>, key: string, uuids: Uuids, diskSize: nat,
                 verityMounted: bool, choices: Choices, reporter: Reporter)
    returns (r: Outcome<InstallError>, recovery: Option<string>)
    requires m.trace == [] && reporter.sent == []
    modifies m`trace, m`keyfile, m`mapped, m`mounts, m`files, m`devices, kernel, reporter
    ensures recovery == if !encryption.IsEncrypted() then None else if configured.Some? then configured else Some(generated)
    ensures var plan := old(PlanFor(m, Job(target, encryption, recovery, manifest), key, uuids, diskSize, verityMounted));
      && Safe(m.trace, plan) && Guarded(m.trace, plan) && Orderly(reporter.sent)
      && (if r.Pass? then Installed(m, plan, choices) else Explained(r.error, m.trace, plan))
    ensures kernel.failures == old(kernel.failures) + if r.Fail? && FromKernel(r.error) then 1 else 0
    ensures !Checked(m.trace, old(PlanFor(m, Job(target, encryption, recovery, manifest), key, uuids, diskSize, verityMounted)))
      ==> r.Fail? && Untouched(m)
  {
    hide Safe, Guarded, SizeChecked, MediaChecked, Orderly, Installed, Fits, Announced, Phases, Blamed, TooSmall, Stuck;
    recovery := if !encryption.IsEncrypted() then None else if configured.Some? then configured else Some(generated);
    var job := Job(target, encryption, recovery, manifest);
    ghost var plan := PlanFor(m, job, key, uuids, diskSize, verityMounted);
    r := CheckDiskSize(m, plan, manifest, diskSize);
    NothingSent();
    if r.Pass? && verityMounted {
      r := CheckMedia(m, kernel, plan, manifest);
    }
    if r.Pass? {
      ghost var t := m.trace;
      r := InstallChecked(m, kernel, job, key, uuids, choices, reporter, plan);
      CheckedLater(t, m.trace, plan);
    }
    SafeIsGuarded(m.trace, plan);
  }
}
