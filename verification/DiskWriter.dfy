/** Growing the root filesystem, new filesystem identifiers, and the boot
    configuration (`writer/disk_writer.rs`). */
module DiskWriter {
  import opened Wrappers
  import opened Machine
  import opened Luks
  import opened PartitionPaths

  // ---- Expansion ----

  /** Open the container and let it fill the partition; a failed resize leaves it open. */
  method OpenResized(m: Machine, partition: string, passphrase: string, ghost since: Stretch) returns (r: Outcome<InstallError>)
    requires since.start == m.trace && since.passphrase == passphrase
    modifies m`trace, m`keyfile, m`mapped
    ensures Quiet(since, m.trace) && Stuck(m.trace, since.From()) == {}
    ensures r.Pass? ==> LUKS_NAME !in old(m.mapped) && m.mapped == old(m.mapped) + {LUKS_NAME}
    ensures r.Pass? ==> !Leaked(m.trace, since.From()) && Holding(m.trace, since.From())
    ensures r.Pass? ==> DoneSince(m.trace, since.From(), LuksOpen(partition, LUKS_NAME))
    ensures r.Pass? ==> DoneSince(m.trace, since.From(), LuksResize(LUKS_NAME))
    ensures r.Fail? ==> (m.mapped == old(m.mapped) <==> !Leaked(m.trace, since.From()))
    ensures if r.Pass? then KeyTidy(None, m.keyfile, m.trace, since.From()) else Blamed(r.error, m.trace, since.From())
  {
    hide Quiet, Seen, Holding, Leaked, Stuck, Finds;
    Beginning(since);
    :- OpenLuksRootAs(m, partition, passphrase, LUKS_NAME, since);
    r := Resize(m, passphrase, since);
  }

  /** `cryptsetup resize`; the keyfile stays only if it cannot be started. */
  method Resize(m: Machine, passphrase: string, ghost since: Stretch) returns (r: Outcome<InstallError>)
    requires Quiet(since, m.trace) && since.passphrase == passphrase
    modifies m`trace, m`keyfile
    ensures Quiet(since, m.trace) && Accounted(old(m.trace), m.trace, since.From(), r)
    ensures Keeps(old(m.trace), m.trace, since.From())
    ensures r.Pass? ==> DoneSince(m.trace, since.From(), LuksResize(LUKS_NAME))
    ensures r.Pass? ==> KeyTidy(None, m.keyfile, m.trace, since.From())
  {
    hide Quiet, Seen, Holding, Leaked, Stuck, Finds;
    :- MakeKeyIn(m, passphrase, since);
    var exit := RunIn(m, LuksResize(LUKS_NAME), since);
    if exit.NotSpawned? {
      return Fail(Failed(LuksResize(LUKS_NAME)));
    }
    RemoveKeyIn(m, since);
    r := if exit.Ok? then Pass else Fail(Failed(LuksResize(LUKS_NAME)));
  }

  /** Mount, grow, unmount, close; the growth's own failure is reported last. */
  method GrowMounted(m: Machine, encryption: Encryption, ghost since: Stretch) returns (r: Outcome<InstallError>)
    requires Quiet(since, m.trace) && !Leaked(m.trace, since.From()) && Stuck(m.trace, since.From()) == {}
    requires encryption.IsEncrypted() <==> Holding(m.trace, since.From())
    requires encryption.IsEncrypted() ==> LUKS_NAME in m.mapped
    modifies m`trace, m`mapped, m`mounts
    ensures Quiet(since, m.trace) && Keeps(old(m.trace), m.trace, since.From())
    ensures !Leaked(m.trace, since.From()) <==>
      m.mounts == old(m.mounts) && m.mapped == if encryption.IsEncrypted() then old(m.mapped) - {LUKS_NAME} else old(m.mapped)
    ensures if r.Pass? then DoneSince(m.trace, since.From(), BtrfsResize) else Blamed(r.error, m.trace, since.From())
    ensures Stuck(m.trace, since.From()) <= {Unmount(TargetRoot)}
    ensures MountsTidy(old(m.mounts), m.mounts, m.trace, since.From())
    ensures m.mapped == old(m.mapped) || (encryption.IsEncrypted() && m.mapped == old(m.mapped) - {LUKS_NAME})
  {
    hide Quiet, Seen, Holding, Leaked, Stuck, Finds;
    ghost var base := m.mounts;
    :- Must(m, MakeDir(MountBase), since);
    var mounted := MountIn(m, TargetRoot, since);
    if !mounted.Ok? {
      return Fail(Failed(Mount(TargetRoot)));
    }
    var resized := Try(m, BtrfsResize, since);
    GiveBackGrown(m, encryption, base, since);
    r := if resized.Ok? then Pass else Fail(Failed(BtrfsResize));
  }

  /** Unmount and close; neither is checked. */
  method GiveBackGrown(m: Machine, encryption: Encryption, ghost base: seq<MountPoint>, ghost since: Stretch)
    requires Quiet(since, m.trace) && Holding(m.trace, since.From()) && !Leaked(m.trace, since.From())
    requires Stuck(m.trace, since.From()) == {} && m.mounts == base + [TargetRoot]
    requires encryption.IsEncrypted() ==> LUKS_NAME in m.mapped
    modifies m`trace, m`mapped, m`mounts
    ensures Quiet(since, m.trace) && Keeps(old(m.trace), m.trace, since.From())
    ensures !Leaked(m.trace, since.From()) <==>
      m.mounts == base && m.mapped == if encryption.IsEncrypted() then old(m.mapped) - {LUKS_NAME} else old(m.mapped)
    ensures Stuck(m.trace, since.From()) <= {Unmount(TargetRoot)} && MountsTidy(base, m.mounts, m.trace, since.From())
    ensures m.mapped == old(m.mapped) || (encryption.IsEncrypted() && m.mapped == old(m.mapped) - {LUKS_NAME})
  {
    hide Quiet, Seen, Holding, Leaked, Stuck, Finds;
    var _ := UnmountIn(m, TargetRoot, base, since);
    if encryption.IsEncrypted() {
      NamesDiffer();
      var _ := CloseIn(m, LUKS_NAME, since);
    }
  }

  /** `expand_root_filesystem`. Whatever fails, mounts and mappings end as they
      were exactly if no fatal failure struck after something was acquired; a
      failed growth alone is not one. */
  method ExpandRootFilesystem(m: Machine, target: string, encryption: Encryption, passphrase: Option<string>,
                              ghost since: Stretch)
    returns (r: Outcome<InstallError>)
    requires since.start == m.trace && since.passphrase == OrDefault(passphrase)
    modifies m`trace, m`keyfile, m`mapped, m`mounts
    ensures Quiet(since, m.trace)
    ensures m.mapped == old(m.mapped) && m.mounts == old(m.mounts) <==> !Leaked(m.trace, since.From())
    ensures r.Fail? ==> Blamed(r.error, m.trace, since.From())
    ensures r.Pass? ==> DoneSince(m.trace, since.From(), BtrfsResize)
    ensures r.Pass? && encryption.IsEncrypted() ==>
      && DoneSince(m.trace, since.From(), LuksOpen(PartitionPath(target, 3), LUKS_NAME))
      && DoneSince(m.trace, since.From(), LuksResize(LUKS_NAME))
    ensures r.Pass? ==> Tidy(old(ResourcesOf(m)), ResourcesOf(m), m.trace, since.From(), encryption)
  {
    hide Quiet, Seen, Holding, Leaked, Stuck, PartitionPath;
    Beginning(since);
    if encryption.IsEncrypted() {
      :- OpenResized(m, PartitionPath(target, 3), OrDefault(passphrase), since);
    }
    r := GrowMounted(m, encryption, since);
  }

  // ---- New identifiers ----

  /** The EFI label and the boot check, of which only starting the check must succeed. */
  method PrepareBoot(m: Machine, ghost since: Stretch) returns (r: Outcome<InstallError>)
    requires Quiet(since, m.trace) && !Holding(m.trace, since.From())
    modifies m`trace
    ensures Quiet(since, m.trace) && Accounted(old(m.trace), m.trace, since.From(), r)
    ensures r.Pass? ==> Tried(m.trace, since.From(), Mlabel) && Tried(m.trace, since.From(), E2fsck)
  {
    hide Quiet, Seen, Holding, Leaked, Stuck, Finds;
    var _ := Try(m, Mlabel, since);
    r := Start(m, E2fsck, since);
  }

  /** The steps before the root filesystem; only the ext4 change must succeed. */
  method RandomizeBootUuids(m: Machine, ghost since: Stretch) returns (r: Outcome<InstallError>)
    requires Quiet(since, m.trace) && !Holding(m.trace, since.From())
    modifies m`trace
    ensures Quiet(since, m.trace) && Accounted(old(m.trace), m.trace, since.From(), r)
    ensures r.Pass? ==> DoneSince(m.trace, since.From(), Tune2fs)
    ensures r.Pass? ==> Tried(m.trace, since.From(), Mlabel) && Tried(m.trace, since.From(), E2fsck)
  {
    hide Quiet, Seen, Holding, Leaked, Stuck, Finds;
    :- Must(m, EnsureDevices, since);
    :- PrepareBoot(m, since);
    r := Must(m, Tune2fs, since);
  }

  /** Change the root filesystem's identifier, through the container when encrypted. */
  method TuneRoot(m: Machine, target: string, encryption: Encryption, passphrase: Option<string>, ghost since: Stretch)
    returns (r: Outcome<InstallError>)
    requires since.passphrase == OrDefault(passphrase)
    requires Quiet(since, m.trace) && !Holding(m.trace, since.From()) && !Leaked(m.trace, since.From())
    modifies m`trace, m`keyfile, m`mapped
    ensures Quiet(since, m.trace) && Keeps(old(m.trace), m.trace, since.From())
    ensures m.mapped == old(m.mapped) <==> !Leaked(m.trace, since.From())
    ensures if r.Pass? then DoneSince(m.trace, since.From(), BtrfsTune) else Blamed(r.error, m.trace, since.From())
    ensures r.Pass? && encryption.IsEncrypted() ==>
      LUKS_NAME !in old(m.mapped) && DoneSince(m.trace, since.From(), LuksOpen(PartitionPath(target, 3), LUKS_NAME))
    ensures Stuck(m.trace, since.From()) == Stuck(old(m.trace), since.From())
    ensures m.mapped == old(m.mapped) || (encryption.IsEncrypted() && m.mapped == old(m.mapped) + {LUKS_NAME})
    ensures r.Pass? ==> KeyTidy(old(m.keyfile), m.keyfile, m.trace, since.From())
  {
    hide Quiet, Seen, Holding, Leaked, Stuck, Finds, PartitionPath;
    if encryption.IsEncrypted() {
      :- OpenLuksRootAs(m, PartitionPath(target, 3), OrDefault(passphrase), LUKS_NAME, since);
    }
    var tuned := RunIn(m, BtrfsTune, since);
    if tuned.NotSpawned? {
      return Fail(Failed(BtrfsTune));
    }
    if encryption.IsEncrypted() {
      NamesDiffer();
      var _ := CloseIn(m, LUKS_NAME, since);
    }
    r := if tuned.Ok? then Pass else Fail(Failed(BtrfsTune));
  }

  /** `randomize_filesystem_uuids`. A failed btrfstune still closes the
      container, unless it could not be started at all. */
  method RandomizeFilesystemUuids(m: Machine, target: string, encryption: Encryption, passphrase: Option<string>,
                                  ghost since: Stretch)
    returns (r: Outcome<InstallError>)
    requires since.start == m.trace && since.passphrase == OrDefault(passphrase)
    modifies m`trace, m`keyfile, m`mapped
    ensures Quiet(since, m.trace)
    ensures m.mapped == old(m.mapped) <==> !Leaked(m.trace, since.From())
    ensures r.Fail? ==> Blamed(r.error, m.trace, since.From())
    ensures r.Pass? ==> DoneSince(m.trace, since.From(), Tune2fs) && DoneSince(m.trace, since.From(), BtrfsTune)
    ensures r.Pass? ==> Tried(m.trace, since.From(), Mlabel) && Tried(m.trace, since.From(), E2fsck)
    // A mapping left open by the step before makes this one fail.
    ensures r.Pass? && encryption.IsEncrypted() ==>
      LUKS_NAME !in old(m.mapped) && DoneSince(m.trace, since.From(), LuksOpen(PartitionPath(target, 3), LUKS_NAME))
    ensures r.Pass? ==> Tidy(old(ResourcesOf(m)), ResourcesOf(m), m.trace, since.From(), encryption)
  {
    hide Quiet, Seen, Holding, Leaked, Stuck, PartitionPath;
    Beginning(since);
    :- RandomizeBootUuids(m, since);
    :- TuneRoot(m, target, encryption, passphrase, since);
    var _ := Try(m, SettleUdev, since);
    r := Pass;
  }
}
