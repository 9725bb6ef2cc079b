# Verification of the BES installer

The installer (`installer/tui`) asks a user for a disk, an encryption mode, a hostname, a login and a network
setup, streams partition images to the disk, and turns the result into a bootable system. This project models its
four connected pieces in Dafny and proves what they promise.

- **The streaming writer** (`Splice`, `Writer`, `Progress`, `VerityTrailer`). A nested loop moves bytes from a file
  through a pipe to a device; the kernel may move any smaller number of bytes than asked. The loop is proved to
  deliver exactly the wanted prefix unless a call of the kernel fails, to flush contiguous windows, and to keep
  unflushed data below 65 MiB. Chained over a manifest, each image ends up on its own device.
- **The install pipeline** (`Machine`, `Luks`, `DiskWriter`, `BootConfig`, `Fstab`, `Install`). Every external command
  is a step on an abstract machine with open LUKS mappings, a mount stack, files, device contents and a history. Each
  step may fail by exit status or by not starting. The theorems hold for every pattern of failures.
- **The wizard** (`WizardModel`, `WizardSafety`, `WizardRuns`, `WizardKeys`, `WizardPaths`, `WizardConditions`,
  `WizardWitnesses`, `Wizard`, with the default disk in `DiskChoice`). The state behind the screens and the loop that
  polls the media check, the key fetch and the install worker and then handles one key. `WizardModel` gives the
  transition functions, and the theorems are about every run from the first screen. `Wizard` has the class whose fields
  the loops update, proved equal to those functions.
- **The text codecs** (`HostnameTemplate`, `HostnameExpansion`, `Validators`, `Passphrase`, `Shadow`,
  `PartitionPaths`, `Text`).

`Wrappers`, `Bytes` and `Sequences` hold what the others share. `dafny verify dfyconfig.toml` checks everything.

## How to read the main results

*Safe* (`Install.Safe`) says of a whole command history: until the size check has passed, and in automatic mode with
a verity mount the media check too, nothing but those checks is run; a size check compares the sum of the real image
sizes with the disk, and a media check that passes has read all bytes of all images; each image is written by its own
manifest entry, to its own device, only after wiping was tried and the disk partitioned; the root image of an encrypted
install goes only to the installer's own mapping, open on the root partition's container formatted just before; files
are written, the filesystem is grown, and dracut, update-grub and the configuration run only while the target is
mounted; dracut finds the temporary fstab, and when a passphrase was
given, mapping `root` open, `bes-target-root` closed, the unlock mechanism enrolled, and crypttab and the dracut
files with their contents. Every command that formats, opens, resizes or enrols a container finds the passphrase of the
session in its keyfile. `RunFullInstall` and `RunAuto` ensure *Safe* on every exit, not only on success. They also
ensure that unless the checks have passed, devices, files, mounts and mappings are untouched.

*Installed* (`Install.Installed`) is what success means: writing every image, growing the filesystem, new identifiers,
enrolment (with a passphrase), dracut and update-grub, the partition check and the configuration are done, each after
the one before; every device holds what writing the images makes of it, and with one encrypted root at most each device
begins with its image; the target names its variant, its fstab does not mention the partition label of an encrypted
root, and the files dracut needed are still there. Mounts are as before exactly if no unmounting of the root failed,
mappings exactly if closing mapping `root` did not, and the passphrase file is as before or gone unless removing it
failed (`Install.GivenBack`).

*Explained* (`Install.Explained`) is what failure means: the error names a command that failed, or the images do not fit
on the disk, or there is a passphrase without encryption. So an install succeeds unless there is something to blame. A
failed copy or media check is exactly a failed call of the kernel (`Splice.Kernel`, which counts them).

*Leaked* (`Machine.Leaked`) says that a fatal failure struck after a mapping or mount was acquired. The failures the
source carries on after (`Machine.Tolerated`) are not fatal. Expanding the filesystem, changing the identifiers,
rebuilding the boot configuration, enrolling when encrypting, and configuring the target each end with mappings and
mounts as they were exactly if nothing leaked. A growth of the filesystem, dracut or update-grub that fails, or a
btrfstune that runs and fails, does not by itself leave anything behind; a failed `cryptsetup resize` leaves the
mapping open. While the images are written no mount changes, and at the end the installer's mapping has been added
exactly if it was opened and not closed since (`Writer.LeftOpen`), in which case the write has failed.

*Honest* (`WizardSafety.Honest`) is what the environment of the wizard can deliver: a key fetch yields one result, the
media check reports once and its verdict comes last, only started workers report, and a finished worker returns the
passphrase it was given (which `Install.RunFullInstall` ensures).

## Properties that hold only on a condition

- **One install per session.** A successful key fetch shows the key list whatever screen is current, even while
  installing. `WizardConditions.InstallFollowsExactly`: from any state of any run from the first screen, an install can
  be started exactly if the wizard has not stopped, there is a disk, and a key fetch is outstanding or no end screen is
  shown. `WizardConditions.AnotherInstallExactly`: so once an install has been started, and whatever happened since,
  another can be exactly on the first and the last of these, and just after it started exactly if a fetch is
  outstanding. `WizardWitnesses.TwoInstalls` is such a run from the first screen. If no list arrives on an end screen,
  one install at most is started (`WizardConditions.CalmRuns`).
- **The hostname is checked.** `WizardConditions.LateNameExactly`: when a list arrives, on whatever screen, the session
  can go on, without another list, to hand over a hostname that breaks the rule (DHCP, or a name the validator accepts)
  exactly if the name typed so far would be refused. If lists arrive only while it would be accepted, every install
  keeps the rule (`WizardConditions.TimelyRuns`). `WizardWitnesses.BadName` is an honest run from the first screen that
  hands over the name `-`.
- **A passphrase exactly when encrypting.** In automatic mode this holds (`Install.RunAuto`). In the wizard a
  passphrase stays set when encryption is switched off. `WizardRuns.PassphraseExactly`: a session has one exactly if one
  was configured or a confirmation was shown with encryption on. `WizardRuns.UnencryptedPassphraseExactly`: a worker
  gets one without encryption exactly if encryption is off when it starts and the session has one.
  `WizardWitnesses.SwitchedOff` is such a run, and `Install.RunFullInstall` shows that its install cannot succeed.
- **Refused enrolment.** Without encryption the encryption stage fails after mounting the target, which then stays
  mounted (`Install.SetUpEncryption`).
- **The passphrase file is removed** after a container was formatted and opened, or a mechanism enrolled. A failed
  format or first opening (`Writer.FormatLuksForRoot`) and a failed enrolment (`Luks.EnrollAndConfigure`) leave it.
- **The integrity check reads everything.** Early end of file counts as success. With the files' own sizes, as its
  callers pass them, it reads every byte (`Install.ChecksEveryByte`).
- **The shadow file keeps its lines**, when all of them end in a line feed, exactly if the last is not blank
  (`Shadow.RewriteKeepsLines`); one that does not end in a line feed always does (`Shadow.RewriteKeepsUnendedLines`).
- **The disk shown first is the configured one** if no two devices share a path (`DiskChoice.DefaultDiskOk`).
- **Partition paths are unique** except for a disk whose name is another's, ending in a digit, followed by `p`
  (`PartitionPaths.PathsCollide`).
- **Templates are canonical text.** The numeral in a placeholder may carry a plus sign and leading zeros, so printing
  a parsed template need not give back the text; parsing printed text gives back the template.

Where the code and its documentation disagree the model follows the code: `enroll_and_configure_encryption` says the
container should not be open, and both callers call it with the container open and mounted; the architecture notes
wipe the disk before the media check, and the code checks first.

## Model

| member | source | states |
|---|---|---|
| Splice.SpliceFdToFd | installer/tui/src/writer/verity.rs:365-466 | for every pattern of short counts and errors the sink gets a prefix of the source, and the copy fails exactly if a call of the kernel does (no pipe, an error, or nothing out of a filled pipe); success delivers exactly the smaller of the expected length and what is left, in order; windows tile what was moved; unflushed data never exceeds 65 MiB and is zero on success; reports rise to the bytes moved |
| Splice.CopyLoop | installer/tui/src/writer/verity.rs:393-458 | the outer loop: the pipe is empty and less than 64 MiB is unflushed between iterations, the remaining count never underflows, it terminates, and it fails exactly if a call of the kernel does |
| Splice.CopyChunk | installer/tui/src/writer/verity.rs:402-440 | one fill of the pipe and its emptying moves exactly the bytes taken from the source, or a call of the kernel failed and it reports how far it got |
| Splice.DrainPipe | installer/tui/src/writer/verity.rs:420-440 | the inner loop empties the pipe into the sink in order, fails exactly on an error or a zero count, and terminates |
| Splice.ReportAndFlush | installer/tui/src/writer/verity.rs:442-452 | after an iteration one report is sent, and a window is flushed exactly when a full interval is due |
| Splice.FlushRest | installer/tui/src/writer/verity.rs:454-456 | what is left after the loop is flushed as the last window |
| Splice.TilesCoverOnce | installer/tui/src/writer/verity.rs:449-456 | tiled windows cover every byte below their end exactly once and do not overlap |
| Splice.IntegrityCheck | installer/tui/src/writer/verity.rs:496-549 | fails exactly if a call of the kernel does, opening a missing file among them; passing reads each listed file up to its listed size, in order, and reports the total |
| Install.ChecksEveryByte | installer/tui/src/writer/manifest.rs:88-100 | with the files' own sizes the check reads every byte of every image, as many as the announced total |
| VerityTrailer.ReadVerityTrailer | installer/tui/src/writer/verity.rs:24-51 | seeking and reading the last eight bytes computes the trailer function of the blob |
| VerityTrailer.TrailerOfLayout | installer/tui/src/writer/verity.rs:608-648 | reading a blob laid out as data, hash tree, padding and trailer gives the data length as offset and the hash and padding size |
| VerityTrailer.TrailerExact | installer/tui/src/writer/verity.rs:29-50 | reading fails exactly when the blob is under eight bytes or the claimed size does not fit; on success offset, size and trailer fill the blob |
| VerityTrailer.LittleEndianRoundTrip | installer/tui/src/writer/verity.rs:40 | decoding the little-endian encoding gives the number back |
| Progress.BarNeverFalls | installer/tui/src/ui.rs:299-373 | over orderly reports the overall bar never falls and stays within 0 and 1, across partitions and phases |
| Progress.FractionInUnit | installer/tui/src/ui.rs:354-372 | one report's bar position is within 0 and 1 and not beyond the end of its phase |
| Writer.PartitionImagesTotalSize | installer/tui/src/writer/manifest.rs:75-84 | the total is the sum of the sizes of images that all exist; only stat calls are made, and only a failed one makes it fail |
| Writer.FormatLuksForRoot | installer/tui/src/writer/luks.rs:13-64 | formatting and opening read the passphrase; success leaves the installer's mapping, taken by nobody before, open on a container formatted just before and empty; a failed format or opening changes no mapping and leaves the passphrase file behind |
| Writer.SpliceToDevice | installer/tui/src/writer/disk_writer.rs:132-177 | success lays exactly the image over the start of its device; failure changes no other device, names a failed command, and when it is the copy itself a call of the kernel failed; no mapping is touched |
| Writer.OwnDevices | installer/tui/src/writer/disk_writer.rs:198-215 | two partitions of a manifest get different devices unless both go through the container |
| Writer.EachImageOnItsDevice | installer/tui/src/writer/disk_writer.rs:198-233 | with distinct devices, after all writes every device begins with exactly its image |
| Writer.AllImagesBegin | installer/tui/src/writer/disk_writer.rs:198-233 | with one encrypted root at most, writing all images leaves each at the start of its own device |
| Writer.WriteOne | installer/tui/src/writer/disk_writer.rs:198-233 | one partition: rules for images kept, its image written, device contents, mapping closed again, reports continue at the offset; whatever fails, the mapping is open exactly if the history left it open, and the error names a failed command |
| Writer.WriteAll | installer/tui/src/writer/disk_writer.rs:195-233 | the loop: the bytes written add up to the sizes of the images, and the devices are those of the specification |
| Writer.LayOutDisk | installer/tui/src/writer/disk_writer.rs:189-193 | success means wiping was tried, the table was created and re-read, and the partition devices exist |
| Writer.WritePartitions | installer/tui/src/writer/disk_writer.rs:181-243 | images are written by the rules whatever fails; the installer's mapping is open at the end exactly if it was opened and not closed since, and then the write fails; the error names a failed command, a failed copy a failed call of the kernel; success means every image was written, by its manifest entry, the devices hold them, with one encrypted root at most each begins its own device, and the last report says all of the total size is written |
| Machine.LeakedMeans | installer/tui/src/writer/disk_writer.rs:246-312 | a leak is exactly a fatal failure after something was acquired |
| Luks.OpenLuksRootAs | installer/tui/src/writer/luks.rs:85-118 | the mapping is open exactly on success, and only under a name that was free |
| Luks.MountTarget | installer/tui/src/firstboot.rs:30-68 | success mounts the root over what was mounted, through its mapping when encrypted; failure leaves mappings unchanged exactly if nothing leaked |
| Luks.UnmountTarget | installer/tui/src/firstboot.rs:71-84 | success takes down the root mount and closes the mapping; a failure leaves one of them and is a leak |
| Luks.EnrollTpmMethod | installer/tui/src/encryption.rs:87-117 | success means the TPM is enrolled and only crypttab changed, to the TPM line; with the target mounted every failure is a leak; a failed enrolment leaves the passphrase file behind |
| Luks.AddRandomKey | installer/tui/src/encryption.rs:123-154 | success means this key was added to the container; failing to add it leaves the passphrase file behind |
| Luks.InstallRandomKey | installer/tui/src/encryption.rs:156-198 | success means the key is installed with its mode set, crypttab and the dracut file name it, and no other file changed |
| Luks.EnrollAndConfigure | installer/tui/src/encryption.rs:35-84 | refused without running anything when not encrypting; success means the mechanism is enrolled and every file dracut must find has its contents; with the target mounted every other failure is a leak |
| DiskWriter.OpenResized | installer/tui/src/writer/disk_writer.rs:249-270 | a failed resize leaves the mapping open, and that is a leak |
| DiskWriter.GrowMounted | installer/tui/src/writer/disk_writer.rs:275-308 | mounts and mapping are given back exactly if nothing leaked; the growth's own failure is reported after clean-up |
| DiskWriter.ExpandRootFilesystem | installer/tui/src/writer/disk_writer.rs:246-312 | mounts and mappings end as they were exactly if nothing leaked; success means the filesystem was grown, when encrypting through the opened and resized container of the root partition |
| DiskWriter.TuneRoot | installer/tui/src/writer/disk_writer.rs:373-395 | a failed btrfstune still closes the mapping; a mapping left open before makes it fail |
| DiskWriter.RandomizeFilesystemUuids | installer/tui/src/writer/disk_writer.rs:315-412 | mappings end as they were exactly if nothing leaked; success means the EFI label and the boot check were tried and both filesystems have new identifiers |
| BootConfig.MountTree | installer/tui/src/writer/disk_writer.rs:469-506 | every mount below the root is tried and none has to succeed |
| BootConfig.StripImageLeftovers | installer/tui/src/writer/disk_writer.rs:533-561 | the portable override and stale initramfs are removed as far as possible; no other file changes |
| BootConfig.CallDracut | installer/tui/src/writer/disk_writer.rs:591-603 | dracut runs only on a stripped target with the files about encryption as they were at the start of the rebuild and the temporary fstab in place, and its failure is no leak |
| BootConfig.RunDracut | installer/tui/src/writer/disk_writer.rs:572-609 | the files end as they were if fstab could be read, whatever dracut did; without an fstab the temporary one stays |
| BootConfig.InstallGrubProbeWrapper | installer/tui/src/writer/disk_writer.rs:788-927 | the real grub-probe is kept aside exactly if there was one, and the wrapper stands in its place |
| BootConfig.RemoveGrubProbeWrapper | installer/tui/src/writer/disk_writer.rs:929-940 | the kept grub-probe is put back, or the wrapper removed, unless that step fails |
| BootConfig.CallUpdateGrub | installer/tui/src/writer/disk_writer.rs:611-627 | update-grub runs only behind the wrapper and, when encrypting, on patched defaults; its failure is no leak |
| BootConfig.RunUpdateGrub | installer/tui/src/writer/disk_writer.rs:611-629 | update-grub's failure is kept for later; every file but the grub defaults ends as it was unless putting it back failed |
| BootConfig.UnmountTree | installer/tui/src/writer/disk_writer.rs:631-644 | no leak means the mount stack and mappings are back to what they were |
| BootConfig.OpenForBoot | installer/tui/src/writer/disk_writer.rs:430-454 | the container is opened under its production name, which must be free |
| BootConfig.RebuildBootConfig | installer/tui/src/writer/disk_writer.rs:415-651 | mounts and mappings end as they were exactly if nothing leaked; failure names a failed command; success means every mount was tried, stale initramfs removal was tried, and dracut and update-grub succeeded; fstab ends as it was if it could be read, and the temporary one stays if there was none; either way grub-probe and all else end with their contents unless putting grub-probe back failed; the files about encryption are never touched |
| Install.CheckDiskSize | installer/tui/src/writer/manifest.rs:103-112 | passes unless an image cannot be asked for its size or the images do not fit; passing means they all exist and fit on the disk, compared by their real total, and failing for size means they really do not |
| Install.CheckMedia | installer/tui/src/run.rs:270-291 | passes unless an image cannot be asked for its size or a call of the kernel fails; passing means every byte of every image was read, and the history says so |
| Install.ReadyAfterQuiet | installer/tui/src/ui/run.rs:700-742 | a stretch of commands without image writes keeps the rules, and with dracut in it if dracut's own conditions hold at its start |
| Install.SetUpEncryption | installer/tui/src/ui/run.rs:715-730 | mounts and mappings end as they were exactly if nothing leaked; without encryption the stage fails and leaves the target mounted if it could be mounted; any other failure names a failed command; success leaves mounts, mappings and passphrase file tidy |
| Install.EncryptionStage | installer/tui/src/ui/run.rs:715-730 | skipped without a passphrase, fails without encryption; success leaves the mechanism enrolled, what dracut needs, and the installer's mapping closed |
| Install.RebuildStage | installer/tui/src/ui/run.rs:733-736 | may start only when dracut's conditions hold, and keeps the rules whatever fails |
| Fstab.NoneLeft | installer/tui/src/firstboot.rs:155-157 | replacing a text that cannot overlap its replacement leaves no occurrence of it |
| Fstab.FixupExact | installer/tui/src/firstboot.rs:151-163 | after the fix-up fstab does not mention the root label, and it changes exactly if it did |
| Install.FixupForEncryptedInstall | installer/tui/src/firstboot.rs:146-183 | the files become exactly those with fstab rewritten if there is one, the hostname emptied when none is configured, and the empty keyfile with its mode set; with the target mounted every failure is a leak |
| Install.AdaptedIsFinished | installer/tui/src/ui/run.rs:753-766 | the adapted target names its variant, its fstab does not mention the root label when encrypted, the hostname is empty when none is configured, and the files dracut needs are the same |
| Install.ConfigureMounted | installer/tui/src/ui/run.rs:753-778 | success leaves exactly the adapted files and the configuration applied |
| Install.ConfigureTarget | installer/tui/src/ui/run.rs:746-783 | mounts and mappings end as they were exactly if nothing leaked, and success leaves the adapted files |
| Install.RunFullInstall | installer/tui/src/ui/run.rs:666-799 | every command run was allowed, nothing but checks before the images were found to fit, every LUKS command reads the given passphrase, and the bar is orderly whatever fails; unless the check passed the machine is untouched; it succeeds unless a command or a call of the kernel failed, the images do not fit, or there is a passphrase without encryption; success means every image is written and on its device, all steps are done in order, all phases announced, the passphrase handed in is returned, the target is bootable, no mapping of the installer is left, and mounts are as before exactly if no unmounting of the root failed, mappings exactly if closing the boot mapping did not |
| Install.RunAuto | installer/tui/src/run.rs:263-431 | the same, with every byte of the media read before anything else when it is a verity mount, else the machine is untouched, and a passphrase exactly when encrypting |
| Install.TidyIsGivenBack | installer/tui/src/ui/run.rs:700-799 | stages that each leave mounts, mappings and passphrase file tidy, one after the other, leave mounts as before exactly if no unmounting of the root failed, mappings exactly if closing the boot mapping did not, and the passphrase file gone or as before unless removing it failed |
| DiskChoice.ResolveExact | installer/tui/src/disk.rs:171-221 | resolving fails exactly if no device qualifies, and otherwise gives the first with the path, the last of the largest, or the first of the smallest |
| DiskChoice.CandidatesQualify | installer/tui/src/disk.rs:176-209 | the candidates are exactly the devices that are not the boot device and match the selector |
| DiskChoice.DefaultDiskOk | installer/tui/src/run.rs:461-465 | the disk selected at first is in range and not the boot device, exists exactly if a device qualifies, and is the resolved one if paths differ |
| PartitionPaths.PathsCollide | installer/tui/src/util.rs:15-25 | two partitions share a path exactly when they are the same, or one disk's name is the other's, ending in a digit, followed by p |
| PartitionPaths.PartitionsDistinct | installer/tui/src/util.rs:15-25 | different partitions of one disk have different paths |
| HostnameTemplate.ParsePlaceholderExact | installer/tui/src/hostname_template.rs:148-172 | a placeholder parses to a segment exactly if its text is the segment's keyword, a colon and a numeral in range with that value |
| HostnameTemplate.Parse | installer/tui/src/hostname_template.rs:93-146 | the character loop with its buffers computes the recursive parse |
| HostnameTemplate.ParsedIsSpelled | installer/tui/src/hostname_template.rs:93-136 | a collected segment list spells the template and has no empty or adjacent literals |
| HostnameTemplate.SpelledIsParsed | installer/tui/src/hostname_template.rs:93-136 | a template that spells such a list is collected to that list |
| HostnameTemplate.ParseExact | installer/tui/src/hostname_template.rs:93-200 | parse returns a list exactly if the template spells it and the list is canonical: a placeholder, ranges, at most 63 characters, no outer hyphen |
| HostnameTemplate.ParsePrint | installer/tui/src/hostname_template.rs:93-200 | parsing the canonical text of a canonical list gives the list back |
| HostnameExpansion.ResolveWithRng | installer/tui/src/hostname_template.rs:207-235 | the drawing loop computes the expansion by the numbers it drew, each within its bound |
| HostnameExpansion.ExpandShape | installer/tui/src/hostname_template.rs:174-235 | an expansion has exactly the computed width, only allowed characters, and no hyphen at an end |
| HostnameExpansion.ExpansionIsValid | installer/tui/src/hostname_template.rs:93-235 | every accepted template, with any draws, expands to the computed length and is accepted by the hostname validator |
| HostnameExpansion.ResolveHostnameTemplate | installer/tui/src/run.rs:574-586 | a given hostname is kept; otherwise the template's hostname passes the validator, or its error is returned |
| HostnameExpansion.ExpandInjective | installer/tui/src/hostname_template.rs:207-235 | different draws give different hostnames |
| HostnameExpansion.CountHostnames | installer/tui/src/hostname_template.rs:207-235 | the number of distinct hostnames is the product of 16 to the n and 10 to the n over the placeholders |
| Text.ZeroPadExact | installer/tui/src/hostname_template.rs:224-230 | a number below 10 to the n, zero-padded, has exactly n digits and keeps its value |
| Validators.ValidateHostnameExact | installer/tui/src/config.rs:347-367 | the validator, which counts bytes, accepts exactly the labels of 1 to 63 letters, digits and inner hyphens |
| Validators.ValidatePassphraseExact | installer/tui/src/config.rs:145-163 | the validator accepts exactly the texts of at least 25 printable ASCII characters |
| Passphrase.GeneratedPassphrase | installer/tui/src/encryption.rs:201-213 | six qualifying words give a passphrase the validator accepts, and splitting it at hyphens gives the six words back |
| Shadow.RewriteKeepsLines | installer/tui/src/firstboot.rs:259-308 | on lines that all end in a line feed, the rewrite maps them and keeps every line end exactly if the last line is not blank |
| Shadow.RewriteKeepsUnendedLines | installer/tui/src/firstboot.rs:259-308 | on a file that does not end in a line feed, the rewrite maps the lines and adds none |
| Shadow.RewriteKeepsFields | installer/tui/src/firstboot.rs:266-288 | a nine-field line gets the hash and the day count and keeps the other seven fields |
| Shadow.RewriteKeepsUser | installer/tui/src/firstboot.rs:266-291 | a rewritten line is still the user's line |
| WizardSafety.FilterIsExact | installer/tui/src/ui.rs:1554-1571 | the filter is the strictly increasing list of exactly the matching indices |
| WizardSafety.TabsAreInverse | installer/tui/src/ui.rs:1080-1143 | Tab and Shift+Tab undo each other and keep the focus on a visible field of the open pane |
| WizardSafety.BuildOk | installer/tui/src/ui.rs:445-590 | the state that is built first is good |
| WizardSafety.KeyOk | installer/tui/src/ui/run.rs:42-453 | no key breaks a good state, changes the disks listed, or changes a passphrase once set |
| WizardKeys.PassExactly | installer/tui/src/ui/run.rs:42-453 | a key leads onward exactly if it passes the screen (media check allowed, target online or the warning answered yes, a disk selected, DHCP or an accepted name, a chosen password, "yes" typed), and then by one step |
| WizardKeys.StartExactly | installer/tui/src/ui/run.rs:418-435 | an install starts exactly when the confirmation is passed |
| WizardKeys.BackUndoesOn | installer/tui/src/ui.rs:999-1069 | going back undoes going on, except from the confirmation and from typing a name while DHCP is chosen |
| WizardKeys.DisksCycle | installer/tui/src/ui.rs:793-806 | Down and Up undo each other, and Down reaches every disk and comes round |
| WizardKeys.EncryptionCycles | installer/tui/src/ui.rs:809-837 | Down and Up undo each other, and Down visits all modes that can be chosen, three with a TPM and two without |
| WizardKeys.TpmNeedsATpm | installer/tui/src/ui.rs:809-837 | over every honest run, TPM encryption is shown and handed over only on a machine with a TPM, unless configured without one |
| WizardKeys.TargetModesCycle | installer/tui/src/ui.rs:1190-1231 | Down and Up undo each other on the target mode exactly unless it copies the current mode against the configuration |
| WizardKeys.OfflineOnPurpose | installer/tui/src/ui.rs:1155-1231 | over every honest run, an install leaves its target offline only if the user touched the target's mode or the configuration says so |
| WizardSafety.WorkerMessagesOk | installer/tui/src/ui/run.rs:525-545 | honest reports change nothing but the screen, and that only to an end screen |
| WizardSafety.TickOk | installer/tui/src/ui/run.rs:501-585 | one turn of the loop keeps every session invariant |
| WizardSafety.RunOk | installer/tui/src/ui/run.rs:490-588 | so does every honest run |
| WizardRuns.VerityGate | installer/tui/src/ui.rs:641-670 | over every honest run, any screen but the first and the error screen, and any started install, implies the media check is not needed or passed |
| WizardRuns.PassphraseAgreement | installer/tui/src/ui.rs:1033-1039 | encrypting, the confirmation has a passphrase; once set it never changes; every worker that got one got this one |
| WizardRuns.PassphrasesValid | installer/tui/src/ui.rs:1033-1039 | if the configured and generated passphrases are valid, every one shown or handed over is |
| WizardRuns.HandedOverComplete | installer/tui/src/ui/run.rs:612-660 | every started install was handed the answers of the turn that started it: the selected disk, the encryption, the passphrase, the form fields, and a password from the file, or typed, not empty, and confirmed equal |
| WizardRuns.PassphraseExactly | installer/tui/src/ui.rs:1033-1039 | over every honest run, a passphrase is set exactly if one was configured or a confirmation was shown with encryption on |
| WizardRuns.UnencryptedPassphraseExactly | installer/tui/src/ui/run.rs:612-660 | a worker is handed a passphrase without encryption exactly if encryption is off when it starts and one was configured or a confirmation was shown with encryption on before |
| WizardRuns.IndicesInRange | installer/tui/src/ui.rs:788-806 | in every reachable state, whatever the environment does, disk index, key cursor and timezone indices are in range, the filter is exact, and the focus is a visible field of the open pane |
| WizardConditions.NoSecondInstall | installer/tui/src/ui/run.rs:437-449 | with no fetch outstanding, an install once started is the last |
| WizardPaths.ChooseMore | installer/tui/src/ui/run.rs:246-319 | whatever the password form holds, keys on the login screen make it a chosen password and change nothing else |
| WizardPaths.ToInstall | installer/tui/src/ui/run.rs:336-435 | from the key list, keys alone start an install, with the hostname as it is |
| WizardConditions.SecondInstall | installer/tui/src/ui.rs:966-993 | with a fetch outstanding there is an honest run that starts a second install |
| WizardPaths.ToKeyList | installer/tui/src/ui/run.rs:42-453 | past the media check and with a disk, keys alone lead from every screen but an end screen to the key list |
| WizardConditions.InstallFollowsExactly | installer/tui/src/ui/run.rs:490-588 | from any state of any honest run from the first screen, a further install can be started exactly if the wizard has not stopped, there is a disk, and a key fetch is outstanding or no end screen is shown |
| WizardConditions.AnotherInstallExactly | installer/tui/src/ui.rs:966-993 | in any honest run from the first screen, at any time after an install was started, another can be exactly if the wizard has not stopped and a key fetch is outstanding or no end screen is shown; just after the start, exactly if a fetch is outstanding |
| WizardConditions.CalmRuns | installer/tui/src/ui/run.rs:501-585 | if no key list arrives on an end screen, a run starts one install at most |
| WizardConditions.HandedHostnameExactly | installer/tui/src/ui/run.rs:612-660 | the handed-over configuration keeps the hostname rule exactly if the form does |
| WizardConditions.KeyKeepsHostname | installer/tui/src/ui/run.rs:190-240 | no key breaks the hostname rule |
| WizardConditions.TimelyRuns | installer/tui/src/ui/run.rs:501-585 | if key lists arrive only while the name typed so far would be accepted, every install is handed DHCP or a hostname the validator accepts |
| WizardConditions.LateNameExactly | installer/tui/src/ui.rs:966-993 | when a key list arrives, on whatever screen, the session can go on, without another list, to hand over a hostname that breaks the rule exactly if the name typed so far would be refused |
| WizardWitnesses.TwoInstalls | installer/tui/src/ui.rs:966-993 | from a session just begun, an honest run with a fetch left running starts two installs |
| WizardWitnesses.BadName | installer/tui/src/ui.rs:974-985 | from a session just begun, an honest run with a fetch left running starts an install with a hostname the validator refuses |
| WizardWitnesses.SwitchedOff | installer/tui/src/ui/run.rs:176-187 | from a session just begun, an honest run that switches encryption off after the confirmation hands over a passphrase without encryption |
| WizardWitnesses.SampleInstallsTwice | installer/tui/src/ui/run.rs:490-588 | a concrete machine starts two installs in one honest run |
| WizardWitnesses.SampleBadName | installer/tui/src/ui/run.rs:490-588 | a concrete machine starts an install with a refused hostname in an honest run |
| WizardWitnesses.SampleSwitchedOff | installer/tui/src/ui/run.rs:490-588 | a concrete machine hands over a passphrase without encryption in an honest run |
| Wizard.AppState.FilterSshKeys | installer/tui/src/ui.rs:1481-1490 | only valid keys stay, one blank entry if none, and the cursor is on an entry |
| Wizard.AppState.PollGithubKeys | installer/tui/src/ui.rs:966-993 | the loops over blank and fetched keys compute the specified list and cursor |
| Wizard.AppState.PollVerityCheck | installer/tui/src/ui.rs:641-662 | the loop over messages ends in the verdict of the last one that has one |
| Wizard.AppState.TimezoneHighlighted | installer/tui/src/ui.rs:1574-1580 | the unchecked index is in range while the filter is current |
| Wizard.AppState.ReceiveWorkerMessages | installer/tui/src/ui/run.rs:525-545 | the loop over messages refines the fold of one message |
| Wizard.AppState.HandleLoginSshKeys | installer/tui/src/ui/run.rs:336-373 | the key-list handler refines its function and never indexes out of range |
| Wizard.AppState.HandleTimezone | installer/tui/src/ui/run.rs:395-416 | the unchecked timezone index is in range, and the key handler refines its function |
| Wizard.AppState.Poll | installer/tui/src/ui/run.rs:503-545 | the polls of one turn, in the loop's order, compute the specified state |
| Wizard.Tui.EventLoop | installer/tui/src/ui/run.rs:490-588 | the loop over turns, stopped by a key, is the run, and keeps the session invariants |
| Wizard.RunTuiScripted | installer/tui/src/ui/run.rs:595-610 | the scripted loop computes the scripted run |
| Wizard.ScriptWaits | installer/tui/src/ui/run.rs:595-610 | since scripts never poll the media check, one that is running keeps them on the first screen |

## Left out

- Rendering, terminal handling, the debug shell and the reboot command: presentation.
- The bodies of external tools; each is a step that may fail. A failed step is taken to change no mapping, mount or device, except that a failed file write may leave anything in that file and a failed image copy leaves a prefix of the image.
- The random draws of the key file and of generated passphrases: parameters.
- Closing a mapping that is still mounted fails in the kernel; the machine allows it, so the proofs cover more behaviours than there are.
- Integers are unbounded; sums of sizes do not wrap.
- `/dev` node discovery and open retries (`writer/device.rs`), BESCONF mounting, finding the manifest and the images device: sysfs and kernel races.
- Opening the verity mount; the disk handed to `run_auto` is a parameter, and how it is chosen is `DiskChoice`.
- `apply_firstboot` beyond the password rewrite (netplan, SSH key files, Tailscale, timezone links): one step that may fail. The contents of the grub-probe wrapper and of the patched grub defaults are opaque values.
- Progress wording, throughput and remaining time; the list of completed phases in the wizard. The bar is computed over reals.
- Static address fields, interface lists and their cycling, the debounced netplan apply, the network check screens' scrolling: they touch none of the modelled fields. Whether github.com is reachable is part of the environment.
- The error texts shown for the GitHub fetch and the media check beyond their cause; SSH key summaries.
- `--start-screen` for scripted runs; scripts are modelled from any state.
- Letters outside ASCII keep their case in the timezone filter.
- Writer.WritePartitions: device contents are tracked until the images are written; later growth and new identifiers change bytes the model does not follow.
- Writer.EachImageOnItsDevice: a manifest with two encrypted root entries would write both through one mapper name; the lemma asks for distinct devices.
- Wizard.AppState.HandleKeyEvent: on the screens without lists the class applies the transition function as one assignment; field-by-field updates there are not modelled.
- Install.RunFullInstall: applying the configuration is one step without effect on the modelled files, so a hostname file it writes is not followed; contents of fstab that the installer itself wrote are taken not to mention the root label.
- Install.RunAuto: the lines it prints stand where the wizard announces phases, and its own progress line is not modelled.
- Luks.MountTarget: the subvolume options of mounts are not modelled.
