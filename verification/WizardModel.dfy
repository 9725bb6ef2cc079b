/** The wizard (`ui.rs`, `ui/run.rs`) as a transition system on values: what each
    key, poll and message makes of the state. */
module WizardModel {
  import opened Wrappers
  import opened Text
  import opened Validators
  import D = DiskChoice
  import L = Luks

  // ---- State ----

  datatype Screen =
    | Welcome | NetworkConfig | NetworkCheck | DiskSelection | DiskEncryption | Hostname | HostnameInput
    | Login | LoginTailscale | LoginSshKeys | LoginGithub | Timezone | NetworkResults | Confirmation
    | Installing | Done | Error(message: string)

  datatype Disks = Disks(devices: seq<D.Device>, index: nat, encryption: L.Encryption, tpmPresent: bool)

  datatype HostnameForm = HostnameForm(input: string, fromDhcp: bool, error: Option<HostnameError>)

  datatype PasswordForm = PasswordForm(
    input: string, repeated: string, confirming: bool, mismatch: bool, empty: bool,
    configPassword: Option<string>, configHash: Option<string>, hasConfig: bool, useConfig: bool)

  datatype SshForm = SshForm(keys: seq<string>, cursor: nat, github: string, fetching: bool, error: Option<string>)

  datatype ZoneForm = ZoneForm(available: seq<string>, search: string, selected: string, filtered: seq<nat>, cursor: nat)

  datatype NetworkMode = Dhcp | StaticIp | Ipv6Slaac | Offline
  datatype TargetMode = CopyCurrent | Own(mode: NetworkMode)
  datatype Pane = IsoPane | TargetPane
  datatype Field = ModeField | InterfaceField | IpField | GatewayField | DnsField | DomainField
  /** A field of one of the two panes. */
  datatype Focus = Focus(pane: Pane, field: Field)

  datatype NetForm = NetForm(iso: NetworkMode, target: TargetMode, pane: Pane, focus: Focus,
                             touched: bool, configHasMode: bool, offlineWarning: bool)

  datatype VerityCheck = NotNeeded | Running | Passed | Failed(message: string)

  datatype State = State(
    screen: Screen, disks: Disks, hostname: HostnameForm, tailscale: string, password: PasswordForm, ssh: SshForm,
    zones: ZoneForm, net: NetForm, confirmInput: string, passphrase: Option<string>,
    verity: VerityCheck, verityOpen: bool)

  // ---- The initial state ----

  /** What the configuration file and the hardware provide. */
  datatype Prefill = Prefill(
    devices: seq<D.Device>, disk: Option<D.Selector>, boot: Option<string>, encryption: L.Encryption, tpmPresent: bool,
    hostname: Option<string>, hasTemplate: bool, tailscale: Option<string>, sshKeys: seq<string>,
    password: Option<string>, passwordHash: Option<string>, timezone: Option<string>, zones: seq<string>,
    isoMode: Option<NetworkMode>, mode: Option<NetworkMode>, passphrase: Option<string>, verityActive: bool)

  function NonBlank(keys: seq<string>): seq<string> {
    if keys == [] then [] else if Blank(keys[0]) then NonBlank(keys[1..]) else [keys[0]] + NonBlank(keys[1..])
  }

  function ZonePosition(zones: seq<string>, zone: string): (k: nat)
    ensures k <= |zones|
  {
    if zones == [] || zones[0] == zone then 0 else 1 + ZonePosition(zones[1..], zone)
  }

  function OrElse<T>(o: Option<T>, t: T): T {
    if o.Some? then o.value else t
  }

  /** The builder, the configured passphrase (`run_interactive`) and the start of the media check (`run_tui`). */
  function Build(p: Prefill): (s: State)
    ensures KeysOk(s.ssh)
  {
    var fromDhcp := !(p.hostname.Some? && !Blank(p.hostname.value)) && !p.hasTemplate;
    var hasPassword := p.password.Some? || p.passwordHash.Some?;
    var keys := NonBlank(p.sshKeys);
    var zone := OrElse(p.timezone, "UTC");
    var k := ZonePosition(p.zones, zone);
    State(
      Welcome,
      Disks(p.devices, OrElse(D.DefaultDisk(p.disk, p.devices, p.boot), 0), p.encryption, p.tpmPresent),
      HostnameForm(OrElse(p.hostname, ""), fromDhcp, None),
      OrElse(p.tailscale, ""),
      PasswordForm("", "", false, false, false, p.password, p.passwordHash, hasPassword, hasPassword),
      SshForm(WithTrailingBlank(if keys == [] then [""] else keys), 0, "", false, None),
      ZoneForm(p.zones, "", zone, seq(|p.zones|, i requires 0 <= i => i), if k < |p.zones| then k else 0),
      NetForm(OrElse(p.isoMode, Dhcp), if p.mode.Some? then Own(p.mode.value) else CopyCurrent,
              IsoPane, Focus(IsoPane, ModeField), false, p.mode.Some?, false),
      "", p.passphrase,
      if p.verityActive then Running else NotNeeded, p.verityActive)
  }

  // ---- Keys ----

  datatype KeyCode = Char(c: char) | Enter | Esc | Backspace | Tab | BackTab | Up | Down | OtherKey
  datatype Key = Key(code: KeyCode, press: bool, alt: bool, ctrl: bool, shift: bool)

  datatype Action = Continue | Reboot | StartWrite | Shell

  /** What a key handler asks of the outside world. */
  datatype Env = Env(githubReachable: bool, freshPassphrase: string)

  function Pop(s: string): string {
    if s == "" then "" else s[..|s| - 1]
  }

  predicate Blank(s: string) {
    Trim(s) == ""
  }

  // ---- Disks ----

  function NextDisk(d: Disks): Disks {
    if d.devices == [] then d else d.(index := (d.index + 1) % |d.devices|)
  }

  function PrevDisk(d: Disks): Disks {
    if d.devices == [] then d else d.(index := if d.index > 0 then d.index - 1 else |d.devices| - 1)
  }

  function SelectedDisk(d: Disks): Option<D.Device> {
    if d.index < |d.devices| then Some(d.devices[d.index]) else None
  }

  function CycleEncryption(d: Disks): Disks {
    d.(encryption :=
      if d.tpmPresent then
        match d.encryption
        case Keyfile => L.NoEncryption
        case NoEncryption => L.Tpm
        case Tpm => L.Keyfile
      else if d.encryption == L.Keyfile then L.NoEncryption else L.Keyfile)
  }

  function CycleEncryptionReverse(d: Disks): Disks {
    d.(encryption :=
      if d.tpmPresent then
        match d.encryption
        case Keyfile => L.Tpm
        case Tpm => L.NoEncryption
        case NoEncryption => L.Keyfile
      else if d.encryption == L.Keyfile then L.NoEncryption else L.Keyfile)
  }

  // ---- Network configuration ----

  function Visible(pane: Pane, fixed: bool): seq<Focus> {
    if fixed then
      [Focus(pane, ModeField), Focus(pane, InterfaceField), Focus(pane, IpField), Focus(pane, GatewayField),
       Focus(pane, DnsField), Focus(pane, DomainField)]
    else [Focus(pane, ModeField)]
  }

  /** All visible fields in tab order. */
  function AllVisible(iso: NetworkMode, target: TargetMode): seq<Focus> {
    Visible(IsoPane, iso == StaticIp) + Visible(TargetPane, target == Own(StaticIp))
  }

  function Position(fields: seq<Focus>, focus: Focus): (k: nat)
    ensures k <= |fields|
    ensures k < |fields| ==> fields[k] == focus
    ensures forall i :: 0 <= i < k ==> fields[i] != focus
  {
    if fields == [] || fields[0] == focus then 0 else 1 + Position(fields[1..], focus)
  }

  function FocusOn(n: NetForm, focus: Focus): NetForm {
    n.(focus := focus, pane := focus.pane)
  }

  function TabForward(n: NetForm): NetForm {
    var all := AllVisible(n.iso, n.target);
    var k := Position(all, n.focus);
    FocusOn(n, if k < |all| then all[(k + 1) % |all|] else all[0])
  }

  function TabBackward(n: NetForm): NetForm {
    var all := AllVisible(n.iso, n.target);
    var k := Position(all, n.focus);
    FocusOn(n, if k < |all| then all[if k == 0 then |all| - 1 else k - 1] else all[|all| - 1])
  }

  function NextMode(mode: NetworkMode): NetworkMode {
    match mode
    case Dhcp => StaticIp
    case StaticIp => Ipv6Slaac
    case Ipv6Slaac => Offline
    case Offline => Dhcp
  }

  function PrevMode(mode: NetworkMode): NetworkMode {
    match mode
    case Dhcp => Offline
    case StaticIp => Dhcp
    case Ipv6Slaac => StaticIp
    case Offline => Ipv6Slaac
  }

  /** A change of the live system's mode: an untouched target does not copy an offline one. */
  function SetIso(n: NetForm, mode: NetworkMode): NetForm {
    n.(iso := mode,
       target := if mode == Offline && n.target == CopyCurrent && !n.touched then Own(Dhcp) else n.target)
  }

  function NextTarget(n: NetForm): NetForm {
    n.(touched := true,
       target :=
         match n.target
         case CopyCurrent => Own(Dhcp)
         case Own(mode) => if mode == Offline && !n.configHasMode then CopyCurrent else Own(NextMode(mode)))
  }

  function PrevTarget(n: NetForm): NetForm {
    n.(touched := true,
       target :=
         match n.target
         case CopyCurrent => Own(Offline)
         case Own(mode) => if mode == Dhcp && !n.configHasMode then CopyCurrent else Own(PrevMode(mode)))
  }

  function EffectiveMode(n: NetForm): NetworkMode {
    match n.target
    case CopyCurrent => n.iso
    case Own(mode) => mode
  }

  // ---- SSH keys ----

  const SSH_KEY_PREFIXES: seq<string> := [
    "ssh-rsa", "ssh-ed25519", "ssh-dss", "ecdsa-sha2-nistp256", "ecdsa-sha2-nistp384", "ecdsa-sha2-nistp521",
    "sk-ssh-ed25519@openssh.com", "sk-ecdsa-sha2-nistp256@openssh.com"]

  predicate KeyAfterPrefix(rest: string) {
    rest != "" && rest[0] == ' ' && Trim(rest) != "" && exists i :: 1 <= i < |rest| && !IsWhitespace(rest[i])
  }

  predicate IsValidSshKey(key: string) {
    var trimmed := Trim(key);
    exists p :: 0 <= p < |SSH_KEY_PREFIXES| && SSH_KEY_PREFIXES[p] <= trimmed
      && KeyAfterPrefix(trimmed[|SSH_KEY_PREFIXES[p]|..])
  }

  function ValidKeys(keys: seq<string>): seq<string> {
    if keys == [] then []
    else if !Blank(keys[0]) && IsValidSshKey(keys[0]) then [keys[0]] + ValidKeys(keys[1..])
    else ValidKeys(keys[1..])
  }

  /** The cursor is on a key: what indexing the list relies on. */
  predicate KeysOk(f: SshForm) {
    f.cursor < |f.keys|
  }

  function FilterKeys(f: SshForm): (r: SshForm)
    ensures KeysOk(r) && r == f.(keys := r.keys, cursor := r.cursor)
  {
    var keys := if ValidKeys(f.keys) == [] then [""] else ValidKeys(f.keys);
    f.(keys := keys, cursor := if f.cursor >= |keys| then 0 else f.cursor)
  }

  function WithTrailingBlank(keys: seq<string>): seq<string> {
    if keys == [] || !Blank(keys[|keys| - 1]) then keys + [""] else keys
  }

  function DropTrailingBlanks(keys: seq<string>): (r: seq<string>)
    ensures r <= keys && (r == [] || !Blank(r[|r| - 1]))
    ensures forall i :: |r| <= i < |keys| ==> Blank(keys[i])
  {
    if keys != [] && Blank(keys[|keys| - 1]) then DropTrailingBlanks(keys[..|keys| - 1]) else keys
  }

  // ---- Timezones ----

  predicate Contains(s: string, part: string) {
    exists i :: 0 <= i <= |s| && part <= s[i..]
  }

  predicate Matches(zone: string, search: string) {
    search == "" || Contains(Lower(zone), Lower(search))
  }

  /** Indices below `n` of the zones that match. */
  function MatchingZones(available: seq<string>, search: string, n: nat): seq<nat>
    requires n <= |available|
  {
    if n == 0 then []
    else
      MatchingZones(available, search, n - 1) + if Matches(available[n - 1], search) then [n - 1] else []
  }

  function Refilter(z: ZoneForm): ZoneForm {
    var filtered := MatchingZones(z.available, z.search, |z.available|);
    z.(filtered := filtered, cursor := if z.cursor >= |filtered| then 0 else z.cursor)
  }

  function Highlighted(z: ZoneForm): string {
    if z.cursor < |z.filtered| && z.filtered[z.cursor] < |z.available| then z.available[z.filtered[z.cursor]]
    else z.selected
  }

  // ---- Moving between screens ----

  predicate VerityAllows(v: VerityCheck) {
    v == NotNeeded || v == Passed
  }

  function Advance(s: State, env: Env): State {
    match s.screen
    case Welcome => if VerityAllows(s.verity) then s.(screen := NetworkConfig) else s
    case NetworkConfig =>
      if s.net.target == Own(Offline) && !s.net.offlineWarning then s.(net := s.net.(offlineWarning := true))
      else s.(net := s.net.(offlineWarning := false), screen := DiskSelection)
    case DiskSelection => s.(screen := DiskEncryption)
    case DiskEncryption => s.(screen := Hostname)
    case Hostname => s.(screen := if s.hostname.fromDhcp then Login else HostnameInput)
    case HostnameInput => s.(screen := Login)
    case Login => s.(screen := Timezone)
    case Timezone => s.(screen := NetworkResults)
    case NetworkResults =>
      if s.disks.encryption.IsEncrypted() && s.passphrase.None? then
        s.(passphrase := Some(env.freshPassphrase), screen := Confirmation)
      else s.(screen := Confirmation)
    case Confirmation => s.(screen := Installing)
    case _ => s
  }

  function GoBack(s: State): State {
    match s.screen
    case NetworkConfig => s.(screen := Welcome)
    case NetworkCheck => s.(screen := NetworkConfig)
    case DiskSelection => s.(screen := NetworkConfig)
    case DiskEncryption => s.(screen := DiskSelection)
    case Hostname => s.(screen := DiskEncryption)
    case HostnameInput => s.(screen := Hostname)
    case Login => s.(screen := if s.hostname.fromDhcp then Hostname else HostnameInput)
    case LoginTailscale => s.(screen := Login)
    case LoginSshKeys => s.(screen := Login)
    case LoginGithub => s.(screen := Login)
    case Timezone => s.(screen := Login)
    case NetworkResults => s.(screen := Timezone)
    case Confirmation => s.(screen := NetworkResults)
    case _ => s
  }

  // ---- Keys, screen by screen ----

  function WelcomeKey(s: State, key: Key, env: Env): (State, Action) {
    if key.code == Char('q') then (s, Reboot)
    else if key.code == Enter then (Advance(s, env), Continue)
    else (s, Continue)
  }

  function OfflineWarningKey(s: State, key: Key): State {
    if key.code == Char('y') then s.(net := s.net.(offlineWarning := false), screen := DiskSelection)
    else if key.code == Char('n') || key.code == Esc then s.(net := s.net.(offlineWarning := false))
    else s
  }

  /** Down and Up on a mode selector. */
  function ModeKey(n: NetForm, forward: bool): NetForm {
    if n.focus == Focus(IsoPane, ModeField) then SetIso(n, if forward then NextMode(n.iso) else PrevMode(n.iso))
    else if n.focus == Focus(TargetPane, ModeField) then if forward then NextTarget(n) else PrevTarget(n)
    else n
  }

  /** Keys that move between fields or act on the focused one. */
  function FieldKey(n: NetForm, key: Key): NetForm {
    if (key.code == Tab && (key.shift || key.alt)) || key.code == BackTab then TabBackward(n)
    else if key.code == Tab then TabForward(n)
    else if key.code == Down || key.code == Char('j') then ModeKey(n, true)
    else if key.code == Up || key.code == Char('k') then ModeKey(n, false)
    else n
  }

  function NetworkConfigKey(s: State, key: Key, env: Env): (State, Action) {
    if s.net.offlineWarning then (OfflineWarningKey(s, key), Continue)
    else if key.code == Char('q') then (s, Reboot)
    else if key.code == Esc then (GoBack(s), Continue)
    else if key.code == Enter then
      // The target pane must have been seen before moving on.
      if s.net.pane == IsoPane then (s.(net := s.net.(pane := TargetPane, focus := Focus(TargetPane, ModeField))), Continue)
      else (Advance(s, env), Continue)
    else if key.code == Char('c') && key.alt then (s.(screen := NetworkCheck), Continue)
    else (s.(net := FieldKey(s.net, key)), Continue)
  }

  function NetworkCheckKey(s: State, key: Key): (State, Action) {
    if key.code == Char('q') then (s, Reboot)
    else if key.code == Esc then (GoBack(s), Continue)
    else (s, Continue)
  }

  function NetworkResultsKey(s: State, key: Key, env: Env): (State, Action) {
    if key.code == Char('q') then (s, Reboot)
    else if key.code == Esc then (GoBack(s), Continue)
    else if key.code == Enter then (Advance(s, env), Continue)
    else (s, Continue)
  }

  function DiskSelectionKey(s: State, key: Key, env: Env): (State, Action) {
    if key.code == Char('q') then (s, Reboot)
    else if key.code == Esc then (GoBack(s), Continue)
    else if key.code == Up || key.code == Char('k') then (s.(disks := PrevDisk(s.disks)), Continue)
    else if key.code == Down || key.code == Char('j') then (s.(disks := NextDisk(s.disks)), Continue)
    else if key.code == Enter && SelectedDisk(s.disks).Some? then (Advance(s, env), Continue)
    else (s, Continue)
  }

  function DiskEncryptionKey(s: State, key: Key, env: Env): (State, Action) {
    if key.code == Char('q') then (s, Reboot)
    else if key.code == Esc then (GoBack(s), Continue)
    else if key.code == Down || key.code == Char('j') then (s.(disks := CycleEncryption(s.disks)), Continue)
    else if key.code == Up || key.code == Char('k') then (s.(disks := CycleEncryptionReverse(s.disks)), Continue)
    else if key.code == Enter then (Advance(s, env), Continue)
    else (s, Continue)
  }

  function HostnameKey(s: State, key: Key, env: Env): State {
    if key.code == Esc then GoBack(s)
    else if key.code == Up || key.code == Down then s.(hostname := s.hostname.(fromDhcp := !s.hostname.fromDhcp))
    else if key.code == Enter then Advance(s, env)
    else s
  }

  function HostnameErrorOf(input: string): Option<HostnameError> {
    match ValidateHostname(Trim(input))
    case Pass => None
    case Fail(e) => Some(e)
  }

  /** Retyping a blank name shows no error. */
  function Retyped(input: string): Option<HostnameError> {
    if Blank(input) then None else HostnameErrorOf(input)
  }

  function HostnameInputKey(s: State, key: Key, env: Env): State {
    match key.code
    case Esc => GoBack(s.(hostname := s.hostname.(error := None)))
    case Enter =>
      var error := HostnameErrorOf(s.hostname.input);
      var checked := s.(hostname := s.hostname.(error := error));
      if error.None? then Advance(checked, env) else checked
    case Backspace =>
      var input := Pop(s.hostname.input);
      s.(hostname := s.hostname.(input := input, error := Retyped(input)))
    case Char(c) =>
      var input := s.hostname.input + [c];
      s.(hostname := s.hostname.(input := input, error := Retyped(input)))
    case _ => s
  }

  /** The password comes from the configuration file. */
  predicate UsesConfig(p: PasswordForm) {
    p.hasConfig && p.useConfig
  }

  function LoginEnter(s: State, env: Env): State {
    var p := s.password;
    if UsesConfig(p) then Advance(s, env)
    else if !p.confirming then s.(password := p.(confirming := true, mismatch := false, empty := false))
    else if p.input == "" && p.repeated == "" then s.(password := p.(empty := true, mismatch := false))
    else if p.input == p.repeated then Advance(s.(password := p.(mismatch := false, empty := false)), env)
    else s.(password := p.(mismatch := true, empty := false))
  }

  function LoginTyped(p: PasswordForm, c: char): PasswordForm {
    if UsesConfig(p) then p.(useConfig := false, input := p.input + [c])
    else if p.confirming then p.(empty := false, repeated := p.repeated + [c])
    else p.(empty := false, input := p.input + [c])
  }

  function LoginErased(p: PasswordForm): PasswordForm {
    if UsesConfig(p) then p.(useConfig := false)
    else if p.confirming then p.(repeated := Pop(p.repeated))
    else p.(input := Pop(p.input))
  }

  function LoginKey(s: State, key: Key, env: Env): State {
    var p := s.password;
    if key.code == Esc then
      if p.confirming then s.(password := p.(confirming := false, mismatch := false, empty := false)) else GoBack(s)
    else if key.code == Char('t') && key.alt then s.(screen := LoginTailscale)
    else if key.code == Char('s') && key.alt then s.(screen := LoginSshKeys)
    else if key.code == Char('g') && key.alt && env.githubReachable then s.(screen := LoginGithub)
    else if (key.code == Up || key.code == Down) && p.hasConfig && !p.confirming && p.input == "" then
      s.(password := p.(useConfig := !p.useConfig))
    else if key.code == Enter || key.code == Tab then LoginEnter(s, env)
    else if key.code == Backspace then s.(password := LoginErased(p))
    else if key.code.Char? then s.(password := LoginTyped(p, key.code.c))
    else s
  }

  function LoginTailscaleKey(s: State, key: Key): State {
    match key.code
    case Esc => s.(screen := Login)
    case Enter => s.(screen := Login)
    case Backspace => s.(tailscale := Pop(s.tailscale))
    case Char(c) => s.(tailscale := s.tailscale + [c])
    case _ => s
  }

  function KeyListKey(f: SshForm, key: Key): (r: SshForm)
    requires KeysOk(f)
    ensures KeysOk(r)
  {
    if (key.code == Tab && (key.shift || key.alt)) || key.code == BackTab then
      f.(cursor := if f.cursor == 0 then |f.keys| - 1 else f.cursor - 1)
    else if key.code == Tab then f.(cursor := (f.cursor + 1) % |f.keys|)
    else if key.code == Backspace then f.(keys := f.keys[f.cursor := Pop(f.keys[f.cursor])])
    else if key.code.Char? then
      f.(keys := WithTrailingBlank(f.keys[f.cursor := f.keys[f.cursor] + [key.code.c]]))
    else f
  }

  function LoginSshKeysKey(s: State, key: Key): (r: State)
    requires KeysOk(s.ssh)
    ensures KeysOk(r.ssh)
  {
    if key.code == Esc || key.code == Enter then s.(ssh := FilterKeys(s.ssh), screen := Login)
    else s.(ssh := KeyListKey(s.ssh, key))
  }

  function StartFetch(f: SshForm): SshForm {
    if Blank(f.github) then f.(error := Some("username is empty")) else f.(fetching := true, error := None)
  }

  function LoginGithubKey(s: State, key: Key): State {
    match key.code
    case Esc => s.(screen := Login)
    case Enter => if s.ssh.fetching then s else s.(ssh := StartFetch(s.ssh))
    case Backspace => s.(ssh := s.ssh.(github := Pop(s.ssh.github), error := None))
    case Char(c) => s.(ssh := s.ssh.(github := s.ssh.github + [c], error := None))
    case _ => s
  }

  function ZoneKey(z: ZoneForm, key: Key): ZoneForm {
    match key.code
    case Up => if z.cursor > 0 then z.(cursor := z.cursor - 1) else z
    case Down => if z.cursor + 1 < |z.filtered| then z.(cursor := z.cursor + 1) else z
    case Backspace => Refilter(z.(search := Pop(z.search)))
    case Char(c) => Refilter(z.(search := z.search + [c]))
    case _ => z
  }

  function TimezoneKey(s: State, key: Key, env: Env): State {
    if key.code == Esc then GoBack(s)
    else if key.code == Enter then Advance(s.(zones := s.zones.(selected := Highlighted(s.zones))), env)
    else s.(zones := ZoneKey(s.zones, key))
  }

  predicate IsConfirmed(input: string) {
    Lower(Trim(input)) == "yes"
  }

  function ConfirmationKey(s: State, key: Key, env: Env): (State, Action) {
    if key.code == Char('q') && s.confirmInput == "" then (s, Reboot)
    else if key.code == Esc then (GoBack(s.(confirmInput := "")), Continue)
    else if key.code == Backspace then (s.(confirmInput := Pop(s.confirmInput)), Continue)
    else if key.code == Enter && IsConfirmed(s.confirmInput) then (Advance(s, env), StartWrite)
    else if key.code.Char? then (s.(confirmInput := s.confirmInput + [key.code.c]), Continue)
    else (s, Continue)
  }

  /** `handle_key`. */
  function HandleKey(s: State, key: Key, env: Env): (r: (State, Action))
    requires KeysOk(s.ssh)
    ensures KeysOk(r.0.ssh)
  {
    if !key.press then (s, Continue)
    else if key.alt && key.ctrl && key.code == Char('d') then (s, Shell)
    else
      match s.screen
      case Welcome => WelcomeKey(s, key, env)
      case NetworkConfig => NetworkConfigKey(s, key, env)
      case NetworkCheck => NetworkCheckKey(s, key)
      case NetworkResults => NetworkResultsKey(s, key, env)
      case DiskSelection => DiskSelectionKey(s, key, env)
      case DiskEncryption => DiskEncryptionKey(s, key, env)
      case Hostname => (HostnameKey(s, key, env), Continue)
      case HostnameInput => (HostnameInputKey(s, key, env), Continue)
      case Login => (LoginKey(s, key, env), Continue)
      case LoginTailscale => (LoginTailscaleKey(s, key), Continue)
      case LoginSshKeys => (LoginSshKeysKey(s, key), Continue)
      case LoginGithub => (LoginGithubKey(s, key), Continue)
      case Timezone => (TimezoneKey(s, key, env), Continue)
      case Confirmation => ConfirmationKey(s, key, env)
      case Installing => (s, Continue)
      case Done => (s, if key.code == Enter then Reboot else Continue)
      case Error(_) => (s, Reboot)
  }

  // ---- Polls and messages ----

  datatype GithubResult = GithubResult(success: bool, keys: seq<string>, error: Option<string>)

  function PollGithub(s: State, result: GithubResult): (r: State)
    ensures KeysOk(s.ssh) || result.success ==> KeysOk(r.ssh)
  {
    if result.success then
      var kept := DropTrailingBlanks(s.ssh.keys);
      s.(ssh := s.ssh.(fetching := false, error := None, keys := WithTrailingBlank(kept + result.keys), cursor := |kept|),
         screen := LoginSshKeys)
    else s.(ssh := s.ssh.(fetching := false, error := result.error))
  }

  datatype VerityMessage = VerityProgress | VerityDone | VerityError(message: string)

  function PollVerity(v: VerityCheck, messages: seq<VerityMessage>): VerityCheck {
    if messages == [] then v
    else
      match messages[|messages| - 1]
      case VerityProgress => PollVerity(v, messages[..|messages| - 1])
      case VerityDone => Passed
      case VerityError(e) => Failed(e)
  }

  /** A failed media check takes over whatever screen is shown. */
  function ShowVerityFailure(s: State): State {
    match s.verity
    case Failed(e) => s.(screen := Error("Installation media integrity check failed: " + e))
    case _ => s
  }

  datatype WorkerMessage = WorkerProgress | InstallDone(passphrase: Option<string>) | InstallError(message: string)

  function OneWorkerMessage(s: State, message: WorkerMessage): State {
    match message
    case WorkerProgress => s
    case InstallDone(p) => s.(passphrase := if p.Some? then p else s.passphrase, screen := Done)
    case InstallError(e) => s.(screen := Error(e))
  }

  function WorkerMessages(s: State, messages: seq<WorkerMessage>): (r: State)
    ensures r == s.(screen := r.screen, passphrase := r.passphrase)
  {
    if messages == [] then s
    else OneWorkerMessage(WorkerMessages(s, messages[..|messages| - 1]), messages[|messages| - 1])
  }

  // ---- What is handed to the worker ----

  datatype InstallConfig = InstallConfig(
    hostname: Option<string>, hostnameFromDhcp: bool, tailscaleAuthkey: Option<string>, sshAuthorizedKeys: seq<string>,
    password: Option<string>, passwordHash: Option<string>, timezone: Option<string>, networkMode: NetworkMode)

  function TrimmedKeys(keys: seq<string>): seq<string> {
    if keys == [] then []
    else if Blank(keys[0]) then TrimmedKeys(keys[1..])
    else [Trim(keys[0])] + TrimmedKeys(keys[1..])
  }

  /** `install_config_fields`, without the static addresses. */
  function ConfigFields(s: State): InstallConfig {
    InstallConfig(
      if !s.hostname.fromDhcp && !Blank(s.hostname.input) then Some(Trim(s.hostname.input)) else None,
      s.hostname.fromDhcp,
      if Blank(s.tailscale) then None else Some(Trim(s.tailscale)),
      TrimmedKeys(s.ssh.keys),
      if UsesConfig(s.password) then s.password.configPassword
      else if s.password.input == "" then None else Some(s.password.input),
      if UsesConfig(s.password) then s.password.configHash else None,
      if s.zones.selected == "UTC" then None else Some(s.zones.selected),
      EffectiveMode(s.net))
  }

  datatype Handed = Handed(device: D.Device, encryption: L.Encryption, passphrase: Option<string>, config: InstallConfig)

  // ---- The event loop ----

  /** The wizard, every worker it has started, and whether it has stopped. */
  datatype Session = Session(state: State, handed: seq<Handed>, stopped: bool)

  /** What one turn of the loop finds: results, messages, and a key. */
  datatype Input = Input(github: Option<GithubResult>, verity: seq<VerityMessage>, worker: seq<WorkerMessage>,
                         key: Option<Key>, env: Env)

  /** The polls of one turn, up to the point where a key is read. */
  function Polled(s: State, input: Input): (r: State)
    requires KeysOk(s.ssh)
    ensures KeysOk(r.ssh)
  {
    var s1 := if input.github.Some? then PollGithub(s, input.github.value) else s;
    var s2 := if s1.verityOpen then s1.(verity := PollVerity(s1.verity, input.verity)) else s1;
    WorkerMessages(ShowVerityFailure(s2), input.worker)
  }

  /** `spawn_install_worker`; without a disk no worker starts. */
  function Spawned(s: State): seq<Handed> {
    match SelectedDisk(s.disks)
    case None => []
    case Some(d) => [Handed(d, s.disks.encryption, s.passphrase, ConfigFields(s))]
  }

  /** What a key makes of the session. */
  function Keyed(x: Session, key: Key, env: Env): (r: Session)
    requires KeysOk(x.state.ssh)
    ensures KeysOk(r.state.ssh)
  {
    var (s, action) := HandleKey(x.state, key, env);
    Session(s, if action == StartWrite then x.handed + Spawned(s) else x.handed, action == Reboot)
  }

  /** One turn of the loop; a stopped wizard does nothing. */
  function Tick(x: Session, input: Input): (r: Session)
    requires KeysOk(x.state.ssh)
    ensures KeysOk(r.state.ssh)
  {
    if x.stopped then x
    else
      var polled := x.(state := Polled(x.state, input));
      if input.key.None? then polled else Keyed(polled, input.key.value, input.env)
  }

  function Run(x: Session, inputs: seq<Input>): (r: Session)
    requires KeysOk(x.state.ssh)
    ensures KeysOk(r.state.ssh)
  {
    if inputs == [] then x else Tick(Run(x, inputs[..|inputs| - 1]), inputs[|inputs| - 1])
  }
}
