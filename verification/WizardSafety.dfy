/** What the wizard keeps over every run of keys, polls and worker messages. */
module WizardSafety {
  import opened Wrappers
  import opened Text
  import opened Validators
  import opened WizardModel

  // ---- The forms ----

  /** The filtered list is current, and the cursor is on it. */
  predicate ZonesOk(z: ZoneForm) {
    && z.filtered == MatchingZones(z.available, z.search, |z.available|)
    && (z.cursor < |z.filtered| || (z.cursor == 0 && z.filtered == []))
  }

  /** The filter lists exactly the matching indices, each once, in rising order. */
  lemma {:induction false} FilterIsExact(available: seq<string>, search: string, n: nat)
    requires n <= |available|
    ensures var f := MatchingZones(available, search, n);
      && (forall i, j :: 0 <= i < j < |f| ==> f[i] < f[j])
      && (forall i :: 0 <= i < |f| ==> f[i] < n)
      && (forall k :: 0 <= k < n ==> (k in f <==> Matches(available[k], search)))
  {
    hide Matches;
    if n > 0 {
      FilterIsExact(available, search, n - 1);
    }
  }

  /** Without a search string everything is listed. */
  lemma {:induction false} NoSearch(available: seq<string>, n: nat)
    requires n <= |available|
    ensures MatchingZones(available, "", n) == seq(n, i requires 0 <= i => i)
  {
    if n > 0 {
      NoSearch(available, n - 1);
    }
  }

  /** The focus is a visible field of the open pane. */
  predicate NetOk(n: NetForm) {
    n.focus in AllVisible(n.iso, n.target) && n.pane == n.focus.pane
  }

  lemma VisibleOnce(iso: NetworkMode, target: TargetMode, i: nat, j: nat)
    requires i < j < |AllVisible(iso, target)|
    ensures AllVisible(iso, target)[i] != AllVisible(iso, target)[j]
  {
  }

  lemma PositionOf(iso: NetworkMode, target: TargetMode, k: nat)
    requires k < |AllVisible(iso, target)|
    ensures Position(AllVisible(iso, target), AllVisible(iso, target)[k]) == k
  {
    var p := Position(AllVisible(iso, target), AllVisible(iso, target)[k]);
    if p < k {
      VisibleOnce(iso, target, p, k);
    }
  }

  /** Where Tab and Shift+Tab go from field `k`. */
  lemma TabMoves(n: NetForm, k: nat)
    requires k < |AllVisible(n.iso, n.target)| && n.focus == AllVisible(n.iso, n.target)[k]
    ensures var all := AllVisible(n.iso, n.target);
      && TabForward(n) == FocusOn(n, all[if k + 1 < |all| then k + 1 else 0])
      && TabBackward(n) == FocusOn(n, all[if k > 0 then k - 1 else |all| - 1])
  {
    hide AllVisible, Position;
    var all := AllVisible(n.iso, n.target);
    PositionOf(n.iso, n.target, k);
    assert (k + 1) % |all| == if k + 1 < |all| then k + 1 else 0;
  }

  /** Tab and Shift+Tab undo each other. */
  lemma TabsAreInverse(n: NetForm)
    requires NetOk(n)
    ensures TabBackward(TabForward(n)) == n && TabForward(TabBackward(n)) == n
    ensures NetOk(TabForward(n)) && NetOk(TabBackward(n))
  {
    hide AllVisible, TabForward, TabBackward;
    var all := AllVisible(n.iso, n.target);
    var k :| 0 <= k < |all| && all[k] == n.focus;
    TabMoves(n, k);
    TabMoves(TabForward(n), if k + 1 < |all| then k + 1 else 0);
    TabMoves(TabBackward(n), if k > 0 then k - 1 else |all| - 1);
  }

  lemma ModeFieldsVisible(iso: NetworkMode, target: TargetMode)
    ensures Focus(IsoPane, ModeField) in AllVisible(iso, target)
    ensures Focus(TargetPane, ModeField) in AllVisible(iso, target)
  {
    var all := AllVisible(iso, target);
    assert all[0] == Focus(IsoPane, ModeField);
    assert all[|Visible(IsoPane, iso == StaticIp)|] == Focus(TargetPane, ModeField);
  }

  lemma FieldKeyOk(n: NetForm, key: Key)
    requires NetOk(n)
    ensures NetOk(FieldKey(n, key))
  {
    hide AllVisible, TabForward, TabBackward;
    TabsAreInverse(n);
    var r := FieldKey(n, key);
    ModeFieldsVisible(r.iso, r.target);
  }

  // ---- The screens ----

  /** How far a screen is along the wizard; the end screens count as none. */
  function Rank(screen: Screen): nat {
    match screen
    case Welcome => 0
    case NetworkConfig => 1
    case NetworkCheck => 1
    case DiskSelection => 2
    case DiskEncryption => 3
    case Hostname => 4
    case HostnameInput => 4
    case Login => 5
    case LoginTailscale => 5
    case LoginSshKeys => 5
    case LoginGithub => 5
    case Timezone => 6
    case NetworkResults => 7
    case Confirmation => 8
    case Installing => 9
    case Done => 0
    case Error(_) => 0
  }

  /** From the configuration file, or typed, not empty, and confirmed equal. */
  predicate PasswordChosen(p: PasswordForm) {
    UsesConfig(p) || (p.confirming && p.input != "" && p.input == p.repeated)
  }

  predicate DisksOk(d: Disks) {
    d.devices == [] || d.index < |d.devices|
  }

  predicate PasswordOk(p: PasswordForm) {
    p.hasConfig <==> p.configPassword.Some? || p.configHash.Some?
  }

  /** Every index is in range, whatever the environment does. */
  predicate FormsOk(s: State) {
    KeysOk(s.ssh) && ZonesOk(s.zones) && NetOk(s.net) && DisksOk(s.disks) && PasswordOk(s.password)
  }

  /** What having reached a screen means. */
  predicate ReachedOk(s: State) {
    && (Rank(s.screen) >= 3 || s.ssh.fetching ==> SelectedDisk(s.disks).Some?)
    && (Rank(s.screen) >= 6 ==> PasswordChosen(s.password))
    && (Rank(s.screen) >= 8 && s.disks.encryption.IsEncrypted() ==> s.passphrase.Some?)
  }

  /** Past the welcome screen the media check has passed or is not needed. */
  predicate Gate(s: State) {
    (s.screen != Welcome && !s.screen.Error?) || s.ssh.fetching ==> VerityAllows(s.verity)
  }

  predicate StateOk(s: State) {
    FormsOk(s) && ReachedOk(s) && Gate(s)
  }

  lemma BuildOk(p: Prefill)
    ensures StateOk(Build(p))
  {
    NoSearch(p.zones, |p.zones|);
  }

  /** The devices and a passphrase once set stay. */
  predicate Keeps(s: State, t: State) {
    t.disks.devices == s.disks.devices && (s.passphrase.Some? ==> t.passphrase == s.passphrase)
  }

  /** What every key does to a good state. */
  predicate Onward(s: State, t: State) {
    StateOk(t) && Keeps(s, t) && t.verity == s.verity && t.verityOpen == s.verityOpen
  }

  lemma Unmoved(s: State)
    requires StateOk(s)
    ensures KeysOk(s.ssh) && Onward(s, s)
  {
  }

  lemma AdvanceOk(s: State, env: Env)
    requires StateOk(s)
    requires s.screen == Login ==> PasswordChosen(s.password)
    requires s.screen == DiskSelection ==> SelectedDisk(s.disks).Some?
    ensures Onward(s, Advance(s, env))
  {
    hide ZonesOk, AllVisible;
  }

  lemma GoBackOk(s: State)
    requires StateOk(s)
    ensures Onward(s, GoBack(s))
  {
    hide ZonesOk, NetOk;
  }

  lemma NetworkConfigKeyOk(s: State, key: Key, env: Env)
    requires StateOk(s) && s.screen == NetworkConfig
    ensures Onward(s, NetworkConfigKey(s, key, env).0)
  {
    hide ZonesOk, AllVisible, FieldKey, Advance, GoBack, DisksOk, PasswordOk, PasswordChosen, SelectedDisk;
    AdvanceOk(s, env);
    GoBackOk(s);
    FieldKeyOk(s.net, key);
    ModeFieldsVisible(s.net.iso, s.net.target);
  }

  lemma DiskSelectionKeyOk(s: State, key: Key, env: Env)
    requires StateOk(s) && s.screen == DiskSelection
    ensures Onward(s, DiskSelectionKey(s, key, env).0)
  {
    hide ZonesOk, NetOk, GoBack;
    GoBackOk(s);
  }

  lemma DiskEncryptionKeyOk(s: State, key: Key, env: Env)
    requires StateOk(s) && s.screen == DiskEncryption
    ensures Onward(s, DiskEncryptionKey(s, key, env).0)
  {
    hide ZonesOk, NetOk, GoBack, Advance;
    GoBackOk(s);
    AdvanceOk(s, env);
  }

  lemma HostnameKeyOk(s: State, key: Key, env: Env)
    requires StateOk(s) && s.screen == Hostname
    ensures Onward(s, HostnameKey(s, key, env))
  {
    hide ZonesOk, NetOk, GoBack, Advance;
    GoBackOk(s);
    AdvanceOk(s, env);
  }

  lemma HostnameInputKeyOk(s: State, key: Key, env: Env)
    requires StateOk(s) && s.screen == HostnameInput
    ensures Onward(s, HostnameInputKey(s, key, env))
  {
    hide ZonesOk, NetOk, HostnameErrorOf, Retyped, GoBack, Advance;
    var cleared := s.(hostname := s.hostname.(error := None));
    GoBackOk(cleared);
    AdvanceOk(s.(hostname := s.hostname.(error := HostnameErrorOf(s.hostname.input))), env);
  }

  lemma LoginEnterOk(s: State, env: Env)
    requires StateOk(s) && s.screen == Login
    ensures Onward(s, LoginEnter(s, env))
  {
    hide ZonesOk, NetOk;
  }

  lemma LoginKeyOk(s: State, key: Key, env: Env)
    requires StateOk(s) && s.screen == Login
    ensures Onward(s, LoginKey(s, key, env))
  {
    hide ZonesOk, NetOk, DisksOk, PasswordChosen, SelectedDisk, LoginEnter, GoBack, LoginTyped, LoginErased;
    LoginEnterOk(s, env);
    GoBackOk(s);
    TypingOk(s.password, key);
  }

  lemma TypingOk(p: PasswordForm, key: Key)
    requires PasswordOk(p)
    ensures PasswordOk(LoginErased(p)) && (key.code.Char? ==> PasswordOk(LoginTyped(p, key.code.c)))
  {
  }

  lemma LoginScreensOk(s: State, key: Key)
    requires StateOk(s)
    ensures s.screen == LoginTailscale ==> Onward(s, LoginTailscaleKey(s, key))
    ensures s.screen == LoginSshKeys ==> Onward(s, LoginSshKeysKey(s, key))
    ensures s.screen == LoginGithub ==> Onward(s, LoginGithubKey(s, key))
  {
    hide ZonesOk, NetOk, FilterKeys, KeyListKey;
  }

  lemma RefilterOk(z: ZoneForm)
    ensures ZonesOk(Refilter(z))
  {
  }

  lemma ZoneKeyOk(z: ZoneForm, key: Key)
    requires ZonesOk(z)
    ensures ZonesOk(ZoneKey(z, key))
  {
    hide Refilter, MatchingZones;
    RefilterOk(z.(search := Pop(z.search)));
    if key.code.Char? {
      RefilterOk(z.(search := z.search + [key.code.c]));
    }
  }

  lemma TimezoneKeyOk(s: State, key: Key, env: Env)
    requires StateOk(s) && s.screen == Timezone
    ensures Onward(s, TimezoneKey(s, key, env))
  {
    hide NetOk, ZoneKey, Highlighted, MatchingZones, GoBack;
    GoBackOk(s);
    ZoneKeyOk(s.zones, key);
  }

  lemma ConfirmationKeyOk(s: State, key: Key, env: Env)
    requires StateOk(s) && s.screen == Confirmation
    ensures Onward(s, ConfirmationKey(s, key, env).0)
  {
    hide ZonesOk, NetOk, IsConfirmed;
  }

  /** No key breaks the state. */
  lemma KeyOk(s: State, key: Key, env: Env)
    requires StateOk(s)
    ensures Onward(s, HandleKey(s, key, env).0)
  {
    hide Onward, StateOk, NetworkConfigKey, DiskSelectionKey, DiskEncryptionKey, HostnameKey, HostnameInputKey, LoginKey,
         LoginTailscaleKey, LoginSshKeysKey, LoginGithubKey, TimezoneKey, ConfirmationKey, Advance, GoBack;
    Unmoved(s);
    match s.screen
    case NetworkConfig => NetworkConfigKeyOk(s, key, env);
    case DiskSelection => DiskSelectionKeyOk(s, key, env);
    case DiskEncryption => DiskEncryptionKeyOk(s, key, env);
    case Hostname => HostnameKeyOk(s, key, env);
    case HostnameInput => HostnameInputKeyOk(s, key, env);
    case Login => LoginKeyOk(s, key, env);
    case LoginTailscale => LoginScreensOk(s, key);
    case LoginSshKeys => LoginScreensOk(s, key);
    case LoginGithub => LoginScreensOk(s, key);
    case Timezone => TimezoneKeyOk(s, key, env);
    case Confirmation => ConfirmationKeyOk(s, key, env);
    case NetworkCheck => GoBackOk(s);
    case Welcome => AdvanceOk(s, env);
    case NetworkResults => GoBackOk(s); AdvanceOk(s, env);
    case _ =>
  }

  // ---- One turn of the loop ----

  /** What the environment can deliver in a session. */
  ghost predicate Honest(x: Session, input: Input) {
    // A fetch yields one result.
    && (input.github.Some? ==> x.state.ssh.fetching)
    // The media check runs once and its verdict comes last.
    && (input.verity != [] ==> x.state.verity == Running)
    && (forall i :: 0 <= i < |input.verity| - 1 ==> input.verity[i] == VerityProgress)
    // Only started workers report, and a finished one returns the passphrase it was given.
    && (input.worker != [] ==> x.handed != [])
    && (forall i :: 0 <= i < |input.worker| && input.worker[i].InstallDone? ==>
          exists j :: 0 <= j < |x.handed| && x.handed[j].passphrase == input.worker[i].passphrase)
  }

  predicate HasPassword(c: InstallConfig) {
    c.password.Some? || c.passwordHash.Some?
  }

  /** What a started worker was given, as the state remembers it. */
  predicate HandedOk(h: Handed, s: State) {
    && h.device in s.disks.devices
    && HasPassword(h.config)
    && (h.encryption.IsEncrypted() ==> h.passphrase.Some?)
    && (h.passphrase.Some? ==> s.passphrase == h.passphrase)
  }

  ghost predicate SessionOk(x: Session) {
    && StateOk(x.state)
    && (x.handed != [] ==> VerityAllows(x.state.verity))
    && forall i :: 0 <= i < |x.handed| ==> HandedOk(x.handed[i], x.state)
  }

  lemma PollGithubOk(s: State, result: GithubResult)
    requires StateOk(s) && s.ssh.fetching
    ensures StateOk(PollGithub(s, result)) && Keeps(s, PollGithub(s, result))
  {
    hide ZonesOk, NetOk, DropTrailingBlanks, WithTrailingBlank;
    hide PasswordChosen;
    GithubKeysOk(s, result);
  }

  lemma GithubKeysOk(s: State, result: GithubResult)
    requires KeysOk(s.ssh)
    ensures KeysOk(PollGithub(s, result).ssh)
  {
  }

  /** Honest reports change nothing but the screen, and that only to an end screen. */
  lemma {:induction false} WorkerMessagesOk(s: State, handed: seq<Handed>, messages: seq<WorkerMessage>)
    requires forall j :: 0 <= j < |handed| ==> HandedOk(handed[j], s)
    requires forall i :: 0 <= i < |messages| && messages[i].InstallDone? ==>
      exists j :: 0 <= j < |handed| && handed[j].passphrase == messages[i].passphrase
    ensures var r := WorkerMessages(s, messages);
      r == s.(screen := r.screen) && (r.screen == s.screen || r.screen == Done || r.screen.Error?)
  {
    hide HandedOk;
    if messages != [] {
      var front, last := messages[..|messages| - 1], messages[|messages| - 1];
      forall i | 0 <= i < |front| && front[i].InstallDone?
        ensures exists j :: 0 <= j < |handed| && handed[j].passphrase == front[i].passphrase
      {
        assert messages[i] == front[i];
      }
      WorkerMessagesOk(s, handed, front);
      if last.InstallDone? {
        var j :| 0 <= j < |handed| && handed[j].passphrase == last.passphrase;
        Remembered(handed[j], s);
      }
    }
  }

  lemma Remembered(h: Handed, s: State)
    requires HandedOk(h, s)
    ensures h.passphrase.Some? ==> s.passphrase == h.passphrase
  {
  }

  /** The state the worker messages are shown in. */
  function BeforeMessages(s: State, input: Input): State {
    var s1 := if input.github.Some? then PollGithub(s, input.github.value) else s;
    ShowVerityFailure(if s1.verityOpen then s1.(verity := PollVerity(s1.verity, input.verity)) else s1)
  }

  lemma BeforeMessagesOk(x: Session, input: Input)
    requires SessionOk(x) && Honest(x, input)
    ensures var s := BeforeMessages(x.state, input);
      StateOk(s) && Keeps(x.state, s) && (x.handed != [] ==> VerityAllows(s.verity))
  {
    hide ZonesOk, NetOk, DisksOk, PasswordOk, PasswordChosen, SelectedDisk, PollGithub, PollVerity, HandedOk;
    var s := x.state;
    NoVerityMessage(s.verity);
    if input.github.Some? {
      PollGithubOk(s, input.github.value);
      GithubKeepsVerity(s, input.github.value);
    }
  }

  lemma NoVerityMessage(v: VerityCheck)
    ensures PollVerity(v, []) == v
  {
  }

  lemma GithubKeepsVerity(s: State, result: GithubResult)
    ensures PollGithub(s, result).verity == s.verity && PollGithub(s, result).verityOpen == s.verityOpen
  {
  }

  lemma PolledOk(x: Session, input: Input)
    requires SessionOk(x) && Honest(x, input)
    ensures SessionOk(x.(state := Polled(x.state, input))) && Keeps(x.state, Polled(x.state, input))
    ensures var s, r := BeforeMessages(x.state, input), Polled(x.state, input);
      r == s.(screen := r.screen) && (r.screen == s.screen || r.screen == Done || r.screen.Error?)
  {
    hide ZonesOk, NetOk, DisksOk, PasswordOk, PasswordChosen, SelectedDisk, ShowVerityFailure, PollGithub, PollVerity,
         HasPassword;
    BeforeMessagesOk(x, input);
    var s := BeforeMessages(x.state, input);
    WorkerMessagesOk(s, x.handed, input.worker);
    assert Polled(x.state, input) == WorkerMessages(s, input.worker);
  }

  /** The install starts from a confirmed confirmation screen and nowhere else. */
  lemma StartWriteMeans(s: State, key: Key, env: Env)
    requires KeysOk(s.ssh) && HandleKey(s, key, env).1 == StartWrite
    ensures s.screen == Confirmation && IsConfirmed(s.confirmInput)
    ensures HandleKey(s, key, env).0 == s.(screen := Installing)
  {
    hide IsConfirmed, KeyListKey, FilterKeys, FieldKey;
  }

  /** A started worker has a device, a password, and when encrypting a passphrase. */
  lemma SpawnedOk(s: State)
    requires StateOk(s) && s.screen == Installing
    ensures |Spawned(s)| == 1 && HandedOk(Spawned(s)[0], s)
    ensures Spawned(s)[0] == Handed(SelectedDisk(s.disks).value, s.disks.encryption, s.passphrase, ConfigFields(s))
  {
    hide ZonesOk, NetOk;
  }

  lemma HandedKept(h: Handed, s: State, t: State)
    requires HandedOk(h, s) && Keeps(s, t)
    ensures HandedOk(h, t)
  {
  }

  lemma KeyedOk(x: Session, key: Key, env: Env)
    requires SessionOk(x)
    ensures SessionOk(Keyed(x, key, env)) && Keeps(x.state, Keyed(x, key, env).state)
  {
    hide HandleKey, FormsOk, ReachedOk, HandedOk, Spawned;
    Unmoved(x.state);
    KeyOk(x.state, key, env);
    var s := HandleKey(x.state, key, env).0;
    forall i | 0 <= i < |x.handed|
      ensures HandedOk(x.handed[i], s)
    {
      HandedKept(x.handed[i], x.state, s);
    }
    if HandleKey(x.state, key, env).1 == StartWrite {
      StartWriteMeans(x.state, key, env);
      SpawnedOk(s);
    }
  }

  lemma TickOk(x: Session, input: Input)
    requires SessionOk(x) && (!x.stopped ==> Honest(x, input))
    ensures KeysOk(x.state.ssh) && SessionOk(Tick(x, input)) && Keeps(x.state, Tick(x, input).state)
  {
    hide Honest, SessionOk, StateOk, Polled, Keyed;
    SessionKeys(x);
    if !x.stopped {
      PolledOk(x, input);
      if input.key.Some? {
        KeyedOk(x.(state := Polled(x.state, input)), input.key.value, input.env);
      }
    }
  }

  lemma SessionKeys(x: Session)
    requires SessionOk(x)
    ensures KeysOk(x.state.ssh) && StateOk(x.state)
  {
    hide Gate, ReachedOk, HandedOk;
  }

  // ---- Runs ----

  /** Every turn of the run finds what the environment can deliver then. */
  ghost predicate HonestRun(x: Session, inputs: seq<Input>)
    requires KeysOk(x.state.ssh)
  {
    inputs != [] ==>
      var front := inputs[..|inputs| - 1];
      HonestRun(x, front) && (!Run(x, front).stopped ==> Honest(Run(x, front), inputs[|inputs| - 1]))
  }

  lemma {:induction false} RunOk(x: Session, inputs: seq<Input>)
    requires SessionOk(x) && KeysOk(x.state.ssh) && HonestRun(x, inputs)
    ensures SessionOk(Run(x, inputs)) && Keeps(x.state, Run(x, inputs).state)
  {
    hide SessionOk, Honest, Tick;
    if inputs != [] {
      RunOk(x, inputs[..|inputs| - 1]);
      TickOk(Run(x, inputs[..|inputs| - 1]), inputs[|inputs| - 1]);
    }
  }

  function Start(p: Prefill): (x: Session)
    ensures KeysOk(x.state.ssh)
  {
    Session(Build(p), [], false)
  }

  lemma StartOk(p: Prefill)
    ensures SessionOk(Start(p))
  {
    hide FormsOk, ReachedOk, Gate;
    BuildOk(p);
  }
}
