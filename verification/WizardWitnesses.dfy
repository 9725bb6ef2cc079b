/** Runs from the first screen in which the rules fail that hold only on a condition. */
module WizardWitnesses {
  import opened Wrappers
  import opened Text
  import opened Validators
  import opened WizardModel
  import opened WizardSafety
  import opened WizardRuns
  import opened WizardPaths
  import opened WizardConditions
  import D = DiskChoice
  import L = Luks

  /** A machine with one disk, no media check, and a configured password. */
  const SAMPLE: Prefill := Prefill(
    [D.Device("/dev/sda", 1, false)], None, None, L.Keyfile, false, None, false, None, [], Some("secret"), None, None, ["UTC"],
    None, None, None, false)

  const ENV: Env := Env(true, "fresh")

  const ALT_G: Key := Key(Char('g'), true, true, false, false)

  /** Keys on the way to the login screen. */
  lemma EarlyKeys(s: State)
    requires KeysOk(s.ssh) && !s.net.offlineWarning && s.net.target != Own(Offline)
    ensures s.screen == Welcome && VerityAllows(s.verity) ==>
      HandleKey(s, Plain(Enter), ENV) == (s.(screen := NetworkConfig), Continue)
    ensures s.screen == NetworkConfig && s.net.pane == IsoPane ==>
      HandleKey(s, Plain(Enter), ENV) == (s.(net := AtTarget(s.net)), Continue)
    ensures s.screen == NetworkConfig && s.net.pane == TargetPane ==>
      HandleKey(s, Plain(Enter), ENV) == (s.(screen := DiskSelection), Continue)
    ensures s.screen == DiskSelection && SelectedDisk(s.disks).Some? ==>
      HandleKey(s, Plain(Enter), ENV) == (s.(screen := DiskEncryption), Continue)
    ensures s.screen == DiskEncryption ==> HandleKey(s, Plain(Enter), ENV) == (s.(screen := Hostname), Continue)
    ensures s.screen == Hostname && s.hostname.fromDhcp ==>
      HandleKey(s, Plain(Enter), ENV) == (s.(screen := Login), Continue)
  {
  }

  function AtTarget(n: NetForm): NetForm {
    n.(pane := TargetPane, focus := Focus(TargetPane, ModeField))
  }

  /** Keys that start a fetch and leave again. */
  lemma FetchKeys(s: State)
    requires KeysOk(s.ssh)
    ensures s.screen == Login ==> HandleKey(s, ALT_G, ENV) == (s.(screen := LoginGithub), Continue)
    ensures s.screen == LoginGithub && s.ssh.github == "" ==>
      HandleKey(s, Plain(Char('a')), ENV) == (s.(ssh := s.ssh.(github := "a", error := None)), Continue)
    ensures s.screen == LoginGithub && s.ssh.github == "a" && !s.ssh.fetching ==>
      HandleKey(s, Plain(Enter), ENV) == (s.(ssh := s.ssh.(fetching := true, error := None)), Continue)
    ensures s.screen == LoginGithub ==> HandleKey(s, Plain(Esc), ENV) == (s.(screen := Login), Continue)
  {
    assert TrimStart("a") == "a" && TrimEnd("a") == "a";
    assert "" + ['a'] == "a";
  }

  /** Keys from the login screen back to typing a name. */
  lemma NameKeys(s: State)
    requires KeysOk(s.ssh)
    ensures s.screen == Login && !s.password.confirming && s.hostname.fromDhcp ==>
      HandleKey(s, Plain(Esc), ENV) == (s.(screen := Hostname), Continue)
    ensures s.screen == Hostname && s.hostname.fromDhcp ==>
      HandleKey(s, Plain(Down), ENV) == (s.(hostname := s.hostname.(fromDhcp := false)), Continue)
    ensures s.screen == Hostname && !s.hostname.fromDhcp ==>
      HandleKey(s, Plain(Enter), ENV) == (s.(screen := HostnameInput), Continue)
    ensures s.screen == HostnameInput && s.hostname.input == "" ==>
      HandleKey(s, Plain(Char('-')), ENV) == (s.(hostname := s.hostname.(input := "-", error := Some(EdgeHyphen))), Continue)
  {
    hide Trim;
    assert "" + ['-'] == "-";
    HyphenRefused();
  }

  lemma HyphenRefused()
    ensures Trim("-") == "-" && Retyped("-") == Some(EdgeHyphen)
  {
    assert TrimStart("-") == "-" && TrimEnd("-") == "-";
  }

  /** A session just begun, with a disk, DHCP, a configured password, and no obstacle on the way. */
  predicate Begun(x: Session) {
    var s := x.state;
    && KeysOk(s.ssh) && !x.stopped && s.screen == Welcome && VerityAllows(s.verity)
    && s.net.pane == IsoPane && !s.net.offlineWarning && s.net.target != Own(Offline)
    && SelectedDisk(s.disks).Some? && s.hostname == HostnameForm("", true, None)
    && UsesConfig(s.password) && !s.password.confirming && s.ssh.github == "" && !s.ssh.fetching && s.confirmInput == ""
  }

  /** The login screen, with nothing else changed. */
  function AtLogin(s: State): State {
    s.(screen := Login, net := AtTarget(s.net))
  }

  lemma ToLogin(x: Session) returns (inputs: seq<Input>)
    requires Begun(x)
    ensures HonestRun(x, inputs) && Run(x, inputs) == x.(state := AtLogin(x.state))
  {
    hide HonestRun, Run, HandleKey;
    var s := x.state;
    inputs := [];
    EmptyRun(x);
    EarlyKeys(s);
    inputs := KeyMore(x, inputs, Plain(Enter), ENV, s.(screen := NetworkConfig));
    EarlyKeys(s.(screen := NetworkConfig));
    var t := s.(net := AtTarget(s.net));
    inputs := KeyMore(x, inputs, Plain(Enter), ENV, t.(screen := NetworkConfig));
    EarlyKeys(t.(screen := NetworkConfig));
    inputs := KeyMore(x, inputs, Plain(Enter), ENV, t.(screen := DiskSelection));
    EarlyKeys(t.(screen := DiskSelection));
    inputs := KeyMore(x, inputs, Plain(Enter), ENV, t.(screen := DiskEncryption));
    EarlyKeys(t.(screen := DiskEncryption));
    inputs := KeyMore(x, inputs, Plain(Enter), ENV, t.(screen := Hostname));
    EarlyKeys(t.(screen := Hostname));
    inputs := KeyMore(x, inputs, Plain(Enter), ENV, t.(screen := Login));
  }

  /** The login screen with a fetch outstanding. */
  function Fetching(s: State): State {
    AtLogin(s).(ssh := s.ssh.(github := "a", fetching := true, error := None))
  }

  lemma ToFetching(x: Session) returns (inputs: seq<Input>)
    requires Begun(x)
    ensures HonestRun(x, inputs) && Run(x, inputs) == x.(state := Fetching(x.state))
  {
    hide HonestRun, Run, HandleKey;
    inputs := ToLogin(x);
    var s := AtLogin(x.state);
    FetchKeys(s);
    inputs := KeyMore(x, inputs, ALT_G, ENV, s.(screen := LoginGithub));
    FetchKeys(s.(screen := LoginGithub));
    var typed := s.(screen := LoginGithub, ssh := s.ssh.(github := "a", error := None));
    inputs := KeyMore(x, inputs, Plain(Char('a')), ENV, typed);
    FetchKeys(typed);
    inputs := KeyMore(x, inputs, Plain(Enter), ENV, Fetching(x.state).(screen := LoginGithub));
    FetchKeys(Fetching(x.state).(screen := LoginGithub));
    inputs := KeyMore(x, inputs, Plain(Esc), ENV, Fetching(x.state));
  }

  /** A fetch left running lets two installs be started. */
  lemma TwoInstalls(x: Session) returns (inputs: seq<Input>)
    requires SessionOk(x) && Begun(x)
    ensures HonestRun(x, inputs) && |Run(x, inputs).handed| == |x.handed| + 2
  {
    hide HonestRun, Run, SessionOk, IsConfirmed;
    inputs := ToFetching(x);
    inputs := EnterMore(x, inputs, ENV);
    inputs := EnterMore(x, inputs, ENV);
    inputs := EnterMore(x, inputs, ENV);
    inputs := ConfirmMore(x, inputs, ENV);
    var y := Run(x, inputs);
    RunOk(x, inputs);
    var more := SecondInstall(y, ENV);
    RunAppend(x, inputs, more);
    inputs := inputs + more;
  }

  /** A fetch left running while the name `-` is typed. */
  lemma ToBadName(x: Session) returns (inputs: seq<Input>)
    requires Begun(x)
    ensures HonestRun(x, inputs)
    ensures var y := Run(x, inputs);
      && y.state.ssh.fetching && !y.stopped && y.handed == x.handed
      && y.state.hostname == HostnameForm("-", false, Some(EdgeHyphen))
  {
    hide HonestRun, Run, HandleKey;
    inputs := ToFetching(x);
    var s := Fetching(x.state);
    NameKeys(s);
    inputs := KeyMore(x, inputs, Plain(Esc), ENV, s.(screen := Hostname));
    NameKeys(s.(screen := Hostname));
    var t := s.(hostname := s.hostname.(fromDhcp := false));
    inputs := KeyMore(x, inputs, Plain(Down), ENV, t.(screen := Hostname));
    NameKeys(t.(screen := Hostname));
    inputs := KeyMore(x, inputs, Plain(Enter), ENV, t.(screen := HostnameInput));
    NameKeys(t.(screen := HostnameInput));
    var named := t.(screen := HostnameInput, hostname := HostnameForm("-", false, Some(EdgeHyphen)));
    inputs := KeyMore(x, inputs, Plain(Char('-')), ENV, named);
  }

  /** A fetch left running lets an install start with a hostname the validator refuses. */
  lemma BadName(x: Session) returns (inputs: seq<Input>)
    requires SessionOk(x) && Begun(x)
    ensures HonestRun(x, inputs)
    ensures var y := Run(x, inputs);
      |y.handed| == |x.handed| + 1 && !HandedHostnameOk(y.handed[|x.handed|].config)
  {
    hide HonestRun, Run, SessionOk, HandedHostnameOk, Begun, Honest, Tick;
    SessionKeys(x);
    inputs := ToBadName(x);
    var y := Run(x, inputs);
    RunOk(x, inputs);
    HyphenRefused();
    FetchedTick(y, [], ENV);
    RunOneMore(x, inputs, Fetched([], ENV));
    inputs := inputs + [Fetched([], ENV)];
    var more := BadNameFollows(Tick(y, Fetched([], ENV)), ENV);
    RunAppend(x, inputs, more);
    inputs := inputs + more;
  }

  /** Keys back from the confirmation to the encryption choice, and its change. */
  lemma BackKeys(s: State)
    requires KeysOk(s.ssh)
    ensures s.screen == Confirmation ==>
      HandleKey(s, Plain(Esc), ENV) == (s.(screen := NetworkResults, confirmInput := ""), Continue)
    ensures s.screen == NetworkResults ==> HandleKey(s, Plain(Esc), ENV) == (s.(screen := Timezone), Continue)
    ensures s.screen == Timezone ==> HandleKey(s, Plain(Esc), ENV) == (s.(screen := Login), Continue)
    ensures s.screen == Login && !s.password.confirming && s.hostname.fromDhcp ==>
      HandleKey(s, Plain(Esc), ENV) == (s.(screen := Hostname), Continue)
    ensures s.screen == Hostname ==> HandleKey(s, Plain(Esc), ENV) == (s.(screen := DiskEncryption), Continue)
    ensures s.screen == DiskEncryption ==>
      HandleKey(s, Plain(Down), ENV) == (s.(disks := CycleEncryption(s.disks)), Continue)
  {
  }

  /** From the confirmation back to the encryption choice, one choice further, and to the login screen again. */
  lemma SwitchEncryption(x: Session) returns (inputs: seq<Input>)
    requires Going(x) && PasswordChosen(x.state.password)
    requires x.state.screen == Confirmation && !x.state.password.confirming && x.state.hostname.fromDhcp
    requires !x.state.net.offlineWarning && x.state.net.target != Own(Offline)
    ensures HonestRun(x, inputs)
    ensures Run(x, inputs) ==
      x.(state := x.state.(screen := Login, confirmInput := "", disks := CycleEncryption(x.state.disks)))
  {
    hide HonestRun, Run, HandleKey, CycleEncryption;
    var s := x.state.(confirmInput := "");
    EmptyRun(x);
    BackKeys(x.state);
    inputs := KeyMore(x, [], Plain(Esc), ENV, s.(screen := NetworkResults));
    BackKeys(s.(screen := NetworkResults));
    inputs := KeyMore(x, inputs, Plain(Esc), ENV, s.(screen := Timezone));
    BackKeys(s.(screen := Timezone));
    inputs := KeyMore(x, inputs, Plain(Esc), ENV, s.(screen := Login));
    BackKeys(s.(screen := Login));
    inputs := KeyMore(x, inputs, Plain(Esc), ENV, s.(screen := Hostname));
    BackKeys(s.(screen := Hostname));
    inputs := KeyMore(x, inputs, Plain(Esc), ENV, s.(screen := DiskEncryption));
    BackKeys(s.(screen := DiskEncryption));
    var t := s.(disks := CycleEncryption(s.disks));
    inputs := KeyMore(x, inputs, Plain(Down), ENV, t.(screen := DiskEncryption));
    EarlyKeys(t.(screen := DiskEncryption));
    inputs := KeyMore(x, inputs, Plain(Enter), ENV, t.(screen := Hostname));
    EarlyKeys(t.(screen := Hostname));
    inputs := KeyMore(x, inputs, Plain(Enter), ENV, t.(screen := Login));
  }

  /** A session that is past its first confirmation and switches encryption off
      hands over a passphrase without encryption, which no install accepts. */
  lemma PassphraseWithoutEncryption(x: Session) returns (inputs: seq<Input>)
    requires SessionOk(x) && Going(x) && PasswordChosen(x.state.password)
    requires x.state.screen == Confirmation && x.handed == []
    requires !x.state.password.confirming && x.state.hostname.fromDhcp
    requires !x.state.net.offlineWarning && x.state.net.target != Own(Offline)
    requires x.state.disks.encryption == L.Keyfile
    ensures HonestRun(x, inputs)
    ensures var y := Run(x, inputs);
      |y.handed| == 1 && y.handed[0].encryption == L.NoEncryption && y.handed[0].passphrase.Some?
  {
    hide HonestRun, Run, Gate, FormsOk, IsConfirmed;
    inputs := SwitchEncryption(x);
    inputs := EnterMore(x, inputs, ENV);
    inputs := EnterMore(x, inputs, ENV);
    inputs := EnterMore(x, inputs, ENV);
    inputs := ConfirmMore(x, inputs, ENV);
    RunOk(x, inputs);
  }

  /** The same from the first screen on. */
  lemma SwitchedOff(x: Session) returns (inputs: seq<Input>)
    requires SessionOk(x) && Begun(x) && x.handed == [] && x.state.disks.encryption == L.Keyfile
    ensures HonestRun(x, inputs)
    ensures var y := Run(x, inputs);
      |y.handed| == 1 && y.handed[0].encryption == L.NoEncryption && y.handed[0].passphrase.Some?
  {
    hide HonestRun, Run, SessionOk;
    inputs := ToLogin(x);
    inputs := EnterMore(x, inputs, ENV);
    inputs := EnterMore(x, inputs, ENV);
    inputs := EnterMore(x, inputs, ENV);
    var y := Run(x, inputs);
    RunOk(x, inputs);
    var more := PassphraseWithoutEncryption(y);
    RunAppend(x, inputs, more);
    inputs := inputs + more;
  }

  lemma SampleBegins()
    ensures SessionOk(Start(SAMPLE)) && Begun(Start(SAMPLE)) && Start(SAMPLE).state.disks.encryption == L.Keyfile
  {
    hide SessionOk;
    StartOk(SAMPLE);
  }

  /** All three happen on the sample machine, from its first screen. */
  lemma {:induction false} SampleInstallsTwice() returns (inputs: seq<Input>)
    ensures HonestRun(Start(SAMPLE), inputs) && |Run(Start(SAMPLE), inputs).handed| == 2
  {
    hide HonestRun, Run, SessionOk, Begun, Build;
    SampleBegins();
    inputs := TwoInstalls(Start(SAMPLE));
  }

  lemma {:induction false} SampleBadName() returns (inputs: seq<Input>)
    ensures HonestRun(Start(SAMPLE), inputs) && |Run(Start(SAMPLE), inputs).handed| == 1
    ensures !HandedHostnameOk(Run(Start(SAMPLE), inputs).handed[0].config)
  {
    hide HonestRun, Run, SessionOk, Begun, Build, HandedHostnameOk;
    SampleBegins();
    inputs := BadName(Start(SAMPLE));
  }

  lemma {:induction false} SampleSwitchedOff() returns (inputs: seq<Input>)
    ensures HonestRun(Start(SAMPLE), inputs) && |Run(Start(SAMPLE), inputs).handed| == 1
    ensures var h := Run(Start(SAMPLE), inputs).handed[0]; h.encryption == L.NoEncryption && h.passphrase.Some?
  {
    hide HonestRun, Run, SessionOk, Begun, Build;
    SampleBegins();
    inputs := SwitchedOff(Start(SAMPLE));
  }
}
