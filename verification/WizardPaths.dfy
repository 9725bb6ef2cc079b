/** Runs built key by key: from the key list, keys alone lead to an install. */
module WizardPaths {
  import opened Wrappers
  import opened Text
  import opened Validators
  import opened WizardModel
  import opened WizardSafety
  import opened WizardRuns

  /** Running, and past the media check. */
  predicate Going(x: Session) {
    KeysOk(x.state.ssh) && !x.stopped && VerityAllows(x.state.verity)
  }

  /** No further key list arrives. */
  predicate NoNewKeys(inputs: seq<Input>) {
    forall i :: 0 <= i < |inputs| && inputs[i].github.Some? ==> !inputs[i].github.value.success
  }

  /** A key without modifiers. */
  function Plain(code: KeyCode): Key {
    Key(code, true, false, false, false)
  }

  /** A turn that finds nothing but a key. */
  function Press(key: Key, env: Env): Input {
    Input(None, [], [], Some(key), env)
  }

  lemma PressTick(x: Session, key: Key, env: Env)
    requires Going(x)
    ensures Honest(x, Press(key, env)) && Tick(x, Press(key, env)) == Keyed(x, key, env)
  {
    hide HandleKey;
  }

  /** One more key at the end of a run. */
  lemma {:induction false} PressMore(x: Session, inputs: seq<Input>, key: Key, env: Env) returns (more: seq<Input>)
    requires KeysOk(x.state.ssh) && HonestRun(x, inputs) && Going(Run(x, inputs))
    ensures HonestRun(x, more) && Run(x, more) == Keyed(Run(x, inputs), key, env)
    ensures NoNewKeys(inputs) ==> NoNewKeys(more)
  {
    hide HonestRun, Run, HandleKey, Honest, Tick;
    PressTick(Run(x, inputs), key, env);
    RunOneMore(x, inputs, Press(key, env));
    more := inputs + [Press(key, env)];
  }

  /** One more key with a known effect on the state, and none on the session. */
  lemma {:induction false} KeyMore(x: Session, inputs: seq<Input>, key: Key, env: Env, next: State) returns (more: seq<Input>)
    requires KeysOk(x.state.ssh) && HonestRun(x, inputs) && Going(Run(x, inputs))
    requires HandleKey(Run(x, inputs).state, key, env) == (next, Continue)
    ensures HonestRun(x, more) && Run(x, more) == Run(x, inputs).(state := next)
    ensures NoNewKeys(inputs) ==> NoNewKeys(more)
  {
    hide HonestRun, Run, HandleKey;
    more := PressMore(x, inputs, key, env);
  }

  // ---- From the login screens to the confirmation ----

  /** What Enter on the way to the confirmation leaves alone. */
  predicate SameAnswers(s: State, t: State) {
    && t.hostname == s.hostname && t.confirmInput == s.confirmInput && t.disks == s.disks && t.net == s.net
    && t.password.confirming == s.password.confirming && t.ssh.fetching == s.ssh.fetching
    && (PasswordChosen(s.password) ==> PasswordChosen(t.password))
  }

  /** Where Enter leads. */
  function AfterEnter(screen: Screen): Screen {
    match screen
    case LoginSshKeys => Login
    case Login => Timezone
    case Timezone => NetworkResults
    case NetworkResults => Confirmation
    case _ => screen
  }

  lemma EnterKey(s: State, env: Env)
    requires KeysOk(s.ssh) && s.screen in {LoginSshKeys, Login, Timezone, NetworkResults}
    requires s.screen == Login ==> PasswordChosen(s.password)
    ensures var (t, action) := HandleKey(s, Plain(Enter), env);
      action == Continue && t.screen == AfterEnter(s.screen) && t.verity == s.verity && SameAnswers(s, t)
  {
    hide FilterKeys, Highlighted;
  }

  /** One more Enter at the end of a run. */
  lemma {:induction false} EnterMore(x: Session, inputs: seq<Input>, env: Env) returns (more: seq<Input>)
    requires KeysOk(x.state.ssh) && HonestRun(x, inputs) && Going(Run(x, inputs))
    requires Run(x, inputs).state.screen in {LoginSshKeys, Login, Timezone, NetworkResults}
    requires Run(x, inputs).state.screen == Login ==> PasswordChosen(Run(x, inputs).state.password)
    ensures HonestRun(x, more) && Going(Run(x, more)) && (NoNewKeys(inputs) ==> NoNewKeys(more))
    ensures var before, y := Run(x, inputs), Run(x, more);
      y.state.screen == AfterEnter(before.state.screen) && y.handed == before.handed && SameAnswers(before.state, y.state)
  {
    hide HonestRun, Run, HandleKey, SameAnswers, AfterEnter, PasswordChosen;
    EnterKey(Run(x, inputs).state, env);
    more := PressMore(x, inputs, Plain(Enter), env);
  }

  // ---- Choosing a password ----

  /** The field in use, emptied. */
  function Emptied(p: PasswordForm): PasswordForm {
    if p.confirming then p.(repeated := "") else p.(input := "")
  }

  function FieldLength(p: PasswordForm): nat {
    if p.confirming then |p.repeated| else |p.input|
  }

  lemma PasswordKeys(s: State, env: Env)
    requires KeysOk(s.ssh) && s.screen == Login && !UsesConfig(s.password)
    ensures s.password.confirming ==>
      var p := s.password.(confirming := false, mismatch := false, empty := false);
      HandleKey(s, Plain(Esc), env) == (s.(password := p), Continue)
    ensures HandleKey(s, Plain(Backspace), env) == (s.(password := LoginErased(s.password)), Continue)
    ensures HandleKey(s, Plain(Char('a')), env) == (s.(password := LoginTyped(s.password, 'a')), Continue)
    ensures !s.password.confirming ==>
      var p := s.password.(confirming := true, mismatch := false, empty := false);
      HandleKey(s, Plain(Enter), env) == (s.(password := p), Continue)
  {
    hide LoginErased, LoginTyped;
  }

  /** Backspace until the field in use is empty. */
  lemma {:induction false} EraseMore(x: Session, inputs: seq<Input>, env: Env) returns (more: seq<Input>)
    requires KeysOk(x.state.ssh) && HonestRun(x, inputs) && Going(Run(x, inputs))
    requires Run(x, inputs).state.screen == Login && !UsesConfig(Run(x, inputs).state.password)
    ensures HonestRun(x, more) && (NoNewKeys(inputs) ==> NoNewKeys(more))
    ensures var y := Run(x, inputs); Run(x, more) == y.(state := y.state.(password := Emptied(y.state.password)))
    decreases FieldLength(Run(x, inputs).state.password)
  {
    hide HonestRun, Run, HandleKey;
    var s := Run(x, inputs).state;
    if FieldLength(s.password) == 0 {
      more := inputs;
    } else {
      PasswordKeys(s, env);
      more := KeyMore(x, inputs, Plain(Backspace), env, s.(password := LoginErased(s.password)));
      more := EraseMore(x, more, env);
    }
  }

  /** `a`, typed after emptying. */
  lemma {:induction false} RetypeMore(x: Session, inputs: seq<Input>, env: Env) returns (more: seq<Input>)
    requires KeysOk(x.state.ssh) && HonestRun(x, inputs) && Going(Run(x, inputs))
    requires Run(x, inputs).state.screen == Login && !UsesConfig(Run(x, inputs).state.password)
    ensures HonestRun(x, more) && (NoNewKeys(inputs) ==> NoNewKeys(more))
    ensures var y := Run(x, inputs);
      Run(x, more) == y.(state := y.state.(password := LoginTyped(Emptied(y.state.password), 'a')))
  {
    hide HonestRun, Run, HandleKey, LoginTyped;
    var s := Run(x, inputs).state;
    more := EraseMore(x, inputs, env);
    var t := s.(password := Emptied(s.password));
    PasswordKeys(t, env);
    more := KeyMore(x, more, Plain(Char('a')), env, t.(password := LoginTyped(t.password, 'a')));
  }

  /** Only the password form differs. */
  predicate SameButPassword(x: Session, y: Session) {
    y == x.(state := x.state.(password := y.state.password))
  }

  /** Whatever the password form holds, keys on the login screen make it a chosen password. */
  lemma {:induction false} ChooseMore(x: Session, inputs: seq<Input>, env: Env) returns (more: seq<Input>)
    requires KeysOk(x.state.ssh) && HonestRun(x, inputs) && Going(Run(x, inputs)) && Run(x, inputs).state.screen == Login
    ensures HonestRun(x, more) && (NoNewKeys(inputs) ==> NoNewKeys(more))
    ensures SameButPassword(Run(x, inputs), Run(x, more)) && PasswordChosen(Run(x, more).state.password)
  {
    hide HonestRun, Run, HandleKey, NoNewKeys;
    var s := Run(x, inputs).state;
    more := inputs;
    if !PasswordChosen(s.password) {
      if s.password.confirming {
        PasswordKeys(s, env);
        s := s.(password := s.password.(confirming := false, mismatch := false, empty := false));
        more := KeyMore(x, more, Plain(Esc), env, s);
      }
      more := RetypeMore(x, more, env);
      s := s.(password := LoginTyped(Emptied(s.password), 'a'));
      PasswordKeys(s, env);
      s := s.(password := s.password.(confirming := true, mismatch := false, empty := false));
      more := KeyMore(x, more, Plain(Enter), env, s);
      more := RetypeMore(x, more, env);
    }
  }

  // ---- The confirmation ----

  lemma ConfirmationKeys(s: State, env: Env)
    requires KeysOk(s.ssh)
    ensures s.screen == Confirmation ==>
      && HandleKey(s, Plain(Esc), env) == (s.(screen := NetworkResults, confirmInput := ""), Continue)
      && HandleKey(s, Plain(Char('y')), env) == (s.(confirmInput := s.confirmInput + ['y']), Continue)
      && HandleKey(s, Plain(Char('e')), env) == (s.(confirmInput := s.confirmInput + ['e']), Continue)
      && HandleKey(s, Plain(Char('s')), env) == (s.(confirmInput := s.confirmInput + ['s']), Continue)
      && (IsConfirmed(s.confirmInput) ==> HandleKey(s, Plain(Enter), env) == (s.(screen := Installing), StartWrite))
  {
    hide IsConfirmed;
  }

  lemma YesConfirms()
    ensures IsConfirmed("yes")
  {
    assert TrimStart("yes") == "yes" && TrimEnd("yes") == "yes";
    assert Lower("yes") == "yes";
  }

  /** An empty confirmation, whatever was typed on it before. */
  lemma {:induction false} ClearMore(x: Session, inputs: seq<Input>, env: Env) returns (more: seq<Input>)
    requires KeysOk(x.state.ssh) && HonestRun(x, inputs) && Going(Run(x, inputs)) && Run(x, inputs).state.screen == Confirmation
    ensures HonestRun(x, more) && Going(Run(x, more)) && (NoNewKeys(inputs) ==> NoNewKeys(more))
    ensures var before, y := Run(x, inputs), Run(x, more);
      && y.state.screen == Confirmation && y.state.confirmInput == "" && y.handed == before.handed
      && SameAnswers(before.state.(confirmInput := ""), y.state)
  {
    hide HonestRun, Run, HandleKey, PasswordChosen;
    var s := Run(x, inputs).state;
    ConfirmationKeys(s, env);
    more := KeyMore(x, inputs, Plain(Esc), env, s.(screen := NetworkResults, confirmInput := ""));
    more := EnterMore(x, more, env);
  }

  /** "yes" on an empty confirmation, and Enter: an install starts. */
  lemma {:induction false} ConfirmMore(x: Session, inputs: seq<Input>, env: Env) returns (more: seq<Input>)
    requires KeysOk(x.state.ssh) && HonestRun(x, inputs) && Going(Run(x, inputs)) && Run(x, inputs).state.screen == Confirmation
    requires Run(x, inputs).state.confirmInput == "" && SelectedDisk(Run(x, inputs).state.disks).Some?
    ensures HonestRun(x, more) && (NoNewKeys(inputs) ==> NoNewKeys(more))
    ensures var before, y := Run(x, inputs), Run(x, more);
      && y.state == before.state.(screen := Installing, confirmInput := "yes") && !y.stopped
      && y.handed == before.handed + Spawned(y.state) && |Spawned(y.state)| == 1
  {
    hide HonestRun, Run, HandleKey, IsConfirmed, ConfigFields;
    var s := Run(x, inputs).state;
    ConfirmationKeys(s, env);
    var y := s.(confirmInput := "y");
    assert "" + ['y'] == "y" && "y" + ['e'] == "ye" && "ye" + ['s'] == "yes";
    more := KeyMore(x, inputs, Plain(Char('y')), env, y);
    ConfirmationKeys(y, env);
    var ye := s.(confirmInput := "ye");
    more := KeyMore(x, more, Plain(Char('e')), env, ye);
    ConfirmationKeys(ye, env);
    var yes := s.(confirmInput := "yes");
    more := KeyMore(x, more, Plain(Char('s')), env, yes);
    ConfirmationKeys(yes, env);
    YesConfirms();
    more := PressMore(x, more, Plain(Enter), env);
  }

  // ---- From the key list to an install ----

  /** From the key list to the confirmation. */
  lemma {:induction false} ToConfirmation(x: Session, inputs: seq<Input>, env: Env) returns (more: seq<Input>)
    requires KeysOk(x.state.ssh) && HonestRun(x, inputs) && Going(Run(x, inputs)) && Run(x, inputs).state.screen == LoginSshKeys
    ensures HonestRun(x, more) && Going(Run(x, more)) && (NoNewKeys(inputs) ==> NoNewKeys(more))
    ensures var before, y := Run(x, inputs), Run(x, more);
      && y.state.screen == Confirmation && y.handed == before.handed
      && y.state.hostname == before.state.hostname && y.state.disks == before.state.disks
  {
    hide HonestRun, Run, PasswordChosen, NoNewKeys;
    more := EnterMore(x, inputs, env);
    more := ChooseMore(x, more, env);
    more := EnterMore(x, more, env);
    more := EnterMore(x, more, env);
    more := EnterMore(x, more, env);
  }

  /** From the key list, keys alone start an install, with the hostname as it is. */
  lemma {:induction false} ToInstall(x: Session, env: Env) returns (inputs: seq<Input>)
    requires SessionOk(x) && !x.stopped && x.state.screen == LoginSshKeys
    ensures KeysOk(x.state.ssh) && HonestRun(x, inputs) && NoNewKeys(inputs)
    ensures var y := Run(x, inputs);
      && y.handed == x.handed + Spawned(y.state) && |Spawned(y.state)| == 1
      && y.state.hostname == x.state.hostname
  {
    hide HonestRun, Run, IsConfirmed, ConfigFields, FormsOk, HandedOk;
    KeysOfSession(x);
    EmptyRun(x);
    inputs := ToConfirmation(x, [], env);
    inputs := ClearMore(x, inputs, env);
    inputs := ConfirmMore(x, inputs, env);
  }

  // ---- To the key list ----

  predicate OnEndScreen(s: State) {
    s.screen == Installing || s.screen == Done || s.screen.Error?
  }

  /** Keys from a screen to the key list. */
  function Distance(s: State): nat {
    match s.screen
    case LoginSshKeys => 0
    case Login => 1
    case LoginTailscale => 2
    case LoginGithub => 2
    case Timezone => 2
    case NetworkResults => 3
    case Confirmation => 4
    case Hostname => if s.hostname.fromDhcp then 2 else 3
    case HostnameInput => 4
    case DiskEncryption => 4
    case DiskSelection => 5
    case NetworkConfig => if s.net.offlineWarning then 6 else if s.net.pane == TargetPane then 7 else 8
    case NetworkCheck => 9
    case Welcome => 9
    case _ => 0
  }

  /** The key that leads nearer to the key list. */
  function Nearer(s: State): Key {
    match s.screen
    case Login => Key(Char('s'), true, true, false, false)
    case Hostname => Plain(if s.hostname.fromDhcp then Enter else Down)
    case NetworkConfig => Plain(if s.net.offlineWarning then Char('y') else Enter)
    case Welcome => Plain(Enter)
    case DiskSelection => Plain(Enter)
    case DiskEncryption => Plain(Enter)
    case _ => Plain(Esc)
  }

  /** On a screen that takes answers, with a disk to select. */
  predicate CanAnswer(s: State) {
    !OnEndScreen(s) && SelectedDisk(s.disks).Some?
  }

  lemma NearerKey(s: State, env: Env)
    requires KeysOk(s.ssh) && VerityAllows(s.verity) && CanAnswer(s) && s.screen != LoginSshKeys
    ensures var (t, action) := HandleKey(s, Nearer(s), env);
      action == Continue && t.verity == s.verity && CanAnswer(t) && Distance(t) < Distance(s)
  {
    if Rank(s.screen) < 4 {
      NearerEarly(s, env);
    } else {
      NearerLate(s, env);
    }
  }

  lemma NearerEarly(s: State, env: Env)
    requires KeysOk(s.ssh) && VerityAllows(s.verity) && CanAnswer(s) && Rank(s.screen) < 4
    ensures var (t, action) := HandleKey(s, Nearer(s), env);
      action == Continue && t.verity == s.verity && CanAnswer(t) && Distance(t) < Distance(s)
  {
    hide HostnameKey, HostnameInputKey, LoginKey, LoginTailscaleKey, LoginSshKeysKey, LoginGithubKey, TimezoneKey,
         NetworkResultsKey, ConfirmationKey, FieldKey;
  }

  lemma NearerLate(s: State, env: Env)
    requires KeysOk(s.ssh) && CanAnswer(s) && Rank(s.screen) >= 4 && s.screen != LoginSshKeys
    ensures var (t, action) := HandleKey(s, Nearer(s), env);
      action == Continue && t.verity == s.verity && CanAnswer(t) && Distance(t) < Distance(s)
  {
    hide WelcomeKey, NetworkConfigKey, NetworkCheckKey, DiskSelectionKey, DiskEncryptionKey, LoginSshKeysKey, LoginEnter,
         ZoneKey, StartFetch, LoginErased, LoginTyped, IsConfirmed, Retyped;
  }

  /** From every screen that takes answers, keys lead to the key list. */
  lemma {:induction false} ToKeyList(x: Session, inputs: seq<Input>, env: Env) returns (more: seq<Input>)
    requires KeysOk(x.state.ssh) && HonestRun(x, inputs) && Going(Run(x, inputs)) && CanAnswer(Run(x, inputs).state)
    ensures HonestRun(x, more) && Going(Run(x, more))
    ensures Run(x, more).state.screen == LoginSshKeys && Run(x, more).handed == Run(x, inputs).handed
    decreases Distance(Run(x, inputs).state)
  {
    hide HonestRun, Run, HandleKey, Nearer, CanAnswer, Distance;
    var s := Run(x, inputs).state;
    if s.screen == LoginSshKeys {
      more := inputs;
    } else {
      NearerKey(s, env);
      more := PressMore(x, inputs, Nearer(s), env);
      more := ToKeyList(x, more, env);
    }
  }

  /** And from there to an install. */
  lemma {:induction false} InstallFrom(x: Session, env: Env) returns (inputs: seq<Input>)
    requires SessionOk(x) && Going(x) && CanAnswer(x.state)
    ensures HonestRun(x, inputs) && |Run(x, inputs).handed| == |x.handed| + 1
  {
    hide SessionOk, HonestRun, Run, CanAnswer, Spawned;
    EmptyRun(x);
    var answers := ToKeyList(x, [], env);
    RunOk(x, answers);
    var keys := ToInstall(Run(x, answers), env);
    RunAppend(x, answers, keys);
    inputs := answers + keys;
  }

  lemma KeysOfSession(x: Session)
    requires SessionOk(x)
    ensures KeysOk(x.state.ssh)
  {
    hide ZonesOk, NetOk, HandedOk;
  }
}
