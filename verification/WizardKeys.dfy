/** What single keys mean: when a screen can be passed, and what undoes what. */
module WizardKeys {
  import opened Wrappers
  import opened Text
  import opened Validators
  import opened WizardModel
  import opened WizardSafety
  import opened WizardRuns
  import L = Luks

  // ---- Passing a screen ----

  /** The key that passes a screen, and what must be true then. */
  predicate Passes(s: State, key: Key) {
    key.press &&
    match s.screen
    case Welcome => key.code == Enter && VerityAllows(s.verity)
    case NetworkConfig =>
      // An offline target needs a yes to the warning; any other, Enter in the target pane.
      if s.net.offlineWarning then key.code == Char('y')
      else key.code == Enter && s.net.pane == TargetPane && s.net.target != Own(Offline)
    case DiskSelection => key.code == Enter && SelectedDisk(s.disks).Some?
    case DiskEncryption => key.code == Enter
    case Hostname => key.code == Enter && s.hostname.fromDhcp
    case HostnameInput => key.code == Enter && ValidateHostname(Trim(s.hostname.input)).Pass?
    case Login => key.code in {Enter, Tab} && PasswordChosen(s.password)
    case Timezone => key.code == Enter
    case NetworkResults => key.code == Enter
    case Confirmation => key.code == Enter && IsConfirmed(s.confirmInput)
    case _ => false
  }

  lemma PassFirstScreens(s: State, key: Key, env: Env)
    requires KeysOk(s.ssh)
    requires s.screen in {Welcome, NetworkConfig, NetworkCheck, DiskSelection, DiskEncryption}
    ensures var rank := Rank(HandleKey(s, key, env).0.screen);
      if Passes(s, key) then rank == Rank(s.screen) + 1 else rank <= Rank(s.screen)
  {
    hide FieldKey;
  }

  lemma PassHostnameScreens(s: State, key: Key, env: Env)
    requires KeysOk(s.ssh) && s.screen in {Hostname, HostnameInput}
    ensures var rank := Rank(HandleKey(s, key, env).0.screen);
      if Passes(s, key) then rank == Rank(s.screen) + 1 else rank <= Rank(s.screen)
  {
    hide ValidateHostname, Retyped, Trim;
  }

  lemma PassLoginScreens(s: State, key: Key, env: Env)
    requires KeysOk(s.ssh) && s.screen in {Login, LoginTailscale, LoginSshKeys, LoginGithub}
    ensures var rank := Rank(HandleKey(s, key, env).0.screen);
      if Passes(s, key) then rank == Rank(s.screen) + 1 else rank <= Rank(s.screen)
  {
    hide FilterKeys, KeyListKey, LoginErased, LoginTyped, StartFetch;
  }

  lemma PassLastScreens(s: State, key: Key, env: Env)
    requires KeysOk(s.ssh)
    requires s.screen in {Timezone, NetworkResults, Confirmation, Installing, Done} || s.screen.Error?
    ensures var rank := Rank(HandleKey(s, key, env).0.screen);
      if Passes(s, key) then rank == Rank(s.screen) + 1 else rank <= Rank(s.screen)
  {
    hide ZoneKey, Highlighted, IsConfirmed;
  }

  /** A key leads onward exactly if it passes the screen, and never by more than one step. */
  lemma PassExactly(s: State, key: Key, env: Env)
    requires KeysOk(s.ssh)
    ensures var rank := Rank(HandleKey(s, key, env).0.screen);
      if Passes(s, key) then rank == Rank(s.screen) + 1 else rank <= Rank(s.screen)
  {
    hide HandleKey, Passes;
    match s.screen
    case Hostname => PassHostnameScreens(s, key, env);
    case HostnameInput => PassHostnameScreens(s, key, env);
    case Login => PassLoginScreens(s, key, env);
    case LoginTailscale => PassLoginScreens(s, key, env);
    case LoginSshKeys => PassLoginScreens(s, key, env);
    case LoginGithub => PassLoginScreens(s, key, env);
    case Timezone => PassLastScreens(s, key, env);
    case NetworkResults => PassLastScreens(s, key, env);
    case Confirmation => PassLastScreens(s, key, env);
    case Installing => PassLastScreens(s, key, env);
    case Done => PassLastScreens(s, key, env);
    case Error(_) => PassLastScreens(s, key, env);
    case _ => PassFirstScreens(s, key, env);
  }

  /** An install starts exactly when the confirmation is passed. */
  lemma StartExactly(s: State, key: Key, env: Env)
    requires KeysOk(s.ssh)
    ensures HandleKey(s, key, env).1 == StartWrite <==> s.screen == Confirmation && Passes(s, key)
  {
    hide IsConfirmed, KeyListKey, FilterKeys, FieldKey;
  }

  /** Going back undoes going on, except from the confirmation, which starts the install,
      and from typing a name while DHCP is chosen. */
  lemma BackUndoesOn(s: State, env: Env)
    requires Advance(s, env).screen != s.screen
    ensures GoBack(Advance(s, env)) == Advance(s, env).(screen := s.screen) <==>
      s.screen != Confirmation && (s.screen == HostnameInput ==> !s.hostname.fromDhcp)
  {
  }

  // ---- Choices ----

  function NextDisks(d: Disks, n: nat): Disks {
    if n == 0 then d else NextDisk(NextDisks(d, n - 1))
  }

  lemma NextMeans(d: Disks)
    requires d.index < |d.devices|
    ensures NextDisk(d) == d.(index := if d.index + 1 < |d.devices| then d.index + 1 else 0)
    ensures PrevDisk(d) == d.(index := if d.index > 0 then d.index - 1 else |d.devices| - 1)
  {
    var i, len := d.index + 1, |d.devices|;
    assert i % len == if i < len then i else 0;
  }

  /** Down and Up undo each other, and Down reaches every disk, coming round after the last. */
  lemma {:induction false} DisksCycle(d: Disks, n: nat)
    requires d.index < |d.devices| && n <= |d.devices|
    ensures PrevDisk(NextDisk(d)) == d && NextDisk(PrevDisk(d)) == d
    ensures NextDisks(d, n) == d.(index := if d.index + n < |d.devices| then d.index + n else d.index + n - |d.devices|)
  {
    hide NextDisk, PrevDisk;
    NextMeans(d);
    NextMeans(NextDisk(d));
    NextMeans(PrevDisk(d));
    if n > 0 {
      DisksCycle(d, n - 1);
      NextMeans(NextDisks(d, n - 1));
    }
  }

  /** TPM is chosen only where there is one. */
  predicate TpmOk(d: Disks) {
    d.encryption == L.Tpm ==> d.tpmPresent
  }

  /** Down and Up undo each other on every mode that can be chosen, and Down visits all of
      them: three with a TPM, two without. */
  lemma EncryptionCycles(d: Disks)
    requires TpmOk(d)
    ensures TpmOk(CycleEncryption(d)) && TpmOk(CycleEncryptionReverse(d))
    ensures CycleEncryptionReverse(CycleEncryption(d)) == d && CycleEncryption(CycleEncryptionReverse(d)) == d
    ensures var once := CycleEncryption(d);
      if d.tpmPresent then
        {d.encryption, once.encryption, CycleEncryption(once).encryption} == {L.Tpm, L.Keyfile, L.NoEncryption}
      else {d.encryption, once.encryption} == {L.Keyfile, L.NoEncryption}
  {
  }

  lemma KeyOnDisks(s: State, key: Key, env: Env)
    requires KeysOk(s.ssh)
    ensures var d := s.disks;
      HandleKey(s, key, env).0.disks in {d, NextDisk(d), PrevDisk(d), CycleEncryption(d), CycleEncryptionReverse(d)}
  {
    hide ZoneKey, FieldKey, KeyListKey, FilterKeys, LoginErased, LoginTyped, HostnameErrorOf, Retyped, StartFetch, Highlighted,
         NextDisk, PrevDisk, CycleEncryption, CycleEncryptionReverse;
  }

  lemma PolledDisks(s: State, input: Input)
    requires KeysOk(s.ssh)
    ensures Polled(s, input).disks == s.disks
  {
    hide DropTrailingBlanks, WithTrailingBlank, PollVerity;
  }

  lemma DisksTick(x: Session, input: Input)
    requires KeysOk(x.state.ssh)
    ensures var d, after := x.state.disks, Tick(x, input).state.disks;
      after.tpmPresent == d.tpmPresent && (TpmOk(d) ==> TpmOk(after))
  {
    hide Polled, HandleKey;
    PolledDisks(x.state, input);
    if input.key.Some? {
      KeyOnDisks(Polled(x.state, input), input.key.value, input.env);
    }
  }

  lemma {:induction false} TpmAlways(x: Session, inputs: seq<Input>)
    requires KeysOk(x.state.ssh) && TpmOk(x.state.disks)
    ensures var d := Run(x, inputs).state.disks; TpmOk(d) && d.tpmPresent == x.state.disks.tpmPresent
  {
    hide TpmOk, Tick;
    if inputs != [] {
      var front := inputs[..|inputs| - 1];
      TpmAlways(x, front);
      DisksTick(Run(x, front), inputs[|inputs| - 1]);
    }
  }

  /** Unless it was configured without one, TPM encryption is shown and handed over only on a machine with a TPM. */
  lemma TpmNeedsATpm(p: Prefill, inputs: seq<Input>, k: nat)
    requires p.encryption == L.Tpm ==> p.tpmPresent
    requires HonestRun(Start(p), inputs)
    ensures TpmOk(Run(Start(p), inputs).state.disks)
    ensures k < |Run(Start(p), inputs).handed| && Run(Start(p), inputs).handed[k].encryption == L.Tpm ==> p.tpmPresent
  {
    hide Run, HonestRun, ConfigFields, IsConfirmed, PasswordChosen;
    TpmAlways(Start(p), inputs);
    var i := HandedOverComplete(p, inputs, k);
    if k < |Run(Start(p), inputs).handed| {
      TpmAlways(Start(p), inputs[..i]);
    }
  }

  /** Down and Up undo each other on the target's mode, except that a target which copies the
      current mode against the configuration leaves that choice for good. */
  lemma TargetModesCycle(n: NetForm)
    ensures PrevTarget(NextTarget(n)) == n.(touched := true) <==> !(n.configHasMode && n.target == CopyCurrent)
    ensures NextTarget(PrevTarget(n)) == n.(touched := true) <==> !(n.configHasMode && n.target == CopyCurrent)
  {
  }

  // ---- An offline target ----

  /** A target the user has not touched is as configured, and copies an offline mode only if that was configured. */
  predicate TargetAsConfigured(n: NetForm, p: Prefill) {
    !n.touched ==>
      match p.mode
      case Some(mode) => n.target == Own(mode)
      case None => n.target == Own(Dhcp) || (n.target == CopyCurrent && (n.iso == Offline ==> p.isoMode == Some(Offline)))
  }

  lemma FieldKeepsTarget(n: NetForm, key: Key, p: Prefill)
    requires TargetAsConfigured(n, p)
    ensures TargetAsConfigured(FieldKey(n, key), p)
  {
    hide AllVisible, Position;
  }

  lemma KeyKeepsTarget(s: State, key: Key, env: Env, p: Prefill)
    requires KeysOk(s.ssh) && TargetAsConfigured(s.net, p)
    ensures TargetAsConfigured(HandleKey(s, key, env).0.net, p)
  {
    hide ZoneKey, FieldKey, KeyListKey, FilterKeys, LoginErased, LoginTyped, HostnameErrorOf, Retyped, StartFetch, Highlighted;
    FieldKeepsTarget(s.net, key, p);
  }

  lemma PolledNet(s: State, input: Input)
    requires KeysOk(s.ssh)
    ensures Polled(s, input).net == s.net
  {
    hide DropTrailingBlanks, WithTrailingBlank, PollVerity;
  }

  lemma {:induction false} TargetAlways(x: Session, inputs: seq<Input>, p: Prefill)
    requires KeysOk(x.state.ssh) && TargetAsConfigured(x.state.net, p)
    ensures TargetAsConfigured(Run(x, inputs).state.net, p)
  {
    hide TargetAsConfigured, Polled, HandleKey;
    if inputs != [] {
      var front, input := inputs[..|inputs| - 1], inputs[|inputs| - 1];
      TargetAlways(x, front, p);
      var s := Run(x, front).state;
      PolledNet(s, input);
      if input.key.Some? {
        KeyKeepsTarget(Polled(s, input), input.key.value, input.env, p);
      }
    }
  }

  /** An install leaves its target offline only if the user touched the target's mode, or the
      configuration says so: of the target, or, saying nothing of the target, of the live system. */
  lemma OfflineOnPurpose(p: Prefill, inputs: seq<Input>, k: nat) returns (i: nat)
    requires HonestRun(Start(p), inputs)
    ensures k < |Run(Start(p), inputs).handed| ==>
      && i <= |inputs| && StartedAt(Run(Start(p), inputs[..i]), k, Run(Start(p), inputs).handed[k])
      && (Run(Start(p), inputs).handed[k].config.networkMode == Offline ==>
            || Run(Start(p), inputs[..i]).state.net.touched
            || p.mode == Some(Offline) || (p.mode.None? && p.isoMode == Some(Offline)))
  {
    hide Run, HonestRun, IsConfirmed, PasswordChosen;
    i := HandedOverComplete(p, inputs, k);
    if k < |Run(Start(p), inputs).handed| {
      TargetAlways(Start(p), inputs[..i], p);
    }
  }
}
