/** Theorems about every run of the wizard from its first screen. */
module WizardRuns {
  import opened Wrappers
  import opened Text
  import opened Validators
  import opened WizardModel
  import opened WizardSafety

  // ---- Safety of every honest run ----

  lemma {:induction false} HonestPrefix(x: Session, inputs: seq<Input>, i: nat)
    requires KeysOk(x.state.ssh) && HonestRun(x, inputs) && i <= |inputs|
    ensures HonestRun(x, inputs[..i])
  {
    hide Honest, Run;
    if i < |inputs| {
      var front := inputs[..|inputs| - 1];
      HonestPrefix(x, front, i);
      assert front[..i] == inputs[..i];
    } else {
      assert inputs[..i] == inputs;
    }
  }

  /** A run after a run is a run. */
  lemma {:induction false} RunAppend(x: Session, a: seq<Input>, b: seq<Input>)
    requires KeysOk(x.state.ssh) && HonestRun(x, a) && HonestRun(Run(x, a), b)
    ensures Run(x, a + b) == Run(Run(x, a), b) && HonestRun(x, a + b)
  {
    hide Honest, Tick;
    if b == [] {
      assert a + b == a;
    } else {
      var front := b[..|b| - 1];
      RunAppend(x, a, front);
      assert (a + b)[..|a + b| - 1] == a + front;
    }
  }

  /** And can be taken apart again. */
  lemma {:induction false} RunSplit(x: Session, a: seq<Input>, b: seq<Input>)
    requires KeysOk(x.state.ssh) && HonestRun(x, a + b)
    ensures HonestRun(x, a) && HonestRun(Run(x, a), b) && Run(x, a + b) == Run(Run(x, a), b)
  {
    hide Honest, Tick;
    if b == [] {
      assert a + b == a;
    } else {
      var front := b[..|b| - 1];
      assert (a + b)[..|a + b| - 1] == a + front;
      RunSplit(x, a, front);
    }
  }

  lemma RunOneMore(x: Session, inputs: seq<Input>, input: Input)
    requires KeysOk(x.state.ssh) && HonestRun(x, inputs)
    requires !Run(x, inputs).stopped ==> Honest(Run(x, inputs), input)
    ensures Run(x, inputs + [input]) == Tick(Run(x, inputs), input) && HonestRun(x, inputs + [input])
  {
    hide Honest, Tick;
    assert (inputs + [input])[..|inputs|] == inputs;
  }

  lemma EmptyRun(x: Session)
    requires KeysOk(x.state.ssh)
    ensures Run(x, []) == x && HonestRun(x, [])
  {
  }

  /** Once stopped, nothing changes any more. */
  lemma {:induction false} StoppedRun(x: Session, inputs: seq<Input>, i: nat)
    requires KeysOk(x.state.ssh) && i <= |inputs|
    requires i == |inputs| || Run(x, inputs[..i]).stopped
    ensures Run(x, inputs) == Run(x, inputs[..i])
  {
    if i < |inputs| {
      var front := inputs[..|inputs| - 1];
      assert front[..i] == inputs[..i];
      StoppedRun(x, front, i);
    } else {
      assert inputs[..i] == inputs;
    }
  }

  /** Whatever keys, polls and messages interleave: no screen past the first is
      shown, and no install is started, before the media check allows it. */
  lemma VerityGate(p: Prefill, inputs: seq<Input>, i: nat)
    requires HonestRun(Start(p), inputs) && i <= |inputs|
    ensures var x := Run(Start(p), inputs[..i]);
      && (x.state.screen == Welcome || x.state.screen.Error? || VerityAllows(x.state.verity))
      && (x.handed != [] ==> VerityAllows(x.state.verity))
  {
    hide FormsOk, ReachedOk, HandedOk, Honest, Run;
    StartOk(p);
    HonestPrefix(Start(p), inputs, i);
    RunOk(Start(p), inputs[..i]);
  }

  lemma {:induction false} RunKeeps(x: Session, inputs: seq<Input>, i: nat)
    requires SessionOk(x) && KeysOk(x.state.ssh) && HonestRun(x, inputs) && i <= |inputs|
    ensures Keeps(Run(x, inputs[..i]).state, Run(x, inputs).state)
  {
    hide SessionOk, Honest, Tick;
    if i < |inputs| {
      var front := inputs[..|inputs| - 1];
      assert front[..i] == inputs[..i];
      RunKeeps(x, front, i);
      RunOk(x, front);
      TickOk(Run(x, front), inputs[|inputs| - 1]);
    } else {
      assert inputs[..i] == inputs;
    }
  }

  /** One passphrase per run: encrypting, it is set before the confirmation is shown;
      once set it never changes; every worker that got one got this one. */
  lemma PassphraseAgreement(p: Prefill, inputs: seq<Input>, i: nat)
    requires HonestRun(Start(p), inputs) && i <= |inputs|
    ensures var earlier, later := Run(Start(p), inputs[..i]), Run(Start(p), inputs);
      && (earlier.state.screen in {Confirmation, Installing} && earlier.state.disks.encryption.IsEncrypted() ==>
            earlier.state.passphrase.Some?)
      && (earlier.state.passphrase.Some? ==> later.state.passphrase == earlier.state.passphrase)
      && (forall k :: 0 <= k < |later.handed| ==>
            && (later.handed[k].encryption.IsEncrypted() ==> later.handed[k].passphrase.Some?)
            && (later.handed[k].passphrase.Some? ==> later.state.passphrase == later.handed[k].passphrase))
  {
    hide FormsOk, Gate, Honest, Run;
    StartOk(p);
    HonestPrefix(Start(p), inputs, i);
    RunOk(Start(p), inputs[..i]);
    RunOk(Start(p), inputs);
    RunKeeps(Start(p), inputs, i);
  }

  // ---- What is handed over ----

  /** Worker `k` has just been started, with the answers of the moment: the selected disk, and a
      password from the file, or typed, not empty, and confirmed equal. */
  predicate StartedAt(x: Session, k: nat, h: Handed) {
    var s := x.state;
    && s.screen == Installing && IsConfirmed(s.confirmInput) && PasswordChosen(s.password) && !x.stopped
    && |x.handed| == k + 1 && x.handed[k] == h
    && SelectedDisk(s.disks) == Some(h.device) && h.encryption == s.disks.encryption && h.passphrase == s.passphrase
    && h.config == ConfigFields(s)
  }

  /** A turn starts one worker at most, and only as described. */
  lemma TickGrows(x: Session, input: Input)
    requires SessionOk(x) && KeysOk(x.state.ssh) && (!x.stopped ==> Honest(x, input))
    ensures var y := Tick(x, input);
      || y.handed == x.handed
      || (|y.handed| == |x.handed| + 1 && x.handed <= y.handed && StartedAt(y, |x.handed|, y.handed[|x.handed|]))
  {
    hide SessionOk, Honest, Polled, HandleKey, IsConfirmed, ConfigFields, StateOk, PasswordChosen;
    if !x.stopped && input.key.Some? {
      var polled := Polled(x.state, input);
      var (s, action) := HandleKey(polled, input.key.value, input.env);
      if action == StartWrite {
        StartWriteMeans(polled, input.key.value, input.env);
        TickOk(x, input);
        SessionKeys(Tick(x, input));
        SpawnedOk(s);
        ChosenWhenInstalling(s);
      }
    }
  }

  lemma ChosenWhenInstalling(s: State)
    requires StateOk(s) && s.screen == Installing
    ensures PasswordChosen(s.password) && SelectedDisk(s.disks).Some?
  {
    hide FormsOk, PasswordChosen;
  }

  lemma {:induction false} HandedWhen(x: Session, inputs: seq<Input>, k: nat) returns (i: nat)
    requires SessionOk(x) && KeysOk(x.state.ssh) && HonestRun(x, inputs)
    requires |x.handed| <= k < |Run(x, inputs).handed|
    ensures i <= |inputs| && StartedAt(Run(x, inputs[..i]), k, Run(x, inputs).handed[k])
  {
    hide SessionOk, Honest, Tick, StartedAt;
    EmptyRun(x);
    assert inputs != [];
    var front := inputs[..|inputs| - 1];
    RunOk(x, front);
    TickGrows(Run(x, front), inputs[|inputs| - 1]);
    if k < |Run(x, front).handed| {
      i := HandedWhen(x, front, k);
      assert front[..i] == inputs[..i];
    } else {
      i := |inputs|;
      assert inputs[..i] == inputs;
    }
  }

  /** Every started install was handed the answers of the turn that started it: a listed disk, the
      one selected, and a password from the file, or typed, not empty, and confirmed equal. */
  lemma HandedOverComplete(p: Prefill, inputs: seq<Input>, k: nat) returns (i: nat)
    requires HonestRun(Start(p), inputs)
    ensures k < |Run(Start(p), inputs).handed| ==>
      && i <= |inputs|
      && var x, h := Run(Start(p), inputs[..i]), Run(Start(p), inputs).handed[k];
         && StartedAt(x, k, h)
         && x.state.disks.index < |p.devices| && h.device == p.devices[x.state.disks.index] && HasPassword(h.config)
  {
    hide StateOk, Honest, Run, ConfigFields, IsConfirmed, PasswordChosen;
    i := 0;
    if k < |Run(Start(p), inputs).handed| {
      StartOk(p);
      RunOk(Start(p), inputs);
      i := HandedWhen(Start(p), inputs, k);
      HonestPrefix(Start(p), inputs, i);
      RunOk(Start(p), inputs[..i]);
    }
  }

  // ---- The recovery passphrase ----

  /** The confirmation is shown with encryption on. */
  predicate ConfirmsEncrypted(s: State) {
    s.screen == Confirmation && s.disks.encryption.IsEncrypted()
  }

  ghost predicate ConfirmedEncrypted(x: Session, inputs: seq<Input>)
    requires KeysOk(x.state.ssh)
  {
    exists i :: 0 <= i <= |inputs| && ConfirmsEncrypted(Run(x, inputs[..i]).state)
  }

  /** Only the step to the confirmation touches the passphrase. */
  lemma KeyPassphrase(s: State, key: Key, env: Env)
    requires KeysOk(s.ssh)
    ensures s.screen != NetworkResults ==> HandleKey(s, key, env).0.passphrase == s.passphrase
    ensures s.screen == NetworkResults ==> HandleKey(s, key, env).0 in {s, GoBack(s), Advance(s, env)}
  {
    hide FieldKey, KeyListKey, FilterKeys, ZoneKey, LoginErased, LoginTyped, HostnameErrorOf, Retyped, StartFetch, Highlighted;
  }

  lemma KeySetsPassphrase(s: State, key: Key, env: Env)
    requires KeysOk(s.ssh)
    ensures var t := HandleKey(s, key, env).0;
      t.passphrase == s.passphrase || (s.passphrase.None? && t.passphrase == Some(env.freshPassphrase) && ConfirmsEncrypted(t))
  {
    hide HandleKey;
    KeyPassphrase(s, key, env);
  }

  lemma TickSetsPassphrase(x: Session, input: Input)
    requires SessionOk(x) && KeysOk(x.state.ssh) && (!x.stopped ==> Honest(x, input))
    requires x.state.passphrase.None? && Tick(x, input).state.passphrase.Some?
    ensures ConfirmsEncrypted(Tick(x, input).state)
  {
    hide SessionOk, Honest, Polled, HandleKey, ConfirmsEncrypted;
    if !x.stopped {
      PolledPassphrase(x, input);
      if input.key.Some? {
        KeySetsPassphrase(Polled(x.state, input), input.key.value, input.env);
      }
    }
  }

  lemma ConfirmedSooner(x: Session, inputs: seq<Input>)
    requires KeysOk(x.state.ssh) && inputs != []
    ensures ConfirmedEncrypted(x, inputs[..|inputs| - 1]) ==> ConfirmedEncrypted(x, inputs)
    ensures ConfirmsEncrypted(Run(x, inputs).state) ==> ConfirmedEncrypted(x, inputs)
  {
    hide Run, ConfirmsEncrypted;
    var front := inputs[..|inputs| - 1];
    assert inputs[..|inputs|] == inputs;
    if ConfirmedEncrypted(x, front) {
      var i :| 0 <= i <= |front| && ConfirmsEncrypted(Run(x, front[..i]).state);
      assert inputs[..i] == front[..i];
    }
  }

  lemma {:induction false} SetOnlyThere(x: Session, inputs: seq<Input>)
    requires SessionOk(x) && KeysOk(x.state.ssh) && HonestRun(x, inputs)
    requires x.state.passphrase.None? && Run(x, inputs).state.passphrase.Some?
    ensures ConfirmedEncrypted(x, inputs)
  {
    hide SessionOk, Honest, Tick, ConfirmedEncrypted, ConfirmsEncrypted;
    EmptyRun(x);
    assert inputs != [];
    var front := inputs[..|inputs| - 1];
    RunOk(x, front);
    ConfirmedSooner(x, inputs);
    if Run(x, front).state.passphrase.Some? {
      SetOnlyThere(x, front);
    } else {
      TickSetsPassphrase(Run(x, front), inputs[|inputs| - 1]);
    }
  }

  /** A session has a passphrase exactly if one was configured, or a confirmation was shown with encryption on. */
  lemma PassphraseExactly(p: Prefill, inputs: seq<Input>)
    requires HonestRun(Start(p), inputs)
    ensures Run(Start(p), inputs).state.passphrase.Some? <==>
      p.passphrase.Some? || ConfirmedEncrypted(Start(p), inputs)
  {
    hide Honest, Run, Build;
    var x := Start(p);
    StartOk(p);
    BuildPassphrase(p);
    RunOk(x, inputs);
    if p.passphrase.None? && Run(x, inputs).state.passphrase.Some? {
      SetOnlyThere(x, inputs);
    } else if ConfirmedEncrypted(x, inputs) {
      var i :| 0 <= i <= |inputs| && ConfirmsEncrypted(Run(x, inputs[..i]).state);
      PassphraseAgreement(p, inputs, i);
    }
  }

  /** A worker is handed a passphrase without encryption exactly if encryption is off when it is started and
      one was configured or a confirmation was shown with encryption on before. */
  lemma UnencryptedPassphraseExactly(p: Prefill, inputs: seq<Input>, k: nat) returns (i: nat)
    requires HonestRun(Start(p), inputs)
    ensures k < |Run(Start(p), inputs).handed| ==>
      && i <= |inputs|
      && var x, h := Run(Start(p), inputs[..i]), Run(Start(p), inputs).handed[k];
         && StartedAt(x, k, h)
         && (h.passphrase.Some? && !h.encryption.IsEncrypted() <==>
               && !x.state.disks.encryption.IsEncrypted()
               && (p.passphrase.Some? || ConfirmedEncrypted(Start(p), inputs[..i])))
  {
    hide Honest, HonestRun, Run, ConfirmedEncrypted, ConfigFields, IsConfirmed, PasswordChosen;
    i := HandedOverComplete(p, inputs, k);
    if k < |Run(Start(p), inputs).handed| {
      HonestPrefix(Start(p), inputs, i);
      PassphraseExactly(p, inputs[..i]);
    }
  }

  predicate PassphraseValid(p: Option<string>) {
    p.Some? ==> ValidateRecoveryPassphrase(p.value).Pass?
  }

  /** If the configured passphrase and every generated one are valid, so is every one shown or handed over. */
  lemma {:induction false} PassphrasesValid(p: Prefill, inputs: seq<Input>)
    requires PassphraseValid(p.passphrase)
    requires forall i :: 0 <= i < |inputs| ==> ValidateRecoveryPassphrase(inputs[i].env.freshPassphrase).Pass?
    requires HonestRun(Start(p), inputs)
    ensures var x := Run(Start(p), inputs);
      && PassphraseValid(x.state.passphrase)
      && forall i :: 0 <= i < |x.handed| ==> PassphraseValid(x.handed[i].passphrase)
  {
    hide StateOk, Honest, Polled, HandleKey, Build, Spawned, ValidateRecoveryPassphrase;
    StartOk(p);
    BuildPassphrase(p);
    RunOk(Start(p), inputs);
    if inputs != [] {
      var front, input := inputs[..|inputs| - 1], inputs[|inputs| - 1];
      PassphrasesValid(p, front);
      RunOk(Start(p), front);
      var x := Run(Start(p), front);
      if !x.stopped {
        PolledPassphrase(x, input);
        if input.key.Some? {
          KeySetsPassphrase(Polled(x.state, input), input.key.value, input.env);
        }
      }
    }
  }

  lemma BuildPassphrase(p: Prefill)
    ensures Build(p).passphrase == p.passphrase
  {
  }

  lemma PolledPassphrase(x: Session, input: Input)
    requires SessionOk(x) && Honest(x, input)
    ensures Polled(x.state, input).passphrase == x.state.passphrase && KeysOk(x.state.ssh)
  {
    hide StateOk, HandedOk, PollVerity;
    SessionKeys(x);
    PolledOk(x, input);
  }

  // ---- Indices ----

  lemma KeyKeepsZones(s: State, key: Key, env: Env)
    requires KeysOk(s.ssh) && ZonesOk(s.zones)
    ensures ZonesOk(HandleKey(s, key, env).0.zones)
  {
    hide ZonesOk, ZoneKey, FieldKey, KeyListKey, FilterKeys, LoginErased, LoginTyped, HostnameErrorOf, Retyped, StartFetch,
         Highlighted;
    ZoneKeyOk(s.zones, key);
    SelectedZone(s.zones);
  }

  lemma KeyKeepsNet(s: State, key: Key, env: Env)
    requires KeysOk(s.ssh) && NetOk(s.net)
    ensures NetOk(HandleKey(s, key, env).0.net)
  {
    hide AllVisible, ZoneKey, FieldKey, KeyListKey, FilterKeys, LoginErased, LoginTyped, HostnameErrorOf, Retyped, StartFetch,
         Highlighted;
    FieldKeyOk(s.net, key);
    ModeFieldsVisible(s.net.iso, s.net.target);
  }

  lemma DiskKeysKeep(d: Disks)
    requires DisksOk(d)
    ensures DisksOk(NextDisk(d)) && DisksOk(PrevDisk(d)) && DisksOk(CycleEncryption(d)) && DisksOk(CycleEncryptionReverse(d))
  {
  }

  lemma KeyKeepsDisks(s: State, key: Key, env: Env)
    requires KeysOk(s.ssh) && DisksOk(s.disks)
    ensures DisksOk(HandleKey(s, key, env).0.disks)
  {
    hide ZoneKey, FieldKey, KeyListKey, FilterKeys, LoginErased, LoginTyped, HostnameErrorOf, Retyped, StartFetch, Highlighted,
         DisksOk, NextDisk, PrevDisk, CycleEncryption, CycleEncryptionReverse;
    DiskKeysKeep(s.disks);
  }

  lemma LoginKeepsPassword(s: State, key: Key, env: Env)
    requires PasswordOk(s.password) && s.screen == Login
    ensures PasswordOk(LoginKey(s, key, env).password)
  {
    hide LoginErased, LoginTyped;
    TypingOk(s.password, key);
  }

  lemma KeyKeepsPassword(s: State, key: Key, env: Env)
    requires KeysOk(s.ssh) && PasswordOk(s.password)
    ensures PasswordOk(HandleKey(s, key, env).0.password)
  {
    hide ZoneKey, FieldKey, KeyListKey, FilterKeys, LoginKey, HostnameErrorOf, Retyped, StartFetch, Highlighted, PasswordOk;
    if s.screen == Login {
      LoginKeepsPassword(s, key, env);
    }
  }

  /** No key takes an index out of range. */
  lemma KeyKeepsForms(s: State, key: Key, env: Env)
    requires FormsOk(s)
    ensures FormsOk(HandleKey(s, key, env).0)
  {
    hide HandleKey, ZonesOk, NetOk, DisksOk, PasswordOk;
    KeyKeepsZones(s, key, env);
    KeyKeepsNet(s, key, env);
    KeyKeepsDisks(s, key, env);
    KeyKeepsPassword(s, key, env);
  }

  lemma SelectedZone(z: ZoneForm)
    requires ZonesOk(z)
    ensures ZonesOk(z.(selected := Highlighted(z)))
  {
    hide MatchingZones;
  }

  lemma PolledForms(s: State, input: Input)
    requires FormsOk(s)
    ensures FormsOk(Polled(s, input))
  {
    hide ZonesOk, NetOk, PasswordOk, DisksOk, DropTrailingBlanks, WithTrailingBlank, PollVerity;
  }

  lemma {:induction false} FormsAlways(x: Session, inputs: seq<Input>)
    requires FormsOk(x.state)
    ensures FormsOk(Run(x, inputs).state)
  {
    hide ZonesOk, NetOk, PasswordOk, DisksOk, Polled, HandleKey;
    if inputs != [] {
      var front, input := inputs[..|inputs| - 1], inputs[|inputs| - 1];
      FormsAlways(x, front);
      var s := Run(x, front).state;
      PolledForms(s, input);
      if input.key.Some? {
        KeyKeepsForms(Polled(s, input), input.key.value, input.env);
      }
    }
  }

  /** Whatever the environment does, honest or not, every index the wizard uses is in
      range, the filter is exact, and the focus is on a field that can be seen. */
  lemma IndicesInRange(p: Prefill, inputs: seq<Input>)
    ensures var s := Run(Start(p), inputs).state;
      && s.ssh.cursor < |s.ssh.keys|
      && (s.disks.devices == [] || s.disks.index < |s.disks.devices|)
      && (forall i :: 0 <= i < |s.zones.filtered| ==> s.zones.filtered[i] < |s.zones.available|)
      && (forall i, j :: 0 <= i < j < |s.zones.filtered| ==> s.zones.filtered[i] < s.zones.filtered[j])
      && (forall z :: 0 <= z < |s.zones.available| ==>
            (z in s.zones.filtered <==> Matches(s.zones.available[z], s.zones.search)))
      && s.net.focus in AllVisible(s.net.iso, s.net.target) && s.net.pane == s.net.focus.pane
  {
    hide Gate, ReachedOk, Run, Matches;
    BuildOk(p);
    FormsAlways(Start(p), inputs);
    var z := Run(Start(p), inputs).state.zones;
    FilterIsExact(z.available, z.search, |z.available|);
  }
}
