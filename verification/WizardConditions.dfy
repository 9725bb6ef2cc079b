/** The two properties a late key list breaks, and exactly when it does. */
module WizardConditions {
  import opened Wrappers
  import opened Text
  import opened Validators
  import opened WizardModel
  import opened WizardSafety
  import opened WizardRuns
  import opened WizardPaths

  // ---- A late key list ----

  /** A turn that finds nothing but a fetched key list. */
  function Fetched(keys: seq<string>, env: Env): Input {
    Input(Some(GithubResult(true, keys, None)), [], [], None, env)
  }

  /** Whatever screen is shown, the list takes over and the key list is shown. */
  lemma FetchedTick(x: Session, keys: seq<string>, env: Env)
    requires SessionOk(x) && KeysOk(x.state.ssh) && !x.stopped && x.state.ssh.fetching
    ensures Honest(x, Fetched(keys, env))
    ensures var y := Tick(x, Fetched(keys, env));
      && SessionOk(y) && !y.stopped && y.state.screen == LoginSshKeys
      && y.handed == x.handed && y.state.hostname == x.state.hostname
  {
    hide DropTrailingBlanks, WithTrailingBlank, SessionOk;
    FetchingIsAllowed(x);
    TickOk(x, Fetched(keys, env));
  }

  lemma FetchingIsAllowed(x: Session)
    requires SessionOk(x) && x.state.ssh.fetching
    ensures VerityAllows(x.state.verity)
  {
    hide FormsOk, ReachedOk, HandedOk;
  }

  // ---- One install per session ----

  lemma EndScreenKeys(s: State, key: Key, env: Env)
    requires KeysOk(s.ssh) && OnEndScreen(s)
    ensures HandleKey(s, key, env).0 == s && HandleKey(s, key, env).1 != StartWrite
  {
  }

  lemma SettledTick(x: Session, input: Input)
    requires SessionOk(x) && (!x.stopped ==> Honest(x, input)) && KeysOk(x.state.ssh)
    requires OnEndScreen(x.state) && !x.state.ssh.fetching
    ensures var y := Tick(x, input); OnEndScreen(y.state) && !y.state.ssh.fetching && y.handed == x.handed
  {
    hide StateOk, HandedOk, HandleKey, PollVerity;
    if !x.stopped {
      PolledOk(x, input);
      var polled := Polled(x.state, input);
      if input.key.Some? {
        EndScreenKeys(polled, input.key.value, input.env);
      }
    }
  }

  /** With no fetch outstanding, an install once started is the last. */
  lemma {:induction false} NoSecondInstall(x: Session, inputs: seq<Input>)
    requires SessionOk(x) && KeysOk(x.state.ssh) && HonestRun(x, inputs)
    requires OnEndScreen(x.state) && !x.state.ssh.fetching
    ensures var y := Run(x, inputs); OnEndScreen(y.state) && !y.state.ssh.fetching && y.handed == x.handed
  {
    hide SessionOk, Honest, Tick, OnEndScreen;
    if inputs != [] {
      var front := inputs[..|inputs| - 1];
      NoSecondInstall(x, front);
      RunOk(x, front);
      SettledTick(Run(x, front), inputs[|inputs| - 1]);
    }
  }

  /** With one outstanding, the list arrives and keys alone start another. */
  lemma {:induction false} SecondInstall(x: Session, env: Env) returns (inputs: seq<Input>)
    requires SessionOk(x) && KeysOk(x.state.ssh) && !x.stopped && x.state.ssh.fetching
    ensures HonestRun(x, inputs) && |Run(x, inputs).handed| == |x.handed| + 1
  {
    hide HonestRun, Run, Honest, Tick, SessionOk, Spawned;
    var late := Fetched([], env);
    FetchedTick(x, [], env);
    var y := Tick(x, late);
    EmptyRun(x);
    RunOneMore(x, [], late);
    assert [] + [late] == [late];
    var more := ToInstall(y, env);
    RunAppend(x, [late], more);
    inputs := [late] + more;
  }

  /** The run can be continued to start another install. */
  ghost predicate CanGoOn(x: Session, inputs: seq<Input>)
    requires KeysOk(x.state.ssh)
  {
    exists more: seq<Input> ::
      HonestRun(x, inputs + more) && |Run(x, inputs + more).handed| > |Run(x, inputs).handed|
  }

  /** Without a disk no install starts. */
  lemma NoDiskNoInstall(x: Session, inputs: seq<Input>)
    requires SessionOk(x) && KeysOk(x.state.ssh) && HonestRun(x, inputs) && x.state.disks.devices == []
    ensures Run(x, inputs).handed == []
  {
    hide StateOk, HonestRun, Run;
    RunOk(x, inputs);
    if Run(x, inputs).handed != [] {
      HandedNeedsDisk(Run(x, inputs));
    }
  }

  lemma HandedNeedsDisk(x: Session)
    requires SessionOk(x) && x.handed != []
    ensures x.state.disks.devices != []
  {
    hide StateOk;
    assert HandedOk(x.handed[0], x.state);
  }

  /** A running media check is reported on the first screen, a failed one ends the wizard. */
  predicate CheckShown(x: Session) {
    && (x.state.verity == Running ==> x.state.screen == Welcome && x.state.verityOpen)
    && (x.state.verity.Failed? ==> x.state.screen.Error?)
  }

  lemma CheckShownPolled(x: Session, input: Input)
    requires SessionOk(x) && KeysOk(x.state.ssh) && CheckShown(x) && Honest(x, input)
    ensures CheckShown(x.(state := Polled(x.state, input)))
  {
    hide FormsOk, ReachedOk, HandedOk, PollGithub;
    PolledOk(x, input);
    NoVerityMessage(x.state.verity);
    if input.github.Some? {
      GithubKeepsVerity(x.state, input.github.value);
    }
    if !VerityAllows(x.state.verity) {
      assert input.worker == [];
    }
  }

  /** Without a verdict the first screen waits, and an error screen stays. */
  lemma WaitingKey(s: State, key: Key, env: Env)
    requires KeysOk(s.ssh) && !VerityAllows(s.verity) && (s.screen == Welcome || s.screen.Error?)
    ensures HandleKey(s, key, env).0 == s
  {
  }

  lemma CheckShownTick(x: Session, input: Input)
    requires SessionOk(x) && KeysOk(x.state.ssh) && CheckShown(x) && (!x.stopped ==> Honest(x, input))
    ensures CheckShown(Tick(x, input))
  {
    hide Honest, StateOk, HandedOk, HandleKey, Polled;
    if !x.stopped {
      CheckShownPolled(x, input);
      PolledOk(x, input);
      var s := Polled(x.state, input);
      if input.key.Some? {
        KeyOk(s, input.key.value, input.env);
        if !VerityAllows(s.verity) {
          WaitingKey(s, input.key.value, input.env);
        }
      }
    }
  }

  lemma {:induction false} CheckShownRuns(p: Prefill, inputs: seq<Input>)
    requires HonestRun(Start(p), inputs)
    ensures CheckShown(Run(Start(p), inputs))
  {
    hide SessionOk, Honest, Tick, CheckShown;
    StartOk(p);
    if inputs == [] {
      StartShown(p);
    } else {
      var front := inputs[..|inputs| - 1];
      CheckShownRuns(p, front);
      RunOk(Start(p), front);
      CheckShownTick(Run(Start(p), front), inputs[|inputs| - 1]);
    }
  }

  lemma StartShown(p: Prefill)
    ensures CheckShown(Start(p))
  {
  }

  /** The media check's good verdict. */
  function Verified(env: Env): Input {
    Input(None, [VerityDone], [], None, env)
  }

  lemma VerifiedTick(x: Session, env: Env)
    requires SessionOk(x) && KeysOk(x.state.ssh) && !x.stopped && x.state.verity == Running && x.state.verityOpen
    ensures Honest(x, Verified(env))
    ensures var y := Tick(x, Verified(env));
      SessionOk(y) && !y.stopped && y.state == x.state.(verity := Passed) && y.handed == x.handed
  {
    hide SessionOk;
    TickOk(x, Verified(env));
  }

  /** An install can follow, through the key list. */
  lemma {:induction false} InstallFollows(x: Session, env: Env) returns (inputs: seq<Input>)
    requires SessionOk(x) && KeysOk(x.state.ssh) && CheckShown(x) && !x.stopped && SelectedDisk(x.state.disks).Some?
    requires x.state.ssh.fetching || !OnEndScreen(x.state)
    ensures HonestRun(x, inputs) && |Run(x, inputs).handed| == |x.handed| + 1
  {
    hide SessionOk, HonestRun, Run, Honest, Tick, Verified, SelectedDisk;
    if x.state.ssh.fetching {
      inputs := SecondInstall(x, env);
    } else if VerityAllows(x.state.verity) {
      inputs := InstallFrom(x, env);
    } else {
      VerifiedTick(x, env);
      EmptyRun(x);
      RunOneMore(x, [], Verified(env));
      assert [] + [Verified(env)] == [Verified(env)];
      var more := InstallFrom(Tick(x, Verified(env)), env);
      RunAppend(x, [Verified(env)], more);
      inputs := [Verified(env)] + more;
    }
  }

  lemma {:induction false} InstallNeedsMore(x: Session)
    requires SessionOk(x) && KeysOk(x.state.ssh)
    requires x.stopped || x.state.disks.devices == [] || (!x.state.ssh.fetching && OnEndScreen(x.state))
    ensures forall inputs: seq<Input> :: HonestRun(x, inputs) ==> |Run(x, inputs).handed| <= |x.handed|
  {
    hide SessionOk, HonestRun, Run;
    forall inputs: seq<Input> | HonestRun(x, inputs)
      ensures |Run(x, inputs).handed| <= |x.handed|
    {
      if x.stopped {
        EmptyRun(x);
        StoppedRun(x, inputs, 0);
      } else if x.state.disks.devices == [] {
        NoDiskNoInstall(x, inputs);
      } else {
        NoSecondInstall(x, inputs);
      }
    }
  }

  /** From any state of any run, an install, or another one, can be started exactly if
      the wizard has not stopped, there is a disk, and a key fetch is outstanding or no
      end screen is shown. */
  lemma InstallFollowsExactly(p: Prefill, inputs: seq<Input>)
    requires HonestRun(Start(p), inputs)
    ensures var y := Run(Start(p), inputs);
      CanGoOn(Start(p), inputs) <==>
        !y.stopped && p.devices != [] && (y.state.ssh.fetching || !OnEndScreen(y.state))
  {
    hide StateOk, HandedOk, HonestRun, Run, OnEndScreen, CheckShown;
    var x, y := Start(p), Run(Start(p), inputs);
    StartOk(p);
    RunOk(x, inputs);
    SessionKeys(y);
    if !y.stopped && p.devices != [] && (y.state.ssh.fetching || !OnEndScreen(y.state)) {
      CheckShownRuns(p, inputs);
      SelectedOf(y.state);
      var more := InstallFollows(y, Env(false, ""));
      RunAppend(x, inputs, more);
    } else {
      InstallNeedsMore(y);
      if more: seq<Input> :| HonestRun(x, inputs + more) && |Run(x, inputs + more).handed| > |y.handed| {
        RunSplit(x, inputs, more);
      }
    }
  }

  lemma SelectedOf(s: State)
    requires StateOk(s) && s.disks.devices != []
    ensures SelectedDisk(s.disks).Some?
  {
    hide ReachedOk, Gate;
  }

  /** The last turn of the run started an install. */
  ghost predicate StartsInstall(x: Session, inputs: seq<Input>)
    requires KeysOk(x.state.ssh)
  {
    inputs != [] && |Run(x, inputs).handed| > |Run(x, inputs[..|inputs| - 1]).handed|
  }

  lemma StartLeaves(x: Session, inputs: seq<Input>)
    requires SessionOk(x) && KeysOk(x.state.ssh) && HonestRun(x, inputs) && StartsInstall(x, inputs)
    ensures var y := Run(x, inputs); y.state.screen == Installing && !y.stopped && y.handed != []
  {
    hide SessionOk, Honest, Tick, ConfigFields, IsConfirmed, PasswordChosen;
    var front := inputs[..|inputs| - 1];
    RunOk(x, front);
    TickGrows(Run(x, front), inputs[|inputs| - 1]);
  }

  /** Once an install has been started, whatever happened since, another can be started
      exactly if the wizard has not stopped and a key fetch is outstanding or no end
      screen is shown; just after, exactly if a fetch is outstanding. */
  lemma AnotherInstallExactly(p: Prefill, inputs: seq<Input>)
    requires HonestRun(Start(p), inputs)
    ensures var y := Run(Start(p), inputs);
      y.handed != [] ==> (CanGoOn(Start(p), inputs) <==> !y.stopped && (y.state.ssh.fetching || !OnEndScreen(y.state)))
    ensures StartsInstall(Start(p), inputs) ==>
      (CanGoOn(Start(p), inputs) <==> Run(Start(p), inputs).state.ssh.fetching)
  {
    hide StateOk, HonestRun, Run, StartsInstall, CanGoOn;
    StartOk(p);
    RunOk(Start(p), inputs);
    if Run(Start(p), inputs).handed != [] {
      HandedNeedsDisk(Run(Start(p), inputs));
    }
    InstallFollowsExactly(p, inputs);
    if StartsInstall(Start(p), inputs) {
      StartLeaves(Start(p), inputs);
    }
  }

  /** A key list does not arrive on an end screen. */
  predicate Calm(x: Session, input: Input) {
    input.github.Some? && input.github.value.success ==> !OnEndScreen(x.state)
  }

  ghost predicate CalmRun(x: Session, inputs: seq<Input>)
    requires KeysOk(x.state.ssh)
  {
    inputs != [] ==>
      var front := inputs[..|inputs| - 1];
      CalmRun(x, front) && (!Run(x, front).stopped ==> Calm(Run(x, front), inputs[|inputs| - 1]))
  }

  /** One install at most, and after it only end screens. */
  predicate AtMostOne(x: Session) {
    |x.handed| <= 1 && (x.handed != [] ==> OnEndScreen(x.state))
  }

  lemma CalmTick(x: Session, input: Input)
    requires SessionOk(x) && KeysOk(x.state.ssh) && AtMostOne(x) && (!x.stopped ==> Honest(x, input) && Calm(x, input))
    ensures AtMostOne(Tick(x, input))
  {
    hide SessionOk, StateOk, HandedOk, HandleKey, PollVerity, DropTrailingBlanks, WithTrailingBlank, ConfigFields, IsConfirmed,
         PasswordChosen;
    TickGrows(x, input);
    if !x.stopped && x.handed != [] {
      PolledOk(x, input);
      if input.key.Some? {
        EndScreenKeys(Polled(x.state, input), input.key.value, input.env);
      }
    }
  }

  /** If no key list arrives on an end screen, a run starts one install at most. */
  lemma {:induction false} CalmRuns(p: Prefill, inputs: seq<Input>)
    requires HonestRun(Start(p), inputs) && CalmRun(Start(p), inputs)
    ensures AtMostOne(Run(Start(p), inputs))
  {
    hide SessionOk, Honest, Calm, Tick, Build, OnEndScreen;
    StartOk(p);
    if inputs != [] {
      var front := inputs[..|inputs| - 1];
      CalmRuns(p, front);
      RunOk(Start(p), front);
      CalmTick(Run(Start(p), front), inputs[|inputs| - 1]);
    }
  }

  // ---- The hostname ----

  /** DHCP, or a name the validator accepts. */
  predicate HostnameAccepted(h: HostnameForm) {
    h.fromDhcp || ValidateHostname(Trim(h.input)).Pass?
  }

  /** The rule for a handed-over configuration. */
  predicate HandedHostnameOk(c: InstallConfig) {
    c.hostnameFromDhcp || (c.hostname.Some? && ValidateHostname(c.hostname.value).Pass?)
  }

  lemma HandedHostnameExactly(s: State)
    ensures HandedHostnameOk(ConfigFields(s)) <==> HostnameAccepted(s.hostname)
  {
    hide Trim, TrimmedKeys, EffectiveMode;
  }

  /** From the login screen on, the hostname is accepted. */
  predicate HostnameOk(s: State) {
    Rank(s.screen) >= 5 ==> HostnameAccepted(s.hostname)
  }

  lemma HostnameKeysKeep(s: State, key: Key, env: Env)
    requires KeysOk(s.ssh) && HostnameOk(s)
    ensures s.screen == Hostname ==> HostnameOk(HostnameKey(s, key, env))
    ensures s.screen == HostnameInput ==> HostnameOk(HostnameInputKey(s, key, env))
  {
    hide ValidateHostname, Retyped, Trim;
  }

  /** The other screens leave the hostname alone, and none leads past the hostname screens. */
  lemma OtherKeysKeep(s: State, key: Key, env: Env)
    requires KeysOk(s.ssh) && s.screen != Hostname && s.screen != HostnameInput
    ensures var t := HandleKey(s, key, env).0;
      t.hostname == s.hostname && (Rank(t.screen) >= 5 ==> Rank(s.screen) >= 5)
  {
    hide FieldKey, KeyListKey, FilterKeys, ZoneKey, LoginErased, LoginTyped, StartFetch, Highlighted, HostnameKey,
         HostnameInputKey, LoginEnter;
    if s.screen == Login {
      LoginEnterKeeps(s, env);
    }
  }

  lemma LoginEnterKeeps(s: State, env: Env)
    requires s.screen == Login
    ensures LoginEnter(s, env).hostname == s.hostname
  {
  }

  /** No key breaks the rule. */
  lemma KeyKeepsHostname(s: State, key: Key, env: Env)
    requires KeysOk(s.ssh) && HostnameOk(s)
    ensures HostnameOk(HandleKey(s, key, env).0)
  {
    if s.screen == Hostname || s.screen == HostnameInput {
      hide HostnameKey, HostnameInputKey, HostnameOk;
      HostnameKeysKeep(s, key, env);
    } else {
      hide HandleKey, HostnameAccepted;
      OtherKeysKeep(s, key, env);
    }
  }

  /** A key list arrives only while the name typed so far would be accepted. */
  predicate Timely(x: Session, input: Input) {
    input.github.Some? && input.github.value.success ==> HostnameAccepted(x.state.hostname)
  }

  ghost predicate TimelyRun(x: Session, inputs: seq<Input>)
    requires KeysOk(x.state.ssh)
  {
    inputs != [] ==>
      var front := inputs[..|inputs| - 1];
      TimelyRun(x, front) && (!Run(x, front).stopped ==> Timely(Run(x, front), inputs[|inputs| - 1]))
  }

  /** The rule holds, and was kept by every install but the first `from`. */
  predicate NamesOk(x: Session, from: nat) {
    HostnameOk(x.state) && forall k :: from <= k < |x.handed| ==> HandedHostnameOk(x.handed[k].config)
  }

  lemma TimelyPolled(x: Session, input: Input)
    requires SessionOk(x) && KeysOk(x.state.ssh) && Honest(x, input) && Timely(x, input) && HostnameOk(x.state)
    ensures HostnameOk(Polled(x.state, input))
  {
    hide StateOk, HandedOk, HostnameAccepted, PollVerity, DropTrailingBlanks, WithTrailingBlank;
    PolledOk(x, input);
  }

  lemma TimelyTick(x: Session, input: Input, from: nat)
    requires SessionOk(x) && KeysOk(x.state.ssh) && NamesOk(x, from)
    requires !x.stopped ==> Honest(x, input) && Timely(x, input)
    ensures NamesOk(Tick(x, input), from)
  {
    hide SessionOk, Honest, Timely, Polled, HandleKey, HostnameAccepted, HandedHostnameOk, ConfigFields, IsConfirmed,
         PasswordChosen;
    TickGrows(x, input);
    if !x.stopped {
      TimelyPolled(x, input);
      if input.key.Some? {
        KeyKeepsHostname(Polled(x.state, input), input.key.value, input.env);
      }
    }
    HandedHostnameExactly(Tick(x, input).state);
  }

  /** If key lists arrive only while the name typed so far would be accepted, every
      install is handed DHCP or a hostname the validator accepts. */
  lemma {:induction false} TimelyRuns(p: Prefill, inputs: seq<Input>)
    requires HonestRun(Start(p), inputs) && TimelyRun(Start(p), inputs)
    ensures NamesOk(Run(Start(p), inputs), 0)
  {
    hide SessionOk, Honest, Timely, Tick;
    StartOk(p);
    if inputs != [] {
      hide NamesOk;
      var front := inputs[..|inputs| - 1];
      TimelyRuns(p, front);
      RunOk(Start(p), front);
      TimelyTick(Run(Start(p), front), inputs[|inputs| - 1], 0);
    }
  }

  lemma {:induction false} NamesStayOk(x: Session, inputs: seq<Input>, from: nat)
    requires SessionOk(x) && KeysOk(x.state.ssh) && HonestRun(x, inputs) && NoNewKeys(inputs) && NamesOk(x, from)
    ensures NamesOk(Run(x, inputs), from)
  {
    hide SessionOk, Honest, HostnameAccepted, Tick, NamesOk;
    if inputs != [] {
      var front := inputs[..|inputs| - 1];
      NamesStayOk(x, front, from);
      RunOk(x, front);
      TimelyTick(Run(x, front), inputs[|inputs| - 1], from);
    }
  }

  /** An install after the first `from` was handed a hostname that breaks the rule. */
  predicate BadNameSince(x: Session, from: nat) {
    exists k :: from <= k < |x.handed| && !HandedHostnameOk(x.handed[k].config)
  }

  /** When a key list arrives, whatever screen is shown, the session can go on, without
      another list, to hand over a hostname that breaks the rule exactly if the name
      typed so far would not be accepted. */
  lemma LateNameExactly(x: Session, keys: seq<string>, env: Env)
    requires SessionOk(x) && KeysOk(x.state.ssh) && !x.stopped && x.state.ssh.fetching
    ensures var y := Tick(x, Fetched(keys, env));
      !HostnameAccepted(x.state.hostname) <==>
        exists inputs: seq<Input> :: HonestRun(y, inputs) && NoNewKeys(inputs) && BadNameSince(Run(y, inputs), |x.handed|)
  {
    hide SessionOk, HonestRun, Run, Honest, Tick, HostnameAccepted, HandedHostnameOk;
    FetchedTick(x, keys, env);
    var y := Tick(x, Fetched(keys, env));
    if HostnameAccepted(x.state.hostname) {
      forall inputs: seq<Input> | HonestRun(y, inputs) && NoNewKeys(inputs)
        ensures !BadNameSince(Run(y, inputs), |x.handed|)
      {
        NamesStayOk(y, inputs, |x.handed|);
      }
    } else {
      var inputs := BadNameFollows(y, env);
    }
  }

  /** From the key list with a refused name, keys alone start an install with it. */
  lemma {:induction false} BadNameFollows(x: Session, env: Env) returns (inputs: seq<Input>)
    requires SessionOk(x) && KeysOk(x.state.ssh) && !x.stopped && x.state.screen == LoginSshKeys
    requires !HostnameAccepted(x.state.hostname)
    ensures HonestRun(x, inputs) && NoNewKeys(inputs)
    ensures |Run(x, inputs).handed| == |x.handed| + 1 && !HandedHostnameOk(Run(x, inputs).handed[|x.handed|].config)
    ensures BadNameSince(Run(x, inputs), |x.handed|)
  {
    hide SessionOk, HonestRun, Run, HostnameAccepted, HandedHostnameOk, ConfigFields;
    inputs := ToInstall(x, env);
    HandedHostnameExactly(Run(x, inputs).state);
  }
}
