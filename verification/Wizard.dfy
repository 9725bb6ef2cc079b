/** The wizard as the source runs it (`ui.rs` `AppState`, `ui/run.rs`): the loops over
    polled results, keys and messages, the key lists and indices they work on, and the
    event loop itself, proved against the functions of `WizardModel`. */
module Wizard {
  import opened Wrappers
  import opened Text
  import opened Validators
  import opened WizardModel
  import opened WizardSafety
  import opened WizardRuns

  /** `AppState`; its fields for one form are kept in one record. */
  class AppState {
    var screen: Screen
    var disks: Disks
    var hostname: HostnameForm
    var tailscale: string
    var password: PasswordForm
    var ssh: SshForm
    var zones: ZoneForm
    var net: NetForm
    var confirmInput: string
    var recoveryPassphrase: Option<string>
    var verityCheck: VerityCheck
    var verityOpen: bool

    function View(): State
      reads this
    {
      State(screen, disks, hostname, tailscale, password, ssh, zones, net, confirmInput, recoveryPassphrase,
            verityCheck, verityOpen)
    }

    constructor (p: Prefill)
      ensures View() == Build(p)
    {
      new;
      Become(Build(p));
    }

    method Become(s: State)
      modifies this
      ensures View() == s
    {
      screen, disks, hostname, tailscale := s.screen, s.disks, s.hostname, s.tailscale;
      password, ssh, zones, net := s.password, s.ssh, s.zones, s.net;
      confirmInput, recoveryPassphrase, verityCheck, verityOpen := s.confirmInput, s.passphrase, s.verity, s.verityOpen;
    }

    // ---- SSH keys ----

    method FilterSshKeys()
      modifies this`ssh
      ensures ssh == FilterKeys(old(ssh))
    {
      ssh := ssh.(keys := ValidKeys(ssh.keys));
      if ssh.keys == [] {
        ssh := ssh.(keys := [""]);
      }
      if ssh.cursor >= |ssh.keys| {
        ssh := ssh.(cursor := 0);
      }
    }

    method EnsureTrailingBlank()
      modifies this`ssh
      ensures ssh == old(ssh).(keys := WithTrailingBlank(old(ssh).keys))
    {
      if ssh.keys == [] || !Blank(ssh.keys[|ssh.keys| - 1]) {
        ssh := ssh.(keys := ssh.keys + [""]);
      }
    }

    method DropBlankKeys()
      modifies this`ssh
      ensures ssh == old(ssh).(keys := DropTrailingBlanks(old(ssh).keys))
    {
      while ssh.keys != [] && Blank(ssh.keys[|ssh.keys| - 1])
        invariant ssh == old(ssh).(keys := ssh.keys)
        invariant DropTrailingBlanks(ssh.keys) == DropTrailingBlanks(old(ssh).keys)
        decreases |ssh.keys|
      {
        ssh := ssh.(keys := ssh.keys[..|ssh.keys| - 1]);
      }
    }

    method PushKeys(keys: seq<string>)
      modifies this`ssh
      ensures ssh == old(ssh).(keys := old(ssh).keys + keys)
    {
      var i := 0;
      while i < |keys|
        invariant 0 <= i <= |keys| && ssh == old(ssh).(keys := old(ssh).keys + keys[..i])
      {
        ssh := ssh.(keys := ssh.keys + [keys[i]]);
        assert keys[..i + 1] == keys[..i] + [keys[i]];
        i := i + 1;
      }
      assert keys[..i] == keys;
    }

    method PollGithubKeys(result: GithubResult)
      modifies this`ssh, this`screen
      ensures View() == PollGithub(old(View()), result)
    {
      ssh := ssh.(fetching := false);
      if result.success {
        DropBlankKeys();
        var firstNew := |ssh.keys|;
        PushKeys(result.keys);
        ssh := ssh.(error := None);
        EnsureTrailingBlank();
        ssh := ssh.(cursor := firstNew);
        screen := LoginSshKeys;
      } else {
        ssh := ssh.(error := result.error);
      }
    }

    // ---- The media check ----

    method PollVerityCheck(messages: seq<VerityMessage>)
      modifies this`verityCheck
      ensures verityCheck == PollVerity(old(verityCheck), messages)
    {
      var i := 0;
      while i < |messages|
        invariant 0 <= i <= |messages| && verityCheck == PollVerity(old(verityCheck), messages[..i])
      {
        assert messages[..i + 1][..i] == messages[..i];
        match messages[i] {
          case VerityProgress =>
          case VerityDone => verityCheck := Passed;
          case VerityError(e) => verityCheck := VerityCheck.Failed(e);
        }
        i := i + 1;
      }
      assert messages[..i] == messages;
    }

    // ---- Timezones ----

    /** The source indexes without a check; that is safe while the filter is current. */
    method TimezoneHighlighted() returns (zone: string)
      requires ZonesOk(zones)
      ensures zone == Highlighted(zones)
    {
      zone := zones.selected;
      if zones.cursor < |zones.filtered| {
        FilterIsExact(zones.available, zones.search, |zones.available|);
        zone := zones.available[zones.filtered[zones.cursor]];
      }
    }

    // ---- Keys ----

    method HandleLoginSshKeys(key: Key)
      requires KeysOk(ssh)
      modifies this`screen, this`ssh
      ensures View() == LoginSshKeysKey(old(View()), key)
    {
      hide FilterKeys, WithTrailingBlank;
      if key.code == Esc || key.code == Enter {
        FilterSshKeys();
        screen := Login;
      } else if (key.code == Tab && (key.shift || key.alt)) || key.code == BackTab {
        ssh := ssh.(cursor := if ssh.cursor == 0 then |ssh.keys| - 1 else ssh.cursor - 1);
      } else if key.code == Tab {
        ssh := ssh.(cursor := (ssh.cursor + 1) % |ssh.keys|);
      } else if key.code == Backspace {
        ssh := ssh.(keys := ssh.keys[ssh.cursor := Pop(ssh.keys[ssh.cursor])]);
      } else if key.code.Char? {
        ssh := ssh.(keys := ssh.keys[ssh.cursor := ssh.keys[ssh.cursor] + [key.code.c]]);
        EnsureTrailingBlank();
      }
    }

    method HandleTimezone(key: Key, env: Env)
      requires ZonesOk(zones)
      modifies this
      ensures View() == TimezoneKey(old(View()), key, env)
    {
      hide Advance, GoBack, ZonesOk, Refilter, Highlighted;
      match key.code
      case Esc => Become(GoBack(View()));
      case Enter =>
        var zone := TimezoneHighlighted();
        zones := zones.(selected := zone);
        Become(Advance(View(), env));
      case Up =>
        if zones.cursor > 0 {
          zones := zones.(cursor := zones.cursor - 1);
        }
      case Down =>
        if zones.cursor + 1 < |zones.filtered| {
          zones := zones.(cursor := zones.cursor + 1);
        }
      case Backspace => zones := Refilter(zones.(search := Pop(zones.search)));
      case Char(c) => zones := Refilter(zones.(search := zones.search + [c]));
      case _ =>
    }

    /** `handle_key`; on the screens without lists its transition is one assignment. */
    method HandleKeyEvent(key: Key, env: Env) returns (action: Action)
      requires KeysOk(ssh) && ZonesOk(zones)
      modifies this
      ensures (View(), action) == HandleKey(old(View()), key, env)
    {
      action := Continue;
      if key.press && screen == LoginSshKeys && !(key.alt && key.ctrl && key.code == Char('d')) {
        hide KeysOk, ZonesOk, LoginSshKeysKey;
        HandleLoginSshKeys(key);
      } else if key.press && screen == Timezone && !(key.alt && key.ctrl && key.code == Char('d')) {
        hide KeysOk, ZonesOk, TimezoneKey;
        HandleTimezone(key, env);
      } else {
        hide HandleKey, KeysOk, ZonesOk;
        var next := HandleKey(View(), key, env);
        action := next.1;
        Become(next.0);
      }
    }

    // ---- The loop's own steps ----

    method ReceiveWorkerMessages(messages: seq<WorkerMessage>)
      modifies this`screen, this`recoveryPassphrase
      ensures View() == WorkerMessages(old(View()), messages)
    {
      var i := 0;
      while i < |messages|
        invariant 0 <= i <= |messages| && View() == WorkerMessages(old(View()), messages[..i])
      {
        assert messages[..i + 1][..i] == messages[..i];
        match messages[i] {
          case WorkerProgress =>
          case InstallDone(p) =>
            if p.Some? {
              recoveryPassphrase := p;
            }
            screen := Done;
          case InstallError(e) => screen := Error(e);
        }
        i := i + 1;
      }
      assert messages[..i] == messages;
    }

    /** The polls of one turn. */
    method Poll(input: Input)
      requires KeysOk(ssh)
      modifies this
      ensures View() == Polled(old(View()), input)
    {
      hide KeysOk, PollGithub, PollVerity, WorkerMessages;
      if input.github.Some? {
        PollGithubKeys(input.github.value);
      }
      if verityOpen {
        PollVerityCheck(input.verity);
      }
      if verityCheck.Failed? {
        screen := Error("Installation media integrity check failed: " + verityCheck.message);
      }
      ReceiveWorkerMessages(input.worker);
    }
  }

  /** The state, the workers started so far, and whether the loop has ended. */
  class Tui {
    const app: AppState
    var handed: seq<Handed>
    var stopped: bool

    function Now(): Session
      reads this, app
    {
      Session(app.View(), handed, stopped)
    }

    constructor (p: Prefill)
      ensures fresh(app) && Now() == Start(p)
    {
      app := new AppState(p);
      handed, stopped := [], false;
    }

    /** A key, and what it asks for; without a selected disk no worker starts. */
    method Act(key: Key, env: Env)
      requires KeysOk(app.ssh) && ZonesOk(app.zones) && !stopped
      modifies this, app
      ensures Now() == Keyed(old(Now()), key, env)
    {
      hide HandleKey, KeysOk, ZonesOk, SelectedDisk, ConfigFields;
      var action := app.HandleKeyEvent(key, env);
      if action == Reboot {
        stopped := true;
      } else if action == StartWrite {
        var device := SelectedDisk(app.disks);
        if device.Some? {
          handed := handed + [Handed(device.value, app.disks.encryption, app.recoveryPassphrase, ConfigFields(app.View()))];
        }
      }
    }

    /** One turn of the loop. */
    method Turn(input: Input)
      requires SessionOk(Now()) && Honest(Now(), input) && !stopped
      modifies this, app
      ensures KeysOk(old(Now()).state.ssh) && Now() == Tick(old(Now()), input)
    {
      hide SessionOk, Honest, Polled, Keyed;
      SessionForms(Now());
      PolledOk(Now(), input);
      app.Poll(input);
      SessionForms(Now());
      if input.key.Some? {
        Act(input.key.value, input.env);
      }
    }

    /** `event_loop`: one turn after another until a key stops it. */
    method EventLoop(inputs: seq<Input>)
      requires SessionOk(Now()) && KeysOk(app.ssh) && HonestRun(Now(), inputs)
      modifies this, app
      ensures KeysOk(old(Now()).state.ssh) && Now() == Run(old(Now()), inputs) && SessionOk(Now())
    {
      hide SessionOk, Honest, HonestRun, Run, Tick, KeysOk;
      ghost var x := Now();
      var i := 0;
      NothingRun(x, inputs);
      while i < |inputs| && !stopped
        invariant 0 <= i <= |inputs|
        invariant Now() == Run(x, inputs[..i]) && SessionOk(Now())
      {
        OneTurn(x, inputs, i);
        TickOk(Now(), inputs[i]);
        Turn(inputs[i]);
        i := i + 1;
      }
      StoppedRun(x, inputs, i);
    }
  }

  lemma SessionForms(x: Session)
    requires SessionOk(x)
    ensures KeysOk(x.state.ssh) && ZonesOk(x.state.zones)
  {
  }

  lemma NothingRun(x: Session, inputs: seq<Input>)
    requires KeysOk(x.state.ssh)
    ensures Run(x, inputs[..0]) == x
  {
  }

  lemma OneTurn(x: Session, inputs: seq<Input>, i: nat)
    requires KeysOk(x.state.ssh) && HonestRun(x, inputs) && i < |inputs|
    ensures Run(x, inputs[..i + 1]) == Tick(Run(x, inputs[..i]), inputs[i])
    ensures !Run(x, inputs[..i]).stopped ==> Honest(Run(x, inputs[..i]), inputs[i])
  {
    hide Honest, Tick;
    HonestPrefix(x, inputs, i + 1);
    assert inputs[..i + 1][..i] == inputs[..i];
  }

  // ---- Scripted runs ----

  /** What a script finds before a key: perhaps a fetched key list. */
  datatype Scripted = Scripted(github: Option<GithubResult>, key: Key, env: Env)

  /** `run_tui_scripted` on values: the media check is never polled, and the script
      ends where the live wizard would act. */
  function RunScript(s: State, events: seq<Scripted>): (r: State)
    requires KeysOk(s.ssh)
    ensures KeysOk(r.ssh)
    decreases |events|
  {
    if events == [] then s
    else
      var e := events[0];
      var polled := if e.github.Some? then PollGithub(s, e.github.value) else s;
      var (next, action) := HandleKey(polled, e.key, e.env);
      if action == Continue then RunScript(next, events[1..]) else next
  }

  /** A script cannot pass a media check that is still running: without a fetch it stays on the first screen. */
  lemma {:induction false} ScriptWaits(s: State, events: seq<Scripted>)
    requires KeysOk(s.ssh) && s.screen == Welcome && !VerityAllows(s.verity)
    requires forall i :: 0 <= i < |events| ==> events[i].github.None?
    ensures RunScript(s, events) == s
  {
    if events != [] {
      var (next, action) := HandleKey(s, events[0].key, events[0].env);
      assert next == s;
      ScriptWaits(s, events[1..]);
    }
  }

  /** `run_tui_scripted`. */
  method RunTuiScripted(app: AppState, events: seq<Scripted>)
    requires KeysOk(app.ssh) && ZonesOk(app.zones)
    modifies app
    ensures KeysOk(old(app.View()).ssh) && app.View() == RunScript(old(app.View()), events)
  {
    hide HandleKey, KeysOk, ZonesOk, RunScript;
    var i := 0;
    WholeScript(app.View(), events);
    while i < |events|
      invariant 0 <= i <= |events| && KeysOk(app.ssh) && ZonesOk(app.zones)
      invariant RunScript(app.View(), events[i..]) == RunScript(old(app.View()), events)
    {
      var e := events[i];
      ghost var s := app.View();
      ScriptStep(s, events[i..]);
      if e.github.Some? {
        app.PollGithubKeys(e.github.value);
      }
      KeyKeepsZones(app.View(), e.key, e.env);
      var action := app.HandleKeyEvent(e.key, e.env);
      if action != Continue {
        return;
      }
      assert events[i..][1..] == events[i + 1..];
      i := i + 1;
    }
    ScriptEnds(app.View(), events);
  }

  lemma WholeScript(s: State, events: seq<Scripted>)
    requires KeysOk(s.ssh)
    ensures RunScript(s, events[0..]) == RunScript(s, events)
  {
    assert events[0..] == events;
  }

  lemma ScriptEnds(s: State, events: seq<Scripted>)
    requires KeysOk(s.ssh)
    ensures RunScript(s, events[|events|..]) == s
  {
  }

  lemma ScriptStep(s: State, events: seq<Scripted>)
    requires KeysOk(s.ssh) && events != []
    ensures var polled := if events[0].github.Some? then PollGithub(s, events[0].github.value) else s;
      && KeysOk(polled.ssh) && polled.zones == s.zones
      && var (next, action) := HandleKey(polled, events[0].key, events[0].env);
         RunScript(s, events) == if action == Continue then RunScript(next, events[1..]) else next
  {
    hide HandleKey;
  }
}
