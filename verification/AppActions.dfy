/** What a key ends up doing to the application, told by what was on screen when
    it was pressed: which record is deleted, saved, edited or connected to
    (`src/tui/app.rs`, `src/tui/run_loop.rs`). */
module AppActions {
  import opened Prelude
  import opened Keys
  import opened Config
  import opened App
  import P = Persist
  import Pn = Panels
  import L = Ledger

  /** Nothing lies over the panels. */
  predicate AtPanels(s: State) {
    !Over(s) && s.help == None && s.transfer == None && s.overlay == None
  }

  predicate DiskAccepts(env: P.Env) {
    env.disk == P.NoPath || env.disk == P.Saved
  }

  // ---- deleting ----

  /** The hosts of any other name, in order. */
  function OtherHosts(hosts: seq<Host>, name: string): seq<Host> {
    if hosts == [] then []
    else
      var n := |hosts| - 1;
      OtherHosts(hosts[..n], name) + (if hosts[n].name != name then [hosts[n]] else [])
  }

  function OtherCreds(creds: seq<Credential>, name: string): seq<Credential> {
    if creds == [] then []
    else
      var n := |creds| - 1;
      OtherCreds(creds[..n], name) + (if creds[n].name != name then [creds[n]] else [])
  }

  lemma {:induction false} DropIsOtherHosts(hosts: seq<Host>, name: string)
    ensures P.DropHostsNamed(hosts, name) == OtherHosts(hosts, name)
  {
    if hosts != [] {
      hide P.DropHostsNamed;
      var n := |hosts| - 1;
      var init, last := hosts[..n], hosts[n];
      assert hosts == init + [last];
      DropIsOtherHosts(init, name);
      DropHostsAppend(init, last, name);
    }
  }

  lemma {:induction false} DropHostsAppend(hosts: seq<Host>, h: Host, name: string)
    ensures P.DropHostsNamed(hosts + [h], name)
            == P.DropHostsNamed(hosts, name) + (if h.name == name then [] else [h])
  {
    if hosts == [] {
      assert ([] + [h])[1..] == [];
    } else {
      assert (hosts + [h])[1..] == hosts[1..] + [h];
      DropHostsAppend(hosts[1..], h, name);
    }
  }

  lemma {:induction false} DropIsOtherCreds(creds: seq<Credential>, name: string)
    ensures P.DropCredentialsNamed(creds, name) == OtherCreds(creds, name)
  {
    if creds != [] {
      hide P.DropCredentialsNamed;
      var n := |creds| - 1;
      var init, last := creds[..n], creds[n];
      assert creds == init + [last];
      DropIsOtherCreds(init, name);
      DropCredsAppend(init, last, name);
    }
  }

  lemma {:induction false} DropCredsAppend(creds: seq<Credential>, c: Credential, name: string)
    ensures P.DropCredentialsNamed(creds + [c], name)
            == P.DropCredentialsNamed(creds, name) + (if c.name == name then [] else [c])
  {
    if creds == [] {
      assert ([] + [c])[1..] == [];
    } else {
      assert (creds + [c])[1..] == creds[1..] + [c];
      DropCredsAppend(creds[1..], c, name);
    }
  }

  /** A delete needs a Yes: after any other answer, or none, the whole world is as
      it was. */
  lemma DeleteNeedsYes(c: Fixed, s: State, ans: Answers)
    requires ans.confirm != ConfirmYes
    ensures Handle(c, s, DeleteHost, ans).world == s.world
    ensures Handle(c, s, DeleteCred, ans).world == s.world
  {
    hide FindHost;
  }

  /** After a Yes, with a disk that takes the file, exactly the hosts of the name
      of the host asked about are gone, and the credentials stay. */
  lemma YesDeletesHost(c: Fixed, s: State, ans: Answers)
    requires ans.confirm == ConfirmYes && DiskAccepts(ans.env)
    requires s.pendingDelete.Some? && FindHost(s.world.config.hosts, s.pendingDelete.value).Some?
    ensures var t := Handle(c, s, DeleteHost, ans);
            var cfg, name := s.world.config, FindHost(s.world.config.hosts, s.pendingDelete.value).value.name;
            && t.world.config == Config(OtherHosts(cfg.hosts, name), cfg.credentials, cfg.store)
            && t.overlay == None && t.pendingDelete == None
  {
    hide Pn.RecomputeHosts, Pn.RecomputeCreds, P.Forget, FindHost;
    var hosts := s.world.config.hosts;
    var h := FindHost(hosts, s.pendingDelete.value).value;
    DropIsOtherHosts(hosts, h.name);
    FoundIsNamed(hosts, s.pendingDelete.value);
  }

  lemma {:induction false} FoundIsNamed(hosts: seq<Host>, id: Ulid)
    ensures FindHost(hosts, id).Some? ==> P.FindHostByName(hosts, FindHost(hosts, id).value.name).Some?
    ensures FindHost(hosts, id).Some? ==> FindHost(hosts, id).value in hosts && FindHost(hosts, id).value.id == id
  {
    if hosts != [] {
      FoundIsNamed(hosts[1..], id);
    }
  }

  lemma YesDeletesCred(c: Fixed, s: State, ans: Answers)
    requires ans.confirm == ConfirmYes && DiskAccepts(ans.env)
    requires s.pendingDeleteCred.Some? && P.CredentialNamed(s.world.config.credentials, s.pendingDeleteCred.value)
    ensures var t, cfg := Handle(c, s, DeleteCred, ans), s.world.config;
            && t.world.config == Config(cfg.hosts, OtherCreds(cfg.credentials, s.pendingDeleteCred.value), cfg.store)
            && t.overlay == None && t.pendingDeleteCred == None
  {
    hide Pn.RecomputeHosts, Pn.RecomputeCreds, P.Forget;
    DropIsOtherCreds(s.world.config.credentials, s.pendingDeleteCred.value);
    NamedIsFound(s.world.config.credentials, s.pendingDeleteCred.value);
  }

  lemma {:induction false} NamedIsFound(creds: seq<Credential>, name: string)
    requires P.CredentialNamed(creds, name)
    ensures P.FindCredentialByName(creds, name).Some?
  {
    if creds[0].name != name {
      var k :| 0 <= k < |creds| && creds[k].name == name;
      assert creds[1..][k - 1].name == name;
      NamedIsFound(creds[1..], name);
    }
  }

  predicate DeleteKey(key: Key) {
    key.press && key.ctrl && key.code == Char('d')
  }

  /** Ctrl-D on a host, then Yes: the hosts of its name are gone and all others
      stay, in order. The name is that of the first host with its id, so when
      names and ids are not repeated that is the host under the cursor alone. */
  lemma CtrlDDeletesHostUnderCursor(c: Fixed, s: State, key: Key, r: Replies, ans: Answers)
    requires AtPanels(s) && s.tab == Hosts && DeleteKey(key) && HostUnderCursor(s).Some?
    ensures var t, cfg := Next(c, s, Press(key, r, ans)), s.world.config;
            var h := HostUnderCursor(s).value;
            && h in cfg.hosts && FindHost(cfg.hosts, h.id).Some?
            && (ans.confirm != ConfirmYes ==> t.world == s.world)
            && (ans.confirm == ConfirmYes && DiskAccepts(ans.env) ==>
                  && var name := FindHost(cfg.hosts, h.id).value.name;
                  && t.world.config == Config(OtherHosts(cfg.hosts, name), cfg.credentials, cfg.store)
                  && (P.HostsDistinct(cfg.hosts) ==>
                        forall x | x in cfg.hosts :: x in t.world.config.hosts <==> x != h))
  {
    hide Pn.RecomputeHosts, Pn.RecomputeCreds, P.PersistHostDelete, FindHost, HelpKey, FulfilDeleteHost;
    var u := s.(pendingDelete := Some(HostUnderCursor(s).value.id));
    var h, hosts := HostUnderCursor(s).value, s.world.config.hosts;
    CtrlDAsks(c, s, key, r);
    P.FindHostFinds(hosts, h.id);
    if ans.confirm != ConfirmYes {
      DeleteNeedsYes(c, u, ans);
    } else if DiskAccepts(ans.env) {
      YesDeletesHost(c, u, ans);
      OthersAreOthers(hosts, FindHost(hosts, h.id).value.name);
    }
  }

  lemma CtrlDAsks(c: Fixed, s: State, key: Key, r: Replies)
    requires AtPanels(s) && s.tab == Hosts && DeleteKey(key) && HostUnderCursor(s).Some?
    ensures Stamped(s, key) == s
    ensures OnKey(c, s, key, r) == (s.(pendingDelete := Some(HostUnderCursor(s).value.id)), DeleteHost)
    ensures HostUnderCursor(s).value in s.world.config.hosts
  {
    hide HelpKey, PrimaryAction, ActivePanelKey, ClearActiveQuery, OpenAdd, OpenEdit;
  }

  lemma {:induction false} OthersAreOthers(hosts: seq<Host>, name: string)
    ensures forall x :: x in OtherHosts(hosts, name) <==> x in hosts && x.name != name
  {
    if hosts != [] {
      var n := |hosts| - 1;
      OthersAreOthers(hosts[..n], name);
      assert hosts == hosts[..n] + [hosts[n]];
    }
  }

  /** The same for a credential. */
  lemma CtrlDDeletesCredUnderCursor(c: Fixed, s: State, key: Key, r: Replies, ans: Answers)
    requires AtPanels(s) && s.tab == Credentials && DeleteKey(key) && CredUnderCursor(s).Some?
    ensures var t, cfg := Next(c, s, Press(key, r, ans)), s.world.config;
            var cred := CredUnderCursor(s).value;
            && cred in cfg.credentials
            && (ans.confirm != ConfirmYes ==> t.world == s.world)
            && (ans.confirm == ConfirmYes && DiskAccepts(ans.env) ==>
                  t.world.config == Config(cfg.hosts, OtherCreds(cfg.credentials, cred.name), cfg.store))
  {
    hide Pn.RecomputeHosts, Pn.RecomputeCreds, P.PersistCredDelete, HelpKey, FulfilDeleteCred;
    hide PrimaryAction, ActivePanelKey, ClearActiveQuery, OpenAdd, OpenEdit;
    var cred, creds := CredUnderCursor(s).value, s.world.config.credentials;
    var u := s.(pendingDeleteCred := Some(cred.name));
    assert OnKey(c, s, key, r) == (u, DeleteCred);
    var k :| 0 <= k < |creds| && creds[k] == cred;
    if ans.confirm != ConfirmYes {
      DeleteNeedsYes(c, u, ans);
    } else if DiskAccepts(ans.env) {
      YesDeletesCred(c, u, ans);
    }
  }

  // ---- connecting ----

  predicate EnterKey(key: Key) {
    key.press && key.code == Enter
  }

  /** Enter on the Hosts tab connects to the host under the cursor; a connection
      that does not come about leaves nothing behind. */
  lemma EnterConnectsToHostUnderCursor(c: Fixed, s: State, key: Key, r: Replies, ans: Answers)
    requires AtPanels(s) && s.tab == Hosts && EnterKey(key) && HostUnderCursor(s).Some?
    ensures var t := Next(c, s, Press(key, r, ans));
            && t.connected == (if ans.connectOk then Some(HostUnderCursor(s).value.id) else None)
            && t.launcher == s.launcher.(pendingConnect := None)
            && t == s.(connected := t.connected, launcher := t.launcher)
  {
    hide Pn.RankHosts, HelpKey, OpenAdd, OpenEdit, BeginDelete, ClearActiveQuery;
  }

  /** Only that ever connects. */
  lemma OnlyEnterConnects(c: Fixed, s: State, step: Step)
    requires !Over(s) && Next(c, s, step).connected.Some?
    ensures step.Press? && AtPanels(s) && s.tab == Hosts && EnterKey(step.key) && step.answers.connectOk
    ensures HostUnderCursor(s).Some? && Next(c, s, step).connected == Some(HostUnderCursor(s).value.id)
  {
    hide OnKey, Handle, HostUnderCursor;
    if step.Press? {
      var u := Stamped(s, step.key);
      var (t, out) := OnKey(c, u, step.key, step.replies);
      KeyKeepsConnected(c, u, step.key, step.replies);
      HandleKeepsConnected(c, t, out, step.answers);
      OnlyEnterAsks(c, u, step.key, step.replies);
      EnterConnectsToHostUnderCursor(c, s, step.key, step.replies, step.answers);
    }
  }

  lemma KeyKeepsConnected(c: Fixed, s: State, key: Key, r: Replies)
    ensures OnKey(c, s, key, r).0.connected == s.connected
  {
    hide RoutePanel, HelpKey, StoreKey, HostUnderCursor, Bare, CtrlOnly, CurrentHelp;
    PanelKeepsConnected(c, s, key);
  }

  lemma PanelKeepsConnected(c: Fixed, s: State, key: Key)
    ensures RoutePanel(c, s, key).0.connected == s.connected
  {
    hide PrimaryAction, ActivePanelKey, ClearActiveQuery, OpenAdd, OpenEdit, BeginDelete, Bare, ActiveQuery;
    OpeningsKeepConnected(s);
    PanelKeysKeepConnected(c, s, key);
  }

  lemma OpeningsKeepConnected(s: State)
    ensures OpenAdd(s).0.connected == s.connected && OpenEdit(s).0.connected == s.connected
    ensures BeginDelete(s).0.connected == s.connected
  {
    hide FindHost, P.FindCredentialByName, EditHost, EditCred, HostUnderCursor, CredUnderCursor;
  }

  lemma PanelKeysKeepConnected(c: Fixed, s: State, key: Key)
    ensures PrimaryAction(c, s).0.connected == s.connected && ActivePanelKey(c, s, key).0.connected == s.connected
    ensures ClearActiveQuery(c, s).connected == s.connected
  {
    hide Pn.LauncherKey, Pn.CredKey, Pn.RecomputeHosts, Pn.RecomputeCreds, OpenEdit;
    OpeningsKeepConnected(s);
  }

  lemma HandleKeepsConnected(c: Fixed, s: State, out: Outcome, ans: Answers)
    ensures out != ConnectRequested ==> Handle(c, s, out, ans).connected == s.connected
    ensures out == ConnectRequested && Handle(c, s, out, ans).connected != s.connected ==> ans.connectOk
  {
    hide FulfilSaveHost, FulfilSaveCred, FulfilDeleteHost, FulfilDeleteCred, FulfilSwitch, ShutOverlay;
    SavesKeepConnected(c, s, ans);
    DeletesKeepConnected(c, s, ans);
    ShutKeepsConnected(c, s, if out.SwitchTo? then out.store else Keyring, ans);
  }

  lemma SavesKeepConnected(c: Fixed, s: State, ans: Answers)
    ensures FulfilSaveHost(c, s, ans).connected == s.connected && FulfilSaveCred(c, s, ans).connected == s.connected
  {
    hide Pn.RecomputeHosts, Pn.RecomputeCreds, Pn.SelectById, P.PersistHostSave, P.PersistCredSave;
    hide Switched, Unswitched;
  }

  lemma DeletesKeepConnected(c: Fixed, s: State, ans: Answers)
    ensures FulfilDeleteHost(c, s, ans).connected == s.connected
    ensures FulfilDeleteCred(c, s, ans).connected == s.connected
  {
    hide Pn.RecomputeHosts, Pn.RecomputeCreds, P.PersistHostDelete, P.PersistCredDelete, FindHost;
  }

  lemma ShutKeepsConnected(c: Fixed, s: State, target: Store, ans: Answers)
    ensures ShutOverlay(c, s).connected == s.connected && FulfilSwitch(c, s, target, ans).connected == s.connected
  {
    hide Pn.RecomputeHosts, Pn.RecomputeCreds, Switched, Unswitched;
  }

  lemma OnlyEnterAsks(c: Fixed, s: State, key: Key, r: Replies)
    requires OnKey(c, s, key, r).1 == ConnectRequested
    ensures s.help == None && s.transfer == None && s.overlay == None && s.tab == Hosts && EnterKey(key)
    ensures HostUnderCursor(s).Some?
  {
    hide RoutePanel, HelpKey, CurrentHelp, HostUnderCursor, Bare, CtrlOnly;
    if s.help == None && s.transfer == None && s.overlay == None {
      PanelAsksOnEnter(c, s, key);
    }
  }

  lemma PanelAsksOnEnter(c: Fixed, s: State, key: Key)
    ensures RoutePanel(c, s, key).1 == ConnectRequested ==>
              s.tab == Hosts && EnterKey(key) && HostUnderCursor(s).Some?
  {
    hide Pn.RecomputeHosts, Pn.CredKey, ClearActiveQuery, OpenAdd, OpenEdit, BeginDelete, Bare, ActiveQuery;
    OpeningsDoNotConnect(s);
  }

  lemma OpeningsDoNotConnect(s: State)
    ensures OpenAdd(s).1 != ConnectRequested && OpenEdit(s).1 != ConnectRequested
    ensures BeginDelete(s).1 != ConnectRequested
  {
    hide FindHost, P.FindCredentialByName, EditHost, EditCred, HostUnderCursor, CredUnderCursor;
  }
}
