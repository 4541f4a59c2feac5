/** What every run of keys, saves, deletes and store switches keeps. */
module AppSafety {
  import opened Prelude
  import opened Keys
  import opened Config
  import opened App
  import P = Persist
  import Pn = Panels
  import Ranking

  // ---- panels agree with the configuration ----

  ghost predicate Synced(c: Fixed, s: State) {
    Pn.HostsInSync(s.launcher, Source(c, s)) && Pn.CredsInSync(s.creds, Source(c, s))
  }

  lemma RecomputeGivesSync(c: Fixed, s: State)
    ensures Synced(c, RecomputePanels(c, s))
    ensures Synced(c, ShutOverlay(c, s))
    ensures Synced(c, RecomputePanels(c, s).(overlay := None))
  {
    hide Pn.HostsInSync, Pn.CredsInSync, Pn.RecomputeHosts, Pn.RecomputeCreds;
    Pn.RecomputeSyncs(s.launcher, s.creds, Source(c, s));
  }

  lemma LandOnKeepsSync(c: Fixed, s: State, id: Ulid)
    requires Synced(c, s)
    ensures Synced(c, LandOn(c, s, id))
  {
    hide Pn.HostsInSync, Pn.CredsInSync, Pn.RecomputeHosts, Pn.SelectById;
    Pn.SelectByIdLands(s.launcher, Source(c, s), id);
    var l := Pn.RecomputeHosts(s.launcher.(query := ""), Source(c, s));
    Pn.RecomputeSyncs(s.launcher.(query := ""), s.creds, Source(c, s));
    Pn.SelectByIdLands(l, Source(c, s), id);
  }

  lemma {:induction false} SameUserFound(a: seq<Credential>, b: seq<Credential>, id: Ulid)
    requires |a| == |b|
    requires forall k | 0 <= k < |a| :: a[k].id == b[k].id && a[k].body.user == b[k].body.user
    ensures FindCredential(a, id).Some? <==> FindCredential(b, id).Some?
    ensures FindCredential(a, id).Some?
            ==> FindCredential(a, id).value.body.user == FindCredential(b, id).value.body.user
  {
    if a != [] {
      SameUserFound(a[1..], b[1..], id);
    }
  }

  /** A store switch changes nothing the panels rank by. */
  lemma SwitchKeepsRows(c: Fixed, a: Config, b: Config, query: string)
    requires SameIdentities(a, b)
    ensures Pn.RankHosts(c.m, a.hosts, a.credentials, c.fr, query)
            == Pn.RankHosts(c.m, b.hosts, b.credentials, c.fr, query)
    ensures Pn.RankCredentials(c.m, a.credentials, query) == Pn.RankCredentials(c.m, b.credentials, query)
  {
    forall k | 0 <= k < |a.hosts|
      ensures Pn.HostFields(a.hosts[k], a.credentials) == Pn.HostFields(b.hosts[k], b.credentials)
    {
      if a.hosts[k].auth.Ref? {
        SameUserFound(a.credentials, b.credentials, a.hosts[k].auth.credential);
      }
    }
    assert Pn.HostRows(a.hosts, a.credentials) == Pn.HostRows(b.hosts, b.credentials);
    assert Pn.HostScores(a.hosts, c.fr) == Pn.HostScores(b.hosts, c.fr);
    assert Pn.CredRows(a.credentials) == Pn.CredRows(b.credentials);
    assert Pn.RankHosts(c.m, a.hosts, a.credentials, c.fr, query)
           == Pn.RankHosts(c.m, b.hosts, b.credentials, c.fr, query);
  }

  /** Other fields do not matter; an unchanged or merely switched configuration
      keeps the agreement. */
  lemma SyncFrame(c: Fixed, s: State, t: State)
    requires Synced(c, s)
    requires t.launcher.query == s.launcher.query && t.launcher.selected == s.launcher.selected
    requires t.launcher.ranked == s.launcher.ranked && t.creds == s.creds
    requires t.world.config == s.world.config || SameIdentities(s.world.config, t.world.config)
    ensures Synced(c, t)
  {
    hide Pn.RankHosts, Pn.RankCredentials;
    if t.world.config != s.world.config {
      SwitchKeepsRows(c, s.world.config, t.world.config, s.launcher.query);
      SwitchKeepsRows(c, s.world.config, t.world.config, s.creds.query);
    }
  }

  /** A refused save or delete leaves the configuration as it was. */
  lemma RefusalKeepsConfig(env: P.Env, w: P.World, host: P.HostForm, cred: P.CredForm, freshId: Ulid, name: string)
    ensures P.PersistHostSave(env, w, host, freshId).1.Err?
            ==> P.PersistHostSave(env, w, host, freshId).0.config == w.config
    ensures P.PersistCredSave(env, w, cred, freshId).1.Err?
            ==> P.PersistCredSave(env, w, cred, freshId).0.config == w.config
    ensures P.PersistHostDelete(env, w, name).1.Err? ==> P.PersistHostDelete(env, w, name).0.config == w.config
    ensures P.PersistCredDelete(env, w, name).1.Err? ==> P.PersistCredDelete(env, w, name).0.config == w.config
  {
    hide P.HostAuth, P.SealAuth, P.HostConfig, P.CredBody, P.SealIfPlain, P.CredConfig, P.FindHostByName,
         P.FindCredentialByName, P.Forget;
  }

  lemma HostSaveKeepsSync(c: Fixed, s: State, ans: Answers)
    requires Synced(c, s)
    ensures Synced(c, FulfilSaveHost(c, s, ans))
  {
    hide Synced, RecomputePanels, ShutOverlay, LandOn, SameIdentities, P.PersistHostSave, P.PersistCredSave;
    var host := if s.overlay.Some? && s.overlay.value.HostWizard? then s.overlay.value.host else BlankHost();
    RefusalKeepsConfig(ans.env, s.world, host, BlankCred(), ans.freshId, "");
    var (w, res) := P.PersistHostSave(ans.env, s.world, host, ans.freshId);
    RecomputeGivesSync(c, s.(world := w));
    RecomputeGivesSync(c, s);
    if res.Ok? {
      LandOnKeepsSync(c, ShutOverlay(c, s.(world := w)), res.value);
    } else {
      SyncFrame(c, s, s.(world := w));
    }
  }

  lemma CredSaveKeepsSync(c: Fixed, s: State, ans: Answers)
    requires Synced(c, s)
    ensures Synced(c, FulfilSaveCred(c, s, ans))
  {
    hide Synced, RecomputePanels, ShutOverlay, SameIdentities, P.PersistCredSave, Switched, Unswitched;
    var form := if s.overlay.Some? && s.overlay.value.CredWizard? then s.overlay.value.cred else BlankCred();
    RefusalKeepsConfig(ans.env, s.world, BlankHost(), form, ans.freshId, "");
    var (w, res) := P.PersistCredSave(ans.env, s.world, form, ans.freshId);
    RecomputeGivesSync(c, s.(world := w));
    RecomputeGivesSync(c, s);
    if res.Err? {
      SyncFrame(c, s, s.(world := w));
      CredRetryKeepsSync(c, s, form, ans);
    }
  }

  /** The save tried again on the switched world, or the world a failed switch left. */
  lemma CredRetryKeepsSync(c: Fixed, s: State, form: P.CredForm, ans: Answers)
    requires Synced(c, s)
    ensures Synced(c, s.(world := Unswitched(s, None, ans)))
    ensures var switched := Switched(s, None, ans);
            switched.Some? ==>
              var (w, again) := P.PersistCredSave(ans.env, switched.value, form, ans.freshId);
              Synced(c, if again.Ok? then ShutOverlay(c, s.(world := w)) else s.(world := w))
  {
    hide Synced, RecomputePanels, ShutOverlay, SameIdentities, P.PersistCredSave;
    SyncFrame(c, s, s.(world := Unswitched(s, None, ans)));
    var switched := Switched(s, None, ans);
    if switched.Some? {
      var (w, again) := P.PersistCredSave(ans.env, switched.value, form, ans.freshId);
      RefusalKeepsConfig(ans.env, switched.value, BlankHost(), form, ans.freshId, "");
      RecomputeGivesSync(c, s.(world := w));
      if again.Err? {
        SyncFrame(c, s, s.(world := w));
      }
    }
  }

  lemma SwitchKeepsSync(c: Fixed, s: State, target: Store, ans: Answers)
    requires Synced(c, s)
    ensures Synced(c, FulfilSwitch(c, s, target, ans))
  {
    hide Synced, RecomputePanels, SameIdentities;
    var switched := Switched(s, Some(target), ans);
    SyncFrame(c, s, s.(world := Unswitched(s, Some(target), ans)));
    if switched.Some? {
      RecomputeGivesSync(c, s.(world := switched.value, storeView := None));
    }
  }

  lemma HostDeleteKeepsSync(c: Fixed, s: State, ans: Answers)
    requires Synced(c, s)
    ensures Synced(c, FulfilDeleteHost(c, s, ans))
  {
    hide Synced, RecomputePanels, SameIdentities, P.PersistHostDelete, FindHost;
    if s.pendingDelete.Some? {
      var t := s.(pendingDelete := None);
      var name := match FindHost(s.world.config.hosts, s.pendingDelete.value)
                  case Some(h) => h.name
                  case None => ans.idText;
      var (w, res) := P.PersistHostDelete(ans.env, t.world, name);
      RefusalKeepsConfig(ans.env, t.world, BlankHost(), BlankCred(), 0, name);
      RecomputeGivesSync(c, t.(world := w));
      if res.Err? { SyncFrame(c, s, t.(world := w)); }
      SyncFrame(c, s, t);
      SyncFrame(c, s, t.(overlay := None));
    }
  }

  lemma CredDeleteKeepsSync(c: Fixed, s: State, ans: Answers)
    requires Synced(c, s)
    ensures Synced(c, FulfilDeleteCred(c, s, ans))
  {
    hide Synced, RecomputePanels, SameIdentities, P.PersistCredDelete;
    if s.pendingDeleteCred.Some? {
      var t := s.(pendingDeleteCred := None);
      var (w, res) := P.PersistCredDelete(ans.env, t.world, s.pendingDeleteCred.value);
      RefusalKeepsConfig(ans.env, t.world, BlankHost(), BlankCred(), 0, s.pendingDeleteCred.value);
      RecomputeGivesSync(c, t.(world := w));
      if res.Err? { SyncFrame(c, s, t.(world := w)); }
      SyncFrame(c, s, t);
      SyncFrame(c, s, t.(overlay := None));
    }
  }

  lemma HandleKeepsSync(c: Fixed, s: State, out: Outcome, ans: Answers)
    requires Synced(c, s)
    ensures Synced(c, Handle(c, s, out, ans))
  {
    hide Synced, FulfilSaveHost, FulfilSaveCred, FulfilSwitch, FulfilDeleteHost, FulfilDeleteCred, ShutOverlay,
         SameIdentities;
    match out
    case ConnectRequested => SyncFrame(c, s, FulfilConnect(s, ans));
    case OpenTransfer => SyncFrame(c, s, FulfilOpenTransfer(s, ans));
    case CloseTransfer => SyncFrame(c, s, ShutTransfer(s));
    case Cancel => RecomputeGivesSync(c, s);
    case SaveHost => HostSaveKeepsSync(c, s, ans);
    case SaveCred => CredSaveKeepsSync(c, s, ans);
    case DeleteHost => HostDeleteKeepsSync(c, s, ans);
    case DeleteCred => CredDeleteKeepsSync(c, s, ans);
    case SwitchTo(store) => SwitchKeepsSync(c, s, store, ans);
    case _ =>
  }

  lemma OpeningKeepsPanels(s: State)
    ensures var t := OpenAdd(s).0; t.launcher == s.launcher && t.creds == s.creds && t.world == s.world
    ensures var t := OpenEdit(s).0; t.launcher == s.launcher && t.creds == s.creds && t.world == s.world
    ensures var t := BeginDelete(s).0; t.launcher == s.launcher && t.creds == s.creds && t.world == s.world
    ensures var t := OpenStorePicker(s).0; t.launcher == s.launcher && t.creds == s.creds && t.world == s.world
  {
    hide FindHost, FindCredential, P.FindCredentialByName, EditHost, EditCred, HostUnderCursor, CredUnderCursor;
  }

  lemma PrimaryKeepsSync(c: Fixed, s: State)
    requires Synced(c, s)
    ensures Synced(c, PrimaryAction(c, s).0)
  {
    hide Pn.HostsInSync, Pn.CredsInSync, Pn.LauncherKey, OpenEdit, OpenStorePicker;
    OpeningKeepsPanels(s);
    Pn.LauncherKeyKeepsSync(s.launcher, Source(c, s), BareEnter());
  }

  lemma ActiveKeyKeepsSync(c: Fixed, s: State, key: Key)
    requires Synced(c, s)
    ensures Synced(c, ActivePanelKey(c, s, key).0)
  {
    hide Pn.HostsInSync, Pn.CredsInSync, Pn.LauncherKey, Pn.CredKey;
    Pn.LauncherKeyKeepsSync(s.launcher, Source(c, s), key);
    Pn.CredKeyKeepsSync(s.creds, Source(c, s), key);
  }

  lemma ClearKeepsSync(c: Fixed, s: State)
    requires Synced(c, s)
    ensures Synced(c, ClearActiveQuery(c, s))
  {
    hide Pn.HostsInSync, Pn.CredsInSync, Pn.RecomputeHosts, Pn.RecomputeCreds;
    Pn.RecomputeSyncs(s.launcher.(query := ""), s.creds.(query := ""), Source(c, s));
  }

  /** The panel layer re-ranks after every edit of a query. */
  lemma PanelKeepsSync(c: Fixed, s: State, key: Key)
    requires Synced(c, s)
    ensures Synced(c, RoutePanel(c, s, key).0)
  {
    hide Synced, PrimaryAction, ActivePanelKey, ClearActiveQuery, OpenAdd, OpenEdit, BeginDelete, OpenStorePicker, Bare;
    hide NextTab, PrevTab, ActiveQuery, SameIdentities;
    PrimaryKeepsSync(c, s);
    ActiveKeyKeepsSync(c, s, key);
    ClearKeepsSync(c, s);
    OpeningKeepsPanels(s);
    var t := RoutePanel(c, s, key).0;
    if t.launcher == s.launcher && t.creds == s.creds && t.world == s.world {
      SyncFrame(c, s, t);
    }
  }

  lemma OnKeyKeepsSync(c: Fixed, s: State, key: Key, r: Replies)
    requires Synced(c, s)
    ensures Synced(c, OnKey(c, s, key, r).0)
  {
    hide Synced, RoutePanel, HelpKey, CurrentHelp, StoreKey, Bare, CtrlOnly, SameIdentities, HostUnderCursor;
    PanelKeepsSync(c, s, key);
    var t := OnKey(c, s, key, r).0;
    if t.launcher == s.launcher && t.creds == s.creds && t.world == s.world {
      SyncFrame(c, s, t);
    }
  }

  // ---- the layers ----

  ghost predicate Layered(c: Fixed, s: State) {
    && (s.overlay == Some(StorePicker) ==> s.storeView.Some?)
    && !(s.transfer.Some? && s.overlay.Some?)
    && (s.shouldQuit ==> s.help.None? && s.transfer.None? && s.overlay.None?)
    && (s.help.Some? ==> s.help.value.scroll <= c.helpLines(s.help.value.context))
    && (s.transfer.None? ==> !s.pendingAdvance && !s.pendingCancel)
  }

  /** Everything the layers consist of but the overlay and its store view. */
  predicate SameFrame(s: State, t: State) {
    && t.help == s.help && t.shouldQuit == s.shouldQuit && t.transfer == s.transfer
    && t.pendingAdvance == s.pendingAdvance && t.pendingCancel == s.pendingCancel
  }

  predicate OverlayShrinks(s: State, t: State) {
    (t.overlay == s.overlay && t.storeView == s.storeView) || t.overlay.None?
  }

  lemma HostSaveKeepsFrame(c: Fixed, s: State, ans: Answers)
    ensures SameFrame(s, FulfilSaveHost(c, s, ans)) && OverlayShrinks(s, FulfilSaveHost(c, s, ans))
  {
    hide Pn.RecomputeHosts, Pn.RecomputeCreds, Pn.SelectById, P.PersistHostSave;
  }

  lemma CredSaveKeepsFrame(c: Fixed, s: State, ans: Answers)
    ensures SameFrame(s, FulfilSaveCred(c, s, ans)) && OverlayShrinks(s, FulfilSaveCred(c, s, ans))
  {
    hide Pn.RecomputeHosts, Pn.RecomputeCreds, P.PersistCredSave, Switched, Unswitched;
  }

  lemma HostDeleteKeepsFrame(c: Fixed, s: State, ans: Answers)
    ensures SameFrame(s, FulfilDeleteHost(c, s, ans)) && OverlayShrinks(s, FulfilDeleteHost(c, s, ans))
  {
    hide Pn.RecomputeHosts, Pn.RecomputeCreds, P.PersistHostDelete, FindHost;
  }

  lemma CredDeleteKeepsFrame(c: Fixed, s: State, ans: Answers)
    ensures SameFrame(s, FulfilDeleteCred(c, s, ans)) && OverlayShrinks(s, FulfilDeleteCred(c, s, ans))
  {
    hide Pn.RecomputeHosts, Pn.RecomputeCreds, P.PersistCredDelete;
  }

  lemma SwitchKeepsFrame(c: Fixed, s: State, target: Store, ans: Answers)
    ensures SameFrame(s, FulfilSwitch(c, s, target, ans)) && OverlayShrinks(s, FulfilSwitch(c, s, target, ans))
    ensures SameFrame(s, ShutOverlay(c, s)) && OverlayShrinks(s, ShutOverlay(c, s))
  {
    hide Pn.RecomputeHosts, Pn.RecomputeCreds, Switched, Unswitched;
  }

  /** What fulfilling an outcome may do to the layers: close the overlay, open or
      close the transfer screen. */
  lemma HandleLayers(c: Fixed, s: State, out: Outcome, ans: Answers)
    ensures var t := Handle(c, s, out, ans);
            && OverlayShrinks(s, t)
            && (!out.OpenTransfer? && !out.CloseTransfer? ==> SameFrame(s, t))
            && (out.OpenTransfer? ==> t.overlay == s.overlay && SameFrame(s, t.(transfer := s.transfer)))
            && (out.CloseTransfer? ==> t == ShutTransfer(s))
  {
    hide FulfilSaveHost, FulfilSaveCred, FulfilSwitch, FulfilDeleteHost, FulfilDeleteCred, ShutOverlay;
    HostSaveKeepsFrame(c, s, ans);
    CredSaveKeepsFrame(c, s, ans);
    HostDeleteKeepsFrame(c, s, ans);
    CredDeleteKeepsFrame(c, s, ans);
    SwitchKeepsFrame(c, s, if out.SwitchTo? then out.store else Keyring, ans);
  }

  lemma ScrollInRange(c: Fixed, h: Help, key: Key)
    requires h.scroll <= c.helpLines(h.context)
    ensures var t := HelpKey(c, h, key);
            t.Some? ==> t.value.context == h.context && t.value.scroll <= c.helpLines(h.context)
  {
    hide Bare, CtrlOnly;
  }

  /** Opening an overlay or asking for a delete. */
  predicate Opens(s: State, t: State, out: Outcome) {
    && SameFrame(s, t) && !out.CloseTransfer? && !out.OpenTransfer?
    && (t.overlay == s.overlay || out.OpenOverlay?)
    && (t.overlay == Some(StorePicker) && s.overlay.None? ==> t.storeView.Some?)
  }

  lemma OpeningLayers(c: Fixed, s: State)
    ensures Opens(s, OpenAdd(s).0, OpenAdd(s).1) && Opens(s, OpenEdit(s).0, OpenEdit(s).1)
    ensures Opens(s, BeginDelete(s).0, BeginDelete(s).1) && Opens(s, PrimaryAction(c, s).0, PrimaryAction(c, s).1)
  {
    hide Pn.LauncherKey, FindHost, FindCredential, P.FindCredentialByName, EditHost, EditCred, HostUnderCursor,
         CredUnderCursor;
  }

  lemma ActiveKeyLayers(c: Fixed, s: State, key: Key)
    ensures var (t, out) := ActivePanelKey(c, s, key);
            && SameFrame(s, t.(shouldQuit := s.shouldQuit)) && t.overlay == s.overlay
            && !out.CloseTransfer? && !out.OpenTransfer?
    ensures SameFrame(s, ClearActiveQuery(c, s)) && ClearActiveQuery(c, s).overlay == s.overlay
  {
    hide Pn.LauncherKey, Pn.CredKey, Pn.RecomputeHosts, Pn.RecomputeCreds;
  }

  /** What the panel layer may do to the layers above it: nothing but open an
      overlay or quit. */
  predicate Bears(s: State, t: State, out: Outcome) {
    && SameFrame(s, t.(shouldQuit := s.shouldQuit))
    && (t.overlay == Some(StorePicker) ==> t.storeView.Some?)
    && (t.overlay.Some? ==> t.shouldQuit == s.shouldQuit)
    && !out.CloseTransfer? && !out.OpenTransfer?
  }

  lemma OpeningBears(c: Fixed, s: State)
    requires s.overlay.None?
    ensures Bears(s, OpenAdd(s).0, OpenAdd(s).1) && Bears(s, OpenEdit(s).0, OpenEdit(s).1)
    ensures Bears(s, BeginDelete(s).0, BeginDelete(s).1) && Bears(s, PrimaryAction(c, s).0, PrimaryAction(c, s).1)
  {
    hide OpenAdd, OpenEdit, BeginDelete, PrimaryAction;
    OpeningLayers(c, s);
  }

  lemma ActiveBears(c: Fixed, s: State, key: Key)
    requires s.overlay.None?
    ensures Bears(s, ActivePanelKey(c, s, key).0, ActivePanelKey(c, s, key).1)
    ensures Bears(s, ClearActiveQuery(c, s), Continue)
  {
    hide ActivePanelKey, ClearActiveQuery;
    ActiveKeyLayers(c, s, key);
  }

  lemma PlainBears(s: State, tab: Tab)
    requires s.overlay.None?
    ensures Bears(s, s, Continue) && Bears(s, s.(tab := tab), SwitchTab) && Bears(s, s.(shouldQuit := true), Quit)
  {
  }

  lemma PanelLayers(c: Fixed, s: State, key: Key)
    requires s.overlay.None?
    ensures Bears(s, RoutePanel(c, s, key).0, RoutePanel(c, s, key).1)
  {
    hide OpenAdd, OpenEdit, BeginDelete, PrimaryAction, ActivePanelKey, ClearActiveQuery, Bare, ActiveQuery, Bears;
    OpeningBears(c, s);
    ActiveBears(c, s, key);
    PlainBears(s, NextTab(s.tab));
    PlainBears(s, PrevTab(s.tab));
  }

  /** The help layer freezes what is underneath: while it is open a key changes
      the help alone (and restarts the search debounce of a transfer screen). */
  lemma HelpIsModal(c: Fixed, s: State, key: Key, r: Replies, ans: Answers)
    requires s.help.Some? && !Over(s)
    ensures var t := Next(c, s, Press(key, r, ans));
            && t == s.(help := t.help, stamps := t.stamps)
            && t.stamps == s.stamps + (if s.transfer.Some? && key.press then 1 else 0)
  {
    hide HelpKey;
  }

  lemma KeyKeepsLayers(c: Fixed, s: State, key: Key, r: Replies, ans: Answers)
    requires Layered(c, s) && !s.shouldQuit
    ensures var (t, out) := OnKey(c, s, key, r); Layered(c, Handle(c, t, out, ans))
  {
    hide HelpKey, RoutePanel, Handle, Bare, CtrlOnly, StoreKey, CurrentHelp, HostUnderCursor;
    var (t, out) := OnKey(c, s, key, r);
    HandleLayers(c, t, out, ans);
    if s.help.Some? {
      ScrollInRange(c, s.help.value, key);
    } else if !OpensHelp(key) && s.transfer.None? && s.overlay.None? {
      PanelLayers(c, s, key);
    }
  }

  lemma NextKeepsLayers(c: Fixed, s: State, step: Step)
    requires Layered(c, s)
    ensures Layered(c, Next(c, s, step))
  {
    hide OnKey, Handle;
    if !Over(s) && step.Press? {
      KeyKeepsLayers(c, Stamped(s, step.key), step.key, step.replies, step.answers);
    }
  }

  lemma NextKeepsSync(c: Fixed, s: State, step: Step)
    requires Synced(c, s)
    ensures Synced(c, Next(c, s, step))
  {
    hide OnKey, Handle, Synced;
    if !Over(s) {
      match step
      case Press(key, r, ans) =>
        var u := Stamped(s, key);
        SyncFrame(c, s, u);
        OnKeyKeepsSync(c, u, key, r);
        var (t, out) := OnKey(c, u, key, r);
        HandleKeepsSync(c, t, out, ans);
      case Drain(screen) => SyncFrame(c, s, Next(c, s, step));
    }
  }

  lemma InitHolds(c: Fixed, w: P.World)
    ensures Synced(c, Init(c, w)) && Layered(c, Init(c, w))
  {
    hide Pn.RankHosts, Pn.RankCredentials;
  }

  lemma HostEntryKeepsSync(c: Fixed, s: State, name: string)
    requires Synced(c, s)
    ensures Synced(c, EnterHostEdit(s, name))
  {
    hide Pn.RankHosts, Pn.RankCredentials, P.FindHostByName, FindHost, EditHost;
  }

  lemma CredEntryKeepsSync(c: Fixed, s: State, name: string)
    requires Synced(c, s)
    ensures Synced(c, EnterCredEdit(s, name))
  {
    hide Pn.RankHosts, Pn.RankCredentials, P.FindCredentialByName, EditCred;
  }

  /** Only the selections move, to rows of the lists. */
  lemma EntryKeepsSync(c: Fixed, s: State, mode: EntryMode)
    requires Synced(c, s)
    ensures Synced(c, EnterAt(s, mode))
  {
    hide Synced, EnterHostEdit, EnterCredEdit, SameIdentities;
    SyncFrame(c, s, s.(tab := Hosts));
    SyncFrame(c, s, s.(tab := Credentials));
    match mode
    case HostEntry(Some(name)) => HostEntryKeepsSync(c, s.(tab := Hosts), name);
    case CredEntry(Some(name)) => CredEntryKeepsSync(c, s.(tab := Credentials), name);
    case _ => SyncFrame(c, s, EnterAt(s, mode));
  }

  lemma EntryKeepsLayers(c: Fixed, s: State, mode: EntryMode)
    requires Layered(c, s) && s.help.None? && s.transfer.None? && !s.shouldQuit
    ensures Layered(c, EnterAt(s, mode)) && EnterAt(s, mode).transfer.None?
    ensures EnterAt(s, mode).pendingTransfer.Some? && s.pendingTransfer.None? ==> EnterAt(s, mode).overlay == s.overlay
    ensures !EnterAt(s, mode).shouldQuit
  {
    hide P.FindHostByName, P.FindCredentialByName, FindHost, EditHost, EditCred, RowNamed, CredRowNamed;
  }

  lemma StartHolds(c: Fixed, w: P.World, mode: EntryMode, ans: Answers)
    ensures Synced(c, Start(c, w, mode, ans)) && Layered(c, Start(c, w, mode, ans))
  {
    hide EnterAt, Synced, Pn.RankHosts, Pn.RecomputeCreds;
    InitHolds(c, w);
    var s := Init(c, w);
    EntryKeepsSync(c, s, mode);
    EntryKeepsLayers(c, s, mode);
    SyncFrame(c, EnterAt(s, mode), Start(c, w, mode, ans));
  }

  /** However the program is entered, over every run: the panels show the ranking
      of the current configuration with the selection in range, and the layers
      exclude each other as they should. */
  lemma {:induction false} RunKeepsInv(c: Fixed, w: P.World, mode: EntryMode, ans: Answers, steps: seq<Step>)
    ensures var s := Run(c, Start(c, w, mode, ans), steps); Synced(c, s) && Layered(c, s)
    decreases |steps|
  {
    hide Next, Synced, Layered, Start;
    if steps == [] {
      StartHolds(c, w, mode, ans);
    } else {
      var s := Run(c, Start(c, w, mode, ans), steps[..|steps| - 1]);
      RunKeepsInv(c, w, mode, ans, steps[..|steps| - 1]);
      NextKeepsSync(c, s, steps[|steps| - 1]);
      NextKeepsLayers(c, s, steps[|steps| - 1]);
    }
  }

  /** At every draw the lists are duplicate-free indices into the configuration,
      and a non-empty list has a selected row. */
  lemma IndicesAgree(c: Fixed, w: P.World, mode: EntryMode, ans: Answers, steps: seq<Step>)
    ensures var s := Run(c, Start(c, w, mode, ans), steps);
            var hosts, creds := s.world.config.hosts, s.world.config.credentials;
            && (forall k | 0 <= k < |s.launcher.ranked| :: s.launcher.ranked[k].hostIdx < |hosts|)
            && (forall j, k | 0 <= j < k < |s.launcher.ranked| ::
                  s.launcher.ranked[j].hostIdx != s.launcher.ranked[k].hostIdx)
            && (forall k | 0 <= k < |s.creds.ranked| :: s.creds.ranked[k] < |creds|)
            && (forall j, k | 0 <= j < k < |s.creds.ranked| :: s.creds.ranked[j] != s.creds.ranked[k])
            && Pn.InRange(s.launcher.selected, |s.launcher.ranked|) && Pn.InRange(s.creds.selected, |s.creds.ranked|)
  {
    hide Run, Start, Pn.RankHosts, Pn.RankCredentials;
    RunKeepsInv(c, w, mode, ans, steps);
    var s := Run(c, Start(c, w, mode, ans), steps);
    Pn.InSyncIsValid(s.launcher, s.creds, Source(c, s));
  }

  // ---- the help round trip ----

  ghost predicate AllPresses(steps: seq<Step>) {
    forall step | step in steps :: step.Press?
  }

  lemma {:induction false} HelpHolds(c: Fixed, s: State, steps: seq<Step>)
    requires s.help.Some? && !Over(s) && AllPresses(steps)
    requires forall k | 0 <= k < |steps| :: Run(c, s, steps[..k]).help.Some?
    ensures var t := Run(c, s, steps); t == s.(help := t.help, stamps := t.stamps)
    decreases |steps|
  {
    hide Next;
    if steps != [] {
      var n := |steps| - 1;
      var init := steps[..n];
      forall k | 0 <= k < |init| ensures Run(c, s, init[..k]).help.Some? {
        assert init[..k] == steps[..k];
      }
      forall step | step in init ensures step.Press? {
        assert step in steps;
      }
      HelpHolds(c, s, init);
      assert steps[n] in steps;
      HelpIsModal(c, Run(c, s, init), steps[n].key, steps[n].replies, steps[n].answers);
    }
  }

  /** F1, any keys, and the key that dismisses the help: the application is back
      in the exact state it was in, on whatever surface. */
  lemma HelpRoundTrip(c: Fixed, s: State, f1: Step, keys: seq<Step>)
    requires !Over(s) && s.help.None? && f1.Press? && OpensHelp(f1.key) && AllPresses(keys)
    requires var open := Next(c, s, f1);
             && (forall k | 0 <= k < |keys| :: Run(c, open, keys[..k]).help.Some?)
             && Run(c, open, keys).help.None?
    ensures var t := Run(c, Next(c, s, f1), keys); t == s.(stamps := t.stamps)
  {
    hide Run, RoutePanel, RouteOverlay, RouteTransfer, CurrentHelp;
    HelpHolds(c, Next(c, s, f1), keys);
  }

  // ---- quitting ----

  /** Quitting is asked for by Ctrl-C, by Esc on an empty query, and on the Hosts
      tab by Esc with any modifier; only on the bare launcher. */
  lemma QuitExactly(c: Fixed, s: State, key: Key, r: Replies)
    requires !s.shouldQuit
    ensures OnKey(c, s, key, r).0.shouldQuit <==>
              && s.help.None? && s.transfer.None? && s.overlay.None? && key.press
              && ((CtrlOnly(key) && key.code == Char('c'))
                  || (key.code.Esc? && ActiveQuery(s) == "" && (Bare(key) || s.tab.Hosts?)))
  {
    hide Pn.RecomputeHosts, Pn.RecomputeCreds, Pn.CredKey, Pn.SelectedHost, Pn.Typed, Pn.Motion, Pn.Moved;
    hide FindHost, FindCredential, P.FindCredentialByName, EditHost, EditCred, HostUnderCursor, CredUnderCursor;
    hide HelpKey, CurrentHelp, StoreKey;
  }

  // ---- saving a host ----

  /** After a save the selection is on the saved host, and the query survives
      exactly when it shows that host. */
  lemma SaveLandsOnHost(c: Fixed, s: State, ans: Answers)
    requires s.overlay.Some? && s.overlay.value.HostWizard?
    requires P.PersistHostSave(ans.env, s.world, s.overlay.value.host, ans.freshId).1.Ok?
    ensures var id := P.HostTarget(s.overlay.value.host, ans.freshId);
            var t := Handle(c, s, SaveHost, ans);
            && t.overlay.None?
            && HostUnderCursor(t).Some? && HostUnderCursor(t).value.id == id
            && (t.launcher.query == s.launcher.query || t.launcher.query == "")
            && (t.launcher.query == s.launcher.query <==>
                  s.launcher.query == "" || Listed(c, t, s.launcher.query, id))
  {
    hide P.PersistHostSave, P.HostTarget, ShutOverlay, LandOn, HostUnderCursor, Listed, Synced;
    var form := s.overlay.value.host;
    SavedHostExists(ans.env, s.world, form, ans.freshId);
    var (w, res) := P.PersistHostSave(ans.env, s.world, form, ans.freshId);
    var u := s.(world := w);
    RecomputeGivesSync(c, u);
    ShutKeeps(c, u);
    LandsOn(c, ShutOverlay(c, u), res.value);
    ListedFrame(c, ShutOverlay(c, u), LandOn(c, ShutOverlay(c, u), res.value), s.launcher.query, res.value);
  }

  lemma SavedHostExists(env: P.Env, w: P.World, form: P.HostForm, freshId: Ulid)
    requires P.PersistHostSave(env, w, form, freshId).1.Ok?
    ensures var (w', res) := P.PersistHostSave(env, w, form, freshId);
            res.value == P.HostTarget(form, freshId) && exists h :: h in w'.config.hosts && h.id == res.value
  {
    hide P.PersistHostSave, P.HostTarget;
    P.HostSaveIsLocal(env, w, form, freshId);
    var hosts, next := w.config.hosts, P.PersistHostSave(env, w, form, freshId).0.config.hosts;
    var id := P.HostTarget(form, freshId);
    if form.editing {
      var k :| 0 <= k < |next| && next[k].id == id;
      assert next[k] in next;
    } else {
      assert next[|hosts|] in next;
    }
  }

  lemma ShutKeeps(c: Fixed, s: State)
    ensures var t := ShutOverlay(c, s); t.overlay.None? && t.world == s.world && t.launcher.query == s.launcher.query
  {
    hide Pn.RankHosts, Pn.RecomputeCreds;
  }

  lemma ListedFrame(c: Fixed, s: State, t: State, query: string, id: Ulid)
    requires s.world == t.world
    ensures Listed(c, s, query, id) == Listed(c, t, query, id)
  {
    hide Pn.RankHosts;
  }

  /** The ranking under `query` shows the host. */
  ghost predicate Listed(c: Fixed, s: State, query: string, id: Ulid) {
    var hosts := s.world.config.hosts;
    var r := Pn.RankHosts(c.m, hosts, s.world.config.credentials, c.fr, query);
    exists k :: 0 <= k < |r| && r[k].hostIdx < |hosts| && hosts[r[k].hostIdx].id == id
  }

  lemma LandsOn(c: Fixed, s: State, id: Ulid)
    requires Synced(c, s) && exists h :: h in s.world.config.hosts && h.id == id
    ensures var t := LandOn(c, s, id);
            && HostUnderCursor(t).Some? && HostUnderCursor(t).value.id == id
            && t.overlay == s.overlay && t.world == s.world
            && (t.launcher.query == s.launcher.query <==> s.launcher.query == "" || Listed(c, s, s.launcher.query, id))
            && (t.launcher.query == s.launcher.query || t.launcher.query == "")
  {
    hide Pn.RankHosts, Pn.RecomputeHosts;
    var src, cleared := Source(c, s), s.launcher.(query := "");
    Pn.SelectByIdLands(s.launcher, src, id);
    Pn.RecomputeSyncs(cleared, s.creds, src);
    Pn.SelectByIdLands(Pn.RecomputeHosts(cleared, src), src, id);
    Pn.UnfilteredShowsHost(cleared, src, id);
    QueryKept(cleared, src);
    if s.launcher.query == "" {
      Pn.UnfilteredShowsHost(s.launcher, src, id);
      SameRanking(c, s);
    }
  }

  lemma QueryKept(l: Pn.Launcher, src: Pn.Source)
    ensures Pn.RecomputeHosts(l, src).query == l.query
  {
    hide Pn.RankHosts;
  }

  lemma SameRanking(c: Fixed, s: State)
    requires Synced(c, s)
    ensures Pn.RecomputeHosts(s.launcher, Source(c, s)) == s.launcher
  {
    hide Pn.RankHosts;
  }

  // ---- a failed store switch ----

  /** A switch that fails does not leave the picker open: the overlay is gone
      before the loop learns of the failure, and only the hidden view stays. The
      panels are not ranked again, and need not be. */
  lemma FailedSwitchClosesPicker(c: Fixed, s: State, key: Key, r: Replies, ans: Answers)
    requires !Over(s) && s.help.None? && s.transfer.None? && s.overlay == Some(StorePicker)
    requires s.storeView.Some? && s.storeView.value < |MODES|
    requires key.press && key.code.Enter? && !ans.switch.Done?
    ensures var t := Next(c, s, Press(key, r, ans));
            && t.overlay.None? && t.storeView == s.storeView && t.launcher == s.launcher && t.creds == s.creds
            && (t.world == s.world
                || (ans.switch.Broken? && s.world.config.store != Some(MODES[s.storeView.value])
                    && SameIdentities(s.world.config, t.world.config)))
  {
    hide Bare, CtrlOnly, RoutePanel, HelpKey, CurrentHelp, SameIdentities;
  }

  // ---- entering at a named record ----

  /** `host edit NAME` opens the wizard on a host and puts the cursor on a host of
      that name: the same one whenever names and ids are not repeated. */
  lemma HostEntryLandsOnNamed(c: Fixed, w: P.World, name: string, ans: Answers)
    requires P.HostNamed(w.config.hosts, name)
    ensures var s := Start(c, w, HostEntry(Some(name)), ans);
            && s.overlay.Some? && s.overlay.value.HostWizard? && s.overlay.value.host.editing
            && HostUnderCursor(s).Some? && HostUnderCursor(s).value.name == name
            && (P.HostsDistinct(w.config.hosts) ==> s.overlay.value.host.origId == Some(HostUnderCursor(s).value.id))
  {
    hide Pn.RankHosts, Pn.RankCredentials, EditHost;
    var s := Init(c, w);
    var hosts := w.config.hosts;
    var k := FirstNamed(hosts, name);
    P.FindHostFinds(hosts, hosts[k].id);
    UnfilteredShowsIndex(s.launcher, Source(c, s), k);
    EditKeepsIdentity(FindHost(hosts, hosts[k].id).value, w.config.credentials);
  }

  lemma EditKeepsIdentity(h: Host, creds: seq<Credential>)
    ensures EditHost(h, creds).editing && EditHost(h, creds).origId == Some(h.id)
  {
  }

  lemma {:induction false} FirstNamed(hosts: seq<Host>, name: string) returns (k: nat)
    requires P.HostNamed(hosts, name)
    ensures k < |hosts| && hosts[k].name == name && P.FindHostByName(hosts, name) == Some(hosts[k])
  {
    k := 0;
    if hosts[0].name != name {
      var i :| 0 <= i < |hosts| && hosts[i].name == name;
      assert hosts[1..][i - 1].name == name;
      var j := FirstNamed(hosts[1..], name);
      k := j + 1;
    }
  }

  lemma UnfilteredShowsIndex(l: Pn.Launcher, src: Pn.Source, i: nat)
    requires Pn.HostsInSync(l, src) && l.query == "" && i < |src.hosts|
    ensures exists k :: 0 <= k < |l.ranked| && l.ranked[k].hostIdx == i
  {
    var order := Pn.HostOrder(src.m, src.hosts, src.creds, src.fr, "");
    Ranking.EmptyQueryShowsAll(src.m, Pn.HostRows(src.hosts, src.creds), Pn.HostScores(src.hosts, src.fr));
    assert i in order;
    var k :| 0 <= k < |order| && order[k] == i;
    assert l.ranked[k].hostIdx == i;
  }
}
