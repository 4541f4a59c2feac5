/** The `App` object of `src/tui/app.rs`: the methods that route a key through
    the layers and update the fields in place. */
module Application {
  import opened Prelude
  import opened Keys
  import opened Config
  import opened App
  import P = Persist
  import Pn = Panels
  import L = Ledger

  class AppObject {
    const fixed: Fixed
    const launcher: Pn.HostList
    const credPanel: Pn.CredList
    var help: Option<Help>
    var transfer: Option<Screen>
    var overlay: Option<Overlay>
    var storeView: Option<nat>
    var tab: Tab
    var world: P.World
    var pendingDelete: Option<Ulid>
    var pendingDeleteCred: Option<string>
    var pendingTransfer: Option<Host>
    var pendingAdvance: bool
    var pendingCancel: bool
    var shouldQuit: bool
    var connected: Option<Ulid>
    var stamps: nat

    ghost function Value(): State
      reads this, launcher, credPanel
    {
      State(help, transfer, overlay, storeView, tab, world, launcher.Value(), credPanel.Value(), pendingDelete,
            pendingDeleteCred, pendingTransfer, pendingAdvance, pendingCancel, shouldQuit, connected, stamps)
    }

    constructor (c: Fixed, w: P.World)
      ensures fixed == c && fresh(launcher) && fresh(credPanel) && Value() == Init(c, w)
    {
      fixed := c;
      var src := Pn.Source(c.m, c.fr, w.config.hosts, w.config.credentials);
      var hosts := new Pn.HostList(src);
      var creds := new Pn.CredList();
      creds.Recompute(src);
      launcher, credPanel := hosts, creds;
      help, transfer, overlay, storeView, tab, world := None, None, None, None, Hosts, w;
      pendingDelete, pendingDeleteCred, pendingTransfer := None, None, None;
      pendingAdvance, pendingCancel, shouldQuit, connected, stamps := false, false, false, None, 0;
    }

    function Src(): Pn.Source
      reads this
    {
      Pn.Source(fixed.m, fixed.fr, world.config.hosts, world.config.credentials)
    }

    method DoRecomputePanels()
      modifies launcher, credPanel
      ensures Value() == RecomputePanels(fixed, old(Value()))
    {
      hide Pn.RecomputeHosts, Pn.RecomputeCreds;
      launcher.Recompute(Src());
      credPanel.Recompute(Src());
    }

    method DoCloseHostWizard(saved: Option<Ulid>)
      modifies this`overlay, launcher, credPanel
      ensures Value() == CloseHostWizard(fixed, old(Value()), saved)
    {
      hide RecomputePanels, Pn.RecomputeHosts, Pn.SelectById;
      overlay := None;
      DoRecomputePanels();
      if saved.Some? {
        Land(saved.value);
      }
    }

    method Land(id: Ulid)
      modifies launcher
      ensures Value() == LandOn(fixed, old(Value()), id)
    {
      hide Pn.RecomputeHosts;
      var found := launcher.DoSelectById(world.config.hosts, id);
      if !found {
        launcher.query := "";
        launcher.Recompute(Src());
        var _ := launcher.DoSelectById(world.config.hosts, id);
      }
    }

    method HelpLayer(key: Key)
      requires help.Some?
      modifies this`help
      ensures Value() == old(Value()).(help := HelpKey(fixed, old(help.value), key))
    {
      var h := help.value;
      var bottom := fixed.helpLines(h.context);
      if !key.press {
        return;
      }
      if CtrlOnly(key) && key.code == Char('c') {
        help := None;
      } else if Bare(key) {
        match key.code
        case F(n) => if n == 1 { help := None; }
        case Esc => help := None;
        case Down => help := Some(h.(scroll := Min(h.scroll + 1, bottom)));
        case Up => help := Some(h.(scroll := if h.scroll >= 1 then h.scroll - 1 else 0));
        case PageDown => help := Some(h.(scroll := Min(h.scroll + 5, bottom)));
        case PageUp => help := Some(h.(scroll := if h.scroll >= 5 then h.scroll - 5 else 0));
        case Char(ch) =>
          if ch == 'q' {
            help := None;
          } else if ch == 'j' {
            help := Some(h.(scroll := Min(h.scroll + 1, bottom)));
          } else if ch == 'k' {
            help := Some(h.(scroll := if h.scroll >= 1 then h.scroll - 1 else 0));
          }
        case _ =>
      }
    }

    method TransferLayer(screen: Screen, reply: L.ScreenOutcome) returns (out: Outcome)
      modifies this`transfer, this`pendingAdvance, this`pendingCancel
      ensures (Value(), out) == RouteTransfer(old(Value()), screen, reply)
    {
      transfer := Some(screen);
      out := Continue;
      match reply
      case EnqueueOutcome => if !screen.inflight { pendingAdvance := true; }
      case CancelActive => pendingCancel := true;
      case CloseTransfer =>
        transfer := None;
        out := Outcome.CloseTransfer;
      case _ =>
    }

    method OverlayLayer(key: Key, r: Replies) returns (out: Outcome)
      requires overlay.Some?
      modifies this`overlay, this`storeView
      ensures (Value(), out) == RouteOverlay(old(Value()), key, r)
    {
      hide StoreKey;
      var ov := overlay.value;
      overlay := None;
      match ov
      case HostWizard(form, _) =>
        if !r.wizard.Dismiss? {
          overlay := Some(HostWizard(r.host.(editing := form.editing, origId := form.origId), r.picking));
        }
        out := match r.wizard case Stay => Continue case Save => SaveHost case Dismiss => Cancel;
      case CredWizard(form, _) =>
        if !r.wizard.Dismiss? {
          overlay := Some(CredWizard(r.cred.(editing := form.editing, origId := form.origId), r.picking));
        }
        out := match r.wizard case Stay => Continue case Save => SaveCred case Dismiss => Cancel;
      case StorePicker =>
        if storeView.None? {
          return CloseOverlay;
        }
        var (view, reply) := StoreKey(storeView.value, key);
        storeView := Some(view);
        if reply.Continue? {
          overlay := Some(StorePicker);
        }
        out := reply;
    }

    method SelectedHost() returns (h: Option<Host>)
      ensures h == HostUnderCursor(Value())
    {
      if launcher.selected < |launcher.ranked| && launcher.ranked[launcher.selected].hostIdx < |world.config.hosts| {
        return Some(world.config.hosts[launcher.ranked[launcher.selected].hostIdx]);
      }
      return None;
    }

    method SelectedCredential() returns (cr: Option<Credential>)
      ensures cr == CredUnderCursor(Value())
    {
      if credPanel.selected < |credPanel.ranked| && credPanel.ranked[credPanel.selected] < |world.config.credentials| {
        return Some(world.config.credentials[credPanel.ranked[credPanel.selected]]);
      }
      return None;
    }

    method OpenAddOverlay() returns (out: Outcome)
      modifies this`overlay
      ensures (Value(), out) == OpenAdd(old(Value()))
    {
      match tab
      case Hosts =>
        overlay := Some(HostWizard(BlankHost(), false));
        out := OpenOverlay;
      case Credentials =>
        overlay := Some(CredWizard(BlankCred(), false));
        out := OpenOverlay;
      case Settings => out := Continue;
    }

    method OpenEditOverlay() returns (out: Outcome)
      modifies this`overlay
      ensures (Value(), out) == OpenEdit(old(Value()))
    {
      hide HostUnderCursor, CredUnderCursor, FindHost, P.FindCredentialByName, EditHost, EditCred;
      out := Continue;
      if tab.Hosts? {
        var h := SelectedHost();
        if h.Some? {
          var found := FindHost(world.config.hosts, h.value.id);
          if found.Some? {
            overlay := Some(HostWizard(EditHost(found.value, world.config.credentials), false));
            out := OpenOverlay;
          }
        }
      } else if tab.Credentials? {
        var cr := SelectedCredential();
        if cr.Some? {
          var found := P.FindCredentialByName(world.config.credentials, cr.value.name);
          if found.Some? {
            overlay := Some(CredWizard(EditCred(found.value), false));
            out := OpenOverlay;
          }
        }
      }
    }

    method BeginDeleteIntent() returns (out: Outcome)
      modifies this`pendingDelete, this`pendingDeleteCred
      ensures (Value(), out) == BeginDelete(old(Value()))
    {
      hide HostUnderCursor, CredUnderCursor;
      out := Continue;
      if tab.Hosts? {
        var h := SelectedHost();
        if h.Some? {
          pendingDelete := Some(h.value.id);
          out := DeleteHost;
        }
      } else if tab.Credentials? {
        var cr := SelectedCredential();
        if cr.Some? {
          pendingDeleteCred := Some(cr.value.name);
          out := DeleteCred;
        }
      }
    }

    method DoPrimaryAction() returns (out: Outcome)
      modifies this`overlay, this`storeView, launcher
      ensures (Value(), out) == PrimaryAction(fixed, old(Value()))
    {
      hide Pn.LauncherKey, OpenEdit;
      match tab
      case Hosts =>
        var reply := launcher.OnKey(Src(), BareEnter());
        out := LauncherOutcome(reply);
      case Credentials => out := OpenEditOverlay();
      case Settings =>
        storeView := Some(0);
        overlay := Some(StorePicker);
        out := OpenOverlay;
    }

    method RouteActivePanelKey(key: Key) returns (out: Outcome)
      modifies this`shouldQuit, launcher, credPanel
      ensures (Value(), out) == ActivePanelKey(fixed, old(Value()), key)
    {
      hide Pn.LauncherKey, Pn.CredKey;
      match tab
      case Hosts =>
        var reply := launcher.OnKey(Src(), key);
        if reply.Leave? {
          shouldQuit := true;
        }
        out := LauncherOutcome(reply);
      case Credentials =>
        credPanel.OnKey(Src(), key);
        out := Continue;
      case Settings => out := if key.press && key.code.Enter? then OpenOverlay else Continue;
    }

    method ClearActivePanelQuery()
      modifies launcher, credPanel
      ensures Value() == ClearActiveQuery(fixed, old(Value()))
    {
      hide Pn.RecomputeHosts, Pn.RecomputeCreds;
      match tab
      case Hosts =>
        launcher.query := "";
        launcher.Recompute(Src());
      case Credentials =>
        credPanel.query := "";
        credPanel.Recompute(Src());
      case Settings =>
    }

    method PanelLayer(key: Key) returns (out: Outcome)
      modifies this, launcher, credPanel
      ensures (Value(), out) == RoutePanel(fixed, old(Value()), key)
    {
      hide OpenAdd, OpenEdit, BeginDelete, PrimaryAction, ActivePanelKey, ClearActiveQuery, Bare;
      if !key.press {
        return Continue;
      }
      if key.code.Tab? && Bare(key) {
        tab := NextTab(tab);
        return SwitchTab;
      }
      if key.code.BackTab? {
        tab := PrevTab(tab);
        return SwitchTab;
      }
      if key.ctrl && key.code == Char('a') {
        out := OpenAddOverlay();
      } else if key.ctrl && key.code == Char('e') {
        out := OpenEditOverlay();
      } else if key.ctrl && key.code == Char('d') {
        out := BeginDeleteIntent();
      } else if key.code.Esc? && Bare(key) {
        var query := match tab case Hosts => launcher.query case Credentials => credPanel.query case Settings => "";
        if query == "" {
          shouldQuit := true;
          return Quit;
        }
        ClearActivePanelQuery();
        out := Continue;
      } else if key.code.Enter? && Bare(key) {
        out := DoPrimaryAction();
      } else {
        out := RouteActivePanelKey(key);
      }
    }

    method HandleKey(key: Key, r: Replies) returns (out: Outcome)
      modifies this, launcher, credPanel
      ensures (Value(), out) == OnKey(fixed, old(Value()), key, r)
    {
      hide RoutePanel, RouteOverlay, RouteTransfer, HelpKey, HostUnderCursor, Bare, CtrlOnly;
      if help.Some? {
        HelpLayer(key);
        return Continue;
      }
      if OpensHelp(key) {
        help := Some(Help(Context(), 0));
        return Continue;
      }
      if transfer.Some? {
        out := TransferLayer(r.screen, r.screenOutcome);
        return;
      }
      if key.press && CtrlOnly(key) && key.code == Char('c') && overlay.None? {
        shouldQuit := true;
        return Quit;
      }
      if key.press && CtrlOnly(key) && key.code == Char('t') && overlay.None? && tab.Hosts? {
        var h := SelectedHost();
        if h.Some? {
          pendingTransfer := h;
          return OpenTransfer;
        }
        return Continue;
      }
      if overlay.Some? {
        out := OverlayLayer(key, r);
      } else {
        out := PanelLayer(key);
      }
    }

    /** `apply_entry_mode`, with the transfer target stashed by the caller. */
    method ApplyEntryMode(mode: EntryMode)
      modifies this, launcher, credPanel
      ensures Value() == EnterAt(old(Value()), mode)
    {
      hide P.FindHostByName, P.FindCredentialByName, FindHost, EditHost, EditCred;
      tab := if mode.CredEntry? then Credentials else Hosts;
      match mode
      case LauncherEntry =>
      case TransferEntry(target) => pendingTransfer := Some(target);
      case HostEntry(None) => overlay := Some(HostWizard(BlankHost(), false));
      case CredEntry(None) => overlay := Some(CredWizard(BlankCred(), false));
      case HostEntry(Some(name)) => EditNamedHost(name);
      case CredEntry(Some(name)) => EditNamedCred(name);
    }

    method EditNamedHost(name: string)
      modifies this`overlay, launcher
      ensures Value() == EnterHostEdit(old(Value()), name)
    {
      var hosts := world.config.hosts;
      var named := P.FindHostByName(hosts, name);
      if named.None? {
        return;
      }
      var h := FindHost(hosts, named.value.id);
      if h.None? {
        return;
      }
      overlay := Some(HostWizard(EditHost(h.value, world.config.credentials), false));
      var row := RowNamed(launcher.ranked, hosts, name);
      if row.Some? {
        launcher.selected := row.value;
      }
    }

    method EditNamedCred(name: string)
      modifies this`overlay, credPanel
      ensures Value() == EnterCredEdit(old(Value()), name)
    {
      var creds := world.config.credentials;
      var cr := P.FindCredentialByName(creds, name);
      if cr.None? {
        return;
      }
      overlay := Some(CredWizard(EditCred(cr.value), false));
      var row := CredRowNamed(credPanel.ranked, creds, name);
      if row.Some? {
        credPanel.selected := row.value;
      }
    }

    function Context(): (r: HelpContext)
      reads this, launcher, credPanel
      ensures r == CurrentHelp(Value())
    {
      if transfer.Some? then (if transfer.value.queueOpen then QueueHelp else SftpHelp)
      else match overlay
        case None => LauncherHelp(tab)
        case Some(StorePicker) => StorePickerHelp
        case Some(ov) => if ov.picking then FilePickerHelp else WizardHelp
    }
  }
}
