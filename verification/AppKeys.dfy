/** The keys of the bare application, of its help, its store picker and its
    wizards: what each one changes, and that it changes nothing else
    (`src/tui/app.rs`, `src/tui/launcher.rs`, `src/tui/cred_panel.rs`). */
module AppKeys {
  import opened Prelude
  import opened Keys
  import opened Config
  import opened App
  import opened AppActions
  import opened RowMoves
  import P = Persist
  import Pn = Panels
  import SR = SavedRecords
  import L = Ledger

  // ---- lists: moving and filtering ----

  predicate GoesDown(key: Key) {
    key.press && ((key.code == Down && !key.ctrl) || (key.code == Char('n') && key.ctrl))
  }

  predicate GoesUp(key: Key) {
    key.press && ((key.code == Up && !key.ctrl) || (key.code == Char('p') && key.ctrl))
  }

  lemma MovedIsBeside(row: nat, n: nat)
    requires row < n || n == 0
    ensures Pn.Moved(row, 1, n) == RowBelow(row, n) && Pn.Moved(row, -1, n) == RowAbove(row, n)
  {
    if n > 0 {
      CyclicStep(row, n);
    }
  }

  /** The key goes to the list of the tab. */
  predicate ListKey(key: Key) {
    && key.press && key.code != Tab && key.code != BackTab && key.code != Esc && key.code != Enter
    && key.code != F(1)
    && !(key.ctrl && (key.code == Char('a') || key.code == Char('e') || key.code == Char('d')
                      || key.code == Char('c') || key.code == Char('t')))
  }

  lemma ListKeyReachesPanel(c: Fixed, s: State, key: Key, r: Replies, ans: Answers)
    requires AtPanels(s) && ListKey(key)
    ensures Next(c, s, Press(key, r, ans)) == ActivePanelKey(c, s, key).0
  {
    hide Pn.LauncherKey, Pn.CredKey, HelpKey, OpenAdd, OpenEdit, BeginDelete, PrimaryAction, ClearActiveQuery;
    var (t, out) := ActivePanelKey(c, s, key);
    PanelAnswers(c, s, key);
  }

  lemma PanelAnswers(c: Fixed, s: State, key: Key)
    requires ListKey(key)
    ensures ActivePanelKey(c, s, key).1 == Continue
  {
    hide Pn.RecomputeHosts, Pn.CredKey, Pn.Moved;
  }

  /** Down and up move the highlight of the list on screen by one row. */
  lemma ArrowsMoveTheCursor(c: Fixed, s: State, key: Key, r: Replies, ans: Answers)
    requires AtPanels(s) && (GoesDown(key) || GoesUp(key))
    requires Pn.InRange(s.launcher.selected, |s.launcher.ranked|) && Pn.InRange(s.creds.selected, |s.creds.ranked|)
    ensures var t := Next(c, s, Press(key, r, ans));
            var m, n := |s.launcher.ranked|, |s.creds.ranked|;
            && (s.tab == Hosts ==>
                  t == s.(launcher := s.launcher.(selected :=
                    if GoesDown(key) then RowBelow(s.launcher.selected, m) else RowAbove(s.launcher.selected, m))))
            && (s.tab == Credentials ==>
                  t == s.(creds := s.creds.(selected :=
                    if GoesDown(key) then RowBelow(s.creds.selected, n) else RowAbove(s.creds.selected, n))))
            && (s.tab == Settings ==> t == s)
  {
    hide Pn.RecomputeHosts, Pn.RecomputeCreds, Pn.Moved, Next;
    ListKeyReachesPanel(c, s, key, r, ans);
    MovedIsBeside(s.launcher.selected, |s.launcher.ranked|);
    MovedIsBeside(s.creds.selected, |s.creds.ranked|);
  }

  /** A letter lengthens the query, Backspace shortens it. */
  function Edited(query: string, code: Code): string {
    if code.Char? then query + [code.c] else if query == "" then "" else query[..|query| - 1]
  }

  /** The list of hosts under a query, the row kept. */
  function HostsFor(c: Fixed, s: State, query: string): Pn.Launcher {
    var rows := Pn.RankHosts(c.m, s.world.config.hosts, s.world.config.credentials, c.fr, query);
    Pn.Launcher(query, RowKept(s.launcher.selected, |rows|), rows, s.launcher.pendingConnect)
  }

  function CredsFor(c: Fixed, s: State, query: string): Pn.CredPanel {
    var rows := Pn.RankCredentials(c.m, s.world.config.credentials, query);
    Pn.CredPanel(query, RowKept(s.creds.selected, |rows|), rows)
  }

  predicate TypingKey(key: Key) {
    key.press && ((key.code.Char? && !key.ctrl) || key.code == Backspace)
  }

  /** Typing filters the list on screen by the new query and keeps the row. */
  lemma TypingFilters(c: Fixed, s: State, key: Key, r: Replies, ans: Answers)
    requires AtPanels(s) && TypingKey(key)
    ensures Next(c, s, Press(key, r, ans))
            == match s.tab
               case Hosts => s.(launcher := HostsFor(c, s, Edited(s.launcher.query, key.code)))
               case Credentials => s.(creds := CredsFor(c, s, Edited(s.creds.query, key.code)))
               case Settings => s
  {
    hide Next, HostsFor, CredsFor, Pn.LauncherKey, Pn.CredKey;
    ListKeyReachesPanel(c, s, key, r, ans);
    TypingRanks(c, s, key);
  }

  lemma TypingRanks(c: Fixed, s: State, key: Key)
    requires TypingKey(key)
    ensures Pn.LauncherKey(s.launcher, Source(c, s), key)
         == (HostsFor(c, s, Edited(s.launcher.query, key.code)), Pn.Stay)
    ensures Pn.CredKey(s.creds, Source(c, s), key) == CredsFor(c, s, Edited(s.creds.query, key.code))
  {
    hide Pn.RecomputeHosts, Pn.RecomputeCreds, Pn.Moved, Pn.Motion, Pn.Typed, Edited, HostsFor, CredsFor;
    hide CtrlOnly, Pn.LauncherEnter;
    TypedIsEdited(s.launcher.query, key);
    TypedIsEdited(s.creds.query, key);
    RankedAgain(c, s, Edited(s.launcher.query, key.code), Edited(s.creds.query, key.code));
    assert CtrlOnly(key) ==> key.ctrl by { CtrlIsCtrl(key); }
  }

  lemma CtrlIsCtrl(key: Key)
    ensures CtrlOnly(key) ==> key.ctrl
  {
  }

  lemma TypedIsEdited(query: string, key: Key)
    requires TypingKey(key)
    ensures Pn.Typed(query, key) == Some(Edited(query, key.code))
  {
  }

  lemma RankedAgain(c: Fixed, s: State, q: string, p: string)
    ensures Pn.RecomputeHosts(s.launcher.(query := q), Source(c, s)) == HostsFor(c, s, q)
    ensures Pn.RecomputeCreds(s.creds.(query := p), Source(c, s)) == CredsFor(c, s, p)
  {
    hide Pn.RankHosts, Pn.RankCredentials;
  }

  // ---- tabs and Esc ----

  /** Tab goes through the tabs in the order hosts, credentials, settings, BackTab
      back again, and nothing else changes. */
  lemma TabKeysCycle(c: Fixed, s: State, r: Replies, ans: Answers, forth: Key, back: Key)
    requires AtPanels(s) && forth == Key(Tab, false, false, false, true) && back.press && back.code == BackTab
    ensures var t := Next(c, s, Press(forth, r, ans));
            && t == s.(tab := if s.tab == Hosts then Credentials else if s.tab == Credentials then Settings else Hosts)
            && Next(c, t, Press(back, r, ans)) == s
  {
    hide HelpKey, PrimaryAction, ActivePanelKey, ClearActiveQuery, OpenAdd, OpenEdit, BeginDelete, HostUnderCursor;
  }

  /** Esc with a query on screen drops the query and shows the whole list. */
  lemma EscClearsTheQuery(c: Fixed, s: State, r: Replies, ans: Answers, esc: Key)
    requires AtPanels(s) && esc == Key(Esc, false, false, false, true)
    ensures s.tab == Hosts && s.launcher.query != "" ==>
              Next(c, s, Press(esc, r, ans)) == s.(launcher := HostsFor(c, s, ""))
    ensures s.tab == Credentials && s.creds.query != "" ==>
              Next(c, s, Press(esc, r, ans)) == s.(creds := CredsFor(c, s, ""))
  {
    hide Pn.RankHosts, Pn.RankCredentials, HelpKey, PrimaryAction, ActivePanelKey, OpenAdd, OpenEdit, BeginDelete;
  }

  // ---- opening forms ----

  predicate CtrlKey(key: Key, ch: char) {
    key.press && key.ctrl && key.code == Char(ch)
  }

  predicate EmptyHostForm(form: P.HostForm) {
    && !form.editing && form.origId == None && form.name == "" && form.addr == "" && form.port == 22
    && form.sshArgs == None && form.credentialName == None && form.body == Body("root", None, None, false)
  }

  predicate EmptyCredForm(form: P.CredForm) {
    !form.editing && form.origId == None && form.name == "" && form.body == Body("", None, None, false)
  }

  /** Ctrl-A opens an empty form for the kind of record on the tab. */
  lemma AddKeyOpensEmptyForm(c: Fixed, s: State, key: Key, r: Replies, ans: Answers)
    requires AtPanels(s) && CtrlKey(key, 'a')
    ensures var t := Next(c, s, Press(key, r, ans));
            && t == s.(overlay := t.overlay)
            && (s.tab == Hosts ==>
                  t.overlay.Some? && t.overlay.value.HostWizard? && EmptyHostForm(t.overlay.value.host))
            && (s.tab == Credentials ==>
                  t.overlay.Some? && t.overlay.value.CredWizard? && EmptyCredForm(t.overlay.value.cred))
            && (s.tab == Settings ==> t == s)
  {
    hide HelpKey, PrimaryAction, ActivePanelKey, ClearActiveQuery, OpenEdit, BeginDelete, HostUnderCursor;
  }

  /** Ctrl-E opens the form of the record under the cursor: for a host the first
      with its id, for a credential the first with its name. */
  lemma EditKeyOpensRecordUnderCursor(c: Fixed, s: State, key: Key, r: Replies, ans: Answers)
    requires AtPanels(s) && CtrlKey(key, 'e')
    ensures var t, cfg := Next(c, s, Press(key, r, ans)), s.world.config;
            && t == s.(overlay := t.overlay)
            && (s.tab == Hosts && HostUnderCursor(s).Some? ==>
                  && var h := FindHost(cfg.hosts, HostUnderCursor(s).value.id);
                  && h.Some? && t.overlay.Some? && t.overlay.value.HostWizard?
                  && SR.Shows(t.overlay.value.host, h.value, cfg.credentials)
                  && (P.HostsDistinct(cfg.hosts) ==> h == HostUnderCursor(s)))
            && (s.tab == Credentials && CredUnderCursor(s).Some? ==>
                  && var cr := P.FindCredentialByName(cfg.credentials, CredUnderCursor(s).value.name);
                  && cr.Some? && t.overlay.Some? && t.overlay.value.CredWizard?
                  && SR.ShowsCred(t.overlay.value.cred, cr.value)
                  && (P.CredentialsDistinct(cfg.credentials) ==> cr == CredUnderCursor(s)))
  {
    hide FindHost, P.FindCredentialByName, SR.Shows, SR.ShowsCred, P.HostsDistinct, P.CredentialsDistinct;
    EditKeyEdits(c, s, key, r, ans);
    EditOpens(s);
  }

  lemma EditKeyEdits(c: Fixed, s: State, key: Key, r: Replies, ans: Answers)
    requires AtPanels(s) && CtrlKey(key, 'e')
    ensures Next(c, s, Press(key, r, ans)) == OpenEdit(s).0
  {
    hide HelpKey, PrimaryAction, ActivePanelKey, ClearActiveQuery, OpenAdd, BeginDelete, FindHost;
    hide P.FindCredentialByName, EditHost, EditCred, HostUnderCursor, CredUnderCursor;
  }

  lemma EditOpens(s: State)
    ensures var t, cfg := OpenEdit(s).0, s.world.config;
            && t == s.(overlay := t.overlay)
            && (s.tab == Hosts && HostUnderCursor(s).Some? ==>
                  && var h := FindHost(cfg.hosts, HostUnderCursor(s).value.id);
                  && h.Some? && t.overlay.Some? && t.overlay.value.HostWizard?
                  && SR.Shows(t.overlay.value.host, h.value, cfg.credentials)
                  && (P.HostsDistinct(cfg.hosts) ==> h == HostUnderCursor(s)))
            && (s.tab == Credentials && CredUnderCursor(s).Some? ==>
                  && var cr := P.FindCredentialByName(cfg.credentials, CredUnderCursor(s).value.name);
                  && cr.Some? && t.overlay.Some? && t.overlay.value.CredWizard?
                  && SR.ShowsCred(t.overlay.value.cred, cr.value)
                  && (P.CredentialsDistinct(cfg.credentials) ==> cr == CredUnderCursor(s)))
  {
    hide FindHost, P.FindCredentialByName, EditHost, EditCred, SR.Shows, SR.ShowsCred;
    hide P.HostsDistinct, P.CredentialsDistinct;
    var cfg := s.world.config;
    if HostUnderCursor(s).Some? {
      HostIsFoundAgain(cfg.hosts, HostUnderCursor(s).value);
      EditShowsHost(FindHost(cfg.hosts, HostUnderCursor(s).value.id).value, cfg.credentials);
    }
    if CredUnderCursor(s).Some? {
      CredIsFoundAgain(cfg.credentials, CredUnderCursor(s).value);
      EditShowsCred(P.FindCredentialByName(cfg.credentials, CredUnderCursor(s).value.name).value);
    }
  }

  lemma HostIsFoundAgain(hosts: seq<Host>, h: Host)
    requires h in hosts
    ensures FindHost(hosts, h.id).Some? && (P.HostsDistinct(hosts) ==> FindHost(hosts, h.id) == Some(h))
  {
    P.FindHostFinds(hosts, h.id);
  }

  lemma CredIsFoundAgain(creds: seq<Credential>, cr: Credential)
    requires cr in creds
    ensures P.FindCredentialByName(creds, cr.name).Some?
    ensures P.CredentialsDistinct(creds) ==> P.FindCredentialByName(creds, cr.name) == Some(cr)
  {
    var k :| 0 <= k < |creds| && creds[k] == cr;
    NamedIsFound(creds, cr.name);
    NamedCredIsIn(creds, cr.name);
  }

  lemma EditShowsHost(h: Host, creds: seq<Credential>)
    ensures SR.Shows(EditHost(h, creds), h, creds)
  {
    hide FindCredential;
  }

  lemma EditShowsCred(cr: Credential)
    ensures SR.ShowsCred(EditCred(cr), cr)
  {
  }

  lemma {:induction false} NamedCredIsIn(creds: seq<Credential>, name: string)
    ensures var c := P.FindCredentialByName(creds, name);
            c.Some? ==> exists k :: 0 <= k < |creds| && creds[k] == c.value && creds[k].name == name
  {
    if creds != [] && creds[0].name != name {
      NamedCredIsIn(creds[1..], name);
      assert forall k | 0 < k < |creds| :: creds[k] == creds[1..][k - 1];
    }
  }

  // ---- the wizards ----

  predicate AtWizard(s: State) {
    !Over(s) && s.help == None && s.transfer == None && s.overlay.Some? && s.overlay.value != StorePicker
  }

  /** A key the application leaves to the wizard. */
  predicate WizardKey(key: Key) {
    !OpensHelp(key)
  }

  /** The host wizard saves the form it shows after the key, under the id it was
      opened for; a refusal keeps it open on that form. */
  lemma HostWizardSaves(c: Fixed, s: State, key: Key, r: Replies, ans: Answers)
    requires AtWizard(s) && s.overlay.value.HostWizard? && WizardKey(key)
    ensures var t, old_ := Next(c, s, Press(key, r, ans)), s.overlay.value.host;
            var form := r.host.(editing := old_.editing, origId := old_.origId);
            var (w, res) := P.PersistHostSave(ans.env, s.world, form, ans.freshId);
            && (r.wizard == Stay ==> t == s.(overlay := Some(HostWizard(form, r.picking))))
            && (r.wizard == Dismiss ==> t.world == s.world && t.overlay == None)
            && (r.wizard == Save ==>
                  t.world == w && t.overlay == if res.Ok? then None else Some(HostWizard(form, r.picking)))
  {
    hide Pn.RecomputeHosts, Pn.RecomputeCreds, P.PersistHostSave, Pn.SelectById, HelpKey, RoutePanel;
  }

  /** So does the credential wizard; an undecided store is decided first. */
  lemma CredWizardSaves(c: Fixed, s: State, key: Key, r: Replies, ans: Answers)
    requires AtWizard(s) && s.overlay.value.CredWizard? && WizardKey(key)
    ensures var t, old_ := Next(c, s, Press(key, r, ans)), s.overlay.value.cred;
            var form := r.cred.(editing := old_.editing, origId := old_.origId);
            var (w, res) := P.PersistCredSave(ans.env, s.world, form, ans.freshId);
            && (r.wizard == Stay ==> t == s.(overlay := Some(CredWizard(form, r.picking))))
            && (r.wizard == Dismiss ==> t.world == s.world && t.overlay == None)
            && (r.wizard == Save && res.Ok? ==> t.world == w && t.overlay == None)
            && (r.wizard == Save && res.Err? && res.error != P.StoreModeNotDecided ==>
                  t.world == w && t.overlay == Some(CredWizard(form, r.picking)))
            && (r.wizard == Save && res.Err? && res.error == P.StoreModeNotDecided && ans.switch == Refused ==>
                  t.world == s.world && t.overlay == Some(CredWizard(form, r.picking)))
            && (r.wizard == Save && res.Err? && res.error == P.StoreModeNotDecided && Decides(s, ans) ==>
                  var (w', again) := P.PersistCredSave(ans.env, ans.switch.world, form, ans.freshId);
                  t.world == w' && t.overlay == if again.Ok? then None else Some(CredWizard(form, r.picking)))
  {
    hide Pn.RecomputeHosts, Pn.RecomputeCreds, P.PersistCredSave, HelpKey, RoutePanel, SameIdentities;
  }

  /** The user picked a mode and the switch to it went through. */
  predicate Decides(s: State, ans: Answers) {
    && ans.switch.Done? && SameIdentities(s.world.config, ans.switch.world.config)
    && ans.switch.world.config.store.Some? && s.world.config.store != ans.switch.world.config.store
  }

  // ---- the store picker ----

  predicate AtPicker(s: State) {
    && !Over(s) && s.help == None && s.transfer == None && s.overlay == Some(StorePicker)
    && s.storeView.Some? && s.storeView.value < |MODES|
  }

  /** The modes the picker offers, top to bottom. */
  lemma PickerOffers()
    ensures MODES == [Keyring, Vault, Plaintext]
  {
  }

  /** Enter on the credentials tab edits the credential under the cursor. */
  lemma EnterEditsCredential(c: Fixed, s: State, r: Replies, ans: Answers, enter: Key)
    requires AtPanels(s) && s.tab == Credentials && enter == Key(Code.Enter, false, false, false, true)
    ensures var t, creds := Next(c, s, Press(enter, r, ans)), s.world.config.credentials;
            && t == s.(overlay := t.overlay)
            && (CredUnderCursor(s).None? ==> t == s)
            && (CredUnderCursor(s).Some? ==>
                  && var cr := P.FindCredentialByName(creds, CredUnderCursor(s).value.name);
                  && cr.Some? && t.overlay.Some? && t.overlay.value.CredWizard?
                  && SR.ShowsCred(t.overlay.value.cred, cr.value)
                  && (P.CredentialsDistinct(creds) ==> cr == CredUnderCursor(s)))
  {
    hide FindHost, P.FindCredentialByName, EditHost, EditCred, CredUnderCursor, SR.Shows, SR.ShowsCred;
    hide P.HostsDistinct, P.CredentialsDistinct;
    EnterOpensEdit(c, s, r, ans, enter);
    EditOpens(s);
  }

  lemma EnterOpensEdit(c: Fixed, s: State, r: Replies, ans: Answers, enter: Key)
    requires AtPanels(s) && s.tab == Credentials && enter == Key(Code.Enter, false, false, false, true)
    ensures Next(c, s, Press(enter, r, ans)) == OpenEdit(s).0
    ensures CredUnderCursor(s).None? ==> OpenEdit(s).0 == s
  {
    hide HelpKey, ActivePanelKey, ClearActiveQuery, OpenAdd, BeginDelete, FindHost;
    hide P.FindCredentialByName, EditHost, EditCred, HostUnderCursor, CredUnderCursor;
  }

  /** Enter on the settings tab opens the picker on its first row. */
  lemma SettingsOpenPicker(c: Fixed, s: State, r: Replies, ans: Answers, enter: Key)
    requires AtPanels(s) && s.tab == Settings && enter == Key(Code.Enter, false, false, false, true)
    ensures Next(c, s, Press(enter, r, ans)) == s.(storeView := Some(0), overlay := Some(StorePicker))
  {
    hide HelpKey, ActivePanelKey, ClearActiveQuery, OpenAdd, OpenEdit, BeginDelete, HostUnderCursor;
  }

  /** In the picker the arrows go round the modes, Esc and Ctrl-C leave, and Enter
      asks for the mode highlighted: when the switch goes through, the store is in
      that mode and the configuration is the one the switch made. */
  lemma PickerKeys(c: Fixed, s: State, key: Key, r: Replies, ans: Answers)
    requires AtPicker(s) && key.press && !CtrlOnly(key)
    ensures var t, row, n := Next(c, s, Press(key, r, ans)), s.storeView.value, |MODES|;
            && (key.code == Down ==> t == s.(storeView := Some(RowBelow(row, n))))
            && (key.code == Up ==> t == s.(storeView := Some(RowAbove(row, n))))
            && (key.code == Esc ==> t.overlay == None && t.world == s.world)
            && (key.code == Code.Enter && ans.switch == Refused ==> t.world == s.world)
            && (key.code == Code.Enter && SwitchesTo(s, MODES[row], ans) ==>
                  t.world == ans.switch.world && t.world.config.store == Some(MODES[row]) && t.storeView == None)
            && (key.code == Code.Enter && t.world != s.world && t.storeView == None ==> SwitchesTo(s, MODES[row], ans))
  {
    hide Pn.RecomputeHosts, Pn.RecomputeCreds, HelpKey, RoutePanel, SameIdentities;
  }

  /** The switch the user asked for went through. */
  predicate SwitchesTo(s: State, mode: Store, ans: Answers) {
    && ans.switch.Done? && SameIdentities(s.world.config, ans.switch.world.config)
    && ans.switch.world.config.store == Some(mode) && s.world.config.store != Some(mode)
  }

  // ---- the help ----

  /** F1 opens the help of what is on screen, at its top. */
  lemma F1OpensHelp(c: Fixed, s: State, r: Replies, ans: Answers, f1: Key)
    requires !Over(s) && s.help == None && f1 == Key(F(1), false, false, false, true)
    ensures var t := Next(c, s, Press(f1, r, ans));
            && t.help.Some? && t.help.value.scroll == 0 && t.overlay == s.overlay && t.transfer == s.transfer
            && (s.transfer == None && s.overlay == None ==> t.help.value.context == LauncherHelp(s.tab))
            && (s.transfer.Some? ==>
                  t.help.value.context == if s.transfer.value.queueOpen then QueueHelp else SftpHelp)
            && (s.transfer == None && s.overlay == Some(StorePicker) ==> t.help.value.context == StorePickerHelp)
            && (s.transfer == None && s.overlay.Some? && s.overlay.value != StorePicker ==>
                  t.help.value.context == if s.overlay.value.picking then FilePickerHelp else WizardHelp)
  {
    hide HelpKey;
  }

  /** The line at the top of the help after a scroll of `lines`. */
  function ScrolledTo(scroll: nat, lines: int, bottom: nat): nat {
    if lines < 0 then (if scroll < -lines then 0 else scroll + lines)
    else if scroll + lines > bottom then bottom else scroll + lines
  }

  /** How far a bare key scrolls the help. */
  function ScrollOf(code: Code): int {
    match code
    case Down => 1
    case Up => -1
    case PageDown => 5
    case PageUp => -5
    case Char(ch) => if ch == 'j' then 1 else if ch == 'k' then -1 else 0
    case _ => 0
  }

  predicate DismissesHelp(key: Key) {
    || (Bare(key) && (key.code == F(1) || key.code == Esc || key.code == Char('q')))
    || (CtrlOnly(key) && key.code == Char('c'))
  }

  /** In the help F1, Esc, `q` and Ctrl-C dismiss it, and the scroll keys move it
      by a line or five within the text. */
  lemma HelpKeysScroll(c: Fixed, h: Help, key: Key)
    ensures HelpKey(c, h, key).None? <==> key.press && DismissesHelp(key)
    ensures key.press && Bare(key) && !DismissesHelp(key) && ScrollOf(key.code) != 0 ==>
              HelpKey(c, h, key)
              == Some(Help(h.context, ScrolledTo(h.scroll, ScrollOf(key.code), c.helpLines(h.context))))
    ensures HelpKey(c, h, key).Some? && HelpKey(c, h, key) != Some(h) ==>
              key.press && Bare(key) && ScrollOf(key.code) != 0
  {
  }

  // ---- the transfer screen ----

  /** Ctrl-T on the Hosts tab opens the transfer screen for the host under the
      cursor, if it can be opened. */
  lemma CtrlTOpensTransfer(c: Fixed, s: State, r: Replies, ans: Answers, key: Key)
    requires AtPanels(s) && s.tab == Hosts && key == Key(Char('t'), true, false, false, true)
    ensures HostUnderCursor(s).Some? ==>
              && OnKey(c, s, key, r) == (s.(pendingTransfer := HostUnderCursor(s)), OpenTransfer)
              && var t := Next(c, s, Press(key, r, ans));
              t == s.(pendingTransfer := None, transfer := if ans.openOk then Some(Screen(false, false)) else None)
    ensures HostUnderCursor(s).None? ==> Next(c, s, Press(key, r, ans)) == s
  {
    hide HelpKey, RoutePanel, HostUnderCursor;
  }

  /** What a key on the transfer screen leaves for the loop: an enqueue asks for a
      dispatch if nothing runs, a cancel is remembered, a close drops the screen
      and both. */
  lemma TransferKeysSetFlags(c: Fixed, s: State, key: Key, r: Replies, ans: Answers)
    requires !Over(s) && s.help == None && s.transfer.Some? && !OpensHelp(key)
    ensures var t, out := Next(c, s, Press(key, r, ans)), r.screenOutcome;
            && t.world == s.world && t.overlay == s.overlay && t.help == None
            && (out == L.CloseTransfer ==> t.transfer == None && !t.pendingAdvance && !t.pendingCancel)
            && (out != L.CloseTransfer ==>
                  && t.transfer == Some(r.screen)
                  && (t.pendingAdvance <==> s.pendingAdvance || (out == L.EnqueueOutcome && !r.screen.inflight))
                  && (t.pendingCancel <==> s.pendingCancel || out == L.CancelActive))
  {
    hide HelpKey, RoutePanel, RouteOverlay, HostUnderCursor;
  }
}
