/** The application state, its key routing (`src/tui/app.rs`) and what the event
    loop does with each outcome (`src/tui/run_loop.rs`). The wizards and the
    transfer screen answer through `Replies`, popups and foreign calls through
    `Answers`. */
module App {
  import opened Prelude
  import opened Keys
  import opened Config
  import P = Persist
  import Pn = Panels
  import Ranking
  import L = Ledger

  datatype Tab = Hosts | Credentials | Settings

  datatype HelpContext = LauncherHelp(tab: Tab) | SftpHelp | WizardHelp | FilePickerHelp | StorePickerHelp | QueueHelp

  datatype Help = Help(context: HelpContext, scroll: nat)

  /** `picking`: the form's file picker is open. */
  datatype Overlay = HostWizard(host: P.HostForm, picking: bool)
                   | CredWizard(cred: P.CredForm, picking: bool)
                   | StorePicker

  /** Of the transfer screen the application reads only this. */
  datatype Screen = Screen(queueOpen: bool, inflight: bool)

  /** What never changes in a session: the matcher, the frecency table (written
      only by a connection, which ends the session), the help texts. */
  datatype Fixed = Fixed(m: Ranking.Matcher, fr: Pn.Frecency, helpLines: HelpContext -> nat)

  /** `stamps` counts the presses that restarted the search debounce. */
  datatype State = State(
    help: Option<Help>, transfer: Option<Screen>, overlay: Option<Overlay>, storeView: Option<nat>, tab: Tab,
    world: P.World, launcher: Pn.Launcher, creds: Pn.CredPanel,
    pendingDelete: Option<Ulid>, pendingDeleteCred: Option<string>, pendingTransfer: Option<Host>,
    pendingAdvance: bool, pendingCancel: bool, shouldQuit: bool, connected: Option<Ulid>, stamps: nat
  )

  datatype Outcome = Quit | Continue | ConnectRequested | SaveHost | SaveCred | Cancel | SwitchTo(store: Store)
                   | DeleteHost | DeleteCred | SwitchTab | OpenOverlay | CloseOverlay | OpenTransfer | CloseTransfer

  datatype WizardOutcome = Stay | Save | Dismiss

  datatype Replies = Replies(host: P.HostForm, cred: P.CredForm, picking: bool, wizard: WizardOutcome,
                             screen: Screen, screenOutcome: L.ScreenOutcome)

  // ---- panels ----

  function Source(c: Fixed, s: State): Pn.Source {
    Pn.Source(c.m, c.fr, s.world.config.hosts, s.world.config.credentials)
  }

  function RecomputePanels(c: Fixed, s: State): State {
    s.(launcher := Pn.RecomputeHosts(s.launcher, Source(c, s)), creds := Pn.RecomputeCreds(s.creds, Source(c, s)))
  }

  function ShutOverlay(c: Fixed, s: State): State {
    RecomputePanels(c, s.(overlay := None))
  }

  /** Land on the saved host, dropping the query if it hides that host. */
  function LandOn(c: Fixed, s: State, id: Ulid): State {
    var hosts := s.world.config.hosts;
    var (l, found) := Pn.SelectById(s.launcher, hosts, id);
    if found then s.(launcher := l)
    else s.(launcher := Pn.SelectById(Pn.RecomputeHosts(s.launcher.(query := ""), Source(c, s)), hosts, id).0)
  }

  function CloseHostWizard(c: Fixed, s: State, saved: Option<Ulid>): State {
    var t := ShutOverlay(c, s);
    match saved case None => t case Some(id) => LandOn(c, t, id)
  }

  // ---- the help layer ----

  function CurrentHelp(s: State): HelpContext {
    if s.transfer.Some? then (if s.transfer.value.queueOpen then QueueHelp else SftpHelp)
    else match s.overlay
      case None => LauncherHelp(s.tab)
      case Some(StorePicker) => StorePickerHelp
      case Some(ov) => if ov.picking then FilePickerHelp else WizardHelp
  }

  function Min(a: nat, b: nat): nat {
    if a < b then a else b
  }

  function ScrollBy(c: Fixed, h: Help, delta: int): Help {
    if delta > 0 then h.(scroll := Min(h.scroll + delta, c.helpLines(h.context)))
    else h.(scroll := if h.scroll >= -delta then h.scroll + delta else 0)
  }

  function HelpKey(c: Fixed, h: Help, key: Key): Option<Help> {
    if !key.press then Some(h)
    else if CtrlOnly(key) && key.code == Char('c') then None
    else if !Bare(key) then Some(h)
    else match key.code
      case F(n) => if n == 1 then None else Some(h)
      case Esc => None
      case Down => Some(ScrollBy(c, h, 1))
      case Up => Some(ScrollBy(c, h, -1))
      case PageDown => Some(ScrollBy(c, h, 5))
      case PageUp => Some(ScrollBy(c, h, -5))
      case Char(ch) =>
        if ch == 'q' then None else if ch == 'j' then Some(ScrollBy(c, h, 1))
        else if ch == 'k' then Some(ScrollBy(c, h, -1)) else Some(h)
      case _ => Some(h)
  }

  // ---- the transfer layer ----

  function RouteTransfer(s: State, screen: Screen, out: L.ScreenOutcome): (State, Outcome) {
    var t := s.(transfer := Some(screen));
    match out
    case Continue => (t, Continue)
    case EnqueueOutcome => (if screen.inflight then t else t.(pendingAdvance := true), Continue)
    case CancelActive => (t.(pendingCancel := true), Continue)
    case HostKeyConfirm(_) => (t, Continue)
    case CloseTransfer => (s.(transfer := None), CloseTransfer)
  }

  // ---- the overlay layer ----

  const MODES: seq<Store> := [Keyring, Vault, Plaintext]

  /** `StoreView::on_key` */
  function StoreKey(selected: nat, key: Key): (nat, Outcome) {
    if !key.press then (selected, Continue)
    else if CtrlOnly(key) && key.code == Char('c') then (selected, Cancel)
    else match key.code
      case Esc => (selected, Cancel)
      case Up => ((selected + |MODES| - 1) % |MODES|, Continue)
      case Down => ((selected + 1) % |MODES|, Continue)
      case Enter => (selected, if selected < |MODES| then SwitchTo(MODES[selected]) else Continue)
      case _ => (selected, Continue)
  }

  /** A wizard never changes whose record it edits. */
  function RouteOverlay(s: State, key: Key, r: Replies): (State, Outcome)
    requires s.overlay.Some?
  {
    match s.overlay.value
    case HostWizard(form, _) =>
      (s.(overlay := if r.wizard.Dismiss? then None
                     else Some(HostWizard(r.host.(editing := form.editing, origId := form.origId), r.picking))),
       match r.wizard case Stay => Continue case Save => SaveHost case Dismiss => Cancel)
    case CredWizard(form, _) =>
      (s.(overlay := if r.wizard.Dismiss? then None
                     else Some(CredWizard(r.cred.(editing := form.editing, origId := form.origId), r.picking))),
       match r.wizard case Stay => Continue case Save => SaveCred case Dismiss => Cancel)
    case StorePicker =>
      if s.storeView.None? then (s.(overlay := None), CloseOverlay)
      else
        var (view, out) := StoreKey(s.storeView.value, key);
        (s.(storeView := Some(view), overlay := if out.Continue? then Some(StorePicker) else None), out)
  }

  // ---- the panel layer ----

  function NextTab(t: Tab): Tab {
    match t case Hosts => Credentials case Credentials => Settings case Settings => Hosts
  }

  function PrevTab(t: Tab): Tab {
    match t case Hosts => Settings case Credentials => Hosts case Settings => Credentials
  }

  /** A host without a user logs in as root. */
  function UserOrRoot(user: string): string {
    if user == "" then "root" else user
  }

  function BlankHost(): P.HostForm {
    P.HostForm(false, None, "", "", 22, None, None, Body(UserOrRoot(""), None, None, false), false)
  }

  function BlankCred(): P.CredForm {
    P.CredForm(false, None, "", Body("", None, None, false), false)
  }

  /** The body an edit form builds while nothing is typed: a key is kept, a
      password is not shown. */
  function FormBody(user: string, body: Body): Body {
    Body(user, None, if KindOf(body).KeySecret? then body.key else None, false)
  }

  /** The form opens on the password row, left blank. */
  predicate OpensOnPassword(body: Body) {
    KindOf(body).PasswordSecret? || KindOf(body).KeyringSecret?
  }

  /** The credential the chooser stands on; a reference to none stands on the
      first. */
  function ChosenName(creds: seq<Credential>, id: Ulid): Option<string> {
    match FindCredential(creds, id)
    case Some(c) => Some(c.name)
    case None => if creds == [] then None else Some(creds[0].name)
  }

  function EditHost(h: Host, creds: seq<Credential>): P.HostForm {
    match h.auth
    case Ref(id) =>
      P.HostForm(true, Some(h.id), h.name, h.host, h.port, h.sshArgs, ChosenName(creds, id),
                 Body(UserOrRoot(""), None, None, false), false)
    case Inline(body) =>
      P.HostForm(true, Some(h.id), h.name, h.host, h.port, h.sshArgs, None, FormBody(UserOrRoot(body.user), body),
                 OpensOnPassword(body))
  }

  function EditCred(cred: Credential): P.CredForm {
    P.CredForm(true, Some(cred.id), cred.name, FormBody(cred.body.user, cred.body), OpensOnPassword(cred.body))
  }

  function OpenAdd(s: State): (State, Outcome) {
    match s.tab
    case Hosts => (s.(overlay := Some(HostWizard(BlankHost(), false))), OpenOverlay)
    case Credentials => (s.(overlay := Some(CredWizard(BlankCred(), false))), OpenOverlay)
    case Settings => (s, Continue)
  }

  function HostUnderCursor(s: State): Option<Host> {
    Pn.SelectedHost(s.launcher, s.world.config.hosts)
  }

  function CredUnderCursor(s: State): Option<Credential> {
    Pn.SelectedCredential(s.creds, s.world.config.credentials)
  }

  /** The record is looked up again, by id or by name. */
  function OpenEdit(s: State): (State, Outcome) {
    var cfg := s.world.config;
    match s.tab
    case Settings => (s, Continue)
    case Hosts =>
      (match HostUnderCursor(s)
       case None => (s, Continue)
       case Some(h) =>
         match FindHost(cfg.hosts, h.id)
         case None => (s, Continue)
         case Some(found) => (s.(overlay := Some(HostWizard(EditHost(found, cfg.credentials), false))), OpenOverlay))
    case Credentials =>
      match CredUnderCursor(s)
      case None => (s, Continue)
      case Some(cr) =>
        match P.FindCredentialByName(cfg.credentials, cr.name)
        case None => (s, Continue)
        case Some(found) => (s.(overlay := Some(CredWizard(EditCred(found), false))), OpenOverlay)
  }

  function BeginDelete(s: State): (State, Outcome) {
    match s.tab
    case Settings => (s, Continue)
    case Hosts =>
      (match HostUnderCursor(s)
       case None => (s, Continue)
       case Some(h) => (s.(pendingDelete := Some(h.id)), DeleteHost))
    case Credentials =>
      match CredUnderCursor(s)
      case None => (s, Continue)
      case Some(cr) => (s.(pendingDeleteCred := Some(cr.name)), DeleteCred)
  }

  function LauncherOutcome(out: Pn.PanelOutcome): Outcome {
    match out case Stay => Continue case Leave => Quit case Connect => ConnectRequested
  }

  function OpenStorePicker(s: State): (State, Outcome) {
    (s.(storeView := Some(0), overlay := Some(StorePicker)), OpenOverlay)
  }

  function BareEnter(): Key {
    Key(Enter, false, false, false, true)
  }

  function PrimaryAction(c: Fixed, s: State): (State, Outcome) {
    match s.tab
    case Hosts =>
      var (l, out) := Pn.LauncherKey(s.launcher, Source(c, s), BareEnter());
      (s.(launcher := l), LauncherOutcome(out))
    case Credentials => OpenEdit(s)
    case Settings => OpenStorePicker(s)
  }

  /** The Settings panel answers Enter with the intent to open the picker, but
      opens nothing itself. */
  function ActivePanelKey(c: Fixed, s: State, key: Key): (State, Outcome) {
    match s.tab
    case Hosts =>
      var (l, out) := Pn.LauncherKey(s.launcher, Source(c, s), key);
      (s.(launcher := l, shouldQuit := s.shouldQuit || out.Leave?), LauncherOutcome(out))
    case Credentials => (s.(creds := Pn.CredKey(s.creds, Source(c, s), key)), Continue)
    case Settings => (s, if key.press && key.code.Enter? then OpenOverlay else Continue)
  }

  function ActiveQuery(s: State): string {
    match s.tab case Hosts => s.launcher.query case Credentials => s.creds.query case Settings => ""
  }

  function ClearActiveQuery(c: Fixed, s: State): State {
    match s.tab
    case Hosts => s.(launcher := Pn.RecomputeHosts(s.launcher.(query := ""), Source(c, s)))
    case Credentials => s.(creds := Pn.RecomputeCreds(s.creds.(query := ""), Source(c, s)))
    case Settings => s
  }

  function RoutePanel(c: Fixed, s: State, key: Key): (State, Outcome) {
    if !key.press then (s, Continue)
    else if key.code.Tab? && Bare(key) then (s.(tab := NextTab(s.tab)), SwitchTab)
    else if key.code.BackTab? then (s.(tab := PrevTab(s.tab)), SwitchTab)
    else if key.ctrl && key.code == Char('a') then OpenAdd(s)
    else if key.ctrl && key.code == Char('e') then OpenEdit(s)
    else if key.ctrl && key.code == Char('d') then BeginDelete(s)
    else if key.code.Esc? && Bare(key) then
      if ActiveQuery(s) == "" then (s.(shouldQuit := true), Quit) else (ClearActiveQuery(c, s), Continue)
    else if key.code.Enter? && Bare(key) then PrimaryAction(c, s)
    else ActivePanelKey(c, s, key)
  }

  // ---- all layers ----

  predicate OpensHelp(key: Key) {
    key.press && Bare(key) && key.code == F(1)
  }

  function OpenTransferScreen(s: State): (State, Outcome) {
    match HostUnderCursor(s)
    case Some(h) => (s.(pendingTransfer := Some(h)), OpenTransfer)
    case None => (s, Continue)
  }

  function OnKey(c: Fixed, s: State, key: Key, r: Replies): (State, Outcome) {
    if s.help.Some? then (s.(help := HelpKey(c, s.help.value, key)), Continue)
    else if OpensHelp(key) then (s.(help := Some(Help(CurrentHelp(s), 0))), Continue)
    else if s.transfer.Some? then RouteTransfer(s, r.screen, r.screenOutcome)
    else if key.press && CtrlOnly(key) && key.code == Char('c') && s.overlay.None? then (s.(shouldQuit := true), Quit)
    else if key.press && CtrlOnly(key) && key.code == Char('t') && s.overlay.None? && s.tab.Hosts?
    then OpenTransferScreen(s)
    else if s.overlay.Some? then RouteOverlay(s, key, r)
    else RoutePanel(c, s, key)
  }

  // ---- what the loop does next ----

  datatype Confirm = ConfirmYes | ConfirmNo | ConfirmInterrupted | ConfirmError

  /** How an attempt to switch the store ends: refused at once, broken off with
      secrets already moved, or carried through. */
  datatype SwitchReply = Refused | Broken(world: P.World) | Done(world: P.World)

  datatype Answers = Answers(env: P.Env, freshId: Ulid, idText: string, confirm: Confirm,
                             connectOk: bool, openOk: bool, switch: SwitchReply)

  predicate SameUser(a: Auth, b: Auth) {
    match (a, b)
    case (Ref(i), Ref(j)) => i == j
    case (Inline(x), Inline(y)) => x.user == y.user
    case (_, _) => false
  }

  /** A store switch moves secrets only: the same hosts and credentials, in
      order, with their ids, names, addresses and users. */
  predicate SameIdentities(a: Config, b: Config) {
    && |a.hosts| == |b.hosts| && |a.credentials| == |b.credentials|
    && (forall k | 0 <= k < |a.hosts| ::
          a.hosts[k].id == b.hosts[k].id && a.hosts[k].name == b.hosts[k].name && a.hosts[k].host == b.hosts[k].host
          && SameUser(a.hosts[k].auth, b.hosts[k].auth))
    && (forall k | 0 <= k < |a.credentials| ::
          a.credentials[k].id == b.credentials[k].id && a.credentials[k].name == b.credentials[k].name
          && a.credentials[k].body.user == b.credentials[k].body.user)
  }

  /** A switch to the current mode is refused; `target` is the mode asked for,
      if the user has picked one already. */
  predicate MaySwitch(s: State, target: Option<Store>, w: P.World) {
    && SameIdentities(s.world.config, w.config)
    && (target.Some? ==> s.world.config.store != target)
  }

  /** The outcome of `persist_store_switch`. */
  function Switched(s: State, target: Option<Store>, ans: Answers): Option<P.World> {
    match ans.switch
    case Done(w) =>
      if MaySwitch(s, target, w) && w.config.store.Some? && s.world.config.store != w.config.store
         && (target.Some? ==> w.config.store == target) then Some(w) else None
    case _ => None
  }

  /** The program migrates the configuration it holds in place: a migration that
      stops half-way, or a file that cannot be written, leaves it changed. */
  function Unswitched(s: State, target: Option<Store>, ans: Answers): P.World {
    match ans.switch
    case Broken(w) => if MaySwitch(s, target, w) then w else s.world
    case _ => s.world
  }

  function FulfilSaveHost(c: Fixed, s: State, ans: Answers): State {
    if s.overlay.Some? && s.overlay.value.HostWizard? then
      var (w, res) := P.PersistHostSave(ans.env, s.world, s.overlay.value.host, ans.freshId);
      match res case Ok(id) => CloseHostWizard(c, s.(world := w), Some(id)) case Err(_) => s.(world := w)
    else CloseHostWizard(c, s, None)
  }

  /** An undecided store is decided in a popup, and the save tried once more. */
  function FulfilSaveCred(c: Fixed, s: State, ans: Answers): State {
    if s.overlay.Some? && s.overlay.value.CredWizard? then
      var form := s.overlay.value.cred;
      var (w, res) := P.PersistCredSave(ans.env, s.world, form, ans.freshId);
      match res
      case Ok(_) => ShutOverlay(c, s.(world := w))
      case Err(e) =>
        match (e, Switched(s, None, ans))
        case (StoreModeNotDecided, Some(decided)) =>
          var (w', again) := P.PersistCredSave(ans.env, decided, form, ans.freshId);
          if again.Ok? then ShutOverlay(c, s.(world := w')) else s.(world := w')
        case (StoreModeNotDecided, None) => s.(world := Unswitched(s, None, ans))
        case (_, _) => s.(world := w)
    else ShutOverlay(c, s)
  }

  function FulfilSwitch(c: Fixed, s: State, target: Store, ans: Answers): State {
    match Switched(s, Some(target), ans)
    case Some(w) => RecomputePanels(c, s.(world := w, storeView := None)).(overlay := None)
    case None => s.(world := Unswitched(s, Some(target), ans))
  }

  function FulfilDeleteHost(c: Fixed, s: State, ans: Answers): State {
    match s.pendingDelete
    case None => s
    case Some(id) =>
      var t := s.(pendingDelete := None);
      var name := match FindHost(s.world.config.hosts, id) case Some(h) => h.name case None => ans.idText;
      match ans.confirm
      case ConfirmYes =>
        var (w, res) := P.PersistHostDelete(ans.env, t.world, name);
        if res.Ok? then RecomputePanels(c, t.(world := w)).(overlay := None) else t.(world := w)
      case ConfirmError => t
      case _ => t.(overlay := None)
  }

  function FulfilDeleteCred(c: Fixed, s: State, ans: Answers): State {
    match s.pendingDeleteCred
    case None => s
    case Some(name) =>
      var t := s.(pendingDeleteCred := None);
      match ans.confirm
      case ConfirmYes =>
        var (w, res) := P.PersistCredDelete(ans.env, t.world, name);
        if res.Ok? then RecomputePanels(c, t.(world := w)).(overlay := None) else t.(world := w)
      case ConfirmError => t
      case _ => t.(overlay := None)
  }

  function FulfilConnect(s: State, ans: Answers): State {
    var t := s.(launcher := s.launcher.(pendingConnect := None));
    if s.launcher.pendingConnect.Some? && ans.connectOk then t.(connected := s.launcher.pendingConnect) else t
  }

  function FulfilOpenTransfer(s: State, ans: Answers): State {
    var t := s.(pendingTransfer := None);
    if s.pendingTransfer.Some? && ans.openOk then t.(transfer := Some(Screen(false, false))) else t
  }

  function ShutTransfer(s: State): State {
    s.(transfer := None, pendingCancel := false, pendingAdvance := false)
  }

  function Handle(c: Fixed, s: State, out: Outcome, ans: Answers): State {
    match out
    case ConnectRequested => FulfilConnect(s, ans)
    case SaveHost => FulfilSaveHost(c, s, ans)
    case SaveCred => FulfilSaveCred(c, s, ans)
    case Cancel => ShutOverlay(c, s)
    case SwitchTo(store) => FulfilSwitch(c, s, store, ans)
    case DeleteHost => FulfilDeleteHost(c, s, ans)
    case DeleteCred => FulfilDeleteCred(c, s, ans)
    case OpenTransfer => FulfilOpenTransfer(s, ans)
    case CloseTransfer => ShutTransfer(s)
    case _ => s
  }

  datatype Step = Press(key: Key, replies: Replies, answers: Answers) | Drain(screen: Screen)

  predicate Over(s: State) {
    s.shouldQuit || s.connected.Some?
  }

  function Stamped(s: State, key: Key): State {
    if s.transfer.Some? && key.press then s.(stamps := s.stamps + 1) else s
  }

  function Next(c: Fixed, s: State, step: Step): State {
    if Over(s) then s
    else match step
      case Press(key, r, ans) =>
        var (t, out) := OnKey(c, Stamped(s, key), key, r);
        Handle(c, t, out, ans)
      case Drain(screen) =>
        if s.transfer.Some? then s.(transfer := Some(screen), pendingAdvance := false, pendingCancel := false) else s
  }

  function Run(c: Fixed, s: State, steps: seq<Step>): State
    decreases |steps|
  {
    if steps == [] then s else Next(c, Run(c, s, steps[..|steps| - 1]), steps[|steps| - 1])
  }

  /** `App::new` */
  function Init(c: Fixed, w: P.World): State {
    var src := Pn.Source(c.m, c.fr, w.config.hosts, w.config.credentials);
    State(None, None, None, None, Hosts, w,
          Pn.Launcher("", 0, Pn.RankHosts(c.m, w.config.hosts, w.config.credentials, c.fr, ""), None),
          Pn.RecomputeCreds(Pn.CredPanel("", 0, []), src),
          None, None, None, false, false, false, None, 0)
  }

  // ---- how the program is entered ----

  /** `host add`, `host edit`, `cred add`, `cred edit`, `sftp` and no command. */
  datatype EntryMode = LauncherEntry | HostEntry(host: Option<string>) | CredEntry(cred: Option<string>)
                     | TransferEntry(target: Host)

  /** The first row whose host has the name. */
  function RowNamed(ranked: seq<Pn.RankedHost>, hosts: seq<Host>, name: string): (r: Option<nat>)
    ensures r.Some? ==> r.value < |ranked| && ranked[r.value].hostIdx < |hosts|
                        && hosts[ranked[r.value].hostIdx].name == name
    ensures r.None? ==>
              forall k | 0 <= k < |ranked| && ranked[k].hostIdx < |hosts| :: hosts[ranked[k].hostIdx].name != name
  {
    if ranked == [] then None
    else if ranked[0].hostIdx < |hosts| && hosts[ranked[0].hostIdx].name == name then Some(0)
    else match RowNamed(ranked[1..], hosts, name) case Some(k) => Some(k + 1) case None => None
  }

  function CredRowNamed(ranked: seq<nat>, creds: seq<Credential>, name: string): (r: Option<nat>)
    ensures r.Some? ==> r.value < |ranked| && ranked[r.value] < |creds| && creds[ranked[r.value]].name == name
    ensures r.None? ==> forall k | 0 <= k < |ranked| && ranked[k] < |creds| :: creds[ranked[k]].name != name
  {
    if ranked == [] then None
    else if ranked[0] < |creds| && creds[ranked[0]].name == name then Some(0)
    else match CredRowNamed(ranked[1..], creds, name) case Some(k) => Some(k + 1) case None => None
  }

  /** A name is looked up, then its id, and the panel follows the name. */
  function EnterHostEdit(s: State, name: string): State {
    var hosts := s.world.config.hosts;
    match P.FindHostByName(hosts, name)
    case None => s
    case Some(named) =>
      match FindHost(hosts, named.id)
      case None => s
      case Some(h) =>
        var t := s.(overlay := Some(HostWizard(EditHost(h, s.world.config.credentials), false)));
        match RowNamed(s.launcher.ranked, hosts, name)
        case None => t
        case Some(k) => t.(launcher := s.launcher.(selected := k))
  }

  function EnterCredEdit(s: State, name: string): State {
    var creds := s.world.config.credentials;
    match P.FindCredentialByName(creds, name)
    case None => s
    case Some(cr) =>
      var t := s.(overlay := Some(CredWizard(EditCred(cr), false)));
      match CredRowNamed(s.creds.ranked, creds, name)
      case None => t
      case Some(k) => t.(creds := s.creds.(selected := k))
  }

  /** The tab first, then the overlay. */
  function EnterAt(s: State, mode: EntryMode): State {
    match mode
    case LauncherEntry => s.(tab := Hosts)
    case TransferEntry(target) => s.(tab := Hosts, pendingTransfer := Some(target))
    case HostEntry(None) => s.(tab := Hosts, overlay := Some(HostWizard(BlankHost(), false)))
    case CredEntry(None) => s.(tab := Credentials, overlay := Some(CredWizard(BlankCred(), false)))
    case HostEntry(Some(name)) => EnterHostEdit(s.(tab := Hosts), name)
    case CredEntry(Some(name)) => EnterCredEdit(s.(tab := Credentials), name)
  }

  /** The state of the first draw: the first tick opens a transfer asked for. */
  function Start(c: Fixed, w: P.World, mode: EntryMode, ans: Answers): State {
    FulfilOpenTransfer(EnterAt(Init(c, w), mode), ans)
  }
}
