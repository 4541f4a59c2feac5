/** Where each way to enter the program lands (`src/tui/app.rs`). */
module AppEntry {
  import opened Prelude
  import opened Config
  import opened App
  import opened AppKeys
  import P = Persist
  import Pn = Panels
  import SR = SavedRecords
  import Ranking

  /** The bare panels on a tab: no overlay, nothing pending, nothing connected, the
      configuration as it was read. */
  predicate FreshOn(s: State, tab: Tab, w: P.World) {
    && s.tab == tab && s.world == w && s.connected == None && !s.shouldQuit
    && s.help == None && s.overlay == None && s.transfer == None
    && s.pendingDelete == None && s.pendingDeleteCred == None && s.pendingTransfer == None
    && !s.pendingAdvance && !s.pendingCancel
  }

  lemma InitIsFresh(c: Fixed, w: P.World)
    ensures FreshOn(Init(c, w), Hosts, w)
    ensures Init(c, w).creds.ranked == Pn.RankCredentials(c.m, w.config.credentials, "")
  {
    hide Pn.RankHosts, Pn.RankCredentials;
  }

  /** Without a command the hosts are shown. */
  lemma BareEntryLands(c: Fixed, w: P.World, ans: Answers)
    ensures FreshOn(Start(c, w, LauncherEntry, ans), Hosts, w)
  {
    hide Init, EnterHostEdit, EnterCredEdit, BlankHost, BlankCred;
    InitIsFresh(c, w);
  }

  /** `sftp` opens the transfer screen over the hosts, if it can. */
  lemma SftpEntryLands(c: Fixed, w: P.World, target: Host, ans: Answers)
    ensures var s := Start(c, w, TransferEntry(target), ans);
            && FreshOn(s.(transfer := None), Hosts, w)
            && s.transfer == if ans.openOk then Some(Screen(false, false)) else None
  {
    hide Init, EnterAt, FulfilOpenTransfer;
    InitIsFresh(c, w);
    SftpEnters(Init(c, w), target);
    OpeningSets(EnterAt(Init(c, w), TransferEntry(target)), ans);
  }

  lemma SftpEnters(s: State, target: Host)
    ensures EnterAt(s, TransferEntry(target)) == s.(tab := Hosts, pendingTransfer := Some(target))
  {
    hide EnterHostEdit, EnterCredEdit, BlankHost, BlankCred;
  }

  lemma OpeningSets(s: State, ans: Answers)
    ensures var t := FulfilOpenTransfer(s, ans);
            && t == s.(pendingTransfer := None, transfer := t.transfer)
            && t.transfer == if s.pendingTransfer.Some? && ans.openOk then Some(Screen(false, false)) else s.transfer
  {
  }

  /** `host add` opens an empty form on the hosts. */
  lemma AddHostEntryLands(c: Fixed, w: P.World, ans: Answers)
    ensures var s := Start(c, w, HostEntry(None), ans);
            && FreshOn(s.(overlay := None), Hosts, w)
            && s.overlay.Some? && s.overlay.value.HostWizard? && EmptyHostForm(s.overlay.value.host)
  {
    hide Init, EnterHostEdit, EnterCredEdit, BlankHost, BlankCred, EmptyHostForm, FulfilOpenTransfer;
    InitIsFresh(c, w);
    BlankIsEmpty();
    OpeningSets(EnterAt(Init(c, w), HostEntry(None)), ans);
  }

  /** `cred add` opens one on the credentials. */
  lemma AddCredEntryLands(c: Fixed, w: P.World, ans: Answers)
    ensures var s := Start(c, w, CredEntry(None), ans);
            && FreshOn(s.(overlay := None), Credentials, w)
            && s.overlay.Some? && s.overlay.value.CredWizard? && EmptyCredForm(s.overlay.value.cred)
  {
    hide Init, EnterHostEdit, EnterCredEdit, BlankHost, BlankCred, EmptyCredForm, FulfilOpenTransfer;
    InitIsFresh(c, w);
    BlankIsEmpty();
    OpeningSets(EnterAt(Init(c, w), CredEntry(None)), ans);
  }

  lemma BlankIsEmpty()
    ensures EmptyHostForm(BlankHost()) && EmptyCredForm(BlankCred())
  {
  }

  /** `host edit NAME` opens the form of a host of that name: of the first, when
      names and ids are not repeated. An unknown name opens nothing. */
  lemma HostEntryShowsNamed(c: Fixed, w: P.World, name: string, ans: Answers)
    ensures var s, hosts := Start(c, w, HostEntry(Some(name)), ans), w.config.hosts;
            && FreshOn(s.(overlay := None), Hosts, w)
            && (s.overlay.Some? <==> SR.NamedElsewhere(hosts, name))
            && (s.overlay.Some? ==> s.overlay.value.HostWizard? && ShowsHostNamed(s.overlay.value.host, w.config, name))
  {
    hide Init, EnterHostEdit, EnterCredEdit, FindHost, EditHost, ShowsHostNamed, P.FindHostByName, SR.NamedElsewhere;
    EditEntrySets(Init(c, w).(tab := Hosts), name);
    InitIsFresh(c, w);
    var hosts := w.config.hosts;
    HostNameIsFound(hosts, name);
    if P.FindHostByName(hosts, name).Some? {
      NamedHostIsShown(w.config, name);
    }
  }

  lemma EditEntrySets(s: State, name: string)
    ensures var t, cfg := EnterHostEdit(s, name), s.world.config;
            var first := P.FindHostByName(cfg.hosts, name);
            && t == s.(overlay := t.overlay, launcher := t.launcher)
            && (first.None? ==> t == s)
            && (first.Some? ==>
                  var h := FindHost(cfg.hosts, first.value.id);
                  h.Some? ==> t.overlay == Some(HostWizard(EditHost(h.value, cfg.credentials), false)))
  {
    hide FindHost, EditHost, P.FindHostByName, RowNamed;
  }

  /** The form shows a host with the id of one of the name: the very first of the
      name when names and ids are not repeated. */
  ghost predicate ShowsHostNamed(form: P.HostForm, cfg: Config, name: string) {
    exists h, first :: h in cfg.hosts && first in cfg.hosts && first.name == name && h.id == first.id
                    && SR.Shows(form, h, cfg.credentials) && (P.HostsDistinct(cfg.hosts) ==> h == first)
  }

  lemma NamedHostIsShown(cfg: Config, name: string)
    requires P.FindHostByName(cfg.hosts, name).Some?
    ensures var h := FindHost(cfg.hosts, P.FindHostByName(cfg.hosts, name).value.id);
            h.Some? && ShowsHostNamed(EditHost(h.value, cfg.credentials), cfg, name)
  {
    hide FindHost, EditHost, SR.Shows, P.HostsDistinct, P.FindHostByName;
    HostNameIsFound(cfg.hosts, name);
    var first := P.FindHostByName(cfg.hosts, name).value;
    HostIsFoundAgain(cfg.hosts, first);
    P.FindHostFinds(cfg.hosts, first.id);
    EditShowsHost(FindHost(cfg.hosts, first.id).value, cfg.credentials);
  }

  lemma {:induction false} HostNameIsFound(hosts: seq<Host>, name: string)
    ensures P.FindHostByName(hosts, name).Some? <==> SR.NamedElsewhere(hosts, name)
    ensures var r := P.FindHostByName(hosts, name); r.Some? ==> r.value in hosts && r.value.name == name
  {
    if hosts != [] {
      assert hosts == [hosts[0]] + hosts[1..];
      HostNameIsFound(hosts[1..], name);
    }
  }

  /** `cred edit NAME` opens the form of the first credential of that name and puts
      the cursor on one of the name. An unknown name opens nothing. */
  lemma CredEntryShowsNamed(c: Fixed, w: P.World, name: string, ans: Answers)
    ensures var s, creds := Start(c, w, CredEntry(Some(name)), ans), w.config.credentials;
            && FreshOn(s.(overlay := None), Credentials, w)
            && (s.overlay.Some? <==> SR.CredNamedElsewhere(creds, name))
            && (s.overlay.Some? ==>
                  && s.overlay.value.CredWizard?
                  && SR.ShowsCred(s.overlay.value.cred, P.FindCredentialByName(creds, name).value)
                  && CredUnderCursor(s).Some? && CredUnderCursor(s).value.name == name)
  {
    hide Init, EnterHostEdit, Pn.RankCredentials, EditCred, SR.ShowsCred, P.FindCredentialByName;
    hide SR.CredNamedElsewhere, CredRowNamed;
    InitIsFresh(c, w);
    var creds := w.config.credentials;
    SR.FirstOfTheName(creds, name);
    if P.FindCredentialByName(creds, name).Some? {
      EditShowsCred(P.FindCredentialByName(creds, name).value);
      var k :| 0 <= k < |creds| && creds[k].name == name;
      UnfilteredShowsCred(c.m, creds, k);
    }
  }

  lemma UnfilteredShowsCred(m: Ranking.Matcher, creds: seq<Credential>, k: nat)
    requires k < |creds|
    ensures var rows := Pn.RankCredentials(m, creds, ""); exists j :: 0 <= j < |rows| && rows[j] == k
  {
    Ranking.EmptyQueryShowsAll(m, Pn.CredRows(creds), seq(|creds|, i => 0.0));
    assert k in Pn.RankCredentials(m, creds, "");
  }
}
