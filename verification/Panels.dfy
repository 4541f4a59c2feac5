/** The Hosts and Credentials panels (`src/tui/launcher.rs`,
    `src/tui/cred_panel.rs`): a query, a ranked list of indices into the
    configuration, and a selection. */
module Panels {
  import opened Prelude
  import opened Keys
  import opened Config
  import opened Ranking

  // ---- ranking hosts and credentials ----

  type Frecency = map<Ulid, real>

  function Score(fr: Frecency, id: Ulid): real {
    if id in fr then fr[id] else 0.0
  }

  function HostFields(h: Host, creds: seq<Credential>): seq<string> {
    [h.name, HostUser(h, creds), h.host]
  }

  function HostRows(hosts: seq<Host>, creds: seq<Credential>): (r: seq<seq<string>>)
    ensures |r| == |hosts|
  {
    seq(|hosts|, i requires 0 <= i < |hosts| => HostFields(hosts[i], creds))
  }

  function HostScores(hosts: seq<Host>, fr: Frecency): (r: seq<real>)
    ensures |r| == |hosts|
  {
    seq(|hosts|, i requires 0 <= i < |hosts| => Score(fr, hosts[i].id))
  }

  function CredRows(creds: seq<Credential>): (r: seq<seq<string>>)
    ensures |r| == |creds|
  {
    seq(|creds|, i requires 0 <= i < |creds| => [creds[i].name, creds[i].body.user])
  }

  datatype RankedHost = RankedHost(hostIdx: nat, score: nat)

  /** The score shown again after ranking; 0 stands in for "no field matches". */
  function Reattached(m: Matcher, row: seq<string>, query: string): nat {
    if query == "" then 0
    else match BestFieldScore(m, row, query) case Some(v) => v case None => 0
  }

  function RankHosts(m: Matcher, hosts: seq<Host>, creds: seq<Credential>, fr: Frecency, query: string)
    : (r: seq<RankedHost>)
    ensures |r| == |HostOrder(m, hosts, creds, fr, query)|
    ensures forall k | 0 <= k < |r| ::
              r[k].hostIdx == HostOrder(m, hosts, creds, fr, query)[k] && r[k].hostIdx < |hosts|
  {
    var rows, order := HostRows(hosts, creds), HostOrder(m, hosts, creds, fr, query);
    RankValid(m, rows, HostScores(hosts, fr), query);
    seq(|order|, k requires 0 <= k < |order| => RankedHost(order[k], Reattached(m, rows[order[k]], query)))
  }

  function HostOrder(m: Matcher, hosts: seq<Host>, creds: seq<Credential>, fr: Frecency, query: string): seq<nat> {
    Rank(m, HostRows(hosts, creds), HostScores(hosts, fr), query)
  }

  function RankCredentials(m: Matcher, creds: seq<Credential>, query: string): seq<nat> {
    Rank(m, CredRows(creds), seq(|creds|, i => 0.0), query)
  }

  /** Scores read back after the ranking are the ones it ranked by: every shown
      host really matches with that score, scores never rise down the list, and
      no matching host is missing. */
  lemma RankHostsScores(m: Matcher, hosts: seq<Host>, creds: seq<Credential>, fr: Frecency, query: string)
    requires query != ""
    ensures var r := RankHosts(m, hosts, creds, fr, query);
            && (forall k | 0 <= k < |r| ::
                  BestFieldScore(m, HostFields(hosts[r[k].hostIdx], creds), query) == Some(r[k].score))
            && (forall j, k | 0 <= j < k < |r| :: r[j].score >= r[k].score)
            && (forall i | 0 <= i < |hosts| ::
                  BestFieldScore(m, HostFields(hosts[i], creds), query).Some? ==>
                    exists k :: 0 <= k < |r| && r[k].hostIdx == i)
  {
    hide Rank, HostFields;
    var rows, scores := HostRows(hosts, creds), HostScores(hosts, fr);
    var r, order := RankHosts(m, hosts, creds, fr, query), HostOrder(m, hosts, creds, fr, query);
    RankIsTheRanking(m, rows, scores, query, order);
    forall k | 0 <= k < |r|
      ensures BestFieldScore(m, HostFields(hosts[r[k].hostIdx], creds), query) == Some(r[k].score)
    {
      assert order[k] in order;
    }
    forall j, k | 0 <= j < k < |r| ensures r[j].score >= r[k].score {
      assert Outranks(m, rows, scores, query, order[j], order[k]);
    }
    forall i | 0 <= i < |hosts| && BestFieldScore(m, HostFields(hosts[i], creds), query).Some?
      ensures exists k :: 0 <= k < |r| && r[k].hostIdx == i
    {
      assert i in order;
      var k :| 0 <= k < |order| && order[k] == i;
      assert r[k].hostIdx == i;
    }
  }

  /** Without a query every host is shown, scored 0, in order of frecency. */
  lemma RankHostsByFrecency(m: Matcher, hosts: seq<Host>, creds: seq<Credential>, fr: Frecency)
    ensures var r := RankHosts(m, hosts, creds, fr, "");
            && |r| == |hosts|
            && (forall k | 0 <= k < |r| :: r[k].score == 0)
            && (forall j, k | 0 <= j < k < |r| ::
                  Score(fr, hosts[r[j].hostIdx].id) >= Score(fr, hosts[r[k].hostIdx].id))
  {
    hide Rank, HostFields;
    var rows, scores := HostRows(hosts, creds), HostScores(hosts, fr);
    var r, order := RankHosts(m, hosts, creds, fr, ""), HostOrder(m, hosts, creds, fr, "");
    RankIsTheRanking(m, rows, scores, "", order);
    EmptyQueryShowsAll(m, rows, scores);
    forall j, k | 0 <= j < k < |r| ensures Score(fr, hosts[r[j].hostIdx].id) >= Score(fr, hosts[r[k].hostIdx].id) {
      assert Outranks(m, rows, scores, "", order[j], order[k]);
    }
  }

  // ---- panel state ----

  datatype Launcher = Launcher(query: string, selected: nat, ranked: seq<RankedHost>, pendingConnect: Option<Ulid>)

  datatype CredPanel = CredPanel(query: string, selected: nat, ranked: seq<nat>)

  /** What the panels rank: the configuration, and what the matcher and the
      frecency table say about it. */
  datatype Source = Source(m: Matcher, fr: Frecency, hosts: seq<Host>, creds: seq<Credential>)

  function RecomputeHosts(l: Launcher, src: Source): Launcher {
    var ranked := RankHosts(src.m, src.hosts, src.creds, src.fr, l.query);
    l.(ranked := ranked, selected := ClampIndex(l.selected, |ranked|))
  }

  function RecomputeCreds(p: CredPanel, src: Source): CredPanel {
    var ranked := RankCredentials(src.m, src.creds, p.query);
    p.(ranked := ranked, selected := ClampIndex(p.selected, |ranked|))
  }

  function Moved(selected: nat, delta: int, n: nat): (r: nat)
    ensures n > 0 ==> r < n
    ensures n == 0 ==> r == selected
  {
    if n == 0 then selected else (selected + delta) % n
  }

  function SelectedHost(l: Launcher, hosts: seq<Host>): Option<Host> {
    if l.selected < |l.ranked| && l.ranked[l.selected].hostIdx < |hosts|
    then Some(hosts[l.ranked[l.selected].hostIdx]) else None
  }

  function SelectedCredential(p: CredPanel, creds: seq<Credential>): Option<Credential> {
    if p.selected < |p.ranked| && p.ranked[p.selected] < |creds| then Some(creds[p.ranked[p.selected]]) else None
  }

  function RankOf(ranked: seq<RankedHost>, hosts: seq<Host>, id: Ulid): (r: Option<nat>)
    ensures r.Some? ==> r.value < |ranked| && ranked[r.value].hostIdx < |hosts|
                        && hosts[ranked[r.value].hostIdx].id == id
    ensures r.None? ==> forall k | 0 <= k < |ranked| && ranked[k].hostIdx < |hosts| :: hosts[ranked[k].hostIdx].id != id
  {
    if ranked == [] then None
    else if ranked[0].hostIdx < |hosts| && hosts[ranked[0].hostIdx].id == id then Some(0)
    else match RankOf(ranked[1..], hosts, id) case Some(k) => Some(k + 1) case None => None
  }

  function SelectById(l: Launcher, hosts: seq<Host>, id: Ulid): (Launcher, bool) {
    match RankOf(l.ranked, hosts, id)
    case Some(k) => (l.(selected := k), true)
    case None => (l, false)
  }

  // ---- panel keys ----

  datatype PanelOutcome = Stay | Leave | Connect

  /** The motion a key asks of a panel: arrows without Control, Ctrl-N and Ctrl-P. */
  function Motion(key: Key): int {
    match key.code
    case Down => if key.ctrl then 0 else 1
    case Up => if key.ctrl then 0 else -1
    case Char(c) => if key.ctrl && c == 'n' then 1 else if key.ctrl && c == 'p' then -1 else 0
    case _ => 0
  }

  /** The query after a key that edits it. */
  function Typed(query: string, key: Key): Option<string> {
    match key.code
    case Backspace => Some(Pop(query))
    case Char(c) => if key.ctrl then None else Some(query + [c])
    case _ => None
  }

  function LauncherEnter(l: Launcher, src: Source): (Launcher, PanelOutcome) {
    match SelectedHost(l, src.hosts)
    case Some(h) => (l.(pendingConnect := Some(h.id)), Connect)
    case None => (l, Stay)
  }

  function LauncherKey(l: Launcher, src: Source, key: Key): (Launcher, PanelOutcome) {
    if !key.press then (l, Stay)
    else if CtrlOnly(key) && key.code == Char('c') then (l, Leave)
    else if key.code.Esc? then
      if l.query == "" then (l, Leave) else (RecomputeHosts(l.(query := ""), src), Stay)
    else if key.code.Enter? then LauncherEnter(l, src)
    else match Typed(l.query, key)
      case Some(query) => (RecomputeHosts(l.(query := query), src), Stay)
      case None =>
        if Motion(key) != 0 then (l.(selected := Moved(l.selected, Motion(key), |l.ranked|)), Stay) else (l, Stay)
  }

  function CredKey(p: CredPanel, src: Source, key: Key): CredPanel {
    if !key.press then p
    else match Typed(p.query, key)
      case Some(query) => RecomputeCreds(p.(query := query), src)
      case None =>
        if Motion(key) != 0 then p.(selected := Moved(p.selected, Motion(key), |p.ranked|)) else p
  }

  // ---- the panels as objects ----

  class HostList {
    var query: string
    var selected: nat
    var ranked: seq<RankedHost>
    var pendingConnect: Option<Ulid>

    ghost function Value(): Launcher
      reads this
    {
      Launcher(query, selected, ranked, pendingConnect)
    }

    constructor (src: Source)
      ensures Value() == Launcher("", 0, RankHosts(src.m, src.hosts, src.creds, src.fr, ""), None)
    {
      query, selected, pendingConnect := "", 0, None;
      ranked := RankHosts(src.m, src.hosts, src.creds, src.fr, "");
    }

    method Recompute(src: Source)
      modifies this`ranked, this`selected
      ensures Value() == RecomputeHosts(old(Value()), src)
    {
      ranked := RankHosts(src.m, src.hosts, src.creds, src.fr, query);
      ClampSelection();
    }

    method ClampSelection()
      modifies this`selected
      ensures Value() == old(Value()).(selected := ClampIndex(old(selected), |ranked|))
    {
      if ranked == [] {
        selected := 0;
      } else if selected >= |ranked| {
        selected := |ranked| - 1;
      }
    }

    method MoveSelection(delta: int)
      modifies this`selected
      ensures Value() == old(Value()).(selected := Moved(old(selected), delta, |ranked|))
    {
      if ranked != [] {
        selected := (selected + delta) % |ranked|;
      }
    }

    method DoSelectById(hosts: seq<Host>, id: Ulid) returns (found: bool)
      modifies this`selected
      ensures (Value(), found) == SelectById(old(Value()), hosts, id)
    {
      var k := RankOf(ranked, hosts, id);
      found := k.Some?;
      if found {
        selected := k.value;
      }
    }

    method OnKey(src: Source, key: Key) returns (out: PanelOutcome)
      modifies this
      ensures (Value(), out) == LauncherKey(old(Value()), src, key)
    {
      hide RankHosts;
      if !key.press {
        return Stay;
      }
      if CtrlOnly(key) && key.code == Char('c') {
        return Leave;
      }
      out := Stay;
      match key.code
      case Esc =>
        if query == "" {
          return Leave;
        }
        query := "";
        Recompute(src);
      case Enter =>
        var host := if selected < |ranked| && ranked[selected].hostIdx < |src.hosts|
                    then Some(src.hosts[ranked[selected].hostIdx]) else None;
        if host.Some? {
          pendingConnect := Some(host.value.id);
          return Connect;
        }
      case Backspace =>
        query := Pop(query);
        Recompute(src);
      case Down => if !key.ctrl { MoveSelection(1); }
      case Up => if !key.ctrl { MoveSelection(-1); }
      case Char(c) =>
        if !key.ctrl {
          query := query + [c];
          Recompute(src);
        } else if c == 'n' {
          MoveSelection(1);
        } else if c == 'p' {
          MoveSelection(-1);
        }
      case _ =>
    }
  }

  class CredList {
    var query: string
    var selected: nat
    var ranked: seq<nat>

    ghost function Value(): CredPanel
      reads this
    {
      CredPanel(query, selected, ranked)
    }

    constructor ()
      ensures Value() == CredPanel("", 0, [])
    {
      query, selected, ranked := "", 0, [];
    }

    method Recompute(src: Source)
      modifies this`ranked, this`selected
      ensures Value() == RecomputeCreds(old(Value()), src)
    {
      ranked := RankCredentials(src.m, src.creds, query);
      if ranked == [] {
        selected := 0;
      } else if selected >= |ranked| {
        selected := |ranked| - 1;
      }
    }

    method MoveSelection(delta: int)
      modifies this`selected
      ensures Value() == old(Value()).(selected := Moved(old(selected), delta, |ranked|))
    {
      if ranked != [] {
        selected := (selected + delta) % |ranked|;
      }
    }

    method OnKey(src: Source, key: Key)
      modifies this
      ensures Value() == CredKey(old(Value()), src, key)
    {
      hide RankCredentials;
      if key.press {
        match key.code
        case Backspace =>
          query := Pop(query);
          Recompute(src);
        case Down => if !key.ctrl { MoveSelection(1); }
        case Up => if !key.ctrl { MoveSelection(-1); }
        case Char(c) =>
          if !key.ctrl {
            query := query + [c];
            Recompute(src);
          } else if c == 'n' {
            MoveSelection(1);
          } else if c == 'p' {
            MoveSelection(-1);
          }
        case _ =>
      }
    }
  }

  // ---- panels and the configuration agree ----

  predicate InRange(selected: nat, n: nat) {
    selected < n || (selected == 0 && n == 0)
  }

  /** The list on screen is the ranking of the configuration at hand, and the
      selection is on one of its rows, or 0 when there is none. */
  ghost predicate HostsInSync(l: Launcher, src: Source) {
    l.ranked == RankHosts(src.m, src.hosts, src.creds, src.fr, l.query) && InRange(l.selected, |l.ranked|)
  }

  ghost predicate CredsInSync(p: CredPanel, src: Source) {
    p.ranked == RankCredentials(src.m, src.creds, p.query) && InRange(p.selected, |p.ranked|)
  }

  /** So every row stands for a host or credential of its own. */
  lemma InSyncIsValid(l: Launcher, p: CredPanel, src: Source)
    requires HostsInSync(l, src) && CredsInSync(p, src)
    ensures forall k | 0 <= k < |l.ranked| :: l.ranked[k].hostIdx < |src.hosts|
    ensures forall j, k | 0 <= j < k < |l.ranked| :: l.ranked[j].hostIdx != l.ranked[k].hostIdx
    ensures forall k | 0 <= k < |p.ranked| :: p.ranked[k] < |src.creds|
    ensures forall j, k | 0 <= j < k < |p.ranked| :: p.ranked[j] != p.ranked[k]
    ensures SelectedHost(l, src.hosts).Some? <==> l.ranked != []
    ensures SelectedCredential(p, src.creds).Some? <==> p.ranked != []
  {
    RankValid(src.m, HostRows(src.hosts, src.creds), HostScores(src.hosts, src.fr), l.query);
    RankValid(src.m, CredRows(src.creds), seq(|src.creds|, i => 0.0), p.query);
  }

  /** Re-ranking brings a panel into agreement whatever it showed before. */
  lemma RecomputeSyncs(l: Launcher, p: CredPanel, src: Source)
    ensures HostsInSync(RecomputeHosts(l, src), src) && CredsInSync(RecomputeCreds(p, src), src)
  {
    hide RankHosts, RankCredentials;
  }

  lemma MovingKeepsSync(l: Launcher, src: Source, delta: int)
    requires HostsInSync(l, src)
    ensures HostsInSync(l.(selected := Moved(l.selected, delta, |l.ranked|)), src)
  {
    hide RankHosts, Moved;
  }

  lemma EnterKeepsSync(l: Launcher, src: Source)
    requires HostsInSync(l, src)
    ensures HostsInSync(LauncherEnter(l, src).0, src)
  {
    hide RankHosts;
  }

  /** Every key keeps the agreement. */
  lemma LauncherKeyKeepsSync(l: Launcher, src: Source, key: Key)
    requires HostsInSync(l, src)
    ensures HostsInSync(LauncherKey(l, src, key).0, src)
  {
    hide HostsInSync, CredsInSync, RecomputeHosts, RecomputeCreds, Moved, Motion, CtrlOnly, LauncherEnter, Typed;
    var p := CredPanel("", 0, []);
    if key.code.Esc? {
      RecomputeSyncs(l.(query := ""), p, src);
    } else if key.code.Enter? {
      EnterKeepsSync(l, src);
    } else if Typed(l.query, key).Some? {
      RecomputeSyncs(l.(query := Typed(l.query, key).value), p, src);
    } else {
      MovingKeepsSync(l, src, Motion(key));
    }
  }

  lemma CredKeyKeepsSync(p: CredPanel, src: Source, key: Key)
    requires CredsInSync(p, src)
    ensures CredsInSync(CredKey(p, src, key), src)
  {
    hide RankCredentials, RecomputeCreds, Moved, Motion, Typed;
    var l := Launcher("", 0, [], None);
    var typed := Typed(p.query, key);
    if typed.Some? { RecomputeSyncs(l, p.(query := typed.value), src); }
  }

  /** Landing on a host by id: it succeeds exactly when the list shows the host. */
  lemma SelectByIdLands(l: Launcher, src: Source, id: Ulid)
    requires HostsInSync(l, src)
    ensures var (t, found) := SelectById(l, src.hosts, id);
            && HostsInSync(t, src) && t.query == l.query
            && (found ==> SelectedHost(t, src.hosts).Some? && SelectedHost(t, src.hosts).value.id == id)
            && (found <==> exists k :: 0 <= k < |l.ranked| && src.hosts[l.ranked[k].hostIdx].id == id)
  {
  }

  /** Without a query every host is listed, so an id that exists can be landed on. */
  lemma UnfilteredShowsHost(l: Launcher, src: Source, id: Ulid)
    requires l.query == "" && exists h :: h in src.hosts && h.id == id
    ensures SelectById(RecomputeHosts(l, src), src.hosts, id).1
  {
    var i :| 0 <= i < |src.hosts| && src.hosts[i].id == id;
    var order := HostOrder(src.m, src.hosts, src.creds, src.fr, "");
    EmptyQueryShowsAll(src.m, HostRows(src.hosts, src.creds), HostScores(src.hosts, src.fr));
    assert i in order;
    var k :| 0 <= k < |order| && order[k] == i;
    assert RecomputeHosts(l, src).ranked[k].hostIdx == i;
  }
}
