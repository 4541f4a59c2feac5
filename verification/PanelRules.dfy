/** Which records the panels show, and in which order, told from the records
    (`src/tui/launcher.rs`, `src/tui/cred_panel.rs`). */
module PanelRules {
  import opened Prelude
  import opened Config
  import opened Panels
  import Ranking

  predicate FieldMatches(m: Ranking.Matcher, field: string, query: string) {
    query == "" || m(field, query).Some?
  }

  function FieldScore(m: Ranking.Matcher, field: string, query: string): nat {
    if query != "" && m(field, query).Some? then m(field, query).value else 0
  }

  function Best(a: nat, b: nat): nat {
    if a < b then b else a
  }

  // ---- hosts ----

  /** A host is found by its name, its user or its address. */
  predicate HostMatches(m: Ranking.Matcher, h: Host, creds: seq<Credential>, query: string) {
    FieldMatches(m, h.name, query) || FieldMatches(m, HostUser(h, creds), query) || FieldMatches(m, h.host, query)
  }

  function HostScore(m: Ranking.Matcher, h: Host, creds: seq<Credential>, query: string): nat {
    Best(Best(FieldScore(m, h.name, query), FieldScore(m, HostUser(h, creds), query)), FieldScore(m, h.host, query))
  }

  /** The better match stands above, then the host used more, then the smaller name,
      then the earlier host. */
  predicate HostAbove(src: Source, query: string, i: nat, j: nat) {
    && i < |src.hosts| && j < |src.hosts|
    && var g, h := src.hosts[i], src.hosts[j];
    var a, b := HostScore(src.m, g, src.creds, query), HostScore(src.m, h, src.creds, query);
    || a > b
    || (a == b && Score(src.fr, g.id) > Score(src.fr, h.id))
    || (a == b && Score(src.fr, g.id) == Score(src.fr, h.id) && LexLess(g.name, h.name))
    || (a == b && Score(src.fr, g.id) == Score(src.fr, h.id) && g.name == h.name && i < j)
  }

  /** The list shows each host that matches once, in that order, with its score. */
  lemma HostListShowsMatches(src: Source, query: string)
    ensures var rows := RankHosts(src.m, src.hosts, src.creds, src.fr, query);
            && (forall k | 0 <= k < |rows| ::
                  && HostMatches(src.m, src.hosts[rows[k].hostIdx], src.creds, query)
                  && rows[k].score == HostScore(src.m, src.hosts[rows[k].hostIdx], src.creds, query))
            && (forall i | 0 <= i < |src.hosts| && HostMatches(src.m, src.hosts[i], src.creds, query) ::
                  exists k :: 0 <= k < |rows| && rows[k].hostIdx == i)
            && (forall a, b | 0 <= a < b < |rows| :: HostAbove(src, query, rows[a].hostIdx, rows[b].hostIdx))
  {
    hide Ranking.Rank, HostFields, HostScore, HostMatches, Ranking.BestFieldScore;
    var fields, scores := HostRows(src.hosts, src.creds), HostScores(src.hosts, src.fr);
    var order := HostOrder(src.m, src.hosts, src.creds, src.fr, query);
    var rows := RankHosts(src.m, src.hosts, src.creds, src.fr, query);
    Ranking.RankIsTheRanking(src.m, fields, scores, query, order);
    forall i: nat | i < |src.hosts|
      ensures HostMatches(src.m, src.hosts[i], src.creds, query)
              <==> query == "" || exists f :: f in fields[i] && src.m(f, query).Some?
      ensures Ranking.MatchOf(src.m, fields[i], query) == HostScore(src.m, src.hosts[i], src.creds, query)
    {
      HostIsItsFields(src.m, src.hosts[i], src.creds, query);
    }
    forall k | 0 <= k < |rows|
      ensures HostMatches(src.m, src.hosts[rows[k].hostIdx], src.creds, query)
      ensures rows[k].score == HostScore(src.m, src.hosts[rows[k].hostIdx], src.creds, query)
    {
      assert order[k] in order;
    }
    forall i | 0 <= i < |src.hosts| && HostMatches(src.m, src.hosts[i], src.creds, query)
      ensures exists k :: 0 <= k < |rows| && rows[k].hostIdx == i
    {
      assert i in order;
      var k :| 0 <= k < |order| && order[k] == i;
      assert rows[k].hostIdx == i;
    }
    forall a, b | 0 <= a < b < |rows| ensures HostAbove(src, query, rows[a].hostIdx, rows[b].hostIdx) {
      var i, j := order[a], order[b];
      assert Ranking.Outranks(src.m, fields, scores, query, i, j);
      FirstFieldIsName(src.hosts[i], src.creds);
      FirstFieldIsName(src.hosts[j], src.creds);
    }
  }

  lemma FirstFieldIsName(h: Host, creds: seq<Credential>)
    ensures |HostFields(h, creds)| > 0 && HostFields(h, creds)[0] == h.name
  {
  }

  lemma HostIsItsFields(m: Ranking.Matcher, h: Host, creds: seq<Credential>, query: string)
    ensures HostMatches(m, h, creds, query)
            <==> query == "" || exists f :: f in HostFields(h, creds) && m(f, query).Some?
    ensures Ranking.MatchOf(m, HostFields(h, creds), query) == HostScore(m, h, creds, query)
  {
    hide HostUser;
    var user := HostUser(h, creds);
    assert h.name in HostFields(h, creds) && user in HostFields(h, creds) && h.host in HostFields(h, creds);
    assert HostFields(h, creds) == [h.name] + [user, h.host];
    assert [user, h.host] == [user] + [h.host];
  }

  // ---- credentials ----

  /** A credential is found by its name or its user. */
  predicate CredMatches(m: Ranking.Matcher, c: Credential, query: string) {
    FieldMatches(m, c.name, query) || FieldMatches(m, c.body.user, query)
  }

  function CredScore(m: Ranking.Matcher, c: Credential, query: string): nat {
    Best(FieldScore(m, c.name, query), FieldScore(m, c.body.user, query))
  }

  predicate CredAbove(m: Ranking.Matcher, creds: seq<Credential>, query: string, i: nat, j: nat) {
    && i < |creds| && j < |creds|
    && var a, b := CredScore(m, creds[i], query), CredScore(m, creds[j], query);
    a > b || (a == b && (LexLess(creds[i].name, creds[j].name) || (creds[i].name == creds[j].name && i < j)))
  }

  /** The list shows each credential that matches once: the better match above, then
      the smaller name, then the earlier one. */
  lemma CredListShowsMatches(m: Ranking.Matcher, creds: seq<Credential>, query: string)
    ensures var rows := RankCredentials(m, creds, query);
            && (forall i :: i in rows <==> 0 <= i < |creds| && CredMatches(m, creds[i], query))
            && (forall a, b | 0 <= a < b < |rows| :: CredAbove(m, creds, query, rows[a], rows[b]))
  {
    hide Ranking.Rank, CredScore, CredMatches, Ranking.BestFieldScore;
    var fields, scores := CredRows(creds), seq(|creds|, i => 0.0);
    var rows := RankCredentials(m, creds, query);
    Ranking.RankIsTheRanking(m, fields, scores, query, rows);
    forall i: nat | i < |creds|
      ensures CredMatches(m, creds[i], query) <==> query == "" || exists f :: f in fields[i] && m(f, query).Some?
      ensures Ranking.MatchOf(m, fields[i], query) == CredScore(m, creds[i], query)
    {
      CredIsItsFields(m, creds[i], query);
    }
    forall a, b | 0 <= a < b < |rows| ensures CredAbove(m, creds, query, rows[a], rows[b]) {
      assert Ranking.Outranks(m, fields, scores, query, rows[a], rows[b]);
    }
  }

  lemma CredIsItsFields(m: Ranking.Matcher, c: Credential, query: string)
    ensures CredMatches(m, c, query) <==> query == "" || exists f :: f in [c.name, c.body.user] && m(f, query).Some?
    ensures Ranking.MatchOf(m, [c.name, c.body.user], query) == CredScore(m, c, query)
  {
    assert c.name in [c.name, c.body.user] && c.body.user in [c.name, c.body.user];
    assert [c.name, c.body.user] == [c.name] + [c.body.user];
  }
}
