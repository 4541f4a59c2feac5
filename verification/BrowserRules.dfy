/** What each key and switch of a directory browser does to what is on screen
    (`src/tui/browser_core.rs`, `src/tui/transfer/pane.rs`). */
module BrowserRules {
  import opened Prelude
  import opened Keys
  import opened DirSource
  import opened Browser
  import opened RowMoves
  import Ranking
  import P = Panes

  // ---- the list ----

  predicate Matches(m: Ranking.Matcher, e: DirEntry, query: string) {
    query == "" || m(e.name, query).Some?
  }

  function Score(m: Ranking.Matcher, e: DirEntry, query: string): nat {
    if query != "" && m(e.name, query).Some? then m(e.name, query).value else 0
  }

  /** The better match stands above, then the smaller name, then the earlier entry. */
  predicate ListedAbove(m: Ranking.Matcher, entries: seq<DirEntry>, query: string, i: nat, j: nat) {
    && i < |entries| && j < |entries|
    && var a, b := Score(m, entries[i], query), Score(m, entries[j], query);
    a > b || (a == b && (LexLess(entries[i].name, entries[j].name) || (entries[i].name == entries[j].name && i < j)))
  }

  /** The list shows each entry whose name matches once, in that order. */
  lemma ListShowsMatches(m: Ranking.Matcher, entries: seq<DirEntry>, query: string)
    ensures var rows := RankEntries(m, entries, query);
            && (forall i :: i in rows <==> 0 <= i < |entries| && Matches(m, entries[i], query))
            && (forall a, b | 0 <= a < b < |rows| :: ListedAbove(m, entries, query, rows[a], rows[b]))
  {
    hide Ranking.Rank;
    var rows := RankEntries(m, entries, query);
    Ranking.RankIsTheRanking(m, NameRows(entries), Zeros(|entries|), query, rows);
    forall i | 0 <= i < |entries|
      ensures Ranking.BestFieldScore(m, [entries[i].name], query) == m(entries[i].name, query)
    {
      OneField(m, entries[i].name, query);
    }
  }

  lemma OneField(m: Ranking.Matcher, name: string, query: string)
    ensures Ranking.BestFieldScore(m, [name], query) == m(name, query)
  {
    assert [name][0] in [name];
  }

  // ---- keys ----

  /** Where the cursor is on a row, or the list is empty. */
  predicate OnRow(s: State) {
    s.selected < |s.ranked| || s.ranked == []
  }

  predicate GoesDown(key: Key) {
    key.code == Down || (key.code == Char('n') && key.ctrl)
  }

  predicate GoesUp(key: Key) {
    key.code == Up || (key.code == Char('p') && key.ctrl)
  }

  /** Arrows and Ctrl-N, Ctrl-P move the cursor by one row, round the ends. */
  lemma ArrowsMoveOneRow(m: Ranking.Matcher, s: State, key: Key)
    requires OnRow(s)
    ensures GoesDown(key) ==> ApplyNavKey(m, s, key) == s.(selected := RowBelow(s.selected, |s.ranked|))
    ensures GoesUp(key) ==> ApplyNavKey(m, s, key) == s.(selected := RowAbove(s.selected, |s.ranked|))
    ensures (GoesDown(key) || GoesUp(key)) ==> Decision(s, key) == Some(CursorMoved)
  {
    hide RankEntries;
    if s.ranked != [] {
      CyclicStep(s.selected, |s.ranked|);
    }
  }

  /** A letter lengthens the query and goes to the first row; Backspace shortens it
      and keeps the row; both show the list of the new query. */
  lemma TypingFilters(m: Ranking.Matcher, s: State, key: Key)
    ensures key.code.Char? && !key.ctrl ==>
              && Decision(s, key) == Some(QueryChanged)
              && ApplyNavKey(m, s, key)
                 == s.(query := s.query + [key.code.c], ranked := RankEntries(m, s.entries, s.query + [key.code.c]),
                       selected := 0)
    ensures key.code == Backspace && s.query != "" ==>
              && Decision(s, key) == Some(QueryChanged)
              && var rows := RankEntries(m, s.entries, s.query[..|s.query| - 1]);
              ApplyNavKey(m, s, key)
              == s.(query := s.query[..|s.query| - 1], ranked := rows, selected := RowKept(s.selected, |rows|))
    ensures key.code == Backspace && s.query == "" ==> Decision(s, key) == Some(Noop) && ApplyNavKey(m, s, key) == s
  {
    hide RankEntries;
  }

  /** Left asks for the parent directory and changes nothing; the browser leaves
      every other key alone. */
  lemma OtherKeysAreLeft(m: Ranking.Matcher, s: State, key: Key)
    requires !GoesDown(key) && !GoesUp(key) && !(key.code.Char? && !key.ctrl) && key.code != Backspace
    ensures ApplyNavKey(m, s, key) == s
    ensures Decision(s, key) == if key.code == Left then Some(StepUp) else None
  {
  }

  /** Space marks the entry under the cursor or takes its mark away, and touches no
      other mark and nothing else. */
  lemma MarkTogglesCursorEntry(s: State)
    ensures ToggleMark(s) == s.(marked := ToggleMark(s).marked)
    ensures SelectedEntry(s).None? ==> ToggleMark(s) == s
    ensures SelectedEntry(s).Some? ==>
              forall p :: (p in ToggleMark(s).marked) != (p in s.marked) <==> p == SelectedEntry(s).value.path
  {
  }

  /** The entry under the cursor is the one its row stands for. */
  lemma CursorEntryIsItsRow(s: State)
    requires s.selected < |s.ranked| && s.ranked[s.selected] < |s.entries|
    ensures SelectedEntry(s) == Some(s.entries[s.ranked[s.selected]])
  {
  }

  // ---- switches ----

  /** The memory of directories after a switch: the directory left remembers the
      entry the cursor was on, and the parent of the one entered remembers it. */
  ghost predicate Remembers(s: State, t: State) {
    forall d: Path ::
      if Parent(t.cwd) == Some(d) then d in t.history && t.history[d] == t.cwd
      else if d == s.cwd && SelectedEntry(s).Some? then d in t.history && t.history[d] == SelectedEntry(s).value.path
      else (d in t.history <==> d in s.history) && (d in t.history ==> t.history[d] == s.history[d])
  }

  /** The row the cursor is put on: that of the remembered entry, else the first. */
  predicate OnRemembered(s: State, t: State) {
    var known := t.cwd in s.history || (t.cwd == s.cwd && SelectedEntry(s).Some?);
    var path := if t.cwd == s.cwd && SelectedEntry(s).Some? then SelectedEntry(s).value.path
                else if t.cwd in s.history then s.history[t.cwd] else t.cwd;
    var row := PositionOf(t.ranked, t.entries, path);
    t.selected == if known && row.Some? then row.value else 0
  }

  /** A switch shows the whole new listing without query or marks. */
  lemma SwitchShowsListing(m: Ranking.Matcher, s: State, cwd: Path, entries: seq<DirEntry>)
    ensures var t := CommitSwitch(m, s, cwd, entries);
            && t.cwd == cwd && t.entries == entries && t.query == "" && t.marked == {} && t.switchOrigin == None
            && t.ranked == RankEntries(m, entries, "") && t.pendingRestore == s.pendingRestore
  {
    hide RankEntries, RememberedIndex;
  }

  lemma SwitchRemembers(m: Ranking.Matcher, s: State, cwd: Path, entries: seq<DirEntry>)
    ensures Remembers(s, CommitSwitch(m, s, cwd, entries))
  {
    hide RankEntries, RememberedIndex;
  }

  lemma SwitchLandsOnRow(m: Ranking.Matcher, s: State, cwd: Path, entries: seq<DirEntry>)
    ensures OnRemembered(s, CommitSwitch(m, s, cwd, entries))
  {
    hide RankEntries;
  }

  /** A refresh takes the new entries, keeps query, marks and memory, and goes to
      the first row. */
  lemma RefreshTakesEntries(m: Ranking.Matcher, s: State, entries: seq<DirEntry>)
    requires Settled(s)
    ensures FinishSwitch(m, s, entries)
            == s.(entries := entries, ranked := RankEntries(m, entries, s.query), selected := 0)
  {
    hide RankEntries;
  }

  /** A switch that is given up shows the whole listing of the directory left,
      without marks, on the row remembered for it. Without a switch under way
      nothing happens. */
  lemma RevertShowsOrigin(m: Ranking.Matcher, s: State)
    ensures s.switchOrigin == None ==> RevertSwitch(m, s) == s
    ensures s.switchOrigin.Some? ==>
              var t, origin := RevertSwitch(m, s), s.switchOrigin.value;
              && t == s.(cwd := origin, switchOrigin := None, query := "", marked := {}, pendingRestore := false,
                         ranked := RankEntries(m, s.entries, ""), selected := t.selected)
              && var row := if origin in s.history then PositionOf(t.ranked, t.entries, s.history[origin]) else None;
              t.selected == if row.Some? then row.value else 0
  {
    hide RankEntries;
  }

  /** A local navigation is a switch to the directory when it can be listed, and is
      undone at once when it cannot; a refresh that fails changes nothing. */
  lemma LocalGoSwitches(m: Ranking.Matcher, s: State, path: Path, entries: seq<DirEntry>, error: string)
    requires Settled(s)
    ensures P.LocalApply(m, s, P.Go(path, Ok(entries))) == CommitSwitch(m, s, path, entries)
    ensures var t := P.LocalApply(m, s, P.Go(path, Err(error)));
            && t.cwd == s.cwd && t.entries == s.entries && t.query == "" && t.marked == {} && Settled(t)
            && t.ranked == RankEntries(m, s.entries, "")
            && (SelectedEntry(s).Some? ==>
                  SelectedEntry(t).Some? && SelectedEntry(t).value.path == SelectedEntry(s).value.path)
    ensures P.LocalApply(m, s, P.Reload(Ok(entries)))
            == s.(entries := entries, ranked := RankEntries(m, entries, s.query), selected := 0)
    ensures P.LocalApply(m, s, P.Reload(Err(error))) == s
  {
    hide RankEntries, CommitSwitch, TwoPhaseSwitch, FailedSwitch, FinishSwitch;
    TwoPhaseRefinesAtomic(m, s, path, entries);
    FailedSwitchIsUndone(m, s, path);
    RefreshTakesEntries(m, s, entries);
  }

  // ---- Esc and Tab ----

  lemma EscShowsAll(m: Ranking.Matcher, s: State)
    ensures var rows := RankEntries(m, s.entries, "");
            Apply(m, s, ClearQuery) == s.(query := "", ranked := rows, selected := RowKept(s.selected, |rows|))
  {
    hide RankEntries;
  }

  predicate EndsInSlash(s: string) {
    s != "" && s[|s| - 1] == '/'
  }

  lemma {:induction false} LastSlashAt(head: string, tail: string)
    requires (head == "" || EndsInSlash(head)) && '/' !in tail
    ensures LastSlash(head + tail) == |head|
    decreases |tail|
  {
    if tail == "" {
      assert head + tail == head;
    } else {
      var init := tail[..|tail| - 1];
      assert (head + tail)[..|head + tail| - 1] == head + init;
      assert forall c | c in init :: c in tail;
      LastSlashAt(head, init);
    }
  }

  lemma {:induction false} TrimmedName(s: string)
    ensures TrimSlashes(s) <= s && !EndsInSlash(TrimSlashes(s))
    ensures forall k | |TrimSlashes(s)| <= k < |s| :: s[k] == '/'
  {
    if EndsInSlash(s) {
      TrimmedName(s[..|s| - 1]);
    }
  }

  /** Tab replaces the last segment typed by the name under the cursor, and goes on
      into a directory. */
  lemma TabCompletes(s: State, head: string, tail: string)
    requires s.query == head + tail && s.query != "" && (head == "" || EndsInSlash(head)) && '/' !in tail
    requires SelectedEntry(s).Some?
    ensures var e := SelectedEntry(s).value;
            Completion(s) == Some(head + TrimSlashes(e.name) + (if e.isDir then "/" else ""))
  {
    hide TrimSlashes;
    LastSlashAt(head, tail);
    assert s.query[..|head|] == head;
    var e := SelectedEntry(s).value;
    assert head + TrimSlashes(e.name) + "" == head + TrimSlashes(e.name);
  }

  // ---- the panes ----

  /** A download lands under the name of its source. */
  lemma DestinationKeepsName(cwd: Path, source: Path)
    requires source.parts != [] && source.parts[|source.parts| - 1] !in {".", ".."}
    ensures P.Destination(cwd, source) == Path(cwd.rooted, cwd.parts + [source.parts[|source.parts| - 1]])
  {
  }

  /** An answered listing of the directory on screen is shown; one of another
      directory changes nothing; an error leads back. */
  lemma AnswersAreAdopted(m: Ranking.Matcher, r: P.Remote, res: Result<seq<DirEntry>, string>)
    requires r.pending != []
    ensures var t := P.RemoteApply(m, r, P.Answer(res));
            && t.pending == r.pending[1..]
            && (res.Ok? && r.pending[0] == r.core.cwd ==>
                  t.core.entries == res.value && t.core.cwd == r.core.cwd && t.listed == Some(r.core.cwd)
                  && t.core.ranked == RankEntries(m, res.value, t.core.query) && t.core.switchOrigin == None)
            && (res.Ok? && r.pending[0] != r.core.cwd ==> t.core == r.core && t.listed == r.listed)
            && (res.Err? ==>
                  && t.core.entries == r.core.entries && t.listed == r.listed
                  && (r.core.switchOrigin.None? ==> t.core == r.core)
                  && (r.core.switchOrigin.Some? ==> t.core.cwd == r.core.switchOrigin.value))
  {
    hide RankEntries;
  }

  /** A pane opens on its directory, on the first row of what is listed there, or
      empty when it cannot be listed. */
  lemma OpeningShowsListing(m: Ranking.Matcher, start: Path, entries: seq<DirEntry>, error: string)
    ensures var t := P.Opened(m, start, Ok(entries));
            && t.cwd == start && t.entries == entries && t.ranked == RankEntries(m, entries, "")
            && t.selected == 0 && t.query == "" && t.marked == {} && Settled(t)
    ensures var t := P.Opened(m, start, Err(error));
            && t.cwd == start && t.entries == [] && t.ranked == [] && t.query == "" && Settled(t)
  {
    hide RankEntries;
  }

  /** A remote refresh asks for the directory on screen and changes nothing yet; a
      request the worker dropped is never answered. */
  lemma RemoteReloadAsks(m: Ranking.Matcher, r: P.Remote)
    ensures P.RemoteApply(m, r, P.RemoteReload) == r.(pending := r.pending + [r.core.cwd])
    ensures r.pending != [] ==> P.RemoteApply(m, r, P.Swallowed) == r.(pending := r.pending[1..])
  {
  }

  /** A remote navigation names the target at once, keeps the old entries on
      screen, and asks for the listing. */
  lemma RemoteGoAsks(m: Ranking.Matcher, r: P.Remote, path: Path)
    ensures var t := P.RemoteApply(m, r, P.RemoteGo(path));
            && t.core.cwd == path && t.core.entries == r.core.entries && t.core.ranked == r.core.ranked
            && t.core.query == "" && t.core.marked == {} && t.core.selected == 0
            && t.core.switchOrigin == Some(r.core.cwd) && t.pending == r.pending + [path] && t.listed == r.listed
  {
  }
}
