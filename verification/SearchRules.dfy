/** What a query, an Esc, a jump and the end of a search do to the find panes
    (`src/tui/transfer/search_dispatch.rs`, `src/tui/transfer/search.rs`). */
module SearchRules {
  import opened Prelude
  import opened DirSource
  import opened RowMoves
  import opened Search
  import opened SearchSafety

  function OtherSide(side: Side): Side {
    if side == LocalSide then RemoteSide else LocalSide
  }

  /** A plain name looked for where the pane already is. */
  predicate PlainName(parsed: Parsed, cwd: Path) {
    parsed.base == cwd && |parsed.segments| == 1 && !parsed.trailingSlash
  }

  /** A query that needs a search arms one for its pane in place of any other. The
      pane starts to spin and keeps what it shows until the first new event; the
      search in flight and the other pane are left alone. */
  lemma QueryArmsSearch(s: State, side: Side, query: string, parsed: Parsed, cwd: Path)
    requires query != "" && !PlainName(parsed, cwd)
    ensures var t := Next(s, Request(side, query, parsed, cwd));
            && t.pending == Some((side, parsed))
            && PaneOf(t, side).Some? && PaneOf(t, side).value.searching && PaneOf(t, side).value.error == None
            && (PaneOf(s, side).Some? ==> SameHits(PaneOf(s, side).value, PaneOf(t, side).value))
            && (PaneOf(s, side).None? ==>
                  PaneOf(t, side).value.results == [] && PaneOf(t, side).value.cursor == 0
                  && PaneOf(t, side).value.currentDir == None && PaneOf(t, side).value.resultsGen == None)
            && PaneOf(t, OtherSide(side)) == PaneOf(s, OtherSide(side))
            && t.rx == s.rx && t.side == s.side && t.gen == s.gen && t.launched == s.launched
  {
  }

  /** A plain name filters: the pane leaves find mode and nothing is armed. */
  lemma PlainNameFilters(s: State, side: Side, query: string, parsed: Parsed, cwd: Path)
    requires query != "" && PlainName(parsed, cwd)
    ensures var t := Next(s, Request(side, query, parsed, cwd));
            && PaneOf(t, side) == None && t.pending == None
            && PaneOf(t, OtherSide(side)) == PaneOf(s, OtherSide(side))
            && t.rx == s.rx && t.side == s.side && t.gen == s.gen && t.launched == s.launched
  {
  }

  /** A launch gives the search a new number and a channel of its own, for the pane
      that asked; what the panes show stays. */
  lemma LaunchStartsSearch(s: State, elapsed: nat)
    requires s.pending.Some? && elapsed >= 80
    ensures var t, side := Next(s, Fire(elapsed)), s.pending.value.0;
            && t.pending == None && t.side == Some(side) && t.cancelFlag
            && t.gen == (s.gen + 1) % 0x1_0000_0000
            && t.launched == s.launched + [side] && t.rx == Some(Receiver(|t.launched|, [])) && t.said == []
            && (forall which :: PaneOf(s, which).Some? <==> PaneOf(t, which).Some?)
            && (forall which :: PaneOf(s, which).Some? ==> SameHits(PaneOf(s, which).value, PaneOf(t, which).value))
  {
  }

  /** Before the debounce is over nothing is launched. */
  lemma EarlyTickWaits(s: State, elapsed: nat)
    requires elapsed < 80
    ensures Next(s, Fire(elapsed)) == s
  {
  }

  /** Esc ends the search in flight and takes its pane out of find mode, or the
      pane with the focus if there is none; nothing is armed any more. */
  lemma EscEndsSearch(s: State, focus: Side)
    ensures var t, side := Next(s, Cancel(focus)), if s.side.Some? then s.side.value else focus;
            && PaneOf(t, side) == None && PaneOf(t, OtherSide(side)) == PaneOf(s, OtherSide(side))
            && t.rx == None && !t.cancelFlag && t.pending == None && t.side == None
            && t.gen == s.gen && t.launched == s.launched
  {
  }

  /** Going into a directory found takes the pane out of find mode and leaves the
      search in flight, whose events are then lost on it. */
  lemma JumpLeavesFind(s: State, focus: Side, ev: Event)
    ensures var t := Next(s, Jump(focus));
            && PaneOf(t, focus) == None && PaneOf(t, OtherSide(focus)) == PaneOf(s, OtherSide(focus))
            && t.(local := s.local, remote := s.remote) == s
            && ApplySearchEvent(t, focus, ev) == t
  {
  }

  predicate WorkersAlone(steps: seq<Step>) {
    forall step | step in steps :: step.Worker? || step.Drain? || step.Fire?
  }

  /** After an Esc nothing moves on its own: whatever workers send, no pane changes
      and no search starts before the next query. */
  lemma {:induction false} EscIsQuiet(s: State, focus: Side, more: seq<Step>)
    requires WorkersAlone(more)
    ensures Run(Next(s, Cancel(focus)), more) == Next(s, Cancel(focus))
    decreases |more|
  {
    if more != [] {
      var init, last := more[..|more| - 1], more[|more| - 1];
      assert last in more && forall step | step in init :: step in more;
      EscIsQuiet(s, focus, init);
    }
  }

  /** The arrows move the find cursor by one row over the "." row and the results,
      round the ends. */
  lemma ArrowsMoveFindCursor(s: State, side: Side)
    requires PaneOf(s, side).Some? && PaneOf(s, side).value.cursor < DisplayLen(PaneOf(s, side).value)
    ensures var p := PaneOf(s, side).value;
            var n := |p.results| + (if p.currentDir.Some? then 1 else 0);
            && Next(s, Move(side, 1)) == WithPane(s, side, Some(p.(cursor := RowBelow(p.cursor, n))))
            && Next(s, Move(side, -1)) == WithPane(s, side, Some(p.(cursor := RowAbove(p.cursor, n))))
  {
    var p := PaneOf(s, side).value;
    CyclicStep(p.cursor, DisplayLen(p));
  }

  /** The row under the find cursor: "." first if it is shown, then the results. */
  lemma FindCursorRow(p: PaneSearch)
    requires p.cursor < DisplayLen(p)
    ensures p.currentDir.Some? && p.cursor == 0 ==> Selected(p) == p.currentDir
    ensures p.currentDir.Some? && p.cursor > 0 ==> Selected(p) == Some(p.results[p.cursor - 1])
    ensures p.currentDir.None? ==> Selected(p) == Some(p.results[p.cursor])
  {
  }

  /** An event of another search is dropped; one of the latest changes the pane it
      is for, if that is still in find mode, and nothing else. */
  lemma StaleEventIsDropped(s: State, side: Side, ev: Event)
    ensures ev.gen != s.gen || PaneOf(s, side) == None ==> ApplySearchEvent(s, side, ev) == s
    ensures ev.gen == s.gen && PaneOf(s, side).Some? ==>
              var t := ApplySearchEvent(s, side, ev);
              && PaneOf(t, side) == Some(Absorb(PaneOf(s, side).value, ev))
              && PaneOf(t, OtherSide(side)) == PaneOf(s, OtherSide(side))
              && t.(local := s.local, remote := s.remote) == s
  {
    hide Absorb;
  }

  /** The first event of a new search drops what older searches left. */
  lemma FirstEventClears(p: PaneSearch, ev: Event)
    requires p.resultsGen != Some(ev.gen)
    ensures var t := Absorb(p, ev);
            && t.resultsGen == Some(ev.gen)
            && t.results == (if ev.kind.Match? then [ev.kind.hit] else [])
            && t.currentDir == (if ev.kind.Drilled? then Some(Hit(ev.kind.dir, true, 0)) else None)
            && t.cursor == 0
            && t.searching == (p.searching && !ev.kind.Finished? && !ev.kind.Failure?)
            && t.error == (if ev.kind.Failure? then Some(ev.kind.message) else p.error)
  {
    hide RankHits;
    if ev.kind.Match? {
      OneRanked(ev.kind.hit);
    }
  }

  lemma OneRanked(hit: Hit)
    ensures RankHits([] + [hit]) == [hit]
  {
    assert ([] + [hit])[..0] == [] && RankHits([]) == [];
  }

  /** A later event of the search adds a hit, ends the spinner, or shows an error
      in place of everything. */
  lemma LaterEventAdds(p: PaneSearch, ev: Event)
    requires p.resultsGen == Some(ev.gen) && !ev.kind.Drilled?
    ensures var t := Absorb(p, ev);
            && (ev.kind.Match? ==>
                  && multiset(t.results) == multiset(p.results) + multiset{ev.kind.hit}
                  && t == p.(results := t.results, arrived := t.arrived, cursor := RowKept(p.cursor, |t.results|)))
            && (ev.kind.Finished? ==> t == p.(searching := false))
            && (ev.kind.Failure? ==>
                  t == p.(results := [], cursor := 0, currentDir := None, arrived := [], searching := false,
                          error := Some(ev.kind.message)))
  {
    hide RankHits;
    if ev.kind.Match? {
      RankHitsRanks(p.results + [ev.kind.hit]);
      SameSize(RankHits(p.results + [ev.kind.hit]), p.results + [ev.kind.hit]);
    }
  }
}
