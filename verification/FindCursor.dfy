/** The find cursor when the workers are those of `Pathfind`: what the screen
    promises of any worker that names a drilled directory first. */
module FindCursor {
  import opened Search
  import opened SearchSafety
  import opened Pathfind

  /** What a worker has sent is a beginning of the events of some walk. */
  ghost predicate SaidByWalk(said: seq<Kind>) {
    exists w: Walker, q: Parsed :: NamesChildren(w) && Begins(said, Walk(w, q))
  }

  lemma WalksDrillFirst(said: seq<Kind>)
    requires SaidByWalk(said)
    ensures DrilledFirst(said)
  {
    hide Walk, NamesChildren;
    var w: Walker, q: Parsed :| NamesChildren(w) && Begins(said, Walk(w, q));
    forall i | 0 < i < |said| ensures !said[i].Drilled? {
      DrilledComesFirst(w, q, i);
      assert said[i] == Walk(w, q)[i];
    }
  }

  /** So over every run in which the workers walk, within one turn of the search
      counter, the find cursor of each pane is on a row. */
  lemma FindCursorStays(steps: seq<Step>)
    requires |Run(Init(), steps).launched| <= GENERATIONS
    requires forall k | 0 <= k <= |steps| :: SaidByWalk(Run(Init(), steps[..k]).said)
    ensures var s := Run(Init(), steps);
            && (s.local.Some? ==> CursorInRange(s.local.value))
            && (s.remote.Some? ==> CursorInRange(s.remote.value))
  {
    hide Run, SaidByWalk, DrilledFirst;
    forall k | 0 <= k <= |steps| ensures DrilledFirst(Run(Init(), steps[..k]).said) {
      WalksDrillFirst(Run(Init(), steps[..k]).said);
    }
    RunKeepsCursors(steps);
  }
}
