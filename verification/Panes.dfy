/** The two transfer panes and their listings: the local arm of
    `drain_transfer_events` lists on the spot, the remote arm sends a command and
    adopts the answer later (`src/tui/run_loop.rs`, `src/tui/transfer/screen.rs`). */
module Panes {
  import opened Prelude
  import opened DirSource
  import Ranking
  import B = Browser

  // ---- the local pane ----

  function Navigate(m: Ranking.Matcher, s: B.State, path: Path, listing: Result<seq<DirEntry>, string>): B.State {
    match listing
    case Ok(entries) => B.TwoPhaseSwitch(m, s, path, entries)
    case Err(_) => B.FailedSwitch(m, s, path)
  }

  /** A navigation request drained for the local side. */
  method DrainLocalList(core: B.BrowserCore, path: Path, listing: Result<seq<DirEntry>, string>)
    modifies core
    ensures core.Value() == Navigate(core.matcher, old(core.Value()), path, listing)
  {
    core.DoBeginSwitch();
    core.cwd := path;
    match listing
    case Ok(entries) => core.DoFinishSwitch(entries);
    case Err(_) => core.DoRevertSwitch();
  }

  /** The re-listing of the local pane after a finished download. */
  method RefreshLocal(core: B.BrowserCore, listing: Result<seq<DirEntry>, string>)
    modifies core
    ensures core.Value() == match listing
                            case Ok(entries) => B.FinishSwitch(core.matcher, old(core.Value()), entries)
                            case Err(_) => old(core.Value())
  {
    match listing
    case Ok(entries) => core.DoFinishSwitch(entries);
    case Err(_) =>
  }

  datatype LocalStep = Go(path: Path, listing: Result<seq<DirEntry>, string>)
                     | Reload(listing: Result<seq<DirEntry>, string>)
                     | Key(op: B.Op)

  /** The keys of a pane: everything but switching directories. */
  predicate IsKey(op: B.Op) {
    op.NavKey? || op.Mark? || op.ClearQuery? || op.Complete? || op.CompleteFound? || op.Jump?
  }

  function LocalApply(m: Ranking.Matcher, s: B.State, step: LocalStep): B.State {
    match step
    case Go(path, listing) => Navigate(m, s, path, listing)
    case Reload(Ok(entries)) => B.FinishSwitch(m, s, entries)
    case Reload(Err(_)) => s
    case Key(op) => if IsKey(op) then B.Apply(m, s, op) else s
  }

  function LocalRun(m: Ranking.Matcher, s: B.State, steps: seq<LocalStep>): B.State
    decreases |steps|
  {
    if steps == [] then s else LocalApply(m, LocalRun(m, s, steps[..|steps| - 1]), steps[|steps| - 1])
  }

  /** Step `k` listed directory `dir` successfully, with result `entries`. */
  predicate ListedBy(m: Ranking.Matcher, s: B.State, steps: seq<LocalStep>, k: nat, dir: Path, entries: seq<DirEntry>) {
    && k < |steps|
    && match steps[k]
       case Go(path, listing) => path == dir && listing == Ok(entries)
       case Reload(listing) => LocalRun(m, s, steps[..k]).cwd == dir && listing == Ok(entries)
       case Key(_) => false
  }

  lemma KeyKeepsListing(m: Ranking.Matcher, s: B.State, op: B.Op)
    requires IsKey(op)
    ensures var t := B.Apply(m, s, op);
            && t.cwd == s.cwd && t.entries == s.entries
            && t.pendingRestore == s.pendingRestore && t.switchOrigin == s.switchOrigin
  {
  }

  lemma LocalApplyProvenance(m: Ranking.Matcher, s: B.State, step: LocalStep)
    requires B.Settled(s)
    ensures var t := LocalApply(m, s, step);
            && B.Settled(t)
            && ((t.cwd == s.cwd && t.entries == s.entries)
                || step == Go(t.cwd, Ok(t.entries))
                || (step == Reload(Ok(t.entries)) && t.cwd == s.cwd))
  {
    match step
    case Go(path, Ok(entries)) => B.TwoPhaseRefinesAtomic(m, s, path, entries);
    case Go(path, Err(_)) => B.FailedSwitchIsUndone(m, s, path);
    case Reload(_) =>
    case Key(op) => if IsKey(op) { KeyKeepsListing(m, s, op); }
  }

  /** Whatever navigations succeed or fail, the local entries are the initial
      ones under the initial directory, or some step listed exactly the current
      directory and got exactly these entries. */
  lemma {:induction false} LocalEntriesBelongToCwd(m: Ranking.Matcher, s: B.State, steps: seq<LocalStep>)
    requires B.Settled(s)
    ensures var t := LocalRun(m, s, steps);
            && B.Settled(t)
            && ((t.cwd == s.cwd && t.entries == s.entries)
                || exists k: nat :: ListedBy(m, s, steps, k, t.cwd, t.entries))
    decreases |steps|
  {
    hide LocalApply;
    if steps != [] {
      var init, last := steps[..|steps| - 1], |steps| - 1;
      LocalEntriesBelongToCwd(m, s, init);
      var u, t := LocalRun(m, s, init), LocalRun(m, s, steps);
      LocalApplyProvenance(m, u, steps[last]);
      if t.cwd == u.cwd && t.entries == u.entries {
        if !(t.cwd == s.cwd && t.entries == s.entries) {
          var k: nat :| ListedBy(m, s, init, k, u.cwd, u.entries);
          assert init[..k] == steps[..k];
          assert ListedBy(m, s, steps, k, t.cwd, t.entries);
        }
      } else {
        assert ListedBy(m, s, steps, last, t.cwd, t.entries);
      }
    }
  }

  /** Where a transfer from the other pane lands: the name of the source inside
      the directory of this pane. */
  function Destination(cwd: Path, source: Path): Path {
    if source.parts == [] || source.parts[|source.parts| - 1] == ".." then Join(cwd, source)
    else Join(cwd, Path(false, [source.parts[|source.parts| - 1]]))
  }

  /** The local pane when the screen opens: a first listing that fails leaves it
      empty in its directory. */
  function Opened(m: Ranking.Matcher, start: Path, opening: Result<seq<DirEntry>, string>): B.State {
    match opening
    case Ok(entries) => B.FinishSwitch(m, B.Fresh(start), entries)
    case Err(_) => B.Fresh(start)
  }

  predicate Lists(step: LocalStep) {
    (step.Go? && step.listing.Ok?) || (step.Reload? && step.listing.Ok?)
  }

  /** Some listing of `dir`, the first or one of the run, gave `entries`. */
  ghost predicate Listed(m: Ranking.Matcher, start: Path, opening: Result<seq<DirEntry>, string>,
                         steps: seq<LocalStep>, dir: Path, entries: seq<DirEntry>)
  {
    || (dir == start && opening == Ok(entries))
    || exists k: nat :: ListedBy(m, Opened(m, start, opening), steps, k, dir, entries)
  }

  /** Some step of the run listed the directory of `t` and got its entries. */
  ghost predicate ListedByRun(m: Ranking.Matcher, s: B.State, steps: seq<LocalStep>, t: B.State) {
    exists k: nat :: ListedBy(m, s, steps, k, t.cwd, t.entries)
  }

  /** From the first listing that succeeds, the pane shows one of its directory. */
  lemma {:induction false} ListedStays(m: Ranking.Matcher, s: B.State, steps: seq<LocalStep>)
    requires B.Settled(s) && exists step :: step in steps && Lists(step)
    ensures ListedByRun(m, s, steps, LocalRun(m, s, steps))
    decreases |steps|
  {
    hide LocalApply;
    var n: nat := |steps| - 1;
    var init, last := steps[..n], steps[n];
    assert steps == init + [last];
    LocalEntriesBelongToCwd(m, s, init);
    var u, t := LocalRun(m, s, init), LocalRun(m, s, steps);
    if Lists(last) {
      ListingIsAdopted(m, u, last);
      assert ListedBy(m, s, steps, n, t.cwd, t.entries);
    } else {
      ListedStays(m, s, init);
      OthersKeepListing(m, u, last);
      var k: nat :| ListedBy(m, s, init, k, u.cwd, u.entries);
      assert init[..k] == steps[..k];
      assert ListedBy(m, s, steps, k, t.cwd, t.entries);
    }
  }

  lemma ListingIsAdopted(m: Ranking.Matcher, s: B.State, step: LocalStep)
    requires Lists(step)
    ensures var t := LocalApply(m, s, step);
            step == Go(t.cwd, Ok(t.entries)) || (step == Reload(Ok(t.entries)) && t.cwd == s.cwd)
  {
  }

  lemma OthersKeepListing(m: Ranking.Matcher, s: B.State, step: LocalStep)
    requires !Lists(step)
    ensures var t := LocalApply(m, s, step); t.cwd == s.cwd && t.entries == s.entries
  {
    match step
    case Go(path, _) => B.FailedSwitchIsUndone(m, s, path);
    case Reload(_) =>
    case Key(op) => if IsKey(op) { KeyKeepsListing(m, s, op); }
  }

  /** A download of a named entry is written directly into the directory the pane
      names. That directory was listed, with the entries on screen, exactly when
      any listing has succeeded so far: the first one may fail. */
  lemma DownloadLandsInListedDirectory(m: Ranking.Matcher, start: Path, opening: Result<seq<DirEntry>, string>,
                                       steps: seq<LocalStep>, source: Path)
    requires source.parts != [] && source.parts[|source.parts| - 1] !in {".", ".."}
    ensures var t := LocalRun(m, Opened(m, start, opening), steps);
            var dir := Parent(Destination(t.cwd, source));
            && dir == Some(t.cwd)
            && (Listed(m, start, opening, steps, dir.value, t.entries)
                <==> opening.Ok? || exists step :: step in steps && Lists(step))
  {
    hide LocalRun;
    var s := Opened(m, start, opening);
    LocalEntriesBelongToCwd(m, s, steps);
    var t := LocalRun(m, s, steps);
    var d := Destination(t.cwd, source);
    assert d.parts[..|d.parts| - 1] == t.cwd.parts;
    if exists step :: step in steps && Lists(step) {
      ListedStays(m, s, steps);
    }
    forall k: nat | ListedBy(m, s, steps, k, t.cwd, t.entries)
      ensures exists step :: step in steps && Lists(step)
    {
      assert steps[k] in steps;
    }
  }

  /** The first listing fails, a second try fails, and a download is written into
      a directory that was never listed. */
  lemma DownloadIntoUnlistedDirectory(m: Ranking.Matcher, start: Path, source: Path, msg: string)
    requires source.parts != [] && source.parts[|source.parts| - 1] !in {".", ".."}
    ensures var steps := [Go(start, Err(msg))];
            var t := LocalRun(m, Opened(m, start, Err(msg)), steps);
            && Parent(Destination(t.cwd, source)) == Some(start) && t.entries == []
            && forall entries :: !Listed(m, start, Err(msg), steps, start, entries)
  {
    hide B.RankEntries;
    var s, steps := Opened(m, start, Err(msg)), [Go(start, Err(msg))];
    assert steps[..0] == [];
    B.FailedSwitchIsUndone(m, s, start);
    var d := Destination(start, source);
    assert d.parts[..|d.parts| - 1] == start.parts;
  }

  // ---- the remote pane ----

  /** `pending` are the `List` commands sent and not yet answered, oldest first.
      `listed` is history: the directory the entries on screen came from, if any. */
  datatype Remote = Remote(core: B.State, pending: seq<Path>, listed: Option<Path>)

  datatype RemoteStep = RemoteGo(path: Path)
                      | RemoteReload
                      | Answer(res: Result<seq<DirEntry>, string>)
                      | Swallowed
                      | RemoteKey(op: B.Op)

  /** `Swallowed`: the worker takes the command while a transfer runs and drops
      it, so no answer will ever come. */
  predicate Enabled(r: Remote, step: RemoteStep) {
    && (step.Answer? || step.Swallowed? ==> r.pending != [])
    && (step.RemoteKey? ==> IsKey(step.op))
  }

  function RemoteApply(m: Ranking.Matcher, r: Remote, step: RemoteStep): Remote
    requires Enabled(r, step)
  {
    match step
    case RemoteGo(path) =>
      r.(core := B.BeginSwitch(r.core).(cwd := path), pending := r.pending + [path])
    case RemoteReload =>
      r.(pending := r.pending + [r.core.cwd])
    case Answer(Ok(entries)) =>
      if r.core.cwd == r.pending[0]
      then Remote(B.FinishSwitch(m, r.core, entries), r.pending[1..], Some(r.pending[0]))
      else r.(pending := r.pending[1..])
    case Answer(Err(_)) =>
      r.(core := B.RevertSwitch(m, r.core), pending := r.pending[1..])
    case Swallowed =>
      r.(pending := r.pending[1..])
    case RemoteKey(op) =>
      r.(core := B.Apply(m, r.core, op))
  }

  /** The pane names the directory its entries came from. */
  predicate Matched(r: Remote) {
    r.listed == Some(r.core.cwd)
  }

  /** The entries belong to the current directory, or the answer for it is still
      to come; a switch under way can be undone to where they belong. */
  predicate RemoteInv(r: Remote) {
    match r.core.switchOrigin
    case None => Matched(r) || (r.listed.None? && r.core.cwd in r.pending)
    case Some(origin) => r.listed == Some(origin) && r.core.cwd in r.pending
  }

  /** What the screen would have to check before the step. The first listing of
      all must not fail either: there is nothing to go back to. */
  predicate Guard(r: Remote, step: RemoteStep)
    requires Enabled(r, step)
  {
    match step
    case RemoteGo(_) => r.listed.Some? && (r.core.switchOrigin.None? || Matched(r))
    case Swallowed => (r.listed.Some? && r.core.switchOrigin.None?) || r.core.cwd in r.pending[1..]
    case Answer(Err(_)) => r.listed.Some? || r.core.cwd in r.pending[1..]
    case _ => true
  }

  /** The invariant survives exactly the steps that respect the guard: no new
      navigation before the last one is answered, and no listing command lost to
      a running transfer. */
  lemma RemoteStepKeepsInv(m: Ranking.Matcher, r: Remote, step: RemoteStep)
    requires RemoteInv(r) && Enabled(r, step)
    ensures RemoteInv(RemoteApply(m, r, step)) <==> Guard(r, step)
  {
    hide B.RankEntries;
    if step.RemoteKey? { KeyKeepsListing(m, r.core, step.op); }
    if r.pending != [] { assert r.pending == [r.pending[0]] + r.pending[1..]; }
  }

  function RemoteRun(m: Ranking.Matcher, r: Remote, steps: seq<RemoteStep>): Remote
    decreases |steps|
  {
    if steps == [] then r
    else RemoteRun(m, if Enabled(r, steps[0]) then RemoteApply(m, r, steps[0]) else r, steps[1..])
  }

  ghost predicate Guarded(m: Ranking.Matcher, r: Remote, steps: seq<RemoteStep>)
    decreases |steps|
  {
    || steps == []
    || (&& Enabled(r, steps[0]) && Guard(r, steps[0])
        && Guarded(m, RemoteApply(m, r, steps[0]), steps[1..]))
  }

  /** Once everything sent is answered, a pane used within the guard is settled,
      and both its entries and an upload from the other side belong to the
      directory it names. */
  lemma {:induction false} GuardedRemoteIsConsistent(m: Ranking.Matcher, r: Remote, steps: seq<RemoteStep>)
    requires RemoteInv(r) && Guarded(m, r, steps)
    ensures var t := RemoteRun(m, r, steps);
            && RemoteInv(t)
            && (t.pending == [] ==> t.core.switchOrigin.None? && Matched(t))
    decreases |steps|
  {
    hide RemoteApply;
    if steps != [] {
      RemoteStepKeepsInv(m, r, steps[0]);
      GuardedRemoteIsConsistent(m, RemoteApply(m, r, steps[0]), steps[1..]);
    }
  }

  // ---- what an unguarded step can lead to ----

  ghost predicate AllAnswers(steps: seq<RemoteStep>) {
    forall step | step in steps :: step.Answer?
  }

  /** Some answers to everything pending leave the pane naming a directory whose
      listing it does not show. */
  ghost predicate CanSplit(m: Ranking.Matcher, r: Remote) {
    exists steps: seq<RemoteStep> ::
      |steps| == |r.pending| && AllAnswers(steps) && !Matched(RemoteRun(m, r, steps))
  }

  /** After a step the pane can end up split exactly if nothing has been listed
      yet, or the step was unguarded and not the loss of a command that only
      re-entered the directory shown. */
  lemma StepCanSplit(m: Ranking.Matcher, r: Remote, step: RemoteStep)
    requires RemoteInv(r) && Enabled(r, step)
    ensures CanSplit(m, RemoteApply(m, r, step))
            <==> RemoteApply(m, r, step).listed.None?
                 || (!Guard(r, step) && !(step.Swallowed? && Matched(r)))
  {
    hide RemoteApply, B.RankEntries, RemoteRun;
    var t := RemoteApply(m, r, step);
    if t.listed.None? {
      UnlistedCanSplit(m, t);
    } else if r.listed.None? {
      FirstListing(m, r, step);
      GuardedCannotSplit(m, t);
    } else if Guard(r, step) {
      RemoteStepKeepsInv(m, r, step);
      GuardedCannotSplit(m, t);
    } else if step.RemoteGo? {
      ErrorsSplit(m, r, step.path);
    } else {
      LostListing(m, r, step);
    }
  }

  lemma {:induction false} AnswersAreGuarded(m: Ranking.Matcher, r: Remote, steps: seq<RemoteStep>)
    requires |steps| == |r.pending| && AllAnswers(steps) && r.listed.Some?
    ensures Guarded(m, r, steps) && RemoteRun(m, r, steps).pending == []
    decreases |steps|
  {
    hide B.FinishSwitch, B.RevertSwitch;
    if steps != [] {
      assert steps[0] in steps && forall step | step in steps[1..] :: step in steps;
      AnswersAreGuarded(m, RemoteApply(m, r, steps[0]), steps[1..]);
    }
  }

  lemma GuardedCannotSplit(m: Ranking.Matcher, r: Remote)
    requires RemoteInv(r) && r.listed.Some?
    ensures !CanSplit(m, r)
  {
    hide RemoteRun, Guarded, RemoteInv;
    forall steps | |steps| == |r.pending| && AllAnswers(steps)
      ensures Matched(RemoteRun(m, r, steps))
    {
      AnswersAreGuarded(m, r, steps);
      GuardedRemoteIsConsistent(m, r, steps);
    }
  }

  function Errors(n: nat): (r: seq<RemoteStep>)
    ensures |r| == n && AllAnswers(r)
  {
    seq(n, _ => Answer(Err("")))
  }

  /** Errors alone never move a pane that has no switch to undo. */
  lemma {:induction false} ErrorsChangeNothing(m: Ranking.Matcher, r: Remote)
    requires r.core.switchOrigin.None?
    ensures RemoteRun(m, r, Errors(|r.pending|)) == r.(pending := [])
    decreases |r.pending|
  {
    if r.pending != [] {
      assert Errors(|r.pending|)[1..] == Errors(|r.pending| - 1);
      ErrorsChangeNothing(m, r.(pending := r.pending[1..]));
    }
  }

  /** A navigation begun before the last one was answered: if nothing can be
      listed, the undo stops at the first target. */
  lemma ErrorsSplit(m: Ranking.Matcher, r: Remote, path: Path)
    requires r.core.switchOrigin.Some? && !Matched(r)
    ensures CanSplit(m, RemoteApply(m, r, RemoteGo(path)))
  {
    hide B.RankEntries;
    var t := RemoteApply(m, r, RemoteGo(path));
    var n := |t.pending|;
    var u := RemoteApply(m, t, Answer(Err("")));
    assert u.core.cwd == r.core.cwd && u.core.switchOrigin.None?;
    assert Errors(n)[1..] == Errors(n - 1);
    ErrorsChangeNothing(m, u);
    assert RemoteRun(m, t, Errors(n)) == RemoteRun(m, u, Errors(n - 1));
    assert !Matched(RemoteRun(m, t, Errors(n)));
  }

  /** With errors only, a pane that shows no listing will show none. */
  lemma {:induction false} ErrorsListNothing(m: Ranking.Matcher, r: Remote)
    requires r.listed.None?
    ensures RemoteRun(m, r, Errors(|r.pending|)).listed.None?
    decreases |r.pending|
  {
    if r.pending != [] {
      assert Errors(|r.pending|)[1..] == Errors(|r.pending| - 1);
      ErrorsListNothing(m, RemoteApply(m, r, Answer(Err(""))));
    }
  }

  lemma UnlistedCanSplit(m: Ranking.Matcher, r: Remote)
    requires r.listed.None?
    ensures CanSplit(m, r)
  {
    hide RemoteRun;
    ErrorsListNothing(m, r);
    assert !Matched(RemoteRun(m, r, Errors(|r.pending|)));
  }

  /** The first listing to be adopted settles the pane. */
  lemma FirstListing(m: Ranking.Matcher, r: Remote, step: RemoteStep)
    requires RemoteInv(r) && Enabled(r, step) && r.listed.None? && RemoteApply(m, r, step).listed.Some?
    ensures Guard(r, step) && RemoteInv(RemoteApply(m, r, step))
  {
    hide B.RankEntries;
    RemoteStepKeepsInv(m, r, step);
  }

  /** Answers for other directories never move a pane. */
  lemma {:induction false} OthersChangeNothing(m: Ranking.Matcher, r: Remote, steps: seq<RemoteStep>)
    requires r.core.cwd !in r.pending && |steps| == |r.pending|
    requires forall step | step in steps :: step == Answer(Ok([]))
    ensures RemoteRun(m, r, steps) == r.(pending := [])
    decreases |steps|
  {
    if steps != [] {
      assert steps[0] in steps && forall step | step in steps[1..] :: step in steps;
      OthersChangeNothing(m, r.(pending := r.pending[1..]), steps[1..]);
    }
  }

  /** Where the pane is, it stays: a switch can only be undone to where it is. */
  lemma {:induction false} AtHomeStays(m: Ranking.Matcher, r: Remote, steps: seq<RemoteStep>)
    requires AllAnswers(steps) && Matched(r)
    requires r.core.switchOrigin.None? || r.core.switchOrigin == r.listed
    ensures Matched(RemoteRun(m, r, steps))
    decreases |steps|
  {
    hide B.RankEntries;
    if steps != [] {
      assert steps[0] in steps && forall step | step in steps[1..] :: step in steps;
      AtHomeStays(m, if Enabled(r, steps[0]) then RemoteApply(m, r, steps[0]) else r, steps[1..]);
    }
  }

  lemma LostListing(m: Ranking.Matcher, r: Remote, step: RemoteStep)
    requires RemoteInv(r) && Enabled(r, step) && step.Swallowed? && !Guard(r, step) && r.listed.Some?
    ensures CanSplit(m, RemoteApply(m, r, step)) <==> !Matched(r)
  {
    hide RemoteRun;
    var t := RemoteApply(m, r, step);
    if Matched(r) {
      forall steps | AllAnswers(steps)
        ensures Matched(RemoteRun(m, t, steps))
      {
        AtHomeStays(m, t, steps);
      }
    } else {
      var steps := seq(|t.pending|, _ => Answer(Ok([])));
      OthersChangeNothing(m, t, steps);
      assert AllAnswers(steps);
    }
  }

  /** The remote pane once the connection stands: the listing of the home
      directory is asked for. */
  function Connected(home: Path): Remote {
    Remote(B.Fresh(home), [home], None)
  }

  /** That state is where the guarded runs start; if the first answer is an error
      the pane stays empty in a directory never listed, with nothing pending. */
  lemma FirstAnswer(m: Ranking.Matcher, home: Path, entries: seq<DirEntry>, msg: string)
    ensures RemoteInv(Connected(home))
    ensures RemoteApply(m, Connected(home), Answer(Ok(entries))) == RemoteAt(m, home, entries)
    ensures RemoteApply(m, Connected(home), Answer(Err(msg))) == Remote(B.Fresh(home), [], None)
  {
    hide B.RankEntries;
  }

  /** A remote pane showing the listing `entries` of `dir`, nothing pending. */
  function RemoteAt(m: Ranking.Matcher, dir: Path, entries: seq<DirEntry>): Remote {
    Remote(B.FinishSwitch(m, B.Fresh(dir), entries), [], Some(dir))
  }

  /** Two quick navigations, the second of which cannot be listed: the revert
      stops at the first target, under the entries of the start directory. */
  lemma OverlappingNavigationsSplitPane(m: Ranking.Matcher, dir: Path, a: Path, b: Path,
                                        entries: seq<DirEntry>, other: seq<DirEntry>, msg: string)
    requires a != dir && a != b
    ensures var t := RemoteRun(m, RemoteAt(m, dir, entries),
                               [RemoteGo(a), RemoteGo(b), Answer(Ok(other)), Answer(Err(msg))]);
            && t.pending == [] && B.Settled(t.core)
            && t.core.cwd == a && t.core.entries == entries && t.listed == Some(dir)
  {
    hide B.RankEntries;
    var r0 := RemoteAt(m, dir, entries);
    var steps := [RemoteGo(a), RemoteGo(b), Answer(Ok(other)), Answer(Err(msg))];
    var r1 := RemoteApply(m, r0, steps[0]);
    var r2 := RemoteApply(m, r1, steps[1]);
    var r3 := RemoteApply(m, r2, steps[2]);
    assert r2.pending == [a, b] && r3.pending == [b];
    assert steps[1..][1..] == steps[2..] && steps[2..][1..] == steps[3..] && steps[3..][1..] == [];
    assert RemoteRun(m, r0, steps) == RemoteRun(m, r1, steps[1..]);
    assert RemoteRun(m, r1, steps[1..]) == RemoteRun(m, r2, steps[2..]);
    assert RemoteRun(m, r2, steps[2..]) == RemoteRun(m, r3, steps[3..]);
    assert RemoteRun(m, r3, steps[3..]) == RemoteRun(m, RemoteApply(m, r3, steps[3]), []);
  }

  /** A navigation while a transfer runs: the listing command is dropped, and
      the pane names a directory it never listed, with nothing left to wait for. */
  lemma SwallowedListStrandsPane(m: Ranking.Matcher, dir: Path, a: Path, entries: seq<DirEntry>)
    ensures var t := RemoteRun(m, RemoteAt(m, dir, entries), [RemoteGo(a), Swallowed]);
            t.pending == [] && t.core.cwd == a && t.core.entries == entries && t.listed == Some(dir)
  {
    hide B.RankEntries;
    var steps := [RemoteGo(a), Swallowed];
    var r0 := RemoteAt(m, dir, entries);
    var r1 := RemoteApply(m, r0, steps[0]);
    assert r1.pending == [a];
    assert steps[1..] == [Swallowed];
    assert RemoteRun(m, r0, steps) == RemoteRun(m, r1, steps[1..]);
    assert RemoteRun(m, r1, steps[1..]) == RemoteRun(m, RemoteApply(m, r1, Swallowed), []);
  }
}
