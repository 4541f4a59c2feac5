/** The directory browser shared by the file picker and the transfer panes
    (`src/tui/browser_core.rs`). `State` is the value of a browser, the functions
    on it are the specification of the methods of `BrowserCore`, and the lemmas
    at the end say what the browser promises over whole runs. */
module Browser {
  import opened Prelude
  import opened Keys
  import opened DirSource
  import Ranking
  import Fit

  datatype State = State(cwd: Path, entries: seq<DirEntry>, query: string, ranked: seq<nat>,
                         selected: nat, marked: set<Path>, history: map<Path, Path>,
                         pendingRestore: bool, switchOrigin: Option<Path>)

  datatype NavDecision = CursorMoved | QueryChanged | StepUp | Noop

  // ---- specification of each operation ----

  function Fresh(cwd: Path): State {
    State(cwd, [], "", [], 0, {}, map[], false, None)
  }

  function NameRows(entries: seq<DirEntry>): (r: seq<seq<string>>)
    ensures |r| == |entries|
  {
    seq(|entries|, i requires 0 <= i < |entries| => [entries[i].name])
  }

  function Zeros(n: nat): (r: seq<real>)
    ensures |r| == n
  {
    seq(n, _ => 0.0)
  }

  function RankEntries(m: Ranking.Matcher, entries: seq<DirEntry>, query: string): seq<nat> {
    Ranking.Rank(m, NameRows(entries), Zeros(|entries|), query)
  }

  function Recompute(m: Ranking.Matcher, s: State): State {
    s.(ranked := RankEntries(m, s.entries, s.query))
  }

  function MoveCursor(s: State, delta: int): State {
    if s.ranked == [] then s else s.(selected := (s.selected + delta) % |s.ranked|)
  }

  function EntryAtRank(s: State, k: nat): Option<DirEntry> {
    if k < |s.ranked| && s.ranked[k] < |s.entries| then Some(s.entries[s.ranked[k]]) else None
  }

  function SelectedEntry(s: State): Option<DirEntry> {
    EntryAtRank(s, s.selected)
  }

  function ToggleMark(s: State): State {
    match SelectedEntry(s)
    case None => s
    case Some(e) => s.(marked := if e.path in s.marked then s.marked - {e.path} else s.marked + {e.path})
  }

  /** Remember the cursor of the directory being left. */
  function Snapshot(s: State): State {
    match SelectedEntry(s)
    case None => s
    case Some(e) => s.(history := s.history[s.cwd := e.path])
  }

  function BeginSwitch(s: State): State {
    var t := Snapshot(s.(switchOrigin := Some(s.cwd)));
    t.(marked := {}, query := "", selected := 0, pendingRestore := true)
  }

  /** The first display position whose entry has path `p`. */
  function PositionOf(ranked: seq<nat>, entries: seq<DirEntry>, p: Path): (r: Option<nat>)
    ensures r.Some? ==> r.value < |ranked| && ranked[r.value] < |entries| && entries[ranked[r.value]].path == p
    ensures r.None? ==> forall k | 0 <= k < |ranked| && ranked[k] < |entries| :: entries[ranked[k]].path != p
  {
    if ranked == [] then None
    else if ranked[0] < |entries| && entries[ranked[0]].path == p then Some(0)
    else
      assert forall k | 0 < k < |ranked| :: ranked[k] == ranked[1..][k - 1];
      match PositionOf(ranked[1..], entries, p)
      case None => None
      case Some(k) => Some(k + 1)
  }

  function RememberedIndex(s: State): nat {
    if s.cwd !in s.history then 0
    else match PositionOf(s.ranked, s.entries, s.history[s.cwd]) case Some(k) => k case None => 0
  }

  /** Going back up will land on the directory just entered. */
  function RecordParent(s: State): State {
    match Parent(s.cwd) case None => s case Some(p) => s.(history := s.history[p := s.cwd])
  }

  function FinishSwitch(m: Ranking.Matcher, s: State, entries: seq<DirEntry>): State {
    var t := Recompute(m, s.(entries := entries));
    var u := if t.pendingRestore
             then RecordParent(t.(selected := RememberedIndex(t))).(pendingRestore := false)
             else t.(selected := 0);
    u.(switchOrigin := None)
  }

  function CommitSwitch(m: Ranking.Matcher, s: State, cwd: Path, entries: seq<DirEntry>): State {
    var t := Recompute(m, Snapshot(s).(cwd := cwd, entries := entries, query := "", marked := {}));
    RecordParent(t.(selected := RememberedIndex(t))).(switchOrigin := None)
  }

  function RevertSwitch(m: Ranking.Matcher, s: State): State {
    match s.switchOrigin
    case None => s
    case Some(origin) =>
      var back := s.(cwd := origin, switchOrigin := None, query := "", marked := {}, pendingRestore := false);
      var t := Recompute(m, back);
      t.(selected := ClampIndex(RememberedIndex(t), |t.ranked|))
  }

  function Decision(s: State, key: Key): Option<NavDecision> {
    match key.code
    case Up => Some(CursorMoved)
    case Down => Some(CursorMoved)
    case Left => Some(StepUp)
    case Backspace => if s.query == "" then Some(Noop) else Some(QueryChanged)
    case Char(c) =>
      if key.ctrl then (if c == 'p' || c == 'n' then Some(CursorMoved) else None) else Some(QueryChanged)
    case _ => None
  }

  function ApplyNavKey(m: Ranking.Matcher, s: State, key: Key): State {
    match key.code
    case Up => MoveCursor(s, -1)
    case Down => MoveCursor(s, 1)
    case Backspace =>
      if s.query == "" then s
      else
        var t := Recompute(m, s.(query := s.query[..|s.query| - 1]));
        t.(selected := ClampIndex(t.selected, |t.ranked|))
    case Char(c) =>
      if key.ctrl then
        (if c == 'p' then MoveCursor(s, -1) else if c == 'n' then MoveCursor(s, 1) else s)
      else
        Recompute(m, s.(query := s.query + [c])).(selected := 0)
    case _ => s
  }

  // ---- the browser object ----

  class BrowserCore {
    const matcher: Ranking.Matcher
    var cwd: Path
    var entries: seq<DirEntry>
    var query: string
    var ranked: seq<nat>
    var selected: nat
    var marked: set<Path>
    var history: map<Path, Path>
    var pendingRestore: bool
    var switchOrigin: Option<Path>

    function Value(): State
      reads this
    {
      State(cwd, entries, query, ranked, selected, marked, history, pendingRestore, switchOrigin)
    }

    constructor (matcher: Ranking.Matcher, initialCwd: Path)
      ensures this.matcher == matcher
      ensures Value() == Fresh(initialCwd)
    {
      this.matcher := matcher;
      cwd, entries, query, ranked, selected := initialCwd, [], "", [], 0;
      marked, history, pendingRestore, switchOrigin := {}, map[], false, None;
    }

    method DoRecompute()
      modifies this
      ensures Value() == Recompute(matcher, old(Value()))
    {
      ranked := Ranking.RankByFields(matcher, NameRows(entries), Zeros(|entries|), query);
    }

    method DoMoveCursor(delta: int)
      modifies this
      ensures Value() == MoveCursor(old(Value()), delta)
    {
      if ranked == [] { return; }
      selected := (selected + delta) % |ranked|;
    }

    method DoToggleMark() returns (path: Option<Path>)
      modifies this
      ensures Value() == ToggleMark(old(Value()))
      ensures path == match SelectedEntry(old(Value())) case None => None case Some(e) => Some(e.path)
    {
      var entry := SelectedEntry(Value());
      if entry.None? { return None; }
      if entry.value.path in marked {
        marked := marked - {entry.value.path};
      } else {
        marked := marked + {entry.value.path};
      }
      return Some(entry.value.path);
    }

    method DoBeginSwitch()
      modifies this
      ensures Value() == BeginSwitch(old(Value()))
    {
      switchOrigin := Some(cwd);
      var entry := SelectedEntry(Value());
      if entry.Some? {
        history := history[cwd := entry.value.path];
      }
      marked := {};
      query := "";
      selected := 0;
      pendingRestore := true;
    }

    method DoFinishSwitch(newEntries: seq<DirEntry>)
      modifies this
      ensures Value() == FinishSwitch(matcher, old(Value()), newEntries)
    {
      hide RankEntries;
      entries := newEntries;
      DoRecompute();
      if pendingRestore {
        selected := RememberedIndex(Value());
        var parent := Parent(cwd);
        if parent.Some? {
          history := history[parent.value := cwd];
        }
        pendingRestore := false;
      } else {
        selected := 0;
      }
      switchOrigin := None;
    }

    method DoCommitSwitch(newCwd: Path, newEntries: seq<DirEntry>)
      modifies this
      ensures Value() == CommitSwitch(matcher, old(Value()), newCwd, newEntries)
    {
      hide RankEntries;
      ghost var start := Value();
      var entry := SelectedEntry(Value());
      if entry.Some? {
        history := history[cwd := entry.value.path];
      }
      cwd := newCwd;
      entries := newEntries;
      query := "";
      marked := {};
      ghost var cleared := Snapshot(start).(cwd := newCwd, entries := newEntries, query := "", marked := {});
      assert Value() == cleared;
      DoRecompute();
      assert Value() == Recompute(matcher, cleared);
      selected := RememberedIndex(Value());
      assert Value() == Recompute(matcher, cleared).(selected := RememberedIndex(Recompute(matcher, cleared)));
      var parent := Parent(cwd);
      if parent.Some? {
        history := history[parent.value := cwd];
      }
      switchOrigin := None;
    }

    method DoRevertSwitch()
      modifies this
      ensures Value() == RevertSwitch(matcher, old(Value()))
    {
      hide RankEntries;
      if switchOrigin.None? { return; }
      cwd := switchOrigin.value;
      switchOrigin := None;
      query := "";
      marked := {};
      pendingRestore := false;
      ghost var cleared := Value();
      DoRecompute();
      assert Value() == Recompute(matcher, cleared);
      selected := RememberedIndex(Value());
      selected := ClampIndex(selected, |ranked|);
    }

    method DoNavKey(key: Key) returns (decision: Option<NavDecision>)
      modifies this
      ensures Value() == ApplyNavKey(matcher, old(Value()), key)
      ensures decision == Decision(old(Value()), key)
    {
      hide RankEntries;
      decision := Decision(Value(), key);
      match key.code
      case Up => DoMoveCursor(-1);
      case Down => DoMoveCursor(1);
      case Backspace =>
        if query != "" {
          query := query[..|query| - 1];
          DoRecompute();
          selected := ClampIndex(selected, |ranked|);
        }
      case Char(c) =>
        if key.ctrl {
          if c == 'p' { DoMoveCursor(-1); }
          else if c == 'n' { DoMoveCursor(1); }
        } else {
          query := query + [c];
          DoRecompute();
          selected := 0;
        }
      case _ =>
    }
  }

  // ---- ranking facts the browser rests on ----

  lemma RankEntriesValid(m: Ranking.Matcher, entries: seq<DirEntry>, query: string)
    ensures forall k | 0 <= k < |RankEntries(m, entries, query)| :: RankEntries(m, entries, query)[k] < |entries|
    ensures forall a, b | 0 <= a < b < |RankEntries(m, entries, query)| ::
              RankEntries(m, entries, query)[a] != RankEntries(m, entries, query)[b]
  {
    hide Ranking.Rank;
    Ranking.RankValid(m, NameRows(entries), Zeros(|entries|), query);
  }

  /** With an empty filter every listed path has a display position. */
  lemma UnfilteredShowsPath(m: Ranking.Matcher, entries: seq<DirEntry>, i: nat)
    requires i < |entries|
    ensures PositionOf(RankEntries(m, entries, ""), entries, entries[i].path).Some?
  {
    hide Ranking.Rank;
    Ranking.EmptyQueryShowsAll(m, NameRows(entries), Zeros(|entries|));
    RankEntriesValid(m, entries, "");
    var r := RankEntries(m, entries, "");
    assert i in r;
    var k :| 0 <= k < |r| && r[k] == i;
    assert entries[r[k]].path == entries[i].path;
  }

  // ---- the two-phase switch ----

  function TwoPhaseSwitch(m: Ranking.Matcher, s: State, cwd: Path, entries: seq<DirEntry>): State {
    FinishSwitch(m, BeginSwitch(s).(cwd := cwd), entries)
  }

  function FailedSwitch(m: Ranking.Matcher, s: State, target: Path): State {
    RevertSwitch(m, BeginSwitch(s).(cwd := target))
  }

  /** The asynchronous switch ends in the state of the atomic one, in every
      field, exactly when no earlier begin was still waiting to be finished. */
  lemma TwoPhaseRefinesAtomic(m: Ranking.Matcher, s: State, cwd: Path, entries: seq<DirEntry>)
    ensures TwoPhaseSwitch(m, s, cwd, entries) == CommitSwitch(m, s, cwd, entries) <==> !s.pendingRestore
  {
    hide RankEntries;
    var t := Recompute(m, BeginSwitch(s).(cwd := cwd, entries := entries));
    var u := Recompute(m, Snapshot(s).(cwd := cwd, entries := entries, query := "", marked := {}));
    assert RememberedIndex(t) == RememberedIndex(u);
  }

  /** A switch whose listing fails leaves the origin on screen, unfiltered, with
      the cursor on the entry it was on, even if a filter was active. */
  lemma FailedSwitchIsUndone(m: Ranking.Matcher, s: State, target: Path)
    ensures var t := FailedSwitch(m, s, target);
            && t.cwd == s.cwd && t.entries == s.entries
            && t.query == "" && t.marked == {} && t.ranked == RankEntries(m, s.entries, "")
            && !t.pendingRestore && t.switchOrigin == None
            && (SelectedEntry(s).Some? ==>
                  SelectedEntry(t).Some? && SelectedEntry(t).value.path == SelectedEntry(s).value.path)
            && RevertSwitch(m, t) == t
  {
    hide RankEntries;
    var t := FailedSwitch(m, s, target);
    RankEntriesValid(m, s.entries, "");
    if SelectedEntry(s).Some? {
      UnfilteredShowsPath(m, s.entries, s.ranked[s.selected]);
      assert t.history[t.cwd] == SelectedEntry(s).value.path;
    }
  }

  // ---- runs ----

  /** One complete user-visible step of a browser. `ClearQuery` is Esc in a pane
      that is filtering. Tab completes from the entry under the cursor, or from
      the found entry `name` while results of a search cover the list; `Jump` is
      Enter on a found directory. */
  datatype Op = Commit(dir: Path, entries: seq<DirEntry>)
              | TwoPhase(dir: Path, entries: seq<DirEntry>)
              | Failed(target: Path)
              | Refresh(entries: seq<DirEntry>)
              | NavKey(key: Key)
              | Mark
              | ClearQuery
              | Complete
              | CompleteFound(name: string, isDir: bool)
              | Jump

  function LastSlash(s: string): nat
    ensures LastSlash(s) <= |s|
  {
    if s == "" then 0 else if s[|s| - 1] == '/' then |s| else LastSlash(s[..|s| - 1])
  }

  function TrimSlashes(s: string): string {
    if s != "" && s[|s| - 1] == '/' then TrimSlashes(s[..|s| - 1]) else s
  }

  /** The typed segments stay, the last one becomes `name`. */
  function Extended(query: string, name: string, isDir: bool): string {
    var q := query[..LastSlash(query)] + name;
    if isDir then q + "/" else q
  }

  /** The query Tab completes to from the entry under the cursor. */
  function Completion(s: State): Option<string> {
    if s.query == "" then None
    else match SelectedEntry(s)
      case None => None
      case Some(e) => Some(Extended(s.query, TrimSlashes(e.name), e.isDir))
  }

  /** The query that a step sets without pulling the cursor back. */
  function Unclamped(s: State, op: Op): Option<string> {
    match op
    case Complete => Completion(s)
    case CompleteFound(name, isDir) => if s.query == "" then None else Some(Extended(s.query, name, isDir))
    case Jump => Some("")
    case _ => None
  }

  function Apply(m: Ranking.Matcher, s: State, op: Op): State {
    match op
    case Commit(dir, es) => CommitSwitch(m, s, dir, es)
    case TwoPhase(dir, es) => TwoPhaseSwitch(m, s, dir, es)
    case Failed(target) => FailedSwitch(m, s, target)
    case Refresh(es) => FinishSwitch(m, s, es)
    case NavKey(key) => ApplyNavKey(m, s, key)
    case Mark => ToggleMark(s)
    case ClearQuery =>
      var t := Recompute(m, s.(query := ""));
      t.(selected := ClampIndex(t.selected, |t.ranked|))
    case _ =>
      match Unclamped(s, op)
      case None => s
      case Some(q) => Recompute(m, s.(query := q))
  }

  function Run(m: Ranking.Matcher, s: State, ops: seq<Op>): State
    decreases |ops|
  {
    if ops == [] then s else Apply(m, Run(m, s, ops[..|ops| - 1]), ops[|ops| - 1])
  }

  // ---- cursor memory over whole runs ----

  /** No switch is half done. */
  predicate Settled(s: State) {
    !s.pendingRestore && s.switchOrigin == None
  }

  /** Every directory the step adopts lies at or below `d`. */
  predicate StaysBelow(op: Op, d: Path) {
    (op.Commit? || op.TwoPhase? ==> AtOrBelow(op.dir, d))
  }

  /** While the browser is at or below `d`, its parent remembers `d`. */
  predicate RemembersChild(s: State, d: Path) {
    && Settled(s)
    && AtOrBelow(s.cwd, d)
    && d.parts != []
    && Parent(d).value in s.history
    && s.history[Parent(d).value] == d
  }

  lemma ParentIsAbove(p: Path, d: Path)
    requires AtOrBelow(p, d) && d.parts != []
    ensures p != Parent(d).value
    ensures p != d ==> Parent(p).Some? && Parent(p).value != Parent(d).value
  {
    if p != d {
      assert p.parts[..|d.parts|] == d.parts;
      assert p.parts[..|p.parts|] == p.parts;
      assert |p.parts| > |d.parts|;
    }
  }

  lemma SettledSwitch(m: Ranking.Matcher, s: State, op: Op)
    requires Settled(s) && (op.Commit? || op.TwoPhase?)
    ensures Apply(m, s, op) == CommitSwitch(m, s, op.dir, op.entries)
  {
    hide RankEntries;
    TwoPhaseRefinesAtomic(m, s, op.dir, op.entries);
  }

  lemma StepRemembersChild(m: Ranking.Matcher, s: State, op: Op, d: Path)
    requires RemembersChild(s, d) && StaysBelow(op, d)
    ensures RemembersChild(Apply(m, s, op), d)
  {
    hide RankEntries;
    ParentIsAbove(s.cwd, d);
    if op.Commit? || op.TwoPhase? {
      SettledSwitch(m, s, op);
      ParentIsAbove(op.dir, d);
    }
  }

  lemma {:induction false} RunRemembersChild(m: Ranking.Matcher, s: State, ops: seq<Op>, d: Path)
    requires RemembersChild(s, d)
    requires forall k | 0 <= k < |ops| :: StaysBelow(ops[k], d)
    ensures RemembersChild(Run(m, s, ops), d)
    decreases |ops|
  {
    if ops != [] {
      RunRemembersChild(m, s, ops[..|ops| - 1], d);
      StepRemembersChild(m, Run(m, s, ops[..|ops| - 1]), ops[|ops| - 1], d);
    }
  }

  /** Adopting a listing that contains the remembered entry puts the cursor on it. */
  lemma SwitchLandsOnRemembered(m: Ranking.Matcher, s: State, cwd: Path, entries: seq<DirEntry>, i: nat)
    requires s.cwd != cwd && cwd in s.history
    requires i < |entries| && entries[i].path == s.history[cwd]
    ensures var t := CommitSwitch(m, s, cwd, entries);
            t.cwd == cwd && SelectedEntry(t).Some? && SelectedEntry(t).value.path == s.history[cwd]
  {
    hide RankEntries;
    UnfilteredShowsPath(m, entries, i);
    var t := Recompute(m, Snapshot(s).(cwd := cwd, entries := entries, query := "", marked := {}));
    assert t.history[t.cwd] == s.history[cwd];
  }

  /** Ranger-style memory: enter `d`, wander anywhere at or below it with any
      mix of switches, failed switches, refreshes, keys, marks and completions,
      then go back to its parent: the cursor is on `d`. */
  lemma ReturningLandsOnChild(m: Ranking.Matcher, s: State, enter: Op, ops: seq<Op>, back: Op)
    requires Settled(s)
    requires (enter.Commit? || enter.TwoPhase?) && enter.dir.parts != []
    requires forall k | 0 <= k < |ops| :: StaysBelow(ops[k], enter.dir)
    requires (back.Commit? || back.TwoPhase?) && Some(back.dir) == Parent(enter.dir)
    requires exists i :: 0 <= i < |back.entries| && back.entries[i].path == enter.dir
    ensures var t := Apply(m, Run(m, Apply(m, s, enter), ops), back);
            && t.cwd == back.dir
            && SelectedEntry(t).Some? && SelectedEntry(t).value.path == enter.dir
  {
    hide RankEntries;
    var d, inside := enter.dir, Apply(m, s, enter);
    EnterRemembersChild(m, s, enter);
    RunRemembersChild(m, inside, ops, d);
    var last := Run(m, inside, ops);
    SettledSwitch(m, last, back);
    ParentIsAbove(last.cwd, d);
    var i :| 0 <= i < |back.entries| && back.entries[i].path == d;
    SwitchLandsOnRemembered(m, last, back.dir, back.entries, i);
  }

  lemma EnterRemembersChild(m: Ranking.Matcher, s: State, enter: Op)
    requires Settled(s) && (enter.Commit? || enter.TwoPhase?) && enter.dir.parts != []
    ensures RemembersChild(Apply(m, s, enter), enter.dir)
  {
    hide RankEntries;
    SettledSwitch(m, s, enter);
  }

  // ---- the cursor is always on a visible row ----

  predicate CursorInRange(s: State) {
    if s.ranked == [] then s.selected == 0 else s.selected < |s.ranked|
  }

  /** The ranked list is a list of distinct rows of the listing, and the cursor
      is on one of them. */
  ghost predicate Sound(s: State) {
    && (forall k | 0 <= k < |s.ranked| :: s.ranked[k] < |s.entries|)
    && (forall a, b | 0 <= a < b < |s.ranked| :: s.ranked[a] != s.ranked[b])
    && CursorInRange(s)
  }

  /** The number of entries whose name matches the query. */
  function Matching(m: Ranking.Matcher, entries: seq<DirEntry>, query: string): nat {
    if entries == [] then 0
    else
      var last := entries[|entries| - 1];
      Matching(m, entries[..|entries| - 1], query) + (if query == "" || m(last.name, query).Some? then 1 else 0)
  }

  lemma {:induction false} KeptAreMatching(m: Ranking.Matcher, entries: seq<DirEntry>, query: string, n: nat)
    requires n <= |entries|
    ensures |Ranking.KeptRows(m, NameRows(entries), query, n)| == Matching(m, entries[..n], query)
  {
    if n > 0 {
      KeptAreMatching(m, entries, query, n - 1);
      assert entries[..n][..n - 1] == entries[..n - 1];
    }
  }

  lemma RankedAreMatching(m: Ranking.Matcher, entries: seq<DirEntry>, query: string)
    ensures |RankEntries(m, entries, query)| == Matching(m, entries, query)
  {
    Ranking.RankLength(m, NameRows(entries), Zeros(|entries|), query);
    KeptAreMatching(m, entries, query, |entries|);
    assert entries[..|entries|] == entries;
  }

  /** Every step keeps the cursor on a row, except that Tab-completion narrows
      the list without pulling the cursor back: it keeps the cursor exactly when
      the cursor is on the first row or more entries match the new query than
      there are rows above the cursor. */
  lemma StepKeepsCursor(m: Ranking.Matcher, s: State, op: Op)
    requires Sound(s)
    ensures Sound(Apply(m, s, op))
            <==> (Unclamped(s, op).Some? ==>
                    s.selected == 0 || s.selected < Matching(m, s.entries, Unclamped(s, op).value))
  {
    hide RankEntries, ApplyNavKey, CommitSwitch, TwoPhaseSwitch, FailedSwitch, FinishSwitch, Completion, Matching;
    var t := Apply(m, s, op);
    RankEntriesValid(m, t.entries, t.query);
    RankedAreMatching(m, s.entries, t.query);
    match op
    case Commit(dir, es) => SwitchKeepsCursor(m, s, op);
    case TwoPhase(dir, es) => SwitchKeepsCursor(m, s, op);
    case Failed(target) => SwitchKeepsCursor(m, s, op);
    case Refresh(es) => SwitchKeepsCursor(m, s, op);
    case NavKey(key) => NavKeyKeepsCursor(m, s, key);
    case _ =>
  }

  /** A jump drops the filter, and the whole listing has room for any cursor. */
  lemma JumpKeepsCursor(m: Ranking.Matcher, s: State)
    requires Sound(s)
    ensures Sound(Apply(m, s, Jump))
  {
    hide Ranking.Rank, Apply, Matching;
    StepKeepsCursor(m, s, Jump);
    Ranking.EmptyQueryShowsAll(m, NameRows(s.entries), Zeros(|s.entries|));
    RankedAreMatching(m, s.entries, "");
    RowsAreFew(s.ranked, |s.entries|);
  }

  /** Distinct rows of a list of `n` are at most `n`. */
  lemma {:induction false} RowsAreFew(rows: seq<nat>, n: nat)
    requires forall k | 0 <= k < |rows| :: rows[k] < n
    requires forall a, b | 0 <= a < b < |rows| :: rows[a] != rows[b]
    ensures |rows| <= n
  {
    if rows != [] {
      assert rows[0] < n;
      if k: nat :| k < |rows| && rows[k] == n - 1 {
        RowsAreFew(rows[..k] + rows[k + 1..], n - 1);
      } else {
        RowsAreFew(rows, n - 1);
      }
    }
  }

  lemma SwitchKeepsCursor(m: Ranking.Matcher, s: State, op: Op)
    requires Sound(s) && (op.Commit? || op.TwoPhase? || op.Failed? || op.Refresh?)
    ensures Sound(Apply(m, s, op))
  {
    hide RankEntries, ApplyNavKey, ToggleMark, Completion;
    var t := Apply(m, s, op);
    RankEntriesValid(m, t.entries, t.query);
  }

  lemma NavKeyKeepsCursor(m: Ranking.Matcher, s: State, key: Key)
    requires Sound(s)
    ensures Sound(ApplyNavKey(m, s, key))
  {
    hide RankEntries, Recompute, MoveCursor, Sound;
    MoveKeepsCursor(s, -1);
    MoveKeepsCursor(s, 1);
    match key.code
    case Backspace => if s.query != "" { RecomputeClamped(m, s, s.query[..|s.query| - 1]); }
    case Char(c) => if !key.ctrl { RecomputeClamped(m, s, s.query + [c]); }
    case _ =>
  }

  lemma MoveKeepsCursor(s: State, delta: int)
    requires Sound(s)
    ensures Sound(MoveCursor(s, delta))
  {
  }

  /** A new query puts the cursor back into range, or onto the first row. */
  lemma RecomputeClamped(m: Ranking.Matcher, s: State, query: string)
    ensures var t := Recompute(m, s.(query := query));
            Sound(t.(selected := ClampIndex(t.selected, |t.ranked|))) && Sound(t.(selected := 0))
  {
    hide RankEntries;
    RankEntriesValid(m, s.entries, query);
  }

  predicate Completes(op: Op) {
    op.Complete? || op.CompleteFound?
  }

  lemma {:induction false} RunKeepsCursor(m: Ranking.Matcher, s: State, ops: seq<Op>)
    requires Sound(s)
    requires forall k | 0 <= k < |ops| :: !Completes(ops[k])
    ensures Sound(Run(m, s, ops))
    decreases |ops|
  {
    if ops != [] {
      RunKeepsCursor(m, s, ops[..|ops| - 1]);
      var t, last := Run(m, s, ops[..|ops| - 1]), ops[|ops| - 1];
      StepKeepsCursor(m, t, last);
      if last.Jump? { JumpKeepsCursor(m, t); }
    }
  }

  function VisibleWindow(s: State, rows: nat): (nat, nat) {
    Fit.FocusWindow(|s.ranked|, s.selected, rows)
  }

  /** From a fresh browser, after any run without Tab-completion, a viewport of
      at least one row shows the cursor whenever the list is not empty. */
  lemma CursorIsVisible(m: Ranking.Matcher, start: Path, ops: seq<Op>, rows: nat)
    requires forall k | 0 <= k < |ops| :: !Completes(ops[k])
    requires rows >= 1
    ensures var s := Run(m, Fresh(start), ops);
            s.ranked != [] ==>
              SelectedEntry(s).Some? && VisibleWindow(s, rows).0 <= s.selected < VisibleWindow(s, rows).1
  {
    RunKeepsCursor(m, Fresh(start), ops);
    var s := Run(m, Fresh(start), ops);
    Fit.FocusWindowShowsSelection(|s.ranked|, s.selected, rows);
  }

  /** A matcher for the example below: a field matches the queries it starts with. */
  function PrefixMatcher(field: string, query: string): Option<nat> {
    if query <= field then Some(1) else None
  }

  function ExampleListing(): seq<DirEntry> {
    [DirEntry("a", Path(true, ["a"]), false, false, None, None),
     DirEntry("ab", Path(true, ["ab"]), false, false, None, None)]
  }

  lemma ExampleRankings()
    ensures RankEntries(PrefixMatcher, ExampleListing(), "a") == [0, 1]
    ensures RankEntries(PrefixMatcher, ExampleListing(), "ab") == [1]
  {
    hide Ranking.Rank;
    assert NameRows(ExampleListing()) == [["a"], ["ab"]];
    ExampleFirst();
    ExampleSecond();
  }

  lemma ExampleFirst()
    ensures Ranking.Rank(PrefixMatcher, [["a"], ["ab"]], Zeros(2), "a") == [0, 1]
  {
    hide Ranking.Rank, Ranking.BestFieldScore, PrefixMatcher;
    var m, rows, zeros, order := PrefixMatcher, [["a"], ["ab"]], Zeros(2), [0, 1];
    ExampleScores("a");
    assert LexLess("a", "ab");
    assert Ranking.Outranks(m, rows, zeros, "a", 0, 1);
    forall i ensures i in order <==> 0 <= i < 2 && Ranking.Kept(m, rows[i], "a") {
      if i == 0 { assert order[0] in order; }
      if i == 1 { assert order[1] in order; }
    }
    Ranking.RankIsTheRanking(m, rows, zeros, "a", order);
  }

  lemma ExampleSecond()
    ensures Ranking.Rank(PrefixMatcher, [["a"], ["ab"]], Zeros(2), "ab") == [1]
  {
    hide Ranking.Rank, Ranking.BestFieldScore, PrefixMatcher;
    var m, rows, zeros, order := PrefixMatcher, [["a"], ["ab"]], Zeros(2), [1];
    ExampleScores("ab");
    forall i ensures i in order <==> 0 <= i < 2 && Ranking.Kept(m, rows[i], "ab") {
      if i == 1 { assert order[0] in order; }
    }
    Ranking.RankIsTheRanking(m, rows, zeros, "ab", order);
  }

  lemma ExampleScores(query: string)
    requires query == "a" || query == "ab"
    ensures Ranking.BestFieldScore(PrefixMatcher, ["a"], query) == if query == "a" then Some(1) else None
    ensures Ranking.BestFieldScore(PrefixMatcher, ["ab"], query) == Some(1)
  {
    assert "a" <= "ab" && "ab" <= "ab" && !("ab" <= "a");
    assert ["a"][0] in ["a"] && ["ab"][0] in ["ab"];
  }

  function Tap(code: Code): Op {
    NavKey(Key(code, false, false, false, true))
  }

  /** Type `a`, move down to `ab`, press Tab: the list shows `ab`, but the cursor
      is on no row. */
  lemma CompletionCanLoseCursor()
    ensures var s := Run(PrefixMatcher, Fresh(Path(true, [])),
                         [Commit(Path(true, []), ExampleListing()), Tap(Char('a')), Tap(Down), Complete]);
            s.ranked == [1] && s.selected == 1 && SelectedEntry(s) == None
  {
    hide RankEntries, CommitSwitch, ApplyNavKey, Completion, ExampleListing, PrefixMatcher;
    var m, es, root := PrefixMatcher, ExampleListing(), Path(true, []);
    var ops := [Commit(root, es), Tap(Char('a')), Tap(Down), Complete];
    assert ops[..3][..2] == ops[..2] && ops[..2][..1] == ops[..1] && ops[..1][..0] == [];
    assert Run(m, Fresh(root), []) == Fresh(root);
    assert Run(m, Fresh(root), ops[..1]) == CommitSwitch(m, Fresh(root), root, es);
    ExampleKeys();
  }

  lemma ExampleKeys()
    ensures var m, root := PrefixMatcher, Path(true, []);
            var s1 := CommitSwitch(m, Fresh(root), root, ExampleListing());
            var s3 := Apply(m, Apply(m, s1, Tap(Char('a'))), Tap(Down));
            && s3.query == "a" && s3.selected == 1 && s3.ranked == [0, 1] && s3.entries == ExampleListing()
            && var s4 := Apply(m, s3, Complete);
            s4.ranked == [1] && s4.selected == 1 && SelectedEntry(s4) == None
  {
    hide RankEntries, PrefixMatcher;
    ExampleRankings();
    var m, root := PrefixMatcher, Path(true, []);
    var s1 := CommitSwitch(m, Fresh(root), root, ExampleListing());
    assert s1.query + ['a'] == "a";
    var s3 := Apply(m, Apply(m, s1, Tap(Char('a'))), Tap(Down));
    assert LastSlash("a") == 0 by { assert "a"[..0] == ""; }
    assert s3.query[..0] + TrimSlashes("ab") == "ab";
  }
}
