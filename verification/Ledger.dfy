/** The transfer ledger (`src/tui/transfer/ledger.rs`) and the queue manager that
    shows it (`src/tui/transfer/queue_overlay.rs`). */
module Ledger {
  import opened Prelude
  import opened DirSource
  import opened Keys

  type TaskId = nat

  datatype Direction = Upload | Download

  datatype Job = Job(direction: Direction, src: Path, dst: Path, name: string,
                     sizeTotal: Option<nat>, recursive: bool)

  datatype Outcome = Succeeded | Cancelled | Failed(reason: string)

  datatype Progress = Progress(bytesDone: nat, bytesTotal: Option<nat>)

  datatype TaskState = Queued | InFlight | Done(outcome: Outcome)

  datatype Task = Task(id: TaskId, folder: bool, job: Job, progress: Option<Progress>, state: TaskState)

  datatype State = State(tasks: seq<Task>, nextId: nat, paused: bool)

  function Empty(): State {
    State([], 0, false)
  }

  // ---- looking tasks up ----

  datatype Pick = Waiting | Running | WithId(id: TaskId) | WasFailed | WasCancelled | WasCopied

  predicate Picks(p: Pick, t: Task) {
    match p
    case Waiting => t.state.Queued?
    case Running => t.state.InFlight?
    case WithId(id) => t.id == id
    case WasFailed => t.state.Done? && t.state.outcome.Failed?
    case WasCancelled => t.state.Done? && t.state.outcome.Cancelled?
    case WasCopied => t.state.Done? && t.state.outcome.Succeeded?
  }

  function First(tasks: seq<Task>, p: Pick): (r: Option<nat>)
    ensures r.Some? ==> r.value < |tasks| && Picks(p, tasks[r.value])
                        && forall j | 0 <= j < r.value :: !Picks(p, tasks[j])
    ensures r.None? ==> forall j | 0 <= j < |tasks| :: !Picks(p, tasks[j])
  {
    if tasks == [] then None
    else if Picks(p, tasks[0]) then Some(0)
    else match First(tasks[1..], p) case Some(i) => Some(i + 1) case None => None
  }

  function Without(tasks: seq<Task>, p: Pick): (r: seq<Task>)
    ensures forall t :: t in r <==> t in tasks && !Picks(p, t)
  {
    if tasks == [] then []
    else (if Picks(p, tasks[0]) then [] else [tasks[0]]) + Without(tasks[1..], p)
  }

  function CountOf(tasks: seq<Task>, p: Pick): nat {
    if tasks == [] then 0
    else (if Picks(p, tasks[0]) then 1 else 0) + CountOf(tasks[1..], p)
  }

  predicate HasInflight(s: State) {
    First(s.tasks, Running).Some?
  }

  function InflightId(s: State): Option<TaskId> {
    match First(s.tasks, Running) case Some(i) => Some(s.tasks[i].id) case None => None
  }

  function JobFor(s: State, id: TaskId): Option<Job> {
    match First(s.tasks, WithId(id)) case Some(i) => Some(s.tasks[i].job) case None => None
  }

  predicate QueueEmpty(s: State) {
    CountOf(s.tasks, Waiting) == 0
  }

  /** The last task that is over, searching from the end. */
  function LastDone(tasks: seq<Task>): (r: Option<nat>)
    ensures r.Some? ==> r.value < |tasks| && tasks[r.value].state.Done?
  {
    if tasks == [] then None
    else if tasks[|tasks| - 1].state.Done? then Some(|tasks| - 1)
    else LastDone(tasks[..|tasks| - 1])
  }

  function LastDirection(s: State): Option<Direction> {
    match First(s.tasks, Running)
    case Some(i) => Some(s.tasks[i].job.direction)
    case None => match LastDone(s.tasks) case Some(i) => Some(s.tasks[i].job.direction) case None => None
  }

  // ---- changing the ledger ----

  function Enqueue(s: State, job: Job): State {
    s.(tasks := s.tasks + [Task(s.nextId, job.recursive, job, None, Queued)], nextId := s.nextId + 1)
  }

  function SetState(s: State, i: nat, state: TaskState): State
    requires i < |s.tasks|
  {
    s.(tasks := s.tasks[i := s.tasks[i].(state := state, progress := None)])
  }

  /** `next_to_dispatch` marks the head of the queue; its progress is untouched. */
  function Start(s: State): (State, Option<TaskId>) {
    if s.paused then (s, None)
    else match First(s.tasks, Waiting)
         case Some(i) => (s.(tasks := s.tasks[i := s.tasks[i].(state := InFlight)]), Some(s.tasks[i].id))
         case None => (s, None)
  }

  function SetProgress(s: State, p: Progress): State {
    match First(s.tasks, Running)
    case Some(i) => s.(tasks := s.tasks[i := s.tasks[i].(progress := Some(p))])
    case None => s
  }

  function Finish(s: State, outcome: Outcome): State {
    match First(s.tasks, Running) case Some(i) => SetState(s, i, Done(outcome)) case None => s
  }

  predicate Retryable(t: Task) {
    Picks(WasFailed, t) || Picks(WasCancelled, t)
  }

  function Retry(s: State, id: TaskId): (State, bool) {
    match First(s.tasks, WithId(id))
    case Some(i) => if Retryable(s.tasks[i]) then (SetState(s, i, Queued), true) else (s, false)
    case None => (s, false)
  }

  function Remove(s: State, id: TaskId): State {
    if exists t :: t in s.tasks && t.id == id && t.state.InFlight? then s
    else s.(tasks := Without(s.tasks, WithId(id)))
  }

  function ClearQueued(s: State): State {
    s.(tasks := Without(s.tasks, Waiting))
  }

  function AbortInflight(s: State): State {
    s.(tasks := Without(s.tasks, Running))
  }

  function TogglePaused(s: State): State {
    s.(paused := !s.paused)
  }

  class TransferLedger {
    var tasks: seq<Task>
    var nextId: nat
    var paused: bool

    ghost function Value(): State
      reads this
    {
      State(tasks, nextId, paused)
    }

    constructor ()
      ensures Value() == Empty()
    {
      tasks, nextId, paused := [], 0, false;
    }

    method DoEnqueue(job: Job) returns (id: TaskId)
      modifies this
      ensures Value() == Enqueue(old(Value()), job) && id == old(nextId)
    {
      id := nextId;
      nextId := nextId + 1;
      tasks := tasks + [Task(id, job.recursive, job, None, Queued)];
    }

    method NextToDispatch() returns (id: Option<TaskId>)
      modifies this`tasks
      ensures (Value(), id) == Start(old(Value()))
    {
      if paused {
        return None;
      }
      var i := First(tasks, Waiting);
      match i
      case None => return None;
      case Some(k) =>
        tasks := tasks[k := tasks[k].(state := InFlight)];
        return Some(tasks[k].id);
    }

    method SetInflightProgress(p: Progress)
      modifies this`tasks
      ensures Value() == SetProgress(old(Value()), p)
    {
      var i := First(tasks, Running);
      if i.Some? {
        tasks := tasks[i.value := tasks[i.value].(progress := Some(p))];
      }
    }

    method FinishInflight(outcome: Outcome)
      modifies this`tasks
      ensures Value() == Finish(old(Value()), outcome)
    {
      var i := First(tasks, Running);
      if i.Some? {
        tasks := tasks[i.value := tasks[i.value].(state := Done(outcome), progress := None)];
      }
    }

    method DoRetry(id: TaskId) returns (retryable: bool)
      modifies this`tasks
      ensures (Value(), retryable) == Retry(old(Value()), id)
    {
      var i := First(tasks, WithId(id));
      if i.None? {
        return false;
      }
      retryable := Retryable(tasks[i.value]);
      if retryable {
        tasks := tasks[i.value := tasks[i.value].(state := Queued, progress := None)];
      }
    }

    method DoRemove(id: TaskId) returns (removed: bool)
      modifies this`tasks
      ensures Value() == Remove(old(Value()), id)
      ensures removed == (|Remove(old(Value()), id).tasks| < |old(tasks)|)
    {
      if exists t :: t in tasks && t.id == id && t.state.InFlight? {
        return false;
      }
      var before := |tasks|;
      tasks := Without(tasks, WithId(id));
      removed := |tasks| < before;
    }

    method DoClearQueued()
      modifies this`tasks
      ensures Value() == ClearQueued(old(Value()))
    {
      tasks := Without(tasks, Waiting);
    }

    method DoAbortInflight()
      modifies this`tasks
      ensures Value() == AbortInflight(old(Value()))
    {
      tasks := Without(tasks, Running);
    }

    method DoTogglePaused()
      modifies this`paused
      ensures Value() == TogglePaused(old(Value()))
    {
      paused := !paused;
    }
  }

  // ---- what every operation keeps ----

  ghost predicate Ascending(tasks: seq<Task>) {
    forall i, j | 0 <= i < j < |tasks| :: tasks[i].id < tasks[j].id
  }

  ghost predicate OneRunning(tasks: seq<Task>) {
    forall i, j | 0 <= i < j < |tasks| :: !(tasks[i].state.InFlight? && tasks[j].state.InFlight?)
  }

  ghost predicate Plausible(t: Task, nextId: nat) {
    t.id < nextId && (t.progress.Some? ==> t.state.InFlight?)
  }

  /** Tasks stay in the order they were added; progress is shown only while a
      task runs; at most one runs. */
  ghost predicate Sound(s: State) {
    Ascending(s.tasks) && OneRunning(s.tasks) && forall t | t in s.tasks :: Plausible(t, s.nextId)
  }

  lemma PrependKeepsOrder(head: Task, r: seq<Task>)
    requires Ascending(r) && OneRunning(r)
    requires forall t | t in r :: head.id < t.id && !(head.state.InFlight? && t.state.InFlight?)
    ensures Ascending([head] + r) && OneRunning([head] + r)
  {
    var u := [head] + r;
    forall i, j | 0 <= i < j < |u|
      ensures u[i].id < u[j].id && !(u[i].state.InFlight? && u[j].state.InFlight?)
    {
      assert u[j] == r[j - 1] && r[j - 1] in r;
      if i > 0 {
        assert u[i] == r[i - 1];
      }
    }
  }

  lemma {:induction false} WithoutKeepsOrder(tasks: seq<Task>, p: Pick)
    requires Ascending(tasks) && OneRunning(tasks)
    ensures Ascending(Without(tasks, p)) && OneRunning(Without(tasks, p))
  {
    hide Picks;
    if tasks != [] {
      var head, rest := tasks[0], tasks[1..];
      WithoutKeepsOrder(rest, p);
      PrependKeepsOrder(head, Without(rest, p)) by {
        forall t | t in rest ensures head.id < t.id && !(head.state.InFlight? && t.state.InFlight?) { }
      }
    }
  }

  lemma UpdateKeepsSound(s: State, i: nat, t: Task)
    requires Sound(s) && i < |s.tasks| && t.id == s.tasks[i].id
    requires t.progress.Some? ==> t.state.InFlight?
    requires t.state.InFlight? ==> s.tasks[i].state.InFlight? || First(s.tasks, Running).None?
    ensures Sound(s.(tasks := s.tasks[i := t]))
  {
    assert s.tasks[i] in s.tasks;
    var u := s.tasks[i := t];
    forall x | x in u ensures Plausible(x, s.nextId) {
      assert x == t || x in s.tasks;
    }
  }

  /** One edit of the ledger; every way it changes but starting a task. */
  datatype Edit = Add(job: Job) | End(outcome: Outcome) | Redo(id: TaskId) | Drop(id: TaskId)
                | Tick(progress: Progress) | DropWaiting | DropRunning | Pause

  function ApplyEdit(s: State, e: Edit): State {
    match e
    case Add(job) => Enqueue(s, job)
    case End(outcome) => Finish(s, outcome)
    case Redo(id) => Retry(s, id).0
    case Drop(id) => Remove(s, id)
    case Tick(progress) => SetProgress(s, progress)
    case DropWaiting => ClearQueued(s)
    case DropRunning => AbortInflight(s)
    case Pause => TogglePaused(s)
  }

  /** Every edit keeps the ledger sound, unconditionally. */
  lemma EditKeepsSound(s: State, e: Edit)
    requires Sound(s)
    ensures Sound(ApplyEdit(s, e))
  {
    hide Without, First;
    match e
    case Add(job) =>
      var u := Enqueue(s, job).tasks;
      forall k | 0 <= k < |s.tasks| ensures u[k] in s.tasks { }
    case End(outcome) =>
      var i := First(s.tasks, Running);
      if i.Some? { UpdateKeepsSound(s, i.value, SetState(s, i.value, Done(outcome)).tasks[i.value]); }
    case Redo(id) =>
      var i := First(s.tasks, WithId(id));
      if i.Some? { UpdateKeepsSound(s, i.value, SetState(s, i.value, Queued).tasks[i.value]); }
    case Drop(id) => WithoutKeepsOrder(s.tasks, WithId(id));
    case Tick(p) =>
      var i := First(s.tasks, Running);
      if i.Some? { UpdateKeepsSound(s, i.value, s.tasks[i.value].(progress := Some(p))); }
    case DropWaiting => WithoutKeepsOrder(s.tasks, Waiting);
    case DropRunning => WithoutKeepsOrder(s.tasks, Running);
    case Pause =>
  }

  /** The ledger does not guard itself against a second running task: starting
      one is safe exactly when nothing would start or nothing runs. */
  lemma StartKeepsSound(s: State)
    requires Sound(s)
    ensures Sound(Start(s).0) <==> s.paused || First(s.tasks, Waiting).None? || !HasInflight(s)
  {
    hide First;
    var i, r := First(s.tasks, Waiting), First(s.tasks, Running);
    if !s.paused && i.Some? {
      var t := s.tasks[i.value].(state := InFlight);
      if r.Some? {
        assert s.tasks[i.value := t][i.value].state.InFlight? && s.tasks[i.value := t][r.value].state.InFlight?;
      } else {
        assert s.tasks[i.value] in s.tasks;
        UpdateKeepsSound(s, i.value, t);
      }
    }
  }

  /** First in, first out, retries included: what starts is the oldest waiting
      task; it goes into flight with its job as it is, and nothing else changes. */
  lemma StartTakesOldest(s: State)
    requires Sound(s)
    ensures var (t, id) := Start(s);
            && (id.Some? <==> !s.paused && exists w :: w in s.tasks && w.state.Queued?)
            && (id.None? ==> t == s)
            && (id.Some? ==>
                 && InflightId(t).Some?
                 && JobFor(t, id.value).Some?
                 && (forall w | w in s.tasks && w.state.Queued? :: id.value <= w.id)
                 && t.nextId == s.nextId && t.paused == s.paused
                 && |t.tasks| == |s.tasks|
                 && (forall k | 0 <= k < |s.tasks| && s.tasks[k].id != id.value :: t.tasks[k] == s.tasks[k])
                 && (forall k | 0 <= k < |s.tasks| && s.tasks[k].id == id.value ::
                       && s.tasks[k].state.Queued?
                       && t.tasks[k] == s.tasks[k].(state := InFlight)
                       && JobFor(t, id.value) == Some(s.tasks[k].job)))
  {
    var i := First(s.tasks, Waiting);
    if !s.paused && i.Some? {
      var t := Start(s).0;
      assert t.tasks[i.value].state.InFlight? && t.tasks[i.value].id == s.tasks[i.value].id;
      assert s.tasks[i.value] in s.tasks;
    }
  }

  /** With one task running, the lookups find it. */
  lemma FindInflight(s: State, k: nat)
    requires Sound(s) && k < |s.tasks| && s.tasks[k].state.InFlight?
    ensures First(s.tasks, Running) == Some(k)
    ensures First(s.tasks, WithId(s.tasks[k].id)) == Some(k)
  {
  }

  /** The running task, wherever it stands in the list, is what the lookups see. */
  lemma ElementRuns(s: State, t: Task)
    requires Sound(s) && t in s.tasks && t.state.InFlight?
    ensures HasInflight(s) && InflightId(s) == Some(t.id) && LastDirection(s) == Some(t.job.direction)
    ensures JobFor(s, t.id) == Some(t.job)
  {
    hide First;
    var k :| 0 <= k < |s.tasks| && s.tasks[k] == t;
    FindInflight(s, k);
  }

  lemma NothingRuns(s: State)
    requires forall t | t in s.tasks :: !t.state.InFlight?
    ensures !HasInflight(s) && InflightId(s) == None
  {
    hide First;
  }

  /** The user's edits and progress reports leave the running task running. */
  lemma EditKeepsRunning(s: State, e: Edit)
    requires Sound(s) && (e.Add? || e.Redo? || e.Drop? || e.Tick? || e.Pause?)
    ensures InflightId(ApplyEdit(s, e)) == InflightId(s) && HasInflight(ApplyEdit(s, e)) == HasInflight(s)
    ensures HasInflight(s) ==> LastDirection(ApplyEdit(s, e)) == LastDirection(s)
  {
    hide First, Without;
    EditKeepsSound(s, e);
    var t, i := ApplyEdit(s, e), First(s.tasks, Running);
    if i.Some? {
      var r := s.tasks[i.value];
      assert r in s.tasks;
      ElementRuns(s, r);
      if e.Tick? {
        assert t.tasks[i.value] in t.tasks;
        ElementRuns(t, t.tasks[i.value]);
      } else {
        assert r in t.tasks by {
          if e.Redo? {
            assert t.tasks[i.value] == r;
          } else if e.Add? {
            assert t.tasks[i.value] == r;
          }
        }
        ElementRuns(t, r);
      }
    } else {
      forall u | u in t.tasks ensures !u.state.InFlight? {
        if u !in s.tasks {
        }
      }
      NothingRuns(t);
    }
  }

  /** Finishing leaves nothing running. */
  lemma FinishStops(s: State, outcome: Outcome)
    requires Sound(s)
    ensures !HasInflight(Finish(s, outcome))
  {
    hide First;
    var i := First(s.tasks, Running);
    if i.Some? {
      NothingRuns(Finish(s, outcome));
    }
  }

  /** Dropping the batch leaves nothing running and nothing waiting. */
  lemma BatchIsGone(s: State)
    ensures var t := ClearQueued(AbortInflight(s));
            !HasInflight(t) && First(t.tasks, Waiting).None? && forall u | u in t.tasks :: u in s.tasks && u.state.Done?
  {
    hide First, Without;
    NothingRuns(ClearQueued(AbortInflight(s)));
  }

  /** The progress panel's counters account for every task. */
  lemma {:induction false} CountersAddUp(tasks: seq<Task>)
    ensures CountOf(tasks, Waiting) + CountOf(tasks, Running) + CountOf(tasks, WasFailed)
            + CountOf(tasks, WasCancelled) + CountOf(tasks, WasCopied) == |tasks|
  {
    if tasks != [] {
      CountersAddUp(tasks[1..]);
    }
  }

  lemma {:induction false} CountIsSome(tasks: seq<Task>, p: Pick)
    ensures CountOf(tasks, p) == 0 <==> First(tasks, p).None?
  {
    if tasks != [] {
      CountIsSome(tasks[1..], p);
    }
  }

  // ---- the queue manager ----

  datatype View = Active | FailedTasks | Completed

  type Cursors = c: seq<nat> | |c| == 3 witness [0, 0, 0]

  datatype Overlay = Overlay(view: View, cursors: Cursors, closed: bool)

  function NextView(v: View): View {
    match v case Active => FailedTasks case FailedTasks => Completed case Completed => Active
  }

  function PrevView(v: View): View {
    match v case Active => Completed case FailedTasks => Active case Completed => FailedTasks
  }

  function Slot(v: View): nat {
    match v case Active => 0 case FailedTasks => 1 case Completed => 2
  }

  /** Indices below `n` of the picked tasks, ascending. */
  function Indices(tasks: seq<Task>, p: Pick, n: nat): (r: seq<nat>)
    requires n <= |tasks|
    ensures forall i :: i in r <==> 0 <= i < n && Picks(p, tasks[i])
    ensures forall a, b | 0 <= a < b < |r| :: r[a] < r[b]
  {
    if n == 0 then []
    else
      var init := Indices(tasks, p, n - 1);
      assert forall k | 0 <= k < |init| :: init[k] in init;
      if Picks(p, tasks[n - 1]) then init + [n - 1] else init
  }

  function ViewRows(tasks: seq<Task>, v: View): seq<nat> {
    match v
    case Active => Indices(tasks, Running, |tasks|) + Indices(tasks, Waiting, |tasks|)
    case FailedTasks => Indices(tasks, WasFailed, |tasks|) + Indices(tasks, WasCancelled, |tasks|)
    case Completed => Indices(tasks, WasCopied, |tasks|)
  }

  method CollectIndices(tasks: seq<Task>, p: Pick, before: seq<nat>) returns (idx: seq<nat>)
    ensures idx == before + Indices(tasks, p, |tasks|)
  {
    idx := before;
    for i := 0 to |tasks|
      invariant idx == before + Indices(tasks, p, i)
    {
      if Picks(p, tasks[i]) {
        idx := idx + [i];
      }
    }
  }

  /** `task_indices_for` */
  method TaskIndices(tasks: seq<Task>, v: View) returns (idx: seq<nat>)
    ensures idx == ViewRows(tasks, v)
  {
    match v
    case Active =>
      idx := CollectIndices(tasks, Running, []);
      idx := CollectIndices(tasks, Waiting, idx);
    case FailedTasks =>
      idx := CollectIndices(tasks, WasFailed, []);
      idx := CollectIndices(tasks, WasCancelled, idx);
    case Completed =>
      idx := CollectIndices(tasks, WasCopied, []);
  }

  function ViewOf(t: Task): View {
    match t.state
    case Queued => Active
    case InFlight => Active
    case Done(Succeeded) => Completed
    case Done(_) => FailedTasks
  }

  /** The three tabs partition the ledger: every task is a row of exactly one
      tab, exactly once. */
  lemma TabsPartition(tasks: seq<Task>, v: View)
    ensures forall i :: i in ViewRows(tasks, v) <==> 0 <= i < |tasks| && ViewOf(tasks[i]) == v
    ensures forall a, b | 0 <= a < b < |ViewRows(tasks, v)| :: ViewRows(tasks, v)[a] != ViewRows(tasks, v)[b]
  {
    hide Indices;
    var (p, q) := match v case Active => (Running, Waiting) case FailedTasks => (WasFailed, WasCancelled)
                        case Completed => (WasCopied, WasCopied);
    if v != Completed {
      var x, y := Indices(tasks, p, |tasks|), Indices(tasks, q, |tasks|);
      assert ViewRows(tasks, v) == x + y;
      forall a, b | 0 <= a < |x| && 0 <= b < |y| ensures x[a] != y[b] {
        assert x[a] in x && y[b] in y;
      }
    }
  }

  // ---- its keys ----

  function Clamped(o: Overlay, s: State): Overlay {
    o.(cursors := o.cursors[Slot(o.view) := ClampIndex(o.cursors[Slot(o.view)], |ViewRows(s.tasks, o.view)|)])
  }

  function SelectedTask(o: Overlay, s: State): (r: Option<Task>)
    ensures r.Some? ==> r.value in s.tasks
  {
    var rows, c := ViewRows(s.tasks, o.view), o.cursors[Slot(o.view)];
    TabsPartition(s.tasks, o.view);
    if c < |rows| then assert rows[c] in rows; Some(s.tasks[rows[c]]) else None
  }

  /** What a key of the queue manager does to the ledger. */
  datatype Act = Nothing | RetryTask(id: TaskId) | RemoveTask(id: TaskId) | CancelRunning | TogglePause

  datatype ScreenOutcome = Continue | EnqueueOutcome | CancelActive | HostKeyConfirm(accept: bool) | CloseTransfer

  function ActOf(o: Overlay, s: State, key: Key): Act {
    var selected := SelectedTask(Clamped(o, s), s);
    match key.code
    case Enter => if selected.Some? then RetryTask(selected.value.id) else Nothing
    case Char('r') => if selected.Some? then RetryTask(selected.value.id) else Nothing
    case Char('d') => Dismiss(selected)
    case Char('c') => Dismiss(selected)
    case Delete => Dismiss(selected)
    case Char('p') => TogglePause
    case _ => Nothing
  }

  function Dismiss(selected: Option<Task>): Act {
    if selected.None? then Nothing
    else if selected.value.state.InFlight? then CancelRunning
    else RemoveTask(selected.value.id)
  }

  function ApplyAct(s: State, a: Act): State {
    match a
    case Nothing => s
    case CancelRunning => s
    case RetryTask(id) => Retry(s, id).0
    case RemoveTask(id) => Remove(s, id)
    case TogglePause => TogglePaused(s)
  }

  function OutcomeOf(s: State, a: Act): ScreenOutcome {
    match a
    case Nothing => Continue
    case RemoveTask(_) => Continue
    case CancelRunning => CancelActive
    case RetryTask(id) => if Retry(s, id).1 then EnqueueOutcome else Continue
    case TogglePause =>
      if s.paused && CountOf(s.tasks, Waiting) > 0 && !HasInflight(s) then EnqueueOutcome else Continue
  }

  function OverlayAfter(o: Overlay, s: State, key: Key): Overlay {
    var o := Clamped(o, s);
    var c, n := o.cursors[Slot(o.view)], |ViewRows(s.tasks, o.view)|;
    match key.code
    case Esc => o.(closed := true)
    case Tab => Clamped(o.(view := NextView(o.view)), s)
    case BackTab => Clamped(o.(view := PrevView(o.view)), s)
    case Up => o.(cursors := o.cursors[Slot(o.view) := if c > 0 then c - 1 else c])
    case Char('k') => o.(cursors := o.cursors[Slot(o.view) := if c > 0 then c - 1 else c])
    case Down => o.(cursors := o.cursors[Slot(o.view) := if c + 1 < n then c + 1 else c])
    case Char('j') => o.(cursors := o.cursors[Slot(o.view) := if c + 1 < n then c + 1 else c])
    case _ =>
      var a := ActOf(o, s, key);
      if a.RemoveTask? then Clamped(o, ApplyAct(s, a)) else o
  }

  class QueueOverlay {
    var view: View
    var cursors: Cursors
    var closed: bool

    ghost function Value(): Overlay
      reads this
    {
      Overlay(view, cursors, closed)
    }

    constructor ()
      ensures Value() == Overlay(Active, [0, 0, 0], false)
    {
      view, cursors, closed := Active, [0, 0, 0], false;
    }

    method Clamp(ledger: TransferLedger)
      modifies this`cursors
      ensures Value() == Clamped(old(Value()), ledger.Value())
    {
      var rows := TaskIndices(ledger.tasks, view);
      cursors := cursors[Slot(view) := ClampIndex(cursors[Slot(view)], |rows|)];
    }

    method Selected(ledger: TransferLedger) returns (task: Option<Task>)
      ensures task == SelectedTask(Value(), ledger.Value())
    {
      var rows := TaskIndices(ledger.tasks, view);
      TabsPartition(ledger.tasks, view);
      if cursors[Slot(view)] < |rows| {
        assert rows[cursors[Slot(view)]] in rows;
        return Some(ledger.tasks[rows[cursors[Slot(view)]]]);
      }
      return None;
    }

    method CancelOrRemove(ledger: TransferLedger) returns (out: ScreenOutcome)
      modifies this`cursors, ledger
      ensures var a := Dismiss(SelectedTask(old(Value()), old(ledger.Value())));
              && ledger.Value() == ApplyAct(old(ledger.Value()), a)
              && Value() == (if a.RemoveTask? then Clamped(old(Value()), ledger.Value()) else old(Value()))
              && out == OutcomeOf(old(ledger.Value()), a)
    {
      hide ViewRows, Without, First;
      var t := Selected(ledger);
      if t.Some? {
        if t.value.state.InFlight? {
          return CancelActive;
        }
        var _ := ledger.DoRemove(t.value.id);
        Clamp(ledger);
      }
      return Continue;
    }

    method OnKey(key: Key, ledger: TransferLedger) returns (out: ScreenOutcome)
      modifies this, ledger
      ensures !key.press ==> out == Continue && Value() == old(Value()) && ledger.Value() == old(ledger.Value())
      ensures key.press ==>
                var s, a := old(ledger.Value()), ActOf(old(Value()), old(ledger.Value()), key);
                && ledger.Value() == ApplyAct(s, a)
                && out == OutcomeOf(s, a)
                && Value() == OverlayAfter(old(Value()), s, key)
    {
      hide ViewRows, Without, First, CountOf;
      if !key.press {
        return Continue;
      }
      Clamp(ledger);
      ghost var here := Value();
      ClampTwice(old(Value()), ledger.Value());
      var rows := TaskIndices(ledger.tasks, view);
      var c := cursors[Slot(view)];
      out := Continue;
      match key.code
      case Esc => closed := true;
      case Tab =>
        view := NextView(view);
        Clamp(ledger);
      case BackTab =>
        view := PrevView(view);
        Clamp(ledger);
      case Up => cursors := cursors[Slot(view) := if c > 0 then c - 1 else c];
      case Char('k') => cursors := cursors[Slot(view) := if c > 0 then c - 1 else c];
      case Down => cursors := cursors[Slot(view) := if c + 1 < |rows| then c + 1 else c];
      case Char('j') => cursors := cursors[Slot(view) := if c + 1 < |rows| then c + 1 else c];
      case Enter => out := TryRetry(ledger);
      case Char('r') => out := TryRetry(ledger);
      case Delete => out := CancelOrRemove(ledger);
      case Char('d') => out := CancelOrRemove(ledger);
      case Char('c') => out := CancelOrRemove(ledger);
      case Char('p') =>
        ledger.DoTogglePaused();
        var running := HasInflight(State(ledger.tasks, ledger.nextId, ledger.paused));
        if !ledger.paused && CountOf(ledger.tasks, Waiting) > 0 && !running {
          out := EnqueueOutcome;
        }
      case _ =>
    }

    method TryRetry(ledger: TransferLedger) returns (out: ScreenOutcome)
      modifies ledger
      ensures var t := SelectedTask(Value(), old(ledger.Value()));
              && ledger.Value() == (if t.Some? then Retry(old(ledger.Value()), t.value.id).0 else old(ledger.Value()))
              && out == (if t.Some? && Retry(old(ledger.Value()), t.value.id).1 then EnqueueOutcome else Continue)
    {
      hide ViewRows, First;
      out := Continue;
      var t := Selected(ledger);
      if t.Some? {
        var ok := ledger.DoRetry(t.value.id);
        if ok {
          out := EnqueueOutcome;
        }
      }
    }
  }

  lemma ClampTwice(o: Overlay, s: State)
    ensures Clamped(Clamped(o, s), s) == Clamped(o, s)
  {
  }

  /** A key acts on the highlighted row only: it retries, removes or cancels
      just that task, never removes a running one, and asks for a cancel only
      while a task runs. */
  lemma KeyActsOnShownTask(o: Overlay, s: State, key: Key)
    requires Sound(s)
    ensures var a, t := ActOf(o, s, key), SelectedTask(Clamped(o, s), s);
            && (a.CancelRunning? ==> t.Some? && t.value.state.InFlight? && InflightId(s) == Some(t.value.id))
            && (a.RemoveTask? ==> t.Some? && t.value.id == a.id && !t.value.state.InFlight?
                                  && forall u :: u in Remove(s, a.id).tasks <==> u in s.tasks && u.id != a.id)
            && (OutcomeOf(s, a).CancelActive? <==> a.CancelRunning?)
  {
    hide ViewRows, Without, First, Clamped, CountOf;
    var a, t := ActOf(o, s, key), SelectedTask(Clamped(o, s), s);
    if t.Some? {
      assert t.value in s.tasks;
      var k :| 0 <= k < |s.tasks| && s.tasks[k] == t.value;
      if t.value.state.InFlight? {
        FindInflight(s, k);
      } else if a.RemoveTask? {
        assert forall u | u in s.tasks && u.id == a.id :: u == t.value;
      }
    }
  }
}
