/** The transfer ledger one task at a time: what each operation makes of each
    task, and what each key of the queue manager makes of the task on its row
    (`src/tui/transfer/ledger.rs`, `src/tui/transfer/queue_overlay.rs`). */
module LedgerByTask {
  import opened Prelude
  import opened Keys
  import opened Ledger

  /** The task after the edit; `None` when it is gone. */
  function After(t: Task, e: Edit): Option<Task> {
    match e
    case End(outcome) => Some(if t.state == InFlight then Task(t.id, t.folder, t.job, None, Done(outcome)) else t)
    case Redo(id) => Some(if t.id == id && Unfinished(t) then Task(t.id, t.folder, t.job, None, Queued) else t)
    case Drop(id) => if t.id == id && t.state != InFlight then None else Some(t)
    case Tick(p) => Some(if t.state == InFlight then Task(t.id, t.folder, t.job, Some(p), InFlight) else t)
    case DropWaiting => if t.state == Queued then None else Some(t)
    case DropRunning => if t.state == InFlight then None else Some(t)
    case Add(_) => Some(t)
    case Pause => Some(t)
  }

  /** Over, but not copied. */
  predicate Unfinished(t: Task) {
    t.state.Done? && t.state.outcome != Succeeded
  }

  function Each(tasks: seq<Task>, e: Edit): seq<Task> {
    if tasks == [] then []
    else
      var rest := Each(tasks[1..], e);
      match After(tasks[0], e) case Some(t) => [t] + rest case None => rest
  }

  lemma {:induction false} EachAt(tasks: seq<Task>, e: Edit)
    requires forall t | t in tasks :: After(t, e).Some?
    ensures |Each(tasks, e)| == |tasks|
    ensures forall k | 0 <= k < |tasks| :: Each(tasks, e)[k] == After(tasks[k], e).value
  {
    hide After;
    if tasks != [] {
      EachAt(tasks[1..], e);
    }
  }

  lemma {:induction false} EachWithout(tasks: seq<Task>, e: Edit, p: Pick)
    requires forall t | t in tasks :: After(t, e) == if Picks(p, t) then None else Some(t)
    ensures Each(tasks, e) == Without(tasks, p)
  {
    hide After, Picks;
    if tasks != [] {
      EachWithout(tasks[1..], e, p);
    }
  }

  /** One edit of the ledger is that edit of each task, in order; a new task
      comes last, waiting, under the next number. */
  lemma EditActsOnEachTask(s: State, e: Edit)
    requires Sound(s)
    ensures ApplyEdit(s, e).tasks
            == Each(s.tasks, e)
               + (if e.Add? then [Task(s.nextId, e.job.recursive, e.job, None, Queued)] else [])
    ensures ApplyEdit(s, e).nextId == s.nextId + (if e.Add? then 1 else 0)
    ensures ApplyEdit(s, e).paused == (s.paused != e.Pause?)
  {
    hide Without, First, After, Each;
    if e.Drop? || e.DropWaiting? || e.DropRunning? {
      DropsLeaveTheRest(s, e);
    } else {
      NothingIsDropped(s.tasks, e);
      EachAt(s.tasks, e);
      OthersStay(s, e);
    }
  }

  lemma NothingIsDropped(tasks: seq<Task>, e: Edit)
    requires !e.Drop? && !e.DropWaiting? && !e.DropRunning?
    ensures forall t | t in tasks :: After(t, e).Some?
  {
  }

  lemma DropsLeaveTheRest(s: State, e: Edit)
    requires Sound(s) && (e.Drop? || e.DropWaiting? || e.DropRunning?)
    ensures ApplyEdit(s, e) == s.(tasks := Each(s.tasks, e))
  {
    hide Without, Each;
    match e
    case Drop(id) =>
      if exists t :: t in s.tasks && t.id == id && t.state.InFlight? {
        var r :| r in s.tasks && r.id == id && r.state.InFlight?;
        forall t | t in s.tasks ensures After(t, e) == Some(t) {
          SameId(s, t, r);
        }
        EachAt(s.tasks, e);
      } else {
        EachWithout(s.tasks, e, WithId(id));
      }
    case DropWaiting => EachWithout(s.tasks, e, Waiting);
    case DropRunning => EachWithout(s.tasks, e, Running);
  }

  lemma SameId(s: State, t: Task, r: Task)
    requires Sound(s) && t in s.tasks && r in s.tasks
    ensures t.id == r.id ==> t == r
  {
    var j :| 0 <= j < |s.tasks| && s.tasks[j] == t;
    var k :| 0 <= k < |s.tasks| && s.tasks[k] == r;
  }

  /** An edit that looks a task up changes that task alone, as the edit says. */
  lemma OthersStay(s: State, e: Edit)
    requires Sound(s) && !e.Drop? && !e.DropWaiting? && !e.DropRunning?
    ensures |ApplyEdit(s, e).tasks| >= |s.tasks|
    ensures forall k | 0 <= k < |s.tasks| :: ApplyEdit(s, e).tasks[k] == After(s.tasks[k], e).value
  {
    hide First;
    var i := First(s.tasks, if e.Redo? then WithId(e.id) else Running);
    if i.Some? && (e.End? || e.Tick? || e.Redo?) {
      forall k | 0 <= k < |s.tasks| && k != i.value
        ensures s.tasks[k].id != s.tasks[i.value].id
        ensures !(s.tasks[k].state.InFlight? && s.tasks[i.value].state.InFlight?)
      {
      }
    }
  }

  /** The end of the running task: it alone changes, to exactly that outcome, and
      stands in the tab of the outcome; failed and cancelled tasks can be retried. */
  lemma FinishRecordsOutcome(s: State, outcome: Outcome, k: nat)
    requires Sound(s) && k < |s.tasks| && s.tasks[k].state == InFlight
    ensures var t := Finish(s, outcome);
            && |t.tasks| == |s.tasks| && t.nextId == s.nextId && t.paused == s.paused
            && t.tasks[k] == Task(s.tasks[k].id, s.tasks[k].folder, s.tasks[k].job, None, Done(outcome))
            && (forall j | 0 <= j < |s.tasks| && j != k :: t.tasks[j] == s.tasks[j])
            && (k in ViewRows(t.tasks, Completed) <==> outcome == Succeeded)
            && (k in ViewRows(t.tasks, FailedTasks) <==> outcome != Succeeded)
            && (Retry(t, s.tasks[k].id).1 <==> outcome.Failed? || outcome.Cancelled?)
  {
    hide First, ViewRows;
    EditActsOnEachTask(s, End(outcome));
    EachAt(s.tasks, End(outcome));
    var t := Finish(s, outcome);
    forall j | 0 <= j < |s.tasks| && j != k
      ensures s.tasks[j].id != s.tasks[k].id && !s.tasks[j].state.InFlight?
    {
    }
    TabsPartition(t.tasks, Completed);
    TabsPartition(t.tasks, FailedTasks);
  }

  // ---- the counters ----

  lemma {:induction false} CountIsRows(tasks: seq<Task>, p: Pick, n: nat)
    requires n <= |tasks|
    ensures CountOf(tasks[..n], p) == |Indices(tasks, p, n)|
  {
    if n > 0 {
      CountIsRows(tasks, p, n - 1);
      CountAppend(tasks[..n - 1], tasks[n - 1], p);
      assert tasks[..n - 1] + [tasks[n - 1]] == tasks[..n];
    }
  }

  lemma {:induction false} CountAppend(tasks: seq<Task>, t: Task, p: Pick)
    ensures CountOf(tasks + [t], p) == CountOf(tasks, p) + (if Picks(p, t) then 1 else 0)
  {
    if tasks == [] {
      assert ([] + [t])[1..] == [];
    } else {
      assert (tasks + [t])[1..] == tasks[1..] + [t];
      CountAppend(tasks[1..], t, p);
    }
  }

  // ---- rows and keys of the queue manager ----

  /** Groups of a tab: running before waiting, failed before cancelled. */
  function Group(t: Task): nat {
    match t.state
    case InFlight => 0
    case Queued => 1
    case Done(Failed(_)) => 0
    case Done(_) => 1
  }

  /** The rows of a tab stand by group, and oldest first within a group. */
  lemma RowsAreInOrder(tasks: seq<Task>, v: View, a: nat, b: nat)
    requires a < b < |ViewRows(tasks, v)|
    ensures var i, j := ViewRows(tasks, v)[a], ViewRows(tasks, v)[b];
            && i < |tasks| && j < |tasks|
            && (Group(tasks[i]) < Group(tasks[j]) || (Group(tasks[i]) == Group(tasks[j]) && i < j))
  {
    hide Indices, Picks, Group;
    match v {
      case Active => TwoGroups(tasks, Running, Waiting, a, b);
      case FailedTasks => TwoGroups(tasks, WasFailed, WasCancelled, a, b);
      case Completed => OneGroup(tasks, WasCopied, a, b);
    }
    var rows := ViewRows(tasks, v);
    PickedGroup(tasks[rows[a]]);
    PickedGroup(tasks[rows[b]]);
  }

  lemma PickedGroup(t: Task)
    ensures Picks(Running, t) || Picks(WasFailed, t) ==> Group(t) == 0
    ensures Picks(Waiting, t) || Picks(WasCancelled, t) || Picks(WasCopied, t) ==> Group(t) == 1
  {
  }

  lemma OneGroup(tasks: seq<Task>, p: Pick, a: nat, b: nat)
    requires a < b < |Indices(tasks, p, |tasks|)|
    ensures var x := Indices(tasks, p, |tasks|);
            x[a] < x[b] < |tasks| && Picks(p, tasks[x[a]]) && Picks(p, tasks[x[b]])
  {
    var x := Indices(tasks, p, |tasks|);
    assert x[a] in x && x[b] in x;
  }

  lemma TwoGroups(tasks: seq<Task>, p: Pick, q: Pick, a: nat, b: nat)
    requires a < b < |Indices(tasks, p, |tasks|) + Indices(tasks, q, |tasks|)|
    ensures var rows := Indices(tasks, p, |tasks|) + Indices(tasks, q, |tasks|);
            var i, j := rows[a], rows[b];
            && i < |tasks| && j < |tasks|
            && ((Picks(p, tasks[i]) && Picks(p, tasks[j]) && i < j)
                || (Picks(p, tasks[i]) && Picks(q, tasks[j]))
                || (Picks(q, tasks[i]) && Picks(q, tasks[j]) && i < j))
  {
    hide Picks;
    var x, y := Indices(tasks, p, |tasks|), Indices(tasks, q, |tasks|);
    var n := |x|;
    if b < n {
      OneGroup(tasks, p, a, b);
    } else if a >= n {
      OneGroup(tasks, q, a - n, b - n);
    } else {
      assert x[a] in x && y[b - n] in y;
    }
  }

  /** The task the cursor is on, once the cursor is back in the list. */
  function Shown(o: Overlay, s: State): Option<Task> {
    SelectedTask(Clamped(o, s), s)
  }

  /** A row is highlighted whenever the tab has one, and it is a row of the tab:
      the one at the cursor, or the last. */
  lemma ShownIsOnTab(o: Overlay, s: State)
    ensures var rows, c := ViewRows(s.tasks, o.view), o.cursors[Slot(o.view)];
            && (Shown(o, s).Some? <==> rows != [])
            && (rows != [] ==>
                  var k := rows[if c < |rows| then c else |rows| - 1];
                  k < |s.tasks| && Shown(o, s) == Some(s.tasks[k]) && ViewOf(s.tasks[k]) == o.view)
  {
    hide ViewRows;
    TabsPartition(s.tasks, o.view);
    var rows, c := ViewRows(s.tasks, o.view), o.cursors[Slot(o.view)];
    if rows != [] {
      assert rows[if c < |rows| then c else |rows| - 1] in rows;
    }
  }

  predicate RetryKey(key: Key) {
    key.code == Enter || key.code == Char('r')
  }

  predicate DismissKey(key: Key) {
    key.code == Char('d') || key.code == Char('c') || key.code == Delete
  }

  /** Enter and `r` queue the highlighted task again if it failed or was
      cancelled, and then ask for a dispatch. */
  lemma RetryKeyRetries(o: Overlay, s: State, key: Key)
    requires Sound(s) && RetryKey(key)
    ensures var a, shown := ActOf(o, s, key), Shown(o, s);
            if shown.Some? && Unfinished(shown.value)
            then ApplyAct(s, a) == s.(tasks := Each(s.tasks, Redo(shown.value.id))) && OutcomeOf(s, a) == EnqueueOutcome
            else ApplyAct(s, a) == s && OutcomeOf(s, a) == Continue
  {
    hide Clamped, Retry, Each, Unfinished, SelectedTask, ActOf;
    var shown := Shown(o, s);
    RetryKeyAct(o, s, key);
    if shown.Some? {
      ShownIsATask(o, s);
      RetryById(s, shown.value);
      EditActsOnEachTask(s, Redo(shown.value.id));
    }
  }

  lemma ShownIsATask(o: Overlay, s: State)
    ensures Shown(o, s).Some? ==> Shown(o, s).value in s.tasks
  {
  }

  lemma RetryKeyAct(o: Overlay, s: State, key: Key)
    requires RetryKey(key)
    ensures ActOf(o, s, key) == if Shown(o, s).Some? then RetryTask(Shown(o, s).value.id) else Nothing
  {
  }

  lemma DismissKeyAct(o: Overlay, s: State, key: Key)
    requires DismissKey(key)
    ensures ActOf(o, s, key) == Dismiss(Shown(o, s))
  {
  }

  /** `d`, `c` and Delete ask for the cancel of a running task and remove any
      other. */
  lemma DismissKeyDismisses(o: Overlay, s: State, key: Key)
    requires Sound(s) && DismissKey(key)
    ensures var a, shown := ActOf(o, s, key), Shown(o, s);
            if shown.Some? && shown.value.state == InFlight then ApplyAct(s, a) == s && OutcomeOf(s, a) == CancelActive
            else if shown.Some?
            then ApplyAct(s, a) == s.(tasks := Each(s.tasks, Drop(shown.value.id))) && OutcomeOf(s, a) == Continue
            else ApplyAct(s, a) == s && OutcomeOf(s, a) == Continue
  {
    hide Clamped, Remove, Each, SelectedTask, ActOf;
    var shown := Shown(o, s);
    DismissKeyAct(o, s, key);
    if shown.Some? {
      EditActsOnEachTask(s, Drop(shown.value.id));
    }
  }

  /** `p` pauses the queue, or resumes it and asks for a dispatch when something
      waits and nothing runs. */
  lemma PauseKeyPauses(o: Overlay, s: State, key: Key)
    requires key.code == Char('p')
    ensures var a := ActOf(o, s, key);
            && ApplyAct(s, a) == s.(paused := !s.paused)
            && OutcomeOf(s, a) == if s.paused && (exists w :: w in s.tasks && w.state == Queued)
                                     && (forall w | w in s.tasks :: w.state != InFlight)
                                  then EnqueueOutcome else Continue
  {
    hide Clamped, First, CountOf;
    CountIsSome(s.tasks, Waiting);
  }

  /** No other key touches the ledger. */
  lemma OtherKeysAreInert(o: Overlay, s: State, key: Key)
    requires !RetryKey(key) && !DismissKey(key) && key.code != Char('p')
    ensures ApplyAct(s, ActOf(o, s, key)) == s && OutcomeOf(s, ActOf(o, s, key)) == Continue
  {
  }

  lemma RetryById(s: State, t: Task)
    requires Sound(s) && t in s.tasks
    ensures Retry(s, t.id).1 == Unfinished(t)
    ensures !Unfinished(t) ==> Retry(s, t.id).0 == s
  {
    hide First;
    var i := First(s.tasks, WithId(t.id));
    SameId(s, t, s.tasks[i.value]);
  }

  predicate DownKey(key: Key) {
    key.code == Down || key.code == Char('j')
  }

  predicate UpKey(key: Key) {
    key.code == Up || key.code == Char('k')
  }

  function RowOf(o: Overlay): nat {
    o.cursors[Slot(o.view)]
  }

  /** Esc alone closes; Tab and BackTab alone change the tab, and every tab but
      the one worked on remembers its row. */
  lemma KeysChangeTheTab(o: Overlay, s: State, key: Key)
    ensures var t := OverlayAfter(o, s, key);
            && (t.closed <==> o.closed || key.code == Esc)
            && (t.view != o.view <==> key.code == Tab || key.code == BackTab)
            && (key.code == Tab ==> o.view == PrevView(t.view))
            && (key.code == BackTab ==> o.view == NextView(t.view))
            && (forall v: View | v != o.view && v != t.view :: t.cursors[Slot(v)] == o.cursors[Slot(v)])
  {
    hide ViewRows, ActOf, ApplyAct;
  }

  /** The highlight goes one row down or up, without wrapping; a tab entered or
      left has its row pulled back into its list. */
  lemma KeysMoveTheHighlight(o: Overlay, s: State, key: Key)
    ensures var t, n := OverlayAfter(o, s, key), |ViewRows(s.tasks, o.view)|;
            var row := ClampIndex(RowOf(o), n);
            && (DownKey(key) ==> RowOf(t) == if row + 1 < n then row + 1 else row)
            && (UpKey(key) ==> RowOf(t) == if row == 0 then 0 else row - 1)
            && (key.code == Tab || key.code == BackTab ==>
                  && t.cursors[Slot(o.view)] == row
                  && RowOf(t) == ClampIndex(o.cursors[Slot(t.view)], |ViewRows(s.tasks, t.view)|))
  {
    hide ViewRows, ActOf, ApplyAct;
  }

  /** The tabs come round in the order active, failed, completed. */
  lemma TabsComeRound(v: View)
    ensures NextView(Active) == FailedTasks && NextView(FailedTasks) == Completed && NextView(Completed) == Active
    ensures PrevView(NextView(v)) == v
  {
  }
}
