/** What each step of the transfer loop and its worker does, told from the step's
    own inputs: who is asked, what is sent, what an outcome leaves behind
    (`src/tui/run_loop.rs`, `crates/sshrack-core/src/connect/sftp/worker.rs`). */
module TransferRules {
  import opened Prelude
  import opened Keys
  import opened Transfer
  import opened TransferSafety
  import L = Ledger
  import T = LedgerByTask

  // ---- the overwrite question ----

  /** The destination is on the local disk and something is there. */
  predicate Clashes(job: L.Job, exists_: bool) {
    job.direction == L.Download && exists_
  }

  /** The answer decides: overwrite on Yes, skip on No and on a popup that failed. */
  function Decided(answer: Answer): Policy
    requires answer != Escaped
  {
    if answer == Yes then OverwriteAll else SkipAll
  }

  /** Without a question the policy in force is sent, or a plain overwrite. */
  function InForce(policy: Option<Policy>): Policy {
    if policy.Some? then policy.value else Overwrite
  }

  predicate DispatchDue(s: State) {
    s.phase.Dispatching? && (s.pendingAdvance || s.phase.advance)
  }

  /** The popup comes for the job that starts, whatever else waits: exactly when it
      is a download onto something that exists and no answer has settled it yet. */
  predicate AskedFor(s: State, job: L.Job, exists_: bool) {
    Clashes(job, exists_) && s.policy == None
  }

  /** From `s` to `t` a started task was asked about or not, and handed over with
      the policy decided or in force; Esc hands over nothing and leaves no task
      but finished ones. */
  predicate AsksAndSends(s: State, t: State, exists_: bool, answer: Answer) {
    var (started, id) := L.Start(s.ledger);
    && id.Some? && L.JobFor(started, id.value).Some?
    && var job := L.JobFor(started, id.value).value;
    var asked := AskedFor(s, job, exists_);
    && t.answers == s.answers + (if asked then [answer] else [])
    && if asked && answer == Escaped then t.sent == s.sent && t.policy == s.policy && Abandoned(s, t)
       else
         var policy := if asked then Decided(answer) else InForce(s.policy);
         && t.policy == (if asked then Some(policy) else s.policy)
         && t.ledger == started
         && Handed(s, t, Sent(id.value, job, policy, Clashes(job, exists_), |t.answers|, s.batch))
  }

  /** A due dispatch in any reachable state takes the oldest waiting task. */
  lemma DispatchAsksAndSends(steps: seq<Step>, exists_: bool, answer: Answer)
    requires DispatchDue(Run(Init(), steps)) && L.Start(Run(Init(), steps).ledger).1.Some?
    ensures var s, t := Run(Init(), steps), Next(Run(Init(), steps), Dispatch(exists_, answer));
            AsksAndSends(s, t, exists_, answer) && t.phase == AtKeys && !t.pendingAdvance
  {
    hide Run, L.Start, L.JobFor, L.First, AsksAndSends;
    RunKeepsInv(steps);
    StartedHasJob(Run(Init(), steps));
    DispatchOne(Run(Init(), steps), exists_, answer);
  }

  lemma StartedHasJob(s: State)
    requires Inv(s) && Due(s.phase, s.pendingAdvance) && L.Start(s.ledger).1.Some?
    ensures var (t, id) := L.Start(s.ledger); L.JobFor(t, id.value).Some?
  {
    hide L.First;
    StartRuns(s.ledger);
  }

  /** The listing of the remote pane is asked for behind what was handed over. */
  function RefreshCmds(s: State): seq<Cmd> {
    if s.phase.Dispatching? && s.phase.refresh == Some(L.Upload) then [OtherCmd] else []
  }

  /** The record and the message of a job handed to the worker. */
  predicate Handed(s: State, t: State, r: Sent) {
    && t.sent == s.sent + [r]
    && t.cmds == s.cmds + [SendJob(|s.sent|, r.job, r.policy)] + RefreshCmds(s)
  }

  /** Nothing is handed over; only finished tasks are left. */
  predicate Abandoned(s: State, t: State) {
    && t.cmds == s.cmds + RefreshCmds(s)
    && forall u | u in t.ledger.tasks :: u.state.Done?
  }

  /** The started task `id` with its job, before the loop leaves the dispatch. */
  lemma StartedIsAsked(s: State, id: L.TaskId, job: L.Job, exists_: bool, answer: Answer)
    ensures var t := DispatchStarted(s, id, job, exists_, answer);
            var asked := AskedFor(s, job, exists_);
            && t == s.(answers := t.answers, sent := t.sent, policy := t.policy, cmds := t.cmds, ledger := t.ledger,
                       dropped := t.dropped)
            && t.answers == s.answers + (if asked then [answer] else [])
            && if asked && answer == Escaped
               then t.sent == s.sent && t.policy == s.policy && t.cmds == s.cmds
                    && forall u | u in t.ledger.tasks :: u.state.Done?
               else
                 var policy := if asked then Decided(answer) else InForce(s.policy);
                 && t.policy == (if asked then Some(policy) else s.policy) && t.ledger == s.ledger
                 && t.sent == s.sent + [Sent(id, job, policy, Clashes(job, exists_), |t.answers|, s.batch)]
                 && t.cmds == s.cmds + [SendJob(|s.sent|, job, policy)]
  {
    hide L.ClearQueued, L.AbortInflight, WaitingIds;
    L.BatchIsGone(s.ledger);
    assert s.answers + [] == s.answers;
  }

  lemma DispatchOne(s: State, exists_: bool, answer: Answer)
    requires DispatchDue(s) && L.Start(s.ledger).1.Some?
    requires L.JobFor(L.Start(s.ledger).0, L.Start(s.ledger).1.value).Some?
    ensures var t := Next(s, Dispatch(exists_, answer));
            AsksAndSends(s, t, exists_, answer) && t.phase == AtKeys && !t.pendingAdvance
  {
    hide L.Start, L.JobFor, DispatchStarted, PressEnqueue, PressQueueKey, DrainOne, DrainEnd, Decided;
    var (started, id) := L.Start(s.ledger);
    var u := s.(pendingAdvance := false, failedLast := false, ledger := started);
    StartedIsAsked(u, id.value, L.JobFor(started, id.value).value, exists_, answer);
    var v := DispatchStarted(u, id.value, L.JobFor(started, id.value).value, exists_, answer);
    assert DispatchNextJob(s.(pendingAdvance := false), exists_, answer) == v;
    assert v.cmds + [] == v.cmds;
  }

  /** A dispatch that is not due, or finds the queue paused or empty, hands over
      nothing and asks nothing. */
  lemma IdleDispatchSendsNothing(s: State, exists_: bool, answer: Answer)
    requires s.phase.Dispatching? && !(DispatchDue(s) && L.Start(s.ledger).1.Some?)
    ensures var t := Next(s, Dispatch(exists_, answer));
            && t.phase == AtKeys && !t.pendingAdvance
            && t.sent == s.sent && t.answers == s.answers && t.policy == s.policy && t.ledger == s.ledger
            && t.cmds == s.cmds + RefreshCmds(s)
  {
    hide L.First;
    NothingStarted(s.ledger);
    assert s.cmds + [] == s.cmds;
  }

  // ---- the end of a job ----

  /** A drained end of a job, in any run: the task of that very job gets exactly
      that outcome and no other task changes; it stands in the tab of the outcome
      and can be retried exactly if it failed or was cancelled. */
  lemma EndRecordsOutcome(steps: seq<Step>)
    requires var s := Run(Init(), steps); s.phase.Draining? && s.events != [] && s.events[0].JobDone?
    ensures var s := Run(Init(), steps);
            var t, outcome := Next(s, DrainEvent), s.events[0].outcome;
            && s.events[0].serial < |s.sent|
            && RecordedAs(s.ledger, t.ledger, s.sent[s.events[0].serial].id, outcome)
            && t.events == s.events[1..] && t.sent == s.sent && t.cmds == s.cmds
            && (t.phase.Draining? && (t.phase.advance <==> s.phase.advance || !outcome.Failed?))
  {
    hide Run, L.First, L.Finish, L.ViewRows, L.Retry;
    RunKeepsInv(steps);
    var s := Run(Init(), steps);
    EndOfTracked(s);
    var id, outcome := s.sent[s.events[0].serial].id, s.events[0].outcome;
    var k := RunningAt(s.ledger, id);
    T.FinishRecordsOutcome(s.ledger, outcome, k);
    assert RecordedAs(s.ledger, L.Finish(s.ledger, outcome), id, outcome);
  }

  ghost predicate RecordedAs(l: L.State, m: L.State, id: L.TaskId, outcome: L.Outcome) {
    exists k: nat ::
      && k < |l.tasks| == |m.tasks|
      && l.tasks[k].id == id && l.tasks[k].state == L.InFlight
      && m.tasks[k] == l.tasks[k].(state := L.Done(outcome), progress := None)
      && (forall j | 0 <= j < |l.tasks| && j != k :: m.tasks[j] == l.tasks[j])
      && (k in L.ViewRows(m.tasks, L.Completed) <==> outcome == L.Succeeded)
      && (k in L.ViewRows(m.tasks, L.FailedTasks) <==> outcome != L.Succeeded)
      && (L.Retry(m, id).1 <==> outcome.Failed? || outcome.Cancelled?)
  }

  lemma EndOfTracked(s: State)
    requires Inv(s) && s.events != [] && s.events[0].JobDone?
    ensures s.events[0].serial + 1 == |s.sent|
    ensures L.Sound(s.ledger) && L.InflightId(s.ledger) == Some(Latest(s.sent).id)
  {
    hide L.Sound, L.InflightId, L.LastDirection, Aimed, Phased, Asked, Conserved, Lively;
    assert s.events[0] in s.events;
  }

  lemma RunningAt(l: L.State, id: L.TaskId) returns (k: nat)
    requires L.InflightId(l) == Some(id)
    ensures k < |l.tasks| && l.tasks[k].id == id && l.tasks[k].state == L.InFlight
  {
    k := L.First(l.tasks, L.Running).value;
  }

  /** Progress is shown on the running task alone. */
  lemma ProgressIsShown(s: State)
    requires L.Sound(s.ledger) && s.phase.Draining? && s.events != [] && s.events[0].JobProgress?
    ensures var t := Next(s, DrainEvent);
            && t.ledger.tasks == T.Each(s.ledger.tasks, L.Tick(s.events[0].progress))
            && t == s.(events := s.events[1..], ledger := t.ledger)
  {
    hide L.First, T.Each;
    T.EditActsOnEachTask(s.ledger, L.Tick(s.events[0].progress));
    assert s.ledger.tasks + [] == s.ledger.tasks;
    assert T.Each(s.ledger.tasks, L.Tick(s.events[0].progress)) + []
           == T.Each(s.ledger.tasks, L.Tick(s.events[0].progress));
  }

  // ---- what the keys ask for ----

  /** The tasks of new jobs: waiting, in order, under the next numbers. */
  function NewTasks(first: nat, jobs: seq<L.Job>): (r: seq<L.Task>)
    ensures |r| == |jobs|
  {
    seq(|jobs|, k requires 0 <= k < |jobs| =>
      L.Task(first + k, jobs[k].recursive, jobs[k], None, L.Queued))
  }

  lemma {:induction false} EnqueueAllAppends(l: L.State, jobs: seq<L.Job>)
    ensures EnqueueAll(l, jobs) == l.(tasks := l.tasks + NewTasks(l.nextId, jobs), nextId := l.nextId + |jobs|)
    decreases |jobs|
  {
    if jobs == [] {
      assert l.tasks + NewTasks(l.nextId, jobs) == l.tasks;
    } else {
      var init := jobs[..|jobs| - 1];
      EnqueueAllAppends(l, init);
      var last := L.Task(l.nextId + |init|, jobs[|init|].recursive, jobs[|init|], None, L.Queued);
      assert NewTasks(l.nextId, jobs) == NewTasks(l.nextId, init) + [last];
      assert l.tasks + (NewTasks(l.nextId, init) + [last]) == l.tasks + NewTasks(l.nextId, init) + [last];
    }
  }

  /** Enqueued jobs wait behind all tasks, in their order; with nothing in flight
      a dispatch is asked for, and nothing else changes but the books. */
  lemma EnqueueAppends(s: State, jobs: seq<L.Job>)
    requires s.phase == AtKeys && jobs != []
    ensures var t := Next(s, EnqueueKey(jobs));
            && t.ledger.tasks == s.ledger.tasks + NewTasks(s.ledger.nextId, jobs)
            && t.ledger.nextId == s.ledger.nextId + |jobs| && t.ledger.paused == s.ledger.paused
            && (t.pendingAdvance <==> s.pendingAdvance || forall u | u in s.ledger.tasks :: u.state != L.InFlight)
            && t.phase == Draining(false, None)
            && t == s.(ledger := t.ledger, pendingAdvance := t.pendingAdvance, phase := t.phase,
                       batch := t.batch, entered := t.entered)
  {
    hide L.First;
    EnqueueAllAppends(s.ledger, jobs);
    var more := NewTasks(s.ledger.nextId, jobs);
    assert forall u | u in more :: u.state != L.InFlight;
    assert forall u :: u in s.ledger.tasks + more <==> u in s.ledger.tasks || u in more;
  }

  /** A key of the queue manager asks for a dispatch, or for the cancel of the job
      in flight, just as the manager answers. */
  lemma QueueKeyAsks(s: State, o: L.Overlay, key: Key)
    requires s.phase == AtKeys && key.press
    ensures var t, act := Next(s, QueueKey(o, key)), L.ActOf(o, s.ledger, key);
            var out := L.OutcomeOf(s.ledger, act);
            && t.ledger == L.ApplyAct(s.ledger, act) && t.phase == Draining(false, None)
            && t.sent == s.sent && t.cmds == s.cmds && t.events == s.events && t.policy == s.policy
            && (t.pendingAdvance <==> s.pendingAdvance || (out == L.EnqueueOutcome && !L.HasInflight(t.ledger)))
            && t.pendingCancel == (if out == L.CancelActive
                                   then Some(if s.sent == [] then 0 else |s.sent| - 1) else s.pendingCancel)
  {
    hide L.ActOf, L.ApplyAct, L.OutcomeOf, L.HasInflight, WaitingIds, Waits, L.Retry, Idle;
  }

  /** The cancel of a running task reaches the worker in the same tick: the last
      message is a cancel of the job of the highlighted task. */
  lemma CancelKeyCancels(steps: seq<Step>, o: L.Overlay, key: Key)
    requires var s := Run(Init(), steps);
             && s.phase == AtKeys && s.events == [] && key.press && T.DismissKey(key)
             && T.Shown(o, s.ledger).Some? && T.Shown(o, s.ledger).value.state == L.InFlight
    ensures var s := Run(Init(), steps);
            var t := Next(Next(s, QueueKey(o, key)), LeaveDrain);
            && s.sent != [] && Latest(s.sent).id == T.Shown(o, s.ledger).value.id
            && t.cmds == s.cmds + [CancelJob(|s.sent| - 1)] && t.pendingCancel == None
  {
    hide Run, L.First, L.ActOf, L.OutcomeOf, L.ApplyAct, T.Shown, L.Sound;
    RunKeepsInv(steps);
    var s := Run(Init(), steps);
    T.DismissKeyDismisses(o, s.ledger, key);
    QueueKeyAsks(s, o, key);
    T.ShownIsATask(o, s.ledger);
    L.ElementRuns(s.ledger, T.Shown(o, s.ledger).value);
  }

  // ---- the worker ----

  /** An idle worker: a job to be skipped is done at once, untouched; a job it
      cannot start has failed; any other job it runs, as it came. */
  lemma IdleWorkerTakesJob(s: State, spawns: bool)
    requires s.busy == None && s.cmds != [] && s.cmds[0].SendJob?
    ensures var t, c := Next(s, WorkerTake(spawns)), s.cmds[0];
            var skip := c.policy == Skip || c.policy == SkipAll;
            && t == s.(cmds := s.cmds[1..], busy := t.busy, events := t.events)
            && (skip ==> t.busy == None && t.events == s.events + [JobDone(c.serial, L.Succeeded)])
            && (!skip && !spawns ==>
                  && t.busy == None && |t.events| == |s.events| + 1 && t.events[..|s.events|] == s.events
                  && t.events[|s.events|].JobDone? && t.events[|s.events|].serial == c.serial
                  && t.events[|s.events|].outcome.Failed?)
            && (!skip && spawns ==> t.busy == Some(Running(c.serial, c.job, c.policy)) && t.events == s.events)
  {
    hide PressEnqueue, PressQueueKey, DispatchPhase, DrainOne, DrainEnd;
  }

  /** A busy worker heeds a cancel, which ends the job as cancelled, and drops
      every other message. */
  lemma BusyWorkerHeedsCancel(s: State, spawns: bool)
    requires s.busy.Some? && s.cmds != []
    ensures var t := Next(s, WorkerTake(spawns));
            if s.cmds[0].CancelJob?
            then t == s.(cmds := s.cmds[1..], busy := None,
                         events := s.events + [JobDone(s.busy.value.serial, L.Cancelled)])
            else t == s.(cmds := s.cmds[1..])
  {
    hide PressEnqueue, PressQueueKey, DispatchPhase, DrainOne, DrainEnd;
  }

  /** An idle worker lets a late cancel go and answers anything else. */
  lemma IdleWorkerTakesOther(s: State, spawns: bool)
    requires s.busy == None && s.cmds != [] && !s.cmds[0].SendJob?
    ensures Next(s, WorkerTake(spawns))
            == s.(cmds := s.cmds[1..], events := s.events + (if s.cmds[0].OtherCmd? then [OtherEvent] else []))
  {
    hide PressEnqueue, PressQueueKey, DispatchPhase, DrainOne, DrainEnd;
    assert s.events + [] == s.events;
  }

  /** The end of the job in the worker is reported with its outcome, and a worker
      cancels nothing of its own accord. */
  lemma WorkerReportsEnd(s: State, outcome: L.Outcome)
    ensures Next(s, WorkerEnd(outcome))
            == if s.busy.Some? && outcome != L.Cancelled
               then s.(busy := None, events := s.events + [JobDone(s.busy.value.serial, outcome)]) else s
  {
    hide PressEnqueue, PressQueueKey, DispatchPhase, DrainOne, DrainEnd;
  }

  /** A busy worker reports its progress, an idle one has none to report. */
  lemma WorkerReportsProgress(s: State, p: L.Progress)
    ensures Next(s, WorkerProgress(p)) == if s.busy.Some? then s.(events := s.events + [JobProgress(p)]) else s
  {
    hide PressEnqueue, PressQueueKey, DispatchPhase, DrainOne, DrainEnd;
  }

  /** Leaving the screen forgets the queue and the answers of its batches. */
  lemma CloseForgets(s: State)
    ensures Next(s, CloseScreen) == if s.phase.AtKeys? then Init() else s
    ensures Init().ledger.tasks == [] && Init().answers == [] && Init().policy == None && Init().busy == None
    ensures Init().cmds == [] && Init().events == [] && Init().sent == []
  {
    hide PressEnqueue, PressQueueKey, DispatchPhase, DrainOne, DrainEnd;
  }
}
