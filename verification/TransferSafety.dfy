/** What every interleaving of the transfer loop and its worker keeps. The
    invariant is a conjunction of facts, each about a few fields of the state. */
module TransferSafety {
  import opened Prelude
  import opened Keys
  import opened Transfer
  import L = Ledger

  // ---- the queue under edits ----

  lemma {:induction false} EnqueueAllKeeps(s: L.State, jobs: seq<L.Job>)
    requires L.Sound(s)
    ensures var t := EnqueueAll(s, jobs);
            && L.Sound(t)
            && t.paused == s.paused
            && t.nextId == s.nextId + |jobs|
            && L.InflightId(t) == L.InflightId(s)
            && (L.HasInflight(s) ==> L.LastDirection(t) == L.LastDirection(s))
            && (forall id: nat :: FreshIds(s.nextId, |jobs|)[id] == if s.nextId <= id < t.nextId then 1 else 0)
            && (forall id: nat :: Waits(t.tasks, id) <==> Waits(s.tasks, id) || s.nextId <= id < t.nextId)
    decreases |jobs|
  {
    hide L.First, L.Sound, L.LastDirection;
    if jobs != [] {
      var init, job := jobs[..|jobs| - 1], jobs[|jobs| - 1];
      EnqueueAllKeeps(s, init);
      var u := EnqueueAll(s, init);
      L.EditKeepsSound(u, L.Add(job));
      L.EditKeepsRunning(u, L.Add(job));
      var t := EnqueueAll(s, jobs);
      forall id: nat ensures Waits(t.tasks, id) <==> Waits(u.tasks, id) || id == u.nextId {
        assert t.tasks[|u.tasks|] in t.tasks;
      }
    }
  }

  lemma ActKeeps(s: L.State, a: L.Act)
    requires L.Sound(s)
    ensures var t := L.ApplyAct(s, a);
            && L.Sound(t)
            && L.InflightId(t) == L.InflightId(s)
            && (L.HasInflight(s) ==> L.LastDirection(t) == L.LastDirection(s))
  {
    hide L.First, L.Sound, L.LastDirection, L.Retry, L.Remove;
    match a
    case Nothing =>
    case CancelRunning =>
    case RetryTask(id) => L.EditKeepsSound(s, L.Redo(id)); L.EditKeepsRunning(s, L.Redo(id));
    case RemoveTask(id) => L.EditKeepsSound(s, L.Drop(id)); L.EditKeepsRunning(s, L.Drop(id));
    case TogglePause => L.EditKeepsSound(s, L.Pause); L.EditKeepsRunning(s, L.Pause);
  }

  /** Retrying and removing move the queue by exactly the entry they name. */
  lemma ActMovesQueue(s: L.State, a: L.Act, id: L.TaskId)
    requires L.Sound(s)
    ensures Waits(L.ApplyAct(s, a).tasks, id) <==>
              if a == L.RetryTask(id) then Waits(s.tasks, id) || L.Retry(s, id).1
              else if a == L.RemoveTask(id) then false
              else Waits(s.tasks, id)
    ensures a.RetryTask? && L.Retry(s, a.id).1 ==> !Waits(s.tasks, a.id)
  {
    hide L.First, L.Without;
    var tasks, after := s.tasks, L.ApplyAct(s, a).tasks;
    forall u, v | u in tasks && v in tasks && u.id == v.id ensures u == v {
      var i, j :| 0 <= i < |tasks| && 0 <= j < |tasks| && tasks[i] == u && tasks[j] == v;
    }
    if a.RetryTask? {
      var i := L.First(tasks, L.WithId(a.id));
      if i.Some? && L.Retryable(tasks[i.value]) {
        assert after[i.value] in after && tasks[i.value] in tasks;
        forall u | u in tasks && u.id != a.id ensures u in after {
          var k :| 0 <= k < |tasks| && tasks[k] == u;
          assert after[k] == u;
        }
      }
    }
  }

  lemma SameWaiting(s: L.State, e: L.Edit)
    requires e.Tick? || e.End?
    ensures var t := L.ApplyEdit(s, e);
            && (forall id :: Waits(t.tasks, id) <==> Waits(s.tasks, id))
            && (L.First(t.tasks, L.Waiting).Some? <==> L.First(s.tasks, L.Waiting).Some?)
            && t.paused == s.paused
  {
    hide L.First;
    var t, i := L.ApplyEdit(s, e), L.First(s.tasks, L.Running);
    if i.Some? {
      forall u: L.Task | u.state.Queued? ensures u in t.tasks <==> u in s.tasks {
        if u in s.tasks {
          var k :| 0 <= k < |s.tasks| && s.tasks[k] == u;
          assert t.tasks[k] == u;
        }
        if u in t.tasks {
          var k :| 0 <= k < |t.tasks| && t.tasks[k] == u;
          assert s.tasks[k] == u;
        }
      }
    }
  }

  /** Starting a task from rest: it alone runs, and it alone stops waiting. */
  lemma StartRuns(s: L.State)
    requires L.Sound(s) && !L.HasInflight(s) && L.Start(s).1.Some?
    ensures var (t, id) := L.Start(s);
            && L.Sound(t)
            && L.HasInflight(t)
            && L.InflightId(t) == id
            && L.JobFor(t, id.value).Some?
            && L.LastDirection(t) == Some(L.JobFor(t, id.value).value.direction)
            && Waits(s.tasks, id.value)
            && (forall x: nat :: Waits(t.tasks, x) <==> Waits(s.tasks, x) && x != id.value)
  {
    hide L.First, L.LastDirection;
    L.StartKeepsSound(s);
    var i, t := L.First(s.tasks, L.Waiting).value, L.Start(s).0;
    assert t.tasks[i] in t.tasks && s.tasks[i] in s.tasks;
    L.ElementRuns(t, t.tasks[i]);
    forall u: L.Task | u.state.Queued? ensures u in t.tasks <==> u in s.tasks && u.id != s.tasks[i].id {
      if u in s.tasks && u.id != s.tasks[i].id {
        var k :| 0 <= k < |s.tasks| && s.tasks[k] == u;
        assert t.tasks[k] == u;
      }
      if u in t.tasks {
        var k :| 0 <= k < |t.tasks| && t.tasks[k] == u;
        assert s.tasks[k] == u;
      }
    }
  }

  // ---- messages under way ----

  function JobsIn(cmds: seq<Cmd>): nat {
    if cmds == [] then 0 else (if cmds[0].SendJob? then 1 else 0) + JobsIn(cmds[1..])
  }

  function DonesIn(events: seq<Event>): nat {
    if events == [] then 0 else (if events[0].JobDone? then 1 else 0) + DonesIn(events[1..])
  }

  function Outstanding(cmds: seq<Cmd>, busy: Option<Running>, events: seq<Event>): nat {
    JobsIn(cmds) + (if busy.Some? then 1 else 0) + DonesIn(events)
  }

  lemma {:induction false} JobsAppend(a: seq<Cmd>, c: Cmd)
    ensures JobsIn(a + [c]) == JobsIn(a) + (if c.SendJob? then 1 else 0)
  {
    if a != [] {
      assert (a + [c])[1..] == a[1..] + [c];
      JobsAppend(a[1..], c);
    }
  }

  lemma {:induction false} DonesAppend(a: seq<Event>, e: Event)
    ensures DonesIn(a + [e]) == DonesIn(a) + (if e.JobDone? then 1 else 0)
  {
    if a != [] {
      assert (a + [e])[1..] == a[1..] + [e];
      DonesAppend(a[1..], e);
    }
  }

  lemma {:induction false} NoJobs(cmds: seq<Cmd>)
    ensures JobsIn(cmds) == 0 <==> forall c | c in cmds :: !c.SendJob?
  {
    if cmds != [] {
      NoJobs(cmds[1..]);
      assert cmds == [cmds[0]] + cmds[1..];
    }
  }

  lemma {:induction false} NoDones(events: seq<Event>)
    ensures DonesIn(events) == 0 <==> forall e | e in events :: !e.JobDone?
  {
    if events != [] {
      NoDones(events[1..]);
      assert events == [events[0]] + events[1..];
    }
  }

  // ---- the invariant ----

  function Latest(sent: seq<Sent>): Sent
    requires sent != []
  {
    sent[|sent| - 1]
  }

  /** The ledger's running task is the last job sent, and it is in exactly one
      place: on its way, in the worker, or done and not yet drained. */
  ghost predicate Tracked(ledger: L.State, policy: Option<Policy>, sent: seq<Sent>, outstanding: nat) {
    && L.Sound(ledger)
    && outstanding == (if L.HasInflight(ledger) then 1 else 0)
    && (L.HasInflight(ledger) ==>
          && sent != []
          && L.InflightId(ledger) == Some(Latest(sent).id)
          && L.LastDirection(ledger) == Some(Latest(sent).job.direction)
          && Latest(sent).policy == PolicyOr(policy))
  }

  predicate CmdFits(c: Cmd, sent: seq<Sent>) {
    c.SendJob? ==> sent != [] && c == SendJob(|sent| - 1, Latest(sent).job, Latest(sent).policy)
  }

  predicate RunFits(r: Running, sent: seq<Sent>) {
    sent != [] && r == Running(|sent| - 1, Latest(sent).job, Latest(sent).policy) && !Skips(r.policy)
  }

  predicate EventFits(e: Event, sent: seq<Sent>) {
    e.JobDone? ==> e.serial + 1 == |sent|
  }

  /** Every message about a job is about the last job sent. */
  ghost predicate Labelled(cmds: seq<Cmd>, busy: Option<Running>, events: seq<Event>, sent: seq<Sent>) {
    && (forall c | c in cmds :: CmdFits(c, sent))
    && (busy.Some? ==> RunFits(busy.value, sent))
    && (forall e | e in events :: EventFits(e, sent))
  }

  /** A cancel can only meet the job it was meant for: it waits behind that job,
      or while that job runs, and every later job waits behind it. */
  ghost predicate Aimed(cmds: seq<Cmd>, busy: Option<Running>, sends: nat) {
    && (busy.Some? ==> forall c | c in cmds && c.CancelJob? :: c.serial == busy.value.serial)
    && (forall i, j | 0 <= i < j < |cmds| && cmds[i].SendJob? && cmds[j].CancelJob? :: cmds[i].serial == cmds[j].serial)
    && (forall i, j | 0 <= i < j < |cmds| && cmds[i].CancelJob? && cmds[j].SendJob? :: cmds[i].serial < cmds[j].serial)
    && (forall c | c in cmds && c.CancelJob? :: c.serial < sends)
  }

  predicate Due(phase: Phase, pendingAdvance: bool) {
    pendingAdvance || (!phase.AtKeys? && phase.advance)
  }

  /** When a dispatch is due nothing runs; between ticks nothing is pending; a
      cancel waits only until its own tick ends. */
  ghost predicate Phased(phase: Phase, advance: bool, cancel: Option<nat>, ledger: L.State, sends: nat) {
    && (phase.AtKeys? ==> !advance)
    && (!phase.Draining? ==> cancel.None?)
    && (cancel.Some? ==> cancel.value + 1 == sends)
    && (Due(phase, advance) ==> !L.HasInflight(ledger))
  }

  /** All answers but the last are Esc; the last one, if not Esc, is the policy. */
  ghost predicate AnswersSettle(answers: seq<Answer>, policy: Option<Policy>) {
    match policy
    case None => forall a | a in answers :: a == Escaped
    case Some(p) =>
      && answers != []
      && (forall k | 0 <= k < |answers| - 1 :: answers[k] == Escaped)
      && answers[|answers| - 1] != Escaped
      && p == Settle(answers[|answers| - 1])
  }

  predicate Refused(answers: seq<Answer>) {
    No in answers || PopupFailed in answers
  }

  /** What the program promises for one batch: an existing file is overwritten
      only after a Yes, and a job is skipped only after a refusal, of that batch. */
  predicate KeptPerBatch(r: Sent, answers: seq<Answer>)
    requires r.batch.since <= r.answers <= |answers|
  {
    var own := answers[r.batch.since..r.answers];
    (r.existed && !Skips(r.policy) ==> Yes in own) && (Skips(r.policy) ==> Refused(own))
  }

  /** The batch found no policy set, or a Yes that this job has no use for. */
  predicate OwnAnswerDecides(r: Sent) {
    r.batch.inherited.None? || (r.batch.inherited == Some(OverwriteAll) && !r.existed)
  }

  /** What the answers so far say about a job: they decide whether it is skipped
      and, for an existing file, whether it is overwritten; those of its own
      batch decide under `OwnAnswerDecides`. */
  predicate Permitted(r: Sent, answers: seq<Answer>) {
    && r.batch.since <= r.answers <= |answers|
    && (Skips(r.policy) <==> Refused(answers[..r.answers]))
    && (r.existed ==> (!Skips(r.policy) <==> Yes in answers[..r.answers]))
    && (KeptPerBatch(r, answers) <==> OwnAnswerDecides(r))
  }

  /** The batch began with `inherited` settled; if that was a policy, nothing has
      been asked since. */
  ghost predicate Began(b: Batch, policy: Option<Policy>, answers: seq<Answer>) {
    && b.since <= |answers|
    && AnswersSettle(answers[..b.since], b.inherited)
    && (b.inherited.Some? ==> b.inherited == policy && b.since == |answers|)
  }

  ghost predicate Asked(policy: Option<Policy>, answers: seq<Answer>, batch: Batch, sent: seq<Sent>) {
    AnswersSettle(answers, policy) && Began(batch, policy, answers) && forall r | r in sent :: Permitted(r, answers)
  }

  function SentIds(sent: seq<Sent>): multiset<L.TaskId> {
    if sent == [] then multiset{} else SentIds(sent[..|sent| - 1]) + multiset{sent[|sent| - 1].id}
  }

  /** Every entry into the queue ends in a send, a drop, or still waits. */
  ghost predicate Conserved(entered: multiset<L.TaskId>, dropped: multiset<L.TaskId>, sent: seq<Sent>,
                            tasks: seq<L.Task>)
  {
    forall id: L.TaskId :: entered[id] == SentIds(sent)[id] + dropped[id] + (if Waits(tasks, id) then 1 else 0)
  }

  /** The queue rests with work waiting only if paused or after a failure. */
  ghost predicate Lively(ledger: L.State, failedLast: bool, due: bool) {
    !L.HasInflight(ledger) && !ledger.paused && L.First(ledger.tasks, L.Waiting).Some? ==> failedLast || due
  }

  ghost predicate Inv(s: State) {
    && Tracked(s.ledger, s.policy, s.sent, Outstanding(s.cmds, s.busy, s.events))
    && Labelled(s.cmds, s.busy, s.events, s.sent)
    && Aimed(s.cmds, s.busy, |s.sent|)
    && Phased(s.phase, s.pendingAdvance, s.pendingCancel, s.ledger, |s.sent|)
    && Asked(s.policy, s.answers, s.batch, s.sent)
    && Conserved(s.entered, s.dropped, s.sent, s.ledger.tasks)
    && Lively(s.ledger, s.failedLast, Due(s.phase, s.pendingAdvance))
  }

  lemma InitIsSound()
    ensures Inv(Init())
  {
  }

  // ---- adding and taking messages ----

  lemma AddCmd(s: State, c: Cmd)
    requires Labelled(s.cmds, s.busy, s.events, s.sent) && CmdFits(c, s.sent)
    ensures Labelled(s.cmds + [c], s.busy, s.events, s.sent)
    ensures Outstanding(s.cmds + [c], s.busy, s.events)
            == Outstanding(s.cmds, s.busy, s.events) + (if c.SendJob? then 1 else 0)
  {
    JobsAppend(s.cmds, c);
  }

  lemma AimAppend(cmds: seq<Cmd>, busy: Option<Running>, sends: nat, c: Cmd)
    requires Aimed(cmds, busy, sends) && !c.SendJob?
    requires c.CancelJob? ==> c.serial + 1 == sends && (busy.Some? ==> busy.value.serial == c.serial)
    requires c.CancelJob? ==> forall d | d in cmds && d.SendJob? :: d.serial == c.serial
    ensures Aimed(cmds + [c], busy, sends)
  {
    forall k | 0 <= k < |cmds| ensures cmds[k] in cmds && (cmds + [c])[k] == cmds[k] { }
  }

  lemma AimNewJob(cmds: seq<Cmd>, sends: nat, c: Cmd)
    requires Aimed(cmds, None, sends) && c.SendJob? && c.serial == sends
    ensures Aimed(cmds + [c], None, sends + 1)
  {
    forall k | 0 <= k < |cmds| ensures cmds[k] in cmds && (cmds + [c])[k] == cmds[k] { }
  }

  lemma AimTake(cmds: seq<Cmd>, busy: Option<Running>, sends: nat)
    requires Aimed(cmds, busy, sends) && cmds != []
    ensures Aimed(cmds[1..], busy, sends) && Aimed(cmds[1..], None, sends)
    ensures cmds[0].SendJob? ==>
              forall job, policy :: Aimed(cmds[1..], Some(Running(cmds[0].serial, job, policy)), sends)
    ensures cmds[0].CancelJob? && busy.Some? ==> cmds[0].serial == busy.value.serial
  {
    var rest := cmds[1..];
    assert cmds[0] in cmds;
    forall k | 0 <= k < |rest| ensures rest[k] == cmds[k + 1] && rest[k] in cmds { }
  }

  // ---- the worker ----

  /** Nothing in flight: no message about a job anywhere. */
  lemma NothingOutstanding(s: State)
    requires Tracked(s.ledger, s.policy, s.sent, Outstanding(s.cmds, s.busy, s.events)) && !L.HasInflight(s.ledger)
    ensures s.busy.None? && JobsIn(s.cmds) == 0 && DonesIn(s.events) == 0
    ensures forall c | c in s.cmds :: !c.SendJob?
    ensures forall e | e in s.events :: !e.JobDone?
  {
    hide L.HasInflight, L.Sound, L.LastDirection, L.InflightId;
    NoJobs(s.cmds);
    NoDones(s.events);
  }

  /** While the worker runs a job no other is on its way: none is swallowed. */
  lemma OneJobAtATime(s: State)
    requires Tracked(s.ledger, s.policy, s.sent, Outstanding(s.cmds, s.busy, s.events)) && s.busy.Some?
    ensures L.HasInflight(s.ledger)
    ensures forall c | c in s.cmds :: !c.SendJob?
    ensures forall e | e in s.events :: !e.JobDone?
  {
    hide L.HasInflight, L.Sound, L.LastDirection, L.InflightId;
    NoJobs(s.cmds);
    NoDones(s.events);
  }

  lemma AddEvent(cmds: seq<Cmd>, busy: Option<Running>, events: seq<Event>, sent: seq<Sent>, e: Event)
    requires Labelled(cmds, busy, events, sent) && EventFits(e, sent)
    ensures Labelled(cmds, busy, events + [e], sent)
    ensures Outstanding(cmds, busy, events + [e]) == Outstanding(cmds, busy, events) + (if e.JobDone? then 1 else 0)
  {
    DonesAppend(events, e);
  }

  lemma GoIdle(cmds: seq<Cmd>, busy: Option<Running>, events: seq<Event>, sent: seq<Sent>)
    requires Labelled(cmds, busy, events, sent)
    ensures Labelled(cmds, None, events, sent)
    ensures Outstanding(cmds, None, events) == Outstanding(cmds, busy, events) - (if busy.Some? then 1 else 0)
    ensures busy.Some? ==> forall outcome :: EventFits(JobDone(busy.value.serial, outcome), sent)
    ensures Aimed(cmds, busy, |sent|) ==> Aimed(cmds, None, |sent|)
  {
  }

  lemma TakeMessage(cmds: seq<Cmd>, busy: Option<Running>, events: seq<Event>, sent: seq<Sent>)
    requires Labelled(cmds, busy, events, sent) && cmds != []
    ensures Labelled(cmds[1..], busy, events, sent) && CmdFits(cmds[0], sent)
    ensures Outstanding(cmds[1..], busy, events)
            == Outstanding(cmds, busy, events) - (if cmds[0].SendJob? then 1 else 0)
  {
    assert forall c | c in cmds[1..] :: c in cmds;
  }

  lemma GoBusy(cmds: seq<Cmd>, events: seq<Event>, sent: seq<Sent>, r: Running)
    requires Labelled(cmds, None, events, sent) && RunFits(r, sent)
    ensures Labelled(cmds, Some(r), events, sent)
    ensures Outstanding(cmds, Some(r), events) == Outstanding(cmds, None, events) + 1
  {
  }

  /** Taking a message loses no job and mislabels none. */
  lemma TakeKeepsMessages(s: State, spawns: bool)
    requires Tracked(s.ledger, s.policy, s.sent, Outstanding(s.cmds, s.busy, s.events)) && s.cmds != []
    requires Labelled(s.cmds, s.busy, s.events, s.sent) && Aimed(s.cmds, s.busy, |s.sent|)
    ensures var t := TakeCmd(s, spawns);
            && Outstanding(t.cmds, t.busy, t.events) == Outstanding(s.cmds, s.busy, s.events)
            && Labelled(t.cmds, t.busy, t.events, t.sent)
            && Aimed(t.cmds, t.busy, |t.sent|)
  {
    hide Tracked, Aimed, Labelled, Outstanding;
    var c, rest := s.cmds[0], s.cmds[1..];
    assert s.events + [] == s.events;
    TakeMessage(s.cmds, s.busy, s.events, s.sent);
    AimTake(s.cmds, s.busy, |s.sent|);
    if s.busy.Some? {
      OneJobAtATime(s);
      assert c in s.cmds;
      if c.CancelJob? {
        GoIdle(rest, s.busy, s.events, s.sent);
        AddEvent(rest, None, s.events, s.sent, JobDone(s.busy.value.serial, L.Cancelled));
      }
    } else {
      match c
      case CancelJob(_) =>
      case OtherCmd => AddEvent(rest, None, s.events, s.sent, OtherEvent);
      case SendJob(serial, job, policy) =>
        AddEvent(rest, None, s.events, s.sent, JobDone(serial, L.Succeeded));
        AddEvent(rest, None, s.events, s.sent, JobDone(serial, L.Failed("sftp spawn failed")));
        if !Skips(policy) {
          GoBusy(rest, s.events, s.sent, Running(serial, job, policy));
        }
    }
  }

  lemma WorkerFrame(s: State, step: Step)
    requires IsWorkerStep(step)
    ensures var t := Next(s, step); t == s.(cmds := t.cmds, busy := t.busy, events := t.events)
  {
    hide PressEnqueue, PressQueueKey, DispatchPhase, DrainOne, DrainEnd;
  }

  lemma EndKeepsMessages(s: State, outcome: L.Outcome)
    requires s.busy.Some?
    requires Labelled(s.cmds, s.busy, s.events, s.sent) && Aimed(s.cmds, s.busy, |s.sent|)
    ensures var t := EndJob(s, outcome);
            && Outstanding(t.cmds, t.busy, t.events) == Outstanding(s.cmds, s.busy, s.events)
            && Labelled(t.cmds, t.busy, t.events, t.sent)
            && Aimed(t.cmds, t.busy, |t.sent|)
  {
    hide Aimed, Labelled, Outstanding;
    GoIdle(s.cmds, s.busy, s.events, s.sent);
    AddEvent(s.cmds, None, s.events, s.sent, JobDone(s.busy.value.serial, outcome));
  }

  lemma WorkerKeepsMessages(s: State, step: Step)
    requires Tracked(s.ledger, s.policy, s.sent, Outstanding(s.cmds, s.busy, s.events)) && IsWorkerStep(step)
    requires Labelled(s.cmds, s.busy, s.events, s.sent) && Aimed(s.cmds, s.busy, |s.sent|)
    ensures var t := Next(s, step);
            && t == s.(cmds := t.cmds, busy := t.busy, events := t.events)
            && Outstanding(t.cmds, t.busy, t.events) == Outstanding(s.cmds, s.busy, s.events)
            && Labelled(t.cmds, t.busy, t.events, t.sent)
            && Aimed(t.cmds, t.busy, |t.sent|)
  {
    hide Tracked, Aimed, Labelled, Outstanding, TakeCmd, EndJob, PressEnqueue, PressQueueKey, DispatchPhase,
         DrainOne, DrainEnd;
    WorkerFrame(s, step);
    match step
    case WorkerProgress(p) => AddEvent(s.cmds, s.busy, s.events, s.sent, JobProgress(p));
    case WorkerEnd(outcome) =>
      if s.busy.Some? {
        EndKeepsMessages(s, outcome);
      }
    case WorkerTake(spawns) => if s.cmds != [] { TakeKeepsMessages(s, spawns); }
  }

  lemma WorkerKeeps(s: State, step: Step)
    requires Inv(s) && IsWorkerStep(step)
    ensures Inv(Next(s, step))
  {
    hide Next, Outstanding, Tracked, Labelled, Aimed, Phased, Asked, Conserved, Lively;
    WorkerKeepsMessages(s, step);
  }

  // ---- the keys ----

  lemma RouteKeeps(s: State, out: L.ScreenOutcome)
    requires Tracked(s.ledger, s.policy, s.sent, Outstanding(s.cmds, s.busy, s.events))
    requires Phased(s.phase, s.pendingAdvance, s.pendingCancel, s.ledger, |s.sent|) && s.phase.AtKeys?
    requires out.CancelActive? ==> L.HasInflight(s.ledger)
    requires Lively(s.ledger, s.failedLast, out.EnqueueOutcome?)
    ensures var t := Route(s, out).(phase := Draining(false, None));
            && Phased(t.phase, t.pendingAdvance, t.pendingCancel, t.ledger, |t.sent|)
            && Lively(t.ledger, t.failedLast, Due(t.phase, t.pendingAdvance))
  {
    hide L.HasInflight, L.First, L.Sound, L.LastDirection, L.InflightId, Outstanding;
  }

  lemma EnqueueKeyKeeps(s: State, jobs: seq<L.Job>)
    requires Inv(s) && s.phase.AtKeys? && jobs != []
    ensures Inv(Next(s, EnqueueKey(jobs)))
  {
    hide Outstanding, Labelled, Aimed, Asked, BatchNow, EnqueueAll, L.First, L.Sound, L.LastDirection, Waits;
    EnqueueAllKeeps(s.ledger, jobs);
    BatchNowKeeps(s);
    NothingBeyond(s.ledger);
    RouteKeeps(EnqueueJobs(s, jobs), L.EnqueueOutcome);
  }

  lemma NothingBeyond(s: L.State)
    requires L.Sound(s)
    ensures forall id | s.nextId <= id :: !Waits(s.tasks, id)
  {
  }

  lemma ActConserves(s: State, a: L.Act)
    requires L.Sound(s.ledger) && Conserved(s.entered, s.dropped, s.sent, s.ledger.tasks)
    ensures var t := ActOnLedger(s, a); Conserved(t.entered, t.dropped, t.sent, t.ledger.tasks)
  {
    hide L.ApplyAct, L.Sound, L.Retry, Waits, SentIds;
    var t := ActOnLedger(s, a);
    forall id: L.TaskId
      ensures t.entered[id] == SentIds(t.sent)[id] + t.dropped[id] + (if Waits(t.ledger.tasks, id) then 1 else 0)
    {
      ActMovesQueue(s.ledger, a, id);
    }
  }

  /** Resuming or retrying with nothing in flight asks for a dispatch. */
  lemma ActKeepsLively(s: L.State, a: L.Act, failedLast: bool)
    requires Lively(s, failedLast, false) && L.Sound(s)
    ensures Lively(L.ApplyAct(s, a), failedLast, L.OutcomeOf(s, a).EnqueueOutcome?)
  {
    hide L.First, L.Sound, L.LastDirection, L.Without;
    ActKeeps(s, a);
    L.CountIsSome(s.tasks, L.Waiting);
    if a.RemoveTask? {
      var t := L.ApplyAct(s, a);
      if w :| w in t.tasks && w.state.Queued? {
        assert w in s.tasks;
      }
    }
  }

  lemma QueueKeyKeeps(s: State, o: L.Overlay, key: Key)
    requires Inv(s) && s.phase.AtKeys? && key.press
    ensures Inv(Next(s, QueueKey(o, key)))
  {
    hide Outstanding, Labelled, Aimed, Asked, BatchNow, Conserved, L.First, L.Sound, L.LastDirection, L.ActOf,
         L.Clamped, L.ViewRows, L.ApplyAct, L.OutcomeOf;
    var a := L.ActOf(o, s.ledger, key);
    L.KeyActsOnShownTask(o, s.ledger, key);
    ActKeeps(s.ledger, a);
    BatchNowKeeps(s);
    ActConserves(s, a);
    ActKeepsLively(s.ledger, a, s.failedLast);
    RouteKeeps(ActOnLedger(s, a), L.OutcomeOf(s.ledger, a));
  }

  lemma TimeoutKeeps(s: State)
    requires Inv(s) && s.phase.AtKeys?
    ensures Inv(s.(phase := Draining(false, None)))
  {
    hide Outstanding, Tracked, Labelled, Aimed, Asked, Conserved, L.HasInflight;
  }

  // ---- the drain ----

  lemma TakeEvent(s: State)
    requires Labelled(s.cmds, s.busy, s.events, s.sent) && s.events != []
    ensures Labelled(s.cmds, s.busy, s.events[1..], s.sent) && EventFits(s.events[0], s.sent)
    ensures Outstanding(s.cmds, s.busy, s.events[1..])
            == Outstanding(s.cmds, s.busy, s.events) - (if s.events[0].JobDone? then 1 else 0)
  {
  }

  /** A finished job settles the running task; only success or cancellation asks
      for the next one. */
  lemma DrainDone(s: State)
    requires Inv(s) && s.phase.Draining? && s.events != [] && s.events[0].JobDone?
    ensures Inv(DrainOne(s))
  {
    hide Outstanding, Labelled, Aimed, Asked, L.First, L.Sound, L.LastDirection, L.InflightId, L.Finish,
         L.HasInflight, Waits;
    var outcome, t := s.events[0].outcome, DrainOne(s);
    TakeEvent(s);
    L.EditKeepsSound(s.ledger, L.End(outcome));
    L.FinishStops(s.ledger, outcome);
    SameWaiting(s.ledger, L.End(outcome));
  }

  lemma DrainOther(s: State)
    requires Inv(s) && s.phase.Draining? && s.events != [] && !s.events[0].JobDone?
    ensures Inv(DrainOne(s))
  {
    hide Outstanding, Labelled, Aimed, Asked, L.First, L.Sound, L.LastDirection, L.InflightId, L.SetProgress,
         L.HasInflight, Waits;
    var t := DrainOne(s);
    TakeEvent(s);
    if s.events[0].JobProgress? {
      var p := s.events[0].progress;
      L.EditKeepsSound(s.ledger, L.Tick(p));
      L.EditKeepsRunning(s.ledger, L.Tick(p));
      SameWaiting(s.ledger, L.Tick(p));
    }
  }

  lemma LeaveKeeps(s: State)
    requires Inv(s) && s.phase.Draining? && s.events == []
    ensures Inv(DrainEnd(s))
  {
    hide Outstanding, Aimed, Asked, Conserved, Tracked, L.HasInflight;
    if s.pendingCancel.Some? {
      var c := CancelJob(s.pendingCancel.value);
      AddCmd(s, c);
      assert forall d | d in s.cmds && d.SendJob? :: CmdFits(d, s.sent);
      AimAppend(s.cmds, s.busy, |s.sent|, c);
    }
  }

  lemma OtherKeeps(s: State)
    requires Inv(s)
    ensures Inv(s.(cmds := s.cmds + [OtherCmd]))
  {
    hide Outstanding, Labelled, Aimed, Asked, Conserved, Tracked, Lively, Phased;
    AddCmd(s, OtherCmd);
    AimAppend(s.cmds, s.busy, |s.sent|, OtherCmd);
  }

  // ---- the dispatch ----

  /** The state a dispatch may start from. */
  ghost predicate Ready(s: State) {
    Busy(s) && !L.HasInflight(s.ledger)
  }

  ghost predicate Busy(s: State) {
    && Tracked(s.ledger, s.policy, s.sent, Outstanding(s.cmds, s.busy, s.events))
    && Labelled(s.cmds, s.busy, s.events, s.sent)
    && Aimed(s.cmds, s.busy, |s.sent|)
    && Asked(s.policy, s.answers, s.batch, s.sent)
    && Conserved(s.entered, s.dropped, s.sent, s.ledger.tasks)
  }

  lemma SentOneMore(sent: seq<Sent>, r: Sent)
    ensures SentIds(sent + [r]) == SentIds(sent) + multiset{r.id} && Latest(sent + [r]) == r
  {
    assert (sent + [r])[..|sent|] == sent;
  }

  /** Later answers change nothing for a job already sent. */
  lemma PermittedStays(r: Sent, before: seq<Answer>, answers: seq<Answer>)
    requires Permitted(r, before) && before <= answers
    ensures Permitted(r, answers)
  {
    assert before[..r.answers] == answers[..r.answers];
    assert before[r.batch.since..r.answers] == answers[r.batch.since..r.answers];
  }

  lemma BeganStays(b: Batch, before: seq<Answer>, answers: seq<Answer>, policy: Option<Policy>)
    requires Began(b, None, before) && before <= answers
    ensures Began(b, policy, answers)
  {
    assert before[..b.since] == answers[..b.since];
  }

  /** The answers that settle a policy contain the one it came from and no other
      but Esc. */
  lemma SettledAnswers(answers: seq<Answer>, policy: Option<Policy>)
    requires AnswersSettle(answers, policy)
    ensures Yes in answers <==> policy == Some(OverwriteAll)
    ensures Refused(answers) <==> policy == Some(SkipAll)
    ensures policy in {None, Some(OverwriteAll), Some(SkipAll)}
  {
    if policy.Some? {
      var last := answers[|answers| - 1];
      assert last in answers;
      forall a | a in answers ensures a == Escaped || a == last {
        var k :| 0 <= k < |answers| && answers[k] == a;
      }
    }
  }

  lemma NewJobPermitted(r: Sent, policy: Option<Policy>, answers: seq<Answer>)
    requires AnswersSettle(answers, policy) && Began(r.batch, policy, answers)
    requires r.answers == |answers| && r.policy == PolicyOr(policy) && (r.existed ==> policy.Some?)
    ensures Permitted(r, answers)
  {
    hide AnswersSettle;
    var old_, own := answers[..r.batch.since], answers[r.batch.since..];
    assert answers[..|answers|] == answers && answers[r.batch.since..|answers|] == own && answers == old_ + own;
    SettledAnswers(answers, policy);
    SettledAnswers(old_, r.batch.inherited);
    if r.batch.inherited.Some? {
      assert own == [];
    }
  }

  lemma SendKeepsAnswers(policy: Option<Policy>, before: seq<Answer>, answers: seq<Answer>, sent: seq<Sent>, r: Sent)
    requires forall q | q in sent :: Permitted(q, before)
    requires before <= answers && AnswersSettle(answers, policy) && Began(r.batch, policy, answers)
    requires r.answers == |answers| && r.policy == PolicyOr(policy) && (r.existed ==> policy.Some?)
    ensures Asked(policy, answers, r.batch, sent + [r])
  {
    hide AnswersSettle, Began, Permitted;
    forall q | q in sent ensures Permitted(q, answers) {
      PermittedStays(q, before, answers);
    }
    NewJobPermitted(r, policy, answers);
  }

  /** Entering an idle queue begins a batch under the policy of the moment. */
  lemma BatchNowKeeps(s: State)
    requires Asked(s.policy, s.answers, s.batch, s.sent)
    ensures Asked(s.policy, s.answers, BatchNow(s), s.sent)
  {
    hide AnswersSettle, Permitted, Idle;
    assert s.answers[..|s.answers|] == s.answers;
  }

  /** The first message about a new job is the only message about any job. */
  lemma SendKeepsMessages(s: State, r: Sent)
    requires Tracked(s.ledger, s.policy, s.sent, Outstanding(s.cmds, s.busy, s.events)) && !L.HasInflight(s.ledger)
    requires Aimed(s.cmds, s.busy, |s.sent|)
    ensures var cmds, sent := s.cmds + [SendJob(|s.sent|, r.job, r.policy)], s.sent + [r];
            && Outstanding(cmds, s.busy, s.events) == 1
            && Labelled(cmds, s.busy, s.events, sent)
            && Aimed(cmds, s.busy, |sent|)
  {
    hide Tracked, Aimed;
    NothingOutstanding(s);
    SentOneMore(s.sent, r);
    var c := SendJob(|s.sent|, r.job, r.policy);
    JobsAppend(s.cmds, c);
    AimNewJob(s.cmds, |s.sent|, c);
  }

  /** Handing a started task to the worker, with the answers given by then. */
  lemma SendKeeps(s: State, policy: Option<Policy>, answers: seq<Answer>, existed: bool)
    requires Ready(s) && L.Start(s.ledger).1.Some?
    requires s.answers <= answers && AnswersSettle(answers, policy) && Began(s.batch, policy, answers)
    requires existed ==> policy.Some?
    ensures var (ledger, id) := L.Start(s.ledger);
            && L.JobFor(ledger, id.value).Some?
            && Busy(Send(s.(ledger := ledger, policy := policy, answers := answers, failedLast := false),
                         id.value, L.JobFor(ledger, id.value).value, PolicyOr(policy), existed))
  {
    hide Outstanding, Labelled, Aimed, AnswersSettle, Began, Permitted, Waits, SentIds;
    hide L.First, L.Sound, L.LastDirection, L.InflightId, L.Start, L.JobFor, L.HasInflight;
    StartRuns(s.ledger);
    var (ledger, id) := L.Start(s.ledger);
    var job := L.JobFor(ledger, id.value).value;
    var r := Sent(id.value, job, PolicyOr(policy), existed, |answers|, s.batch);
    SendKeepsMessages(s, r);
    SendKeepsAnswers(policy, s.answers, answers, s.sent, r);
    SentOneMore(s.sent, r);
    var u := Send(s.(ledger := ledger, policy := policy, answers := answers, failedLast := false),
                  id.value, job, PolicyOr(policy), existed);
    assert Conserved(u.entered, u.dropped, u.sent, u.ledger.tasks);
  }

  lemma EscapeKeepsAnswers(policy: Option<Policy>, answers: seq<Answer>, batch: Batch, sent: seq<Sent>)
    requires Asked(policy, answers, batch, sent) && policy.None?
    ensures Asked(policy, answers + [Escaped], batch, sent)
  {
    hide Permitted, Began;
    BeganStays(batch, answers, answers + [Escaped], None);
    forall r | r in sent ensures Permitted(r, answers + [Escaped]) {
      PermittedStays(r, answers, answers + [Escaped]);
    }
  }

  /** Esc in the popup: the job in hand and the whole queue are dropped, and
      nothing is sent. */
  lemma EscapeKeeps(s: State)
    requires Ready(s) && L.Start(s.ledger).1.Some? && s.policy.None?
    ensures var (ledger, id) := L.Start(s.ledger);
            var t := DropBatch(s.(ledger := ledger, answers := s.answers + [Escaped], failedLast := false), id.value);
            && Busy(t)
            && L.First(t.ledger.tasks, L.Waiting).None?
            && t.sent == s.sent && t.cmds == s.cmds
  {
    hide Outstanding, Labelled, Aimed, Asked, SentIds;
    hide L.First, L.Sound, L.LastDirection, L.InflightId, L.Start, L.JobFor, L.HasInflight, L.ClearQueued,
         L.AbortInflight;
    StartRuns(s.ledger);
    var (ledger, id) := L.Start(s.ledger);
    var after := L.ClearQueued(L.AbortInflight(ledger));
    L.BatchIsGone(ledger);
    L.EditKeepsSound(ledger, L.DropRunning);
    L.EditKeepsSound(L.AbortInflight(ledger), L.DropWaiting);
    EscapeKeepsAnswers(s.policy, s.answers, s.batch, s.sent);
    var t := DropBatch(s.(ledger := ledger, answers := s.answers + [Escaped], failedLast := false), id.value);
    assert Conserved(t.entered, t.dropped, t.sent, t.ledger.tasks);
  }

  lemma NothingToStart(s: L.State)
    requires L.Start(s).1.None?
    ensures s.paused || L.First(s.tasks, L.Waiting).None?
    ensures L.Start(s).0 == s
  {
    hide L.First;
  }

  lemma FirstAnswerSettles(answers: seq<Answer>, answer: Answer)
    requires AnswersSettle(answers, None) && answer != Escaped
    ensures AnswersSettle(answers + [answer], Some(Settle(answer)))
  {
    forall k | 0 <= k < |answers| ensures (answers + [answer])[k] == Escaped {
      assert answers[k] in answers;
    }
  }

  lemma DispatchNextKeeps(s: State, exists_: bool, answer: Answer)
    requires Ready(s)
    ensures var t := DispatchNextJob(s, exists_, answer);
            && Busy(t)
            && (L.HasInflight(t.ledger) || t.ledger.paused || L.First(t.ledger.tasks, L.Waiting).None?)
            && t == s.(ledger := t.ledger, policy := t.policy, cmds := t.cmds, sent := t.sent,
                       answers := t.answers, dropped := t.dropped, failedLast := false)
  {
    hide Tracked, Labelled, Aimed, Conserved, AnswersSettle, Began, Permitted, Outstanding;
    hide L.First, L.Sound, L.LastDirection, L.InflightId, L.JobFor, L.Start, L.HasInflight;
    ReadyIsSound(s);
    var (ledger, id) := L.Start(s.ledger);
    if id.None? {
      NothingToStart(s.ledger);
    } else {
      StartRuns(s.ledger);
      var job := L.JobFor(ledger, id.value).value;
      var existed := job.direction.Download? && exists_;
      if existed && s.policy.None? {
        if answer.Escaped? {
          EscapeKeeps(s);
        } else {
          FirstAnswerSettles(s.answers, answer);
          BeganStays(s.batch, s.answers, s.answers + [answer], Some(Settle(answer)));
          SendKeeps(s, Some(Settle(answer)), s.answers + [answer], existed);
        }
      } else {
        SendKeeps(s, s.policy, s.answers, existed);
        assert s.(ledger := ledger, policy := s.policy, answers := s.answers, failedLast := false)
               == s.(ledger := ledger, failedLast := false);
      }
    }
  }

  lemma ReadyIsSound(s: State)
    requires Ready(s)
    ensures L.Sound(s.ledger)
  {
  }

  lemma DispatchKeeps(s: State, exists_: bool, answer: Answer)
    requires Inv(s) && s.phase.Dispatching?
    ensures Inv(DispatchPhase(s, exists_, answer))
  {
    hide Tracked, Labelled, Aimed, Conserved, Asked, Outstanding, DispatchNextJob, L.First, L.HasInflight;
    var t := s.(pendingAdvance := false);
    if Due(s.phase, s.pendingAdvance) {
      DispatchNextKeeps(t, exists_, answer);
      t := DispatchNextJob(t, exists_, answer);
    }
    var u := t.(phase := AtKeys);
    assert Inv(u);
    OtherKeeps(u);
  }

  // ---- every run ----

  lemma NextKeepsInv(s: State, step: Step)
    requires Inv(s)
    ensures Inv(Next(s, step))
  {
    hide Inv, DispatchPhase, DrainOne, DrainEnd, PressEnqueue, PressQueueKey, TakeCmd, EndJob;
    if IsWorkerStep(step) {
      WorkerKeeps(s, step);
    } else {
      match step
      case Timeout => if s.phase.AtKeys? { TimeoutKeeps(s); }
      case EnqueueKey(jobs) => if s.phase.AtKeys? && jobs != [] { EnqueueKeyKeeps(s, jobs); }
      case QueueKey(o, key) => if s.phase.AtKeys? && key.press { QueueKeyKeeps(s, o, key); }
      case DrainEvent =>
        if s.phase.Draining? && s.events != [] {
          if s.events[0].JobDone? { DrainDone(s); } else { DrainOther(s); }
        }
      case LeaveDrain => if s.phase.Draining? && s.events == [] { LeaveKeeps(s); }
      case Dispatch(e, a) => if s.phase.Dispatching? { DispatchKeeps(s, e, a); }
      case SendOther => OtherKeeps(s);
      case CloseScreen => if s.phase.AtKeys? { InitIsSound(); }
    }
  }

  /** Every reachable state of the loop and its worker. */
  lemma {:induction false} RunKeeps(s: State, steps: seq<Step>)
    requires Inv(s)
    ensures Inv(Run(s, steps))
    decreases |steps|
  {
    hide Next, Inv;
    if steps != [] {
      RunKeeps(s, steps[..|steps| - 1]);
      NextKeepsInv(Run(s, steps[..|steps| - 1]), steps[|steps| - 1]);
    }
  }

  lemma RunKeepsInv(steps: seq<Step>)
    ensures Inv(Run(Init(), steps))
  {
    hide Run, Inv;
    InitIsSound();
    RunKeeps(Init(), steps);
  }

  lemma {:induction false} MeanwhileIsARun(s: State, steps: seq<Step>) returns (run: seq<Step>)
    ensures Run(s, run) == Meanwhile(s, steps)
    decreases |steps|
  {
    hide Next;
    run := [];
    if steps != [] {
      var last := steps[|steps| - 1];
      run := MeanwhileIsARun(s, steps[..|steps| - 1]);
      if IsWorkerStep(last) {
        run := run + [last];
        assert run[..|run| - 1] + [last] == run;
      }
    }
  }

  lemma {:induction false} DrainAllIsARun(s: State, late: seq<seq<Step>>) returns (run: seq<Step>)
    requires s.phase.Draining?
    ensures Run(s, run) == DrainAll(s, late)
    decreases |late|, |s.events|
  {
    hide DrainOne, Meanwhile, Run;
    RunOne(s, DrainEvent);
    if s.events == [] {
      run := [];
      RunNone(s);
    } else {
      DrainOneShrinks(s);
      var t := DrainOne(s);
      var more, rest := [], [];
      if late == [] {
        RunNone(t);
        rest := DrainAllIsARun(t, []);
        run := [DrainEvent] + rest;
        RunSplits(s, [DrainEvent], rest);
      } else {
        more := MeanwhileIsARun(t, late[0]);
        rest := DrainAllIsARun(Meanwhile(t, late[0]), late[1..]);
        run := [DrainEvent] + more + rest;
        RunSplits(s, [DrainEvent], more);
        RunSplits(s, [DrainEvent] + more, rest);
      }
    }
  }

  lemma RunNone(s: State)
    ensures Run(s, []) == s
  {
  }

  lemma DrainOneShrinks(s: State)
    requires s.phase.Draining? && s.events != []
    ensures DrainOne(s).phase.Draining? && DrainOne(s).events == s.events[1..]
  {
  }

  /** What `Session.DrainTransferEvents` computes is a run of the protocol,
      whatever the worker does meanwhile. */
  lemma TickIsARun(s: State, late: seq<seq<Step>>, last: seq<Step>, exists_: bool, answer: Answer)
    returns (run: seq<Step>)
    requires s.phase.Draining?
    ensures Run(s, run) == Tick(s, late, last, exists_, answer)
  {
    hide Run, DrainAll, Meanwhile, DrainEnd, DispatchPhase;
    var a := DrainAllIsARun(s, late);
    var t := DrainAll(s, late);
    var b := MeanwhileIsARun(DrainEnd(t), last);
    RunOne(t, LeaveDrain);
    RunSplits(s, a, [LeaveDrain]);
    RunSplits(s, a + [LeaveDrain], b);
    var u := Run(s, a + [LeaveDrain] + b);
    DrainEndDispatches(t);
    RunOne(u, Dispatch(exists_, answer));
    RunSplits(s, a + [LeaveDrain] + b, [Dispatch(exists_, answer)]);
    run := a + [LeaveDrain] + b + [Dispatch(exists_, answer)];
  }

  lemma DrainEndDispatches(s: State)
    requires s.phase.Draining?
    ensures DrainEnd(s).phase.Dispatching?
  {
  }

  lemma TickKeepsInv(s: State, late: seq<seq<Step>>, last: seq<Step>, exists_: bool, answer: Answer)
    requires Inv(s) && s.phase.Draining?
    ensures Inv(Tick(s, late, last, exists_, answer))
  {
    hide Inv, Run, Tick;
    var run := TickIsARun(s, late, last, exists_, answer);
    RunKeeps(s, run);
  }

  // ---- what the user can rely on ----

  /** At most one task is in flight. The worker runs that very job, and nothing
      it would have to swallow is on its way. */
  lemma TransfersAreSerial(steps: seq<Step>)
    ensures var s := Run(Init(), steps);
            && L.OneRunning(s.ledger.tasks)
            && (s.busy.Some? ==>
                  && (forall c | c in s.cmds :: !c.SendJob?)
                  && s.sent != []
                  && L.InflightId(s.ledger) == Some(Latest(s.sent).id)
                  && s.busy.value.job == Latest(s.sent).job)
  {
    hide Run, L.First, L.LastDirection;
    RunKeepsInv(steps);
    var s := Run(Init(), steps);
    if s.busy.Some? {
      OneJobAtATime(s);
    }
  }

  /** A cancel that reaches a busy worker stops the job that was in flight when
      its key was pressed; one that reaches an idle worker finds that job over,
      whatever is queued behind it. */
  lemma CancelHitsItsJob(steps: seq<Step>)
    ensures var s := Run(Init(), steps);
            s.cmds != [] && s.cmds[0].CancelJob? ==>
              && (s.busy.Some? ==> s.busy.value.serial == s.cmds[0].serial)
              && (s.busy.None? ==> forall c | c in s.cmds && c.SendJob? :: s.cmds[0].serial < c.serial)
  {
    hide Run;
    RunKeepsInv(steps);
    var s := Run(Init(), steps);
    if s.cmds != [] && s.cmds[0].CancelJob? {
      assert s.cmds[0] in s.cmds;
    }
  }

  /** A job is skipped exactly when a popup before it was refused or failed, and
      an existing file is overwritten exactly when a popup before it got a Yes:
      popups of this session, not of this batch. */
  lemma ExistingFileNeedsYes(steps: seq<Step>, r: Sent)
    requires r in Run(Init(), steps).sent
    ensures var answers := Run(Init(), steps).answers;
            && r.answers <= |answers|
            && (Skips(r.policy) <==> Refused(answers[..r.answers]))
            && (r.existed ==> (!Skips(r.policy) <==> Yes in answers[..r.answers]))
  {
    hide Run;
    RunKeepsInv(steps);
  }

  /** The promise for one batch is kept for exactly those jobs whose batch found
      no policy set, or found a Yes and meets no existing file. */
  lemma BatchAnswerDecides(steps: seq<Step>, r: Sent)
    requires r in Run(Init(), steps).sent
    ensures var answers := Run(Init(), steps).answers;
            && r.batch.since <= r.answers <= |answers|
            && (KeptPerBatch(r, answers) <==> OwnAnswerDecides(r))
  {
    hide Run;
    RunKeepsInv(steps);
  }

  predicate Closes(step: Step) {
    step.CloseScreen?
  }

  lemma DispatchKeepsAnswer(s: State, exists_: bool, answer: Answer)
    requires s.policy.Some?
    ensures DispatchNextJob(s, exists_, answer).policy == s.policy
    ensures DispatchNextJob(s, exists_, answer).answers == s.answers
  {
    hide L.Start, L.JobFor, L.ClearQueued, L.AbortInflight;
  }

  lemma RouteKeepsAnswer(s: State, out: L.ScreenOutcome)
    ensures Route(s, out).policy == s.policy && Route(s, out).answers == s.answers
  {
    hide L.HasInflight;
  }

  lemma ActKeepsAnswer(s: State, a: L.Act)
    ensures ActOnLedger(s, a).policy == s.policy && ActOnLedger(s, a).answers == s.answers
  {
    hide L.ApplyAct, L.Retry, Waits;
  }

  lemma KeysKeepAnswer(s: State, jobs: seq<L.Job>, o: L.Overlay, key: Key)
    ensures PressEnqueue(s, jobs).policy == PressQueueKey(s, o, key).policy == s.policy
    ensures PressEnqueue(s, jobs).answers == PressQueueKey(s, o, key).answers == s.answers
  {
    hide L.ActOf, L.OutcomeOf, EnqueueAll, Route, ActOnLedger;
    var a := L.ActOf(o, s.ledger, key);
    ActKeepsAnswer(s, a);
    RouteKeepsAnswer(ActOnLedger(s, a), L.OutcomeOf(s.ledger, a));
    RouteKeepsAnswer(EnqueueJobs(s, jobs), L.EnqueueOutcome);
  }

  lemma NextKeepsAnswer(s: State, step: Step)
    requires s.policy.Some? && !Closes(step)
    ensures Next(s, step).policy == s.policy && Next(s, step).answers == s.answers
  {
    hide PressEnqueue, PressQueueKey, DispatchNextJob, HandleEvent, TakeCmd, EndJob;
    match step
    case Dispatch(e, a) => DispatchKeepsAnswer(s.(pendingAdvance := false), e, a);
    case DrainEvent =>
      if s.phase.Draining? && s.events != [] { DrainKeepsAnswer(s.(events := s.events[1..]), s.events[0]); }
    case QueueKey(o, key) => KeysKeepAnswer(s, [], o, key);
    case EnqueueKey(jobs) =>
      KeysKeepAnswer(s, jobs, L.Overlay(L.Active, [0, 0, 0], false), Key(Esc, false, false, false, true));
    case WorkerTake(_) => WorkerFrame(s, step);
    case WorkerEnd(_) => WorkerFrame(s, step);
    case _ =>
  }

  lemma DrainKeepsAnswer(s: State, ev: Event)
    requires s.phase.Draining?
    ensures HandleEvent(s, ev).policy == s.policy && HandleEvent(s, ev).answers == s.answers
  {
  }

  /** The first answer other than Esc is the last popup of the session: the policy
      outlives its batch, so later batches are neither asked about nor free. */
  lemma {:induction false} AnswerIsForever(s: State, more: seq<Step>)
    requires s.policy.Some? && forall step | step in more :: !Closes(step)
    ensures Run(s, more).policy == s.policy && Run(s, more).answers == s.answers
    decreases |more|
  {
    hide Next;
    if more != [] {
      var init, last := more[..|more| - 1], more[|more| - 1];
      assert last in more && forall step | step in init :: step in more;
      AnswerIsForever(s, init);
      NextKeepsAnswer(Run(s, init), last);
    }
  }

  lemma {:induction false} RunSplits(s: State, a: seq<Step>, b: seq<Step>)
    ensures Run(s, a + b) == Run(Run(s, a), b)
    decreases |b|
  {
    hide Next;
    if b == [] {
      assert a + b == a;
    } else {
      var init := b[..|b| - 1];
      RunSplits(s, a, init);
      assert (a + b)[..|a + b| - 1] == a + init;
    }
  }

  /** After a No nothing is copied any more, in either direction, conflict or
      not, for as long as the screen stays open. */
  lemma NoMeansNothingMoves(steps: seq<Step>, more: seq<Step>)
    requires Run(Init(), steps).policy == Some(SkipAll)
    requires forall step | step in more :: !Closes(step)
    ensures var s := Run(Init(), steps + more);
            s.busy.None? && forall c | c in s.cmds && c.SendJob? :: Skips(c.policy)
  {
    hide Run, Next, L.First, L.Sound, L.LastDirection, L.InflightId;
    RunSplits(Init(), steps, more);
    AnswerIsForever(Run(Init(), steps), more);
    RunKeepsInv(steps + more);
    var s := Run(Init(), steps + more);
    if s.busy.Some? {
      OneJobAtATime(s);
    }
    if c :| c in s.cmds && c.SendJob? {
      NoJobs(s.cmds);
    }
  }

  /** Every time a task entered the queue it was sent once, or dropped, or it
      still waits; a popup's Esc drops the job in hand and all that wait. */
  lemma QueueConserved(steps: seq<Step>, id: L.TaskId)
    ensures var s := Run(Init(), steps);
            s.entered[id] == SentIds(s.sent)[id] + s.dropped[id] + (if Waits(s.ledger.tasks, id) then 1 else 0)
  {
    hide Run;
    RunKeepsInv(steps);
  }

  /** At rest with work waiting and no pause: the last job failed. */
  lemma StallsOnlyAfterFailure(steps: seq<Step>)
    ensures var s := Run(Init(), steps);
            s.phase.AtKeys? && !L.HasInflight(s.ledger) && !s.ledger.paused
            && (exists t :: t in s.ledger.tasks && t.state.Queued?)
            ==> s.failedLast
  {
    hide Run, L.First;
    RunKeepsInv(steps);
  }

  /** A key that can change the queue or end the session. */
  predicate IsKey(step: Step) {
    step.EnqueueKey? || step.QueueKey? || step.CloseScreen?
  }

  /** Nothing runs and no dispatch is due. */
  ghost predicate Stalled(s: State) {
    Inv(s) && !L.HasInflight(s.ledger) && !Due(s.phase, s.pendingAdvance)
  }

  lemma StalledStays(s: State, step: Step)
    requires Stalled(s) && !IsKey(step)
    ensures Stalled(Next(s, step)) && Next(s, step).ledger == s.ledger && Next(s, step).sent == s.sent
  {
    hide Inv, L.First, PressEnqueue, PressQueueKey, DispatchNextJob, TakeCmd, EndJob;
    NextKeepsInv(s, step);
    StalledEvents(s);
    if IsWorkerStep(step) {
      WorkerFrame(s, step);
    }
  }

  lemma StalledEvents(s: State)
    requires Stalled(s)
    ensures forall e | e in s.events :: !e.JobDone?
    ensures forall p :: L.SetProgress(s.ledger, p) == s.ledger
  {
    hide L.First, L.Sound, L.LastDirection, L.InflightId, Labelled, Aimed, Phased, Asked, Conserved, Lively;
    NothingOutstanding(s);
  }

  lemma {:induction false} StallLasts(s: State, more: seq<Step>)
    requires Stalled(s) && forall step | step in more :: !IsKey(step)
    ensures Stalled(Run(s, more)) && Run(s, more).ledger == s.ledger && Run(s, more).sent == s.sent
    decreases |more|
  {
    hide Next, Stalled, IsKey;
    if more != [] {
      var init, last := more[..|more| - 1], more[|more| - 1];
      assert last in more && forall step | step in init :: step in more;
      StallLasts(s, init);
      StalledStays(Run(s, init), last);
    }
  }

  /** And a failure does stall: once it is drained the rest of the queue waits,
      and nothing is sent, through every run without a key that enqueues, works
      on the queue or closes the screen. */
  lemma FailureStalls(steps: seq<Step>, more: seq<Step>)
    requires var s := Run(Init(), steps);
             s.phase.Draining? && s.events != [] && s.events[0].JobDone? && IsFailure(s.events[0].outcome)
    requires forall step | step in more :: !IsKey(step)
    ensures var s, t := Run(Init(), steps), Run(Init(), steps + [DrainEvent] + more);
            && t.sent == s.sent && !L.HasInflight(t.ledger)
            && forall id :: Waits(t.ledger.tasks, id) <==> Waits(s.ledger.tasks, id)
  {
    hide Run, IsKey, Waits, Inv, L.Finish, L.First;
    RunKeepsInv(steps);
    var s := Run(Init(), steps);
    FailureIsStalled(s);
    RunSplits(Init(), steps, [DrainEvent]);
    RunSplits(Init(), steps + [DrainEvent], more);
    RunOne(s, DrainEvent);
    StallLasts(DrainOne(s), more);
    SameWaiting(s.ledger, L.End(s.events[0].outcome));
  }

  lemma FailureIsStalled(s: State)
    requires Inv(s) && s.phase.Draining? && s.events != [] && s.events[0].JobDone? && IsFailure(s.events[0].outcome)
    ensures Stalled(DrainOne(s)) && DrainOne(s).sent == s.sent
    ensures DrainOne(s).ledger == L.Finish(s.ledger, s.events[0].outcome)
  {
    hide L.First, L.Sound, L.LastDirection, L.InflightId, L.Finish, Labelled, Aimed, Asked, Conserved, Lively;
    DrainDone(s);
    L.FinishStops(s.ledger, s.events[0].outcome);
    if !L.HasInflight(s.ledger) {
      NothingOutstanding(s);
    }
  }

  lemma RunOne(s: State, a: Step)
    ensures Run(s, [a]) == Next(s, a)
  {
    hide Next;
    assert [a][..0] == [];
    assert Run(s, []) == s;
  }

  /** The pane refreshed after a finished job is the one that job wrote to; it is
      refreshed exactly when the job did not fail and nothing waits any more. */
  lemma RefreshFollowsTheJob(steps: seq<Step>)
    ensures var s := Run(Init(), steps);
            s.phase.Draining? && s.events != [] && s.events[0].JobDone? ==>
              var k, outcome, t := s.events[0].serial, s.events[0].outcome, DrainOne(s);
              && k + 1 == |s.sent|
              && t.phase.Draining?
              && t.phase.refresh == (if !IsFailure(outcome) && (forall id :: !Waits(t.ledger.tasks, id))
                                     then Some(s.sent[k].job.direction) else s.phase.refresh)
  {
    hide Run, L.First, L.Sound, L.LastDirection, L.InflightId, L.Finish;
    RunKeepsInv(steps);
    var s := Run(Init(), steps);
    if s.phase.Draining? && s.events != [] && s.events[0].JobDone? {
      var t := DrainOne(s);
      assert s.events[0] in s.events;
      L.CountIsSome(t.ledger.tasks, L.Waiting);
      if w :| w in t.ledger.tasks && w.state.Queued? {
        assert Waits(t.ledger.tasks, w.id);
      }
    }
  }

  // ---- the answer of an earlier batch ----

  /** Between two batches: nothing runs, waits, is on its way or is pending. */
  ghost predicate AtRest(s: State) {
    && s.phase.AtKeys? && !s.pendingAdvance && s.pendingCancel.None?
    && s.cmds == [] && s.busy.None? && s.events == []
    && L.Sound(s.ledger) && Idle(s.ledger) && !s.ledger.paused
  }

  /** One job is enqueued and dispatched. */
  function JobSteps(job: L.Job, exists_: bool, answer: Answer): seq<Step> {
    [EnqueueKey([job]), LeaveDrain, Dispatch(exists_, answer)]
  }

  /** The worker takes it, it ends well, and the loop notices. */
  function EndSteps(): seq<Step> {
    [WorkerTake(true), WorkerEnd(L.Succeeded), Timeout] + [DrainEvent, LeaveDrain, Dispatch(false, Escaped)]
  }

  lemma RunThree(s: State, a: Step, b: Step, c: Step)
    ensures Run(s, [a, b, c]) == Next(Next(Next(s, a), b), c)
  {
    hide Next;
    assert [a, b, c][..2] == [a, b] && [a, b][..1] == [a];
    RunOne(s, a);
    assert Run(s, [a, b]) == Next(Run(s, [a]), b);
  }

  /** Into an idle ledger: the new entry is the one that starts. */
  lemma OnlyEntryStarts(l: L.State, job: L.Job)
    requires L.Sound(l) && Idle(l) && !l.paused
    ensures var (t, id) := L.Start(L.Enqueue(l, job));
            && id == Some(l.nextId)
            && L.Sound(t) && L.HasInflight(t) && L.QueueEmpty(t) && !t.paused
            && L.JobFor(t, l.nextId) == Some(job)
            && L.LastDirection(t) == Some(job.direction)
  {
    hide L.First, L.LastDirection, L.JobFor;
    var u := L.Enqueue(l, job);
    L.CountIsSome(l.tasks, L.Waiting);
    L.EditKeepsSound(l, L.Add(job));
    L.EditKeepsRunning(l, L.Add(job));
    assert u.tasks[|l.tasks|].state.Queued?;
    forall k | 0 <= k < |l.tasks| ensures u.tasks[k] == l.tasks[k] && l.tasks[k] in l.tasks { }
    assert L.First(u.tasks, L.Waiting) == Some(|l.tasks|);
    L.StartKeepsSound(u);
    var t := L.Start(u).0;
    assert t.tasks[|l.tasks|] in t.tasks;
    L.ElementRuns(t, t.tasks[|l.tasks|]);
    L.CountIsSome(t.tasks, L.Waiting);
    forall k | 0 <= k < |l.tasks| ensures t.tasks[k] == l.tasks[k] { }
  }

  predicate AsksAbout(s: State, job: L.Job, exists_: bool) {
    job.direction.Download? && exists_ && s.policy.None?
  }

  lemma JobIsSent(s: State, job: L.Job, exists_: bool, answer: Answer)
    requires AtRest(s) && answer != Escaped
    ensures var t := Run(s, JobSteps(job, exists_, answer));
            var asked := AsksAbout(s, job, exists_);
            var p := if asked then Settle(answer) else PolicyOr(s.policy);
            && t.phase.AtKeys? && !t.pendingAdvance && t.pendingCancel.None? && t.busy.None? && t.events == []
            && t.cmds == [SendJob(|s.sent|, job, p)]
            && t.answers == (if asked then s.answers + [answer] else s.answers)
            && t.policy == (if asked then Some(p) else s.policy)
            && t.sent == s.sent + [Sent(s.ledger.nextId, job, p, job.direction.Download? && exists_, |t.answers|,
                                        Batch(|s.answers|, s.policy))]
            && L.Sound(t.ledger) && L.HasInflight(t.ledger) && L.QueueEmpty(t.ledger) && !t.ledger.paused
            && L.LastDirection(t.ledger) == Some(job.direction)
  {
    hide L.First, L.Sound, L.LastDirection, L.JobFor, L.Start, L.HasInflight, L.QueueEmpty, L.Enqueue;
    OnlyEntryStarts(s.ledger, job);
    RunThree(s, EnqueueKey([job]), LeaveDrain, Dispatch(exists_, answer));
    assert [job][..0] == [] && EnqueueAll(s.ledger, []) == s.ledger;
    assert EnqueueAll(s.ledger, [job]) == L.Enqueue(s.ledger, job);
    L.EditKeepsRunning(s.ledger, L.Add(job));
  }

  /** The one command is a job. */
  predicate JobWaits(s: State, serial: nat) {
    && s.phase.AtKeys? && !s.pendingAdvance && s.pendingCancel.None? && s.busy.None? && s.events == []
    && |s.cmds| == 1 && s.cmds[0].SendJob? && s.cmds[0].serial == serial
  }

  lemma WorkerIsDone(s: State, serial: nat)
    requires JobWaits(s, serial)
    ensures Run(s, [WorkerTake(true), WorkerEnd(L.Succeeded), Timeout])
            == s.(cmds := [], events := [JobDone(serial, L.Succeeded)], phase := Draining(false, None))
  {
    hide PressEnqueue, PressQueueKey, DispatchNextJob, DrainOne, DrainEnd, DispatchPhase, Run, Skips;
    RunThree(s, WorkerTake(true), WorkerEnd(L.Succeeded), Timeout);
    var t := TakeCmd(s, true);
    assert t == s.(cmds := [], events := t.events, busy := t.busy);
  }

  lemma LoopIsDone(s: State, serial: nat)
    requires s.phase == Draining(false, None) && !s.pendingAdvance && s.pendingCancel.None?
    requires s.cmds == [] && s.busy.None? && s.events == [JobDone(serial, L.Succeeded)]
    requires L.Sound(s.ledger) && L.QueueEmpty(s.ledger) && !s.ledger.paused
    requires L.LastDirection(s.ledger) == Some(L.Download)
    ensures var t := Run(s, [DrainEvent, LeaveDrain, Dispatch(false, Escaped)]);
            AtRest(t) && t.sent == s.sent && t.answers == s.answers && t.policy == s.policy
  {
    hide L.First, L.Sound, L.LastDirection, L.HasInflight, L.QueueEmpty, L.Finish, L.Start;
    hide PressEnqueue, PressQueueKey, TakeCmd, EndJob, Idle;
    RunThree(s, DrainEvent, LeaveDrain, Dispatch(false, Escaped));
    EmptyAfter(s.ledger);
  }

  /** A sent download ends and leaves the loop at rest with the same answers. */
  lemma JobEnds(s: State, serial: nat)
    requires JobWaits(s, serial)
    requires L.Sound(s.ledger) && L.QueueEmpty(s.ledger) && !s.ledger.paused
    requires L.LastDirection(s.ledger) == Some(L.Download)
    ensures var t := Run(s, EndSteps());
            AtRest(t) && t.sent == s.sent && t.answers == s.answers && t.policy == s.policy
  {
    hide L.Sound, L.LastDirection, L.QueueEmpty, Run, AtRest;
    var worker := [WorkerTake(true), WorkerEnd(L.Succeeded), Timeout];
    RunSplits(s, worker, [DrainEvent, LeaveDrain, Dispatch(false, Escaped)]);
    WorkerIsDone(s, serial);
    LoopIsDone(Run(s, worker), serial);
  }

  lemma EmptyAfter(l: L.State)
    requires L.Sound(l) && L.QueueEmpty(l)
    ensures var t := L.Finish(l, L.Succeeded);
            L.Sound(t) && Idle(t) && t.paused == l.paused && L.Start(t) == (t, None)
  {
    hide L.First, L.Sound;
    L.EditKeepsSound(l, L.End(L.Succeeded));
    L.FinishStops(l, L.Succeeded);
    SameWaiting(l, L.End(L.Succeeded));
    L.CountIsSome(l.tasks, L.Waiting);
    L.CountIsSome(L.Finish(l, L.Succeeded).tasks, L.Waiting);
  }

  /** Two batches of one job each: the first meets an existing file and is
      answered, and only when it is over is the second enqueued. */
  function TwoBatches(first: L.Job, answer: Answer, second: L.Job, exists_: bool): seq<Step> {
    JobSteps(first, true, answer) + EndSteps() + JobSteps(second, exists_, No)
  }

  lemma TwoBatchesRun(first: L.Job, answer: Answer, second: L.Job, exists_: bool)
    requires first.direction.Download? && answer != Escaped
    ensures var s := Run(Init(), TwoBatches(first, answer, second, exists_));
            && s.answers == [answer]
            && |s.sent| == 2
            && s.sent[1] == Sent(s.sent[1].id, second, Settle(answer), second.direction.Download? && exists_, 1,
                                 Batch(1, Some(Settle(answer))))
            && s.cmds == [SendJob(1, second, Settle(answer))] && s.busy.None?
  {
    hide Run, JobSteps, EndSteps, AtRest;
    var a, b, c := JobSteps(first, true, answer), EndSteps(), JobSteps(second, exists_, No);
    RestAtStart();
    JobIsSent(Init(), first, true, answer);
    var s := Run(Init(), a);
    JobEnds(s, 0);
    RunSplits(Init(), a, b);
    var t := Run(Init(), a + b);
    JobIsSent(t, second, exists_, No);
    RunSplits(Init(), a + b, c);
  }

  lemma RestAtStart()
    ensures AtRest(Init())
  {
  }

  /** A Yes for one batch overwrites an existing file of the next one unasked. */
  lemma YesReachesTheNextBatch(first: L.Job, second: L.Job)
    requires first.direction.Download? && second.direction.Download?
    ensures var s := Run(Init(), TwoBatches(first, Yes, second, true));
            && s.answers == [Yes]
            && |s.sent| == 2 && s.sent[1].existed && s.sent[1].policy == OverwriteAll
            && s.sent[1].batch.since == s.sent[1].answers == 1
            && !KeptPerBatch(s.sent[1], s.answers)
  {
    hide Run, TwoBatches;
    TwoBatchesRun(first, Yes, second, true);
  }

  /** A No for one batch skips a job of the next one that meets no file at all. */
  lemma NoReachesTheNextBatch(first: L.Job, second: L.Job)
    requires first.direction.Download?
    ensures var s := Run(Init(), TwoBatches(first, No, second, false));
            && s.answers == [No]
            && |s.sent| == 2 && !s.sent[1].existed && s.sent[1].policy == SkipAll
            && s.sent[1].batch.since == s.sent[1].answers == 1
            && !KeptPerBatch(s.sent[1], s.answers)
            && s.cmds != [] && TakeCmd(s, true).busy.None?
            && TakeCmd(s, true).events == s.events + [JobDone(1, L.Succeeded)]
  {
    hide Run, TwoBatches;
    TwoBatchesRun(first, No, second, false);
  }
}
