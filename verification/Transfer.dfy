/** The transfer loop: user keys, the drain of worker events, the dispatch of the
    next job (`src/tui/run_loop.rs`, `src/tui/app.rs`) and the SFTP worker thread
    (`crates/sshrack-core/src/connect/sftp/worker.rs`), interleaved step by step
    over their two message channels. */
module Transfer {
  import opened Prelude
  import opened Keys
  import L = Ledger

  datatype Policy = Overwrite | Skip | OverwriteAll | SkipAll

  predicate Skips(p: Policy) {
    p.Skip? || p.SkipAll?
  }

  /** `serial` numbers the jobs sent to the worker; the program's messages do not
      carry it. A cancel is numbered by the job in flight when its key came. */
  datatype Cmd = SendJob(serial: nat, job: L.Job, policy: Policy) | CancelJob(serial: nat) | OtherCmd

  datatype Event = JobDone(serial: nat, outcome: L.Outcome) | JobProgress(progress: L.Progress) | OtherEvent

  datatype Running = Running(serial: nat, job: L.Job, policy: Policy)

  /** The overwrite popup: Yes, No, an error, or Esc. */
  datatype Answer = Yes | No | PopupFailed | Escaped

  /** Where the loop is: waiting for a key, in the drain loop, or past it. */
  datatype Phase = AtKeys
                 | Draining(advance: bool, refresh: Option<L.Direction>)
                 | Dispatching(advance: bool, refresh: Option<L.Direction>)

  /** A batch begins when a key fills an idle queue and ends when the queue is
      idle again: `since` popup answers came before it, and `inherited` is the
      overwrite policy it found set. */
  datatype Batch = Batch(since: nat, inherited: Option<Policy>)

  /** A job handed to the worker: `existed` when its destination was there, with
      `answers` popup answers given before. */
  datatype Sent = Sent(id: L.TaskId, job: L.Job, policy: Policy, existed: bool, answers: nat, batch: Batch)

  /** The fields from `sent` on are history: the program does not read them. */
  datatype State = State(
    ledger: L.State,
    policy: Option<Policy>,
    pendingAdvance: bool,
    pendingCancel: Option<nat>,
    phase: Phase,
    cmds: seq<Cmd>,
    busy: Option<Running>,
    events: seq<Event>,
    sent: seq<Sent>,
    answers: seq<Answer>,
    batch: Batch,
    entered: multiset<L.TaskId>,
    dropped: multiset<L.TaskId>,
    failedLast: bool
  )

  function Init(): State {
    State(L.Empty(), None, false, None, AtKeys, [], None, [], [], [], Batch(0, None), multiset{}, multiset{}, false)
  }

  // ---- keys ----

  predicate Waits(tasks: seq<L.Task>, id: L.TaskId) {
    exists t :: t in tasks && t.id == id && t.state.Queued?
  }

  function WaitingIds(tasks: seq<L.Task>): (r: set<L.TaskId>)
    ensures forall id :: id in r <==> Waits(tasks, id)
  {
    set t | t in tasks && t.state.Queued? :: t.id
  }

  function EnqueueAll(s: L.State, jobs: seq<L.Job>): L.State
    decreases |jobs|
  {
    if jobs == [] then s else L.Enqueue(EnqueueAll(s, jobs[..|jobs| - 1]), jobs[|jobs| - 1])
  }

  /** The part of `route_transfer` that talks to the loop. */
  function Route(s: State, out: L.ScreenOutcome): State {
    match out
    case Continue => s
    case EnqueueOutcome => if L.HasInflight(s.ledger) then s else s.(pendingAdvance := true)
    case CancelActive => s.(pendingCancel := Some(if s.sent == [] then 0 else |s.sent| - 1))
    case _ => s
  }

  function FreshIds(first: nat, count: nat): multiset<L.TaskId> {
    if count == 0 then multiset{} else FreshIds(first, count - 1) + multiset{first + count - 1}
  }

  /** Nothing runs and nothing waits. */
  predicate Idle(l: L.State) {
    !L.HasInflight(l) && L.QueueEmpty(l)
  }

  /** The batch of a job that enters the queue now. */
  function BatchNow(s: State): Batch {
    if Idle(s.ledger) then Batch(|s.answers|, s.policy) else s.batch
  }

  function EnqueueJobs(s: State, jobs: seq<L.Job>): State {
    s.(ledger := EnqueueAll(s.ledger, jobs), batch := BatchNow(s),
       entered := s.entered + FreshIds(s.ledger.nextId, |jobs|))
  }

  /** A retried task enters the queue again; a removed one may leave it. */
  function ActOnLedger(s: State, a: L.Act): State {
    s.(ledger := L.ApplyAct(s.ledger, a),
       batch := if a.RetryTask? && L.Retry(s.ledger, a.id).1 then BatchNow(s) else s.batch,
       entered := if a.RetryTask? && L.Retry(s.ledger, a.id).1 then s.entered + multiset{a.id} else s.entered,
       dropped := if a.RemoveTask? && Waits(s.ledger.tasks, a.id) then s.dropped + multiset{a.id} else s.dropped)
  }

  function PressEnqueue(s: State, jobs: seq<L.Job>): State {
    Route(EnqueueJobs(s, jobs), L.EnqueueOutcome).(phase := Draining(false, None))
  }

  function PressQueueKey(s: State, o: L.Overlay, key: Key): State {
    var act := L.ActOf(o, s.ledger, key);
    Route(ActOnLedger(s, act), L.OutcomeOf(s.ledger, act)).(phase := Draining(false, None))
  }

  // ---- the drain ----

  predicate IsFailure(o: L.Outcome) {
    o.Failed?
  }

  function DecidePostDoneRefresh(last: Option<L.Direction>, queueEmpty: bool, outcome: L.Outcome): Option<L.Direction> {
    if !IsFailure(outcome) && queueEmpty then last else None
  }

  function HandleEvent(s: State, ev: Event): State
    requires s.phase.Draining?
  {
    match ev
    case OtherEvent => s
    case JobProgress(p) => s.(ledger := L.SetProgress(s.ledger, p))
    case JobDone(_, outcome) =>
      var last := L.LastDirection(s.ledger);
      var ledger := L.Finish(s.ledger, outcome);
      var refresh := DecidePostDoneRefresh(last, L.QueueEmpty(ledger), outcome);
      s.(ledger := ledger,
         phase := Draining(s.phase.advance || !IsFailure(outcome),
                           if refresh.Some? then refresh else s.phase.refresh),
         failedLast := IsFailure(outcome))
  }

  function DrainOne(s: State): State
    requires s.phase.Draining? && s.events != []
  {
    HandleEvent(s.(events := s.events[1..]), s.events[0])
  }

  /** Past the drain loop: honour a pending cancel. */
  function DrainEnd(s: State): State
    requires s.phase.Draining?
  {
    s.(phase := Dispatching(s.phase.advance, s.phase.refresh),
       pendingCancel := None,
       cmds := if s.pendingCancel.Some? then s.cmds + [CancelJob(s.pendingCancel.value)] else s.cmds)
  }

  // ---- the dispatch ----

  function Send(s: State, id: L.TaskId, job: L.Job, policy: Policy, existed: bool): State {
    s.(cmds := s.cmds + [SendJob(|s.sent|, job, policy)],
       sent := s.sent + [Sent(id, job, policy, existed, |s.answers|, s.batch)])
  }

  /** The answer governs the popup at hand and all later conflicts. */
  function Settle(answer: Answer): Policy {
    if answer.Yes? then OverwriteAll else SkipAll
  }

  /** Without an answer so far a job is sent to overwrite. */
  function PolicyOr(p: Option<Policy>): Policy {
    match p case Some(v) => v case None => Overwrite
  }

  /** A started task meets the overwrite question. */
  function DispatchStarted(s: State, id: L.TaskId, job: L.Job, exists_: bool, answer: Answer): State {
    var existed := job.direction.Download? && exists_;
    if existed && s.policy.None? then
      var asked := s.(answers := s.answers + [answer]);
      if answer.Escaped? then DropBatch(asked, id)
      else Send(asked.(policy := Some(Settle(answer))), id, job, Settle(answer), existed)
    else
      Send(s, id, job, PolicyOr(s.policy), existed)
  }

  /** Esc: the started transfer and all that wait are gone. */
  function DropBatch(s: State, id: L.TaskId): State {
    s.(ledger := L.ClearQueued(L.AbortInflight(s.ledger)),
       dropped := s.dropped + multiset{id} + multiset(WaitingIds(s.ledger.tasks)))
  }

  function DispatchNextJob(s: State, exists_: bool, answer: Answer): State {
    var s := s.(failedLast := false);
    var (ledger, id) := L.Start(s.ledger);
    if id.None? then s
    else
      var s := s.(ledger := ledger);
      match L.JobFor(ledger, id.value)
      case None => s
      case Some(job) => DispatchStarted(s, id.value, job, exists_, answer)
  }

  function DispatchPhase(s: State, exists_: bool, answer: Answer): State
    requires s.phase.Dispatching?
  {
    var go := s.pendingAdvance || s.phase.advance;
    var t := s.(pendingAdvance := false);
    var u := if go then DispatchNextJob(t, exists_, answer) else t;
    u.(phase := AtKeys, cmds := if s.phase.refresh == Some(L.Upload) then u.cmds + [OtherCmd] else u.cmds)
  }

  // ---- the worker ----

  /** What the worker answers to a message at once. `spawns` tells whether sftp
      could be run. */
  function Replies(cmd: Cmd, spawns: bool, busy: Option<Running>): seq<Event> {
    match (busy, cmd)
    case (None, SendJob(serial, job, policy)) =>
      if Skips(policy) then [JobDone(serial, L.Succeeded)]
      else if !spawns then [JobDone(serial, L.Failed("sftp spawn failed"))]
      else []
    case (None, CancelJob(_)) => []
    case (None, OtherCmd) => [OtherEvent]
    case (Some(r), CancelJob(_)) => [JobDone(r.serial, L.Cancelled)]
    case (Some(_), _) => []
  }

  function BusyAfter(cmd: Cmd, spawns: bool, busy: Option<Running>): Option<Running> {
    match (busy, cmd)
    case (None, SendJob(serial, job, policy)) =>
      if Skips(policy) || !spawns then None else Some(Running(serial, job, policy))
    case (None, _) => None
    case (Some(_), CancelJob(_)) => None
    case (Some(_), _) => busy
  }

  /** The worker takes its next message: in its service loop when idle, between
      two progress polls when busy. */
  function TakeCmd(s: State, spawns: bool): State
    requires s.cmds != []
  {
    s.(cmds := s.cmds[1..], busy := BusyAfter(s.cmds[0], spawns, s.busy),
       events := s.events + Replies(s.cmds[0], spawns, s.busy))
  }

  function EndJob(s: State, outcome: L.Outcome): State
    requires s.busy.Some?
  {
    s.(busy := None, events := s.events + [JobDone(s.busy.value.serial, outcome)])
  }

  datatype Step =
    | Timeout
    | EnqueueKey(jobs: seq<L.Job>)
    | QueueKey(overlay: L.Overlay, key: Key)
    | DrainEvent
    | LeaveDrain
    | Dispatch(exists_: bool, answer: Answer)
    | SendOther
    | WorkerTake(spawns: bool)
    | WorkerProgress(progress: L.Progress)
    | WorkerEnd(outcome: L.Outcome)
    | CloseScreen

  /** One step; a step that is not enabled changes nothing. */
  function Next(s: State, step: Step): State {
    match step
    case Timeout => if s.phase.AtKeys? then s.(phase := Draining(false, None)) else s
    case EnqueueKey(jobs) =>
      if s.phase.AtKeys? && jobs != [] then PressEnqueue(s, jobs) else s
    case QueueKey(o, key) =>
      if s.phase.AtKeys? && key.press then PressQueueKey(s, o, key) else s
    case DrainEvent => if s.phase.Draining? && s.events != [] then DrainOne(s) else s
    case LeaveDrain => if s.phase.Draining? && s.events == [] then DrainEnd(s) else s
    case Dispatch(exists_, answer) => if s.phase.Dispatching? then DispatchPhase(s, exists_, answer) else s
    case SendOther => s.(cmds := s.cmds + [OtherCmd])
    case WorkerTake(spawns) => if s.cmds != [] then TakeCmd(s, spawns) else s
    case WorkerProgress(p) => if s.busy.Some? then s.(events := s.events + [JobProgress(p)]) else s
    case WorkerEnd(outcome) =>
      if s.busy.Some? && !outcome.Cancelled? then EndJob(s, outcome) else s
    case CloseScreen => if s.phase.AtKeys? then Init() else s
  }

  function Run(s: State, steps: seq<Step>): State
    decreases |steps|
  {
    if steps == [] then s else Next(Run(s, steps[..|steps| - 1]), steps[|steps| - 1])
  }

  // ---- the loop's own methods ----

  predicate IsWorkerStep(step: Step) {
    step.WorkerTake? || step.WorkerProgress? || step.WorkerEnd?
  }

  /** The worker runs on while the loop is at work. */
  function Meanwhile(s: State, steps: seq<Step>): (r: State)
    ensures r == s.(cmds := r.cmds, busy := r.busy, events := r.events)
  {
    if steps == [] then s
    else
      var t, last := Meanwhile(s, steps[..|steps| - 1]), steps[|steps| - 1];
      if IsWorkerStep(last) then Next(t, last) else t
  }

  /** The drain loop run to its end; `late[i]` is what the worker does while the
      `i`-th message is handled. */
  function DrainAll(s: State, late: seq<seq<Step>>): (r: State)
    requires s.phase.Draining?
    ensures r.phase.Draining? && r.events == []
    decreases |late|, |s.events|
  {
    if s.events == [] then s
    else if late == [] then DrainAll(DrainOne(s), [])
    else DrainAll(Meanwhile(DrainOne(s), late[0]), late[1..])
  }

  /** A whole tick after the keys; `late` and `last` are the worker's part in it. */
  function Tick(s: State, late: seq<seq<Step>>, last: seq<Step>, exists_: bool, answer: Answer): State
    requires s.phase.Draining?
  {
    DispatchPhase(Meanwhile(DrainEnd(DrainAll(s, late)), last), exists_, answer)
  }

  /** The fields `drain_transfer_events` and `dispatch_next_job` work on. */
  class Session {
    const ledger: L.TransferLedger
    var overwritePolicy: Option<Policy>
    var pendingAdvance: bool
    var pendingCancel: Option<nat>
    var cmds: seq<Cmd>
    var events: seq<Event>
    var sent: seq<Sent>
    var answers: seq<Answer>
    var batch: Batch
    ghost var entered: multiset<L.TaskId>
    ghost var dropped: multiset<L.TaskId>
    ghost var failedLast: bool

    ghost function Value(phase: Phase, busy: Option<Running>): State
      reads this, ledger
    {
      State(ledger.Value(), overwritePolicy, pendingAdvance, pendingCancel, phase, cmds, busy, events,
            sent, answers, batch, entered, dropped, failedLast)
    }

    constructor (l: L.TransferLedger)
      requires l.Value() == L.Empty()
      ensures ledger == l && Value(AtKeys, None) == Init()
    {
      ledger := l;
      overwritePolicy, pendingAdvance, pendingCancel := None, false, None;
      cmds, events, sent, answers, batch := [], [], [], [], Batch(0, None);
      entered, dropped, failedLast := multiset{}, multiset{}, false;
    }

    method RouteTransfer(out: L.ScreenOutcome, ghost busy: Option<Running>)
      modifies this
      ensures Value(AtKeys, busy) == Route(old(Value(AtKeys, busy)), out)
    {
      match out
      case Continue =>
      case EnqueueOutcome =>
        var inflight := L.First(ledger.tasks, L.Running);
        if inflight.None? {
          pendingAdvance := true;
        }
      case CancelActive =>
        pendingCancel := Some(if sent == [] then 0 else |sent| - 1);
      case _ =>
    }

    method HandleOne(ev: Event, advance: bool, refresh: Option<L.Direction>, ghost busy: Option<Running>)
      returns (advance': bool, refresh': Option<L.Direction>)
      modifies this`failedLast, ledger
      ensures Value(Draining(advance', refresh'), busy) == HandleEvent(old(Value(Draining(advance, refresh), busy)), ev)
    {
      hide L.First, L.LastDone;
      advance', refresh' := advance, refresh;
      match ev
      case OtherEvent =>
      case JobProgress(p) => ledger.SetInflightProgress(p);
      case JobDone(_, outcome) =>
        var last := L.LastDirection(L.State(ledger.tasks, ledger.nextId, ledger.paused));
        ledger.FinishInflight(outcome);
        var queueEmpty := L.QueueEmpty(L.State(ledger.tasks, ledger.nextId, ledger.paused));
        var r := DecidePostDoneRefresh(last, queueEmpty, outcome);
        if r.Some? {
          refresh' := r;
        }
        if !IsFailure(outcome) {
          advance' := true;
        }
        failedLast := IsFailure(outcome);
    }

    /** The worker's end of the two channels. */
    method WorkerMoves(steps: seq<Step>, busy: Option<Running>, ghost phase: Phase) returns (busy': Option<Running>)
      modifies this`cmds, this`events
      ensures Value(phase, busy') == Meanwhile(old(Value(phase, busy)), steps)
    {
      hide Next;
      busy' := busy;
      for i := 0 to |steps|
        invariant Value(phase, busy') == Meanwhile(old(Value(phase, busy)), steps[..i])
      {
        assert steps[..i + 1][..i] == steps[..i];
        if IsWorkerStep(steps[i]) {
          busy' := WorkerMove(steps[i], busy', phase);
        }
      }
      assert steps[..|steps|] == steps;
    }

    method WorkerMove(step: Step, busy: Option<Running>, ghost phase: Phase) returns (busy': Option<Running>)
      requires IsWorkerStep(step)
      modifies this`cmds, this`events
      ensures Value(phase, busy') == Next(old(Value(phase, busy)), step)
    {
      hide Replies, BusyAfter, PressEnqueue, PressQueueKey, DrainOne, DrainEnd, DispatchPhase;
      busy' := busy;
      match step
      case WorkerTake(spawns) =>
        if cmds != [] {
          var cmd := cmds[0];
          cmds := cmds[1..];
          busy' := WorkerAccepts(cmd, spawns, busy);
        }
      case WorkerProgress(p) =>
        if busy.Some? {
          events := events + [JobProgress(p)];
        }
      case WorkerEnd(outcome) =>
        if busy.Some? && !outcome.Cancelled? {
          events := events + [JobDone(busy.value.serial, outcome)];
          busy' := None;
        }
    }

    /** A message reaches the worker: idle it serves it, busy it heeds a cancel only. */
    method WorkerAccepts(cmd: Cmd, spawns: bool, busy: Option<Running>) returns (busy': Option<Running>)
      modifies this`events
      ensures events == old(events) + Replies(cmd, spawns, busy) && busy' == BusyAfter(cmd, spawns, busy)
    {
      busy' := busy;
      match (busy, cmd)
      case (None, SendJob(serial, job, policy)) =>
        if Skips(policy) {
          events := events + [JobDone(serial, L.Succeeded)];
        } else if !spawns {
          events := events + [JobDone(serial, L.Failed("sftp spawn failed"))];
        } else {
          busy' := Some(Running(serial, job, policy));
        }
      case (None, OtherCmd) => events := events + [OtherEvent];
      case (Some(r), CancelJob(_)) =>
        events := events + [JobDone(r.serial, L.Cancelled)];
        busy' := None;
      case _ =>
    }

    method DrainEvents(late: seq<seq<Step>>, busy: Option<Running>)
      returns (advance: bool, refresh: Option<L.Direction>, busy': Option<Running>)
      modifies this`events, this`cmds, this`failedLast, ledger
      ensures Value(Draining(advance, refresh), busy') == DrainAll(old(Value(Draining(false, None), busy)), late)
    {
      hide HandleEvent, Meanwhile;
      advance, refresh, busy' := false, None, busy;
      var rest := late;
      while events != []
        invariant DrainAll(Value(Draining(advance, refresh), busy'), rest)
                  == DrainAll(old(Value(Draining(false, None), busy)), late)
        decreases |rest|, |events|
      {
        var ev := events[0];
        ghost var before := Value(Draining(advance, refresh), busy');
        events := events[1..];
        advance, refresh := HandleOne(ev, advance, refresh, busy');
        assert Value(Draining(advance, refresh), busy') == DrainOne(before);
        if rest != [] {
          busy' := WorkerMoves(rest[0], busy', Draining(advance, refresh));
          rest := rest[1..];
        }
      }
    }

    method SendJobNow(id: L.TaskId, job: L.Job, policy: Policy, existed: bool,
                      ghost phase: Phase, ghost busy: Option<Running>)
      modifies this`cmds, this`sent
      ensures Value(phase, busy) == Send(old(Value(phase, busy)), id, job, policy, existed)
    {
      cmds := cmds + [SendJob(|sent|, job, policy)];
      sent := sent + [Sent(id, job, policy, existed, |answers|, batch)];
    }

    method DoDropBatch(id: L.TaskId, ghost phase: Phase, ghost busy: Option<Running>)
      modifies this`dropped, ledger
      ensures Value(phase, busy) == DropBatch(old(Value(phase, busy)), id)
    {
      hide L.ClearQueued, L.AbortInflight, WaitingIds;
      dropped := dropped + multiset{id} + multiset(WaitingIds(ledger.tasks));
      ledger.DoAbortInflight();
      ledger.DoClearQueued();
    }

    method ResolveConflict(id: L.TaskId, job: L.Job, exists_: bool, answer: Answer,
                           ghost phase: Phase, ghost busy: Option<Running>)
      modifies this, ledger
      ensures Value(phase, busy) == DispatchStarted(old(Value(phase, busy)), id, job, exists_, answer)
    {
      hide Send, DropBatch;
      var existed := job.direction.Download? && exists_;
      if existed && overwritePolicy.None? {
        answers := answers + [answer];
        if answer.Escaped? {
          DoDropBatch(id, phase, busy);
          return;
        }
        overwritePolicy := Some(Settle(answer));
        SendJobNow(id, job, Settle(answer), existed, phase, busy);
      } else {
        SendJobNow(id, job, PolicyOr(overwritePolicy), existed, phase, busy);
      }
    }

    method Dispatch(exists_: bool, answer: Answer, ghost phase: Phase, ghost busy: Option<Running>)
      modifies this, ledger
      ensures Value(phase, busy) == DispatchNextJob(old(Value(phase, busy)), exists_, answer)
    {
      hide L.Start, L.JobFor, DispatchStarted;
      NothingStarted(ledger.Value());
      failedLast := false;
      var id := ledger.NextToDispatch();
      if id.Some? {
        var job := L.JobFor(L.State(ledger.tasks, ledger.nextId, ledger.paused), id.value);
        if job.Some? {
          ResolveConflict(id.value, job.value, exists_, answer, phase, busy);
        }
      }
    }

    method HonourCancel(ghost advance: bool, ghost refresh: Option<L.Direction>, ghost busy: Option<Running>)
      modifies this`cmds, this`pendingCancel
      ensures Value(Dispatching(advance, refresh), busy) == DrainEnd(old(Value(Draining(advance, refresh), busy)))
    {
      if pendingCancel.Some? {
        cmds := cmds + [CancelJob(pendingCancel.value)];
      }
      pendingCancel := None;
    }

    method Advance(advance: bool, refresh: Option<L.Direction>, exists_: bool, answer: Answer,
                   ghost busy: Option<Running>)
      modifies this, ledger
      ensures Value(AtKeys, busy) == DispatchPhase(old(Value(Dispatching(advance, refresh), busy)), exists_, answer)
    {
      hide DispatchNextJob;
      ghost var here := Dispatching(advance, refresh);
      ghost var start := Value(here, busy);
      var go := pendingAdvance || advance;
      pendingAdvance := false;
      if go {
        Dispatch(exists_, answer, here, busy);
      }
      ghost var mid := Value(here, busy);
      assert mid == var t := start.(pendingAdvance := false); if go then DispatchNextJob(t, exists_, answer) else t;
      if refresh == Some(L.Upload) {
        cmds := cmds + [OtherCmd];
      }
    }

    /** One whole tick after the keys, with the worker at work all the while. */
    method DrainTransferEvents(late: seq<seq<Step>>, last: seq<Step>, exists_: bool, answer: Answer,
                               busy: Option<Running>) returns (busy': Option<Running>)
      modifies this, ledger
      ensures Value(AtKeys, busy') == Tick(old(Value(Draining(false, None), busy)), late, last, exists_, answer)
    {
      hide DrainAll, DrainEnd, DispatchPhase, Meanwhile;
      var advance, refresh, b := DrainEvents(late, busy);
      HonourCancel(advance, refresh, b);
      busy' := WorkerMoves(last, b, Dispatching(advance, refresh));
      Advance(advance, refresh, exists_, answer, busy');
    }
  }

  lemma NothingStarted(s: L.State)
    ensures L.Start(s).1.None? ==> L.Start(s).0 == s
  {
    hide L.First;
  }
}
