/**
 One MAC address's path from power readings to machine status and usage session
 (src/machine/machine.service.ts:112-250), fed by that MAC's bounded serial queue
 (libs/matter-client/src/matter-connection.service.ts:36-100).

 A handler runs for one reading at a time because the queue projects one value at a time.  Status
 updates form a promise chain per MAC: `tasks` is the chain of unsettled updates and its head is the
 one running.  A step is one stretch between awaits; an event that cannot happen is a no-op, so a
 list of events is any interleaving of arrivals, recordings, timers and queued updates.
 */
module PowerPipeline {
  import opened Options
  import opened BoundedQueue

  const MACHINE_ON_POWER_THRESHOLD := 4000   // milliwatts
  const MACHINE_ON_DURATION_MS := 60_000
  const POWER_UPDATE_QUEUE_LIMIT := 16

  datatype MachineType = Washer | Dryer

  datatype Status = IdleStatus | Wash | Rinse | Spin | Dry

  /**
   A reading whose handler has started.  It is `disturbed` when its recording failed, when no type was
   found for its machine, or when its MAC was forgotten or not tracked while it was handled.
   */
  datatype Reading = Reading(at: nat, power: int, disturbed: bool)

  datatype Handler =
    | Resting
    | Recording          // awaits `recordMachinePowerByMacAddress`
    | LookingUpType      // awaits `getMachineTypeByMacAddress`
    | Awaiting(id: nat)  // awaits its own queued status update

  /** `armedBy` is the index of the low reading whose handler set the timer. */
  datatype Timer = Timer(deadline: nat, armedBy: nat)

  /** A queued status update; for IDLE, `since` is the reading that armed its timer. */
  datatype Task = Task(id: nat, status: Status, since: nat)

  datatype Phase =
    | Queued                                // the head's guard has not run yet
    // Awaits `updateMachineStatusByMacAddress`; the guard ran at `guardAt` after `handled` readings.
    | WritingStatus(seen: Option<Status>, guardAt: nat, handled: nat)
    | ChangingSession(previous: Status)     // awaits `startUsingMachine` or `finishUsingMachine`

  /** IDLE written to the database: when its guard ran, the arming reading, the readings handled by then. */
  datatype IdleWrite = IdleWrite(at: nat, since: nat, upto: nat)

  datatype Pipeline = Pipeline(
    clock: nat,
    delivery: Queue<int>,
    handler: Handler,
    latest: Option<int>,
    timer: Option<Timer>,
    tasks: seq<Task>,
    phase: Phase,
    nextId: nat,
    tracked: bool,
    machineType: Option<MachineType>,
    cached: Option<Status>,
    open: bool,                 // the machine has an open usage session
    log: seq<Reading>,
    idleWrites: seq<IdleWrite>)

  /** How a session operation ends; finishing can commit and then fail on its next read. */
  datatype SessionOutcome = Failed | Done | CommittedThenFailed

  datatype PipelineEvent =
    | Tick(ms: nat)
    | Deliver(power: int)
    | RecordDone(ok: bool)
    | TypeFound(found: Option<MachineType>)
    | TimerFires
    | GuardRuns
    | StatusWritten(ok: bool)
    | SessionChanged(outcome: SessionOutcome)
    | Forget
    | Track(machineType: MachineType, status: Status)

  predicate IsLow(power: int) { power < MACHINE_ON_POWER_THRESHOLD }

  function ActiveStatus(t: MachineType): Status { if t.Washer? then Wash else Dry }

  // ----- Steps -----

  function BeginHandler(s: Pipeline, power: int): Pipeline {
    s.(latest := Some(power), log := s.log + [Reading(s.clock, power, false)], handler := Recording)
  }

  /** The queue moved on; if it projected another value, that value's handler begins. */
  function Advance(s: Pipeline, q: Queue<int>): Pipeline {
    var s' := s.(delivery := q);
    if |q.started| > |s.delivery.started| then BeginHandler(s', q.started[|q.started| - 1]) else s'
  }

  function EndHandler(s: Pipeline): Pipeline {
    Advance(s.(handler := Resting), Step(s.delivery, Resolve, POWER_UPDATE_QUEUE_LIMIT))
  }

  function Disturb(s: Pipeline): Pipeline {
    if s.handler.Resting? || s.log == [] then s
    else s.(log := s.log[|s.log| - 1 := s.log[|s.log| - 1].(disturbed := true)])
  }

  function ScheduleIdle(s: Pipeline, delay: nat): Pipeline
    requires s.log != []
  {
    if s.timer.Some? then s else s.(timer := Some(Timer(s.clock + delay, |s.log| - 1)))
  }

  function Enqueue(s: Pipeline, status: Status, since: nat): Pipeline {
    s.(tasks := s.tasks + [Task(s.nextId, status, since)], nextId := s.nextId + 1)
  }

  function EnqueueActive(s: Pipeline, t: MachineType): Pipeline {
    Enqueue(s, ActiveStatus(t), 0).(machineType := Some(t), handler := Awaiting(s.nextId))
  }

  function AfterRecord(s: Pipeline, ok: bool, delay: nat): Pipeline
    requires s.log != []
  {
    if !ok || !s.tracked then EndHandler(Disturb(s))
    else if IsLow(s.log[|s.log| - 1].power) then EndHandler(ScheduleIdle(s, delay))
    else
      var cleared := s.(timer := None);
      if s.machineType.Some? then EnqueueActive(cleared, s.machineType.value)
      else cleared.(handler := LookingUpType)
  }

  /** The head update settles; a handler awaiting it ends. */
  function Settle(s: Pipeline): Pipeline
    requires s.tasks != []
  {
    var s' := s.(tasks := s.tasks[1..], phase := Queued);
    if s.handler == Awaiting(s.tasks[0].id) then EndHandler(s') else s'
  }

  /** `shouldUpdate`: a missing latest power counts as 0 W. */
  predicate ShouldUpdate(latest: Option<int>, status: Status) {
    var power := if latest.Some? then latest.value else 0;
    if status.IdleStatus? then IsLow(power) else !IsLow(power)
  }

  function RunGuard(s: Pipeline): Pipeline
    requires s.tasks != []
  {
    var task := s.tasks[0];
    if !s.tracked || !ShouldUpdate(s.latest, task.status) then Settle(s)
    else if s.cached == Some(task.status) then Settle(s)
    else s.(phase := WritingStatus(s.cached, s.clock, |s.log|))
  }

  function AfterStatusWrite(s: Pipeline, ok: bool): Pipeline
    requires s.tasks != [] && s.phase.WritingStatus?
  {
    if ok then AfterWritten(NoteIdleWrite(s)) else Settle(s)
  }

  function NoteIdleWrite(s: Pipeline): Pipeline
    requires s.tasks != [] && s.phase.WritingStatus?
  {
    if s.tasks[0].status.IdleStatus?
    then s.(idleWrites := s.idleWrites + [IdleWrite(s.phase.guardAt, s.tasks[0].since, s.phase.handled)])
    else s
  }

  function AfterWritten(s: Pipeline): Pipeline
    requires s.tasks != [] && s.phase.WritingStatus?
  {
    var status := s.tasks[0].status;
    if !s.tracked then Settle(s)
    else if s.phase.seen.None? then Settle(s.(cached := Some(status)))
    else if status.IdleStatus? || s.phase.seen.value.IdleStatus? then
      s.(phase := ChangingSession(s.phase.seen.value))
    else Settle(s.(cached := Some(status)))
  }

  function AfterSession(s: Pipeline, outcome: SessionOutcome): Pipeline
    requires s.tasks != [] && s.phase.ChangingSession?
  {
    var status := s.tasks[0].status;
    var moved := if outcome.Failed? then s else s.(open := !status.IdleStatus?);
    if outcome.Done? && s.tracked then Settle(moved.(cached := Some(status))) else Settle(moved)
  }

  function StepPipeline(s: Pipeline, e: PipelineEvent, delay: nat): Pipeline {
    match e
    case Tick(ms) => s.(clock := s.clock + ms)
    case Deliver(power) => Advance(s, Step(s.delivery, Arrive(power), POWER_UPDATE_QUEUE_LIMIT))
    case RecordDone(ok) => if s.handler.Recording? && s.log != [] then AfterRecord(s, ok, delay) else s
    case TypeFound(found) =>
      if !s.handler.LookingUpType? then s
      else if found.None? then EndHandler(Disturb(s))
      else EnqueueActive(s, found.value)
    case TimerFires =>
      if s.timer.Some? && s.timer.value.deadline <= s.clock
      then Enqueue(s.(timer := None), IdleStatus, s.timer.value.armedBy)
      else s
    case GuardRuns => if s.tasks != [] && s.phase.Queued? then RunGuard(s) else s
    case StatusWritten(ok) => if s.tasks != [] && s.phase.WritingStatus? then AfterStatusWrite(s, ok) else s
    case SessionChanged(outcome) =>
      if s.tasks != [] && s.phase.ChangingSession? then AfterSession(s, outcome) else s
    case Forget =>
      Disturb(s).(timer := None, latest := None, tracked := false, machineType := None, cached := None)
    case Track(t, status) => s.(tracked := true, machineType := Some(t), cached := Some(status))
  }

  function RunPipeline(s: Pipeline, events: seq<PipelineEvent>, delay: nat): Pipeline
    decreases events
  {
    if events == [] then s else RunPipeline(StepPipeline(s, events[0], delay), events[1..], delay)
  }

  /** A service that has just started with this MAC tracked. */
  function Fresh(t: MachineType, status: Status, open: bool): Pipeline {
    Pipeline(0, Init(), Resting, None, None, [], Queued, 0, true, Some(t), Some(status), open, [], [])
  }

  // ----- Invariant -----

  predicate Calm(r: Reading) { IsLow(r.power) || r.disturbed }

  /** Every reading handled since `since` was low or disturbed. */
  ghost predicate CalmSince(log: seq<Reading>, since: nat, upto: nat) {
    since <= upto <= |log| && forall j :: since <= j < upto ==> Calm(log[j])
  }

  /** All but possibly the reading being handled right now. */
  ghost predicate CalmBut(log: seq<Reading>, handler: Handler, since: nat) {
    && since < |log|
    && IsLow(log[since].power)
    && CalmSince(log, since, |log| - 1)
    && (handler.Resting? ==> CalmSince(log, since, |log|))
  }

  ghost predicate HandlerInv(s: Pipeline) {
    && Inv(s.delivery, POWER_UPDATE_QUEUE_LIMIT)
    && s.delivery.rejected == 0
    && |s.log| == |s.delivery.started|
    && (s.handler.Resting? <==> !Outstanding(s.delivery))
    && (forall i :: 0 <= i < |s.log| ==> s.log[i].power == s.delivery.started[i] && s.log[i].at <= s.clock)
    && (!s.handler.Resting? ==>
          s.log != [] && (Calm(s.log[|s.log| - 1]) || s.latest == Some(s.log[|s.log| - 1].power)))
  }

  ghost predicate TimerInv(s: Pipeline, delay: nat) {
    && (s.timer.Some? ==>
          var t := s.timer.value;
          && (s.handler.Resting? || s.handler.Recording?)
          && CalmBut(s.log, s.handler, t.armedBy)
          && s.log[t.armedBy].at + delay <= t.deadline)
  }

  ghost predicate TasksInv(s: Pipeline, delay: nat) {
    && (forall k :: 0 <= k < |s.tasks| && s.tasks[k].status.IdleStatus? ==>
          CalmBut(s.log, s.handler, s.tasks[k].since) && s.log[s.tasks[k].since].at + delay <= s.clock)
    && (forall k :: 0 <= k < |s.tasks| ==> s.tasks[k].id < s.nextId)
    && (forall k :: 0 <= k < |s.tasks| && s.handler == Awaiting(s.tasks[k].id) ==>
          k == |s.tasks| - 1 && !s.tasks[k].status.IdleStatus?)
    && (forall k :: 0 <= k < |s.tasks| && !s.tasks[k].status.IdleStatus? ==>
          k == |s.tasks| - 1 && s.handler == Awaiting(s.tasks[k].id))
    && (s.handler.Awaiting? ==> s.tasks != [] && s.handler == Awaiting(s.tasks[|s.tasks| - 1].id))
    && (s.tasks == [] ==> s.phase.Queued?)
  }

  ghost predicate WritesInv(s: Pipeline, delay: nat) {
    && (forall w :: w in s.idleWrites ==> Debounced(s.log, w, delay))
    && (s.tasks != [] && s.phase.WritingStatus? && s.tasks[0].status.IdleStatus? ==>
          Debounced(s.log, IdleWrite(s.phase.guardAt, s.tasks[0].since, s.phase.handled), delay))
  }

  /** The arming reading was low and at least `delay` old, and nothing undisturbed was high since. */
  ghost predicate Debounced(log: seq<Reading>, w: IdleWrite, delay: nat) {
    && w.since < w.upto <= |log|
    && IsLow(log[w.since].power)
    && log[w.since].at + delay <= w.at
    && CalmSince(log, w.since, w.upto)
  }

  ghost predicate PipelineInv(s: Pipeline, delay: nat) {
    HandlerInv(s) && TimerInv(s, delay) && TasksInv(s, delay) && WritesInv(s, delay)
  }

  // ----- The queue below: one value is projected at a time -----

  lemma QueueMoves(q: Queue<int>, e: Event<int>)
    requires Inv(q, POWER_UPDATE_QUEUE_LIMIT) && q.rejected == 0
    requires e.Arrive? || (e.Resolve? && Outstanding(q))
    ensures
      var q' := Step(q, e, POWER_UPDATE_QUEUE_LIMIT);
      && Inv(q', POWER_UPDATE_QUEUE_LIMIT)
      && q'.rejected == 0
      && (q'.started == q.started
          || (|q'.started| == |q.started| + 1 && q'.started[..|q.started|] == q.started))
      && (Outstanding(q') <==> |q'.started| > |q.started| || (e.Arrive? && Outstanding(q)))
      && (e.Arrive? && Outstanding(q) ==> q'.started == q.started)
  {
    StepKeepsInv(q, e, POWER_UPDATE_QUEUE_LIMIT);
  }

  /** A handler may end here: everything armed so far has been calm up to the last reading. */
  ghost predicate Releasable(s: Pipeline, delay: nat) {
    && HandlerInv(s)
    && !s.handler.Resting?
    && (s.timer.Some? ==>
          var t := s.timer.value;
          && t.armedBy < |s.log| && IsLow(s.log[t.armedBy].power) && CalmSince(s.log, t.armedBy, |s.log|)
          && s.log[t.armedBy].at + delay <= t.deadline)
    && (forall k :: 0 <= k < |s.tasks| ==>
          var t := s.tasks[k];
          && t.status.IdleStatus? && t.id < s.nextId
          && t.since < |s.log| && IsLow(s.log[t.since].power) && CalmSince(s.log, t.since, |s.log|)
          && s.log[t.since].at + delay <= s.clock)
    && (s.tasks == [] ==> s.phase.Queued?)
    && WritesInv(s, delay)
  }

  lemma EndHandlerKeeps(s: Pipeline, delay: nat)
    requires Releasable(s, delay)
    ensures PipelineInv(EndHandler(s), delay)
  {
    hide Step, Inv, Outstanding;
    QueueMoves(s.delivery, Resolve);
    var s' := EndHandler(s);
    assert s'.log[..|s.log|] == s.log;
    assert WritesInv(s', delay) by { WritesSurvive(s, s', delay); }
  }

  /** Recorded guards stay debounced when the log grows or a reading turns out disturbed. */
  lemma WritesSurvive(s: Pipeline, s': Pipeline, delay: nat)
    requires WritesInv(s, delay) && s'.idleWrites == s.idleWrites && |s.log| <= |s'.log|
    requires s'.tasks == s.tasks && s'.phase == s.phase
    requires forall j :: 0 <= j < |s.log| ==>
               && s'.log[j].power == s.log[j].power && s'.log[j].at == s.log[j].at
               && (s.log[j].disturbed ==> s'.log[j].disturbed)
    ensures WritesInv(s', delay)
  {
  }

  lemma BeginKeeps(s: Pipeline, q: Queue<int>, delay: nat)
    requires PipelineInv(s, delay) && s.handler.Resting?
    requires Inv(q, POWER_UPDATE_QUEUE_LIMIT) && q.rejected == 0 && Outstanding(q)
    requires |q.started| == |s.log| + 1 && q.started[..|s.log|] == s.delivery.started
    ensures PipelineInv(Advance(s, q), delay)
  {
    hide Inv, Outstanding, Debounced;
    var s' := Advance(s, q);
    assert s'.log[..|s.log|] == s.log;
    assert HandlerInv(s');
    assert TimerInv(s', delay);
    WritesSurvive(s, s', delay);
  }

  lemma DeliverKeeps(s: Pipeline, power: int, delay: nat)
    requires PipelineInv(s, delay)
    ensures PipelineInv(StepPipeline(s, Deliver(power), delay), delay)
  {
    hide Step, Inv, Outstanding, Debounced, CalmBut;
    var q := Step(s.delivery, Arrive(power), POWER_UPDATE_QUEUE_LIMIT);
    QueueMoves(s.delivery, Arrive(power));
    if q.started != s.delivery.started {
      BeginKeeps(s, q, delay);
    } else {
      assert StepPipeline(s, Deliver(power), delay) == s.(delivery := q);
    }
  }

  lemma DisturbKeeps(s: Pipeline, delay: nat)
    requires PipelineInv(s, delay)
    ensures PipelineInv(Disturb(s), delay)
    ensures !s.handler.Resting? ==> Calm(Disturb(s).log[|s.log| - 1])
  {
    hide Inv, Outstanding;
    WritesSurvive(s, Disturb(s), delay);
  }

  /** A handler that reacted to a low or disturbed reading without awaiting an update may end. */
  lemma CalmHandlerIsReleasable(s: Pipeline, delay: nat)
    requires PipelineInv(s, delay) && !s.handler.Resting? && !s.handler.Awaiting?
    requires Calm(s.log[|s.log| - 1])
    ensures Releasable(s, delay)
  {
    hide Inv, Outstanding;
  }

  lemma RecordKeeps(s: Pipeline, ok: bool, delay: nat)
    requires PipelineInv(s, delay) && s.handler.Recording?
    ensures PipelineInv(AfterRecord(s, ok, delay), delay)
  {
    assert s.log != [];
    hide PipelineInv, EndHandler, Disturb, ScheduleIdle, EnqueueActive;
    if !ok || !s.tracked {
      MissedReadingKeeps(s, delay);
    } else if IsLow(s.log[|s.log| - 1].power) {
      LowReadingKeeps(s, delay);
    } else {
      ClearedKeeps(s, delay);
      if s.machineType.Some? {
        EnqueueActiveKeeps(s.(timer := None), s.machineType.value, delay);
      }
    }
  }

  lemma MissedReadingKeeps(s: Pipeline, delay: nat)
    requires PipelineInv(s, delay) && s.handler.Recording?
    ensures PipelineInv(EndHandler(Disturb(s)), delay)
  {
    DisturbKeeps(s, delay);
    assert s.log != [] && Disturb(s).handler == s.handler && Calm(Disturb(s).log[|s.log| - 1]) && |Disturb(s).log| == |s.log|;
    hide PipelineInv, EndHandler, Disturb;
    CalmHandlerIsReleasable(Disturb(s), delay);
    EndHandlerKeeps(Disturb(s), delay);
  }

  lemma LowReadingKeeps(s: Pipeline, delay: nat)
    requires PipelineInv(s, delay) && s.handler.Recording? && IsLow(s.log[|s.log| - 1].power)
    ensures PipelineInv(EndHandler(ScheduleIdle(s, delay)), delay)
  {
    hide Inv, Outstanding, EndHandler;
    CalmHandlerIsReleasable(s, delay);
    assert Releasable(ScheduleIdle(s, delay), delay);
    EndHandlerKeeps(ScheduleIdle(s, delay), delay);
  }

  /** Nothing about the timer is relied upon once it is gone. */
  lemma ClearedKeeps(s: Pipeline, delay: nat)
    requires PipelineInv(s, delay) && s.handler.Recording?
    ensures PipelineInv(s.(timer := None), delay) && PipelineInv(s.(timer := None, handler := LookingUpType), delay)
  {
    hide Inv, Outstanding;
  }

  lemma EnqueueActiveKeeps(s: Pipeline, t: MachineType, delay: nat)
    requires PipelineInv(s, delay) && s.timer.None? && (s.handler.Recording? || s.handler.LookingUpType?)
    ensures PipelineInv(EnqueueActive(s, t), delay)
  {
    hide Inv, Outstanding;
  }

  lemma TypeFoundKeeps(s: Pipeline, found: Option<MachineType>, delay: nat)
    requires PipelineInv(s, delay)
    ensures PipelineInv(StepPipeline(s, TypeFound(found), delay), delay)
  {
    hide Inv, Outstanding, EndHandler, EnqueueActive;
    if s.handler.LookingUpType? {
      if found.None? {
        DisturbKeeps(s, delay);
        CalmHandlerIsReleasable(Disturb(s), delay);
        EndHandlerKeeps(Disturb(s), delay);
      } else {
        EnqueueActiveKeeps(s, found.value, delay);
      }
    }
  }

  lemma TimerKeeps(s: Pipeline, delay: nat)
    requires PipelineInv(s, delay)
    ensures PipelineInv(StepPipeline(s, TimerFires, delay), delay)
  {
    hide Inv, Outstanding;
  }

  lemma SettleKeeps(s: Pipeline, delay: nat)
    requires PipelineInv(s, delay) && s.tasks != []
    ensures PipelineInv(Settle(s), delay)
  {
    hide Inv, Outstanding, EndHandler;
    var s' := s.(tasks := s.tasks[1..], phase := Queued);
    if s.handler == Awaiting(s.tasks[0].id) {
      assert |s.tasks| == 1;
      assert Releasable(s', delay);
      EndHandlerKeeps(s', delay);
    } else {
      assert forall k :: 0 <= k < |s'.tasks| ==> s'.tasks[k] == s.tasks[k + 1];
    }
  }

  /** A guard that lets IDLE through has seen only calm readings since the timer was armed. */
  lemma IdleGuardIsDebounced(s: Pipeline, delay: nat)
    requires PipelineInv(s, delay) && s.tasks != []
    requires s.tasks[0].status.IdleStatus? && ShouldUpdate(s.latest, IdleStatus)
    ensures Debounced(s.log, IdleWrite(s.clock, s.tasks[0].since, |s.log|), delay)
  {
    hide Inv, Outstanding;
  }

  lemma GuardKeeps(s: Pipeline, delay: nat)
    requires PipelineInv(s, delay) && s.tasks != [] && s.phase.Queued?
    ensures PipelineInv(RunGuard(s), delay)
  {
    hide Inv, Outstanding, Settle, Debounced;
    var task := s.tasks[0];
    if !s.tracked || !ShouldUpdate(s.latest, task.status) || s.cached == Some(task.status) {
      SettleKeeps(s, delay);
    } else if task.status.IdleStatus? {
      IdleGuardIsDebounced(s, delay);
    }
  }

  /** The invariant does not read the cache, the session or a session change in progress. */
  lemma CacheKeeps(s: Pipeline, s': Pipeline, delay: nat)
    requires PipelineInv(s, delay) && s.tasks != []
    requires s' == s.(cached := s'.cached, open := s'.open, phase := s'.phase)
    requires s'.phase == s.phase || s'.phase.ChangingSession?
    ensures PipelineInv(s', delay)
  {
    hide Inv, Outstanding, Debounced, CalmBut;
  }

  lemma NoteKeeps(s: Pipeline, delay: nat)
    requires PipelineInv(s, delay) && s.tasks != [] && s.phase.WritingStatus?
    ensures PipelineInv(NoteIdleWrite(s), delay)
  {
    hide Inv, Outstanding, Debounced, CalmBut;
  }

  lemma WrittenKeeps(s: Pipeline, delay: nat)
    requires PipelineInv(s, delay) && s.tasks != [] && s.phase.WritingStatus?
    ensures PipelineInv(AfterWritten(s), delay)
  {
    hide PipelineInv, Settle;
    var done := s.(cached := Some(s.tasks[0].status));
    CacheKeeps(s, done, delay);
    SettleKeeps(done, delay);
    SettleKeeps(s, delay);
    if s.phase.seen.Some? {
      CacheKeeps(s, s.(phase := ChangingSession(s.phase.seen.value)), delay);
    }
  }

  lemma UpdateKeeps(s: Pipeline, e: PipelineEvent, delay: nat)
    requires PipelineInv(s, delay) && (e.StatusWritten? || e.SessionChanged?)
    ensures PipelineInv(StepPipeline(s, e, delay), delay)
  {
    hide PipelineInv, Settle, AfterWritten;
    if s.tasks != [] && e.StatusWritten? && s.phase.WritingStatus? {
      SettleKeeps(s, delay);
      NoteKeeps(s, delay);
      WrittenKeeps(NoteIdleWrite(s), delay);
    } else if s.tasks != [] && e.SessionChanged? && s.phase.ChangingSession? {
      var moved := if e.outcome.Failed? then s else s.(open := !s.tasks[0].status.IdleStatus?);
      var done := moved.(cached := Some(s.tasks[0].status));
      CacheKeeps(s, moved, delay);
      CacheKeeps(s, done, delay);
      SettleKeeps(moved, delay);
      SettleKeeps(done, delay);
    }
  }

  lemma ForgetKeeps(s: Pipeline, delay: nat)
    requires PipelineInv(s, delay)
    ensures PipelineInv(StepPipeline(s, Forget, delay), delay)
  {
    hide Inv, Outstanding;
    DisturbKeeps(s, delay);
  }

  lemma StepKeepsPipelineInv(s: Pipeline, e: PipelineEvent, delay: nat)
    requires PipelineInv(s, delay)
    ensures PipelineInv(StepPipeline(s, e, delay), delay)
  {
    hide PipelineInv, Inv, Outstanding, AfterRecord, RunGuard, AfterStatusWrite, AfterSession, Disturb;
    match e {
      case Tick(ms) => QuietStepKeeps(s, e, delay);
      case Deliver(power) => DeliverKeeps(s, power, delay);
      case RecordDone(ok) => if s.handler.Recording? && s.log != [] { RecordKeeps(s, ok, delay); }
      case TypeFound(found) => TypeFoundKeeps(s, found, delay);
      case TimerFires => TimerKeeps(s, delay);
      case GuardRuns => if s.tasks != [] && s.phase.Queued? { GuardKeeps(s, delay); }
      case StatusWritten(ok) => UpdateKeeps(s, e, delay);
      case SessionChanged(outcome) => UpdateKeeps(s, e, delay);
      case Forget => ForgetKeeps(s, delay);
      case Track(t, status) => QuietStepKeeps(s, e, delay);
    }
  }

  lemma QuietStepKeeps(s: Pipeline, e: PipelineEvent, delay: nat)
    requires PipelineInv(s, delay) && (e.Tick? || e.Track?)
    ensures PipelineInv(StepPipeline(s, e, delay), delay)
  {
    hide Inv, Outstanding, CalmSince, Debounced;
  }

  lemma {:induction false} RunKeepsPipelineInv(s: Pipeline, events: seq<PipelineEvent>, delay: nat)
    requires PipelineInv(s, delay)
    ensures PipelineInv(RunPipeline(s, events, delay), delay)
    decreases events
  {
    hide PipelineInv, StepPipeline;
    if events != [] {
      StepKeepsPipelineInv(s, events[0], delay);
      RunKeepsPipelineInv(StepPipeline(s, events[0], delay), events[1..], delay);
    }
  }

  // ----- Debounce over every run -----

  /** The events under which every handled reading is recorded and its machine stays tracked. */
  predicate Undisturbed(e: PipelineEvent) {
    e != RecordDone(false) && e != TypeFound(None) && !e.Forget?
  }

  lemma FreshInv(t: MachineType, status: Status, open: bool, delay: nat)
    ensures PipelineInv(Fresh(t, status, open), delay)
  {
  }

  /**
   Whatever the order of timers, handlers and queued updates, the power path writes IDLE only after a
   low reading handled at least `delay` before the update's guard ran, such that every reading handled
   from then until the guard was low or disturbed.
   */
  lemma IdleIsDebounced(t: MachineType, status: Status, open: bool, events: seq<PipelineEvent>, delay: nat)
    ensures
      var s := RunPipeline(Fresh(t, status, open), events, delay);
      && |s.log| == |s.delivery.started|
      && (forall i :: 0 <= i < |s.log| ==> s.log[i].power == s.delivery.started[i])
      && (forall w :: w in s.idleWrites ==> Debounced(s.log, w, delay))
  {
    FreshInv(t, status, open, delay);
    RunKeepsPipelineInv(Fresh(t, status, open), events, delay);
  }

  ghost predicate NoneDisturbed(s: Pipeline) {
    s.tracked && forall j :: 0 <= j < |s.log| ==> !s.log[j].disturbed
  }

  lemma EndUndisturbed(s: Pipeline)
    requires NoneDisturbed(s)
    ensures NoneDisturbed(EndHandler(s))
  {
    hide Step;
  }

  lemma SettleUndisturbed(s: Pipeline)
    requires NoneDisturbed(s) && s.tasks != []
    ensures NoneDisturbed(Settle(s))
  {
    hide EndHandler;
    EndUndisturbed(s.(tasks := s.tasks[1..], phase := Queued));
  }

  lemma TasksUndisturbed(s: Pipeline, e: PipelineEvent, delay: nat)
    requires NoneDisturbed(s) && (e.GuardRuns? || e.StatusWritten? || e.SessionChanged?)
    ensures NoneDisturbed(StepPipeline(s, e, delay))
  {
    hide Settle;
    if s.tasks != [] {
      var status := s.tasks[0].status;
      SettleUndisturbed(s);
      if e.StatusWritten? && s.phase.WritingStatus? {
        SettleUndisturbed(NoteIdleWrite(s));
        SettleUndisturbed(NoteIdleWrite(s).(cached := Some(status)));
      } else if e.SessionChanged? {
        var moved := s.(open := !status.IdleStatus?);
        SettleUndisturbed(moved);
        SettleUndisturbed(moved.(cached := Some(status)));
        SettleUndisturbed(s.(cached := Some(status)));
      }
    }
  }

  lemma StepUndisturbed(s: Pipeline, e: PipelineEvent, delay: nat)
    requires NoneDisturbed(s) && Undisturbed(e)
    ensures NoneDisturbed(StepPipeline(s, e, delay))
  {
    if e.GuardRuns? || e.StatusWritten? || e.SessionChanged? {
      TasksUndisturbed(s, e, delay);
    } else {
      hide Step, EndHandler, RunGuard, AfterStatusWrite, AfterSession;
      if e.RecordDone? && s.log != [] {
        EndUndisturbed(s);
        EndUndisturbed(ScheduleIdle(s, delay));
      }
    }
  }

  lemma {:induction false} RunUndisturbed(s: Pipeline, events: seq<PipelineEvent>, delay: nat)
    requires NoneDisturbed(s) && forall e :: e in events ==> Undisturbed(e)
    ensures NoneDisturbed(RunPipeline(s, events, delay))
    decreases events
  {
    hide StepPipeline, NoneDisturbed;
    if events != [] {
      StepUndisturbed(s, events[0], delay);
      RunUndisturbed(StepPipeline(s, events[0], delay), events[1..], delay);
    }
  }

  /** If every recording succeeds and the MAC stays tracked, every reading since the arming one was below 4 W. */
  lemma IdleMeansLowThroughout(t: MachineType, status: Status, open: bool, events: seq<PipelineEvent>, delay: nat)
    requires forall e :: e in events ==> Undisturbed(e)
    ensures
      var s := RunPipeline(Fresh(t, status, open), events, delay);
      forall w :: w in s.idleWrites ==>
        && w.since < w.upto <= |s.log|
        && s.log[w.since].at + delay <= w.at
        && forall j :: w.since <= j < w.upto ==> s.log[j].power < 4_000
  {
    hide RunPipeline, PipelineInv;
    IdleIsDebounced(t, status, open, events, delay);
    RunUndisturbed(Fresh(t, status, open), events, delay);
  }

  /**
   In every run, for every single IDLE write: all readings from the arming one to the guard were below 4 W
   exactly when none of them was both at least that and disturbed.
   */
  lemma WindowIsLowExactly(t: MachineType, status: Status, open: bool, events: seq<PipelineEvent>, delay: nat, w: IdleWrite)
    requires w in RunPipeline(Fresh(t, status, open), events, delay).idleWrites
    ensures
      var log := RunPipeline(Fresh(t, status, open), events, delay).log;
      && w.since < w.upto <= |log| && log[w.since].at + delay <= w.at
      && ((forall j :: w.since <= j < w.upto ==> log[j].power < 4_000) <==>
          !exists j :: w.since <= j < w.upto && log[j].power >= 4_000 && log[j].disturbed)
  {
    hide RunPipeline;
    IdleIsDebounced(t, status, open, events, delay);
    var log := RunPipeline(Fresh(t, status, open), events, delay).log;
    assert forall j :: w.since <= j < w.upto ==> Calm(log[j]);
  }

  lemma RunAppend(s: Pipeline, xs: seq<PipelineEvent>, ys: seq<PipelineEvent>, delay: nat)
    ensures RunPipeline(s, xs + ys, delay) == RunPipeline(RunPipeline(s, xs, delay), ys, delay)
    decreases xs
  {
    hide StepPipeline;
    if xs == [] {
      assert xs + ys == ys;
    } else {
      assert (xs + ys)[1..] == xs[1..] + ys;
      RunAppend(StepPipeline(s, xs[0], delay), xs[1..], ys, delay);
    }
  }

  lemma RunTwo(s: Pipeline, a: PipelineEvent, b: PipelineEvent, delay: nat)
    ensures RunPipeline(s, [a, b], delay) == StepPipeline(StepPipeline(s, a, delay), b, delay)
  {
    hide StepPipeline;
    var next := StepPipeline(s, a, delay);
    assert [a, b][1..] == [b];
    assert RunPipeline(next, [b], delay) == RunPipeline(StepPipeline(next, b, delay), [], delay);
  }

  /** The queue after each of the given readings has been handled. */
  function AllHandled(powers: seq<int>): Queue<int> {
    Queue([], false, false, false, false, seq(|powers|, i requires 0 <= i < |powers| => Offer(powers[i], Accepted)),
          powers, |powers|, 0, 0, 0, false)
  }

  /** A reading that is delivered to a resting handler and recorded, successfully or not. */
  lemma HandleOne(s: Pipeline, powers: seq<int>, power: int, ok: bool, delay: nat)
    requires s.handler.Resting? && s.tracked && s.delivery == AllHandled(powers)
    requires ok ==> IsLow(power)
    ensures
      var s' := s.(delivery := AllHandled(powers + [power]), latest := Some(power),
                   log := s.log + [Reading(s.clock, power, !ok)]);
      RunPipeline(s, [Deliver(power), RecordDone(ok)], delay) == if ok then ScheduleIdle(s', delay) else s'
  {
    var begun := StepPipeline(s, Deliver(power), delay);
    var done := AllHandled(powers + [power]);
    assert begun.delivery == done.(inFlight := true, resolved := |powers|);
    assert Step(begun.delivery, Resolve, POWER_UPDATE_QUEUE_LIMIT) == done;
    assert begun.log[|s.log| := Reading(s.clock, power, true)] == s.log + [Reading(s.clock, power, true)];
    RunTwo(s, Deliver(power), RecordDone(ok), delay);
    hide RunPipeline, Step;
  }

  /** A due timer whose update finds low power writes IDLE at once when nothing else is queued. */
  lemma FireOne(s: Pipeline, delay: nat)
    requires s.timer.Some? && s.timer.value.deadline <= s.clock && s.tasks == [] && s.phase.Queued?
    requires s.tracked && ShouldUpdate(s.latest, IdleStatus) && s.cached.Some? && !s.cached.value.IdleStatus?
    ensures
      var s' := RunPipeline(s, [TimerFires, GuardRuns, StatusWritten(true)], delay);
      && s'.log == s.log
      && s'.idleWrites == s.idleWrites + [IdleWrite(s.clock, s.timer.value.armedBy, |s.log|)]
  {
    hide Step;
    var fired := StepPipeline(s, TimerFires, delay);
    var guarded := StepPipeline(fired, GuardRuns, delay);
    RunAppend(s, [TimerFires], [GuardRuns, StatusWritten(true)], delay);
    assert [TimerFires] + [GuardRuns, StatusWritten(true)] == [TimerFires, GuardRuns, StatusWritten(true)];
    RunAppend(fired, [GuardRuns], [StatusWritten(true)], delay);
    assert [GuardRuns] + [StatusWritten(true)] == [GuardRuns, StatusWritten(true)];
    assert RunPipeline(s, [TimerFires], delay) == fired;
    assert RunPipeline(fired, [GuardRuns], delay) == guarded;
    assert RunPipeline(guarded, [StatusWritten(true)], delay) == StepPipeline(guarded, StatusWritten(true), delay);
  }

  /** A high reading whose recording fails does not disarm the timer: IDLE follows half a second later. */
  lemma FailedRecordingBreaksDebounce() returns (events: seq<PipelineEvent>)
    ensures
      var s := RunPipeline(Fresh(Washer, Wash, true), events, MACHINE_ON_DURATION_MS);
      && s.idleWrites == [IdleWrite(60_000, 0, 3)]
      && |s.log| == 3 && s.log[1] == Reading(59_500, 9_000, true)
  {
    hide Step, AfterRecord, RunPipeline;
    var delay := MACHINE_ON_DURATION_MS;
    var fire := [TimerFires, GuardRuns, StatusWritten(true)];
    var arm, miss, again := [Deliver(0), RecordDone(true)], [Deliver(9_000), RecordDone(false)], [Deliver(0), RecordDone(true)];
    events := arm + [Tick(59_500)] + miss + [Tick(500)] + again + fire;
    var s0 := Fresh(Washer, Wash, true);
    HandleOne(s0, [], 0, true, delay);
    var s1 := RunPipeline(s0, arm, delay);
    var s2 := s1.(clock := 59_500);
    HandleOne(s2, [0], 9_000, false, delay);
    var s3 := RunPipeline(s2, miss, delay);
    var s4 := s3.(clock := 60_000);
    HandleOne(s4, [0, 9_000], 0, true, delay);
    var s5 := RunPipeline(s4, again, delay);
    FireOne(s5, delay);
    RunTick(s1, 59_500, delay);
    RunTick(s3, 500, delay);
    RunAppend(s0, arm + [Tick(59_500)] + miss + [Tick(500)] + again, fire, delay);
    RunAppend(s0, arm + [Tick(59_500)] + miss + [Tick(500)], again, delay);
    RunAppend(s0, arm + [Tick(59_500)] + miss, [Tick(500)], delay);
    RunAppend(s0, arm + [Tick(59_500)], miss, delay);
    RunAppend(s0, arm, [Tick(59_500)], delay);
  }

  lemma RunTick(s: Pipeline, ms: nat, delay: nat)
    ensures RunPipeline(s, [Tick(ms)], delay) == s.(clock := s.clock + ms)
  {
    assert RunPipeline(StepPipeline(s, Tick(ms), delay), [], delay) == StepPipeline(s, Tick(ms), delay);
  }

  // ----- The cached status follows the session -----

  predicate Consistent(s: Pipeline) {
    s.cached.Some? ==> (s.cached.value.IdleStatus? <==> !s.open)
  }

  /** A tracked MAC has a cached status, and a running update has read it. */
  predicate CacheInv(s: Pipeline) {
    && (s.tracked <==> s.cached.Some?)
    && (s.phase.WritingStatus? ==> s.phase.seen.Some?)
  }

  /** No other update touches the cache while one runs. */
  predicate SeesCache(s: Pipeline) {
    && s.tracked && s.cached.Some?
    && (s.phase.WritingStatus? ==> s.phase.seen == s.cached)
    && (s.phase.ChangingSession? ==>
          && s.cached == Some(s.phase.previous)
          && (s.tasks != [] ==> s.tasks[0].status.IdleStatus? || s.phase.previous.IdleStatus?))
    && (!s.phase.Queued? && s.tasks != [] ==> s.cached != Some(s.tasks[0].status))
  }

  predicate TracksThroughout(e: PipelineEvent) { !e.Forget? && !e.Track? }

  predicate HalfDone(s: Pipeline, e: PipelineEvent) {
    e == SessionChanged(CommittedThenFailed) && s.tasks != [] && s.phase.ChangingSession?
  }

  predicate Settled(s: Pipeline, s': Pipeline) {
    s'.tracked == s.tracked && s'.cached == s.cached && s'.open == s.open && s'.phase == Queued
  }

  lemma EndKeepsCache(s: Pipeline)
    ensures
      var s' := EndHandler(s);
      && s'.tracked == s.tracked && s'.cached == s.cached && s'.open == s.open && s'.phase == s.phase
      && s'.tasks == s.tasks
  {
    hide Step;
  }

  lemma SettleKeepsCache(s: Pipeline)
    requires s.tasks != []
    ensures Settled(s, Settle(s))
  {
    hide EndHandler;
    EndKeepsCache(s.(tasks := s.tasks[1..], phase := Queued));
  }

  predicate TouchesCache(e: PipelineEvent) { e.GuardRuns? || e.StatusWritten? || e.SessionChanged? }

  lemma OtherStepsKeepCache(s: Pipeline, e: PipelineEvent, delay: nat)
    requires TracksThroughout(e) && !TouchesCache(e)
    ensures
      var s' := StepPipeline(s, e, delay);
      && s'.tracked == s.tracked && s'.cached == s.cached && s'.open == s.open && s'.phase == s.phase
      && (s.tasks != [] ==> s'.tasks != [] && s'.tasks[0] == s.tasks[0])
  {
    hide Step, EndHandler;
    if e.RecordDone? && s.handler.Recording? && s.log != [] {
      EndKeepsCache(Disturb(s));
      EndKeepsCache(ScheduleIdle(s, delay));
    } else if e.TypeFound? {
      EndKeepsCache(Disturb(s));
    }
  }

  lemma UpdatesFollowSession(s: Pipeline, e: PipelineEvent, delay: nat)
    requires Consistent(s) && SeesCache(s) && TouchesCache(e) && s.tasks != []
    ensures SeesCache(StepPipeline(s, e, delay))
    ensures Consistent(StepPipeline(s, e, delay)) <==> !HalfDone(s, e)
  {
    hide Settle;
    var status := s.tasks[0].status;
    SettleKeepsCache(s);
    if e.StatusWritten? && s.phase.WritingStatus? {
      SettleKeepsCache(NoteIdleWrite(s));
      SettleKeepsCache(NoteIdleWrite(s).(cached := Some(status)));
    } else if e.SessionChanged? {
      var moved := s.(open := !status.IdleStatus?);
      SettleKeepsCache(moved);
      SettleKeepsCache(moved.(cached := Some(status)));
    }
  }

  /**
   While the MAC stays tracked, a step takes a consistent state to an inconsistent one exactly when a
   session operation commits and then fails: only then is the cache left behind.
   */
  lemma CacheFollowsSession(s: Pipeline, e: PipelineEvent, delay: nat)
    requires Consistent(s) && SeesCache(s) && TracksThroughout(e)
    requires s.tasks == [] ==> s.phase.Queued?
    ensures SeesCache(StepPipeline(s, e, delay))
    ensures Consistent(StepPipeline(s, e, delay)) <==> !HalfDone(s, e)
  {
    hide StepPipeline;
    if !TouchesCache(e) {
      OtherStepsKeepCache(s, e, delay);
      IdleChain(s, e, delay);
    } else if s.tasks != [] {
      UpdatesFollowSession(s, e, delay);
    } else {
      IdleChain(s, e, delay);
    }
  }

  lemma IdleChain(s: Pipeline, e: PipelineEvent, delay: nat)
    ensures s.tasks == [] && TouchesCache(e) ==> StepPipeline(s, e, delay) == s
  {
  }

  /**
   From a consistent start, between queued updates the cached status is IDLE exactly when no session is
   open, provided every status, start and finish operation takes effect or fails without effect.
   */
  lemma {:induction false} CacheAgreesWithSession(s: Pipeline, events: seq<PipelineEvent>, delay: nat)
    requires PipelineInv(s, delay) && Consistent(s) && SeesCache(s)
    requires forall e :: e in events ==> TracksThroughout(e) && e != SessionChanged(CommittedThenFailed)
    ensures
      var s' := RunPipeline(s, events, delay);
      Consistent(s') && SeesCache(s') && s'.cached.Some? && (s'.cached.value.IdleStatus? <==> !s'.open)
    decreases events
  {
    if events != [] {
      hide StepPipeline;
      StepKeepsPipelineInv(s, events[0], delay);
      CacheFollowsSession(s, events[0], delay);
      CacheAgreesWithSession(StepPipeline(s, events[0], delay), events[1..], delay);
    }
  }

  lemma UpdateKeepsCacheInv(s: Pipeline, e: PipelineEvent, delay: nat)
    requires CacheInv(s) && TouchesCache(e) && s.tasks != []
    ensures CacheInv(StepPipeline(s, e, delay))
  {
    hide Settle;
    var status := s.tasks[0].status;
    SettleKeepsCache(s);
    if e.StatusWritten? && s.phase.WritingStatus? {
      SettleKeepsCache(NoteIdleWrite(s));
      SettleKeepsCache(NoteIdleWrite(s).(cached := Some(status)));
    } else if e.SessionChanged? {
      var moved := s.(open := !status.IdleStatus?);
      SettleKeepsCache(moved);
      SettleKeepsCache(moved.(cached := Some(status)));
    }
  }

  lemma CacheInvStep(s: Pipeline, e: PipelineEvent, delay: nat)
    requires CacheInv(s)
    ensures CacheInv(StepPipeline(s, e, delay))
  {
    if TracksThroughout(e) && !TouchesCache(e) {
      OtherStepsKeepCache(s, e, delay);
      hide StepPipeline;
    } else if TouchesCache(e) {
      if s.tasks != [] {
        UpdateKeepsCacheInv(s, e, delay);
        hide StepPipeline, CacheInv;
      }
    }
  }

  /** Even with forgetting and re-tracking, no queued update ever finds its MAC tracked without a status. */
  lemma {:induction false} TrackedMacHasStatus(s: Pipeline, events: seq<PipelineEvent>, delay: nat)
    requires CacheInv(s)
    ensures CacheInv(RunPipeline(s, events, delay))
    decreases events
  {
    hide StepPipeline, CacheInv;
    if events != [] {
      CacheInvStep(s, events[0], delay);
      TrackedMacHasStatus(StepPipeline(s, events[0], delay), events[1..], delay);
    }
  }

  // ----- A machine only shows statuses of its own type -----

  predicate Own(t: MachineType, status: Status) {
    status.IdleStatus? || (t.Washer? && status.Wash?) || (t.Dryer? && status.Dry?)
  }

  ghost predicate OwnStatuses(s: Pipeline, t: MachineType) {
    && (s.machineType.Some? ==> s.machineType == Some(t))
    && (s.cached.Some? ==> Own(t, s.cached.value))
    && forall k :: 0 <= k < |s.tasks| ==> Own(t, s.tasks[k].status)
  }

  predicate SaysType(e: PipelineEvent, t: MachineType) {
    && (e.TypeFound? && e.found.Some? ==> e.found == Some(t))
    && (e.Track? ==> e.machineType == t && Own(t, e.status))
  }

  lemma EndKeepsOwn(s: Pipeline, t: MachineType)
    ensures OwnStatuses(EndHandler(s), t) <==> OwnStatuses(s, t)
  {
    hide Step;
  }

  lemma SettleKeepsOwn(s: Pipeline, t: MachineType)
    requires s.tasks != [] && OwnStatuses(s, t)
    ensures OwnStatuses(Settle(s), t)
  {
    hide EndHandler;
    EndKeepsOwn(s.(tasks := s.tasks[1..], phase := Queued), t);
  }

  lemma ReadingShowsOwn(s: Pipeline, e: PipelineEvent, t: MachineType, delay: nat)
    requires OwnStatuses(s, t) && SaysType(e, t) && !TouchesCache(e)
    ensures OwnStatuses(StepPipeline(s, e, delay), t)
  {
    hide Step, EndHandler;
    if e.RecordDone? && s.handler.Recording? && s.log != [] {
      EndKeepsOwn(Disturb(s), t);
      EndKeepsOwn(ScheduleIdle(s, delay), t);
    } else if e.TypeFound? {
      EndKeepsOwn(Disturb(s), t);
    }
  }

  lemma UpdateShowsOwn(s: Pipeline, e: PipelineEvent, t: MachineType, delay: nat)
    requires OwnStatuses(s, t) && TouchesCache(e)
    ensures OwnStatuses(StepPipeline(s, e, delay), t)
  {
    hide Settle;
    if s.tasks != [] {
      var status := s.tasks[0].status;
      SettleKeepsOwn(s, t);
      if e.StatusWritten? && s.phase.WritingStatus? {
        SettleKeepsOwn(NoteIdleWrite(s), t);
        SettleKeepsOwn(NoteIdleWrite(s).(cached := Some(status)), t);
      } else if e.SessionChanged? {
        var moved := s.(open := !status.IdleStatus?);
        SettleKeepsOwn(moved, t);
        SettleKeepsOwn(moved.(cached := Some(status)), t);
      }
    }
  }

  /** Whatever is forgotten, tracked again or looked up, a washer shows IDLE or WASH and a dryer IDLE or DRY. */
  lemma {:induction false} ShowsOwnStatus(s: Pipeline, events: seq<PipelineEvent>, t: MachineType, delay: nat)
    requires OwnStatuses(s, t) && forall e :: e in events ==> SaysType(e, t)
    ensures OwnStatuses(RunPipeline(s, events, delay), t)
    decreases events
  {
    hide StepPipeline, OwnStatuses, SaysType;
    if events != [] {
      if TouchesCache(events[0]) {
        UpdateShowsOwn(s, events[0], t, delay);
      } else {
        ReadingShowsOwn(s, events[0], t, delay);
      }
      ShowsOwnStatus(StepPipeline(s, events[0], delay), events[1..], t, delay);
    }
  }

  // ----- An active status needs a high reading -----

  /** A handler past the threshold check is handling a high reading. */
  predicate HighWhileActive(s: Pipeline) {
    s.handler.LookingUpType? || s.handler.Awaiting? ==> s.log != [] && !IsLow(s.log[|s.log| - 1].power)
  }

  lemma EndIsInactive(s: Pipeline)
    ensures HighWhileActive(EndHandler(s))
  {
    hide Step;
  }

  lemma ArrivalKeepsHigh(s: Pipeline, power: int, delay: nat)
    requires HighWhileActive(s) && HandlerInv(s)
    ensures HighWhileActive(StepPipeline(s, Deliver(power), delay))
  {
    if Outstanding(s.delivery) { QueueMoves(s.delivery, Arrive(power)); }
    hide Step, Inv;
  }

  lemma StepKeepsHigh(s: Pipeline, e: PipelineEvent, delay: nat)
    requires HighWhileActive(s) && PipelineInv(s, delay)
    ensures HighWhileActive(StepPipeline(s, e, delay))
  {
    hide StepPipeline, HighWhileActive, TimerInv, TasksInv, WritesInv, HandlerInv;
    if e.Deliver? {
      ArrivalKeepsHigh(s, e.power, delay);
    } else if TouchesCache(e) {
      UpdateKeepsHigh(s, e, delay);
    } else {
      RecordKeepsHigh(s, e, delay);
    }
  }

  lemma RecordKeepsHigh(s: Pipeline, e: PipelineEvent, delay: nat)
    requires HighWhileActive(s) && !e.Deliver? && !TouchesCache(e)
    ensures HighWhileActive(StepPipeline(s, e, delay))
  {
    hide EndHandler, Step;
    if e.RecordDone? && s.handler.Recording? && s.log != [] {
      EndIsInactive(Disturb(s));
      EndIsInactive(ScheduleIdle(s, delay));
    } else if e.TypeFound? {
      EndIsInactive(Disturb(s));
    }
  }

  lemma SettleKeepsHigh(s: Pipeline)
    requires s.tasks != [] && HighWhileActive(s)
    ensures HighWhileActive(Settle(s))
  {
    EndIsInactive(s.(tasks := s.tasks[1..], phase := Queued));
    hide EndHandler;
  }

  lemma UpdateKeepsHigh(s: Pipeline, e: PipelineEvent, delay: nat)
    requires HighWhileActive(s) && TouchesCache(e)
    ensures HighWhileActive(StepPipeline(s, e, delay))
  {
    hide Settle;
    if s.tasks != [] {
      var status := s.tasks[0].status;
      SettleKeepsHigh(s);
      if e.StatusWritten? && s.phase.WritingStatus? {
        SettleKeepsHigh(NoteIdleWrite(s));
        SettleKeepsHigh(NoteIdleWrite(s).(cached := Some(status)));
      } else if e.SessionChanged? {
        var moved := s.(open := !status.IdleStatus?);
        SettleKeepsHigh(moved);
        SettleKeepsHigh(moved.(cached := Some(status)));
      }
    }
  }

  lemma {:induction false} RunKeepsHigh(s: Pipeline, events: seq<PipelineEvent>, delay: nat)
    requires HighWhileActive(s) && PipelineInv(s, delay)
    ensures HighWhileActive(RunPipeline(s, events, delay)) && PipelineInv(RunPipeline(s, events, delay), delay)
    decreases events
  {
    hide StepPipeline, HighWhileActive, PipelineInv;
    if events != [] {
      StepKeepsHigh(s, events[0], delay);
      StepKeepsPipelineInv(s, events[0], delay);
      RunKeepsHigh(StepPipeline(s, events[0], delay), events[1..], delay);
    }
  }

  /**
   In every run an update to an active status is the last one queued, its reading is still being handled,
   and that reading is at least 4 W.
   */
  lemma ActiveFollowsHighReading(t: MachineType, status: Status, open: bool, events: seq<PipelineEvent>, delay: nat, k: nat)
    requires
      var s := RunPipeline(Fresh(t, status, open), events, delay);
      k < |s.tasks| && !s.tasks[k].status.IdleStatus?
    ensures
      var s := RunPipeline(Fresh(t, status, open), events, delay);
      && k == |s.tasks| - 1 && s.handler == Awaiting(s.tasks[k].id)
      && s.log != [] && s.log[|s.log| - 1].power >= 4_000
      && Outstanding(s.delivery) && |s.log| == |s.delivery.started|
      && s.log[|s.log| - 1].power == s.delivery.started[|s.log| - 1]
  {
    FreshInv(t, status, open, delay);
    RunKeepsHigh(Fresh(t, status, open), events, delay);
    hide RunPipeline, TimerInv, WritesInv;
  }

  // ----- A failed update is retried by a later reading -----

  predicate Fails(s: Pipeline, e: PipelineEvent) {
    && s.tasks != []
    && ((e == StatusWritten(false) && s.phase.WritingStatus?) || (e == SessionChanged(Failed) && s.phase.ChangingSession?))
  }

  /** The event brings the running update to its end, so that its status is cached. */
  predicate Succeeds(s: Pipeline, e: PipelineEvent) {
    && s.tasks != []
    && ((e == SessionChanged(Done) && s.phase.ChangingSession?)
        || (e == StatusWritten(true) && s.phase.WritingStatus? && !s.tasks[0].status.IdleStatus?
            && !(s.phase.seen.Some? && s.phase.seen.value.IdleStatus?))
        || (e == StatusWritten(true) && s.phase.WritingStatus? && s.phase.seen.None?))
  }

  predicate NoneSucceeds(s: Pipeline, events: seq<PipelineEvent>, delay: nat)
    decreases events
  {
    events == [] || (!Succeeds(s, events[0]) && NoneSucceeds(StepPipeline(s, events[0], delay), events[1..], delay))
  }

  lemma OnlySuccessCaches(s: Pipeline, e: PipelineEvent, delay: nat)
    requires TracksThroughout(e) && !Succeeds(s, e)
    ensures StepPipeline(s, e, delay).cached == s.cached
  {
    if !TouchesCache(e) {
      OtherStepsKeepCache(s, e, delay);
    } else if s.tasks != [] {
      hide Settle;
      SettleKeepsCache(s);
      if e.StatusWritten? && s.phase.WritingStatus? {
        SettleKeepsCache(NoteIdleWrite(s));
      } else if e.SessionChanged? {
        SettleKeepsCache(s.(open := !s.tasks[0].status.IdleStatus?));
      }
    }
  }

  lemma UpdateSeesCache(s: Pipeline, e: PipelineEvent, delay: nat)
    requires SeesCache(s) && TouchesCache(e) && s.tasks != []
    ensures SeesCache(StepPipeline(s, e, delay))
  {
    hide Settle;
    var status := s.tasks[0].status;
    SettleKeepsCache(s);
    if e.StatusWritten? && s.phase.WritingStatus? {
      SettleKeepsCache(NoteIdleWrite(s));
      SettleKeepsCache(NoteIdleWrite(s).(cached := Some(status)));
    } else if e.SessionChanged? {
      var moved := s.(open := !status.IdleStatus?);
      SettleKeepsCache(moved);
      SettleKeepsCache(moved.(cached := Some(status)));
    }
  }

  lemma StepSeesCache(s: Pipeline, e: PipelineEvent, delay: nat)
    requires SeesCache(s) && TracksThroughout(e) && (s.tasks == [] ==> s.phase.Queued?)
    ensures SeesCache(StepPipeline(s, e, delay))
  {
    if !TouchesCache(e) {
      OtherStepsKeepCache(s, e, delay);
      hide StepPipeline;
    } else if s.tasks != [] {
      UpdateSeesCache(s, e, delay);
      hide StepPipeline, SeesCache;
    }
  }

  /** A tracked MAC of a live listener whose type is known, with only updates of that type queued. */
  predicate Typed(s: Pipeline, t: MachineType) {
    && s.tracked && s.machineType == Some(t) && !s.delivery.sourceClosed && !s.delivery.stopped
    && forall k :: 0 <= k < |s.tasks| ==> s.tasks[k].status.IdleStatus? || s.tasks[k].status == ActiveStatus(t)
  }

  /** The latest power is that of the reading being handled. */
  predicate Current(s: Pipeline) {
    && !s.handler.LookingUpType? && HighWhileActive(s)
    && (!s.handler.Resting? ==> s.log != [] && s.latest == Some(s.log[|s.log| - 1].power))
  }

  lemma EndIsCurrent(s: Pipeline, t: MachineType)
    requires Typed(s, t) && Inv(s.delivery, POWER_UPDATE_QUEUE_LIMIT)
    ensures Typed(EndHandler(s), t) && Current(EndHandler(s))
  {
    QueueStaysOpen(s.delivery, Resolve);
    hide Step, Inv;
  }

  lemma QueueStaysOpen(q: Queue<int>, e: Event<int>)
    requires Inv(q, POWER_UPDATE_QUEUE_LIMIT) && !q.sourceClosed && !q.stopped && (e.Arrive? || e.Resolve?)
    ensures !Step(q, e, POWER_UPDATE_QUEUE_LIMIT).sourceClosed && !Step(q, e, POWER_UPDATE_QUEUE_LIMIT).stopped
  {
  }

  lemma SettleIsCurrent(s: Pipeline, t: MachineType)
    requires s.tasks != [] && Typed(s, t) && Current(s) && Inv(s.delivery, POWER_UPDATE_QUEUE_LIMIT)
    ensures Typed(Settle(s), t) && Current(Settle(s))
  {
    hide EndHandler, Inv;
    EndIsCurrent(s.(tasks := s.tasks[1..], phase := Queued), t);
  }

  lemma UpdateIsCurrent(s: Pipeline, e: PipelineEvent, t: MachineType, delay: nat)
    requires Typed(s, t) && Current(s) && Inv(s.delivery, POWER_UPDATE_QUEUE_LIMIT) && TouchesCache(e)
    ensures Typed(StepPipeline(s, e, delay), t) && Current(StepPipeline(s, e, delay))
  {
    hide Settle, Inv;
    if s.tasks != [] {
      var status := s.tasks[0].status;
      SettleIsCurrent(s, t);
      if e.StatusWritten? && s.phase.WritingStatus? {
        SettleIsCurrent(NoteIdleWrite(s), t);
        SettleIsCurrent(NoteIdleWrite(s).(cached := Some(status)), t);
      } else if e.SessionChanged? {
        var moved := s.(open := !status.IdleStatus?);
        SettleIsCurrent(moved, t);
        SettleIsCurrent(moved.(cached := Some(status)), t);
      }
    }
  }

  lemma AdvanceIsCurrent(s: Pipeline, q: Queue<int>, t: MachineType)
    requires Typed(s, t) && Current(s) && !q.sourceClosed && !q.stopped
    ensures Typed(Advance(s, q), t) && Current(Advance(s, q))
  {
  }

  lemma ArrivalIsCurrent(s: Pipeline, power: int, t: MachineType, delay: nat)
    requires Typed(s, t) && Current(s) && Inv(s.delivery, POWER_UPDATE_QUEUE_LIMIT)
    ensures Typed(StepPipeline(s, Deliver(power), delay), t) && Current(StepPipeline(s, Deliver(power), delay))
  {
    assert !s.delivery.sourceClosed && !s.delivery.stopped;
    QueueStaysOpen(s.delivery, Arrive(power));
    hide Step, Inv, Typed, Current, Advance;
    AdvanceIsCurrent(s, Step(s.delivery, Arrive(power), POWER_UPDATE_QUEUE_LIMIT), t);
  }

  lemma RecordIsCurrent(s: Pipeline, ok: bool, t: MachineType, delay: nat)
    requires Typed(s, t) && Current(s) && Inv(s.delivery, POWER_UPDATE_QUEUE_LIMIT) && s.handler.Recording? && s.log != []
    ensures Typed(AfterRecord(s, ok, delay), t) && Current(AfterRecord(s, ok, delay))
  {
    hide EndHandler, Inv;
    if !ok {
      EndIsCurrent(Disturb(s), t);
    } else if IsLow(s.log[|s.log| - 1].power) {
      EndIsCurrent(ScheduleIdle(s, delay), t);
    }
  }

  lemma ReadingIsCurrent(s: Pipeline, e: PipelineEvent, t: MachineType, delay: nat)
    requires Typed(s, t) && Current(s) && HandlerInv(s) && TracksThroughout(e) && !TouchesCache(e)
    ensures Typed(StepPipeline(s, e, delay), t) && Current(StepPipeline(s, e, delay))
  {
    if e.Deliver? {
      ArrivalIsCurrent(s, e.power, t, delay);
      hide StepPipeline;
    } else if e.RecordDone? && s.handler.Recording? && s.log != [] {
      RecordIsCurrent(s, e.ok, t, delay);
      hide AfterRecord, HandlerInv, Typed, Current;
    } else {
      hide HandlerInv, EndHandler, AfterRecord;
    }
  }

  /** What a run from a fresh start, during which the MAC stays tracked, may be relied upon to keep. */
  lemma {:induction false} RunIsCurrent(s: Pipeline, events: seq<PipelineEvent>, t: MachineType, delay: nat)
    requires PipelineInv(s, delay) && Typed(s, t) && Current(s) && SeesCache(s)
    requires forall e :: e in events ==> TracksThroughout(e)
    ensures
      var s' := RunPipeline(s, events, delay);
      PipelineInv(s', delay) && Typed(s', t) && Current(s') && SeesCache(s')
    decreases events
  {
    if events != [] {
      hide StepPipeline, Typed, Current, SeesCache, TimerInv, WritesInv, HandlerInv;
      StepKeepsPipelineInv(s, events[0], delay);
      StepSeesCache(s, events[0], delay);
      hide TasksInv;
      OneStepIsCurrent(s, events[0], t, delay);
      RunIsCurrent(StepPipeline(s, events[0], delay), events[1..], t, delay);
    }
  }

  lemma OneStepIsCurrent(s: Pipeline, e: PipelineEvent, t: MachineType, delay: nat)
    requires HandlerInv(s) && Typed(s, t) && Current(s) && TracksThroughout(e)
    ensures Typed(StepPipeline(s, e, delay), t) && Current(StepPipeline(s, e, delay))
  {
    hide StepPipeline, Typed, Current;
    if TouchesCache(e) { UpdateIsCurrent(s, e, t, delay); } else { ReadingIsCurrent(s, e, t, delay); }
  }

  lemma {:induction false} CacheStays(s: Pipeline, events: seq<PipelineEvent>, delay: nat)
    requires NoneSucceeds(s, events, delay) && forall e :: e in events ==> TracksThroughout(e)
    ensures RunPipeline(s, events, delay).cached == s.cached
    decreases events
  {
    if events != [] {
      hide StepPipeline, Succeeds;
      OnlySuccessCaches(s, events[0], delay);
      CacheStays(StepPipeline(s, events[0], delay), events[1..], delay);
    }
  }

  function Guards(n: nat): seq<PipelineEvent> { if n == 0 then [] else [GuardRuns] + Guards(n - 1) }

  /** With high power the IDLE updates ahead of an active one are passed over, one guard after another. */
  lemma {:induction false} StaleUpdatesPass(s: Pipeline, delay: nat)
    requires s.tasks != [] && s.phase.Queued? && s.tracked && s.latest.Some? && !IsLow(s.latest.value)
    requires
      var last := s.tasks[|s.tasks| - 1];
      && !last.status.IdleStatus? && s.cached != Some(last.status) && s.handler == Awaiting(last.id)
      && forall k :: 0 <= k < |s.tasks| - 1 ==> s.tasks[k].status.IdleStatus? && s.tasks[k].id != last.id
    ensures RunPipeline(s, Guards(|s.tasks|), delay).phase == WritingStatus(s.cached, s.clock, |s.log|)
    decreases |s.tasks|
  {
    hide EndHandler;
    var next := StepPipeline(s, GuardRuns, delay);
    assert Guards(|s.tasks|)[1..] == Guards(|s.tasks| - 1);
    if |s.tasks| > 1 {
      assert next == s.(tasks := s.tasks[1..]);
      hide StepPipeline;
      StaleUpdatesPass(next, delay);
    } else {
      assert RunPipeline(next, [], delay) == next;
    }
  }

  /** A high reading that a resting handler takes up and records ends in its own queued update. */
  lemma HighReadingQueues(s: Pipeline, power: int, t: MachineType, delay: nat)
    requires PipelineInv(s, delay) && Typed(s, t) && s.handler.Resting? && !IsLow(power)
    ensures
      var s' := RunPipeline(s, [Deliver(power), RecordDone(true)], delay);
      && s'.tasks == s.tasks + [Task(s.nextId, ActiveStatus(t), 0)] && s'.handler == Awaiting(s.nextId)
      && s'.latest == Some(power) && s'.tracked && s'.cached == s.cached && s'.phase == s.phase
      && s'.clock == s.clock && |s'.log| == |s.log| + 1
  {
    var begun := StepPipeline(s, Deliver(power), delay);
    assert begun.delivery.started == s.delivery.started + [power];
    assert begun == BeginHandler(s.(delivery := begun.delivery), power);
    hide Step, HandlerInv, TimerInv, WritesInv;
    RunTwo(s, Deliver(power), RecordDone(true), delay);
    hide RunPipeline;
  }

  lemma FailureLeavesCache(s: Pipeline, e: PipelineEvent, delay: nat)
    requires SeesCache(s) && Fails(s, e)
    ensures s.cached.Some? && s.cached != Some(s.tasks[0].status)
    ensures StepPipeline(s, e, delay).cached == s.cached && StepPipeline(s, e, delay).open == s.open
  {
    hide Settle;
    SettleKeepsCache(s);
  }

  /**
   A failed update leaves cache and session as they were, and the cache stays so over every run in which no
   later update comes to its end; so whenever another update to the same status runs its guard, it reaches
   the write again, exactly if the latest power still asks for it.  For an active status it always does.
   */
  lemma FailedUpdateIsRetried(t: MachineType, status: Status, open: bool, before: seq<PipelineEvent>, e: PipelineEvent,
                              after: seq<PipelineEvent>, delay: nat)
    requires forall x :: x in before + after ==> TracksThroughout(x)
    requires
      var s := RunPipeline(Fresh(t, status, open), before, delay);
      Fails(s, e) && NoneSucceeds(StepPipeline(s, e, delay), after, delay)
    ensures
      var s := RunPipeline(Fresh(t, status, open), before, delay);
      var s' := StepPipeline(s, e, delay);
      var later := RunPipeline(s', after, delay);
      && s'.open == s.open && later.cached == s.cached
      && (later.tasks != [] && later.phase.Queued? && later.tasks[0].status == s.tasks[0].status ==>
            var written := StepPipeline(later, GuardRuns, delay).phase == WritingStatus(s.cached, later.clock, |later.log|);
            written <==> (s.tasks[0].status.IdleStatus? ==> ShouldUpdate(later.latest, IdleStatus)))
  {
    var s := RunPipeline(Fresh(t, status, open), before, delay);
    RetryBase(t, status, open, before, e, after, delay);
    var later := RunPipeline(StepPipeline(s, e, delay), after, delay);
    hide RunPipeline;
    if later.tasks != [] && later.phase.Queued? && later.tasks[0].status == s.tasks[0].status {
      GuardDecides(later, t, delay);
    }
  }

  lemma GuardDecides(s: Pipeline, t: MachineType, delay: nat)
    requires s.tasks != [] && s.phase.Queued? && s.cached != Some(s.tasks[0].status)
    requires PipelineInv(s, delay) && Typed(s, t) && Current(s)
    ensures
      StepPipeline(s, GuardRuns, delay).phase == WritingStatus(s.cached, s.clock, |s.log|)
      <==> (s.tasks[0].status.IdleStatus? ==> ShouldUpdate(s.latest, IdleStatus))
  {
    hide HandlerInv, TimerInv, WritesInv, EndHandler;
    SettleKeepsCache(s);
    hide Settle;
  }

  lemma RetryBase(t: MachineType, status: Status, open: bool, before: seq<PipelineEvent>, e: PipelineEvent,
                  after: seq<PipelineEvent>, delay: nat)
    requires forall x :: x in before + after ==> TracksThroughout(x)
    requires
      var s := RunPipeline(Fresh(t, status, open), before, delay);
      Fails(s, e) && NoneSucceeds(StepPipeline(s, e, delay), after, delay)
    ensures
      var s := RunPipeline(Fresh(t, status, open), before, delay);
      var later := RunPipeline(StepPipeline(s, e, delay), after, delay);
      && PipelineInv(later, delay) && Typed(later, t) && Current(later)
      && s.tasks != [] && later.cached == s.cached && s.cached != Some(s.tasks[0].status)
      && (s.tasks[0].status.IdleStatus? || s.tasks[0].status == ActiveStatus(t))
      && StepPipeline(s, e, delay).open == s.open
  {
    assert forall x :: x in before ==> x in before + after;
    assert forall x :: x in after ==> x in before + after;
    FreshInv(t, status, open, delay);
    RunIsCurrent(Fresh(t, status, open), before, t, delay);
    hide RunPipeline, StepPipeline, PipelineInv, SeesCache, Current, Typed, NoneSucceeds, Fails;
    RetryFrom(RunPipeline(Fresh(t, status, open), before, delay), e, after, t, delay);
  }

  lemma RetryFrom(s: Pipeline, e: PipelineEvent, after: seq<PipelineEvent>, t: MachineType, delay: nat)
    requires PipelineInv(s, delay) && Typed(s, t) && Current(s) && SeesCache(s)
    requires Fails(s, e) && NoneSucceeds(StepPipeline(s, e, delay), after, delay)
    requires forall x :: x in after ==> TracksThroughout(x)
    ensures
      var later := RunPipeline(StepPipeline(s, e, delay), after, delay);
      && PipelineInv(later, delay) && Typed(later, t) && Current(later)
      && s.tasks != [] && later.cached == s.cached && s.cached != Some(s.tasks[0].status)
      && (s.tasks[0].status.IdleStatus? || s.tasks[0].status == ActiveStatus(t))
      && StepPipeline(s, e, delay).open == s.open
  {
    hide RunPipeline, StepPipeline, PipelineInv, SeesCache, Current;
    assert s.tasks[0].status.IdleStatus? || s.tasks[0].status == ActiveStatus(t);
    hide Typed;
    FailureLeavesCache(s, e, delay);
    StepKeepsPipelineInv(s, e, delay);
    SingleStep(s, e, t, delay);
    RunIsCurrent(StepPipeline(s, e, delay), after, t, delay);
    CacheStays(StepPipeline(s, e, delay), after, delay);
  }

  lemma SingleStep(s: Pipeline, e: PipelineEvent, t: MachineType, delay: nat)
    requires PipelineInv(s, delay) && Typed(s, t) && Current(s) && SeesCache(s) && TracksThroughout(e)
    ensures Typed(StepPipeline(s, e, delay), t) && Current(StepPipeline(s, e, delay)) && SeesCache(StepPipeline(s, e, delay))
  {
    hide StepPipeline, Typed, Current, SeesCache, TimerInv, WritesInv, HandlerInv;
    StepSeesCache(s, e, delay);
    OneStepIsCurrent(s, e, t, delay);
  }

  /**
   After a failed active update and any run without success, the next high reading that a resting handler
   takes up and records brings the same update back to its write once the guards before it have run.
   */
  lemma HighReadingRetries(t: MachineType, status: Status, open: bool, before: seq<PipelineEvent>, e: PipelineEvent,
                           after: seq<PipelineEvent>, power: int, delay: nat)
    requires forall x :: x in before + after ==> TracksThroughout(x)
    requires
      var s := RunPipeline(Fresh(t, status, open), before, delay);
      Fails(s, e) && !s.tasks[0].status.IdleStatus? && NoneSucceeds(StepPipeline(s, e, delay), after, delay)
    requires
      var later := RunPipeline(StepPipeline(RunPipeline(Fresh(t, status, open), before, delay), e, delay), after, delay);
      later.handler.Resting? && later.phase.Queued? && power >= 4_000
    ensures
      var s := RunPipeline(Fresh(t, status, open), before, delay);
      var later := RunPipeline(StepPipeline(s, e, delay), after, delay);
      RunPipeline(later, [Deliver(power), RecordDone(true)] + Guards(|later.tasks| + 1), delay).phase
      == WritingStatus(s.cached, later.clock, |later.log| + 1)
  {
    var s := RunPipeline(Fresh(t, status, open), before, delay);
    RetryBase(t, status, open, before, e, after, delay);
    var later := RunPipeline(StepPipeline(s, e, delay), after, delay);
    HighReadingQueues(later, power, t, delay);
    RunAppend(later, [Deliver(power), RecordDone(true)], Guards(|later.tasks| + 1), delay);
    hide RunPipeline, StepPipeline, HandlerInv, TimerInv, WritesInv;
    StaleUpdatesPass(RunPipeline(later, [Deliver(power), RecordDone(true)], delay), delay);
  }

  // ----- ... and a failed IDLE update by a later low one -----

  predicate TimerSoon(s: Pipeline, delay: nat) { s.timer.Some? ==> s.timer.value.deadline <= s.clock + delay }

  lemma EndKeepsTimer(s: Pipeline)
    ensures EndHandler(s).timer == s.timer && EndHandler(s).clock == s.clock
  {
    hide Step;
  }

  lemma SettleKeepsTimer(s: Pipeline)
    requires s.tasks != []
    ensures Settle(s).timer == s.timer && Settle(s).clock == s.clock
  {
    EndKeepsTimer(s.(tasks := s.tasks[1..], phase := Queued));
    hide EndHandler;
  }

  lemma UpdateKeepsTimer(s: Pipeline, e: PipelineEvent, delay: nat)
    requires TouchesCache(e)
    ensures StepPipeline(s, e, delay).timer == s.timer && StepPipeline(s, e, delay).clock == s.clock
  {
    hide Settle;
    if s.tasks != [] {
      var status := s.tasks[0].status;
      SettleKeepsTimer(s);
      if e.StatusWritten? && s.phase.WritingStatus? {
        SettleKeepsTimer(NoteIdleWrite(s));
        SettleKeepsTimer(NoteIdleWrite(s).(cached := Some(status)));
      } else if e.SessionChanged? {
        var moved := s.(open := !status.IdleStatus?);
        SettleKeepsTimer(moved);
        SettleKeepsTimer(moved.(cached := Some(status)));
      }
    }
  }

  lemma StepTimerSoon(s: Pipeline, e: PipelineEvent, delay: nat)
    requires TimerSoon(s, delay)
    ensures TimerSoon(StepPipeline(s, e, delay), delay)
  {
    if TouchesCache(e) {
      UpdateKeepsTimer(s, e, delay);
      hide StepPipeline;
    } else {
      OtherStepsTimerSoon(s, e, delay);
      hide StepPipeline;
    }
  }

  lemma OtherStepsTimerSoon(s: Pipeline, e: PipelineEvent, delay: nat)
    requires TimerSoon(s, delay) && !TouchesCache(e)
    ensures TimerSoon(StepPipeline(s, e, delay), delay)
  {
    hide EndHandler, Step;
    EndKeepsTimer(Disturb(s));
    if e.RecordDone? && s.log != [] { EndKeepsTimer(ScheduleIdle(s, delay)); }
  }

  lemma {:induction false} RunTimerSoon(s: Pipeline, events: seq<PipelineEvent>, delay: nat)
    requires TimerSoon(s, delay)
    ensures TimerSoon(RunPipeline(s, events, delay), delay)
    decreases events
  {
    hide StepPipeline;
    if events != [] {
      StepTimerSoon(s, events[0], delay);
      RunTimerSoon(StepPipeline(s, events[0], delay), events[1..], delay);
    }
  }

  /** No high reading is being handled or waits, the latest power is low, and only IDLE updates are queued. */
  ghost predicate OnlyLow(s: Pipeline) {
    && (forall i :: 0 <= i < |s.delivery.queue| ==> IsLow(s.delivery.queue[i]))
    && s.latest.Some? && IsLow(s.latest.value) && (s.handler.Resting? || s.handler.Recording?)
    && s.log != [] && IsLow(s.log[|s.log| - 1].power)
    && forall k :: 0 <= k < |s.tasks| ==> s.tasks[k].status.IdleStatus?
  }

  predicate BringsNoHigh(e: PipelineEvent) { TracksThroughout(e) && e != TimerFires && (e.Deliver? ==> e.power < 4_000) }

  /** What the queue does keeps every waiting value among those that waited or arrived, and starts one of them. */
  lemma QueueOnlyLow(q: Queue<int>, e: Event<int>)
    requires (e.Arrive? && IsLow(e.value)) || e.Resolve?
    requires forall i :: 0 <= i < |q.queue| ==> IsLow(q.queue[i])
    ensures
      var q' := Step(q, e, POWER_UPDATE_QUEUE_LIMIT);
      && (forall i :: 0 <= i < |q'.queue| ==> IsLow(q'.queue[i]))
      && (|q'.started| > |q.started| ==> IsLow(q'.started[|q'.started| - 1]))
  {
  }

  lemma EndOnlyLow(s: Pipeline)
    requires OnlyLow(s)
    ensures OnlyLow(EndHandler(s)) && EndHandler(s).timer == s.timer
  {
    QueueOnlyLow(s.delivery, Resolve);
    hide Step;
  }

  lemma SettleOnlyLow(s: Pipeline)
    requires OnlyLow(s) && s.tasks != []
    ensures OnlyLow(Settle(s)) && Settle(s).timer == s.timer
  {
    hide EndHandler;
    assert OnlyLow(s.(tasks := s.tasks[1..], phase := Queued));
  }

  lemma ReadingOnlyLow(s: Pipeline, e: PipelineEvent, delay: nat)
    requires OnlyLow(s) && BringsNoHigh(e) && !TouchesCache(e)
    ensures OnlyLow(StepPipeline(s, e, delay))
    ensures s.timer.Some? ==> StepPipeline(s, e, delay).timer == s.timer
  {
    if e.Deliver? {
      QueueOnlyLow(s.delivery, Arrive(e.power));
      hide Step;
    } else if e.RecordDone? {
      hide EndHandler;
      EndOnlyLow(Disturb(s));
      EndOnlyLow(ScheduleIdle(s, delay));
    }
  }

  lemma UpdateOnlyLow(s: Pipeline, e: PipelineEvent, delay: nat)
    requires OnlyLow(s) && TouchesCache(e)
    ensures OnlyLow(StepPipeline(s, e, delay)) && StepPipeline(s, e, delay).timer == s.timer
  {
    hide Settle;
    if s.tasks != [] {
      var status := s.tasks[0].status;
      SettleOnlyLow(s);
      if e.StatusWritten? && s.phase.WritingStatus? {
        SettleOnlyLow(NoteIdleWrite(s));
        SettleOnlyLow(NoteIdleWrite(s).(cached := Some(status)));
      } else if e.SessionChanged? {
        var moved := s.(open := !status.IdleStatus?);
        SettleOnlyLow(moved);
        SettleOnlyLow(moved.(cached := Some(status)));
      }
    }
  }

  /** While no high reading comes and the timer has not fired, it stays as it is. */
  lemma {:induction false} WaitOnlyLow(s: Pipeline, wait: seq<PipelineEvent>, delay: nat)
    requires OnlyLow(s) && s.timer.Some? && forall x :: x in wait ==> BringsNoHigh(x)
    ensures OnlyLow(RunPipeline(s, wait, delay)) && RunPipeline(s, wait, delay).timer == s.timer
    decreases wait
  {
    hide StepPipeline, OnlyLow;
    if wait != [] {
      if TouchesCache(wait[0]) { UpdateOnlyLow(s, wait[0], delay); } else { ReadingOnlyLow(s, wait[0], delay); }
      WaitOnlyLow(StepPipeline(s, wait[0], delay), wait[1..], delay);
    }
  }

  lemma RestingTakesUp(s: Pipeline, power: int, t: MachineType, delay: nat)
    requires PipelineInv(s, delay) && Typed(s, t) && s.handler.Resting?
    ensures
      var begun := StepPipeline(s, Deliver(power), delay);
      begun == BeginHandler(s.(delivery := begun.delivery), power) && begun.delivery.queue == []
    ensures s.tracked && forall k :: 0 <= k < |s.tasks| ==> s.tasks[k].status.IdleStatus?
  {
    hide TimerInv, WritesInv;
    assert Step(s.delivery, Arrive(power), POWER_UPDATE_QUEUE_LIMIT).started == s.delivery.started + [power];
  }

  /** A low reading that a resting handler takes up and records arms the timer, unless it is pending. */
  lemma LowReadingArms(s: Pipeline, power: int, t: MachineType, delay: nat)
    requires PipelineInv(s, delay) && Typed(s, t) && s.handler.Resting? && IsLow(power)
    ensures
      var x := RunPipeline(s, [Deliver(power), RecordDone(true)], delay);
      && OnlyLow(x) && x.cached == s.cached && x.tracked && x.clock == s.clock
      && x.timer == if s.timer.Some? then s.timer else Some(Timer(s.clock + delay, |s.log|))
  {
    var begun := StepPipeline(s, Deliver(power), delay);
    RestingTakesUp(s, power, t, delay);
    RunTwo(s, Deliver(power), RecordDone(true), delay);
    hide RunPipeline, PipelineInv, Typed, Step;
    var scheduled := ScheduleIdle(begun, delay);
    LowRecorded(begun, delay);
    assert OnlyLow(scheduled);
    hide StepPipeline, ScheduleIdle;
    EndOnlyLow(scheduled);
    EndKeepsCache(scheduled);
    EndKeepsTimer(scheduled);
    hide EndHandler, OnlyLow;
  }

  lemma LowRecorded(s: Pipeline, delay: nat)
    requires s.handler.Recording? && s.tracked && s.log != [] && IsLow(s.log[|s.log| - 1].power)
    ensures StepPipeline(s, RecordDone(true), delay) == EndHandler(ScheduleIdle(s, delay))
  {
    hide EndHandler;
  }

  /**
   After a failed IDLE update and any run without success, the next low reading that a resting handler takes
   up and records leaves a timer pending.  If nothing but low readings come until the delay has passed, that
   timer fires, and IDLE is back at its write: the next guard to run reaches it, if it is not there already.
   */
  lemma LowReadingRetries(t: MachineType, status: Status, open: bool, before: seq<PipelineEvent>, e: PipelineEvent,
                          after: seq<PipelineEvent>, power: int, wait: seq<PipelineEvent>, delay: nat)
    requires forall x :: x in before + after ==> TracksThroughout(x)
    requires
      var s := RunPipeline(Fresh(t, status, open), before, delay);
      Fails(s, e) && s.tasks[0].status.IdleStatus? && NoneSucceeds(StepPipeline(s, e, delay), after, delay)
    requires
      var later := RunPipeline(StepPipeline(RunPipeline(Fresh(t, status, open), before, delay), e, delay), after, delay);
      var armed := RunPipeline(later, [Deliver(power), RecordDone(true)], delay);
      && later.handler.Resting? && power < 4_000
      && (forall x :: x in wait ==> BringsNoHigh(x)) && NoneSucceeds(armed, wait, delay)
      && RunPipeline(armed, wait, delay).clock >= armed.clock + delay
    ensures
      var s := RunPipeline(Fresh(t, status, open), before, delay);
      var later := RunPipeline(StepPipeline(s, e, delay), after, delay);
      var armed := RunPipeline(later, [Deliver(power), RecordDone(true)], delay);
      var waited := RunPipeline(armed, wait, delay);
      var fired := StepPipeline(waited, TimerFires, delay);
      && armed.timer.Some? && |fired.tasks| == |waited.tasks| + 1 && fired.tasks[0].status.IdleStatus?
      && (fired.phase.Queued? ==>
            StepPipeline(fired, GuardRuns, delay).phase == WritingStatus(s.cached, fired.clock, |fired.log|))
  {
    var s := RunPipeline(Fresh(t, status, open), before, delay);
    var later := RunPipeline(StepPipeline(s, e, delay), after, delay);
    var armed := RunPipeline(later, [Deliver(power), RecordDone(true)], delay);
    RetryBase(t, status, open, before, e, after, delay);
    RunTimerSoon(Fresh(t, status, open), before, delay);
    StepTimerSoon(s, e, delay);
    RunTimerSoon(StepPipeline(s, e, delay), after, delay);
    LowReadingArms(later, power, t, delay);
    hide RunPipeline, StepPipeline, PipelineInv, Typed, Current, OnlyLow;
    TimerComesDue(armed, wait, s.tasks[0].status, delay);
  }

  lemma TimerComesDue(armed: Pipeline, wait: seq<PipelineEvent>, status: Status, delay: nat)
    requires OnlyLow(armed) && armed.timer.Some? && TimerSoon(armed, delay) && armed.tracked
    requires (forall x :: x in wait ==> BringsNoHigh(x)) && NoneSucceeds(armed, wait, delay)
    requires armed.cached != Some(IdleStatus) && RunPipeline(armed, wait, delay).clock >= armed.clock + delay
    ensures
      var waited := RunPipeline(armed, wait, delay);
      var fired := StepPipeline(waited, TimerFires, delay);
      && |fired.tasks| == |waited.tasks| + 1 && fired.tasks[0].status.IdleStatus?
      && (fired.phase.Queued? ==>
            StepPipeline(fired, GuardRuns, delay).phase == WritingStatus(armed.cached, fired.clock, |fired.log|))
  {
    WaitOnlyLow(armed, wait, delay);
    CacheStays(armed, wait, delay);
    StaysTracked(armed, wait, delay);
    hide RunPipeline, Settle;
  }

  lemma {:induction false} StaysTracked(s: Pipeline, events: seq<PipelineEvent>, delay: nat)
    requires s.tracked && forall e :: e in events ==> TracksThroughout(e)
    ensures RunPipeline(s, events, delay).tracked
    decreases events
  {
    if events != [] {
      OneStepTracked(s, events[0], delay);
      hide StepPipeline;
      StaysTracked(StepPipeline(s, events[0], delay), events[1..], delay);
    }
  }

  lemma OneStepTracked(s: Pipeline, e: PipelineEvent, delay: nat)
    requires s.tracked && TracksThroughout(e)
    ensures StepPipeline(s, e, delay).tracked
  {
    if !TouchesCache(e) {
      OtherStepsKeepCache(s, e, delay);
    } else if s.tasks != [] {
      hide Settle;
      SettleKeepsCache(s);
      if e.StatusWritten? && s.phase.WritingStatus? {
        SettleKeepsCache(NoteIdleWrite(s));
        SettleKeepsCache(NoteIdleWrite(s).(cached := Some(s.tasks[0].status)));
      } else if e.SessionChanged? {
        var moved := s.(open := !s.tasks[0].status.IdleStatus?);
        SettleKeepsCache(moved);
        SettleKeepsCache(moved.(cached := Some(s.tasks[0].status)));
      }
    }
  }
}
