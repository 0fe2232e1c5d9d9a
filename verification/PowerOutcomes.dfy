/**
 What whole readings, timers and updates of one MAC do when nothing runs in between, in terms of power,
 status and session (src/machine/machine.service.ts:112-250).  `PowerPipeline` says what holds when other
 events come in between.
 */
module PowerOutcomes {
  import opened Options
  import opened BoundedQueue
  import opened PowerPipeline

  /** A tracked MAC of a live listener that has nothing to do. */
  ghost predicate AtRest(s: Pipeline, t: MachineType, delay: nat) {
    && PipelineInv(s, delay) && s.tracked && s.machineType == Some(t) && s.cached.Some?
    && s.handler == Resting && s.tasks == [] && s.phase == Queued
    && !s.delivery.sourceClosed && !s.delivery.stopped
  }

  /** A washer washes and a dryer dries. */
  function Active(t: MachineType): Status { if t == Washer then Wash else Dry }

  lemma RestingQueue(q: Queue<int>, power: int)
    requires Inv(q, 16) && q.rejected == 0 && !Outstanding(q) && !q.sourceClosed && !q.stopped
    ensures
      var q1 := Step(q, Arrive(power), 16);
      var q2 := Step(q1, Resolve, 16);
      && q1.started == q.started + [power] && q1.queue == []
      && q2.started == q1.started && q2.queue == [] && !Outstanding(q2) && !q2.sourceClosed && !q2.stopped
  {
  }

  /** A reading that is taken up is logged with its time and power, and is the latest power at once. */
  lemma TakenUp(s: Pipeline, t: MachineType, power: int, delay: nat)
    requires AtRest(s, t, delay)
    ensures
      var s' := StepPipeline(s, Deliver(power), delay);
      && s' == s.(delivery := s'.delivery, handler := Recording, latest := Some(power), log := s.log + [Reading(s.clock, power, false)])
      && s'.delivery == Step(s.delivery, Arrive(power), 16)
  {
    RestingQueue(s.delivery, power);
    hide Step;
  }

  lemma HandlerEnds(s: Pipeline, before: Pipeline, t: MachineType, power: int, delay: nat)
    requires AtRest(before, t, delay) && s.delivery == Step(before.delivery, Arrive(power), 16)
    ensures EndHandler(s) == s.(delivery := Step(s.delivery, Resolve, 16), handler := Resting)
  {
    RestingQueue(before.delivery, power);
    hide Step;
  }

  /** A whole low reading arms the idle timer for the delay, unless one is pending; nothing else happens. */
  lemma WholeLowReading(s: Pipeline, t: MachineType, power: int, delay: nat)
    requires AtRest(s, t, delay) && power < 4_000
    ensures
      var s' := RunPipeline(s, [Deliver(power), RecordDone(true)], delay);
      && s'.timer == (if s.timer.Some? then s.timer else Some(Timer(s.clock + delay, |s.log|)))
      && s' == s.(delivery := s'.delivery, timer := s'.timer, latest := Some(power), log := s.log + [Reading(s.clock, power, false)])
  {
    TakenUp(s, t, power, delay);
    RunTwo(s, Deliver(power), RecordDone(true), delay);
    var s1 := StepPipeline(s, Deliver(power), delay);
    HandlerEnds(ScheduleIdle(s1, delay), s, t, power, delay);
    hide RunPipeline, Step, EndHandler, AtRest;
  }

  /** A whole reading whose recording fails, or of an untracked MAC, is logged as such and does nothing. */
  lemma WholeMissedReading(s: Pipeline, t: MachineType, power: int, ok: bool, delay: nat)
    requires AtRest(s, t, delay)
    ensures
      var taken := StepPipeline(s, Deliver(power), delay);
      var s' := StepPipeline(taken, RecordDone(false), delay);
      s' == s.(delivery := s'.delivery, latest := Some(power), log := s.log + [Reading(s.clock, power, true)])
    ensures
      var taken := StepPipeline(s, Deliver(power), delay);
      var s' := StepPipeline(taken.(tracked := false), RecordDone(ok), delay);
      s' == s.(delivery := s'.delivery, tracked := false, latest := Some(power), log := s.log + [Reading(s.clock, power, true)])
  {
    TakenUp(s, t, power, delay);
    var s1 := StepPipeline(s, Deliver(power), delay);
    hide StepPipeline, AtRest, Step;
    MissedEnds(s1, s, t, power, false, delay);
    MissedEnds(s1.(tracked := false), s, t, power, ok, delay);
  }

  /** With the service's own delay, a first low reading arms the timer for one minute later. */
  lemma LowForAMinute(s: Pipeline, t: MachineType, power: int)
    requires AtRest(s, t, MACHINE_ON_DURATION_MS) && power < 4_000 && s.timer == None
    ensures
      var s' := RunPipeline(s, [Deliver(power), RecordDone(true)], MACHINE_ON_DURATION_MS);
      s'.timer == Some(Timer(s.clock + 60_000, |s.log|))
  {
    WholeLowReading(s, t, power, MACHINE_ON_DURATION_MS);
    hide RunPipeline, AtRest;
  }

  lemma MissedEnds(s: Pipeline, before: Pipeline, t: MachineType, power: int, ok: bool, delay: nat)
    requires AtRest(before, t, delay) && s.delivery == Step(before.delivery, Arrive(power), 16)
    requires s.handler == Recording && s.log == before.log + [Reading(before.clock, power, false)] && (ok ==> !s.tracked)
    ensures
      var s' := StepPipeline(s, RecordDone(ok), delay);
      s' == s.(delivery := s'.delivery, handler := Resting, log := before.log + [Reading(before.clock, power, true)])
  {
    assert s.log[|before.log| := Reading(before.clock, power, true)] == before.log + [Reading(before.clock, power, true)];
    assert StepPipeline(s, RecordDone(ok), delay) == EndHandler(Disturb(s));
    hide StepPipeline, Step, EndHandler, AtRest;
    HandlerEnds(Disturb(s), before, t, power, delay);
  }

  /** A whole high reading clears the timer and queues the machine's active status, which its handler awaits. */
  lemma WholeHighReading(s: Pipeline, t: MachineType, power: int, delay: nat)
    requires AtRest(s, t, delay) && power >= 4_000
    ensures
      var s' := RunPipeline(s, [Deliver(power), RecordDone(true)], delay);
      && s'.delivery == Step(s.delivery, Arrive(power), 16)
      && s' == s.(delivery := s'.delivery, timer := None, latest := Some(power), log := s.log + [Reading(s.clock, power, false)],
                  tasks := [Task(s.nextId, Active(t), 0)], nextId := s.nextId + 1, handler := Awaiting(s.nextId))
  {
    TakenUp(s, t, power, delay);
    RunTwo(s, Deliver(power), RecordDone(true), delay);
    hide RunPipeline, Step, EndHandler, AtRest;
  }

  /** Without a known type the database is asked first; without an answer the reading does nothing. */
  lemma WholeUntypedReading(s: Pipeline, t: MachineType, power: int, found: Option<MachineType>, delay: nat)
    requires AtRest(s, t, delay) && power >= 4_000
    ensures
      var asked := StepPipeline(StepPipeline(s, Deliver(power), delay).(machineType := None), RecordDone(true), delay);
      var s' := StepPipeline(asked, TypeFound(found), delay);
      && asked.handler == LookingUpType && asked.timer == None && asked.tasks == []
      && (found.Some? ==> s'.machineType == found && s'.tasks == [Task(s.nextId, Active(found.value), 0)]
                          && s'.handler == Awaiting(s.nextId) && s'.timer == None && s'.cached == s.cached && s'.open == s.open)
      && (found.None? ==> s'.tasks == [] && s'.handler == Resting && s'.timer == None && s'.machineType == None
                          && s'.cached == s.cached && s'.open == s.open)
  {
    TakenUp(s, t, power, delay);
    var s1 := StepPipeline(s, Deliver(power), delay).(machineType := None);
    UntypedAsks(s1, delay);
    var s2 := s1.(timer := None, handler := LookingUpType);
    HandlerEnds(Disturb(s2), s, t, power, delay);
    AnswerTaken(s2, found, delay);
    assert s.tasks == [];
    hide StepPipeline, Step, EndHandler, AtRest;
  }

  lemma UntypedAsks(s: Pipeline, delay: nat)
    requires s.handler == Recording && s.tracked && s.machineType == None && s.log != [] && s.log[|s.log| - 1].power >= 4_000
    ensures StepPipeline(s, RecordDone(true), delay) == s.(timer := None, handler := LookingUpType)
  {
    hide EndHandler;
  }

  lemma AnswerTaken(s: Pipeline, found: Option<MachineType>, delay: nat)
    requires s.handler == LookingUpType
    ensures
      StepPipeline(s, TypeFound(found), delay) ==
      if found.Some?
      then s.(machineType := found, tasks := s.tasks + [Task(s.nextId, Active(found.value), 0)], nextId := s.nextId + 1, handler := Awaiting(s.nextId))
      else EndHandler(Disturb(s))
  {
    hide EndHandler;
  }

  // ----- Updates -----

  /** The head's guard passes when the MAC is tracked and the latest power, 0 W if there is none, asks for the status. */
  predicate Asked(s: Pipeline, status: Status) {
    var power := if s.latest.Some? then s.latest.value else 0;
    s.tracked && (status == IdleStatus <==> power < 4_000)
  }

  /** The update ends, its chain moves on, and a handler that awaited it ends with it. */
  lemma UpdateEnds(s: Pipeline)
    requires s.tasks != []
    ensures
      var next := s.(tasks := s.tasks[1..], phase := Queued);
      Settle(s) == if s.handler == Awaiting(s.tasks[0].id) then EndHandler(next) else next
  {
    hide EndHandler;
  }

  /** An update whose status is not asked for, or is shown already, ends; any other goes on to write the row. */
  lemma GuardOutcome(s: Pipeline, delay: nat)
    requires s.tasks != [] && s.phase == Queued
    ensures
      var status := s.tasks[0].status;
      StepPipeline(s, GuardRuns, delay) ==
      if Asked(s, status) && s.cached != Some(status) then s.(phase := WritingStatus(s.cached, s.clock, |s.log|)) else Settle(s)
  {
    hide Settle;
  }

  /**
   A whole update of a tracked MAC after its guard: going idle closes the session, leaving idle opens it,
   and then the cache shows the status.
   */
  lemma WholeUpdate(s: Pipeline, previous: Status, delay: nat)
    requires s.tasks != [] && s.tracked && s.phase.WritingStatus? && s.phase.seen == Some(previous)
    requires previous == IdleStatus || s.tasks[0].status == IdleStatus
    ensures
      var status := s.tasks[0].status;
      var written := StepPipeline(s, StatusWritten(true), delay);
      var s' := StepPipeline(written, SessionChanged(Done), delay);
      && written.phase == ChangingSession(previous) && written.tasks == s.tasks && written.cached == s.cached && written.open == s.open
      && s'.open == (status != IdleStatus) && s'.cached == Some(status) && s'.phase == Queued && s'.tasks == s.tasks[1..]
      && s'.idleWrites == (if status == IdleStatus
                           then s.idleWrites + [IdleWrite(s.phase.guardAt, s.tasks[0].since, s.phase.handled)] else s.idleWrites)
  {
    var status := s.tasks[0].status;
    var written := StepPipeline(s, StatusWritten(true), delay);
    hide Settle;
    SettleKeepsRest(written.(open := status != IdleStatus, cached := Some(status)));
  }

  lemma SettleKeepsRest(s: Pipeline)
    requires s.tasks != []
    ensures
      var s' := Settle(s);
      && s'.open == s.open && s'.cached == s.cached && s'.phase == Queued && s'.tasks == s.tasks[1..]
      && s'.idleWrites == s.idleWrites && s'.tracked == s.tracked
  {
    EndKeepsRest(s.(tasks := s.tasks[1..], phase := Queued));
    hide EndHandler;
  }

  lemma EndKeepsRest(s: Pipeline)
    ensures
      var s' := EndHandler(s);
      && s'.open == s.open && s'.cached == s.cached && s'.phase == s.phase && s'.tasks == s.tasks
      && s'.idleWrites == s.idleWrites && s'.tracked == s.tracked && s'.timer == s.timer
  {
    hide Step;
  }

  /** From one active status to another no session changes; the cache follows the row. */
  lemma ActiveToActive(s: Pipeline, previous: Status, delay: nat)
    requires s.tasks != [] && s.tracked && s.phase.WritingStatus? && s.phase.seen == Some(previous)
    requires previous != IdleStatus && s.tasks[0].status != IdleStatus
    ensures
      var s' := StepPipeline(s, StatusWritten(true), delay);
      s'.open == s.open && s'.cached == Some(s.tasks[0].status) && s'.phase == Queued && s'.tasks == s.tasks[1..]
  {
    hide Settle;
    SettleKeepsRest(s.(cached := Some(s.tasks[0].status)));
  }

  /** A tracked MAC without a cached status only has it cached. */
  lemma FirstStatus(s: Pipeline, delay: nat)
    requires s.tasks != [] && s.tracked && s.phase.WritingStatus? && s.phase.seen == None
    ensures
      var s' := StepPipeline(s, StatusWritten(true), delay);
      s'.open == s.open && s'.cached == Some(s.tasks[0].status) && s'.phase == Queued && s'.tasks == s.tasks[1..]
  {
    hide Settle;
    SettleKeepsRest(NoteIdleWrite(s).(cached := Some(s.tasks[0].status)));
  }

  /**
   A failed write or session change ends the update and shows nothing; a MAC forgotten since the guard is
   not cached; a session change that committed and then failed has moved the session all the same.
   */
  lemma FailedUpdate(s: Pipeline, delay: nat)
    requires s.tasks != []
    ensures s.phase.WritingStatus? ==>
              var s' := StepPipeline(s, StatusWritten(false), delay);
              s'.open == s.open && s'.cached == s.cached && s'.phase == Queued && s'.tasks == s.tasks[1..] && s'.idleWrites == s.idleWrites
    ensures s.phase.WritingStatus? && !s.tracked ==>
              var s' := StepPipeline(s, StatusWritten(true), delay);
              s'.open == s.open && s'.cached == s.cached && s'.phase == Queued && s'.tasks == s.tasks[1..]
    ensures s.phase.ChangingSession? ==>
              var s' := StepPipeline(s, SessionChanged(Failed), delay);
              s'.open == s.open && s'.cached == s.cached && s'.phase == Queued && s'.tasks == s.tasks[1..]
    ensures s.phase.ChangingSession? ==>
              var s' := StepPipeline(s, SessionChanged(CommittedThenFailed), delay);
              && s'.open == (s.tasks[0].status != IdleStatus) && s'.cached == s.cached && s'.phase == Queued && s'.tasks == s.tasks[1..]
    ensures s.phase.ChangingSession? && !s.tracked ==>
              StepPipeline(s, SessionChanged(Done), delay).cached == s.cached
  {
    hide Settle;
    SettleKeepsRest(s);
    if s.phase.WritingStatus? { SettleKeepsRest(NoteIdleWrite(s)); }
    SettleKeepsRest(s.(open := s.tasks[0].status != IdleStatus));
  }

  // ----- Timer, tracking, clock -----

  /** A due timer goes and queues IDLE; one that is not due does nothing. */
  lemma TimerOutcome(s: Pipeline, delay: nat)
    ensures
      StepPipeline(s, TimerFires, delay) ==
      if s.timer.Some? && s.timer.value.deadline <= s.clock
      then s.(timer := None, tasks := s.tasks + [Task(s.nextId, IdleStatus, s.timer.value.armedBy)], nextId := s.nextId + 1)
      else s
  {
  }

  /** Forgetting drops timer, power, type and status, but neither queue nor session; tracking sets type and status. */
  lemma TrackingOutcome(s: Pipeline, t: MachineType, status: Status, ms: nat, delay: nat)
    ensures
      var s' := StepPipeline(s, Forget, delay);
      && !s'.tracked && s'.timer == None && s'.latest == None && s'.machineType == None && s'.cached == None
      && s'.tasks == s.tasks && s'.phase == s.phase && s'.open == s.open && s'.delivery == s.delivery && s'.handler == s.handler
      && s'.clock == s.clock && |s'.log| == |s.log| && s'.idleWrites == s.idleWrites && s'.nextId == s.nextId
    ensures StepPipeline(s, Track(t, status), delay) == s.(tracked := true, machineType := Some(t), cached := Some(status))
    ensures StepPipeline(s, Tick(ms), delay) == s.(clock := s.clock + ms)
  {
  }

  // ----- A whole cycle -----

  /** A service that has just started over an idle washer or dryer, seen through one cycle. */
  lemma StartedFresh(t: MachineType, status: Status, open: bool, delay: nat)
    ensures
      var s := Fresh(t, status, open);
      AtRest(s, t, delay) && s.clock == 0 && s.latest == None && s.timer == None && s.cached == Some(status) && s.open == open
      && s.log == [] && s.idleWrites == []
  {
  }

  /** From rest and idle, a high reading ends with the machine shown active, a session open, and rest again. */
  lemma MachineStarts(s: Pipeline, t: MachineType, power: int, delay: nat)
    requires AtRest(s, t, delay) && s.cached == Some(IdleStatus) && power >= 4_000
    ensures
      var s' := RunPipeline(s, [Deliver(power), RecordDone(true)] + [GuardRuns, StatusWritten(true), SessionChanged(Done)], delay);
      s'.open && s'.cached == Some(Active(t)) && s'.tasks == [] && s'.handler == Resting && s'.timer == None && s'.latest == Some(power)
  {
    RunAppend(s, [Deliver(power), RecordDone(true)], [GuardRuns, StatusWritten(true), SessionChanged(Done)], delay);
    WholeHighReading(s, t, power, delay);
    var s1 := RunPipeline(s, [Deliver(power), RecordDone(true)], delay);
    GuardOutcome(s1, delay);
    var s2 := StepPipeline(s1, GuardRuns, delay);
    var s3 := StepPipeline(s2, StatusWritten(true), delay);
    WholeUpdate(s2, IdleStatus, delay);
    RunThree(s1, GuardRuns, StatusWritten(true), SessionChanged(Done), delay);
    AwaitedEnds(s, t, power, s2, delay);
    hide RunPipeline, Step, AtRest;
  }

  lemma AwaitedEnds(before: Pipeline, t: MachineType, power: int, s: Pipeline, delay: nat)
    requires AtRest(before, t, delay) && s.delivery == Step(before.delivery, Arrive(power), 16)
    requires s.tasks != [] && s.handler == Awaiting(s.tasks[0].id) && s.phase.WritingStatus? && s.phase.seen == Some(IdleStatus) && s.tracked
    ensures
      var s' := StepPipeline(StepPipeline(s, StatusWritten(true), delay), SessionChanged(Done), delay);
      s'.handler == Resting && s'.timer == s.timer && s'.latest == s.latest
  {
    var s1 := StepPipeline(s, StatusWritten(true), delay);
    assert s1.delivery == s.delivery && s1.tasks == s.tasks && s1.handler == s.handler && s1.phase.ChangingSession?
           && s1.timer == s.timer && s1.latest == s.latest;
    var status := s.tasks[0].status;
    var ended := s1.(open := status != IdleStatus, cached := Some(status), tasks := s1.tasks[1..], phase := Queued);
    HandlerEnds(ended, before, t, power, delay);
    hide EndHandler, Step, AtRest;
  }

  lemma RunThree(s: Pipeline, a: PipelineEvent, b: PipelineEvent, c: PipelineEvent, delay: nat)
    ensures RunPipeline(s, [a, b, c], delay) == StepPipeline(StepPipeline(StepPipeline(s, a, delay), b, delay), c, delay)
  {
    hide StepPipeline;
    RunAppend(s, [a, b], [c], delay);
    assert [a, b] + [c] == [a, b, c];
    RunTwo(s, a, b, delay);
    var s2 := RunPipeline(s, [a, b], delay);
    assert RunPipeline(s2, [c], delay) == RunPipeline(StepPipeline(s2, c, delay), [], delay);
  }
}
