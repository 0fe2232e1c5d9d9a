/**
 The power side of the machine service with its maps as fields
 (src/machine/machine.service.ts:51-62, 112-250).  Each method is one stretch of code between awaits,
 for one MAC address.  It takes exactly the step that `PowerPipeline` takes for that MAC and leaves every
 other MAC as it was, so the results there hold for each MAC of a running service.
 */
module MachinePowerService {
  import opened Options
  import opened BoundedQueue
  import opened PowerPipeline

  type Mac = string

  function Lookup<V>(m: map<Mac, V>, mac: Mac): Option<V> {
    if mac in m then Some(m[mac]) else None
  }

  function LookupOr<V>(m: map<Mac, V>, mac: Mac, default: V): V {
    if mac in m then m[mac] else default
  }

  /** A MAC of which nothing has been heard yet. */
  function Untracked(clock: nat): Pipeline {
    Pipeline(clock, Init(), Resting, None, None, [], Queued, 0, false, None, None, false, [], [])
  }

  lemma UntrackedInv(clock: nat, delay: nat)
    ensures PipelineInv(Untracked(clock), delay)
  {
  }

  class MachinePower {
    const delay: nat
    var clock: nat
    // The service's maps; a chain of promises is the sequence of its unsettled updates.
    var types: map<Mac, MachineType>
    var uuids: map<Mac, string>
    var statuses: map<Mac, Status>
    var timers: map<Mac, Timer>
    var latestPower: map<Mac, int>
    var statusUpdateQueues: map<Mac, seq<Task>>
    // The suspended continuations, the listener's queues and the sessions in the database.
    var deliveries: map<Mac, Queue<int>>
    var handlers: map<Mac, Handler>
    var phases: map<Mac, Phase>
    var nextIds: map<Mac, nat>
    var open: map<Mac, bool>
    var logs: map<Mac, seq<Reading>>
    ghost var idleWrites: map<Mac, seq<IdleWrite>>

    ghost function View(mac: Mac): Pipeline
      reads this
    {
      Pipeline(clock, LookupOr(deliveries, mac, Init()), LookupOr(handlers, mac, Resting), Lookup(latestPower, mac),
               Lookup(timers, mac), LookupOr(statusUpdateQueues, mac, []), LookupOr(phases, mac, Queued),
               LookupOr(nextIds, mac, 0), mac in uuids, Lookup(types, mac), Lookup(statuses, mac),
               LookupOr(open, mac, false), LookupOr(logs, mac, []), LookupOr(idleWrites, mac, []))
    }

    /** Every MAC's queue, timer, chain and writes are as `PipelineInv` says. */
    ghost predicate Valid()
      reads this
    {
      forall mac :: PipelineInv(View(mac), delay)
    }

    constructor (delay: nat)
      ensures Valid() && this.delay == delay && forall mac :: View(mac) == Untracked(0)
    {
      this.delay, clock := delay, 0;
      types, uuids, statuses, timers, latestPower, statusUpdateQueues := map[], map[], map[], map[], map[], map[];
      deliveries, handlers, phases, nextIds, open, logs := map[], map[], map[], map[], map[], map[];
      idleWrites := map[];
      new;
      assert forall mac :: View(mac) == Untracked(0);
      UntrackedInv(0, delay);
      hide PipelineInv;
    }

    /** Time passes for every MAC. */
    method Elapse(ms: nat)
      requires Valid()
      modifies this`clock
      ensures Valid() && forall mac :: View(mac) == StepPipeline(old(View(mac)), Tick(ms), delay)
    {
      forall mac ensures PipelineInv(StepPipeline(View(mac), Tick(ms), delay), delay) {
        StepKeepsPipelineInv(View(mac), Tick(ms), delay);
      }
      AdvanceClock(ms);
      hide PipelineInv, StepPipeline, View;
    }

    method AdvanceClock(ms: nat)
      modifies this`clock
      ensures forall mac :: View(mac) == StepPipeline(old(View(mac)), Tick(ms), delay)
    {
      clock := clock + ms;
      assert forall mac :: View(mac) == old(View(mac)).(clock := clock);
    }

    method SetType(mac: Mac, machineType: MachineType)
      modifies this`types
      ensures View(mac) == old(View(mac)).(machineType := Some(machineType)) && OthersKept(mac)
    {
      types := types[mac := machineType];
    }

    method SetUuid(mac: Mac, uuid: string)
      modifies this`uuids
      ensures View(mac) == old(View(mac)).(tracked := true) && OthersKept(mac)
    {
      uuids := uuids[mac := uuid];
    }

    /** A machine is commissioned with the MAC, or its row read at the start. */
    method TrackMacAddress(mac: Mac, uuid: string, machineType: MachineType, status: Status)
      modifies this`types, this`uuids, this`statuses
      ensures View(mac) == StepPipeline(old(View(mac)), Track(machineType, status), delay) && OthersKept(mac)
    {
      hide View;
      SetType(mac, machineType);
      SetUuid(mac, uuid);
      CacheStatus(mac, status);
    }

    twostate predicate OthersKept(mac: Mac)
      reads this
    {
      forall m :: m != mac ==> View(m) == old(View(m))
    }

    /** `handlePowerUpdate` up to its first await. */
    method BeginHandling(mac: Mac, power: int)
      modifies this`latestPower, this`logs, this`handlers
      ensures View(mac) == BeginHandler(old(View(mac)), power) && OthersKept(mac)
    {
      latestPower := latestPower[mac := power];
      logs := logs[mac := LookupOr(logs, mac, []) + [Reading(clock, power, false)]];
      handlers := handlers[mac := Recording];
    }

    /** The listener hands a new reading to this MAC's queue. */
    method Arrives(mac: Mac, power: int)
      modifies this
      ensures View(mac) == StepPipeline(old(View(mac)), Deliver(power), delay) && OthersKept(mac)
    {
      MoveQueue(mac, Arrive(power));
    }

    method MoveQueue(mac: Mac, e: Event<int>)
      modifies this`deliveries, this`latestPower, this`logs, this`handlers
      ensures View(mac) == Advance(old(View(mac)), Step(old(View(mac)).delivery, e, PowerPipeline.POWER_UPDATE_QUEUE_LIMIT))
      ensures OthersKept(mac)
    {
      hide Step;
      var before := LookupOr(deliveries, mac, Init());
      var after := Step(before, e, PowerPipeline.POWER_UPDATE_QUEUE_LIMIT);
      deliveries := deliveries[mac := after];
      if |after.started| > |before.started| {
        BeginHandling(mac, after.started[|after.started| - 1]);
      }
    }

    /** The handler returns, so the queue projects the next waiting reading. */
    method FinishHandling(mac: Mac)
      modifies this`deliveries, this`latestPower, this`logs, this`handlers
      ensures View(mac) == EndHandler(old(View(mac))) && OthersKept(mac)
    {
      hide Step;
      handlers := handlers[mac := Resting];
      MoveQueue(mac, Resolve);
    }

    method NoteDisturbance(mac: Mac)
      modifies this`logs
      ensures View(mac) == Disturb(old(View(mac))) && OthersKept(mac)
    {
      var log := LookupOr(logs, mac, []);
      if LookupOr(handlers, mac, Resting).Resting? || |log| == 0 { return; }
      logs := logs[mac := log[|log| - 1 := log[|log| - 1].(disturbed := true)]];
    }

    method ScheduleIdleAfterLowPower(mac: Mac)
      requires LookupOr(logs, mac, []) != []
      modifies this`timers
      ensures View(mac) == ScheduleIdle(old(View(mac)), delay) && OthersKept(mac)
    {
      if mac in timers { return; }
      timers := timers[mac := Timer(clock + delay, |logs[mac]| - 1)];
    }

    method ClearPowerBelowThresholdTimer(mac: Mac)
      modifies this`timers
      ensures View(mac) == old(View(mac)).(timer := None) && OthersKept(mac)
    {
      timers := timers - {mac};
    }

    method EnqueueMachineStatusUpdate(mac: Mac, status: Status, since: nat)
      modifies this`statusUpdateQueues, this`nextIds
      ensures View(mac) == Enqueue(old(View(mac)), status, since) && OthersKept(mac)
    {
      var id := LookupOr(nextIds, mac, 0);
      statusUpdateQueues := statusUpdateQueues[mac := LookupOr(statusUpdateQueues, mac, []) + [Task(id, status, since)]];
      nextIds := nextIds[mac := id + 1];
    }

    method RequestActiveStatus(mac: Mac, machineType: MachineType)
      modifies this
      ensures View(mac) == EnqueueActive(old(View(mac)), machineType) && OthersKept(mac)
    {
      types := types[mac := machineType];
      handlers := handlers[mac := Awaiting(LookupOr(nextIds, mac, 0))];
      EnqueueMachineStatusUpdate(mac, ActiveStatus(machineType), 0);
    }

    /** `handlePowerUpdate` after `recordMachinePowerByMacAddress` has returned or thrown. */
    method AfterRecording(mac: Mac, ok: bool)
      requires LookupOr(handlers, mac, Resting).Recording? && LookupOr(logs, mac, []) != []
      modifies this
      ensures View(mac) == StepPipeline(old(View(mac)), RecordDone(ok), delay) && OthersKept(mac)
    {
      hide EndHandler, Disturb;
      var tracked, power := mac in uuids, logs[mac][|logs[mac]| - 1].power;
      assert View(mac).tracked == tracked && View(mac).log != [] && View(mac).log[|View(mac).log| - 1].power == power;
      assert View(mac).handler.Recording? && LookupOr(logs, mac, []) == View(mac).log;
      hide View;
      if !ok || !tracked {
        NoteDisturbance(mac);
        FinishHandling(mac);
      } else if power < MACHINE_ON_POWER_THRESHOLD {
        ScheduleIdleAfterLowPower(mac);
        FinishHandling(mac);
      } else {
        TakeUpHighReading(mac);
      }
    }

    /** A high reading clears the timer and asks for the machine's active status, once its type is known. */
    method TakeUpHighReading(mac: Mac)
      modifies this
      ensures OthersKept(mac)
      ensures
        var cleared := old(View(mac)).(timer := None);
        View(mac) == if cleared.machineType.Some? then EnqueueActive(cleared, cleared.machineType.value)
                     else cleared.(handler := LookingUpType)
    {
      ClearPowerBelowThresholdTimer(mac);
      if mac in types {
        RequestActiveStatus(mac, types[mac]);
      } else {
        SetHandler(mac, LookingUpType);
      }
    }

    /** The database answered which type the machine has, if any. */
    method AfterTypeLookup(mac: Mac, found: Option<MachineType>)
      requires LookupOr(handlers, mac, Resting).LookingUpType?
      modifies this
      ensures View(mac) == StepPipeline(old(View(mac)), TypeFound(found), delay) && OthersKept(mac)
    {
      hide EndHandler, Disturb;
      if found.None? {
        NoteDisturbance(mac);
        FinishHandling(mac);
      } else {
        RequestActiveStatus(mac, found.value);
      }
    }

    method TimerCallback(mac: Mac)
      requires mac in timers && timers[mac].deadline <= clock
      modifies this
      ensures View(mac) == StepPipeline(old(View(mac)), TimerFires, delay) && OthersKept(mac)
    {
      var since := timers[mac].armedBy;
      timers := timers - {mac};
      EnqueueMachineStatusUpdate(mac, IdleStatus, since);
    }

    method SetPhase(mac: Mac, phase: Phase)
      modifies this`phases
      ensures View(mac) == old(View(mac)).(phase := phase) && OthersKept(mac)
    {
      phases := phases[mac := phase];
    }

    method CacheStatus(mac: Mac, status: Status)
      modifies this`statuses
      ensures View(mac) == old(View(mac)).(cached := Some(status)) && OthersKept(mac)
    {
      statuses := statuses[mac := status];
    }

    method SetHandler(mac: Mac, handler: Handler)
      modifies this`handlers
      ensures View(mac) == old(View(mac)).(handler := handler) && OthersKept(mac)
    {
      handlers := handlers[mac := handler];
    }

    method DropHead(mac: Mac)
      requires LookupOr(statusUpdateQueues, mac, []) != []
      modifies this`statusUpdateQueues
      ensures View(mac) == old(View(mac)).(tasks := old(View(mac)).tasks[1..]) && OthersKept(mac)
    {
      var tasks := statusUpdateQueues[mac];
      if |tasks| == 1 {
        statusUpdateQueues := statusUpdateQueues - {mac};
      } else {
        statusUpdateQueues := statusUpdateQueues[mac := tasks[1..]];
      }
    }

    method SetSession(mac: Mac, isOpen: bool)
      modifies this`open
      ensures View(mac) == old(View(mac)).(open := isOpen) && OthersKept(mac)
    {
      open := open[mac := isOpen];
    }

    ghost method RecordIdleWrite(mac: Mac)
      requires LookupOr(statusUpdateQueues, mac, []) != [] && LookupOr(phases, mac, Queued).WritingStatus?
      modifies this`idleWrites
      ensures View(mac) == NoteIdleWrite(old(View(mac))) && OthersKept(mac)
    {
      var task, phase := statusUpdateQueues[mac][0], phases[mac];
      if task.status.IdleStatus? {
        idleWrites := idleWrites[mac := LookupOr(idleWrites, mac, []) + [IdleWrite(phase.guardAt, task.since, phase.handled)]];
      }
    }

    method SettleUpdate(mac: Mac)
      requires LookupOr(statusUpdateQueues, mac, []) != []
      modifies this
      ensures View(mac) == Settle(old(View(mac))) && OthersKept(mac)
    {
      hide EndHandler;
      var awaited := LookupOr(handlers, mac, Resting) == Awaiting(statusUpdateQueues[mac][0].id);
      assert awaited == (View(mac).handler == Awaiting(View(mac).tasks[0].id));
      DropHead(mac);
      SetPhase(mac, Queued);
      if awaited {
        FinishHandling(mac);
      }
    }

    /** The head update starts: its guard is evaluated now, not when it was queued. */
    method BeginUpdate(mac: Mac)
      requires LookupOr(statusUpdateQueues, mac, []) != [] && LookupOr(phases, mac, Queued).Queued?
      modifies this
      ensures View(mac) == StepPipeline(old(View(mac)), GuardRuns, delay) && OthersKept(mac)
    {
      hide Settle;
      var status := statusUpdateQueues[mac][0].status;
      var power := LookupOr(latestPower, mac, 0);
      var wanted := if status.IdleStatus? then power < MACHINE_ON_POWER_THRESHOLD else power >= MACHINE_ON_POWER_THRESHOLD;
      if mac !in uuids || !wanted {
        SettleUpdate(mac);
      } else if Lookup(statuses, mac) == Some(status) {
        SettleUpdate(mac);
      } else {
        phases := phases[mac := WritingStatus(Lookup(statuses, mac), clock, |LookupOr(logs, mac, [])|)];
      }
    }

    /** The update after `updateMachineStatusByMacAddress` has returned or thrown. */
    method AfterStatusWritten(mac: Mac, ok: bool)
      requires LookupOr(statusUpdateQueues, mac, []) != [] && LookupOr(phases, mac, Queued).WritingStatus?
      modifies this
      ensures View(mac) == StepPipeline(old(View(mac)), StatusWritten(ok), delay) && OthersKept(mac)
    {
      hide Settle;
      if !ok {
        SettleUpdate(mac);
      } else {
        var task, phase, tracked := statusUpdateQueues[mac][0], phases[mac], mac in uuids;
        assert View(mac).tasks[0] == task && View(mac).phase == phase && View(mac).tracked == tracked;
        RecordIdleWrite(mac);
        if !tracked {
          SettleUpdate(mac);
        } else if phase.seen.None? {
          CacheStatus(mac, task.status);
          SettleUpdate(mac);
        } else if task.status.IdleStatus? || phase.seen.value.IdleStatus? {
          SetPhase(mac, ChangingSession(phase.seen.value));
        } else {
          CacheStatus(mac, task.status);
          SettleUpdate(mac);
        }
      }
    }

    /** The update after its session operation, which may have committed before failing. */
    method AfterSessionChanged(mac: Mac, outcome: SessionOutcome)
      requires LookupOr(statusUpdateQueues, mac, []) != [] && LookupOr(phases, mac, Queued).ChangingSession?
      modifies this
      ensures View(mac) == StepPipeline(old(View(mac)), SessionChanged(outcome), delay) && OthersKept(mac)
    {
      hide Settle;
      var status, tracked := statusUpdateQueues[mac][0].status, mac in uuids;
      assert View(mac).tasks[0].status == status && View(mac).tracked == tracked;
      if !outcome.Failed? { SetSession(mac, !status.IdleStatus?); }
      if outcome.Done? && tracked { CacheStatus(mac, status); }
      SettleUpdate(mac);
    }

    method DropTracking(mac: Mac)
      modifies this`types, this`uuids, this`statuses, this`latestPower
      ensures View(mac) == old(View(mac)).(latest := None, tracked := false, machineType := None, cached := None)
      ensures OthersKept(mac)
    {
      DropUuid(mac);
      DropType(mac);
      hide View;
      DropStatus(mac);
      DropPower(mac);
    }

    method DropUuid(mac: Mac)
      modifies this`uuids
      ensures View(mac) == old(View(mac)).(tracked := false) && OthersKept(mac)
    {
      uuids := uuids - {mac};
    }

    method DropType(mac: Mac)
      modifies this`types
      ensures View(mac) == old(View(mac)).(machineType := None) && OthersKept(mac)
    {
      types := types - {mac};
    }

    method DropStatus(mac: Mac)
      modifies this`statuses
      ensures View(mac) == old(View(mac)).(cached := None) && OthersKept(mac)
    {
      statuses := statuses - {mac};
    }

    method DropPower(mac: Mac)
      modifies this`latestPower
      ensures View(mac) == old(View(mac)).(latest := None) && OthersKept(mac)
    {
      latestPower := latestPower - {mac};
    }

    method ForgetMacAddress(mac: Mac)
      modifies this
      ensures View(mac) == StepPipeline(old(View(mac)), Forget, delay) && OthersKept(mac)
    {
      hide Disturb, View;
      NoteDisturbance(mac);
      ClearPowerBelowThresholdTimer(mac);
      DropTracking(mac);
    }

    // ----- The event loop -----

    /** Whether a suspended call of this MAC waits for the event. */
    predicate Awaited(mac: Mac, e: PipelineEvent)
      reads this
    {
      match e
      case Deliver(_) => true
      case RecordDone(_) => LookupOr(handlers, mac, Resting).Recording? && LookupOr(logs, mac, []) != []
      case TypeFound(_) => LookupOr(handlers, mac, Resting).LookingUpType?
      case TimerFires => mac in timers && timers[mac].deadline <= clock
      case GuardRuns => LookupOr(statusUpdateQueues, mac, []) != [] && LookupOr(phases, mac, Queued).Queued?
      case StatusWritten(_) => LookupOr(statusUpdateQueues, mac, []) != [] && LookupOr(phases, mac, Queued).WritingStatus?
      case SessionChanged(_) => LookupOr(statusUpdateQueues, mac, []) != [] && LookupOr(phases, mac, Queued).ChangingSession?
      case Forget => true
      case Track(_, _) => true
      case Tick(_) => false
    }

    /** The event loop resumes what waits for the event; every MAC's invariant survives it. */
    method Resume(mac: Mac, uuid: string, e: PipelineEvent)
      requires Valid() && Awaited(mac, e)
      modifies this
      ensures Valid() && View(mac) == StepPipeline(old(View(mac)), e, delay) && OthersKept(mac)
    {
      StepKeepsPipelineInv(View(mac), e, delay);
      Dispatch(mac, uuid, e);
      hide PipelineInv, View, StepPipeline, Awaited;
    }

    method Dispatch(mac: Mac, uuid: string, e: PipelineEvent)
      requires Awaited(mac, e)
      modifies this
      ensures View(mac) == StepPipeline(old(View(mac)), e, delay) && OthersKept(mac)
    {
      hide View, StepPipeline;
      match e {
        case Deliver(power) => Arrives(mac, power);
        case RecordDone(ok) => AfterRecording(mac, ok);
        case TypeFound(found) => AfterTypeLookup(mac, found);
        case TimerFires => TimerCallback(mac);
        case GuardRuns => BeginUpdate(mac);
        case StatusWritten(ok) => AfterStatusWritten(mac, ok);
        case SessionChanged(outcome) => AfterSessionChanged(mac, outcome);
        case Forget => ForgetMacAddress(mac);
        case Track(machineType, status) => TrackMacAddress(mac, uuid, machineType, status);
      }
    }
  }
}
