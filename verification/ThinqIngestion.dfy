/**
 The stateful sides of ThinQ ingestion: a mapped dryer's row and session
 (src/machine/machine.service.ts:433-521) and the MQTT service's maps and reconnect timer
 (src/thinq/thinq-mqtt.service.ts:31-47, 68-85, 88-145, 263-274).
 */
module ThinqIngestion {
  import opened Options
  import opened ThinqMerge
  import L = ThinqLifecycle
  import opened P = ThinqPushes
  import B = ThinqBackoff

  /** One dryer's row, its open session and the counters of what was done to it. */
  class ThinqDryer {
    var thinqDeviceId: Option<Device>
    var status: L.Status
    var thinqCurrentState: Option<string>
    var thinqRemainingMinutes: Option<int>
    var session: L.Session
    var created: nat
    var finished: nat
    var alerts: nat
    ghost var events: seq<L.DryerEvent>   // what has been applied since the dryer was mapped

    /** Row, session and counters are what the list of applied states amounts to. */
    ghost predicate Valid()
      reads this
    {
      View() == L.ApplyAll(L.MAPPED, events)
    }

    ghost function View(): L.Dryer
      reads this
    {
      L.Dryer(status, thinqCurrentState, thinqRemainingMinutes, session, created, finished, alerts)
    }

    constructor (deviceId: Device)
      ensures Valid() && thinqDeviceId == Some(deviceId) && View() == L.MAPPED && events == []
    {
      thinqDeviceId := Some(deviceId);
      status, thinqCurrentState, thinqRemainingMinutes, session := L.Idle, None, None, L.Closed;
      created, finished, alerts, events := 0, 0, 0, [];
    }

    /** A state of another device writes nothing and so has no effect at all. */
    method UpdateThinqDryerState(deviceId: Device, state: DryerState)
      requires Valid()
      modifies this
      ensures Valid() && thinqDeviceId == old(thinqDeviceId)
      ensures events == if thinqDeviceId == Some(deviceId) then old(events) + [L.Reported(state)] else old(events)
    {
      L.ApplyPush(L.MAPPED, events, L.Reported(state));
      hide L.ApplyAll;
      hide L.StatusOf, L.CurrentState, L.RemainingMinutes;
      var currentState := L.CurrentState(state);
      var next := L.StatusOf(currentState);
      var previousState := thinqCurrentState;
      if thinqDeviceId != Some(deviceId) { return; }
      events := events + [L.Reported(state)];
      thinqCurrentState, thinqRemainingMinutes := currentState, L.RemainingMinutes(state);
      if next.Some? { status := next.value; }
      if currentState == Some("ERROR") && previousState != Some("ERROR") { NotifyThinqDryerError(); }
      if next == Some(L.Dry) {
        if session.Closed? { session, created := L.Open(None), created + 1; }
      } else if next == Some(L.Idle) {
        if session.Open? { session, finished := L.Closed, finished + 1; }
      }
    }

    /** The conditional updates that users make to the session. */
    method RegisterUser(user: L.Id)
      requires Valid()
      modifies this`session, this`events
      ensures Valid() && events == old(events) + [L.Register(user)]
    {
      L.ApplyPush(L.MAPPED, events, L.Register(user));
      hide L.ApplyAll;
      events := events + [L.Register(user)];
      if session.Open? && (session.user.None? || session.user == Some(user)) { session := L.Open(Some(user)); }
    }

    method UnlinkUser(user: L.Id)
      requires Valid()
      modifies this`session, this`events
      ensures Valid() && events == old(events) + [L.Unlink(user)]
    {
      L.ApplyPush(L.MAPPED, events, L.Unlink(user));
      hide L.ApplyAll;
      events := events + [L.Unlink(user)];
      if session == L.Open(Some(user)) { session := L.Open(None); }
    }

    /** The session is open, and DRY shown, exactly when the last significant state was an occupied one. */
    method IsOccupied() returns (occupied: bool)
      requires Valid()
      ensures occupied == L.Occupied(events) == status.Dry?
    {
      L.SessionFollowsStates(events);
      hide L.ApplyAll, L.Occupied;
      occupied := session.Open?;
    }

    method NotifyThinqDryerError()
      modifies this`alerts
      ensures View() == L.NotifyError(old(View()))
    {
      if session.Open? && session.user.Some? { alerts := alerts + 1; }
    }
  }

  /** A decoded MQTT payload; neither field need be there. */
  datatype Payload = Useless | Message(deviceId: Option<Device>, report: Incoming)

  /** The pushes that a payload stands for: one for a usable report of a named device, or none. */
  predicate Usable(payload: Payload) {
    payload.Message? && payload.deviceId.Some? && payload.deviceId.value != "" && payload.report.Report?
  }

  class ThinqMqttService {
    var stateByDeviceId: map<Device, DryerState>
    var pushByDeviceId: map<Device, P.Id>
    var pushes: map<P.Id, Push>          // the suspended `handlePushPayload` calls
    var nextPush: P.Id
    ghost var snapshots: map<Device, DryerState>
    ghost var since: map<Device, seq<DryerState>>
    ghost var merged: map<Device, seq<P.Id>>
    // Reconnecting.
    var stopped: bool
    var reconnectAttempt: nat
    var reconnectTimer: Option<int>
    var pendingTimers: nat
    ghost var delays: seq<int>
    ghost var connectionEvents: seq<B.ReconnectEvent>

    /** Chains, entries and cached states are as `PushInv` says; the timer is what the events amount to. */
    ghost predicate Valid()
      reads this
    {
      PushInv(View()) && Reconnecting() == B.Reconnects(connectionEvents)
    }

    ghost function View(): Pushes
      reads this
    {
      Pushes(stateByDeviceId, pushByDeviceId, pushes, nextPush, snapshots, since, merged)
    }

    ghost function Reconnecting(): B.Reconnect
      reads this
    {
      B.Reconnect(reconnectAttempt, reconnectTimer, pendingTimers, stopped, delays)
    }

    constructor ()
      ensures Valid() && View() == NO_PUSHES && connectionEvents == []
    {
      stateByDeviceId, pushByDeviceId, pushes, nextPush := map[], map[], map[], 0;
      snapshots, since, merged := map[], map[], map[];
      stopped, reconnectAttempt, reconnectTimer, pendingTimers, delays := false, 0, None, 0, [];
      connectionEvents := [];
    }

    method RememberDeviceState(deviceId: Device, state: DryerState)
      requires Valid()
      modifies this`stateByDeviceId, this`snapshots, this`since
      ensures Valid() && View() == StepPushes(old(View()), Snapshot(deviceId, state))
    {
      StepKeepsPushInv(View(), Snapshot(deviceId, state));
      StoreSnapshot(deviceId, state);
      hide PushInv, StepPushes, B.Reconnects;
    }

    method StoreSnapshot(deviceId: Device, state: DryerState)
      modifies this`stateByDeviceId, this`snapshots, this`since
      ensures View() == StepPushes(old(View()), Snapshot(deviceId, state))
    {
      stateByDeviceId := stateByDeviceId[deviceId := state];
      snapshots := snapshots[deviceId := state];
      since := since[deviceId := []];
    }

    /** Appends to the device's chain; malformed parts of the report will merge as absent. */
    method HandlePushPayload(payload: Payload)
      requires Valid()
      modifies this`pushes, this`pushByDeviceId, this`nextPush
      ensures Valid()
      ensures View() == if Usable(payload)
                        then StepPushes(old(View()), Arrive(payload.deviceId.value, Content(payload.report)))
                        else old(View())
      ensures payload == Useless || payload.deviceId == None || payload.deviceId == Some("") || payload.report == Unusable ==>
                View() == old(View())
      ensures payload.Message? && payload.deviceId.Some? && payload.deviceId != Some("") && payload.report != Unusable ==>
                nextPush == old(nextPush) + 1 && pushes.Keys == old(pushes.Keys) + {old(nextPush)}
                && pushes[old(nextPush)].device == payload.deviceId.value
    {
      if payload.Useless? { return; }
      if payload.deviceId.None? || payload.deviceId.value == "" { return; }
      if payload.report.Unusable? { return; }
      var deviceId := payload.deviceId.value;
      StepKeepsPushInv(View(), Arrive(deviceId, Content(payload.report)));
      hide Content;
      AppendPush(deviceId, Content(payload.report));
      hide PushInv, B.Reconnects, StepPushes, View;
    }

    method AppendPush(deviceId: Device, report: DryerState)
      modifies this`pushes, this`pushByDeviceId, this`nextPush
      ensures View() == StepPushes(old(View()), Arrive(deviceId, report))
      ensures nextPush == old(nextPush) + 1 && pushes.Keys == old(pushes.Keys) + {old(nextPush)}
      ensures pushes[old(nextPush)].device == deviceId
    {
      var previous := if deviceId in pushByDeviceId then Some(pushByDeviceId[deviceId]) else None;
      pushes := pushes[nextPush := Push(deviceId, report, previous, Waiting, false)];
      pushByDeviceId := pushByDeviceId[deviceId := nextPush];
      nextPush := nextPush + 1;
    }

    method SetPushStage(id: P.Id, stage: Stage)
      requires id in pushes
      modifies this`pushes
      ensures View() == SetStage(old(View()), id, stage)
    {
      pushes := pushes[id := pushes[id].(stage := stage)];
    }

    /** The previous push has settled: `applyPush` runs up to its lookup. */
    method BeginPush(id: P.Id)
      requires Valid() && MayBegin(View(), id)
      modifies this`pushes
      ensures Valid() && View() == StepPushes(old(View()), Begin(id))
    {
      StepKeepsPushInv(View(), Begin(id));
      hide PushInv, B.Reconnects;
      SetPushStage(id, LookingUp);
    }

    /** `applyPush` after the machine lookup: one stretch merges into and replaces the cached state. */
    method AfterLookup(id: P.Id, result: Lookup)
      requires Valid() && id in pushes && pushes[id].stage.LookingUp?
      modifies this`stateByDeviceId, this`pushes, this`since, this`merged
      ensures Valid() && View() == StepPushes(old(View()), LookedUp(id, result))
    {
      StepKeepsPushInv(View(), LookedUp(id, result));
      hide PushInv, B.Reconnects;
      if !result.Mapped? {
        SetPushStage(id, Settled);
        return;
      }
      hide OnMapped;
      MergeReport(id);
    }

    /** The rest of `applyPush` before its machine update. */
    method MergeReport(id: P.Id)
      requires id in pushes
      modifies this`stateByDeviceId, this`pushes, this`since, this`merged
      ensures View() == OnMapped(old(View()), id)
    {
      hide Merge;
      var push := pushes[id];
      var cached := if push.device in stateByDeviceId then Some(stateByDeviceId[push.device]) else None;
      var next := Merge(cached, AsReport(push.report));
      stateByDeviceId := stateByDeviceId[push.device := next];
      pushes := pushes[id := push.(stage := Updating, mapped := true)];
      since := since[push.device := P.Get(since, push.device, []) + [push.report]];
      merged := merged[push.device := P.Get(merged, push.device, []) + [id]];
    }

    /** The machine update has returned or thrown. */
    method AfterUpdate(id: P.Id)
      requires Valid() && id in pushes && pushes[id].stage.Updating?
      modifies this`pushes
      ensures Valid() && View() == StepPushes(old(View()), Updated(id))
    {
      StepKeepsPushInv(View(), Updated(id));
      hide PushInv, B.Reconnects;
      SetPushStage(id, Settled);
    }

    /** The `finally` block of `handlePushPayload`. */
    method Finally(id: P.Id)
      requires Valid() && id in pushes && pushes[id].stage.Settled?
      modifies this`pushes, this`pushByDeviceId
      ensures Valid() && View() == StepPushes(old(View()), CleanUp(id))
    {
      StepKeepsPushInv(View(), CleanUp(id));
      hide PushInv, B.Reconnects;
      var device := pushes[id].device;
      SetPushStage(id, Cleaned);
      if device in pushByDeviceId && pushByDeviceId[device] == id {
        pushByDeviceId := pushByDeviceId - {device};
      }
    }

    method ScheduleReconnect(now: int)
      requires Valid()
      modifies this`connectionEvents, this`reconnectAttempt, this`reconnectTimer, this`pendingTimers, this`delays
      ensures Valid() && View() == old(View()) && connectionEvents == old(connectionEvents) + [B.Lost(now)]
    {
      B.ReconnectsPush(connectionEvents, B.Lost(now));
      SetReconnectTimer(now);
      NoteConnection(B.Lost(now));
      hide PushInv, B.Reconnects, B.OnReconnect, View, Reconnecting;
    }

    ghost method NoteConnection(e: B.ReconnectEvent)
      modifies this`connectionEvents
      ensures connectionEvents == old(connectionEvents) + [e] && View() == old(View()) && Reconnecting() == old(Reconnecting())
    {
      connectionEvents := connectionEvents + [e];
    }

    /** Nothing while a timer is pending or the service is stopped. */
    method SetReconnectTimer(now: int)
      modifies this`reconnectAttempt, this`reconnectTimer, this`pendingTimers, this`delays
      ensures Reconnecting() == B.OnReconnect(old(Reconnecting()), B.Lost(now)) && View() == old(View())
    {
      if stopped || reconnectTimer.Some? { return; }
      var delay := B.Min(B.RECONNECT_BASE_MS * B.Pow2(reconnectAttempt), B.RECONNECT_MAX_MS);
      reconnectAttempt := reconnectAttempt + 1;
      reconnectTimer := Some(now + delay);
      pendingTimers := pendingTimers + 1;
      delays := delays + [delay];
    }

    method ReconnectTimerFires()
      requires Valid() && pendingTimers > 0
      modifies this`connectionEvents, this`reconnectTimer, this`pendingTimers
      ensures Valid() && View() == old(View()) && connectionEvents == old(connectionEvents) + [B.TimerFires]
    {
      B.ReconnectsPush(connectionEvents, B.TimerFires);
      ClearReconnectTimer();
      NoteConnection(B.TimerFires);
      hide PushInv, B.Reconnects, B.OnReconnect, View, Reconnecting;
    }

    method ClearReconnectTimer()
      requires pendingTimers > 0
      modifies this`reconnectTimer, this`pendingTimers
      ensures Reconnecting() == B.OnReconnect(old(Reconnecting()), B.TimerFires) && View() == old(View())
    {
      reconnectTimer, pendingTimers := None, pendingTimers - 1;
    }

    method OnSubscribed()
      requires Valid()
      modifies this`connectionEvents, this`reconnectAttempt, this`delays
      ensures Valid() && View() == old(View()) && connectionEvents == old(connectionEvents) + [B.Subscribed]
    {
      B.ReconnectsPush(connectionEvents, B.Subscribed);
      ResetAttempts();
      NoteConnection(B.Subscribed);
      hide PushInv, B.Reconnects, B.OnReconnect, View, Reconnecting;
    }

    method ResetAttempts()
      modifies this`reconnectAttempt, this`delays
      ensures Reconnecting() == B.OnReconnect(old(Reconnecting()), B.Subscribed) && View() == old(View())
    {
      reconnectAttempt, delays := 0, [];
    }

    method OnModuleDestroy()
      requires Valid()
      modifies this`connectionEvents, this`stopped, this`pendingTimers
      ensures Valid() && View() == old(View()) && connectionEvents == old(connectionEvents) + [B.Destroyed]
    {
      B.ReconnectsPush(connectionEvents, B.Destroyed);
      StopTimers();
      NoteConnection(B.Destroyed);
      hide PushInv, B.Reconnects, B.OnReconnect, View, Reconnecting;
    }

    method StopTimers()
      modifies this`stopped, this`pendingTimers
      ensures Reconnecting() == B.OnReconnect(old(Reconnecting()), B.Destroyed) && View() == old(View())
    {
      stopped := true;
      if reconnectTimer.Some? && pendingTimers > 0 { pendingTimers := pendingTimers - 1; }
    }
  }
}
