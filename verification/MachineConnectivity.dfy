/**
 The connectivity monitor itself (src/machine/machine-connectivity.service.ts:25-152): one refresh walks
 over the machines and updates the `states` map in place.  `histories` records, per tracked machine, the
 observations that were committed since tracking began; `Valid` ties every state and alert count to them.

 What the refresh awaits arrives as a `Turn` per machine: the clock, whether the re-read of a machine in
 transition found it, and whether the service was stopped or the notification failed meanwhile.
 */
module MachineConnectivity {
  import opened Options
  import opened Connectivity

  type Id = nat
  type Location = nat
  type Mac = string

  datatype MachineRow = MachineRow(
    uuid: Id, location: Location, mac: Option<Mac>, deleted: bool, commissioned: bool, thinqDryer: bool)

  datatype Recheck = Found | Gone | Throws

  datatype Turn = Turn(now: int, recheck: Recheck, stopped: bool, notifyFails: bool)

  predicate Monitored(m: MachineRow) { !m.deleted && m.commissioned && !m.thinqDryer }

  /** What this refresh observed of a machine whose site may have failed to answer. */
  function ObservationOf(m: MachineRow, available: map<Location, set<Mac>>, now: int): Observation {
    if m.location !in available then SiteMissing
    else if m.mac.Some? && m.mac.value in available[m.location] then Available(now)
    else Unavailable(now)
  }

  /** The observation changes whether the machine counts as online, so the machine is re-read first. */
  predicate Transition(history: seq<Observation>, o: Observation) {
    Fold(history + [o]).isOnline != Fold(history).isOnline
  }

  datatype Fate =
    | Unchanged              // not monitored, or an unobserved machine of a silent site
    | Committed(o: Observation)
    | Forgotten              // the machine turned out to be deleted
    | Interrupted            // the re-read threw or the service was stopped: the refresh ends

  /** What happens to one machine, from its committed history so far. */
  function FateOf(history: seq<Observation>, tracked: bool, m: MachineRow, available: map<Location, set<Mac>>, turn: Turn): Fate {
    var o := ObservationOf(m, available, turn.now);
    if !Monitored(m) || (o.SiteMissing? && !tracked) then Unchanged
    else if !Transition(history, o) then Committed(o)
    else match turn.recheck
      case Gone => Forgotten
      case Throws => Interrupted
      case Found => if turn.stopped then Interrupted else Committed(o)
  }

  /** The clock of the turns does not go back. */
  ghost predicate TurnsFollow(clock: int, turns: seq<Turn>) {
    && (forall i :: 0 <= i < |turns| ==> clock <= turns[i].now)
    && (forall i, j :: 0 <= i <= j < |turns| ==> turns[i].now <= turns[j].now)
  }

  lemma PushOrdered(history: seq<Observation>, o: Observation)
    requires Ordered(history)
    requires Timed(o) ==> forall i :: 0 <= i < |history| && Timed(history[i]) ==> history[i].at <= o.at
    ensures Ordered(history + [o])
  {
  }

  ghost predicate RecordOk(history: seq<Observation>, state: ConnectionState, alerts: nat, clock: int) {
    && Ordered(history)
    && (forall i :: 0 <= i < |history| && Timed(history[i]) ==> history[i].at <= clock)
    && state == Fold(history)
    && alerts == Alerts(history)
  }

  lemma RecordPush(history: seq<Observation>, state: ConnectionState, alerts: nat, clock: int, o: Observation, alert: bool)
    requires RecordOk(history, state, alerts, clock) && (Timed(o) ==> o.at == clock)
    requires alert <==> RaisesAlert(history + [o])
    ensures RecordOk(history + [o], Observe(state, o), alerts + (if alert then 1 else 0), clock)
  {
    PushOrdered(history, o);
    FoldPush(history, o);
  }

  lemma RecordLater(history: seq<Observation>, state: ConnectionState, alerts: nat, clock: int, later: int)
    requires RecordOk(history, state, alerts, clock) && clock <= later
    ensures RecordOk(history, state, alerts, later)
  {
  }

  lemma EmptyRecord(clock: int)
    ensures RecordOk([], UNOBSERVED, 0, clock)
  {
  }

  /** An alert is raised exactly by a transition that does not bring the machine online. */
  lemma AlertMeansTransition(history: seq<Observation>, o: Observation)
    ensures RaisesAlert(history + [o]) <==> Transition(history, o) && Observe(Fold(history), o).isOnline != Some(true)
  {
    FoldPush(history, o);
  }

  lemma FoldPush(history: seq<Observation>, o: Observation)
    ensures Fold(history + [o]) == Observe(Fold(history), o)
    ensures Alerts(history + [o])
            == Alerts(history) + (if RaisesAlert(history + [o]) then 1 else 0)
  {
    assert (history + [o])[..|history|] == history;
  }

  ghost function Past(histories: map<Id, seq<Observation>>, u: Id): seq<Observation> {
    if u in histories then histories[u] else []
  }

  ghost predicate SameEntry(before: map<Id, seq<Observation>>, after: map<Id, seq<Observation>>, u: Id) {
    (u in before <==> u in after) && (u in before ==> after[u] == before[u])
  }

  ghost function FateIn(histories: map<Id, seq<Observation>>, m: MachineRow, available: map<Location, set<Mac>>, turn: Turn): Fate {
    FateOf(Past(histories, m.uuid), m.uuid in histories, m, available, turn)
  }

  /** The table of histories after one machine's turn. */
  ghost function After(histories: map<Id, seq<Observation>>, m: MachineRow, fate: Fate): map<Id, seq<Observation>> {
    match fate
    case Unchanged => histories
    case Committed(o) => histories[m.uuid := Past(histories, m.uuid) + [o]]
    case Forgotten => histories - {m.uuid}
    case Interrupted => histories
  }

  /** A machine's entry is what its own turn makes of the entry it had before the refresh. */
  ghost predicate Reached(before: map<Id, seq<Observation>>, m: MachineRow, available: map<Location, set<Mac>>, turn: Turn,
                          after: map<Id, seq<Observation>>) {
    var fate := FateIn(before, m, available, turn);
    !fate.Interrupted? && SameEntry(After(before, m, fate), after, m.uuid)
  }

  ghost predicate Distinct(machines: seq<MachineRow>) {
    forall i, j :: 0 <= i < j < |machines| ==> machines[i].uuid != machines[j].uuid
  }

  /** The first `k` machines have had their turn, the others are as before. */
  ghost predicate Progress(start: map<Id, seq<Observation>>, current: map<Id, seq<Observation>>, machines: seq<MachineRow>,
                           available: map<Location, set<Mac>>, turns: seq<Turn>, k: nat)
    requires k <= |machines| == |turns|
  {
    && (forall i :: 0 <= i < k ==> Reached(start, machines[i], available, turns[i], current))
    && (forall i :: k <= i < |machines| ==> SameEntry(start, current, machines[i].uuid))
  }

  lemma SameEntrySameFate(start: map<Id, seq<Observation>>, current: map<Id, seq<Observation>>, m: MachineRow,
                          available: map<Location, set<Mac>>, turn: Turn)
    requires SameEntry(start, current, m.uuid)
    ensures FateIn(current, m, available, turn) == FateIn(start, m, available, turn)
    ensures Past(current, m.uuid) == Past(start, m.uuid)
  {
  }

  lemma ProgressStep(start: map<Id, seq<Observation>>, current: map<Id, seq<Observation>>, machines: seq<MachineRow>,
                     available: map<Location, set<Mac>>, turns: seq<Turn>, k: nat)
    requires k < |machines| == |turns| && Distinct(machines) && Progress(start, current, machines, available, turns, k)
    requires !FateIn(current, machines[k], available, turns[k]).Interrupted?
    ensures Progress(start, After(current, machines[k], FateIn(current, machines[k], available, turns[k])),
                     machines, available, turns, k + 1)
  {
    var m := machines[k];
    SameEntrySameFate(start, current, m, available, turns[k]);
    hide FateIn;
    var next := After(current, m, FateIn(current, m, available, turns[k]));
    assert forall u :: u != m.uuid ==> SameEntry(current, next, u);
    forall i | 0 <= i < k ensures Reached(start, machines[i], available, turns[i], next) {
      assert Reached(start, machines[i], available, turns[i], current);
      assert SameEntry(current, next, machines[i].uuid);
    }
    forall i | k + 1 <= i < |machines| ensures SameEntry(start, next, machines[i].uuid) {
      assert SameEntry(start, current, machines[i].uuid) && SameEntry(current, next, machines[i].uuid);
    }
  }

  /** Which machines a refresh has seen monitored among the first `k`. */
  ghost predicate SeenMonitored(monitored: set<Id>, machines: seq<MachineRow>, k: nat)
    requires k <= |machines|
  {
    forall u :: u in monitored <==> exists i :: 0 <= i < k && machines[i].uuid == u && Monitored(machines[i])
  }

  lemma SeenStep(monitored: set<Id>, machines: seq<MachineRow>, k: nat)
    requires k < |machines| && SeenMonitored(monitored, machines, k)
    ensures SeenMonitored(if Monitored(machines[k]) then monitored + {machines[k].uuid} else monitored, machines, k + 1)
  {
    hide Monitored;
    var seen := if Monitored(machines[k]) then monitored + {machines[k].uuid} else monitored;
    forall u ensures u in seen <==> exists i :: 0 <= i < k + 1 && machines[i].uuid == u && Monitored(machines[i]) {
      if u in monitored {
        var i :| 0 <= i < k && machines[i].uuid == u && Monitored(machines[i]);
      }
    }
  }

  lemma TransitionIsChange(history: seq<Observation>, o: Observation)
    ensures Transition(history, o) <==> Observe(Fold(history), o).isOnline != Fold(history).isOnline
  {
    FoldPush(history, o);
  }

  lemma CommittedEntry(histories: map<Id, seq<Observation>>, m: MachineRow, o: Observation)
    ensures After(histories, m, Committed(o)) == histories[m.uuid := Past(histories, m.uuid) + [o]]
  {
  }

  lemma UnchangedEntry(histories: map<Id, seq<Observation>>, m: MachineRow)
    ensures After(histories, m, Unchanged) == histories && After(histories, m, Interrupted) == histories
  {
  }

  lemma ForgottenEntry(histories: map<Id, seq<Observation>>, m: MachineRow)
    ensures After(histories, m, Forgotten) == histories - {m.uuid}
  {
  }

  lemma ReachedStays(before: map<Id, seq<Observation>>, m: MachineRow, available: map<Location, set<Mac>>, turn: Turn,
                     after: map<Id, seq<Observation>>, later: map<Id, seq<Observation>>)
    requires Reached(before, m, available, turn, after) && SameEntry(after, later, m.uuid)
    ensures Reached(before, m, available, turn, later)
  {
  }

  lemma SilentIsNoTransition(history: seq<Observation>)
    ensures !Transition(history, SiteMissing) && Observe(Fold(history), SiteMissing) == Fold(history)
  {
    FoldPush(history, SiteMissing);
  }

  /** The refresh knows the machine, and its site has answered. */
  predicate Watched(m: MachineRow, available: map<Location, set<Mac>>) {
    m.deleted == false && m.commissioned == true && m.thinqDryer == false && m.location in available
  }

  /** The plug is among its site's answers. */
  predicate Answers(m: MachineRow, available: map<Location, set<Mac>>) {
    m.location in available && exists mac :: mac in available[m.location] && m.mac == Some(mac)
  }

  /** Whether a machine counts as online after a turn, if the turn is committed. */
  function Verdict(before: ConnectionState, reachable: bool, now: int): Option<bool> {
    if reachable then Some(true)
    else if before.unavailableSince.Some? && now - before.unavailableSince.value >= 60_000 then Some(false)
    else before.isOnline
  }

  /** The state that a committed turn leaves. */
  function Shown(before: ConnectionState, reachable: bool, now: int): ConnectionState {
    ConnectionState(
      Verdict(before, reachable, now),
      if reachable then Some(now) else before.lastSeenAt,
      if reachable then None else if before.unavailableSince.Some? then before.unavailableSince else Some(now))
  }

  /** A machine that turns online or offline is read again first. */
  predicate Rereads(before: ConnectionState, m: MachineRow, available: map<Location, set<Mac>>, now: int) {
    Watched(m, available) && Verdict(before, Answers(m, available), now) != before.isOnline
  }

  lemma TurnIsShown(history: seq<Observation>, m: MachineRow, available: map<Location, set<Mac>>, now: int)
    requires Watched(m, available)
    ensures
      var o, before := ObservationOf(m, available, now), Fold(history);
      && Fold(history + [o]) == Shown(before, Answers(m, available), now)
      && (Transition(history, o) <==> Rereads(before, m, available, now))
      && (RaisesAlert(history + [o]) <==>
            Verdict(before, Answers(m, available), now) == Some(false) && before.isOnline != Some(false))
  {
    var o := ObservationOf(m, available, now);
    FoldPush(history, o);
    AlertMeansTransition(history, o);
    assert m.mac.Some? && m.mac.value in available[m.location] ==> Answers(m, available);
    assert (history + [o])[..|history|] == history;
    hide Fold;
  }

  /**
   What a turn that does not end the refresh makes of a machine, from what its site answered: the state the
   answer calls for, or nothing kept of a machine that was read again and is gone.  A machine that is not
   watched stays as it was.
   */
  ghost predicate TurnTaken(known: bool, before: ConnectionState, kept: bool, after: ConnectionState, m: MachineRow,
                            available: map<Location, set<Mac>>, turn: Turn) {
    if !Watched(m, available) then (kept <==> known) && after == before
    else if Rereads(before, m, available, turn.now) && turn.recheck.Gone? then !kept
    else kept && after == Shown(before, Answers(m, available), turn.now)
  }

  ghost function Current(histories: map<Id, seq<Observation>>, u: Id): ConnectionState { Fold(Past(histories, u)) }

  lemma FateIsTaken(before: map<Id, seq<Observation>>, m: MachineRow, available: map<Location, set<Mac>>, turn: Turn)
    ensures
      var fate, u := FateIn(before, m, available, turn), m.uuid;
      var after := After(before, m, fate);
      && (fate.Interrupted? <==>
            Rereads(Current(before, u), m, available, turn.now) && (turn.recheck.Throws? || (turn.recheck.Found? && turn.stopped)))
      && (!fate.Interrupted? ==>
            TurnTaken(u in before, Current(before, u), u in after, Current(after, u), m, available, turn))
      && (!fate.Interrupted? && u in after ==>
            Alerts(Past(after, u)) == Alerts(Past(before, u)) +
              (if Watched(m, available) && Shown(Current(before, u), Answers(m, available), turn.now).isOnline == Some(false)
                  && Current(before, u).isOnline != Some(false) then 1 else 0))
  {
    if Watched(m, available) {
      TurnIsShown(Past(before, m.uuid), m, available, turn.now);
      FoldPush(Past(before, m.uuid), ObservationOf(m, available, turn.now));
    } else {
      FoldPush(Past(before, m.uuid), SiteMissing);
      SilentIsNoTransition(Past(before, m.uuid));
      AlertMeansTransition(Past(before, m.uuid), SiteMissing);
    }
    hide Answers, Fold, Observe, Alerts, RaisesAlert, Verdict;
  }

  function StateIn(states: map<Id, ConnectionState>, u: Id): ConnectionState {
    if u in states then states[u] else UNOBSERVED
  }

  function CountIn(alerts: map<Id, nat>, u: Id): nat { if u in alerts then alerts[u] else 0 }

  /** What a turn has made of the machine's state and alerts, from what its site answered. */
  ghost predicate TurnSeen(before: map<Id, ConnectionState>, sent: map<Id, nat>, after: map<Id, ConnectionState>, sentNow: map<Id, nat>,
                           m: MachineRow, available: map<Location, set<Mac>>, turn: Turn) {
    var u := m.uuid;
    && TurnTaken(u in before, StateIn(before, u), u in after, StateIn(after, u), m, available, turn)
    && (u in after ==>
          CountIn(sentNow, u) == CountIn(sent, u) +
            (if Watched(m, available) && StateIn(after, u).isOnline == Some(false) && StateIn(before, u).isOnline != Some(false)
             then 1 else 0))
  }

  /** The service's maps are determined by the histories. */
  function FoldAll(histories: map<Id, seq<Observation>>): map<Id, ConnectionState> {
    map u | u in histories :: Fold(histories[u])
  }

  function AlertAll(histories: map<Id, seq<Observation>>): map<Id, nat> {
    map u | u in histories :: Alerts(histories[u])
  }

  lemma MapsSayCurrent(histories: map<Id, seq<Observation>>, u: Id)
    ensures StateIn(FoldAll(histories), u) == Current(histories, u)
    ensures CountIn(AlertAll(histories), u) == Alerts(Past(histories, u))
  {
    assert Fold([]) == UNOBSERVED && Alerts([]) == 0;
  }

  lemma ReachedIsSeen(before: map<Id, seq<Observation>>, after: map<Id, seq<Observation>>, m: MachineRow,
                      available: map<Location, set<Mac>>, turn: Turn)
    requires Reached(before, m, available, turn, after)
    ensures TurnSeen(FoldAll(before), AlertAll(before), FoldAll(after), AlertAll(after), m, available, turn)
  {
    FateIsTaken(before, m, available, turn);
    MapsSayCurrent(before, m.uuid);
    MapsSayCurrent(after, m.uuid);
    MapsSayCurrent(After(before, m, FateIn(before, m, available, turn)), m.uuid);
    hide FateIn, Fold, Alerts, Answers, Verdict, Watched;
  }

  lemma InterruptedRereads(before: map<Id, seq<Observation>>, m: MachineRow, available: map<Location, set<Mac>>, turn: Turn)
    requires FateIn(before, m, available, turn).Interrupted?
    ensures
      Rereads(StateIn(FoldAll(before), m.uuid), m, available, turn.now) && (turn.recheck.Throws? || (turn.recheck.Found? && turn.stopped))
  {
    FateIsTaken(before, m, available, turn);
    MapsSayCurrent(before, m.uuid);
    hide FateIn, Fold, Rereads;
  }

  lemma InterruptedChangesNothing(before: map<Id, seq<Observation>>, m: MachineRow)
    ensures After(before, m, Interrupted) == before
  {
  }

  lemma TurnIsSeen(before: map<Id, seq<Observation>>, m: MachineRow, available: map<Location, set<Mac>>, turn: Turn)
    requires !FateIn(before, m, available, turn).Interrupted?
    ensures !(Rereads(StateIn(FoldAll(before), m.uuid), m, available, turn.now) && (turn.recheck.Throws? || (turn.recheck.Found? && turn.stopped)))
    ensures
      var after := After(before, m, FateIn(before, m, available, turn));
      TurnSeen(FoldAll(before), AlertAll(before), FoldAll(after), AlertAll(after), m, available, turn)
  {
    FateIsTaken(before, m, available, turn);
    MapsSayCurrent(before, m.uuid);
    hide FateIn, Fold, TurnSeen, After, Rereads;
    ReachedIsSeen(before, After(before, m, FateIn(before, m, available, turn)), m, available, turn);
  }

  ghost predicate SameIn(before: map<Id, ConnectionState>, sent: map<Id, nat>, after: map<Id, ConnectionState>,
                         sentNow: map<Id, nat>, u: Id) {
    (u in before <==> u in after) && StateIn(before, u) == StateIn(after, u) && CountIn(sent, u) == CountIn(sentNow, u)
  }

  lemma SameEntrySameState(before: map<Id, seq<Observation>>, after: map<Id, seq<Observation>>, u: Id)
    requires SameEntry(before, after, u)
    ensures SameIn(FoldAll(before), AlertAll(before), FoldAll(after), AlertAll(after), u)
  {
  }

  class MachineConnectivityService {
    var states: map<Id, ConnectionState>
    var stopped: bool
    ghost var histories: map<Id, seq<Observation>>
    var alerts: map<Id, nat>   // offline notifications attempted since tracking began
    var failures: nat          // notifications that threw
    ghost var clock: int

    /** Every state and alert count is what the committed observations say. */
    ghost predicate Valid()
      reads this
    {
      && states.Keys == histories.Keys && alerts.Keys == histories.Keys
      && forall u :: u in histories ==> RecordOk(histories[u], states[u], alerts[u], clock)
    }

    ghost function HistoryOf(u: Id): seq<Observation>
      reads this
    {
      if u in histories then histories[u] else []
    }

    constructor ()
      ensures Valid() && histories == map[] && !stopped
    {
      states, stopped := map[], false;
      histories, alerts, failures, clock := map[], map[], 0, 0;
    }

    /** The answer to a reader; null while undecided or for a machine that is not monitored. */
    method Get(m: MachineRow) returns (isOnline: Option<bool>, lastSeenAt: Option<int>)
      requires Valid()
      ensures m.deleted || !m.commissioned || m.thinqDryer ==> isOnline == None && lastSeenAt == None
      ensures !m.deleted && m.commissioned && !m.thinqDryer ==>
                isOnline == StateOf(m.uuid).isOnline && lastSeenAt == StateOf(m.uuid).lastSeenAt
      ensures isOnline == Some(false) <==> Monitored(m) && OfflineNow(HistoryOf(m.uuid))
      ensures isOnline == Some(true) <==>
                Monitored(m) && EverAvailable(HistoryOf(m.uuid)) && !OfflineNow(HistoryOf(m.uuid))
      ensures lastSeenAt.Some? <==> Monitored(m) && EverAvailable(HistoryOf(m.uuid))
      ensures Monitored(m) ==> forall i :: LastAvailable(HistoryOf(m.uuid), i) ==>
                lastSeenAt == Some(HistoryOf(m.uuid)[i].at)
    {
      StateRefinesHistory(HistoryOf(m.uuid));
      if m.deleted || !m.commissioned || m.thinqDryer { return None, None; }
      if m.uuid in states {
        return states[m.uuid].isOnline, states[m.uuid].lastSeenAt;
      }
      return None, None;
    }

    method Tick(now: int)
      requires Valid() && clock <= now
      modifies this`clock
      ensures Valid() && clock == now
    {
      hide RecordOk;
      forall u | u in histories ensures RecordOk(histories[u], states[u], alerts[u], now) {
        RecordLater(histories[u], states[u], alerts[u], clock, now);
      }
      clock := now;
    }

    function StateOf(u: Id): ConnectionState
      reads this
    {
      if u in states then states[u] else UNOBSERVED
    }

    /**
     `states.set`, followed by the notification when the machine has just turned offline.  A notification
     that throws is logged and changes nothing else.
     */
    method Commit(u: Id, state: ConnectionState, alert: bool, notifyFails: bool, ghost o: Observation)
      requires Valid() && state == Observe(StateOf(u), o)
      requires (Timed(o) ==> o.at == clock) && (alert <==> RaisesAlert(HistoryOf(u) + [o]))
      modifies this`states, this`histories, this`alerts, this`failures
      ensures Valid() && histories == old(histories)[u := old(HistoryOf(u)) + [o]]
      ensures failures == old(failures) + (if alert && notifyFails then 1 else 0)
    {
      hide RecordOk, Observe;
      var sent := if u in alerts then alerts[u] else 0;
      EmptyRecord(clock);
      RecordPush(HistoryOf(u), StateOf(u), sent, clock, o, alert);
      histories := histories[u := HistoryOf(u) + [o]];
      states := states[u := state];
      alerts := alerts[u := if alert then sent + 1 else sent];
      if alert && notifyFails { failures := failures + 1; }
    }

    method Forget(u: Id)
      requires Valid()
      modifies this`states, this`histories, this`alerts
      ensures Valid() && histories == old(histories) - {u}
    {
      hide RecordOk;
      states, alerts, histories := states - {u}, alerts - {u}, histories - {u};
    }

    /** The state after this observation, as the loop body computes it. */
    method NextState(u: Id, reachable: bool, now: int) returns (state: ConnectionState)
      ensures state == Observe(StateOf(u), if reachable then Available(now) else Unavailable(now))
    {
      state := if u in states then states[u] else UNOBSERVED;
      if reachable {
        state := ConnectionState(Some(true), Some(now), None);
      } else {
        if state.unavailableSince.None? { state := state.(unavailableSince := Some(now)); }
        if now - state.unavailableSince.value >= OFFLINE_GRACE_MS { state := state.(isOnline := Some(false)); }
      }
    }

    lemma StateIsFold(u: Id)
      requires Valid()
      ensures StateOf(u) == Fold(HistoryOf(u))
      ensures (u in states <==> u in histories) && HistoryOf(u) == Past(histories, u)
    {
    }

    /** The states are determined by the histories. */
    lemma StatesAreFolds()
      requires Valid()
      ensures states == FoldAll(histories) && alerts == AlertAll(histories)
    {
      hide Fold, Alerts;
    }

    /**
     One turn of the refresh loop.  A machine that turns online or offline is read again; if that throws, or
     the service has been stopped, the refresh ends with every state as it was.
     */
    method RefreshMachine(m: MachineRow, available: map<Location, set<Mac>>, turn: Turn) returns (ended: bool)
      requires Valid() && clock <= turn.now
      modifies this
      ensures Valid() && clock == turn.now
      ensures ended <==>
                Rereads(StateIn(old(states), m.uuid), m, available, turn.now)
                && (turn.recheck.Throws? || (turn.recheck.Found? && turn.stopped))
      ensures ended ==> states == old(states) && alerts == old(alerts)
      ensures !ended ==> TurnSeen(old(states), old(alerts), states, alerts, m, available, turn)
      ensures stopped <==> old(stopped) || (ended && turn.recheck.Found?)
      ensures histories == After(old(histories), m, FateIn(old(histories), m, available, turn))
      ensures ended <==> FateIn(old(histories), m, available, turn).Interrupted?
    {
      StatesAreFolds();
      ghost var start := histories;
      ended := TakeTurn(m, available, turn);
      StatesAreFolds();
      hide RecordOk, TurnSeen, Rereads, FateIn, After, FoldAll, AlertAll;
      if ended {
        InterruptedRereads(start, m, available, turn);
        InterruptedChangesNothing(start, m);
      } else {
        TurnIsSeen(start, m, available, turn);
      }
    }

    method TakeTurn(m: MachineRow, available: map<Location, set<Mac>>, turn: Turn) returns (ended: bool)
      requires Valid() && clock <= turn.now
      modifies this
      ensures Valid() && clock == turn.now
      ensures
        var fate := FateIn(old(histories), m, available, turn);
        && (ended <==> fate.Interrupted?)
        && (stopped <==> old(stopped) || (fate.Interrupted? && turn.recheck.Found?))
        && histories == After(old(histories), m, fate)
    {
      hide RecordOk, After;
      Tick(turn.now);
      if m.deleted || !m.commissioned || m.thinqDryer {
        UnchangedEntry(histories, m);
        return false;
      }
      if m.location !in available {
        RefreshSilentSite(m, available, turn);
        return false;
      }
      ended := RefreshReachableSite(m, available, turn);
    }

    /** A site that did not answer says nothing about its machines. */
    method RefreshSilentSite(m: MachineRow, available: map<Location, set<Mac>>, turn: Turn)
      requires Valid() && clock == turn.now && Monitored(m) && m.location !in available
      modifies this`states, this`histories, this`alerts, this`failures
      ensures Valid() && !FateIn(old(histories), m, available, turn).Interrupted?
      ensures histories == After(old(histories), m, FateIn(old(histories), m, available, turn))
    {
      hide RecordOk, After;
      SilentIsNoTransition(HistoryOf(m.uuid));
      StateIsFold(m.uuid);
      AlertMeansTransition(HistoryOf(m.uuid), SiteMissing);
      if m.uuid in states {
        CommittedEntry(histories, m, SiteMissing);
        hide Observe, Fold, FateIn, RaisesAlert;
        Commit(m.uuid, states[m.uuid], false, false, SiteMissing);
      } else {
        UnchangedEntry(histories, m);
      }
    }

    /** The rest of the turn for a monitored machine whose site has answered. */
    method RefreshReachableSite(m: MachineRow, available: map<Location, set<Mac>>, turn: Turn) returns (ended: bool)
      requires Valid() && clock == turn.now && Monitored(m) && m.location in available
      modifies this
      ensures Valid() && clock == turn.now
      ensures
        var fate := FateIn(old(histories), m, available, turn);
        && (ended <==> fate.Interrupted?)
        && (stopped <==> old(stopped) || (fate.Interrupted? && turn.recheck.Found?))
        && histories == After(old(histories), m, fate)
    {
      ghost var o := ObservationOf(m, available, turn.now);
      ghost var transition := Transition(HistoryOf(m.uuid), o);
      ghost var fate := FateIn(histories, m, available, turn);
      assert fate == if !transition then Committed(o) else match turn.recheck
        case Gone => Forgotten
        case Throws => Interrupted
        case Found => if turn.stopped then Interrupted else Committed(o);
      StateIsFold(m.uuid);
      FoldPush(HistoryOf(m.uuid), o);
      AlertMeansTransition(HistoryOf(m.uuid), o);
      CommittedEntry(histories, m, o);
      UnchangedEntry(histories, m);
      ForgottenEntry(histories, m);
      var reachable := m.mac.Some? && m.mac.value in available[m.location];
      assert o == if reachable then Available(turn.now) else Unavailable(turn.now);
      hide Observe, Fold, FateIn, RaisesAlert, RecordOk, After, Transition;
      var state := NextState(m.uuid, reachable, turn.now);
      assert transition <==> state.isOnline != StateOf(m.uuid).isOnline by { TransitionIsChange(HistoryOf(m.uuid), o); }
      ended := false;
      if state.isOnline == StateOf(m.uuid).isOnline {
        Commit(m.uuid, state, false, turn.notifyFails, o);
        return;
      }
      if turn.recheck.Throws? { return true; }
      if turn.recheck.Gone? {
        Forget(m.uuid);
        return;
      }
      if turn.stopped {
        stopped := true;
        return true;
      }
      Commit(m.uuid, state, state.isOnline != Some(true), turn.notifyFails, o);
    }

    /** Stops tracking every machine that this refresh did not see monitored. */
    method DropUnmonitored(monitored: set<Id>)
      requires Valid()
      modifies this`states, this`histories, this`alerts
      ensures Valid() && histories == map u | u in old(histories) && u in monitored :: old(histories)[u]
    {
      hide RecordOk;
      states := map u | u in states && u in monitored :: states[u];
      alerts := map u | u in alerts && u in monitored :: alerts[u];
      histories := map u | u in histories && u in monitored :: histories[u];
    }

    /**
     One refresh.  For every machine it gets to, the state afterwards is what the machine's site answered for
     it: online and last seen now if its plug is among the answers, otherwise never turned online.  If a
     re-read throws or finds the service stopped, that machine and the rest are as they were; after a full
     pass only machines that should be watched are known.
     */
    method Refresh(machines: seq<MachineRow>, available: map<Location, set<Mac>>, turns: seq<Turn>) returns (processed: nat)
      requires Valid() && |turns| == |machines| && TurnsFollow(clock, turns) && Distinct(machines)
      modifies this
      ensures Valid() && processed <= |machines|
      ensures forall i :: 0 <= i < processed && Monitored(machines[i]) ==>
                TurnSeen(old(states), old(alerts), states, alerts, machines[i], available, turns[i])
      ensures processed < |machines| ==>
                var m, turn := machines[processed], turns[processed];
                Rereads(StateIn(old(states), m.uuid), m, available, turn.now)
                && (turn.recheck.Throws? || (turn.recheck.Found? && turn.stopped))
      ensures processed < |machines| ==>
                forall i :: processed <= i < |machines| ==> SameIn(old(states), old(alerts), states, alerts, machines[i].uuid)
      ensures processed == |machines| ==>
                forall u :: u in states ==> exists i :: 0 <= i < |machines| && machines[i].uuid == u && Monitored(machines[i])
    {
      StatesAreFolds();
      ghost var start := histories;
      processed := WalkMachines(machines, available, turns);
      StatesAreFolds();
      hide RecordOk, FateIn, TurnSeen, Reached, Rereads, Monitored, FoldAll, AlertAll, SameIn, SameEntry, TurnsFollow;
      forall i | 0 <= i < processed && Monitored(machines[i])
        ensures TurnSeen(FoldAll(start), AlertAll(start), states, alerts, machines[i], available, turns[i])
      {
        ReachedIsSeen(start, histories, machines[i], available, turns[i]);
      }
      if processed < |machines| {
        InterruptedRereads(start, machines[processed], available, turns[processed]);
        forall i | processed <= i < |machines|
          ensures SameIn(FoldAll(start), AlertAll(start), states, alerts, machines[i].uuid)
        {
          SameEntrySameState(start, histories, machines[i].uuid);
        }
      }
    }

    /**
     One refresh: the machines in order until the list or the refresh ends, then machines no longer
     monitored are dropped.  Each monitored machine that was reached has exactly its own turn applied to
     its history, the others keep theirs.
     */
    method WalkMachines(machines: seq<MachineRow>, available: map<Location, set<Mac>>, turns: seq<Turn>) returns (processed: nat)
      requires Valid() && |turns| == |machines| && TurnsFollow(clock, turns) && Distinct(machines)
      modifies this
      ensures Valid() && processed <= |machines|
      ensures forall i :: 0 <= i < processed && Monitored(machines[i]) ==>
                Reached(old(histories), machines[i], available, turns[i], histories)
      ensures processed < |machines| ==>
                && FateIn(old(histories), machines[processed], available, turns[processed]).Interrupted?
                && forall i :: processed <= i < |machines| ==> SameEntry(old(histories), histories, machines[i].uuid)
      ensures processed == |machines| ==>
                forall u :: u in histories ==> exists i :: 0 <= i < |machines| && machines[i].uuid == u && Monitored(machines[i])
    {
      hide FateOf, Reached, Monitored, RecordOk, TurnsFollow;
      ghost var start := histories;
      var monitored: set<Id> := {};
      processed := 0;
      ClockFollows(clock, turns, 0);
      while processed < |machines|
        invariant processed <= |machines| && Valid()
        invariant processed < |machines| ==> clock <= turns[processed].now
        invariant TurnsFollow(old(clock), turns)
        invariant Progress(start, histories, machines, available, turns, processed)
        invariant SeenMonitored(monitored, machines, processed)
      {
        ghost var before := histories;
        SameEntrySameFate(start, before, machines[processed], available, turns[processed]);
        var ended := RefreshMachine(machines[processed], available, turns[processed]);
        if ended { return; }
        ProgressStep(start, before, machines, available, turns, processed);
        SeenStep(monitored, machines, processed);
        if Monitored(machines[processed]) { monitored := monitored + {machines[processed].uuid}; }
        processed := processed + 1;
        ClockFollows(old(clock), turns, processed);
      }
      ghost var reached := histories;
      DropUnmonitored(monitored);
      forall i | 0 <= i < processed && Monitored(machines[i])
        ensures Reached(start, machines[i], available, turns[i], histories)
      {
        ReachedStays(start, machines[i], available, turns[i], reached, histories);
      }
    }
  }

  lemma ClockFollows(clock: int, turns: seq<Turn>, k: nat)
    requires TurnsFollow(clock, turns)
    ensures k < |turns| ==> clock <= turns[k].now
    ensures 0 < k < |turns| ==> turns[k - 1].now <= turns[k].now
  {
  }
}
