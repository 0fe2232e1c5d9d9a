/**
 What one ThinQ state does to a mapped dryer and its usage session
 (src/machine/machine.service.ts:433-521), and what a whole list of states, applied one call at a time,
 amounts to.  Between states users may register and unlink; nothing else writes the session.
 */
module ThinqLifecycle {
  import opened Options
  import opened ThinqMerge

  type Id = nat

  const OCCUPIED: set<string> := {"RUNNING", "DETECTING", "COOLING", "PAUSE"}
  const VACANT: set<string> := {"END", "POWER_OFF", "SLEEP", "INITIAL", "WRINKLE_CARE"}
  const MAX_INT4 := 2_147_483_647

  datatype Status = Idle | Dry

  /** An open session and who is registered for it. */
  datatype Session = Closed | Open(user: Option<Id>)

  datatype Dryer = Dryer(
    status: Status,
    currentState: Option<string>,
    remainingMinutes: Option<int>,
    session: Session,
    created: nat,     // sessions created
    finished: nat,    // sessions finished
    alerts: nat)      // error alerts dispatched

  datatype DryerEvent = Reported(state: DryerState) | Register(user: Id) | Unlink(user: Id)

  function CurrentState(state: DryerState): Option<string> {
    match Value(state, RunStateField("currentState"))
    case Some(Text(text)) => Some(text)
    case _ => None
  }

  /** DRY for an occupied state, IDLE for a vacant one, nothing for errors, reservations and the unknown. */
  function StatusOf(currentState: Option<string>): Option<Status> {
    if currentState.None? then None
    else if currentState.value in OCCUPIED then Some(Dry)
    else if currentState.value in VACANT then Some(Idle)
    else None
  }

  function RemainingMinutes(state: DryerState): Option<int> {
    if CurrentState(state) == Some("DETECTING") then None
    else
      match (Value(state, TimerField("remainHour")), Value(state, TimerField("remainMinute")))
      case (Some(Integer(hour)), Some(Integer(minute))) =>
        if hour >= 0 && 0 <= minute < 60 && hour * 60 + minute <= MAX_INT4 then Some(hour * 60 + minute) else None
      case _ => None
  }

  // ----- Applying one state -----

  function StartSession(d: Dryer): Dryer {
    if d.session.Closed? then d.(session := Open(None), created := d.created + 1) else d
  }

  function FinishSession(d: Dryer): Dryer {
    if d.session.Open? then d.(session := Closed, finished := d.finished + 1) else d
  }

  function NotifyError(d: Dryer): Dryer {
    if d.session.Open? && d.session.user.Some? then d.(alerts := d.alerts + 1) else d
  }

  function UpdateState(d: Dryer, state: DryerState): Dryer {
    var currentState := CurrentState(state);
    var status := StatusOf(currentState);
    var stored := d.(currentState := currentState, remainingMinutes := RemainingMinutes(state),
                     status := if status.Some? then status.value else d.status);
    var alerted := if currentState == Some("ERROR") && d.currentState != Some("ERROR") then NotifyError(stored) else stored;
    match status
    case None => alerted
    case Some(Dry) => StartSession(alerted)
    case Some(Idle) => FinishSession(alerted)
  }

  function Apply(d: Dryer, e: DryerEvent): Dryer {
    match e
    case Reported(state) => UpdateState(d, state)
    case Register(user) =>
      if d.session.Open? && (d.session.user.None? || d.session.user == Some(user))
      then d.(session := Open(Some(user))) else d
    case Unlink(user) => if d.session == Open(Some(user)) then d.(session := Open(None)) else d
  }

  function ApplyAll(d: Dryer, events: seq<DryerEvent>): Dryer {
    if events == [] then d else Apply(ApplyAll(d, events[..|events| - 1]), events[|events| - 1])
  }

  lemma ApplyPush(d: Dryer, events: seq<DryerEvent>, e: DryerEvent)
    ensures ApplyAll(d, events + [e]) == Apply(ApplyAll(d, events), e)
  {
    assert (events + [e])[..|events|] == events;
  }

  /** A newly mapped dryer without an open session. */
  const MAPPED := Dryer(Idle, None, None, Closed, 0, 0, 0)

  // ----- Reading the list of states -----

  /** The reported text, if it is one. */
  predicate Reports(e: DryerEvent, text: string) {
    e.Reported? && Value(e.state, RunStateField("currentState")) == Some(Text(text))
  }

  predicate ReportsOccupied(e: DryerEvent) {
    Reports(e, "RUNNING") || Reports(e, "DETECTING") || Reports(e, "COOLING") || Reports(e, "PAUSE")
  }

  predicate ReportsVacant(e: DryerEvent) {
    || Reports(e, "END") || Reports(e, "POWER_OFF") || Reports(e, "SLEEP") || Reports(e, "INITIAL")
    || Reports(e, "WRINKLE_CARE")
  }

  /** The lifecycle-significant states of the list: true for occupied, false for vacant. */
  function Significant(events: seq<DryerEvent>): seq<bool> {
    if events == [] then []
    else
      var rest, last := Significant(events[..|events| - 1]), events[|events| - 1];
      if ReportsOccupied(last) then rest + [true] else if ReportsVacant(last) then rest + [false] else rest
  }

  /** The named states are the ones the status is read from. */
  lemma StatusIsRead(e: DryerEvent)
    requires e.Reported?
    ensures ReportsOccupied(e) <==> StatusOf(CurrentState(e.state)) == Some(Dry)
    ensures ReportsVacant(e) <==> StatusOf(CurrentState(e.state)) == Some(Idle)
  {
    hide Value;
  }

  /** The sequence is taken to start from false. */
  function Prior(occupied: seq<bool>, i: int): bool
    requires 0 <= i <= |occupied|
  {
    i > 0 && occupied[i - 1]
  }

  /** Positions where the sequence turns from `!to` to `to`. */
  function Turns(occupied: seq<bool>, to: bool): set<int> {
    set i | 0 <= i < |occupied| && occupied[i] == to && Prior(occupied, i) != to
  }

  /** The state reported last before position `i`. */
  function ReportedBefore(events: seq<DryerEvent>, i: int): Option<string>
    requires 0 <= i <= |events|
  {
    if i == 0 then None
    else if events[i - 1].Reported? then CurrentState(events[i - 1].state)
    else ReportedBefore(events, i - 1)
  }

  /** Entries into ERROR while a registered session is open. */
  function ErrorEntries(events: seq<DryerEvent>): set<int> {
    set i | 0 <= i < |events| && EntersError(events, i)
  }

  predicate EntersError(events: seq<DryerEvent>, i: int)
    requires 0 <= i < |events|
  {
    && events[i].Reported? && CurrentState(events[i].state) == Some("ERROR")
    && ReportedBefore(events, i) != Some("ERROR")
    && Registered(ApplyAll(MAPPED, events[..i]).session)
  }

  predicate Registered(session: Session) { session.Open? && session.user.Some? }

  /** The last significant state is an occupied one. */
  predicate Occupied(events: seq<DryerEvent>) { Prior(Significant(events), |Significant(events)|) }

  /** A set that gains one element, or none, gains one in size, or none. */
  lemma SizeGrows(smaller: set<int>, larger: set<int>, x: int, gained: bool)
    requires x !in smaller && forall i :: i in larger <==> i in smaller || (gained && i == x)
    ensures |larger| == |smaller| + (if gained then 1 else 0)
  {
    var expected := smaller + (if gained then {x} else {});
    forall i ensures i in larger <==> i in expected {
    }
    assert larger == expected;
  }

  lemma TurnsPush(occupied: seq<bool>, b: bool, to: bool)
    ensures |Turns(occupied + [b], to)| ==
            |Turns(occupied, to)| + (if b == to && Prior(occupied, |occupied|) != to then 1 else 0)
  {
    var longer, last := occupied + [b], |occupied|;
    var gained := b == to && Prior(occupied, last) != to;
    forall i ensures i in Turns(longer, to) <==> i in Turns(occupied, to) || (gained && i == last) {
      if 0 <= i < last { assert longer[i] == occupied[i] && Prior(longer, i) == Prior(occupied, i); }
    }
    hide Turns;
    assert last !in Turns(occupied, to) by { TurnsAreInside(occupied, to); }
    SizeGrows(Turns(occupied, to), Turns(longer, to), last, gained);
  }

  lemma TurnsAreInside(occupied: seq<bool>, to: bool)
    ensures forall i :: i in Turns(occupied, to) ==> 0 <= i < |occupied|
  {
  }

  lemma ReportedBeforePrefix(events: seq<DryerEvent>, longer: seq<DryerEvent>, i: int)
    requires 0 <= i <= |events| && events <= longer
    ensures ReportedBefore(longer, i) == ReportedBefore(events, i)
  {
  }

  lemma EntersErrorPrefix(events: seq<DryerEvent>, longer: seq<DryerEvent>, i: int)
    requires 0 <= i < |events| && events <= longer
    ensures EntersError(longer, i) <==> EntersError(events, i)
  {
    ReportedBeforePrefix(events, longer, i);
    assert longer[..i] == events[..i];
    hide ReportedBefore, ApplyAll, CurrentState, Registered;
  }

  lemma ErrorEntriesPush(events: seq<DryerEvent>)
    requires events != []
    ensures |ErrorEntries(events)| == |ErrorEntries(events[..|events| - 1])| + (if EntersError(events, |events| - 1) then 1 else 0)
  {
    var front, last := events[..|events| - 1], |events| - 1;
    forall i | 0 <= i < last ensures EntersError(events, i) <==> EntersError(front, i) {
      EntersErrorPrefix(front, events, i);
    }
    hide EntersError;
    SizeGrows(ErrorEntries(front), ErrorEntries(events), last, EntersError(events, last));
  }

  /**
   For any list of states applied serially: a session is open, and the machine shows DRY, exactly when
   the last lifecycle-significant state is an occupied one; sessions created and finished are the rises
   and falls of the significant states; error alerts are the entries into ERROR while a registered
   session is open, however often ERROR is then repeated.
   */
  lemma {:induction false} SessionFollowsStates(events: seq<DryerEvent>)
    ensures
      var d := ApplyAll(MAPPED, events);
      && (d.session.Open? <==> Occupied(events))
      && (d.status.Dry? <==> Occupied(events))
      && d.created == |Turns(Significant(events), true)|
      && d.finished == |Turns(Significant(events), false)|
      && d.alerts == |ErrorEntries(events)|
      && d.currentState == ReportedBefore(events, |events|)
  {
    if events != [] {
      var front, last := events[..|events| - 1], events[|events| - 1];
      SessionFollowsStates(front);
      ErrorEntriesPush(events);
      ReportedBeforePrefix(front, events, |front|);
      if last.Reported? { StatusIsRead(last); }
      hide Turns, ErrorEntries, CurrentState, StatusOf, ReportsOccupied, ReportsVacant;
      if last.Reported? && StatusOf(CurrentState(last.state)).Some? {
        var b := StatusOf(CurrentState(last.state)).value.Dry?;
        TurnsPush(Significant(front), b, true);
        TurnsPush(Significant(front), b, false);
        ErrorIsNotSignificant();
      } else {
        assert !last.Reported? ==> Significant(events) == Significant(front) by { OnlyReportsMatter(last); }
      }
    }
  }

  lemma OnlyReportsMatter(e: DryerEvent)
    ensures !e.Reported? ==> !ReportsOccupied(e) && !ReportsVacant(e)
  {
  }

  lemma ErrorIsNotSignificant()
    ensures StatusOf(Some("ERROR")) == None
  {
  }

  /**
   What one state does, by the name it reports: an occupied one shows DRY with a session open, a vacant one
   IDLE with none, and any other leaves both.  An ERROR that was not there before alerts a registered user.
   */
  lemma StateOutcome(d: Dryer, state: DryerState)
    ensures
      var d', e := UpdateState(d, state), Reported(state);
      && (ReportsOccupied(e) ==>
            && d'.status == Dry && d'.session == (if d.session == Closed then Open(None) else d.session)
            && d'.created == d.created + (if d.session == Closed then 1 else 0)
            && d'.finished == d.finished && d'.alerts == d.alerts)
      && (ReportsVacant(e) ==>
            && d'.status == Idle && d'.session == Closed
            && d'.finished == d.finished + (if d.session == Closed then 0 else 1)
            && d'.created == d.created && d'.alerts == d.alerts)
      && (!ReportsOccupied(e) && !ReportsVacant(e) ==>
            && d'.status == d.status && d'.session == d.session && d'.created == d.created && d'.finished == d.finished)
      && (Reports(e, "ERROR") ==>
            d'.alerts == d.alerts + (if d.currentState != Some("ERROR") && d.session.Open? && d.session.user != None then 1 else 0))
      && (!Reports(e, "ERROR") ==> d'.alerts == d.alerts)
      && (forall text :: d'.currentState == Some(text) <==> Reports(e, text))
      && (forall v :: d'.remainingMinutes == Some(v) <==> ReportsMinutes(state, v))
  {
    StatusIsRead(Reported(state));
    ErrorIsNotSignificant();
    forall v { MinutesAreExact(state, v); }
    hide Value, StatusOf, ReportsOccupied, ReportsVacant, RemainingMinutes, ReportsMinutes;
  }

  /** Registering takes a session that is nobody's or the user's own, unlinking gives up only one's own. */
  lemma UserOutcome(d: Dryer, user: Id)
    ensures Apply(d, Register(user)) == if d.session == Open(None) then d.(session := Open(Some(user))) else d
    ensures Apply(d, Unlink(user)) == if d.session == Open(Some(user)) then d.(session := Open(None)) else d
  {
  }

  /**
   The remaining minutes are exactly the reported whole hours and minutes, if they form a time that fits
   the column; while detecting the load there are none, never "0 minutes left".
   */
  lemma MinutesAreExact(state: DryerState, v: int)
    ensures RemainingMinutes(state) == Some(v) <==> ReportsMinutes(state, v)
  {
    hide Value;
  }

  predicate ReportsMinutes(state: DryerState, v: int) {
    && !Reports(Reported(state), "DETECTING")
    && 0 <= v <= 2_147_483_647
    && Value(state, TimerField("remainHour")) == Some(Integer(v / 60))
    && Value(state, TimerField("remainMinute")) == Some(Integer(v % 60))
  }
}
