/**
 Subscribing to a full laundry room against announcing a free machine
 (src/notification/notification.service.ts:42-96, 157-200; src/machine/machine.service.ts:388-431, 661-692).

 Any number of creates, finishing sessions, admin patches and takers run interleaved, one database call
 or push batch per step; any call may fail.  A push batch settles in one step, in which an arbitrary
 part of the snapshot is reached and the rest rejected.
 */
module LaundryRoom {
  import opened Options

  type Id = nat
  type Room = nat

  datatype Machine = Machine(room: Room, deleted: bool, enabled: bool, busy: bool)

  datatype Subscription = Subscription(user: Id, room: Room)

  /** One run of `notifyLaundryRoomAvailable` with what leads up to it. */
  datatype Notifier =
    | Patching(machine: Id, wasEnabled: bool, enable: Option<bool>)  // an admin patch that has read the machine
    | SessionClosed(machine: Id)                                   // finish committed, awaits `getMachine`
    | Reading(room: Room)                                          // awaits `getLaundryRoomSubscribers`
    | Counting(room: Room, snapshot: set<Id>)                      // awaits `countAvailableMachines`
    | Sending(room: Room, snapshot: set<Id>)                       // awaits the pushes
    | Deleting(told: set<Id>, refused: set<Id>)                    // awaits the deletion of the told rows
    | Finished(refused: set<Id>)
    | Died                                                         // one of its calls failed

  /** One run of `createLaundryRoomSubscription`. */
  datatype Creator =
    | Checking(user: Id, room: Room)
    | Inserting(user: Id, room: Room)
    | Rechecking(room: Room, row: Id)
    | Withdrawing(row: Id)
    | Subscribed(row: Id)
    | AlreadyAvailable
    | Failed

  datatype State = State(
    machines: map<Id, Machine>,
    rows: map<Id, Subscription>,
    notifiers: map<Id, Notifier>,
    creators: map<Id, Creator>,
    next: Id,                      // fresh uuid for the next machine, row or run
    // History.
    riser: map<Id, Id>,            // the run that announces a machine's latest rise, if any does
    promised: set<Id>,             // rows for which a create has returned success
    waiting: set<Id>,              // ... and that have since neither been told, withdrawn nor unsubscribed
    reached: map<Id, set<Id>>)     // per run, the rows whose pushes were fulfilled

  datatype Event =
    | CreateMachine(room: Room)
    | DeleteMachine(machine: Id)
    | StartUse(machine: Id)
    | FinishUse(machine: Id)
    | PatchRead(machine: Id, enable: Option<bool>)   // None leaves `isAvailable` as it is
    | PatchWrite(n: Id)
    | MachineRead(n: Id, ok: bool)
    | SubscribersRead(n: Id, ok: bool)
    | Counted(n: Id, ok: bool)
    | Settled(n: Id, told: set<Id>)
    | RowsDeleted(n: Id, ok: bool)
    | Subscribe(user: Id, room: Room)
    | Checked(c: Id, ok: bool)
    | Upserted(c: Id, ok: bool, row: Id)   // `row` is the row found by the upsert, if any
    | Rechecked(c: Id, ok: bool)
    | Withdrawn(c: Id, ok: bool)
    | Unsubscribe(user: Id, room: Room)

  // ----- Reads -----

  /** `AVAILABLE_MACHINE_WHERE` (libs/database/src/repositories/machine.repository.ts:32-37). */
  predicate IsFree(machine: Machine) { !machine.deleted && machine.enabled && !machine.busy }

  predicate FreeIn(s: State, m: Id, room: Room) {
    m in s.machines && s.machines[m].room == room && IsFree(s.machines[m])
  }

  function CountAvailable(s: State, room: Room): nat {
    |set m | m in s.machines && FreeIn(s, m, room)|
  }

  function RowsOf(s: State, room: Room): set<Id> {
    set r | r in s.rows && s.rows[r].room == room
  }

  function RowsOfUser(s: State, user: Id, room: Room): set<Id> {
    set r | r in s.rows && s.rows[r] == Subscription(user, room)
  }

  predicate Exists(s: State, m: Id) { m in s.machines && !s.machines[m].deleted }

  // ----- Steps -----

  function SetMachine(s: State, m: Id, machine: Machine): State {
    s.(machines := s.machines[m := machine])
  }

  function SetNotifier(s: State, n: Id, pc: Notifier): State {
    s.(notifiers := s.notifiers[n := pc])
  }

  function SetCreator(s: State, c: Id, pc: Creator): State {
    s.(creators := s.creators[c := pc])
  }

  function OnFinishUse(s: State, m: Id): State {
    if !Exists(s, m) || !s.machines[m].busy then s
    else
      var s' := SetNotifier(SetMachine(s, m, s.machines[m].(busy := false)), s.next, SessionClosed(m)).(next := s.next + 1);
      if s.machines[m].enabled then s'.(riser := s.riser[m := s.next]) else s'
  }

  /** The patch is announced when the machine it read was disabled, not when it makes one free. */
  function OnPatchWrite(s: State, n: Id, pc: Notifier): State
    requires pc.Patching?
  {
    var m := pc.machine;
    if !Exists(s, m) then SetNotifier(s, n, Died)
    else
      var patched := s.machines[m].(enabled := if pc.enable.Some? then pc.enable.value else s.machines[m].enabled);
      var announces := !pc.wasEnabled && patched.enabled;
      var s' := SetNotifier(SetMachine(s, m, patched), n, if announces then Reading(patched.room) else Finished({}));
      if IsFree(s.machines[m]) || !IsFree(patched) then s'
      else if announces then s'.(riser := s.riser[m := n])
      else s'.(riser := s.riser - {m})
  }

  /** Where an announcing run stands after its awaited call has returned or failed. */
  function NotifierNext(s: State, e: Event, pc: Notifier): Notifier {
    match (e, pc)
    case (MachineRead(_, ok), SessionClosed(m)) =>
      if !ok then Died else if !Exists(s, m) then Finished({}) else Reading(s.machines[m].room)
    case (SubscribersRead(_, ok), Reading(room)) =>
      if !ok then Died
      else if RowsOf(s, room) == {} then Finished({})
      else Counting(room, RowsOf(s, room))
    case (Counted(_, ok), Counting(room, snapshot)) =>
      if !ok then Died else if CountAvailable(s, room) == 0 then Finished({}) else Sending(room, snapshot)
    case (Settled(_, told), Sending(room, snapshot)) => Deleting(told * snapshot, snapshot - told)
    case (RowsDeleted(_, ok), Deleting(told, refused)) => if ok then Finished(refused) else Died
    case _ => pc
  }

  function OnNotifier(s: State, e: Event, n: Id, pc: Notifier): State {
    var pc' := NotifierNext(s, e, pc);
    SetNotifier(s, n, pc').(
    rows := if pc.Deleting? && pc'.Finished? then s.rows - pc.told else s.rows,
    waiting := if pc.Sending? && e.Settled? then s.waiting - e.told * pc.snapshot else s.waiting,
    reached := if pc.Sending? && e.Settled? then s.reached[n := e.told] else s.reached)
  }

  /** Where a create stands after its awaited call; the upsert keeps an existing row with its uuid. */
  function CreatorNext(s: State, e: Event, pc: Creator): Creator {
    match (e, pc)
    case (Checked(_, ok), Checking(user, room)) =>
      if !ok then Failed else if CountAvailable(s, room) > 0 then AlreadyAvailable else Inserting(user, room)
    case (Upserted(_, ok, row), Inserting(user, room)) =>
      if !ok then Failed
      else if RowsOfUser(s, user, room) == {} then Rechecking(room, s.next)
      else if row in RowsOfUser(s, user, room) then Rechecking(room, row)
      else pc
    case (Rechecked(_, ok), Rechecking(room, row)) =>
      if !ok then Failed else if CountAvailable(s, room) > 0 then Withdrawing(row) else Subscribed(row)
    case (Withdrawn(_, ok), Withdrawing(row)) => if ok then AlreadyAvailable else Failed
    case _ => pc
  }

  function OnCreator(s: State, e: Event, c: Id, pc: Creator): State {
    var pc' := CreatorNext(s, e, pc);
    var s' := SetCreator(s, c, pc');
    if pc.Inserting? && pc' == Rechecking(pc.room, s.next) then
      s'.(rows := s.rows[s.next := Subscription(pc.user, pc.room)], next := s.next + 1)
    else if pc.Rechecking? && pc'.Subscribed? then
      s'.(promised := s.promised + {pc.row}, waiting := s.waiting + {pc.row})
    else if pc.Withdrawing? && pc'.AlreadyAvailable? then
      s'.(rows := s.rows - {pc.row}, waiting := s.waiting - {pc.row})
    else s'
  }

  function Step(s: State, e: Event): State {
    match e
    case CreateMachine(room) =>
      SetMachine(s, s.next, Machine(room, false, true, false)).(riser := s.riser - {s.next}, next := s.next + 1)
    case DeleteMachine(m) => if Exists(s, m) then SetMachine(s, m, s.machines[m].(deleted := true)) else s
    case StartUse(m) => if Exists(s, m) then SetMachine(s, m, s.machines[m].(busy := true)) else s
    case FinishUse(m) => OnFinishUse(s, m)
    case PatchRead(m, enable) =>
      if !Exists(s, m) then s
      else SetNotifier(s, s.next, Patching(m, s.machines[m].enabled, enable)).(next := s.next + 1)
    case Subscribe(user, room) => SetCreator(s, s.next, Checking(user, room)).(next := s.next + 1)
    case Unsubscribe(user, room) =>
      var gone := RowsOfUser(s, user, room);
      s.(rows := s.rows - gone, waiting := s.waiting - gone)
    case Checked(c, _) => if c in s.creators then OnCreator(s, e, c, s.creators[c]) else s
    case Upserted(c, _, _) => if c in s.creators then OnCreator(s, e, c, s.creators[c]) else s
    case Rechecked(c, _) => if c in s.creators then OnCreator(s, e, c, s.creators[c]) else s
    case Withdrawn(c, _) => if c in s.creators then OnCreator(s, e, c, s.creators[c]) else s
    case PatchWrite(n) => if n in s.notifiers && s.notifiers[n].Patching? then OnPatchWrite(s, n, s.notifiers[n]) else s
    case MachineRead(n, _) => if n in s.notifiers then OnNotifier(s, e, n, s.notifiers[n]) else s
    case SubscribersRead(n, _) => if n in s.notifiers then OnNotifier(s, e, n, s.notifiers[n]) else s
    case Counted(n, _) => if n in s.notifiers then OnNotifier(s, e, n, s.notifiers[n]) else s
    case Settled(n, _) => if n in s.notifiers then OnNotifier(s, e, n, s.notifiers[n]) else s
    case RowsDeleted(n, _) => if n in s.notifiers then OnNotifier(s, e, n, s.notifiers[n]) else s
  }

  function Run(s: State, events: seq<Event>): State
    decreases events
  {
    if events == [] then s else Run(Step(s, events[0]), events[1..])
  }

  /** A service over existing machines: nothing subscribed, nothing running, nothing to announce. */
  function Opened(machines: map<Id, Machine>, next: Id): State {
    State(machines, map[], map[], map[], next, map[], {}, {}, map[])
  }

  // ----- No lost wakeup -----

  /**
   What the run announcing machine `m` of `room` still owes row `r`: it has yet to read the subscribers,
   or holds the row and has not finished, or the row's push was rejected, or one of its calls failed.
   */
  predicate Covers(pc: Notifier, m: Id, room: Room, r: Id) {
    match pc
    case Patching(_, _, _) => false
    case SessionClosed(machine) => machine == m
    case Reading(at) => at == room
    case Counting(at, snapshot) => at == room && r in snapshot
    case Sending(at, snapshot) => at == room && r in snapshot
    case Deleting(told, refused) => r in told || r in refused
    case Finished(refused) => r in refused
    case Died => true
  }

  /** `m` is free, its rise was announced, and a create returned success for row `r` of its room. */
  predicate Owed(s: State, m: Id, r: Id) {
    r in s.rows && r in s.promised && FreeIn(s, m, s.rows[r].room) && m in s.riser
  }

  predicate CoveredBy(s: State, m: Id, r: Id)
    requires Owed(s, m, r)
  {
    s.riser[m] in s.notifiers && Covers(s.notifiers[s.riser[m]], m, s.rows[r].room, r)
  }

  ghost predicate NoLostWakeup(s: State) {
    forall m, r :: Owed(s, m, r) ==> CoveredBy(s, m, r)
  }

  ghost predicate Fresh(s: State) {
    && (forall m :: m in s.machines ==> m < s.next)
    && (forall r :: r in s.rows ==> r < s.next)
    && (forall n :: n in s.notifiers ==> n < s.next)
    && (forall c :: c in s.creators ==> c < s.next)
    && (forall r :: r in s.promised ==> r < s.next)
    && (forall c :: c in s.creators ==> CreatorOk(s, s.creators[c]))
  }

  predicate CreatorOk(s: State, pc: Creator) {
    pc.Rechecking? ==> pc.row < s.next && (pc.row in s.rows ==> s.rows[pc.row].room == pc.room)
  }

  // ----- What the larger steps leave alone -----

  lemma CreatorFrame(s: State, e: Event, c: Id)
    requires c in s.creators
    ensures
      var s' := OnCreator(s, e, c, s.creators[c]);
      && s'.machines == s.machines && s'.notifiers == s.notifiers && s'.riser == s.riser && s'.reached == s.reached
      && s'.creators == s.creators[c := CreatorNext(s, e, s.creators[c])] && s.next <= s'.next
  {
    CreatorMoves(s, e, c);
    CreatorSpares(s, e, c);
    hide OnCreator, CreatorNext;
  }

  lemma CreatorMoves(s: State, e: Event, c: Id)
    requires c in s.creators
    ensures OnCreator(s, e, c, s.creators[c]).creators == s.creators[c := CreatorNext(s, e, s.creators[c])]
    ensures s.next <= OnCreator(s, e, c, s.creators[c]).next
  {
    hide CreatorNext;
  }

  lemma CreatorSpares(s: State, e: Event, c: Id)
    requires c in s.creators
    ensures
      var s' := OnCreator(s, e, c, s.creators[c]);
      s'.machines == s.machines && s'.notifiers == s.notifiers && s'.riser == s.riser && s'.reached == s.reached
  {
    hide CreatorNext;
  }

  lemma NotifierFrame(s: State, e: Event, n: Id)
    requires n in s.notifiers
    ensures
      var s' := OnNotifier(s, e, n, s.notifiers[n]);
      && s'.machines == s.machines && s'.creators == s.creators && s'.riser == s.riser && s'.promised == s.promised
      && s'.next == s.next && s'.notifiers == s.notifiers[n := NotifierNext(s, e, s.notifiers[n])]
      && s'.reached == if s.notifiers[n].Sending? && e.Settled? then s.reached[n := e.told] else s.reached
  {
    hide NotifierNext;
  }

  lemma PatchFrame(s: State, n: Id)
    requires n in s.notifiers && s.notifiers[n].Patching?
    ensures
      var s' := OnPatchWrite(s, n, s.notifiers[n]);
      && s' == s.(machines := s'.machines, notifiers := s'.notifiers, riser := s'.riser)
      && n in s'.notifiers && s'.notifiers == s.notifiers[n := s'.notifiers[n]]
      && (s'.notifiers[n].Died? || s'.notifiers[n].Reading? || s'.notifiers[n] == Finished({}))
  {
    hide IsFree;
  }

  lemma FinishFrame(s: State, m: Id)
    ensures
      var s' := OnFinishUse(s, m);
      && s' == s.(machines := s'.machines, notifiers := s'.notifiers, riser := s'.riser, next := s'.next)
      && (s' == s || s'.notifiers == s.notifiers[s.next := SessionClosed(m)])
  {
  }

  lemma NotifierStepKeepsFresh(s: State, e: Event, n: Id)
    requires Fresh(s) && n in s.notifiers
    ensures Fresh(OnNotifier(s, e, n, s.notifiers[n]))
  {
    hide NotifierNext;
    var s' := OnNotifier(s, e, n, s.notifiers[n]);
    forall c | c in s'.creators ensures CreatorOk(s', s'.creators[c]) {
      assert CreatorOk(s, s.creators[c]);
    }
  }

  lemma PatchStepKeepsFresh(s: State, n: Id)
    requires Fresh(s) && n in s.notifiers && s.notifiers[n].Patching?
    ensures Fresh(OnPatchWrite(s, n, s.notifiers[n]))
  {
    hide IsFree;
    var s' := OnPatchWrite(s, n, s.notifiers[n]);
    forall c | c in s'.creators ensures CreatorOk(s', s'.creators[c]) {
      assert CreatorOk(s, s.creators[c]);
    }
  }

  lemma UpsertedRowIsInRoom(s: State, e: Event, pc: Creator)
    requires CreatorOk(s, pc) && Fresh(s)
    ensures
      var pc' := CreatorNext(s, e, pc);
      pc'.Rechecking? ==> CreatorOk(s, pc') || (pc.Inserting? && pc' == Rechecking(pc.room, s.next))
  {
    hide CountAvailable;
  }

  lemma CreatorStepKeepsFresh(s: State, e: Event, c: Id)
    requires Fresh(s) && c in s.creators
    ensures Fresh(OnCreator(s, e, c, s.creators[c]))
  {
    var pc := s.creators[c];
    UpsertedRowIsInRoom(s, e, pc);
    CreatorFrame(s, e, c);
    CreatorRows(s, e, c);
    hide CreatorNext, OnCreator;
    var s' := OnCreator(s, e, c, pc);
    forall k | k in s'.creators ensures CreatorOk(s', s'.creators[k]) {
      assert k != c ==> CreatorOk(s, s.creators[k]);
    }
  }

  lemma CreatorRows(s: State, e: Event, c: Id)
    requires c in s.creators
    ensures
      var pc, pc', s' := s.creators[c], CreatorNext(s, e, s.creators[c]), OnCreator(s, e, c, s.creators[c]);
      && (pc.Inserting? && pc' == Rechecking(pc.room, s.next) ==>
            s'.rows == s.rows[s.next := Subscription(pc.user, pc.room)] && s'.next == s.next + 1)
      && (!(pc.Inserting? && pc' == Rechecking(pc.room, s.next)) ==>
            s'.next == s.next && forall r :: r in s'.rows ==> r in s.rows && s'.rows[r] == s.rows[r])
      && (forall r :: r in s'.promised ==> r in s.promised || (pc.Rechecking? && r == pc.row))
  {
    hide CreatorNext;
  }

  lemma OtherStepKeepsFresh(s: State, e: Event)
    requires Fresh(s)
    requires e.CreateMachine? || e.DeleteMachine? || e.StartUse? || e.FinishUse? || e.PatchRead? || e.Subscribe? || e.Unsubscribe?
    ensures Fresh(Step(s, e))
  {
    if e.FinishUse? {
      FinishKeepsFresh(s, e.machine);
      hide OnFinishUse, Fresh;
    } else {
      var s' := Step(s, e);
      hide OnFinishUse;
      forall c | c in s'.creators ensures CreatorOk(s', s'.creators[c]) {
        assert c in s.creators ==> CreatorOk(s, s.creators[c]);
      }
    }
  }

  lemma FinishKeepsFresh(s: State, m: Id)
    requires Fresh(s)
    ensures Fresh(OnFinishUse(s, m))
  {
    var s' := OnFinishUse(s, m);
    forall c | c in s'.creators ensures CreatorOk(s', s'.creators[c]) {
      assert CreatorOk(s, s.creators[c]);
    }
  }

  lemma StepKeepsFresh(s: State, e: Event)
    requires Fresh(s)
    ensures Fresh(Step(s, e))
  {
    hide Fresh, OnNotifier, OnCreator, OnFinishUse, OnPatchWrite;
    match e {
      case PatchWrite(n) => if n in s.notifiers && s.notifiers[n].Patching? { PatchStepKeepsFresh(s, n); }
      case MachineRead(n, _) => if n in s.notifiers { NotifierStepKeepsFresh(s, e, n); }
      case SubscribersRead(n, _) => if n in s.notifiers { NotifierStepKeepsFresh(s, e, n); }
      case Counted(n, _) => if n in s.notifiers { NotifierStepKeepsFresh(s, e, n); }
      case Settled(n, _) => if n in s.notifiers { NotifierStepKeepsFresh(s, e, n); }
      case RowsDeleted(n, _) => if n in s.notifiers { NotifierStepKeepsFresh(s, e, n); }
      case Checked(c, _) => if c in s.creators { CreatorStepKeepsFresh(s, e, c); }
      case Upserted(c, _, _) => if c in s.creators { CreatorStepKeepsFresh(s, e, c); }
      case Rechecked(c, _) => if c in s.creators { CreatorStepKeepsFresh(s, e, c); }
      case Withdrawn(c, _) => if c in s.creators { CreatorStepKeepsFresh(s, e, c); }
      case _ => OtherStepKeepsFresh(s, e);
    }
  }

  lemma AvailableMeansFree(s: State, room: Room)
    ensures CountAvailable(s, room) == 0 <==> forall m :: !FreeIn(s, m, room)
  {
    var free := set m | m in s.machines && FreeIn(s, m, room);
    if m :| FreeIn(s, m, room) {
      assert m in free;
    } else {
      assert free == {};
    }
  }

  /** Machines rise only through a run that has yet to read the subscribers, or unannounced. */
  lemma MachineStepKeeps(s: State, e: Event)
    requires Fresh(s) && NoLostWakeup(s)
    requires e.CreateMachine? || e.DeleteMachine? || e.StartUse? || e.FinishUse?
    ensures NoLostWakeup(Step(s, e))
  {
    if e.FinishUse? {
      FinishStepKeeps(s, e.machine);
      hide OnFinishUse;
    } else {
      var s' := Step(s, e);
      hide OnFinishUse;
      forall m, r | Owed(s', m, r) ensures CoveredBy(s', m, r) {
        assert Owed(s, m, r) && CoveredBy(s, m, r);
      }
    }
  }

  lemma FinishStepKeeps(s: State, k: Id)
    requires Fresh(s) && NoLostWakeup(s)
    ensures NoLostWakeup(OnFinishUse(s, k))
  {
    var s' := OnFinishUse(s, k);
    forall m, r | Owed(s', m, r) ensures CoveredBy(s', m, r) {
      assert m != k || !Exists(s, k) || !s.machines[k].busy ==> Owed(s, m, r) && CoveredBy(s, m, r);
    }
  }

  lemma PatchStepKeeps(s: State, n: Id)
    requires Fresh(s) && NoLostWakeup(s) && n in s.notifiers && s.notifiers[n].Patching?
    ensures NoLostWakeup(OnPatchWrite(s, n, s.notifiers[n]))
  {
    var s' := OnPatchWrite(s, n, s.notifiers[n]);
    forall m, r | Owed(s', m, r) ensures CoveredBy(s', m, r) {
      if s'.riser[m] != n {
        assert Owed(s, m, r);
      } else if m in s.riser && s.riser[m] == n {
        assert !Owed(s, m, r) || CoveredBy(s, m, r);
      }
    }
  }

  /** Reading takes every row of the room, and counting cannot miss the free machine. */
  lemma NotifierStepKeeps(s: State, e: Event, n: Id)
    requires Fresh(s) && NoLostWakeup(s) && n in s.notifiers
    ensures NoLostWakeup(OnNotifier(s, e, n, s.notifiers[n]))
  {
    var pc, s' := s.notifiers[n], OnNotifier(s, e, n, s.notifiers[n]);
    forall m, r | Owed(s', m, r) ensures CoveredBy(s', m, r) {
      assert Owed(s, m, r) && CoveredBy(s, m, r);
      if s.riser[m] == n { StillCovers(s, e, pc, m, r); }
    }
  }

  lemma StillCovers(s: State, e: Event, pc: Notifier, m: Id, r: Id)
    requires Owed(s, m, r) && Covers(pc, m, s.rows[r].room, r)
    ensures
      var pc' := NotifierNext(s, e, pc);
      (pc.Deleting? && pc'.Finished? && r in pc.told) || Covers(pc', m, s.rows[r].room, r)
  {
    AvailableMeansFree(s, s.rows[r].room);
    assert r in RowsOf(s, s.rows[r].room);
  }

  /** A row is promised only while no machine of its room is free. */
  lemma CreatorStepKeeps(s: State, e: Event, c: Id)
    requires Fresh(s) && NoLostWakeup(s) && c in s.creators
    ensures NoLostWakeup(OnCreator(s, e, c, s.creators[c]))
  {
    var pc, s' := s.creators[c], OnCreator(s, e, c, s.creators[c]);
    assert CreatorOk(s, pc);
    if pc.Rechecking? { AvailableMeansFree(s, pc.room); }
    assert pc.Rechecking? && CreatorNext(s, e, pc).Subscribed? ==> forall m :: !FreeIn(s, m, pc.room);
    hide CountAvailable, CreatorNext;
    forall m, r | Owed(s', m, r) ensures CoveredBy(s', m, r) {
      assert r in s.rows;
      assert FreeIn(s, m, s.rows[r].room);
      assert Owed(s, m, r);
    }
  }

  lemma QuietStepKeeps(s: State, e: Event)
    requires Fresh(s) && NoLostWakeup(s) && (e.PatchRead? || e.Subscribe? || e.Unsubscribe?)
    ensures NoLostWakeup(Step(s, e))
  {
    var s' := Step(s, e);
    forall m, r | Owed(s', m, r) ensures CoveredBy(s', m, r) {
      assert Owed(s, m, r);
    }
  }

  lemma StepKeepsNoLostWakeup(s: State, e: Event)
    requires Fresh(s) && NoLostWakeup(s)
    ensures NoLostWakeup(Step(s, e))
  {
    hide NoLostWakeup, Fresh, OnNotifier, OnCreator, OnFinishUse;
    match e {
      case CreateMachine(_) => MachineStepKeeps(s, e);
      case DeleteMachine(_) => MachineStepKeeps(s, e);
      case StartUse(_) => MachineStepKeeps(s, e);
      case FinishUse(_) => MachineStepKeeps(s, e);
      case PatchRead(_, _) => QuietStepKeeps(s, e);
      case Subscribe(_, _) => QuietStepKeeps(s, e);
      case Unsubscribe(_, _) => QuietStepKeeps(s, e);
      case PatchWrite(n) => PatchWriteKeeps(s, n);
      case MachineRead(n, _) => if n in s.notifiers { NotifierStepKeeps(s, e, n); }
      case SubscribersRead(n, _) => if n in s.notifiers { NotifierStepKeeps(s, e, n); }
      case Counted(n, _) => if n in s.notifiers { NotifierStepKeeps(s, e, n); }
      case Settled(n, _) => if n in s.notifiers { NotifierStepKeeps(s, e, n); }
      case RowsDeleted(n, _) => if n in s.notifiers { NotifierStepKeeps(s, e, n); }
      case Checked(c, _) => if c in s.creators { CreatorStepKeeps(s, e, c); }
      case Upserted(c, _, _) => if c in s.creators { CreatorStepKeeps(s, e, c); }
      case Rechecked(c, _) => if c in s.creators { CreatorStepKeeps(s, e, c); }
      case Withdrawn(c, _) => if c in s.creators { CreatorStepKeeps(s, e, c); }
    }
  }

  lemma PatchWriteKeeps(s: State, n: Id)
    requires Fresh(s) && NoLostWakeup(s)
    ensures NoLostWakeup(Step(s, PatchWrite(n)))
  {
    hide NoLostWakeup, Fresh, OnPatchWrite;
    if n in s.notifiers && s.notifiers[n].Patching? { PatchStepKeeps(s, n); }
  }

  lemma {:induction false} RunKeepsNoLostWakeup(s: State, events: seq<Event>)
    requires Fresh(s) && NoLostWakeup(s)
    ensures Fresh(Run(s, events)) && NoLostWakeup(Run(s, events))
    decreases events
  {
    hide Fresh, NoLostWakeup, Step;
    if events != [] {
      StepKeepsFresh(s, events[0]);
      StepKeepsNoLostWakeup(s, events[0]);
      RunKeepsNoLostWakeup(Step(s, events[0]), events[1..]);
    }
  }

  /**
   The general form, in every interleaving and with any calls failing: when a room has a free machine and
   a row whose create returned success, either the machine became free without an announcement (a new
   machine, or a patch that read it enabled before another disabled it), or the announcing run has yet to
   read the subscribers, or holds that row and has not finished, or the row's push was rejected, or one of
   that run's own calls failed.
   */
  lemma WakeupIsNeverLost(machines: map<Id, Machine>, next: Id, events: seq<Event>, m: Id, r: Id)
    requires forall k :: k in machines ==> k < next
    requires
      var s := Run(Opened(machines, next), events);
      r in s.rows && r in s.promised && FreeIn(s, m, s.rows[r].room)
    ensures
      var s := Run(Opened(machines, next), events);
      || m !in s.riser
      || (s.riser[m] in s.notifiers && Covers(s.notifiers[s.riser[m]], m, s.rows[r].room, r))
  {
    hide Run;
    var s0 := Opened(machines, next);
    assert NoLostWakeup(s0);
    RunKeepsNoLostWakeup(s0, events);
    var s := Run(s0, events);
    assert m in s.riser ==> Owed(s, m, r);
  }

  /** The machine is new, or enabled by a patch that had read it enabled. */
  predicate Unannounced(s: State, e: Event, m: Id) {
    || (e.CreateMachine? && m == s.next)
    || (e.PatchWrite? && e.n in s.notifiers && s.notifiers[e.n].Patching? && s.notifiers[e.n].machine == m
        && s.notifiers[e.n].wasEnabled && s.notifiers[e.n].enable == Some(true)
        && Exists(s, m) && !s.machines[m].enabled && !s.machines[m].busy)
  }

  /** The announcing run's own database calls return; its pushes may still be rejected. */
  predicate CallSucceeds(e: Event) {
    match e
    case MachineRead(_, ok) => ok
    case SubscribersRead(_, ok) => ok
    case Counted(_, ok) => ok
    case RowsDeleted(_, ok) => ok
    case _ => true
  }

  /** In every step of the run the machine rises announced and the announcing runs' calls return. */
  predicate Announced(s: State, events: seq<Event>, m: Id)
    decreases events
  {
    events == [] || (!Unannounced(s, events[0], m) && CallSucceeds(events[0]) && Announced(Step(s, events[0]), events[1..], m))
  }

  /** If the machine is free and its room has a promised row, it is being announced. */
  ghost predicate RisersKnown(s: State, m: Id) {
    forall r :: r in s.rows && r in s.promised && FreeIn(s, m, s.rows[r].room) ==> m in s.riser
  }

  /** The run announcing a machine exists, is past the write that freed it, and has not died. */
  ghost predicate RisersLive(s: State) {
    forall m :: m in s.riser ==>
      s.riser[m] in s.notifiers && !s.notifiers[s.riser[m]].Died? && !s.notifiers[s.riser[m]].Patching?
  }

  lemma MachineStepAnnounced(s: State, e: Event, m: Id)
    requires Fresh(s) && RisersKnown(s, m) && RisersLive(s)
    requires e.DeleteMachine? || e.StartUse? || e.FinishUse? || (e.CreateMachine? && m != s.next)
    ensures RisersKnown(Step(s, e), m) && RisersLive(Step(s, e))
  {
    if e.FinishUse? {
      FinishStepAnnounced(s, e.machine, m);
      hide OnFinishUse;
    } else {
      var s' := Step(s, e);
      hide OnFinishUse;
      assert forall room :: FreeIn(s', m, room) ==> FreeIn(s, m, room);
      hide FreeIn;
    }
  }

  lemma FinishStepAnnounced(s: State, k: Id, m: Id)
    requires Fresh(s) && RisersKnown(s, m) && RisersLive(s)
    ensures RisersKnown(OnFinishUse(s, k), m) && RisersLive(OnFinishUse(s, k))
  {
    var s' := OnFinishUse(s, k);
    assert forall room :: FreeIn(s', m, room) ==> FreeIn(s, m, room) || m in s'.riser;
    hide FreeIn;
  }

  lemma PatchStepAnnounced(s: State, n: Id, m: Id)
    requires RisersKnown(s, m) && RisersLive(s) && n in s.notifiers && s.notifiers[n].Patching?
    requires !Unannounced(s, PatchWrite(n), m)
    ensures RisersKnown(OnPatchWrite(s, n, s.notifiers[n]), m) && RisersLive(OnPatchWrite(s, n, s.notifiers[n]))
  {
    var s' := OnPatchWrite(s, n, s.notifiers[n]);
    forall r | r in s'.rows && r in s'.promised && FreeIn(s', m, s'.rows[r].room) ensures m in s'.riser {
      assert FreeIn(s, m, s.rows[r].room) || m == s.notifiers[n].machine;
    }
  }

  lemma NotifierStepAnnounced(s: State, e: Event, n: Id, m: Id)
    requires RisersKnown(s, m) && RisersLive(s) && n in s.notifiers && CallSucceeds(e)
    ensures RisersKnown(OnNotifier(s, e, n, s.notifiers[n]), m) && RisersLive(OnNotifier(s, e, n, s.notifiers[n]))
  {
    var pc, pc' := s.notifiers[n], NotifierNext(s, e, s.notifiers[n]);
    assert !pc.Died? && !pc.Patching? ==> !pc'.Died? && !pc'.Patching?;
    hide NotifierNext;
    var s' := OnNotifier(s, e, n, pc);
    assert forall m, room :: FreeIn(s', m, room) <==> FreeIn(s, m, room);
  }

  /** A row is promised only while no machine of its room is free. */
  lemma CreatorStepAnnounced(s: State, e: Event, c: Id, m: Id)
    requires Fresh(s) && RisersKnown(s, m) && RisersLive(s) && c in s.creators
    ensures RisersKnown(OnCreator(s, e, c, s.creators[c]), m) && RisersLive(OnCreator(s, e, c, s.creators[c]))
  {
    var pc, s' := s.creators[c], OnCreator(s, e, c, s.creators[c]);
    assert CreatorOk(s, pc);
    if pc.Rechecking? { AvailableMeansFree(s, pc.room); }
    assert pc.Rechecking? && CreatorNext(s, e, pc).Subscribed? ==> forall m :: !FreeIn(s, m, pc.room);
    hide CountAvailable, CreatorNext;
    assert forall m, room :: FreeIn(s', m, room) <==> FreeIn(s, m, room);
    hide FreeIn;
  }

  lemma QuietStepAnnounced(s: State, e: Event, m: Id)
    requires Fresh(s) && RisersKnown(s, m) && RisersLive(s) && (e.PatchRead? || e.Subscribe? || e.Unsubscribe?)
    ensures RisersKnown(Step(s, e), m) && RisersLive(Step(s, e))
  {
    assert forall m, room :: FreeIn(Step(s, e), m, room) <==> FreeIn(s, m, room);
  }

  lemma StepStaysAnnounced(s: State, e: Event, m: Id)
    requires Fresh(s) && RisersKnown(s, m) && RisersLive(s) && !Unannounced(s, e, m) && CallSucceeds(e)
    ensures RisersKnown(Step(s, e), m) && RisersLive(Step(s, e))
  {
    hide Fresh, RisersKnown, RisersLive, OnNotifier, OnCreator, OnFinishUse, OnPatchWrite, CallSucceeds;
    match e {
      case PatchRead(_, _) => QuietStepAnnounced(s, e, m);
      case Subscribe(_, _) => QuietStepAnnounced(s, e, m);
      case Unsubscribe(_, _) => QuietStepAnnounced(s, e, m);
      case PatchWrite(n) => if n in s.notifiers && s.notifiers[n].Patching? { PatchStepAnnounced(s, n, m); }
      case MachineRead(n, _) => if n in s.notifiers { NotifierStepAnnounced(s, e, n, m); }
      case SubscribersRead(n, _) => if n in s.notifiers { NotifierStepAnnounced(s, e, n, m); }
      case Counted(n, _) => if n in s.notifiers { NotifierStepAnnounced(s, e, n, m); }
      case Settled(n, _) => if n in s.notifiers { NotifierStepAnnounced(s, e, n, m); }
      case RowsDeleted(n, _) => if n in s.notifiers { NotifierStepAnnounced(s, e, n, m); }
      case Checked(c, _) => if c in s.creators { CreatorStepAnnounced(s, e, c, m); }
      case Upserted(c, _, _) => if c in s.creators { CreatorStepAnnounced(s, e, c, m); }
      case Rechecked(c, _) => if c in s.creators { CreatorStepAnnounced(s, e, c, m); }
      case Withdrawn(c, _) => if c in s.creators { CreatorStepAnnounced(s, e, c, m); }
      case _ => MachineStepAnnounced(s, e, m);
    }
  }

  lemma {:induction false} RunStaysAnnounced(s: State, events: seq<Event>, m: Id)
    requires Fresh(s) && RisersKnown(s, m) && RisersLive(s) && Announced(s, events, m)
    ensures RisersKnown(Run(s, events), m) && RisersLive(Run(s, events))
    decreases events
  {
    hide Fresh, RisersKnown, RisersLive, Step, Unannounced, CallSucceeds;
    if events != [] {
      StepKeepsFresh(s, events[0]);
      StepStaysAnnounced(s, events[0], m);
      RunStaysAnnounced(Step(s, events[0]), events[1..], m);
    }
  }

  /**
   No lost wakeup.  If a free machine has only risen announced and the announcing runs' own calls have
   returned, then in every interleaving, for every row of its room whose create returned success, some live
   run has yet to read the room's subscribers, or holds that row and has not finished, or had that row's
   push rejected.
   */
  lemma NoWakeupIsLost(machines: map<Id, Machine>, next: Id, events: seq<Event>, m: Id, r: Id)
    requires forall k :: k in machines ==> k < next
    requires Announced(Opened(machines, next), events, m)
    requires
      var s := Run(Opened(machines, next), events);
      r in s.rows && r in s.promised && FreeIn(s, m, s.rows[r].room)
    ensures
      var s := Run(Opened(machines, next), events);
      exists n :: n in s.notifiers && !s.notifiers[n].Died? && Covers(s.notifiers[n], m, s.rows[r].room, r)
  {
    var s0 := Opened(machines, next);
    assert Fresh(s0) && RisersKnown(s0, m) && RisersLive(s0);
    RunStaysAnnounced(s0, events, m);
    WakeupIsNeverLost(machines, next, events, m, r);
    hide Run, Covers;
  }

  /**
   A step makes a machine free without a run that has yet to read the subscribers exactly when it creates
   the machine or is a patch that enables a machine it had read enabled.
   */
  lemma RiseIsAnnounced(s: State, e: Event, m: Id)
    requires Fresh(s) && !(m in s.machines && IsFree(s.machines[m]))
    requires m in Step(s, e).machines && IsFree(Step(s, e).machines[m])
    ensures
      var s' := Step(s, e);
      Unannounced(s, e, m) <==>
        !exists n :: n in s'.notifiers && (n !in s.notifiers || s'.notifiers[n] != s.notifiers[n])
                     && forall r :: Covers(s'.notifiers[n], m, s'.machines[m].room, r)
  {
    OnlyTheseRaise(s, e);
    if e.FinishUse? {
      FinishIsAnnounced(s, m);
      hide Step, IsFree, Covers;
    } else if e.PatchWrite? {
      PatchIsAnnounced(s, e.n, m);
      hide OnPatchWrite, Covers;
    } else {
      hide OnCreator, OnNotifier, OnPatchWrite, OnFinishUse, Covers;
    }
  }

  lemma FinishIsAnnounced(s: State, m: Id)
    requires Fresh(s) && !(m in s.machines && IsFree(s.machines[m]))
    requires m in Step(s, FinishUse(m)).machines && IsFree(Step(s, FinishUse(m)).machines[m])
    ensures
      var s' := Step(s, FinishUse(m));
      && s.next in s'.notifiers && s.next !in s.notifiers
      && forall r :: Covers(s'.notifiers[s.next], m, s'.machines[m].room, r)
  {
  }

  lemma PatchIsAnnounced(s: State, n: Id, m: Id)
    requires n in s.notifiers && s.notifiers[n].Patching? && !(m in s.machines && IsFree(s.machines[m]))
    requires
      var s' := OnPatchWrite(s, n, s.notifiers[n]);
      m in s'.machines && IsFree(s'.machines[m])
    ensures
      var s' := OnPatchWrite(s, n, s.notifiers[n]);
      && n in s'.notifiers && s'.notifiers[n] != s.notifiers[n]
      && (forall k :: k in s'.notifiers && k != n ==> k in s.notifiers && s'.notifiers[k] == s.notifiers[k])
      && (Unannounced(s, PatchWrite(n), m) ==> !Covers(s'.notifiers[n], m, s'.machines[m].room, 0))
      && (!Unannounced(s, PatchWrite(n), m) ==> forall r :: Covers(s'.notifiers[n], m, s'.machines[m].room, r))
  {
    PatchFrame(s, n);
    PatchedMachine(s, n);
    hide OnPatchWrite;
  }

  lemma PatchedMachine(s: State, n: Id)
    requires n in s.notifiers && s.notifiers[n].Patching?
    ensures
      var pc, s' := s.notifiers[n], OnPatchWrite(s, n, s.notifiers[n]);
      && (!Exists(s, pc.machine) ==> s'.machines == s.machines)
      && (Exists(s, pc.machine) ==>
            var enabled := if pc.enable.Some? then pc.enable.value else s.machines[pc.machine].enabled;
            && s'.machines == s.machines[pc.machine := s.machines[pc.machine].(enabled := enabled)]
            && s'.notifiers[n] == if !pc.wasEnabled && enabled then Reading(s.machines[pc.machine].room) else Finished({}))
  {
    hide IsFree;
  }

  lemma OnlyTheseRaise(s: State, e: Event)
    ensures e.CreateMachine? || e.FinishUse? || e.PatchWrite? ||
            forall m :: m in Step(s, e).machines ==> m in s.machines && (IsFree(Step(s, e).machines[m]) ==> IsFree(s.machines[m]))
  {
    if Announces(e) {
      if e.n in s.notifiers { NotifierFrame(s, e, e.n); }
    } else if e.Checked? || e.Upserted? || e.Rechecked? || e.Withdrawn? {
      if e.c in s.creators { CreatorFrame(s, e, e.c); }
    }
    hide OnCreator, OnNotifier, OnPatchWrite, OnFinishUse;
  }

  // ----- Only rows whose push was fulfilled are deleted -----

  /**
   Of the rows there were when the pushes settled, the deletion removes exactly those in the snapshot whose
   push was fulfilled; the others stay and are what the run ends with.
   */
  lemma RejectedPushesKeepTheirRows(s: State, n: Id, told: set<Id>)
    requires n in s.notifiers && s.notifiers[n].Sending?
    ensures
      var snapshot, s' := s.notifiers[n].snapshot, Step(Step(s, Settled(n, told)), RowsDeleted(n, true));
      && (forall r :: r in s'.rows <==> r in s.rows && !(r in told && r in snapshot))
      && (forall r :: r in s'.rows ==> s'.rows[r] == s.rows[r])
      && n in s'.notifiers && s'.notifiers[n].Finished?
      && (forall r :: r in s'.notifiers[n].refused <==> r in snapshot && r !in told)
  {
  }

  /** What a run is about to delete has been reached, and what it holds as refused has not. */
  ghost predicate ReachedOk(s: State) {
    forall n :: n in s.notifiers && s.notifiers[n].Deleting? ==>
      n in s.reached && s.notifiers[n].told <= s.reached[n] && s.notifiers[n].refused !! s.reached[n]
  }

  lemma NotifierStepReached(s: State, e: Event, n: Id)
    requires ReachedOk(s) && n in s.notifiers
    ensures ReachedOk(OnNotifier(s, e, n, s.notifiers[n]))
  {
    var pc, pc' := s.notifiers[n], NotifierNext(s, e, s.notifiers[n]);
    assert pc'.Deleting? ==> pc' == pc || (pc.Sending? && e.Settled? && pc'.told <= e.told && pc'.refused !! e.told);
    assert pc.Sending? && e.Settled? ==> pc'.Deleting?;
    NotifierFrame(s, e, n);
    hide NotifierNext, OnNotifier;
  }

  /** The steps that reach nobody: no run starts deleting. */
  predicate ReachesNobody(s: State, s': State) {
    && s'.reached == s.reached
    && forall n :: n in s'.notifiers && s'.notifiers[n].Deleting? ==> n in s.notifiers && s'.notifiers[n] == s.notifiers[n]
  }

  lemma OtherStepReaches(s: State, e: Event)
    requires !(e.MachineRead? || e.SubscribersRead? || e.Counted? || e.Settled? || e.RowsDeleted?)
    ensures ReachesNobody(s, Step(s, e))
  {
    match e {
      case PatchWrite(n) => if n in s.notifiers && s.notifiers[n].Patching? { PatchFrame(s, n); }
      case FinishUse(m) => FinishFrame(s, m);
      case Checked(c, _) => if c in s.creators { CreatorFrame(s, e, c); }
      case Upserted(c, _, _) => if c in s.creators { CreatorFrame(s, e, c); }
      case Rechecked(c, _) => if c in s.creators { CreatorFrame(s, e, c); }
      case Withdrawn(c, _) => if c in s.creators { CreatorFrame(s, e, c); }
      case _ =>
    }
    hide OnCreator, OnNotifier, OnPatchWrite, OnFinishUse;
  }

  lemma ReachesNobodyKeeps(s: State, s': State)
    requires ReachedOk(s) && ReachesNobody(s, s')
    ensures ReachedOk(s')
  {
  }

  predicate Announces(e: Event) { e.MachineRead? || e.SubscribersRead? || e.Counted? || e.Settled? || e.RowsDeleted? }

  lemma StepKeepsReached(s: State, e: Event)
    requires ReachedOk(s)
    ensures ReachedOk(Step(s, e))
  {
    if Announces(e) {
      if e.n in s.notifiers { NotifierStepReached(s, e, e.n); }
      hide OnNotifier, ReachedOk;
    } else {
      OtherStepReaches(s, e);
      hide Step, ReachedOk, ReachesNobody;
      ReachesNobodyKeeps(s, Step(s, e));
    }
  }

  lemma StepReaches(s: State, e: Event, n: Id)
    requires n in Step(s, e).reached
    ensures (n in s.reached && Step(s, e).reached[n] == s.reached[n]) || e == Settled(n, Step(s, e).reached[n])
  {
    if Announces(e) {
      if e.n in s.notifiers { NotifierFrame(s, e, e.n); }
      hide OnNotifier;
    } else {
      OtherStepReaches(s, e);
      hide Step;
    }
  }

  lemma {:induction false} RunReaches(s: State, events: seq<Event>, n: Id)
    requires ReachedOk(s) && Fresh(s)
    ensures ReachedOk(Run(s, events))
    ensures n in Run(s, events).reached ==>
              || (n in s.reached && Run(s, events).reached[n] == s.reached[n])
              || Settled(n, Run(s, events).reached[n]) in events
    decreases events
  {
    hide Step, ReachedOk, Fresh;
    if events != [] {
      StepKeepsReached(s, events[0]);
      StepKeepsFresh(s, events[0]);
      if n in Step(s, events[0]).reached { StepReaches(s, events[0], n); }
      RunReaches(Step(s, events[0]), events[1..], n);
    }
  }

  /**
   In every run, with any steps in between: a row that an announcing run deletes is among those that its own
   pushes reached.
   */
  lemma DeletedRowsWereReached(machines: map<Id, Machine>, next: Id, events: seq<Event>, n: Id, ok: bool, r: Id)
    requires forall k :: k in machines ==> k < next
    requires
      var s := Run(Opened(machines, next), events);
      r in s.rows && r !in Step(s, RowsDeleted(n, ok)).rows
    ensures exists told :: Settled(n, told) in events && r in told
  {
    var s0 := Opened(machines, next);
    RunReaches(s0, events, n);
    hide Run;
    var s := Run(s0, events);
    assert s.notifiers[n].Deleting?;
    assert Settled(n, s.reached[n]) in events;
  }

  // ----- When is a successful subscription silently dropped? -----

  /** A run that has already pushed to the row is about to delete it. */
  ghost predicate Told(s: State, r: Id) {
    exists n :: n in s.notifiers && s.notifiers[n].Deleting? && r in s.notifiers[n].told
  }

  /** Every waiting subscription has its row, and no run is about to delete it. */
  ghost predicate Sound(s: State) {
    forall r :: r in s.waiting ==> r in s.rows && !Told(s, r)
  }

  /** A create returns success for a row that is gone or has been told already. */
  ghost predicate TooLate(s: State, e: Event) {
    && e.Rechecked? && e.ok && e.c in s.creators && s.creators[e.c].Rechecking?
    && CountAvailable(s, s.creators[e.c].room) == 0
    && (s.creators[e.c].row !in s.rows || Told(s, s.creators[e.c].row))
  }

  lemma NotifierStepSound(s: State, e: Event, n: Id)
    requires Sound(s) && n in s.notifiers
    ensures Sound(OnNotifier(s, e, n, s.notifiers[n]))
  {
    var pc, pc' := s.notifiers[n], NotifierNext(s, e, s.notifiers[n]);
    assert pc'.Deleting? ==> pc' == pc || pc.Sending?;
    hide NotifierNext;
    var s' := OnNotifier(s, e, n, pc);
    assert pc.Deleting? ==> forall r :: r in pc.told ==> Told(s, r);
    hide Told;
    SameTold(SetNotifier(s, n, pc'), s');
    forall r | r in s'.waiting ensures r in s'.rows && !Told(s', r) {
      assert r in s.rows && !Told(s, r);
      ToldBySomeone(s, n, pc', r);
    }
  }

  lemma ToldBySomeone(s: State, n: Id, pc': Notifier, r: Id)
    requires n in s.notifiers
    ensures Told(SetNotifier(s, n, pc'), r) ==> Told(s, r) || (pc'.Deleting? && r in pc'.told)
  {
    var s' := SetNotifier(s, n, pc');
    if Told(s', r) {
      var k :| k in s'.notifiers && s'.notifiers[k].Deleting? && r in s'.notifiers[k].told;
      assert k != n ==> k in s.notifiers && s.notifiers[k] == s'.notifiers[k];
    }
  }

  lemma SameTold(s: State, s': State)
    requires s'.notifiers == s.notifiers
    ensures forall r :: Told(s', r) == Told(s, r)
  {
  }

  lemma CreatorStepSound(s: State, e: Event, c: Id)
    requires Sound(s) && Fresh(s) && c in s.creators
    requires (e.Checked? || e.Upserted? || e.Rechecked? || e.Withdrawn?) && e.c == c
    ensures Sound(OnCreator(s, e, c, s.creators[c])) <==> !TooLate(s, e)
  {
    var pc, pc' := s.creators[c], CreatorNext(s, e, s.creators[c]);
    assert pc.Rechecking? && pc'.Subscribed? <==>
             e.Rechecked? && e.ok && pc.Rechecking? && CountAvailable(s, pc.room) == 0;
    hide CreatorNext, CountAvailable, Told, CreatorOk;
    SameTold(s, OnCreator(s, e, c, pc));
  }

  /** Steps that neither promise a row, remove a waiting one nor tell one keep what is waiting sound. */
  lemma NothingToldKeepsSound(s: State, s': State)
    requires Sound(s) && s'.waiting <= s.waiting && forall r :: r in s'.waiting ==> r in s'.rows
    requires forall n :: n in s'.notifiers && s'.notifiers[n].Deleting? ==> n in s.notifiers && s'.notifiers[n] == s.notifiers[n]
    ensures Sound(s')
  {
    forall r | r in s'.waiting ensures r in s'.rows && !Told(s', r) {
      assert r in s.rows && !Told(s, r);
    }
  }

  lemma OtherStepSound(s: State, e: Event)
    requires Sound(s) && Fresh(s)
    requires e.CreateMachine? || e.DeleteMachine? || e.StartUse? || e.FinishUse? || e.PatchRead? || e.Subscribe? || e.Unsubscribe?
    ensures Sound(Step(s, e))
  {
    if e.FinishUse? { FinishFrame(s, e.machine); }
    assert forall r :: r in s.waiting ==> r in s.rows;
    hide OnFinishUse, Sound, Told;
    NothingToldKeepsSound(s, Step(s, e));
  }

  lemma PatchStepSound(s: State, n: Id)
    requires Sound(s) && n in s.notifiers && s.notifiers[n].Patching?
    ensures Sound(OnPatchWrite(s, n, s.notifiers[n]))
  {
    hide IsFree;
    var s' := OnPatchWrite(s, n, s.notifiers[n]);
    forall r | r in s'.waiting ensures r in s'.rows && !Told(s', r) {
      assert r in s.rows && !Told(s, r);
    }
  }

  /**
   A successful subscription is silently dropped only through one race: its create's second count still
   finds no machine although a run has already told the row, so that run deletes it.  Every other step
   keeps every waiting subscription.
   */
  lemma SubscriptionsAreKept(s: State, e: Event)
    requires Sound(s) && Fresh(s)
    ensures Sound(Step(s, e)) <==> !TooLate(s, e)
  {
    hide Sound, Fresh, OnNotifier, OnCreator, OnFinishUse, OnPatchWrite, Told, CountAvailable;
    match e {
      case PatchWrite(n) => if n in s.notifiers && s.notifiers[n].Patching? { PatchStepSound(s, n); }
      case MachineRead(n, _) => if n in s.notifiers { NotifierStepSound(s, e, n); }
      case SubscribersRead(n, _) => if n in s.notifiers { NotifierStepSound(s, e, n); }
      case Counted(n, _) => if n in s.notifiers { NotifierStepSound(s, e, n); }
      case Settled(n, _) => if n in s.notifiers { NotifierStepSound(s, e, n); }
      case RowsDeleted(n, _) => if n in s.notifiers { NotifierStepSound(s, e, n); }
      case Checked(c, _) => if c in s.creators { CreatorStepSound(s, e, c); }
      case Upserted(c, _, _) => if c in s.creators { CreatorStepSound(s, e, c); }
      case Rechecked(c, _) => if c in s.creators { CreatorStepSound(s, e, c); }
      case Withdrawn(c, _) => if c in s.creators { CreatorStepSound(s, e, c); }
      case _ => OtherStepSound(s, e);
    }
  }

  /** No step of the run meets that race. */
  ghost predicate NeverTooLate(s: State, events: seq<Event>)
    decreases events
  {
    events == [] || (!TooLate(s, events[0]) && NeverTooLate(Step(s, events[0]), events[1..]))
  }

  /** Without that race every successful subscription keeps its row until it is told, withdrawn or ended. */
  lemma {:induction false} WaitingRowsSurvive(s: State, events: seq<Event>)
    requires Sound(s) && Fresh(s) && NeverTooLate(s, events)
    ensures Sound(Run(s, events)) && Fresh(Run(s, events))
    decreases events
  {
    hide Sound, Fresh, Step, TooLate;
    if events != [] {
      StepKeepsFresh(s, events[0]);
      SubscriptionsAreKept(s, events[0]);
      WaitingRowsSurvive(Step(s, events[0]), events[1..]);
    }
  }

  // ----- The race, step by step -----

  /** One washer in room 0. */
  function Washer(busy: bool): map<Id, Machine> { map[0 := Machine(0, false, true, busy)] }

  function RaceState(k: nat): State {
    var row := map[2 := Subscription(7, 0)];
    var rechecking := map[1 := Rechecking(0, 2)];
    var reached: map<Id, set<Id>> := map[3 := {2}];
    if k == 0 then Opened(Washer(true), 1)
    else if k == 1 then State(Washer(true), map[], map[], map[1 := Checking(7, 0)], 2, map[], {}, {}, map[])
    else if k == 2 then State(Washer(true), map[], map[], map[1 := Inserting(7, 0)], 2, map[], {}, {}, map[])
    else if k == 3 then State(Washer(true), row, map[], rechecking, 3, map[], {}, {}, map[])
    else if k == 4 then State(Washer(false), row, map[3 := SessionClosed(0)], rechecking, 4, map[0 := 3], {}, {}, map[])
    else if k == 5 then State(Washer(false), row, map[3 := Reading(0)], rechecking, 4, map[0 := 3], {}, {}, map[])
    else if k == 6 then State(Washer(false), row, map[3 := Counting(0, {2})], rechecking, 4, map[0 := 3], {}, {}, map[])
    else if k == 7 then State(Washer(false), row, map[3 := Sending(0, {2})], rechecking, 4, map[0 := 3], {}, {}, map[])
    else if k == 8 then State(Washer(false), row, map[3 := Deleting({2}, {})], rechecking, 4, map[0 := 3], {}, {}, reached)
    else if k == 9 then State(Washer(true), row, map[3 := Deleting({2}, {})], rechecking, 4, map[0 := 3], {}, {}, reached)
    else if k == 10 then State(Washer(true), row, map[3 := Deleting({2}, {})], map[1 := Subscribed(2)], 4, map[0 := 3], {2}, {2}, reached)
    else State(Washer(true), map[], map[3 := Finished({})], map[1 := Subscribed(2)], 4, map[0 := 3], {2}, {2}, reached)
  }

  function RaceEvent(k: nat): Event {
    if k == 0 then Subscribe(7, 0)
    else if k == 1 then Checked(1, true)
    else if k == 2 then Upserted(1, true, 0)
    else if k == 3 then FinishUse(0)
    else if k == 4 then MachineRead(3, true)
    else if k == 5 then SubscribersRead(3, true)
    else if k == 6 then Counted(3, true)
    else if k == 7 then Settled(3, {2})
    else if k == 8 then StartUse(0)
    else if k == 9 then Rechecked(1, true)
    else RowsDeleted(3, true)
  }

  lemma Subscribing(k: nat)
    requires k < 3
    ensures Step(RaceState(k), RaceEvent(k)) == RaceState(k + 1)
  {
    NoFreeMachine(RaceState(1));
    hide CountAvailable;
    if k == 2 { assert RowsOfUser(RaceState(2), 7, 0) == {}; }
  }

  lemma Freeing(k: nat)
    requires k == 3 || k == 4
    ensures Step(RaceState(k), RaceEvent(k)) == RaceState(k + 1)
  {
    hide CountAvailable, RowsOf;
  }

  lemma ReadingRows()
    ensures Step(RaceState(5), RaceEvent(5)) == RaceState(6)
  {
    assert RowsOf(RaceState(5), 0) == {2};
    hide CountAvailable, RowsOf;
  }

  lemma CountingFree()
    ensures Step(RaceState(6), RaceEvent(6)) == RaceState(7)
  {
    AvailableMeansFree(RaceState(6), 0);
    assert FreeIn(RaceState(6), 0, 0);
    hide CountAvailable, RowsOf;
  }

  lemma Telling()
    ensures Step(RaceState(7), RaceEvent(7)) == RaceState(8)
  {
    assert {2} * {2} == {2};
    assert {2} - {2} == {};
    hide CountAvailable, RowsOf;
  }

  lemma TakingAgain()
    ensures Step(RaceState(8), RaceEvent(8)) == RaceState(9)
  {
    hide CountAvailable, RowsOf;
  }

  lemma Succeeding()
    ensures Step(RaceState(9), RaceEvent(9)) == RaceState(10)
  {
    NoFreeMachine(RaceState(9));
    hide CountAvailable, RowsOf;
  }

  lemma Dropping()
    ensures Step(RaceState(10), RaceEvent(10)) == RaceState(11)
  {
    hide CountAvailable, RowsOf;
  }

  function RaceFrom(k: nat): seq<Event>
    requires k <= 11
    decreases 11 - k
  {
    if k == 11 then [] else [RaceEvent(k)] + RaceFrom(k + 1)
  }

  lemma {:induction false} RaceRuns(k: nat)
    requires k <= 11
    ensures Run(RaceState(k), RaceFrom(k)) == RaceState(11)
    decreases 11 - k
  {
    if k < 11 {
      hide Step, RaceState, RaceEvent;
      if k < 3 { Subscribing(k); }
      else if k < 5 { Freeing(k); }
      else if k == 5 { ReadingRows(); }
      else if k == 6 { CountingFree(); }
      else if k == 7 { Telling(); }
      else if k == 8 { TakingAgain(); }
      else if k == 9 { Succeeding(); }
      else { Dropping(); }
      assert RaceFrom(k)[1..] == RaceFrom(k + 1);
      RaceRuns(k + 1);
    }
  }

  /**
   The race happens without any failing call: the washer frees and is taken again between a create's
   insert and its second count, so the create succeeds and its row is then deleted.
   */
  lemma SuccessfulSubscriptionCanVanish() returns (events: seq<Event>)
    ensures
      var s := Run(Opened(Washer(true), 1), events);
      && 1 in s.creators && s.creators[1] == Subscribed(2)
      && 2 in s.waiting && 2 !in s.rows
  {
    events := RaceFrom(0);
    hide Run, RaceFrom;
    RaceRuns(0);
  }

  lemma NoFreeMachine(s: State)
    requires forall m :: m in s.machines ==> !IsFree(s.machines[m])
    ensures forall room :: CountAvailable(s, room) == 0
  {
    forall room ensures CountAvailable(s, room) == 0 {
      AvailableMeansFree(s, room);
    }
  }
}
