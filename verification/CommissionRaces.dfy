/**
 Tracking MAC addresses while commissions, mapping patches and deletions interleave, statement by statement
 (src/machine/machine.service.ts:388-418, 523-525, 711-739;
 libs/database/src/repositories/machine.repository.ts:286-309, 329-346, 466-474).

 A commission reads the machine, awaits its MAC address, writes it to the row and only then tracks it; a
 patch that maps a machine to ThinQ reads the row, writes it and only then forgets the MAC it had read; a
 patch that takes the mapping off leaves MAC and index alone.
 `MachineIndex` shows that whole operations keep the index right; here each half of that agreement has the
 exact steps that break it in between.
 */
module CommissionRaces {
  import opened Options

  type Id = nat
  type Mac = string

  datatype Row = Row(mac: Option<Mac>, mapped: bool, deleted: bool)

  /** One run of `commissionMachine` that has passed its checks. */
  datatype Commission =
    | Finding(uuid: Id)                  // awaits the Matter commission
    | Recording(uuid: Id, mac: Mac)      // awaits `updateMachineCommissioned`
    | Tracking(uuid: Id, mac: Mac)       // the row is written, the index is not
    | CommissionOver

  /** One run of `updateMachine` that maps its machine to a ThinQ device or takes the mapping off. */
  datatype Patch =
    | Mapping(uuid: Id, had: Option<Mac>)    // has read the row
    | Unmapping(uuid: Id)                    // has read the row
    | Forgetting(mac: Mac)                   // the row is written, the index is not
    | PatchOver

  datatype State = State(
    rows: map<Id, Row>,
    uuids: map<Mac, Id>,
    commissions: map<Id, Commission>,
    patches: map<Id, Patch>,
    next: Id)

  datatype Event =
    | NewCommission(uuid: Id)
    | Found(c: Id, mac: Option<Mac>)
    | Recorded(c: Id, ok: bool)
    | Track(c: Id)
    | NewPatch(uuid: Id)
    | Mapped(p: Id, ok: bool)
    | NewUnmapping(uuid: Id)
    | Unmapped(p: Id, ok: bool)
    | Forget(p: Id)
    | Delete(uuid: Id)

  predicate Active(s: State, u: Id) { u in s.rows && !s.rows[u].deleted }

  predicate Carries(s: State, u: Id, mac: Mac) { Active(s, u) && s.rows[u].mac == Some(mac) }

  // ----- Steps -----

  function SetCommission(s: State, c: Id, to: Commission): State { s.(commissions := s.commissions[c := to]) }

  function SetPatch(s: State, p: Id, to: Patch): State { s.(patches := s.patches[p := to]) }

  /** The row is gone or mapped, or another active machine carries the MAC: the table refuses the write. */
  predicate MayRecord(s: State, uuid: Id, mac: Mac) {
    && Active(s, uuid) && !s.rows[uuid].mapped
    && forall v :: v in s.rows && v != uuid ==> !Carries(s, v, mac)
  }

  function OnRecorded(s: State, c: Id, uuid: Id, mac: Mac, ok: bool): State {
    if ok && MayRecord(s, uuid, mac)
    then SetCommission(s, c, Tracking(uuid, mac)).(rows := s.rows[uuid := s.rows[uuid].(mac := Some(mac))])
    else SetCommission(s, c, CommissionOver)
  }

  function OnMapped(s: State, p: Id, uuid: Id, had: Option<Mac>, ok: bool): State {
    if ok && Active(s, uuid)
    then SetPatch(s, p, if had.Some? then Forgetting(had.value) else PatchOver).(
         rows := s.rows[uuid := s.rows[uuid].(mac := None, mapped := true)])
    else SetPatch(s, p, PatchOver)
  }

  function OnUnmapped(s: State, p: Id, uuid: Id, ok: bool): State {
    if ok && Active(s, uuid)
    then SetPatch(s, p, PatchOver).(rows := s.rows[uuid := s.rows[uuid].(mapped := false)])
    else SetPatch(s, p, PatchOver)
  }

  function Step(s: State, e: Event): State {
    match e
    case NewCommission(u) =>
      if Active(s, u) && !s.rows[u].mapped && s.rows[u].mac.None?
      then SetCommission(s, s.next, Finding(u)).(next := s.next + 1)
      else s
    case Found(c, mac) =>
      if c in s.commissions && s.commissions[c].Finding?
      then SetCommission(s, c, if mac.Some? then Recording(s.commissions[c].uuid, mac.value) else CommissionOver)
      else s
    case Recorded(c, ok) =>
      if c in s.commissions && s.commissions[c].Recording?
      then OnRecorded(s, c, s.commissions[c].uuid, s.commissions[c].mac, ok)
      else s
    case Track(c) =>
      if c in s.commissions && s.commissions[c].Tracking?
      then SetCommission(s, c, CommissionOver).(uuids := s.uuids[s.commissions[c].mac := s.commissions[c].uuid])
      else s
    case NewPatch(u) =>
      if Active(s, u) then SetPatch(s, s.next, Mapping(u, s.rows[u].mac)).(next := s.next + 1) else s
    case Mapped(p, ok) =>
      if p in s.patches && s.patches[p].Mapping?
      then OnMapped(s, p, s.patches[p].uuid, s.patches[p].had, ok)
      else s
    case NewUnmapping(u) =>
      if Active(s, u) then SetPatch(s, s.next, Unmapping(u)).(next := s.next + 1) else s
    case Unmapped(p, ok) =>
      if p in s.patches && s.patches[p].Unmapping? then OnUnmapped(s, p, s.patches[p].uuid, ok) else s
    case Forget(p) =>
      if p in s.patches && s.patches[p].Forgetting?
      then SetPatch(s, p, PatchOver).(uuids := s.uuids - {s.patches[p].mac})
      else s
    case Delete(u) => if Active(s, u) then s.(rows := s.rows[u := s.rows[u].(deleted := true)]) else s
  }

  function Run(s: State, events: seq<Event>): State
    decreases events
  {
    if events == [] then s else Run(Step(s, events[0]), events[1..])
  }

  // ----- What may be relied upon -----

  predicate Pending(s: State, c: Id, u: Id, mac: Mac) { c in s.commissions && s.commissions[c] == Tracking(u, mac) }

  ghost predicate AboutToTrack(s: State, u: Id, mac: Mac) { exists c :: Pending(s, c, u, mac) }

  predicate IsTracked(s: State, u: Id, mac: Mac) { mac in s.uuids && s.uuids[mac] == u }

  /** An active machine with a MAC is tracked under its own uuid, or its commission is about to. */
  ghost predicate TrackedSoon(s: State) {
    forall u, mac :: Carries(s, u, mac) ==> IsTracked(s, u, mac) || AboutToTrack(s, u, mac)
  }

  ghost predicate Fresh(s: State) {
    (forall c :: c in s.commissions ==> c < s.next) && (forall p :: p in s.patches ==> p < s.next)
  }

  /** An active machine carries the MAC and no commission is about to track it. */
  ghost predicate TakenOver(s: State, v: Id, mac: Mac) {
    Carries(s, v, mac) && !AboutToTrack(s, v, mac)
  }

  /**
   The two overtakings: a late commission tracks a MAC that another active machine carries by now, or a late
   patch forgets one that some active machine carries by now.
   */
  ghost predicate Overtaken(s: State, e: Event) {
    match e
    case Track(c) =>
      c in s.commissions && s.commissions[c].Tracking?
      && exists v :: v != s.commissions[c].uuid && TakenOver(s, v, s.commissions[c].mac)
    case Forget(p) =>
      p in s.patches && s.patches[p].Forgetting? && exists v :: TakenOver(s, v, s.patches[p].mac)
    case _ => false
  }

  lemma TrackKeeps(s: State, c: Id)
    requires TrackedSoon(s) && c in s.commissions && s.commissions[c].Tracking?
    ensures TrackedSoon(Step(s, Track(c))) <==> !Overtaken(s, Track(c))
  {
    var s', u0, m0 := Step(s, Track(c)), s.commissions[c].uuid, s.commissions[c].mac;
    assert forall u, mac :: Carries(s', u, mac) <==> Carries(s, u, mac);
    forall u, mac ensures AboutToTrack(s', u, mac) ==> AboutToTrack(s, u, mac) {
      if k :| Pending(s', k, u, mac) { assert Pending(s, k, u, mac); }
    }
    forall u, mac | u != u0 || mac != m0 ensures AboutToTrack(s, u, mac) ==> AboutToTrack(s', u, mac) {
      if k :| Pending(s, k, u, mac) { assert Pending(s', k, u, mac); }
    }
    assert s'.uuids == s.uuids[m0 := u0];
    hide Step, AboutToTrack, Carries, Pending;
    if v :| v != u0 && TakenOver(s, v, m0) {
      assert Overtaken(s, Track(c));
      assert Carries(s', v, m0) && !IsTracked(s', v, m0) && !AboutToTrack(s', v, m0);
    } else {
      forall u, mac | Carries(s', u, mac) ensures IsTracked(s', u, mac) || AboutToTrack(s', u, mac) {
        assert mac == m0 && u != u0 ==> !TakenOver(s, u, mac);
      }
    }
  }

  lemma ForgetKeeps(s: State, p: Id)
    requires TrackedSoon(s) && p in s.patches && s.patches[p].Forgetting?
    ensures TrackedSoon(Step(s, Forget(p))) <==> !Overtaken(s, Forget(p))
  {
    var s', m0 := Step(s, Forget(p)), s.patches[p].mac;
    assert forall u, mac :: Carries(s', u, mac) <==> Carries(s, u, mac);
    assert forall c, u, mac :: Pending(s', c, u, mac) <==> Pending(s, c, u, mac);
    assert forall u, mac :: AboutToTrack(s', u, mac) <==> AboutToTrack(s, u, mac);
    assert s'.uuids == s.uuids - {m0};
    hide Step, AboutToTrack, Carries, Pending;
    if v :| TakenOver(s, v, m0) {
      assert Overtaken(s, Forget(p));
      assert Carries(s', v, m0) && !IsTracked(s', v, m0) && !AboutToTrack(s', v, m0);
    } else {
      forall u, mac | Carries(s', u, mac) ensures IsTracked(s', u, mac) || AboutToTrack(s', u, mac) {
        assert mac == m0 ==> !TakenOver(s, u, mac);
      }
    }
  }

  lemma RecordedKeeps(s: State, c: Id, ok: bool)
    requires TrackedSoon(s) && c in s.commissions && s.commissions[c].Recording?
    ensures TrackedSoon(Step(s, Recorded(c, ok)))
  {
    var s', u0, m0 := Step(s, Recorded(c, ok)), s.commissions[c].uuid, s.commissions[c].mac;
    forall u, mac | Carries(s', u, mac) ensures IsTracked(s', u, mac) || AboutToTrack(s', u, mac) {
      if s'.commissions[c].Tracking? && u == u0 {
        assert Pending(s', c, u, mac);
      } else {
        assert Carries(s, u, mac);
        if k :| Pending(s, k, u, mac) { assert Pending(s', k, u, mac); }
      }
    }
  }

  lemma OtherStepKeeps(s: State, e: Event)
    requires TrackedSoon(s) && Fresh(s) && !e.Track? && !e.Forget? && !e.Recorded?
    ensures TrackedSoon(Step(s, e))
  {
    var s' := Step(s, e);
    forall u, mac | Carries(s', u, mac) ensures IsTracked(s', u, mac) || AboutToTrack(s', u, mac) {
      assert Carries(s, u, mac);
      if k :| Pending(s, k, u, mac) { assert Pending(s', k, u, mac); }
    }
  }

  /** A step keeps every active machine's MAC tracked, or about to be, exactly when it is not overtaken. */
  lemma TrackingIsKept(s: State, e: Event)
    requires TrackedSoon(s) && Fresh(s)
    ensures Fresh(Step(s, e))
    ensures TrackedSoon(Step(s, e)) <==> !Overtaken(s, e)
  {
    match e {
      case Track(c) => if c in s.commissions && s.commissions[c].Tracking? { TrackKeeps(s, c); }
      case Forget(p) => if p in s.patches && s.patches[p].Forgetting? { ForgetKeeps(s, p); }
      case Recorded(c, ok) => if c in s.commissions && s.commissions[c].Recording? { RecordedKeeps(s, c, ok); }
      case _ => OtherStepKeeps(s, e);
    }
    hide TrackedSoon, Overtaken;
  }

  // ----- The converse: nothing else is tracked -----

  predicate Holds(s: State, u: Id, mac: Mac) { u in s.rows && s.rows[u].mac == Some(mac) }

  predicate Clearing(s: State, p: Id, mac: Mac) { p in s.patches && s.patches[p] == Forgetting(mac) }

  ghost predicate AboutToForget(s: State, mac: Mac) { exists p :: Clearing(s, p, mac) }

  /** A tracked MAC is in the row it is tracked under, deleted or not, or a patch is about to forget it. */
  ghost predicate HeldSoon(s: State) {
    forall mac :: mac in s.uuids ==> Holds(s, s.uuids[mac], mac) || AboutToForget(s, mac)
  }

  /** The MAC is tracked under the machine that is losing it, and no patch is about to forget it. */
  ghost predicate Abandoned(s: State, u: Id, mac: Mac) {
    Holds(s, u, mac) && IsTracked(s, u, mac) && !AboutToForget(s, mac)
  }

  /**
   The three strandings: a late commission tracks a MAC that its machine has lost meanwhile, a patch takes a
   tracked MAC that it had not read, or a second commission replaces a tracked MAC.
   */
  ghost predicate Stranded(s: State, e: Event) {
    match e
    case Track(c) =>
      c in s.commissions && s.commissions[c].Tracking?
      && !Holds(s, s.commissions[c].uuid, s.commissions[c].mac) && !AboutToForget(s, s.commissions[c].mac)
    case Mapped(p, ok) =>
      ok && p in s.patches && s.patches[p].Mapping? && Active(s, s.patches[p].uuid)
      && exists mac :: s.patches[p].had != Some(mac) && Abandoned(s, s.patches[p].uuid, mac)
    case Recorded(c, ok) =>
      ok && c in s.commissions && s.commissions[c].Recording?
      && MayRecord(s, s.commissions[c].uuid, s.commissions[c].mac)
      && exists mac :: s.commissions[c].mac != mac && Abandoned(s, s.commissions[c].uuid, mac)
    case _ => false
  }

  lemma TrackHeld(s: State, c: Id)
    requires HeldSoon(s) && c in s.commissions && s.commissions[c].Tracking?
    ensures HeldSoon(Step(s, Track(c))) <==> !Stranded(s, Track(c))
  {
    var s', u, m := Step(s, Track(c)), s.commissions[c].uuid, s.commissions[c].mac;
    assert forall k, mac :: Clearing(s', k, mac) <==> Clearing(s, k, mac);
    assert forall mac :: AboutToForget(s', mac) <==> AboutToForget(s, mac);
    assert forall v, mac :: Holds(s', v, mac) <==> Holds(s, v, mac);
    assert s'.uuids == s.uuids[m := u];
    hide Step, AboutToForget, Clearing, Holds;
  }

  lemma ForgetHeld(s: State, p: Id)
    requires HeldSoon(s) && p in s.patches && s.patches[p].Forgetting?
    ensures HeldSoon(Step(s, Forget(p)))
  {
    var s' := Step(s, Forget(p));
    forall mac | mac in s'.uuids ensures Holds(s', s'.uuids[mac], mac) || AboutToForget(s', mac) {
      assert Holds(s, s.uuids[mac], mac) || AboutToForget(s, mac);
      if k :| Clearing(s, k, mac) { assert Clearing(s', k, mac); }
    }
  }

  lemma MappedHeld(s: State, p: Id, ok: bool)
    requires HeldSoon(s) && p in s.patches && s.patches[p].Mapping?
    ensures HeldSoon(Step(s, Mapped(p, ok))) <==> !Stranded(s, Mapped(p, ok))
  {
    var s', u, had := Step(s, Mapped(p, ok)), s.patches[p].uuid, s.patches[p].had;
    forall mac ensures AboutToForget(s', mac) <==> AboutToForget(s, mac) || (ok && Active(s, u) && had == Some(mac)) {
      if k :| Clearing(s, k, mac) { assert Clearing(s', k, mac); }
      if ok && Active(s, u) && had == Some(mac) { assert Clearing(s', p, mac); }
      if k :| Clearing(s', k, mac) { assert k != p ==> Clearing(s, k, mac); }
    }
    assert forall v, mac :: Holds(s', v, mac) <==> Holds(s, v, mac) && !(v == u && ok && Active(s, u));
    assert s'.uuids == s.uuids;
    LosesHolder(s, s', u, mac => had == Some(mac), ok && Active(s, u));
    hide Step, AboutToForget, Holds, Active;
  }

  lemma RecordedHeld(s: State, c: Id, ok: bool)
    requires HeldSoon(s) && c in s.commissions && s.commissions[c].Recording?
    ensures HeldSoon(Step(s, Recorded(c, ok))) <==> !Stranded(s, Recorded(c, ok))
  {
    var s', u, m := Step(s, Recorded(c, ok)), s.commissions[c].uuid, s.commissions[c].mac;
    assert forall k, mac :: Clearing(s', k, mac) <==> Clearing(s, k, mac);
    assert forall mac :: AboutToForget(s', mac) <==> AboutToForget(s, mac);
    var writes := ok && MayRecord(s, u, m);
    assert forall v, mac :: v != u || !writes ==> (Holds(s', v, mac) <==> Holds(s, v, mac));
    assert writes ==> forall mac :: Holds(s', u, mac) <==> mac == m;
    assert s'.uuids == s.uuids;
    LosesHolder(s, s', u, mac => mac == m, writes);
    hide Step, AboutToForget, Holds, MayRecord;
  }

  /** One row may lose the MAC it holds; the MACs in `kept` stay accounted for. */
  lemma LosesHolder(s: State, s': State, u: Id, kept: Mac -> bool, writes: bool)
    requires HeldSoon(s) && s'.uuids == s.uuids
    requires forall v, mac :: v != u || !writes ==> (Holds(s', v, mac) <==> Holds(s, v, mac))
    requires forall mac :: AboutToForget(s, mac) ==> AboutToForget(s', mac)
    requires forall mac :: AboutToForget(s', mac) ==> AboutToForget(s, mac) || (writes && kept(mac))
    requires writes ==> forall mac :: (Holds(s', u, mac) ==> kept(mac)) && (kept(mac) ==> Holds(s', u, mac) || AboutToForget(s', mac))
    ensures HeldSoon(s') <==> !(writes && exists mac :: !kept(mac) && Abandoned(s, u, mac))
  {
    hide Holds, AboutToForget;
    if writes {
      if mac :| !kept(mac) && Abandoned(s, u, mac) {
        assert !Holds(s', u, mac) && !AboutToForget(s', mac);
      } else {
        forall mac | mac in s'.uuids ensures Holds(s', s'.uuids[mac], mac) || AboutToForget(s', mac) {
          assert !kept(mac) ==> !Abandoned(s, u, mac);
        }
      }
    }
  }

  lemma OtherStepHeld(s: State, e: Event)
    requires HeldSoon(s) && Fresh(s) && !e.Track? && !e.Forget? && !e.Recorded? && !e.Mapped?
    ensures HeldSoon(Step(s, e))
  {
    var s' := Step(s, e);
    forall mac | mac in s'.uuids ensures Holds(s', s'.uuids[mac], mac) || AboutToForget(s', mac) {
      assert Holds(s, s.uuids[mac], mac) || AboutToForget(s, mac);
      if k :| Clearing(s, k, mac) { assert Clearing(s', k, mac); }
    }
  }

  /** A step keeps every tracked MAC with its machine, or about to go, exactly when it strands none. */
  lemma EntriesAreKept(s: State, e: Event)
    requires HeldSoon(s) && Fresh(s)
    ensures HeldSoon(Step(s, e)) <==> !Stranded(s, e)
  {
    match e {
      case Track(c) => if c in s.commissions && s.commissions[c].Tracking? { TrackHeld(s, c); }
      case Forget(p) => if p in s.patches && s.patches[p].Forgetting? { ForgetHeld(s, p); }
      case Recorded(c, ok) => if c in s.commissions && s.commissions[c].Recording? { RecordedHeld(s, c, ok); }
      case Mapped(p, ok) => if p in s.patches && s.patches[p].Mapping? { MappedHeld(s, p, ok); }
      case _ => OtherStepHeld(s, e);
    }
    hide HeldSoon, Stranded;
  }

  // ----- Both halves, over runs -----

  ghost predicate NothingOvertakenOrStranded(s: State, events: seq<Event>)
    decreases events
  {
    events == [] || (!Overtaken(s, events[0]) && !Stranded(s, events[0])
                     && NothingOvertakenOrStranded(Step(s, events[0]), events[1..]))
  }

  ghost predicate NeverOvertaken(s: State, events: seq<Event>)
    decreases events
  {
    events == [] || (!Overtaken(s, events[0]) && NeverOvertaken(Step(s, events[0]), events[1..]))
  }

  /** Over any run without an overtaking, an active machine with a MAC is tracked once its commission is over. */
  lemma {:induction false} ActiveMachinesAreTracked(s: State, events: seq<Event>)
    requires TrackedSoon(s) && Fresh(s) && NeverOvertaken(s, events)
    ensures TrackedSoon(Run(s, events)) && Fresh(Run(s, events))
    ensures forall u, mac :: Carries(Run(s, events), u, mac) && !AboutToTrack(Run(s, events), u, mac) ==>
              IsTracked(Run(s, events), u, mac)
    decreases events
  {
    if events != [] {
      hide TrackedSoon, Fresh, Step, Overtaken, Carries, IsTracked, AboutToTrack;
      TrackingIsKept(s, events[0]);
      ActiveMachinesAreTracked(Step(s, events[0]), events[1..]);
    }
  }

  /** No commission or patch stands between its write to the row and its write to the index. */
  ghost predicate Quiet(s: State) {
    (forall u, mac :: !AboutToTrack(s, u, mac)) && (forall mac :: !AboutToForget(s, mac))
  }

  /**
   Over any run without either, once nothing is under way an active machine carries a MAC exactly when the
   MAC is tracked under it, and every tracked MAC is in the row it is tracked under.
   */
  lemma {:induction false} IndexAgreesWhenQuiet(s: State, events: seq<Event>)
    requires TrackedSoon(s) && HeldSoon(s) && Fresh(s) && NothingOvertakenOrStranded(s, events)
    ensures
      var s' := Run(s, events);
      Quiet(s') ==>
        && (forall u, mac :: Active(s', u) ==> (Carries(s', u, mac) <==> IsTracked(s', u, mac)))
        && (forall mac :: mac in s'.uuids ==> Holds(s', s'.uuids[mac], mac))
    decreases events
  {
    if events != [] {
      hide TrackedSoon, HeldSoon, Fresh, Step, Overtaken, Stranded, Carries, IsTracked, Holds, Quiet;
      TrackingIsKept(s, events[0]);
      EntriesAreKept(s, events[0]);
      IndexAgreesWhenQuiet(Step(s, events[0]), events[1..]);
      assert Run(s, events) == Run(Step(s, events[0]), events[1..]);
    } else {
      hide AboutToTrack, AboutToForget;
    }
  }

  // ----- A patch that forgets too late -----

  /** Machine 0 carries and is tracked under the MAC, machine 1 is not yet commissioned. */
  function TwoMachines(mac: Mac): State {
    State(map[0 := Row(Some(mac), false, false), 1 := Row(None, false, false)], map[mac := 0], map[], map[], 0)
  }

  function Overtaking(mac: Mac): seq<Event> {
    [NewPatch(0), NewCommission(1), Mapped(0, true), Found(1, Some(mac)), Recorded(1, true), Track(1), Forget(0)]
  }

  /** The state after the first `k` of those events. */
  function Scene(mac: Mac, k: nat): State {
    var before := TwoMachines(mac).rows;
    var mapped := before[0 := Row(None, true, false)];
    var moved := mapped[1 := Row(Some(mac), false, false)];
    var reading, forgetting := map[0 := Mapping(0, Some(mac))], map[0 := Forgetting(mac)];
    if k == 0 then TwoMachines(mac)
    else if k == 1 then State(before, map[mac := 0], map[], reading, 1)
    else if k == 2 then State(before, map[mac := 0], map[1 := Finding(1)], reading, 2)
    else if k == 3 then State(mapped, map[mac := 0], map[1 := Finding(1)], forgetting, 2)
    else if k == 4 then State(mapped, map[mac := 0], map[1 := Recording(1, mac)], forgetting, 2)
    else if k == 5 then State(moved, map[mac := 0], map[1 := Tracking(1, mac)], forgetting, 2)
    else if k == 6 then State(moved, map[mac := 1], map[1 := CommissionOver], forgetting, 2)
    else State(moved, map[], map[1 := CommissionOver], map[0 := PatchOver], 2)
  }

  lemma EarlyScenes(mac: Mac, k: nat)
    requires k < 2
    ensures Step(Scene(mac, k), Overtaking(mac)[k]) == Scene(mac, k + 1)
  {
    hide OnRecorded, OnMapped, OnUnmapped;
  }

  lemma MappingScene(mac: Mac)
    ensures Step(Scene(mac, 2), Overtaking(mac)[2]) == Scene(mac, 3)
  {
    hide OnRecorded, OnUnmapped;
  }

  lemma FindingScene(mac: Mac)
    ensures Step(Scene(mac, 3), Overtaking(mac)[3]) == Scene(mac, 4)
  {
    hide OnRecorded, OnMapped, OnUnmapped;
  }

  lemma LateScenes(mac: Mac, k: nat)
    requires 4 < k < 7
    ensures Step(Scene(mac, k), Overtaking(mac)[k]) == Scene(mac, k + 1)
  {
    hide OnRecorded, OnMapped, OnUnmapped;
    assert map[mac := 1] - {mac} == map[];
  }

  lemma RecordingScene(mac: Mac)
    ensures Step(Scene(mac, 4), Overtaking(mac)[4]) == Scene(mac, 5)
  {
    hide OnMapped;
    assert MayRecord(Scene(mac, 4), 1, mac);
  }

  lemma {:induction false} ScenesRun(mac: Mac, k: nat)
    requires k <= 7
    ensures Run(Scene(mac, k), Overtaking(mac)[k..]) == Scene(mac, 7)
    decreases 7 - k
  {
    if k < 7 {
      if k < 2 { EarlyScenes(mac, k); } else if k == 2 { MappingScene(mac); }
      else if k == 3 { FindingScene(mac); } else if k == 4 { RecordingScene(mac); } else { LateScenes(mac, k); }
      hide Step, Scene;
      assert Overtaking(mac)[k..][1..] == Overtaking(mac)[k + 1..];
      ScenesRun(mac, k + 1);
    }
  }

  /**
   No call fails, yet the machine that took over the MAC ends up untracked: the mapping patch forgets the
   MAC after the commission has tracked it.
   */
  lemma LateForgetUntracks(mac: Mac)
    ensures TrackedSoon(TwoMachines(mac)) && Fresh(TwoMachines(mac))
    ensures
      var s := Run(TwoMachines(mac), Overtaking(mac));
      && Carries(s, 1, mac) && mac !in s.uuids
      && s.commissions == map[1 := CommissionOver] && s.patches == map[0 := PatchOver]
  {
    assert Overtaking(mac)[0..] == Overtaking(mac);
    ScenesRun(mac, 0);
    hide Run;
  }

  // ----- A patch that forgets nothing -----

  function OneMachine(): State { State(map[0 := Row(None, false, false)], map[], map[], map[], 0) }

  function Stranding(mac: Mac): seq<Event> {
    [NewPatch(0), NewCommission(0), Found(1, Some(mac)), Recorded(1, true), Track(1), Mapped(0, true)]
  }

  /** The state after the first `k` of those events. */
  function StrandingScene(mac: Mac, k: nat): State {
    var bare, carrying := map[0 := Row(None, false, false)], map[0 := Row(Some(mac), false, false)];
    var reading := map[0 := Mapping(0, None)];
    if k == 0 then OneMachine()
    else if k == 1 then State(bare, map[], map[], reading, 1)
    else if k == 2 then State(bare, map[], map[1 := Finding(0)], reading, 2)
    else if k == 3 then State(bare, map[], map[1 := Recording(0, mac)], reading, 2)
    else if k == 4 then State(carrying, map[], map[1 := Tracking(0, mac)], reading, 2)
    else if k == 5 then State(carrying, map[mac := 0], map[1 := CommissionOver], reading, 2)
    else State(map[0 := Row(None, true, false)], map[mac := 0], map[1 := CommissionOver], map[0 := PatchOver], 2)
  }

  lemma StrandingStarts(mac: Mac, k: nat)
    requires k < 3
    ensures Step(StrandingScene(mac, k), Stranding(mac)[k]) == StrandingScene(mac, k + 1)
  {
    hide OnRecorded, OnMapped, OnUnmapped;
  }

  lemma StrandingRecords(mac: Mac)
    ensures Step(StrandingScene(mac, 3), Stranding(mac)[3]) == StrandingScene(mac, 4)
  {
    hide OnMapped, OnUnmapped;
    assert MayRecord(StrandingScene(mac, 3), 0, mac);
  }

  lemma StrandingTracks(mac: Mac)
    ensures Step(StrandingScene(mac, 4), Stranding(mac)[4]) == StrandingScene(mac, 5)
  {
    hide OnRecorded, OnMapped, OnUnmapped;
  }

  lemma StrandingMaps(mac: Mac)
    ensures Step(StrandingScene(mac, 5), Stranding(mac)[5]) == StrandingScene(mac, 6)
  {
    hide OnRecorded, OnUnmapped;
  }

  lemma {:induction false} StrandingRuns(mac: Mac, k: nat)
    requires k <= 6
    ensures Run(StrandingScene(mac, k), Stranding(mac)[k..]) == StrandingScene(mac, 6)
    decreases 6 - k
  {
    if k < 6 {
      if k < 3 { StrandingStarts(mac, k); } else if k == 3 { StrandingRecords(mac); } else if k == 4 { StrandingTracks(mac); } else { StrandingMaps(mac); }
      hide Step, StrandingScene;
      assert Stranding(mac)[k..][1..] == Stranding(mac)[k + 1..];
      StrandingRuns(mac, k + 1);
    }
  }

  /**
   No call fails and nothing is overtaken, yet a ThinQ-mapped machine stays tracked under a MAC that no row
   holds: the patch had read the machine before its commission.
   */
  lemma MappedMachineStaysTracked(mac: Mac)
    ensures TrackedSoon(OneMachine()) && HeldSoon(OneMachine()) && Fresh(OneMachine())
    ensures
      var s := Run(OneMachine(), Stranding(mac));
      && s.rows == map[0 := Row(None, true, false)] && s.uuids == map[mac := 0]
      && s.commissions == map[1 := CommissionOver] && s.patches == map[0 := PatchOver]
  {
    assert Stranding(mac)[0..] == Stranding(mac);
    StrandingRuns(mac, 0);
    hide Run;
  }

  // ----- Whole operations, with nothing in between -----

  /** A whole commission gives the machine the MAC and tracks it, unless it is mapped, has one, or another has it. */
  lemma WholeCommission(s: State, u: Id, mac: Mac)
    requires u in s.rows && s.rows[u].deleted == false && s.rows[u].mapped == false && s.rows[u].mac == None
    ensures
      var c := s.next;
      var recorded := Step(Step(Step(s, NewCommission(u)), Found(c, Some(mac))), Recorded(c, true));
      var ended := Step(recorded, Track(c));
      var taken := exists v :: v in s.rows && v != u && s.rows[v].deleted == false && s.rows[v].mac == Some(mac);
      && ended.patches == s.patches && c in ended.commissions && ended.commissions[c] == CommissionOver
      && (taken ==> ended.rows == s.rows && ended.uuids == s.uuids)
      && (!taken ==> ended.rows == s.rows[u := Row(Some(mac), false, false)] && ended.uuids == s.uuids[mac := u])
  {
    var found := Step(Step(s, NewCommission(u)), Found(s.next, Some(mac)));
    assert MayRecord(found, u, mac) <==> !exists v :: v in s.rows && v != u && s.rows[v].deleted == false && s.rows[v].mac == Some(mac) by {
      assert forall v :: Carries(found, v, mac) <==> v in s.rows && s.rows[v].deleted == false && s.rows[v].mac == Some(mac);
    }
    hide MayRecord;
  }

  /** A machine that is deleted, mapped or has a MAC is not commissioned. */
  lemma NotCommissioned(s: State, u: Id)
    requires u in s.rows ==> s.rows[u].deleted || s.rows[u].mapped || s.rows[u].mac.Some?
    ensures Step(s, NewCommission(u)) == s
  {
  }

  /** A whole mapping patch takes the MAC from row and index. */
  lemma WholePatches(s: State, u: Id)
    requires u in s.rows && s.rows[u].deleted == false
    ensures
      var p, row := s.next, s.rows[u];
      var mapped := Step(Step(s, NewPatch(u)), Mapped(p, true));
      && (row.mac.Some? ==>
            var ended := Step(mapped, Forget(p));
            ended.rows == s.rows[u := Row(None, true, false)] && ended.uuids == s.uuids - {row.mac.value})
      && (row.mac.None? ==> mapped.rows == s.rows[u := Row(None, true, false)] && mapped.uuids == s.uuids)
  {
    var begun := Step(s, NewPatch(u));
    assert begun == s.(patches := s.patches[s.next := Mapping(u, s.rows[u].mac)], next := s.next + 1);
    assert Step(begun, Mapped(s.next, true)) == OnMapped(begun, s.next, u, s.rows[u].mac, true);
    hide OnRecorded, OnUnmapped;
  }

  /** A whole unmapping patch takes only the mapping off, and deleting marks the row. */
  lemma WholeUnmapping(s: State, u: Id)
    requires u in s.rows && s.rows[u].deleted == false
    ensures
      var unmapped := Step(Step(s, NewUnmapping(u)), Unmapped(s.next, true));
      unmapped.rows == s.rows[u := s.rows[u].(mapped := false)] && unmapped.uuids == s.uuids
    ensures Step(s, Delete(u)) == s.(rows := s.rows[u := s.rows[u].(deleted := true)])
  {
    hide OnRecorded, OnMapped;
  }

  /** What fails, or finds its machine deleted, changes neither rows nor index. */
  lemma FailedOperations(s: State, id: Id, ok: bool)
    ensures id in s.commissions && s.commissions[id].Finding? ==>
              Step(s, Found(id, None)) == s.(commissions := s.commissions[id := CommissionOver])
    ensures id in s.commissions && s.commissions[id].Recording?
            && (!ok || s.commissions[id].uuid !in s.rows || s.rows[s.commissions[id].uuid].deleted || s.rows[s.commissions[id].uuid].mapped)
            ==> Step(s, Recorded(id, ok)) == s.(commissions := s.commissions[id := CommissionOver])
    ensures id in s.patches && (s.patches[id].Mapping? || s.patches[id].Unmapping?)
            && (!ok || s.patches[id].uuid !in s.rows || s.rows[s.patches[id].uuid].deleted)
            ==> Step(s, if s.patches[id].Mapping? then Mapped(id, ok) else Unmapped(id, ok)) == s.(patches := s.patches[id := PatchOver])
  {
  }
}
