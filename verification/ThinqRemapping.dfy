/**
 ThinQ states of one dryer against admin patches of its mapping, statement by statement
 (src/machine/machine.service.ts:388-418, 476-503).

 A state is written to the row only while the row carries its device; an occupied state then re-reads
 the mapping and, as a further step, starts a session.  A patch reads the row, closes the session if
 the mapping will change, and writes the new mapping.  Sessions remember the device that opened them.
 */
module ThinqRemapping {
  import opened Options

  type Id = nat
  type Device = string

  /** One run of `updateThinqDryerState`. */
  datatype Call =
    | Writing(device: Device, occupied: bool)
    | Rechecking(device: Device)
    | Starting(device: Device)
    | Finishing
    | CallOver

  /** One run of `updateMachine` that sets `thinqDeviceId`. */
  datatype Patch =
    | Reading(target: Option<Device>)
    | Closing(target: Option<Device>)                    // awaits `finishUsingMachine`
    | Remapping(target: Option<Device>, closed: bool)    // awaits the write of the row
    | PatchOver

  datatype State = State(
    mapped: Option<Device>,
    session: Option<Device>,     // the open session, by the device whose state opened it
    calls: map<Id, Call>,
    patches: map<Id, Patch>,
    next: Id)

  datatype Event =
    | NewCall(device: Device, occupied: bool)
    | SnapshotWritten(c: Id, ok: bool)
    | Rechecked(c: Id, ok: bool)
    | Started(c: Id, ok: bool)
    | Ended(c: Id, committed: bool)
    | NewPatch(target: Option<Device>)
    | PatchRead(p: Id, ok: bool)
    | Closed(p: Id, committed: bool, ok: bool)
    | Remapped(p: Id, ok: bool)

  function CallNext(s: State, e: Event, call: Call): Call {
    match (e, call)
    case (SnapshotWritten(_, ok), Writing(device, occupied)) =>
      if !ok || s.mapped != Some(device) then CallOver
      else if occupied then Rechecking(device) else Finishing
    case (Rechecked(_, ok), Rechecking(device)) =>
      if ok && s.mapped == Some(device) then Starting(device) else CallOver
    case (Started(_, _), Starting(_)) => CallOver
    case (Ended(_, _), Finishing) => CallOver
    case _ => call
  }

  function OnCall(s: State, e: Event, c: Id, call: Call): State {
    s.(calls := s.calls[c := CallNext(s, e, call)],
       session := match (e, call)
                  case (Started(_, ok), Starting(device)) => if ok && s.session.None? then Some(device) else s.session
                  case (Ended(_, committed), Finishing) => if committed then None else s.session
                  case _ => s.session)
  }

  function PatchNext(s: State, e: Event, patch: Patch): Patch {
    match (e, patch)
    case (PatchRead(_, ok), Reading(target)) =>
      if !ok then PatchOver
      else if s.mapped.Some? && target != s.mapped then Closing(target)
      else Remapping(target, false)
    case (Closed(_, _, ok), Closing(target)) => if ok then Remapping(target, true) else PatchOver
    case (Remapped(_, _), Remapping(_, _)) => PatchOver
    case _ => patch
  }

  function OnPatch(s: State, e: Event, p: Id, patch: Patch): State {
    s.(patches := s.patches[p := PatchNext(s, e, patch)],
       session := if e.Closed? && patch.Closing? && (e.committed || e.ok) then None else s.session,
       mapped := if e.Remapped? && patch.Remapping? && e.ok then patch.target else s.mapped)
  }

  function Step(s: State, e: Event): State {
    match e
    case NewCall(device, occupied) => s.(calls := s.calls[s.next := Writing(device, occupied)], next := s.next + 1)
    case NewPatch(target) => s.(patches := s.patches[s.next := Reading(target)], next := s.next + 1)
    case SnapshotWritten(c, _) => if c in s.calls then OnCall(s, e, c, s.calls[c]) else s
    case Rechecked(c, _) => if c in s.calls then OnCall(s, e, c, s.calls[c]) else s
    case Started(c, _) => if c in s.calls then OnCall(s, e, c, s.calls[c]) else s
    case Ended(c, _) => if c in s.calls then OnCall(s, e, c, s.calls[c]) else s
    case PatchRead(p, _) => if p in s.patches then OnPatch(s, e, p, s.patches[p]) else s
    case Closed(p, _, _) => if p in s.patches then OnPatch(s, e, p, s.patches[p]) else s
    case Remapped(p, _) => if p in s.patches then OnPatch(s, e, p, s.patches[p]) else s
  }

  function Run(s: State, events: seq<Event>): State
    decreases events
  {
    if events == [] then s else Run(Step(s, events[0]), events[1..])
  }

  // ----- A session is open only under the mapped device -----

  predicate UnderMapping(s: State) { s.session.Some? ==> s.mapped == s.session }

  /** A session starts on a machine mapped elsewhere by now, or a mapping is written away under an open session. */
  predicate Parts(s: State, e: Event) {
    || (e.Started? && e.ok && e.c in s.calls && s.calls[e.c].Starting? && s.session.None?
        && s.mapped != Some(s.calls[e.c].device))
    || (e.Remapped? && e.ok && e.p in s.patches && s.patches[e.p].Remapping? && s.session.Some?
        && s.patches[e.p].target != s.session)
  }

  /** A step takes a session out from under its mapping exactly when it is one of the two. */
  lemma SessionsStayUnderMapping(s: State, e: Event)
    requires UnderMapping(s)
    ensures UnderMapping(Step(s, e)) <==> !Parts(s, e)
  {
  }

  ghost predicate AlwaysUnderMapping(s: State, events: seq<Event>)
    decreases events
  {
    UnderMapping(s) && (events == [] || AlwaysUnderMapping(Step(s, events[0]), events[1..]))
  }

  ghost predicate NothingParts(s: State, events: seq<Event>)
    decreases events
  {
    events == [] || (!Parts(s, events[0]) && NothingParts(Step(s, events[0]), events[1..]))
  }

  /** Throughout a run sessions are open only under the mapped device exactly when no step parts them. */
  lemma {:induction false} RunsStayUnderMapping(s: State, events: seq<Event>)
    requires UnderMapping(s)
    ensures AlwaysUnderMapping(s, events) <==> NothingParts(s, events)
    decreases events
  {
    if events != [] {
      SessionsStayUnderMapping(s, events[0]);
      hide UnderMapping, Parts, Step;
      if !Parts(s, events[0]) {
        RunsStayUnderMapping(Step(s, events[0]), events[1..]);
      }
    }
  }

  // ----- ... and no patch under way will take the machine away -----

  /** A patch that has closed the session and is about to take the machine away from the device. */
  ghost predicate Leaving(s: State, device: Device) {
    exists p :: p in s.patches && s.patches[p].Remapping? && s.patches[p].closed && s.patches[p].target != Some(device)
  }

  /** An open session's device is the mapped one, and no patch will take the machine away from it. */
  ghost predicate Owned(s: State) {
    s.session.Some? ==> s.mapped == s.session && !Leaving(s, s.session.value)
  }

  /**
   The two ways to endanger that: a session starts although its machine has been taken away from the
   device since the re-check, or a patch that has closed the session is about to do so; or a patch takes a
   machine in use away although it saw no mapping to change when it read the row.
   */
  ghost predicate Slips(s: State, e: Event) {
    || (&& e.Started? && e.ok && e.c in s.calls && s.calls[e.c].Starting? && s.session.None?
        && (s.mapped != Some(s.calls[e.c].device) || Leaving(s, s.calls[e.c].device)))
    || (&& e.Remapped? && e.ok && e.p in s.patches && s.patches[e.p].Remapping? && !s.patches[e.p].closed
        && s.session.Some? && s.patches[e.p].target != s.session)
  }

  ghost predicate IdsFresh(s: State) {
    (forall c :: c in s.calls ==> c < s.next) && (forall p :: p in s.patches ==> p < s.next)
  }

  lemma CallKeepsOwned(s: State, e: Event, c: Id)
    requires Owned(s) && c in s.calls
    requires (e.SnapshotWritten? || e.Rechecked? || e.Started? || e.Ended?) && e.c == c
    ensures Owned(OnCall(s, e, c, s.calls[c])) <==> !Slips(s, e)
  {
    hide CallNext;
    var s' := OnCall(s, e, c, s.calls[c]);
    assert forall d :: Leaving(s', d) <==> Leaving(s, d);
  }

  lemma PatchKeepsOwned(s: State, e: Event, p: Id)
    requires Owned(s) && p in s.patches
    requires (e.PatchRead? || e.Closed? || e.Remapped?) && e.p == p
    ensures Owned(OnPatch(s, e, p, s.patches[p])) <==> !Slips(s, e)
  {
    var patch, s' := s.patches[p], OnPatch(s, e, p, s.patches[p]);
    var patch' := s'.patches[p];
    forall d | Leaving(s', d) ensures Leaving(s, d) || (patch'.Remapping? && patch'.closed && patch.Closing?) {
      var k :| k in s'.patches && s'.patches[k].Remapping? && s'.patches[k].closed && s'.patches[k].target != Some(d);
      assert k != p ==> s.patches[k] == s'.patches[k];
    }
  }

  /**
   A step leaves an open session with the device its machine is mapped to, and out of reach of patches
   under way, exactly when it is neither of the two.  Without the patches see `SessionsStayUnderMapping`.
   */
  lemma SessionsStayOwned(s: State, e: Event)
    requires Owned(s) && IdsFresh(s)
    ensures IdsFresh(Step(s, e))
    ensures Owned(Step(s, e)) <==> !Slips(s, e)
  {
    match e {
      case SnapshotWritten(c, _) => if c in s.calls { CallKeepsOwned(s, e, c); }
      case Rechecked(c, _) => if c in s.calls { CallKeepsOwned(s, e, c); }
      case Started(c, _) => if c in s.calls { CallKeepsOwned(s, e, c); }
      case Ended(c, _) => if c in s.calls { CallKeepsOwned(s, e, c); }
      case PatchRead(p, _) => if p in s.patches { PatchKeepsOwned(s, e, p); }
      case Closed(p, _, _) => if p in s.patches { PatchKeepsOwned(s, e, p); }
      case Remapped(p, _) => if p in s.patches { PatchKeepsOwned(s, e, p); }
      case NewCall(_, _) => assert forall d :: Leaving(Step(s, e), d) <==> Leaving(s, d);
      case NewPatch(_) => assert forall d :: Leaving(Step(s, e), d) ==> Leaving(s, d);
    }
  }

  ghost predicate NothingSlips(s: State, events: seq<Event>)
    decreases events
  {
    events == [] || (!Slips(s, events[0]) && NothingSlips(Step(s, events[0]), events[1..]))
  }

  /** While nothing slips, an unmapped machine never has an open session. */
  lemma {:induction false} UnmappedMeansClosed(s: State, events: seq<Event>)
    requires Owned(s) && IdsFresh(s) && NothingSlips(s, events)
    ensures
      var s' := Run(s, events);
      && Owned(s') && IdsFresh(s')
      && (s'.session.Some? ==> s'.mapped == s'.session)
    decreases events
  {
    hide Owned, IdsFresh, Step, Slips;
    if events != [] {
      SessionsStayOwned(s, events[0]);
      UnmappedMeansClosed(Step(s, events[0]), events[1..]);
    } else {
      OwnedMeansMapped(s);
    }
  }

  lemma OwnedMeansMapped(s: State)
    requires Owned(s)
    ensures s.session.Some? ==> s.mapped == s.session
  {
  }

  // ----- Unmapping between the re-check and the start -----

  function MappedTo(device: Device): State { State(Some(device), None, map[], map[], 0) }

  function UpToRecheck(device: Device): seq<Event> { [NewCall(device, true), SnapshotWritten(0, true), Rechecked(0, true)] }

  const UNMAP: seq<Event> := [NewPatch(None), PatchRead(1, true), Closed(1, false, true), Remapped(1, true)]

  lemma {:induction false} RunAppend(s: State, first: seq<Event>, second: seq<Event>)
    ensures Run(s, first + second) == Run(Run(s, first), second)
    decreases first
  {
    hide Step;
    if first == [] {
      assert first + second == second;
    } else {
      assert (first + second)[1..] == first[1..] + second;
      RunAppend(Step(s, first[0]), first[1..], second);
    }
  }

  lemma Run3(s: State, a: Event, b: Event, c: Event)
    ensures Run(s, [a, b, c]) == Step(Step(Step(s, a), b), c)
  {
    hide Step;
    assert [a, b, c][1..] == [b, c];
    assert [b, c][1..] == [c];
    assert Run(Step(Step(s, a), b), [c]) == Run(Step(Step(Step(s, a), b), c), []);
  }

  /**
   No call fails, the patch runs whole between one re-check and the start it allows, and the unmapped
   machine is left with an open session.
   */
  lemma UnmapCanReopenUsage(device: Device)
    ensures
      var s := Run(MappedTo(device), UpToRecheck(device) + UNMAP + [Started(0, true)]);
      s.mapped.None? && s.session == Some(device) && s.calls == map[0 := CallOver] && s.patches == map[1 := PatchOver]
  {
    var s0 := MappedTo(device);
    var s1 := State(Some(device), None, map[0 := Starting(device)], map[], 1);
    var s2 := State(None, None, map[0 := Starting(device)], map[1 := PatchOver], 2);
    RunAppend(s0, UpToRecheck(device) + UNMAP, [Started(0, true)]);
    RunAppend(s0, UpToRecheck(device), UNMAP);
    Run3(s0, NewCall(device, true), SnapshotWritten(0, true), Rechecked(0, true));
    assert Run(s0, UpToRecheck(device)) == s1;
    Unmapping(device);
    var s3 := Step(s2, Started(0, true));
    assert Run(s2, [Started(0, true)]) == Run(s3, []);
  }

  lemma Unmapping(device: Device)
    ensures
      Run(State(Some(device), None, map[0 := Starting(device)], map[], 1), UNMAP)
      == State(None, None, map[0 := Starting(device)], map[1 := PatchOver], 2)
  {
    var s1 := State(Some(device), None, map[0 := Starting(device)], map[], 1);
    var s := s1.(patches := map[1 := Reading(None)], next := 2);
    assert Step(s1, NewPatch(None)) == s;
    assert UNMAP[1..] == [PatchRead(1, true), Closed(1, false, true), Remapped(1, true)];
    Run3(s, PatchRead(1, true), Closed(1, false, true), Remapped(1, true));
  }

  // ----- Whole calls and patches, with nothing in between -----

  /**
   A whole state of the mapped device opens a session if it is an occupied one and none is open, and closes
   the open one if it is not.  A state of another device does nothing.
   */
  lemma WholeCall(s: State, device: Device, occupied: bool)
    ensures
      var c := s.next;
      var written := Step(Step(s, NewCall(device, occupied)), SnapshotWritten(c, true));
      var ended := if occupied then Step(Step(written, Rechecked(c, true)), Started(c, true)) else Step(written, Ended(c, true));
      && ended.mapped == s.mapped && ended.patches == s.patches && c in ended.calls && ended.calls[c] == CallOver
      && ended.session == if s.mapped != Some(device) then s.session
                          else if !occupied then None
                          else if s.session == None then Some(device) else s.session
  {
  }

  /** A failing statement ends a call or a patch; a failed close or finish may have closed the session. */
  lemma FailedStatements(s: State, id: Id, committed: bool)
    ensures id in s.calls && s.calls[id].Writing? ==> Step(s, SnapshotWritten(id, false)) == s.(calls := s.calls[id := CallOver])
    ensures id in s.calls && s.calls[id].Rechecking? ==> Step(s, Rechecked(id, false)) == s.(calls := s.calls[id := CallOver])
    ensures id in s.calls && s.calls[id].Starting? ==> Step(s, Started(id, false)) == s.(calls := s.calls[id := CallOver])
    ensures id in s.calls && s.calls[id].Finishing? ==>
              Step(s, Ended(id, committed)) == s.(calls := s.calls[id := CallOver], session := if committed then None else s.session)
    ensures id in s.patches && s.patches[id].Reading? ==> Step(s, PatchRead(id, false)) == s.(patches := s.patches[id := PatchOver])
    ensures id in s.patches && s.patches[id].Closing? ==>
              Step(s, Closed(id, committed, false))
              == s.(patches := s.patches[id := PatchOver], session := if committed then None else s.session)
    ensures id in s.patches && s.patches[id].Remapping? ==> Step(s, Remapped(id, false)) == s.(patches := s.patches[id := PatchOver])
  {
  }

  /** A whole patch of a mapped machine closes the session exactly when the mapping changes, and then writes it. */
  lemma WholePatch(s: State, target: Option<Device>)
    ensures
      var p := s.next;
      var changes := s.mapped != None && target != s.mapped;
      var read := Step(Step(s, NewPatch(target)), PatchRead(p, true));
      var ended := if changes then Step(Step(read, Closed(p, true, true)), Remapped(p, true)) else Step(read, Remapped(p, true));
      && ended.mapped == target && ended.calls == s.calls && p in ended.patches && ended.patches[p] == PatchOver
      && ended.session == if changes then None else s.session
  {
  }

  /** The re-check stops a call whose machine has left the device since its snapshot was written. */
  lemma RecheckStopsLateCalls(s: State, c: Id, device: Device)
    requires c in s.calls && s.calls[c] == Rechecking(device)
    ensures
      Step(s, Rechecked(c, true))
      == s.(calls := s.calls[c := if s.mapped == Some(device) then Starting(device) else CallOver])
  {
  }

  /** Between closing the session and writing the mapping a patch is about to take the machine away. */
  lemma ClosedPatchIsLeaving(s: State, p: Id, target: Option<Device>, device: Device, committed: bool)
    requires p in s.patches && s.patches[p] == Closing(target) && target != Some(device)
    ensures
      var s' := Step(s, Closed(p, committed, true));
      && s'.session == None && s'.mapped == s.mapped && s'.calls == s.calls && Leaving(s', device)
  {
    var s' := Step(s, Closed(p, committed, true));
    assert s'.patches[p].Remapping? && s'.patches[p].closed && s'.patches[p].target != Some(device);
  }
}
