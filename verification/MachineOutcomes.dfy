/**
 What each operation on a machine does to its row, the index and the session, in terms of the rows alone
 (src/machine/machine.service.ts:188-250, 388-418, 482-503, 711-739;
 libs/database/src/repositories/machine.repository.ts:95-119, 258-346, 400-432, 466-474), and what every run of
 them keeps of statuses and unique keys.
 */
module MachineOutcomes {
  import opened Options
  import opened PowerPipeline
  import opened MachineIndex

  predicate Alive(s: Service, u: Id) { u in s.table && s.table[u].deleted == false }

  predicate HasText(text: Option<string>) { text.Some? && |text.value| > 0 }

  // ----- Creating and deleting -----

  ghost predicate SlotFree(s: Service, machineType: MachineType, slot: Slot) {
    forall u :: Alive(s, u) ==> s.table[u].machineType != machineType || s.table[u].slot != slot
  }

  ghost predicate DeviceFree(s: Service, device: DeviceId, self: Id) {
    forall u :: Alive(s, u) && u != self ==> s.table[u].device != Some(device)
  }

  /**
   A machine is created exactly when its slot is free and its device, which only a dryer may have, is no
   other machine's.  It is available, idle, without a MAC and not commissioned.
   */
  lemma CreateOutcome(s: Service, machineType: MachineType, slot: Slot, payload: Option<string>, device: Option<DeviceId>)
    ensures
      var accepted := && (device.Some? ==> machineType == Dryer && DeviceFree(s, device.value, s.next))
                      && SlotFree(s, machineType, slot);
      Apply(s, Create(machineType, slot, payload, device)) ==
      if accepted
      then s.(table := s.table[s.next := Row(machineType, slot, true, IdleStatus, payload, None, false, device, false)], next := s.next + 1)
      else s
  {
    SameActive(s);
    assert SlotTaken(s.table, machineType, slot) <==> !SlotFree(s, machineType, slot);
    assert device.Some? ==> (DeviceTaken(s.table, device, s.next) <==> !DeviceFree(s, device.value, s.next));
    hide SlotTaken, DeviceTaken, SlotFree, DeviceFree;
  }

  lemma SameActive(s: Service)
    ensures forall u :: Active(s.table, u) <==> Alive(s, u)
  {
  }

  /** Deleting marks the row and keeps the rest of it, the index and the session. */
  lemma DeleteOutcome(s: Service, u: Id)
    ensures Apply(s, Delete(u)) == if Alive(s, u) then s.(table := s.table[u := s.table[u].(deleted := true)]) else s
  {
  }

  lemma StartOutcome(s: Service, u: Id)
    ensures Apply(s, StartUse(u)) == if Alive(s, u) then s.(open := s.open + {u}) else s
  {
  }

  // ----- Patching -----

  /** The device that the patch leaves. */
  function NewDevice(row: Row, patch: DevicePatch): Option<DeviceId> {
    if patch.Keep? then row.device else if patch.Unmap? then None else Some(patch.device)
  }

  /** The patch takes the machine off the device it is mapped to. */
  predicate LeavesDevice(row: Row, patch: DevicePatch) { row.device != None && NewDevice(row, patch) != row.device }

  ghost predicate Patchable(s: Service, u: Id, payload: Option<string>, patch: DevicePatch) {
    && Alive(s, u)
    && (patch.MapTo? ==> s.table[u].machineType == Dryer)
    && (HasText(s.table[u].payload) ==> payload == None)
    && (HasText(payload) ==> s.table[u].payload == None)
    && (NewDevice(s.table[u], patch).Some? ==> DeviceFree(s, NewDevice(s.table[u], patch).value, u))
  }

  lemma SameDecision(s: Service, op: Op)
    requires op.Update?
    ensures UpdateAccepted(s, op) <==> Patchable(s, op.uuid, op.payload, op.patch)
    ensures Active(s.table, op.uuid) ==> (MappingChanges(s.table[op.uuid], op.patch) <==> LeavesDevice(s.table[op.uuid], op.patch))
  {
    SameActive(s);
    if Alive(s, op.uuid) {
      var device := NewDevice(s.table[op.uuid], op.patch);
      assert PatchedDevice(s.table[op.uuid], op.patch) == device;
      assert DeviceTaken(s.table, device, op.uuid) <==> device.Some? && !DeviceFree(s, device.value, op.uuid);
    }
    hide DeviceTaken, DeviceFree;
  }

  /**
   An accepted patch sets availability, payload and device as asked.  Mapping to a device takes MAC and
   commission away; leaving a device makes the machine idle; a payload resets the commission.
   */
  lemma PatchOutcome(s: Service, op: Op)
    requires op.Update? && Patchable(s, op.uuid, op.payload, op.patch)
    requires !LeavesDevice(s.table[op.uuid], op.patch) || op.finish == Done
    ensures
      var before, s' := s.table[op.uuid], Apply(s, op);
      && op.uuid in s'.table && s'.table == s.table[op.uuid := s'.table[op.uuid]] && s'.next == s.next
      && var row := s'.table[op.uuid];
         && row.machineType == before.machineType && row.slot == before.slot && row.deleted == before.deleted
         && row.available == (if op.available.Some? then op.available.value else before.available)
         && row.payload == (if HasText(op.payload) then op.payload else before.payload)
         && row.device == NewDevice(before, op.patch)
         && row.mac == (if op.patch.MapTo? then None else before.mac)
         && row.commissioned == (before.commissioned && !op.patch.MapTo? && !HasText(op.payload))
         && row.status == (if LeavesDevice(before, op.patch) then IdleStatus else before.status)
         && s'.open == (if LeavesDevice(before, op.patch) then s.open - {op.uuid} else s.open)
         && (op.patch.MapTo? && before.mac.Some? ==>
               s'.uuids == s.uuids - {before.mac.value} && s'.types == s.types - {before.mac.value}
               && s'.statuses == s.statuses - {before.mac.value})
         && (!(op.patch.MapTo? && before.mac.Some?) ==>
               s'.uuids == s.uuids && s'.types == s.types
               && s'.statuses == (if row.mac.Some? then s.statuses[row.mac.value := row.status] else s.statuses))
  {
    var s1 := if LeavesDevice(s.table[op.uuid], op.patch) then s.(open := s.open - {op.uuid}) else s;
    SameDecision(s, op);
    SameDecision(s1, op);
    assert Patchable(s1, op.uuid, op.payload, op.patch) <==> Patchable(s, op.uuid, op.payload, op.patch);
    assert Apply(s, op) == WriteUpdate(s1, op) by { hide UpdateAccepted, Patchable, WriteUpdate; }
    hide Apply, UpdateAccepted, Patchable, MappingChanges;
    WrittenPatch(s1, op);
  }

  lemma WrittenPatch(s: Service, op: Op)
    requires op.Update? && UpdateAccepted(s, op)
    ensures
      var before, s' := s.table[op.uuid], WriteUpdate(s, op);
      && op.uuid in s'.table && s'.table == s.table[op.uuid := s'.table[op.uuid]] && s'.next == s.next && s'.open == s.open
      && var row := s'.table[op.uuid];
         && row.machineType == before.machineType && row.slot == before.slot && row.deleted == before.deleted
         && row.available == (if op.available.Some? then op.available.value else before.available)
         && row.payload == (if HasText(op.payload) then op.payload else before.payload)
         && row.device == NewDevice(before, op.patch)
         && row.mac == (if op.patch.MapTo? then None else before.mac)
         && row.commissioned == (before.commissioned && !op.patch.MapTo? && !HasText(op.payload))
         && row.status == (if LeavesDevice(before, op.patch) then IdleStatus else before.status)
         && (op.patch.MapTo? && before.mac.Some? ==>
               s'.uuids == s.uuids - {before.mac.value} && s'.types == s.types - {before.mac.value}
               && s'.statuses == s.statuses - {before.mac.value})
         && (!(op.patch.MapTo? && before.mac.Some?) ==>
               s'.uuids == s.uuids && s'.types == s.types
               && s'.statuses == (if row.mac.Some? then s.statuses[row.mac.value := row.status] else s.statuses))
  {
    SameDecision(s, op);
    hide UpdateAccepted, MappingChanges, Patchable;
  }

  /** A refused patch leaves table and index; so does one whose session close does not return. */
  lemma RefusedPatch(s: Service, op: Op)
    requires op.Update?
    requires !Patchable(s, op.uuid, op.payload, op.patch)
             || (LeavesDevice(s.table[op.uuid], op.patch) && op.finish != Done)
    ensures
      var s' := Apply(s, op);
      && s' == s.(open := s'.open)
      && s'.open == if Alive(s, op.uuid) && LeavesDevice(s.table[op.uuid], op.patch) && op.finish != Failed
                    then s.open - {op.uuid} else s.open
  {
    SameDecision(s, op);
    SameDecision(s.(open := s.open - {op.uuid}), op);
    assert Patchable(s.(open := s.open - {op.uuid}), op.uuid, op.payload, op.patch) <==> Patchable(s, op.uuid, op.payload, op.patch);
    hide UpdateAccepted, Patchable, MappingChanges;
  }

  // ----- Commissioning -----

  /** An uncommissioned machine with a payload, that is no mapped dryer, gets the MAC unless another has it. */
  lemma CommissionOutcome(s: Service, u: Id, found: Option<Mac>)
    ensures
      var accepted :=
        && Alive(s, u) && HasText(s.table[u].payload) && s.table[u].commissioned == false
        && !(s.table[u].machineType == Dryer && s.table[u].device != None)
        && found.Some? && forall v :: Alive(s, v) && v != u ==> s.table[v].mac != found;
      var s' := Apply(s, Commission(u, found));
      && (!accepted ==> s' == s)
      && (accepted ==>
            var row, mac := s.table[u], found.value;
            && s'.table == s.table[u := row.(mac := Some(mac), commissioned := true)]
            && s'.uuids == s.uuids[mac := u] && s'.types == s.types[mac := row.machineType]
            && s'.statuses == s.statuses[mac := row.status] && s'.open == s.open && s'.next == s.next)
  {
    SameActive(s);
    assert found.Some? ==> (MacTaken(s.table, found.value, u) <==> exists v :: Alive(s, v) && v != u && s.table[v].mac == found);
    hide MacTaken;
  }

  /** A start is refused exactly for a commissioned machine without a MAC that is no mapped dryer. */
  lemma StartRefused(row: Row)
    ensures !Bootable(row) <==>
              row.commissioned == true && row.mac == None && !(row.machineType == Dryer && row.device != None)
  {
  }

  // ----- Statuses -----

  /** A ThinQ state reaches exactly an active dryer mapped to the device, and only its status. */
  lemma ThinqOutcome(s: Service, u: Id, device: DeviceId, status: Option<Status>)
    ensures
      Apply(s, ThinqState(u, device, status)) ==
      if Alive(s, u) && s.table[u].machineType == Dryer && s.table[u].device == Some(device) && status.Some?
      then s.(table := s.table[u := s.table[u].(status := status.value)])
      else s
  {
  }

  /**
   A power update of a tracked MAC with a cached status: skipped if the status is cached already; otherwise
   the row shows it, going idle closes the session and leaving idle opens it, and the cache follows unless
   the session change did not return.
   */
  lemma PowerOutcome(s: Service, mac: Mac, status: Status, outcome: SessionOutcome)
    requires mac in s.uuids && mac in s.statuses
    ensures
      var s' := Apply(s, PowerStatus(mac, status, outcome));
      var cached, u := s.statuses[mac], s.uuids[mac];
      var changes := status == IdleStatus || cached == IdleStatus;
      && (cached == status ==> s' == s)
      && (cached != status ==>
            && s'.table.Keys == s.table.Keys
            && (forall v :: v in s.table ==>
                  s'.table[v] == if Alive(s, v) && s.table[v].mac == Some(mac) then s.table[v].(status := status) else s.table[v])
            && s'.uuids == s.uuids && s'.types == s.types && s'.next == s.next
            && s'.open == (if !changes || outcome == Failed then s.open
                           else if status == IdleStatus then s.open - {u} else s.open + {u})
            && s'.statuses == (if changes && outcome != Done then s.statuses else s.statuses[mac := status]))
  {
    SameActive(s);
  }

  /** An update of an untracked MAC does nothing. */
  lemma UntrackedPower(s: Service, mac: Mac, status: Status, outcome: SessionOutcome)
    requires mac !in s.uuids
    ensures Apply(s, PowerStatus(mac, status, outcome)) == s
  {
  }

  // ----- Over every run -----

  /** A machine that neither power readings nor a ThinQ device can report on reads IDLE. */
  ghost predicate UnreportedIdle(s: Service) {
    forall u :: u in s.table && s.table[u].mac == None && s.table[u].device == None ==> s.table[u].status == IdleStatus
  }

  ghost predicate UniqueKeys(s: Service) {
    forall u, v :: Alive(s, u) && Alive(s, v) && u != v ==>
      && (s.table[u].device.Some? ==> s.table[u].device != s.table[v].device)
      && (s.table[u].machineType == s.table[v].machineType ==> s.table[u].slot != s.table[v].slot)
  }

  ghost predicate RunOk(s: Service) { IndexOk(s) && UnreportedIdle(s) && UniqueKeys(s) }

  /** Rows keep type and slot, and nothing gains a device. */
  ghost predicate KeepsKeys(s: Service, s': Service) {
    && (forall u :: Alive(s', u) ==> Alive(s, u) && s'.table[u].machineType == s.table[u].machineType
                                     && s'.table[u].slot == s.table[u].slot)
    && (forall u :: Alive(s', u) ==> s'.table[u].device == s.table[u].device || s'.table[u].device == None)
  }

  lemma KeepsKeysUnique(s: Service, s': Service)
    requires UniqueKeys(s) && KeepsKeys(s, s')
    ensures UniqueKeys(s')
  {
  }

  /** One row is replaced by one of the same slot whose device, if any, is no other machine's. */
  lemma ReplacedRowKeeps(s: Service, s': Service, u: Id)
    requires UnreportedIdle(s) && UniqueKeys(s) && Alive(s, u) && u in s'.table && s'.table == s.table[u := s'.table[u]]
    requires
      var row := s'.table[u];
      && row.machineType == s.table[u].machineType && row.slot == s.table[u].slot && row.deleted == false
      && (row.device.Some? ==> DeviceFree(s, row.device.value, u))
      && (row.mac == None && row.device == None ==> row.status == IdleStatus)
    ensures UnreportedIdle(s') && UniqueKeys(s')
  {
    forall v, w | Alive(s', v) && Alive(s', w) && v != w
      ensures s'.table[v].device.Some? ==> s'.table[v].device != s'.table[w].device
      ensures s'.table[v].machineType == s'.table[w].machineType ==> s'.table[v].slot != s'.table[w].slot
    {
      assert Alive(s, v) && Alive(s, w);
      assert v != u ==> s'.table[v] == s.table[v];
      assert w != u ==> s'.table[w] == s.table[w];
    }
  }

  lemma PatchedIsIdle(s: Service, op: Op)
    requires op.Update? && UnreportedIdle(s) && Patchable(s, op.uuid, op.payload, op.patch)
    requires !LeavesDevice(s.table[op.uuid], op.patch) || op.finish == Done
    ensures op.uuid in Apply(s, op).table
    ensures
      var row := Apply(s, op).table[op.uuid];
      row.mac == None && row.device == None ==> row.status == IdleStatus
  {
    PatchOutcome(s, op);
    hide Apply, Patchable;
  }

  lemma UpdateKeepsRun(s: Service, op: Op)
    requires RunOk(s) && op.Update?
    ensures UnreportedIdle(Apply(s, op)) && UniqueKeys(Apply(s, op))
  {
    hide IndexOk, UniqueKeys;
    if Patchable(s, op.uuid, op.payload, op.patch) && (!LeavesDevice(s.table[op.uuid], op.patch) || op.finish == Done) {
      PatchOutcome(s, op);
      PatchedIsIdle(s, op);
      hide Apply, UnreportedIdle, DeviceFree;
      ReplacedRowKeeps(s, Apply(s, op), op.uuid);
    } else {
      RefusedPatch(s, op);
      hide Apply, UnreportedIdle, Patchable;
      SameTableKeepsRun(s, Apply(s, op));
    }
  }

  lemma CreateKeepsRun(s: Service, op: Op)
    requires RunOk(s) && op.Create?
    ensures UnreportedIdle(Apply(s, op)) && UniqueKeys(Apply(s, op))
  {
    CreateOutcome(s, op.machineType, op.slot, op.payload, op.device);
    var s' := Apply(s, op);
    hide Apply;
    assert forall v :: Alive(s', v) && v != s.next ==> Alive(s, v) && s'.table[v] == s.table[v];
    hide IndexOk;
  }

  /** Only statuses of machines with a MAC or a device change. */
  ghost predicate OnlyStatuses(s: Service, s': Service) {
    && s'.table.Keys == s.table.Keys
    && forall u :: u in s.table ==>
         && s'.table[u] == s.table[u].(status := s'.table[u].status)
         && (s.table[u].mac == None && s.table[u].device == None ==> s'.table[u] == s.table[u])
  }

  lemma OnlyStatusesKeep(s: Service, s': Service)
    requires UnreportedIdle(s) && UniqueKeys(s) && OnlyStatuses(s, s')
    ensures UnreportedIdle(s') && UniqueKeys(s')
  {
    assert forall u :: Alive(s', u) <==> Alive(s, u);
    KeepsKeysUnique(s, s');
    hide UniqueKeys;
  }

  lemma ThinqOnlyStatuses(s: Service, u: Id, device: DeviceId, status: Option<Status>)
    ensures OnlyStatuses(s, Apply(s, ThinqState(u, device, status)))
  {
    ThinqOutcome(s, u, device, status);
    hide Apply;
  }

  lemma PowerOnlyStatuses(s: Service, mac: Mac, status: Status, outcome: SessionOutcome)
    requires mac in s.uuids ==> mac in s.statuses
    ensures OnlyStatuses(s, Apply(s, PowerStatus(mac, status, outcome)))
  {
    PowerStatusEffects(s, mac, status, outcome);
    hide OnPowerStatus;
  }

  lemma StatusOpKeepsRun(s: Service, op: Op)
    requires RunOk(s) && (op.PowerStatus? || op.ThinqState?)
    ensures UnreportedIdle(Apply(s, op)) && UniqueKeys(Apply(s, op))
  {
    assert op.PowerStatus? && op.mac in s.uuids ==> op.mac in s.statuses by { hide TableOk, Tracked, EntriesOk, StatusesAgree; }
    hide IndexOk, Apply, UnreportedIdle, UniqueKeys, OnlyStatuses;
    if op.ThinqState? {
      ThinqOnlyStatuses(s, op.uuid, op.reporter, op.reported);
    } else {
      PowerOnlyStatuses(s, op.mac, op.status, op.outcome);
    }
    OnlyStatusesKeep(s, Apply(s, op));
  }

  /** The tables agree but for one row that keeps what the keys are and has a MAC, or is deleted. */
  lemma RowOpKeepsRun(s: Service, s': Service, u: Id)
    requires UnreportedIdle(s) && UniqueKeys(s) && u in s.table && u in s'.table && s'.table == s.table[u := s'.table[u]]
    requires
      var before, row := s.table[u], s'.table[u];
      && row.machineType == before.machineType && row.slot == before.slot && row.device == before.device
      && (before.deleted ==> row.deleted) && row.status == before.status && (row.mac == None ==> before.mac == None)
    ensures UnreportedIdle(s') && UniqueKeys(s')
  {
    assert KeepsKeys(s, s') by { hide UnreportedIdle, UniqueKeys; }
    KeepsKeysUnique(s, s');
    hide UniqueKeys, KeepsKeys;
  }

  lemma CommissionKeepsRun(s: Service, u: Id, found: Option<Mac>)
    requires UnreportedIdle(s) && UniqueKeys(s)
    ensures UnreportedIdle(Apply(s, Commission(u, found))) && UniqueKeys(Apply(s, Commission(u, found)))
  {
    CommissionOutcome(s, u, found);
    hide Apply, UnreportedIdle, UniqueKeys;
    var s' := Apply(s, Commission(u, found));
    if s' != s { RowOpKeepsRun(s, s', u); }
  }

  lemma DeleteKeepsRun(s: Service, u: Id)
    requires UnreportedIdle(s) && UniqueKeys(s)
    ensures UnreportedIdle(Apply(s, Delete(u))) && UniqueKeys(Apply(s, Delete(u)))
  {
    DeleteOutcome(s, u);
    hide Apply, UnreportedIdle, UniqueKeys;
    if Alive(s, u) { RowOpKeepsRun(s, Apply(s, Delete(u)), u); }
  }

  lemma SameTableKeepsRun(s: Service, s': Service)
    requires UnreportedIdle(s) && UniqueKeys(s) && s'.table == s.table
    ensures UnreportedIdle(s') && UniqueKeys(s')
  {
  }

  lemma OtherOpKeepsRun(s: Service, op: Op)
    requires RunOk(s) && (op.Commission? || op.Delete? || op.StartUse? || op.Restart?)
    ensures UnreportedIdle(Apply(s, op)) && UniqueKeys(Apply(s, op))
  {
    hide IndexOk, UnreportedIdle, UniqueKeys;
    match op {
      case Commission(u, found) => CommissionKeepsRun(s, u, found);
      case Delete(u) => DeleteKeepsRun(s, u);
      case Restart(order) => RestartTable(s, order); SameTableKeepsRun(s, Apply(s, op));
      case StartUse(u) => StartOutcome(s, u); SameTableKeepsRun(s, Apply(s, op));
    }
    hide Apply;
  }

  lemma RestartTable(s: Service, order: seq<Id>)
    ensures Apply(s, Restart(order)).table == s.table
  {
    if ListsActive(s, order) { RestartKeepsTable(Empty(s), order); }
    hide IndexRows, ListsActive;
  }

  lemma {:induction false} RestartKeepsTable(s: Service, order: seq<Id>)
    ensures IndexRows(s, order).table == s.table
  {
    if order != [] { RestartKeepsTable(s, order[..|order| - 1]); }
  }

  lemma {:induction false} RunsStayOk(s: Service, ops: seq<Op>)
    requires RunOk(s)
    ensures RunOk(ApplyAll(s, ops))
    decreases ops
  {
    hide Apply, IndexOk, UnreportedIdle, UniqueKeys;
    if ops != [] {
      var op := ops[0];
      ApplyKeepsIndex(s, op);
      if op.Update? { UpdateKeepsRun(s, op); }
      else if op.Create? { CreateKeepsRun(s, op); }
      else if op.PowerStatus? || op.ThinqState? { StatusOpKeepsRun(s, op); }
      else { OtherOpKeepsRun(s, op); }
      RunsStayOk(Apply(s, op), ops[1..]);
    }
  }

  /**
   After any operations: a machine without MAC and device reads IDLE, so nothing stays running that nothing
   reports on any more; and no two active machines share a device, or a slot and a type.
   */
  lemma UnreportedMachinesAreIdle(ops: seq<Op>, u: Id, v: Id)
    ensures
      var s := ApplyAll(DEPLOYED, ops);
      && (u in s.table && s.table[u].mac == None && s.table[u].device == None ==> s.table[u].status == IdleStatus)
      && (Alive(s, u) && Alive(s, v) && u != v ==>
            && (s.table[u].device.Some? ==> s.table[u].device != s.table[v].device)
            && (s.table[u].machineType == s.table[v].machineType ==> s.table[u].slot != s.table[v].slot))
  {
    assert IndexOk(DEPLOYED);
    RunsStayOk(DEPLOYED, ops);
    hide ApplyAll, IndexOk;
  }
}
