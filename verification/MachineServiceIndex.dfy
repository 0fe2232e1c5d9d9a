/**
 The machine service's administrative operations over its index maps and the machine table
 (src/machine/machine.service.ts:73-94, 188-222, 388-418, 523-525, 711-739).  Every method takes exactly
 the step of `MachineIndex` and keeps `Valid`, the agreement proved there.
 */
module MachineServiceIndex {
  import opened Options
  import opened PowerPipeline
  import opened MachineIndex

  class MachineIndexService {
    // The database.
    var table: map<Id, Row>
    var open: set<Id>
    var next: Id
    // The service's maps.
    var types: map<Mac, MachineType>
    var uuids: map<Mac, Id>
    var statuses: map<Mac, Status>
    ghost var lagging: set<Mac>

    ghost function View(): Service
      reads this
    {
      Service(table, open, types, uuids, statuses, next, lagging)
    }

    /** Table and index agree. */
    ghost predicate Valid()
      reads this
    {
      IndexOk(View())
    }

    /** A process that has just started over an existing table. */
    constructor (table: map<Id, Row>, open: set<Id>, next: Id)
      ensures View() == Service(table, open, map[], map[], map[], next, {})
    {
      this.table, this.open, this.next := table, open, next;
      types, uuids, statuses, lagging := map[], map[], map[], {};
    }

    /** Indexes the machines in the order they are read; a commissioned one without a MAC stops the start. */
    method OnModuleInit(order: seq<Id>) returns (started: bool)
      requires ListsActive(View(), order) && View() == Empty(View())
      modifies this`types, this`uuids, this`statuses
      ensures started <==> forall u :: u in table && Active(table, u) ==> Bootable(table[u])
      ensures started ==> View() == Apply(old(View()), Restart(order))
      ensures TableOk(table, next) ==> started && Valid()
    {
      if TableOk(table, next) { RestartKeeps(View(), order); }
      hide TableOk, IndexOk;
      var i := 0;
      while i < |order|
        invariant 0 <= i <= |order|
        invariant View() == IndexRows(old(View()), order[..i])
        invariant forall k :: 0 <= k < i ==> order[k] in table && Bootable(table[order[k]])
      {
        var machine := table[order[i]];
        hide Bootable;
        IndexMachine(order[i], machine);
        assert order[..i + 1][..i] == order[..i];
        hide IndexRow, View;
        assert View() == IndexRows(old(View()), order[..i + 1]);
        hide IndexRows;
        if !Bootable(machine) { return false; }
        i := i + 1;
      }
      assert order[..i] == order;
      return true;
    }

    method IndexMachine(uuid: Id, machine: Row)
      requires uuid in table && table[uuid] == machine
      modifies this`types, this`uuids, this`statuses
      ensures View() == IndexRow(old(View()), uuid)
    {
      if machine.mac.Some? {
        types := types[machine.mac.value := machine.machineType];
        uuids := uuids[machine.mac.value := uuid];
        statuses := statuses[machine.mac.value := machine.status];
      }
    }

    method CreateMachine(machineType: MachineType, slot: Slot, payload: Option<string>, device: Option<DeviceId>)
      returns (created: Option<Id>)
      requires Valid()
      modifies this`table, this`next
      ensures Valid() && View() == Apply(old(View()), Create(machineType, slot, payload, device))
      ensures created == if old(CreateAccepted(View(), Create(machineType, slot, payload, device))) then Some(old(next)) else None
    {
      ApplyKeepsIndex(View(), Create(machineType, slot, payload, device));
      created := InsertMachine(machineType, slot, payload, device);
      hide IndexOk, Apply, CreateAccepted;
    }

    method InsertMachine(machineType: MachineType, slot: Slot, payload: Option<string>, device: Option<DeviceId>)
      returns (created: Option<Id>)
      modifies this`table, this`next
      ensures View() == Apply(old(View()), Create(machineType, slot, payload, device))
      ensures created == if old(CreateAccepted(View(), Create(machineType, slot, payload, device))) then Some(old(next)) else None
    {
      if device.Some? && !machineType.Dryer? { return None; }
      if SlotTaken(table, machineType, slot) || DeviceTaken(table, device, next) { return None; }
      hide SlotTaken, DeviceTaken;
      created := Some(next);
      table := table[next := Row(machineType, slot, true, IdleStatus, payload, None, false, device, false)];
      next := next + 1;
    }

    method ForgetMacAddress(mac: Mac)
      modifies this`types, this`uuids, this`statuses
      ensures View() == ForgetMac(old(View()), mac)
    {
      types := types - {mac};
      uuids := uuids - {mac};
      statuses := statuses - {mac};
    }

    /** The repository's checks and its single write; nothing when one of them refuses. */
    method WriteRow(uuid: Id, available: Option<bool>, payload: Option<string>, patch: DevicePatch) returns (row: Option<Row>)
      modifies this`table
      ensures
        var op := Update(uuid, available, payload, patch, Done);
        if old(UpdateAccepted(View(), op))
        then row == Some(Patched(old(table)[uuid], op)) && table == old(table)[uuid := row.value]
        else row == None && table == old(table)
    {
      if !Active(table, uuid) { return None; }
      var machine := table[uuid];
      if patch.MapTo? && !machine.machineType.Dryer? { return None; }
      if Truthy(machine.payload) && payload.Some? { return None; }
      if Truthy(payload) && machine.payload.Some? { return None; }
      if DeviceTaken(table, PatchedDevice(machine, patch), uuid) { return None; }
      hide DeviceTaken;
      var patched := machine.(device := PatchedDevice(machine, patch));
      if available.Some? { patched := patched.(available := available.value); }
      if patch.MapTo? { patched := patched.(mac := None, commissioned := false); }
      if MappingChanges(machine, patch) { patched := patched.(status := IdleStatus); }
      if Truthy(payload) { patched := patched.(payload := payload, commissioned := false); }
      table := table[uuid := patched];
      return Some(patched);
    }

    /** `finish` is how closing the session ends, should the machine leave its ThinQ device. */
    method UpdateMachine(uuid: Id, available: Option<bool>, payload: Option<string>, patch: DevicePatch, finish: SessionOutcome)
      requires Valid()
      modifies this
      ensures Valid() && View() == Apply(old(View()), Update(uuid, available, payload, patch, finish))
    {
      ApplyKeepsIndex(View(), Update(uuid, available, payload, patch, finish));
      PatchMachine(uuid, available, payload, patch, finish);
      hide IndexOk, Apply;
    }

    method PatchMachine(uuid: Id, available: Option<bool>, payload: Option<string>, patch: DevicePatch, finish: SessionOutcome)
      modifies this
      ensures View() == Apply(old(View()), Update(uuid, available, payload, patch, finish))
    {
      hide UpdateAccepted, Patched, IndexRows;
      var previous: Option<Row> := if Active(table, uuid) then Some(table[uuid]) else None;
      if previous.Some? && MappingChanges(previous.value, patch) {
        if !finish.Failed? { open := open - {uuid}; }
        if !finish.Done? { return; }
      }
      hide MappingChanges;
      ghost var s := View();
      SameDecision(s, uuid, available, payload, patch, finish);
      var machine := WriteRow(uuid, available, payload, patch);
      if machine.None? { return; }
      if patch.MapTo? && previous.Some? && previous.value.mac.Some? { ForgetMacAddress(previous.value.mac.value); }
      if machine.value.mac.Some? {
        statuses := statuses[machine.value.mac.value := machine.value.status];
        lagging := lagging - {machine.value.mac.value};
      }
    }

    method CommissionMachine(uuid: Id, found: Option<Mac>) returns (commissioned: bool)
      requires Valid()
      modifies this
      ensures Valid() && View() == Apply(old(View()), Commission(uuid, found))
      ensures commissioned == old(CommissionAccepted(View(), Commission(uuid, found)))
    {
      ApplyKeepsIndex(View(), Commission(uuid, found));
      commissioned := TrackCommissioned(uuid, found);
      hide IndexOk, Apply, CommissionAccepted;
    }

    /** The checks, the row and the three maps. */
    method TrackCommissioned(uuid: Id, found: Option<Mac>) returns (commissioned: bool)
      modifies this
      ensures View() == Apply(old(View()), Commission(uuid, found))
      ensures commissioned == old(CommissionAccepted(View(), Commission(uuid, found)))
    {
      hide IndexRows;
      if !Active(table, uuid) { return false; }
      var machine := table[uuid];
      if machine.machineType.Dryer? && machine.device.Some? { return false; }
      if !Truthy(machine.payload) || machine.commissioned { return false; }
      if found.None? || MacTaken(table, found.value, uuid) { return false; }
      hide MacTaken;
      var mac := found.value;
      table := table[uuid := machine.(mac := Some(mac), commissioned := true)];
      types := types[mac := machine.machineType];
      uuids := uuids[mac := uuid];
      statuses := statuses[mac := machine.status];
      lagging := lagging - {mac};
      return true;
    }

    /** The index keeps the deleted machine's MAC. */
    method DeleteMachine(uuid: Id) returns (deleted: bool)
      requires Valid()
      modifies this`table
      ensures Valid() && View() == Apply(old(View()), Delete(uuid)) && deleted == old(Active(table, uuid))
    {
      ApplyKeepsIndex(View(), Delete(uuid));
      hide IndexOk;
      deleted := Active(table, uuid);
      if deleted { table := table[uuid := table[uuid].(deleted := true)]; }
    }

    /** One queued status update from its guard to its end. */
    method UpdateStatus(mac: Mac, status: Status, outcome: SessionOutcome)
      requires Valid()
      modifies this
      ensures Valid() && View() == Apply(old(View()), PowerStatus(mac, status, outcome))
    {
      ApplyKeepsIndex(View(), PowerStatus(mac, status, outcome));
      RunUpdate(mac, status, outcome);
      hide IndexOk, Apply;
    }

    /** The callback of the queued update. */
    method RunUpdate(mac: Mac, status: Status, outcome: SessionOutcome)
      modifies this
      ensures View() == Apply(old(View()), PowerStatus(mac, status, outcome))
    {
      hide WithStatus, IndexRows, OnUpdate, OnCommission, CreateAccepted;
      if mac !in uuids { return; }
      var previous: Option<Status> := if mac in statuses then Some(statuses[mac]) else None;
      if previous == Some(status) { return; }
      table := WithStatus(table, mac, status);
      lagging := lagging + {mac};
      if previous.Some? && (status.IdleStatus? || previous.value.IdleStatus?) {
        if !outcome.Failed? {
          open := if status.IdleStatus? then open - {uuids[mac]} else open + {uuids[mac]};
        }
        if !outcome.Done? { return; }
      }
      statuses := statuses[mac := status];
      lagging := old(lagging) - {mac};
    }

    /** A state of the mapped dryer is written to its row, which has no MAC and so no cached status. */
    method UpdateThinqStatus(uuid: Id, deviceId: DeviceId, status: Option<Status>) returns (count: nat)
      requires Valid()
      modifies this`table
      ensures Valid() && View() == Apply(old(View()), ThinqState(uuid, deviceId, status))
      ensures count == if old(Active(table, uuid) && table[uuid].machineType.Dryer? && table[uuid].device == Some(deviceId)) then 1 else 0
    {
      ApplyKeepsIndex(View(), ThinqState(uuid, deviceId, status));
      hide IndexOk;
      if !Active(table, uuid) || !table[uuid].machineType.Dryer? || table[uuid].device != Some(deviceId) { return 0; }
      if status.Some? { table := table[uuid := table[uuid].(status := status.value)]; }
      return 1;
    }

    method StartUsingMachine(uuid: Id)
      requires Valid()
      modifies this`open
      ensures Valid() && View() == Apply(old(View()), StartUse(uuid))
    {
      ApplyKeepsIndex(View(), StartUse(uuid));
      hide IndexOk;
      if Active(table, uuid) { open := open + {uuid}; }
    }
  }

  /** What the repository decides does not depend on how the session was closed. */
  lemma SameDecision(s: Service, uuid: Id, available: Option<bool>, payload: Option<string>, patch: DevicePatch,
                     finish: SessionOutcome)
    ensures
      var op, op' := Update(uuid, available, payload, patch, finish), Update(uuid, available, payload, patch, Done);
      && UpdateAccepted(s, op) == UpdateAccepted(s, op')
      && (UpdateAccepted(s, op) ==> Active(s.table, uuid) && Patched(s.table[uuid], op) == Patched(s.table[uuid], op'))
  {
    hide DeviceTaken;
  }
}
