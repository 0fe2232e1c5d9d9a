/**
 The machine table and the service's in-memory index by MAC address
 (src/machine/machine.service.ts:73-94, 188-250, 388-418, 523-525, 711-739;
 libs/database/src/repositories/machine.repository.ts:95-119, 258-346, 400-432, 466-474).

 Operations run whole, one after another.  The unique indexes on MAC address, ThinQ device and room slot
 of active machines are part of the table; the check constraint that keeps MAC addresses off
 ThinQ-mapped machines is not, because the code never needs it.
 */
module MachineIndex {
  import opened Options
  import opened PowerPipeline

  type Id = nat
  type Mac = string
  type DeviceId = id: string | id != "" witness "d"

  datatype Slot = Slot(location: string, gender: string, index: nat)

  datatype Row = Row(
    machineType: MachineType,
    slot: Slot,
    available: bool,
    status: Status,
    payload: Option<string>,
    mac: Option<Mac>,
    commissioned: bool,
    device: Option<DeviceId>,
    deleted: bool)

  /** A patch of `thinqDeviceId`: undefined, null or an id. */
  datatype DevicePatch = Keep | Unmap | MapTo(device: DeviceId)

  datatype Service = Service(
    table: map<Id, Row>,
    open: set<Id>,                  // machines with an open usage session
    types: map<Mac, MachineType>,
    uuids: map<Mac, Id>,
    statuses: map<Mac, Status>,
    next: Id,
    lagging: set<Mac>)              // history: MACs whose last status write was not followed by a cache write

  datatype Op =
    | Create(machineType: MachineType, slot: Slot, payload: Option<string>, device: Option<DeviceId>)
    | Update(uuid: Id, available: Option<bool>, payload: Option<string>, patch: DevicePatch, finish: SessionOutcome)
    | Commission(uuid: Id, found: Option<Mac>)               // the MAC that commissioning yields, if it succeeds
    | Delete(uuid: Id)
    | PowerStatus(mac: Mac, status: Status, outcome: SessionOutcome)   // one queued update whose guard held
    | ThinqState(uuid: Id, reporter: DeviceId, reported: Option<Status>)
    | StartUse(uuid: Id)
    | Restart(order: seq<Id>)                                // the active machines in the order they are read

  function Truthy(text: Option<string>): bool { text.Some? && text.value != "" }

  predicate Active(table: map<Id, Row>, u: Id) { u in table && !table[u].deleted }

  // ----- Which operations the table accepts -----

  predicate SlotTaken(table: map<Id, Row>, machineType: MachineType, slot: Slot) {
    exists u :: u in table && Active(table, u) && table[u].machineType == machineType && table[u].slot == slot
  }

  predicate DeviceTaken(table: map<Id, Row>, device: Option<DeviceId>, self: Id) {
    device.Some? && exists u :: u in table && u != self && Active(table, u) && table[u].device == device
  }

  predicate MacTaken(table: map<Id, Row>, mac: Mac, self: Id) {
    exists u :: u in table && u != self && Active(table, u) && table[u].mac == Some(mac)
  }

  predicate CreateAccepted(s: Service, op: Op)
    requires op.Create?
  {
    && (op.device.Some? ==> op.machineType.Dryer?)
    && !SlotTaken(s.table, op.machineType, op.slot)
    && !DeviceTaken(s.table, op.device, s.next)
  }

  function PatchedDevice(row: Row, patch: DevicePatch): Option<DeviceId> {
    match patch
    case Keep => row.device
    case Unmap => None
    case MapTo(device) => Some(device)
  }

  /** The machine leaves the ThinQ device it was mapped to. */
  predicate MappingChanges(row: Row, patch: DevicePatch) {
    !patch.Keep? && row.device.Some? && PatchedDevice(row, patch) != row.device
  }

  predicate UpdateAccepted(s: Service, op: Op)
    requires op.Update?
  {
    && Active(s.table, op.uuid)
    && var row := s.table[op.uuid];
       && (op.patch.MapTo? ==> row.machineType.Dryer?)
       && !(Truthy(row.payload) && op.payload.Some?)
       && (Truthy(op.payload) ==> row.payload.None?)
       && !DeviceTaken(s.table, PatchedDevice(row, op.patch), op.uuid)
  }

  predicate CommissionAccepted(s: Service, op: Op)
    requires op.Commission?
  {
    && Active(s.table, op.uuid)
    && var row := s.table[op.uuid];
       && !(row.machineType.Dryer? && row.device.Some?)
       && Truthy(row.payload) && !row.commissioned
       && op.found.Some? && !MacTaken(s.table, op.found.value, op.uuid)
  }

  // ----- Operations -----

  function Patched(row: Row, op: Op): Row
    requires op.Update?
  {
    var remapped := MappingChanges(row, op.patch);
    var mapped := op.patch.MapTo?;
    row.(
    available := if op.available.Some? then op.available.value else row.available,
    device := PatchedDevice(row, op.patch),
    mac := if mapped then None else row.mac,
    status := if remapped then IdleStatus else row.status,
    payload := if Truthy(op.payload) then op.payload else row.payload,
    commissioned := if mapped || Truthy(op.payload) then false else row.commissioned)
  }

  function ForgetMac(s: Service, mac: Mac): Service {
    s.(types := s.types - {mac}, uuids := s.uuids - {mac}, statuses := s.statuses - {mac})
  }

  function CacheRowStatus(s: Service, row: Row): Service {
    if row.mac.None? then s
    else s.(statuses := s.statuses[row.mac.value := row.status], lagging := s.lagging - {row.mac.value})
  }

  function WriteUpdate(s: Service, op: Op): Service
    requires op.Update?
  {
    if !UpdateAccepted(s, op) then s
    else
      var previous := s.table[op.uuid];
      var row := Patched(previous, op);
      var s1 := s.(table := s.table[op.uuid := row]);
      var s2 := if op.patch.MapTo? && previous.mac.Some? then ForgetMac(s1, previous.mac.value) else s1;
      CacheRowStatus(s2, row)
  }

  /** The session of a machine that leaves its device is closed first; if that fails nothing is written. */
  function OnUpdate(s: Service, op: Op): Service
    requires op.Update?
  {
    var changes := Active(s.table, op.uuid) && MappingChanges(s.table[op.uuid], op.patch);
    var s' := if changes && !op.finish.Failed? then s.(open := s.open - {op.uuid}) else s;
    if changes && !op.finish.Done? then s' else WriteUpdate(s', op)
  }

  function OnCommission(s: Service, op: Op): Service
    requires op.Commission?
  {
    if !CommissionAccepted(s, op) then s
    else
      var row, mac := s.table[op.uuid], op.found.value;
      s.(table := s.table[op.uuid := row.(mac := Some(mac), commissioned := true)],
         types := s.types[mac := row.machineType],
         uuids := s.uuids[mac := op.uuid],
         statuses := s.statuses[mac := row.status],
         lagging := s.lagging - {mac})
  }

  predicate Carries(table: map<Id, Row>, u: Id, mac: Mac) { Active(table, u) && table[u].mac == Some(mac) }

  /** `updateMachineStatusByMacAddress`. */
  function WithStatus(table: map<Id, Row>, mac: Mac, status: Status): map<Id, Row> {
    map u | u in table :: if Carries(table, u, mac) then table[u].(status := status) else table[u]
  }

  /** An update of the power path: the row first, then the session, then the cache. */
  function OnPowerStatus(s: Service, mac: Mac, status: Status, outcome: SessionOutcome): Service {
    if mac !in s.uuids || (mac in s.statuses && s.statuses[mac] == status) then s
    else
      var s1 := s.(table := WithStatus(s.table, mac, status), lagging := s.lagging + {mac});
      var cached := s1.(statuses := s.statuses[mac := status], lagging := s.lagging - {mac});
      if mac !in s.statuses then cached
      else if !status.IdleStatus? && !s.statuses[mac].IdleStatus? then cached
      else
        var open := if outcome.Failed? then s.open
                    else if status.IdleStatus? then s.open - {s.uuids[mac]}
                    else s.open + {s.uuids[mac]};
        (if outcome.Done? then cached else s1).(open := open)
  }

  function IndexRow(s: Service, u: Id): Service {
    if u !in s.table || s.table[u].mac.None? then s
    else
      var row := s.table[u];
      s.(types := s.types[row.mac.value := row.machineType], uuids := s.uuids[row.mac.value := u],
         statuses := s.statuses[row.mac.value := row.status])
  }

  function IndexRows(s: Service, order: seq<Id>): Service {
    if order == [] then s else IndexRow(IndexRows(s, order[..|order| - 1]), order[|order| - 1])
  }

  /** A commissioned machine must have a MAC address, or the service does not start. */
  predicate Bootable(row: Row) {
    (row.machineType.Dryer? && row.device.Some?) || !row.commissioned || row.mac.Some?
  }

  function Empty(s: Service): Service {
    s.(types := map[], uuids := map[], statuses := map[], lagging := {})
  }

  predicate ListsActive(s: Service, order: seq<Id>) {
    && (forall i :: 0 <= i < |order| ==> Active(s.table, order[i]))
    && (forall u :: u in s.table && Active(s.table, u) ==> u in order)
  }

  function Apply(s: Service, op: Op): Service {
    match op
    case Create(machineType, slot, payload, device) =>
      if !CreateAccepted(s, op) then s
      else s.(table := s.table[s.next := Row(machineType, slot, true, IdleStatus, payload, None, false, device, false)],
              next := s.next + 1)
    case Update(_, _, _, _, _) => OnUpdate(s, op)
    case Commission(_, _) => OnCommission(s, op)
    case Delete(u) => if Active(s.table, u) then s.(table := s.table[u := s.table[u].(deleted := true)]) else s
    case PowerStatus(mac, status, outcome) => OnPowerStatus(s, mac, status, outcome)
    case ThinqState(u, device, status) =>
      if Active(s.table, u) && s.table[u].machineType.Dryer? && s.table[u].device == Some(device) && status.Some?
      then s.(table := s.table[u := s.table[u].(status := status.value)])
      else s
    case StartUse(u) => if Active(s.table, u) then s.(open := s.open + {u}) else s
    case Restart(order) => if ListsActive(s, order) then IndexRows(Empty(s), order) else s
  }

  function ApplyAll(s: Service, ops: seq<Op>): Service
    decreases ops
  {
    if ops == [] then s else ApplyAll(Apply(s, ops[0]), ops[1..])
  }

  const DEPLOYED := Service(map[], {}, map[], map[], map[], 0, {})

  // ----- Agreement -----

  /** What the rows of ThinQ-mapped, commissioned and uncommissioned machines look like. */
  predicate RowOk(row: Row) {
    && (row.device.Some? ==> row.machineType.Dryer? && row.mac.None?)
    && (row.mac.Some? <==> row.commissioned)
    && (row.commissioned ==> Truthy(row.payload))
  }

  ghost predicate TableOk(table: map<Id, Row>, next: Id) {
    && (forall u :: u in table ==> u < next && RowOk(table[u]))
    && (forall u, v, mac :: Carries(table, u, mac) && Carries(table, v, mac) ==> u == v)
  }

  /** Every active machine with a MAC is tracked under its own uuid. */
  ghost predicate Tracked(table: map<Id, Row>, uuids: map<Mac, Id>) {
    forall u, mac :: Carries(table, u, mac) ==> mac in uuids && uuids[mac] == u
  }

  /** An index entry's uuid names a machine with that MAC and type, deleted or not. */
  ghost predicate EntriesOk(table: map<Id, Row>, types: map<Mac, MachineType>, uuids: map<Mac, Id>) {
    forall mac :: mac in uuids && mac in types ==>
      uuids[mac] in table && table[uuids[mac]].mac == Some(mac) && table[uuids[mac]].machineType == types[mac]
  }

  /** A MAC is tracked with a type and a status, or not at all. */
  ghost predicate SameKeys(s: Service) { s.types.Keys == s.uuids.Keys && s.statuses.Keys == s.uuids.Keys }

  /** The cached status differs from the row's exactly while the last status write is uncached. */
  ghost predicate StatusesAgree(table: map<Id, Row>, statuses: map<Mac, Status>, lagging: set<Mac>) {
    forall u, mac :: Carries(table, u, mac) && mac in statuses ==> (statuses[mac] == table[u].status <==> mac !in lagging)
  }

  ghost predicate IndexOk(s: Service) {
    && TableOk(s.table, s.next) && Tracked(s.table, s.uuids) && EntriesOk(s.table, s.types, s.uuids) && SameKeys(s)
    && StatusesAgree(s.table, s.statuses, s.lagging)
  }

  lemma ReplacedRow(table: map<Id, Row>, next: Id, u: Id, row: Row)
    requires TableOk(table, next) && u < next && RowOk(row)
    requires forall v, mac :: Carries(table, v, mac) && row.mac == Some(mac) ==> v == u
    ensures TableOk(table[u := row], next)
  {
    hide RowOk;
    var table' := table[u := row];
    assert forall v, mac :: v != u ==> (Carries(table', v, mac) <==> Carries(table, v, mac));
    assert forall mac :: Carries(table', u, mac) ==> row.mac == Some(mac);
  }

  /** Fewer machines carry a MAC, and those that do show the same status. */
  lemma FewerCarriers(table: map<Id, Row>, after: map<Id, Row>, uuids: map<Mac, Id>, statuses: map<Mac, Status>, lagging: set<Mac>)
    requires Tracked(table, uuids) && StatusesAgree(table, statuses, lagging)
    requires forall v, mac :: Carries(after, v, mac) ==> Carries(table, v, mac) && after[v].status == table[v].status
    ensures Tracked(after, uuids) && StatusesAgree(after, statuses, lagging)
  {
  }

  lemma SameEntries(table: map<Id, Row>, after: map<Id, Row>, types: map<Mac, MachineType>, uuids: map<Mac, Id>)
    requires EntriesOk(table, types, uuids)
    requires forall v :: v in table ==>
               v in after && after[v].mac == table[v].mac && after[v].machineType == table[v].machineType
    ensures EntriesOk(after, types, uuids)
  {
  }

  /** A row that keeps its MAC, type and cached status leaves the index right. */
  lemma SameMacKeeps(s: Service, u: Id, row: Row)
    requires IndexOk(s) && u in s.table && RowOk(row)
    requires
      var before := s.table[u];
      && row.mac == before.mac && row.machineType == before.machineType && (before.deleted ==> row.deleted)
      && (row.mac.Some? ==> row.status == before.status)
    ensures IndexOk(s.(table := s.table[u := row]))
  {
    var after := s.table[u := row];
    hide TableOk, RowOk, Tracked, EntriesOk, StatusesAgree;
    SameMacTable(s, u, row);
    FewerCarriers(s.table, after, s.uuids, s.statuses, s.lagging);
    SameEntries(s.table, after, s.types, s.uuids);
  }

  lemma SameMacTable(s: Service, u: Id, row: Row)
    requires TableOk(s.table, s.next) && u in s.table && RowOk(row) && row.mac == s.table[u].mac
    requires s.table[u].deleted ==> row.deleted
    ensures TableOk(s.table[u := row], s.next)
  {
    hide RowOk;
    var table' := s.table[u := row];
    assert forall v, mac :: Carries(table', v, mac) ==> Carries(s.table, v, mac);
  }

  lemma CachingKeeps(s: Service, u: Id)
    requires IndexOk(s) && Active(s.table, u)
    ensures IndexOk(CacheRowStatus(s, s.table[u]))
  {
    var row := s.table[u];
    if row.mac.Some? {
      assert Carries(s.table, u, row.mac.value);
      assert forall v :: Carries(s.table, v, row.mac.value) ==> v == u;
      hide RowOk, EntriesOk;
    }
  }

  /** Mapping a machine to a device takes it out of the index together with its MAC. */
  lemma ForgettingKeeps(s: Service, u: Id, row: Row)
    requires IndexOk(s) && Active(s.table, u) && RowOk(row) && row.mac.None?
    requires row.machineType == s.table[u].machineType
    ensures
      var s1 := s.(table := s.table[u := row]);
      IndexOk(if s.table[u].mac.Some? then ForgetMac(s1, s.table[u].mac.value) else s1)
  {
    var s1 := s.(table := s.table[u := row]);
    ReplacedRow(s.table, s.next, u, row);
    if s.table[u].mac.None? {
      SameMacKeeps(s, u, row);
    } else {
      var mac := s.table[u].mac.value;
      RemainingCarriers(s.table, s.next, u, row, mac);
      FewerCarriers(s.table, s1.table, s.uuids, s.statuses, s.lagging);
      Forgotten(s.table, s1, u, mac);
      hide Carries, EntriesOk, TableOk, RowOk;
      OthersStayTracked(s1, mac);
      hide Tracked, StatusesAgree;
    }
  }

  lemma RemainingCarriers(table: map<Id, Row>, next: Id, u: Id, row: Row, mac: Mac)
    requires TableOk(table, next) && Active(table, u) && table[u].mac == Some(mac) && row.mac.None?
    ensures Carries(table, u, mac)
    ensures forall v, m :: Carries(table[u := row], v, m) ==>
              Carries(table, v, m) && m != mac && table[u := row][v].status == table[v].status
  {
    assert Carries(table, u, mac);
    hide RowOk;
    assert forall v :: Carries(table, v, mac) ==> v == u;
    hide TableOk;
    var after := table[u := row];
    forall v, m | Carries(after, v, m) ensures Carries(table, v, m) && m != mac && after[v].status == table[v].status {
      assert v != u && after[v] == table[v];
      assert Carries(table, v, m);
    }
  }

  lemma OthersStayTracked(s: Service, mac: Mac)
    requires Tracked(s.table, s.uuids) && StatusesAgree(s.table, s.statuses, s.lagging)
    requires forall v, m :: Carries(s.table, v, m) ==> m != mac
    ensures
      var s' := ForgetMac(s, mac);
      Tracked(s'.table, s'.uuids) && StatusesAgree(s'.table, s'.statuses, s'.lagging)
  {
    hide Carries;
  }

  lemma Forgotten(table: map<Id, Row>, s1: Service, u: Id, mac: Mac)
    requires u in table && s1.table.Keys == table.Keys && table[u].mac == Some(mac)
    requires forall v :: v in table && v != u ==> s1.table[v] == table[v]
    requires EntriesOk(table, s1.types, s1.uuids) && Tracked(table, s1.uuids) && Carries(table, u, mac)
    ensures EntriesOk(s1.table, ForgetMac(s1, mac).types, ForgetMac(s1, mac).uuids)
  {
    hide Carries;
  }

  lemma WriteUpdateKeeps(s: Service, op: Op)
    requires IndexOk(s) && op.Update?
    ensures IndexOk(WriteUpdate(s, op))
  {
    if UpdateAccepted(s, op) {
      var row := Patched(s.table[op.uuid], op);
      PatchedRowOk(s, op);
      if op.patch.MapTo? {
        ForgettingKeeps(s, op.uuid, row);
      } else {
        SameMacKeeps(s, op.uuid, row);
        CachingKeeps(s.(table := s.table[op.uuid := row]), op.uuid);
      }
      hide Patched, UpdateAccepted, RowOk, IndexOk;
    }
  }

  /** A MAC address is never moved onto another machine by a patch, nor kept by a mapped one. */
  lemma PatchedRowOk(s: Service, op: Op)
    requires TableOk(s.table, s.next) && op.Update? && UpdateAccepted(s, op)
    ensures
      var before, after := s.table[op.uuid], Patched(s.table[op.uuid], op);
      && RowOk(after) && after.machineType == before.machineType && after.deleted == before.deleted
      && after.mac == (if op.patch.MapTo? then None else before.mac)
      && (after.mac.Some? ==> after.status == before.status)
  {
  }

  lemma CommissionKeeps(s: Service, op: Op)
    requires IndexOk(s) && op.Commission?
    ensures IndexOk(OnCommission(s, op))
  {
    if CommissionAccepted(s, op) {
      var mac, s' := op.found.value, OnCommission(s, op);
      CommissionedRow(s, op);
      hide RowOk, TableOk, CommissionAccepted;
      CommissionedIndex(s, s', op.uuid, mac);
      hide Carries, Tracked, EntriesOk, StatusesAgree;
    }
  }

  lemma CommissionedRow(s: Service, op: Op)
    requires TableOk(s.table, s.next) && op.Commission? && CommissionAccepted(s, op)
    ensures
      var mac, table' := op.found.value, OnCommission(s, op).table;
      && TableOk(table', s.next) && s.table[op.uuid].mac.None? && Carries(table', op.uuid, mac)
      && (forall v, m :: v != op.uuid && Carries(table', v, m) ==> m != mac && Carries(s.table, v, m))
  {
    var mac, table' := op.found.value, OnCommission(s, op).table;
    assert forall v :: v != op.uuid ==> !Carries(s.table, v, mac);
    ReplacedRow(s.table, s.next, op.uuid, table'[op.uuid]);
  }

  lemma CommissionedIndex(s: Service, s': Service, u: Id, mac: Mac)
    requires Tracked(s.table, s.uuids) && StatusesAgree(s.table, s.statuses, s.lagging) && EntriesOk(s.table, s.types, s.uuids)
    requires SameKeys(s) && u in s.table && s.table[u].mac.None? && Carries(s'.table, u, mac)
    requires forall v, m :: v != u && Carries(s'.table, v, m) ==> m != mac && Carries(s.table, v, m)
    requires s'.table == s.table[u := s.table[u].(mac := Some(mac), commissioned := true)]
    requires s'.types == s.types[mac := s.table[u].machineType] && s'.uuids == s.uuids[mac := u]
    requires s'.statuses == s.statuses[mac := s.table[u].status] && s'.lagging == s.lagging - {mac}
    ensures Tracked(s'.table, s'.uuids) && StatusesAgree(s'.table, s'.statuses, s'.lagging)
    ensures EntriesOk(s'.table, s'.types, s'.uuids)
  {
    assert EntriesOk(s'.table, s'.types, s'.uuids) by {
      hide Carries, Tracked, StatusesAgree;
    }
    hide EntriesOk;
    assert forall m :: Carries(s'.table, u, m) ==> m == mac;
    assert Tracked(s'.table, s'.uuids);
  }

  lemma WithStatusKeeps(table: map<Id, Row>, next: Id, mac: Mac, status: Status)
    requires TableOk(table, next)
    ensures
      var table' := WithStatus(table, mac, status);
      && TableOk(table', next)
      && (forall u, m :: Carries(table', u, m) <==> Carries(table, u, m))
      && (forall u :: u in table ==> u in table' && table'[u].mac == table[u].mac && table'[u].machineType == table[u].machineType)
      && (forall u, m :: Carries(table, u, m) ==> table'[u].status == if m == mac then status else table[u].status)
  {
    var table' := WithStatus(table, mac, status);
    assert forall u, m :: Carries(table', u, m) <==> Carries(table, u, m);
  }

  /** An update is skipped, ends with its row written only, or caches the status it has written. */
  lemma PowerStatusEffects(s: Service, mac: Mac, status: Status, outcome: SessionOutcome)
    ensures
      var s' := OnPowerStatus(s, mac, status, outcome);
      || s' == s
      || (&& mac in s.uuids && (mac in s.statuses ==> s.statuses[mac] != status)
          && s'.table == WithStatus(s.table, mac, status) && s'.next == s.next && s'.types == s.types && s'.uuids == s.uuids
          && (|| (s'.statuses == s.statuses && s'.lagging == s.lagging + {mac})
              || (s'.statuses == s.statuses[mac := status] && s'.lagging == s.lagging - {mac})))
  {
    hide WithStatus;
  }

  lemma PowerStatusKeeps(s: Service, mac: Mac, status: Status, outcome: SessionOutcome)
    requires IndexOk(s)
    ensures IndexOk(OnPowerStatus(s, mac, status, outcome))
  {
    PowerStatusEffects(s, mac, status, outcome);
    hide OnPowerStatus, WithStatus, TableOk, EntriesOk, StatusesAgree, Tracked;
    if mac in s.uuids && (mac in s.statuses ==> s.statuses[mac] != status) {
      WithStatusKeeps(s.table, s.next, mac, status);
      SameEntries(s.table, WithStatus(s.table, mac, status), s.types, s.uuids);
      WrittenStatuses(s, mac, status);
    }
  }

  lemma WrittenStatuses(s: Service, mac: Mac, status: Status)
    requires TableOk(s.table, s.next) && Tracked(s.table, s.uuids) && StatusesAgree(s.table, s.statuses, s.lagging)
    requires mac in s.statuses ==> s.statuses[mac] != status
    ensures
      var after := WithStatus(s.table, mac, status);
      && Tracked(after, s.uuids)
      && StatusesAgree(after, s.statuses, s.lagging + {mac})
      && StatusesAgree(after, s.statuses[mac := status], s.lagging - {mac})
  {
    WithStatusKeeps(s.table, s.next, mac, status);
    hide WithStatus, TableOk, Carries;
  }

  lemma {:induction false} IndexRowsAgree(s: Service, order: seq<Id>)
    requires TableOk(s.table, s.next) && s.types == map[] && s.uuids == map[] && s.statuses == map[] && s.lagging == {}
    requires forall i :: 0 <= i < |order| ==> Active(s.table, order[i])
    ensures
      var s' := IndexRows(s, order);
      && s'.table == s.table && s'.open == s.open && s'.next == s.next && s'.lagging == {}
      && EntriesOk(s'.table, s'.types, s'.uuids) && SameKeys(s')
      && (forall mac :: mac in s'.uuids ==> Active(s.table, s'.uuids[mac]) && s'.statuses[mac] == s.table[s'.uuids[mac]].status)
      && (forall i, mac :: 0 <= i < |order| && Carries(s.table, order[i], mac) ==> mac in s'.uuids)
  {
    if order != [] {
      IndexRowsAgree(s, order[..|order| - 1]);
    }
  }

  /** A restart rebuilds the index from the table, whatever order the machines are read in. */
  lemma RestartKeeps(s: Service, order: seq<Id>)
    requires TableOk(s.table, s.next) && ListsActive(s, order)
    ensures IndexOk(IndexRows(Empty(s), order))
  {
    var s' := IndexRows(Empty(s), order);
    IndexRowsAgree(Empty(s), order);
    hide IndexRows;
    forall u, mac | Carries(s'.table, u, mac) ensures mac in s'.uuids && s'.uuids[mac] == u {
      assert u in order;
      assert Carries(s.table, s'.uuids[mac], mac);
    }
  }

  lemma CreateKeeps(s: Service, op: Op)
    requires IndexOk(s) && op.Create?
    ensures IndexOk(Apply(s, op))
  {
    if CreateAccepted(s, op) {
      var s' := Apply(s, op);
      CreatedTable(s, s'.table[s.next]);
      assert s'.table == s.table[s.next := s'.table[s.next]];
      FewerCarriers(s.table, s'.table, s.uuids, s.statuses, s.lagging);
      SameEntries(s.table, s'.table, s.types, s.uuids);
      hide CreateAccepted, TableOk, RowOk, Tracked, EntriesOk, StatusesAgree, Carries;
    }
  }

  lemma CreatedTable(s: Service, row: Row)
    requires TableOk(s.table, s.next) && RowOk(row) && row.mac.None?
    ensures TableOk(s.table[s.next := row], s.next + 1) && s.next !in s.table
    ensures forall u, mac :: Carries(s.table[s.next := row], u, mac) ==>
              u in s.table && Carries(s.table, u, mac) && s.table[s.next := row][u].status == s.table[u].status
  {
    hide RowOk;
    var after := s.table[s.next := row];
    forall u, mac | Carries(after, u, mac) ensures Carries(s.table, u, mac) && after[u].status == s.table[u].status {
      assert u != s.next && after[u] == s.table[u];
    }
  }

  lemma RowOpKeeps(s: Service, op: Op)
    requires IndexOk(s) && (op.Delete? || op.ThinqState? || op.StartUse?)
    ensures IndexOk(Apply(s, op))
  {
    match op {
      case Delete(u) =>
        if Active(s.table, u) {
          SameMacKeeps(s, u, s.table[u].(deleted := true));
        }
      case ThinqState(u, device, status) =>
        if Active(s.table, u) && s.table[u].device == Some(device) && status.Some? {
          SameMacKeeps(s, u, s.table[u].(status := status.value));
        }
      case _ =>
    }
    hide TableOk, RowOk, Tracked, EntriesOk, SameKeys, StatusesAgree;
  }

  lemma UpdateKeeps(s: Service, op: Op)
    requires IndexOk(s) && op.Update?
    ensures IndexOk(OnUpdate(s, op))
  {
    var closed := s.(open := s.open - {op.uuid});
    assert IndexOk(closed);
    WriteUpdateKeeps(s, op);
    WriteUpdateKeeps(closed, op);
    hide IndexOk, WriteUpdate;
  }

  lemma ApplyKeepsIndex(s: Service, op: Op)
    requires IndexOk(s)
    ensures IndexOk(Apply(s, op))
  {
    match op {
      case Update(_, _, _, _, _) => hide IndexOk, OnUpdate; UpdateKeeps(s, op);
      case Commission(_, _) => hide IndexOk, OnCommission; CommissionKeeps(s, op);
      case PowerStatus(mac, status, outcome) => hide IndexOk, OnPowerStatus; PowerStatusKeeps(s, mac, status, outcome);
      case Restart(order) =>
        if ListsActive(s, order) {
          RestartKeeps(s, order);
          hide IndexOk, IndexRows;
        }
      case Create(_, _, _, _) => hide IndexOk; CreateKeeps(s, op);
      case _ => hide IndexOk; RowOpKeeps(s, op);
    }
  }

  lemma {:induction false} ApplyAllKeepsIndex(s: Service, ops: seq<Op>)
    requires IndexOk(s)
    ensures IndexOk(ApplyAll(s, ops))
    decreases ops
  {
    hide IndexOk, Apply;
    if ops != [] {
      ApplyKeepsIndex(s, ops[0]);
      ApplyAllKeepsIndex(Apply(s, ops[0]), ops[1..]);
    }
  }

  /**
   After any operations, failing or not, and any restarts: an active machine and a MAC address belong
   together in the table exactly when the index says so; a tracked MAC has its machine's type and some
   status cached; and no ThinQ-mapped machine has a MAC address.
   */
  lemma IndexAgreesWithTable(ops: seq<Op>, mac: Mac, u: Id)
    ensures
      var s := ApplyAll(DEPLOYED, ops);
      && (Active(s.table, u) ==> (s.table[u].mac == Some(mac) <==> mac in s.uuids && s.uuids[mac] == u))
      && (mac in s.uuids ==> mac in s.statuses && mac in s.types && s.uuids[mac] in s.table
                             && s.types[mac] == s.table[s.uuids[mac]].machineType)
      && (mac !in s.uuids ==> mac !in s.statuses && mac !in s.types)
      && (u in s.table && s.table[u].device.Some? ==> s.table[u].mac.None? && s.table[u].machineType.Dryer?)
  {
    assert IndexOk(DEPLOYED);
    ApplyAllKeepsIndex(DEPLOYED, ops);
    hide ApplyAll;
    var s := ApplyAll(DEPLOYED, ops);
    assert Active(s.table, u) && s.table[u].mac == Some(mac) ==> Carries(s.table, u, mac);
  }

  /** The service always starts again: no operation leaves a commissioned machine without a MAC address. */
  lemma RestartNeverFails(ops: seq<Op>, u: Id)
    requires u in ApplyAll(DEPLOYED, ops).table
    ensures Bootable(ApplyAll(DEPLOYED, ops).table[u])
  {
    assert IndexOk(DEPLOYED);
    ApplyAllKeepsIndex(DEPLOYED, ops);
    hide ApplyAll;
  }

  // ----- When does the row's status stay wrong? -----

  /** The cached status of every active machine's MAC is its row's. */
  ghost predicate CacheMatchesRows(s: Service) {
    forall u, mac :: Carries(s.table, u, mac) ==> mac in s.statuses && s.statuses[mac] == s.table[u].status
  }

  /** An update that has to change the session and does not come back from it. */
  predicate LeavesCache(s: Service, mac: Mac, status: Status, outcome: SessionOutcome) {
    && !outcome.Done? && mac in s.statuses && s.statuses[mac] != status
    && (status.IdleStatus? || s.statuses[mac].IdleStatus?)
  }

  /** Such an update, for the MAC of an active machine. */
  ghost predicate SessionChangeFails(s: Service, op: Op) {
    op.PowerStatus? && LeavesCache(s, op.mac, op.status, op.outcome) && exists u :: Carries(s.table, u, op.mac)
  }

  lemma AgreementMeansNoLag(s: Service)
    requires IndexOk(s)
    ensures CacheMatchesRows(s) <==> forall u, mac :: Carries(s.table, u, mac) ==> mac !in s.lagging
  {
    hide TableOk, EntriesOk;
    if CacheMatchesRows(s) {
      forall u, mac | Carries(s.table, u, mac) ensures mac !in s.lagging {
        assert u in s.table && s.statuses[mac] == s.table[u].status;
      }
    }
  }

  lemma LagAfterPowerStatus(s: Service, mac: Mac, status: Status, outcome: SessionOutcome)
    requires SameKeys(s)
    ensures LeavesCache(s, mac, status, outcome) ==> OnPowerStatus(s, mac, status, outcome).lagging == s.lagging + {mac}
    ensures !LeavesCache(s, mac, status, outcome) ==> OnPowerStatus(s, mac, status, outcome).lagging <= s.lagging
  {
    hide WithStatus;
  }

  lemma CarriersAfterPowerStatus(s: Service, mac: Mac, status: Status, outcome: SessionOutcome)
    requires TableOk(s.table, s.next)
    ensures forall u, m :: Carries(OnPowerStatus(s, mac, status, outcome).table, u, m) <==> Carries(s.table, u, m)
  {
    WithStatusKeeps(s.table, s.next, mac, status);
    hide WithStatus, TableOk, Carries;
  }

  lemma PowerStatusBreaks(s: Service, mac: Mac, status: Status, outcome: SessionOutcome)
    requires IndexOk(s) && forall u, m :: Carries(s.table, u, m) ==> m !in s.lagging
    ensures
      var s' := OnPowerStatus(s, mac, status, outcome);
      (forall u, m :: Carries(s'.table, u, m) ==> m !in s'.lagging)
      <==> !SessionChangeFails(s, PowerStatus(mac, status, outcome))
  {
    LagAfterPowerStatus(s, mac, status, outcome);
    CarriersAfterPowerStatus(s, mac, status, outcome);
    var s' := OnPowerStatus(s, mac, status, outcome);
    hide OnPowerStatus, IndexOk, Carries;
    if u :| Carries(s.table, u, mac) {
      assert Carries(s'.table, u, mac);
    }
  }

  lemma OtherOpsKeepAgreement(s: Service, op: Op)
    requires IndexOk(s) && !op.PowerStatus?
    requires forall u, mac :: Carries(s.table, u, mac) ==> mac !in s.lagging
    ensures forall u, mac :: Carries(Apply(s, op).table, u, mac) ==> mac !in Apply(s, op).lagging
  {
    var s' := Apply(s, op);
    hide TableOk, EntriesOk, StatusesAgree, Tracked, CreateAccepted, UpdateAccepted, CommissionAccepted;
    if op.Restart? {
      if ListsActive(s, op.order) { IndexedLag(Empty(s), op.order); }
    } else {
      NewCarriersAreCached(s, op);
      hide Carries, Apply;
    }
  }

  lemma {:induction false} IndexedLag(s: Service, order: seq<Id>)
    ensures IndexRows(s, order).lagging == s.lagging
  {
    if order != [] { IndexedLag(s, order[..|order| - 1]); }
  }

  lemma UpdateCarriers(s: Service, op: Op)
    requires TableOk(s.table, s.next) && op.Update?
    ensures forall u, mac :: Carries(OnUpdate(s, op).table, u, mac) ==> Carries(s.table, u, mac)
    ensures OnUpdate(s, op).lagging <= s.lagging
  {
    var s1 := s.(open := s.open - {op.uuid});
    if UpdateAccepted(s, op) { PatchedRowOk(s, op); }
    assert UpdateAccepted(s1, op) == UpdateAccepted(s, op);
    hide TableOk, UpdateAccepted, Patched, MappingChanges;
  }

  /** A MAC is carried as before, or its status has just been cached. */
  lemma NewCarriersAreCached(s: Service, op: Op)
    requires TableOk(s.table, s.next) && !op.PowerStatus? && !op.Restart?
    ensures forall u, mac :: Carries(Apply(s, op).table, u, mac) ==> Carries(s.table, u, mac) || mac !in Apply(s, op).lagging
    ensures Apply(s, op).lagging <= s.lagging
  {
    match op {
      case Update(_, _, _, _, _) => UpdateCarriers(s, op); hide OnUpdate, Carries;
      case _ => hide CreateAccepted, CommissionAccepted, RowOk;
    }
  }

  /**
   When the cached statuses are the rows', an operation parts them exactly when it is a status update of
   an active machine that has to change the session and fails to.
   */
  lemma AgreementBreaksExactly(s: Service, op: Op)
    requires IndexOk(s) && CacheMatchesRows(s)
    ensures IndexOk(Apply(s, op))
    ensures CacheMatchesRows(Apply(s, op)) <==> !SessionChangeFails(s, op)
  {
    ApplyKeepsIndex(s, op);
    AgreementMeansNoLag(s);
    AgreementMeansNoLag(Apply(s, op));
    if op.PowerStatus? {
      PowerStatusBreaks(s, op.mac, op.status, op.outcome);
    } else {
      OtherOpsKeepAgreement(s, op);
    }
    hide IndexOk, CacheMatchesRows, OnPowerStatus, Carries;
  }

  /**
   After any operations a machine's cached status differs from its row's exactly when its MAC's last status
   write was not followed by a cache write because the session change failed.
   */
  lemma CachedStatusIsTheRows(ops: seq<Op>, u: Id, mac: Mac)
    requires Carries(ApplyAll(DEPLOYED, ops).table, u, mac)
    ensures
      var s := ApplyAll(DEPLOYED, ops);
      mac in s.statuses && (s.statuses[mac] == s.table[u].status <==> mac !in s.lagging)
  {
    assert IndexOk(DEPLOYED);
    ApplyAllKeepsIndex(DEPLOYED, ops);
    hide ApplyAll;
  }

  /**
   Going idle whose session change fails leaves row and cache apart, and from then on every update to
   the cached status is skipped: the row reads IDLE while the machine runs, until a patch or an update to
   another status.
   */
  lemma FailedFinishLeavesRowIdle(s: Service, u: Id, mac: Mac, outcomes: seq<SessionOutcome>)
    requires IndexOk(s) && Carries(s.table, u, mac) && !s.statuses[mac].IdleStatus?
    ensures
      var failed := Apply(s, PowerStatus(mac, IdleStatus, Failed));
      && failed.table[u].status.IdleStatus? && failed.statuses[mac] == s.statuses[mac] && failed.open == s.open
      && ApplyAll(failed, seq(|outcomes|, i requires 0 <= i < |outcomes| => PowerStatus(mac, s.statuses[mac], outcomes[i]))) == failed
  {
    var failed := Apply(s, PowerStatus(mac, IdleStatus, Failed));
    assert failed.table[u].status.IdleStatus?;
    SkippedUpdates(failed, mac, outcomes);
  }

  lemma {:induction false} SkippedUpdates(s: Service, mac: Mac, outcomes: seq<SessionOutcome>)
    requires mac in s.statuses
    ensures ApplyAll(s, seq(|outcomes|, i requires 0 <= i < |outcomes| => PowerStatus(mac, s.statuses[mac], outcomes[i]))) == s
  {
    var ops := seq(|outcomes|, i requires 0 <= i < |outcomes| => PowerStatus(mac, s.statuses[mac], outcomes[i]));
    if outcomes != [] {
      var rest := outcomes[1..];
      assert ops[1..] == seq(|rest|, i requires 0 <= i < |rest| => PowerStatus(mac, s.statuses[mac], rest[i]));
      SkippedUpdates(s, mac, rest);
    }
  }
}
