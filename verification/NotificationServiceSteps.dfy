/**
 Subscribing and announcing as the stretches of code between awaits
 (src/notification/notification.service.ts:42-96, 157-200; src/machine/machine.service.ts:388-431, 661-692;
 libs/database/src/repositories/notification.repository.ts:113-186).  Each method resumes one suspended
 call with the outcome of its awaited statement and takes exactly that step of `LaundryRoom`
 and keeps `Valid`, by which no wakeup is lost.
 */
module NotificationServiceSteps {
  import opened Options
  import opened LaundryRoom

  ghost predicate Good(s: State) { Fresh(s) && NoLostWakeup(s) }

  lemma StepKeepsGood(s: State, e: Event)
    requires Good(s)
    ensures Good(Step(s, e))
  {
    StepKeepsFresh(s, e);
    StepKeepsNoLostWakeup(s, e);
    hide Step, Fresh, NoLostWakeup;
  }

  lemma RowsAreOld(s: State)
    requires Good(s)
    ensures forall r :: r in s.rows ==> r < s.next
  {
  }

  class NotificationService {
    // The tables.
    var machines: map<Id, Machine>
    var rows: map<Id, Subscription>
    // The suspended calls.
    var notifiers: map<Id, Notifier>
    var creators: map<Id, Creator>
    var next: Id
    ghost var riser: map<Id, Id>
    ghost var promised: set<Id>
    ghost var waiting: set<Id>
    ghost var reached: map<Id, set<Id>>

    ghost function View(): State
      reads this
    {
      State(machines, rows, notifiers, creators, next, riser, promised, waiting, reached)
    }

    /** Ids are fresh and no wakeup is lost. */
    ghost predicate Valid()
      reads this
    {
      Good(View())
    }

    constructor (machines: map<Id, Machine>, next: Id)
      requires forall m :: m in machines ==> m < next
      ensures Valid() && View() == Opened(machines, next)
    {
      this.machines, this.next := machines, next;
      rows, notifiers, creators := map[], map[], map[];
      riser, promised, waiting, reached := map[], {}, {}, map[];
    }

    /** `countAvailableMachines`. */
    method CountAvailableMachines(room: Room) returns (count: nat)
      ensures count == CountAvailable(View(), room)
    {
      count := |set m | m in machines && machines[m].room == room && IsFree(machines[m])|;
      assert (set m | m in machines && machines[m].room == room && IsFree(machines[m]))
          == (set m | m in View().machines && FreeIn(View(), m, room));
    }

    // ----- createLaundryRoomSubscription -----

    method CreateLaundryRoomSubscription(user: Id, room: Room) returns (c: Id)
      requires Valid()
      modifies this`creators, this`next
      ensures Valid() && View() == Step(old(View()), Subscribe(user, room)) && c == old(next)
    {
      StepKeepsGood(View(), Subscribe(user, room));
      hide Good;
      c := next;
      creators := creators[c := Checking(user, room)];
      next := next + 1;
    }

    method AfterFirstCount(c: Id, ok: bool)
      requires Valid() && c in creators && creators[c].Checking?
      modifies this`creators
      ensures Valid() && View() == Step(old(View()), Checked(c, ok))
    {
      StepKeepsGood(View(), Checked(c, ok));
      hide Good, CountAvailable;
      var count := CountAvailableMachines(creators[c].room);
      creators := creators[c := if !ok then Failed
                                else if count > 0 then AlreadyAvailable
                                else Inserting(creators[c].user, creators[c].room)];
    }

    /** The upsert refreshes the user's row for the room if there is one, and inserts one otherwise. */
    method AfterUpsert(c: Id, ok: bool, row: Id)
      requires Valid() && c in creators && creators[c].Inserting?
      modifies this`creators, this`rows, this`next
      ensures Valid() && View() == Step(old(View()), Upserted(c, ok, row))
    {
      StepKeepsGood(View(), Upserted(c, ok, row));
      RowsAreOld(View());
      UpsertRow(c, ok, row);
      hide Good, Step;
    }

    /** A row that exists has an older id than the next one. */
    method UpsertRow(c: Id, ok: bool, row: Id)
      requires c in creators && creators[c].Inserting? && forall r :: r in rows ==> r < next
      modifies this`creators, this`rows, this`next
      ensures View() == Step(old(View()), Upserted(c, ok, row))
    {
      hide CountAvailable;
      var user, room := creators[c].user, creators[c].room;
      var existing := set r | r in rows && rows[r] == Subscription(user, room);
      assert existing == RowsOfUser(View(), user, room);
      if !ok {
        creators := creators[c := Failed];
      } else if existing == {} {
        rows := rows[next := Subscription(user, room)];
        creators := creators[c := Rechecking(room, next)];
        next := next + 1;
      } else if row in existing {
        creators := creators[c := Rechecking(room, row)];
      }
    }

    /** No machine has freed up in between, or the new row is withdrawn. */
    method AfterSecondCount(c: Id, ok: bool)
      requires Valid() && c in creators && creators[c].Rechecking?
      modifies this`creators, this`promised, this`waiting
      ensures Valid() && View() == Step(old(View()), Rechecked(c, ok))
    {
      StepKeepsGood(View(), Rechecked(c, ok));
      hide Good, CountAvailable;
      var row := creators[c].row;
      var count := CountAvailableMachines(creators[c].room);
      if !ok {
        creators := creators[c := Failed];
      } else if count > 0 {
        creators := creators[c := Withdrawing(row)];
      } else {
        creators := creators[c := Subscribed(row)];
        promised, waiting := promised + {row}, waiting + {row};
      }
    }

    method AfterWithdrawal(c: Id, ok: bool)
      requires Valid() && c in creators && creators[c].Withdrawing?
      modifies this`creators, this`rows, this`waiting
      ensures Valid() && View() == Step(old(View()), Withdrawn(c, ok))
    {
      StepKeepsGood(View(), Withdrawn(c, ok));
      hide Good;
      var row := creators[c].row;
      if !ok {
        creators := creators[c := Failed];
      } else {
        creators := creators[c := AlreadyAvailable];
        rows, waiting := rows - {row}, waiting - {row};
      }
    }

    method DeleteLaundryRoomSubscription(user: Id, room: Room)
      requires Valid()
      modifies this`rows, this`waiting
      ensures Valid() && View() == Step(old(View()), Unsubscribe(user, room))
    {
      StepKeepsGood(View(), Unsubscribe(user, room));
      hide Good;
      ghost var gone := RowsOfUser(View(), user, room);
      waiting := waiting - gone;
      rows := rows - set r | r in rows && rows[r] == Subscription(user, room);
    }

    // ----- What else changes the machines of a room -----

    method CreateMachine(room: Room)
      requires Valid()
      modifies this`machines, this`next, this`riser
      ensures Valid() && View() == Step(old(View()), LaundryRoom.CreateMachine(room))
    {
      StepKeepsGood(View(), LaundryRoom.CreateMachine(room));
      hide Good;
      machines := machines[next := Machine(room, false, true, false)];
      riser := riser - {next};
      next := next + 1;
    }

    method DeleteMachine(m: Id)
      requires Valid()
      modifies this`machines
      ensures Valid() && View() == Step(old(View()), LaundryRoom.DeleteMachine(m))
    {
      StepKeepsGood(View(), LaundryRoom.DeleteMachine(m));
      hide Good;
      if m in machines && !machines[m].deleted { machines := machines[m := machines[m].(deleted := true)]; }
    }

    method StartUsingMachine(m: Id)
      requires Valid()
      modifies this`machines
      ensures Valid() && View() == Step(old(View()), StartUse(m))
    {
      StepKeepsGood(View(), StartUse(m));
      hide Good;
      if m in machines && !machines[m].deleted { machines := machines[m := machines[m].(busy := true)]; }
    }

    // ----- finishUsingMachine, updateMachine and notifyLaundryRoomAvailable -----

    /** The session is closed; the room is announced after one more read. */
    method FinishUsingMachine(m: Id)
      requires Valid()
      modifies this`machines, this`notifiers, this`next, this`riser
      ensures Valid() && View() == Step(old(View()), FinishUse(m))
    {
      StepKeepsGood(View(), FinishUse(m));
      hide Good;
      if m !in machines || machines[m].deleted || !machines[m].busy { return; }
      if machines[m].enabled { riser := riser[m := next]; }
      machines := machines[m := machines[m].(busy := false)];
      notifiers := notifiers[next := SessionClosed(m)];
      next := next + 1;
    }

    method AfterMachineRead(n: Id, ok: bool)
      requires Valid() && n in notifiers && notifiers[n].SessionClosed?
      modifies this`notifiers
      ensures Valid() && View() == Step(old(View()), MachineRead(n, ok))
    {
      StepKeepsGood(View(), MachineRead(n, ok));
      hide Good;
      var m := notifiers[n].machine;
      if !ok {
        notifiers := notifiers[n := Died];
      } else if m !in machines || machines[m].deleted {
        notifiers := notifiers[n := Finished({})];
      } else {
        notifiers := notifiers[n := Reading(machines[m].room)];
      }
    }

    /** `updateMachine` before its write: what it reads of the machine decides whether it announces. */
    method ReadForPatch(m: Id, enable: Option<bool>)
      requires Valid()
      modifies this`notifiers, this`next
      ensures Valid() && View() == Step(old(View()), PatchRead(m, enable))
    {
      StepKeepsGood(View(), PatchRead(m, enable));
      hide Good;
      if m !in machines || machines[m].deleted { return; }
      notifiers := notifiers[next := Patching(m, machines[m].enabled, enable)];
      next := next + 1;
    }

    /** `updateMachine` after its write, with what it read of the machine before. */
    method AfterPatchWrite(n: Id)
      requires Valid() && n in notifiers && notifiers[n].Patching?
      modifies this`machines, this`notifiers, this`riser
      ensures Valid() && View() == Step(old(View()), PatchWrite(n))
    {
      StepKeepsGood(View(), PatchWrite(n));
      WritePatch(n);
      hide Good, Step;
    }

    method WritePatch(n: Id)
      requires n in notifiers && notifiers[n].Patching?
      modifies this`machines, this`notifiers, this`riser
      ensures View() == Step(old(View()), PatchWrite(n))
    {
      hide IsFree;
      var m, wasEnabled, enable := notifiers[n].machine, notifiers[n].wasEnabled, notifiers[n].enable;
      if m !in machines || machines[m].deleted {
        notifiers := notifiers[n := Died];
        return;
      }
      var previous := machines[m];
      var machine := previous.(enabled := if enable.Some? then enable.value else previous.enabled);
      machines := machines[m := machine];
      var announces := !wasEnabled && machine.enabled;
      if !IsFree(previous) && IsFree(machine) {
        if announces { riser := riser[m := n]; } else { riser := riser - {m}; }
      }
      notifiers := notifiers[n := if announces then Reading(machine.room) else Finished({})];
    }

    method AfterSubscribersRead(n: Id, ok: bool)
      requires Valid() && n in notifiers && notifiers[n].Reading?
      modifies this`notifiers
      ensures Valid() && View() == Step(old(View()), SubscribersRead(n, ok))
    {
      StepKeepsGood(View(), SubscribersRead(n, ok));
      hide Good, CountAvailable;
      var room := notifiers[n].room;
      var subscribers := set r | r in rows && rows[r].room == room;
      assert subscribers == RowsOf(View(), room);
      if !ok {
        notifiers := notifiers[n := Died];
      } else if subscribers == {} {
        notifiers := notifiers[n := Finished({})];
      } else {
        notifiers := notifiers[n := Counting(room, subscribers)];
      }
    }

    method AfterCount(n: Id, ok: bool)
      requires Valid() && n in notifiers && notifiers[n].Counting?
      modifies this`notifiers
      ensures Valid() && View() == Step(old(View()), Counted(n, ok))
    {
      StepKeepsGood(View(), Counted(n, ok));
      hide Good, CountAvailable;
      var room, snapshot := notifiers[n].room, notifiers[n].snapshot;
      var count := CountAvailableMachines(room);
      notifiers := notifiers[n := if !ok then Died else if count == 0 then Finished({}) else Sending(room, snapshot)];
    }

    /** `Promise.allSettled` over the pushes: one rejected push does not stop the others. */
    method AfterPushes(n: Id, fulfilled: set<Id>)
      requires Valid() && n in notifiers && notifiers[n].Sending?
      modifies this`notifiers, this`waiting, this`reached
      ensures Valid() && View() == Step(old(View()), Settled(n, fulfilled))
    {
      StepKeepsGood(View(), Settled(n, fulfilled));
      hide Good, CountAvailable, RowsOf;
      var snapshot := notifiers[n].snapshot;
      notifiers := notifiers[n := Deleting(fulfilled * snapshot, snapshot - fulfilled)];
      waiting, reached := waiting - fulfilled * snapshot, reached[n := fulfilled];
    }

    /** Only what was told is deleted. */
    method AfterDeletion(n: Id, ok: bool)
      requires Valid() && n in notifiers && notifiers[n].Deleting?
      modifies this`notifiers, this`rows
      ensures Valid() && View() == Step(old(View()), RowsDeleted(n, ok))
    {
      StepKeepsGood(View(), RowsDeleted(n, ok));
      hide Good, CountAvailable, RowsOf;
      var told, refused := notifiers[n].told, notifiers[n].refused;
      if !ok {
        notifiers := notifiers[n := Died];
      } else {
        notifiers := notifiers[n := Finished(refused)];
        rows := rows - told;
      }
    }
  }
}
