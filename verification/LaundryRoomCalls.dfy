/**
 What whole calls do to a laundry room's tables when nothing runs in between, in terms of the tables alone
 (src/notification/notification.service.ts:42-96, 104-117, 157-200; src/machine/machine.service.ts:388-431,
 661-692).  `LaundryRoom` says what still holds when other calls run in between.
 */
module LaundryRoomCalls {
  import opened Options
  import opened LaundryRoom

  /** The room has an enabled, undeleted machine without an open session. */
  ghost predicate HasFree(s: State, room: Room) {
    exists m :: m in s.machines && var machine := s.machines[m];
      machine.room == room && machine.deleted == false && machine.enabled == true && machine.busy == false
  }

  lemma CountIsFree(s: State, room: Room)
    ensures CountAvailable(s, room) > 0 <==> HasFree(s, room)
  {
    AvailableMeansFree(s, room);
    if HasFree(s, room) {
      var m :| m in s.machines && var machine := s.machines[m];
        machine.room == room && machine.deleted == false && machine.enabled == true && machine.busy == false;
      assert FreeIn(s, m, room);
    }
    if m :| FreeIn(s, m, room) {
      assert m in s.machines;
    }
    hide CountAvailable;
  }

  // ----- Machines -----

  /** Each of these changes one flag of one undeleted machine, and no row. */
  lemma MachineFlags(s: State, m: Id)
    requires m in s.machines && s.machines[m].deleted == false
    ensures
      var machine := s.machines[m];
      && Step(s, DeleteMachine(m)) == s.(machines := s.machines[m := machine.(deleted := true)])
      && Step(s, StartUse(m)) == s.(machines := s.machines[m := machine.(busy := true)])
      && Step(s, FinishUse(m)).machines == s.machines[m := machine.(busy := false)]
      && Step(s, FinishUse(m)).rows == s.rows
  {
  }

  /** A deleted or unknown machine is left alone. */
  lemma GoneMachines(s: State, m: Id, enable: Option<bool>)
    requires m in s.machines ==> s.machines[m].deleted == true
    ensures Step(s, DeleteMachine(m)) == s && Step(s, StartUse(m)) == s && Step(s, FinishUse(m)) == s
    ensures Step(s, PatchRead(m, enable)) == s
  {
  }

  /** A new machine is enabled and idle, and there at once. */
  lemma NewMachine(s: State, room: Room)
    requires s.next !in s.machines
    ensures Step(s, CreateMachine(room)).machines == s.machines[s.next := Machine(room, false, true, false)]
    ensures Step(s, CreateMachine(room)).rows == s.rows && HasFree(Step(s, CreateMachine(room)), room)
  {
    assert s.next in Step(s, CreateMachine(room)).machines;
  }

  /** A whole patch sets the flag it names, and announces exactly when it enables what it found disabled. */
  lemma WholePatch(s: State, m: Id, enable: Option<bool>)
    requires m in s.machines && s.machines[m].deleted == false
    ensures
      var machine, n := s.machines[m], s.next;
      var patched := machine.(enabled := if enable == Some(true) then true else if enable == Some(false) then false else machine.enabled);
      var s' := Step(Step(s, PatchRead(m, enable)), PatchWrite(n));
      && s'.machines == s.machines[m := patched] && s'.rows == s.rows && n in s'.notifiers
      && s'.notifiers[n] == if machine.enabled == false && enable == Some(true) then Reading(machine.room) else Finished({})
  {
    var s1 := Step(s, PatchRead(m, enable));
    assert s1 == s.(notifiers := s.notifiers[s.next := Patching(m, s.machines[m].enabled, enable)], next := s.next + 1);
    PatchedMachine(s1, s.next);
    PatchFrame(s1, s.next);
    hide OnPatchWrite;
  }

  // ----- Announcing -----

  /** What a whole announcement of a room deletes, and what it ends with. */
  lemma WholeAnnouncement(s: State, n: Id, room: Room, told: set<Id>)
    requires n in s.notifiers && s.notifiers[n] == Reading(room)
    ensures
      var s' := Run(s, [SubscribersRead(n, true), Counted(n, true), Settled(n, told), RowsDeleted(n, true)]);
      && s'.machines == s.machines && s'.creators == s.creators
      && (forall r :: r in s'.rows <==> r in s.rows && !(s.rows[r].room == room && HasFree(s, room) && r in told))
      && (forall r :: r in s'.rows ==> s'.rows[r] == s.rows[r])
      && n in s'.notifiers && s'.notifiers[n].Finished?
      && (forall r :: r in s'.notifiers[n].refused <==> r in s.rows && s.rows[r].room == room && HasFree(s, room) && r !in told)
  {
    var s1 := Step(s, SubscribersRead(n, true));
    ReadingStage(s, n, room);
    Run4(s, SubscribersRead(n, true), Counted(n, true), Settled(n, told), RowsDeleted(n, true));
    if !s1.notifiers[n].Finished? {
      CountingStage(s1, n, room, s1.notifiers[n].snapshot);
      var s2 := Step(s1, Counted(n, true));
      if s2.notifiers[n].Finished? {
        FinishedStays(s2, n, Settled(n, told));
        FinishedStays(s2, n, RowsDeleted(n, true));
      } else {
        RejectedPushesKeepTheirRows(s2, n, told);
        SettlingFrame(s2, n, told);
      }
    } else {
      FinishedStays(s1, n, Counted(n, true));
      FinishedStays(s1, n, Settled(n, told));
      FinishedStays(s1, n, RowsDeleted(n, true));
    }
    hide Step, Run, CountAvailable, HasFree, FreeIn;
  }

  lemma Run4(s: State, a: Event, b: Event, c: Event, d: Event)
    ensures Run(s, [a, b, c, d]) == Step(Step(Step(Step(s, a), b), c), d)
  {
    hide Step;
    assert [a, b, c, d][1..] == [b, c, d] && [b, c, d][1..] == [c, d] && [c, d][1..] == [d] && [d][1..] == [];
    var s1 := Step(s, a);
    var s2 := Step(s1, b);
    var s3 := Step(s2, c);
    assert Run(s3, [d]) == Run(Step(s3, d), []);
    assert Run(s2, [c, d]) == Run(s3, [d]);
    assert Run(s1, [b, c, d]) == Run(s2, [c, d]);
  }

  lemma ReadingStage(s: State, n: Id, room: Room)
    requires n in s.notifiers && s.notifiers[n] == Reading(room)
    ensures
      var s' := Step(s, SubscribersRead(n, true));
      && s' == s.(notifiers := s'.notifiers) && n in s'.notifiers
      && (s'.notifiers[n] == Finished({}) || (s'.notifiers[n].Counting? && s'.notifiers[n].room == room))
      && (s'.notifiers[n].Finished? <==> forall r :: r in s.rows ==> s.rows[r].room != room)
      && (s'.notifiers[n].Counting? ==> forall r :: r in s'.notifiers[n].snapshot <==> r in s.rows && s.rows[r].room == room)
  {
    hide CountAvailable;
    assert forall r :: r in RowsOf(s, room) <==> r in s.rows && s.rows[r].room == room;
    hide RowsOf;
  }

  lemma CountingStage(s: State, n: Id, room: Room, snapshot: set<Id>)
    requires n in s.notifiers && s.notifiers[n] == Counting(room, snapshot)
    ensures
      var s' := Step(s, Counted(n, true));
      && s' == s.(notifiers := s'.notifiers) && n in s'.notifiers
      && s'.notifiers[n] == if HasFree(s, room) then Sending(room, snapshot) else Finished({})
  {
    CountIsFree(s, room);
    hide CountAvailable, HasFree, RowsOf;
  }

  lemma FinishedStays(s: State, n: Id, e: Event)
    requires n in s.notifiers && s.notifiers[n].Finished?
    requires (e.Counted? || e.Settled? || e.RowsDeleted?) && e.n == n
    ensures Step(s, e) == s
  {
    hide CountAvailable, RowsOf;
    assert s.notifiers[n := s.notifiers[n]] == s.notifiers;
  }

  lemma SettlingFrame(s: State, n: Id, told: set<Id>)
    requires n in s.notifiers && s.notifiers[n].Sending?
    ensures
      var s' := Step(Step(s, Settled(n, told)), RowsDeleted(n, true));
      s'.machines == s.machines && s'.creators == s.creators
  {
    hide CountAvailable, RowsOf;
  }

  /** A closed session is announced in its machine's room, unless the machine has been deleted. */
  lemma ClosedSessionAnnounces(s: State, n: Id, m: Id)
    requires n in s.notifiers && s.notifiers[n] == SessionClosed(m)
    ensures
      Step(s, MachineRead(n, true)) ==
      s.(notifiers := s.notifiers[n := if m in s.machines && s.machines[m].deleted == false
                                       then Reading(s.machines[m].room) else Finished({})])
  {
    hide CountAvailable, RowsOf;
  }

  /** A failed read, count or deletion ends the announcement and leaves every row. */
  lemma FailedAnnouncement(s: State, n: Id, e: Event)
    requires n in s.notifiers
    requires
      || (e == MachineRead(n, false) && s.notifiers[n].SessionClosed?) || (e == SubscribersRead(n, false) && s.notifiers[n].Reading?)
      || (e == Counted(n, false) && s.notifiers[n].Counting?) || (e == RowsDeleted(n, false) && s.notifiers[n].Deleting?)
    ensures Step(s, e) == s.(notifiers := s.notifiers[n := Died])
  {
    hide CountAvailable, RowsOf;
  }

  // ----- Subscribing -----

  /** Where a create stands after a successful count: refused if a machine is free. */
  lemma CountStages(s: State, c: Id)
    requires c in s.creators
    ensures s.creators[c].Checking? ==>
              Step(s, Checked(c, true)) ==
              s.(creators := s.creators[c := if HasFree(s, s.creators[c].room) then AlreadyAvailable
                                             else Inserting(s.creators[c].user, s.creators[c].room)])
    ensures s.creators[c].Rechecking? && HasFree(s, s.creators[c].room) ==>
              Step(s, Rechecked(c, true)) == s.(creators := s.creators[c := Withdrawing(s.creators[c].row)])
    ensures s.creators[c].Rechecking? && !HasFree(s, s.creators[c].room) ==>
              var row := s.creators[c].row;
              Step(s, Rechecked(c, true)) ==
              s.(creators := s.creators[c := Subscribed(row)], promised := s.promised + {row}, waiting := s.waiting + {row})
  {
    if s.creators[c].Checking? || s.creators[c].Rechecking? { CountIsFree(s, s.creators[c].room); }
    hide CountAvailable, RowsOfUser, HasFree;
  }

  /**
   A create in a full room inserts one row of its user and room, or keeps the one there is; nothing else
   changes, and it succeeds with that row.
   */
  lemma WholeCreate(s: State, c: Id, user: Id, room: Room, found: Id)
    requires c in s.creators && s.creators[c] == Checking(user, room) && Fresh(s) && !HasFree(s, room)
    ensures
      var s' := Run(s, [Checked(c, true), Upserted(c, true, found), Rechecked(c, true)]);
      var known := exists r :: r in s.rows && s.rows[r].user == user && s.rows[r].room == room;
      && s'.machines == s.machines && s'.notifiers == s.notifiers && c in s'.creators
      && (!known ==> s'.rows == s.rows[s.next := Subscription(user, room)] && s'.creators[c] == Subscribed(s.next))
      && (known ==> s'.rows == s.rows)
      && (known && found in s.rows && s.rows[found].user == user && s.rows[found].room == room ==> s'.creators[c] == Subscribed(found))
  {
    CountStages(s, c);
    var s1 := s.(creators := s.creators[c := Inserting(user, room)]);
    assert Step(s, Checked(c, true)) == s1;
    UpsertStage(s1, c, user, room, found);
    var s2 := Step(s1, Upserted(c, true, found));
    assert HasFree(s2, room) <==> HasFree(s, room);
    CountStages(s2, c);
    Run3(s, Checked(c, true), Upserted(c, true, found), Rechecked(c, true));
    if s2.creators[c].Inserting? { StaleRecheck(s2, c); }
    hide Step, Run, HasFree, Fresh;
  }

  lemma Run3(s: State, a: Event, b: Event, c: Event)
    ensures Run(s, [a, b, c]) == Step(Step(Step(s, a), b), c)
  {
    hide Step;
    assert [a, b, c][1..] == [b, c] && [b, c][1..] == [c] && [c][1..] == [];
    var s2 := Step(Step(s, a), b);
    assert Run(s2, [c]) == Run(Step(s2, c), []);
  }

  lemma StaleRecheck(s: State, c: Id)
    requires c in s.creators && s.creators[c].Inserting?
    ensures Step(s, Rechecked(c, true)) == s
  {
    assert s.creators[c := s.creators[c]] == s.creators;
    hide CountAvailable, RowsOfUser;
  }

  lemma UpsertStage(s: State, c: Id, user: Id, room: Room, found: Id)
    requires c in s.creators && s.creators[c] == Inserting(user, room) && forall r :: r in s.rows ==> r < s.next
    ensures
      var s' := Step(s, Upserted(c, true, found));
      var known := exists r :: r in s.rows && s.rows[r].user == user && s.rows[r].room == room;
      && s'.machines == s.machines && s'.notifiers == s.notifiers && c in s'.creators
      && (!known ==> s'.rows == s.rows[s.next := Subscription(user, room)] && s'.creators[c] == Rechecking(room, s.next))
      && (known ==> s'.rows == s.rows)
      && (known && found in s.rows && s.rows[found].user == user && s.rows[found].room == room ==>
            s'.creators[c] == Rechecking(room, found))
      && (s'.creators[c].Rechecking? ==> s'.creators[c].room == room)
      && (s'.creators[c].Rechecking? || s'.creators[c] == Inserting(user, room))
  {
    assert forall r :: r in RowsOfUser(s, user, room) <==> r in s.rows && s.rows[r].user == user && s.rows[r].room == room;
    hide CountAvailable, RowsOfUser;
  }

  /** A create that finds a machine free after its insert is refused and its row is gone. */
  lemma LateRefusal(s: State, c: Id)
    requires c in s.creators && s.creators[c].Rechecking? && HasFree(s, s.creators[c].room)
    ensures
      var row, s' := s.creators[c].row, Step(Step(s, Rechecked(c, true)), Withdrawn(c, true));
      && s'.creators == s.creators[c := AlreadyAvailable]
      && s'.rows == s.rows - {row} && row !in s'.rows
      && s'.machines == s.machines && s'.notifiers == s.notifiers && row !in s'.waiting
  {
    CountStages(s, c);
    var s1 := s.(creators := s.creators[c := Withdrawing(s.creators[c].row)]);
    assert Step(s, Rechecked(c, true)) == s1;
    hide HasFree, CountAvailable, RowsOfUser;
    assert s1.creators[c := AlreadyAvailable] == s.creators[c := AlreadyAvailable];
  }

  /** A failing call fails the create and leaves every row, the one it has inserted included. */
  lemma FailedCreate(s: State, c: Id, e: Event, found: Id)
    requires c in s.creators
    requires
      || (e == Checked(c, false) && s.creators[c].Checking?) || (e == Upserted(c, false, found) && s.creators[c].Inserting?)
      || (e == Rechecked(c, false) && s.creators[c].Rechecking?) || (e == Withdrawn(c, false) && s.creators[c].Withdrawing?)
    ensures Step(s, e) == s.(creators := s.creators[c := Failed])
  {
    hide CountAvailable, RowsOfUser;
  }

  /** Unsubscribing removes the user's own row of the room and keeps everyone else's. */
  lemma UnsubscribeKeepsOthers(s: State, user: Id, room: Room)
    ensures
      var s' := Step(s, Unsubscribe(user, room));
      && (forall r :: r in s'.rows <==> r in s.rows && !(s.rows[r].user == user && s.rows[r].room == room))
      && (forall r :: r in s'.rows ==> s'.rows[r] == s.rows[r])
      && s'.machines == s.machines && s'.notifiers == s.notifiers && s'.creators == s.creators
  {
  }
}
