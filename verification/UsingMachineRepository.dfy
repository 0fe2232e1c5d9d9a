/**
 The usage repository's operations on the table they update in place, one at a time
 (libs/database/src/repositories/using-machine.repository.ts:23-315).  Each method carries out its
 statements in order and meets the whole-table meaning that `UsageTable` gives the operation;
 `UsageLocks` shows that interleaved transactions amount to such calls, one after another.
 */
module UsingMachineRepository {
  import opened Options
  import opened UsageTable

  class UsingMachines {
    var machines: map<Id, bool>
    var usages: map<Id, Usage>

    ghost function View(): Db
      reads this
    {
      Db(machines, usages)
    }

    /** Each machine has at most one open session and no session ends before it starts. */
    ghost predicate Valid()
      reads this
    {
      GoodDb(View())
    }

    constructor ()
      ensures Valid() && View() == Db(map[], map[])
    {
      machines, usages := map[], map[];
    }

    method IsLive(m: Id) returns (live: bool)
      ensures live == Live(View(), m)
    {
      live := m in machines && machines[m];
    }

    /** `findFirst` over the machine's open sessions. */
    method FindOpen(m: Id) returns (found: Option<Id>)
      ensures found.Some? ==> IsOpen(View(), found.value, m)
      ensures found.None? <==> NoneOpen(View(), m)
    {
      if u :| u in usages && usages[u].machine == m && usages[u].endedAt.None? {
        found := Some(u);
        assert IsOpen(View(), u, m);
      } else {
        found := None;
      }
    }

    method CreateUsingMachine(m: Id, owner: Option<Id>, notify: bool, id: Id, at: int) returns (reply: Reply)
      requires Valid() && id !in usages
      modifies this`usages
      ensures View() == Apply(old(View()), Start(m, owner, notify, id, at))
      ensures Answers(old(View()), Start(m, owner, notify, id, at), reply)
      ensures Valid()
    {
      ghost var op := Start(m, owner, notify, id, at);
      ApplyKeepsOneOpen(View(), op);
      ApplyKeepsPeriods(View(), op);
      hide GoodDb;
      var live := IsLive(m);
      if !live { return NotFound; }
      var active := FindOpen(m);
      if active.Some? { return Existing(active.value); }
      usages := usages[id := Usage(m, owner, notify, at, None)];
      reply := Created;
    }

    /** Closes the previous session with zero length and opens the confirmer's, or refuses. */
    method ConfirmCompletedAndRegister(user: Id, m: Id, expected: Id, id: Id, now: int) returns (reply: Reply)
      requires Valid() && id !in usages
      modifies this`usages
      ensures View() == Apply(old(View()), UsageTable.Confirm(user, m, expected, id, now))
      ensures reply == ConfirmReply(old(View()), user, m, expected, now)
      ensures Valid()
    {
      ghost var op := UsageTable.Confirm(user, m, expected, id, now);
      ApplyKeepsOneOpen(View(), op);
      ApplyKeepsPeriods(View(), op);
      var live := IsLive(m);
      if !live { return NotFound; }
      var active := FindOpen(m);
      if active.None? { return NotRunning; }
      if active.value != expected { return UsageChanged; }
      var row := usages[active.value];
      if row.user.None? || row.user.value == user || now - row.startedAt < MACHINE_REREGISTRATION_MIN_DURATION_MS {
        return AlreadyRegistered;
      }
      var previous := row.(endedAt := Some(row.startedAt), notify := false);
      usages := usages[active.value := previous];
      usages := usages[id := Usage(m, Some(user), true, now, None)];
      reply := Confirmed(previous);
      assert usages == old(usages) + Writes(old(View()), op);
    }

    /** Rewrites the open rows an operation matches; answers how many and one of them. */
    method UpdateMany(op: Op) returns (count: nat, some: Option<Id>)
      requires op.Finish? || op.Enable? || op.Disable? || op.Unlink?
      requires Live(View(), op.machine)
      modifies this`usages
      ensures View() == Apply(old(View()), op)
      ensures count == |Matching(old(View()), op)|
      ensures some.None? <==> Matching(old(View()), op) == {}
      ensures some.Some? ==>
                some.value in Matching(old(View()), op) && some.value in usages
                && usages[some.value] == Patch(op, old(usages)[some.value])
    {
      var matching := set u | u in usages && Matches(op, usages[u]);
      ghost var before := usages;
      assert matching == Matching(old(View()), op);
      hide Matches, Patch;
      var todo := matching;
      count, some := 0, None;
      while todo != {}
        invariant todo <= matching && count == |matching| - |todo|
        invariant usages.Keys == before.Keys
        invariant forall u :: u in before ==>
                    usages[u] == if u in matching && u !in todo then Patch(op, before[u]) else before[u]
        invariant some.None? ==> todo == matching
        invariant some.Some? ==> some.value in matching && some.value !in todo
        decreases todo
      {
        var u :| u in todo;
        usages := usages[u := Patch(op, usages[u])];
        some := Some(u);
        todo := todo - {u};
        count := count + 1;
      }
      PatchedIsUpdate(before, usages, op, Db(machines, before));
    }

    method FinishUsingMachine(m: Id, at: int) returns (reply: Reply)
      requires Valid() && Timely(View(), Finish(m, at))
      modifies this`usages
      ensures View() == Apply(old(View()), Finish(m, at))
      ensures Answers(old(View()), Finish(m, at), reply)
      ensures Valid()
    {
      var op := Finish(m, at);
      ApplyKeepsOneOpen(View(), op);
      ApplyKeepsPeriods(View(), op);
      hide GoodDb;
      var live := IsLive(m);
      if !live { return Nothing; }
      assert forall u :: u in Matching(View(), op) <==> IsOpen(View(), u, m);
      assert Matching(View(), op) == {} ==> Answers(View(), op, Nothing);
      hide Apply, Matching, Answers, Patch, OneOpen, ValidPeriods;
      var count, some := UpdateMany(op);
      if some.None? { return Nothing; }
      FinishedAnswers(old(View()), m, at, some.value);
      reply := Finished(usages[some.value]);
    }

    /** Registers, disables or unlinks: one conditional update, answered with the number of rows. */
    method UpdateOwnSession(op: Op) returns (count: nat)
      requires Valid() && (op.Enable? || op.Disable? || op.Unlink?)
      modifies this`usages
      ensures View() == Apply(old(View()), op)
      ensures Answers(old(View()), op, Count(count))
      ensures Valid() && count <= 1
    {
      ApplyKeepsOneOpen(View(), op);
      ApplyKeepsPeriods(View(), op);
      AtMostOneMatches(View(), op);
      hide GoodDb, Apply, Matching;
      var live := IsLive(op.machine);
      if !live {
        DeadMachineNoChange(View(), op);
        return 0;
      }
      var some;
      count, some := UpdateMany(op);
    }
  }

  lemma PatchedIsUpdate(before: map<Id, Usage>, after: map<Id, Usage>, op: Op, db: Db)
    requires db.usages == before && Live(db, op.machine)
    requires op.Finish? || op.Enable? || op.Disable? || op.Unlink?
    requires after.Keys == before.Keys
    requires forall u :: u in before ==> after[u] == if u in Matching(db, op) then Patch(op, before[u]) else before[u]
    ensures Apply(db, op) == db.(usages := after)
  {
    hide Matches, Patch;
    assert after == before + Patched(db, op);
  }

  lemma DeadMachineNoChange(db: Db, op: Op)
    requires !Live(db, op.machine) && !op.Add?
    ensures Apply(db, op) == db
  {
    assert db.usages + Writes(db, op) == db.usages;
  }

  lemma FinishedAnswers(db: Db, m: Id, at: int, u: Id)
    requires Live(db, m) && IsOpen(db, u, m)
    ensures Answers(db, Finish(m, at), Finished(Patch(Finish(m, at), db.usages[u])))
  {
  }

  lemma AtMostOneMatches(db: Db, op: Op)
    requires OneOpen(db)
    ensures |Matching(db, op)| <= 1
  {
    var rows := Matching(db, op);
    forall u, v | u in rows && v in rows ensures u == v {
      assert IsOpen(db, u, db.usages[u].machine) && IsOpen(db, v, db.usages[v].machine);
    }
    if rows != {} {
      var u :| u in rows;
      assert rows == {u};
    }
  }
}
