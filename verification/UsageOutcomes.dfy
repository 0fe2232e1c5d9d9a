/**
 What each usage operation does to every row and what it answers, in terms of the rows alone
 (libs/database/src/repositories/using-machine.repository.ts:23-315; src/machine/machine.service.ts:531-575).
 */
module UsageOutcomes {
  import opened Options
  import opened UsageTable

  /** The row is an open session of the machine. */
  predicate Running(row: Usage, m: Id) { row.machine == m && row.endedAt == None }

  ghost predicate Idle(db: Db, m: Id) { forall u :: u in db.usages ==> !Running(db.usages[u], m) }

  predicate Exists(db: Db, m: Id) { m in db.machines && db.machines[m] == true }

  lemma SameReading(db: Db, m: Id)
    ensures Live(db, m) <==> Exists(db, m)
    ensures NoneOpen(db, m) <==> Idle(db, m)
    ensures forall u :: IsOpen(db, u, m) <==> u in db.usages && Running(db.usages[u], m)
  {
    if !Idle(db, m) {
      var u :| u in db.usages && Running(db.usages[u], m);
      assert IsOpen(db, u, m);
    }
  }

  /** Starting adds one open session with the given owner and start, unless one is open already. */
  lemma StartOutcome(db: Db, m: Id, owner: Option<Id>, notify: bool, id: Id, at: int, reply: Reply)
    ensures
      var after := Apply(db, Start(m, owner, notify, id, at));
      && after.machines == db.machines
      && after.usages == (if Exists(db, m) && Idle(db, m) then db.usages[id := Usage(m, owner, notify, at, None)] else db.usages)
    ensures
      Answers(db, Start(m, owner, notify, id, at), reply) <==>
        if !Exists(db, m) then reply == NotFound
        else if Idle(db, m) then reply == Created
        else reply.Existing? && reply.id in db.usages && Running(db.usages[reply.id], m)
  {
    SameReading(db, m);
    assert db.usages + map[] == db.usages;
    hide NoneOpen, Idle;
  }

  /** Finishing ends every open session of a live machine now, and answers with one of the rows as ended. */
  lemma FinishOutcome(db: Db, m: Id, at: int, reply: Reply)
    ensures
      var after := Apply(db, Finish(m, at));
      && after.machines == db.machines && after.usages.Keys == db.usages.Keys
      && forall u :: u in db.usages ==>
           after.usages[u] == if Exists(db, m) && Running(db.usages[u], m) then db.usages[u].(endedAt := Some(at)) else db.usages[u]
    ensures
      Answers(db, Finish(m, at), reply) <==>
        if !Exists(db, m) || Idle(db, m) then reply == Nothing
        else exists u :: u in db.usages && Running(db.usages[u], m) && reply == Finished(db.usages[u].(endedAt := Some(at)))
  {
    SameReading(db, m);
  }

  /** The open sessions of a live machine that are nobody's or the user's become the user's, to be notified. */
  lemma EnableOutcome(db: Db, user: Id, m: Id)
    ensures
      var after := Apply(db, Enable(user, m));
      && after.machines == db.machines && after.usages.Keys == db.usages.Keys
      && forall u :: u in db.usages ==>
           var row := db.usages[u];
           after.usages[u] ==
             if Exists(db, m) && Running(row, m) && (row.user == None || row.user == Some(user))
             then Usage(m, Some(user), true, row.startedAt, None) else row
  {
    SameReading(db, m);
  }

  /** The user's own open sessions of a live machine are no longer to be notified. */
  lemma DisableOutcome(db: Db, user: Id, m: Id)
    ensures
      var after := Apply(db, Disable(user, m));
      && after.machines == db.machines && after.usages.Keys == db.usages.Keys
      && forall u :: u in db.usages ==>
           var row := db.usages[u];
           after.usages[u] ==
             if Exists(db, m) && Running(row, m) && row.user == Some(user)
             then Usage(m, Some(user), false, row.startedAt, None) else row
  {
    SameReading(db, m);
  }

  /** The user's own open sessions of a live machine are nobody's, and not to be notified. */
  lemma UnlinkOutcome(db: Db, user: Id, m: Id)
    ensures
      var after := Apply(db, Unlink(user, m));
      && after.machines == db.machines && after.usages.Keys == db.usages.Keys
      && forall u :: u in db.usages ==>
           var row := db.usages[u];
           after.usages[u] ==
             if Exists(db, m) && Running(row, m) && row.user == Some(user)
             then Usage(m, None, false, row.startedAt, None) else row
  {
    SameReading(db, m);
  }

  /** The session that a user's own update would change: open, and the user's, or nobody's when registering. */
  predicate Own(row: Usage, op: Op)
    requires op.Enable? || op.Disable? || op.Unlink?
  {
    Running(row, op.machine) && (row.user == Some(op.user) || (op.Enable? && row.user == None))
  }

  /** With at most one open session, such an update answers 1 exactly when that session is the user's to change. */
  lemma OwnUpdateAnswer(db: Db, op: Op, reply: Reply)
    requires OneOpen(db) && (op.Enable? || op.Disable? || op.Unlink?)
    ensures
      Answers(db, op, reply) <==>
        reply == Count(if Exists(db, op.machine) && exists u :: u in db.usages && Own(db.usages[u], op) then 1 else 0)
  {
    SameReading(db, op.machine);
    var rows := Matching(db, op);
    forall u, v | u in rows && v in rows ensures u == v {
      assert IsOpen(db, u, op.machine) && IsOpen(db, v, op.machine);
    }
    if u :| u in db.usages && Own(db.usages[u], op) {
      assert u in rows;
      assert rows == {u};
    } else {
      assert rows == {};
    }
  }

  /** Deleting and adding touch one machine and no session. */
  lemma MachineOutcome(db: Db, m: Id, reply: Reply)
    ensures Apply(db, Delete(m)) == db.(machines := if Exists(db, m) then db.machines[m := false] else db.machines)
    ensures Answers(db, Delete(m), reply) <==> reply == (if Exists(db, m) then Done else NotFound)
    ensures Apply(db, Add(m)) == db.(machines := if m in db.machines then db.machines else db.machines[m := true])
    ensures Answers(db, Add(m), reply) <==> reply == Done
  {
    assert db.usages + Patched(db, Delete(m)) == db.usages;
    assert db.usages + Patched(db, Add(m)) == db.usages;
  }

  /**
   A confirmation is refused when the machine is gone or idle, when the expected session is not the open
   one, when it is nobody's or the user's own, and for its first 30 minutes; a refusal changes nothing.
   Otherwise the session ends at its own start, silently, and a new one of the user starts now.
   */
  lemma ConfirmOutcome(db: Db, user: Id, m: Id, expected: Id, id: Id, now: int, reply: Reply)
    requires id !in db.usages
    ensures
      var after := Apply(db, UsageTable.Confirm(user, m, expected, id, now));
      var row := if expected in db.usages then db.usages[expected] else Usage(m, None, false, 0, None);
      var refused :=
        || !Exists(db, m) || !(expected in db.usages && Running(row, m))
        || row.user == None || row.user == Some(user) || now - row.startedAt < 1_800_000;
      var ended := Usage(m, row.user, false, row.startedAt, Some(row.startedAt));
      && after.machines == db.machines
      && after.usages == (if refused then db.usages
                          else db.usages[expected := ended][id := Usage(m, Some(user), true, now, None)])
      && (Answers(db, UsageTable.Confirm(user, m, expected, id, now), reply) <==>
            reply == if !Exists(db, m) then NotFound
                     else if Idle(db, m) then NotRunning
                     else if !(expected in db.usages && Running(row, m)) then UsageChanged
                     else if refused then AlreadyRegistered
                     else Confirmed(ended))
  {
    SameReading(db, m);
    assert db.usages + map[] == db.usages;
    hide NoneOpen, Idle;
  }

  /** What registering answers, with at most one open session. */
  lemma RegisterOutcome(db: Db, user: Id, m: Id, now: int)
    requires OneOpen(db)
    ensures Register(db, user, m, now) == MachineNotFound <==> !Exists(db, m)
    ensures Register(db, user, m, now) == MachineNotRunning <==> Exists(db, m) && Idle(db, m)
    ensures forall u :: u in db.usages && Running(db.usages[u], m) && Exists(db, m) ==>
              var row := db.usages[u];
              Register(db, user, m, now) ==
                if row.user == None || row.user == Some(user) then Registered
                else if now - row.startedAt >= 1_800_000 then ConfirmationRequired(u)
                else TakenByOther
  {
    SameReading(db, m);
    var rows := Matching(db, Enable(user, m));
    if Exists(db, m) {
      if u :| u in db.usages && Running(db.usages[u], m) {
        assert IsOpen(db, u, m);
        assert forall v :: IsOpen(db, v, m) ==> v == u;
        assert forall v :: v in rows ==> IsOpen(db, v, m);
        assert u in rows <==> db.usages[u].user == None || db.usages[u].user == Some(user);
        assert |rows| > 0 <==> u in rows by {
          if u !in rows { assert rows == {}; } else { assert rows == {u}; }
        }
      } else {
        assert rows == {};
      }
    }
  }
}
