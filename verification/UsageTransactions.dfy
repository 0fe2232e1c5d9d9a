/**
 That the usage transactions get where they should: whole transactions that meet no lock
 (libs/database/src/repositories/using-machine.repository.ts:23-49, 242-256), statements that meet one, and
 what a wait or an abort leaves.
 */
module UsageTransactions {
  import opened Options
  import opened UsageTable
  import opened UsageLocks

  lemma Run3(s: Sys, a: LockEvent, b: LockEvent, c: LockEvent)
    ensures RunLocks(s, [a, b, c]) == StepLocks(StepLocks(StepLocks(s, a), b), c)
  {
    hide StepLocks;
    var s1 := StepLocks(s, a);
    var s2 := StepLocks(s1, b);
    assert [a, b, c][1..] == [b, c] && [b, c][1..] == [c] && [c][1..] == [];
    assert RunLocks(s2, [c]) == RunLocks(StepLocks(s2, c), []);
    assert RunLocks(s1, [b, c]) == RunLocks(s2, [c]);
  }

  /** A transaction begins with a new number and takes its machine's lock, or waits for it. */
  lemma TakesLock(s: Sys, request: Request)
    requires s.nextId !in s.txs && Live(s.db, request.machine)
    ensures
      var t := s.nextId;
      var begun := StepLocks(s, Begin(request));
      && begun == s.(txs := s.txs[t := Tx(request, Begun, map[])], nextId := t + 1)
      && (request.machine in s.machineLocks ==> StepLocks(begun, LockMachine(t)) == begun)
      && (request.machine !in s.machineLocks ==>
            StepLocks(begun, LockMachine(t))
            == begun.(txs := s.txs[t := Tx(request, Locked, map[])], machineLocks := s.machineLocks[request.machine := t]))
  {
    assert s.txs[s.nextId := Tx(request, Begun, map[])][s.nextId := Tx(request, Locked, map[])]
        == s.txs[s.nextId := Tx(request, Locked, map[])];
    hide OpOf;
  }

  /** Without the machine nothing happens but the answer. */
  lemma NoMachine(s: Sys, t: Id)
    requires t in s.txs && s.txs[t].stage.Begun? && !Live(s.db, s.txs[t].request.machine)
    requires s.txs[t].request.machine !in s.machineLocks
    ensures
      var s' := StepLocks(s, LockMachine(t));
      && s'.db == s.db && t !in s'.txs && |s'.history| == |s.history| + 1
      && s'.history[|s.history|].reply == if s.txs[t].request.FinishRequest? then Nothing else NotFound
  {
    hide OpOf;
  }

  /** A started transaction that finds no session inserts one, with the given owner, and commits it. */
  lemma UncontendedStart(s: Sys, t: Id, at: int)
    requires t in s.txs && s.txs[t].request.StartRequest? && s.txs[t].stage.Locked? && at <= s.clock
    requires forall u :: u in s.db.usages ==> s.db.usages[u].machine != s.txs[t].request.machine || s.db.usages[u].endedAt != None
    ensures
      var request := s.txs[t].request;
      var s' := StepLocks(StepLocks(StepLocks(s, Find(t, None)), Insert(t, at)), Commit(t));
      && s'.db == s.db.(usages := s.db.usages + map[t := Usage(request.machine, request.owner, request.notify, at, None)])
      && s'.history == s.history + [Entry(Start(request.machine, request.owner, request.notify, t, at), Created)]
      && t !in s'.txs && forall m :: m in s'.machineLocks ==> s'.machineLocks[m] != t
  {
    var request := s.txs[t].request;
    assert NoneOpen(s.db, request.machine);
    var s1 := StepLocks(s, Find(t, None));
    assert s1 == SetStage(s, t, NoneFound);
    var s2 := StepLocks(s1, Insert(t, at));
    assert s2 == WriteRows(s1, t, map[t := Usage(request.machine, request.owner, request.notify, at, None)],
                           Written(Start(request.machine, request.owner, request.notify, t, at)));
    hide OnFind, OnInsert, NoneOpen;
  }

  /** A start that finds an open session answers with it and writes nothing. */
  lemma RepeatedStart(s: Sys, t: Id, u: Id, at: int)
    requires t in s.txs && s.txs[t].request.StartRequest? && s.txs[t].stage.Locked?
    requires u in s.db.usages && s.db.usages[u].machine == s.txs[t].request.machine && s.db.usages[u].endedAt == None
    ensures
      var s' := StepLocks(s, Find(t, Some(u)));
      && s'.db == s.db && t !in s'.txs && |s'.history| == |s.history| + 1 && s'.history[|s.history|].reply == Existing(u)
  {
    assert IsOpen(s.db, u, s.txs[t].request.machine);
    hide OpOf;
  }

  /** A finishing transaction that meets no row lock ends the machine's open sessions at its stamp. */
  lemma UncontendedFinish(s: Sys, t: Id)
    requires t in s.txs && s.txs[t].request.FinishRequest? && s.txs[t].stage.Locked? && Live(s.db, s.txs[t].request.machine)
    requires forall u :: u in s.rowLocks && u in s.db.usages && s.db.usages[u].endedAt == None ==>
               s.db.usages[u].machine != s.txs[t].request.machine
    ensures
      var m := s.txs[t].request.machine;
      var s' := StepLocks(StepLocks(StepLocks(s, TakeStamp(t)), UpdateRows(t)), Commit(t));
      && s'.db == Apply(s.db, Finish(m, s.clock))
      && |s'.history| == |s.history| + 1 && s'.history[|s.history|].op == Finish(m, s.clock)
      && t !in s'.txs
  {
    var m := s.txs[t].request.machine;
    var s1 := StepLocks(s, TakeStamp(t));
    assert s1 == SetStage(s, t, Stamped(s.clock));
    assert Free(s1, OpenRows(s1.db, m), t);
    var s2 := StepLocks(s1, UpdateRows(t));
    assert s2 == WriteRows(HoldRows(s1, OpenRows(s.db, m), t), t, Patched(s.db, Finish(m, s.clock)), Written(Finish(m, s.clock)));
    hide OnUpdateRows, Patched, OpenRows, Free, HoldRows, CommitReply;
    FinishWritesPatched(s.db, m, s.clock);
  }

  lemma FinishWritesPatched(db: Db, m: Id, at: int)
    requires Live(db, m)
    ensures Apply(db, Finish(m, at)) == db.(usages := db.usages + Patched(db, Finish(m, at)))
  {
  }

  /** Some open session of the machine is locked by another transaction. */
  ghost predicate RowsBusy(s: Sys, m: Id, t: Id) {
    exists u :: u in s.db.usages && s.db.usages[u].machine == m && s.db.usages[u].endedAt == None
                && u in s.rowLocks && s.rowLocks[u] != t
  }

  /** Locking and finishing the machine's open sessions wait while another transaction holds one of them. */
  lemma RowLocksOutcome(s: Sys, t: Id)
    requires t in s.txs
    ensures s.txs[t].request.ConfirmRequest? && s.txs[t].stage.Locked? ==>
              var m, s' := s.txs[t].request.machine, StepLocks(s, LockRows(t));
              && (RowsBusy(s, m, t) ==> s' == s)
              && (!RowsBusy(s, m, t) ==>
                    && t in s'.txs && s'.txs[t] == s.txs[t].(stage := RowsLocked) && s'.db == s.db
                    && forall u :: u in s.db.usages && s.db.usages[u].machine == m && s.db.usages[u].endedAt == None ==>
                         u in s'.rowLocks && s'.rowLocks[u] == t)
    ensures s.txs[t].request.FinishRequest? && s.txs[t].stage.Stamped? && RowsBusy(s, s.txs[t].request.machine, t) ==>
              StepLocks(s, UpdateRows(t)) == s
  {
    var m := s.txs[t].request.machine;
    assert forall u :: u in OpenRows(s.db, m) <==> u in s.db.usages && s.db.usages[u].machine == m && s.db.usages[u].endedAt == None;
    assert Free(s, OpenRows(s.db, m), t) <==> !RowsBusy(s, m, t);
    hide OpenRows, Free, RowsBusy, Patched;
  }

  /** A single-statement update takes effect at once, or waits while a row it wants is locked. */
  lemma StatementOutcome(s: Sys, op: Op)
    requires op.Enable? || op.Disable? || op.Unlink?
    ensures
      var wanted := set u | u in s.db.usages && Live(s.db, op.machine) && Matches(op, s.db.usages[u]);
      var blocked := exists u :: u in wanted && u in s.rowLocks;
      StepLocks(s, Statement(op)) ==
      if blocked then s else s.(db := Apply(s.db, op), history := s.history + [Entry(op, Count(|wanted|))])
  {
    var wanted := set u | u in s.db.usages && Live(s.db, op.machine) && Matches(op, s.db.usages[u]);
    assert wanted == if Live(s.db, op.machine) then Matching(s.db, op) else {};
    hide Apply, Matches;
  }

  /** Deleting a machine waits for its lock; adding one does not. */
  lemma MachineStatementOutcome(s: Sys, m: Id)
    ensures m in s.machineLocks ==> StepLocks(s, Statement(Delete(m))) == s
    ensures m !in s.machineLocks ==>
              StepLocks(s, Statement(Delete(m)))
              == s.(db := Apply(s.db, Delete(m)), history := s.history + [Entry(Delete(m), if Live(s.db, m) then Done else NotFound)])
    ensures StepLocks(s, Statement(Add(m))) == s.(db := Apply(s.db, Add(m)), history := s.history + [Entry(Add(m), Done)])
  {
    hide Apply;
  }

  /** An aborted transaction leaves tables and history and holds nothing any more. */
  lemma AbortOutcome(s: Sys, t: Id)
    requires t in s.txs
    ensures
      var s' := StepLocks(s, Abort(t));
      && s'.db == s.db && s'.history == s.history && s'.clock == s.clock && s'.txs == s.txs - {t}
      && (forall m :: m in s'.machineLocks <==> m in s.machineLocks && s.machineLocks[m] != t)
      && (forall u :: u in s'.rowLocks <==> u in s.rowLocks && s.rowLocks[u] != t)
  {
  }

  /** The clock runs only forward. */
  lemma ClockOutcome(s: Sys, ms: nat)
    ensures StepLocks(s, Advance(ms)) == s.(clock := s.clock + ms)
  {
  }
}
