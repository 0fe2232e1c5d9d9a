/**
 The usage transactions as they interleave: lock the machine row, lock or update usage rows, read,
 write, commit (libs/database/src/repositories/using-machine.repository.ts:28-49, 120-180, 243-256),
 with the single-statement updates (:83-112, :191-219, :286-315) and machine deletion
 (libs/database/src/repositories/machine.repository.ts:329-346) running between their statements.

 Each SQL statement is one step.  A statement that needs a lock another transaction holds waits, which
 here is a step that changes nothing.  Reads see committed rows; a transaction's writes stay in
 `writes` until it commits.  The uuid of a row a transaction may insert is the transaction's own
 number, which is never given out twice.
 */
module UsageLocks {
  import opened Options
  import opened UsageTable

  datatype Request =
    | StartRequest(machine: Id, owner: Option<Id>, notify: bool)
    | ConfirmRequest(machine: Id, user: Id, expected: Id)
    | FinishRequest(machine: Id)

  datatype Stage =
    | Begun
    | Locked                 // holds the machine row
    | RowsLocked             // confirmation: holds the machine's open usage rows
    | NoneFound              // start: found no open session
    | Stamped(at: int)       // finish: has evaluated `new Date()`
    | MayReplace(now: int)   // confirmation: every check passed
    | Replaced(now: int)     // confirmation: has updated the previous row
    | Written(op: Op)        // has sent its last write

  datatype Tx = Tx(request: Request, stage: Stage, writes: map<Id, Usage>)

  datatype Sys = Sys(
    db: Db,
    clock: int,
    nextId: Id,
    machineLocks: map<Id, Id>,
    rowLocks: map<Id, Id>,
    txs: map<Id, Tx>,
    history: seq<Entry>)     // operations in the order in which they took effect, with their answers

  datatype LockEvent =
    | Begin(request: Request)
    | LockMachine(t: Id)
    | LockRows(t: Id)
    | Find(t: Id, found: Option<Id>)
    | TakeStamp(t: Id)
    | UpdateRows(t: Id)
    | Insert(t: Id, startedAt: int)
    | Commit(t: Id)
    | Abort(t: Id)
    | Statement(op: Op)
    | Advance(ms: nat)

  // ----- Steps -----

  ghost function OpenRows(db: Db, m: Id): set<Id> {
    set u | u in db.usages && IsOpen(db, u, m)
  }

  /** No other transaction holds any of the rows. */
  predicate Free(s: Sys, rows: set<Id>, t: Id) {
    forall u :: u in rows && u in s.rowLocks ==> s.rowLocks[u] == t
  }

  ghost function HoldRows(s: Sys, rows: set<Id>, t: Id): Sys {
    s.(rowLocks := s.rowLocks + map u | u in rows :: t)
  }

  function SetStage(s: Sys, t: Id, stage: Stage): Sys
    requires t in s.txs
  {
    s.(txs := s.txs[t := s.txs[t].(stage := stage)])
  }

  function WriteRows(s: Sys, t: Id, writes: map<Id, Usage>, stage: Stage): Sys
    requires t in s.txs
  {
    s.(txs := s.txs[t := s.txs[t].(stage := stage, writes := writes)])
  }

  /** The transaction is over, its locks are gone. */
  function Leave(s: Sys, t: Id): Sys {
    s.(txs := s.txs - {t},
       machineLocks := map m | m in s.machineLocks && s.machineLocks[m] != t :: s.machineLocks[m],
       rowLocks := map u | u in s.rowLocks && s.rowLocks[u] != t :: s.rowLocks[u])
  }

  /** It ends without writing and answers. */
  function Answer(s: Sys, t: Id, op: Op, reply: Reply): Sys {
    Leave(s, t).(history := s.history + [Entry(op, reply)])
  }

  /** The operation a request asks for, evaluated at the given time. */
  function OpOf(request: Request, t: Id, at: int): Op {
    match request
    case StartRequest(m, owner, notify) => Start(m, owner, notify, t, at)
    case ConfirmRequest(m, user, expected) => UsageTable.Confirm(user, m, expected, t, at)
    case FinishRequest(m) => Finish(m, at)
  }

  function OnLockMachine(s: Sys, t: Id): Sys
    requires t in s.txs
  {
    var request := s.txs[t].request;
    if request.machine in s.machineLocks then s
    else if !Live(s.db, request.machine) then
      Answer(s, t, OpOf(request, t, s.clock), if request.FinishRequest? then Nothing else NotFound)
    else SetStage(s, t, Locked).(machineLocks := s.machineLocks[request.machine := t])
  }

  ghost function OnFind(s: Sys, t: Id, found: Option<Id>): Sys
    requires t in s.txs
  {
    var tx := s.txs[t];
    var m := tx.request.machine;
    var op := OpOf(tx.request, t, s.clock);
    if (found.None? && !NoneOpen(s.db, m)) || (found.Some? && !IsOpen(s.db, found.value, m)) then s
    else if tx.request.StartRequest? && tx.stage.Locked? then
      if found.Some? then Answer(s, t, op, Existing(found.value)) else SetStage(s, t, NoneFound)
    else if tx.request.ConfirmRequest? && tx.stage.RowsLocked? then
      if found.None? then Answer(s, t, op, NotRunning)
      else if found.value != tx.request.expected then Answer(s, t, op, UsageChanged)
      else if !MayTakeOver(s.db.usages[found.value], tx.request.user, s.clock) then Answer(s, t, op, AlreadyRegistered)
      else SetStage(s, t, MayReplace(s.clock))
    else s
  }

  ghost function OnUpdateRows(s: Sys, t: Id): Sys
    requires t in s.txs
  {
    var tx := s.txs[t];
    var m := tx.request.machine;
    if tx.request.FinishRequest? && tx.stage.Stamped? then
      if !Free(s, OpenRows(s.db, m), t) then s
      else
        var op := Finish(m, tx.stage.at);
        WriteRows(HoldRows(s, OpenRows(s.db, m), t), t, Patched(s.db, op), Written(op))
    else if tx.request.ConfirmRequest? && tx.stage.MayReplace? && tx.request.expected in s.db.usages then
      var expected := tx.request.expected;
      WriteRows(s, t, map[expected := ZeroLength(s.db.usages[expected])], Replaced(tx.stage.now))
    else s
  }

  function OnInsert(s: Sys, t: Id, startedAt: int): Sys
    requires t in s.txs
  {
    var tx := s.txs[t];
    var m := tx.request.machine;
    if tx.request.StartRequest? && tx.stage.NoneFound? && startedAt <= s.clock then
      var op := OpOf(tx.request, t, startedAt);
      WriteRows(s, t, map[t := Usage(m, tx.request.owner, tx.request.notify, startedAt, None)], Written(op))
    else if tx.request.ConfirmRequest? && tx.stage.Replaced? then
      var op := OpOf(tx.request, t, tx.stage.now);
      WriteRows(s, t, tx.writes[t := Usage(m, Some(tx.request.user), true, tx.stage.now, None)], Written(op))
    else s
  }

  ghost function CommitReply(tx: Tx, op: Op): Reply {
    if op.Start? then Created
    else if op.Confirm? && op.expected in tx.writes then Confirmed(tx.writes[op.expected])
    else if tx.writes == map[] then Nothing
    else
      var u :| u in tx.writes;
      Finished(tx.writes[u])
  }

  ghost function OnCommit(s: Sys, t: Id): Sys
    requires t in s.txs
  {
    var tx := s.txs[t];
    if !tx.stage.Written? then s
    else Answer(s, t, tx.stage.op, CommitReply(tx, tx.stage.op)).(db := s.db.(usages := s.db.usages + tx.writes))
  }

  ghost function OnStatement(s: Sys, op: Op): Sys {
    match op
    case Delete(m) =>
      if m in s.machineLocks then s
      else s.(db := Apply(s.db, op), history := s.history + [Entry(op, if Live(s.db, m) then Done else NotFound)])
    case Add(m) => s.(db := Apply(s.db, op), history := s.history + [Entry(op, Done)])
    case Enable(_, _) => OnUpdateStatement(s, op)
    case Disable(_, _) => OnUpdateStatement(s, op)
    case Unlink(_, _) => OnUpdateStatement(s, op)
    case _ => s
  }

  ghost function OnUpdateStatement(s: Sys, op: Op): Sys {
    var rows := if Live(s.db, op.machine) then Matching(s.db, op) else {};
    if exists u :: u in rows && u in s.rowLocks then s
    else s.(db := Apply(s.db, op), history := s.history + [Entry(op, Count(|rows|))])
  }

  ghost function StepLocks(s: Sys, e: LockEvent): Sys {
    match e
    case Begin(request) =>
      s.(txs := s.txs[s.nextId := Tx(request, Begun, map[])], nextId := s.nextId + 1)
    case LockMachine(t) => if t in s.txs && s.txs[t].stage.Begun? then OnLockMachine(s, t) else s
    case LockRows(t) =>
      if t in s.txs && s.txs[t].request.ConfirmRequest? && s.txs[t].stage.Locked?
         && Free(s, OpenRows(s.db, s.txs[t].request.machine), t)
      then SetStage(HoldRows(s, OpenRows(s.db, s.txs[t].request.machine), t), t, RowsLocked)
      else s
    case Find(t, found) => if t in s.txs then OnFind(s, t, found) else s
    case TakeStamp(t) =>
      if t in s.txs && s.txs[t].request.FinishRequest? && s.txs[t].stage.Locked?
      then SetStage(s, t, Stamped(s.clock))
      else s
    case UpdateRows(t) => if t in s.txs then OnUpdateRows(s, t) else s
    case Insert(t, startedAt) => if t in s.txs then OnInsert(s, t, startedAt) else s
    case Commit(t) => if t in s.txs then OnCommit(s, t) else s
    case Abort(t) => if t in s.txs then Leave(s, t) else s
    case Statement(op) => OnStatement(s, op)
    case Advance(ms) => s.(clock := s.clock + ms)
  }

  ghost function RunLocks(s: Sys, events: seq<LockEvent>): Sys
    decreases events
  {
    if events == [] then s else RunLocks(StepLocks(s, events[0]), events[1..])
  }

  /** No transaction is running yet and row uuids are smaller than any to come. */
  function Quiet(db: Db, clock: int, nextId: Id): Sys {
    Sys(db, clock, nextId, map[], map[], map[], [])
  }

  // ----- Invariant -----

  ghost predicate HoldsRows(s: Sys, t: Id, m: Id) {
    forall u :: IsOpen(s.db, u, m) ==> u in s.rowLocks && s.rowLocks[u] == t
  }

  ghost predicate StartedBy(db: Db, m: Id, at: int) {
    forall u :: IsOpen(db, u, m) ==> db.usages[u].startedAt <= at
  }

  ghost predicate StageOk(s: Sys, t: Id, tx: Tx) {
    var m := tx.request.machine;
    match tx.stage
    case Begun => true
    case Locked => true
    case RowsLocked => tx.request.ConfirmRequest? && HoldsRows(s, t, m)
    case NoneFound => tx.request.StartRequest? && NoneOpen(s.db, m)
    case Stamped(at) => tx.request.FinishRequest? && StartedBy(s.db, m, at)
    case MayReplace(now) => Replaceable(s, t, tx, now)
    case Replaced(now) =>
      && Replaceable(s, t, tx, now)
      && tx.writes == map[tx.request.expected := ZeroLength(s.db.usages[tx.request.expected])]
    case Written(op) =>
      && WrittenOp(s, t, tx, op)
      && Timely(s.db, op)
      && tx.writes == Writes(s.db, op)
  }

  ghost predicate Replaceable(s: Sys, t: Id, tx: Tx, now: int) {
    && tx.request.ConfirmRequest?
    && now <= s.clock
    && HoldsRows(s, t, tx.request.machine)
    && ConfirmReply(s.db, tx.request.user, tx.request.machine, tx.request.expected, now).Confirmed?
  }

  ghost predicate WrittenOp(s: Sys, t: Id, tx: Tx, op: Op) {
    match tx.request
    case StartRequest(m, owner, notify) =>
      op.Start? && op == Start(m, owner, notify, t, op.at) && op.at <= s.clock && NoneOpen(s.db, m)
    case ConfirmRequest(m, user, expected) =>
      op.Confirm? && op == UsageTable.Confirm(user, m, expected, t, op.now) && Replaceable(s, t, tx, op.now)
    case FinishRequest(m) => op.Finish? && op.machine == m && HoldsRows(s, t, m)
  }

  ghost predicate TxOk(s: Sys, t: Id, tx: Tx) {
    && t < s.nextId
    && t !in s.db.usages
    && (!tx.stage.Begun? ==>
          && Live(s.db, tx.request.machine)
          && tx.request.machine in s.machineLocks
          && s.machineLocks[tx.request.machine] == t)
    && StageOk(s, t, tx)
  }

  ghost predicate TxsOk(s: Sys) { forall t :: t in s.txs ==> TxOk(s, t, s.txs[t]) }

  ghost predicate LocksOk(s: Sys) {
    && (forall m :: m in s.machineLocks ==>
          s.machineLocks[m] in s.txs && s.txs[s.machineLocks[m]].request.machine == m)
    && (forall u :: u in s.rowLocks ==>
          && u in s.db.usages && s.rowLocks[u] in s.txs
          && s.txs[s.rowLocks[u]].request.machine == s.db.usages[u].machine
          && !s.txs[s.rowLocks[u]].stage.Begun?)
  }

  ghost predicate RowsOk(s: Sys) {
    && (forall u :: u in s.db.usages ==> u < s.nextId)
    && (forall u :: u in s.db.usages ==> s.db.usages[u].startedAt <= s.clock)
  }

  /** The committed tables are what the recorded operations produce, each answered as if alone. */
  ghost predicate Linearized(start: Db, s: Sys) {
    Explained(start, s.history) && s.db == Replay(start, s.history)
  }

  ghost predicate SysInv(start: Db, s: Sys) {
    TxsOk(s) && LocksOk(s) && RowsOk(s) && GoodDb(s.db) && Linearized(start, s)
  }

  // ----- What other transactions see of a step -----

  ghost predicate SameRows(db: Db, db': Db, m: Id) {
    && Live(db, m) == Live(db', m)
    && forall u ::
         && ((u in db.usages && db.usages[u].machine == m) <==> (u in db'.usages && db'.usages[u].machine == m))
         && (u in db.usages && db.usages[u].machine == m ==> db'.usages[u] == db.usages[u])
  }

  lemma SameRowsSameMeaning(db: Db, db': Db, m: Id)
    requires SameRows(db, db', m)
    ensures forall u :: IsOpen(db', u, m) <==> IsOpen(db, u, m)
    ensures forall u :: IsOpen(db, u, m) ==> db'.usages[u] == db.usages[u]
    ensures forall user, expected, now :: ConfirmReply(db', user, m, expected, now) == ConfirmReply(db, user, m, expected, now)
    ensures NoneOpen(db', m) == NoneOpen(db, m)
  {
  }

  lemma SameRowsSameWrites(db: Db, db': Db, op: Op)
    requires SameRows(db, db', op.machine)
    requires Timely(db, op) && (op.Start? || op.Confirm? ==> op.id !in db'.usages)
    ensures Writes(db', op) == Writes(db, op)
    ensures Timely(db', op)
  {
    SameRowsSameMeaning(db, db', op.machine);
    assert Patched(db', op) == Patched(db, op) by {
      assert forall u :: u in Patched(db, op) <==> u in Patched(db', op);
    }
  }

  /** A transaction keeps its footing if its rows, its locks and its number are left alone. */
  ghost predicate Undisturbed(s: Sys, s': Sys, t: Id, tx: Tx) {
    && s.nextId <= s'.nextId && s.clock <= s'.clock && t !in s'.db.usages
    && (!tx.stage.Begun? ==>
          var m := tx.request.machine;
          && SameRows(s.db, s'.db, m)
          && m in s'.machineLocks && s'.machineLocks[m] == t
          && (forall u :: IsOpen(s.db, u, m) && u in s.rowLocks && s.rowLocks[u] == t ==>
                u in s'.rowLocks && s'.rowLocks[u] == t))
  }

  lemma UndisturbedStaysOk(s: Sys, s': Sys, t: Id, tx: Tx)
    requires TxOk(s, t, tx) && Undisturbed(s, s', t, tx)
    ensures TxOk(s', t, tx)
  {
    if !tx.stage.Begun? {
      hide Writes, ConfirmReply, Timely, SameRows, Live;
      var m := tx.request.machine;
      SameRowsSameMeaning(s.db, s'.db, m);
      SameLive(s.db, s'.db, m);
      if tx.stage.Written? {
        SameRowsSameWrites(s.db, s'.db, tx.stage.op);
      }
    }
  }

  lemma SameLive(db: Db, db': Db, m: Id)
    requires SameRows(db, db', m)
    ensures Live(db, m) == Live(db', m)
  {
  }

  // ----- Ending a transaction -----

  lemma LeaveKeeps(s: Sys, t: Id)
    requires TxsOk(s) && LocksOk(s) && t in s.txs
    ensures TxsOk(Leave(s, t)) && LocksOk(Leave(s, t))
  {
    hide TxOk;
    var s' := Leave(s, t);
    forall t2 | t2 in s'.txs ensures TxOk(s', t2, s'.txs[t2]) {
      assert TxOk(s, t2, s.txs[t2]);
      assert Undisturbed(s, s', t2, s.txs[t2]) by { OwnLockRemains(s, t2); }
      UndisturbedStaysOk(s, s', t2, s.txs[t2]);
    }
  }

  lemma OwnLockRemains(s: Sys, t: Id)
    requires t in s.txs && TxOk(s, t, s.txs[t])
    ensures t !in s.db.usages
    ensures !s.txs[t].stage.Begun? ==>
              s.txs[t].request.machine in s.machineLocks && s.machineLocks[s.txs[t].request.machine] == t
  {
  }

  /** An answer that matches the state, without any write, is an operation that takes effect now. */
  lemma AnswerKeeps(start: Db, s: Sys, t: Id, op: Op, reply: Reply)
    requires SysInv(start, s) && t in s.txs
    requires Timely(s.db, op) && Answers(s.db, op, reply) && Apply(s.db, op) == s.db
    ensures SysInv(start, Answer(s, t, op, reply))
  {
    hide TxOk, Answers, Timely, Apply, OneOpen, ValidPeriods;
    LeaveKeeps(s, t);
    HistoryPush(start, s.history, Entry(op, reply));
    var left := Leave(s, t);
    assert TxsOk(Answer(s, t, op, reply)) by { HistoryIsFree(left, s.history + [Entry(op, reply)]); }
  }

  lemma HistoryIsFree(s: Sys, history: seq<Entry>)
    requires TxsOk(s)
    ensures TxsOk(s.(history := history))
  {
    var s' := s.(history := history);
    forall t | t in s'.txs ensures TxOk(s', t, s'.txs[t]) {
      assert TxOk(s, t, s.txs[t]);
    }
  }

  // ----- Steps inside a transaction -----

  /** A step of `t` that touches only its own record and locks it may take. */
  ghost predicate OwnStep(s: Sys, s': Sys, t: Id, tx': Tx) {
    && t in s.txs
    && s' == s.(txs := s.txs[t := tx'], machineLocks := s'.machineLocks, rowLocks := s'.rowLocks)
    && tx'.request == s.txs[t].request && !tx'.stage.Begun?
    && (forall m :: m in s.machineLocks ==> m in s'.machineLocks && s'.machineLocks[m] == s.machineLocks[m])
    && (forall m :: m in s'.machineLocks && m !in s.machineLocks ==> m == tx'.request.machine && s'.machineLocks[m] == t)
    && (forall u :: u in s.rowLocks ==> u in s'.rowLocks && (s'.rowLocks[u] == s.rowLocks[u] || s'.rowLocks[u] == t))
    && (forall u :: u in s'.rowLocks && (u !in s.rowLocks || s'.rowLocks[u] != s.rowLocks[u]) ==>
          s'.rowLocks[u] == t && IsOpen(s.db, u, tx'.request.machine))
    && tx'.request.machine in s'.machineLocks && s'.machineLocks[tx'.request.machine] == t
  }

  lemma OwnStepKeeps(start: Db, s: Sys, s': Sys, t: Id, tx': Tx)
    requires SysInv(start, s) && OwnStep(s, s', t, tx') && TxOk(s', t, tx')
    ensures SysInv(start, s')
  {
    hide TxOk, Explained, Replay, GoodDb, RowsOk;
    assert RowsOk(s') by { OwnStepRows(s, s', t, tx'); }
    forall t2 | t2 in s'.txs ensures TxOk(s', t2, s'.txs[t2]) {
      if t2 != t {
        assert TxOk(s, t2, s.txs[t2]);
        OwnLockRemains(s, t2);
        UndisturbedByOwnStep(s, s', t, tx', t2);
        UndisturbedStaysOk(s, s', t2, s.txs[t2]);
      }
    }
  }

  lemma OwnStepRows(s: Sys, s': Sys, t: Id, tx': Tx)
    requires RowsOk(s) && OwnStep(s, s', t, tx')
    ensures RowsOk(s')
  {
  }

  lemma UndisturbedByOwnStep(s: Sys, s': Sys, t: Id, tx': Tx, t2: Id)
    requires OwnStep(s, s', t, tx') && t2 in s.txs && t2 != t && TxOk(s, t2, s.txs[t2])
    ensures Undisturbed(s, s', t2, s.txs[t2])
  {
    hide StageOk;
  }

  lemma NoWritesNoChange(db: Db, op: Op)
    requires Writes(db, op) == map[] && !op.Delete? && !op.Add?
    ensures Apply(db, op) == db
  {
    assert db.usages + Writes(db, op) == db.usages;
  }

  lemma LockMachineKeeps(start: Db, s: Sys, t: Id)
    requires SysInv(start, s) && t in s.txs && s.txs[t].stage.Begun?
    ensures SysInv(start, OnLockMachine(s, t))
  {
    var request := s.txs[t].request;
    var m := request.machine;
    assert TxOk(s, t, s.txs[t]);
    if m in s.machineLocks {
    } else if !Live(s.db, m) {
      var op := OpOf(request, t, s.clock);
      NoWritesNoChange(s.db, op);
      AnswerKeeps(start, s, t, op, if request.FinishRequest? then Nothing else NotFound);
    } else {
      var s' := OnLockMachine(s, t);
      assert OwnStep(s, s', t, s'.txs[t]);
      hide SysInv;
      OwnStepKeeps(start, s, s', t, s'.txs[t]);
    }
  }

  lemma LockRowsKeeps(start: Db, s: Sys, t: Id)
    requires SysInv(start, s)
    ensures SysInv(start, StepLocks(s, LockRows(t)))
  {
    var s' := StepLocks(s, LockRows(t));
    if s' != s {
      assert TxOk(s, t, s.txs[t]);
      LockRowsStep(s, t);
      hide SysInv, StepLocks, OwnStep, TxOk;
      OwnStepKeeps(start, s, s', t, s'.txs[t]);
    }
  }

  lemma LockRowsStep(s: Sys, t: Id)
    requires t in s.txs && TxOk(s, t, s.txs[t]) && StepLocks(s, LockRows(t)) != s
    ensures
      var s' := StepLocks(s, LockRows(t));
      t in s'.txs && OwnStep(s, s', t, s'.txs[t]) && TxOk(s', t, s'.txs[t])
  {
  }

  lemma FindKeeps(start: Db, s: Sys, t: Id, found: Option<Id>)
    requires SysInv(start, s) && t in s.txs
    ensures SysInv(start, OnFind(s, t, found))
  {
    var s' := OnFind(s, t, found);
    if s' != s {
      if s'.history == s.history {
        FindGoesOn(s, t, found);
        hide SysInv, OnFind, OwnStep, TxOk;
        OwnStepKeeps(start, s, s', t, s'.txs[t]);
      } else {
        FindAnswers(start, s, t, found);
        hide SysInv, OnFind;
      }
    }
  }

  lemma FindGoesOn(s: Sys, t: Id, found: Option<Id>)
    requires t in s.txs && TxOk(s, t, s.txs[t])
    requires OnFind(s, t, found) != s && OnFind(s, t, found).history == s.history
    ensures
      var s' := OnFind(s, t, found);
      t in s'.txs && OwnStep(s, s', t, s'.txs[t]) && TxOk(s', t, s'.txs[t])
  {
    hide OpOf;
  }

  lemma FindEnds(s: Sys, t: Id, found: Option<Id>)
    requires t in s.txs && OnFind(s, t, found).history != s.history
    ensures |OnFind(s, t, found).history| == |s.history| + 1
    ensures OnFind(s, t, found)
            == Answer(s, t, OpOf(s.txs[t].request, t, s.clock), OnFind(s, t, found).history[|s.history|].reply)
  {
    hide OpOf;
  }

  lemma FindAnswers(start: Db, s: Sys, t: Id, found: Option<Id>)
    requires SysInv(start, s) && t in s.txs && OnFind(s, t, found).history != s.history
    ensures SysInv(start, OnFind(s, t, found))
  {
    var op := OpOf(s.txs[t].request, t, s.clock);
    assert TxOk(s, t, s.txs[t]);
    FindEnds(s, t, found);
    hide OnFind, OpOf, Apply, GoodDb, TxOk, LocksOk, RowsOk, Linearized, Writes, Answers, Timely;
    FoundAnswers(s, t, found);
    NoWritesNoChange(s.db, op);
    AnswerKeeps(start, s, t, op, OnFind(s, t, found).history[|s.history|].reply);
  }

  /** A transaction that stops after reading answers as the whole operation would at that instant. */
  lemma FoundAnswers(s: Sys, t: Id, found: Option<Id>)
    requires t in s.txs && TxOk(s, t, s.txs[t]) && GoodDb(s.db)
    requires |OnFind(s, t, found).history| > |s.history|
    ensures
      var op := OpOf(s.txs[t].request, t, s.clock);
      && Timely(s.db, op)
      && Answers(s.db, op, OnFind(s, t, found).history[|s.history|].reply)
      && Writes(s.db, op) == map[]
  {
  }

  lemma StampKeeps(start: Db, s: Sys, t: Id)
    requires SysInv(start, s)
    ensures SysInv(start, StepLocks(s, TakeStamp(t)))
  {
    hide Explained, Replay, GoodDb;
    var s' := StepLocks(s, TakeStamp(t));
    if s' != s {
      assert TxOk(s, t, s.txs[t]);
      assert OwnStep(s, s', t, s'.txs[t]);
      assert TxOk(s', t, s'.txs[t]);
      OwnStepKeeps(start, s, s', t, s'.txs[t]);
    }
  }

  lemma UpdateRowsKeeps(start: Db, s: Sys, t: Id)
    requires SysInv(start, s) && t in s.txs
    ensures SysInv(start, OnUpdateRows(s, t))
  {
    var s' := OnUpdateRows(s, t);
    if s' != s {
      assert TxOk(s, t, s.txs[t]);
      UpdateRowsStep(s, t);
      hide SysInv, OnUpdateRows, OwnStep, TxOk;
      OwnStepKeeps(start, s, s', t, s'.txs[t]);
    }
  }

  lemma UpdateRowsStep(s: Sys, t: Id)
    requires t in s.txs && TxOk(s, t, s.txs[t]) && OnUpdateRows(s, t) != s
    ensures
      var s' := OnUpdateRows(s, t);
      t in s'.txs && OwnStep(s, s', t, s'.txs[t]) && TxOk(s', t, s'.txs[t])
  {
  }

  lemma InsertKeeps(start: Db, s: Sys, t: Id, startedAt: int)
    requires SysInv(start, s) && t in s.txs
    ensures SysInv(start, OnInsert(s, t, startedAt))
  {
    hide Explained, Replay, GoodDb;
    var s' := OnInsert(s, t, startedAt);
    assert TxOk(s, t, s.txs[t]);
    if s' != s {
      assert OwnStep(s, s', t, s'.txs[t]);
      assert TxOk(s', t, s'.txs[t]);
      OwnStepKeeps(start, s, s', t, s'.txs[t]);
    }
  }

  // ----- Commit: the whole operation takes effect at once -----

  lemma CommitAnswers(s: Sys, t: Id)
    requires t in s.txs && TxOk(s, t, s.txs[t]) && s.txs[t].stage.Written?
    ensures
      var tx := s.txs[t];
      var op := tx.stage.op;
      && Timely(s.db, op) && op.machine == tx.request.machine
      && Answers(s.db, op, CommitReply(tx, op))
      && Apply(s.db, op) == s.db.(usages := s.db.usages + tx.writes)
  {
    var tx := s.txs[t];
    var op := tx.stage.op;
    if op.Finish? {
      assert forall u :: IsOpen(s.db, u, op.machine) <==> u in tx.writes;
      if tx.writes != map[] {
        var u :| u in tx.writes && CommitReply(tx, op) == Finished(tx.writes[u]);
        assert IsOpen(s.db, u, op.machine);
      } else {
        assert NoneOpen(s.db, op.machine);
      }
    }
  }

  /** An operation of one machine leaves every other machine's rows alone. */
  lemma OtherMachinesKeepRows(db: Db, op: Op, m: Id)
    requires Timely(db, op) && m != op.machine
    ensures SameRows(db, Apply(db, op), m)
  {
  }

  lemma CommitKeeps(start: Db, s: Sys, t: Id)
    requires SysInv(start, s) && t in s.txs && s.txs[t].stage.Written?
    ensures SysInv(start, OnCommit(s, t))
  {
    hide TxOk, Explained, Replay, Apply, Timely, Answers, CommitReply, OneOpen, ValidPeriods;
    var tx, left := s.txs[t], Leave(s, t);
    var op := tx.stage.op;
    var entry := Entry(op, CommitReply(tx, op));
    CommitAnswers(s, t);
    HistoryPush(start, s.history, entry);
    ApplyKeepsOneOpen(s.db, op);
    ApplyKeepsPeriods(s.db, op);
    var s' := OnCommit(s, t);
    assert s'.db == Apply(s.db, op);
    LeaveKeeps(s, t);
    CommitKeepsRows(s, t);
    forall t2 | t2 in s'.txs ensures TxOk(s', t2, s'.txs[t2]) {
      assert TxOk(s, t2, s.txs[t2]);
      UndisturbedByCommit(s, t, t2);
      UndisturbedStaysOk(s, s', t2, s.txs[t2]);
    }
  }

  lemma CommitKeepsRows(s: Sys, t: Id)
    requires t in s.txs && TxOk(s, t, s.txs[t]) && s.txs[t].stage.Written? && RowsOk(s) && LocksOk(Leave(s, t))
    ensures RowsOk(OnCommit(s, t)) && LocksOk(OnCommit(s, t))
  {
    CommitAnswers(s, t);
    ApplyFreezes(s.db, s.txs[t].stage.op);
  }

  lemma UndisturbedByCommit(s: Sys, t: Id, t2: Id)
    requires t in s.txs && TxOk(s, t, s.txs[t]) && s.txs[t].stage.Written?
    requires t2 in s.txs && t2 != t && TxOk(s, t2, s.txs[t2])
    ensures Undisturbed(s, OnCommit(s, t), t2, s.txs[t2])
  {
    var op, s' := s.txs[t].stage.op, OnCommit(s, t);
    CommitAnswers(s, t);
    OwnLockRemains(s, t2);
    OwnLockRemains(s, t);
    NewRowsAreOwn(s, t, t2);
    if !s.txs[t2].stage.Begun? {
      OtherMachinesKeepRows(s.db, op, s.txs[t2].request.machine);
    }
  }

  lemma NewRowsAreOwn(s: Sys, t: Id, t2: Id)
    requires t in s.txs && TxOk(s, t, s.txs[t]) && s.txs[t].stage.Written? && t2 != t && t2 !in s.db.usages
    ensures t2 !in OnCommit(s, t).db.usages
  {
  }

  // ----- Single statements -----

  lemma UpdateStatementKeeps(start: Db, s: Sys, op: Op)
    requires SysInv(start, s) && (op.Enable? || op.Disable? || op.Unlink?)
    ensures SysInv(start, OnUpdateStatement(s, op))
  {
    hide TxOk, Apply, Matching, GoodDb, Linearized;
    var s' := OnUpdateStatement(s, op);
    if s' != s {
      StatementTakesEffect(start, s, op);
      StatementKeepsRows(s, op);
      forall t | t in s'.txs ensures TxOk(s', t, s'.txs[t]) {
        assert TxOk(s, t, s.txs[t]);
        StatementSparesTx(s, op, t);
      }
    }
  }

  lemma StatementTakesEffect(start: Db, s: Sys, op: Op)
    requires GoodDb(s.db) && Linearized(start, s) && (op.Enable? || op.Disable? || op.Unlink?)
    requires OnUpdateStatement(s, op) != s
    ensures GoodDb(OnUpdateStatement(s, op).db) && Linearized(start, OnUpdateStatement(s, op))
  {
    hide Apply, OneOpen, ValidPeriods, Explained, Replay, Matching;
    HistoryPush(start, s.history, Entry(op, Count(if Live(s.db, op.machine) then |Matching(s.db, op)| else 0)));
    ApplyKeepsOneOpen(s.db, op);
    ApplyKeepsPeriods(s.db, op);
  }

  lemma StatementKeepsRows(s: Sys, op: Op)
    requires RowsOk(s) && LocksOk(s) && (op.Enable? || op.Disable? || op.Unlink?)
    requires OnUpdateStatement(s, op) != s
    ensures RowsOk(OnUpdateStatement(s, op)) && LocksOk(OnUpdateStatement(s, op))
  {
    hide Matches, Patch;
    PatchKeepsPlace(s.db, op);
  }

  lemma PatchKeepsPlace(db: Db, op: Op)
    requires op.Enable? || op.Disable? || op.Unlink?
    ensures Apply(db, op).usages.Keys == db.usages.Keys
    ensures forall u :: u in db.usages ==>
              && Apply(db, op).usages[u].machine == db.usages[u].machine
              && Apply(db, op).usages[u].startedAt == db.usages[u].startedAt
  {
  }

  /** An update either waits for a transaction that relies on the rows, or does not change what it relies on. */
  lemma StatementSparesTx(s: Sys, op: Op, t: Id)
    requires t in s.txs && TxOk(s, t, s.txs[t]) && (op.Enable? || op.Disable? || op.Unlink?)
    requires OnUpdateStatement(s, op) != s
    ensures TxOk(OnUpdateStatement(s, op), t, s.txs[t])
  {
    var s', tx := OnUpdateStatement(s, op), s.txs[t];
    if tx.stage.Begun? || tx.stage.Locked? || tx.stage.Stamped? {
      StatementSparesEarlyTx(s, op, t);
    } else {
      StatementLeavesRelied(s, op, t);
      hide TxOk, Apply;
      assert s'.machineLocks == s.machineLocks;
      OwnLockRemains(s, t);
      UndisturbedStaysOk(s, s', t, tx);
    }
  }

  /** A transaction that has not yet read or locked rows relies on their starts at most. */
  lemma StatementSparesEarlyTx(s: Sys, op: Op, t: Id)
    requires t in s.txs && TxOk(s, t, s.txs[t]) && (op.Enable? || op.Disable? || op.Unlink?)
    requires OnUpdateStatement(s, op) != s
    requires s.txs[t].stage.Begun? || s.txs[t].stage.Locked? || s.txs[t].stage.Stamped?
    ensures TxOk(OnUpdateStatement(s, op), t, s.txs[t])
  {
    PatchKeepsPlace(s.db, op);
    OpenStaysWithin(s.db, op);
    hide Apply, IsOpen;
  }

  lemma OpenStaysWithin(db: Db, op: Op)
    requires op.Enable? || op.Disable? || op.Unlink?
    ensures Apply(db, op).machines == db.machines
    ensures forall u, m :: IsOpen(Apply(db, op), u, m) ==> IsOpen(db, u, m) && u in db.usages
  {
  }

  lemma StatementLeavesRelied(s: Sys, op: Op, t: Id)
    requires t in s.txs && TxOk(s, t, s.txs[t]) && (op.Enable? || op.Disable? || op.Unlink?)
    requires OnUpdateStatement(s, op) != s
    requires !s.txs[t].stage.Begun? && !s.txs[t].stage.Locked? && !s.txs[t].stage.Stamped?
    ensures SameRows(s.db, OnUpdateStatement(s, op).db, s.txs[t].request.machine)
    ensures t !in OnUpdateStatement(s, op).db.usages
  {
    var m := s.txs[t].request.machine;
    RowsAreHeld(s, t);
    hide TxOk;
    if op.machine == m {
      MatchingIsOpen(s.db, op);
      NothingMatchingNothingWritten(s.db, op);
    } else {
      OtherMachinesKeepRows(s.db, op, m);
    }
  }

  lemma MatchingIsOpen(db: Db, op: Op)
    requires op.Enable? || op.Disable? || op.Unlink?
    ensures forall u :: u in Matching(db, op) ==> IsOpen(db, u, op.machine)
  {
  }

  lemma RowsAreHeld(s: Sys, t: Id)
    requires t in s.txs && TxOk(s, t, s.txs[t])
    requires !s.txs[t].stage.Begun? && !s.txs[t].stage.Locked? && !s.txs[t].stage.Stamped?
    ensures
      var m := s.txs[t].request.machine;
      t !in s.db.usages && (NoneOpen(s.db, m) || HoldsRows(s, t, m))
  {
  }

  lemma NothingMatchingNothingWritten(db: Db, op: Op)
    requires op.Enable? || op.Disable? || op.Unlink?
    requires Matching(db, op) == {} || !Live(db, op.machine)
    ensures Apply(db, op) == db
  {
    assert forall u :: u in Patched(db, op) ==> u in Matching(db, op);
    NoWritesNoChange(db, op);
  }

  lemma MachineStatementKeeps(start: Db, s: Sys, op: Op)
    requires SysInv(start, s) && (op.Delete? || op.Add?)
    ensures SysInv(start, OnStatement(s, op))
  {
    var s' := OnStatement(s, op);
    if s' != s {
      MachineStatementSparesTxs(s, op);
      MachineStatementTakesEffect(start, s, op);
      MachineStatementFrame(s, op);
      hide TxsOk, Linearized, GoodDb, OnStatement;
    }
  }

  lemma MachineStatementFrame(s: Sys, op: Op)
    requires op.Delete? || op.Add?
    ensures
      var s' := OnStatement(s, op);
      s' == s.(db := s'.db, history := s'.history)
  {
    hide Apply;
  }

  lemma MachineStatementTakesEffect(start: Db, s: Sys, op: Op)
    requires Linearized(start, s) && GoodDb(s.db) && (op.Delete? || op.Add?) && OnStatement(s, op) != s
    ensures Linearized(start, OnStatement(s, op)) && GoodDb(OnStatement(s, op).db)
    ensures OnStatement(s, op).db.usages == s.db.usages
  {
    var s' := OnStatement(s, op);
    var entry := s'.history[|s.history|];
    assert s'.db == Apply(s.db, op) && s'.history == s.history + [entry] && entry.op == op;
    assert Timely(s.db, op) && Answers(s.db, op, entry.reply) && s'.db.usages == s.db.usages;
    hide OnStatement, Apply, Explained, Replay, OneOpen, ValidPeriods, Timely, Answers;
    HistoryPush(start, s.history, entry);
    ApplyKeepsOneOpen(s.db, op);
    ApplyKeepsPeriods(s.db, op);
  }

  lemma MachineStatementSparesTxs(s: Sys, op: Op)
    requires TxsOk(s) && (op.Delete? || op.Add?) && OnStatement(s, op) != s
    ensures TxsOk(OnStatement(s, op))
  {
    var s' := OnStatement(s, op);
    assert s'.db.usages == s.db.usages;
    hide TxOk, Apply, Writes, Matching;
    forall t | t in s'.txs ensures TxOk(s', t, s'.txs[t]) {
      assert TxOk(s, t, s.txs[t]);
      OwnLockRemains(s, t);
      LiveUnderLock(s, t);
      UndisturbedStaysOk(s, s', t, s.txs[t]);
    }
  }

  lemma LiveUnderLock(s: Sys, t: Id)
    requires t in s.txs && TxOk(s, t, s.txs[t])
    ensures !s.txs[t].stage.Begun? ==> Live(s.db, s.txs[t].request.machine)
  {
  }

  // ----- Every run -----

  lemma BeginKeeps(start: Db, s: Sys, request: Request)
    requires SysInv(start, s)
    ensures SysInv(start, StepLocks(s, Begin(request)))
  {
    hide TxOk, Explained, Replay, GoodDb;
    var s' := StepLocks(s, Begin(request));
    forall t | t in s.txs ensures t != s.nextId {
      assert TxOk(s, t, s.txs[t]);
      NumbersAreNew(s, t);
    }
    forall t | t in s'.txs ensures TxOk(s', t, s'.txs[t]) {
      if t in s.txs {
        assert TxOk(s, t, s.txs[t]);
        OwnLockRemains(s, t);
        NumbersAreNew(s, t);
        UndisturbedStaysOk(s, s', t, s.txs[t]);
      } else {
        JustBegun(s', t);
      }
    }
  }

  lemma NumbersAreNew(s: Sys, t: Id)
    requires t in s.txs && TxOk(s, t, s.txs[t])
    ensures t < s.nextId
  {
  }

  lemma JustBegun(s: Sys, t: Id)
    requires t in s.txs && s.txs[t].stage.Begun? && t < s.nextId && t !in s.db.usages
    ensures TxOk(s, t, s.txs[t])
  {
  }

  lemma AdvanceKeeps(start: Db, s: Sys, ms: nat)
    requires SysInv(start, s)
    ensures SysInv(start, StepLocks(s, Advance(ms)))
  {
    hide TxOk, Explained, Replay, GoodDb;
    var s' := StepLocks(s, Advance(ms));
    forall t | t in s'.txs ensures TxOk(s', t, s'.txs[t]) {
      assert TxOk(s, t, s.txs[t]);
      OwnLockRemains(s, t);
      UndisturbedStaysOk(s, s', t, s.txs[t]);
    }
  }

  lemma AbortKeeps(start: Db, s: Sys, t: Id)
    requires SysInv(start, s) && t in s.txs
    ensures SysInv(start, Leave(s, t))
  {
    hide TxOk, Explained, Replay, GoodDb;
    LeaveKeeps(s, t);
  }

  lemma StepKeepsSysInv(start: Db, s: Sys, e: LockEvent)
    requires SysInv(start, s)
    ensures SysInv(start, StepLocks(s, e))
  {
    match e {
      case Begin(request) => hide SysInv; BeginKeeps(start, s, request);
      case LockMachine(t) => hide SysInv, OnLockMachine; if t in s.txs && s.txs[t].stage.Begun? { LockMachineKeeps(start, s, t); }
      case LockRows(t) => hide SysInv; LockRowsKeeps(start, s, t);
      case Find(t, found) => hide SysInv, OnFind; if t in s.txs { FindKeeps(start, s, t, found); }
      case TakeStamp(t) => hide SysInv; StampKeeps(start, s, t);
      case UpdateRows(t) => hide SysInv, OnUpdateRows; if t in s.txs { UpdateRowsKeeps(start, s, t); }
      case Insert(t, at) => hide SysInv, OnInsert; if t in s.txs { InsertKeeps(start, s, t, at); }
      case Commit(t) => hide SysInv; if t in s.txs && s.txs[t].stage.Written? { CommitKeeps(start, s, t); }
      case Abort(t) => hide SysInv, Leave; if t in s.txs { AbortKeeps(start, s, t); }
      case Statement(op) =>
        hide SysInv, OnUpdateStatement;
        if op.Delete? || op.Add? {
          MachineStatementKeeps(start, s, op);
        } else if op.Enable? || op.Disable? || op.Unlink? {
          UpdateStatementKeeps(start, s, op);
        }
      case Advance(ms) => hide SysInv; AdvanceKeeps(start, s, ms);
    }
  }

  lemma {:induction false} RunKeepsSysInv(start: Db, s: Sys, events: seq<LockEvent>)
    requires SysInv(start, s)
    ensures SysInv(start, RunLocks(s, events))
    decreases events
  {
    hide SysInv, StepLocks;
    if events != [] {
      StepKeepsSysInv(start, s, events[0]);
      RunKeepsSysInv(start, StepLocks(s, events[0]), events[1..]);
    }
  }

  /** Tables as a running system finds them at startup. */
  ghost predicate Startable(db: Db, clock: int, nextId: Id) {
    && GoodDb(db)
    && forall u :: u in db.usages ==> u < nextId && db.usages[u].startedAt <= clock
  }

  /**
   Every interleaving of the locking transactions and single statements is linearizable: the committed
   tables are those of a history of whole operations, each taking effect at one instant and answering
   exactly as it would have on its own there.  So each machine has at most one open session and no
   session ends before it starts, by the locks alone.
   */
  lemma InterleavingsAreLinearizable(db: Db, clock: int, nextId: Id, events: seq<LockEvent>)
    requires Startable(db, clock, nextId)
    ensures
      var s := RunLocks(Quiet(db, clock, nextId), events);
      && Explained(db, s.history)
      && s.db == Replay(db, s.history)
      && OneOpen(s.db) && ValidPeriods(s.db)
      && Frozen(db, s.db)
  {
    hide RunLocks;
    QuietIsOk(db, clock, nextId);
    RunKeepsSysInv(db, Quiet(db, clock, nextId), events);
    HistoryIsSafe(db, RunLocks(Quiet(db, clock, nextId), events).history);
  }

  lemma QuietIsOk(db: Db, clock: int, nextId: Id)
    requires Startable(db, clock, nextId)
    ensures SysInv(db, Quiet(db, clock, nextId))
  {
  }

  lemma {:induction false} RunAppends(s: Sys, first: seq<LockEvent>, second: seq<LockEvent>)
    ensures RunLocks(s, first + second) == RunLocks(RunLocks(s, first), second)
    decreases first
  {
    hide StepLocks;
    if first == [] {
      assert first + second == second;
    } else {
      assert (first + second)[1..] == first[1..] + second;
      RunAppends(StepLocks(s, first[0]), first[1..], second);
    }
  }

  lemma {:induction false} HistoryGrows(s: Sys, events: seq<LockEvent>)
    ensures s.history <= RunLocks(s, events).history
    decreases events
  {
    if events != [] {
      StepGrows(s, events[0]);
      hide StepLocks;
      HistoryGrows(StepLocks(s, events[0]), events[1..]);
    }
  }

  lemma StepGrows(s: Sys, e: LockEvent)
    ensures s.history <= StepLocks(s, e).history
  {
    hide Apply, Matching, CommitReply, OpenRows, Free, Patched;
  }

  /**
   From any reached state on, whatever is still running: rows are never lost, and closed rows and rows
   of deleted machines never change again.
   */
  lemma ClosedRowsStayFrozen(db: Db, clock: int, nextId: Id, before: seq<LockEvent>, after: seq<LockEvent>)
    requires Startable(db, clock, nextId)
    ensures Frozen(RunLocks(Quiet(db, clock, nextId), before).db, RunLocks(Quiet(db, clock, nextId), before + after).db)
  {
    hide RunLocks, Frozen, OneOpen, ValidPeriods, StepLocks;
    var s0 := Quiet(db, clock, nextId);
    var s, s' := RunLocks(s0, before), RunLocks(s0, before + after);
    InterleavingsAreLinearizable(db, clock, nextId, before);
    InterleavingsAreLinearizable(db, clock, nextId, before + after);
    RunAppends(s0, before, after);
    HistoryGrows(s, after);
    var rest := s'.history[|s.history|..];
    assert s'.history == s.history + rest;
    HistorySplit(db, s.history, rest);
    HistoryIsSafe(s.db, rest);
  }

  /**
   Over any run, with any number of concurrent and retried confirmations, a usage uuid is confirmed at
   most once; every later answer for it on the live machine is a rejection.
   */
  lemma ConfirmedOnceInEveryRun(db: Db, clock: int, nextId: Id, events: seq<LockEvent>, i: nat, j: nat)
    requires Startable(db, clock, nextId)
    requires
      var history := RunLocks(Quiet(db, clock, nextId), events).history;
      && i < j < |history|
      && history[i].op.Confirm? && history[i].reply.Confirmed?
      && history[j].op.Confirm? && history[j].op.expected == history[i].op.expected
    ensures
      var history := RunLocks(Quiet(db, clock, nextId), events).history;
      && !history[j].reply.Confirmed?
      && (Live(Replay(db, history[..j]), history[j].op.machine) ==>
            history[j].reply == NotRunning || history[j].reply == UsageChanged)
  {
    hide RunLocks, StepLocks, Explained, Replay;
    InterleavingsAreLinearizable(db, clock, nextId, events);
    ConfirmedAtMostOnce(db, RunLocks(Quiet(db, clock, nextId), events).history, i, j);
  }

  /**
   In every run, between any two neighbouring effects owners are respected: a row's user only changes at the
   user's own request, and only a confirmation 30 minutes on ends another user's session.
   */
  lemma EveryRunRespectsOwners(db: Db, clock: int, nextId: Id, events: seq<LockEvent>, i: nat)
    requires Startable(db, clock, nextId)
    requires i < |RunLocks(Quiet(db, clock, nextId), events).history|
    ensures
      var s := RunLocks(Quiet(db, clock, nextId), events);
      && RespectsOwners(Replay(db, s.history[..i]), s.history[i].op, Replay(db, s.history[..i + 1]))
      && s.db == Replay(db, s.history)
  {
    hide RunLocks, StepLocks, Explained, Replay, RespectsOwners;
    InterleavingsAreLinearizable(db, clock, nextId, events);
    HistoryRespectsOwners(db, RunLocks(Quiet(db, clock, nextId), events).history, i);
  }

  /**
   In every run, when a confirmation has been answered with success, its previous row is closed with
   zero length under its old owner and the confirmer owns the machine's only open session.
   */
  lemma ConfirmedSessionIsReplaced(db: Db, clock: int, nextId: Id, events: seq<LockEvent>, i: nat)
    requires Startable(db, clock, nextId)
    requires
      var history := RunLocks(Quiet(db, clock, nextId), events).history;
      i < |history| && history[i].op.Confirm? && history[i].reply.Confirmed?
    ensures
      var history := RunLocks(Quiet(db, clock, nextId), events).history;
      var op, before, after := history[i].op, Replay(db, history[..i]), Replay(db, history[..i + 1]);
      && op.expected in before.usages
      && MayTakeOver(before.usages[op.expected], op.user, op.now)
      && op.expected in after.usages
      && after.usages[op.expected] == ZeroLength(before.usages[op.expected])
      && history[i].reply == Confirmed(after.usages[op.expected])
      && (forall u :: IsOpen(after, u, op.machine) <==> u == op.id)
      && op.id in after.usages
      && after.usages[op.id] == Usage(op.machine, Some(op.user), true, op.now, None)
  {
    hide RunLocks, StepLocks, Explained, Replay, Apply, Timely;
    InterleavingsAreLinearizable(db, clock, nextId, events);
    var history := RunLocks(Quiet(db, clock, nextId), events).history;
    EntryAt(db, history, i);
    HistoryIsSafe(db, history[..i]);
    ConfirmationTakesOver(Replay(db, history[..i]), history[i].op);
  }

  // ----- An uncontended confirmation -----

  /** `t` is confirming and holds the machine and its open rows. */
  lemma ConfirmLocks(s: Sys, request: Request)
    requires request.ConfirmRequest? && s.machineLocks == map[] && s.rowLocks == map[] && s.nextId !in s.txs
    requires Live(s.db, request.machine)
    ensures
      var t := s.nextId;
      var s' := StepLocks(StepLocks(StepLocks(s, Begin(request)), LockMachine(t)), LockRows(t));
      && t in s'.txs && s'.txs[t] == Tx(request, RowsLocked, map[])
      && s'.db == s.db && s'.history == s.history && s'.clock == s.clock
  {
    var t := s.nextId;
    var s1 := StepLocks(s, Begin(request));
    assert s1 == s.(txs := s.txs[t := Tx(request, Begun, map[])], nextId := t + 1);
    var s2 := StepLocks(s1, LockMachine(t));
    assert s2 == SetStage(s1, t, Locked).(machineLocks := s1.machineLocks[request.machine := t]);
    hide OnLockMachine;
    assert Free(s2, OpenRows(s2.db, request.machine), t);
  }

  lemma ConfirmFinds(s: Sys, t: Id)
    requires t in s.txs && s.txs[t].request.ConfirmRequest? && s.txs[t].stage.RowsLocked?
    requires
      var request := s.txs[t].request;
      ConfirmReply(s.db, request.user, request.machine, request.expected, s.clock).Confirmed?
    ensures StepLocks(s, Find(t, Some(s.txs[t].request.expected))) == SetStage(s, t, MayReplace(s.clock))
  {
  }

  /** `t` is confirming and has got as far as having its checks passed. */
  lemma ConfirmReachesChecks(s: Sys, user: Id, m: Id, expected: Id)
    requires s.machineLocks == map[] && s.rowLocks == map[] && s.nextId !in s.txs
    requires ConfirmReply(s.db, user, m, expected, s.clock).Confirmed?
    ensures
      var t := s.nextId;
      var events := [Begin(ConfirmRequest(m, user, expected)), LockMachine(t), LockRows(t), Find(t, Some(expected))];
      var s' := RunLocks(s, events);
      && t in s'.txs && s'.txs[t] == Tx(ConfirmRequest(m, user, expected), MayReplace(s.clock), map[])
      && s'.db == s.db && s'.history == s.history && s'.clock == s.clock
  {
    var t, request := s.nextId, ConfirmRequest(m, user, expected);
    ConfirmLocks(s, request);
    hide ConfirmReply, StepLocks;
    var s1 := StepLocks(s, Begin(request));
    var s2 := StepLocks(s1, LockMachine(t));
    var s3 := StepLocks(s2, LockRows(t));
    ConfirmFinds(s3, t);
    RunLast(s3, Find(t, Some(expected)), []);
    RunLast(s2, LockRows(t), [Find(t, Some(expected))]);
    RunLast(s1, LockMachine(t), [LockRows(t), Find(t, Some(expected))]);
    RunLast(s, Begin(request), [LockMachine(t), LockRows(t), Find(t, Some(expected))]);
  }

  lemma RunLast(s: Sys, e: LockEvent, rest: seq<LockEvent>)
    ensures RunLocks(s, [e] + rest) == RunLocks(StepLocks(s, e), rest)
  {
    hide StepLocks;
    assert ([e] + rest)[1..] == rest;
  }

  lemma ConfirmWrites(s: Sys, t: Id)
    requires t in s.txs && s.txs[t].request.ConfirmRequest? && s.txs[t].stage.MayReplace?
    requires s.txs[t].request.expected in s.db.usages && s.txs[t].request.expected != t
    ensures
      var request, now := s.txs[t].request, s.txs[t].stage.now;
      var s' := StepLocks(StepLocks(s, UpdateRows(t)), Insert(t, now));
      && t in s'.txs && s'.history == s.history && s'.txs[t].request == request
      && s'.txs[t].stage == Written(OpOf(request, t, now)) && request.expected in s'.txs[t].writes
      && s'.txs[t].writes[request.expected] == ZeroLength(s.db.usages[request.expected])
  {
    var tx := s.txs[t];
    var writes := map[tx.request.expected := ZeroLength(s.db.usages[tx.request.expected])];
    var s1 := StepLocks(s, UpdateRows(t));
    assert s1 == WriteRows(s, t, writes, Replaced(tx.stage.now));
    hide OnUpdateRows, ZeroLength;
  }

  lemma ConfirmCommits(s: Sys, t: Id)
    requires t in s.txs && s.txs[t].stage.Written? && s.txs[t].stage.op.Confirm?
    requires s.txs[t].stage.op.expected in s.txs[t].writes
    ensures
      var op := s.txs[t].stage.op;
      StepLocks(s, Commit(t)).history == s.history + [Entry(op, Confirmed(s.txs[t].writes[op.expected]))]
  {
  }

  lemma ConfirmWritesAndCommits(s: Sys, t: Id)
    requires t in s.txs && s.txs[t].request.ConfirmRequest? && s.txs[t].stage.MayReplace?
    requires s.txs[t].request.expected in s.db.usages && s.txs[t].request.expected != t
    ensures
      var request, now := s.txs[t].request, s.txs[t].stage.now;
      var s' := RunLocks(s, [UpdateRows(t), Insert(t, now), Commit(t)]);
      var previous := ZeroLength(s.db.usages[request.expected]);
      s'.history == s.history + [Entry(OpOf(request, t, now), Confirmed(previous))]
  {
    var now := s.txs[t].stage.now;
    ConfirmWrites(s, t);
    hide StepLocks;
    var s1 := StepLocks(s, UpdateRows(t));
    var s2 := StepLocks(s1, Insert(t, now));
    ConfirmCommits(s2, t);
    RunLast(s2, Commit(t), []);
    RunLast(s1, Insert(t, now), [Commit(t)]);
    RunLast(s, UpdateRows(t), [Insert(t, now), Commit(t)]);
  }

  /**
   With no lock held, a confirmation that the tables allow, which is one that registration has asked
   for, runs to success through its own seven steps.
   */
  lemma AllowedConfirmationSucceeds(start: Db, s: Sys, user: Id, m: Id, expected: Id)
    requires SysInv(start, s) && s.machineLocks == map[] && s.rowLocks == map[]
    requires Register(s.db, user, m, s.clock) == ConfirmationRequired(expected)
    ensures
      var t := s.nextId;
      var s' := RunLocks(s, [Begin(ConfirmRequest(m, user, expected)), LockMachine(t), LockRows(t),
                             Find(t, Some(expected)), UpdateRows(t), Insert(t, s.clock), Commit(t)]);
      && s'.history == s.history + [Entry(UsageTable.Confirm(user, m, expected, t, s.clock),
                                          Confirmed(ZeroLength(s.db.usages[expected])))]
      && s'.db == Apply(s.db, UsageTable.Confirm(user, m, expected, t, s.clock))
  {
    var t := s.nextId;
    hide SysInv, StepLocks, RunLocks, Apply, ConfirmReply, Register;
    NextIsFresh(start, s, user, m, expected);
    var check := [Begin(ConfirmRequest(m, user, expected)), LockMachine(t), LockRows(t), Find(t, Some(expected))];
    var write := [UpdateRows(t), Insert(t, s.clock), Commit(t)];
    ConfirmReachesChecks(s, user, m, expected);
    ConfirmWritesAndCommits(RunLocks(s, check), t);
    RunAppends(s, check, write);
    RunKeepsSysInv(start, s, check + write);
    LastEntryApplies(start, s, RunLocks(s, check + write));
    assert check + write == [Begin(ConfirmRequest(m, user, expected)), LockMachine(t), LockRows(t),
                             Find(t, Some(expected)), UpdateRows(t), Insert(t, s.clock), Commit(t)];
  }

  lemma NextIsFresh(start: Db, s: Sys, user: Id, m: Id, expected: Id)
    requires SysInv(start, s) && Register(s.db, user, m, s.clock) == ConfirmationRequired(expected)
    ensures s.nextId !in s.txs && expected in s.db.usages && expected < s.nextId
    ensures ConfirmReply(s.db, user, m, expected, s.clock).Confirmed?
  {
    hide Linearized;
    forall t | t in s.txs ensures t != s.nextId { assert TxOk(s, t, s.txs[t]); }
    hide Register;
    RegistrationAgreesWithConfirmation(s.db, user, m, expected, s.clock);
  }

  lemma LastEntryApplies(start: Db, s: Sys, s': Sys)
    requires SysInv(start, s) && SysInv(start, s') && |s'.history| == |s.history| + 1 && s.history <= s'.history
    ensures s'.db == Apply(s.db, s'.history[|s.history|].op)
  {
    hide TxsOk, LocksOk, RowsOk, GoodDb, Apply;
    assert s'.history == s.history + [s'.history[|s.history|]];
    HistoryPush(start, s.history, s'.history[|s.history|]);
  }
}
