/**
 Usage sessions as one atomic operation after another: what each operation of the usage repository does
 to the tables and what it answers (libs/database/src/repositories/using-machine.repository.ts:23-315),
 and what every history of such operations keeps.  `UsageLocks` shows that the interleaved, locking
 transactions behave like such a history.
 */
module UsageTable {
  import opened Options

  type Id = nat

  const MACHINE_REREGISTRATION_MIN_DURATION_MS := 30 * 60 * 1000

  datatype Usage = Usage(machine: Id, user: Option<Id>, notify: bool, startedAt: int, endedAt: Option<int>)

  /** `machines` maps every machine row to whether it is still undeleted. */
  datatype Db = Db(machines: map<Id, bool>, usages: map<Id, Usage>)

  datatype Op =
    | Start(machine: Id, owner: Option<Id>, notify: bool, id: Id, at: int)
    | Confirm(user: Id, machine: Id, expected: Id, id: Id, now: int)
    | Finish(machine: Id, at: int)
    | Enable(user: Id, machine: Id)
    | Disable(user: Id, machine: Id)
    | Unlink(user: Id, machine: Id)
    | Delete(machine: Id)
    | Add(machine: Id)

  datatype Reply =
    | NotFound
    | Existing(id: Id)
    | Created
    | NotRunning
    | UsageChanged
    | AlreadyRegistered
    | Confirmed(previous: Usage)
    | Nothing
    | Finished(session: Usage)
    | Count(n: nat)
    | Done

  predicate Live(db: Db, m: Id) { m in db.machines && db.machines[m] }

  predicate IsOpen(db: Db, u: Id, m: Id) {
    u in db.usages && db.usages[u].machine == m && db.usages[u].endedAt.None?
  }

  ghost predicate NoneOpen(db: Db, m: Id) { forall u :: !IsOpen(db, u, m) }

  // ----- Confirmation -----

  /** Another registered user's session that started at least 30 minutes before `now`. */
  predicate MayTakeOver(row: Usage, user: Id, now: int) {
    && row.user.Some?
    && row.user.value != user
    && now - row.startedAt >= MACHINE_REREGISTRATION_MIN_DURATION_MS
  }

  function ZeroLength(row: Usage): Usage { row.(endedAt := Some(row.startedAt), notify := false) }

  ghost function ConfirmReply(db: Db, user: Id, m: Id, expected: Id, now: int): Reply {
    if !Live(db, m) then NotFound
    else if NoneOpen(db, m) then NotRunning
    else if !IsOpen(db, expected, m) then UsageChanged
    else if !MayTakeOver(db.usages[expected], user, now) then AlreadyRegistered
    else Confirmed(ZeroLength(db.usages[expected]))
  }

  // ----- Row updates -----

  /** The `where` clause of an operation that updates open sessions of one machine. */
  predicate Matches(op: Op, row: Usage) {
    && row.endedAt.None?
    && match op
       case Finish(m, _) => row.machine == m
       case Enable(user, m) => row.machine == m && (row.user.None? || row.user == Some(user))
       case Disable(user, m) => row.machine == m && row.user == Some(user)
       case Unlink(user, m) => row.machine == m && row.user == Some(user)
       case _ => false
  }

  function Patch(op: Op, row: Usage): Usage {
    match op
    case Finish(_, at) => row.(endedAt := Some(at))
    case Enable(user, _) => row.(user := Some(user), notify := true)
    case Disable(_, _) => row.(notify := false)
    case Unlink(_, _) => row.(user := None, notify := false)
    case _ => row
  }

  function Matching(db: Db, op: Op): set<Id> {
    set u | u in db.usages && Matches(op, db.usages[u])
  }

  function Patched(db: Db, op: Op): map<Id, Usage> {
    map u | u in db.usages && Matches(op, db.usages[u]) :: Patch(op, db.usages[u])
  }

  /** The rows an operation writes. */
  ghost function Writes(db: Db, op: Op): map<Id, Usage> {
    if !Live(db, op.machine) then map[]
    else match op
      case Start(m, owner, notify, id, at) =>
        if NoneOpen(db, m) then map[id := Usage(m, owner, notify, at, None)] else map[]
      case Confirm(user, m, expected, id, now) =>
        if ConfirmReply(db, user, m, expected, now).Confirmed?
        then map[expected := ZeroLength(db.usages[expected]), id := Usage(m, Some(user), true, now, None)]
        else map[]
      case _ => Patched(db, op)
  }

  ghost function Apply(db: Db, op: Op): Db {
    var machines :=
      if op.Delete? && Live(db, op.machine) then db.machines[op.machine := false]
      else if op.Add? && op.machine !in db.machines then db.machines[op.machine := true]
      else db.machines;
    Db(machines, db.usages + Writes(db, op))
  }

  /** The answers an operation may give in a state; `findFirst` may return any open row. */
  ghost predicate Answers(db: Db, op: Op, reply: Reply) {
    match op
    case Start(m, _, _, _, _) =>
      if !Live(db, m) then reply == NotFound
      else if NoneOpen(db, m) then reply == Created
      else reply.Existing? && IsOpen(db, reply.id, m)
    case Confirm(user, m, expected, _, now) => reply == ConfirmReply(db, user, m, expected, now)
    case Finish(m, at) =>
      if !Live(db, m) || NoneOpen(db, m) then reply == Nothing
      else exists u :: IsOpen(db, u, m) && reply == Finished(Patch(op, db.usages[u]))
    case Delete(m) => reply == if Live(db, m) then Done else NotFound
    case Add(m) => reply == Done
    case _ => reply == Count(if Live(db, op.machine) then |Matching(db, op)| else 0)
  }

  /** New rows get a new uuid, and a session is not finished at a time before it started. */
  ghost predicate Timely(db: Db, op: Op) {
    && (op.Start? || op.Confirm? ==> op.id !in db.usages)
    && (op.Finish? ==> forall u :: IsOpen(db, u, op.machine) ==> db.usages[u].startedAt <= op.at)
  }

  // ----- What one operation keeps -----

  ghost predicate OneOpen(db: Db) {
    forall u, v, m :: IsOpen(db, u, m) && IsOpen(db, v, m) ==> u == v
  }

  ghost predicate ValidPeriods(db: Db) {
    forall u :: u in db.usages && db.usages[u].endedAt.Some? ==> db.usages[u].startedAt <= db.usages[u].endedAt.value
  }

  ghost predicate GoodDb(db: Db) { OneOpen(db) && ValidPeriods(db) }

  lemma ApplyKeepsOneOpen(db: Db, op: Op)
    requires OneOpen(db) && Timely(db, op)
    ensures OneOpen(Apply(db, op))
  {
    var db' := Apply(db, op);
    forall u, v, m | IsOpen(db', u, m) && IsOpen(db', v, m) ensures u == v {
      if op.Start? || op.Confirm? {
        if u != op.id { assert IsOpen(db, u, m); }
        if v != op.id { assert IsOpen(db, v, m); }
        if op.Confirm? && op.id in Writes(db, op) { assert IsOpen(db, op.expected, op.machine); }
      } else {
        assert IsOpen(db, u, m) && IsOpen(db, v, m);
      }
    }
  }

  lemma ApplyKeepsPeriods(db: Db, op: Op)
    requires ValidPeriods(db) && Timely(db, op)
    ensures ValidPeriods(Apply(db, op))
  {
    var db' := Apply(db, op);
    forall u | u in db'.usages && db'.usages[u].endedAt.Some?
      ensures db'.usages[u].startedAt <= db'.usages[u].endedAt.value
    {
      if u in Writes(db, op) && op.Finish? { assert IsOpen(db, u, op.machine); }
    }
  }

  /** Rows are never lost; closed rows and rows of a deleted machine never change again. */
  ghost predicate Frozen(db: Db, db': Db) {
    && db.usages.Keys <= db'.usages.Keys
    && (forall u :: u in db.usages && db.usages[u].endedAt.Some? ==> db'.usages[u] == db.usages[u])
    && (forall u :: u in db.usages && !Live(db, db.usages[u].machine) && db.usages[u].machine in db.machines ==>
          db'.usages[u] == db.usages[u])
    && (forall m :: m in db.machines && !db.machines[m] ==> m in db'.machines && !db'.machines[m])
    && (forall u :: u in db.usages ==>
          && db'.usages[u].machine == db.usages[u].machine
          && db'.usages[u].startedAt == db.usages[u].startedAt)
  }

  lemma ApplyFreezes(db: Db, op: Op)
    requires Timely(db, op)
    ensures Frozen(db, Apply(db, op))
  {
  }

  lemma FrozenTransitive(a: Db, b: Db, c: Db)
    requires Frozen(a, b) && Frozen(b, c)
    ensures Frozen(a, c)
  {
  }

  /**
   Who may change whose session: a row's user only goes from nobody to the registering user or from a
   user to nobody at that user's own request, and a request ends another user's session only by
   confirming its completion at least 30 minutes after it started.
   */
  ghost predicate RespectsOwners(db: Db, op: Op, db': Db) {
    forall u :: u in db.usages && u in db'.usages ==>
      var row, row' := db.usages[u], db'.usages[u];
      && (row'.user != row.user ==>
            || (row.user.None? && op.Enable? && row'.user == Some(op.user))
            || (row'.user.None? && op.Unlink? && row.user == Some(op.user)))
      && (row'.endedAt != row.endedAt ==>
            || op.Finish?
            || (op.Confirm? && MayTakeOver(row, op.user, op.now) && row' == ZeroLength(row)))
  }

  lemma ApplyRespectsOwners(db: Db, op: Op)
    requires Timely(db, op)
    ensures RespectsOwners(db, op, Apply(db, op))
  {
  }

  // ----- Histories -----

  datatype Entry = Entry(op: Op, reply: Reply)

  ghost function Replay(db: Db, history: seq<Entry>): Db
    decreases history
  {
    if history == [] then db else Replay(Apply(db, history[0].op), history[1..])
  }

  /** Every operation was timely and answered as it would have been on its own at that point. */
  ghost predicate Explained(db: Db, history: seq<Entry>)
    decreases history
  {
    history == [] ||
    (Timely(db, history[0].op) && Answers(db, history[0].op, history[0].reply)
     && Explained(Apply(db, history[0].op), history[1..]))
  }

  lemma {:induction false} HistoryPush(db: Db, history: seq<Entry>, e: Entry)
    requires Explained(db, history)
    ensures Replay(db, history + [e]) == Apply(Replay(db, history), e.op)
    ensures Timely(Replay(db, history), e.op) && Answers(Replay(db, history), e.op, e.reply) ==>
              Explained(db, history + [e])
    decreases history
  {
    hide Apply, Timely, Answers;
    if history == [] {
      assert [e][1..] == [];
    } else {
      HistoryPush(Apply(db, history[0].op), history[1..], e);
      assert (history + [e])[1..] == history[1..] + [e];
    }
  }

  lemma {:induction false} HistorySplit(db: Db, first: seq<Entry>, second: seq<Entry>)
    requires Explained(db, first + second)
    ensures Explained(db, first) && Explained(Replay(db, first), second)
    ensures Replay(db, first + second) == Replay(Replay(db, first), second)
    decreases first
  {
    hide Apply, Timely, Answers;
    if first == [] {
      assert first + second == second;
    } else {
      assert (first + second)[1..] == first[1..] + second;
      HistorySplit(Apply(db, first[0].op), first[1..], second);
    }
  }

  /**
   Over any history each machine keeps at most one open session and no session ends before it starts;
   rows are never lost, and closed rows and rows of deleted machines never change again.
   */
  lemma {:induction false} HistoryIsSafe(db: Db, history: seq<Entry>)
    requires GoodDb(db) && Explained(db, history)
    ensures GoodDb(Replay(db, history))
    ensures Frozen(db, Replay(db, history))
    decreases history
  {
    if history != [] {
      hide Apply, Answers, Timely, Frozen, OneOpen, ValidPeriods;
      var next := Apply(db, history[0].op);
      ApplyKeepsOneOpen(db, history[0].op);
      ApplyKeepsPeriods(db, history[0].op);
      ApplyFreezes(db, history[0].op);
      HistoryIsSafe(next, history[1..]);
      FrozenTransitive(db, next, Replay(next, history[1..]));
    }
  }

  /**
   A successful confirmation answers with the previous session, which keeps its owner and start and is
   closed with zero length; the machine's only open session is a new one owned by the confirmer.
   */
  lemma ConfirmationTakesOver(db: Db, op: Op)
    requires GoodDb(db) && op.Confirm? && Timely(db, op)
    requires ConfirmReply(db, op.user, op.machine, op.expected, op.now).Confirmed?
    ensures
      var db', before := Apply(db, op), db.usages[op.expected];
      var previous := ConfirmReply(db, op.user, op.machine, op.expected, op.now).previous;
      && op.expected in db'.usages && op.id in db'.usages
      && MayTakeOver(before, op.user, op.now)
      && db'.usages[op.expected] == previous
      && previous.endedAt == Some(previous.startedAt) && !previous.notify
      && previous.user == before.user && previous.startedAt == before.startedAt
      && (forall u :: IsOpen(db', u, op.machine) <==> u == op.id)
      && db'.usages[op.id] == Usage(op.machine, Some(op.user), true, op.now, None)
  {
    var db' := Apply(db, op);
    assert IsOpen(db, op.expected, op.machine);
    forall u ensures IsOpen(db', u, op.machine) <==> u == op.id {
      assert u != op.id && IsOpen(db', u, op.machine) ==> IsOpen(db, u, op.machine);
    }
  }

  /** Once its session is closed, a uuid can never be confirmed again; on a live machine the answer says so. */
  lemma ClosedIsNeverConfirmed(db: Db, later: Db, op: Op)
    requires op.Confirm? && op.expected in db.usages && db.usages[op.expected].endedAt.Some? && Frozen(db, later)
    ensures
      var reply := ConfirmReply(later, op.user, op.machine, op.expected, op.now);
      && !reply.Confirmed?
      && (Live(later, op.machine) ==> reply == if NoneOpen(later, op.machine) then NotRunning else UsageChanged)
  {
  }

  /** Over any history, with any number of confirmations, each usage uuid is confirmed at most once. */
  lemma ConfirmedAtMostOnce(db: Db, history: seq<Entry>, i: nat, j: nat)
    requires GoodDb(db) && Explained(db, history) && i < j < |history|
    requires history[i].op.Confirm? && history[i].reply.Confirmed?
    requires history[j].op.Confirm? && history[j].op.expected == history[i].op.expected
    ensures !history[j].reply.Confirmed?
    ensures
      var later := Replay(db, history[..j]);
      Live(later, history[j].op.machine) ==> history[j].reply == NotRunning || history[j].reply == UsageChanged
  {
    hide Frozen, Timely;
    var op := history[i].op;
    var atI, atJ := Replay(db, history[..i]), Replay(db, history[..j]);
    EntryAt(db, history, i);
    EntryAt(db, history, j);
    var after := Replay(db, history[..i + 1]);
    HistoryIsSafe(db, history[..i]);
    ConfirmationTakesOver(atI, op);
    assert history[..j] == history[..i + 1] + history[i + 1..j];
    HistorySplit(db, history[..i + 1], history[i + 1..j]);
    EntryAt(db, history, i);
    HistoryIsSafe(db, history[..i + 1]);
    HistoryIsSafe(after, history[i + 1..j]);
    ClosedIsNeverConfirmed(after, atJ, history[j].op);
  }

  /** What `Explained` says about one entry. */
  lemma EntryAt(db: Db, history: seq<Entry>, i: nat)
    requires Explained(db, history) && i < |history|
    ensures Explained(db, history[..i]) && Explained(db, history[..i + 1])
    ensures Timely(Replay(db, history[..i]), history[i].op)
    ensures Answers(Replay(db, history[..i]), history[i].op, history[i].reply)
    ensures Replay(db, history[..i + 1]) == Apply(Replay(db, history[..i]), history[i].op)
  {
    hide Apply, Timely, Answers;
    assert history == history[..i] + history[i..];
    HistorySplit(db, history[..i], history[i..]);
    assert history == history[..i + 1] + history[i + 1..];
    HistorySplit(db, history[..i + 1], history[i + 1..]);
    assert history[..i + 1] == history[..i] + [history[i]];
    HistoryPush(db, history[..i], history[i]);
  }

  /** Over any history, between any two neighbouring states owners are respected. */
  lemma HistoryRespectsOwners(db: Db, history: seq<Entry>, i: nat)
    requires Explained(db, history) && i < |history|
    ensures RespectsOwners(Replay(db, history[..i]), history[i].op, Replay(db, history[..i + 1]))
  {
    hide Apply, Timely, Answers, RespectsOwners;
    EntryAt(db, history, i);
    ApplyRespectsOwners(Replay(db, history[..i]), history[i].op);
  }

  /**
   A single-statement update that has found a row to wait for finds no other once the transaction it waited
   for has committed: it makes no difference whether it rechecks the rows found or looks afresh.
   */
  lemma WaitingFindsNoNewRow(db: Db, committed: Op, waiting: Op)
    requires OneOpen(db) && Timely(db, committed)
    requires committed.Start? || committed.Confirm? || committed.Finish?
    requires waiting.Enable? || waiting.Disable? || waiting.Unlink?
    requires Matching(db, waiting) != {}
    requires committed.machine == waiting.machine
    ensures Matching(Apply(db, committed), waiting) <= Matching(db, waiting)
  {
    var found :| found in Matching(db, waiting);
    assert IsOpen(db, found, waiting.machine);
    if committed.Confirm? && IsOpen(db, committed.expected, committed.machine) {
      assert found == committed.expected;
    }
  }

  // ----- Registration (src/machine/machine.service.ts:531-575) -----

  datatype Registration =
    | Registered
    | MachineNotFound
    | MachineNotRunning
    | ConfirmationRequired(usage: Id)
    | TakenByOther

  /** The error chosen from the open session when nothing could be registered. */
  ghost function Diagnose(db: Db, user: Id, m: Id, now: int): Registration {
    if !Live(db, m) || NoneOpen(db, m) then MachineNotRunning
    else
      var u :| IsOpen(db, u, m);
      var row := db.usages[u];
      if row.user.Some? && row.user.value != user
         && now - row.startedAt >= MACHINE_REREGISTRATION_MIN_DURATION_MS
      then ConfirmationRequired(u)
      else TakenByOther
  }

  ghost function Register(db: Db, user: Id, m: Id, now: int): Registration {
    if !Live(db, m) then MachineNotFound
    else if |Matching(db, Enable(user, m))| > 0 then Registered
    else Diagnose(db, user, m, now)
  }

  /**
   Registering answers "confirmation required, usage u" exactly when confirming u at that instant would
   succeed, and the two never both succeed.  The diagnosis alone already agrees with confirmation, so
   a session change between the failed update and the diagnosing read does no harm.
   */
  lemma RegistrationAgreesWithConfirmation(db: Db, user: Id, m: Id, u: Id, now: int)
    requires GoodDb(db)
    ensures Diagnose(db, user, m, now) == ConfirmationRequired(u) <==> ConfirmReply(db, user, m, u, now).Confirmed?
    ensures Register(db, user, m, now) == ConfirmationRequired(u) <==> ConfirmReply(db, user, m, u, now).Confirmed?
    ensures Register(db, user, m, now) == Registered ==> !ConfirmReply(db, user, m, u, now).Confirmed?
  {
    var matching := Matching(db, Enable(user, m));
    if matching != {} {
      var v :| v in matching;
      assert IsOpen(db, v, m);
      assert |matching| > 0;
    } else if Live(db, m) && !NoneOpen(db, m) {
      var v :| IsOpen(db, v, m);
      assert v !in matching;
    }
  }

  /** The answer stays actionable while the machine lives and its session row is as it was. */
  lemma ConfirmationStaysActionable(db: Db, history: seq<Entry>, user: Id, m: Id, u: Id, now: int, later: int)
    requires GoodDb(db) && Explained(db, history) && now <= later
    requires Register(db, user, m, now) == ConfirmationRequired(u)
    requires u in Replay(db, history).usages && Replay(db, history).usages[u] == db.usages[u]
    requires Live(Replay(db, history), m)
    ensures ConfirmReply(Replay(db, history), user, m, u, later) == Confirmed(ZeroLength(db.usages[u]))
    ensures Register(Replay(db, history), user, m, later) == ConfirmationRequired(u)
  {
    hide Register, Timely, Answers, Apply;
    RegistrationAgreesWithConfirmation(db, user, m, u, now);
    HistoryIsSafe(db, history);
    var db' := Replay(db, history);
    assert IsOpen(db', u, m);
    RegistrationAgreesWithConfirmation(db', user, m, u, later);
  }
}
