/**
 Pushes to many ThinQ devices, one promise chain per device (src/thinq/thinq-mqtt.service.ts:87-145).
 A push waits for the push that was the device's latest when it arrived, looks up the machines, merges
 its report into the cached state and has the machine updated; any awaited call may fail.  REST
 snapshots replace a cached state at any moment.  Pushes are numbered in arrival order.
 */
module ThinqPushes {
  import opened Options
  import opened ThinqMerge

  type Id = nat
  type Device = string

  datatype Stage = Waiting | LookingUp | Updating | Settled | Cleaned

  /** `mapped` tells that the push's lookup found a machine. */
  datatype Push = Push(device: Device, report: DryerState, previous: Option<Id>, stage: Stage, mapped: bool)

  datatype Lookup = LookupFailed | Unmapped | Mapped

  datatype Pushes = Pushes(
    states: map<Device, DryerState>,      // `stateByDeviceId`
    latest: map<Device, Id>,              // `pushByDeviceId`
    pushes: map<Id, Push>,
    next: Id,
    // History per device: the last snapshot, the reports merged since, and all pushes ever merged.
    snapshots: map<Device, DryerState>,
    since: map<Device, seq<DryerState>>,
    merged: map<Device, seq<Id>>)

  datatype PushEvent =
    | Arrive(device: Device, report: DryerState)
    | Begin(id: Id)
    | LookedUp(id: Id, result: Lookup)
    | Updated(id: Id)              // the machine update has returned or thrown
    | CleanUp(id: Id)
    | Snapshot(device: Device, state: DryerState)

  function Done(p: Push): bool { p.stage.Settled? || p.stage.Cleaned? }

  function Get<K, V>(m: map<K, V>, k: K, default: V): V { if k in m then m[k] else default }

  function SetStage(s: Pushes, id: Id, stage: Stage): Pushes
    requires id in s.pushes
  {
    s.(pushes := s.pushes[id := s.pushes[id].(stage := stage)])
  }

  function OnArrive(s: Pushes, device: Device, report: DryerState): Pushes {
    var previous := if device in s.latest then Some(s.latest[device]) else None;
    s.(pushes := s.pushes[s.next := Push(device, report, previous, Waiting, false)],
       latest := s.latest[device := s.next],
       next := s.next + 1)
  }

  /** The `then` callback runs once the previous push has settled, one way or the other. */
  predicate MayBegin(s: Pushes, id: Id) {
    && id in s.pushes && s.pushes[id].stage.Waiting?
    && (s.pushes[id].previous.Some? ==>
          s.pushes[id].previous.value in s.pushes && Done(s.pushes[s.pushes[id].previous.value]))
  }

  function OnMapped(s: Pushes, id: Id): Pushes
    requires id in s.pushes
  {
    var p := s.pushes[id];
    var cached := if p.device in s.states then Some(s.states[p.device]) else None;
    s.(
    pushes := s.pushes[id := p.(stage := Updating, mapped := true)],
    states := s.states[p.device := Merge(cached, AsReport(p.report))],
    since := s.since[p.device := Get(s.since, p.device, []) + [p.report]],
    merged := s.merged[p.device := Get(s.merged, p.device, []) + [id]])
  }

  /** The `finally` block: the entry goes if no later push has replaced it. */
  function OnCleanUp(s: Pushes, id: Id): Pushes
    requires id in s.pushes
  {
    var s' := SetStage(s, id, Cleaned);
    var device := s.pushes[id].device;
    if device in s.latest && s.latest[device] == id then s'.(latest := s.latest - {device}) else s'
  }

  function StepPushes(s: Pushes, e: PushEvent): Pushes {
    match e
    case Arrive(device, report) => OnArrive(s, device, report)
    case Begin(id) => if MayBegin(s, id) then SetStage(s, id, LookingUp) else s
    case LookedUp(id, result) =>
      if id !in s.pushes || !s.pushes[id].stage.LookingUp? then s
      else if result.Mapped? then OnMapped(s, id)
      else SetStage(s, id, Settled)
    case Updated(id) =>
      if id in s.pushes && s.pushes[id].stage.Updating? then SetStage(s, id, Settled) else s
    case CleanUp(id) => if id in s.pushes && s.pushes[id].stage.Settled? then OnCleanUp(s, id) else s
    case Snapshot(device, state) =>
      s.(states := s.states[device := state], snapshots := s.snapshots[device := state], since := s.since[device := []])
  }

  function RunPushes(s: Pushes, events: seq<PushEvent>): Pushes
    decreases events
  {
    if events == [] then s else RunPushes(StepPushes(s, events[0]), events[1..])
  }

  const NO_PUSHES := Pushes(map[], map[], map[], 0, map[], map[], map[])

  // ----- Invariant -----

  predicate Earlier(s: Pushes, q: Id, p: Id) {
    q in s.pushes && p in s.pushes && q < p && s.pushes[q].device == s.pushes[p].device
  }

  /** A push that has begun finds every earlier push of its device settled. */
  ghost predicate Serial(s: Pushes) {
    forall q: Id, p: Id :: Earlier(s, q, p) && !s.pushes[p].stage.Waiting? ==> Done(s.pushes[q])
  }

  /** The push awaited is the device's last one before; without one, everything before has settled. */
  ghost predicate Chained(s: Pushes) {
    forall q: Id, p: Id :: Earlier(s, q, p) ==>
      match s.pushes[p].previous
      case None => Done(s.pushes[q])
      case Some(r) => Earlier(s, r, p) && q <= r
  }

  /** A chain entry is the device's latest push; without an entry every push has been cleaned up. */
  ghost predicate EntriesOk(s: Pushes) {
    forall p :: p in s.pushes ==>
      var device := s.pushes[p].device;
      if device in s.latest
      then s.latest[device] in s.pushes && s.pushes[s.latest[device]].device == device && p <= s.latest[device]
           && !s.pushes[s.latest[device]].stage.Cleaned?
      else Done(s.pushes[p])
  }

  ghost predicate Numbered(s: Pushes) {
    && (forall p :: p in s.pushes ==> p < s.next)
    && (forall d :: d in s.latest ==> s.latest[d] in s.pushes && s.pushes[s.latest[d]].device == d)
  }

  /** Merged pushes appear in arrival order and are exactly those whose lookup found a machine. */
  ghost predicate MergedOk(s: Pushes) {
    && (forall d :: d in s.merged ==> InOrder(s, d, s.merged[d]))
    && (forall p :: p in s.pushes && s.pushes[p].mapped ==>
          PastLookup(s.pushes[p]) && p in Get(s.merged, s.pushes[p].device, []))
  }

  predicate PastLookup(p: Push) { !p.stage.Waiting? && !p.stage.LookingUp? }

  predicate MergedPush(s: Pushes, d: Device, p: Id) {
    p in s.pushes && s.pushes[p].device == d && s.pushes[p].mapped && PastLookup(s.pushes[p])
  }

  ghost predicate InOrder(s: Pushes, d: Device, m: seq<Id>) {
    && (forall i :: 0 <= i < |m| ==> MergedPush(s, d, m[i]))
    && (forall i, j :: 0 <= i < j < |m| ==> m[i] < m[j])
  }

  /** The reports merged since the last snapshot are those of the latest merged pushes. */
  ghost predicate SinceOk(s: Pushes) {
    forall d :: d in s.since ==> SuffixReports(s, s.since[d], Get(s.merged, d, []))
  }

  ghost predicate SuffixReports(s: Pushes, reports: seq<DryerState>, m: seq<Id>) {
    && |reports| <= |m|
    && forall k :: |m| - |reports| <= k < |m| ==>
         m[k] in s.pushes && s.pushes[m[k]].report == reports[k - (|m| - |reports|)]
  }

  /** The cached state is the last snapshot followed by the reports merged since. */
  ghost predicate CacheOk(s: Pushes) {
    && (forall d :: d in s.states ==>
          s.states[d] == Fold(Get(s.snapshots, d, EMPTY), Get(s.since, d, [])))
    && (forall d :: d !in s.states ==> d !in s.snapshots && d !in s.since)
  }

  ghost predicate PushInv(s: Pushes) {
    Numbered(s) && Serial(s) && Chained(s) && EntriesOk(s) && MergedOk(s) && SinceOk(s) && CacheOk(s)
  }

  // ----- Steps keep it -----

  /** Nothing about the caches or the merged reports has changed, and no push lost its report. */
  ghost predicate SameMerges(s: Pushes, s': Pushes) {
    && s'.states == s.states && s'.snapshots == s.snapshots && s'.since == s.since && s'.merged == s.merged
    && (forall p :: p in s.pushes ==>
          && p in s'.pushes && s'.pushes[p].device == s.pushes[p].device && s'.pushes[p].report == s.pushes[p].report
          && (s'.pushes[p].mapped <==> s.pushes[p].mapped)
          && (PastLookup(s.pushes[p]) ==> PastLookup(s'.pushes[p])))
    && (forall p :: p in s'.pushes && p !in s.pushes ==> !s'.pushes[p].mapped)
  }

  lemma SameMergesKeep(s: Pushes, s': Pushes)
    requires MergedOk(s) && SinceOk(s) && CacheOk(s) && SameMerges(s, s')
    ensures MergedOk(s') && SinceOk(s') && CacheOk(s')
  {
    hide Fold;
    forall d | d in s'.merged ensures InOrder(s', d, s'.merged[d]) {
      assert InOrder(s, d, s.merged[d]);
      assert forall i :: 0 <= i < |s.merged[d]| ==> MergedPush(s, d, s.merged[d][i]);
    }
    forall d | d in s'.since ensures SuffixReports(s', s'.since[d], Get(s'.merged, d, [])) {
      assert SuffixReports(s, s.since[d], Get(s.merged, d, []));
    }
  }

  lemma ArriveKeeps(s: Pushes, device: Device, report: DryerState)
    requires PushInv(s)
    ensures PushInv(OnArrive(s, device, report))
  {
    var s' := OnArrive(s, device, report);
    assert SameMerges(s, s');
    ArriveOrder(s, device, report);
    hide CacheOk, SinceOk, MergedOk, SameMerges, Serial, Chained, EntriesOk, OnArrive;
    SameMergesKeep(s, s');
  }

  lemma ArriveOrder(s: Pushes, device: Device, report: DryerState)
    requires Numbered(s) && Serial(s) && Chained(s) && EntriesOk(s)
    ensures
      var s' := OnArrive(s, device, report);
      Numbered(s') && Serial(s') && Chained(s') && EntriesOk(s')
  {
    var s' := OnArrive(s, device, report);
    assert forall q, p :: Earlier(s', q, p) && p != s.next ==> Earlier(s, q, p);
  }

  predicate NextStage(s: Pushes, id: Id, stage: Stage)
    requires id in s.pushes
  {
    match stage
    case LookingUp => MayBegin(s, id)
    case Settled => s.pushes[id].stage.LookingUp? || s.pushes[id].stage.Updating?
    case _ => false
  }

  /** Moving one push along its stages. */
  lemma StageKeeps(s: Pushes, id: Id, stage: Stage)
    requires PushInv(s) && id in s.pushes && NextStage(s, id, stage)
    ensures PushInv(SetStage(s, id, stage))
  {
    var s' := SetStage(s, id, stage);
    assert SameMerges(s, s');
    StageOrder(s, id, stage);
    hide CacheOk, SinceOk, MergedOk, SameMerges, Serial, Chained, EntriesOk;
    SameMergesKeep(s, s');
  }

  lemma StageOrder(s: Pushes, id: Id, stage: Stage)
    requires Numbered(s) && Serial(s) && Chained(s) && EntriesOk(s) && id in s.pushes && NextStage(s, id, stage)
    ensures Numbered(SetStage(s, id, stage)) && Serial(SetStage(s, id, stage)) && Chained(SetStage(s, id, stage))
    ensures EntriesOk(SetStage(s, id, stage))
  {
    var s' := SetStage(s, id, stage);
    assert forall q, p :: Earlier(s', q, p) <==> Earlier(s, q, p);
    if stage.LookingUp? {
      forall q | Earlier(s, q, id) ensures Done(s.pushes[q]) {
        PredecessorsAreDone(s, q, id);
      }
    }
  }

  /** The awaited push has settled and it began only after everything before it had. */
  lemma PredecessorsAreDone(s: Pushes, q: Id, id: Id)
    requires Chained(s) && Serial(s) && MayBegin(s, id) && Earlier(s, q, id)
    ensures Done(s.pushes[q])
  {
    if s.pushes[id].previous.Some? {
      var r := s.pushes[id].previous.value;
      assert Earlier(s, r, id) && q <= r;
      assert q < r ==> Earlier(s, q, r);
    }
  }

  lemma CleanUpKeeps(s: Pushes, id: Id)
    requires PushInv(s) && id in s.pushes && s.pushes[id].stage.Settled?
    ensures PushInv(OnCleanUp(s, id))
  {
    hide CacheOk, SinceOk, MergedOk, Serial, Chained, EntriesOk;
    CleanUpEntries(s, id);
    CleanUpFrame(s, id);
    var s' := OnCleanUp(s, id);
    hide OnCleanUp;
    assert SameMerges(s, s');
    SameMergesKeep(s, s');
    hide SameMerges;
    ChainSurvives(s, s');
    SerialSurvives(s, s');
  }

  lemma CleanUpFrame(s: Pushes, id: Id)
    requires id in s.pushes && s.pushes[id].stage.Settled?
    ensures
      var s' := OnCleanUp(s, id);
      && s'.pushes == s.pushes[id := s.pushes[id].(stage := Cleaned)]
      && s' == s.(pushes := s'.pushes, latest := s'.latest)
      && (forall d :: d in s'.latest ==> d in s.latest && s'.latest[d] == s.latest[d])
  {
  }

  lemma SerialSurvives(s: Pushes, s': Pushes)
    requires Serial(s) && s'.pushes.Keys == s.pushes.Keys
    requires forall p :: p in s.pushes ==>
               && s'.pushes[p].device == s.pushes[p].device
               && (Done(s.pushes[p]) ==> Done(s'.pushes[p]))
               && (s.pushes[p].stage.Waiting? ==> s'.pushes[p].stage.Waiting?)
    ensures Serial(s')
  {
    assert forall q, p :: Earlier(s', q, p) <==> Earlier(s, q, p);
  }

  lemma CleanUpEntries(s: Pushes, id: Id)
    requires Numbered(s) && Serial(s) && EntriesOk(s) && id in s.pushes && s.pushes[id].stage.Settled?
    ensures EntriesOk(OnCleanUp(s, id))
  {
    var device := s.pushes[id].device;
    if device in s.latest && s.latest[device] == id {
      forall p | p in s.pushes && s.pushes[p].device == device ensures p == id || Done(s.pushes[p]) {
        assert p < id ==> Earlier(s, p, id);
      }
      hide Serial, Earlier;
      var s' := s.(pushes := s.pushes[id := s.pushes[id].(stage := Cleaned)], latest := s.latest - {device});
      assert OnCleanUp(s, id) == s';
      hide OnCleanUp;
      assert EntriesOk(s');
    } else {
      hide Serial, Earlier;
    }
  }

  lemma ChainSurvives(s: Pushes, s': Pushes)
    requires Chained(s) && s'.pushes.Keys == s.pushes.Keys
    requires forall p :: p in s.pushes ==>
               && s'.pushes[p].device == s.pushes[p].device && s'.pushes[p].previous == s.pushes[p].previous
               && (Done(s.pushes[p]) ==> Done(s'.pushes[p]))
    ensures Chained(s')
  {
    assert forall q, p :: Earlier(s', q, p) <==> Earlier(s, q, p);
  }

  lemma MappedKeeps(s: Pushes, id: Id)
    requires PushInv(s) && id in s.pushes && s.pushes[id].stage.LookingUp?
    ensures PushInv(OnMapped(s, id))
  {
    MergeExtendsCache(s, id);
    MergeExtendsOrder(s, id);
    MergeExtendsSince(s, id);
    MappedOrder(s, id);
    hide CacheOk, MergedOk, SinceOk, Serial, Chained, EntriesOk, Numbered, OnMapped;
  }

  lemma MappedOrder(s: Pushes, id: Id)
    requires Numbered(s) && Serial(s) && Chained(s) && EntriesOk(s) && id in s.pushes && s.pushes[id].stage.LookingUp?
    ensures Numbered(OnMapped(s, id)) && Serial(OnMapped(s, id)) && Chained(OnMapped(s, id)) && EntriesOk(OnMapped(s, id))
  {
    hide Merge;
    var s' := OnMapped(s, id);
    ChainSurvives(s, s');
    hide Chained;
    assert forall q, p :: Earlier(s', q, p) <==> Earlier(s, q, p);
  }

  lemma SuffixPush(s: Pushes, s': Pushes, reports: seq<DryerState>, m: seq<Id>, id: Id)
    requires SuffixReports(s, reports, m)
    requires forall p :: p in s.pushes ==> p in s'.pushes && s'.pushes[p].report == s.pushes[p].report
    ensures SuffixReports(s', reports, m)
    ensures id in s'.pushes ==> SuffixReports(s', reports + [s'.pushes[id].report], m + [id])
  {
    var longer := m + [id];
    assert forall i :: 0 <= i < |m| ==> longer[i] == m[i];
  }

  lemma MergeExtendsSince(s: Pushes, id: Id)
    requires SinceOk(s) && id in s.pushes
    ensures SinceOk(OnMapped(s, id))
  {
    var s', device := OnMapped(s, id), s.pushes[id].device;
    hide Merge, SuffixReports;
    forall d | d in s'.since ensures SuffixReports(s', s'.since[d], Get(s'.merged, d, [])) {
      var reports, m := Get(s.since, d, []), Get(s.merged, d, []);
      EmptySuffix(s, m);
      SuffixPush(s, s', reports, m, id);
    }
  }

  lemma EmptySuffix(s: Pushes, m: seq<Id>)
    ensures SuffixReports(s, [], m)
  {
  }

  lemma MergeExtendsCache(s: Pushes, id: Id)
    requires CacheOk(s) && id in s.pushes
    ensures CacheOk(OnMapped(s, id))
  {
    MergedState(s, id);
    CacheOkElsewhere(s, id);
    hide OnMapped;
    var s' := OnMapped(s, id);
    forall d | d in s'.states ensures s'.states[d] == Fold(Get(s'.snapshots, d, EMPTY), Get(s'.since, d, [])) {
      hide Fold;
      assert d != s.pushes[id].device ==> d in s.states;
    }
    hide Fold;
  }

  /** Merging extends one device's reports and touches no other device's. */
  lemma CacheOkElsewhere(s: Pushes, id: Id)
    requires id in s.pushes
    ensures
      var s', p := OnMapped(s, id), s.pushes[id];
      && s'.snapshots == s.snapshots
      && p.device in s'.states && p.device in s'.since
      && s'.since[p.device] == Get(s.since, p.device, []) + [p.report]
      && forall d :: d != p.device ==>
           && (d in s'.states <==> d in s.states) && (d in s.states ==> s'.states[d] == s.states[d])
           && (d in s'.since <==> d in s.since) && Get(s'.since, d, []) == Get(s.since, d, [])
  {
    hide Merge;
  }

  lemma MergedState(s: Pushes, id: Id)
    requires CacheOk(s) && id in s.pushes
    ensures
      var d := s.pushes[id].device;
      && d in OnMapped(s, id).states
      && OnMapped(s, id).states[d] == Fold(Get(s.snapshots, d, EMPTY), Get(s.since, d, []) + [s.pushes[id].report])
  {
    var p := s.pushes[id];
    FoldPush(Get(s.snapshots, p.device, EMPTY), Get(s.since, p.device, []), p.report);
    CachedOrEmpty(s, p.device, p.report);
    hide Merge, Fold, Override, CacheOk;
  }

  lemma CachedOrEmpty(s: Pushes, d: Device, report: DryerState)
    requires CacheOk(s)
    ensures Merge(if d in s.states then Some(s.states[d]) else None, AsReport(report))
            == Override(Fold(Get(s.snapshots, d, EMPTY), Get(s.since, d, [])), report)
  {
    assert Fold(EMPTY, []) == EMPTY;
  }

  /** A push that is still looking up is later than every merged one. */
  lemma MergeExtendsOrder(s: Pushes, id: Id)
    requires Serial(s) && MergedOk(s) && id in s.pushes && s.pushes[id].stage.LookingUp?
    ensures MergedOk(OnMapped(s, id))
  {
    MergedAreEarlier(s, id);
    hide Merge, Serial;
    var device, s' := s.pushes[id].device, OnMapped(s, id);
    forall d | d in s'.merged ensures InOrder(s', d, s'.merged[d]) {
      var m := Get(s.merged, d, []);
      assert InOrder(s, d, m);
      forall i | 0 <= i < |s'.merged[d]| ensures MergedPush(s', d, s'.merged[d][i]) {
        assert s'.merged[d][i] == (if i < |m| then m[i] else id);
        assert i < |m| ==> MergedPush(s, d, m[i]);
      }
    }
  }

  lemma MergedAreEarlier(s: Pushes, id: Id)
    requires Serial(s) && MergedOk(s) && id in s.pushes && s.pushes[id].stage.LookingUp?
    ensures
      var m := Get(s.merged, s.pushes[id].device, []);
      forall i :: 0 <= i < |m| ==> m[i] < id
  {
    var device := s.pushes[id].device;
    var m := Get(s.merged, device, []);
    assert InOrder(s, device, m);
    forall i | 0 <= i < |m| ensures m[i] < id {
      assert MergedPush(s, device, m[i]);
      assert id < m[i] ==> Earlier(s, id, m[i]);
    }
  }

  lemma SnapshotKeeps(s: Pushes, device: Device, state: DryerState)
    requires PushInv(s)
    ensures PushInv(StepPushes(s, Snapshot(device, state)))
  {
    var s' := StepPushes(s, Snapshot(device, state));
    OrderIndependent(s, s');
    SnapshotCache(s, device, state);
    SnapshotMerges(s, device, state);
    hide CacheOk, Serial, Chained, EntriesOk, Numbered, MergedOk, SinceOk, StepPushes;
  }

  lemma SnapshotMerges(s: Pushes, device: Device, state: DryerState)
    requires MergedOk(s) && SinceOk(s)
    ensures MergedOk(StepPushes(s, Snapshot(device, state))) && SinceOk(StepPushes(s, Snapshot(device, state)))
  {
    var s' := StepPushes(s, Snapshot(device, state));
    forall d | d in s'.merged ensures InOrder(s', d, s'.merged[d]) {
      assert InOrder(s, d, s.merged[d]);
      assert forall i :: 0 <= i < |s.merged[d]| ==> MergedPush(s, d, s.merged[d][i]);
    }
    forall d | d in s'.since ensures SuffixReports(s', s'.since[d], Get(s'.merged, d, [])) {
      assert d != device ==> SuffixReports(s, s.since[d], Get(s.merged, d, []));
    }
  }

  lemma SnapshotCache(s: Pushes, device: Device, state: DryerState)
    requires CacheOk(s)
    ensures CacheOk(StepPushes(s, Snapshot(device, state)))
  {
    hide Override;
  }

  lemma OrderIndependent(s: Pushes, s': Pushes)
    requires Numbered(s) && Serial(s) && Chained(s) && EntriesOk(s)
    requires s'.pushes == s.pushes && s'.latest == s.latest && s'.next == s.next
    ensures Numbered(s') && Serial(s') && Chained(s') && EntriesOk(s')
  {
    assert forall q, p :: Earlier(s', q, p) <==> Earlier(s, q, p);
  }

  lemma StepKeepsPushInv(s: Pushes, e: PushEvent)
    requires PushInv(s)
    ensures PushInv(StepPushes(s, e))
  {
    hide PushInv;
    match e {
      case Arrive(device, report) => ArriveKeeps(s, device, report);
      case Begin(id) => if MayBegin(s, id) { StageKeeps(s, id, LookingUp); }
      case LookedUp(id, result) =>
        if id in s.pushes && s.pushes[id].stage.LookingUp? {
          if result.Mapped? { MappedKeeps(s, id); } else { StageKeeps(s, id, Settled); }
        }
      case Updated(id) => if id in s.pushes && s.pushes[id].stage.Updating? { StageKeeps(s, id, Settled); }
      case CleanUp(id) => if id in s.pushes && s.pushes[id].stage.Settled? { CleanUpKeeps(s, id); }
      case Snapshot(device, state) => SnapshotKeeps(s, device, state);
    }
  }

  lemma {:induction false} RunKeepsPushInv(s: Pushes, events: seq<PushEvent>)
    requires PushInv(s)
    ensures PushInv(RunPushes(s, events))
    decreases events
  {
    hide PushInv, StepPushes;
    if events != [] {
      StepKeepsPushInv(s, events[0]);
      RunKeepsPushInv(StepPushes(s, events[0]), events[1..]);
    }
  }

  /**
   In every interleaving of pushes to many devices, with failures and snapshots in between: each device's
   cached state is its last snapshot followed by the reports merged since, in arrival order; the merged
   pushes are exactly those whose lookup found a machine; and at most one push per device is under way.
   */
  lemma CacheIsSnapshotThenReports(events: seq<PushEvent>, d: Device)
    ensures
      var s := RunPushes(NO_PUSHES, events);
      var merged := Get(s.merged, d, []);
      && (d in s.states ==> s.states[d] == Fold(Get(s.snapshots, d, EMPTY), Get(s.since, d, [])))
      && SuffixReports(s, Get(s.since, d, []), merged)
      && (forall i, j :: 0 <= i < j < |merged| ==> merged[i] < merged[j])
      && (forall p :: p in s.pushes && s.pushes[p].device == d ==> (p in merged <==> s.pushes[p].mapped))
      && (forall q, p :: Earlier(s, q, p) && !s.pushes[p].stage.Waiting? ==> Done(s.pushes[q]))
  {
    var s0 := NO_PUSHES;
    assert PushInv(s0);
    RunKeepsPushInv(s0, events);
    hide RunPushes, Fold;
    var s := RunPushes(s0, events);
    var merged := Get(s.merged, d, []);
    assert InOrder(s, d, merged);
    assert forall i :: 0 <= i < |merged| ==> MergedPush(s, d, merged[i]);
  }

  /** A device's chain entry is gone once all its pushes are through, and never before they have settled. */
  lemma ChainEntryGoesLast(events: seq<PushEvent>, d: Device)
    ensures
      var s := RunPushes(NO_PUSHES, events);
      && ((forall p :: p in s.pushes && s.pushes[p].device == d ==> s.pushes[p].stage.Cleaned?) ==> d !in s.latest)
      && (d !in s.latest ==> forall p :: p in s.pushes && s.pushes[p].device == d ==> Done(s.pushes[p]))
  {
    var s0 := NO_PUSHES;
    assert PushInv(s0);
    RunKeepsPushInv(s0, events);
    hide RunPushes, CacheOk, MergedOk, SinceOk, Serial, Chained;
  }

  // ----- A whole push, with nothing in between -----

  /**
   A whole push to a device without others under way merges its report into the cached state if its lookup
   found a machine, and otherwise leaves it; either way its chain entry is gone again.
   */
  lemma WholePush(s: Pushes, device: Device, report: DryerState, result: Lookup)
    requires device !in s.latest
    ensures
      var p := s.next;
      var looked := StepPushes(StepPushes(StepPushes(s, Arrive(device, report)), Begin(p)), LookedUp(p, result));
      var settled := if result.Mapped? then StepPushes(looked, Updated(p)) else looked;
      var ended := StepPushes(settled, CleanUp(p));
      var cached := if device in s.states then s.states[device] else DryerState(None, None);
      && ended.latest == s.latest && p in ended.pushes && ended.pushes[p].stage == Cleaned
      && (result.Mapped? ==>
            && ended.states == s.states[device := Override(cached, report)]
            && device in ended.since && ended.since[device] == (if device in s.since then s.since[device] else []) + [report]
            && device in ended.merged && ended.merged[device] == (if device in s.merged then s.merged[device] else []) + [p])
      && (!result.Mapped? ==> ended.states == s.states && ended.since == s.since && ended.merged == s.merged)
      && ended.snapshots == s.snapshots
  {
    BeginsAtOnce(s, device, report);
    var p := s.next;
    var begun := StepPushes(StepPushes(s, Arrive(device, report)), Begin(p));
    LookupOutcome(begun, p, result);
    MergeTakesBase(s.states, device, report);
    hide Merge, Override, OnMapped, OnArrive, MayBegin;
    assert s.latest[device := s.next] - {device} == s.latest;
  }

  lemma BeginsAtOnce(s: Pushes, device: Device, report: DryerState)
    requires device !in s.latest
    ensures
      StepPushes(StepPushes(s, Arrive(device, report)), Begin(s.next))
      == s.(pushes := s.pushes[s.next := Push(device, report, None, LookingUp, false)],
            latest := s.latest[device := s.next], next := s.next + 1)
  {
    assert s.pushes[s.next := Push(device, report, None, Waiting, false)][s.next := Push(device, report, None, LookingUp, false)]
        == s.pushes[s.next := Push(device, report, None, LookingUp, false)];
  }

  lemma LookupOutcome(s: Pushes, p: Id, result: Lookup)
    requires p in s.pushes && s.pushes[p].stage.LookingUp?
    ensures
      var push, s' := s.pushes[p], StepPushes(s, LookedUp(p, result));
      && s'.latest == s.latest && s'.snapshots == s.snapshots && p in s'.pushes && s'.pushes[p].device == push.device
      && s'.pushes == s.pushes[p := s'.pushes[p]] && s'.next == s.next
      && s'.pushes[p].stage == (if result.Mapped? then Updating else Stage.Settled)
      && (!result.Mapped? ==> s'.states == s.states && s'.since == s.since && s'.merged == s.merged)
      && (result.Mapped? ==>
            && s'.states == s.states[push.device := Merge(if push.device in s.states then Some(s.states[push.device]) else None,
                                                          AsReport(push.report))]
            && s'.since == s.since[push.device := (if push.device in s.since then s.since[push.device] else []) + [push.report]]
            && s'.merged == s.merged[push.device := (if push.device in s.merged then s.merged[push.device] else []) + [p]])
  {
    hide Merge;
  }

  lemma MergeTakesBase(states: map<Device, DryerState>, device: Device, report: DryerState)
    ensures Merge(if device in states then Some(states[device]) else None, AsReport(report))
            == Override(if device in states then states[device] else DryerState(None, None), report)
  {
  }

  /** A push behind another one waits until that one has settled. */
  lemma WaitingPush(s: Pushes, device: Device, report: DryerState)
    requires device in s.latest && s.latest[device] in s.pushes && s.latest[device] < s.next
    ensures
      var p, s' := s.next, StepPushes(s, Arrive(device, report));
      && s'.pushes == s.pushes[p := Push(device, report, Some(s.latest[device]), Waiting, false)]
      && s'.latest == s.latest[device := p] && s'.states == s.states
      && (StepPushes(s', Begin(p)) == s' <==> !Done(s.pushes[s.latest[device]]))
  {
  }

  /** A snapshot replaces one device's cached state and starts its reports over. */
  lemma SnapshotOutcome(s: Pushes, device: Device, state: DryerState)
    ensures
      var s' := StepPushes(s, Snapshot(device, state));
      && s'.states == s.states[device := state] && s'.snapshots == s.snapshots[device := state]
      && s'.since == s.since[device := []] && s'.pushes == s.pushes && s'.latest == s.latest && s'.merged == s.merged
  {
  }
}
