/**
 What the connectivity monitor's per-machine state says about the observations it has committed
 (src/machine/machine-connectivity.service.ts:101-121).  `Observe` is the incremental update; the rest of
 the module reads the whole history and shows that the two agree.
 */
module Connectivity {
  import opened Options

  const OFFLINE_GRACE_MS := 60_000

  datatype ConnectionState = ConnectionState(isOnline: Option<bool>, lastSeenAt: Option<int>, unavailableSince: Option<int>)

  const UNOBSERVED := ConnectionState(None, None, None)

  datatype Observation =
    | Available(at: int)
    | Unavailable(at: int)
    | SiteMissing            // the site's query failed: nothing is known

  /** One turn of the loop body for a machine whose transition, if any, is committed. */
  function Observe(state: ConnectionState, o: Observation): ConnectionState {
    match o
    case Available(now) => ConnectionState(Some(true), Some(now), None)
    case Unavailable(now) =>
      var since := if state.unavailableSince.Some? then state.unavailableSince.value else now;
      state.(unavailableSince := Some(since),
             isOnline := if now - since >= OFFLINE_GRACE_MS then Some(false) else state.isOnline)
    case SiteMissing => state
  }

  function Fold(history: seq<Observation>): ConnectionState {
    if history == [] then UNOBSERVED
    else Observe(Fold(history[..|history| - 1]), history[|history| - 1])
  }

  /** Offline alerts: committed changes to offline, whether or not the notification then succeeds. */
  function Alerts(history: seq<Observation>): nat {
    if history == [] then 0
    else
      var front := history[..|history| - 1];
      var turnsOffline := Fold(history).isOnline == Some(false) && Fold(front).isOnline != Some(false);
      Alerts(front) + (if turnsOffline then 1 else 0)
  }

  // ----- Reading a history -----

  predicate Timed(o: Observation) { !o.SiteMissing? }

  /** The clock does not go back between observations. */
  ghost predicate Ordered(history: seq<Observation>) {
    forall i, j :: 0 <= i <= j < |history| && Timed(history[i]) && Timed(history[j]) ==> history[i].at <= history[j].at
  }

  /** `i` and `j` lie in one outage: unavailable at both, never available in between. */
  predicate SameOutage(history: seq<Observation>, i: int, j: int) {
    && 0 <= i <= j < |history|
    && history[i].Unavailable? && history[j].Unavailable?
    && forall k :: i <= k <= j ==> !history[k].Available?
  }

  /** The outage holding `i` has spanned at least the grace period by `j`. */
  predicate LongOutage(history: seq<Observation>, i: int, j: int) {
    SameOutage(history, i, j) && history[j].at - history[i].at >= OFFLINE_GRACE_MS
  }

  /** The current outage has no later end. */
  predicate Ongoing(history: seq<Observation>, i: int) {
    0 <= i < |history| && forall k :: i <= k < |history| ==> !history[k].Available?
  }

  /** The run of unavailable observations since the last available one spans at least the grace period. */
  ghost predicate OfflineNow(history: seq<Observation>) {
    exists i, j :: LongOutage(history, i, j) && Ongoing(history, i)
  }

  predicate EverAvailable(history: seq<Observation>) {
    exists i :: 0 <= i < |history| && history[i].Available?
  }

  predicate LastAvailable(history: seq<Observation>, i: int) {
    && 0 <= i < |history| && history[i].Available?
    && forall k :: i < k < |history| ==> !history[k].Available?
  }

  /** `i` begins an outage: the nearest earlier observation that says anything is not unavailable. */
  predicate BeginsOutage(history: seq<Observation>, i: int) {
    && 0 <= i < |history| && history[i].Unavailable?
    && forall k :: 0 <= k < i ==> !SameOutage(history, k, i)
  }

  /** Where the outages that span at least the grace period begin. */
  ghost function LongOutages(history: seq<Observation>): set<int> {
    set i | 0 <= i < |history| && BeginsOutage(history, i) && exists j :: LongOutage(history, i, j)
  }

  // ----- The state refines the history -----

  /** The first observation of the ongoing outage. */
  function OutageStart(history: seq<Observation>): Option<int> {
    if history == [] then None
    else
      var front, last := history[..|history| - 1], history[|history| - 1];
      match last
      case Available(_) => None
      case SiteMissing => OutageStart(front)
      case Unavailable(_) => if OutageStart(front).Some? then OutageStart(front) else Some(|history| - 1)
  }

  lemma {:induction false} OutageStartMeaning(history: seq<Observation>)
    ensures
      match OutageStart(history)
      case Some(i) => BeginsOutage(history, i) && Ongoing(history, i)
      case None => forall k :: Ongoing(history, k) ==> !history[k].Unavailable?
  {
    if history != [] {
      var front, last := history[..|history| - 1], history[|history| - 1];
      OutageStartMeaning(front);
      assert forall k :: 0 <= k < |front| ==> history[k] == front[k];
      forall k | 0 <= k < |front| ensures Ongoing(history, k) <==> Ongoing(front, k) && !last.Available? {
      }
      forall k, i | 0 <= k <= i < |front| ensures SameOutage(history, k, i) <==> SameOutage(front, k, i) {
      }
      assert forall k :: 0 <= k < |front| && SameOutage(history, k, |front|) ==> Ongoing(front, k) && front[k].Unavailable?;
    }
  }

  /** What the incremental state remembers about an ordered history. */
  ghost predicate Remembers(history: seq<Observation>, state: ConnectionState) {
    && (state.unavailableSince.Some? <==> OutageStart(history).Some?)
    && (state.unavailableSince.Some? ==>
          && 0 <= OutageStart(history).value < |history|
          && history[OutageStart(history).value].Unavailable?
          && state.unavailableSince.value == history[OutageStart(history).value].at)
  }

  lemma {:induction false} FoldRemembers(history: seq<Observation>)
    ensures Remembers(history, Fold(history))
  {
    if history != [] {
      FoldRemembers(history[..|history| - 1]);
    }
  }

  /** The ongoing outage is long exactly when its first and latest unavailable observations are far apart. */
  lemma OfflineBySpan(history: seq<Observation>, i: int)
    requires Ordered(history) && OutageStart(history) == Some(i)
    ensures 0 <= i < |history|
    ensures OfflineNow(history) <==> exists j :: LongOutage(history, i, j)
  {
    OutageStartMeaning(history);
    if OfflineNow(history) {
      var k, j :| LongOutage(history, k, j) && Ongoing(history, k);
      assert k < i ==> SameOutage(history, k, i);
      assert LongOutage(history, i, j);
    }
    if j :| LongOutage(history, i, j) {
      assert Ongoing(history, i);
    }
  }

  /** An unavailable observation is offline exactly when it comes the grace period after the outage began. */
  lemma UnavailableSpan(history: seq<Observation>)
    requires history != [] && history[|history| - 1].Unavailable? && Ordered(history)
    ensures OutageStart(history).Some? && 0 <= OutageStart(history).value < |history|
    ensures
      var i := OutageStart(history).value;
      && history[i].Unavailable?
      && (OfflineNow(history) <==> history[|history| - 1].at - history[i].at >= OFFLINE_GRACE_MS)
  {
    OutageStartMeaning(history);
    var i, last := OutageStart(history).value, |history| - 1;
    OfflineBySpan(history, i);
    assert SameOutage(history, i, last);
    if OfflineNow(history) {
      var j :| LongOutage(history, i, j);
      assert history[j].at <= history[last].at;
    }
    if history[last].at - history[i].at >= OFFLINE_GRACE_MS {
      assert LongOutage(history, i, last);
    }
  }

  lemma SilentSiteChangesNothing(history: seq<Observation>)
    requires history != [] && history[|history| - 1].SiteMissing?
    ensures OfflineNow(history) <==> OfflineNow(history[..|history| - 1])
    ensures EverAvailable(history) <==> EverAvailable(history[..|history| - 1])
    ensures forall i :: LastAvailable(history, i) <==> LastAvailable(history[..|history| - 1], i)
  {
    var front := history[..|history| - 1];
    forall i, j ensures (LongOutage(history, i, j) && Ongoing(history, i)) <==> (LongOutage(front, i, j) && Ongoing(front, i)) {
    }
    if i :| 0 <= i < |history| && history[i].Available? {
      assert front[i].Available?;
    }
    if i :| 0 <= i < |front| && front[i].Available? {
      assert history[i].Available?;
    }
  }

  lemma LaterIsOrdered(history: seq<Observation>)
    requires history != [] && Ordered(history)
    ensures Ordered(history[..|history| - 1])
  {
  }

  /** Once offline, an outage that goes on stays offline. */
  lemma OutageGoesOn(history: seq<Observation>)
    requires history != [] && history[|history| - 1].Unavailable? && Ordered(history)
    requires OfflineNow(history[..|history| - 1])
    ensures OfflineNow(history)
  {
    var front := history[..|history| - 1];
    var i, j :| LongOutage(front, i, j) && Ongoing(front, i);
    assert LongOutage(history, i, j) && Ongoing(history, i);
  }

  /**
   After any sequence of committed observations on a clock that does not go back: a machine is offline
   exactly when the run of unavailable observations since the last available one spans at least 60 s,
   otherwise online if it was ever seen, otherwise undecided; it was last seen at the last available
   observation.  Failed site queries count for nothing.
   */
  lemma {:induction false} StateRefinesHistory(history: seq<Observation>)
    requires Ordered(history)
    ensures Fold(history).isOnline == Some(false) <==> OfflineNow(history)
    ensures Fold(history).isOnline == Some(true) <==> EverAvailable(history) && !OfflineNow(history)
    ensures Fold(history).lastSeenAt.Some? <==> EverAvailable(history)
    ensures forall i :: LastAvailable(history, i) ==> Fold(history).lastSeenAt == Some(history[i].at)
  {
    if history != [] {
      var front, last := history[..|history| - 1], history[|history| - 1];
      LaterIsOrdered(history);
      StateRefinesHistory(front);
      FoldRemembers(history);
      hide Ordered;
      match last {
        case SiteMissing => SilentSiteChangesNothing(history);
        case Available(now) =>
          assert !OfflineNow(history) by {
            assert forall i :: !Ongoing(history, i);
          }
          assert EverAvailable(history);
        case Unavailable(now) =>
          UnavailableSpan(history);
          if OfflineNow(front) { OutageGoesOn(history); }
          SeenBefore(history);
      }
    }
  }

  lemma SeenBefore(history: seq<Observation>)
    requires history != [] && history[|history| - 1].Unavailable?
    ensures EverAvailable(history) <==> EverAvailable(history[..|history| - 1])
    ensures forall i :: LastAvailable(history, i) ==> LastAvailable(history[..|history| - 1], i)
  {
    var front := history[..|history| - 1];
    if i :| 0 <= i < |history| && history[i].Available? {
      assert front[i].Available?;
    }
    if i :| 0 <= i < |front| && front[i].Available? {
      assert history[i].Available?;
    }
  }

  /** A machine that was ever available was so at a last time, and at no other. */
  lemma {:induction false} LastAvailableExists(history: seq<Observation>)
    ensures EverAvailable(history) <==> exists i :: LastAvailable(history, i)
    ensures forall i, j :: LastAvailable(history, i) && LastAvailable(history, j) ==> i == j
  {
    if history != [] {
      var front, last := history[..|history| - 1], |history| - 1;
      LastAvailableExists(front);
      if history[last].Available? {
        assert LastAvailable(history, last);
      } else {
        assert forall i :: LastAvailable(front, i) ==> LastAvailable(history, i);
        SeenBeforeOrSilent(history);
      }
    }
  }

  lemma SeenBeforeOrSilent(history: seq<Observation>)
    requires history != [] && !history[|history| - 1].Available?
    ensures EverAvailable(history) <==> EverAvailable(history[..|history| - 1])
    ensures forall i :: LastAvailable(history, i) ==> LastAvailable(history[..|history| - 1], i)
  {
    if history[|history| - 1].SiteMissing? { SilentSiteChangesNothing(history); } else { SeenBefore(history); }
  }

  // ----- Alerts -----

  lemma OldOutages(history: seq<Observation>, k: int)
    requires history != [] && 0 <= k < |history| - 1
    ensures BeginsOutage(history, k) <==> BeginsOutage(history[..|history| - 1], k)
    ensures forall j :: j < |history| - 1 ==> (LongOutage(history, k, j) <==> LongOutage(history[..|history| - 1], k, j))
  {
    var front := history[..|history| - 1];
    forall i, j | j < |front| ensures SameOutage(history, i, j) <==> SameOutage(front, i, j) {
    }
  }

  /** Only the ongoing outage can have become long with the last observation. */
  lemma NewestOutage(history: seq<Observation>, k: int)
    requires history != [] && Ordered(history)
    requires LongOutage(history, k, |history| - 1) && BeginsOutage(history, k)
    ensures OutageStart(history) == Some(k) && OfflineNow(history)
  {
    OutageStartMeaning(history);
    assert Ongoing(history, k);
    if OutageStart(history).Some? {
      var i := OutageStart(history).value;
      assert i < k ==> SameOutage(history, i, k);
      assert k < i ==> SameOutage(history, k, i);
    }
  }

  lemma LongOutagesStep(history: seq<Observation>)
    requires history != [] && Ordered(history)
    ensures
      var front, last := history[..|history| - 1], history[|history| - 1];
      LongOutages(history) ==
        if last.Unavailable? && OfflineNow(history) && OutageStart(history).Some?
        then LongOutages(front) + {OutageStart(history).value}
        else LongOutages(front)
  {
    var front, last := history[..|history| - 1], |history| - 1;
    OutageStartMeaning(history);
    var ongoing := history[last].Unavailable? && OfflineNow(history);
    forall k | k in LongOutages(history)
      ensures k in LongOutages(front) || (ongoing && OutageStart(history) == Some(k))
    {
      var j :| LongOutage(history, k, j);
      if j == last {
        NewestOutage(history, k);
      } else {
        OldOutages(history, k);
      }
    }
    forall k | k in LongOutages(front) ensures k in LongOutages(history) {
      OldOutages(history, k);
      var j :| LongOutage(front, k, j);
      assert LongOutage(history, k, j);
    }
    if ongoing && OutageStart(history).Some? {
      OfflineBySpan(history, OutageStart(history).value);
    }
  }

  /** Before the last observation the ongoing outage was already long exactly if the machine was offline. */
  lemma AlreadyLong(history: seq<Observation>)
    requires history != [] && Ordered(history) && history[|history| - 1].Unavailable?
    ensures OutageStart(history).Some?
    ensures OutageStart(history).value in LongOutages(history[..|history| - 1]) <==> OfflineNow(history[..|history| - 1])
  {
    var front, i := history[..|history| - 1], OutageStart(history).value;
    LaterIsOrdered(history);
    OutageStartMeaning(history);
    OutageStartMeaning(front);
    if OutageStart(front) == Some(i) {
      OfflineBySpan(front, i);
    } else {
      assert forall k :: Ongoing(front, k) ==> !front[k].Unavailable?;
      assert i == |front|;
    }
  }

  /**
   The number of offline alerts equals the number of outages that span at least 60 s; in particular two
   alerts always have an online observation between them.
   */
  lemma {:induction false} AlertsCountLongOutages(history: seq<Observation>)
    requires Ordered(history)
    ensures Alerts(history) == |LongOutages(history)|
  {
    if history == [] {
      assert LongOutages(history) == {};
    } else {
      LaterIsOrdered(history);
      AlertsCountLongOutages(history[..|history| - 1]);
      AlertStep(history);
    }
  }

  lemma AlertStep(history: seq<Observation>)
    requires history != [] && Ordered(history)
    ensures Alerts(history) - Alerts(history[..|history| - 1])
            == |LongOutages(history)| - |LongOutages(history[..|history| - 1])|
  {
    var front, last := history[..|history| - 1], history[|history| - 1];
    LaterIsOrdered(history);
    StateRefinesHistory(history);
    StateRefinesHistory(front);
    LongOutagesStep(history);
    hide Ordered, LongOutages, OfflineNow, Fold, EverAvailable, LastAvailable;
    match last {
      case SiteMissing => SilentSiteChangesNothing(history);
      case Available(_) => AvailableIsNotOffline(history);
      case Unavailable(_) =>
        AlreadyLong(history);
        if OfflineNow(front) { OutageGoesOn(history); }
    }
  }

  lemma AvailableIsNotOffline(history: seq<Observation>)
    requires history != [] && history[|history| - 1].Available?
    ensures !OfflineNow(history)
  {
    assert forall i :: !Ongoing(history, i);
  }

  /** The observation that ends `history` raised an alert. */
  predicate RaisesAlert(history: seq<Observation>) {
    history != [] && Fold(history).isOnline == Some(false) && Fold(history[..|history| - 1]).isOnline != Some(false)
  }

  /** Between two alerts the machine was seen online. */
  lemma {:induction false} AlertsAreSeparated(history: seq<Observation>, i: int)
    requires 0 < i < |history| && Fold(history[..i]).isOnline == Some(false) && RaisesAlert(history)
    ensures exists k :: i <= k < |history| - 1 && history[k].Available?
  {
    var front := history[..|history| - 1];
    assert front[..i] == history[..i];
    OfflineUntilSeen(front, i);
    var k :| i <= k < |front| && front[k].Available?;
    assert history[k].Available?;
  }

  lemma {:induction false} OfflineUntilSeen(history: seq<Observation>, i: int)
    requires 0 <= i <= |history| && Fold(history[..i]).isOnline == Some(false)
    ensures Fold(history).isOnline == Some(false) || exists k :: i <= k < |history| && history[k].Available?
  {
    if i == |history| {
      assert history[..i] == history;
    } else {
      var front := history[..|history| - 1];
      assert front[..i] == history[..i];
      OfflineUntilSeen(front, i);
      if k :| i <= k < |front| && front[k].Available? {
        assert history[k].Available?;
      } else {
        assert history[|history| - 1].Available? ==> i <= |history| - 1 < |history|;
      }
    }
  }
}
