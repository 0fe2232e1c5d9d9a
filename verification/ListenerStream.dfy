/**
 One power listener's stream: updates are grouped by MAC address, each group runs through its own
 `boundedConcatMap`, and `drained` resolves when the merged stream completes
 (libs/matter-client/src/matter-connection.service.ts:228-278).  The projection catches every error
 of the callback, so it always resolves.
 */
module ListenerStream {
  import opened BoundedQueue

  type Mac = string

  const POWER_UPDATE_QUEUE_LIMIT := 16

  datatype Stream = Stream(groups: map<Mac, Queue<int>>, completed: bool, drained: nat)

  datatype StreamEvent =
    | Update(mac: Mac, power: int)   // `updates$.next`
    | Projected(mac: Mac)            // the callback of one update has settled
    | Remove                         // `removePowerListener` completes the subject

  const NO_UPDATES := Stream(map[], false, 0)

  predicate AllCompleted(groups: map<Mac, Queue<int>>) {
    forall m :: m in groups ==> groups[m].completions > 0
  }

  /** `mergeMap` completes once the outer stream and every inner stream have. */
  function SignalIfComplete(s: Stream): Stream {
    if s.completed && AllCompleted(s.groups) then s.(drained := s.drained + 1) else s
  }

  function GroupOf(s: Stream, mac: Mac): Queue<int> {
    if mac in s.groups then s.groups[mac] else Init()
  }

  function StepStream(s: Stream, e: StreamEvent): Stream {
    match e
    case Update(mac, power) =>
      if s.completed then s
      else s.(groups := s.groups[mac := Step(GroupOf(s, mac), Arrive(power), POWER_UPDATE_QUEUE_LIMIT)])
    case Projected(mac) =>
      if mac !in s.groups then s
      else
        var group := Step(s.groups[mac], Resolve, POWER_UPDATE_QUEUE_LIMIT);
        var s' := s.(groups := s.groups[mac := group]);
        if group.completions > s.groups[mac].completions then SignalIfComplete(s') else s'
    case Remove =>
      if s.completed then s
      else SignalIfComplete(
             Stream(map m | m in s.groups :: Step(s.groups[m], SourceComplete, POWER_UPDATE_QUEUE_LIMIT),
                    true, s.drained))
  }

  function RunStream(events: seq<StreamEvent>): Stream {
    if events == [] then NO_UPDATES
    else StepStream(RunStream(events[..|events| - 1]), events[|events| - 1])
  }

  /** The event as `mac`'s operator sees it, if it does. */
  function Seen(e: StreamEvent, mac: Mac): seq<Event<int>> {
    match e
    case Update(m, power) => if m == mac then [Arrive(power)] else []
    case Projected(m) => if m == mac then [Resolve] else []
    case Remove => [SourceComplete]
  }

  /** The events that concern one MAC address, as its own operator sees them. */
  function Narrow(events: seq<StreamEvent>, mac: Mac): seq<Event<int>> {
    if events == [] then []
    else Narrow(events[..|events| - 1], mac) + Seen(events[|events| - 1], mac)
  }

  /** A MAC without a group looks like an operator that was offered nothing. */
  function Ungrouped(completed: bool): Queue<int> {
    if completed then Step(Init(), SourceComplete, POWER_UPDATE_QUEUE_LIMIT) else Init()
  }

  lemma RunPush(events: seq<Event<int>>, e: Event<int>)
    ensures Run(events + [e], POWER_UPDATE_QUEUE_LIMIT)
            == Step(Run(events, POWER_UPDATE_QUEUE_LIMIT), e, POWER_UPDATE_QUEUE_LIMIT)
  {
    assert (events + [e])[..|events|] == events;
  }

  /** A callback never rejects and the listener never unsubscribes early. */
  ghost predicate Healthy(q: Queue<int>, completed: bool) {
    q.sourceClosed == completed && q.sourceCompleted == completed && q.errors == 0 && q.rejected == 0 && !q.tornDown
  }

  ghost predicate Mirrors(s: Stream, mac: Mac, alone: Queue<int>) {
    && (mac in s.groups ==> s.groups[mac] == alone)
    && (mac !in s.groups ==> alone == Ungrouped(s.completed))
    && Healthy(alone, s.completed)
  }

  function StepAll(q: Queue<int>, seen: seq<Event<int>>): Queue<int> {
    if seen == [] then q else Step(q, seen[0], POWER_UPDATE_QUEUE_LIMIT)
  }

  lemma StepMirrors(s: Stream, e: StreamEvent, mac: Mac, alone: Queue<int>)
    requires Mirrors(s, mac, alone)
    ensures Mirrors(StepStream(s, e), mac, StepAll(alone, Seen(e, mac)))
  {
    var s' := StepStream(s, e);
    if e.Remove? && !s.completed {
      assert mac in s'.groups <==> mac in s.groups;
    }
  }

  lemma {:induction false} RunMirrors(events: seq<StreamEvent>, mac: Mac)
    ensures Mirrors(RunStream(events), mac, Run(Narrow(events, mac), POWER_UPDATE_QUEUE_LIMIT))
  {
    if events == [] {
    } else {
      var front, e := events[..|events| - 1], events[|events| - 1];
      RunMirrors(front, mac);
      hide Run, Step, Mirrors, Narrow, Seen, StepAll, StepStream;
      StepMirrors(RunStream(front), e, mac, Run(Narrow(front, mac), POWER_UPDATE_QUEUE_LIMIT));
      NarrowPush(events, mac);
    }
  }

  lemma NarrowPush(events: seq<StreamEvent>, mac: Mac)
    requires events != []
    ensures Run(Narrow(events, mac), POWER_UPDATE_QUEUE_LIMIT)
            == StepAll(Run(Narrow(events[..|events| - 1], mac), POWER_UPDATE_QUEUE_LIMIT), Seen(events[|events| - 1], mac))
  {
    hide Run, Step;
    var front, seen := Narrow(events[..|events| - 1], mac), Seen(events[|events| - 1], mac);
    if seen == [] {
      assert front + seen == front;
    } else {
      assert seen == [seen[0]];
      RunPush(front, seen[0]);
    }
  }

  /**
   No MAC's backlog delays, drops or reorders another's: a group is always in the state that its own
   events alone would have produced.
   */
  lemma GroupsAreIndependent(events: seq<StreamEvent>, others: seq<StreamEvent>, mac: Mac)
    requires Narrow(events, mac) == Narrow(others, mac)
    ensures GroupOf(RunStream(events), mac).offers == GroupOf(RunStream(others), mac).offers
    ensures GroupOf(RunStream(events), mac).started == GroupOf(RunStream(others), mac).started
    ensures mac in RunStream(events).groups ==>
              RunStream(events).groups[mac] == Run(Narrow(events, mac), POWER_UPDATE_QUEUE_LIMIT)
  {
    hide Run, Narrow, RunStream;
    RunMirrors(events, mac);
    RunMirrors(others, mac);
  }

  ghost predicate Drained(s: Stream) {
    s.completed && forall m :: m in s.groups ==> s.groups[m].resolved == |Judged(s.groups[m].offers, Accepted)|
  }

  ghost predicate StreamInv(s: Stream) {
    && s.drained == (if s.completed && AllCompleted(s.groups) then 1 else 0)
    && forall m :: m in s.groups ==> GroupOk(s.groups[m], s.completed)
  }

  ghost predicate GroupOk(q: Queue<int>, completed: bool) {
    Inv(q, POWER_UPDATE_QUEUE_LIMIT) && Healthy(q, completed)
  }

  lemma InitIsOk()
    ensures GroupOk(Init(), false)
  {
  }

  lemma StepKeepsGroupOk(q: Queue<int>, e: Event<int>, completed: bool)
    requires GroupOk(q, completed) && (e.Arrive? || e.Resolve? || e.SourceComplete?)
    ensures GroupOk(Step(q, e, POWER_UPDATE_QUEUE_LIMIT), completed || e.SourceComplete?)
  {
    StepKeepsInv(q, e, POWER_UPDATE_QUEUE_LIMIT);
  }

  lemma StepKeepsStreamInv(s: Stream, e: StreamEvent)
    requires StreamInv(s)
    ensures StreamInv(StepStream(s, e))
  {
    hide GroupOk, Step, Inv;
    DrainedOnce(s, e);
    var s' := StepStream(s, e);
    match e {
      case Update(mac, power) =>
        InitIsOk();
        if !s.completed { StepKeepsGroupOk(GroupOf(s, mac), Arrive(power), false); }
      case Projected(mac) =>
        if mac in s.groups { StepKeepsGroupOk(s.groups[mac], Resolve, s.completed); }
      case Remove =>
        if !s.completed {
          forall m | m in s.groups ensures GroupOk(s'.groups[m], true) {
            StepKeepsGroupOk(s.groups[m], SourceComplete, false);
          }
        }
    }
  }

  lemma DrainedOnce(s: Stream, e: StreamEvent)
    requires StreamInv(s)
    ensures
      var s' := StepStream(s, e);
      s'.drained == (if s'.completed && AllCompleted(s'.groups) then 1 else 0)
  {
    hide Inv, Step;
    if e.Projected? && e.mac in s.groups {
      var mac := e.mac;
      var q := s.groups[mac];
      CompletionsRise(q);
      var groups := s.groups[mac := Step(q, Resolve, POWER_UPDATE_QUEUE_LIMIT)];
      assert forall m :: m in s.groups && m != mac ==> groups[m] == s.groups[m];
      if groups[mac].completions == q.completions {
        assert AllCompleted(groups) == AllCompleted(s.groups);
      } else {
        assert !AllCompleted(s.groups);
      }
    } else if e.Update? && !s.completed {
    }
  }

  lemma CompletionsRise(q: Queue<int>)
    requires Inv(q, POWER_UPDATE_QUEUE_LIMIT)
    ensures
      var q' := Step(q, Resolve, POWER_UPDATE_QUEUE_LIMIT);
      q'.completions == q.completions || (q.completions == 0 && q'.completions == 1)
  {
  }

  lemma {:induction false} RunKeepsStreamInv(events: seq<StreamEvent>)
    ensures StreamInv(RunStream(events))
  {
    if events != [] {
      RunKeepsStreamInv(events[..|events| - 1]);
      StepKeepsStreamInv(RunStream(events[..|events| - 1]), events[|events| - 1]);
    }
  }

  /**
   Over every run `drained` resolves at most once, and it has resolved exactly when the listener has
   been removed and every accepted update of every MAC has been projected.
   */
  lemma DrainsExactly(events: seq<StreamEvent>)
    ensures RunStream(events).drained <= 1
    ensures RunStream(events).drained == 1 <==> Drained(RunStream(events))
  {
    RunKeepsStreamInv(events);
    var s := RunStream(events);
    if Drained(s) {
      assert AllCompleted(s.groups);
    }
    if s.drained == 1 {
      forall m | m in s.groups
        ensures s.groups[m].resolved == |Judged(s.groups[m].offers, Accepted)|
      {
        assert s.groups[m].completions > 0;
      }
    }
  }

  /** At most 16 updates of a MAC wait, and a live stream drops its next one exactly when 16 do. */
  lemma SixteenMayWait(events: seq<StreamEvent>, mac: Mac, power: int)
    requires !RunStream(events).completed
    ensures
      var q := GroupOf(RunStream(events), mac);
      var q' := GroupOf(StepStream(RunStream(events), Update(mac, power)), mac);
      && |q.queue| <= 16
      && q'.offers == q.offers + [Offer(power, if |q.queue| == 16 then Overflowed else Accepted)]
  {
    RunKeepsStreamInv(events);
    InitIsOk();
    var q := GroupOf(RunStream(events), mac);
    assert GroupOk(q, false);
    OffersGrow(q, power, 16);
    hide OnNext, RunStream;
  }

  // ----- The stream object -----

  /** `updates$`, its groups and the resolution of `drained`, updated in place. */
  class PowerListenerStream {
    var groups: map<Mac, Queue<int>>
    var completed: bool
    var drained: nat

    ghost function View(): Stream
      reads this
    {
      Stream(groups, completed, drained)
    }

    /** The groups keep their queues' invariant and the drain signal has been sent when it should. */
    ghost predicate Valid()
      reads this
    {
      StreamInv(View())
    }

    constructor ()
      ensures Valid() && View() == NO_UPDATES
    {
      groups, completed, drained := map[], false, 0;
    }

    method Enqueue(mac: Mac, power: int)
      requires Valid()
      modifies this
      ensures Valid() && View() == StepStream(old(View()), Update(mac, power))
    {
      StepKeepsStreamInv(View(), Update(mac, power));
      if completed { return; }
      var group := GroupOf(Stream(groups, completed, drained), mac);
      groups := groups[mac := Step(group, Arrive(power), POWER_UPDATE_QUEUE_LIMIT)];
    }

    method CallbackSettled(mac: Mac)
      requires Valid() && mac in groups
      modifies this
      ensures Valid() && View() == StepStream(old(View()), Projected(mac))
    {
      StepKeepsStreamInv(View(), Projected(mac));
      var before := groups[mac].completions;
      groups := groups[mac := Step(groups[mac], Resolve, POWER_UPDATE_QUEUE_LIMIT)];
      if groups[mac].completions > before && completed && AllCompleted(groups) {
        drained := drained + 1;
      }
    }

    method RemoveListener()
      requires Valid()
      modifies this
      ensures Valid() && View() == StepStream(old(View()), Remove)
    {
      StepKeepsStreamInv(View(), Remove);
      if completed { return; }
      groups := map m | m in groups :: Step(groups[m], SourceComplete, POWER_UPDATE_QUEUE_LIMIT);
      completed := true;
      if AllCompleted(groups) { drained := drained + 1; }
    }
  }
}
