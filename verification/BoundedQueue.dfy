/**
 `boundedConcatMap`: bounded, serial delivery of one source to an asynchronous projection
 (libs/matter-client/src/matter-connection.service.ts:36-100).

 `Queue` holds the operator's four closure variables and, next to them, what an observer of the
 operator can see: what the source offered, what was handed to `project`, how those calls ended and
 which terminal signals reached the subscriber.  `Step` runs the operator from one event up to its
 next `await`.  An event that cannot happen (a resolution with nothing outstanding, a value from a
 finished source) is a no-op, so every list of events is an interleaving to consider.
 */
module BoundedQueue {

  datatype Verdict = Accepted | Overflowed | Ignored

  datatype Offer<+T> = Offer(value: T, verdict: Verdict)

  datatype Event<+T> =
    | Arrive(value: T)
    | Resolve
    | Reject
    | SourceComplete
    | SourceError
    | Unsubscribe

  datatype Queue<+T> = Queue(
    queue: seq<T>,
    inFlight: bool,
    sourceCompleted: bool,
    stopped: bool,
    sourceClosed: bool,      // the source delivers nothing more
    offers: seq<Offer<T>>,   // every value the source delivered, in order
    started: seq<T>,         // every value handed to `project`, in order
    resolved: nat,
    rejected: nat,
    completions: nat,        // `complete` signals seen by the subscriber
    errors: nat,             // `error` signals seen by the subscriber
    tornDown: bool)          // the subscriber left

  function Init<T>(): Queue<T> {
    Queue([], false, false, false, false, [], [], 0, 0, 0, 0, false)
  }

  // ----- The operator, one stretch between awaits at a time -----

  function FinishIfIdle<T>(q: Queue<T>): Queue<T> {
    if !q.stopped && q.sourceCompleted && !q.inFlight && q.queue == [] then
      q.(stopped := true, completions := q.completions + 1)
    else q
  }

  /** The head of the `while` loop in `pump`, up to the next `await project(value)`. */
  function PumpLoop<T>(q: Queue<T>): Queue<T> {
    if q.queue != [] && !q.stopped then
      q.(queue := q.queue[1..], started := q.started + [q.queue[0]])
    else FinishIfIdle(q.(inFlight := false))
  }

  function Pump<T>(q: Queue<T>): Queue<T> {
    if q.inFlight then q else PumpLoop(q.(inFlight := true))
  }

  function Classify<T>(q: Queue<T>, maxQueued: nat): Verdict {
    if q.stopped then Ignored else if |q.queue| >= maxQueued then Overflowed else Accepted
  }

  function OnNext<T>(q: Queue<T>, value: T, maxQueued: nat): Queue<T> {
    var verdict := Classify(q, maxQueued);
    var offered := q.(offers := q.offers + [Offer(value, verdict)]);
    if verdict.Accepted? then Pump(offered.(queue := q.queue + [value])) else offered
  }

  /** `subscriber.error`: the signal is lost once stopped; the teardown empties the queue. */
  function Fail<T>(q: Queue<T>): Queue<T> {
    q.(stopped := true, queue := [], sourceClosed := true,
       errors := if q.stopped then q.errors else q.errors + 1)
  }

  predicate Outstanding<T>(q: Queue<T>) {
    |q.started| > q.resolved + q.rejected
  }

  function Step<T>(q: Queue<T>, e: Event<T>, maxQueued: nat): Queue<T> {
    match e
    case Arrive(value) => if q.sourceClosed then q else OnNext(q, value, maxQueued)
    case Resolve => if Outstanding(q) then PumpLoop(q.(resolved := q.resolved + 1)) else q
    case Reject => if Outstanding(q) then Fail(q.(rejected := q.rejected + 1)) else q
    case SourceComplete =>
      if q.sourceClosed then q else FinishIfIdle(q.(sourceClosed := true, sourceCompleted := true))
    case SourceError => if q.sourceClosed then q else Fail(q)
    case Unsubscribe => q.(stopped := true, queue := [], sourceClosed := true, tornDown := true)
  }

  function Run<T>(events: seq<Event<T>>, maxQueued: nat): Queue<T> {
    if events == [] then Init()
    else Step(Run(events[..|events| - 1], maxQueued), events[|events| - 1], maxQueued)
  }

  // ----- What the history says -----

  /** The offered values that got the given verdict, in order. */
  function Judged<T>(offers: seq<Offer<T>>, verdict: Verdict): (r: seq<T>)
    ensures |r| <= |offers|
  {
    if offers == [] then []
    else
      var last := offers[|offers| - 1];
      Judged(offers[..|offers| - 1], verdict) + (if last.verdict == verdict then [last.value] else [])
  }

  function AcceptedValues<T>(q: Queue<T>): seq<T> { Judged(q.offers, Accepted) }

  function Offered<T>(offers: seq<Offer<T>>): (r: seq<T>)
    ensures |r| == |offers|
    ensures forall i :: 0 <= i < |r| ==> r[i] == offers[i].value
  {
    if offers == [] then [] else Offered(offers[..|offers| - 1]) + [offers[|offers| - 1].value]
  }

  ghost predicate IsSubsequence<T>(xs: seq<T>, ys: seq<T>) {
    || xs == []
    || (ys != [] && xs[|xs| - 1] == ys[|ys| - 1] && IsSubsequence(xs[..|xs| - 1], ys[..|ys| - 1]))
    || (ys != [] && IsSubsequence(xs, ys[..|ys| - 1]))
  }

  /** Accepted and dropped values partition what was offered, each in its original order. */
  lemma {:induction false} OffersArePartitioned<T>(offers: seq<Offer<T>>)
    ensures multiset(Offered(offers)) ==
            multiset(Judged(offers, Accepted)) + multiset(Judged(offers, Overflowed)) + multiset(Judged(offers, Ignored))
    ensures forall v :: IsSubsequence(Judged(offers, v), Offered(offers))
  {
    if offers != [] {
      var front, last := offers[..|offers| - 1], offers[|offers| - 1];
      OffersArePartitioned(front);
      assert Offered(offers)[..|offers| - 1] == Offered(front);
      forall v ensures IsSubsequence(Judged(offers, v), Offered(offers)) {
        assert IsSubsequence(Judged(front, v), Offered(front));
        if last.verdict == v {
          assert Judged(offers, v)[..|Judged(offers, v)| - 1] == Judged(front, v);
        } else {
          assert Judged(offers, v) == Judged(front, v);
        }
      }
    }
  }

  // ----- Invariant -----

  ghost predicate Delivered<T>(q: Queue<T>) {
    && q.started <= AcceptedValues(q)
    && (!q.stopped ==> AcceptedValues(q) == q.started + q.queue)
    && (q.stopped ==> q.queue == [])
    && (q.completions > 0 ==> AcceptedValues(q) == q.started)
  }

  ghost predicate Serial<T>(q: Queue<T>) {
    && |q.started| == q.resolved + q.rejected + (if q.inFlight && q.rejected == 0 then 1 else 0)
    && q.rejected <= 1
    && (q.rejected == 1 ==> q.stopped && q.inFlight)
    && (!q.inFlight && !q.stopped ==> q.queue == [])
  }

  ghost predicate Signals<T>(q: Queue<T>) {
    && q.completions + q.errors <= 1
    && (!q.stopped ==> q.completions == 0 && q.errors == 0 && !q.tornDown && q.sourceCompleted == q.sourceClosed)
    && (q.completions == 1 ==> q.stopped && q.sourceCompleted && !q.inFlight && q.rejected == 0)
    && (q.sourceCompleted && !q.inFlight ==> q.stopped)
    && (q.stopped ==> q.sourceClosed)
    && (q.sourceCompleted && q.stopped ==> q.completions == 1 || q.errors == 1 || q.tornDown)
    && Judged(q.offers, Ignored) == []
  }

  ghost predicate Inv<T>(q: Queue<T>, maxQueued: nat) {
    && |q.queue| <= maxQueued
    && Delivered(q)
    && Serial(q)
    && Signals(q)
  }

  lemma JudgedPush<T>(offers: seq<Offer<T>>, o: Offer<T>, v: Verdict)
    ensures Judged(offers + [o], v) == Judged(offers, v) + (if o.verdict == v then [o.value] else [])
  {
    assert (offers + [o])[..|offers|] == offers;
  }

  lemma OffersGrow<T>(q: Queue<T>, value: T, maxQueued: nat)
    ensures OnNext(q, value, maxQueued).offers == q.offers + [Offer(value, Classify(q, maxQueued))]
  {
  }

  lemma ArriveKeepsInv<T>(q: Queue<T>, value: T, maxQueued: nat)
    requires Inv(q, maxQueued) && !q.sourceClosed
    ensures Inv(OnNext(q, value, maxQueued), maxQueued)
  {
    var o := Offer(value, Classify(q, maxQueued));
    JudgedPush(q.offers, o, Accepted);
    JudgedPush(q.offers, o, Ignored);
    var q' := OnNext(q, value, maxQueued);
    assert q'.offers == q.offers + [o];
    if o.verdict.Accepted? && !q.inFlight {
      assert q.queue + [value] == [value];
    }
  }

  lemma StepKeepsInv<T>(q: Queue<T>, e: Event<T>, maxQueued: nat)
    requires Inv(q, maxQueued)
    ensures Inv(Step(q, e, maxQueued), maxQueued)
  {
    if e.Arrive? {
      if !q.sourceClosed { ArriveKeepsInv(q, e.value, maxQueued); }
      hide OnNext, Inv;
    } else {
      OtherStepKeepsInv(q, e, maxQueued);
      hide Step, Inv;
    }
  }

  lemma OtherStepKeepsInv<T>(q: Queue<T>, e: Event<T>, maxQueued: nat)
    requires Inv(q, maxQueued) && !e.Arrive?
    ensures Inv(Step(q, e, maxQueued), maxQueued)
  {
    hide Judged, OnNext;
  }

  lemma {:induction false} RunKeepsInv<T>(events: seq<Event<T>>, maxQueued: nat)
    ensures Inv(Run(events, maxQueued), maxQueued)
  {
    if events != [] {
      RunKeepsInv(events[..|events| - 1], maxQueued);
      StepKeepsInv(Run(events[..|events| - 1], maxQueued), events[|events| - 1], maxQueued);
    }
  }

  // ----- Results over every run -----

  /**
   Whatever the interleaving: `project` receives a prefix of the accepted values, one at a time and
   never more than `maxQueued` wait; accepted and dropped values partition the offered ones in order.
   */
  lemma DeliversSerially<T>(events: seq<Event<T>>, maxQueued: nat)
    ensures
      var q := Run(events, maxQueued);
      var accepted, dropped := Judged(q.offers, Accepted), Judged(q.offers, Overflowed);
      && q.started <= accepted
      && q.resolved + q.rejected <= |q.started| <= q.resolved + q.rejected + 1
      && |q.queue| <= maxQueued
      && (!q.stopped ==> accepted == q.started + q.queue)
      && multiset(Offered(q.offers)) == multiset(accepted) + multiset(dropped)
      && IsSubsequence(accepted, Offered(q.offers))
      && IsSubsequence(dropped, Offered(q.offers))
  {
    RunKeepsInv(events, maxQueued);
    OffersArePartitioned(Run(events, maxQueued).offers);
  }

  /**
   The next value of a live source is dropped exactly when the queue is full.  A full queue of
   positive size has a projection outstanding; only `maxQueued == 0` drops values while idle.
   */
  lemma DropsExactlyWhenFull<T>(events: seq<Event<T>>, value: T, maxQueued: nat)
    requires !Run(events, maxQueued).sourceClosed
    ensures
      var q := Run(events, maxQueued);
      var after := Run(events + [Arrive(value)], maxQueued);
      var dropped := Judged(after.offers, Overflowed) == Judged(q.offers, Overflowed) + [value];
      && (dropped <==> |q.queue| == maxQueued)
      && (dropped <==> Judged(after.offers, Accepted) == Judged(q.offers, Accepted))
      && (dropped && maxQueued > 0 ==> Outstanding(q))
      && (!Outstanding(q) ==> (dropped <==> maxQueued == 0))
  {
    RunKeepsInv(events, maxQueued);
    var q := Run(events, maxQueued);
    assert (events + [Arrive(value)])[..|events|] == events;
    var after, o := OnNext(q, value, maxQueued), Offer(value, Classify(q, maxQueued));
    assert Run(events + [Arrive(value)], maxQueued) == after;
    OffersGrow(q, value, maxQueued);
    JudgedPush(q.offers, o, Overflowed);
    JudgedPush(q.offers, o, Accepted);
    hide Run, OnNext, Judged, AcceptedValues;
  }

  /**
   Once the source has completed, and unless the subscriber left or the stream failed, completion has
   been signalled exactly when every accepted value has been projected; until then a projection is
   outstanding.  At most one terminal signal is ever sent.
   */
  lemma CompletesExactlyWhenDrained<T>(events: seq<Event<T>>, maxQueued: nat)
    ensures
      var q := Run(events, maxQueued);
      && q.completions + q.errors <= 1
      && (q.completions == 1 ==> q.sourceCompleted && q.resolved == |Judged(q.offers, Accepted)|)
      && (q.sourceCompleted && !q.tornDown && q.errors == 0 ==>
            && (q.completions == 1 <==> q.resolved == |Judged(q.offers, Accepted)|)
            && (q.completions == 0 ==> Outstanding(q)))
  {
    RunKeepsInv(events, maxQueued);
  }

  /**
   A failing source or projection ends a live stream with one error and empties its queue; an unsubscribed
   stream ends silently.  What has nothing to fail, or comes from a finished source, changes nothing.
   */
  lemma FailureOutcome<T>(events: seq<Event<T>>, maxQueued: nat)
    ensures
      var q := Run(events, maxQueued);
      var ended := q.(stopped := true, queue := [], sourceClosed := true);
      && Step(q, SourceError, maxQueued) == (if q.sourceClosed then q else ended.(errors := q.errors + 1))
      && Step(q, Reject, maxQueued) ==
           (if !Outstanding(q) then q
            else ended.(rejected := q.rejected + 1, errors := if q.stopped then q.errors else q.errors + 1))
      && Step(q, Unsubscribe, maxQueued) == ended.(tornDown := true)
      && (q.sourceClosed ==> forall value :: Step(q, Arrive(value), maxQueued) == q)
      && (q.sourceClosed ==> Step(q, SourceComplete, maxQueued) == q)
      && (!Outstanding(q) ==> Step(q, Resolve, maxQueued) == q)
  {
    RunKeepsInv(events, maxQueued);
    hide Run;
  }
}
