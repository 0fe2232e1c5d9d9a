/**
 The operator itself, with the closure variables as fields.  Each method is one callback of the
 source (libs/matter-client/src/matter-connection.service.ts:43-98), run up to its next `await`;
 `BoundedQueue` gives their meaning and the properties of every run.
 */
module BoundedConcatMapOperator {
  import opened BoundedQueue

  class BoundedConcatMap<T> {
    const maxQueued: nat
    var queue: seq<T>
    var inFlight: bool
    var sourceCompleted: bool
    var stopped: bool

    // What the source, `project` and the subscriber have seen.
    ghost var sourceClosed: bool
    ghost var offers: seq<Offer<T>>
    ghost var started: seq<T>
    ghost var resolved: nat
    ghost var rejected: nat
    ghost var completions: nat
    ghost var errors: nat
    ghost var tornDown: bool

    ghost function View(): Queue<T>
      reads this
    {
      Queue(queue, inFlight, sourceCompleted, stopped, sourceClosed, offers, started, resolved, rejected,
            completions, errors, tornDown)
    }

    ghost predicate Valid()
      reads this
    {
      Inv(View(), maxQueued)
    }

    constructor (maxQueued: nat)
      ensures Valid() && View() == Init() && this.maxQueued == maxQueued
    {
      this.maxQueued := maxQueued;
      queue, inFlight, sourceCompleted, stopped := [], false, false, false;
      sourceClosed, offers, started, resolved, rejected := false, [], [], 0, 0;
      completions, errors, tornDown := 0, 0, false;
    }

    method FinishWhenIdle()
      modifies this
      ensures View() == FinishIfIdle(old(View()))
    {
      if stopped { return; }
      if sourceCompleted && !inFlight && |queue| == 0 {
        stopped := true;
        completions := completions + 1;
      }
    }

    /** One turn of the loop in `pump`: the next value goes to `project`, or the loop ends. */
    method ContinuePump()
      modifies this
      ensures View() == PumpLoop(old(View()))
    {
      if |queue| > 0 && !stopped {
        var value := queue[0];
        queue := queue[1..];
        started := started + [value];
        return;
      }
      inFlight := false;
      FinishWhenIdle();
    }

    method StartPump()
      modifies this
      ensures View() == Pump(old(View()))
    {
      if inFlight { return; }
      inFlight := true;
      ContinuePump();
    }

    /** `next`; `overflow` tells whether `onOverflow` was called with the value. */
    method Next(value: T) returns (overflow: bool)
      requires Valid() && !sourceClosed
      modifies this
      ensures Valid() && View() == Step(old(View()), Arrive(value), maxQueued)
      ensures overflow <==> |old(queue)| == maxQueued
      ensures overflow && maxQueued > 0 ==> old(Outstanding(View()))
    {
      ghost var before := View();
      StepKeepsInv(before, Arrive(value), maxQueued);
      offers := offers + [Offer(value, Classify(View(), maxQueued))];
      if stopped { return false; }
      if |queue| >= maxQueued { return true; }
      queue := queue + [value];
      StartPump();
      return false;
    }

    /** `await project(value)` returns normally and the loop goes on. */
    method ProjectResolved()
      requires Valid() && Outstanding(View())
      modifies this
      ensures Valid() && View() == Step(old(View()), Resolve, maxQueued)
    {
      hide Inv;
      StepKeepsInv(View(), Resolve, maxQueued);
      resolved := resolved + 1;
      ContinuePump();
    }

    /** `await project(value)` throws. */
    method ProjectRejected()
      requires Valid() && Outstanding(View())
      modifies this
      ensures Valid() && View() == Step(old(View()), Reject, maxQueued)
    {
      hide Inv;
      StepKeepsInv(View(), Reject, maxQueued);
      rejected := rejected + 1;
      errors := if stopped then errors else errors + 1;
      stopped, queue := true, [];
      sourceClosed := true;
    }

    method Complete()
      requires Valid() && !sourceClosed
      modifies this
      ensures Valid() && View() == Step(old(View()), SourceComplete, maxQueued)
    {
      hide Inv;
      StepKeepsInv(View(), SourceComplete, maxQueued);
      sourceClosed := true;
      sourceCompleted := true;
      FinishWhenIdle();
    }

    method Error()
      requires Valid() && !sourceClosed
      modifies this
      ensures Valid() && View() == Step(old(View()), SourceError, maxQueued)
    {
      StepKeepsInv(View(), SourceError, maxQueued);
      if stopped { return; }
      errors := errors + 1;
      stopped, queue := true, [];
      sourceClosed := true;
    }

    method Teardown()
      requires Valid()
      modifies this
      ensures Valid() && View() == Step(old(View()), Unsubscribe, maxQueued)
    {
      hide Inv;
      StepKeepsInv(View(), Unsubscribe, maxQueued);
      stopped, queue := true, [];
      sourceClosed, tornDown := true, true;
    }
  }
}
