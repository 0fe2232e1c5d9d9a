/**
 Backing off from ThinQ: the shared request limiter (src/thinq/thinq.service.ts:49-50, 166-209) and the
 reconnect timer of the MQTT client (src/thinq/thinq-mqtt.service.ts:35-40, 206-236, 263-274).  Requests
 are made one call at a time.
 */
module ThinqBackoff {
  import opened Options

  const RATE_LIMIT_BASE_MS := 60_000
  const RATE_LIMIT_MAX_MS := 900_000
  const RECONNECT_BASE_MS := 5_000
  const RECONNECT_MAX_MS := 300_000

  function Min(a: int, b: int): int { if a <= b then a else b }

  function Pow2(n: nat): nat { if n == 0 then 1 else 2 * Pow2(n - 1) }

  /** `base` doubled `n` times, but at most `cap`. */
  function Capped(base: int, cap: int, n: nat): int { Min(base * Pow2(n), cap) }

  /** Doubling and capping at every turn is the same as capping once. */
  lemma CappedDoubles(base: nat, cap: nat, n: nat)
    ensures Capped(base, cap, n + 1) == Min(Capped(base, cap, n) * 2, cap)
  {
    var grown := base * Pow2(n);
    assert base * Pow2(n + 1) == 2 * grown;
  }

  // ----- The request limiter -----

  datatype Outcome = Success | RateLimited | Unauthorized | OtherFailure

  /** One call: when it was made, when it settled and how it would settle if sent. */
  datatype Call = Call(at: int, settledAt: int, outcome: Outcome)

  datatype Limiter = Limiter(retryAt: int, backoff: int)

  const UNLIMITED := Limiter(0, RATE_LIMIT_BASE_MS)

  predicate Sent(l: Limiter, c: Call) { c.at >= l.retryAt }

  function AfterCall(l: Limiter, c: Call): Limiter {
    if !Sent(l, c) then l
    else match c.outcome
      case Success => l.(backoff := RATE_LIMIT_BASE_MS)
      case RateLimited => Limiter(c.settledAt + l.backoff, Min(l.backoff * 2, RATE_LIMIT_MAX_MS))
      case Unauthorized => l.(retryAt := c.settledAt + RATE_LIMIT_MAX_MS)
      case OtherFailure => l
  }

  function AfterCalls(calls: seq<Call>): Limiter {
    if calls == [] then UNLIMITED else AfterCall(AfterCalls(calls[..|calls| - 1]), calls[|calls| - 1])
  }

  /** The 429 answers since the last success, among the calls that were sent. */
  function RateLimits(calls: seq<Call>): nat {
    if calls == [] then 0
    else
      var front, last := calls[..|calls| - 1], calls[|calls| - 1];
      if !Sent(AfterCalls(front), last) then RateLimits(front)
      else if last.outcome.Success? then 0
      else RateLimits(front) + (if last.outcome.RateLimited? then 1 else 0)
  }

  lemma {:induction false} BackoffClosedForm(calls: seq<Call>)
    ensures AfterCalls(calls).backoff == Capped(RATE_LIMIT_BASE_MS, RATE_LIMIT_MAX_MS, RateLimits(calls))
  {
    if calls != [] {
      var front := calls[..|calls| - 1];
      BackoffClosedForm(front);
      CappedDoubles(RATE_LIMIT_BASE_MS, RATE_LIMIT_MAX_MS, RateLimits(front));
      assert Capped(RATE_LIMIT_BASE_MS, RATE_LIMIT_MAX_MS, 0) == RATE_LIMIT_BASE_MS;
    }
  }

  /**
   The k-th 429 since the last success blocks requests for exactly min(60 s * 2^(k-1), 900 s): every call
   made before that is refused unsent and every call made from then on is sent.
   */
  lemma RateLimitBlocksExactly(calls: seq<Call>, next: Call)
    requires calls != [] && calls[|calls| - 1].outcome.RateLimited?
    requires Sent(AfterCalls(calls[..|calls| - 1]), calls[|calls| - 1])
    ensures RateLimits(calls) >= 1
    ensures
      var grown := 60_000 * Pow2(RateLimits(calls) - 1);
      var blockedFor := if grown <= 900_000 then grown else 900_000;
      && (Sent(AfterCalls(calls), next) <==> next.at >= calls[|calls| - 1].settledAt + blockedFor)
      && (!Sent(AfterCalls(calls), next) ==> AfterCalls(calls + [next]) == AfterCalls(calls))
  {
    var front, last := calls[..|calls| - 1], calls[|calls| - 1];
    BackoffClosedForm(front);
    assert AfterCalls(calls) == AfterCall(AfterCalls(front), last) && RateLimits(calls) == RateLimits(front) + 1;
    assert (calls + [next])[..|calls|] == calls;
    assert AfterCalls(calls + [next]) == AfterCall(AfterCalls(calls), next);
    hide AfterCalls, RateLimits, Pow2;
  }

  /** After a refused authorization every call is refused unsent for exactly 15 minutes. */
  lemma UnauthorizedBlocks(calls: seq<Call>, next: Call)
    requires calls != [] && calls[|calls| - 1].outcome.Unauthorized?
    requires Sent(AfterCalls(calls[..|calls| - 1]), calls[|calls| - 1])
    ensures Sent(AfterCalls(calls), next) <==> next.at >= calls[|calls| - 1].settledAt + 900_000
    ensures AfterCalls(calls).backoff == AfterCalls(calls[..|calls| - 1]).backoff
  {
    assert AfterCalls(calls) == AfterCall(AfterCalls(calls[..|calls| - 1]), calls[|calls| - 1]);
    hide AfterCalls;
  }

  /**
   A call before the promised time is refused and teaches nothing; a success only takes the backoff back to
   60 s, and any other failure changes nothing.  At first nothing is refused.
   */
  lemma OtherAnswers(l: Limiter, c: Call)
    ensures Sent(l, c) <==> c.at >= l.retryAt
    ensures c.at < l.retryAt || c.outcome.OtherFailure? ==> AfterCall(l, c) == l
    ensures c.at >= l.retryAt && c.outcome.Success? ==> AfterCall(l, c) == Limiter(l.retryAt, 60_000)
    ensures AfterCalls([]) == Limiter(0, 60_000)
  {
  }

  /** The limiter's two fields, updated by every request. */
  class RequestLimiter {
    var retryAt: int
    var rateLimitBackoffMs: int
    ghost var calls: seq<Call>

    /** The fields are what the calls made so far amount to. */
    ghost predicate Valid()
      reads this
    {
      View() == AfterCalls(calls)
    }

    ghost function View(): Limiter
      reads this
    {
      Limiter(retryAt, rateLimitBackoffMs)
    }

    constructor ()
      ensures Valid() && View() == UNLIMITED && calls == []
    {
      retryAt, rateLimitBackoffMs, calls := 0, RATE_LIMIT_BASE_MS, [];
    }

    /** Refuses while backing off; otherwise sends, and learns from the answer. */
    method Request(c: Call) returns (sent: bool)
      requires Valid()
      modifies this
      ensures Valid() && calls == old(calls) + [c] && sent == old(Sent(View(), c)) && View() == AfterCall(old(View()), c)
    {
      assert (calls + [c])[..|calls|] == calls;
      calls := calls + [c];
      if c.at < retryAt { return false; }
      match c.outcome {
        case Success => rateLimitBackoffMs := RATE_LIMIT_BASE_MS;
        case RateLimited =>
          retryAt := c.settledAt + rateLimitBackoffMs;
          rateLimitBackoffMs := Min(rateLimitBackoffMs * 2, RATE_LIMIT_MAX_MS);
        case Unauthorized => retryAt := c.settledAt + 900_000;
        case OtherFailure =>
      }
      return true;
    }
  }

  // ----- The reconnect timer -----

  /** `timer` is the field; `pending` counts the timers that have been set and have neither fired nor been cleared. */
  datatype Reconnect = Reconnect(attempt: nat, timer: Option<int>, pending: nat, stopped: bool, delays: seq<int>)

  datatype ReconnectEvent =
    | Lost(now: int)    // a connection closed or a connect failed
    | TimerFires
    | Subscribed        // a connection is up and its topic subscribed
    | Destroyed

  function OnReconnect(r: Reconnect, e: ReconnectEvent): Reconnect {
    match e
    case Lost(now) =>
      if r.stopped || r.timer.Some? then r
      else
        var delay := Min(RECONNECT_BASE_MS * Pow2(r.attempt), RECONNECT_MAX_MS);
        r.(attempt := r.attempt + 1, timer := Some(now + delay), pending := r.pending + 1, delays := r.delays + [delay])
    case TimerFires => if r.pending > 0 then r.(timer := None, pending := r.pending - 1) else r
    case Subscribed => r.(attempt := 0, delays := [])
    case Destroyed => r.(stopped := true, pending := if r.timer.Some? && r.pending > 0 then r.pending - 1 else r.pending)
  }

  function Reconnects(events: seq<ReconnectEvent>): Reconnect {
    if events == [] then Reconnect(0, None, 0, false, [])
    else OnReconnect(Reconnects(events[..|events| - 1]), events[|events| - 1])
  }

  lemma ReconnectsPush(events: seq<ReconnectEvent>, e: ReconnectEvent)
    ensures Reconnects(events + [e]) == OnReconnect(Reconnects(events), e)
  {
    assert (events + [e])[..|events|] == events;
  }

  /**
   Never two reconnect timers are pending, and the n-th reconnect scheduled since the last success waits
   min(5 s * 2^(n-1), 300 s).
   */
  lemma {:induction false} ReconnectsBackOff(events: seq<ReconnectEvent>)
    ensures
      var r := Reconnects(events);
      && r.pending <= 1 && (r.pending == 1 ==> r.timer.Some? && !r.stopped)
      && (!r.stopped ==> (r.timer.Some? <==> r.pending == 1))
      && r.attempt == |r.delays|
      && forall n :: 0 <= n < |r.delays| ==>
           r.delays[n] == if 5_000 * Pow2(n) <= 300_000 then 5_000 * Pow2(n) else 300_000
  {
    if events != [] {
      ReconnectsBackOff(events[..|events| - 1]);
    }
  }

  /** A lost connection sets a timer for the next delay, unless one is pending or the service is stopped. */
  lemma LostConnectionOutcome(r: Reconnect, now: int)
    ensures
      var r', grown := OnReconnect(r, Lost(now)), 5_000 * Pow2(r.attempt);
      && (r.stopped || r.timer.Some? ==> r' == r)
      && (!r.stopped && r.timer.None? ==>
            && r'.timer == Some(now + if grown <= 300_000 then grown else 300_000)
            && r'.attempt == r.attempt + 1 && r'.pending == r.pending + 1 && !r'.stopped)
  {
    hide Pow2;
  }

  /** After a success the next delay is 5 s again. */
  lemma SuccessStartsOver(r: Reconnect, now: int)
    requires !r.stopped && r.timer.None?
    ensures OnReconnect(OnReconnect(r, Subscribed), Lost(now)).timer == Some(now + 5_000)
  {
    assert Pow2(0) == 1;
  }

  /** A timer that fires leaves room for the next; stopping leaves none pending and lets none be set. */
  lemma TimersEnd(events: seq<ReconnectEvent>, now: int)
    ensures
      var r, s := Reconnects(events), Reconnects(events + [TimerFires]);
      s == if r.pending > 0 then r.(timer := None, pending := r.pending - 1) else r
    ensures
      var d := Reconnects(events + [Destroyed]);
      d.pending == 0 && OnReconnect(d, Lost(now)) == d
  {
    ReconnectsBackOff(events);
    ReconnectsPush(events, TimerFires);
    ReconnectsPush(events, Destroyed);
    hide Reconnects, Pow2;
  }
}
