/** The per-provider circuit breaker. */
module CircuitBreaker {

  datatype State = Closed | Open | HalfOpen

  datatype Event = Allow(now: real) | Success | Failure(now: real)

  /** Everything that happened to a breaker, oldest first. */
  type Past = seq<Event>

  // ---------- What a history says ----------

  /** Failures since the last success. */
  function Trailing(h: Past): nat
  {
    if |h| == 0 then 0
    else match h[|h| - 1]
         case Allow(_) => Trailing(h[..|h| - 1])
         case Success => 0
         case Failure(_) => Trailing(h[..|h| - 1]) + 1
  }

  function LastFailure(h: Past): real
  {
    if |h| == 0 then 0.0
    else if h[|h| - 1].Failure? then h[|h| - 1].now
    else LastFailure(h[..|h| - 1])
  }

  function Clock(h: Past, start: real): real
  {
    if |h| == 0 then start
    else if h[|h| - 1].Success? then Clock(h[..|h| - 1], start)
    else h[|h| - 1].now
  }

  /** Clock readings never decrease. */
  predicate Ordered(h: Past, start: real)
  {
    |h| > 0 ==>
      && Ordered(h[..|h| - 1], start)
      && (!h[|h| - 1].Success? ==> h[|h| - 1].now >= Clock(h[..|h| - 1], start))
  }

  /** The reference: a request passes below the threshold, or once the recovery time has gone by. */
  predicate Passes(h: Past, threshold: int, recovery: real, now: real)
  {
    Trailing(h) < threshold || now - LastFailure(h) >= recovery
  }

  // ---------- The machine against its history ----------

  datatype Machine = Machine(state: State, failures: int, lastFailure: real)

  function Next(m: Machine, threshold: int, recovery: real, e: Event): Machine
  {
    match e
    case Allow(now) => if m.state.Open? && now - m.lastFailure >= recovery then m.(state := HalfOpen) else m
    case Success => m.(state := Closed, failures := 0)
    case Failure(now) =>
      Machine(if m.state.HalfOpen? || m.failures + 1 >= threshold then Open else m.state, m.failures + 1, now)
  }

  /** Whether a request made now is let through. */
  predicate Allows(m: Machine, recovery: real, now: real)
  {
    !m.state.Open? || now - m.lastFailure >= recovery
  }

  function Run(h: Past, threshold: int, recovery: real): Machine
  {
    if |h| == 0 then Machine(Closed, 0, 0.0)
    else Next(Run(h[..|h| - 1], threshold, recovery), threshold, recovery, h[|h| - 1])
  }

  predicate Agrees(h: Past, threshold: int, recovery: real, start: real, m: Machine)
  {
    && m.failures == Trailing(h) && m.lastFailure == LastFailure(h)
    && (m.state.Closed? <==> Trailing(h) < threshold)
    && (m.state.HalfOpen? ==> Clock(h, start) - LastFailure(h) >= recovery)
  }

  lemma RunStep(h: Past, threshold: int, recovery: real, e: Event)
    ensures Run(h + [e], threshold, recovery) == Next(Run(h, threshold, recovery), threshold, recovery, e)
  {
    assert (h + [e])[..|h|] == h;
  }

  lemma StepAgrees(h: Past, threshold: int, recovery: real, start: real, m: Machine, e: Event)
    requires threshold >= 1 && Agrees(h, threshold, recovery, start, m) && Ordered(h + [e], start)
    ensures Agrees(h + [e], threshold, recovery, start, Next(m, threshold, recovery, e))
  {
    assert (h + [e])[..|h|] == h;
  }

  lemma AllowIsPasses(h: Past, threshold: int, recovery: real, start: real, m: Machine, now: real)
    requires Agrees(h, threshold, recovery, start, m) && now >= Clock(h, start)
    ensures Allows(m, recovery, now) <==> Passes(h, threshold, recovery, now)
  {}

  lemma {:induction false} RunAgrees(h: Past, threshold: int, recovery: real, start: real)
    requires threshold >= 1 && Ordered(h, start)
    ensures Agrees(h, threshold, recovery, start, Run(h, threshold, recovery))
  {
    if |h| > 0 {
      var front := h[..|h| - 1];
      RunAgrees(front, threshold, recovery, start);
      assert h == front + [h[|h| - 1]];
      StepAgrees(front, threshold, recovery, start, Run(front, threshold, recovery), h[|h| - 1]);
    }
  }

  /**
    For every history a request is let through exactly when the trailing failures are below the
    threshold or the recovery time has passed, and the breaker is closed exactly in the first case.
   */
  lemma BreakerIsItsHistory(h: Past, threshold: int, recovery: real, start: real, now: real)
    requires threshold >= 1 && Ordered(h, start) && now >= Clock(h, start)
    ensures Allows(Run(h, threshold, recovery), recovery, now) <==> Passes(h, threshold, recovery, now)
    ensures Run(h, threshold, recovery).state.Closed? <==> Trailing(h) < threshold
  {
    RunAgrees(h, threshold, recovery, start);
    AllowIsPasses(h, threshold, recovery, start, Run(h, threshold, recovery), now);
  }

  /** The threshold must be positive: a fresh breaker is closed whatever its threshold is. */
  lemma FreshBreakerIsClosed(threshold: int, recovery: real)
    ensures (Run([], threshold, recovery).state.Closed? <==> Trailing([]) < threshold) <==> threshold >= 1
  {}

  // ---------- The breaker ----------

  class Breaker {
    const threshold: int
    const recovery: real
    const start: real
    var state: State
    var failureCount: int
    var lastFailureTime: real
    ghost var past: Past

    /** The fields are what the history leads to. */
    ghost predicate Valid()
      reads this
    {
      Ordered(past, start) && Machine(state, failureCount, lastFailureTime) == Run(past, threshold, recovery)
    }

    constructor (threshold: int, recovery: real, start: real)
      ensures Valid() && past == [] && this.threshold == threshold && this.recovery == recovery && this.start == start
    {
      this.threshold, this.recovery, this.start := threshold, recovery, start;
      state, failureCount, lastFailureTime := Closed, 0, 0.0;
      past := [];
    }

    method AllowRequest(now: real) returns (allowed: bool)
      requires Valid() && now >= Clock(past, start)
      modifies this
      ensures Valid() && past == old(past) + [Allow(now)]
      ensures allowed <==> Allows(Run(old(past), threshold, recovery), recovery, now)
      ensures threshold >= 1 ==> (allowed <==> Passes(old(past), threshold, recovery, now))
      ensures failureCount == old(failureCount) && lastFailureTime == old(lastFailureTime)
    {
      if threshold >= 1 { BreakerIsItsHistory(past, threshold, recovery, start, now); }
      RunStep(past, threshold, recovery, Allow(now));
      past := past + [Allow(now)];
      match state
      case Closed => return true;
      case Open =>
        if now - lastFailureTime >= recovery {
          state := HalfOpen;
          return true;
        }
        return false;
      case HalfOpen => return true;
    }

    method RecordSuccess()
      requires Valid()
      modifies this
      ensures Valid() && past == old(past) + [Success] && state == Closed && failureCount == 0
    {
      RunStep(past, threshold, recovery, Success);
      past := past + [Success];
      failureCount := 0;
      state := Closed;
    }

    method RecordFailure(now: real)
      requires Valid() && now >= Clock(past, start)
      modifies this
      ensures Valid() && past == old(past) + [Failure(now)]
      ensures failureCount == old(failureCount) + 1 && lastFailureTime == now
    {
      RunStep(past, threshold, recovery, Failure(now));
      past := past + [Failure(now)];
      failureCount := failureCount + 1;
      lastFailureTime := now;
      if state == HalfOpen {
        state := Open;
      } else if failureCount >= threshold {
        state := Open;
      }
    }
  }
}
