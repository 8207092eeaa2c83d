/**
  When a discovery may look up, must look up again, and lets its snapshot go stale and expire.
*/
module RefreshSchedule {
  import opened Outcomes
  import opened MachineWords

  /** Nanoseconds of the monotonic clock, up to the furthest instant it can name. */
  const FURTHEST: nat := 0x8000_0000_0000_0000 * 1_000_000_000 - 1

  type Time = t: nat | t <= FURTHEST

  const RETRY_LIMIT: nat := 16

  type Retry = n: nat | n <= RETRY_LIMIT

  datatype Reason =
    | Startup
    | Scheduled
    | ConnectFailure(cause: nat)
    | ConnectTimeout
    | TransportFailure
    | IdleFailure
  {
    predicate IsFailure() { !Startup? && !Scheduled? }
  }

  datatype State =
    | Idle(earliest: Option<Time>)
    | Fresh(next: Time, until: Time, staleUntil: Time)
    | Stale(next: Time, until: Time)

  datatype Age = Current | Overdue(next: Time) | Expired

  function Min(a: Time, b: Time): Time { if a <= b then a else b }

  function Max(a: Time, b: Time): Time { if a >= b then a else b }

  predicate Due(at: Time, now: Time) { at <= now }

  /** The value of a schedule; no failure count means that it has stopped for good. */
  datatype Plan = Plan(requested: Option<Reason>, refreshAt: Option<Time>, state: State, failures: Option<Retry>) {
    predicate Active() { failures.Some? }

    /** The moment the installed snapshot next changes its standing. */
    function Deadline(): Option<Time> {
      match state
      case Idle(_) => None
      case Fresh(_, until, _) => Some(until)
      case Stale(_, until) => Some(until)
    }

    /** The earliest moment a lookup is allowed; no bound when none is set. */
    function Floor(): Option<Time> {
      match state
      case Idle(earliest) => earliest
      case Fresh(next, _, _) => Some(next)
      case Stale(next, _) => Some(next)
    }

    function Next(): Option<Time> { if Active() then Floor() else None }

    function Request(reason: Reason): Plan {
      if !Active() || (requested.Some? && requested.value.IsFailure() && !reason.IsFailure()) then this
      else this.(requested := Some(reason))
    }

    function Delay(due: Time): Plan {
      match state
      case Idle(_) => this.(state := Idle(Some(due)))
      case Fresh(_, until, staleUntil) => this.(state := Fresh(due, until, staleUntil))
      case Stale(_, until) => this.(state := Stale(due, until))
    }

    function Allow(due: Time): Plan {
      if Active() && state.Idle? && state.earliest.None? then this.(state := Idle(Some(due))) else this
    }

    function Failed(): Plan {
      match failures
      case None => this
      case Some(n) => this.(failures := Some(if n < RETRY_LIMIT then n + 1 else n))
    }

    function Stopped(): Plan {
      Plan(None, None, state, None)
    }

    function AgeAt(now: Time): Age {
      match state
      case Idle(_) => Current
      case Fresh(next, until, staleUntil) =>
        if Due(staleUntil, now) then Age.Expired else if Due(until, now) then Overdue(next) else Current
      case Stale(_, until) => if Due(until, now) then Age.Expired else Current
    }

    function Advanced(now: Time): Plan {
      if AgeAt(now).Overdue? then this.(state := Stale(state.next, state.staleUntil)) else this
    }

    function Installed(next: Time, at: Option<Time>, span: Option<(Time, Time)>): Plan {
      Plan(requested, at, if span.Some? then Fresh(next, span.value.0, span.value.1) else Idle(Some(next)), Some(0))
    }

    function Withdrawn(now: Time): Plan {
      this.(state := Idle(Next()), refreshAt := if Active() then Some(now) else None)
    }
  }

  /** The schedule as it is kept, each method changing the fields it names. */
  class Schedule {
    var requested: Option<Reason>
    var refreshAt: Option<Time>
    var state: State
    var failures: Option<Retry>

    function View(): Plan
      reads this
    {
      Plan(requested, refreshAt, state, failures)
    }

    constructor ()
      ensures View() == Plan(None, None, Idle(None), Some(0))
    {
      requested, refreshAt, state, failures := None, None, Idle(None), Some(0);
    }

    method Request(reason: Reason)
      modifies `requested
      ensures View() == old(View()).Request(reason)
    {
      var pending := requested.Some? && requested.value.IsFailure();
      if failures.None? || (pending && (reason.Startup? || reason.Scheduled?)) { return; }
      requested := Some(reason);
    }

    method Delay(due: Time)
      modifies `state
      ensures View() == old(View()).Delay(due)
    {
      match state {
        case Idle(_) => state := Idle(Some(due));
        case Fresh(_, until, staleUntil) => state := Fresh(due, until, staleUntil);
        case Stale(_, until) => state := Stale(due, until);
      }
    }

    method Allow(due: Time)
      modifies `state
      ensures View() == old(View()).Allow(due)
    {
      if failures.None? { return; }
      if state.Idle? && state.earliest.None? { state := Idle(Some(due)); }
    }

    /** Counts a failure; the count before it sizes the delay. */
    method Fail() returns (retry: Option<Retry>)
      modifies `failures
      ensures View() == old(View()).Failed() && retry == old(failures)
    {
      retry := failures;
      if retry.Some? && retry.value < RETRY_LIMIT { failures := Some(retry.value + 1); }
    }

    method Stop()
      modifies `failures, `requested, `refreshAt
      ensures View() == old(View()).Stopped()
    {
      failures, requested, refreshAt := None, None, None;
    }

    method Advance(now: Time) returns (age: Age)
      modifies `state
      ensures View() == old(View()).Advanced(now) && age == old(View()).AgeAt(now)
    {
      match state {
        case Idle(_) => age := Current;
        case Fresh(next, until, staleUntil) =>
          if Due(staleUntil, now) {
            age := Age.Expired;
          } else if Due(until, now) {
            state := Stale(next, staleUntil);
            age := Overdue(next);
          } else {
            age := Current;
          }
        case Stale(_, until) => age := if Due(until, now) then Age.Expired else Current;
      }
    }

    method Install(next: Time, at: Option<Time>, span: Option<(Time, Time)>)
      modifies `failures, `refreshAt, `state
      ensures View() == old(View()).Installed(next, at, span)
    {
      failures := Some(0);
      refreshAt := at;
      state := if span.Some? then Fresh(next, span.value.0, span.value.1) else Idle(Some(next));
    }

    method Expire(now: Time)
      modifies `state, `refreshAt
      ensures View() == old(View()).Withdrawn(now)
    {
      state := Idle(View().Next());
      refreshAt := if failures.Some? then Some(now) else None;
    }
  }
}
