/**
  Discovery of one name: publishing snapshots under increasing revisions, letting them go stale
  and expire, and looking the name up again.
*/
module Freshness {
  import opened Outcomes
  import opened RefreshSchedule
  import MachineWords

  const MAX_REVISION: nat := 0xffff_ffff_ffff_ffff

  type Revision = r: nat | r <= MAX_REVISION

  const MAX_DURATION: nat := 0x1_0000_0000_0000_0000 * 1_000_000_000 - 1

  type Span = d: nat | d <= MAX_DURATION

  type Address = nat

  datatype Source = Literal(address: Address) | Query

  datatype Config = Config(
    source: Source,
    minimum: Span,
    backoffBase: Span,
    backoffMax: Span,
    maximumTtl: Span,
    before: Span,
    stale: Span)
  {
    predicate Valid() {
      0 < minimum <= maximumTtl && 0 < backoffBase <= backoffMax && before <= maximumTtl
    }
  }

  /** Why a lookup failed; `Wire` stands for every cause the transports report. */
  datatype Kind = OfClock | OfDeadline | OfTiming | Wire(cause: nat, lasting: bool) {
    predicate IsTerminal() { OfClock? || OfDeadline? || (Wire? && lasting) }
  }

  datatype Error =
    | FailedQuery(kind: Kind)
    | ClockUnread
    | AnswerClock
    | QueryClock(kind: Kind)
    | QueryRevision
    | RevisionSpent
  {
    predicate IsTerminal() {
      match this
      case FailedQuery(kind) => kind.IsTerminal()
      case QueryClock(kind) => kind.IsTerminal()
      case QueryRevision => true
      case RevisionSpent => true
      case _ => false
    }
  }

  datatype Answer = Answer(addresses: seq<Address>, startedAt: Time, completedAt: Time, validUntil: Time)

  datatype Metadata = Metadata(reason: Reason, duration: nat, ttl: nat, refresh: Option<nat>)

  datatype Action =
    | Published(revision: Revision, addresses: seq<Address>, metadata: Metadata, pollAt: Option<Time>)
    | BecameStale(revision: Revision, pollAt: Option<Time>)
    | Withdrew(revision: Revision, pollAt: Option<Time>)
    | Pending(pollAt: Option<Time>)
    | Failure(error: Error, pollAt: Option<Time>)

  /** What the lane that runs lookups answers when it is polled. */
  datatype Polled =
    | Quiet
    | Running(at: Option<Time>)
    | Complete(reason: Reason, done: Time, result: Result<Answer, Kind>)

  /** One poll: the time, the lane's answer, and whether the civil clock and the lane's start succeed. */
  datatype Input = Input(now: Time, lane: Polled, observed: bool, started: bool)

  /** `busy` is the lane's own state: it runs a lookup from a successful start until it completes. */
  datatype Machine = Machine(revision: Revision, plan: Plan, busy: bool)

  predicate Fits(cfg: Config, m: Machine, input: Input) {
    (m.busy <==> !input.lane.Quiet?) && (m.busy ==> cfg.source.Query?)
  }

  // ----- One step -----

  function Later(t: Time, d: Span): Option<Time> {
    if t + d <= FURTHEST then Some(t + d) else None
  }

  function ClampLater(t: Time, d: Span): Time {
    if t + d <= FURTHEST then t + d else FURTHEST
  }

  function RetryDelay(cfg: Config, n: Retry): Span {
    var grown := cfg.backoffBase * MachineWords.Pow2(n);
    var saturated := if grown <= MAX_DURATION then grown else MAX_DURATION;
    if saturated <= cfg.backoffMax then saturated else cfg.backoffMax
  }

  function NextRevision(r: Revision): Option<Revision> {
    if r < MAX_REVISION then Some(r + 1) else None
  }

  /** The revision a publication would take; a query keeps one more in reserve for the withdrawal. */
  function Publication(cfg: Config, m: Machine): Option<Revision> {
    match NextRevision(m.revision)
    case None => None
    case Some(next) => if cfg.source.Query? && NextRevision(next).None? then None else Some(next)
  }

  function NextPoll(plan: Plan, next: Option<Time>): Option<Time> {
    match (next, plan.Deadline())
    case (Some(a), Some(b)) => Some(Min(a, b))
    case (Some(a), None) => next
    case (None, due) => due
  }

  function FailedStep(cfg: Config, m: Machine, now: Time, reason: Reason, error: Error): (Machine, Action) {
    if error.IsTerminal() then
      var stopped := m.plan.Stopped();
      (m.(plan := stopped), Failure(error, NextPoll(stopped, None)))
    else if m.plan.failures.None? then (m, Failure(error, NextPoll(m.plan, None)))
    else
      var due := ClampLater(now, RetryDelay(cfg, m.plan.failures.value));
      var plan := m.plan.Failed().Request(reason).Delay(due);
      (m.(plan := plan), Failure(error, NextPoll(plan, Some(due))))
  }

  /** The moments that govern a publication. */
  datatype Timing = Timing(next: Time, valid: Time, at: Option<Time>, span: Option<(Time, Time)>)

  function TimingOf(cfg: Config, now: Time, done: Time, until: Time): Option<Timing> {
    match Later(now, cfg.minimum)
    case None => None
    case Some(next) =>
      if cfg.source.Literal? then Some(Timing(next, until, None, None)) else
      match Later(done, cfg.maximumTtl)
      case None => None
      case Some(cap) =>
        var valid := Min(until, cap);
        var preferred := if valid >= cfg.before then valid - cfg.before else now;
        match Later(valid, cfg.stale)
        case None => None
        case Some(end) => Some(Timing(next, valid, Some(Min(Max(preferred, next), valid)), Some((valid, end))))
  }

  function Since(later: Time, earlier: Time): nat {
    if later >= earlier then later - earlier else 0
  }

  function MetadataOf(reason: Reason, start: Time, done: Time, valid: Time, at: Option<Time>): Option<Metadata> {
    if done < start then None
    else Some(Metadata(reason, done - start, Since(valid, done), if at.Some? then Some(Since(at.value, done)) else None))
  }

  function PublishStep(cfg: Config, m: Machine, now: Time, reason: Reason, answer: Answer): (Machine, Action) {
    var revision := Publication(cfg, m);
    if revision.None? then FailedStep(cfg, m, now, reason, QueryRevision) else
    var addresses := if cfg.source.Literal? then [cfg.source.address] else answer.addresses;
    var timing := TimingOf(cfg, now, answer.completedAt, answer.validUntil);
    if timing.None? then FailedStep(cfg, m, now, reason, FailedQuery(OfClock)) else
    var t := timing.value;
    var metadata := MetadataOf(reason, answer.startedAt, answer.completedAt, t.valid, t.at);
    if metadata.None? then FailedStep(cfg, m, now, reason, FailedQuery(OfTiming)) else
    var plan := m.plan.Installed(t.next, t.at, t.span);
    (Machine(revision.value, plan, m.busy),
     Published(revision.value, addresses, metadata.value, NextPoll(plan, if plan.requested.Some? then plan.Next() else t.at)))
  }

  function ExpireStep(m: Machine, now: Time): (Machine, Action) {
    var plan := m.plan.Withdrawn(now);
    match NextRevision(m.revision)
    case None => (m.(plan := plan.Stopped()), Failure(RevisionSpent, None))
    case Some(revision) => (Machine(revision, plan, m.busy), Withdrew(revision, plan.refreshAt))
  }

  const DAY: Span := 86_400 * 1_000_000_000

  function ResolveStep(cfg: Config, m: Machine, now: Time, reason: Reason, observed: bool): (Machine, Action)
    requires cfg.source.Literal?
  {
    if !observed then FailedStep(cfg, m, now, reason, ClockUnread) else
    match Later(now, DAY)
    case None => FailedStep(cfg, m, now, reason, FailedQuery(OfClock))
    case Some(until) => PublishStep(cfg, m, now, reason, Answer([cfg.source.address], now, now, until))
  }

  function CompleteStep(cfg: Config, m: Machine, input: Input): (Machine, Action)
    requires input.lane.Complete?
  {
    var settled := m.(busy := false);
    match input.lane.result
    case Ok(answer) =>
      if !input.observed then FailedStep(cfg, settled, input.now, input.lane.reason, AnswerClock)
      else PublishStep(cfg, settled, input.now, input.lane.reason, answer)
    case Err(kind) =>
      if !input.observed then FailedStep(cfg, settled, input.now, input.lane.reason, QueryClock(kind))
      else FailedStep(cfg, settled, input.now, input.lane.reason, FailedQuery(kind))
  }

  function StaleStep(m: Machine, now: Time, next: Time, due: Option<Time>): (Machine, Action) {
    var aged := m.plan.Advanced(now).(refreshAt := None);
    var plan := if m.busy then aged else aged.Request(Scheduled);
    var at := if m.busy then due else if plan.Active() then Some(Max(next, now)) else None;
    (m.(plan := plan), BecameStale(m.revision, NextPoll(plan, at)))
  }

  function Prompted(plan: Plan, now: Time): Plan {
    if plan.requested.None? && plan.refreshAt.Some? && Due(plan.refreshAt.value, now) then plan.Request(Scheduled) else plan
  }

  function LookStep(cfg: Config, m: Machine, input: Input): (Machine, Action) {
    var now, plan := input.now, Prompted(m.plan, input.now);
    if plan.Next().Some? && !Due(plan.Next().value, now) then
      (m.(plan := plan), Pending(NextPoll(plan, plan.Next())))
    else if plan.requested.None? then
      (m.(plan := plan), Pending(NextPoll(plan, plan.refreshAt)))
    else
      var reason, ready := plan.requested.value, m.(plan := plan.(requested := None));
      if Publication(cfg, ready).None? then FailedStep(cfg, ready, now, reason, RevisionSpent)
      else if cfg.source.Literal? then ResolveStep(cfg, ready, now, reason, input.observed)
      else if !input.observed then FailedStep(cfg, ready, now, reason, ClockUnread)
      else if !input.started then FailedStep(cfg, ready, now, reason, FailedQuery(OfDeadline))
      else (ready.(busy := true), Pending(NextPoll(ready.plan, Some(now))))
  }

  function PollStep(cfg: Config, m: Machine, input: Input): (Machine, Action) {
    if input.lane.Complete? then CompleteStep(cfg, m, input) else
    var due := if input.lane.Running? then input.lane.at else None;
    match m.plan.AgeAt(input.now)
    case Overdue(next) => StaleStep(m, input.now, next, due)
    case Expired => ExpireStep(m, input.now)
    case Current => if m.busy then (m, Pending(NextPoll(m.plan, due))) else LookStep(cfg, m, input)
  }

  /** A request from outside; the service's policy may map a failure to no reason at all. */
  function RefreshStep(m: Machine, now: Time, reason: Option<Reason>): Machine {
    match reason
    case None => m
    case Some(why) => m.(plan := m.plan.Allow(now).Request(why))
  }

  // ----- What every step keeps -----

  predicate Good(cfg: Config, m: Machine) {
    && (!m.plan.Active() ==> !m.busy && m.plan.requested.None? && m.plan.refreshAt.None?)
    && (!m.plan.state.Idle? ==> m.revision < MAX_REVISION && cfg.source.Query?)
    && (m.plan.state.Fresh? ==> m.plan.state.until <= m.plan.state.staleUntil)
    && (m.busy ==> cfg.source.Query?)
  }

  /** A lookup is in flight, asked for, or set for a later moment, unless the machine has stopped. */
  predicate Owed(m: Machine) {
    m.plan.Active() ==> m.busy || m.plan.requested.Some? || m.plan.refreshAt.Some?
  }

  datatype Event = Poll(input: Input) | Refresh(at: Time, reason: Option<Reason>) {
    function Time(): Time { if Poll? then input.now else at }
  }

  predicate Admits(cfg: Config, m: Machine, e: Event) {
    e.Poll? ==> Fits(cfg, m, e.input)
  }

  function Next(cfg: Config, m: Machine, e: Event): Machine {
    match e
    case Poll(input) => PollStep(cfg, m, input).0
    case Refresh(at, reason) => RefreshStep(m, at, reason)
  }

  function Acts(cfg: Config, m: Machine, e: Event): Option<Action> {
    if e.Poll? then Some(PollStep(cfg, m, e.input).1) else None
  }

  lemma FailureIsGood(cfg: Config, m: Machine, now: Time, reason: Reason, error: Error)
    requires Good(cfg, m) && !m.busy
    ensures Good(cfg, FailedStep(cfg, m, now, reason, error).0)
  {
  }

  lemma PublishIsGood(cfg: Config, m: Machine, now: Time, reason: Reason, answer: Answer)
    requires Good(cfg, m) && m.plan.Active() && !m.busy
    ensures Good(cfg, PublishStep(cfg, m, now, reason, answer).0)
  {
    FailureIsGood(cfg, m, now, reason, QueryRevision);
    FailureIsGood(cfg, m, now, reason, FailedQuery(OfClock));
    FailureIsGood(cfg, m, now, reason, FailedQuery(OfTiming));
  }

  lemma LookIsGood(cfg: Config, m: Machine, input: Input)
    requires Good(cfg, m) && !m.busy
    ensures Good(cfg, LookStep(cfg, m, input).0)
  {
    var plan := Prompted(m.plan, input.now);
    if plan.requested.Some? {
      var reason, ready := plan.requested.value, m.(plan := plan.(requested := None));
      assert Good(cfg, ready);
      FailureIsGood(cfg, ready, input.now, reason, RevisionSpent);
      FailureIsGood(cfg, ready, input.now, reason, ClockUnread);
      FailureIsGood(cfg, ready, input.now, reason, FailedQuery(OfDeadline));
      FailureIsGood(cfg, ready, input.now, reason, FailedQuery(OfClock));
      if cfg.source.Literal? && Later(input.now, DAY).Some? {
        var until := Later(input.now, DAY).value;
        PublishIsGood(cfg, ready, input.now, reason, Answer([cfg.source.address], input.now, input.now, until));
      }
    }
  }

  lemma CompleteIsGood(cfg: Config, m: Machine, input: Input)
    requires Good(cfg, m) && m.busy && input.lane.Complete?
    ensures Good(cfg, CompleteStep(cfg, m, input).0)
  {
    var settled, reason := m.(busy := false), input.lane.reason;
    match input.lane.result {
      case Ok(answer) =>
        PublishIsGood(cfg, settled, input.now, reason, answer);
        FailureIsGood(cfg, settled, input.now, reason, AnswerClock);
      case Err(kind) =>
        FailureIsGood(cfg, settled, input.now, reason, QueryClock(kind));
        FailureIsGood(cfg, settled, input.now, reason, FailedQuery(kind));
    }
  }

  lemma GoodKept(cfg: Config, m: Machine, e: Event)
    requires Good(cfg, m) && Admits(cfg, m, e)
    ensures Good(cfg, Next(cfg, m, e))
  {
    if e.Poll? {
      if e.input.lane.Complete? {
        CompleteIsGood(cfg, m, e.input);
      } else if m.plan.AgeAt(e.input.now).Current? && !m.busy {
        LookIsGood(cfg, m, e.input);
      }
    }
  }

  /** The revision kept in reserve is there when the snapshot is withdrawn. */
  lemma ExpiryIsNeverRefused(cfg: Config, m: Machine, now: Time)
    requires Good(cfg, m) && m.plan.AgeAt(now).Expired?
    ensures ExpireStep(m, now).1.Withdrew?
  {
  }

  // ----- What a step reports -----

  /** Same standing and same deadlines; only the moment of the next lookup may differ. */
  predicate SameSpan(a: State, b: State) {
    match a
    case Idle(_) => b.Idle?
    case Fresh(_, valid, end) => b.Fresh? && b.until == valid && b.staleUntil == end
    case Stale(_, end) => b.Stale? && b.until == end
  }

  /** A result that leaves the age of the snapshot alone, unless it is a new snapshot. */
  predicate Plain(m: Machine, r: (Machine, Action)) {
    match r.1
    case Published(revision, _, _, _) => revision == r.0.revision == m.revision + 1
    case Pending(_) => r.0.revision == m.revision && SameSpan(m.plan.state, r.0.plan.state)
    case Failure(error, _) =>
      && r.0.revision == m.revision && SameSpan(m.plan.state, r.0.plan.state)
      && (m.plan.Active() ==> (r.0.plan.Active() <==> !error.IsTerminal()))
    case _ => false
  }

  lemma FailureIsPlain(cfg: Config, m: Machine, now: Time, reason: Reason, error: Error)
    ensures Plain(m, FailedStep(cfg, m, now, reason, error)) && FailedStep(cfg, m, now, reason, error).1.Failure?
  {
  }

  lemma PublishIsPlain(cfg: Config, m: Machine, now: Time, reason: Reason, answer: Answer)
    ensures Plain(m, PublishStep(cfg, m, now, reason, answer))
  {
    FailureIsPlain(cfg, m, now, reason, QueryRevision);
    FailureIsPlain(cfg, m, now, reason, FailedQuery(OfClock));
    FailureIsPlain(cfg, m, now, reason, FailedQuery(OfTiming));
  }

  lemma LookIsPlain(cfg: Config, m: Machine, input: Input)
    ensures Plain(m, LookStep(cfg, m, input))
  {
    var plan := Prompted(m.plan, input.now);
    if plan.requested.Some? {
      var reason, ready := plan.requested.value, m.(plan := plan.(requested := None));
      FailureIsPlain(cfg, ready, input.now, reason, RevisionSpent);
      FailureIsPlain(cfg, ready, input.now, reason, ClockUnread);
      FailureIsPlain(cfg, ready, input.now, reason, FailedQuery(OfDeadline));
      FailureIsPlain(cfg, ready, input.now, reason, FailedQuery(OfClock));
      if cfg.source.Literal? && Later(input.now, DAY).Some? {
        var until := Later(input.now, DAY).value;
        PublishIsPlain(cfg, ready, input.now, reason, Answer([cfg.source.address], input.now, input.now, until));
      }
    }
  }

  lemma CompleteIsPlain(cfg: Config, m: Machine, input: Input)
    requires input.lane.Complete?
    ensures Plain(m, CompleteStep(cfg, m, input))
  {
    var settled, reason := m.(busy := false), input.lane.reason;
    match input.lane.result {
      case Ok(answer) =>
        PublishIsPlain(cfg, settled, input.now, reason, answer);
        FailureIsPlain(cfg, settled, input.now, reason, AnswerClock);
      case Err(kind) =>
        FailureIsPlain(cfg, settled, input.now, reason, QueryClock(kind));
        FailureIsPlain(cfg, settled, input.now, reason, FailedQuery(kind));
    }
  }

  predicate Ages(m: Machine, input: Input) {
    !input.lane.Complete? && !m.plan.AgeAt(input.now).Current?
  }

  lemma PollIsPlain(cfg: Config, m: Machine, input: Input)
    requires !Ages(m, input)
    ensures Plain(m, PollStep(cfg, m, input))
  {
    if input.lane.Complete? { CompleteIsPlain(cfg, m, input); } else { LookIsPlain(cfg, m, input); }
  }

  // ----- Runs -----

  const START: Machine := Machine(0, Plan(None, None, Idle(None), Some(0)), false)

  predicate Runs(cfg: Config, m: Machine, es: seq<Event>)
    decreases |es|
  {
    es != [] ==> Admits(cfg, m, es[0]) && Runs(cfg, Next(cfg, m, es[0]), es[1..])
  }

  function After(cfg: Config, m: Machine, es: seq<Event>): Machine
    decreases |es|
  {
    if es == [] then m else After(cfg, Next(cfg, m, es[0]), es[1..])
  }

  /** What every event of a run returned; requests return nothing. */
  function Trace(cfg: Config, m: Machine, es: seq<Event>): (t: seq<Option<Action>>)
    ensures |t| == |es|
    decreases |es|
  {
    if es == [] then [] else [Acts(cfg, m, es[0])] + Trace(cfg, Next(cfg, m, es[0]), es[1..])
  }

  lemma {:induction false} RunIsGood(cfg: Config, m: Machine, es: seq<Event>)
    requires Good(cfg, m) && Runs(cfg, m, es)
    ensures Good(cfg, After(cfg, m, es))
    decreases |es|
  {
    if es != [] {
      GoodKept(cfg, m, es[0]);
      RunIsGood(cfg, Next(cfg, m, es[0]), es[1..]);
    }
  }

  // ----- Revisions -----

  function Reported(t: seq<Option<Action>>): seq<Revision> {
    if t == [] then []
    else if t[0].Some? && (t[0].value.Published? || t[0].value.Withdrew?) then [t[0].value.revision] + Reported(t[1..])
    else Reported(t[1..])
  }

  lemma StepRevision(cfg: Config, m: Machine, e: Event)
    requires Good(cfg, m) && Admits(cfg, m, e)
    ensures var next, act := Next(cfg, m, e), Acts(cfg, m, e);
            && (act.Some? && (act.value.Published? || act.value.Withdrew?) ==> act.value.revision == next.revision == m.revision + 1)
            && (act.Some? && act.value.BecameStale? ==> act.value.revision == next.revision == m.revision)
            && (act.None? || act.value.Pending? || act.value.Failure? ==> next.revision == m.revision)
  {
    if e.Poll? && !Ages(m, e.input) { PollIsPlain(cfg, m, e.input); }
  }

  /** The revisions a run reports count up by one, publications and withdrawals together. */
  lemma {:induction false} RevisionsCountUp(cfg: Config, m: Machine, es: seq<Event>)
    requires Good(cfg, m) && Runs(cfg, m, es)
    ensures var reported := Reported(Trace(cfg, m, es));
            && After(cfg, m, es).revision == m.revision + |reported|
            && forall k | 0 <= k < |reported| :: reported[k] == m.revision + 1 + k
    decreases |es|
  {
    if es != [] {
      var next := Next(cfg, m, es[0]);
      GoodKept(cfg, m, es[0]);
      StepRevision(cfg, m, es[0]);
      RevisionsCountUp(cfg, next, es[1..]);
      var t := Trace(cfg, m, es);
      assert t[1..] == Trace(cfg, next, es[1..]);
    }
  }

  // ----- The life of a snapshot -----

  predicate Publishes(act: Option<Action>) { act.Some? && act.value.Published? }

  predicate Stales(act: Option<Action>) { act.Some? && act.value.BecameStale? }

  predicate Withdraws(act: Option<Action>) { act.Some? && act.value.Withdrew? }

  predicate Fails(act: Option<Action>) { act.Some? && act.value.Failure? }

  function Rank(s: State): nat {
    match s case Fresh(_, _, _) => 2 case Stale(_, _) => 1 case Idle(_) => 0
  }

  /** The state still speaks of the snapshot valid until `valid` and kept until `end`. */
  predicate Within(s: State, valid: Time, end: Time) {
    match s case Fresh(_, v, e) => v == valid && e == end case Stale(_, e) => e == end case Idle(_) => true
  }

  lemma StepLife(cfg: Config, m: Machine, e: Event, valid: Time, end: Time)
    requires Good(cfg, m) && Admits(cfg, m, e) && Within(m.plan.state, valid, end) && !Publishes(Acts(cfg, m, e))
    ensures var next, act := Next(cfg, m, e), Acts(cfg, m, e);
            && Within(next.plan.state, valid, end)
            && (Stales(act) ==> Rank(m.plan.state) == 2 && Rank(next.plan.state) == 1 && valid <= e.Time() < end)
            && (Withdraws(act) ==> Rank(m.plan.state) > 0 && Rank(next.plan.state) == 0)
            && (Withdraws(act) && Rank(m.plan.state) == 1 ==> end <= e.Time())
            && (Withdraws(act) && Rank(m.plan.state) == 2 ==> end <= e.Time())
            && (!Stales(act) && !Withdraws(act) ==> Rank(next.plan.state) == Rank(m.plan.state))
  {
    if e.Poll? && !Ages(m, e.input) { PollIsPlain(cfg, m, e.input); }
  }

  /** At most one turn to stale and then at most one withdrawal, each when its deadline has passed. */
  ghost predicate Lives(rank: nat, t: seq<Option<Action>>, es: seq<Event>, valid: Time, end: Time)
    requires |t| == |es|
  {
    && (forall i | 0 <= i < |t| && Stales(t[i]) :: rank == 2 && valid <= es[i].Time() < end)
    && (forall i | 0 <= i < |t| && Withdraws(t[i]) :: rank > 0 && end <= es[i].Time())
    && (forall i, j | 0 <= i < j < |t| && Stales(t[i]) :: !Stales(t[j]))
    && (forall i, j | 0 <= i < j < |t| && Withdraws(t[i]) :: !Stales(t[j]) && !Withdraws(t[j]))
  }

  lemma LivesBefore(rank: nat, act: Option<Action>, e: Event, t: seq<Option<Action>>, es: seq<Event>,
                    valid: Time, end: Time, after: nat)
    requires |t| == |es| && Lives(after, t, es, valid, end)
    requires Stales(act) ==> rank == 2 && after == 1 && valid <= e.Time() < end
    requires Withdraws(act) ==> rank > 0 && after == 0 && end <= e.Time()
    requires !Stales(act) && !Withdraws(act) ==> after == rank
    ensures Lives(rank, [act] + t, [e] + es, valid, end)
  {
  }

  /**
    Between two publications a snapshot turns stale at most once, between its two deadlines, and
    is withdrawn at most once, not before the second one and never before turning stale.
  */
  lemma {:induction false} SnapshotLife(cfg: Config, m: Machine, es: seq<Event>, valid: Time, end: Time)
    requires Good(cfg, m) && Runs(cfg, m, es) && Within(m.plan.state, valid, end)
    requires forall i | 0 <= i < |es| :: !Publishes(Trace(cfg, m, es)[i])
    ensures Lives(Rank(m.plan.state), Trace(cfg, m, es), es, valid, end)
    decreases |es|
  {
    if es != [] {
      var e, next := es[0], Next(cfg, m, es[0]);
      var rest := Trace(cfg, next, es[1..]);
      assert Trace(cfg, m, es) == [Acts(cfg, m, e)] + rest && es == [e] + es[1..];
      assert !Publishes(Trace(cfg, m, es)[0]);
      assert forall i | 0 <= i < |rest| :: rest[i] == Trace(cfg, m, es)[i + 1];
      GoodKept(cfg, m, e);
      StepLife(cfg, m, e, valid, end);
      SnapshotLife(cfg, next, es[1..], valid, end);
      LivesBefore(Rank(m.plan.state), Acts(cfg, m, e), e, rest, es[1..], valid, end, Rank(next.plan.state));
    }
  }

  /** What a publication of a query installs, and that only a finished lookup publishes. */
  lemma PublishedMeans(cfg: Config, m: Machine, e: Event)
    requires Good(cfg, m) && Admits(cfg, m, e) && cfg.source.Query? && Publishes(Acts(cfg, m, e))
    ensures e.Poll? && e.input.lane.Complete? && e.input.lane.result.Ok?
    ensures var answer, next, now := e.input.lane.result.value, Next(cfg, m, e), e.input.now;
            var valid := Min(answer.validUntil, ClampLater(answer.completedAt, cfg.maximumTtl));
            && now + cfg.minimum <= FURTHEST && valid + cfg.stale <= FURTHEST
            && next.plan.state == Fresh(now + cfg.minimum, valid, valid + cfg.stale)
            && next.plan.failures == Some(0) && !next.busy && next.plan.requested == m.plan.requested
            && Acts(cfg, m, e).value.addresses == answer.addresses && answer.startedAt <= answer.completedAt
            && Acts(cfg, m, e).value.metadata.reason == e.input.lane.reason
            && Acts(cfg, m, e).value.metadata.duration == answer.completedAt - answer.startedAt
            && (valid >= answer.completedAt ==> answer.completedAt + Acts(cfg, m, e).value.metadata.ttl == valid)
            && next.plan.refreshAt.Some? && next.plan.refreshAt.value <= valid <= next.plan.refreshAt.value + cfg.before
            && (next.plan.refreshAt.value >= now + cfg.minimum || next.plan.refreshAt.value == valid)
  {
    if !e.input.lane.Complete? {
      if !Ages(m, e.input) { QueryLookKeeps(cfg, m, e.input); }
    }
  }

  /** A query's look either starts a lookup, waits, or fails; it never publishes by itself. */
  lemma QueryLookKeeps(cfg: Config, m: Machine, input: Input)
    requires cfg.source.Query?
    ensures !LookStep(cfg, m, input).1.Published?
  {
    var plan := Prompted(m.plan, input.now);
    if plan.requested.Some? {
      var reason, ready := plan.requested.value, m.(plan := plan.(requested := None));
      FailureIsPlain(cfg, ready, input.now, reason, RevisionSpent);
      FailureIsPlain(cfg, ready, input.now, reason, ClockUnread);
      FailureIsPlain(cfg, ready, input.now, reason, FailedQuery(OfDeadline));
    }
  }

  /** From a publication on, its snapshot lives by the deadlines it was published with. */
  lemma PublishedLives(cfg: Config, m: Machine, e: Event, es: seq<Event>)
    requires Good(cfg, m) && Admits(cfg, m, e) && cfg.source.Query? && Publishes(Acts(cfg, m, e))
    requires Runs(cfg, Next(cfg, m, e), es)
    requires forall i | 0 <= i < |es| :: !Publishes(Trace(cfg, Next(cfg, m, e), es)[i])
    ensures e.Poll? && e.input.lane.Complete? && e.input.lane.result.Ok?
    ensures var answer := e.input.lane.result.value;
            var valid := Min(answer.validUntil, ClampLater(answer.completedAt, cfg.maximumTtl));
            && valid + cfg.stale <= FURTHEST
            && Lives(2, Trace(cfg, Next(cfg, m, e), es), es, valid, valid + cfg.stale)
  {
    PublishedMeans(cfg, m, e);
    GoodKept(cfg, m, e);
    var answer := e.input.lane.result.value;
    var valid := Min(answer.validUntil, ClampLater(answer.completedAt, cfg.maximumTtl));
    SnapshotLife(cfg, Next(cfg, m, e), es, valid, valid + cfg.stale);
  }

  // ----- No refresh is lost -----

  lemma RequestOwes(m: Machine, now: Time, reason: Reason)
    ensures Owed(RefreshStep(m, now, Some(reason)))
  {
  }

  lemma OwedKept(cfg: Config, m: Machine, e: Event)
    requires Good(cfg, m) && Admits(cfg, m, e) && cfg.source.Query? && Owed(m)
    ensures Owed(Next(cfg, m, e))
  {
  }

  /** Once asked for, a query stays owed until the machine stops for good. */
  lemma {:induction false} RunOwes(cfg: Config, m: Machine, es: seq<Event>)
    requires Good(cfg, m) && Runs(cfg, m, es) && cfg.source.Query? && Owed(m)
    ensures Owed(After(cfg, m, es))
    decreases |es|
  {
    if es != [] {
      GoodKept(cfg, m, es[0]);
      OwedKept(cfg, m, es[0]);
      RunOwes(cfg, Next(cfg, m, es[0]), es[1..]);
    }
  }

  /** A failure that asks for a lookup is not forgotten for a lesser reason before a lookup takes it up. */
  lemma FailureReasonKept(cfg: Config, m: Machine, e: Event)
    requires Good(cfg, m) && Admits(cfg, m, e) && m.plan.requested.Some? && m.plan.requested.value.IsFailure()
    ensures var plan := Next(cfg, m, e).plan;
            || (plan.requested.Some? && plan.requested.value.IsFailure())
            || !plan.Active()
            || (!m.busy && (Next(cfg, m, e).busy || Publishes(Acts(cfg, m, e))))
  {
  }

  /** The caller is told to come back: before the snapshot next ages, and always while owed and idle. */
  ghost predicate Recalls(m: Machine, at: Option<Time>) {
    && (m.plan.Deadline().Some? ==> at.Some? && at.value <= m.plan.Deadline().value)
    && (m.plan.Active() && !m.busy ==> at.Some?)
  }

  lemma FailureRecalls(cfg: Config, m: Machine, now: Time, reason: Reason, error: Error)
    ensures var r := FailedStep(cfg, m, now, reason, error); Recalls(r.0, r.1.pollAt)
  {
  }

  lemma PublishRecalls(cfg: Config, m: Machine, now: Time, reason: Reason, answer: Answer)
    requires cfg.source.Query? && m.plan.Active()
    ensures var r := PublishStep(cfg, m, now, reason, answer); Recalls(r.0, r.1.pollAt)
  {
    FailureRecalls(cfg, m, now, reason, QueryRevision);
    FailureRecalls(cfg, m, now, reason, FailedQuery(OfClock));
    FailureRecalls(cfg, m, now, reason, FailedQuery(OfTiming));
  }

  lemma LookRecalls(cfg: Config, m: Machine, input: Input)
    requires cfg.source.Query? && Owed(m) && !m.busy
    ensures var r := LookStep(cfg, m, input); Recalls(r.0, r.1.pollAt)
  {
    var plan := Prompted(m.plan, input.now);
    if plan.requested.Some? {
      var reason, ready := plan.requested.value, m.(plan := plan.(requested := None));
      FailureRecalls(cfg, ready, input.now, reason, RevisionSpent);
      FailureRecalls(cfg, ready, input.now, reason, ClockUnread);
      FailureRecalls(cfg, ready, input.now, reason, FailedQuery(OfDeadline));
    }
  }

  /** Every poll of an owed query leaves a moment to come back at. */
  lemma PollRecalls(cfg: Config, m: Machine, input: Input)
    requires Good(cfg, m) && Fits(cfg, m, input) && cfg.source.Query? && Owed(m)
    ensures var r := PollStep(cfg, m, input); Recalls(r.0, r.1.pollAt)
  {
    if input.lane.Complete? {
      var settled, reason := m.(busy := false), input.lane.reason;
      match input.lane.result {
        case Ok(answer) =>
          PublishRecalls(cfg, settled, input.now, reason, answer);
          FailureRecalls(cfg, settled, input.now, reason, AnswerClock);
        case Err(kind) =>
          FailureRecalls(cfg, settled, input.now, reason, QueryClock(kind));
          FailureRecalls(cfg, settled, input.now, reason, FailedQuery(kind));
      }
    } else if !Ages(m, input) && !m.busy {
      LookRecalls(cfg, m, input);
    }
  }

  /** A poll after which nothing has happened and nothing is in flight. */
  predicate Idles(cfg: Config, m: Machine, input: Input) {
    PollStep(cfg, m, input).1.Pending? && !PollStep(cfg, m, input).0.busy
  }

  lemma IdlePoll(cfg: Config, m: Machine, input: Input)
    requires Good(cfg, m) && Fits(cfg, m, input) && cfg.source.Query? && Owed(m) && m.plan.Active() && Idles(cfg, m, input)
    ensures var plan, r := Prompted(m.plan, input.now), PollStep(cfg, m, input);
            && !m.busy && r.0 == m.(plan := plan) && !Ages(m, input)
            && if plan.Next().Some? && plan.Next().value > input.now
               then r.1.pollAt == NextPoll(plan, plan.Next())
               else plan.requested.None? && plan.refreshAt.Some? && plan.refreshAt.value > input.now
                    && r.1.pollAt == NextPoll(plan, plan.refreshAt)
  {
    if input.lane.Complete? {
      CompleteActs(cfg, m, input);
    }
  }

  lemma CompleteActs(cfg: Config, m: Machine, input: Input)
    requires input.lane.Complete?
    ensures !CompleteStep(cfg, m, input).1.Pending?
  {
  }

  /**
    Of three polls, each made no earlier than the moment the one before named, one acts: it starts
    a lookup, or it reports a snapshot turning stale or withdrawn, or a failure.
  */
  lemma OneOfThreePollsActs(cfg: Config, m: Machine, a: Input, b: Input, c: Input)
    requires Good(cfg, m) && cfg.source.Query? && Owed(m) && m.plan.Active()
    requires Fits(cfg, m, a) && Idles(cfg, m, a)
    requires var m1 := PollStep(cfg, m, a).0;
             Fits(cfg, m1, b) && Idles(cfg, m1, b) && Fits(cfg, PollStep(cfg, m1, b).0, c)
    requires var r1 := PollStep(cfg, m, a);
             var r2 := PollStep(cfg, r1.0, b);
             && (r1.1.pollAt.Some? ==> r1.1.pollAt.value <= b.now)
             && (r2.1.pollAt.Some? ==> r2.1.pollAt.value <= c.now)
    ensures var m2 := PollStep(cfg, PollStep(cfg, m, a).0, b).0; !Idles(cfg, m2, c)
  {
    var m1 := PollStep(cfg, m, a).0;
    var m2 := PollStep(cfg, m1, b).0;
    IdlePoll(cfg, m, a);
    IdlePoll(cfg, m1, b);
    if Idles(cfg, m2, c) {
      IdlePoll(cfg, m2, c);
    }
  }

  // ----- Retries -----

  lemma RetryDelayGrows(cfg: Config, n: Retry, k: Retry)
    requires cfg.Valid() && n <= k
    ensures cfg.backoffBase <= RetryDelay(cfg, n) <= RetryDelay(cfg, k) <= cfg.backoffMax
    ensures RetryDelay(cfg, 0) == cfg.backoffBase
  {
    MachineWords.Pow2Grows(n, k);
    MachineWords.Pow2Grows(0, n);
    GrowsWithFactor(cfg.backoffBase, MachineWords.Pow2(n), MachineWords.Pow2(k));
    GrowsWithFactor(cfg.backoffBase, 1, MachineWords.Pow2(n));
  }

  /** Each failure doubles the delay until the maximum takes over. */
  lemma DelayDoubles(cfg: Config, n: Retry)
    requires cfg.Valid() && n < RETRY_LIMIT
    ensures RetryDelay(cfg, n + 1) == if 2 * RetryDelay(cfg, n) <= cfg.backoffMax then 2 * RetryDelay(cfg, n) else cfg.backoffMax
  {
    var base, p := cfg.backoffBase, MachineWords.Pow2(n);
    assert MachineWords.Pow2(n + 1) == 2 * p;
    MachineWords.Doubles(base, p);
  }

  lemma GrowsWithFactor(base: nat, a: nat, b: nat)
    requires a <= b
    ensures base * a <= base * b
  {
  }

  /** The number of failures, past every retry once the machine has stopped. */
  function Failures(m: Machine): nat {
    if m.plan.failures.Some? then m.plan.failures.value else RETRY_LIMIT + 1
  }

  lemma StepFailures(cfg: Config, m: Machine, e: Event)
    requires Good(cfg, m) && Admits(cfg, m, e) && !Publishes(Acts(cfg, m, e))
    ensures Failures(m) <= Failures(Next(cfg, m, e))
  {
  }

  /** Until the next publication, later failures wait at least as long, and never past the limit. */
  lemma {:induction false} DelaysGrow(cfg: Config, m: Machine, es: seq<Event>)
    requires cfg.Valid() && Good(cfg, m) && Runs(cfg, m, es)
    requires forall i | 0 <= i < |es| :: !Publishes(Trace(cfg, m, es)[i])
    ensures Failures(m) <= Failures(After(cfg, m, es))
    ensures After(cfg, m, es).plan.Active() ==>
              m.plan.Active()
              && RetryDelay(cfg, m.plan.failures.value) <= RetryDelay(cfg, After(cfg, m, es).plan.failures.value) <= cfg.backoffMax
    decreases |es|
  {
    if es != [] {
      assert !Publishes(Trace(cfg, m, es)[0]);
      assert forall i | 0 <= i < |es| - 1 :: Trace(cfg, Next(cfg, m, es[0]), es[1..])[i] == Trace(cfg, m, es)[i + 1];
      GoodKept(cfg, m, es[0]);
      StepFailures(cfg, m, es[0]);
      DelaysGrow(cfg, Next(cfg, m, es[0]), es[1..]);
    }
    var last := After(cfg, m, es);
    if last.plan.Active() {
      RetryDelayGrows(cfg, m.plan.failures.value, last.plan.failures.value);
    }
  }

  /** Takes a request up: a query starts its lane, a literal is resolved on the spot, or either fails. */
  predicate Begins(cfg: Config, m: Machine, e: Event) {
    && e.Poll? && !m.busy
    && (Next(cfg, m, e).busy || Publishes(Acts(cfg, m, e)) || Fails(Acts(cfg, m, e)))
  }

  lemma BeginsWhenAllowed(cfg: Config, m: Machine, e: Event)
    requires Good(cfg, m) && Admits(cfg, m, e) && Begins(cfg, m, e)
    ensures m.plan.Active() && (m.plan.Next().Some? ==> m.plan.Next().value <= e.Time())
  {
    if Ages(m, e.input) && m.plan.AgeAt(e.Time()).Expired? { ExpiryIsNeverRefused(cfg, m, e.Time()); }
  }

  lemma FailureSetsNext(cfg: Config, m: Machine, e: Event)
    requires Good(cfg, m) && Admits(cfg, m, e) && Fails(Acts(cfg, m, e)) && Next(cfg, m, e).plan.Active()
    ensures m.plan.Active()
    ensures Next(cfg, m, e).plan.Next() == Some(ClampLater(e.Time(), RetryDelay(cfg, m.plan.failures.value)))
  {
  }

  /** Nothing but a publication or a failure moves the earliest moment of the next lookup. */
  lemma StepKeepsNext(cfg: Config, m: Machine, e: Event)
    requires Good(cfg, m) && Admits(cfg, m, e) && !Publishes(Acts(cfg, m, e)) && !Fails(Acts(cfg, m, e))
    requires m.plan.Next().Some?
    ensures Next(cfg, m, e).plan.Next() == m.plan.Next()
  {
  }

  lemma {:induction false} RunKeepsNext(cfg: Config, m: Machine, es: seq<Event>)
    requires Good(cfg, m) && Runs(cfg, m, es) && m.plan.Next().Some?
    requires forall i | 0 <= i < |es| :: !Publishes(Trace(cfg, m, es)[i]) && !Fails(Trace(cfg, m, es)[i])
    ensures Good(cfg, After(cfg, m, es)) && After(cfg, m, es).plan.Next() == m.plan.Next()
    decreases |es|
  {
    if es != [] {
      assert !Publishes(Trace(cfg, m, es)[0]) && !Fails(Trace(cfg, m, es)[0]);
      assert forall i | 0 <= i < |es| - 1 :: Trace(cfg, Next(cfg, m, es[0]), es[1..])[i] == Trace(cfg, m, es)[i + 1];
      GoodKept(cfg, m, es[0]);
      StepKeepsNext(cfg, m, es[0]);
      RunKeepsNext(cfg, Next(cfg, m, es[0]), es[1..]);
    }
  }

  /** After a failure, whatever is requested meanwhile, the next lookup waits out the delay. */
  lemma BackoffIsRespected(cfg: Config, m: Machine, e: Event, es: seq<Event>, last: Event)
    requires Good(cfg, m) && Admits(cfg, m, e) && Fails(Acts(cfg, m, e)) && Next(cfg, m, e).plan.Active()
    requires Runs(cfg, Next(cfg, m, e), es)
    requires forall i | 0 <= i < |es| ::
               !Publishes(Trace(cfg, Next(cfg, m, e), es)[i]) && !Fails(Trace(cfg, Next(cfg, m, e), es)[i])
    requires var m1 := After(cfg, Next(cfg, m, e), es); Admits(cfg, m1, last) && Begins(cfg, m1, last)
    ensures m.plan.Active() && last.Time() >= ClampLater(e.Time(), RetryDelay(cfg, m.plan.failures.value))
  {
    GoodKept(cfg, m, e);
    FailureSetsNext(cfg, m, e);
    RunKeepsNext(cfg, Next(cfg, m, e), es);
    BeginsWhenAllowed(cfg, After(cfg, Next(cfg, m, e), es), last);
  }

  /** After a publication the next lookup waits for the configured minimum. */
  lemma MinimumIsRespected(cfg: Config, m: Machine, e: Event, es: seq<Event>, last: Event)
    requires Good(cfg, m) && Admits(cfg, m, e) && cfg.source.Query? && Publishes(Acts(cfg, m, e))
    requires Runs(cfg, Next(cfg, m, e), es)
    requires forall i | 0 <= i < |es| ::
               !Publishes(Trace(cfg, Next(cfg, m, e), es)[i]) && !Fails(Trace(cfg, Next(cfg, m, e), es)[i])
    requires var m1 := After(cfg, Next(cfg, m, e), es); Admits(cfg, m1, last) && Begins(cfg, m1, last)
    ensures last.Time() >= e.Time() + cfg.minimum
  {
    GoodKept(cfg, m, e);
    PublishedMeans(cfg, m, e);
    RunKeepsNext(cfg, Next(cfg, m, e), es);
    BeginsWhenAllowed(cfg, After(cfg, Next(cfg, m, e), es), last);
  }

  // ----- What a poll answers, by what it was given -----

  predicate Refuses(act: Option<Action>, error: Error) { act.Some? && act.value.Failure? && act.value.error == error }

  /** After these causes no later lookup can fare better. */
  predicate Hopeless(kind: Kind) { kind == OfClock || kind == OfDeadline || (kind.Wire? && kind.lasting) }

  predicate EndsDiscovery(error: Error) {
    match error
    case FailedQuery(kind) => Hopeless(kind)
    case QueryClock(kind) => Hopeless(kind)
    case ClockUnread => false
    case AnswerClock => false
    case QueryRevision => true
    case RevisionSpent => true
  }

  /** The moment to come back at is the earlier of the given one and the snapshot's next deadline. */
  lemma NextPollIsEarlier(plan: Plan, next: Option<Time>)
    ensures var at, deadline := NextPoll(plan, next), if plan.state.Fresh? || plan.state.Stale? then Some(plan.state.until) else None;
            && (at.None? <==> next.None? && deadline.None?)
            && (at.Some? ==> at == next || at == deadline)
            && (next.Some? ==> at.Some? && at.value <= next.value)
            && (deadline.Some? ==> at.Some? && at.value <= deadline.value)
  {
  }

  /** A lookup that failed is reported with its own cause. */
  lemma FailedLookupReports(cfg: Config, m: Machine, e: Event)
    requires e.Poll? && e.input.lane.Complete? && e.input.lane.result.Err?
    ensures var kind := e.input.lane.result.error;
            Refuses(Acts(cfg, m, e), if e.input.observed then FailedQuery(kind) else QueryClock(kind))
  {
  }

  /** A lookup that was answered is published unless a clock, the revisions, the range of instants or the answer's own times forbid it. */
  lemma AnsweredLookupReports(cfg: Config, m: Machine, e: Event)
    requires Good(cfg, m) && Admits(cfg, m, e) && e.Poll? && e.input.lane.Complete? && e.input.lane.result.Ok?
    ensures var answer, now, act := e.input.lane.result.value, e.input.now, Acts(cfg, m, e);
            if !e.input.observed then Refuses(act, AnswerClock)
            else if m.revision + 2 > 0xffff_ffff_ffff_ffff then Refuses(act, QueryRevision)
            else if || now + cfg.minimum > FURTHEST
                    || answer.completedAt + cfg.maximumTtl > FURTHEST
                    || Min(answer.validUntil, answer.completedAt + cfg.maximumTtl) + cfg.stale > FURTHEST
              then Refuses(act, FailedQuery(OfClock))
            else if answer.completedAt < answer.startedAt then Refuses(act, FailedQuery(OfTiming))
            else Publishes(act) && act.value.revision == m.revision + 1
  {
  }

  /** A lookup that failed for good stops the machine, any other failure leaves it running; either way none is in flight. */
  lemma FailedLookupStops(cfg: Config, m: Machine, e: Event)
    requires Good(cfg, m) && Admits(cfg, m, e) && e.Poll? && e.input.lane.Complete? && e.input.lane.result.Err?
    ensures !Next(cfg, m, e).busy
    ensures Next(cfg, m, e).plan.Active() <==> !Hopeless(e.input.lane.result.error)
  {
    FailedLookupReports(cfg, m, e);
    PollIsPlain(cfg, m, e.input);
  }

  /** What is asked for at a moment: what was requested, or else the refresh that has come due. */
  function Asked(m: Machine, now: Time): Option<Reason> {
    if m.plan.requested.Some? then m.plan.requested
    else if m.plan.refreshAt.Some? && m.plan.refreshAt.value <= now then Some(Scheduled) else None
  }

  /** Whether a lookup has to wait for its earliest moment. */
  predicate Waits(m: Machine, now: Time) {
    m.plan.Active() &&
    match m.plan.state
    case Idle(earliest) => earliest.Some? && now < earliest.value
    case Fresh(next, _, _) => now < next
    case Stale(next, _) => now < next
  }

  /** A poll of an idle machine that is neither early nor without a request. */
  predicate Looks(cfg: Config, m: Machine, e: Event) {
    && Good(cfg, m) && Admits(cfg, m, e) && e.Poll? && !m.busy
    && (m.plan.state.Fresh? || m.plan.state.Stale? ==> e.input.now < m.plan.state.until)
    && !Waits(m, e.input.now) && Asked(m, e.input.now).Some?
  }

  /** Too early, or not asked for anything, a machine only waits, and notes a refresh that has come due. */
  lemma WaitingChangesNothing(cfg: Config, m: Machine, e: Event)
    requires Good(cfg, m) && Admits(cfg, m, e) && e.Poll? && !m.busy
    requires m.plan.state.Fresh? || m.plan.state.Stale? ==> e.input.now < m.plan.state.until
    requires Waits(m, e.input.now) || Asked(m, e.input.now).None?
    ensures Acts(cfg, m, e).value.Pending?
    ensures Next(cfg, m, e) == m.(plan := m.plan.(requested := Asked(m, e.input.now)))
    ensures Waits(m, e.input.now) ==>
              var earliest := if m.plan.state.Idle? then m.plan.state.earliest else Some(m.plan.state.next);
              Acts(cfg, m, e).value.pollAt == NextPoll(m.plan, earliest)
    ensures !Waits(m, e.input.now) ==> Acts(cfg, m, e).value.pollAt == NextPoll(m.plan, m.plan.refreshAt)
  {
  }

  /** A lookup in flight is waited for, until the moment the lane names or the snapshot next ages. */
  lemma FlightChangesNothing(cfg: Config, m: Machine, e: Event)
    requires Good(cfg, m) && Admits(cfg, m, e) && e.Poll? && m.busy && !e.input.lane.Complete?
    requires m.plan.state.Fresh? || m.plan.state.Stale? ==> e.input.now < m.plan.state.until
    ensures e.input.lane.Running? && Acts(cfg, m, e) == Some(Pending(NextPoll(m.plan, e.input.lane.at))) && Next(cfg, m, e) == m
  {
  }

  /** A query is looked up unless no publication is left, the clock cannot be read or the lane cannot start. */
  lemma QueryLookReports(cfg: Config, m: Machine, e: Event)
    requires Looks(cfg, m, e) && cfg.source.Query?
    ensures var act, next := Acts(cfg, m, e), Next(cfg, m, e);
            if m.revision + 2 > 0xffff_ffff_ffff_ffff then Refuses(act, RevisionSpent)
            else if !e.input.observed then Refuses(act, ClockUnread)
            else if !e.input.started then Refuses(act, FailedQuery(OfDeadline))
            else
              && next == m.(busy := true, plan := m.plan.(requested := None))
              && act == Some(Pending(NextPoll(next.plan, Some(e.input.now))))
  {
  }

  /** A literal is published on the spot, for a day and without a refresh, under the same conditions but the lane's. */
  lemma LiteralLookReports(cfg: Config, m: Machine, e: Event)
    requires Looks(cfg, m, e) && cfg.source.Literal?
    ensures var act, next, now, day := Acts(cfg, m, e), Next(cfg, m, e), e.input.now, 86_400_000_000_000;
            if m.revision + 1 > 0xffff_ffff_ffff_ffff then Refuses(act, RevisionSpent)
            else if !e.input.observed then Refuses(act, ClockUnread)
            else if now + day > FURTHEST || now + cfg.minimum > FURTHEST then Refuses(act, FailedQuery(OfClock))
            else
              && Publishes(act) && act.value.revision == m.revision + 1 && act.value.addresses == [cfg.source.address]
              && act.value.metadata == Metadata(Asked(m, now).value, 0, day, None) && act.value.pollAt == None
              && next == Machine(m.revision + 1, Plan(None, None, Idle(Some(now + cfg.minimum)), Some(0)), false)
  {
  }

  /** What is requested after asking for a lookup: a failure is not displaced by anything less. */
  function Preferred(requested: Option<Reason>, reason: Reason): Reason {
    if requested.Some? && !requested.value.Startup? && !requested.value.Scheduled? && (reason.Startup? || reason.Scheduled?)
    then requested.value else reason
  }

  /** A failure that ends the discovery clears the schedule and keeps the snapshot's deadlines. */
  lemma FinalFailureMeans(cfg: Config, m: Machine, e: Event)
    requires Good(cfg, m) && Admits(cfg, m, e) && Fails(Acts(cfg, m, e)) && EndsDiscovery(Acts(cfg, m, e).value.error)
    ensures Next(cfg, m, e) == Machine(m.revision, Plan(None, None, m.plan.state, None), false)
    ensures Acts(cfg, m, e).value.pollAt
         == if m.plan.state.Fresh? || m.plan.state.Stale? then Some(m.plan.state.until) else None
  {
    if Ages(m, e.input) && m.plan.AgeAt(e.Time()).Expired? { ExpiryIsNeverRefused(cfg, m, e.Time()); }
  }

  /** The moment the next lookup may start, put into the standing of the snapshot. */
  function Delayed(state: State, due: Time): State {
    match state
    case Idle(_) => Idle(Some(due))
    case Fresh(_, until, staleUntil) => Fresh(due, until, staleUntil)
    case Stale(_, until) => Stale(due, until)
  }

  /** `r` counts a failure of `m`, up to sixteen, asks for a lookup again and puts it off by the delay. */
  predicate Retries(cfg: Config, m: Machine, now: Time, requested: Reason, r: (Machine, Action)) {
    && m.plan.failures.Some? && r.1.Failure?
    && var n := m.plan.failures.value;
    && var due := if now + RetryDelay(cfg, n) <= FURTHEST then now + RetryDelay(cfg, n) else FURTHEST;
    && r.0.revision == m.revision && !r.0.busy
    && r.0.plan == Plan(Some(requested), m.plan.refreshAt, Delayed(m.plan.state, due), Some(if n < 16 then n + 1 else 16))
    && r.1.pollAt
    == if (m.plan.state.Fresh? || m.plan.state.Stale?) && m.plan.state.until < due then Some(m.plan.state.until) else Some(due)
  }

  lemma FailedStepRetries(cfg: Config, m: Machine, now: Time, reason: Reason, error: Error)
    requires m.plan.Active() && !m.busy && !EndsDiscovery(error)
    ensures Retries(cfg, m, now, Preferred(m.plan.requested, reason), FailedStep(cfg, m, now, reason, error))
  {
  }

  /** Any other failure of a lookup in flight is retried for the reason it was made, or a failure reported meanwhile. */
  lemma RetriedLookupMeans(cfg: Config, m: Machine, e: Event)
    requires Good(cfg, m) && Admits(cfg, m, e) && m.busy
    requires Fails(Acts(cfg, m, e)) && !EndsDiscovery(Acts(cfg, m, e).value.error)
    ensures e.input.lane.Complete?
    ensures var requested := Preferred(m.plan.requested, e.input.lane.reason);
            Retries(cfg, m, e.input.now, requested, (Next(cfg, m, e), Acts(cfg, m, e).value))
  {
    if e.input.lane.Complete? {
      FailedStepRetries(cfg, m.(busy := false), e.input.now, e.input.lane.reason, Acts(cfg, m, e).value.error);
    } else if m.plan.AgeAt(e.Time()).Expired? {
      ExpiryIsNeverRefused(cfg, m, e.Time());
    }
  }

  lemma OnlyLooksFail(cfg: Config, m: Machine, e: Event)
    requires Good(cfg, m) && Admits(cfg, m, e) && !m.busy && Fails(Acts(cfg, m, e))
    ensures Looks(cfg, m, e)
  {
    if m.plan.AgeAt(e.Time()).Expired? { ExpiryIsNeverRefused(cfg, m, e.Time()); }
  }

  lemma LookForNow(cfg: Config, m: Machine, e: Event)
    requires Looks(cfg, m, e) && Refuses(Acts(cfg, m, e), ClockUnread)
    ensures var ready := m.(plan := m.plan.(requested := None));
            PollStep(cfg, m, e.input) == FailedStep(cfg, ready, e.input.now, Asked(m, e.input.now).value, ClockUnread)
  {
  }

  /** A look that fails for now is retried for the reason it had. */
  lemma RetriedLookMeans(cfg: Config, m: Machine, e: Event)
    requires Good(cfg, m) && Admits(cfg, m, e) && !m.busy
    requires Fails(Acts(cfg, m, e)) && !EndsDiscovery(Acts(cfg, m, e).value.error)
    ensures Asked(m, e.input.now).Some?
    ensures Retries(cfg, m, e.input.now, Asked(m, e.input.now).value, (Next(cfg, m, e), Acts(cfg, m, e).value))
  {
    OnlyLooksFail(cfg, m, e);
    if cfg.source.Query? { QueryLookReports(cfg, m, e); } else { LiteralLookReports(cfg, m, e); }
    LookForNow(cfg, m, e);
    FailedStepRetries(cfg, m.(plan := m.plan.(requested := None)), e.input.now, Asked(m, e.input.now).value, ClockUnread);
  }

  /**
    A poll without a finished lookup lets the snapshot turn stale exactly between its two deadlines: a
    refresh is asked for unless one is in flight, and the caller is to be back by then.
  */
  lemma TurningStaleMeans(cfg: Config, m: Machine, e: Event)
    requires Good(cfg, m) && Admits(cfg, m, e) && e.Poll? && !e.input.lane.Complete?
    ensures Stales(Acts(cfg, m, e)) <==> m.plan.state.Fresh? && m.plan.state.until <= e.input.now < m.plan.state.staleUntil
    ensures Stales(Acts(cfg, m, e)) ==>
              var plan := m.plan;
              var requested := if m.busy || !plan.Active() then plan.requested else Some(Preferred(plan.requested, Scheduled));
              && Next(cfg, m, e) == m.(plan := Plan(requested, None, Stale(plan.state.next, plan.state.staleUntil), plan.failures))
              && Acts(cfg, m, e).value.revision == m.revision
              && var at := if m.busy then e.input.lane.at
                           else if !plan.Active() then None
                           else if plan.state.next >= e.input.now then Some(plan.state.next) else Some(e.input.now);
              Acts(cfg, m, e).value.pollAt == NextPoll(Next(cfg, m, e).plan, at)
  {
  }

  /** It withdraws the snapshot exactly when its last deadline has passed, under the next revision, and is due for a lookup at once. */
  lemma WithdrawalMeans(cfg: Config, m: Machine, e: Event)
    requires Good(cfg, m) && Admits(cfg, m, e) && e.Poll? && !e.input.lane.Complete?
    ensures Withdraws(Acts(cfg, m, e)) <==>
              || (m.plan.state.Fresh? && m.plan.state.staleUntil <= e.input.now)
              || (m.plan.state.Stale? && m.plan.state.until <= e.input.now)
    ensures Withdraws(Acts(cfg, m, e)) ==>
              var plan := m.plan;
              var at, earliest := if plan.Active() then Some(e.input.now) else None, if plan.Active() then Some(plan.state.next) else None;
              && Next(cfg, m, e) == Machine(m.revision + 1, Plan(plan.requested, at, Idle(earliest), plan.failures), m.busy)
              && Acts(cfg, m, e).value == Withdrew(m.revision + 1, at)
  {
    if m.plan.AgeAt(e.input.now).Expired? { ExpiryIsNeverRefused(cfg, m, e.input.now); }
  }

  /** When a published query is looked up again: ahead of its end, but not before the minimum and not after the end. */
  lemma PublishedRefresh(cfg: Config, m: Machine, e: Event)
    requires Good(cfg, m) && Admits(cfg, m, e) && cfg.source.Query? && Publishes(Acts(cfg, m, e))
    ensures var next, now, act := Next(cfg, m, e), e.input.now, Acts(cfg, m, e).value;
            && next.plan.state.Fresh? && next.plan.state.next == now + cfg.minimum
            && var valid := next.plan.state.until;
            && var ahead := if cfg.before <= valid then valid - cfg.before else now;
            && var at := if valid <= now + cfg.minimum || valid <= ahead then valid
                         else if ahead <= now + cfg.minimum then now + cfg.minimum else ahead;
            && next.plan.refreshAt == Some(at)
            && act.metadata.refresh
            == Some(if at >= e.input.lane.result.value.completedAt then at - e.input.lane.result.value.completedAt else 0)
            && act.pollAt == if m.plan.requested.None? then Some(at)
                             else if now + cfg.minimum <= valid then Some(now + cfg.minimum) else Some(valid)
  {
    PublishedMeans(cfg, m, e);
  }

  /** A request from outside is taken up unless the machine has stopped; it allows a first lookup at once. */
  lemma RefreshMeans(cfg: Config, m: Machine, now: Time, reason: Reason)
    ensures Next(cfg, m, Refresh(now, None)) == m
    ensures Next(cfg, m, Refresh(now, Some(reason)))
         == if m.plan.failures.None? then m
            else m.(plan := m.plan.(requested := Some(Preferred(m.plan.requested, reason)),
                                    state := if m.plan.state == Idle(None) then Idle(Some(now)) else m.plan.state))
  {
  }

  // ----- Stopping -----

  lemma StepStopped(cfg: Config, m: Machine, e: Event)
    requires Good(cfg, m) && Admits(cfg, m, e) && !m.plan.Active()
    ensures !Next(cfg, m, e).plan.Active() && !Publishes(Acts(cfg, m, e)) && !Begins(cfg, m, e)
  {
    if e.Poll? && Ages(m, e.input) && m.plan.AgeAt(e.Time()).Expired? {
      ExpiryIsNeverRefused(cfg, m, e.Time());
    }
  }

  /** A terminal failure is final: no request revives the machine, and it looks nothing up again. */
  lemma {:induction false} StoppedForGood(cfg: Config, m: Machine, es: seq<Event>)
    requires Good(cfg, m) && Runs(cfg, m, es) && !m.plan.Active()
    ensures !After(cfg, m, es).plan.Active() && !After(cfg, m, es).busy
    ensures forall i | 0 <= i < |es| :: !Publishes(Trace(cfg, m, es)[i]) && !Fails(Trace(cfg, m, es)[i])
    decreases |es|
  {
    if es != [] {
      GoodKept(cfg, m, es[0]);
      StepStopped(cfg, m, es[0]);
      StoppedForGood(cfg, Next(cfg, m, es[0]), es[1..]);
      var t := Trace(cfg, m, es);
      assert t == [Acts(cfg, m, es[0])] + Trace(cfg, Next(cfg, m, es[0]), es[1..]);
    }
  }

  lemma TerminalStops(cfg: Config, m: Machine, e: Event)
    requires Good(cfg, m) && Admits(cfg, m, e) && Fails(Acts(cfg, m, e)) && m.plan.Active()
    ensures Next(cfg, m, e).plan.Active() <==> !EndsDiscovery(Acts(cfg, m, e).value.error)
  {
    if Ages(m, e.input) && m.plan.AgeAt(e.Time()).Expired? { ExpiryIsNeverRefused(cfg, m, e.Time()); }
    if !Ages(m, e.input) { PollIsPlain(cfg, m, e.input); }
  }

  // ----- The discovery as it is kept -----

  class Discovery {
    const cfg: Config
    var revision: Revision
    const schedule: Schedule
    /** Whether the lane, which is not part of this object, runs a lookup. */
    ghost var busy: bool

    ghost function View(): Machine
      reads this, schedule
    {
      Machine(revision, schedule.View(), busy)
    }

    constructor (cfg: Config)
      ensures View() == START && this.cfg == cfg && fresh(schedule)
      ensures Good(cfg, View())
    {
      this.cfg, revision, busy := cfg, 0, false;
      schedule := new Schedule();
    }

    method TryPublication() returns (r: Option<Revision>)
      ensures r == Publication(cfg, View())
    {
      if revision == MAX_REVISION { return None; }
      r := Some(revision + 1);
      if cfg.source.Query? && revision + 1 == MAX_REVISION { r := None; }
    }

    method Fail(now: Time, reason: Reason, error: Error) returns (act: Action)
      modifies schedule
      ensures (View(), act) == FailedStep(cfg, old(View()), now, reason, error)
    {
      var due: Option<Time> := None;
      if error.IsTerminal() {
        schedule.Stop();
      } else {
        var retry := schedule.Fail();
        if retry.Some? {
          due := Some(ClampLater(now, RetryDelay(cfg, retry.value)));
          schedule.Request(reason);
          schedule.Delay(due.value);
        }
      }
      act := Failure(error, NextPoll(schedule.View(), due));
    }

    method Publish(now: Time, reason: Reason, answer: Answer) returns (act: Action)
      modifies schedule, `revision
      ensures (View(), act) == PublishStep(cfg, old(View()), now, reason, answer)
    {
      var next := TryPublication();
      if next.None? {
        act := Fail(now, reason, QueryRevision);
        return;
      }
      var addresses := if cfg.source.Literal? then [cfg.source.address] else answer.addresses;
      var timing := TimingOf(cfg, now, answer.completedAt, answer.validUntil);
      if timing.None? {
        act := Fail(now, reason, FailedQuery(OfClock));
        return;
      }
      var t := timing.value;
      var metadata := MetadataOf(reason, answer.startedAt, answer.completedAt, t.valid, t.at);
      if metadata.None? {
        act := Fail(now, reason, FailedQuery(OfTiming));
        return;
      }
      revision := next.value;
      schedule.Install(t.next, t.at, t.span);
      var at := if schedule.requested.Some? then schedule.View().Next() else t.at;
      act := Published(next.value, addresses, metadata.value, NextPoll(schedule.View(), at));
    }

    method Expire(now: Time) returns (act: Action)
      modifies schedule, `revision
      ensures (View(), act) == ExpireStep(old(View()), now)
    {
      schedule.Expire(now);
      if revision == MAX_REVISION {
        schedule.Stop();
        return Failure(RevisionSpent, None);
      }
      revision := revision + 1;
      act := Withdrew(revision, schedule.refreshAt);
    }

    method Resolve(now: Time, reason: Reason, observed: bool) returns (act: Action)
      requires cfg.source.Literal?
      modifies schedule, `revision
      ensures (View(), act) == ResolveStep(cfg, old(View()), now, reason, observed)
    {
      if !observed {
        act := Fail(now, reason, ClockUnread);
        return;
      }
      var until := Later(now, DAY);
      if until.None? {
        act := Fail(now, reason, FailedQuery(OfClock));
        return;
      }
      act := Publish(now, reason, Answer([cfg.source.address], now, now, until.value));
    }

    method Settle(input: Input) returns (act: Action)
      requires input.lane.Complete?
      modifies schedule, `revision, `busy
      ensures (View(), act) == CompleteStep(cfg, old(View()), input)
    {
      busy := false;
      var now, reason := input.now, input.lane.reason;
      match input.lane.result {
        case Ok(answer) =>
          if !input.observed { act := Fail(now, reason, AnswerClock); } else { act := Publish(now, reason, answer); }
        case Err(kind) =>
          act := Fail(now, reason, if input.observed then FailedQuery(kind) else QueryClock(kind));
      }
    }

    method Look(input: Input) returns (act: Action)
      modifies schedule, `revision, `busy
      ensures (View(), act) == LookStep(cfg, old(View()), input)
    {
      var now := input.now;
      if schedule.requested.None? && schedule.refreshAt.Some? && Due(schedule.refreshAt.value, now) {
        schedule.Request(Scheduled);
      }
      var next := schedule.View().Next();
      if next.Some? && !Due(next.value, now) { return Pending(NextPoll(schedule.View(), next)); }
      if schedule.requested.None? { return Pending(NextPoll(schedule.View(), schedule.refreshAt)); }
      var reason := schedule.requested.value;
      schedule.requested := None;
      var publication := TryPublication();
      if publication.None? {
        act := Fail(now, reason, RevisionSpent);
      } else if cfg.source.Literal? {
        act := Resolve(now, reason, input.observed);
      } else if !input.observed {
        act := Fail(now, reason, ClockUnread);
      } else if !input.started {
        act := Fail(now, reason, FailedQuery(OfDeadline));
      } else {
        busy := true;
        act := Pending(NextPoll(schedule.View(), Some(now)));
      }
    }

    /** One poll, given what the lane and the clocks answer during it. */
    method PollAt(input: Input) returns (act: Action)
      requires Good(cfg, View()) && Fits(cfg, View(), input)
      modifies schedule, `revision, `busy
      ensures (View(), act) == PollStep(cfg, old(View()), input)
      ensures Good(cfg, View())
    {
      GoodKept(cfg, View(), Poll(input));
      if input.lane.Complete? {
        act := Settle(input);
        return;
      }
      var running := input.lane.Running?;
      var due := if running then input.lane.at else None;
      var age := schedule.Advance(input.now);
      match age {
        case Overdue(next) =>
          schedule.refreshAt := None;
          if !running { schedule.Request(Scheduled); }
          var at := if running then due else if schedule.View().Active() then Some(Max(next, input.now)) else None;
          act := BecameStale(revision, NextPoll(schedule.View(), at));
        case Expired =>
          act := Expire(input.now);
        case Current =>
          if running { act := Pending(NextPoll(schedule.View(), due)); } else { act := Look(input); }
      }
    }

    method RefreshAt(now: Time, reason: Option<Reason>)
      requires Good(cfg, View())
      modifies schedule
      ensures View() == RefreshStep(old(View()), now, reason) && Good(cfg, View())
    {
      if reason.None? { return; }
      GoodKept(cfg, View(), Refresh(now, reason));
      schedule.Allow(now);
      schedule.Request(reason.value);
    }
  }
}
