/**
  One retained operation: armed with a native flight, deferred, probed, cancelled, stopped and
  restarted.
*/
module Arming {
  import opened Outcomes

  datatype Phase =
    | Ready
    | Armed
    | Deferred
    | CancelDeferred
    | Cancelling
    | Idle
    | Waiting
    | Probing
    | ProbeDeferred

  /** What submitting a flight comes to: a flight with its token, or the cause of its refusal. */
  datatype Attempt = Flight(token: nat) | Full | IdentityExhausted

  datatype Submission = Submitted | Postponed | Failed

  datatype Cancel = Taken | Later | Refused

  datatype Disposition = Deliver | Discard | Probe | Retiring

  /** The phase and the flight it holds. */
  datatype Arm = Arm(phase: Phase, flight: Option<nat>)

  predicate Startable(p: Phase) { p.Ready? || p.Deferred? }

  predicate Retryable(p: Phase) { p.Ready? || p.Deferred? || p.ProbeDeferred? }

  function Applied(a: Arm, attempt: Attempt): Arm {
    var probing := a.phase.ProbeDeferred?;
    match attempt
    case Flight(token) => Arm(if probing then Probing else Armed, Some(token))
    case Full => a.(phase := if probing then ProbeDeferred else Deferred)
    case IdentityExhausted => a.(phase := Idle)
  }

  function Stopped(a: Arm, cancel: Cancel): Arm {
    match a.phase
    case Cancelling => a
    case Idle => a
    case Armed => a.(phase := if cancel.Later? then CancelDeferred else Cancelling)
    case Probing => a.(phase := if cancel.Later? then CancelDeferred else Cancelling)
    case CancelDeferred => a.(phase := if cancel.Later? then CancelDeferred else Cancelling)
    case _ => a.(phase := Idle)
  }

  /** A completion for `token`; only the last one of a flight that is no longer pending retires it. */
  function Completed(a: Arm, token: nat, last: bool, pending: bool): (Arm, Disposition) {
    if a.flight != Some(token) then (a, Discard) else
    var after := if a.phase.Armed? || a.phase.Probing? then Ready else Idle;
    var result := if a.phase.Armed? then Deliver else if a.phase.Probing? then Probe else Retiring;
    if !Holds(a.phase) then (a, Discard)
    else if !last then (a, result)
    else if pending then (a, Discard)
    else (Arm(after, None), result)
  }

  /** The phases with a native flight. */
  predicate Holds(p: Phase) {
    p.Armed? || p.Probing? || p.CancelDeferred? || p.Cancelling?
  }

  predicate Good(a: Arm) { a.flight.Some? <==> Holds(a.phase) }

  class State {
    var phase: Phase
    var flight: Option<nat>

    function View(): Arm
      reads this
    {
      Arm(phase, flight)
    }

    constructor ()
      ensures View() == Arm(Ready, None)
    {
      phase, flight := Ready, None;
    }

    /** Lends the operation out for one submission, in the phase it keeps if nothing comes of it. */
    method Begin() returns (admitted: bool)
      modifies this
      ensures admitted <==> Startable(old(phase))
      ensures View() == if admitted then old(View()).(phase := Ready) else old(View())
    {
      admitted := phase.Ready? || phase.Deferred?;
      if admitted { phase := Ready; }
    }

    method BeginRetry() returns (admitted: bool)
      modifies this
      ensures admitted <==> Retryable(old(phase))
      ensures View() == if admitted then old(View()).(phase := ProbeDeferred) else old(View())
    {
      admitted := phase.Ready? || phase.Deferred? || phase.ProbeDeferred?;
      if admitted { phase := ProbeDeferred; }
    }

    /** Installs the outcome of a submission; no flight is ever overwritten. */
    method Apply(attempt: Attempt) returns (r: Submission)
      requires Good(View()) && Retryable(phase)
      modifies this
      ensures View() == Applied(old(View()), attempt) && Good(View())
      ensures old(flight).None?
      ensures r.Submitted? <==> attempt.Flight?
    {
      var probing := phase.ProbeDeferred?;
      match attempt {
        case Flight(token) =>
          flight := Some(token);
          phase := if probing then Probing else Armed;
          r := Submitted;
        case Full =>
          phase := if probing then ProbeDeferred else Deferred;
          r := Postponed;
        case IdentityExhausted =>
          phase := Idle;
          r := Failed;
      }
    }

    /** Asks the flight to stop; `cancel` is the flight's answer. */
    method TryCancel(cancel: Cancel)
      requires flight.Some?
      modifies this
      ensures View() == old(View()).(phase := if cancel.Later? then CancelDeferred else Cancelling)
    {
      phase := if cancel.Later? then CancelDeferred else Cancelling;
    }

    method Stop(cancel: Cancel)
      requires Good(View())
      modifies this
      ensures View() == Stopped(old(View()), cancel) && Good(View())
    {
      match phase {
        case Ready => phase := Idle;
        case Deferred => phase := Idle;
        case Waiting => phase := Idle;
        case ProbeDeferred => phase := Idle;
        case Armed => TryCancel(cancel);
        case Probing => TryCancel(cancel);
        case CancelDeferred => TryCancel(cancel);
        case Cancelling =>
        case Idle =>
      }
    }

    method Finish()
      modifies this
      ensures View() == Arm(Idle, None)
    {
      flight, phase := None, Idle;
    }

    method Wait()
      modifies this
      ensures View() == if old(phase).Ready? then old(View()).(phase := Waiting) else old(View())
    {
      if phase.Ready? { phase := Waiting; }
    }

    method TryResume() returns (resumed: bool)
      modifies this
      ensures resumed == old(phase).Waiting?
      ensures View() == if resumed then old(View()).(phase := Ready) else old(View())
    {
      resumed := phase.Waiting?;
      if resumed { phase := Ready; }
    }

    method Restart()
      modifies this
      ensures View() == if old(phase).Idle? then old(View()).(phase := Ready) else old(View())
    {
      if phase.Idle? { phase := Ready; }
    }

    method SettleProbe()
      modifies this
      ensures View() == if old(phase).Probing? then old(View()).(phase := Armed) else old(View())
    {
      if phase.Probing? { phase := Armed; }
    }

    method Complete(token: nat, last: bool, pending: bool) returns (r: Disposition)
      requires Good(View())
      modifies this
      ensures (View(), r) == Completed(old(View()), token, last, pending) && Good(View())
    {
      if flight != Some(token) { return Discard; }
      var next: Phase;
      match phase {
        case Armed => next, r := Ready, Deliver;
        case Probing => next, r := Ready, Probe;
        case CancelDeferred => next, r := Idle, Retiring;
        case Cancelling => next, r := Idle, Retiring;
        case _ => return Discard;
      }
      if last {
        if pending { return Discard; }
        flight, phase := None, next;
      }
    }
  }

  // ----- Runs -----

  /** What becomes of a loan: given back unused, or used for one submission. */
  datatype Op =
    | Submit(retry: bool, attempt: Option<Attempt>)
    | Stop(cancel: Cancel)
    | Finish
    | Wait
    | Resume
    | Restart
    | SettleProbe
    | Complete(token: nat, last: bool, pending: bool)

  /**
    The operation with the history of its flights, which are numbered in the order they were
    accepted: how many were, how many retired, and which had a cancellation settled.
  */
  datatype World = World(arm: Arm, submitted: nat, retired: nat, settled: seq<nat>)

  /** A submission that reaches the kernel takes the next flight number. */
  function Numbered(attempt: Attempt, n: nat): Attempt {
    if attempt.Flight? then Flight(n) else attempt
  }

  function Step(w: World, op: Op): World {
    match op
    case Submit(retry, attempt) =>
      if !(if retry then Retryable(w.arm.phase) else Startable(w.arm.phase)) then w else
      var lent := w.arm.(phase := if retry then ProbeDeferred else Ready);
      (match attempt
       case None => w.(arm := lent)
       case Some(x) =>
         w.(arm := Applied(lent, Numbered(x, w.submitted)), submitted := w.submitted + (if x.Flight? then 1 else 0)))
    case Stop(cancel) =>
      var asked := w.arm.phase.Armed? || w.arm.phase.Probing? || w.arm.phase.CancelDeferred?;
      w.(arm := Stopped(w.arm, cancel),
         settled := if asked && !cancel.Later? && w.arm.flight.Some? then w.settled + [w.arm.flight.value] else w.settled)
    case Finish => w.(arm := Arm(Idle, None), retired := w.retired + (if w.arm.flight.Some? then 1 else 0))
    case Wait => if w.arm.phase.Ready? then w.(arm := w.arm.(phase := Waiting)) else w
    case Resume => if w.arm.phase.Waiting? then w.(arm := w.arm.(phase := Ready)) else w
    case Restart => if w.arm.phase.Idle? then w.(arm := w.arm.(phase := Ready)) else w
    case SettleProbe => if w.arm.phase.Probing? then w.(arm := w.arm.(phase := Armed)) else w
    case Complete(token, last, pending) =>
      var after := Completed(w.arm, token, last, pending).0;
      w.(arm := after, retired := w.retired + (if w.arm.flight.Some? && after.flight.None? then 1 else 0))
  }

  function Says(w: World, op: Op): Option<Disposition> {
    if op.Complete? then Some(Completed(w.arm, op.token, op.last, op.pending).1) else None
  }

  function Run(w: World, ops: seq<Op>): World {
    if ops == [] then w else Step(Run(w, ops[..|ops| - 1]), ops[|ops| - 1])
  }

  const START: World := World(Arm(Ready, None), 0, 0, [])

  /** At most one flight is out, the youngest; its cancellation is settled exactly while it is being cancelled. */
  ghost predicate Sound(w: World) {
    && Good(w.arm)
    && w.submitted == w.retired + (if w.arm.flight.Some? then 1 else 0)
    && (w.arm.flight.Some? ==> w.arm.flight.value == w.retired)
    && (forall i | 0 <= i < |w.settled| :: w.settled[i] < w.submitted)
    && (forall i, j | 0 <= i < j < |w.settled| :: w.settled[i] < w.settled[j])
    && (w.arm.flight.Some? ==> (w.arm.flight.value in w.settled <==> w.arm.phase.Cancelling?))
  }

  lemma StepIsSound(w: World, op: Op)
    requires Sound(w)
    ensures Sound(Step(w, op))
  {
    if op.Stop? && w.arm.flight.Some? && !w.arm.phase.Cancelling? {
      var n, f := w.settled, w.arm.flight.value;
      forall i | 0 <= i < |n| ensures n[i] < f { assert n[i] in n; }
      assert f in n + [f];
    }
  }

  /** Over every run flights are conserved and never overlap, and each settles at most one cancellation. */
  lemma {:induction false} RunIsSound(ops: seq<Op>)
    ensures Sound(Run(START, ops))
  {
    if ops != [] {
      RunIsSound(ops[..|ops| - 1]);
      StepIsSound(Run(START, ops[..|ops| - 1]), ops[|ops| - 1]);
    }
  }

  /** A flight starts only while none is out. */
  lemma SubmitsAlone(ops: seq<Op>, op: Op)
    requires Step(Run(START, ops), op).submitted > Run(START, ops).submitted
    ensures Run(START, ops).arm.flight.None? && op.Submit?
  {
    RunIsSound(ops);
  }

  /** Stopped, and still so: the operation is idle or only waits for its flight to retire. */
  predicate Halted(p: Phase) { p.Idle? || p.Cancelling? || p.CancelDeferred? }

  /** Restarts take no effect while the stopped flight is out. */
  ghost predicate NeverRestarts(w: World, ops: seq<Op>) {
    ops != [] ==>
      && NeverRestarts(w, ops[..|ops| - 1])
      && (ops[|ops| - 1].Restart? ==> !Run(w, ops[..|ops| - 1]).arm.phase.Idle?)
  }

  lemma StopHalts(w: World, cancel: Cancel)
    requires Sound(w)
    ensures Halted(Step(w, Stop(cancel)).arm.phase)
  {
  }

  lemma HaltedStays(w: World, op: Op)
    requires Sound(w) && Halted(w.arm.phase) && (op.Restart? ==> !w.arm.phase.Idle?)
    ensures Halted(Step(w, op).arm.phase) && Step(w, op).submitted == w.submitted
    ensures Says(w, op) != Some(Deliver) && Says(w, op) != Some(Probe)
  {
  }

  /** From a stop to the next effective restart nothing is submitted and nothing is delivered. */
  lemma {:induction false} NothingAfterStop(w: World, cancel: Cancel, ops: seq<Op>, next: Op)
    requires Sound(w) && NeverRestarts(Step(w, Stop(cancel)), ops)
    ensures var halted := Run(Step(w, Stop(cancel)), ops);
            && Sound(halted) && Halted(halted.arm.phase) && halted.submitted == w.submitted
            && Says(halted, next) != Some(Deliver) && Says(halted, next) != Some(Probe)
  {
    if ops == [] {
      StopHalts(w, cancel);
      StepIsSound(w, Stop(cancel));
      HaltedStays(Step(w, Stop(cancel)), if next.Restart? then Wait else next);
    } else {
      var before := Run(Step(w, Stop(cancel)), ops[..|ops| - 1]);
      NothingAfterStop(w, cancel, ops[..|ops| - 1], next);
      StepIsSound(before, ops[|ops| - 1]);
      HaltedStays(before, ops[|ops| - 1]);
      HaltedStays(Step(before, ops[|ops| - 1]), if next.Restart? then Wait else next);
    }
  }

  /**
    What a completion of the flight that is out is good for: the result when armed, only a sign of life
    when probing, and nothing but its end once cancelled. Its last part ends the flight, and a
    cancelled one leaves the operation idle; but nothing counts while it is still pending.
  */
  lemma CompletionMeans(w: World, token: nat, last: bool, pending: bool)
    requires Sound(w) && w.arm.flight == Some(token)
    ensures var v, says := Step(w, Complete(token, last, pending)), Says(w, Complete(token, last, pending));
            if last && pending then v == w && says == Some(Discard) else
            && (w.arm.phase == Armed ==> says == Some(Deliver))
            && (w.arm.phase == Probing ==> says == Some(Probe))
            && (w.arm.phase == Cancelling || w.arm.phase == CancelDeferred ==> says == Some(Retiring))
            && (!last ==> v == w)
            && (last ==>
                  && v.arm == Arm(if w.arm.phase == Armed || w.arm.phase == Probing then Ready else Idle, None)
                  && v.retired == w.retired + 1 && v.submitted == w.submitted && v.settled == w.settled)
  {
  }

  /** A submission takes off in the phase it was asked for; without room it is put off, and without identities it is over. */
  lemma SubmissionMeans(w: World, retry: bool, attempt: Attempt)
    requires Sound(w) && (w.arm.phase == Ready || w.arm.phase == Deferred || (retry && w.arm.phase == ProbeDeferred))
    ensures w.arm.flight == None
    ensures var v := Step(w, Submit(retry, Some(attempt)));
            && v.submitted == w.submitted + (if attempt.Flight? then 1 else 0) && v.retired == w.retired && v.settled == w.settled
            && v.arm == match attempt
                        case Flight(_) => Arm(if retry then Probing else Armed, Some(w.submitted))
                        case Full => Arm(if retry then ProbeDeferred else Deferred, None)
                        case IdentityExhausted => Arm(Idle, None)
    ensures Step(w, Submit(retry, None)) == w.(arm := Arm(if retry then ProbeDeferred else Ready, None))
  {
  }

  /** Anywhere else nothing is submitted. */
  lemma NoSubmission(w: World, retry: bool, attempt: Option<Attempt>)
    requires w.arm.phase != Ready && w.arm.phase != Deferred && !(retry && w.arm.phase == ProbeDeferred)
    ensures Step(w, Submit(retry, attempt)) == w
  {
  }

  /** A stop asks the flight that is out, if any, and comes back to it as long as the answer is later; without one it is idle at once. */
  lemma StopMeans(w: World, cancel: Cancel)
    requires Sound(w)
    ensures var v := Step(w, Stop(cancel));
            && v.arm.flight == w.arm.flight && v.submitted == w.submitted && v.retired == w.retired
            && (w.arm.flight == None ==> v.arm.phase == Idle && v.settled == w.settled)
            && (w.arm.phase == Cancelling ==> v == w)
            && (w.arm.flight != None && w.arm.phase != Cancelling ==>
                  if cancel == Later then v.arm.phase == CancelDeferred && v.settled == w.settled
                  else v.arm.phase == Cancelling && v.settled == w.settled + [w.arm.flight.value])
  {
  }

  /** The other calls move one phase to one other, and keep all the rest. */
  lemma MovesMean(w: World)
    ensures Step(w, Wait) == if w.arm.phase == Ready then w.(arm := w.arm.(phase := Waiting)) else w
    ensures Step(w, Resume) == if w.arm.phase == Waiting then w.(arm := w.arm.(phase := Ready)) else w
    ensures Step(w, Restart) == if w.arm.phase == Idle then w.(arm := w.arm.(phase := Ready)) else w
    ensures Step(w, SettleProbe) == if w.arm.phase == Probing then w.(arm := w.arm.(phase := Armed)) else w
    ensures Step(w, Finish) == w.(arm := Arm(Idle, None), retired := if w.arm.flight == None then w.retired else w.retired + 1)
  {
  }

  /** A completion under another token, or of a flight still pending, changes nothing. */
  lemma StaleChangesNothing(w: World, token: nat, last: bool, pending: bool)
    requires Sound(w) && (w.arm.flight != Some(token) || (last && pending))
    ensures Step(w, Complete(token, last, pending)) == w && Says(w, Complete(token, last, pending)) == Some(Discard)
  {
  }

  /** A stopped operation whose cancellation was put off can run, and stopping it again settles it. */
  lemma DeferredCancelIsRetried(w: World)
    requires Sound(w) && w.arm.phase.CancelDeferred?
    ensures Step(w, Stop(Taken)).arm.phase.Cancelling? && w.arm.flight.value in Step(w, Stop(Taken)).settled
    ensures var done := Step(w, Complete(w.arm.flight.value, true, false));
            done.arm == Arm(Idle, None) && done.retired == done.submitted
  {
    var v := Step(w, Stop(Taken));
    assert v.settled[|v.settled| - 1] == w.arm.flight.value;
  }
}
