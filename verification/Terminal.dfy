/**
  How a connection's two directions converge on one terminal value: who may commit it, when it is
  delivered to the receiver, and when the connection is done.
*/
module Terminal {
  import opened Outcomes

  /** The first failure of the wire, and one met while draining its terminal output. */
  datatype Error<C> = Error(cause: C, closing: Option<C>)

  datatype End<E> = Clean | Failed(error: E)

  datatype Phase<E> =
    | Open
    | Eof
    | ReadClosed
    | BothClean
    | BothFailed(e: E)
    | RecvClean
    | RecvFailed(e: E)
    | SendClean
    | SendFailed(e: E)
    | Posted
    | ReadyClean
    | ReadyFailed(e: E)
    | Done

  datatype Receive<E> = Idle | EndOfInput | Waiting | Ready(end: End<E>)

  // ----- One operation -----

  predicate AdmitsSend<E>(p: Phase<E>) { p.Open? || p.Eof? || p.ReadClosed? }

  predicate AdmitsBoth<E>(p: Phase<E>) { p.Open? }

  predicate Drains<C>(p: Phase<Error<C>>) { (p.BothFailed? || p.SendFailed?) && p.e.closing.None? }

  function FinishRecv<E>(p: Phase<E>): (Phase<E>, Receive<E>) {
    match p
    case Open => (Open, Idle)
    case Eof => (ReadClosed, EndOfInput)
    case ReadClosed => (p, Idle)
    case Done => (p, Idle)
    case BothClean => (Posted, Ready(Clean))
    case SendClean => (Posted, Ready(Clean))
    case RecvClean => (Done, Ready(Clean))
    case ReadyClean => (Done, Ready(Clean))
    case RecvFailed(e) => (Done, Ready(Failed(e)))
    case ReadyFailed(e) => (Done, Ready(Failed(e)))
    case BothFailed(e) => (SendFailed(e), Waiting)
    case SendFailed(e) => (SendFailed(e), Waiting)
    case Posted => (Posted, Waiting)
  }

  /** The new phase, and whether the receiver is woken. */
  function FinishSend<E>(p: Phase<E>): (Phase<E>, bool) {
    match p
    case Open => (p, false)
    case Eof => (p, false)
    case ReadClosed => (p, false)
    case Done => (p, false)
    case BothClean => (RecvClean, false)
    case RecvClean => (RecvClean, false)
    case BothFailed(e) => (RecvFailed(e), false)
    case RecvFailed(e) => (RecvFailed(e), false)
    case SendClean => (ReadyClean, true)
    case ReadyClean => (ReadyClean, true)
    case SendFailed(e) => (ReadyFailed(e), true)
    case ReadyFailed(e) => (ReadyFailed(e), true)
    case Posted => (Done, true)
  }

  class State<C(==)> {
    var phase: Phase<Error<C>>

    constructor ()
      ensures phase == Open
    {
      phase := Open;
    }

    /** Commits the end of the send side, when that is still admitted. */
    method CommitSend(end: End<Error<C>>) returns (admitted: bool)
      modifies this
      ensures admitted == AdmitsSend(old(phase)) && phase == Step(old(phase), ByOne(end)).0
      ensures admitted <==> old(phase) == Open || old(phase) == Eof || old(phase) == ReadClosed
      ensures if admitted then phase == (match end case Clean => SendClean case Failed(e) => SendFailed(e)) else phase == old(phase)
    {
      admitted := phase.Open? || phase.Eof? || phase.ReadClosed?;
      if admitted { phase := if end.Clean? then SendClean else SendFailed(end.error); }
    }

    method CommitBoth(end: End<Error<C>>) returns (admitted: bool)
      modifies this
      ensures admitted == AdmitsBoth(old(phase)) && phase == Step(old(phase), ByBoth(end)).0
      ensures admitted <==> old(phase) == Open
      ensures if admitted then phase == (match end case Clean => BothClean case Failed(e) => BothFailed(e)) else phase == old(phase)
    {
      admitted := phase.Open?;
      if admitted { phase := if end.Clean? then BothClean else BothFailed(end.error); }
    }

    method EndInput() returns (admitted: bool)
      modifies this
      ensures admitted == AdmitsBoth(old(phase)) && phase == Step(old(phase), InputEnds).0
      ensures admitted <==> old(phase) == Open
      ensures phase == if admitted then Eof else old(phase)
    {
      admitted := phase.Open?;
      if admitted { phase := Eof; }
    }

    /** Records one failure of the terminal output itself. */
    method Drain(cause: C) returns (admitted: bool)
      modifies this
      ensures admitted == Drains(old(phase)) && phase == Step(old(phase), DrainFails(cause)).0
    {
      admitted := true;
      match phase {
        case BothFailed(e) =>
          if e.closing.None? { phase := BothFailed(e.(closing := Some(cause))); } else { admitted := false; }
        case SendFailed(e) =>
          if e.closing.None? { phase := SendFailed(e.(closing := Some(cause))); } else { admitted := false; }
        case _ => admitted := false;
      }
    }

    method RecvFinished() returns (r: Receive<Error<C>>)
      modifies this
      ensures (phase, r) == FinishRecv(old(phase))
    {
      var was := phase;
      phase := Open;
      match was {
        case Eof =>
          phase := ReadClosed;
          r := EndOfInput;
        case ReadClosed => phase := was; r := Idle;
        case Done => phase := was; r := Idle;
        case BothClean => phase := Posted; r := Ready(Clean);
        case SendClean => phase := Posted; r := Ready(Clean);
        case RecvClean => phase := Done; r := Ready(Clean);
        case ReadyClean => phase := Done; r := Ready(Clean);
        case RecvFailed(e) => phase := Done; r := Ready(Failed(e));
        case ReadyFailed(e) => phase := Done; r := Ready(Failed(e));
        case BothFailed(e) => phase := SendFailed(e); r := Waiting;
        case SendFailed(e) => phase := SendFailed(e); r := Waiting;
        case Posted => phase := Posted; r := Waiting;
        case Open => r := Idle;
      }
    }

    method SendFinished() returns (wakes: bool)
      modifies this
      ensures (phase, wakes) == FinishSend(old(phase))
    {
      var was := phase;
      phase := Open;
      match was {
        case Open => wakes := false;
        case Eof => phase := was; wakes := false;
        case ReadClosed => phase := was; wakes := false;
        case Done => phase := was; wakes := false;
        case BothClean => phase := RecvClean; wakes := false;
        case RecvClean => phase := RecvClean; wakes := false;
        case BothFailed(e) => phase := RecvFailed(e); wakes := false;
        case RecvFailed(e) => phase := RecvFailed(e); wakes := false;
        case SendClean => phase := ReadyClean; wakes := true;
        case ReadyClean => phase := ReadyClean; wakes := true;
        case SendFailed(e) => phase := ReadyFailed(e); wakes := true;
        case ReadyFailed(e) => phase := ReadyFailed(e); wakes := true;
        case Posted => phase := Done; wakes := true;
      }
    }
  }

  // ----- Runs -----

  datatype Op<C> =
    | ByOne(end: End<Error<C>>)
    | ByBoth(end: End<Error<C>>)
    | InputEnds
    | DrainFails(cause: C)
    | RecvDone
    | SendDone

  /** One operation; what is not admitted changes nothing. */
  function Step<C>(p: Phase<Error<C>>, op: Op<C>): (Phase<Error<C>>, Receive<Error<C>>) {
    match op
    case ByOne(end) =>
      (if AdmitsSend(p) then (if end.Clean? then SendClean else SendFailed(end.error)) else p, Idle)
    case ByBoth(end) =>
      (if AdmitsBoth(p) then (if end.Clean? then BothClean else BothFailed(end.error)) else p, Idle)
    case InputEnds => (if AdmitsBoth(p) then Eof else p, Idle)
    case DrainFails(cause) =>
      (if !Drains(p) then p else
         var e := p.e.(closing := Some(cause));
         if p.BothFailed? then BothFailed(e) else SendFailed(e),
       Idle)
    case RecvDone => FinishRecv(p)
    case SendDone => (FinishSend(p).0, Idle)
  }

  function Run<C>(p: Phase<Error<C>>, ops: seq<Op<C>>): Phase<Error<C>> {
    if ops == [] then p else Step(Run(p, ops[..|ops| - 1]), ops[|ops| - 1]).0
  }

  /** The terminal values a run hands to the receiver, in order. */
  function Delivered<C>(p: Phase<Error<C>>, ops: seq<Op<C>>): seq<End<Error<C>>> {
    if ops == [] then [] else
      var before := ops[..|ops| - 1];
      var r := Step(Run(p, before), ops[|ops| - 1]).1;
      Delivered(p, before) + if r.Ready? then [r.end] else []
  }

  predicate Committed<E>(p: Phase<E>) { !AdmitsSend(p) }

  /** The phases in which a terminal value has just been committed. */
  ghost predicate JustCommitted<C>(p: Phase<Error<C>>, end: End<Error<C>>) {
    match end
    case Clean => p.BothClean? || p.SendClean?
    case Failed(e) => p == BothFailed(e) || p == SendFailed(e)
  }

  ghost predicate Received<C>(ops: seq<Op<C>>) { exists i :: 0 <= i < |ops| && ops[i].RecvDone? }

  ghost predicate Sent<C>(ops: seq<Op<C>>) { exists i :: 0 <= i < |ops| && ops[i].SendDone? }

  ghost predicate SentThenReceived<C>(ops: seq<Op<C>>) {
    exists i, j :: 0 <= i < j < |ops| && ops[i].SendDone? && ops[j].RecvDone?
  }

  /** The committed error, with the first failure of its drain while the send side is unfinished. */
  ghost function Drained<C>(e: Error<C>, ops: seq<Op<C>>): Error<C> {
    if ops == [] then e else
      var before, op := ops[..|ops| - 1], ops[|ops| - 1];
      var d := Drained(e, before);
      if op.DrainFails? && d.closing.None? && !Sent(before) then d.(closing := Some(op.cause)) else d
  }

  lemma Grows<C>(ops: seq<Op<C>>)
    requires ops != []
    ensures var before, op := ops[..|ops| - 1], ops[|ops| - 1];
            && (Received(ops) <==> Received(before) || op.RecvDone?)
            && (Sent(ops) <==> Sent(before) || op.SendDone?)
            && (SentThenReceived(ops) <==> SentThenReceived(before) || (Sent(before) && op.RecvDone?))
  {
    var before, op, n := ops[..|ops| - 1], ops[|ops| - 1], |ops| - 1;
    assert ops == before + [op];
    if Received(before) { var i :| 0 <= i < n && before[i].RecvDone?; assert ops[i].RecvDone?; }
    if Sent(before) {
      var i :| 0 <= i < n && before[i].SendDone?;
      assert ops[i].SendDone?;
      if op.RecvDone? { assert ops[n].RecvDone?; }
    }
    if op.RecvDone? { assert ops[n].RecvDone?; }
    if op.SendDone? { assert ops[n].SendDone?; }
    if SentThenReceived(before) {
      var i, j :| 0 <= i < j < n && before[i].SendDone? && before[j].RecvDone?;
      assert ops[i].SendDone? && ops[j].RecvDone?;
    }
    if SentThenReceived(ops) {
      var i, j :| 0 <= i < j < |ops| && ops[i].SendDone? && ops[j].RecvDone?;
      assert before[i].SendDone?;
      if j < n { assert before[j].RecvDone?; }
    }
  }

  /** Where a cleanly committed connection stands, by the directions that have completed. */
  ghost predicate CleanAt<C>(p: Phase<Error<C>>, q: Phase<Error<C>>, received: bool, sent: bool) {
    if !sent then if received then q.Posted? else q == p
    else if received then q.Done? else q.RecvClean? || q.ReadyClean?
  }

  lemma CleanStep<C>(p: Phase<Error<C>>, q: Phase<Error<C>>, received: bool, sent: bool, op: Op<C>)
    requires JustCommitted(p, Clean) && CleanAt(p, q, received, sent)
    ensures CleanAt(p, Step(q, op).0, received || op.RecvDone?, sent || op.SendDone?)
    ensures Step(q, op).1.Ready? <==> op.RecvDone? && !received
    ensures Step(q, op).1.Ready? ==> Step(q, op).1.end == Clean
  {
  }

  /**
    After a clean commit, whatever the order and however often: the value is delivered once, with
    the first completed receive, and the connection is done exactly when both directions are.
  */
  lemma {:induction false} CleanConverges<C>(p: Phase<Error<C>>, ops: seq<Op<C>>)
    requires JustCommitted(p, Clean)
    ensures CleanAt(p, Run(p, ops), Received(ops), Sent(ops)) && Committed(Run(p, ops))
    ensures Run(p, ops).Done? <==> Received(ops) && Sent(ops)
    ensures Delivered(p, ops) == if Received(ops) then [Clean] else []
  {
    if ops != [] {
      CleanConverges(p, ops[..|ops| - 1]);
      CleanStep(p, Run(p, ops[..|ops| - 1]), Received(ops[..|ops| - 1]), Sent(ops[..|ops| - 1]), ops[|ops| - 1]);
      Grows(ops);
    }
  }

  /**
    After a committed failure: it is delivered once, by the first receive completed after a send
    is, carrying the first cause and the first failure of its drain; then the connection is done.
  */
  lemma {:induction false} FailureConverges<C>(p: Phase<Error<C>>, e: Error<C>, ops: seq<Op<C>>)
    requires JustCommitted(p, Failed(e))
    ensures Committed(Run(p, ops))
    ensures Run(p, ops).Done? <==> SentThenReceived(ops)
    ensures Delivered(p, ops) == if SentThenReceived(ops) then [Failed(Drained(e, ops))] else []
    ensures Drained(e, ops).cause == e.cause
    ensures !Sent(ops) ==> Run(p, ops) == BothFailed(Drained(e, ops)) || Run(p, ops) == SendFailed(Drained(e, ops))
    ensures Sent(ops) && !SentThenReceived(ops) ==>
              Run(p, ops) == RecvFailed(Drained(e, ops)) || Run(p, ops) == ReadyFailed(Drained(e, ops))
    ensures SentThenReceived(ops) ==> Sent(ops)
  {
    if ops != [] {
      FailureConverges(p, e, ops[..|ops| - 1]);
      Grows(ops);
    }
  }

  /** A schedule that completes a receive, a send and a receive again always finishes. */
  lemma RecvSendRecvFinishes<C>(p: Phase<Error<C>>, end: End<Error<C>>, ops: seq<Op<C>>, i: nat, j: nat, k: nat)
    requires JustCommitted(p, end) && i < j < k < |ops|
    requires ops[i].RecvDone? && ops[j].SendDone? && ops[k].RecvDone?
    ensures Run(p, ops).Done?
  {
    assert Received(ops) && Sent(ops) && SentThenReceived(ops);
    match end {
      case Clean => CleanConverges(p, ops);
      case Failed(e) => FailureConverges(p, e, ops);
    }
  }

  /** Until a commit nothing is terminal: no value is delivered and the connection is not done. */
  lemma {:induction false} NothingBeforeCommit<C>(ops: seq<Op<C>>)
    requires forall i | 0 <= i < |ops| :: !ops[i].ByOne? && !ops[i].ByBoth?
    ensures !Committed(Run(Open, ops)) && Delivered(Open, ops) == []
  {
    if ops != [] { NothingBeforeCommit(ops[..|ops| - 1]); }
  }

  /** The input's end is announced once: afterwards only the send direction can commit. */
  lemma {:induction false} EndIsAnnouncedOnce<C>(ops: seq<Op<C>>)
    ensures Run(ReadClosed, ops).ReadClosed? || Committed(Run(ReadClosed, ops))
    ensures forall op :: Step(Run(ReadClosed, ops), op).1 != EndOfInput
  {
    if ops != [] { EndIsAnnouncedOnce(ops[..|ops| - 1]); }
  }

  lemma {:induction false} CommittedForever<C>(p: Phase<Error<C>>, ops: seq<Op<C>>)
    requires Committed(p)
    ensures Committed(Run(p, ops))
  {
    if ops != [] { CommittedForever(p, ops[..|ops| - 1]); }
  }

  /** A commit is admitted once, to either side while the input is open and to the send side also after its end; later ones change nothing. */
  lemma CommitMeans<C>(p: Phase<Error<C>>, end: End<Error<C>>)
    ensures p == Open || p == Eof || p == ReadClosed ==>
              JustCommitted(Step(p, ByOne(end)).0, end) && (Step(p, ByOne(end)).0.SendClean? || Step(p, ByOne(end)).0.SendFailed?)
    ensures p == Open ==>
              JustCommitted(Step(p, ByBoth(end)).0, end) && (Step(p, ByBoth(end)).0.BothClean? || Step(p, ByBoth(end)).0.BothFailed?)
    ensures Committed(p) <==> p != Open && p != Eof && p != ReadClosed
    ensures Committed(p) ==> Step(p, ByOne(end)).0 == p
    ensures p != Open ==> Step(p, ByBoth(end)).0 == p && Step(p, InputEnds).0 == p
  {
  }

  /** Only the first failure of the drain is noted, beside the failure that was committed, until the send side completes. */
  lemma DrainMeans<C>(p: Phase<Error<C>>, cause: C)
    ensures Step(p, DrainFails(cause)).0
         == match p
            case BothFailed(Error(first, None)) => BothFailed(Error(first, Some(cause)))
            case SendFailed(Error(first, None)) => SendFailed(Error(first, Some(cause)))
            case _ => p
  {
  }

  /** Once the input has ended, the next completed receive is told so, unless a terminal value has been committed. */
  lemma {:induction false} InputEndIsTold<C>(ops: seq<Op<C>>)
    requires forall i | 0 <= i < |ops| :: !ops[i].ByOne? && !ops[i].RecvDone?
    ensures Step(Run(Step(Open, InputEnds).0, ops), RecvDone) == (ReadClosed, EndOfInput)
  {
    if ops != [] { InputEndIsTold(ops[..|ops| - 1]); }
  }

  /**
    After a commit by both sides a completed send wakes the receiver only once a receive has completed,
    which until then is still to come by itself; after a commit by the send side it always does.
  */
  lemma {:induction false} WakesExactly<C>(p: Phase<Error<C>>, end: End<Error<C>>, ops: seq<Op<C>>)
    requires JustCommitted(p, end) && !Sent(ops)
    ensures FinishSend(Run(p, ops)).1 <==> Received(ops) || p.SendClean? || p.SendFailed?
    ensures Run(p, ops).Posted? <==> Received(ops) && end.Clean?
    ensures end.Clean? && !Received(ops) ==> Run(p, ops) == p
    ensures end.Failed? ==> (Run(p, ops).SendFailed? || Run(p, ops).BothFailed?)
                            && (Run(p, ops).SendFailed? <==> Received(ops) || p.SendFailed?)
  {
    if ops != [] {
      Grows(ops);
      WakesExactly(p, end, ops[..|ops| - 1]);
    }
  }

  /** A receiver told to wait is woken by the next completion of the send side. */
  lemma {:induction false} WaitingIsWoken<C>(p: Phase<Error<C>>, ops: seq<Op<C>>)
    requires FinishRecv(p).1.Waiting? && !Sent(ops)
    ensures FinishSend(Run(FinishRecv(p).0, ops)).1
    ensures Run(FinishRecv(p).0, ops).SendFailed? || Run(FinishRecv(p).0, ops).Posted?
  {
    if ops != [] {
      Grows(ops);
      WaitingIsWoken(p, ops[..|ops| - 1]);
    }
  }

  /** Phases after the terminal value has been handed to the receiver. */
  predicate HandedOver<E>(p: Phase<E>) { p.Posted? || p.Done? }

  /**
    Over any run from the opening, with commits wherever they come, at most one terminal value is
    delivered, and it has been exactly when the phase says so; a done connection has delivered one.
  */
  lemma {:induction false} DeliveredOnce<C>(ops: seq<Op<C>>)
    ensures |Delivered(Open, ops)| == if HandedOver(Run(Open, ops)) then 1 else 0
    ensures Run(Open, ops).Done? ==> |Delivered(Open, ops)| == 1
    ensures !Committed(Run(Open, ops)) ==> Delivered(Open, ops) == []
  {
    if ops != [] { DeliveredOnce(ops[..|ops| - 1]); }
  }
}
