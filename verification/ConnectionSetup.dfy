/**
  Setting up one connection: who owns the socket and its stored target while it is created, tuned,
  connected, cancelled, retired and closed.
*/
module ConnectionSetup {
  import opened Outcomes

  type Handle = nat

  type Target = nat

  /** A kernel operation in flight, by its token. */
  type Token = nat

  datatype Intent = Live | Rejected

  /** A creation and the descriptor it turns into are one socket, named by its ready handle. */
  datatype Setup =
    | CreatingTargeted(socket: Handle, stored: Target)
    | Idle(socket: Handle)
    | IdleTargeted(socket: Handle, stored: Target)
    | Tuning(socket: Handle, op: Token)
    | TuningCancelled(socket: Handle, op: Token)
    | Connecting(socket: Handle, op: Token, stored: Target, intent: Intent)
    | ConnectingCancelled(socket: Handle, op: Token, stored: Target)
    | Done(socket: Handle)
    | Connected(socket: Handle, stored: Target)
    | Detached(handle: Handle)

  datatype Close =
    | CloseCreating(socket: Handle, stored: Target)
    | CloseIdle(socket: Handle)
    | CloseDone(socket: Handle)
    | CloseIdleTargeted(socket: Handle, stored: Target)
    | CloseConnected(socket: Handle, stored: Target)

  datatype Report = Report(op: Token, error: Option<nat>)

  datatype Completion = Ready | Failed(error: nat) | Cancelled | Stale(done: Report)

  datatype Submission = Pending | Refused(cause: nat)

  datatype Answer = Accepted | Full | Declined

  datatype Cancellation = NothingPending | Waits | Retry | Denied

  datatype Retire = Retired(close: Close, handle: Handle) | StillPending(setup: Setup) | Unavailable(setup: Setup)

  // ----- Transitions -----

  function Tuned(s: Setup, done: Report, closing: bool): (Setup, Completion) {
    match s
    case Tuning(fd, op) =>
      if op != done.op then (s, Stale(done))
      else if done.error.Some? then (Idle(fd), Failed(done.error.value))
      else if closing then (Idle(fd), Cancelled)
      else (Setup.Done(fd), Ready)
    case TuningCancelled(fd, op) =>
      if op != done.op then (s, Stale(done))
      else if done.error.Some? then (Idle(fd), Failed(done.error.value))
      else (Idle(fd), Cancelled)
    case _ => (s, Stale(done))
  }

  /** The created socket `made` joins its creation; `connect` is the token of the connection it starts. */
  function Created(s: Setup, made: Handle, connect: Result<Token, nat>): (Setup, Submission) {
    if !s.CreatingTargeted? || made != s.socket then (s, Pending) else
    match connect
    case Ok(op) => (Connecting(s.socket, op, s.stored, Live), Pending)
    case Err(cause) => (IdleTargeted(s.socket, s.stored), Refused(cause))
  }

  function Complete(s: Setup, done: Report): (Setup, Completion) {
    match s
    case Connecting(fd, op, stored, intent) =>
      if op != done.op then (s, Stale(done))
      else if done.error.Some? then (IdleTargeted(fd, stored), Failed(done.error.value))
      else (Connected(fd, stored), if intent.Live? then Ready else Cancelled)
    case ConnectingCancelled(fd, op, stored) =>
      if op != done.op then (s, Stale(done))
      else if done.error.Some? then (IdleTargeted(fd, stored), Failed(done.error.value))
      else (Connected(fd, stored), Cancelled)
    case _ => (s, Stale(done))
  }

  /** Whether a cancellation is put to the kernel at all. */
  predicate Asks(s: Setup) { s.Tuning? || (s.Connecting? && s.intent.Live?) }

  /** A tuning's cancellation is either accepted or retried; only a connection's can be declined. */
  function Cancel(s: Setup, answer: Answer): (Setup, Cancellation) {
    match s
    case Tuning(fd, op) => if answer.Accepted? then (TuningCancelled(fd, op), Waits) else (s, Retry)
    case Connecting(fd, op, stored, Live) =>
      (match answer
       case Accepted => (ConnectingCancelled(fd, op, stored), Waits)
       case Full => (s, Retry)
       case Declined => (Connecting(fd, op, stored, Rejected), Denied))
    case Connecting(_, _, _, Rejected) => (s, Waits)
    case TuningCancelled(_, _) => (s, Waits)
    case ConnectingCancelled(_, _, _) => (s, Waits)
    case _ => (s, NothingPending)
  }

  function ReadyHandle(s: Setup): Handle {
    if s.Detached? then s.handle else s.socket
  }

  function RetireSetup(s: Setup): Retire {
    match s
    case CreatingTargeted(h, t) => Retired(CloseCreating(h, t), h)
    case Idle(h) => Retired(CloseIdle(h), h)
    case Done(h) => Retired(CloseDone(h), h)
    case IdleTargeted(h, t) => Retired(CloseIdleTargeted(h, t), h)
    case Connected(h, t) => Retired(CloseConnected(h, t), h)
    case Detached(_) => Unavailable(s)
    case _ => StillPending(s)
  }

  function Restore(c: Close): Setup {
    match c
    case CloseCreating(h, t) => CreatingTargeted(h, t)
    case CloseIdle(h) => Idle(h)
    case CloseDone(h) => Setup.Done(h)
    case CloseIdleTargeted(h, t) => IdleTargeted(h, t)
    case CloseConnected(h, t) => Connected(h, t)
  }

  /** The place a connection keeps its setup in; taking it leaves only the handle behind. */
  class Cell {
    var setup: Setup

    constructor (setup: Setup)
      ensures this.setup == setup
    {
      this.setup := setup;
    }

    method Take() returns (taken: Setup)
      modifies this
      ensures taken == old(setup) && setup == Detached(ReadyHandle(old(setup)))
      ensures ReadyHandle(setup) == ReadyHandle(taken)
    {
      taken := setup;
      setup := Detached(ReadyHandle(setup));
    }
  }

  // ----- What belongs to whom -----

  /** A socket, with the target stored for it. */
  datatype Title = Title(socket: Handle, stored: Option<Target>)

  function TitleOf(s: Setup): Option<Title> {
    if s.Detached? then None
    else if s.Idle? || s.Tuning? || s.TuningCancelled? || s.Done? then Some(Title(s.socket, None))
    else Some(Title(s.socket, Some(s.stored)))
  }

  function ClosingTitle(c: Close): Title {
    if c.CloseIdle? || c.CloseDone? then Title(c.socket, None) else Title(c.socket, Some(c.stored))
  }

  /** The kernel operation a setup waits for. */
  function Pendings(s: Setup): set<Token> {
    if s.Tuning? || s.TuningCancelled? || s.Connecting? || s.ConnectingCancelled? then {s.op} else {}
  }

  lemma RestoreUndoesRetire(s: Setup)
    ensures RetireSetup(s).Retired? ==>
              Restore(RetireSetup(s).close) == s && RetireSetup(s).handle == ReadyHandle(s)
    ensures !RetireSetup(s).Retired? ==> RetireSetup(s).setup == s
    ensures RetireSetup(s).Retired? <==> Pendings(s) == {} && !s.Detached?
  {
  }

  lemma RetireUndoesRestore(c: Close)
    ensures RetireSetup(Restore(c)) == Retired(c, c.socket)
    ensures TitleOf(Restore(c)) == Some(ClosingTitle(c))
  {
  }

  // ----- Runs -----

  datatype Op =
    | OnCreated(made: Handle, connect: Result<Token, nat>)
    | OnTuned(done: Report, closing: bool)
    | OnConnected(done: Report)
    | TryCancel(answer: Answer)
    | Take
    | PutBack
    | RetireTaken
    | RestoreClose
    | CloseNow

  /**
    One connection: its cell, a setup taken out of it, a close made from one, what was released,
    the kernel operations running, the cancellations accepted or declined, and those reported ready.
  */
  datatype World = World(
    cell: Setup, taken: Option<Setup>, close: Option<Close>, released: seq<Title>,
    running: set<Token>, asked: seq<Token>, ready: set<Token>)

  /** Stores a new setup after a completion; one that is not stale ends its operation. */
  function Settled(w: World, r: (Setup, Completion), op: Token): World {
    w.(cell := r.0,
       running := if r.1.Stale? then w.running else w.running - {op},
       ready := if r.1.Ready? then w.ready + {op} else w.ready)
  }

  /** The kernel hands out a token that is not in use. */
  predicate Admits(w: World, op: Op) {
    op.OnCreated? && op.connect.Ok? ==> op.connect.value !in w.running && op.connect.value !in w.asked && op.connect.value !in w.ready
  }

  function Step(w: World, op: Op): World {
    match op
    case OnCreated(made, connect) =>
      var s := Created(w.cell, made, connect).0;
      w.(cell := s, running := w.running + Pendings(s))
    case OnTuned(done, closing) => Settled(w, Tuned(w.cell, done, closing), done.op)
    case OnConnected(done) => Settled(w, Complete(w.cell, done), done.op)
    case TryCancel(answer) =>
      var r := Cancel(w.cell, answer);
      w.(cell := r.0, asked := if Asks(w.cell) && !r.1.Retry? then w.asked + [w.cell.op] else w.asked)
    case Take =>
      if w.taken.Some? || w.close.Some? || w.cell.Detached? then w
      else w.(cell := Detached(ReadyHandle(w.cell)), taken := Some(w.cell))
    case PutBack =>
      if w.taken.None? || !w.cell.Detached? then w else w.(cell := w.taken.value, taken := None)
    case RetireTaken =>
      if w.taken.None? then w else
      (match RetireSetup(w.taken.value)
       case Retired(close, _) => w.(taken := None, close := Some(close))
       case StillPending(s) => w.(taken := Some(s))
       case Unavailable(s) => w.(taken := Some(s)))
    case RestoreClose =>
      if w.close.None? then w else w.(taken := Some(Restore(w.close.value)), close := None)
    case CloseNow =>
      if w.close.None? then w else w.(released := w.released + [ClosingTitle(w.close.value)], close := None)
  }

  predicate Runs(w: World, ops: seq<Op>)
    decreases |ops|
  {
    ops != [] ==> Runs(w, ops[..|ops| - 1]) && Admits(Run(w, ops[..|ops| - 1]), ops[|ops| - 1])
  }

  function Run(w: World, ops: seq<Op>): World {
    if ops == [] then w else Step(Run(w, ops[..|ops| - 1]), ops[|ops| - 1])
  }

  function AsSeq<T>(o: Option<T>): seq<T> {
    if o.Some? then [o.value] else []
  }

  /** Every title there is, in the order it passes from hand to hand: released, closing, taken out, in the cell. */
  function Titles(w: World): seq<Title> {
    w.released
    + (if w.close.Some? then [ClosingTitle(w.close.value)] else [])
    + (if w.taken.Some? then AsSeq(TitleOf(w.taken.value)) else [])
    + AsSeq(TitleOf(w.cell))
  }

  /** The setup, wherever it is. */
  function Current(w: World): Setup {
    if w.taken.Some? then w.taken.value else w.cell
  }

  ghost predicate Placed(w: World) {
    && (w.taken.Some? ==> w.cell.Detached? && w.close.None? && !w.taken.value.Detached?)
    && (w.close.Some? ==> w.cell.Detached?)
    && w.running == Pendings(Current(w))
  }

  /** A running operation was asked to cancel exactly when it is not asked again, and none that was ever asked is ready. */
  ghost predicate Cancels(w: World) {
    && (forall t | t in w.running :: (t in w.asked <==> !Asks(Current(w))) && t !in w.ready)
    && (forall t | t in w.ready :: t !in w.asked)
    && (forall i, j | 0 <= i < j < |w.asked| :: w.asked[i] != w.asked[j])
  }

  ghost predicate Good(w: World) { Placed(w) && Cancels(w) }

  /** A setup begins with a creation, or with the tuning of an accepted socket, tried or in flight. */
  predicate Initial(s: Setup) { s.CreatingTargeted? || s.Idle? || s.Tuning? || s.Done? }

  function Start(s: Setup): World {
    World(s, None, None, [], Pendings(s), [], {})
  }

  /** Transitions move a socket along with its target; neither is dropped, swapped or made up. */
  lemma TransitionsKeepTitle(s: Setup, done: Report, closing: bool, made: Handle, connect: Result<Token, nat>, answer: Answer)
    ensures TitleOf(Tuned(s, done, closing).0) == TitleOf(s)
    ensures TitleOf(Created(s, made, connect).0) == TitleOf(s)
    ensures TitleOf(Complete(s, done).0) == TitleOf(s)
    ensures TitleOf(Cancel(s, answer).0) == TitleOf(s)
  {
  }

  /** A completion of another operation, or outside a pending phase, is handed back and changes nothing. */
  lemma StaleChangesNothing(s: Setup, done: Report, closing: bool)
    ensures done.op !in Pendings(s) ==> Tuned(s, done, closing) == (s, Stale(done)) && Complete(s, done) == (s, Stale(done))
    ensures Tuned(s, done, closing).1.Stale? ==> Tuned(s, done, closing).0 == s
    ensures Complete(s, done).1.Stale? ==> Complete(s, done).0 == s
    ensures done.op in Pendings(s) ==> Tuned(s, done, closing).1.Stale? != Complete(s, done).1.Stale?
  {
  }

  /** A completion is reported ready exactly when it establishes the connection for an owner that still wants it. */
  lemma ReadyIsEstablished(s: Setup, done: Report, closing: bool)
    ensures Tuned(s, done, closing).1.Ready? <==> done == Report(done.op, None) && s == Tuning(ReadyHandle(s), done.op) && !closing
    ensures Tuned(s, done, closing).1.Ready? ==> Tuned(s, done, closing).0 == Setup.Done(ReadyHandle(s))
    ensures Tuned(s, done, closing).1.Cancelled? || Tuned(s, done, closing).1.Failed? ==>
              Tuned(s, done, closing).0 == Idle(ReadyHandle(s))
    ensures Complete(s, done).1.Ready? <==> done == Report(done.op, None) && s.Connecting? && s.op == done.op && s.intent.Live?
    ensures Complete(s, done).1.Ready? || Complete(s, done).1.Cancelled? ==>
              (s.Connecting? || s.ConnectingCancelled?) && Complete(s, done).0 == Connected(s.socket, s.stored)
    ensures Complete(s, done).1.Failed? ==>
              (s.Connecting? || s.ConnectingCancelled?) && Complete(s, done).0 == IdleTargeted(s.socket, s.stored)
  {
  }

  /** The socket a creation waits for goes straight into its connection; if that is refused, so is the setup, which keeps both. */
  lemma CreatedMeans(s: Setup, made: Handle, connect: Result<Token, nat>)
    ensures match s
            case CreatingTargeted(socket, stored) =>
              if made != socket then Created(s, made, connect) == (s, Pending) else
              (match connect
               case Ok(op) => Created(s, made, connect) == (Connecting(socket, op, stored, Live), Pending)
               case Err(cause) => Created(s, made, connect) == (IdleTargeted(socket, stored), Refused(cause)))
            case _ => Created(s, made, connect) == (s, Pending)
  {
  }

  /** A failed completion reports the kernel's own error. */
  lemma FailureIsReported(s: Setup, done: Report, closing: bool)
    requires done.error.Some? && Pendings(s) == {done.op}
    ensures s.Tuning? || s.TuningCancelled? ==> Tuned(s, done, closing) == (Idle(s.socket), Failed(done.error.value))
    ensures s.Connecting? || s.ConnectingCancelled? ==>
              Complete(s, done) == (IdleTargeted(s.socket, s.stored), Failed(done.error.value))
  {
    assert done.op in Pendings(s);
  }

  /**
    A cancellation that found no room changes nothing and is to be retried; one that was accepted, or
    declined by a connection, is settled: asking again only waits, and a success reports it cancelled.
  */
  lemma CancelMeans(s: Setup, answer: Answer, op: Token)
    ensures s.Tuning? || (s.Connecting? && s.intent == Live) ==>
              var r := Cancel(s, answer);
              if answer == Full || (answer == Declined && s.Tuning?) then r == (s, Retry)
              else
                && r.1 == (if answer == Accepted then Waits else Denied) && Pendings(r.0) == Pendings(s)
                && Cancel(r.0, answer) == (r.0, Waits)
                && (op == s.op && s.Tuning? ==> Tuned(r.0, Report(op, None), false) == (Idle(s.socket), Cancelled))
                && (op == s.op && s.Connecting? ==> Complete(r.0, Report(op, None)) == (Connected(s.socket, s.stored), Cancelled))
    ensures !s.Tuning? && !(s.Connecting? && s.intent == Live) ==>
              Cancel(s, answer) == (s, if Pendings(s) == {} then NothingPending else Waits)
  {
  }

  lemma StepKeepsTitles(w: World, op: Op)
    requires Good(w)
    ensures Titles(Step(w, op)) == Titles(w)
  {
    match op {
      case OnCreated(made, connect) => TransitionsKeepTitle(w.cell, Report(0, None), false, made, connect, Full);
      case OnTuned(done, closing) => TransitionsKeepTitle(w.cell, done, closing, 0, Err(0), Full);
      case OnConnected(done) => TransitionsKeepTitle(w.cell, done, false, 0, Err(0), Full);
      case TryCancel(answer) => TransitionsKeepTitle(w.cell, Report(0, None), false, 0, Err(0), answer);
      case Take =>
      case PutBack =>
      case RetireTaken => if w.taken.Some? { RestoreUndoesRetire(w.taken.value); RetireKeepsTitle(w.taken.value); }
      case RestoreClose => if w.close.Some? { RetireUndoesRestore(w.close.value); }
      case CloseNow =>
    }
  }

  lemma RetireKeepsTitle(s: Setup)
    ensures RetireSetup(s).Retired? ==> TitleOf(s) == Some(ClosingTitle(RetireSetup(s).close))
  {
  }

  lemma CompletionIsGood(w: World, op: Op)
    requires Good(w) && (op.OnTuned? || op.OnConnected?)
    ensures Good(Step(w, op))
  {
    StaleChangesNothing(w.cell, op.done, if op.OnTuned? then op.closing else false);
  }

  lemma CancelIsGood(w: World, answer: Answer)
    requires Good(w)
    ensures Good(Step(w, TryCancel(answer)))
  {
  }

  lemma CreatedIsGood(w: World, made: Handle, connect: Result<Token, nat>)
    requires Good(w) && Admits(w, OnCreated(made, connect))
    ensures Good(Step(w, OnCreated(made, connect)))
  {
  }

  lemma StepIsGood(w: World, op: Op)
    requires Good(w) && Admits(w, op)
    ensures Good(Step(w, op))
  {
    match op {
      case OnCreated(made, connect) => CreatedIsGood(w, made, connect);
      case OnTuned(done, closing) => CompletionIsGood(w, op);
      case OnConnected(done) => CompletionIsGood(w, op);
      case TryCancel(answer) => CancelIsGood(w, answer);
      case Take =>
      case PutBack =>
      case RetireTaken => if w.taken.Some? { RestoreUndoesRetire(w.taken.value); }
      case RestoreClose => if w.close.Some? { RetireUndoesRestore(w.close.value); }
      case CloseNow =>
    }
  }

  lemma {:induction false} RunIsGood(s: Setup, ops: seq<Op>)
    requires Initial(s) && Runs(Start(s), ops)
    ensures Good(Run(Start(s), ops))
    ensures Titles(Run(Start(s), ops)) == Titles(Start(s))
  {
    if ops != [] {
      RunIsGood(s, ops[..|ops| - 1]);
      StepIsGood(Run(Start(s), ops[..|ops| - 1]), ops[|ops| - 1]);
      StepKeepsTitles(Run(Start(s), ops[..|ops| - 1]), ops[|ops| - 1]);
    }
  }

  /**
    Through every run, from a creation as from an accepted socket, the socket and the target stored for
    it, if any, stay together with exactly one holder, and are released once; what is closing or
    released has no operation running in the kernel.
  */
  lemma OwnedOnce(s: Setup, ops: seq<Op>)
    requires Initial(s) && Runs(Start(s), ops)
    ensures var w := Run(Start(s), ops);
            && Titles(w) == AsSeq(TitleOf(s)) && |Titles(w)| == 1
            && (w.close.Some? ==> w.cell.Detached? && w.taken.None? && w.released == [])
            && (w.close.Some? || w.released != [] ==> w.running == {})
  {
    RunIsGood(s, ops);
  }

  /** An operation settles at most one cancellation, and one that did is never reported ready. */
  lemma CancelledIsNeverReady(s: Setup, ops: seq<Op>, answer: Answer, closing: bool)
    requires Initial(s) && Runs(Start(s), ops)
    ensures var w := Run(Start(s), ops);
            && (forall i, j | 0 <= i < j < |w.asked| :: w.asked[i] != w.asked[j])
            && (Pendings(w.cell) != {} && w.cell.op in w.asked ==> !Asks(w.cell) && Step(w, TryCancel(answer)) == w)
            && (forall t | t in w.asked :: t !in w.ready)
            && (forall done: Report | done.op in w.asked ::
                  !Complete(w.cell, done).1.Ready? && !Tuned(w.cell, done, closing).1.Ready?)
  {
    RunIsGood(s, ops);
  }
}
