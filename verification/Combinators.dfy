/**
  Fibers composed by `Race`, `Join` and `Task` under a budget of credits: who is polled when, who
  pays for it, and that nothing is polled after it has completed.
*/
module Combinators {
  import opened Outcomes

  datatype Value = Atom(n: int) | Either(side: Side, v: Value) | Both(l: Value, r: Value)

  datatype Side = Left | Right {
    function Other(): Side { if Left? then Right else Left }
  }

  /** What an elementary fiber does when polled: credits it asks for, and its output if it completes. */
  datatype Move = Move(wants: nat, done: Option<Value>)

  /**
    A fiber and how often it was polled. An elementary one follows its script. It and a race know when
    they have completed; a completed join has been emptied, and a completed task stays pollable.
  */
  datatype Fiber =
    | Leaf(polls: nat, script: seq<Move>, finished: bool)
    | Race(polls: nat, left: Fiber, right: Fiber, resume: Side, finished: bool)
    | Join(polls: nat, first: Slot, second: Slot, next: Side)
    | Task(polls: nat, state: Option<Fiber>)

  /** A child of a join: running, completed with an output still kept, or emptied. */
  datatype Slot = Live(fiber: Fiber) | Staged(output: Value) | Vacant

  /**
    The turn a poll runs in. Every descent takes it over from the one before, so what happens to a
    fiber stays on record after the fiber is dropped: credits left, whether another poll was asked
    for, credits paid by combinators and spent by elementary fibers, polls of combinators of two
    children, and polls of elementary fibers, races and joins that had completed.
  */
  datatype Turn = Turn(credits: nat, requeue: bool, paid: nat, spent: nat, composites: nat, misuses: nat) {
    /** A poll of a combinator of two children, counted as a misuse if that has completed. */
    function Entered(finished: bool): Turn {
      this.(composites := composites + 1, misuses := misuses + if finished then 1 else 0)
    }

    /** One credit for another descent. */
    function Paid(): Turn
      requires credits > 0
    {
      this.(credits := credits - 1, paid := paid + 1)
    }

    function Refused(): Turn { this.(requeue := true) }
  }

  datatype Outcome = Outcome(fiber: Fiber, turn: Turn, result: Option<Value>)

  function PollLeaf(f: Fiber, t: Turn): Outcome
    requires f.Leaf?
  {
    if f.finished then Outcome(Leaf(f.polls + 1, f.script, true), t.(misuses := t.misuses + 1), None)
    else if f.script == [] then Outcome(Leaf(f.polls + 1, [], false), t, None)
    else
      var move := f.script[0];
      var spent := if move.wants <= t.credits then move.wants else t.credits;
      Outcome(Leaf(f.polls + 1, f.script[1..], move.done.Some?),
              t.(credits := t.credits - spent, spent := t.spent + spent, requeue := t.requeue || move.wants > t.credits),
              move.done)
  }

  /** The first child uses the credit of the call; the second pays its own, or is skipped and asked for again. */
  function Poll(f: Fiber, t: Turn): Outcome
    decreases f
  {
    match f
    case Leaf(_, _, _) => PollLeaf(f, t)
    case Task(polls, None) => Outcome(Task(polls + 1, None), t, None)
    case Task(polls, Some(inner)) =>
      var o := Poll(inner, t);
      Outcome(Task(polls + 1, if o.result.Some? then None else Some(o.fiber)), o.turn, o.result)
    case Race(polls, left, right, Left, finished) =>
      var a := Poll(left, t.Entered(finished));
      if a.result.Some? then Outcome(Race(polls + 1, a.fiber, right, Left, true), a.turn, Some(Either(Left, a.result.value)))
      else if a.turn.credits == 0 then Outcome(Race(polls + 1, a.fiber, right, Right, finished), a.turn.Refused(), None)
      else
        var b := Poll(right, a.turn.Paid());
        if b.result.Some?
        then Outcome(Race(polls + 1, a.fiber, b.fiber, Right, true), b.turn, Some(Either(Right, b.result.value)))
        else Outcome(Race(polls + 1, a.fiber, b.fiber, Left, finished), b.turn, None)
    case Race(polls, left, right, Right, finished) =>
      var a := Poll(right, t.Entered(finished));
      if a.result.Some? then Outcome(Race(polls + 1, left, a.fiber, Right, true), a.turn, Some(Either(Right, a.result.value)))
      else if a.turn.credits == 0 then Outcome(Race(polls + 1, left, a.fiber, Left, finished), a.turn.Refused(), None)
      else
        var b := Poll(left, a.turn.Paid());
        if b.result.Some?
        then Outcome(Race(polls + 1, b.fiber, a.fiber, Left, true), b.turn, Some(Either(Left, b.result.value)))
        else Outcome(Race(polls + 1, b.fiber, a.fiber, Left, finished), b.turn, None)
    case Join(polls, first, second, Left) =>
      var a := PollSlot(first, t.Entered(first.Vacant? || second.Vacant?), true);
      var b := PollSlot(second, a.turn, !first.Live?);
      Joined(polls + 1, a.slot, b.slot, Right, b.turn)
    case Join(polls, first, second, Right) =>
      var a := PollSlot(second, t.Entered(first.Vacant? || second.Vacant?), true);
      var b := PollSlot(first, a.turn, !second.Live?);
      Joined(polls + 1, b.slot, a.slot, Left, b.turn)
  }

  datatype Child = Child(slot: Slot, turn: Turn)

  /** Whether a poll of a join reaches this child. */
  predicate Reached(s: Slot, t: Turn, free: bool) {
    s.Live? && (free || t.credits > 0)
  }

  /** The turn a child is polled with: the join's own the first time, a paid one after. */
  function Given(t: Turn, free: bool): Turn
    requires free || t.credits > 0
  {
    if free then t else t.Paid()
  }

  function PollSlot(s: Slot, t: Turn, free: bool): Child
    decreases s
  {
    if !s.Live? then Child(s, t)
    else if !free && t.credits == 0 then Child(s, t.Refused())
    else
      var o := Poll(s.fiber, Given(t, free));
      Child(if o.result.Some? then Staged(o.result.value) else Live(o.fiber), o.turn)
  }

  function Joined(polls: nat, first: Slot, second: Slot, next: Side, t: Turn): Outcome {
    if first.Staged? && second.Staged?
    then Outcome(Join(polls, Vacant, Vacant, next), t, Some(Both(first.output, second.output)))
    else Outcome(Join(polls, first, second, next), t, None)
  }

  /** The turn as a combinator of two children hands it to the first of them. */
  function Entry(f: Fiber, t: Turn): Turn
    requires f.Race? || f.Join?
  {
    t.Entered(if f.Race? then f.finished else f.first.Vacant? || f.second.Vacant?)
  }

  // ----- Nothing is polled after it completed -----

  /** May be polled: nothing in it has completed, apart from emptied tasks and kept outputs of a join. */
  predicate Safe(f: Fiber)
    decreases f
  {
    match f
    case Leaf(_, _, finished) => !finished
    case Race(_, l, r, _, finished) => !finished && Safe(l) && Safe(r)
    case Join(_, a, b, _) => SafeSlot(a) && SafeSlot(b)
    case Task(_, inner) => inner.Some? ==> Safe(inner.value)
  }

  predicate SafeSlot(s: Slot)
    decreases s
  {
    !s.Vacant? && (s.Live? ==> Safe(s.fiber))
  }

  /** A fiber whose next poll would be a misuse. */
  predicate Completed(f: Fiber) {
    match f
    case Leaf(_, _, finished) => finished
    case Race(_, _, _, _, finished) => finished
    case Join(_, a, b, _) => a.Vacant? || b.Vacant?
    case Task(_, _) => false
  }

  lemma {:induction false} TurnGrows(f: Fiber, t: Turn)
    ensures Poll(f, t).turn.misuses >= t.misuses
    decreases f
  {
    match f {
      case Leaf(_, _, _) =>
      case Task(_, inner) => if inner.Some? { TurnGrows(inner.value, t); }
      case Race(_, l, r, side, _) =>
        var x, y := if side.Left? then l else r, if side.Left? then r else l;
        var a := Poll(x, Entry(f, t));
        TurnGrows(x, Entry(f, t));
        if a.result.None? && a.turn.credits > 0 { TurnGrows(y, a.turn.Paid()); }
      case Join(_, a, b, side) =>
        var x, y := if side.Left? then a else b, if side.Left? then b else a;
        SlotTurnGrows(x, Entry(f, t), true);
        SlotTurnGrows(y, PollSlot(x, Entry(f, t), true).turn, !x.Live?);
    }
  }

  lemma {:induction false} SlotTurnGrows(s: Slot, t: Turn, free: bool)
    ensures PollSlot(s, t, free).turn.misuses >= t.misuses
    decreases s
  {
    if Reached(s, t, free) { TurnGrows(s.fiber, Given(t, free)); }
  }

  /** Polling a completed fiber goes on the record, whatever it does besides. */
  lemma MisuseIsRecorded(f: Fiber, t: Turn)
    requires Completed(f)
    ensures Poll(f, t).turn.misuses > t.misuses
  {
    match f {
      case Leaf(_, _, _) =>
      case Race(_, l, r, side, _) =>
        var x, y := if side.Left? then l else r, if side.Left? then r else l;
        var a := Poll(x, Entry(f, t));
        TurnGrows(x, Entry(f, t));
        if a.result.None? && a.turn.credits > 0 { TurnGrows(y, a.turn.Paid()); }
      case Join(_, a, b, side) =>
        var x, y := if side.Left? then a else b, if side.Left? then b else a;
        SlotTurnGrows(x, Entry(f, t), true);
        SlotTurnGrows(y, PollSlot(x, Entry(f, t), true).turn, !x.Live?);
    }
  }

  /** One poll of a safe fiber, in any turn, polls nothing that has completed; until it is ready it stays safe. */
  lemma {:induction false} PollIsSafe(f: Fiber, t: Turn)
    requires Safe(f)
    ensures Poll(f, t).turn.misuses == t.misuses
    ensures Poll(f, t).result.None? || f.Task? ==> Safe(Poll(f, t).fiber)
    ensures Poll(f, t).result.Some? && !f.Task? ==> Completed(Poll(f, t).fiber)
    decreases f
  {
    match f {
      case Leaf(_, _, _) =>
      case Task(_, inner) => if inner.Some? { PollIsSafe(inner.value, t); }
      case Race(_, l, r, side, _) =>
        var x, y := if side.Left? then l else r, if side.Left? then r else l;
        var a := Poll(x, Entry(f, t));
        PollIsSafe(x, Entry(f, t));
        if a.result.None? && a.turn.credits > 0 { PollIsSafe(y, a.turn.Paid()); }
      case Join(_, a, b, side) =>
        var x, y := if side.Left? then a else b, if side.Left? then b else a;
        SlotIsSafe(x, Entry(f, t), true);
        SlotIsSafe(y, PollSlot(x, Entry(f, t), true).turn, !x.Live?);
    }
  }

  lemma {:induction false} SlotIsSafe(s: Slot, t: Turn, free: bool)
    requires SafeSlot(s)
    ensures SafeSlot(PollSlot(s, t, free).slot) && PollSlot(s, t, free).turn.misuses == t.misuses
    decreases s
  {
    if Reached(s, t, free) { PollIsSafe(s.fiber, Given(t, free)); }
  }

  /** The same turn with a new budget, as the next one gives it. */
  function Renewed(t: Turn, credits: nat): Turn {
    t.(credits := credits, requeue := false)
  }

  /** A root polled until it is ready, each time with the next budget. */
  function Driven(f: Fiber, t: Turn, budgets: seq<nat>): Outcome
    decreases |budgets|
  {
    if budgets == [] then Outcome(f, t, None) else
    var o := Poll(f, Renewed(t, budgets[0]));
    if o.result.Some? then o else Driven(o.fiber, o.turn, budgets[1..])
  }

  /** Whatever the composition and the budgets, nothing is polled after completing, up to the root's own completion. */
  lemma {:induction false} NeverPolledAfterReady(f: Fiber, t: Turn, budgets: seq<nat>)
    requires Safe(f)
    ensures Driven(f, t, budgets).turn.misuses == t.misuses
    decreases |budgets|
  {
    if budgets != [] {
      var o := Poll(f, Renewed(t, budgets[0]));
      PollIsSafe(f, Renewed(t, budgets[0]));
      if o.result.None? { NeverPolledAfterReady(o.fiber, o.turn, budgets[1..]); }
    }
  }

  // ----- Credits -----

  /** All credits, wherever they went. */
  function Credits(t: Turn): nat { t.credits + t.paid + t.spent }

  /** No credit is lost or made, and in all no more are paid than combinators of two children are polled. */
  lemma {:induction false} CreditsAreConserved(f: Fiber, t: Turn)
    ensures var u := Poll(f, t).turn; Credits(u) == Credits(t) && u.paid - t.paid <= u.composites - t.composites
    decreases f
  {
    match f {
      case Leaf(_, _, _) =>
      case Task(_, inner) => if inner.Some? { CreditsAreConserved(inner.value, t); }
      case Race(_, l, r, side, _) =>
        var x, y := if side.Left? then l else r, if side.Left? then r else l;
        var a := Poll(x, Entry(f, t));
        CreditsAreConserved(x, Entry(f, t));
        if a.result.None? && a.turn.credits > 0 { CreditsAreConserved(y, a.turn.Paid()); }
      case Join(_, a, b, side) =>
        var x, y := if side.Left? then a else b, if side.Left? then b else a;
        SlotConserves(x, Entry(f, t), true);
        SlotConserves(y, PollSlot(x, Entry(f, t), true).turn, !x.Live?);
    }
  }

  lemma {:induction false} SlotConserves(s: Slot, t: Turn, free: bool)
    ensures var u := PollSlot(s, t, free).turn;
            Credits(u) == Credits(t) && u.paid - t.paid <= u.composites - t.composites + (if free then 0 else 1)
    decreases s
  {
    if Reached(s, t, free) { CreditsAreConserved(s.fiber, Given(t, free)); }
  }

  /** The descents one poll of a race or a join makes itself, each with the turn it hands down. */
  function Descents(f: Fiber, t: Turn): seq<(Fiber, Turn)>
    requires f.Race? || f.Join?
  {
    if f.Race? then
      var x, y := if f.resume.Left? then f.left else f.right, if f.resume.Left? then f.right else f.left;
      var a := Poll(x, Entry(f, t));
      [(x, Entry(f, t))] + if a.result.None? && a.turn.credits > 0 then [(y, a.turn.Paid())] else []
    else
      var x, y := Near(f), Far(f);
      var u := PollSlot(x, Entry(f, t), true).turn;
      (if x.Live? then [(x.fiber, Entry(f, t))] else [])
      + if Reached(y, u, !x.Live?) then [(y.fiber, Given(u, !x.Live?))] else []
  }

  /** The credits combinators pay below a list of descents. */
  function PaidBelow(descents: seq<(Fiber, Turn)>): int {
    if descents == [] then 0 else
    Poll(descents[0].0, descents[0].1).turn.paid - descents[0].1.paid + PaidBelow(descents[1..])
  }

  /** Beyond what its children pay, one poll of a race or a join costs one credit if it makes two descents, else none. */
  lemma OnePollOneCredit(f: Fiber, t: Turn)
    requires f.Race? || f.Join?
    ensures var ds := Descents(f, t);
            |ds| <= 2 && Poll(f, t).turn.paid - t.paid == PaidBelow(ds) + if |ds| == 2 then 1 else 0
  {
    var ds := Descents(f, t);
    assert |ds| == 2 ==> PaidBelow(ds[1..]) == Poll(ds[1].0, ds[1].1).turn.paid - ds[1].1.paid;
    if f.Race? { if f.resume.Left? {} else {} } else { JoinSteps(f, t); }
  }

  // ----- Fairness -----

  lemma PollCounts(f: Fiber, t: Turn)
    ensures Poll(f, t).fiber.polls == f.polls + 1
  {
    match f {
      case Leaf(_, _, _) =>
      case Task(_, inner) =>
      case Race(_, _, _, side, _) => if side.Left? {} else {}
      case Join(_, _, _, side) => if side.Left? {} else {}
    }
  }

  /** A request to be polled again is never taken back within a turn. */
  lemma {:induction false} RequeueStays(f: Fiber, t: Turn)
    requires t.requeue
    ensures Poll(f, t).turn.requeue
    decreases f
  {
    match f {
      case Leaf(_, _, _) =>
      case Task(_, inner) => if inner.Some? { RequeueStays(inner.value, t); }
      case Race(_, l, r, side, _) =>
        var x, y := if side.Left? then l else r, if side.Left? then r else l;
        var a := Poll(x, Entry(f, t));
        RequeueStays(x, Entry(f, t));
        if a.result.None? && a.turn.credits > 0 { RequeueStays(y, a.turn.Paid()); }
      case Join(_, a, b, side) =>
        var x, y := if side.Left? then a else b, if side.Left? then b else a;
        SlotRequeueStays(x, Entry(f, t), true);
        SlotRequeueStays(y, PollSlot(x, Entry(f, t), true).turn, !x.Live?);
    }
  }

  lemma {:induction false} SlotRequeueStays(s: Slot, t: Turn, free: bool)
    requires t.requeue
    ensures PollSlot(s, t, free).turn.requeue
    decreases s
  {
    if Reached(s, t, free) { RequeueStays(s.fiber, Given(t, free)); }
  }

  /** The preferred child is always polled; a skipped one is preferred next and asks to be polled again. */
  lemma RacePolls(f: Fiber, t: Turn)
    requires f.Race? && Poll(f, t).result.None?
    ensures var o := Poll(f, t);
            && o.fiber.Race?
            && (f.resume.Left? ==> o.fiber.left.polls == f.left.polls + 1)
            && (f.resume.Right? ==> o.fiber.right.polls == f.right.polls + 1)
            && o.fiber.left.polls >= f.left.polls && o.fiber.right.polls >= f.right.polls
            && (o.fiber.left.polls == f.left.polls ==> o.fiber.resume.Left? && o.turn.requeue)
            && (o.fiber.right.polls == f.right.polls ==> o.fiber.resume.Right? && o.turn.requeue)
  {
    var x, y := if f.resume.Left? then f.left else f.right, if f.resume.Left? then f.right else f.left;
    PollCounts(x, Entry(f, t));
    var a := Poll(x, Entry(f, t));
    if a.turn.credits > 0 { PollCounts(y, a.turn.Paid()); }
  }

  /** Two polls in a row, however poor, poll both children of an undecided race. */
  lemma RaceIsFair(f: Fiber, t: Turn, u: Turn)
    requires f.Race? && Poll(f, t).result.None? && Poll(Poll(f, t).fiber, u).result.None?
    ensures var g := Poll(Poll(f, t).fiber, u).fiber;
            g.Race? && g.left.polls > f.left.polls && g.right.polls > f.right.polls
  {
    RacePolls(f, t);
    RacePolls(Poll(f, t).fiber, u);
  }

  lemma SlotPolls(s: Slot, t: Turn, free: bool)
    ensures var o := PollSlot(s, t, free);
            && (o.slot.Live? ==> s.Live? && o.slot.fiber.polls == s.fiber.polls + (if free || t.credits > 0 then 1 else 0))
            && (s.Staged? ==> o.slot == s && o.turn == t)
            && (s.Live? && !free && t.credits == 0 ==> o.slot == s && o.turn.requeue)
  {
    if Reached(s, t, free) { PollCounts(s.fiber, Given(t, free)); }
  }

  /** The child a join turns to first, and the other. */
  function Near(f: Fiber): Slot
    requires f.Join?
  {
    if f.next.Left? then f.first else f.second
  }

  function Far(f: Fiber): Slot
    requires f.Join?
  {
    if f.next.Left? then f.second else f.first
  }

  /** What the two children become; the sides alternate. */
  lemma JoinSteps(f: Fiber, t: Turn)
    requires f.Join?
    ensures var a := PollSlot(Near(f), Entry(f, t), true);
            var b := PollSlot(Far(f), a.turn, !Near(f).Live?);
            && Poll(f, t).turn == b.turn && Poll(f, t).fiber.Join? && Poll(f, t).fiber.next == f.next.Other()
            && (Poll(f, t).result.Some? <==> a.slot.Staged? && b.slot.Staged?)
            && (Poll(f, t).result.None? ==> Far(Poll(f, t).fiber) == a.slot && Near(Poll(f, t).fiber) == b.slot)
            && (Poll(f, t).result.Some? ==>
                  Poll(f, t).result.value == if f.next.Left? then Both(a.slot.output, b.slot.output) else Both(b.slot.output, a.slot.output))
  {
    if f.next.Left? {} else {}
  }

  /** The child turned to first is polled if it runs; the other too unless credit is short, and then it asks again. */
  lemma JoinPolls(f: Fiber, t: Turn)
    requires f.Join? && Poll(f, t).result.None?
    ensures var g := Poll(f, t).fiber;
            && g.Join? && g.next == f.next.Other()
            && (Far(g).Live? ==> Near(f).Live? && Far(g).fiber.polls == Near(f).fiber.polls + 1)
            && (Near(g).Live? ==> Far(f).Live? && Far(f).fiber.polls <= Near(g).fiber.polls <= Far(f).fiber.polls + 1)
            && (Near(g).Live? && Near(g).fiber.polls == Far(f).fiber.polls ==> Poll(f, t).turn.requeue)
            && (Near(f).Staged? ==> Far(g) == Near(f)) && (Far(f).Staged? ==> Near(g) == Far(f))
  {
    JoinSteps(f, t);
    SlotPolls(Near(f), Entry(f, t), true);
    SlotPolls(Far(f), PollSlot(Near(f), Entry(f, t), true).turn, !Near(f).Live?);
  }

  /** Two polls in a row poll every child of a join that is still running after them. */
  lemma JoinIsFair(f: Fiber, t: Turn, u: Turn)
    requires f.Join? && Poll(f, t).result.None? && Poll(Poll(f, t).fiber, u).result.None?
    ensures var g := Poll(Poll(f, t).fiber, u).fiber;
            && g.Join?
            && (g.first.Live? ==> f.first.Live? && g.first.fiber.polls > f.first.fiber.polls)
            && (g.second.Live? ==> f.second.Live? && g.second.fiber.polls > f.second.fiber.polls)
  {
    JoinPolls(f, t);
    JoinPolls(Poll(f, t).fiber, u);
  }

  /**
    A race returns the output of the child it turns to first, on that child's side, if it completes; else
    that of the other, on the other side, if credit is left for it and it completes in the turn paid for.
  */
  lemma RaceReturns(f: Fiber, t: Turn)
    requires f.Race?
    ensures var a := Poll(if f.resume == Left then f.left else f.right, Entry(f, t));
            Poll(f, t).result
            == if a.result.Some? then Some(if f.resume == Left then Either(Left, a.result.value) else Either(Right, a.result.value))
               else if a.turn.credits == 0 then None
               else
                 var b := Poll(if f.resume == Left then f.right else f.left, a.turn.Paid());
                 if b.result.None? then None
                 else Some(if f.resume == Left then Either(Right, b.result.value) else Either(Left, b.result.value))
  {
    if f.resume.Left? {} else {}
  }

  /** What a race leaves: both children as their polls left them, completed exactly if it has returned. */
  lemma RaceSteps(f: Fiber, t: Turn)
    requires f.Race?
    ensures var a := Poll(if f.resume == Left then f.left else f.right, Entry(f, t));
            var reached := a.result.None? && a.turn.credits > 0;
            var b := if reached then Poll(if f.resume == Left then f.right else f.left, a.turn.Paid()) else a;
            && Poll(f, t).fiber.Race? && Poll(f, t).turn == (if reached || a.result.Some? then b.turn else a.turn.Refused())
            && (f.resume == Left ==>
                  Poll(f, t).fiber.left == a.fiber && Poll(f, t).fiber.right == if reached then b.fiber else f.right)
            && (f.resume == Right ==>
                  Poll(f, t).fiber.right == a.fiber && Poll(f, t).fiber.left == if reached then b.fiber else f.left)
            && Poll(f, t).fiber.finished == (f.finished || Poll(f, t).result.Some?)
            && (Poll(f, t).result == None ==>
                  Poll(f, t).fiber.resume == if reached then Left else if f.resume == Left then Right else Left)
  {
    if f.resume.Left? {} else {}
  }

  /** A task returns what its fiber returns, is emptied by it, and stays pending ever after. */
  lemma TaskReturns(f: Fiber, t: Turn)
    requires f.Task?
    ensures var o := Poll(f, t);
            match f.state
            case None => o.result == None && o.fiber == f.(polls := f.polls + 1) && o.turn == t
            case Some(inner) =>
              && o.result == Poll(inner, t).result && o.turn == Poll(inner, t).turn
              && o.fiber == Task(f.polls + 1, if o.result == None then Some(Poll(inner, t).fiber) else None)
  {
  }

  /**
    An elementary fiber makes the next move of its script: it spends what it asks for as far as credit
    goes, asks to be polled again if that falls short, and returns what the move does.
  */
  lemma LeafReturns(f: Fiber, t: Turn)
    requires f.Leaf? && !f.finished
    ensures var o, short := Poll(f, t), f.script != [] && f.script[0].wants > t.credits;
            && o.result == (if f.script == [] then None else f.script[0].done)
            && o.fiber == Leaf(f.polls + 1, if f.script == [] then [] else f.script[1..], o.result != None)
            && o.turn.credits == (if f.script == [] then t.credits else if short then 0 else t.credits - f.script[0].wants)
            && o.turn.requeue == (t.requeue || short)
            && o.turn.spent == t.spent + t.credits - o.turn.credits && o.turn.paid == t.paid && o.turn.misuses == t.misuses
  {
  }

  /** The output a slot keeps, or the one its fiber completes with in the turn it is given. */
  function OutputOf(s: Slot, t: Turn, free: bool): Option<Value> {
    if s.Staged? then Some(s.output) else if Reached(s, t, free) then Poll(s.fiber, Given(t, free)).result else None
  }

  /** A join is ready exactly with the outputs of its two children, each in the turn it was given, left one first. */
  lemma JoinReturnsBoth(f: Fiber, t: Turn)
    requires f.Join?
    ensures var near := OutputOf(Near(f), Entry(f, t), true);
            var far := OutputOf(Far(f), PollSlot(Near(f), Entry(f, t), true).turn, !Near(f).Live?);
            Poll(f, t).result
            == if near.None? || far.None? then None
               else Some(if f.next.Left? then Both(near.value, far.value) else Both(far.value, near.value))
  {
    JoinSteps(f, t);
  }

  /** An output kept from an earlier poll is the one the join returns in the end, on its own side. */
  lemma {:induction false} StagedIsReturned(f: Fiber, t: Turn, budgets: seq<nat>)
    requires f.Join? && !f.first.Vacant? && !f.second.Vacant? && Driven(f, t, budgets).result.Some?
    ensures Driven(f, t, budgets).result.value.Both?
    ensures f.first.Staged? ==> Driven(f, t, budgets).result.value.l == f.first.output
    ensures f.second.Staged? ==> Driven(f, t, budgets).result.value.r == f.second.output
    decreases |budgets|
  {
    var u := Renewed(t, budgets[0]);
    var o := Poll(f, u);
    JoinReturnsBoth(f, u);
    if o.result.None? {
      JoinSteps(f, u);
      JoinPolls(f, u);
      StagedIsReturned(o.fiber, o.turn, budgets[1..]);
    }
  }

  // ----- The combinators as they are kept -----

  class Context {
    var turn: Turn

    constructor (turn: Turn)
      ensures this.turn == turn
    {
      this.turn := turn;
    }

    /** Pays one credit for another descent; without one it asks to be polled again. */
    method TryContinue() returns (admitted: bool)
      modifies this
      ensures admitted <==> old(turn.credits) > 0
      ensures turn == if admitted then old(turn).Paid() else old(turn).Refused()
    {
      admitted := turn.credits > 0;
      turn := if admitted then turn.Paid() else turn.Refused();
    }

    /** Descends into a fiber on the credit already held. */
    method Delegate(f: Fiber) returns (g: Fiber, result: Option<Value>)
      modifies this
      ensures Outcome(g, turn, result) == Poll(f, old(turn))
    {
      var o := Poll(f, turn);
      g, result, turn := o.fiber, o.result, o.turn;
    }

    /** Records a poll of a combinator of two children. */
    method Enter(finished: bool)
      modifies this
      ensures turn == old(turn).Entered(finished)
    {
      turn := turn.Entered(finished);
    }
  }

  class RaceFiber {
    var polls: nat
    var left: Fiber
    var right: Fiber
    var resume: Side
    /** Kept for the record: completion ends the right to poll a race. */
    var finished: bool

    function View(): Fiber
      reads this
    {
      Race(polls, left, right, resume, finished)
    }

    constructor (left: Fiber, right: Fiber)
      ensures View() == Race(0, left, right, Left, false)
    {
      polls, this.left, this.right, resume, finished := 0, left, right, Left, false;
    }

    method Finish(side: Side, output: Value) returns (result: Option<Value>)
      modifies `finished
      ensures finished && result == Some(Either(side, output))
    {
      finished := true;
      result := Some(Either(side, output));
    }

    method PollWith(context: Context) returns (result: Option<Value>)
      modifies this, context
      ensures Outcome(View(), context.turn, result) == Poll(old(View()), old(context.turn))
    {
      polls := polls + 1;
      context.Enter(finished);
      var out: Option<Value>;
      match resume {
        case Left =>
          left, out := context.Delegate(left);
          if out.Some? {
            result := Finish(Left, out.value);
            return;
          }
          resume := Right;
          var admitted := context.TryContinue();
          if !admitted { return None; }
          right, out := context.Delegate(right);
          if out.Some? {
            result := Finish(Right, out.value);
            return;
          }
          resume := Left;
          result := None;
        case Right =>
          right, out := context.Delegate(right);
          if out.Some? {
            result := Finish(Right, out.value);
            return;
          }
          resume := Left;
          var admitted := context.TryContinue();
          if !admitted { return None; }
          left, out := context.Delegate(left);
          if out.Some? {
            result := Finish(Left, out.value);
            return;
          }
          result := None;
      }
    }
  }

  class JoinFiber {
    var polls: nat
    var left: Slot
    var right: Slot
    var next: Side

    function View(): Fiber
      reads this
    {
      Join(polls, left, right, next)
    }

    constructor (left: Fiber, right: Fiber)
      ensures View() == Join(0, Live(left), Live(right), Left)
    {
      polls, this.left, this.right, next := 0, Live(left), Live(right), Left;
    }

    /** Polls a running child, on the join's own credit while `free` is still set. */
    static method PollChild(s: Slot, context: Context, free: bool) returns (t: Slot, still: bool)
      modifies context
      ensures Child(t, context.turn) == PollSlot(s, old(context.turn), free)
      ensures still == (free && !s.Live?)
    {
      if !s.Live? { return s, free; }
      still := false;
      if !free {
        var admitted := context.TryContinue();
        if !admitted { return s, false; }
      }
      var f, out := context.Delegate(s.fiber);
      t := if out.Some? then Staged(out.value) else Live(f);
    }

    /** Takes both outputs once both are there. */
    method TakeBoth() returns (result: Option<Value>)
      modifies `left, `right
      ensures result == if old(left).Staged? && old(right).Staged? then Some(Both(old(left).output, old(right).output)) else None
      ensures (left, right) == if result.Some? then (Vacant, Vacant) else (old(left), old(right))
    {
      if !left.Staged? || !right.Staged? { return None; }
      result := Some(Both(left.output, right.output));
      left, right := Vacant, Vacant;
    }

    method PollWith(context: Context) returns (result: Option<Value>)
      modifies this, context
      ensures Outcome(View(), context.turn, result) == Poll(old(View()), old(context.turn))
    {
      polls := polls + 1;
      context.Enter(left.Vacant? || right.Vacant?);
      var side, free := next, true;
      next := side.Other();
      match side {
        case Left =>
          left, free := PollChild(left, context, free);
          right, free := PollChild(right, context, free);
        case Right =>
          right, free := PollChild(right, context, free);
          left, free := PollChild(left, context, free);
      }
      result := TakeBoth();
    }
  }

  class TaskFiber {
    var polls: nat
    var state: Option<Fiber>

    function View(): Fiber
      reads this
    {
      Task(polls, state)
    }

    constructor (fiber: Fiber)
      ensures View() == Task(0, Some(fiber))
    {
      polls, state := 0, Some(fiber);
    }

    method PollWith(context: Context) returns (result: Option<Value>)
      modifies this, context
      ensures Outcome(View(), context.turn, result) == Poll(old(View()), old(context.turn))
    {
      polls := polls + 1;
      if state.None? { return None; }
      var f, out := context.Delegate(state.value);
      state := if out.Some? then None else Some(f);
      result := out;
    }
  }
}
