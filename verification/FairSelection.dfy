/**
  Fair selection among a fixed number of work slots: the generated cycle of successors, and the
  arbiter that walks it.
*/
module FairSelection {
  import opened Outcomes

  /** A domain has between 2 and 256 slots; a slot is its position among the declared names. */
  const MIN_SLOTS: nat := 2
  const MAX_SLOTS: nat := 256

  function Names(n: nat): (s: seq<nat>)
    ensures |s| == n && forall i | 0 <= i < n :: s[i] == i
  {
    seq(n, i => i)
  }

  /** Each name beside the one it is followed by: the names, taken cyclically, skipping the first. */
  function Successors(n: nat): (table: seq<nat>)
    requires MIN_SLOTS <= n <= MAX_SLOTS
    ensures |table| == n
  {
    Names(n)[1..] + Names(n)[..1]
  }

  function Walk(n: nat, start: nat, k: nat): nat
    requires MIN_SLOTS <= n <= MAX_SLOTS && start < n
    ensures Walk(n, start, k) < n
  {
    if k == 0 then start else Successors(n)[Walk(n, start, k - 1)]
  }

  /** How many steps of the cycle lead from one slot to another. */
  function Distance(n: nat, from: nat, to: nat): nat
    requires from < n && to < n
  {
    if to >= from then to - from else to + n - from
  }

  /** From any slot the table visits every slot once before it returns. */
  lemma {:induction false} OneFullCycle(n: nat, start: nat, k: nat)
    requires MIN_SLOTS <= n <= MAX_SLOTS && start < n && k <= n
    ensures Walk(n, start, k) == if start + k < n then start + k else start + k - n
    ensures k < n ==> Distance(n, start, Walk(n, start, k)) == k
    ensures k == n ==> Walk(n, start, k) == start
  {
    if k > 0 { OneFullCycle(n, start, k - 1); }
  }

  lemma EverySlotIsReached(n: nat, start: nat, slot: nat)
    requires MIN_SLOTS <= n <= MAX_SLOTS && start < n && slot < n
    ensures Distance(n, start, slot) < n && Walk(n, start, Distance(n, start, slot)) == slot
  {
    OneFullCycle(n, start, Distance(n, start, slot));
  }

  datatype Admission<T> = Item(item: T) | Empty | Exhausted

  /** The first slot, going around from `cursor`, at which `stops` holds. */
  ghost predicate IsFirst(n: nat, cursor: nat, stops: seq<bool>, r: Option<nat>)
    requires |stops| == n && cursor < n
  {
    match r
    case None => forall s | 0 <= s < n :: !stops[s]
    case Some(s) => s < n && stops[s] && forall t | 0 <= t < n && stops[t] :: Distance(n, cursor, s) <= Distance(n, cursor, t)
  }

  /** The slots asked so far, in cycle order, all of them in vain; `at` comes next. */
  ghost predicate Searched(n: nat, cursor: nat, stops: seq<bool>, at: nat, asked: seq<nat>)
    requires |stops| == n && cursor < n
  {
    && |asked| < n && at < n && Distance(n, cursor, at) == |asked|
    && (forall i | 0 <= i < |asked| :: asked[i] < n && Distance(n, cursor, asked[i]) == i)
    && (forall t | 0 <= t < n && stops[t] :: Distance(n, cursor, t) >= |asked|)
  }

  lemma NextInCycle(n: nat, cursor: nat, at: nat)
    requires MIN_SLOTS <= n <= MAX_SLOTS && cursor < n && at < n
    ensures var b := Successors(n)[at];
            b < n && if Distance(n, cursor, at) + 1 == n then b == cursor else Distance(n, cursor, b) == Distance(n, cursor, at) + 1
  {
  }

  /** One more slot asked in vain: either that was the last, or the next one is a step further. */
  lemma SearchedOn(n: nat, cursor: nat, stops: seq<bool>, at: nat, asked: seq<nat>)
    requires MIN_SLOTS <= n <= MAX_SLOTS && |stops| == n && cursor < n && Searched(n, cursor, stops, at, asked) && !stops[at]
    ensures var b := Successors(n)[at];
            && b < n
            && if b == cursor then IsFirst(n, cursor, stops, None) else Searched(n, cursor, stops, b, asked + [at])
  {
    NextInCycle(n, cursor, at);
    forall t | 0 <= t < n && stops[t] ensures Distance(n, cursor, t) >= |asked| + 1 {
      assert t != at;
    }
  }

  /** The slots a search has asked, each once and in cycle order. */
  ghost predicate InCycleOrder(n: nat, cursor: nat, asked: seq<nat>)
    requires cursor < n
  {
    forall i | 0 <= i < |asked| :: asked[i] < n && Distance(n, cursor, asked[i]) == i
  }

  function Stops<T>(answers: seq<Admission<T>>): (s: seq<bool>)
    ensures |s| == |answers|
  {
    seq(|answers|, i requires 0 <= i < |answers| => !answers[i].Empty?)
  }

  class Arbiter {
    const slots: nat
    const next: seq<nat>
    var cursor: nat

    ghost predicate Valid()
      reads this
    {
      MIN_SLOTS <= slots <= MAX_SLOTS && next == Successors(slots) && cursor < slots
    }

    constructor (slots: nat)
      requires MIN_SLOTS <= slots <= MAX_SLOTS
      ensures Valid() && this.slots == slots && cursor == 0
    {
      this.slots, next, cursor := slots, Successors(slots), 0;
    }

    method Account(done: nat)
      requires Valid() && done < slots
      modifies this
      ensures Valid() && Distance(slots, done, cursor) == 1
    {
      NextInCycle(slots, done, done);
      cursor := next[done];
    }

    method Take() returns (at: nat)
      requires Valid()
      modifies this
      ensures Valid() && at == old(cursor) && at < slots && Distance(slots, at, cursor) == 1
    {
      at := cursor;
      Account(at);
    }

    /** Asks the slots in turn, each at most once, until one is ready. */
    method Find(ready: seq<bool>) returns (r: Option<nat>, ghost asked: seq<nat>)
      requires Valid() && |ready| == slots
      ensures IsFirst(slots, cursor, ready, r) && InCycleOrder(slots, cursor, asked)
    {
      var at := cursor;
      asked := [];
      while true
        invariant Searched(slots, cursor, ready, at, asked)
        decreases slots - |asked|
      {
        if ready[at] { return Some(at), asked + [at]; }
        SearchedOn(slots, cursor, ready, at, asked);
        asked := asked + [at];
        at := next[at];
        if at == cursor { return None, asked; }
      }
    }

    method Select(ready: seq<bool>) returns (r: Option<nat>)
      requires Valid() && |ready| == slots
      modifies this
      ensures Valid() && IsFirst(slots, old(cursor), ready, r)
      ensures if r.Some? then Distance(slots, r.value, cursor) == 1 else cursor == old(cursor)
    {
      ghost var asked;
      r, asked := Find(ready);
      if r.Some? { Account(r.value); }
    }

    /** Takes the first source that does not answer empty; an exhausted quota leaves the cursor. */
    method Admit<T>(answers: seq<Admission<T>>) returns (r: Admission<T>, ghost at: Option<nat>, ghost asked: seq<nat>)
      requires Valid() && |answers| == slots
      modifies this
      ensures Valid() && IsFirst(slots, old(cursor), Stops(answers), at) && InCycleOrder(slots, old(cursor), asked)
      ensures r == if at.Some? then answers[at.value] else Empty
      ensures if r.Item? then Distance(slots, at.value, cursor) == 1 else cursor == old(cursor)
    {
      var here := cursor;
      asked := [];
      while true
        invariant cursor == old(cursor) && Valid() && Searched(slots, cursor, Stops(answers), here, asked)
        decreases slots - |asked|
      {
        r, at := answers[here], Some(here);
        if !r.Empty? { break; }
        SearchedOn(slots, cursor, Stops(answers), here, asked);
        asked := asked + [here];
        here := next[here];
        if here == cursor { return Empty, None, asked; }
      }
      asked := asked + [here];
      if r.Item? { Account(here); }
    }
  }

  // ----- Fairness over runs -----

  /** One choice: what slots were ready, and whether the cursor's slot was taken regardless. */
  datatype Choice = Select(ready: seq<bool>) | Take

  /** `picks` are the slots a run of choices chose, and `cursors` where each of them started. */
  ghost predicate Chooses(n: nat, choices: seq<Choice>, cursors: seq<nat>, picks: seq<Option<nat>>) {
    && |cursors| == |choices| + 1 && |picks| == |choices|
    && (forall i | 0 <= i < |cursors| :: cursors[i] < n)
    && forall i | 0 <= i < |choices| :: ChoosesOnce(n, choices[i], cursors[i], picks[i], cursors[i + 1])
  }

  ghost predicate ChoosesOnce(n: nat, choice: Choice, cursor: nat, pick: Option<nat>, after: nat)
    requires cursor < n && after < n
  {
    && (match choice
        case Select(ready) => |ready| == n && IsFirst(n, cursor, ready, pick)
        case Take => pick == Some(cursor))
    && if pick.Some? then pick.value < n && Distance(n, pick.value, after) == 1 else after == cursor
  }

  predicate StaysReady(slot: nat, choice: Choice) {
    choice.Select? ==> slot < |choice.ready| && choice.ready[slot]
  }

  /** Passing another slot over brings the cursor nearer to a ready one. */
  lemma Nearer(n: nat, choice: Choice, cursor: nat, pick: Option<nat>, after: nat, slot: nat)
    requires MIN_SLOTS <= n && cursor < n && after < n && slot < n
    requires ChoosesOnce(n, choice, cursor, pick, after) && StaysReady(slot, choice)
    ensures pick.Some?
    ensures pick != Some(slot) ==> Distance(n, after, slot) < Distance(n, cursor, slot)
  {
  }

  /** A slot that stays ready is chosen within as many choices as it is away from the cursor, so within `n`. */
  lemma {:induction false} ReadySlotIsChosen(
    n: nat, choices: seq<Choice>, cursors: seq<nat>, picks: seq<Option<nat>>, slot: nat)
    returns (k: nat)
    requires MIN_SLOTS <= n && slot < n && Chooses(n, choices, cursors, picks)
    requires |choices| > Distance(n, cursors[0], slot)
    requires forall i | 0 <= i < |choices| :: StaysReady(slot, choices[i])
    ensures k < n && k < |picks| && k <= Distance(n, cursors[0], slot) && picks[k] == Some(slot)
    decreases |choices|
  {
    assert ChoosesOnce(n, choices[0], cursors[0], picks[0], cursors[1]) && StaysReady(slot, choices[0]);
    Nearer(n, choices[0], cursors[0], picks[0], cursors[1], slot);
    if picks[0] == Some(slot) {
      k := 0;
    } else {
      forall i | 0 <= i < |choices[1..]|
        ensures ChoosesOnce(n, choices[1..][i], cursors[1..][i], picks[1..][i], cursors[1..][i + 1])
                && StaysReady(slot, choices[1..][i])
      {
        assert ChoosesOnce(n, choices[i + 1], cursors[i + 1], picks[i + 1], cursors[i + 2]) && StaysReady(slot, choices[i + 1]);
      }
      k := ReadySlotIsChosen(n, choices[1..], cursors[1..], picks[1..], slot);
      k := k + 1;
    }
  }
}
