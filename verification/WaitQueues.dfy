/**
  Caller-owned waiters that register a wake capability with a bounded queue, a
  one-waiter slot, or a round-based notifier, and that may move between them.

  The classes hold the program's fields. `World` is their joint state as one value,
  together with an account of every accepted waker; `Driver.Valid` says that the
  fields of all objects agree with the world.
*/
module WaitQueues {
  import opened Outcomes

  datatype Waker = Waker(address: nat)

  datatype Target = AtQueue(queue: Queue) | AtSlot(slot: Slot)

  datatype Active = Active(target: Target, wake: Waker)

  datatype Error = QueueFull(capacity: nat, wake: Waker) | SlotFull(wake: Waker)

  datatype WakeStatus = Complete | Pending

  // ----- The account of accepted wakers -----

  /** One accepted registration: the waker, where it was accepted, and its place in line. */
  datatype Grant = Grant(wake: Waker, target: Target, seat: nat)

  datatype Fate = Held(waiter: Waiter) | Unregistered | Woken(call: nat)

  /** Every accepted waker has a ticket; `sources[i]` is the ticket behind wake call `i`. */
  datatype Account = Account(grants: seq<Grant>, fates: seq<Fate>, sources: seq<nat>, calls: seq<Waker>)
  {
    ghost predicate Balanced() {
      && |grants| == |fates| && |sources| == |calls|
      && (forall t | 0 <= t < |fates| && fates[t].Woken? ::
            fates[t].call < |calls| && sources[fates[t].call] == t && calls[fates[t].call] == grants[t].wake)
      && (forall i | 0 <= i < |sources| :: sources[i] < |fates| && fates[sources[i]] == Woken(i))
    }

    ghost function Open(waiter: Waiter, grant: Grant): Account {
      this.(grants := grants + [grant], fates := fates + [Held(waiter)])
    }

    ghost function Close(t: nat): Account
      requires t < |fates|
    {
      this.(fates := fates[t := Unregistered])
    }

    ghost function Call(t: nat): Account
      requires t < |fates| == |grants|
    {
      this.(fates := fates[t := Woken(|calls|)], sources := sources + [t], calls := calls + [grants[t].wake])
    }
  }

  // ----- The joint state -----

  /** A live registration: where, with which waker, under which ticket and seat. */
  datatype Record = Record(active: Active, ticket: nat, seat: nat)

  /** A notifier's round: wakes left, and (for the proofs) the first later seat, the size at `notify`, the wakes made. */
  datatype Round = Round(remaining: nat, limit: nat, snapshot: nat, spent: nat)

  datatype World = World(
    lines: map<Queue, seq<Waiter>>,
    cells: map<Slot, Option<Waiter>>,
    records: map<Waiter, Option<Record>>,
    rounds: map<Notifier, Round>,
    seats: nat,
    account: Account)
  {
    ghost predicate Good() {
      && account.Balanced()
      && (forall q {:trigger LineOk(q)} | q in lines :: LineOk(q))
      && (forall s {:trigger CellOk(s)} | s in cells :: CellOk(s))
      && (forall w {:trigger RecordOk(w)} | w in records :: RecordOk(w))
      && (forall n {:trigger RoundOk(n)} | n in rounds :: RoundOk(n))
      && (forall t {:trigger HolderOk(t)} | 0 <= t < |account.fates| && account.fates[t].Held? :: HolderOk(t))
    }

    ghost predicate Stands(w: Waiter, target: Target) {
      w in records && records[w].Some? && records[w].value.active.target == target
    }

    ghost function Seat(w: Waiter): nat
      requires w in records && records[w].Some?
    {
      records[w].value.seat
    }

    ghost predicate LineOk(q: Queue)
      requires q in lines
    {
      && |lines[q]| <= q.capacity
      && (forall i | 0 <= i < |lines[q]| :: Stands(lines[q][i], AtQueue(q)) && Seat(lines[q][i]) < seats)
      && (forall i, j | 0 <= i < j < |lines[q]| ::
            && Stands(lines[q][i], AtQueue(q)) && Stands(lines[q][j], AtQueue(q))
            && Seat(lines[q][i]) < Seat(lines[q][j]))
    }

    ghost predicate CellOk(s: Slot)
      requires s in cells
    {
      cells[s].Some? ==> Stands(cells[s].value, AtSlot(s))
    }

    ghost predicate RecordOk(w: Waiter)
      requires w in records
    {
      records[w].Some? ==>
        var Record(active, ticket, seat) := records[w].value;
        && (match active.target
            case AtQueue(q) => q in lines && w in lines[q]
            case AtSlot(s) => s in cells && cells[s] == Some(w))
        && ticket < |account.fates| == |account.grants|
        && account.fates[ticket] == Held(w)
        && account.grants[ticket] == Grant(active.wake, active.target, seat)
    }

    ghost predicate HolderOk(t: nat)
      requires t < |account.fates| && account.fates[t].Held?
    {
      var w := account.fates[t].waiter;
      w in records && records[w].Some? && records[w].value.ticket == t
    }

    ghost predicate RoundOk(n: Notifier)
      requires n in rounds
    {
      var r := rounds[n];
      && n.queue in lines
      && r.limit <= seats
      && r.spent + r.remaining <= r.snapshot
      && (r.remaining < |lines[n.queue]| ==>
            var w := lines[n.queue][r.remaining];
            w in records && records[w].Some? && r.limit <= Seat(w))
    }

    // ----- Elementary changes -----

    /** A standing waiter takes a new waker and keeps its seat; the old waker is woken. */
    ghost function Renewed(w: Waiter, wake: Waker): World
      requires w in records && records[w].Some? && records[w].value.ticket < |account.fates| == |account.grants|
    {
      var r := records[w].value;
      this.(
        records := records[w := Some(Record(r.active.(wake := wake), |account.grants|, r.seat))],
        account := account.Open(w, Grant(wake, r.active.target, r.seat)).Call(r.ticket))
    }

    /** A standing waiter leaves its endpoint; its waker is counted as unregistered. */
    ghost function Vacated(w: Waiter): World
      requires w in records && RecordOk(w)
    {
      if records[w].None? then this else
      var r := records[w].value;
      var gone := this.(records := records[w := None], account := account.Close(r.ticket));
      match r.active.target
      case AtQueue(q) => gone.(lines := lines[q := Without(lines[q], w)])
      case AtSlot(s) => gone.(cells := cells[s := None])
    }

    /** A vacant waiter joins the back of a queue or fills a free slot. */
    ghost function Placed(w: Waiter, target: Target, wake: Waker): World
      requires match target case AtQueue(q) => q in lines case AtSlot(s) => true
    {
      var come := this.(
        records := records[w := Some(Record(Active(target, wake), |account.grants|, seats))],
        account := account.Open(w, Grant(wake, target, seats)),
        seats := seats + 1);
      match target
      case AtQueue(q) => come.(lines := lines[q := lines[q] + [w]])
      case AtSlot(s) => come.(cells := cells[s := Some(w)])
    }

    ghost function Recounted(n: Notifier, round: Round): World {
      this.(rounds := rounds[n := round])
    }

    /** The waker behind a ticket that left its endpoint is called. */
    ghost function Called(t: nat): World
      requires t < |account.fates| == |account.grants|
    {
      this.(account := account.Call(t))
    }
  }

  function IndexOf(s: seq<Waiter>, x: Waiter): (i: nat)
    requires x in s
    ensures i < |s| && s[i] == x
  {
    if s[0] == x then 0 else 1 + IndexOf(s[1..], x)
  }

  function Without(s: seq<Waiter>, x: Waiter): seq<Waiter>
    requires x in s
  {
    s[..IndexOf(s, x)] + s[IndexOf(s, x) + 1..]
  }

  // ----- Every elementary change keeps the joint state good -----

  lemma OpenIsBalanced(a: Account, waiter: Waiter, grant: Grant)
    requires a.Balanced()
    ensures a.Open(waiter, grant).Balanced()
  {
  }

  lemma CallIsBalanced(a: Account, t: nat)
    requires a.Balanced() && t < |a.fates| && !a.fates[t].Woken?
    ensures a.Call(t).Balanced()
  {
    var b := a.Call(t);
    forall i | 0 <= i < |b.sources| ensures b.sources[i] < |b.fates| && b.fates[b.sources[i]] == Woken(i) {
      if i < |a.sources| { assert a.fates[a.sources[i]] == Woken(i); }
    }
  }

  lemma CloseIsBalanced(a: Account, t: nat)
    requires a.Balanced() && t < |a.fates| && !a.fates[t].Woken?
    ensures a.Close(t).Balanced()
  {
    var b := a.Close(t);
    forall i | 0 <= i < |b.sources| ensures b.sources[i] < |b.fates| && b.fates[b.sources[i]] == Woken(i) {
      assert a.fates[a.sources[i]] == Woken(i);
    }
  }

  /** A line stays in order when its members keep their place and their seats. */
  lemma LineKept(o: World, v: World, q: Queue)
    requires q in o.lines && o.LineOk(q)
    requires q in v.lines && v.lines[q] == o.lines[q] && o.seats <= v.seats
    requires forall i | 0 <= i < |o.lines[q]| ::
               v.Stands(o.lines[q][i], AtQueue(q)) && v.Seat(o.lines[q][i]) == o.Seat(o.lines[q][i])
    ensures v.LineOk(q)
  {
  }

  lemma WithoutFacts(s: seq<Waiter>, x: Waiter)
    requires x in s && forall i, j | 0 <= i < j < |s| :: s[i] != s[j]
    ensures |Without(s, x)| == |s| - 1
    ensures forall y :: y in Without(s, x) <==> y in s && y != x
    ensures forall i | 0 <= i < |s| - 1 :: Without(s, x)[i] == s[if i < IndexOf(s, x) then i else i + 1]
  {
    var k := IndexOf(s, x);
    forall y | y in s && y != x ensures y in Without(s, x) {
      var i := IndexOf(s, y);
      assert Without(s, x)[if i < k then i else i - 1] == y;
    }
  }

  lemma LineIsDistinct(o: World, q: Queue)
    requires q in o.lines && o.LineOk(q)
    ensures forall i, j | 0 <= i < j < |o.lines[q]| :: o.lines[q][i] != o.lines[q][j]
  {
    forall i, j | 0 <= i < j < |o.lines[q]| ensures o.lines[q][i] != o.lines[q][j] {
      assert o.Seat(o.lines[q][i]) < o.Seat(o.lines[q][j]);
    }
  }

  lemma RenewedRecords(o: World, w: Waiter, wake: Waker)
    requires o.Good() && w in o.records && o.records[w].Some? && o.RecordOk(w)
    ensures var v := o.Renewed(w, wake);
            && (forall x | x in v.records :: v.RecordOk(x))
            && |v.account.fates| == |v.account.grants|
            && forall t | 0 <= t < |v.account.fates| && v.account.fates[t].Held? :: v.HolderOk(t)
  {
    var v := o.Renewed(w, wake);
    forall x | x in v.records ensures v.RecordOk(x) {
      assert o.RecordOk(x);
      if x != w && o.records[x].Some? {
        assert o.account.fates[o.records[x].value.ticket] == Held(x);
        assert o.account.fates[o.records[w].value.ticket] == Held(w);
      }
    }
    forall t | 0 <= t < |v.account.fates| && v.account.fates[t].Held? ensures v.HolderOk(t) {
      if t < |o.account.fates| { assert o.HolderOk(t); }
    }
  }

  lemma RenewedIsGood(o: World, w: Waiter, wake: Waker)
    requires o.Good() && w in o.records && o.records[w].Some?
    ensures o.RecordOk(w) && o.Renewed(w, wake).Good()
  {
    assert o.RecordOk(w);
    var v := o.Renewed(w, wake);
    var r := o.records[w].value;
    OpenIsBalanced(o.account, w, Grant(wake, r.active.target, r.seat));
    CallIsBalanced(o.account.Open(w, Grant(wake, r.active.target, r.seat)), r.ticket);
    RenewedRecords(o, w, wake);
    forall q | q in v.lines ensures v.LineOk(q) { assert o.LineOk(q); LineKept(o, v, q); }
    forall s | s in v.cells ensures v.CellOk(s) { assert o.CellOk(s); }
    forall n | n in v.rounds ensures v.RoundOk(n) { assert o.RoundOk(n); }
  }

  /** The line a waiter leaves keeps the others in order. */
  lemma LeftLine(o: World, v: World, w: Waiter, q: Queue)
    requires q in o.lines && q in v.lines && o.LineOk(q) && w in o.lines[q]
    requires v.lines[q] == Without(o.lines[q], w) && v.seats == o.seats && w in v.records && v.records == o.records[w := None]
    ensures v.LineOk(q)
  {
    LineIsDistinct(o, q);
    WithoutFacts(o.lines[q], w);
    var k := IndexOf(o.lines[q], w);
    forall i | 0 <= i < |v.lines[q]|
      ensures v.Stands(v.lines[q][i], AtQueue(q)) && v.Seat(v.lines[q][i]) < v.seats
    {
      assert v.lines[q][i] == o.lines[q][if i < k then i else i + 1];
    }
    forall i, j | 0 <= i < j < |v.lines[q]| ensures v.Seat(v.lines[q][i]) < v.Seat(v.lines[q][j]) {
      assert o.Seat(o.lines[q][if i < k then i else i + 1]) < o.Seat(o.lines[q][if j < k then j else j + 1]);
    }
  }

  lemma VacatedLine(o: World, w: Waiter, q: Queue)
    requires w in o.records && o.RecordOk(w) && q in o.lines && o.LineOk(q)
    ensures o.Vacated(w).LineOk(q)
  {
    if o.Stands(w, AtQueue(q)) { LeftLine(o, o.Vacated(w), w, q); } else { LineKept(o, o.Vacated(w), q); }
  }

  lemma VacatedRecords(o: World, w: Waiter)
    requires o.Good() && w in o.records && o.RecordOk(w)
    ensures var v := o.Vacated(w);
            && (forall x | x in v.records :: v.RecordOk(x))
            && |v.account.fates| == |v.account.grants|
            && forall t | 0 <= t < |v.account.fates| && v.account.fates[t].Held? :: v.HolderOk(t)
  {
    var v := o.Vacated(w);
    forall x | x in v.records ensures v.RecordOk(x) {
      assert o.RecordOk(x);
      if x != w && o.records[x].Some? && o.records[w].Some? {
        assert o.account.fates[o.records[x].value.ticket] == Held(x);
        assert o.account.fates[o.records[w].value.ticket] == Held(w);
      }
      if o.records[w].Some? && o.records[w].value.active.target.AtQueue? {
        var q := o.records[w].value.active.target.queue;
        assert o.LineOk(q);
        LineIsDistinct(o, q);
        WithoutFacts(o.lines[q], w);
      }
    }
    forall t | 0 <= t < |v.account.fates| && v.account.fates[t].Held? ensures v.HolderOk(t) {
      assert o.HolderOk(t);
    }
  }

  lemma VacatedRound(o: World, w: Waiter, n: Notifier)
    requires o.Good() && w in o.records && o.RecordOk(w) && n in o.rounds
    ensures o.Vacated(w).RoundOk(n)
  {
    assert o.RoundOk(n) && o.LineOk(n.queue);
    if o.Stands(w, AtQueue(n.queue)) {
      LineIsDistinct(o, n.queue);
      WithoutFacts(o.lines[n.queue], w);
    }
  }

  lemma VacatedIsGood(o: World, w: Waiter)
    requires o.Good() && w in o.records
    ensures o.RecordOk(w) && o.Vacated(w).Good()
  {
    assert o.RecordOk(w);
    var v := o.Vacated(w);
    if o.records[w].Some? {
      CloseIsBalanced(o.account, o.records[w].value.ticket);
    }
    VacatedRecords(o, w);
    forall q | q in v.lines ensures v.LineOk(q) { assert o.LineOk(q); VacatedLine(o, w, q); }
    forall s | s in v.cells ensures v.CellOk(s) { assert o.CellOk(s); }
    forall n | n in v.rounds ensures v.RoundOk(n) { VacatedRound(o, w, n); }
  }

  lemma PlacedRecords(o: World, w: Waiter, target: Target, wake: Waker)
    requires o.Good() && w in o.records && o.records[w].None?
    requires match target case AtQueue(q) => q in o.lines case AtSlot(s) => s in o.cells && o.cells[s].None?
    ensures var v := o.Placed(w, target, wake);
            && (forall x | x in v.records :: v.RecordOk(x))
            && |v.account.fates| == |v.account.grants|
            && forall t | 0 <= t < |v.account.fates| && v.account.fates[t].Held? :: v.HolderOk(t)
  {
    var v := o.Placed(w, target, wake);
    forall x | x in v.records ensures v.RecordOk(x) { assert o.RecordOk(x); }
    forall t | 0 <= t < |v.account.fates| && v.account.fates[t].Held? ensures v.HolderOk(t) {
      if t < |o.account.fates| { assert o.HolderOk(t); }
    }
  }

  lemma PlacedLine(o: World, w: Waiter, target: Target, wake: Waker, q: Queue)
    requires o.Good() && w in o.records && o.records[w].None? && q in o.lines
    requires match target case AtQueue(p) => p in o.lines && |o.lines[p]| < p.capacity case AtSlot(s) => true
    ensures o.Placed(w, target, wake).LineOk(q)
  {
    var v := o.Placed(w, target, wake);
    assert o.LineOk(q);
    if target != AtQueue(q) {
      LineKept(o, v, q);
    } else {
      assert forall i | 0 <= i < |o.lines[q]| :: v.Stands(o.lines[q][i], AtQueue(q));
    }
  }

  lemma PlacedIsGood(o: World, w: Waiter, target: Target, wake: Waker)
    requires o.Good() && w in o.records && o.records[w].None?
    requires match target
             case AtQueue(q) => q in o.lines && |o.lines[q]| < q.capacity
             case AtSlot(s) => s in o.cells && o.cells[s].None?
    ensures o.Placed(w, target, wake).Good()
  {
    var v := o.Placed(w, target, wake);
    OpenIsBalanced(o.account, w, Grant(wake, target, o.seats));
    PlacedRecords(o, w, target, wake);
    forall q | q in v.lines ensures v.LineOk(q) {
      PlacedLine(o, w, target, wake, q);
    }
    forall s | s in v.cells ensures v.CellOk(s) { if target != AtSlot(s) { assert o.CellOk(s); } }
    forall n | n in v.rounds ensures v.RoundOk(n) { assert o.RoundOk(n) && o.LineOk(n.queue); }
  }

  lemma CalledIsGood(o: World, t: nat)
    requires o.Good() && t < |o.account.fates| && o.account.fates[t].Unregistered?
    ensures o.Called(t).Good()
  {
    var v := o.Called(t);
    CallIsBalanced(o.account, t);
    forall q | q in v.lines ensures v.LineOk(q) { assert o.LineOk(q); LineKept(o, v, q); }
    forall s | s in v.cells ensures v.CellOk(s) { assert o.CellOk(s); }
    forall x | x in v.records ensures v.RecordOk(x) { assert o.RecordOk(x); }
    forall n | n in v.rounds ensures v.RoundOk(n) { assert o.RoundOk(n); }
    forall u | 0 <= u < |v.account.fates| && v.account.fates[u].Held? ensures v.HolderOk(u) { assert o.HolderOk(u); }
  }

  // ----- The operations on the joint state -----

  datatype Op =
    | Arrive(waiter: Waiter)
    | Register(waiter: Waiter, target: Target, wake: Waker)
    | Unregister(waiter: Waiter)
    | Drop(waiter: Waiter)
    | Wake(target: Target)
    | Notify(notifier: Notifier)
    | Flush(notifier: Notifier, funded: bool)

  ghost predicate Open(o: World, target: Target) {
    match target
    case AtQueue(q) => q in o.lines
    case AtSlot(s) => s in o.cells
  }

  ghost predicate Full(o: World, target: Target)
    requires Open(o, target)
  {
    match target
    case AtQueue(q) => |o.lines[q]| >= q.capacity
    case AtSlot(s) => o.cells[s].Some?
  }

  /** A waiter asks to stand at `target`. */
  ghost function Registered(o: World, w: Waiter, target: Target, wake: Waker): World
    requires o.Good() && w in o.records && Open(o, target)
  {
    assert o.RecordOk(w);
    match o.records[w]
    case Some(r) =>
      if r.active.target == target then
        if r.active.wake == wake then o else o.Renewed(w, wake)
      else if Full(o, target) then o
      else
        VacatedIsGood(o, w);
        o.Vacated(w).Placed(w, target, wake).Called(r.ticket)
    case None =>
      if Full(o, target) then o else o.Placed(w, target, wake)
  }

  /** The first waiter of an endpoint, if any. */
  ghost function First(o: World, target: Target): Option<Waiter>
    requires Open(o, target)
  {
    match target
    case AtQueue(q) => if o.lines[q] == [] then None else Some(o.lines[q][0])
    case AtSlot(s) => o.cells[s]
  }

  lemma FirstStands(o: World, target: Target)
    requires o.Good() && Open(o, target) && First(o, target).Some?
    ensures o.Stands(First(o, target).value, target)
  {
    match target
    case AtQueue(q) => assert o.LineOk(q);
    case AtSlot(s) => assert o.CellOk(s);
  }

  /** The first waiter of an endpoint leaves and its waker is called. */
  ghost function Popped(o: World, target: Target): World
    requires o.Good() && Open(o, target)
  {
    match First(o, target)
    case None => o
    case Some(w) =>
      FirstStands(o, target);
      assert o.RecordOk(w);
      o.Vacated(w).Called(o.records[w].value.ticket)
  }

  lemma PoppedSteps(o: World, target: Target)
    requires o.Good() && Open(o, target)
    ensures match First(o, target)
            case None => Popped(o, target) == o
            case Some(w) =>
              && o.Stands(w, target) && o.RecordOk(w)
              && var v, t := o.Vacated(w), o.records[w].value.ticket;
              && t < |v.account.fates| == |v.account.grants|
              && v.account.fates[t].Unregistered? && v.account.grants[t].wake == o.records[w].value.active.wake
              && Popped(o, target) == v.Called(t)
  {
    if First(o, target).Some? {
      FirstStands(o, target);
      assert o.RecordOk(First(o, target).value);
    }
  }

  ghost function PoppedMany(o: World, target: Target, k: nat): World
    requires o.Good() && Open(o, target)
    ensures PoppedMany(o, target, k).Good() && Open(PoppedMany(o, target, k), target)
  {
    if k == 0 then o else
    var v := PoppedMany(o, target, k - 1);
    PoppedIsGood(v, target);
    PopTakesFront(v, target);
    Popped(v, target)
  }

  /** What a waiter is registered with, if it is registered at all. */
  ghost function RecordOf(o: World, w: Waiter): Option<Record> {
    if w in o.records then o.records[w] else None
  }

  /** `v` is `o` after the first `k` waiters of the line were woken in line order; the rest stand as before. */
  ghost predicate Drained(o: World, v: World, q: Queue, k: nat) {
    && q in o.lines && q in v.lines && k <= |o.lines[q]|
    && v.lines[q] == o.lines[q][k..]
    && (forall i | 0 <= i < |v.lines[q]| :: RecordOf(v, v.lines[q][i]) == RecordOf(o, v.lines[q][i]))
    && |v.account.calls| == |o.account.calls| + k && o.account.calls <= v.account.calls
    && (forall i | 0 <= i < k :: RecordOf(o, o.lines[q][i]).Some?
          && v.account.calls[|o.account.calls| + i] == RecordOf(o, o.lines[q][i]).value.active.wake)
  }

  lemma PopDrainsOne(o: World, q: Queue)
    requires o.Good() && q in o.lines && o.lines[q] != []
    ensures Drained(o, Popped(o, AtQueue(q)), q, 1)
  {
    var v := Popped(o, AtQueue(q));
    PopTakesFront(o, AtQueue(q));
    PoppedIsGood(o, AtQueue(q));
    assert v.LineOk(q);
    forall i | 0 <= i < |v.lines[q]| ensures RecordOf(v, v.lines[q][i]) == RecordOf(o, v.lines[q][i]) {
      assert v.Stands(v.lines[q][i], AtQueue(q));
    }
  }

  lemma DrainedThenOne(o: World, u: World, v: World, q: Queue, k: nat)
    requires Drained(o, u, q, k) && Drained(u, v, q, 1)
    ensures Drained(o, v, q, k + 1)
  {
    assert u.lines[q][0] == o.lines[q][k];
    forall i | 0 <= i < |v.lines[q]| ensures RecordOf(v, v.lines[q][i]) == RecordOf(o, v.lines[q][i]) {
      assert v.lines[q][i] == u.lines[q][i + 1];
    }
  }

  lemma DrainedOnce(o: World, u: World, q: Queue, k: nat)
    requires u.Good() && k > 0 && Drained(o, u, q, k - 1) && k <= |o.lines[q]|
    ensures q in u.lines && Drained(o, Popped(u, AtQueue(q)), q, k)
  {
    PopDrainsOne(u, q);
    DrainedThenOne(o, u, Popped(u, AtQueue(q)), q, k - 1);
  }

  lemma DrainedNone(o: World, q: Queue)
    requires q in o.lines
    ensures Drained(o, o, q, 0)
  {
    assert o.lines[q][0..] == o.lines[q];
  }

  /** Popping `k` times calls the wakers of the first `k` in line, in line order, and leaves the rest in place. */
  lemma {:induction false} PoppedInLineOrder(o: World, q: Queue, k: nat)
    requires o.Good() && q in o.lines && k <= |o.lines[q]|
    ensures Drained(o, PoppedMany(o, AtQueue(q), k), q, k)
    decreases k
  {
    if k == 0 {
      DrainedNone(o, q);
    } else {
      PoppedInLineOrder(o, q, k - 1);
      DrainedOnce(o, PoppedMany(o, AtQueue(q), k - 1), q, k);
    }
  }

  ghost function Notified(o: World, n: Notifier): World
    requires o.Good() && n in o.rounds
  {
    assert o.RoundOk(n);
    var size := |o.lines[n.queue]|;
    o.Recounted(n, Round(size, o.seats, size, 0))
  }

  ghost function Flushed(o: World, n: Notifier, funded: bool): World
    requires o.Good() && n in o.rounds
  {
    assert o.RoundOk(n);
    var r := o.rounds[n];
    var line := o.lines[n.queue];
    if r.remaining == 0 || (!funded && line != []) then o else
    var v := Popped(o, AtQueue(n.queue));
    var left := |line| - (if line == [] then 0 else 1);
    v.Recounted(n, r.(
      remaining := if r.remaining - 1 < left then r.remaining - 1 else left,
      spent := r.spent + |line| - left))
  }

  ghost predicate Known(o: World, op: Op) {
    match op
    case Arrive(w) => w !in o.records
    case Register(w, target, _) => w in o.records && Open(o, target)
    case Unregister(w) => w in o.records
    case Drop(w) => w in o.records
    case Wake(target) => Open(o, target)
    case Notify(n) => n in o.rounds
    case Flush(n, _) => n in o.rounds
  }

  /** One call; a call on an object that does not exist cannot be made and changes nothing. */
  ghost function Step(o: World, op: Op): World
    requires o.Good()
  {
    if !Known(o, op) then o else
    match op
    case Arrive(w) => o.(records := o.records[w := None])
    case Register(w, target, wake) => Registered(o, w, target, wake)
    case Unregister(w) => assert o.RecordOk(w); o.Vacated(w)
    case Drop(w) =>
      assert o.RecordOk(w);
      var v := o.Vacated(w);
      v.(records := v.records - {w})
    case Wake(target) => Popped(o, target)
    case Notify(n) => Notified(o, n)
    case Flush(n, funded) => Flushed(o, n, funded)
  }

  lemma RecountedIsGood(o: World, n: Notifier, round: Round)
    requires o.Good() && n.queue in o.lines
    requires round.limit <= o.seats && round.spent + round.remaining <= round.snapshot
    requires round.remaining < |o.lines[n.queue]| ==>
               var w := o.lines[n.queue][round.remaining];
               w in o.records && o.records[w].Some? && round.limit <= o.Seat(w)
    ensures o.Recounted(n, round).Good()
  {
    var v := o.Recounted(n, round);
    forall q | q in v.lines ensures v.LineOk(q) { assert o.LineOk(q); LineKept(o, v, q); }
    forall s | s in v.cells ensures v.CellOk(s) { assert o.CellOk(s); }
    forall x | x in v.records ensures v.RecordOk(x) { assert o.RecordOk(x); }
    forall m | m in v.rounds ensures v.RoundOk(m) { if m != n { assert o.RoundOk(m); } }
    forall t | 0 <= t < |v.account.fates| && v.account.fates[t].Held? ensures v.HolderOk(t) { assert o.HolderOk(t); }
  }

  lemma RegisteredIsGood(o: World, w: Waiter, target: Target, wake: Waker)
    requires o.Good() && w in o.records && Open(o, target)
    ensures Registered(o, w, target, wake).Good()
  {
    assert o.RecordOk(w);
    if o.records[w].Some? && o.records[w].value.active.target == target {
      RenewedIsGood(o, w, wake);
    } else if !Full(o, target) {
      VacatedIsGood(o, w);
      PlacedIsGood(o.Vacated(w), w, target, wake);
      if o.records[w].Some? {
        CalledIsGood(o.Vacated(w).Placed(w, target, wake), o.records[w].value.ticket);
      }
    }
  }

  lemma PoppedIsGood(o: World, target: Target)
    requires o.Good() && Open(o, target)
    ensures Popped(o, target).Good()
  {
    if First(o, target).Some? {
      var w := First(o, target).value;
      FirstStands(o, target);
      VacatedIsGood(o, w);
      CalledIsGood(o.Vacated(w), o.records[w].value.ticket);
    }
  }

  /** A pop takes the front of its own line or cell, and makes exactly that waiter's wake call. */
  lemma PopTakesFront(o: World, target: Target)
    requires o.Good() && Open(o, target)
    ensures var v := Popped(o, target);
            && v.rounds == o.rounds && v.seats == o.seats && v.records.Keys == o.records.Keys
            && (forall x | x in o.records && v.records[x].Some? :: v.records[x] == o.records[x])
            && (match target
                case AtQueue(q) => v.lines == o.lines[q := if o.lines[q] == [] then [] else o.lines[q][1..]] && v.cells == o.cells
                case AtSlot(s) => v.lines == o.lines && v.cells == o.cells[s := None])
    ensures First(o, target).Some? ==> o.Stands(First(o, target).value, target)
    ensures Popped(o, target).account.calls == o.account.calls
              + if First(o, target).None? then [] else [o.records[First(o, target).value].value.active.wake]
  {
    if First(o, target).Some? {
      var w := First(o, target).value;
      FirstStands(o, target);
      assert o.RecordOk(w);
      if target.AtQueue? {
        var q := target.queue;
        assert Without(o.lines[q], w) == o.lines[q][1..];
      }
    }
  }

  /** After a flush the wakes left still cover everyone who was in line at `notify`. */
  lemma RoundCovers(o: World, u: World, n: Notifier, left: nat)
    requires n in o.rounds && o.RoundOk(n) && n.queue in u.lines && u.LineOk(n.queue)
    requires u.lines[n.queue] == if o.lines[n.queue] == [] then [] else o.lines[n.queue][1..]
    requires forall x | x in o.records && x in u.records && u.records[x].Some? :: u.records[x] == o.records[x]
    requires left < |u.lines[n.queue]| ==> left + 1 == o.rounds[n].remaining
    ensures left < |u.lines[n.queue]| ==>
              var w := u.lines[n.queue][left];
              w in u.records && u.records[w].Some? && o.rounds[n].limit <= u.Seat(w)
  {
    if left < |u.lines[n.queue]| {
      assert u.Stands(u.lines[n.queue][left], AtQueue(n.queue));
      assert u.lines[n.queue][left] == o.lines[n.queue][left + 1];
    }
  }

  lemma SpentIsGood(o: World, n: Notifier, round: Round)
    requires o.Good() && n in o.rounds && o.RoundOk(n) && o.rounds[n].remaining != 0
    requires var line := o.lines[n.queue];
             var left := |line| - (if line == [] then 0 else 1);
             && round.limit == o.rounds[n].limit && round.snapshot == o.rounds[n].snapshot
             && round.remaining == (if o.rounds[n].remaining - 1 < left then o.rounds[n].remaining - 1 else left)
             && round.spent == o.rounds[n].spent + |line| - left
    ensures Popped(o, AtQueue(n.queue)).Recounted(n, round).Good()
  {
    var u := Popped(o, AtQueue(n.queue));
    PoppedIsGood(o, AtQueue(n.queue));
    PopTakesFront(o, AtQueue(n.queue));
    assert u.LineOk(n.queue);
    RoundCovers(o, u, n, round.remaining);
    RecountedIsGood(u, n, round);
  }

  lemma FlushedIsGood(o: World, n: Notifier, funded: bool)
    requires o.Good() && n in o.rounds
    ensures Flushed(o, n, funded).Good()
  {
    assert o.RoundOk(n);
    if o.rounds[n].remaining != 0 && (funded || o.lines[n.queue] == []) {
      SpentIsGood(o, n, Flushed(o, n, funded).rounds[n]);
    }
  }

  lemma FlushedSteps(o: World, n: Notifier, funded: bool)
    requires o.Good() && n in o.rounds
    ensures n.queue in o.lines && Flushed(o, n, funded).Good()
    ensures var u, r := Popped(o, AtQueue(n.queue)), o.rounds[n];
            && u.rounds == o.rounds && n.queue in u.lines && u.records.Keys == o.records.Keys
            && if r.remaining == 0 || (!funded && o.lines[n.queue] != []) then Flushed(o, n, funded) == o
               else
                 var v, left := Flushed(o, n, funded), |u.lines[n.queue]|;
                 && v == (if funded then u else o).Recounted(n, v.rounds[n])
                 && v.rounds[n].remaining == if r.remaining - 1 < left then r.remaining - 1 else left
  {
    assert o.RoundOk(n);
    FlushedIsGood(o, n, funded);
    PopTakesFront(o, AtQueue(n.queue));
  }

  lemma NotifiedIsGood(o: World, n: Notifier)
    requires o.Good() && n in o.rounds
    ensures n.queue in o.lines && Notified(o, n).Good()
  {
    assert o.RoundOk(n);
    RecountedIsGood(o, n, Round(|o.lines[n.queue]|, o.seats, |o.lines[n.queue]|, 0));
  }

  /** Adding or removing a waiter that stands nowhere. */
  lemma RosterIsGood(o: World, w: Waiter, present: bool)
    requires o.Good() && (w in o.records ==> o.records[w].None?)
    ensures o.(records := if present then o.records[w := None] else o.records - {w}).Good()
  {
    var v := o.(records := if present then o.records[w := None] else o.records - {w});
    forall q | q in v.lines ensures v.LineOk(q) { assert o.LineOk(q); LineKept(o, v, q); }
    forall s | s in v.cells ensures v.CellOk(s) { assert o.CellOk(s); }
    forall x | x in v.records ensures v.RecordOk(x) { if x != w { assert o.RecordOk(x); } }
    forall m | m in v.rounds ensures v.RoundOk(m) { assert o.RoundOk(m); }
    forall t | 0 <= t < |v.account.fates| && v.account.fates[t].Held? ensures v.HolderOk(t) { assert o.HolderOk(t); }
  }

  /** A new queue is empty and nobody stands there. */
  lemma EndpointIsGood(o: World, q: Queue)
    requires o.Good() && q !in o.lines
    ensures o.(lines := o.lines[q := []]).Good()
  {
    var v := o.(lines := o.lines[q := []]);
    forall p | p in v.lines ensures v.LineOk(p) { if p != q { assert o.LineOk(p); LineKept(o, v, p); } }
    forall s | s in v.cells ensures v.CellOk(s) { assert o.CellOk(s); }
    forall x | x in v.records ensures v.RecordOk(x) { assert o.RecordOk(x); }
    forall m | m in v.rounds ensures v.RoundOk(m) { assert o.RoundOk(m); }
    forall t | 0 <= t < |v.account.fates| && v.account.fates[t].Held? ensures v.HolderOk(t) { assert o.HolderOk(t); }
  }

  lemma CellIsGood(o: World, s: Slot)
    requires o.Good() && s !in o.cells
    ensures o.(cells := o.cells[s := None]).Good()
  {
    var v := o.(cells := o.cells[s := None]);
    forall q | q in v.lines ensures v.LineOk(q) { assert o.LineOk(q); LineKept(o, v, q); }
    forall c | c in v.cells ensures v.CellOk(c) { if c != s { assert o.CellOk(c); } }
    forall x | x in v.records ensures v.RecordOk(x) { assert o.RecordOk(x); }
    forall m | m in v.rounds ensures v.RoundOk(m) { assert o.RoundOk(m); }
    forall t | 0 <= t < |v.account.fates| && v.account.fates[t].Held? ensures v.HolderOk(t) { assert o.HolderOk(t); }
  }

  lemma StepIsGood(o: World, op: Op)
    requires o.Good()
    ensures Step(o, op).Good()
  {
    if Known(o, op) {
      match op
      case Arrive(w) => RosterIsGood(o, w, true);
      case Register(w, target, wake) => RegisteredIsGood(o, w, target, wake);
      case Unregister(w) => VacatedIsGood(o, w);
      case Drop(w) =>
        VacatedIsGood(o, w);
        RosterIsGood(o.Vacated(w), w, false);
      case Wake(target) => PoppedIsGood(o, target);
      case Notify(n) => NotifiedIsGood(o, n);
      case Flush(n, funded) => FlushedIsGood(o, n, funded);
    }
  }

  // ----- Every run -----

  ghost function Run(o: World, ops: seq<Op>): World
    requires o.Good()
    ensures Run(o, ops).Good()
    decreases |ops|
  {
    if ops == [] then o else StepIsGood(o, ops[0]); Run(Step(o, ops[0]), ops[1..])
  }

  /**
    After any run: a line holds exactly the waiters whose record names its queue, a slot
    exactly the one whose record names it, and a line never exceeds its capacity.
  */
  lemma RunKeepsOnePlace(o: World, ops: seq<Op>)
    requires o.Good()
    ensures var v := Run(o, ops);
            && (forall q, w | q in v.lines :: w in v.lines[q] <==> v.Stands(w, AtQueue(q)))
            && (forall s, w | s in v.cells :: v.cells[s] == Some(w) <==> v.Stands(w, AtSlot(s)))
            && (forall q | q in v.lines :: |v.lines[q]| <= q.capacity)
            && (forall q, i, j | q in v.lines && 0 <= i < j < |v.lines[q]| :: v.lines[q][i] != v.lines[q][j])
  {
    var v := Run(o, ops);
    forall q, w | q in v.lines ensures w in v.lines[q] <==> v.Stands(w, AtQueue(q)) {
      assert v.LineOk(q);
      if v.Stands(w, AtQueue(q)) { assert v.RecordOk(w); }
    }
    forall s, w | s in v.cells ensures v.cells[s] == Some(w) <==> v.Stands(w, AtSlot(s)) {
      assert v.CellOk(s);
      if v.Stands(w, AtSlot(s)) { assert v.RecordOk(w); }
    }
    forall q | q in v.lines
      ensures |v.lines[q]| <= q.capacity
      ensures forall i, j | 0 <= i < j < |v.lines[q]| :: v.lines[q][i] != v.lines[q][j]
    {
      assert v.LineOk(q);
      LineIsDistinct(v, q);
    }
  }

  /** What became of one accepted waker. */
  ghost predicate Settled(v: World, t: nat)
    requires t < |v.account.fates| == |v.account.grants|
  {
    match v.account.fates[t]
    case Held(w) =>
      v.Stands(w, v.account.grants[t].target) && v.records[w].value.active.wake == v.account.grants[t].wake
    case Woken(i) => i < |v.account.calls| && v.account.calls[i] == v.account.grants[t].wake
    case Unregistered => true
  }

  /**
    After any run every accepted waker is exactly one of: still registered with the one waiter
    that holds its ticket, unregistered, or called once; and every call was for one accepted waker.
  */
  lemma RunKeepsTheBooks(o: World, ops: seq<Op>)
    requires o.Good()
    ensures var a := Run(o, ops).account; |a.fates| == |a.grants|
    ensures var v := Run(o, ops); forall t | 0 <= t < |v.account.fates| :: Settled(v, t)
    ensures var a := Run(o, ops).account;
            forall t, u | 0 <= t < u < |a.fates| && !a.fates[t].Unregistered? :: a.fates[t] != a.fates[u]
    ensures var v := Run(o, ops);
            forall w | w in v.records && v.records[w].Some? ::
              v.records[w].value.ticket < |v.account.fates| && v.account.fates[v.records[w].value.ticket] == Held(w)
    ensures var a := Run(o, ops).account;
            |a.sources| == |a.calls| && forall i | 0 <= i < |a.calls| :: a.sources[i] < |a.fates| && a.fates[a.sources[i]] == Woken(i)
  {
    var v := Run(o, ops);
    var a := v.account;
    forall t | 0 <= t < |a.fates| ensures Settled(v, t) {
      if a.fates[t].Held? {
        assert v.HolderOk(t);
        assert v.RecordOk(a.fates[t].waiter);
      }
    }
    forall t, u | 0 <= t < u < |a.fates| && !a.fates[t].Unregistered? ensures a.fates[t] != a.fates[u] {
      if a.fates[t].Held? && a.fates[u].Held? { assert v.HolderOk(t) && v.HolderOk(u); }
    }
    forall w | w in v.records && v.records[w].Some?
      ensures v.records[w].value.ticket < |a.fates| && a.fates[v.records[w].value.ticket] == Held(w)
    {
      assert v.RecordOk(w);
    }
  }

  /**
    How one ticket may change in one call: only if its holder is the waiter the call moves; then to
    unregistered if the call makes the holder leave, and otherwise, if at all, to the call's one wake.
  */
  ghost predicate Moves(a: Account, b: Account, t: nat, mover: Option<Waiter>, leaves: bool) {
    && |a.fates| == |a.grants| && |b.fates| == |b.grants|
    && t < |a.fates| <= |b.fates|
    && a.grants <= b.grants && a.calls <= b.calls
    && if a.fates[t].Held? && mover == Some(a.fates[t].waiter) then
         if leaves then b.fates[t].Unregistered?
         else b.fates[t] == a.fates[t] || (b.fates[t] == Woken(|a.calls|) && |a.calls| < |b.calls|)
       else b.fates[t] == a.fates[t]
  }

  lemma VacatedFate(o: World, w: Waiter, t: nat)
    requires o.Good() && w in o.records && o.RecordOk(w) && t < |o.account.fates|
    ensures Moves(o.account, o.Vacated(w).account, t, Some(w), true)
  {
    if o.account.fates[t].Held? { assert o.HolderOk(t); }
  }

  lemma PoppedFate(o: World, target: Target, t: nat)
    requires o.Good() && Open(o, target) && t < |o.account.fates|
    ensures Moves(o.account, Popped(o, target).account, t, First(o, target), false)
  {
    if First(o, target).Some? {
      FirstStands(o, target);
      assert o.RecordOk(First(o, target).value);
      if o.account.fates[t].Held? { assert o.HolderOk(t); }
    }
  }

  /** Closing a held ticket, opening another and calling the first moves only the first. */
  lemma ReplacedFate(a: Account, held: nat, w: Waiter, grant: Grant, t: nat)
    requires |a.fates| == |a.grants| && held < |a.fates| && a.fates[held] == Held(w) && t < |a.fates|
    requires t != held ==> a.fates[t] != Held(w)
    ensures Moves(a, a.Open(w, grant).Call(held), t, Some(w), false)
    ensures Moves(a, a.Close(held).Open(w, grant).Call(held), t, Some(w), false)
  {
  }

  /** Registering elsewhere is: leave, join, and have the old waker called. */
  lemma RegisteredMoves(o: World, w: Waiter, target: Target, wake: Waker)
    requires o.Good() && w in o.records && Open(o, target) && !Full(o, target)
    requires o.records[w].Some? ==> o.records[w].value.active.target != target
    ensures o.RecordOk(w) && Open(o.Vacated(w), target)
    ensures var v := o.Vacated(w).Placed(w, target, wake);
            match o.records[w]
            case None => Registered(o, w, target, wake) == v
            case Some(r) =>
              && r.ticket < |v.account.fates| == |v.account.grants|
              && v.account.fates[r.ticket].Unregistered? && v.account.grants[r.ticket].wake == r.active.wake
              && Registered(o, w, target, wake) == v.Called(r.ticket)
  {
    assert o.RecordOk(w);
  }

  /** The account after asking to stand at `target`: untouched, one waker exchanged, or one added, by where the waiter stood. */
  lemma RegisteredAccount(o: World, w: Waiter, target: Target, wake: Waker)
    requires o.Good() && w in o.records && Open(o, target)
    ensures o.RecordOk(w)
    ensures var a := Registered(o, w, target, wake).account;
            match o.records[w]
            case None => a == if Full(o, target) then o.account else o.account.Open(w, Grant(wake, target, o.seats))
            case Some(r) =>
              if r.active == Active(target, wake) then a == o.account
              else if r.active.target == target then a == o.account.Open(w, Grant(wake, target, r.seat)).Call(r.ticket)
              else if Full(o, target) then a == o.account
              else a == o.account.Close(r.ticket).Open(w, Grant(wake, target, o.seats)).Call(r.ticket)
  {
    assert o.RecordOk(w);
  }

  lemma RegisteredFate(o: World, w: Waiter, target: Target, wake: Waker, t: nat)
    requires o.Good() && w in o.records && Open(o, target) && t < |o.account.fates|
    ensures Moves(o.account, Registered(o, w, target, wake).account, t, Some(w), false)
  {
    RegisteredAccount(o, w, target, wake);
    if o.records[w].Some? {
      var r := o.records[w].value;
      if o.account.fates[t].Held? { assert o.HolderOk(t); }
      ReplacedFate(o.account, r.ticket, w, Grant(wake, target, r.seat), t);
      ReplacedFate(o.account, r.ticket, w, Grant(wake, target, o.seats), t);
    }
  }

  /** The waiter whose registration a call may change. */
  ghost function Mover(o: World, op: Op): Option<Waiter>
    requires o.Good() && Known(o, op)
  {
    match op
    case Arrive(w) => None
    case Register(w, _, _) => Some(w)
    case Unregister(w) => Some(w)
    case Drop(w) => Some(w)
    case Wake(target) => First(o, target)
    case Notify(_) => None
    case Flush(n, _) => assert o.RoundOk(n); First(o, AtQueue(n.queue))
  }

  ghost predicate Leaves(op: Op, w: Waiter) {
    op == Unregister(w) || op == Drop(w)
  }

  lemma StepFate(o: World, op: Op, t: nat)
    requires o.Good() && t < |o.account.fates| && Known(o, op)
    ensures Moves(o.account, Step(o, op).account, t, Mover(o, op), op.Unregister? || op.Drop?)
  {
    match op
    case Arrive(w) =>
    case Register(w, target, wake) => RegisteredFate(o, w, target, wake, t);
    case Unregister(w) => assert o.RecordOk(w); VacatedFate(o, w, t);
    case Drop(w) => assert o.RecordOk(w); VacatedFate(o, w, t);
    case Wake(target) => PoppedFate(o, target, t);
    case Notify(n) =>
    case Flush(n, _) => assert o.RoundOk(n); PoppedFate(o, AtQueue(n.queue), t);
  }

  // ----- What each call does, case by case -----

  /** Nobody but `w` is moved: other registrations, rounds and the waiters known stay. */
  ghost predicate OnlyMoves(o: World, v: World, w: Waiter) {
    && v.rounds == o.rounds && v.records.Keys == o.records.Keys
    && v.lines.Keys == o.lines.Keys && v.cells.Keys == o.cells.Keys
    && forall x | x in o.records && x != w :: v.records[x] == o.records[x]
  }

  /** In `v` waiter `w` stands at `target` with this waker and this seat. */
  ghost predicate Registers(v: World, w: Waiter, target: Target, wake: Waker, seat: nat) {
    && RecordOf(v, w).Some?
    && RecordOf(v, w).value.active == Active(target, wake) && RecordOf(v, w).value.seat == seat
  }

  /**
    Asking again where one stands keeps the place, whether or not there is room; with the waker one
    already has nothing happens at all, with another one the old waker is called.
  */
  lemma AskingAgainMeans(o: World, w: Waiter, target: Target, wake: Waker)
    requires o.Good() && Open(o, target) && o.Stands(w, target)
    ensures var v, r := Step(o, Register(w, target, wake)), o.records[w].value;
            && OnlyMoves(o, v, w) && v.lines == o.lines && v.cells == o.cells && v.seats == o.seats
            && Registers(v, w, target, wake, r.seat)
            && (r.active.wake == wake ==> v == o)
            && (r.active.wake != wake ==> v.account.calls == o.account.calls + [r.active.wake])
  {
    assert o.RecordOk(w);
  }

  /** At an endpoint without room nothing happens to a waiter that stands elsewhere or nowhere. */
  lemma RefusalMeans(o: World, w: Waiter, target: Target, wake: Waker)
    requires o.Good() && w in o.records && Open(o, target) && !o.Stands(w, target)
    requires match target case AtQueue(q) => |o.lines[q]| == q.capacity case AtSlot(s) => o.cells[s] != None
    ensures Step(o, Register(w, target, wake)) == o
  {
    assert o.RecordOk(w);
  }

  /** The line of `q` once `w` has left it, if it stood there, and joined its back, if that is where it goes. */
  ghost predicate LineAfter(o: World, v: World, q: Queue, w: Waiter, target: Target)
    requires q in o.lines && q in v.lines
  {
    if target == AtQueue(q) then v.lines[q] == o.lines[q] + [w]
    else if o.Stands(w, AtQueue(q)) then
      exists i :: 0 <= i < |o.lines[q]| && o.lines[q][i] == w && v.lines[q] == o.lines[q][..i] + o.lines[q][i + 1..]
    else v.lines[q] == o.lines[q]
  }

  /** A move takes the waiter out of its line, if it stood in one, and puts it at the back of the other. */
  lemma LineAfterMove(o: World, w: Waiter, target: Target, wake: Waker, q: Queue)
    requires o.Good() && w in o.records && Open(o, target) && !o.Stands(w, target) && q in o.lines
    requires match target case AtQueue(p) => |o.lines[p]| < p.capacity case AtSlot(s) => o.cells[s] == None
    ensures q in Step(o, Register(w, target, wake)).lines && LineAfter(o, Step(o, Register(w, target, wake)), q, w, target)
  {
    assert o.RecordOk(w);
    var v := Registered(o, w, target, wake);
    if target != AtQueue(q) && o.Stands(w, AtQueue(q)) {
      var i := IndexOf(o.lines[q], w);
      assert v.lines[q] == o.lines[q][..i] + o.lines[q][i + 1..];
    }
  }

  /** A move into a slot fills it, and a move out of one empties it. */
  lemma CellAfterMove(o: World, w: Waiter, target: Target, wake: Waker, s: Slot)
    requires o.Good() && w in o.records && Open(o, target) && !o.Stands(w, target) && s in o.cells
    requires match target case AtQueue(q) => |o.lines[q]| < q.capacity case AtSlot(c) => o.cells[c] == None
    ensures var v := Step(o, Register(w, target, wake));
            && s in v.cells
            && v.cells[s] == if target == AtSlot(s) then Some(w) else if o.Stands(w, AtSlot(s)) then None else o.cells[s]
  {
    assert o.RecordOk(w);
  }

  /** Where there is room a waiter from elsewhere gets a fresh seat; the waker it had there, if any, is called and no other. */
  lemma MoveMeans(o: World, w: Waiter, target: Target, wake: Waker)
    requires o.Good() && w in o.records && Open(o, target) && !o.Stands(w, target)
    requires match target case AtQueue(q) => |o.lines[q]| < q.capacity case AtSlot(s) => o.cells[s] == None
    ensures var v := Step(o, Register(w, target, wake));
            && OnlyMoves(o, v, w) && Registers(v, w, target, wake, o.seats) && v.seats == o.seats + 1
            && v.account.calls == o.account.calls + match o.records[w] case None => [] case Some(r) => [r.active.wake]
  {
    RegisteredMoves(o, w, target, wake);
  }

  /** A waiter that unregisters or is dropped closes up its place in line; the other lines stay. */
  lemma LineAfterLeaving(o: World, op: Op, w: Waiter, q: Queue)
    requires o.Good() && w in o.records && Leaves(op, w) && q in o.lines
    ensures q in Step(o, op).lines
    ensures var line := Step(o, op).lines[q];
            if o.Stands(w, AtQueue(q)) then
              exists i :: 0 <= i < |o.lines[q]| && o.lines[q][i] == w && line == o.lines[q][..i] + o.lines[q][i + 1..]
            else line == o.lines[q]
  {
    assert o.RecordOk(w);
    if o.Stands(w, AtQueue(q)) {
      var i := IndexOf(o.lines[q], w);
      assert Step(o, op).lines[q] == o.lines[q][..i] + o.lines[q][i + 1..];
    }
  }

  /** Leaving makes no call and moves nobody else; only a dropped waiter is forgotten. */
  lemma LeavingMeans(o: World, op: Op, w: Waiter)
    requires o.Good() && w in o.records && Leaves(op, w)
    ensures var v := Step(o, op);
            && v.rounds == o.rounds && v.seats == o.seats && v.account.calls == o.account.calls
            && v.lines.Keys == o.lines.Keys && v.cells.Keys == o.cells.Keys
            && v.records == (if op.Drop? then o.records - {w} else o.records[w := None])
            && (forall s | s in o.cells :: v.cells[s] == if o.Stands(w, AtSlot(s)) then None else o.cells[s])
  {
    assert o.RecordOk(w);
    assert o.Vacated(w).records == o.records[w := None];
    assert o.records[w := None] - {w} == o.records - {w};
  }

  /** A wake takes the front waiter of its endpoint, the only one to lose its registration, and makes that one call. */
  lemma WakeMeans(o: World, target: Target)
    requires o.Good() && Open(o, target)
    ensures var v := Step(o, Op.Wake(target));
            match target
            case AtQueue(q) =>
              if o.lines[q] == [] then v == o else
              var w := o.lines[q][0];
              && OnlyMoves(o, v, w) && o.Stands(w, target) && v.records[w] == None
              && v.lines == o.lines[q := o.lines[q][1..]] && v.cells == o.cells && v.seats == o.seats
              && v.account.calls == o.account.calls + [o.records[w].value.active.wake]
            case AtSlot(s) =>
              if o.cells[s] == None then v == o else
              var w := o.cells[s].value;
              && OnlyMoves(o, v, w) && o.Stands(w, target) && v.records[w] == None
              && v.lines == o.lines && v.cells == o.cells[s := None] && v.seats == o.seats
              && v.account.calls == o.account.calls + [o.records[w].value.active.wake]
  {
    PopTakesFront(o, target);
    if First(o, target).Some? { assert o.RecordOk(First(o, target).value); }
  }

  /** `notify` counts the waiters in line and changes nothing else. */
  lemma NotifyMeans(o: World, n: Notifier)
    requires o.Good() && n in o.rounds
    ensures n.queue in o.lines
    ensures var v := Step(o, Notify(n));
            v == o.(rounds := o.rounds[n := v.rounds[n]]) && v.rounds[n].remaining == |o.lines[n.queue]|
  {
    assert o.RoundOk(n);
  }

  /**
    A flush does nothing when the round is over, or when someone stands in line and there is no budget.
    Otherwise it is one wake of the line's front, if there is one, and one less left, never more than still stand.
  */
  lemma FlushMeans(o: World, n: Notifier, funded: bool)
    requires o.Good() && n in o.rounds
    ensures n.queue in o.lines
    ensures var v, u, line := Step(o, Flush(n, funded)), Step(o, Op.Wake(AtQueue(n.queue))), o.lines[n.queue];
            if o.rounds[n].remaining == 0 || (!funded && line != []) then v == o
            else
              && v == u.(rounds := u.rounds[n := v.rounds[n]])
              && v.rounds[n].remaining == if line == [] then 0
                                          else if o.rounds[n].remaining < |line| then o.rounds[n].remaining - 1 else |line| - 1
  {
    assert o.RoundOk(n);
    PopTakesFront(o, AtQueue(n.queue));
  }

  /** Over a run, books are only extended, and a waker not held any more keeps its fate. */
  lemma {:induction false} RunFate(o: World, ops: seq<Op>, t: nat)
    requires o.Good() && t < |o.account.fates|
    ensures var a := o.account; var b := Run(o, ops).account;
            && a.grants <= b.grants && a.calls <= b.calls && t < |b.fates| == |b.grants|
            && if !a.fates[t].Held? then b.fates[t] == a.fates[t] else
                 || b.fates[t] == a.fates[t]
                 || (b.fates[t].Woken? && |a.calls| <= b.fates[t].call < |b.calls|)
                 || (b.fates[t].Unregistered? && exists i :: 0 <= i < |ops| && Leaves(ops[i], a.fates[t].waiter))
    decreases |ops|
  {
    if ops != [] {
      StepIsGood(o, ops[0]);
      var v := Step(o, ops[0]);
      if Known(o, ops[0]) { StepFate(o, ops[0], t); }
      RunFate(v, ops[1..], t);
      var b := Run(o, ops).account;
      if b.fates[t].Unregistered? && v.account.fates[t].Held? {
        var i :| 0 <= i < |ops[1..]| && Leaves(ops[1..][i], v.account.fates[t].waiter);
        assert Leaves(ops[i + 1], o.account.fates[t].waiter);
      } else if b.fates[t].Unregistered? && o.account.fates[t].Held? {
        assert Leaves(ops[0], o.account.fates[t].waiter);
      }
    }
  }

  lemma {:induction false} RunAppends(o: World, ops: seq<Op>, op: Op)
    requires o.Good()
    ensures Run(o, ops + [op]) == Step(Run(o, ops), op)
    decreases |ops|
  {
    if ops == [] {
      assert ops + [op] == [op] && [op][1..] == [];
    } else {
      StepIsGood(o, ops[0]);
      assert (ops + [op])[0] == ops[0] && (ops + [op])[1..] == ops[1..] + [op];
      RunAppends(Step(o, ops[0]), ops[1..], op);
    }
  }

  function Wakes(target: Target, k: nat): seq<Op> {
    if k == 0 then [] else Wakes(target, k - 1) + [Op.Wake(target)]
  }

  lemma WakesOnceMore(o: World, ops: seq<Op>, u: World, target: Target)
    requires o.Good() && u == Run(o, ops) && u.Good() && Open(u, target)
    ensures Run(o, ops + [Op.Wake(target)]) == Popped(u, target)
  {
    RunAppends(o, ops, Op.Wake(target));
    assert Known(u, Op.Wake(target));
  }

  lemma PoppedOnceMore(o: World, target: Target, k: nat)
    requires o.Good() && Open(o, target) && k > 0 && PoppedMany(o, target, k - 1) == Run(o, Wakes(target, k - 1))
    ensures PoppedMany(o, target, k) == Run(o, Wakes(target, k))
  {
    WakesOnceMore(o, Wakes(target, k - 1), PoppedMany(o, target, k - 1), target);
  }

  lemma PoppedNone(o: World, target: Target)
    requires o.Good() && Open(o, target)
    ensures PoppedMany(o, target, 0) == Run(o, Wakes(target, 0))
  {
  }

  /** Waking many in one call is a run of as many single wakes, so what holds of runs holds of it. */
  lemma PoppedManyIsRun(o: World, target: Target, k: nat)
    requires o.Good() && Open(o, target)
    ensures PoppedMany(o, target, k) == Run(o, Wakes(target, k))
  {
    PoppedNone(o, target);
    for i := 0 to k
      invariant PoppedMany(o, target, i) == Run(o, Wakes(target, i))
    {
      PoppedOnceMore(o, target, i + 1);
    }
  }

  // ----- Rounds of a notifier -----

  lemma FlushedRound(o: World, n: Notifier, funded: bool)
    requires o.Good() && n in o.rounds
    ensures var v := Flushed(o, n, funded);
            && v.rounds == o.rounds[n := v.rounds[n]]
            && v.rounds[n].limit == o.rounds[n].limit && v.rounds[n].snapshot == o.rounds[n].snapshot
            && v.rounds[n].remaining <= o.rounds[n].remaining
            && (funded && o.rounds[n].remaining > 0 ==> v.rounds[n].remaining < o.rounds[n].remaining)
            && v.rounds[n].spent - o.rounds[n].spent == |v.account.calls| - |o.account.calls|
            && (!funded ==> |v.account.calls| == |o.account.calls|)
  {
    assert o.RoundOk(n);
    PopTakesFront(o, AtQueue(n.queue));
  }

  lemma StepKeepsRounds(o: World, op: Op)
    requires o.Good() && !op.Notify? && !op.Flush?
    ensures Step(o, op).rounds == o.rounds
  {
    if Known(o, op) {
      match op
      case Arrive(_) =>
      case Register(w, _, _) => assert o.RecordOk(w);
      case Unregister(w) => assert o.RecordOk(w);
      case Drop(w) => assert o.RecordOk(w);
      case Wake(target) => PopTakesFront(o, target);
    }
  }

  /** Apart from `notify`, only its own flushes change a notifier's round, and `spent` counts their wakes. */
  lemma StepRound(o: World, op: Op, n: Notifier)
    requires o.Good() && n in o.rounds && op != Notify(n)
    ensures var v := Step(o, op);
            && n in v.rounds && v.rounds[n].limit == o.rounds[n].limit && v.rounds[n].snapshot == o.rounds[n].snapshot
            && v.rounds[n].remaining <= o.rounds[n].remaining
            && (op == Flush(n, true) && o.rounds[n].remaining > 0 ==> v.rounds[n].remaining < o.rounds[n].remaining)
            && (op == Flush(n, false) ==> v.rounds[n].spent == o.rounds[n].spent)
            && if op.Flush? && op.notifier == n
               then v.rounds[n].spent - o.rounds[n].spent == |v.account.calls| - |o.account.calls|
               else v.rounds[n] == o.rounds[n]
  {
    if op.Flush? {
      if Known(o, op) { FlushedRound(o, op.notifier, op.funded); }
    } else if !op.Notify? {
      StepKeepsRounds(o, op);
    }
  }

  /** Flushes of `n` that find budget for one wake. */
  ghost function Funded(ops: seq<Op>, n: Notifier): nat {
    if ops == [] then 0 else (if ops[0] == Flush(n, true) then 1 else 0) + Funded(ops[1..], n)
  }

  /** The wake calls that flushes of `n` make in a run. */
  ghost function FlushWakes(o: World, ops: seq<Op>, n: Notifier): int
    requires o.Good()
    decreases |ops|
  {
    if ops == [] then 0 else
    StepIsGood(o, ops[0]);
    var v := Step(o, ops[0]);
    (if ops[0].Flush? && ops[0].notifier == n then |v.account.calls| - |o.account.calls| else 0) + FlushWakes(v, ops[1..], n)
  }

  /** Until the next `notify`, all flushes of a round together wake no more than its snapshot, however many register. */
  lemma {:induction false} RunRound(o: World, ops: seq<Op>, n: Notifier)
    requires o.Good() && n in o.rounds && Notify(n) !in ops
    ensures Run(o, ops).rounds.Keys >= {n} && Run(o, ops).rounds[n].spent == o.rounds[n].spent + FlushWakes(o, ops, n)
    ensures o.rounds[n].spent + FlushWakes(o, ops, n) <= o.rounds[n].snapshot
    ensures var v := Run(o, ops);
            && n in v.rounds && v.rounds[n].limit == o.rounds[n].limit && v.rounds[n].snapshot == o.rounds[n].snapshot
            && v.rounds[n].remaining <= o.rounds[n].remaining
            && (v.rounds[n].remaining == 0 || v.rounds[n].remaining + Funded(ops, n) <= o.rounds[n].remaining)
    decreases |ops|
  {
    if ops != [] {
      StepIsGood(o, ops[0]);
      StepRound(o, ops[0], n);
      RunRound(Step(o, ops[0]), ops[1..], n);
    } else {
      assert o.RoundOk(n);
    }
  }

  lemma OnlyLaterStand(v: World, n: Notifier, w: Waiter)
    requires v.Good() && n in v.rounds && v.rounds[n].remaining == 0 && v.Stands(w, AtQueue(n.queue))
    ensures v.Seat(w) >= v.rounds[n].limit
  {
    assert v.RecordOk(w);
    assert v.RoundOk(n) && v.LineOk(n.queue);
    var i :| 0 <= i < |v.lines[n.queue]| && v.lines[n.queue][i] == w;
    assert v.Seat(v.lines[n.queue][0]) <= v.Seat(v.lines[n.queue][i]);
  }

  /** When a round is over, whoever still stands in line took a seat after its `notify`. */
  lemma RoundIsOver(v: World, n: Notifier, t: nat)
    requires v.Good() && n in v.rounds && v.rounds[n].remaining == 0
    requires t < |v.account.fates| == |v.account.grants| && v.account.fates[t].Held?
    requires v.account.grants[t].target == AtQueue(n.queue)
    ensures v.account.grants[t].seat >= v.rounds[n].limit
  {
    assert v.HolderOk(t);
    assert v.RecordOk(v.account.fates[t].waiter);
    OnlyLaterStand(v, n, v.account.fates[t].waiter);
  }

  /**
    From a `notify` on, while no new round is started: the flushes wake at most as many waiters as were
    in line, and that many funded flushes end the round. When it has ended, every waker registered with
    this notifier at `notify` is called or was unregistered by its waiter; nobody re-registering can
    keep the round open or take a wake from them.
  */
  lemma NotifyReleases(o: World, n: Notifier, ops: seq<Op>, t: nat)
    requires o.Good() && n in o.rounds && Notify(n) !in ops
    requires t < |o.account.fates| == |o.account.grants|
    requires o.account.fates[t].Held? && o.account.grants[t].target == AtQueue(n.queue)
    ensures n.queue in o.lines && Step(o, Notify(n)).Good()
    ensures var v := Run(Step(o, Notify(n)), ops);
            && n in v.rounds && t < |v.account.fates|
            && FlushWakes(Step(o, Notify(n)), ops, n) <= |o.lines[n.queue]|
            && (Funded(ops, n) >= |o.lines[n.queue]| ==> v.rounds[n].remaining == 0)
            && (v.rounds[n].remaining == 0 ==>
                  || (v.account.fates[t].Woken? && v.account.fates[t].call >= |o.account.calls|)
                  || (v.account.fates[t].Unregistered?
                      && exists i :: 0 <= i < |ops| && Leaves(ops[i], o.account.fates[t].waiter)))
  {
    StepIsGood(o, Notify(n));
    assert o.RoundOk(n) && o.LineOk(n.queue) && o.HolderOk(t);
    var w := o.account.fates[t].waiter;
    assert o.RecordOk(w);
    var start := Step(o, Notify(n));
    RunRound(start, ops, n);
    RunFate(start, ops, t);
    var v := Run(start, ops);
    assert v.RoundOk(n);
    if v.rounds[n].remaining == 0 && v.account.fates[t].Held? {
      RoundIsOver(v, n, t);
    }
  }

  // ----- First in, first out -----

  /** Waiter `w` has the place of seat `s` in a queue; asking again there keeps it. */
  ghost predicate StandsAt(o: World, q: Queue, w: Waiter, s: nat) {
    o.Stands(w, AtQueue(q)) && o.Seat(w) == s
  }

  /** The call by which `w` itself gives up its place in `q`: it leaves, or really moves to another endpoint. */
  ghost predicate Quits(o: World, op: Op, w: Waiter, q: Queue) {
    || Leaves(op, w)
    || (op.Register? && op.waiter == w && op.target != AtQueue(q) && Open(o, op.target) && !Full(o, op.target))
  }

  lemma PoppedPlace(o: World, target: Target, q: Queue, w: Waiter, s: nat)
    requires o.Good() && Open(o, target) && StandsAt(o, q, w, s)
    ensures q in o.lines
    ensures if First(o, target) == Some(w)
            then target == AtQueue(q) && w in o.lines[q] && o.lines[q][0] == w
                 && Popped(o, target).account.calls == o.account.calls + [o.records[w].value.active.wake]
            else StandsAt(Popped(o, target), q, w, s)
  {
    assert o.RecordOk(w);
    PopTakesFront(o, target);
    if First(o, target).Some? { FirstStands(o, target); }
  }

  /** A place ends only by its holder's own doing, or because it is at the front and its waker is called. */
  lemma StepPlace(o: World, op: Op, q: Queue, w: Waiter, s: nat)
    requires o.Good() && StandsAt(o, q, w, s) && !Quits(o, op, w, q)
    ensures q in o.lines
    ensures var v := Step(o, op);
            || StandsAt(v, q, w, s)
            || (w in o.lines[q] && o.lines[q][0] == w
                && v.account.calls == o.account.calls + [o.records[w].value.active.wake])
  {
    assert o.RecordOk(w);
    if Known(o, op) {
      match op
      case Arrive(_) =>
      case Register(x, _, _) => assert o.RecordOk(x);
      case Unregister(x) => assert o.RecordOk(x);
      case Drop(x) => assert o.RecordOk(x);
      case Wake(target) => PoppedPlace(o, target, q, w, s);
      case Notify(_) =>
      case Flush(n, _) =>
        assert o.RoundOk(n);
        PoppedPlace(o, AtQueue(n.queue), q, w, s);
    }
  }

  lemma RegisteredSeat(o: World, x: Waiter, target: Target, wake: Waker, q: Queue, w: Waiter, s: nat)
    requires o.Good() && x in o.records && Open(o, target) && s < o.seats
    requires StandsAt(Registered(o, x, target, wake), q, w, s)
    ensures StandsAt(o, q, w, s)
  {
    assert o.RecordOk(x);
  }

  /** Seats are handed out once, so a place that has ended is never held again. */
  lemma SeatIsNotRetaken(o: World, op: Op, q: Queue, w: Waiter, s: nat)
    requires o.Good() && s < o.seats && StandsAt(Step(o, op), q, w, s)
    ensures StandsAt(o, q, w, s)
  {
    if Known(o, op) {
      match op
      case Arrive(_) =>
      case Register(x, target, wake) => RegisteredSeat(o, x, target, wake, q, w, s);
      case Unregister(x) => assert o.RecordOk(x);
      case Drop(x) => assert o.RecordOk(x);
      case Wake(target) => PopTakesFront(o, target);
      case Notify(_) =>
      case Flush(n, _) =>
        assert o.RoundOk(n);
        PopTakesFront(o, AtQueue(n.queue));
    }
  }

  lemma StepGrows(o: World, op: Op)
    requires o.Good()
    ensures o.account.calls <= Step(o, op).account.calls && o.seats <= Step(o, op).seats
  {
    if Known(o, op) {
      match op
      case Arrive(_) =>
      case Register(x, target, wake) => RegisteredAccount(o, x, target, wake);
      case Unregister(x) => assert o.RecordOk(x);
      case Drop(x) => assert o.RecordOk(x);
      case Wake(target) => PopTakesFront(o, target);
      case Notify(_) =>
      case Flush(n, _) =>
        assert o.RoundOk(n);
        PopTakesFront(o, AtQueue(n.queue));
    }
  }

  lemma {:induction false} RunGrows(o: World, ops: seq<Op>)
    requires o.Good()
    ensures o.account.calls <= Run(o, ops).account.calls && o.seats <= Run(o, ops).seats
    decreases |ops|
  {
    if ops != [] {
      StepIsGood(o, ops[0]);
      StepGrows(o, ops[0]);
      RunGrows(Step(o, ops[0]), ops[1..]);
    }
  }

  lemma {:induction false} RunDoesNotRetake(o: World, ops: seq<Op>, q: Queue, w: Waiter, s: nat)
    requires o.Good() && s < o.seats && StandsAt(Run(o, ops), q, w, s)
    ensures StandsAt(o, q, w, s)
    decreases |ops|
  {
    if ops != [] {
      StepIsGood(o, ops[0]);
      StepGrows(o, ops[0]);
      RunDoesNotRetake(Step(o, ops[0]), ops[1..], q, w, s);
      SeatIsNotRetaken(o, ops[0], q, w, s);
    }
  }

  lemma SeatIsTaken(o: World, q: Queue, w: Waiter, s: nat)
    requires o.Good() && StandsAt(o, q, w, s)
    ensures q in o.lines && o.LineOk(q) && w in o.lines[q] && s < o.seats
  {
    assert o.RecordOk(w);
    assert o.LineOk(q);
    var i :| 0 <= i < |o.lines[q]| && o.lines[q][i] == w;
  }

  /** While an earlier place is held, no call but its holder's own ends a later one. */
  lemma StepFifo(o: World, op: Op, q: Queue, w: Waiter, s: nat, x: Waiter, u: nat)
    requires o.Good() && s < u && StandsAt(o, q, w, s) && StandsAt(o, q, x, u) && !Quits(o, op, x, q)
    ensures StandsAt(Step(o, op), q, x, u)
  {
    SeatIsTaken(o, q, w, s);
    SeatIsTaken(o, q, x, u);
    FrontHasLeastSeat(o, q, w, x);
    StepPlace(o, op, q, x, u);
  }

  lemma FrontHasLeastSeat(o: World, q: Queue, w: Waiter, x: Waiter)
    requires q in o.lines && o.LineOk(q) && w in o.lines[q] && x in o.lines[q] && o.Seat(w) < o.Seat(x)
    ensures o.lines[q][0] != x
  {
    var i :| 0 <= i < |o.lines[q]| && o.lines[q][i] == w;
    assert i > 0 ==> o.Seat(o.lines[q][0]) < o.Seat(o.lines[q][i]);
  }

  /** In this run `w` never gives up the place itself; it may ask again there, and do anything once the place has ended. */
  ghost predicate Stays(o: World, ops: seq<Op>, q: Queue, w: Waiter, s: nat)
    requires o.Good()
    decreases |ops|
  {
    ops != [] ==>
      && (StandsAt(o, q, w, s) ==> !Quits(o, ops[0], w, q))
      && (StepIsGood(o, ops[0]); Stays(Step(o, ops[0]), ops[1..], q, w, s))
  }

  /** Over any run, as long as the earlier of two places in a queue is held, so is the later one. */
  lemma {:induction false} RunFifo(o: World, ops: seq<Op>, q: Queue, w: Waiter, s: nat, x: Waiter, u: nat)
    requires o.Good() && s < u < o.seats && Stays(o, ops, q, x, u)
    requires StandsAt(o, q, w, s) ==> StandsAt(o, q, x, u)
    ensures StandsAt(Run(o, ops), q, w, s) ==> StandsAt(Run(o, ops), q, x, u)
    decreases |ops|
  {
    if ops != [] {
      var op, v := ops[0], Step(o, ops[0]);
      StepIsGood(o, op);
      StepGrows(o, op);
      if StandsAt(v, q, w, s) {
        SeatIsNotRetaken(o, op, q, w, s);
        StepFifo(o, op, q, w, s, x, u);
      }
      RunFifo(v, ops[1..], q, w, s, x, u);
    }
  }

  /** Which wake call ended a place in a run, and the waker its holder was registered with by then. */
  ghost function Release(o: World, ops: seq<Op>, q: Queue, w: Waiter, s: nat): Option<(nat, Waker)>
    requires o.Good()
    decreases |ops|
  {
    if ops == [] || !StandsAt(o, q, w, s) then None else
    StepIsGood(o, ops[0]);
    var v := Step(o, ops[0]);
    if StandsAt(v, q, w, s) then Release(v, ops[1..], q, w, s)
    else Some((|o.account.calls|, o.records[w].value.active.wake))
  }

  /** A place that has ended without its holder giving it up was ended by a call of the holder's present waker. */
  lemma {:induction false} EndedByCall(o: World, ops: seq<Op>, q: Queue, w: Waiter, s: nat)
    requires o.Good() && Stays(o, ops, q, w, s) && StandsAt(o, q, w, s) && !StandsAt(Run(o, ops), q, w, s)
    ensures var v, release := Run(o, ops), Release(o, ops, q, w, s);
            && release.Some?
            && |o.account.calls| <= release.value.0 < |v.account.calls| && v.account.calls[release.value.0] == release.value.1
    decreases |ops|
  {
    var u := Step(o, ops[0]);
    StepIsGood(o, ops[0]);
    StepGrows(o, ops[0]);
    StepPlace(o, ops[0], q, w, s);
    if StandsAt(u, q, w, s) {
      EndedByCall(u, ops[1..], q, w, s);
    } else {
      RunGrows(u, ops[1..]);
      assert u.account.calls[|o.account.calls|] == o.records[w].value.active.wake;
    }
  }

  /** Of two places that end so, the earlier one is called first. */
  lemma {:induction false} ReleasedInOrder(o: World, ops: seq<Op>, q: Queue, w: Waiter, s: nat, x: Waiter, u: nat)
    requires o.Good() && s < u && StandsAt(o, q, w, s) && StandsAt(o, q, x, u)
    requires Stays(o, ops, q, w, s) && Stays(o, ops, q, x, u)
    requires !StandsAt(Run(o, ops), q, w, s) && !StandsAt(Run(o, ops), q, x, u)
    ensures Release(o, ops, q, w, s).Some? && Release(o, ops, q, x, u).Some?
    ensures Release(o, ops, q, w, s).value.0 < Release(o, ops, q, x, u).value.0
    decreases |ops|
  {
    var v := Step(o, ops[0]);
    StepIsGood(o, ops[0]);
    StepFifo(o, ops[0], q, w, s, x, u);
    StepPlace(o, ops[0], q, w, s);
    if StandsAt(v, q, w, s) {
      ReleasedInOrder(v, ops[1..], q, w, s, x, u);
    } else {
      EndedByCall(v, ops[1..], q, x, u);
    }
  }

  /** When a round is over, every place held at its `notify` has ended. */
  lemma RoundEndsPlaces(v: World, n: Notifier, w: Waiter, s: nat)
    requires v.Good() && n in v.rounds && v.rounds[n].remaining == 0 && s < v.rounds[n].limit
    ensures !StandsAt(v, n.queue, w, s)
  {
    if StandsAt(v, n.queue, w, s) { OnlyLaterStand(v, n, w); }
  }

  /**
    Two waiters in line at `notify` that stay, asking again in place as often as they like, are both called
    by a round with enough funded flushes: with the waker each is registered with by then, the one ahead first.
  */
  lemma NotifyWakesInOrder(o: World, n: Notifier, ops: seq<Op>, w: Waiter, s: nat, x: Waiter, u: nat)
    requires o.Good() && n in o.rounds && Notify(n) !in ops
    requires s < u && StandsAt(o, n.queue, w, s) && StandsAt(o, n.queue, x, u)
    ensures n.queue in o.lines && Step(o, Notify(n)).Good()
    ensures var start, q := Step(o, Notify(n)), n.queue;
            var calls, first, second := Run(start, ops).account.calls, Release(start, ops, q, w, s), Release(start, ops, q, x, u);
            Stays(start, ops, q, w, s) && Stays(start, ops, q, x, u) && Funded(ops, n) >= |o.lines[q]| ==>
              && first.Some? && second.Some? && |o.account.calls| <= first.value.0 < second.value.0 < |calls|
              && calls[first.value.0] == first.value.1 && calls[second.value.0] == second.value.1
  {
    NotifiedIsGood(o, n);
    SeatIsTaken(o, n.queue, w, s);
    SeatIsTaken(o, n.queue, x, u);
    var start, q := Step(o, Notify(n)), n.queue;
    RunRound(start, ops, n);
    if Stays(start, ops, q, w, s) && Stays(start, ops, q, x, u) && Funded(ops, n) >= |o.lines[q]| {
      RoundEndsPlaces(Run(start, ops), n, w, s);
      RoundEndsPlaces(Run(start, ops), n, x, u);
      EndedByCall(start, ops, q, w, s);
      EndedByCall(start, ops, q, x, u);
      ReleasedInOrder(start, ops, q, w, s, x, u);
    }
  }

  // ----- The objects -----

  /** The application budget of one turn; `refunds` says whether an admission that finds nothing is free. */
  class Work {
    var credits: nat
    const refunds: bool

    constructor (credits: nat, refunds: bool)
      ensures this.credits == credits && this.refunds == refunds
    {
      this.credits, this.refunds := credits, refunds;
    }

    /** Accounts for one admission that did or did not find an item. */
    method Admit(item: bool)
      requires credits > 0
      modifies this`credits
      ensures credits == if item || !refunds then old(credits) - 1 else old(credits)
    {
      if item || !refunds { credits := credits - 1; }
    }
  }

  /** The driver that wakers belong to: `calls` are the wake calls made so far. */
  class Driver {
    var calls: seq<Waker>
    ghost var world: World

    constructor ()
      ensures Valid() && calls == [] && world == World(map[], map[], map[], map[], 0, Account([], [], [], []))
    {
      calls, world := [], World(map[], map[], map[], map[], 0, Account([], [], [], []));
    }

    ghost predicate Valid()
      reads *
    {
      && world.Good() && Agrees()
    }

    /** A wake call; `ticket` is the accepted waker behind it, which has left its endpoint. */
    method Wake(wake: Waker, ghost ticket: nat)
      requires Valid() && ticket < |world.account.fates| == |world.account.grants|
      requires world.account.fates[ticket].Unregistered? && world.account.grants[ticket].wake == wake
      modifies this
      ensures Valid() && world == old(world).Called(ticket) && calls == old(calls) + [wake]
    {
      CalledIsGood(world, ticket);
      calls := calls + [wake];
      world := world.Called(ticket);
    }

    /** Calls the waker a moved registration replaced, which completes the move. */
    method CallReplaced(previous: Option<Waker>, ghost o: World, ghost w: Waiter, ghost target: Target, ghost wake: Waker)
      requires Valid() && o.Good() && w in o.records && Open(o, target) && !Full(o, target)
      requires o.records[w].Some? ==> o.records[w].value.active.target != target
      requires o.RecordOk(w) && Open(o.Vacated(w), target) && world == o.Vacated(w).Placed(w, target, wake)
      requires previous == if o.records[w].None? then None else Some(o.records[w].value.active.wake)
      modifies this
      ensures Valid() && world == Registered(o, w, target, wake)
    {
      RegisteredMoves(o, w, target, wake);
      if previous.Some? {
        Wake(previous.value, o.records[w].value.ticket);
      }
    }

    ghost predicate Agrees()
      reads *
    {
      && calls == world.account.calls
      && (forall q {:trigger q.links} {:trigger q.len} | q in world.lines :: q.links == world.lines[q] && q.len == |q.links|)
      && (forall s {:trigger s.waiter} | s in world.cells :: s.waiter == world.cells[s])
      && (forall w {:trigger w.active} | w in world.records :: w.active == Standing(world.records[w]))
      && (forall n {:trigger n.remaining} | n in world.rounds :: n.remaining == world.rounds[n].remaining)
    }
  }

  function Standing(record: Option<Record>): Option<Active> {
    match record case None => None case Some(r) => Some(r.active)
  }

  class Waiter {
    var active: Option<Active>

    constructor (driver: Driver)
      requires driver.Valid()
      modifies driver`world
      ensures driver.Valid() && fresh(this) && active == None
      ensures driver.world == Step(old(driver.world), Arrive(this)) && this !in old(driver.world.records)
    {
      active := None;
      new;
      StepIsGood(driver.world, Arrive(this));
      driver.world := Step(driver.world, Arrive(this));
    }

    ghost predicate Names(target: Target)
      reads this
    {
      active.Some? && active.value.target == target
    }

    ghost function Endpoint(): set<object>
      reads this
    {
      match active
      case None => {}
      case Some(Active(AtQueue(q), _)) => {q}
      case Some(Active(AtSlot(s), _)) => {s}
    }

    /** Renews a registration that already names `target`; otherwise hands the waker back. */
    method Replace(driver: Driver, target: Target, wake: Waker) returns (back: Option<Waker>)
      requires driver.Valid() && this in driver.world.records && Open(driver.world, target)
      modifies driver, this
      ensures driver.Valid()
      ensures old(active.Some? && active.value.target == target) ==>
                && back == None && driver.world == Registered(old(driver.world), this, target, wake)
                && active == Some(Active(target, wake))
      ensures old(active) == Some(Active(target, wake)) ==>
                driver.calls == old(driver.calls) && driver.world == old(driver.world) && unchanged(this)
      ensures old(active.Some? && active.value.target == target && active.value.wake != wake) ==>
                && driver.calls == old(driver.calls) + [old(active).value.wake]
                && this in driver.world.records && old(driver.world).records[this].Some? && driver.world.records[this].Some?
                && driver.world.Seat(this) == old(driver.world).Seat(this)
      ensures !old(active.Some? && active.value.target == target) ==>
                back == Some(wake) && driver.world == old(driver.world) && unchanged(this)
    {
      if active.Some? && active.value.target == target {
        if active.value.wake != wake { Renew(driver, wake); }
        back := None;
      } else {
        back := Some(wake);
      }
    }

    /** Puts another waker in the registration and calls the old one. */
    method Renew(driver: Driver, wake: Waker)
      requires driver.Valid() && this in driver.world.records && active.Some? && active.value.wake != wake
      modifies driver, this
      ensures driver.Valid() && old(driver.world).RecordOk(this) && driver.world == old(driver.world).Renewed(this, wake)
    {
      var previous := active.value;
      assert driver.world.RecordOk(this);
      RenewedIsGood(driver.world, this, wake);
      active := Some(Active(previous.target, wake));
      driver.world := driver.world.Renewed(this, wake);
      driver.calls := driver.calls + [previous.wake];
    }

    /** Leaves the endpoint the registration names, if any, and hands its waker back. */
    method Vacate(driver: Driver) returns (wake: Option<Waker>)
      requires driver.Valid() && this in driver.world.records
      modifies driver`world, this, Endpoint()
      ensures driver.Valid() && old(driver.world).RecordOk(this) && driver.world == old(driver.world).Vacated(this)
      ensures active == None && wake == if old(active).None? then None else Some(old(active).value.wake)
    {
      assert driver.world.RecordOk(this);
      VacatedIsGood(driver.world, this);
      wake := None;
      if active.Some? {
        wake := Some(active.value.wake);
        Unlink(driver);
      }
    }

    method Unlink(driver: Driver)
      requires driver.Valid() && this in driver.world.records && active.Some?
      modifies driver`world, this, Endpoint()
      ensures driver.Valid() && old(driver.world).RecordOk(this) && driver.world == old(driver.world).Vacated(this)
      ensures active == None
    {
      match active.value.target
      case AtQueue(q) => UnlinkQueue(driver, q);
      case AtSlot(s) => UnlinkSlot(driver, s);
    }

    method UnlinkQueue(driver: Driver, q: Queue)
      requires driver.Valid() && this in driver.world.records && active.Some? && active.value.target == AtQueue(q)
      modifies driver`world, this, q
      ensures driver.Valid() && old(driver.world).RecordOk(this) && driver.world == old(driver.world).Vacated(this)
      ensures active == None
    {
      VacatedIsGood(driver.world, this);
      q.Detach(this);
      active := None;
      driver.world := driver.world.Vacated(this);
    }

    method UnlinkSlot(driver: Driver, s: Slot)
      requires driver.Valid() && this in driver.world.records && active.Some? && active.value.target == AtSlot(s)
      modifies driver`world, this, s
      ensures driver.Valid() && old(driver.world).RecordOk(this) && driver.world == old(driver.world).Vacated(this)
      ensures active == None
    {
      VacatedIsGood(driver.world, this);
      s.waiter := None;
      active := None;
      driver.world := driver.world.Vacated(this);
    }

    /** Joins `queue`; the caller has vacated this waiter and found room. */
    method Enqueue(driver: Driver, queue: Queue, wake: Waker)
      requires driver.Valid() && this in driver.world.records && active == None
      requires queue in driver.world.lines && queue.len < queue.capacity
      modifies driver`world, this, queue
      ensures driver.Valid() && driver.world == old(driver.world).Placed(this, AtQueue(queue), wake)
      ensures active == Some(Active(AtQueue(queue), wake))
    {
      PlacedIsGood(driver.world, this, AtQueue(queue), wake);
      active := Some(Active(AtQueue(queue), wake));
      queue.links := queue.links + [this];
      queue.len := queue.len + 1;
      driver.world := driver.world.Placed(this, AtQueue(queue), wake);
    }

    method Bind(driver: Driver, slot: Slot, wake: Waker)
      requires driver.Valid() && this in driver.world.records && active == None
      requires slot in driver.world.cells && slot.waiter == None
      modifies driver`world, this, slot
      ensures driver.Valid() && driver.world == old(driver.world).Placed(this, AtSlot(slot), wake)
      ensures active == Some(Active(AtSlot(slot), wake))
    {
      PlacedIsGood(driver.world, this, AtSlot(slot), wake);
      active := Some(Active(AtSlot(slot), wake));
      slot.waiter := Some(this);
      driver.world := driver.world.Placed(this, AtSlot(slot), wake);
    }

    method Unregister(driver: Driver)
      requires driver.Valid() && this in driver.world.records
      modifies driver`world, this, Endpoint()
      ensures driver.Valid() && driver.world == Step(old(driver.world), Op.Unregister(this))
      ensures active == None
    {
      var wake := Vacate(driver);
    }
  }

  class Queue {
    var links: seq<Waiter>
    var len: nat
    const capacity: nat

    constructor (driver: Driver, capacity: nat)
      requires driver.Valid()
      modifies driver`world
      ensures driver.Valid() && fresh(this) && this.capacity == capacity
      ensures driver.world == old(driver.world).(lines := old(driver.world).lines[this := []])
    {
      links, len := [], 0;
      this.capacity := capacity;
      new;
      EndpointIsGood(driver.world, this);
      driver.world := driver.world.(lines := driver.world.lines[this := []]);
    }

    method Detach(entry: Waiter)
      requires entry in links && len == |links|
      modifies this
      ensures links == Without(old(links), entry) && len == |links|
    {
      links := Without(links, entry);
      len := len - 1;
    }

    method TryRegister(driver: Driver, waiter: Waiter, completion: Waker) returns (r: Result<(), Error>)
      requires driver.Valid() && waiter in driver.world.records && this in driver.world.lines
      modifies driver, this, waiter, waiter.Endpoint()
      ensures driver.Valid() && driver.world == Registered(old(driver.world), waiter, AtQueue(this), completion)
      ensures r == if old(len) >= capacity && !old(waiter.Names(AtQueue(this)))
                   then Err(QueueFull(capacity, completion)) else Ok(())
      ensures r.Err? ==> driver.world == old(driver.world)
      ensures r.Ok? ==> waiter.active == Some(Active(AtQueue(this), completion))
    {
      var back := waiter.Replace(driver, AtQueue(this), completion);
      if back.None? {
        r := Ok(());
      } else if len >= capacity {
        r := Err(QueueFull(capacity, back.value));
      } else {
        Admit(driver, waiter, back.value);
        r := Ok(());
      }
    }

    /** Moves a waiter that stands elsewhere, or nowhere, to the back of this queue. */
    method Admit(driver: Driver, waiter: Waiter, wake: Waker)
      requires driver.Valid() && waiter in driver.world.records && this in driver.world.lines
      requires len < capacity && !waiter.Names(AtQueue(this))
      modifies driver, this, waiter, waiter.Endpoint()
      ensures driver.Valid() && driver.world == Registered(old(driver.world), waiter, AtQueue(this), wake)
      ensures waiter.active == Some(Active(AtQueue(this), wake))
    {
      ghost var o := driver.world;
      RegisteredMoves(o, waiter, AtQueue(this), wake);
      var previous := waiter.Vacate(driver);
      waiter.Enqueue(driver, this, wake);
      driver.CallReplaced(previous, o, waiter, AtQueue(this), wake);
    }

    /** Takes the front waiter out of line; the ghost result is the ticket of its waker. */
    method Pop(driver: Driver) returns (wake: Option<Waker>, ghost ticket: nat)
      requires driver.Valid() && this in driver.world.lines
      modifies driver`world, this, driver.world.records.Keys
      ensures driver.Valid()
      ensures old(links) == [] ==> wake == None && driver.world == old(driver.world) && links == []
      ensures old(links) != [] ==>
                var w := old(links)[0];
                && w in old(driver.world).records && old(driver.world).RecordOk(w) && wake.Some?
                && driver.world == old(driver.world).Vacated(w)
                && old(driver.world).records[w].Some?
                && ticket == old(driver.world).records[w].value.ticket
                && wake.value == old(driver.world).records[w].value.active.wake
    {
      ticket := 0;
      wake := None;
      if links != [] {
        var entry := links[0];
        FirstStands(driver.world, AtQueue(this));
        assert driver.world.RecordOk(entry);
        ticket := driver.world.records[entry].value.ticket;
        wake := Some(entry.active.value.wake);
        entry.UnlinkQueue(driver, this);
      }
    }

    /** Pops the front waiter, if there is one, and calls its waker. */
    method PopAndWake(driver: Driver) returns (item: bool)
      requires driver.Valid() && this in driver.world.lines
      modifies driver, this, driver.world.records.Keys
      ensures driver.Valid() && this in driver.world.lines
      ensures driver.world == Popped(old(driver.world), AtQueue(this))
      ensures driver.world.records.Keys == old(driver.world).records.Keys
      ensures item == (old(len) > 0) && len == if item then old(len) - 1 else 0
    {
      PopTakesFront(driver.world, AtQueue(this));
      PoppedSteps(driver.world, AtQueue(this));
      var wake, ticket := Pop(driver);
      item := wake.Some?;
      if item {
        driver.Wake(wake.value, ticket);
      }
    }

    /** Wakes the front waiter if the turn still has budget. */
    method WakeOne(driver: Driver, work: Work) returns (status: WakeStatus)
      requires driver.Valid() && this in driver.world.lines
      modifies driver, this, work`credits, driver.world.records.Keys
      ensures driver.Valid()
      ensures driver.world == if old(work.credits) > 0 then Popped(old(driver.world), AtQueue(this)) else old(driver.world)
      ensures len == if old(work.credits) > 0 && old(len) > 0 then old(len) - 1 else old(len)
      ensures this in driver.world.lines && driver.world.records.Keys == old(driver.world).records.Keys
      ensures status == if old(work.credits) == 0 && old(len) > 0 then Pending else Complete
      ensures work.credits
           == if old(work.credits) > 0 && (old(len) > 0 || !work.refunds) then old(work.credits) - 1 else old(work.credits)
    {
      if work.credits == 0 {
        status := if len != 0 then Pending else Complete;
      } else {
        var item := PopAndWake(driver);
        work.Admit(item);
        status := Complete;
      }
    }

    /** Wakes waiters in line order while the budget lasts. */
    method Wake(driver: Driver, work: Work) returns (status: WakeStatus, ghost woken: nat)
      requires driver.Valid() && this in driver.world.lines
      modifies driver, this, work`credits, driver.world.records.Keys
      ensures driver.Valid()
      ensures woken == if old(work.credits) < old(len) then old(work.credits) else old(len)
      ensures driver.world == PoppedMany(old(driver.world), AtQueue(this), woken)
      ensures status == if old(work.credits) < old(len) then Pending else Complete
    {
      ghost var o, size := driver.world, len;
      woken := 0;
      while work.credits > 0 && len != 0
        invariant driver.Valid() && this in driver.world.lines
        invariant woken + len == size
        invariant work.credits == old(work.credits) - woken
        invariant driver.world == PoppedMany(o, AtQueue(this), woken) && driver.world.records.Keys == o.records.Keys
        decreases len
      {
        status := WakeOne(driver, work);
        woken := woken + 1;
      }
      if work.credits > 0 {
        work.Admit(false);
        status := Complete;
      } else {
        status := if len != 0 then Pending else Complete;
      }
    }

    /** Releases every waiter when the owner of the queue is done. */
    method WakeAll(driver: Driver)
      requires driver.Valid() && this in driver.world.lines
      modifies driver, this, driver.world.records.Keys
      ensures driver.Valid() && len == 0
      ensures driver.world == PoppedMany(old(driver.world), AtQueue(this), old(len))
    {
      ghost var o, size, woken := driver.world, len, 0;
      while len != 0
        invariant driver.Valid() && this in driver.world.lines
        invariant woken + len == size
        invariant driver.world == PoppedMany(o, AtQueue(this), woken) && driver.world.records.Keys == o.records.Keys
        decreases len
      {
        var item := PopAndWake(driver);
        woken := woken + 1;
      }
    }
  }

  class Slot {
    var waiter: Option<Waiter>

    constructor (driver: Driver)
      requires driver.Valid()
      modifies driver`world
      ensures driver.Valid() && fresh(this)
      ensures driver.world == old(driver.world).(cells := old(driver.world).cells[this := None])
    {
      waiter := None;
      new;
      CellIsGood(driver.world, this);
      driver.world := driver.world.(cells := driver.world.cells[this := None]);
    }

    method TryRegister(driver: Driver, waiter: Waiter, completion: Waker) returns (r: Result<(), Error>)
      requires driver.Valid() && waiter in driver.world.records && this in driver.world.cells
      modifies driver, this, waiter, waiter.Endpoint()
      ensures driver.Valid() && driver.world == Registered(old(driver.world), waiter, AtSlot(this), completion)
      ensures r == if old(this.waiter).Some? && !old(waiter.Names(AtSlot(this))) then Err(SlotFull(completion)) else Ok(())
      ensures r.Err? ==> driver.world == old(driver.world)
      ensures r.Ok? ==> waiter.active == Some(Active(AtSlot(this), completion))
    {
      var back := waiter.Replace(driver, AtSlot(this), completion);
      if back.None? {
        r := Ok(());
      } else if this.waiter.Some? {
        r := Err(SlotFull(back.value));
      } else {
        Admit(driver, waiter, back.value);
        r := Ok(());
      }
    }

    /** Moves a waiter that stands elsewhere, or nowhere, into this free slot. */
    method Admit(driver: Driver, waiter: Waiter, wake: Waker)
      requires driver.Valid() && waiter in driver.world.records && this in driver.world.cells
      requires this.waiter.None? && !waiter.Names(AtSlot(this))
      modifies driver, this, waiter, waiter.Endpoint()
      ensures driver.Valid() && driver.world == Registered(old(driver.world), waiter, AtSlot(this), wake)
      ensures waiter.active == Some(Active(AtSlot(this), wake))
    {
      ghost var o := driver.world;
      RegisteredMoves(o, waiter, AtSlot(this), wake);
      var previous := waiter.Vacate(driver);
      waiter.Bind(driver, this, wake);
      driver.CallReplaced(previous, o, waiter, AtSlot(this), wake);
    }

    /** Empties the slot and calls its waker, if it has one. */
    method TakeAndWake(driver: Driver) returns (item: bool)
      requires driver.Valid() && this in driver.world.cells
      modifies driver, this, driver.world.records.Keys
      ensures driver.Valid() && driver.world == Popped(old(driver.world), AtSlot(this))
      ensures item == old(waiter).Some? && waiter == None && this in driver.world.cells
    {
      ghost var o := driver.world;
      PopTakesFront(o, AtSlot(this));
      PoppedSteps(o, AtSlot(this));
      item := waiter.Some?;
      if item {
        var link := waiter.value;
        var active := link.active.value;
        link.UnlinkSlot(driver, this);
        driver.Wake(active.wake, o.records[link].value.ticket);
      }
    }

    method WakeOne(driver: Driver, work: Work) returns (status: WakeStatus)
      requires driver.Valid() && this in driver.world.cells
      modifies driver, this, work`credits, driver.world.records.Keys
      ensures driver.Valid()
      ensures driver.world == if old(work.credits) > 0 then Popped(old(driver.world), AtSlot(this)) else old(driver.world)
      ensures status == if old(work.credits) == 0 && old(waiter).Some? then Pending else Complete
      ensures work.credits
           == if old(work.credits) > 0 && (old(waiter).Some? || !work.refunds) then old(work.credits) - 1 else old(work.credits)
    {
      if work.credits == 0 {
        status := if waiter.Some? then Pending else Complete;
      } else {
        var item := TakeAndWake(driver);
        work.Admit(item);
        status := Complete;
      }
    }
  }

  /** Notifies the waiters in line in rounds; `Round` in the world counts the wakes left. */
  class Notifier {
    const queue: Queue
    var remaining: nat

    constructor (driver: Driver, capacity: nat)
      requires driver.Valid()
      modifies driver`world
      ensures driver.Valid() && fresh(this) && fresh(queue) && queue.capacity == capacity && remaining == 0
      ensures var o := old(driver.world);
              driver.world == o.(lines := o.lines[queue := []], rounds := o.rounds[this := Round(0, 0, 0, 0)])
    {
      var q := new Queue(driver, capacity);
      queue := q;
      remaining := 0;
      new;
      RecountedIsGood(driver.world, this, Round(0, 0, 0, 0));
      driver.world := driver.world.Recounted(this, Round(0, 0, 0, 0));
    }

    method TryRegister(driver: Driver, waiter: Waiter, completion: Waker) returns (r: Result<(), Error>)
      requires driver.Valid() && waiter in driver.world.records && this in driver.world.rounds && queue in driver.world.lines
      modifies driver, queue, waiter, waiter.Endpoint()
      ensures driver.Valid() && driver.world == Registered(old(driver.world), waiter, AtQueue(queue), completion)
      ensures r == if old(queue.len) >= queue.capacity && !old(waiter.Names(AtQueue(queue)))
                   then Err(QueueFull(queue.capacity, completion)) else Ok(())
      ensures r.Err? ==> driver.world == old(driver.world)
      ensures r.Ok? ==> waiter.active == Some(Active(AtQueue(queue), completion))
    {
      r := queue.TryRegister(driver, waiter, completion);
    }

    /** Starts a round with the waiters now in line. */
    method Notify(driver: Driver)
      requires driver.Valid() && this in driver.world.rounds
      modifies driver`world, this
      ensures driver.Valid() && driver.world == Notified(old(driver.world), this)
      ensures remaining == old(queue.len)
    {
      NotifiedIsGood(driver.world, this);
      Count(driver, queue.len, Notified(driver.world, this).rounds[this]);
    }

    /** Sets the wakes left in this round. */
    method Count(driver: Driver, remaining: nat, ghost round: Round)
      requires driver.Valid() && this in driver.world.rounds
      requires round.remaining == remaining && driver.world.Recounted(this, round).Good()
      modifies driver`world, this
      ensures driver.Valid() && driver.world == old(driver.world).Recounted(this, round)
      ensures this.remaining == remaining
    {
      this.remaining := remaining;
      driver.world := driver.world.Recounted(this, round);
    }

    /** Takes one wake off the round, which never outlasts the line. */
    method Spend(driver: Driver, ghost o: World, ghost funded: bool)
      requires driver.Valid() && this in driver.world.rounds && queue in driver.world.lines
      requires o.Good() && this in o.rounds && o.RoundOk(this) && o.rounds[this].remaining == remaining != 0
      requires funded || o.lines[queue] == []
      requires driver.world == if funded then Popped(o, AtQueue(queue)) else o
      modifies driver`world, this
      ensures driver.Valid() && driver.world == Flushed(o, this, funded)
    {
      FlushedSteps(o, this, funded);
      var left := if remaining - 1 < queue.len then remaining - 1 else queue.len;
      Count(driver, left, Flushed(o, this, funded).rounds[this]);
    }

    /** Wakes at most one waiter of the round, budget permitting. */
    method Flush(driver: Driver, work: Work)
      requires driver.Valid() && this in driver.world.rounds
      modifies driver, this, queue, work`credits, driver.world.records.Keys
      ensures driver.Valid() && driver.world == Flushed(old(driver.world), this, old(work.credits) > 0)
    {
      ghost var o, funded := driver.world, work.credits > 0;
      assert o.RoundOk(this);
      if remaining != 0 {
        PopTakesFront(o, AtQueue(queue));
        var status := queue.WakeOne(driver, work);
        if status == Complete {
          Spend(driver, o, funded);
        }
      }
    }
  }
}
