/**
  Route identities of one driver: the live bits, the claims and owners that hold them, deferred
  returns, and the generation floor each route keeps across installations.
*/
module RouteLease {
  import opened Outcomes
  import opened MachineWords

  const CAPACITY: nat := 256
  const WORDS: nat := 4

  /** One of 256 routes; the last belongs to the framework and is never leased. */
  type Route = x: nat | x < CAPACITY

  // ----- Live bits -----

  predicate Bit(word: nat, k: nat) {
    if k == 0 then word % 2 == 1 else Bit(word / 2, k - 1)
  }

  function And(x: nat, y: nat): nat {
    if x == 0 && y == 0 then 0 else
      (if x % 2 == 1 && y % 2 == 1 then 1 else 0) + 2 * And(x / 2, y / 2)
  }

  /** `x` without the bits of `y`. */
  function AndNot(x: nat, y: nat): nat {
    if x == 0 && y == 0 then 0 else
      (if x % 2 == 1 && y % 2 == 0 then 1 else 0) + 2 * AndNot(x / 2, y / 2)
  }

  lemma {:induction false} NoBits(k: nat)
    ensures !Bit(0, k)
  {
    if k > 0 { NoBits(k - 1); }
  }

  lemma {:induction false} MaskBit(k: nat, j: nat)
    ensures Bit(Pow2(k), j) <==> j == k
  {
    if k == 0 {
      if j > 0 { NoBits(j - 1); }
    } else {
      assert Pow2(k) / 2 == Pow2(k - 1);
      if j > 0 { MaskBit(k - 1, j - 1); }
    }
  }

  lemma {:induction false} OrBit(x: nat, y: nat, j: nat)
    ensures Bit(Or(x, y), j) <==> Bit(x, j) || Bit(y, j)
  {
    if x == 0 && y == 0 {
      NoBits(j);
    } else if j > 0 {
      OrBit(x / 2, y / 2, j - 1);
    }
  }

  lemma {:induction false} AndNotBit(x: nat, y: nat, j: nat)
    ensures Bit(AndNot(x, y), j) <==> Bit(x, j) && !Bit(y, j)
  {
    if x == 0 && y == 0 {
      NoBits(j);
    } else if j > 0 {
      AndNotBit(x / 2, y / 2, j - 1);
    }
  }

  /** Testing against a one-bit mask tells that bit. */
  lemma {:induction false} AndMask(x: nat, k: nat)
    ensures And(x, Pow2(k)) == if Bit(x, k) then Pow2(k) else 0
    decreases k
  {
    if k == 0 {
      AndNothing(x / 2);
    } else {
      assert Pow2(k) % 2 == 0 && Pow2(k) / 2 == Pow2(k - 1);
      AndMask(x / 2, k - 1);
    }
  }

  lemma {:induction false} AndNothing(x: nat)
    ensures And(x, 0) == 0
  {
    if x > 0 { AndNothing(x / 2); }
  }

  lemma {:induction false} WordsStayWords(x: nat, y: nat, k: nat)
    requires x < Pow2(k) && y < Pow2(k)
    ensures Or(x, y) < Pow2(k) && AndNot(x, y) < Pow2(k)
  {
    if k > 0 && !(x == 0 && y == 0) { WordsStayWords(x / 2, y / 2, k - 1); }
  }

  function Mask(id: Route): (m: Word)
  {
    Pow2Grows(id % 64, 64);
    Pow2OfWord();
    Pow2(id % 64)
  }

  predicate LiveIn(words: seq<Word>, id: Route)
    requires |words| == WORDS
  {
    Bit(words[id / 64], id % 64)
  }

  function SetIn(words: seq<Word>, id: Route): (w: seq<Word>)
    requires |words| == WORDS
    ensures |w| == WORDS
  {
    Pow2OfWord();
    WordsStayWords(words[id / 64], Mask(id), 64);
    words[id / 64 := Or(words[id / 64], Mask(id))]
  }

  function ClearedIn(words: seq<Word>, id: Route): (w: seq<Word>)
    requires |words| == WORDS
    ensures |w| == WORDS
  {
    Pow2OfWord();
    WordsStayWords(words[id / 64], Mask(id), 64);
    words[id / 64 := AndNot(words[id / 64], Mask(id))]
  }

  lemma OneRouteChanges(words: seq<Word>, id: Route, x: Route)
    requires |words| == WORDS
    ensures LiveIn(SetIn(words, id), x) <==> x == id || LiveIn(words, x)
    ensures LiveIn(ClearedIn(words, id), x) <==> x != id && LiveIn(words, x)
  {
    if x / 64 == id / 64 {
      OrBit(words[id / 64], Mask(id), x % 64);
      AndNotBit(words[id / 64], Mask(id), x % 64);
      MaskBit(id % 64, x % 64);
    }
  }

  class Registry {
    const live: array<Word>

    predicate IsLive(id: Route)
      requires live.Length == WORDS
      reads live
    {
      LiveIn(live[..], id)
    }

    constructor ()
      ensures fresh(live) && live.Length == WORDS
      ensures forall id: Route :: !IsLive(id)
    {
      live := new Word[WORDS](_ => 0);
      new;
      forall id: Route ensures !IsLive(id) { NoBits(id % 64); }
    }

    /** Sets the bit of a free route; an occupied one is refused. */
    method TryReserve(id: Route) returns (reserved: bool)
      requires live.Length == WORDS
      modifies live
      ensures reserved <==> !old(IsLive(id))
      ensures forall x: Route :: IsLive(x) <==> x == id || old(IsLive(x))
    {
      var word, mask := id / 64, Mask(id);
      AndMask(live[word], id % 64);
      if And(live[word], mask) != 0 { return false; }
      ghost var was := live[..];
      Pow2OfWord();
      WordsStayWords(live[word], mask, 64);
      live[word] := Or(live[word], mask);
      assert live[..] == SetIn(was, id);
      forall x: Route ensures IsLive(x) <==> x == id || old(IsLive(x)) { OneRouteChanges(was, id, x); }
      reserved := true;
    }

    method Release(id: Route)
      requires live.Length == WORDS
      modifies live
      ensures forall x: Route :: IsLive(x) <==> x != id && old(IsLive(x))
    {
      var word, mask := id / 64, Mask(id);
      ghost var was := live[..];
      Pow2OfWord();
      WordsStayWords(live[word], mask, 64);
      live[word] := AndNot(live[word], mask);
      assert live[..] == ClearedIn(was, id);
      forall x: Route ensures IsLive(x) <==> x != id && old(IsLive(x)) { OneRouteChanges(was, id, x); }
    }
  }

  // ----- Deferred returns -----

  /** The cursor after `id`, in eight bits. */
  function After(id: Route): Route {
    if id == CAPACITY - 1 then 0 else id + 1
  }

  /** Steps from one route up to another, around the end. */
  function Distance(from: Route, to: Route): (d: nat)
    ensures d < CAPACITY
  {
    if to >= from then to - from else to + CAPACITY - from
  }

  /** The deferred route nearest above the cursor, going around. */
  ghost predicate IsNearest(deferred: set<Route>, cursor: Route, id: Route) {
    id in deferred && forall x | x in deferred :: Distance(cursor, id) <= Distance(cursor, x)
  }

  class Pending {
    var deferred: set<Route>
    var cursor: Route

    constructor ()
      ensures deferred == {} && cursor == 0
    {
      deferred, cursor := {}, 0;
    }

    method Defer(id: Route)
      modifies this
      ensures deferred == old(deferred) + {id} && cursor == old(cursor)
    {
      deferred := deferred + {id};
    }

    /** Removes the first deferred route from the cursor on, and moves the cursor past it. */
    method Pop() returns (r: Option<Route>)
      modifies this
      ensures r.None? <==> old(deferred) == {}
      ensures r.None? ==> deferred == old(deferred) && cursor == old(cursor)
      ensures r.Some? ==> IsNearest(old(deferred), old(cursor), r.value)
                          && deferred == old(deferred) - {r.value} && cursor == After(r.value)
    {
      var at, steps := cursor, 0;
      while steps < CAPACITY
        invariant deferred == old(deferred) && cursor == old(cursor)
        invariant steps <= CAPACITY && (steps < CAPACITY ==> Distance(cursor, at) == steps)
        invariant forall x | x in deferred :: Distance(cursor, x) >= steps
      {
        if at in deferred {
          deferred, cursor := deferred - {at}, After(at);
          return Some(at);
        }
        at, steps := After(at), steps + 1;
      }
      assert deferred == {};
      r := None;
    }
  }

  // ----- Generations -----

  type Floor = Option<nat>

  /** The floor after an owner has issued up to `floor`; exhaustion on either side is final. */
  function Advanced(current: Floor, floor: Floor): Floor {
    if current.None? || floor.None? then None
    else if current.value >= floor.value then current else floor
  }

  predicate AtLeast(later: Floor, earlier: Floor) {
    later.Some? ==> earlier.Some? && later.value >= earlier.value
  }

  // ----- Runs -----

  /** What holds a route: a rollback-safe reservation, a claim, an owner, or a popped retirement. */
  datatype Kind = Vacant | Claimed | Owned | Retired

  datatype Hold = Hold(kind: Kind, id: Route)

  datatype Op =
    | Reserve(id: Route)
    | Take(id: Route)
    | IntoClaim(handle: nat)
    | Commit(handle: nat)
    | Store(handle: nat)
    | Rollback(handle: nat)
    | Drop(handle: nat)
    | Pop
    | Release(handle: nat)
    | Advance(handle: nat, floor: Floor)

  datatype World = World(
    live: set<Route>, held: map<nat, Hold>, handles: nat, deferred: set<Route>, cursor: Route, floors: seq<Floor>)

  predicate Holds(w: World, h: nat, kinds: set<Kind>) {
    h in w.held && w.held[h].kind in kinds
  }

  function Reserved(w: World, id: Route, kind: Kind): World {
    if id in w.live then w
    else w.(live := w.live + {id}, held := w.held[w.handles := Hold(kind, id)], handles := w.handles + 1)
  }

  function Renamed(w: World, h: nat, kind: Kind): World
    requires h in w.held
  {
    w.(held := w.held[h := Hold(kind, w.held[h].id)])
  }

  function Freed(w: World, h: nat): World
    requires h in w.held
  {
    w.(live := w.live - {w.held[h].id}, held := w.held - {h})
  }

  /** The route a pop takes, when there is one. */
  ghost function Nearest(deferred: set<Route>, cursor: Route): (r: Option<Route>)
    ensures r.None? <==> deferred == {}
    ensures r.Some? ==> IsNearest(deferred, cursor, r.value)
  {
    if deferred == {} then None else
    NearestExists(deferred, cursor, 0);
    var id :| IsNearest(deferred, cursor, id);
    Some(id)
  }

  lemma NearestExists(deferred: set<Route>, cursor: Route, steps: nat)
    requires deferred != {} && forall x | x in deferred :: Distance(cursor, x) >= steps
    ensures exists id :: IsNearest(deferred, cursor, id)
    decreases CAPACITY - steps
  {
    var y :| y in deferred;
    assert Distance(cursor, y) < CAPACITY;
    if x :| x in deferred && Distance(cursor, x) == steps {
      assert IsNearest(deferred, cursor, x);
    } else {
      NearestExists(deferred, cursor, steps + 1);
    }
  }

  /** One operation; a handle that no longer holds what the operation consumes changes nothing. */
  ghost function Step(w: World, op: Op): World {
    match op
    case Reserve(id) => Reserved(w, id, Vacant)
    case Take(id) => Reserved(w, id, Claimed)
    case IntoClaim(h) => if Holds(w, h, {Vacant}) then Renamed(w, h, Claimed) else w
    case Commit(h) => if Holds(w, h, {Vacant}) then Renamed(w, h, Owned) else w
    case Store(h) => if Holds(w, h, {Claimed}) then Renamed(w, h, Owned) else w
    case Rollback(h) => if Holds(w, h, {Vacant, Claimed, Owned}) then Freed(w, h) else w
    case Drop(h) =>
      if Holds(w, h, {Vacant}) then Freed(w, h)
      else if Holds(w, h, {Claimed, Owned}) then w.(held := w.held - {h}, deferred := w.deferred + {w.held[h].id})
      else w
    case Pop =>
      (match Nearest(w.deferred, w.cursor)
       case None => w
       case Some(id) =>
         w.(deferred := w.deferred - {id}, cursor := After(id),
            held := w.held[w.handles := Hold(Retired, id)], handles := w.handles + 1))
    case Release(h) => if Holds(w, h, {Retired}) then Freed(w, h) else w
    case Advance(h, floor) =>
      if Holds(w, h, {Owned}) && |w.floors| == CAPACITY then
        var id := w.held[h].id;
        w.(floors := w.floors[id := Advanced(w.floors[id], floor)])
      else w
  }

  ghost function Run(w: World, ops: seq<Op>): World {
    if ops == [] then w else Step(Run(w, ops[..|ops| - 1]), ops[|ops| - 1])
  }

  /** A route is live exactly when one handle holds it or one deferred return awaits it, never both. */
  ghost predicate Good(w: World) {
    && |w.floors| == CAPACITY
    && (forall h | h in w.held :: h < w.handles && w.held[h].id in w.live && w.held[h].id !in w.deferred)
    && (forall h, k | h in w.held && k in w.held && h != k :: w.held[h].id != w.held[k].id)
    && w.deferred <= w.live
    && (forall id | id in w.live :: id in w.deferred || IsHeld(w.held, id))
  }

  ghost predicate IsHeld(held: map<nat, Hold>, id: Route) {
    exists h :: h in held && held[h].id == id
  }

  ghost function Start(floors: seq<Floor>): World {
    World({}, map[], 0, {}, 0, floors)
  }

  lemma ReservedIsGood(w: World, id: Route, kind: Kind)
    requires Good(w)
    ensures Good(Reserved(w, id, kind))
  {
    var v := Reserved(w, id, kind);
    forall x | x in v.live ensures x in v.deferred || IsHeld(v.held, x) {
      if x == id && id !in w.live {
        assert w.handles in v.held && v.held[w.handles].id == id;
      } else if x !in w.deferred {
        var h :| h in w.held && w.held[h].id == x;
        assert h in v.held && v.held[h].id == x;
      }
    }
  }

  lemma RenamedIsGood(w: World, h: nat, kind: Kind)
    requires Good(w) && h in w.held
    ensures Good(Renamed(w, h, kind))
  {
    var v := Renamed(w, h, kind);
    forall x | x in v.live ensures x in v.deferred || IsHeld(v.held, x) {
      if x !in w.deferred {
        var k :| k in w.held && w.held[k].id == x;
        assert k in v.held && v.held[k].id == x;
      }
    }
  }

  /** Taking one handle away leaves every other live route held or deferred. */
  lemma OthersStayHeld(w: World, h: nat, x: Route)
    requires Good(w) && h in w.held && x in w.live && x != w.held[h].id && x !in w.deferred
    ensures IsHeld(w.held - {h}, x)
  {
    var k :| k in w.held && w.held[k].id == x;
    assert k in w.held - {h} && (w.held - {h})[k].id == x;
  }

  lemma FreedIsGood(w: World, h: nat)
    requires Good(w) && h in w.held
    ensures Good(Freed(w, h))
  {
    var v := Freed(w, h);
    forall x | x in v.live ensures x in v.deferred || IsHeld(v.held, x) {
      if x !in w.deferred { OthersStayHeld(w, h, x); }
    }
  }

  lemma DroppedIsGood(w: World, h: nat)
    requires Good(w) && h in w.held
    ensures Good(Step(w, Drop(h)))
  {
    FreedIsGood(w, h);
    DeferredIsGood(w, h);
  }

  lemma FloorIsGood(w: World, h: nat, floor: Floor)
    requires Good(w)
    ensures Good(Step(w, Advance(h, floor)))
  {
  }

  lemma DeferredIsGood(w: World, h: nat)
    requires Good(w) && h in w.held
    ensures Good(w.(held := w.held - {h}, deferred := w.deferred + {w.held[h].id}))
  {
    var v := w.(held := w.held - {h}, deferred := w.deferred + {w.held[h].id});
    forall x | x in v.live ensures x in v.deferred || IsHeld(v.held, x) {
      if x !in v.deferred { OthersStayHeld(w, h, x); }
    }
  }

  lemma PoppedIsGood(w: World)
    requires Good(w)
    ensures Good(Step(w, Pop))
  {
    var v := Step(w, Pop);
    forall x | x in v.live ensures x in v.deferred || IsHeld(v.held, x) {
      if x !in w.deferred {
        var h :| h in w.held && w.held[h].id == x;
        assert h in v.held && v.held[h].id == x;
      } else if x !in v.deferred {
        assert w.handles in v.held && v.held[w.handles].id == x;
      }
    }
  }

  lemma StepIsGood(w: World, op: Op)
    requires Good(w)
    ensures Good(Step(w, op))
  {
    match op {
      case Reserve(id) => ReservedIsGood(w, id, Vacant);
      case Take(id) => ReservedIsGood(w, id, Claimed);
      case IntoClaim(h) => if Holds(w, h, {Vacant}) { RenamedIsGood(w, h, Claimed); }
      case Commit(h) => if Holds(w, h, {Vacant}) { RenamedIsGood(w, h, Owned); }
      case Store(h) => if Holds(w, h, {Claimed}) { RenamedIsGood(w, h, Owned); }
      case Rollback(h) => if h in w.held { FreedIsGood(w, h); }
      case Drop(h) => if h in w.held { DroppedIsGood(w, h); }
      case Pop => PoppedIsGood(w);
      case Release(h) => if h in w.held { FreedIsGood(w, h); }
      case Advance(h, floor) => FloorIsGood(w, h, floor);
    }
  }

  lemma {:induction false} RunIsGood(floors: seq<Floor>, ops: seq<Op>)
    requires |floors| == CAPACITY
    ensures Good(Run(Start(floors), ops))
  {
    if ops != [] {
      RunIsGood(floors, ops[..|ops| - 1]);
      StepIsGood(Run(Start(floors), ops[..|ops| - 1]), ops[|ops| - 1]);
    }
  }

  /** A route that is not live is reserved or claimed under a new handle; a live one is refused. */
  lemma ReserveMeans(w: World, id: Route)
    ensures id in w.live ==> Step(w, Reserve(id)) == w && Step(w, Take(id)) == w
    ensures id !in w.live ==>
              var live, next := w.live + {id}, w.handles + 1;
              && Step(w, Reserve(id)) == w.(live := live, held := w.held[w.handles := Hold(Vacant, id)], handles := next)
              && Step(w, Take(id)) == w.(live := live, held := w.held[w.handles := Hold(Claimed, id)], handles := next)
  {
  }

  /** A reservation becomes a claim or an owner, a claim an owner, and each keeps its route. */
  lemma HoldMeans(w: World, h: nat)
    requires h in w.held
    ensures var Hold(kind, id) := w.held[h];
            && Step(w, IntoClaim(h)) == (if kind == Vacant then w.(held := w.held[h := Hold(Claimed, id)]) else w)
            && Step(w, Commit(h)) == (if kind == Vacant then w.(held := w.held[h := Hold(Owned, id)]) else w)
            && Step(w, Store(h)) == (if kind == Claimed then w.(held := w.held[h := Hold(Owned, id)]) else w)
  {
  }

  /**
    Dropping a reservation frees its route at once, dropping a claim or an owner keeps it live until it
    is popped; what is given back with the driver at hand, or popped and released, is free.
  */
  lemma GivingBackMeans(w: World, h: nat)
    requires h in w.held
    ensures var Hold(kind, id) := w.held[h];
            var freed := w.(live := w.live - {id}, held := w.held - {h});
            && Step(w, Drop(h)) == (match kind
                                    case Vacant => freed
                                    case Claimed => w.(held := w.held - {h}, deferred := w.deferred + {id})
                                    case Owned => w.(held := w.held - {h}, deferred := w.deferred + {id})
                                    case Retired => w)
            && Step(w, Rollback(h)) == (if kind == Retired then w else freed)
            && Step(w, Release(h)) == (if kind == Retired then freed else w)
  {
  }

  /** What was freed can be reserved again, and what only was deferred cannot. */
  lemma FreedIsReservable(w: World, h: nat)
    requires Good(w) && h in w.held && w.held[h].kind != Retired
    ensures var id := w.held[h].id;
            && Step(Step(w, Rollback(h)), Reserve(id)) != Step(w, Rollback(h))
            && (Step(Step(w, Drop(h)), Reserve(id)) == Step(w, Drop(h)) <==> w.held[h].kind != Vacant)
  {
    GivingBackMeans(w, h);
    var v := Step(w, Rollback(h));
    assert w.held[h].id !in v.live && w.held[h].id in Step(v, Reserve(w.held[h].id)).live;
  }

  /** A pop hands out the deferred route nearest from the cursor on, still live, under a new handle. */
  lemma PopMeans(w: World)
    ensures w.deferred == {} ==> Step(w, Pop) == w
    ensures w.deferred != {} ==>
              var v := Step(w, Pop);
              && w.handles in v.held && v.held[w.handles].kind == Retired
              && var id := v.held[w.handles].id;
              && IsNearest(w.deferred, w.cursor, id)
              && v == w.(deferred := w.deferred - {id}, cursor := if id == 255 then 0 else id + 1,
                         held := w.held[w.handles := Hold(Retired, id)], handles := w.handles + 1)
  {
  }

  /** An owner raises the floor of its own route, never lowers it, and may end it; the other floors stay. */
  lemma AdvanceMeans(w: World, h: nat, floor: Floor)
    requires |w.floors| == CAPACITY && h in w.held
    ensures var id, v := w.held[h].id, Step(w, Advance(h, floor));
            if w.held[h].kind != Owned then v == w else
            && v == w.(floors := w.floors[id := v.floors[id]])
            && (v.floors[id] == None <==> w.floors[id] == None || floor == None)
            && (v.floors[id] != None ==>
                  && v.floors[id].value >= w.floors[id].value && v.floors[id].value >= floor.value
                  && (v.floors[id] == w.floors[id] || v.floors[id] == floor))
  {
  }

  /** No two holders of one route ever exist, and a new one is refused exactly while one is left. */
  lemma OneHolderPerRoute(floors: seq<Floor>, ops: seq<Op>, id: Route)
    requires |floors| == CAPACITY
    ensures var w := Run(Start(floors), ops);
            && (forall h, k | h in w.held && k in w.held && w.held[h].id == w.held[k].id :: h == k)
            && (id in w.live <==> id in w.deferred || IsHeld(w.held, id))
            && !(id in w.deferred && IsHeld(w.held, id))
            && (Step(w, Reserve(id)) == w <==> id in w.deferred || IsHeld(w.held, id))
  {
    RunIsGood(floors, ops);
  }

  /** Over any run the floor of a route never falls, and once exhausted it stays so. */
  lemma {:induction false} FloorsNeverFall(w: World, ops: seq<Op>, id: Route)
    requires |w.floors| == CAPACITY
    ensures |Run(w, ops).floors| == CAPACITY && AtLeast(Run(w, ops).floors[id], w.floors[id])
  {
    if ops != [] { FloorsNeverFall(w, ops[..|ops| - 1], id); }
  }

  /** What an owner has issued up to binds every later holder of the route. */
  lemma IssuedStaysBelowFloor(w: World, h: nat, floor: Floor, ops: seq<Op>)
    requires |w.floors| == CAPACITY && Holds(w, h, {Owned})
    ensures var id := w.held[h].id;
            var v := Run(Step(w, Advance(h, floor)), ops);
            |v.floors| == CAPACITY && AtLeast(v.floors[id], floor)
  {
    FloorsNeverFall(Step(w, Advance(h, floor)), ops, w.held[h].id);
  }

  // ----- Deferred routes are not starved -----

  /** While `id` waits, each pop brings the cursor nearer to it by at least one. */
  lemma PopComesNearer(w: World, id: Route)
    requires id in w.deferred
    ensures id in Step(w, Pop).deferred ==> Distance(Step(w, Pop).cursor, id) < Distance(w.cursor, id)
  {
  }

  ghost function Pops(ops: seq<Op>): nat {
    if ops == [] then 0 else Pops(ops[..|ops| - 1]) + if ops[|ops| - 1].Pop? then 1 else 0
  }

  /** The route has been deferred all through the run. */
  ghost predicate Waits(w: World, ops: seq<Op>, id: Route) {
    id in Run(w, ops).deferred && (ops != [] ==> Waits(w, ops[..|ops| - 1], id))
  }

  lemma {:induction false} WaitingComesNearer(w: World, ops: seq<Op>, id: Route)
    requires Waits(w, ops, id)
    ensures Distance(Run(w, ops).cursor, id) + Pops(ops) <= Distance(w.cursor, id)
  {
    if ops != [] {
      WaitingComesNearer(w, ops[..|ops| - 1], id);
      var before := Run(w, ops[..|ops| - 1]);
      if ops[|ops| - 1].Pop? { PopComesNearer(before, id); }
    }
  }

  /** A deferred route is popped before 256 pops have passed, whatever else is deferred meanwhile. */
  lemma DeferredIsPoppedSoon(w: World, ops: seq<Op>, id: Route)
    requires Waits(w, ops, id)
    ensures Pops(ops) < CAPACITY
  {
    WaitingComesNearer(w, ops, id);
  }

  // ----- The driver that keeps all of it -----

  lemma NearestIsOne(deferred: set<Route>, cursor: Route, id: Route)
    requires IsNearest(deferred, cursor, id)
    ensures Nearest(deferred, cursor) == Some(id)
  {
    var r := Nearest(deferred, cursor);
    assert Distance(cursor, r.value) == Distance(cursor, id);
  }

  /** Handles are ghost: what they stand for is moved by its owner and leaves no mark in memory. */
  class Driver {
    const registry: Registry
    const pending: Pending
    const floors: array<Floor>
    ghost var held: map<nat, Hold>
    ghost var handles: nat

    ghost predicate Valid()
      reads this
    {
      registry.live.Length == WORDS && floors.Length == CAPACITY
    }

    ghost function View(): World
      requires Valid()
      reads this, registry.live, pending, floors
    {
      World((set id: Route | 0 <= id < CAPACITY && registry.IsLive(id)), held, handles, pending.deferred, pending.cursor, floors[..])
    }

    constructor (floor: Floor)
      ensures Valid() && View() == Start(seq(CAPACITY, _ => floor))
      ensures fresh(registry.live) && fresh(pending) && fresh(floors)
    {
      registry := new Registry();
      pending := new Pending();
      floors := new Floor[CAPACITY](_ => floor);
      held, handles := map[], 0;
    }

    /** A reservation that rolls back unless committed. */
    method TryReserve(id: Route) returns (reserved: bool, ghost handle: nat)
      requires Valid()
      modifies this, registry.live
      ensures Valid() && View() == Step(old(View()), Reserve(id))
      ensures reserved <==> !old(registry.IsLive(id))
      ensures reserved ==> Holds(View(), handle, {Vacant}) && View().held[handle].id == id
    {
      ghost var was := View();
      reserved := registry.TryReserve(id);
      handle := handles;
      if reserved {
        held, handles := held[handles := Hold(Vacant, id)], handles + 1;
      }
      assert View().live == was.live + {id};
      assert !reserved ==> View().live == was.live;
    }

    ghost method Commit(handle: nat)
      requires Valid() && Holds(View(), handle, {Vacant})
      modifies this
      ensures Valid() && View() == Step(old(View()), Op.Commit(handle))
    {
      held := held[handle := Hold(Owned, held[handle].id)];
    }

    /** Frees the route of a holder that gives it back with the driver at hand, or of a popped return. */
    method Free(id: Route, ghost handle: nat)
      requires Valid() && Holds(View(), handle, {Vacant, Claimed, Owned, Retired}) && held[handle].id == id
      modifies this, registry.live
      ensures Valid() && View() == Freed(old(View()), handle)
      ensures View() == Step(old(View()), if old(held)[handle].kind.Retired? then Op.Release(handle) else Op.Rollback(handle))
    {
      ghost var was := View();
      registry.Release(id);
      held := held - {handle};
      assert View().live == was.live - {id};
    }

    /** Dropping a claim or an owner only marks the route; the driver frees it later. */
    method Defer(id: Route, ghost handle: nat)
      requires Valid() && Holds(View(), handle, {Claimed, Owned}) && held[handle].id == id
      modifies this, pending
      ensures Valid() && View() == Step(old(View()), Op.Drop(handle))
    {
      pending.Defer(id);
      held := held - {handle};
    }

    method PopRetired() returns (r: Option<Route>, ghost handle: nat)
      requires Valid()
      modifies this, pending
      ensures Valid() && View() == Step(old(View()), Op.Pop)
      ensures r.Some? ==> Holds(View(), handle, {Retired}) && View().held[handle].id == r.value
    {
      handle := handles;
      r := pending.Pop();
      if r.Some? {
        NearestIsOne(old(pending.deferred), old(pending.cursor), r.value);
        held, handles := held[handles := Hold(Retired, r.value)], handles + 1;
      }
    }

    method AdvanceTo(id: Route, floor: Floor, ghost handle: nat)
      requires Valid() && Holds(View(), handle, {Owned}) && held[handle].id == id
      modifies floors
      ensures Valid() && View() == Step(old(View()), Op.Advance(handle, floor))
    {
      var current := floors[id];
      floors[id] := if current.Some? && floor.Some? then (if current.value >= floor.value then current else floor) else None;
    }
  }
}
