/**
  Identities of one driver: issued directly from a shared cursor, or through blocks that each
  claim an aligned range of it.
*/
module Sequence {
  import opened Outcomes

  const BLOCK: nat := 0x1_0000_0000
  const SPACE: nat := 0x1_0000_0000_0000_0000

  /** A 64-bit identity; zero is not one. */
  type Id = x: nat | 0 < x < SPACE witness 1

  type Cursor = Option<Id>

  function Checked(x: nat): Cursor {
    if 0 < x < SPACE then Some(x) else None
  }

  /** How far the next aligned identity lies ahead; the source computes it in 32-bit arithmetic. */
  function Skip(first: Id): nat {
    (BLOCK + 1 - first % BLOCK) % BLOCK
  }

  /** The start of a claimed block, with the cursor after it; without room the cursor stays. */
  function Claimed(cursor: Cursor): (r: (Option<Id>, Cursor))
    ensures r.0.Some? ==> cursor.Some? && cursor.value <= r.0.value < cursor.value + BLOCK && r.0.value % BLOCK == 1
    ensures r.0.Some? ==> r.1 == Checked(r.0.value + BLOCK)
    ensures r.0.None? ==> r.1 == cursor
  {
    if cursor.None? then (None, None) else
    var first := Checked(cursor.value + Skip(cursor.value));
    if first.None? then (None, cursor) else (first, Checked(first.value + BLOCK))
  }

  /** A block is refused exactly when no aligned range is left below the end of the space. */
  lemma ClaimRefusedExactly(cursor: Cursor)
    ensures Claimed(cursor).0.None? <==> (cursor.Some? ==> cursor.value > SPACE - BLOCK + 1)
    ensures forall x: Id :: Claimed(cursor).0.Some? && cursor.value <= x && x % BLOCK == 1 ==> Claimed(cursor).0.value <= x
  {
    if cursor.Some? {
      var c := cursor.value;
      assert (c + Skip(c)) % BLOCK == 1;
    }
  }

  function Direct(cursor: Cursor): (Option<Id>, Cursor) {
    if cursor.None? then (None, None) else (cursor, Checked(cursor.value + 1))
  }

  /** What a block issues after `raw`: nothing more once the low half would wrap. */
  function Following(raw: Id): Cursor {
    if (raw + 1) % BLOCK != 0 then Checked(raw + 1) else None
  }

  /** The last identity of the block `n` lies in. */
  function Last(n: Id): nat {
    n - n % BLOCK + (BLOCK - 1)
  }

  class Owner {
    var cursor: Cursor

    constructor ()
      ensures cursor == Some(1)
    {
      cursor := Some(1);
    }

    method Claim() returns (first: Option<Id>)
      modifies this
      ensures (first, cursor) == Claimed(old(cursor))
    {
      if cursor.None? { return None; }
      var at := cursor.value;
      var low := at % BLOCK;
      var skip := if low <= 1 then 1 - low else BLOCK + 1 - low;
      first := Checked(at + skip);
      if first.Some? { cursor := Checked(first.value + BLOCK); }
    }

    method Next() returns (id: Option<Id>)
      modifies this
      ensures (id, cursor) == Direct(old(cursor))
    {
      id := cursor;
      if id.Some? { cursor := Checked(id.value + 1); }
    }
  }

  class Block {
    const owner: Owner
    var next: Cursor

    constructor (owner: Owner)
      modifies owner
      ensures this.owner == owner && (next, owner.cursor) == Claimed(old(owner.cursor))
    {
      this.owner := owner;
      next := None;
      new;
      next := owner.Claim();
    }

    /** Issues an identity, claiming a further range when this one is spent; none means exhaustion. */
    method TryNext() returns (id: Option<Id>)
      modifies this, owner
      ensures (id, next, owner.cursor) == Issued(old(next), old(owner.cursor))
    {
      id := next;
      if id.None? { id := owner.Claim(); }
      if id.Some? { next := Following(id.value); }
    }
  }

  function Issued(next: Cursor, cursor: Cursor): (Option<Id>, Cursor, Cursor) {
    if next.Some? then (next, Following(next.value), cursor) else
    var (first, after) := Claimed(cursor);
    if first.None? then (None, None, after) else (first, Following(first.value), after)
  }

  // ----- Runs over one owner and any number of its blocks -----

  datatype Op = Next | Open | TryNext(block: nat)

  /** The cursor, what each block would issue next, and everything issued so far. */
  datatype World = World(cursor: Cursor, blocks: seq<Cursor>, issued: seq<Id>)

  function Recorded(issued: seq<Id>, id: Option<Id>): seq<Id> {
    if id.Some? then issued + [id.value] else issued
  }

  function Step(w: World, op: Op): World {
    match op
    case Next =>
      var (id, cursor) := Direct(w.cursor);
      World(cursor, w.blocks, Recorded(w.issued, id))
    case Open =>
      var (first, cursor) := Claimed(w.cursor);
      World(cursor, w.blocks + [first], w.issued)
    case TryNext(b) =>
      if b >= |w.blocks| then w else
      var (id, next, cursor) := Issued(w.blocks[b], w.cursor);
      World(cursor, w.blocks[b := next], Recorded(w.issued, id))
  }

  function Run(w: World, ops: seq<Op>): World {
    if ops == [] then w else Step(Run(w, ops[..|ops| - 1]), ops[|ops| - 1])
  }

  const START: World := World(Some(1), [], [])

  function Limit(cursor: Cursor): nat {
    if cursor.Some? then cursor.value else SPACE
  }

  /** What `next` still has in reserve. */
  predicate Reserves(next: Cursor, x: Id) {
    next.Some? && next.value <= x <= Last(next.value)
  }

  ghost predicate Apart(next: Cursor, issued: seq<Id>) {
    forall i | 0 <= i < |issued| :: !Reserves(next, issued[i])
  }

  predicate Below(next: Cursor, cursor: Cursor) {
    next.Some? ==> next.value % BLOCK != 0 && Last(next.value) < Limit(cursor)
  }

  predicate Disjoint(a: Cursor, b: Cursor) {
    a.Some? && b.Some? ==> a.value / BLOCK != b.value / BLOCK
  }

  ghost predicate Good(w: World) {
    && (forall i | 0 <= i < |w.issued| :: w.issued[i] < Limit(w.cursor))
    && (forall b | 0 <= b < |w.blocks| :: Below(w.blocks[b], w.cursor))
    && (forall b | 0 <= b < |w.blocks| :: Apart(w.blocks[b], w.issued))
    && (forall b, c | 0 <= b < c < |w.blocks| :: Disjoint(w.blocks[b], w.blocks[c]))
    && (forall i, j | 0 <= i < j < |w.issued| :: w.issued[i] != w.issued[j])
  }

  /** A claimed range lies between the old limit and the new one. */
  lemma ClaimIsAbove(cursor: Cursor)
    requires Claimed(cursor).0.Some?
    ensures var (first, after) := Claimed(cursor);
            && Limit(cursor) <= first.value && Last(first.value) < Limit(after) && Last(first.value) < first.value + BLOCK
  {
  }

  lemma FollowingStays(raw: Id)
    requires raw % BLOCK != 0
    ensures var n := Following(raw);
            && (n.Some? ==> n.value == raw + 1 && n.value / BLOCK == raw / BLOCK && n.value % BLOCK != 0 && Last(n.value) == Last(raw))
            && (n.None? ==> raw == Last(raw))
  {
    assert Last(raw) < SPACE;
  }

  lemma DirectIsGood(w: World)
    requires Good(w)
    ensures Good(Step(w, Next))
  {
    var (id, cursor) := Direct(w.cursor);
    forall b | 0 <= b < |w.blocks| ensures Below(w.blocks[b], cursor) && Apart(w.blocks[b], Recorded(w.issued, id)) {
      assert Below(w.blocks[b], w.cursor) && Apart(w.blocks[b], w.issued);
    }
  }

  lemma DisjointBelow(a: Cursor, cursor: Cursor)
    requires Below(a, cursor) && Claimed(cursor).0.Some?
    ensures Disjoint(a, Claimed(cursor).0)
  {
    ClaimIsAbove(cursor);
  }

  lemma OpenIsGood(w: World)
    requires Good(w)
    ensures Good(Step(w, Open))
  {
    var (first, cursor) := Claimed(w.cursor);
    if first.Some? { ClaimIsAbove(w.cursor); }
    forall b | 0 <= b < |w.blocks| ensures Below(w.blocks[b], cursor) && Disjoint(w.blocks[b], first) {
      assert Below(w.blocks[b], w.cursor);
      if first.Some? { DisjointBelow(w.blocks[b], w.cursor); }
    }
  }

  lemma IssueIsGood(w: World, b: nat)
    requires Good(w) && b < |w.blocks|
    ensures Good(Step(w, TryNext(b)))
  {
    var (id, next, cursor) := Issued(w.blocks[b], w.cursor);
    assert Below(w.blocks[b], w.cursor) && Apart(w.blocks[b], w.issued);
    if id.Some? {
      FollowingStays(id.value);
      if w.blocks[b].None? { ClaimIsAbove(w.cursor); }
    }
    var blocks, issued := w.blocks[b := next], Recorded(w.issued, id);
    forall c | 0 <= c < |blocks| && c != b
      ensures Below(blocks[c], cursor) && Apart(blocks[c], issued) && Disjoint(blocks[c], next) && Disjoint(next, blocks[c])
    {
      assert Below(w.blocks[c], w.cursor) && Apart(w.blocks[c], w.issued);
      if w.blocks[b].Some? {
        assert if b < c then Disjoint(w.blocks[b], w.blocks[c]) else Disjoint(w.blocks[c], w.blocks[b]);
      } else if id.Some? {
        DisjointBelow(w.blocks[c], w.cursor);
      }
    }
  }

  lemma {:induction false} RunIsGood(ops: seq<Op>)
    ensures Good(Run(START, ops))
  {
    if ops != [] {
      var before := ops[..|ops| - 1];
      RunIsGood(before);
      var w := Run(START, before);
      match ops[|ops| - 1] {
        case Next => DirectIsGood(w);
        case Open => OpenIsGood(w);
        case TryNext(b) => if b < |w.blocks| { IssueIsGood(w, b); }
      }
    }
  }

  /** However direct and block issues are interleaved, no identity is issued twice. */
  lemma NeverTwice(ops: seq<Op>, i: nat, j: nat)
    requires i < j < |Run(START, ops).issued|
    ensures Run(START, ops).issued[i] != Run(START, ops).issued[j]
  {
    RunIsGood(ops);
  }

  function Times(op: Op, k: nat): seq<Op> {
    if k == 0 then [] else Times(op, k - 1) + [op]
  }

  /** Direct issues alone are one, two, three and so on, up to the last identity there is; then none is left. */
  lemma {:induction false} DirectCounts(k: nat)
    requires k < SPACE
    ensures var w := Run(START, Times(Next, k));
            && |w.issued| == k && (forall i | 0 <= i < k :: w.issued[i] == i + 1)
            && w.cursor == if k + 1 < 0x1_0000_0000_0000_0000 then Some(k + 1) else None
  {
    if k > 0 {
      DirectCounts(k - 1);
      assert Times(Next, k)[..k - 1] == Times(Next, k - 1) by { TimesLength(Next, k - 1); }
      TimesLength(Next, k);
    }
  }

  lemma {:induction false} TimesLength(op: Op, k: nat)
    ensures |Times(op, k)| == k && (k > 0 ==> Times(op, k)[k - 1] == op)
  {
    if k > 0 { TimesLength(op, k - 1); }
  }

  /** A direct issue takes the identity at the cursor and leaves the blocks alone. */
  lemma DirectMeans(w: World)
    ensures match w.cursor
            case None => Step(w, Next) == w
            case Some(c) =>
              Step(w, Next) == World(if c + 1 < 0x1_0000_0000_0000_0000 then Some(c + 1) else None, w.blocks, w.issued + [c])
  {
  }

  /**
    A block issues what it would issue next without touching the cursor, and when it has nothing left
    the start of a range claimed from the cursor; with no range left either it issues nothing.
  */
  lemma BlockIssueMeans(w: World, b: nat)
    requires b < |w.blocks|
    ensures var v := Step(w, TryNext(b));
            && |v.blocks| == |w.blocks| && (forall c | 0 <= c < |w.blocks| && c != b :: v.blocks[c] == w.blocks[c])
            && (w.blocks[b].Some? ==> v.cursor == w.cursor && v.issued == w.issued + [w.blocks[b].value])
            && (w.blocks[b].None? ==>
                  v.cursor == Claimed(w.cursor).1
                  && match Claimed(w.cursor).0
                     case None => v == w
                     case Some(first) => v.issued == w.issued + [first])
            && (|v.issued| > |w.issued| ==>
                  var last: nat := v.issued[|w.issued|];
                  if (last + 1) % 0x1_0000_0000 == 0 then v.blocks[b] == None
                  else v.blocks[b] != None && v.blocks[b].value == last + 1)
  {
    if w.blocks[b].None? && Claimed(w.cursor).0.None? { assert w.blocks[b := None] == w.blocks; }
    var issued := Issued(w.blocks[b], w.cursor).0;
    if issued.Some? { FollowingMeans(issued.value); }
  }

  lemma FollowingMeans(raw: Id)
    ensures Following(raw) == if (raw + 1) % 0x1_0000_0000 == 0 then None else Some(raw + 1)
  {
  }

  /** A new block starts with a claimed range, if there is one, and issues nothing by itself. */
  lemma OpenMeans(w: World)
    ensures Step(w, Open) == World(Claimed(w.cursor).1, w.blocks + [Claimed(w.cursor).0], w.issued)
  {
  }

  // ----- Exhaustion -----

  predicate Refused(cursor: Cursor) { Claimed(cursor).0.None? }

  lemma StepRises(w: World, op: Op)
    ensures Limit(w.cursor) <= Limit(Step(w, op).cursor)
    ensures w.cursor.None? ==> Step(w, op).cursor.None?
    ensures Refused(w.cursor) ==> Refused(Step(w, op).cursor)
    ensures w.issued <= Step(w, op).issued
  {
    ClaimRefusedExactly(w.cursor);
    ClaimRefusedExactly(Step(w, op).cursor);
  }

  /** Once no range is left, none is ever found again, and a block without a rest reports it. */
  lemma {:induction false} RefusalIsFinal(w: World, ops: seq<Op>)
    requires Refused(w.cursor)
    ensures Refused(Run(w, ops).cursor)
    ensures forall next: Cursor :: Issued(next, Run(w, ops).cursor).0.None? <==> next.None?
  {
    if ops != [] {
      RefusalIsFinal(w, ops[..|ops| - 1]);
      StepRises(Run(w, ops[..|ops| - 1]), ops[|ops| - 1]);
    }
  }

  /** A cursor that ran out stays out, so direct issues end for good at the last identity. */
  lemma {:induction false} SpentIsFinal(w: World, ops: seq<Op>)
    requires w.cursor.None?
    ensures Run(w, ops).cursor.None? && Direct(Run(w, ops).cursor).0.None?
  {
    if ops != [] {
      SpentIsFinal(w, ops[..|ops| - 1]);
      StepRises(Run(w, ops[..|ops| - 1]), ops[|ops| - 1]);
    }
  }

  /** What a block issues after `k` issues from `next`, without claiming again. */
  function Later(next: Cursor, k: nat): Cursor {
    if k == 0 then next else
    match Later(next, k - 1)
    case None => None
    case Some(raw) => Following(raw)
  }

  /** An aligned range fits below the end of the space, down to its last identity. */
  lemma FollowingInRange(first: Id, k: nat)
    requires first % BLOCK == 1 && 0 < k < BLOCK
    ensures first + k - 1 < SPACE
    ensures Following(first + k - 1) == if k < BLOCK - 1 then Some(first + k) else None
  {
    var q := first / BLOCK;
    assert first == q * BLOCK + 1;
    if k < BLOCK - 1 {
      assert (first + k) % BLOCK == k + 1;
    } else {
      assert first + k == (q + 1) * BLOCK;
    }
  }

  /** A claimed range is issued whole and in order, up to the last identity of all; then the block is spent. */
  lemma {:induction false} BlockIssuesItsRange(cursor: Cursor, k: nat)
    requires Claimed(cursor).0.Some? && k < BLOCK
    ensures var first := Claimed(cursor).0.value;
            Later(Some(first), k) == if k < BLOCK - 1 then Checked(first + k) else None
    ensures k < BLOCK - 1 ==> Claimed(cursor).0.value + k < SPACE
  {
    if k > 0 {
      BlockIssuesItsRange(cursor, k - 1);
      FollowingInRange(Claimed(cursor).0.value, k);
    }
  }
}
