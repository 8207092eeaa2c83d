/**
  Keyed words, keys and permutations drawn from one secret key. Each use hashes a lane,
  a kind byte, and its input; the permutation is a four-round Feistel network over the
  two halves of a word.
*/
module KeyedRandom {
  import opened MachineWords
  import opened SipHasher

  const HALF: nat := 0x1_0000_0000

  type Half = x: nat | x < HALF

  datatype Key = Key(k0: Word, k1: Word)

  /** What each use of a key keeps in its kind byte. */
  const WORDS: Byte := 0
  const ROUNDS: Byte := 1
  const SEEDS: Byte := 2

  function LaneInput(lane: Word, kind: Byte, input: Word): seq<Byte> {
    ToBytes(lane, 8) + [kind] + ToBytes(input, 8)
  }

  function KeyCore(): Core {
    SipCore(Shape(2, 4))
  }

  function KeyStart(key: Key): State {
    Seeded(key.k0, key.k1)
  }

  function LaneHash(key: Key, lane: Word, kind: Byte, input: Word): Word {
    Digest(KeyCore(), KeyStart(key), LaneInput(lane, kind, input))
  }

  /** A keyed hash is SipHash-2-4 of the lane in eight bytes, the kind, and the input in eight bytes. */
  lemma LaneHashMeans(key: Key, lane: Word, kind: Byte, input: Word)
    ensures LaneHash(key, lane, kind, input)
         == SipHash(Shape(2, 4), key.k0, key.k1, ToBytes(lane, 8) + [kind] + ToBytes(input, 8))
    ensures FromBytes(ToBytes(lane, 8)) == lane && FromBytes(ToBytes(input, 8)) == input
  {
    Pow2OfWord();
    BytesRoundTrip(lane, 8);
    BytesRoundTrip(input, 8);
  }

  lemma ToBytesInjective(x: Word, y: Word)
    requires ToBytes(x, 8) == ToBytes(y, 8)
    ensures x == y
  {
    Pow2OfWord();
    BytesRoundTrip(x, 8);
    BytesRoundTrip(y, 8);
  }

  /** Two uses hash the same bytes only if they are the same use: lanes, kinds and inputs never mix. */
  lemma UsesAreSeparate(lane: Word, kind: Byte, input: Word, lane': Word, kind': Byte, input': Word)
    ensures LaneInput(lane, kind, input) == LaneInput(lane', kind', input')
            <==> lane == lane' && kind == kind' && input == input'
  {
    var a, b := LaneInput(lane, kind, input), LaneInput(lane', kind', input');
    if a == b {
      assert a[..8] == ToBytes(lane, 8) && b[..8] == ToBytes(lane', 8);
      assert a[8] == kind && b[8] == kind';
      assert a[9..] == ToBytes(input, 8) && b[9..] == ToBytes(input', 8);
      ToBytesInjective(lane, lane');
      ToBytesInjective(input, input');
    }
  }

  /** A hasher that has absorbed `bytes` from the given start. */
  ghost predicate Absorbed(state: Sip, core: Core, start: State, bytes: seq<Byte>)
    reads state
  {
    state.Valid() && state.bytes == bytes && state.core == core && state.start == start
  }

  /** A hasher that has absorbed a lane and a kind. */
  method Lane(core: Core, start: State, lane: Word, kind: Byte) returns (state: Sip)
    ensures fresh(state) && Absorbed(state, core, start, ToBytes(lane, 8) + [kind])
  {
    state := new Sip.From(core, start);
    state.WriteU64(lane);
    assert state.bytes == ToBytes(lane, 8);
    state.WriteU8(kind);
    assert state.bytes == ToBytes(lane, 8) + [kind];
  }

  method HashOnLane(state: Sip, input: Word) returns (hash: Word)
    requires state.Valid()
    ensures hash == Digest(state.core, state.start, state.bytes + ToBytes(input, 8))
  {
    var copy := new Sip.Copy(state);
    copy.WriteU64(input);
    hash := copy.Finish();
  }

  /** A keyed word of a lane. */
  method WordAt(key: Key, lane: Word, input: Word) returns (word: Word)
    ensures word == LaneHash(key, lane, 0, input)
  {
    var state := Lane(KeyCore(), KeyStart(key), lane, WORDS);
    word := HashOnLane(state, input);
  }

  /** An independent key of a lane. */
  method SeedAt(key: Key, lane: Word) returns (seed: Key)
    ensures seed == Key(LaneHash(key, lane, 2, 0), LaneHash(key, lane, 2, 1))
  {
    var state := Lane(KeyCore(), KeyStart(key), lane, SEEDS);
    var k0 := HashOnLane(state, 0);
    var k1 := HashOnLane(state, 1);
    seed := Key(k0, k1);
  }

  // ----- The permutation -----

  function XorHalf(x: Half, y: Half): Half {
    Pow2OfWord();
    XorIsBounded(x, y, 32);
    Xor(x, y)
  }

  function Joined(left: Half, right: Half): Word {
    left * HALF + right
  }

  type RoundFunction = (Half, Half) -> Half

  function RoundOutput(key: Key, lane: Word): RoundFunction {
    (round: Half, right: Half) => LaneHash(key, lane, ROUNDS, Joined(round, right)) % HALF
  }

  /** Rounds `round`, `round + 1`, up to 3 of the network. */
  function Forward(f: RoundFunction, round: nat, left: Half, right: Half): (Half, Half)
    requires round <= 4
    decreases 4 - round
  {
    if round == 4 then (left, right) else Forward(f, round + 1, right, XorHalf(left, f(round, right)))
  }

  /** The same rounds undone, the last one first. */
  function Backward(f: RoundFunction, round: nat, left: Half, right: Half): (Half, Half)
    requires round <= 4
    decreases round
  {
    if round == 0 then (left, right) else Backward(f, round - 1, XorHalf(right, f(round - 1, left)), left)
  }

  function Permuted(f: RoundFunction, value: Word): Word {
    var (left, right) := Forward(f, 0, value / HALF, value % HALF);
    Joined(left, right)
  }

  function Unpermuted(f: RoundFunction, value: Word): Word {
    var (left, right) := Backward(f, 4, value / HALF, value % HALF);
    Joined(left, right)
  }

  method RoundHash(state: Sip, key: Key, lane: Word, round: Half, right: Half) returns (output: Half)
    requires Absorbed(state, KeyCore(), KeyStart(key), ToBytes(lane, 8) + [ROUNDS])
    ensures output == RoundOutput(key, lane)(round, right)
  {
    var hash := HashOnLane(state, Joined(round, right));
    output := hash % HALF;
  }

  method Permute(key: Key, lane: Word, value: Word) returns (image: Word)
    ensures image == Permuted(RoundOutput(key, lane), value)
  {
    var state := Lane(KeyCore(), KeyStart(key), lane, ROUNDS);
    ghost var f := RoundOutput(key, lane);
    var left: Half, right: Half := value / HALF, value % HALF;
    var round := 0;
    while round < 4
      invariant 0 <= round <= 4
      invariant Absorbed(state, KeyCore(), KeyStart(key), ToBytes(lane, 8) + [ROUNDS])
      invariant Forward(f, round, left, right) == Forward(f, 0, value / HALF, value % HALF)
    {
      var output := RoundHash(state, key, lane, round, right);
      left, right := right, XorHalf(left, output);
      round := round + 1;
    }
    image := Joined(left, right);
  }

  lemma {:induction false} BackwardUndoesForward(f: RoundFunction, round: nat, left: Half, right: Half)
    requires round <= 4
    ensures var (l, r) := Forward(f, round, left, right); Backward(f, 4, l, r) == Backward(f, round, left, right)
    decreases 4 - round
  {
    if round < 4 {
      XorUndoes(left, f(round, right));
      BackwardUndoesForward(f, round + 1, right, XorHalf(left, f(round, right)));
    }
  }

  lemma {:induction false} ForwardUndoesBackward(f: RoundFunction, round: nat, left: Half, right: Half)
    requires round <= 4
    ensures var (l, r) := Backward(f, round, left, right); Forward(f, 0, l, r) == Forward(f, round, left, right)
    decreases round
  {
    if round > 0 {
      XorUndoes(right, f(round - 1, left));
      ForwardUndoesBackward(f, round - 1, XorHalf(right, f(round - 1, left)), left);
    }
  }

  /** The round function is the low half of a keyed hash of the round's number above the half. */
  lemma RoundOutputMeans(key: Key, lane: Word, round: Half, half: Half)
    ensures Joined(round, half) == round * 0x1_0000_0000 + half
    ensures RoundOutput(key, lane)(round, half) == LaneHash(key, lane, 1, Joined(round, half)) % 0x1_0000_0000
  {
  }

  /** Four rounds: each half in turn is laid over with what the round function makes of the other. */
  lemma FourRounds(f: RoundFunction, left: Half, right: Half)
    ensures var a := XorHalf(left, f(0, right));
            var b := XorHalf(right, f(1, a));
            var c := XorHalf(a, f(2, b));
            var d := XorHalf(b, f(3, c));
            Permuted(f, Joined(left, right)) == Joined(c, d) == c * 0x1_0000_0000 + d
  {
    var a := XorHalf(left, f(0, right));
    var b := XorHalf(right, f(1, a));
    var c := XorHalf(a, f(2, b));
    HalvesRejoin(0, left, right);
    assert Forward(f, 2, a, b) == Forward(f, 3, b, c) == (c, XorHalf(b, f(3, c)));
    assert Forward(f, 0, left, right) == Forward(f, 1, right, a) == Forward(f, 2, a, b);
  }

  lemma HalvesRejoin(value: Word, left: Half, right: Half)
    ensures Joined(value / HALF, value % HALF) == value
    ensures Joined(left, right) / HALF == left && Joined(left, right) % HALF == right
  {
  }

  /** Whatever the round function, the network is a bijection on words, and running it backwards is its inverse. */
  lemma PermuteIsBijection(f: RoundFunction, value: Word)
    ensures Unpermuted(f, Permuted(f, value)) == value
    ensures Permuted(f, Unpermuted(f, value)) == value
  {
    var left: Half, right: Half := value / HALF, value % HALF;
    var (l, r) := Forward(f, 0, left, right);
    BackwardUndoesForward(f, 0, left, right);
    HalvesRejoin(value, l, r);
    var (l', r') := Backward(f, 4, left, right);
    ForwardUndoesBackward(f, 4, left, right);
    HalvesRejoin(value, l', r');
  }

  /** For every key and lane, distinct words have distinct images and every word is an image. */
  lemma KeyedPermutation(key: Key, lane: Word, x: Word, y: Word)
    ensures Permuted(RoundOutput(key, lane), x) == Permuted(RoundOutput(key, lane), y) <==> x == y
    ensures Permuted(RoundOutput(key, lane), Unpermuted(RoundOutput(key, lane), y)) == y
  {
    PermuteIsBijection(RoundOutput(key, lane), x);
    PermuteIsBijection(RoundOutput(key, lane), y);
  }
}
