/**
  The streaming SipHash of the runtime's random module: byte slices, fixed-width
  integers and the one-shot form all share one partial word.

  Words are little-endian and `usize` has 64 bits, as on the targets of the program.
*/
module SipHasher {
  import opened MachineWords

  datatype State = State(v0: Word, v1: Word, v2: Word, v3: Word)

  /** How many rounds follow each word and end the hash. */
  datatype Shape = Shape(compression: nat, finalization: nat)

  function Seeded(k0: Word, k1: Word): State {
    State(XorWord(k0, 0x736f_6d65_7073_6575), XorWord(k1, 0x646f_7261_6e64_6f6d),
          XorWord(k0, 0x6c79_6765_6e65_7261), XorWord(k1, 0x7465_6462_7974_6573))
  }

  function Round(s: State): State {
    var a0 := AddWord(s.v0, s.v1);
    var a1 := XorWord(RotateLeft(s.v1, 13), a0);
    var b0 := RotateLeft(a0, 32);
    var a2 := AddWord(s.v2, s.v3);
    var a3 := XorWord(RotateLeft(s.v3, 16), a2);
    var c0 := AddWord(b0, a3);
    var b3 := XorWord(RotateLeft(a3, 21), c0);
    var b2 := AddWord(a2, a1);
    var b1 := XorWord(RotateLeft(a1, 17), b2);
    State(c0, b1, RotateLeft(b2, 32), b3)
  }

  function Rounds(s: State, count: nat): State
    decreases count
  {
    if count == 0 then s else Rounds(Round(s), count - 1)
  }

  function Compress(c: nat, s: State, word: Word): State {
    var t := Rounds(s.(v3 := XorWord(s.v3, word)), c);
    t.(v0 := XorWord(t.v0, word))
  }

  function Finalize(d: nat, s: State): Word {
    var t := Rounds(s.(v2 := XorWord(s.v2, 0xff)), d);
    XorWord(XorWord(XorWord(t.v0, t.v1), t.v2), t.v3)
  }

  /** The two mixing steps; streaming does not depend on what they are. */
  datatype Core = Core(compress: (State, Word) -> State, finalize: State -> Word)

  function SipCore(shape: Shape): Core {
    Core((s: State, word: Word) => Compress(shape.compression, s, word), s => Finalize(shape.finalization, s))
  }

  // ----- Section 2 of the SipHash paper: pad, parse into words, compress each, finalize -----

  /** The message, zeros up to seven bytes past a word boundary, and the length modulo 256. */
  function Padded(m: seq<Byte>): (p: seq<Byte>)
    ensures |p| % 8 == 0
  {
    m + Zeros(7 - |m| % 8) + [|m| % 256]
  }

  function Zeros(n: nat): (z: seq<Byte>)
    ensures |z| == n
  {
    seq(n, _ => 0)
  }

  function WordOf(s: seq<Byte>): Word
    requires |s| <= 8
  {
    FitsWord(s);
    FromBytes(s)
  }

  /** Compresses a whole number of little-endian words. */
  function Fold(core: Core, s: State, words: seq<Byte>): State
    requires |words| % 8 == 0
    decreases |words|
  {
    if words == [] then s else Fold(core, core.compress(s, WordOf(words[..8])), words[8..])
  }

  function Digest(core: Core, start: State, m: seq<Byte>): Word {
    core.finalize(Fold(core, start, Padded(m)))
  }

  function SipHash(shape: Shape, k0: Word, k1: Word, m: seq<Byte>): Word {
    Digest(SipCore(shape), Seeded(k0, k1), m)
  }

  // ----- Mixing loses nothing -----

  /** A round step by step from its end: turns go on to a full turn, sums are taken apart. */
  function Unround(s: State): State {
    var a3 := RotateLeft(XorWord(s.v3, s.v0), 43);
    var a0 := RotateLeft(SubWord(s.v0, a3), 32);
    var b2 := RotateLeft(s.v2, 32);
    var a1 := RotateLeft(XorWord(s.v1, b2), 47);
    var a2 := SubWord(b2, a1);
    var v1 := RotateLeft(XorWord(a1, a0), 51);
    var v3 := RotateLeft(XorWord(a3, a2), 48);
    State(SubWord(a0, v1), v1, SubWord(a2, v3), v3)
  }

  lemma XorTurnUndone(x: Word, y: Word, k: nat)
    requires k <= 64
    ensures RotateLeft(XorWord(XorWord(RotateLeft(x, k), y), y), 64 - k) == x
  {
    XorUndoes(RotateLeft(x, k), y);
    RotateUndoes(x, k);
  }

  /** No two states mix to the same one. */
  lemma RoundIsUndone(s: State)
    ensures Unround(Round(s)) == s
  {
    var a0, a2 := AddWord(s.v0, s.v1), AddWord(s.v2, s.v3);
    var a1, a3 := XorWord(RotateLeft(s.v1, 13), a0), XorWord(RotateLeft(s.v3, 16), a2);
    var c0, b2 := AddWord(RotateLeft(a0, 32), a3), AddWord(a2, a1);
    XorTurnUndone(a3, c0, 21);
    XorTurnUndone(a1, b2, 17);
    XorTurnUndone(s.v1, a0, 13);
    XorTurnUndone(s.v3, a2, 16);
    RotateUndoes(a0, 32);
    RotateUndoes(b2, 32);
    SubUndoesAdd(RotateLeft(a0, 32), a3);
    SubUndoesAdd(a2, a1);
    SubUndoesAdd(s.v0, s.v1);
    SubUndoesAdd(s.v2, s.v3);
  }

  function Unrounds(s: State, count: nat): State {
    if count == 0 then s else Unround(Unrounds(s, count - 1))
  }

  predicate Undone(s: State, count: nat) {
    Unrounds(Rounds(s, count), count) == s
  }

  lemma OneRoundMore(s: State, count: nat)
    requires Undone(Round(s), count)
    ensures Undone(s, count + 1)
  {
    RoundIsUndone(s);
    assert Rounds(s, count + 1) == Rounds(Round(s), count);
  }

  lemma NoRounds(s: State)
    ensures Undone(s, 0)
  {
  }

  /** Rounds undone one by one, the last one first, lead back to the state before them. */
  lemma RoundsAreUndone(count: nat)
    ensures forall s :: Undone(s, count)
  {
    forall s ensures Undone(s, 0) { NoRounds(s); }
    for i := 0 to count
      invariant forall s :: Undone(s, i)
    {
      var next := i + 1;
      forall s ensures Undone(s, next) { OneRoundMore(s, i); }
    }
  }

  /** From a compressed state and its word the state before: the word is in `v0` after the rounds and in `v3` before them. */
  lemma CompressIsUndone(c: nat, s: State, word: Word)
    ensures var t := Compress(c, s, word);
            var u := Unrounds(t.(v0 := XorWord(t.v0, word)), c);
            u.(v3 := XorWord(u.v3, word)) == s
  {
    var mixed := Rounds(s.(v3 := XorWord(s.v3, word)), c);
    XorUndoes(mixed.v0, word);
    RoundsAreUndone(c);
    assert Undone(s.(v3 := XorWord(s.v3, word)), c);
    XorUndoes(s.v3, word);
  }

  /** The hash is what the four words come to after the last rounds, which start with 255 laid over the third. */
  lemma FinalizeMeans(d: nat, s: State)
    ensures var t := Rounds(State(s.v0, s.v1, XorWord(s.v2, 255), s.v3), d);
            XorWord(XorWord(Finalize(d, s), t.v3), t.v2) == XorWord(t.v0, t.v1)
  {
    var t := Rounds(State(s.v0, s.v1, XorWord(s.v2, 255), s.v3), d);
    XorUndoes(XorWord(XorWord(t.v0, t.v1), t.v2), t.v3);
    XorUndoes(XorWord(t.v0, t.v1), t.v2);
  }

  /** The number that eight characters spell, the first one highest. */
  function Spelled(text: string): nat
    requires |text| == 8
  {
    var high := 256 * (256 * (256 * (text[0] as nat) + text[1] as nat) + text[2] as nat) + text[3] as nat;
    256 * (256 * (256 * (256 * high + text[4] as nat) + text[5] as nat) + text[6] as nat) + text[7] as nat
  }

  /** The initial state keeps both halves of the key behind the words of a fixed phrase. */
  lemma SeededSpells(k0: Word, k1: Word)
    ensures var s := Seeded(k0, k1);
            && s.v0 == Xor(k0, Spelled("somepseu")) && s.v1 == Xor(k1, Spelled("dorandom"))
            && s.v2 == Xor(k0, Spelled("lygenera")) && s.v3 == Xor(k1, Spelled("tedbytes"))
  {
  }

  // ----- Words and tails -----

  lemma FitsWord(s: seq<Byte>)
    requires |s| <= 8
    ensures FromBytes(s) < WORD
    ensures |s| <= 7 ==> FromBytes(s) < Pow2(56)
  {
    FromBytesBound(s);
    Pow2OfWord();
    Pow2Adds(8 * |s|, 64 - 8 * |s|);
    Pow2Grows(8 * |s|, 64);
    if |s| <= 7 { Pow2Grows(8 * |s|, 56); }
  }

  /** The bytes of `m` that do not fill a word yet. */
  function Whole(m: seq<Byte>): (w: seq<Byte>)
    ensures |w| % 8 == 0
  {
    m[..|m| / 8 * 8]
  }

  function Tail(m: seq<Byte>): (t: seq<Byte>)
    ensures |t| == |m| % 8
  {
    m[|m| / 8 * 8..]
  }

  lemma {:induction false} FoldJoins(core: Core, s: State, a: seq<Byte>, b: seq<Byte>)
    requires |a| % 8 == 0 && |b| % 8 == 0
    ensures Fold(core, s, a + b) == Fold(core, Fold(core, s, a), b)
    decreases |a|
  {
    if a == [] {
      assert a + b == b;
    } else {
      assert (a + b)[..8] == a[..8] && (a + b)[8..] == a[8..] + b;
      FoldJoins(core, core.compress( s, WordOf(a[..8])), a[8..], b);
    }
  }

  lemma FoldOne(core: Core, s: State, word: seq<Byte>)
    requires |word| == 8
    ensures Fold(core, s, word) == core.compress(s, WordOf(word))
  {
    assert word[..8] == word && word[8..] == [];
  }

  lemma TailGrows(m: seq<Byte>, b: seq<Byte>)
    requires |Tail(m)| + |b| < 8
    ensures Whole(m + b) == Whole(m) && Tail(m + b) == Tail(m) + b
  {
    assert |m + b| / 8 * 8 == |m| / 8 * 8;
    assert m == Whole(m) + Tail(m);
  }

  /** Appending a chunk that completes the partial word compresses exactly one more word. */
  lemma WholeGrows(core: Core, s: State, m: seq<Byte>, chunk: seq<Byte>, rest: seq<Byte>)
    requires |Tail(m)| + |chunk| == 8 && |rest| < 8
    ensures |Tail(m) + chunk| == 8 && Tail(m + chunk + rest) == rest
    ensures Fold(core, s, Whole(m + chunk + rest)) == core.compress(Fold(core, s, Whole(m)), WordOf(Tail(m) + chunk))
  {
    var n := m + chunk + rest;
    assert m == Whole(m) + Tail(m);
    assert |n| / 8 * 8 == |Whole(m)| + 8;
    assert Whole(n) == Whole(m) + (Tail(m) + chunk);
    FoldJoins(core, s, Whole(m), Tail(m) + chunk);
    FoldOne(core, Fold(core, s, Whole(m)), Tail(m) + chunk);
  }

  /** From a word boundary on, absorbing more bytes only appends to the words and replaces the tail. */
  lemma ResumeAtWord(core: Core, s: State, m: seq<Byte>, rest: seq<Byte>)
    requires |m| % 8 == 0
    ensures Whole(m) == m && Tail(m + rest) == Tail(rest)
    ensures Fold(core, s, Whole(m + rest)) == Fold(core, Fold(core, s, m), Whole(rest))
  {
    assert |m + rest| / 8 * 8 == |m| + |rest| / 8 * 8;
    assert m == (m + rest)[..|m|] && rest == (m + rest)[|m|..];
    assert Whole(m + rest) == m + Whole(rest);
    FoldJoins(core, s, m, Whole(rest));
  }

  /** The wrapping length still counts modulo 8 and 256. */
  lemma WrapKeepsLow(n: nat, k: nat)
    ensures ((n % WORD + k) % WORD) == (n + k) % WORD
    ensures (n % WORD) % 8 == n % 8 && (n % WORD) % 256 == n % 256
  {
    var q, r := n / WORD, n % WORD;
    assert n == q * WORD + r;
    assert n + k == (r + k) + q * WORD;
    DropMultiple(r + k, q);
    LowBits(q, r);
  }

  lemma LowBits(q: nat, r: nat)
    ensures (q * WORD + r) % 8 == r % 8 && (q * WORD + r) % 256 == r % 256
  {
    var m := q * 0x100_0000_0000_0000;
    assert q * WORD == 256 * m;
    assert (256 * m + r) % 256 == r % 256;
    assert (8 * (32 * m) + r) % 8 == r % 8;
  }

  /** The code's closing word: the tail with the length byte on top. */
  function Closing(length: nat, tail: Word): Word
    requires tail < Pow2(56)
  {
    ClosingFits(length % 256, tail);
    Or(Shl(length % 256, 56), tail)
  }

  lemma ClosingFits(n: Byte, tail: nat)
    requires tail < Pow2(56)
    ensures Or(Shl(n, 56), tail) == tail + n * Pow2(56) < WORD
  {
    var p := Pow2(56);
    OrOfDisjoint(tail, n, 56);
    assert p == 0x100_0000_0000_0000 by { Pow2OfWord(); }
    TopByteFits(n, tail);
  }

  lemma TopByteFits(n: Byte, tail: nat)
    requires tail < 0x100_0000_0000_0000
    ensures n * 0x100_0000_0000_0000 + tail < WORD && (n * 0x100_0000_0000_0000) % WORD == n * 0x100_0000_0000_0000
  {
  }

  lemma ClosingIsPadding(m: seq<Byte>)
    ensures WordOf(Tail(m)) < Pow2(56)
    ensures var last := Tail(m) + Zeros(7 - |m| % 8) + [|m| % 256];
            |last| == 8 && Closing(|m|, WordOf(Tail(m))) == FromBytes(last)
  {
    var t, z, n := Tail(m), Zeros(7 - |m| % 8), |m| % 256;
    FitsWord(t);
    ClosingFits(n, WordOf(t));
    TailThenZeros(t, z);
    LastByteOnTop(t + z, n, 56);
  }

  lemma TailThenZeros(t: seq<Byte>, z: seq<Byte>)
    requires z == Zeros(|z|)
    ensures FromBytes(t + z) == FromBytes(t)
  {
    FromBytesJoins(t, z);
    ZerosAreZero(|z|);
  }

  lemma LastByteOnTop(r: seq<Byte>, n: Byte, k: nat)
    requires k == 8 * |r|
    ensures FromBytes(r + [n]) == FromBytes(r) + n * Pow2(k)
  {
    FromBytesJoins(r, [n]);
    OneByte(n);
    Swapped(Pow2(k), n);
  }

  lemma OneByte(n: Byte)
    ensures FromBytes([n]) == n
  {
    assert [n][1..] == [];
  }

  lemma Swapped(a: nat, b: nat)
    ensures a * b == b * a
  {
  }

  lemma ZerosAreZero(n: nat)
    ensures FromBytes(Zeros(n)) == 0
  {
    if n > 0 {
      assert Zeros(n)[1..] == Zeros(n - 1);
      ZerosAreZero(n - 1);
    }
  }

  lemma PaddedParts(m: seq<Byte>)
    ensures Padded(m) == Whole(m) + (Tail(m) + Zeros(7 - |m| % 8) + [|m| % 256])
  {
    assert m == Whole(m) + Tail(m);
  }

  /** Compressing whole words and then the closing word is compressing the padded message. */
  lemma PaddedFold(core: Core, s: State, m: seq<Byte>)
    ensures WordOf(Tail(m)) < Pow2(56)
    ensures Fold(core, s, Padded(m)) == core.compress(Fold(core, s, Whole(m)), Closing(|m|, WordOf(Tail(m))))
  {
    var last := Tail(m) + Zeros(7 - |m| % 8) + [|m| % 256];
    ClosingIsPadding(m);
    PaddedParts(m);
    FoldJoins(core, s, Whole(m), last);
    FoldOne(core, Fold(core, s, Whole(m)), last);
  }

  // ----- Merging values into the partial word -----

  lemma OrShifted(x: nat, y: nat, k: nat)
    requires x < Pow2(k) && y < WORD && x + Pow2(k) * y < WORD
    ensures Or(x, Shl(y, k)) == x + Pow2(k) * y
  {
    var h := y * Pow2(k);
    assert h == Pow2(k) * y;
    assert Shl(y, k) == h % WORD == h;
    OrOfDisjoint(x, y, k);
  }

  /** Shifting bytes above a tail joins the two byte strings as long as they fit in one word. */
  lemma MergeFits(t: seq<Byte>, b: seq<Byte>)
    requires |t| + |b| <= 8
    ensures Or(WordOf(t), Shl(WordOf(b), 8 * |t|)) == WordOf(t + b)
  {
    FitsWord(t + b);
    FromBytesBound(t);
    FromBytesJoins(t, b);
    OrShifted(WordOf(t), WordOf(b), 8 * |t|);
  }

  /** Bytes that overflow the word are cut off by the shift and recovered by the opposite shift. */
  lemma MergeSpills(t: seq<Byte>, b1: seq<Byte>, b2: seq<Byte>)
    requires |t| + |b1| == 8 && |b1| + |b2| <= 8
    ensures Or(WordOf(t), Shl(WordOf(b1 + b2), 8 * |t|)) == WordOf(t + b1)
    ensures Shr(WordOf(b1 + b2), 8 * |b1|) == WordOf(b2)
  {
    var x, y, p, q := WordOf(b1), WordOf(b2), Pow2(8 * |b1|), Pow2(8 * |t|);
    FromBytesBound(b1);
    assert WordOf(b1 + b2) == x + p * y by { FromBytesJoins(b1, b2); }
    SplitShifts(WordOf(b1 + b2), x, y, 8 * |b1|, 8 * |t|);
    MergeFits(t, b1);
  }

  lemma SplitShifts(z: Word, x: Word, y: Word, j: nat, k: nat)
    requires x < Pow2(j) && z == x + Pow2(j) * y && j + k == 64
    ensures Shl(z, k) == Shl(x, k) && Shr(z, j) == y
  {
    assert Pow2(j) * y == y * Pow2(j);
    ShrDropsLow(x, y, j);
    Pow2Adds(j, k);
    Pow2OfWord();
    ShiftOutHigh(x, y, Pow2(j), Pow2(k));
  }

  lemma ShiftOutHigh(x: nat, y: nat, p: nat, q: nat)
    requires p * q == WORD
    ensures ((x + p * y) * q) % WORD == (x * q) % WORD
  {
    assert (x + p * y) * q == x * q + y * WORD by {
      assert (x + p * y) * q == x * q + (p * y) * q;
      assert (p * y) * q == y * (p * q);
    }
    DropMultiple(x * q, y);
  }

  lemma {:induction false} DropMultiple(a: nat, n: nat)
    ensures (a + n * WORD) % WORD == a % WORD
  {
    if n > 0 {
      DropMultiple(a, n - 1);
      assert a + n * WORD == (a + (n - 1) * WORD) + WORD;
    }
  }

  // ----- The hasher -----

  /** Merges a value above the tail; what does not fit is lost. */
  method Merge(tail: Word, value: Word, ghost t: seq<Byte>, ghost fit: seq<Byte>, ghost spill: seq<Byte>, shift: nat)
    returns (merged: Word)
    requires shift == 8 * |t| && |t| + |fit| <= 8 && |fit + spill| <= 8 && (spill != [] ==> |t| + |fit| == 8)
    requires tail == WordOf(t) && value == WordOf(fit + spill)
    ensures merged == WordOf(t + fit)
  {
    if spill == [] {
      assert fit + spill == fit;
      MergeFits(t, fit);
    } else {
      MergeSpills(t, fit, spill);
    }
    merged := Or(tail, Shl(value, shift));
  }

  /** What a merge of `value` lost. */
  method Spilled(value: Word, ghost t: seq<Byte>, ghost fit: seq<Byte>, ghost spill: seq<Byte>, needed: nat) returns (tail: Word)
    requires needed == |fit| && |t| + |fit| == 8 && |fit + spill| <= 8 && value == WordOf(fit + spill)
    ensures tail == WordOf(spill)
  {
    MergeSpills(t, fit, spill);
    tail := if needed < 8 then Shr(value, 8 * needed) else 0;
  }

  /** Up to seven bytes as one word, read in pieces of four, two and one. */
  method Pack(input: seq<Byte>) returns (word: Word)
    requires |input| < 8
    ensures word == WordOf(input)
  {
    var bytes, shift := input, 0;
    ghost var done: seq<Byte> := [];
    word := 0;
    if |bytes| >= 4 {
      word := WordOf(bytes[..4]);
      done := bytes[..4];
      bytes := bytes[4..];
      shift := 32;
    }
    if |bytes| >= 2 {
      assert bytes[..2] + [] == bytes[..2];
      word := Merge(word, WordOf(bytes[..2]), done, bytes[..2], [], shift);
      done := done + bytes[..2];
      bytes := bytes[2..];
      shift := shift + 16;
    }
    assert input == done + bytes;
    if |bytes| >= 1 {
      assert bytes[..1] + [] == bytes[..1] == bytes;
      word := Merge(word, WordOf(bytes[..1]), done, bytes[..1], [], shift);
    } else {
      assert input == done;
    }
  }

  /** Compresses the full words of `input` and returns the bytes after them. */
  method Blocks(core: Core, start: State, input: seq<Byte>) returns (state: State, rest: seq<Byte>)
    ensures state == Fold(core, start, Whole(input)) && rest == Tail(input)
  {
    state, rest := start, input;
    ghost var done: seq<Byte> := [];
    while |rest| >= 8
      invariant input == done + rest && |done| % 8 == 0
      invariant state == Fold(core, start, done)
    {
      FoldJoins(core, start, done, rest[..8]);
      FoldOne(core, state, rest[..8]);
      state := core.compress(state, WordOf(rest[..8]));
      done := done + rest[..8];
      rest := rest[8..];
    }
    assert done == Whole(input);
  }

  /** The closing word of a message of the given length with the given tail. */
  method Close(length: nat, tail: Word, ghost m: seq<Byte>) returns (end: Word)
    requires length % 256 == |m| % 256 && tail == WordOf(Tail(m))
    ensures WordOf(Tail(m)) < Pow2(56) && end == Closing(|m|, WordOf(Tail(m)))
  {
    ClosingIsPadding(m);
    end := Or(Shl(length % 256, 56), tail);
  }

  class Sip {
    const core: Core
    ghost const start: State
    var length: nat
    var state: State
    var tail: Word
    ghost var bytes: seq<Byte>

    /** The fields are determined by the bytes absorbed so far, however they came in. */
    ghost predicate Valid()
      reads this
    {
      && length == |bytes| % WORD
      && state == Fold(core, start, Whole(bytes))
      && tail == WordOf(Tail(bytes))
    }

    constructor (shape: Shape, k0: Word, k1: Word)
      ensures Valid() && bytes == []
      ensures core == SipCore(shape) && start == Seeded(k0, k1)
    {
      core, start := SipCore(shape), Seeded(k0, k1);
      length, state, tail := 0, Seeded(k0, k1), 0;
      bytes := [];
    }

    constructor From(core: Core, start: State)
      ensures Valid() && bytes == [] && this.core == core && this.start == start
    {
      this.core, this.start := core, start;
      length, state, tail := 0, start, 0;
      bytes := [];
    }

    /** A copy of another hasher. */
    constructor Copy(other: Sip)
      requires other.Valid()
      ensures Valid() && bytes == other.bytes && core == other.core && start == other.start
    {
      core, start := other.core, other.start;
      length, state, tail := other.length, other.state, other.tail;
      bytes := other.bytes;
    }

    /** Absorbs a value of `size` bytes; `b` are its little-endian bytes. */
    method ShortWrite(size: nat, value: Word, ghost b: seq<Byte>)
      requires Valid() && 1 <= size <= 8 && size == |b| && value == WordOf(b)
      modifies this
      ensures Valid() && bytes == old(bytes) + b
    {
      WrapKeepsLow(|bytes|, size);
      state, tail := Absorbed(core, start, state, tail, length % 8, size, value, bytes, b);
      length := (length + size) % WORD;
      bytes := bytes + b;
    }

    /** The state and the tail after a value is merged, and compressed if it fills the word. */
    static method Absorbed(core: Core, ghost start: State, state: State, tail: Word, ntail: nat, size: nat, value: Word,
                           ghost m: seq<Byte>, ghost b: seq<Byte>)
      returns (after: State, rest: Word)
      requires 1 <= size == |b| <= 8 && value == WordOf(b) && ntail == |m| % 8
      requires state == Fold(core, start, Whole(m)) && tail == WordOf(Tail(m))
      ensures after == Fold(core, start, Whole(m + b)) && rest == WordOf(Tail(m + b))
    {
      var needed := 8 - ntail;
      if size >= needed {
        ghost var fit, spill := b[..needed], b[needed..];
        assert b == fit + spill && m + b == m + fit + spill;
        WholeGrows(core, start, m, fit, spill);
        var word := Merge(tail, value, Tail(m), fit, spill, 8 * ntail);
        after := core.compress(state, word);
        rest := Spilled(value, Tail(m), fit, spill, needed);
      } else {
        assert b + [] == b;
        TailGrows(m, b);
        rest := Merge(tail, value, Tail(m), b, [], 8 * ntail);
        after := state;
      }
    }

    method WriteU8(value: Byte)
      requires Valid()
      modifies this
      ensures Valid() && bytes == old(bytes) + [value]
    {
      assert FromBytes([value]) == value;
      ShortWrite(1, value, [value]);
    }

    method WriteU16(value: nat)
      requires Valid() && value < 0x1_0000
      modifies this
      ensures Valid() && bytes == old(bytes) + ToBytes(value, 2)
    {
      Pow2OfByte();
      BytesRoundTrip(value, 2);
      ShortWrite(2, value, ToBytes(value, 2));
    }

    method WriteU32(value: nat)
      requires Valid() && value < 0x1_0000_0000
      modifies this
      ensures Valid() && bytes == old(bytes) + ToBytes(value, 4)
    {
      Pow2OfWord();
      BytesRoundTrip(value, 4);
      ShortWrite(4, value, ToBytes(value, 4));
    }

    method WriteU64(value: Word)
      requires Valid()
      modifies this
      ensures Valid() && bytes == old(bytes) + ToBytes(value, 8)
    {
      Pow2OfWord();
      BytesRoundTrip(value, 8);
      ShortWrite(8, value, ToBytes(value, 8));
    }

    method WriteUsize(value: Word)
      requires Valid()
      modifies this
      ensures Valid() && bytes == old(bytes) + ToBytes(value, 8)
    {
      Pow2OfWord();
      BytesRoundTrip(value, 8);
      ShortWrite(8, value, ToBytes(value, 8));
    }

    method Write(input: seq<Byte>)
      requires Valid()
      modifies this
      ensures Valid() && bytes == old(bytes) + input
    {
      WrapKeepsLow(|bytes|, |input|);
      state, tail := Extended(core, start, state, tail, length % 8, input, bytes);
      length := (length + |input|) % WORD;
      bytes := bytes + input;
    }

    /** Tops up the partial word, then takes whole words, then what is left. */
    static method Extended(core: Core, ghost start: State, state: State, tail: Word, ntail: nat, input: seq<Byte>,
                           ghost bytes: seq<Byte>)
      returns (after: State, rest: Word)
      requires ntail == |bytes| % 8 && state == Fold(core, start, Whole(bytes)) && tail == WordOf(Tail(bytes))
      ensures after == Fold(core, start, Whole(bytes + input)) && rest == WordOf(Tail(bytes + input))
    {
      after, rest := state, tail;
      ghost var m := bytes;
      var left := input;
      if ntail != 0 {
        var take := if |input| < 8 - ntail then |input| else 8 - ntail;
        rest := ToppedUp(core, start, state, tail, ntail, input[..take], m);
        left := input[take..];
        if ntail + take < 8 {
          assert input[..take] == input;
          return;
        }
        after := core.compress(state, rest);
        m := m + input[..take];
      }
      assert m + left == bytes + input;
      ResumeAtWord(core, start, m, left);
      after, left := Blocks(core, after, left);
      rest := Pack(left);
    }

    /** The partial word with a chunk on top that at most fills it. */
    static method ToppedUp(core: Core, ghost start: State, ghost state: State, tail: Word, ntail: nat, chunk: seq<Byte>,
                           ghost m: seq<Byte>)
      returns (word: Word)
      requires 0 < ntail == |m| % 8 && ntail + |chunk| <= 8
      requires state == Fold(core, start, Whole(m)) && tail == WordOf(Tail(m))
      ensures ntail + |chunk| < 8 ==> state == Fold(core, start, Whole(m + chunk)) && word == WordOf(Tail(m + chunk))
      ensures ntail + |chunk| == 8 ==>
                |m + chunk| % 8 == 0 && core.compress(state, word) == Fold(core, start, Whole(m + chunk))
    {
      var packed := Pack(chunk);
      assert chunk + [] == chunk && m + chunk + [] == m + chunk;
      if ntail + |chunk| < 8 { TailGrows(m, chunk); } else { WholeGrows(core, start, m, chunk, []); }
      word := Merge(tail, packed, Tail(m), chunk, [], 8 * ntail);
    }

    method Finish() returns (hash: Word)
      requires Valid()
      ensures hash == Digest(core, start, bytes)
    {
      PaddedFold(core, start, bytes);
      WrapKeepsLow(|bytes|, 0);
      var end := Close(length, tail, bytes);
      hash := core.finalize(core.compress(state, end));
    }

    /** One-shot form: hashes `input` with a hasher that has absorbed nothing. */
    method Hash(input: seq<Byte>) returns (hash: Word)
      requires Valid() && bytes == []
      ensures hash == Digest(core, start, input)
    {
      var state', rest := Blocks(core, state, input);
      var tail' := Pack(rest);
      PaddedFold(core, start, input);
      var end := Close(|input|, tail', input);
      hash := core.finalize(core.compress(state', end));
    }
  }
}
