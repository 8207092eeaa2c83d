/**
  Unsigned machine arithmetic on natural numbers, with every truncation written out,
  and the little-endian reading of byte strings.
*/
module MachineWords {

  const WORD: nat := 0x1_0000_0000_0000_0000

  type Byte = x: nat | x < 256

  type Word = x: nat | x < WORD

  function Pow2(k: nat): (p: nat)
    ensures p > 0
  {
    if k == 0 then 1 else 2 * Pow2(k - 1)
  }

  /** Bitwise or and exclusive or, bit by bit from the lowest. */
  function Or(x: nat, y: nat): nat {
    if x == 0 && y == 0 then 0 else
      (if x % 2 == 1 || y % 2 == 1 then 1 else 0) + 2 * Or(x / 2, y / 2)
  }

  function Xor(x: nat, y: nat): nat {
    if x == 0 && y == 0 then 0 else
      (if x % 2 != y % 2 then 1 else 0) + 2 * Xor(x / 2, y / 2)
  }

  lemma {:induction false} Pow2Adds(j: nat, k: nat)
    ensures Pow2(j + k) == Pow2(j) * Pow2(k)
  {
    if j > 0 { Pow2Adds(j - 1, k); }
  }

  lemma {:induction false} Pow2Grows(j: nat, k: nat)
    requires j <= k
    ensures Pow2(j) <= Pow2(k) && (j < k ==> Pow2(j) < Pow2(k))
  {
    if j < k { Pow2Grows(j, k - 1); }
  }

  lemma Pow2OfByte()
    ensures Pow2(8) == 256 && Pow2(16) == 0x1_0000
  {
    assert Pow2(4) == 16;
    Pow2Adds(4, 4);
    Pow2Adds(8, 8);
  }

  lemma Pow2OfWord()
    ensures Pow2(64) == WORD && Pow2(56) == 0x100_0000_0000_0000 && Pow2(32) == 0x1_0000_0000 && Pow2(8) == 256
  {
    Pow2OfByte();
    Pow2Adds(16, 16);
    Pow2Adds(32, 16);
    Pow2Adds(48, 8);
    Pow2Adds(32, 32);
  }

  lemma OrWithZero(x: nat)
    ensures Or(0, x) == x && Or(x, 0) == x
  {
    if x > 0 { OrWithZero(x / 2); }
  }

  /** Where the set bits cannot meet, or is addition. */
  lemma {:induction false} OrOfDisjoint(x: nat, y: nat, k: nat)
    requires x < Pow2(k)
    ensures Or(x, y * Pow2(k)) == x + y * Pow2(k) == Or(y * Pow2(k), x)
  {
    if k == 0 {
      OrWithZero(y);
    } else {
      var h := y * Pow2(k - 1);
      Doubles(y, Pow2(k - 1));
      OrOfDisjoint(x / 2, y, k - 1);
      if x == 0 && h == 0 {
      } else {
        assert Or(x, 2 * h) == x % 2 + 2 * Or(x / 2, h);
        assert Or(2 * h, x) == x % 2 + 2 * Or(h, x / 2);
      }
    }
  }

  lemma {:induction false} XorIsBounded(x: nat, y: nat, k: nat)
    requires x < Pow2(k) && y < Pow2(k)
    ensures Xor(x, y) < Pow2(k)
  {
    if k > 0 { XorIsBounded(x / 2, y / 2, k - 1); }
  }

  lemma {:induction false} XorUndoes(x: nat, y: nat)
    ensures Xor(Xor(x, y), y) == x
    decreases x + y
  {
    if x > 0 || y > 0 {
      XorUndoes(x / 2, y / 2);
      var z := Xor(x, y);
      assert z / 2 == Xor(x / 2, y / 2) && z % 2 == (if x % 2 != y % 2 then 1 else 0);
    }
  }

  // ----- 64-bit operations -----

  function Shl(x: Word, k: nat): Word {
    (x * Pow2(k)) % WORD
  }

  function Shr(x: Word, k: nat): Word {
    if k == 0 then x else Shr(x / 2, k - 1)
  }

  lemma Doubles(y: nat, p: nat)
    ensures y * (2 * p) == 2 * (y * p)
  {
  }

  lemma {:induction false} ShrDropsLow(x: nat, y: nat, k: nat)
    requires x < Pow2(k) && x + y * Pow2(k) < WORD
    ensures Shr(x + y * Pow2(k), k) == y
  {
    if k > 0 {
      var h := y * Pow2(k - 1);
      Doubles(y, Pow2(k - 1));
      assert (x + 2 * h) / 2 == x / 2 + h;
      ShrDropsLow(x / 2, y, k - 1);
    }
  }

  function XorWord(x: Word, y: Word): Word {
    Pow2OfWord();
    XorIsBounded(x, y, 64);
    Xor(x, y)
  }

  function AddWord(x: Word, y: Word): Word {
    (x + y) % WORD
  }

  function RotateLeft(x: Word, k: nat): Word
    requires k <= 64
  {
    (Shl(x, k) + Shr(x, 64 - k)) % WORD
  }

  function SubWord(x: Word, y: Word): Word {
    if x >= y then x - y else x + WORD - y
  }

  lemma SubUndoesAdd(x: Word, y: Word)
    ensures SubWord(AddWord(x, y), y) == x && SubWord(AddWord(x, y), x) == y
  {
  }

  lemma PartsFit(high: nat, low: nat, p: nat, q: nat)
    requires high < p && low < q
    ensures low * p + high < q * p
  {
    assert (low + 1) * p <= q * p;
  }

  lemma ShiftedParts(high: nat, low: nat, p: nat, q: nat)
    requires q * p == WORD && high < p && low < q
    ensures high * q + low < WORD && ((high * q + low) * p) % WORD == low * p && low * p + high < WORD
  {
    PartsFit(high, low, p, q);
    PartsFit(low, high, q, p);
    assert (high * q + low) * p == high * (q * p) + low * p;
    assert (high * WORD + low * p) % WORD == low * p;
  }

  lemma PowersOfWord(k: nat)
    requires k <= 64
    ensures Pow2(64 - k) * Pow2(k) == WORD
  {
    Pow2Adds(64 - k, k);
    Pow2OfWord();
  }

  lemma HighBits(x: Word, high: nat, low: nat, k: nat)
    requires low < Pow2(k) && x == low + high * Pow2(k)
    ensures Shr(x, k) == high
  {
    ShrDropsLow(low, high, k);
  }

  lemma LowBits(x: Word, k: nat, shifted: nat)
    requires (x * Pow2(k)) % WORD == shifted
    ensures Shl(x, k) == shifted
  {
  }

  lemma SmallSum(sum: nat)
    requires sum < WORD
    ensures sum % WORD == sum
  {
  }

  lemma TurnedSum(x: Word, k: nat, low: nat, high: nat)
    requires k <= 64 && Shl(x, k) == low && Shr(x, 64 - k) == high && low + high < WORD
    ensures RotateLeft(x, k) == low + high
  {
    SmallSum(low + high);
  }

  /** Turning a word puts its `k` high bits below the others. */
  lemma RotatedParts(high: nat, low: nat, k: nat)
    requires k <= 64 && high < Pow2(k) && low < Pow2(64 - k)
    ensures high * Pow2(64 - k) + low < WORD
    ensures RotateLeft(high * Pow2(64 - k) + low, k) == low * Pow2(k) + high
  {
    PowersOfWord(k);
    ShiftedParts(high, low, Pow2(k), Pow2(64 - k));
    var x := high * Pow2(64 - k) + low;
    HighBits(x, high, low, 64 - k);
    LowBits(x, k, low * Pow2(k));
    TurnedSum(x, k, low * Pow2(k), high);
  }

  lemma RotatedTwice(high: nat, low: nat, k: nat)
    requires k <= 64 && high < Pow2(k) && low < Pow2(64 - k) && high * Pow2(64 - k) + low < WORD
    ensures RotateLeft(RotateLeft(high * Pow2(64 - k) + low, k), 64 - k) == high * Pow2(64 - k) + low
  {
    RotatedParts(high, low, k);
    assert 64 - (64 - k) == k;
    RotatedParts(low, high, 64 - k);
  }

  lemma HighPart(x: nat, p: nat, q: nat) returns (high: nat, low: nat)
    requires x < q * p && q > 0
    ensures x == high * q + low && low < q && high < p
  {
    high, low := x / q, x % q;
    assert high >= p ==> high * q >= q * p;
  }

  /** Turning a word on to a full turn gives it back. */
  lemma RotateUndoes(x: Word, k: nat)
    requires k <= 64
    ensures RotateLeft(RotateLeft(x, k), 64 - k) == x
  {
    PowersOfWord(k);
    var high, low := HighPart(x, Pow2(k), Pow2(64 - k));
    RotatedTwice(high, low, k);
  }

  // ----- Little-endian byte strings -----

  function FromBytes(s: seq<Byte>): nat {
    if s == [] then 0 else s[0] + 256 * FromBytes(s[1..])
  }

  function ToBytes(x: nat, n: nat): (s: seq<Byte>)
    ensures |s| == n
  {
    if n == 0 then [] else [x % 256] + ToBytes(x / 256, n - 1)
  }

  lemma FromBytesBound(s: seq<Byte>)
    ensures FromBytes(s) < Pow2(8 * |s|)
  {
    if s != [] {
      FromBytesBound(s[1..]);
      Pow2Adds(8, 8 * |s[1..]|);
      Pow2OfByte();
    }
  }

  lemma NextPower(n: nat)
    ensures Pow2(8 * (n + 1)) == 256 * Pow2(8 * n)
  {
    Pow2Adds(8, 8 * n);
    Pow2OfByte();
  }

  lemma Times256(p: nat, v: nat)
    ensures (256 * p) * v == 256 * (p * v)
  {
  }

  lemma {:induction false} FromBytesJoins(s: seq<Byte>, t: seq<Byte>)
    ensures FromBytes(s + t) == FromBytes(s) + Pow2(8 * |s|) * FromBytes(t)
  {
    if s == [] {
      assert s + t == t;
    } else {
      var r, p, v := s[1..], Pow2(8 * |s[1..]|), FromBytes(t);
      assert (s + t)[0] == s[0] && (s + t)[1..] == r + t;
      FromBytesJoins(r, t);
      NextPower(|r|);
      Times256(p, v);
      assert FromBytes(s + t) == s[0] + 256 * (FromBytes(r) + p * v);
    }
  }

  lemma {:induction false} BytesRoundTrip(x: nat, n: nat)
    requires x < Pow2(8 * n)
    ensures FromBytes(ToBytes(x, n)) == x
  {
    if n > 0 {
      Pow2Adds(8, 8 * (n - 1));
      Pow2OfByte();
      BytesRoundTrip(x / 256, n - 1);
      assert ToBytes(x, n)[1..] == ToBytes(x / 256, n - 1);
    }
  }

  // ----- Two big-endian bytes -----

  type U16 = x: nat | x < 0x1_0000

  function Big16(x: U16): (s: seq<Byte>)
    ensures |s| == 2
  {
    [x / 256, x % 256]
  }

  function Read16(s: seq<Byte>, at: nat): U16
    requires at + 2 <= |s|
  {
    var high: nat, low: nat := s[at], s[at + 1];
    256 * high + low
  }

  lemma ReadWritten(a: seq<Byte>, x: U16, b: seq<Byte>)
    ensures Read16(a + Big16(x) + b, |a|) == x
  {
    var s := a + Big16(x) + b;
    assert s[|a|] == x / 256 && s[|a| + 1] == x % 256;
  }
}
