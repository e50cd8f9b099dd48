/** Facts about single 64-bit words of a `java.util.BitSet`. A word is held by
    its unsigned value, and `|`, `&` and setting a bit are defined digit by
    digit in base 2, so that every proof stays in linear integer arithmetic. */
module Words {
  import opened Coords

  const WordLimit: int := 0x1_0000_0000_0000_0000

  /** A 64-bit word, by its unsigned value. */
  type Word = w: int | 0 <= w < 0x1_0000_0000_0000_0000

  function Pow2(n: nat): (r: nat)
    ensures r >= 1
  {
    if n == 0 then 1 else 2 * Pow2(n - 1)
  }

  lemma Pow2Plus8(n: nat)
    ensures Pow2(n + 8) == 256 * Pow2(n)
  {
    assert Pow2(n + 8) == 2 * Pow2(n + 7);
    assert Pow2(n + 7) == 2 * Pow2(n + 6);
    assert Pow2(n + 6) == 2 * Pow2(n + 5);
    assert Pow2(n + 5) == 2 * Pow2(n + 4);
    assert Pow2(n + 4) == 2 * Pow2(n + 3);
    assert Pow2(n + 3) == 2 * Pow2(n + 2);
    assert Pow2(n + 2) == 2 * Pow2(n + 1);
    assert Pow2(n + 1) == 2 * Pow2(n);
  }

  lemma Pow2Of64()
    ensures Pow2(64) == WordLimit
  {
    Pow2Plus8(0); Pow2Plus8(8); Pow2Plus8(16); Pow2Plus8(24);
    Pow2Plus8(32); Pow2Plus8(40); Pow2Plus8(48); Pow2Plus8(56);
  }

  /** Bit `j` of `w`: its `j`-th binary digit. */
  predicate Bit(w: nat, j: nat)
  {
    if j == 0 then w % 2 == 1 else Bit(w / 2, j - 1)
  }

  /** The low `n` bits of `x | y`. */
  function OrBits(x: nat, y: nat, n: nat): nat
  {
    if n == 0 then 0
    else 2 * OrBits(x / 2, y / 2, n - 1) + (if x % 2 == 1 || y % 2 == 1 then 1 else 0)
  }

  /** The low `n` bits of `x & y`. */
  function AndBits(x: nat, y: nat, n: nat): nat
  {
    if n == 0 then 0
    else 2 * AndBits(x / 2, y / 2, n - 1) + (if x % 2 == 1 && y % 2 == 1 then 1 else 0)
  }

  /** `w | (1 << j)`. */
  function SetBits(w: nat, j: nat): nat
  {
    if j == 0 then w - w % 2 + 1 else 2 * SetBits(w / 2, j - 1) + w % 2
  }

  lemma {:induction false} OrBitsBound(x: nat, y: nat, n: nat)
    ensures OrBits(x, y, n) < Pow2(n)
  {
    if n > 0 {
      OrBitsBound(x / 2, y / 2, n - 1);
    }
  }

  lemma {:induction false} AndBitsBound(x: nat, y: nat, n: nat)
    ensures AndBits(x, y, n) < Pow2(n)
  {
    if n > 0 {
      AndBitsBound(x / 2, y / 2, n - 1);
    }
  }

  lemma {:induction false} SetBitsBound(w: nat, j: nat, n: nat)
    requires w < Pow2(n) && j < n
    ensures SetBits(w, j) < Pow2(n)
  {
    assert Pow2(n) == 2 * Pow2(n - 1);
    if j > 0 {
      assert w / 2 < Pow2(n - 1);
      SetBitsBound(w / 2, j - 1, n - 1);
    }
  }

  function WordOr(x: Word, y: Word): Word
  {
    OrBitsBound(x, y, 64);
    Pow2Of64();
    OrBits(x, y, 64)
  }

  function WordAnd(x: Word, y: Word): Word
  {
    AndBitsBound(x, y, 64);
    Pow2Of64();
    AndBits(x, y, 64)
  }

  /** `word |= 1L << j`. */
  function WordSet(w: Word, j: nat): Word
    requires j < 64
  {
    Pow2Of64();
    SetBitsBound(w, j, 64);
    SetBits(w, j)
  }

  /** Java's `long` holding a word's bit pattern (two's complement). */
  function WordToLong(w: Word): Long
  {
    Signed64(w)
  }

  /** The bit pattern of a Java `long`. */
  function LongToWord(l: Long): Word
  {
    Unsigned64(l)
  }

  // ---------------------------------------------------------------------------
  // Bits of the operations.

  lemma {:induction false} ZeroBit(j: nat)
    ensures !Bit(0, j)
  {
    if j > 0 {
      ZeroBit(j - 1);
    }
  }

  /** Halving 2r + b, for a binary digit b, gives r back and leaves b. */
  lemma HalfOf(r: nat, b: nat)
    requires b < 2
    ensures (2 * r + b) / 2 == r && (2 * r + b) % 2 == b
  {
  }

  lemma {:induction false} OrBitsBit(x: nat, y: nat, n: nat, j: nat)
    requires j < n
    ensures Bit(OrBits(x, y, n), j) <==> Bit(x, j) || Bit(y, j)
  {
    HalfOf(OrBits(x / 2, y / 2, n - 1), if x % 2 == 1 || y % 2 == 1 then 1 else 0);
    if j > 0 {
      OrBitsBit(x / 2, y / 2, n - 1, j - 1);
    }
  }

  lemma {:induction false} AndBitsBit(x: nat, y: nat, n: nat, j: nat)
    requires j < n
    ensures Bit(AndBits(x, y, n), j) <==> Bit(x, j) && Bit(y, j)
  {
    HalfOf(AndBits(x / 2, y / 2, n - 1), if x % 2 == 1 && y % 2 == 1 then 1 else 0);
    if j > 0 {
      AndBitsBit(x / 2, y / 2, n - 1, j - 1);
    }
  }

  lemma {:induction false} SetBitsBit(w: nat, i: nat, j: nat)
    ensures Bit(SetBits(w, i), j) <==> i == j || Bit(w, j)
  {
    if i > 0 {
      HalfOf(SetBits(w / 2, i - 1), w % 2);
    }
    if i > 0 && j > 0 {
      SetBitsBit(w / 2, i - 1, j - 1);
    }
  }

  /** A non-zero number below 2^n has a set bit below n. */
  lemma {:induction false} SomeBit(x: nat, n: nat) returns (j: nat)
    requires 0 < x < Pow2(n)
    ensures j < n && Bit(x, j)
  {
    if x % 2 == 1 {
      j := 0;
    } else {
      var k := SomeBit(x / 2, n - 1);
      j := k + 1;
    }
  }

  lemma WordSetBit(w: Word, i: nat, j: nat)
    requires i < 64
    ensures Bit(WordSet(w, i), j) <==> i == j || Bit(w, j)
  {
    SetBitsBit(w, i, j);
  }

  lemma WordOrBit(x: Word, y: Word, j: nat)
    requires j < 64
    ensures Bit(WordOr(x, y), j) <==> Bit(x, j) || Bit(y, j)
  {
    OrBitsBit(x, y, 64, j);
  }

  lemma WordAndBit(x: Word, y: Word, j: nat)
    requires j < 64
    ensures Bit(WordAnd(x, y), j) <==> Bit(x, j) && Bit(y, j)
  {
    AndBitsBit(x, y, 64, j);
  }

  lemma WordSetNonZero(w: Word, j: nat)
    requires j < 64
    ensures WordSet(w, j) != 0
  {
    WordSetBit(w, j, j);
    ZeroBit(j);
  }

  lemma WordOrNonZero(x: Word, y: Word)
    requires x != 0 || y != 0
    ensures WordOr(x, y) != 0
  {
    Pow2Of64();
    var j := SomeBit(if x != 0 then x else y, 64);
    WordOrBit(x, y, j);
    ZeroBit(j);
  }

  // ---------------------------------------------------------------------------
  // Algebra of `|`.

  lemma {:induction false} OrBitsCommute(x: nat, y: nat, n: nat)
    ensures OrBits(x, y, n) == OrBits(y, x, n)
  {
    if n > 0 {
      OrBitsCommute(x / 2, y / 2, n - 1);
    }
  }

  lemma {:induction false} OrBitsAssociate(x: nat, y: nat, z: nat, n: nat)
    ensures OrBits(OrBits(x, y, n), z, n) == OrBits(x, OrBits(y, z, n), n)
  {
    if n > 0 {
      OrBitsAssociate(x / 2, y / 2, z / 2, n - 1);
    }
  }

  lemma {:induction false} OrBitsSame(x: nat, n: nat)
    requires x < Pow2(n)
    ensures OrBits(x, x, n) == x
  {
    if n > 0 {
      OrBitsSame(x / 2, n - 1);
    }
  }

  lemma {:induction false} OrBitsZero(x: nat, n: nat)
    requires x < Pow2(n)
    ensures OrBits(0, x, n) == x
  {
    if n > 0 {
      OrBitsZero(x / 2, n - 1);
    }
  }

  lemma WordOrCommutes(x: Word, y: Word)
    ensures WordOr(x, y) == WordOr(y, x)
  {
    OrBitsCommute(x, y, 64);
  }

  lemma WordOrIdempotent(x: Word)
    ensures WordOr(x, x) == x
  {
    Pow2Of64();
    OrBitsSame(x, 64);
  }

  lemma WordOrAssociates(x: Word, y: Word, z: Word)
    ensures WordOr(WordOr(x, y), z) == WordOr(x, WordOr(y, z))
  {
    OrBitsAssociate(x, y, z, 64);
  }

  lemma WordOrZero(x: Word)
    ensures WordOr(0, x) == x
  {
    Pow2Of64();
    OrBitsZero(x, 64);
  }

  /** A word survives being stored in a `long` and read back. */
  lemma WordLongRoundTrip(w: Word)
    ensures LongToWord(WordToLong(w)) == w
  {
  }

  lemma ZeroLongWord()
    ensures LongToWord(0) == 0
  {
  }
}

/** `java.util.BitSet` as the exploration state uses it. A bitset is its array
    of 64-bit words up to the last non-zero one, which is exactly what
    `BitSet.toLongArray` returns; `or`, `and`, `set` and `clear` are the
    library's word-wise operations. */
module BitSets {
  import opened Coords
  import opened Words

  /** The words in use; the last one is never zero, so equal bitsets have
      equal word sequences. */
  type BitSet = ws: seq<Word> | |ws| == 0 || ws[|ws| - 1] != 0 witness []

  /** A cleared bitset (`new BitSet(n)` and `BitSet.clear()`). */
  const Empty: BitSet := []

  /** The most words a region's bitset needs: BitsetSize / 64. */
  const RegionWords: nat := 16

  /** Bit `i` of a word sequence (absent words read as zero). */
  predicate BitOf(ws: seq<Word>, i: nat)
  {
    i / 64 < |ws| && Bit(ws[i / 64], i % 64)
  }

  /** `BitSet.get(i)`. */
  predicate Get(b: BitSet, i: nat)
  {
    BitOf(b, i)
  }

  /** The word at `k`, or zero beyond the words in use. */
  function WordAt(ws: seq<Word>, k: nat): Word
  {
    if k < |ws| then ws[k] else 0
  }

  function Zeros(n: nat): (zs: seq<Word>)
    ensures |zs| == n
    ensures forall i :: 0 <= i < n ==> zs[i] == 0
  {
    seq(n, _ => 0)
  }

  /** Drops trailing zero words (`recalculateWordsInUse`, `BitSet.valueOf`). */
  function Trim(ws: seq<Word>): (b: BitSet)
    ensures |b| <= |ws| && b == ws[..|b|]
    ensures forall k :: |b| <= k < |ws| ==> ws[k] == 0
  {
    if |ws| == 0 || ws[|ws| - 1] != 0 then ws else Trim(ws[..|ws| - 1])
  }

  /** `BitSet.set(i)`: grows the word array when needed and sets one bit. */
  function Set(b: BitSet, i: nat): (r: BitSet)
    ensures |r| == if i / 64 < |b| then |b| else i / 64 + 1
  {
    var k := i / 64;
    var ws := if k < |b| then b else b + Zeros(k + 1 - |b|);
    WordSetNonZero(ws[k], i % 64);
    ws[k := WordSet(ws[k], i % 64)]
  }

  /** `BitSet.or(other)`: word-wise or over the longer of the two. */
  function Or(a: BitSet, b: BitSet): (r: BitSet)
    ensures |r| == if |a| < |b| then |b| else |a|
  {
    var n := if |a| < |b| then |b| else |a|;
    var ws := seq(n, k requires 0 <= k < n => WordOr(WordAt(a, k), WordAt(b, k)));
    assert n > 0 ==> ws[n - 1] != 0 by {
      if n > 0 {
        WordOrNonZero(WordAt(a, n - 1), WordAt(b, n - 1));
      }
    }
    ws
  }

  /** The word-wise and of the common words, before trimming. */
  function AndWords(a: BitSet, b: BitSet): (ws: seq<Word>)
    ensures |ws| == if |a| < |b| then |a| else |b|
  {
    var n := if |a| < |b| then |a| else |b|;
    seq(n, k requires 0 <= k < n => WordAnd(a[k], b[k]))
  }

  /** `BitSet.and(other)`: word-wise and over the shorter, then trimmed. */
  function And(a: BitSet, b: BitSet): (r: BitSet)
    ensures |r| <= |a| && |r| <= |b|
  {
    Trim(AndWords(a, b))
  }

  /** `BitSet.toLongArray()`. */
  function ToLongArray(b: BitSet): (ls: seq<Long>)
    ensures |ls| == |b|
  {
    seq(|b|, k requires 0 <= k < |b| => WordToLong(b[k]))
  }

  /** Each long of `toLongArray` carries its word's bit pattern. */
  lemma ToLongArrayWords(b: BitSet)
    ensures forall k :: 0 <= k < |b| ==> LongToWord(ToLongArray(b)[k]) == b[k]
  {
    forall k | 0 <= k < |b|
      ensures LongToWord(ToLongArray(b)[k]) == b[k]
    {
      WordLongRoundTrip(b[k]);
    }
  }

  /** The bit patterns of some longs, untrimmed. */
  function LongsToWords(ls: seq<Long>): (ws: seq<Word>)
    ensures |ws| == |ls|
  {
    seq(|ls|, k requires 0 <= k < |ls| => LongToWord(ls[k]))
  }

  lemma LongsToWordsAt(ls: seq<Long>, k: nat)
    requires k < |ls|
    ensures LongsToWords(ls)[k] == LongToWord(ls[k])
  {
  }

  /** `BitSet.valueOf(long[])`: the longs' bit patterns, trailing zeros dropped. */
  function ValueOf(ls: seq<Long>): (b: BitSet)
    ensures |b| <= |ls|
  {
    Trim(LongsToWords(ls))
  }

  // ---------------------------------------------------------------------------
  // Bit-level meaning of the operations.

  /** A set bit lies inside the words in use. */
  lemma GetInRange(b: BitSet, i: nat)
    requires Get(b, i)
    ensures i < 64 * |b|
  {
  }

  /** Trailing zero words carry no bits. */
  lemma {:induction false} TrimKeepsBits(ws: seq<Word>, i: nat)
    ensures BitOf(Trim(ws), i) == BitOf(ws, i)
  {
    if |ws| > 0 && ws[|ws| - 1] == 0 {
      TrimKeepsBits(ws[..|ws| - 1], i);
      if i / 64 == |ws| - 1 {
        ZeroBit(i % 64);
      }
    }
  }

  /** Zero words appended to a bitset are trimmed off again. */
  lemma {:induction false} TrimZeros(b: BitSet, n: nat)
    ensures Trim(b + Zeros(n)) == b
  {
    if n > 0 {
      assert (b + Zeros(n))[..|b| + n - 1] == b + Zeros(n - 1);
      TrimZeros(b, n - 1);
    } else {
      assert b + Zeros(0) == b;
    }
  }

  /** Only zero words trim to nothing. */
  lemma {:induction false} TrimAllZeros(ws: seq<Word>)
    requires forall k :: 0 <= k < |ws| ==> ws[k] == 0
    ensures Trim(ws) == []
  {
    if |ws| > 0 {
      TrimAllZeros(ws[..|ws| - 1]);
    }
  }

  /** A bitset's words are already trimmed. */
  lemma TrimBitSet(b: BitSet)
    ensures Trim(b) == b
  {
  }

  /** After `set(i)` exactly bit `i` has been added. */
  lemma GetSet(b: BitSet, i: nat, j: nat)
    ensures Get(Set(b, i), j) <==> j == i || Get(b, j)
  {
    var k := i / 64;
    var ws := if k < |b| then b else b + Zeros(k + 1 - |b|);
    var r := Set(b, i);
    if j / 64 == k {
      WordSetBit(ws[k], i % 64, j % 64);
      if k >= |b| {
        ZeroBit(j % 64);
      }
    } else if j / 64 < |r| {
      assert r[j / 64] == ws[j / 64];
      if j / 64 >= |b| {
        ZeroBit(j % 64);
      }
    }
  }

  lemma GetOr(a: BitSet, b: BitSet, i: nat)
    ensures Get(Or(a, b), i) <==> Get(a, i) || Get(b, i)
  {
    var k := i / 64;
    if k < |Or(a, b)| {
      WordOrBit(WordAt(a, k), WordAt(b, k), i % 64);
      ZeroBit(i % 64);
    }
  }

  lemma GetAnd(a: BitSet, b: BitSet, i: nat)
    ensures Get(And(a, b), i) <==> Get(a, i) && Get(b, i)
  {
    TrimKeepsBits(AndWords(a, b), i);
    if i / 64 < |AndWords(a, b)| {
      WordAndBit(a[i / 64], b[i / 64], i % 64);
    }
  }

  /** A cleared bitset has no bit set. */
  lemma NothingInEmpty(i: nat)
    ensures !Get(Empty, i)
  {
  }

  /** Reading back what `toLongArray` wrote gives the same bitset. */
  lemma ValueOfToLongArray(b: BitSet)
    ensures ValueOf(ToLongArray(b)) == b
  {
    ToLongArrayWords(b);
    assert LongsToWords(ToLongArray(b)) == b;
  }

  // ---------------------------------------------------------------------------
  // Algebra of `or`, the merge of discovered terrain.

  lemma OrCommutes(a: BitSet, b: BitSet)
    ensures Or(a, b) == Or(b, a)
  {
    var l, r := Or(a, b), Or(b, a);
    forall k | 0 <= k < |l|
      ensures l[k] == r[k]
    {
      WordOrCommutes(WordAt(a, k), WordAt(b, k));
    }
  }

  lemma OrIdempotent(a: BitSet)
    ensures Or(a, a) == a
  {
    var l := Or(a, a);
    forall k | 0 <= k < |l|
      ensures l[k] == a[k]
    {
      WordOrIdempotent(a[k]);
    }
  }

  /** The words of an or, including the zero words beyond its length. */
  lemma WordAtOr(a: BitSet, b: BitSet, k: nat)
    ensures WordAt(Or(a, b), k) == WordOr(WordAt(a, k), WordAt(b, k))
  {
    if k >= |Or(a, b)| {
      WordOrZero(0);
    }
  }

  lemma OrAssociates(a: BitSet, b: BitSet, c: BitSet)
    ensures Or(Or(a, b), c) == Or(a, Or(b, c))
  {
    var l, r := Or(Or(a, b), c), Or(a, Or(b, c));
    assert |l| == |r|;
    forall k | 0 <= k < |l|
      ensures l[k] == r[k]
    {
      WordAtOr(a, b, k);
      WordAtOr(b, c, k);
      WordOrAssociates(WordAt(a, k), WordAt(b, k), WordAt(c, k));
    }
  }

  lemma OrEmpty(a: BitSet)
    ensures Or(Empty, a) == a
  {
    var l := Or(Empty, a);
    forall k | 0 <= k < |l|
      ensures l[k] == a[k]
    {
      WordOrZero(a[k]);
    }
  }

  /** Or-ing a bitset into itself is a no-op: merging the same delta twice
      gives what merging it once gave. */
  lemma OrAbsorbs(a: BitSet, b: BitSet)
    ensures Or(Or(a, b), b) == Or(a, b)
  {
    OrAssociates(a, b, b);
    OrIdempotent(b);
  }
}
