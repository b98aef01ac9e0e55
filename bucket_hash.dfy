/** The string hash of the server's key/value storage and the bucket index
    derived from it. The storage declares 1000 bucket heads; the index is the
    hash masked with the constant 1000. `char` is signed (the x86-64 System V
    convention), so a byte of 128..255 enters the sum as byte - 256, which the
    unsigned 32-bit arithmetic reduces modulo 2^32. */
module BucketHash {
  import opened CTypes

  const BUCKET_COUNT: nat := 1000
  const INDEX_MASK: nat := 1000

  /** The value of a `char` holding the byte `c`, with `char` signed. */
  function SignedChar(c: char): (v: int)
    ensures -128 <= v < 128
    ensures v % 256 == (c as int) % 256
  {
    var b := (c as int) % 256;
    if b < 128 then b else b - 256
  }

  /** The value of `hash` after the characters of `key` have been consumed:
      h := h * 31 + c, in unsigned 32-bit arithmetic. */
  function HashFold(key: string): (h: nat)
    ensures h < TWO_32
  {
    if |key| == 0 then 0 else (HashFold(key[..|key| - 1]) * 31 + SignedChar(key[|key| - 1])) % TWO_32
  }

  /** Bitwise AND of two unsigned values, bit by bit from the least significant. */
  function BitAnd(a: nat, b: nat): nat
    decreases a
  {
    if a == 0 || b == 0 then 0
    else 2 * BitAnd(a / 2, b / 2) + (if a % 2 == 1 && b % 2 == 1 then 1 else 0)
  }

  /** The AND never exceeds the mask. */
  lemma {:induction false} BitAndBound(a: nat, b: nat)
    ensures BitAnd(a, b) <= b
    decreases a
  {
    if a != 0 && b != 0 {
      BitAndBound(a / 2, b / 2);
    }
  }

  /** Masking twice is masking once: the AND's bits all lie within the mask. */
  lemma {:induction false} BitAndIdempotent(a: nat, b: nat)
    ensures BitAnd(BitAnd(a, b), b) == BitAnd(a, b)
    decreases a
  {
    if a != 0 && b != 0 {
      BitAndIdempotent(a / 2, b / 2);
      var r := BitAnd(a, b);
      if r != 0 {
        assert r / 2 == BitAnd(a / 2, b / 2);
      }
    }
  }

  /** A clear low bit of the mask clears the low bit of the AND. */
  lemma BitAndEvenMask(a: nat, b: nat)
    requires b % 2 == 0
    ensures BitAnd(a, b) == 2 * BitAnd(a / 2, b / 2)
  {
  }

  /** Halving three times is dividing by 8. */
  lemma HalveThrice(a: nat)
    ensures a / 2 / 2 / 2 == a / 8
  {
    var q := a / 2;
    var r := q / 2;
    var t := r / 2;
    assert a == 8 * t + (4 * (r % 2) + 2 * (q % 2) + a % 2);
  }

  /** 1000 is 0b1111101000, so its three low bits are clear: h & 1000 == 8 * ((h / 8) & 125). */
  lemma MaskClearsLowBits(h: nat)
    ensures BitAnd(h, INDEX_MASK) == 8 * BitAnd(h / 8, 125)
    ensures BitAnd(h, INDEX_MASK) % 8 == 0
  {
    var q := h / 2;
    var r := q / 2;
    var t := r / 2;
    HalveThrice(h);
    BitAndEvenMask(h, 1000);
    BitAndEvenMask(q, 500);
    BitAndEvenMask(r, 250);
    assert t == h / 8;
  }

  /** `hash & 1000`, as written. The index is at most 1000, a multiple of 8,
      and a sub-mask of 1000 (masking it again changes nothing). */
  function BucketIndex(h: nat): (idx: nat)
    ensures idx <= INDEX_MASK
    ensures idx % 8 == 0
    ensures BitAnd(idx, INDEX_MASK) == idx
  {
    BitAndBound(h, INDEX_MASK);
    BitAndIdempotent(h, INDEX_MASK);
    MaskClearsLowBits(h);
    BitAnd(h, INDEX_MASK)
  }

  /** The `hash` function of the storage header: a loop over the C string. */
  method Hash(key: CString) returns (idx: nat)
    ensures idx == BucketIndex(HashFold(key))
  {
    var h: nat := 0;
    var i := 0;
    while i < |key|
      invariant i <= |key|
      invariant h == HashFold(key[..i])
    {
      assert key[..i + 1][..i] == key[..i];
      h := (h * 31 + SignedChar(key[i])) % TWO_32;
      i := i + 1;
    }
    assert key[..i] == key;
    idx := BitAnd(h, INDEX_MASK);
  }

  /** The empty key hashes to 0 and lands in bucket 0. */
  lemma EmptyKeyBucket()
    ensures HashFold("") == 0 && BucketIndex(HashFold("")) == 0
  {
  }

  /** The hash of a one- or two-character key whose characters are below 128. */
  lemma HashOfShortKeys(c1: char, c2: char)
    requires c1 as int < 128 && c2 as int < 128
    ensures HashFold([c1]) == c1 as int
    ensures HashFold([c1, c2]) == c1 as int * 31 + c2 as int
  {
    assert [c1, c2][..1] == [c1];
    assert [c1][..0] == [];
  }

  /** Every value from 1 to 999 is the hash of some non-empty C string. */
  lemma SmallHashReachable(v: nat)
    requires 0 < v < BUCKET_COUNT
    ensures exists key: CString :: key != [] && HashFold(key) == v
  {
    if v < 128 {
      var key: CString := [v as char];
      HashOfShortKeys(v as char, v as char);
      assert HashFold(key) == v;
    } else {
      var c1, c2 := v / 31 - 1, 31 + v % 31;
      var key: CString := [c1 as char, c2 as char];
      HashOfShortKeys(c1 as char, c2 as char);
      assert HashFold(key) == v;
    }
  }

  /** As written, exactly the sub-masks of 1000 occur as indices: every index is
      one (BucketIndex's contract), and every non-zero one is produced by some key. */
  lemma EverySubmaskOccurs(m: nat)
    requires 0 < m && BitAnd(m, INDEX_MASK) == m
    ensures exists key: CString :: BucketIndex(HashFold(key)) == m
  {
    BitAndBound(m, INDEX_MASK);
    if m == INDEX_MASK {
      IndexOutOfBounds();
      assert BucketIndex(HashFold(">f")) == m;
    } else {
      SmallHashReachable(m);
      var key: CString :| key != [] && HashFold(key) == m;
      assert BucketIndex(HashFold(key)) == m;
    }
  }

  /** The sub-masks of `b`, built bit by bit from the least significant: each
      sub-mask of `b / 2`, doubled, and also doubled plus one when `b` is odd. */
  function Submasks(b: nat): set<nat>
    decreases b
  {
    if b == 0 then {0}
    else if b % 2 == 0 then Shifted(Submasks(b / 2), 0)
    else Shifted(Submasks(b / 2), 0) + Shifted(Submasks(b / 2), 1)
  }

  /** Each member of `s` doubled, plus `c`. */
  function Shifted(s: set<nat>, c: nat): set<nat>
  {
    set m | m in s :: 2 * m + c
  }

  /** The number of set bits of `b`. */
  function Ones(b: nat): nat
    decreases b
  {
    if b == 0 then 0 else b % 2 + Ones(b / 2)
  }

  /** `Submasks(b)` is exactly the set of values that `& b` leaves unchanged. */
  lemma {:induction false} SubmasksExactly(b: nat, m: nat)
    ensures m in Submasks(b) <==> BitAnd(m, b) == m
    decreases b
  {
    if b != 0 {
      var half := Submasks(b / 2);
      SubmasksExactly(b / 2, m / 2);
      if m % 2 == 0 {
        assert m == 2 * (m / 2) + 0;
        if m in Submasks(b) {
          var k :| k in half && (m == 2 * k + 0 || m == 2 * k + 1);
          assert k == m / 2;
        }
        if BitAnd(m, b) == m {
          assert m / 2 in half;
        }
      } else {
        assert m == 2 * (m / 2) + 1;
        if m in Submasks(b) {
          var k :| k in half && (m == 2 * k + 0 || m == 2 * k + 1);
          assert k == m / 2;
        }
        if BitAnd(m, b) == m {
          assert m / 2 in half && b % 2 == 1;
        }
      }
    }
  }

  /** Shifting keeps the size of a set: m |-> 2m + c is injective. */
  lemma {:induction false} ShiftedSize(s: set<nat>, c: nat)
    ensures |Shifted(s, c)| == |s|
    decreases |s|
  {
    if s == {} {
      assert Shifted(s, c) == {};
    } else {
      var x :| x in s;
      var rest := s - {x};
      ShiftedSize(rest, c);
      forall v ensures v in Shifted(s, c) <==> v in Shifted(rest, c) + {2 * x + c} {
        if v in Shifted(s, c) {
          var m :| m in s && v == 2 * m + c;
          if m != x {
            assert m in rest;
          }
        }
      }
      assert Shifted(s, c) == Shifted(rest, c) + {2 * x + c};
    }
  }

  /** The even and the odd shifts of a set have no member in common. */
  lemma ShiftedDisjoint(s: set<nat>)
    ensures |Shifted(s, 0) + Shifted(s, 1)| == |Shifted(s, 0)| + |Shifted(s, 1)|
  {
    forall v | v in Shifted(s, 0) ensures v !in Shifted(s, 1) {
      assert v % 2 == 0;
    }
    assert Shifted(s, 0) * Shifted(s, 1) == {};
  }

  /** A mask with k set bits has 2^k sub-masks. */
  lemma {:induction false} SubmasksCount(b: nat)
    ensures |Submasks(b)| == Pow2(Ones(b))
    decreases b
  {
    if b != 0 {
      SubmasksCount(b / 2);
      ShiftedSize(Submasks(b / 2), 0);
      if b % 2 == 1 {
        ShiftedSize(Submasks(b / 2), 1);
        ShiftedDisjoint(Submasks(b / 2));
      }
    }
  }

  /** 1000 = 0b1111101000 has six set bits. */
  lemma OnesOfIndexMask()
    ensures Ones(INDEX_MASK) == 6
  {
    assert Ones(7) == 3 && Ones(15) == 4 && Ones(31) == 5 && Ones(62) == 5;
    assert Ones(125) == 6 && Ones(250) == 6 && Ones(500) == 6;
  }

  /** The values that `& b` leaves unchanged: the sub-masks of `b`. */
  function FixedPoints(b: nat): set<nat>
  {
    set m: nat | m <= b && BitAnd(m, b) == m
  }

  /** The fixed points of `& b` are the sub-masks built bit by bit. */
  lemma FixedPointsAreSubmasks(b: nat)
    ensures FixedPoints(b) == Submasks(b)
  {
    forall m | m in FixedPoints(b) ensures m in Submasks(b) {
      SubmasksExactly(b, m);
    }
    forall m | m in Submasks(b) ensures m in FixedPoints(b) {
      SubmasksExactly(b, m);
      BitAndBound(m, b);
    }
  }

  /** A mask with k set bits has 2^k fixed points. */
  lemma FixedPointsCount(b: nat)
    ensures |FixedPoints(b)| == Pow2(Ones(b))
  {
    FixedPointsAreSubmasks(b);
    SubmasksCount(b);
  }

  /** As written the index takes exactly 64 values, the 64 sub-masks of
      1000 = 0b1111101000, and each of them is the bucket of some key. One of
      them is 1000 itself, past the end, so only 63 of the 1000 bucket heads
      are ever used. */
  lemma BucketIndexCount()
    ensures |FixedPoints(INDEX_MASK)| == 64
    ensures forall key: CString :: BucketIndex(HashFold(key)) in FixedPoints(INDEX_MASK)
    ensures forall m :: m in FixedPoints(INDEX_MASK) ==> Reachable(m)
  {
    IndexMaskFixedPoints();
    EveryFixedPointReachable();
  }

  /** 1000 has 64 fixed points under `& 1000`. */
  lemma IndexMaskFixedPoints()
    ensures |FixedPoints(INDEX_MASK)| == 64
  {
    FixedPointsCount(INDEX_MASK);
    OnesOfIndexMask();
    assert Pow2(6) == 64;
  }

  /** `m` is the bucket index of some key. */
  ghost predicate Reachable(m: nat)
  {
    exists key: CString :: BucketIndex(HashFold(key)) == m
  }

  /** Each fixed point of `& 1000` is the bucket of some key. */
  lemma EveryFixedPointReachable()
    ensures forall m :: m in FixedPoints(INDEX_MASK) ==> Reachable(m)
  {
    forall m | m in FixedPoints(INDEX_MASK)
      ensures Reachable(m)
    {
      ReachableIndex(m);
    }
  }

  /** Every sub-mask of 1000, zero included, is the bucket of some key. */
  lemma ReachableIndex(m: nat)
    requires BitAnd(m, INDEX_MASK) == m
    ensures exists key: CString :: BucketIndex(HashFold(key)) == m
  {
    if m == 0 {
      EmptyKeyBucket();
      assert BucketIndex(HashFold("")) == m;
    } else {
      EverySubmaskOccurs(m);
    }
  }

  /** The key ">f" hashes to 62 * 31 + 102 = 2024, and 2024 & 1000 is 1000:
      one past the last of the 1000 bucket heads. */
  lemma IndexOutOfBounds()
    ensures HashFold(">f") == 2024
    ensures BucketIndex(2024) == BUCKET_COUNT
  {
    HashOfShortKeys('>', 'f');
    MaskClearsLowBits(2024);
    MaskOf253();
  }

  /** 253 & 125 == 125, one bit at a time. */
  lemma MaskOf253()
    ensures BitAnd(253, 125) == 125
  {
    assert BitAnd(1, 0) == 0;
    assert BitAnd(3, 1) == 1;
    assert BitAnd(7, 3) == 3;
    assert BitAnd(15, 7) == 7;
    assert BitAnd(31, 15) == 15;
    assert BitAnd(63, 31) == 31;
    assert BitAnd(126, 62) == 62;
  }

  /** The evidently intended bucket index: the hash reduced modulo the bucket count. */
  function BucketIndexFixed(h: nat): (idx: nat)
    ensures idx < BUCKET_COUNT
    ensures h < BUCKET_COUNT ==> idx == h
  {
    h % BUCKET_COUNT
  }

  /** With the corrected index every one of the 1000 buckets is used by some key. */
  lemma EveryBucketReachableFixed(b: nat)
    requires b < BUCKET_COUNT
    ensures exists key: CString :: BucketIndexFixed(HashFold(key)) == b
  {
    if b == 0 {
      assert BucketIndexFixed(HashFold("")) == 0;
    } else {
      SmallHashReachable(b);
      var key: CString :| key != [] && HashFold(key) == b;
      assert BucketIndexFixed(HashFold(key)) == b;
    }
  }
}
