/**
 * Masks of low bits on numbers of any width: what the shift-and-or code of the constructors computes
 * and what masking an index with it means.
 */
module Masks {
  import opened Modular
  import Tickets

  function Pow2(k: nat): nat { if k == 0 then 1 else 2 * Pow2(k - 1) }

  /** Bitwise and of two numbers. */
  function And(a: nat, b: nat): nat
  {
    if a == 0 || b == 0 then 0 else 2 * And(a / 2, b / 2) + (a % 2) * (b % 2)
  }

  lemma RemDouble(i: nat, p: nat)
    requires p >= 1
    ensures i % (2 * p) == 2 * (i / 2 % p) + i % 2
  {
    var h := i / 2;
    assert h == (h / p) * p + h % p;
    assert i == (h / p) * (2 * p) + (2 * (h % p) + i % 2);
    RemUnique(i, h / p, 2 * (h % p) + i % 2, 2 * p);
  }

  lemma AndOnes(i: nat, p: nat)
    requires p >= 1
    ensures And(i, 2 * p - 1) == 2 * And(i / 2, p - 1) + i % 2
  {
    assert (2 * p - 1) / 2 == p - 1 && (2 * p - 1) % 2 == 1;
  }

  /** Masking with a power of two less one takes the remainder. */
  lemma {:induction false} MaskIsRemainder(i: nat, k: nat)
    ensures Pow2(k) >= 1 && And(i, Pow2(k) - 1) == i % Pow2(k)
  {
    if k > 0 {
      var p := Pow2(k - 1);
      MaskIsRemainder(i / 2, k - 1);
      RemDouble(i, p);
      AndOnes(i, p);
      hide And;
      assert Pow2(k) == 2 * p;
    } else {
      RemUnique(i, i, 0, 1);
    }
  }

  lemma {:induction false} Pow2Add(j: nat, k: nat)
    ensures Pow2(j + k) == Pow2(j) * Pow2(k) && Pow2(j) >= 1
  {
    if j > 0 {
      Pow2Add(j - 1, k);
      Doubled(Pow2(j - 1), Pow2(k));
    }
  }

  lemma Doubled(a: nat, b: nat)
    ensures (2 * a) * b == 2 * (a * b)
  {
  }

  // ------------------------------------------------------------------------------------------
  // Shifting and or-ing
  // ------------------------------------------------------------------------------------------

  /** Bitwise or of two numbers. */
  function Or(a: nat, b: nat): nat
  {
    if a == 0 then b else if b == 0 then a
    else 2 * Or(a / 2, b / 2) + (if a % 2 == 1 || b % 2 == 1 then 1 else 0)
  }

  lemma OrHalf(a: nat, b: nat)
    ensures Or(a, b) / 2 == Or(a / 2, b / 2)
    ensures Or(a, b) % 2 == 1 <==> a % 2 == 1 || b % 2 == 1
  {
  }

  /** x |= x >> 1, x |= x >> 2, x |= x >> 4 and so on, i times. */
  function Smear(x: nat, i: nat): nat
  {
    if i == 0 then x else Or(Smear(x, i - 1), Shift(Smear(x, i - 1), Pow2(i - 1)))
  }

  /** x >> k */
  function Shift(x: nat, k: nat): nat { if k == 0 then x else Shift(x / 2, k - 1) }

  lemma {:induction false} ShiftHalf(x: nat, k: nat)
    ensures Shift(x, k) / 2 == Shift(x / 2, k)
  {
    if k > 0 {
      ShiftHalf(x / 2, k - 1);
    }
  }

  /** All ones up to the highest bit of x. */
  function Ones(x: nat): nat { if x == 0 then 0 else 2 * Ones(x / 2) + 1 }

  lemma {:induction false} SmearHalf(x: nat, i: nat)
    ensures Smear(x, i) / 2 == Smear(x / 2, i)
  {
    if i > 0 {
      var y, k := Smear(x, i - 1), Pow2(i - 1);
      SmearHalf(x, i - 1);
      OrHalf(y, Shift(y, k));
      ShiftHalf(y, k);
    }
  }

  lemma {:induction false} SmearShift(x: nat, i: nat, k: nat)
    ensures Shift(Smear(x, i), k) == Smear(Shift(x, k), i)
    decreases k
  {
    if k > 0 {
      SmearHalf(x, i);
      SmearShift(x / 2, i, k - 1);
    }
  }

  /** Whether one of the lowest k bits is set. */
  predicate AnyLow(x: nat, k: nat) { k > 0 && (x % 2 == 1 || AnyLow(x / 2, k - 1)) }

  lemma {:induction false} AnyLowAdd(x: nat, j: nat, k: nat)
    ensures AnyLow(x, j + k) <==> AnyLow(x, j) || AnyLow(Shift(x, j), k)
    decreases j
  {
    if j > 0 {
      AnyLowAdd(x / 2, j - 1, k);
    }
  }

  /** After i rounds the lowest bit tells whether one of the lowest 2^i bits was set. */
  lemma {:induction false} SmearLow(x: nat, i: nat)
    ensures Smear(x, i) % 2 == 1 <==> AnyLow(x, Pow2(i))
    decreases i
  {
    if i == 0 {
      assert AnyLow(x, 1) <==> x % 2 == 1 || AnyLow(x / 2, 0);
    } else {
      var y, k := Smear(x, i - 1), Pow2(i - 1);
      OrHalf(y, Shift(y, k));
      SmearLow(x, i - 1);
      SmearShift(x, i - 1, k);
      SmearLow(Shift(x, k), i - 1);
      AnyLowAdd(x, k, k);
    }
  }

  lemma {:induction false} AnyLowOfSmall(x: nat, k: nat)
    requires x < Pow2(k)
    ensures AnyLow(x, k) <==> x != 0
  {
    if k > 0 {
      AnyLowOfSmall(x / 2, k - 1);
    }
  }

  /** Enough rounds set every bit below the highest. */
  lemma {:induction false} SmearIsOnes(x: nat, i: nat)
    requires x < Pow2(Pow2(i))
    ensures Smear(x, i) == Ones(x)
    decreases x
  {
    SmearLow(x, i);
    AnyLowOfSmall(x, Pow2(i));
    SmearHalf(x, i);
    if x > 0 {
      SmearIsOnes(x / 2, i);
    } else {
      SmearOfZero(i);
    }
  }

  lemma {:induction false} SmearOfZero(i: nat)
    ensures Smear(0, i) == 0
  {
    if i > 0 {
      SmearOfZero(i - 1);
      ShiftOfZero(Pow2(i - 1));
    }
  }

  lemma {:induction false} ShiftOfZero(k: nat)
    ensures Shift(0, k) == 0
  {
    if k > 0 {
      ShiftOfZero(k - 1);
    }
  }

  /** The number of bits of x. */
  function Width(x: nat): nat { if x == 0 then 0 else Width(x / 2) + 1 }

  lemma {:induction false} OnesBound(x: nat)
    ensures x <= Ones(x) && (x >= 1 ==> Ones(x) < 2 * x)
  {
    if x > 0 {
      OnesBound(x / 2);
    }
  }

  /** One more than the mask is the least power of two above x. */
  lemma {:induction false} OnesIsLeast(x: nat, j: nat)
    ensures Ones(x) + 1 == Pow2(Width(x)) && x <= Ones(x)
    ensures x < Pow2(j) ==> Ones(x) < Pow2(j)
  {
    if x > 0 {
      OnesIsLeast(x / 2, if j == 0 then 0 else j - 1);
    }
  }

  // ------------------------------------------------------------------------------------------
  // Rounding up, in words of 2^i bits
  // ------------------------------------------------------------------------------------------

  function Decrement(a: nat, i: nat): nat { if a == 0 then Limit(i) - 1 else a - 1 }

  function Increment(a: nat, i: nat): nat { if a + 1 == Limit(i) then 0 else a + 1 }

  /** The first number that does not fit a word of 2^i bits. */
  function Limit(i: nat): (r: nat)
    ensures r >= 1
  {
    Pow2Add(Pow2(i), 0);
    Pow2(Pow2(i))
  }

  /** --a, then the shifts, then ++a. */
  function RoundUp(a: nat, i: nat): nat { Increment(Smear(Decrement(a, i), i), i) }

  ghost predicate IsPow2(n: nat) { exists k: nat :: n == Pow2(k) }

  lemma {:induction false} Pow2Grows(j: nat, k: nat)
    requires j < k
    ensures 2 * Pow2(j) <= Pow2(k)
  {
    if j + 1 < k {
      Pow2Grows(j, k - 1);
    }
  }

  predicate InRange(a: nat, i: nat) { 1 <= a && 2 * a <= Limit(i) }

  /** Rounding up gives the least power of two that is at least a, exactly for the words that have one; else zero. */
  lemma RoundUpIsLeast(a: nat, i: nat)
    requires a < Limit(i)
    ensures InRange(a, i) <==> IsPow2(RoundUp(a, i)) && a <= RoundUp(a, i)
    ensures InRange(a, i) ==> forall p | IsPow2(p) && a <= p :: RoundUp(a, i) <= p
    ensures !InRange(a, i) ==> RoundUp(a, i) == 0
  {
    if InRange(a, i) {
      var k := RoundUpExact(a, i);
      forall p | IsPow2(p) && a <= p ensures RoundUp(a, i) <= p {
        var j: nat :| p == Pow2(j);
        OnesIsLeast(a - 1, j);
      }
    } else {
      RoundUpOverflows(a, i);
      forall k: nat ensures Pow2(k) != 0 {
        Pow2Add(k, 0);
      }
    }
  }

  lemma RoundUpExact(a: nat, i: nat) returns (k: nat)
    requires a < Limit(i) && InRange(a, i)
    ensures RoundUp(a, i) == Pow2(k) == Ones(a - 1) + 1 && a <= Pow2(k)
  {
    var x, w := a - 1, Pow2(i);
    SmearIsOnes(x, i);
    HalfLimit(i);
    OnesIsLeast(x, w - 1);
    k := Width(x);
  }

  lemma RoundUpOverflows(a: nat, i: nat)
    requires a < Limit(i) && !InRange(a, i)
    ensures RoundUp(a, i) == 0
  {
    hide Smear, Ones, Pow2, Limit;
    var x := Decrement(a, i);
    HalfLimit(i);
    LimitIs(i);
    Pow2Add(Pow2(i) - 1, 0);
    SmearIsOnes(x, i);
    TopHalf(x, i);
  }

  lemma LimitIs(i: nat)
    ensures Limit(i) == Pow2(Pow2(i))
  {
  }

  lemma HalfLimit(i: nat)
    ensures Pow2(i) >= 1 && Limit(i) == 2 * Pow2(Pow2(i) - 1)
  {
    Pow2Add(i, 0);
  }

  /** A number with its top bit set has the mask of all ones. */
  lemma TopHalf(x: nat, i: nat)
    requires 2 * x >= Limit(i) && x < Limit(i)
    ensures Ones(x) + 1 == Limit(i)
  {
    var w, k := Pow2(i), Width(x);
    OnesIsLeast(x, w);
    HalfLimit(i);
    if k < w {
      Pow2Grows(k, w);
    } else if w < k {
      Pow2Grows(w, k);
    }
  }

  /** The loop form: three fixed shifts, then shifts by whole bytes, doubling; eight-byte words. */
  method CeilToPow2(a: nat) returns (x: nat)
    requires a < Limit(6)
    ensures x == RoundUp(a, 6)
  {
    x := Decrement(a, 6);
    x := Or(x, Shift(x, 1));
    x := Or(x, Shift(x, 2));
    x := Or(x, Shift(x, 4));
    ghost var start := Decrement(a, 6);
    FirstRounds(start);
    var bytes, round := 1, 3;
    while bytes < 8
      invariant 3 <= round <= 6 && 8 * bytes == Pow2(round)
      invariant x == Smear(start, round)
      decreases 8 - bytes
    {
      x := Or(x, Shift(x, 8 * bytes));
      bytes := 2 * bytes;
      round := round + 1;
    }
    if round < 6 {
      Pow2Grows(round, 6);
    }
    x := Increment(x, 6);
  }

  lemma FirstRounds(x: nat)
    ensures Pow2(3) == 8 && Pow2(6) == 64
    ensures var y := Or(x, Shift(x, 1)); var z := Or(y, Shift(y, 2)); Smear(x, 3) == Or(z, Shift(z, 4))
  {
    assert Pow2(0) == 1 && Pow2(1) == 2 && Pow2(2) == 4;
    assert Smear(x, 1) == Or(x, Shift(x, 1));
    assert Smear(x, 2) == Or(Smear(x, 1), Shift(Smear(x, 1), 2));
    assert Smear(x, 3) == Or(Smear(x, 2), Shift(Smear(x, 2), 4));
  }

  // ------------------------------------------------------------------------------------------
  // The size of AtomicQueueB2
  // ------------------------------------------------------------------------------------------

  /** The size rounded up in 32 bits, or the least that holds both groups of shuffled bits. */
  function QueueSize(asked: nat, bits: nat): nat
  {
    if RoundUp(asked, 5) < Pow2(2 * bits) then Pow2(2 * bits) else RoundUp(asked, 5)
  }

  lemma WordPowers()
    ensures Limit(5) == Tickets.WORD == Pow2(32) && Tickets.HALF == Pow2(31) && Pow2(30) == 0x4000_0000
      && Pow2(16) == 0x1_0000
  {
    assert Pow2(5) == 32;
    assert Pow2(8) == 256;
    Pow2Add(8, 8);
    Pow2Add(16, 8);
    Pow2Add(24, 6);
    assert Pow2(6) == 64;
    assert Pow2(31) == 2 * Pow2(30) && Pow2(32) == 2 * Pow2(31);
  }

  /** The rounded size, in 32 bits. */
  lemma RoundedSize(asked: nat)
    requires asked < Tickets.WORD
    ensures 1 <= asked <= Tickets.HALF ==> IsPow2(RoundUp(asked, 5)) && asked <= RoundUp(asked, 5) <= Tickets.HALF
    ensures 1 <= asked <= 0x4000_0000 ==> RoundUp(asked, 5) <= 0x4000_0000
    ensures asked == 0 || asked > Tickets.HALF ==> RoundUp(asked, 5) == 0
  {
    WordPowers();
    RoundUpIsLeast(asked, 5);
    hide RoundUp, Limit;
    assert IsPow2(Tickets.HALF) && IsPow2(0x4000_0000);
  }

  lemma LeastQueueSize(bits: nat)
    requires bits <= 8
    ensures 1 <= Pow2(2 * bits) <= 0x1_0000
  {
    hide Pow2, Limit;
    WordPowers();
    Pow2Add(2 * bits, 0);
    if 2 * bits < 16 {
      Pow2Grows(2 * bits, 16);
    }
  }

  /** AtomicQueueB2 has the room asked for exactly up to 2^31 elements; asked for more it gets its least size. */
  lemma RoomAsked(asked: nat, bits: nat)
    requires asked < Tickets.WORD && bits <= 8
    ensures asked <= QueueSize(asked, bits) <==> asked <= Tickets.HALF
    ensures asked > Tickets.HALF ==> QueueSize(asked, bits) == Pow2(2 * bits)
  {
    RoundedSize(asked);
    LeastQueueSize(bits);
    hide RoundUp, Pow2, IsPow2;
  }

  /**
   * Its size divides 2^32, as its tickets need; it is below 2^31, as its comparisons need, except
   * when more than 2^30 and at most 2^31 elements are asked for.
   */
  lemma SizeIsSafe(asked: nat, bits: nat)
    requires asked < Tickets.WORD && bits <= 8
    ensures 0 < QueueSize(asked, bits) && Tickets.Divides(QueueSize(asked, bits))
    ensures QueueSize(asked, bits) < Tickets.HALF <==> !(0x4000_0000 < asked <= Tickets.HALF)
  {
    hide RoundUp, Pow2, IsPow2, Tickets.Divides, Limit;
    RoundedSize(asked);
    LeastQueueSize(bits);
    var k := SizeIsPow2(asked, bits);
    PowersDivide(k);
    if 0x4000_0000 < asked <= Tickets.HALF {
      WordPowers();
      if k < 31 {
        Pow2Grows(k, 31);
      }
    }
  }

  lemma SizeIsPow2(asked: nat, bits: nat) returns (k: nat)
    requires asked < Tickets.WORD && bits <= 8
    ensures k <= 31 && QueueSize(asked, bits) == Pow2(k)
  {
    RoundedSize(asked);
    LeastQueueSize(bits);
    WordPowers();
    if RoundUp(asked, 5) < Pow2(2 * bits) {
      k := 2 * bits;
    } else {
      k :| RoundUp(asked, 5) == Pow2(k);
      if 31 < k {
        Pow2Grows(31, k);
      }
    }
  }

  lemma PowersDivide(k: nat)
    requires k <= 32
    ensures Pow2(k) > 0 && Tickets.Divides(Pow2(k))
  {
    WordPowers();
    Pow2Add(32 - k, k);
    Pow2Add(k, 0);
    RemUnique(Tickets.WORD, Pow2(32 - k), 0, Pow2(k));
  }

  // ------------------------------------------------------------------------------------------
  // The mask of a circular buffer
  // ------------------------------------------------------------------------------------------

  /** What the 64-bit constructor computes from its capacity, which it first decrements. */
  function MaskFor(capacity: nat): nat { Smear(Decrement(capacity, 6), 6) }

  /** One more than the mask is a power of two that holds the capacity, and the least one. */
  lemma MaskForHolds(capacity: nat, j: nat)
    requires capacity < Limit(6)
    ensures IsPow2(MaskFor(capacity) + 1) && capacity <= MaskFor(capacity) + 1
    ensures 1 <= capacity <= Pow2(j) ==> MaskFor(capacity) + 1 <= Pow2(j)
    ensures capacity == 0 ==> MaskFor(capacity) + 1 == Limit(6)
  {
    var x := Decrement(capacity, 6);
    if capacity == 0 {
      HalfLimit(6);
      Pow2Add(Pow2(6) - 1, 0);
      TopHalf(x, 6);
    }
    SmearIsOnes(x, 6);
    OnesIsLeast(x, j);
    assert MaskFor(capacity) + 1 == Pow2(Width(x));
  }
}
