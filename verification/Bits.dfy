/**
 * The bit arithmetic under the queues, on machine words: rounding up to a power of two, remapping
 * slot numbers, and comparing counters that wrap around.
 */
module Bits {
  import opened Modular

  // ------------------------------------------------------------------------------------------
  // Rounding up to a power of two
  // ------------------------------------------------------------------------------------------

  predicate IsPow2(p: bv32) { p != 0 && p & (p - 1) == 0 }

  function OrEqual(x: bv32, u: bv32): bv32
    requires u < 32
  {
    x | (x >> u)
  }

  /** All bits below the highest set bit. */
  function Smear(x: bv32): bv32
  {
    OrEqual(OrEqual(OrEqual(OrEqual(OrEqual(x, 1), 2), 4), 8), 16)
  }

  function RoundUp(a: bv32): bv32 { Smear(a - 1) + 1 }

  predicate InRange(a: bv32) { 1 <= a <= 0x8000_0000 }

  lemma RoundUpIsPow2(a: bv32)
    requires InRange(a)
    ensures IsPow2(RoundUp(a))
  {
  }

  lemma RoundUpCovers(a: bv32)
    requires InRange(a)
    ensures a <= RoundUp(a)
  {
  }

  lemma RoundUpIsLow(a: bv32, p: bv32)
    requires InRange(a) && IsPow2(p) && a <= p
    ensures RoundUp(a) <= p
  {
  }

  /** Zero, and everything above the largest power of two, comes out as zero. */
  lemma RoundUpOverflows(a: bv32)
    requires !InRange(a)
    ensures RoundUp(a) == 0
  {
  }

  lemma ZeroIsNoPow2()
    ensures !IsPow2(0)
  {
  }

  /** The least power of two that is at least a, exactly for a from one to the largest power of two; zero otherwise. */
  lemma RoundUpIsLeast(a: bv32, p: bv32)
    ensures IsPow2(RoundUp(a)) && a <= RoundUp(a) <==> InRange(a)
    ensures InRange(a) && IsPow2(p) && a <= p ==> RoundUp(a) <= p
    ensures !InRange(a) ==> RoundUp(a) == 0
  {
    hide RoundUp, IsPow2, InRange;
    ZeroIsNoPow2();
    if InRange(a) {
      RoundUpIsPow2(a);
      RoundUpCovers(a);
      if IsPow2(p) && a <= p {
        RoundUpIsLow(a, p);
      }
    } else {
      RoundUpOverflows(a);
    }
  }

  // ------------------------------------------------------------------------------------------
  // Remapping slot numbers: the lowest `bits` bits change places with the next ones
  // ------------------------------------------------------------------------------------------

  /** At most eight bits are shuffled: the index within a cache line of at most 256 elements. */
  function Remap(bits: bv32, index: bv32): bv32
    requires bits <= 8
  {
    var mask := (1 << bits) - 1;
    var mix := (index ^ (index >> bits)) & mask;
    index ^ mix ^ (mix << bits)
  }

  /** The lowest `bits` bits. */
  function Low(bits: bv32, i: bv32): bv32
    requires bits <= 8
  {
    i & ((1 << bits) - 1)
  }

  /** The bits above them: the number of the group of 2^bits cells that cell i is in. */
  function High(bits: bv32, i: bv32): bv32
    requires bits <= 16
  {
    i >> bits
  }

  /** The lowest `bits` bits of i and r have changed places with the next ones, and the others are the same. */
  predicate Swapped(bits: bv32, i: bv32, r: bv32)
    requires bits <= 8
  {
    && Low(bits, r) == Low(bits, High(bits, i))
    && Low(bits, High(bits, r)) == Low(bits, i)
    && High(2 * bits, r) == High(2 * bits, i)
  }

  lemma Swaps0(i: bv32)
    ensures Swapped(0, i, Remap(0, i))
  {
  }

  lemma Swaps1(i: bv32)
    ensures Swapped(1, i, Remap(1, i))
  {
  }

  lemma Swaps2(i: bv32)
    ensures Swapped(2, i, Remap(2, i))
  {
  }

  lemma Swaps3(i: bv32)
    ensures Swapped(3, i, Remap(3, i))
  {
  }

  lemma Swaps4(i: bv32)
    ensures Swapped(4, i, Remap(4, i))
  {
  }

  lemma Swaps5(i: bv32)
    ensures Swapped(5, i, Remap(5, i))
  {
  }

  lemma Swaps6(i: bv32)
    ensures Swapped(6, i, Remap(6, i))
  {
  }

  lemma Swaps7(i: bv32)
    ensures Swapped(7, i, Remap(7, i))
  {
  }

  lemma Swaps8(i: bv32)
    ensures Swapped(8, i, Remap(8, i))
  {
  }

  /** The two groups of lowest bits change places. */
  lemma RemapSwaps(bits: bv32, i: bv32)
    requires bits <= 8
    ensures Swapped(bits, i, Remap(bits, i))
  {
    hide Remap, Swapped;
    if bits == 0 {
      Swaps0(i);
    } else if bits == 1 {
      Swaps1(i);
    } else if bits == 2 {
      Swaps2(i);
    } else if bits == 3 {
      Swaps3(i);
    } else if bits == 4 {
      Swaps4(i);
    } else if bits == 5 {
      Swaps5(i);
    } else if bits == 6 {
      Swaps6(i);
    } else if bits == 7 {
      Swaps7(i);
    } else {
      assert bits == 8;
      Swaps8(i);
    }
  }

  lemma Parts0(i: bv32, j: bv32)
    ensures High(0, i) == High(0, j) && Low(0, i) == Low(0, j) ==> i == j
    ensures High(0, i) == High(0, j) && Low(0, High(0, i)) == Low(0, High(0, j)) ==> High(0, i) == High(0, j)
  {
  }

  lemma Parts1(i: bv32, j: bv32)
    ensures High(1, i) == High(1, j) && Low(1, i) == Low(1, j) ==> i == j
    ensures High(2, i) == High(2, j) && Low(1, High(1, i)) == Low(1, High(1, j)) ==> High(1, i) == High(1, j)
  {
  }

  lemma Parts2(i: bv32, j: bv32)
    ensures High(2, i) == High(2, j) && Low(2, i) == Low(2, j) ==> i == j
    ensures High(4, i) == High(4, j) && Low(2, High(2, i)) == Low(2, High(2, j)) ==> High(2, i) == High(2, j)
  {
  }

  lemma Parts3(i: bv32, j: bv32)
    ensures High(3, i) == High(3, j) && Low(3, i) == Low(3, j) ==> i == j
    ensures High(6, i) == High(6, j) && Low(3, High(3, i)) == Low(3, High(3, j)) ==> High(3, i) == High(3, j)
  {
  }

  lemma Parts4(i: bv32, j: bv32)
    ensures High(4, i) == High(4, j) && Low(4, i) == Low(4, j) ==> i == j
    ensures High(8, i) == High(8, j) && Low(4, High(4, i)) == Low(4, High(4, j)) ==> High(4, i) == High(4, j)
  {
  }

  lemma Parts5(i: bv32, j: bv32)
    ensures High(5, i) == High(5, j) && Low(5, i) == Low(5, j) ==> i == j
    ensures High(10, i) == High(10, j) && Low(5, High(5, i)) == Low(5, High(5, j)) ==> High(5, i) == High(5, j)
  {
  }

  lemma Parts6(i: bv32, j: bv32)
    ensures High(6, i) == High(6, j) && Low(6, i) == Low(6, j) ==> i == j
    ensures High(12, i) == High(12, j) && Low(6, High(6, i)) == Low(6, High(6, j)) ==> High(6, i) == High(6, j)
  {
  }

  lemma Parts7(i: bv32, j: bv32)
    ensures High(7, i) == High(7, j) && Low(7, i) == Low(7, j) ==> i == j
    ensures High(14, i) == High(14, j) && Low(7, High(7, i)) == Low(7, High(7, j)) ==> High(7, i) == High(7, j)
  {
  }

  lemma Parts8(i: bv32, j: bv32)
    ensures High(8, i) == High(8, j) && Low(8, i) == Low(8, j) ==> i == j
    ensures High(16, i) == High(16, j) && Low(8, High(8, i)) == Low(8, High(8, j)) ==> High(8, i) == High(8, j)
  {
  }

  /** The groups of bits together determine the cell. */
  lemma PartsDetermine(bits: bv32, i: bv32, j: bv32)
    requires bits <= 8
    ensures High(bits, i) == High(bits, j) && Low(bits, i) == Low(bits, j) ==> i == j
    ensures High(2 * bits, i) == High(2 * bits, j) && Low(bits, High(bits, i)) == Low(bits, High(bits, j)) ==>
      High(bits, i) == High(bits, j)
  {
    hide Low, High;
    if bits == 0 {
      Parts0(i, j);
    } else if bits == 1 {
      Parts1(i, j);
    } else if bits == 2 {
      Parts2(i, j);
    } else if bits == 3 {
      Parts3(i, j);
    } else if bits == 4 {
      Parts4(i, j);
    } else if bits == 5 {
      Parts5(i, j);
    } else if bits == 6 {
      Parts6(i, j);
    } else if bits == 7 {
      Parts7(i, j);
    } else {
      assert bits == 8;
      Parts8(i, j);
    }
  }

  /** Cells of one group are spread over different groups, so neighbours fall on different cache lines. */
  lemma NeighboursSpread(bits: bv32, i: bv32, j: bv32)
    requires bits <= 8 && High(bits, i) == High(bits, j)
    ensures High(bits, Remap(bits, i)) == High(bits, Remap(bits, j)) ==> i == j
  {
    hide Remap, Low, High;
    RemapSwaps(bits, i);
    RemapSwaps(bits, j);
    if High(bits, Remap(bits, i)) == High(bits, Remap(bits, j)) {
      PartsDetermine(bits, i, j);
    }
  }

  /** Remapping is its own inverse. */
  lemma RemapInvolution(bits: bv32, i: bv32)
    requires bits <= 8
    ensures Remap(bits, Remap(bits, i)) == i
  {
    hide Remap, Low, High;
    var back := Remap(bits, Remap(bits, i));
    RemapSwaps(bits, i);
    RemapSwaps(bits, Remap(bits, i));
    PartsDetermine(bits, back, i);
  }

  /** The least size that holds both groups of bits. */
  function LeastSize(bits: bv32): bv32
    requires bits <= 8
  {
    1 << (2 * bits)
  }

  /** The array holds both groups of bits. */
  predicate Holds(size: bv32, bits: bv32)
    requires bits <= 8
  {
    IsPow2(size) && size >= LeastSize(bits)
  }

  /** Remapping stays inside the array. */
  lemma RemapInRange(bits: bv32, index: bv32, size: bv32)
    requires bits <= 8 && Holds(size, bits) && index < size
    ensures Remap(bits, index) < size
  {
    if bits == 0 {
    } else if bits == 1 {
    } else if bits == 2 {
    } else if bits == 3 {
    } else if bits == 4 {
    } else if bits == 5 {
    } else if bits == 6 {
    } else if bits == 7 {
    }
  }

  /** Remapping is a permutation of the slots: distinct slots stay distinct, and every slot is reached. */
  lemma RemapPermutes(bits: bv32, size: bv32, i: bv32, j: bv32)
    requires bits <= 8 && Holds(size, bits) && i < size && j < size
    ensures Remap(bits, i) == Remap(bits, j) ==> i == j
    ensures Remap(bits, j) < size && Remap(bits, Remap(bits, j)) == j
  {
    hide Remap, Holds;
    RemapInvolution(bits, i);
    RemapInvolution(bits, j);
    RemapInRange(bits, j, size);
  }

  /** No bits are shuffled where the array is too small for them. */
  function ShuffleBits(bits: bv32, size: bv32): bv32
    requires bits <= 8
  {
    if size < LeastSize(bits) then 0 else bits
  }

  function Larger(x: bv32, y: bv32): bv32 { if x < y then y else x }

  lemma ShuffleFits(bits: bv32, size: bv32)
    requires bits <= 8 && (IsPow2(size) || size == 0)
    ensures ShuffleBits(bits, size) <= 8 && (Holds(size, ShuffleBits(bits, size)) <==> size != 0)
    ensures Holds(size, bits) ==> ShuffleBits(bits, size) == bits
    ensures Holds(Larger(size, LeastSize(bits)), bits) && size <= Larger(size, LeastSize(bits))
    ensures Holds(size, bits) ==> Larger(size, LeastSize(bits)) == size
  {
  }

  /**
   * The sizes of AtomicQueue2 (exactly for sizes from 1 to 2^31) and of AtomicQueueB2 (always) are
   * large enough for the bits they shuffle; a size that is large enough already stays, and its bits
   * are shuffled.
   */
  lemma SizesFit(bits: bv32, asked: bv32)
    requires bits <= 8
    ensures ShuffleBits(bits, RoundUp(asked)) <= 8
    ensures Holds(RoundUp(asked), ShuffleBits(bits, RoundUp(asked))) <==> InRange(asked)
    ensures Holds(RoundUp(asked), bits) ==> ShuffleBits(bits, RoundUp(asked)) == bits
    ensures var size := Larger(RoundUp(asked), LeastSize(bits));
      Holds(size, bits) && RoundUp(asked) <= size && (Holds(RoundUp(asked), bits) ==> size == RoundUp(asked))
  {
    hide RoundUp, IsPow2, Holds, Larger, ShuffleBits, InRange, LeastSize;
    RoundUpIsLeast(asked, 1);
    NotZero(RoundUp(asked));
    ShuffleFits(bits, RoundUp(asked));
  }

  lemma NotZero(p: bv32)
    ensures IsPow2(p) ==> p != 0
  {
  }

  // ------------------------------------------------------------------------------------------
  // Counters that wrap around
  // ------------------------------------------------------------------------------------------

  /** circular_less_than on counters of which only the remainder by the modulus is stored. */
  function CircularLess(a: int, b: int, modulus: int): bool
    requires modulus > 0
  {
    (a % modulus - b % modulus) % modulus > modulus / 2
  }

  /** For counters less than a full turn apart, the comparison is right exactly within half a turn. */
  lemma CircularLessExact(a: int, b: int, modulus: int)
    requires modulus > 0 && modulus % 2 == 0 && -modulus < a - b < modulus
    ensures (CircularLess(a, b, modulus) <==> a < b) <==> -(modulus / 2) < a - b <= modulus / 2
  {
    var d := a - b;
    RemSubtract(a, b, modulus);
    if d >= 0 {
      RemSmall(d, modulus);
    } else {
      RemSmall(d + modulus, modulus);
      RemCycle(d, modulus);
    }
  }
}
