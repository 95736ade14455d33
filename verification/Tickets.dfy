/**
 * Tickets of the AtomicQueue family: 32-bit counters that wrap around, compared as signed
 * differences, and the slots they name. Ticket k, counted from the start, is the word k % WORD.
 */
module Tickets {
  import opened Modular

  const WORD: int := 0x1_0000_0000
  const HALF: int := 0x8000_0000

  /** The states of a slot. */
  datatype Phase = EMPTY | STORING | STORED | LOADING

  /** An unsigned word read as a signed one. */
  function Signed(w: int): int { if w < HALF then w else w - WORD }

  /** The unsigned difference of two words, read as a signed one. */
  function Difference(a: int, b: int): int { Signed((a - b) % WORD) }

  lemma WordDifference(a: int, b: int)
    ensures Difference(a % WORD, b % WORD) == Signed((a - b) % WORD)
  {
    RemSubtract(a, b, WORD);
  }

  /** The signed difference of two wrapped counters is right exactly within half a turn. */
  lemma DifferenceExact(a: int, b: int)
    ensures Difference(a % WORD, b % WORD) == a - b <==> -HALF <= a - b < HALF
  {
    WordDifference(a, b);
  }

  /**
   * What try_push takes for a full queue when it loaded the head at count `at` and the tail is at `pops`:
   * a full queue, or a load that has fallen more than half a turn behind the tail.
   */
  lemma LooksFullIff(at: int, pops: int, size: int)
    requires 0 < size < HALF && -WORD < at - pops < HALF
    ensures Difference(at % WORD, pops % WORD) >= Signed(size)
            <==> at - pops >= size || size - WORD <= at - pops < -HALF
  {
    hide Difference;
    WordDifference(at, pops);
    var d := at - pops;
    if d < 0 {
      RemCycle(d, WORD);
      RemSmall(d + WORD, WORD);
    } else {
      RemSmall(d, WORD);
    }
  }

  /** The slot of ticket k: the remainder of its word. */
  function SlotOf(k: nat, size: nat): nat
    requires size > 0
  {
    k % WORD % size
  }

  lemma SlotInRange(k: nat, size: nat)
    requires size > 0
    ensures SlotOf(k, size) < size
  {
  }

  /** Number of tickets below n that name slot x. */
  ghost function TicketsFor(n: nat, x: nat, size: nat): nat
    requires size > 0
  {
    if n == 0 then 0 else TicketsFor(n - 1, x, size) + (if SlotOf(n - 1, size) == x then 1 else 0)
  }

  predicate Divides(size: nat)
    requires size > 0
  {
    WORD % size == 0
  }

  /** Where the size divides the word, wrapping a ticket does not change its slot. */
  lemma WrapIsHarmless(k: nat, size: nat)
    requires size > 0 && Divides(size)
    ensures SlotOf(k, size) == k % size
  {
    var q := WORD / size;
    assert WORD == q * size;
    var w := k % WORD;
    assert k == (k / WORD) * WORD + w;
    Regroup(k / WORD, q, w / size, size);
    RemUnique(k, k / WORD * q + w / size, w % size, size);
  }

  lemma Regroup(a: int, q: int, b: int, n: int)
    ensures a * (q * n) + b * n == (a * q + b) * n
  {
  }

  lemma {:induction false} TicketsGrow(h: nat, t: nat, x: nat, size: nat)
    requires size > 0 && t <= h
    ensures TicketsFor(t, x, size) <= TicketsFor(h, x, size)
  {
    if t < h {
      TicketsGrow(h - 1, t, x, size);
    }
  }

  lemma {:induction false} TicketCounted(h: nat, t: nat, k: nat, size: nat)
    requires size > 0 && t <= k < h
    ensures TicketsFor(h, SlotOf(k, size), size) > TicketsFor(t, SlotOf(k, size), size)
  {
    hide SlotOf;
    if k < h - 1 {
      TicketCounted(h - 1, t, k, size);
    } else {
      TicketsGrow(h - 1, t, SlotOf(k, size), size);
    }
  }

  /** Among consecutive tickets of one lap, at most one names slot x, if the size divides the word. */
  lemma {:induction false} OneTicketPerLap(h: nat, t: nat, x: nat, size: nat)
    requires size > 0 && Divides(size) && t <= h <= t + size
    ensures TicketsFor(t, x, size) <= TicketsFor(h, x, size) <= TicketsFor(t, x, size) + 1
    ensures (forall k: nat | t <= k < h :: SlotOf(k, size) != x) ==> TicketsFor(h, x, size) == TicketsFor(t, x, size)
  {
    hide SlotOf;
    if t < h {
      OneTicketPerLap(h - 1, t, x, size);
      if SlotOf(h - 1, size) == x {
        forall k: nat | t <= k < h - 1 ensures SlotOf(k, size) != x {
          SlotsDiffer(k, h - 1, size);
        }
      }
    }
  }

  lemma SlotsDiffer(k: nat, h: nat, size: nat)
    requires size > 0 && Divides(size) && k < h < k + size
    ensures SlotOf(k, size) != SlotOf(h, size)
  {
    WrapIsHarmless(k, size);
    WrapIsHarmless(h, size);
    RemDistinct(k, h, size);
  }

  /** Before the wrap an incomplete lap starts at slot zero. */
  lemma LastLap(size: nat, j: nat)
    requires 0 < size < WORD && j < WORD % size
    ensures 0 < WORD - WORD % size < WORD && WORD % size < size
    ensures SlotOf(WORD - WORD % size + j, size) == j
  {
    var r, q := WORD % size, WORD / size;
    assert WORD == q * size + r;
    assert q >= 1;
    RemSmall(WORD - r + j, WORD);
    RemUnique(WORD - r + j, q, j, size);
  }

  lemma WrappedTicket(size: nat)
    requires size > 0
    ensures SlotOf(WORD, size) == 0
  {
    RemSmall(0, size);
  }

  /** No lap has two tickets for one slot. */
  ghost predicate LapsAreFair(size: nat)
    requires size > 0
  {
    forall h: nat, t: nat, x: nat | t <= h <= t + size :: TicketsFor(h, x, size) <= TicketsFor(t, x, size) + 1
  }

  /** Every lap has at most one ticket per slot, exactly when the size divides the word. */
  lemma LapsAreFairIff(size: nat)
    requires 0 < size < WORD
    ensures LapsAreFair(size) <==> Divides(size)
  {
    if Divides(size) {
      forall h: nat, t: nat, x: nat | t <= h <= t + size ensures TicketsFor(h, x, size) <= TicketsFor(t, x, size) + 1 {
        OneTicketPerLap(h, t, x, size);
      }
    } else {
      LastLap(size, 0);
      WrappedTicket(size);
      hide SlotOf;
      var t := WORD - WORD % size;
      TicketCounted(t + 1, t, t, size);
      TicketCounted(WORD + 1, t + 1, WORD, size);
      assert TicketsFor(WORD + 1, 0, size) > TicketsFor(t, 0, size) + 1;
    }
  }
}
