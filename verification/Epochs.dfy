/**
 * Indices of a ConcurrentQueue producer, block by block: index i lies in block number Epoch(i) at
 * position Place(i), and block number k starts at index Start(k). The block size is any positive number.
 */
module Epochs {
  import opened Modular

  type BlockSize = n: int | n > 0 witness 32

  /** The trait BLOCK_SIZE. */
  const BLOCK_SIZE: BlockSize

  function Epoch(i: int): int { i / BLOCK_SIZE }

  function Place(i: int): nat { i % BLOCK_SIZE }

  function Start(k: int): int { k * BLOCK_SIZE }

  /** How many blocks a difference of starts comes to. */
  function Blocks(d: int): int { d / BLOCK_SIZE }

  lemma StartOfEpoch(i: int)
    ensures i == Start(Epoch(i)) + Place(i) && Place(i) < BLOCK_SIZE
  {
  }

  lemma StartsApart(j: int, k: int)
    requires j < k
    ensures Start(j) + BLOCK_SIZE <= Start(k)
  {
    MulGrows(k - j, BLOCK_SIZE);
    assert Start(k) - Start(j) == (k - j) * BLOCK_SIZE;
  }

  lemma StartNext(k: int)
    ensures Start(k + 1) == Start(k) + BLOCK_SIZE
  {
  }

  lemma StartIsNat(k: nat)
    ensures Start(0) == 0 && Start(k) >= 0
  {
    if k > 0 {
      StartsApart(0, k);
    }
  }

  /** A block number is at most the index's own exactly when the index is not before the block. */
  lemma AtOrAfter(k: int, i: int)
    ensures Start(k) <= i <==> k <= Epoch(i)
  {
    StartOfEpoch(i);
    hide Epoch, Place;
    if k <= Epoch(i) {
      if k < Epoch(i) {
        StartsApart(k, Epoch(i));
      }
    } else {
      StartsApart(Epoch(i), k);
    }
  }

  lemma Galois()
    ensures forall k: int, i: int :: Start(k) <= i <==> k <= Epoch(i)
  {
    forall k: int, i: int ensures Start(k) <= i <==> k <= Epoch(i) {
      AtOrAfter(k, i);
    }
  }

  lemma BlocksBetween(e: int, k: int)
    ensures Blocks(Start(e) - Start(k)) == e - k
  {
    assert Start(e) - Start(k) == (e - k) * BLOCK_SIZE;
    RemUnique(Start(e) - Start(k), e - k, 0, BLOCK_SIZE);
  }

  lemma EpochOfStart(k: int)
    ensures Epoch(Start(k)) == k && Place(Start(k)) == 0
  {
    RemUnique(Start(k), k, 0, BLOCK_SIZE);
  }

  /** Starts in order, indices in blocks, and places in blocks, all at once. */
  lemma Layout()
    ensures forall k: int, i: int :: Start(k) <= i <==> k <= Epoch(i)
    ensures forall i: int :: i == Start(Epoch(i)) + Place(i) && Place(i) < BLOCK_SIZE
    ensures forall k: int :: Epoch(Start(k)) == k && Place(Start(k)) == 0
  {
    Galois();
    forall i: int ensures i == Start(Epoch(i)) + Place(i) && Place(i) < BLOCK_SIZE {
      StartOfEpoch(i);
    }
    forall k: int ensures Epoch(Start(k)) == k && Place(Start(k)) == 0 {
      EpochOfStart(k);
    }
  }
}
