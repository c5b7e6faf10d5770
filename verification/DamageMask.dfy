/** The eight-bit mask that the v5 AnlandEglLayer keeps beside its accumulated damage: one bit
    per rotation buffer. */
module DamageMask {
  import opened Protocol

  function Bit(i: nat): bv8
    requires i < MAX_BUFS
  {
    1 << i
  }

  /** (uint8_t)((1 << n) - 1): computed wide, then truncated. */
  function Full(n: nat): bv8
    requires n <= MAX_BUFS
  {
    FullFits(n);
    (((1 as bv16) << n) - 1) as bv8
  }

  predicate Has(flags: bv8, i: nat)
    requires i < MAX_BUFS
  {
    flags & Bit(i) != 0
  }

  lemma FullFits(n: nat)
    requires n <= MAX_BUFS
    ensures ((1 as bv16) << n) - 1 <= 255
  {
    match n
    case 0 => case 1 => case 2 => case 3 => case 4 => case 5 => case 6 => case 7 => case 8 =>
  }

  lemma BitTable()
    ensures Bit(0) == 1 && Bit(1) == 2 && Bit(2) == 4 && Bit(3) == 8
    ensures Bit(4) == 16 && Bit(5) == 32 && Bit(6) == 64 && Bit(7) == 128
  {
  }

  lemma FullTable()
    ensures Full(0) == 0 && Full(1) == 1 && Full(2) == 3 && Full(3) == 7 && Full(4) == 15
    ensures Full(5) == 31 && Full(6) == 63 && Full(7) == 127 && Full(8) == 255
  {
  }

  /** Also for a full set of eight buffers, where the shift leaves eight bits. */
  lemma FullHas(n: nat, i: nat)
    requires n <= MAX_BUFS && i < MAX_BUFS
    ensures Has(Full(n), i) <==> i < n
  {
    BitTable();
    FullTable();
  }

  lemma ClearHas(flags: bv8, c: nat, i: nat)
    requires c < MAX_BUFS && i < MAX_BUFS
    ensures Has(flags & !Bit(c), i) <==> Has(flags, i) && i != c
  {
    BitTable();
  }

  lemma ZeroHasNone(flags: bv8)
    ensures flags == 0 <==> (forall i: nat | i < MAX_BUFS :: !Has(flags, i))
  {
    BitTable();
    if forall i: nat | i < MAX_BUFS :: !Has(flags, i) {
      assert !Has(flags, 0) && !Has(flags, 1) && !Has(flags, 2) && !Has(flags, 3);
      assert !Has(flags, 4) && !Has(flags, 5) && !Has(flags, 6) && !Has(flags, 7);
    }
  }
}
