/** The process-wide counter that numbers requests. */
module RpcId {
  const MODULUS: nat := 0x1_0000_0000_0000_0000

  newtype uint64 = n: int | 0 <= n < 0x1_0000_0000_0000_0000

  /** The id of the `k`-th request of the process, counted from 0: the counter wraps around. */
  function IdOf(k: nat): (id: uint64)
    ensures id as nat == k % 0x1_0000_0000_0000_0000
    ensures k < 0x1_0000_0000_0000_0000 ==> id as nat == k
  {
    (k % MODULUS) as uint64
  }

  class IdCounter {
    var id: uint64
    ghost var given: nat

    ghost predicate Valid()
      reads this
    {
      id == IdOf(given)
    }

    constructor ()
      ensures Valid() && given == 0 && id == 0
    {
      id, given := 0, 0;
    }

    /** id_++ on an unsigned 64-bit integer. */
    method GetNext() returns (next: uint64)
      requires Valid()
      modifies this
      ensures Valid() && given == old(given) + 1
      ensures next == old(id) == IdOf(old(given))
      ensures id as nat == if next == 0xFFFF_FFFF_FFFF_FFFF then 0 else next as nat + 1
    {
      next := id;
      Successor(given);
      id := if id == 0xFFFF_FFFF_FFFF_FFFF then 0 else id + 1;
      given := given + 1;
    }
  }

  lemma Successor(k: nat)
    ensures (k + 1) % MODULUS == if k % MODULUS == MODULUS - 1 then 0 else k % MODULUS + 1
  {
    var q, r := k / MODULUS, k % MODULUS;
    assert k + 1 == q * MODULUS + (r + 1);
    if r == MODULUS - 1 {
      QuotientUnique(k + 1, q + 1, 0);
    } else {
      QuotientUnique(k + 1, q, r + 1);
    }
  }

  lemma QuotientUnique(k: nat, q: nat, r: nat)
    requires k == q * MODULUS + r && r < MODULUS
    ensures k % MODULUS == r
  {
  }

  /** Two requests carry the same id exactly when a multiple of 2^64 requests lies
    * between them; in particular all ids of 2^64 requests in a row differ. */
  lemma IdsRepeatExactly(i: nat, j: nat)
    requires i <= j
    ensures IdOf(i) == IdOf(j) <==> (j - i) % MODULUS == 0
    ensures i < j < i + MODULUS ==> IdOf(i) != IdOf(j)
  {
    var qi, ri, qj, rj := i / MODULUS, i % MODULUS, j / MODULUS, j % MODULUS;
    if ri <= rj {
      QuotientUnique(j - i, qj - qi, rj - ri);
    } else {
      QuotientUnique(j - i, qj - qi - 1, rj + MODULUS - ri);
    }
  }
}
