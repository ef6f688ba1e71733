/** The System pallet: the block number and the per-account nonces. */
module System {
  import opened Types

  /** The nonce stored for `who`; an account with no entry reads as zero. */
  function NonceOf(nonces: map<AccountId, Nonce>, who: AccountId): Nonce
  {
    if who in nonces then nonces[who] else 0
  }

  /**
   * The nonce map after `inc_nonce(who)`: a missing entry is inserted as
   * zero, then the entry is raised by one.
   */
  function IncrementNonce(nonces: map<AccountId, Nonce>, who: AccountId): (r: map<AccountId, Nonce>)
    ensures NonceOf(r, who) == NonceOf(nonces, who) + 1
    ensures forall a :: a != who ==> NonceOf(r, a) == NonceOf(nonces, a)
    ensures r.Keys == nonces.Keys + {who}
  {
    var entry := if who in nonces then nonces else nonces[who := 0];
    entry[who := entry[who] + 1]
  }

  class Pallet {
    /** The current block number. */
    var blockNumber: BlockNumber
    /** Each account's nonce. */
    var nonce: map<AccountId, Nonce>

    /** A fresh pallet: block number zero and no nonces. */
    constructor ()
      ensures blockNumber == 0 && nonce == map[]
    {
      blockNumber := 0;
      nonce := map[];
    }

    /** The current block number (a pure read). */
    function GetBlockNumber(): (n: BlockNumber)
      reads this
      ensures n == blockNumber
    {
      blockNumber
    }

    /** The nonce of `who` (a pure read): zero for an account never incremented. */
    function GetNonce(who: AccountId): (n: Nonce)
      reads this
      ensures who !in nonce ==> n == 0
      ensures who in nonce ==> n == nonce[who]
    {
      NonceOf(nonce, who)
    }

    /** Raises the block number by one; the nonces are untouched. */
    method IncBlockNumber()
      modifies this
      ensures blockNumber == old(blockNumber) + 1
      ensures nonce == old(nonce)
    {
      blockNumber := blockNumber + 1;
    }

    /** Raises the nonce of `who` by one, inserting a zero entry first if absent. */
    method IncNonce(who: AccountId)
      modifies this
      ensures nonce == IncrementNonce(old(nonce), who)
      ensures GetNonce(who) == old(GetNonce(who)) + 1
      ensures forall a :: a != who ==> GetNonce(a) == old(GetNonce(a))
      ensures blockNumber == old(blockNumber)
    {
      if who !in nonce {
        nonce := nonce[who := 0];
      }
      nonce := nonce[who := nonce[who] + 1];
    }
  }
}
