/**
 * The concrete types the runtime binds every pallet to. In the source each
 * pallet is generic over a configuration trait and the runtime fixes the
 * types once; here they are fixed once in this module and every pallet
 * imports it, so an account is the same type everywhere.
 */
module Types {
  /** Accounts are identified by strings. */
  type AccountId = string

  /** The largest value of a `u128`. */
  const U128Max: nat := 0xffff_ffff_ffff_ffff_ffff_ffff_ffff_ffff

  /** A balance is a `u128`: the range is explicit because transfers check it. */
  type Balance = b: nat | b <= U128Max

  /** Block numbers and nonces are `u32` counters in the source; see README. */
  type BlockNumber = nat
  type Nonce = nat

  /** The content that can be claimed. */
  type Content = string
}
