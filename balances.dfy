/** The Balances pallet: an account-to-balance map and checked transfers. */
module Balances {
  import opened Types
  import opened Support

  const NotEnoughFunds: string := "Not enough funds."
  const Overflow: string := "Overflow"

  /** The balance stored for `who`; an account with no entry reads as zero. */
  function BalanceOf(balances: map<AccountId, Balance>, who: AccountId): Balance
  {
    if who in balances then balances[who] else 0
  }

  /**
   * The result and the new map of `transfer(caller, to, amount)`. Both
   * balances are read first, both checks run before either write, and the
   * credit to `to` is written last, so when `caller == to` it overwrites the
   * debit.
   */
  function ApplyTransfer(balances: map<AccountId, Balance>, caller: AccountId, to: AccountId, amount: Balance)
    : (r: (DispatchResult, map<AccountId, Balance>))
    ensures r.0 == Err(NotEnoughFunds) <==> amount > BalanceOf(balances, caller)
    ensures r.0 == Err(Overflow) <==>
              amount <= BalanceOf(balances, caller) && BalanceOf(balances, to) + amount > U128Max
    ensures r.0 == Ok <==>
              amount <= BalanceOf(balances, caller) && BalanceOf(balances, to) + amount <= U128Max
    ensures r.0 != Ok ==> r.1 == balances
    ensures r.0 == Ok ==> BalanceOf(r.1, to) == BalanceOf(balances, to) + amount
    ensures r.0 == Ok && caller != to ==> BalanceOf(r.1, caller) == BalanceOf(balances, caller) - amount
    ensures forall a :: a != caller && a != to ==> BalanceOf(r.1, a) == BalanceOf(balances, a)
  {
    var callerBalance := BalanceOf(balances, caller);
    var toBalance := BalanceOf(balances, to);
    if amount > callerBalance then
      (Err(NotEnoughFunds), balances)
    else if toBalance + amount > U128Max then
      (Err(Overflow), balances)
    else
      (Ok, balances[caller := callerBalance - amount][to := toBalance + amount])
  }

  /** A successful transfer between two distinct accounts conserves their sum. */
  lemma TransferConserves(balances: map<AccountId, Balance>, caller: AccountId, to: AccountId, amount: Balance)
    requires caller != to
    requires ApplyTransfer(balances, caller, to, amount).0 == Ok
    ensures var after := ApplyTransfer(balances, caller, to, amount).1;
            BalanceOf(after, caller) + BalanceOf(after, to) == BalanceOf(balances, caller) + BalanceOf(balances, to)
  {
  }

  /**
   * A self-transfer the checks let through is not neutral: the credit
   * overwrites the debit, so the balance grows by `amount`.
   */
  lemma SelfTransferCredits(balances: map<AccountId, Balance>, who: AccountId, amount: Balance)
    requires amount <= BalanceOf(balances, who)
    requires BalanceOf(balances, who) + amount <= U128Max
    ensures ApplyTransfer(balances, who, who, amount) == (Ok, balances[who := BalanceOf(balances, who) + amount])
  {
    var b := BalanceOf(balances, who);
    assert balances[who := b - amount][who := b + amount] == balances[who := b + amount];
  }

  /** The dispatchable calls of this pallet. */
  datatype Call = Transfer(to: AccountId, amount: Balance)

  /** The result and the new map of dispatching `call` on behalf of `caller`. */
  function ApplyDispatch(balances: map<AccountId, Balance>, caller: AccountId, call: Call)
    : (r: (DispatchResult, map<AccountId, Balance>))
    ensures r == ApplyTransfer(balances, caller, call.to, call.amount)
  {
    match call
    case Transfer(to, amount) => ApplyTransfer(balances, caller, to, amount)
  }

  class Pallet {
    /** Each account's balance. */
    var balances: map<AccountId, Balance>

    /** A fresh pallet holds no balances. */
    constructor ()
      ensures balances == map[]
    {
      balances := map[];
    }

    /** Overwrites the balance of `who`; no other account changes. */
    method SetBalance(who: AccountId, amount: Balance)
      modifies this
      ensures balances == old(balances)[who := amount]
      ensures GetBalance(who) == amount
      ensures forall a :: a != who ==> GetBalance(a) == old(GetBalance(a))
    {
      balances := balances[who := amount];
    }

    /** The balance of `who` (a pure read): zero for an account with no entry. */
    function GetBalance(who: AccountId): (b: Balance)
      reads this
      ensures who !in balances ==> b == 0
      ensures who in balances ==> b == balances[who]
    {
      BalanceOf(balances, who)
    }

    /** Moves `amount` from `caller` to `to`, writing nothing when a check fails. */
    method Transfer(caller: AccountId, to: AccountId, amount: Balance) returns (r: DispatchResult)
      modifies this
      ensures (r, balances) == ApplyTransfer(old(balances), caller, to, amount)
    {
      var callerBalance := GetBalance(caller);
      var toBalance := GetBalance(to);
      if amount > callerBalance {
        return Err(NotEnoughFunds);
      }
      if toBalance + amount > U128Max {
        return Err(Overflow);
      }
      balances := balances[caller := callerBalance - amount];
      balances := balances[to := toBalance + amount];
      r := Ok;
    }

    /** Routes `call` to its handler: a transfer call is exactly `Transfer`. */
    method Dispatch(caller: AccountId, call: Call) returns (r: DispatchResult)
      modifies this
      ensures (r, balances) == ApplyDispatch(old(balances), caller, call)
    {
      match call
      case Transfer(to, amount) =>
        r := Transfer(caller, to, amount);
    }
  }
}
