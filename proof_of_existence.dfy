/**
 * The Proof-of-existence pallet: a map from content to the account that
 * claimed it. Per content key it is a state machine
 * Unclaimed -> Claimed(owner) -> Unclaimed.
 */
module ProofOfExistence {
  import opened Types
  import opened Support

  const AlreadyClaimed: string := "this content is already claimed"
  const NoSuchClaim: string := "claim does not exist"
  const NotOwner: string := "not the owner of the claim"

  /** The owner of `claim`, if any. */
  function ClaimOf(claims: map<Content, AccountId>, claim: Content): Option<AccountId>
  {
    if claim in claims then Some(claims[claim]) else None
  }

  /** The result and the new map of `create_claim(caller, claim)`. */
  function ApplyCreateClaim(claims: map<Content, AccountId>, caller: AccountId, claim: Content)
    : (r: (DispatchResult, map<Content, AccountId>))
    ensures r.0 == Ok <==> ClaimOf(claims, claim) == None
    ensures r.0 != Ok ==> r.0 == Err(AlreadyClaimed) && r.1 == claims
    ensures ClaimOf(r.1, claim) == if r.0 == Ok then Some(caller) else ClaimOf(claims, claim)
    ensures forall c :: c != claim ==> ClaimOf(r.1, c) == ClaimOf(claims, c)
  {
    if claim in claims then
      (Err(AlreadyClaimed), claims)
    else
      (Ok, claims[claim := caller])
  }

  /** The result and the new map of `revoke_claim(caller, claim)`. */
  function ApplyRevokeClaim(claims: map<Content, AccountId>, caller: AccountId, claim: Content)
    : (r: (DispatchResult, map<Content, AccountId>))
    ensures r.0 == Err(NoSuchClaim) <==> ClaimOf(claims, claim) == None
    ensures r.0 == Err(NotOwner) <==> ClaimOf(claims, claim).Some? && ClaimOf(claims, claim) != Some(caller)
    ensures r.0 == Ok <==> ClaimOf(claims, claim) == Some(caller)
    ensures r.0 != Ok ==> r.1 == claims
    ensures r.0 == Ok ==> ClaimOf(r.1, claim) == None
    ensures forall c :: c != claim ==> ClaimOf(r.1, c) == ClaimOf(claims, c)
  {
    match ClaimOf(claims, claim)
    case None => (Err(NoSuchClaim), claims)
    case Some(owner) =>
      if owner != caller then (Err(NotOwner), claims)
      else (Ok, claims - {claim})
  }

  /**
   * The life of one content key: `a` claims it, a second claim by `b` is
   * refused, `b` cannot revoke it, `a` can, and then `b` can claim it.
   */
  lemma ClaimLifecycle(claims: map<Content, AccountId>, a: AccountId, b: AccountId, claim: Content)
    requires ClaimOf(claims, claim) == None
    requires a != b
    ensures var (r1, m1) := ApplyCreateClaim(claims, a, claim);
            var (r2, m2) := ApplyCreateClaim(m1, b, claim);
            var (r3, m3) := ApplyRevokeClaim(m2, b, claim);
            var (r4, m4) := ApplyRevokeClaim(m3, a, claim);
            var (r5, m5) := ApplyCreateClaim(m4, b, claim);
            && r1 == Ok && ClaimOf(m1, claim) == Some(a)
            && r2 == Err(AlreadyClaimed) && ClaimOf(m2, claim) == Some(a)
            && r3 == Err(NotOwner) && ClaimOf(m3, claim) == Some(a)
            && r4 == Ok && ClaimOf(m4, claim) == None
            && r5 == Ok && ClaimOf(m5, claim) == Some(b)
  {
  }

  /** The dispatchable calls of this pallet. */
  datatype Call = CreateClaim(claim: Content) | RevokeClaim(claim: Content)

  /** The result and the new map of dispatching `call` on behalf of `caller`. */
  function ApplyDispatch(claims: map<Content, AccountId>, caller: AccountId, call: Call)
    : (r: (DispatchResult, map<Content, AccountId>))
    ensures call.CreateClaim? ==> r == ApplyCreateClaim(claims, caller, call.claim)
    ensures call.RevokeClaim? ==> r == ApplyRevokeClaim(claims, caller, call.claim)
  {
    match call
    case CreateClaim(claim) => ApplyCreateClaim(claims, caller, claim)
    case RevokeClaim(claim) => ApplyRevokeClaim(claims, caller, claim)
  }

  class Pallet {
    /** The owner of each claimed content. */
    var claims: map<Content, AccountId>

    /** A fresh pallet holds no claims. */
    constructor ()
      ensures claims == map[]
    {
      claims := map[];
    }

    /** The owner of `claim`, if any (a pure read). */
    function GetClaim(claim: Content): (r: Option<AccountId>)
      reads this
      ensures r.Some? <==> claim in claims
      ensures r.Some? ==> r.value == claims[claim]
    {
      ClaimOf(claims, claim)
    }

    /** Records `caller` as the owner of `claim` unless it is already claimed. */
    method CreateClaim(caller: AccountId, claim: Content) returns (r: DispatchResult)
      modifies this
      ensures (r, claims) == ApplyCreateClaim(old(claims), caller, claim)
    {
      if claim in claims {
        return Err(AlreadyClaimed);
      }
      claims := claims[claim := caller];
      r := Ok;
    }

    /** Removes `claim` when it exists and `caller` owns it. */
    method RevokeClaim(caller: AccountId, claim: Content) returns (r: DispatchResult)
      modifies this
      ensures (r, claims) == ApplyRevokeClaim(old(claims), caller, claim)
    {
      var owner := GetClaim(claim);
      if owner.None? {
        return Err(NoSuchClaim);
      }
      if owner.value != caller {
        return Err(NotOwner);
      }
      claims := claims - {claim};
      r := Ok;
    }

    /** Routes `call` to the handler it names. */
    method Dispatch(caller: AccountId, call: Call) returns (r: DispatchResult)
      modifies this
      ensures (r, claims) == ApplyDispatch(old(claims), caller, call)
    {
      match call
      case CreateClaim(claim) =>
        r := CreateClaim(caller, claim);
      case RevokeClaim(claim) =>
        r := RevokeClaim(caller, claim);
    }
  }
}
