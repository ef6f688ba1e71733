/**
 * The runtime: one instance of each pallet, the top-level call that routes
 * to a pallet's own call, and block execution.
 */
module Runtime {
  import opened Types
  import opened Support
  import System
  import Balances
  import ProofOfExistence

  /** One variant per pallet, each wrapping that pallet's own calls. */
  datatype RuntimeCall =
    | BalancesCall(balancesCall: Balances.Call)
    | ProofOfExistenceCall(proofOfExistenceCall: ProofOfExistence.Call)

  type RuntimeExtrinsic = Support.Extrinsic<AccountId, RuntimeCall>
  type RuntimeHeader = Support.Header<BlockNumber>
  type RuntimeBlock = Support.Block<RuntimeHeader, RuntimeExtrinsic>

  const BlockNumberMismatch: string := "block number does not match what is expected"

  /** The state of the three pallets, as a value. */
  datatype State = State(
    blockNumber: BlockNumber,
    nonces: map<AccountId, Nonce>,
    balances: map<AccountId, Balance>,
    claims: map<Content, AccountId>)

  /** The state of a freshly constructed runtime. */
  const Genesis: State := State(0, map[], map[], map[])

  /**
   * The result and the new state of dispatching `call` for `caller`: the
   * call reaches the pallet its variant names, and only that pallet's state
   * can change.
   */
  function ApplyDispatch(s: State, caller: AccountId, call: RuntimeCall): (r: (DispatchResult, State))
    ensures r.1.blockNumber == s.blockNumber && r.1.nonces == s.nonces
    ensures call.BalancesCall? ==> r.1.claims == s.claims
    ensures call.ProofOfExistenceCall? ==> r.1.balances == s.balances
    ensures call.BalancesCall? ==>
              var (res, balances) := Balances.ApplyDispatch(s.balances, caller, call.balancesCall);
              r == (res, s.(balances := balances))
    ensures call.ProofOfExistenceCall? ==>
              var (res, claims) := ProofOfExistence.ApplyDispatch(s.claims, caller, call.proofOfExistenceCall);
              r == (res, s.(claims := claims))
  {
    match call
    case BalancesCall(c) =>
      var (res, balances) := Balances.ApplyDispatch(s.balances, caller, c);
      (res, s.(balances := balances))
    case ProofOfExistenceCall(c) =>
      var (res, claims) := ProofOfExistence.ApplyDispatch(s.claims, caller, c);
      (res, s.(claims := claims))
  }

  /**
   * The state after one extrinsic: the caller's nonce is raised, then the
   * call is dispatched and its result discarded.
   */
  function ApplyExtrinsic(s: State, x: RuntimeExtrinsic): (r: State)
    ensures r.blockNumber == s.blockNumber
    ensures System.NonceOf(r.nonces, x.caller) == System.NonceOf(s.nonces, x.caller) + 1
    ensures forall a :: a != x.caller ==> System.NonceOf(r.nonces, a) == System.NonceOf(s.nonces, a)
    ensures r == ApplyDispatch(s.(nonces := System.IncrementNonce(s.nonces, x.caller)), x.caller, x.call).1
  {
    var bumped := s.(nonces := System.IncrementNonce(s.nonces, x.caller));
    ApplyDispatch(bumped, x.caller, x.call).1
  }

  /** The state after the extrinsics `xs`, applied in list order; they never change the block number. */
  function ApplyExtrinsics(s: State, xs: seq<RuntimeExtrinsic>): (r: State)
    ensures r.blockNumber == s.blockNumber
    decreases |xs|
  {
    if xs == [] then s
    else ApplyExtrinsic(ApplyExtrinsics(s, xs[..|xs| - 1]), xs[|xs| - 1])
  }

  /**
   * The result and the new state of `execute_block(b)`: the block number is
   * raised first; a block declaring any other number is refused before any
   * extrinsic runs; otherwise every extrinsic runs and the block succeeds,
   * whatever its extrinsics do. Either way the block number rises by one.
   */
  function ApplyBlock(s: State, b: RuntimeBlock): (r: (DispatchResult, State))
    ensures r.1.blockNumber == s.blockNumber + 1
    ensures r.0 == Ok <==> b.header.blockNumber == s.blockNumber + 1
    ensures r.0 != Ok ==> r == (Err(BlockNumberMismatch), s.(blockNumber := s.blockNumber + 1))
    ensures r.0 == Ok ==> r.1 == ApplyExtrinsics(s.(blockNumber := s.blockNumber + 1), b.extrinsics)
  {
    var advanced := s.(blockNumber := s.blockNumber + 1);
    if b.header.blockNumber != advanced.blockNumber then
      (Err(BlockNumberMismatch), advanced)
    else
      (Ok, ApplyExtrinsics(advanced, b.extrinsics))
  }

  /** How many of the extrinsics `xs` were submitted by `who`. */
  function CallsBy(xs: seq<RuntimeExtrinsic>, who: AccountId): nat
    decreases |xs|
  {
    if xs == [] then 0
    else CallsBy(xs[..|xs| - 1], who) + (if xs[|xs| - 1].caller == who then 1 else 0)
  }

  /**
   * Every extrinsic raises its caller's nonce by one, whether its dispatch
   * succeeds or fails.
   */
  lemma {:induction false} ExtrinsicsCountNonces(s: State, xs: seq<RuntimeExtrinsic>, who: AccountId)
    ensures System.NonceOf(ApplyExtrinsics(s, xs).nonces, who) == System.NonceOf(s.nonces, who) + CallsBy(xs, who)
    decreases |xs|
  {
    if xs != [] {
      ExtrinsicsCountNonces(s, xs[..|xs| - 1], who);
    }
  }

  /** Running `xs` and then `ys` is running `xs + ys`. */
  lemma {:induction false} ExtrinsicsCompose(s: State, xs: seq<RuntimeExtrinsic>, ys: seq<RuntimeExtrinsic>)
    ensures ApplyExtrinsics(s, xs + ys) == ApplyExtrinsics(ApplyExtrinsics(s, xs), ys)
    decreases |ys|
  {
    if ys == [] {
      assert xs + ys == xs;
    } else {
      ExtrinsicsCompose(s, xs, ys[..|ys| - 1]);
      assert (xs + ys)[..|xs + ys| - 1] == xs + ys[..|ys| - 1];
    }
  }

  /**
   * A claim owned by `who` stays with `who` through extrinsics none of
   * which `who` submitted: only the owner can take a claim away.
   */
  lemma {:induction false} ClaimKeptWithoutOwner(s: State, xs: seq<RuntimeExtrinsic>, who: AccountId, claim: Content)
    requires ProofOfExistence.ClaimOf(s.claims, claim) == Some(who)
    requires CallsBy(xs, who) == 0
    ensures ProofOfExistence.ClaimOf(ApplyExtrinsics(s, xs).claims, claim) == Some(who)
    decreases |xs|
  {
    if xs != [] {
      ClaimKeptWithoutOwner(s, xs[..|xs| - 1], who, claim);
    }
  }

  /**
   * The balance of `who` does not go down through extrinsics none of which
   * `who` submitted: only the owner can debit an account.
   */
  lemma {:induction false} BalanceKeptWithoutOwner(s: State, xs: seq<RuntimeExtrinsic>, who: AccountId)
    requires CallsBy(xs, who) == 0
    ensures Balances.BalanceOf(ApplyExtrinsics(s, xs).balances, who) >= Balances.BalanceOf(s.balances, who)
    decreases |xs|
  {
    if xs != [] {
      BalanceKeptWithoutOwner(s, xs[..|xs| - 1], who);
    }
  }

  /** An accepted block raises each account's nonce by its number of extrinsics; a refused one by none. */
  lemma BlockCountsNonces(s: State, b: RuntimeBlock, who: AccountId)
    ensures System.NonceOf(ApplyBlock(s, b).1.nonces, who) ==
              System.NonceOf(s.nonces, who) + (if ApplyBlock(s, b).0 == Ok then CallsBy(b.extrinsics, who) else 0)
  {
    ExtrinsicsCountNonces(s.(blockNumber := s.blockNumber + 1), b.extrinsics, who);
  }

  class Runtime {
    const system: System.Pallet
    const balances: Balances.Pallet
    const proofOfExistence: ProofOfExistence.Pallet

    /** The current state of the three pallets. */
    function Snapshot(): State
      reads system, balances, proofOfExistence
    {
      State(system.blockNumber, system.nonce, balances.balances, proofOfExistence.claims)
    }

    /** A runtime with one fresh instance of each pallet. */
    constructor ()
      ensures Snapshot() == Genesis
      ensures fresh(system) && fresh(balances) && fresh(proofOfExistence)
    {
      system := new System.Pallet();
      balances := new Balances.Pallet();
      proofOfExistence := new ProofOfExistence.Pallet();
    }

    /** Forwards `call` unchanged to the dispatch of the pallet its variant names. */
    method Dispatch(caller: AccountId, call: RuntimeCall) returns (r: DispatchResult)
      modifies balances, proofOfExistence
      ensures (r, Snapshot()) == ApplyDispatch(old(Snapshot()), caller, call)
    {
      match call
      case BalancesCall(c) =>
        r := balances.Dispatch(caller, c);
      case ProofOfExistenceCall(c) =>
        r := proofOfExistence.Dispatch(caller, c);
    }

    /**
     * Executes `block`: raises the block number, refuses a block declaring a
     * different number, then for each extrinsic in order raises the caller's
     * nonce and dispatches the call, ignoring the call's result.
     */
    method ExecuteBlock(block: RuntimeBlock) returns (r: DispatchResult)
      modifies system, balances, proofOfExistence
      ensures (r, Snapshot()) == ApplyBlock(old(Snapshot()), block)
    {
      system.IncBlockNumber();
      if block.header.blockNumber != system.blockNumber {
        return Err(BlockNumberMismatch);
      }
      ghost var advanced := Snapshot();
      var xs := block.extrinsics;
      var i := 0;
      while i < |xs|
        invariant 0 <= i <= |xs|
        invariant Snapshot() == ApplyExtrinsics(advanced, xs[..i])
      {
        var x := xs[i];
        system.IncNonce(x.caller);
        var _ := Dispatch(x.caller, x.call);
        assert xs[..i + 1][..i] == xs[..i];
        i := i + 1;
      }
      assert xs[..i] == xs;
      r := Ok;
    }
  }

  const Alice: AccountId := "alice"
  const Bob: AccountId := "bob"
  const Charlie: AccountId := "charlie"
  const Hello: Content := "Hello, world!"

  /** Block 1 of the demo: two transfers from Alice. */
  const Block1: RuntimeBlock := Support.Block(Support.Header(1), [
    Support.Extrinsic(Alice, BalancesCall(Balances.Transfer(Bob, 30))),
    Support.Extrinsic(Alice, BalancesCall(Balances.Transfer(Charlie, 20)))])

  /** Block 2 of the demo: Alice claims the content, then Bob tries to. */
  const Block2: RuntimeBlock := Support.Block(Support.Header(2), [
    Support.Extrinsic(Alice, ProofOfExistenceCall(ProofOfExistence.CreateClaim(Hello))),
    Support.Extrinsic(Bob, ProofOfExistenceCall(ProofOfExistence.CreateClaim(Hello)))])

  /** Block 3 of the demo: Alice revokes her claim, then Bob claims the content. */
  const Block3: RuntimeBlock := Support.Block(Support.Header(3), [
    Support.Extrinsic(Alice, ProofOfExistenceCall(ProofOfExistence.RevokeClaim(Hello))),
    Support.Extrinsic(Bob, ProofOfExistenceCall(ProofOfExistence.CreateClaim(Hello)))])

  /**
   * The demo: seed Alice with 100 outside any block, then execute blocks 1,
   * 2 and 3. Every block is accepted although Bob's claim in block 2 fails;
   * that failed extrinsic still counts towards Bob's nonce.
   */
  lemma DemoScenario()
    ensures var seeded := Genesis.(balances := map[Alice := 100]);
            var (r1, s1) := ApplyBlock(seeded, Block1);
            var (r2, s2) := ApplyBlock(s1, Block2);
            var (r3, s3) := ApplyBlock(s2, Block3);
            && r1 == Ok && r2 == Ok && r3 == Ok
            && Balances.BalanceOf(s1.balances, Bob) == 30
            && Balances.BalanceOf(s1.balances, Charlie) == 20
            && ProofOfExistence.ClaimOf(s2.claims, Hello) == Some(Alice)
            && s3.blockNumber == 3
            && System.NonceOf(s3.nonces, Alice) == 4
            && System.NonceOf(s3.nonces, Bob) == 2
            && Balances.BalanceOf(s3.balances, Alice) == 50
            && ProofOfExistence.ClaimOf(s3.claims, Hello) == Some(Bob)
  {
    var seeded := Genesis.(balances := map[Alice := 100]);
    DemoBlock1(seeded);
    var s1 := ApplyBlock(seeded, Block1).1;
    DemoBlock2(s1);
    var s2 := ApplyBlock(s1, Block2).1;
    DemoBlock3(s2);
  }

  /** Block 1 of the demo moves 30 and then 20 from Alice's 100. */
  lemma DemoBlock1(s: State)
    requires s == Genesis.(balances := map[Alice := 100])
    ensures var (r, after) := ApplyBlock(s, Block1);
            && r == Ok && after.blockNumber == 1 && after.claims == map[]
            && System.NonceOf(after.nonces, Alice) == 2 && System.NonceOf(after.nonces, Bob) == 0
            && Balances.BalanceOf(after.balances, Alice) == 50
            && Balances.BalanceOf(after.balances, Bob) == 30
            && Balances.BalanceOf(after.balances, Charlie) == 20
  {
    AcceptedPair(s, Block1);
    var t0 := s.(blockNumber := 1);
    var t1 := ApplyExtrinsic(t0, Block1.extrinsics[0]);
    assert Balances.BalanceOf(t1.balances, Alice) == 70 && Balances.BalanceOf(t1.balances, Bob) == 30;
    assert Balances.BalanceOf(t1.balances, Charlie) == 0;
  }

  /** Block 2 of the demo: Alice's claim succeeds, Bob's fails, and both nonces still rise. */
  lemma DemoBlock2(s: State)
    requires s.blockNumber == 1 && s.claims == map[]
    requires System.NonceOf(s.nonces, Alice) == 2 && System.NonceOf(s.nonces, Bob) == 0
    ensures var (r, after) := ApplyBlock(s, Block2);
            && r == Ok && after.blockNumber == 2 && after.balances == s.balances
            && System.NonceOf(after.nonces, Alice) == 3 && System.NonceOf(after.nonces, Bob) == 1
            && ProofOfExistence.ClaimOf(after.claims, Hello) == Some(Alice)
  {
    AcceptedPair(s, Block2);
    var t1 := ApplyExtrinsic(s.(blockNumber := 2), Block2.extrinsics[0]);
    assert ProofOfExistence.ClaimOf(t1.claims, Hello) == Some(Alice);
  }

  /** Block 3 of the demo: Alice revokes her claim, then Bob claims the content. */
  lemma DemoBlock3(s: State)
    requires s.blockNumber == 2 && ProofOfExistence.ClaimOf(s.claims, Hello) == Some(Alice)
    requires System.NonceOf(s.nonces, Alice) == 3 && System.NonceOf(s.nonces, Bob) == 1
    ensures var (r, after) := ApplyBlock(s, Block3);
            && r == Ok && after.blockNumber == 3 && after.balances == s.balances
            && System.NonceOf(after.nonces, Alice) == 4 && System.NonceOf(after.nonces, Bob) == 2
            && ProofOfExistence.ClaimOf(after.claims, Hello) == Some(Bob)
  {
    AcceptedPair(s, Block3);
    var t1 := ApplyExtrinsic(s.(blockNumber := 3), Block3.extrinsics[0]);
    assert ProofOfExistence.ClaimOf(t1.claims, Hello) == None;
  }

  /** An accepted block of two extrinsics runs the first, then the second. */
  lemma AcceptedPair(s: State, b: RuntimeBlock)
    requires b.header.blockNumber == s.blockNumber + 1 && |b.extrinsics| == 2
    ensures ApplyBlock(s, b) ==
              (Ok, ApplyExtrinsic(ApplyExtrinsic(s.(blockNumber := s.blockNumber + 1), b.extrinsics[0]), b.extrinsics[1]))
  {
    var advanced := s.(blockNumber := s.blockNumber + 1);
    var xs := b.extrinsics;
    assert xs[..1][..0] == [];
    assert ApplyExtrinsics(advanced, xs[..1]) == ApplyExtrinsic(advanced, xs[0]);
  }

  /**
   * The demo run on a runtime object; returns what the source's final
   * assertions read.
   */
  method RunDemo() returns (blockNumber: BlockNumber, aliceNonce: Nonce, bobNonce: Nonce,
                            aliceBalance: Balance, owner: Option<AccountId>)
    ensures blockNumber == 3 && aliceNonce == 4 && bobNonce == 2
    ensures aliceBalance == 50 && owner == Some(Bob)
  {
    var runtime := new Runtime();
    runtime.balances.SetBalance(Alice, 100);
    assert runtime.Snapshot() == Genesis.(balances := map[Alice := 100]);
    var r1 := runtime.ExecuteBlock(Block1);
    var r2 := runtime.ExecuteBlock(Block2);
    var r3 := runtime.ExecuteBlock(Block3);
    DemoScenario();
    assert r1 == Ok && r2 == Ok && r3 == Ok;
    blockNumber := runtime.system.GetBlockNumber();
    aliceNonce := runtime.system.GetNonce(Alice);
    bobNonce := runtime.system.GetNonce(Bob);
    aliceBalance := runtime.balances.GetBalance(Alice);
    owner := runtime.proofOfExistence.GetClaim(Hello);
  }
}
