# A verified model of a minimal state-transition runtime

The modelled system is a small, single-threaded runtime in the style of a blockchain. Three pallets each own one slice of the state:

- **System** holds the block number and a nonce for each account.
- **Balances** holds a balance for each account and a checked `transfer`.
- **Proof of existence** maps each claimed content to the account that owns it.

The runtime owns one instance of each pallet. It executes blocks. A block is a header declaring a block number, plus an ordered list of extrinsics. An extrinsic is a `(caller, call)` pair.

The model has one Dafny module per source file:

- `Types` holds the concrete types that `main.rs` fixes once for all pallets. A balance is a `u128`, written as a `nat` no larger than `2^128 - 1`.
- `Support` holds the envelope datatypes: `Block`, `Header`, `Extrinsic`, `DispatchResult`, and an `Option` for lookups.
- `System`, `Balances` and `ProofOfExistence` each define two things:
  - pure transition functions on the pallet's map. Examples are `Balances.ApplyTransfer` and `ProofOfExistence.ApplyRevokeClaim`. The transfer and claim functions return the dispatch result and the new map; `System.IncrementNonce` returns only the new nonce map. Lemmas about them carry the properties.
  - a `Pallet` class whose map fields change in place. Each method is proved to leave its fields equal to a transition function, or an expression, of the old fields.
- `Runtime` defines three things:
  - the two-level call type `RuntimeCall`. Each variant wraps one pallet's `Call`.
  - a value view of the whole state, `State`, with `ApplyDispatch`, `ApplyExtrinsic`, `ApplyExtrinsics` and `ApplyBlock` as the specification of block execution.
  - a `Runtime` class that owns the three pallet objects. Its `ExecuteBlock` loop is proved against `ApplyBlock`.

The demo from `main.rs` is proved twice. `DemoScenario` proves it on values. `RunDemo` runs it on the objects.

Where the code does something one might not expect, the model follows the code:

- **Self-transfer.** One might expect a transfer from an account to itself to be neutral. The code (src/balances.rs:45-52) reads the balance `b` twice, then writes `b - amount` and then `b + amount` to the same key. So a self-transfer that passes the checks leaves `b + amount` (`Balances.SelfTransferCredits`). If `b + amount` exceeds the `u128` range, it fails with `"Overflow"`. Balances are conserved only between distinct accounts (`Balances.TransferConserves`).
- **Refused block.** The code that executes a block is generated by a macro that is not part of this model. The model follows the way that generated code behaves: the block number is raised before it is compared with the header. A refused block therefore still raises the block number, and it runs none of its extrinsics (`Runtime.ApplyBlock`). The error text `"block number does not match what is expected"` cannot be checked against a shown line.
- **Failed extrinsics.** A failed extrinsic does not make the block fail. It is reported only on the error output, which the model leaves out; `execute_block` does not return it. Its nonce increment stays.

## Model

| member | source | states |
|---|---|---|
| `System.IncrementNonce` | src/system.rs:49-52 | the incremented account's nonce, read with absent as zero, goes up by exactly one; every other account's nonce is unchanged; the key set gains only that account |
| `System.Pallet.constructor` | src/system.rs:29-31 | a new System pallet has block number 0 and no nonces |
| `System.Pallet.GetBlockNumber` | src/system.rs:34-36 | returns the pallet's current block number and changes nothing (a function that only reads) |
| `System.Pallet.GetNonce` | src/system.rs:39-41 | an account with no entry reads as nonce 0; otherwise the stored nonce is returned |
| `System.Pallet.IncBlockNumber` | src/system.rs:44-46 | the block number rises by exactly one and the nonce map is unchanged |
| `System.Pallet.IncNonce` | src/system.rs:49-52 | the nonce map becomes `IncrementNonce` of the old map: this account gains one, no other account changes, and the block number is unchanged |
| `Balances.ApplyTransfer` | src/balances.rs:39-55 | fails with `"Not enough funds."` exactly when the amount exceeds the caller's balance. Otherwise it fails with `"Overflow"` exactly when the credit would pass `u128::MAX`. It succeeds exactly when neither holds. A failure leaves the map unchanged. A success credits the recipient by the amount, debits a distinct caller by the amount, and touches no other account |
| `Balances.TransferConserves` | src/balances.rs:45-54 | a successful transfer between distinct accounts keeps the sum of their two balances |
| `Balances.SelfTransferCredits` | src/balances.rs:45-52 | a self-transfer within the balance and the `u128` range succeeds and leaves the balance at `b + amount`, because the second insert overwrites the first |
| `Balances.ApplyDispatch` | src/balances.rs:69-77 | dispatching `Transfer { to, amount }` gives exactly the result and the new map of `ApplyTransfer(caller, to, amount)` |
| `Balances.Pallet.constructor` | src/balances.rs:23-25 | a new Balances pallet holds no balances |
| `Balances.Pallet.SetBalance` | src/balances.rs:28-30 | afterwards the account's balance is the given amount, and every other balance is unchanged |
| `Balances.Pallet.GetBalance` | src/balances.rs:34-36 | an account with no entry reads as balance 0; otherwise the stored balance is returned |
| `Balances.Pallet.Transfer` | src/balances.rs:39-55 | the result and the new map are exactly those of `ApplyTransfer` on the old map |
| `Balances.Pallet.Dispatch` | src/balances.rs:69-77 | dispatching `Transfer { to, amount }` returns and writes exactly what `ApplyDispatch` gives on the old map, which is what `transfer(caller, to, amount)` does |
| `ProofOfExistence.ApplyCreateClaim` | src/proof_of_existence.rs:42-48 | succeeds exactly when the content is unclaimed, and the caller then owns it. Otherwise it fails with `"this content is already claimed"` and leaves the map unchanged. No other content's owner changes |
| `ProofOfExistence.ApplyRevokeClaim` | src/proof_of_existence.rs:54-61 | fails with `"claim does not exist"` exactly when the content is unclaimed. It fails with `"not the owner of the claim"` exactly when someone else owns it. It succeeds exactly when the caller owns it, and the content is then unclaimed. A failure leaves the map unchanged. No other content's owner changes |
| `ProofOfExistence.ClaimLifecycle` | src/proof_of_existence.rs:82-92 | for unclaimed content and two distinct accounts `a` and `b`: `a` claims it; `b`'s claim is refused as already claimed and `a` keeps it; `b`'s revoke is refused as not the owner; `a`'s revoke frees it; `b` can then claim it |
| `ProofOfExistence.ApplyDispatch` | src/proof_of_existence.rs:34-62 | a create call gives exactly the result and the new map of `ApplyCreateClaim`, and a revoke call exactly those of `ApplyRevokeClaim`, for the caller passed separately |
| `ProofOfExistence.Pallet.constructor` | src/proof_of_existence.rs:23-25 | a new pallet holds no claims, so every lookup is `None` |
| `ProofOfExistence.Pallet.GetClaim` | src/proof_of_existence.rs:28-30 | returns an owner exactly when the content is claimed, and then returns the stored owner |
| `ProofOfExistence.Pallet.CreateClaim` | src/proof_of_existence.rs:42-48 | the result and the new map are exactly those of `ApplyCreateClaim` on the old map |
| `ProofOfExistence.Pallet.RevokeClaim` | src/proof_of_existence.rs:54-61 | the result and the new map are exactly those of `ApplyRevokeClaim` on the old map |
| `ProofOfExistence.Pallet.Dispatch` | src/proof_of_existence.rs:34-62 | the result and the new map are exactly those of `ApplyDispatch` on the old map: a create call behaves as `create_claim` and a revoke call as `revoke_claim`, with the caller passed separately |
| `Runtime.ApplyDispatch` | src/main.rs:56-57 | a balances call gives exactly the result of `Balances.ApplyDispatch` on the balances, and only the balances change. A claim call gives exactly the result of `ProofOfExistence.ApplyDispatch` on the claims, and only the claims change. The block number and the nonces never change |
| `Runtime.ApplyExtrinsic` | src/main.rs:29-30 | one extrinsic raises its caller's nonce by exactly one, then dispatches its call: the new state is exactly `ApplyDispatch` of the nonce-bumped state, and the dispatch result is discarded. The nonce rise holds whatever that result is. Other nonces and the block number are unchanged |
| `Runtime.ApplyExtrinsics` | src/main.rs:29-30 | running any list of extrinsics in order leaves the block number unchanged, proved by induction over the list from `ApplyExtrinsic`'s contract |
| `Runtime.ExtrinsicsCountNonces` | src/main.rs:98-103 | after a list of extrinsics, each account's nonce has risen by the number of extrinsics it submitted, failed ones included |
| `Runtime.ExtrinsicsCompose` | src/main.rs:29-30 | extrinsics run in list order: running `xs ++ ys` is running `xs` and then `ys` |
| `Runtime.ClaimKeptWithoutOwner` | src/proof_of_existence.rs:54-61 | a claim owned by `who` stays with `who` through any extrinsics that `who` did not submit |
| `Runtime.BalanceKeptWithoutOwner` | src/balances.rs:45-52 | an account's balance does not go down through any extrinsics that the account did not submit |
| `Runtime.ApplyBlock` | src/main.rs:29-30 | `execute_block`: every block raises the block number by exactly one. A block succeeds exactly when it declares the new number, whatever its extrinsics do, and then its extrinsics run in order from the advanced state. A refused block fails with the mismatch error and changes nothing else. Its nonce accounting is `BlockCountsNonces` |
| `Runtime.BlockCountsNonces` | src/main.rs:136-137 | an accepted block raises each account's nonce by the number of its extrinsics in the block; a refused block raises none |
| `Runtime.Runtime.constructor` | src/main.rs:33-37 | a new runtime owns one fresh instance of each of the three pallets, all in their initial state |
| `Runtime.Runtime.Dispatch` | src/main.rs:56-57 | the result and the new state are exactly those of `ApplyDispatch` on the old state |
| `Runtime.Runtime.ExecuteBlock` | src/main.rs:29-30 | the result and the new state are exactly those of `ApplyBlock` on the old state. The loop over the extrinsics is proved against `ApplyExtrinsics` |
| `Runtime.DemoScenario` | src/main.rs:60-139 | alice is seeded with 100, then blocks 1 to 3 run. All three blocks are accepted. After block 1, bob has 30 and charlie has 20. After block 2, alice owns the content. At the end the block number is 3, alice's nonce is 4, bob's nonce is 2, alice has 50 and bob owns the content |
| `Runtime.DemoBlock1` | src/main.rs:71-86 | from alice seeded with 100, block 1 is accepted: alice ends at 50, bob at 30 and charlie at 20, alice's nonce is 2 and the block number is 1 |
| `Runtime.DemoBlock2` | src/main.rs:89-105 | block 2 is accepted although bob's claim fails: alice owns the content, both nonces rise by one, and the balances are unchanged |
| `Runtime.DemoBlock3` | src/main.rs:108-124 | block 3 is accepted: alice's revoke runs before bob's claim, so bob ends as owner; both nonces rise by one |
| `Runtime.RunDemo` | src/main.rs:60-140 | the same demo on runtime objects returns the values the final assertions read: 3, 4, 2, 50 and bob as owner. Its body also proves that all three `execute_block` calls return `Ok`, as each `.expect` requires |

## Left out

- Console output: the `println!` of the final state and the `Debug` and other derives have no behaviour to model.
- The `macros` crate is not part of this model. `RuntimeCall`, `Runtime::new`, `execute_block` and the runtime and proof-of-existence dispatch matches are written by hand, as closed datatypes with exhaustive matches. The block-number check and its error text follow the generated runtime code, which is not part of this model.
- The per-extrinsic error report of the generated code is output only. The model discards the dispatch result.
- The generic `Config` traits, `PhantomData` and the `num` traits are compile-time plumbing. The model uses the concrete types of `main.rs`, with strings for accounts and content.
- The `Dispatch` trait has no Dafny counterpart here. The Balances and Proof-of-existence `Pallet` classes and the `Runtime` class each have a `Dispatch` method with the trait's signature: caller and call are separate arguments, the result is a `DispatchResult`, and the method may change its own pallet.
- System.Pallet.IncBlockNumber: block numbers are unbounded, so the panic that a `u32` `+=` overflow would raise is not modelled.
- System.Pallet.IncNonce: nonces are unbounded, so the panic that a `u32` `+=` overflow would raise is not modelled.
- The source's naming mismatch between `balances::Call::transfer` in `main.rs` and `Transfer` in `balances.rs` is a compile-level detail. The model has one transfer variant.
