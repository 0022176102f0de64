# SimpleToken ledger, in Dafny

This project models the ink! contract `SimpleToken`, a minimal fungible-token
ledger. The contract's storage holds a balance mapping from `AccountId` to
`Balance` and a `total_supply` that is set once, at construction. Construction
credits the whole supply to the caller. `total_supply` and `balance_of` are
read-only queries, and `balance_of` reads a missing entry as 0. `transfer`
moves `value` units from the caller to `to`. It refuses with
`InsufficientBalance` when the caller holds less than `value`.

Two modules:

- `Ledger` (ledger.dfy) defines the state as values. `AccountId` is 32 bytes
  and `Balance` is a `u128`. The module defines the default-zero lookup
  `BalanceOf`, the constructor's mapping `Genesis` and the transition
  `Transfer`. The ghost function `Sum` adds up all balances. The lemmas about
  these definitions cover conservation, the self-transfer case and the absence
  of overflow.
- `SimpleTokenContract` (simple_token.dfy) holds the class `SimpleToken`. Its
  two fields are updated in place. Each member is proved against the `Ledger`
  definitions. The ghost predicate `Conserved()` is the conservation law: the
  balances sum to `totalSupply`. The module also has client methods that
  replay the contract's unit tests on the class.

The host's `env().caller()` becomes an explicit `caller` parameter of the
constructor and of `Transfer`.

**Self-transfer.** `transfer` reads both the sender's and the recipient's
balance before it writes either. When `to` is the caller, the second write
(`to_balance + value`) overwrites the first. The account ends at its old
balance plus `value`, and `value` new units exist that no supply accounts for.
The model follows the code here (`Ledger.SelfTransferInflates`,
`SimpleTokenContract.SelfTransferMints`). One might expect a self-transfer
to be a no-op; the code does not make it one. Conservation is therefore
proved only for transfers between distinct accounts.

## Model

| member | source | states |
|---|---|---|
| `Ledger.BalanceOf` | lib.rs:35-37 | an account with an entry reads its stored balance; an account without one reads 0 |
| `Ledger.Genesis` | lib.rs:22-26 | the constructor's mapping credits the whole supply to the caller; every other account reads as 0 |
| `Ledger.GenesisConserves` | lib.rs:22-26 | the constructor's mapping sums to exactly the supply, so conservation holds from construction on |
| `Ledger.BalanceBounded` | lib.rs:35-37 | no account's balance exceeds the sum of all balances |
| `Ledger.Transfer` | lib.rs:40-52 | succeeds iff `value` is at most the sender's balance; on refusal returns `InsufficientBalance` with the mapping unchanged; on success between distinct accounts debits the sender by `value` and credits the recipient by `value`; on a self-transfer leaves the account at its old balance plus `value`; never changes any third account |
| `Ledger.TransferConserves` | lib.rs:42-49 | a transfer between distinct accounts leaves the sum of all balances unchanged |
| `Ledger.SelfTransferInflates` | lib.rs:42-49 | a self-transfer of `value` that is at most the balance succeeds, leaves the account at its old balance plus `value`, and raises the sum of all balances by `value` |
| `Ledger.ConservedCreditFits` | lib.rs:46-49 | when the balances sum to a `u128` supply, the credit `to_balance + value` of a successful transfer between distinct accounts is at most that supply, so it fits in a `u128` |
| `SimpleTokenContract.SimpleToken.constructor` | lib.rs:22-26 | `new` stores the supply, builds the `Genesis` mapping for the caller and establishes conservation |
| `SimpleTokenContract.SimpleToken.TotalSupply` | lib.rs:30-32 | reads the stored supply, which the constructor sets and `Transfer` never writes; in a conserved state that value is the sum of all balances (the clause restates `Conserved()` for callers of the getter) |
| `SimpleTokenContract.SimpleToken.BalanceOf` | lib.rs:35-37 | an account with an entry reads its stored balance and one without reads 0; while conservation holds no account reads more than the total supply |
| `SimpleTokenContract.SimpleToken.Transfer` | lib.rs:40-52 | returns the outcome and leaves the mapping that `Ledger.Transfer` gives for the old mapping; writes only `balances`, so `totalSupply` is unchanged; keeps conservation when sender and recipient differ |
| `SimpleTokenContract.TotalSupplyWorks` | lib.rs:60-63 | a token created with 100 units reports a total supply of 100 |
| `SimpleTokenContract.BalanceOfWorks` | lib.rs:66-72 | after creation by Alice with 100 units, Alice holds 100 and Bob holds 0 |
| `SimpleTokenContract.TransferWorks` | lib.rs:75-83 | Alice's transfer of 10 to Bob succeeds and leaves 90 and 10 |
| `SimpleTokenContract.OverdraftRefused` | lib.rs:43-45 | a following transfer of 1000 is refused with `InsufficientBalance` and the balances stay 90 and 10 |
| `SimpleTokenContract.SelfTransferMints` | lib.rs:42-49 | Alice's transfer of 10 to herself succeeds and leaves her 110 while the total supply stays 100 |

## Left out

- The ink! attributes `#[ink::contract]`, `#[ink(storage)]`, `#[ink(constructor)]` and `#[ink(message)]` are message dispatch and ABI plumbing for the host, so they are not modelled.
- The host's `env().caller()` is an ambient lookup; the model passes the caller as a parameter instead.
- The storage encoding of `ink::storage::Mapping` and the `scale` and `scale_info` derives are host storage formats. The mapping is a Dafny `map` with default-zero lookup.
- `#[derive(Default)]` on the storage struct is left out; only the `new` constructor creates a token.
- The account set of the off-chain test environment is left out. Its first two accounts appear only as the constants `ALICE` and `BOB` of the client methods.
- SimpleTokenContract.SimpleToken.Transfer: requires that the credit `to_balance + value` fits in a `u128` (`CreditFits`), because an overflow's outcome depends on the build profile (a panic that reverts the call, or wrap-around). For distinct accounts in a conserved state this always holds (`Ledger.ConservedCreditFits`). A self-transfer can still overflow, because it adds `value` to a balance that was never debited. That case is outside the model.
- Ledger.Transfer: carries the same `CreditFits` requirement, for the same reason.
