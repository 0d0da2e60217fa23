# Kitties and proof-of-existence pallets, modelled in Dafny

This project models two FRAME pallets of a Substrate node template.

**Kitties** (`kitties.dfy`, module `Kitties`) is a ledger of kitties. Its storage has four items:

- `Kitties`: index to 16-byte DNA.
- `KittyOwners`: index to owner.
- `KittyPrice`: index to an optional asking price.
- `KittiesCount`: the next index to allocate.

Every owned kitty is backed by a `PledgeQuantity` deposit reserved from its owner's balance. The storage items are the fields of the class `Kitties.Pallet`. Each dispatchable (`create`, `transfer`, `breed`, `ask`, `buy`) and each helper (`next_kitty_id`, `do_transfer`, `create_kitty`) is a method or function of that class. Each one checks its errors in the source's order and then writes storage in the source's order, except `buy`, which writes storage before its last check can still fail (see Findings). Its contract states, for every error condition, the error it returns and that nothing changed, except `buy`, whose failed pledge reservation keeps its earlier writes (see Findings). For success it states the whole new storage.

The class invariant `Valid()` has two parts:

- `Dense`: exactly the indices below the counter have a kitty, every kitty has an owner, and only kitties have prices.
- `EscrowBacked`: every account has exactly `PledgeQuantity` times the number of kitties it owns reserved.

Every dispatchable preserves `Valid()`, except `buy` when it fails (see Findings). The helper `do_transfer` keeps it when the sender owns the kitty, which is how `transfer` and `buy` call it.

The reservable currency is abstracted in `currency.dfy` (module `Currency`) as free and reserved balance maps with `reserve`, `unreserve` and `transfer`. This abstraction is an ASSUMPTION about the balances pallet, whose source is not part of this model:

- `reserve` fails when the free balance is below the amount.
- `unreserve` never fails and releases at most what is reserved.
- `transfer` fails when the payer's free balance is short, and touches only free balances.

The breeding crossover `(s & m) | (!s & f)` is in `genetics.dfy` (module `Genetics`). It is proved bit by bit: each child bit is parent m's bit where the selector bit is 1 and parent f's bit where it is 0. `breed`'s byte loop is the method `Genetics.Mix`. The randomness (`random_value`) is an input: the DNA passed to `Create` and the selector passed to `Breed`.

**Proof of existence** (`poe.dfy`, module `ProofOfExistence`) is a map from a byte-string proof to (owner, block number), with `create_proof`, `revoke_proof` and `transfer_proof`. The caller and the current block number are parameters. The invariant `Valid()` says that no stored proof is longer than `ProofLimit`.

`kitties_scenarios.dfy` and `poe_scenarios.dfy` are client methods. They replay the pallets' unit tests against the test runtime's values (PledgeQuantity 1; accounts 1 and 2 hold 20, accounts 3 to 5 hold 10, account 6 holds nothing). Each one checks the tests' assertions from the contracts alone.

Quirks of the code, modelled as written:

- `ask` checks that the kitty exists before it checks ownership.
- `ask` stores an explicit `None` price; the `kitty_price` getter reads that the same way as an absent entry.
- The counter refuses to allocate at its maximum rather than saturating.
- `buy` is not all-or-nothing (see Findings).
- `breed` does not check that the caller owns either parent.
- `buy` does not check that the buyer differs from the owner.

## Model

| member | source | states |
|---|---|---|
| `Kitties.Pallet.constructor` | pallets/kitties/src/lib.rs:41-73 | empty storage with the counter absent over genesis balances with nothing reserved; the invariant holds |
| `Kitties.Pallet.NextKittyId` | pallets/kitties/src/lib.rs:211-217 | fails with KittiesCountOverflow exactly when the counter (absent read as 0) is the index maximum; otherwise returns the counter, which then has room for +1 and, in a dense state, is not yet used by any kitty, owner or price |
| `Kitties.Pallet.CreateKitty` | pallets/kitties/src/lib.rs:229-240 | overflow → KittiesCountOverflow, unchanged; owner's free balance below the pledge → InsufficientBalance, unchanged (the reserve comes before any write); else id = old counter, DNA and owner stored under it, counter = id+1, pledge reserved on the owner; invariant preserved |
| `Kitties.Pallet.Create` | pallets/kitties/src/lib.rs:101-110 | as `create_kitty`, with the supplied random value as DNA |
| `Kitties.Pallet.DoTransfer` | pallets/kitties/src/lib.rs:219-227 | `to` short of the pledge → InsufficientBalance and nothing changes; else the pledge is reserved on `to`, then unreserved from `from`, and `to` is the owner; the invariant is kept when `from` owned the kitty |
| `Kitties.Pallet.Transfer` | pallets/kitties/src/lib.rs:113-126 | InvalidKittyId when the kitty is absent, then NotKittyOwner when the sender is not its owner, both changing nothing; otherwise `do_transfer`'s effect; invariant preserved |
| `Kitties.Pallet.Breed` | pallets/kitties/src/lib.rs:129-153 | SameKitties for equal parent ids (before lookup), InvalidKittyId when a parent is missing, both changing nothing; otherwise `create_kitty` for the caller with the child DNA equal to the crossover of the parents under the selector; caller ownership of the parents is not required |
| `Kitties.Pallet.Ask` | pallets/kitties/src/lib.rs:156-173 | InvalidKittyId, then NotKittyOwner, changing nothing; on success `kitty_price(id)` is the given optional price, every other price and all kitties, owners, counter and balances are unchanged |
| `Kitties.Pallet.Buy` | pallets/kitties/src/lib.rs:176-207 | InvalidKittyId (no owner), KittyNotForSale (no price), PriceTooLow (offer below the listed price), InsufficientBalance (buyer cannot pay), each changing nothing; then the listed price (not the offer) is paid to the owner, the price removed and the buyer made owner; if the buyer then cannot pledge, it fails leaving those writes; else the pledge moves from seller to buyer; invariant preserved on success |
| `Kitties.Pallet.BuyTransactional` | pallets/kitties/src/lib.rs:176-207 | `buy` with every write discarded on error: the same errors in the same order with nothing changed, the same successful effect, and the invariant preserved in every case |
| `Kitties.CounterCountsKitties` | pallets/kitties/src/lib.rs:211-217 | with ids allocated densely, the counter (an absent counter read as 0) equals the number of kitties stored, so it counts exactly the kitties created; the counter advances to id+1 at lib.rs:237 |
| `Kitties.Pallet.KittyPrice` | pallets/kitties/src/lib.rs:66-73 | the `kitty_price` getter: an absent entry reads as `None`, a stored entry (possibly an explicit `None`) as itself; in a dense state only an existing kitty can have a price |
| `Kitties.OwnedCountInsertFresh` | pallets/kitties/src/lib.rs:235-236 | recording a fresh kitty for an owner adds one to that owner's count of kitties and changes no other account's count |
| `Kitties.OwnedCountReassign` | pallets/kitties/src/lib.rs:224 | re-owning a kitty moves one unit of count from its old owner to the new one (nothing when they are equal) and changes no other count |
| `Kitties.EscrowAfterCreate` | pallets/kitties/src/lib.rs:229-237 | if every account had one pledge reserved per owned kitty, it still does after the creation's reserve and owner write |
| `Kitties.EscrowAfterMove` | pallets/kitties/src/lib.rs:219-227 | if every account had one pledge reserved per owned kitty, it still does after reserving on the new owner, unreserving from the old owner and re-owning the kitty |
| `Genetics.CrossByte` | pallets/kitties/src/lib.rs:144 | each bit of the byte formula (s AND m) OR (NOT s AND f) is m's bit where s's bit is set and f's bit where it is clear |
| `Genetics.Crossover` | pallets/kitties/src/lib.rs:143-145 | the same bit law for every bit of every one of the 16 DNA bytes |
| `Genetics.Mix` | pallets/kitties/src/lib.rs:141-145 | the loop that fills a zeroed 16-byte array byte by byte returns exactly the crossover |
| `Genetics.CrossoverUnique` | pallets/kitties/src/lib.rs:143-145 | any DNA that obeys the bit law is the crossover, so the child is determined by the selector and the parents |
| `Genetics.CrossoverSameParents` | pallets/kitties/src/lib.rs:143-145 | two parents with the same DNA yield that DNA under every selector |
| `Genetics.CrossoverMirror` | pallets/kitties/src/lib.rs:143-145 | swapping the parents and complementing the selector yields the same child |
| `Currency.Genesis` | pallets/kitties/src/mock.rs:87-89 | the genesis balances are the free balances and nothing is reserved |
| `Currency.Reserve` | pallets/kitties/src/lib.rs:233 | fails exactly when the free balance is below the amount; else moves the amount from free to reserved for that account and leaves every other account alone |
| `Currency.Unreserve` | pallets/kitties/src/lib.rs:222 | never fails; releases the amount, or all that is reserved if less, back to free; the account's total and every other account are unchanged |
| `Currency.Transfer` | pallets/kitties/src/lib.rs:183-191 | fails exactly when the payer's free balance is below the amount; else the payer's free balance loses and the payee's gains the amount (no change when they are the same), and no reserved balance or other account changes |
| `Currency.ReserveUnreserveRoundTrip` | pallets/kitties/src/lib.rs:221-222 | reserving then unreserving the same amount on the same account restores every account's balances |
| `Currency.ReserveKeepsHoldings` | pallets/kitties/src/lib.rs:233 | a reservation leaves every account's free plus reserved total unchanged |
| `KittiesScenarios.NewMockPallet` | pallets/kitties/src/mock.rs:28-97 | the test runtime's pallet: pledge 1 (line 33), accounts 1 and 2 with 20 free, accounts 3 to 5 with 10, account 6 with nothing (line 88), nothing reserved, empty storage |
| `ProofOfExistence.Pallet.constructor` | pallets/poe/src/lib.rs:26-33 | an empty `Proofs` map under the configured length limit; the invariant holds |
| `ProofOfExistence.Pallet.CreateProof` | pallets/poe/src/lib.rs:58-73 | ProofExceedsLengthLimit when the proof is longer than the limit, checked first, then ProofAlreadyExist when it is claimed, both changing nothing; else (caller, current block) is stored under the proof and no other key changes; no stored proof exceeds the limit |
| `ProofOfExistence.Pallet.RevokeProof` | pallets/poe/src/lib.rs:76-87 | ProofNotExist when unclaimed, NotProofOwner when claimed by someone else, both changing nothing; else the key is removed and no other key changes |
| `ProofOfExistence.Pallet.TransferProof` | pallets/poe/src/lib.rs:90-105 | the same two errors, changing nothing; else the entry becomes (to, current block), refreshing the block number, and no other key changes |
| `PoeScenarios.CreateThenRevokeRestores` | pallets/poe/src/tests.rs:44-52 | for any state, a fresh proof within the limit created and then revoked by the same caller leaves the map exactly as before |

## Left out

- `random_value` is not modelled (pallets/kitties/src/lib.rs:242-249). It is a blake2_128 hash of the randomness seed, the sender and the extrinsic index. Its result is an input: `randomValue` for `Create` and `selector` for `Breed`.
- The balances pallet is not part of this model. Its existential deposit, account reaping, locks, `KeepAlive`/`AllowDeath` and balance overflow are not modelled. `Currency` is the assumed abstraction.
- `Currency.Transfer`, for a payment to oneself, requires a sufficient free balance and then changes nothing. Whether the balances pallet checks the balance in that case is not visible here.
- Events (`deposit_event`) are not modelled.
- Weights, hooks, storage hashers and SCALE encoding are not modelled.
- `ensure_signed` is not modelled; the signed account is a parameter. The BadOrigin error for an unsigned origin is therefore not modelled either. `create_proof` checks the origin only after its length and duplicate checks.
- `AccountId`, `Balance` and `BlockNumber` are unbounded naturals; the test runtimes use u64, u128 and u64.
- `KittyIndex` is fixed to u32, as in the test runtime; the source is generic over any `AtLeast32Bit` index.
- `Kitties` and `KittyOwners` are stored as `Option<..>` values, but the pallet only ever inserts `Some`. They are modelled as plain maps, where an absent key plays the role of `None`.
- Host rollback of a failed dispatch is not assumed for any dispatchable. Every operation except `buy` writes storage only after its last fallible step, so rollback would not change them: their contracts state that every error leaves storage unchanged. `buy` is modelled both ways; see Findings.
- `ProofLimit` is a parameter. The proof-of-existence test runtime is not part of this model; its scenarios use a limit of 255, which the 256-byte test proof exceeds.
- Kitties.Pallet.Buy: it preserves the escrow invariant only when it succeeds. The code as written keeps its payment and owner writes when the buyer's pledge reservation fails.
- No other pallet reserves, unreserves or slashes the balances in `Currency`. In the runtime the unnamed reserve is shared by every pallet, and `unreserve` at pallets/kitties/src/lib.rs:222 releases from that shared pool. The equality in `EscrowBacked` (reserved = PledgeQuantity × kitties owned) holds only under this closed-world assumption.
- frontend/src/Kitties.js is not part of this model: it is a user interface.

## Findings

| source | as written | input that shows it | evidently intended | confidence | as-written member | corrected member |
|---|---|---|---|---|---|---|
| pallets/kitties/src/lib.rs:183-195 | `buy` pays the seller, removes the price and records the buyer as owner before `do_transfer` reserves the buyer's pledge, which can fail; no transactional marker undoes those writes | test runtime: account 1 creates kitty 0 and asks `Some(10)`; account 3 (free 10) calls `buy(0, 10)`. The payment leaves account 3 with 0 free, so the pledge reservation fails. Account 3 now owns kitty 0 with nothing reserved, account 1 has been paid and still has 1 reserved for a kitty it no longer owns, and the listing is gone | an all-or-nothing `buy`: on any error nothing changes, and the pledge always follows the owner | medium (depends on the host not rolling back failed dispatches); not executed | `Kitties.Pallet.Buy` (exhibited by `KittiesScenarios.BuyLeavesKittyUnbackedWhenPledgeFails`) | `Kitties.Pallet.BuyTransactional` (exhibited by `KittiesScenarios.BuyTransactionalRollsBackWhenPledgeFails`) |
