# Kitties pallet, modelled in Dafny

A model of the kitties pallet of a Substrate runtime (`pallets/kitties/src/lib.rs`). Each
kitty is an NFT whose payload is a 16-byte DNA. The pallet has two layers:

- **Genetics** (`genetics.dfy`) models `impl Kitty`. A kitty's gender comes from its
  DNA: it is `Male` when the largest byte is even and `Female` otherwise. Breeding first
  checks that the two parents differ, then that their genders differ. The child's DNA is
  a hash of both parents' DNA, the random seed and the extrinsic index.
- **Pallet** (`pallet.dfy`) models the five dispatchables `create_kitty`, `breed_kitty`,
  `transfer_kitty`, `set_price` and `buy_kitty`. They are methods of the class
  `KittiesPallet`, which holds:
  - the NFT registry's token table and its id counter;
  - the `KittyExchange` listings;
  - the currency's balances;
  - the deposited events.

  Every dispatchable returns `Result<(), Error>`. Its postcondition gives the whole new
  state in each outcome, and every failure is stated as `unchanged(this)`.

All the methods keep one invariant, `ListingsMatchOwners`: every listing is for an
existing token and was put up by that token's current owner. So a stale listing cannot
arise from these dispatchables. `buy_kitty` is proved all-or-nothing, and it preserves the
currency's total issuance (`Ledger.Total`).

`types.dfy` holds the shared account, token and balance types and the `Error` enumeration.
`wrappers.dfy` defines `Option` and `Result`; `:-` stands for Rust's `?`.
`ledger.dfy` defines the sum of the balances and proves that a transfer preserves it.
`scenarios.dfy` holds client methods that replay the failing breeding calls of `can_breed`
in `tests.rs`, plus a sale after a refused self-purchase. Each outcome there is derived
from the contracts alone.

Three choices follow the pallet's code:
- Errors keep the pallet's own names (`KittyNotFound`, `KittyPartnerMissing`, …).
- A transfer of a missing token, to oneself or to another account, fails with the
  registry's `NftTokenNotFound`.
- `buy_kitty` does not re-check that the seller still owns the kitty. A stale listing
  would fail in the registry's transfer (`NftNoPermission`) and roll back; the model keeps
  that branch.

## Model

| member | source | states |
|---|---|---|
| Genetics.MaxByte | pallets/kitties/src/lib.rs:101 | `iter().max()` is `None` exactly on an empty array; otherwise it is an element of the array and no element is larger |
| Genetics.GenderFromDna | pallets/kitties/src/lib.rs:100-112 | a 16-byte DNA always has a maximum, so the `None` arm is unreachable; the gender is `Male` exactly when any largest byte is even |
| Genetics.Kitty.Gender | pallets/kitties/src/lib.rs:134-136 | a kitty's gender is `Male` exactly when its largest DNA byte is even |
| Genetics.ZeroDnaIsMale | pallets/kitties/src/tests.rs:31 | `[0; 16]` is male |
| Genetics.OneThenZerosDnaIsFemale | pallets/kitties/src/tests.rs:32-38 | `[1, 0, …, 0]` is female |
| Genetics.EnsureDifferentKitty | pallets/kitties/src/lib.rs:114-122 | succeeds exactly when the two DNAs differ in some byte; otherwise fails `KittyPartnerMissing` |
| Genetics.EnsureDifferentGender | pallets/kitties/src/lib.rs:124-132 | succeeds exactly when the parents' largest bytes have different parities; otherwise fails `KittyGendersNotCompatible` |
| Genetics.New | pallets/kitties/src/lib.rs:86-98 | never fails; the DNA is the hash of (owner, randomness for the owner, extrinsic index) |
| Genetics.Breed | pallets/kitties/src/lib.rs:138-155 | succeeds exactly for distinct parents of different genders; equal parents fail `KittyPartnerMissing` whatever their genders (this check comes first); distinct parents of one gender fail `KittyGendersNotCompatible`; the child's DNA is the hash of (first DNA, second DNA, random seed, extrinsic index) |
| Genetics.BreedByParity | pallets/kitties/src/lib.rs:138-142 | breeding outcome from the DNA alone: equal DNA gives `KittyPartnerMissing`; distinct DNA with largest bytes of equal parity gives `KittyGendersNotCompatible`; success exactly for distinct DNA of opposite parities |
| Ledger.TotalTransfer | pallets/kitties/src/lib.rs:330 | a transfer between two accounts debits the payer by the value, credits the payee by it, leaves every other account alone and keeps the total |
| Pallet.KittiesPallet.constructor | pallets/kitties/src/lib.rs:45-53 | after genesis there are no tokens, no listings and no events; the counter starts at 0 |
| Pallet.KittiesPallet.Kitties | pallets/kitties/src/lib.rs:210-218 | returns a kitty exactly when the token exists AND is owned by the given account (ownership-filtered, not existence-only), and that kitty is the token's payload |
| Pallet.KittiesPallet.OwnedBy | pallets/kitties/src/lib.rs:300-303 | the owner index holds (owner, id) exactly when the ownership-filtered lookup `kitties(owner, id)` finds a kitty, so `set_price` and `breed_kitty` authorise the same callers |
| Pallet.KittiesPallet.DepositEvent | pallets/kitties/src/lib.rs:160-162 | appends exactly one event |
| Pallet.KittiesPallet.NftMint | pallets/kitties/src/lib.rs:239 | assumed registry contract: the new id is fresh (no token had it), maps to (owner, kitty), and no other token changes |
| Pallet.KittiesPallet.NftTransfer | pallets/kitties/src/lib.rs:283 | assumed registry contract: a missing token fails `NftTokenNotFound`, then a non-owner sender fails `NftNoPermission`, each with no change; otherwise the owner becomes the receiver and the kitty stays |
| Pallet.KittiesPallet.CurrencyTransfer | pallets/kitties/src/lib.rs:330 | assumed KeepAlive contract: fails with no change unless the payer keeps at least the existential deposit after paying; otherwise moves exactly the value; the total is kept in every case |
| Pallet.KittiesPallet.CreateKitty | pallets/kitties/src/lib.rs:229-245 | the fresh id maps to (caller, new DNA); no earlier token, listing or balance changes; exactly one `KittyCreated` is appended; the lookup under the caller then returns the new kitty |
| Pallet.KittiesPallet.BreedKitty | pallets/kitties/src/lib.rs:248-271 | a parent that is absent or owned by someone else gives `KittyNotFound` with nothing changed; otherwise `Breed`'s error is returned with nothing changed, or the child is minted to the caller under a fresh id with exactly one `KittyBred` appended |
| Pallet.KittiesPallet.TransferKitty | pallets/kitties/src/lib.rs:275-290 | registry failures change nothing; a transfer to oneself succeeds and changes nothing (no event, listing kept); a transfer to someone else changes the owner, removes the listing and appends one `KittyTransfer` |
| Pallet.KittiesPallet.SetPrice | pallets/kitties/src/lib.rs:293-314 | a caller who does not own the token gets `KittyNotFound` with nothing changed; otherwise `Some(p)` sets the listing to exactly (caller, p), `None` removes it, other listings stay, and one `KittyPriceUpdated` is appended in both cases |
| Pallet.KittiesPallet.BuyKitty | pallets/kitties/src/lib.rs:317-338 | no listing gives `KittyNotForSale`; buying one's own kitty gives `CannotBuyOwnKitty` and the listing stays; each registry or currency failure leaves tokens, listings, balances and events unchanged; on success the buyer owns the kitty, the listing is gone, the price moves from buyer to seller and one `KittySold` is appended; the total balance is always kept |

## Left out

- Hashing and randomness: blake2_128, SCALE encoding, the randomness source and the
  extrinsic index are supplied by the caller as fields of `Genetics.Runtime`, and nothing
  is assumed about them. So the concrete DNA values in `tests.rs` are not reproduced. The
  model also does not exclude hash collisions: a child may share its DNA with a parent or
  with another kitty, and the pallet itself does not enforce DNA uniqueness either.
- FRAME plumbing is not modelled: `ensure_signed` (the caller is a parameter), weights,
  hooks, event metadata, serde derives, and the NFT class id (there is one class, created
  at genesis).
- `TokensByOwner` is not a separate map. It is read as `OwnedBy` over the token table,
  and orml_nft keeps the two in step.
- `KittyExchange` is a `ValueQuery` map of `Option<Listing>`. A key that stores `None`
  and a missing key both read as `None`, so the model uses one map in which an absent key
  means `None`.
- The event list holds only this pallet's events. The events of the system, the registry
  and the currency are left out.
- The `NextKittyId` counter and `KittyIdOverflow` behaviour exercised by `tests.rs` are not
  modelled. They belong to another variant of the pallet and do not exist in this `lib.rs`.
  The error variants `NoneValue`, `StorageOverflow`, `DuplicateKitty`, `KittyIdOverflow` and
  `CouldNotCreateKitty` are declared but never raised.
- `mock.rs` and the benchmark harness are not modelled; they hold no pallet logic.
- Pallet.KittiesPallet.NftMint: never fails. orml_nft's own failures are not modelled:
  its token-id counter overflowing, or the class missing. Its code is not part of this
  model.
- Pallet.KittiesPallet.CreateKitty: always succeeds, because `NftMint` never fails and
  `Kitty::new` never returns `Err`.
- Pallet.KittiesPallet.CurrencyTransfer: models only the payer's side. Not modelled:
  the currency's shortcut for a zero value, the check that the payee reaches the
  existential deposit, balance overflow, and locks and reserves. Balances are unbounded
  naturals. The currency's code is not part of this model.
