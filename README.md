# jupiter-amm-interface core, modelled in Dafny

This project models the venue-agnostic, executable core of `src/lib.rs` in
the Jupiter AMM interface: the contract that lets a Solana swap aggregator
treat many liquidity venues (AMMs, order books, pools) alike. It covers:

- `SwapMode` and its exact-match string parser (`SwapModes`, `swap_mode.dfy`);
- the `AccountMap` lookups `try_get_account_data` and
  `try_get_account_data_and_owner` (`AccountMaps`, `account_map.dfy`);
- `KeyedAccount` and its projection to `Market` (`Markets`, `market.dfy`);
- the shared clock `ClockRef`: five heap cells behind shared handles, its
  constructors, `update`, and the aliasing of clones (`Clocks`, `clock_ref.dfy`);
- `QuoteParams`, `Quote`, `SwapParams` and its placeholder account meta,
  `AmmContext`, and the default answers of the `Amm` interface's optional
  capability queries (`Amm`, `amm.dfy`).

Supporting modules: `Wrappers` (Option, Result), `Sdk` (fixed-width
integers, 32-byte `Pubkey`, `Account`, `AccountMeta`, `Clock`), `Json`
(the loosely typed `params` value) and `Errors` (the error cases the core
raises, each carrying what it names).

Modelling decisions:

- `u64`, `i64` and `usize` are subset types of `int` with their Rust ranges;
  no arithmetic happens in the core, so no wrap-around arises.
- An `Amm` implementation is modelled by `Amm.AmmOverrides`: for each optional
  capability query, `Some(answer)` if the implementation overrides the
  interface's default body and `None` if it inherits it. The query functions
  give the answer the interface's dispatch would produce. The overriding answer
  is modelled as fixed per venue value, since a real override may read `self`
  but no override is part of this code.
- `ClockRef` is a class whose five `const` fields point at `Atomic` cell
  objects, one per `Arc<Atomic…>`. `Clone` is a constructor that copies the
  five references, so a clone and its original share the cells. `Valid()`
  states that the three `u64` cells of one handle are pairwise distinct and
  so are its two `i64` cells, as `From<Clock>` and `Default` allocate them;
  a `u64` cell and an `i64` cell are distinct by type. `Update` needs it so
  that its stores do not overwrite one another.
- `QuoteParams` has no fee-mode field, `Quote` carries `min_in_amount` and
  `min_out_amount`, and lookups go through the concrete `AccountMap` (a map).

## Model

| member | source | states |
|---|---|---|
| `SwapModes.Default` | src/lib.rs:20-25 | the default swap mode is the one named "ExactIn" |
| `SwapModes.FromStr` | src/lib.rs:27-37 | parsing succeeds exactly on "ExactIn" and "ExactOut", yields the mode with that name, and otherwise fails with an error carrying the rejected string |
| `SwapModes.FromStrName` | src/lib.rs:30-36 | parsing a mode's name gives that mode back |
| `SwapModes.FromStrInjective` | src/lib.rs:30-36 | two strings that parse to the same mode are equal |
| `SwapModes.FromStrRejectsNearMisses` | src/lib.rs:31-34 | "exactin", "EXACTOUT", "" and "ExactIn " are rejected, each error naming its input |
| `SwapModes.EachModeHasOneStringForm` | src/lib.rs:30-36 | every mode is the parse of some string, and of no string but its name |
| `SwapModes.ErrorMessage` | src/lib.rs:34 | the message a swap-mode parse error renders as starts with the rejected input |
| `SwapModes.RejectionMessageNamesInput` | src/lib.rs:31-34 | the error `FromStr` returns for a rejected string renders as a message that starts with that string |
| `SwapModes.ErrorMessageInjective` | src/lib.rs:34 | distinct parse errors render as distinct messages |
| `AccountMaps.TryGetAccountData` | src/lib.rs:99-104 | succeeds iff the address is a key of the map, then returns exactly that account's data; otherwise the not-found error carries the queried address |
| `AccountMaps.TryGetAccountDataAndOwner` | src/lib.rs:106-114 | succeeds iff the address is a key, then returns that account's data and owner; otherwise not-found carrying the address |
| `AccountMaps.LookupsAgree` | src/lib.rs:99-114 | the two lookups succeed together, return the same data, and fail with the same error |
| `AccountMaps.LookupsSeeOnlyTheirAddress` | src/lib.rs:99-114 | a lookup's answer depends only on the map's entry at the queried address |
| `Markets.MarketFrom` | src/lib.rs:227-241 | the market's pubkey is the account's key, its owner the account's owner, its params the keyed account's params |
| `Markets.MarketIgnoresAccountPayload` | src/lib.rs:227-241 | replacing the account by any account with the same owner leaves the market unchanged: data, lamports, executable flag and rent epoch are dropped |
| `Markets.MarketEqualIff` | src/lib.rs:227-241 | two keyed accounts give the same market iff key, owner and params agree |
| `Clocks.Atomic.constructor` | src/lib.rs:323-327 | a new cell holds exactly the given value |
| `Clocks.Atomic.Load` | src/lib.rs:292-298 | a load returns the cell's current value |
| `Clocks.Atomic.Store` | src/lib.rs:302-317 | a store sets the cell's value and changes nothing else |
| `Clocks.ChangedFieldsExact` | src/lib.rs:302-317 | a clock field is reported as changed between two readings exactly when its values differ |
| `Clocks.ClockRef.FromClock` | src/lib.rs:320-330 | five freshly allocated, distinct cells hold exactly the clock's slot, epoch start timestamp, epoch, leader schedule epoch and unix timestamp |
| `Clocks.ClockRef.Default` | src/lib.rs:290-299 | five fresh distinct cells, all holding zero |
| `Clocks.ClockRef.Clone` | src/lib.rs:290-299 | the clone points at the very same five cells as the original |
| `Clocks.ClockRef.Update` | src/lib.rs:302-317 | afterwards each cell holds the matching field of the new clock; only the five cells are modified |
| `Clocks.Observe` | src/lib.rs:290-299 | loading the five cells of a handle yields the reading the cells hold |
| `Clocks.UpdateSeenThroughSharedHandle` | src/lib.rs:290-317 | an update through one handle is read back exactly through any handle holding the same five cells (a clone, a clone of a clone, of either a default or a converted handle) |
| `Clocks.CloneObservesUpdate` | src/lib.rs:290-317 | after an update through either a clone or its original, both handles read exactly the new clock |
| `Clocks.UpdateIdempotent` | src/lib.rs:302-317 | updating twice with a clock reads the same as updating once, namely that clock |
| `Clocks.UpdateChangesOnlyDiffering` | src/lib.rs:302-330 | after an update the handle reads exactly the new clock, so (by `ChangedFieldsExact`) only the fields in which it differs from the old reading change |
| `Clocks.UpdateExample` | src/lib.rs:302-330 | from slot 10, epoch 2, timestamps 1000 and 900, leader schedule epoch 3, an update to slot 11 and timestamp 1001 changes only slot and unix timestamp |
| `Clocks.DefaultIsZero` | src/lib.rs:290-299 | a default clock handle reads zero in all five fields |
| `Sdk.NewReadonly` | src/lib.rs:82 | the meta's pubkey and signer flag are as given, and it is never writable |
| `Amm.PlaceholderAccountMeta` | src/lib.rs:78-84 | the placeholder meta's key is the aggregator's program id, and it is neither writable nor a signer |
| `Amm.PlaceholderDependsOnlyOnProgramId` | src/lib.rs:81-83 | two swap parameter sets give the same placeholder iff their program ids are equal |
| `Amm.HasDynamicAccounts` | src/lib.rs:152-155 | the overriding answer if any, else false |
| `Amm.RequiresUpdateForReserveMints` | src/lib.rs:157-160 | the overriding answer if any, else false |
| `Amm.SupportsExactOut` | src/lib.rs:162-165 | the overriding answer if any, else false |
| `Amm.GetUserSetup` | src/lib.rs:167-169 | the overriding answer if any, else no setup |
| `Amm.Unidirectional` | src/lib.rs:173-176 | the overriding answer if any, else false |
| `Amm.ProgramDependencies` | src/lib.rs:178-181 | the overriding answer if any, else the empty list |
| `Amm.GetAccountsLen` | src/lib.rs:183-185 | the overriding answer if any, else 32 |
| `Amm.UnderlyingLiquidities` | src/lib.rs:187-194 | the overriding answer if any, else none |
| `Amm.IsActive` | src/lib.rs:196-200 | the overriding answer if any, else true |
| `Amm.InheritedDefaults` | src/lib.rs:153-200 | a venue overriding nothing answers false, false, false, no setup, false, no dependencies, 32, no liquidities, and active |

## Left out

- The required `Amm` operations (`from_keyed_account`, `label`, `program_id`, `key`, `get_reserve_mints`, `get_accounts_to_update`, `update`, `quote`, `get_swap_and_account_metas`, `clone_amm`) and the `Clone` of a boxed venue that delegates to `clone_amm`: the interface gives these operations no body, so there is no behaviour to model.
- `quote_with_current_token_balance`: its default body is `todo!()`, an unconditional panic; panics are not modelled.
- A rule that callers must not request ExactOut from a venue whose `supports_exact_out` is false: the source neither enforces nor states such a rule; only the capability query exists.
- `KeyedUiAccount` and its conversions to and from `KeyedAccount`: they rest on base64 account encoding and decoding, base58 key formatting and parsing from the Solana libraries, and a panic on decode failure.
- `Swap`, `SwapAndAccountMetas` and the remaining-accounts types of `src/swap.rs`: declarations with no operations.
- The serde helpers (`field_as_string`, `option_field_as_string`), the camelCase renaming of `Market` and its JSON deserialisation test: serialisation-library behaviour.
- `Quote.fee_pct` (an external decimal type) and the derived `Default` of `Quote`.
- The `ahash` hasher behind `AccountMap` and `QuoteMintToReferrer`: both are plain maps here.
- The text of the not-found error: `Errors.AccountNotFound` carries the address, but its rendering uses the base58 `Display` of `Pubkey`, which is not part of this model.
- Clocks.ClockRef.Update: a handle whose same-typed fields share one cell (which Rust allows, since the fields are public) is excluded by `Valid()`; for such a handle the last store to the shared cell would win, and the model does not promise that.
- Atomicity and memory ordering of the clock cells: a single sequential writer is modelled, so `Relaxed` ordering and torn reads across fields under a concurrent update are not captured.
- `Json.Value` numbers are integers; `params` is carried but never inspected, so the floating-point numbers of JSON make no difference.
