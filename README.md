# Farm seed record of the ref-farming contract

This is a Dafny model of `ref-farming/src/farm_seed.rs`, the per-seed record of a
token-farming contract. Each staking token identity ("seed") has one record. The
record holds the seed id, the seed type (FT, MFT or NFT), the set of farms that
accept the seed, the counter for the next farm index, the aggregate staked
amount, the minimum deposit, an optional map of NFT balances and optional
display metadata.

The model has three modules:

- `Wrappers` (`wrappers.dfy`): `Option`, with Rust's `unwrap_or`.
- `SeedLedger` (`seed_ledger.dfy`): the balance accounting on values. `Step` is
  one `add_amount` or `sub_amount` call, and it yields `None` when the call aborts.
  `Replay` runs a history of such calls.
  The conservation lemmas compare `Replay` with the reference definition
  `Net` = start + Σadds − Σsubs.
- `FarmSeeds` (`farm_seed.dfy`):
  - `Classify`, the seed classification done inside `FarmSeed::new`.
  - `FarmSeed`, a class whose `AddAmount` and `SubAmount` update `amount` in place.
    A ghost `history` of the balance calls and the invariant `Valid()` tie
    `amount` to `Replay(0, history)`.
  - `VersionedFarmSeed`, the one-version envelope `V101`, which holds a reference
    to the record. `GetRefMut` returns the same reference as `GetRef`, so a change
    made through one is seen through the other.
  - `SeedInfo` and `SeedInfo.From`, the query view.
  - `StakeThroughEnvelope`, a caller's walk through one record's life
    (create → upgrade → add 500 → sub 200 → view), shown from the contracts alone.

Integers are unbounded. `Balance` is the subset of naturals below 2^128, and
`U32` is the subset below 2^32. The JSON `U128` wrapper is the same integer as
`Balance`.

`utils::parse_seed_id` is not part of this model. Every operation that needs it
takes it as a parameter `parse: SeedIdParser`. Nothing is assumed about the
separator it uses.

## Model

| member | source | states |
|---|---|---|
| `FarmSeeds.Classify` | ref-farming/src/farm_seed.rs:61-69 | the type is NFT exactly when an NFT balance map is supplied; otherwise FT exactly when the parsed token id equals the parsed token index, and MFT exactly when they differ |
| `FarmSeeds.NftBalanceOverridesIdentifier` | ref-farming/src/farm_seed.rs:63-64 | with a balance map supplied, neither the seed id nor the parser affects the type |
| `FarmSeeds.FarmSeed.constructor` | ref-farming/src/farm_seed.rs:55-80 | `new` classifies the seed and sets amount 0, next index 0 and no farms; it copies seed id, min deposit, NFT balances and metadata verbatim; the new record satisfies the invariant |
| `FarmSeeds.FarmSeed.AddAmount` | ref-farming/src/farm_seed.rs:82-84 | amount rises by exactly the argument; the call is appended to the history; every other field is unchanged; the invariant is kept |
| `FarmSeeds.FarmSeed.SubAmount` | ref-farming/src/farm_seed.rs:86-91 | callable only when the argument is at most the amount; amount falls by exactly the argument and the new amount is returned; every other field is unchanged; the invariant is kept |
| `FarmSeeds.BalanceIsDepositsMinusWithdrawals` | ref-farming/src/farm_seed.rs:82-91 | for a record in its invariant, amount equals all additions minus all subtractions since construction, and the subtractions never exceed the additions |
| `SeedLedger.ReplayConserves` | ref-farming/src/farm_seed.rs:82-91 | a history of add/sub calls runs without abort exactly when every prefix keeps start + Σadds − Σsubs within [0, 2^128); it then ends at start + Σadds − Σsubs |
| `SeedLedger.Step` | ref-farming/src/farm_seed.rs:82-91 | one `add_amount` or `sub_amount` call succeeds exactly when the balance moved by its signed argument stays in [0, 2^128), and then yields that balance |
| `SeedLedger.ReplayAppend` | ref-farming/src/farm_seed.rs:82-91 | one more call after a history acts on the balance that history reached, and an aborted history stays aborted |
| `SeedLedger.AddThenSubRestores` | ref-farming/src/farm_seed.rs:82-91 | `add_amount(a)` followed by `sub_amount(a)` gives back the starting balance |
| `SeedLedger.OverdrawAborts` | ref-farming/src/farm_seed.rs:88 | a subtraction larger than the current balance aborts, whatever history came before |
| `FarmSeeds.VersionedFarmSeed.New` | ref-farming/src/farm_seed.rs:106-113 | the wrapped record is freshly allocated, is in exactly the state `FarmSeed::new` gives for the same arguments, and satisfies the invariant |
| `FarmSeeds.VersionedFarmSeed.Upgrade` | ref-farming/src/farm_seed.rs:115-120 | upgrading a current envelope returns it unchanged, and the result needs no upgrade |
| `FarmSeeds.VersionedFarmSeed.NeedUpgrade` | ref-farming/src/farm_seed.rs:122-129 | true exactly when the envelope is not at the current version V101 |
| `FarmSeeds.VersionedFarmSeed.GetRef` | ref-farming/src/farm_seed.rs:131-138 | the result is the record the current-version envelope wraps |
| `FarmSeeds.VersionedFarmSeed.GetRefMut` | ref-farming/src/farm_seed.rs:140-147 | the result is the same reference as `GetRef`, so changes through it are seen by `GetRef` |
| `FarmSeeds.UpgradeIdempotent` | ref-farming/src/farm_seed.rs:115-120 | upgrading twice is the same as upgrading once, and the wrapped record stays the same |
| `FarmSeeds.SeedTypeName` | ref-farming/src/farm_seed.rs:167-171 | the type's name is "FT", "NFT" or "MFT", and each name belongs to exactly one type |
| `FarmSeeds.CollectFarms` | ref-farming/src/farm_seed.rs:179 | the sequence holds exactly the set's farm ids with no duplicates, so its length is the set's cardinality |
| `FarmSeeds.SeedInfo.From` | ref-farming/src/farm_seed.rs:165-197 | seed id, next index, amount, min deposit and NFT balances are copied unchanged; the type is named; the farms are listed exactly once each; title and media are always present, equal to the metadata field when it is there, and "" otherwise |
| `Wrappers.Option.UnwrapOr` | ref-farming/src/farm_seed.rs:181-182 | the wrapped value when present, the default otherwise |

## Left out

- The code of `utils::parse_seed_id`: it is not part of this model, so it is a parameter.
- Borsh and serde serialization, and the string encoding of `U128` in JSON: these are library code, and `U128` is the same integer here.
- The `ERR500` message and the panic format: the assertion at line 88 is only a precondition.
- The iteration order of `HashSet` and `HashMap`: `CollectFarms` promises only set equality, no duplicates and the length, not an order.
- The `_ => true` and `_ => unimplemented!()` arms (lines 127, 136, 145): with one version they cannot be reached, and no second version is invented.
- `FarmSeeds.Classify`: how an identifier is split belongs to `parse_seed_id`. The model compares that function's two results and fixes no separator.
- `FarmSeeds.FarmSeed.SubAmount`: a subtraction above the balance fails the `assert!` at line 88 and aborts the whole call. That case is the method's precondition, and it is `None` from `Step` and `Replay`.
- `FarmSeeds.FarmSeed.AddAmount`: it requires `amount + a < 2^128`, so the method says nothing about a call that would overflow. Line 83 has no check of its own.
- `SeedLedger.Step`: an addition that reaches 2^128 is taken as an abort, as Rust does with overflow checks enabled. A build that wraps around instead is not modelled. `Replay` and `ReplayConserves` rest on the same reading.
- The rule tying farm ids to `next_index`, and the increment of `next_index`: neither happens in this file. Farm creation, rewards, the seed registry and authorization live elsewhere.
- The test-only `Clone` derive.
