# RGB20 supply records, in Dafny

This project models the supply module of the RGB20 fungible-asset library (`src/supply.rs`). The module defines four immutable records:

- `Supply`: the summary of known circulating supply, with a tri-state completeness flag and the issue limit.
- `Issue`: one primary (genesis) or secondary (inflation) issuance, together with the inflation rights it assigns onwards.
- `Epoch`: one burn & replace window.
- `BurnReplace`: one burn or burn-and-replace operation inside an epoch.

The module also holds the logic that derives these records from already-validated contract operations. The main part of that logic is the fold that groups an operation's inflation assignments by resolved seal.

Everything is written as pure functions over immutable datatypes, and errors are a `Result`:

- `wrappers.dfy` (`Wrappers`) defines `Option` and `Result`.
- `operations.dfy` (`Operations`) is the slice of a validated operation that the module reads:
  - opaque identifiers, outpoints and seals;
  - metadata as a map from field tag to a list of `u64` values;
  - owned rights as either `Confidential` or `Revealed` (seal, amount) lists;
  - the transition type tag;
  - the accessors `metadata().u64(f).first()`, `owned_rights_by_type(..).map(as_revealed_owned_value)` and `revealed_seals_by_type(..).first()`.
- `asset_error.dfy` (`AssetError`) holds the error kinds.
- `inflation.dfy` (`InflationFold`) holds the inflation-assignment fold (`Aggregate`), its fallible genesis variant (`TryAggregate`) and its functional specification (`Summarises`), with the lemmas about them.
- `issue.dfy` (`Issues`), `epoch.dfy` (`Epochs`), `burn_replace.dfy` (`BurnReplacement`) and `supply.dfy` (`SupplyMeasures`, `SupplyState`) hold the records and their constructors.

Seal resolution belongs to the underlying RGB and bitcoin libraries, so the caller supplies it as a function parameter:

- `revealSeal: (Seal, Txid) -> OutPoint` stands for `to_outpoint_reveal` against the witness transaction. It is total.
- `resolve: Seal -> Option<OutPoint>` stands for `OutPoint::try_from` on a genesis seal. It may fail.

Amounts are `u64` (`AtomicValue`) and assignment indices are `u16` (`U16`), both as subset types of `int`.

The source's own comments and its code disagree in one place, and the model follows the code:

- The doc comment on `supply_change` (src/supply.rs:488-490) says that for a pure burn `replaced_amount` is set to 0. The code (src/supply.rs:542-547) instead reads the issued-supply field for every transition type, and fails with `UnsatisfiedSchemaRequirement` when it is absent. So a pure burn without that field is rejected, and a pure burn carrying a non-zero issued-supply value stores it as `replaced_amount` and subtracts it from the burned amount.

The epoch constructor (src/supply.rs:382-395) reports `EpochSealConfidential` or `BurnSealConfidential` only when the right is blinded. A right type with no assignment at all simply leaves the corresponding seal absent.

## Model

| member | source | states |
|---|---|---|
| SupplyState.TotalCirculating | src/supply.rs:127-133 | the exact circulating supply is reported, and equals the known circulating figure, exactly when `is_known` is `Some(true)`; both `None` and `Some(false)` give nothing |
| SupplyState.SupplyWith | src/supply.rs:111-121 | the crate-private constructor stores the three figures unchanged, so the built summary reports a total exactly when it was built with `Some(true)` |
| SupplyMeasures.Discriminant | src/supply.rs:31-45 | every measure's `repr(u8)` discriminant is within the declared range 0 to 2; which measure carries which value (`KnownCirculating = 0`, `TotalCirculating = 1`, `IssueLimit = 2`) is pinned down together with `FromDiscriminant` by `DiscriminantRoundTrip` |
| SupplyMeasures.FromDiscriminant | src/supply.rs:31-45 | the `u8` discriminants 0, 1 and 2, and only they, name a supply measure; this inverse of the `as u8` cast has no counterpart in the library and serves the round-trip lemma |
| SupplyMeasures.DiscriminantRoundTrip | src/supply.rs:31-45 | decoding a measure's discriminant gives back that measure, and a discriminant decodes only to the measure that carries it |
| Issues.IsSecondary | src/supply.rs:237-246 | an issue is secondary exactly when it is not primary, where `Issues.IsPrimary` (`is_primary`, lines 237-239) holds exactly when `closes` is empty |
| Issues.PrimaryXorSecondary | src/supply.rs:237-246 | exactly one of primary and secondary holds of every issue |
| Issues.IssueWith | src/supply.rs:191-233 | a missing issued-supply value gives `UnsatisfiedSchemaRequirement`, checked first; blinded inflation rights then give `InflationAssignmentConfidential` with the transition's id; otherwise the issue has the transition's id, the caller's contract id and `closes`, the first issued-supply value as amount, `Some(witness)`, and an inflation map that summarises the assignments resolved against the witness |
| Issues.IssueFromGenesis | src/supply.rs:257-297 | the same two errors in the same order, then any genesis seal that fails to resolve aborts with the resolution error; on success the issue is primary, has empty `closes`, no witness, the genesis ids and first issued-supply value, and an inflation map that summarises the resolved assignments |
| Issues.GenesisWithoutInflation | src/supply.rs:257-297 | a genesis issuing 1000 with no inflation right yields the primary issue of 1000 with empty `closes`, an empty inflation map and no witness |
| InflationFold.Accumulate | src/supply.rs:215-222 | one fold step adds the amount and appends the index to the seal's entry, creating it as (0, []) when absent, and leaves every other entry unchanged |
| InflationFold.Aggregate | src/supply.rs:205-223 | the folded map has exactly the assignments' seals as keys; each entry holds the sum of the amounts assigned to its seal and the strictly increasing list of exactly those assignments' positions |
| InflationFold.AccumulateStep | src/supply.rs:213-223 | folding the last assignment into a correct summary of the earlier ones gives a correct summary of all, and the entry sum stays within `u64` |
| InflationFold.AggregatePreservesTotal | src/supply.rs:213-223 | the amounts of all entries of the folded map add up to the sum of all assignment amounts |
| InflationFold.IndexListsPartition | src/supply.rs:213-223 | every assignment position is listed under its own seal's entry and under no other, so the index lists partition the positions |
| InflationFold.SummaryIsUnique | src/supply.rs:213-223 | at most one map summarises a list of assignments, so the specification fixes the fold's result completely |
| InflationFold.SameSealAmountsAreSummed | src/supply.rs:213-223 | assignments 0 and 2 carrying 30 and 70 to one seal, around assignment 1 carrying 5 to another, give entries (100, [0, 2]) and (5, [1]) |
| InflationFold.TryAggregate | src/supply.rs:269-287 | the fallible genesis fold succeeds exactly when every seal resolves, fails otherwise with the resolution error, and on success summarises the resolved assignments |
| Operations.FirstRevealedSeal | src/supply.rs:382-395 | a blinded right gives the confidential-data error; otherwise the result is the first revealed seal of that right type resolved against the witness, or absent when there is none |
| Epochs.EpochWith | src/supply.rs:373-409 | a blinded open-epoch right gives `EpochSealConfidential`, checked first, and a blinded burn/replace right gives `BurnSealConfidential`; otherwise each seal is the first revealed seal of its right type, `is_final` holds exactly without an open-epoch seal, `is_unlocked` exactly with a burn/replace seal, and number, ids, `closes`, operations and witness pass through |
| BurnReplacement.BurnReplaceWith | src/supply.rs:515-563 | the constructor succeeds exactly when the burn/replace right is not blinded, both the burned-supply and issued-supply values are present, and the replaced amount is at most the burned amount; a blinded burn/replace right gives `BurnSealConfidential`, checked first; a missing burned-supply or issued-supply value gives `UnsatisfiedSchemaRequirement` for every transition type; on success `does_replacement` holds exactly for burn-and-replace, the amounts are the first field values, `supply_change` plus the replaced amount is the burned amount, and `is_final` holds exactly without a successor seal |
| BurnReplacement.PureBurnExample | src/supply.rs:533-558 | a pure burn of 500 with issued supply 0 has supply change 500 and does no replacement |
| BurnReplacement.BurnAndReplaceExample | src/supply.rs:533-558 | burning 500 and replacing 200 gives supply change 300 and does replacement |
| BurnReplacement.PureBurnNeedsIssuedSupply | src/supply.rs:542-547 | a pure burn without the issued-supply field fails with `UnsatisfiedSchemaRequirement` |
| BurnReplacement.SupplyChangeAsWritten | src/supply.rs:558 | the unchecked `u64` subtraction gives the value that, added to the replaced amount, equals the burned amount modulo 2^64 |
| BurnReplacement.SupplyChangeAgreesWithoutUnderflow | src/supply.rs:558 | when nothing underflows, the unchecked subtraction is exactly the burned amount minus the replaced amount |
| BurnReplacement.SupplyChangeAsWrittenOverstatesBurn | src/supply.rs:558 | burning 500 and replacing 700 makes the unchecked subtraction report 2^64 - 200, more than was burned |
| BurnReplacement.CorrectedRejectsOverReplacement | src/supply.rs:536-558 | the checked constructor refuses that same operation with `SupplyUnderflow` |

## Left out

- Seal resolution (`to_outpoint_reveal`, `OutPoint::try_from`) and the blinding machinery belong to the RGB and bitcoin libraries. They are function parameters here, and a confidential right is a single `Confidential` value.
- The derived traits are not modelled, because they are generated code with no visible logic: `Getters`, `Display`, `StrictEncode`/`StrictDecode`, serde, `Default`, and the orderings and hashes.
- `BTreeMap` and `BTreeSet` key ordering is not modelled. Dafny maps and sets are unordered, so only their contents are modelled.
- Summing issues and burns into `known_circulating`, and computing `issue_limit`, is not implemented in this file. The model therefore has no such fold; `Supply` only stores the figures it is given.
- The by-value `TryFrom<Genesis>` (src/supply.rs:249-255) only delegates to the by-reference form, so it is the same function here.
- `Epoch.no` is a `nat` and is not required to be at least 1, because the code does not check that.
- InflationFold.Aggregate: requires at most 65536 assignments and amounts whose sum fits a `u64`. It does not model the wrap of the `index as u16` cast past 65535 or the overflow of `item.0 += amount.value`.
- InflationFold.TryAggregate: has the same bound on the assignment count and amount sum as `Aggregate`.
- Issues.IssueWith: requires the same bound on its revealed inflation assignments (`InflationFits`).
- Issues.IssueFromGenesis: requires the same bound on its revealed inflation assignments (`InflationFits`). Its resolution error `SealUnresolved` carries no detail, because the library's error conversion is not part of this model.
- BurnReplacement.BurnReplaceWith: when the replaced amount exceeds the burned amount, it returns the model's own `SupplyUnderflow` error. The code instead panics in debug builds and wraps in release builds; see Findings.

## Findings

| source | as written | input that shows it | evidently intended | confidence | as-written member | corrected member |
|---|---|---|---|---|---|---|
| src/supply.rs:558 | `supply_change: burned_amount - replaced_amount` is an unchecked `u64` subtraction with no guard that the replaced amount is at most the burned amount | a burn-and-replace transition with burned supply 500 and issued supply 700: a release build records a net burn of 2^64 - 200, and a debug build panics | an operation that replaces more than it burns is rejected, so that `supply_change` never exceeds `burned_amount` | medium, not executed | BurnReplacement.SupplyChangeAsWritten (exhibited by BurnReplacement.SupplyChangeAsWrittenOverstatesBurn) | BurnReplacement.BurnReplaceWith (exhibited by BurnReplacement.CorrectedRejectsOverReplacement) |
