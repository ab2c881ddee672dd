# penumbra-lcd response translation, modelled in Dafny

penumbra-lcd is a gateway that serves part of the Cosmos SDK REST query API
(staking, slashing and governance endpoints). It answers each request by querying a
Penumbra node and reshaping the native records into Cosmos-shaped responses. This
project models that reshaping and proves properties of it. The modelled logic is:

- the validator list, with its optional `status` filter and its pagination total;
- proposal status mapping, and the extrapolation of proposal start/end heights to
  wall-clock times from one chain-head reference and one seconds-per-block figure;
- the proposal list;
- the vote lookup, with its two client-error outcomes;
- the staking and slashing parameters and the signing info.

Every `unwrap` that the translation code applies to a missing native sub-message (or an
identity key that does not parse) aborts the request. The model returns this as
`Err(fault)`; it is not a precondition.

Decisions:

- **Results of gRPC calls.** These are inputs: sequences of native records, a head
  `(height, time)` and a block time.
- **Library calls.** `IdentityKey::to_string`, `base64::encode` and the identity-key
  parser are function-typed parameters.
- **Integer rendering.** Rust's `to_string` on unsigned integers is `Decimal.ToString`,
  proved to round-trip with `Decimal.Parse`.
- **Floats.** `f64` values are idealised as `real`.
- **Validator lifecycle.** Only the `Jailed` state is examined; the other variants of
  `ValidatorState` are listed only to complete the type.
- **Casts.** `f64 as i64` is modelled as saturating truncation toward zero, and
  `u64 as i64` as two's-complement reinterpretation.

Files, one module each:

- `common.dfy`: `Option`, `Result`, faults, the 64-bit casts, pagination.
- `sequences.dfy`: order-preserving filtering, the validator loop's shape.
- `decimal.dfy`: rendering and parsing decimal numerals.
- `validators.dfy`: the validator list.
- `proposals.dfy`: the proposal list and time extrapolation.
- `votes.dfy`: the vote lookup.
- `params.dfy`: parameters and signing info.

Failure paths of the code and how the model treats them:

- `map_proposal` unwraps a finished proposal's outcome (src/main.rs:301), which panics
  when the outcome is absent. The model returns `Err(MissingField("outcome"))`.
- An identity key that does not parse (src/main.rs:220) and every other absent
  sub-message that is unwrapped panic, aborting the request. The model returns
  `Err(MalformedIdentity(..))` or `Err(MissingField(..))`.
- The code divides in `f64` without guarding a zero signing window
  (src/main.rs:169-170) or a zero block-height difference (src/main.rs:284), getting
  NaN or an infinity. Here the model departs from the code: it excludes these inputs
  by precondition on `MinSignedPerWindow`, `SlashingParamsOf` and `BlockTime` (see
  "## Left out").

## Model

| member | source | states |
|---|---|---|
| `Common.AsI64` | src/main.rs:310-313 | the `u64 as i64` cast of a proposal height stays in the `i64` range and is congruent to its input modulo 2^64, and is the identity below 2^63 |
| `Common.TruncateToI64` | src/main.rs:332-333 | the `f64 as i64` cast of an estimated time truncates toward zero inside the `i64` range and saturates at `i64::MIN`/`i64::MAX` outside it |
| `Common.TruncateMonotone` | src/main.rs:332-333 | that cast preserves order |
| `Common.TruncateWhole` | src/main.rs:332-333 | a whole number of seconds inside the `i64` range is cast exactly |
| `Decimal.ToString` | src/main.rs:115-116 | an integer's `to_string` is a non-empty string of decimal digits with no leading zero |
| `Decimal.ParseToString` | src/main.rs:115-116 | parsing the rendered numeral gives back the integer, so `tokens`, `total` and ids denote their values |
| `Decimal.ToStringInjective` | src/main.rs:142 | distinct counts render as distinct `total` strings |
| `Validators.BondStatus` | src/main.rs:97-101 | the status is always one of the three bond-status strings, each exactly for its bonding state; the unbonding height is ignored |
| `Validators.ToCosmos` | src/main.rs:107-135 | `jailed` holds exactly when the lifecycle state is `Jailed`; `tokens == delegator_shares`, both the decimal rendering of the voting power (which parses back to it); the identity and consensus key go through the renderers; name, website and description are copied; the placeholder fields are the fixed constants |
| `Validators.ListValidators` | src/main.rs:95-144 | the loop emits `ToCosmos` of exactly the validators the filter admits, in input order, and `pagination.total` is the decimal count of emitted entries with no next key |
| `Validators.SelectedAppend` | src/main.rs:96-107 | filtering distributes over concatenation, so the kept validators keep their input order |
| `Validators.SelectedMembership` | src/main.rs:103-105 | a validator is kept if and only if it is in the input and the filter is absent or equals its status |
| `Validators.SelectedNoFilter` | src/main.rs:103-105 | with no status filter every validator is kept, in order |
| `Validators.ListTotal` | src/main.rs:138-143 | `pagination.total` is the decimal rendering of the number of emitted validators and parses back to it |
| `Validators.SelectedUnknownStatus` | src/main.rs:103-105 | a filter that is none of the three status strings keeps nothing, and the total is "0" |
| `Validators.SelectedMatchFilter` | src/main.rs:103-114 | every kept validator has exactly the requested status |
| `Proposals.ProposalStatus` | src/main.rs:298-308 | Voting gives VOTING_PERIOD, Finished/Passed gives PASSED and Finished/Failed gives REJECTED, each if and only if; any other outcome, a missing outcome message or another state gives the UNSPECIFIED string; an outcome message without an outcome is the `unwrap` fault |
| `Proposals.BlockTime` | src/main.rs:281-284 | the average block time times the height difference equals the time difference |
| `Proposals.EstimatedTime` | src/main.rs:310-313 | the estimated time of a height is the head time minus the `i64` height difference (the height cast by `AsI64`) times the block time; for heights below 2^63 the height enters unchanged |
| `Proposals.EstimatedTimeAtHead` | src/main.rs:310-313 | the head height maps to the head time |
| `Proposals.EstimatedTimeLinear` | src/main.rs:310-313 | between any two heights the estimate advances by `blockTime` seconds per block |
| `Proposals.EstimatedTimeMonotone` | src/main.rs:310-313 | with a non-negative block time, a lower height never gets a later time |
| `Proposals.MapProposal` | src/main.rs:288-335 | fails exactly on the outcome `unwrap`; otherwise the status is `ProposalStatus`, the id is the decimal rendering of the proposal id (and parses back to it), title and description are copied, voting start/end are the truncated extrapolations of the start/end heights, and tally, deposit and submit fields are the fixed placeholders |
| `Proposals.VotingWindowOrdered` | src/main.rs:310-333 | a start height at or below the end height (below 2^63) and a non-negative block time give a voting start time at or before the end time |
| `Proposals.ExtrapolationExample` | src/main.rs:281-313 | head 1100 at 11000 s and a sample 1000 at 10000 s give 10 s per block, and height 1050 then maps to 10500 s |
| `Proposals.MapEntry` | src/main.rs:403-414 | a stream entry maps successfully exactly when its proposal, state and inner state are present and the outcome is not missing, and then it is `MapProposal` with the proposal's own id |
| `Proposals.ListProposals` | src/main.rs:401-425 | succeeds exactly when every entry maps; then one output per input in order, all with the same head and block time, with total equal to the entry count; otherwise it fails with the fault of the first entry that does not map |
| `Votes.HttpStatus` | src/main.rs:455-496 | a found vote is HTTP 200 and a BadRequest reply is HTTP 400 |
| `Votes.VoteOption` | src/main.rs:473-478 | YES exactly for choices 1 and 2, NO exactly for 3, and UNSPECIFIED for everything else |
| `Votes.FindVote` | src/main.rs:448-453 | returns the first entry whose identity renders as the voter; Absent exactly when no entry matches; an entry without an identity key, reached before any match, aborts the lookup |
| `Votes.NotFoundMessage` | src/main.rs:459 | the error message contains the voter, and ends with the decimal rendering of the proposal id, which parses back |
| `Votes.GetVote` | src/main.rs:448-498 | fails only on an unwrap fault; BadRequest with code 3 and the not-found message exactly when no entry matches or the match has no choice; the HTTP status is 200 exactly when the first match carries a choice and 400 otherwise; on success the reply echoes proposal id and voter and carries `VoteOption` of the choice as `option` and as the single option of weight `1.000000000000000000` |
| `Votes.FindVoteIgnoresTail` | src/main.rs:448-453 | once a match is found, entries after it do not change the search |
| `Votes.GetVoteIgnoresTail` | src/main.rs:448-498 | the reply depends only on the votes up to the first match, so a later duplicate vote is ignored |
| `Params.StakeParamsOf` | src/main.rs:194-204 | the stake parameters are obtained exactly when both nested messages are present, otherwise the missing one is the fault |
| `Params.StakingParamsOf` | src/main.rs:204-214 | `max_validators` is the active validator limit; unbonding time, max entries, historical entries and denomination are the fixed constants |
| `Params.MinSignedPerWindow` | src/main.rs:169-170 | for a non-zero window, the value times the window equals the window minus the missed maximum; it is at most 1, and non-negative when the maximum fits the window |
| `Params.SlashingParamsOf` | src/main.rs:168-180 | the window length is its decimal rendering and parses back; the minimum-signed share is `MinSignedPerWindow`; the remaining fields are the fixed constants |
| `Params.SlashingExample` | src/main.rs:169-170 | a 100-block window with at most 5 missed gives 0.95 |
| `Params.SigningInfoOf` | src/main.rs:219-254 | an unparsable identity aborts first, then a missing uptime; otherwise the address echoes the requested string, the missed-block counter is the decimal rendering of the uptime's count and parses back to it, and the remaining fields are the fixed defaults |

## Left out

- Channel construction, TLS, `connect()`, and their transport `unwrap` panics: network
  I/O.
- The gRPC calls and the draining of their streams: the model takes the drained results
  as input sequences.
- `get_sync_info` and its `unwrap`s: the head `(height, time)` is a parameter. The head
  height is kept as an `int` rather than re-running the `u64 as i64` cast of
  src/main.rs:355 and 397.
- The block request of `get_block_time`, made at `latest - 100`: the older header's
  height and time are inputs to `BlockTime`.
- Clap argument parsing and the Rocket launch and route mounting: bootstrap plumbing.
- The single-proposal handler `proposal` (src/main.rs:337-373): this is a call of
  `map_proposal` with the request's id.
- `IdentityKey::to_string`, `base64::encode` and identity-key parsing: these are
  library code, passed in as abstract functions.
- The `try_into` conversions from protobuf to domain types, including vote identity keys
  and validator infos: these are assumed to succeed.
- `Uptime::num_missed_blocks`: the count is an input.
- `DateTime::from_timestamp` and its JSON rendering: `voting_start_time` and
  `voting_end_time` are the epoch seconds passed to it.
- JSON serialisation with `serde_json`: outputs are records.
- `BlockTime`: a zero height difference is excluded by precondition. The source has no
  guard, and in `f64` it would produce an infinity or NaN.
- `MinSignedPerWindow`: a zero signing window is excluded by precondition, for the same
  reason.
- `SlashingParamsOf`: this inherits that precondition. Its `min_signed_per_window` is a
  real, not the `f64` `to_string` rendering.
- `EstimatedTime`: `f64` rounding is idealised, and a possible `i64` overflow of the
  height subtraction is not modelled.
