/** The `/cosmos/staking/v1beta1/validators` handler: every native validator
    record becomes a Cosmos validator object, optionally filtered by the
    Cosmos bond status the record maps to. */
module Validators {
  import opened Common
  import Decimal
  import opened Sequences

  // ---- native records ----

  datatype BondingState = Bonded | Unbonding(unbondsAtHeight: U64) | Unbonded

  /** The validator lifecycle state; only `Jailed` is looked at. */
  datatype ValidatorState = Defined | Inactive | Active | Jailed | Tombstoned | Disabled

  datatype Validator = Validator(
    identityKey: IdentityKey,
    consensusKey: Bytes,
    name: string,
    website: string,
    description: string)

  datatype Status = Status(state: ValidatorState, bondingState: BondingState, votingPower: nat)

  datatype Info = Info(validator: Validator, status: Status)

  // ---- Cosmos output ----

  datatype PubKey = PubKey(typeUrl: string, key: string)

  datatype Description = Description(
    moniker: string,
    identity: string,
    website: string,
    securityContact: string,
    details: string)

  datatype CommissionRates = CommissionRates(rate: string, maxRate: string, maxChangeRate: string)

  datatype Commission = Commission(commissionRates: CommissionRates, updateTime: string)

  datatype CosmosValidator = CosmosValidator(
    operatorAddress: string,
    consensusPubkey: PubKey,
    jailed: bool,
    status: string,
    tokens: string,
    delegatorShares: string,
    description: Description,
    unbondingHeight: string,
    unbondingTime: string,
    commission: Commission,
    minSelfDelegation: string)

  datatype ValidatorsResponse = ValidatorsResponse(validators: seq<CosmosValidator>, pagination: Pagination)

  const BOND_STATUS_BONDED := "BOND_STATUS_BONDED"
  const BOND_STATUS_UNBONDING := "BOND_STATUS_UNBONDING"
  const BOND_STATUS_UNBONDED := "BOND_STATUS_UNBONDED"

  const ED25519_PUBKEY_TYPE := "/cosmos.crypto.ed25519.PubKey"

  /** Placeholders for Cosmos fields that have no native counterpart. */
  const UNBONDING_HEIGHT := "0"
  const UNBONDING_TIME := "1970-01-01T00:00:00Z"
  const COMMISSION_RATE := "0.05"
  const COMMISSION_MAX_RATE := "1.0"
  const COMMISSION_MAX_CHANGE_RATE := "1.0"
  const COMMISSION_UPDATE_TIME := "2023-08-04T06:00:00.000000000Z"
  const MIN_SELF_DELEGATION := "0"

  predicate IsBondStatus(s: string) {
    s == BOND_STATUS_BONDED || s == BOND_STATUS_UNBONDING || s == BOND_STATUS_UNBONDED
  }

  /** The Cosmos bond status of a bonding state; the unbonding height is dropped. */
  function BondStatus(b: BondingState): (s: string)
    ensures IsBondStatus(s)
    ensures s == BOND_STATUS_BONDED <==> b.Bonded?
    ensures s == BOND_STATUS_UNBONDING <==> b.Unbonding?
    ensures s == BOND_STATUS_UNBONDED <==> b.Unbonded?
  {
    match b
    case Bonded => BOND_STATUS_BONDED
    case Unbonding(_) => BOND_STATUS_UNBONDING
    case Unbonded => BOND_STATUS_UNBONDED
  }

  /** Whether the optional `status` query parameter lets a validator with
      bond status `s` through. */
  predicate Admits(filter: Option<string>, s: string) {
    filter.None? || filter == Some(s)
  }

  /** Whether the handler emits validator `v` under the filter. */
  predicate Admitted(filter: Option<string>, v: Info) {
    Admits(filter, BondStatus(v.status.bondingState))
  }

  /** The native validators the handler emits, in input order. */
  function Selected(filter: Option<string>, vals: seq<Info>): seq<Info> {
    Filter(v => Admitted(filter, v), vals)
  }

  predicate HasPlaceholders(v: CosmosValidator) {
    && v.description.identity == ""
    && v.description.securityContact == ""
    && v.unbondingHeight == UNBONDING_HEIGHT
    && v.unbondingTime == UNBONDING_TIME
    && v.commission == Commission(
         CommissionRates(COMMISSION_RATE, COMMISSION_MAX_RATE, COMMISSION_MAX_CHANGE_RATE),
         COMMISSION_UPDATE_TIME)
    && v.minSelfDelegation == MIN_SELF_DELEGATION
  }

  /** One native validator as a Cosmos validator. `render` is the identity
      key's display form and `base64` the Base64 encoder. */
  function ToCosmos(v: Info, render: IdentityKey -> string, base64: Bytes -> string): (r: CosmosValidator)
    ensures r.operatorAddress == render(v.validator.identityKey)
    ensures r.consensusPubkey == PubKey(ED25519_PUBKEY_TYPE, base64(v.validator.consensusKey))
    ensures r.jailed <==> v.status.state == Jailed
    ensures r.status == BondStatus(v.status.bondingState)
    ensures r.tokens == r.delegatorShares
    ensures r.tokens == Decimal.ToString(v.status.votingPower)
    ensures Decimal.Parse(r.tokens) == Some(v.status.votingPower)
    ensures r.description.moniker == v.validator.name
    ensures r.description.website == v.validator.website
    ensures r.description.details == v.validator.description
    ensures HasPlaceholders(r)
  {
    var power := Decimal.ToString(v.status.votingPower);
    Decimal.ParseToString(v.status.votingPower);
    CosmosValidator(
      render(v.validator.identityKey),
      PubKey(ED25519_PUBKEY_TYPE, base64(v.validator.consensusKey)),
      v.status.state == Jailed,
      BondStatus(v.status.bondingState),
      power,
      power,
      Description(v.validator.name, "", v.validator.website, "", v.validator.description),
      UNBONDING_HEIGHT,
      UNBONDING_TIME,
      Commission(
        CommissionRates(COMMISSION_RATE, COMMISSION_MAX_RATE, COMMISSION_MAX_CHANGE_RATE),
        COMMISSION_UPDATE_TIME),
      MIN_SELF_DELEGATION)
  }

  /** The pagination total: the number of emitted validators. */
  function ListTotal(filter: Option<string>, vals: seq<Info>): (t: string)
    ensures t == Decimal.ToString(|Selected(filter, vals)|)
    ensures Decimal.Parse(t) == Some(|Selected(filter, vals)|)
  {
    Decimal.ParseToString(|Selected(filter, vals)|);
    Decimal.ToString(|Selected(filter, vals)|)
  }

  /** The handler: loops over the native validators, skips those the filter
      rejects, and reports how many it kept. */
  method ListValidators(
    status: Option<string>,
    validators: seq<Info>,
    render: IdentityKey -> string,
    base64: Bytes -> string)
    returns (r: ValidatorsResponse)
    ensures |r.validators| == |Selected(status, validators)|
    ensures forall k :: 0 <= k < |r.validators| ==>
              r.validators[k] == ToCosmos(Selected(status, validators)[k], render, base64)
    ensures r.pagination == Pagination(None, ListTotal(status, validators))
  {
    var result: seq<CosmosValidator> := [];
    ghost var kept: seq<Info> := [];
    for i := 0 to |validators|
      invariant kept == Selected(status, validators[..i])
      invariant |result| == |kept|
      invariant forall k :: 0 <= k < |kept| ==> result[k] == ToCosmos(kept[k], render, base64)
    {
      var validator := validators[i];
      var validatorStatus := BondStatus(validator.status.bondingState);
      SelectedStep(status, validators, i);
      if status.Some? && status != Some(validatorStatus) {
        assert !Admitted(status, validator);
        continue;
      }
      result := result + [ToCosmos(validator, render, base64)];
      kept := kept + [validator];
    }
    assert validators[..|validators|] == validators;
    r := ValidatorsResponse(result, Pagination(None, Decimal.ToString(|result|)));
  }

  /** One more input validator adds itself to the output or nothing. */
  lemma SelectedStep(filter: Option<string>, vals: seq<Info>, i: nat)
    requires i < |vals|
    ensures Selected(filter, vals[..i + 1])
            == Selected(filter, vals[..i]) + (if Admitted(filter, vals[i]) then [vals[i]] else [])
  {
    assert vals[..i + 1] == vals[..i] + [vals[i]];
    FilterAppend(v => Admitted(filter, v), vals[..i], [vals[i]]);
    assert [vals[i]][1..] == [];
  }

  /** Filtering distributes over concatenation, so the output keeps input order. */
  lemma SelectedAppend(filter: Option<string>, a: seq<Info>, b: seq<Info>)
    ensures Selected(filter, a + b) == Selected(filter, a) + Selected(filter, b)
  {
    FilterAppend(v => Admitted(filter, v), a, b);
  }

  /** A validator is emitted exactly when it is in the input and the filter
      admits its bond status. */
  lemma SelectedMembership(filter: Option<string>, vals: seq<Info>, v: Info)
    ensures v in Selected(filter, vals) <==> v in vals && Admits(filter, BondStatus(v.status.bondingState))
  {
    FilterMembership(v => Admitted(filter, v), vals, v);
  }

  /** Without a filter every validator is emitted, in order. */
  lemma SelectedNoFilter(vals: seq<Info>)
    ensures Selected(None, vals) == vals
  {
    FilterAll(v => Admitted(None, v), vals);
  }

  /** A filter naming no bond status keeps nothing, and the total is "0". */
  lemma SelectedUnknownStatus(s: string, vals: seq<Info>)
    requires !IsBondStatus(s)
    ensures Selected(Some(s), vals) == []
    ensures ListTotal(Some(s), vals) == "0"
  {
    FilterNone(v => Admitted(Some(s), v), vals);
  }

  /** Every emitted validator carries the status the filter asked for. */
  lemma SelectedMatchFilter(s: string, vals: seq<Info>)
    ensures forall k :: 0 <= k < |Selected(Some(s), vals)| ==>
              BondStatus(Selected(Some(s), vals)[k].status.bondingState) == s
  {
    FilterAccepted(v => Admitted(Some(s), v), vals);
  }
}
