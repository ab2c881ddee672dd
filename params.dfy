/** The parameter endpoints (`/cosmos/staking/v1beta1/params`,
    `/cosmos/slashing/v1beta1/params`) and the signing-info endpoint: one or
    two native fields copied through, everything else fixed constants. */
module Params {
  import opened Common
  import Decimal

  // ---- native records ----

  datatype StakeParameters = StakeParameters(
    activeValidatorLimit: U64,
    signedBlocksWindowLen: U64,
    missedBlocksMaximum: U64)

  datatype AppParameters = AppParameters(stakeParams: Option<StakeParameters>)

  /** The reply of the application-parameters query. */
  datatype AppParametersResponse = AppParametersResponse(appParameters: Option<AppParameters>)

  /** A validator's uptime record, reduced to its missed-block count. */
  datatype Uptime = Uptime(numMissedBlocks: nat)

  /** The reply of the uptime query. */
  datatype UptimeResponse = UptimeResponse(uptime: Option<Uptime>)

  // ---- Cosmos output ----

  datatype StakingParams = StakingParams(
    unbondingTime: string,
    maxValidators: int,
    maxEntries: int,
    historicalEntries: int,
    bondDenom: string)

  datatype SlashingParams = SlashingParams(
    signedBlocksWindow: string,
    minSignedPerWindow: real,
    downtimeJailDuration: string,
    slashFractionDoubleSign: string,
    slashFractionDowntime: string)

  datatype SigningInfo = SigningInfo(
    address: string,
    startHeight: string,
    indexOffset: string,
    jailedUntil: string,
    tombstoned: bool,
    missedBlocksCounter: string)

  /** 21 days, in seconds. */
  const UNBONDING_TIME := "1814400s"
  const MAX_ENTRIES := 7
  const HISTORICAL_ENTRIES := 10000
  const BOND_DENOM := "upenumbra"

  const EPOCH := "1970-01-01T00:00:00Z"

  /** Both `unwrap`s of the parameter query, in order. */
  function StakeParamsOf(resp: AppParametersResponse): (r: Result<StakeParameters>)
    ensures r.Ok? <==> resp.appParameters.Some? && resp.appParameters.value.stakeParams.Some?
    ensures r.Ok? ==> r.value == resp.appParameters.value.stakeParams.value
    ensures r.Err? ==>
              r.error == MissingField(if resp.appParameters.None? then "app_parameters" else "stake_params")
  {
    match resp.appParameters
    case None => Err(MissingField("app_parameters"))
    case Some(app) =>
      match app.stakeParams
      case None => Err(MissingField("stake_params"))
      case Some(sp) => Ok(sp)
  }

  /** Staking params: only the validator limit comes from the chain. */
  function StakingParamsOf(resp: AppParametersResponse): (r: Result<StakingParams>)
    ensures r.Ok? <==> StakeParamsOf(resp).Ok?
    ensures r.Err? ==> r.error == StakeParamsOf(resp).error
    ensures r.Ok? ==>
              && r.value.maxValidators == StakeParamsOf(resp).value.activeValidatorLimit
              && r.value.unbondingTime == UNBONDING_TIME
              && r.value.maxEntries == MAX_ENTRIES
              && r.value.historicalEntries == HISTORICAL_ENTRIES
              && r.value.bondDenom == BOND_DENOM
  {
    match StakeParamsOf(resp)
    case Err(e) => Err(e)
    case Ok(sp) =>
      Ok(StakingParams(UNBONDING_TIME, sp.activeValidatorLimit, MAX_ENTRIES, HISTORICAL_ENTRIES, BOND_DENOM))
  }

  /** The share of the signing window a validator must sign. A zero window
      would divide by zero (in `f64`, NaN or an infinity). */
  function MinSignedPerWindow(missedBlocksMaximum: nat, signedBlocksWindowLen: nat): (m: real)
    requires signedBlocksWindowLen != 0
    ensures m * signedBlocksWindowLen as real
            == (signedBlocksWindowLen - missedBlocksMaximum) as real
    ensures m <= 1.0
    ensures missedBlocksMaximum <= signedBlocksWindowLen ==> 0.0 <= m
  {
    var w, x := signedBlocksWindowLen as real, missedBlocksMaximum as real;
    assert (1.0 - x / w) * w == w - x;
    assert 0.0 <= x / w;
    assert x <= w ==> x / w <= 1.0;
    1.0 - x / w
  }

  /** Slashing params: the window length and the derived minimum, the rest fixed. */
  function SlashingParamsOf(resp: AppParametersResponse): (r: Result<SlashingParams>)
    requires StakeParamsOf(resp).Ok? ==> StakeParamsOf(resp).value.signedBlocksWindowLen != 0
    ensures r.Ok? <==> StakeParamsOf(resp).Ok?
    ensures r.Err? ==> r.error == StakeParamsOf(resp).error
    ensures r.Ok? ==>
              var sp := StakeParamsOf(resp).value;
              && r.value.signedBlocksWindow == Decimal.ToString(sp.signedBlocksWindowLen)
              && Decimal.Parse(r.value.signedBlocksWindow) == Some(sp.signedBlocksWindowLen)
              && r.value.minSignedPerWindow == MinSignedPerWindow(sp.missedBlocksMaximum, sp.signedBlocksWindowLen)
              && r.value.downtimeJailDuration == "0s"
              && r.value.slashFractionDoubleSign == "0.0"
              && r.value.slashFractionDowntime == "0.0"
  {
    match StakeParamsOf(resp)
    case Err(e) => Err(e)
    case Ok(sp) =>
      Decimal.ParseToString(sp.signedBlocksWindowLen);
      Ok(SlashingParams(
        Decimal.ToString(sp.signedBlocksWindowLen),
        MinSignedPerWindow(sp.missedBlocksMaximum, sp.signedBlocksWindowLen),
        "0s", "0.0", "0.0"))
  }

  /** A window of 100 blocks with at most 5 missed gives 0.95. */
  lemma SlashingExample()
    ensures MinSignedPerWindow(5, 100) == 0.95
  {
  }

  /** The signing-info handler. `parse` is the identity key parser; the
      parsed key only selects the record, which arrives as `resp`. */
  function SigningInfoOf(identityKey: string, parse: string -> Option<IdentityKey>, resp: UptimeResponse)
    : (r: Result<SigningInfo>)
    ensures parse(identityKey).None? ==> r == Err(MalformedIdentity(identityKey))
    ensures parse(identityKey).Some? && resp.uptime.None? ==> r == Err(MissingField("uptime"))
    ensures r.Ok? <==> parse(identityKey).Some? && resp.uptime.Some?
    ensures r.Ok? ==>
              && r.value.address == identityKey
              && r.value.missedBlocksCounter == Decimal.ToString(resp.uptime.value.numMissedBlocks)
              && Decimal.Parse(r.value.missedBlocksCounter) == Some(resp.uptime.value.numMissedBlocks)
              && r.value.startHeight == "0"
              && r.value.indexOffset == "0"
              && r.value.jailedUntil == EPOCH
              && !r.value.tombstoned
  {
    match parse(identityKey)
    case None => Err(MalformedIdentity(identityKey))
    case Some(_) =>
      match resp.uptime
      case None => Err(MissingField("uptime"))
      case Some(uptime) =>
        Decimal.ParseToString(uptime.numMissedBlocks);
        Ok(SigningInfo(identityKey, "0", "0", EPOCH, false, Decimal.ToString(uptime.numMissedBlocks)))
  }
}
