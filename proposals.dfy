/** The governance proposal translation: `map_proposal` and the
    `/cosmos/gov/v1beta1/proposals` handler, with the block-time estimate
    that turns proposal heights into wall-clock times. Floating-point values
    are idealised as reals. */
module Proposals {
  import opened Common
  import Decimal

  // ---- native records ----

  datatype Outcome = Passed | Failed | OtherOutcome

  /** The outcome message; its `outcome` field may be absent. */
  datatype ProposalOutcome = ProposalOutcome(outcome: Option<Outcome>)

  datatype ProposalState = Voting | Finished(outcome: Option<ProposalOutcome>) | OtherState

  /** The state message wrapping the lifecycle state. */
  datatype ProposalStateMsg = ProposalStateMsg(state: Option<ProposalState>)

  datatype Proposal = Proposal(id: U64, title: string, description: string)

  /** One element of the native proposal list stream. */
  datatype ProposalListEntry = ProposalListEntry(
    proposal: Option<Proposal>,
    state: Option<ProposalStateMsg>,
    startBlockHeight: U64,
    endBlockHeight: U64)

  /** The chain head read once per request: height (as `i64`) and time in seconds. */
  datatype Head = Head(height: int, time: int)

  // ---- Cosmos output ----

  datatype Content = Content(typeUrl: string, title: string, description: string)

  datatype TallyResult = TallyResult(yes: string, abstain: string, no: string, noWithVeto: string)

  /** A Cosmos proposal; the voting times are the epoch seconds handed to the
      timestamp formatter. */
  datatype CosmosProposal = CosmosProposal(
    proposalId: string,
    content: Content,
    status: string,
    finalTallyResult: TallyResult,
    submitTime: string,
    depositEndTime: string,
    totalDeposit: seq<string>,
    votingStartTime: int,
    votingEndTime: int)

  datatype ProposalsResponse = ProposalsResponse(proposals: seq<CosmosProposal>, pagination: Pagination)

  const PROPOSAL_STATUS_VOTING_PERIOD := "PROPOSAL_STATUS_VOTING_PERIOD"
  const PROPOSAL_STATUS_PASSED := "PROPOSAL_STATUS_PASSED"
  const PROPOSAL_STATUS_REJECTED := "PROPOSAL_STATUS_REJECTED"
  const PROPOSAL_STATUS_UNSPECIFIED := "ProposalStatus_PROPOSAL_STATUS_UNSPECIFIED"

  const SIGNALING_TYPE := "penumbra.core.component.governance.v1.Signaling"
  const EPOCH_MILLIS := "1970-01-01T00:00:00.000Z"

  predicate IsProposalStatus(s: string) {
    || s == PROPOSAL_STATUS_VOTING_PERIOD
    || s == PROPOSAL_STATUS_PASSED
    || s == PROPOSAL_STATUS_REJECTED
    || s == PROPOSAL_STATUS_UNSPECIFIED
  }

  /** A finished proposal whose outcome message lacks its outcome: the status
      match unwraps it and the request aborts. */
  predicate OutcomeMissing(state: ProposalState) {
    state.Finished? && state.outcome.Some? && state.outcome.value.outcome.None?
  }

  /** The Cosmos status of a proposal state. */
  function ProposalStatus(state: ProposalState): (r: Result<string>)
    ensures r.Err? <==> OutcomeMissing(state)
    ensures r.Err? ==> r.error == MissingField("outcome")
    ensures r.Ok? ==> IsProposalStatus(r.value)
    ensures r == Ok(PROPOSAL_STATUS_VOTING_PERIOD) <==> state.Voting?
    ensures r == Ok(PROPOSAL_STATUS_PASSED) <==> state == Finished(Some(ProposalOutcome(Some(Passed))))
    ensures r == Ok(PROPOSAL_STATUS_REJECTED) <==> state == Finished(Some(ProposalOutcome(Some(Failed))))
    ensures r == Ok(PROPOSAL_STATUS_UNSPECIFIED) <==>
              (|| state.OtherState?
               || state == Finished(None)
               || state == Finished(Some(ProposalOutcome(Some(OtherOutcome)))))
  {
    match state
    case Voting => Ok(PROPOSAL_STATUS_VOTING_PERIOD)
    case Finished(Some(value)) =>
      (match value.outcome
       case None => Err(MissingField("outcome"))
       case Some(Passed) => Ok(PROPOSAL_STATUS_PASSED)
       case Some(Failed) => Ok(PROPOSAL_STATUS_REJECTED)
       case Some(_) => Ok(PROPOSAL_STATUS_UNSPECIFIED))
    case _ => Ok(PROPOSAL_STATUS_UNSPECIFIED)
  }

  /** Average seconds per block between the head and an older block. A
      repeated height would divide by zero (in `f64`, an infinity or NaN). */
  function BlockTime(latestHeight: int, latestTime: int, olderHeight: int, olderTime: int): (r: real)
    requires latestHeight != olderHeight
    ensures r * (latestHeight - olderHeight) as real == (latestTime - olderTime) as real
  {
    (latestTime - olderTime) as real / (latestHeight - olderHeight) as real
  }

  /** The wall-clock time a height is estimated to have, extrapolated from
      the head at `blockTime` seconds per block. */
  function EstimatedTime(head: Head, height: U64, blockTime: real): (t: real)
    ensures height < TWO_63 ==> t == head.time as real - (head.height - height) as real * blockTime
  {
    head.time as real - (head.height - AsI64(height)) as real * blockTime
  }

  /** The head height maps to the head time. */
  lemma EstimatedTimeAtHead(head: Head, height: U64, blockTime: real)
    requires height < TWO_63 && height == head.height
    ensures EstimatedTime(head, height, blockTime) == head.time as real
  {
  }

  /** The estimate is linear: `blockTime` seconds per block between any two heights. */
  lemma EstimatedTimeLinear(head: Head, h1: U64, h2: U64, blockTime: real)
    requires h1 < TWO_63 && h2 < TWO_63
    ensures EstimatedTime(head, h2, blockTime) - EstimatedTime(head, h1, blockTime)
            == (h2 - h1) as real * blockTime
  {
  }

  /** With a non-negative block time, later heights get later times. */
  lemma EstimatedTimeMonotone(head: Head, h1: U64, h2: U64, blockTime: real)
    requires h1 <= h2 < TWO_63
    requires 0.0 <= blockTime
    ensures EstimatedTime(head, h1, blockTime) <= EstimatedTime(head, h2, blockTime)
  {
  }

  predicate HasProposalPlaceholders(p: CosmosProposal) {
    && p.content.typeUrl == SIGNALING_TYPE
    && p.finalTallyResult == TallyResult("0", "0", "0", "0")
    && p.submitTime == EPOCH_MILLIS
    && p.depositEndTime == EPOCH_MILLIS
    && p.totalDeposit == []
  }

  /** `map_proposal`: one native proposal as a Cosmos proposal. */
  function MapProposal(
    proposalId: U64,
    proposal: Proposal,
    state: ProposalState,
    head: Head,
    startBlockHeight: U64,
    endBlockHeight: U64,
    blockTime: real)
    : (r: Result<CosmosProposal>)
    ensures r.Ok? <==> !OutcomeMissing(state)
    ensures r.Err? ==> r.error == MissingField("outcome")
    ensures r.Ok? ==>
              && r.value.status == ProposalStatus(state).value
              && r.value.proposalId == Decimal.ToString(proposalId)
              && Decimal.Parse(r.value.proposalId) == Some(proposalId)
              && r.value.content.title == proposal.title
              && r.value.content.description == proposal.description
              && r.value.votingStartTime == TruncateToI64(EstimatedTime(head, startBlockHeight, blockTime))
              && r.value.votingEndTime == TruncateToI64(EstimatedTime(head, endBlockHeight, blockTime))
              && HasProposalPlaceholders(r.value)
  {
    match ProposalStatus(state)
    case Err(e) => Err(e)
    case Ok(status) =>
      var votingStart := EstimatedTime(head, startBlockHeight, blockTime);
      var votingEnd := EstimatedTime(head, endBlockHeight, blockTime);
      Decimal.ParseToString(proposalId);
      Ok(CosmosProposal(
        Decimal.ToString(proposalId),
        Content(SIGNALING_TYPE, proposal.title, proposal.description),
        status,
        TallyResult("0", "0", "0", "0"),
        EPOCH_MILLIS,
        EPOCH_MILLIS,
        [],
        TruncateToI64(votingStart),
        TruncateToI64(votingEnd)))
  }

  /** A proposal whose start height is not after its end height gets a voting
      start time not after its end time, when the block time is not negative. */
  lemma VotingWindowOrdered(
    proposalId: U64, proposal: Proposal, state: ProposalState, head: Head,
    startBlockHeight: U64, endBlockHeight: U64, blockTime: real)
    requires !OutcomeMissing(state)
    requires startBlockHeight <= endBlockHeight < TWO_63
    requires 0.0 <= blockTime
    ensures var r := MapProposal(proposalId, proposal, state, head, startBlockHeight, endBlockHeight, blockTime);
            r.Ok? && r.value.votingStartTime <= r.value.votingEndTime
  {
    EstimatedTimeMonotone(head, startBlockHeight, endBlockHeight, blockTime);
    TruncateMonotone(EstimatedTime(head, startBlockHeight, blockTime),
                     EstimatedTime(head, endBlockHeight, blockTime));
  }

  /** The worked example: head 1100 at 11000 s and an older sample 1000 at
      10000 s give 10 s per block, and height 1050 then maps to 10500 s. */
  lemma ExtrapolationExample()
    ensures BlockTime(1100, 11000, 1000, 10000) == 10.0
    ensures EstimatedTime(Head(1100, 11000), 1050, 10.0) == 10500.0
    ensures TruncateToI64(EstimatedTime(Head(1100, 11000), 1050, 10.0)) == 10500
  {
  }

  /** One element of the list stream, unwrapped as the handler does. */
  function MapEntry(entry: ProposalListEntry, head: Head, blockTime: real): (r: Result<CosmosProposal>)
    ensures r.Ok? <==>
              && entry.proposal.Some?
              && entry.state.Some?
              && entry.state.value.state.Some?
              && !OutcomeMissing(entry.state.value.state.value)
    ensures r.Ok? ==>
              r == MapProposal(entry.proposal.value.id, entry.proposal.value, entry.state.value.state.value,
                               head, entry.startBlockHeight, entry.endBlockHeight, blockTime)
  {
    match entry.proposal
    case None => Err(MissingField("proposal"))
    case Some(p) =>
      match entry.state
      case None => Err(MissingField("state"))
      case Some(msg) =>
        match msg.state
        case None => Err(MissingField("state.state"))
        case Some(st) =>
          MapProposal(p.id, p, st, head, entry.startBlockHeight, entry.endBlockHeight, blockTime)
  }

  /** The list handler: maps every entry with the one head and block time of
      the request, in order, and aborts at the first entry that cannot be
      unwrapped. */
  method ListProposals(entries: seq<ProposalListEntry>, head: Head, blockTime: real)
    returns (r: Result<ProposalsResponse>)
    ensures r.Ok? <==> forall i :: 0 <= i < |entries| ==> MapEntry(entries[i], head, blockTime).Ok?
    ensures r.Ok? ==>
              && |r.value.proposals| == |entries|
              && (forall i :: 0 <= i < |entries| ==>
                    r.value.proposals[i] == MapEntry(entries[i], head, blockTime).value)
              && r.value.pagination == Pagination(None, Decimal.ToString(|entries|))
    ensures r.Err? ==>
              exists i :: 0 <= i < |entries| && MapEntry(entries[i], head, blockTime) == Err(r.error)
                          && forall j :: 0 <= j < i ==> MapEntry(entries[j], head, blockTime).Ok?
  {
    var response: seq<CosmosProposal> := [];
    for i := 0 to |entries|
      invariant |response| == i
      invariant forall k :: 0 <= k < i ==>
                  MapEntry(entries[k], head, blockTime).Ok?
                  && response[k] == MapEntry(entries[k], head, blockTime).value
    {
      var entry := entries[i];
      if entry.proposal.None? {
        return Err(MissingField("proposal"));
      }
      var proposal := entry.proposal.value;
      if entry.state.None? {
        return Err(MissingField("state"));
      }
      if entry.state.value.state.None? {
        return Err(MissingField("state.state"));
      }
      var mapped := MapProposal(proposal.id, proposal, entry.state.value.state.value,
                                head, entry.startBlockHeight, entry.endBlockHeight, blockTime);
      if mapped.Err? {
        return Err(mapped.error);
      }
      response := response + [mapped.value];
    }
    r := Ok(ProposalsResponse(response, Pagination(None, Decimal.ToString(|response|))));
  }
}
