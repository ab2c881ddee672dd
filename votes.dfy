/** `get_vote`: the vote of one validator on one proposal, found by scanning
    the proposal's whole vote list for the first entry whose identity key
    displays as the requested voter. */
module Votes {
  import opened Common
  import Decimal

  // ---- native records ----

  /** A vote choice; the native enum arrives as a raw integer. */
  datatype Vote = Vote(vote: int)

  /** One element of the proposal's vote stream. */
  datatype ValidatorVote = ValidatorVote(identityKey: Option<IdentityKey>, vote: Option<Vote>)

  // ---- Cosmos output ----

  datatype WeightedVoteOption = WeightedVoteOption(option: string, weight: string)

  datatype CosmosVote = CosmosVote(
    proposalId: string,
    voter: string,
    option: string,
    options: seq<WeightedVoteOption>)

  /** The HTTP reply: 200 with the vote, or 400 with a Cosmos error body. */
  datatype VoteReply =
    | Found(vote: CosmosVote)
    | BadRequest(code: int, message: string, details: seq<string>)

  const VOTE_OPTION_YES := "VOTE_OPTION_YES"
  const VOTE_OPTION_NO := "VOTE_OPTION_NO"
  const VOTE_OPTION_UNSPECIFIED := "VOTE_OPTION_UNSPECIFIED"

  const FULL_WEIGHT := "1.000000000000000000"

  /** The error code the Cosmos error body carries. */
  const NOT_FOUND_CODE := 3

  function HttpStatus(reply: VoteReply): (s: nat)
    ensures s == 200 <==> reply.Found?
    ensures s == 400 <==> reply.BadRequest?
  {
    if reply.Found? then 200 else 400
  }

  /** The Cosmos option of a native choice: 3 is NO, both 1 and 2 are YES. */
  function VoteOption(choice: int): (s: string)
    ensures s == VOTE_OPTION_YES <==> choice == 1 || choice == 2
    ensures s == VOTE_OPTION_NO <==> choice == 3
    ensures s == VOTE_OPTION_UNSPECIFIED <==> choice != 1 && choice != 2 && choice != 3
  {
    match choice
    case 3 => VOTE_OPTION_NO
    case 2 => VOTE_OPTION_YES
    case 1 => VOTE_OPTION_YES
    case _ => VOTE_OPTION_UNSPECIFIED
  }

  /** The outcome of the scan. */
  datatype Search = At(index: nat) | Absent | KeyMissing

  predicate Matches(entry: ValidatorVote, voter: string, render: IdentityKey -> string) {
    entry.identityKey.Some? && render(entry.identityKey.value) == voter
  }

  /** The scan: the first entry whose key displays as `voter`; an entry
      without a key, reached before any match, aborts the request. */
  function FindVote(votes: seq<ValidatorVote>, voter: string, render: IdentityKey -> string): (r: Search)
    ensures r.At? ==> r.index < |votes| && Matches(votes[r.index], voter, render)
    ensures r.At? ==> forall j :: 0 <= j < r.index ==>
                        votes[j].identityKey.Some? && !Matches(votes[j], voter, render)
    ensures r.Absent? <==> forall j :: 0 <= j < |votes| ==>
                             votes[j].identityKey.Some? && !Matches(votes[j], voter, render)
    ensures r.KeyMissing? ==> exists i :: 0 <= i < |votes| && votes[i].identityKey.None?
                                && forall j :: 0 <= j < i ==> !Matches(votes[j], voter, render)
    decreases |votes|
  {
    if votes == [] then Absent
    else
      match votes[0].identityKey
      case None => KeyMissing
      case Some(key) =>
        if render(key) == voter then At(0)
        else
          var rest := FindVote(votes[1..], voter, render);
          match rest
          case At(i) => At(i + 1)
          case Absent => Absent
          case KeyMissing => KeyMissing
  }

  /** The error message; it names the voter and the proposal. */
  function NotFoundMessage(voter: string, proposalId: U64): (m: string)
    ensures |m| >= 7 + |voter| + |Decimal.ToString(proposalId)|
    ensures m[7..7 + |voter|] == voter
    ensures m[|m| - |Decimal.ToString(proposalId)|..] == Decimal.ToString(proposalId)
    ensures Decimal.Parse(m[|m| - |Decimal.ToString(proposalId)|..]) == Some(proposalId)
  {
    Decimal.ParseToString(proposalId);
    var m := "voter: " + voter + " not found for proposal: " + Decimal.ToString(proposalId);
    assert m[|m| - |Decimal.ToString(proposalId)|..] == Decimal.ToString(proposalId);
    m
  }

  function NotFound(voter: string, proposalId: U64): VoteReply {
    BadRequest(NOT_FOUND_CODE, NotFoundMessage(voter, proposalId), [])
  }

  /** The lookup and the reply built from what it finds. */
  function GetVote(voter: string, proposalId: U64, votes: seq<ValidatorVote>, render: IdentityKey -> string)
    : (r: Result<VoteReply>)
    ensures r.Err? <==> FindVote(votes, voter, render).KeyMissing?
    ensures r.Ok? && r.value.BadRequest? <==>
              || FindVote(votes, voter, render).Absent?
              || (FindVote(votes, voter, render).At? && votes[FindVote(votes, voter, render).index].vote.None?)
    ensures r.Ok? && r.value.BadRequest? ==> r.value == NotFound(voter, proposalId)
    ensures r.Ok? ==>
              HttpStatus(r.value)
              == (if FindVote(votes, voter, render).At? && votes[FindVote(votes, voter, render).index].vote.Some?
                  then 200 else 400)
    ensures r.Ok? && r.value.Found? ==>
              var i := FindVote(votes, voter, render).index;
              var option := VoteOption(votes[i].vote.value.vote);
              && r.value.vote.proposalId == Decimal.ToString(proposalId)
              && r.value.vote.voter == voter
              && r.value.vote.option == option
              && r.value.vote.options == [WeightedVoteOption(option, FULL_WEIGHT)]
  {
    match FindVote(votes, voter, render)
    case KeyMissing => Err(MissingField("identity_key"))
    case Absent => Ok(NotFound(voter, proposalId))
    case At(i) =>
      match votes[i].vote
      case None => Ok(NotFound(voter, proposalId))
      case Some(choice) =>
        var option := VoteOption(choice.vote);
        Ok(Found(CosmosVote(
          Decimal.ToString(proposalId), voter, option, [WeightedVoteOption(option, FULL_WEIGHT)])))
  }

  /** Once a match is found, later entries are never looked at. */
  lemma {:induction false} FindVoteIgnoresTail(
    votes: seq<ValidatorVote>, more: seq<ValidatorVote>, voter: string, render: IdentityKey -> string)
    requires FindVote(votes, voter, render).At?
    ensures FindVote(votes + more, voter, render) == FindVote(votes, voter, render)
    decreases |votes|
  {
    assert (votes + more)[0] == votes[0];
    if !Matches(votes[0], voter, render) {
      assert (votes + more)[1..] == votes[1..] + more;
      FindVoteIgnoresTail(votes[1..], more, voter, render);
    }
  }

  /** So the reply only depends on the votes up to the first match; in
      particular a second vote by the same voter is ignored. */
  lemma GetVoteIgnoresTail(
    voter: string, proposalId: U64, votes: seq<ValidatorVote>, more: seq<ValidatorVote>,
    render: IdentityKey -> string)
    requires FindVote(votes, voter, render).At?
    ensures GetVote(voter, proposalId, votes + more, render) == GetVote(voter, proposalId, votes, render)
  {
    FindVoteIgnoresTail(votes, more, voter, render);
    var i := FindVote(votes, voter, render).index;
    assert (votes + more)[i] == votes[i];
  }
}
