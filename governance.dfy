/**
 * Token-holder governance (`governance.rs`): proposals about a property, votes
 * weighted by the voter's recorded token balance, and a 51% threshold.
 */
module Governance {

  import opened Wrappers
  import opened Types
  import opened Storage
  import opened Utils
  import opened Marketplace

  /**
   * `calculate_required_voting_power`: 51% of the property's `total_tokens`,
   * rounded down, or "Property not found".
   */
  function RequiredVotingPower(properties: map<nat, Property>, pid: nat): (r: Result<nat>)
    ensures r.Ok? <==> pid in properties
    ensures r.Err? ==> r.error == "Property not found"
    ensures r.Ok? ==>
              100 * r.value <= 51 * properties[pid].totalTokens < 100 * (r.value + 1)
  {
    if pid !in properties then Err("Property not found")
    else Ok((properties[pid].totalTokens * 51) / 100)
  }

  /** A property of at most one token needs no votes at all: any vote passes it. */
  lemma SingleTokenNeedsNoVotes(properties: map<nat, Property>, pid: nat)
    requires pid in properties && properties[pid].totalTokens <= 1
    ensures RequiredVotingPower(properties, pid) == Ok(0)
  {
  }

  /** Rounding down can put the threshold below a majority: one token of three passes a proposal. */
  lemma ThresholdBelowMajority(properties: map<nat, Property>, pid: nat)
    requires pid in properties && properties[pid].totalTokens == 3
    ensures RequiredVotingPower(properties, pid) == Ok(1)
  {
  }

  /** `proposals.insert(proposal.id, proposal)` for a proposal with an issued id about a stored property. */
  method StoreProposal(c: Canister, proposal: GovernanceProposal)
    requires c.Valid()
    requires proposal.id <= c.LastId() && proposal.propertyId in c.properties
    modifies c`proposals
    ensures c.Valid()
    ensures c.proposals == old(c.proposals)[proposal.id := proposal]
  {
    c.proposals := c.proposals[proposal.id := proposal];
  }

  /**
   * `create_proposal`: after the identity gates the caller must hold tokens of the
   * property. The id is drawn before the threshold is computed; the threshold's
   * "Property not found" cannot occur, because a positive balance means an
   * investment in a stored property. The proposal starts Active with no votes.
   */
  method CreateProposal(c: Canister, caller: Principal, now: nat, pid: nat, title: string,
                        description: string, proposalType: ProposalType, votingDurationHours: nat)
    returns (r: Result<GovernanceProposal>)
    requires c.Valid()
    // the balance is summed once both gates pass
    requires caller != Anonymous && ValidateKyc(c.users, caller).Ok? ==>
               TokenBalance(c.investments, caller, pid) <= MaxU64
    // the id, the deadline and the threshold are computed only for a holder
    requires caller != Anonymous && ValidateKyc(c.users, caller).Ok?
             && TokenBalance(c.investments, caller, pid) > 0 ==>
               && c.LastId() < MaxU64
               && now + HoursInNanos(votingDurationHours) <= MaxU64
               && (pid in c.properties ==> c.properties[pid].totalTokens * 51 <= MaxU64)
    modifies c`idCounter, c`proposals
    ensures c.Valid()
    ensures caller == Anonymous ==> r == Err("Authentication required")
    ensures caller != Anonymous && ValidateKyc(c.users, caller).Err? ==>
              r == Err(ValidateKyc(c.users, caller).error)
    ensures caller != Anonymous && ValidateKyc(c.users, caller).Ok?
            && TokenBalance(c.investments, caller, pid) == 0 ==>
              r == Err("Must own tokens to create proposals")
    ensures r.Err? ==> c.idCounter == old(c.idCounter) && c.proposals == old(c.proposals)
    ensures r.Ok? <==>
              caller != Anonymous && ValidateKyc(c.users, caller).Ok?
              && TokenBalance(c.investments, caller, pid) > 0
    ensures r.Ok? ==>
      && pid in c.properties
      && var p := r.value;
      && p.id == old(c.LastId()) + 1 && c.LastId() == p.id && p.id !in old(c.proposals)
      && p == GovernanceProposal(p.id, pid, caller, title, description, proposalType,
                                 RequiredVotingPower(c.properties, pid).value, 0, 0,
                                 ProposalStatus.Active, now, now + HoursInNanos(votingDurationHours))
      && c.proposals == old(c.proposals)[p.id := p]
  {
    var auth := IsAuthenticated(caller);
    if auth.Err? {
      return Err(auth.error);
    }
    var kyc := ValidateKyc(c.users, caller);
    if kyc.Err? {
      return Err(kyc.error);
    }
    var userTokens := TokenBalance(c.investments, caller, pid);
    if userTokens == 0 {
      return Err("Must own tokens to create proposals");
    }
    var proposalId := c.NextId();
    var currentTime := now;
    var votingEndsAt := currentTime + HoursInNanos(votingDurationHours);
    var required := RequiredVotingPower(c.properties, pid);
    if required.Err? {
      assert false;
      return Err("Property not found");
    }
    var proposal := GovernanceProposal(
      proposalId, pid, caller, title, description, proposalType, required.value, 0, 0,
      ProposalStatus.Active, currentTime, votingEndsAt);
    StoreProposal(c, proposal);
    r := Ok(proposal);
  }

  /**
   * A counted vote: the voter's power is added to the chosen side, and the
   * proposal passes as soon as the votes for it reach the threshold, whichever
   * side this vote was on. Nothing else changes.
   */
  function Tally(p: GovernanceProposal, voteFor: bool, power: nat): (q: GovernanceProposal)
    ensures q.votesFor + q.votesAgainst == p.votesFor + p.votesAgainst + power
    ensures q.votesFor >= p.votesFor && q.votesAgainst >= p.votesAgainst
    ensures voteFor ==> q.votesAgainst == p.votesAgainst
    ensures !voteFor ==> q.votesFor == p.votesFor
    ensures q.status.Passed? <==> q.votesFor >= p.votingPowerRequired || p.status.Passed?
    ensures !q.status.Passed? ==> q.status == p.status
    ensures q.(votesFor := p.votesFor, votesAgainst := p.votesAgainst, status := p.status) == p
  {
    var counted := if voteFor then p.(votesFor := p.votesFor + power)
                   else p.(votesAgainst := p.votesAgainst + power);
    if counted.votesFor >= counted.votingPowerRequired then counted.(status := ProposalStatus.Passed)
    else counted
  }

  /** A vote against a proposal whose threshold is already met passes it. */
  lemma AgainstVoteCanPass(p: GovernanceProposal, power: nat)
    requires p.status.Active? && p.votesFor >= p.votingPowerRequired
    ensures Tally(p, false, power).status.Passed?
    ensures Tally(p, false, power).votesFor == p.votesFor
  {
  }

  /** The counting half of `vote_on_proposal`: the stored proposal is replaced by its tally. */
  method CountVote(c: Canister, proposalId: nat, voteFor: bool, votingPower: nat)
    requires c.Valid()
    requires proposalId in c.proposals
    requires (if voteFor then c.proposals[proposalId].votesFor else c.proposals[proposalId].votesAgainst)
               + votingPower <= MaxU64
    modifies c`proposals
    ensures c.Valid()
    ensures c.proposals == old(c.proposals)[proposalId := Tally(old(c.proposals)[proposalId], voteFor, votingPower)]
  {
    var proposal := c.proposals[proposalId];
    if voteFor {
      proposal := proposal.(votesFor := proposal.votesFor + votingPower);
    } else {
      proposal := proposal.(votesAgainst := proposal.votesAgainst + votingPower);
    }
    if proposal.votesFor >= proposal.votingPowerRequired {
      proposal := proposal.(status := ProposalStatus.Passed);
    }
    StoreProposal(c, proposal);
  }

  /** The expiry test of `vote_on_proposal`: strictly past `voting_ends_at`. */
  predicate VotingEnded(p: GovernanceProposal, now: nat)
  {
    p.votingEndsAt < now
  }

  /**
   * `vote_on_proposal`. After the identity gates the proposal must exist and be
   * Active. A proposal past its voting period is stored as Rejected and the call
   * still fails. A voter with no recorded tokens of the property is refused.
   * Otherwise the vote is tallied; nothing records who has voted.
   */
  method VoteOnProposal(c: Canister, caller: Principal, now: nat, proposalId: nat, voteFor: bool)
    returns (r: Result<()>)
    requires c.Valid()
    // the balance is summed, and added to a side, only for a live proposal
    requires caller != Anonymous && ValidateKyc(c.users, caller).Ok? && proposalId in c.proposals ==>
      var p := c.proposals[proposalId];
      var power := TokenBalance(c.investments, caller, p.propertyId);
      p.status.Active? && !VotingEnded(p, now) ==>
        power <= MaxU64 && (if voteFor then p.votesFor else p.votesAgainst) + power <= MaxU64
    modifies c`proposals
    ensures c.Valid()
    ensures caller == Anonymous ==> r == Err("Authentication required")
    ensures caller != Anonymous && ValidateKyc(c.users, caller).Err? ==>
              r == Err(ValidateKyc(c.users, caller).error)
    ensures caller != Anonymous && ValidateKyc(c.users, caller).Ok? ==>
              && (proposalId !in old(c.proposals) ==> r == Err("Proposal not found"))
              && (proposalId in old(c.proposals) && !old(c.proposals)[proposalId].status.Active? ==>
                    r == Err("Proposal is not active"))
    // an expired proposal is written back as Rejected, although the call fails
    ensures
      && caller != Anonymous && ValidateKyc(c.users, caller).Ok? && proposalId in old(c.proposals)
      && old(c.proposals)[proposalId].status.Active? && VotingEnded(old(c.proposals)[proposalId], now)
      ==>
      && r == Err("Voting period has ended")
      && c.proposals == old(c.proposals)[proposalId :=
           old(c.proposals)[proposalId].(status := ProposalStatus.Rejected)]
    ensures caller != Anonymous && ValidateKyc(c.users, caller).Ok? && proposalId in old(c.proposals) ==>
      var p := old(c.proposals)[proposalId];
      (p.status.Active? && !VotingEnded(p, now) && TokenBalance(c.investments, caller, p.propertyId) == 0 ==>
         r == Err("No voting power for this property"))
    ensures r.Err? && r != Err("Voting period has ended") ==> c.proposals == old(c.proposals)
    ensures r.Ok? <==>
      && caller != Anonymous && ValidateKyc(c.users, caller).Ok? && proposalId in old(c.proposals)
      && var p := old(c.proposals)[proposalId];
      && p.status.Active? && !VotingEnded(p, now) && TokenBalance(c.investments, caller, p.propertyId) > 0
    ensures r.Ok? ==>
      && proposalId in old(c.proposals)
      && var p := old(c.proposals)[proposalId];
      && c.proposals == old(c.proposals)[proposalId :=
           Tally(p, voteFor, TokenBalance(c.investments, caller, p.propertyId))]
  {
    var auth := IsAuthenticated(caller);
    if auth.Err? {
      return Err(auth.error);
    }
    var kyc := ValidateKyc(c.users, caller);
    if kyc.Err? {
      return Err(kyc.error);
    }
    if proposalId !in c.proposals {
      return Err("Proposal not found");
    }
    var proposal := c.proposals[proposalId];
    if !proposal.status.Active? {
      return Err("Proposal is not active");
    }
    if proposal.votingEndsAt < now {
      proposal := proposal.(status := ProposalStatus.Rejected);
      StoreProposal(c, proposal);
      return Err("Voting period has ended");
    }
    var votingPower := TokenBalance(c.investments, caller, proposal.propertyId);
    if votingPower == 0 {
      return Err("No voting power for this property");
    }
    CountVote(c, proposalId, voteFor, votingPower);
    r := Ok(());
  }

  /**
   * Nothing stops a holder from voting again: two votes for a proposal that stays
   * below its threshold both succeed and count the same balance twice.
   */
  method VotingTwiceCountsTwice(c: Canister, caller: Principal, now: nat, proposalId: nat)
    returns (first: Result<()>, second: Result<()>)
    requires c.Valid()
    requires caller != Anonymous && ValidateKyc(c.users, caller).Ok?
    requires proposalId in c.proposals
    requires c.proposals[proposalId].status.Active? && !VotingEnded(c.proposals[proposalId], now)
    requires TokenBalance(c.investments, caller, c.proposals[proposalId].propertyId) > 0
    requires c.proposals[proposalId].votesFor
               + 2 * TokenBalance(c.investments, caller, c.proposals[proposalId].propertyId)
             < c.proposals[proposalId].votingPowerRequired
    requires c.proposals[proposalId].votingPowerRequired <= MaxU64
    modifies c`proposals
    ensures c.Valid()
    ensures first.Ok? && second.Ok?
    ensures proposalId in c.proposals && c.proposals[proposalId].status.Active?
    ensures c.proposals[proposalId].votesFor
              == old(c.proposals[proposalId].votesFor)
                 + 2 * TokenBalance(c.investments, caller, c.proposals[proposalId].propertyId)
  {
    first := VoteOnProposal(c, caller, now, proposalId, true);
    second := VoteOnProposal(c, caller, now, proposalId, true);
  }

  /** `get_property_proposals`: exactly the stored proposals about the property. */
  function GetPropertyProposals(proposals: map<nat, GovernanceProposal>, pid: nat): (r: seq<GovernanceProposal>)
    ensures forall i :: 0 <= i < |r| ==> r[i] in proposals.Values && r[i].propertyId == pid
    ensures forall id :: id in proposals && proposals[id].propertyId == pid ==> proposals[id] in r
    ensures (forall k :: k in proposals ==> proposals[k].id == k) ==>
              forall i, j :: 0 <= i < j < |r| ==> r[i].id < r[j].id
  {
    var all, id, keep := Entries(proposals), (p: GovernanceProposal) => p.id, (p: GovernanceProposal) => p.propertyId == pid;
    EntriesIncreasing(proposals, id);
    FilterKeepsOrder(all, keep, id);
    Filter(all, keep)
  }
}
