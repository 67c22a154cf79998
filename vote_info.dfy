/** What a single-choice proposal page knows about the connected wallet's
    vote: whether it is still loading, the recorded vote, whether the wallet
    could vote when the proposal opened and can vote now, and its share of
    the voting power at the proposal's start. */
module VoteInfo {
  import opened Cosmos

  datatype Vote = Yes | No | Abstain

  /** The proposal fields the hook reads. */
  datatype Proposal = Proposal(startHeight: nat, votingOpen: bool, allowRevoting: bool)

  datatype WalletVoteInfo = WalletVoteInfo(
    vote: Option<Vote>,
    couldVote: bool,
    canVote: bool,
    votingPowerPercent: real)

  /** `useLoadingWalletVoteInfo`. `walletAddress` is the connected wallet (an
      empty address is no wallet); the three loadables are the wallet's vote,
      its power at the start height and the total power there. */
  function LoadingWalletVoteInfo(
    walletAddress: Option<string>,
    proposal: LoadingData<Proposal>,
    walletVote: Loadable<Option<Vote>>,
    walletPower: Loadable<nat>,
    totalPower: Loadable<nat>): (r: Option<LoadingData<WalletVoteInfo>>)
    ensures r.None? <==> walletAddress in {None, Some("")}
    ensures r == Some(IsLoading) <==>
      r.Some? && (proposal.IsLoading? || !walletVote.HasValue? || !walletPower.HasValue? || !totalPower.HasValue?)
    ensures r.Some? && r.value.Loaded? ==>
      var info := r.value.data;
      info.vote == walletVote.contents
      && (info.couldVote <==> walletPower.contents > 0)
      && (info.canVote <==> info.couldVote && proposal.data.votingOpen
                            && (walletVote.contents.None? || proposal.data.allowRevoting))
      && (totalPower.contents == 0 ==> info.votingPowerPercent == 0.0)
      && (totalPower.contents > 0 ==>
            info.votingPowerPercent * totalPower.contents as real == 100.0 * walletPower.contents as real)
  {
    if walletAddress.None? || walletAddress.value == "" then None
    else if proposal.IsLoading? || !walletVote.HasValue? || !walletPower.HasValue? || !totalPower.HasValue? then
      Some(IsLoading)
    else
      var p := proposal.data;
      var vote := walletVote.contents;
      var power := walletPower.contents;
      var total := totalPower.contents;
      var couldVote := power > 0;
      var canVote := couldVote && p.votingOpen && (vote.None? || p.allowRevoting);
      Some(Loaded(WalletVoteInfo(
        vote,
        couldVote,
        canVote,
        (if total == 0 then 0.0 else power as real / total as real) * 100.0)))
  }

  /** A wallet that can vote now could vote when the proposal opened. */
  lemma CanVoteImpliesCouldVote(
    walletAddress: Option<string>, proposal: LoadingData<Proposal>,
    walletVote: Loadable<Option<Vote>>, walletPower: Loadable<nat>, totalPower: Loadable<nat>)
    requires var r := LoadingWalletVoteInfo(walletAddress, proposal, walletVote, walletPower, totalPower);
      r.Some? && r.value.Loaded?
    ensures var info := LoadingWalletVoteInfo(walletAddress, proposal, walletVote, walletPower, totalPower).value.data;
      info.canVote ==> info.couldVote
  {
  }

  /** A wallet whose power is part of the total holds between 0 and 100
      percent of it. */
  lemma PercentInRange(
    walletAddress: Option<string>, proposal: LoadingData<Proposal>,
    walletVote: Loadable<Option<Vote>>, walletPower: Loadable<nat>, totalPower: Loadable<nat>)
    requires var r := LoadingWalletVoteInfo(walletAddress, proposal, walletVote, walletPower, totalPower);
      r.Some? && r.value.Loaded?
    requires walletPower.contents <= totalPower.contents
    ensures var info := LoadingWalletVoteInfo(walletAddress, proposal, walletVote, walletPower, totalPower).value.data;
      0.0 <= info.votingPowerPercent <= 100.0
  {
    var w := walletPower.contents as real;
    var t := totalPower.contents as real;
    if t > 0.0 {
      assert w / t <= 1.0 by {
        assert w / t * t == w;
      }
    }
  }

  /** Once a wallet has voted on a proposal without revoting, it cannot vote
      again, whatever its power. */
  lemma VotedWithoutRevotingCannotVote(
    walletAddress: Option<string>, proposal: LoadingData<Proposal>,
    walletVote: Loadable<Option<Vote>>, walletPower: Loadable<nat>, totalPower: Loadable<nat>)
    requires var r := LoadingWalletVoteInfo(walletAddress, proposal, walletVote, walletPower, totalPower);
      r.Some? && r.value.Loaded?
    requires walletVote.contents.Some? && !proposal.data.allowRevoting
    ensures !LoadingWalletVoteInfo(walletAddress, proposal, walletVote, walletPower, totalPower).value.data.canVote
  {
  }
}
