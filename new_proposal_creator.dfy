/** The stateful wrapper around the new-proposal form: whether the DAO is
    paused, and `createProposal`, which publishes the proposal, gathers what
    the success card shows and drives the loading indicator. The awaited
    chain queries are inputs: each is either the value it resolves to or the
    error it rejects with. */
module NewProposalCreator {
  import opened Cosmos
  import opened NewProposalForm

  /** `pauseInfo.state === 'hasValue' && ('paused' in … || 'Paused' in …)`;
      the loaded pause info is modelled by its set of keys. */
  function IsPaused(pauseInfo: Loadable<set<string>>): (paused: bool)
    ensures paused <==> pauseInfo.HasValue? && ("paused" in pauseInfo.contents || "Paused" in pauseInfo.contents)
    ensures !pauseInfo.HasValue? ==> !paused
  {
    match pauseInfo
    case HasValue(keys) => "paused" in keys || "Paused" in keys
    case _ => false
  }

  /** A pause state that has not loaded (or failed to) never disables
      publishing by itself: the button behaves as for a running DAO. */
  lemma PauseUnknownNeverDisables(
    pauseInfo: Loadable<set<string>>, connected: bool, anyoneCanPropose: bool, isMember: bool, depositUnsatisfied: bool)
    requires !pauseInfo.HasValue?
    ensures PublishDisabled(connected, anyoneCanPropose, isMember, depositUnsatisfied, IsPaused(pauseInfo))
      == PublishDisabled(connected, anyoneCanPropose, isMember, depositUnsatisfied, false)
  {
  }

  /** The seconds for which a failed simulation may be bypassed. */
  const FailedSimulationBypassSeconds: nat := 10

  datatype PublishedProposal = PublishedProposal(proposalNumber: nat, proposalId: string)

  /** Threshold and optional quorum, already formatted for display. */
  datatype ThresholdQuorum = ThresholdQuorum(threshold: string, quorum: Option<string>)

  datatype InfoLine = ThresholdLine(thresholdDisplay: string) | QuorumLine(quorumDisplay: string) | ExpirationLine(remaining: string)

  /** The DAO the card links to: its name, core address and image. */
  datatype CardDao = CardDao(name: string, coreAddress: string, imageUrl: Option<string>)

  /** What `onCreateSuccess` receives. */
  datatype ProposalCard = ProposalCard(id: string, title: string, description: string, info: seq<InfoLine>, dao: CardDao)

  /** The info lines of the success card: the threshold, then the quorum when
      there is one, then the time left when the expiration has a date. */
  function InfoLines(tq: ThresholdQuorum, expirationDate: Option<string>): (lines: seq<InfoLine>)
    ensures |lines| == 1 + (if tq.quorum.Some? then 1 else 0) + (if expirationDate.Some? then 1 else 0)
    ensures lines[0] == ThresholdLine(tq.threshold)
    ensures tq.quorum.Some? ==> lines[1] == QuorumLine(tq.quorum.value)
    ensures expirationDate.Some? ==> lines[|lines| - 1] == ExpirationLine(expirationDate.value)
    ensures forall i :: 0 <= i < |lines| ==> (lines[i].ThresholdLine? <==> i == 0)
  {
    [ThresholdLine(tq.threshold)]
      + (if tq.quorum.Some? then [QuorumLine(tq.quorum.value)] else [])
      + (if expirationDate.Some? then [ExpirationLine(expirationDate.value)] else [])
  }

  datatype CreateOutcome =
    | NoBlockHeight
    | CreateFailed(error: string)
    | Created(card: ProposalCard)

  /** What one `createProposal` call ends in. Without a block height nothing
      is published. Otherwise the proposal is published, its info fetched
      (possibly none), the proposal queried for its threshold; the first
      rejection ends the call. `toDate` is the expiration-to-time-left
      conversion at the given block height; `dao` is the DAO the page is
      for. */
  function Outcome(
    blockHeight: Option<nat>,
    dao: CardDao,
    data: NewProposalData,
    publish: Step<PublishedProposal>,
    proposalInfo: Step<Option<Expiration>>,
    tq: Step<ThresholdQuorum>,
    toDate: (Expiration, nat) -> Option<string>): (o: CreateOutcome)
    ensures o == NoBlockHeight <==> blockHeight.None?
    ensures o.Created? <==> blockHeight.Some? && publish.Resolved? && proposalInfo.Resolved? && tq.Resolved?
    ensures o.CreateFailed? ==>
      o.error == (if publish.Rejected? then publish.error
                  else if proposalInfo.Rejected? then proposalInfo.error
                  else tq.error)
    ensures o.Created? ==>
      o.card.id == publish.value.proposalId && o.card.title == data.title
      && o.card.description == data.description && o.card.dao == dao
    ensures o.Created? ==> (o.card.info == [] <==> proposalInfo.value.None?)
    ensures o.Created? && proposalInfo.value.Some? ==>
      o.card.info == InfoLines(tq.value, toDate(proposalInfo.value.value, blockHeight.value))
  {
    if blockHeight.None? then NoBlockHeight
    else if publish.Rejected? then CreateFailed(publish.error)
    else if proposalInfo.Rejected? then CreateFailed(proposalInfo.error)
    else if tq.Rejected? then CreateFailed(tq.error)
    else
      var info :=
        match proposalInfo.value
        case None => []
        case Some(expiration) => InfoLines(tq.value, toDate(expiration, blockHeight.value));
      Created(ProposalCard(publish.value.proposalId, data.title, data.description, info, dao))
  }

  class ProposalCreator {
    var loading: bool
    /** Error toasts shown, oldest first. */
    var toasts: seq<string>
    /** Cards handed to `onCreateSuccess`. */
    var created: seq<ProposalCard>
    /** Every value passed to `setLoading`, in order. */
    ghost var loadingWrites: seq<bool>

    constructor ()
      ensures !loading && toasts == [] && created == [] && loadingWrites == []
    {
      loading := false;
      toasts := [];
      created := [];
      loadingWrites := [];
    }

    /** `createProposal`. Returns the bypass window requested from
        `publishProposal`, when it was called. Loading starts before
        publishing and stops only on failure: on success the page navigates
        away with the indicator still on. */
    method CreateProposal(
      blockHeight: Option<nat>,
      dao: CardDao,
      data: NewProposalData,
      publish: Step<PublishedProposal>,
      proposalInfo: Step<Option<Expiration>>,
      tq: Step<ThresholdQuorum>,
      toDate: (Expiration, nat) -> Option<string>) returns (bypassSeconds: Option<nat>)
      modifies this
      ensures bypassSeconds == (if blockHeight.Some? then Some(FailedSimulationBypassSeconds) else None)
      ensures match Outcome(blockHeight, dao, data, publish, proposalInfo, tq, toDate)
        case NoBlockHeight =>
          loading == old(loading) && loadingWrites == old(loadingWrites)
          && toasts == old(toasts) + ["error.loadingData"] && created == old(created)
        case CreateFailed(e) =>
          !loading && loadingWrites == old(loadingWrites) + [true, false]
          && toasts == old(toasts) + [e] && created == old(created)
        case Created(card) =>
          loading && loadingWrites == old(loadingWrites) + [true]
          && toasts == old(toasts) && created == old(created) + [card]
    {
      if blockHeight.None? {
        toasts := toasts + ["error.loadingData"];
        return None;
      }
      loading := true;
      loadingWrites := loadingWrites + [true];
      bypassSeconds := Some(FailedSimulationBypassSeconds);
      var outcome := Outcome(blockHeight, dao, data, publish, proposalInfo, tq, toDate);
      match outcome {
        case Created(card) =>
          created := created + [card];
        case CreateFailed(e) =>
          toasts := toasts + [e];
          loading := false;
          loadingWrites := loadingWrites + [false];
        case NoBlockHeight =>
          assert false;
      }
    }
  }

  /** A successful call never turns the indicator off, and every failure
      does. */
  lemma LoadingStopsOnlyOnFailure(
    blockHeight: Option<nat>, dao: CardDao, data: NewProposalData, publish: Step<PublishedProposal>,
    proposalInfo: Step<Option<Expiration>>, tq: Step<ThresholdQuorum>, toDate: (Expiration, nat) -> Option<string>)
    requires blockHeight.Some?
    ensures Outcome(blockHeight, dao, data, publish, proposalInfo, tq, toDate).CreateFailed? <==>
      publish.Rejected? || proposalInfo.Rejected? || tq.Rejected?
  {
  }
}
