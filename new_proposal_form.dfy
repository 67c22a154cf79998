/** The stateless new-proposal form of single-choice proposals: the list of
    actions being drafted, the submit handler that turns them into messages,
    the preview toggle, and the predicates that gate the publish and
    save-draft buttons. `D` is the data an action's form holds. */
module NewProposalForm {
  import opened Cosmos

  datatype ActionEntry<D> = ActionEntry(key: string, data: D)

  /** An action loaded for this DAO: the defaults a new entry starts from and
      its transform. */
  datatype LoadedAction<!D> = LoadedAction(defaults: D, transform: D -> Transformed)

  /** Title, description and messages handed to `createProposal`. */
  datatype NewProposalData = NewProposalData(title: string, description: string, msgs: seq<CosmosMsg>)

  /** The `value` of the button that submitted the form (none when the form
      is submitted some other way). */
  datatype Submitter = PreviewButton | PublishButton | NoSubmitter

  /** The outcome of one entry: its action's transform, or nothing when the
      key is not among the loaded actions. */
  function EntryOutcome<D>(e: ActionEntry<D>, loaded: map<string, LoadedAction<D>>): Transformed
  {
    if e.key in loaded then loaded[e.key].transform(e.data) else NoMessage
  }

  datatype MsgsResult = Msgs(msgs: seq<CosmosMsg>) | TransformError(error: string)

  /** The submit handler's `actionData.map(transform).filter(Boolean)`: the
      entries are transformed in order, entries with no message are dropped,
      and the first transform that throws aborts with its error. */
  function BuildMsgs<D>(entries: seq<ActionEntry<D>>, loaded: map<string, LoadedAction<D>>): (r: MsgsResult)
    ensures r.Msgs? ==> |r.msgs| <= |entries|
  {
    if entries == [] then Msgs([])
    else
      match EntryOutcome(entries[0], loaded)
      case Throws(e) => TransformError(e)
      case NoMessage => BuildMsgs(entries[1..], loaded)
      case Message(m) =>
        match BuildMsgs(entries[1..], loaded)
        case Msgs(ms) => Msgs([m] + ms)
        case TransformError(e) => TransformError(e)
  }

  /** The preview's message list: the same map and filter, but an entry whose
      transform throws is dropped instead of aborting. */
  function PreviewMsgs<D>(entries: seq<ActionEntry<D>>, loaded: map<string, LoadedAction<D>>): (r: seq<CosmosMsg>)
    ensures |r| <= |entries|
  {
    if entries == [] then []
    else
      match EntryOutcome(entries[0], loaded)
      case Message(m) => [m] + PreviewMsgs(entries[1..], loaded)
      case _ => PreviewMsgs(entries[1..], loaded)
  }

  predicate NoneThrows<D>(entries: seq<ActionEntry<D>>, loaded: map<string, LoadedAction<D>>)
  {
    forall i :: 0 <= i < |entries| ==> !EntryOutcome(entries[i], loaded).Throws?
  }

  /** Submitting fails exactly when some transform throws, and then with the
      error of the first one that does. */
  lemma {:induction false} BuildMsgsFailsIffSomeThrows<D>(entries: seq<ActionEntry<D>>, loaded: map<string, LoadedAction<D>>)
    ensures BuildMsgs(entries, loaded).Msgs? <==> NoneThrows(entries, loaded)
    ensures BuildMsgs(entries, loaded).TransformError? ==>
      exists i :: 0 <= i < |entries| && EntryOutcome(entries[i], loaded) == Throws(BuildMsgs(entries, loaded).error)
        && NoneThrows(entries[..i], loaded)
  {
    if entries != [] {
      BuildMsgsFailsIffSomeThrows(entries[1..], loaded);
      var rest := entries[1..];
      assert NoneThrows(entries, loaded) <==> !EntryOutcome(entries[0], loaded).Throws? && NoneThrows(rest, loaded) by {
        if !EntryOutcome(entries[0], loaded).Throws? && NoneThrows(rest, loaded) {
          forall i | 0 <= i < |entries| ensures !EntryOutcome(entries[i], loaded).Throws? {
            if i > 0 { assert entries[i] == rest[i - 1]; }
          }
        }
        if NoneThrows(entries, loaded) {
          forall i | 0 <= i < |rest| ensures !EntryOutcome(rest[i], loaded).Throws? {
            assert rest[i] == entries[i + 1];
          }
        }
      }
      var r := BuildMsgs(entries, loaded);
      if r.TransformError? {
        if EntryOutcome(entries[0], loaded).Throws? {
          assert entries[..0] == [];
        } else {
          var j :| 0 <= j < |rest| && EntryOutcome(rest[j], loaded) == Throws(r.error) && NoneThrows(rest[..j], loaded);
          assert entries[j + 1] == rest[j];
          var prefix := entries[..j + 1];
          assert NoneThrows(prefix, loaded) by {
            forall i | 0 <= i < |prefix| ensures !EntryOutcome(prefix[i], loaded).Throws? {
              if i > 0 { assert prefix[i] == rest[..j][i - 1]; }
            }
          }
        }
      }
    }
  }

  /** Transforming is done entry by entry in order: the messages of a
      concatenation are the concatenation of the messages, and the first
      list's error wins. */
  lemma {:induction false} BuildMsgsAppend<D>(a: seq<ActionEntry<D>>, b: seq<ActionEntry<D>>, loaded: map<string, LoadedAction<D>>)
    ensures BuildMsgs(a + b, loaded) ==
      match BuildMsgs(a, loaded)
      case TransformError(e) => TransformError(e)
      case Msgs(ma) =>
        match BuildMsgs(b, loaded)
        case TransformError(e) => TransformError(e)
        case Msgs(mb) => Msgs(ma + mb)
  {
    if a == [] {
      assert a + b == b;
    } else {
      assert (a + b)[0] == a[0];
      assert (a + b)[1..] == a[1..] + b;
      BuildMsgsAppend(a[1..], b, loaded);
    }
  }

  /** When every entry yields a message, the submitted messages are exactly
      the entries' messages, position by position. */
  lemma {:induction false} AllMessagesKept<D>(entries: seq<ActionEntry<D>>, loaded: map<string, LoadedAction<D>>)
    requires forall i :: 0 <= i < |entries| ==> EntryOutcome(entries[i], loaded).Message?
    ensures BuildMsgs(entries, loaded).Msgs?
    ensures |BuildMsgs(entries, loaded).msgs| == |entries|
    ensures forall i :: 0 <= i < |entries| ==> BuildMsgs(entries, loaded).msgs[i] == EntryOutcome(entries[i], loaded).msg
  {
    if entries != [] {
      assert EntryOutcome(entries[0], loaded).Message?;
      forall i | 0 <= i < |entries[1..]| ensures EntryOutcome(entries[1..][i], loaded).Message? {
        assert entries[1..][i] == entries[i + 1];
      }
      AllMessagesKept(entries[1..], loaded);
      var ms := BuildMsgs(entries[1..], loaded).msgs;
      forall i | 0 <= i < |entries| ensures BuildMsgs(entries, loaded).msgs[i] == EntryOutcome(entries[i], loaded).msg {
        if i > 0 { assert entries[i] == entries[1..][i - 1]; }
      }
    }
  }

  /** The preview shows what publishing would submit whenever nothing throws. */
  lemma {:induction false} PreviewAgreesWithSubmit<D>(entries: seq<ActionEntry<D>>, loaded: map<string, LoadedAction<D>>)
    requires BuildMsgs(entries, loaded).Msgs?
    ensures PreviewMsgs(entries, loaded) == BuildMsgs(entries, loaded).msgs
  {
    if entries != [] {
      PreviewAgreesWithSubmit(entries[1..], loaded);
    }
  }

  /** The publish button is disabled without a wallet, for a non-member when
      only members may propose, when the deposit cannot be paid, and while
      the DAO is paused. */
  predicate PublishDisabled(connected: bool, anyoneCanPropose: bool, isMember: bool, depositUnsatisfied: bool, isPaused: bool)
  {
    !connected || (!anyoneCanPropose && !isMember) || depositUnsatisfied || isPaused
  }

  datatype PublishHint = ConnectWalletToContinue | NotEnoughForDeposit | DaoIsPaused

  /** The publish button's tooltip, the first reason that applies. */
  function PublishTooltip(connected: bool, depositUnsatisfied: bool, isPaused: bool): (h: Option<PublishHint>)
    ensures h == Some(ConnectWalletToContinue) <==> !connected
    ensures h == Some(NotEnoughForDeposit) <==> connected && depositUnsatisfied
    ensures h == Some(DaoIsPaused) <==> connected && !depositUnsatisfied && isPaused
  {
    if !connected then Some(ConnectWalletToContinue)
    else if depositUnsatisfied then Some(NotEnoughForDeposit)
    else if isPaused then Some(DaoIsPaused)
    else None
  }

  /** Every tooltip explains a disabled button, and the one disabling reason
      without a tooltip is missing membership. */
  lemma TooltipExplainsDisabled(connected: bool, anyoneCanPropose: bool, isMember: bool, depositUnsatisfied: bool, isPaused: bool)
    ensures PublishTooltip(connected, depositUnsatisfied, isPaused).Some? ==>
      PublishDisabled(connected, anyoneCanPropose, isMember, depositUnsatisfied, isPaused)
    ensures (PublishDisabled(connected, anyoneCanPropose, isMember, depositUnsatisfied, isPaused)
             && PublishTooltip(connected, depositUnsatisfied, isPaused).None?) <==>
      connected && !depositUnsatisfied && !isPaused && !anyoneCanPropose && !isMember
  {
  }

  datatype WalletStatus = Initializing | AttemptingAutoConnection | Connecting | Connected | Disconnected | ConnectionError

  /** Whether the wallet is still on its way to a connection. */
  predicate StillConnecting(status: WalletStatus)
  {
    status == Initializing || status == AttemptingAutoConnection || status == Connecting
  }

  /** The "must be a member" note: shown once the wallet has settled, when
      only members may propose and the wallet is not one. */
  predicate MemberNoteShown(anyoneCanPropose: bool, isMember: bool, status: WalletStatus)
  {
    !anyoneCanPropose && !isMember && !StillConnecting(status)
  }

  /** The note explains a disabled publish button that has no tooltip of
      its own. */
  lemma MemberNoteExplainsDisabled(connected: bool, anyoneCanPropose: bool, isMember: bool, depositUnsatisfied: bool, isPaused: bool, status: WalletStatus)
    requires MemberNoteShown(anyoneCanPropose, isMember, status)
    ensures PublishDisabled(connected, anyoneCanPropose, isMember, depositUnsatisfied, isPaused)
  {
  }

  /** The save-draft button: disabled, with a hint to enter a name, exactly
      when the title is empty. */
  function SaveDraftHint(title: string): (hint: Option<string>)
    ensures hint.Some? <==> title == ""
    ensures hint.Some? ==> hint.value == "info.enterNameBeforeSavingDraft"
  {
    if title == "" then Some("info.enterNameBeforeSavingDraft") else None
  }

  class ProposalForm<D> {
    var title: string
    var description: string
    var actionData: seq<ActionEntry<D>>
    var showPreview: bool
    var showSubmitErrorNote: bool
    var submitError: string

    constructor (title: string, description: string, actionData: seq<ActionEntry<D>>)
      ensures this.title == title && this.description == description && this.actionData == actionData
      ensures !showPreview && !showSubmitErrorNote && submitError == ""
    {
      this.title := title;
      this.description := description;
      this.actionData := actionData;
      showPreview := false;
      showSubmitErrorNote := false;
      submitError := "";
    }

    /** `onSubmitForm`. Clears both error displays; a preview submit only
        toggles the preview; otherwise the messages are built and, unless a
        transform threw, the proposal data is handed to `createProposal`
        (returned here as `created`). */
    method Submit(submitter: Submitter, loaded: map<string, LoadedAction<D>>) returns (created: Option<NewProposalData>)
      modifies this`showPreview, this`showSubmitErrorNote, this`submitError
      ensures !showSubmitErrorNote
      ensures submitter == PreviewButton ==>
        showPreview == !old(showPreview) && submitError == "" && created.None?
      ensures submitter != PreviewButton ==> showPreview == old(showPreview)
      ensures submitter != PreviewButton && BuildMsgs(actionData, loaded).Msgs? ==>
        submitError == "" && created == Some(NewProposalData(title, description, BuildMsgs(actionData, loaded).msgs))
      ensures submitter != PreviewButton && BuildMsgs(actionData, loaded).TransformError? ==>
        submitError == BuildMsgs(actionData, loaded).error && created.None?
    {
      showSubmitErrorNote := false;
      submitError := "";
      if submitter == PreviewButton {
        showPreview := !showPreview;
        return None;
      }
      match BuildMsgs(actionData, loaded) {
        case TransformError(e) =>
          submitError := e;
          created := None;
        case Msgs(msgs) =>
          created := Some(NewProposalData(title, description, msgs));
      }
    }

    /** `onSubmitError`: validation failed before the handler ran. */
    method SubmitInvalid()
      modifies this`showSubmitErrorNote
      ensures showSubmitErrorNote
    {
      showSubmitErrorNote := true;
    }

    /** Selecting an action appends an entry for it holding a copy of its
        defaults (an empty object for an action that is not loaded). */
    method SelectAction(key: string, loaded: map<string, LoadedAction<D>>, emptyData: D)
      modifies this`actionData
      ensures |actionData| == |old(actionData)| + 1
      ensures actionData[..|old(actionData)|] == old(actionData)
      ensures actionData[|old(actionData)|] ==
        ActionEntry(key, if key in loaded then loaded[key].defaults else emptyData)
    {
      var data := if key in loaded then loaded[key].defaults else emptyData;
      actionData := actionData + [ActionEntry(key, data)];
    }

    /** Removing the entry at `index`: its data is reset to an empty object,
        then the entry is removed; the other entries keep their order. */
    method RemoveAction(index: nat, emptyData: D)
      requires index < |actionData|
      modifies this`actionData
      ensures actionData == old(actionData)[..index] + old(actionData)[index + 1..]
    {
      actionData := actionData[index := ActionEntry(actionData[index].key, emptyData)];
      actionData := actionData[..index] + actionData[index + 1..];
    }
  }
}
