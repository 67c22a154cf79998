# DAO DAO interface core, modelled in Dafny

This project models the core of the DAO DAO web interface, a front end for
DAOs on Cosmos chains, and proves properties of the model. The modelled parts:

- three proposal actions. Each is an encoder from form data to a Cosmos
  message and a decoder back:
  - Transfer NFT: a cw721 `transfer_nft` or `send_nft`;
  - Spend: a bank send or a cw20 `transfer`;
  - Swap tokens on Wynd: a multi-hop `execute_swap_operations`, with its
    referral commission, its route check and the effects of the swap form;
- the single-choice new-proposal form and the component that publishes the
  proposal;
- the hook that tells a wallet whether it can vote;
- the orderings of the pinned-DAO list;
- the member card of a native-staking DAO, with its claim button;
- the server-side loader of DAO pages and proposal pages, including the
  chain of parent DAOs.

Every chain query, wallet call and awaited promise is an input of the model.
It is the value the query resolves to or what it throws (`Step`,
`Attempt`, `Loadable`). Translations are their keys. Amounts are exact
reals. Converting to micro-units multiplies by `10^decimals`.

Components that update state become classes:
- `ProposalForm`, `ProposalCreator` and `ClaimButton`;
- `SwapForm`, the state kept by the Wynd swap component.

Each method is proved against a function of the old state. Effects are
described by functions over a `SimState`, so lemmas can reason about
sequences of effects.

The member card divides the wallet's stake by the total stake with no
guard, so its voting-power share can be NaN or Infinity; the model keeps
those values (`JsReal`). The vote-info hook does guard against an empty
total.

Files:
- `cosmos.dfy`: messages, tokens, decimal conversion, JSON encoding.
- `transfer_nft.dfy`, `spend.dfy`, `wynd_swap.dfy`: the actions.
- `wynd_swap_form.dfy`: the swap component's effects.
- `new_proposal_form.dfy`, `new_proposal_creator.dfy`: proposal
  creation.
- `vote_info.dfy`, `pinned_daos.dfy`, `member_info.dfy`: the wallet
  vote, the pinned list and the member card.
- `dao_static_props.dfy`: the page loader.

## Model

| member | source | states |
|---|---|---|
| Cosmos.EncodeJson | packages/stateful/actions/actions/nft/TransferNft.tsx:63 | parsing an encoded contract message gives it back |
| Cosmos.ToMicro | packages/stateful/actions/actions/Spend.tsx:80-83 | converting to micro-units is undone by converting back, and never shrinks a non-negative amount |
| Cosmos.ResolveToken | packages/stateful/actions/actions/Spend.tsx:145-154 | the token selector answers exactly when the chain knows the token, with the type it was asked for and the chain's decimals |
| TransferNftAction.Transform | packages/stateful/actions/actions/nft/TransferNft.tsx:45-77 | an execute on the collection with no funds; `send_nft` exactly when a contract is to be executed, carrying the encoded message; `transfer_nft` otherwise |
| TransferNftAction.Decode | packages/stateful/actions/actions/nft/TransferNft.tsx:79-135 | matches exactly the `transfer_nft` and `send_nft` executes and reads each field from the right place; a plain transfer restores `'{}'` |
| TransferNftAction.RoundTrip | packages/stateful/actions/actions/nft/TransferNft.tsx:45-135 | decoding an encoded form gives back collection, token, recipient and mode; the whole form comes back exactly when it sends to a contract or its message is `'{}'` |
| TransferNftAction.TransferForgetsContractMsg | packages/stateful/actions/actions/nft/TransferNft.tsx:96-106 | a plain transfer with another contract message does not come back as itself |
| TransferNftAction.ReEncode | packages/stateful/actions/actions/nft/TransferNft.tsx:45-135 | re-encoding a recognised message gives an execute on the same collection with no funds: a `transfer_nft` comes back as itself, a `send_nft` with the same contract and token and a payload that parses to the same message |
| SpendAction.FindToken | packages/stateful/actions/actions/Spend.tsx:72-74 | none exactly when no balance has the denom; otherwise the first balance with it |
| SpendAction.Transform | packages/stateful/actions/actions/Spend.tsx:63-111 | no message while balances load; throws `Unknown token: <denom>` exactly when the denom is not among the balances; otherwise a bank send of one coin of the micro-amount for a native token, or a cw20 `transfer` of the micro-amount on the token contract |
| SpendAction.Decode | packages/stateful/actions/actions/Spend.tsx:113-187 | matches exactly a one-coin bank send or a cw20 transfer whose token the chain resolves; recipient, amount in display units and denom as read from the message |
| SpendAction.RoundTrip | packages/stateful/actions/actions/Spend.tsx:63-187 | a held token that the chain resolves to the same token decodes back to the very form encoded |
| SpendAction.OtherShapesDoNotMatch | packages/stateful/actions/actions/Spend.tsx:116-158 | a message of neither shape is never a match |
| WyndSwapAction.ReferralCommission | packages/stateful/actions/actions/wynd/WyndSwap.tsx:71-103 | loading and failure pass through; the commission is the smaller of DAO DAO's rate and the factory maximum |
| WyndSwapAction.TokenAssetInfo | packages/stateful/actions/actions/wynd/WyndSwap.tsx:133-140 | the asset info of a token has the token's denom and type |
| WyndSwapAction.ValidRoute | packages/stateful/actions/actions/wynd/WyndSwap.tsx:561-575 | a route fits the form exactly when it is present, non-empty, its first operation offers the input token and its last asks for the output token |
| WyndSwapAction.SwapMessage | packages/stateful/actions/actions/wynd/WyndSwap.tsx:577-596 | the swap carries the route's operations, the minimum output in micro-units exactly when the form has one, the slippage as the spread, the referral address and commission, and the form's receiver |
| WyndSwapAction.Transform | packages/stateful/actions/actions/wynd/WyndSwap.tsx:548-631 | a message exactly when the commission has loaded and the route starts at the input token and ends at the output token; for a native input a funded execute on the multi-hop contract whose body is the swap message, otherwise a cw20 send of the micro-amount whose payload parses to that same swap message |
| WyndSwapAction.IsValidSwapMsg | packages/stateful/actions/actions/wynd/WyndSwap.tsx:633-645 | a contract message is a valid swap message exactly when it is an `execute_swap_operations` with one operation |
| WyndSwapAction.FoundSwapMsg | packages/stateful/actions/actions/wynd/WyndSwap.tsx:652-698 | a swap message is found exactly for a native execute whose body is a valid swap message or a cw20 send whose payload is one; it is that body or that payload, and has exactly one operation |
| WyndSwapAction.Decode | packages/stateful/actions/actions/wynd/WyndSwap.tsx:647-770 | a match exactly when a swap message is found and both of its operation's assets resolve to tokens; then those tokens, the input amount in display units from the funds or the cw20 amount, the output amount unknown (-1), the slippage as the message's spread, the minimum in display units exactly when the message has one, and the message's receiver unless it is missing or empty, in which case the DAO |
| WyndSwapAction.SingleHopRoundTrip | packages/stateful/actions/actions/wynd/WyndSwap.tsx:548-770 | a one-hop swap with known tokens and a receiver decodes back to its form with the output amount reset |
| WyndSwapAction.MultiHopNotDecoded | packages/stateful/actions/actions/wynd/WyndSwap.tsx:561-645 | the encoder accepts multi-hop routes that the decoder never recognises |
| WyndSwapAction.ReturnAmountsOf | packages/stateful/actions/actions/wynd/WyndSwap.tsx:235-237 | as many amounts as `return_amount` attributes, and never more than attributes |
| WyndSwapAction.ReturnAmountAtRank | packages/stateful/actions/actions/wynd/WyndSwap.tsx:231-239 | the amount at a `return_amount` attribute's rank among those attributes is that attribute's value |
| WyndSwapAction.ReturnAmountRanksIncrease | packages/stateful/actions/actions/wynd/WyndSwap.tsx:231-239 | a later `return_amount` attribute has a strictly greater rank |
| WyndSwapAction.ExecutedOutAmount | packages/stateful/actions/actions/wynd/WyndSwap.tsx:197-265 | an amount exactly for a swap action when the swap actions and `return_amount` attributes are equally many; then the attribute at the action's rank among the swaps, in display units |
| WyndSwapAction.RanksIncrease | packages/stateful/actions/actions/wynd/WyndSwap.tsx:215-222 | two swap actions read two different amounts, in list order |
| WyndSwapAction.ReturnAmountsOfNone | packages/stateful/actions/actions/wynd/WyndSwap.tsx:231-239 | the `some` test is redundant: an event without `return_amount` contributes nothing anyway |
| WyndSwapForm.FirstChangeOnlyMarks | packages/stateful/actions/actions/wynd/WyndSwap.tsx:273-331 | the first run of each amount effect only marks its side as set |
| WyndSwapForm.EditSimulatesOtherSide | packages/stateful/actions/actions/wynd/WyndSwap.tsx:295-330 | a non-zero edit with nothing simulating asks for the other side to be simulated |
| WyndSwapForm.NoSimulationLoop | packages/stateful/actions/actions/wynd/WyndSwap.tsx:295-497 | the write made by a simulation does not start another simulation |
| WyndSwapForm.ZeroSettles | packages/stateful/actions/actions/wynd/WyndSwap.tsx:288-323 | a zero on either side leaves both at zero with nothing simulating |
| WyndSwapForm.ExecutedFreezes | packages/stateful/actions/actions/wynd/WyndSwap.tsx:279-475 | once executed, the amount effects change nothing and the simulation effect clears the simulated side |
| WyndSwapForm.FailedSimulationStops | packages/stateful/actions/actions/wynd/WyndSwap.tsx:477-485 | a failed simulation stops simulating and keeps both amounts |
| WyndSwapForm.SwapForm.constructor | packages/stateful/actions/actions/wynd/WyndSwap.tsx:270-278 | the output side is simulated first and neither side has been seen changing |
| WyndSwapForm.SwapForm.TokenInEffect | packages/stateful/actions/actions/wynd/WyndSwap.tsx:279-308 | the new state is the input effect applied to the old one; route and errors unchanged |
| WyndSwapForm.SwapForm.TokenOutEffect | packages/stateful/actions/actions/wynd/WyndSwap.tsx:309-338 | the new state is the output effect applied to the old one; route and errors unchanged |
| WyndSwapForm.SwapForm.SimulationEffect | packages/stateful/actions/actions/wynd/WyndSwap.tsx:470-506 | the new state is the simulation effect applied to the old one |
| WyndSwapForm.SwapForm.RouteEffect | packages/stateful/actions/actions/wynd/WyndSwap.tsx:365-412 | an unloaded route flags loading; a loaded one is stored, and while drafting it is flagged invalid exactly when it does not fit the tokens; other errors untouched |
| WyndSwapForm.SwapForm.ExecutedAmountEffect | packages/stateful/actions/actions/wynd/WyndSwap.tsx:197-265 | the output amount becomes the executed amount exactly when displaying an executed proposal whose amount can be located |
| WyndSwapForm.DraftingSession | packages/stateful/actions/actions/wynd/WyndSwap.tsx:267-506 | mount, first effects, one edit and its simulation end with the simulated output and nothing pending |
| VoteInfo.LoadingWalletVoteInfo | packages/stateful/proposal-module-adapter/adapters/DaoProposalSingle/hooks/useLoadingWalletVoteInfo.tsx:57-101 | nothing without a wallet; loading until every query has a value; then the vote, could-vote exactly with power, can-vote exactly when it could, voting is open and it has not voted or may revote, and the power share in percent (0 for an empty total) |
| VoteInfo.CanVoteImpliesCouldVote | packages/stateful/proposal-module-adapter/adapters/DaoProposalSingle/hooks/useLoadingWalletVoteInfo.tsx:78-84 | a wallet that can vote could vote at the start |
| VoteInfo.PercentInRange | packages/stateful/proposal-module-adapter/adapters/DaoProposalSingle/hooks/useLoadingWalletVoteInfo.tsx:94-98 | a wallet's share of a total that includes it is between 0 and 100 percent |
| VoteInfo.VotedWithoutRevotingCannotVote | packages/stateful/proposal-module-adapter/adapters/DaoProposalSingle/hooks/useLoadingWalletVoteInfo.tsx:83-84 | a wallet that voted cannot vote again unless revoting is allowed |
| NewProposalForm.BuildMsgs | packages/stateful/proposal-module-adapter/adapters/DaoProposalSingle/common/ui/NewProposal.tsx:142-147 | no more messages than entries |
| NewProposalForm.BuildMsgsFailsIffSomeThrows | packages/stateful/proposal-module-adapter/adapters/DaoProposalSingle/common/ui/NewProposal.tsx:142-156 | submitting fails exactly when some transform throws, and with the first thrower's error |
| NewProposalForm.BuildMsgsAppend | packages/stateful/proposal-module-adapter/adapters/DaoProposalSingle/common/ui/NewProposal.tsx:144-147 | entries are transformed in order: the messages of a concatenation concatenate, and the first error wins |
| NewProposalForm.AllMessagesKept | packages/stateful/proposal-module-adapter/adapters/DaoProposalSingle/common/ui/NewProposal.tsx:144-147 | when every entry yields a message, the messages are the entries' messages position by position |
| NewProposalForm.PreviewMsgs | packages/stateful/proposal-module-adapter/adapters/DaoProposalSingle/common/ui/NewProposal.tsx:376-386 | the preview lists no more messages than entries |
| NewProposalForm.PreviewAgreesWithSubmit | packages/stateful/proposal-module-adapter/adapters/DaoProposalSingle/common/ui/NewProposal.tsx:376-386 | whenever submitting succeeds, the preview shows exactly the submitted messages |
| NewProposalForm.PublishTooltip | packages/stateful/proposal-module-adapter/adapters/DaoProposalSingle/common/ui/NewProposal.tsx:294-303 | the tooltip gives the first of: no wallet, deposit not payable, DAO paused |
| NewProposalForm.PublishDisabled | packages/stateful/proposal-module-adapter/adapters/DaoProposalSingle/common/ui/NewProposal.tsx:306-311 | publishing is disabled without a wallet, for a non-member when only members may propose, with an unpayable deposit, or when the DAO is paused |
| NewProposalForm.TooltipExplainsDisabled | packages/stateful/proposal-module-adapter/adapters/DaoProposalSingle/common/ui/NewProposal.tsx:294-311 | every tooltip goes with a disabled publish button; the one unexplained reason is missing membership |
| NewProposalForm.MemberNoteExplainsDisabled | packages/stateful/proposal-module-adapter/adapters/DaoProposalSingle/common/ui/NewProposal.tsx:342-350 | whenever the must-be-a-member note shows, publishing is disabled |
| NewProposalForm.SaveDraftHint | packages/stateful/proposal-module-adapter/adapters/DaoProposalSingle/common/ui/NewProposal.tsx:477-489 | saving a draft is refused, with a hint, exactly when the title is empty |
| NewProposalForm.ProposalForm.constructor | packages/stateful/proposal-module-adapter/adapters/DaoProposalSingle/common/ui/NewProposal.tsx:109-111 | no preview, no error note, no submit error |
| NewProposalForm.ProposalForm.Submit | packages/stateful/proposal-module-adapter/adapters/DaoProposalSingle/common/ui/NewProposal.tsx:129-164 | both error displays cleared; the preview button only toggles the preview; otherwise the proposal is created with the built messages, or the first transform error is shown |
| NewProposalForm.ProposalForm.SubmitInvalid | packages/stateful/proposal-module-adapter/adapters/DaoProposalSingle/common/ui/NewProposal.tsx:166-169 | an invalid form shows the error note |
| NewProposalForm.ProposalForm.SelectAction | packages/stateful/proposal-module-adapter/adapters/DaoProposalSingle/common/ui/NewProposal.tsx:257-266 | one entry appended with the action's defaults (an empty object for an unknown action); the others unchanged |
| NewProposalForm.ProposalForm.RemoveAction | packages/stateful/proposal-module-adapter/adapters/DaoProposalSingle/common/ui/NewProposal.tsx:238-249 | the entry is removed and the others keep their order |
| NewProposalCreator.PauseUnknownNeverDisables | packages/stateful/proposal-module-adapter/adapters/DaoProposalSingle/common/components/NewProposal.tsx:76-78 | a pause state that has not loaded, or failed to, leaves the publish button as for a running DAO |
| NewProposalCreator.InfoLines | packages/stateful/proposal-module-adapter/adapters/DaoProposalSingle/common/components/NewProposal.tsx:152-173 | the threshold first, then the quorum when there is one, then the time left when there is a date, and nothing else |
| NewProposalCreator.Outcome | packages/stateful/proposal-module-adapter/adapters/DaoProposalSingle/common/components/NewProposal.tsx:98-198 | no block height means nothing is published; a card exactly when every step resolves; otherwise the error of the first step to reject, in the order publish, proposal info, threshold and quorum; the card carries the proposal's id, title and description, the DAO's name, address and image, the info lines of the proposal info at the block height, and no info lines exactly when there is no proposal info |
| NewProposalCreator.ProposalCreator.constructor | packages/stateful/proposal-module-adapter/adapters/DaoProposalSingle/common/components/NewProposal.tsx:65 | not loading, no toasts, no cards |
| NewProposalCreator.ProposalCreator.CreateProposal | packages/stateful/proposal-module-adapter/adapters/DaoProposalSingle/common/components/NewProposal.tsx:98-198 | no block height: one error toast and loading untouched; failure: loading set then cleared and the error toasted; success: loading set and left on, and the card handed over |
| NewProposalCreator.LoadingStopsOnlyOnFailure | packages/stateful/proposal-module-adapter/adapters/DaoProposalSingle/common/components/NewProposal.tsx:106-197 | with a block height, the call fails exactly when some step rejects |
| PinnedDaos.Sub | packages/ui/components/dao/PinnedDaos.tsx:86-97 | JavaScript subtraction: NaN exactly for a NaN operand or equal infinities |
| PinnedDaos.Order | packages/ui/components/dao/PinnedDaos.tsx:30-31 | the sort reads negative, positive, and zero or NaN as before, after and tie |
| PinnedDaos.IndexOf | packages/ui/components/dao/PinnedDaos.tsx:72 | the first position of the DAO, or -1 exactly when it is absent |
| PinnedDaos.NameOrderAsWrittenNotReflexive | packages/ui/components/dao/PinnedDaos.tsx:74-78 | as written, a DAO named "a" does not tie with itself |
| PinnedDaos.NameOrderAsWrittenNotAntisymmetric | packages/ui/components/dao/PinnedDaos.tsx:74-78 | as written, DAOs named "a" and "A" both sort before each other |
| PinnedDaos.NameOrder | packages/ui/components/dao/PinnedDaos.tsx:74-83 | the corrected comparison ties exactly for names equal when lower-cased, and flips sign when swapped |
| PinnedDaos.EveryOrderingOfferedOnce | packages/ui/components/dao/PinnedDaos.tsx:66-98 | five orderings, each offered once under its own label |
| PinnedDaos.Compare | packages/ui/components/dao/PinnedDaos.tsx:66-98 | the comparator of each ordering: pinned position for Custom, the name comparison for A → Z and its reverse for Z → A, founding dates with undated DAOs last for Newest and Oldest (its properties are the lemmas below) |
| PinnedDaos.CustomFollowsPinnedOrder | packages/ui/components/dao/PinnedDaos.tsx:69-73 | Custom sorts two pinned DAOs in their pinned order |
| PinnedDaos.CustomWhileLoadingTies | packages/ui/components/dao/PinnedDaos.tsx:26-29 | while the list loads, Custom ties everything |
| PinnedDaos.ZToAReversesAToZ | packages/ui/components/dao/PinnedDaos.tsx:74-83 | Z → A is A → Z with the arguments swapped |
| PinnedDaos.NewestOrder | packages/ui/components/dao/PinnedDaos.tsx:84-90 | later founding first; undated DAOs after dated ones; two undated DAOs compare as NaN |
| PinnedDaos.OldestOrder | packages/ui/components/dao/PinnedDaos.tsx:91-97 | earlier founding first; undated DAOs last |
| PinnedDaos.CompareConsistent | packages/ui/components/dao/PinnedDaos.tsx:66-98 | every ordering ties a DAO with itself and flips when its arguments are swapped |
| MemberInfo.Divide | packages/stateful/voting-module-adapter/adapters/DaoVotingNativeStaked/components/ProfileCardMemberInfo.tsx:207-210 | JavaScript division of non-negative numbers: the quotient, or Infinity or NaN by zero |
| MemberInfo.Render | packages/stateful/voting-module-adapter/adapters/DaoVotingNativeStaked/components/ProfileCardMemberInfo.tsx:72-212 | throws exactly when a loading value is missing; each value is shown once loaded, converted from micro-units; the power share in percent once both stake values have loaded |
| MemberInfo.EmptyTotalIsNotAPercentage | packages/stateful/voting-module-adapter/adapters/DaoVotingNativeStaked/components/ProfileCardMemberInfo.tsx:202-212 | with nothing staked in total, the power shown is NaN or Infinity |
| MemberInfo.Tasks | packages/stateful/voting-module-adapter/adapters/DaoVotingNativeStaked/components/ProfileCardMemberInfo.tsx:136-150 | one task per claim, in order, with its status, display amount and date |
| MemberInfo.UnstakingTasks | packages/stateful/voting-module-adapter/adapters/DaoVotingNativeStaked/components/ProfileCardMemberInfo.tsx:135-166 | the pending claims as Unstaking tasks, then the available ones as ReadyToClaim; a missing list counts as empty |
| MemberInfo.GroupsRecovered | packages/stateful/voting-module-adapter/adapters/DaoVotingNativeStaked/components/ProfileCardMemberInfo.tsx:135-166 | the tasks of each status are exactly that group's claims, whole and in order |
| MemberInfo.UnstakingDurationSeconds | packages/stateful/voting-module-adapter/adapters/DaoVotingNativeStaked/components/ProfileCardMemberInfo.tsx:219-223 | the duration in seconds, or none when there is no duration or it is zero seconds |
| MemberInfo.ClaimButton.constructor | packages/stateful/voting-module-adapter/adapters/DaoVotingNativeStaked/components/ProfileCardMemberInfo.tsx:46 | not loading, nothing sent, nothing shown |
| MemberInfo.ClaimButton.OnClaim | packages/stateful/voting-module-adapter/adapters/DaoVotingNativeStaked/components/ProfileCardMemberInfo.tsx:86-130 | no wallet or no available claims: one error toast and nothing sent; otherwise one claim sent with loading set and cleared, and on success a refresh and a toast with the amount claimed, on failure the error toasted |
| DaoStaticProps.Trim | packages/common/server/makeGetDaoStaticProps.ts:220 | nothing longer; no whitespace at either end; empty exactly for all-whitespace input |
| DaoStaticProps.TrimKeepsInfix | packages/common/server/makeGetDaoStaticProps.ts:220 | trimming removes a run of whitespace from the start and a run of whitespace from the end, and keeps the rest as it was |
| DaoStaticProps.TrimIdempotent | packages/common/server/makeGetDaoStaticProps.ts:220 | trimming twice is trimming once |
| DaoStaticProps.Join | packages/common/server/makeGetDaoStaticProps.ts:222 | a joined string starts with the first part's first character and ends with the last part's last character |
| DaoStaticProps.Title | packages/common/server/makeGetDaoStaticProps.ts:218-222 | the override title when one is given, otherwise the composed title; its cases are the next two rows |
| DaoStaticProps.TitleCases | packages/common/server/makeGetDaoStaticProps.ts:218-222 | an override title is used as it is; otherwise the title is empty exactly when every part is missing or blank, and is the trimmed name when the other parts are blank |
| DaoStaticProps.ComposedTitleBlank | packages/common/server/makeGetDaoStaticProps.ts:218-222 | a composed title is empty exactly when every part is missing or blank |
| DaoStaticProps.ComposedTitleIsTrimmed | packages/common/server/makeGetDaoStaticProps.ts:218-222 | a title composed from the parts never starts or ends with whitespace |
| DaoStaticProps.FullTitle | packages/common/server/makeGetDaoStaticProps.ts:218-222 | with every part present and not blank, the composed title is the trimmed leading title, name and following title separated by a space, a vertical bar and a space |
| DaoStaticProps.ClassifyError | packages/common/server/makeGetDaoStaticProps.ts:243-306 | a redirect is followed; a legacy DAO goes, not permanently, to the legacy site; a DAO that does not exist gets the not-found page; anything else gets the error page; both pages regenerate after a second |
| DaoStaticProps.AdminCycleNeverFinishes | packages/common/server/makeGetDaoStaticProps.ts:407-435 | as written, two DAOs that are each other's admin never finish loading |
| DaoStaticProps.ParentChain | packages/common/server/makeGetDaoStaticProps.ts:407-435 | a parent exactly when the admin is another DAO not yet seen that answers; the chain has no repeats and only answering DAOs |
| DaoStaticProps.ParentChainAgrees | packages/common/server/makeGetDaoStaticProps.ts:407-435 | whenever the loader as written finishes with a chain without repeats, the corrected loader gives the same chain |
| DaoStaticProps.CoreAddress | packages/common/server/makeGetDaoStaticProps.ts:86-101 | the fixed address when there is one; otherwise the route parameter exactly when it is a non-empty string the validator accepts, and none for any other parameter |
| DaoStaticProps.LoadDaoPage | packages/common/server/makeGetDaoStaticProps.ts:72-242 | CI: not found; no valid address: the not-found page; each failing required query is classified; otherwise the page with its title, description, accent colour, serialized info, created date and parent chain, regenerated after the cache period |
| DaoStaticProps.Truncate | packages/common/server/makeGetDaoStaticProps.ts:392-394 | a prefix of at most the given length, the whole string when it fits |
| DaoStaticProps.CatchProposalError | packages/common/server/makeGetDaoStaticProps.ts:369-385 | a redirect is rethrown; an adapter error is caught and leaves no proposal info; anything else becomes the unexpected error |
| DaoStaticProps.ProposalPageProps | packages/common/server/makeGetDaoStaticProps.ts:318-401 | no id: not found; a numeric id: a permanent redirect to the prefixed URL; a failing adapter lookup: a redirect is rethrown, an adapter error gives a not-found page, anything else the unexpected error; a failing proposal lookup likewise, but only redirects and the unexpected error escape; otherwise the page with the URL, the proposal info, the title or not found, and a description cut to the limit |
| DaoStaticProps.MissingProposalStillRenders | packages/common/server/makeGetDaoStaticProps.ts:367-399 | a missing proposal, or an adapter error, still gets a page titled not found without proposal info |

## Findings

| source | as written | input that shows it | evidently intended | confidence | as-written member | corrected member |
|---|---|---|---|---|---|---|
| packages/ui/components/dao/PinnedDaos.tsx:74-83 | the A → Z and Z → A comparators compare one name lower-cased against the other upper-cased (lemmas NameOrderAsWrittenNotReflexive and NameOrderAsWrittenNotAntisymmetric) | two DAOs named "a" and "A", or one DAO named "a" compared with itself | both names lower-cased, so that equal names tie and the order is antisymmetric (the corrected comparison is the one Compare uses; lemma CompareConsistent) | high; not executed | PinnedDaos.NameOrderAsWritten | PinnedDaos.NameOrder |
| packages/common/server/makeGetDaoStaticProps.ts:407-435 | `loadParentDaoInfo` follows admins with no record of the DAOs already visited (lemma AdminCycleNeverFinishes) | DAO A whose admin is DAO B, and B whose admin is A | the chain ends when it comes back to a DAO already on it (the corrected chain is the one LoadDaoPage uses; lemma ParentChainAgrees) | medium; not executed | DaoStaticProps.ParentChainAsWritten | DaoStaticProps.ParentChain |

## Left out

- Rendering, styling, React scheduling and hook dependency lists. Each effect is one method, run when the model calls it.
- Network, RPC and chain queries, the wallet, toasts' timing, Sentry reporting and `console` output. Queries and awaited calls are inputs of the functions and methods.
- Floating point: amounts are exact reals; `toString`, `toLocaleString` and `Number` parsing of amounts are not modelled.
- Base64, UTF-8 and JSON: an encoded message is a wrapper around the message, so parsing inverts encoding by construction.
- Translations: `t(...)` is its key; `processError` is the error's own message.
- Locale-aware string comparison is a parameter assumed to be an order; lower- and upper-casing cover the ASCII letters only.
- The deployment constants are fields or parameters: WYND_MULTI_HOP_CONTRACT, the DAO DAO referral address, WYND_REFERRAL_COMMISSION, LEGACY_URL_PREFIX, MAX_META_CHARS_PROPOSAL_DESCRIPTION and DAO_STATIC_PROPS_CACHE_SECONDS.
- Converting expirations to dates, `durationToSeconds`, `dateToWdhms`, `removeMarkdown`, `parseContractVersion`, address validation and the proposal threshold formatting are parameters.
- The Wynd swap's minimum-output effect (packages/stateful/actions/actions/wynd/WyndSwap.tsx:340-354): it rounds a float with `toFixed`.
- Token and price lists, default values of the action forms, and the action components' rendering are not modelled.
- The DAO pinning, search and draft storage around the new-proposal form are not modelled.
- PinnedDaos.IndexOf: JavaScript's `indexOf` compares objects by identity; the model compares values. PinnedDaos.CustomFollowsPinnedOrder therefore assumes no two pinned entries are equal values.
- WyndSwapAction.ExecutedOutAmount: `indexOf` over the swap actions' data, which compares by identity, is modelled as the number of swap actions before this one.
- NewProposalForm.ProposalForm.RemoveAction: resetting the removed entry's data is overwritten by the removal, so only the removal is observable.
- TransferNftAction.ReEncode: a `send_nft` payload is compared after parsing; a payload that does not parse, which makes the decoder throw, is not modelled.
- NewProposalForm.PreviewAgreesWithSubmit: the preview reads the field array's snapshot of the actions and submitting reads the form's action data; the model keeps one list of entries for both.
- DaoStaticProps.Truncate: `slice` counts UTF-16 code units and the model counts characters, so a description with characters outside the Basic Multilingual Plane before the limit is cut later in the model, and the model never splits a surrogate pair where the source can.
- DaoStaticProps.ParentChainAsWritten carries a level bound (`fuel`), so it can stand for a recursion that does not end.
