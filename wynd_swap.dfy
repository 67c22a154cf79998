/** The "Swap tokens on Wynd" proposal action: the referral commission, the
    route check, the encoder to a multi-hop `execute_swap_operations` (direct
    for a native input, wrapped in a cw20 `send` otherwise), its decoder, and
    the rule that reads the executed output amount back from the chain. */
module WyndSwapAction {
  import opened Cosmos

  /** The deployment constants the action reads: the multi-hop contract, the
      DAO DAO referral address and the referral commission DAO DAO asks for. */
  datatype SwapEnv = SwapEnv(multiHopContract: string, referralAddress: string, referralCommissionCap: real)

  /** `WyndSwapData`. */
  datatype WyndSwapData = WyndSwapData(
    tokenIn: GenericToken,
    tokenInAmount: real,
    tokenOut: GenericToken,
    tokenOutAmount: real,
    minOutAmount: Option<real>,
    maxSlippage: Option<real>,
    swapOperations: Option<seq<SwapOperation>>,
    receiver: string)

  /** The amount a decoded swap shows until the executed amount is loaded. */
  const UnknownOutAmount: real := -1.0

  /** The factory's configured `max_referral_commission`, as loaded. */
  datatype CommissionState = CommissionLoading | CommissionFailed | Commission(rate: real)

  /** `useLoadingWyndReferralCommission`: the smaller of DAO DAO's commission
      and the factory's maximum (a failed factory query is thrown by the hook). */
  function ReferralCommission(env: SwapEnv, factoryMax: Loadable<real>): (c: CommissionState)
    ensures factoryMax.Loading? <==> c.CommissionLoading?
    ensures factoryMax.HasError? <==> c.CommissionFailed?
    ensures c.Commission? ==>
      c.rate <= env.referralCommissionCap && c.rate <= factoryMax.contents
      && (c.rate == env.referralCommissionCap || c.rate == factoryMax.contents)
  {
    match factoryMax
    case Loading => CommissionLoading
    case HasError => CommissionFailed
    case HasValue(max) =>
      Commission(if env.referralCommissionCap <= max then env.referralCommissionCap else max)
  }

  /** `genericTokenToAssetInfo`. */
  function TokenAssetInfo(t: GenericToken): (a: AssetInfo)
    ensures AssetDenom(a) == t.denomOrAddress && AssetType(a) == t.tokenType
  {
    match t.tokenType
    case Native => NativeAsset(t.denomOrAddress)
    case Cw20 => TokenAsset(t.denomOrAddress)
  }

  /** A route fit for the chosen tokens: non-empty, starting from `tokenIn`'s
      denom and ending at `tokenOut`'s. Both the encoder and the form's
      validation effect use this test. */
  predicate ValidRoute(route: Option<seq<SwapOperation>>, tokenIn: GenericToken, tokenOut: GenericToken)
  {
    route.Some? && |route.value| > 0
    && AssetDenom(route.value[0].offerAssetInfo) == tokenIn.denomOrAddress
    && AssetDenom(route.value[|route.value| - 1].askAssetInfo) == tokenOut.denomOrAddress
  }

  /** The `execute_swap_operations` body the encoder builds. */
  function SwapMessage(env: SwapEnv, commission: real, d: WyndSwapData): (s: SwapOperationsMsg)
    requires d.swapOperations.Some?
    ensures s.operations == d.swapOperations.value
    ensures s.minimumReceive.Some? <==> d.minOutAmount.Some?
    ensures d.minOutAmount.Some? ==> FromMicro(s.minimumReceive.value, d.tokenOut.decimals) == d.minOutAmount.value
    ensures s.maxSpread == d.maxSlippage
    ensures s.referralAddress == env.referralAddress && s.referralCommission == commission
    ensures s.receiver == Some(d.receiver)
  {
    SwapOperationsMsg(
      d.swapOperations.value,
      match d.minOutAmount
      case None => None
      case Some(x) => Some(ToMicro(x, d.tokenOut.decimals)),
      d.maxSlippage,
      env.referralAddress,
      commission,
      Some(d.receiver))
  }

  /** `useTransformToCosmos`: nothing while the commission loads or when the
      route does not fit the tokens; otherwise an execute on the multi-hop
      contract funded with the input coin, or a cw20 `send` of the input to it. */
  function Transform(env: SwapEnv, commission: LoadingData<real>, d: WyndSwapData): (m: Option<CosmosMsg>)
    ensures m.Some? <==> commission.Loaded? && ValidRoute(d.swapOperations, d.tokenIn, d.tokenOut)
    ensures m.Some? && d.tokenIn.tokenType == Native ==>
      m.value.WasmExecute? && m.value.contractAddr == env.multiHopContract
      && m.value.funds == [Coin(ToMicro(d.tokenInAmount, d.tokenIn.decimals), d.tokenIn.denomOrAddress)]
      && commission.Loaded? && d.swapOperations.Some?
      && m.value.msg == ExecuteSwapOperations(SwapMessage(env, commission.data, d))
    ensures m.Some? && d.tokenIn.tokenType == Cw20 ==>
      m.value.WasmExecute? && m.value.contractAddr == d.tokenIn.denomOrAddress
      && m.value.funds == [] && m.value.msg.Send?
      && m.value.msg.contract == env.multiHopContract
      && m.value.msg.amount == ToMicro(d.tokenInAmount, d.tokenIn.decimals)
      && commission.Loaded? && d.swapOperations.Some?
      && ParseEncoded(m.value.msg.msg) == ExecuteSwapOperations(SwapMessage(env, commission.data, d))
  {
    if commission.IsLoading? || !ValidRoute(d.swapOperations, d.tokenIn, d.tokenOut) then None
    else
      var inAmount := ToMicro(d.tokenInAmount, d.tokenIn.decimals);
      var msg := SwapMessage(env, commission.data, d);
      match d.tokenIn.tokenType
      case Native =>
        Some(WasmExecute(env.multiHopContract, [Coin(inAmount, d.tokenIn.denomOrAddress)], ExecuteSwapOperations(msg)))
      case Cw20 =>
        Some(WasmExecute(d.tokenIn.denomOrAddress, [], Send(inAmount, env.multiHopContract, EncodeJson(ExecuteSwapOperations(msg)))))
  }

  /** `isValidSwapMsg`: an `execute_swap_operations` with exactly one
      operation. */
  predicate IsValidSwapMsg(m: ContractMsg)
  {
    m.ExecuteSwapOperations? && |m.swap.operations| == 1
  }

  /** The native form: an execute with exactly one coin of funds whose message
      is itself a valid swap. */
  predicate IsNativeSwap(m: CosmosMsg)
  {
    m.WasmExecute? && |m.funds| == 1 && IsValidSwapMsg(m.msg)
  }

  /** The swap message the decoder settles on: the payload of a cw20 `send`
      when it parses to a valid swap (tried first), else the native form's
      message. */
  function FoundSwapMsg(m: CosmosMsg): (s: Option<SwapOperationsMsg>)
    ensures s.Some? <==> IsNativeSwap(m) || (m.WasmExecute? && m.msg.Send? && IsValidSwapMsg(ParseEncoded(m.msg.msg)))
    ensures IsNativeSwap(m) ==> s == Some(m.msg.swap)
    ensures m.WasmExecute? && m.msg.Send? && IsValidSwapMsg(ParseEncoded(m.msg.msg)) ==>
      s == Some(ParseEncoded(m.msg.msg).swap)
    ensures s.Some? ==> |s.value.operations| == 1
  {
    if m.WasmExecute? && m.msg.Send? then
      var parsed := ParseEncoded(m.msg.msg);
      if IsValidSwapMsg(parsed) then Some(parsed.swap) else None
    else if IsNativeSwap(m) then Some(m.msg.swap)
    else None
  }

  /** `useDecodedCosmosMsg`. `address` is the DAO's address (the default
      receiver); `tokenOutAmount` is left for the component to load. */
  function Decode(lookup: (TokenType, string) -> Option<GenericToken>, address: string, m: CosmosMsg): (r: Decoded<WyndSwapData>)
    ensures r.Match? ==> FoundSwapMsg(m).Some?
    ensures r.Match? ==> r.data.swapOperations == Some(FoundSwapMsg(m).value.operations)
    ensures r.Match? ==> |r.data.swapOperations.value| == 1
    ensures r.Match? ==> r.data.tokenOutAmount == UnknownOutAmount
    ensures r.Match? ==> r.data.tokenIn.tokenType == (if IsNativeSwap(m) then Native else Cw20)
    ensures r.Match? ==> var op := r.data.swapOperations.value[0];
      ResolveToken(lookup, r.data.tokenIn.tokenType, AssetDenom(op.offerAssetInfo)) == Some(r.data.tokenIn)
      && ResolveToken(lookup, AssetType(op.askAssetInfo), AssetDenom(op.askAssetInfo)) == Some(r.data.tokenOut)
    ensures FoundSwapMsg(m).Some? ==>
      var op := FoundSwapMsg(m).value.operations[0];
      (r.Match? <==>
        ResolveToken(lookup, if IsNativeSwap(m) then Native else Cw20, AssetDenom(op.offerAssetInfo)).Some?
        && ResolveToken(lookup, AssetType(op.askAssetInfo), AssetDenom(op.askAssetInfo)).Some?)
    ensures r.Match? ==>
      r.data.tokenInAmount == FromMicro(if IsNativeSwap(m) then m.funds[0].amount else m.msg.amount, r.data.tokenIn.decimals)
    ensures r.Match? ==> r.data.maxSlippage == FoundSwapMsg(m).value.maxSpread
    ensures r.Match? ==> (FoundSwapMsg(m).value.minimumReceive.None? <==> r.data.minOutAmount.None?)
    ensures r.Match? && FoundSwapMsg(m).value.minimumReceive.Some? ==>
      r.data.minOutAmount == Some(FromMicro(FoundSwapMsg(m).value.minimumReceive.value, r.data.tokenOut.decimals))
    ensures r.Match? ==> (r.data.receiver == address <==>
      FoundSwapMsg(m).value.receiver in {None, Some(""), Some(address)})
    ensures r.Match? && FoundSwapMsg(m).value.receiver.Some? && FoundSwapMsg(m).value.receiver.value != "" ==>
      r.data.receiver == FoundSwapMsg(m).value.receiver.value
  {
    match FoundSwapMsg(m)
    case None => NoMatch
    case Some(swap) =>
      var op := swap.operations[0];
      var tokenIn := ResolveToken(lookup, if IsNativeSwap(m) then Native else Cw20, AssetDenom(op.offerAssetInfo));
      var tokenOut := ResolveToken(lookup, AssetType(op.askAssetInfo), AssetDenom(op.askAssetInfo));
      var inAmount := if IsNativeSwap(m) then m.funds[0].amount else m.msg.amount;
      if tokenIn.None? || tokenOut.None? then NoMatch
      else
        Match(WyndSwapData(
          tokenIn.value,
          FromMicro(inAmount, tokenIn.value.decimals),
          tokenOut.value,
          UnknownOutAmount,
          match swap.minimumReceive
          case None => None
          case Some(x) => Some(FromMicro(x, tokenOut.value.decimals)),
          swap.maxSpread,
          Some(swap.operations),
          match swap.receiver
          case Some(recv) => if recv != "" then recv else address
          case None => address))
  }

  /** The chain's answers agree with the form's tokens: asking for the input
      token (by the type it was encoded as) and for the route's output asset
      gives those tokens back. */
  predicate KnownTokens(lookup: (TokenType, string) -> Option<GenericToken>, d: WyndSwapData)
    requires d.swapOperations.Some? && |d.swapOperations.value| > 0
  {
    var ask := d.swapOperations.value[|d.swapOperations.value| - 1].askAssetInfo;
    lookup(d.tokenIn.tokenType, d.tokenIn.denomOrAddress) == Some(d.tokenIn)
    && AssetType(ask) == d.tokenOut.tokenType
    && lookup(d.tokenOut.tokenType, d.tokenOut.denomOrAddress) == Some(d.tokenOut)
  }

  /** A one-hop swap decodes back to its form, with the output amount reset
      to "unknown" (it is read from the executed transaction instead). */
  lemma SingleHopRoundTrip(env: SwapEnv, rate: real, lookup: (TokenType, string) -> Option<GenericToken>, address: string, d: WyndSwapData)
    requires ValidRoute(d.swapOperations, d.tokenIn, d.tokenOut) && |d.swapOperations.value| == 1
    requires KnownTokens(lookup, d)
    requires d.receiver != ""
    ensures Transform(env, Loaded(rate), d).Some?
    ensures Decode(lookup, address, Transform(env, Loaded(rate), d).value) == Match(d.(tokenOutAmount := UnknownOutAmount))
  {
    var m := Transform(env, Loaded(rate), d).value;
    var swap := SwapMessage(env, rate, d);
    assert FoundSwapMsg(m) == Some(swap);
    var r := Decode(lookup, address, m);
    assert r.Match?;
    match d.minOutAmount {
      case None =>
      case Some(x) => assert FromMicro(ToMicro(x, d.tokenOut.decimals), d.tokenOut.decimals) == x;
    }
  }

  /** The encoder accepts any non-empty route but the decoder only one hop:
      an encoded multi-hop swap is not recognised as a swap. */
  lemma MultiHopNotDecoded(env: SwapEnv, commission: LoadingData<real>, lookup: (TokenType, string) -> Option<GenericToken>, address: string, d: WyndSwapData)
    requires Transform(env, commission, d).Some?
    requires |d.swapOperations.value| > 1
    ensures Decode(lookup, address, Transform(env, commission, d).value) == NoMatch
  {
    var m := Transform(env, commission, d).value;
    assert FoundSwapMsg(m).None?;
  }

  /** An entry of the proposal's action list, as the component sees it. */
  datatype ActionEntry = ActionEntry(key: string, data: WyndSwapData)

  const WyndSwapKey: string := "wyndSwap"

  /** A transaction attribute; the value is the number `Number(value)` reads. */
  datatype Attribute = Attribute(key: string, value: real)
  datatype Event = Event(eventType: string, attributes: seq<Attribute>)

  /** The number of `return_amount` attributes among `attributes`. */
  function ReturnAmountCount(attributes: seq<Attribute>): (n: nat)
    ensures n <= |attributes|
  {
    if attributes == [] then 0
    else (if attributes[0].key == "return_amount" then 1 else 0) + ReturnAmountCount(attributes[1..])
  }

  /** The `return_amount` values of one event's attributes, in order: one
      value per such attribute. */
  function ReturnAmountsOf(attributes: seq<Attribute>): (r: seq<real>)
    ensures |r| == ReturnAmountCount(attributes)
  {
    if attributes == [] then []
    else (if attributes[0].key == "return_amount" then [attributes[0].value] else [])
         + ReturnAmountsOf(attributes[1..])
  }

  /** The value of the attribute at `i`, a `return_amount`, is found at its
      rank among the `return_amount` attributes: the number of them before
      it. */
  lemma {:induction false} ReturnAmountAtRank(attributes: seq<Attribute>, i: nat)
    requires i < |attributes| && attributes[i].key == "return_amount"
    ensures ReturnAmountCount(attributes[..i]) < |ReturnAmountsOf(attributes)|
    ensures ReturnAmountsOf(attributes)[ReturnAmountCount(attributes[..i])] == attributes[i].value
  {
    if i == 0 {
      assert attributes[..0] == [];
    } else {
      assert attributes[..i][1..] == attributes[1..][..i - 1];
      assert attributes[1..][i - 1] == attributes[i];
      ReturnAmountAtRank(attributes[1..], i - 1);
    }
  }

  /** Ranks increase along the attributes, so every value is read by exactly
      one `return_amount` attribute and the values keep their order. */
  lemma {:induction false} ReturnAmountRanksIncrease(attributes: seq<Attribute>, i: nat, j: nat)
    requires i < j <= |attributes| && attributes[i].key == "return_amount"
    ensures ReturnAmountCount(attributes[..i]) < ReturnAmountCount(attributes[..j])
  {
    if i == 0 {
      assert attributes[..j][0] == attributes[0];
      assert attributes[..0] == [];
    } else {
      assert attributes[..i][1..] == attributes[1..][..i - 1];
      assert attributes[..j][1..] == attributes[1..][..j - 1];
      ReturnAmountRanksIncrease(attributes[1..], i - 1, j - 1);
    }
  }

  predicate HasReturnAmount(attributes: seq<Attribute>)
  {
    exists i :: 0 <= i < |attributes| && attributes[i].key == "return_amount"
  }

  /** All `return_amount` attributes of all `wasm` events, in order. */
  function ReturnedAmounts(events: seq<Event>): seq<real>
  {
    if events == [] then []
    else (if events[0].eventType == "wasm" && HasReturnAmount(events[0].attributes)
          then ReturnAmountsOf(events[0].attributes) else [])
         + ReturnedAmounts(events[1..])
  }

  /** The number of swap actions among `actions`. */
  function SwapCount(actions: seq<ActionEntry>): (n: nat)
    ensures n <= |actions|
  {
    if actions == [] then 0
    else (if actions[0].key == WyndSwapKey then 1 else 0) + SwapCount(actions[1..])
  }

  /** The executed output amount of the action at `index`: only when there
      are exactly as many `return_amount` attributes as swap actions, and
      then the one at this action's rank among the swap actions. `indexOf`
      in the source compares the entries' data objects by identity, and each
      entry has its own object, so the rank is the number of swap actions
      before this one. */
  function ExecutedOutAmount(actions: seq<ActionEntry>, index: nat, events: seq<Event>, tokenOut: GenericToken): (r: Option<real>)
    requires index < |actions|
    ensures r.Some? ==> (actions[index].key == WyndSwapKey
                         && SwapCount(actions) == |ReturnedAmounts(events)|
                         && SwapCount(actions[..index]) < |ReturnedAmounts(events)|
                         && r.value == FromMicro(ReturnedAmounts(events)[SwapCount(actions[..index])], tokenOut.decimals))
    ensures actions[index].key == WyndSwapKey && SwapCount(actions) == |ReturnedAmounts(events)| ==> r.Some?
  {
    var amounts := ReturnedAmounts(events);
    if actions[index].key != WyndSwapKey || SwapCount(actions) != |amounts| then None
    else
      SwapCountSplit(actions, index);
      Some(FromMicro(amounts[SwapCount(actions[..index])], tokenOut.decimals))
  }

  /** Swap actions before `index`, plus the one at `index` if it is a swap,
      are among all the swap actions. */
  lemma {:induction false} SwapCountSplit(actions: seq<ActionEntry>, index: nat)
    requires index < |actions|
    ensures SwapCount(actions[..index]) + (if actions[index].key == WyndSwapKey then 1 else 0) <= SwapCount(actions)
  {
    if index == 0 {
      assert actions[..0] == [];
    } else {
      assert actions[..index][1..] == actions[1..][..index - 1];
      SwapCountSplit(actions[1..], index - 1);
    }
  }

  /** Two different swap actions read two different amounts: ranks strictly
      increase along the action list. */
  lemma {:induction false} RanksIncrease(actions: seq<ActionEntry>, i: nat, j: nat)
    requires i < j < |actions| && actions[i].key == WyndSwapKey
    ensures SwapCount(actions[..i]) < SwapCount(actions[..j])
  {
    if i == 0 {
      assert actions[..j][0] == actions[0];
      assert actions[..0] == [];
    } else {
      assert actions[..i][1..] == actions[1..][..i - 1];
      assert actions[..j][1..] == actions[1..][..j - 1];
      RanksIncrease(actions[1..], i - 1, j - 1);
    }
  }

  /** The `some` test before filtering changes nothing: the returned amounts
      are the `return_amount` attributes of the `wasm` events. */
  lemma {:induction false} ReturnAmountsOfNone(attributes: seq<Attribute>)
    requires !HasReturnAmount(attributes)
    ensures ReturnAmountsOf(attributes) == []
  {
    if attributes != [] {
      assert !HasReturnAmount(attributes[1..]) by {
        forall i | 0 <= i < |attributes[1..]| ensures attributes[1..][i].key != "return_amount" {
          assert attributes[1..][i] == attributes[i + 1];
        }
      }
      ReturnAmountsOfNone(attributes[1..]);
    }
  }
}
