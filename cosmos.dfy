/** Shared vocabulary of the proposal actions: Cosmos messages as the actions
    build and recognise them, generic tokens, loading states and the decimal
    conversions between the amounts a form shows and the micro-amounts a
    message carries. */
module Cosmos {

  datatype Option<T> = None | Some(value: T)

  /** A Recoil loadable as the hooks see it. */
  datatype Loadable<T> = Loading | HasValue(contents: T) | HasError

  /** `LoadingData<T>`: either still loading or loaded with data. */
  datatype LoadingData<T> = IsLoading | Loaded(data: T)

  /** The result of awaiting a promise: what it resolved to, or the error
      it rejected with. */
  datatype Step<T> = Resolved(value: T) | Rejected(error: string)

  /** A point in time as the contracts express it. */
  datatype Expiration = AtHeight(height: nat) | AtTime(nanos: nat) | Never

  datatype TokenType = Native | Cw20

  datatype GenericToken = GenericToken(
    tokenType: TokenType,
    denomOrAddress: string,
    symbol: string,
    decimals: nat,
    imageUrl: string)

  /** A coin of a bank send or of the funds of an execute; the amount is the
      number the message's decimal string denotes. */
  datatype Coin = Coin(amount: real, denom: string)

  /** A Wynd asset: `{native: denom}` or `{token: address}`. */
  datatype AssetInfo = NativeAsset(native: string) | TokenAsset(token: string)

  /** One hop of a swap route: `{wyndex_swap: {offer_asset_info, ask_asset_info}}`. */
  datatype SwapOperation = WyndexSwap(offerAssetInfo: AssetInfo, askAssetInfo: AssetInfo)

  /** The body of `{execute_swap_operations: {...}}`. A field the message
      omits is `None`. */
  datatype SwapOperationsMsg = SwapOperationsMsg(
    operations: seq<SwapOperation>,
    minimumReceive: Option<real>,
    maxSpread: Option<real>,
    referralAddress: string,
    referralCommission: real,
    receiver: Option<string>)

  /** The JSON message a wasm execute carries (and the JSON a base64 payload
      decodes to). Each constructor is one shape `objectMatchesStructure`
      tests for; `JsonText` is a JSON string and `OtherJson` any other value. */
  datatype ContractMsg =
    | TransferNft(recipient: string, tokenId: string)
    | SendNft(contract: string, msg: Binary, tokenId: string)
    | Transfer(recipient: string, amount: real)
    | Send(amount: real, contract: string, msg: Binary)
    | ExecuteSwapOperations(swap: SwapOperationsMsg)
    | JsonText(text: string)
    | OtherJson

  /** A base64 string holding the UTF-8 bytes of a JSON value. */
  datatype Binary = Base64Json(json: ContractMsg)

  /** `{bank: {send: {amount, to_address}}}`, `{wasm: {execute: {contract_addr,
      funds, msg}}}`, or any other Cosmos message. */
  datatype CosmosMsg =
    | BankSend(amount: seq<Coin>, toAddress: string)
    | WasmExecute(contractAddr: string, funds: seq<Coin>, msg: ContractMsg)
    | OtherMsg

  /** What an action's transform produces: a message, nothing (`undefined`),
      or a thrown error. */
  datatype Transformed = Message(msg: CosmosMsg) | NoMessage | Throws(error: string)

  /** What an action's decoder answers. */
  datatype Decoded<D> = NoMatch | Match(data: D)

  /** `toBase64(toUtf8(JSON.stringify(m)))` and `encodeMessageAsBase64(m)`. */
  function EncodeJson(m: ContractMsg): (b: Binary)
    ensures ParseEncoded(b) == m
  {
    Base64Json(m)
  }

  /** `parseEncodedMessage`: base64, then UTF-8, then JSON. */
  function ParseEncoded(b: Binary): ContractMsg
  {
    b.json
  }

  function Pow10(n: nat): (r: nat)
    ensures r >= 1
  {
    if n == 0 then 1 else 10 * Pow10(n - 1)
  }

  /** `convertDenomToMicroDenomWithDecimals`: from the amount a form shows to
      the micro-amount a message carries. */
  function ToMicro(amount: real, decimals: nat): (micro: real)
    ensures FromMicro(micro, decimals) == amount
    ensures amount >= 0.0 ==> micro >= amount
  {
    amount * Pow10(decimals) as real
  }

  /** `convertMicroDenomToDenomWithDecimals`. */
  function FromMicro(micro: real, decimals: nat): real
  {
    micro / Pow10(decimals) as real
  }

  /** `tokenDenomOrAddressFromAssetInfo`. */
  function AssetDenom(a: AssetInfo): (d: string)
    ensures a == NativeAsset(d) || a == TokenAsset(d)
  {
    match a
    case NativeAsset(n) => n
    case TokenAsset(t) => t
  }

  /** The token type a decoder asks for given an asset (`'native' in asset`). */
  function AssetType(a: AssetInfo): (t: TokenType)
    ensures t == Native <==> a.NativeAsset?
  {
    if a.NativeAsset? then Native else Cw20
  }

  /** `genericTokenSelector({type, denomOrAddress})`: `lookup` stands for the
      chain query; the selector builds its answer with the type it was asked
      for, so the answer's type is `ty` whatever the query returns. */
  function ResolveToken(lookup: (TokenType, string) -> Option<GenericToken>, ty: TokenType, denom: string): (r: Option<GenericToken>)
    ensures r.Some? <==> lookup(ty, denom).Some?
    ensures r.Some? ==> r.value.tokenType == ty && r.value.decimals == lookup(ty, denom).value.decimals
  {
    match lookup(ty, denom)
    case None => None
    case Some(t) => Some(t.(tokenType := ty))
  }
}
