/** The "Transfer NFT" proposal action: form data to a cw721 `transfer_nft` or
    `send_nft` execute, and such an execute back to form data. */
module TransferNftAction {
  import opened Cosmos

  /** `TransferNftData`. `smartContractMsg` is the JSON value handed to the
      receiving contract; the form's default is the JSON text `'{}'`. */
  datatype TransferNftData = TransferNftData(
    collection: string,
    tokenId: string,
    recipient: string,
    executeSmartContract: bool,
    smartContractMsg: ContractMsg)

  /** The value the decoder restores for `smartContractMsg` in the
      `transfer_nft` case. */
  const EmptyObjectText: ContractMsg := JsonText("{}")

  /** `useTransformToCosmos`. */
  function Transform(d: TransferNftData): (m: CosmosMsg)
    ensures m.WasmExecute? && m.contractAddr == d.collection && m.funds == []
    ensures m.msg.TransferNft? <==> !d.executeSmartContract
    ensures m.msg.SendNft? <==> d.executeSmartContract
    ensures m.msg.SendNft? ==> ParseEncoded(m.msg.msg) == d.smartContractMsg
  {
    WasmExecute(
      d.collection,
      [],
      if d.executeSmartContract
      then SendNft(d.recipient, EncodeJson(d.smartContractMsg), d.tokenId)
      else TransferNft(d.recipient, d.tokenId))
  }

  /** `useDecodedCosmosMsg`: the `transfer_nft` shape is tested first, then
      `send_nft`; the funds of the execute are not looked at. */
  function Decode(m: CosmosMsg): (r: Decoded<TransferNftData>)
    ensures r.Match? <==> m.WasmExecute? && (m.msg.TransferNft? || m.msg.SendNft?)
    ensures r.Match? ==> r.data.collection == m.contractAddr && r.data.tokenId == m.msg.tokenId
    ensures r.Match? && m.msg.TransferNft? ==>
      r.data.recipient == m.msg.recipient && !r.data.executeSmartContract
      && r.data.smartContractMsg == EmptyObjectText
    ensures r.Match? && m.msg.SendNft? ==>
      r.data.recipient == m.msg.contract && r.data.executeSmartContract
      && r.data.smartContractMsg == ParseEncoded(m.msg.msg)
  {
    match m
    case WasmExecute(contract, _, TransferNft(recipient, tokenId)) =>
      Match(TransferNftData(contract, tokenId, recipient, false, EmptyObjectText))
    case WasmExecute(contract, _, SendNft(target, payload, tokenId)) =>
      Match(TransferNftData(contract, tokenId, target, true, ParseEncoded(payload)))
    case _ => NoMatch
  }

  /** Encoding then decoding gives back the form, except that a plain transfer
      forgets its smart-contract message and comes back with `'{}'`. */
  lemma RoundTrip(d: TransferNftData)
    ensures Decode(Transform(d)).Match?
    ensures var back := Decode(Transform(d)).data;
      back.collection == d.collection && back.tokenId == d.tokenId
      && back.recipient == d.recipient
      && back.executeSmartContract == d.executeSmartContract
    ensures Decode(Transform(d)).data.smartContractMsg ==
      if d.executeSmartContract then d.smartContractMsg else EmptyObjectText
    ensures Decode(Transform(d)) == Match(d) <==> d.executeSmartContract || d.smartContractMsg == EmptyObjectText
  {
  }

  /** The loss is real: a transfer with any other smart-contract message does
      not come back as itself. */
  lemma TransferForgetsContractMsg(d: TransferNftData)
    requires !d.executeSmartContract && d.smartContractMsg != EmptyObjectText
    ensures Decode(Transform(d)) != Match(d)
  {
  }

  /** The other direction: re-encoding a recognised message gives back the
      same collection, token, recipient and kind of message, without funds,
      and a `send_nft` payload that parses to the same JSON value. */
  lemma ReEncode(m: CosmosMsg)
    requires Decode(m).Match?
    ensures var again := Transform(Decode(m).data);
      again.WasmExecute? && again.contractAddr == m.contractAddr && again.funds == []
      && (m.msg.TransferNft? ==> again.msg == m.msg)
      && (m.msg.SendNft? ==>
            again.msg.SendNft? && again.msg.contract == m.msg.contract
            && again.msg.tokenId == m.msg.tokenId
            && ParseEncoded(again.msg.msg) == ParseEncoded(m.msg.msg))
  {
  }
}
