/** The "Spend" proposal action: a native bank send or a cw20 `transfer` of a
    token the DAO holds, and the decoding of either back into form data. */
module SpendAction {
  import opened Cosmos

  /** `SpendData`: the recipient, the amount as the form shows it, and the
      denom (native) or contract address (cw20). */
  datatype SpendData = SpendData(to: string, amount: real, denom: string)

  datatype TokenBalance = TokenBalance(token: GenericToken, balance: real)

  /** `balances.find(({token}) => token.denomOrAddress === denom)?.token`. */
  function FindToken(balances: seq<TokenBalance>, denom: string): (r: Option<GenericToken>)
    ensures r.None? <==> forall i :: 0 <= i < |balances| ==> balances[i].token.denomOrAddress != denom
    ensures r.Some? ==> (exists i :: 0 <= i < |balances| && balances[i].token == r.value
                           && (forall j :: 0 <= j < i ==> balances[j].token.denomOrAddress != denom))
    ensures r.Some? ==> r.value.denomOrAddress == denom
  {
    if balances == [] then None
    else if balances[0].token.denomOrAddress == denom then Some(balances[0].token)
    else
      var r := FindToken(balances[1..], denom);
      assert r.Some? ==> (exists i :: 1 <= i < |balances| && balances[i].token == r.value
                            && (forall j :: 0 <= j < i ==> balances[j].token.denomOrAddress != denom)) by {
        if r.Some? {
          var k :| 0 <= k < |balances[1..]| && balances[1..][k].token == r.value
            && (forall j :: 0 <= j < k ==> balances[1..][j].token.denomOrAddress != denom);
          assert balances[k + 1].token == r.value;
          forall j | 0 <= j < k + 1 ensures balances[j].token.denomOrAddress != denom {
            if j > 0 { assert balances[j] == balances[1..][j - 1]; }
          }
        }
      }
      assert r.None? ==> forall i :: 0 <= i < |balances| ==> balances[i].token.denomOrAddress != denom by {
        if r.None? {
          forall i | 0 <= i < |balances| ensures balances[i].token.denomOrAddress != denom {
            if i > 0 { assert balances[i] == balances[1..][i - 1]; }
          }
        }
      }
      r
  }

  /** The message `makeBankMessage(amount, to, denom)` builds. */
  function BankMessage(microAmount: real, to: string, denom: string): CosmosMsg
  {
    BankSend([Coin(microAmount, denom)], to)
  }

  /** `useTransformToCosmos`: nothing while balances load; an unknown denom
      throws; otherwise a bank send or a cw20 transfer of the micro-amount. */
  function Transform(balances: LoadingData<seq<TokenBalance>>, d: SpendData): (t: Transformed)
    ensures balances.IsLoading? ==> t == NoMessage
    ensures balances.Loaded? ==> t != NoMessage
    ensures t.Throws? <==> balances.Loaded? && FindToken(balances.data, d.denom).None?
    ensures t.Throws? ==> t.error == "Unknown token: " + d.denom
    ensures balances.Loaded? && FindToken(balances.data, d.denom).Some? ==>
      var token := FindToken(balances.data, d.denom).value;
      var micro := ToMicro(d.amount, token.decimals);
      t == Message(if token.tokenType == Native then BankSend([Coin(micro, d.denom)], d.to)
                   else WasmExecute(d.denom, [], Transfer(d.to, micro)))
  {
    match balances
    case IsLoading => NoMessage
    case Loaded(list) =>
      match FindToken(list, d.denom)
      case None => Throws("Unknown token: " + d.denom)
      case Some(token) =>
        var micro := ToMicro(d.amount, token.decimals);
        match token.tokenType
        case Native => Message(BankMessage(micro, d.to, d.denom))
        case Cw20 => Message(WasmExecute(d.denom, [], Transfer(d.to, micro)))
  }

  /** The bank-send shape the decoder accepts: exactly one coin. */
  predicate IsNativeSpend(m: CosmosMsg)
  {
    m.BankSend? && |m.amount| == 1
  }

  /** The cw20 shape the decoder accepts: any execute whose message is a
      `transfer` (funds are not looked at). */
  predicate IsCw20Spend(m: CosmosMsg)
  {
    m.WasmExecute? && m.msg.Transfer?
  }

  /** `useDecodedCosmosMsg`: the token is resolved by type and denom (native)
      or contract address (cw20); an unresolved token is no match. */
  function Decode(lookup: (TokenType, string) -> Option<GenericToken>, m: CosmosMsg): (r: Decoded<SpendData>)
    ensures r.Match? <==>
      (IsNativeSpend(m) && lookup(Native, m.amount[0].denom).Some?)
      || (IsCw20Spend(m) && lookup(Cw20, m.contractAddr).Some?)
    ensures r.Match? && IsNativeSpend(m) ==>
      r.data.to == m.toAddress
      && r.data.amount == FromMicro(m.amount[0].amount, lookup(Native, m.amount[0].denom).value.decimals)
      && r.data.denom == lookup(Native, m.amount[0].denom).value.denomOrAddress
    ensures r.Match? && IsCw20Spend(m) ==>
      r.data.to == m.msg.recipient && r.data.denom == m.contractAddr
      && r.data.amount == FromMicro(m.msg.amount, lookup(Cw20, m.contractAddr).value.decimals)
  {
    var isNative := IsNativeSpend(m);
    var isCw20 := IsCw20Spend(m);
    var token :=
      if isNative then ResolveToken(lookup, Native, m.amount[0].denom)
      else if isCw20 then ResolveToken(lookup, Cw20, m.contractAddr)
      else None;
    match token
    case None => NoMatch
    case Some(t) =>
      match t.tokenType
      case Native =>
        Match(SpendData(m.toAddress, FromMicro(m.amount[0].amount, t.decimals), t.denomOrAddress))
      case Cw20 =>
        Match(SpendData(m.msg.recipient, FromMicro(m.msg.amount, t.decimals), m.contractAddr))
  }

  /** A token the DAO holds and that the chain resolves to the same token
      decodes back to the very form that was encoded. */
  lemma RoundTrip(lookup: (TokenType, string) -> Option<GenericToken>, balances: seq<TokenBalance>, d: SpendData)
    requires FindToken(balances, d.denom).Some?
    requires var t := FindToken(balances, d.denom).value; lookup(t.tokenType, d.denom) == Some(t)
    ensures Transform(Loaded(balances), d).Message?
    ensures Decode(lookup, Transform(Loaded(balances), d).msg) == Match(d)
  {
  }

  /** Messages of neither shape are never recognised, whatever the chain
      knows. */
  lemma OtherShapesDoNotMatch(lookup: (TokenType, string) -> Option<GenericToken>, m: CosmosMsg)
    requires !IsNativeSpend(m) && !IsCw20Spend(m)
    ensures Decode(lookup, m) == NoMatch
  {
  }
}
