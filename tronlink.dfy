/**
 * The boundary between the library and the TronLink wallet it drives: the values
 * that cross it (results of wallet and node calls, thrown values, promise
 * settlements), the request the library builds for a TRC-20 contract call, and the
 * trigger / sign / broadcast sequence with the error mapping every sending operation
 * shares.
 */
module TronLink {
  import opened Decimals
  import opened Utils

  datatype Option<T> = None | Some(value: T)

  /** A value that was thrown, or passed to a promise's reject. */
  datatype Thrown =
    | Text(text: string)            // a primitive string
    | ErrorObject(message: string)  // new Error(message)
    | TypeError                     // a property read on undefined or null

  datatype Result<T> = Ok(value: T) | Err(error: Thrown)

  /** How a promise handed back to the caller ends. */
  datatype Settlement<T> = Resolved(value: T) | Rejected(reason: Thrown) | Unsettled

  /** One of the TRON networks a session accepts: its full node and its block explorer. */
  datatype Network = Network(host: string, explorer: string)

  /** A JavaScript token-address argument: absent (null / undefined) or a string. */
  type TokenArg = Option<string>

  /**
   * `!tokenAddress || tokenAddress == 'TRX'`: the test both the session's transfer
   * and the transaction's payload check use to pick the native TRX path.
   */
  predicate IsNativeToken(token: TokenArg)
  {
    token == None || token == Some("") || token == Some("TRX")
  }

  /** The text TronLink throws when the user declines to sign. */
  const DECLINED: string := "Confirmation declined by user"
  const REQUEST_REJECTED: string := "request-rejected"

  /**
   * The catch blocks of every sending operation: a thrown value loosely equal to
   * DECLINED becomes 'request-rejected', anything else is passed on. Only a primitive
   * string can be loosely equal to it: an Error object converts to "Error: ..." and a
   * TypeError to "TypeError: ...".
   */
  function MapError(e: Thrown): (r: Thrown)
    ensures e == Text(DECLINED) ==> r == Text(REQUEST_REJECTED)
    ensures e != Text(DECLINED) ==> r == e
  {
    if e == Text(DECLINED) then Text(REQUEST_REJECTED) else e
  }

  /** Mapping twice maps no more, and the declined text never gets past the mapping. */
  lemma MapErrorSettles(e: Thrown)
    ensures MapError(MapError(e)) == MapError(e)
    ensures MapError(e) != Text(DECLINED)
  {
  }

  /** One entry of triggerSmartContract's parameter list. */
  datatype Param = AddressParam(address: string) | Uint256Param(amount: HexString)

  /** The fee limit every contract call sets, in sun. */
  const FEE_LIMIT: int := 100000000

  const TRANSFER_SELECTOR: string := "transfer(address,uint256)"
  const APPROVE_SELECTOR: string := "approve(address,uint256)"

  /** The arguments of tronWeb.transactionBuilder.triggerSmartContract. */
  datatype TriggerRequest = TriggerRequest(
    contract: string,
    selector: string,
    feeLimit: int,
    parameters: seq<Param>,
    issuer: Option<string>)

  /**
   * The request for a TRC-20 call `selector(address,uint256)`: the counterpart and
   * toHex(amount, decimals), with the fixed fee limit, sent from the connected account.
   */
  function Trc20Request(contract: string, selector: string, counterpart: string, amount: Decimal,
                        decimals: nat, issuer: Option<string>): (r: TriggerRequest)
    ensures r.contract == contract && r.selector == selector && r.issuer == issuer
    ensures r.feeLimit == 100000000
    ensures |r.parameters| == 2 && r.parameters[0] == AddressParam(counterpart)
    ensures r.parameters[1] == Uint256Param(ToHex(amount, decimals))
  {
    TriggerRequest(contract, selector, FEE_LIMIT,
      [AddressParam(counterpart), Uint256Param(ToHex(amount, decimals))], issuer)
  }

  /**
   * For a non-negative amount with no more fractional digits than the token has, the
   * uint256 argument is "0x" and hex digits that read back as amount × 10^decimals,
   * the token's base units.
   */
  lemma Trc20AmountEncoding(contract: string, selector: string, counterpart: string, amount: Decimal,
                            decimals: nat, issuer: Option<string>)
    requires amount.mantissa >= 0 && amount.scale <= decimals && amount.scale <= DECIMAL_PLACES
    ensures var p := Trc20Request(contract, selector, counterpart, amount, decimals, issuer).parameters[1];
      p.amount.Hex? && p.amount.text[..2] == "0x"
      && ParseHex(p.amount.text[2..]) == amount.mantissa * Pow10(decimals - amount.scale)
  {
    var n := ToHexWhole(amount, decimals);
  }

  /** A call the library makes to the wallet or the node, in the order it makes them. */
  datatype Call =
    | BalanceLookup(owner: Option<string>)  // contract().at, decimals().call, balanceOf(owner).call
    | DecimalsLookup                        // contract().at, decimals().call
    | Trigger(request: TriggerRequest)      // transactionBuilder.triggerSmartContract
    | Sign                                  // trx.sign
    | Broadcast                             // trx.sendRawTransaction
    | SendTrx(to: string, sun: Decimal)     // trx.sendTransaction

  /** The calls an operation made and how its promise ended. */
  datatype Run<T> = Run(calls: seq<Call>, settlement: Settlement<T>)

  /** What the wallet answers to the trigger, sign and broadcast steps; a broadcast answers with a txid. */
  datatype Chain = Chain(trigger: Result<()>, sign: Result<()>, broadcast: Result<string>)

  /** Whether a call sends anything towards the network. */
  predicate Submits(c: Call)
  {
    c.Trigger? || c.Sign? || c.Broadcast? || c.SendTrx?
  }

  /**
   * triggerSmartContract, then sign, then sendRawTransaction, resolving with the txid;
   * the first step that throws ends the sequence, and its error is mapped.
   */
  function Submit(request: TriggerRequest, chain: Chain): (r: Run<string>)
    ensures 1 <= |r.calls| <= 3 && r.calls[0] == Trigger(request)
    ensures r.calls == [Trigger(request), Sign, Broadcast][..|r.calls|]
    ensures r.settlement.Resolved? <==> chain.trigger.Ok? && chain.sign.Ok? && chain.broadcast.Ok?
    ensures r.settlement.Resolved? ==> |r.calls| == 3 && r.settlement.value == chain.broadcast.value
    ensures chain.trigger.Err? ==> r == Run([Trigger(request)], Rejected(MapError(chain.trigger.error)))
    ensures chain.trigger.Ok? && chain.sign.Err? ==>
      r == Run([Trigger(request), Sign], Rejected(MapError(chain.sign.error)))
    ensures chain.trigger.Ok? && chain.sign.Ok? ==> |r.calls| == 3
    ensures chain.trigger.Ok? && chain.sign.Ok? && chain.broadcast.Err? ==>
      r.settlement == Rejected(MapError(chain.broadcast.error))
    ensures !r.settlement.Unsettled?
  {
    var trigger, sign, broadcast := Trigger(request), Sign, Broadcast;
    if chain.trigger.Err? then
      Run([trigger], Rejected(MapError(chain.trigger.error)))
    else if chain.sign.Err? then
      Run([trigger, sign], Rejected(MapError(chain.sign.error)))
    else
      match chain.broadcast
      case Err(e) => Run([trigger, sign, broadcast], Rejected(MapError(e)))
      case Ok(txid) => Run([trigger, sign, broadcast], Resolved(txid))
  }

  /** A rejection that Submit hands on is the mapped error of the step that failed first. */
  lemma SubmitRejection(request: TriggerRequest, chain: Chain)
    ensures Submit(request, chain).settlement.Rejected? ==>
      Submit(request, chain).settlement.reason ==
        MapError(if chain.trigger.Err? then chain.trigger.error
                 else if chain.sign.Err? then chain.sign.error
                 else chain.broadcast.error)
    ensures Submit(request, chain).settlement != Rejected(Text(DECLINED))
  {
  }
}
