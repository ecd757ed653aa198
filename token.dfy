/**
 * token.js: a TRC-20 token at a contract address, used through a TronWeb3 session.
 * Its transfer checks the amount against the connected account's balance and its
 * sign, then triggers the token's transfer(address,uint256); approve triggers
 * approve(address,uint256) with no checks. Both map a declined confirmation to
 * 'request-rejected'.
 */
module Token {
  import opened Decimals
  import opened Utils
  import opened TronLink
  import TronWeb3

  const INVALID_ADDRESS: string := "Invalid token address"
  const INSUFFICIENT_BALANCE: string := "insufficient-balance"
  const AMOUNT_ERROR: string := "transfer-amount-error"

  /**
   * What transfer's collaborators answer: getBalance for the connected account (the
   * balance in whole tokens), getDecimals, then the submission steps.
   */
  datatype TransferChain = TransferChain(balance: Result<Decimal>, decimals: Result<nat>, submit: Chain)

  /** transfer's two checks, in their order: the balance first, then the sign. */
  function Precheck(balance: Decimal, amount: Decimal): (r: Option<string>)
    ensures r == Some(INSUFFICIENT_BALANCE) <==> Value(balance) < Value(amount)
    ensures r == Some(AMOUNT_ERROR) <==> Value(amount) <= Value(balance) && Value(amount) < 0.0
    ensures r.None? <==> Value(amount) <= Value(balance) && Value(amount) >= 0.0
  {
    BelowValue(balance, amount);
    ValueSign(amount);
    if Below(balance, amount) then Some(INSUFFICIENT_BALANCE)
    else if amount.mantissa < 0 then Some(AMOUNT_ERROR)
    else None
  }

  /**
   * The executor of transfer's promise: look up the balance, reject an amount above it,
   * then a negative amount, then read the decimals and submit
   * transfer(address,uint256)(to, toHex(amount, decimals)) on this token from the
   * connected account. Every error thrown on the way is mapped.
   */
  function TransferRun(contract: string, account: Option<string>, to: string, amount: Decimal,
                       chain: TransferChain): (r: Run<string>)
    ensures |r.calls| >= 1 && r.calls[0] == BalanceLookup(account)
    ensures chain.balance.Err? ==> r == Run([BalanceLookup(account)], Rejected(MapError(chain.balance.error)))
    ensures chain.balance.Ok? && Precheck(chain.balance.value, amount).Some? ==>
      r == Run([BalanceLookup(account)], Rejected(Text(Precheck(chain.balance.value, amount).value)))
    ensures chain.balance.Ok? && Precheck(chain.balance.value, amount).None? ==>
      Run(r.calls[1..], r.settlement)
         == TronWeb3.TokenTransferRun(account, to, amount, contract,
                                      TronWeb3.TokenChain(chain.decimals, chain.submit))
    ensures !r.settlement.Unsettled?
  {
    var lookup := BalanceLookup(account);
    match chain.balance
    case Err(e) => Run([lookup], Rejected(MapError(e)))
    case Ok(balance) =>
      match Precheck(balance, amount)
      case Some(code) => Run([lookup], Rejected(Text(code)))
      case None =>
        var rest := TronWeb3.TokenTransferRun(account, to, amount, contract,
                                              TronWeb3.TokenChain(chain.decimals, chain.submit));
        assert ([lookup] + rest.calls)[1..] == rest.calls;
        Run([lookup] + rest.calls, rest.settlement)
  }

  /**
   * When the balance lookup fails or a check rejects, nothing is triggered, signed or
   * broadcast.
   */
  lemma RejectedTransferSubmitsNothing(contract: string, account: Option<string>, to: string,
                                       amount: Decimal, chain: TransferChain)
    requires chain.balance.Err? || Precheck(chain.balance.value, amount).Some?
    ensures var calls := TransferRun(contract, account, to, amount, chain).calls;
      forall i :: 0 <= i < |calls| ==> !Submits(calls[i])
  {
  }

  /**
   * The balance check comes first: an amount above the balance is refused as
   * insufficient even when it is also negative (possible only for a negative balance),
   * and a negative amount is never reported when the balance lookup itself failed.
   */
  lemma BalanceCheckFirst(contract: string, account: Option<string>, to: string, amount: Decimal,
                          chain: TransferChain)
    ensures chain.balance.Ok? && Value(chain.balance.value) < Value(amount) ==>
      TransferRun(contract, account, to, amount, chain).settlement == Rejected(Text(INSUFFICIENT_BALANCE))
    ensures chain.balance.Err? ==>
      TransferRun(contract, account, to, amount, chain).settlement == Rejected(MapError(chain.balance.error))
  {
  }

  /**
   * transfer resolves exactly when every lookup and step succeeds and the amount is
   * between 0 and the balance; it then made the balance lookup, the decimals lookup,
   * and triggered transfer(address,uint256) on this token with [to, toHex(amount,
   * decimals)] and fee limit 100000000 from the connected account, signed and
   * broadcast, and resolves with the broadcast's txid.
   */
  lemma TransferSuccess(contract: string, account: Option<string>, to: string, amount: Decimal,
                        chain: TransferChain)
    ensures var r := TransferRun(contract, account, to, amount, chain);
      r.settlement.Resolved? <==>
        chain.balance.Ok? && Value(amount) <= Value(chain.balance.value) && Value(amount) >= 0.0
        && chain.decimals.Ok? && chain.submit.trigger.Ok? && chain.submit.sign.Ok? && chain.submit.broadcast.Ok?
    ensures var r := TransferRun(contract, account, to, amount, chain);
      r.settlement.Resolved? ==>
        r.settlement.value == chain.submit.broadcast.value
        && r.calls == [BalanceLookup(account), DecimalsLookup,
                       Trigger(TriggerRequest(contract, "transfer(address,uint256)", 100000000,
                                              [AddressParam(to), Uint256Param(ToHex(amount, chain.decimals.value))],
                                              account)),
                       Sign, Broadcast]
  {
    var r := TransferRun(contract, account, to, amount, chain);
    if chain.balance.Ok? && Precheck(chain.balance.value, amount).None? && chain.decimals.Ok? {
      var req := Trc20Request(contract, TRANSFER_SELECTOR, to, amount, chain.decimals.value, account);
      var s := Submit(req, chain.submit);
      assert r.calls == [BalanceLookup(account), DecimalsLookup] + s.calls;
    }
  }

  /** No outcome of transfer carries the raw declined text: it always arrives as 'request-rejected'. */
  lemma TransferMapsDeclined(contract: string, account: Option<string>, to: string, amount: Decimal,
                             chain: TransferChain)
    ensures TransferRun(contract, account, to, amount, chain).settlement != Rejected(Text(DECLINED))
    ensures chain.balance == Err(Text(DECLINED)) ==>
      TransferRun(contract, account, to, amount, chain).settlement == Rejected(Text(REQUEST_REJECTED))
  {
    if chain.balance.Ok? && Precheck(chain.balance.value, amount).None? && chain.decimals.Ok? {
      var req := Trc20Request(contract, TRANSFER_SELECTOR, to, amount, chain.decimals.value, account);
      SubmitRejection(req, chain.submit);
    }
  }

  /** What approve's collaborators answer: getDecimals, then the submission steps. */
  datatype ApproveChain = ApproveChain(decimals: Result<nat>, submit: Chain)

  /**
   * The executor of approve's promise: read the decimals and submit
   * approve(address,uint256)(spender, toHex(amount, decimals)), with no balance or sign
   * check; errors are mapped as in transfer.
   */
  function ApproveRun(contract: string, account: Option<string>, spender: string, amount: Decimal,
                      chain: ApproveChain): (r: Run<string>)
    ensures |r.calls| >= 1 && r.calls[0] == DecimalsLookup
    ensures chain.decimals.Err? ==> r == Run([DecimalsLookup], Rejected(MapError(chain.decimals.error)))
    ensures chain.decimals.Ok? ==>
      var s := Submit(Trc20Request(contract, APPROVE_SELECTOR, spender, amount, chain.decimals.value, account),
                      chain.submit);
      r == Run([DecimalsLookup] + s.calls, s.settlement)
    ensures !r.settlement.Unsettled?
  {
    match chain.decimals
    case Err(e) => Run([DecimalsLookup], Rejected(MapError(e)))
    case Ok(decimals) =>
      var s := Submit(Trc20Request(contract, APPROVE_SELECTOR, spender, amount, decimals, account), chain.submit);
      Run([DecimalsLookup] + s.calls, s.settlement)
  }

  /** approve never looks at the balance, whatever its collaborators answer. */
  lemma ApproveSkipsBalance(contract: string, account: Option<string>, spender: string, amount: Decimal,
                            chain: ApproveChain)
    ensures var a := ApproveRun(contract, account, spender, amount, chain);
      forall i :: 0 <= i < |a.calls| ==> !a.calls[i].BalanceLookup?
  {
    var a := ApproveRun(contract, account, spender, amount, chain);
    if chain.decimals.Ok? {
      var s := Submit(Trc20Request(contract, APPROVE_SELECTOR, spender, amount, chain.decimals.value, account),
                      chain.submit);
      assert a.calls == [DecimalsLookup] + s.calls;
      forall i | 0 <= i < |a.calls| ensures !a.calls[i].BalanceLookup? {
        if i > 0 {
          assert a.calls[i] == s.calls[i - 1];
        }
      }
    }
  }

  /**
   * approve never looks at the balance, and what it triggers differs from what
   * transfer triggers for the same counterpart and amount only in the selector.
   */
  lemma ApproveLikeTransfer(contract: string, account: Option<string>, counterpart: string, amount: Decimal,
                            decimals: nat, balance: Decimal, submit: Chain)
    requires Precheck(balance, amount).None?
    ensures var a := ApproveRun(contract, account, counterpart, amount, ApproveChain(Ok(decimals), submit));
      forall i :: 0 <= i < |a.calls| ==> !a.calls[i].BalanceLookup?
    ensures var a := ApproveRun(contract, account, counterpart, amount, ApproveChain(Ok(decimals), submit));
      var t := TransferRun(contract, account, counterpart, amount, TransferChain(Ok(balance), Ok(decimals), submit));
      a.calls[1].Trigger? && t.calls[2].Trigger?
      && a.calls[1].request == t.calls[2].request.(selector := "approve(address,uint256)")
      && a.settlement == t.settlement
  {
    ApproveSkipsBalance(contract, account, counterpart, amount, ApproveChain(Ok(decimals), submit));
    var approveReq := Trc20Request(contract, APPROVE_SELECTOR, counterpart, amount, decimals, account);
    var transferReq := Trc20Request(contract, TRANSFER_SELECTOR, counterpart, amount, decimals, account);
    var a := ApproveRun(contract, account, counterpart, amount, ApproveChain(Ok(decimals), submit));
    assert a.calls == [DecimalsLookup] + Submit(approveReq, submit).calls;
    var t := TransferRun(contract, account, counterpart, amount, TransferChain(Ok(balance), Ok(decimals), submit));
    assert t.calls == [BalanceLookup(account), DecimalsLookup] + Submit(transferReq, submit).calls;
  }

  class Token {
    const address: string
    /** The TronWeb3 session whose connected account sends. */
    const web3: TronWeb3.Session

    /** The field assignments of the constructor, once the address has passed the check. */
    constructor(address: string, web3: TronWeb3.Session)
      ensures this.address == address && this.web3 == web3
    {
      this.address := address;
      this.web3 := web3;
    }

    /** new Token(address, web3): throws for an empty address, else stores both arguments. */
    static method Create(address: string, web3: TronWeb3.Session) returns (r: Result<Token>)
      ensures r.Err? <==> address == ""
      ensures r.Err? ==> r.error == ErrorObject(INVALID_ADDRESS)
      ensures r.Ok? ==> fresh(r.value) && r.value.address == address && r.value.web3 == web3
                        && r.value.GetAddress() == address
    {
      if address == "" {
        return Err(ErrorObject(INVALID_ADDRESS));
      }
      var t := new Token(address, web3);
      r := Ok(t);
    }

    /** getAddress: the address the token was created with. */
    function GetAddress(): string
    {
      address
    }

    /** transfer, sent from the session's connected account as it stands when called. */
    method Transfer(to: string, amount: Decimal, chain: TransferChain) returns (r: Run<string>)
      ensures r == TransferRun(address, web3.connectedAccount, to, amount, chain)
    {
      r := TransferRun(address, web3.connectedAccount, to, amount, chain);
    }

    method Approve(spender: string, amount: Decimal, chain: ApproveChain) returns (r: Run<string>)
      ensures r == ApproveRun(address, web3.connectedAccount, spender, amount, chain)
    {
      r := ApproveRun(address, web3.connectedAccount, spender, amount, chain);
    }
  }
}
