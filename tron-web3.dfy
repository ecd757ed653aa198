/**
 * tron-web3.js: a session with the TronLink wallet on one named network. It connects
 * to the wallet (recording the connected account), sends TRX or TRC-20 tokens, and
 * wraps transaction ids in Transaction objects.
 */
module TronWeb3 {
  import opened Decimals
  import opened Utils
  import opened TronLink
  import Transaction

  const MAINNET: Network := Network("https://api.trongrid.io", "https://tronscan.io/")
  const TESTNET: Network := Network("https://api.nileex.io", "https://nile.tronscan.org/")

  /** this.networks[name]: the preset for a network name, undefined for any other name. */
  function Preset(name: string): (n: Option<Network>)
    ensures n.Some? <==> name == "mainnet" || name == "testnet"
    ensures name == "mainnet" ==> n == Some(Network("https://api.trongrid.io", "https://tronscan.io/"))
    ensures name == "testnet" ==> n == Some(Network("https://api.nileex.io", "https://nile.tronscan.org/"))
  {
    if name == "mainnet" then Some(MAINNET)
    else if name == "testnet" then Some(TESTNET)
    else None
  }

  /**
   * Both preset explorers end with '/', so a transaction link of a preset session is
   * the explorer, the transaction path and the id, with no slash added.
   */
  lemma PresetTransactionUrl(name: string, id: string)
    requires Preset(name).Some?
    ensures Transaction.TransactionUrl(Preset(name), id)
      == Ok(Preset(name).value.explorer + Transaction.TRANSACTION_PATH + id)
  {
  }

  // ---------------------------------------------------------------------------
  // connect
  // ---------------------------------------------------------------------------

  /** What tronLink.request({method: 'tron_requestAccounts'}) does. */
  datatype RequestAnswer =
    | Answered(code: Option<int>)  // resolves with an object, its code property if any
    | NoAnswer                     // resolves with undefined or null
    | RequestThrows                // rejects

  /** tronLink.tronWeb as connect reads it: the full node's host and the default base58 address. */
  datatype TronWebState = TronWebState(host: string, base58: string)

  /** window.tronLink as connect reads it. */
  datatype WalletState = WalletState(tronWeb: Option<TronWebState>, request: RequestAnswer)

  /** How connect ends, whether it requested accounts, and the account it wrote, if any. */
  datatype Connected = Connected(settlement: Settlement<string>, requested: bool, written: Option<string>)

  /**
   * The executor of connect's promise. Its checks run in order: wallet presence, the
   * wallet's host against the session's, then the account request and its 4001 code.
   * A TypeError (no tronWeb, no network) or a rejected request is thrown inside the
   * async executor, where nothing catches it: the promise never settles.
   */
  function ConnectRun(network: Option<Network>, wallet: Option<WalletState>): (r: Connected)
    ensures wallet.None? ==> r == Connected(Rejected(Text("wallet-not-detected")), false, None)
    ensures r.written.Some? <==> r.settlement.Resolved?
    ensures r.settlement.Resolved? ==>
      wallet.Some? && wallet.value.tronWeb.Some? && network.Some?
      && wallet.value.tronWeb.value.host == network.value.host
      && wallet.value.request.Answered? && wallet.value.request.code != Some(4001)
      && r.written == Some(wallet.value.tronWeb.value.base58)
      && r.settlement.value == wallet.value.tronWeb.value.base58
    ensures r.requested ==>
      wallet.Some? && wallet.value.tronWeb.Some? && network.Some?
      && wallet.value.tronWeb.value.host == network.value.host
    ensures r.settlement == Rejected(Text(REQUEST_REJECTED)) <==>
      r.requested && wallet.value.request == Answered(Some(4001))
    ensures r.settlement == Rejected(Text("wallet-not-detected")) <==> wallet.None?
    ensures r.settlement == Rejected(Text("not-accepted-network")) <==>
      wallet.Some? && wallet.value.tronWeb.Some? && network.Some?
      && wallet.value.tronWeb.value.host != network.value.host
    ensures (wallet.Some? && wallet.value.tronWeb.Some? && network.Some?
             && wallet.value.tronWeb.value.host == network.value.host
             && wallet.value.request.Answered? && wallet.value.request.code != Some(4001)) ==>
      r == Connected(Resolved(wallet.value.tronWeb.value.base58), true, Some(wallet.value.tronWeb.value.base58))
  {
    match wallet
    case None => Connected(Rejected(Text("wallet-not-detected")), false, None)
    case Some(w) =>
      if w.tronWeb.None? || network.None? then Connected(Unsettled, false, None)
      else if w.tronWeb.value.host != network.value.host then
        Connected(Rejected(Text("not-accepted-network")), false, None)
      else
        match w.request
        case RequestThrows => Connected(Unsettled, true, None)
        case NoAnswer => Connected(Unsettled, true, None)
        case Answered(code) =>
          if code == Some(4001) then Connected(Rejected(Text(REQUEST_REJECTED)), true, None)
          else
            var account := w.tronWeb.value.base58;
            Connected(Resolved(account), true, Some(account))
  }

  /**
   * A wallet on another node is turned away before any account request is made, and
   * 'not-accepted-network' means exactly that: a wallet with a node whose host differs.
   */
  lemma ConnectWrongNetwork(network: Network, w: WalletState)
    ensures w.tronWeb.Some? && w.tronWeb.value.host != network.host ==>
      ConnectRun(Some(network), Some(w)) == Connected(Rejected(Text("not-accepted-network")), false, None)
    ensures ConnectRun(Some(network), Some(w)).settlement == Rejected(Text("not-accepted-network")) <==>
      w.tronWeb.Some? && w.tronWeb.value.host != network.host
  {
  }

  /** The session's account is written exactly when connect resolves, and with the value it resolves with. */
  lemma ConnectWritesOnlyOnSuccess(network: Option<Network>, wallet: Option<WalletState>)
    ensures var r := ConnectRun(network, wallet);
      (r.written.Some? <==> r.settlement.Resolved?)
      && (r.settlement.Resolved? ==> r.written == Some(r.settlement.value))
  {
  }

  // ---------------------------------------------------------------------------
  // transfer dispatch
  // ---------------------------------------------------------------------------

  datatype Route = NativeRoute | TokenRoute(address: string) | InvalidRoute

  /** transfer's dispatch on the token address. */
  function RouteOf(token: TokenArg): (r: Route)
    ensures r == NativeRoute <==> IsNativeToken(token)
    ensures r.TokenRoute? ==> token == Some(r.address) && r.address != "" && r.address != "TRX"
  {
    if IsNativeToken(token) then NativeRoute
    else if token.Some? && token.value != "" then TokenRoute(token.value)
    else InvalidRoute
  }

  /** Every token argument is either falsy or truthy: the "invalid-token-address" branch is dead. */
  lemma RouteNeverInvalid(token: TokenArg)
    ensures RouteOf(token) != InvalidRoute
    ensures !IsNativeToken(token) ==> RouteOf(token) == TokenRoute(token.value)
  {
  }

  /** What the wallet answers to trxTransfer's sendTransaction: the txid, or an error. */
  datatype TrxChain = TrxChain(send: Result<string>)

  /** toSun: TRX to sun, BigNumber multiplication by 10^6. */
  function ToSun(amount: Decimal): (sun: Decimal)
    ensures Value(sun) == Value(amount) * 1000000.0
  {
    TimesValue(amount, Pow10(6));
    assert Pow10(6) == 1000000;
    Times(amount, Pow10(6))
  }

  /** trxTransfer: send amount × 10^6 sun, resolve with the txid, map the error. */
  function TrxTransferRun(to: string, amount: Decimal, chain: TrxChain): (r: Run<string>)
    ensures r.calls == [SendTrx(to, ToSun(amount))]
    ensures r.settlement.Resolved? <==> chain.send.Ok?
    ensures chain.send.Ok? ==> r.settlement.value == chain.send.value
    ensures chain.send.Err? ==> r.settlement == Rejected(MapError(chain.send.error))
  {
    var call := SendTrx(to, ToSun(amount));
    match chain.send
    case Err(e) => Run([call], Rejected(MapError(e)))
    case Ok(txid) => Run([call], Resolved(txid))
  }

  /** What tokenTransfer's collaborators answer: the token's decimals(), then the submission steps. */
  datatype TokenChain = TokenChain(decimals: Result<nat>, submit: Chain)

  /**
   * tokenTransfer: read the token's decimals, then trigger transfer(address,uint256) on
   * the token with [to, toHex(amount, decimals)] from the connected account, sign and
   * broadcast. Every error in between is mapped.
   */
  function TokenTransferRun(account: Option<string>, to: string, amount: Decimal, token: string,
                            chain: TokenChain): (r: Run<string>)
    ensures |r.calls| > 0 && r.calls[0] == DecimalsLookup
    ensures chain.decimals.Err? ==> r == Run([DecimalsLookup], Rejected(MapError(chain.decimals.error)))
    ensures chain.decimals.Ok? ==>
      var s := Submit(Trc20Request(token, TRANSFER_SELECTOR, to, amount, chain.decimals.value, account), chain.submit);
      r == Run([DecimalsLookup] + s.calls, s.settlement)
    ensures !r.settlement.Unsettled?
  {
    match chain.decimals
    case Err(e) => Run([DecimalsLookup], Rejected(MapError(e)))
    case Ok(decimals) =>
      var s := Submit(Trc20Request(token, TRANSFER_SELECTOR, to, amount, decimals, account), chain.submit);
      Run([DecimalsLookup] + s.calls, s.settlement)
  }

  /** The wallet's answers for either path of transfer. */
  datatype TransferChain = TransferChain(trx: TrxChain, token: TokenChain)

  /** transfer: TRX for a falsy or 'TRX' token address, the token's transfer otherwise. */
  function TransferRun(account: Option<string>, to: string, amount: Decimal, token: TokenArg,
                       chain: TransferChain): (r: Run<string>)
    ensures IsNativeToken(token) ==> r == TrxTransferRun(to, amount, chain.trx)
    ensures !IsNativeToken(token) ==> r == TokenTransferRun(account, to, amount, token.value, chain.token)
    ensures !r.settlement.Unsettled?
  {
    var route := RouteOf(token);
    RouteNeverInvalid(token);
    if route.NativeRoute? then TrxTransferRun(to, amount, chain.trx)
    else TokenTransferRun(account, to, amount, route.address, chain.token)
  }

  /** The TRX path submits one payment and the token path never sends TRX, so no transfer pays twice. */
  lemma TransferSendsOnce(account: Option<string>, to: string, amount: Decimal, token: TokenArg,
                          chain: TransferChain)
    ensures var calls := TransferRun(account, to, amount, token, chain).calls;
      IsNativeToken(token) ==> |calls| == 1 && calls[0].SendTrx?
    ensures var calls := TransferRun(account, to, amount, token, chain).calls;
      !IsNativeToken(token) ==> forall i :: 0 <= i < |calls| ==> !calls[i].SendTrx?
  {
    if !IsNativeToken(token) {
      var r := TokenTransferRun(account, to, amount, token.value, chain.token);
      if chain.token.decimals.Ok? {
        var s := Submit(Trc20Request(token.value, TRANSFER_SELECTOR, to, amount, chain.token.decimals.value, account),
                        chain.token.submit);
        assert r.calls == [DecimalsLookup] + s.calls;
        forall i | 0 <= i < |r.calls| ensures !r.calls[i].SendTrx? {
          if i > 0 {
            assert r.calls[i] == s.calls[i - 1];
          }
        }
      }
    }
  }

  // ---------------------------------------------------------------------------
  // The TronWeb3 object
  // ---------------------------------------------------------------------------

  class Session {
    /** The preset chosen by name; undefined for an unknown name. */
    const network: Option<Network>
    /** The wallet's base58 address, once connect has resolved. */
    var connectedAccount: Option<string>

    constructor(name: string)
      ensures network == Preset(name) && connectedAccount == None
    {
      network := Preset(name);
      connectedAccount := None;
    }

    /** connect: settle as ConnectRun says, and write connectedAccount only on success. */
    method Connect(wallet: Option<WalletState>) returns (s: Settlement<string>)
      modifies this
      ensures s == ConnectRun(network, wallet).settlement
      ensures connectedAccount ==
        if s.Resolved? then Some(s.value) else old(connectedAccount)
    {
      if wallet.None? {
        return Rejected(Text("wallet-not-detected"));
      }
      var w := wallet.value;
      if w.tronWeb.None? || network.None? {
        return Unsettled;
      }
      if w.tronWeb.value.host != network.value.host {
        return Rejected(Text("not-accepted-network"));
      }
      match w.request {
        case RequestThrows => return Unsettled;
        case NoAnswer => return Unsettled;
        case Answered(code) =>
          if code == Some(4001) {
            return Rejected(Text(REQUEST_REJECTED));
          }
      }
      connectedAccount := Some(w.tronWeb.value.base58);
      s := Resolved(w.tronWeb.value.base58);
    }

    /** transaction(id): a new Transaction for this session's network. */
    method MakeTransaction(id: string) returns (t: Transaction.Transaction)
      ensures fresh(t) && t.id == id && t.network == network && t.data == None
    {
      t := new Transaction.Transaction(id, network);
    }

    /**
     * transfer (through trxTransfer or tokenTransfer): the promise resolves with a new
     * Transaction for the broadcast txid, and rejects as TransferRun does.
     */
    method Transfer(to: string, amount: Decimal, token: TokenArg, chain: TransferChain)
      returns (s: Settlement<Transaction.Transaction>)
      ensures var r := TransferRun(connectedAccount, to, amount, token, chain).settlement;
        (s.Resolved? <==> r.Resolved?)
        && (s.Resolved? ==> fresh(s.value) && s.value.id == r.value && s.value.network == network
                            && s.value.data == None)
        && (s.Rejected? <==> r.Rejected?)
        && (s.Rejected? ==> s.reason == r.reason)
    {
      var r := TransferRun(connectedAccount, to, amount, token, chain);
      match r.settlement {
        case Resolved(txid) =>
          var t := MakeTransaction(txid);
          s := Resolved(t);
        case Rejected(e) => s := Rejected(e);
        case Unsettled => s := Unsettled;
      }
    }
  }
}
