/**
 * transaction.js: a transaction sent through the wallet, identified by its id. It
 * fetches the transaction and its receipt from the node, polls until the
 * transaction is confirmed in a block (verify), checks that it paid the expected
 * receiver the expected amount (verifyData), and builds its block-explorer link.
 */
module Transaction {
  import opened Decimals
  import opened Utils
  import opened TronLink

  // ---------------------------------------------------------------------------
  // What the node returns
  // ---------------------------------------------------------------------------

  /**
   * The first contract of a native TRX transfer: the receiver (to_address, as the
   * base58 text that address.fromHex gives) and the amount in sun.
   */
  datatype TransferContract = TransferContract(receiver: string, amountSun: int)

  /** trx.getTransaction: the contractRet of each ret entry and raw_data.contract. */
  datatype RawTx = RawTx(ret: seq<string>, contracts: seq<TransferContract>)

  /** trx.getTransactionInfo: both fields are absent until the transaction is in a block. */
  datatype TxInfo = TxInfo(blockNumber: Option<int>, result: Option<string>)

  /** Transaction.data: the transaction with the receipt stored in its info property. */
  datatype TxData = TxData(raw: RawTx, info: Option<TxInfo>)

  /** The answers of one round of lookups: getTransaction, then getTransactionInfo. */
  datatype Fetch = Fetch(transaction: Result<RawTx>, info: Result<TxInfo>)

  const LOOKUP_FAILED: string := "There was a problem retrieving transaction data!"

  // ---------------------------------------------------------------------------
  // getDataFromExplorer
  // ---------------------------------------------------------------------------

  /** The new value of data and what getDataFromExplorer returns or throws. */
  datatype Refreshed = Refreshed(data: Option<TxData>, result: Result<TxData>)

  /**
   * getDataFromExplorer: data becomes the fetched transaction, then its info becomes
   * the fetched receipt. A failure of either lookup is replaced by one fixed error;
   * when the first lookup fails data is untouched, when the second fails data already
   * holds the new transaction, without a receipt.
   */
  function Refresh(data: Option<TxData>, f: Fetch): (r: Refreshed)
    ensures r.result.Err? <==> f.transaction.Err? || f.info.Err?
    ensures r.result.Err? ==> r.result.error == ErrorObject(LOOKUP_FAILED)
    ensures f.transaction.Err? ==> r.data == data
    ensures f.transaction.Ok? ==> r.data.Some? && r.data.value.raw == f.transaction.value
    ensures r.result.Ok? ==> r.data == Some(r.result.value) && r.result.value.info == Some(f.info.value)
    ensures f.transaction.Ok? && f.info.Err? ==> r.data.value.info == None
  {
    match f.transaction
    case Err(_) => Refreshed(data, Err(ErrorObject(LOOKUP_FAILED)))
    case Ok(raw) =>
      match f.info
      case Err(_) => Refreshed(Some(TxData(raw, None)), Err(ErrorObject(LOOKUP_FAILED)))
      case Ok(info) =>
        var d := TxData(raw, Some(info));
        Refreshed(Some(d), Ok(d))
  }

  // ---------------------------------------------------------------------------
  // verify: one poll and the polling loop
  // ---------------------------------------------------------------------------

  /** Where the confirmation stands after a poll. */
  datatype Status = Pending | Verified | Failed | Errored(error: Thrown)

  /** A JavaScript truthiness test on blockNumber: absent and 0 are falsy. */
  predicate InBlock(info: TxInfo)
  {
    info.blockNumber.Some? && info.blockNumber.value != 0
  }

  /**
   * The body of the interval callback after a successful fetch. Without a block number
   * the poll decides nothing; in a block, a REVERT in ret[0] fails before the receipt's
   * result is looked at, a FAILED result fails, anything else verifies. Reading a
   * property of a missing receipt or of a missing ret[0] throws a TypeError.
   */
  function Classify(d: TxData): (s: Status)
    ensures s == Pending <==> d.info.Some? && !InBlock(d.info.value)
    ensures s == Verified <==>
      d.info.Some? && InBlock(d.info.value) && |d.raw.ret| > 0
      && d.raw.ret[0] != "REVERT" && d.info.value.result != Some("FAILED")
    ensures s == Failed <==>
      d.info.Some? && InBlock(d.info.value) && |d.raw.ret| > 0
      && (d.raw.ret[0] == "REVERT" || d.info.value.result == Some("FAILED"))
    ensures s.Errored? ==> s.error == TypeError
  {
    match d.info
    case None => Errored(TypeError)
    case Some(info) =>
      if !InBlock(info) then Pending
      else if |d.raw.ret| == 0 then Errored(TypeError)
      else if d.raw.ret[0] == "REVERT" then Failed
      else if info.result == Some("FAILED") then Failed
      else Verified
  }

  /** A confirmed transaction whose ret[0] is REVERT fails whatever its receipt's result says. */
  lemma RevertBeforeResult(raw: RawTx, info: TxInfo)
    requires InBlock(info) && |raw.ret| > 0 && raw.ret[0] == "REVERT"
    ensures Classify(TxData(raw, Some(info))) == Failed
  {
  }

  /** One poll: the new data and the poll's status. */
  datatype Polled = Polled(data: Option<TxData>, status: Status)

  /** One run of the interval callback: fetch, then classify; any error is the poll's result. */
  function Poll(data: Option<TxData>, f: Fetch): (p: Polled)
    ensures p.data == Refresh(data, f).data
    ensures (f.transaction.Err? || f.info.Err?) ==> p.status == Errored(ErrorObject(LOOKUP_FAILED))
    ensures f.transaction.Ok? && f.info.Ok? ==>
      p.status == Classify(TxData(f.transaction.value, Some(f.info.value)))
  {
    var r := Refresh(data, f);
    match r.result
    case Err(e) => Polled(r.data, Errored(e))
    case Ok(d) => Polled(r.data, Classify(d))
  }

  /** Where verify stands after its interval has fired once per element of the fetch list. */
  datatype Watched = Watched(data: Option<TxData>, status: Status, polls: nat)

  /**
   * verify, one poll per tick: the interval keeps firing while the status is Pending
   * and is cleared by the first poll that decides anything, so later ticks fetch nothing.
   */
  function Watch(data: Option<TxData>, fetches: seq<Fetch>): (w: Watched)
    ensures w.polls <= |fetches|
    ensures w.status == Pending ==> w.polls == |fetches|
    ensures w.status != Pending ==> w.polls >= 1
    decreases |fetches|
  {
    if fetches == [] then Watched(data, Pending, 0)
    else
      var p := Poll(data, fetches[0]);
      if p.status != Pending then Watched(p.data, p.status, 1)
      else
        var rest := Watch(p.data, fetches[1..]);
        Watched(rest.data, rest.status, rest.polls + 1)
  }

  /** The promise verify returns, once its interval has stopped (or not). */
  function Settle(s: Status): (r: Settlement<string>)
    ensures r == Resolved("verified") <==> s == Verified
    ensures r == Rejected(Text("failed")) <==> s == Failed || s == Errored(Text("failed"))
    ensures r.Unsettled? <==> s == Pending
    ensures s.Errored? ==> r == Rejected(s.error)
  {
    match s
    case Pending => Unsettled
    case Verified => Resolved("verified")
    case Failed => Rejected(Text("failed"))
    case Errored(e) => Rejected(e)
  }

  /**
   * After a decision no further poll happens: extra ticks after the deciding one
   * change neither the data, nor the outcome, nor the number of fetches made.
   */
  lemma {:induction false} WatchStops(data: Option<TxData>, fetches: seq<Fetch>, later: seq<Fetch>)
    requires Watch(data, fetches).status != Pending
    ensures Watch(data, fetches + later) == Watch(data, fetches)
    decreases |fetches|
  {
    var p := Poll(data, fetches[0]);
    assert (fetches + later)[0] == fetches[0];
    if p.status == Pending {
      assert (fetches + later)[1..] == fetches[1..] + later;
      WatchStops(p.data, fetches[1..], later);
    }
  }

  /**
   * Any error in a poll, a failed lookup included, ends verify at that poll: it
   * rejects with that error and nothing is fetched again.
   */
  lemma WatchErrorStops(data: Option<TxData>, fetches: seq<Fetch>)
    requires fetches != [] && Poll(data, fetches[0]).status.Errored?
    ensures Watch(data, fetches) ==
      Watched(Poll(data, fetches[0]).data, Poll(data, fetches[0]).status, 1)
    ensures Settle(Watch(data, fetches).status) == Rejected(Poll(data, fetches[0]).status.error)
  {
  }

  /** A fetch that succeeds and shows the transaction outside any block. */
  predicate Unconfirmed(f: Fetch)
  {
    f.transaction.Ok? && f.info.Ok? && !InBlock(f.info.value)
  }

  /** While every fetch shows the transaction outside a block, verify keeps polling and settles nothing. */
  lemma {:induction false} WatchUnconfirmed(data: Option<TxData>, fetches: seq<Fetch>)
    requires forall i :: 0 <= i < |fetches| ==> Unconfirmed(fetches[i])
    ensures Watch(data, fetches).status == Pending
    ensures Watch(data, fetches).polls == |fetches|
    decreases |fetches|
  {
    if fetches != [] {
      WatchUnconfirmed(Poll(data, fetches[0]).data, fetches[1..]);
    }
  }

  /**
   * verify settles exactly on the first poll that decides: every poll before it was
   * Pending, and the outcome is that poll's.
   */
  lemma {:induction false} WatchDecidedAt(data: Option<TxData>, fetches: seq<Fetch>)
    requires Watch(data, fetches).status != Pending
    ensures var w := Watch(data, fetches);
      Watch(data, fetches[..w.polls - 1]).status == Pending
      && Poll(Watch(data, fetches[..w.polls - 1]).data, fetches[w.polls - 1]) == Polled(w.data, w.status)
    decreases |fetches|
  {
    var p := Poll(data, fetches[0]);
    var w := Watch(data, fetches);
    if p.status == Pending {
      var tail := fetches[1..];
      WatchDecidedAt(p.data, tail);
      var k := Watch(p.data, tail).polls;
      assert w.polls == k + 1;
      assert fetches[..w.polls - 1] == [fetches[0]] + tail[..k - 1];
      assert fetches[w.polls - 1] == tail[k - 1];
      assert ([fetches[0]] + tail[..k - 1])[1..] == tail[..k - 1];
    } else {
      assert fetches[..0] == [];
    }
  }

  // ---------------------------------------------------------------------------
  // verifyData
  // ---------------------------------------------------------------------------

  function LowerChar(c: char): char
  {
    if 'A' <= c <= 'Z' then (c as int + 32) as char else c
  }

  /** String.prototype.toLowerCase on ASCII letters. */
  function Lower(s: string): (r: string)
    ensures |r| == |s|
    ensures forall i :: 0 <= i < |s| ==> r[i] == LowerChar(s[i])
  {
    seq(|s|, i requires 0 <= i < |s| => LowerChar(s[i]))
  }

  predicate HasUpper(s: string)
  {
    exists i :: 0 <= i < |s| && 'A' <= s[i] <= 'Z'
  }

  /** Lower-casing leaves no upper-case letter, and keeps a string without one as it is. */
  lemma LowerProperties(s: string)
    ensures !HasUpper(Lower(s))
    ensures !HasUpper(s) ==> Lower(s) == s
    ensures Lower(Lower(s)) == Lower(s)
  {
    var r := Lower(s);
    forall i | 0 <= i < |r| ensures !('A' <= r[i] <= 'Z') {
    }
  }

  /** fromSun: sun to TRX, BigNumber division by 10^6. */
  function FromSun(sun: int): (r: Decimal)
    ensures r.scale == DECIMAL_PLACES
  {
    ToDec(Decimal(sun, 0), 6)
  }

  /** The on-chain amount of a native transfer is exactly sun / 10^6 TRX. */
  lemma FromSunExact(sun: int)
    ensures Value(FromSun(sun)) == sun as real / 1000000.0
  {
    ScaledFits(sun, 0, 6, DECIMAL_PLACES);
    assert Decimal(sun * Pow10(0), 0 + 6) == Decimal(sun, 6);
    ToDecExact(Decimal(sun, 0), 6);
    assert Pow10(6) == 1000000;
  }

  /** What decodeInput gives for a token transfer: the receiver (base58) and the uint256 amount. */
  datatype Decoded = Decoded(receiver: string, amount: nat)

  /** The answers verifyData's token path gets: decodeInput and the token's decimals(). */
  datatype TokenLookups = TokenLookups(decoded: Result<Decoded>, decimals: Result<nat>)

  const VERIFIED: string := "verified"
  const FAILED: string := "failed"

  /** The receiver and the amount text the transaction shows, as verifyData computes them. */
  datatype Shown = Shown(receiver: string, amount: string)

  /**
   * The receiver and the amount the transaction paid: on the native path from its first
   * contract, on the token path from the decoded input scaled down by the token's
   * decimals. The receiver is lower-cased and the amount printed as String(number)
   * prints it.
   */
  function ShownBy(data: Option<TxData>, token: TokenArg, lookups: TokenLookups): (r: Result<Shown>)
    ensures IsNativeToken(token) ==>
      (r.Ok? <==> data.Some? && |data.value.raw.contracts| > 0)
    ensures IsNativeToken(token) && r.Ok? ==>
      r.value == Shown(Lower(data.value.raw.contracts[0].receiver),
                       Render(FromSun(data.value.raw.contracts[0].amountSun)))
    ensures !IsNativeToken(token) ==> (r.Ok? <==> lookups.decoded.Ok? && lookups.decimals.Ok?)
    ensures !IsNativeToken(token) && r.Ok? ==>
      r.value == Shown(Lower(lookups.decoded.value.receiver),
                       Render(ToDec(Decimal(lookups.decoded.value.amount, 0), lookups.decimals.value)))
    ensures r.Ok? ==> !HasUpper(r.value.receiver)
  {
    if IsNativeToken(token) then
      if data.None? || |data.value.raw.contracts| == 0 then Err(TypeError)
      else
        var c := data.value.raw.contracts[0];
        LowerProperties(c.receiver);
        Ok(Shown(Lower(c.receiver), Render(FromSun(c.amountSun))))
    else
      match lookups.decoded
      case Err(e) => Err(e)
      case Ok(decoded) =>
        match lookups.decimals
        case Err(e) => Err(e)
        case Ok(decimals) =>
          LowerProperties(decoded.receiver);
          Ok(Shown(Lower(decoded.receiver), Render(ToDec(Decimal(decoded.amount, 0), decimals))))
  }

  /**
   * verifyData, as written: 'verified' when the lower-cased receiver equals the
   * expected receiver as the caller gave it and the amount texts are equal, else 'failed'.
   */
  function VerifyData(data: Option<TxData>, receiver: string, amount: string, token: TokenArg,
                      lookups: TokenLookups): (r: Result<string>)
    ensures r.Err? <==> ShownBy(data, token, lookups).Err?
    ensures r == Ok(VERIFIED) <==>
      ShownBy(data, token, lookups) == Ok(Shown(Lower(receiver), amount)) && !HasUpper(receiver)
    ensures r.Ok? ==> r.value == VERIFIED || r.value == FAILED
  {
    match ShownBy(data, token, lookups)
    case Err(e) => Err(e)
    case Ok(shown) =>
      LowerProperties(receiver);
      if shown.receiver == receiver && shown.amount == amount then Ok(VERIFIED) else Ok(FAILED)
  }

  /**
   * The one-sided lower-casing means a receiver written with any upper-case letter,
   * which every base58 TRON address (they begin with 'T') is, never verifies.
   */
  lemma UpperCaseReceiverNeverVerifies(data: Option<TxData>, receiver: string, amount: string,
                                       token: TokenArg, lookups: TokenLookups)
    requires HasUpper(receiver)
    ensures VerifyData(data, receiver, amount, token, lookups) != Ok(VERIFIED)
  {
  }

  /** A concrete native transfer to "TXyz" of 1.5 TRX that verifyData rejects for the receiver "TXyz". */
  lemma CanonicalReceiverRejected()
    ensures var data := Some(TxData(RawTx(["SUCCESS"], [TransferContract("TXyz", 1500000)]), None));
      VerifyData(data, "TXyz", "1.5", None, TokenLookups(Err(TypeError), Err(TypeError))) == Ok(FAILED)
  {
    assert HasUpper("TXyz") by { assert 'A' <= "TXyz"[0] <= 'Z'; }
  }

  /** verifyData with both receivers lower-cased, as the comparison evidently intends. */
  function VerifyDataIntended(data: Option<TxData>, receiver: string, amount: string, token: TokenArg,
                              lookups: TokenLookups): (r: Result<string>)
    ensures r.Err? <==> ShownBy(data, token, lookups).Err?
    ensures r.Err? ==> r.error == ShownBy(data, token, lookups).error
    ensures r == Ok(VERIFIED) <==> ShownBy(data, token, lookups) == Ok(Shown(Lower(receiver), amount))
    ensures r.Ok? ==> r.value == VERIFIED || r.value == FAILED
  {
    match ShownBy(data, token, lookups)
    case Err(e) => Err(e)
    case Ok(shown) =>
      if shown.receiver == Lower(receiver) && shown.amount == amount then Ok(VERIFIED) else Ok(FAILED)
  }

  /**
   * The intended check verifies a native transfer exactly when the receiver matches up
   * to ASCII case and the expected amount, read as a decimal, is the amount paid.
   */
  lemma VerifyDataIntendedNative(raw: RawTx, info: Option<TxInfo>, receiver: string, expected: Decimal,
                                 token: TokenArg, lookups: TokenLookups)
    requires IsNativeToken(token) && |raw.contracts| > 0
    ensures VerifyDataIntended(Some(TxData(raw, info)), receiver, Render(expected), token, lookups) == Ok(VERIFIED)
      <==> Lower(raw.contracts[0].receiver) == Lower(receiver)
           && Value(expected) == raw.contracts[0].amountSun as real / 1000000.0
  {
    var sun := raw.contracts[0].amountSun;
    RenderSame(FromSun(sun), expected);
    FromSunExact(sun);
  }

  /** The corrected token check compares the expected amount with toDec of the decoded amount, by value. */
  lemma VerifyDataIntendedTokenPaid(data: Option<TxData>, receiver: string, expected: Decimal, token: TokenArg,
                                    decoded: Decoded, decimals: nat)
    requires !IsNativeToken(token)
    ensures var r := VerifyDataIntended(data, receiver, Render(expected), token, TokenLookups(Ok(decoded), Ok(decimals)));
      r == Ok(VERIFIED) <==>
        Lower(decoded.receiver) == Lower(receiver)
        && Value(expected) == Value(ToDec(Decimal(decoded.amount, 0), decimals))
  {
    var paid := ToDec(Decimal(decoded.amount, 0), decimals);
    assert ShownBy(data, token, TokenLookups(Ok(decoded), Ok(decimals)))
        == Ok(Shown(Lower(decoded.receiver), Render(paid)));
    RenderSame(paid, expected);
  }

  /**
   * The intended check verifies a token transfer exactly when the decoded receiver
   * matches up to ASCII case and the expected amount is the decoded amount read by
   * toDec; for a token with at most 20 decimals that is the amount / 10^decimals.
   */
  lemma VerifyDataIntendedToken(data: Option<TxData>, receiver: string, expected: Decimal, token: TokenArg,
                                decoded: Decoded, decimals: nat)
    requires !IsNativeToken(token)
    ensures var r := VerifyDataIntended(data, receiver, Render(expected), token, TokenLookups(Ok(decoded), Ok(decimals)));
      r == Ok(VERIFIED) <==>
        Lower(decoded.receiver) == Lower(receiver)
        && Value(expected) == Value(ToDec(Decimal(decoded.amount, 0), decimals))
    ensures decimals <= DECIMAL_PLACES ==>
      (VerifyDataIntended(data, receiver, Render(expected), token, TokenLookups(Ok(decoded), Ok(decimals))) == Ok(VERIFIED)
       <==> Lower(decoded.receiver) == Lower(receiver)
            && Value(expected) == decoded.amount as real / Pow10(decimals) as real)
  {
    VerifyDataIntendedTokenPaid(data, receiver, expected, token, decoded, decimals);
    if decimals <= DECIMAL_PLACES {
      ToDecWhole(decoded.amount, decimals);
    }
  }

  // ---------------------------------------------------------------------------
  // verifyWithData
  // ---------------------------------------------------------------------------

  /**
   * verifyWithData as written: once verify resolves, the verdict of verifyData is
   * overwritten by the assignment in the condition, so it resolves 'verified' unless
   * verifyData throws; a rejection of verify becomes 'failed'.
   */
  function WithDataAsWritten(watched: Settlement<string>, check: Result<string>): (r: Settlement<string>)
    ensures watched.Resolved? && check.Ok? ==> r == Resolved(VERIFIED)
    ensures watched.Rejected? || (watched.Resolved? && check.Err?) ==> r == Rejected(Text(FAILED))
    ensures watched.Unsettled? <==> r.Unsettled?
  {
    match watched
    case Unsettled => Unsettled
    case Rejected(_) => Rejected(Text(FAILED))
    case Resolved(_) =>
      match check
      case Err(_) => Rejected(Text(FAILED))
      case Ok(_) => Resolved(VERIFIED)
  }

  /** verifyWithData as intended: resolve only when verifyData says 'verified'. */
  function WithDataIntended(watched: Settlement<string>, check: Result<string>): (r: Settlement<string>)
    ensures r == Resolved(VERIFIED) <==> watched.Resolved? && check == Ok(VERIFIED)
    ensures watched.Unsettled? <==> r.Unsettled?
    ensures !r.Unsettled? ==> r == Resolved(VERIFIED) || r == Rejected(Text(FAILED))
  {
    match watched
    case Unsettled => Unsettled
    case Rejected(_) => Rejected(Text(FAILED))
    case Resolved(_) => if check == Ok(VERIFIED) then Resolved(VERIFIED) else Rejected(Text(FAILED))
  }

  /**
   * The assignment at the heart of verifyWithData: a confirmed transaction that paid
   * the wrong receiver or amount still resolves 'verified'; the intended reading rejects it.
   */
  lemma WithDataIgnoresVerdict(watched: Settlement<string>)
    requires watched.Resolved?
    ensures WithDataAsWritten(watched, Ok(FAILED)) == Resolved(VERIFIED)
    ensures WithDataIntended(watched, Ok(FAILED)) == Rejected(Text(FAILED))
  {
  }

  // ---------------------------------------------------------------------------
  // getTransactionUrl
  // ---------------------------------------------------------------------------

  function EndsWithSlash(s: string): bool
  {
    |s| > 0 && s[|s| - 1] == '/'
  }

  const TRANSACTION_PATH: string := "#/transaction/"

  /**
   * getTransactionUrl: the explorer URL, a '/' unless it already ends with one, the
   * transaction path and the id. A session without a network throws a TypeError.
   */
  function TransactionUrl(network: Option<Network>, id: string): (r: Result<string>)
    ensures r.Err? <==> network.None?
    ensures r.Err? ==> r.error == TypeError
    ensures r.Ok? ==>
      var e := network.value.explorer;
      var base := if EndsWithSlash(e) then e else e + "/";
      r.value == base + TRANSACTION_PATH + id
      && r.value[..|e|] == e
      && EndsWithSlash(base)
      && r.value[|r.value| - |id|..] == id
  {
    match network
    case None => Err(TypeError)
    case Some(n) =>
      var url := n.explorer;
      var url := url + (if EndsWithSlash(url) then "" else "/");
      var url := url + TRANSACTION_PATH + id;
      Ok(url)
  }

  // ---------------------------------------------------------------------------
  // The Transaction object
  // ---------------------------------------------------------------------------

  class Transaction {
    /** The transaction id (getId reads it). */
    const id: string
    /** The network of the session that created it (this.web3.network). */
    const network: Option<Network>
    /** The last data fetched (getData reads it); undefined before the first fetch. */
    var data: Option<TxData>

    constructor(id: string, network: Option<Network>)
      ensures this.id == id && this.network == network && data == None
    {
      this.id := id;
      this.network := network;
      data := None;
    }

    method GetDataFromExplorer(f: Fetch) returns (r: Result<TxData>)
      modifies this
      ensures data == Refresh(old(data), f).data
      ensures r == Refresh(old(data), f).result
    {
      match f.transaction {
        case Err(_) =>
          r := Err(ErrorObject(LOOKUP_FAILED));
          return;
        case Ok(raw) =>
          data := Some(TxData(raw, None));
      }
      match f.info {
        case Err(_) =>
          r := Err(ErrorObject(LOOKUP_FAILED));
        case Ok(info) =>
          data := Some(data.value.(info := Some(info)));
          r := Ok(data.value);
      }
    }

    /** One tick of verify's interval. */
    method Step(f: Fetch) returns (status: Status)
      modifies this
      ensures data == Poll(old(data), f).data
      ensures status == Poll(old(data), f).status
    {
      var fetched := GetDataFromExplorer(f);
      match fetched {
        case Err(e) => status := Errored(e);
        case Ok(d) => status := Classify(d);
      }
    }

    /**
     * verify: poll once per tick until a poll decides; the interval is cleared on the
     * first decision, so the remaining ticks fetch nothing.
     */
    method Verify(fetches: seq<Fetch>) returns (s: Settlement<string>, polls: nat)
      modifies this
      ensures var w := Watch(old(data), fetches);
        data == w.data && polls == w.polls && s == Settle(w.status)
    {
      var status := Pending;
      polls := 0;
      while polls < |fetches| && status == Pending
        invariant polls <= |fetches|
        invariant status == Pending ==>
          var rest := Watch(data, fetches[polls..]);
          Watch(old(data), fetches) == Watched(rest.data, rest.status, rest.polls + polls)
        invariant status != Pending ==>
          Watch(old(data), fetches) == Watched(data, status, polls)
        decreases |fetches| - polls
      {
        assert fetches[polls..][1..] == fetches[polls + 1..];
        status := Step(fetches[polls]);
        polls := polls + 1;
      }
      s := Settle(status);
    }

    /**
     * verifyWithData as written: run verify, then verifyData on the data it left; the
     * verdict is then ignored (see WithDataAsWritten).
     */
    method VerifyWithData(fetches: seq<Fetch>, receiver: string, amount: string, token: TokenArg,
                          lookups: TokenLookups) returns (s: Settlement<string>)
      modifies this
      ensures var w := Watch(old(data), fetches);
        data == w.data
        && s == WithDataAsWritten(Settle(w.status), VerifyData(w.data, receiver, amount, token, lookups))
    {
      var watched, _ := Verify(fetches);
      var check := VerifyData(data, receiver, amount, token, lookups);
      s := WithDataAsWritten(watched, check);
    }

    /**
     * verifyWithData as its documentation promises: resolve 'verified' only when the
     * transaction is confirmed and the intended payload check agrees.
     */
    method VerifyWithDataCorrected(fetches: seq<Fetch>, receiver: string, amount: string, token: TokenArg,
                                   lookups: TokenLookups) returns (s: Settlement<string>)
      modifies this
      ensures var w := Watch(old(data), fetches);
        data == w.data
        && s == WithDataIntended(Settle(w.status), VerifyDataIntended(w.data, receiver, amount, token, lookups))
    {
      var watched, _ := Verify(fetches);
      var check := VerifyDataIntended(data, receiver, amount, token, lookups);
      s := WithDataIntended(watched, check);
    }
  }
}
