# tron-web3-js, modelled in Dafny

tron-web3-js is a browser library that drives the TronLink wallet. A `TronWeb3` session is opened on a
named TRON network (mainnet or the Nile testnet) and connects to the wallet, recording the
wallet's account. It can then send TRX or TRC-20 tokens, and it wraps every transaction id in a
`Transaction` that polls the node until the transaction is confirmed or has failed. A `Token` object
transfers and approves one TRC-20 token. Amounts pass through a small codec (`Utils.toHex`,
`Utils.toDec`) built on bignumber.js.

The model has six modules:

- `Decimals`: the numbers. An amount is an exact decimal (an integer mantissa and a scale).
  bignumber.js is modelled exactly: its base-10 constructor rounds to 20 places with ROUND_HALF_UP,
  `times` is exact, and `dividedBy` rounds to 20 places. `String(number)` is modelled as the plain
  decimal notation of the canonical representation (`Render`).
- `Utils` (utils.js): the factor text `'1' + '0'.repeat(d)`, `toHex`, `toDec` up to but not including
  its final `parseFloat`, and `isNumeric` over JavaScript's string-numeral grammar.
- `TronLink`: the boundary with the wallet.
  - The values that cross it: thrown values, results and promise settlements.
  - The `Call`s the library makes, in order.
  - The TRC-20 request, built as `triggerSmartContract`'s arguments.
  - The trigger / sign / broadcast sequence, with the catch block that turns
    "Confirmation declined by user" into `'request-rejected'`.
- `Transaction` (transaction.js):
  - a class with the mutable `data` field;
  - `GetDataFromExplorer`;
  - a one-poll `Step`, and `Verify`, a loop over the interval's ticks proved against the
    specification function `Watch`;
  - the payload check `verifyData`, `verifyWithData` and `getTransactionUrl`.
- `TronWeb3` (tron-web3.js):
  - the network presets;
  - `connect`, a guard chain that writes `connectedAccount` only on success;
  - the TRX / token dispatch of `transfer`;
  - `tokenTransfer`'s request construction.
- `Token` (token.js):
  - the constructor's address check;
  - `transfer`: the balance and sign checks in their order, then the same request `tokenTransfer` builds;
  - `approve`.

Every answer of the wallet or the node is an input: `getTransaction`, `getTransactionInfo`,
`decimals()`, `balanceOf`, `triggerSmartContract`, `sign`, `sendRawTransaction`, `sendTransaction`,
`request`, and the decoder's output. A sending operation is a function from these answers to a `Run`:
the calls it made and how its promise ended. A promise whose async executor throws is never settled,
because nothing catches the rejection of the executor's own promise. This is `Unsettled`.

## Model

| member | source | states |
|---|---|---|
| Decimals.RoundExact | utils.js:12 | reading an amount with base 10 keeps its value when it has at most 20 decimal places |
| Decimals.Round | utils.js:12 | reading with base 10 keeps an amount with at most 20 places as it is and rounds any other to exactly 20 places (value: RoundExact) |
| Decimals.NormalizeFits | utils.js:12 | an amount whose canonical form has at most 20 places is held exactly |
| Decimals.QuotientNearest | utils.js:24 | `dividedBy` rounds to the nearest multiple of 10^-20, at most half a unit away from the exact quotient, and never turns a non-negative quotient negative |
| Decimals.QuotientExact | utils.js:24 | when the exact quotient has at most 20 places, `dividedBy` returns it unrounded |
| Decimals.QuotientValue | utils.js:24 | dividing m by 10^e has the value m / 10^e when that value fits 20 places |
| Decimals.Quotient | utils.js:24 | the quotient is held with exactly dp places (nearness: QuotientNearest, exactness: QuotientExact) |
| Decimals.QuotientVanishes | utils.js:24 | a quotient below half a unit of the last place rounds to 0 |
| Decimals.RoundZero | utils.js:12 | reading a zero with base 10 gives a zero, whatever its scale |
| Decimals.DividedBy | utils.js:24 | the quotient is held with exactly 20 decimal places |
| Decimals.TimesValue | utils.js:12 | `times` multiplies the value exactly |
| Decimals.Times | utils.js:12 | keeps the scale; its value is the product (TimesValue) |
| Decimals.ValueWhole | utils.js:13 | two representations of one value: if one is the whole number n, so is the other |
| Decimals.Normalize | utils.js:25 | the canonical representation (no trailing fraction zero) has the same value and sign |
| Decimals.NormalUnique | utils.js:25 | two canonical representations of one value are identical |
| Decimals.NormalizeSameValue | utils.js:25 | two amounts have the same canonical form exactly when their values are equal |
| Decimals.ParseRenderedRender | utils.js:25 | the printed text of a number reads back as its canonical representation |
| Decimals.Render | transaction.js:126 | non-empty, and starts with "-" exactly for a negative value; it reads back as the canonical representation (ParseRenderedRender) |
| Decimals.RenderSame | transaction.js:126 | `String(a) == String(b)` holds exactly when a and b are equal numbers |
| Utils.FactorValue | utils.js:11 | the text `'1' + '0'.repeat(d)` denotes exactly 10^d |
| Utils.HexDigits | utils.js:13 | base-16 rendering: non-empty, lower-case hex digits only, no leading zero unless the number is 0 |
| Utils.ParseHexDigits | utils.js:13 | the hex digits of n read back as n |
| Utils.Base16 | utils.js:13 | "0x" and hex digits exactly when the value is an integer |
| Utils.ToHex | utils.js:10-14 | whenever the scaled amount is whole, the result starts with "0x" and has at least one digit |
| Utils.ToHexTimes | utils.js:11-13 | toHex is the base-16 text of the amount, rounded to 20 places, times 10^decimals |
| Utils.Base16Whole | utils.js:13 | the base-16 text of a whole amount n is "0x" and the hex digits of n |
| Utils.ScaledBase16 | utils.js:12-13 | a non-negative amount with at most `decimals` (and 20) places, scaled by 10^decimals, prints as "0x" and the hex digits of mantissa × 10^(decimals − scale) |
| Utils.ToHexByValue | utils.js:12-13 | toHex of an amount BigNumber holds exactly depends only on its value: it is "0x" and the hex digits of c.mantissa × 10^(decimals − c.scale) for any representation c of that value |
| Utils.HexTextValue | utils.js:13 | the digits after "0x" read back as the number they render |
| Utils.ToHexInteger | utils.js:12-13 | for a non-negative amount with at most `decimals` (and 20) places, toHex is "0x" and the hex digits of mantissa × 10^(decimals − scale) |
| Utils.ToHexWhole | utils.js:12-13 | the same amount's hex digits after "0x" parse back to amount × 10^decimals |
| Utils.ToHexZero | utils.js:12-13 | toHex(0, d) is "0x0" for every d and every scale of the zero |
| Utils.ToDecQuotient | utils.js:22-24 | toDec divides the mantissa by 10^(scale + decimals), rounded to 20 places |
| Utils.ToDecFits | utils.js:22-24 | toDec keeps the value mantissa / 10^(scale + decimals) whenever that value fits 20 places |
| Utils.ToDecExact | utils.js:22-24 | toDec(n, d) has the value n / 10^d whenever that value fits 20 places |
| Utils.ToDecWhole | utils.js:22-24 | for at most 20 decimals, toDec of v base units has the value v / 10^decimals |
| Utils.ToDec | utils.js:22-25 | a BigNumber held with 20 decimal places; its value is given by ToDecQuotient and ToDecExact |
| Utils.Factor | utils.js:11 | the text "1" followed by `decimals` zeros, which denotes 10^decimals (FactorValue) |
| Utils.ToDecZero | utils.js:24 | toDec(0, d) is 0 |
| Utils.ScaleRoundTrip | utils.js:10-26 | scaling up by 10^d and back down with toDec returns the amount |
| Utils.ToDecScaled | utils.js:22-25 | toDec of the whole number mantissa × 10^(decimals − scale) returns the amount |
| Utils.HexRoundTrip | utils.js:10-26 | for a non-negative amount whose value has at most `decimals` (and 20) places, however many trailing zeros it is written with, toHex produces "0x" text, and toDec of the integer it encodes returns the amount |
| Utils.BaseRoundTrip | utils.js:10-26 | for a token with at most 20 decimals, a whole number v of base units read by toDec and sent with toHex is encoded as "0x" and the hex digits of v |
| Utils.ToDecBeyondPlaces | utils.js:22-25 | with more than 20 decimals, toDec of one base unit is 0 |

| Utils.IsNumericCharacterised | utils.js:32-35 | isNumeric is true for every non-string; for a string, exactly when parseFloat reads nothing from it and it is neither blank nor a 0x/0o/0b literal; never for a decimal numeral |
| Utils.IsNumeric | utils.js:32-35 | true for a non-string; for a string, `isNaN(val) && isNaN(parseFloat(val))`; its meaning is IsNumericCharacterised |
| Utils.IsNumericIntended | utils.js:32-35 | true for a non-string; for a string, true when both Number and parseFloat read it; its meaning is IsNumericIntendedCharacterised |
| Utils.IsNumericInverted | utils.js:34 | "42" is not numeric and "abc" is |
| Utils.NumeralNotNumeric | utils.js:34 | parseFloat reads "42", so isNumeric("42") is false |
| Utils.WordNumeric | utils.js:34 | neither Number nor parseFloat reads "abc", so isNumeric("abc") is true |
| Utils.IsNumericIntendedCharacterised | utils.js:32-35 | the corrected predicate accepts a string exactly when its trimmed text is a decimal or 0x/0o/0b numeral |
| TronLink.MapError | token.js:143-149 | the declined text becomes 'request-rejected'; any other thrown value passes unchanged |
| TronLink.MapErrorSettles | token.js:144-145 | the mapping is idempotent and never lets the declined text through |
| TronLink.IsNativeToken | tron-web3.js:57 | the token argument is absent, empty or 'TRX' (the native path; RouteOf, ShownBy) |
| TronLink.Trc20Request | token.js:115-136 | the contract call: the token's address, the selector, fee limit 100000000, parameters [address counterpart, uint256 toHex(amount, decimals)], issued by the connected account |
| TronLink.Trc20AmountEncoding | token.js:122 | the uint256 argument is "0x" and hex digits that parse back to amount × 10^decimals |
| TronLink.Submit | token.js:130-149 | trigger, sign and broadcast run in that order and stop at the first failure: a failed trigger makes only that call, a failed sign broadcasts nothing, and each rejects with the mapped error of its step; it resolves exactly when all three succeed, with the txid, and always settles |
| TronLink.SubmitRejection | token.js:143-149 | a rejection carries the mapped error of the first step that failed, never the declined text |
| Transaction.Refresh | transaction.js:27-41 | data is replaced by the fetched transaction; its info is set when the second lookup succeeds; a failure of either lookup throws a new Error('There was a problem retrieving transaction data!') in place of the lookup's own error, the first leaving data untouched and the second leaving the new data without info |
| Transaction.Classify | transaction.js:81-91 | Pending exactly when info has no block number; in a block, failed exactly when ret[0] is REVERT or result is FAILED, verified otherwise; a missing info or ret[0] throws a TypeError |
| Transaction.RevertBeforeResult | transaction.js:84-87 | a REVERT fails the transaction whatever info.result says |
| Transaction.Poll | transaction.js:77-105 | one tick: the data after it is the refreshed data; a lookup failure is the tick's error; otherwise the status classifies the fetched record |
| Transaction.Watch | transaction.js:74-108 | ticks continue exactly while Pending: a decision takes at least one poll and a Pending outcome used every tick |
| Transaction.Settle | transaction.js:93-105 | verified resolves 'verified', failed rejects 'failed', an error rejects with that error, Pending leaves the promise open |
| Transaction.WatchStops | transaction.js:93-100 | after the deciding poll, further ticks change neither data, outcome nor number of polls |
| Transaction.WatchErrorStops | transaction.js:102-105 | an error ends verify at that poll, rejecting with that error |
| Transaction.WatchUnconfirmed | transaction.js:81-93 | while every fetch shows the transaction outside a block, verify keeps polling and settles nothing |
| Transaction.WatchDecidedAt | transaction.js:76-106 | verify settles on the first deciding poll: every earlier poll was Pending and the outcome is that poll's |
| Transaction.Lower | transaction.js:122 | toLowerCase keeps the length and lowers each character |
| Transaction.LowerProperties | transaction.js:122 | a lowered string has no upper-case letter, lowering changes nothing without one, and is idempotent |
| Transaction.FromSunExact | transaction.js:123 | fromSun divides the sun amount by 10^6 exactly |
| Transaction.FromSun | transaction.js:123 | a BigNumber held with 20 places, whose value is sun / 10^6 (FromSunExact) |
| Transaction.ShownBy | transaction.js:118-138 | the native path (token falsy or 'TRX') reads the first contract's receiver and fromSun amount; the token path reads the decoded receiver and toDec(amount, decimals); the receiver is lower-cased; either path can throw |
| Transaction.VerifyData | transaction.js:116-146 | 'verified' exactly when the shown receiver equals the expected receiver as given (so only a receiver without upper case can match) and the amount texts are equal; otherwise 'failed'; lookup errors propagate |
| Transaction.UpperCaseReceiverNeverVerifies | transaction.js:126 | an expected receiver containing an upper-case letter is never verified |
| Transaction.CanonicalReceiverRejected | transaction.js:120-128 | a payment of 1.5 TRX to "TXyz", checked against "TXyz" and "1.5", is 'failed' |
| Transaction.VerifyDataIntended | transaction.js:116-146 | the corrected check errors exactly when a lookup does, with that error; it gives 'verified' exactly when the shown (lower-cased) receiver equals the lower-cased expected receiver and the amount texts are equal, and 'failed' otherwise |
| Transaction.VerifyDataIntendedNative | transaction.js:118-128 | the corrected native check verifies exactly when the receivers agree up to ASCII case and the expected amount equals sun / 10^6 |
| Transaction.VerifyDataIntendedTokenPaid | transaction.js:129-143 | on the token path the corrected check verifies exactly when the receivers match up to ASCII case and the expected amount has the value of toDec of the decoded amount |
| Transaction.VerifyDataIntendedToken | transaction.js:129-143 | the corrected token check verifies exactly when the decoded receiver matches up to ASCII case and the expected amount equals toDec of the decoded amount; for at most 20 decimals, the decoded amount / 10^decimals |
| Transaction.WithDataAsWritten | transaction.js:154-169 | once verify resolves, the result is 'verified' whatever verifyData returned, unless it threw; a rejected verify gives 'failed' |
| Transaction.WithDataIntended | transaction.js:154-169 | resolves 'verified' exactly when verify resolved and verifyData returned 'verified'; otherwise 'failed' once verify settles |
| Transaction.WithDataIgnoresVerdict | transaction.js:159 | a confirmed transaction whose payload check says 'failed' still resolves 'verified', where the corrected reading rejects |
| Transaction.TransactionUrl | transaction.js:175-180 | the explorer, a '/' only when it does not already end with one, '#/transaction/' and the id; a session without a network throws |
| Transaction.Transaction.constructor | transaction.js:22-25 | stores the id and the session's network, with no data yet |
| Transaction.Transaction.GetDataFromExplorer | transaction.js:27-41 | data and result are those of Refresh on the old data |
| Transaction.Transaction.Step | transaction.js:77-105 | data and status are those of Poll on the old data |
| Transaction.Transaction.Verify | transaction.js:74-108 | the loop over the ticks leaves exactly the data, settlement and number of polls of Watch on the old data |
| Transaction.Transaction.VerifyWithData | transaction.js:154-169 | verify, then verifyData on the data it left, combined as written |
| Transaction.Transaction.VerifyWithDataCorrected | transaction.js:154-169 | verify, then the corrected payload check, combined as intended |
| TronWeb3.Preset | tron-web3.js:16-31 | mainnet and testnet map to their hosts and explorers; every other name gives no network |
| TronWeb3.PresetTransactionUrl | tron-web3.js:19-23 | both preset explorers end with '/', so a link is the explorer, '#/transaction/' and the id |
| TronWeb3.ConnectRun | tron-web3.js:33-54 | 'wallet-not-detected' exactly when there is no wallet; 'not-accepted-network' exactly when the wallet's host differs from the session's; accounts are requested only when the host matches; code 4001 rejects 'request-rejected'; a wallet on the session's host whose request answers without code 4001 resolves with its base58 address and writes it; it resolves only then |
| TronWeb3.ConnectWrongNetwork | tron-web3.js:40-42 | a wallet on another node is rejected 'not-accepted-network' before any request, and that rejection happens only for such a wallet |
| TronWeb3.ConnectWritesOnlyOnSuccess | tron-web3.js:50-52 | the account is written exactly when connect resolves, and it is the resolved value |
| TronWeb3.RouteOf | tron-web3.js:56-64 | the TRX path exactly for a falsy or 'TRX' token address, the token path with that address otherwise |
| TronWeb3.RouteNeverInvalid | tron-web3.js:59-63 | the 'invalid-token-address' branch is unreachable |
| TronWeb3.ToSun | tron-web3.js:69 | the sun amount is the TRX amount × 10^6 |
| TronWeb3.TrxTransferRun | tron-web3.js:66-80 | one sendTransaction of the sun amount; resolves with its txid exactly when it succeeds, else rejects with the mapped error |
| TronWeb3.TokenTransferRun | tron-web3.js:82-125 | reads decimals first, then submits transfer(address,uint256) with [to, toHex(amount, decimals)] and fee limit 100000000 from the connected account; errors mapped; always settles |
| TronWeb3.TransferRun | tron-web3.js:56-64 | dispatches to trxTransfer or tokenTransfer by the token address |
| TronWeb3.TransferSendsOnce | tron-web3.js:56-125 | the TRX path makes exactly one payment, and the token path never sends TRX |
| TronWeb3.Session.constructor | tron-web3.js:29-31 | the network is the named preset, with no account connected |
| TronWeb3.Session.Connect | tron-web3.js:33-54 | settles as ConnectRun; connectedAccount becomes the resolved account and is otherwise unchanged |
| TronWeb3.Session.MakeTransaction | tron-web3.js:135-137 | a new Transaction for the id on this session's network |
| TronWeb3.Session.Transfer | tron-web3.js:56-125 | resolves with a new Transaction for the broadcast txid exactly when the transfer resolves, and rejects with the same reason |
| Token.Precheck | token.js:107-113 | 'insufficient-balance' exactly when the amount exceeds the balance; 'transfer-amount-error' exactly when it is within the balance and negative; passes exactly when 0 ≤ amount ≤ balance |
| Token.TransferRun | token.js:103-151 | the balance lookup comes first; its error, or a failed check, ends the run there; otherwise the rest is exactly tokenTransfer's run for this token and account |
| Token.RejectedTransferSubmitsNothing | token.js:107-113 | a failed balance lookup or check triggers, signs and broadcasts nothing |
| Token.BalanceCheckFirst | token.js:107-109 | an amount above the balance is 'insufficient-balance' even when negative; a failed balance lookup is reported before any check |
| Token.TransferSuccess | token.js:115-142 | resolves exactly when all lookups and steps succeed and 0 ≤ amount ≤ balance; then the calls are balance, decimals, the transfer(address,uint256) trigger with [to, toHex(amount, decimals)] and fee limit 100000000, sign, broadcast, and the value is the txid |
| Token.TransferMapsDeclined | token.js:143-149 | no outcome carries the declined text; a declined balance lookup rejects 'request-rejected' |
| Token.ApproveRun | token.js:158-197 | reads decimals, then submits approve(address,uint256) with [spender, toHex(amount, decimals)]; errors mapped; always settles |
| Token.ApproveSkipsBalance | token.js:158-188 | approve makes no balance lookup, whatever its collaborators answer |
| Token.ApproveLikeTransfer | token.js:158-188 | approve never looks up the balance, and its request differs from transfer's only in the selector |
| Token.Token.constructor | token.js:33-35 | stores the address and the session |
| Token.Token.Create | token.js:30-37 | an empty address throws 'Invalid token address'; any other is stored with the session, and getAddress returns it |
| Token.Token.GetAddress | token.js:94-96 | the address the token was created with (Create) |
| Token.Token.Transfer | token.js:103-151 | runs TransferRun from the session's connected account |
| Token.Token.Approve | token.js:158-197 | runs ApproveRun from the session's connected account |

## Left out

- Floating point. `parseFloat`, `String(number)` and the comparisons `parseFloat(amount) > balance`
  and `< 0` are modelled on exact decimals. Amounts that a double cannot hold exactly, exponent
  notation in `String`, and NaN amounts are not modelled.
- `toDec` stops before its final `parseFloat`. `ToDec` returns the exact BigNumber quotient.
- Utils.BaseRoundTrip: stated for tokens with at most 20 decimals only. With more, toDec rounds to 20 places and
  loses base units (Utils.ToDecBeyondPlaces: one base unit reads as 0), so the round trip does not hold.
- Utils.ToHex: a scaled amount with a fractional part is kept as a value (`FractionalHex`). The
  base-16 fraction digits that bignumber.js prints for it are not modelled.
- Transaction.Lower: lower-cases ASCII letters only. Unicode case mapping is not modelled; TRON
  base58 addresses are ASCII.
- `setInterval`, `clearInterval` and the one-second period. The ticks are the sequence of fetch outcomes
  given to `Verify`. Polls that overlap because a fetch takes longer than the period are not modelled.
- TronLink and TronWeb calls are inputs, and the wallet's internals are not part of this model:
  `contract().at`, `decimals().call`, `balanceOf`, `triggerSmartContract`, `sign`, `sendRawTransaction`,
  `sendTransaction`, `getTransaction`, `getTransactionInfo`, `request`, `address.fromHex` and `fullNode.host`.
- `decodeInput` (transaction.js:60-68) calls an ABI decoder over HTTP. Its decoded receiver and
  amount are an input of `ShownBy`.
- `getBalance`, `getTokenInfo`, `getName`, `getSymbol`, `getDecimals`, `getTotalSupply` and
  `allowance` pass contract reads through. The balance and decimals they answer are inputs of
  `TransferRun` and `ApproveRun`.
- `getId` and `getData` read the `id` and `data` fields, and `getAddress` reads `address`.
- Transaction.Transaction.constructor: the source stores the whole session. The model stores the
  session's network, the only part a transaction reads (`getTransactionUrl`).
- Token.Token.Create: an address argument that is not a string (undefined, null) is not modelled.
  Of the strings, only "" is falsy.
- TronWeb3.Preset: a network name that is an inherited property of a JavaScript object (such as
  "toString") gives no network here.
- A broadcast answer without a `txid` field is not modelled. The broadcast result is the txid itself.
- `isTronLink`, the `wallets` table, the icon and the `window.TronWeb3` export are browser globals
  and UI data. Wallet presence is an input of `Connect`.

## Findings

| source | as written | input that shows it | evidently intended | confidence | as-written member | corrected member |
|---|---|---|---|---|---|---|
| transaction.js:159 | `if (result = 'verified')` assigns, so the test is always true | a confirmed transaction whose payload check returns 'failed' still resolves 'verified' (Transaction.WithDataIgnoresVerdict) | resolve 'verified' only when verifyData returns 'verified', else reject 'failed' | high, not executed | Transaction.WithDataAsWritten | Transaction.WithDataIntended |
| transaction.js:126 | only the decoded receiver is lower-cased before `data.receiver == receiver` (also line 140) | a payment of 1.5 TRX to "TXyz" checked against receiver "TXyz" and amount "1.5" gives 'failed' (Transaction.CanonicalReceiverRejected) | compare both receivers lower-cased, so a payment to the expected address verifies (Transaction.VerifyDataIntendedNative, Transaction.VerifyDataIntendedToken) | medium, not executed | Transaction.VerifyData | Transaction.VerifyDataIntended |
| utils.js:34 | `isNaN(val) && isNaN(parseFloat(val))` is true for strings that are not numbers | "42" gives false and "abc" gives true (Utils.IsNumericInverted) | true exactly for strings that are numerals (Utils.IsNumericIntendedCharacterised); as the negation of both tests it also accepts "Infinity" and "-Infinity", which Number and parseFloat read as numbers | high, not executed | Utils.IsNumeric | Utils.IsNumericIntended |
