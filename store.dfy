/**
 * The wallet state store: one mutable record of connection status, balances, exchange
 * rates, transaction history and the last error, changed only by its named actions.
 *
 * The abstract value of the store is a `WalletState`; every action is a step function on
 * it, and the class `WalletStore` holds the same fields and implements each action in
 * place, proved to agree with its step. Everything an action learns from outside (provider
 * answers, contract queries, receipts, thrown values, whether a storage write succeeded,
 * the clock) is a parameter; browser `localStorage` is the field `storage`.
 */
module Store {
  import opened Wrappers
  import opened Types
  import JsText
  import Blockchain

  // ---------------------------------------------------------------------------------
  // Records

  /** The display currencies. */
  datatype Currency = USD | EUR | GBP | BBC | ETH | BTC

  function CurrencyCode(c: Currency): string
  {
    match c
    case USD => "USD"
    case EUR => "EUR"
    case GBP => "GBP"
    case BBC => "BBC"
    case ETH => "ETH"
    case BTC => "BTC"
  }

  /** The currency a stored code names, when it is one of the six accepted codes. */
  function ParseCurrency(s: string): (c: Option<Currency>)
    ensures c.Some? <==> s in ["USD", "EUR", "GBP", "BBC", "ETH", "BTC"]
    ensures c.Some? ==> CurrencyCode(c.value) == s
  {
    if s == "USD" then Some(USD)
    else if s == "EUR" then Some(EUR)
    else if s == "GBP" then Some(GBP)
    else if s == "BBC" then Some(BBC)
    else if s == "ETH" then Some(ETH)
    else if s == "BTC" then Some(BTC)
    else None
  }

  datatype TxType = Send | Receive | Approval

  /** A history entry; `amount` is the decimal string the user entered. */
  datatype Transaction = Transaction(
    hash: string,
    from: string,
    to: string,
    amount: string,
    timestamp: int,
    status: Blockchain.Status,
    txType: TxType,
    tokenSymbol: string,
    gasUsed: Option<string>)

  /** The history keeps at most this many entries. */
  const MaxHistory: nat := 50

  const TxHistoryKey := "bbc-tx-history"
  const CurrencyKey := "bbc-selected-currency"

  /**
   * A `localStorage` value: a plain string, or the JSON text of a transaction list, kept
   * as the list it encodes (`JSON.parse` of `JSON.stringify` gives these records back).
   */
  datatype Stored = Text(text: string) | TxHistory(history: seq<Transaction>)

  datatype TokenInfo = TokenInfo(name: string, symbol: string, decimals: nat, totalSupply: nat)

  /** The fields of a mined transfer receipt the store reads. */
  datatype SendReceipt = SendReceipt(hash: string, status: Option<int>, gasUsed: Option<nat>)

  /** What the three loads of `loadInitialData` return: both balances, the per-symbol prices, the token metadata. */
  datatype InitialLoad = InitialLoad(
    balances: Result<(nat, nat), JsValue>,
    prices: Result<map<string, real>, JsValue>,
    tokenInfo: Result<TokenInfo, JsValue>)

  datatype WalletState = WalletState(
    address: Option<string>,
    isConnected: bool,
    isConnecting: bool,
    ethBalance: nat,
    bbcBalance: nat,
    bbcAddress: string,
    oracleAddress: string,
    selectedCurrency: Currency,
    exchangeRates: map<string, real>,
    supportedCurrencies: seq<string>,
    transactions: seq<Transaction>,
    pendingTransactions: set<string>,
    tokenName: string,
    tokenSymbol: string,
    tokenDecimals: nat,
    totalSupply: nat,
    estimatedGas: nat,
    gasPrice: nat,
    error: Option<string>,
    storage: map<string, Stored>)

  const InitialRates: map<string, real> :=
    map["BBC" := 1.0, "ETH" := 3000.0, "BTC" := 50000.0, "USD" := 1.0, "EUR" := 0.92, "GBP" := 0.79]

  const SupportedCurrencies: seq<string> := ["BBC", "ETH", "BTC", "USD", "EUR", "GBP"]

  /** The store as created, over whatever the browser has persisted. */
  function InitialState(storage: map<string, Stored>): WalletState
  {
    WalletState(None, false, false, 0, 0, "", "", USD, InitialRates, SupportedCurrencies,
                [], {}, "BigBlackCoin", "BBC", 18, 0, 0, 0, None, storage)
  }

  /** `!address`: absent or empty. */
  predicate HasAddress(address: Option<string>) { address.Some? && address.value != "" }

  // ---------------------------------------------------------------------------------
  // The history list

  /** `[tx, ...txs].slice(0, 50)`: the newest entry first, the oldest dropped beyond the cap. */
  function Prepend(tx: Transaction, txs: seq<Transaction>): (r: seq<Transaction>)
    ensures |r| == Min(|txs| + 1, MaxHistory) && |r| <= MaxHistory
    ensures r[0] == tx && r[1..] == txs[..|r| - 1]
  {
    ([tx] + txs)[..Min(|txs| + 1, MaxHistory)]
  }

  /** On a full list the new entry pushes out exactly the oldest one. */
  lemma PrependFull(tx: Transaction, txs: seq<Transaction>)
    requires |txs| == MaxHistory
    ensures Prepend(tx, txs) == [tx] + txs[..MaxHistory - 1]
    ensures |Prepend(tx, txs)| == MaxHistory
    ensures txs[..MaxHistory - 1] + [txs[MaxHistory - 1]] == txs
  {
  }

  /** `txs.map(tx => tx.hash === hash ? { ...tx, status } : tx)` */
  function WithStatus(txs: seq<Transaction>, hash: string, status: Blockchain.Status): (r: seq<Transaction>)
    ensures |r| == |txs|
    ensures forall i :: 0 <= i < |txs| ==>
              r[i] == (if txs[i].hash == hash then txs[i].(status := status) else txs[i])
  {
    if txs == [] then []
    else [if txs[0].hash == hash then txs[0].(status := status) else txs[0]]
         + WithStatus(txs[1..], hash, status)
  }

  // ---------------------------------------------------------------------------------
  // Exchange rates

  /** `currentRates[c] || 1.0`: a missing or zero rate falls back to 1. */
  function RateFallback(current: map<string, real>, c: string): real
  {
    if c in current && current[c] != 0.0 then current[c] else 1.0
  }

  /** The new rate for `c`: the queried price if that query succeeded, else the fallback. */
  function RateFor(c: string, current: map<string, real>, prices: map<string, real>): real
  {
    if c in prices then prices[c] else RateFallback(current, c)
  }

  /** The table the rate loop builds over `cs`, one symbol after another. */
  function CollectRates(cs: seq<string>, current: map<string, real>, prices: map<string, real>)
    : (r: map<string, real>)
    ensures r.Keys == set c | c in cs
    ensures forall c :: c in cs ==> r[c] == RateFor(c, current, prices)
  {
    if cs == [] then map[]
    else CollectRates(cs[..|cs| - 1], current, prices)[cs[|cs| - 1] := RateFor(cs[|cs| - 1], current, prices)]
  }

  /**
   * The loop of `refreshExchangeRates`: one entry per symbol, the queried price when its
   * query succeeded, else the previous rate, or 1 when that is missing or 0.
   */
  method BuildRates(symbols: seq<string>, currentRates: map<string, real>, p: map<string, real>)
    returns (rates: map<string, real>)
    ensures rates == CollectRates(symbols, currentRates, p)
  {
    rates := map[];
    for i := 0 to |symbols|
      invariant rates == CollectRates(symbols[..i], currentRates, p)
    {
      var currency := symbols[i];
      if currency in p {
        rates := rates[currency := p[currency]];
      } else {
        rates := rates[currency := if currency in currentRates && currentRates[currency] != 0.0
                                   then currentRates[currency] else 1.0];
      }
      assert symbols[..i + 1][..i] == symbols[..i];
    }
    assert symbols[..|symbols|] == symbols;
  }

  // ---------------------------------------------------------------------------------
  // Actions as steps on the abstract state

  /** `disconnect`: forget the session; storage, currency, rates and error stay. */
  function DisconnectStep(s: WalletState): WalletState
  {
    s.(address := None, isConnected := false, ethBalance := 0, bbcBalance := 0, transactions := [])
  }

  /** `refreshBalances`; `balances` is the outcome of the provider and both balance queries. */
  function RefreshBalancesStep(s: WalletState, balances: Result<(nat, nat), JsValue>): WalletState
  {
    if !HasAddress(s.address) || s.bbcAddress == "" then s
    else match balances
      case Ok((eth, bbc)) => s.(ethBalance := eth, bbcBalance := bbc)
      case Err(_) => s
  }

  /**
   * `refreshExchangeRates`; `prices` is the provider outcome and, per symbol, the price
   * whose query succeeded (a symbol left out is one whose query threw).
   */
  function RefreshExchangeRatesStep(s: WalletState, prices: Result<map<string, real>, JsValue>): WalletState
  {
    if s.oracleAddress == "" then s
    else match prices
      case Ok(p) => s.(exchangeRates := CollectRates(s.supportedCurrencies, s.exchangeRates, p))
      case Err(_) => s
  }

  /** `loadTokenInfo`; `deployment` is what `getDeploymentInfo` returns. */
  function LoadTokenInfoStep(s: WalletState, info: Result<TokenInfo, JsValue>, deployment: DeploymentInfo)
    : WalletState
  {
    if s.bbcAddress == "" then s
    else match info
      case Ok(t) =>
        s.(tokenName := t.name, tokenSymbol := t.symbol, tokenDecimals := t.decimals,
           totalSupply := t.totalSupply,
           bbcAddress := deployment.bigBlackCoin, oracleAddress := deployment.mockOracle)
      case Err(_) => s
  }

  /** `estimateGas`; `estimate` is the outcome of the gas estimate and the fee-data query. */
  function EstimateGasStep(s: WalletState, estimate: Result<(nat, Option<nat>), JsValue>): WalletState
  {
    if s.bbcAddress == "" then s
    else match estimate
      case Ok((gas, fee)) => s.(estimatedGas := gas, gasPrice := Blockchain.GetGasPrice(fee))
      case Err(_) => s
  }

  /** `addTransaction`; `stored` says whether the `setItem` call succeeded (a failure is swallowed). */
  function AddTransactionStep(s: WalletState, tx: Transaction, stored: bool): WalletState
  {
    var updated := Prepend(tx, s.transactions);
    s.(transactions := updated,
       storage := if stored then s.storage[TxHistoryKey := TxHistory(updated)] else s.storage)
  }

  /** `updateTransactionStatus` */
  function UpdateTransactionStatusStep(s: WalletState, hash: string, status: Blockchain.Status, stored: bool)
    : WalletState
  {
    var updated := WithStatus(s.transactions, hash, status);
    s.(transactions := updated,
       pendingTransactions := s.pendingTransactions - {hash},
       storage := if stored then s.storage[TxHistoryKey := TxHistory(updated)] else s.storage)
  }

  /** `setSelectedCurrency`: memory first, then `setItem`, whose exception reaches the caller. */
  function SetSelectedCurrencyStep(s: WalletState, c: Currency, write: Outcome<JsValue>)
    : (WalletState, Outcome<JsValue>)
  {
    var s1 := s.(selectedCurrency := c);
    match write
    case Pass => (s1.(storage := s1.storage[CurrencyKey := Text(CurrencyCode(c))]), Pass)
    case Fail(e) => (s1, Fail(e))
  }

  function ClearErrorStep(s: WalletState): WalletState
  {
    s.(error := None)
  }

  /** The saved history replaces the in-memory list; unreadable or empty text is ignored. */
  function RestoreHistory(s: WalletState): WalletState
  {
    if TxHistoryKey in s.storage && s.storage[TxHistoryKey].TxHistory?
    then s.(transactions := s.storage[TxHistoryKey].history)
    else s
  }

  /** A saved currency is adopted only when it is one of the six codes. */
  function RestoreCurrency(s: WalletState): WalletState
  {
    if CurrencyKey in s.storage && s.storage[CurrencyKey].Text?
       && ParseCurrency(s.storage[CurrencyKey].text).Some?
    then s.(selectedCurrency := ParseCurrency(s.storage[CurrencyKey].text).value)
    else s
  }

  /** `loadInitialData`: restore the history, run the three loads, then restore the currency. */
  function LoadInitialDataStep(s: WalletState, load: InitialLoad, deployment: DeploymentInfo): WalletState
  {
    var s1 := RestoreHistory(s);
    var s2 := RefreshBalancesStep(s1, load.balances);
    var s3 := RefreshExchangeRatesStep(s2, load.prices);
    var s4 := LoadTokenInfoStep(s3, load.tokenInfo, deployment);
    RestoreCurrency(s4)
  }

  /** `connect`: clear the error, connect, take the contract addresses, load everything. */
  function ConnectStep(s: WalletState, env: Blockchain.WalletEnv, deployment: DeploymentInfo, load: InitialLoad)
    : WalletState
  {
    var s1 := s.(isConnecting := true, error := None);
    match Blockchain.ConnectWallet(env).outcome
    case Err(e) => s1.(error := Some(GetErrorMessage(e)), isConnecting := false)
    case Ok(address) =>
      var s2 := s1.(address := address, isConnected := true, isConnecting := false,
                    bbcAddress := deployment.bigBlackCoin, oracleAddress := deployment.mockOracle);
      LoadInitialDataStep(s2, load, deployment)
  }

  /** `get().address || ""` */
  function AddressOrEmpty(address: Option<string>): string
  {
    if address.Some? then address.value else ""
  }

  /** The history record `sendBBC` builds from a receipt: a "send" of BBC, successful iff status 1. */
  function SentRecord(s: WalletState, to: string, amount: string, now: int, receipt: SendReceipt): Transaction
  {
    Transaction(receipt.hash, AddressOrEmpty(s.address), to, amount, now,
                if receipt.status == Some(1) then Blockchain.Success else Blockchain.Failed,
                Send, "BBC",
                if receipt.gasUsed.Some? then Some(JsText.NatToString(receipt.gasUsed.value)) else None)
  }

  /**
   * `sendBBC`; `receipt` is the outcome of connecting and of the transfer up to its receipt,
   * `now` the clock, `stored` the history write, `balances` the refresh that follows.
   * Returns the new state and the hash, or the thrown value re-thrown.
   */
  function SendStep(s: WalletState, to: string, amount: string, now: int,
                    receipt: Result<SendReceipt, JsValue>, stored: bool,
                    balances: Result<(nat, nat), JsValue>)
    : (WalletState, Result<string, JsValue>)
  {
    var s1 := s.(error := None);
    match receipt
    case Err(e) => (s1.(error := Some(GetErrorMessage(e))), Err(e))
    case Ok(rc) =>
      var s2 := AddTransactionStep(s1, SentRecord(s1, to, amount, now, rc), stored);
      (RefreshBalancesStep(s2, balances), Ok(rc.hash))
  }

  // ---------------------------------------------------------------------------------
  // Properties of single actions

  lemma AddTransactionSpec(s: WalletState, tx: Transaction, stored: bool)
    ensures var r := AddTransactionStep(s, tx, stored);
      && |r.transactions| <= MaxHistory
      && r.transactions[0] == tx
      && r.transactions == [tx] + s.transactions[..|r.transactions| - 1]
      && (stored ==> r.storage == s.storage[TxHistoryKey := TxHistory(r.transactions)])
      && (!stored ==> r.storage == s.storage)
      && r.(transactions := s.transactions, storage := s.storage) == s
  {
    var r := AddTransactionStep(s, tx, stored);
    assert r.transactions == [r.transactions[0]] + r.transactions[1..];
  }

  lemma UpdateTransactionStatusSpec(s: WalletState, hash: string, status: Blockchain.Status, stored: bool)
    ensures var r := UpdateTransactionStatusStep(s, hash, status, stored);
      && |r.transactions| == |s.transactions|
      && (forall i :: 0 <= i < |s.transactions| && s.transactions[i].hash == hash ==>
            r.transactions[i] == s.transactions[i].(status := status))
      && (forall i :: 0 <= i < |s.transactions| && s.transactions[i].hash != hash ==>
            r.transactions[i] == s.transactions[i])
      && hash !in r.pendingTransactions
      && (forall h :: h in s.pendingTransactions && h != hash ==> h in r.pendingTransactions)
      && r.pendingTransactions <= s.pendingTransactions
      && (stored ==> r.storage == s.storage[TxHistoryKey := TxHistory(r.transactions)])
      && (!stored ==> r.storage == s.storage)
      && r.(transactions := s.transactions, pendingTransactions := s.pendingTransactions, storage := s.storage) == s
  {
  }

  /** Updating a status twice with the same status changes nothing more. */
  lemma {:induction false} WithStatusIdempotent(txs: seq<Transaction>, hash: string, status: Blockchain.Status)
    ensures WithStatus(WithStatus(txs, hash, status), hash, status) == WithStatus(txs, hash, status)
  {
    if txs != [] {
      WithStatusIdempotent(txs[1..], hash, status);
    }
  }

  lemma DisconnectSpec(s: WalletState)
    ensures var r := DisconnectStep(s);
      && r.address == None && !r.isConnected && r.ethBalance == 0 && r.bbcBalance == 0
      && r.transactions == []
      && r.storage == s.storage && r.selectedCurrency == s.selectedCurrency
      && r.exchangeRates == s.exchangeRates && r.error == s.error
      && r.isConnecting == s.isConnecting
      && r.(address := s.address, isConnected := s.isConnected, ethBalance := s.ethBalance,
            bbcBalance := s.bbcBalance, transactions := s.transactions) == s
  {
  }

  lemma RefreshBalancesSpec(s: WalletState, balances: Result<(nat, nat), JsValue>)
    ensures var r := RefreshBalancesStep(s, balances);
      && (!HasAddress(s.address) || s.bbcAddress == "" || balances.Err? ==> r == s)
      && (HasAddress(s.address) && s.bbcAddress != "" && balances.Ok? ==>
            r == s.(ethBalance := balances.value.0, bbcBalance := balances.value.1))
  {
  }

  /**
   * A rate refresh rebuilds the table over exactly the supported symbols: a successful
   * query gives its price, a failed one the previous rate, or 1 when that was missing or 0.
   */
  lemma RefreshExchangeRatesSpec(s: WalletState, prices: Result<map<string, real>, JsValue>)
    ensures var r := RefreshExchangeRatesStep(s, prices);
      && (s.oracleAddress == "" || prices.Err? ==> r == s)
      && (s.oracleAddress != "" && prices.Ok? ==>
            && r == s.(exchangeRates := r.exchangeRates)
            && r.exchangeRates.Keys == set c | c in s.supportedCurrencies
            && (forall c :: c in s.supportedCurrencies && c in prices.value ==>
                  r.exchangeRates[c] == prices.value[c])
            && (forall c :: c in s.supportedCurrencies && c !in prices.value ==>
                  r.exchangeRates[c] ==
                    if c in s.exchangeRates && s.exchangeRates[c] != 0.0 then s.exchangeRates[c] else 1.0))
  {
  }

  /**
   * A successful send records exactly one "send" of BBC from the current address (or "")
   * with the receipt's hash, successful iff the receipt status is 1 and never pending, and
   * returns that hash; the error field is cleared, the history is written when the write
   * succeeds, the balances are those of the refresh that follows, and nothing else changes.
   */
  lemma SendSuccessSpec(s: WalletState, to: string, amount: string, now: int, rc: SendReceipt,
                        stored: bool, balances: Result<(nat, nat), JsValue>)
    ensures var (r, out) := SendStep(s, to, amount, now, Ok(rc), stored, balances);
      var tx := r.transactions[0];
      && out == Ok(rc.hash)
      && r.error == None
      && r.transactions == Prepend(tx, s.transactions)
      && tx.hash == rc.hash && tx.from == AddressOrEmpty(s.address) && tx.to == to
      && tx.amount == amount && tx.timestamp == now
      && tx.txType == Send && tx.tokenSymbol == "BBC"
      && (tx.status == Blockchain.Success <==> rc.status == Some(1))
      && tx.status != Blockchain.Pending
      && (stored ==> r.storage == s.storage[TxHistoryKey := TxHistory(r.transactions)])
      && (!stored ==> r.storage == s.storage)
      && (HasAddress(s.address) && s.bbcAddress != "" && balances.Ok? ==>
            r.ethBalance == balances.value.0 && r.bbcBalance == balances.value.1)
      && (!(HasAddress(s.address) && s.bbcAddress != "" && balances.Ok?) ==>
            r.ethBalance == s.ethBalance && r.bbcBalance == s.bbcBalance)
      && r.(error := s.error, transactions := s.transactions, storage := s.storage,
            ethBalance := s.ethBalance, bbcBalance := s.bbcBalance) == s
  {
    var s1 := s.(error := None);
    var s2 := AddTransactionStep(s1, SentRecord(s1, to, amount, now, rc), stored);
    AddTransactionSpec(s1, SentRecord(s1, to, amount, now, rc), stored);
    RefreshBalancesSpec(s2, balances);
  }

  /** A send that fails before its receipt re-throws, records the message, and adds nothing. */
  lemma SendFailureSpec(s: WalletState, to: string, amount: string, now: int, e: JsValue,
                        stored: bool, balances: Result<(nat, nat), JsValue>)
    ensures var (r, out) := SendStep(s, to, amount, now, Err(e), stored, balances);
      && out == Err(e)
      && r == s.(error := Some(GetErrorMessage(e)))
  {
  }

  /** A failed connect records the message, ends connecting, and leaves the connection flag alone. */
  lemma ConnectFailureSpec(s: WalletState, env: Blockchain.WalletEnv, deployment: DeploymentInfo,
                           load: InitialLoad)
    requires Blockchain.ConnectWallet(env).outcome.Err?
    ensures var r := ConnectStep(s, env, deployment, load);
      r == s.(error := Some(GetErrorMessage(Blockchain.ConnectWallet(env).outcome.error)), isConnecting := false)
  {
  }

  /** A successful connect ends connected, not connecting, with the error cleared. */
  lemma ConnectSuccessSpec(s: WalletState, env: Blockchain.WalletEnv, deployment: DeploymentInfo,
                           load: InitialLoad)
    requires Blockchain.ConnectWallet(env).outcome.Ok?
    ensures var r := ConnectStep(s, env, deployment, load);
      && r.isConnected && !r.isConnecting && r.error == None
      && r.address == Blockchain.ConnectWallet(env).outcome.value
  {
    var s1 := s.(isConnecting := true, error := None);
    var s2 := s1.(address := Blockchain.ConnectWallet(env).outcome.value, isConnected := true, isConnecting := false,
                  bbcAddress := deployment.bigBlackCoin, oracleAddress := deployment.mockOracle);
    assert ConnectStep(s, env, deployment, load) == LoadInitialDataStep(s2, load, deployment);
    LoadInitialDataFrame(s2, load, deployment);
  }

  lemma CurrencySpec(s: WalletState, c: Currency, write: Outcome<JsValue>)
    ensures var (r, out) := SetSelectedCurrencyStep(s, c, write);
      && r.selectedCurrency == c && out == write
      && (write.Pass? ==> r.storage == s.storage[CurrencyKey := Text(CurrencyCode(c))])
      && (write.Fail? ==> r.storage == s.storage)
      && r.(selectedCurrency := s.selectedCurrency, storage := s.storage) == s
  {
  }

  /** Clearing the error touches nothing else. */
  lemma ClearErrorSpec(s: WalletState)
    ensures var r := ClearErrorStep(s); r.error == None && r.(error := s.error) == s
  {
  }

  /**
   * Token metadata is taken only with a token address and a successful query, and then the
   * contract addresses are re-read from the deployment record; nothing else changes.
   */
  lemma LoadTokenInfoSpec(s: WalletState, info: Result<TokenInfo, JsValue>, deployment: DeploymentInfo)
    ensures var r := LoadTokenInfoStep(s, info, deployment);
      && (s.bbcAddress == "" || info.Err? ==> r == s)
      && (s.bbcAddress != "" && info.Ok? ==>
            && r.tokenName == info.value.name && r.tokenSymbol == info.value.symbol
            && r.tokenDecimals == info.value.decimals && r.totalSupply == info.value.totalSupply
            && r.bbcAddress == deployment.bigBlackCoin && r.oracleAddress == deployment.mockOracle
            && r.(tokenName := s.tokenName, tokenSymbol := s.tokenSymbol, tokenDecimals := s.tokenDecimals,
                  totalSupply := s.totalSupply, bbcAddress := s.bbcAddress, oracleAddress := s.oracleAddress) == s)
  {
  }

  /** A gas estimate is taken only with a token address; a missing fee-data price is shown as 0. */
  lemma EstimateGasSpec(s: WalletState, estimate: Result<(nat, Option<nat>), JsValue>)
    ensures var r := EstimateGasStep(s, estimate);
      && (s.bbcAddress == "" || estimate.Err? ==> r == s)
      && (s.bbcAddress != "" && estimate.Ok? ==>
            && r.estimatedGas == estimate.value.0
            && (estimate.value.1.None? ==> r.gasPrice == 0)
            && (estimate.value.1.Some? ==> r.gasPrice == estimate.value.1.value)
            && r.(estimatedGas := s.estimatedGas, gasPrice := s.gasPrice) == s)
  {
  }

  /** A saved currency is taken back exactly when it is one of the six codes. */
  lemma RestoreCurrencySpec(s: WalletState)
    ensures var r := RestoreCurrency(s);
      && (CurrencyKey in s.storage && s.storage[CurrencyKey].Text?
          && s.storage[CurrencyKey].text in ["USD", "EUR", "GBP", "BBC", "ETH", "BTC"]
          ==> CurrencyCode(r.selectedCurrency) == s.storage[CurrencyKey].text)
      && (!(CurrencyKey in s.storage && s.storage[CurrencyKey].Text?
            && s.storage[CurrencyKey].text in ["USD", "EUR", "GBP", "BBC", "ETH", "BTC"])
          ==> r == s)
  {
  }

  /** The fields none of the loads inside `loadInitialData` write. */
  ghost predicate LoadFrame(s: WalletState, r: WalletState)
  {
    && r.address == s.address && r.isConnected == s.isConnected && r.isConnecting == s.isConnecting
    && r.supportedCurrencies == s.supportedCurrencies && r.pendingTransactions == s.pendingTransactions
    && r.transactions == s.transactions && r.storage == s.storage && r.error == s.error
  }

  lemma RefreshBalancesFrame(s: WalletState, balances: Result<(nat, nat), JsValue>)
    ensures var r := RefreshBalancesStep(s, balances);
      LoadFrame(s, r) && r.exchangeRates == s.exchangeRates && r.selectedCurrency == s.selectedCurrency
  {
  }

  lemma RefreshExchangeRatesFrame(s: WalletState, prices: Result<map<string, real>, JsValue>)
    ensures var r := RefreshExchangeRatesStep(s, prices);
      && LoadFrame(s, r) && r.selectedCurrency == s.selectedCurrency
      && (RatesCover(s) ==> RatesCover(r))
  {
  }

  lemma LoadTokenInfoFrame(s: WalletState, info: Result<TokenInfo, JsValue>, deployment: DeploymentInfo)
    ensures var r := LoadTokenInfoStep(s, info, deployment);
      LoadFrame(s, r) && r.exchangeRates == s.exchangeRates && r.selectedCurrency == s.selectedCurrency
  {
  }

  lemma RestoreCurrencyFrame(s: WalletState)
    ensures var r := RestoreCurrency(s);
      LoadFrame(s, r) && r.exchangeRates == s.exchangeRates && r.(selectedCurrency := s.selectedCurrency) == s
  {
  }

  /**
   * `loadInitialData` leaves the session, the pending set, the error and storage alone, keeps
   * the rate table over the supported symbols, ends with the saved history when there is one,
   * and ends with the saved currency when it is valid and with the current one otherwise.
   */
  lemma LoadInitialDataFrame(s: WalletState, load: InitialLoad, deployment: DeploymentInfo)
    ensures var r := LoadInitialDataStep(s, load, deployment);
      && LoadFrame(RestoreHistory(s), r)
      && (RatesCover(s) ==> RatesCover(r))
      && r.selectedCurrency ==
           if CurrencyKey in s.storage && s.storage[CurrencyKey].Text?
              && ParseCurrency(s.storage[CurrencyKey].text).Some?
           then ParseCurrency(s.storage[CurrencyKey].text).value else s.selectedCurrency
  {
    var s1 := RestoreHistory(s);
    var s2 := RefreshBalancesStep(s1, load.balances);
    var s3 := RefreshExchangeRatesStep(s2, load.prices);
    var s4 := LoadTokenInfoStep(s3, load.tokenInfo, deployment);
    RefreshBalancesFrame(s1, load.balances);
    RefreshExchangeRatesFrame(s2, load.prices);
    LoadTokenInfoFrame(s3, load.tokenInfo, deployment);
    RestoreCurrencyFrame(s4);
  }

  /** The currency choice survives a reload: what `setSelectedCurrency` stores, `loadInitialData` restores. */
  lemma CurrencyPersists(s: WalletState, c: Currency, other: Currency, load: InitialLoad, deployment: DeploymentInfo)
    ensures var r := SetSelectedCurrencyStep(s, c, Pass).0.(selectedCurrency := other);
      LoadInitialDataStep(r, load, deployment).selectedCurrency == c
  {
    var r := SetSelectedCurrencyStep(s, c, Pass).0.(selectedCurrency := other);
    LoadInitialDataFrame(r, load, deployment);
    assert r.storage[CurrencyKey] == Text(CurrencyCode(c));
    assert ParseCurrency(CurrencyCode(c)) == Some(c) by {
      match c
      case USD =>
      case EUR =>
      case GBP =>
      case BBC =>
      case ETH =>
      case BTC =>
    }
  }

  /** The history a store writes is the history a later `loadInitialData` brings back. */
  lemma HistoryPersists(s: WalletState, tx: Transaction, load: InitialLoad, deployment: DeploymentInfo)
    ensures var r := AddTransactionStep(s, tx, true);
      LoadInitialDataStep(DisconnectStep(r), load, deployment).transactions == r.transactions
  {
    var r := AddTransactionStep(s, tx, true);
    LoadInitialDataFrame(DisconnectStep(r), load, deployment);
  }

  // ---------------------------------------------------------------------------------
  // Invariants over every sequence of actions

  datatype Action =
    | ConnectAction(env: Blockchain.WalletEnv, deployment: DeploymentInfo, load: InitialLoad)
    | DisconnectAction
    | RefreshBalancesAction(balances: Result<(nat, nat), JsValue>)
    | RefreshExchangeRatesAction(prices: Result<map<string, real>, JsValue>)
    | SendAction(to: string, amount: string, now: int, receipt: Result<SendReceipt, JsValue>,
                 stored: bool, afterBalances: Result<(nat, nat), JsValue>)
    | SetSelectedCurrencyAction(currency: Currency, write: Outcome<JsValue>)
    | ClearErrorAction
    | LoadTokenInfoAction(info: Result<TokenInfo, JsValue>, tokenDeployment: DeploymentInfo)
    | EstimateGasAction(estimate: Result<(nat, Option<nat>), JsValue>)
    | AddTransactionAction(tx: Transaction, txStored: bool)
    | UpdateTransactionStatusAction(hash: string, status: Blockchain.Status, statusStored: bool)
    | LoadInitialDataAction(initial: InitialLoad, initialDeployment: DeploymentInfo)

  function Apply(s: WalletState, a: Action): WalletState
  {
    match a
    case ConnectAction(env, deployment, load) => ConnectStep(s, env, deployment, load)
    case DisconnectAction => DisconnectStep(s)
    case RefreshBalancesAction(b) => RefreshBalancesStep(s, b)
    case RefreshExchangeRatesAction(p) => RefreshExchangeRatesStep(s, p)
    case SendAction(to, amount, now, rc, stored, b) => SendStep(s, to, amount, now, rc, stored, b).0
    case SetSelectedCurrencyAction(c, w) => SetSelectedCurrencyStep(s, c, w).0
    case ClearErrorAction => ClearErrorStep(s)
    case LoadTokenInfoAction(info, d) => LoadTokenInfoStep(s, info, d)
    case EstimateGasAction(e) => EstimateGasStep(s, e)
    case AddTransactionAction(tx, stored) => AddTransactionStep(s, tx, stored)
    case UpdateTransactionStatusAction(h, st, stored) => UpdateTransactionStatusStep(s, h, st, stored)
    case LoadInitialDataAction(load, d) => LoadInitialDataStep(s, load, d)
  }

  function Run(s: WalletState, actions: seq<Action>): WalletState
    decreases |actions|
  {
    if actions == [] then s else Run(Apply(s, actions[0]), actions[1..])
  }

  /**
   * What every action keeps: no action leaves the store connecting; a disconnected store
   * has no address; the rate table covers exactly the supported symbols.
   */
  ghost predicate Consistent(s: WalletState)
  {
    && !s.isConnecting
    && (!s.isConnected ==> s.address == None)
    && RatesCover(s)
  }

  /** The rate table has an entry for exactly the supported symbols. */
  ghost predicate RatesCover(s: WalletState)
  {
    s.exchangeRates.Keys == set c | c in s.supportedCurrencies
  }

  /** The saved history, when there is one, respects the cap. */
  ghost predicate StoredHistoryBounded(storage: map<string, Stored>)
  {
    TxHistoryKey in storage && storage[TxHistoryKey].TxHistory? ==> |storage[TxHistoryKey].history| <= MaxHistory
  }

  /** The in-memory and the saved history both respect the cap. */
  ghost predicate HistoryBounded(s: WalletState)
  {
    |s.transactions| <= MaxHistory && StoredHistoryBounded(s.storage)
  }

  lemma InitialConsistent(storage: map<string, Stored>)
    ensures Consistent(InitialState(storage))
    ensures InitialState(storage).pendingTransactions == {}
  {
    assert InitialRates.Keys == set c | c in SupportedCurrencies by {
      forall c | c in SupportedCurrencies ensures c in InitialRates.Keys {}
      forall c | c in InitialRates.Keys ensures c in SupportedCurrencies {}
    }
  }

  lemma LoadInitialDataKeeps(s: WalletState, load: InitialLoad, deployment: DeploymentInfo)
    requires !s.isConnecting && RatesCover(s)
    requires HistoryBounded(s)
    ensures var r := LoadInitialDataStep(s, load, deployment);
      && !r.isConnecting && RatesCover(r)
      && r.address == s.address && r.isConnected == s.isConnected
      && r.pendingTransactions == s.pendingTransactions
      && HistoryBounded(r)
  {
    LoadInitialDataFrame(s, load, deployment);
  }

  lemma ConnectKeeps(s: WalletState, env: Blockchain.WalletEnv, deployment: DeploymentInfo, load: InitialLoad)
    requires Consistent(s) && HistoryBounded(s)
    ensures var r := ConnectStep(s, env, deployment, load);
      Consistent(r) && HistoryBounded(r) && r.pendingTransactions == s.pendingTransactions
  {
    var s1 := s.(isConnecting := true, error := None);
    match Blockchain.ConnectWallet(env).outcome {
      case Err(e) =>
      case Ok(address) =>
        var s2 := s1.(address := address, isConnected := true, isConnecting := false,
                      bbcAddress := deployment.bigBlackCoin, oracleAddress := deployment.mockOracle);
        LoadInitialDataKeeps(s2, load, deployment);
    }
  }

  lemma SendKeeps(s: WalletState, to: string, amount: string, now: int, receipt: Result<SendReceipt, JsValue>,
                  stored: bool, balances: Result<(nat, nat), JsValue>)
    requires Consistent(s) && HistoryBounded(s)
    ensures var r := SendStep(s, to, amount, now, receipt, stored, balances).0;
      Consistent(r) && HistoryBounded(r) && r.pendingTransactions == s.pendingTransactions
  {
    if receipt.Ok? {
      var s1 := s.(error := None);
      var s2 := AddTransactionStep(s1, SentRecord(s1, to, amount, now, receipt.value), stored);
      RefreshBalancesFrame(s2, balances);
    }
  }

  lemma AddTransactionKeeps(s: WalletState, tx: Transaction, stored: bool)
    requires Consistent(s) && HistoryBounded(s)
    ensures var r := AddTransactionStep(s, tx, stored);
      Consistent(r) && HistoryBounded(r) && r.pendingTransactions == s.pendingTransactions
  {
  }

  lemma UpdateTransactionStatusKeeps(s: WalletState, hash: string, status: Blockchain.Status, stored: bool)
    requires Consistent(s) && HistoryBounded(s)
    ensures var r := UpdateTransactionStatusStep(s, hash, status, stored);
      Consistent(r) && HistoryBounded(r) && r.pendingTransactions <= s.pendingTransactions
  {
  }

  lemma CurrencyKeeps(s: WalletState, c: Currency, write: Outcome<JsValue>)
    requires Consistent(s) && HistoryBounded(s)
    ensures var r := SetSelectedCurrencyStep(s, c, write).0;
      Consistent(r) && HistoryBounded(r) && r.pendingTransactions == s.pendingTransactions
  {
    assert CurrencyKey != TxHistoryKey;
  }

  /** What every action preserves: consistency, the history cap, and no new pending hash. */
  ghost predicate Keeps(s: WalletState, r: WalletState)
  {
    Consistent(r) && HistoryBounded(r) && r.pendingTransactions <= s.pendingTransactions
  }

  lemma SessionActionKeeps(s: WalletState, a: Action)
    requires Consistent(s) && HistoryBounded(s)
    requires a.ConnectAction? || a.LoadInitialDataAction? || a.DisconnectAction?
    ensures Keeps(s, Apply(s, a))
  {
    if a.ConnectAction? {
      ConnectKeeps(s, a.env, a.deployment, a.load);
    } else if a.LoadInitialDataAction? {
      LoadInitialDataKeeps(s, a.initial, a.initialDeployment);
    }
  }

  lemma QueryActionKeeps(s: WalletState, a: Action)
    requires Consistent(s) && HistoryBounded(s)
    requires a.RefreshBalancesAction? || a.RefreshExchangeRatesAction? || a.LoadTokenInfoAction?
             || a.EstimateGasAction?
    ensures Keeps(s, Apply(s, a))
  {
    if a.RefreshBalancesAction? {
      RefreshBalancesFrame(s, a.balances);
    } else if a.RefreshExchangeRatesAction? {
      RefreshExchangeRatesFrame(s, a.prices);
    } else if a.LoadTokenInfoAction? {
      LoadTokenInfoFrame(s, a.info, a.tokenDeployment);
    }
  }

  lemma HistoryActionKeeps(s: WalletState, a: Action)
    requires Consistent(s) && HistoryBounded(s)
    requires a.SendAction? || a.AddTransactionAction? || a.UpdateTransactionStatusAction?
    ensures Keeps(s, Apply(s, a))
  {
    if a.SendAction? {
      SendKeeps(s, a.to, a.amount, a.now, a.receipt, a.stored, a.afterBalances);
    } else if a.AddTransactionAction? {
      AddTransactionKeeps(s, a.tx, a.txStored);
    } else {
      UpdateTransactionStatusKeeps(s, a.hash, a.status, a.statusStored);
    }
  }

  lemma PreferenceActionKeeps(s: WalletState, a: Action)
    requires Consistent(s) && HistoryBounded(s)
    requires a.SetSelectedCurrencyAction? || a.ClearErrorAction?
    ensures Keeps(s, Apply(s, a))
  {
    if a.SetSelectedCurrencyAction? {
      CurrencyKeeps(s, a.currency, a.write);
    }
  }

  lemma ApplyKeeps(s: WalletState, a: Action)
    requires Consistent(s) && HistoryBounded(s)
    ensures Consistent(Apply(s, a)) && HistoryBounded(Apply(s, a))
    ensures Apply(s, a).pendingTransactions <= s.pendingTransactions
  {
    if a.ConnectAction? || a.LoadInitialDataAction? || a.DisconnectAction? {
      SessionActionKeeps(s, a);
    } else if a.RefreshBalancesAction? || a.RefreshExchangeRatesAction? || a.LoadTokenInfoAction?
              || a.EstimateGasAction? {
      QueryActionKeeps(s, a);
    } else if a.SendAction? || a.AddTransactionAction? || a.UpdateTransactionStatusAction? {
      HistoryActionKeeps(s, a);
    } else {
      PreferenceActionKeeps(s, a);
    }
  }

  /**
   * From the initial store, whatever actions follow: the store stays consistent, the
   * pending set stays empty (no action inserts into it), and the history stays capped.
   */
  lemma {:induction false} RunKeeps(s: WalletState, actions: seq<Action>)
    requires Consistent(s) && HistoryBounded(s)
    ensures Consistent(Run(s, actions)) && HistoryBounded(Run(s, actions))
    ensures Run(s, actions).pendingTransactions <= s.pendingTransactions
    decreases |actions|
  {
    if actions != [] {
      ApplyKeeps(s, actions[0]);
      RunKeeps(Apply(s, actions[0]), actions[1..]);
    }
  }

  lemma {:induction false} ReachableStates(storage: map<string, Stored>, actions: seq<Action>)
    requires StoredHistoryBounded(storage)
    ensures var s := Run(InitialState(storage), actions);
      Consistent(s) && HistoryBounded(s) && s.pendingTransactions == {}
  {
    InitialConsistent(storage);
    RunKeeps(InitialState(storage), actions);
  }

  // ---------------------------------------------------------------------------------
  // The store object

  /**
   * The process-wide store. Like the store it models it holds one state object, replaced on
   * every `set` by a copy with the given fields merged in; each method is one action, run
   * to completion, and performs the same `set` calls in the same order.
   */
  class WalletStore {
    var state: WalletState

    constructor (persisted: map<string, Stored>)
      ensures state == InitialState(persisted)
    {
      state := WalletState(None, false, false, 0, 0, "", "", USD, InitialRates, SupportedCurrencies,
                           [], {}, "BigBlackCoin", "BBC", 18, 0, 0, 0, None, persisted);
    }

    method Connect(env: Blockchain.WalletEnv, deployment: DeploymentInfo, load: InitialLoad)
      modifies this
      ensures state == ConnectStep(old(state), env, deployment, load)
    {
      state := state.(isConnecting := true, error := None);
      var connection := Blockchain.ConnectWallet(env);
      match connection.outcome {
        case Err(e) =>
          state := state.(error := Some(GetErrorMessage(e)), isConnecting := false);
        case Ok(account) =>
          state := state.(address := account, isConnected := true, isConnecting := false,
                          bbcAddress := deployment.bigBlackCoin, oracleAddress := deployment.mockOracle);
          LoadInitialData(load, deployment);
      }
    }

    method Disconnect()
      modifies this
      ensures state == DisconnectStep(old(state))
    {
      state := state.(address := None, isConnected := false, ethBalance := 0, bbcBalance := 0,
                      transactions := []);
    }

    method RefreshBalances(balances: Result<(nat, nat), JsValue>)
      modifies this
      ensures state == RefreshBalancesStep(old(state), balances)
    {
      if !HasAddress(state.address) || state.bbcAddress == "" {
        return;
      }
      match balances {
        case Ok((eth, bbc)) =>
          state := state.(ethBalance := eth, bbcBalance := bbc);
        case Err(_) =>
      }
    }

    method RefreshExchangeRates(prices: Result<map<string, real>, JsValue>)
      modifies this
      ensures state == RefreshExchangeRatesStep(old(state), prices)
    {
      if state.oracleAddress == "" {
        return;
      }
      match prices {
        case Err(_) =>
        case Ok(p) =>
          var rates := BuildRates(state.supportedCurrencies, state.exchangeRates, p);
          state := state.(exchangeRates := rates);
      }
    }

    method SendBBC(to: string, amount: string, now: int, receipt: Result<SendReceipt, JsValue>,
                   stored: bool, balances: Result<(nat, nat), JsValue>)
      returns (result: Result<string, JsValue>)
      modifies this
      ensures (state, result) == SendStep(old(state), to, amount, now, receipt, stored, balances)
    {
      state := state.(error := None);
      match receipt {
        case Err(e) =>
          state := state.(error := Some(GetErrorMessage(e)));
          return Err(e);
        case Ok(rc) =>
          var tx := Transaction(rc.hash, AddressOrEmpty(state.address), to, amount, now,
                                if rc.status == Some(1) then Blockchain.Success else Blockchain.Failed,
                                Send, "BBC",
                                if rc.gasUsed.Some? then Some(JsText.NatToString(rc.gasUsed.value)) else None);
          AddTransaction(tx, stored);
          RefreshBalances(balances);
          return Ok(rc.hash);
      }
    }

    method SetSelectedCurrency(currency: Currency, write: Outcome<JsValue>) returns (thrown: Outcome<JsValue>)
      modifies this
      ensures (state, thrown) == SetSelectedCurrencyStep(old(state), currency, write)
    {
      state := state.(selectedCurrency := currency);
      if write.Pass? {
        state := state.(storage := state.storage[CurrencyKey := Text(CurrencyCode(currency))]);
      }
      thrown := write;
    }

    method ClearError()
      modifies this
      ensures state == ClearErrorStep(old(state))
    {
      state := state.(error := None);
    }

    method LoadTokenInfo(info: Result<TokenInfo, JsValue>, deployment: DeploymentInfo)
      modifies this
      ensures state == LoadTokenInfoStep(old(state), info, deployment)
    {
      if state.bbcAddress == "" {
        return;
      }
      match info {
        case Ok(t) =>
          state := state.(tokenName := t.name, tokenSymbol := t.symbol, tokenDecimals := t.decimals,
                          totalSupply := t.totalSupply,
                          bbcAddress := deployment.bigBlackCoin, oracleAddress := deployment.mockOracle);
        case Err(_) =>
      }
    }

    method EstimateGas(estimate: Result<(nat, Option<nat>), JsValue>)
      modifies this
      ensures state == EstimateGasStep(old(state), estimate)
    {
      if state.bbcAddress == "" {
        return;
      }
      match estimate {
        case Ok((gas, fee)) =>
          state := state.(estimatedGas := gas, gasPrice := Blockchain.GetGasPrice(fee));
        case Err(_) =>
      }
    }

    method AddTransaction(tx: Transaction, stored: bool)
      modifies this
      ensures state == AddTransactionStep(old(state), tx, stored)
    {
      var updated := Prepend(tx, state.transactions);
      state := state.(transactions := updated);
      if stored {
        state := state.(storage := state.storage[TxHistoryKey := TxHistory(updated)]);
      }
    }

    method UpdateTransactionStatus(hash: string, status: Blockchain.Status, stored: bool)
      modifies this
      ensures state == UpdateTransactionStatusStep(old(state), hash, status, stored)
    {
      var updated := WithStatus(state.transactions, hash, status);
      state := state.(transactions := updated);
      if stored {
        state := state.(storage := state.storage[TxHistoryKey := TxHistory(updated)]);
      }
      state := state.(pendingTransactions := state.pendingTransactions - {hash});
    }

    method LoadInitialData(load: InitialLoad, deployment: DeploymentInfo)
      modifies this
      ensures state == LoadInitialDataStep(old(state), load, deployment)
    {
      if TxHistoryKey in state.storage && state.storage[TxHistoryKey].TxHistory? {
        state := state.(transactions := state.storage[TxHistoryKey].history);
      }
      RefreshBalances(load.balances);
      RefreshExchangeRates(load.prices);
      LoadTokenInfo(load.tokenInfo, deployment);
      var saved := state.storage;
      if CurrencyKey in saved && saved[CurrencyKey].Text? {
        var currency := ParseCurrency(saved[CurrencyKey].text);
        if currency.Some? {
          state := state.(selectedCurrency := currency.value);
        }
      }
    }
  }
}
