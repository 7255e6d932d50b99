/**
 * The decisions the blockchain layer takes around its provider and contract calls: how a
 * wallet is connected to the local chain, the gas buffer on a transfer, how a chain
 * transaction is classified for display, the gas-price default, and the deployment record
 * loaded once per session. The provider and contract calls themselves are inputs.
 */
module Blockchain {
  import opened Wrappers
  import opened Types
  import JsText

  /** The local development chain (hex 0x7a69). */
  const HardhatChainId := 31337

  /** The provider error code for "this chain has not been added to the wallet". */
  const ChainNotAddedCode := 4902

  const NoWalletMessage := "No wallet found. Please install MetaMask or use a Web3-enabled browser."

  // ---------------------------------------------------------------------------------
  // connectWallet

  /** What the injected provider answers, one entry per call `connectWallet` may make. */
  datatype WalletEnv = WalletEnv(
    hasProvider: bool,                       // is `window.ethereum` present?
    accounts: Result<seq<string>, JsValue>,  // eth_requestAccounts
    signer: Outcome<JsValue>,                // provider.getSigner()
    chainId: Result<int, JsValue>,           // provider.getNetwork()
    switchChain: Outcome<JsValue>,           // wallet_switchEthereumChain
    addChain: Outcome<JsValue>)              // wallet_addEthereumChain

  /** The calls made on the provider, in order. */
  datatype ProviderCall = RequestAccounts | GetSigner | GetNetwork | SwitchChain | AddChain

  /** The connected account (`accounts[0]`, absent for an empty list) or the thrown value, and the calls made. */
  datatype ConnectResult = ConnectResult(outcome: Result<Option<string>, JsValue>, calls: seq<ProviderCall>)

  function FirstAccount(accounts: seq<string>): Option<string>
  {
    if |accounts| > 0 then Some(accounts[0]) else None
  }

  /** The chain-switch step, run only off the local chain; a 4902 error is answered by adding the chain. */
  function SwitchToLocalChain(env: WalletEnv): (r: (Outcome<JsValue>, seq<ProviderCall>))
  {
    match env.switchChain
    case Pass => (Pass, [SwitchChain])
    case Fail(switchError) =>
      if Code(switchError) == Some(ChainNotAddedCode) then (env.addChain, [SwitchChain, AddChain])
      else (Fail(switchError), [SwitchChain])
  }

  /** `connectWallet` */
  function ConnectWallet(env: WalletEnv): (r: ConnectResult)
    ensures !env.hasProvider ==> r.calls == [] && r.outcome == Err(ErrorObject(NoWalletMessage, None))
    ensures env.hasProvider ==> |r.calls| >= 1 && r.calls[0] == RequestAccounts
    ensures SwitchChain in r.calls <==>
              env.hasProvider && env.accounts.Ok? && env.signer.Pass? && env.chainId.Ok?
              && env.chainId.value != HardhatChainId
    ensures AddChain in r.calls <==>
              SwitchChain in r.calls && env.switchChain.Fail?
              && Code(env.switchChain.error) == Some(ChainNotAddedCode)
    ensures SwitchChain in r.calls && env.switchChain.Fail? && !(AddChain in r.calls) ==>
              r.outcome == Err(env.switchChain.error)
    ensures r.outcome.Ok? <==>
              env.hasProvider && env.accounts.Ok? && env.signer.Pass? && env.chainId.Ok?
              && (env.chainId.value != HardhatChainId ==>
                   env.switchChain.Pass?
                   || (Code(env.switchChain.error) == Some(ChainNotAddedCode) && env.addChain.Pass?))
    ensures r.outcome.Ok? ==> r.outcome.value == FirstAccount(env.accounts.value)
  {
    if !env.hasProvider then ConnectResult(Err(ErrorObject(NoWalletMessage, None)), [])
    else match env.accounts
      case Err(e) => ConnectResult(Err(e), [RequestAccounts])
      case Ok(accounts) =>
        match env.signer
        case Fail(e) => ConnectResult(Err(e), [RequestAccounts, GetSigner])
        case Pass =>
          match env.chainId
          case Err(e) => ConnectResult(Err(e), [RequestAccounts, GetSigner, GetNetwork])
          case Ok(chainId) =>
            var before := [RequestAccounts, GetSigner, GetNetwork];
            if chainId == HardhatChainId then ConnectResult(Ok(FirstAccount(accounts)), before)
            else
              var (switched, calls) := SwitchToLocalChain(env);
              match switched
              case Pass => ConnectResult(Ok(FirstAccount(accounts)), before + calls)
              case Fail(e) => ConnectResult(Err(e), before + calls)
  }

  // ---------------------------------------------------------------------------------
  // sendBBC and getGasPrice

  /** The gas limit sent with `transfer`: the estimate plus a 20% buffer, `(estimate * 120) / 100`. */
  function GasLimit(estimate: nat): (limit: nat)
    ensures estimate <= limit
    ensures 5 * limit <= 6 * estimate < 5 * (limit + 1)
  {
    (estimate * 120) / 100
  }

  /** `getGasPrice`: the fee data's gas price, or 0 when it carries none. */
  function GetGasPrice(gasPrice: Option<nat>): (price: nat)
    ensures gasPrice.None? ==> price == 0
    ensures gasPrice.Some? ==> price == gasPrice.value
  {
    // `feeData.gasPrice || 0n`: a zero price is falsy and is replaced by the same zero
    if gasPrice.Some? && gasPrice.value != 0 then gasPrice.value else 0
  }

  // ---------------------------------------------------------------------------------
  // formatTransaction

  /** A transaction's status as shown to the user. */
  datatype Status = Pending | Success | Failed

  /** The kind of a displayed chain transaction; only "send" is ever produced. */
  datatype DisplayKind = SendKind | ReceiveKind | ContractKind

  /** A displayed amount: the literal "0", or `formatUnits(amount, 18)` of a base-unit amount. */
  datatype DisplayValue = LiteralZero | Units(amount: nat)

  /** The fields of a chain transaction that `formatTransaction` reads. */
  datatype ChainTransaction = ChainTransaction(hash: string, from: string, to: Option<string>, value: nat, data: string)

  /** A mined receipt: its status is 1 (success), 0 (reverted) or absent. */
  datatype ChainReceipt = ChainReceipt(status: Option<int>)

  /** A decoded contract call: the function name and its second argument (the amount of a transfer). */
  datatype DecodedCall = DecodedCall(name: string, amount: nat)

  datatype TransactionDisplay = TransactionDisplay(
    hash: string, from: string, to: Option<string>, value: DisplayValue,
    status: Status, kind: DisplayKind, tokenSymbol: string)

  /** The receipt status shown: 1 is success, 0 is failure, anything else (or no receipt) pending. */
  function ReceiptDisplayStatus(receipt: Option<ChainReceipt>): (s: Status)
    ensures s == Success <==> receipt.Some? && receipt.value.status == Some(1)
    ensures s == Failed <==> receipt.Some? && receipt.value.status == Some(0)
  {
    if receipt.Some? && receipt.value.status == Some(1) then Success
    else if receipt.Some? && receipt.value.status == Some(0) then Failed
    else Pending
  }

  /** `tx.to?.toLowerCase() === bbcAddress.toLowerCase()`: a missing recipient never matches. */
  predicate IsBbcTransfer(to: Option<string>, bbcAddress: string)
  {
    to.Some? && JsText.ToLower(to.value) == JsText.ToLower(bbcAddress)
  }

  /** Recognising the token contract ignores letter case on both sides. */
  lemma IsBbcTransferIgnoresCase(to: string, bbcAddress: string)
    ensures IsBbcTransfer(Some(to), bbcAddress) == IsBbcTransfer(Some(JsText.ToLower(to)), bbcAddress)
    ensures IsBbcTransfer(Some(to), bbcAddress) == IsBbcTransfer(Some(to), JsText.ToLower(bbcAddress))
  {
    JsText.ToLowerIdempotent(to);
    JsText.ToLowerIdempotent(bbcAddress);
  }

  /**
   * `formatTransaction`; `decoded` is what decoding `tx.data` against the token interface
   * gave, `None` when the decoder threw or found nothing.
   */
  method FormatTransaction(tx: ChainTransaction, receipt: Option<ChainReceipt>, bbcAddress: string,
                           decoded: Option<DecodedCall>)
    returns (d: TransactionDisplay)
    ensures d.hash == tx.hash && d.from == tx.from
    ensures d.to == (if tx.to == Some("") then None else tx.to)
    ensures d.status == ReceiptDisplayStatus(receipt)
    ensures d.kind == SendKind
    ensures d.tokenSymbol == (if IsBbcTransfer(tx.to, bbcAddress) then "BBC" else "ETH")
    ensures d.tokenSymbol == "BBC" <==>
              tx.to.Some? && JsText.ToLower(tx.to.value) == JsText.ToLower(bbcAddress)
    ensures var transfer := IsBbcTransfer(tx.to, bbcAddress) && tx.data != ""
                            && decoded.Some? && decoded.value.name == "transfer";
      d.value == (if transfer then Units(decoded.value.amount)
                  else if tx.value == 0 then LiteralZero else Units(tx.value))
  {
    var isBbcTransfer := IsBbcTransfer(tx.to, bbcAddress);
    var status := ReceiptDisplayStatus(receipt);
    var kind := SendKind;
    var value := if tx.value != 0 then Units(tx.value) else LiteralZero;
    if isBbcTransfer && tx.data != "" {
      if decoded.Some? && decoded.value.name == "transfer" {
        kind := SendKind;
        value := Units(decoded.value.amount);
      }
    }
    var to := if tx.to == Some("") then None else tx.to;
    d := TransactionDisplay(tx.hash, tx.from, to, value, status, kind,
                            if isBbcTransfer then "BBC" else "ETH");
  }

  // ---------------------------------------------------------------------------------
  // getDeploymentInfo

  /**
   * The module-level `deploymentInfo` memo: the first call loads the generated deployment
   * file, or the template when that file is missing; later calls return what was loaded.
   */
  class DeploymentCache {
    var cached: Option<DeploymentInfo>
    ghost var loads: nat

    ghost predicate Valid()
      reads this
    {
      loads == (if cached.Some? then 1 else 0)
    }

    constructor ()
      ensures Valid() && cached == None && loads == 0
    {
      cached := None;
      loads := 0;
    }

    /** `getDeploymentInfo`; `generated` is the generated file if present, `template` the shipped fallback. */
    method Get(generated: Option<DeploymentInfo>, template: DeploymentInfo) returns (info: DeploymentInfo)
      requires Valid()
      modifies this
      ensures Valid() && loads <= 1
      ensures old(cached).Some? ==> info == old(cached).value && cached == old(cached) && loads == old(loads)
      ensures old(cached).None? ==>
                info == (if generated.Some? then generated.value else template)
                && cached == Some(info) && loads == 1
    {
      if cached.Some? {
        return cached.value;
      }
      info := if generated.Some? then generated.value else template;
      cached := Some(info);
      loads := loads + 1;
    }
  }

  /** However often it is called, the deployment record is loaded once and then never changes. */
  method GetTwice(cache: DeploymentCache, generated: Option<DeploymentInfo>, template: DeploymentInfo,
                  laterGenerated: Option<DeploymentInfo>, laterTemplate: DeploymentInfo)
    returns (first: DeploymentInfo, second: DeploymentInfo)
    requires cache.Valid()
    modifies cache
    ensures cache.Valid() && cache.loads <= 1 && second == first
  {
    first := cache.Get(generated, template);
    second := cache.Get(laterGenerated, laterTemplate);
  }
}
