/** Data shared by every module: transaction intents, plans and policy configuration. */
module Types {

  datatype Option<+T> = None | Some(value: T) {
    function GetOr(default: T): T {
      match this
      case Some(v) => v
      case None => default
    }
  }

  datatype Result<+T, +E> = Ok(value: T) | Err(error: E)

  datatype Provider = UniswapV3 | OneInch

  /** Addresses and amounts keep their textual form, as in the JSON intent. */
  datatype Action =
    | Transfer(asset: string, to: string, amount: string)
    | TransferNative(to: string, amount: string)
    | Approve(asset: string, spender: string, amount: string)
    | SwapExactIn(router: string, provider: Provider, assetIn: string, assetOut: string,
                  amountIn: string, minAmountOut: string)
    | SwapExactOut(router: string, provider: Provider, assetIn: string, assetOut: string,
                   amountOut: string, maxAmountIn: string)

  datatype Intent = Intent(id: string, chainId: nat, wallet: string, action: Action, maxSlippageBps: nat)

  /** The part of a transaction request that builders fix; the type is always eip1559
      and both fee fields are zero until signing. */
  datatype TxRequest = TxRequest(to: string, data: string, value: int, chainId: nat)

  datatype BuildPlan = BuildPlan(intentId: string, tx: TxRequest, txRequestHash: string)

  datatype PolicyConfig = PolicyConfig(
    maxValueWei: string,
    maxApprovalAmount: string,
    contractAllowlist: seq<string>,
    tokenAllowlist: seq<string>,
    allowedChains: seq<nat>,
    recipientAllowlist: seq<string>,
    maxRiskScore: int,
    requireApprovalAbove: string,
    maxTxPerHour: nat)

  function TokenAddresses(a: Action): seq<string> {
    match a
    case Transfer(asset, _, _) => [asset]
    case Approve(asset, _, _) => [asset]
    case SwapExactIn(_, _, assetIn, assetOut, _, _) => [assetIn, assetOut]
    case SwapExactOut(_, _, assetIn, assetOut, _, _) => [assetIn, assetOut]
    case TransferNative(_, _) => []
  }

  function ContractAddress(a: Action): Option<string> {
    match a
    case Approve(_, spender, _) => Some(spender)
    case SwapExactIn(router, _, _, _, _, _) => Some(router)
    case SwapExactOut(router, _, _, _, _, _) => Some(router)
    case _ => None
  }

  function Recipient(a: Action): Option<string> {
    match a
    case Transfer(_, to, _) => Some(to)
    case TransferNative(to, _) => Some(to)
    case _ => None
  }

  /** The amount text the policy caps look at. */
  function ValueText(a: Action): string {
    match a
    case Transfer(_, _, amount) => amount
    case TransferNative(_, amount) => amount
    case Approve(_, _, amount) => amount
    case SwapExactIn(_, _, _, _, amountIn, _) => amountIn
    case SwapExactOut(_, _, _, _, _, maxAmountIn) => maxAmountIn
  }
}
