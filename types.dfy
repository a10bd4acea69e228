/** Values exchanged by the collection manager: coins, payment parameters,
    the host's message and response shapes, and the contract's errors. */
module Types {

  /** Exclusive upper bound of cosmwasm's Uint128. */
  const UINT128_LIMIT: nat := 0x1_0000_0000_0000_0000_0000_0000_0000_0000
  /** Exclusive upper bound of u64. */
  const U64_LIMIT: nat := 0x1_0000_0000_0000_0000

  type Uint128 = x: nat | x < UINT128_LIMIT
  type U64 = x: nat | x < U64_LIMIT
  type Byte = x: nat | x < 256

  datatype Option<+T> = None | Some(value: T)

  /** An amount of one denomination. */
  datatype Coin = Coin(denom: string, amount: Uint128)

  /** The stored configuration: who is paid, and the optional price of a mint. */
  datatype PaymentParams = PaymentParams(beneficiary: string, mintPrice: Option<Coin>)

  /** Who called and what coins were attached to the call. */
  datatype MessageInfo = MessageInfo(sender: string, funds: seq<Coin>)

  datatype StdError =
    | NotFound(kind: string)
    | GenericErr(msg: string)

  datatype ContractError =
    | Std(std: StdError)
    | ZeroPrice
    | MissingPayment(missingPayment: Coin)

  /** Why a handler aborted the whole transaction instead of returning an error. */
  datatype PanicReason =
    | AddOverflow
    | InvalidReplyCode(id: U64)
    | SliceStartOutOfRange(start: nat, len: nat)

  /** The result of a handler: a value, a contract error, or a panic. */
  datatype Outcome<+T> =
    | Ok(value: T)
    | Err(error: ContractError)
    | Panicked(reason: PanicReason)

  /** The message types the collection contract accepts; only `Mint` is priced. */
  datatype CollectionExecuteMsg =
    | Mint(tokenId: string, owner: string, tokenUri: Option<string>)
    | OtherExecute(name: string, payload: seq<Byte>)

  datatype BankMsg = Send(toAddress: string, amount: seq<Coin>)

  datatype WasmMsg = Execute(contractAddr: string, msg: CollectionExecuteMsg, funds: seq<Coin>)

  datatype CosmosMsg = Bank(bank: BankMsg) | Wasm(wasm: WasmMsg)

  datatype ReplyOn = Always | OnError | OnSuccess | Never

  datatype SubMsg = SubMsg(id: U64, msg: CosmosMsg, replyOn: ReplyOn)

  datatype Attribute = Attribute(key: string, value: string)

  datatype Event = Event(ty: string, attributes: seq<Attribute>)

  datatype Response = Response(messages: seq<SubMsg>, events: seq<Event>)

  /** `Response::default()`. */
  const EMPTY_RESPONSE: Response := Response([], [])

  /** Type of every event the contract emits. */
  const EVENT_TYPE: string := "my-collection-manager"

  /** Validation of a configuration: a present price must be strictly positive. */
  function Validate(params: PaymentParams): (r: Option<ContractError>)
    ensures r == None <==> (params.mintPrice.Some? ==> params.mintPrice.value.amount > 0)
    ensures r.Some? ==> r.value == ZeroPrice
  {
    match params.mintPrice
    case Some(price) => if price.amount == 0 then Some(ZeroPrice) else None
    case None => None
  }

  /** `Response::add_message`: a plain message, id 0, never replied to. */
  function AddMessage(resp: Response, msg: CosmosMsg): Response
  {
    Response(resp.messages + [SubMsg(0, msg, Never)], resp.events)
  }
}
