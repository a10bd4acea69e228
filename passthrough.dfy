/** The pass-through builder: intercepts the funds attached to a call meant
    for the collection, settles them, forwards the call with no funds and
    records the collection's token count before the call. */
module PassThrough {
  import opened Types
  import opened Decimal
  import opened Coins
  import opened Fees
  import opened Events
  import opened Reply

  /** What the host's querier answered to `NumTokens {}` on the collection. */
  datatype QueryResponse = NumTokens(count: U64) | QueryFailed(error: StdError)

  /** The forwarded call: the inner message to the collection with no funds,
      replied to on success only, under the pass-through reply id. */
  function ForwardCall(collection: string, message: CollectionExecuteMsg): SubMsg
  {
    SubMsg(PASS_THROUGH_REPLY_ID, Wasm(Execute(collection, message, [])), OnSuccess)
  }

  /** `Response::add_messages` of bank sends. */
  function AddBankMessages(resp: Response, sends: seq<BankMsg>): (r: Response)
    ensures r.events == resp.events
    ensures |r.messages| == |resp.messages| + |sends|
    ensures r.messages[..|resp.messages|] == resp.messages
    decreases |sends|
  {
    if sends == [] then resp else AddBankMessages(AddMessage(resp, Bank(sends[0])), sends[1..])
  }

  /** The bank sends an `execute_pass_through` makes before forwarding: the
      reconciler's for a mint, a wholesale refund for anything else. */
  function PreForwardSends(stored: Option<PaymentParams>, info: MessageInfo, message: CollectionExecuteMsg): Outcome<seq<BankMsg>>
  {
    if message.Mint? then Reconcile(stored, info) else Ok(ChangeSends(info.sender, info.funds))
  }

  /** What `execute_pass_through` returns, given the stored parameters and
      the querier's answer. */
  function PassThroughOutcome(stored: Option<PaymentParams>, info: MessageInfo, collection: string,
                              message: CollectionExecuteMsg, query: QueryResponse): (r: Outcome<Response>)
    ensures r.Ok? ==> |r.value.messages| >= 1 && r.value.messages[|r.value.messages| - 1] == ForwardCall(collection, message)
    ensures r.Ok? ==> query.NumTokens? && r.value.events == [CountEvent(TOKEN_COUNT_BEFORE, query.count)]
  {
    match PreForwardSends(stored, info, message)
    case Err(e) => Err(e)
    case Panicked(p) => Panicked(p)
    case Ok(sends) =>
      var response := AddBankMessages(EMPTY_RESPONSE, sends);
      match query
      case QueryFailed(e) => Err(Std(e))
      case NumTokens(count) =>
        Ok(Response(response.messages + [ForwardCall(collection, message)],
                    response.events + [CountEvent(TOKEN_COUNT_BEFORE, count)]))
  }

  /** Coins of `denom` that leave the contract with a message. */
  function CoinsOut(denom: string, msg: CosmosMsg): nat
  {
    match msg
    case Bank(Send(_, amount)) => AmountOf(denom, amount)
    case Wasm(Execute(_, _, funds)) => AmountOf(denom, funds)
  }

  /** Coins of `denom` that leave the contract with a list of messages. */
  function Outflow(denom: string, msgs: seq<SubMsg>): nat
  {
    if msgs == [] then 0 else CoinsOut(denom, msgs[0].msg) + Outflow(denom, msgs[1..])
  }

  lemma {:induction false} OutflowAppend(denom: string, a: seq<SubMsg>, b: seq<SubMsg>)
    ensures Outflow(denom, a + b) == Outflow(denom, a) + Outflow(denom, b)
    decreases |a|
  {
    if a == [] {
      assert a + b == b;
    } else {
      assert (a + b)[0] == a[0];
      assert (a + b)[1..] == a[1..] + b;
      OutflowAppend(denom, a[1..], b);
    }
  }

  /** Adding bank sends appends one plain message per send, in order, and
      moves out exactly what the sends carry. */
  lemma {:induction false} AddBankMessagesEffect(resp: Response, sends: seq<BankMsg>, denom: string)
    ensures forall i :: 0 <= i < |sends| ==>
              AddBankMessages(resp, sends).messages[|resp.messages| + i] == SubMsg(0, Bank(sends[i]), Never)
    ensures Outflow(denom, AddBankMessages(resp, sends).messages) == Outflow(denom, resp.messages) + SentAmount(denom, sends)
    decreases |sends|
  {
    if sends != [] {
      var next := AddMessage(resp, Bank(sends[0]));
      AddBankMessagesEffect(next, sends[1..], denom);
      OutflowAppend(denom, resp.messages, [SubMsg(0, Bank(sends[0]), Never)]);
      assert [SubMsg(0, Bank(sends[0]), Never)][1..] == [];
      forall i | 0 <= i < |sends|
        ensures AddBankMessages(resp, sends).messages[|resp.messages| + i] == SubMsg(0, Bank(sends[i]), Never)
      {
        if i > 0 {
          assert sends[1..][i - 1] == sends[i];
        }
      }
    }
  }

  /** A call other than a mint: whatever the configuration, all attached funds
      go back to the sender in one send (none when nothing was attached),
      followed by the forwarded call and the `token-count-before` event. */
  lemma PassThroughNotMint(stored: Option<PaymentParams>, info: MessageInfo, collection: string,
                           message: CollectionExecuteMsg, count: U64)
    requires !message.Mint?
    ensures PassThroughOutcome(stored, info, collection, message, NumTokens(count))
            == Ok(Response((if info.funds == [] then [] else [SubMsg(0, Bank(Send(info.sender, info.funds)), Never)])
                           + [ForwardCall(collection, message)],
                           [CountEvent(TOKEN_COUNT_BEFORE, count)]))
  {
    var sends := ChangeSends(info.sender, info.funds);
    AddBankMessagesEffect(EMPTY_RESPONSE, sends, "");
    var msgs := AddBankMessages(EMPTY_RESPONSE, sends).messages;
    assert msgs == if info.funds == [] then [] else [SubMsg(0, Bank(Send(info.sender, info.funds)), Never)];
  }

  /** A mint: the reconciler's sends, in order, then the forwarded call; when
      the reconciler fails the whole call fails with its error and nothing is
      sent or forwarded. */
  lemma PassThroughMint(stored: Option<PaymentParams>, info: MessageInfo, collection: string,
                        message: CollectionExecuteMsg, query: QueryResponse)
    requires message.Mint?
    ensures Reconcile(stored, info).Err? ==>
              PassThroughOutcome(stored, info, collection, message, query) == Err(Reconcile(stored, info).error)
    ensures Reconcile(stored, info).Panicked? ==>
              PassThroughOutcome(stored, info, collection, message, query) == Panicked(Reconcile(stored, info).reason)
    ensures Reconcile(stored, info).Ok? && query.QueryFailed? ==>
              PassThroughOutcome(stored, info, collection, message, query) == Err(Std(query.error))
    ensures Reconcile(stored, info).Ok? && query.NumTokens? ==>
              var sends := Reconcile(stored, info).value;
              var r := PassThroughOutcome(stored, info, collection, message, query);
              r.Ok? && |r.value.messages| == |sends| + 1
              && forall i :: 0 <= i < |sends| ==> r.value.messages[i] == SubMsg(0, Bank(sends[i]), Never)
  {
    if Reconcile(stored, info).Ok? {
      AddBankMessagesEffect(EMPTY_RESPONSE, Reconcile(stored, info).value, "");
    }
  }

  /** The proxy keeps nothing and forwards nothing: on success the messages
      carry out, denomination by denomination, exactly the attached funds,
      and the forwarded call carries none. */
  lemma PassThroughConservation(stored: Option<PaymentParams>, info: MessageInfo, collection: string,
                                message: CollectionExecuteMsg, query: QueryResponse, denom: string)
    requires PassThroughOutcome(stored, info, collection, message, query).Ok?
    ensures Outflow(denom, PassThroughOutcome(stored, info, collection, message, query).value.messages)
            == AmountOf(denom, info.funds)
  {
    var sends := PreForwardSends(stored, info, message).value;
    if message.Mint? {
      ReconcileConservation(stored, info, sends, denom);
    } else if info.funds != [] {
      assert sends[1..] == [];
    }
    AddBankMessagesEffect(EMPTY_RESPONSE, sends, denom);
    var fwd := ForwardCall(collection, message);
    OutflowAppend(denom, AddBankMessages(EMPTY_RESPONSE, sends).messages, [fwd]);
    assert [fwd][1..] == [];
  }

  /** With validated parameters in store, a pass-through never fails with `ZeroPrice`. */
  lemma PassThroughValidParams(stored: Option<PaymentParams>, info: MessageInfo, collection: string,
                               message: CollectionExecuteMsg, query: QueryResponse)
    requires stored.Some? ==> Validate(stored.value) == None
    ensures PassThroughOutcome(stored, info, collection, message, query) != Err(ZeroPrice)
  {
  }

  /** No price, a mint with 335 gold attached and a count of 3: the gold goes
      back to the sender, the mint is forwarded without funds, and the event
      says `token-count-before` = "3". */
  lemma PassThroughFreeMintExample(message: CollectionExecuteMsg)
    requires message.Mint?
    ensures PassThroughOutcome(Some(PaymentParams("deployer", None)),
                               MessageInfo("executer", [Coin("gold", 335)]), "collection", message, NumTokens(3))
            == Ok(Response([SubMsg(0, Bank(Send("executer", [Coin("gold", 335)])), Never),
                            SubMsg(1, Wasm(Execute("collection", message, [])), OnSuccess)],
                           [Event(EVENT_TYPE, [Attribute(TOKEN_COUNT_BEFORE, "3")])]))
  {
    assert NatToDecimal(3) == "3";
    var send := Send("executer", [Coin("gold", 335)]);
    assert [send][1..] == [];
    assert AddBankMessages(EMPTY_RESPONSE, [send]) == Response([SubMsg(0, Bank(send), Never)], []);
    assert CountEvent(TOKEN_COUNT_BEFORE, 3) == Event(EVENT_TYPE, [Attribute(TOKEN_COUNT_BEFORE, "3")]);
    assert [SubMsg(0, Bank(send), Never)] + [ForwardCall("collection", message)]
        == [SubMsg(0, Bank(send), Never), SubMsg(1, Wasm(Execute("collection", message, [])), OnSuccess)];
  }

  /** A price of 55 silver, a mint with gold 335 and silver 30 twice attached
      and a count of 3: 55 silver to the beneficiary, then gold 335 and silver 5
      back to the sender, then the mint forwarded without funds. */
  lemma PassThroughPaidMintExample(message: CollectionExecuteMsg)
    requires message.Mint?
    ensures PassThroughOutcome(Some(PaymentParams("beneficiary", Some(Coin("silver", 55)))),
                               MessageInfo("executer", [Coin("gold", 335), Coin("silver", 30), Coin("silver", 30)]),
                               "collection", message, NumTokens(3))
            == Ok(Response([SubMsg(0, Bank(Send("beneficiary", [Coin("silver", 55)])), Never),
                            SubMsg(0, Bank(Send("executer", [Coin("gold", 335), Coin("silver", 5)])), Never),
                            SubMsg(1, Wasm(Execute("collection", message, [])), OnSuccess)],
                           [Event(EVENT_TYPE, [Attribute(TOKEN_COUNT_BEFORE, "3")])]))
  {
    ReconcileSilverExample();
    assert NatToDecimal(3) == "3";
    var payment := Send("beneficiary", [Coin("silver", 55)]);
    var change := Send("executer", [Coin("gold", 335), Coin("silver", 5)]);
    assert [payment, change][1..] == [change];
    assert [change][1..] == [];
    var m1, m2 := SubMsg(0, Bank(payment), Never), SubMsg(0, Bank(change), Never);
    assert AddBankMessages(EMPTY_RESPONSE, [payment, change]) == Response([m1, m2], []);
    assert CountEvent(TOKEN_COUNT_BEFORE, 3) == Event(EVENT_TYPE, [Attribute(TOKEN_COUNT_BEFORE, "3")]);
    assert [m1, m2] + [ForwardCall("collection", message)]
        == [m1, m2, SubMsg(1, Wasm(Execute("collection", message, [])), OnSuccess)];
  }

  /** A price of 55 silver with only 40 silver attached: the call fails with
      the missing 55 silver, and nothing is sent or forwarded. */
  lemma PassThroughShortPaymentExample(message: CollectionExecuteMsg, query: QueryResponse)
    requires message.Mint?
    ensures PassThroughOutcome(Some(PaymentParams("beneficiary", Some(Coin("silver", 55)))),
                               MessageInfo("executer", [Coin("silver", 40)]), "collection", message, query)
            == Err(MissingPayment(Coin("silver", 55)))
  {
  }
}
