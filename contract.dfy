/** The contract's one piece of state, the stored payment parameters, and the
    entry points that read or replace it. */
module Contract {
  import opened Types
  import opened Fees
  import opened Events
  import opened PassThrough

  class Manager {
    /** The `payment_params` storage item; `None` until instantiation. */
    var paymentParams: Option<PaymentParams>

    /** Only validated parameters are ever stored. */
    ghost predicate Valid()
      reads this
    {
      paymentParams.Some? ==> Validate(paymentParams.value) == None
    }

    /** A freshly deployed contract, before `instantiate` has run. */
    constructor ()
      ensures paymentParams == None && Valid()
    {
      paymentParams := None;
    }

    /** `PAYMENT_PARAMS.load`: the stored parameters, or `NotFound` before instantiation. */
    function LoadPaymentParams(): (r: Outcome<PaymentParams>)
      reads this
      ensures r.Ok? <==> paymentParams.Some?
      ensures r.Ok? ==> r.value == paymentParams.value
      ensures !r.Ok? ==> r == Err(Std(NotFound(PAYMENT_PARAMS_KIND)))
    {
      match paymentParams
      case Some(params) => Ok(params)
      case None => Err(Std(NotFound(PAYMENT_PARAMS_KIND)))
    }

    /** `instantiate`: validate, then save the parameters and report them in an event. */
    method Instantiate(params: PaymentParams) returns (r: Outcome<Response>)
      modifies this
      ensures Validate(params) == None ==>
                paymentParams == Some(params) && r == Ok(Response([], [PaymentParamsEvent(params)]))
      ensures Validate(params) != None ==>
                paymentParams == old(paymentParams) && r == Err(ZeroPrice)
      ensures old(Valid()) ==> Valid()
      ensures r.Ok? ==> LoadPaymentParams() == Ok(params)
    {
      var invalid := Validate(params);
      if invalid.Some? {
        return Err(invalid.value);
      }
      paymentParams := Some(params);
      var event := AppendPaymentParamsAttributes(Event(EVENT_TYPE, []), params);
      r := Ok(Response([], [event]));
    }

    /** `sudo_update_payment_params`: validate, then replace the stored
      parameters wholesale and report them in an event. */
    method SudoUpdatePaymentParams(params: PaymentParams) returns (r: Outcome<Response>)
      modifies this
      ensures Validate(params) == None ==>
                paymentParams == Some(params) && r == Ok(Response([], [PaymentParamsEvent(params)]))
      ensures Validate(params) != None ==>
                paymentParams == old(paymentParams) && r == Err(ZeroPrice)
      ensures old(Valid()) ==> Valid()
      ensures r.Ok? ==> LoadPaymentParams() == Ok(params)
    {
      var invalid := Validate(params);
      if invalid.Some? {
        return Err(invalid.value);
      }
      paymentParams := Some(params);
      var event := AppendPaymentParamsAttributes(Event(EVENT_TYPE, []), params);
      r := Ok(Response([], [event]));
    }

    /** `execute_pass_through`: settle the funds (reconcile a mint, refund
        anything else), then forward the message and record the token count. */
    method ExecutePassThrough(info: MessageInfo, collection: string, message: CollectionExecuteMsg,
                              query: QueryResponse) returns (r: Outcome<Response>)
      ensures r == PassThroughOutcome(paymentParams, info, collection, message, query)
      ensures Valid() ==> r != Err(ZeroPrice)
    {
      if Valid() {
        PassThroughValidParams(paymentParams, info, collection, message, query);
      }
      var response := EMPTY_RESPONSE;
      if message.Mint? {
        var funds := HandlePreMintFunds(paymentParams, info);
        match funds {
          case Err(e) => return Err(e);
          case Panicked(p) => return Panicked(p);
          case Ok(bankMsgs) => response := AddBankMessages(response, bankMsgs);
        }
      } else if info.funds != [] {
        response := AddMessage(response, Bank(Send(info.sender, info.funds)));
        assert response == AddBankMessages(EMPTY_RESPONSE, [Send(info.sender, info.funds)]);
      }
      var onward := ForwardCall(collection, message);
      match query {
        case QueryFailed(e) => return Err(Std(e));
        case NumTokens(count) =>
          var countEvent := CountEvent(TOKEN_COUNT_BEFORE, count);
          r := Ok(Response(response.messages + [onward], response.events + [countEvent]));
      }
    }
  }
}
