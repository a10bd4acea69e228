/** The events the contract emits: token counts observed around a forwarded
    call, and the record of newly installed payment parameters. */
module Events {
  import opened Types
  import opened Decimal

  const TOKEN_COUNT_BEFORE: string := "token-count-before"
  const TOKEN_COUNT_AFTER: string := "token-count-after"

  const BENEFICIARY_KEY: string := "update-payment-params-beneficiary"
  const MINT_PRICE_KEY: string := "update-payment-params-mint-price"
  const MINT_PRICE_DENOM_KEY: string := "update-payment-params-mint-price-denom"
  const MINT_PRICE_AMOUNT_KEY: string := "update-payment-params-mint-price-amount"
  const NO_PRICE: string := "none"

  /** An event carrying one count under `key`, written in decimal. */
  function CountEvent(key: string, count: nat): (ev: Event)
    ensures ev.ty == EVENT_TYPE && |ev.attributes| == 1 && ev.attributes[0].key == key
    ensures Canonical(ev.attributes[0].value)
    ensures ParseDecimal(ev.attributes[0].value) == count
  {
    DecimalRoundTrip(count);
    Event(EVENT_TYPE, [Attribute(key, NatToDecimal(count))])
  }

  /** `append_payment_params_attributes`: the beneficiary, then either the
      "none" price marker or the price's denomination followed by its amount. */
  function AppendPaymentParamsAttributes(ev: Event, params: PaymentParams): (r: Event)
    ensures r.ty == ev.ty
    ensures |r.attributes| == |ev.attributes| + (if params.mintPrice.None? then 2 else 3)
    ensures r.attributes[..|ev.attributes|] == ev.attributes
    ensures r.attributes[|ev.attributes|] == Attribute(BENEFICIARY_KEY, params.beneficiary)
    ensures params.mintPrice.None? ==> r.attributes[|ev.attributes| + 1] == Attribute(MINT_PRICE_KEY, NO_PRICE)
    ensures params.mintPrice.Some? ==>
              r.attributes[|ev.attributes| + 1] == Attribute(MINT_PRICE_DENOM_KEY, params.mintPrice.value.denom)
              && r.attributes[|ev.attributes| + 2].key == MINT_PRICE_AMOUNT_KEY
              && Canonical(r.attributes[|ev.attributes| + 2].value)
              && ParseDecimal(r.attributes[|ev.attributes| + 2].value) == params.mintPrice.value.amount
  {
    var withBeneficiary := ev.attributes + [Attribute(BENEFICIARY_KEY, params.beneficiary)];
    match params.mintPrice
    case None => Event(ev.ty, withBeneficiary + [Attribute(MINT_PRICE_KEY, NO_PRICE)])
    case Some(price) =>
      DecimalRoundTrip(price.amount);
      Event(ev.ty, withBeneficiary + [Attribute(MINT_PRICE_DENOM_KEY, price.denom),
                                      Attribute(MINT_PRICE_AMOUNT_KEY, NatToDecimal(price.amount))])
  }

  /** The event emitted when parameters are installed. */
  function PaymentParamsEvent(params: PaymentParams): Event
  {
    AppendPaymentParamsAttributes(Event(EVENT_TYPE, []), params)
  }

  /** Reads payment parameters back from the attributes of an installation event. */
  function ParamsFromAttributes(attrs: seq<Attribute>): Option<PaymentParams>
  {
    if |attrs| == 2 && attrs[0].key == BENEFICIARY_KEY && attrs[1] == Attribute(MINT_PRICE_KEY, NO_PRICE) then
      Some(PaymentParams(attrs[0].value, None))
    else if |attrs| == 3 && attrs[0].key == BENEFICIARY_KEY && attrs[1].key == MINT_PRICE_DENOM_KEY
            && attrs[2].key == MINT_PRICE_AMOUNT_KEY
            && Canonical(attrs[2].value)
            && ParseDecimal(attrs[2].value) < UINT128_LIMIT then
      Some(PaymentParams(attrs[0].value, Some(Coin(attrs[1].value, ParseDecimal(attrs[2].value)))))
    else
      None
  }

  /** The installation event records the parameters completely: they can be
      read back from it exactly, with or without a price. */
  lemma PaymentParamsEventRoundTrip(params: PaymentParams)
    ensures ParamsFromAttributes(PaymentParamsEvent(params).attributes) == Some(params)
  {
    match params.mintPrice {
      case None =>
      case Some(price) =>
        DecimalRoundTrip(price.amount);
        var attrs := PaymentParamsEvent(params).attributes;
        assert attrs[2] == Attribute(MINT_PRICE_AMOUNT_KEY, NatToDecimal(price.amount));
        assert attrs[1].key != MINT_PRICE_KEY;
    }
  }

  /** Installing beneficiary "beneficiary" with a price of 1 silver emits the
      beneficiary, the denomination "silver" and the amount "1", in that order. */
  lemma PaymentParamsEventExample()
    ensures PaymentParamsEvent(PaymentParams("beneficiary", Some(Coin("silver", 1))))
            == Event(EVENT_TYPE, [Attribute(BENEFICIARY_KEY, "beneficiary"),
                                  Attribute(MINT_PRICE_DENOM_KEY, "silver"),
                                  Attribute(MINT_PRICE_AMOUNT_KEY, "1")])
  {
  }
}
