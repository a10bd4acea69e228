/** The fee reconciler run before a forwarded mint: it checks the attached
    funds against the configured price and turns them into at most two bank
    sends, the payment to the beneficiary and the change to the sender. */
module Fees {
  import opened Types
  import opened Coins

  /** Kind reported by the storage layer when no payment parameters were saved. */
  const PAYMENT_PARAMS_KIND: string := "my_collection_manager::msg::PaymentParams"

  /** The change send: `coins` back to `sender`, or no send when there is nothing to return. */
  function ChangeSends(sender: string, coins: seq<Coin>): seq<BankMsg>
  {
    if coins == [] then [] else [Send(sender, coins)]
  }

  /** The coins returned once the price is taken: every coin of another
      denomination, then the surplus in the price denomination if there is one. */
  function Change(price: Coin, funds: seq<Coin>): seq<Coin>
    requires price.amount <= AmountOf(price.denom, funds) < UINT128_LIMIT
  {
    var surplus := AmountOf(price.denom, funds) - price.amount;
    OtherCoins(price.denom, funds) + (if surplus > 0 then [Coin(price.denom, surplus)] else [])
  }

  /** What `handle_pre_mint_funds` computes from the stored parameters
      (absent before instantiation) and the call's sender and funds. */
  function Reconcile(stored: Option<PaymentParams>, info: MessageInfo): (r: Outcome<seq<BankMsg>>)
    ensures r.Ok? ==> |r.value| <= 2
    ensures r.Ok? ==> forall i :: 0 <= i < |r.value| ==> r.value[i].amount != []
    ensures r.Panicked? ==> r.reason == AddOverflow
  {
    match stored
    case None => Err(Std(NotFound(PAYMENT_PARAMS_KIND)))
    case Some(params) =>
      match params.mintPrice
      case None => Ok(ChangeSends(info.sender, info.funds))
      case Some(price) =>
        var total := AmountOf(price.denom, info.funds);
        if price.amount == 0 then Err(ZeroPrice)
        else if total >= UINT128_LIMIT then Panicked(AddOverflow)
        else if total < price.amount then Err(MissingPayment(price))
        else Ok([Send(params.beneficiary, [price])] + ChangeSends(info.sender, Change(price, info.funds)))
  }

  /** `handle_pre_mint_funds`: loads the parameters, splits the funds, and
      pushes the payment send and then the change send onto `bankMsgs`. */
  method HandlePreMintFunds(stored: Option<PaymentParams>, info: MessageInfo) returns (r: Outcome<seq<BankMsg>>)
    ensures r == Reconcile(stored, info)
  {
    if stored.None? {
      return Err(Std(NotFound(PAYMENT_PARAMS_KIND)));
    }
    var params := stored.value;
    var payment: Option<Coin>;
    var change: seq<Coin>;
    match params.mintPrice {
      case None =>
        payment, change := None, info.funds;
      case Some(price) =>
        if price.amount <= 0 {
          return Err(ZeroPrice);
        }
        var split := SplitFundDenom(price.denom, info.funds);
        if split.Panicked? {
          return Panicked(split.reason);
        }
        var others := split.value.others;
        if split.value.aggregated < price.amount {
          return Err(MissingPayment(price));
        }
        var changeInDenom := split.value.aggregated - price.amount;
        if changeInDenom > 0 {
          others := others + [Coin(price.denom, changeInDenom)];
        }
        assert others == Change(price, info.funds);
        payment, change := Some(price), others;
    }
    var bankMsgs: seq<BankMsg> := [];
    if payment.Some? {
      bankMsgs := bankMsgs + [Send(params.beneficiary, [payment.value])];
    }
    if change != [] {
      bankMsgs := bankMsgs + [Send(info.sender, change)];
    }
    assert payment.None? ==> bankMsgs == ChangeSends(info.sender, info.funds);
    assert payment.Some? ==> bankMsgs == [Send(params.beneficiary, [payment.value])] + ChangeSends(info.sender, change);
    r := Ok(bankMsgs);
  }

  /** Total amount of `denom` carried by a list of bank sends, whoever receives it. */
  function SentAmount(denom: string, sends: seq<BankMsg>): nat
  {
    if sends == [] then 0 else AmountOf(denom, sends[0].amount) + SentAmount(denom, sends[1..])
  }

  /** Without a price, all funds go back to the sender in one send, and no
      send at all is made when nothing was attached. */
  lemma ReconcileNoPrice(params: PaymentParams, info: MessageInfo)
    requires params.mintPrice.None?
    ensures info.funds == [] ==> Reconcile(Some(params), info) == Ok([])
    ensures info.funds != [] ==> Reconcile(Some(params), info) == Ok([Send(info.sender, info.funds)])
  {
  }

  /** Every failure of the reconciler, and what it reports. */
  lemma ReconcileErrors(stored: Option<PaymentParams>, info: MessageInfo)
    ensures stored.None? ==> Reconcile(stored, info) == Err(Std(NotFound(PAYMENT_PARAMS_KIND)))
    ensures stored.Some? && stored.value.mintPrice.Some? && stored.value.mintPrice.value.amount == 0
            ==> Reconcile(stored, info) == Err(ZeroPrice)
    ensures stored.Some? && stored.value.mintPrice.Some? && stored.value.mintPrice.value.amount > 0
            && AmountOf(stored.value.mintPrice.value.denom, info.funds) < stored.value.mintPrice.value.amount
            ==> Reconcile(stored, info) == Err(MissingPayment(stored.value.mintPrice.value))
    ensures Reconcile(stored, info).Err? ==>
              stored.None?
              || (stored.value.mintPrice.Some?
                  && (stored.value.mintPrice.value.amount == 0
                      || AmountOf(stored.value.mintPrice.value.denom, info.funds) < stored.value.mintPrice.value.amount))
  {
  }

  /** Attaching only coins of other denominations never pays a price. */
  lemma ReconcileWrongDenominations(params: PaymentParams, info: MessageInfo)
    requires params.mintPrice.Some? && params.mintPrice.value.amount > 0
    requires forall i :: 0 <= i < |info.funds| ==> info.funds[i].denom != params.mintPrice.value.denom
    ensures Reconcile(Some(params), info) == Err(MissingPayment(params.mintPrice.value))
  {
    AmountOfAbsent(params.mintPrice.value.denom, info.funds);
  }

  /** The change coins: the other coins unchanged and in order, then the
      surplus; the change holds exactly the surplus of the price denomination
      (none when the price was met exactly) and all of every other denomination. */
  lemma ChangeContents(price: Coin, funds: seq<Coin>, e: string)
    requires price.amount <= AmountOf(price.denom, funds) < UINT128_LIMIT
    ensures Change(price, funds)[..|OtherCoins(price.denom, funds)|] == OtherCoins(price.denom, funds)
    ensures AmountOf(price.denom, Change(price, funds)) == AmountOf(price.denom, funds) - price.amount
    ensures e != price.denom ==> AmountOf(e, Change(price, funds)) == AmountOf(e, funds)
    ensures AmountOf(price.denom, funds) == price.amount ==> Change(price, funds) == OtherCoins(price.denom, funds)
    ensures Change(price, funds) == [] <==>
              OtherCoins(price.denom, funds) == [] && AmountOf(price.denom, funds) == price.amount
  {
    var total := AmountOf(price.denom, funds);
    var others := OtherCoins(price.denom, funds);
    var tail := if total - price.amount > 0 then [Coin(price.denom, total - price.amount)] else [];
    assert Change(price, funds) == others + tail;
    assert (others + tail)[..|others|] == others;
    OtherCoinsAmounts(price.denom, funds, price.denom);
    OtherCoinsAmounts(price.denom, funds, e);
    AmountOfAppend(price.denom, others, tail);
    AmountOfAppend(e, others, tail);
    if tail != [] {
      assert tail[..0] == [];
      assert AmountOf(price.denom, tail) == total - price.amount;
      assert e != price.denom ==> AmountOf(e, tail) == 0;
    } else {
      assert AmountOf(price.denom, tail) == 0 && AmountOf(e, tail) == 0;
    }
  }

  /** A paid mint: exactly the price goes to the beneficiary first, then the
      change goes to the sender, and there is no change send when there is no change. */
  lemma ReconcilePaid(params: PaymentParams, price: Coin, info: MessageInfo)
    requires params.mintPrice == Some(price)
    requires 0 < price.amount <= AmountOf(price.denom, info.funds) < UINT128_LIMIT
    ensures Reconcile(Some(params), info).Ok?
    ensures var sends := Reconcile(Some(params), info).value;
            1 <= |sends| <= 2 && sends[0] == Send(params.beneficiary, [price])
    ensures var sends := Reconcile(Some(params), info).value;
            |sends| == 2 <==> Change(price, info.funds) != []
    ensures var sends := Reconcile(Some(params), info).value;
            |sends| == 2 ==> sends[1] == Send(info.sender, Change(price, info.funds))
  {
  }

  lemma {:induction false} SentAmountAppend(denom: string, a: seq<BankMsg>, b: seq<BankMsg>)
    ensures SentAmount(denom, a + b) == SentAmount(denom, a) + SentAmount(denom, b)
    decreases |a|
  {
    if a == [] {
      assert a + b == b;
    } else {
      assert (a + b)[0] == a[0];
      assert (a + b)[1..] == a[1..] + b;
      SentAmountAppend(denom, a[1..], b);
    }
  }

  /** Conservation: on success the sends carry, denomination by denomination,
      exactly the attached funds; nothing is kept and nothing is invented. */
  lemma ReconcileConservation(stored: Option<PaymentParams>, info: MessageInfo, sends: seq<BankMsg>, denom: string)
    requires Reconcile(stored, info) == Ok(sends)
    ensures SentAmount(denom, sends) == AmountOf(denom, info.funds)
  {
    var params := stored.value;
    match params.mintPrice {
      case None =>
      case Some(price) =>
        var change := Change(price, info.funds);
        ChangeContents(price, info.funds, denom);
        assert [price][..0] == [];
        var payment := [Send(params.beneficiary, [price])];
        assert payment[1..] == [];
        assert AmountOf(denom, [price]) == if denom == price.denom then price.amount else 0;
        assert SentAmount(denom, payment) == AmountOf(denom, [price]);
        var changeSends := ChangeSends(info.sender, change);
        if change != [] {
          assert changeSends[1..] == [];
        }
        assert SentAmount(denom, changeSends) == AmountOf(denom, change);
        SentAmountAppend(denom, payment, changeSends);
        assert sends == payment + changeSends;
    }
  }

  /** Reordering the funds reorders the change and nothing else. */
  lemma ChangeOrderIndependent(price: Coin, a: seq<Coin>, b: seq<Coin>)
    requires multiset(a) == multiset(b)
    requires price.amount <= AmountOf(price.denom, a) < UINT128_LIMIT
    ensures AmountOf(price.denom, a) == AmountOf(price.denom, b)
    ensures Change(price, a) == [] <==> Change(price, b) == []
    ensures forall e :: AmountOf(e, Change(price, a)) == AmountOf(e, Change(price, b))
  {
    AmountOfPermutation(price.denom, a, b);
    var oa, ob := OtherCoins(price.denom, a), OtherCoins(price.denom, b);
    assert oa == [] <==> ob == [] by {
      if oa != [] {
        OtherCoinsMultiplicity(price.denom, a, oa[0]);
        OtherCoinsMultiplicity(price.denom, b, oa[0]);
        assert oa[0] in multiset(oa);
      }
      if ob != [] {
        OtherCoinsMultiplicity(price.denom, a, ob[0]);
        OtherCoinsMultiplicity(price.denom, b, ob[0]);
        assert ob[0] in multiset(ob);
      }
    }
    ChangeContents(price, a, price.denom);
    ChangeContents(price, b, price.denom);
    forall e ensures AmountOf(e, Change(price, a)) == AmountOf(e, Change(price, b)) {
      AmountOfPermutation(e, a, b);
      ChangeContents(price, a, e);
      ChangeContents(price, b, e);
    }
  }

  /** Funds that differ only in order are reconciled alike: same failure, or
      sends to the same recipients carrying the same total of every denomination. */
  lemma ReconcileOrderIndependent(stored: Option<PaymentParams>, sender: string, a: seq<Coin>, b: seq<Coin>)
    requires multiset(a) == multiset(b)
    ensures Reconcile(stored, MessageInfo(sender, a)).Ok? == Reconcile(stored, MessageInfo(sender, b)).Ok?
    ensures !Reconcile(stored, MessageInfo(sender, a)).Ok? ==>
              Reconcile(stored, MessageInfo(sender, a)) == Reconcile(stored, MessageInfo(sender, b))
    ensures Reconcile(stored, MessageInfo(sender, a)).Ok? ==>
              var ra := Reconcile(stored, MessageInfo(sender, a)).value;
              var rb := Reconcile(stored, MessageInfo(sender, b)).value;
              |ra| == |rb|
              && forall i, e :: 0 <= i < |ra| ==>
                   ra[i].toAddress == rb[i].toAddress && AmountOf(e, ra[i].amount) == AmountOf(e, rb[i].amount)
  {
    if stored.Some? {
      match stored.value.mintPrice {
        case None =>
          assert a == [] <==> b == [] by {
            if a != [] { assert a[0] in multiset(b); }
            if b != [] { assert b[0] in multiset(a); }
          }
          forall e ensures AmountOf(e, a) == AmountOf(e, b) {
            AmountOfPermutation(e, a, b);
          }
        case Some(price) =>
          AmountOfPermutation(price.denom, a, b);
          var total := AmountOf(price.denom, a);
          if price.amount > 0 && price.amount <= total < UINT128_LIMIT {
            ChangeOrderIndependent(price, a, b);
          }
      }
    }
  }

  /** Price 55 silver; gold 335 and silver 30 twice attached: the beneficiary
      gets 55 silver and the sender gets gold 335 and silver 5 back. */
  lemma ReconcileSilverExample()
    ensures Reconcile(
              Some(PaymentParams("beneficiary", Some(Coin("silver", 55)))),
              MessageInfo("executer", [Coin("gold", 335), Coin("silver", 30), Coin("silver", 30)]))
            == Ok([Send("beneficiary", [Coin("silver", 55)]),
                   Send("executer", [Coin("gold", 335), Coin("silver", 5)])])
  {
    var f1 := [Coin("gold", 335)];
    var f2 := f1 + [Coin("silver", 30)];
    var funds := f2 + [Coin("silver", 30)];
    assert funds == [Coin("gold", 335), Coin("silver", 30), Coin("silver", 30)];
    assert funds[..2] == f2 && f2[..1] == f1 && f1[..0] == [];
    assert AmountOf("silver", f2) == 30;
    assert AmountOf("silver", funds) == 60;
    assert OtherCoins("silver", f1) == [Coin("gold", 335)];
    assert OtherCoins("silver", f2) == [Coin("gold", 335)];
    assert OtherCoins("silver", funds) == [Coin("gold", 335)];
    var change := Change(Coin("silver", 55), funds);
    assert change == [Coin("gold", 335), Coin("silver", 5)];
    assert ChangeSends("executer", change) == [Send("executer", change)];
    var params := PaymentParams("beneficiary", Some(Coin("silver", 55)));
    var info := MessageInfo("executer", funds);
    assert Reconcile(Some(params), info)
        == Ok([Send("beneficiary", [Coin("silver", 55)])] + ChangeSends("executer", change));
    assert [Send("beneficiary", [Coin("silver", 55)])] + ChangeSends("executer", change)
        == [Send("beneficiary", [Coin("silver", 55)]), Send("executer", [Coin("gold", 335), Coin("silver", 5)])];
  }

  /** Price 55 silver with only 40 silver attached: the payment is missing and
      nothing is sent. */
  lemma ReconcileShortExample()
    ensures Reconcile(
              Some(PaymentParams("beneficiary", Some(Coin("silver", 55)))),
              MessageInfo("executer", [Coin("silver", 40)]))
            == Err(MissingPayment(Coin("silver", 55)))
  {
  }
}
