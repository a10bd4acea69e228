/** Per-denomination totals of a list of coins, and `split_fund_denom`, which
    folds the attached funds into the total of one denomination and the list
    of all other coins. */
module Coins {
  import opened Types

  /** Total amount of `denom` in `coins`; coins of the same denomination add up. */
  function AmountOf(denom: string, coins: seq<Coin>): nat
    decreases |coins|
  {
    if coins == [] then 0
    else AmountOf(denom, coins[..|coins| - 1])
         + (if coins[|coins| - 1].denom == denom then coins[|coins| - 1].amount else 0)
  }

  /** The coins not of `denom`, unchanged and in their original order. */
  function OtherCoins(denom: string, coins: seq<Coin>): (others: seq<Coin>)
    ensures |others| <= |coins|
    ensures forall i :: 0 <= i < |others| ==> others[i].denom != denom
    decreases |coins|
  {
    if coins == [] then []
    else OtherCoins(denom, coins[..|coins| - 1])
         + (if coins[|coins| - 1].denom == denom then [] else [coins[|coins| - 1]])
  }

  lemma {:induction false} AmountOfAppend(denom: string, a: seq<Coin>, b: seq<Coin>)
    ensures AmountOf(denom, a + b) == AmountOf(denom, a) + AmountOf(denom, b)
    decreases |b|
  {
    if b == [] {
      assert a + b == a;
    } else {
      var n := |b| - 1;
      assert (a + b)[..|a + b| - 1] == a + b[..n];
      AmountOfAppend(denom, a, b[..n]);
    }
  }

  lemma {:induction false} OtherCoinsAppend(denom: string, a: seq<Coin>, b: seq<Coin>)
    ensures OtherCoins(denom, a + b) == OtherCoins(denom, a) + OtherCoins(denom, b)
    decreases |b|
  {
    if b == [] {
      assert a + b == a;
    } else {
      var n := |b| - 1;
      assert (a + b)[..|a + b| - 1] == a + b[..n];
      OtherCoinsAppend(denom, a, b[..n]);
    }
  }

  /** A prefix never holds more of a denomination than the whole list. */
  lemma AmountOfPrefix(denom: string, coins: seq<Coin>, k: nat)
    requires k <= |coins|
    ensures AmountOf(denom, coins[..k]) <= AmountOf(denom, coins)
  {
    assert coins == coins[..k] + coins[k..];
    AmountOfAppend(denom, coins[..k], coins[k..]);
  }

  /** A list with no coin of `denom` holds none of it. */
  lemma {:induction false} AmountOfAbsent(denom: string, coins: seq<Coin>)
    requires forall i :: 0 <= i < |coins| ==> coins[i].denom != denom
    ensures AmountOf(denom, coins) == 0
    decreases |coins|
  {
    if coins != [] {
      AmountOfAbsent(denom, coins[..|coins| - 1]);
    }
  }

  /** Removing the coins of `denom` leaves every other denomination's total intact. */
  lemma {:induction false} OtherCoinsAmounts(denom: string, coins: seq<Coin>, e: string)
    ensures AmountOf(e, OtherCoins(denom, coins)) == if e == denom then 0 else AmountOf(e, coins)
    decreases |coins|
  {
    if coins != [] {
      var n := |coins| - 1;
      OtherCoinsAmounts(denom, coins[..n], e);
      var last := if coins[n].denom == denom then [] else [coins[n]];
      AmountOfAppend(e, OtherCoins(denom, coins[..n]), last);
      if last != [] {
        assert last[..0] == [];
      }
    }
  }

  /** Each coin of another denomination is kept exactly as often as it was attached:
      equal coins are neither merged nor dropped, and no coin of `denom` is kept. */
  lemma {:induction false} OtherCoinsMultiplicity(denom: string, coins: seq<Coin>, c: Coin)
    ensures multiset(OtherCoins(denom, coins))[c] == if c.denom == denom then 0 else multiset(coins)[c]
    decreases |coins|
  {
    if coins != [] {
      var n := |coins| - 1;
      OtherCoinsMultiplicity(denom, coins[..n], c);
      assert coins == coins[..n] + [coins[n]];
      assert multiset(coins) == multiset(coins[..n]) + multiset{coins[n]};
      var last := if coins[n].denom == denom then [] else [coins[n]];
      assert OtherCoins(denom, coins) == OtherCoins(denom, coins[..n]) + last;
      assert multiset(OtherCoins(denom, coins)) == multiset(OtherCoins(denom, coins[..n])) + multiset(last);
    }
  }

  /** Taking one coin out of a list takes out exactly its amount. */
  lemma AmountOfRemove(denom: string, b: seq<Coin>, j: nat)
    requires j < |b|
    ensures AmountOf(denom, b) == AmountOf(denom, b[..j] + b[j + 1..]) + AmountOf(denom, [b[j]])
  {
    assert b == b[..j] + [b[j]] + b[j + 1..];
    AmountOfAppend(denom, b[..j] + [b[j]], b[j + 1..]);
    AmountOfAppend(denom, b[..j], [b[j]]);
    AmountOfAppend(denom, b[..j], b[j + 1..]);
  }

  /** Taking one coin out of a list takes one occurrence out of its multiset. */
  lemma MultisetRemove(b: seq<Coin>, j: nat)
    requires j < |b|
    ensures multiset(b[..j] + b[j + 1..]) == multiset(b) - multiset{b[j]}
  {
    assert b == b[..j] + [b[j]] + b[j + 1..];
    assert multiset(b) == multiset(b[..j]) + multiset{b[j]} + multiset(b[j + 1..]);
  }

  /** The total of a denomination does not depend on the order of the coins. */
  lemma {:induction false} AmountOfPermutation(denom: string, a: seq<Coin>, b: seq<Coin>)
    requires multiset(a) == multiset(b)
    ensures AmountOf(denom, a) == AmountOf(denom, b)
    decreases |a|
  {
    if a != [] {
      var n := |a| - 1;
      var x := a[n];
      assert x in multiset(a);
      var j :| 0 <= j < |b| && b[j] == x;
      MultisetRemove(a, n);
      MultisetRemove(b, j);
      assert a[..n] + a[n + 1..] == a[..n];
      AmountOfPermutation(denom, a[..n], b[..j] + b[j + 1..]);
      AmountOfRemove(denom, a, n);
      AmountOfRemove(denom, b, j);
    }
  }

  /** What `split_fund_denom` returns: the total of the price denomination
      and the other coins. */
  datatype Split = Split(aggregated: Uint128, others: seq<Coin>)

  /** `split_fund_denom`: a left fold over the funds that adds up the amounts of
      `denom` with `strict_add` (panicking once the running total leaves Uint128)
      and pushes every other coin onto `others`. */
  method SplitFundDenom(denom: string, funds: seq<Coin>) returns (r: Outcome<Split>)
    ensures r.Panicked? <==> AmountOf(denom, funds) >= UINT128_LIMIT
    ensures r.Panicked? ==> r.reason == AddOverflow
    ensures !r.Panicked? ==> r == Ok(Split(AmountOf(denom, funds), OtherCoins(denom, funds)))
  {
    var aggregated: Uint128 := 0;
    var others: seq<Coin> := [];
    var i := 0;
    while i < |funds|
      invariant 0 <= i <= |funds|
      invariant aggregated == AmountOf(denom, funds[..i])
      invariant others == OtherCoins(denom, funds[..i])
    {
      var fund := funds[i];
      assert funds[..i + 1][..i] == funds[..i];
      if fund.denom == denom {
        if aggregated + fund.amount >= UINT128_LIMIT {
          AmountOfPrefix(denom, funds, i + 1);
          return Panicked(AddOverflow);
        }
        aggregated := aggregated + fund.amount;
      } else {
        others := others + [fund];
      }
      i := i + 1;
    }
    assert funds[..i] == funds;
    r := Ok(Split(aggregated, others));
  }
}
