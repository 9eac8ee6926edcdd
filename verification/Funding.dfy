/** Coin selection (sdk/src/testnet.rs). */
module Funding {
  import opened Wrappers
  import opened ScriptNumbers
  import opened Syntax
  import opened Engine
  import opened Plan

  datatype Coin = Coin(outpoint: Outpoint, amount: u64, isCoinbase: bool)

  datatype FundingError = InsufficientFunds(needed: nat, available: nat) | MassTooLarge | MassFailed | ZeroAmount | ScriptRejected

  function Worth(coins: seq<Coin>): nat {
    if coins == [] then 0 else coins[0].amount + Worth(coins[1..])
  }

  function SaturatingAdd(a: nat, b: nat): u64 { if a + b <= U64_MAX then a + b else U64_MAX }

  // ---- coin selection ----

  /** Insertion before the first coin that is not larger. */
  function Insert(coin: Coin, sorted: seq<Coin>): (r: seq<Coin>)
    ensures |r| == |sorted| + 1
  {
    if sorted == [] || coin.amount >= sorted[0].amount then [coin] + sorted
    else [sorted[0]] + Insert(coin, sorted[1..])
  }

  /** The coins by descending amount, equal amounts in their original order. */
  function SortDescending(coins: seq<Coin>): (r: seq<Coin>)
    ensures |r| == |coins|
  {
    if coins == [] then [] else Insert(coins[0], SortDescending(coins[1..]))
  }

  predicate Descending(coins: seq<Coin>) {
    forall i, j :: 0 <= i < j < |coins| ==> coins[i].amount >= coins[j].amount
  }

  /** How many coins from the front of a list reach the minimum; at least one, even for a zero minimum. */
  function Reaching(sorted: seq<Coin>, minimum: nat): (k: nat)
    requires sorted != [] && Worth(sorted) >= minimum
    ensures 0 < k <= |sorted| && Worth(sorted[..k]) >= minimum
    ensures k > 1 ==> Worth(sorted[..k - 1]) < minimum
  {
    if sorted[0].amount >= minimum then
      assert sorted[..1] == [sorted[0]] && [sorted[0]][1..] == [];
      1
    else
      assert Worth(sorted) == sorted[0].amount + Worth(sorted[1..]);
      var k := 1 + Reaching(sorted[1..], minimum - sorted[0].amount);
      assert sorted[..k][1..] == sorted[1..][..k - 1];
      assert k > 2 ==> sorted[..k - 1][1..] == sorted[1..][..k - 2];
      assert k == 2 ==> sorted[..1] == [sorted[0]] && [sorted[0]][1..] == [];
      k
  }

  /** The largest coins, as few as reach the minimum. */
  function Selection(funding: seq<Coin>, minimum: u64): Result<seq<Coin>, FundingError> {
    SortKeepsCoins(funding);
    WorthOfMultiset(SortDescending(funding), funding);
    if funding == [] || Worth(funding) < minimum then
      Failure(InsufficientFunds(minimum, SaturatingAdd(Worth(funding), 0)))
    else Success(SortDescending(funding)[..Reaching(SortDescending(funding), minimum)])
  }

  lemma PrefixWorth(coins: seq<Coin>, i: nat, j: nat)
    requires i <= j <= |coins|
    ensures Worth(coins[..i]) <= Worth(coins[..j])
  {
    WorthSplit(coins[..j], i);
    assert coins[..j][..i] == coins[..i];
  }

  lemma ReachingIsUnique(sorted: seq<Coin>, minimum: nat, k: nat)
    requires 0 < k <= |sorted| && Worth(sorted[..k]) >= minimum && (k > 1 ==> Worth(sorted[..k - 1]) < minimum)
    ensures Worth(sorted) >= minimum && k == Reaching(sorted, minimum)
  {
    WorthSplit(sorted, k);
    var r := Reaching(sorted, minimum);
    if r < k {
      PrefixWorth(sorted, r, k - 1);
    } else if k < r {
      PrefixWorth(sorted, k, r - 1);
    }
  }

  /** Takes coins from the largest on until the running total reaches the minimum. */
  method SelectFunding(funding: seq<Coin>, minimum: u64) returns (r: Result<seq<Coin>, FundingError>)
    ensures r == Selection(funding, minimum)
  {
    var selected: seq<Coin> := [];
    var total: u64 := 0;
    var sorted := SortDescending(funding);
    SortKeepsCoins(funding);
    WorthOfMultiset(sorted, funding);
    for i := 0 to |sorted|
      invariant selected == sorted[..i] && total == SaturatingAdd(Worth(selected), 0)
      invariant i > 0 ==> total < minimum
    {
      WorthLast(sorted[..i], sorted[i]);
      assert sorted[..i + 1] == sorted[..i] + [sorted[i]];
      total := SaturatingAdd(total, sorted[i].amount);
      selected := selected + [sorted[i]];
      if total >= minimum {
        ReachingIsUnique(sorted, minimum, i + 1);
        return Success(selected);
      }
    }
    assert sorted[..|sorted|] == sorted;
    return Failure(InsufficientFunds(minimum, total));
  }

  lemma {:induction false} WorthLast(coins: seq<Coin>, last: Coin)
    ensures Worth(coins + [last]) == Worth(coins) + last.amount
  {
    if coins == [] {
      assert coins + [last] == [last] && [last][1..] == [];
    } else {
      WorthLast(coins[1..], last);
      assert (coins + [last])[1..] == coins[1..] + [last];
    }
  }

  lemma {:induction false} WorthSplit(coins: seq<Coin>, n: nat)
    requires n <= |coins|
    ensures Worth(coins) == Worth(coins[..n]) + Worth(coins[n..])
    decreases n
  {
    if n == 0 {
      assert coins[..0] == [] && coins[0..] == coins;
    } else {
      WorthSplit(coins[1..], n - 1);
      assert coins[..n] == [coins[0]] + coins[1..][..n - 1] && coins[1..][n - 1..] == coins[n..];
    }
  }

  lemma TailMultiset(coins: seq<Coin>)
    requires coins != []
    ensures multiset(coins[1..]) == multiset(coins) - multiset{coins[0]}
    ensures multiset(coins) == multiset(coins[1..]) + multiset{coins[0]}
  {
    assert coins == [coins[0]] + coins[1..];
  }

  lemma {:induction false} InsertKeepsCoins(coin: Coin, sorted: seq<Coin>)
    ensures multiset(Insert(coin, sorted)) == multiset(sorted) + multiset{coin}
  {
    if sorted != [] && coin.amount < sorted[0].amount {
      InsertKeepsCoins(coin, sorted[1..]);
      TailMultiset(sorted);
    }
  }

  lemma {:induction false} InsertSorted(coin: Coin, sorted: seq<Coin>)
    requires Descending(sorted)
    ensures Descending(Insert(coin, sorted))
  {
    if sorted != [] && coin.amount < sorted[0].amount {
      var rest := Insert(coin, sorted[1..]);
      InsertSorted(coin, sorted[1..]);
      InsertKeepsCoins(coin, sorted[1..]);
      forall i | 0 <= i < |rest| ensures sorted[0].amount >= rest[i].amount {
        assert rest[i] in multiset(rest);
        if rest[i] != coin {
          assert rest[i] in multiset(sorted[1..]);
          var j :| 0 <= j < |sorted[1..]| && sorted[1..][j] == rest[i];
          assert sorted[j + 1] == rest[i];
        }
      }
    }
  }

  lemma {:induction false} SortKeepsCoins(coins: seq<Coin>)
    ensures Descending(SortDescending(coins)) && multiset(SortDescending(coins)) == multiset(coins)
  {
    if coins != [] {
      SortKeepsCoins(coins[1..]);
      InsertSorted(coins[0], SortDescending(coins[1..]));
      InsertKeepsCoins(coins[0], SortDescending(coins[1..]));
      TailMultiset(coins);
    }
  }

  function OfAmount(coins: seq<Coin>, amount: u64): seq<Coin> {
    if coins == [] then []
    else (if coins[0].amount == amount then [coins[0]] else []) + OfAmount(coins[1..], amount)
  }

  lemma {:induction false} InsertIsStable(coin: Coin, sorted: seq<Coin>, amount: u64)
    requires Descending(sorted)
    ensures OfAmount(Insert(coin, sorted), amount) == (if coin.amount == amount then [coin] else []) + OfAmount(sorted, amount)
  {
    var one := if coin.amount == amount then [coin] else [];
    if sorted == [] || coin.amount >= sorted[0].amount {
      assert ([coin] + sorted)[1..] == sorted;
    } else {
      var first := if sorted[0].amount == amount then [sorted[0]] else [];
      InsertIsStable(coin, sorted[1..], amount);
      assert ([sorted[0]] + Insert(coin, sorted[1..]))[1..] == Insert(coin, sorted[1..]);
      ConcatAssociates(first, one, OfAmount(sorted[1..], amount));
      if coin.amount == amount {
        assert first == [] && [] + one == one && [] + OfAmount(sorted[1..], amount) == OfAmount(sorted[1..], amount);
      } else {
        assert [] + OfAmount(sorted, amount) == OfAmount(sorted, amount);
        assert first + [] == first && [] + OfAmount(sorted[1..], amount) == OfAmount(sorted[1..], amount);
      }
    }
  }

  /** Coins of one amount stay in the order in which they came. */
  lemma {:induction false} SortIsStable(coins: seq<Coin>, amount: u64)
    ensures OfAmount(SortDescending(coins), amount) == OfAmount(coins, amount)
  {
    if coins != [] {
      SortIsStable(coins[1..], amount);
      SortKeepsCoins(coins[1..]);
      InsertIsStable(coins[0], SortDescending(coins[1..]), amount);
    }
  }

  /** Removes one occurrence of a coin. */
  lemma RemoveCoin(coins: seq<Coin>, coin: Coin) returns (rest: seq<Coin>)
    requires coin in coins
    ensures multiset(rest) == multiset(coins) - multiset{coin} && |coins| == |rest| + 1
    ensures Worth(coins) == Worth(rest) + coin.amount
  {
    var i :| 0 <= i < |coins| && coins[i] == coin;
    rest := coins[..i] + coins[i + 1..];
    assert coins == coins[..i] + [coin] + coins[i + 1..];
    WorthSplit(coins, i + 1);
    WorthSplit(rest, i);
    assert rest[..i] == coins[..i] && rest[i..] == coins[i + 1..];
    assert coins[..i + 1] == coins[..i] + [coin];
    WorthLast(coins[..i], coin);
  }

  lemma {:induction false} WorthOfMultiset(a: seq<Coin>, b: seq<Coin>)
    requires multiset(a) == multiset(b)
    ensures Worth(a) == Worth(b)
    decreases a
  {
    if a == [] {
      assert |multiset(b)| == 0;
    } else {
      TailMultiset(a);
      assert a[0] in multiset(b);
      var rest := RemoveCoin(b, a[0]);
      WorthOfMultiset(a[1..], rest);
    }
  }

  lemma {:induction false} FewerCoins(chosen: seq<Coin>, coins: seq<Coin>)
    requires multiset(chosen) <= multiset(coins)
    ensures |chosen| <= |coins|
  {
    if chosen != [] {
      TailMultiset(chosen);
      assert chosen[0] in multiset(chosen) && chosen[0] in multiset(coins);
      var rest := RemoveCoin(coins, chosen[0]);
      FewerCoins(chosen[1..], rest);
    }
  }

  lemma FirstCoins(coins: seq<Coin>, k: nat)
    requires 0 < k <= |coins|
    ensures Worth(coins[..k]) == coins[0].amount + Worth(coins[1..][..k - 1])
  {
    assert coins[..k][1..] == coins[1..][..k - 1];
  }

  lemma LaterCoinsAreWorthLess(sorted: seq<Coin>, k: nat)
    requires Descending(sorted) && 0 < k < |sorted|
    ensures Worth(sorted[1..][..k]) <= Worth(sorted[..k])
  {
    FirstCoins(sorted, k);
    assert sorted[1..][..k] == sorted[1..][..k - 1] + [sorted[k]];
    WorthLast(sorted[1..][..k - 1], sorted[k]);
  }

  lemma FitWithoutFirst(sorted: seq<Coin>, chosen: seq<Coin>, rest: seq<Coin>)
    requires sorted != [] && multiset(chosen) <= multiset(sorted) && multiset(rest) == multiset(chosen) - multiset{sorted[0]}
    ensures multiset(rest) <= multiset(sorted[1..])
  {
    TailMultiset(sorted);
  }

  lemma FitInTail(sorted: seq<Coin>, chosen: seq<Coin>)
    requires sorted != [] && multiset(chosen) <= multiset(sorted) && sorted[0] !in chosen
    ensures multiset(chosen) <= multiset(sorted[1..])
  {
    TailMultiset(sorted);
    assert sorted[0] !in multiset(chosen);
  }

  /** Coins from a descending list are never worth more than as many of its first ones. */
  lemma {:induction false} FirstCoinsAreWorthMost(sorted: seq<Coin>, chosen: seq<Coin>)
    requires Descending(sorted) && multiset(chosen) <= multiset(sorted)
    ensures |chosen| <= |sorted| && Worth(chosen) <= Worth(sorted[..|chosen|])
    decreases sorted
  {
    FewerCoins(chosen, sorted);
    if chosen != [] {
      if sorted[0] in chosen {
        var rest := RemoveCoin(chosen, sorted[0]);
        FitWithoutFirst(sorted, chosen, rest);
        FirstCoinsAreWorthMost(sorted[1..], rest);
        FirstCoins(sorted, |chosen|);
      } else {
        FitInTail(sorted, chosen);
        FirstCoinsAreWorthMost(sorted[1..], chosen);
        LaterCoinsAreWorthLess(sorted, |chosen|);
      }
    }
  }

  lemma SelectionReaches(funding: seq<Coin>, minimum: u64)
    ensures Selection(funding, minimum).Success? <==> funding != [] && Worth(funding) >= minimum
    ensures Selection(funding, minimum).Success? ==>
              var selected := Selection(funding, minimum).value;
              selected != [] && multiset(selected) <= multiset(funding) && Worth(selected) >= minimum
              && |selected| <= |funding| && selected == SortDescending(funding)[..|selected|]
              && (|selected| > 1 ==> Worth(SortDescending(funding)[..|selected| - 1]) < minimum)
  {
    if Selection(funding, minimum).Success? {
      var selected := Selection(funding, minimum).value;
      var sorted := SortDescending(funding);
      SortKeepsCoins(funding);
      assert sorted == selected + sorted[|selected|..];
    }
  }

  /** Selection fails exactly when all coins together fall short; what it selects reaches the minimum,
      and no choice of fewer coins reaches a minimum that is not zero. */
  lemma SelectionIsSmallest(funding: seq<Coin>, minimum: u64, chosen: seq<Coin>)
    ensures Selection(funding, minimum).Success? <==> funding != [] && Worth(funding) >= minimum
    ensures Selection(funding, minimum).Success? ==>
              var selected := Selection(funding, minimum).value;
              multiset(selected) <= multiset(funding) && Worth(selected) >= minimum
              && (minimum > 0 && multiset(chosen) <= multiset(funding) && |chosen| < |selected| ==> Worth(chosen) < minimum)
  {
    SelectionReaches(funding, minimum);
    if Selection(funding, minimum).Success? {
      var k := |Selection(funding, minimum).value| - 1;
      if minimum > 0 && multiset(chosen) <= multiset(funding) && |chosen| <= k {
        SortKeepsCoins(funding);
        FirstCoinsAreWorthMost(SortDescending(funding), chosen);
        PrefixWorth(SortDescending(funding), |chosen|, k);
        if k == 0 {
          assert chosen == [];
        }
      }
    }
  }
}
