/** A lock transaction and the spend that follows it (sdk/src/testnet.rs). */
module ContractRun {
  import opened Wrappers
  import opened ScriptNumbers
  import opened Syntax
  import opened Engine
  import opened Plan
  import opened Funding
  import opened Fees

  /** A transaction by the coins it spends and the outputs it creates. */
  datatype Built = Built(inputs: seq<Coin>, outputs: seq<TxOutput>, fee: u64)

  /** What a run takes from the wallet and the node library: the fee rules for given inputs, the
      wallet's own script, transaction ids, and whether signing and script validation succeed. */
  datatype Wallet = Wallet(
    rules: seq<Coin> -> FeeRules, payTo: ScriptPublicKey, id: Built -> nat, scriptsValid: Built -> bool)

  datatype Pair = Pair(lock: Built, spend: Built)

  const FEE_RESERVE := 10_000

  function NotCoinbase(utxos: seq<Coin>): seq<Coin> {
    if utxos == [] then []
    else (if utxos[0].isCoinbase then [] else [utxos[0]]) + NotCoinbase(utxos[1..])
  }

  function OutpointsOf(coins: seq<Coin>): set<Outpoint> { set c | c in coins :: c.outpoint }

  function Without(coins: seq<Coin>, spent: set<Outpoint>): seq<Coin> {
    if coins == [] then []
    else (if coins[0].outpoint in spent then [] else [coins[0]]) + Without(coins[1..], spent)
  }

  function CoinOf(id: nat, index: u32, output: TxOutput): Coin { Coin(Outpoint(id, index), output.value, false) }

  /** The wallet's own change of a lock transaction. */
  function LockChange(id: nat, lock: Built): seq<Coin> {
    if |lock.outputs| <= 1 then [] else [CoinOf(id, 1, lock.outputs[1])]
  }

  /** The sum of the coins' amounts in 64 bits: it wraps around, as the builder's does without overflow checks. */
  function Sum64(coins: seq<Coin>): (total: u64)
    ensures total <= Worth(coins)
  {
    Worth(coins) % (U64_MAX + 1)
  }

  function Signed(wallet: Wallet, inputs: seq<Coin>, draft: Draft): Result<Built, FundingError> {
    var built := Built(inputs, draft.outputs, draft.fee);
    if wallet.scriptsValid(built) then Success(built) else Failure(ScriptRejected)
  }

  function LockResult(wallet: Wallet, contract: ScriptPublicKey, amount: u64, funding: seq<Coin>): Result<Built, FundingError>
  {
    if amount == 0 then Failure(ZeroAmount)
    else
      var selected :- Selection(funding, SaturatingAdd(amount, FEE_RESERVE));
      var draft :- Drafted(FundingFunds(wallet.rules(selected), Sum64(selected), [TxOutput(amount, contract, NoCovenant)], wallet.payTo));
      Signed(wallet, selected, draft)
  }

  function SpendResult(wallet: Wallet, locked: Coin, funding: seq<Coin>): Result<Built, FundingError>
  {
    var selected :- Selection(funding, FEE_RESERVE);
    var inputs := [locked] + selected;
    var draft :- Drafted(SpendFunds(wallet.rules(inputs), Sum64(selected), TxOutput(locked.amount, wallet.payTo, NoCovenant), wallet.payTo));
    Signed(wallet, inputs, draft)
  }

  /** The coins left for fees once the lock has spent some and returned its change. */
  function FeeFunding(wallet: Wallet, lock: Built, funding: seq<Coin>): seq<Coin> {
    Without(funding, OutpointsOf(lock.inputs)) + LockChange(wallet.id(lock), lock)
  }

  function Locked(wallet: Wallet, lock: Built, amount: u64): Coin { Coin(Outpoint(wallet.id(lock), 0), amount, false) }

  function RunResult(wallet: Wallet, contract: ScriptPublicKey, amount: u64, utxos: seq<Coin>): Result<Pair, FundingError>
  {
    var funding := NotCoinbase(utxos);
    var lock :- LockResult(wallet, contract, amount, funding);
    var spend :- SpendResult(wallet, Locked(wallet, lock, amount), FeeFunding(wallet, lock, funding));
    Success(Pair(lock, spend))
  }

  predicate Distinct(coins: seq<Coin>) {
    forall i, j :: 0 <= i < j < |coins| ==> coins[i].outpoint != coins[j].outpoint
  }

  // ---- the builder, step by step ----

  method SumAmounts(coins: seq<Coin>) returns (total: u64)
    ensures total == Sum64(coins)
  {
    total := 0;
    for i := 0 to |coins|
      invariant total == Sum64(coins[..i])
    {
      assert coins[..i + 1] == coins[..i] + [coins[i]];
      WorthLast(coins[..i], coins[i]);
      WrapAround(Worth(coins[..i]), coins[i].amount);
      total := (total + coins[i].amount) % (U64_MAX + 1);
    }
    assert coins[..|coins|] == coins;
  }

  lemma WrapAround(a: nat, b: nat)
    ensures (a % (U64_MAX + 1) + b) % (U64_MAX + 1) == (a + b) % (U64_MAX + 1)
  {
  }

  method BuildLock(wallet: Wallet, contract: ScriptPublicKey, amount: u64, funding: seq<Coin>) returns (r: Result<Built, FundingError>)
    ensures r == LockResult(wallet, contract, amount, funding)
  {
    if amount == 0 { return Failure(ZeroAmount); }
    var selected := SelectFunding(funding, SaturatingAdd(amount, FEE_RESERVE));
    if selected.Failure? { return Failure(selected.error); }
    var total := SumAmounts(selected.value);
    var draft := BuildFundingDraft(wallet.rules(selected.value), total, [TxOutput(amount, contract, NoCovenant)], wallet.payTo);
    if draft.Failure? { return Failure(draft.error); }
    return Signed(wallet, selected.value, draft.value);
  }

  method BuildSpend(wallet: Wallet, locked: Coin, funding: seq<Coin>) returns (r: Result<Built, FundingError>)
    ensures r == SpendResult(wallet, locked, funding)
  {
    var selected := SelectFunding(funding, FEE_RESERVE);
    if selected.Failure? { return Failure(selected.error); }
    var total := SumAmounts(selected.value);
    var inputs := [locked];
    for i := 0 to |selected.value|
      invariant inputs == [locked] + selected.value[..i]
    {
      inputs := inputs + [selected.value[i]];
    }
    assert inputs == [locked] + selected.value;
    var draft := BuildSpendDraft(wallet.rules(inputs), total, TxOutput(locked.amount, wallet.payTo, NoCovenant), wallet.payTo);
    if draft.Failure? { return Failure(draft.error); }
    return Signed(wallet, inputs, draft.value);
  }

  /** Locks an amount under the contract's script, then spends the lock with what is left for fees. */
  method BuildContractRun(wallet: Wallet, contract: ScriptPublicKey, amount: u64, utxos: seq<Coin>)
    returns (r: Result<Pair, FundingError>)
    ensures r == RunResult(wallet, contract, amount, utxos)
  {
    var funding := NotCoinbase(utxos);
    var lock := BuildLock(wallet, contract, amount, funding);
    if lock.Failure? { return Failure(lock.error); }
    var feeFunding := Without(funding, OutpointsOf(lock.value.inputs));
    if |lock.value.outputs| > 1 {
      feeFunding := feeFunding + [Coin(Outpoint(wallet.id(lock.value), 1), lock.value.outputs[1].value, false)];
    }
    assert feeFunding == FeeFunding(wallet, lock.value, funding);
    var spend := BuildSpend(wallet, Coin(Outpoint(wallet.id(lock.value), 0), amount, false), feeFunding);
    if spend.Failure? { return Failure(spend.error); }
    return Success(Pair(lock.value, spend.value));
  }

  // ---- worth of coins kept and coins removed ----

  lemma {:induction false} WorthConcat(a: seq<Coin>, b: seq<Coin>)
    ensures Worth(a + b) == Worth(a) + Worth(b)
  {
    WorthSplit(a + b, |a|);
    assert (a + b)[..|a|] == a && (a + b)[|a|..] == b;
  }

  lemma {:induction false} NotCoinbaseKeeps(utxos: seq<Coin>)
    ensures Worth(NotCoinbase(utxos)) <= Worth(utxos)
    ensures forall c :: c in NotCoinbase(utxos) <==> c in utxos && !c.isCoinbase
    ensures Distinct(utxos) ==> Distinct(NotCoinbase(utxos))
  {
    if utxos != [] {
      var head := if utxos[0].isCoinbase then [] else [utxos[0]];
      NotCoinbaseKeeps(utxos[1..]);
      WorthConcat(head, NotCoinbase(utxos[1..]));
      assert head != [] ==> head[1..] == [];
      assert NotCoinbase(utxos) == head + NotCoinbase(utxos[1..]);
    }
  }

  lemma WorthOfOne(coin: Coin)
    ensures Worth([coin]) == coin.amount
  {
    assert [coin][1..] == [];
  }

  lemma WorthOfThree(before: seq<Coin>, coin: Coin, after: seq<Coin>)
    ensures Worth(before + ([coin] + after)) == Worth(before + after) + coin.amount
  {
    WorthConcat(before, [coin] + after);
    WorthConcat([coin], after);
    WorthConcat(before, after);
    WorthOfOne(coin);
  }

  lemma CutMultiset(before: seq<Coin>, coin: Coin, after: seq<Coin>)
    ensures multiset(before + after) == multiset(before + ([coin] + after)) - multiset{coin}
  {
  }

  lemma CutDistinct(before: seq<Coin>, coin: Coin, after: seq<Coin>)
    requires Distinct(before + ([coin] + after))
    ensures Distinct(before + after)
    ensures forall c :: c in before + after ==> c.outpoint != coin.outpoint
  {
    var all, rest := before + ([coin] + after), before + after;
    assert all[|before|] == coin;
    forall i | 0 <= i < |rest| ensures rest[i].outpoint != coin.outpoint {
      assert rest[i] == all[if i < |before| then i else i + 1];
    }
    forall i, j | 0 <= i < j < |rest| ensures rest[i].outpoint != rest[j].outpoint {
      assert rest[i] == all[if i < |before| then i else i + 1];
      assert rest[j] == all[if j < |before| then j else j + 1];
    }
  }

  /** Cuts a list of coins at one of its members. */
  lemma CutAt(coins: seq<Coin>, coin: Coin) returns (before: seq<Coin>, after: seq<Coin>)
    requires coin in coins
    ensures coins == before + ([coin] + after)
  {
    var i :| 0 <= i < |coins| && coins[i] == coin;
    before, after := coins[..i], coins[i + 1..];
  }

  lemma OutpointsHead(coins: seq<Coin>)
    requires coins != []
    ensures OutpointsOf(coins) == OutpointsOf(coins[1..]) + {coins[0].outpoint}
  {
    assert coins == [coins[0]] + coins[1..];
  }

  lemma OneLess(before: seq<Coin>, after: seq<Coin>, all: seq<Coin>, chosen: seq<Coin>)
    requires chosen != [] && multiset(chosen) <= multiset(all)
    requires multiset(before + after) == multiset(all) - multiset{chosen[0]}
    ensures multiset(chosen[1..]) <= multiset(before + after)
  {
    TailMultiset(chosen);
  }

  lemma SpendOneMore(before: seq<Coin>, coin: Coin, after: seq<Coin>, spent: set<Outpoint>)
    requires forall c :: c in before + after ==> c.outpoint != coin.outpoint
    ensures Worth(Without(before + ([coin] + after), spent + {coin.outpoint})) == Worth(Without(before + after, spent))
    ensures Worth(before + ([coin] + after)) == Worth(before + after) + coin.amount
  {
    SkipOne(before, coin, after, spent);
    WorthOfThree(before, coin, after);
  }

  /** Among distinct coins, a choice `chosen` of them and the rest make up the whole. */
  lemma {:induction false} SpentAndKept(coins: seq<Coin>, chosen: seq<Coin>)
    requires Distinct(coins) && multiset(chosen) <= multiset(coins)
    ensures Worth(Without(coins, OutpointsOf(chosen))) + Worth(chosen) == Worth(coins)
    decreases chosen
  {
    if chosen == [] {
      assert OutpointsOf(chosen) == {};
      WithoutNothing(coins, {});
    } else {
      MemberOf(chosen[0], chosen, coins);
      var before, after := CutAt(coins, chosen[0]);
      CutDistinct(before, chosen[0], after);
      CutMultiset(before, chosen[0], after);
      OneLess(before, after, coins, chosen);
      SpentAndKept(before + after, chosen[1..]);
      OutpointsHead(chosen);
      SpendOneMore(before, chosen[0], after, OutpointsOf(chosen[1..]));
    }
  }

  lemma {:induction false} WithoutNothing(coins: seq<Coin>, spent: set<Outpoint>)
    requires forall c :: c in coins ==> c.outpoint !in spent
    ensures Without(coins, spent) == coins
  {
    if coins != [] {
      WithoutNothing(coins[1..], spent);
    }
  }

  lemma {:induction false} WithoutConcat(a: seq<Coin>, b: seq<Coin>, spent: set<Outpoint>)
    ensures Without(a + b, spent) == Without(a, spent) + Without(b, spent)
  {
    if a == [] {
      assert a + b == b;
    } else {
      var head := if a[0].outpoint in spent then [] else [a[0]];
      WithoutConcat(a[1..], b, spent);
      assert (a + b)[1..] == a[1..] + b;
      ConcatAssociates(head, Without(a[1..], spent), Without(b, spent));
    }
  }

  lemma WithoutHead(coin: Coin, after: seq<Coin>, spent: set<Outpoint>)
    requires coin.outpoint in spent
    ensures Without([coin] + after, spent) == Without(after, spent)
  {
    assert ([coin] + after)[1..] == after;
  }

  /** Removing the outpoint of one coin, shared by no other, removes that coin. */
  lemma SkipOne(before: seq<Coin>, coin: Coin, after: seq<Coin>, spent: set<Outpoint>)
    requires forall c :: c in before + after ==> c.outpoint != coin.outpoint
    ensures Without(before + ([coin] + after), spent + {coin.outpoint}) == Without(before + after, spent)
  {
    var all := spent + {coin.outpoint};
    WithoutConcat(before, [coin] + after, all);
    WithoutHead(coin, after, all);
    WithoutConcat(before, after, all);
    WithoutMore(before + after, spent, coin.outpoint);
  }

  lemma {:induction false} WithoutMore(coins: seq<Coin>, spent: set<Outpoint>, o: Outpoint)
    requires forall c :: c in coins ==> c.outpoint != o
    ensures Without(coins, spent + {o}) == Without(coins, spent)
  {
    if coins != [] {
      WithoutMore(coins[1..], spent, o);
    }
  }

  lemma {:induction false} WithoutMembers(coins: seq<Coin>, spent: set<Outpoint>)
    ensures forall c :: c in Without(coins, spent) <==> c in coins && c.outpoint !in spent
    ensures Distinct(coins) ==> Distinct(Without(coins, spent))
  {
    if coins != [] {
      WithoutMembers(coins[1..], spent);
    }
  }

  // ---- what a pair of transactions does to a wallet ----

  /** What a transaction leaves to the network. */
  function Left(built: Built): int { Worth(built.inputs) - TotalOut(built.outputs) }

  /** Outputs of a draft: its destinations, and at most one change to the wallet's own script. */
  predicate WithChange(outputs: seq<TxOutput>, dest: seq<TxOutput>, payTo: ScriptPublicKey) {
    outputs == dest
    || (|outputs| == |dest| + 1 && outputs[..|dest|] == dest
        && outputs[|dest|] == TxOutput(outputs[|dest|].value, payTo, NoCovenant) && outputs[|dest|].value > 0)
  }

  lemma DraftFits(f: Funds)
    requires Drafted(f).Success?
    ensures Paid(f, Drafted(f).value) >= 0 && WithChange(Drafted(f).value.outputs, f.dest, f.changeSpk)
  {
    RoundsAreSafe(f, ROUNDS, 0, 0);
    DraftPays(f, ROUNDS, 0, 0);
  }

  /** What a lock is made of: coins of the wallet, and a draft that fits them. */
  lemma LockParts(wallet: Wallet, contract: ScriptPublicKey, amount: u64, funding: seq<Coin>)
    requires LockResult(wallet, contract, amount, funding).Success?
    ensures var (lock, dest) := (LockResult(wallet, contract, amount, funding).value, [TxOutput(amount, contract, NoCovenant)]);
            multiset(lock.inputs) <= multiset(funding) && TotalOut(lock.outputs) <= Sum64(lock.inputs)
            && WithChange(lock.outputs, dest, wallet.payTo) && wallet.scriptsValid(lock)
            && (amount + 10_000 <= U64_MAX ==> Worth(lock.inputs) >= amount + 10_000)
  {
    var lock := LockResult(wallet, contract, amount, funding).value;
    var dest := [TxOutput(amount, contract, NoCovenant)];
    SelectionReaches(funding, SaturatingAdd(amount, FEE_RESERVE));
    DraftFits(FundingFunds(wallet.rules(lock.inputs), Sum64(lock.inputs), dest, wallet.payTo));
  }

  /** The lock spends selected coins, pays the contract first, and returns at most one change. */
  lemma LockKeepsValue(wallet: Wallet, contract: ScriptPublicKey, amount: u64, funding: seq<Coin>)
    requires Distinct(funding)
    ensures LockResult(wallet, contract, amount, funding).Success? ==>
              var lock := LockResult(wallet, contract, amount, funding).value;
              multiset(lock.inputs) <= multiset(funding) && Left(lock) >= 0
              && 1 <= |lock.outputs| <= 2 && lock.outputs[0] == TxOutput(amount, contract, NoCovenant)
              && Worth(FeeFunding(wallet, lock, funding)) + amount + Left(lock) == Worth(funding)
  {
    if LockResult(wallet, contract, amount, funding).Success? {
      var lock := LockResult(wallet, contract, amount, funding).value;
      var dest := [TxOutput(amount, contract, NoCovenant)];
      LockParts(wallet, contract, amount, funding);
      SpentAndKept(funding, lock.inputs);
      WorthConcat(Without(funding, OutpointsOf(lock.inputs)), LockChange(wallet.id(lock), lock));
      LockOutputs(wallet.id(lock), lock, dest);
    }
  }

  lemma LockOutputs(id: nat, lock: Built, dest: seq<TxOutput>)
    requires |dest| == 1
    requires lock.outputs == dest || (|lock.outputs| == 2 && lock.outputs[..1] == dest)
    ensures lock.outputs[0] == dest[0] && TotalOut(dest) == dest[0].value
    ensures TotalOut(lock.outputs) == dest[0].value + Worth(LockChange(id, lock))
  {
    assert dest[1..] == [];
    if |lock.outputs| == 2 {
      assert lock.outputs[0] == lock.outputs[..1][0];
      assert lock.outputs[1..][1..] == [];
      var change := LockChange(id, lock);
      assert change[1..] == [];
    }
  }

  lemma FirstOutput(outputs: seq<TxOutput>, only: TxOutput)
    requires outputs == [only] || (|outputs| == 2 && outputs[..1] == [only])
    ensures outputs != [] && outputs[..1] == [only] && TotalOut([only]) == only.value
  {
    assert [only][1..] == [];
  }

  /** Spending the lock keeps value and pays the wallet the whole locked amount first. */
  lemma SpendKeepsValue(wallet: Wallet, locked: Coin, funding: seq<Coin>)
    ensures SpendResult(wallet, locked, funding).Success? ==>
              var spend := SpendResult(wallet, locked, funding).value;
              spend.inputs != [] && spend.inputs[0] == locked && multiset(spend.inputs[1..]) <= multiset(funding)
              && Left(spend) >= 0 && spend.outputs != []
              && spend.outputs[..1] == [TxOutput(locked.amount, wallet.payTo, NoCovenant)]
              && WithChange(spend.outputs, [TxOutput(locked.amount, wallet.payTo, NoCovenant)], wallet.payTo)
              && wallet.scriptsValid(spend) && Worth(spend.inputs[1..]) >= 10_000
  {
    if SpendResult(wallet, locked, funding).Success? {
      var spend := SpendResult(wallet, locked, funding).value;
      SelectionReaches(funding, FEE_RESERVE);
      var selected := Selection(funding, FEE_RESERVE).value;
      var first := TxOutput(locked.amount, wallet.payTo, NoCovenant);
      DraftFits(SpendFunds(wallet.rules(spend.inputs), Sum64(selected), first, wallet.payTo));
      FirstOutput(spend.outputs, first);
      WorthConcat([locked], selected);
      WorthOfOne(locked);
      assert spend.inputs[1..] == selected;
    }
  }

  /** The id of the lock is not the id of any transaction the wallet's coins came from. */
  predicate FreshId(id: nat, utxos: seq<Coin>) { forall c :: c in utxos ==> c.outpoint.txid != id }

  /** Every coin a run may still spend once its lock is in the ledger: what the lock left of the
      wallet's coins, the lock's change and the locked output itself. */
  function AfterLock(wallet: Wallet, pair: Pair, amount: u64, funding: seq<Coin>): seq<Coin> {
    [Locked(wallet, pair.lock, amount)] + FeeFunding(wallet, pair.lock, funding)
  }

  lemma AfterLockIsDistinct(wallet: Wallet, pair: Pair, amount: u64, funding: seq<Coin>)
    requires Distinct(funding) && FreshId(wallet.id(pair.lock), funding)
    ensures Distinct(AfterLock(wallet, pair, amount, funding))
  {
    WithoutMembers(funding, OutpointsOf(pair.lock.inputs));
  }

  /** No outpoint is spent twice: not within either transaction, and not by both. */
  predicate SpendsOnce(pair: Pair) {
    Distinct(pair.lock.inputs) && Distinct(pair.spend.inputs)
    && OutpointsOf(pair.lock.inputs) !! OutpointsOf(pair.spend.inputs)
  }

  lemma {:induction false} ChosenAreDistinct(coins: seq<Coin>, chosen: seq<Coin>)
    requires Distinct(coins) && multiset(chosen) <= multiset(coins)
    ensures Distinct(chosen)
    decreases chosen
  {
    if chosen != [] {
      TailMultiset(chosen);
      ChosenAreDistinct(coins, chosen[1..]);
      forall j | 0 < j < |chosen| ensures chosen[0].outpoint != chosen[j].outpoint {
        assert chosen[j] == chosen[1..][j - 1] && chosen[j] in multiset(chosen[1..]);
        assert chosen[0] in multiset(chosen) && chosen[j] in multiset(coins) && chosen[0] in multiset(coins);
        if chosen[0] == chosen[j] {
          assert multiset(coins)[chosen[0]] >= 2;
          TwiceIsNotDistinct(coins, chosen[0]);
        }
      }
    }
  }

  lemma {:induction false} TwiceIsNotDistinct(coins: seq<Coin>, coin: Coin)
    requires multiset(coins)[coin] >= 2
    ensures !Distinct(coins)
  {
    TailMultiset(coins);
    if coins[0] == coin {
      assert coin in multiset(coins[1..]);
      var j :| 0 <= j < |coins[1..]| && coins[1..][j] == coin;
      assert coins[j + 1].outpoint == coins[0].outpoint;
    } else {
      TwiceIsNotDistinct(coins[1..], coin);
      var i, j :| 0 <= i < j < |coins[1..]| && coins[1..][i].outpoint == coins[1..][j].outpoint;
      assert coins[i + 1].outpoint == coins[j + 1].outpoint;
    }
  }

  predicate PaysInOrder(wallet: Wallet, contract: ScriptPublicKey, amount: u64, pair: Pair) {
    pair.lock.outputs != [] && pair.lock.outputs[0] == TxOutput(amount, contract, NoCovenant)
    && pair.spend.inputs != [] && pair.spend.inputs[0] == Locked(wallet, pair.lock, amount)
    && pair.spend.outputs != [] && pair.spend.outputs[0] == TxOutput(amount, wallet.payTo, NoCovenant)
  }

  /** The lock spends the wallet's coins; the spend spends what there is once the lock is in. */
  predicate SpendsOwnCoins(wallet: Wallet, amount: u64, pair: Pair, funding: seq<Coin>) {
    multiset(pair.lock.inputs) <= multiset(funding)
    && multiset(pair.spend.inputs) <= multiset(AfterLock(wallet, pair, amount, funding))
  }

  /** Both transactions leave something or nothing to the network, and what remains of the wallet's
      coins, the outputs of the spend and what was left to the network add up to what was there. */
  predicate CreatesNoValue(wallet: Wallet, amount: u64, pair: Pair, funding: seq<Coin>) {
    Left(pair.lock) >= 0 && Left(pair.spend) >= 0
    && Worth(Without(AfterLock(wallet, pair, amount, funding), OutpointsOf(pair.spend.inputs)))
       + TotalOut(pair.spend.outputs) + Left(pair.lock) + Left(pair.spend) == Worth(funding)
  }

  lemma RunParts(wallet: Wallet, contract: ScriptPublicKey, amount: u64, utxos: seq<Coin>)
    requires Distinct(utxos)
    requires RunResult(wallet, contract, amount, utxos).Success?
    ensures var pair, funding := RunResult(wallet, contract, amount, utxos).value, NotCoinbase(utxos);
            Distinct(funding) && (forall c :: c in funding ==> c in utxos && !c.isCoinbase)
            && LockResult(wallet, contract, amount, funding) == Success(pair.lock)
            && SpendResult(wallet, Locked(wallet, pair.lock, amount), FeeFunding(wallet, pair.lock, funding)) == Success(pair.spend)
  {
    NotCoinbaseKeeps(utxos);
  }

  lemma PairKeepsValue(after: seq<Coin>, locked: Coin, fees: seq<Coin>, spend: Built)
    requires after == [locked] + fees && Distinct(after)
    requires spend.inputs != [] && spend.inputs[0] == locked && multiset(spend.inputs[1..]) <= multiset(fees)
    ensures multiset(spend.inputs) <= multiset(after) && Distinct(spend.inputs)
    ensures Worth(Without(after, OutpointsOf(spend.inputs))) + TotalOut(spend.outputs) + Left(spend)
            == locked.amount + Worth(fees)
  {
    assert spend.inputs == [locked] + spend.inputs[1..];
    ChosenAreDistinct(after, spend.inputs);
    SpentAndKept(after, spend.inputs);
    WorthConcat([locked], fees);
    WorthOfOne(locked);
  }

  /** The lock-then-spend pair: it spends no outpoint twice; the spend takes the lock output first and
      otherwise only the lock's change and coins the lock left alone; coinbase coins stay untouched;
      and what the wallet and the network hold afterwards is exactly what the wallet held before. */
  lemma RunIsSound(wallet: Wallet, contract: ScriptPublicKey, amount: u64, utxos: seq<Coin>)
    requires Distinct(utxos)
    requires RunResult(wallet, contract, amount, utxos).Success?
    requires FreshId(wallet.id(RunResult(wallet, contract, amount, utxos).value.lock), utxos)
    ensures var pair, funding := RunResult(wallet, contract, amount, utxos).value, NotCoinbase(utxos);
            (forall c :: c in funding ==> c in utxos && !c.isCoinbase)
            && SpendsOnce(pair) && PaysInOrder(wallet, contract, amount, pair)
            && SpendsOwnCoins(wallet, amount, pair, funding) && CreatesNoValue(wallet, amount, pair, funding)
  {
    var pair := RunResult(wallet, contract, amount, utxos).value;
    var funding := NotCoinbase(utxos);
    RunParts(wallet, contract, amount, utxos);
    LockKeepsValue(wallet, contract, amount, funding);
    var locked, fees := Locked(wallet, pair.lock, amount), FeeFunding(wallet, pair.lock, funding);
    SpendKeepsValue(wallet, locked, fees);
    AfterLockIsDistinct(wallet, pair, amount, funding);
    ChosenAreDistinct(funding, pair.lock.inputs);
    PairKeepsValue(AfterLock(wallet, pair, amount, funding), locked, fees, pair.spend);
    SpendAvoidsLock(wallet, pair, amount, funding);
    assert pair.spend.outputs[0] == pair.spend.outputs[..1][0];
  }

  // ---- the pair, outpoint by outpoint ----

  /** A coin stands for an output of the transaction with the given id. */
  predicate StandsFor(coin: Coin, id: nat, outputs: seq<TxOutput>) {
    coin.outpoint.txid == id && coin.outpoint.index < |outputs|
    && coin.amount == outputs[coin.outpoint.index].value && !coin.isCoinbase
  }

  /** The lock pays the contract first, and nothing else but change to the wallet. */
  predicate Locks(wallet: Wallet, contract: ScriptPublicKey, amount: u64, lock: Built) {
    amount > 0 && wallet.scriptsValid(lock) && WithChange(lock.outputs, [TxOutput(amount, contract, NoCovenant)], wallet.payTo)
    && (amount + 10_000 <= U64_MAX ==> Worth(lock.inputs) >= amount + 10_000)
  }

  /** The spend takes the output that pays the contract; what it takes besides is worth the reserve
      for fees and is either the lock's change, which pays the wallet, or a coin of the wallet
      that the lock does not take. It pays the wallet only. */
  predicate SpendsLock(wallet: Wallet, amount: u64, pair: Pair, utxos: seq<Coin>) {
    var (id, inputs, outputs) := (wallet.id(pair.lock), pair.spend.inputs, pair.lock.outputs);
    wallet.scriptsValid(pair.spend)
    && WithChange(pair.spend.outputs, [TxOutput(amount, wallet.payTo, NoCovenant)], wallet.payTo)
    && inputs != [] && StandsFor(inputs[0], id, outputs) && inputs[0].outpoint.index == 0
    && Worth(inputs[1..]) >= 10_000
    && forall c :: c in inputs[1..] ==> PaysFees(wallet.payTo, id, pair.lock, utxos, c)
  }

  /** Output 1 of the lock, which pays the wallet, or a coin of the wallet that the lock does not take. */
  predicate PaysFees(payTo: ScriptPublicKey, id: nat, lock: Built, utxos: seq<Coin>, c: Coin) {
    (StandsFor(c, id, lock.outputs) && c.outpoint.index == 1 && lock.outputs[1].spk == payTo)
    || (c in utxos && !c.isCoinbase && c.outpoint.txid != id && forall d :: d in lock.inputs ==> d.outpoint != c.outpoint)
  }

  lemma FeeCoin(wallet: Wallet, lock: Built, amount: u64, contract: ScriptPublicKey, funding: seq<Coin>, utxos: seq<Coin>, c: Coin)
    requires WithChange(lock.outputs, [TxOutput(amount, contract, NoCovenant)], wallet.payTo)
    requires (forall c :: c in funding ==> c in utxos && !c.isCoinbase) && FreshId(wallet.id(lock), utxos)
    requires c in FeeFunding(wallet, lock, funding)
    ensures PaysFees(wallet.payTo, wallet.id(lock), lock, utxos, c)
  {
    WithoutMembers(funding, OutpointsOf(lock.inputs));
    if c !in Without(funding, OutpointsOf(lock.inputs)) {
      assert c in LockChange(wallet.id(lock), lock);
    } else {
      forall d | d in lock.inputs ensures d.outpoint != c.outpoint { assert d.outpoint in OutpointsOf(lock.inputs); }
    }
  }

  lemma FeeCoins(wallet: Wallet, lock: Built, amount: u64, contract: ScriptPublicKey, funding: seq<Coin>, utxos: seq<Coin>,
                 fees: seq<Coin>, chosen: seq<Coin>)
    requires WithChange(lock.outputs, [TxOutput(amount, contract, NoCovenant)], wallet.payTo)
    requires (forall c :: c in funding ==> c in utxos && !c.isCoinbase) && FreshId(wallet.id(lock), utxos)
    requires Same(fees, FeeFunding(wallet, lock, funding)) && multiset(chosen) <= multiset(fees)
    ensures forall c :: c in chosen ==> PaysFees(wallet.payTo, wallet.id(lock), lock, utxos, c)
  {
    forall c | c in chosen ensures PaysFees(wallet.payTo, wallet.id(lock), lock, utxos, c) {
      MemberOf(c, chosen, fees);
      FeeCoin(wallet, lock, amount, contract, funding, utxos, c);
    }
  }

  lemma PairSpendsTheLock(wallet: Wallet, contract: ScriptPublicKey, amount: u64, pair: Pair, funding: seq<Coin>, utxos: seq<Coin>, fees: seq<Coin>)
    requires (forall c :: c in funding ==> c in utxos && !c.isCoinbase) && FreshId(wallet.id(pair.lock), utxos)
    requires Locks(wallet, contract, amount, pair.lock) && Same(fees, FeeFunding(wallet, pair.lock, funding))
    requires SpendResult(wallet, Coin(Outpoint(wallet.id(pair.lock), 0), amount, false), fees) == Success(pair.spend)
    ensures SpendsLock(wallet, amount, pair, utxos)
  {
    SpendKeepsValue(wallet, Coin(Outpoint(wallet.id(pair.lock), 0), amount, false), fees);
    FeeCoins(wallet, pair.lock, amount, contract, funding, utxos, fees, pair.spend.inputs[1..]);
  }

  lemma OwnOutputs(wallet: Wallet, amount: u64, pair: Pair, utxos: seq<Coin>)
    requires SpendsLock(wallet, amount, pair, utxos)
    ensures forall c :: c in pair.spend.inputs && c.outpoint.txid == wallet.id(pair.lock) ==> StandsFor(c, wallet.id(pair.lock), pair.lock.outputs)
  {
    assert pair.spend.inputs == [pair.spend.inputs[0]] + pair.spend.inputs[1..];
  }

  /** Every input of the spend with the lock's id is one of the lock's own outputs with its amount:
      first the one that pays the contract, then none but its change. */
  lemma RunSpendsTheLock(wallet: Wallet, contract: ScriptPublicKey, amount: u64, utxos: seq<Coin>)
    requires Distinct(utxos)
    requires RunResult(wallet, contract, amount, utxos).Success?
    requires FreshId(wallet.id(RunResult(wallet, contract, amount, utxos).value.lock), utxos)
    ensures var pair := RunResult(wallet, contract, amount, utxos).value;
            Locks(wallet, contract, amount, pair.lock) && SpendsLock(wallet, amount, pair, utxos)
            && forall c :: c in pair.spend.inputs && c.outpoint.txid == wallet.id(pair.lock) ==> StandsFor(c, wallet.id(pair.lock), pair.lock.outputs)
  {
    var pair, funding := RunResult(wallet, contract, amount, utxos).value, NotCoinbase(utxos);
    RunParts(wallet, contract, amount, utxos);
    LockParts(wallet, contract, amount, funding);
    PairSpendsTheLock(wallet, contract, amount, pair, funding, utxos, FeeFunding(wallet, pair.lock, funding));
    OwnOutputs(wallet, amount, pair, utxos);
  }

  lemma MemberOf(coin: Coin, some: seq<Coin>, all: seq<Coin>)
    requires multiset(some) <= multiset(all) && coin in some
    ensures coin in all
  {
    assert coin in multiset(some) && coin in multiset(all);
  }

  lemma SpendAvoidsLock(wallet: Wallet, pair: Pair, amount: u64, funding: seq<Coin>)
    requires FreshId(wallet.id(pair.lock), funding) && multiset(pair.lock.inputs) <= multiset(funding)
    requires multiset(pair.spend.inputs) <= multiset(AfterLock(wallet, pair, amount, funding))
    ensures OutpointsOf(pair.lock.inputs) !! OutpointsOf(pair.spend.inputs)
  {
    WithoutMembers(funding, OutpointsOf(pair.lock.inputs));
    forall c, d | c in pair.spend.inputs && d in pair.lock.inputs ensures d.outpoint != c.outpoint {
      MemberOf(d, pair.lock.inputs, funding);
      MemberOf(c, pair.spend.inputs, AfterLock(wallet, pair, amount, funding));
    }
  }
}
