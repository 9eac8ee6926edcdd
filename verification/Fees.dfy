/** The bounded fee and change loops of the transaction builder (sdk/src/testnet.rs). */
module Fees {
  import opened Wrappers
  import opened ScriptNumbers
  import opened Syntax
  import opened Engine
  import opened Plan
  import opened Funding

  /** What the wallet library decides: the mass of a transaction with given outputs, which change is
      dust, and the least fee for a mass. */
  datatype FeeRules = FeeRules(
    massOf: seq<TxOutput> -> Option<nat>, isDust: u64 -> bool, minFee: nat -> u64, maxMass: nat)
  {
    predicate Shown(change: u64) { change > 0 && !isDust(change) }
  }

  datatype Draft = Draft(outputs: seq<TxOutput>, mass: nat, fee: u64)

  /** What a loop has to work with: destinations, the amount `have` it may spend, and how much of that
      is `fixed` for destinations; the rest is for fee and change, which goes to `changeSpk`. */
  datatype Funds = Funds(rules: FeeRules, dest: seq<TxOutput>, have: u64, fixed: u64, changeSpk: ScriptPublicKey)
  {
    function ChangeOutput(change: u64): TxOutput { TxOutput(change, changeSpk, NoCovenant) }

    /** The outputs of a round: change appears only when it is worth an output. */
    function Outputs(change: u64): seq<TxOutput> {
      if rules.Shown(change) then dest + [ChangeOutput(change)] else dest
    }

    /** What a fee leaves for change; the sum that is subtracted saturates at 64 bits. */
    function Change(fee: u64): int { have - SaturatingAdd(fixed, fee) }
  }

  function Round(f: Funds, change: u64): Result<(Draft, u64), FundingError> {
    var outputs := f.Outputs(change);
    var mass := f.rules.massOf(outputs);
    if mass.None? then Failure(MassFailed)
    else if mass.value > f.rules.maxMass then Failure(MassTooLarge)
    else
      var fee := f.rules.minFee(mass.value);
      if f.Change(fee) < 0 then Failure(InsufficientFunds(SaturatingAdd(f.fixed, fee), f.have))
      else Success((Draft(outputs, mass.value, fee), f.Change(fee)))
  }

  /** Rounds until fee and change repeat, or until none are left: the last draft, and whether the loop
      stopped because they repeated. */
  function Rounds(f: Funds, rounds: nat, fee: u64, change: u64): Result<(Draft, bool), FundingError>
    requires rounds > 0
    decreases rounds
  {
    var (draft, next) :- Round(f, change);
    if draft.fee == fee && next == change then Success((draft, true))
    else if rounds == 1 then Success((draft, false))
    else Rounds(f, rounds - 1, draft.fee, next)
  }

  const ROUNDS := 10

  /** The draft the ten rounds leave. */
  function Drafted(f: Funds): Result<Draft, FundingError> {
    match Rounds(f, ROUNDS, 0, 0)
    case Success(done) => Success(done.0)
    case Failure(error) => Failure(error)
  }

  function FundingFunds(rules: FeeRules, totalIn: u64, dest: seq<TxOutput>, changeSpk: ScriptPublicKey): Funds
    requires TotalOut(dest) <= U64_MAX
  {
    Funds(rules, dest, totalIn, TotalOut(dest), changeSpk)
  }

  function SpendFunds(rules: FeeRules, fundingTotal: u64, outputZero: TxOutput, changeSpk: ScriptPublicKey): Funds {
    Funds(rules, [outputZero], fundingTotal, 0, changeSpk)
  }

  /** The funding loop: destinations and fee must fit the selected inputs. */
  method BuildFundingDraft(rules: FeeRules, totalIn: u64, dest: seq<TxOutput>, changeSpk: ScriptPublicKey)
    returns (r: Result<Draft, FundingError>)
    requires TotalOut(dest) <= U64_MAX
    ensures r == Drafted(FundingFunds(rules, totalIn, dest, changeSpk))
  {
    var total := CheckedTotalOut(dest);
    if total.None? { return Failure(MassFailed); }
    var fee: u64, change: u64, final: Option<Draft> := 0, 0, None;
    ghost var f := FundingFunds(rules, totalIn, dest, changeSpk);
    for i := 0 to 10
      invariant i > 0 ==> final.Some?
      invariant i < ROUNDS ==> Rounds(f, ROUNDS, 0, 0) == Rounds(f, ROUNDS - i, fee, change)
      invariant i == ROUNDS ==> Rounds(f, ROUNDS, 0, 0) == Success((final.value, false))
    {
      var outputs := dest;
      if change > 0 && !rules.isDust(change) { outputs := outputs + [TxOutput(change, changeSpk, NoCovenant)]; }
      var mass := rules.massOf(outputs);
      if mass.None? { return Failure(MassFailed); }
      if mass.value > rules.maxMass { return Failure(MassTooLarge); }
      var nextFee := rules.minFee(mass.value);
      var needed := SaturatingAdd(total.value, nextFee);
      if totalIn < needed { return Failure(InsufficientFunds(needed, totalIn)); }
      var nextChange: u64 := totalIn - needed;
      final := Some(Draft(outputs, mass.value, nextFee));
      if nextFee == fee && nextChange == change { return Success(final.value); }
      fee := nextFee;
      change := nextChange;
    }
    return Success(final.value);
  }

  /** The spending loop: the locked amount goes to the first output, extra inputs pay the fee. */
  method BuildSpendDraft(rules: FeeRules, fundingTotal: u64, outputZero: TxOutput, changeSpk: ScriptPublicKey)
    returns (r: Result<Draft, FundingError>)
    ensures r == Drafted(SpendFunds(rules, fundingTotal, outputZero, changeSpk))
  {
    var fee: u64, change: u64, final: Option<Draft> := 0, 0, None;
    ghost var f := SpendFunds(rules, fundingTotal, outputZero, changeSpk);
    for i := 0 to 10
      invariant i > 0 ==> final.Some?
      invariant i < ROUNDS ==> Rounds(f, ROUNDS, 0, 0) == Rounds(f, ROUNDS - i, fee, change)
      invariant i == ROUNDS ==> Rounds(f, ROUNDS, 0, 0) == Success((final.value, false))
    {
      var outputs := [outputZero];
      if change > 0 && !rules.isDust(change) { outputs := outputs + [TxOutput(change, changeSpk, NoCovenant)]; }
      var mass := rules.massOf(outputs);
      if mass.None? { return Failure(MassFailed); }
      if mass.value > rules.maxMass { return Failure(MassTooLarge); }
      var nextFee := rules.minFee(mass.value);
      if fundingTotal < nextFee { return Failure(InsufficientFunds(nextFee, fundingTotal)); }
      var nextChange: u64 := fundingTotal - nextFee;
      final := Some(Draft(outputs, mass.value, nextFee));
      if nextFee == fee && nextChange == change { return Success(final.value); }
      fee := nextFee;
      change := nextChange;
    }
    return Success(final.value);
  }

  // ---- what a loop returns, however it ends ----

  lemma {:induction false} TotalOutAppend(outputs: seq<TxOutput>, last: TxOutput)
    ensures TotalOut(outputs + [last]) == TotalOut(outputs) + last.value
  {
    if outputs == [] {
      assert outputs + [last] == [last] && [last][1..] == [];
    } else {
      TotalOutAppend(outputs[1..], last);
      assert (outputs + [last])[1..] == outputs[1..] + [last];
    }
  }

  /** A state the loop can be in before a round. */
  predicate LoopState(f: Funds, fee: u64, change: u64) {
    (fee == 0 && change == 0) || change == f.Change(fee)
  }

  /** What the transaction leaves to the network. */
  function Paid(f: Funds, draft: Draft): int { TotalOut(f.dest) + (f.have - f.fixed) - TotalOut(draft.outputs) }

  /** Destinations and fee together fit 64 bits. */
  predicate SumFits(f: Funds, fee: u64) { f.fixed + fee <= U64_MAX }

  /** However the rounds end: outputs never exceed inputs, the reported fee is the least for the
      draft's own mass, and a draft that stopped at a fixed point pays exactly that fee plus a change
      too small to show, if and only if destinations and fee together fit 64 bits. */
  lemma {:induction false} RoundsAreSafe(f: Funds, rounds: nat, fee: u64, change: u64)
    requires rounds > 0 && LoopState(f, fee, change) && Rounds(f, rounds, fee, change).Success?
    ensures var (draft, stopped) := Rounds(f, rounds, fee, change).value;
            Paid(f, draft) >= 0 && f.rules.massOf(draft.outputs) == Some(draft.mass)
            && draft.mass <= f.rules.maxMass && draft.fee == f.rules.minFee(draft.mass)
            && (stopped ==> var dropped := Paid(f, draft) - draft.fee;
                            (SumFits(f, draft.fee) <==> dropped >= 0)
                            && (dropped > 0 ==> dropped <= U64_MAX && f.rules.isDust(dropped) && draft.outputs == f.dest))
    decreases rounds
  {
    var (draft, next) := Round(f, change).value;
    TotalOutAppend(f.dest, f.ChangeOutput(change));
    if !(draft.fee == fee && next == change) && rounds > 1 {
      RoundsAreSafe(f, rounds - 1, draft.fee, next);
    }
  }

  /** A draft pays its destinations, and besides them at most one change: an amount that is not dust, to the
      wallet's own script. */
  lemma {:induction false} DraftPays(f: Funds, rounds: nat, fee: u64, change: u64)
    requires rounds > 0 && Rounds(f, rounds, fee, change).Success?
    ensures var outputs := Rounds(f, rounds, fee, change).value.0.outputs;
            outputs == f.dest
            || exists c: u64 :: c > 0 && !f.rules.isDust(c) && outputs == f.dest + [TxOutput(c, f.changeSpk, NoCovenant)]
    decreases rounds
  {
    var (draft, next) := Round(f, change).value;
    if !(draft.fee == fee && next == change) && rounds > 1 {
      DraftPays(f, rounds - 1, draft.fee, next);
    }
  }

  // ---- when the loop settles ----

  /** A round with this change has a transaction of standard mass, whose fee is `fee`. */
  ghost predicate FeeOf(f: Funds, change: u64, fee: u64) {
    var mass := f.rules.massOf(f.Outputs(change));
    mass.Some? && mass.value <= f.rules.maxMass && f.rules.minFee(mass.value) == fee
  }

  /** The funds cover either fee, and in the three rounds the loop can come to (no change yet, what fee
      `f0` leaves, what fee `f1` leaves) the fee is `f1` with a change output and `f0` without one. */
  ghost predicate FeesByShape(f: Funds, f0: u64, f1: u64) {
    f.fixed + f0 <= f.have && f.fixed + f1 <= f.have
    && FeeOf(f, 0, f0)
    && FeeOf(f, f.Change(f0), if f.rules.Shown(f.Change(f0)) then f1 else f0)
    && FeeOf(f, f.Change(f1), if f.rules.Shown(f.Change(f1)) then f1 else f0)
  }

  /** Change that shows after the fee without change but not after the fee with it. */
  predicate Wavers(f: Funds, f0: u64, f1: u64)
    requires f.fixed + f0 <= f.have && f.fixed + f1 <= f.have
  {
    f.rules.Shown(f.Change(f0)) && !f.rules.Shown(f.Change(f1))
  }

  lemma RoundOfFee(f: Funds, change: u64, fee: u64)
    requires FeeOf(f, change, fee) && f.fixed + fee <= f.have
    ensures Round(f, change).Success? && Round(f, change).value.0.fee == fee && Round(f, change).value.1 == f.Change(fee)
            && Round(f, change).value.0.outputs == f.Outputs(change)
  {
  }

  lemma ThreeRounds(f: Funds, f0: u64, f1: u64)
    requires FeesByShape(f, f0, f1)
    ensures Round(f, 0).Success? && Round(f, 0).value.0.fee == f0 && Round(f, 0).value.1 == f.Change(f0)
    ensures var c := f.Change(f0); var fee := if f.rules.Shown(c) then f1 else f0;
            Round(f, c).Success? && Round(f, c).value.0.fee == fee && Round(f, c).value.1 == f.Change(fee)
            && Round(f, c).value.0.outputs == f.Outputs(c)
    ensures var c := f.Change(f1); var fee := if f.rules.Shown(c) then f1 else f0;
            Round(f, c).Success? && Round(f, c).value.0.fee == fee && Round(f, c).value.1 == f.Change(fee)
  {
    RoundOfFee(f, 0, f0);
    RoundOfFee(f, f.Change(f0), if f.rules.Shown(f.Change(f0)) then f1 else f0);
    RoundOfFee(f, f.Change(f1), if f.rules.Shown(f.Change(f1)) then f1 else f0);
  }

  /** The loop stops within three rounds exactly when the change does not waver. */
  lemma SettlesInThree(f: Funds, f0: u64, f1: u64)
    requires FeesByShape(f, f0, f1)
    ensures Rounds(f, 3, 0, 0).Success? && (Rounds(f, 3, 0, 0).value.1 <==> !Wavers(f, f0, f1))
  {
    var c0, c1 := f.Change(f0), f.Change(f1);
    ThreeRounds(f, f0, f1);
    if !(f0 == 0 && c0 == 0) {
      var second := Rounds(f, 2, f0, c0);
      assert Rounds(f, 3, 0, 0) == second;
      if f.rules.Shown(c0) && f1 != f0 {
        assert second == Rounds(f, 1, f1, c1);
      }
    }
  }

  /** Once settled, more rounds change nothing. */
  lemma {:induction false} MoreRounds(f: Funds, rounds: nat, more: nat, fee: u64, change: u64)
    requires 0 < rounds <= more
    requires Rounds(f, rounds, fee, change).Success? && Rounds(f, rounds, fee, change).value.1
    ensures Rounds(f, more, fee, change) == Rounds(f, rounds, fee, change)
    decreases rounds
  {
    var (draft, next) := Round(f, change).value;
    if !(draft.fee == fee && next == change) {
      MoreRounds(f, rounds - 1, more - 1, draft.fee, next);
    }
  }

  /** A wavering change never settles; after an even number of rounds the draft shows the change left
      by one fee, so it pays that fee while it owes the other. */
  lemma {:induction false} WaveringPaysTheOtherFee(f: Funds, f0: u64, f1: u64, pairs: nat, fee: u64, change: u64)
    requires FeesByShape(f, f0, f1) && Wavers(f, f0, f1) && pairs > 0
    requires (fee == 0 && change == 0) || (fee == f1 && change == f.Change(f1))
    ensures Rounds(f, 2 * pairs, fee, change).Success?
    ensures var (draft, stopped) := Rounds(f, 2 * pairs, fee, change).value;
            !stopped && draft.fee == f1 && Paid(f, draft) == f0 && f0 != f1
    decreases pairs
  {
    var c0, c1 := f.Change(f0), f.Change(f1);
    ThreeRounds(f, f0, f1);
    TotalOutAppend(f.dest, f.ChangeOutput(c0));
    assert !f.rules.Shown(change);
    assert Rounds(f, 2 * pairs, fee, change) == Rounds(f, 2 * pairs - 1, f0, c0);
    if pairs > 1 {
      assert Rounds(f, 2 * pairs - 1, f0, c0) == Rounds(f, 2 * (pairs - 1), f1, c1);
      WaveringPaysTheOtherFee(f, f0, f1, pairs - 1, f1, c1);
    }
  }

  /** The ten rounds of the builder: the draft pays its own least fee if and only if the change does
      not waver between two fees of which the one with a change output is larger. */
  lemma TenRoundsPayTheFee(f: Funds, f0: u64, f1: u64)
    requires FeesByShape(f, f0, f1)
    ensures Rounds(f, 10, 0, 0).Success?
    ensures Paid(f, Rounds(f, 10, 0, 0).value.0) >= Rounds(f, 10, 0, 0).value.0.fee <==>
            !(f0 < f1 && Wavers(f, f0, f1))
  {
    if Wavers(f, f0, f1) {
      WaveringPaysTheOtherFee(f, f0, f1, 5, 0, 0);
    } else {
      SettlesInThree(f, f0, f1);
      MoreRounds(f, 3, ROUNDS, 0, 0);
      RoundsAreSafe(f, ROUNDS, 0, 0);
    }
  }

  // ---- funds whose change wavers ----

  /** A mass of 1000 and 500 for each output, a fee of one per mass, and no change below 600. */
  const SIMPLE_RULES := FeeRules(
    (outputs: seq<TxOutput>) => Some(1000 + 500 * |outputs|), (change: u64) => change < 600,
    (mass: nat) => if mass <= U64_MAX then mass else U64_MAX, 100_000)

  /** 12200 for a destination of 10000: 700 after the fee without change, 200 after the fee with it. */
  const WAVERING_FUNDS := Funds(SIMPLE_RULES, [TxOutput(10_000, PayToKey([]), NoCovenant)], 12_200, 10_000, PayToKey([]))

  /** Ten rounds on these funds leave a draft that owes 2000 and pays 1500. */
  lemma WaveringFundsUnderpay()
    ensures FeesByShape(WAVERING_FUNDS, 1500, 2000) && Wavers(WAVERING_FUNDS, 1500, 2000)
    ensures Drafted(WAVERING_FUNDS).Success?
    ensures var draft := Drafted(WAVERING_FUNDS).value; draft.fee == 2000 && Paid(WAVERING_FUNDS, draft) == 1500
  {
    WaveringPaysTheOtherFee(WAVERING_FUNDS, 1500, 2000, 5, 0, 0);
  }
}
