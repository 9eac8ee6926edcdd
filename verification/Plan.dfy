/** Explicit-fee transaction plans (compatibility/toccata-v2/src/lib.rs). */
module Plan {
  import opened Wrappers
  import opened ScriptNumbers
  import opened Syntax
  import opened Engine

  const TN10_NETWORK := "kaspa-testnet-10"

  datatype InputPlan = InputPlan(
    outpoint: Outpoint, utxo: UtxoEntry, computeBudget: nat, sequence: u64, signatureScript: Bytes)

  datatype Tn10Plan = Tn10Plan(
    network: string, inputs: seq<InputPlan>, outputs: seq<TxOutput>, lockTime: u64, storageMass: nat, expectedFee: u64)

  datatype PlanError = WrongNetwork | EmptyPlan | DuplicateInput | Overflow | FeeMismatch | BadCovenant

  /** A built transaction with the entries it spends and its declared fee. */
  datatype Native = Native(tx: Tx, fee: u64, storageMass: nat)

  /** Covenant handling belongs to the node library: tags for the outputs of a transaction, or
      failure, and a final validity check. */
  datatype CovenantRules = CovenantRules(populate: Tx -> Option<seq<CovenantTag>>, valid: Tx -> bool)

  function TotalIn(entries: seq<UtxoEntry>): nat {
    if entries == [] then 0 else entries[0].amount + TotalIn(entries[1..])
  }

  function TotalOut(outputs: seq<TxOutput>): nat {
    if outputs == [] then 0 else outputs[0].value + TotalOut(outputs[1..])
  }

  function PlanInputs(inputs: seq<InputPlan>): (r: seq<TxInput>)
    ensures |r| == |inputs|
    ensures forall i :: 0 <= i < |inputs| ==>
              r[i] == TxInput(inputs[i].outpoint, inputs[i].signatureScript, inputs[i].sequence, inputs[i].computeBudget)
  {
    if inputs == [] then []
    else
      var p := inputs[0];
      [TxInput(p.outpoint, p.signatureScript, p.sequence, p.computeBudget)] + PlanInputs(inputs[1..])
  }

  function PlanEntries(inputs: seq<InputPlan>): (r: seq<UtxoEntry>)
    ensures |r| == |inputs|
    ensures forall i :: 0 <= i < |inputs| ==> r[i] == inputs[i].utxo
  {
    if inputs == [] then [] else [inputs[0].utxo] + PlanEntries(inputs[1..])
  }

  function Tagged(outputs: seq<TxOutput>, tags: seq<CovenantTag>): (r: seq<TxOutput>)
    requires |tags| == |outputs|
    ensures |r| == |outputs|
    ensures forall i :: 0 <= i < |outputs| ==> r[i] == outputs[i].(covenant := tags[i])
    ensures TotalOut(r) == TotalOut(outputs)
  {
    if outputs == [] then [] else [outputs[0].(covenant := tags[0])] + Tagged(outputs[1..], tags[1..])
  }

  function PlannedTx(plan: Tn10Plan): Tx {
    Tx(PlanInputs(plan.inputs), PlanEntries(plan.inputs), plan.outputs, plan.lockTime)
  }

  predicate DistinctInputs(inputs: seq<InputPlan>) {
    forall i, j :: 0 <= i < j < |inputs| ==> inputs[i].outpoint != inputs[j].outpoint
  }

  /** What building a plan yields, checks in order. */
  function BuildResult(plan: Tn10Plan, rules: CovenantRules): Result<Native, PlanError> {
    var tx := PlannedTx(plan);
    var totalIn, totalOut := TotalIn(tx.entries), TotalOut(plan.outputs);
    if plan.network != TN10_NETWORK then Failure(WrongNetwork)
    else if plan.inputs == [] || plan.outputs == [] then Failure(EmptyPlan)
    else if !DistinctInputs(plan.inputs) then Failure(DuplicateInput)
    else if totalIn > U64_MAX || totalOut > U64_MAX then Failure(Overflow)
    else if totalIn - totalOut != plan.expectedFee then Failure(FeeMismatch)
    else
      var tags := rules.populate(tx);
      if tags.None? || |tags.value| != |plan.outputs| then Failure(BadCovenant)
      else
        var tagged := tx.(outputs := Tagged(plan.outputs, tags.value));
        if !rules.valid(tagged) then Failure(BadCovenant) else Success(Native(tagged, plan.expectedFee, plan.storageMass))
  }

  method HasDuplicate(inputs: seq<InputPlan>) returns (duplicate: bool)
    ensures duplicate <==> !DistinctInputs(inputs)
  {
    var seen: set<Outpoint> := {};
    for i := 0 to |inputs|
      invariant seen == set j | 0 <= j < i :: inputs[j].outpoint
      invariant forall j, k :: 0 <= j < k < i ==> inputs[j].outpoint != inputs[k].outpoint
    {
      if inputs[i].outpoint in seen { return true; }
      seen := seen + {inputs[i].outpoint};
    }
    return false;
  }

  /** Sums amounts, stopping as soon as the sum no longer fits 64 bits. */
  method CheckedTotalIn(inputs: seq<InputPlan>) returns (total: Option<u64>)
    ensures var sum := TotalIn(PlanEntries(inputs)); total == if sum <= U64_MAX then Some(sum) else None
  {
    var sum: nat := 0;
    assert inputs[0..] == inputs;
    for i := 0 to |inputs|
      invariant sum <= U64_MAX
      invariant TotalIn(PlanEntries(inputs)) == sum + TotalIn(PlanEntries(inputs[i..]))
    {
      assert inputs[i..][0] == inputs[i] && inputs[i..][1..] == inputs[i + 1..];
      assert PlanEntries(inputs[i..])[1..] == PlanEntries(inputs[i + 1..]);
      sum := sum + inputs[i].utxo.amount;
      if sum > U64_MAX { return None; }
    }
    return Some(sum);
  }

  method CheckedTotalOut(outputs: seq<TxOutput>) returns (total: Option<u64>)
    ensures var sum := TotalOut(outputs); total == if sum <= U64_MAX then Some(sum) else None
  {
    var sum: nat := 0;
    assert outputs[0..] == outputs;
    for i := 0 to |outputs|
      invariant sum <= U64_MAX
      invariant TotalOut(outputs) == sum + TotalOut(outputs[i..])
    {
      assert outputs[i..][0] == outputs[i] && outputs[i..][1..] == outputs[i + 1..];
      sum := sum + outputs[i].value;
      if sum > U64_MAX { return None; }
    }
    return Some(sum);
  }

  method Build(plan: Tn10Plan, rules: CovenantRules) returns (r: Result<Native, PlanError>)
    ensures r == BuildResult(plan, rules)
  {
    if plan.network != TN10_NETWORK { return Failure(WrongNetwork); }
    if plan.inputs == [] || plan.outputs == [] { return Failure(EmptyPlan); }
    var duplicate := HasDuplicate(plan.inputs);
    if duplicate { return Failure(DuplicateInput); }
    var totalIn := CheckedTotalIn(plan.inputs);
    if totalIn.None? { return Failure(Overflow); }
    var totalOut := CheckedTotalOut(plan.outputs);
    if totalOut.None? { return Failure(Overflow); }
    if totalIn.value < totalOut.value { return Failure(FeeMismatch); }
    if totalIn.value - totalOut.value != plan.expectedFee { return Failure(FeeMismatch); }
    var tx := PlannedTx(plan);
    var tags := rules.populate(tx);
    if tags.None? || |tags.value| != |plan.outputs| { return Failure(BadCovenant); }
    tx := tx.(outputs := Tagged(plan.outputs, tags.value));
    if !rules.valid(tx) { return Failure(BadCovenant); }
    return Success(Native(tx, plan.expectedFee, plan.storageMass));
  }

  /** What every built transaction satisfies. */
  ghost predicate Balanced(native: Native) {
    var tx := native.tx;
    tx.inputs != [] && |tx.inputs| == |tx.entries|
    && (forall i, j :: 0 <= i < j < |tx.inputs| ==> tx.inputs[i].outpoint != tx.inputs[j].outpoint)
    && TotalIn(tx.entries) == TotalOut(tx.outputs) + native.fee
  }

  /** A built transaction is the planned one, input by input and output by output: it spends distinct
      outpoints, pays exactly its declared fee, and differs from the plan in covenant tags only. */
  lemma BuiltIsBalanced(plan: Tn10Plan, rules: CovenantRules)
    requires BuildResult(plan, rules).Success?
    ensures Balanced(BuildResult(plan, rules).value) && BuildResult(plan, rules).value.fee == plan.expectedFee
    ensures plan.network == "kaspa-testnet-10"
    ensures var tx := BuildResult(plan, rules).value.tx;
            |tx.inputs| == |plan.inputs| && |tx.outputs| == |plan.outputs| && tx.lockTime == plan.lockTime && rules.valid(tx)
            && (forall i :: 0 <= i < |plan.inputs| ==>
                  var p := plan.inputs[i];
                  tx.inputs[i] == TxInput(p.outpoint, p.signatureScript, p.sequence, p.computeBudget) && tx.entries[i] == p.utxo)
            && forall i :: 0 <= i < |plan.outputs| ==> tx.outputs[i] == plan.outputs[i].(covenant := tx.outputs[i].covenant)
  {
  }
}
