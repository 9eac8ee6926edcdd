/** Agreeing on an escrow, spending it, and signing the spend
    (compatibility/toccata-v2/src/escrow.rs). */
module EscrowSpends {
  import opened Wrappers
  import opened ScriptNumbers
  import opened Syntax
  import opened Instructions
  import opened Lowering
  import opened Script
  import opened Encoding
  import opened Engine
  import opened Simulation
  import opened Evaluation
  import opened Spends
  import opened EscrowContract
  import opened Escrow
  import opened Plan

  datatype EscrowError =
    | InvalidKeys
    | InvalidDeadline
    | InvalidFee
    | WrongUtxo
    | ScriptFailed
    | InvalidSignatures
    | WrongNode
    | MissingUtxo
    | RefundNotDue
    | MassFailed
    | PlanFailed(plan: PlanError)

  datatype Agreement = Agreement(terms: Terms, redeemScript: Bytes, lock: ScriptPublicKey)

  const SIG_HASH_ALL: byte := 1

  // ---- agreeing ----

  /** Why terms are refused; `validPoint` says which 32 bytes are a public key. */
  function TermsError(chain: Chain, validPoint: Bytes -> bool, t: Terms): Option<EscrowError> {
    if |t.buyer| != 32 || !validPoint(t.buyer) || |t.seller| != 32 || !validPoint(t.seller) || t.buyer == t.seller then
      Some(InvalidKeys)
    else if t.refundDaaScore == 0 || t.refundDaaScore >= chain.lockTimeThreshold then Some(InvalidDeadline)
    else if t.maxFee == 0 || t.maxFee > I64_MAX then Some(InvalidFee)
    else None
  }

  /** The agreement two parties reach on terms that pass every check. */
  ghost predicate Agreed(chain: Chain, validPoint: Bytes -> bool, a: Agreement) {
    chain.lockTimeThreshold <= I64_MAX && TermsError(chain, validPoint, a.terms).None?
    && ValidTerms(a.terms)
    && a.redeemScript == RedeemScript(a.terms) && a.lock == PayToScriptHash(chain, a.redeemScript)
  }

  method CompileBranch(t: Terms, path: SpendPath) returns (r: Option<Bytes>)
    requires ValidTerms(t)
    ensures SpendOps(BranchCode(t, path)).Success? && r == Some(BranchScript(t, path))
  {
    BranchesEncode(t);
    BranchBinds(t, path, ARGUMENTS);
    var code := LowerSpendBody(SourceBody(path));
    if code.Failure? { return None; }
    var bound := BindParameters(t, code.value);
    if bound.None? { return None; }
    var script := CompileSpendScript(bound.value);
    if script.Failure? { return None; }
    return Some(script.value);
  }

  /** What a caller can check of terms: two different keys that are points, a deadline that is a height,
      and a fee cap that a script can write. */
  predicate Acceptable(chain: Chain, validPoint: Bytes -> bool, t: Terms) {
    |t.buyer| == 32 && |t.seller| == 32 && validPoint(t.buyer) && validPoint(t.seller) && t.buyer != t.seller
    && 0 < t.refundDaaScore < chain.lockTimeThreshold && 0 < t.maxFee <= 0x7FFF_FFFF_FFFF_FFFF
  }

  /** Terms are agreed if and only if they are acceptable: compiling both paths cannot fail. */
  method Agree(chain: Chain, validPoint: Bytes -> bool, t: Terms) returns (r: Result<Agreement, EscrowError>)
    requires chain.lockTimeThreshold <= I64_MAX
    ensures r.Success? <==> Acceptable(chain, validPoint, t)
    ensures match TermsError(chain, validPoint, t)
            case Some(error) => r == Failure(error)
            case None => r.Success? && r.value.terms == t && Agreed(chain, validPoint, r.value)
  {
    if |t.buyer| != 32 || !validPoint(t.buyer) { return Failure(InvalidKeys); }
    if |t.seller| != 32 || !validPoint(t.seller) { return Failure(InvalidKeys); }
    if t.buyer == t.seller { return Failure(InvalidKeys); }
    if t.refundDaaScore == 0 || t.refundDaaScore >= chain.lockTimeThreshold { return Failure(InvalidDeadline); }
    if t.maxFee == 0 || t.maxFee > I64_MAX { return Failure(InvalidFee); }
    var release := CompileBranch(t, Release);
    var refund := CompileBranch(t, Refund);
    if release.None? || refund.None? { return Failure(ScriptFailed); }
    var redeem := JoinScripts(release.value, refund.value);
    return Success(Agreement(t, redeem, PayToScriptHash(chain, redeem)));
  }

  // ---- unlocking ----

  function SignerCount(path: SpendPath): nat { if path.Release? then 2 else 1 }

  predicate ValidSignatures(path: SpendPath, sigs: seq<Bytes>) {
    |sigs| == SignerCount(path)
    && forall i :: 0 <= i < |sigs| ==> |sigs[i]| == 65 && sigs[i][64] == SIG_HASH_ALL
  }

  /** The push the script builder chooses for data. */
  function BuilderOp(data: Bytes): (op: Op)
    requires |data| <= U32_MAX
  {
    if HasSmallPush(data) then PlainOp(if data[0] == 0x81 then OP_1NEGATE else 0x50 + data[0]) else DataOp(data)
  }

  function BuilderOps(items: seq<Bytes>): seq<Op>
    requires forall i :: 0 <= i < |items| ==> |items[i]| <= U32_MAX
  {
    if items == [] then [] else [BuilderOp(items[0])] + BuilderOps(items[1..])
  }

  function Selector(path: SpendPath): Bytes { if path.Release? then [1] else [] }

  /** The items a signature script leaves: signatures, selector, redeem script. */
  function UnlockItems(path: SpendPath, sigs: seq<Bytes>, redeem: Bytes): seq<Bytes> {
    sigs + [Selector(path), redeem]
  }

  method SignatureScript(a: Agreement, path: SpendPath, sigs: seq<Bytes>) returns (r: Result<Bytes, EscrowError>)
    ensures !ValidSignatures(path, sigs) ==> r == Failure(InvalidSignatures)
    ensures ValidSignatures(path, sigs) && |a.redeemScript| > U32_MAX ==> r == Failure(ScriptFailed)
    ensures ValidSignatures(path, sigs) && |a.redeemScript| <= U32_MAX ==>
              (forall i :: 0 <= i < |UnlockItems(path, sigs, a.redeemScript)| ==>
                 |UnlockItems(path, sigs, a.redeemScript)[i]| <= U32_MAX)
              && r == Success(Assemble(BuilderOps(UnlockItems(path, sigs, a.redeemScript))))
  {
    if |sigs| != (if path.Release? then 2 else 1) { return Failure(InvalidSignatures); }
    for i := 0 to |sigs|
      invariant forall j :: 0 <= j < i ==> |sigs[j]| == 65 && sigs[j][64] == SIG_HASH_ALL
    {
      if |sigs[i]| != 65 || sigs[i][64] != 0x01 { return Failure(InvalidSignatures); }
    }
    if |a.redeemScript| > U32_MAX { return Failure(ScriptFailed); }
    var builder: Bytes := [];
    for i := 0 to |sigs|
      invariant builder == Assemble(BuilderOps(sigs[..i]))
    {
      BuilderOpsLast(sigs[..i], sigs[i]);
      assert sigs[..i] + [sigs[i]] == sigs[..i + 1];
      builder := builder + OpBytes(BuilderOp(sigs[i]));
    }
    assert sigs[..|sigs|] == sigs;
    UnlockBytes(path, sigs, a.redeemScript);
    return Success(builder + OpBytes(BuilderOp(Selector(path))) + OpBytes(BuilderOp(a.redeemScript)));
  }

  lemma UnlockBytes(path: SpendPath, sigs: seq<Bytes>, redeem: Bytes)
    requires ValidSignatures(path, sigs) && |redeem| <= U32_MAX
    ensures forall i :: 0 <= i < |UnlockItems(path, sigs, redeem)| ==> |UnlockItems(path, sigs, redeem)[i]| <= U32_MAX
    ensures Assemble(BuilderOps(UnlockItems(path, sigs, redeem)))
            == Assemble(BuilderOps(sigs)) + OpBytes(BuilderOp(Selector(path))) + OpBytes(BuilderOp(redeem))
  {
    var selector := Selector(path);
    BuilderOpsLast(sigs, selector);
    BuilderOpsLast(sigs + [selector], redeem);
    assert sigs + [selector] + [redeem] == UnlockItems(path, sigs, redeem);
  }

  lemma {:induction false} BuilderOpsLast(items: seq<Bytes>, last: Bytes)
    requires (forall i :: 0 <= i < |items| ==> |items[i]| <= U32_MAX) && |last| <= U32_MAX
    ensures BuilderOps(items + [last]) == BuilderOps(items) + [BuilderOp(last)]
    ensures Assemble(BuilderOps(items + [last])) == Assemble(BuilderOps(items)) + OpBytes(BuilderOp(last))
  {
    if items == [] {
      assert items + [last] == [last] && [last][1..] == [];
    } else {
      BuilderOpsLast(items[1..], last);
      assert (items + [last])[1..] == items[1..] + [last];
      assert [BuilderOp(items[0])] + (BuilderOps(items[1..]) + [BuilderOp(last)]) == BuilderOps(items) + [BuilderOp(last)];
    }
    AssembleConcat(BuilderOps(items), [BuilderOp(last)]);
    assert [BuilderOp(last)][1..] == [];
    assert Assemble([BuilderOp(last)]) == OpBytes(BuilderOp(last));
  }

  lemma BuilderPushes(c: Context, data: Bytes, st: Stack)
    requires |data| <= U32_MAX
    ensures WellFormed(BuilderOp(data)) && !IsControl(BuilderOp(data))
    ensures BuilderOp(data).PushOp? || BuilderOp(data).opcode <= OP_16
    ensures Perform(c, BuilderOp(data), st) == Some(Cons(data, st))
  {
    if HasSmallPush(data) {
      var n := if data[0] == 0x81 then -1 else data[0] as int;
      SmallNumber(n);
      assert data == [data[0]];
    }
  }

  /** A signature script built from data leaves exactly that data on the stack. */
  lemma {:induction false} BuilderRuns(c: Context, items: seq<Bytes>, st: Stack)
    requires forall i :: 0 <= i < |items| ==> |items[i]| <= U32_MAX
    ensures AllWellFormed(BuilderOps(items)) && NoControl(BuilderOps(items)) && PushesOnly(BuilderOps(items))
    ensures PerformAll(c, BuilderOps(items), st) == Some(PushAll(st, items))
    decreases items
  {
    if items != [] {
      BuilderPushes(c, items[0], st);
      BuilderRuns(c, items[1..], Cons(items[0], st));
    }
  }

  /** The stack a push-only signature script leaves. */
  function Unlocked(c: Context, signatureScript: Bytes): Option<Stack> {
    var ops :- Decode(signatureScript);
    if PushesOnly(ops) then PerformAll(c, ops, Empty) else None
  }

  lemma PushesHaveNoControl(ops: seq<Op>)
    requires PushesOnly(ops)
    ensures NoControl(ops)
  {
  }

  lemma UnlockedIsExecuted(c: Context, signatureScript: Bytes, lock: ScriptPublicKey)
    ensures AcceptsScriptHash(c, signatureScript, lock) <==>
            var st := Unlocked(c, signatureScript);
            st.Some? && st.value.Cons? && PayToScriptHash(c.chain, st.value.top) == lock
            && Accepts(c, st.value.top, st.value.below)
  {
    var ops := Decode(signatureScript);
    if ops.Some? && PushesOnly(ops.value) {
      PushesHaveNoControl(ops.value);
      ExecWithoutControl(c, ops.value, Machine(Empty, []));
    }
  }

  /** Another script with the hash of a given one. */
  predicate Collides(chain: Chain, other: Bytes, script: Bytes) {
    other != script && chain.scriptHash(other) == chain.scriptHash(script)
  }

  /** Safety: for every transaction and every signature script, what opens the escrow's lock is the
      redeem script over a stack that meets the policy, or else a second script with the same hash.
      Conversely the redeem script over such a stack opens it, whatever hashing is like. */
  lemma LockIsSafe(c: Context, validPoint: Bytes -> bool, a: Agreement, signatureScript: Bytes)
    requires Agreed(c.chain, validPoint, a)
    ensures var st := Unlocked(c, signatureScript);
            AcceptsScriptHash(c, signatureScript, a.lock) ==>
              st.Some? && st.value.Cons?
              && (if st.value.top == a.redeemScript then PolicyMet(c, a.terms, st.value.below)
                  else Collides(c.chain, st.value.top, a.redeemScript))
    ensures var st := Unlocked(c, signatureScript);
            st.Some? && st.value.Cons? && st.value.top == a.redeemScript && PolicyMet(c, a.terms, st.value.below) ==>
              AcceptsScriptHash(c, signatureScript, a.lock)
  {
    UnlockedIsExecuted(c, signatureScript, a.lock);
    var st := Unlocked(c, signatureScript);
    if st.Some? && st.value.Cons? {
      RedeemEnforcesPolicy(c, a.terms, st.value.below);
      if PayToScriptHash(c.chain, st.value.top) == a.lock {
        SameHash(c.chain, st.value.top, a.redeemScript);
      }
    }
  }

  lemma SameHash(chain: Chain, a: Bytes, b: Bytes)
    requires PayToScriptHash(chain, a) == PayToScriptHash(chain, b)
    ensures chain.scriptHash(a) == chain.scriptHash(b)
  {
    var x, y := PayToScriptHash(chain, a).script, PayToScriptHash(chain, b).script;
    assert x[2..|x| - 1] == chain.scriptHash(a) && y[2..|y| - 1] == chain.scriptHash(b);
  }

  // ---- spending ----

  function Payee(t: Terms, path: SpendPath): Bytes { if path.Release? then t.seller else t.buyer }

  function SpendPlan(t: Terms, network: string, outpoint: Outpoint, utxo: UtxoEntry, path: SpendPath, fee: u64, budget: nat): Tn10Plan
    requires fee <= utxo.amount
  {
    Tn10Plan(network,
             [InputPlan(outpoint, utxo, budget, if path.Refund? then 0 else MAX_SEQUENCE, [])],
             [TxOutput(utxo.amount - fee, PayToKey(Payee(t, path)), NoCovenant)],
             if path.Refund? then t.refundDaaScore else 0,
             0, fee)
  }

  predicate SpendableUtxo(a: Agreement, utxo: UtxoEntry) {
    utxo.spk == a.lock && utxo.covenant.NoCovenant? && !utxo.isCoinbase && utxo.amount <= I64_MAX
  }

  /** What asking for a spend yields, checks in order. `massOf` is the node's storage mass calculation. */
  function SpendOutcome(a: Agreement, rules: CovenantRules, massOf: Tx -> Option<nat>, network: string,
                        outpoint: Outpoint, utxo: UtxoEntry, path: SpendPath, fee: u64, budget: nat): Result<Native, EscrowError>
  {
    if network != TN10_NETWORK then Failure(PlanFailed(PlanError.WrongNetwork))
    else if !SpendableUtxo(a, utxo) then Failure(WrongUtxo)
    else if !(0 < fee <= a.terms.maxFee < utxo.amount) then Failure(InvalidFee)
    else if budget == 0 then Failure(MassFailed)
    else
      var built := BuildResult(SpendPlan(a.terms, network, outpoint, utxo, path, fee, budget), rules);
      if built.Failure? then Failure(PlanFailed(built.error))
      else
        var mass := massOf(built.value.tx);
        if mass.None? then Failure(MassFailed)
        else if |a.redeemScript| > U32_MAX then Failure(ScriptFailed)
        else Success(built.value.(storageMass := mass.value))
  }

  /** Once the checks pass, only the node's covenant and mass rules can refuse a spend: never its fee, its
      sums or its inputs. What is built pays the agreed party everything but the fee. */
  lemma SpendNeverMiscounts(a: Agreement, chain: Chain, validPoint: Bytes -> bool, rules: CovenantRules, massOf: Tx -> Option<nat>,
                            outpoint: Outpoint, utxo: UtxoEntry, path: SpendPath, fee: u64, budget: nat)
    requires Agreed(chain, validPoint, a)
    requires SpendableUtxo(a, utxo) && 0 < fee <= a.terms.maxFee < utxo.amount && budget != 0
    ensures var r := SpendOutcome(a, rules, massOf, TN10_NETWORK, outpoint, utxo, path, fee, budget);
            r == Failure(PlanFailed(BadCovenant)) || r == Failure(MassFailed)
            || (r.Success? && r.value.fee == fee && Balanced(r.value) && Some(r.value.storageMass) == massOf(r.value.tx)
                && |r.value.tx.inputs| == 1 && r.value.tx.inputs[0].outpoint == outpoint && |r.value.tx.outputs| == 1
                && r.value.tx.outputs[0].value == utxo.amount - fee
                && r.value.tx.outputs[0].spk == PayToKey(Payee(a.terms, path)))
  {
    RedeemScriptIsShort(a.terms);
    var plan := SpendPlan(a.terms, TN10_NETWORK, outpoint, utxo, path, fee, budget);
    SinglePlanBalances(plan);
    if BuildResult(plan, rules).Success? { BuiltIsBalanced(plan, rules); }
  }

  /** What the transaction of a path says: a refund waits for the deadline with the lock switched on, a
      release does not wait; it is unsigned and carries the caller's budget. */
  lemma SpendSays(a: Agreement, rules: CovenantRules, massOf: Tx -> Option<nat>, network: string,
                  outpoint: Outpoint, utxo: UtxoEntry, path: SpendPath, fee: u64, budget: nat)
    requires SpendOutcome(a, rules, massOf, network, outpoint, utxo, path, fee, budget).Success?
    ensures var tx := SpendOutcome(a, rules, massOf, network, outpoint, utxo, path, fee, budget).value.tx;
            tx.inputs == [TxInput(outpoint, [], if path.Release? then 0xFFFF_FFFF_FFFF_FFFF else 0, budget)]
            && tx.entries == [utxo] && tx.lockTime == (if path.Release? then 0 else a.terms.refundDaaScore)
    ensures network == "kaspa-testnet-10" && budget > 0 && 0 < fee <= a.terms.maxFee < utxo.amount
    ensures utxo.spk == a.lock && utxo.covenant == NoCovenant && !utxo.isCoinbase && utxo.amount <= 0x7FFF_FFFF_FFFF_FFFF
  {
  }

  /** Builds the unsigned transaction of a path. */
  method UnsignedSpend(a: Agreement, rules: CovenantRules, massOf: Tx -> Option<nat>, network: string,
                       outpoint: Outpoint, utxo: UtxoEntry, path: SpendPath, fee: u64, budget: nat)
    returns (r: Result<Native, EscrowError>)
    ensures r == SpendOutcome(a, rules, massOf, network, outpoint, utxo, path, fee, budget)
  {
    if network != TN10_NETWORK { return Failure(PlanFailed(PlanError.WrongNetwork)); }
    if utxo.spk != a.lock || utxo.covenant.Covenant? || utxo.isCoinbase || utxo.amount > I64_MAX {
      return Failure(WrongUtxo);
    }
    if fee == 0 || fee > a.terms.maxFee || utxo.amount <= a.terms.maxFee { return Failure(InvalidFee); }
    if budget == 0 { return Failure(MassFailed); }
    var native := Build(SpendPlan(a.terms, network, outpoint, utxo, path, fee, budget), rules);
    if native.Failure? { return Failure(PlanFailed(native.error)); }
    var storage := massOf(native.value.tx);
    if storage.None? { return Failure(MassFailed); }
    var placeholder: Bytes := seq(64, _ => 0) + [SIG_HASH_ALL];
    var sized := SignatureScript(a, path, seq(SignerCount(path), _ => placeholder));
    if sized.Failure? { return Failure(sized.error); }
    return Success(native.value.(storageMass := storage.value));
  }

  // ---- spending what a node reports ----

  datatype ServerInfo = ServerInfo(network: string, isSynced: bool, hasUtxoIndex: bool, virtualDaaScore: u64)

  datatype Reported = Reported(outpoint: Outpoint, entry: UtxoEntry)

  predicate ValidNode(info: ServerInfo) { info.network == TN10_NETWORK && info.isSynced && info.hasUtxoIndex }

  /** The entries reported for an outpoint. */
  function Matching(utxos: seq<Reported>, outpoint: Outpoint): seq<UtxoEntry> {
    if utxos == [] then []
    else (if utxos[0].outpoint == outpoint then [utxos[0].entry] else []) + Matching(utxos[1..], outpoint)
  }

  method FindOnly(utxos: seq<Reported>, outpoint: Outpoint) returns (r: Result<UtxoEntry, EscrowError>)
    ensures r == var found := Matching(utxos, outpoint);
                 if found == [] then Failure(MissingUtxo) else if |found| > 1 then Failure(WrongUtxo) else Success(found[0])
  {
    var only: Option<UtxoEntry> := None;
    assert utxos[0..] == utxos;
    for i := 0 to |utxos|
      invariant Matching(utxos, outpoint) == (if only.Some? then [only.value] else []) + Matching(utxos[i..], outpoint)
    {
      assert utxos[i..][0] == utxos[i] && utxos[i..][1..] == utxos[i + 1..];
      if utxos[i].outpoint == outpoint {
        if only.Some? { return Failure(WrongUtxo); }
        only := Some(utxos[i].entry);
      }
    }
    return if only.Some? then Success(only.value) else Failure(MissingUtxo);
  }

  /** Builds a spend from a node's report: the node must be usable, a refund must be due at the observed
      score, and the outpoint must be reported exactly once; then the spend is built as from its entry. */
  method ObservedSpend(a: Agreement, rules: CovenantRules, massOf: Tx -> Option<nat>, info: ServerInfo, utxos: seq<Reported>,
                       outpoint: Outpoint, path: SpendPath, fee: u64, budget: nat)
    returns (r: Result<Native, EscrowError>)
    ensures var found := Matching(utxos, outpoint);
            if info.network != "kaspa-testnet-10" || !info.isSynced || !info.hasUtxoIndex then r == Failure(WrongNode)
            else if path.Refund? && info.virtualDaaScore <= a.terms.refundDaaScore then r == Failure(RefundNotDue)
            else if found == [] then r == Failure(MissingUtxo)
            else if |found| > 1 then r == Failure(WrongUtxo)
            else r == SpendOutcome(a, rules, massOf, TN10_NETWORK, outpoint, found[0], path, fee, budget)
  {
    if !ValidNode(info) { return Failure(WrongNode); }
    if path.Refund? && info.virtualDaaScore <= a.terms.refundDaaScore { return Failure(RefundNotDue); }
    var entry := FindOnly(utxos, outpoint);
    if entry.Failure? { return Failure(entry.error); }
    r := UnsignedSpend(a, rules, massOf, TN10_NETWORK, outpoint, entry.value, path, fee, budget);
  }

  lemma SinglePlanBalances(plan: Tn10Plan)
    requires |plan.inputs| == 1 && |plan.outputs| == 1
    ensures TotalIn(PlanEntries(plan.inputs)) == plan.inputs[0].utxo.amount
    ensures TotalOut(plan.outputs) == plan.outputs[0].value
    ensures DistinctInputs(plan.inputs)
  {
    assert PlanEntries(plan.inputs)[1..] == [];
    assert TotalIn([]) == 0 && TotalOut([]) == 0;
    assert plan.outputs[1..] == [];
  }

  /** A transaction with its first input's signature script in place. */
  function WithSignature(tx: Tx, signatureScript: Bytes): Tx
    requires tx.inputs != []
  {
    tx.(inputs := [tx.inputs[0].(signatureScript := signatureScript)] + tx.inputs[1..])
  }

  ghost predicate SignedBy(c: Context, t: Terms, path: SpendPath, sigs: seq<Bytes>) {
    ValidSignatures(path, sigs) && Signed(c, sigs[0], t.buyer) && (path.Release? ==> Signed(c, sigs[1], t.seller))
  }

  lemma SpendMeetsPolicy(a: Agreement, chain: Chain, validPoint: Bytes -> bool, rules: CovenantRules, network: string,
                         outpoint: Outpoint, utxo: UtxoEntry, path: SpendPath, fee: u64, budget: nat,
                         sigs: seq<Bytes>, tx: Tx, signatureScript: Bytes)
    requires Agreed(chain, validPoint, a) && SpendableUtxo(a, utxo) && 0 < fee <= a.terms.maxFee < utxo.amount
    requires var built := BuildResult(SpendPlan(a.terms, network, outpoint, utxo, path, fee, budget), rules);
             built.Success? && tx == WithSignature(built.value.tx, signatureScript)
    requires SignedBy(Context(tx, 0, chain), a.terms, path, sigs)
    ensures PolicyMet(Context(tx, 0, chain), a.terms, PushAll(Empty, sigs + [Selector(path)]))
  {
    var c := Context(tx, 0, chain);
    var items := sigs + [Selector(path)];
    ItemsOfPushed(items);
    assert PaysInFull(c, a.terms, Payee(a.terms, path));
    if path.Refund? { assert LockedUntil(c, a.terms.refundDaaScore); }
  }

  lemma {:induction false} ItemsOfPushed(items: seq<Bytes>)
    ensures StackItems(PushAll(Empty, items)) == items
  {
    if items != [] {
      var init, last := items[..|items| - 1], items[|items| - 1];
      assert items == init + [last];
      PushAllLast(Empty, init, last);
      ItemsOfPushed(init);
    }
  }

  /** Signatures cover a transaction without its signature scripts. */
  ghost predicate IgnoresSignatureScripts(chain: Chain) {
    forall tx: Tx, script: Bytes, sig: Bytes, key: Bytes :: tx.inputs != [] ==>
      chain.checkSig(WithSignature(tx, script), 0, sig, key) == chain.checkSig(tx, 0, sig, key)
  }

  /** Liveness: every transaction built for an agreed escrow, once its parties have signed it, opens the
      escrow's lock through the signature script made from their signatures. */
  lemma SpendIsLive(a: Agreement, chain: Chain, validPoint: Bytes -> bool, rules: CovenantRules, massOf: Tx -> Option<nat>,
                    network: string, outpoint: Outpoint, utxo: UtxoEntry, path: SpendPath, fee: u64, budget: nat, sigs: seq<Bytes>)
    requires Agreed(chain, validPoint, a) && IgnoresSignatureScripts(chain)
    requires SpendOutcome(a, rules, massOf, network, outpoint, utxo, path, fee, budget).Success?
    requires var tx := SpendOutcome(a, rules, massOf, network, outpoint, utxo, path, fee, budget).value.tx;
             SignedBy(Context(tx, 0, chain), a.terms, path, sigs)
    ensures |a.redeemScript| <= U32_MAX
    ensures var script := Assemble(BuilderOps(UnlockItems(path, sigs, a.redeemScript)));
            var tx := SpendOutcome(a, rules, massOf, network, outpoint, utxo, path, fee, budget).value.tx;
            tx.inputs != [] && AcceptsScriptHash(Context(WithSignature(tx, script), 0, chain), script, a.lock)
  {
    RedeemScriptIsShort(a.terms);
    var items := UnlockItems(path, sigs, a.redeemScript);
    var script := Assemble(BuilderOps(items));
    var unsigned := BuildResult(SpendPlan(a.terms, network, outpoint, utxo, path, fee, budget), rules).value.tx;
    var tx := WithSignature(unsigned, script);
    var c := Context(tx, 0, chain);
    assert SignedBy(c, a.terms, path, sigs);
    BuilderRuns(c, items, Empty);
    DecodeAssemble(BuilderOps(items));
    var below := sigs + [Selector(path)];
    assert items == below + [a.redeemScript];
    PushAllLast(Empty, below, a.redeemScript);
    SpendMeetsPolicy(a, chain, validPoint, rules, network, outpoint, utxo, path, fee, budget, sigs, tx, script);
    RedeemEnforcesPolicy(c, a.terms, PushAll(Empty, below));
    UnlockedIsExecuted(c, script, a.lock);
  }

  // ---- the size of the redeem script ----

  lemma NumberSize(v: u64)
    requires NumberOps(v).Success?
    ensures |Assemble(NumberOps(v).value)| <= 9
  {
    var op := NumberOps(v).value[0];
    assert NumberOps(v).value[1..] == [];
    assert Assemble([op]) == OpBytes(op);
    if v > 16 { NumLength(v); }
  }

  lemma ThenSize(v: u64, ops: seq<Op>)
    requires NumberOps(v).Success?
    ensures |Assemble(Then(NumberOps(v), ops).value)| <= 9 + |Assemble(ops)|
  {
    NumberSize(v);
    AssembleConcat(NumberOps(v).value, ops);
  }

  lemma PlainSize(a: byte, b: byte)
    ensures |Assemble([PlainOp(a)])| == 1 && |Assemble([PlainOp(a), PlainOp(b)])| == 2
  {
    assert [PlainOp(a), PlainOp(b)][1..] == [PlainOp(b)];
    AssembleOne(b);
  }

  lemma PushSize(value: Value)
    requires IsShort(value) && PushOps(value).Success?
    ensures |Assemble(PushOps(value).value)| <= 100
  {
    if value.IntegerValue? {
      NumberSize(value.n);
    } else if value.BoolValue? {
      PlainSize(PushOps(value).value[0].opcode, OP_1);
    } else {
      var op := DataOp(value.bytes);
      assert [op][1..] == [];
      assert Assemble([op]) == OpBytes(op);
    }
  }

  lemma InstrSize(instr: Instr)
    requires IsReady(instr)
    ensures |Assemble(InstrOps(instr).value)| <= 100
  {
    if instr.Push? {
      PushSize(instr.value);
    } else if instr.InputValue? || instr.InputScript? || instr.OutputValue? || instr.OutputScript? {
      IndexedSize(instr.index, InstrOps(instr).value[1].opcode);
    } else if instr.CheckMultiSig? {
      IndexedSize(instr.keyCount, OP_CHECKMULTISIG);
    } else if instr.CheckLockHeight? || instr.CheckLockTime? {
      LockSize(if instr.CheckLockHeight? then instr.height else instr.time);
    } else if instr.CheckLockHeightFromStack? || instr.CheckLockTimeFromStack? {
      PlainSize(OP_CHECKLOCKTIMEVERIFY, OP_1);
    } else {
      OneOpSize(InstrOps(instr).value);
    }
  }

  lemma OneOpSize(ops: seq<Op>)
    requires |ops| == 1 && ops[0].PlainOp?
    ensures |Assemble(ops)| <= 100
  {
    PlainSize(ops[0].opcode, OP_1);
    assert ops == [PlainOp(ops[0].opcode)];
  }

  lemma IndexedSize(i: u32, opcode: byte)
    ensures |Assemble(Then(NumberOps(i), [PlainOp(opcode)]).value)| <= 100
  {
    ThenSize(i, [PlainOp(opcode)]);
    PlainSize(opcode, opcode);
  }

  lemma LockSize(v: u64)
    requires NumberOps(v).Success?
    ensures |Assemble(Then(NumberOps(v), [PlainOp(OP_CHECKLOCKTIMEVERIFY), PlainOp(OP_1)]).value)| <= 100
  {
    ThenSize(v, [PlainOp(OP_CHECKLOCKTIMEVERIFY), PlainOp(OP_1)]);
    PlainSize(OP_CHECKLOCKTIMEVERIFY, OP_1);
  }

  lemma {:induction false} CodeSize(code: Code)
    requires Ready(code)
    ensures CodeOps(code).Success? && |Assemble(CodeOps(code).value)| <= 100 * |code|
  {
    if code != [] {
      assert IsReady(code[0]);
      InstrSize(code[0]);
      CodeSize(code[1..]);
      AssembleConcat(InstrOps(code[0]).value, CodeOps(code[1..]).value);
    }
  }

  lemma BranchSize(t: Terms, path: SpendPath)
    requires ValidTerms(t)
    ensures SpendOps(BranchCode(t, path)).Success? && |BranchScript(t, path)| <= 4000
  {
    var code := BranchCode(t, path);
    BranchReady(t, path);
    CodeSize(code);
    assert |code| <= 39;
    AssembleConcat(CodeOps(code).value, [PlainOp(OP_1)]);
    PlainSize(OP_1, OP_1);
  }

  lemma RedeemScriptIsShort(t: Terms)
    requires ValidTerms(t)
    ensures |RedeemScript(t)| <= U32_MAX
  {
    BranchSize(t, Release);
    BranchSize(t, Refund);
  }
}
