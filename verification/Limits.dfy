/** Where compiled scripts refuse what their source allows, or accept what their model does not describe:
    each condition of the correctness theorems is needed, and a concrete contract and transaction show it. */
module Limits {
  import opened Wrappers
  import opened ScriptNumbers
  import opened Syntax
  import opened Instructions
  import opened Lowering
  import opened Script
  import opened Encoding
  import opened Engine
  import opened Simulation
  import opened Evaluation
  import opened Correctness
  import opened Spends
  import opened EscrowContract
  import opened Traversal
  import opened ModelSoundness
  import M = ApplicationModel
  import C = Checker

  // ---- contracts of one requirement and no arguments ----

  /** The spend with one requirement and its code with parameters in place. */
  function Single(e: Expr, env: Env, code: Code): Deployed { Deployed([Must(e)], [], env, code) }

  lemma SingleDeploys(e: Expr, env: Env, code: Code, bound: Code)
    requires InFragment(e) && Lower(e) == Success(code)
    requires Instantiate({}, env, Elsewhere, code + [Verify]) == Some(bound) && bound != [] && CodeOps(bound).Success?
    ensures ValidDeployment(Single(e, env, bound))
  {
    var body := [Must(e)];
    assert body[1..] == [] && code + [Verify] + [] == code + [Verify];
    assert LowerBody(body) == Success(code + [Verify]);
    assert Names([]) == {};
    assert (code + [Verify])[..0] == ArgPushes([]);
  }

  /** A spend without parameters is deployed as it is compiled. */
  lemma PlainDeploys(e: Expr, env: Env, code: Code, bound: Code)
    requires InFragment(e) && Lower(e) == Success(code) && bound == code + [Verify] && Plain(bound) && Ready(bound)
    ensures ValidDeployment(Single(e, env, bound)) && Pushable(bound)
  {
    InstantiatePlain({}, env, Elsewhere, bound);
    ReadyEncodes(bound);
    SingleDeploys(e, env, code, bound);
  }

  lemma PlainCode(a: Instr, b: Instr, c: Instr)
    requires IsReady(a) && IsReady(b) && IsReady(c) && !IsSymbol(a) && !IsSymbol(b) && !IsSymbol(c)
    ensures Plain([a, b, c, Verify]) && Ready([a, b, c, Verify]) && [a, b, c, Verify] == [a, b, c] + [Verify]
  {
    ChecksReady();
  }

  const NO_ENV: Env := (name: string, r: Reading) => None

  /** A chain on which every signature fails and every hash is empty. */
  const PLAIN_CHAIN := Chain((tx, i, sig, key) => Some(false), data => [], data => [], data => [], 500_000_000_000)

  /** One input of a given script, spent at height 50. */
  function At50(from: ScriptPublicKey, outputs: seq<TxOutput>): Context {
    Context(Tx([TxInput(Outpoint(0, 0), [], 0, 0)], [UtxoEntry(1000, from, 0, false, NoCovenant)], outputs, 50), 0, PLAIN_CHAIN)
  }

  const EMPTY_TX: Context := At50(PayToKey([]), [])

  // ---- `!=` is compiled to a numeric opcode ----

  /** A requirement with `!=` at its head refuses every value on its left that is not a number of at
      most eight bytes. */
  lemma InequalityRefusesBytes(c: Context, d: Deployed, st: Stack, i: nat)
    requires ValidDeployment(d) && i < |d.body| && Height(st) == |d.args|
    requires var e := d.body[i].expr; e.Binary? && e.op.NotEqual?
    requires var a := Eval(WorldOf(c, d, st), Elsewhere, d.body[i].expr.left); a.Some? && AsNum(a.value).None?
    ensures !Accepts(c, Assemble(SpendOps(d.code).value), st)
  {
    SpendAccepts(c, d, st);
    assert NotNumbers in Faults(WorldOf(c, d, st), Elsewhere, d.body[i].expr);
  }

  /** output(0).script != input(0).script */
  const DIFFERENT_SCRIPTS := Infix(Of("output", "script"), BinaryOp.NotEqual, Of("input", "script"))

  /** The requirement that two scripts differ can hold, and no transaction with a script of seven bytes
      or more in its first output fulfils it. */
  lemma DifferentScriptsAreRefused(c: Context, d: Deployed, st: Stack, i: nat)
    requires ValidDeployment(d) && i < |d.body| && d.body[i].expr == DIFFERENT_SCRIPTS && Height(st) == |d.args|
    requires c.HasOutput(0) && c.HasInput(0) && |c.tx.outputs[0].spk.script| >= 7
    ensures Holds(WorldOf(c, d, st), DIFFERENT_SCRIPTS) <==> SpkBytes(c.tx.outputs[0].spk) != SpkBytes(c.tx.entries[0].spk)
    ensures !Accepts(c, Assemble(SpendOps(d.code).value), st)
  {
    var w, e := WorldOf(c, d, st), DIFFERENT_SCRIPTS;
    assert InFragment(e.left) && InFragment(e.right) && !IsLockTest(e);
    assert Eval(w, Elsewhere, e.left) == Some(SpkBytes(c.tx.outputs[0].spk));
    assert Eval(w, LastReading(e.left), e.right) == Some(SpkBytes(c.tx.entries[0].spk));
    BoolNum(SpkBytes(c.tx.outputs[0].spk) != SpkBytes(c.tx.entries[0].spk));
    InequalityRefusesBytes(c, d, st, i);
  }

  const SCRIPTS_CODE: Code := [OutputScript(0), InputScript(0), Instr.NotEqual, Verify]

  const SCRIPTS_SPEND: Deployed := Single(DIFFERENT_SCRIPTS, NO_ENV, SCRIPTS_CODE)

  /** From a script of seven zeros to one of seven ones. */
  const SCRIPTS_TX: Context :=
    At50(ScriptPublicKey(0, [0, 0, 0, 0, 0, 0, 0]), [TxOutput(1000, ScriptPublicKey(0, [1, 1, 1, 1, 1, 1, 1]), NoCovenant)])

  lemma ScriptsLower(left: Expr, right: Expr)
    requires left == Of("output", "script") && right == Of("input", "script")
    ensures var e := Infix(left, BinaryOp.NotEqual, right);
            InFragment(e) && Lower(e) == Success([OutputScript(0), InputScript(0), Instr.NotEqual])
  {
    assert Path(left) == ["script"] && Lower(left) == Success([OutputScript(0)]) && Lower(right) == Success([InputScript(0)]);
    PlainBinary(left, BinaryOp.NotEqual, right, [OutputScript(0)], [InputScript(0)], [OutputScript(0), InputScript(0), Instr.NotEqual]);
  }

  lemma ScriptsSpendDeploys()
    ensures ValidDeployment(SCRIPTS_SPEND)
  {
    ScriptsLower(DIFFERENT_SCRIPTS.left, DIFFERENT_SCRIPTS.right);
    PlainCode(OutputScript(0), InputScript(0), Instr.NotEqual);
    PlainDeploys(DIFFERENT_SCRIPTS, NO_ENV, [OutputScript(0), InputScript(0), Instr.NotEqual], SCRIPTS_CODE);
  }

  /** The contract is deployed, the scripts of the transaction differ as it requires, and it refuses. */
  lemma ScriptsSpendRefuses()
    ensures ValidDeployment(SCRIPTS_SPEND) && Holds(WorldOf(SCRIPTS_TX, SCRIPTS_SPEND, Empty), DIFFERENT_SCRIPTS)
    ensures !Accepts(SCRIPTS_TX, Assemble(SpendOps(SCRIPTS_CODE).value), Empty)
  {
    ScriptsSpendDeploys();
    assert SpkBytes(SCRIPTS_TX.tx.outputs[0].spk)[2] == 1 && SpkBytes(SCRIPTS_TX.tx.entries[0].spk)[2] == 0;
    DifferentScriptsAreRefused(SCRIPTS_TX, SCRIPTS_SPEND, Empty, 0);
  }

  // ---- a lock test aborts ----

  /** true || block.height >= 100 */
  const LOCK_OR_NOT := Infix(Truth(true, NOWHERE), BinaryOp.Or,
                             Infix(Field(Id("block"), Ident("height", NOWHERE), NOWHERE), BinaryOp.GreaterEqual, Lit(100)))

  lemma LockOrNotIsTrue(w: World)
    ensures InFragment(LOCK_OR_NOT) && Holds(w, LOCK_OR_NOT)
    ensures !LockPassed(w.c, Num(100)) ==> LockNotReached in Faults(w, Elsewhere, LOCK_OR_NOT)
  {
    var e, test := LOCK_OR_NOT, LOCK_OR_NOT.right;
    assert Path(test.left) == ["block", "height"];
    assert IsLockTest(test) && InFragment(test.right) && InFragment(e.left) && InFragment(test) && !IsLockTest(e);
    assert Eval(w, Elsewhere, test) == Some(BoolBytes(LockPassed(w.c, Num(100))));
    BoolNum(true);
    BoolNum(LockPassed(w.c, Num(100)));
    assert Eval(w, Elsewhere, e) == Some(BoolBytes(true));
    assert Faults(w, Elsewhere, test) <= Faults(w, Elsewhere, e);
  }

  /** A requirement that is true whatever the lock refuses every transaction whose lock is not reached. */
  lemma AlternativeLockIsDemanded(c: Context, d: Deployed, st: Stack, i: nat)
    requires ValidDeployment(d) && i < |d.body| && d.body[i].expr == LOCK_OR_NOT && Height(st) == |d.args|
    requires !LockPassed(c, Num(100))
    ensures Holds(WorldOf(c, d, st), d.body[i].expr) && !Accepts(c, Assemble(SpendOps(d.code).value), st)
  {
    LockOrNotIsTrue(WorldOf(c, d, st));
    SpendAccepts(c, d, st);
  }

  const LOCK_CODE: Code := [Push(BoolValue(true)), CheckLockHeight(100), Instr.Or, Verify]

  const LOCK_SPEND: Deployed := Single(LOCK_OR_NOT, NO_ENV, LOCK_CODE)

  lemma AlternativeLowers(test: Expr)
    requires test == LOCK_OR_NOT.right
    ensures Lower(LOCK_OR_NOT) == Success([Push(BoolValue(true)), CheckLockHeight(100), Instr.Or])
  {
    var yes := Truth(true, NOWHERE);
    assert Path(test.left) == ["block", "height"];
    LockShape(test);
    assert Lower(yes) == Success([Push(BoolValue(true))]) && Path(yes) == [];
    PlainBinary(yes, BinaryOp.Or, test, [Push(BoolValue(true))], [CheckLockHeight(100)],
                [Push(BoolValue(true)), CheckLockHeight(100), Instr.Or]);
  }

  lemma LockCodeReady()
    ensures IsReady(Push(BoolValue(true))) && IsReady(CheckLockHeight(100)) && IsReady(Instr.Or)
  {
  }

  lemma LockSpendDeploys()
    ensures ValidDeployment(LOCK_SPEND)
  {
    LockOrNotIsTrue(World(EMPTY_TX, NO_ENV));
    LockCodeReady();
    AlternativeLowers(LOCK_OR_NOT.right);
    PlainCode(Push(BoolValue(true)), CheckLockHeight(100), Instr.Or);
    PlainDeploys(LOCK_OR_NOT, NO_ENV, [Push(BoolValue(true)), CheckLockHeight(100), Instr.Or], LOCK_CODE);
  }

  /** The contract is deployed, its requirement holds at height 50, and it refuses there. */
  lemma LockSpendRefuses()
    ensures ValidDeployment(LOCK_SPEND) && Holds(WorldOf(EMPTY_TX, LOCK_SPEND, Empty), LOCK_OR_NOT)
    ensures !Accepts(EMPTY_TX, Assemble(SpendOps(LOCK_CODE).value), Empty)
  {
    LockSpendDeploys();
    NumUnsigned(100);
    AlternativeLockIsDemanded(EMPTY_TX, LOCK_SPEND, Empty, 0);
  }

  // ---- one-byte data has a shorter push ----

  /** Parameters of one byte that a small-number opcode could push are encoded as data pushes, which
      the engine refuses: no stack unlocks a spend with one of them. */
  lemma SmallDataIsRefused(c: Context, d: Deployed, st: Stack, i: nat, b: byte)
    requires ValidDeployment(d) && i < |d.code| && d.code[i] == Push(BytesValue([b]))
    requires 1 <= b <= 16 || b == 0x81
    ensures !Accepts(c, Assemble(SpendOps(d.code).value), st)
  {
    SpendAccepts(c, d, st);
    assert !CanPush(d.code[i].value);
  }

  const TAG: Bytes := [5]

  /** tag == tag */
  const TAG_IS_ITSELF := Infix(Id("tag"), BinaryOp.Equal, Id("tag"))

  const TAG_ENV: Env := (name: string, r: Reading) => if name == "tag" then Some(BytesValue(TAG)) else None

  const TAG_CODE: Code := [Push(BytesValue(TAG)), Push(BytesValue(TAG)), Instr.Equal, Verify]

  const TAG_SPEND: Deployed := Single(TAG_IS_ITSELF, TAG_ENV, TAG_CODE)

  lemma TagBinds(source: Code)
    requires source == [Sym("tag"), Sym("tag"), Instr.Equal]
    ensures Instantiate({}, TAG_ENV, Elsewhere, source + [Verify]) == Some(TAG_CODE)
  {
    InstantiateSymbol({}, TAG_ENV, Elsewhere, [], "tag", [], BytesValue(TAG));
    InstantiateSymbol({}, TAG_ENV, Elsewhere, [], "tag", [Instr.Equal, Verify], BytesValue(TAG));
    var head, rest := [] + [Sym("tag")] + [], [] + [Sym("tag")] + [Instr.Equal, Verify];
    var first, second := [] + [Push(BytesValue(TAG))] + [], [] + [Push(BytesValue(TAG))] + [Instr.Equal, Verify];
    InstantiateInTurn({}, TAG_ENV, head, rest, first, second);
    assert first + second == TAG_CODE;
    assert head + rest == source + [Verify];
  }

  lemma TagSpendDeploys()
    ensures ValidDeployment(TAG_SPEND)
  {
    var source := [Sym("tag"), Sym("tag"), Instr.Equal];
    PlainBinary(Id("tag"), BinaryOp.Equal, Id("tag"), [Sym("tag")], [Sym("tag")], source);
    TagBinds(source);
    TagCodeEncodes();
    SingleDeploys(TAG_IS_ITSELF, TAG_ENV, source, TAG_CODE);
  }

  lemma TagCodeEncodes()
    ensures CodeOps(TAG_CODE).Success?
  {
    assert TAG_CODE[1..][1..] == [Instr.Equal, Verify] && TAG_CODE[1..][1..][1..] == [Verify] && TAG_CODE[1..][1..][1..][1..] == [];
    assert CodeOps([Verify]).Success?;
    assert CodeOps(TAG_CODE[1..][1..]).Success?;
    assert CodeOps(TAG_CODE[1..]).Success?;
  }

  /** The contract is deployed, its requirement holds everywhere, and nothing unlocks it. */
  lemma TagSpendRefuses(c: Context, st: Stack)
    ensures ValidDeployment(TAG_SPEND) && Holds(World(c, TAG_ENV), TAG_IS_ITSELF)
    ensures !Accepts(c, Assemble(SpendOps(TAG_CODE).value), st)
  {
    TagSpendDeploys();
    SmallDataIsRefused(c, TAG_SPEND, st, 0, 5);
    BoolNum(true);
    assert Eval(World(c, TAG_ENV), Elsewhere, TAG_IS_ITSELF) == Some(BoolBytes(true));
  }

  // ---- a successor named under `||` ----

  /** continuation("next", output(5)) */
  const NEXT := Call(Id("continuation"), [Text("next", NOWHERE), Call(Id("output"), [Lit(5)], NOWHERE)], NOWHERE)

  /** true || continuation("next", output(5)) */
  const ALTERNATIVE := Infix(Truth(true, NOWHERE), BinaryOp.Or, NEXT)

  const NEXT_CODE: Code := [OutputCount, Push(IntegerValue(5)), GreaterThan]

  const ALTERNATIVE_CODE: Code := [Push(BoolValue(true))] + NEXT_CODE + [Instr.Or, Verify]

  const ALTERNATIVE_SPEND: Deployed := Single(ALTERNATIVE, NO_ENV, ALTERNATIVE_CODE)

  lemma AlternativeListsSuccessor()
    ensures M.Successor("next", 5) in M.ModelOf([Must(ALTERNATIVE)]).continuation.named
  {
    var e, body := ALTERNATIVE, [Must(ALTERNATIVE)];
    assert M.SuccessorOf(NEXT) == Some(M.Successor("next", 5));
    var before, after := [e, e.left], Inside(NEXT);
    assert Parts(e.left) == [e.left] && Parts(NEXT) == [NEXT] + after;
    assert Parts(e) == [e] + ([e.left] + ([NEXT] + after)) == before + ([NEXT] + after);
    M.SuccessorsConcat(before, [NEXT] + after);
    M.SuccessorsHead(NEXT, after);
    assert body[1..] == [] && Requirements(body) == [e] && [e][1..] == [];
    assert AllParts([e]) == Parts(e) + AllParts([]) == Parts(e);
  }

  lemma AlternativeIsChecked(l: C.Locals)
    ensures C.BodyOk(l, [Must(ALTERNATIVE)])
  {
    assert [Must(ALTERNATIVE)][1..] == [];
    assert C.IsContinuationLabel("next") && IsOutputCall(NEXT.args[1]);
    assert C.CallWellTyped(l.scope, NEXT) && C.TypeOf(l.scope, NEXT) == Some(BoolType);
    assert C.WellTyped(l.scope, ALTERNATIVE.left) && C.TypeOf(l.scope, ALTERNATIVE.left) == Some(BoolType);
    assert C.WellTyped(l.scope, ALTERNATIVE) && C.TypeOf(l.scope, ALTERNATIVE) == Some(BoolType);
  }

  lemma AlternativeSpendDeploys()
    ensures ValidDeployment(ALTERNATIVE_SPEND) && Pushable(ALTERNATIVE_CODE)
  {
    var yes, code := Truth(true, NOWHERE), [Push(BoolValue(true))] + NEXT_CODE + [Instr.Or];
    assert IsContinuation(NEXT);
    ContinuationShape(NEXT);
    PlainBinary(yes, BinaryOp.Or, NEXT, [Push(BoolValue(true))], NEXT_CODE, code);
    AlternativeReady();
    PlainDeploys(ALTERNATIVE, NO_ENV, code, ALTERNATIVE_CODE);
  }

  lemma AlternativeReady()
    ensures Plain(ALTERNATIVE_CODE) && Ready(ALTERNATIVE_CODE)
    ensures ALTERNATIVE_CODE == [Push(BoolValue(true))] + NEXT_CODE + [Instr.Or] + [Verify]
  {
    ChecksReady();
    ReadsReady();
    assert IsReady(Push(BoolValue(true))) && IsReady(Push(IntegerValue(5))) && IsReady(Instr.Or);
    assert ALTERNATIVE_CODE == [Push(BoolValue(true)), OutputCount, Push(IntegerValue(5)), GreaterThan] + [Instr.Or, Verify];
    ReadyFour(Push(BoolValue(true)), OutputCount, Push(IntegerValue(5)), GreaterThan);
    ReadyTwo(Instr.Or, Verify);
  }

  lemma AlternativeIsTrue(w: World)
    requires w.c.tx.outputs == []
    ensures InFragment(ALTERNATIVE) && Holds(w, ALTERNATIVE) && Faults(w, Elsewhere, ALTERNATIVE) == {}
  {
    var e := ALTERNATIVE;
    assert IsCallOf(NEXT, "continuation") && !IsVerify(NEXT) && !IsHash(NEXT) && !IsMultisig(NEXT) && IsContinuation(NEXT);
    assert Eval(w, Elsewhere, NEXT) == EvalCall(w, Elsewhere, NEXT);
    BoolNum(true);
    BoolNum(false);
    NumRoundTrip(0);
    assert InFragment(e.left) && InFragment(NEXT) && !IsLockTest(e);
    assert Eval(w, Elsewhere, e) == Some(BoolBytes(true));
  }

  /** The model lists a successor named under `||` all the same: the checked contract is deployed, and its
      script accepts a transaction without any output. */
  lemma AlternativeSuccessorsAreNotEnforced(l: C.Locals)
    ensures ValidDeployment(ALTERNATIVE_SPEND) && C.BodyOk(l, ALTERNATIVE_SPEND.body)
    ensures M.Successor("next", 5) in M.ModelOf(ALTERNATIVE_SPEND.body).continuation.named
    ensures Accepts(EMPTY_TX, Assemble(SpendOps(ALTERNATIVE_CODE).value), Empty) && EMPTY_TX.tx.outputs == []
  {
    AlternativeSpendDeploys();
    AlternativeIsChecked(l);
    AlternativeListsSuccessor();
    AlternativeIsTrue(WorldOf(EMPTY_TX, ALTERNATIVE_SPEND, Empty));
    SpendAccepts(EMPTY_TX, ALTERNATIVE_SPEND, Empty);
  }
}
