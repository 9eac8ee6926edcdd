/** The two-party escrow contract, its code, and the policy it must enforce
    (contracts/buyer_seller_escrow.ks). */
module EscrowContract {
  import opened Wrappers
  import opened ScriptNumbers
  import opened Syntax
  import opened Instructions
  import opened Lowering
  import opened Script
  import opened Encoding
  import opened Engine
  import opened Simulation
  import opened Evaluation
  import opened Correctness
  import opened Spends

  function Id(name: string): Expr { Name(Ident(name, NOWHERE)) }

  function Lit(n: u64): Expr { Integer(n, NOWHERE) }

  function Infix(left: Expr, op: BinaryOp, right: Expr): Expr { Binary(left, op, right, NOWHERE) }

  function Of(root: string, field: string): Expr {
    Field(Call(Id(root), [Lit(0)], NOWHERE), Ident(field, NOWHERE), NOWHERE)
  }

  function Must(e: Expr): Stmt { Require(e, NOWHERE) }

  // ---- the source ----

  const BOTH_SIGN: Expr :=
    Call(Id("multisig"),
         [Lit(2), Array([Id("buyer"), Id("seller")], NOWHERE), Array([Id("buyer_sig"), Id("seller_sig")], NOWHERE)],
         NOWHERE)

  const BUYER_SIGNS: Expr :=
    Call(Field(Id("buyer_sig"), Ident("verify", NOWHERE), NOWHERE), [Id("buyer")], NOWHERE)

  const DEADLINE: Expr :=
    Infix(Field(Id("block"), Ident("height", NOWHERE), NOWHERE), GreaterEqual, Id("refund_daa_score"))

  const ONE_INPUT: Expr := Infix(Id("input_count"), BinaryOp.Equal, Lit(1))

  const ONE_OUTPUT: Expr := Infix(Id("output_count"), BinaryOp.Equal, Lit(1))

  const ABOVE_CAP: Expr := Infix(Of("input", "value"), Greater, Id("max_fee"))

  const FEE_CAPPED: Expr :=
    Infix(Of("output", "value"), GreaterEqual, Infix(Of("input", "value"), BinaryOp.Sub, Id("max_fee")))

  function Pays(payee: string): Expr { Infix(Of("output", "script"), BinaryOp.Equal, Id(payee)) }

  /** The requirements both paths share. */
  function SinglePayment(payee: string): seq<Stmt> {
    [Must(ONE_INPUT), Must(ONE_OUTPUT), Must(ABOVE_CAP), Must(FEE_CAPPED), Must(Pays(payee))]
  }

  const RELEASE: seq<Stmt> := [Must(BOTH_SIGN)] + SinglePayment("seller")

  const REFUND: seq<Stmt> := [Must(BUYER_SIGNS), Must(DEADLINE)] + SinglePayment("buyer")

  // ---- the code it lowers to ----

  function Sym(name: string): Instr { Push(SymbolValue(name)) }

  const ONE_INPUT_CODE: Code := [InputCount, Push(IntegerValue(1)), Instr.Equal, Verify]

  const ONE_OUTPUT_CODE: Code := [OutputCount, Push(IntegerValue(1)), Instr.Equal, Verify]

  function AboveCapCode(cap: Instr): Code { [InputValue(0), cap, GreaterThan, Verify] }

  function FeeCappedCode(cap: Instr): Code {
    [OutputValue(0), InputValue(0), cap, Instr.Sub, GreaterThanOrEqual, Verify]
  }

  function PaysCode(payee: Instr): Code { [OutputScript(0), payee, Instr.Equal, Verify] }

  function PaymentCode(cap: Instr, payee: Instr): Code {
    ONE_INPUT_CODE + (ONE_OUTPUT_CODE + (AboveCapCode(cap) + (FeeCappedCode(cap) + PaysCode(payee))))
  }

  function BothSignCode(buyer: Instr, seller: Instr): Code {
    [Push(IntegerValue(2)), buyer, seller, CheckMultiSig(2, 2), Verify]
  }

  function BuyerSignsCode(buyer: Instr): Code { [buyer, CheckSig(0), Verify] }

  function DeadlineCode(deadline: Instr): Code { [deadline, CheckLockHeightFromStack, Verify] }

  lemma LowersTo(stmt: Stmt, rest: seq<Stmt>, first: Code, others: Code)
    requires LowerStmt(stmt) == Success(first) && LowerBody(rest) == Success(others)
    ensures LowerBody([stmt] + rest) == Success(first + others)
  {
    assert ([stmt] + rest)[1..] == rest;
  }

  lemma PlainBinary(left: Expr, op: BinaryOp, right: Expr, l: Code, r: Code, code: Code)
    requires Lower(left) == Success(l) && Lower(right) == Success(r) && |Path(left)| <= 1
    requires l + r + [BinaryInstr(op)] == code
    ensures Lower(Infix(left, op, right)) == Success(code)
  {
    assert !IsLockTest(Infix(left, op, right));
    BinaryShape(Infix(left, op, right));
  }

  lemma MustLowers(e: Expr, code: Code, stmtCode: Code)
    requires Lower(e) == Success(code) && code + [Verify] == stmtCode
    ensures LowerStmt(Must(e)) == Success(stmtCode)
  {
  }

  lemma CountLowers(name: string, instr: Instr)
    requires (name == "input_count" && instr == InputCount) || (name == "output_count" && instr == OutputCount)
    ensures LowerStmt(Must(Infix(Id(name), BinaryOp.Equal, Lit(1)))) ==
            Success([instr, Push(IntegerValue(1)), Instr.Equal, Verify])
  {
    var code := [instr, Push(IntegerValue(1)), Instr.Equal];
    PlainBinary(Id(name), BinaryOp.Equal, Lit(1), [instr], [Push(IntegerValue(1))], code);
    MustLowers(Infix(Id(name), BinaryOp.Equal, Lit(1)), code, code + [Verify]);
    assert code + [Verify] == [instr, Push(IntegerValue(1)), Instr.Equal, Verify];
  }

  lemma AboveCapLowers()
    ensures LowerStmt(Must(ABOVE_CAP)) == Success(AboveCapCode(Sym("max_fee")))
  {
    var code := [InputValue(0), Sym("max_fee"), GreaterThan];
    PlainBinary(Of("input", "value"), Greater, Id("max_fee"), [InputValue(0)], [Sym("max_fee")], code);
    MustLowers(ABOVE_CAP, code, AboveCapCode(Sym("max_fee")));
  }

  lemma FeeCappedLowers()
    ensures LowerStmt(Must(FEE_CAPPED)) == Success(FeeCappedCode(Sym("max_fee")))
  {
    var least := Infix(Of("input", "value"), BinaryOp.Sub, Id("max_fee"));
    var difference := [InputValue(0), Sym("max_fee"), Instr.Sub];
    PlainBinary(Of("input", "value"), BinaryOp.Sub, Id("max_fee"), [InputValue(0)], [Sym("max_fee")], difference);
    var code := [OutputValue(0), InputValue(0), Sym("max_fee"), Instr.Sub, GreaterThanOrEqual];
    PlainBinary(Of("output", "value"), GreaterEqual, least, [OutputValue(0)], difference, code);
    MustLowers(FEE_CAPPED, code, FeeCappedCode(Sym("max_fee")));
  }

  lemma PaysLowers(payee: string)
    requires payee == "seller" || payee == "buyer"
    ensures LowerStmt(Must(Pays(payee))) == Success(PaysCode(Sym(payee)))
  {
    var code := [OutputScript(0), Sym(payee), Instr.Equal];
    PlainBinary(Of("output", "script"), BinaryOp.Equal, Id(payee), [OutputScript(0)], [Sym(payee)], code);
    MustLowers(Pays(payee), code, PaysCode(Sym(payee)));
  }

  lemma PaymentLowers(payee: string)
    requires payee == "seller" || payee == "buyer"
    ensures LowerBody(SinglePayment(payee)) == Success(PaymentCode(Sym("max_fee"), Sym(payee)))
  {
    var cap := Sym("max_fee");
    CountLowers("input_count", InputCount);
    CountLowers("output_count", OutputCount);
    AboveCapLowers();
    FeeCappedLowers();
    PaysLowers(payee);
    var pays, capped := PaysCode(Sym(payee)), FeeCappedCode(cap) + PaysCode(Sym(payee));
    var body := [Must(Pays(payee))];
    assert body[1..] == [] && pays + [] == pays;
    assert LowerBody(body) == Success(pays);
    LowersTo(Must(FEE_CAPPED), body, FeeCappedCode(cap), pays);
    body := [Must(FEE_CAPPED)] + body;
    LowersTo(Must(ABOVE_CAP), body, AboveCapCode(cap), capped);
    body := [Must(ABOVE_CAP)] + body;
    LowersTo(Must(ONE_OUTPUT), body, ONE_OUTPUT_CODE, AboveCapCode(cap) + capped);
    body := [Must(ONE_OUTPUT)] + body;
    LowersTo(Must(ONE_INPUT), body, ONE_INPUT_CODE, ONE_OUTPUT_CODE + (AboveCapCode(cap) + capped));
    assert [Must(ONE_INPUT)] + body == SinglePayment(payee);
  }

  lemma BothSignLowers()
    ensures LowerStmt(Must(BOTH_SIGN)) ==
            Success(ArgPushes(["buyer_sig", "seller_sig"]) + BothSignCode(Sym("buyer"), Sym("seller")))
  {
    MultisigShape(BOTH_SIGN);
    PairLowers("buyer_sig", "seller_sig");
    PairLowers("buyer", "seller");
    var count, check := Push(IntegerValue(2)), CheckMultiSig(2, 2);
    var code := [Sym("buyer_sig"), Sym("seller_sig")] + [count] + [Sym("buyer"), Sym("seller")] + [check];
    assert Lower(BOTH_SIGN) == Success(code);
    MustLowers(BOTH_SIGN, code, ArgPushes(["buyer_sig", "seller_sig"]) + BothSignCode(Sym("buyer"), Sym("seller")));
  }

  lemma PairLowers(a: string, b: string)
    requires a !in {"input_count", "output_count"} && b !in {"input_count", "output_count"}
    ensures LowerAll([Id(a), Id(b)]) == Success([Sym(a), Sym(b)])
  {
    assert [Id(a), Id(b)][1..] == [Id(b)] && [Id(b)][1..] == [];
    assert LowerAll([Id(b)]) == Success([Sym(b)] + []);
    assert [Sym(b)] + [] == [Sym(b)] && [Sym(a)] + [Sym(b)] == [Sym(a), Sym(b)];
  }

  lemma BuyerSignsLowers()
    ensures LowerStmt(Must(BUYER_SIGNS)) == Success(ArgPushes(["buyer_sig"]) + BuyerSignsCode(Sym("buyer")))
  {
    VerifyShape(BUYER_SIGNS);
    var code := [Sym("buyer_sig")] + [Sym("buyer")] + [CheckSig(0)];
    MustLowers(BUYER_SIGNS, code, ArgPushes(["buyer_sig"]) + BuyerSignsCode(Sym("buyer")));
  }

  lemma DeadlineLowers()
    ensures IsLockTest(DEADLINE)
    ensures LowerStmt(Must(DEADLINE)) == Success(DeadlineCode(Sym("refund_daa_score")))
  {
    LockShape(DEADLINE);
    var code := [Sym("refund_daa_score")] + [CheckLockHeightFromStack];
    MustLowers(DEADLINE, code, DeadlineCode(Sym("refund_daa_score")));
  }

  // ---- the code with its parameters in place ----

  predicate Plain(code: Code) {
    forall i :: 0 <= i < |code| ==> !IsSymbol(code[i])
  }

  lemma {:induction false} InstantiateConcat(args: set<string>, env: Env, r: Reading, a: Code, b: Code)
    ensures Instantiate(args, env, r, a + b) ==
            match (Instantiate(args, env, r, a), Instantiate(args, env, After(r, a), b))
            case (Some(ca), Some(cb)) => Some(ca + cb)
            case _ => None
    decreases a
  {
    var cb := Instantiate(args, env, After(r, a), b);
    if a == [] {
      assert a + b == b;
      if cb.Some? { assert [] + cb.value == cb.value; }
    } else {
      assert (a + b)[0] == a[0] && (a + b)[1..] == a[1..] + b;
      InstantiateConcat(args, env, ReadingAfter(a[0]), a[1..], b);
      assert After(ReadingAfter(a[0]), a[1..]) == After(r, a);
      var first, rest := BindInstr(env, r, a[0]), Instantiate(args, env, ReadingAfter(a[0]), a[1..]);
      if first.Some? && rest.Some? && cb.Some? { ConcatAssociates([first.value], rest.value, cb.value); }
    }
  }

  lemma {:induction false} InstantiatePlain(args: set<string>, env: Env, r: Reading, code: Code)
    requires Plain(code)
    ensures Instantiate(args, env, r, code) == Some(code)
    decreases code
  {
    if code != [] {
      InstantiatePlain(args, env, ReadingAfter(code[0]), code[1..]);
      assert code == [code[0]] + code[1..];
    }
  }

  /** One symbol between plain code takes the value its reading gives it. */
  lemma InstantiateSymbol(args: set<string>, env: Env, r: Reading, pre: Code, name: string, post: Code, value: Value)
    requires Plain(pre) && Plain(post) && name !in args && env(name, After(r, pre)) == Some(value)
    ensures Instantiate(args, env, r, pre + [Sym(name)] + post) == Some(pre + [Push(value)] + post)
  {
    InstantiatePlain(args, env, r, pre);
    assert [Sym(name)][1..] == [];
    assert Instantiate(args, env, Elsewhere, []) == Some([]);
    assert [Push(value)] + [] == [Push(value)];
    InstantiateConcat(args, env, r, pre, [Sym(name)]);
    InstantiatePlain(args, env, Elsewhere, post);
    InstantiateConcat(args, env, r, pre + [Sym(name)], post);
  }

  lemma AboveCapBinds(args: set<string>, env: Env, cap: Value)
    requires "max_fee" !in args && env("max_fee", Elsewhere) == Some(cap)
    ensures Instantiate(args, env, Elsewhere, AboveCapCode(Sym("max_fee"))) == Some(AboveCapCode(Push(cap)))
  {
    InstantiateSymbol(args, env, Elsewhere, [InputValue(0)], "max_fee", [GreaterThan, Verify], cap);
    assert AboveCapCode(Sym("max_fee")) == [InputValue(0)] + [Sym("max_fee")] + [GreaterThan, Verify];
    assert AboveCapCode(Push(cap)) == [InputValue(0)] + [Push(cap)] + [GreaterThan, Verify];
  }

  lemma FeeCappedBinds(args: set<string>, env: Env, cap: Value)
    requires "max_fee" !in args && env("max_fee", Elsewhere) == Some(cap)
    ensures Instantiate(args, env, Elsewhere, FeeCappedCode(Sym("max_fee"))) == Some(FeeCappedCode(Push(cap)))
  {
    var before, after := [OutputValue(0), InputValue(0)], [Instr.Sub, GreaterThanOrEqual, Verify];
    InstantiateSymbol(args, env, Elsewhere, before, "max_fee", after, cap);
    assert FeeCappedCode(Sym("max_fee")) == before + [Sym("max_fee")] + after;
    assert FeeCappedCode(Push(cap)) == before + [Push(cap)] + after;
  }

  lemma PaysBinds(args: set<string>, env: Env, payee: string, lock: Value)
    requires payee !in args && env(payee, AfterOutputScript) == Some(lock)
    ensures Instantiate(args, env, Elsewhere, PaysCode(Sym(payee))) == Some(PaysCode(Push(lock)))
  {
    InstantiateSymbol(args, env, Elsewhere, [OutputScript(0)], payee, [Instr.Equal, Verify], lock);
    assert PaysCode(Sym(payee)) == [OutputScript(0)] + [Sym(payee)] + [Instr.Equal, Verify];
    assert PaysCode(Push(lock)) == [OutputScript(0)] + [Push(lock)] + [Instr.Equal, Verify];
  }

  lemma InstantiateInTurn(args: set<string>, env: Env, a: Code, b: Code, ca: Code, cb: Code)
    requires a != [] && ReadingAfter(a[|a| - 1]) == Elsewhere
    requires Instantiate(args, env, Elsewhere, a) == Some(ca) && Instantiate(args, env, Elsewhere, b) == Some(cb)
    ensures Instantiate(args, env, Elsewhere, a + b) == Some(ca + cb)
  {
    InstantiateConcat(args, env, Elsewhere, a, b);
  }

  lemma PaymentBinds(args: set<string>, env: Env, payee: string, cap: Value, lock: Value)
    requires "max_fee" !in args && payee !in args
    requires env("max_fee", Elsewhere) == Some(cap) && env(payee, AfterOutputScript) == Some(lock)
    ensures Instantiate(args, env, Elsewhere, PaymentCode(Sym("max_fee"), Sym(payee))) ==
            Some(PaymentCode(Push(cap), Push(lock)))
  {
    var fee, pays := Sym("max_fee"), PaysCode(Sym(payee));
    InstantiatePlain(args, env, Elsewhere, ONE_INPUT_CODE);
    InstantiatePlain(args, env, Elsewhere, ONE_OUTPUT_CODE);
    AmountsBind(args, env, payee, cap, lock);
    var rest, rest' := AboveCapCode(fee) + (FeeCappedCode(fee) + pays),
      AboveCapCode(Push(cap)) + (FeeCappedCode(Push(cap)) + PaysCode(Push(lock)));
    InstantiateInTurn(args, env, ONE_OUTPUT_CODE, rest, ONE_OUTPUT_CODE, rest');
    InstantiateInTurn(args, env, ONE_INPUT_CODE, ONE_OUTPUT_CODE + rest, ONE_INPUT_CODE, ONE_OUTPUT_CODE + rest');
  }

  lemma AmountsBind(args: set<string>, env: Env, payee: string, cap: Value, lock: Value)
    requires "max_fee" !in args && payee !in args
    requires env("max_fee", Elsewhere) == Some(cap) && env(payee, AfterOutputScript) == Some(lock)
    ensures var fee := Sym("max_fee");
            Instantiate(args, env, Elsewhere, AboveCapCode(fee) + (FeeCappedCode(fee) + PaysCode(Sym(payee)))) ==
            Some(AboveCapCode(Push(cap)) + (FeeCappedCode(Push(cap)) + PaysCode(Push(lock))))
  {
    var fee, pays := Sym("max_fee"), PaysCode(Sym(payee));
    AboveCapBinds(args, env, cap);
    FeeCappedBinds(args, env, cap);
    PaysBinds(args, env, payee, lock);
    InstantiateInTurn(args, env, FeeCappedCode(fee), pays, FeeCappedCode(Push(cap)), PaysCode(Push(lock)));
    InstantiateInTurn(args, env, AboveCapCode(fee), FeeCappedCode(fee) + pays,
                      AboveCapCode(Push(cap)), FeeCappedCode(Push(cap)) + PaysCode(Push(lock)));
  }

  /** An instruction that can be encoded, and that pushes a number, a truth value or at most 75 bytes the engine accepts. */
  predicate IsReady(instr: Instr) {
    InstrOps(instr).Success? && (instr.Push? ==> CanPush(instr.value) && IsShort(instr.value))
  }

  predicate IsShort(value: Value) {
    value.IntegerValue? || value.BoolValue? || (value.BytesValue? && |value.bytes| <= 75)
  }

  predicate Ready(code: Code) {
    forall i :: 0 <= i < |code| ==> IsReady(code[i])
  }

  lemma {:induction false} ReadyEncodes(code: Code)
    requires Ready(code)
    ensures CodeOps(code).Success? && Pushable(code)
  {
    if code != [] {
      assert IsReady(code[0]);
      ReadyEncodes(code[1..]);
    }
  }

  lemma PushesReady()
    ensures IsReady(Push(IntegerValue(1))) && IsReady(Push(IntegerValue(2)))
  {
  }

  lemma ReadsReady()
    ensures IsReady(InputCount) && IsReady(OutputCount)
    ensures IsReady(InputValue(0)) && IsReady(OutputValue(0)) && IsReady(OutputScript(0))
  {
  }

  lemma ChecksReady()
    ensures IsReady(Verify) && IsReady(Instr.Equal) && IsReady(GreaterThan) && IsReady(GreaterThanOrEqual) && IsReady(Instr.Sub)
    ensures IsReady(CheckSig(0)) && IsReady(CheckMultiSig(2, 2)) && IsReady(CheckLockHeightFromStack)
  {
  }

  lemma ReadyFour(a: Instr, b: Instr, c: Instr, d: Instr)
    requires IsReady(a) && IsReady(b) && IsReady(c) && IsReady(d)
    ensures Ready([a, b, c, d])
  {
  }

  lemma ReadyTwo(a: Instr, b: Instr)
    requires IsReady(a) && IsReady(b)
    ensures Ready([a, b])
  {
  }

  lemma ReadyConcat(a: Code, b: Code)
    requires Ready(a) && Ready(b)
    ensures Ready(a + b)
  {
  }

  lemma PaymentReady(cap: Value, lock: Value)
    requires IsReady(Push(cap)) && IsReady(Push(lock))
    ensures Ready(PaymentCode(Push(cap), Push(lock)))
  {
    PushesReady();
    ReadsReady();
    ChecksReady();
    var fee, pays := FeeCappedCode(Push(cap)), PaysCode(Push(lock));
    ReadyFour(InputCount, Push(IntegerValue(1)), Instr.Equal, Verify);
    ReadyFour(OutputCount, Push(IntegerValue(1)), Instr.Equal, Verify);
    ReadyFour(InputValue(0), Push(cap), GreaterThan, Verify);
    ReadyFour(OutputValue(0), InputValue(0), Push(cap), Instr.Sub);
    ReadyTwo(GreaterThanOrEqual, Verify);
    ReadyFour(OutputScript(0), Push(lock), Instr.Equal, Verify);
    assert fee == [OutputValue(0), InputValue(0), Push(cap), Instr.Sub] + [GreaterThanOrEqual, Verify];
    ReadyConcat([OutputValue(0), InputValue(0), Push(cap), Instr.Sub], [GreaterThanOrEqual, Verify]);
    ReadyConcat(fee, pays);
    ReadyConcat(AboveCapCode(Push(cap)), fee + pays);
    ReadyConcat(ONE_OUTPUT_CODE, AboveCapCode(Push(cap)) + (fee + pays));
    ReadyConcat(ONE_INPUT_CODE, ONE_OUTPUT_CODE + (AboveCapCode(Push(cap)) + (fee + pays)));
  }

  lemma NoMentionConcat(a: Code, b: Code, args: set<string>)
    requires !Mentions(a, args) && !Mentions(b, args)
    ensures !Mentions(a + b, args)
  {
  }

  lemma PaymentMentions(payee: string, args: set<string>)
    requires args <= {"buyer_sig", "seller_sig"} && (payee == "seller" || payee == "buyer")
    ensures !Mentions(PaymentCode(Sym("max_fee"), Sym(payee)), args)
  {
    var fee, pays := Sym("max_fee"), PaysCode(Sym(payee));
    assert !Mentions(pays, args) && !Mentions(FeeCappedCode(fee), args) && !Mentions(AboveCapCode(fee), args);
    assert !Mentions(ONE_INPUT_CODE, args) && !Mentions(ONE_OUTPUT_CODE, args);
    NoMentionConcat(FeeCappedCode(fee), pays, args);
    NoMentionConcat(AboveCapCode(fee), FeeCappedCode(fee) + pays, args);
    NoMentionConcat(ONE_OUTPUT_CODE, AboveCapCode(fee) + (FeeCappedCode(fee) + pays), args);
    NoMentionConcat(ONE_INPUT_CODE, ONE_OUTPUT_CODE + (AboveCapCode(fee) + (FeeCappedCode(fee) + pays)), args);
  }
}
