/** The two-path escrow: one lock that enforces the agreed policy, and spends that satisfy it
    (compatibility/toccata-v2/src/escrow.rs). */
module Escrow {
  import opened Wrappers
  import opened ScriptNumbers
  import opened Syntax
  import opened Instructions
  import opened Lowering
  import opened Script
  import opened Encoding
  import opened Engine
  import opened Simulation
  import opened Evaluation
  import opened Correctness
  import opened Spends
  import opened EscrowContract

  datatype Terms = Terms(buyer: Bytes, seller: Bytes, refundDaaScore: u64, maxFee: u64)

  datatype SpendPath = Release | Refund

  // ---- parameters ----

  const ARGUMENTS: set<string> := {"buyer_sig", "seller_sig"}

  function KeyValue(key: Bytes, r: Reading): Value {
    BytesValue(if r == AfterOutputScript then SpkBytes(PayToKey(key)) else key)
  }

  /** The value of each source parameter; a key compared with an output script stands for that key's
      pay-to-key script. */
  function ParameterValue(t: Terms, name: string, r: Reading): Option<Value> {
    if name == "max_fee" then Some(IntegerValue(t.maxFee))
    else if name == "refund_daa_score" then Some(IntegerValue(t.refundDaaScore))
    else if name == "buyer" then Some(KeyValue(t.buyer, r))
    else if name == "seller" then Some(KeyValue(t.seller, r))
    else None
  }

  function EscrowEnv(t: Terms): Env { (name: string, r: Reading) => ParameterValue(t, name, r) }

  /** The parameter binder: a loop over the instructions, looking back at the previous one. */
  method BindParameters(t: Terms, code: Code) returns (r: Option<Code>)
    ensures r == Instantiate(ARGUMENTS, EscrowEnv(t), Elsewhere, code)
  {
    var result: Code := [];
    assert code[0..] == code;
    ghost var whole := Instantiate(ARGUMENTS, EscrowEnv(t), Elsewhere, code);
    if whole.Some? { assert [] + whole.value == whole.value; }
    for i := 0 to |code|
      invariant var previous := if i == 0 then Elsewhere else ReadingAfter(code[i - 1]);
                whole == match Instantiate(ARGUMENTS, EscrowEnv(t), previous, code[i..])
                         case Some(rest) => Some(result + rest)
                         case None => None
    {
      assert code[i..][0] == code[i] && code[i..][1..] == code[i + 1..];
      ghost var todo := Instantiate(ARGUMENTS, EscrowEnv(t), ReadingAfter(code[i]), code[i + 1..]);
      var instr := code[i];
      if instr.Push? && instr.value.SymbolValue? {
        var name := instr.value.name;
        if name == "buyer_sig" || name == "seller_sig" { continue; }
        var value: Value;
        if name == "max_fee" {
          value := IntegerValue(t.maxFee);
        } else if name == "refund_daa_score" {
          value := IntegerValue(t.refundDaaScore);
        } else if name == "buyer" || name == "seller" {
          var key := if name == "buyer" then t.buyer else t.seller;
          var asScript := i > 0 && code[i - 1].OutputScript?;
          value := BytesValue(if asScript then SpkBytes(PayToKey(key)) else key);
        } else {
          return None;
        }
        instr := Push(value);
      }
      if todo.Some? { ConcatAssociates(result, [instr], todo.value); }
      result := result + [instr];
    }
    assert result + [] == result;
    return Some(result);
  }

  // ---- the two branches and the redeem script ----

  function Deadline(t: Terms): Instr { Push(IntegerValue(t.refundDaaScore)) }

  function Lock(key: Bytes): Value { BytesValue(SpkBytes(PayToKey(key))) }

  function PaysTo(t: Terms, key: Bytes): Code {
    PaymentCode(Push(IntegerValue(t.maxFee)), Push(Lock(key)))
  }

  function ReleaseCode(t: Terms): Code {
    BothSignCode(Push(BytesValue(t.buyer)), Push(BytesValue(t.seller))) + PaysTo(t, t.seller)
  }

  function RefundCode(t: Terms): Code {
    BuyerSignsCode(Push(BytesValue(t.buyer))) + (DeadlineCode(Deadline(t)) + PaysTo(t, t.buyer))
  }

  function SourceArgs(path: SpendPath): seq<string> {
    if path.Release? then ["buyer_sig", "seller_sig"] else ["buyer_sig"]
  }

  function SourceBody(path: SpendPath): seq<Stmt> { if path.Release? then RELEASE else REFUND }

  function BranchCode(t: Terms, path: SpendPath): Code {
    if path.Release? then ReleaseCode(t) else RefundCode(t)
  }

  function Branch(t: Terms, path: SpendPath): Deployed {
    Deployed(SourceBody(path), SourceArgs(path), EscrowEnv(t), BranchCode(t, path))
  }

  ghost predicate ValidKeys(t: Terms) { |t.buyer| == 32 && |t.seller| == 32 }

  ghost predicate ValidTerms(t: Terms) {
    ValidKeys(t) && t.maxFee <= I64_MAX && t.refundDaaScore <= I64_MAX
  }

  lemma ReleaseLowers()
    ensures LowerBody(RELEASE) ==
            Success(ArgPushes(["buyer_sig", "seller_sig"])
                    + (BothSignCode(Sym("buyer"), Sym("seller")) + PaymentCode(Sym("max_fee"), Sym("seller"))))
  {
    BothSignLowers();
    PaymentLowers("seller");
    var pushes, sign, pay := ArgPushes(["buyer_sig", "seller_sig"]), BothSignCode(Sym("buyer"), Sym("seller")),
      PaymentCode(Sym("max_fee"), Sym("seller"));
    LowersTo(Must(BOTH_SIGN), SinglePayment("seller"), pushes + sign, pay);
    ConcatAssociates(pushes, sign, pay);
  }

  lemma RefundLowers()
    ensures LowerBody(REFUND) ==
            Success(ArgPushes(["buyer_sig"])
                    + (BuyerSignsCode(Sym("buyer"))
                       + (DeadlineCode(Sym("refund_daa_score")) + PaymentCode(Sym("max_fee"), Sym("buyer")))))
  {
    BuyerSignsLowers();
    DeadlineLowers();
    PaymentLowers("buyer");
    var pushes, sign, wait, pay := ArgPushes(["buyer_sig"]), BuyerSignsCode(Sym("buyer")),
      DeadlineCode(Sym("refund_daa_score")), PaymentCode(Sym("max_fee"), Sym("buyer"));
    LowersTo(Must(DEADLINE), SinglePayment("buyer"), wait, pay);
    LowersTo(Must(BUYER_SIGNS), [Must(DEADLINE)] + SinglePayment("buyer"), pushes + sign, wait + pay);
    assert [Must(BUYER_SIGNS)] + ([Must(DEADLINE)] + SinglePayment("buyer")) == REFUND;
    ConcatAssociates(pushes, sign, wait + pay);
  }

  lemma BothSignBinds(args: set<string>, t: Terms)
    requires args <= ARGUMENTS
    ensures Instantiate(args, EscrowEnv(t), Elsewhere, BothSignCode(Sym("buyer"), Sym("seller"))) ==
            Some(BothSignCode(Push(BytesValue(t.buyer)), Push(BytesValue(t.seller))))
  {
    var two, check := Push(IntegerValue(2)), [CheckMultiSig(2, 2), Verify];
    var buyer, seller := BytesValue(t.buyer), BytesValue(t.seller);
    InstantiateSymbol(args, EscrowEnv(t), Elsewhere, [two], "buyer", [], buyer);
    InstantiateSymbol(args, EscrowEnv(t), Elsewhere, [], "seller", check, seller);
    var first, second := [two] + [Sym("buyer")] + [], [] + [Sym("seller")] + check;
    InstantiateConcat(args, EscrowEnv(t), Elsewhere, first, second);
    assert first + second == BothSignCode(Sym("buyer"), Sym("seller"));
    assert ([two] + [Push(buyer)] + []) + ([] + [Push(seller)] + check) == BothSignCode(Push(buyer), Push(seller));
  }

  lemma RefundHeadBinds(args: set<string>, t: Terms)
    requires args <= ARGUMENTS
    ensures Instantiate(args, EscrowEnv(t), Elsewhere, BuyerSignsCode(Sym("buyer"))) ==
            Some(BuyerSignsCode(Push(BytesValue(t.buyer))))
    ensures Instantiate(args, EscrowEnv(t), Elsewhere, DeadlineCode(Sym("refund_daa_score"))) ==
            Some(DeadlineCode(Deadline(t)))
  {
    var buyer, deadline := BytesValue(t.buyer), IntegerValue(t.refundDaaScore);
    InstantiateSymbol(args, EscrowEnv(t), Elsewhere, [], "buyer", [CheckSig(0), Verify], buyer);
    assert [] + [Sym("buyer")] + [CheckSig(0), Verify] == BuyerSignsCode(Sym("buyer"));
    assert [] + [Push(buyer)] + [CheckSig(0), Verify] == BuyerSignsCode(Push(buyer));
    var rest := [CheckLockHeightFromStack, Verify];
    InstantiateSymbol(args, EscrowEnv(t), Elsewhere, [], "refund_daa_score", rest, deadline);
    assert [] + [Sym("refund_daa_score")] + rest == DeadlineCode(Sym("refund_daa_score"));
    assert [] + [Push(deadline)] + rest == DeadlineCode(Push(deadline));
  }

  /** Each compiled path is the source body with its parameters in place and its signatures left to
      the witness, whichever of the signature names the binder drops. */
  lemma ReleaseBinds(t: Terms, args: set<string>)
    requires args <= ARGUMENTS && Names(SourceArgs(Release)) <= args
    ensures LowerBody(SourceBody(Release)).Success?
    ensures Instantiate(args, EscrowEnv(t), Elsewhere, LowerBody(SourceBody(Release)).value) == Some(BranchCode(t, Release))
  {
    var env := EscrowEnv(t);
    ReleaseLowers();
    BothSignBinds(args, t);
    PaymentBinds(args, env, "seller", IntegerValue(t.maxFee), Lock(t.seller));
    var sign, pay := BothSignCode(Sym("buyer"), Sym("seller")), PaymentCode(Sym("max_fee"), Sym("seller"));
    InstantiateInTurn(args, env, sign, pay,
                      BothSignCode(Push(BytesValue(t.buyer)), Push(BytesValue(t.seller))), PaysTo(t, t.seller));
    assert "buyer_sig" in Names(SourceArgs(Release)) && "seller_sig" in Names(SourceArgs(Release));
    InstantiateDrops(["buyer_sig", "seller_sig"], args, env, Elsewhere, sign + pay);
  }

  lemma RefundBinds(t: Terms, args: set<string>)
    requires args <= ARGUMENTS && Names(SourceArgs(Refund)) <= args
    ensures LowerBody(SourceBody(Refund)).Success?
    ensures Instantiate(args, EscrowEnv(t), Elsewhere, LowerBody(SourceBody(Refund)).value) == Some(BranchCode(t, Refund))
  {
    var env := EscrowEnv(t);
    RefundLowers();
    RefundHeadBinds(args, t);
    PaymentBinds(args, env, "buyer", IntegerValue(t.maxFee), Lock(t.buyer));
    var sign, wait, pay := BuyerSignsCode(Sym("buyer")), DeadlineCode(Sym("refund_daa_score")),
      PaymentCode(Sym("max_fee"), Sym("buyer"));
    InstantiateInTurn(args, env, wait, pay, DeadlineCode(Deadline(t)), PaysTo(t, t.buyer));
    InstantiateInTurn(args, env, sign, wait + pay,
                      BuyerSignsCode(Push(BytesValue(t.buyer))), DeadlineCode(Deadline(t)) + PaysTo(t, t.buyer));
    assert "buyer_sig" in Names(SourceArgs(Refund));
    InstantiateDrops(["buyer_sig"], args, env, Elsewhere, sign + (wait + pay));
  }

  lemma BranchBinds(t: Terms, path: SpendPath, args: set<string>)
    requires args <= ARGUMENTS && Names(SourceArgs(path)) <= args
    ensures LowerBody(SourceBody(path)).Success?
    ensures Instantiate(args, EscrowEnv(t), Elsewhere, LowerBody(SourceBody(path)).value) == Some(BranchCode(t, path))
  {
    match path
    case Release => ReleaseBinds(t, args);
    case Refund => RefundBinds(t, args);
  }

  lemma BothSignReady(buyer: Instr, seller: Instr)
    requires IsReady(buyer) && IsReady(seller)
    ensures Ready(BothSignCode(buyer, seller))
  {
    PushesReady();
    ChecksReady();
    ReadyFour(Push(IntegerValue(2)), buyer, seller, CheckMultiSig(2, 2));
    ReadyTwo(Verify, Verify);
    assert BothSignCode(buyer, seller) == [Push(IntegerValue(2)), buyer, seller, CheckMultiSig(2, 2)] + [Verify, Verify][..1];
    ReadyConcat([Push(IntegerValue(2)), buyer, seller, CheckMultiSig(2, 2)], [Verify, Verify][..1]);
  }

  lemma BuyerSignsReady(buyer: Instr)
    requires IsReady(buyer)
    ensures Ready(BuyerSignsCode(buyer))
  {
    ChecksReady();
    ReadyFour(buyer, CheckSig(0), Verify, Verify);
    assert BuyerSignsCode(buyer) == [buyer, CheckSig(0), Verify, Verify][..3];
  }

  lemma DeadlineReady(deadline: Instr)
    requires IsReady(deadline)
    ensures Ready(DeadlineCode(deadline))
  {
    ChecksReady();
    ReadyFour(deadline, CheckLockHeightFromStack, Verify, Verify);
    assert DeadlineCode(deadline) == [deadline, CheckLockHeightFromStack, Verify, Verify][..3];
  }

  lemma PushesOfTerms(t: Terms)
    requires ValidTerms(t)
    ensures IsReady(Push(BytesValue(t.buyer))) && IsReady(Push(BytesValue(t.seller)))
    ensures IsReady(Push(IntegerValue(t.maxFee))) && IsReady(Deadline(t))
  {
    PushesReady();
  }

  lemma ReleaseReady(t: Terms)
    requires ValidTerms(t)
    ensures Ready(ReleaseCode(t))
  {
    var buyer, seller := Push(BytesValue(t.buyer)), Push(BytesValue(t.seller));
    PushesOfTerms(t);
    PaymentReady(IntegerValue(t.maxFee), Lock(t.seller));
    BothSignReady(buyer, seller);
    ReadyConcat(BothSignCode(buyer, seller), PaysTo(t, t.seller));
  }

  lemma RefundReady(t: Terms)
    requires ValidTerms(t)
    ensures Ready(RefundCode(t))
  {
    var buyer := Push(BytesValue(t.buyer));
    PushesOfTerms(t);
    PaymentReady(IntegerValue(t.maxFee), Lock(t.buyer));
    BuyerSignsReady(buyer);
    DeadlineReady(Deadline(t));
    ReadyConcat(DeadlineCode(Deadline(t)), PaysTo(t, t.buyer));
    ReadyConcat(BuyerSignsCode(buyer), DeadlineCode(Deadline(t)) + PaysTo(t, t.buyer));
  }

  lemma BranchReady(t: Terms, path: SpendPath)
    requires ValidTerms(t)
    ensures Ready(BranchCode(t, path))
  {
    if path.Release? { ReleaseReady(t); } else { RefundReady(t); }
  }

  lemma BranchCodeEncodes(t: Terms, path: SpendPath, code: Code)
    requires ValidTerms(t) && Same(code, BranchCode(t, path))
    ensures SpendOps(code).Success? && Pushable(code)
  {
    BranchReady(t, path);
    ReadyEncodes(code);
  }

  lemma BranchSource(t: Terms, path: SpendPath, body: seq<Stmt>, args: seq<string>, code: Code) returns (source: Code)
    requires Same(body, SourceBody(path)) && Same(args, SourceArgs(path)) && Same(code, BranchCode(t, path))
    ensures LowerBody(body) == Success(source) && ArgsLead(args, source)
    ensures Instantiate(Names(args), EscrowEnv(t), Elsewhere, source) == Some(code)
  {
    BranchBinds(t, path, Names(args));
    ArgumentsLead(path);
    source := LowerBody(body).value;
  }

  lemma BranchShape(path: SpendPath, body: seq<Stmt>, args: seq<string>)
    requires Same(body, SourceBody(path)) && Same(args, SourceArgs(path))
    ensures body != [] && RequireOnly(body) && AllLocksConjoined(body) && Distinct(args)
  {
    SourceInFragment(path);
  }

  lemma PartsDeploy(t: Terms, d: Deployed, source: Code)
    requires d.body != [] && RequireOnly(d.body) && Distinct(d.args) && SpendOps(d.code).Success?
    requires LowerBody(d.body) == Success(source) && ArgsLead(d.args, source)
    requires Instantiate(Names(d.args), d.env, Elsewhere, source) == Some(d.code)
    ensures ValidDeployment(d)
  {
  }

  lemma BranchDeploys(t: Terms, path: SpendPath)
    requires ValidTerms(t)
    ensures ValidDeployment(Branch(t, path)) && Pushable(BranchCode(t, path))
    ensures AllLocksConjoined(SourceBody(path))
  {
    var d := Branch(t, path);
    var source := BranchSource(t, path, d.body, d.args, d.code);
    BranchShape(path, d.body, d.args);
    BranchCodeEncodes(t, path, d.code);
    PartsDeploy(t, d, source);
  }

  lemma PairInFragment(a: string, b: string)
    ensures AllInFragment([Id(a), Id(b)]) && AllNoLocks([Id(a), Id(b)])
  {
    var two, one := [Id(a), Id(b)], [Id(b)];
    assert two[1..] == one && one[1..] == [];
    assert InFragment(one[0]) && AllInFragment(one[1..]) && NoLocks(one[0]) && AllNoLocks(one[1..]);
    assert InFragment(two[0]) && AllInFragment(two[1..]) && NoLocks(two[0]) && AllNoLocks(two[1..]);
  }

  lemma BothSignInFragment()
    ensures IsMultisig(BOTH_SIGN) && InFragment(BOTH_SIGN) && NoLocks(BOTH_SIGN)
  {
    PairInFragment("buyer", "seller");
    PairInFragment("buyer_sig", "seller_sig");
    var args := BOTH_SIGN.args;
    assert args[1..] == [args[1], args[2]] && args[1..][1..] == [args[2]] && [args[2]][1..] == [];
    assert NoLocks(args[1]) && NoLocks(args[2]);
    assert AllNoLocks([args[2]]) && AllNoLocks(args[1..]);
  }

  lemma BuyerSignsInFragment()
    ensures IsVerify(BUYER_SIGNS) && InFragment(BUYER_SIGNS) && NoLocks(BUYER_SIGNS)
  {
    assert [Id("buyer")][1..] == [];
    assert AllNoLocks([Id("buyer")]);
  }

  /** One step of the meaning of an operator that is not a lock test. */
  lemma InfixValue(w: World, r: Reading, left: Expr, op: BinaryOp, right: Expr)
    requires InFragment(left) && InFragment(right) && Supported(op) && |Path(left)| <= 1
    ensures var e := Infix(left, op, right);
            InFragment(e) && !IsLockTest(e)
            && Eval(w, r, e) == match (Eval(w, r, left), Eval(w, LastReading(left), right))
                                case (Some(a), Some(b)) => BinaryValue(op, a, b)
                                case _ => None
  {
    assert !IsLockTest(Infix(left, op, right));
  }

  lemma PaymentInFragment(payee: string)
    ensures InFragment(ONE_INPUT) && InFragment(ONE_OUTPUT) && InFragment(ABOVE_CAP) && InFragment(FEE_CAPPED)
    ensures InFragment(Pays(payee))
    ensures NoLocks(ONE_INPUT) && NoLocks(ONE_OUTPUT) && NoLocks(ABOVE_CAP) && NoLocks(FEE_CAPPED) && NoLocks(Pays(payee))
  {
    assert InFragment(Of("input", "value")) && InFragment(Of("output", "value")) && InFragment(Of("output", "script"));
    LeafNoLocks("input", "value");
    LeafNoLocks("output", "value");
    LeafNoLocks("output", "script");
    assert InFragment(FEE_CAPPED.right) && NoLocks(FEE_CAPPED.right);
  }

  lemma LeafNoLocks(root: string, field: string)
    ensures NoLocks(Of(root, field)) && Path(Of(root, field)) == [field]
  {
    assert [Lit(0)][1..] == [];
    assert AllNoLocks([Lit(0)]);
    assert NoLocks(Call(Id(root), [Lit(0)], NOWHERE));
  }

  lemma PaymentSource(payee: string)
    ensures RequireOnly(SinglePayment(payee)) && AllLocksConjoined(SinglePayment(payee))
  {
    PaymentInFragment(payee);
    NoLocksConjoined(ONE_INPUT);
    NoLocksConjoined(ONE_OUTPUT);
    NoLocksConjoined(ABOVE_CAP);
    NoLocksConjoined(FEE_CAPPED);
    NoLocksConjoined(Pays(payee));
  }

  lemma {:induction false} NoLocksConjoined(e: Expr)
    requires NoLocks(e)
    ensures LocksConjoined(e)
    decreases e
  {
    if e.Binary? && e.op.And? {
      NoLocksConjoined(e.left);
      NoLocksConjoined(e.right);
    }
  }

  lemma SourceInFragment(path: SpendPath)
    ensures RequireOnly(SourceBody(path)) && AllLocksConjoined(SourceBody(path))
  {
    PaymentSource("buyer");
    PaymentSource("seller");
    if path.Release? {
      BothSignInFragment();
    } else {
      BuyerSignsInFragment();
      DeadlineLowers();
      assert InFragment(DEADLINE) && LocksConjoined(DEADLINE);
    }
  }

  lemma ArgumentsLead(path: SpendPath)
    requires LowerBody(SourceBody(path)).Success?
    ensures ArgsLead(SourceArgs(path), LowerBody(SourceBody(path)).value)
  {
    if path.Release? { ReleaseArguments(Names(SourceArgs(path))); } else { RefundArguments(Names(SourceArgs(path))); }
  }

  lemma ReleaseArguments(names: set<string>)
    requires names == Names(["buyer_sig", "seller_sig"])
    ensures LowerBody(RELEASE).Success? && ArgsLead(["buyer_sig", "seller_sig"], LowerBody(RELEASE).value)
  {
    ReleaseLowers();
    PaymentMentions("seller", names);
    NoMentionConcat(BothSignCode(Sym("buyer"), Sym("seller")), PaymentCode(Sym("max_fee"), Sym("seller")), names);
  }

  lemma RefundArguments(names: set<string>)
    requires names == Names(["buyer_sig"])
    ensures LowerBody(REFUND).Success? && ArgsLead(["buyer_sig"], LowerBody(REFUND).value)
  {
    RefundLowers();
    PaymentMentions("buyer", names);
    var wait, pay := DeadlineCode(Sym("refund_daa_score")), PaymentCode(Sym("max_fee"), Sym("buyer"));
    NoMentionConcat(wait, pay, names);
    NoMentionConcat(BuyerSignsCode(Sym("buyer")), wait + pay, names);
  }

  // ---- the policy ----

  ghost predicate Signed(c: Context, sig: Bytes, key: Bytes) {
    c.CheckSig(sig, key) == Some(true)
  }

  /** One input, one output, a locked amount above the fee cap, and all of it but at most the cap
      paid to one key. */
  ghost predicate PaysInFull(c: Context, t: Terms, key: Bytes) {
    var tx := c.tx;
    |tx.inputs| == 1 && |tx.entries| >= 1 && |tx.outputs| == 1
    && t.maxFee < tx.entries[0].amount <= 0x7FFF_FFFF_FFFF_FFFF
    && tx.entries[0].amount - t.maxFee <= tx.outputs[0].value <= 0x7FFF_FFFF_FFFF_FFFF
    && tx.outputs[0].spk == PayToKey(key)
  }

  ghost predicate ReleasePolicy(c: Context, t: Terms, buyerSig: Bytes, sellerSig: Bytes) {
    buyerSig != [] && sellerSig != []
    && Signed(c, buyerSig, t.buyer) && Signed(c, sellerSig, t.seller) && PaysInFull(c, t, t.seller)
  }

  /** The transaction is locked until a value of the deadline's kind that is no earlier than it, and
      its input does not switch the lock off. */
  ghost predicate LockedUntil(c: Context, deadline: u64) {
    c.index < |c.tx.inputs| && c.tx.inputs[c.index].sequence != 0xFFFF_FFFF_FFFF_FFFF
    && (if deadline < c.chain.lockTimeThreshold then deadline <= c.tx.lockTime < c.chain.lockTimeThreshold
        else c.chain.lockTimeThreshold <= deadline <= c.tx.lockTime)
  }

  ghost predicate RefundPolicy(c: Context, t: Terms, buyerSig: Bytes) {
    Signed(c, buyerSig, t.buyer) && LockedUntil(c, t.refundDaaScore) && PaysInFull(c, t, t.buyer)
  }

  lemma SpkInjective(a: ScriptPublicKey, b: ScriptPublicKey)
    ensures SpkBytes(a) == SpkBytes(b) <==> a == b
  {
    if SpkBytes(a) == SpkBytes(b) {
      var x, y := SpkBytes(a), SpkBytes(b);
      assert x[0] == y[0] && x[1] == y[1] && x[2..] == a.script && y[2..] == b.script;
      assert a.version == 256 * (a.version / 256) + a.version % 256;
      assert b.version == 256 * (b.version / 256) + b.version % 256;
    }
  }

  /** A world in which every name is the escrow's parameter or an argument from the witness. */
  ghost predicate IsEscrowWorld(w: World, t: Terms) {
    forall name, r :: name !in ARGUMENTS ==> w.env(name, r) == ParameterValue(t, name, r)
  }

  lemma CountHolds(w: World, name: string, n: nat)
    requires (name == "input_count" && n == |w.c.tx.inputs|) || (name == "output_count" && n == |w.c.tx.outputs|)
    ensures InFragment(Infix(Id(name), BinaryOp.Equal, Lit(1)))
    ensures Holds(w, Infix(Id(name), BinaryOp.Equal, Lit(1))) <==> n == 1
  {
    InfixValue(w, Elsewhere, Id(name), BinaryOp.Equal, Lit(1));
    assert Eval(w, Elsewhere, Id(name)) == IntBytes(n);
    assert Eval(w, Elsewhere, Lit(1)) == Some(Num(1));
    NumInjective(n, 1);
    BoolNum(n == 1);
  }

  lemma AboveCapHolds(w: World, t: Terms)
    requires IsEscrowWorld(w, t) && t.maxFee <= I64_MAX
    ensures Holds(w, ABOVE_CAP) <==> w.c.HasInput(0) && t.maxFee < w.c.tx.entries[0].amount <= I64_MAX
    ensures Faults(w, Elsewhere, ABOVE_CAP) == {}
  {
    if w.c.HasInput(0) && w.c.tx.entries[0].amount <= I64_MAX {
      NumRoundTrip(w.c.tx.entries[0].amount);
      NumRoundTrip(t.maxFee);
      BoolNum(w.c.tx.entries[0].amount > t.maxFee);
    }
  }

  lemma DifferenceValue(w: World, t: Terms)
    requires IsEscrowWorld(w, t) && t.maxFee <= I64_MAX
    requires w.c.HasInput(0) && t.maxFee < w.c.tx.entries[0].amount <= I64_MAX
    ensures Eval(w, AfterOutputScript, FEE_CAPPED.right) == Some(Num(w.c.tx.entries[0].amount - t.maxFee))
    ensures Eval(w, Elsewhere, FEE_CAPPED.right) == Some(Num(w.c.tx.entries[0].amount - t.maxFee))
  {
    NumRoundTrip(w.c.tx.entries[0].amount);
    NumRoundTrip(t.maxFee);
    var e := FEE_CAPPED.right;
    assert !IsLockTest(e) && InFragment(e.left) && InFragment(e.right);
    assert Eval(w, Elsewhere, e.left) == Some(Num(w.c.tx.entries[0].amount));
    assert Eval(w, Elsewhere, e.right) == Some(Num(t.maxFee));
  }

  lemma FeeCappedHolds(w: World, t: Terms)
    requires IsEscrowWorld(w, t) && t.maxFee <= I64_MAX
    requires w.c.HasInput(0) && t.maxFee < w.c.tx.entries[0].amount <= I64_MAX
    ensures Holds(w, FEE_CAPPED) <==>
            w.c.HasOutput(0) && w.c.tx.entries[0].amount - t.maxFee <= w.c.tx.outputs[0].value <= I64_MAX
  {
    DifferenceValue(w, t);
    var least := w.c.tx.entries[0].amount - t.maxFee;
    assert !IsLockTest(FEE_CAPPED);
    if w.c.HasOutput(0) && w.c.tx.outputs[0].value <= I64_MAX {
      NumRoundTrip(w.c.tx.outputs[0].value);
      NumRoundTrip(least);
      BoolNum(w.c.tx.outputs[0].value >= least);
    }
  }

  lemma PaysHolds(w: World, t: Terms, payee: string, key: Bytes)
    requires IsEscrowWorld(w, t)
    requires (payee == "buyer" && key == t.buyer) || (payee == "seller" && key == t.seller)
    ensures InFragment(Pays(payee))
    ensures Holds(w, Pays(payee)) <==> w.c.HasOutput(0) && w.c.tx.outputs[0].spk == PayToKey(key)
  {
    InfixValue(w, Elsewhere, Of("output", "script"), BinaryOp.Equal, Id(payee));
    assert Eval(w, AfterOutputScript, Id(payee)) == Some(SpkBytes(PayToKey(key)));
    if w.c.HasOutput(0) {
      var spk := w.c.tx.outputs[0].spk;
      assert Eval(w, Elsewhere, Of("output", "script")) == Some(SpkBytes(spk));
      SpkInjective(spk, PayToKey(key));
      BoolNum(spk == PayToKey(key));
    }
  }

  lemma FiveHold(w: World, body: seq<Stmt>)
    requires RequireOnly(body) && |body| == 5
    ensures AllHold(w, body) <==> Holds(w, body[0].expr) && Holds(w, body[1].expr) && Holds(w, body[2].expr)
                                  && Holds(w, body[3].expr) && Holds(w, body[4].expr)
  {
  }

  lemma PaymentExprs(payee: string, body: seq<Stmt>)
    requires Same(body, SinglePayment(payee))
    ensures RequireOnly(body) && |body| == 5
    ensures Same(body[0].expr, ONE_INPUT) && Same(body[1].expr, ONE_OUTPUT) && Same(body[2].expr, ABOVE_CAP)
    ensures Same(body[3].expr, FEE_CAPPED) && Same(body[4].expr, Pays(payee))
  {
    PaymentSource(payee);
  }

  lemma PaymentHolds(w: World, t: Terms, payee: string, key: Bytes)
    requires IsEscrowWorld(w, t) && ValidTerms(t)
    requires (payee == "buyer" && key == t.buyer) || (payee == "seller" && key == t.seller)
    ensures RequireOnly(SinglePayment(payee))
    ensures AllHold(w, SinglePayment(payee)) <==> PaysInFull(w.c, t, key)
  {
    PaymentParts(w, payee, SinglePayment(payee));
    PaymentMeans(w, t, payee, key);
  }

  /** The five requirements of a payment, one by one. */
  lemma PaymentParts(w: World, payee: string, body: seq<Stmt>)
    requires Same(body, SinglePayment(payee))
    ensures InFragment(ONE_INPUT) && InFragment(ONE_OUTPUT) && InFragment(ABOVE_CAP) && InFragment(FEE_CAPPED) && InFragment(Pays(payee))
    ensures RequireOnly(body)
    ensures AllHold(w, body) <==> Holds(w, ONE_INPUT) && Holds(w, ONE_OUTPUT) && Holds(w, ABOVE_CAP) && Holds(w, FEE_CAPPED) && Holds(w, Pays(payee))
  {
    PaymentInFragment(payee);
    PaymentExprs(payee, body);
    FiveHold(w, body);
  }

  lemma PaymentMeans(w: World, t: Terms, payee: string, key: Bytes)
    requires IsEscrowWorld(w, t) && ValidTerms(t)
    requires (payee == "buyer" && key == t.buyer) || (payee == "seller" && key == t.seller)
    requires InFragment(ONE_INPUT) && InFragment(ONE_OUTPUT) && InFragment(ABOVE_CAP) && InFragment(FEE_CAPPED) && InFragment(Pays(payee))
    ensures Holds(w, ONE_INPUT) && Holds(w, ONE_OUTPUT) && Holds(w, ABOVE_CAP) && Holds(w, FEE_CAPPED) && Holds(w, Pays(payee))
            <==> PaysInFull(w.c, t, key)
  {
    CountHolds(w, "input_count", |w.c.tx.inputs|);
    CountHolds(w, "output_count", |w.c.tx.outputs|);
    AboveCapHolds(w, t);
    if Holds(w, ABOVE_CAP) { FeeCappedHolds(w, t); }
    PaysHolds(w, t, payee, key);
  }

  lemma BothSignHolds(w: World, t: Terms, buyerSig: Bytes, sellerSig: Bytes)
    requires IsEscrowWorld(w, t)
    requires w.env("buyer_sig", Elsewhere) == Some(BytesValue(buyerSig))
    requires w.env("seller_sig", Elsewhere) == Some(BytesValue(sellerSig))
    ensures InFragment(BOTH_SIGN)
    ensures Holds(w, BOTH_SIGN) <==>
            buyerSig != [] && sellerSig != [] && Signed(w.c, buyerSig, t.buyer) && Signed(w.c, sellerSig, t.seller)
  {
    BothSignInFragment();
    PairValues(w, "buyer_sig", "seller_sig", buyerSig, sellerSig);
    PairValues(w, "buyer", "seller", t.buyer, t.seller);
    TwoOfTwo(w.c, [t.buyer, t.seller], [buyerSig, sellerSig]);
    assert Eval(w, Elsewhere, BOTH_SIGN) == MultiSig(w.c, [t.buyer, t.seller], [buyerSig, sellerSig]);
    BoolNum(true);
    BoolNum(false);
  }

  lemma PairValues(w: World, a: string, b: string, x: Bytes, y: Bytes)
    requires a !in {"input_count", "output_count"} && b !in {"input_count", "output_count"}
    requires w.env(a, Elsewhere) == Some(BytesValue(x)) && w.env(b, Elsewhere) == Some(BytesValue(y))
    ensures AllInFragment([Id(a), Id(b)])
    ensures EvalAll(w, Elsewhere, [Id(a), Id(b)]) == Some([x, y])
  {
    assert [Id(a), Id(b)][1..] == [Id(b)] && [Id(b)][1..] == [];
    assert InFragment(Id(a)) && InFragment(Id(b)) && AllInFragment([]) && AllInFragment([Id(b)]);
    assert Eval(w, Elsewhere, Id(a)) == Some(x) && Eval(w, Elsewhere, Id(b)) == Some(y);
    assert EvalAll(w, Elsewhere, []) == Some([]) && [y] + [] == [y] && [x] + [y] == [x, y];
    assert EvalAll(w, Elsewhere, [Id(b)]) == Some([y]);
  }

  /** With two keys and two signatures, a multisig check is true only if each signature matches the
      key at its own position. */
  lemma TwoOfTwo(c: Context, keys: seq<Bytes>, sigs: seq<Bytes>)
    requires |keys| == 2 && |sigs| == 2
    ensures MultiSig(c, keys, sigs) == Some(BoolBytes(true)) <==>
            sigs[0] != [] && sigs[1] != [] && Signed(c, sigs[0], keys[0]) && Signed(c, sigs[1], keys[1])
    ensures MultiSig(c, keys, sigs) in {None, Some(BoolBytes(true)), Some(BoolBytes(false))}
  {
    var k, s := keys[1..], sigs[1..];
    assert k[1..] == [] && s[1..] == [] && k[0] == keys[1] && s[0] == sigs[1];
    assert MatchSignatures(c, k[1..], s) != Some(true);
    assert MatchSignatures(c, k, s) == Some(true) <==> sigs[1] != [] && Signed(c, sigs[1], keys[1]);
    assert MatchSignatures(c, k, sigs) != Some(true);
  }

  lemma BuyerSignsHolds(w: World, t: Terms, buyerSig: Bytes)
    requires IsEscrowWorld(w, t) && w.env("buyer_sig", Elsewhere) == Some(BytesValue(buyerSig))
    ensures InFragment(BUYER_SIGNS)
    ensures Holds(w, BUYER_SIGNS) <==> Signed(w.c, buyerSig, t.buyer)
  {
    BuyerSignsInFragment();
    assert Eval(w, Elsewhere, Id("buyer_sig")) == Some(buyerSig);
    assert Eval(w, Elsewhere, Id("buyer")) == Some(t.buyer);
    assert Eval(w, Elsewhere, BUYER_SIGNS) == SingleSig(w.c, buyerSig, t.buyer);
    BoolNum(true);
    BoolNum(false);
  }

  lemma DeadlineHolds(w: World, t: Terms)
    requires IsEscrowWorld(w, t) && t.refundDaaScore <= I64_MAX
    ensures InFragment(DEADLINE)
    ensures Holds(w, DEADLINE) <==> w.c.LockReached(t.refundDaaScore)
  {
    DeadlineLowers();
    assert Eval(w, Elsewhere, DEADLINE.right) == Some(Num(t.refundDaaScore));
    LockNumber(w.c, t.refundDaaScore);
    BoolNum(w.c.LockReached(t.refundDaaScore));
  }

  lemma InfixFaults(w: World, r: Reading, left: Expr, op: BinaryOp, right: Expr)
    requires InFragment(left) && InFragment(right) && Supported(op) && !op.NotEqual? && |Path(left)| <= 1
    requires Faults(w, r, left) == {} && Faults(w, LastReading(left), right) == {}
    ensures InFragment(Infix(left, op, right)) && Faults(w, r, Infix(left, op, right)) == {}
  {
    assert !IsLockTest(Infix(left, op, right));
  }

  lemma FiveFaultFree(w: World, body: seq<Stmt>)
    requires RequireOnly(body) && |body| == 5
    requires Faults(w, Elsewhere, body[0].expr) == {} && Faults(w, Elsewhere, body[1].expr) == {} && Faults(w, Elsewhere, body[2].expr) == {}
    requires Faults(w, Elsewhere, body[3].expr) == {} && Faults(w, Elsewhere, body[4].expr) == {}
    ensures FaultFree(w, body)
  {
  }

  lemma PaymentIsFaultFree(w: World, payee: string, body: seq<Stmt>)
    requires Same(body, SinglePayment(payee))
    ensures RequireOnly(body) && FaultFree(w, body)
  {
    PaymentExprs(payee, body);
    PaymentInFragment(payee);
    CountFaults(w, payee);
    CapFaults(w);
    FiveFaultFree(w, body);
  }

  lemma PaymentFaults(w: World, payee: string)
    ensures RequireOnly(SinglePayment(payee)) && FaultFree(w, SinglePayment(payee))
  {
    PaymentIsFaultFree(w, payee, SinglePayment(payee));
  }

  lemma CountFaults(w: World, payee: string)
    requires InFragment(ONE_INPUT) && InFragment(ONE_OUTPUT) && InFragment(Pays(payee))
    ensures Faults(w, Elsewhere, ONE_INPUT) == {} && Faults(w, Elsewhere, ONE_OUTPUT) == {} && Faults(w, Elsewhere, Pays(payee)) == {}
  {
    InfixFaults(w, Elsewhere, Id("input_count"), BinaryOp.Equal, Lit(1));
    InfixFaults(w, Elsewhere, Id("output_count"), BinaryOp.Equal, Lit(1));
    InfixFaults(w, Elsewhere, Of("output", "script"), BinaryOp.Equal, Id(payee));
  }

  lemma CapFaults(w: World)
    requires InFragment(ABOVE_CAP) && InFragment(FEE_CAPPED)
    ensures Faults(w, Elsewhere, ABOVE_CAP) == {} && Faults(w, Elsewhere, FEE_CAPPED) == {}
  {
    InfixFaults(w, Elsewhere, Of("input", "value"), Greater, Id("max_fee"));
    InfixFaults(w, Elsewhere, Of("input", "value"), BinaryOp.Sub, Id("max_fee"));
    InfixFaults(w, Elsewhere, Of("output", "value"), GreaterEqual, FEE_CAPPED.right);
  }

  /** No requirement of the escrow uses `!=`, so none can meet a value that is not a number. */
  lemma ComparesNoBytes(w: World, path: SpendPath)
    ensures RequireOnly(SourceBody(path)) && ComparesNumbers(w, SourceBody(path))
  {
    SourceInFragment(path);
    PaymentFaults(w, "buyer");
    PaymentFaults(w, "seller");
    if path.Release? {
      BothSignInFragment();
      PairFaults(w, "buyer_sig", "seller_sig");
      PairFaults(w, "buyer", "seller");
      assert Faults(w, Elsewhere, BOTH_SIGN) == {};
    } else {
      BuyerSignsInFragment();
      DeadlineLowers();
      assert Faults(w, Elsewhere, BUYER_SIGNS) == {};
      assert NotNumbers !in Faults(w, Elsewhere, DEADLINE);
    }
  }

  lemma PairFaults(w: World, a: string, b: string)
    ensures AllInFragment([Id(a), Id(b)]) && AllFaults(w, Elsewhere, [Id(a), Id(b)]) == {}
  {
    PairInFragment(a, b);
    var two, one := [Id(a), Id(b)], [Id(b)];
    assert two[1..] == one && one[1..] == [];
    assert AllFaults(w, Elsewhere, one[1..]) == {} && Faults(w, Elsewhere, one[0]) == {};
    assert AllFaults(w, Elsewhere, one) == {};
  }

  lemma ReleaseWorld(c: Context, t: Terms, st: Stack)
    requires Height(st) == 2
    ensures var w, items := WorldOf(c, Branch(t, Release), st), StackItems(st);
            IsEscrowWorld(w, t) && w.env("buyer_sig", Elsewhere) == Some(BytesValue(items[0]))
            && w.env("seller_sig", Elsewhere) == Some(BytesValue(items[1]))
  {
    var args, items := ["buyer_sig", "seller_sig"], StackItems(st);
    assert args[1..] == ["seller_sig"] && items[1..] == [items[1]] && ["seller_sig"][1..] == [] && [items[1]][1..] == [];
    assert ArgMap(args, items) == map["buyer_sig" := items[0], "seller_sig" := items[1]];
  }

  lemma RefundWorld(c: Context, t: Terms, st: Stack)
    requires Height(st) == 1
    ensures var w, items := WorldOf(c, Branch(t, Refund), st), StackItems(st);
            IsEscrowWorld(w, t) && w.env("buyer_sig", Elsewhere) == Some(BytesValue(items[0]))
  {
    var args, items := ["buyer_sig"], StackItems(st);
    assert args[1..] == [] && items[1..] == [];
    assert ArgMap(args, items) == map["buyer_sig" := items[0]];
  }

  lemma ReleaseHolds(c: Context, t: Terms, st: Stack)
    requires ValidTerms(t) && Height(st) == 2
    ensures RequireOnly(RELEASE)
    ensures AllHold(WorldOf(c, Branch(t, Release), st), RELEASE) <==>
            ReleasePolicy(c, t, StackItems(st)[0], StackItems(st)[1])
  {
    var w := WorldOf(c, Branch(t, Release), st);
    var items := StackItems(st);
    ReleaseWorld(c, t, st);
    SourceInFragment(Release);
    PaymentHolds(w, t, "seller", t.seller);
    BothSignHolds(w, t, items[0], items[1]);
    assert RELEASE[0] == Must(BOTH_SIGN) && RELEASE[1..] == SinglePayment("seller");
    HeadHolds(w, RELEASE);
  }

  lemma RefundHolds(c: Context, t: Terms, st: Stack)
    requires ValidTerms(t) && Height(st) == 1
    ensures RequireOnly(REFUND)
    ensures AllHold(WorldOf(c, Branch(t, Refund), st), REFUND) <==> RefundPolicy(c, t, StackItems(st)[0])
  {
    var w := WorldOf(c, Branch(t, Refund), st);
    SourceInFragment(Refund);
    RefundWorld(c, t, st);
    PaymentHolds(w, t, "buyer", t.buyer);
    BuyerSignsHolds(w, t, StackItems(st)[0]);
    DeadlineHolds(w, t);
    RefundParts(w);
  }

  lemma RefundParts(w: World)
    requires RequireOnly(REFUND)
    ensures RequireOnly(SinglePayment("buyer")) && InFragment(BUYER_SIGNS) && InFragment(DEADLINE)
    ensures AllHold(w, REFUND) <==> Holds(w, BUYER_SIGNS) && Holds(w, DEADLINE) && AllHold(w, SinglePayment("buyer"))
  {
    var rest := [Must(DEADLINE)] + SinglePayment("buyer");
    assert REFUND[0] == Must(BUYER_SIGNS) && REFUND[1..] == rest;
    HeadHolds(w, REFUND);
    assert rest[0] == Must(DEADLINE) && rest[1..] == SinglePayment("buyer");
    HeadHolds(w, rest);
  }

  lemma HeadHolds(w: World, body: seq<Stmt>)
    requires RequireOnly(body) && body != []
    ensures RequireOnly(body[1..])
    ensures AllHold(w, body) <==> Holds(w, body[0].expr) && AllHold(w, body[1..])
  {
    assert body == [body[0]] + body[1..];
  }

  // ---- the lock enforces the policy, and nothing more ----

  function BranchScript(t: Terms, path: SpendPath): Bytes
    requires SpendOps(BranchCode(t, path)).Success?
  {
    Assemble(SpendOps(BranchCode(t, path)).value)
  }

  lemma BranchesEncode(t: Terms)
    requires ValidTerms(t)
    ensures SpendOps(ReleaseCode(t)).Success? && SpendOps(RefundCode(t)).Success?
  {
    BranchDeploys(t, Release);
    BranchDeploys(t, Refund);
  }

  function RedeemScript(t: Terms): Bytes
    requires ValidTerms(t)
  {
    BranchesEncode(t);
    JoinScripts(BranchScript(t, Release), BranchScript(t, Refund))
  }

  lemma RedeemRuns(c: Context, t: Terms, st: Stack)
    requires ValidTerms(t)
    ensures SpendOps(ReleaseCode(t)).Success? && SpendOps(RefundCode(t)).Success?
    ensures Accepts(c, RedeemScript(t), st) <==>
            st.Cons? && (st.top == [1] || st.top == [])
            && Accepts(c, BranchScript(t, if st.top == [1] then Release else Refund), st.below)
  {
    BranchesEncode(t);
    var taken, other := SpendOps(ReleaseCode(t)).value, SpendOps(RefundCode(t)).value;
    SpendOpsRun(c, ReleaseCode(t), Empty);
    SpendOpsRun(c, RefundCode(t), Empty);
    JoinedBranches(c, taken, other, st);
    if st.Cons? {
      RunsAsOps(c, taken, st.below);
      RunsAsOps(c, other, st.below);
    }
  }

  /** An unlocking stack that meets the policy: two signatures and a true selector for a release, one
      signature and a false selector for a refund. */
  ghost predicate PolicyMet(c: Context, t: Terms, st: Stack) {
    var items := StackItems(st);
    (|items| == 3 && items[2] == [1] && ReleasePolicy(c, t, items[0], items[1]))
    || (|items| == 2 && items[1] == [] && RefundPolicy(c, t, items[0]))
  }

  /** For every transaction and every unlocking stack, the redeem script accepts if and only if the
      policy is met. */
  lemma RedeemEnforcesPolicy(c: Context, t: Terms, st: Stack)
    requires ValidTerms(t)
    ensures Accepts(c, RedeemScript(t), st) <==> PolicyMet(c, t, st)
  {
    RedeemRuns(c, t, st);
    if st.Cons? {
      assert StackItems(st) == StackItems(st.below) + [st.top];
      if st.top == [1] {
        ReleaseEnforcesPolicy(c, t, st.below);
      } else if st.top == [] {
        RefundEnforcesPolicy(c, t, st.below);
      }
    }
  }

  lemma ReleaseEnforcesPolicy(c: Context, t: Terms, st: Stack)
    requires ValidTerms(t) && SpendOps(BranchCode(t, Release)).Success?
    ensures var items := StackItems(st);
            Accepts(c, BranchScript(t, Release), st) <==> |items| == 2 && ReleasePolicy(c, t, items[0], items[1])
  {
    BranchDeploys(t, Release);
    if Height(st) == 2 {
      ComparesNoBytes(WorldOf(c, Branch(t, Release), st), Release);
      ReleaseHolds(c, t, st);
    }
    AcceptanceIsComplete(c, Branch(t, Release), st);
  }

  lemma RefundEnforcesPolicy(c: Context, t: Terms, st: Stack)
    requires ValidTerms(t) && SpendOps(BranchCode(t, Refund)).Success?
    ensures var items := StackItems(st);
            Accepts(c, BranchScript(t, Refund), st) <==> |items| == 1 && RefundPolicy(c, t, items[0])
  {
    BranchDeploys(t, Refund);
    if Height(st) == 1 {
      ComparesNoBytes(WorldOf(c, Branch(t, Refund), st), Refund);
      RefundHolds(c, t, st);
    }
    AcceptanceIsComplete(c, Branch(t, Refund), st);
  }
}
