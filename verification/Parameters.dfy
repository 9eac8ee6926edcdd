/** What instantiated parameters stand for, on the stack and in scripts that run (sdk/src/testnet.rs). */
module Parameters {
  import opened Wrappers
  import opened ScriptNumbers
  import opened Syntax
  import opened Instructions
  import opened Lowering
  import opened Script
  import opened Encoding
  import opened Engine
  import opened Evaluation
  import opened Simulation
  import opened Correctness
  import opened Spends
  import opened EscrowContract
  import opened Instantiation
  import opened LockScripts
  import C = Checker

  /** A parameter of a contract: declared with a type, given a value of that type. */
  predicate IsGiven(contract: Contract, bindings: Bindings, name: string, ty: TypeName, value: ParamValue) {
    name in TypesOf(contract.params) && TypesOf(contract.params)[name] == ty
    && name in bindings && bindings[name] == value && ValidParam(ty, value)
  }

  /** The bytes a valid value of a type stands for: a key is itself, or behind a script read its
      pay-to-key script; hashes and bytes are themselves; numbers and truth values are their encodings. */
  lemma ParameterStandsFor(contract: Contract, bindings: Bindings, name: string, ty: TypeName, value: ParamValue, c: Context, r: Reading)
    requires IsGiven(contract, bindings, name, ty, value) && name != "input_count" && name != "output_count"
    ensures NameValue(World(c, ParamEnv(TypesOf(contract.params), bindings)), r, name) ==
            match value
            case KeyParam(key) => Some(if r == Elsewhere then key else SpkBytes(ScriptPublicKey(0, [0x20] + key + [0xac])))
            case HashParam(hash) => Some(hash)
            case BytesParam(bytes) => Some(bytes)
            case BoolParam(b) => Some(if b then [1] else [])
            case IntegerParam(n) => if n <= I64_MAX then Some(Num(n)) else None
  {
  }

  /** What is valid: 32 bytes for keys and hashes, numbers for heights and amounts, no values for the
      other types. */
  lemma ValidParameters(value: ParamValue)
    ensures ValidParam(KeyType, value) <==> value.KeyParam? && |value.key| == 32
    ensures ValidParam(HashType, value) <==> value.HashParam? && |value.hash| == 32
    ensures ValidParam(HeightType, value) <==> value.IntegerParam?
    ensures ValidParam(AmountType, value) <==> value.IntegerParam?
    ensures ValidParam(BoolType, value) <==> value.BoolParam?
    ensures ValidParam(BytesType, value) <==> value.BytesParam?
    ensures forall ty :: ty in {SignatureType, CovenantIdType, ProofType, UtxoType, OutputType, InputType} ==> !ValidParam(ty, value)
  {
  }

  lemma KeyBinding(contract: Contract, bindings: Bindings, name: string, key: Bytes, r: Reading)
    requires IsGiven(contract, bindings, name, KeyType, KeyParam(key))
    ensures ParamEnv(TypesOf(contract.params), bindings)(name, r) ==
            Some(BytesValue(if r == Elsewhere then key else SpkBytes(PayToKey(key))))
  {
  }

  lemma SingleDeployed(contract: Contract, spend: Spend, bindings: Bindings, code: Code, bound: Code)
    requires RequireOnly(spend.body) && spend.body != [] && Distinct(C.ParamNames(spend.params))
    requires LowerBody(spend.body) == Success(code) && ArgsLead(C.ParamNames(spend.params), code)
    requires BindingsError(contract.params, bindings).None?
    requires Instantiate(Names(C.ParamNames(spend.params)), ParamEnv(TypesOf(contract.params), bindings), Elsewhere, code) == Some(bound)
    requires InstantiateResult(contract, spend, bindings, code).Success?
    ensures var inst := InstantiateResult(contract, spend, bindings, code).value;
            inst.code == bound && SpendOps(bound).Success? && inst.script == Assemble(SpendOps(bound).value)
    ensures ValidDeployment(Deployed(spend.body, C.ParamNames(spend.params), ParamEnv(TypesOf(contract.params), bindings), bound))
  {
    ScopeBound(C.Scope({}, map[]), contract.params, bindings);
    OnlyUnboundFails(Names(C.ParamNames(spend.params)), TypesOf(contract.params), bindings, Elsewhere, code);
  }

  // ---- a payee ----

  /** output(i).script == payee */
  function PaysNamed(i: u32, payee: string): Expr {
    Infix(Field(Call(Id("output"), [Lit(i)], NOWHERE), Ident("script", NOWHERE), NOWHERE), BinaryOp.Equal, Id(payee))
  }

  lemma PayeeLowers(i: u32, payee: string)
    requires payee != "input_count" && payee != "output_count"
    ensures InFragment(PaysNamed(i, payee))
    ensures Lower(PaysNamed(i, payee)) == Success([OutputScript(i), Sym(payee), Instr.Equal])
  {
    var left := PaysNamed(i, payee).left;
    assert Lower(left) == Success([OutputScript(i)]) && Path(left) == ["script"];
    PlainBinary(left, BinaryOp.Equal, Id(payee), [OutputScript(i)], [Sym(payee)], [OutputScript(i), Sym(payee), Instr.Equal]);
  }

  lemma PayeeBinds(args: set<string>, env: Env, i: u32, payee: string, value: Value)
    requires payee !in args && env(payee, AfterOutputScript) == Some(value)
    ensures Instantiate(args, env, Elsewhere, [OutputScript(i), Sym(payee), Instr.Equal, Verify]) ==
            Some([OutputScript(i), Push(value), Instr.Equal, Verify])
  {
    InstantiateSymbol(args, env, Elsewhere, [OutputScript(i)], payee, [Instr.Equal, Verify], value);
    assert [OutputScript(i)] + [Sym(payee)] + [Instr.Equal, Verify] == [OutputScript(i), Sym(payee), Instr.Equal, Verify];
    assert [OutputScript(i)] + [Push(value)] + [Instr.Equal, Verify] == [OutputScript(i), Push(value), Instr.Equal, Verify];
  }

  lemma PayeeHolds(w: World, i: u32, payee: string, key: Bytes)
    requires payee != "input_count" && payee != "output_count" && |key| == 32
    requires NameValue(w, AfterOutputScript, payee) == Some(SpkBytes(PayToKey(key)))
    ensures InFragment(PaysNamed(i, payee)) && Faults(w, Elsewhere, PaysNamed(i, payee)) == {}
    ensures Holds(w, PaysNamed(i, payee)) <==> i < |w.c.tx.outputs| && w.c.tx.outputs[i].spk == PayToKey(key)
  {
    var e := PaysNamed(i, payee);
    PayeeLowers(i, payee);
    assert !IsLockTest(e) && LastReading(e.left) == AfterOutputScript;
    assert Eval(w, AfterOutputScript, e.right) == Some(SpkBytes(PayToKey(key)));
    assert Eval(w, Elsewhere, e.left) == FieldValue(w.c, false, i, "script");
    if i < |w.c.tx.outputs| { SpkEqualBytes(w.c.tx.outputs[i].spk, PayToKey(key)); }
    BoolNum(true);
    BoolNum(false);
  }

  /** A contract whose one requirement is `output(i).script == payee`: its script accepts if and only if
      nothing else is on the stack and output `i` pays the payee's key. */
  lemma PayeeScript(contract: Contract, spend: Spend, bindings: Bindings, i: u32, payee: string, key: Bytes, c: Context, st: Stack)
    requires spend.body == [Must(PaysNamed(i, payee))] && spend.params == []
    requires payee != "input_count" && payee != "output_count"
    requires IsGiven(contract, bindings, payee, KeyType, KeyParam(key)) && BindingsError(contract.params, bindings).None?
    requires InstantiateResult(contract, spend, bindings, [OutputScript(i), Sym(payee), Instr.Equal, Verify]).Success?
    ensures LowerBody(spend.body) == Success([OutputScript(i), Sym(payee), Instr.Equal, Verify])
    ensures var inst := InstantiateResult(contract, spend, bindings, [OutputScript(i), Sym(payee), Instr.Equal, Verify]).value;
            Accepts(c, inst.script, st) <==> st == Empty && i < |c.tx.outputs| && c.tx.outputs[i].spk == PayToKey(key)
  {
    var e, code := PaysNamed(i, payee), [OutputScript(i), Sym(payee), Instr.Equal, Verify];
    var env := ParamEnv(TypesOf(contract.params), bindings);
    var value := BytesValue(SpkBytes(PayToKey(key)));
    var bound := [OutputScript(i), Push(value), Instr.Equal, Verify];
    PayeeLowers(i, payee);
    SingleLowers(e, [OutputScript(i), Sym(payee), Instr.Equal], code);
    KeyBinding(contract, bindings, payee, key, AfterOutputScript);
    PayeeBinds({}, env, i, payee, value);
    NoArguments(code);
    assert Names(C.ParamNames(spend.params)) == {};
    SingleDeployed(contract, spend, bindings, code, bound);
    var d := Deployed(spend.body, [], env, bound);
    SpendAccepts(c, d, st);
    PayeePushable(i, value);
    OnlyEmpty(st);
    if st == Empty {
      ParameterStandsFor(contract, bindings, payee, KeyType, KeyParam(key), c, AfterOutputScript);
      assert WorldOf(c, d, st).env(payee, AfterOutputScript) == env(payee, AfterOutputScript);
      PayeeHolds(WorldOf(c, d, st), i, payee, key);
    }
  }

  lemma SingleLowers(e: Expr, code: Code, all: Code)
    requires Lower(e) == Success(code) && all == code + [Verify]
    ensures LowerBody([Must(e)]) == Success(all)
  {
    assert [Must(e)][1..] == [] && all + [] == all;
  }

  lemma NoArguments(code: Code)
    ensures Distinct([]) && ArgsLead([], code)
  {
    assert code[..0] == ArgPushes([]) && Names([]) == {};
  }

  lemma OnlyEmpty(st: Stack)
    ensures Height(st) == 0 <==> st == Empty
  {
  }

  lemma PayeePushable(i: u32, value: Value)
    requires value.BytesValue? && |value.bytes| >= 2
    ensures Pushable([OutputScript(i), Push(value), Instr.Equal, Verify])
  {
  }

  // ---- a signer ----

  /** sig.verify(signer) */
  function SignedBy(sig: string, signer: string): Expr {
    Call(Field(Id(sig), Ident("verify", NOWHERE), NOWHERE), [Id(signer)], NOWHERE)
  }

  lemma SignerLowers(sig: string, signer: string)
    requires {sig, signer} !! {"input_count", "output_count"}
    ensures InFragment(SignedBy(sig, signer)) && IsVerify(SignedBy(sig, signer))
    ensures Lower(SignedBy(sig, signer)) == Success([Sym(sig), Sym(signer), CheckSig(0)])
  {
    VerifyShape(SignedBy(sig, signer));
    assert [Sym(sig)] + [Sym(signer)] + [CheckSig(0)] == [Sym(sig), Sym(signer), CheckSig(0)];
  }

  lemma SignerBinds(env: Env, sig: string, signer: string, value: Value)
    requires sig != signer && env(signer, Elsewhere) == Some(value)
    ensures Instantiate({sig}, env, Elsewhere, [Sym(sig), Sym(signer), CheckSig(0), Verify]) == Some([Push(value), CheckSig(0), Verify])
  {
    InstantiateSymbol({sig}, env, Elsewhere, [], signer, [CheckSig(0), Verify], value);
    var rest := [] + [Sym(signer)] + [CheckSig(0), Verify];
    assert [Sym(sig), Sym(signer), CheckSig(0), Verify][1..] == rest;
    assert [] + [Push(value)] + [CheckSig(0), Verify] == [Push(value), CheckSig(0), Verify];
  }

  lemma SignerArguments(sig: string, signer: string)
    requires sig != signer
    ensures Distinct([sig]) && Names([sig]) == {sig}
    ensures ArgsLead([sig], [Sym(sig), Sym(signer), CheckSig(0), Verify])
  {
    var code := [Sym(sig), Sym(signer), CheckSig(0), Verify];
    assert [sig][1..] == [] && ArgPushes([sig]) == [Sym(sig)] + [];
    assert code[..1] == ArgPushes([sig]);
    assert code[1..] == [Sym(signer), CheckSig(0), Verify];
  }

  lemma SignerHolds(w: World, sig: string, signer: string, item: Bytes, key: Bytes)
    requires {sig, signer} !! {"input_count", "output_count"}
    requires NameValue(w, Elsewhere, sig) == Some(item) && NameValue(w, Elsewhere, signer) == Some(key)
    ensures InFragment(SignedBy(sig, signer)) && Faults(w, Elsewhere, SignedBy(sig, signer)) == {}
    ensures Holds(w, SignedBy(sig, signer)) <==> w.c.CheckSig(item, key) == Some(true)
  {
    var e := SignedBy(sig, signer);
    SignerLowers(sig, signer);
    assert Eval(w, Elsewhere, e) == EvalCall(w, Elsewhere, e);
    assert Eval(w, Elsewhere, e.callee.target) == Some(item) && Eval(w, Elsewhere, e.args[0]) == Some(key);
    BoolNum(true);
    BoolNum(false);
  }

  lemma SignerWorld(contract: Contract, bindings: Bindings, d: Deployed, sig: string, signer: string, key: Bytes, c: Context, st: Stack)
    requires d.args == [sig] && d.env == ParamEnv(TypesOf(contract.params), bindings) && Height(st) == 1
    requires sig != signer && {sig, signer} !! {"input_count", "output_count"}
    requires IsGiven(contract, bindings, signer, KeyType, KeyParam(key))
    ensures InFragment(SignedBy(sig, signer)) && Faults(WorldOf(c, d, st), Elsewhere, SignedBy(sig, signer)) == {}
    ensures Holds(WorldOf(c, d, st), SignedBy(sig, signer)) <==> c.CheckSig(st.top, key) == Some(true)
  {
    var w := WorldOf(c, d, st);
    OneItem(st, sig);
    ParameterStandsFor(contract, bindings, signer, KeyType, KeyParam(key), c, Elsewhere);
    assert w.env(signer, Elsewhere) == d.env(signer, Elsewhere);
    SignerHolds(w, sig, signer, st.top, key);
  }

  /** A contract whose one requirement is `sig.verify(signer)`: its script accepts if and only if the stack
      holds one item, a signature valid for the signer's key itself. */
  lemma SignerScript(contract: Contract, spend: Spend, bindings: Bindings, sig: string, signer: string, key: Bytes, c: Context, st: Stack)
    requires spend.body == [Must(SignedBy(sig, signer))] && C.ParamNames(spend.params) == [sig]
    requires sig != signer && {sig, signer} !! {"input_count", "output_count"}
    requires IsGiven(contract, bindings, signer, KeyType, KeyParam(key)) && BindingsError(contract.params, bindings).None?
    requires InstantiateResult(contract, spend, bindings, [Sym(sig), Sym(signer), CheckSig(0), Verify]).Success?
    ensures LowerBody(spend.body) == Success([Sym(sig), Sym(signer), CheckSig(0), Verify])
    ensures var inst := InstantiateResult(contract, spend, bindings, [Sym(sig), Sym(signer), CheckSig(0), Verify]).value;
            Accepts(c, inst.script, st) <==> Height(st) == 1 && c.CheckSig(st.top, key) == Some(true)
  {
    var code := [Sym(sig), Sym(signer), CheckSig(0), Verify];
    var d := SignerDeploys(contract, spend, bindings, sig, signer, key, code);
    SpendAccepts(c, d, st);
    if Height(st) == 1 { SignerWorld(contract, bindings, d, sig, signer, key, c, st); }
  }

  lemma SignerDeploys(contract: Contract, spend: Spend, bindings: Bindings, sig: string, signer: string, key: Bytes, code: Code)
    returns (d: Deployed)
    requires spend.body == [Must(SignedBy(sig, signer))] && C.ParamNames(spend.params) == [sig]
    requires sig != signer && {sig, signer} !! {"input_count", "output_count"}
    requires IsGiven(contract, bindings, signer, KeyType, KeyParam(key)) && BindingsError(contract.params, bindings).None?
    requires code == [Sym(sig), Sym(signer), CheckSig(0), Verify] && InstantiateResult(contract, spend, bindings, code).Success?
    ensures LowerBody(spend.body) == Success(code)
    ensures ValidDeployment(d) && Pushable(d.code) && InstantiateResult(contract, spend, bindings, code).value.script == Assemble(SpendOps(d.code).value)
    ensures d.body == spend.body && d.args == [sig] && d.env == ParamEnv(TypesOf(contract.params), bindings)
  {
    var env, value := ParamEnv(TypesOf(contract.params), bindings), BytesValue(key);
    var bound := [Push(value), CheckSig(0), Verify];
    SignerLowers(sig, signer);
    SingleLowers(SignedBy(sig, signer), [Sym(sig), Sym(signer), CheckSig(0)], code);
    KeyBinding(contract, bindings, signer, key, Elsewhere);
    SignerBinds(env, sig, signer, value);
    SignerArguments(sig, signer);
    SingleDeployed(contract, spend, bindings, code, bound);
    d := Deployed(spend.body, [sig], env, bound);
    assert Pushable(bound);
  }

  lemma OneItem(st: Stack, sig: string)
    requires Height(st) == 1
    ensures StackItems(st) == [st.top] && ArgMap([sig], StackItems(st)) == map[sig := st.top]
  {
    assert StackItems(st.below) == [] && [] + [st.top] == [st.top];
    assert [sig][1..] == [] && [st.top][1..] == [];
  }
}
