/** From source tokens to the script that locks an output: parsing, checking, lowering, generating and
    instantiating in turn (compiler/codegen/src/lib.rs, compiler/ir/src/gen.rs, sdk/src/testnet.rs). */
module Pipeline {
  import opened Wrappers
  import opened ScriptNumbers
  import opened Syntax
  import opened Tokens
  import opened Instructions
  import opened Lowering
  import opened Script
  import opened Encoding
  import opened Engine
  import opened Evaluation
  import opened Simulation
  import opened Correctness
  import opened Spends
  import opened Traversal
  import opened TypeSoundness
  import opened Instantiation
  import opened ModelSoundness
  import Gates
  import G = Grammar
  import P = Parser
  import C = Checker

  // ---- compiling a file ----

  datatype CompileFailure =
    | NotParsed(parse: G.ParseError)
    | Rejected(problems: seq<C.Problem>)
    | NotLowered(lower: LowerError)
    | NotGenerated(generate: Gates.CompileError)

  /** The checked contracts, the code of every spend in order, and the artifact. */
  datatype Output = Output(contracts: seq<Contract>, codes: seq<Code>, artifact: Gates.Artifact)

  function BodiesOf(spends: seq<Spend>): seq<seq<Stmt>> {
    if spends == [] then [] else [spends[0].body] + BodiesOf(spends[1..])
  }

  /** The spend bodies of all contracts, in order. */
  function Bodies(contracts: seq<Contract>): seq<seq<Stmt>> {
    if contracts == [] then [] else BodiesOf(contracts[0].spends) + Bodies(contracts[1..])
  }

  function LowerBodies(bodies: seq<seq<Stmt>>): Result<seq<Code>, LowerError> {
    if bodies == [] then Success([])
    else
      var first :- LowerBody(bodies[0]);
      var rest :- LowerBodies(bodies[1..]);
      Success([first] + rest)
  }

  /** The improvement proposal a part of an expression relies on. */
  function KipOf(part: Expr): Option<nat> {
    if part.Name? then
      var name := part.ident.name;
      if name in {"input", "output", "input_count", "output_count"} then Some(10)
      else if name == "covenant_id" then Some(20)
      else if name == "zk_verify" then Some(16)
      else if name == "sequencing" then Some(15)
      else None
    else if part.Field? && part.field.name == "covenant_id" then Some(20)
    else None
  }

  predicate PartsUse(parts: seq<Expr>, kip: nat) {
    exists p :: p in parts && KipOf(p) == Some(kip)
  }

  predicate BodyUses(body: seq<Stmt>, kip: nat) {
    body != [] && (PartsUse(Parts(body[0].expr), kip) || BodyUses(body[1..], kip))
  }

  predicate Uses(bodies: seq<seq<Stmt>>, kip: nat) {
    bodies != [] && (BodyUses(bodies[0], kip) || Uses(bodies[1..], kip))
  }

  /** The proposals a program relies on, in ascending order. */
  function Kips(bodies: seq<seq<Stmt>>): seq<nat> {
    (if Uses(bodies, 10) then [10] else []) + (if Uses(bodies, 15) then [15] else [])
    + (if Uses(bodies, 16) then [16] else []) + (if Uses(bodies, 20) then [20] else [])
  }

  /** Some part of some expression of the bodies is a name of the given ones. */
  ghost predicate Mentions(bodies: seq<seq<Stmt>>, names: set<string>) {
    exists body, s, p :: body in bodies && s in body && p in Parts(s.expr) && p.Name? && p.ident.name in names
  }

  /** Some part of some expression of the bodies selects the given field. */
  ghost predicate Selects(bodies: seq<seq<Stmt>>, field: string) {
    exists body, s, p :: body in bodies && s in body && p in Parts(s.expr) && p.Field? && p.field.name == field
  }

  lemma {:induction false} BodyUse(body: seq<Stmt>, kip: nat)
    ensures BodyUses(body, kip) <==> exists s, p :: s in body && p in Parts(s.expr) && KipOf(p) == Some(kip)
  {
    if body != [] {
      BodyUse(body[1..], kip);
      assert forall s :: s in body <==> s == body[0] || s in body[1..];
    }
  }

  ghost predicate Relies(bodies: seq<seq<Stmt>>, kip: nat) {
    exists body, s, p :: body in bodies && s in body && p in Parts(s.expr) && KipOf(p) == Some(kip)
  }

  lemma {:induction false} ProgramUse(bodies: seq<seq<Stmt>>, kip: nat)
    ensures Uses(bodies, kip) <==> Relies(bodies, kip)
  {
    if bodies != [] {
      BodyUse(bodies[0], kip);
      ProgramUse(bodies[1..], kip);
      assert forall body :: body in bodies <==> body == bodies[0] || body in bodies[1..];
    }
  }

  lemma KipsAscend(bodies: seq<seq<Stmt>>)
    ensures var kips := Kips(bodies);
            (forall k :: k in kips <==> k in {10, 15, 16, 20} && Uses(bodies, k)) && forall i, j :: 0 <= i < j < |kips| ==> kips[i] < kips[j]
  {
  }

  lemma RelyingOnNames(bodies: seq<seq<Stmt>>, kip: nat, names: set<string>)
    requires forall p :: KipOf(p) == Some(kip) <==> p.Name? && p.ident.name in names
    ensures Relies(bodies, kip) <==> Mentions(bodies, names)
  {
  }

  lemma RelyingOnCovenants(bodies: seq<seq<Stmt>>)
    ensures Relies(bodies, 20) <==> Mentions(bodies, {"covenant_id"}) || Selects(bodies, "covenant_id")
  {
    if Relies(bodies, 20) {
      var body, s, p :| body in bodies && s in body && p in Parts(s.expr) && KipOf(p) == Some(20);
      assert (p.Name? && p.ident.name in {"covenant_id"}) || (p.Field? && p.field.name == "covenant_id");
    }
    if Mentions(bodies, {"covenant_id"}) {
      var body, s, p :| body in bodies && s in body && p in Parts(s.expr) && p.Name? && p.ident.name in {"covenant_id"};
      assert KipOf(p) == Some(20);
    }
    if Selects(bodies, "covenant_id") {
      var body, s, p :| body in bodies && s in body && p in Parts(s.expr) && p.Field? && p.field.name == "covenant_id";
      assert KipOf(p) == Some(20);
    }
  }

  /** Which source relies on which proposal: the transaction's inputs, outputs and their counts on the
      tenth, sequencing on the fifteenth, proofs on the sixteenth, covenant ids on the twentieth. */
  lemma SourceOfProposals(bodies: seq<seq<Stmt>>)
    ensures 10 in Kips(bodies) <==> Mentions(bodies, {"input", "output", "input_count", "output_count"})
    ensures 15 in Kips(bodies) <==> Mentions(bodies, {"sequencing"})
    ensures 16 in Kips(bodies) <==> Mentions(bodies, {"zk_verify"})
    ensures 20 in Kips(bodies) <==> Mentions(bodies, {"covenant_id"}) || Selects(bodies, "covenant_id")
    ensures forall k :: k in Kips(bodies) ==> k in {10, 15, 16, 20}
  {
    KipsAscend(bodies);
    ProgramUse(bodies, 10);
    ProgramUse(bodies, 15);
    ProgramUse(bodies, 16);
    ProgramUse(bodies, 20);
    RelyingOnNames(bodies, 10, {"input", "output", "input_count", "output_count"});
    RelyingOnNames(bodies, 15, {"sequencing"});
    RelyingOnNames(bodies, 16, {"zk_verify"});
    RelyingOnCovenants(bodies);
  }

  /** The contracts of a file that parses. */
  function ParsedFile(t: seq<Token>): Result<seq<Contract>, G.ParseError> {
    match G.ParseProgram(t, 0, [])
    case Success(parsed) => Success(parsed.0)
    case Failure(error) => Failure(error)
  }

  /** The contracts of a file that passes the checker too. */
  function CheckedFile(parsed: Result<seq<Contract>, G.ParseError>): Result<seq<Contract>, CompileFailure> {
    if parsed.Failure? then Failure(NotParsed(parsed.error))
    else if C.FoundInProgram(parsed.value) != [] then Failure(Rejected(C.FoundInProgram(parsed.value)))
    else Success(parsed.value)
  }

  function Checked(t: seq<Token>): Result<seq<Contract>, CompileFailure> { CheckedFile(ParsedFile(t)) }

  function Generated(contracts: seq<Contract>, target: Gates.Target): Result<Output, CompileFailure> {
    var codes := LowerBodies(Bodies(contracts));
    if codes.Failure? then Failure(NotLowered(codes.error))
    else
      var artifact := Gates.Compiled(Gates.Ir(Kips(Bodies(contracts)), codes.value), target);
      if artifact.Failure? then Failure(NotGenerated(artifact.error))
      else Success(Output(contracts, codes.value, artifact.value))
  }

  function Compiling(t: seq<Token>, target: Gates.Target): Result<Output, CompileFailure> {
    var contracts :- Checked(t);
    Generated(contracts, target)
  }

  /** The contract is one of those a file compiles to. */
  predicate CompiledFrom(t: seq<Token>, target: Gates.Target, contract: Contract) {
    Compiling(t, target).Success? && contract in Compiling(t, target).value.contracts
  }

  // ---- the compiler's own steps ----

  function Following(codes: seq<Code>, rest: Result<seq<Code>, LowerError>): Result<seq<Code>, LowerError> {
    match rest
    case Success(more) => Success(codes + more)
    case Failure(error) => Failure(error)
  }

  lemma FollowingOne(codes: seq<Code>, body: seq<Stmt>, bodies: seq<seq<Stmt>>)
    ensures Following(codes, LowerBodies([body] + bodies)) ==
            if LowerBody(body).Failure? then Failure(LowerBody(body).error)
            else Following(codes + [LowerBody(body).value], LowerBodies(bodies))
  {
    assert ([body] + bodies)[1..] == bodies;
    if LowerBody(body).Success? && LowerBodies(bodies).Success? {
      ConcatAssociates(codes, [LowerBody(body).value], LowerBodies(bodies).value);
    }
  }

  /** Lowers the spends of all contracts in order. */
  method LowerProgram(contracts: seq<Contract>) returns (r: Result<seq<Code>, LowerError>)
    ensures r == LowerBodies(Bodies(contracts))
  {
    var codes: seq<Code> := [];
    assert contracts[0..] == contracts;
    assert Following([], LowerBodies(Bodies(contracts))) == LowerBodies(Bodies(contracts)) by {
      if LowerBodies(Bodies(contracts)).Success? { ConcatAssociates(LowerBodies(Bodies(contracts)).value, [], []); }
    }
    for i := 0 to |contracts|
      invariant Following(codes, LowerBodies(Bodies(contracts[i..]))) == LowerBodies(Bodies(contracts))
    {
      assert contracts[i..][0] == contracts[i] && contracts[i..][1..] == contracts[i + 1..];
      var lowered := LowerSpends(contracts[i].spends, codes, Bodies(contracts[i + 1..]));
      if lowered.Failure? { return lowered; }
      codes := lowered.value;
    }
    assert codes + [] == codes;
    return Success(codes);
  }

  /** Adds the code of each spend; `later` are the bodies still to come. */
  method LowerSpends(spends: seq<Spend>, before: seq<Code>, ghost later: seq<seq<Stmt>>) returns (r: Result<seq<Code>, LowerError>)
    ensures r.Success? ==> Following(r.value, LowerBodies(later)) == Following(before, LowerBodies(BodiesOf(spends) + later))
    ensures r.Failure? ==> Following(before, LowerBodies(BodiesOf(spends) + later)) == r
  {
    var codes := before;
    assert spends[0..] == spends;
    for i := 0 to |spends|
      invariant Following(codes, LowerBodies(BodiesOf(spends[i..]) + later)) == Following(before, LowerBodies(BodiesOf(spends) + later))
    {
      assert spends[i..][0] == spends[i] && spends[i..][1..] == spends[i + 1..];
      ConcatAssociates([spends[i].body], BodiesOf(spends[i + 1..]), later);
      FollowingOne(codes, spends[i].body, BodiesOf(spends[i + 1..]) + later);
      var code := LowerSpendBody(spends[i].body);
      if code.Failure? { return Failure(code.error); }
      codes := codes + [code.value];
    }
    assert [] + later == later;
    return Success(codes);
  }

  method ParseFile(t: seq<Token>) returns (r: Result<seq<Contract>, G.ParseError>)
    ensures Same(r, ParsedFile(t))
  {
    var parser := new P.Parser(t);
    r := parser.ParseProgram();
  }

  method CheckFile(parsed: Result<seq<Contract>, G.ParseError>) returns (r: Result<seq<Contract>, CompileFailure>)
    ensures r == CheckedFile(parsed)
  {
    if parsed.Failure? { return Failure(NotParsed(parsed.error)); }
    var checker := new C.Checker();
    checker.CheckProgram(parsed.value);
    assert checker.errors == C.FoundInProgram(parsed.value);
    if checker.errors != [] { return Failure(Rejected(checker.errors)); }
    return Success(parsed.value);
  }

  method Generate(contracts: seq<Contract>, target: Gates.Target) returns (r: Result<Output, CompileFailure>)
    ensures r == Generated(contracts, target)
  {
    var codes := LowerProgram(contracts);
    if codes.Failure? { return Failure(NotLowered(codes.error)); }
    var artifact := Gates.CompileToccata(Gates.Ir(Kips(Bodies(contracts)), codes.value), target);
    if artifact.Failure? { return Failure(NotGenerated(artifact.error)); }
    return Success(Output(contracts, codes.value, artifact.value));
  }

  /** Parses, checks, lowers and generates, stopping at the first stage that fails. */
  method CompileFile(t: seq<Token>, target: Gates.Target) returns (r: Result<Output, CompileFailure>)
    ensures r == Compiling(t, target)
  {
    var parsed := ParseFile(t);
    var contracts := CheckFile(parsed);
    if contracts.Failure? { return Failure(contracts.error); }
    r := Generate(contracts.value, target);
  }

  /** A file that relies on proofs or covenant ids never compiles for `verified-tn12` or `future-mainnet`;
      any other file that compiles for one target compiles for all, to the same output, without a warning. */
  lemma TargetsDifferOnProposals(t: seq<Token>, target: Gates.Target)
    ensures Checked(t).Success? ==>
              var bodies := Bodies(Checked(t).value);
              if Mentions(bodies, {"zk_verify", "covenant_id"}) || Selects(bodies, "covenant_id") then
                target in {Gates.VerifiedTn12, Gates.FutureMainnet} ==> Compiling(t, target).Failure?
              else
                Compiling(t, target) == Compiling(t, Gates.VerifiedTn12)
                && (Compiling(t, target).Success? ==> Compiling(t, target).value.artifact.warnings == [])
  {
    if Checked(t).Success? {
      var bodies := Bodies(Checked(t).value);
      SourceOfProposals(bodies);
      GatedKips(Kips(bodies));
      if LowerBodies(bodies).Success? {
        Gates.CompiledByTarget(Gates.Ir(Kips(bodies), LowerBodies(bodies).value), target);
        Gates.CompiledByTarget(Gates.Ir(Kips(bodies), LowerBodies(bodies).value), Gates.VerifiedTn12);
      }
    }
  }

  lemma {:induction false} GatedKips(kips: seq<nat>)
    requires forall k :: k in kips ==> k in {10, 15, 16, 20}
    ensures Gates.GatedNames(kips) == [] <==> 16 !in kips && 20 !in kips
  {
    if kips != [] {
      assert forall k :: k in kips <==> k == kips[0] || k in kips[1..];
      assert kips[0] in kips;
      GatedKips(kips[1..]);
      assert Gates.GatedName(kips[0]).Some? <==> kips[0] == 16 || kips[0] == 20;
    }
  }

  // ---- a compiled spend means what its source says ----

  function LocalsOf(contract: Contract, spend: Spend): C.Locals {
    C.AfterParams(C.Locals(C.OuterScope(contract), {}), spend.params)
  }

  /** A single-path contract with its parameters in place. */
  function Deployment(contract: Contract, spend: Spend, bindings: Bindings, code: Code): Deployed {
    Deployed(spend.body, C.ParamNames(spend.params), ParamEnv(TypesOf(contract.params), bindings), code)
  }

  /** A spend of the fragment whose argument pushes lead its code. */
  predicate Supported(spend: Spend) {
    RequireOnly(spend.body) && LowerBody(spend.body).Success? && ArgsLead(C.ParamNames(spend.params), LowerBody(spend.body).value)
  }

  /** What else a caller checks before relying on completeness. */
  predicate Complete(contract: Contract, spend: Spend) {
    AllLocksConjoined(spend.body) && BodyDistinguishesNumbers(LocalsOf(contract, spend).scope, spend.body)
    && forall i :: 0 <= i < |contract.params| ==> C.BuiltinType(contract.params[i].name.name).None?
  }

  lemma {:induction false} ParamsDistinct(outer: C.Scope, l: C.Locals, params: seq<Param>)
    requires C.ParamsOk(outer, l, params)
    ensures Distinct(C.ParamNames(params)) && forall i :: 0 <= i < |params| ==> params[i].name.name !in l.names
    decreases params
  {
    if params != [] {
      var next := l.Declare(params[0].name.name, Some(params[0].ty));
      ParamsDistinct(outer, next, params[1..]);
      assert C.ParamNames(params)[1..] == C.ParamNames(params[1..]);
      forall i | 0 < i < |params| ensures params[i].name.name !in next.names { assert params[i] == params[1..][i - 1]; }
    }
  }

  lemma {:induction false} ParamsKeepTypes(l: C.Locals, params: seq<Param>, name: string)
    requires name !in C.ParamNames(params)
    ensures var after := C.AfterParams(l, params).scope.types;
            (name in after <==> name in l.scope.types) && (name in after ==> after[name] == l.scope.types[name])
    decreases params
  {
    if params != [] {
      assert C.ParamNames(params) == [params[0].name.name] + C.ParamNames(params[1..]);
      ParamsKeepTypes(l.Declare(params[0].name.name, Some(params[0].ty)), params[1..], name);
    }
  }

  lemma {:induction false} ScopeTypes(s: C.Scope, s1: C.Scope, params: seq<Param>)
    requires s.types == s1.types
    ensures C.ScopeOf(s, params).types == C.ScopeOf(s1, params).types
    decreases params
  {
    if params != [] {
      ScopeTypes(s.Insert(params[0].name.name, params[0].ty), s1.Insert(params[0].name.name, params[0].ty), params[1..]);
    }
  }

  lemma {:induction false} ScopeNames(s: C.Scope, params: seq<Param>, name: string)
    requires name in C.ScopeOf(s, params).types && name !in s.types
    ensures exists i :: 0 <= i < |params| && params[i].name.name == name
    decreases params
  {
    if params[0].name.name != name {
      ScopeNames(s.Insert(params[0].name.name, params[0].ty), params[1..], name);
      var i :| 0 <= i < |params[1..]| && params[1..][i].name.name == name;
      assert params[i + 1].name.name == name;
    }
  }

  // ---- a contract with `let` cannot be instantiated ----

  lemma {:induction false} LetIsPushed(body: seq<Stmt>, i: nat)
    requires i < |body| && body[i].Let? && LowerBody(body).Success?
    ensures Push(SymbolValue(body[i].name.name)) in LowerBody(body).value
  {
    var first, rest := LowerStmt(body[0]).value, LowerBody(body[1..]).value;
    assert forall instr :: instr in first + rest <==> instr in first || instr in rest;
    if i > 0 {
      LetIsPushed(body[1..], i - 1);
    } else {
      var push := Push(SymbolValue(body[0].name.name));
      assert first == Lower(body[0].expr).value + [push] && push in [push];
    }
  }

  lemma {:induction false} UnboundIsFound(args: set<string>, types: map<string, TypeName>, code: Code, name: string)
    requires Push(SymbolValue(name)) in code && name !in args && name !in types
    ensures FirstUnbound(args, types, code).Some?
  {
    if code[0] != Push(SymbolValue(name)) {
      assert code == [code[0]] + code[1..];
      UnboundIsFound(args, types, code[1..], name);
    }
  }

  lemma {:induction false} LetIsFresh(l: C.Locals, body: seq<Stmt>, i: nat)
    requires C.BodyOk(l, body) && i < |body| && body[i].Let?
    ensures body[i].name.name !in l.names && body[i].name.name !in l.scope.types
    decreases body
  {
    if i > 0 { LetIsFresh(C.AfterStmt(l, body[0]), body[1..], i - 1); }
  }

  lemma {:induction false} ParamsAreDeclared(l: C.Locals, params: seq<Param>, name: string)
    ensures var after := C.AfterParams(l, params);
            (name in C.ParamNames(params) || name in l.names ==> name in after.names)
            && (name in l.scope.types ==> name in after.scope.types)
    decreases params
  {
    if params != [] {
      assert C.ParamNames(params) == [params[0].name.name] + C.ParamNames(params[1..]);
      ParamsAreDeclared(l.Declare(params[0].name.name, Some(params[0].ty)), params[1..], name);
    }
  }

  /** A checked contract with a `let` is never given its parameters: the name it binds is pushed as a symbol
      that is neither a parameter nor an argument. */
  lemma LetStopsInstantiation(contract: Contract, spend: Spend, bindings: Bindings, i: nat)
    requires C.SpendOk(contract, spend, C.OuterScope(contract)) && LowerBody(spend.body).Success?
    requires i < |spend.body| && spend.body[i].Let?
    ensures InstantiateResult(contract, spend, bindings, LowerBody(spend.body).value).Failure?
  {
    var name, outer := spend.body[i].name.name, C.Locals(C.OuterScope(contract), {});
    LetIsPushed(spend.body, i);
    LetIsFresh(LocalsOf(contract, spend), spend.body, i);
    ParamsAreDeclared(outer, spend.params, name);
    ScopeTypes(C.Scope({}, map[]), C.Scope(C.SpendNames(contract.spends), map[]), contract.params);
    UnboundIsFound(Names(C.ParamNames(spend.params)), TypesOf(contract.params), LowerBody(spend.body).value, name);
  }

  lemma CheckedIsOk(t: seq<Token>)
    requires Checked(t).Success?
    ensures C.ProgramOk(Checked(t).value)
  {
    C.NothingFoundInProgram(Checked(t).value);
  }

  lemma GeneratedContracts(contracts: seq<Contract>, target: Gates.Target)
    requires Generated(contracts, target).Success?
    ensures Generated(contracts, target).value.contracts == contracts
  {
  }

  lemma SpendOfProgram(contracts: seq<Contract>, contract: Contract, spend: Spend)
    requires C.ProgramOk(contracts) && contract in contracts && contract.spends == [spend]
    ensures C.SpendOk(contract, spend, C.OuterScope(contract))
  {
    assert C.ContractOk(contract) && contract.spends[0] == spend;
  }

  lemma CheckedSpend(t: seq<Token>, target: Gates.Target, contract: Contract, spend: Spend)
    requires CompiledFrom(t, target, contract) && contract.spends == [spend]
    ensures C.SpendOk(contract, spend, C.OuterScope(contract))
  {
    CheckedIsOk(t);
    GeneratedContracts(Checked(t).value, target);
    SpendOfProgram(Checked(t).value, contract, spend);
  }

  lemma InstantiatedIsDeployed(contract: Contract, spend: Spend, bindings: Bindings, inst: Instantiated)
    requires C.SpendOk(contract, spend, C.OuterScope(contract)) && Supported(spend)
    requires InstantiateResult(contract, spend, bindings, LowerBody(spend.body).value) == Success(inst)
    ensures ValidDeployment(Deployment(contract, spend, bindings, inst.code))
    ensures inst.script == Assemble(SpendOps(inst.code).value)
  {
    ParamsDistinct(C.OuterScope(contract), C.Locals(C.OuterScope(contract), {}), spend.params);
    ScopeBound(C.Scope({}, map[]), contract.params, bindings);
    OnlyUnboundFails(Names(C.ParamNames(spend.params)), TypesOf(contract.params), bindings, Elsewhere, LowerBody(spend.body).value);
    assert spend.body != [];
  }

  lemma ContractParametersFit(contract: Contract, spend: Spend, bindings: Bindings)
    requires BindingsError(contract.params, bindings).None? && Complete(contract, spend)
    ensures ParametersFit(LocalsOf(contract, spend).scope, ParamEnv(TypesOf(contract.params), bindings), C.ParamNames(spend.params))
  {
    var s, args, types := LocalsOf(contract, spend).scope, C.ParamNames(spend.params), TypesOf(contract.params);
    ScopeTypes(C.Scope({}, map[]), C.Scope(C.SpendNames(contract.spends), map[]), contract.params);
    forall name | name in types && name !in args
      ensures C.BuiltinType(name).None? && name in s.types && s.types[name] == types[name]
    {
      ScopeNames(C.Scope({}, map[]), contract.params, name);
      ParamsKeepTypes(C.Locals(C.OuterScope(contract), {}), spend.params, name);
    }
    ParametersOfContractFit(s, contract.params, bindings, args);
  }

  /** Whatever unlocks the script of a compiled and instantiated contract, the transaction meets every
      requirement of the source and is one the application model describes. */
  lemma CompiledSpendIsSound(t: seq<Token>, target: Gates.Target, contract: Contract, spend: Spend,
                             bindings: Bindings, inst: Instantiated, c: Context, st: Stack)
    requires CompiledFrom(t, target, contract) && contract.spends == [spend]
    requires Supported(spend) && InstantiateResult(contract, spend, bindings, LowerBody(spend.body).value) == Success(inst)
    requires Accepts(c, inst.script, st)
    ensures Height(st) == |spend.params|
    ensures var w := WorldOf(c, Deployment(contract, spend, bindings, inst.code), st);
            AllHold(w, spend.body) && ModelHolds(w, spend.body)
  {
    CheckedSpend(t, target, contract, spend);
    InstantiatedIsDeployed(contract, spend, bindings, inst);
    var d := Deployment(contract, spend, bindings, inst.code);
    AcceptanceIsSound(c, d, st);
    AcceptedMatchesModel(c, d, st, LocalsOf(contract, spend));
  }

  /** From tokens to verdict: for a contract that compiles, instantiated with parameters its declarations
      allow, the locking script accepts exactly the transactions and unlocking stacks for which every
      requirement of the source holds. All conditions can be checked before a transaction exists, but for
      the items of the stack being of their declared types. */
  lemma CompiledSpendIsCorrect(t: seq<Token>, target: Gates.Target, contract: Contract, spend: Spend,
                               bindings: Bindings, inst: Instantiated, c: Context, st: Stack)
    requires CompiledFrom(t, target, contract) && contract.spends == [spend]
    requires Supported(spend) && InstantiateResult(contract, spend, bindings, LowerBody(spend.body).value) == Success(inst)
    requires Complete(contract, spend) && Pushable(inst.code)
    requires Height(st) == |spend.params| ==> ItemsFit(LocalsOf(contract, spend).scope, C.ParamNames(spend.params), st)
    ensures Accepts(c, inst.script, st) <==>
            Height(st) == |spend.params| && AllHold(WorldOf(c, Deployment(contract, spend, bindings, inst.code), st), spend.body)
  {
    CheckedSpend(t, target, contract, spend);
    InstantiatedIsDeployed(contract, spend, bindings, inst);
    ContractParametersFit(contract, spend, bindings);
    TypedAcceptanceIsComplete(c, Deployment(contract, spend, bindings, inst.code), st, LocalsOf(contract, spend).scope);
  }
}
