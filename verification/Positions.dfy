/** Source positions do not matter: what is parsed alike is checked, lowered and generated alike. */
module Positions {
  import opened Wrappers
  import opened ScriptNumbers
  import opened Syntax
  import opened Tokens
  import opened Instructions
  import opened Lowering
  import opened Traversal
  import opened Printer
  import opened Programs
  import opened Pipeline
  import Gates
  import C = Checker

  // ---- expressions ----

  lemma {:induction false} ErasedAt(es: seq<Expr>, i: nat)
    requires i < |es|
    ensures EraseAll(es)[i] == Erase(es[i])
  {
    if i > 0 { ErasedAt(es[1..], i - 1); }
  }

  lemma ErasedTail(es: seq<Expr>)
    requires es != []
    ensures EraseAll(es)[0] == Erase(es[0]) && EraseAll(es)[1..] == EraseAll(es[1..])
  {
  }

  lemma {:induction false} PathErased(e: Expr)
    ensures Path(Erase(e)) == Path(e)
  {
    if e.Field? { PathErased(e.target); }
  }

  lemma ShapeErased(e: Expr)
    ensures IsLockTest(Erase(e)) == IsLockTest(e) && IsOutputCall(Erase(e)) == IsOutputCall(e)
    ensures forall name :: IsCallOf(Erase(e), name) == IsCallOf(e, name)
  {
    if e.Binary? { PathErased(e.left); }
    if e.Call? && |e.args| == 1 { ErasedAt(e.args, 0); }
  }

  lemma {:induction false} LowerErased(e: Expr)
    ensures Lower(Erase(e)) == Lower(e)
    decreases e, 1
  {
    match e
    case Array(elements, _) => LowerAllErased(elements);
    case Unary(_, operand, _) => LowerErased(operand);
    case Binary(left, _, right, _) =>
      ShapeErased(e);
      PathErased(left);
      LowerErased(left);
      LowerErased(right);
    case Call(_, _, _) => LowerCallErased(e);
    case Field(target, field, _) =>
      ShapeErased(target);
      PathErased(target);
      LowerErased(target);
      if target.Call? && target.args != [] { ErasedAt(target.args, 0); }
    case _ =>
  }

  lemma {:induction false} LowerAllErased(es: seq<Expr>)
    ensures LowerAll(EraseAll(es)) == LowerAll(es)
    decreases es, 2
  {
    if es != [] {
      ErasedTail(es);
      LowerErased(es[0]);
      LowerAllErased(es[1..]);
    }
  }

  lemma {:induction false} LowerFirstErased(es: seq<Expr>)
    ensures LowerFirst(EraseAll(es)) == LowerFirst(es)
    decreases es, 2
  {
    if es != [] {
      ErasedAt(es, 0);
      LowerErased(es[0]);
    }
  }

  lemma {:induction false} LowerCallErased(e: Expr)
    requires e.Call?
    ensures LowerCall(Erase(e)) == LowerCall(e)
    decreases e, 0
  {
    ShapeErased(e);
    LowerFirstErased(e.args);
    if e.callee.Field? && e.callee.field.name == "verify" {
      LowerErased(e.callee.target);
    } else if IsCallOf(e, "input") || IsCallOf(e, "output") {
      if e.args != [] { ErasedAt(e.args, 0); }
    } else if IsCallOf(e, "continuation") {
      if |e.args| > 1 {
        ErasedAt(e.args, 1);
        ShapeErased(e.args[1]);
        if IsOutputCall(e.args[1]) { ErasedAt(e.args[1].args, 0); }
      }
    } else if IsCallOf(e, "multisig") {
      LowerMultisigErased(e.args);
    } else if !(IsCallOf(e, "zk_verify") || IsCallOf(e, "sha256") || IsCallOf(e, "blake2b") || IsCallOf(e, "hash160")) {
      LowerErased(e.callee);
      LowerAllErased(e.args);
    }
  }

  lemma {:induction false} LowerMultisigErased(args: seq<Expr>)
    ensures LowerMultisig(EraseAll(args)) == LowerMultisig(args)
    decreases args, 2
  {
    if args != [] { ErasedAt(args, 0); }
    if |args| > 1 {
      ErasedAt(args, 1);
      LowerErased(args[1]);
    }
    if |args| > 2 {
      ErasedAt(args, 2);
      LowerErased(args[2]);
    }
  }

  // ---- what the checker finds in an expression ----

  lemma {:induction false} TypeErased(s: C.Scope, e: Expr)
    ensures C.TypeOf(s, Erase(e)) == C.TypeOf(s, e)
  {
    if e.Field? {
      TypeErased(s, e.target);
    } else if e.Call? {
      ShapeErased(e);
    }
  }

  lemma {:induction false} FoundErased(s: C.Scope, e: Expr)
    ensures C.Found(s, Erase(e)) == C.Found(s, e)
    decreases e, 1
  {
    match e
    case Array(elements, _) => AllFoundErased(s, elements);
    case Unary(_, operand, _) =>
      FoundErased(s, operand);
      TypeErased(s, operand);
    case Binary(left, _, right, _) =>
      FoundErased(s, left);
      FoundErased(s, right);
      TypeErased(s, left);
      TypeErased(s, right);
    case Call(_, _, _) => FoundInCallErased(s, e);
    case Field(target, _, _) =>
      FoundErased(s, target);
      TypeErased(s, target);
      TypeErased(s, e);
    case _ =>
  }

  lemma {:induction false} AllFoundErased(s: C.Scope, es: seq<Expr>)
    ensures C.AllFound(s, EraseAll(es)) == C.AllFound(s, es)
    decreases es, 2
  {
    if es != [] {
      ErasedTail(es);
      FoundErased(s, es[0]);
      AllFoundErased(s, es[1..]);
    }
  }

  lemma {:induction false} FoundInArgumentErased(s: C.Scope, args: seq<Expr>, wanted: Option<TypeName>, arity: C.Problem, argument: C.Problem)
    ensures C.FoundInArgument(s, EraseAll(args), wanted, arity, argument) == C.FoundInArgument(s, args, wanted, arity, argument)
    decreases args, 2
  {
    if |args| == 1 {
      ErasedAt(args, 0);
      FoundErased(s, args[0]);
      TypeErased(s, args[0]);
    }
  }

  lemma {:induction false} FoundInCallErased(s: C.Scope, e: Expr)
    requires e.Call?
    ensures C.FoundInCall(s, Erase(e)) == C.FoundInCall(s, e)
    decreases e, 0
  {
    ShapeErased(e);
    if C.IsVerifyCall(e) {
      FoundErased(s, e.callee.target);
      TypeErased(s, e.callee.target);
      FoundInArgumentErased(s, e.args, Some(KeyType), C.VerifyArity, C.VerifyArgument);
    } else if IsCallOf(e, "input") || IsCallOf(e, "output") {
      if e.args != [] { ErasedAt(e.args, 0); }
    } else if IsCallOf(e, "continuation") {
      if |e.args| == 2 {
        ErasedAt(e.args, 0);
        ErasedAt(e.args, 1);
        ShapeErased(e.args[1]);
      }
    } else if IsCallOf(e, "zk_verify") {
      FoundInArgumentErased(s, e.args, Some(ProofType), C.ProofArity, C.ProofArgument);
    } else if IsCallOf(e, "multisig") {
      AllFoundErased(s, e.args);
      if |e.args| == 3 {
        ErasedAt(e.args, 0);
        ErasedAt(e.args, 1);
      }
    } else if C.IsHashCall(e) {
      FoundInArgumentErased(s, e.args, None, C.HashArity, C.HashArity);
    } else {
      FoundErased(s, e.callee);
      AllFoundErased(s, e.args);
    }
  }

  // ---- the parts of an expression ----

  lemma {:induction false} EraseAllConcat(a: seq<Expr>, b: seq<Expr>)
    ensures EraseAll(a + b) == EraseAll(a) + EraseAll(b)
  {
    if a == [] {
      assert a + b == b;
    } else {
      EraseAllConcat(a[1..], b);
      ConcatHead(a, b);
      ConcatAssociates([Erase(a[0])], EraseAll(a[1..]), EraseAll(b));
    }
  }

  lemma {:induction false} PartsErased(e: Expr)
    ensures Parts(Erase(e)) == EraseAll(Parts(e))
    decreases e, 1
  {
    InsideErased(e);
    EraseAllConcat([e], Inside(e));
    ErasedTail([e]);
  }

  lemma {:induction false} InsideErased(e: Expr)
    ensures Inside(Erase(e)) == EraseAll(Inside(e))
    decreases e, 0
  {
    match e
    case Array(elements, _) => AllPartsErased(elements);
    case Unary(_, operand, _) => PartsErased(operand);
    case Binary(left, _, right, _) =>
      PartsErased(left);
      PartsErased(right);
      EraseAllConcat(Parts(left), Parts(right));
    case Call(callee, args, _) =>
      PartsErased(callee);
      AllPartsErased(args);
      EraseAllConcat(Parts(callee), AllParts(args));
    case Field(target, _, _) => PartsErased(target);
    case _ =>
  }

  lemma {:induction false} AllPartsErased(es: seq<Expr>)
    ensures AllParts(EraseAll(es)) == EraseAll(AllParts(es))
    decreases es, 2
  {
    if es != [] {
      ErasedTail(es);
      PartsErased(es[0]);
      AllPartsErased(es[1..]);
      EraseAllConcat(Parts(es[0]), AllParts(es[1..]));
    }
  }

  lemma {:induction false} IndexesErased(name: string, parts: seq<Expr>)
    ensures Indexes(name, EraseAll(parts)) == Indexes(name, parts)
  {
    if parts != [] {
      var p := parts[0];
      ErasedTail(parts);
      ShapeErased(p);
      if p.Call? && p.args != [] { ErasedAt(p.args, 0); }
      IndexesErased(name, parts[1..]);
    }
  }

  lemma {:induction false} NamesErased(parts: seq<Expr>)
    ensures ContinuationNames(EraseAll(parts)) == ContinuationNames(parts)
  {
    if parts != [] {
      var p := parts[0];
      ErasedTail(parts);
      ShapeErased(p);
      if p.Call? && p.args != [] { ErasedAt(p.args, 0); }
      NamesErased(parts[1..]);
    }
  }

  lemma {:induction false} CountsErased(subject: Subject, e: Expr)
    ensures CountConstraint(Erase(e)) == CountConstraint(e)
    ensures Counts(subject, Erase(e)) == Counts(subject, e)
  {
    if e.Binary? {
      CountsErased(subject, e.left);
      CountsErased(subject, e.right);
    }
  }

  lemma {:induction false} AllCountsErased(subject: Subject, es: seq<Expr>)
    ensures AllCounts(subject, EraseAll(es)) == AllCounts(subject, es)
  {
    if es != [] {
      ErasedTail(es);
      CountsErased(subject, es[0]);
      AllCountsErased(subject, es[1..]);
    }
  }

  lemma {:induction false} FoundInCountsErased(inputs: Option<u64>, outputs: Option<u64>, e: Expr)
    ensures C.FoundInCounts(inputs, outputs, Erase(e)) == C.FoundInCounts(inputs, outputs, e)
    decreases e
  {
    CountsErased(CountOfInputs, e);
    if e.Binary? && e.op.And? {
      CountsErased(CountOfInputs, e.left);
      CountsErased(CountOfOutputs, e.left);
      FoundInCountsErased(inputs, outputs, e.left);
      FoundInCountsErased(C.FirstValue(inputs, Counts(CountOfInputs, e.left)),
                          C.FirstValue(outputs, Counts(CountOfOutputs, e.left)), e.right);
    }
  }

  // ---- statements and spends ----

  lemma {:induction false} ErasedBodyAt(body: seq<Stmt>, i: nat)
    requires i < |body|
    ensures |EraseBody(body)| == |body| && EraseBody(body)[i] == EraseStmt(body[i])
  {
    if i > 0 { ErasedBodyAt(body[1..], i - 1); } else { ErasedBodyLength(body); }
  }

  lemma {:induction false} ErasedBodyLength(body: seq<Stmt>)
    ensures |EraseBody(body)| == |body|
  {
    if body != [] { ErasedBodyLength(body[1..]); }
  }

  lemma ErasedBodyTail(body: seq<Stmt>)
    requires body != []
    ensures EraseBody(body) != [] && EraseBody(body)[0] == EraseStmt(body[0]) && EraseBody(body)[1..] == EraseBody(body[1..])
  {
  }

  lemma {:induction false} LowerBodyErased(body: seq<Stmt>)
    ensures LowerBody(EraseBody(body)) == LowerBody(body)
  {
    if body != [] {
      ErasedBodyTail(body);
      LowerErased(body[0].expr);
      LowerBodyErased(body[1..]);
    }
  }

  lemma {:induction false} RequirementsErased(body: seq<Stmt>)
    ensures Requirements(EraseBody(body)) == EraseAll(Requirements(body))
  {
    if body != [] {
      ErasedBodyTail(body);
      RequirementsErased(body[1..]);
      var head := if body[0].Require? then [body[0].expr] else [];
      EraseAllConcat(head, Requirements(body[1..]));
      if head != [] { ErasedTail(head); }
    }
  }

  lemma FactsErased(es: seq<Expr>)
    ensures C.InputFacts(EraseAll(es)) == C.InputFacts(es) && C.OutputFacts(EraseAll(es)) == C.OutputFacts(es)
    ensures ContinuationNames(AllParts(EraseAll(es))) == ContinuationNames(AllParts(es))
  {
    AllPartsErased(es);
    IndexesErased("input", AllParts(es));
    IndexesErased("output", AllParts(es));
    NamesErased(AllParts(es));
    AllCountsErased(CountOfInputs, es);
    AllCountsErased(CountOfOutputs, es);
  }

  lemma FoundInStmtErased(l: C.Locals, es: seq<Expr>, s: Stmt)
    ensures C.FoundInStmt(l, EraseAll(es), EraseStmt(s)) == C.FoundInStmt(l, es, s)
    ensures C.AfterStmt(l, EraseStmt(s)) == C.AfterStmt(l, s)
    ensures C.Further(EraseAll(es), EraseStmt(s)) == EraseAll(C.Further(es, s))
  {
    FoundErased(l.scope, s.expr);
    TypeErased(l.scope, s.expr);
    if s.Require? {
      FactsErased(es);
      FoundInCountsErased(C.InputFacts(es).exact, C.OutputFacts(es).exact, s.expr);
      PartsErased(s.expr);
      NamesErased(Parts(s.expr));
      EraseAllConcat(es, [s.expr]);
      ErasedTail([s.expr]);
    }
  }

  lemma {:induction false} FoundInBodyErased(l: C.Locals, es: seq<Expr>, body: seq<Stmt>)
    ensures C.FoundInBody(l, EraseAll(es), EraseBody(body)) == C.FoundInBody(l, es, body)
    decreases body
  {
    if body != [] {
      ErasedBodyTail(body);
      FoundInStmtErased(l, es, body[0]);
      FoundInBodyErased(C.AfterStmt(l, body[0]), C.Further(es, body[0]), body[1..]);
    }
  }

  lemma {:induction false} ErasedMember(es: seq<Expr>, e: Expr)
    requires e in es
    ensures Erase(e) in EraseAll(es)
  {
    if es[0] != e { ErasedMember(es[1..], e); }
  }

  lemma {:induction false} MemberErased(es: seq<Expr>, e: Expr) returns (original: Expr)
    requires e in EraseAll(es)
    ensures original in es && Erase(original) == e
  {
    if Erase(es[0]) == e { original := es[0]; } else { original := MemberErased(es[1..], e); }
  }

  lemma UsesErased(e: Expr, name: string)
    ensures C.UsesName(Erase(e), name) == C.UsesName(e, name)
  {
    PartsErased(e);
    if C.UsesName(e, name) {
      var p :| p in Parts(e) && ((p.Name? && p.ident.name == name) || (p.Field? && p.field.name == name));
      ErasedMember(Parts(e), p);
      assert Erase(p) in Parts(Erase(e));
    }
    if C.UsesName(Erase(e), name) {
      var p :| p in Parts(Erase(e)) && ((p.Name? && p.ident.name == name) || (p.Field? && p.field.name == name));
      var q := MemberErased(Parts(e), p);
    }
  }

  lemma {:induction false} SpendUsesErased(body: seq<Stmt>, name: string)
    ensures C.SpendUsesName(EraseBody(body), name) == C.SpendUsesName(body, name)
  {
    if body != [] {
      ErasedBodyTail(body);
      UsesErased(body[0].expr, name);
      SpendUsesErased(body[1..], name);
      var erased := EraseBody(body);
      assert body == [body[0]] + body[1..] && erased == [erased[0]] + erased[1..];
    }
  }

  lemma {:induction false} ParamsErased(outer: C.Scope, l: C.Locals, params: seq<Param>)
    ensures C.FoundInParams(outer, l, EraseParams(params)) == C.FoundInParams(outer, l, params)
    ensures C.AfterParams(l, EraseParams(params)) == C.AfterParams(l, params)
    decreases params
  {
    if params != [] {
      assert EraseParams(params)[1..] == EraseParams(params[1..]);
      ParamsErased(outer, l.Declare(params[0].name.name, Some(params[0].ty)), params[1..]);
    }
  }

  lemma FoundInSpendErased(contract: Contract, spend: Spend, outer: C.Scope)
    ensures C.FoundInSpend(EraseContract(contract), EraseSpend(spend), outer) == C.FoundInSpend(contract, spend, outer)
  {
    ParamsErased(outer, C.Locals(outer, {}), spend.params);
    FoundInBodyErased(C.AfterParams(C.Locals(outer, {}), spend.params), [], spend.body);
    RequirementsErased(spend.body);
    FactsErased(Requirements(spend.body));
    SpendUsesErased(spend.body, "covenant_id");
  }

  // ---- contracts and programs ----

  lemma {:induction false} ContractParamsErased(s: C.Scope, params: seq<Param>)
    ensures C.FoundInContractParams(s, EraseParams(params)) == C.FoundInContractParams(s, params)
    ensures C.ScopeOf(s, EraseParams(params)) == C.ScopeOf(s, params)
    decreases params
  {
    if params != [] {
      assert EraseParams(params)[1..] == EraseParams(params[1..]);
      ContractParamsErased(s.Insert(params[0].name.name, params[0].ty), params[1..]);
    }
  }

  lemma {:induction false} SpendNamesErased(spends: seq<Spend>)
    ensures C.SpendNames(EraseSpends(spends)) == C.SpendNames(spends)
  {
    if spends != [] {
      SpendNamesErased(spends[1..]);
      assert spends == [spends[0]] + spends[1..];
      assert C.SpendNames(spends) == {spends[0].name.name} + C.SpendNames(spends[1..]);
      var erased := EraseSpends(spends);
      assert erased == [EraseSpend(spends[0])] + EraseSpends(spends[1..]);
      assert C.SpendNames(erased) == {spends[0].name.name} + C.SpendNames(EraseSpends(spends[1..]));
    }
  }

  lemma {:induction false} FoundInEachErased(contract: Contract, outer: C.Scope, spends: seq<Spend>)
    ensures C.FoundInEach(EraseContract(contract), outer, EraseSpends(spends)) == C.FoundInEach(contract, outer, spends)
    ensures C.NamesOfSpends(EraseSpends(spends)) == C.NamesOfSpends(spends)
  {
    if spends != [] {
      assert EraseSpends(spends)[1..] == EraseSpends(spends[1..]);
      FoundInSpendErased(contract, spends[0], outer);
      FoundInEachErased(contract, outer, spends[1..]);
    }
  }

  lemma FoundInContractErased(contract: Contract)
    ensures C.FoundInContract(EraseContract(contract)) == C.FoundInContract(contract)
  {
    SpendNamesErased(contract.spends);
    ContractParamsErased(C.Scope(C.SpendNames(contract.spends), map[]), contract.params);
    FoundInEachErased(contract, C.OuterScope(contract), contract.spends);
  }

  lemma {:induction false} FoundInContractsErased(contracts: seq<Contract>)
    ensures C.FoundInContracts(EraseProgram(contracts)) == C.FoundInContracts(contracts)
    ensures C.NamesOfContracts(EraseProgram(contracts)) == C.NamesOfContracts(contracts)
  {
    if contracts != [] {
      assert EraseProgram(contracts)[1..] == EraseProgram(contracts[1..]);
      FoundInContractErased(contracts[0]);
      FoundInContractsErased(contracts[1..]);
    }
  }

  /** The checker reports the same of a program wherever its tokens stand. */
  lemma FoundInProgramErased(contracts: seq<Contract>)
    ensures C.FoundInProgram(EraseProgram(contracts)) == C.FoundInProgram(contracts)
  {
    FoundInContractsErased(contracts);
  }

  function EraseBodies(bodies: seq<seq<Stmt>>): seq<seq<Stmt>> {
    if bodies == [] then [] else [EraseBody(bodies[0])] + EraseBodies(bodies[1..])
  }

  lemma {:induction false} EraseBodiesConcat(a: seq<seq<Stmt>>, b: seq<seq<Stmt>>)
    ensures EraseBodies(a + b) == EraseBodies(a) + EraseBodies(b)
  {
    if a == [] {
      assert a + b == b;
    } else {
      EraseBodiesConcat(a[1..], b);
      ConcatHead(a, b);
      ConcatAssociates([EraseBody(a[0])], EraseBodies(a[1..]), EraseBodies(b));
    }
  }

  lemma {:induction false} BodiesOfErased(spends: seq<Spend>)
    ensures BodiesOf(EraseSpends(spends)) == EraseBodies(BodiesOf(spends))
  {
    if spends != [] {
      assert EraseSpends(spends)[1..] == EraseSpends(spends[1..]);
      BodiesOfErased(spends[1..]);
      assert BodiesOf(spends)[1..] == BodiesOf(spends[1..]);
    }
  }

  lemma {:induction false} BodiesErased(contracts: seq<Contract>)
    ensures Bodies(EraseProgram(contracts)) == EraseBodies(Bodies(contracts))
  {
    if contracts != [] {
      assert EraseProgram(contracts)[1..] == EraseProgram(contracts[1..]);
      BodiesOfErased(contracts[0].spends);
      BodiesErased(contracts[1..]);
      EraseBodiesConcat(BodiesOf(contracts[0].spends), Bodies(contracts[1..]));
    }
  }

  lemma {:induction false} LowerBodiesErased(bodies: seq<seq<Stmt>>)
    ensures LowerBodies(EraseBodies(bodies)) == LowerBodies(bodies)
  {
    if bodies != [] {
      assert EraseBodies(bodies)[1..] == EraseBodies(bodies[1..]);
      LowerBodyErased(bodies[0]);
      LowerBodiesErased(bodies[1..]);
    }
  }

  lemma KipErased(e: Expr)
    ensures KipOf(Erase(e)) == KipOf(e)
  {
  }

  lemma PartsUseErased(e: Expr, kip: nat)
    ensures PartsUse(Parts(Erase(e)), kip) <==> PartsUse(Parts(e), kip)
  {
    PartsErased(e);
    if PartsUse(Parts(e), kip) {
      var p :| p in Parts(e) && KipOf(p) == Some(kip);
      ErasedMember(Parts(e), p);
      KipErased(p);
      assert Erase(p) in Parts(Erase(e));
    }
    if PartsUse(Parts(Erase(e)), kip) {
      var p :| p in Parts(Erase(e)) && KipOf(p) == Some(kip);
      var q := MemberErased(Parts(e), p);
      KipErased(q);
    }
  }

  lemma {:induction false} BodyUsesErased(body: seq<Stmt>, kip: nat)
    ensures BodyUses(EraseBody(body), kip) <==> BodyUses(body, kip)
  {
    if body != [] {
      ErasedBodyTail(body);
      PartsUseErased(body[0].expr, kip);
      BodyUsesErased(body[1..], kip);
    }
  }

  lemma {:induction false} KipsErased(bodies: seq<seq<Stmt>>, kip: nat)
    ensures Uses(EraseBodies(bodies), kip) <==> Uses(bodies, kip)
  {
    if bodies != [] {
      assert EraseBodies(bodies)[1..] == EraseBodies(bodies[1..]);
      BodyUsesErased(bodies[0], kip);
      KipsErased(bodies[1..], kip);
    }
  }

  lemma GeneratedErased(contracts: seq<Contract>, target: Gates.Target)
    ensures Generated(EraseProgram(contracts), target) ==
            match Generated(contracts, target)
            case Success(out) => Success(out.(contracts := EraseProgram(contracts)))
            case Failure(error) => Failure(error)
  {
    var bodies := Bodies(contracts);
    BodiesErased(contracts);
    LowerBodiesErased(bodies);
    KipsErased(bodies, 10);
    KipsErased(bodies, 15);
    KipsErased(bodies, 16);
    KipsErased(bodies, 20);
  }

  /** The outcome of compiling without the contracts' source positions. */
  function Placeless(r: Result<Output, CompileFailure>): Result<Output, CompileFailure> {
    match r
    case Success(out) => Success(out.(contracts := EraseProgram(out.contracts)))
    case Failure(error) => r
  }

  /** Two files that parse alike compile alike: the same problems, or the same code and artifact. */
  lemma AlikeCompileAlike(t: seq<Token>, t1: seq<Token>, target: Gates.Target)
    requires ParsedFile(t).Success? && ParsedFile(t1).Success? && ProgramAlike(ParsedFile(t).value, ParsedFile(t1).value)
    ensures Placeless(Compiling(t, target)) == Placeless(Compiling(t1, target))
  {
    CompileErased(ParsedFile(t).value, target);
    CompileErased(ParsedFile(t1).value, target);
  }

  /** Checking and generating, from parsed contracts on. */
  function FromParsed(contracts: seq<Contract>, target: Gates.Target): Result<Output, CompileFailure> {
    var checked :- CheckedFile(Success(contracts));
    Generated(checked, target)
  }

  lemma CompileErased(contracts: seq<Contract>, target: Gates.Target)
    ensures Placeless(FromParsed(contracts, target)) == FromParsed(EraseProgram(contracts), target)
  {
    FoundInProgramErased(contracts);
    GeneratedErased(contracts, target);
  }
}
