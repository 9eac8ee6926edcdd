/** The semantic checks of a spend (compiler/semantic/src/checker.rs). */
module Checker {
  import opened Wrappers
  import opened ScriptNumbers
  import opened Syntax
  import opened Traversal

  /** Names of the contract's spends, and the types of the names in scope. */
  datatype Scope = Scope(spends: set<string>, types: map<string, TypeName>)
  {
    function Insert(name: string, ty: TypeName): Scope { Scope(spends, types[name := ty]) }
  }

  // ---- types ----

  const BOOL_NAMES := {"input", "output", "multisig", "zk_verify", "sha256", "blake2b", "hash160"}

  function BuiltinType(name: string): Option<TypeName> {
    if name == "block" then Some(HeightType)
    else if name == "covenant_id" then Some(CovenantIdType)
    else if name == "sequencing" then Some(HashType)
    else if name == "input_count" || name == "output_count" then Some(AmountType)
    else if name in BOOL_NAMES then Some(BoolType)
    else None
  }

  function TypeOfName(s: Scope, name: string): Option<TypeName> {
    if name in s.spends then None
    else if BuiltinType(name).Some? then BuiltinType(name)
    else if name in s.types then Some(s.types[name])
    else None
  }

  predicate IsVerifyCall(e: Expr) { e.Call? && e.callee.Field? && e.callee.field.name == "verify" }

  predicate IsHashCall(e: Expr) { IsCallOf(e, "sha256") || IsCallOf(e, "blake2b") || IsCallOf(e, "hash160") }

  /** A field of a built-in that is typed without looking at the built-in itself. */
  predicate IsBuiltinField(e: Expr)
    requires e.Field?
  {
    e.target.Name?
    && var root := e.target.ident.name;
       root == "block" || (root == "covenant_id" && e.field.name == "depth") || root == "sequencing"
  }

  /** The type the checker gives an expression, when it gives one. */
  function TypeOf(s: Scope, e: Expr): Option<TypeName> {
    match e
    case Name(ident) => TypeOfName(s, ident.name)
    case Integer(_, _) => Some(AmountType)
    case Text(_, _) => Some(BytesType)
    case Truth(_, _) => Some(BoolType)
    case Array(_, _) => Some(BytesType)
    case Unary(_, _, _) => Some(BoolType)
    case Binary(_, op, _, _) => if op.Add? || op.Sub? || op.Mul? || op.Div? || op.Mod? then Some(AmountType) else Some(BoolType)
    case Call(_, _, _) =>
      if IsVerifyCall(e) then Some(BoolType)
      else if IsCallOf(e, "input") then Some(InputType)
      else if IsCallOf(e, "output") then Some(OutputType)
      else if IsHashCall(e) then Some(HashType)
      else Some(BoolType)
    case Field(target, field, _) =>
      if IsBuiltinField(e) then
        if target.ident.name == "block" && field.name != "height" && field.name != "time" then None else Some(HeightType)
      else FieldType(TypeOf(s, target), field.name)
  }

  function FieldType(target: Option<TypeName>, field: string): Option<TypeName> {
    if target == Some(InputType) || target == Some(OutputType) then
      if field == "value" then Some(AmountType)
      else if field == "script" then Some(BytesType)
      else if field == "covenant_id" then Some(CovenantIdType)
      else None
    else target
  }

  // ---- what the checker demands of an expression ----

  predicate IsLabelChar(c: char) { c == '_' || c == '-' || 'a' <= c <= 'z' || 'A' <= c <= 'Z' || '0' <= c <= '9' }

  predicate IsContinuationLabel(text: string) {
    text != "" && (text[0] == '_' || 'a' <= text[0] <= 'z' || 'A' <= text[0] <= 'Z')
    && forall i :: 1 <= i < |text| ==> IsLabelChar(text[i])
  }

  predicate IndexCallOk(args: seq<Expr>) { |args| == 1 && args[0].Integer? && args[0].value <= U32_MAX }

  predicate ContinuationOk(args: seq<Expr>) {
    |args| == 2 && args[0].Text? && IsContinuationLabel(args[0].text) && IsOutputCall(args[1])
  }

  predicate MultisigShapeOk(args: seq<Expr>) {
    |args| == 3 && args[0].Integer? && (args[1].Array? ==> args[0].value <= |args[1].elements|)
  }

  predicate WellTyped(s: Scope, e: Expr)
    decreases e, 1
  {
    match e
    case Name(ident) => TypeOfName(s, ident.name).Some?
    case Array(elements, _) => AllWellTyped(s, elements)
    case Unary(uop, operand, _) => WellTyped(s, operand) && (uop.Not? ==> TypeOf(s, operand) == Some(BoolType))
    case Binary(left, op, right, _) =>
      WellTyped(s, left) && WellTyped(s, right)
      && (op.And? || op.Or? ==> TypeOf(s, left) == Some(BoolType) && TypeOf(s, right) == Some(BoolType))
    case Call(_, _, _) => CallWellTyped(s, e)
    case Field(target, field, _) =>
      if IsBuiltinField(e) then TypeOf(s, e).Some?
      else WellTyped(s, target) && !(TypeOf(s, target) in [Some(InputType), Some(OutputType)] && TypeOf(s, e).None?)
    case _ => true
  }

  predicate CallWellTyped(s: Scope, e: Expr)
    requires e.Call?
    decreases e, 0
  {
    if IsVerifyCall(e) then
      WellTyped(s, e.callee.target) && TypeOf(s, e.callee.target) == Some(SignatureType)
      && OneArgument(s, e.args) && TypeOf(s, e.args[0]) == Some(KeyType)
    else if IsCallOf(e, "input") || IsCallOf(e, "output") then IndexCallOk(e.args)
    else if IsCallOf(e, "continuation") then ContinuationOk(e.args)
    else if IsCallOf(e, "zk_verify") then OneArgument(s, e.args) && TypeOf(s, e.args[0]) == Some(ProofType)
    else if IsCallOf(e, "multisig") then MultisigShapeOk(e.args) && AllWellTyped(s, e.args)
    else if IsHashCall(e) then OneArgument(s, e.args)
    else WellTyped(s, e.callee) && AllWellTyped(s, e.args)
  }

  predicate OneArgument(s: Scope, args: seq<Expr>)
    decreases args, 2
  {
    |args| == 1 && WellTyped(s, args[0])
  }

  predicate AllWellTyped(s: Scope, es: seq<Expr>)
    decreases es, 2
  {
    es == [] || (WellTyped(s, es[0]) && AllWellTyped(s, es[1..]))
  }

  // ---- count facts ----

  /** The first value wins. */
  function FirstValue(exact: Option<u64>, values: seq<u64>): Option<u64> {
    if exact.Some? then exact else if values == [] then None else Some(values[0])
  }

  /** Every value fits 32 bits and repeats the first. */
  predicate ValuesAgree(exact: Option<u64>, values: seq<u64>) {
    forall v :: v in values ==> v <= U32_MAX && Some(v) == FirstValue(exact, values)
  }

  lemma ValuesConcat(exact: Option<u64>, a: seq<u64>, b: seq<u64>)
    ensures FirstValue(exact, a + b) == FirstValue(FirstValue(exact, a), b)
    ensures ValuesAgree(exact, a + b) <==> ValuesAgree(exact, a) && ValuesAgree(FirstValue(exact, a), b)
  {
    if ValuesAgree(exact, a + b) {
      assert forall v :: v in a || v in b ==> v in a + b;
    }
  }

  lemma OneValue(exact: Option<u64>, v: u64)
    ensures ValuesAgree(exact, [v]) <==> v <= U32_MAX && (exact.Some? ==> exact.value == v)
    ensures ValuesAgree(exact, [])
  {
    assert v in [v];
  }

  /** The largest value. */
  function Largest(largest: Option<u64>, values: seq<u64>): Option<u64>
    decreases values
  {
    if values == [] then largest
    else Largest(if largest.Some? && largest.value >= values[0] then largest else Some(values[0]), values[1..])
  }

  lemma {:induction false} LargestConcat(largest: Option<u64>, a: seq<u64>, b: seq<u64>)
    ensures Largest(largest, a + b) == Largest(Largest(largest, a), b)
    decreases a
  {
    if a == [] {
      assert a + b == b;
    } else {
      LargestConcat(if largest.Some? && largest.value >= a[0] then largest else Some(a[0]), a[1..], b);
      assert (a + b)[1..] == a[1..] + b;
    }
  }

  lemma {:induction false} LargestBounds(largest: Option<u64>, values: seq<u64>)
    ensures largest.Some? ==> Largest(largest, values).Some? && Largest(largest, values).value >= largest.value
    ensures forall v :: v in values ==> Largest(largest, values).Some? && v <= Largest(largest, values).value
    decreases values
  {
    if values != [] {
      assert values == [values[0]] + values[1..];
      LargestBounds(if largest.Some? && largest.value >= values[0] then largest else Some(values[0]), values[1..]);
    }
  }

  datatype CountFacts = CountFacts(exact: Option<u64>, maxIndex: Option<u64>)
  {
    /** A fixed count exceeds every referenced index. */
    predicate Consistent() { exact.Some? && maxIndex.Some? ==> exact.value > maxIndex.value }

    function With(values: seq<u64>, indexes: seq<u64>): CountFacts {
      CountFacts(FirstValue(exact, values), Largest(maxIndex, indexes))
    }
  }

  /** What a spend's requirements say about the shape of its transaction. */
  class ShapeFacts {
    var inputs: CountFacts
    var outputs: CountFacts

    constructor ()
      ensures inputs == CountFacts(None, None) && outputs == CountFacts(None, None)
    {
      inputs, outputs := CountFacts(None, None), CountFacts(None, None);
    }
  }

  class NameSet {
    var names: set<string>

    constructor ()
      ensures names == {}
    {
      names := {};
    }
  }

  // ---- continuation names ----

  predicate NoRepeats(seen: set<string>, names: seq<string>)
    decreases names
  {
    names == [] || (names[0] !in seen && NoRepeats(seen + {names[0]}, names[1..]))
  }

  // ---- the problems the checker reports, in order ----

  datatype Problem =
    | SpendReferenced
    | Undefined
    | NotNeedsBool
    | LogicNeedsBool
    | VerifyReceiver
    | VerifyArity
    | VerifyArgument
    | IndexArity
    | IndexTooLarge
    | IndexNotLiteral
    | ContinuationArity
    | ContinuationNotText
    | ContinuationLabel
    | ContinuationOutput
    | ProofArity
    | ProofArgument
    | MultisigArity
    | MultisigThreshold
    | MultisigTooMany
    | HashArity
    | BlockField
    | UnknownField
    | RequireNeedsBool
    | RepeatedContinuation
    | CountTooLarge
    | CountConflict
    | CountBelowIndex
    | ShadowedParam
    | RepeatedParam
    | RepeatedLet
    | NoRequire
    | NeedsFinalityDepth
    | ZeroFinalityDepth
    | RepeatedContractParam
    | RepeatedSpend
    | RepeatedContract

  function When(bad: bool, p: Problem): seq<Problem> { if bad then [p] else [] }

  /** The problems found in an expression. */
  function Found(s: Scope, e: Expr): seq<Problem>
    decreases e, 1
  {
    match e
    case Name(ident) =>
      if ident.name in s.spends then [SpendReferenced] else When(TypeOfName(s, ident.name).None?, Undefined)
    case Array(elements, _) => AllFound(s, elements)
    case Unary(uop, operand, _) => Found(s, operand) + When(uop.Not? && TypeOf(s, operand) != Some(BoolType), NotNeedsBool)
    case Binary(left, op, right, _) =>
      Found(s, left) + Found(s, right)
      + When((op.And? || op.Or?) && !(TypeOf(s, left) == Some(BoolType) && TypeOf(s, right) == Some(BoolType)), LogicNeedsBool)
    case Call(_, _, _) => FoundInCall(s, e)
    case Field(target, field, _) =>
      if IsBuiltinField(e) then When(TypeOf(s, e).None?, BlockField)
      else Found(s, target) + When(TypeOf(s, target) in [Some(InputType), Some(OutputType)] && TypeOf(s, e).None?, UnknownField)
    case _ => []
  }

  function FoundInCall(s: Scope, e: Expr): seq<Problem>
    requires e.Call?
    decreases e, 0
  {
    if IsVerifyCall(e) then
      Found(s, e.callee.target) + When(TypeOf(s, e.callee.target) != Some(SignatureType), VerifyReceiver)
      + FoundInArgument(s, e.args, Some(KeyType), VerifyArity, VerifyArgument)
    else if IsCallOf(e, "input") || IsCallOf(e, "output") then FoundInIndex(e.args)
    else if IsCallOf(e, "continuation") then FoundInContinuation(e.args)
    else if IsCallOf(e, "zk_verify") then FoundInArgument(s, e.args, Some(ProofType), ProofArity, ProofArgument)
    else if IsCallOf(e, "multisig") then FoundInMultisig(s, e.args)
    else if IsHashCall(e) then FoundInArgument(s, e.args, None, HashArity, HashArity)
    else Found(s, e.callee) + AllFound(s, e.args)
  }

  /** A single argument, of a given type when one is wanted. */
  function FoundInArgument(s: Scope, args: seq<Expr>, wanted: Option<TypeName>, arity: Problem, argument: Problem): seq<Problem>
    decreases args, 2
  {
    if |args| != 1 then [arity]
    else Found(s, args[0]) + When(wanted.Some? && TypeOf(s, args[0]) != wanted, argument)
  }

  function FoundInIndex(args: seq<Expr>): seq<Problem> {
    if |args| != 1 then [IndexArity]
    else if !args[0].Integer? then [IndexNotLiteral]
    else When(args[0].value > U32_MAX, IndexTooLarge)
  }

  function FoundInContinuation(args: seq<Expr>): seq<Problem> {
    if |args| != 2 then [ContinuationArity]
    else
      (if args[0].Text? then When(!IsContinuationLabel(args[0].text), ContinuationLabel) else [ContinuationNotText])
      + When(!IsOutputCall(args[1]), ContinuationOutput)
  }

  function FoundInMultisig(s: Scope, args: seq<Expr>): seq<Problem>
    decreases args, 3
  {
    if |args| != 3 then [MultisigArity]
    else FoundInThreshold(args[0], args[1]) + AllFound(s, args)
  }

  function FoundInThreshold(k: Expr, keys: Expr): seq<Problem> {
    if !k.Integer? then [MultisigThreshold] else When(keys.Array? && k.value > |keys.elements|, MultisigTooMany)
  }

  function AllFound(s: Scope, es: seq<Expr>): seq<Problem>
    decreases es, 2
  {
    if es == [] then [] else Found(s, es[0]) + AllFound(s, es[1..])
  }

  lemma {:induction false} AllFoundLast(s: Scope, es: seq<Expr>, last: Expr)
    ensures AllFound(s, es + [last]) == AllFound(s, es) + Found(s, last)
  {
    if es == [] {
      assert [] + [last] == [last] && [last][1..] == [];
      ConcatAssociates([], Found(s, last), []);
    } else {
      AllFoundLast(s, es[1..], last);
      ConcatHead(es, [last]);
      ConcatAssociates(Found(s, es[0]), AllFound(s, es[1..]), Found(s, last));
    }
  }

  /** Nothing is found in an expression if and only if it is well typed. */
  lemma {:induction false} NothingFound(s: Scope, e: Expr)
    ensures Found(s, e) == [] <==> WellTyped(s, e)
    decreases e, 1
  {
    match e
    case Array(elements, _) => NothingFoundInAll(s, elements);
    case Unary(_, operand, _) => NothingFound(s, operand);
    case Binary(left, _, right, _) =>
      NothingFound(s, left);
      NothingFound(s, right);
    case Call(_, _, _) => NothingFoundInCall(s, e);
    case Field(target, _, _) => if !IsBuiltinField(e) { NothingFound(s, target); }
    case _ =>
  }

  lemma {:induction false} NothingFoundInCall(s: Scope, e: Expr)
    requires e.Call?
    ensures FoundInCall(s, e) == [] <==> CallWellTyped(s, e)
    decreases e, 0
  {
    if IsVerifyCall(e) {
      NothingFound(s, e.callee.target);
      if |e.args| == 1 { NothingFound(s, e.args[0]); }
    } else if IsCallOf(e, "input") || IsCallOf(e, "output") || IsCallOf(e, "continuation") {
    } else if IsCallOf(e, "zk_verify") || IsHashCall(e) {
      if |e.args| == 1 { NothingFound(s, e.args[0]); }
    } else if IsCallOf(e, "multisig") {
      NothingFoundInAll(s, e.args);
    } else {
      NothingFound(s, e.callee);
      NothingFoundInAll(s, e.args);
    }
  }

  lemma {:induction false} NothingFoundInAll(s: Scope, es: seq<Expr>)
    ensures AllFound(s, es) == [] <==> AllWellTyped(s, es)
    decreases es, 2
  {
    if es != [] {
      NothingFound(s, es[0]);
      NothingFoundInAll(s, es[1..]);
    }
  }

  /** The problems with exact counts in a conjunction, after counts fixed before. */
  function FoundInCounts(inputs: Option<u64>, outputs: Option<u64>, e: Expr): seq<Problem>
    decreases e
  {
    if e.Binary? && e.op.And? then
      FoundInCounts(inputs, outputs, e.left)
      + FoundInCounts(FirstValue(inputs, Counts(CountOfInputs, e.left)), FirstValue(outputs, Counts(CountOfOutputs, e.left)), e.right)
    else if CountConstraint(e).None? then []
    else
      var (subject, value) := CountConstraint(e).value;
      var existing := if subject.CountOfInputs? then inputs else outputs;
      When(value > U32_MAX, CountTooLarge) + When(existing.Some? && existing.value != value, CountConflict)
  }

  lemma {:induction false} NothingFoundInCounts(inputs: Option<u64>, outputs: Option<u64>, e: Expr)
    ensures FoundInCounts(inputs, outputs, e) == [] <==>
            ValuesAgree(inputs, Counts(CountOfInputs, e)) && ValuesAgree(outputs, Counts(CountOfOutputs, e))
    decreases e
  {
    if e.Binary? && e.op.And? {
      NothingFoundInCounts(inputs, outputs, e.left);
      NothingFoundInCounts(FirstValue(inputs, Counts(CountOfInputs, e.left)),
                           FirstValue(outputs, Counts(CountOfOutputs, e.left)), e.right);
      ValuesConcat(inputs, Counts(CountOfInputs, e.left), Counts(CountOfInputs, e.right));
      ValuesConcat(outputs, Counts(CountOfOutputs, e.left), Counts(CountOfOutputs, e.right));
    } else if CountConstraint(e).Some? {
      OneValue(inputs, CountConstraint(e).value.1);
      OneValue(outputs, CountConstraint(e).value.1);
    }
  }

  /** One problem for each name already seen. */
  function FoundInNames(seen: set<string>, names: seq<string>): seq<Problem>
    decreases names
  {
    if names == [] then [] else When(names[0] in seen, RepeatedContinuation) + FoundInNames(seen + {names[0]}, names[1..])
  }

  lemma {:induction false} FoundInNamesConcat(seen: set<string>, a: seq<string>, b: seq<string>)
    ensures FoundInNames(seen, a + b) == FoundInNames(seen, a) + FoundInNames(seen + (set n | n in a), b)
    decreases a
  {
    if a == [] {
      assert a + b == b && seen + (set n | n in a) == seen;
    } else {
      var later := seen + {a[0]};
      FoundInNamesConcat(later, a[1..], b);
      ConcatHead(a, b);
      assert later + (set n | n in a[1..]) == seen + (set n | n in a);
      ConcatAssociates(When(a[0] in seen, RepeatedContinuation), FoundInNames(later, a[1..]),
                       FoundInNames(later + (set n | n in a[1..]), b));
    }
  }

  lemma {:induction false} NothingFoundInNames(seen: set<string>, names: seq<string>)
    ensures FoundInNames(seen, names) == [] <==> NoRepeats(seen, names)
    decreases names
  {
    if names != [] { NothingFoundInNames(seen + {names[0]}, names[1..]); }
  }

  lemma OneName(seen: set<string>, e: Expr)
    ensures var names := ContinuationNames([e]);
            names == (if ContinuationName(e).Some? then [ContinuationName(e).value] else [])
            && FoundInNames(seen, names) == When(ContinuationName(e).Some? && ContinuationName(e).value in seen, RepeatedContinuation)
            && seen + (set n | n in names) == if ContinuationName(e).Some? then seen + {ContinuationName(e).value} else seen
  {
    assert [e][1..] == [];
    var names := ContinuationNames([e]);
    if ContinuationName(e).Some? {
      assert names == [ContinuationName(e).value] + ContinuationNames([]);
      assert names[1..] == [];
    }
  }

  // ---- what the checker demands of a spend ----

  /** Types of the names in scope and names declared by the spend itself, as far as it is read. */
  datatype Locals = Locals(scope: Scope, names: set<string>)
  {
    function Declare(name: string, ty: Option<TypeName>): Locals {
      Locals(if ty.Some? then scope.Insert(name, ty.value) else scope, names + {name})
    }
  }

  function AfterParams(l: Locals, params: seq<Param>): Locals
    decreases params
  {
    if params == [] then l else AfterParams(l.Declare(params[0].name.name, Some(params[0].ty)), params[1..])
  }

  /** Parameters shadow no contract parameter and do not repeat. */
  predicate ParamsOk(outer: Scope, l: Locals, params: seq<Param>)
    decreases params
  {
    params == []
    || (params[0].name.name !in outer.types && params[0].name.name !in l.names
        && ParamsOk(outer, l.Declare(params[0].name.name, Some(params[0].ty)), params[1..]))
  }

  predicate FreshName(l: Locals, name: string) { name !in l.names && name !in l.scope.types }

  function AfterStmt(l: Locals, s: Stmt): Locals {
    if !s.Let? then l
    else if FreshName(l, s.name.name) then l.Declare(s.name.name, TypeOf(l.scope, s.expr))
    else l.(names := l.names + {s.name.name})
  }

  predicate StmtOk(l: Locals, s: Stmt) {
    WellTyped(l.scope, s.expr)
    && (s.Let? ==> FreshName(l, s.name.name))
    && (s.Require? ==> TypeOf(l.scope, s.expr) == Some(BoolType))
  }

  predicate BodyOk(l: Locals, body: seq<Stmt>)
    decreases body
  {
    body == [] || (StmtOk(l, body[0]) && BodyOk(AfterStmt(l, body[0]), body[1..]))
  }

  predicate UsesName(e: Expr, name: string) {
    exists p :: p in Parts(e) && ((p.Name? && p.ident.name == name) || (p.Field? && p.field.name == name))
  }

  predicate SpendUsesName(body: seq<Stmt>, name: string) {
    exists s :: s in body && UsesName(s.expr, name)
  }

  predicate CountsOk(requirements: seq<Expr>) {
    ValuesAgree(None, AllCounts(CountOfInputs, requirements)) && ValuesAgree(None, AllCounts(CountOfOutputs, requirements))
  }

  function InputFacts(requirements: seq<Expr>): CountFacts {
    CountFacts(None, None).With(AllCounts(CountOfInputs, requirements), Indexes("input", AllParts(requirements)))
  }

  function OutputFacts(requirements: seq<Expr>): CountFacts {
    CountFacts(None, None).With(AllCounts(CountOfOutputs, requirements), Indexes("output", AllParts(requirements)))
  }

  /** The facts gathered from all requirements are free of contradictions. */
  predicate ShapeOk(requirements: seq<Expr>) {
    CountsOk(requirements) && NoRepeats({}, ContinuationNames(AllParts(requirements)))
    && InputFacts(requirements).Consistent() && OutputFacts(requirements).Consistent()
  }

  predicate SpendOk(contract: Contract, spend: Spend, outer: Scope) {
    ParamsOk(outer, Locals(outer, {}), spend.params)
    && BodyOk(AfterParams(Locals(outer, {}), spend.params), spend.body)
    && Requirements(spend.body) != []
    && (SpendUsesName(spend.body, "covenant_id") ==> contract.finalityDepth.Depth? && contract.finalityDepth.blocks > 0)
    && ShapeOk(Requirements(spend.body))
  }

  lemma FactsOfOneMore(es: seq<Expr>, e: Expr)
    ensures InputFacts(es + [e]) == InputFacts(es).With(Counts(CountOfInputs, e), Indexes("input", Parts(e)))
    ensures OutputFacts(es + [e]) == OutputFacts(es).With(Counts(CountOfOutputs, e), Indexes("output", Parts(e)))
    ensures CountsOk(es + [e]) <==> CountsOk(es) && ValuesAgree(InputFacts(es).exact, Counts(CountOfInputs, e))
                                    && ValuesAgree(OutputFacts(es).exact, Counts(CountOfOutputs, e))
  {
    AllPartsLast(es, e);
    AllCountsLast(CountOfInputs, es, e);
    AllCountsLast(CountOfOutputs, es, e);
    IndexesConcat("input", AllParts(es), Parts(e));
    IndexesConcat("output", AllParts(es), Parts(e));
    LargestConcat(None, Indexes("input", AllParts(es)), Indexes("input", Parts(e)));
    LargestConcat(None, Indexes("output", AllParts(es)), Indexes("output", Parts(e)));
    ValuesConcat(None, AllCounts(CountOfInputs, es), Counts(CountOfInputs, e));
    ValuesConcat(None, AllCounts(CountOfOutputs, es), Counts(CountOfOutputs, e));
  }

  lemma NamesOfOneMore(es: seq<Expr>, e: Expr)
    ensures var names, more := ContinuationNames(AllParts(es)), ContinuationNames(Parts(e));
            ContinuationNames(AllParts(es + [e])) == names + more
            && FoundInNames({}, names + more) == FoundInNames({}, names) + FoundInNames((set n | n in names), more)
  {
    AllPartsLast(es, e);
    ContinuationNamesConcat(AllParts(es), Parts(e));
    FoundInNamesConcat({}, ContinuationNames(AllParts(es)), ContinuationNames(Parts(e)));
    assert {} + (set n | n in ContinuationNames(AllParts(es))) == set n | n in ContinuationNames(AllParts(es));
  }

  lemma {:induction false} AfterParamsKeepsSpends(l: Locals, params: seq<Param>)
    ensures AfterParams(l, params).scope.spends == l.scope.spends
    decreases params
  {
    if params != [] {
      AfterParamsKeepsSpends(l.Declare(params[0].name.name, Some(params[0].ty)), params[1..]);
    }
  }

  // ---- the problems of a spend ----

  function FoundInParams(outer: Scope, l: Locals, params: seq<Param>): seq<Problem>
    decreases params
  {
    if params == [] then []
    else
      var name := params[0].name.name;
      When(name in outer.types, ShadowedParam) + When(name in l.names, RepeatedParam)
      + FoundInParams(outer, l.Declare(name, Some(params[0].ty)), params[1..])
  }

  /** The problems of the counts and names in a requirement that comes after the requirements `es`. */
  function FoundInFacts(es: seq<Expr>, e: Expr): seq<Problem> {
    FoundInCounts(InputFacts(es).exact, OutputFacts(es).exact, e)
    + FoundInNames((set n | n in ContinuationNames(AllParts(es))), ContinuationNames(Parts(e)))
  }

  function FoundInRequirement(ty: Option<TypeName>, es: seq<Expr>, e: Expr): seq<Problem> {
    When(ty != Some(BoolType), RequireNeedsBool) + FoundInFacts(es, e)
  }

  /** The problems of a statement that comes after the requirements `es`. */
  function FoundInStmt(l: Locals, es: seq<Expr>, s: Stmt): seq<Problem> {
    Found(l.scope, s.expr)
    + if s.Let? then When(!FreshName(l, s.name.name), RepeatedLet)
      else if s.Require? then FoundInRequirement(TypeOf(l.scope, s.expr), es, s.expr)
      else []
  }

  function Further(es: seq<Expr>, s: Stmt): seq<Expr> { if s.Require? then es + [s.expr] else es }

  function FoundInBody(l: Locals, es: seq<Expr>, body: seq<Stmt>): seq<Problem>
    decreases body
  {
    if body == [] then []
    else FoundInStmt(l, es, body[0]) + FoundInBody(AfterStmt(l, body[0]), Further(es, body[0]), body[1..])
  }

  /** Everything the checker reports of a spend, in order. */
  function FoundInSpend(contract: Contract, spend: Spend, outer: Scope): seq<Problem> {
    var requirements := Requirements(spend.body);
    FoundInParams(outer, Locals(outer, {}), spend.params)
    + (FoundInBody(AfterParams(Locals(outer, {}), spend.params), [], spend.body)
       + (When(requirements == [], NoRequire)
          + (When(SpendUsesName(spend.body, "covenant_id") && !(contract.finalityDepth.Depth? && contract.finalityDepth.blocks > 0),
                  NeedsFinalityDepth)
             + (When(!InputFacts(requirements).Consistent(), CountBelowIndex)
                + When(!OutputFacts(requirements).Consistent(), CountBelowIndex)))))
  }

  lemma {:induction false} NothingFoundInParams(outer: Scope, l: Locals, params: seq<Param>)
    ensures FoundInParams(outer, l, params) == [] <==> ParamsOk(outer, l, params)
    decreases params
  {
    if params != [] {
      NothingFoundInParams(outer, l.Declare(params[0].name.name, Some(params[0].ty)), params[1..]);
    }
  }

  ghost predicate Collects(es: seq<Expr>) { CountsOk(es) && NoRepeats({}, ContinuationNames(AllParts(es))) }

  lemma NothingFoundInStmt(l: Locals, es: seq<Expr>, s: Stmt)
    ensures FoundInStmt(l, es, s) == [] && Collects(es) <==> StmtOk(l, s) && Collects(Further(es, s))
  {
    NothingFound(l.scope, s.expr);
    if s.Require? {
      FactsOfOneMore(es, s.expr);
      NamesOfOneMore(es, s.expr);
      NothingFoundInCounts(InputFacts(es).exact, OutputFacts(es).exact, s.expr);
      var names, more := ContinuationNames(AllParts(es)), ContinuationNames(Parts(s.expr));
      NothingFoundInNames({}, names + more);
      NothingFoundInNames({}, names);
      NothingFoundInNames((set n | n in names), more);
    }
  }

  lemma {:induction false} NothingFoundInBody(l: Locals, es: seq<Expr>, body: seq<Stmt>)
    ensures FoundInBody(l, es, body) == [] && Collects(es) <==> BodyOk(l, body) && Collects(es + Requirements(body))
    decreases body
  {
    if body == [] {
      assert es + [] == es;
    } else {
      NothingFoundInStmt(l, es, body[0]);
      NothingFoundInBody(AfterStmt(l, body[0]), Further(es, body[0]), body[1..]);
      var head := if body[0].Require? then [body[0].expr] else [];
      ConcatAssociates(es, head, Requirements(body[1..]));
    }
  }

  /** The checker reports nothing of a spend if and only if the spend is as it should be. */
  lemma NothingFoundInSpend(contract: Contract, spend: Spend, outer: Scope)
    ensures FoundInSpend(contract, spend, outer) == [] <==> SpendOk(contract, spend, outer)
  {
    NothingFoundInParams(outer, Locals(outer, {}), spend.params);
    NothingFoundInBody(AfterParams(Locals(outer, {}), spend.params), [], spend.body);
    assert [] + Requirements(spend.body) == Requirements(spend.body) && AllParts([]) == [];
  }

  // ---- the problems of a contract and of a program ----

  function SpendNames(spends: seq<Spend>): set<string> { set s | s in spends :: s.name.name }

  function ScopeOf(s: Scope, params: seq<Param>): Scope
    decreases params
  {
    if params == [] then s else ScopeOf(s.Insert(params[0].name.name, params[0].ty), params[1..])
  }

  function FoundInContractParams(s: Scope, params: seq<Param>): seq<Problem>
    decreases params
  {
    if params == [] then []
    else
      When(params[0].name.name in s.types, RepeatedContractParam)
      + FoundInContractParams(s.Insert(params[0].name.name, params[0].ty), params[1..])
  }

  /** What is found in named items in order, and a problem for each name already seen. */
  function FoundInNamed(seen: set<string>, names: seq<string>, found: seq<seq<Problem>>, repeated: Problem): seq<Problem>
    requires |names| == |found|
    decreases names
  {
    if names == [] then []
    else When(names[0] in seen, repeated) + found[0] + FoundInNamed(seen + {names[0]}, names[1..], found[1..], repeated)
  }

  /** What is found in each spend. */
  function FoundInEach(contract: Contract, outer: Scope, spends: seq<Spend>): (found: seq<seq<Problem>>)
    ensures |found| == |spends|
    ensures forall i :: 0 <= i < |spends| ==> found[i] == FoundInSpend(contract, spends[i], outer)
  {
    seq(|spends|, i requires 0 <= i < |spends| => FoundInSpend(contract, spends[i], outer))
  }

  /** The scope in which the spends of a contract are checked. */
  function OuterScope(contract: Contract): Scope { ScopeOf(Scope(SpendNames(contract.spends), map[]), contract.params) }

  function FoundInContract(contract: Contract): seq<Problem> {
    When(contract.finalityDepth == Depth(0), ZeroFinalityDepth)
    + FoundInContractParams(Scope(SpendNames(contract.spends), map[]), contract.params)
    + FoundInSpends(contract, OuterScope(contract))
  }

  function FoundInSpends(contract: Contract, outer: Scope): seq<Problem> {
    FoundInNamed({}, NamesOfSpends(contract.spends), FoundInEach(contract, outer, contract.spends), RepeatedSpend)
  }

  /** What is found in each contract. */
  function FoundInContracts(contracts: seq<Contract>): (found: seq<seq<Problem>>)
    ensures |found| == |contracts| && forall i :: 0 <= i < |contracts| ==> found[i] == FoundInContract(contracts[i])
  {
    seq(|contracts|, i requires 0 <= i < |contracts| => FoundInContract(contracts[i]))
  }

  /** Everything the checker reports of a program, in order. */
  function FoundInProgram(contracts: seq<Contract>): seq<Problem> {
    FoundInNamed({}, NamesOfContracts(contracts), FoundInContracts(contracts), RepeatedContract)
  }

  lemma {:induction false} ScopeKeepsSpends(s: Scope, params: seq<Param>)
    ensures ScopeOf(s, params).spends == s.spends
    decreases params
  {
    if params != [] { ScopeKeepsSpends(s.Insert(params[0].name.name, params[0].ty), params[1..]); }
  }

  /** Names that do not repeat, and none of which has been seen. */
  predicate Unseen(seen: set<string>, names: seq<string>) {
    (forall i :: 0 <= i < |names| ==> names[i] !in seen)
    && forall i, j :: 0 <= i < j < |names| ==> names[i] != names[j]
  }

  lemma UnseenHead(seen: set<string>, names: seq<string>)
    requires names != []
    ensures Unseen(seen, names) <==> names[0] !in seen && Unseen(seen + {names[0]}, names[1..])
  {
    if names[0] !in seen && Unseen(seen + {names[0]}, names[1..]) {
      forall i | 0 < i < |names| ensures names[i] !in seen && names[i] != names[0] { assert names[i] == names[1..][i - 1]; }
      forall i, j | 0 < i < j < |names| ensures names[i] != names[j] {
        assert names[i] == names[1..][i - 1] && names[j] == names[1..][j - 1];
      }
    }
  }

  function ParamNames(params: seq<Param>): (names: seq<string>)
    ensures |names| == |params| && forall i :: 0 <= i < |params| ==> names[i] == params[i].name.name
  {
    if params == [] then [] else [params[0].name.name] + ParamNames(params[1..])
  }

  function NamesOfSpends(spends: seq<Spend>): (names: seq<string>)
    ensures |names| == |spends| && forall i :: 0 <= i < |spends| ==> names[i] == spends[i].name.name
  {
    if spends == [] then [] else [spends[0].name.name] + NamesOfSpends(spends[1..])
  }

  function NamesOfContracts(contracts: seq<Contract>): (names: seq<string>)
    ensures |names| == |contracts| && forall i :: 0 <= i < |contracts| ==> names[i] == contracts[i].name.name
  {
    if contracts == [] then [] else [contracts[0].name.name] + NamesOfContracts(contracts[1..])
  }

  predicate ContractOk(c: Contract) {
    c.finalityDepth != Depth(0) && Unseen({}, ParamNames(c.params)) && Unseen({}, NamesOfSpends(c.spends))
    && forall i :: 0 <= i < |c.spends| ==> SpendOk(c, c.spends[i], OuterScope(c))
  }

  predicate ProgramOk(contracts: seq<Contract>) {
    Unseen({}, NamesOfContracts(contracts)) && forall i :: 0 <= i < |contracts| ==> ContractOk(contracts[i])
  }

  lemma {:induction false} NothingFoundInContractParams(s: Scope, params: seq<Param>)
    ensures FoundInContractParams(s, params) == [] <==> Unseen(s.types.Keys, ParamNames(params))
    decreases params
  {
    if params != [] {
      var next := s.Insert(params[0].name.name, params[0].ty);
      NothingFoundInContractParams(next, params[1..]);
      UnseenHead(s.types.Keys, ParamNames(params));
      assert next.types.Keys == s.types.Keys + {params[0].name.name};
      assert ParamNames(params)[1..] == ParamNames(params[1..]);
    }
  }

  lemma {:induction false} NothingFoundInNamed(seen: set<string>, names: seq<string>, found: seq<seq<Problem>>, repeated: Problem)
    requires |names| == |found|
    ensures FoundInNamed(seen, names, found, repeated) == [] <==> Unseen(seen, names) && forall i :: 0 <= i < |found| ==> found[i] == []
    decreases names
  {
    if names != [] {
      NothingFoundInNamed(seen + {names[0]}, names[1..], found[1..], repeated);
      UnseenHead(seen, names);
      assert found == [found[0]] + found[1..];
    }
  }

  lemma NothingFoundInContract(c: Contract)
    ensures FoundInContract(c) == [] <==> ContractOk(c)
  {
    var outer := OuterScope(c);
    NothingFoundInContractParams(Scope(SpendNames(c.spends), map[]), c.params);
    NothingFoundInNamed({}, NamesOfSpends(c.spends), FoundInEach(c, outer, c.spends), RepeatedSpend);
    forall i | 0 <= i < |c.spends| ensures FoundInEach(c, outer, c.spends)[i] == [] <==> SpendOk(c, c.spends[i], outer) {
      NothingFoundInSpend(c, c.spends[i], outer);
    }
  }

  /** The checker accepts a program if and only if all its contracts are as they should be and no name
      is given twice. */
  lemma NothingFoundInProgram(contracts: seq<Contract>)
    ensures FoundInProgram(contracts) == [] <==> ProgramOk(contracts)
  {
    NothingFoundInNamed({}, NamesOfContracts(contracts), FoundInContracts(contracts), RepeatedContract);
    forall i | 0 <= i < |contracts| ensures FoundInContracts(contracts)[i] == [] <==> ContractOk(contracts[i]) {
      NothingFoundInContract(contracts[i]);
    }
  }

  // ---- the checker ----

  lemma Onward<T(!new)>(before: seq<T>, a: seq<T>, b: seq<T>)
    ensures before + a + b == before + (a + b)
  {
    ConcatAssociates(before, a, b);
  }

  lemma NamedStep(before: seq<Problem>, seen: set<string>, names: seq<string>, found: seq<seq<Problem>>, repeated: Problem, i: nat)
    requires |names| == |found| && i < |names|
    ensures before + FoundInNamed(seen, names[i..], found[i..], repeated) ==
            before + When(names[i] in seen, repeated) + found[i]
            + FoundInNamed(seen + {names[i]}, names[i + 1..], found[i + 1..], repeated)
  {
    assert names[i..][1..] == names[i + 1..] && found[i..][1..] == found[i + 1..];
    Onward(before, When(names[i] in seen, repeated), found[i]);
    Onward(before, When(names[i] in seen, repeated) + found[i],
           FoundInNamed(seen + {names[i]}, names[i + 1..], found[i + 1..], repeated));
  }

  /** One more statement of a body. */
  lemma BodyStep(before: seq<Problem>, l: Locals, es: seq<Expr>, body: seq<Stmt>, i: nat)
    requires i < |body| && es == Requirements(body[..i])
    ensures before + FoundInBody(l, es, body[i..]) ==
            before + FoundInStmt(l, es, body[i]) + FoundInBody(AfterStmt(l, body[i]), Further(es, body[i]), body[i + 1..])
    ensures Requirements(body[..i + 1]) == Further(es, body[i])
  {
    assert body[i..][0] == body[i] && body[i..][1..] == body[i + 1..];
    assert body[..i + 1] == body[..i] + [body[i]];
    RequirementsLast(body[..i], body[i]);
    Onward(before, FoundInStmt(l, es, body[i]), FoundInBody(AfterStmt(l, body[i]), Further(es, body[i]), body[i + 1..]));
  }

  /** What was gathered from the requirements `es`. */
  ghost predicate Gathered(facts: ShapeFacts, seen: NameSet, es: seq<Expr>)
    reads facts, seen
  {
    facts.inputs == InputFacts(es) && facts.outputs == OutputFacts(es)
    && seen.names == set n | n in ContinuationNames(AllParts(es))
  }

  class Checker {
    var errors: seq<Problem>
    var spendNames: set<string>

    constructor ()
      ensures errors == [] && spendNames == {}
    {
      errors, spendNames := [], {};
    }

    method Error(problem: Problem)
      modifies `errors
      ensures errors == old(errors) + [problem]
    {
      errors := errors + [problem];
    }

    /** Reports a problem unless something is as it should be. */
    method Demand(ok: bool, problem: Problem)
      modifies `errors
      ensures errors == old(errors) + When(!ok, problem)
    {
      if !ok { errors := errors + [problem]; }
    }

    // ---- types of expressions ----

    method InferExpr(e: Expr, scope: Scope) returns (ty: Option<TypeName>)
      requires scope.spends == spendNames
      modifies `errors
      ensures ty == TypeOf(scope, e) && errors == old(errors) + Found(scope, e)
      decreases e, 3
    {
      if e.Name? {
        ty := InferIdentifier(e, scope);
      } else if e.Integer? {
        ty := Some(AmountType);
      } else if e.Text? {
        ty := Some(BytesType);
      } else if e.Truth? {
        ty := Some(BoolType);
      } else if e.Array? {
        InferAll(e.elements, scope);
        ty := Some(BytesType);
      } else if e.Unary? {
        var operand := InferExpr(e.operand, scope);
        Onward(old(errors), Found(scope, e.operand), When(e.uop.Not? && operand != Some(BoolType), NotNeedsBool));
        Demand(e.uop.Not? ==> operand == Some(BoolType), NotNeedsBool);
        ty := Some(BoolType);
      } else if e.Binary? {
        ty := InferBinary(e, scope);
      } else if e.Call? {
        ty := InferCall(e, scope);
      } else {
        ty := InferField(e, scope);
      }
    }

    method InferAll(es: seq<Expr>, scope: Scope)
      requires scope.spends == spendNames
      modifies `errors
      ensures errors == old(errors) + AllFound(scope, es)
      decreases es, 4
    {
      for i := 0 to |es|
        invariant errors == old(errors) + AllFound(scope, es[..i])
      {
        assert es[..i + 1] == es[..i] + [es[i]];
        AllFoundLast(scope, es[..i], es[i]);
        Onward(old(errors), AllFound(scope, es[..i]), Found(scope, es[i]));
        var ty := InferExpr(es[i], scope);
      }
      assert es[..|es|] == es;
    }

    method InferIdentifier(e: Expr, scope: Scope) returns (ty: Option<TypeName>)
      requires e.Name? && scope.spends == spendNames
      modifies `errors
      ensures ty == TypeOf(scope, e) && errors == old(errors) + Found(scope, e)
      decreases e, 0
    {
      var name := e.ident.name;
      if name in spendNames {
        Error(SpendReferenced);
        return None;
      }
      if name == "block" { return Some(HeightType); }
      if name == "covenant_id" { return Some(CovenantIdType); }
      if name == "sequencing" { return Some(HashType); }
      if name == "input_count" || name == "output_count" { return Some(AmountType); }
      if name == "input" || name == "output" || name == "multisig" || name == "zk_verify"
         || name == "sha256" || name == "blake2b" || name == "hash160" { return Some(BoolType); }
      ty := if name in scope.types then Some(scope.types[name]) else None;
      Demand(ty.Some?, Undefined);
    }

    method InferBinary(e: Expr, scope: Scope) returns (ty: Option<TypeName>)
      requires e.Binary? && scope.spends == spendNames
      modifies `errors
      ensures ty == TypeOf(scope, e) && errors == old(errors) + Found(scope, e)
      decreases e, 2
    {
      var left := InferExpr(e.left, scope);
      var right := InferExpr(e.right, scope);
      Onward(old(errors), Found(scope, e.left), Found(scope, e.right));
      var bad := (e.op.And? || e.op.Or?) && !(left == Some(BoolType) && right == Some(BoolType));
      Onward(old(errors), Found(scope, e.left) + Found(scope, e.right), When(bad, LogicNeedsBool));
      match e.op
      case And =>
        Demand(left == Some(BoolType) && right == Some(BoolType), LogicNeedsBool);
        ty := Some(BoolType);
      case Or =>
        Demand(left == Some(BoolType) && right == Some(BoolType), LogicNeedsBool);
        ty := Some(BoolType);
      case Equal => ty := Some(BoolType);
      case NotEqual => ty := Some(BoolType);
      case Greater => ty := Some(BoolType);
      case GreaterEqual => ty := Some(BoolType);
      case Less => ty := Some(BoolType);
      case LessEqual => ty := Some(BoolType);
      case _ => ty := Some(AmountType);
    }

    method InferCall(e: Expr, scope: Scope) returns (ty: Option<TypeName>)
      requires e.Call? && scope.spends == spendNames
      modifies `errors
      ensures ty == TypeOf(scope, e) && errors == old(errors) + FoundInCall(scope, e)
      decreases e, 2
    {
      ty := Some(BoolType);
      if IsVerifyCall(e) {
        InferVerify(e, scope);
      } else if IsCallOf(e, "input") {
        CheckIndexCall(e.args);
        ty := Some(InputType);
      } else if IsCallOf(e, "output") {
        CheckIndexCall(e.args);
        ty := Some(OutputType);
      } else if IsCallOf(e, "continuation") {
        CheckContinuation(e.args);
      } else if IsCallOf(e, "zk_verify") {
        InferArgument(e.args, Some(ProofType), scope, ProofArity, ProofArgument);
      } else if IsCallOf(e, "multisig") {
        CheckMultisig(e.args, scope);
      } else if IsHashCall(e) {
        InferArgument(e.args, None, scope, HashArity, HashArity);
        ty := Some(HashType);
      } else {
        var callee := InferExpr(e.callee, scope);
        InferAll(e.args, scope);
        Onward(old(errors), Found(scope, e.callee), AllFound(scope, e.args));
      }
    }

    method InferVerify(e: Expr, scope: Scope)
      requires IsVerifyCall(e) && scope.spends == spendNames
      modifies `errors
      ensures errors == old(errors) + FoundInCall(scope, e)
      decreases e, 1
    {
      var receiver := InferExpr(e.callee.target, scope);
      Demand(receiver == Some(SignatureType), VerifyReceiver);
      var target, bad := Found(scope, e.callee.target), When(receiver != Some(SignatureType), VerifyReceiver);
      Onward(old(errors), target, bad);
      InferArgument(e.args, Some(KeyType), scope, VerifyArity, VerifyArgument);
      Onward(old(errors), target + bad, FoundInArgument(scope, e.args, Some(KeyType), VerifyArity, VerifyArgument));
    }

    /** A single argument, of a given type when one is wanted. */
    method InferArgument(args: seq<Expr>, wanted: Option<TypeName>, scope: Scope, arity: Problem, argument: Problem)
      requires scope.spends == spendNames
      modifies `errors
      ensures errors == old(errors) + FoundInArgument(scope, args, wanted, arity, argument)
      decreases args, 5
    {
      if |args| != 1 {
        Error(arity);
      } else {
        var ty := InferExpr(args[0], scope);
        Onward(old(errors), Found(scope, args[0]), When(wanted.Some? && ty != wanted, argument));
        Demand(wanted.Some? ==> ty == wanted, argument);
      }
    }

    method CheckIndexCall(args: seq<Expr>)
      modifies `errors
      ensures errors == old(errors) + FoundInIndex(args)
    {
      if |args| != 1 {
        Error(IndexArity);
      } else if !args[0].Integer? {
        Error(IndexNotLiteral);
      } else {
        Demand(args[0].value <= U32_MAX, IndexTooLarge);
      }
    }

    method CheckContinuation(args: seq<Expr>)
      modifies `errors
      ensures errors == old(errors) + FoundInContinuation(args)
    {
      if |args| != 2 {
        Error(ContinuationArity);
        return;
      }
      if args[0].Text? {
        var valid := IsValidContinuationName(args[0].text);
        Demand(valid, ContinuationLabel);
      } else {
        Error(ContinuationNotText);
      }
      ghost var ofName := errors[|old(errors)|..];
      Onward(old(errors), ofName, When(!IsOutputCall(args[1]), ContinuationOutput));
      Demand(IsOutputCall(args[1]), ContinuationOutput);
    }

    method CheckMultisig(args: seq<Expr>, scope: Scope)
      requires scope.spends == spendNames
      modifies `errors
      ensures errors == old(errors) + FoundInMultisig(scope, args)
      decreases args, 5
    {
      if |args| != 3 {
        Error(MultisigArity);
        return;
      }
      if !args[0].Integer? {
        Error(MultisigThreshold);
      } else if args[1].Array? {
        Demand(args[0].value <= |args[1].elements|, MultisigTooMany);
      }
      assert errors == old(errors) + FoundInThreshold(args[0], args[1]);
      Onward(old(errors), FoundInThreshold(args[0], args[1]), AllFound(scope, args));
      InferAll(args, scope);
    }

    method InferField(e: Expr, scope: Scope) returns (ty: Option<TypeName>)
      requires e.Field? && scope.spends == spendNames
      modifies `errors
      ensures ty == TypeOf(scope, e) && errors == old(errors) + Found(scope, e)
      decreases e, 2
    {
      var name := e.field.name;
      if e.target.Name? {
        var root := e.target.ident.name;
        if root == "block" {
          Demand(name == "height" || name == "time", BlockField);
          return if name == "height" || name == "time" then Some(HeightType) else None;
        }
        if root == "covenant_id" && name == "depth" { return Some(HeightType); }
        if root == "sequencing" { return Some(HeightType); }
      }
      ty := InferExpr(e.target, scope);
      if ty == Some(InputType) || ty == Some(OutputType) {
        if name == "value" {
          ty := Some(AmountType);
        } else if name == "script" {
          ty := Some(BytesType);
        } else if name == "covenant_id" {
          ty := Some(CovenantIdType);
        } else {
          Onward(old(errors), Found(scope, e.target), [UnknownField]);
          Error(UnknownField);
          ty := None;
        }
      }
    }

    // ---- facts about the transaction ----

    method CollectExactCounts(e: Expr, facts: ShapeFacts)
      requires facts as object != this
      modifies `errors, facts
      ensures facts.inputs == old(facts.inputs).With(Counts(CountOfInputs, e), [])
      ensures facts.outputs == old(facts.outputs).With(Counts(CountOfOutputs, e), [])
      ensures errors == old(errors) + FoundInCounts(old(facts.inputs).exact, old(facts.outputs).exact, e)
    {
      if e.Binary? && e.op.And? {
        ValuesConcat(facts.inputs.exact, Counts(CountOfInputs, e.left), Counts(CountOfInputs, e.right));
        ValuesConcat(facts.outputs.exact, Counts(CountOfOutputs, e.left), Counts(CountOfOutputs, e.right));
        CollectExactCounts(e.left, facts);
        Onward(old(errors), FoundInCounts(old(facts.inputs).exact, old(facts.outputs).exact, e.left),
               FoundInCounts(facts.inputs.exact, facts.outputs.exact, e.right));
        CollectExactCounts(e.right, facts);
        return;
      }
      var constraint := CountConstraint(e);
      if constraint.None? { return; }
      var value := constraint.value.1;
      var existing := if constraint.value.0.CountOfInputs? then facts.inputs.exact else facts.outputs.exact;
      Onward(errors, When(value > U32_MAX, CountTooLarge), When(existing.Some? && existing.value != value, CountConflict));
      Demand(value <= U32_MAX, CountTooLarge);
      if existing.Some? {
        Demand(existing.value == value, CountConflict);
      } else if constraint.value.0.CountOfInputs? {
        facts.inputs := facts.inputs.(exact := Some(value));
      } else {
        facts.outputs := facts.outputs.(exact := Some(value));
      }
    }

    method CheckCountFacts(facts: CountFacts)
      modifies `errors
      ensures errors == old(errors) + When(!facts.Consistent(), CountBelowIndex)
    {
      if facts.exact.None? || facts.maxIndex.None? { return; }
      if facts.exact.value <= facts.maxIndex.value { Error(CountBelowIndex); }
    }

    method CollectContinuationNames(e: Expr, seen: NameSet)
      requires seen as object != this
      modifies `errors, seen
      ensures seen.names == old(seen.names) + (set n | n in ContinuationNames(Parts(e)))
      ensures errors == old(errors) + FoundInNames(old(seen.names), ContinuationNames(Parts(e)))
      decreases e, 1
    {
      ContinuationNamesConcat([e], Inside(e));
      FoundInNamesConcat(seen.names, ContinuationNames([e]), ContinuationNames(Inside(e)));
      OneName(seen.names, e);
      if ContinuationName(e).Some? {
        var name := ContinuationName(e).value;
        Demand(name !in seen.names, RepeatedContinuation);
        seen.names := seen.names + {name};
      }
      Onward(old(errors), FoundInNames(old(seen.names), ContinuationNames([e])), FoundInNames(seen.names, ContinuationNames(Inside(e))));
      CollectNamesInside(e, seen);
    }

    method CollectNamesInside(e: Expr, seen: NameSet)
      requires seen as object != this
      modifies `errors, seen
      ensures seen.names == old(seen.names) + (set n | n in ContinuationNames(Inside(e)))
      ensures errors == old(errors) + FoundInNames(old(seen.names), ContinuationNames(Inside(e)))
      decreases e, 0
    {
      if e.Array? {
        CollectNamesFromAll(e.elements, seen);
      } else if e.Unary? {
        CollectContinuationNames(e.operand, seen);
      } else if e.Binary? {
        ContinuationNamesConcat(Parts(e.left), Parts(e.right));
        FoundInNamesConcat(seen.names, ContinuationNames(Parts(e.left)), ContinuationNames(Parts(e.right)));
        CollectContinuationNames(e.left, seen);
        Onward(old(errors), FoundInNames(old(seen.names), ContinuationNames(Parts(e.left))),
               FoundInNames(seen.names, ContinuationNames(Parts(e.right))));
        CollectContinuationNames(e.right, seen);
      } else if e.Call? {
        ContinuationNamesConcat(Parts(e.callee), AllParts(e.args));
        FoundInNamesConcat(seen.names, ContinuationNames(Parts(e.callee)), ContinuationNames(AllParts(e.args)));
        CollectContinuationNames(e.callee, seen);
        Onward(old(errors), FoundInNames(old(seen.names), ContinuationNames(Parts(e.callee))),
               FoundInNames(seen.names, ContinuationNames(AllParts(e.args))));
        CollectNamesFromAll(e.args, seen);
      } else if e.Field? {
        CollectContinuationNames(e.target, seen);
      }
    }

    method CollectNamesFromAll(es: seq<Expr>, seen: NameSet)
      requires seen as object != this
      modifies `errors, seen
      ensures seen.names == old(seen.names) + (set n | n in ContinuationNames(AllParts(es)))
      ensures errors == old(errors) + FoundInNames(old(seen.names), ContinuationNames(AllParts(es)))
      decreases es, 2
    {
      for i := 0 to |es|
        invariant seen.names == old(seen.names) + (set n | n in ContinuationNames(AllParts(es[..i])))
        invariant errors == old(errors) + FoundInNames(old(seen.names), ContinuationNames(AllParts(es[..i])))
      {
        AllPartsLast(es[..i], es[i]);
        assert es[..i + 1] == es[..i] + [es[i]];
        ContinuationNamesConcat(AllParts(es[..i]), Parts(es[i]));
        FoundInNamesConcat(old(seen.names), ContinuationNames(AllParts(es[..i])), ContinuationNames(Parts(es[i])));
        Onward(old(errors), FoundInNames(old(seen.names), ContinuationNames(AllParts(es[..i]))),
               FoundInNames(seen.names, ContinuationNames(Parts(es[i]))));
        CollectContinuationNames(es[i], seen);
      }
      assert es[..|es|] == es;
    }

    // ---- spends ----

    method CheckParams(outer: Scope, params: seq<Param>) returns (l: Locals)
      modifies `errors
      ensures l == AfterParams(Locals(outer, {}), params)
      ensures errors == old(errors) + FoundInParams(outer, Locals(outer, {}), params)
    {
      l := Locals(outer, {});
      assert params[0..] == params;
      for i := 0 to |params|
        invariant AfterParams(l, params[i..]) == AfterParams(Locals(outer, {}), params)
        invariant errors + FoundInParams(outer, l, params[i..]) == old(errors) + FoundInParams(outer, Locals(outer, {}), params)
      {
        assert params[i..][0] == params[i] && params[i..][1..] == params[i + 1..];
        var name := params[i].name.name;
        ghost var shadows, repeats := When(name in outer.types, ShadowedParam), When(name in l.names, RepeatedParam);
        ghost var rest := FoundInParams(outer, l.Declare(name, Some(params[i].ty)), params[i + 1..]);
        Onward(errors, shadows, repeats);
        Onward(errors, shadows + repeats, rest);
        Demand(name !in outer.types, ShadowedParam);
        Demand(name !in l.names, RepeatedParam);
        l := Locals(l.scope.Insert(name, params[i].ty), l.names + {name});
      }
    }

    /** One statement after the requirements `es`; a requirement also adds to the facts and the
        continuation names. */
    method CheckStmt(l: Locals, s: Stmt, facts: ShapeFacts, seen: NameSet, ghost es: seq<Expr>) returns (next: Locals)
      requires l.scope.spends == spendNames && facts as object != this && seen as object != this
      requires Gathered(facts, seen, es)
      modifies `errors, facts, seen
      ensures next == AfterStmt(l, s) && errors == old(errors) + FoundInStmt(l, es, s)
      ensures Gathered(facts, seen, Further(es, s))
    {
      next := l;
      var ty := InferExpr(s.expr, l.scope);
      if s.Let? {
        var name := s.name.name;
        var repeated := name in l.names || name in l.scope.types;
        next := Locals(if !repeated && ty.Some? then l.scope.Insert(name, ty.value) else l.scope, l.names + {name});
        Onward(old(errors), Found(l.scope, s.expr), When(repeated, RepeatedLet));
        Demand(!repeated, RepeatedLet);
      } else if s.Require? {
        Onward(old(errors), Found(l.scope, s.expr), FoundInRequirement(ty, es, s.expr));
        CheckRequirement(s.expr, ty, facts, seen, es);
      }
    }

    method CheckRequirement(e: Expr, ty: Option<TypeName>, facts: ShapeFacts, seen: NameSet, ghost es: seq<Expr>)
      requires facts as object != this && seen as object != this
      requires Gathered(facts, seen, es)
      modifies `errors, facts, seen
      ensures errors == old(errors) + FoundInRequirement(ty, es, e)
      ensures Gathered(facts, seen, es + [e])
    {
      FactsOfOneMore(es, e);
      NamesOfOneMore(es, e);
      Demand(ty == Some(BoolType), RequireNeedsBool);
      CollectFacts(e, facts, seen);
      Onward(old(errors), When(ty != Some(BoolType), RequireNeedsBool), FoundInFacts(es, e));
    }

    /** The counts, the references and the continuation names of a requirement. */
    method CollectFacts(e: Expr, facts: ShapeFacts, seen: NameSet)
      requires facts as object != this && seen as object != this
      modifies `errors, facts, seen
      ensures facts.inputs == old(facts.inputs).With(Counts(CountOfInputs, e), Indexes("input", Parts(e)))
      ensures facts.outputs == old(facts.outputs).With(Counts(CountOfOutputs, e), Indexes("output", Parts(e)))
      ensures seen.names == old(seen.names) + (set n | n in ContinuationNames(Parts(e)))
      ensures errors == old(errors) + (FoundInCounts(old(facts.inputs).exact, old(facts.outputs).exact, e)
                                       + FoundInNames(old(seen.names), ContinuationNames(Parts(e))))
    {
      CollectExactCounts(e, facts);
      CollectIndexReferences(e, facts);
      Onward(old(errors), FoundInCounts(old(facts.inputs).exact, old(facts.outputs).exact, e),
             FoundInNames(old(seen.names), ContinuationNames(Parts(e))));
      CollectContinuationNames(e, seen);
    }

    /** All statements, starting from no facts and no continuation names; whether one is a requirement. */
    method CheckBody(start: Locals, body: seq<Stmt>, facts: ShapeFacts, seen: NameSet) returns (hasRequire: bool)
      requires start.scope.spends == spendNames && facts as object != this && seen as object != this
      requires facts.inputs == CountFacts(None, None) && facts.outputs == CountFacts(None, None) && seen.names == {}
      modifies `errors, facts, seen
      ensures facts.inputs == InputFacts(Requirements(body)) && facts.outputs == OutputFacts(Requirements(body))
      ensures (hasRequire <==> Requirements(body) != []) && errors == old(errors) + FoundInBody(start, [], body)
    {
      var l := start;
      ghost var es := [];
      hasRequire := false;
      assert body[0..] == body;
      for i := 0 to |body|
        invariant l.scope.spends == spendNames && es == Requirements(body[..i]) && (hasRequire <==> es != [])
        invariant Gathered(facts, seen, es)
        invariant errors + FoundInBody(l, es, body[i..]) == old(errors) + FoundInBody(start, [], body)
      {
        var s := body[i];
        BodyStep(errors, l, es, body, i);
        l := CheckStmt(l, s, facts, seen, es);
        es := Further(es, s);
        if s.Require? { hasRequire := true; }
      }
      assert body[..|body|] == body;
    }

    method CheckSpend(contract: Contract, spend: Spend, outer: Scope)
      requires outer.spends == spendNames
      modifies `errors
      ensures errors == old(errors) + FoundInSpend(contract, spend, outer)
    {
      var facts := new ShapeFacts();
      var seen := new NameSet();
      var start := CheckParams(outer, spend.params);
      ghost var params := errors;
      AfterParamsKeepsSpends(Locals(outer, {}), spend.params);
      var hasRequire := CheckBody(start, spend.body, facts, seen);
      ghost var all := errors;
      CheckWhole(contract, spend, hasRequire, facts);
      Onward(params, FoundInBody(start, [], spend.body), errors[|all|..]);
      Onward(old(errors), FoundInParams(outer, Locals(outer, {}), spend.params), FoundInBody(start, [], spend.body) + errors[|all|..]);
    }

    /** What is left to check once every statement has been read. */
    method CheckWhole(contract: Contract, spend: Spend, hasRequire: bool, facts: ShapeFacts)
      requires facts as object != this
      modifies `errors
      ensures errors == old(errors) +
                        (When(!hasRequire, NoRequire)
                         + (When(SpendUsesName(spend.body, "covenant_id")
                                 && !(contract.finalityDepth.Depth? && contract.finalityDepth.blocks > 0), NeedsFinalityDepth)
                            + (When(!facts.inputs.Consistent(), CountBelowIndex) + When(!facts.outputs.Consistent(), CountBelowIndex))))
    {
      var covenant := SpendUsesName(spend.body, "covenant_id");
      var deep := contract.finalityDepth.Depth? && contract.finalityDepth.blocks > 0;
      Demand(hasRequire, NoRequire);
      Demand(!(covenant && !deep), NeedsFinalityDepth);
      CheckCountFacts(facts.inputs);
      CheckCountFacts(facts.outputs);
    }

    // ---- contracts and programs ----

    method CheckContractParams(spends: set<string>, params: seq<Param>) returns (outer: Scope)
      modifies `errors
      ensures outer == ScopeOf(Scope(spends, map[]), params)
      ensures errors == old(errors) + FoundInContractParams(Scope(spends, map[]), params)
    {
      outer := Scope(spends, map[]);
      assert params[0..] == params;
      for i := 0 to |params|
        invariant ScopeOf(outer, params[i..]) == ScopeOf(Scope(spends, map[]), params)
        invariant errors + FoundInContractParams(outer, params[i..]) == old(errors) + FoundInContractParams(Scope(spends, map[]), params)
      {
        assert params[i..][0] == params[i] && params[i..][1..] == params[i + 1..];
        var name := params[i].name.name;
        Onward(errors, When(name in outer.types, RepeatedContractParam),
               FoundInContractParams(outer.Insert(name, params[i].ty), params[i + 1..]));
        Demand(name !in outer.types, RepeatedContractParam);
        outer := outer.Insert(name, params[i].ty);
      }
    }

    /** A spend after others of the given names; `found` is what there is to find in it. */
    method CheckNamedSpend(contract: Contract, spend: Spend, outer: Scope, seen: set<string>, ghost found: seq<Problem>)
      requires outer.spends == spendNames && Same(found, FoundInSpend(contract, spend, outer))
      modifies `errors
      ensures errors == old(errors) + When(spend.name.name in seen, RepeatedSpend) + found
    {
      Demand(spend.name.name !in seen, RepeatedSpend);
      CheckSpend(contract, spend, outer);
    }

    method CheckSpends(contract: Contract, outer: Scope)
      requires outer.spends == spendNames
      modifies `errors
      ensures errors == old(errors) + FoundInSpends(contract, outer)
    {
      var seen: set<string>, spends := {}, contract.spends;
      ghost var names, found := NamesOfSpends(spends), FoundInEach(contract, outer, spends);
      assert names[0..] == names && found[0..] == found;
      for i := 0 to |spends|
        invariant errors + FoundInNamed(seen, names[i..], found[i..], RepeatedSpend)
                  == old(errors) + FoundInNamed({}, names, found, RepeatedSpend)
      {
        NamedStep(errors, seen, names, found, RepeatedSpend, i);
        CheckNamedSpend(contract, spends[i], outer, seen, found[i]);
        seen := seen + {spends[i].name.name};
      }
    }

    method CheckContract(contract: Contract)
      modifies this
      ensures errors == old(errors) + FoundInContract(contract)
    {
      ghost var names, depth := SpendNames(contract.spends), When(contract.finalityDepth == Depth(0), ZeroFinalityDepth);
      Demand(contract.finalityDepth != Depth(0), ZeroFinalityDepth);
      var outer := CheckContractParams(SpendNames(contract.spends), contract.params);
      ScopeKeepsSpends(Scope(names, map[]), contract.params);
      spendNames := SpendNames(contract.spends);
      CheckSpends(contract, outer);
      Onward(old(errors), depth, FoundInContractParams(Scope(names, map[]), contract.params));
      Onward(old(errors), depth + FoundInContractParams(Scope(names, map[]), contract.params),
             FoundInSpends(contract, outer));
    }

    method CheckProgram(contracts: seq<Contract>)
      modifies this
      ensures errors == old(errors) + FoundInProgram(contracts)
    {
      var seen: set<string> := {};
      ghost var names, found := NamesOfContracts(contracts), FoundInContracts(contracts);
      assert names[0..] == names && found[0..] == found;
      for i := 0 to |contracts|
        invariant errors + FoundInNamed(seen, names[i..], found[i..], RepeatedContract)
                  == old(errors) + FoundInNamed({}, names, found, RepeatedContract)
      {
        NamedStep(errors, seen, names, found, RepeatedContract, i);
        var name := contracts[i].name.name;
        Demand(name !in seen, RepeatedContract);
        seen := seen + {name};
        CheckContract(contracts[i]);
      }
    }
  }

  method IsValidContinuationName(text: string) returns (valid: bool)
    ensures valid == IsContinuationLabel(text)
  {
    if text == "" { return false; }
    var first := text[0];
    if !(first == '_' || 'a' <= first <= 'z' || 'A' <= first <= 'Z') { return false; }
    for i := 1 to |text|
      invariant forall j :: 1 <= j < i ==> IsLabelChar(text[j])
    {
      var c := text[i];
      if !(c == '_' || c == '-' || 'a' <= c <= 'z' || 'A' <= c <= 'Z' || '0' <= c <= '9') { return false; }
    }
    return true;
  }

  /** The largest literal index of inputs and of outputs an expression refers to. */
  method CollectIndexReferences(e: Expr, facts: ShapeFacts)
    modifies facts
    ensures facts.inputs == old(facts.inputs).With([], Indexes("input", Parts(e)))
    ensures facts.outputs == old(facts.outputs).With([], Indexes("output", Parts(e)))
    decreases e, 1
  {
    IndexesConcat("input", [e], Inside(e));
    IndexesConcat("output", [e], Inside(e));
    LargestConcat(facts.inputs.maxIndex, Indexes("input", [e]), Indexes("input", Inside(e)));
    LargestConcat(facts.outputs.maxIndex, Indexes("output", [e]), Indexes("output", Inside(e)));
    assert [e][1..] == [];
    if IndexOf("input", e).Some? {
      facts.inputs := Raised(facts.inputs, IndexOf("input", e).value);
    } else if IndexOf("output", e).Some? {
      facts.outputs := Raised(facts.outputs, IndexOf("output", e).value);
    }
    CollectReferencesInside(e, facts);
  }

  function Raised(facts: CountFacts, index: u64): CountFacts {
    if facts.maxIndex.Some? && facts.maxIndex.value >= index then facts else facts.(maxIndex := Some(index))
  }

  method CollectReferencesInside(e: Expr, facts: ShapeFacts)
    modifies facts
    ensures facts.inputs == old(facts.inputs).With([], Indexes("input", Inside(e)))
    ensures facts.outputs == old(facts.outputs).With([], Indexes("output", Inside(e)))
    decreases e, 0
  {
    if e.Array? {
      CollectReferencesFromAll(e.elements, facts);
    } else if e.Unary? {
      CollectIndexReferences(e.operand, facts);
    } else if e.Binary? {
      ReferencesConcat(facts.inputs, facts.outputs, Parts(e.left), Parts(e.right));
      CollectIndexReferences(e.left, facts);
      CollectIndexReferences(e.right, facts);
    } else if e.Call? {
      ReferencesConcat(facts.inputs, facts.outputs, Parts(e.callee), AllParts(e.args));
      CollectIndexReferences(e.callee, facts);
      CollectReferencesFromAll(e.args, facts);
    } else if e.Field? {
      CollectIndexReferences(e.target, facts);
    }
  }

  lemma ReferencesConcat(inputs: CountFacts, outputs: CountFacts, a: seq<Expr>, b: seq<Expr>)
    ensures inputs.With([], Indexes("input", a)).With([], Indexes("input", b)) == inputs.With([], Indexes("input", a + b))
    ensures outputs.With([], Indexes("output", a)).With([], Indexes("output", b)) == outputs.With([], Indexes("output", a + b))
  {
    IndexesConcat("input", a, b);
    IndexesConcat("output", a, b);
    LargestConcat(inputs.maxIndex, Indexes("input", a), Indexes("input", b));
    LargestConcat(outputs.maxIndex, Indexes("output", a), Indexes("output", b));
  }

  method CollectReferencesFromAll(es: seq<Expr>, facts: ShapeFacts)
    modifies facts
    ensures facts.inputs == old(facts.inputs).With([], Indexes("input", AllParts(es)))
    ensures facts.outputs == old(facts.outputs).With([], Indexes("output", AllParts(es)))
    decreases es, 2
  {
    for i := 0 to |es|
      invariant facts.inputs == old(facts.inputs).With([], Indexes("input", AllParts(es[..i])))
      invariant facts.outputs == old(facts.outputs).With([], Indexes("output", AllParts(es[..i])))
    {
      AllPartsLast(es[..i], es[i]);
      assert es[..i + 1] == es[..i] + [es[i]];
      ReferencesConcat(old(facts.inputs), old(facts.outputs), AllParts(es[..i]), Parts(es[i]));
      CollectIndexReferences(es[i], facts);
    }
    assert es[..|es|] == es;
  }
}
