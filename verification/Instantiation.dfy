/** Giving a compiled contract its parameters (sdk/src/testnet.rs). */
module Instantiation {
  import opened Wrappers
  import opened ScriptNumbers
  import opened Syntax
  import opened Instructions
  import opened Lowering
  import opened Script
  import opened Encoding
  import opened Engine
  import opened Simulation
  import opened Evaluation
  import opened Correctness
  import opened Spends
  import opened TypeSoundness
  import C = Checker

  // ---- parameter values ----

  datatype ParamValue =
    | KeyParam(key: Bytes)
    | HashParam(hash: Bytes)
    | IntegerParam(n: u64)
    | BoolParam(b: bool)
    | BytesParam(bytes: Bytes)

  type Bindings = map<string, ParamValue>

  datatype InstantiateError =
    | SeveralPaths
    | MissingParameter(name: string)
    | WrongType(name: string)
    | UnboundSymbol(name: string)
    | NotEncoded(error: EncodeError)

  predicate ValidParam(ty: TypeName, value: ParamValue) {
    match ty
    case KeyType => value.KeyParam? && |value.key| == 32
    case HashType => value.HashParam? && |value.hash| == 32
    case HeightType => value.IntegerParam?
    case AmountType => value.IntegerParam?
    case BoolType => value.BoolParam?
    case BytesType => value.BytesParam?
    case _ => false
  }

  /** The value pushed for a parameter; a key right after a script read stands for its pay-to-key script. */
  function ToValue(value: ParamValue, ty: TypeName, asScript: bool): Option<Value> {
    match (value, ty)
    case (KeyParam(key), KeyType) => Some(BytesValue(if asScript then SpkBytes(PayToKey(key)) else key))
    case (HashParam(hash), HashType) => Some(BytesValue(hash))
    case (IntegerParam(n), HeightType) => Some(IntegerValue(n))
    case (IntegerParam(n), AmountType) => Some(IntegerValue(n))
    case (BoolParam(b), BoolType) => Some(BoolValue(b))
    case (BytesParam(bytes), BytesType) => Some(BytesValue(bytes))
    case _ => None
  }

  /** The declared types by name; a later declaration of a name wins. */
  function TypesOf(params: seq<Param>): map<string, TypeName> { C.ScopeOf(C.Scope({}, map[]), params).types }

  function ParamEnv(types: map<string, TypeName>, bindings: Bindings): Env {
    (name: string, r: Reading) =>
      if name in types && name in bindings then ToValue(bindings[name], types[name], r != Elsewhere) else None
  }

  /** The first parameter that is missing or has a value of another type. */
  function BindingsError(params: seq<Param>, bindings: Bindings): Option<InstantiateError> {
    if params == [] then None
    else
      var name := params[0].name.name;
      if name !in bindings then Some(MissingParameter(name))
      else if !ValidParam(params[0].ty, bindings[name]) then Some(WrongType(name))
      else BindingsError(params[1..], bindings)
  }

  method ValidateBindings(params: seq<Param>, bindings: Bindings) returns (r: Option<InstantiateError>)
    ensures r == BindingsError(params, bindings)
  {
    assert params[0..] == params;
    for i := 0 to |params|
      invariant BindingsError(params, bindings) == BindingsError(params[i..], bindings)
    {
      assert params[i..][0] == params[i] && params[i..][1..] == params[i + 1..];
      var name := params[i].name.name;
      if name !in bindings { return Some(MissingParameter(name)); }
      if !ValidParam(params[i].ty, bindings[name]) { return Some(WrongType(name)); }
    }
    return None;
  }

  /** Every name with a type has a value of that type. */
  predicate Bound(types: map<string, TypeName>, bindings: Bindings) {
    forall name :: name in types ==> name in bindings && ValidParam(types[name], bindings[name])
  }

  lemma {:induction false} ScopeBound(s: C.Scope, params: seq<Param>, bindings: Bindings)
    requires Bound(s.types, bindings) && BindingsError(params, bindings).None?
    ensures Bound(C.ScopeOf(s, params).types, bindings)
    decreases params
  {
    if params != [] { ScopeBound(s.Insert(params[0].name.name, params[0].ty), params[1..], bindings); }
  }

  lemma ValidHasValue(value: ParamValue, ty: TypeName, asScript: bool)
    requires ValidParam(ty, value)
    ensures ToValue(value, ty, asScript).Some?
  {
  }

  // ---- the instantiation loop ----

  /** The first symbol that is neither an argument nor a parameter. */
  function FirstUnbound(args: set<string>, types: map<string, TypeName>, code: Code): Option<string> {
    if code == [] then None
    else if IsSymbol(code[0]) && code[0].value.name !in args && code[0].value.name !in types then Some(code[0].value.name)
    else FirstUnbound(args, types, code[1..])
  }

  /** The code with parameters in place, and the redeem script. */
  datatype Instantiated = Instantiated(code: Code, script: Bytes)

  function InstantiateResult(contract: Contract, spend: Spend, bindings: Bindings, code: Code): Result<Instantiated, InstantiateError> {
    var types, args := TypesOf(contract.params), Names(C.ParamNames(spend.params));
    if |contract.spends| != 1 then Failure(SeveralPaths)
    else if BindingsError(contract.params, bindings).Some? then Failure(BindingsError(contract.params, bindings).value)
    else if FirstUnbound(args, types, code).Some? then Failure(UnboundSymbol(FirstUnbound(args, types, code).value))
    else
      ScopeBound(C.Scope({}, map[]), contract.params, bindings);
      OnlyUnboundFails(args, types, bindings, Elsewhere, code);
      var bound := Instantiate(args, ParamEnv(types, bindings), Elsewhere, code).value;
      if SpendOps(bound).Failure? then Failure(NotEncoded(SpendOps(bound).error))
      else Success(Instantiated(bound, Assemble(SpendOps(bound).value)))
  }

  /** With valid bindings the loop fails exactly on a symbol that is neither argument nor parameter. */
  lemma {:induction false} OnlyUnboundFails(args: set<string>, types: map<string, TypeName>, bindings: Bindings, r: Reading, code: Code)
    requires Bound(types, bindings)
    ensures Instantiate(args, ParamEnv(types, bindings), r, code).Some? <==> FirstUnbound(args, types, code).None?
    decreases code
  {
    if code != [] {
      OnlyUnboundFails(args, types, bindings, ReadingAfter(code[0]), code[1..]);
      if IsSymbol(code[0]) && code[0].value.name in types {
        ValidHasValue(bindings[code[0].value.name], types[code[0].value.name], r != Elsewhere);
      }
    }
  }

  /** Drops argument pushes and replaces every other symbol by its value, looking back one instruction
      for the kind of value. */
  method InstantiateCode(args: set<string>, types: map<string, TypeName>, bindings: Bindings, code: Code)
    returns (r: Result<Code, InstantiateError>)
    requires Bound(types, bindings)
    ensures FirstUnbound(args, types, code).Some? ==> r == Failure(UnboundSymbol(FirstUnbound(args, types, code).value))
    ensures FirstUnbound(args, types, code).None? ==>
              r.Success? && Instantiate(args, ParamEnv(types, bindings), Elsewhere, code) == Some(r.value)
  {
    ghost var env := ParamEnv(types, bindings);
    var transformed: Code := [];
    assert code[0..] == code;
    ghost var whole := Instantiate(args, env, Elsewhere, code);
    OnlyUnboundFails(args, types, bindings, Elsewhere, code);
    if whole.Some? { assert [] + whole.value == whole.value; }
    for i := 0 to |code|
      invariant FirstUnbound(args, types, code) == FirstUnbound(args, types, code[i..])
      invariant var todo := Instantiate(args, env, if i == 0 then Elsewhere else ReadingAfter(code[i - 1]), code[i..]);
                whole == match todo case Some(rest) => Some(transformed + rest) case None => None
    {
      assert code[i..][0] == code[i] && code[i..][1..] == code[i + 1..];
      ghost var todo := Instantiate(args, env, ReadingAfter(code[i]), code[i + 1..]);
      var instr := code[i];
      if instr.Push? && instr.value.SymbolValue? {
        var name := instr.value.name;
        if name in args { continue; }
        if name !in types { return Failure(UnboundSymbol(name)); }
        if name !in bindings { return Failure(MissingParameter(name)); }
        var asScript := i > 0 && (code[i - 1].OutputScript? || code[i - 1].InputScript?);
        ValidHasValue(bindings[name], types[name], asScript);
        var value := ToValue(bindings[name], types[name], asScript);
        if value.None? { return Failure(WrongType(name)); }
        instr := Push(value.value);
      }
      if todo.Some? { ConcatAssociates(transformed, [instr], todo.value); }
      transformed := transformed + [instr];
    }
    assert transformed + [] == transformed;
    return Success(transformed);
  }

  /** Checks the parameters, puts them in place and encodes the redeem script. */
  method InstantiateContract(contract: Contract, spend: Spend, bindings: Bindings, code: Code)
    returns (r: Result<Instantiated, InstantiateError>)
    ensures r == InstantiateResult(contract, spend, bindings, code)
  {
    if |contract.spends| != 1 { return Failure(SeveralPaths); }
    var invalid := ValidateBindings(contract.params, bindings);
    if invalid.Some? { return Failure(invalid.value); }
    ScopeBound(C.Scope({}, map[]), contract.params, bindings);
    var args := set p | p in spend.params :: p.name.name;
    assert args == Names(C.ParamNames(spend.params)) by {
      assert forall i :: 0 <= i < |spend.params| ==> C.ParamNames(spend.params)[i] == spend.params[i].name.name;
    }
    var transformed := InstantiateCode(args, TypesOf(contract.params), bindings, code);
    OnlyUnboundFails(args, TypesOf(contract.params), bindings, Elsewhere, code);
    if transformed.Failure? { return Failure(transformed.error); }
    var script := CompileSpendScript(transformed.value);
    if script.Failure? { return Failure(NotEncoded(script.error)); }
    return Success(Instantiated(transformed.value, script.value));
  }

  // ---- what instantiation guarantees ----

  /** With valid bindings, the value of every parameter fits its declared type, as long as no parameter
      is named like a built-in. */
  lemma ParametersOfContractFit(s: C.Scope, params: seq<Param>, bindings: Bindings, args: seq<string>)
    requires BindingsError(params, bindings).None?
    requires forall name :: name in TypesOf(params) && name !in args ==> C.BuiltinType(name).None? && name in s.types
    requires forall name :: name in TypesOf(params) && name !in args ==> s.types[name] == TypesOf(params)[name]
    ensures ParametersFit(s, ParamEnv(TypesOf(params), bindings), args)
  {
    var types := TypesOf(params);
    var env := ParamEnv(types, bindings);
    ScopeBound(C.Scope({}, map[]), params, bindings);
    forall name: string, r: Reading | name !in args && env(name, r).Some?
      ensures OptionFits(C.TypeOfName(s, name), ValueBytes(env(name, r).value))
    {
      ValueFits(bindings[name], types[name], r != Elsewhere);
    }
  }

  lemma ValueFits(value: ParamValue, ty: TypeName, asScript: bool)
    requires ValidParam(ty, value)
    ensures OptionFits(Some(ty), ValueBytes(ToValue(value, ty, asScript).value))
  {
    if value.IntegerParam? { IntegerFits(value.n); }
  }
}
