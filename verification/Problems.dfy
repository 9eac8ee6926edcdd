/** Which problems the checker reports: for each of them, the mistake it stands for
    (compiler/semantic/src/checker.rs). */
module Problems {
  import opened Wrappers
  import opened ScriptNumbers
  import opened Syntax
  import opened Traversal
  import opened Checker

  // ---- mistakes in expressions ----

  /** The parts of an expression that are checked: not those inside the arguments of calls that take
      literals, and not the arguments of a call with too many or too few. */
  function Examined(e: Expr): seq<Expr>
    decreases e, 2
  {
    [e] + ExaminedInside(e)
  }

  function ExaminedInside(e: Expr): seq<Expr>
    decreases e, 1
  {
    match e
    case Array(elements, _) => AllExamined(elements)
    case Unary(_, operand, _) => Examined(operand)
    case Binary(left, _, right, _) => Examined(left) + Examined(right)
    case Call(_, _, _) => ExaminedInCall(e)
    case Field(target, field, _) =>
      if target.Name? && (target.ident.name == "block" || target.ident.name == "sequencing"
                          || (target.ident.name == "covenant_id" && field.name == "depth")) then []
      else Examined(target)
    case _ => []
  }

  function ExaminedInCall(e: Expr): seq<Expr>
    requires e.Call?
    decreases e, 0
  {
    if e.callee.Field? && e.callee.field.name == "verify" then
      Examined(e.callee.target) + if |e.args| == 1 then Examined(e.args[0]) else []
    else if Calls(e, {"input", "output", "continuation"}) then []
    else if Calls(e, {"zk_verify", "sha256", "blake2b", "hash160"}) then if |e.args| == 1 then Examined(e.args[0]) else []
    else if Calls(e, {"multisig"}) then if |e.args| == 3 then AllExamined(e.args) else []
    else Examined(e.callee) + AllExamined(e.args)
  }

  function AllExamined(es: seq<Expr>): seq<Expr>
    decreases es, 3
  {
    if es == [] then [] else Examined(es[0]) + AllExamined(es[1..])
  }

  /** A call of one of the given built-ins. */
  predicate Calls(e: Expr, names: set<string>) { e.Call? && e.callee.Name? && e.callee.ident.name in names }

  predicate Verifies(e: Expr) { e.Call? && e.callee.Field? && e.callee.field.name == "verify" }

  const BUILTINS := {"block", "covenant_id", "sequencing", "input_count", "output_count", "input", "output", "multisig",
                     "zk_verify", "sha256", "blake2b", "hash160"}

  predicate Letter(c: char) { 'a' <= c <= 'z' || 'A' <= c <= 'Z' }

  predicate Label(text: string) {
    text != "" && (text[0] == '_' || Letter(text[0]))
    && forall i :: 0 <= i < |text| ==> text[i] == '_' || text[i] == '-' || Letter(text[i]) || '0' <= text[i] <= '9'
  }

  predicate NamesOutput(e: Expr) {
    Calls(e, {"output"}) && |e.args| == 1 && e.args[0].Integer? && e.args[0].value <= 0xFFFF_FFFF
  }

  /** The mistake in an expression that a problem stands for. */
  predicate Commits(s: Scope, x: Expr, p: Problem) {
    match p
    case SpendReferenced => x.Name? && x.ident.name in s.spends
    case Undefined => x.Name? && x.ident.name !in s.spends && x.ident.name !in s.types && x.ident.name !in BUILTINS
    case NotNeedsBool => x.Unary? && x.uop.Not? && TypeOf(s, x.operand) != Some(BoolType)
    case LogicNeedsBool =>
      x.Binary? && (x.op.And? || x.op.Or?) && (TypeOf(s, x.left) != Some(BoolType) || TypeOf(s, x.right) != Some(BoolType))
    case VerifyReceiver => Verifies(x) && TypeOf(s, x.callee.target) != Some(SignatureType)
    case VerifyArity => Verifies(x) && |x.args| != 1
    case VerifyArgument => Verifies(x) && |x.args| == 1 && TypeOf(s, x.args[0]) != Some(KeyType)
    case IndexArity => Calls(x, {"input", "output"}) && |x.args| != 1
    case IndexNotLiteral => Calls(x, {"input", "output"}) && |x.args| == 1 && !x.args[0].Integer?
    case IndexTooLarge =>
      Calls(x, {"input", "output"}) && |x.args| == 1 && x.args[0].Integer? && x.args[0].value > 0xFFFF_FFFF
    case ContinuationArity => Calls(x, {"continuation"}) && |x.args| != 2
    case ContinuationNotText => Calls(x, {"continuation"}) && |x.args| == 2 && !x.args[0].Text?
    case ContinuationLabel => Calls(x, {"continuation"}) && |x.args| == 2 && x.args[0].Text? && !Label(x.args[0].text)
    case ContinuationOutput => Calls(x, {"continuation"}) && |x.args| == 2 && !NamesOutput(x.args[1])
    case ProofArity => Calls(x, {"zk_verify"}) && |x.args| != 1
    case ProofArgument => Calls(x, {"zk_verify"}) && |x.args| == 1 && TypeOf(s, x.args[0]) != Some(ProofType)
    case MultisigArity => Calls(x, {"multisig"}) && |x.args| != 3
    case MultisigThreshold => Calls(x, {"multisig"}) && |x.args| == 3 && !x.args[0].Integer?
    case MultisigTooMany =>
      Calls(x, {"multisig"}) && |x.args| == 3 && x.args[0].Integer? && x.args[1].Array?
      && x.args[0].value > |x.args[1].elements|
    case HashArity => Calls(x, {"sha256", "blake2b", "hash160"}) && |x.args| != 1
    case BlockField =>
      x.Field? && x.target.Name? && x.target.ident.name == "block" && x.field.name != "height" && x.field.name != "time"
    case UnknownField =>
      x.Field? && !(x.target.Name? && x.target.ident.name in {"block", "sequencing"})
      && !(x.target.Name? && x.target.ident.name == "covenant_id" && x.field.name == "depth")
      && (TypeOf(s, x.target) == Some(InputType) || TypeOf(s, x.target) == Some(OutputType))
      && x.field.name !in {"value", "script", "covenant_id"}
    case _ => false
  }

  ghost predicate Committed(s: Scope, parts: seq<Expr>, p: Problem) {
    exists i :: 0 <= i < |parts| && Commits(s, parts[i], p)
  }

  lemma CommittedConcat(s: Scope, a: seq<Expr>, b: seq<Expr>, p: Problem)
    ensures Committed(s, a + b, p) <==> Committed(s, a, p) || Committed(s, b, p)
  {
    if Committed(s, a, p) {
      var i :| 0 <= i < |a| && Commits(s, a[i], p);
      assert (a + b)[i] == a[i];
    }
    if Committed(s, b, p) {
      var i :| 0 <= i < |b| && Commits(s, b[i], p);
      assert (a + b)[|a| + i] == b[i];
    }
    if Committed(s, a + b, p) {
      var i :| 0 <= i < |a + b| && Commits(s, (a + b)[i], p);
      assert if i < |a| then (a + b)[i] == a[i] else (a + b)[i] == b[i - |a|];
    }
  }

  lemma CommittedOne(s: Scope, e: Expr, p: Problem)
    ensures Committed(s, [e], p) <==> Commits(s, e, p)
  {
    if Commits(s, e, p) { assert [e][0] == e; }
  }

  lemma Also(s: Scope, e: Expr, inside: seq<Expr>, p: Problem)
    ensures Committed(s, [e] + inside, p) <==> Commits(s, e, p) || Committed(s, inside, p)
  {
    CommittedConcat(s, [e], inside, p);
    CommittedOne(s, e, p);
  }

  lemma UnaryMistakes(s: Scope, e: Expr, p: Problem)
    requires e.Unary? && (p in Found(s, e.operand) <==> Committed(s, Examined(e.operand), p))
    ensures p in Found(s, e) <==> Commits(s, e, p) || Committed(s, ExaminedInside(e), p)
  {
  }

  lemma BinaryMistakes(s: Scope, e: Expr, p: Problem)
    requires e.Binary? && (p in Found(s, e.left) <==> Committed(s, Examined(e.left), p))
    requires p in Found(s, e.right) <==> Committed(s, Examined(e.right), p)
    ensures p in Found(s, e) <==> Commits(s, e, p) || Committed(s, ExaminedInside(e), p)
  {
    CommittedConcat(s, Examined(e.left), Examined(e.right), p);
  }

  lemma FieldMistakes(s: Scope, e: Expr, p: Problem)
    requires e.Field? && (!IsBuiltinField(e) ==> (p in Found(s, e.target) <==> Committed(s, Examined(e.target), p)))
    ensures p in Found(s, e) <==> Commits(s, e, p) || Committed(s, ExaminedInside(e), p)
  {
  }

  lemma LeafMistakes(s: Scope, e: Expr, p: Problem)
    requires e.Name? || e.Integer? || e.Text? || e.Truth?
    ensures p in Found(s, e) <==> Commits(s, e, p)
    ensures ExaminedInside(e) == []
  {
  }

  /** What the checker finds in an expression are the mistakes in its parts, each with its own problem. */
  lemma {:induction false} FoundAreMistakes(s: Scope, e: Expr, p: Problem)
    ensures p in Found(s, e) <==> Committed(s, Examined(e), p)
    decreases e, 1
  {
    Also(s, e, ExaminedInside(e), p);
    match e
    case Array(elements, _) => AllFoundAreMistakes(s, elements, p);
    case Unary(_, operand, _) =>
      FoundAreMistakes(s, operand, p);
      UnaryMistakes(s, e, p);
    case Binary(left, _, right, _) =>
      FoundAreMistakes(s, left, p);
      FoundAreMistakes(s, right, p);
      BinaryMistakes(s, e, p);
    case Call(_, _, _) => FoundInCallAreMistakes(s, e, p);
    case Field(target, _, _) =>
      if !IsBuiltinField(e) { FoundAreMistakes(s, target, p); }
      FieldMistakes(s, e, p);
    case _ => LeafMistakes(s, e, p);
  }

  lemma ArgumentFound(s: Scope, args: seq<Expr>, wanted: Option<TypeName>, arity: Problem, argument: Problem, p: Problem)
    ensures p in FoundInArgument(s, args, wanted, arity, argument) <==>
            if |args| != 1 then p == arity
            else p in Found(s, args[0]) || (p == argument && wanted.Some? && TypeOf(s, args[0]) != wanted)
  {
  }

  lemma VerifyFound(s: Scope, e: Expr, found: seq<Problem>, argument: seq<Problem>, p: Problem)
    requires Verifies(e) && Same(found, FoundInCall(s, e))
    requires Same(argument, FoundInArgument(s, e.args, Some(KeyType), VerifyArity, VerifyArgument))
    ensures p in found <==> p in Found(s, e.callee.target) || (p == VerifyReceiver && TypeOf(s, e.callee.target) != Some(SignatureType))
                            || p in argument
  {
  }

  lemma VerifyCommits(s: Scope, e: Expr, p: Problem)
    requires Verifies(e)
    ensures Commits(s, e, p) <==>
            (p == VerifyReceiver && TypeOf(s, e.callee.target) != Some(SignatureType))
            || (p == VerifyArity && |e.args| != 1)
            || (p == VerifyArgument && |e.args| == 1 && TypeOf(s, e.args[0]) != Some(KeyType))
  {
  }

  lemma VerifyMistakes(s: Scope, e: Expr, p: Problem)
    requires Verifies(e) && (p in Found(s, e.callee.target) <==> Committed(s, Examined(e.callee.target), p))
    requires |e.args| == 1 ==> (p in Found(s, e.args[0]) <==> Committed(s, Examined(e.args[0]), p))
    ensures p in FoundInCall(s, e) <==> Commits(s, e, p) || Committed(s, ExaminedInCall(e), p)
  {
    var argument := FoundInArgument(s, e.args, Some(KeyType), VerifyArity, VerifyArgument);
    VerifyFound(s, e, FoundInCall(s, e), argument, p);
    ArgumentFound(s, e.args, Some(KeyType), VerifyArity, VerifyArgument, p);
    VerifyCommits(s, e, p);
    CommittedConcat(s, Examined(e.callee.target), if |e.args| == 1 then Examined(e.args[0]) else [], p);
  }

  lemma LiteralMistakes(s: Scope, e: Expr, p: Problem)
    requires Calls(e, {"input", "output", "continuation"})
    ensures p in FoundInCall(s, e) <==> Commits(s, e, p)
    ensures ExaminedInCall(e) == []
  {
    if Calls(e, {"continuation"}) { LabelAgrees(e); }
  }

  lemma ArgumentMistakes(s: Scope, e: Expr, p: Problem)
    requires Calls(e, {"zk_verify", "sha256", "blake2b", "hash160"})
    requires |e.args| == 1 ==> (p in Found(s, e.args[0]) <==> Committed(s, Examined(e.args[0]), p))
    ensures p in FoundInCall(s, e) <==> Commits(s, e, p) || Committed(s, ExaminedInCall(e), p)
  {
  }

  lemma MultisigCommits(s: Scope, e: Expr, p: Problem)
    requires Calls(e, {"multisig"})
    ensures Commits(s, e, p) <==>
            (p == MultisigArity && |e.args| != 3)
            || (|e.args| == 3 && p == MultisigThreshold && !e.args[0].Integer?)
            || (|e.args| == 3 && p == MultisigTooMany && e.args[0].Integer? && e.args[1].Array? && e.args[0].value > |e.args[1].elements|)
  {
  }

  lemma MultisigFound(s: Scope, args: seq<Expr>, p: Problem)
    ensures p in FoundInMultisig(s, args) <==>
            (p == MultisigArity && |args| != 3)
            || (|args| == 3 && p == MultisigThreshold && !args[0].Integer?)
            || (|args| == 3 && p == MultisigTooMany && args[0].Integer? && args[1].Array? && args[0].value > |args[1].elements|)
            || (|args| == 3 && p in AllFound(s, args))
  {
  }

  lemma MultisigMistakes(s: Scope, e: Expr, p: Problem)
    requires Calls(e, {"multisig"})
    requires |e.args| == 3 ==> (p in AllFound(s, e.args) <==> Committed(s, AllExamined(e.args), p))
    ensures p in FoundInCall(s, e) <==> Commits(s, e, p) || Committed(s, ExaminedInCall(e), p)
  {
    MultisigCommits(s, e, p);
    MultisigFound(s, e.args, p);
  }

  predicate OtherCall(e: Expr) {
    e.Call? && !Verifies(e)
    && !Calls(e, {"input", "output", "continuation", "zk_verify", "sha256", "blake2b", "hash160", "multisig"})
  }

  lemma OtherMistakes(s: Scope, e: Expr, p: Problem)
    requires OtherCall(e) && (p in Found(s, e.callee) <==> Committed(s, Examined(e.callee), p))
    requires p in AllFound(s, e.args) <==> Committed(s, AllExamined(e.args), p)
    ensures p in FoundInCall(s, e) <==> Committed(s, ExaminedInCall(e), p)
    ensures !Commits(s, e, p)
  {
    CommittedConcat(s, Examined(e.callee), AllExamined(e.args), p);
  }

  lemma {:induction false} FoundInCallAreMistakes(s: Scope, e: Expr, p: Problem)
    requires e.Call?
    ensures p in FoundInCall(s, e) <==> Commits(s, e, p) || Committed(s, ExaminedInCall(e), p)
    decreases e, 0
  {
    if Verifies(e) {
      FoundAreMistakes(s, e.callee.target, p);
      if |e.args| == 1 { FoundAreMistakes(s, e.args[0], p); }
      VerifyMistakes(s, e, p);
    } else if Calls(e, {"input", "output", "continuation"}) {
      LiteralMistakes(s, e, p);
    } else if Calls(e, {"zk_verify", "sha256", "blake2b", "hash160"}) {
      if |e.args| == 1 { FoundAreMistakes(s, e.args[0], p); }
      ArgumentMistakes(s, e, p);
    } else if Calls(e, {"multisig"}) {
      AllFoundAreMistakes(s, e.args, p);
      MultisigMistakes(s, e, p);
    } else {
      FoundAreMistakes(s, e.callee, p);
      AllFoundAreMistakes(s, e.args, p);
      OtherMistakes(s, e, p);
    }
  }

  lemma {:induction false} AllFoundAreMistakes(s: Scope, es: seq<Expr>, p: Problem)
    ensures p in AllFound(s, es) <==> Committed(s, AllExamined(es), p)
    decreases es, 2
  {
    if es != [] {
      FoundAreMistakes(s, es[0], p);
      AllFoundAreMistakes(s, es[1..], p);
      CommittedConcat(s, Examined(es[0]), AllExamined(es[1..]), p);
    }
  }

  lemma LabelAgrees(e: Expr)
    requires Calls(e, {"continuation"})
    ensures |e.args| == 2 && e.args[0].Text? ==> (Label(e.args[0].text) <==> IsContinuationLabel(e.args[0].text))
    ensures |e.args| == 2 ==> (NamesOutput(e.args[1]) <==> IsOutputCall(e.args[1]))
  {
  }

  // ---- what is collected ----

  predicate GivesIndex(e: Expr, name: string, v: u64) {
    e.Call? && e.callee.Name? && e.callee.ident.name == name && e.args != [] && e.args[0].Integer? && e.args[0].value == v
  }

  predicate GivesName(e: Expr, name: string) {
    e.Call? && e.callee.Name? && e.callee.ident.name == "continuation" && e.args != [] && e.args[0].Text? && e.args[0].text == name
  }

  /** The indexes among some parts are the literal first arguments of calls of the given name. */
  lemma {:induction false} IndexesGiven(name: string, parts: seq<Expr>, v: u64)
    ensures v in Indexes(name, parts) <==> exists i :: 0 <= i < |parts| && GivesIndex(parts[i], name, v)
  {
    if parts != [] {
      var rest := parts[1..];
      IndexesGiven(name, rest, v);
      assert forall i :: 0 < i < |parts| ==> parts[i] == rest[i - 1];
      if i :| 0 <= i < |rest| && GivesIndex(rest[i], name, v) { assert GivesIndex(parts[i + 1], name, v); }
    }
  }

  /** The continuation names among some parts are the literal first arguments of `continuation`. */
  lemma {:induction false} NamesGiven(parts: seq<Expr>, name: string)
    ensures name in ContinuationNames(parts) <==> exists i :: 0 <= i < |parts| && GivesName(parts[i], name)
  {
    if parts != [] {
      var rest := parts[1..];
      NamesGiven(rest, name);
      assert forall i :: 0 < i < |parts| ==> parts[i] == rest[i - 1];
      if i :| 0 <= i < |rest| && GivesName(rest[i], name) { assert GivesName(parts[i + 1], name); }
    }
  }

  lemma {:induction false} LargestIsOne(largest: Option<u64>, values: seq<u64>)
    ensures Largest(largest, values).Some? <==> largest.Some? || values != []
    ensures Largest(largest, values).Some? ==> Largest(largest, values) == largest || Largest(largest, values).value in values
    decreases values
  {
    if values != [] {
      LargestIsOne(if largest.Some? && largest.value >= values[0] then largest else Some(values[0]), values[1..]);
    }
  }

  /** The largest index of inputs, or of outputs, in the requirements: one of them, and no less than any. */
  lemma LargestIndex(es: seq<Expr>, input: bool)
    ensures var (facts, indexes) := if input then (InputFacts(es), Indexes("input", AllParts(es)))
                                    else (OutputFacts(es), Indexes("output", AllParts(es)));
            match facts.maxIndex
            case None => indexes == []
            case Some(largest) => largest in indexes && forall v :: v in indexes ==> v <= largest
  {
    var indexes := Indexes(if input then "input" else "output", AllParts(es));
    LargestIsOne(None, indexes);
    LargestBounds(None, indexes);
  }

  // ---- what is in scope ----

  /** The names of a contract's spends and the types of its parameters, the last one of a name. */
  lemma OuterScopeSays(c: Contract, name: string)
    ensures name in OuterScope(c).spends <==> exists i :: 0 <= i < |c.spends| && c.spends[i].name.name == name
    ensures name in OuterScope(c).types <==> name in ParamNames(c.params)
    ensures forall i :: 0 <= i < |c.params| && c.params[i].name.name == name && name !in ParamNames(c.params[i + 1..]) ==>
              name in OuterScope(c).types && OuterScope(c).types[name] == c.params[i].ty
  {
    ScopeKeepsSpends(Scope(SpendNames(c.spends), map[]), c.params);
    ScopeSays(Scope(SpendNames(c.spends), map[]), c.params, name);
    if i :| 0 <= i < |c.spends| && c.spends[i].name.name == name { assert c.spends[i] in c.spends; }
  }

  lemma {:induction false} ScopeSays(s: Scope, params: seq<Param>, name: string)
    ensures name in ScopeOf(s, params).types <==> name in s.types || name in ParamNames(params)
    ensures name !in ParamNames(params) && name in s.types ==> ScopeOf(s, params).types[name] == s.types[name]
    ensures forall i :: 0 <= i < |params| && params[i].name.name == name && name !in ParamNames(params[i + 1..]) ==>
              name in ScopeOf(s, params).types && ScopeOf(s, params).types[name] == params[i].ty
    decreases params
  {
    if params != [] {
      var rest, next := params[1..], s.Insert(params[0].name.name, params[0].ty);
      ScopeSays(next, rest, name);
      assert ParamNames(params) == [params[0].name.name] + ParamNames(rest);
      forall i | 0 <= i < |params| && params[i].name.name == name && name !in ParamNames(params[i + 1..])
        ensures name in ScopeOf(s, params).types && ScopeOf(s, params).types[name] == params[i].ty
      {
        if i > 0 { assert rest[i - 1] == params[i] && rest[i..] == params[i + 1..]; } else { assert params[1..] == rest; }
      }
    }
  }

  // ---- mistakes in statements ----

  /** A value differs from the first of them all. */
  ghost predicate Conflicts(exact: Option<u64>, values: seq<u64>) {
    exists v :: v in values && FirstValue(exact, values) != Some(v)
  }

  ghost predicate TooLarge(values: seq<u64>) { exists v :: v in values && v > 0xFFFF_FFFF }

  lemma ConflictsConcat(exact: Option<u64>, a: seq<u64>, b: seq<u64>)
    ensures Conflicts(exact, a + b) <==> Conflicts(exact, a) || Conflicts(FirstValue(exact, a), b)
    ensures TooLarge(a + b) <==> TooLarge(a) || TooLarge(b)
  {
    assert forall v :: v in a + b <==> v in a || v in b;
    ValuesConcat(exact, a, b);
  }

  lemma {:induction false} CountProblems(inputs: Option<u64>, outputs: Option<u64>, e: Expr, p: Problem)
    ensures p in FoundInCounts(inputs, outputs, e) <==>
            (p == CountTooLarge && (TooLarge(Counts(CountOfInputs, e)) || TooLarge(Counts(CountOfOutputs, e))))
            || (p == CountConflict && (Conflicts(inputs, Counts(CountOfInputs, e)) || Conflicts(outputs, Counts(CountOfOutputs, e))))
    decreases e
  {
    if e.Binary? && e.op.And? {
      var inputs1, outputs1 := FirstValue(inputs, Counts(CountOfInputs, e.left)), FirstValue(outputs, Counts(CountOfOutputs, e.left));
      CountProblems(inputs, outputs, e.left, p);
      CountProblems(inputs1, outputs1, e.right, p);
      ConflictsConcat(inputs, Counts(CountOfInputs, e.left), Counts(CountOfInputs, e.right));
      ConflictsConcat(outputs, Counts(CountOfOutputs, e.left), Counts(CountOfOutputs, e.right));
    } else if CountConstraint(e).Some? {
      var v := CountConstraint(e).value.1;
      assert v in [v];
      assert forall w :: w in [v] <==> w == v;
    }
  }

  lemma {:induction false} NameProblems(seen: set<string>, names: seq<string>, p: Problem)
    ensures p in FoundInNames(seen, names) <==> p == RepeatedContinuation && !Unseen(seen, names)
    decreases names
  {
    if names != [] {
      NameProblems(seen + {names[0]}, names[1..], p);
      UnseenHead(seen, names);
    }
  }

  /** The mistake in a statement after the requirements `es` that a problem stands for. */
  ghost predicate Misstates(l: Locals, es: seq<Expr>, s: Stmt, p: Problem) {
    Committed(l.scope, Examined(s.expr), p)
    || (p == RepeatedLet && s.Let? && (s.name.name in l.names || s.name.name in l.scope.types))
    || (s.Require? && Misrequires(l, es, s.expr, p))
  }

  ghost predicate Misrequires(l: Locals, es: seq<Expr>, e: Expr, p: Problem) {
    (p == RequireNeedsBool && TypeOf(l.scope, e) != Some(BoolType))
    || (p == CountTooLarge && (TooLarge(Counts(CountOfInputs, e)) || TooLarge(Counts(CountOfOutputs, e))))
    || (p == CountConflict && (Conflicts(InputFacts(es).exact, Counts(CountOfInputs, e))
                               || Conflicts(OutputFacts(es).exact, Counts(CountOfOutputs, e))))
    || (p == RepeatedContinuation && !Unseen((set n | n in ContinuationNames(AllParts(es))), ContinuationNames(Parts(e))))
  }

  lemma RequirementProblems(l: Locals, es: seq<Expr>, e: Expr, p: Problem)
    ensures p in FoundInRequirement(TypeOf(l.scope, e), es, e) <==> Misrequires(l, es, e, p)
  {
    CountProblems(InputFacts(es).exact, OutputFacts(es).exact, e, p);
    NameProblems((set n | n in ContinuationNames(AllParts(es))), ContinuationNames(Parts(e)), p);
  }

  /** What the checker finds in a statement are the mistakes in it. */
  lemma StmtProblems(l: Locals, es: seq<Expr>, s: Stmt, p: Problem)
    ensures p in FoundInStmt(l, es, s) <==> Misstates(l, es, s, p)
  {
    FoundAreMistakes(l.scope, s.expr, p);
    if s.Require? { RequirementProblems(l, es, s.expr, p); }
  }

  /** What is in scope before the statement at `i`. */
  function LocalsAt(l: Locals, body: seq<Stmt>, i: nat): Locals
    requires i <= |body|
    decreases i
  {
    if i == 0 then l else LocalsAt(AfterStmt(l, body[0]), body[1..], i - 1)
  }

  ghost predicate MisstatedAt(l: Locals, es: seq<Expr>, body: seq<Stmt>, i: nat, p: Problem)
    requires i < |body|
  {
    Misstates(LocalsAt(l, body, i), es + Requirements(body[..i]), body[i], p)
  }

  lemma LaterStmt(l: Locals, es: seq<Expr>, body: seq<Stmt>, i: nat, p: Problem)
    requires 0 < i < |body|
    ensures MisstatedAt(l, es, body, i, p) <==> MisstatedAt(AfterStmt(l, body[0]), Further(es, body[0]), body[1..], i - 1, p)
  {
    var head := if body[0].Require? then [body[0].expr] else [];
    assert body[..i][0] == body[0] && body[..i][1..] == body[1..][..i - 1];
    ConcatAssociates(es, head, Requirements(body[1..][..i - 1]));
    assert es + [] == es;
  }

  lemma {:induction false} BodyProblems(l: Locals, es: seq<Expr>, body: seq<Stmt>, p: Problem)
    ensures p in FoundInBody(l, es, body) <==> exists i :: 0 <= i < |body| && MisstatedAt(l, es, body, i, p)
    decreases body
  {
    if body != [] {
      var next, more, rest := AfterStmt(l, body[0]), Further(es, body[0]), body[1..];
      StmtProblems(l, es, body[0], p);
      BodyProblems(next, more, rest, p);
      assert body[..0] == [] && es + [] == es;
      assert MisstatedAt(l, es, body, 0, p) <==> p in FoundInStmt(l, es, body[0]);
      forall i | 0 < i < |body| ensures MisstatedAt(l, es, body, i, p) <==> MisstatedAt(next, more, rest, i - 1, p) {
        LaterStmt(l, es, body, i, p);
      }
      if p in FoundInBody(next, more, rest) {
        var i :| 0 <= i < |rest| && MisstatedAt(next, more, rest, i, p);
        assert MisstatedAt(l, es, body, i + 1, p);
      }
    }
  }

  // ---- mistakes in spends ----

  predicate Twice(names: seq<string>) { exists i, j :: 0 <= i < j < |names| && names[i] == names[j] }

  lemma {:induction false} ParamProblems(outer: Scope, l: Locals, params: seq<Param>, p: Problem)
    ensures p in FoundInParams(outer, l, params) <==>
            (p == ShadowedParam && exists i :: 0 <= i < |params| && params[i].name.name in outer.types)
            || (p == RepeatedParam && !Unseen(l.names, ParamNames(params)))
    decreases params
  {
    if params != [] {
      var rest := params[1..];
      ParamProblems(outer, l.Declare(params[0].name.name, Some(params[0].ty)), rest, p);
      UnseenHead(l.names, ParamNames(params));
      assert ParamNames(params)[1..] == ParamNames(rest);
      assert forall i :: 0 < i < |params| ==> params[i] == rest[i - 1];
      if i :| 0 <= i < |rest| && rest[i].name.name in outer.types { assert params[i + 1] == rest[i]; }
    }
  }

  predicate DeepEnough(contract: Contract) { contract.finalityDepth.Depth? && contract.finalityDepth.blocks > 0 }

  /** Some statement has the name somewhere in its expression, by itself or as a field. */
  ghost predicate Names(body: seq<Stmt>, name: string) {
    exists s, p :: s in body && p in Parts(s.expr) && ((p.Name? && p.ident.name == name) || (p.Field? && p.field.name == name))
  }

  lemma UsesAgree(body: seq<Stmt>, name: string)
    ensures SpendUsesName(body, name) <==> Names(body, name)
  {
  }

  /** The mistake in a spend that a problem stands for. */
  ghost predicate Misspends(contract: Contract, spend: Spend, outer: Scope, p: Problem) {
    (p == ShadowedParam && exists i :: 0 <= i < |spend.params| && spend.params[i].name.name in outer.types)
    || (p == RepeatedParam && Twice(ParamNames(spend.params)))
    || (p == NoRequire && forall i :: 0 <= i < |spend.body| ==> !spend.body[i].Require?)
    || (p == NeedsFinalityDepth && Names(spend.body, "covenant_id") && !DeepEnough(contract))
    || (p == CountBelowIndex && (BelowIndex(InputFacts(Requirements(spend.body))) || BelowIndex(OutputFacts(Requirements(spend.body)))))
    || Misbodies(AfterParams(Locals(outer, {}), spend.params), spend.body, p)
  }

  /** Some statement of a body is mistaken. */
  ghost predicate Misbodies(l: Locals, body: seq<Stmt>, p: Problem) {
    exists i :: 0 <= i < |body| && MisstatedAt(l, [], body, i, p)
  }

  /** A fixed count does not exceed the largest index. */
  predicate BelowIndex(facts: CountFacts) { facts.exact.Some? && facts.maxIndex.Some? && facts.exact.value <= facts.maxIndex.value }

  lemma {:induction false} NoRequirement(body: seq<Stmt>)
    ensures Requirements(body) == [] <==> forall i :: 0 <= i < |body| ==> !body[i].Require?
  {
    if body != [] {
      NoRequirement(body[1..]);
      assert body == [body[0]] + body[1..];
    }
  }

  lemma PartsOfSpend(contract: Contract, spend: Spend, outer: Scope, l: Locals, requirements: seq<Expr>, p: Problem)
    requires Same(l, AfterParams(Locals(outer, {}), spend.params)) && requirements == Requirements(spend.body)
    ensures p in FoundInSpend(contract, spend, outer) <==>
            p in FoundInParams(outer, Locals(outer, {}), spend.params) || p in FoundInBody(l, [], spend.body)
            || (p == NoRequire && requirements == [])
            || (p == NeedsFinalityDepth && SpendUsesName(spend.body, "covenant_id") && !DeepEnough(contract))
            || (p == CountBelowIndex && (BelowIndex(InputFacts(requirements)) || BelowIndex(OutputFacts(requirements))))
  {
  }

  lemma BodyMistakes(l: Locals, body: seq<Stmt>, p: Problem)
    ensures p in FoundInBody(l, [], body) <==> Misbodies(l, body, p)
  {
    BodyProblems(l, [], body, p);
  }

  /** What the checker reports of a spend are the mistakes in it. */
  lemma SpendProblems(contract: Contract, spend: Spend, outer: Scope, l: Locals, p: Problem)
    requires Same(l, AfterParams(Locals(outer, {}), spend.params))
    ensures p in FoundInSpend(contract, spend, outer) <==> Misspends(contract, spend, outer, p)
  {
    PartsOfSpend(contract, spend, outer, l, Requirements(spend.body), p);
    ParamProblems(outer, Locals(outer, {}), spend.params, p);
    BodyMistakes(l, spend.body, p);
    NoRequirement(spend.body);
    UsesAgree(spend.body, "covenant_id");
  }

  // ---- mistakes in programs ----

  lemma {:induction false} ContractParamProblems(s: Scope, params: seq<Param>, p: Problem)
    ensures p in FoundInContractParams(s, params) <==> p == RepeatedContractParam && !Unseen(s.types.Keys, ParamNames(params))
    decreases params
  {
    if params != [] {
      var next := s.Insert(params[0].name.name, params[0].ty);
      ContractParamProblems(next, params[1..], p);
      UnseenHead(s.types.Keys, ParamNames(params));
      assert next.types.Keys == s.types.Keys + {params[0].name.name};
      assert ParamNames(params)[1..] == ParamNames(params[1..]);
    }
  }

  ghost predicate InSome(found: seq<seq<Problem>>, p: Problem) { exists i :: 0 <= i < |found| && p in found[i] }

  lemma InSomeHead(found: seq<seq<Problem>>, rest: seq<seq<Problem>>, p: Problem)
    requires found != [] && rest == found[1..]
    ensures InSome(found, p) <==> p in found[0] || InSome(rest, p)
  {
    assert forall i :: 0 < i < |found| ==> found[i] == rest[i - 1];
    if i :| 0 <= i < |rest| && p in rest[i] { assert p in found[i + 1]; }
  }

  lemma InThree(all: seq<Problem>, a: seq<Problem>, b: seq<Problem>, c: seq<Problem>, p: Problem)
    requires Same(all, a + b + c)
    ensures p in all <==> p in a || p in b || p in c
  {
  }

  lemma NamedHead(seen: set<string>, later: set<string>, names: seq<string>, found: seq<seq<Problem>>, repeated: Problem, p: Problem)
    requires |names| == |found| && names != [] && later == seen + {names[0]}
    ensures p in FoundInNamed(seen, names, found, repeated) <==>
            (p == repeated && names[0] in seen) || p in found[0] || p in FoundInNamed(later, names[1..], found[1..], repeated)
  {
    InThree(FoundInNamed(seen, names, found, repeated), When(names[0] in seen, repeated), found[0],
            FoundInNamed(later, names[1..], found[1..], repeated), p);
  }

  lemma {:induction false} NamedProblems(seen: set<string>, names: seq<string>, found: seq<seq<Problem>>, repeated: Problem, p: Problem)
    requires |names| == |found|
    ensures p in FoundInNamed(seen, names, found, repeated) <==> (p == repeated && !Unseen(seen, names)) || InSome(found, p)
    decreases names
  {
    if names != [] {
      var later := seen + {names[0]};
      NamedProblems(later, names[1..], found[1..], repeated, p);
      UnseenHead(seen, names);
      InSomeHead(found, found[1..], p);
      NamedHead(seen, later, names, found, repeated, p);
    }
  }

  /** The mistake in a contract that a problem stands for. */
  ghost predicate Miscontracts(c: Contract, p: Problem) {
    (p == ZeroFinalityDepth && c.finalityDepth == Depth(0)) || (p == RepeatedContractParam && Twice(ParamNames(c.params)))
    || (p == RepeatedSpend && Twice(NamesOfSpends(c.spends)))
    || MisspendsAny(c, OuterScope(c), p)
  }

  /** Some spend of a contract is mistaken. */
  ghost predicate MisspendsAny(c: Contract, outer: Scope, p: Problem) {
    exists i :: 0 <= i < |c.spends| && Misspends(c, c.spends[i], outer, p)
  }

  lemma SpendFound(c: Contract, spend: Spend, outer: Scope, found: seq<Problem>, p: Problem)
    requires Same(found, FoundInSpend(c, spend, outer))
    ensures p in found <==> Misspends(c, spend, outer, p)
  {
    SpendProblems(c, spend, outer, AfterParams(Locals(outer, {}), spend.params), p);
  }

  lemma SpendsFound(c: Contract, outer: Scope, found: seq<seq<Problem>>, p: Problem)
    requires Same(found, FoundInEach(c, outer, c.spends))
    ensures InSome(found, p) <==> MisspendsAny(c, outer, p)
  {
    forall i | 0 <= i < |c.spends| ensures p in found[i] <==> Misspends(c, c.spends[i], outer, p) {
      SpendFound(c, c.spends[i], outer, found[i], p);
    }
  }

  lemma SpendsOfContract(c: Contract, outer: Scope, found: seq<seq<Problem>>, p: Problem)
    requires Same(found, FoundInEach(c, outer, c.spends))
    ensures p in FoundInSpends(c, outer) <==> (p == RepeatedSpend && Twice(NamesOfSpends(c.spends))) || InSome(found, p)
  {
    NamedProblems({}, NamesOfSpends(c.spends), found, RepeatedSpend, p);
  }

  lemma PartsOfContract(c: Contract, outer: Scope, found: seq<seq<Problem>>, params: seq<Problem>, spends: seq<Problem>, p: Problem)
    requires Same(outer, OuterScope(c)) && Same(found, FoundInEach(c, outer, c.spends))
    requires Same(params, FoundInContractParams(Scope(SpendNames(c.spends), map[]), c.params)) && Same(spends, FoundInSpends(c, outer))
    ensures p in FoundInContract(c) <==>
            (p == ZeroFinalityDepth && c.finalityDepth == Depth(0)) || (p == RepeatedContractParam && Twice(ParamNames(c.params)))
            || (p == RepeatedSpend && Twice(NamesOfSpends(c.spends))) || InSome(found, p)
  {
    ContractParamProblems(Scope(SpendNames(c.spends), map[]), c.params, p);
    SpendsOfContract(c, outer, found, p);
    InThree(FoundInContract(c), When(c.finalityDepth == Depth(0), ZeroFinalityDepth), params, spends, p);
  }

  lemma ContractProblems(c: Contract, outer: Scope, p: Problem)
    requires Same(outer, OuterScope(c))
    ensures p in FoundInContract(c) <==> Miscontracts(c, p)
  {
    var found := FoundInEach(c, outer, c.spends);
    var params := FoundInContractParams(Scope(SpendNames(c.spends), map[]), c.params);
    PartsOfContract(c, outer, found, params, FoundInSpends(c, outer), p);
    SpendsFound(c, outer, found, p);
  }

  lemma ContractFound(c: Contract, found: seq<Problem>, p: Problem)
    requires Same(found, FoundInContract(c))
    ensures p in found <==> Miscontracts(c, p)
  {
    ContractProblems(c, OuterScope(c), p);
  }

  lemma PartsOfProgram(contracts: seq<Contract>, found: seq<seq<Problem>>, p: Problem)
    requires Same(found, FoundInContracts(contracts))
    ensures p in FoundInProgram(contracts) <==> (p == RepeatedContract && Twice(NamesOfContracts(contracts))) || InSome(found, p)
  {
    NamedProblems({}, NamesOfContracts(contracts), found, RepeatedContract, p);
  }

  ghost predicate MiscontractsAny(contracts: seq<Contract>, p: Problem) {
    exists i :: 0 <= i < |contracts| && Miscontracts(contracts[i], p)
  }

  lemma ContractsFound(contracts: seq<Contract>, found: seq<seq<Problem>>, p: Problem)
    requires Same(found, FoundInContracts(contracts))
    ensures InSome(found, p) <==> MiscontractsAny(contracts, p)
  {
    forall i | 0 <= i < |contracts| ensures p in found[i] <==> Miscontracts(contracts[i], p) {
      ContractFound(contracts[i], found[i], p);
    }
  }

  /** Every problem the checker reports of a program stands for a mistake in it, and every mistake is
      reported by its own problem. */
  lemma ProgramProblems(contracts: seq<Contract>, p: Problem)
    ensures p in FoundInProgram(contracts) <==>
            (p == RepeatedContract && Twice(NamesOfContracts(contracts))) || MiscontractsAny(contracts, p)
  {
    PartsOfProgram(contracts, FoundInContracts(contracts), p);
    ContractsFound(contracts, FoundInContracts(contracts), p);
  }
}
