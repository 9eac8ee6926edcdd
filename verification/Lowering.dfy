/** Lowering of checked syntax trees to stack code (compiler/ir/src/gen.rs). */
module Lowering {
  import opened Wrappers
  import opened ScriptNumbers
  import opened Syntax
  import opened Instructions

  datatype LowerError =
    | NumericNegation
    | IndexNotLiteral
    | IndexTooLarge
    | ContinuationNeedsOutput
    | ThresholdNotLiteral
    | ThresholdTooLarge
    | UnknownField

  type Lowered = Result<Code, LowerError>

  // ---- specification: the code of an expression ----

  function BinaryInstr(op: BinaryOp): Instr {
    match op
    case Or => Instr.Or
    case And => Instr.And
    case Equal => Instr.Equal
    case NotEqual => Instr.NotEqual
    case Greater => GreaterThan
    case GreaterEqual => GreaterThanOrEqual
    case Less => LessThan
    case LessEqual => LessThanOrEqual
    case Add => Instr.Add
    case Sub => Instr.Sub
    case Mul => Instr.Mul
    case Div => Instr.Div
    case Mod => Instr.Mod
  }

  function NameInstr(name: string): Instr {
    if name == "input_count" then InputCount
    else if name == "output_count" then OutputCount
    else Push(SymbolValue(name))
  }

  function Lower(e: Expr): Lowered
    decreases e, 1
  {
    match e
    case Name(ident) => Success([NameInstr(ident.name)])
    case Integer(value, _) => Success([Push(IntegerValue(value))])
    case Text(text, _) => Success([Push(TextValue(text))])
    case Truth(truth, _) => Success([Push(BoolValue(truth))])
    case Array(elements, _) => LowerAll(elements)
    case Unary(uop, operand, _) =>
      var code :- Lower(operand);
      if uop.Not? then Success(code + [Instr.Not]) else Failure(NumericNegation)
    case Binary(_, _, _, _) => LowerBinary(e)
    case Call(_, _, _) => LowerCall(e)
    case Field(_, _, _) => LowerField(e)
  }

  function LowerAll(es: seq<Expr>): Lowered
    decreases es, 0
  {
    if es == [] then Success([])
    else
      var first :- Lower(es[0]);
      var rest :- LowerAll(es[1..]);
      Success(first + rest)
  }

  function LowerBinary(e: Expr): Lowered
    requires e.Binary?
    decreases e, 0
  {
    if IsLockTest(e) then
      var isHeight := Path(e.left) == ["block", "height"];
      if e.right.Integer? then
        Success([if isHeight then CheckLockHeight(e.right.value) else CheckLockTime(e.right.value)])
      else
        var code :- Lower(e.right);
        Success(code + [if isHeight then CheckLockHeightFromStack else CheckLockTimeFromStack])
    else
      var l :- Lower(e.left);
      var r :- Lower(e.right);
      Success(l + r + [BinaryInstr(e.op)])
  }

  function LowerFirst(es: seq<Expr>): Lowered
    decreases es, 1
  {
    if es == [] then Success([]) else Lower(es[0])
  }

  function LowerCall(e: Expr): Lowered
    requires e.Call?
    decreases e, 0
  {
    if e.callee.Field? && e.callee.field.name == "verify" then
      var target :- Lower(e.callee.target);
      var key :- LowerFirst(e.args);
      Success(target + key + [CheckSig(0)])
    else if IsCallOf(e, "input") || IsCallOf(e, "output") then LowerIndexCall(e.args)
    else if IsCallOf(e, "continuation") then LowerContinuation(e.args)
    else if IsCallOf(e, "multisig") then LowerMultisig(e.args)
    else if IsCallOf(e, "zk_verify") then
      var proof :- LowerFirst(e.args);
      Success(proof + [ZkVerifyGroth16])
    else if IsCallOf(e, "sha256") || IsCallOf(e, "blake2b") || IsCallOf(e, "hash160") then
      var value :- LowerFirst(e.args);
      var name := e.callee.ident.name;
      Success(value + [if name == "sha256" then Sha256 else if name == "blake2b" then Blake2b else Hash160])
    else
      var callee :- Lower(e.callee);
      var args :- LowerAll(e.args);
      Success(callee + args)
  }

  function LowerIndexCall(args: seq<Expr>): Lowered {
    if args == [] || !args[0].Integer? then Failure(IndexNotLiteral)
    else if args[0].value > U32_MAX then Failure(IndexTooLarge)
    else Success([Push(IntegerValue(args[0].value))])
  }

  function LowerContinuation(args: seq<Expr>): Lowered {
    if |args| < 2 || !IsOutputCall(args[1]) then Failure(ContinuationNeedsOutput)
    else Success([OutputCount, Push(IntegerValue(args[1].args[0].value)), GreaterThan])
  }

  function KeyCount(args: seq<Expr>): u32 {
    if |args| > 1 && args[1].Array? then |args[1].elements| % (U32_MAX + 1) else 0
  }

  function LowerMultisig(args: seq<Expr>): Lowered
    decreases args, 2
  {
    if args == [] || !args[0].Integer? then Failure(ThresholdNotLiteral)
    else if args[0].value > U32_MAX then Failure(ThresholdTooLarge)
    else
      var signatures :- if |args| > 2 then Lower(args[2]) else Success([]);
      var keys :- if |args| > 1 then Lower(args[1]) else Success([]);
      Success(signatures + [Push(IntegerValue(args[0].value))] + keys + [CheckMultiSig(args[0].value, KeyCount(args))])
  }

  function LowerField(e: Expr): Lowered
    requires e.Field?
    decreases e, 0
  {
    var field := e.field.name;
    if IsCallOf(e.target, "input") || IsCallOf(e.target, "output") then
      var args := e.target.args;
      var isInput := e.target.callee.ident.name == "input";
      if args == [] || !args[0].Integer? then Failure(IndexNotLiteral)
      else if args[0].value > U32_MAX then Failure(IndexTooLarge)
      else if field == "value" then
        Success([if isInput then InputValue(args[0].value) else OutputValue(args[0].value)])
      else if field == "script" then
        Success([if isInput then InputScript(args[0].value) else OutputScript(args[0].value)])
      else if field == "covenant_id" then Success([CovenantId])
      else Failure(UnknownField)
    else if Path(e.target) == ["covenant_id"] && field == "depth" then Success([CovenantDepth])
    else if Path(e.target) == ["sequencing"] then Success([SequencingCommitment])
    else
      var target :- Lower(e.target);
      Success(target + [Push(SymbolValue(field))])
  }

  function LowerStmt(s: Stmt): Lowered {
    var code :- Lower(s.expr);
    match s
    case Let(name, _, _) => Success(code + [Push(SymbolValue(name.name))])
    case Require(_, _) => Success(code + [Verify])
    case Return(_, _) => Success(code)
  }

  /** The code of a spend body. */
  function LowerBody(body: seq<Stmt>): Lowered {
    if body == [] then Success([])
    else
      var first :- LowerStmt(body[0]);
      var rest :- LowerBody(body[1..]);
      Success(first + rest)
  }

  // ---- the lowering passes, appending to a shared buffer ----

  /** What a pass appends to the buffer, given what its input lowers to. */
  ghost predicate Appended(spec: Lowered, before: Code, after: Code, r: Outcome<LowerError>) {
    match spec
    case Success(code) => r.Pass? && after == before + code
    case Failure(error) => r == Fail(error)
  }

  /** A loop over a list has produced `done`; what is left lowers to `todo`. */
  ghost predicate Pending(whole: Lowered, done: Code, todo: Lowered) {
    if todo.Failure? then whole == todo else whole.Success? && whole.value == done + todo.value
  }

  method LowerExpr(e: Expr, out: Vec<Instr>) returns (r: Outcome<LowerError>)
    modifies out
    ensures Appended(Lower(e), old(out.items), out.items, r)
    decreases e, 1
  {
    match e
    case Name(ident) =>
      if ident.name == "input_count" {
        out.Push(InputCount);
      } else if ident.name == "output_count" {
        out.Push(OutputCount);
      } else {
        out.Push(Push(SymbolValue(ident.name)));
      }
      return Pass;
    case Integer(value, _) =>
      out.Push(Push(IntegerValue(value)));
      return Pass;
    case Text(text, _) =>
      out.Push(Push(TextValue(text)));
      return Pass;
    case Truth(truth, _) =>
      out.Push(Push(BoolValue(truth)));
      return Pass;
    case Array(elements, _) =>
      r := LowerExprs(elements, out);
    case Unary(uop, operand, _) =>
      r := LowerExpr(operand, out);
      if r.Fail? { return; }
      if uop.Negate? { return Fail(NumericNegation); }
      out.Push(Instr.Not);
    case Binary(_, _, _, _) =>
      r := LowerBinaryExpr(e, out);
    case Call(_, _, _) =>
      r := LowerCallExpr(e, out);
    case Field(_, _, _) =>
      r := LowerFieldExpr(e, out);
  }

  method LowerExprs(es: seq<Expr>, out: Vec<Instr>) returns (r: Outcome<LowerError>)
    modifies out
    ensures Appended(LowerAll(es), old(out.items), out.items, r)
    decreases es, 0
  {
    ghost var done: Code := [];
    assert es[0..] == es;
    for i := 0 to |es|
      invariant out.items == old(out.items) + done
      invariant Pending(LowerAll(es), done, LowerAll(es[i..]))
    {
      assert es[i..][0] == es[i] && es[i..][1..] == es[i + 1..];
      r := LowerExpr(es[i], out);
      if r.Fail? { return; }
      done := done + Lower(es[i]).value;
    }
    return Pass;
  }

  method LowerFirstExpr(es: seq<Expr>, out: Vec<Instr>) returns (r: Outcome<LowerError>)
    modifies out
    ensures Appended(LowerFirst(es), old(out.items), out.items, r)
    decreases es, 1
  {
    r := Pass;
    if es != [] {
      r := LowerExpr(es[0], out);
    }
  }

  method LowerBinaryExpr(e: Expr, out: Vec<Instr>) returns (r: Outcome<LowerError>)
    requires e.Binary?
    modifies out
    ensures Appended(LowerBinary(e), old(out.items), out.items, r)
    decreases e, 0
  {
    var special;
    special, r := LowerSpecialBinary(e, out);
    if special || r.Fail? { return; }
    r := LowerExpr(e.left, out);
    if r.Fail? { return; }
    r := LowerExpr(e.right, out);
    if r.Fail? { return; }
    var instr := BinaryInstruction(e.op);
    out.Push(instr);
  }

  method BinaryInstruction(op: BinaryOp) returns (instr: Instr)
    ensures instr == BinaryInstr(op)
  {
    match op
    case Or => return Instr.Or;
    case And => return Instr.And;
    case Equal => return Instr.Equal;
    case NotEqual => return Instr.NotEqual;
    case Greater => return GreaterThan;
    case GreaterEqual => return GreaterThanOrEqual;
    case Less => return LessThan;
    case LessEqual => return LessThanOrEqual;
    case Add => return Instr.Add;
    case Sub => return Instr.Sub;
    case Mul => return Instr.Mul;
    case Div => return Instr.Div;
    case Mod => return Instr.Mod;
  }

  /** Lowers a lock test; leaves any other operator to its caller. */
  method LowerSpecialBinary(e: Expr, out: Vec<Instr>) returns (special: bool, r: Outcome<LowerError>)
    requires e.Binary?
    modifies out
    ensures special == IsLockTest(e)
    ensures special ==> Appended(LowerBinary(e), old(out.items), out.items, r)
    ensures !special ==> out.items == old(out.items) && r.Pass?
    decreases e.right, 2
  {
    if e.op == BinaryOp.GreaterEqual && Path(e.left) == ["block", "height"] {
      if e.right.Integer? {
        out.Push(CheckLockHeight(e.right.value));
      } else {
        r := LowerExpr(e.right, out);
        if r.Fail? { return true, r; }
        out.Push(CheckLockHeightFromStack);
      }
      return true, Pass;
    }
    if e.op == BinaryOp.GreaterEqual && Path(e.left) == ["block", "time"] {
      if e.right.Integer? {
        out.Push(CheckLockTime(e.right.value));
      } else {
        r := LowerExpr(e.right, out);
        if r.Fail? { return true, r; }
        out.Push(CheckLockTimeFromStack);
      }
      return true, Pass;
    }
    return false, Pass;
  }

  method LowerCallExpr(e: Expr, out: Vec<Instr>) returns (r: Outcome<LowerError>)
    requires e.Call?
    modifies out
    ensures Appended(LowerCall(e), old(out.items), out.items, r)
    decreases e, 0
  {
    if e.callee.Field? && e.callee.field.name == "verify" {
      r := LowerExpr(e.callee.target, out);
      if r.Fail? { return; }
      r := LowerFirstExpr(e.args, out);
      if r.Fail? { return; }
      out.Push(CheckSig(0));
      return;
    }
    if e.callee.Name? {
      var name := e.callee.ident.name;
      if name == "input" || name == "output" {
        r := LowerIndexCallExpr(e.args, out);
        return;
      }
      if name == "continuation" {
        r := LowerContinuationExpr(e.args, out);
        return;
      }
      if name == "multisig" {
        r := LowerMultisigExpr(e.args, out);
        return;
      }
      if name == "zk_verify" {
        r := LowerFirstExpr(e.args, out);
        if r.Pass? { out.Push(ZkVerifyGroth16); }
        return;
      }
      if name == "sha256" || name == "blake2b" || name == "hash160" {
        r := LowerFirstExpr(e.args, out);
        if r.Fail? { return; }
        out.Push(if name == "sha256" then Sha256 else if name == "blake2b" then Blake2b else Hash160);
        return;
      }
    }
    r := LowerExpr(e.callee, out);
    if r.Fail? { return; }
    r := LowerExprs(e.args, out);
  }

  method LowerIndexCallExpr(args: seq<Expr>, out: Vec<Instr>) returns (r: Outcome<LowerError>)
    modifies out
    ensures Appended(LowerIndexCall(args), old(out.items), out.items, r)
  {
    if args == [] || !args[0].Integer? { return Fail(IndexNotLiteral); }
    if args[0].value > U32_MAX { return Fail(IndexTooLarge); }
    out.Push(Push(IntegerValue(args[0].value)));
    return Pass;
  }

  method LowerContinuationExpr(args: seq<Expr>, out: Vec<Instr>) returns (r: Outcome<LowerError>)
    modifies out
    ensures Appended(LowerContinuation(args), old(out.items), out.items, r)
  {
    if |args| < 2 || !IsOutputCall(args[1]) { return Fail(ContinuationNeedsOutput); }
    out.Push(OutputCount);
    out.Push(Push(IntegerValue(args[1].args[0].value)));
    out.Push(GreaterThan);
    return Pass;
  }

  method LowerMultisigExpr(args: seq<Expr>, out: Vec<Instr>) returns (r: Outcome<LowerError>)
    modifies out
    ensures Appended(LowerMultisig(args), old(out.items), out.items, r)
    decreases args, 2
  {
    if args == [] || !args[0].Integer? { return Fail(ThresholdNotLiteral); }
    if args[0].value > U32_MAX { return Fail(ThresholdTooLarge); }
    if |args| > 2 {
      r := LowerExpr(args[2], out);
      if r.Fail? { return; }
    }
    out.Push(Push(IntegerValue(args[0].value)));
    if |args| > 1 {
      r := LowerExpr(args[1], out);
      if r.Fail? { return; }
    }
    var keyCount := if |args| > 1 && args[1].Array? then |args[1].elements| % 0x1_0000_0000 else 0;
    out.Push(CheckMultiSig(args[0].value, keyCount));
    return Pass;
  }

  method LowerFieldExpr(e: Expr, out: Vec<Instr>) returns (r: Outcome<LowerError>)
    requires e.Field?
    modifies out
    ensures Appended(LowerField(e), old(out.items), out.items, r)
    decreases e, 0
  {
    var field := e.field.name;
    if IsCallOf(e.target, "input") || IsCallOf(e.target, "output") {
      var args := e.target.args;
      var isInput := e.target.callee.ident.name == "input";
      if args == [] || !args[0].Integer? { return Fail(IndexNotLiteral); }
      var index := args[0].value;
      if index > U32_MAX { return Fail(IndexTooLarge); }
      if field == "value" {
        out.Push(if isInput then InputValue(index) else OutputValue(index));
      } else if field == "script" {
        out.Push(if isInput then InputScript(index) else OutputScript(index));
      } else if field == "covenant_id" {
        out.Push(CovenantId);
      } else {
        return Fail(UnknownField);
      }
      return Pass;
    }
    if Path(e.target) == ["covenant_id"] && field == "depth" {
      out.Push(CovenantDepth);
      return Pass;
    }
    if Path(e.target) == ["sequencing"] {
      out.Push(SequencingCommitment);
      return Pass;
    }
    r := LowerExpr(e.target, out);
    if r.Fail? { return; }
    out.Push(Push(SymbolValue(field)));
  }

  /** Lowers one spend body, statement by statement. */
  method LowerSpendBody(body: seq<Stmt>) returns (r: Lowered)
    ensures r == LowerBody(body)
  {
    var out := new Vec<Instr>();
    ghost var done: Code := [];
    assert body[0..] == body;
    for i := 0 to |body|
      invariant out.items == done && fresh(out)
      invariant Pending(LowerBody(body), done, LowerBody(body[i..]))
    {
      assert body[i..][0] == body[i] && body[i..][1..] == body[i + 1..];
      var status := LowerExpr(body[i].expr, out);
      if status.Fail? { return Failure(status.error); }
      match body[i] {
        case Let(name, _, _) => out.Push(Push(SymbolValue(name.name)));
        case Require(_, _) => out.Push(Verify);
        case Return(_, _) =>
      }
      done := done + LowerStmt(body[i]).value;
    }
    assert done + [] == done;
    return Success(out.items);
  }
}
