/** The KaspaScript abstract syntax tree. */
module Syntax {
  import opened ScriptNumbers

  type u64 = n: nat | n <= U64_MAX
  type u32 = n: nat | n <= U32_MAX

  datatype Span = Span(start: nat, end: nat)

  /** The place of anything that was not read from a file. */
  const NOWHERE := Span(0, 0)

  datatype TypeName =
    | KeyType
    | SignatureType
    | HashType
    | HeightType
    | AmountType
    | BoolType
    | BytesType
    | CovenantIdType
    | ProofType
    | UtxoType
    | OutputType
    | InputType

  datatype UnaryOp = Not | Negate

  datatype BinaryOp =
    | Or
    | And
    | Equal
    | NotEqual
    | Greater
    | GreaterEqual
    | Less
    | LessEqual
    | Add
    | Sub
    | Mul
    | Div
    | Mod

  datatype Ident = Ident(name: string, span: Span)

  datatype Expr =
    | Name(ident: Ident)
    | Integer(value: u64, span: Span)
    | Text(text: string, span: Span)
    | Truth(truth: bool, span: Span)
    | Array(elements: seq<Expr>, span: Span)
    | Unary(uop: UnaryOp, operand: Expr, span: Span)
    | Binary(left: Expr, op: BinaryOp, right: Expr, span: Span)
    | Call(callee: Expr, args: seq<Expr>, span: Span)
    | Field(target: Expr, field: Ident, span: Span)
  {
    /** The source range the expression covers. */
    function Where(): Span { if Name? then ident.span else span }
  }

  datatype Stmt =
    | Let(name: Ident, expr: Expr, span: Span)
    | Require(expr: Expr, span: Span)
    | Return(expr: Expr, span: Span)

  datatype Param = Param(name: Ident, ty: TypeName, span: Span)

  datatype Spend = Spend(name: Ident, params: seq<Param>, body: seq<Stmt>, span: Span)

  datatype FinalityDepth = NoDepth | Depth(blocks: u64)

  datatype Contract = Contract(
    name: Ident, params: seq<Param>, finalityDepth: FinalityDepth, spends: seq<Spend>, span: Span)

  /** The dotted names an expression spells; anything that is not a name contributes nothing. */
  function Path(e: Expr): seq<string> {
    match e
    case Name(ident) => [ident.name]
    case Field(target, field, _) => Path(target) + [field.name]
    case _ => []
  }

  predicate IsCallOf(e: Expr, name: string) {
    e.Call? && e.callee.Name? && e.callee.ident.name == name
  }

  /** The index of an `output(i)` expression, when it is one with a 32-bit literal. */
  predicate IsOutputCall(e: Expr) {
    IsCallOf(e, "output") && |e.args| == 1 && e.args[0].Integer? && e.args[0].value <= U32_MAX
  }

  predicate IsLockTest(e: Expr) {
    e.Binary? && e.op == BinaryOp.GreaterEqual
    && (Path(e.left) == ["block", "height"] || Path(e.left) == ["block", "time"])
  }
}
