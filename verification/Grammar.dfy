/** What the parser computes, as functions of the tokens and the cursor (compiler/parser/src/parser.rs). */
module Grammar {
  import opened Wrappers
  import opened ScriptNumbers
  import opened Syntax
  import opened Tokens

  /** What the parser reports to have expected. */
  datatype Wanted =
    | OpenParen
    | CloseParen
    | CommaOrParen
    | CommaOrBracket
    | CommaOrBrace
    | CommaOrTerminator
    | ColonSign
    | SemicolonSign
    | AssignSign
    | CloseBracket
    | ContractKeyword
    | ContractItem
    | OpenBrace
    | CloseBrace
    | AnExpression
    | AnIdentifier
    | AnInteger
    | AStatement
    | AType
    | SmallerInteger

  datatype ParseError = ParseError(span: Span, wanted: Wanted)

  /** A parsed value and the cursor behind it. */
  type Parsed<+T> = Result<(T, nat), ParseError>

  function ErrorHere(t: seq<Token>, c: nat, wanted: Wanted): ParseError {
    ParseError(if c < |t| then t[c].span else if t != [] then t[|t| - 1].span else Span(0, 0), wanted)
  }

  predicate Check(t: seq<Token>, c: nat, kind: TokenKind) { c < |t| && t[c].kind == kind }

  function Advance(t: seq<Token>, c: nat, wanted: Wanted): (r: Parsed<Token>)
    ensures r.Success? ==> c < |t| && r.value == (t[c], c + 1)
  {
    if c < |t| then Success((t[c], c + 1)) else Failure(ErrorHere(t, c, wanted))
  }

  function Expect(t: seq<Token>, c: nat, kind: TokenKind, wanted: Wanted): (r: Parsed<Token>)
    ensures r.Success? ==> c < |t| && t[c].kind == kind && r.value == (t[c], c + 1)
  {
    if c >= |t| then Failure(ErrorHere(t, c, wanted))
    else if t[c].kind != kind then Failure(ParseError(t[c].span, wanted))
    else Success((t[c], c + 1))
  }

  function ParseIdentifier(t: seq<Token>, c: nat): (r: Parsed<Ident>)
    ensures r.Success? ==> c < |t| && r.value.1 == c + 1
  {
    if c >= |t| then Failure(ErrorHere(t, c, AnIdentifier))
    else if NameOf(t[c].kind).None? then Failure(ParseError(t[c].span, AnIdentifier))
    else Success((Ident(NameOf(t[c].kind).value, t[c].span), c + 1))
  }

  // ---- expressions ----

  function ParseExpression(t: seq<Token>, c: nat): (r: Parsed<Expr>)
    requires c <= |t|
    ensures r.Success? ==> c < r.value.1 <= |t|
    decreases |t| - c, 4
  {
    ParsePrecedence(t, c, 0)
  }

  function ParsePrecedence(t: seq<Token>, c: nat, min: nat): (r: Parsed<Expr>)
    requires c <= |t|
    ensures r.Success? ==> c < r.value.1 <= |t|
    decreases |t| - c, 3
  {
    var left :- ParseUnary(t, c);
    Climb(t, left.0, left.1, min)
  }

  /** Joins operators of at least the minimum precedence to what is parsed so far. */
  function Climb(t: seq<Token>, left: Expr, c: nat, min: nat): (r: Parsed<Expr>)
    requires c <= |t|
    ensures r.Success? ==> c <= r.value.1 <= |t|
    decreases |t| - c, 3
  {
    if Joins(t, c, min) then
      var op := OperatorOf(t[c].kind).value;
      var right :- ParsePrecedence(t, c + 1, Precedence(op) + 1);
      Climb(t, Joined(left, op, right.0), right.1, min)
    else Success((left, c))
  }

  /** Whether the next token is an operator of at least the minimum precedence. */
  predicate Joins(t: seq<Token>, c: nat, min: nat) {
    c < |t| && OperatorOf(t[c].kind).Some? && Precedence(OperatorOf(t[c].kind).value) >= min
  }

  function Joined(left: Expr, op: BinaryOp, right: Expr): Expr {
    Binary(left, op, right, Span(left.Where().start, right.Where().end))
  }

  function Prefixed(uop: UnaryOp, start: nat, operand: Expr): Expr {
    Unary(uop, operand, Span(start, operand.Where().end))
  }

  function ParseUnary(t: seq<Token>, c: nat): (r: Parsed<Expr>)
    requires c <= |t|
    ensures r.Success? ==> c < r.value.1 <= |t|
    decreases |t| - c, 2
  {
    if Check(t, c, Bang) then
      var operand :- ParseUnary(t, c + 1);
      Success((Prefixed(UnaryOp.Not, t[c].span.start, operand.0), operand.1))
    else if Check(t, c, Minus) then
      var operand :- ParseUnary(t, c + 1);
      Success((Prefixed(Negate, t[c].span.start, operand.0), operand.1))
    else ParsePostfix(t, c)
  }

  function ParsePostfix(t: seq<Token>, c: nat): (r: Parsed<Expr>)
    requires c <= |t|
    ensures r.Success? ==> c < r.value.1 <= |t|
    decreases |t| - c, 1
  {
    var primary :- ParsePrimary(t, c);
    Suffixes(t, primary.0, primary.1)
  }

  function Called(callee: Expr, args: seq<Expr>, end: nat): Expr { Call(callee, args, Span(callee.Where().start, end)) }

  function Selected(target: Expr, field: Ident): Expr { Field(target, field, Span(target.Where().start, field.span.end)) }

  /** Calls and field selections behind what is parsed so far. */
  function Suffixes(t: seq<Token>, e: Expr, c: nat): (r: Parsed<Expr>)
    requires c <= |t|
    ensures r.Success? ==> c <= r.value.1 <= |t|
    decreases |t| - c, 1
  {
    if Check(t, c, LeftParen) || Check(t, c, Dot) then
      var more :- Suffix(t, e, c);
      Suffixes(t, more.0, more.1)
    else Success((e, c))
  }

  function Suffix(t: seq<Token>, e: Expr, c: nat): (r: Parsed<Expr>)
    requires Check(t, c, LeftParen) || Check(t, c, Dot)
    ensures r.Success? ==> c < r.value.1 <= |t|
    decreases |t| - c, 0
  {
    if t[c].kind == LeftParen then CallSuffix(t, e, c + 1)
    else
      var field :- ParseIdentifier(t, c + 1);
      Success((Selected(e, field.0), field.1))
  }

  /** The arguments of a call, behind the opening parenthesis. */
  function CallSuffix(t: seq<Token>, e: Expr, c: nat): (r: Parsed<Expr>)
    requires c <= |t|
    ensures r.Success? ==> c < r.value.1 <= |t|
    decreases |t| - c, 6
  {
    var args :- ParseItems(t, c, RightParen, CommaOrParen, []);
    var close :- Expect(t, args.1, RightParen, CloseParen);
    Success((Called(e, args.0, close.0.span.end), close.1))
  }

  /** Expressions separated by commas, up to the closing token; a comma may precede it. */
  function ParseItems(t: seq<Token>, c: nat, close: TokenKind, wanted: Wanted, items: seq<Expr>): (r: Parsed<seq<Expr>>)
    requires c <= |t|
    ensures r.Success? ==> c <= r.value.1 <= |t|
    decreases |t| - c, 5
  {
    if Check(t, c, close) then Success((items, c))
    else
      var item :- ParseExpression(t, c);
      if Check(t, item.1, Comma) then ParseItems(t, item.1 + 1, close, wanted, items + [item.0])
      else if Check(t, item.1, close) then Success((items + [item.0], item.1))
      else Failure(ErrorHere(t, item.1, wanted))
  }

  function ParsePrimary(t: seq<Token>, c: nat): (r: Parsed<Expr>)
    requires c <= |t|
    ensures r.Success? ==> c < r.value.1 <= |t|
    decreases |t| - c, 0
  {
    if c >= |t| then Failure(ErrorHere(t, c, AnExpression))
    else if t[c].kind == LeftParen then
      var inner :- ParseExpression(t, c + 1);
      var close :- Expect(t, inner.1, RightParen, CloseParen);
      Success((inner.0, close.1))
    else if t[c].kind == LeftBracket then ParseArray(t, t[c].span.start, c + 1)
    else if LiteralOf(t[c]).Success? then Success((LiteralOf(t[c]).value, c + 1))
    else Failure(LiteralOf(t[c]).error)
  }

  /** Expressions made of one token. */
  function LiteralOf(token: Token): Result<Expr, ParseError> {
    var kind := token.kind;
    if NameOf(kind).Some? then Success(Name(Ident(NameOf(kind).value, token.span)))
    else if kind.Numeral? then
      if ParseU64(kind.digits).Some? then Success(Integer(ParseU64(kind.digits).value, token.span))
      else Failure(ParseError(token.span, SmallerInteger))
    else if kind.Quoted? then Success(Text(kind.text, token.span))
    else if kind.TrueWord? || kind.FalseWord? then Success(Truth(kind.TrueWord?, token.span))
    else Failure(ParseError(token.span, AnExpression))
  }

  function ParseArray(t: seq<Token>, start: nat, c: nat): (r: Parsed<Expr>)
    requires c <= |t|
    ensures r.Success? ==> c < r.value.1 <= |t|
    decreases |t| - c, 6
  {
    var elements :- ParseItems(t, c, RightBracket, CommaOrBracket, []);
    var close :- Expect(t, elements.1, RightBracket, CloseBracket);
    Success((Array(elements.0, Span(start, close.0.span.end)), close.1))
  }

  // ---- declarations ----

  function ParseStatement(t: seq<Token>, c: nat): (r: Parsed<Stmt>)
    requires c <= |t|
    ensures r.Success? ==> c < r.value.1 <= |t|
  {
    if Check(t, c, LetWord) then
      var name :- ParseIdentifier(t, c + 1);
      var assign :- Expect(t, name.1, Assign, AssignSign);
      var expr :- ParseExpression(t, assign.1);
      var end :- Expect(t, expr.1, Semicolon, SemicolonSign);
      Success((Let(name.0, expr.0, Span(t[c].span.start, end.0.span.end)), end.1))
    else if Check(t, c, RequireWord) then
      var expr :- ParseExpression(t, c + 1);
      var end :- Expect(t, expr.1, Semicolon, SemicolonSign);
      Success((Require(expr.0, Span(t[c].span.start, end.0.span.end)), end.1))
    else if Check(t, c, ReturnWord) then
      var expr :- ParseExpression(t, c + 1);
      var end :- Expect(t, expr.1, Semicolon, SemicolonSign);
      Success((Return(expr.0, Span(t[c].span.start, end.0.span.end)), end.1))
    else Failure(ErrorHere(t, c, AStatement))
  }

  /** Statements up to a closing brace. */
  function ParseBody(t: seq<Token>, c: nat, body: seq<Stmt>): (r: Parsed<seq<Stmt>>)
    requires c <= |t|
    ensures r.Success? ==> c <= r.value.1 < |t| && t[r.value.1].kind == RightBrace
    decreases |t| - c
  {
    if Check(t, c, RightBrace) then Success((body, c))
    else if c >= |t| then Failure(ErrorHere(t, c, CloseBrace))
    else
      var stmt :- ParseStatement(t, c);
      ParseBody(t, stmt.1, body + [stmt.0])
  }

  /** One parameter `name: Type`. */
  function ParseTypedParam(t: seq<Token>, c: nat): (r: Parsed<Param>)
    requires c <= |t|
    ensures r.Success? ==> c < r.value.1 <= |t|
  {
    var name :- ParseIdentifier(t, c);
    var colon :- Expect(t, name.1, Colon, ColonSign);
    var token :- Advance(t, colon.1, AType);
    if !token.0.kind.TypeWord? then Failure(ParseError(token.0.span, AType))
    else Success((Param(name.0, token.0.kind.ty, Span(name.0.span.start, token.0.span.end)), token.1))
  }

  /** Parameters separated by commas, up to a closing parenthesis. */
  function ParseTypedParams(t: seq<Token>, c: nat, params: seq<Param>): (r: Parsed<seq<Param>>)
    requires c <= |t|
    ensures r.Success? ==> c <= r.value.1 < |t| && t[r.value.1].kind == RightParen
    decreases |t| - c
  {
    if Check(t, c, RightParen) then Success((params, c))
    else
      var param :- ParseTypedParam(t, c);
      if Check(t, param.1, Comma) then ParseTypedParams(t, param.1 + 1, params + [param.0])
      else if Check(t, param.1, RightParen) then Success((params + [param.0], param.1))
      else Failure(ErrorHere(t, param.1, CommaOrTerminator))
  }

  function ParseSpend(t: seq<Token>, c: nat): (r: Parsed<Spend>)
    requires c <= |t|
    ensures r.Success? ==> c < r.value.1 <= |t|
  {
    var name :- ParseIdentifier(t, c);
    var open :- Expect(t, name.1, LeftParen, OpenParen);
    var params :- ParseTypedParams(t, open.1, []);
    ParseSpendBody(t, params.1 + 1, name.0, params.0)
  }

  function ParseSpendBody(t: seq<Token>, c: nat, name: Ident, params: seq<Param>): (r: Parsed<Spend>)
    requires c <= |t|
    ensures r.Success? ==> c < r.value.1 <= |t|
  {
    var brace :- Expect(t, c, LeftBrace, OpenBrace);
    var body :- ParseBody(t, brace.1, []);
    Success((Spend(name, params, body.0, Span(name.span.start, t[body.1].span.end)), body.1 + 1))
  }

  /** An entry of a `params` block: a depth for `finality_depth`, a parameter for any other name. */
  datatype Entry = DepthEntry(blocks: u64) | ParamEntry(param: Param)

  function ParseEntry(t: seq<Token>, c: nat): (r: Parsed<Entry>)
    requires c <= |t|
    ensures r.Success? ==> c < r.value.1 <= |t|
  {
    var name :- ParseIdentifier(t, c);
    var colon :- Expect(t, name.1, Colon, ColonSign);
    ParseEntryValue(t, colon.1, name.0)
  }

  function ParseEntryValue(t: seq<Token>, c: nat, name: Ident): (r: Parsed<Entry>)
    ensures r.Success? ==> c < |t| && r.value.1 == c + 1
  {
    var depth := name.name == "finality_depth";
    if c >= |t| then Failure(ErrorHere(t, c, if depth then AnInteger else AType))
    else if depth then
      if !t[c].kind.Numeral? then Failure(ParseError(t[c].span, AnInteger))
      else if ParseU64(t[c].kind.digits).None? then Failure(ParseError(t[c].span, SmallerInteger))
      else Success((DepthEntry(ParseU64(t[c].kind.digits).value), c + 1))
    else if !t[c].kind.TypeWord? then Failure(ParseError(t[c].span, AType))
    else Success((ParamEntry(Param(name, t[c].kind.ty, Span(name.span.start, t[c].span.end))), c + 1))
  }

  /** The parameters and the depth of a block, as far as it is parsed. */
  datatype Block = Block(params: seq<Param>, depth: FinalityDepth)
  {
    function Add(entry: Entry): Block {
      if entry.ParamEntry? then Block(params + [entry.param], depth) else Block(params, Depth(entry.blocks))
    }

    /** A later block adds its parameters and, when it has one, its depth. */
    function Join(later: Block): Block {
      Block(params + later.params, if later.depth.Depth? then later.depth else depth)
    }
  }

  /** The entries of a `params` block, up to its closing brace. */
  function ParseEntries(t: seq<Token>, c: nat, block: Block): (r: Parsed<Block>)
    requires c <= |t|
    ensures r.Success? ==> c <= r.value.1 < |t| && t[r.value.1].kind == RightBrace
    decreases |t| - c
  {
    if Check(t, c, RightBrace) then Success((block, c))
    else
      var entry :- ParseEntry(t, c);
      if Check(t, entry.1, Comma) then ParseEntries(t, entry.1 + 1, block.Add(entry.0))
      else if Check(t, entry.1, RightBrace) then Success((block.Add(entry.0), entry.1))
      else Failure(ErrorHere(t, entry.1, CommaOrBrace))
  }

  function ParseParamsBlock(t: seq<Token>, c: nat): (r: Parsed<Block>)
    requires c <= |t|
    ensures r.Success? ==> c < r.value.1 <= |t|
  {
    var open :- Expect(t, c, LeftBrace, OpenBrace);
    var block :- ParseEntries(t, open.1, Block([], NoDepth));
    Success((block.0, block.1 + 1))
  }

  /** The items of a contract, as far as they are parsed. */
  datatype Items = Items(block: Block, spends: seq<Spend>)

  /** One `params` block or spend of a contract. */
  function ParseItem(t: seq<Token>, c: nat, items: Items): (r: Parsed<Items>)
    requires c <= |t|
    ensures r.Success? ==> c < r.value.1 <= |t|
  {
    if Check(t, c, ParamsWord) then
      var block :- ParseParamsBlock(t, c + 1);
      Success((items.(block := items.block.Join(block.0)), block.1))
    else if Check(t, c, SpendWord) then
      var spend :- ParseSpend(t, c + 1);
      Success((items.(spends := items.spends + [spend.0]), spend.1))
    else Failure(ErrorHere(t, c, ContractItem))
  }

  /** The items of a contract, up to its closing brace. */
  function ParseContractItems(t: seq<Token>, c: nat, items: Items): (r: Parsed<Items>)
    requires c <= |t|
    ensures r.Success? ==> c <= r.value.1 < |t| && t[r.value.1].kind == RightBrace
    decreases |t| - c
  {
    if Check(t, c, RightBrace) then Success((items, c))
    else if c >= |t| then Failure(ErrorHere(t, c, CloseBrace))
    else
      var more :- ParseItem(t, c, items);
      ParseContractItems(t, more.1, more.0)
  }

  function ParseContract(t: seq<Token>, c: nat): (r: Parsed<Contract>)
    requires c <= |t|
    ensures r.Success? ==> c < r.value.1 <= |t|
  {
    var word :- Expect(t, c, ContractWord, ContractKeyword);
    var name :- ParseIdentifier(t, word.1);
    var open :- Expect(t, name.1, LeftBrace, OpenBrace);
    ParseContractBody(t, open.1, word.0.span.start, name.0)
  }

  function ParseContractBody(t: seq<Token>, c: nat, start: nat, name: Ident): (r: Parsed<Contract>)
    requires c <= |t|
    ensures r.Success? ==> c < r.value.1 <= |t|
  {
    var items :- ParseContractItems(t, c, Items(Block([], NoDepth), []));
    var (block, spends) := (items.0.block, items.0.spends);
    Success((Contract(name, block.params, block.depth, spends, Span(start, t[items.1].span.end)), items.1 + 1))
  }

  /** All contracts up to the last token. */
  function ParseProgram(t: seq<Token>, c: nat, contracts: seq<Contract>): (r: Parsed<seq<Contract>>)
    requires c <= |t|
    ensures r.Success? ==> r.value.1 == |t|
    decreases |t| - c
  {
    if c >= |t| then Success((contracts, c))
    else
      var contract :- ParseContract(t, c);
      ParseProgram(t, contract.1, contracts + [contract.0])
  }
}
