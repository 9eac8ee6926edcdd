/** The Pratt parser, with its moving cursor (compiler/parser/src/parser.rs). */
module Parser {
  import opened Wrappers
  import opened ScriptNumbers
  import opened Syntax
  import opened Tokens
  import G = Grammar

  type ParseError = G.ParseError

  /** A method's result and its cursor are the ones the grammar gives. */
  ghost predicate Agrees<T(!new)>(r: Result<T, ParseError>, cursor: nat, spec: G.Parsed<T>) {
    if spec.Success? then Same(r, Success(spec.value.0)) && cursor == spec.value.1 else r == Failure(spec.error)
  }

  class Parser {
    const tokens: seq<Token>
    var cursor: nat

    ghost predicate Valid() reads this { cursor <= |tokens| }

    constructor (tokens: seq<Token>)
      ensures Valid() && this.tokens == tokens && cursor == 0
    {
      this.tokens := tokens;
      cursor := 0;
    }

    method MatchExact(kind: TokenKind) returns (matched: bool)
      requires Valid()
      modifies this
      ensures Valid() && matched == G.Check(tokens, old(cursor), kind)
      ensures cursor == if matched then old(cursor) + 1 else old(cursor)
    {
      matched := G.Check(tokens, cursor, kind);
      if matched { cursor := cursor + 1; }
    }

    /** An error at the current token, or at the last one behind the end. */
    method ErrorHere(wanted: G.Wanted) returns (error: ParseError)
      requires Valid()
      ensures error == G.ErrorHere(tokens, cursor, wanted)
    {
      var span := Span(0, 0);
      if cursor < |tokens| {
        span := tokens[cursor].span;
      } else if |tokens| > 0 {
        span := tokens[|tokens| - 1].span;
      }
      return G.ParseError(span, wanted);
    }

    method AdvanceOrError(wanted: G.Wanted) returns (r: Result<Token, ParseError>)
      requires Valid()
      modifies this
      ensures Valid() && cursor >= old(cursor) && Agrees(r, cursor, G.Advance(tokens, old(cursor), wanted))
    {
      if cursor >= |tokens| {
        var error := ErrorHere(wanted);
        return Failure(error);
      }
      cursor := cursor + 1;
      return Success(tokens[cursor - 1]);
    }

    method ExpectExact(kind: TokenKind, wanted: G.Wanted) returns (r: Result<Token, ParseError>)
      requires Valid()
      modifies this
      ensures Valid() && cursor >= old(cursor) && Agrees(r, cursor, G.Expect(tokens, old(cursor), kind, wanted))
    {
      var token :- AdvanceOrError(wanted);
      if token.kind != kind { return Failure(G.ParseError(token.span, wanted)); }
      return Success(token);
    }

    method ParseIdentifier() returns (r: Result<Ident, ParseError>)
      requires Valid()
      modifies this
      ensures Valid() && cursor >= old(cursor) && Agrees(r, cursor, G.ParseIdentifier(tokens, old(cursor)))
    {
      var token :- AdvanceOrError(G.AnIdentifier);
      if token.kind.Identifier? { return Success(Ident(token.kind.name, token.span)); }
      if KeywordName(token.kind).Some? { return Success(Ident(KeywordName(token.kind).value, token.span)); }
      return Failure(G.ParseError(token.span, G.AnIdentifier));
    }

    // ---- expressions ----

    /** A comma, unless the closing token follows. */
    method ParseSeparator(close: TokenKind, wanted: G.Wanted) returns (r: Outcome<ParseError>)
      requires Valid()
      modifies this
      ensures Valid() && cursor == if G.Check(tokens, old(cursor), Comma) then old(cursor) + 1 else old(cursor)
      ensures r == if G.Check(tokens, old(cursor), Comma) || G.Check(tokens, old(cursor), close) then Pass
                   else Fail(G.ErrorHere(tokens, old(cursor), wanted))
    {
      var comma := MatchExact(Comma);
      if !comma && !G.Check(tokens, cursor, close) {
        var error := ErrorHere(wanted);
        return Fail(error);
      }
      return Pass;
    }

    method ParseExpression() returns (r: Result<Expr, ParseError>)
      requires Valid()
      modifies this
      ensures Valid() && cursor >= old(cursor) && Agrees(r, cursor, G.ParseExpression(tokens, old(cursor)))
      decreases |tokens| - cursor, 4
    {
      r := ParsePrecedence(0);
    }

    ghost function OperatorAt(c: nat): Option<(BinaryOp, nat)>
      reads this
    {
      if c < |tokens| && OperatorOf(tokens[c].kind).Some? then
        Some((OperatorOf(tokens[c].kind).value, Precedence(OperatorOf(tokens[c].kind).value)))
      else None
    }

    /** The operator at the cursor and how closely it binds. */
    method CurrentBinaryOp() returns (r: Option<(BinaryOp, nat)>)
      requires Valid()
      ensures r == OperatorAt(cursor)
    {
      if cursor >= |tokens| { return None; }
      match tokens[cursor].kind
      case OrOr => return Some((BinaryOp.Or, 1));
      case AndAnd => return Some((BinaryOp.And, 2));
      case EqualEqual => return Some((BinaryOp.Equal, 3));
      case BangEqual => return Some((BinaryOp.NotEqual, 3));
      case GreaterSign => return Some((BinaryOp.Greater, 4));
      case GreaterEqualSign => return Some((BinaryOp.GreaterEqual, 4));
      case LessSign => return Some((BinaryOp.Less, 4));
      case LessEqualSign => return Some((BinaryOp.LessEqual, 4));
      case Plus => return Some((BinaryOp.Add, 5));
      case Minus => return Some((BinaryOp.Sub, 5));
      case Star => return Some((BinaryOp.Mul, 6));
      case Slash => return Some((BinaryOp.Div, 6));
      case Percent => return Some((BinaryOp.Mod, 6));
      case _ => return None;
    }

    method ParsePrecedence(min: nat) returns (r: Result<Expr, ParseError>)
      requires Valid()
      modifies this
      ensures Valid() && cursor >= old(cursor) && Agrees(r, cursor, G.ParsePrecedence(tokens, old(cursor), min))
      decreases |tokens| - cursor, 3
    {
      var left :- ParseUnary();
      var next := CurrentBinaryOp();
      while next.Some?
        invariant Valid() && cursor > old(cursor) && next == OperatorAt(cursor)
        invariant Same(G.ParsePrecedence(tokens, old(cursor), min), G.Climb(tokens, left, cursor, min))
        decreases |tokens| - cursor
      {
        var (op, precedence) := next.value;
        if precedence < min { break; }
        cursor := cursor + 1;
        var right :- ParsePrecedence(precedence + 1);
        left := Binary(left, op, right, Span(left.Where().start, right.Where().end));
        next := CurrentBinaryOp();
      }
      return Success(left);
    }

    method ParseUnary() returns (r: Result<Expr, ParseError>)
      requires Valid()
      modifies this
      ensures Valid() && cursor >= old(cursor) && Agrees(r, cursor, G.ParseUnary(tokens, old(cursor)))
      decreases |tokens| - cursor, 2
    {
      var not := MatchExact(Bang);
      if not {
        var start := tokens[cursor - 1].span.start;
        var operand :- ParseUnary();
        return Success(Unary(UnaryOp.Not, operand, Span(start, operand.Where().end)));
      }
      var minus := MatchExact(Minus);
      if minus {
        var start := tokens[cursor - 1].span.start;
        var operand :- ParseUnary();
        return Success(Unary(Negate, operand, Span(start, operand.Where().end)));
      }
      r := ParsePostfix();
    }

    method ParsePostfix() returns (r: Result<Expr, ParseError>)
      requires Valid()
      modifies this
      ensures Valid() && cursor >= old(cursor) && Agrees(r, cursor, G.ParsePostfix(tokens, old(cursor)))
      decreases |tokens| - cursor, 1
    {
      ghost var whole := G.ParsePostfix(tokens, cursor);
      var expr :- ParsePrimary();
      while G.Check(tokens, cursor, LeftParen) || G.Check(tokens, cursor, Dot)
        invariant Valid() && cursor > old(cursor)
        invariant Same(whole, G.Suffixes(tokens, expr, cursor))
        decreases |tokens| - cursor
      {
        expr :- ParseSuffix(expr);
      }
      return Success(expr);
    }

    /** One call or field selection. */
    method ParseSuffix(expr: Expr) returns (r: Result<Expr, ParseError>)
      requires Valid() && (G.Check(tokens, cursor, LeftParen) || G.Check(tokens, cursor, Dot))
      modifies this
      ensures Valid() && cursor > old(cursor) && Agrees(r, cursor, G.Suffix(tokens, expr, old(cursor)))
      decreases |tokens| - cursor, 0
    {
      var call := MatchExact(LeftParen);
      if call {
        r := ParseCall(expr);
        return;
      }
      var dot := MatchExact(Dot);
      var field :- ParseIdentifier();
      return Success(Field(expr, field, Span(expr.Where().start, field.span.end)));
    }

    method ParseCall(callee: Expr) returns (r: Result<Expr, ParseError>)
      requires Valid()
      modifies this
      ensures Valid() && cursor >= old(cursor) && Agrees(r, cursor, G.CallSuffix(tokens, callee, old(cursor)))
      decreases |tokens| - cursor, 6
    {
      var args :- ParseArguments();
      var close :- ExpectExact(RightParen, G.CloseParen);
      return Success(Call(callee, args, Span(callee.Where().start, close.span.end)));
    }

    method ParseArguments() returns (r: Result<seq<Expr>, ParseError>)
      requires Valid()
      modifies this
      ensures Valid() && cursor >= old(cursor)
      ensures Agrees(r, cursor, G.ParseItems(tokens, old(cursor), RightParen, G.CommaOrParen, []))
      decreases |tokens| - cursor, 5
    {
      var args: seq<Expr> := [];
      while !G.Check(tokens, cursor, RightParen)
        invariant Valid() && cursor >= old(cursor)
        invariant Same(G.ParseItems(tokens, old(cursor), RightParen, G.CommaOrParen, []),
                       G.ParseItems(tokens, cursor, RightParen, G.CommaOrParen, args))
        decreases |tokens| - cursor
      {
        var arg :- ParseExpression();
        args := args + [arg];
        var separator := ParseSeparator(RightParen, G.CommaOrParen);
        if separator.Fail? { return Failure(separator.error); }
      }
      return Success(args);
    }

    method ParsePrimary() returns (r: Result<Expr, ParseError>)
      requires Valid()
      modifies this
      ensures Valid() && cursor >= old(cursor) && Agrees(r, cursor, G.ParsePrimary(tokens, old(cursor)))
      decreases |tokens| - cursor, 0
    {
      var token :- AdvanceOrError(G.AnExpression);
      if token.kind.LeftParen? {
        var inner :- ParseExpression();
        var close :- ExpectExact(RightParen, G.CloseParen);
        return Success(inner);
      }
      if token.kind.LeftBracket? {
        r := ParseArray(token.span.start);
        return;
      }
      r := G.LiteralOf(token);
    }

    method ParseArray(start: nat) returns (r: Result<Expr, ParseError>)
      requires Valid()
      modifies this
      ensures Valid() && cursor >= old(cursor) && Agrees(r, cursor, G.ParseArray(tokens, start, old(cursor)))
      decreases |tokens| - cursor, 6
    {
      var elements: seq<Expr> := [];
      while !G.Check(tokens, cursor, RightBracket)
        invariant Valid() && cursor >= old(cursor)
        invariant Same(G.ParseItems(tokens, old(cursor), RightBracket, G.CommaOrBracket, []),
                       G.ParseItems(tokens, cursor, RightBracket, G.CommaOrBracket, elements))
        decreases |tokens| - cursor
      {
        var element :- ParseExpression();
        elements := elements + [element];
        var separator := ParseSeparator(RightBracket, G.CommaOrBracket);
        if separator.Fail? { return Failure(separator.error); }
      }
      cursor := cursor + 1;
      return Success(Array(elements, Span(start, tokens[cursor - 1].span.end)));
    }

    // ---- declarations ----

    method ParseLet() returns (r: Result<Stmt, ParseError>)
      requires Valid() && G.Check(tokens, cursor, LetWord)
      modifies this
      ensures Valid() && cursor >= old(cursor) && Agrees(r, cursor, G.ParseStatement(tokens, old(cursor)))
    {
      cursor := cursor + 1;
      var start := tokens[cursor - 1].span.start;
      var name :- ParseIdentifier();
      var assign :- ExpectExact(Assign, G.AssignSign);
      var expr :- ParseExpression();
      var end :- ExpectExact(Semicolon, G.SemicolonSign);
      return Success(Let(name, expr, Span(start, end.span.end)));
    }

    method ParseStatement() returns (r: Result<Stmt, ParseError>)
      requires Valid()
      modifies this
      ensures Valid() && cursor >= old(cursor) && Agrees(r, cursor, G.ParseStatement(tokens, old(cursor)))
    {
      if G.Check(tokens, cursor, LetWord) {
        r := ParseLet();
        return;
      }
      var demands := MatchExact(RequireWord);
      if demands {
        var start := tokens[cursor - 1].span.start;
        var expr :- ParseExpression();
        var end :- ExpectExact(Semicolon, G.SemicolonSign);
        return Success(Require(expr, Span(start, end.span.end)));
      }
      var returned := MatchExact(ReturnWord);
      if returned {
        var start := tokens[cursor - 1].span.start;
        var expr :- ParseExpression();
        var end :- ExpectExact(Semicolon, G.SemicolonSign);
        return Success(Return(expr, Span(start, end.span.end)));
      }
      var error := ErrorHere(G.AStatement);
      return Failure(error);
    }

    method ParseTypedParam() returns (r: Result<Param, ParseError>)
      requires Valid()
      modifies this
      ensures Valid() && cursor >= old(cursor) && Agrees(r, cursor, G.ParseTypedParam(tokens, old(cursor)))
    {
      var name :- ParseIdentifier();
      var colon :- ExpectExact(Colon, G.ColonSign);
      var token :- AdvanceOrError(G.AType);
      if !token.kind.TypeWord? { return Failure(G.ParseError(token.span, G.AType)); }
      return Success(Param(name, token.kind.ty, Span(name.span.start, token.span.end)));
    }

    method ParseTypedParams() returns (r: Result<seq<Param>, ParseError>)
      requires Valid()
      modifies this
      ensures Valid() && cursor >= old(cursor) && Agrees(r, cursor, G.ParseTypedParams(tokens, old(cursor), []))
    {
      var params: seq<Param> := [];
      while !G.Check(tokens, cursor, RightParen)
        invariant Valid() && cursor >= old(cursor)
        invariant Same(G.ParseTypedParams(tokens, old(cursor), []), G.ParseTypedParams(tokens, cursor, params))
        decreases |tokens| - cursor
      {
        var param :- ParseTypedParam();
        params := params + [param];
        var separator := ParseSeparator(RightParen, G.CommaOrTerminator);
        if separator.Fail? { return Failure(separator.error); }
      }
      return Success(params);
    }

    method ParseSpend() returns (r: Result<Spend, ParseError>)
      requires Valid()
      modifies this
      ensures Valid() && cursor >= old(cursor) && Agrees(r, cursor, G.ParseSpend(tokens, old(cursor)))
    {
      var name :- ParseIdentifier();
      var open :- ExpectExact(LeftParen, G.OpenParen);
      var params :- ParseTypedParams();
      cursor := cursor + 1;
      r := ParseSpendBody(name, params);
    }

    method ParseSpendBody(name: Ident, params: seq<Param>) returns (r: Result<Spend, ParseError>)
      requires Valid()
      modifies this
      ensures Valid() && cursor >= old(cursor) && Agrees(r, cursor, G.ParseSpendBody(tokens, old(cursor), name, params))
    {
      var brace :- ExpectExact(LeftBrace, G.OpenBrace);
      var body: seq<Stmt> := [];
      while !G.Check(tokens, cursor, RightBrace)
        invariant Valid() && cursor > old(cursor)
        invariant Same(G.ParseBody(tokens, old(cursor) + 1, []), G.ParseBody(tokens, cursor, body))
        decreases |tokens| - cursor
      {
        if cursor >= |tokens| {
          var error := ErrorHere(G.CloseBrace);
          return Failure(error);
        }
        var stmt :- ParseStatement();
        body := body + [stmt];
      }
      cursor := cursor + 1;
      return Success(Spend(name, params, body, Span(name.span.start, tokens[cursor - 1].span.end)));
    }

    method ParseEntry() returns (r: Result<G.Entry, ParseError>)
      requires Valid()
      modifies this
      ensures Valid() && cursor >= old(cursor) && Agrees(r, cursor, G.ParseEntry(tokens, old(cursor)))
    {
      var name :- ParseIdentifier();
      var colon :- ExpectExact(Colon, G.ColonSign);
      r := ParseEntryValue(name);
    }

    method ParseEntryValue(name: Ident) returns (r: Result<G.Entry, ParseError>)
      requires Valid()
      modifies this
      ensures Valid() && cursor >= old(cursor) && Agrees(r, cursor, G.ParseEntryValue(tokens, old(cursor), name))
    {
      if name.name == "finality_depth" {
        var token :- AdvanceOrError(G.AnInteger);
        if !token.kind.Numeral? { return Failure(G.ParseError(token.span, G.AnInteger)); }
        var blocks := ParseU64(token.kind.digits);
        if blocks.None? { return Failure(G.ParseError(token.span, G.SmallerInteger)); }
        return Success(G.DepthEntry(blocks.value));
      }
      var token :- AdvanceOrError(G.AType);
      if !token.kind.TypeWord? { return Failure(G.ParseError(token.span, G.AType)); }
      return Success(G.ParamEntry(Param(name, token.kind.ty, Span(name.span.start, token.span.end))));
    }

    /** The entries of a `params` block, up to its closing brace. */
    method ParseEntries() returns (r: Result<G.Block, ParseError>)
      requires Valid()
      modifies this
      ensures Valid() && cursor >= old(cursor)
      ensures Agrees(r, cursor, G.ParseEntries(tokens, old(cursor), G.Block([], NoDepth)))
    {
      ghost var whole := G.ParseEntries(tokens, cursor, G.Block([], NoDepth));
      var block := G.Block([], NoDepth);
      while !G.Check(tokens, cursor, RightBrace)
        invariant Valid() && cursor >= old(cursor)
        invariant Same(whole, G.ParseEntries(tokens, cursor, block))
        decreases |tokens| - cursor
      {
        var entry :- ParseEntry();
        block := block.Add(entry);
        var separator := ParseSeparator(RightBrace, G.CommaOrBrace);
        if separator.Fail? { return Failure(separator.error); }
      }
      return Success(block);
    }

    method ParseParamsBlock() returns (r: Result<G.Block, ParseError>)
      requires Valid()
      modifies this
      ensures Valid() && cursor >= old(cursor) && Agrees(r, cursor, G.ParseParamsBlock(tokens, old(cursor)))
    {
      var brace :- ExpectExact(LeftBrace, G.OpenBrace);
      var block :- ParseEntries();
      cursor := cursor + 1;
      return Success(block);
    }

    method ParseItem(items: G.Items) returns (r: Result<G.Items, ParseError>)
      requires Valid()
      modifies this
      ensures Valid() && cursor >= old(cursor) && Agrees(r, cursor, G.ParseItem(tokens, old(cursor), items))
    {
      var params := MatchExact(ParamsWord);
      if params {
        var block :- ParseParamsBlock();
        return Success(items.(block := items.block.Join(block)));
      }
      var spends := MatchExact(SpendWord);
      if spends {
        var spend :- ParseSpend();
        return Success(items.(spends := items.spends + [spend]));
      }
      var error := ErrorHere(G.ContractItem);
      return Failure(error);
    }

    method ParseContract() returns (r: Result<Contract, ParseError>)
      requires Valid()
      modifies this
      ensures Valid() && cursor >= old(cursor) && Agrees(r, cursor, G.ParseContract(tokens, old(cursor)))
    {
      var word :- ExpectExact(ContractWord, G.ContractKeyword);
      var name :- ParseIdentifier();
      var open :- ExpectExact(LeftBrace, G.OpenBrace);
      r := ParseContractBody(word.span.start, name);
    }

    method ParseContractBody(start: nat, name: Ident) returns (r: Result<Contract, ParseError>)
      requires Valid()
      modifies this
      ensures Valid() && cursor >= old(cursor) && Agrees(r, cursor, G.ParseContractBody(tokens, old(cursor), start, name))
    {
      ghost var whole := G.ParseContractItems(tokens, cursor, G.Items(G.Block([], NoDepth), []));
      var items := G.Items(G.Block([], NoDepth), []);
      while !G.Check(tokens, cursor, RightBrace)
        invariant Valid() && cursor >= old(cursor)
        invariant Same(whole, G.ParseContractItems(tokens, cursor, items))
        decreases |tokens| - cursor
      {
        if cursor >= |tokens| {
          var error := ErrorHere(G.CloseBrace);
          return Failure(error);
        }
        items :- ParseItem(items);
      }
      cursor := cursor + 1;
      var end := tokens[cursor - 1].span.end;
      return Success(Contract(name, items.block.params, items.block.depth, items.spends, Span(start, end)));
    }

    /** Parses the whole token list: a success has consumed every token. */
    method ParseProgram() returns (r: Result<seq<Contract>, ParseError>)
      requires Valid()
      modifies this
      ensures Valid() && cursor >= old(cursor) && Agrees(r, cursor, G.ParseProgram(tokens, old(cursor), []))
      ensures r.Success? ==> cursor == |tokens|
    {
      var contracts: seq<Contract> := [];
      while cursor < |tokens|
        invariant Valid() && cursor >= old(cursor)
        invariant Same(G.ParseProgram(tokens, old(cursor), []), G.ParseProgram(tokens, cursor, contracts))
        decreases |tokens| - cursor
      {
        var contract :- ParseContract();
        contracts := contracts + [contract];
      }
      return Success(contracts);
    }
  }
}
