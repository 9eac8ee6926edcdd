/** Writing whole programs as tokens, and that the parser undoes it. */
module Programs {
  import opened Wrappers
  import opened ScriptNumbers
  import opened Syntax
  import opened Tokens
  import opened Grammar
  import opened Readings
  import opened Printer

  // ---- programs as tokens ----

  function PrintStmt(s: Stmt): seq<TokenKind> {
    match s
    case Let(name, expr, _) => [LetWord] + ([NameToken(name.name)] + ([Assign] + (Print(expr, 0) + [Semicolon])))
    case Require(expr, _) => [RequireWord] + (Print(expr, 0) + [Semicolon])
    case Return(expr, _) => [ReturnWord] + (Print(expr, 0) + [Semicolon])
  }

  function PrintBody(body: seq<Stmt>): seq<TokenKind> {
    if body == [] then [] else PrintStmt(body[0]) + PrintBody(body[1..])
  }

  function PrintParam(p: Param): seq<TokenKind> { [NameToken(p.name.name), Colon, TypeWord(p.ty), Comma] }

  function PrintParams(params: seq<Param>): seq<TokenKind> {
    if params == [] then [] else PrintParam(params[0]) + PrintParams(params[1..])
  }

  function PrintDepth(depth: FinalityDepth): seq<TokenKind> {
    if depth.Depth? then [FinalityDepthWord, Colon, Numeral(Decimal(depth.blocks)), Comma] else []
  }

  function PrintSpend(s: Spend): seq<TokenKind> {
    [SpendWord] + ([NameToken(s.name.name)] + ([LeftParen] + (PrintParams(s.params) + ([RightParen] + PrintBraced(s.body)))))
  }

  function PrintBraced(body: seq<Stmt>): seq<TokenKind> { [LeftBrace] + (PrintBody(body) + [RightBrace]) }

  function PrintSpends(spends: seq<Spend>): seq<TokenKind> {
    if spends == [] then [] else PrintSpend(spends[0]) + PrintSpends(spends[1..])
  }

  function PrintBlock(c: Contract): seq<TokenKind> {
    [ParamsWord] + ([LeftBrace] + (PrintParams(c.params) + (PrintDepth(c.finalityDepth) + [RightBrace])))
  }

  function PrintContract(c: Contract): seq<TokenKind> {
    [ContractWord] + ([NameToken(c.name.name)] + ([LeftBrace] + (PrintBlock(c) + (PrintSpends(c.spends) + [RightBrace]))))
  }

  function PrintProgram(contracts: seq<Contract>): seq<TokenKind> {
    if contracts == [] then [] else PrintContract(contracts[0]) + PrintProgram(contracts[1..])
  }

  // ---- the same up to positions ----

  function Unplaced(name: Ident): Ident { Ident(name.name, NOWHERE) }

  function EraseStmt(s: Stmt): Stmt {
    match s
    case Let(name, expr, _) => Let(Unplaced(name), Erase(expr), NOWHERE)
    case Require(expr, _) => Require(Erase(expr), NOWHERE)
    case Return(expr, _) => Return(Erase(expr), NOWHERE)
  }

  function EraseBody(all: seq<Stmt>): seq<Stmt> {
    if all == [] then [] else [EraseStmt(all[0])] + EraseBody(all[1..])
  }

  function EraseParam(p: Param): Param { Param(Unplaced(p.name), p.ty, NOWHERE) }

  function EraseParams(all: seq<Param>): seq<Param> {
    if all == [] then [] else [EraseParam(all[0])] + EraseParams(all[1..])
  }

  function EraseSpend(s: Spend): Spend { Spend(Unplaced(s.name), EraseParams(s.params), EraseBody(s.body), NOWHERE) }

  function EraseSpends(all: seq<Spend>): seq<Spend> {
    if all == [] then [] else [EraseSpend(all[0])] + EraseSpends(all[1..])
  }

  function EraseContract(c: Contract): Contract {
    Contract(Unplaced(c.name), EraseParams(c.params), c.finalityDepth, EraseSpends(c.spends), NOWHERE)
  }

  function EraseProgram(all: seq<Contract>): seq<Contract> {
    if all == [] then [] else [EraseContract(all[0])] + EraseProgram(all[1..])
  }

  ghost predicate StmtAlike(a: Stmt, b: Stmt) { Same(EraseStmt(a), EraseStmt(b)) }

  ghost predicate BodyAlike(a: seq<Stmt>, b: seq<Stmt>) { Same(EraseBody(a), EraseBody(b)) }

  ghost predicate ParamAlike(a: Param, b: Param) { Same(EraseParam(a), EraseParam(b)) }

  ghost predicate ParamsAlike(a: seq<Param>, b: seq<Param>) { Same(EraseParams(a), EraseParams(b)) }

  ghost predicate SpendAlike(a: Spend, b: Spend) { Same(EraseSpend(a), EraseSpend(b)) }

  ghost predicate SpendsAlike(a: seq<Spend>, b: seq<Spend>) { Same(EraseSpends(a), EraseSpends(b)) }

  ghost predicate ContractAlike(a: Contract, b: Contract) { Same(EraseContract(a), EraseContract(b)) }

  ghost predicate ProgramAlike(a: seq<Contract>, b: seq<Contract>) { Same(EraseProgram(a), EraseProgram(b)) }

  lemma Tail<T(!new)>(first: T, rest: seq<T>)
    ensures Same(([first] + rest)[1..], rest) && Same(([first] + rest)[0], first)
  {
    assert ([first] + rest)[1..] == rest;
  }

  lemma BodyAlikeCons(all: seq<Stmt>, first: Stmt, rest: seq<Stmt>)
    requires all != [] && StmtAlike(first, all[0]) && BodyAlike(rest, all[1..])
    ensures BodyAlike([first] + rest, all)
  {
    Tail(first, rest);
  }

  lemma ParamsAlikeCons(all: seq<Param>, first: Param, rest: seq<Param>)
    requires all != [] && ParamAlike(first, all[0]) && ParamsAlike(rest, all[1..])
    ensures ParamsAlike([first] + rest, all)
  {
    Tail(first, rest);
  }

  lemma SpendsAlikeCons(all: seq<Spend>, first: Spend, rest: seq<Spend>)
    requires all != [] && SpendAlike(first, all[0]) && SpendsAlike(rest, all[1..])
    ensures SpendsAlike([first] + rest, all)
  {
    Tail(first, rest);
  }

  lemma ProgramAlikeCons(all: seq<Contract>, first: Contract, rest: seq<Contract>)
    requires all != [] && ContractAlike(first, all[0]) && ProgramAlike(rest, all[1..])
    ensures ProgramAlike([first] + rest, all)
  {
    Tail(first, rest);
  }

  /** A `params` block reads a parameter of this name as the contract's finality depth. */
  predicate Writable(c: Contract) { forall i :: 0 <= i < |c.params| ==> c.params[i].name.name != "finality_depth" }

  // ---- statements ----

  lemma ExpressionParses(t: seq<Token>, c: nat, e: Expr, n: nat) returns (e1: Expr)
    requires At(t, c, Print(e, 0)) && n == c + |Print(e, 0)| && Check(t, n, Semicolon)
    ensures Alike(e1, e) && Same(ParseExpression(t, c), Success((e1, n)))
  {
    e1 := PrintedReads(t, c, n, e, 0);
    ParserFindsReadings(t, c, n, e1, 0);
    assert ParseExpression(t, c) == ParsePrecedence(t, c, 0);
  }

  lemma IdentifierParses(t: seq<Token>, c: nat, name: string)
    requires c < |t| && t[c].kind == NameToken(name)
    ensures ParseIdentifier(t, c) == Success((Ident(name, t[c].span), c + 1))
  {
  }

  lemma LetParses(t: seq<Token>, c: nat, s: Stmt, n: nat) returns (s1: Stmt)
    requires s.Let? && At(t, c, PrintStmt(s)) && n == c + |PrintStmt(s)|
    ensures c < n <= |t| && t[c].kind != RightBrace && StmtAlike(s1, s) && Same(ParseStatement(t, c), Success((s1, n)))
  {
    AtHead(t, c, LetWord, [NameToken(s.name.name)] + ([Assign] + (Print(s.expr, 0) + [Semicolon])));
    AtHead(t, c + 1, NameToken(s.name.name), [Assign] + (Print(s.expr, 0) + [Semicolon]));
    AtList(t, c + 2, Assign, Print(s.expr, 0), Semicolon);
    IdentifierParses(t, c + 1, s.name.name);
    var c3, m := c + 3, n - 1;
    var e1 := ExpressionParses(t, c3, s.expr, m);
    s1 := LetStep(t, c, c3, s.name.name, e1, m, n);
  }

  lemma LetStep(t: seq<Token>, c: nat, c3: nat, name: string, e: Expr, m: nat, n: nat) returns (s: Stmt)
    requires c3 == c + 3 && n == m + 1 && c3 < n <= |t| && t[m].kind == Semicolon
    requires t[c].kind == LetWord && t[c + 1].kind == NameToken(name) && t[c + 2].kind == Assign
    requires Same(ParseExpression(t, c3), Success((e, m)))
    ensures s.Let? && s.name.name == name && Same(s.expr, e) && Same(ParseStatement(t, c), Success((s, n)))
  {
    s := Let(Ident(name, t[c + 1].span), e, Span(t[c].span.start, t[m].span.end));
  }

  lemma OtherStep(t: seq<Token>, c: nat, c1: nat, e: Expr, m: nat, n: nat) returns (s: Stmt)
    requires c1 == c + 1 && n == m + 1 && c1 < n <= |t| && t[m].kind == Semicolon
    requires t[c].kind == RequireWord || t[c].kind == ReturnWord
    requires Same(ParseExpression(t, c1), Success((e, m)))
    ensures !s.Let? && (s.Require? <==> t[c].kind == RequireWord) && Same(s.expr, e) && Same(ParseStatement(t, c), Success((s, n)))
  {
    var span := Span(t[c].span.start, t[m].span.end);
    s := if t[c].kind == RequireWord then Require(e, span) else Return(e, span);
  }

  lemma StmtParses(t: seq<Token>, c: nat, s: Stmt, n: nat) returns (s1: Stmt)
    requires At(t, c, PrintStmt(s)) && n == c + |PrintStmt(s)|
    ensures c < n <= |t| && t[c].kind != RightBrace && StmtAlike(s1, s) && Same(ParseStatement(t, c), Success((s1, n)))
  {
    if s.Let? {
      s1 := LetParses(t, c, s, n);
    } else {
      var word := if s.Require? then RequireWord else ReturnWord;
      AtList(t, c, word, Print(s.expr, 0), Semicolon);
      var c1, m := c + 1, n - 1;
      var e1 := ExpressionParses(t, c1, s.expr, m);
      s1 := OtherStep(t, c, c1, e1, m, n);
    }
  }

  /** What was collected before and what was parsed since. */
  lemma Collected<T(!new)>(r: Parsed<seq<T>>, items: seq<T>, items1: seq<T>, n: nat)
    requires Same(r, Success((items, n))) && Same(items, items1)
    ensures Same(r, Success((items1, n)))
  {
  }

  /** The same when one item is parsed first and the others after it. */
  lemma OneMoreCollected<T(!new)>(r: Parsed<seq<T>>, r1: Parsed<seq<T>>, before: seq<T>, first: T, rest: seq<T>, n: nat)
    requires Same(r, r1) && Same(r1, Success((before + [first] + rest, n)))
    ensures Same(r, Success((before + ([first] + rest), n)))
  {
    ConcatAssociates(before, [first], rest);
    Collected(r1, before + [first] + rest, before + ([first] + rest), n);
  }

  lemma NextStmt(t: seq<Token>, c: nat, s: Stmt, k: nat, before: seq<Stmt>) returns (s1: Stmt)
    requires At(t, c, PrintStmt(s)) && k == c + |PrintStmt(s)|
    ensures c < k <= |t| && StmtAlike(s1, s) && Same(ParseBody(t, c, before), ParseBody(t, k, before + [s1]))
  {
    s1 := StmtParses(t, c, s, k);
  }

  lemma FirstStmt(t: seq<Token>, c: nat, body: seq<Stmt>, n: nat, before: seq<Stmt>) returns (k: nat, s1: Stmt)
    requires body != [] && At(t, c, PrintBody(body)) && n == c + |PrintBody(body)|
    ensures c < k <= |t| && StmtAlike(s1, body[0]) && Same(ParseBody(t, c, before), ParseBody(t, k, before + [s1]))
    ensures At(t, k, PrintBody(body[1..])) && n == k + |PrintBody(body[1..])|
  {
    k := CutTokens(t, c, PrintStmt(body[0]), PrintBody(body[1..]), n);
    s1 := NextStmt(t, c, body[0], k, before);
  }

  /** Where the first of two token lists ends. */
  lemma CutTokens(t: seq<Token>, c: nat, first: seq<TokenKind>, rest: seq<TokenKind>, n: nat) returns (k: nat)
    requires At(t, c, first + rest) && n == c + |first + rest|
    ensures k == c + |first| && n == k + |rest| && At(t, c, first) && At(t, k, rest)
  {
    k := c + |first|;
    AtSplit(t, c, first, rest);
  }

  lemma NoMoreStmts(t: seq<Token>, c: nat, before: seq<Stmt>)
    requires Check(t, c, RightBrace)
    ensures Same(ParseBody(t, c, before), Success((before + [], c)))
  {
    ConcatAssociates(before, [], []);
  }

  lemma BodyJoin(r: Parsed<seq<Stmt>>, r1: Parsed<seq<Stmt>>, before: seq<Stmt>, body: seq<Stmt>, s1: Stmt, rest: seq<Stmt>, n: nat)
    returns (body1: seq<Stmt>)
    requires body != [] && StmtAlike(s1, body[0]) && BodyAlike(rest, body[1..])
    requires Same(r, r1) && Same(r1, Success((before + [s1] + rest, n)))
    ensures BodyAlike(body1, body) && Same(r, Success((before + body1, n)))
  {
    body1 := [s1] + rest;
    BodyAlikeCons(body, s1, rest);
    OneMoreCollected(r, r1, before, s1, rest, n);
  }

  lemma {:induction false} BodyParses(t: seq<Token>, c: nat, body: seq<Stmt>, n: nat, before: seq<Stmt>) returns (body1: seq<Stmt>)
    requires At(t, c, PrintBody(body)) && n == c + |PrintBody(body)| && Check(t, n, RightBrace)
    ensures BodyAlike(body1, body) && Same(ParseBody(t, c, before), Success((before + body1, n)))
    decreases body
  {
    if body == [] {
      body1 := [];
      NoMoreStmts(t, c, before);
    } else {
      var k, s1 := FirstStmt(t, c, body, n, before);
      var rest := BodyParses(t, k, body[1..], n, before + [s1]);
      body1 := BodyJoin(ParseBody(t, c, before), ParseBody(t, k, before + [s1]), before, body, s1, rest, n);
    }
  }

  // ---- parameters ----

  lemma ParamTokens(t: seq<Token>, c: nat, p: Param)
    requires At(t, c, PrintParam(p))
    ensures c + 4 <= |t| && t[c].kind == NameToken(p.name.name) && t[c + 1].kind == Colon
    ensures t[c + 2].kind == TypeWord(p.ty) && t[c + 3].kind == Comma
  {
    assert t[c + 0].kind == PrintParam(p)[0] && t[c + 1].kind == PrintParam(p)[1];
    assert t[c + 2].kind == PrintParam(p)[2] && t[c + 3].kind == PrintParam(p)[3];
  }

  lemma ParamStep(t: seq<Token>, c: nat, k: nat, p: Param, before: seq<Param>) returns (p1: Param)
    requires k == c + 4 && At(t, c, PrintParam(p))
    ensures k <= |t| && ParamAlike(p1, p) && Same(ParseTypedParams(t, c, before), ParseTypedParams(t, k, before + [p1]))
  {
    ParamTokens(t, c, p);
    IdentifierParses(t, c, p.name.name);
    p1 := Param(Ident(p.name.name, t[c].span), p.ty, Span(t[c].span.start, t[c + 2].span.end));
    assert ParseTypedParam(t, c) == Success((p1, c + 3));
  }

  lemma EntryStep(t: seq<Token>, c: nat, k: nat, p: Param, block: Block) returns (p1: Param)
    requires k == c + 4 && At(t, c, PrintParam(p)) && p.name.name != "finality_depth"
    ensures k <= |t| && ParamAlike(p1, p)
    ensures Same(ParseEntries(t, c, block), ParseEntries(t, k, Block(block.params + [p1], block.depth)))
  {
    ParamTokens(t, c, p);
    IdentifierParses(t, c, p.name.name);
    p1 := Param(Ident(p.name.name, t[c].span), p.ty, Span(t[c].span.start, t[c + 2].span.end));
    assert ParseEntry(t, c) == Success((ParamEntry(p1), c + 3));
    assert block.Add(ParamEntry(p1)) == Block(block.params + [p1], block.depth);
  }

  lemma DepthValueStep(t: seq<Token>, c: nat, blocks: u64, name: Ident)
    requires c < |t| && t[c].kind == Numeral(Decimal(blocks)) && name.name == "finality_depth"
    ensures Same(ParseEntryValue(t, c, name), Success((DepthEntry(blocks), c + 1)))
  {
    DecimalParses(blocks);
  }

  lemma DepthStep(t: seq<Token>, c: nat, k: nat, blocks: u64, block: Block)
    requires k == c + 4 && k <= |t| && t[c].kind == FinalityDepthWord && t[c + 1].kind == Colon
    requires t[c + 2].kind == Numeral(Decimal(blocks)) && t[c + 3].kind == Comma
    ensures Same(ParseEntries(t, c, block), ParseEntries(t, k, Block(block.params, Depth(blocks))))
  {
    var name := ParseIdentifier(t, c).value.0;
    DepthValueStep(t, c + 2, blocks, name);
    assert Same(ParseEntry(t, c), ParseEntryValue(t, c + 2, name));
    assert block.Add(DepthEntry(blocks)) == Block(block.params, Depth(blocks));
  }

  lemma {:induction false} ParamsParse(t: seq<Token>, c: nat, params: seq<Param>, n: nat, before: seq<Param>) returns (params1: seq<Param>)
    requires At(t, c, PrintParams(params)) && n == c + |PrintParams(params)| && Check(t, n, RightParen)
    ensures ParamsAlike(params1, params) && Same(ParseTypedParams(t, c, before), Success((before + params1, n)))
    decreases params
  {
    if params == [] {
      params1 := [];
      ConcatAssociates(before, [], []);
    } else {
      var p := params[0];
      AtSplit(t, c, PrintParam(p), PrintParams(params[1..]));
      var k := c + 4;
      var p1 := ParamStep(t, c, k, p, before);
      var rest := ParamsParse(t, k, params[1..], n, before + [p1]);
      params1 := [p1] + rest;
      ParamsAlikeCons(params, p1, rest);
      OneMoreCollected(ParseTypedParams(t, c, before), ParseTypedParams(t, k, before + [p1]), before, p1, rest, n);
    }
  }

  lemma {:induction false} EntriesParse(t: seq<Token>, c: nat, params: seq<Param>, n: nat, block: Block) returns (params1: seq<Param>)
    requires At(t, c, PrintParams(params)) && n == c + |PrintParams(params)|
    requires forall i :: 0 <= i < |params| ==> params[i].name.name != "finality_depth"
    ensures n <= |t| && ParamsAlike(params1, params)
    ensures Same(ParseEntries(t, c, block), ParseEntries(t, n, Block(block.params + params1, block.depth)))
    decreases params
  {
    if params == [] {
      params1 := [];
      ConcatAssociates(block.params, [], []);
    } else {
      var p := params[0];
      AtSplit(t, c, PrintParam(p), PrintParams(params[1..]));
      var k := c + 4;
      var p1 := EntryStep(t, c, k, p, block);
      var rest := EntriesParse(t, k, params[1..], n, Block(block.params + [p1], block.depth));
      params1 := [p1] + rest;
      ParamsAlikeCons(params, p1, rest);
      EntriesJoin(t, c, k, n, block, p1, rest);
    }
  }

  lemma EntriesJoin(t: seq<Token>, c: nat, k: nat, n: nat, block: Block, first: Param, rest: seq<Param>)
    requires c <= |t| && k <= |t| && n <= |t|
    requires Same(ParseEntries(t, c, block), ParseEntries(t, k, Block(block.params + [first], block.depth)))
    requires Same(ParseEntries(t, k, Block(block.params + [first], block.depth)),
                  ParseEntries(t, n, Block(block.params + [first] + rest, block.depth)))
    ensures Same(ParseEntries(t, c, block), ParseEntries(t, n, Block(block.params + ([first] + rest), block.depth)))
  {
    ConcatAssociates(block.params, [first], rest);
  }

  lemma DepthParses(t: seq<Token>, c: nat, depth: FinalityDepth, params: seq<Param>, n: nat)
    requires At(t, c, PrintDepth(depth)) && n == c + |PrintDepth(depth)| && Check(t, n, RightBrace)
    ensures Same(ParseEntries(t, c, Block(params, NoDepth)), Success((Block(params, depth), n)))
  {
    if depth.Depth? {
      var kinds := PrintDepth(depth);
      assert t[c + 0].kind == kinds[0] && t[c + 1].kind == kinds[1] && t[c + 2].kind == kinds[2] && t[c + 3].kind == kinds[3];
      DepthStep(t, c, n, depth.blocks, Block(params, NoDepth));
    }
  }

  lemma BlockTokens(t: seq<Token>, c: nat, contract: Contract, n: nat) returns (k: nat)
    requires At(t, c, PrintBlock(contract)) && n == c + |PrintBlock(contract)|
    ensures k == c + 2 + |PrintParams(contract.params)| && n - 1 == k + |PrintDepth(contract.finalityDepth)| && n <= |t|
    ensures Check(t, c, ParamsWord) && Check(t, c + 1, LeftBrace) && At(t, c + 2, PrintParams(contract.params))
    ensures At(t, k, PrintDepth(contract.finalityDepth)) && Check(t, n - 1, RightBrace)
  {
    k := c + 2 + |PrintParams(contract.params)|;
    BlockShape(t, c, c + 1, c + 2, PrintParams(contract.params), PrintDepth(contract.finalityDepth), k, n - 1);
  }

  lemma BlockShape(t: seq<Token>, c: nat, c1: nat, c2: nat, params: seq<TokenKind>, depth: seq<TokenKind>, k: nat, m: nat)
    requires c1 == c + 1 && c2 == c + 2 && k == c2 + |params| && m == k + |depth|
    requires At(t, c, [ParamsWord] + ([LeftBrace] + (params + (depth + [RightBrace]))))
    ensures Check(t, c, ParamsWord) && Check(t, c1, LeftBrace) && At(t, c2, params) && At(t, k, depth) && Check(t, m, RightBrace)
  {
    AtHead(t, c, ParamsWord, [LeftBrace] + (params + (depth + [RightBrace])));
    AtHead(t, c1, LeftBrace, params + (depth + [RightBrace]));
    AtSplit(t, c2, params, depth + [RightBrace]);
    AtSplit(t, k, depth, [RightBrace]);
    AtHead(t, m, RightBrace, []);
  }

  lemma BlockParses(t: seq<Token>, c: nat, c1: nat, contract: Contract, n: nat) returns (params1: seq<Param>)
    requires c1 == c + 1 && Writable(contract) && At(t, c, PrintBlock(contract)) && n == c + |PrintBlock(contract)|
    ensures c < n <= |t| && t[c].kind == ParamsWord && ParamsAlike(params1, contract.params)
    ensures Same(ParseParamsBlock(t, c1), Success((Block(params1, contract.finalityDepth), n)))
  {
    var k := BlockTokens(t, c, contract, n);
    var c2, m := c + 2, n - 1;
    params1 := AllEntriesParse(t, c2, contract, k, m);
    BlockStep(t, c1, c2, params1, contract.finalityDepth, m, n);
  }

  lemma AllEntriesParse(t: seq<Token>, c: nat, contract: Contract, k: nat, n: nat) returns (params1: seq<Param>)
    requires Writable(contract) && At(t, c, PrintParams(contract.params)) && k == c + |PrintParams(contract.params)|
    requires At(t, k, PrintDepth(contract.finalityDepth)) && n == k + |PrintDepth(contract.finalityDepth)| && Check(t, n, RightBrace)
    ensures ParamsAlike(params1, contract.params)
    ensures Same(ParseEntries(t, c, Block([], NoDepth)), Success((Block(params1, contract.finalityDepth), n)))
  {
    params1 := EntriesParse(t, c, contract.params, k, Block([], NoDepth));
    ConcatAssociates(params1, [], []);
    DepthParses(t, k, contract.finalityDepth, params1, n);
  }

  lemma BlockStep(t: seq<Token>, c1: nat, c2: nat, params: seq<Param>, depth: FinalityDepth, m: nat, n: nat)
    requires c2 == c1 + 1 && n == m + 1 && Check(t, c1, LeftBrace) && c2 < n <= |t|
    requires Same(ParseEntries(t, c2, Block([], NoDepth)), Success((Block(params, depth), m)))
    ensures Same(ParseParamsBlock(t, c1), Success((Block(params, depth), n)))
  {
  }

  // ---- spends and contracts ----

  lemma BracedParses(t: seq<Token>, c: nat, body: seq<Stmt>, n: nat, name: Ident, params: seq<Param>) returns (spend: Spend)
    requires At(t, c, PrintBraced(body)) && n == c + |PrintBraced(body)|
    ensures c < n <= |t| && spend.name == name && Same(spend.params, params) && BodyAlike(spend.body, body)
    ensures Same(ParseSpendBody(t, c, name, params), Success((spend, n)))
  {
    AtList(t, c, LeftBrace, PrintBody(body), RightBrace);
    var c1, m := c + 1, n - 1;
    var body1 := BodyParses(t, c1, body, m, []);
    ConcatAssociates(body1, [], []);
    Collected(ParseBody(t, c1, []), [] + body1, body1, m);
    spend := BracedStep(t, c, c1, body1, m, n, name, params);
  }

  lemma BracedStep(t: seq<Token>, c: nat, c1: nat, body: seq<Stmt>, m: nat, n: nat, name: Ident, params: seq<Param>) returns (spend: Spend)
    requires c1 == c + 1 && n == m + 1 && Check(t, c, LeftBrace) && c < m < |t| && Same(ParseBody(t, c1, []), Success((body, m)))
    ensures spend.name == name && Same(spend.params, params) && Same(spend.body, body)
    ensures Same(ParseSpendBody(t, c, name, params), Success((spend, n)))
  {
    spend := Spend(name, params, body, Span(name.span.start, t[m].span.end));
  }

  lemma SpendTokens(t: seq<Token>, c: nat, s: Spend, n: nat) returns (k: nat)
    requires At(t, c, PrintSpend(s)) && n == c + |PrintSpend(s)|
    ensures k == c + 3 + |PrintParams(s.params)| && n == k + 1 + |PrintBraced(s.body)|
    ensures Check(t, c, SpendWord) && Check(t, c + 1, NameToken(s.name.name)) && Check(t, c + 2, LeftParen)
    ensures At(t, c + 3, PrintParams(s.params)) && Check(t, k, RightParen) && At(t, k + 1, PrintBraced(s.body))
  {
    k := c + 3 + |PrintParams(s.params)|;
    AtHead(t, c, SpendWord, [NameToken(s.name.name)] + ([LeftParen] + (PrintParams(s.params) + ([RightParen] + PrintBraced(s.body)))));
    AtHead(t, c + 1, NameToken(s.name.name), [LeftParen] + (PrintParams(s.params) + ([RightParen] + PrintBraced(s.body))));
    AtHead(t, c + 2, LeftParen, PrintParams(s.params) + ([RightParen] + PrintBraced(s.body)));
    AtSplit(t, c + 3, PrintParams(s.params), [RightParen] + PrintBraced(s.body));
    AtHead(t, k, RightParen, PrintBraced(s.body));
  }

  lemma SpendParses(t: seq<Token>, c: nat, c1: nat, s: Spend, n: nat) returns (s1: Spend)
    requires c1 == c + 1 && At(t, c, PrintSpend(s)) && n == c + |PrintSpend(s)|
    ensures c < n <= |t| && t[c].kind == SpendWord && SpendAlike(s1, s) && Same(ParseSpend(t, c1), Success((s1, n)))
  {
    var k := SpendTokens(t, c, s, n);
    s1 := SpendPartsParse(t, c1, c + 3, s, k, k + 1, n);
  }

  lemma SpendPartsParse(t: seq<Token>, c: nat, c2: nat, s: Spend, k: nat, k1: nat, n: nat) returns (s1: Spend)
    requires c2 == c + 2 && k == c2 + |PrintParams(s.params)| && k1 == k + 1 && n == k1 + |PrintBraced(s.body)|
    requires Check(t, c, NameToken(s.name.name)) && Check(t, c + 1, LeftParen)
    requires At(t, c2, PrintParams(s.params)) && Check(t, k, RightParen) && At(t, k1, PrintBraced(s.body))
    ensures c < n <= |t| && SpendAlike(s1, s) && Same(ParseSpend(t, c), Success((s1, n)))
  {
    var name := Ident(s.name.name, t[c].span);
    var params1 := HeaderParses(t, c, c2, s, k, k1, name);
    s1 := BracedParses(t, k1, s.body, n, name, params1);
    SpendAlikeByParts(s1, s);
    Chain(ParseSpend(t, c), ParseSpendBody(t, k1, name, params1), Success((s1, n)));
  }

  lemma SpendAlikeByParts(a: Spend, b: Spend)
    requires a.name.name == b.name.name && ParamsAlike(a.params, b.params) && BodyAlike(a.body, b.body)
    ensures SpendAlike(a, b)
  {
  }

  /** The name and the parameters of a spend. */
  lemma HeaderParses(t: seq<Token>, c: nat, c2: nat, s: Spend, k: nat, k1: nat, name: Ident) returns (params1: seq<Param>)
    requires c2 == c + 2 && k1 == k + 1 && Check(t, c, NameToken(s.name.name)) && Check(t, c + 1, LeftParen) && Check(t, k, RightParen)
    requires name == Ident(s.name.name, t[c].span) && At(t, c2, PrintParams(s.params)) && k == c2 + |PrintParams(s.params)|
    ensures ParamsAlike(params1, s.params) && Same(ParseSpend(t, c), ParseSpendBody(t, k1, name, params1))
  {
    params1 := ParamsParse(t, c2, s.params, k, []);
    ConcatAssociates(params1, [], []);
    Collected(ParseTypedParams(t, c2, []), [] + params1, params1, k);
    SpendStep(t, c, c2, k, k1, params1, name);
  }

  lemma SpendNameStep(t: seq<Token>, c: nat, c1: nat, name: Ident)
    requires c1 == c + 1 && c < |t| && t[c].kind == NameToken(name.name) && name.span == t[c].span
    ensures Same(ParseIdentifier(t, c), Success((name, c1)))
  {
  }

  lemma OpenStep(t: seq<Token>, c: nat, c1: nat)
    requires c1 == c + 1 && Check(t, c, LeftParen)
    ensures Same(Expect(t, c, LeftParen, OpenParen), Success((t[c], c1)))
  {
  }

  lemma SpendStep(t: seq<Token>, c: nat, c2: nat, k: nat, k1: nat, params: seq<Param>, name: Ident)
    requires c2 == c + 2 <= k && k1 == k + 1 && k < |t| && t[c].kind == NameToken(name.name) && t[c + 1].kind == LeftParen
    requires name.span == t[c].span && Same(ParseTypedParams(t, c2, []), Success((params, k)))
    ensures Same(ParseSpend(t, c), ParseSpendBody(t, k1, name, params))
  {
    var c1 := c + 1;
    SpendNameStep(t, c, c1, name);
    OpenStep(t, c1, c2);
    SpendHeader(t, c, c1, c2, name);
  }

  /** A spend from its parameters on, once its name and its parenthesis are read. */
  lemma SpendHeader(t: seq<Token>, c: nat, c1: nat, c2: nat, name: Ident)
    requires c <= |t| && c1 < |t| && c2 <= |t| && Same(ParseIdentifier(t, c), Success((name, c1)))
    requires Same(Expect(t, c1, LeftParen, OpenParen), Success((t[c1], c2)))
    ensures Same(ParseSpend(t, c), match ParseTypedParams(t, c2, [])
                                   case Success(params) => ParseSpendBody(t, params.1 + 1, name, params.0)
                                   case Failure(error) => Failure(error))
  {
  }

  lemma NextSpend(t: seq<Token>, c: nat, s: Spend, k: nat, items: Items) returns (s1: Spend)
    requires At(t, c, PrintSpend(s)) && k == c + |PrintSpend(s)|
    ensures c < k <= |t| && SpendAlike(s1, s)
    ensures Same(ParseContractItems(t, c, items), ParseContractItems(t, k, Items(items.block, items.spends + [s1])))
  {
    var c1 := c + 1;
    s1 := SpendParses(t, c, c1, s, k);
    SpendItemStep(t, c, c1, s1, k, items);
  }

  lemma FirstSpend(t: seq<Token>, c: nat, spends: seq<Spend>, n: nat, items: Items) returns (k: nat, s1: Spend)
    requires spends != [] && At(t, c, PrintSpends(spends)) && n == c + |PrintSpends(spends)|
    ensures c < k <= |t| && SpendAlike(s1, spends[0])
    ensures Same(ParseContractItems(t, c, items), ParseContractItems(t, k, Items(items.block, items.spends + [s1])))
    ensures At(t, k, PrintSpends(spends[1..])) && n == k + |PrintSpends(spends[1..])|
  {
    k := CutTokens(t, c, PrintSpend(spends[0]), PrintSpends(spends[1..]), n);
    s1 := NextSpend(t, c, spends[0], k, items);
  }

  lemma SpendsJoin(r: Parsed<Items>, r1: Parsed<Items>, items: Items, spends: seq<Spend>, s1: Spend, rest: seq<Spend>, n: nat)
    returns (spends1: seq<Spend>)
    requires spends != [] && SpendAlike(s1, spends[0]) && SpendsAlike(rest, spends[1..])
    requires Same(r, r1) && Same(r1, Success((Items(items.block, items.spends + [s1] + rest), n)))
    ensures SpendsAlike(spends1, spends) && Same(r, Success((Items(items.block, items.spends + spends1), n)))
  {
    spends1 := [s1] + rest;
    SpendsAlikeCons(spends, s1, rest);
    ConcatAssociates(items.spends, [s1], rest);
    CollectedItems(r1, items.block, items.spends + [s1] + rest, items.spends + spends1, n);
  }

  lemma {:induction false} SpendsParse(t: seq<Token>, c: nat, spends: seq<Spend>, n: nat, items: Items) returns (spends1: seq<Spend>)
    requires At(t, c, PrintSpends(spends)) && n == c + |PrintSpends(spends)| && Check(t, n, RightBrace)
    ensures SpendsAlike(spends1, spends)
    ensures Same(ParseContractItems(t, c, items), Success((Items(items.block, items.spends + spends1), n)))
    decreases spends
  {
    if spends == [] {
      spends1 := [];
      ConcatAssociates(items.spends, [], []);
    } else {
      var k, s1 := FirstSpend(t, c, spends, n, items);
      var next := Items(items.block, items.spends + [s1]);
      var rest := SpendsParse(t, k, spends[1..], n, next);
      spends1 := SpendsJoin(ParseContractItems(t, c, items), ParseContractItems(t, k, next), items, spends, s1, rest, n);
    }
  }

  lemma CollectedItems(r: Parsed<Items>, block: Block, spends: seq<Spend>, spends1: seq<Spend>, n: nat)
    requires Same(r, Success((Items(block, spends), n))) && Same(spends, spends1)
    ensures Same(r, Success((Items(block, spends1), n)))
  {
  }

  lemma SpendItemStep(t: seq<Token>, c: nat, c1: nat, spend: Spend, k: nat, items: Items)
    requires c1 == c + 1 && c < k <= |t| && t[c].kind == SpendWord && Same(ParseSpend(t, c1), Success((spend, k)))
    ensures Same(ParseContractItems(t, c, items), ParseContractItems(t, k, Items(items.block, items.spends + [spend])))
  {
  }

  lemma BlockItemStep(t: seq<Token>, c: nat, c1: nat, block: Block, k: nat)
    requires c1 == c + 1 && c < k <= |t| && t[c].kind == ParamsWord && Same(ParseParamsBlock(t, c1), Success((block, k)))
    ensures Same(ParseContractItems(t, c, Items(Block([], NoDepth), [])), ParseContractItems(t, k, Items(block, [])))
  {
    ConcatAssociates(block.params, [], []);
    assert Block([], NoDepth).Join(block) == block;
  }

  lemma NextBlock(t: seq<Token>, c: nat, contract: Contract, k: nat) returns (params1: seq<Param>)
    requires Writable(contract) && At(t, c, PrintBlock(contract)) && k == c + |PrintBlock(contract)|
    ensures c < k <= |t| && ParamsAlike(params1, contract.params)
    ensures Same(ParseContractItems(t, c, Items(Block([], NoDepth), [])),
                 ParseContractItems(t, k, Items(Block(params1, contract.finalityDepth), [])))
  {
    var c1 := c + 1;
    params1 := BlockParses(t, c, c1, contract, k);
    BlockItemStep(t, c, c1, Block(params1, contract.finalityDepth), k);
  }

  lemma AllSpendsParse(t: seq<Token>, c: nat, k: nat, spends: seq<Spend>, n: nat, block: Block) returns (spends1: seq<Spend>)
    requires c <= k <= |t| && Same(ParseContractItems(t, c, Items(Block([], NoDepth), [])), ParseContractItems(t, k, Items(block, [])))
    requires At(t, k, PrintSpends(spends)) && n == k + |PrintSpends(spends)| && Check(t, n, RightBrace)
    ensures SpendsAlike(spends1, spends)
    ensures Same(ParseContractItems(t, c, Items(Block([], NoDepth), [])), Success((Items(block, spends1), n)))
  {
    spends1 := SpendsParse(t, k, spends, n, Items(block, []));
    ConcatAssociates(spends1, [], []);
    CollectedItems(ParseContractItems(t, k, Items(block, [])), block, [] + spends1, spends1, n);
  }

  lemma ContractBodyParses(t: seq<Token>, c: nat, contract: Contract, n: nat, start: nat, name: Ident) returns (c1: Contract)
    requires Writable(contract) && name.name == contract.name.name
    requires At(t, c, PrintBlock(contract) + (PrintSpends(contract.spends) + [RightBrace]))
    requires n == c + |PrintBlock(contract)| + |PrintSpends(contract.spends)| + 1
    ensures c < n <= |t| && ContractAlike(c1, contract) && Same(ParseContractBody(t, c, start, name), Success((c1, n)))
  {
    var k := c + |PrintBlock(contract)|;
    AtSplit(t, c, PrintBlock(contract), PrintSpends(contract.spends) + [RightBrace]);
    AtSplit(t, k, PrintSpends(contract.spends), [RightBrace]);
    AtHead(t, n - 1, RightBrace, []);
    var params1 := NextBlock(t, c, contract, k);
    var block := Block(params1, contract.finalityDepth);
    var m := n - 1;
    var spends1 := AllSpendsParse(t, c, k, contract.spends, m, block);
    c1 := Contract(name, params1, contract.finalityDepth, spends1, Span(start, t[m].span.end));
    ContractBodyStep(t, c, start, name, block, spends1, m, n);
  }

  lemma ContractBodyStep(t: seq<Token>, c: nat, start: nat, name: Ident, block: Block, spends: seq<Spend>, m: nat, n: nat)
    requires n == m + 1 && c <= m < |t|
    requires Same(ParseContractItems(t, c, Items(Block([], NoDepth), [])), Success((Items(block, spends), m)))
    ensures Same(ParseContractBody(t, c, start, name),
                 Success((Contract(name, block.params, block.depth, spends, Span(start, t[m].span.end)), n)))
  {
  }

  lemma ContractParses(t: seq<Token>, c: nat, contract: Contract, n: nat) returns (c1: Contract)
    requires Writable(contract) && At(t, c, PrintContract(contract)) && n == c + |PrintContract(contract)|
    ensures c < n <= |t| && ContractAlike(c1, contract) && Same(ParseContract(t, c), Success((c1, n)))
  {
    var rest := PrintBlock(contract) + (PrintSpends(contract.spends) + [RightBrace]);
    AtHead(t, c, ContractWord, [NameToken(contract.name.name)] + ([LeftBrace] + rest));
    AtHead(t, c + 1, NameToken(contract.name.name), [LeftBrace] + rest);
    AtHead(t, c + 2, LeftBrace, rest);
    var c3, name := c + 3, Ident(contract.name.name, t[c + 1].span);
    c1 := ContractBodyParses(t, c3, contract, n, t[c].span.start, name);
    ContractStep(t, c, c3, name);
  }

  lemma ContractStep(t: seq<Token>, c: nat, c3: nat, name: Ident)
    requires c3 == c + 3 && c3 <= |t| && t[c].kind == ContractWord && t[c + 2].kind == LeftBrace
    requires t[c + 1].kind == NameToken(name.name) && name.span == t[c + 1].span
    ensures Same(ParseContract(t, c), ParseContractBody(t, c3, t[c].span.start, name))
  {
  }

  lemma NextContract(t: seq<Token>, c: nat, contract: Contract, k: nat, before: seq<Contract>) returns (c1: Contract)
    requires Writable(contract) && At(t, c, PrintContract(contract)) && k == c + |PrintContract(contract)|
    ensures c < k <= |t| && ContractAlike(c1, contract)
    ensures Same(ParseProgram(t, c, before), ParseProgram(t, k, before + [c1]))
  {
    c1 := ContractParses(t, c, contract, k);
  }

  lemma {:induction false} ContractsParse(t: seq<Token>, c: nat, contracts: seq<Contract>, before: seq<Contract>) returns (contracts1: seq<Contract>)
    requires forall i :: 0 <= i < |contracts| ==> Writable(contracts[i])
    requires At(t, c, PrintProgram(contracts)) && |t| == c + |PrintProgram(contracts)|
    ensures ProgramAlike(contracts1, contracts) && Same(ParseProgram(t, c, before), Success((before + contracts1, |t|)))
    decreases contracts
  {
    if contracts == [] {
      contracts1 := [];
      ConcatAssociates(before, [], []);
    } else {
      var k := c + |PrintContract(contracts[0])|;
      AtSplit(t, c, PrintContract(contracts[0]), PrintProgram(contracts[1..]));
      var c1 := NextContract(t, c, contracts[0], k, before);
      var rest := ContractsParse(t, k, contracts[1..], before + [c1]);
      contracts1 := [c1] + rest;
      ProgramAlikeCons(contracts, c1, rest);
      ConcatAssociates(before, [c1], rest);
      Collected(ParseProgram(t, c, before), before + [c1] + rest, before + contracts1, |t|);
    }
  }

  // ---- a parameter called `finality_depth` cannot be written ----

  lemma DepthEntryFails(t: seq<Token>, c: nat, p: Param, block: Block)
    requires At(t, c, PrintParam(p)) && p.name.name == "finality_depth"
    ensures c <= |t| && ParseEntries(t, c, block).Failure?
  {
    ParamTokens(t, c, p);
    IdentifierParses(t, c, p.name.name);
    assert ParseEntryValue(t, c + 2, Ident(p.name.name, t[c].span)).Failure?;
    assert ParseEntry(t, c).Failure?;
  }

  lemma FailsAlike<T(!new)>(r: Parsed<T>, r1: Parsed<T>)
    requires Same(r, r1) && r1.Failure?
    ensures r.Failure?
  {
  }

  lemma FirstEntry(t: seq<Token>, c: nat, params: seq<Param>, rest: seq<Param>, block: Block) returns (k: nat, next: Block)
    requires params != [] && rest == params[1..] && At(t, c, PrintParams(params)) && params[0].name.name != "finality_depth"
    ensures c <= |t| && k <= |t| && At(t, k, PrintParams(rest)) && Same(ParseEntries(t, c, block), ParseEntries(t, k, next))
  {
    k := c + 4;
    AtSplit(t, c, PrintParam(params[0]), PrintParams(rest));
    var p1 := EntryStep(t, c, k, params[0], block);
    next := Block(block.params + [p1], block.depth);
  }

  lemma HeadEntryFails(t: seq<Token>, c: nat, params: seq<Param>, block: Block)
    requires params != [] && At(t, c, PrintParams(params)) && params[0].name.name == "finality_depth"
    ensures c <= |t| && ParseEntries(t, c, block).Failure?
  {
    AtSplit(t, c, PrintParam(params[0]), PrintParams(params[1..]));
    DepthEntryFails(t, c, params[0], block);
  }

  lemma {:induction false} EntriesFail(t: seq<Token>, c: nat, params: seq<Param>, rest: seq<Param>, j: nat, block: Block)
    requires params != [] && rest == params[1..]
    requires At(t, c, PrintParams(params)) && j < |params| && params[j].name.name == "finality_depth"
    ensures c <= |t| && ParseEntries(t, c, block).Failure?
    decreases params
  {
    if params[0].name.name == "finality_depth" {
      HeadEntryFails(t, c, params, block);
    } else {
      var k, next := FirstEntry(t, c, params, rest, block);
      LaterParam(params, rest, j);
      EntriesFail(t, k, rest, rest[1..], j - 1, next);
      FailsAlike(ParseEntries(t, c, block), ParseEntries(t, k, next));
    }
  }

  lemma LaterParam(params: seq<Param>, rest: seq<Param>, j: nat)
    requires params != [] && rest == params[1..] && j < |params| && params[j].name.name == "finality_depth"
    requires params[0].name.name != "finality_depth"
    ensures 0 < j && rest != [] && rest[j - 1].name.name == "finality_depth"
  {
    assert rest[j - 1] == params[j];
  }

  lemma BlockStopsItems(t: seq<Token>, c: nat, c1: nat, c2: nat, items: Items)
    requires c1 == c + 1 && c2 == c + 2 && Check(t, c, ParamsWord) && Check(t, c1, LeftBrace)
    requires c2 <= |t| && ParseEntries(t, c2, Block([], NoDepth)).Failure?
    ensures ParseContractItems(t, c, items).Failure?
  {
    assert ParseParamsBlock(t, c1).Failure?;
  }

  lemma BlockFails(t: seq<Token>, c: nat, contract: Contract, items: Items)
    requires !Writable(contract) && At(t, c, PrintBlock(contract))
    ensures c <= |t| && ParseContractItems(t, c, items).Failure?
  {
    var n, c1, c2 := c + |PrintBlock(contract)|, c + 1, c + 2;
    var k := BlockTokens(t, c, contract, n);
    var j :| 0 <= j < |contract.params| && contract.params[j].name.name == "finality_depth";
    EntriesFail(t, c2, contract.params, contract.params[1..], j, Block([], NoDepth));
    BlockStopsItems(t, c, c1, c2, items);
  }

  lemma ContractTokens(t: seq<Token>, c: nat, c3: nat, contract: Contract)
    requires c3 == c + 3 && At(t, c, PrintContract(contract))
    ensures c3 <= |t| && t[c].kind == ContractWord && t[c + 1].kind == NameToken(contract.name.name) && t[c + 2].kind == LeftBrace
    ensures At(t, c3, PrintBlock(contract))
  {
    var more := PrintSpends(contract.spends) + [RightBrace];
    var rest := PrintBlock(contract) + more;
    AtHead(t, c, ContractWord, [NameToken(contract.name.name)] + ([LeftBrace] + rest));
    AtHead(t, c + 1, NameToken(contract.name.name), [LeftBrace] + rest);
    AtHead(t, c + 2, LeftBrace, rest);
    AtSplit(t, c3, PrintBlock(contract), more);
  }

  lemma ContractBodyFails(t: seq<Token>, c: nat, start: nat, name: Ident, contract: Contract)
    requires !Writable(contract) && At(t, c, PrintBlock(contract))
    ensures c <= |t| && ParseContractBody(t, c, start, name).Failure?
  {
    BlockFails(t, c, contract, Items(Block([], NoDepth), []));
  }

  lemma ContractFails(t: seq<Token>, c: nat, contract: Contract)
    requires !Writable(contract) && At(t, c, PrintContract(contract))
    ensures c <= |t| && ParseContract(t, c).Failure?
  {
    var c3 := c + 3;
    ContractTokens(t, c, c3, contract);
    var name := Ident(contract.name.name, t[c + 1].span);
    ContractBodyFails(t, c3, t[c].span.start, name, contract);
    ContractStep(t, c, c3, name);
  }

  lemma ContractStopsProgram(t: seq<Token>, c: nat, contracts: seq<Contract>, before: seq<Contract>)
    requires contracts != [] && !Writable(contracts[0]) && At(t, c, PrintProgram(contracts))
    ensures c <= |t| && ParseProgram(t, c, before).Failure?
  {
    AtSplit(t, c, PrintContract(contracts[0]), PrintProgram(contracts[1..]));
    ContractFails(t, c, contracts[0]);
    assert c < |t| by { AtHead(t, c, ContractWord, PrintContract(contracts[0])[1..]); }
  }

  lemma {:induction false} ContractsFail(t: seq<Token>, c: nat, contracts: seq<Contract>, rest: seq<Contract>, j: nat, before: seq<Contract>)
    requires contracts != [] && rest == contracts[1..] && j < |contracts| && !Writable(contracts[j])
    requires At(t, c, PrintProgram(contracts)) && |t| == c + |PrintProgram(contracts)|
    ensures ParseProgram(t, c, before).Failure?
    decreases contracts
  {
    if Writable(contracts[0]) {
      var k := CutTokens(t, c, PrintContract(contracts[0]), PrintProgram(rest), |t|);
      var c1 := NextContract(t, c, contracts[0], k, before);
      assert rest[j - 1] == contracts[j];
      ContractsFail(t, k, rest, rest[1..], j - 1, before + [c1]);
      FailsAlike(ParseProgram(t, c, before), ParseProgram(t, k, before + [c1]));
    } else {
      ContractStopsProgram(t, c, contracts, before);
    }
  }

  predicate AllWritable(contracts: seq<Contract>) { forall i :: 0 <= i < |contracts| ==> Writable(contracts[i]) }

  lemma WritableProgramParses(t: seq<Token>, contracts: seq<Contract>)
    requires AllWritable(contracts) && Spells(t, PrintProgram(contracts))
    ensures ParseProgram(t, 0, []).Success? && ProgramAlike(ParseProgram(t, 0, []).value.0, contracts)
  {
    var contracts1 := ContractsParse(t, 0, contracts, []);
    ConcatAssociates(contracts1, [], []);
  }

  lemma OtherProgramFails(t: seq<Token>, contracts: seq<Contract>)
    requires !AllWritable(contracts) && Spells(t, PrintProgram(contracts))
    ensures ParseProgram(t, 0, []).Failure?
  {
    var j :| 0 <= j < |contracts| && !Writable(contracts[j]);
    ContractsFail(t, 0, contracts, contracts[1..], j, []);
  }

  /** Parsing a printed program gives the program back up to positions if and only if no contract
      parameter is called `finality_depth`. */
  lemma ParsingUndoesPrintingPrograms(t: seq<Token>, contracts: seq<Contract>)
    requires Spells(t, PrintProgram(contracts))
    ensures ParseProgram(t, 0, []).Success? && ProgramAlike(ParseProgram(t, 0, []).value.0, contracts) <==> AllWritable(contracts)
  {
    if AllWritable(contracts) {
      WritableProgramParses(t, contracts);
    } else {
      OtherProgramFails(t, contracts);
    }
  }
}
