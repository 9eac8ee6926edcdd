/** Writing expressions as tokens: with the fewest parentheses, and the way a wallet is shown them
    (compiler/model/src/lib.rs). */
module Printer {
  import opened Wrappers
  import opened ScriptNumbers
  import opened Syntax
  import opened Tokens
  import opened Grammar
  import opened Readings

  /** The tokens of an expression where only expressions of level `q` or more may stand bare. */
  function Print(e: Expr, q: nat): seq<TokenKind>
    decreases e, 1
  {
    if Level(e) < q then [LeftParen] + (Bare(e) + [RightParen]) else Bare(e)
  }

  function Bare(e: Expr): seq<TokenKind>
    decreases e, 0
  {
    match e
    case Name(ident) => [NameToken(ident.name)]
    case Integer(value, _) => [Numeral(Decimal(value))]
    case Text(text, _) => [Quoted(text)]
    case Truth(truth, _) => [if truth then TrueWord else FalseWord]
    case Array(elements, _) => [LeftBracket] + (PrintAll(elements) + [RightBracket])
    case Unary(uop, operand, _) => [PrefixToken(uop)] + Print(operand, 7)
    case Binary(left, op, right, _) => Print(left, Precedence(op)) + ([OperatorToken(op)] + Print(right, Precedence(op) + 1))
    case Call(callee, args, _) => Print(callee, 8) + ([LeftParen] + (PrintAll(args) + [RightParen]))
    case Field(target, field, _) => Print(target, 8) + [Dot, NameToken(field.name)]
  }

  function PrintAll(es: seq<Expr>): seq<TokenKind>
    decreases es, 2
  {
    if es == [] then []
    else if |es| == 1 then Print(es[0], 0)
    else Print(es[0], 0) + ([Comma] + PrintAll(es[1..]))
  }

  /** The expression without its source positions. */
  function Erase(e: Expr): Expr
    decreases e, 0
  {
    match e
    case Name(ident) => Name(Ident(ident.name, NOWHERE))
    case Integer(value, _) => Integer(value, NOWHERE)
    case Text(text, _) => Text(text, NOWHERE)
    case Truth(truth, _) => Truth(truth, NOWHERE)
    case Array(elements, _) => Array(EraseAll(elements), NOWHERE)
    case Unary(uop, operand, _) => Unary(uop, Erase(operand), NOWHERE)
    case Binary(left, op, right, _) => Binary(Erase(left), op, Erase(right), NOWHERE)
    case Call(callee, args, _) => Call(Erase(callee), EraseAll(args), NOWHERE)
    case Field(target, field, _) => Field(Erase(target), Ident(field.name, NOWHERE), NOWHERE)
  }

  function EraseAll(es: seq<Expr>): (r: seq<Expr>)
    ensures |r| == |es|
    decreases es, 1
  {
    if es == [] then [] else [Erase(es[0])] + EraseAll(es[1..])
  }

  /** The same expression up to source positions. */
  ghost predicate Alike(a: Expr, b: Expr) { Same(Erase(a), Erase(b)) }

  ghost predicate AllAlike(a: seq<Expr>, b: seq<Expr>) { Same(EraseAll(a), EraseAll(b)) }

  lemma AlikeByParts(a: Expr, b: Expr)
    requires match a
             case Name(ident) => b.Name? && b.ident.name == ident.name
             case Integer(value, _) => b.Integer? && b.value == value
             case Text(text, _) => b.Text? && b.text == text
             case Truth(truth, _) => b.Truth? && b.truth == truth
             case Array(elements, _) => b.Array? && AllAlike(b.elements, elements)
             case Unary(uop, operand, _) => b.Unary? && b.uop == uop && Alike(b.operand, operand)
             case Binary(left, op, right, _) => b.Binary? && b.op == op && Alike(b.left, left) && Alike(b.right, right)
             case Call(callee, args, _) => b.Call? && Alike(b.callee, callee) && AllAlike(b.args, args)
             case Field(target, field, _) => b.Field? && b.field.name == field.name && Alike(b.target, target)
    ensures Alike(b, a)
  {
  }

  lemma AllAlikeByParts(a: seq<Expr>, b: Expr, rest: seq<Expr>)
    requires a != [] && Alike(b, a[0]) && AllAlike(rest, a[1..])
    ensures AllAlike([b] + rest, a)
  {
    OneMore(b, rest);
  }

  // ---- printed tokens read as the expression ----

  /** The given kinds stand in the token list from the cursor on. */
  ghost predicate At(t: seq<Token>, c: nat, kinds: seq<TokenKind>) {
    c + |kinds| <= |t| && forall i :: 0 <= i < |kinds| ==> t[c + i].kind == kinds[i]
  }

  lemma AtSplit(t: seq<Token>, c: nat, a: seq<TokenKind>, b: seq<TokenKind>)
    requires At(t, c, a + b)
    ensures At(t, c, a) && At(t, c + |a|, b)
  {
    forall i | 0 <= i < |a| ensures t[c + i].kind == a[i] {
      assert (a + b)[i] == a[i];
    }
    forall i | 0 <= i < |b| ensures t[c + |a| + i].kind == b[i] {
      assert (a + b)[|a| + i] == b[i];
    }
  }

  lemma AtHead(t: seq<Token>, c: nat, first: TokenKind, rest: seq<TokenKind>)
    requires At(t, c, [first] + rest)
    ensures c < |t| && t[c].kind == first && At(t, c + 1, rest)
  {
    AtSplit(t, c, [first], rest);
    assert t[c + 0].kind == [first][0];
  }

  /** A list between two tokens. */
  lemma AtList(t: seq<Token>, c: nat, open: TokenKind, list: seq<TokenKind>, close: TokenKind)
    requires At(t, c, [open] + (list + [close]))
    ensures Check(t, c, open) && At(t, c + 1, list) && Check(t, c + 1 + |list|, close)
  {
    AtHead(t, c, open, list + [close]);
    AtSplit(t, c + 1, list, [close]);
    AtHead(t, c + 1 + |list|, close, []);
  }

  lemma {:induction false} PrintedReads(t: seq<Token>, c: nat, n: nat, e: Expr, q: nat) returns (e1: Expr)
    requires At(t, c, Print(e, q)) && n == c + |Print(e, q)|
    ensures n <= |t| && Alike(e1, e) && Reads(t, c, n, e1, q)
    decreases e, 2
  {
    if Level(e) < q {
      AtList(t, c, LeftParen, Bare(e), RightParen);
      e1 := BareReads(t, c + 1, n - 1, e);
      Weaken(t, c + 1, n - 1, e1, Level(e), 0);
    } else {
      e1 := BareReads(t, c, n, e);
      Weaken(t, c, n, e1, Level(e), q);
    }
  }

  lemma {:induction false} BareReads(t: seq<Token>, c: nat, n: nat, e: Expr) returns (e1: Expr)
    requires At(t, c, Bare(e)) && n == c + |Bare(e)|
    ensures n <= |t| && Alike(e1, e) && Reads(t, c, n, e1, Level(e))
    decreases e, 1
  {
    if e.Binary? {
      e1 := BinaryReads(t, c, n, e);
    } else if e.Unary? {
      e1 := UnaryReads(t, c, n, e);
    } else if e.Array? {
      e1 := ArrayReads(t, c, n, e);
    } else if e.Call? {
      e1 := CallReads(t, c, n, e);
    } else if e.Field? {
      e1 := FieldReads(t, c, n, e);
    } else {
      e1 := LiteralReads(t, c, e);
    }
  }

  lemma LiteralReads(t: seq<Token>, c: nat, e: Expr) returns (e1: Expr)
    requires (e.Name? || e.Integer? || e.Text? || e.Truth?) && At(t, c, Bare(e))
    ensures |Bare(e)| == 1 && Alike(e1, e) && Reads(t, c, c + 1, e1, 8)
  {
    assert t[c + 0].kind == Bare(e)[0];
    e1 := PrintedLiteral(t[c], e);
    WholeLiteral(t, c, e1);
  }

  lemma PrintedLiteral(token: Token, e: Expr) returns (e1: Expr)
    requires (e.Name? || e.Integer? || e.Text? || e.Truth?) && token.kind == Bare(e)[0]
    ensures Same(LiteralOf(token), Success(e1)) && Alike(e1, e)
  {
    if e.Integer? {
      DecimalParses(e.value);
      e1 := Integer(e.value, token.span);
    } else if e.Name? {
      e1 := Name(Ident(e.ident.name, token.span));
    } else if e.Text? {
      e1 := Text(e.text, token.span);
    } else {
      e1 := Truth(e.truth, token.span);
    }
  }

  lemma {:induction false} UnaryReads(t: seq<Token>, c: nat, n: nat, e: Expr) returns (e1: Expr)
    requires e.Unary? && At(t, c, Bare(e)) && n == c + |Bare(e)|
    ensures n <= |t| && Alike(e1, e) && Reads(t, c, n, e1, 7)
    decreases e, 0
  {
    AtHead(t, c, PrefixToken(e.uop), Print(e.operand, 7));
    var operand := PrintedReads(t, c + 1, n, e.operand, 7);
    e1 := Prefixed(e.uop, t[c].span.start, operand);
    assert ReadsUnary(t, c, n, e1);
    Whole(t, c, 0, n, e1);
    AlikeByParts(e, e1);
  }

  lemma {:induction false} ArrayReads(t: seq<Token>, c: nat, n: nat, e: Expr) returns (e1: Expr)
    requires e.Array? && At(t, c, Bare(e)) && n == c + |Bare(e)|
    ensures n <= |t| && Alike(e1, e) && Reads(t, c, n, e1, 8)
    decreases e, 0
  {
    AtList(t, c, LeftBracket, PrintAll(e.elements), RightBracket);
    var elements := ItemsRead(t, c + 1, n - 1, e.elements);
    e1 := Array(elements, Span(t[c].span.start, t[n - 1].span.end));
    assert ReadsArray(t, c, n, e1);
    Whole(t, c, 0, n, e1);
    AlikeByParts(e, e1);
  }

  lemma {:induction false} BinaryReads(t: seq<Token>, c: nat, n: nat, e: Expr) returns (e1: Expr)
    requires e.Binary? && At(t, c, Bare(e)) && n == c + |Bare(e)|
    ensures n <= |t| && Alike(e1, e) && Reads(t, c, n, e1, Level(e))
    decreases e, 0
  {
    var p := Precedence(e.op);
    var k := c + |Print(e.left, p)|;
    AtSplit(t, c, Print(e.left, p), [OperatorToken(e.op)] + Print(e.right, p + 1));
    AtHead(t, k, OperatorToken(e.op), Print(e.right, p + 1));
    var left := PrintedReads(t, c, k, e.left, p);
    var right := PrintedReads(t, k + 1, n, e.right, p + 1);
    e1 := Joined(left, e.op, right);
    AlikeByParts(e, e1);
    assert ReadsBinary(t, c, k, n, e1);
    Whole(t, c, k, n, e1);
  }

  lemma CallTokens(t: seq<Token>, c: nat, n: nat, e: Expr) returns (k: nat)
    requires e.Call? && At(t, c, Bare(e)) && n == c + |Bare(e)|
    ensures k == c + |Print(e.callee, 8)| && n == k + 2 + |PrintAll(e.args)| <= |t|
    ensures At(t, c, Print(e.callee, 8)) && Check(t, k, LeftParen) && At(t, k + 1, PrintAll(e.args)) && Check(t, n - 1, RightParen)
  {
    k := c + |Print(e.callee, 8)|;
    AtSplit(t, c, Print(e.callee, 8), [LeftParen] + (PrintAll(e.args) + [RightParen]));
    AtList(t, k, LeftParen, PrintAll(e.args), RightParen);
  }

  lemma {:induction false} CallReads(t: seq<Token>, c: nat, n: nat, e: Expr) returns (e1: Expr)
    requires e.Call? && At(t, c, Bare(e)) && n == c + |Bare(e)|
    ensures n <= |t| && Alike(e1, e) && Reads(t, c, n, e1, 8)
    decreases e, 0
  {
    var k := CallTokens(t, c, n, e);
    var callee := PrintedReads(t, c, k, e.callee, 8);
    var args := ItemsRead(t, k + 1, n - 1, e.args);
    e1 := Called(callee, args, t[n - 1].span.end);
    assert ReadsCall(t, c, k, n, e1);
    Whole(t, c, k, n, e1);
    AlikeByParts(e, e1);
  }

  lemma {:induction false} FieldReads(t: seq<Token>, c: nat, n: nat, e: Expr) returns (e1: Expr)
    requires e.Field? && At(t, c, Bare(e)) && n == c + |Bare(e)|
    ensures n <= |t| && Alike(e1, e) && Reads(t, c, n, e1, 8)
    decreases e, 0
  {
    var tail := [Dot, NameToken(e.field.name)];
    AtSplit(t, c, Print(e.target, 8), tail);
    assert t[n - 2 + 0].kind == tail[0] && t[n - 2 + 1].kind == tail[1];
    var target := PrintedReads(t, c, n - 2, e.target, 8);
    e1 := Selected(target, Ident(e.field.name, t[n - 1].span));
    AlikeByParts(e, e1);
    assert ReadsField(t, c, n, e1);
    Whole(t, c, 0, n, e1);
  }

  lemma {:induction false} ItemsRead(t: seq<Token>, c: nat, n: nat, es: seq<Expr>) returns (es1: seq<Expr>)
    requires At(t, c, PrintAll(es)) && n == c + |PrintAll(es)|
    ensures n <= |t| && AllAlike(es1, es) && ReadsItems(t, c, n, es1)
    decreases es, 3
  {
    if es == [] {
      es1 := [];
    } else {
      var k := c + |Print(es[0], 0)|;
      var rest: seq<Expr> := [];
      if |es| > 1 {
        AtSplit(t, c, Print(es[0], 0), [Comma] + PrintAll(es[1..]));
        AtHead(t, k, Comma, PrintAll(es[1..]));
        rest := ItemsRead(t, k + 1, n, es[1..]);
      }
      var e1 := PrintedReads(t, c, k, es[0], 0);
      ReadingIsLong(t, c, k, e1, 0);
      es1 := [e1] + rest;
      AllAlikeByParts(es, e1, rest);
      OneMore(e1, rest);
      assert ReadsFirst(t, c, k, n, es1);
    }
  }

  // ---- printing and parsing ----

  /** The kinds of all tokens of a list. */
  ghost predicate Spells(t: seq<Token>, kinds: seq<TokenKind>) { |t| == |kinds| && At(t, 0, kinds) }

  /** The parser reads the whole list as the expression, up to source positions. */
  ghost predicate ParsesTo(t: seq<Token>, e: Expr) {
    ParseExpression(t, 0).Success? && ParseExpression(t, 0).value.1 == |t| && Alike(ParseExpression(t, 0).value.0, e)
  }

  /** Parsing undoes printing, whatever positions the tokens carry. */
  lemma ParsingUndoesPrinting(t: seq<Token>, e: Expr)
    requires Spells(t, Print(e, 0))
    ensures ParsesTo(t, e)
  {
    var e1 := PrintedReads(t, 0, |t|, e, 0);
    ParserFindsReadings(t, 0, |t|, e1, 0);
    assert ParseExpression(t, 0) == ParsePrecedence(t, 0, 0);
  }

  // ---- how operators group ----

  predicate IsFactor(op: BinaryOp) { op.Mul? || op.Div? || op.Mod? }

  predicate IsTerm(op: BinaryOp) { op.Add? || op.Sub? }

  predicate IsOrder(op: BinaryOp) { op.Greater? || op.GreaterEqual? || op.Less? || op.LessEqual? }

  predicate IsEquality(op: BinaryOp) { op.Equal? || op.NotEqual? }

  /** Products bind closest, then sums, then orders, then equalities, then `&&`, then `||`. */
  predicate BindsCloser(op: BinaryOp, other: BinaryOp) {
    (IsFactor(op) && !IsFactor(other))
    || (IsTerm(op) && !IsFactor(other) && !IsTerm(other))
    || (IsOrder(op) && (IsEquality(other) || other.And? || other.Or?))
    || (IsEquality(op) && (other.And? || other.Or?))
    || (op.And? && other.Or?)
  }

  function Operand(name: string): Expr { Name(Ident(name, NOWHERE)) }

  function Grouped(left: Expr, op: BinaryOp, right: Expr): Expr { Binary(left, op, right, NOWHERE) }

  lemma OperandPrinted(name: string, q: nat)
    requires q <= 7
    ensures Print(Operand(name), q) == [NameToken(name)]
  {
  }

  lemma PairPrinted(a: string, op: BinaryOp, b: string, q: nat)
    requires q <= Precedence(op)
    ensures Print(Grouped(Operand(a), op, Operand(b)), q) == [NameToken(a), OperatorToken(op), NameToken(b)]
  {
    OperandPrinted(a, Precedence(op));
    OperandPrinted(b, Precedence(op) + 1);
  }

  lemma PrecedenceOrders(op: BinaryOp, other: BinaryOp)
    ensures Precedence(op) < Precedence(other) <==> BindsCloser(other, op)
  {
  }

  function Triple(a: string, op: BinaryOp, b: string, other: BinaryOp, c: string): Expr {
    if BindsCloser(other, op) then Grouped(Operand(a), op, Grouped(Operand(b), other, Operand(c)))
    else Grouped(Grouped(Operand(a), op, Operand(b)), other, Operand(c))
  }

  lemma TriplePrinted(a: string, op: BinaryOp, b: string, other: BinaryOp, c: string)
    ensures Print(Triple(a, op, b, other, c), 0) == [NameToken(a), OperatorToken(op), NameToken(b), OperatorToken(other), NameToken(c)]
  {
    PrecedenceOrders(op, other);
    if BindsCloser(other, op) {
      OperandPrinted(a, Precedence(op));
      PairPrinted(b, other, c, Precedence(op) + 1);
    } else {
      PairPrinted(a, op, b, Precedence(other));
      OperandPrinted(c, Precedence(other) + 1);
    }
  }

  /** `a op b other c` groups to the right if and only if the second operator binds closer. */
  lemma OperatorsGroup(t: seq<Token>, a: string, op: BinaryOp, b: string, other: BinaryOp, c: string)
    requires Spells(t, [NameToken(a), OperatorToken(op), NameToken(b), OperatorToken(other), NameToken(c)])
    ensures ParsesTo(t, if BindsCloser(other, op) then Grouped(Operand(a), op, Grouped(Operand(b), other, Operand(c)))
                        else Grouped(Grouped(Operand(a), op, Operand(b)), other, Operand(c)))
  {
    TriplePrinted(a, op, b, other, c);
    ParsingUndoesPrinting(t, Triple(a, op, b, other, c));
  }

  /** Printed forms of expressions that differ only in positions are the same. */
  lemma {:induction false} PrintOfErased(e: Expr, q: nat)
    ensures Print(Erase(e), q) == Print(e, q)
    decreases e, 1
  {
    assert Level(Erase(e)) == Level(e);
    BareOfErased(e);
  }

  lemma {:induction false} BareOfErased(e: Expr)
    ensures Bare(Erase(e)) == Bare(e)
    decreases e, 0
  {
    if e.Array? {
      PrintAllOfErased(e.elements);
    } else if e.Unary? {
      PrintOfErased(e.operand, 7);
    } else if e.Binary? {
      PrintOfErased(e.left, Precedence(e.op));
      PrintOfErased(e.right, Precedence(e.op) + 1);
    } else if e.Call? {
      PrintOfErased(e.callee, 8);
      PrintAllOfErased(e.args);
    } else if e.Field? {
      PrintOfErased(e.target, 8);
    }
  }

  lemma {:induction false} PrintAllOfErased(es: seq<Expr>)
    ensures PrintAll(EraseAll(es)) == PrintAll(es)
    decreases es, 2
  {
    if es != [] {
      PrintOfErased(es[0], 0);
      PrintAllOfErased(es[1..]);
      OneMore(Erase(es[0]), EraseAll(es[1..]));
    }
  }

  lemma AlikePrintsAlike(a: Expr, b: Expr, q: nat)
    requires Alike(a, b)
    ensures Print(a, q) == Print(b, q)
  {
    PrintOfErased(a, q);
    PrintOfErased(b, q);
  }

  // ---- no shorter spelling ----

  lemma {:induction false} ReadingIsNoShorter(t: seq<Token>, c: nat, n: nat, e: Expr, q: nat)
    requires c <= n <= |t| && Reads(t, c, n, e, q)
    ensures |Print(e, q)| <= n - c
    decreases n - c, 1
  {
    if Level(e) >= q && ReadsBare(t, c, n, e) {
      BareIsNoShorter(t, c, n, e);
    } else {
      ReadingIsNoShorter(t, c + 1, n - 1, e, 0);
    }
  }

  lemma {:induction false} BareIsNoShorter(t: seq<Token>, c: nat, n: nat, e: Expr)
    requires c <= n <= |t| && ReadsBare(t, c, n, e)
    ensures |Bare(e)| <= n - c
    decreases n - c, 0
  {
    var k := Cut(t, c, n, e);
    if e.Binary? {
      ReadingIsNoShorter(t, c, k, e.left, Precedence(e.op));
      ReadingIsNoShorter(t, k + 1, n, e.right, Precedence(e.op) + 1);
    } else if e.Unary? {
      ReadingIsNoShorter(t, c + 1, n, e.operand, 7);
    } else if e.Array? {
      ItemsAreNoShorter(t, c + 1, n - 1, e.elements);
    } else if e.Call? {
      ReadingIsNoShorter(t, c, k, e.callee, 8);
      ItemsAreNoShorter(t, k + 1, n - 1, e.args);
    } else if e.Field? {
      ReadingIsNoShorter(t, c, n - 2, e.target, 8);
    }
  }

  lemma {:induction false} ItemsAreNoShorter(t: seq<Token>, c: nat, n: nat, es: seq<Expr>)
    requires c <= n <= |t| && ReadsItems(t, c, n, es)
    ensures |PrintAll(es)| <= n - c
    decreases n - c, 3
  {
    if es != [] {
      var k := CutFirst(t, c, n, es);
      ReadingIsNoShorter(t, c, k, es[0], 0);
      if k < n {
        ItemsAreNoShorter(t, k + 1, n, es[1..]);
      }
    }
  }

  /** No tokens that parse to an expression are fewer than its printed ones: the printer's parentheses
      are only those that precedence and grouping demand. */
  lemma PrintingIsShortest(t: seq<Token>, e: Expr)
    requires ParsesTo(t, e)
    ensures |Print(e, 0)| <= |t|
  {
    var e1 := ParseExpression(t, 0).value.0;
    assert ParsePrecedence(t, 0, 0) == Success((e1, |t|));
    ParserFindsReadings(t, 0, |t|, e1, 0);
    ReadingIsNoShorter(t, 0, |t|, e1, 0);
    AlikePrintsAlike(e1, e, 0);
  }

  // ---- the form a wallet is shown ----

  /** The tokens of the displayed form, which never has parentheses around an operand. */
  function Shown(e: Expr): seq<TokenKind>
    decreases e, 0
  {
    match e
    case Name(ident) => [NameToken(ident.name)]
    case Integer(value, _) => [Numeral(Decimal(value))]
    case Text(text, _) => [Quoted(text)]
    case Truth(truth, _) => [if truth then TrueWord else FalseWord]
    case Array(elements, _) => [LeftBracket] + (ShownAll(elements) + [RightBracket])
    case Unary(uop, operand, _) => [PrefixToken(uop)] + Shown(operand)
    case Binary(left, op, right, _) => Shown(left) + ([OperatorToken(op)] + Shown(right))
    case Call(callee, args, _) => Shown(callee) + ([LeftParen] + (ShownAll(args) + [RightParen]))
    case Field(target, field, _) => Shown(target) + [Dot, NameToken(field.name)]
  }

  function ShownAll(es: seq<Expr>): seq<TokenKind>
    decreases es, 1
  {
    if es == [] then []
    else if |es| == 1 then Shown(es[0])
    else Shown(es[0]) + ([Comma] + ShownAll(es[1..]))
  }

  /** How many pairs of parentheses an expression needs at level `q`. */
  function Pairs(e: Expr, q: nat): nat
    decreases e, 1
  {
    (if Level(e) < q then 1 else 0) + InnerPairs(e)
  }

  function InnerPairs(e: Expr): nat
    decreases e, 0
  {
    match e
    case Array(elements, _) => AllPairs(elements)
    case Unary(uop, operand, _) => Pairs(operand, 7)
    case Binary(left, op, right, _) => Pairs(left, Precedence(op)) + Pairs(right, Precedence(op) + 1)
    case Call(callee, args, _) => Pairs(callee, 8) + AllPairs(args)
    case Field(target, field, _) => Pairs(target, 8)
    case _ => 0
  }

  function AllPairs(es: seq<Expr>): nat
    decreases es, 2
  {
    if es == [] then 0 else Pairs(es[0], 0) + AllPairs(es[1..])
  }

  /** The printed form is the displayed one with the needed parentheses put in. */
  lemma {:induction false} PrintAddsPairs(e: Expr, q: nat)
    ensures |Print(e, q)| == |Shown(e)| + 2 * Pairs(e, q)
    ensures Pairs(e, q) == 0 ==> Same(Print(e, q), Shown(e))
    decreases e, 1
  {
    BareAddsPairs(e);
  }

  lemma {:induction false} BareAddsPairs(e: Expr)
    ensures |Bare(e)| == |Shown(e)| + 2 * InnerPairs(e)
    ensures InnerPairs(e) == 0 ==> Same(Bare(e), Shown(e))
    decreases e, 0
  {
    if e.Array? {
      PrintAllAddsPairs(e.elements);
    } else if e.Unary? {
      PrintAddsPairs(e.operand, 7);
    } else if e.Binary? {
      PrintAddsPairs(e.left, Precedence(e.op));
      PrintAddsPairs(e.right, Precedence(e.op) + 1);
    } else if e.Call? {
      PrintAddsPairs(e.callee, 8);
      PrintAllAddsPairs(e.args);
    } else if e.Field? {
      PrintAddsPairs(e.target, 8);
    }
  }

  lemma {:induction false} PrintAllAddsPairs(es: seq<Expr>)
    ensures |PrintAll(es)| == |ShownAll(es)| + 2 * AllPairs(es)
    ensures AllPairs(es) == 0 ==> Same(PrintAll(es), ShownAll(es))
    decreases es, 2
  {
    if es != [] {
      PrintAddsPairs(es[0], 0);
      PrintAllAddsPairs(es[1..]);
    }
  }

  /** The displayed form parses back to the expression if and only if the expression needs no
      parentheses. */
  lemma DisplayIsExact(t: seq<Token>, e: Expr)
    requires Spells(t, Shown(e))
    ensures ParsesTo(t, e) <==> Pairs(e, 0) == 0
  {
    PrintAddsPairs(e, 0);
    if Pairs(e, 0) == 0 {
      ParsingUndoesPrinting(t, e);
    } else if ParsesTo(t, e) {
      PrintingIsShortest(t, e);
    }
  }

  /** `a - (b - c)` is displayed like `a - b - c`. */
  lemma DisplayCanMislead()
    ensures var a, b, c := Name(Ident("a", NOWHERE)), Name(Ident("b", NOWHERE)), Name(Ident("c", NOWHERE));
            var nested := Binary(a, BinaryOp.Sub, Binary(b, BinaryOp.Sub, c, NOWHERE), NOWHERE);
            var chained := Binary(Binary(a, BinaryOp.Sub, b, NOWHERE), BinaryOp.Sub, c, NOWHERE);
            Shown(nested) == Shown(chained) && Pairs(nested, 0) == 1 && Pairs(chained, 0) == 0
  {
    var a, b, c := Name(Ident("a", NOWHERE)), Name(Ident("b", NOWHERE)), Name(Ident("c", NOWHERE));
    var bc, ab := Binary(b, BinaryOp.Sub, c, NOWHERE), Binary(a, BinaryOp.Sub, b, NOWHERE);
    assert Shown(bc) == Shown(b) + ([Minus] + Shown(c));
    assert Shown(ab) == Shown(a) + ([Minus] + Shown(b));
  }

  // ---- source positions ----

  predicate Within(inner: Span, outer: Span) { outer.start <= inner.start <= inner.end <= outer.end }

  /** Every part of the expression lies within it. */
  predicate Nested(e: Expr)
    decreases e, 0
  {
    e.Where().start <= e.Where().end
    && match e
       case Array(elements, span) => AllWithin(elements, span)
       case Unary(_, operand, span) => Within(operand.Where(), span) && Nested(operand)
       case Binary(left, _, right, span) =>
         Within(left.Where(), span) && Within(right.Where(), span) && Nested(left) && Nested(right)
       case Call(callee, args, span) => Within(callee.Where(), span) && Nested(callee) && AllWithin(args, span)
       case Field(target, field, span) => Within(target.Where(), span) && Within(field.span, span) && Nested(target)
       case _ => true
  }

  predicate AllWithin(es: seq<Expr>, span: Span)
    decreases es, 1
  {
    if es == [] then true else Within(es[0].Where(), span) && Nested(es[0]) && AllWithin(es[1..], span)
  }

  /** Tokens in source order. */
  ghost predicate Ordered(t: seq<Token>) {
    (forall i :: 0 <= i < |t| ==> t[i].span.start <= t[i].span.end)
    && forall i, j :: 0 <= i < j < |t| ==> t[i].span.end <= t[j].span.start
  }

  lemma {:induction false} ReadingNests(t: seq<Token>, c: nat, n: nat, e: Expr, q: nat)
    requires Ordered(t) && c <= n <= |t| && Reads(t, c, n, e, q)
    ensures c < n && Nested(e) && Within(e.Where(), Span(t[c].span.start, t[n - 1].span.end))
    decreases n - c, 1
  {
    if Level(e) >= q && ReadsBare(t, c, n, e) {
      BareNests(t, c, n, e);
    } else {
      ReadingNests(t, c + 1, n - 1, e, 0);
    }
  }

  lemma {:induction false} BareNests(t: seq<Token>, c: nat, n: nat, e: Expr)
    requires Ordered(t) && c <= n <= |t| && ReadsBare(t, c, n, e)
    ensures c < n && Nested(e) && Within(e.Where(), Span(t[c].span.start, t[n - 1].span.end))
    decreases n - c, 0, 1
  {
    var k := Cut(t, c, n, e);
    if e.Binary? {
      BinaryNests(t, c, k, n, e);
    } else if e.Unary? {
      ReadingNests(t, c + 1, n, e.operand, 7);
      InOrder(t, c, n - 1);
    } else if e.Array? {
      InOrder(t, c, n - 1);
      ItemsNest(t, c + 1, n - 1, e.elements, e.span);
    } else if e.Call? {
      CallNests(t, c, k, n, e);
    } else if e.Field? {
      ReadingNests(t, c, n - 2, e.target, 8);
      InOrder(t, n - 3, n - 1);
    }
  }

  lemma InOrder(t: seq<Token>, i: nat, j: nat)
    requires Ordered(t) && i <= j < |t|
    ensures t[i].span.start <= t[i].span.end <= t[j].span.end && t[i].span.start <= t[j].span.start <= t[j].span.end
    ensures i < j ==> t[i].span.end <= t[j].span.start
  {
  }

  lemma {:induction false} BinaryNests(t: seq<Token>, c: nat, k: nat, n: nat, e: Expr)
    requires e.Binary? && Ordered(t) && c <= n <= |t| && ReadsBinary(t, c, k, n, e)
    ensures c < n && Nested(e) && Within(e.Where(), Span(t[c].span.start, t[n - 1].span.end))
    decreases n - c, 0, 0
  {
    ReadingNests(t, c, k, e.left, Precedence(e.op));
    ReadingNests(t, k + 1, n, e.right, Precedence(e.op) + 1);
    InOrder(t, k - 1, k + 1);
  }

  lemma {:induction false} CallNests(t: seq<Token>, c: nat, k: nat, n: nat, e: Expr)
    requires e.Call? && Ordered(t) && c <= n <= |t| && ReadsCall(t, c, k, n, e)
    ensures c < n && Nested(e) && Within(e.Where(), Span(t[c].span.start, t[n - 1].span.end))
    decreases n - c, 0, 0
  {
    ReadingNests(t, c, k, e.callee, 8);
    InOrder(t, k - 1, n - 1);
    InOrder(t, k - 1, k);
    if k + 1 < n - 1 {
      InOrder(t, k, k + 1);
      InOrder(t, n - 2, n - 1);
    }
    ItemsNest(t, k + 1, n - 1, e.args, e.span);
  }

  lemma {:induction false} ItemsNest(t: seq<Token>, c: nat, n: nat, es: seq<Expr>, span: Span)
    requires Ordered(t) && c <= n <= |t| && ReadsItems(t, c, n, es)
    requires c < n ==> span.start <= t[c].span.start && t[n - 1].span.end <= span.end
    ensures AllWithin(es, span)
    decreases n - c, 3
  {
    if es != [] {
      var k := CutFirst(t, c, n, es);
      ReadingNests(t, c, k, es[0], 0);
      assert k < n ==> t[k - 1].span.end <= t[k].span.start;
      if k < n {
        ItemsNest(t, k + 1, n, es[1..], span);
      }
    }
  }

  /** With tokens in source order, every parsed expression lies within its tokens and every part of it
      within the whole. */
  lemma ParsedExpressionsNest(t: seq<Token>, c: nat)
    requires Ordered(t) && c <= |t| && ParseExpression(t, c).Success?
    ensures var (e, n) := ParseExpression(t, c).value;
            c < n <= |t| && Nested(e) && Within(e.Where(), Span(t[c].span.start, t[n - 1].span.end))
  {
    var (e, n) := ParseExpression(t, c).value;
    assert ParsePrecedence(t, c, 0) == Success((e, n));
    ParserFindsReadings(t, c, n, e, 0);
    ReadingNests(t, c, n, e, 0);
  }
}
