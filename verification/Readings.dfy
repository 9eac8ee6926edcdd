/** What it means for tokens to read as an expression, and that the Pratt parser finds exactly that. */
module Readings {
  import opened Wrappers
  import opened ScriptNumbers
  import opened Syntax
  import opened Tokens
  import opened Grammar

  /** How tightly an expression binds: its operator's precedence, then prefix operators, then the rest. */
  function Level(e: Expr): (level: nat)
    ensures 1 <= level <= 8
  {
    if e.Binary? then Precedence(e.op) else if e.Unary? then 7 else 8
  }

  /** The tokens from `c` up to `n` read as the expression, where it must bind at least at level `q`
      unless it is in parentheses. */
  ghost predicate Reads(t: seq<Token>, c: nat, n: nat, e: Expr, q: nat)
    requires c <= n <= |t|
    decreases n - c, 2
  {
    (Level(e) >= q && ReadsBare(t, c, n, e))
    || (c + 2 <= n && t[c].kind == LeftParen && t[n - 1].kind == RightParen && Reads(t, c + 1, n - 1, e, 0))
  }

  /** The same without parentheses around the whole. */
  ghost predicate ReadsBare(t: seq<Token>, c: nat, n: nat, e: Expr)
    requires c <= n <= |t|
    decreases n - c, 1
  {
    if e.Binary? then exists k :: ReadsBinary(t, c, k, n, e)
    else if e.Unary? then ReadsUnary(t, c, n, e)
    else if e.Call? then exists k :: ReadsCall(t, c, k, n, e)
    else if e.Field? then ReadsField(t, c, n, e)
    else if e.Array? then ReadsArray(t, c, n, e)
    else n == c + 1 && Same(LiteralOf(t[c]), Success(e))
  }

  /** Operators of one level group to the left: the right operand must bind tighter. */
  ghost predicate ReadsBinary(t: seq<Token>, c: nat, k: nat, n: nat, e: Expr)
    requires e.Binary? && c <= n <= |t|
    decreases n - c, 0
  {
    c <= k < n && OperatorOf(t[k].kind) == Some(e.op) && e.span == Span(e.left.Where().start, e.right.Where().end)
    && Reads(t, c, k, e.left, Precedence(e.op)) && Reads(t, k + 1, n, e.right, Precedence(e.op) + 1)
  }

  ghost predicate ReadsUnary(t: seq<Token>, c: nat, n: nat, e: Expr)
    requires e.Unary? && c <= n <= |t|
    decreases n - c, 0
  {
    c < n && t[c].kind == PrefixToken(e.uop) && e.span == Span(t[c].span.start, e.operand.Where().end)
    && Reads(t, c + 1, n, e.operand, 7)
  }

  ghost predicate ReadsCall(t: seq<Token>, c: nat, k: nat, n: nat, e: Expr)
    requires e.Call? && c <= n <= |t|
    decreases n - c, 0
  {
    c <= k && k + 2 <= n && t[k].kind == LeftParen && t[n - 1].kind == RightParen
    && e.span == Span(e.callee.Where().start, t[n - 1].span.end)
    && Reads(t, c, k, e.callee, 8) && ReadsItems(t, k + 1, n - 1, e.args)
  }

  ghost predicate ReadsField(t: seq<Token>, c: nat, n: nat, e: Expr)
    requires e.Field? && c <= n <= |t|
    decreases n - c, 0
  {
    c + 2 <= n && t[n - 2].kind == Dot && NameOf(t[n - 1].kind) == Some(e.field.name) && e.field.span == t[n - 1].span
    && e.span == Span(e.target.Where().start, t[n - 1].span.end) && Reads(t, c, n - 2, e.target, 8)
  }

  ghost predicate ReadsArray(t: seq<Token>, c: nat, n: nat, e: Expr)
    requires e.Array? && c <= n <= |t|
    decreases n - c, 0
  {
    c + 2 <= n && t[c].kind == LeftBracket && t[n - 1].kind == RightBracket
    && e.span == Span(t[c].span.start, t[n - 1].span.end) && ReadsItems(t, c + 1, n - 1, e.elements)
  }

  /** Expressions separated by commas; one more comma may follow the last. */
  ghost predicate ReadsItems(t: seq<Token>, c: nat, n: nat, es: seq<Expr>)
    requires c <= n <= |t|
    decreases n - c, 4
  {
    if es == [] then c == n else exists k :: ReadsFirst(t, c, k, n, es)
  }

  ghost predicate ReadsFirst(t: seq<Token>, c: nat, k: nat, n: nat, es: seq<Expr>)
    requires es != [] && c <= n <= |t|
    decreases n - c, 3
  {
    c < k <= n && Reads(t, c, k, es[0], 0)
    && if k < n then t[k].kind == Comma && ReadsItems(t, k + 1, n, es[1..]) else |es| == 1
  }

  predicate SuffixNext(t: seq<Token>, c: nat) { Check(t, c, LeftParen) || Check(t, c, Dot) }

  /** Nothing that follows belongs to an expression parsed at the minimum `min`. */
  predicate Ends(t: seq<Token>, c: nat, min: nat) { !SuffixNext(t, c) && !Joins(t, c, min) }

  // ---- one step of the parser at a time ----

  lemma CloserFails(t: seq<Token>, c: nat)
    requires c < |t| && (t[c].kind == RightParen || t[c].kind == RightBracket)
    ensures ParseExpression(t, c).Failure?
  {
    assert ParsePrimary(t, c).Failure?;
    assert ParsePostfix(t, c).Failure?;
    assert ParseUnary(t, c).Failure?;
  }

  lemma ParensStep(t: seq<Token>, c: nat, inner: Expr, n: nat)
    requires Check(t, c, LeftParen) && c < n && Check(t, n, RightParen)
    requires Same(ParsePrecedence(t, c + 1, 0), Climb(t, inner, n, 0))
    ensures Same(ParsePrimary(t, c), Success((inner, n + 1)))
  {
    assert ParseExpression(t, c + 1) == Success((inner, n));
  }

  lemma PrimaryStep(t: seq<Token>, c: nat, e: Expr, n: nat)
    requires c < |t| && n <= |t| && Same(ParsePrimary(t, c), Success((e, n)))
    ensures Same(ParsePostfix(t, c), Suffixes(t, e, n))
  {
  }

  lemma ArrayStep(t: seq<Token>, c: nat, elements: seq<Expr>, n: nat)
    requires Check(t, c, LeftBracket) && Check(t, n, RightBracket)
    requires Same(ParseItems(t, c + 1, RightBracket, CommaOrBracket, []), Success((elements, n)))
    ensures Same(ParsePrimary(t, c), Success((Array(elements, Span(t[c].span.start, t[n].span.end)), n + 1)))
  {
    var r := ParseArray(t, t[c].span.start, c + 1);
    assert r == Success((Array(elements, Span(t[c].span.start, t[n].span.end)), n + 1));
  }

  lemma CallStep(t: seq<Token>, callee: Expr, c: nat, args: seq<Expr>, n: nat)
    requires Check(t, c, LeftParen) && Check(t, n, RightParen)
    requires Same(ParseItems(t, c + 1, RightParen, CommaOrParen, []), Success((args, n)))
    ensures Same(Suffixes(t, callee, c), Suffixes(t, Called(callee, args, t[n].span.end), n + 1))
  {
    var r := CallSuffix(t, callee, c + 1);
    assert r == Success((Called(callee, args, t[n].span.end), n + 1));
    assert Suffix(t, callee, c) == r;
  }

  lemma FieldStep(t: seq<Token>, target: Expr, c: nat, name: string)
    requires Check(t, c, Dot) && c + 1 < |t| && NameOf(t[c + 1].kind) == Some(name)
    ensures Same(Suffixes(t, target, c), Suffixes(t, Selected(target, Ident(name, t[c + 1].span)), c + 2))
  {
    assert Suffix(t, target, c) == Success((Selected(target, Ident(name, t[c + 1].span)), c + 2));
  }

  lemma NoItemStep(t: seq<Token>, c: nat, close: TokenKind, wanted: Wanted, before: seq<Expr>)
    requires Check(t, c, close)
    ensures Same(ParseItems(t, c, close, wanted, before), Success((before, c)))
  {
  }

  predicate Closes(close: TokenKind) { close == RightParen || close == RightBracket }

  lemma ItemStep(t: seq<Token>, c: nat, close: TokenKind, wanted: Wanted, before: seq<Expr>, e: Expr, n: nat)
    requires Closes(close) && c < n < |t| && (t[n].kind == Comma || t[n].kind == close)
    requires Same(ParsePrecedence(t, c, 0), Climb(t, e, n, 0))
    ensures t[n].kind == Comma ==>
              Same(ParseItems(t, c, close, wanted, before), ParseItems(t, n + 1, close, wanted, before + [e]))
    ensures t[n].kind == close ==> Same(ParseItems(t, c, close, wanted, before), Success((before + [e], n)))
  {
    var r := ParseExpression(t, c);
    assert r == Success((e, n));
    if t[c].kind == close {
      CloserFails(t, c);
    }
  }

  lemma PrefixStep(t: seq<Token>, c: nat, uop: UnaryOp, operand: Expr, n: nat)
    requires Check(t, c, PrefixToken(uop)) && Same(ParseUnary(t, c + 1), Success((operand, n)))
    ensures Same(ParseUnary(t, c), Success((Prefixed(uop, t[c].span.start, operand), n)))
  {
  }

  lemma NoPrefixStep(t: seq<Token>, c: nat, e: Expr, n: nat)
    requires c < |t| && n <= |t| && t[c].kind != Bang && t[c].kind != Minus && !SuffixNext(t, n)
    requires Same(ParsePostfix(t, c), Suffixes(t, e, n))
    ensures Same(ParseUnary(t, c), Success((e, n)))
  {
  }

  lemma OperandStep(t: seq<Token>, c: nat, e: Expr, n: nat, min: nat)
    requires c < |t| && n <= |t| && Same(ParseUnary(t, c), Success((e, n)))
    ensures Same(ParsePrecedence(t, c, min), Climb(t, e, n, min))
  {
  }

  lemma OperatorStep(t: seq<Token>, left: Expr, c: nat, op: BinaryOp, right: Expr, n: nat, min: nat)
    requires c < n <= |t| && OperatorOf(t[c].kind) == Some(op) && min <= Precedence(op)
    requires Same(ParsePrecedence(t, c + 1, Precedence(op) + 1), Climb(t, right, n, Precedence(op) + 1))
    requires !Joins(t, n, Precedence(op) + 1)
    ensures Same(Climb(t, left, c, min), Climb(t, Joined(left, op, right), n, min))
  {
    assert Climb(t, right, n, Precedence(op) + 1) == Success((right, n));
  }

  lemma EndStep(t: seq<Token>, e: Expr, n: nat, min: nat)
    requires n <= |t| && !Joins(t, n, min)
    ensures Same(Climb(t, e, n, min), Success((e, n)))
  {
  }

  lemma EmptyFirst(es: seq<Expr>)
    ensures Same([] + es, es)
  {
    assert [] + es == es;
  }

  // ---- the parts of a reading ----

  /** Where a reading without parentheses divides, and the readings of its parts. */
  lemma Cut(t: seq<Token>, c: nat, n: nat, e: Expr) returns (k: nat)
    requires c <= n <= |t| && ReadsBare(t, c, n, e)
    ensures e.Binary? ==> ReadsBinary(t, c, k, n, e)
    ensures e.Unary? ==> ReadsUnary(t, c, n, e)
    ensures e.Call? ==> ReadsCall(t, c, k, n, e)
    ensures e.Field? ==> ReadsField(t, c, n, e)
    ensures e.Array? ==> ReadsArray(t, c, n, e)
    ensures e.Name? || e.Integer? || e.Text? || e.Truth? ==> n == c + 1 && Same(LiteralOf(t[c]), Success(e))
  {
    k := 0;
    if e.Binary? {
      var m :| ReadsBinary(t, c, m, n, e);
      k := m;
    } else if e.Call? {
      var m :| ReadsCall(t, c, m, n, e);
      k := m;
    }
  }

  lemma CutFirst(t: seq<Token>, c: nat, n: nat, es: seq<Expr>) returns (k: nat)
    requires es != [] && c <= n <= |t| && ReadsItems(t, c, n, es)
    ensures ReadsFirst(t, c, k, n, es)
  {
    var m :| ReadsFirst(t, c, m, n, es);
    k := m;
  }

  // ---- the parser finds every reading ----

  lemma {:induction false} ReadingIsLong(t: seq<Token>, c: nat, n: nat, e: Expr, q: nat)
    requires c <= n <= |t| && Reads(t, c, n, e, q)
    ensures c < n
    decreases n - c
  {
    if Level(e) >= q && ReadsBare(t, c, n, e) {
      var k := Cut(t, c, n, e);
    }
  }

  /** An expression that may take a suffix does not start with a prefix operator. */
  lemma {:induction false} NoPrefixFirst(t: seq<Token>, c: nat, n: nat, e: Expr)
    requires c <= n <= |t| && Reads(t, c, n, e, 8)
    ensures c < n && t[c].kind != Bang && t[c].kind != Minus
    decreases n - c
  {
    ReadingIsLong(t, c, n, e, 8);
    if Level(e) >= 8 && ReadsBare(t, c, n, e) {
      var k := Cut(t, c, n, e);
      if e.Call? {
        NoPrefixFirst(t, c, k, e.callee);
      } else if e.Field? {
        NoPrefixFirst(t, c, n - 2, e.target);
      }
    }
  }

  lemma {:induction false} FindsParens(t: seq<Token>, c: nat, n: nat, e: Expr)
    requires c + 2 <= n <= |t| && t[c].kind == LeftParen && t[n - 1].kind == RightParen && Reads(t, c + 1, n - 1, e, 0)
    ensures Same(ParsePostfix(t, c), Suffixes(t, e, n))
    decreases n - c, 0
  {
    FindsPrecedence(t, c + 1, n - 1, e, 0, 0);
    ReadingIsLong(t, c + 1, n - 1, e, 0);
    ParensStep(t, c, e, n - 1);
    PrimaryStep(t, c, e, n);
  }

  lemma {:induction false} FindsPostfix(t: seq<Token>, c: nat, n: nat, e: Expr)
    requires c <= n <= |t| && Reads(t, c, n, e, 8)
    ensures Same(ParsePostfix(t, c), Suffixes(t, e, n))
    decreases n - c, 1
  {
    if Level(e) >= 8 && ReadsBare(t, c, n, e) {
      var k := Cut(t, c, n, e);
      if e.Array? {
        FindsArray(t, c, n, e);
      } else if e.Call? {
        FindsCall(t, c, k, n, e);
      } else if e.Field? {
        FindsField(t, c, n, e);
      } else {
        FindsLiteral(t, c, e);
      }
    } else {
      FindsParens(t, c, n, e);
    }
  }

  lemma FindsLiteral(t: seq<Token>, c: nat, e: Expr)
    requires c < |t| && Same(LiteralOf(t[c]), Success(e))
    ensures Same(ParsePostfix(t, c), Suffixes(t, e, c + 1))
  {
    PrimaryStep(t, c, e, c + 1);
  }

  lemma {:induction false} FindsArray(t: seq<Token>, c: nat, n: nat, e: Expr)
    requires e.Array? && c <= n <= |t| && ReadsArray(t, c, n, e)
    ensures Same(ParsePostfix(t, c), Suffixes(t, e, n))
    decreases n - c, 0
  {
    FindsItems(t, c + 1, n - 1, e.elements, RightBracket, CommaOrBracket, []);
    EmptyFirst(e.elements);
    ArrayStep(t, c, e.elements, n - 1);
    PrimaryStep(t, c, e, n);
  }

  lemma {:induction false} FindsCall(t: seq<Token>, c: nat, k: nat, n: nat, e: Expr)
    requires e.Call? && c <= n <= |t| && ReadsCall(t, c, k, n, e)
    ensures Same(ParsePostfix(t, c), Suffixes(t, e, n))
    decreases n - c, 0
  {
    FindsPostfix(t, c, k, e.callee);
    FindsItems(t, k + 1, n - 1, e.args, RightParen, CommaOrParen, []);
    EmptyFirst(e.args);
    CallStep(t, e.callee, k, e.args, n - 1);
  }

  lemma {:induction false} FindsField(t: seq<Token>, c: nat, n: nat, e: Expr)
    requires e.Field? && c <= n <= |t| && ReadsField(t, c, n, e)
    ensures Same(ParsePostfix(t, c), Suffixes(t, e, n))
    decreases n - c, 0
  {
    FindsPostfix(t, c, n - 2, e.target);
    FieldStep(t, e.target, n - 2, e.field.name);
  }

  lemma {:induction false} FindsItems(t: seq<Token>, c: nat, n: nat, es: seq<Expr>, close: TokenKind, wanted: Wanted, before: seq<Expr>)
    requires Closes(close) && c <= n <= |t| && ReadsItems(t, c, n, es) && Check(t, n, close)
    ensures Same(ParseItems(t, c, close, wanted, before), Success((before + es, n)))
    decreases n - c, 5
  {
    if es == [] {
      NoItemStep(t, c, close, wanted, before);
      ConcatAssociates(before, before, []);
    } else {
      var k := CutFirst(t, c, n, es);
      FindsPrecedence(t, c, k, es[0], 0, 0);
      ItemStep(t, c, close, wanted, before, es[0], k);
      if k < n {
        FindsItems(t, k + 1, n, es[1..], close, wanted, before + [es[0]]);
      }
      SplitFirst(before, es);
    }
  }

  lemma SplitFirst(before: seq<Expr>, es: seq<Expr>)
    requires es != []
    ensures Same(before + es, (before + [es[0]]) + es[1..])
    ensures |es| == 1 ==> Same(before + es, before + [es[0]])
  {
    assert es == [es[0]] + es[1..];
    ConcatAssociates(before, [es[0]], es[1..]);
  }

  lemma {:induction false} FindsUnary(t: seq<Token>, c: nat, n: nat, e: Expr)
    requires c <= n <= |t| && Reads(t, c, n, e, 7) && !SuffixNext(t, n)
    ensures Same(ParseUnary(t, c), Success((e, n)))
    decreases n - c, 2
  {
    if e.Unary? && ReadsBare(t, c, n, e) {
      var k := Cut(t, c, n, e);
      FindsUnary(t, c + 1, n, e.operand);
      PrefixStep(t, c, e.uop, e.operand, n);
    } else {
      NoPrefixFirst(t, c, n, e);
      FindsPostfix(t, c, n, e);
      NoPrefixStep(t, c, e, n);
    }
  }

  /** Parsing, at any lower minimum, tokens that read as an expression of level `q` finds it and goes
      on climbing behind it. */
  lemma {:induction false} FindsPrecedence(t: seq<Token>, c: nat, n: nat, e: Expr, q: nat, min: nat)
    requires min <= q <= 7 && c <= n <= |t| && Reads(t, c, n, e, q) && Ends(t, n, q + 1)
    ensures Same(ParsePrecedence(t, c, min), Climb(t, e, n, min))
    decreases n - c, 3
  {
    ReadingIsLong(t, c, n, e, q);
    if e.Binary? && Level(e) >= q && ReadsBare(t, c, n, e) {
      var k := Cut(t, c, n, e);
      FindsBinary(t, c, k, n, e, min);
    } else {
      FindsUnary(t, c, n, e);
      OperandStep(t, c, e, n, min);
    }
  }

  lemma {:induction false} FindsBinary(t: seq<Token>, c: nat, k: nat, n: nat, e: Expr, min: nat)
    requires e.Binary? && min <= Precedence(e.op) && c <= n <= |t| && ReadsBinary(t, c, k, n, e) && Ends(t, n, Precedence(e.op) + 1)
    ensures Same(ParsePrecedence(t, c, min), Climb(t, e, n, min))
    decreases n - c, 2
  {
    var p := Precedence(e.op);
    FindsPrecedence(t, c, k, e.left, p, min);
    FindsPrecedence(t, k + 1, n, e.right, p + 1, p + 1);
    ReadingIsLong(t, k + 1, n, e.right, p + 1);
    OperatorStep(t, e.left, k, e.op, e.right, n, min);
  }

  // ---- whatever the parser finds is a reading ----

  lemma Weaken(t: seq<Token>, c: nat, n: nat, e: Expr, q: nat, q1: nat)
    requires c <= n <= |t| && q1 <= q && Reads(t, c, n, e, q)
    ensures Reads(t, c, n, e, q1)
  {
  }

  /** Parts that read make a whole that reads. */
  lemma Whole(t: seq<Token>, c: nat, k: nat, n: nat, e: Expr)
    requires c <= n <= |t|
    requires (e.Binary? && ReadsBinary(t, c, k, n, e)) || (e.Unary? && ReadsUnary(t, c, n, e)) || (e.Call? && ReadsCall(t, c, k, n, e))
             || (e.Field? && ReadsField(t, c, n, e)) || (e.Array? && ReadsArray(t, c, n, e))
    ensures Reads(t, c, n, e, Level(e))
  {
    assert ReadsBare(t, c, n, e);
  }

  lemma WholeLiteral(t: seq<Token>, c: nat, e: Expr)
    requires c < |t| && Same(LiteralOf(t[c]), Success(e))
    ensures Reads(t, c, c + 1, e, 8)
  {
    assert ReadsBare(t, c, c + 1, e);
  }

  lemma WholeParens(t: seq<Token>, c: nat, n: nat, e: Expr)
    requires c + 2 <= n <= |t| && t[c].kind == LeftParen && t[n - 1].kind == RightParen && Reads(t, c + 1, n - 1, e, 0)
    ensures Reads(t, c, n, e, 8)
  {
  }

  lemma ParensParts(t: seq<Token>, c: nat, e: Expr, n: nat)
    requires Check(t, c, LeftParen) && Same(ParsePrimary(t, c), Success((e, n)))
    ensures c + 2 < n <= |t| && t[n - 1].kind == RightParen && Same(ParsePrecedence(t, c + 1, 0), Success((e, n - 1)))
  {
    var inner := ParseExpression(t, c + 1);
    var close := Expect(t, inner.value.1, RightParen, CloseParen);
    assert ParsePrimary(t, c) == Success((inner.value.0, close.value.1));
  }

  lemma FieldParts(t: seq<Token>, target: Expr, c: nat, e: Expr, n: nat)
    requires Check(t, c, Dot) && Same(Suffix(t, target, c), Success((e, n)))
    ensures n == c + 2 <= |t| && NameOf(t[c + 1].kind).Some?
    ensures Same(e, Selected(target, Ident(NameOf(t[c + 1].kind).value, t[c + 1].span)))
  {
  }

  /** The first of some items, and where the others start. */
  lemma ItemParts(t: seq<Token>, c: nat, close: TokenKind, wanted: Wanted, before: seq<Expr>, all: seq<Expr>, n: nat)
    returns (e: Expr, k: nat)
    requires c <= |t| && !Check(t, c, close) && Same(ParseItems(t, c, close, wanted, before), Success((all, n)))
    ensures c < k < |t| && Same(ParsePrecedence(t, c, 0), Success((e, k)))
    ensures if t[k].kind == Comma then Same(ParseItems(t, k + 1, close, wanted, before + [e]), Success((all, n)))
            else t[k].kind == close && n == k && Same(all, before + [e])
  {
    var item := ParseExpression(t, c);
    e, k := item.value.0, item.value.1;
  }

  lemma {:induction false} FoundPrimary(t: seq<Token>, c: nat, e: Expr, n: nat)
    requires c <= |t| && Same(ParsePrimary(t, c), Success((e, n)))
    ensures c < n <= |t| && Reads(t, c, n, e, 8)
    decreases |t| - c, 1
  {
    if t[c].kind == LeftParen {
      ParensParts(t, c, e, n);
      FoundPrecedence(t, c + 1, e, n - 1, 0);
      WholeParens(t, c, n, e);
    } else if t[c].kind == LeftBracket {
      FoundArray(t, c, e, n);
    } else {
      WholeLiteral(t, c, e);
    }
  }

  lemma ArrayParts(t: seq<Token>, c: nat, start: nat, e: Expr, n: nat)
    requires c <= |t| && Same(ParseArray(t, start, c), Success((e, n)))
    ensures c < n <= |t| && t[n - 1].kind == RightBracket && e.Array? && e.span == Span(start, t[n - 1].span.end)
    ensures Same(ParseItems(t, c, RightBracket, CommaOrBracket, []), Success((e.elements, n - 1)))
  {
    var items := ParseItems(t, c, RightBracket, CommaOrBracket, []);
    var close := Expect(t, items.value.1, RightBracket, CloseBracket);
    assert ParseArray(t, start, c) == Success((Array(items.value.0, Span(start, close.value.0.span.end)), close.value.1));
  }

  lemma CallParts(t: seq<Token>, callee: Expr, c: nat, e: Expr, n: nat)
    requires c <= |t| && Same(CallSuffix(t, callee, c), Success((e, n)))
    ensures c < n <= |t| && t[n - 1].kind == RightParen && e.Call? && e == Called(callee, e.args, t[n - 1].span.end)
    ensures Same(ParseItems(t, c, RightParen, CommaOrParen, []), Success((e.args, n - 1)))
  {
    var items := ParseItems(t, c, RightParen, CommaOrParen, []);
    var close := Expect(t, items.value.1, RightParen, CloseParen);
    assert CallSuffix(t, callee, c) == Success((Called(callee, items.value.0, close.value.0.span.end), close.value.1));
  }

  lemma {:induction false} FoundArray(t: seq<Token>, c: nat, e: Expr, n: nat)
    requires Check(t, c, LeftBracket) && Same(ParseArray(t, t[c].span.start, c + 1), Success((e, n)))
    ensures c < n <= |t| && Reads(t, c, n, e, 8)
    decreases |t| - c, 0
  {
    ArrayParts(t, c + 1, t[c].span.start, e, n);
    var items := FoundItems(t, c + 1, RightBracket, CommaOrBracket, [], e.elements, n - 1);
    EmptyFirst(items);
    assert ReadsArray(t, c, n, e);
    Whole(t, c, 0, n, e);
  }

  lemma {:induction false} FoundItems(t: seq<Token>, c: nat, close: TokenKind, wanted: Wanted, before: seq<Expr>, all: seq<Expr>, n: nat)
    returns (es: seq<Expr>)
    requires Closes(close) && c <= |t| && Same(ParseItems(t, c, close, wanted, before), Success((all, n)))
    ensures c <= n < |t| && t[n].kind == close && Same(all, before + es) && ReadsItems(t, c, n, es)
    decreases |t| - c, 5
  {
    if Check(t, c, close) {
      es := [];
      ConcatAssociates(before, before, []);
    } else {
      var e, k := ItemParts(t, c, close, wanted, before, all, n);
      FoundPrecedence(t, c, e, k, 0);
      var rest: seq<Expr> := [];
      if t[k].kind == Comma {
        rest := FoundItems(t, k + 1, close, wanted, before + [e], all, n);
      }
      es := [e] + rest;
      JoinFirst(t, c, k, n, e, rest, before, all);
    }
  }

  lemma JoinFirst(t: seq<Token>, c: nat, k: nat, n: nat, e: Expr, rest: seq<Expr>, before: seq<Expr>, all: seq<Expr>)
    requires c < k <= n <= |t| && Reads(t, c, k, e, 0)
    requires if k < n then t[k].kind == Comma && ReadsItems(t, k + 1, n, rest) && Same(all, before + [e] + rest)
             else rest == [] && Same(all, before + [e])
    ensures ReadsItems(t, c, n, [e] + rest) && Same(all, before + ([e] + rest))
  {
    ConcatAssociates(before, [e], rest);
    ConcatAssociates(before, [e], []);
    OneMore(e, rest);
    assert ReadsFirst(t, c, k, n, [e] + rest);
  }

  lemma OneMore(e: Expr, rest: seq<Expr>)
    ensures Same(([e] + rest)[1..], rest) && ([e] + rest)[0] == e && |[e] + rest| == |rest| + 1
  {
    assert ([e] + rest)[1..] == rest;
  }

  lemma {:induction false} FoundPostfix(t: seq<Token>, c: nat, e: Expr, n: nat)
    requires c <= |t| && Same(ParsePostfix(t, c), Success((e, n)))
    ensures c < n <= |t| && Reads(t, c, n, e, 8) && !SuffixNext(t, n)
    decreases |t| - c, 2
  {
    var primary := ParsePrimary(t, c).value;
    FoundPrimary(t, c, primary.0, primary.1);
    FoundSuffixes(t, c, primary.0, primary.1, e, n);
  }

  lemma {:induction false} FoundSuffixes(t: seq<Token>, c: nat, e: Expr, k: nat, e1: Expr, n: nat)
    requires c < k <= |t| && Reads(t, c, k, e, 8) && Same(Suffixes(t, e, k), Success((e1, n)))
    ensures c < n <= |t| && Reads(t, c, n, e1, 8) && !SuffixNext(t, n)
    decreases |t| - k, 5
  {
    if SuffixNext(t, k) {
      var more := Suffix(t, e, k).value;
      FoundSuffix(t, c, e, k, more.0, more.1);
      FoundSuffixes(t, c, more.0, more.1, e1, n);
    }
  }

  lemma {:induction false} FoundSuffix(t: seq<Token>, c: nat, e: Expr, k: nat, e1: Expr, n: nat)
    requires c < k <= |t| && Reads(t, c, k, e, 8) && SuffixNext(t, k) && Same(Suffix(t, e, k), Success((e1, n)))
    ensures k < n <= |t| && Reads(t, c, n, e1, 8)
    decreases |t| - k, 4
  {
    if t[k].kind == LeftParen {
      CallParts(t, e, k + 1, e1, n);
      var items := FoundItems(t, k + 1, RightParen, CommaOrParen, [], e1.args, n - 1);
      EmptyFirst(items);
      assert ReadsCall(t, c, k, n, e1);
      Whole(t, c, k, n, e1);
    } else {
      FoundField(t, c, e, k, e1, n);
    }
  }

  lemma FoundField(t: seq<Token>, c: nat, e: Expr, k: nat, e1: Expr, n: nat)
    requires c < k <= |t| && Reads(t, c, k, e, 8) && SuffixNext(t, k) && t[k].kind != LeftParen
    requires Same(Suffix(t, e, k), Success((e1, n)))
    ensures k < n <= |t| && Reads(t, c, n, e1, 8)
  {
    FieldParts(t, e, k, e1, n);
    assert ReadsField(t, c, n, e1);
    Whole(t, c, k, n, e1);
  }

  lemma {:induction false} FoundUnary(t: seq<Token>, c: nat, e: Expr, n: nat)
    requires c <= |t| && Same(ParseUnary(t, c), Success((e, n)))
    ensures c < n <= |t| && Reads(t, c, n, e, 7) && !SuffixNext(t, n)
    decreases |t| - c, 3
  {
    if Check(t, c, Bang) || Check(t, c, Minus) {
      FoundUnary(t, c + 1, e.operand, n);
      assert ReadsUnary(t, c, n, e);
      Whole(t, c, 0, n, e);
    } else {
      FoundPostfix(t, c, e, n);
      Weaken(t, c, n, e, 8, 7);
    }
  }

  lemma {:induction false} FoundPrecedence(t: seq<Token>, c: nat, e: Expr, n: nat, min: nat)
    requires c <= |t| && Same(ParsePrecedence(t, c, min), Success((e, n))) && min <= 7
    ensures c < n <= |t| && Reads(t, c, n, e, min) && Ends(t, n, min)
    decreases |t| - c, 4
  {
    var left := ParseUnary(t, c).value;
    FoundUnary(t, c, left.0, left.1);
    FoundClimb(t, c, left.0, left.1, 7, e, n, min);
  }

  /** Climbing from an operand that reads at level `q`, with no tighter operator behind it. */
  lemma {:induction false} FoundClimb(t: seq<Token>, c: nat, left: Expr, k: nat, q: nat, e: Expr, n: nat, min: nat)
    requires c < k <= |t| && min <= q && Reads(t, c, k, left, q) && Ends(t, k, q + 1)
    requires Same(Climb(t, left, k, min), Success((e, n)))
    ensures c < n <= |t| && Reads(t, c, n, e, min) && Ends(t, n, min)
    decreases |t| - k, 5
  {
    if Joins(t, k, min) {
      var op := OperatorOf(t[k].kind).value;
      var p := Precedence(op);
      var right := ParsePrecedence(t, k + 1, p + 1).value;
      FoundPrecedence(t, k + 1, right.0, right.1, p + 1);
      Weaken(t, c, k, left, q, p);
      var joined := Joined(left, op, right.0);
      assert ReadsBinary(t, c, k, right.1, joined);
      Whole(t, c, k, right.1, joined);
      FoundClimb(t, c, joined, right.1, p, e, n, min);
    } else {
      Weaken(t, c, n, e, q, min);
    }
  }

  /** The parser finds an expression at a minimum level exactly when the tokens read as it there and
      nothing behind them belongs to it. */
  lemma ParserFindsReadings(t: seq<Token>, c: nat, n: nat, e: Expr, min: nat)
    requires c <= |t| && min <= 7
    ensures ParsePrecedence(t, c, min) == Success((e, n)) <==> c <= n <= |t| && Reads(t, c, n, e, min) && Ends(t, n, min)
  {
    if ParsePrecedence(t, c, min) == Success((e, n)) {
      FoundPrecedence(t, c, e, n, min);
    } else if c <= n <= |t| && Reads(t, c, n, e, min) && Ends(t, n, min) {
      FindsPrecedence(t, c, n, e, min, min);
      EndStep(t, e, n, min);
    }
  }

  /** Tokens read as at most one expression, up to one place. */
  lemma ReadingIsUnique(t: seq<Token>, c: nat, n: nat, e: Expr, n1: nat, e1: Expr)
    requires c <= n <= |t| && Reads(t, c, n, e, 0) && Ends(t, n, 0)
    requires c <= n1 <= |t| && Reads(t, c, n1, e1, 0) && Ends(t, n1, 0)
    ensures n == n1 && e == e1
  {
    ParserFindsReadings(t, c, n, e, 0);
    ParserFindsReadings(t, c, n1, e1, 0);
  }
}
