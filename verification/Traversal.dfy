/** The parts of an expression in the order in which the checker and the application model visit them. */
module Traversal {
  import opened Wrappers
  import opened ScriptNumbers
  import opened Syntax

  /** The expression and everything inside it, outermost first, callees before arguments. */
  function Parts(e: Expr): seq<Expr>
    decreases e, 1
  {
    [e] + Inside(e)
  }

  function Inside(e: Expr): seq<Expr>
    decreases e, 0
  {
    match e
    case Array(elements, _) => AllParts(elements)
    case Unary(_, operand, _) => Parts(operand)
    case Binary(left, _, right, _) => Parts(left) + Parts(right)
    case Call(callee, args, _) => Parts(callee) + AllParts(args)
    case Field(target, _, _) => Parts(target)
    case _ => []
  }

  function AllParts(es: seq<Expr>): seq<Expr>
    decreases es, 2
  {
    if es == [] then [] else Parts(es[0]) + AllParts(es[1..])
  }

  lemma {:induction false} AllPartsLast(es: seq<Expr>, last: Expr)
    ensures AllParts(es + [last]) == AllParts(es) + Parts(last)
  {
    if es == [] {
      assert [] + [last] == [last] && [last][1..] == [] && AllParts([last]) == Parts(last) + [];
    } else {
      AllPartsLast(es[1..], last);
      ConcatHead(es, [last]);
      ConcatAssociates(Parts(es[0]), AllParts(es[1..]), Parts(last));
    }
  }

  /** The requirements of a spend, in order. */
  function Requirements(body: seq<Stmt>): seq<Expr> {
    if body == [] then []
    else (if body[0].Require? then [body[0].expr] else []) + Requirements(body[1..])
  }

  lemma {:induction false} RequirementsLast(body: seq<Stmt>, last: Stmt)
    ensures Requirements(body + [last]) == Requirements(body) + if last.Require? then [last.expr] else []
  {
    if body == [] {
      assert [] + [last] == [last] && [last][1..] == [];
    } else {
      RequirementsLast(body[1..], last);
      assert (body + [last])[1..] == body[1..] + [last];
    }
  }

  // ---- transaction counts ----

  datatype Subject = CountOfInputs | CountOfOutputs

  function CountSubject(e: Expr): Option<Subject> {
    if !e.Name? then None
    else if e.ident.name == "input_count" then Some(CountOfInputs)
    else if e.ident.name == "output_count" then Some(CountOfOutputs)
    else None
  }

  /** A comparison of a count with a literal. */
  function CountConstraint(e: Expr): Option<(Subject, u64)> {
    if !e.Binary? || !e.op.Equal? then None
    else if CountSubject(e.left).Some? && e.right.Integer? then Some((CountSubject(e.left).value, e.right.value))
    else if e.left.Integer? && CountSubject(e.right).Some? then Some((CountSubject(e.right).value, e.left.value))
    else None
  }

  /** The literals a conjunction fixes a count to, in order. */
  function Counts(subject: Subject, e: Expr): seq<u64> {
    if e.Binary? && e.op.And? then Counts(subject, e.left) + Counts(subject, e.right)
    else
      var c := CountConstraint(e);
      if c.Some? && c.value.0 == subject then [c.value.1] else []
  }

  function AllCounts(subject: Subject, es: seq<Expr>): seq<u64> {
    if es == [] then [] else Counts(subject, es[0]) + AllCounts(subject, es[1..])
  }

  lemma {:induction false} AllCountsLast(subject: Subject, es: seq<Expr>, last: Expr)
    ensures AllCounts(subject, es + [last]) == AllCounts(subject, es) + Counts(subject, last)
  {
    if es == [] {
      assert [] + [last] == [last] && [last][1..] == [];
    } else {
      AllCountsLast(subject, es[1..], last);
      ConcatHead(es, [last]);
      ConcatAssociates(Counts(subject, es[0]), AllCounts(subject, es[1..]), Counts(subject, last));
    }
  }

  // ---- references to inputs and outputs ----

  /** The literal first argument of a call of the given name. */
  function IndexOf(name: string, e: Expr): Option<u64> {
    if IsCallOf(e, name) && e.args != [] && e.args[0].Integer? then Some(e.args[0].value) else None
  }

  /** The literal indexes among some parts. */
  function Indexes(name: string, parts: seq<Expr>): seq<u64> {
    if parts == [] then []
    else (if IndexOf(name, parts[0]).Some? then [IndexOf(name, parts[0]).value] else []) + Indexes(name, parts[1..])
  }

  lemma {:induction false} IndexesConcat(name: string, a: seq<Expr>, b: seq<Expr>)
    ensures Indexes(name, a + b) == Indexes(name, a) + Indexes(name, b)
  {
    if a == [] {
      assert a + b == b;
    } else {
      IndexesConcat(name, a[1..], b);
      ConcatHead(a, b);
      var first := if IndexOf(name, a[0]).Some? then [IndexOf(name, a[0]).value] else [];
      ConcatAssociates(first, Indexes(name, a[1..]), Indexes(name, b));
    }
  }

  lemma {:induction false} IndexesMember(name: string, parts: seq<Expr>, part: Expr)
    requires part in parts && IndexOf(name, part).Some?
    ensures IndexOf(name, part).value in Indexes(name, parts)
  {
    if parts[0] != part {
      IndexesMember(name, parts[1..], part);
    }
  }

  // ---- continuation names ----

  function ContinuationName(e: Expr): Option<string> {
    if IsCallOf(e, "continuation") && e.args != [] && e.args[0].Text? then Some(e.args[0].text) else None
  }

  function ContinuationNames(parts: seq<Expr>): seq<string> {
    if parts == [] then []
    else (if ContinuationName(parts[0]).Some? then [ContinuationName(parts[0]).value] else []) + ContinuationNames(parts[1..])
  }

  lemma {:induction false} ContinuationNamesConcat(a: seq<Expr>, b: seq<Expr>)
    ensures ContinuationNames(a + b) == ContinuationNames(a) + ContinuationNames(b)
  {
    if a == [] {
      assert a + b == b;
    } else {
      ContinuationNamesConcat(a[1..], b);
      ConcatHead(a, b);
      var first := if ContinuationName(a[0]).Some? then [ContinuationName(a[0]).value] else [];
      ConcatAssociates(first, ContinuationNames(a[1..]), ContinuationNames(b));
    }
  }
}
