/** What a spend's application model lists: every comparison with an output, every fixed count, every
    reference, every named successor, and constraints that say what the requirements say
    (compiler/ir/src/application.rs). */
module ModelListings {
  import opened Wrappers
  import opened ScriptNumbers
  import opened Syntax
  import opened Engine
  import opened Evaluation
  import opened Spends
  import opened Traversal
  import opened NormalForms
  import opened ModelSoundness
  import M = ApplicationModel
  import T = Tokens

  function NameAt(name: string): Expr { Name(Ident(name, NOWHERE)) }

  function Literal(n: u64): Expr { Integer(n, NOWHERE) }

  function OutputField(i: u32, field: string): Expr {
    Field(Call(NameAt("output"), [Literal(i)], NOWHERE), Ident(field, NOWHERE), NOWHERE)
  }

  function Compare(left: Expr, op: BinaryOp, right: Expr): Expr { Binary(left, op, right, NOWHERE) }

  // ---- bindings ----

  /** `output(i).field op x` binds that field of that output by that relation to `x`. */
  lemma OutputOnTheLeft(i: u32, op: BinaryOp, x: Expr)
    ensures M.BindingOf(Compare(OutputField(i, "value"), op, x)) == Some(M.OutputBinding(i, M.Value, op, M.Normalize(x)))
    ensures M.BindingOf(Compare(OutputField(i, "script"), op, x)) == Some(M.OutputBinding(i, M.Script, op, M.Normalize(x)))
    ensures M.BindingOf(Compare(OutputField(i, "covenant_id"), op, x)) == Some(M.OutputBinding(i, M.CovenantId, op, M.Normalize(x)))
  {
  }

  /** `x op output(i).field` binds the same field by the reversed relation. */
  lemma OutputOnTheRight(i: u32, x: Expr)
    requires M.FieldOfOutput(x).None?
    ensures M.BindingOf(Compare(x, BinaryOp.Greater, OutputField(i, "value"))) == Some(M.OutputBinding(i, M.Value, BinaryOp.Less, M.Normalize(x)))
    ensures M.BindingOf(Compare(x, BinaryOp.GreaterEqual, OutputField(i, "value"))) ==
            Some(M.OutputBinding(i, M.Value, BinaryOp.LessEqual, M.Normalize(x)))
    ensures M.BindingOf(Compare(x, BinaryOp.Less, OutputField(i, "value"))) == Some(M.OutputBinding(i, M.Value, BinaryOp.Greater, M.Normalize(x)))
    ensures M.BindingOf(Compare(x, BinaryOp.LessEqual, OutputField(i, "value"))) ==
            Some(M.OutputBinding(i, M.Value, BinaryOp.GreaterEqual, M.Normalize(x)))
    ensures M.BindingOf(Compare(x, BinaryOp.Equal, OutputField(i, "script"))) ==
            Some(M.OutputBinding(i, M.Script, BinaryOp.Equal, M.Normalize(x)))
    ensures M.BindingOf(Compare(x, BinaryOp.NotEqual, OutputField(i, "covenant_id"))) ==
            Some(M.OutputBinding(i, M.CovenantId, BinaryOp.NotEqual, M.Normalize(x)))
  {
  }

  /** The bindings listed are exactly those of the requirements. */
  lemma {:induction false} BindingsListed(es: seq<Expr>, b: M.OutputBinding)
    ensures b in M.Bindings(es) <==> exists i :: 0 <= i < |es| && M.BindingOf(es[i]) == Some(b)
  {
    if es != [] {
      BindingsListed(es[1..], b);
      assert es == [es[0]] + es[1..];
      if b in M.Bindings(es[1..]) {
        var i :| 0 <= i < |es[1..]| && M.BindingOf(es[1..][i]) == Some(b);
        assert M.BindingOf(es[i + 1]) == Some(b);
      }
      if i :| 0 <= i < |es| && M.BindingOf(es[i]) == Some(b) && i > 0 {
        assert M.BindingOf(es[1..][i - 1]) == Some(b);
      }
    }
  }

  // ---- exact counts ----

  /** A comparison by `==` of a name with a literal, on either side. */
  predicate Fixes(part: Expr, name: string, v: u64) {
    part.Binary? && part.op.Equal?
    && ((part.left.Name? && part.left.ident.name == name && part.right.Integer? && part.right.value == v)
        || (part.left.Integer? && part.left.value == v && part.right.Name? && part.right.ident.name == name))
  }

  /** The counts of a conjunction are the literals its parts fix the count to. */
  lemma {:induction false} FixedCountListed(subject: Subject, name: string, e: Expr, v: u64)
    requires (subject.CountOfInputs? && name == "input_count") || (subject.CountOfOutputs? && name == "output_count")
    ensures v in Counts(subject, e) <==> exists part :: part in Conjuncts(e) && Fixes(part, name, v)
  {
    if e.Binary? && e.op.And? {
      FixedCountListed(subject, name, e.left, v);
      FixedCountListed(subject, name, e.right, v);
      assert forall part :: part in Conjuncts(e) <==> part in Conjuncts(e.left) || part in Conjuncts(e.right);
    } else {
      assert e in Conjuncts(e);
      assert v in Counts(subject, e) <==> Fixes(e, name, v);
    }
  }

  lemma {:induction false} CountsOfAll(subject: Subject, es: seq<Expr>, i: nat, v: u64)
    requires i < |es| && v in Counts(subject, es[i])
    ensures v in AllCounts(subject, es)
  {
    if i > 0 { CountsOfAll(subject, es[1..], i - 1, v); }
  }

  lemma {:induction false} LastOfAgreeing(count: Option<u32>, values: seq<u64>, v: u32)
    requires v in values || count == Some(v)
    requires forall x :: x in values ==> x == v
    ensures M.LastFitting(count, values) == Some(v)
    decreases values
  {
    if values != [] {
      assert values[0] in values;
      forall x | x in values[1..] ensures x == v { assert x in values; }
      LastOfAgreeing(Some(v), values[1..], v);
    }
  }

  /** A fixed count that nothing contradicts is the model's exact count. */
  lemma ExactCountListed(body: seq<Stmt>, subject: Subject, v: u32)
    requires v in AllCounts(subject, Requirements(body)) && forall x :: x in AllCounts(subject, Requirements(body)) ==> x == v
    ensures (if subject.CountOfInputs? then M.ModelOf(body).shape.inputCount else M.ModelOf(body).shape.outputCount) == Some(v)
  {
    LastOfAgreeing(None, AllCounts(subject, Requirements(body)), v);
  }

  // ---- references ----

  /** The parts of an expression outside callees. */
  function Reached(e: Expr): seq<Expr>
    decreases e, 1
  {
    [e] + match e
          case Array(elements, _) => AllReached(elements)
          case Unary(_, operand, _) => Reached(operand)
          case Binary(left, _, right, _) => Reached(left) + Reached(right)
          case Call(_, args, _) => AllReached(args)
          case Field(target, _, _) => Reached(target)
          case _ => []
  }

  function AllReached(es: seq<Expr>): seq<Expr>
    decreases es, 0
  {
    if es == [] then [] else Reached(es[0]) + AllReached(es[1..])
  }

  /** An input or output referred to by a literal index outside callees is listed. */
  lemma {:induction false} ReferenceListed(e: Expr, p: Expr, input: bool)
    requires p in Reached(e) && IsCallOf(p, if input then "input" else "output")
    requires p.args != [] && p.args[0].Integer? && p.args[0].value <= U32_MAX
    ensures p.args[0].value in M.References(if input then T.InputWord else T.OutputWord, M.Normalize(e))
    decreases e, 1
  {
    var (word, v) := (if input then T.InputWord else T.OutputWord, p.args[0].value);
    if p == e {
      ReferenceHere(p, input);
    } else if e.Array? {
      AllReferencesListed(e.elements, p, input);
      ReferenceInside(e, word, v);
    } else if e.Unary? {
      ReferenceListed(e.operand, p, input);
      ReferenceInside(e, word, v);
    } else if e.Binary? {
      if p in Reached(e.left) { ReferenceListed(e.left, p, input); } else { ReferenceListed(e.right, p, input); }
      ReferenceInside(e, word, v);
    } else if e.Call? {
      AllReferencesListed(e.args, p, input);
      ReferenceInside(e, word, v);
    } else {
      ReferenceListed(e.target, p, input);
      ReferenceInside(e, word, v);
    }
  }

  predicate ReferredInside(e: Expr, word: T.TokenKind, v: u32) {
    (e.Array? && v in M.AllReferences(word, M.NormalizeAll(e.elements)))
    || (e.Unary? && v in M.References(word, M.Normalize(e.operand)))
    || (e.Binary? && (v in M.References(word, M.Normalize(e.left)) || v in M.References(word, M.Normalize(e.right))))
    || (e.Call? && v in M.AllReferences(word, M.NormalizeAll(e.args)))
    || (e.Field? && v in M.References(word, M.Normalize(e.target)))
  }

  /** What is referred to by a part is referred to by the whole. */
  lemma ReferenceInside(e: Expr, word: T.TokenKind, v: u32)
    requires ReferredInside(e, word, v)
    ensures v in M.References(word, M.Normalize(e))
  {
  }

  lemma ReferenceHere(p: Expr, input: bool)
    requires IsCallOf(p, if input then "input" else "output")
    requires p.args != [] && p.args[0].Integer? && p.args[0].value <= U32_MAX
    ensures p.args[0].value in M.References(if input then T.InputWord else T.OutputWord, M.Normalize(p))
  {
  }

  lemma {:induction false} AllReferencesListed(es: seq<Expr>, p: Expr, input: bool)
    requires p in AllReached(es) && IsCallOf(p, if input then "input" else "output")
    requires p.args != [] && p.args[0].Integer? && p.args[0].value <= U32_MAX
    ensures p.args[0].value in M.AllReferences(if input then T.InputWord else T.OutputWord, M.NormalizeAll(es))
    decreases es, 0
  {
    assert M.NormalizeAll(es)[1..] == M.NormalizeAll(es[1..]);
    if p in Reached(es[0]) {
      ReferenceListed(es[0], p, input);
    } else {
      AllReferencesListed(es[1..], p, input);
    }
  }

  // ---- successors and continuation ----

  lemma {:induction false} SuccessorMember(parts: seq<Expr>, p: Expr)
    requires p in parts && M.SuccessorOf(p).Some?
    ensures M.SuccessorOf(p).value in M.Successors(parts)
  {
    if parts[0] != p { SuccessorMember(parts[1..], p); }
  }

  /** `continuation("name", output(i))` anywhere in a requirement is listed with its name and index. */
  lemma SuccessorListed(body: seq<Stmt>, p: Expr)
    requires p in AllParts(Requirements(body)) && IsCallOf(p, "continuation") && |p.args| == 2 && p.args[0].Text?
    requires IsCallOf(p.args[1], "output") && |p.args[1].args| == 1 && p.args[1].args[0].Integer? && p.args[1].args[0].value <= U32_MAX
    ensures M.Successor(p.args[0].text, p.args[1].args[0].value) in M.Successors(AllParts(Requirements(body)))
  {
    SuccessorMember(AllParts(Requirements(body)), p);
  }

  /** The kind of a continuation is the strongest link there is, and its outputs are those of the links
      of that kind and of the named successors. */
  lemma ContinuationSays(bindings: seq<M.OutputBinding>, named: seq<M.Successor>, i: u32)
    ensures var model := M.ContinuationModel(bindings, named);
            var lineage := exists b :: b in bindings && b.field == M.CovenantId;
            var script := exists b :: b in bindings && b.field == M.Script;
            (model.kind == M.CovenantLineageBound <==> lineage)
            && (model.kind == M.OutputScriptBound <==> !lineage && script)
            && (model.kind == M.NamedOutput <==> !lineage && !script && named != [])
            && (i in model.successorOutputs <==>
                  (exists s :: s in named && s.outputIndex == i)
                  || (lineage && exists b :: b in bindings && b.field == M.CovenantId && b.outputIndex == i)
                  || (!lineage && exists b :: b in bindings && b.field == M.Script && b.outputIndex == i))
            && model.named == named
  {
    var lineage, scripts := M.BoundOutputs(bindings, M.CovenantId), M.BoundOutputs(bindings, M.Script);
    forall b | b in bindings && b.field == M.CovenantId ensures lineage != {} { assert b.outputIndex in lineage; }
    forall b | b in bindings && b.field == M.Script ensures scripts != {} { assert b.outputIndex in scripts; }
    if lineage != {} { var x :| x in lineage; }
    if scripts != {} { var x :| x in scripts; }
  }

  // ---- constraints ----

  /** What the wallet reads as a true constraint. */
  predicate Reads(w: World, n: M.Normalized) {
    var v := NormalValue(w, Elsewhere, n);
    v.Some? && AsBool(v.value)
  }

  /** The listed constraints are the requirements, one for one and in order: read by the wallet, they hold
      exactly when the requirements do. */
  lemma ConstraintsSayAll(w: World, body: seq<Stmt>)
    requires RequireOnly(body) && forall i :: 0 <= i < |body| ==> NamedSignatures(body[i].expr)
    ensures |M.ModelOf(body).constraints| == |body|
    ensures forall i :: 0 <= i < |body| ==> (Reads(w, M.ModelOf(body).constraints[i]) <==> Holds(w, body[i].expr))
    ensures AllHold(w, body) <==> forall i :: 0 <= i < |body| ==> Reads(w, M.ModelOf(body).constraints[i])
  {
    RequirementsOf(body);
    forall i | 0 <= i < |body| ensures Reads(w, M.ModelOf(body).constraints[i]) <==> Holds(w, body[i].expr) {
      NormalKeepsValue(w, Elsewhere, body[i].expr);
    }
  }
}
