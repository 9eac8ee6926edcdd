/** The model of a spend that wallets read (compiler/ir/src/application.rs, compiler/model/src/lib.rs). */
module ApplicationModel {
  import opened Wrappers
  import opened ScriptNumbers
  import opened Syntax
  import opened Tokens
  import opened Traversal
  import opened Printer

  /** An expression without parser internals. The function of a call is the displayed callee. */
  datatype Normalized =
    | Symbol(name: string)
    | IntegerOf(value: u64)
    | StringOf(text: string)
    | BoolOf(truth: bool)
    | ListOf(elements: seq<Normalized>)
    | Prefix(uop: UnaryOp, operand: Normalized)
    | Infix(op: BinaryOp, left: Normalized, right: Normalized)
    | Application(function_: seq<TokenKind>, arguments: seq<Normalized>)
    | Projection(base: Normalized, field: string)

  function Normalize(e: Expr): Normalized
    decreases e, 0
  {
    match e
    case Name(ident) => Symbol(ident.name)
    case Integer(value, _) => IntegerOf(value)
    case Text(text, _) => StringOf(text)
    case Truth(truth, _) => BoolOf(truth)
    case Array(elements, _) => ListOf(NormalizeAll(elements))
    case Unary(uop, operand, _) => Prefix(uop, Normalize(operand))
    case Binary(left, op, right, _) => Infix(op, Normalize(left), Normalize(right))
    case Call(callee, args, _) => Application(Shown(callee), NormalizeAll(args))
    case Field(target, field, _) => Projection(Normalize(target), field.name)
  }

  function NormalizeAll(es: seq<Expr>): (r: seq<Normalized>)
    ensures |r| == |es| && forall i :: 0 <= i < |es| ==> r[i] == Normalize(es[i])
    decreases es, 1
  {
    if es == [] then [] else [Normalize(es[0])] + NormalizeAll(es[1..])
  }

  datatype OutputField = Value | Script | CovenantId

  datatype OutputBinding = OutputBinding(outputIndex: u32, field: OutputField, relation: BinaryOp, expected: Normalized)

  datatype Successor = Successor(name: string, outputIndex: u32)

  datatype ContinuationKind = Unspecified | NamedOutput | OutputScriptBound | CovenantLineageBound

  datatype Continuation = Continuation(kind: ContinuationKind, successorOutputs: set<u32>, named: seq<Successor>)

  datatype Shape = Shape(inputs: set<u32>, outputs: set<u32>, inputCount: Option<u32>, outputCount: Option<u32>)

  datatype Transition = Transition(constraints: seq<Normalized>, shape: Shape, bindings: seq<OutputBinding>, continuation: Continuation)

  // ---- output bindings ----

  /** `output(i).field` with a 32-bit literal index and a field that can be bound. */
  function FieldOfOutput(e: Expr): Option<(u32, OutputField)> {
    if !e.Field? || !IsOutputCall(e.target) then None
    else
      var index: u32 := e.target.args[0].value;
      if e.field.name == "value" then Some((index, Value))
      else if e.field.name == "script" then Some((index, Script))
      else if e.field.name == "covenant_id" then Some((index, CovenantId))
      else None
  }

  function ReverseRelation(op: BinaryOp): BinaryOp {
    match op
    case Greater => Less
    case GreaterEqual => LessEqual
    case Less => Greater
    case LessEqual => GreaterEqual
    case _ => op
  }

  /** The binding a requirement states, with the output on the left. */
  function BindingOf(e: Expr): Option<OutputBinding> {
    if !e.Binary? then None
    else if FieldOfOutput(e.left).Some? then
      var (index, field) := FieldOfOutput(e.left).value;
      Some(OutputBinding(index, field, e.op, Normalize(e.right)))
    else if FieldOfOutput(e.right).Some? then
      var (index, field) := FieldOfOutput(e.right).value;
      Some(OutputBinding(index, field, ReverseRelation(e.op), Normalize(e.left)))
    else None
  }

  function Bindings(requirements: seq<Expr>): seq<OutputBinding> {
    if requirements == [] then []
    else (if BindingOf(requirements[0]).Some? then [BindingOf(requirements[0]).value] else []) + Bindings(requirements[1..])
  }

  // ---- exact counts: the last literal that fits wins ----

  function LastFitting(count: Option<u32>, values: seq<u64>): Option<u32>
    decreases values
  {
    if values == [] then count
    else LastFitting(if values[0] <= U32_MAX then Some(values[0]) else count, values[1..])
  }

  lemma {:induction false} LastFittingConcat(count: Option<u32>, a: seq<u64>, b: seq<u64>)
    ensures LastFitting(count, a + b) == LastFitting(LastFitting(count, a), b)
    decreases a
  {
    if a == [] {
      assert a + b == b;
    } else {
      LastFittingConcat(if a[0] <= U32_MAX then Some(a[0]) else count, a[1..], b);
      assert (a + b)[1..] == a[1..] + b;
    }
  }

  /** The two counts being collected. */
  class CountPair {
    var inputCount: Option<u32>
    var outputCount: Option<u32>

    constructor ()
      ensures inputCount == None && outputCount == None
    {
      inputCount, outputCount := None, None;
    }
  }

  method CollectExactTransactionCounts(e: Expr, counts: CountPair)
    modifies counts
    ensures counts.inputCount == LastFitting(old(counts.inputCount), Counts(CountOfInputs, e))
    ensures counts.outputCount == LastFitting(old(counts.outputCount), Counts(CountOfOutputs, e))
  {
    if e.Binary? && e.op.And? {
      LastFittingConcat(counts.inputCount, Counts(CountOfInputs, e.left), Counts(CountOfInputs, e.right));
      LastFittingConcat(counts.outputCount, Counts(CountOfOutputs, e.left), Counts(CountOfOutputs, e.right));
      CollectExactTransactionCounts(e.left, counts);
      CollectExactTransactionCounts(e.right, counts);
      return;
    }
    var constraint := CountConstraint(e);
    if constraint.None? || constraint.value.1 > U32_MAX { return; }
    if constraint.value.0.CountOfInputs? {
      counts.inputCount := Some(constraint.value.1);
    } else {
      counts.outputCount := Some(constraint.value.1);
    }
  }

  // ---- named successors ----

  function SuccessorOf(e: Expr): Option<Successor> {
    if ContinuationName(e).Some? && |e.args| > 1 && IsOutputCall(e.args[1]) then
      Some(Successor(ContinuationName(e).value, e.args[1].args[0].value))
    else None
  }

  function Successors(parts: seq<Expr>): seq<Successor> {
    if parts == [] then []
    else (if SuccessorOf(parts[0]).Some? then [SuccessorOf(parts[0]).value] else []) + Successors(parts[1..])
  }

  lemma {:induction false} SuccessorsConcat(a: seq<Expr>, b: seq<Expr>)
    ensures Successors(a + b) == Successors(a) + Successors(b)
  {
    if a == [] {
      assert a + b == b;
    } else {
      SuccessorsConcat(a[1..], b);
      ConcatHead(a, b);
      var first := if SuccessorOf(a[0]).Some? then [SuccessorOf(a[0]).value] else [];
      ConcatAssociates(first, Successors(a[1..]), Successors(b));
    }
  }

  lemma SuccessorsHead(e: Expr, rest: seq<Expr>)
    ensures Successors([e] + rest) == (if SuccessorOf(e).Some? then [SuccessorOf(e).value] else []) + Successors(rest)
  {
    assert ([e] + rest)[1..] == rest;
  }

  method CollectNamedSuccessorOutputs(e: Expr, out: Vec<Successor>)
    modifies out
    ensures out.items == old(out.items) + Successors(Parts(e))
    decreases e, 1
  {
    SuccessorsHead(e, Inside(e));
    if SuccessorOf(e).Some? { out.Push(SuccessorOf(e).value); }
    CollectInside(e, out);
  }

  method CollectInside(e: Expr, out: Vec<Successor>)
    modifies out
    ensures out.items == old(out.items) + Successors(Inside(e))
    decreases e, 0
  {
    if e.Array? {
      CollectFromAll(e.elements, out);
    } else if e.Unary? {
      CollectNamedSuccessorOutputs(e.operand, out);
    } else if e.Binary? {
      SuccessorsConcat(Parts(e.left), Parts(e.right));
      ConcatAssociates(out.items, Successors(Parts(e.left)), Successors(Parts(e.right)));
      CollectNamedSuccessorOutputs(e.left, out);
      CollectNamedSuccessorOutputs(e.right, out);
    } else if e.Call? {
      SuccessorsConcat(Parts(e.callee), AllParts(e.args));
      ConcatAssociates(out.items, Successors(Parts(e.callee)), Successors(AllParts(e.args)));
      CollectNamedSuccessorOutputs(e.callee, out);
      CollectFromAll(e.args, out);
    } else if e.Field? {
      CollectNamedSuccessorOutputs(e.target, out);
    }
  }

  method CollectFromAll(es: seq<Expr>, out: Vec<Successor>)
    modifies out
    ensures out.items == old(out.items) + Successors(AllParts(es))
    decreases es, 2
  {
    for i := 0 to |es|
      invariant out.items == old(out.items) + Successors(AllParts(es[..i]))
    {
      AllPartsLast(es[..i], es[i]);
      SuccessorsConcat(AllParts(es[..i]), Parts(es[i]));
      assert es[..i + 1] == es[..i] + [es[i]];
      CollectNamedSuccessorOutputs(es[i], out);
    }
    assert es[..|es|] == es;
  }

  // ---- referenced inputs and outputs ----

  /** The 32-bit literal first arguments of applications of one function; callees are not searched. */
  function References(word: TokenKind, n: Normalized): set<u32>
    decreases n, 0
  {
    match n
    case ListOf(elements) => AllReferences(word, elements)
    case Prefix(_, operand) => References(word, operand)
    case Infix(_, left, right) => References(word, left) + References(word, right)
    case Application(function_, arguments) =>
      (if function_ == [word] && arguments != [] && arguments[0].IntegerOf? && arguments[0].value <= U32_MAX
       then {arguments[0].value} else {}) + AllReferences(word, arguments)
    case Projection(base, _) => References(word, base)
    case _ => {}
  }

  function AllReferences(word: TokenKind, ns: seq<Normalized>): set<u32>
    decreases ns, 1
  {
    if ns == [] then {} else References(word, ns[0]) + AllReferences(word, ns[1..])
  }

  class IndexSets {
    var inputs: set<u32>
    var outputs: set<u32>

    constructor ()
      ensures inputs == {} && outputs == {}
    {
      inputs, outputs := {}, {};
    }
  }

  method CollectTransactionIndexes(n: Normalized, sets: IndexSets)
    modifies sets
    ensures sets.inputs == old(sets.inputs) + References(InputWord, n)
    ensures sets.outputs == old(sets.outputs) + References(OutputWord, n)
    decreases n, 0
  {
    if n.Application? {
      if n.arguments != [] && n.arguments[0].IntegerOf? && n.arguments[0].value <= U32_MAX {
        var index: u32 := n.arguments[0].value;
        if n.function_ == [InputWord] {
          sets.inputs := sets.inputs + {index};
        } else if n.function_ == [OutputWord] {
          sets.outputs := sets.outputs + {index};
        }
      }
      CollectIndexesFromAll(n.arguments, sets);
    } else if n.ListOf? {
      CollectIndexesFromAll(n.elements, sets);
    } else if n.Prefix? {
      CollectTransactionIndexes(n.operand, sets);
    } else if n.Infix? {
      CollectTransactionIndexes(n.left, sets);
      CollectTransactionIndexes(n.right, sets);
    } else if n.Projection? {
      CollectTransactionIndexes(n.base, sets);
    }
  }

  method CollectIndexesFromAll(ns: seq<Normalized>, sets: IndexSets)
    modifies sets
    ensures sets.inputs == old(sets.inputs) + AllReferences(InputWord, ns)
    ensures sets.outputs == old(sets.outputs) + AllReferences(OutputWord, ns)
    decreases ns, 1
  {
    assert ns[0..] == ns;
    for i := 0 to |ns|
      invariant sets.inputs + AllReferences(InputWord, ns[i..]) == old(sets.inputs) + AllReferences(InputWord, ns)
      invariant sets.outputs + AllReferences(OutputWord, ns[i..]) == old(sets.outputs) + AllReferences(OutputWord, ns)
    {
      assert ns[i..][0] == ns[i] && ns[i..][1..] == ns[i + 1..];
      CollectTransactionIndexes(ns[i], sets);
    }
  }

  // ---- the continuation and the whole transition ----

  function BoundOutputs(bindings: seq<OutputBinding>, field: OutputField): set<u32> {
    set b | b in bindings && b.field == field :: b.outputIndex
  }

  function NamedOutputs(named: seq<Successor>): set<u32> { set s | s in named :: s.outputIndex }

  function ContinuationModel(bindings: seq<OutputBinding>, named: seq<Successor>): Continuation {
    var lineage := BoundOutputs(bindings, CovenantId);
    var scripts := BoundOutputs(bindings, Script);
    if lineage != {} then Continuation(CovenantLineageBound, lineage + NamedOutputs(named), named)
    else if scripts != {} then Continuation(OutputScriptBound, scripts + NamedOutputs(named), named)
    else if named != [] then Continuation(NamedOutput, NamedOutputs(named), named)
    else Continuation(Unspecified, {}, [])
  }

  function ModelOf(body: seq<Stmt>): Transition {
    var requirements := Requirements(body);
    var constraints := NormalizeAll(requirements);
    var bindings := Bindings(requirements);
    var shape := Shape(AllReferences(InputWord, constraints), AllReferences(OutputWord, constraints),
                       LastFitting(None, AllCounts(CountOfInputs, requirements)),
                       LastFitting(None, AllCounts(CountOfOutputs, requirements)));
    Transition(constraints, shape, bindings, ContinuationModel(bindings, Successors(AllParts(requirements))))
  }

  lemma {:induction false} BindingsLast(es: seq<Expr>, last: Expr)
    ensures Bindings(es + [last]) == Bindings(es) + if BindingOf(last).Some? then [BindingOf(last).value] else []
  {
    if es == [] {
      assert [] + [last] == [last] && [last][1..] == [];
    } else {
      BindingsLast(es[1..], last);
      assert (es + [last])[1..] == es[1..] + [last];
    }
  }

  /** The counts, successors and indexes of a spend, collected requirement by requirement. */
  method CollectShape(requirements: seq<Expr>) returns (counts: CountPair, successors: Vec<Successor>, sets: IndexSets)
    ensures counts.inputCount == LastFitting(None, AllCounts(CountOfInputs, requirements))
    ensures counts.outputCount == LastFitting(None, AllCounts(CountOfOutputs, requirements))
    ensures successors.items == Successors(AllParts(requirements))
    ensures sets.inputs == AllReferences(InputWord, NormalizeAll(requirements))
    ensures sets.outputs == AllReferences(OutputWord, NormalizeAll(requirements))
  {
    counts := new CountPair();
    successors := new Vec<Successor>();
    sets := new IndexSets();
    CollectIndexesFromAll(NormalizeAll(requirements), sets);
    CollectFromAll(requirements, successors);
    for i := 0 to |requirements|
      invariant counts.inputCount == LastFitting(None, AllCounts(CountOfInputs, requirements[..i]))
      invariant counts.outputCount == LastFitting(None, AllCounts(CountOfOutputs, requirements[..i]))
      invariant successors.items == Successors(AllParts(requirements))
      invariant sets.inputs == AllReferences(InputWord, NormalizeAll(requirements))
      invariant sets.outputs == AllReferences(OutputWord, NormalizeAll(requirements))
      invariant fresh(counts)
    {
      var e := requirements[i];
      assert requirements[..i + 1] == requirements[..i] + [e];
      AllCountsLast(CountOfInputs, requirements[..i], e);
      AllCountsLast(CountOfOutputs, requirements[..i], e);
      LastFittingConcat(None, AllCounts(CountOfInputs, requirements[..i]), Counts(CountOfInputs, e));
      LastFittingConcat(None, AllCounts(CountOfOutputs, requirements[..i]), Counts(CountOfOutputs, e));
      CollectExactTransactionCounts(e, counts);
    }
    assert requirements[..|requirements|] == requirements;
  }

  /** Builds the model of a spend body. */
  method BuildTransitionModel(body: seq<Stmt>) returns (model: Transition)
    ensures model == ModelOf(body)
  {
    var requirements: seq<Expr>, bindings: seq<OutputBinding> := [], [];
    for i := 0 to |body|
      invariant requirements == Requirements(body[..i]) && bindings == Bindings(requirements)
    {
      assert body[..i + 1] == body[..i] + [body[i]];
      RequirementsLast(body[..i], body[i]);
      if body[i].Require? {
        BindingsLast(requirements, body[i].expr);
        requirements := requirements + [body[i].expr];
        if BindingOf(body[i].expr).Some? { bindings := bindings + [BindingOf(body[i].expr).value]; }
      }
    }
    assert body[..|body|] == body;
    var counts, successors, sets := CollectShape(requirements);
    var shape := Shape(sets.inputs, sets.outputs, counts.inputCount, counts.outputCount);
    model := Transition(NormalizeAll(requirements), shape, bindings, ContinuationModel(bindings, successors.items));
  }
}
