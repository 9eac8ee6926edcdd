/** What the application model says of a spend is what its script enforces. */
module ModelSoundness {
  import opened Wrappers
  import opened ScriptNumbers
  import opened Syntax
  import opened Tokens
  import opened Instructions
  import opened Lowering
  import opened Encoding
  import opened Script
  import opened Engine
  import opened Evaluation
  import opened Spends
  import opened Traversal
  import opened Printer
  import opened NormalForms
  import M = ApplicationModel
  import C = Checker

  // ---- the checker and the model agree ----

  /** When the checker finds no conflict, the last literal it passes over is also the first. */
  lemma {:induction false} LastIsFirst(count: Option<u32>, values: seq<u64>)
    requires C.ValuesAgree(count, values)
    ensures M.LastFitting(count, values) == C.FirstValue(count, values)
    decreases values
  {
    if values != [] {
      assert values[0] in values;
      forall v | v in values[1..] ensures v <= U32_MAX && Some(v) == C.FirstValue(Some(values[0]), values[1..]) {
        assert v in values;
      }
      LastIsFirst(Some(values[0]), values[1..]);
    }
  }

  predicate IndexWord(word: TokenKind, name: string) {
    (word == InputWord && name == "input") || (word == OutputWord && name == "output")
  }

  lemma CallOfWord(e: Expr, word: TokenKind, name: string)
    requires e.Call? && IndexWord(word, name) && Shown(e.callee) == [word]
    ensures IsCallOf(e, name)
  {
    ShownIsLong(e.callee);
    assert e.callee.Name? ==> Shown(e.callee) == [NameToken(e.callee.ident.name)];
  }

  /** Every index the model lists is one the checker has seen. */
  lemma {:induction false} ReferencesAreIndexes(word: TokenKind, name: string, e: Expr, i: u32)
    requires IndexWord(word, name) && i in M.References(word, M.Normalize(e))
    ensures i in Indexes(name, Parts(e))
    decreases e, 1
  {
    IndexesConcat(name, [e], Inside(e));
    if e.Array? {
      AllReferencesAreIndexes(word, name, e.elements, i);
    } else if e.Unary? {
      ReferencesAreIndexes(word, name, e.operand, i);
    } else if e.Binary? {
      BinaryReferences(word, name, e, i);
    } else if e.Call? {
      CallReferences(word, name, e, i);
    } else if e.Field? {
      ReferencesAreIndexes(word, name, e.target, i);
    }
  }

  lemma {:induction false} BinaryReferences(word: TokenKind, name: string, e: Expr, i: u32)
    requires e.Binary? && IndexWord(word, name) && i in M.References(word, M.Normalize(e))
    ensures i in Indexes(name, Inside(e))
    decreases e, 0
  {
    IndexesConcat(name, Parts(e.left), Parts(e.right));
    if i in M.References(word, M.Normalize(e.left)) {
      ReferencesAreIndexes(word, name, e.left, i);
    } else {
      ReferencesAreIndexes(word, name, e.right, i);
    }
  }

  lemma {:induction false} CallReferences(word: TokenKind, name: string, e: Expr, i: u32)
    requires e.Call? && IndexWord(word, name) && i in M.References(word, M.Normalize(e))
    ensures i in Indexes(name, [e]) || i in Indexes(name, Inside(e))
    decreases e, 0
  {
    IndexesConcat(name, Parts(e.callee), AllParts(e.args));
    if i in M.AllReferences(word, M.NormalizeAll(e.args)) {
      AllReferencesAreIndexes(word, name, e.args, i);
    } else {
      CallOfWord(e, word, name);
      IndexesMember(name, [e], e);
    }
  }

  lemma {:induction false} AllReferencesAreIndexes(word: TokenKind, name: string, es: seq<Expr>, i: u32)
    requires IndexWord(word, name) && i in M.AllReferences(word, M.NormalizeAll(es))
    ensures i in Indexes(name, AllParts(es))
    decreases es, 2
  {
    IndexesConcat(name, Parts(es[0]), AllParts(es[1..]));
    assert M.NormalizeAll(es)[1..] == M.NormalizeAll(es[1..]);
    if i in M.References(word, M.Normalize(es[0])) {
      ReferencesAreIndexes(word, name, es[0], i);
    } else {
      AllReferencesAreIndexes(word, name, es[1..], i);
    }
  }

  /** For requirements the checker accepts, the model's exact counts are the checker's, every index the
      model lists is among those the checker has seen, and stays below a count that is fixed. */
  lemma CheckerAndModelAgree(body: seq<Stmt>)
    requires C.ShapeOk(Requirements(body))
    ensures var es, shape := Requirements(body), M.ModelOf(body).shape;
            shape.inputCount == C.InputFacts(es).exact && shape.outputCount == C.OutputFacts(es).exact
            && (forall i :: i in shape.inputs ==> i in Indexes("input", AllParts(es)))
            && (forall i :: i in shape.outputs ==> i in Indexes("output", AllParts(es)))
            && (shape.inputCount.Some? ==> forall i :: i in Indexes("input", AllParts(es)) ==> i < shape.inputCount.value)
            && (shape.outputCount.Some? ==> forall i :: i in Indexes("output", AllParts(es)) ==> i < shape.outputCount.value)
  {
    var es := Requirements(body);
    LastIsFirst(None, AllCounts(CountOfInputs, es));
    LastIsFirst(None, AllCounts(CountOfOutputs, es));
    C.LargestBounds(None, Indexes("input", AllParts(es)));
    C.LargestBounds(None, Indexes("output", AllParts(es)));
    forall i: u32 | i in M.ModelOf(body).shape.inputs ensures i in Indexes("input", AllParts(es)) {
      AllReferencesAreIndexes(InputWord, "input", es, i);
    }
    forall i: u32 | i in M.ModelOf(body).shape.outputs ensures i in Indexes("output", AllParts(es)) {
      AllReferencesAreIndexes(OutputWord, "output", es, i);
    }
  }

  // ---- what compiled code reads ----

  /** The input or output an instruction reads is one of those referenced. */
  predicate ReadsFrom(instr: Instr, inputs: seq<u64>, outputs: seq<u64>) {
    (instr.InputValue? ==> instr.index in inputs) && (instr.InputScript? ==> instr.index in inputs)
    && (instr.OutputValue? ==> instr.index in outputs) && (instr.OutputScript? ==> instr.index in outputs)
  }

  ghost predicate CodeReadsFrom(code: Code, parts: seq<Expr>) {
    forall k :: 0 <= k < |code| ==> ReadsFrom(code[k], Indexes("input", parts), Indexes("output", parts))
  }

  /** Whatever the smaller parts refer to, the bigger ones do. */
  ghost predicate Covers(big: seq<Expr>, small: seq<Expr>) {
    (forall i :: i in Indexes("input", small) ==> i in Indexes("input", big))
    && forall i :: i in Indexes("output", small) ==> i in Indexes("output", big)
  }

  lemma CoversBoth(a: seq<Expr>, b: seq<Expr>)
    ensures Covers(a + b, a) && Covers(a + b, b)
  {
    IndexesConcat("input", a, b);
    IndexesConcat("output", a, b);
  }

  lemma CoversInside(e: Expr)
    ensures Covers(Parts(e), Inside(e)) && Covers(Parts(e), [e])
  {
    CoversBoth([e], Inside(e));
  }

  lemma {:induction false} CoversMember(es: seq<Expr>, i: nat)
    requires i < |es|
    ensures Covers(AllParts(es), Parts(es[i]))
  {
    CoversBoth(Parts(es[0]), AllParts(es[1..]));
    if i > 0 {
      CoversMember(es[1..], i - 1);
    }
  }

  lemma BothRead(a: Code, b: Code, small: seq<Expr>, small1: seq<Expr>, parts: seq<Expr>)
    requires CodeReadsFrom(a, small) && CodeReadsFrom(b, small1) && Covers(parts, small) && Covers(parts, small1)
    ensures CodeReadsFrom(a + b, parts)
  {
  }

  lemma AlsoReads(code: Code, instr: Instr, small: seq<Expr>, parts: seq<Expr>)
    requires CodeReadsFrom(code, small) && Covers(parts, small)
    requires !instr.InputValue? && !instr.InputScript? && !instr.OutputValue? && !instr.OutputScript?
    ensures CodeReadsFrom(code + [instr], parts)
  {
  }

  /** Compiled code reads only inputs and outputs the checker has seen. */
  lemma {:induction false} LoweredReads(e: Expr)
    requires Lower(e).Success?
    ensures CodeReadsFrom(Lower(e).value, Parts(e))
    decreases e, 1
  {
    CoversInside(e);
    if e.Array? {
      AllLoweredRead(e.elements);
    } else if e.Unary? {
      LoweredReads(e.operand);
      AlsoReads(Lower(e.operand).value, Instr.Not, Parts(e.operand), Parts(e));
    } else if e.Binary? {
      BinaryReads(e);
    } else if e.Call? {
      CallReads(e);
    } else if e.Field? {
      FieldReads(e);
    }
  }

  lemma {:induction false} AllLoweredRead(es: seq<Expr>)
    requires LowerAll(es).Success?
    ensures CodeReadsFrom(LowerAll(es).value, AllParts(es))
    decreases es, 2
  {
    if es != [] {
      LoweredReads(es[0]);
      AllLoweredRead(es[1..]);
      CoversBoth(Parts(es[0]), AllParts(es[1..]));
      BothRead(Lower(es[0]).value, LowerAll(es[1..]).value, Parts(es[0]), AllParts(es[1..]), AllParts(es));
    }
  }

  lemma {:induction false} BinaryReads(e: Expr)
    requires e.Binary? && LowerBinary(e).Success? && Covers(Parts(e), Inside(e))
    ensures CodeReadsFrom(LowerBinary(e).value, Parts(e))
    decreases e, 0
  {
    CoversBoth(Parts(e.left), Parts(e.right));
    if IsLockTest(e) {
      var isHeight := Path(e.left) == ["block", "height"];
      if !e.right.Integer? {
        LoweredReads(e.right);
        AlsoReads(Lower(e.right).value, if isHeight then CheckLockHeightFromStack else CheckLockTimeFromStack, Parts(e.right), Parts(e));
      }
    } else {
      LoweredReads(e.left);
      LoweredReads(e.right);
      BothRead(Lower(e.left).value, Lower(e.right).value, Parts(e.left), Parts(e.right), Parts(e));
      AlsoReads(Lower(e.left).value + Lower(e.right).value, BinaryInstr(e.op), Parts(e), Parts(e));
    }
  }

  lemma {:induction false} FirstReads(es: seq<Expr>)
    requires LowerFirst(es).Success?
    ensures CodeReadsFrom(LowerFirst(es).value, AllParts(es))
    decreases es, 2
  {
    if es != [] {
      LoweredReads(es[0]);
      CoversMember(es, 0);
    }
  }

  lemma {:induction false} CallReads(e: Expr)
    requires e.Call? && LowerCall(e).Success? && Covers(Parts(e), Inside(e))
    ensures CodeReadsFrom(LowerCall(e).value, Parts(e))
    decreases e, 0
  {
    CoversBoth(Parts(e.callee), AllParts(e.args));
    if e.callee.Field? && e.callee.field.name == "verify" {
      LoweredReads(e.callee.target);
      FirstReads(e.args);
      CoversInside(e.callee);
      BothRead(Lower(e.callee.target).value, LowerFirst(e.args).value, Parts(e.callee.target), AllParts(e.args), Parts(e));
      AlsoReads(Lower(e.callee.target).value + LowerFirst(e.args).value, CheckSig(0), Parts(e), Parts(e));
    } else if IsCallOf(e, "multisig") {
      MultisigReads(e.args, Parts(e));
    } else if IsCallOf(e, "input") || IsCallOf(e, "output") || IsCallOf(e, "continuation") {
    } else if IsCallOf(e, "zk_verify") || IsCallOf(e, "sha256") || IsCallOf(e, "blake2b") || IsCallOf(e, "hash160") {
      var instr := LowerCall(e).value[|LowerFirst(e.args).value|];
      FirstReads(e.args);
      AlsoReads(LowerFirst(e.args).value, instr, AllParts(e.args), Parts(e));
    } else {
      LoweredReads(e.callee);
      AllLoweredRead(e.args);
      BothRead(Lower(e.callee).value, LowerAll(e.args).value, Parts(e.callee), AllParts(e.args), Parts(e));
    }
  }

  lemma {:induction false} MultisigReads(args: seq<Expr>, parts: seq<Expr>)
    requires LowerMultisig(args).Success? && Covers(parts, AllParts(args))
    ensures CodeReadsFrom(LowerMultisig(args).value, parts)
    decreases args, 2
  {
    var signatures: Code := if |args| > 2 then Lower(args[2]).value else [];
    var keys: Code := if |args| > 1 then Lower(args[1]).value else [];
    if |args| > 2 {
      LoweredReads(args[2]);
      CoversMember(args, 2);
    }
    if |args| > 1 {
      LoweredReads(args[1]);
      CoversMember(args, 1);
    }
    AlsoReads(signatures, Push(IntegerValue(args[0].value)), parts, parts);
    BothRead(signatures + [Push(IntegerValue(args[0].value))], keys, parts, parts, parts);
    AlsoReads(signatures + [Push(IntegerValue(args[0].value))] + keys, CheckMultiSig(args[0].value, KeyCount(args)), parts, parts);
  }

  lemma {:induction false} FieldReads(e: Expr)
    requires e.Field? && LowerField(e).Success? && Covers(Parts(e), Inside(e))
    ensures CodeReadsFrom(LowerField(e).value, Parts(e))
    decreases e, 0
  {
    if IsCallOf(e.target, "input") || IsCallOf(e.target, "output") {
      CoversInside(e.target);
      IndexesMember(e.target.callee.ident.name, [e.target], e.target);
    } else if (Path(e.target) == ["covenant_id"] && e.field.name == "depth") || Path(e.target) == ["sequencing"] {
    } else {
      LoweredReads(e.target);
      AlsoReads(Lower(e.target).value, Push(SymbolValue(e.field.name)), Parts(e.target), Parts(e));
    }
  }

  /** In a transaction with a fixed count, nothing that code of an accepted spend's requirements reads on
      that side is out of range; either count is enough for its own side. */
  lemma ReadsAreInRange(body: seq<Stmt>, e: Expr, k: nat)
    requires C.ShapeOk(Requirements(body)) && e in Requirements(body) && Lower(e).Success? && k < |Lower(e).value|
    ensures var instr, shape := Lower(e).value[k], M.ModelOf(body).shape;
            ((instr.InputValue? || instr.InputScript?) && shape.inputCount.Some? ==> instr.index < shape.inputCount.value)
            && ((instr.OutputValue? || instr.OutputScript?) && shape.outputCount.Some? ==> instr.index < shape.outputCount.value)
  {
    var es := Requirements(body);
    var i :| 0 <= i < |es| && es[i] == e;
    CheckerAndModelAgree(body);
    LoweredReads(e);
    CoversMember(es, i);
    assert ReadsFrom(Lower(e).value[k], Indexes("input", Parts(e)), Indexes("output", Parts(e)));
  }

  // ---- requirements that hold ----

  /** The expression has a true value when read in some place. */
  ghost predicate True(w: World, r: Reading, e: Expr) {
    InFragment(e) && Eval(w, r, e).Some? && AsBool(Eval(w, r, e).value)
  }

  lemma TrueBoth(w: World, r: Reading, e: Expr)
    requires True(w, r, e) && e.Binary? && e.op.And?
    ensures True(w, r, e.left) && True(w, LastReading(e.left), e.right)
  {
    var a, b := Eval(w, r, e.left).value, Eval(w, LastReading(e.left), e.right).value;
    var m, n := AsNum(a).value, AsNum(b).value;
    BoolNum(m != 0 && n != 0);
    TruthOfNumber(a);
    TruthOfNumber(b);
  }

  function CountIn(c: Context, subject: Subject): nat {
    if subject.CountOfInputs? then |c.tx.inputs| else |c.tx.outputs|
  }

  /** A true conjunction fixes the counts to the transaction's own. */
  lemma {:induction false} CountsHold(w: World, r: Reading, e: Expr, subject: Subject, v: u64)
    requires True(w, r, e) && v in Counts(subject, e)
    ensures v == CountIn(w.c, subject)
    decreases e
  {
    if e.Binary? && e.op.And? {
      TrueBoth(w, r, e);
      if v in Counts(subject, e.left) {
        CountsHold(w, r, e.left, subject, v);
      } else {
        CountsHold(w, LastReading(e.left), e.right, subject, v);
      }
    } else {
      var a, b := Eval(w, r, e.left).value, Eval(w, LastReading(e.left), e.right).value;
      BoolNum(a == b);
      assert a == b;
      NumInjective(CountIn(w.c, subject), v);
    }
  }

  /** The parts of a conjunction. */
  function Conjuncts(e: Expr): seq<Expr> {
    if e.Binary? && e.op.And? then Conjuncts(e.left) + Conjuncts(e.right) else [e]
  }

  lemma {:induction false} ConjunctsHold(w: World, r: Reading, e: Expr, part: Expr)
    requires True(w, r, e) && part in Conjuncts(e)
    ensures exists r1 :: True(w, r1, part)
    decreases e
  {
    if e.Binary? && e.op.And? {
      TrueBoth(w, r, e);
      if part in Conjuncts(e.left) {
        ConjunctsHold(w, r, e.left, part);
      } else {
        ConjunctsHold(w, LastReading(e.left), e.right, part);
      }
    }
  }

  /** A true continuation claim has its output. */
  lemma SuccessorExists(w: World, r: Reading, e: Expr)
    requires True(w, r, e) && M.SuccessorOf(e).Some?
    ensures M.SuccessorOf(e).value.outputIndex < |w.c.tx.outputs|
  {
    assert IsCallOf(e, "continuation") && !IsVerify(e) && !IsHash(e) && !IsMultisig(e);
    assert Eval(w, r, e) == EvalCall(w, r, e);
    BoolNum(|w.c.tx.outputs| > e.args[1].args[0].value);
  }

  // ---- output bindings ----

  predicate IsComparison(op: BinaryOp) {
    op.Equal? || op.NotEqual? || op.Greater? || op.GreaterEqual? || op.Less? || op.LessEqual?
  }

  /** Swapping the sides of a comparison reverses it. */
  lemma ReversedRelation(op: BinaryOp, a: Bytes, b: Bytes)
    requires IsComparison(op)
    ensures BinaryValue(M.ReverseRelation(op), b, a) == BinaryValue(op, a, b)
  {
  }

  /** Subtraction is not a relation that can be reversed; the checker keeps it out of requirements. */
  lemma SubtractionDoesNotReverse()
    ensures M.ReverseRelation(BinaryOp.Sub) == BinaryOp.Sub
    ensures BinaryValue(BinaryOp.Sub, Num(1), Num(0)) != BinaryValue(BinaryOp.Sub, Num(0), Num(1))
  {
    NumRoundTrip(0);
    NumRoundTrip(1);
    NumInjective(1, -1);
  }

  function FieldName(field: M.OutputField): string {
    match field
    case Value => "value"
    case Script => "script"
    case CovenantId => "covenant_id"
  }

  /** The output field a binding names. */
  function Bound(c: Context, b: M.OutputBinding): Option<Bytes> { FieldValue(c, false, b.outputIndex, FieldName(b.field)) }

  /** The output exists and its field stands in the relation to the value. */
  ghost predicate Related(c: Context, b: M.OutputBinding, v: Bytes) {
    Bound(c, b).Some? && BinaryValue(b.relation, Bound(c, b).value, v) == Some(BoolBytes(true))
  }

  /** Where a binding's expected expression is read: behind the output's script when that was read first. */
  function BoundReading(e: Expr): Reading
    requires e.Binary?
  {
    if M.FieldOfOutput(e.left).Some? then LastReading(e.left) else Elsewhere
  }

  /** The transaction satisfies the binding of a requirement: its output exists, and its field stands in
      the relation to the value of the expected expression, as the wallet reads it. A bound on the lock
      stands for the lock test itself. */
  ghost predicate Satisfied(w: World, e: Expr, b: M.OutputBinding)
    requires e.Binary?
  {
    if IsLockTest(e) then
      b.relation.LessEqual? && NormalPath(b.expected) == Path(e.left)
      && Bound(w.c, b).Some? && LockPassed(w.c, Bound(w.c, b).value)
    else
      var expected := NormalValue(w, BoundReading(e), b.expected);
      expected.Some? && Related(w.c, b, expected.value)
  }

  lemma ComparisonIsTrue(op: BinaryOp, a: Bytes, b: Bytes)
    requires IsComparison(op) && BinaryValue(op, a, b).Some? && AsBool(BinaryValue(op, a, b).value)
    ensures BinaryValue(op, a, b) == Some(BoolBytes(true))
  {
    BoolNum(false);
  }

  lemma OutputFieldPath(e: Expr)
    ensures M.FieldOfOutput(e).Some? ==> |Path(e)| == 1
  {
    if M.FieldOfOutput(e).Some? {
      assert Path(e.target) == [];
    }
  }

  lemma BindingHolds(w: World, e: Expr)
    requires True(w, Elsewhere, e) && M.BindingOf(e).Some? && IsComparison(e.op) && NamedSignatures(e)
    ensures Satisfied(w, e, M.BindingOf(e).value)
  {
    var b := M.BindingOf(e).value;
    if IsLockTest(e) {
      var lock := Eval(w, Elsewhere, e.right).value;
      BoolNum(LockPassed(w.c, lock));
      OutputFieldPath(e.left);
      PathsAgree(e.left);
    } else {
      NormalKeepsValue(w, Elsewhere, e.left);
      NormalKeepsValue(w, LastReading(e.left), e.right);
      var left, right := Eval(w, Elsewhere, e.left).value, Eval(w, LastReading(e.left), e.right).value;
      ComparisonIsTrue(e.op, left, right);
      if M.FieldOfOutput(e.left).None? {
        ReversedRelation(e.op, left, right);
      }
    }
  }

  /** What a binding of an amount says in numbers. */
  predicate Compares(op: BinaryOp, m: int, n: int) {
    match op
    case Equal => m == n
    case Greater => m > n
    case GreaterEqual => m >= n
    case Less => m < n
    case LessEqual => m <= n
    case _ => m != n
  }

  /** A satisfied binding of an amount compares that amount, as a number, with the expected one. */
  lemma AmountsCompare(c: Context, b: M.OutputBinding, v: Bytes, n: int)
    requires Related(c, b, v) && b.field.Value? && IsComparison(b.relation) && AsNum(v) == Some(n)
    ensures b.outputIndex < |c.tx.outputs| && Compares(b.relation, c.tx.outputs[b.outputIndex].value, n)
  {
    var amount := c.tx.outputs[b.outputIndex].value;
    NumRoundTrip(amount);
    BoolNum(true);
    BoolNum(false);
    if b.relation.NotEqual? && amount == n {
      MinimalIsNum(v);
    }
  }

  /** A satisfied binding of a script compares the output's whole script public key, byte by byte. */
  lemma ScriptsCompare(c: Context, b: M.OutputBinding, v: Bytes)
    requires Related(c, b, v) && b.field.Script? && b.relation.Equal?
    ensures b.outputIndex < |c.tx.outputs| && SpkBytes(c.tx.outputs[b.outputIndex].spk) == v
  {
    BoolNum(true);
    BoolNum(false);
  }

  /** A binding of an output's script to a name means what the name stands for behind an output script:
      for a key, its pay-to-key script and not the key itself. */
  lemma NamedPayeeIsPaid(w: World, e: Expr, payee: string, lock: Bytes)
    requires e.Binary? && e.op.Equal? && e.right.Name? && e.right.ident.name == payee
    requires payee != "input_count" && payee != "output_count" && w.env(payee, AfterOutputScript) == Some(BytesValue(lock))
    requires M.BindingOf(e).Some? && M.BindingOf(e).value.field.Script? && Satisfied(w, e, M.BindingOf(e).value)
    ensures M.BindingOf(e).value.outputIndex < |w.c.tx.outputs|
    ensures SpkBytes(w.c.tx.outputs[M.BindingOf(e).value.outputIndex].spk) == lock
  {
    ScriptsCompare(w.c, M.BindingOf(e).value, lock);
  }

  /** In a requirement the checker accepts, a binding can only be a comparison. */
  lemma CheckedBindingCompares(l: C.Locals, s: Stmt)
    requires C.StmtOk(l, s) && s.Require? && M.BindingOf(s.expr).Some?
    ensures IsComparison(s.expr.op) && IsComparison(M.BindingOf(s.expr).value.relation)
  {
    var e := s.expr;
    if M.FieldOfOutput(e.left).Some? {
      assert C.TypeOf(l.scope, e.left.target) == Some(OutputType);
    } else {
      assert C.TypeOf(l.scope, e.right.target) == Some(OutputType);
    }
  }

  // ---- accepted transactions satisfy the model ----

  /** The types the checker gives names where it reads each statement. */
  lemma {:induction false} StatementChecked(l: C.Locals, body: seq<Stmt>, i: nat) returns (at: C.Locals)
    requires C.BodyOk(l, body) && i < |body|
    ensures C.StmtOk(at, body[i])
    decreases body
  {
    if i == 0 {
      at := l;
    } else {
      at := StatementChecked(C.AfterStmt(l, body[0]), body[1..], i - 1);
    }
  }

  lemma {:induction false} RequirementsOf(body: seq<Stmt>)
    requires RequireOnly(body)
    ensures |Requirements(body)| == |body| && forall i :: 0 <= i < |body| ==> Requirements(body)[i] == body[i].expr
  {
    if body != [] {
      assert RequireOnly(body[1..]) by {
        forall i | 0 <= i < |body[1..]| ensures body[1..][i].Require? && InFragment(body[1..][i].expr) {
          assert body[1..][i] == body[i + 1];
        }
      }
      RequirementsOf(body[1..]);
    }
  }

  lemma {:induction false} CountOfSome(subject: Subject, es: seq<Expr>, v: u64) returns (i: nat)
    requires v in AllCounts(subject, es)
    ensures i < |es| && v in Counts(subject, es[i])
  {
    if v in Counts(subject, es[0]) {
      i := 0;
    } else {
      var j := CountOfSome(subject, es[1..], v);
      i := j + 1;
    }
  }

  lemma {:induction false} LastIsOneOf(count: Option<u32>, values: seq<u64>)
    ensures M.LastFitting(count, values) == count
            || (M.LastFitting(count, values).Some? && M.LastFitting(count, values).value in values)
    decreases values
  {
    if values != [] {
      LastIsOneOf(if values[0] <= U32_MAX then Some(values[0]) else count, values[1..]);
    }
  }

  lemma {:induction false} BindingOfSome(es: seq<Expr>, b: M.OutputBinding) returns (i: nat)
    requires b in M.Bindings(es)
    ensures i < |es| && M.BindingOf(es[i]) == Some(b)
  {
    if M.BindingOf(es[0]) == Some(b) {
      i := 0;
    } else {
      var j := BindingOfSome(es[1..], b);
      i := j + 1;
    }
  }

  function AllConjuncts(es: seq<Expr>): seq<Expr> {
    if es == [] then [] else Conjuncts(es[0]) + AllConjuncts(es[1..])
  }

  lemma {:induction false} SuccessorOfSome(es: seq<Expr>, s: M.Successor) returns (i: nat, part: Expr)
    requires s in M.Successors(AllConjuncts(es))
    ensures i < |es| && part in Conjuncts(es[i]) && M.SuccessorOf(part) == Some(s)
  {
    M.SuccessorsConcat(Conjuncts(es[0]), AllConjuncts(es[1..]));
    if s in M.Successors(Conjuncts(es[0])) {
      i := 0;
      part := SuccessorPart(Conjuncts(es[0]), s);
    } else {
      var j, p := SuccessorOfSome(es[1..], s);
      i, part := j + 1, p;
    }
  }

  lemma {:induction false} SuccessorPart(parts: seq<Expr>, s: M.Successor) returns (part: Expr)
    requires s in M.Successors(parts)
    ensures part in parts && M.SuccessorOf(part) == Some(s)
  {
    if M.SuccessorOf(parts[0]) == Some(s) {
      part := parts[0];
    } else {
      part := SuccessorPart(parts[1..], s);
    }
  }

  /** The transaction has exactly the model's counts, where it has some. */
  predicate CountsMatch(c: Context, model: M.Transition) {
    (model.shape.inputCount.Some? ==> |c.tx.inputs| == model.shape.inputCount.value)
    && (model.shape.outputCount.Some? ==> |c.tx.outputs| == model.shape.outputCount.value)
  }

  lemma CountsEnforced(w: World, body: seq<Stmt>)
    requires RequireOnly(body) && AllHold(w, body)
    ensures CountsMatch(w.c, M.ModelOf(body))
  {
    var es := Requirements(body);
    RequirementsOf(body);
    CountEnforced(w, body, CountOfInputs);
    CountEnforced(w, body, CountOfOutputs);
  }

  lemma CountEnforced(w: World, body: seq<Stmt>, subject: Subject)
    requires RequireOnly(body) && AllHold(w, body)
    ensures var last := M.LastFitting(None, AllCounts(subject, Requirements(body)));
            last.Some? ==> last.value == CountIn(w.c, subject)
  {
    var es := Requirements(body);
    var last := M.LastFitting(None, AllCounts(subject, es));
    LastIsOneOf(None, AllCounts(subject, es));
    if last.Some? {
      RequirementsOf(body);
      var i := CountOfSome(subject, es, last.value);
      assert Holds(w, body[i].expr);
      CountsHold(w, Elsewhere, es[i], subject, last.value);
    }
  }

  /** Every binding of the model comes from a requirement and is satisfied. */
  ghost predicate BindingsSatisfied(w: World, body: seq<Stmt>)
    requires RequireOnly(body)
  {
    forall b :: b in M.ModelOf(body).bindings ==>
      exists i :: 0 <= i < |body| && M.BindingOf(body[i].expr) == Some(b) && Satisfied(w, body[i].expr, b)
  }

  lemma BindingsEnforced(w: World, body: seq<Stmt>, l: C.Locals)
    requires RequireOnly(body) && AllHold(w, body) && C.BodyOk(l, body)
    ensures BindingsSatisfied(w, body)
    ensures forall b :: b in M.ModelOf(body).bindings ==> IsComparison(b.relation)
  {
    var es := Requirements(body);
    RequirementsOf(body);
    forall b | b in M.ModelOf(body).bindings
      ensures IsComparison(b.relation)
      ensures exists i :: 0 <= i < |body| && M.BindingOf(body[i].expr) == Some(b) && Satisfied(w, body[i].expr, b)
    {
      var i := BindingOfSome(es, b);
      var at := StatementChecked(l, body, i);
      CheckedBindingCompares(at, body[i]);
      CheckedNamesSignatures(at.scope, body[i].expr);
      assert Holds(w, body[i].expr);
      BindingHolds(w, body[i].expr);
    }
  }

  /** Named successors declared in `&&` positions have their outputs. */
  lemma SuccessorsEnforced(w: World, body: seq<Stmt>, s: M.Successor)
    requires RequireOnly(body) && AllHold(w, body) && s in M.Successors(AllConjuncts(Requirements(body)))
    ensures s.outputIndex < |w.c.tx.outputs|
  {
    RequirementsOf(body);
    var i, part := SuccessorOfSome(Requirements(body), s);
    assert Holds(w, body[i].expr);
    ConjunctsHold(w, Elsewhere, body[i].expr, part);
    var r :| True(w, r, part);
    SuccessorExists(w, r, part);
  }

  /** The model's named successors all stand in `&&` positions. */
  predicate SuccessorsConjoined(body: seq<Stmt>) {
    forall s :: s in M.ModelOf(body).continuation.named ==> s in M.Successors(AllConjuncts(Requirements(body)))
  }

  /** What the model tells a wallet holds of the transaction. */
  ghost predicate ModelHolds(w: World, body: seq<Stmt>)
    requires RequireOnly(body)
  {
    var model := M.ModelOf(body);
    CountsMatch(w.c, model) && BindingsSatisfied(w, body)
    && (SuccessorsConjoined(body) ==> forall i :: i in model.continuation.successorOutputs ==> i < |w.c.tx.outputs|)
  }

  lemma BoundOutputExists(w: World, body: seq<Stmt>, b: M.OutputBinding)
    requires RequireOnly(body) && BindingsSatisfied(w, body) && b in M.ModelOf(body).bindings
    ensures b.outputIndex < |w.c.tx.outputs|
  {
    var i :| 0 <= i < |body| && M.BindingOf(body[i].expr) == Some(b) && Satisfied(w, body[i].expr, b);
  }

  /** Whatever stack unlocks the compiled spend of a checked contract, the transaction is one the model
      describes: exact counts, every output binding, and every successor output. */
  lemma AcceptedMatchesModel(c: Context, d: Deployed, st: Stack, l: C.Locals)
    requires ValidDeployment(d) && C.BodyOk(l, d.body) && Accepts(c, Assemble(SpendOps(d.code).value), st)
    ensures Height(st) == |d.args| && ModelHolds(WorldOf(c, d, st), d.body)
    ensures forall s :: s in M.Successors(AllConjuncts(Requirements(d.body))) ==> s.outputIndex < |c.tx.outputs|
  {
    AcceptanceIsSound(c, d, st);
    var w := WorldOf(c, d, st);
    var model := M.ModelOf(d.body);
    CountsEnforced(w, d.body);
    BindingsEnforced(w, d.body, l);
    forall s | s in M.Successors(AllConjuncts(Requirements(d.body))) ensures s.outputIndex < |c.tx.outputs| {
      SuccessorsEnforced(w, d.body, s);
    }
    if SuccessorsConjoined(d.body) {
      SuccessorOutputsExist(w, d.body);
    }
  }

  lemma SuccessorOutputsExist(w: World, body: seq<Stmt>)
    requires RequireOnly(body) && AllHold(w, body) && BindingsSatisfied(w, body) && SuccessorsConjoined(body)
    ensures forall i :: i in M.ModelOf(body).continuation.successorOutputs ==> i < |w.c.tx.outputs|
  {
    var model := M.ModelOf(body);
    forall i | i in model.continuation.successorOutputs ensures i < |w.c.tx.outputs| {
      if i in M.NamedOutputs(model.continuation.named) {
        var s :| s in model.continuation.named && s.outputIndex == i;
        SuccessorsEnforced(w, body, s);
      } else {
        var b :| b in model.bindings && b.outputIndex == i;
        BoundOutputExists(w, body, b);
      }
    }
  }
}
