/** Compiled expressions and spends mean what their source means. */
module Correctness {
  import opened Wrappers
  import opened ScriptNumbers
  import opened Syntax
  import opened Instructions
  import opened Lowering
  import opened Encoding
  import opened Engine
  import opened Simulation
  import opened Evaluation

  // ---- giving names their values ----

  function ReadingAfter(instr: Instr): Reading {
    match instr
    case InputScript(_) => AfterInputScript
    case OutputScript(_) => AfterOutputScript
    case _ => Elsewhere
  }

  function After(r: Reading, code: Code): Reading {
    if code == [] then r else ReadingAfter(code[|code| - 1])
  }

  predicate IsSymbol(instr: Instr) { instr.Push? && instr.value.SymbolValue? }

  function BindInstr(env: Env, r: Reading, instr: Instr): Option<Instr> {
    if IsSymbol(instr) then
      var value :- env(instr.value.name, r);
      Some(Push(value))
    else Some(instr)
  }

  /** Replaces every symbol by its value; undefined when some symbol has none. */
  function Bind(env: Env, r: Reading, code: Code): Option<Code>
    decreases code
  {
    if code == [] then Some([])
    else
      var first :- BindInstr(env, r, code[0]);
      var rest :- Bind(env, ReadingAfter(code[0]), code[1..]);
      Some([first] + rest)
  }

  lemma {:induction false} BindConcat(env: Env, r: Reading, a: Code, b: Code)
    ensures Bind(env, r, a + b) ==
            match (Bind(env, r, a), Bind(env, After(r, a), b))
            case (Some(ca), Some(cb)) => Some(ca + cb)
            case _ => None
    decreases a
  {
    if a == [] {
      assert a + b == b;
      var cb := Bind(env, r, b);
      if cb.Some? { assert [] + cb.value == cb.value; }
    } else {
      assert (a + b)[0] == a[0] && (a + b)[1..] == a[1..] + b;
      BindConcat(env, ReadingAfter(a[0]), a[1..], b);
      assert After(ReadingAfter(a[0]), a[1..]) == After(r, a);
      var first, rest, cb := BindInstr(env, r, a[0]), Bind(env, ReadingAfter(a[0]), a[1..]), Bind(env, After(r, a), b);
      if first.Some? && rest.Some? && cb.Some? {
        assert [first.value] + (rest.value + cb.value) == [first.value] + rest.value + cb.value;
      }
    }
  }

  lemma BindOne(env: Env, r: Reading, instr: Instr)
    ensures Bind(env, r, [instr]) == match BindInstr(env, r, instr) case Some(i) => Some([i]) case None => None
  {
    assert [instr][1..] == [];
    assert Bind(env, ReadingAfter(instr), []) == Some([]);
    var i := BindInstr(env, r, instr);
    if i.Some? { assert [i.value] + [] == [i.value]; }
  }

  lemma RunOne(c: Context, instr: Instr, st: Stack)
    ensures Run(c, [instr], st) == Step(c, instr, st)
  {
    var next := Step(c, instr, st);
    if next.Some? { assert Run(c, [instr][1..], next.value) == next; }
  }

  /** Once its names have values, the code run from `st` has the given outcome. */
  ghost predicate RunsAs(w: World, r: Reading, code: Code, st: Stack, outcome: Option<Stack>) {
    Bind(w.env, r, code).Some? ==> Run(w.c, Bind(w.env, r, code).value, st) == outcome
  }

  /** Two parts in a row, the second one from wherever the first one leaves the stack. */
  lemma RunsInTurn(w: World, r: Reading, a: Code, b: Code, st: Stack, mid: Option<Stack>, end: Option<Stack>)
    requires RunsAs(w, r, a, st, mid)
    requires if mid.Some? then RunsAs(w, After(r, a), b, mid.value, end) else end.None?
    ensures RunsAs(w, r, a + b, st, end)
  {
    BindConcat(w.env, r, a, b);
    var ca, cb := Bind(w.env, r, a), Bind(w.env, After(r, a), b);
    if ca.Some? && cb.Some? { RunConcat(w.c, ca.value, cb.value, st); }
  }

  /** A single instruction that is not a symbol. */
  lemma RunsOnce(w: World, r: Reading, instr: Instr, st: Stack)
    requires !IsSymbol(instr)
    ensures RunsAs(w, r, [instr], st, Step(w.c, instr, st))
  {
    BindOne(w.env, r, instr);
    RunOne(w.c, instr, st);
  }

  // ---- the code of the fragment ----

  function ThenCode(first: Lowered, last: Code): Lowered {
    var f :- first;
    Success(f + last)
  }

  function BothCodes(first: Lowered, second: Lowered): Lowered {
    var f :- first;
    var s :- second;
    Success(f + s)
  }

  lemma VerifyShape(e: Expr)
    requires IsVerify(e)
    ensures Lower(e) == ThenCode(BothCodes(Lower(e.callee.target), Lower(e.args[0])), [CheckSig(0)])
  {
    assert LowerFirst(e.args) == Lower(e.args[0]);
    assert Lower(e) == LowerCall(e);
  }

  lemma HashShape(e: Expr)
    requires IsHash(e)
    ensures Lower(e) == ThenCode(Lower(e.args[0]), [if IsCallOf(e, "sha256") then Sha256 else Blake2b])
  {
    assert LowerFirst(e.args) == Lower(e.args[0]);
    assert Lower(e) == LowerCall(e);
  }

  lemma MultisigShape(e: Expr)
    requires IsMultisig(e)
    ensures var k := e.args[0].value;
            Lower(e) == ThenCode(BothCodes(ThenCode(LowerAll(e.args[2].elements), [Push(IntegerValue(k))]),
                                           LowerAll(e.args[1].elements)), [CheckMultiSig(k, |e.args[1].elements|)])
  {
    assert Lower(e.args[1]) == LowerAll(e.args[1].elements);
    assert Lower(e.args[2]) == LowerAll(e.args[2].elements);
    assert Lower(e) == LowerCall(e) == LowerMultisig(e.args);
  }

  lemma ContinuationShape(e: Expr)
    requires IsContinuation(e)
    ensures Lower(e) == Success([OutputCount, Push(IntegerValue(e.args[1].args[0].value)), GreaterThan])
  {
    assert Lower(e) == LowerCall(e);
  }

  lemma BinaryShape(e: Expr)
    requires e.Binary? && !IsLockTest(e)
    ensures Lower(e) == ThenCode(BothCodes(Lower(e.left), Lower(e.right)), [BinaryInstr(e.op)])
  {
    assert Lower(e) == LowerBinary(e);
  }

  lemma LockShape(e: Expr)
    requires IsLockTest(e)
    ensures var height := Path(e.left) == ["block", "height"];
            Lower(e) ==
            if e.right.Integer? then
              Success([if height then CheckLockHeight(e.right.value) else CheckLockTime(e.right.value)])
            else ThenCode(Lower(e.right), [if height then CheckLockHeightFromStack else CheckLockTimeFromStack])
  {
    assert Lower(e) == LowerBinary(e);
  }

  lemma {:induction false} FragmentLowers(e: Expr, r: Reading)
    requires InFragment(e)
    ensures Lower(e).Success? && Lower(e).value != [] && After(r, Lower(e).value) == LastReading(e)
    decreases e, 1
  {
    match e
    case Unary(_, operand, _) => FragmentLowers(operand, r);
    case Binary(left, _, right, _) =>
      FragmentLowers(right, r);
      if IsLockTest(e) {
        LockShape(e);
      } else {
        FragmentLowers(left, r);
        BinaryShape(e);
      }
    case Call(callee, args, _) => CallLowers(e, r);
    case _ =>
  }

  lemma {:induction false} CallLowers(e: Expr, r: Reading)
    requires e.Call? && InFragment(e)
    ensures Lower(e).Success? && Lower(e).value != [] && After(r, Lower(e).value) == Elsewhere
    decreases e, 0
  {
    if IsVerify(e) {
      FragmentLowers(e.callee.target, r);
      FragmentLowers(e.args[0], r);
      VerifyShape(e);
    } else if IsHash(e) {
      FragmentLowers(e.args[0], r);
      HashShape(e);
    } else if IsMultisig(e) {
      AllFragmentLowers(e.args[1].elements);
      AllFragmentLowers(e.args[2].elements);
      MultisigShape(e);
    } else {
      ContinuationShape(e);
    }
  }

  lemma {:induction false} AllFragmentLowers(es: seq<Expr>)
    requires AllInFragment(es)
    ensures LowerAll(es).Success?
    decreases es, 0
  {
    if es != [] {
      FragmentLowers(es[0], Elsewhere);
      AllFragmentLowers(es[1..]);
    }
  }

  // ---- operators ----

  predicate Supported(op: BinaryOp) { !op.Mul? && !op.Div? && !op.Mod? }

  lemma OperatorAgrees(op: BinaryOp, m: int, n: int)
    requires Supported(op) && !op.Equal? && !op.NotEqual?
    ensures IsArithmetic(BinaryInstr(op))
    ensures ArithmeticResult(BinaryInstr(op), m, n) == NumericValue(op, m, n)
  {
  }

  /** On two operands an operator's instruction yields the operator's value; only `!=` aborts on
      operands that are not numbers. */
  lemma OperatorRuns(c: Context, op: BinaryOp, a: Bytes, b: Bytes, st: Stack)
    requires Supported(op)
    ensures Step(c, BinaryInstr(op), Cons(b, Cons(a, st))) ==
            if op.NotEqual? && (AsNum(a).None? || AsNum(b).None?) then None
            else match BinaryValue(op, a, b) case Some(v) => Some(Cons(v, st)) case None => None
  {
    var full := Cons(b, Cons(a, st));
    if op.NotEqual? {
      StepArithmetic(c, Instr.NotEqual, full);
      if AsNum(a).Some? && AsNum(b).Some? {
        NumUnique(a, AsNum(a).value);
        NumUnique(b, AsNum(b).value);
      }
    } else if !op.Equal? {
      OperatorAgrees(op, 0, 0);
      StepArithmetic(c, BinaryInstr(op), full);
      if AsNum(a).Some? && AsNum(b).Some? { OperatorAgrees(op, AsNum(a).value, AsNum(b).value); }
    }
  }

  // ---- expressions ----

  /** The outcome that the meaning of an expression prescribes for its code. */
  function Expected(v: Option<Bytes>, faults: set<Fault>, st: Stack): Option<Stack> {
    if v.Some? && faults == {} then Some(Cons(v.value, st)) else None
  }

  function ExpectedAll(vs: Option<seq<Bytes>>, faults: set<Fault>, st: Stack): Option<Stack> {
    if vs.Some? && faults == {} then Some(PushAll(st, vs.value)) else None
  }

  /** The code of an expression, run from any stack, adds the expression's value to it, and aborts
      exactly when the expression has no value or one of the listed faults occurs. */
  lemma {:induction false} ExpressionRuns(w: World, r: Reading, e: Expr, st: Stack)
    requires InFragment(e) && Lower(e).Success?
    ensures RunsAs(w, r, Lower(e).value, st, Expected(Eval(w, r, e), Faults(w, r, e), st))
    decreases e, 2
  {
    match e
    case Name(ident) => LeafRuns(w, r, e, st);
    case Integer(_, _) => LeafRuns(w, r, e, st);
    case Text(_, _) => LeafRuns(w, r, e, st);
    case Truth(_, _) => LeafRuns(w, r, e, st);
    case Field(_, _, _) => LeafRuns(w, r, e, st);
    case Unary(_, _, _) => NotRuns(w, r, e, st);
    case Binary(_, _, _, _) => if IsLockTest(e) { LockTestRuns(w, r, e, st); } else { BinaryRuns(w, r, e, st); }
    case Call(_, _, _) => CallRuns(w, r, e, st);
  }

  lemma {:induction false} NotRuns(w: World, r: Reading, e: Expr, st: Stack)
    requires e.Unary? && InFragment(e) && Lower(e).Success?
    ensures RunsAs(w, r, Lower(e).value, st, Expected(Eval(w, r, e), Faults(w, r, e), st))
    decreases e, 0
  {
    FragmentLowers(e.operand, r);
    ExpressionRuns(w, r, e.operand, st);
    OnePart(w, r, Lower(e.operand).value, Instr.Not, st, Eval(w, r, e.operand), Faults(w, r, e.operand));
  }

  /** One part that adds a value, then an instruction that uses it. */
  lemma OnePart(w: World, r: Reading, l: Code, instr: Instr, st: Stack, a: Option<Bytes>, fa: set<Fault>)
    requires !IsSymbol(instr) && RunsAs(w, r, l, st, Expected(a, fa, st))
    ensures RunsAs(w, r, l + [instr], st, if a.Some? && fa == {} then Step(w.c, instr, Cons(a.value, st)) else None)
  {
    if a.Some? {
      RunsOnce(w, After(r, l), instr, Cons(a.value, st));
      RunsInTurn(w, r, l, [instr], st, Expected(a, fa, st), if fa == {} then Step(w.c, instr, Cons(a.value, st)) else None);
    } else {
      RunsInTurn(w, r, l, [instr], st, None, None);
    }
  }

  /** Two parts that add a value each, then an instruction that combines them. */
  lemma TwoParts(w: World, r: Reading, l: Code, q: Code, instr: Instr, st: Stack,
                 a: Option<Bytes>, fa: set<Fault>, b: Option<Bytes>, fb: set<Fault>)
    requires !IsSymbol(instr) && RunsAs(w, r, l, st, Expected(a, fa, st))
    requires a.Some? ==> RunsAs(w, After(r, l), q, Cons(a.value, st), Expected(b, fb, Cons(a.value, st)))
    ensures RunsAs(w, r, l + q + [instr], st,
              if a.Some? && b.Some? && fa + fb == {} then Step(w.c, instr, Cons(b.value, Cons(a.value, st))) else None)
  {
    if a.Some? && b.Some? && fa + fb == {} {
      var full := Cons(b.value, Cons(a.value, st));
      RunsInTurn(w, r, l, q, st, Some(Cons(a.value, st)), Some(full));
      RunsOnce(w, After(r, l + q), instr, full);
      RunsInTurn(w, r, l + q, [instr], st, Some(full), Step(w.c, instr, full));
    } else {
      RunsInTurn(w, r, l, q, st, Expected(a, fa, st), None);
      RunsInTurn(w, r, l + q, [instr], st, None, None);
    }
  }

  lemma {:induction false} BinaryRuns(w: World, r: Reading, e: Expr, st: Stack)
    requires InFragment(e) && e.Binary? && !IsLockTest(e)
    requires Lower(e).Success?
    ensures RunsAs(w, r, Lower(e).value, st, Expected(Eval(w, r, e), Faults(w, r, e), st))
    decreases e, 0
  {
    var left, right := e.left, e.right;
    FragmentLowers(left, r);
    FragmentLowers(right, r);
    BinaryShape(e);
    ExpressionRuns(w, r, left, st);
    var a, b := Eval(w, r, left), Eval(w, LastReading(left), right);
    var fa, fb := Faults(w, r, left), Faults(w, LastReading(left), right);
    if a.Some? {
      ExpressionRuns(w, LastReading(left), right, Cons(a.value, st));
      if b.Some? { OperatorRuns(w.c, e.op, a.value, b.value, st); }
    }
    TwoParts(w, r, Lower(left).value, Lower(right).value, BinaryInstr(e.op), st, a, fa, b, fb);
  }

  lemma LeafRuns(w: World, r: Reading, e: Expr, st: Stack)
    requires InFragment(e) && (e.Name? || e.Integer? || e.Text? || e.Truth? || e.Field?)
    requires Lower(e).Success?
    ensures RunsAs(w, r, Lower(e).value, st, Expected(Eval(w, r, e), Faults(w, r, e), st))
  {
    var instr := Lower(e).value[0];
    assert Lower(e).value == [instr];
    BindOne(w.env, r, instr);
    var bound := BindInstr(w.env, r, instr);
    if bound.Some? { RunOne(w.c, bound.value, st); }
  }

  lemma {:induction false} LockTestRuns(w: World, r: Reading, e: Expr, st: Stack)
    requires InFragment(e) && IsLockTest(e)
    requires Lower(e).Success?
    ensures RunsAs(w, r, Lower(e).value, st, Expected(Eval(w, r, e), Faults(w, r, e), st))
    decreases e, 1
  {
    var code := Lower(e).value;
    LockShape(e);
    if e.right.Integer? {
      var v := e.right.value;
      assert code == [code[0]];
      RunsOnce(w, r, code[0], st);
      if v <= I64_MAX { LockNumber(w.c, v); }
    } else {
      StackLockRuns(w, r, e, st);
    }
  }

  lemma StackLockStep(c: Context, instr: Instr, a: Bytes, st: Stack)
    requires instr.CheckLockHeightFromStack? || instr.CheckLockTimeFromStack?
    ensures Step(c, instr, Cons(a, st)) == if LockPassed(c, a) then Some(Cons([1], st)) else None
  {
  }

  lemma {:induction false} StackLockRuns(w: World, r: Reading, e: Expr, st: Stack)
    requires InFragment(e) && IsLockTest(e) && !e.right.Integer?
    requires Lower(e).Success?
    ensures RunsAs(w, r, Lower(e).value, st, Expected(Eval(w, r, e), Faults(w, r, e), st))
    decreases e, 0
  {
    FragmentLowers(e.right, r);
    LockShape(e);
    ExpressionRuns(w, r, e.right, st);
    var instr := if Path(e.left) == ["block", "height"] then CheckLockHeightFromStack else CheckLockTimeFromStack;
    var a := Eval(w, r, e.right);
    OnePart(w, r, Lower(e.right).value, instr, st, a, Faults(w, r, e.right));
    if a.Some? { StackLockStep(w.c, instr, a.value, st); }
  }

  lemma {:induction false} CallRuns(w: World, r: Reading, e: Expr, st: Stack)
    requires InFragment(e) && e.Call?
    requires Lower(e).Success?
    ensures RunsAs(w, r, Lower(e).value, st, Expected(Eval(w, r, e), Faults(w, r, e), st))
    decreases e, 1
  {
    if IsVerify(e) {
      VerifyRuns(w, r, e, st);
    } else if IsHash(e) {
      HashRuns(w, r, e, st);
    } else if IsMultisig(e) {
      MultisigRuns(w, r, e, st);
    } else {
      ContinuationRuns(w, r, e, st);
    }
  }

  lemma {:induction false} HashRuns(w: World, r: Reading, e: Expr, st: Stack)
    requires InFragment(e) && IsHash(e)
    requires Lower(e).Success?
    ensures RunsAs(w, r, Lower(e).value, st, Expected(Eval(w, r, e), Faults(w, r, e), st))
    decreases e, 0
  {
    FragmentLowers(e.args[0], r);
    HashShape(e);
    ExpressionRuns(w, r, e.args[0], st);
    var instr := if IsCallOf(e, "sha256") then Sha256 else Blake2b;
    var a := Eval(w, r, e.args[0]);
    OnePart(w, r, Lower(e.args[0]).value, instr, st, a, Faults(w, r, e.args[0]));
    if a.Some? { HashStep(w.c, IsCallOf(e, "sha256"), a.value, st); }
  }

  lemma HashStep(c: Context, sha: bool, a: Bytes, st: Stack)
    ensures Step(c, if sha then Sha256 else Blake2b, Cons(a, st)) ==
            Some(Cons(if sha then c.chain.sha256(a) else c.chain.blake2b(a), st))
  {
  }

  lemma CheckSigStep(c: Context, a: Bytes, b: Bytes, st: Stack)
    ensures Step(c, CheckSig(0), Cons(b, Cons(a, st))) ==
            match SingleSig(c, a, b) case Some(v) => Some(Cons(v, st)) case None => None
  {
  }

  lemma {:induction false} VerifyRuns(w: World, r: Reading, e: Expr, st: Stack)
    requires InFragment(e) && IsVerify(e)
    requires Lower(e).Success?
    ensures RunsAs(w, r, Lower(e).value, st, Expected(Eval(w, r, e), Faults(w, r, e), st))
    decreases e, 0
  {
    var left, right := e.callee.target, e.args[0];
    FragmentLowers(left, r);
    FragmentLowers(right, r);
    VerifyShape(e);
    ExpressionRuns(w, r, left, st);
    var a, b := Eval(w, r, left), Eval(w, LastReading(left), right);
    var fa, fb := Faults(w, r, left), Faults(w, LastReading(left), right);
    if a.Some? {
      ExpressionRuns(w, LastReading(left), right, Cons(a.value, st));
      if b.Some? { CheckSigStep(w.c, a.value, b.value, st); }
    }
    TwoParts(w, r, Lower(left).value, Lower(right).value, CheckSig(0), st, a, fa, b, fb);
  }

  lemma ContinuationRuns(w: World, r: Reading, e: Expr, st: Stack)
    requires InFragment(e) && IsContinuation(e)
    requires Lower(e).Success?
    ensures RunsAs(w, r, Lower(e).value, st, Expected(Eval(w, r, e), Faults(w, r, e), st))
  {
    var index := e.args[1].args[0].value;
    ContinuationShape(e);
    var count, push := OutputCount, Push(IntegerValue(index));
    assert Lower(e).value == [count] + [push] + [GreaterThan];
    RunsOnce(w, r, count, st);
    var n := IntBytes(|w.c.tx.outputs|);
    if n.Some? {
      RunsOnce(w, Elsewhere, push, Cons(n.value, st));
      OperatorRuns(w.c, Greater, n.value, Num(index), st);
      NumRoundTrip(index);
      NumRoundTrip(|w.c.tx.outputs|);
    }
    TwoParts(w, r, [count], [push], GreaterThan, st, n, {}, IntBytes(index), {});
  }

  /** Two lists around a count, and a multisig check over them. */
  lemma MultisigParts(w: World, r: Reading, sigs: Code, k: u32, keys: Code, n: u32, st: Stack,
                      ss: Option<seq<Bytes>>, fs: set<Fault>, ks: Option<seq<Bytes>>, fk: set<Fault>)
    requires (ss.Some? ==> |ss.value| == k) && (ks.Some? ==> |ks.value| == n)
    requires RunsAs(w, r, sigs, st, ExpectedAll(ss, fs, st))
    requires ss.Some? ==>
               var counted := Cons(Num(k), PushAll(st, ss.value));
               RunsAs(w, Elsewhere, keys, counted, ExpectedAll(ks, fk, counted))
    ensures RunsAs(w, r, sigs + [Push(IntegerValue(k))] + keys + [CheckMultiSig(k, n)], st,
              if ss.Some? && ks.Some? && fs + fk == {} then
                match MultiSig(w.c, ks.value, ss.value) case Some(v) => Some(Cons(v, st)) case None => None
              else None)
  {
    var count, check := Push(IntegerValue(k)), CheckMultiSig(k, n);
    var front := sigs + [count];
    assert After(r, front) == Elsewhere;
    if ss.Some? && fs == {} {
      var pushed := PushAll(st, ss.value);
      var counted := Cons(Num(k), pushed);
      NumRoundTrip(k);
      RunsOnce(w, After(r, sigs), count, pushed);
      RunsInTurn(w, r, sigs, [count], st, Some(pushed), Some(counted));
      RunsInTurn(w, r, front, keys, st, Some(counted), ExpectedAll(ks, fk, counted));
      if ks.Some? && fk == {} {
        var full := PushAll(counted, ks.value);
        MultisigStep(w.c, ks.value, ss.value, k, st);
        RunsOnce(w, After(r, front + keys), check, full);
        RunsInTurn(w, r, front + keys, [check], st, Some(full), Step(w.c, check, full));
      } else {
        RunsInTurn(w, r, front + keys, [check], st, None, None);
      }
    } else {
      RunsInTurn(w, r, sigs, [count], st, None, None);
      RunsInTurn(w, r, front, keys, st, None, None);
      RunsInTurn(w, r, front + keys, [check], st, None, None);
    }
  }

  lemma {:induction false} MultisigRuns(w: World, r: Reading, e: Expr, st: Stack)
    requires InFragment(e) && IsMultisig(e)
    requires Lower(e).Success?
    ensures RunsAs(w, r, Lower(e).value, st, Expected(Eval(w, r, e), Faults(w, r, e), st))
    decreases e, 0
  {
    var k := e.args[0].value;
    var keyList, sigList := e.args[1].elements, e.args[2].elements;
    AllFragmentLowers(keyList);
    AllFragmentLowers(sigList);
    MultisigShape(e);
    var keys, sigs := LowerAll(keyList).value, LowerAll(sigList).value;
    var ss, ks := EvalAll(w, r, sigList), EvalAll(w, Elsewhere, keyList);
    EvalAllLength(w, r, sigList);
    EvalAllLength(w, Elsewhere, keyList);
    ListRuns(w, r, sigList, st);
    if ss.Some? { ListRuns(w, Elsewhere, keyList, Cons(Num(k), PushAll(st, ss.value))); }
    MultisigParts(w, r, sigs, k, keys, |keyList|, st,
                  ss, AllFaults(w, r, sigList), ks, AllFaults(w, Elsewhere, keyList));
  }

  lemma {:induction false} EvalAllLength(w: World, r: Reading, es: seq<Expr>)
    requires AllInFragment(es)
    ensures EvalAll(w, r, es).Some? ==> |EvalAll(w, r, es).value| == |es|
    decreases es
  {
    if es != [] { EvalAllLength(w, LastReading(es[0]), es[1..]); }
  }

  lemma MultisigStep(c: Context, keys: seq<Bytes>, sigs: seq<Bytes>, k: u32, st: Stack)
    requires |sigs| == k && |keys| <= U32_MAX
    ensures CheckMulti(c, |keys|, PushAll(Cons(Num(k), PushAll(st, sigs)), keys)) ==
            match MultiSig(c, keys, sigs) case Some(v) => Some(Cons(v, st)) case None => None
  {
    var below := PushAll(st, sigs);
    var counted := Cons(Num(k), below);
    PopPushed(counted, keys);
    PopPushed(st, sigs);
    NumRoundTrip(k);
    MultisigPops(c, keys, sigs, PushAll(counted, keys), below, st);
  }

  lemma MultisigPops(c: Context, keys: seq<Bytes>, sigs: seq<Bytes>, full: Stack, below: Stack, st: Stack)
    requires PopN(full, |keys|) == Some((keys, Cons(Num(|sigs|), below))) && PopN(below, |sigs|) == Some((sigs, st))
    requires AsNum(Num(|sigs|)) == Some(|sigs|)
    ensures CheckMulti(c, |keys|, full) ==
            match MultiSig(c, keys, sigs) case Some(v) => Some(Cons(v, st)) case None => None
  {
  }

  /** The code of a list leaves its values on the stack, in order. */
  lemma {:induction false} ListRuns(w: World, r: Reading, es: seq<Expr>, st: Stack)
    requires AllInFragment(es) && LowerAll(es).Success?
    ensures RunsAs(w, r, LowerAll(es).value, st, ExpectedAll(EvalAll(w, r, es), AllFaults(w, r, es), st))
    decreases es, 0
  {
    if es != [] {
      FragmentLowers(es[0], r);
      AllFragmentLowers(es[1..]);
      ExpressionRuns(w, r, es[0], st);
      var v, f := Eval(w, r, es[0]), Faults(w, r, es[0]);
      var first, rest := Lower(es[0]).value, LowerAll(es[1..]).value;
      var outcome := ExpectedAll(EvalAll(w, r, es), AllFaults(w, r, es), st);
      if v.Some? && f == {} {
        ListRuns(w, LastReading(es[0]), es[1..], Cons(v.value, st));
        var vs := EvalAll(w, LastReading(es[0]), es[1..]);
        if vs.Some? { assert ([v.value] + vs.value)[1..] == vs.value; }
        RunsInTurn(w, r, first, rest, st, Some(Cons(v.value, st)), outcome);
      } else {
        RunsInTurn(w, r, first, rest, st, None, outcome);
      }
    }
  }
}
