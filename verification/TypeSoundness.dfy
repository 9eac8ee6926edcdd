/** What the checker's types say about values, and what follows for compiled spends. */
module TypeSoundness {
  import opened Wrappers
  import opened ScriptNumbers
  import opened Syntax
  import opened Instructions
  import opened Script
  import opened Encoding
  import opened Engine
  import opened Simulation
  import opened Evaluation
  import opened Spends
  import C = Checker

  // ---- values of a type ----

  /** Truth values, amounts and heights are numbers to the engine. */
  predicate IsNumeric(ty: Option<TypeName>) { ty in [Some(BoolType), Some(AmountType), Some(HeightType)] }

  predicate Fits(ty: TypeName, v: Bytes) {
    match ty
    case BoolType => v == BoolBytes(true) || v == BoolBytes(false)
    case AmountType => AsNum(v).Some?
    case HeightType => AsNum(v).Some?
    case _ => true
  }

  predicate OptionFits(ty: Option<TypeName>, v: Option<Bytes>) { ty.Some? && v.Some? ==> Fits(ty.value, v.value) }

  /** Whatever a name is bound to fits the type the checker gives the name. */
  ghost predicate EnvFits(s: C.Scope, w: World) {
    forall name: string, r: Reading :: OptionFits(C.TypeOfName(s, name), NameValue(w, r, name))
  }

  lemma NumericFits(ty: Option<TypeName>, v: Bytes)
    requires IsNumeric(ty) && Fits(ty.value, v)
    ensures AsNum(v).Some?
  {
    BoolNum(true);
    BoolNum(false);
  }

  lemma IntegerFits(n: int)
    ensures OptionFits(Some(AmountType), IntBytes(n))
  {
    if Abs(n) <= I64_MAX { NumRoundTrip(n); }
  }

  lemma OperatorFits(op: BinaryOp, a: Bytes, b: Bytes)
    ensures OptionFits(Some(if op.Add? || op.Sub? then AmountType else BoolType), BinaryValue(op, a, b))
  {
    if AsNum(a).Some? && AsNum(b).Some? {
      IntegerFits(AsNum(a).value + AsNum(b).value);
      IntegerFits(AsNum(a).value - AsNum(b).value);
    }
  }

  lemma BinaryFits(s: C.Scope, w: World, r: Reading, e: Expr)
    requires InFragment(e) && e.Binary?
    ensures OptionFits(C.TypeOf(s, e), Eval(w, r, e))
  {
    if !IsLockTest(e) && Eval(w, r, e).Some? {
      OperatorFits(e.op, Eval(w, r, e.left).value, Eval(w, LastReading(e.left), e.right).value);
    }
  }

  lemma AmountFits(c: Context, isInput: bool, i: u32)
    ensures OptionFits(Some(AmountType), FieldValue(c, isInput, i, "value"))
  {
    if isInput {
      if c.HasInput(i) { IntegerFits(c.tx.entries[i].amount); }
    } else if c.HasOutput(i) {
      IntegerFits(c.tx.outputs[i].value);
    }
  }

  lemma FieldFits(s: C.Scope, w: World, r: Reading, e: Expr)
    requires InFragment(e) && e.Field?
    ensures OptionFits(C.TypeOf(s, e), Eval(w, r, e))
  {
    AmountFits(w.c, IsCallOf(e.target, "input"), e.target.args[0].value);
    assert C.TypeOf(s, e) == Some(if e.field.name == "value" then AmountType else BytesType);
  }

  lemma CallFits(s: C.Scope, w: World, r: Reading, e: Expr)
    requires e.Call? && InFragment(e)
    ensures OptionFits(C.TypeOf(s, e), EvalCall(w, r, e))
  {
  }

  /** Values have the types the checker infers, whatever is read. */
  lemma ValuesFit(s: C.Scope, w: World, r: Reading, e: Expr)
    requires InFragment(e) && EnvFits(s, w)
    ensures OptionFits(C.TypeOf(s, e), Eval(w, r, e))
  {
    match e
    case Name(ident) => assert OptionFits(C.TypeOfName(s, ident.name), NameValue(w, r, ident.name));
    case Integer(value, _) => IntegerFits(value);
    case Binary(_, _, _, _) => BinaryFits(s, w, r, e);
    case Field(_, _, _) => FieldFits(s, w, r, e);
    case Call(_, _, _) => CallFits(s, w, r, e);
    case _ =>
  }

  // ---- why a well-typed expression can have no value ----

  datatype Cause =
    | Unbound       // a name without a value
    | OutOfRange    // an input or output the transaction does not have, or an amount beyond 63 bits
    | Overflow      // a literal, a count, a sum or a difference beyond 63 bits
    | BadSignature  // a signature check that aborts

  function Unless(ok: bool, cause: Cause): set<Cause> { if ok then {} else {cause} }

  /** Everything but a type error that can leave an expression without a value. */
  function Causes(w: World, r: Reading, e: Expr): set<Cause>
    requires InFragment(e)
    decreases e, 1
  {
    match e
    case Name(ident) => Unless(NameValue(w, r, ident.name).Some?, Unbound)
    case Integer(value, _) => Unless(value <= I64_MAX, Overflow)
    case Unary(_, operand, _) => Causes(w, r, operand)
    case Binary(left, op, right, _) =>
      if IsLockTest(e) then Causes(w, r, right)
      else
        var a, b := Eval(w, r, left), Eval(w, LastReading(left), right);
        Causes(w, r, left) + Causes(w, LastReading(left), right) + Unless(SumInRange(op, a, b), Overflow)
    case Field(target, field, _) =>
      Unless(FieldValue(w.c, IsCallOf(target, "input"), target.args[0].value, field.name).Some?, OutOfRange)
    case Call(_, _, _) => CallCauses(w, r, e)
    case _ => {}
  }

  /** A sum or a difference of two numbers stays within 63 bits. */
  predicate SumInRange(op: BinaryOp, a: Option<Bytes>, b: Option<Bytes>) {
    (op.Add? || op.Sub?) && a.Some? && b.Some? && AsNum(a.value).Some? && AsNum(b.value).Some? ==>
      var m, n := AsNum(a.value).value, AsNum(b.value).value;
      Abs(if op.Add? then m + n else m - n) <= I64_MAX
  }

  function CallCauses(w: World, r: Reading, e: Expr): set<Cause>
    requires e.Call? && InFragment(e)
    decreases e, 0
  {
    if IsVerify(e) then
      var sig, key := Eval(w, r, e.callee.target), Eval(w, LastReading(e.callee.target), e.args[0]);
      Causes(w, r, e.callee.target) + Causes(w, LastReading(e.callee.target), e.args[0])
      + Unless(sig.Some? && key.Some? ==> SingleSig(w.c, sig.value, key.value).Some?, BadSignature)
    else if IsHash(e) then Causes(w, r, e.args[0])
    else if IsMultisig(e) then
      var sigs, keys := EvalAll(w, r, e.args[2].elements), EvalAll(w, Elsewhere, e.args[1].elements);
      AllCauses(w, r, e.args[2].elements) + AllCauses(w, Elsewhere, e.args[1].elements)
      + Unless(sigs.Some? && keys.Some? ==> MultiSig(w.c, keys.value, sigs.value).Some?, BadSignature)
    else Unless(|w.c.tx.outputs| <= I64_MAX, Overflow)
  }

  function AllCauses(w: World, r: Reading, es: seq<Expr>): set<Cause>
    requires AllInFragment(es)
    decreases es, 0
  {
    if es == [] then {} else Causes(w, r, es[0]) + AllCauses(w, LastReading(es[0]), es[1..])
  }

  predicate IsOrdering(op: BinaryOp) {
    op.Greater? || op.GreaterEqual? || op.Less? || op.LessEqual? || op.Add? || op.Sub?
  }

  /** Order, sums and differences are taken of numbers only; the checker itself does not look at the
      operands of comparisons. */
  predicate OrdersNumbers(s: C.Scope, e: Expr)
    decreases e, 1
  {
    match e
    case Unary(_, operand, _) => OrdersNumbers(s, operand)
    case Binary(left, op, right, _) =>
      OrdersNumbers(s, right)
      && (IsLockTest(e)
          || (OrdersNumbers(s, left)
              && (IsOrdering(op) ==> IsNumeric(C.TypeOf(s, left)) && IsNumeric(C.TypeOf(s, right)))))
    case Call(callee, args, _) =>
      if C.IsVerifyCall(e) then OrdersNumbers(s, callee.target) && AllOrderNumbers(s, args) else AllOrderNumbers(s, args)
    case Array(elements, _) => AllOrderNumbers(s, elements)
    case _ => true
  }

  predicate AllOrderNumbers(s: C.Scope, es: seq<Expr>)
    decreases es, 0
  {
    es == [] || (OrdersNumbers(s, es[0]) && AllOrderNumbers(s, es[1..]))
  }

  /** A well-typed expression that orders, adds and subtracts numbers only has a value if and only if
      none of these causes is present: it never gets stuck on a value of the wrong kind. */
  lemma {:induction false} OnlyCauses(s: C.Scope, w: World, r: Reading, e: Expr)
    requires InFragment(e) && C.WellTyped(s, e) && OrdersNumbers(s, e) && EnvFits(s, w)
    ensures Eval(w, r, e).Some? <==> Causes(w, r, e) == {}
    decreases e, 1
  {
    match e
    case Unary(_, operand, _) =>
      OnlyCauses(s, w, r, operand);
      ValuesFit(s, w, r, operand);
      BoolNum(true);
      BoolNum(false);
    case Binary(_, _, _, _) => BinaryCauses(s, w, r, e);
    case Call(_, _, _) => OnlyCallCauses(s, w, r, e);
    case _ =>
  }

  lemma OperatorDefined(op: BinaryOp, a: Bytes, b: Bytes)
    requires !op.Mul? && !op.Div? && !op.Mod? && (op.Equal? || op.NotEqual? || (AsNum(a).Some? && AsNum(b).Some?))
    ensures BinaryValue(op, a, b).Some? <==> SumInRange(op, Some(a), Some(b))
  {
  }

  lemma {:induction false} BinaryCauses(s: C.Scope, w: World, r: Reading, e: Expr)
    requires InFragment(e) && C.WellTyped(s, e) && OrdersNumbers(s, e) && EnvFits(s, w) && e.Binary?
    ensures Eval(w, r, e).Some? <==> Causes(w, r, e) == {}
    decreases e, 0
  {
    if IsLockTest(e) {
      OnlyCauses(s, w, r, e.right);
    } else {
      OnlyCauses(s, w, r, e.left);
      OnlyCauses(s, w, LastReading(e.left), e.right);
      ValuesFit(s, w, r, e.left);
      ValuesFit(s, w, LastReading(e.left), e.right);
      var a, b := Eval(w, r, e.left), Eval(w, LastReading(e.left), e.right);
      if a.Some? && b.Some? {
        if !e.op.Equal? && !e.op.NotEqual? {
          NumericFits(C.TypeOf(s, e.left), a.value);
          NumericFits(C.TypeOf(s, e.right), b.value);
        }
        OperatorDefined(e.op, a.value, b.value);
      }
    }
  }

  lemma {:induction false} OnlyCallCauses(s: C.Scope, w: World, r: Reading, e: Expr)
    requires e.Call? && InFragment(e) && C.CallWellTyped(s, e) && OrdersNumbers(s, e) && EnvFits(s, w)
    ensures EvalCall(w, r, e).Some? <==> CallCauses(w, r, e) == {}
    decreases e, 0
  {
    if IsVerify(e) {
      OnlyCauses(s, w, r, e.callee.target);
      OnlyCauses(s, w, LastReading(e.callee.target), e.args[0]);
    } else if IsHash(e) {
      OnlyCauses(s, w, r, e.args[0]);
    } else if IsMultisig(e) {
      MultisigParts(s, e);
      OnlyAllCauses(s, w, r, e.args[2].elements);
      OnlyAllCauses(s, w, Elsewhere, e.args[1].elements);
    }
  }

  lemma MultisigParts(s: C.Scope, e: Expr)
    requires IsMultisig(e) && C.CallWellTyped(s, e) && OrdersNumbers(s, e)
    ensures C.AllWellTyped(s, e.args[1].elements) && C.AllWellTyped(s, e.args[2].elements)
    ensures AllOrderNumbers(s, e.args[1].elements) && AllOrderNumbers(s, e.args[2].elements)
  {
    var args := e.args;
    assert args[1..][0] == args[1] && args[1..][1..][0] == args[2];
    assert C.AllWellTyped(s, args[1..]) && C.AllWellTyped(s, args[1..][1..]);
    assert AllOrderNumbers(s, args[1..]) && AllOrderNumbers(s, args[1..][1..]);
    assert C.WellTyped(s, args[1]) && C.WellTyped(s, args[2]);
    assert OrdersNumbers(s, args[1]) && OrdersNumbers(s, args[2]);
  }

  lemma {:induction false} OnlyAllCauses(s: C.Scope, w: World, r: Reading, es: seq<Expr>)
    requires AllInFragment(es) && C.AllWellTyped(s, es) && AllOrderNumbers(s, es) && EnvFits(s, w)
    ensures EvalAll(w, r, es).Some? <==> AllCauses(w, r, es) == {}
    decreases es, 0
  {
    if es != [] {
      OnlyCauses(s, w, r, es[0]);
      OnlyAllCauses(s, w, LastReading(es[0]), es[1..]);
    }
  }

  /** A requirement the checker accepts is a truth value unless a cause is present. */
  lemma RequirementIsTruthValue(l: C.Locals, w: World, s: Stmt)
    requires s.Require? && InFragment(s.expr) && C.StmtOk(l, s) && OrdersNumbers(l.scope, s.expr) && EnvFits(l.scope, w)
    ensures Causes(w, Elsewhere, s.expr) == {} <==>
            Eval(w, Elsewhere, s.expr) == Some(BoolBytes(true)) || Eval(w, Elsewhere, s.expr) == Some(BoolBytes(false))
  {
    OnlyCauses(l.scope, w, Elsewhere, s.expr);
    ValuesFit(l.scope, w, Elsewhere, s.expr);
  }

  lemma {:induction false} TextIsLong(s: string)
    ensures |Utf8(s)| >= |s|
  {
    if s != "" { TextIsLong(s[1..]); }
  }

  /** The checker accepts an order between a text and a number, which has no value once the text has
      nine characters or more: the operands of an order do need a look. */
  lemma OrderOfTextIsStuck(l: C.Locals, w: World, text: string)
    requires |text| >= 9
    ensures var e := Binary(Text(text, NOWHERE), BinaryOp.Greater, Integer(1, NOWHERE), NOWHERE);
            C.StmtOk(l, Require(e, NOWHERE)) && InFragment(e) && !OrdersNumbers(l.scope, e)
            && Causes(w, Elsewhere, e) == {} && Eval(w, Elsewhere, e).None?
  {
    TextIsLong(text);
  }

  // ---- `!=` between typed operands ----

  /** `!=` stands between numbers only. */
  predicate DistinguishesNumbers(s: C.Scope, e: Expr)
    decreases e, 1
  {
    match e
    case Unary(_, operand, _) => DistinguishesNumbers(s, operand)
    case Binary(left, op, right, _) =>
      DistinguishesNumbers(s, right)
      && (IsLockTest(e)
          || (DistinguishesNumbers(s, left)
              && (op.NotEqual? ==> IsNumeric(C.TypeOf(s, left)) && IsNumeric(C.TypeOf(s, right)))))
    case Call(callee, args, _) =>
      if C.IsVerifyCall(e) then DistinguishesNumbers(s, callee.target) && AllDistinguishNumbers(s, args)
      else AllDistinguishNumbers(s, args)
    case Array(elements, _) => AllDistinguishNumbers(s, elements)
    case _ => true
  }

  predicate AllDistinguishNumbers(s: C.Scope, es: seq<Expr>)
    decreases es, 0
  {
    es == [] || (DistinguishesNumbers(s, es[0]) && AllDistinguishNumbers(s, es[1..]))
  }

  lemma {:induction false} NoNotNumbers(s: C.Scope, w: World, r: Reading, e: Expr)
    requires InFragment(e) && DistinguishesNumbers(s, e) && EnvFits(s, w)
    ensures NotNumbers !in Faults(w, r, e)
    decreases e, 1
  {
    match e
    case Unary(_, operand, _) => NoNotNumbers(s, w, r, operand);
    case Binary(left, op, right, _) => NoNotNumbersInBinary(s, w, r, e);
    case Call(callee, args, _) =>
      if IsVerify(e) {
        NoNotNumbers(s, w, r, callee.target);
        NoNotNumbers(s, w, LastReading(callee.target), args[0]);
      } else if IsHash(e) {
        NoNotNumbers(s, w, r, args[0]);
      } else if IsMultisig(e) {
        assert args[1..][0] == args[1] && args[1..][1..][0] == args[2];
        assert AllDistinguishNumbers(s, args[1..]) && AllDistinguishNumbers(s, args[1..][1..]);
        assert DistinguishesNumbers(s, args[1]) && DistinguishesNumbers(s, args[2]);
        AllNoNotNumbers(s, w, r, args[2].elements);
        AllNoNotNumbers(s, w, Elsewhere, args[1].elements);
      }
    case _ =>
  }

  lemma {:induction false} NoNotNumbersInBinary(s: C.Scope, w: World, r: Reading, e: Expr)
    requires InFragment(e) && DistinguishesNumbers(s, e) && EnvFits(s, w) && e.Binary?
    ensures NotNumbers !in Faults(w, r, e)
    decreases e, 0
  {
    if IsLockTest(e) {
      NoNotNumbers(s, w, r, e.right);
    } else {
      NoNotNumbers(s, w, r, e.left);
      NoNotNumbers(s, w, LastReading(e.left), e.right);
      if e.op.NotEqual? {
        ValuesFit(s, w, r, e.left);
        ValuesFit(s, w, LastReading(e.left), e.right);
        var a, b := Eval(w, r, e.left), Eval(w, LastReading(e.left), e.right);
        if a.Some? { NumericFits(C.TypeOf(s, e.left), a.value); }
        if b.Some? { NumericFits(C.TypeOf(s, e.right), b.value); }
      }
    }
  }

  lemma {:induction false} AllNoNotNumbers(s: C.Scope, w: World, r: Reading, es: seq<Expr>)
    requires AllInFragment(es) && AllDistinguishNumbers(s, es) && EnvFits(s, w)
    ensures NotNumbers !in AllFaults(w, r, es)
    decreases es, 0
  {
    if es != [] {
      NoNotNumbers(s, w, r, es[0]);
      AllNoNotNumbers(s, w, LastReading(es[0]), es[1..]);
    }
  }

  // ---- what a caller can check beforehand ----

  predicate BodyDistinguishesNumbers(s: C.Scope, body: seq<Stmt>) {
    forall i :: 0 <= i < |body| ==> DistinguishesNumbers(s, body[i].expr)
  }

  /** The value put into the script for a name fits the type of the name. */
  ghost predicate ParametersFit(s: C.Scope, env: Env, args: seq<string>) {
    forall name: string, r: Reading :: name !in args && env(name, r).Some? ==>
      OptionFits(C.TypeOfName(s, name), ValueBytes(env(name, r).value))
  }

  /** Each item of the unlocking stack fits the type of its argument; signatures, keys and other bytes
      always do. */
  ghost predicate ItemsFit(s: C.Scope, args: seq<string>, st: Stack)
    requires Height(st) == |args|
  {
    forall name :: name in args ==> OptionFits(C.TypeOfName(s, name), Some(ArgMap(args, StackItems(st))[name]))
  }

  lemma WorldFits(s: C.Scope, c: Context, d: Deployed, st: Stack)
    requires Height(st) == |d.args| && ParametersFit(s, d.env, d.args) && ItemsFit(s, d.args, st)
    ensures EnvFits(s, WorldOf(c, d, st))
  {
    var w := WorldOf(c, d, st);
    IntegerFits(|c.tx.inputs|);
    IntegerFits(|c.tx.outputs|);
    forall name: string, r: Reading ensures OptionFits(C.TypeOfName(s, name), NameValue(w, r, name)) {
      if name != "input_count" && name != "output_count" {
        if name in d.args {
          assert w.env(name, r) == Some(BytesValue(ArgMap(d.args, StackItems(st))[name]));
        } else {
          assert w.env(name, r) == d.env(name, r);
        }
      }
    }
  }

  /** Compiler correctness under conditions that can be checked before a transaction exists: with lock
      tests only in conjunctions, `!=` only between operands of numeric types, values that fit their
      declared types and no refused push, the compiled spend accepts if and only if every requirement
      holds. */
  lemma TypedAcceptanceIsComplete(c: Context, d: Deployed, st: Stack, s: C.Scope)
    requires ValidDeployment(d) && AllLocksConjoined(d.body) && Pushable(d.code)
    requires BodyDistinguishesNumbers(s, d.body) && ParametersFit(s, d.env, d.args)
    requires Height(st) == |d.args| ==> ItemsFit(s, d.args, st)
    ensures Accepts(c, Assemble(SpendOps(d.code).value), st) <==>
            Height(st) == |d.args| && AllHold(WorldOf(c, d, st), d.body)
  {
    if Height(st) == |d.args| {
      WorldFits(s, c, d, st);
      forall i | 0 <= i < |d.body| ensures NotNumbers !in Faults(WorldOf(c, d, st), Elsewhere, d.body[i].expr) {
        NoNotNumbers(s, WorldOf(c, d, st), Elsewhere, d.body[i].expr);
      }
    }
    AcceptanceIsComplete(c, d, st);
  }
}
