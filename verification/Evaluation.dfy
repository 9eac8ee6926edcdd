/** What a KaspaScript expression means about a transaction, independently of any stack code. */
module Evaluation {
  import opened Wrappers
  import opened ScriptNumbers
  import opened Syntax
  import opened Instructions
  import opened Encoding
  import opened Engine
  import opened Simulation

  /** What was read just before a name: a key right after a script read stands for its script. */
  datatype Reading = AfterInputScript | AfterOutputScript | Elsewhere

  /** The value bound to a name, which may depend on what was read just before it. */
  type Env = (string, Reading) -> Option<Value>

  datatype World = World(c: Context, env: Env)

  // ---- the fragment whose code leaves one value ----

  predicate IsIndexCall(e: Expr) {
    (IsCallOf(e, "input") || IsCallOf(e, "output"))
    && |e.args| == 1 && e.args[0].Integer? && e.args[0].value <= U32_MAX
  }

  predicate IsVerify(e: Expr) {
    e.Call? && e.callee.Field? && e.callee.field.name == "verify" && |e.args| == 1
  }

  predicate IsHash(e: Expr) {
    (IsCallOf(e, "sha256") || IsCallOf(e, "blake2b")) && |e.args| == 1
  }

  predicate IsContinuation(e: Expr) {
    IsCallOf(e, "continuation") && |e.args| == 2 && IsOutputCall(e.args[1])
  }

  /** A k-of-n check that supplies exactly k signatures. */
  predicate IsMultisig(e: Expr) {
    IsCallOf(e, "multisig") && |e.args| == 3
    && e.args[0].Integer? && e.args[0].value <= U32_MAX
    && e.args[1].Array? && |e.args[1].elements| <= U32_MAX
    && e.args[2].Array? && |e.args[2].elements| == e.args[0].value
  }

  predicate InFragment(e: Expr)
    decreases e, 1
  {
    match e
    case Name(_) => true
    case Integer(_, _) => true
    case Text(_, _) => true
    case Truth(_, _) => true
    case Array(_, _) => false
    case Unary(uop, operand, _) => uop.Not? && InFragment(operand)
    case Binary(left, op, right, _) =>
      InFragment(right) && (IsLockTest(e) || (InFragment(left) && !op.Mul? && !op.Div? && !op.Mod?))
    case Field(target, field, _) => IsIndexCall(target) && (field.name == "value" || field.name == "script")
    case Call(callee, args, _) =>
      if IsVerify(e) then InFragment(callee.target) && InFragment(args[0])
      else if IsHash(e) then InFragment(args[0])
      else if IsMultisig(e) then AllInFragment(args[1].elements) && AllInFragment(args[2].elements)
      else IsContinuation(e)
  }

  predicate AllInFragment(es: seq<Expr>)
    decreases es, 0
  {
    es == [] || (InFragment(es[0]) && AllInFragment(es[1..]))
  }

  /** What an expression of the fragment leaves as the last thing read. */
  function LastReading(e: Expr): Reading {
    if e.Field? && e.field.name == "script" then
      if IsCallOf(e.target, "input") then AfterInputScript else AfterOutputScript
    else Elsewhere
  }

  // ---- values ----

  /** A numeric or logical operator on two numbers. */
  function NumericValue(op: BinaryOp, m: int, n: int): Option<Bytes> {
    match op
    case Or => Some(BoolBytes(m != 0 || n != 0))
    case And => Some(BoolBytes(m != 0 && n != 0))
    case Greater => Some(BoolBytes(m > n))
    case GreaterEqual => Some(BoolBytes(m >= n))
    case Less => Some(BoolBytes(m < n))
    case LessEqual => Some(BoolBytes(m <= n))
    case Add => IntBytes(m + n)
    case Sub => IntBytes(m - n)
    case _ => None
  }

  /** Equality compares bytes; every other operator compares or combines numbers. */
  function BinaryValue(op: BinaryOp, a: Bytes, b: Bytes): Option<Bytes> {
    if op.Equal? then Some(BoolBytes(a == b))
    else if op.NotEqual? then Some(BoolBytes(a != b))
    else
      var m :- AsNum(a);
      var n :- AsNum(b);
      NumericValue(op, m, n)
  }

  function FieldValue(c: Context, isInput: bool, i: u32, field: string): Option<Bytes> {
    if isInput then
      if !c.HasInput(i) then None
      else if field == "value" then IntBytes(c.tx.entries[i].amount)
      else Some(SpkBytes(c.tx.entries[i].spk))
    else
      if !c.HasOutput(i) then None
      else if field == "value" then IntBytes(c.tx.outputs[i].value)
      else Some(SpkBytes(c.tx.outputs[i].spk))
  }

  function NameValue(w: World, r: Reading, name: string): Option<Bytes> {
    if name == "input_count" then IntBytes(|w.c.tx.inputs|)
    else if name == "output_count" then IntBytes(|w.c.tx.outputs|)
    else
      var value :- w.env(name, r);
      ValueBytes(value)
  }

  /** The value of an expression, when every read and every operation in it is defined. */
  function Eval(w: World, r: Reading, e: Expr): Option<Bytes>
    requires InFragment(e)
    decreases e, 1
  {
    match e
    case Name(ident) => NameValue(w, r, ident.name)
    case Integer(value, _) => IntBytes(value)
    case Text(text, _) => Some(Utf8(text))
    case Truth(truth, _) => Some(BoolBytes(truth))
    case Unary(_, operand, _) =>
      var a :- Eval(w, r, operand);
      var n :- AsNum(a);
      Some(BoolBytes(n == 0))
    case Binary(left, op, right, _) =>
      if IsLockTest(e) then
        var lock :- Eval(w, r, right);
        Some(BoolBytes(LockPassed(w.c, lock)))
      else
        var a :- Eval(w, r, left);
        var b :- Eval(w, LastReading(left), right);
        BinaryValue(op, a, b)
    case Field(target, field, _) =>
      FieldValue(w.c, IsCallOf(target, "input"), target.args[0].value, field.name)
    case Call(_, _, _) => EvalCall(w, r, e)
  }

  function EvalCall(w: World, r: Reading, e: Expr): Option<Bytes>
    requires e.Call? && InFragment(e)
    decreases e, 0
  {
    if IsVerify(e) then
      var sig :- Eval(w, r, e.callee.target);
      var key :- Eval(w, LastReading(e.callee.target), e.args[0]);
      SingleSig(w.c, sig, key)
    else if IsHash(e) then
      var a :- Eval(w, r, e.args[0]);
      Some(if IsCallOf(e, "sha256") then w.c.chain.sha256(a) else w.c.chain.blake2b(a))
    else if IsMultisig(e) then
      var sigs :- EvalAll(w, r, e.args[2].elements);
      var keys :- EvalAll(w, Elsewhere, e.args[1].elements);
      MultiSig(w.c, keys, sigs)
    else
      var count :- IntBytes(|w.c.tx.outputs|);
      Some(BoolBytes(|w.c.tx.outputs| > e.args[1].args[0].value))
  }

  function EvalAll(w: World, r: Reading, es: seq<Expr>): Option<seq<Bytes>>
    requires AllInFragment(es)
    decreases es, 0
  {
    if es == [] then Some([])
    else
      var first :- Eval(w, r, es[0]);
      var rest :- EvalAll(w, LastReading(es[0]), es[1..]);
      Some([first] + rest)
  }

  predicate Holds(w: World, e: Expr)
    requires InFragment(e)
  {
    var v := Eval(w, Elsewhere, e);
    v.Some? && AsBool(v.value)
  }

  /** `block.height >= lock` and `block.time >= lock` both ask the same: that the transaction's lock time
      is of the kind of `lock`, has reached it, and that the input does not switch it off. */
  lemma LockTestHolds(w: World, field: string, lock: Expr)
    requires field == "height" || field == "time"
    requires InFragment(lock)
    ensures var e := Binary(Field(Name(Ident("block", NOWHERE)), Ident(field, NOWHERE), NOWHERE), BinaryOp.GreaterEqual, lock, NOWHERE);
            var v := Eval(w, Elsewhere, lock);
            InFragment(e)
            && (Holds(w, e) <==>
                v.Some? && |v.value| <= 8 && w.c.index < |w.c.tx.inputs|
                && FromLe(v.value) <= w.c.tx.lockTime
                && (FromLe(v.value) >= w.c.chain.lockTimeThreshold || w.c.tx.lockTime < w.c.chain.lockTimeThreshold)
                && w.c.tx.inputs[w.c.index].sequence != 0xFFFF_FFFF_FFFF_FFFF)
  {
    var target := Field(Name(Ident("block", NOWHERE)), Ident(field, NOWHERE), NOWHERE);
    assert Path(target) == ["block"] + [field];
    BoolNum(true);
    BoolNum(false);
  }

  // ---- why compiled code can abort where the expression has a value ----

  datatype Fault =
    | LockNotReached   // a lock test aborts the script instead of being false
    | NotNumbers       // `!=` is compiled to the numeric opcode, whatever it compares

  predicate IsNumber(v: Option<Bytes>) {
    v.Some? ==> AsNum(v.value).Some?
  }

  /** Every way in which running the code of an expression can abort although the expression has a
      value. */
  function Faults(w: World, r: Reading, e: Expr): set<Fault>
    requires InFragment(e)
    decreases e, 1
  {
    match e
    case Unary(_, operand, _) => Faults(w, r, operand)
    case Binary(left, op, right, _) =>
      if IsLockTest(e) then
        var lock := Eval(w, r, right);
        Faults(w, r, right) + (if lock.Some? && !LockPassed(w.c, lock.value) then {LockNotReached} else {})
      else
        var a, b := Eval(w, r, left), Eval(w, LastReading(left), right);
        Faults(w, r, left) + Faults(w, LastReading(left), right)
        + (if op.NotEqual? && !(IsNumber(a) && IsNumber(b)) then {NotNumbers} else {})
    case Call(callee, args, _) =>
      if IsVerify(e) then Faults(w, r, callee.target) + Faults(w, LastReading(callee.target), args[0])
      else if IsHash(e) then Faults(w, r, args[0])
      else if IsMultisig(e) then AllFaults(w, r, args[2].elements) + AllFaults(w, Elsewhere, args[1].elements)
      else {}
    case _ => {}
  }

  function AllFaults(w: World, r: Reading, es: seq<Expr>): set<Fault>
    requires AllInFragment(es)
    decreases es, 0
  {
    if es == [] then {} else Faults(w, r, es[0]) + AllFaults(w, LastReading(es[0]), es[1..])
  }

  // ---- lock tests in conjunctions ----

  /** No lock test anywhere. */
  predicate NoLocks(e: Expr)
    decreases e, 1
  {
    match e
    case Array(elements, _) => AllNoLocks(elements)
    case Unary(_, operand, _) => NoLocks(operand)
    case Binary(left, _, right, _) => !IsLockTest(e) && NoLocks(left) && NoLocks(right)
    case Call(callee, args, _) => NoLocks(callee) && AllNoLocks(args)
    case Field(target, _, _) => NoLocks(target)
    case _ => true
  }

  predicate AllNoLocks(es: seq<Expr>)
    decreases es, 0
  {
    es == [] || (NoLocks(es[0]) && AllNoLocks(es[1..]))
  }

  /** Lock tests stand only where the whole expression needs them to be true. */
  predicate LocksConjoined(e: Expr) {
    if IsLockTest(e) then NoLocks(e.right)
    else if e.Binary? && e.op.And? then LocksConjoined(e.left) && LocksConjoined(e.right)
    else NoLocks(e)
  }

  lemma {:induction false} NoLocksAt(es: seq<Expr>, i: nat)
    requires AllNoLocks(es) && i < |es|
    ensures NoLocks(es[i])
  {
    if i > 0 { NoLocksAt(es[1..], i - 1); }
  }

  lemma {:induction false} NoLocksNoFault(w: World, r: Reading, e: Expr)
    requires InFragment(e) && NoLocks(e)
    ensures LockNotReached !in Faults(w, r, e)
    decreases e, 1
  {
    match e
    case Unary(_, operand, _) => NoLocksNoFault(w, r, operand);
    case Binary(left, _, right, _) =>
      NoLocksNoFault(w, r, left);
      NoLocksNoFault(w, LastReading(left), right);
    case Call(callee, args, _) =>
      if IsVerify(e) {
        NoLocksNoFault(w, r, callee.target);
        NoLocksNoFault(w, LastReading(callee.target), args[0]);
      } else if IsHash(e) {
        NoLocksNoFault(w, r, args[0]);
      } else if IsMultisig(e) {
        NoLocksAt(args, 1);
        NoLocksAt(args, 2);
        AllNoLocksNoFault(w, r, args[2].elements);
        AllNoLocksNoFault(w, Elsewhere, args[1].elements);
      }
    case _ =>
  }

  lemma {:induction false} AllNoLocksNoFault(w: World, r: Reading, es: seq<Expr>)
    requires AllInFragment(es) && AllNoLocks(es)
    ensures LockNotReached !in AllFaults(w, r, es)
    decreases es, 0
  {
    if es != [] {
      NoLocksNoFault(w, r, es[0]);
      AllNoLocksNoFault(w, LastReading(es[0]), es[1..]);
    }
  }

  /** A true expression has passed every lock test it conjoins. */
  lemma {:induction false} TrueConjunctionPassesLocks(w: World, r: Reading, e: Expr)
    requires InFragment(e) && LocksConjoined(e)
    requires Eval(w, r, e).Some? && AsBool(Eval(w, r, e).value)
    ensures LockNotReached !in Faults(w, r, e)
    decreases e
  {
    if IsLockTest(e) {
      NoLocksNoFault(w, r, e.right);
      var lock := Eval(w, r, e.right).value;
      BoolNum(LockPassed(w.c, lock));
    } else if e.Binary? && e.op.And? {
      var a, b := Eval(w, r, e.left).value, Eval(w, LastReading(e.left), e.right).value;
      var m, n := AsNum(a).value, AsNum(b).value;
      BoolNum(m != 0 && n != 0);
      TruthOfNumber(a);
      TruthOfNumber(b);
      TrueConjunctionPassesLocks(w, r, e.left);
      TrueConjunctionPassesLocks(w, LastReading(e.left), e.right);
    } else {
      NoLocksNoFault(w, r, e);
    }
  }
}
