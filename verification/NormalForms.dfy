/** What the normalized expressions a wallet reads mean, and that normalizing keeps the meaning
    (compiler/ir/src/application.rs). */
module NormalForms {
  import opened Wrappers
  import opened ScriptNumbers
  import opened Syntax
  import opened Tokens
  import opened Instructions
  import opened Encoding
  import opened Engine
  import opened Simulation
  import opened Evaluation
  import opened Traversal
  import opened Printer
  import M = ApplicationModel
  import C = Checker

  // ---- meaning of a normalized expression ----

  /** The dotted names a normalized expression spells. */
  function NormalPath(n: M.Normalized): seq<string> {
    match n
    case Symbol(name) => [name]
    case Projection(base, field) => NormalPath(base) + [field]
    case _ => []
  }

  predicate IsNormalLock(n: M.Normalized) {
    n.Infix? && n.op.GreaterEqual? && (NormalPath(n.left) == ["block", "height"] || NormalPath(n.left) == ["block", "time"])
  }

  /** A call of the function with the given displayed name. */
  predicate Calls(n: M.Normalized, name: string) { n.Application? && n.function_ == [NameToken(name)] }

  /** `input(i)` or `output(i)`. */
  predicate IsSide(n: M.Normalized) {
    (Calls(n, "input") || Calls(n, "output")) && |n.arguments| == 1 && n.arguments[0].IntegerOf? && n.arguments[0].value <= U32_MAX
  }

  /** What an expression leaves as the last thing read. */
  function NormalReading(n: M.Normalized): Reading {
    if n.Projection? && n.field == "script" then
      if Calls(n.base, "input") then AfterInputScript else AfterOutputScript
    else Elsewhere
  }

  /** The value of a normalized expression, when it has one. */
  function NormalValue(w: World, r: Reading, n: M.Normalized): Option<Bytes>
    decreases n, 1
  {
    match n
    case Symbol(name) => NameValue(w, r, name)
    case IntegerOf(value) => IntBytes(value)
    case StringOf(text) => Some(Utf8(text))
    case BoolOf(truth) => Some(BoolBytes(truth))
    case ListOf(_) => None
    case Prefix(uop, operand) =>
      var a :- NormalValue(w, r, operand);
      var number :- AsNum(a);
      if uop.Not? then Some(BoolBytes(number == 0)) else None
    case Infix(op, left, right) =>
      if IsNormalLock(n) then
        var lock :- NormalValue(w, r, right);
        Some(BoolBytes(LockPassed(w.c, lock)))
      else
        var a :- NormalValue(w, r, left);
        var b :- NormalValue(w, NormalReading(left), right);
        BinaryValue(op, a, b)
    case Application(_, _) => CallValue(w, r, n)
    case Projection(base, field) =>
      if IsSide(base) && (field == "value" || field == "script") then
        FieldValue(w.c, Calls(base, "input"), base.arguments[0].value, field)
      else None
  }

  /** The built-in calls; a signature is checked through the name before `.verify`. */
  function CallValue(w: World, r: Reading, n: M.Normalized): Option<Bytes>
    requires n.Application?
    decreases n, 0
  {
    var args := n.arguments;
    if |n.function_| == 3 && n.function_[1..] == [Dot, NameToken("verify")] && NameOf(n.function_[0]).Some? && |args| == 1 then
      var sig :- NameValue(w, r, NameOf(n.function_[0]).value);
      var key :- NormalValue(w, Elsewhere, args[0]);
      SingleSig(w.c, sig, key)
    else if (Calls(n, "sha256") || Calls(n, "blake2b")) && |args| == 1 then
      var a :- NormalValue(w, r, args[0]);
      Some(if Calls(n, "sha256") then w.c.chain.sha256(a) else w.c.chain.blake2b(a))
    else if Calls(n, "multisig") && |args| == 3 && args[1].ListOf? && args[2].ListOf? then
      var sigs :- AllValues(w, r, args[2].elements);
      var keys :- AllValues(w, Elsewhere, args[1].elements);
      MultiSig(w.c, keys, sigs)
    else if Calls(n, "continuation") && |args| == 2 && IsSide(args[1]) && Calls(args[1], "output") then
      var count :- IntBytes(|w.c.tx.outputs|);
      Some(BoolBytes(|w.c.tx.outputs| > args[1].arguments[0].value))
    else None
  }

  function AllValues(w: World, r: Reading, ns: seq<M.Normalized>): Option<seq<Bytes>>
    decreases ns, 0
  {
    if ns == [] then Some([])
    else
      var first :- NormalValue(w, r, ns[0]);
      var rest :- AllValues(w, NormalReading(ns[0]), ns[1..]);
      Some([first] + rest)
  }

  // ---- normalizing keeps the meaning ----

  /** Only a bare name is displayed as one word. */
  lemma {:induction false} ShownIsLong(e: Expr)
    ensures |Shown(e)| >= 1
    ensures |Shown(e)| == 1 ==> e.Name? || e.Integer? || e.Text? || e.Truth?
  {
    if e.Unary? {
      ShownIsLong(e.operand);
    } else if e.Binary? {
      ShownIsLong(e.left);
      ShownIsLong(e.right);
    } else if e.Call? {
      ShownIsLong(e.callee);
    } else if e.Field? {
      ShownIsLong(e.target);
    }
  }

  lemma CallsAgree(e: Expr, name: string)
    requires e.Call?
    ensures Calls(M.Normalize(e), name) <==> IsCallOf(e, name)
  {
    ShownIsLong(e.callee);
    if Shown(e.callee) == [NameToken(name)] {
      assert NameOf(Shown(e.callee)[0]) == Some(name);
    }
  }

  lemma {:induction false} PathsAgree(e: Expr)
    ensures NormalPath(M.Normalize(e)) == Path(e)
  {
    if e.Field? { PathsAgree(e.target); }
  }

  lemma SideAgrees(e: Expr)
    requires IsIndexCall(e)
    ensures IsSide(M.Normalize(e)) && M.Normalize(e).arguments[0].value == e.args[0].value
    ensures Calls(M.Normalize(e), "input") <==> IsCallOf(e, "input")
  {
    CallsAgree(e, "input");
    CallsAgree(e, "output");
  }

  lemma ReadingAgrees(e: Expr)
    requires InFragment(e)
    ensures NormalReading(M.Normalize(e)) == LastReading(e)
  {
    if e.Field? { SideAgrees(e.target); }
  }

  /** Signatures are checked on names, as the checker's types demand: the displayed function of a call
      does not say more. */
  predicate NamedSignatures(e: Expr)
    decreases e, 1
  {
    match e
    case Array(elements, _) => AllNamed(elements)
    case Unary(_, operand, _) => NamedSignatures(operand)
    case Binary(left, _, right, _) => NamedSignatures(right) && (IsLockTest(e) || NamedSignatures(left))
    case Call(callee, args, _) => (IsVerify(e) ==> callee.target.Name?) && AllNamed(args)
    case _ => true
  }

  predicate AllNamed(es: seq<Expr>)
    decreases es, 0
  {
    es == [] || (NamedSignatures(es[0]) && AllNamed(es[1..]))
  }

  lemma {:induction false} NamedAt(es: seq<Expr>, i: nat)
    requires AllNamed(es) && i < |es|
    ensures NamedSignatures(es[i])
  {
    if i > 0 { NamedAt(es[1..], i - 1); }
  }

  lemma LockAgrees(e: Expr)
    requires e.Binary?
    ensures IsNormalLock(M.Normalize(e)) <==> IsLockTest(e)
  {
    PathsAgree(e.left);
  }

  /** A normalized expression has the value of the expression, in every world and wherever it is read. */
  lemma {:induction false} NormalKeepsValue(w: World, r: Reading, e: Expr)
    requires InFragment(e) && NamedSignatures(e)
    ensures NormalValue(w, r, M.Normalize(e)) == Eval(w, r, e)
    decreases e, 1
  {
    match e
    case Unary(_, operand, _) =>
      NormalKeepsValue(w, r, operand);
      UnaryKeepsValue(w, r, e);
    case Binary(_, _, _, _) => BinaryKeepsValue(w, r, e);
    case Field(_, _, _) => FieldKeepsValue(w, r, e);
    case Call(_, _, _) => CallKeepsValue(w, r, e);
    case _ => LeafKeepsValue(w, r, e);
  }

  lemma UnaryKeepsValue(w: World, r: Reading, e: Expr)
    requires InFragment(e) && e.Unary? && NormalValue(w, r, M.Normalize(e.operand)) == Eval(w, r, e.operand)
    ensures NormalValue(w, r, M.Normalize(e)) == Eval(w, r, e)
  {
  }

  lemma FieldKeepsValue(w: World, r: Reading, e: Expr)
    requires InFragment(e) && e.Field?
    ensures NormalValue(w, r, M.Normalize(e)) == Eval(w, r, e)
  {
    SideAgrees(e.target);
  }

  lemma LeafKeepsValue(w: World, r: Reading, e: Expr)
    requires InFragment(e) && (e.Name? || e.Integer? || e.Text? || e.Truth?)
    ensures NormalValue(w, r, M.Normalize(e)) == Eval(w, r, e)
  {
  }

  lemma {:induction false} BinaryKeepsValue(w: World, r: Reading, e: Expr)
    requires InFragment(e) && NamedSignatures(e) && e.Binary?
    ensures NormalValue(w, r, M.Normalize(e)) == Eval(w, r, e)
    decreases e, 0
  {
    LockAgrees(e);
    if IsLockTest(e) {
      NormalKeepsValue(w, r, e.right);
    } else {
      NormalKeepsValue(w, r, e.left);
      ReadingAgrees(e.left);
      NormalKeepsValue(w, LastReading(e.left), e.right);
    }
  }

  lemma {:induction false} CallKeepsValue(w: World, r: Reading, e: Expr)
    requires InFragment(e) && NamedSignatures(e) && e.Call?
    ensures CallValue(w, r, M.Normalize(e)) == EvalCall(w, r, e)
    decreases e, 0
  {
    var n := M.Normalize(e);
    if IsVerify(e) {
      VerifyKeepsValue(w, r, e);
    } else {
      assert e.callee.Name? && |n.function_| == 1;
      CallsAgree(e, "sha256");
      CallsAgree(e, "blake2b");
      CallsAgree(e, "multisig");
      CallsAgree(e, "continuation");
      if IsHash(e) {
        NamedAt(e.args, 0);
        NormalKeepsValue(w, r, e.args[0]);
      } else if IsMultisig(e) {
        MultisigKeepsValue(w, r, e);
      } else {
        SideAgrees(e.args[1]);
        CallsAgree(e.args[1], "output");
      }
    }
  }

  lemma {:induction false} VerifyKeepsValue(w: World, r: Reading, e: Expr)
    requires InFragment(e) && NamedSignatures(e) && IsVerify(e)
    ensures CallValue(w, r, M.Normalize(e)) == EvalCall(w, r, e)
    decreases e, 0, 0
  {
    var n, name := M.Normalize(e), e.callee.target;
    assert Shown(name) == [NameToken(name.ident.name)];
    assert n.function_ == Shown(e.callee) == Shown(name) + [Dot, NameToken("verify")];
    assert n.function_[1..] == [Dot, NameToken("verify")];
    NamedAt(e.args, 0);
    NormalKeepsValue(w, Elsewhere, e.args[0]);
  }

  lemma {:induction false} MultisigKeepsValue(w: World, r: Reading, e: Expr)
    requires InFragment(e) && NamedSignatures(e) && IsMultisig(e) && !IsVerify(e) && !IsHash(e)
    ensures CallValue(w, r, M.Normalize(e)) == EvalCall(w, r, e)
    decreases e, 0, 0
  {
    CallsAgree(e, "sha256");
    CallsAgree(e, "blake2b");
    CallsAgree(e, "multisig");
    NamedAt(e.args, 1);
    NamedAt(e.args, 2);
    AllKeepValues(w, r, e.args[2].elements);
    AllKeepValues(w, Elsewhere, e.args[1].elements);
  }

  lemma {:induction false} AllKeepValues(w: World, r: Reading, es: seq<Expr>)
    requires AllInFragment(es) && AllNamed(es)
    ensures AllValues(w, r, M.NormalizeAll(es)) == EvalAll(w, r, es)
    decreases es, 0
  {
    if es != [] {
      assert M.NormalizeAll(es)[1..] == M.NormalizeAll(es[1..]);
      NormalKeepsValue(w, r, es[0]);
      ReadingAgrees(es[0]);
      AllKeepValues(w, LastReading(es[0]), es[1..]);
    }
  }

  // ---- checked expressions name their signatures ----

  /** In the fragment the only expressions the checker types as signatures are names. */
  lemma CheckedSignatureIsName(s: C.Scope, e: Expr)
    requires InFragment(e)
    ensures !e.Name? ==> C.TypeOf(s, e) != Some(SignatureType)
  {
    if e.Field? { assert C.TypeOf(s, e.target) in [Some(InputType), Some(OutputType)]; }
  }

  lemma {:induction false} CheckedNamesSignatures(s: C.Scope, e: Expr)
    requires InFragment(e) && C.WellTyped(s, e)
    ensures NamedSignatures(e)
    decreases e, 1
  {
    match e
    case Unary(_, operand, _) => CheckedNamesSignatures(s, operand);
    case Binary(left, _, right, _) =>
      CheckedNamesSignatures(s, right);
      if !IsLockTest(e) { CheckedNamesSignatures(s, left); }
    case Call(_, _, _) => CheckedCallNames(s, e);
    case _ =>
  }

  lemma {:induction false} CheckedCallNames(s: C.Scope, e: Expr)
    requires InFragment(e) && e.Call? && C.CallWellTyped(s, e)
    ensures NamedSignatures(e)
    decreases e, 0
  {
    if IsVerify(e) {
      CheckedSignatureIsName(s, e.callee.target);
      CheckedNamesSignatures(s, e.args[0]);
      NamedOne(e.args);
    } else if IsHash(e) {
      CheckedNamesSignatures(s, e.args[0]);
      NamedOne(e.args);
    } else if IsMultisig(e) {
      var args := e.args;
      assert args[1..][0] == args[1] && args[1..][1..] == [args[2]] && [args[2]][1..] == [];
      assert C.AllWellTyped(s, args[1..]) && C.AllWellTyped(s, [args[2]]);
      assert C.WellTyped(s, args[1]) && C.WellTyped(s, args[2]);
      CheckedAllName(s, args[1].elements);
      CheckedAllName(s, args[2].elements);
      NamedOne([args[2]]);
      assert AllNamed(args[1..]);
    } else {
      var args := e.args;
      assert args[1..][0] == args[1] && args[1..][1..] == [];
      NamedOne(args[1].args);
      NamedOne([args[1]]);
      assert args[1..] == [args[1]];
    }
  }

  lemma NamedOne(es: seq<Expr>)
    requires |es| == 1 && NamedSignatures(es[0])
    ensures AllNamed(es)
  {
    assert es[1..] == [];
  }

  lemma {:induction false} CheckedAllName(s: C.Scope, es: seq<Expr>)
    requires AllInFragment(es) && C.AllWellTyped(s, es)
    ensures AllNamed(es)
    decreases es, 0
  {
    if es != [] {
      CheckedNamesSignatures(s, es[0]);
      CheckedAllName(s, es[1..]);
    }
  }
}
