/** Bodies with every kind of statement: what `let` and `return` leave on the stack
    (compiler/ir/src/gen.rs, compiler/codegen/src/backends/toccata.rs). */
module Statements {
  import opened Wrappers
  import opened ScriptNumbers
  import opened Syntax
  import opened Instructions
  import opened Lowering
  import opened Script
  import opened Encoding
  import opened Engine
  import opened Simulation
  import opened Evaluation
  import opened Correctness
  import opened Spends

  predicate FragmentBody(body: seq<Stmt>) {
    forall i :: 0 <= i < |body| ==> InFragment(body[i].expr)
  }

  /** The value a name is pushed with. */
  function Pushed(w: World, r: Reading, name: string): Option<Bytes> {
    var value :- w.env(name, r);
    ValueBytes(value)
  }

  /** What a statement adds to the stack when its code gets through: a requirement nothing, `return` its
      value, and `let` its value and then that of the name. */
  function Leaves(w: World, r: Reading, s: Stmt): Option<seq<Bytes>>
    requires InFragment(s.expr)
  {
    var v :- Eval(w, r, s.expr);
    if Faults(w, r, s.expr) != {} then None
    else
      match s
      case Require(_, _) => if AsBool(v) then Some([]) else None
      case Return(_, _) => Some([v])
      case Let(name, _, _) =>
        var bound :- Pushed(w, LastReading(s.expr), name.name);
        Some([v, bound])
  }

  /** How many items a statement leaves. */
  function LeftBy(s: Stmt): nat { if s.Let? then 2 else if s.Return? then 1 else 0 }

  function LeftByAll(body: seq<Stmt>): nat { if body == [] then 0 else LeftBy(body[0]) + LeftByAll(body[1..]) }

  function ReadingAfterStmt(s: Stmt): Reading {
    if s.Return? then LastReading(s.expr) else Elsewhere
  }

  function BodyLeaves(w: World, r: Reading, body: seq<Stmt>): (items: Option<seq<Bytes>>)
    requires FragmentBody(body)
    ensures items.Some? ==> |items.value| == LeftByAll(body)
    decreases body
  {
    if body == [] then Some([])
    else
      var first :- Leaves(w, r, body[0]);
      var rest :- BodyLeaves(w, ReadingAfterStmt(body[0]), body[1..]);
      Some(first + rest)
  }

  function PushedOn(st: Stack, items: Option<seq<Bytes>>): Option<Stack> {
    match items
    case Some(added) => Some(PushAll(st, added))
    case None => None
  }

  lemma PushAllFew(st: Stack, a: Bytes, b: Bytes)
    ensures PushAll(st, []) == st && PushAll(st, [a]) == Cons(a, st) && PushAll(st, [a, b]) == Cons(b, Cons(a, st))
  {
    assert [a][1..] == [] && [a, b][1..] == [b];
    assert PushAll(Cons(a, st), [b]) == PushAll(Cons(b, Cons(a, st)), []);
  }

  lemma NamePushed(w: World, r: Reading, name: string, st: Stack)
    ensures RunsAs(w, r, [Push(SymbolValue(name))], st,
                   match Pushed(w, r, name) case Some(v) => Some(Cons(v, st)) case None => None)
  {
    var instr := Push(SymbolValue(name));
    BindOne(w.env, r, instr);
    if w.env(name, r).Some? {
      RunOne(w.c, Push(w.env(name, r).value), st);
    }
  }

  lemma LetRuns(w: World, r: Reading, s: Stmt, st: Stack)
    requires s.Let? && InFragment(s.expr)
    ensures LowerStmt(s).Success?
    ensures RunsAs(w, r, LowerStmt(s).value, st, PushedOn(st, Leaves(w, r, s)))
  {
    var code, push := Lower(s.expr), [Push(SymbolValue(s.name.name))];
    FragmentLowers(s.expr, r);
    ExpressionRuns(w, r, s.expr, st);
    var v, f := Eval(w, r, s.expr), Faults(w, r, s.expr);
    var mid := Expected(v, f, st);
    var bound := Pushed(w, LastReading(s.expr), s.name.name);
    if mid.Some? {
      NamePushed(w, LastReading(s.expr), s.name.name, mid.value);
      if bound.Some? { PushAllFew(st, v.value, bound.value); }
    }
    RunsInTurn(w, r, code.value, push, st, mid, PushedOn(st, Leaves(w, r, s)));
  }

  lemma StatementRuns(w: World, r: Reading, s: Stmt, st: Stack)
    requires InFragment(s.expr)
    ensures LowerStmt(s).Success? && After(r, LowerStmt(s).value) == ReadingAfterStmt(s)
    ensures RunsAs(w, r, LowerStmt(s).value, st, PushedOn(st, Leaves(w, r, s)))
  {
    FragmentLowers(s.expr, r);
    ExpressionRuns(w, r, s.expr, st);
    var v, f := Eval(w, r, s.expr), Faults(w, r, s.expr);
    match s
    case Let(_, _, _) => LetRuns(w, r, s, st);
    case Require(_, _) => OnePart(w, r, Lower(s.expr).value, Verify, st, v, f);
    case Return(_, _) => if v.Some? { PushAllFew(st, v.value, v.value); }
  }

  /** The code of a body takes nothing from the stack and adds what its statements leave, in order. */
  lemma {:induction false} BodyAdds(w: World, r: Reading, body: seq<Stmt>, st: Stack)
    requires FragmentBody(body)
    ensures LowerBody(body).Success?
    ensures RunsAs(w, r, LowerBody(body).value, st, PushedOn(st, BodyLeaves(w, r, body)))
    decreases body
  {
    if body != [] {
      var next := ReadingAfterStmt(body[0]);
      StatementRuns(w, r, body[0], st);
      var first, rest := Leaves(w, r, body[0]), BodyLeaves(w, next, body[1..]);
      var mid := PushedOn(st, first);
      BodyAdds(w, next, body[1..], if mid.Some? then mid.value else st);
      if first.Some? && rest.Some? { PushAllConcat(st, first.value, rest.value); }
      RunsInTurn(w, r, LowerStmt(body[0]).value, LowerBody(body[1..]).value, st, mid, PushedOn(st, BodyLeaves(w, r, body)));
    }
  }

  // ---- who can unlock such a spend ----

  /** A spend as it is deployed, whatever its statements. */
  ghost predicate Deploys(d: Deployed) {
    FragmentBody(d.body) && Distinct(d.args)
    && LowerBody(d.body).Success? && ArgsLead(d.args, LowerBody(d.body).value)
    && Instantiate(Names(d.args), d.env, Elsewhere, LowerBody(d.body).value) == Some(d.code)
    && SpendOps(d.code).Success?
  }

  lemma DeployedAdds(c: Context, d: Deployed, top: Stack, base: Stack)
    requires Deploys(d) && Height(top) == |d.args|
    ensures Run(c, d.code, Over(top, base)) == PushedOn(base, BodyLeaves(WorldOf(c, d, top), Elsewhere, d.body))
  {
    var given := ArgMap(d.args, StackItems(top));
    ItemsOfArgMap(d.args, StackItems(top), given);
    WitnessBinding(c, d.args, given, d.env, LowerBody(d.body).value, base);
    BodyAdds(WorldOf(c, d, top), Elsewhere, d.body, base);
    StackOfItems(top);
    OverPushed(StackItems(top), Empty, base);
  }

  lemma {:induction false} PushAllHeight(st: Stack, items: seq<Bytes>)
    ensures Height(PushAll(st, items)) == Height(st) + |items|
    decreases items
  {
    if items != [] { PushAllHeight(Cons(items[0], st), items[1..]); }
  }

  /** How many items more than `base` has the code leaves when it gets through. */
  lemma HeightAdded(c: Context, d: Deployed, top: Stack, base: Stack)
    requires Deploys(d) && Height(top) == |d.args| && Run(c, d.code, Over(top, base)).Some?
    ensures Height(Run(c, d.code, Over(top, base)).value) == Height(base) + LeftByAll(d.body)
  {
    DeployedAdds(c, d, top, base);
    var left := BodyLeaves(WorldOf(c, d, top), Elsewhere, d.body);
    PushAllHeight(base, left.value);
  }

  lemma PaddedRun(c: Context, code: Code, st: Stack, pad: Stack)
    requires Run(c, code, st) == Some(Empty)
    ensures Run(c, code, Over(Over(st, pad), Empty)) == Some(pad)
  {
    RunOver(c, code, st, pad);
    OverEmpty(Over(st, pad));
  }

  lemma TooFewItems(c: Context, d: Deployed, st: Stack)
    requires Deploys(d) && Run(c, d.code, st) == Some(Empty) && Height(st) < |d.args|
    ensures Height(st) + LeftByAll(d.body) == |d.args|
  {
    var pad := Filler(|d.args| - Height(st));
    FillerHeight(|d.args| - Height(st));
    OverHeight(st, pad);
    PaddedRun(c, d.code, st, pad);
    HeightAdded(c, d, Over(st, pad), Empty);
  }

  lemma EnoughItems(c: Context, d: Deployed, st: Stack)
    requires Deploys(d) && Run(c, d.code, st) == Some(Empty) && Height(st) >= |d.args|
    ensures Height(st) + LeftByAll(d.body) == |d.args|
  {
    var top, base := SplitStack(st, |d.args|);
    OverHeight(top, base);
    HeightAdded(c, d, top, base);
  }

  /** Whatever unlocks a spend, the items on its stack and those its statements leave are as many as
      its arguments. */
  lemma ItemsAddUp(c: Context, d: Deployed, st: Stack)
    requires Deploys(d) && Accepts(c, Assemble(SpendOps(d.code).value), st)
    ensures Height(st) + LeftByAll(d.body) == |d.args|
  {
    SpendScriptAccepts(c, d.code, st);
    if Height(st) < |d.args| { TooFewItems(c, d, st); } else { EnoughItems(c, d, st); }
  }

  lemma {:induction false} NothingLeft(body: seq<Stmt>)
    ensures LeftByAll(body) == 0 <==> forall i :: 0 <= i < |body| ==> body[i].Require?
  {
    if body != [] {
      NothingLeft(body[1..]);
      assert body == [body[0]] + body[1..];
    }
  }

  /** A spend without arguments that has a `let` or a `return` can never be unlocked, and neither can any
      spend whose statements leave more items than it has arguments. */
  lemma LeftoversLockForever(c: Context, d: Deployed, st: Stack)
    requires Deploys(d)
    requires LeftByAll(d.body) > |d.args| || (d.args == [] && exists i :: 0 <= i < |d.body| && !d.body[i].Require?)
    ensures !Accepts(c, Assemble(SpendOps(d.code).value), st)
  {
    NothingLeft(d.body);
    if Accepts(c, Assemble(SpendOps(d.code).value), st) { ItemsAddUp(c, d, st); }
  }

  /** `return` of the only argument, then a requirement that holds: the argument is left where it is, so
      the script is unlocked by the empty stack, without the argument, and by no other stack. */
  lemma ReturnedArgumentIsNotNeeded(c: Context, arg: Ident, d: Deployed, st: Stack)
    requires arg.name != "input_count" && arg.name != "output_count"
    requires d == Deployed([Return(Name(arg), NOWHERE), Require(Truth(true, NOWHERE), NOWHERE)], [arg.name], d.env,
                           [Push(BoolValue(true)), Verify])
    ensures Deploys(d)
    ensures Accepts(c, Assemble(SpendOps(d.code).value), st) <==> st == Empty
  {
    var rest := [Push(BoolValue(true)), Verify];
    ReturnLowers(arg, d.body);
    ReturnLeads(arg.name, rest, d.env);
    TrueRuns(c, st);
    SpendScriptAccepts(c, rest, st);
  }

  lemma ReturnLeads(arg: string, rest: Code, env: Env)
    requires rest == [Push(BoolValue(true)), Verify]
    ensures Distinct([arg]) && ArgsLead([arg], [Push(SymbolValue(arg))] + rest)
    ensures Instantiate(Names([arg]), env, Elsewhere, [Push(SymbolValue(arg))] + rest) == Some(rest)
  {
    var code := [Push(SymbolValue(arg))] + rest;
    assert code[..1] == ArgPushes([arg]) && code[1..] == rest && [arg][1..] == [];
    assert Names([arg]) == {arg};
    TrueStays({arg}, env);
  }

  lemma ReturnLowers(arg: Ident, body: seq<Stmt>)
    requires arg.name != "input_count" && arg.name != "output_count"
    requires body == [Return(Name(arg), NOWHERE), Require(Truth(true, NOWHERE), NOWHERE)]
    ensures LowerBody(body) == Success([Push(SymbolValue(arg.name))] + [Push(BoolValue(true)), Verify])
  {
    var push: Code := [Push(BoolValue(true))];
    assert push + [Verify] == [Push(BoolValue(true)), Verify];
    assert push + [Verify] + [] == push + [Verify];
    assert body[1..] == [body[1]] && [body[1]][1..] == [];
    assert LowerStmt(body[1]) == Success(push + [Verify]);
    assert LowerBody([body[1]]) == Success(push + [Verify]);
  }

  lemma TrueStays(args: set<string>, env: Env)
    ensures Instantiate(args, env, Elsewhere, [Push(BoolValue(true)), Verify]) == Some([Push(BoolValue(true)), Verify])
  {
    var rest := [Push(BoolValue(true)), Verify];
    assert rest[1..] == [Verify] && [Verify][1..] == [];
    assert Instantiate(args, env, Elsewhere, []) == Some([]);
    assert Instantiate(args, env, Elsewhere, [Verify]) == Some([Verify] + []);
    assert [Verify] + [] == [Verify] && [rest[0]] + [Verify] == rest;
  }

  lemma TrueRuns(c: Context, st: Stack)
    ensures SpendOps([Push(BoolValue(true)), Verify]).Success? && Pushable([Push(BoolValue(true)), Verify])
    ensures Run(c, [Push(BoolValue(true)), Verify], st) == Some(st)
  {
    var rest := [Push(BoolValue(true)), Verify];
    assert rest[1..] == [Verify] && [Verify][1..] == [];
    assert CodeOps([]).Success? && CodeOps([Verify]).Success? && CodeOps(rest).Success?;
    BoolNum(true);
    assert Step(c, rest[0], st) == Some(Cons(BoolBytes(true), st));
    assert Run(c, [Verify], Cons(BoolBytes(true), st)) == Some(st);
  }
}
