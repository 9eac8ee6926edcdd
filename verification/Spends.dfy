/** Whole spends: instantiated with parameters, run from a witness, accepted or refused. */
module Spends {
  import opened Wrappers
  import opened ScriptNumbers
  import opened Syntax
  import opened Instructions
  import opened Lowering
  import opened Script
  import opened Encoding
  import opened Engine
  import opened Simulation
  import opened Evaluation
  import opened Correctness

  // ---- spend bodies ----

  /** Bodies made only of requirements in the fragment. */
  predicate RequireOnly(body: seq<Stmt>) {
    forall i :: 0 <= i < |body| ==> body[i].Require? && InFragment(body[i].expr)
  }

  predicate AllHold(w: World, body: seq<Stmt>)
    requires RequireOnly(body)
  {
    forall i :: 0 <= i < |body| ==> Holds(w, body[i].expr)
  }

  /** No requirement's code aborts while the requirement has a value. */
  predicate FaultFree(w: World, body: seq<Stmt>)
    requires RequireOnly(body)
  {
    forall i :: 0 <= i < |body| ==> Faults(w, Elsewhere, body[i].expr) == {}
  }

  predicate ComparesNumbers(w: World, body: seq<Stmt>)
    requires RequireOnly(body)
  {
    forall i :: 0 <= i < |body| ==> NotNumbers !in Faults(w, Elsewhere, body[i].expr)
  }

  predicate AllLocksConjoined(body: seq<Stmt>) {
    forall i :: 0 <= i < |body| ==> LocksConjoined(body[i].expr)
  }

  /** The code of a body consumes nothing and leaves nothing: it runs through exactly when every
      requirement holds without a fault. */
  lemma {:induction false} BodyRuns(w: World, body: seq<Stmt>, st: Stack)
    requires RequireOnly(body)
    ensures LowerBody(body).Success?
    ensures RunsAs(w, Elsewhere, LowerBody(body).value, st,
                   if AllHold(w, body) && FaultFree(w, body) then Some(st) else None)
  {
    if body != [] {
      var rest := body[1..];
      assert body[0].Require? && InFragment(body[0].expr);
      assert RequireOnly(rest);
      var e := body[0].expr;
      BodyRuns(w, rest, st);
      FragmentLowers(e, Elsewhere);
      ExpressionRuns(w, Elsewhere, e, st);
      var v, f := Eval(w, Elsewhere, e), Faults(w, Elsewhere, e);
      OnePart(w, Elsewhere, Lower(e).value, Verify, st, v, f);
      var first := Lower(e).value + [Verify];
      assert LowerBody(body).value == first + LowerBody(rest).value;
      assert After(Elsewhere, first) == Elsewhere;
      var passes := Holds(w, e) && f == {};
      assert AllHold(w, body) <==> Holds(w, e) && AllHold(w, rest) by { assert body == [body[0]] + rest; }
      assert FaultFree(w, body) <==> f == {} && FaultFree(w, rest) by { assert body == [body[0]] + rest; }
      RunsInTurn(w, Elsewhere, first, LowerBody(rest).value, st, if passes then Some(st) else None,
                 if AllHold(w, body) && FaultFree(w, body) then Some(st) else None);
    }
  }

  // ---- instantiation: parameters in the script, arguments on the stack ----

  /** Drops the pushes of spend arguments and gives every other symbol its value. */
  function Instantiate(args: set<string>, env: Env, r: Reading, code: Code): Option<Code>
    decreases code
  {
    if code == [] then Some([])
    else
      var rest := Instantiate(args, env, ReadingAfter(code[0]), code[1..]);
      if IsSymbol(code[0]) && code[0].value.name in args then rest
      else
        var first :- BindInstr(env, r, code[0]);
        var others :- rest;
        Some([first] + others)
  }

  /** The environment in which spend arguments are the witness items. */
  function WithWitness(env: Env, given: map<string, Bytes>): Env {
    (name: string, r: Reading) => if name in given then Some(BytesValue(given[name])) else env(name, r)
  }

  function Names(args: seq<string>): set<string> { set a | a in args }

  function ArgPushes(args: seq<string>): (code: Code)
    ensures |code| == |args|
    ensures forall i :: 0 <= i < |args| ==> code[i] == Push(SymbolValue(args[i]))
  {
    if args == [] then [] else [Push(SymbolValue(args[0]))] + ArgPushes(args[1..])
  }

  predicate Mentions(code: Code, args: set<string>) {
    exists i :: 0 <= i < |code| && IsSymbol(code[i]) && code[i].value.name in args
  }

  /** The pushes of the arguments, in declared order, open the code and occur nowhere else. */
  predicate ArgsLead(args: seq<string>, code: Code) {
    |args| <= |code| && code[..|args|] == ArgPushes(args)
    && !Mentions(code[|args|..], Names(args))
  }

  function Items(args: seq<string>, given: map<string, Bytes>): seq<Bytes>
    requires forall a :: a in args ==> a in given
  {
    if args == [] then [] else [given[args[0]]] + Items(args[1..], given)
  }

  lemma {:induction false} InstantiateRest(given: map<string, Bytes>, env: Env, r: Reading, code: Code)
    requires !Mentions(code, given.Keys)
    ensures Instantiate(given.Keys, env, r, code) == Bind(WithWitness(env, given), r, code)
    decreases code
  {
    if code != [] {
      assert !Mentions(code[1..], given.Keys) by {
        forall i | 0 <= i < |code[1..]|
          ensures !(IsSymbol(code[1..][i]) && code[1..][i].value.name in given.Keys)
        {
          assert code[1..][i] == code[i + 1];
        }
      }
      InstantiateRest(given, env, ReadingAfter(code[0]), code[1..]);
      assert IsSymbol(code[0]) ==> code[0].value.name !in given.Keys;
    }
  }

  lemma {:induction false} InstantiateDrops(args: seq<string>, names: set<string>, env: Env, r: Reading, rest: Code)
    requires forall a :: a in args ==> a in names
    ensures Instantiate(names, env, r, ArgPushes(args) + rest) ==
            Instantiate(names, env, if args == [] then r else Elsewhere, rest)
    decreases args
  {
    var code := ArgPushes(args) + rest;
    if args == [] {
      assert code == rest;
    } else {
      assert code[0] == Push(SymbolValue(args[0])) && code[1..] == ArgPushes(args[1..]) + rest;
      InstantiateDrops(args[1..], names, env, Elsewhere, rest);
    }
  }

  lemma {:induction false} WitnessPushes(c: Context, args: seq<string>, given: map<string, Bytes>, env: Env, r: Reading, st: Stack)
    requires forall a :: a in args ==> a in given
    ensures var bound := Bind(WithWitness(env, given), r, ArgPushes(args));
            bound.Some? && Run(c, bound.value, st) == Some(PushAll(st, Items(args, given)))
    decreases args
  {
    if args != [] {
      var item := given[args[0]];
      WitnessPushes(c, args[1..], given, env, Elsewhere, Cons(item, st));
      assert ArgPushes(args)[1..] == ArgPushes(args[1..]);
      assert Items(args, given)[1..] == Items(args[1..], given);
      var bound := Bind(WithWitness(env, given), r, ArgPushes(args)).value;
      assert bound[1..] == Bind(WithWitness(env, given), Elsewhere, ArgPushes(args[1..])).value;
    }
  }

  /** Leaving the arguments to the witness is the same as pushing them in the script, when their
      pushes lead the code in declared order. */
  lemma WitnessBinding(c: Context, args: seq<string>, given: map<string, Bytes>, env: Env, code: Code, st: Stack)
    requires ArgsLead(args, code) && given.Keys == Names(args)
    requires Instantiate(given.Keys, env, Elsewhere, code).Some?
    ensures var full := Bind(WithWitness(env, given), Elsewhere, code);
            var dropped := Instantiate(given.Keys, env, Elsewhere, code).value;
            full.Some? && Run(c, full.value, st) == Run(c, dropped, PushAll(st, Items(args, given)))
  {
    var rest := code[|args|..];
    var pushes := ArgPushes(args);
    assert code == pushes + rest;
    var scope := WithWitness(env, given);
    InstantiateDrops(args, given.Keys, env, Elsewhere, rest);
    InstantiateRest(given, env, Elsewhere, rest);
    WitnessPushes(c, args, given, env, Elsewhere, st);
    BindConcat(scope, Elsewhere, pushes, rest);
    assert After(Elsewhere, pushes) == Elsewhere;
    RunConcat(c, Bind(scope, Elsewhere, pushes).value, Bind(scope, Elsewhere, rest).value, st);
  }

  // ---- stacks that are too short or too long ----

  /** A stack with another one underneath. */
  function Over(st: Stack, base: Stack): Stack {
    if st.Empty? then base else Cons(st.top, Over(st.below, base))
  }

  function Height(st: Stack): nat {
    if st.Empty? then 0 else 1 + Height(st.below)
  }

  /** The items of a stack, lowest first. */
  function StackItems(st: Stack): (items: seq<Bytes>)
    ensures |items| == Height(st)
  {
    if st.Empty? then [] else StackItems(st.below) + [st.top]
  }

  lemma {:induction false} StackOfItems(st: Stack)
    ensures PushAll(Empty, StackItems(st)) == st
  {
    if st.Cons? {
      StackOfItems(st.below);
      PushAllLast(Empty, StackItems(st.below), st.top);
    }
  }

  lemma {:induction false} PopOver(st: Stack, n: nat, base: Stack)
    requires PopN(st, n).Some?
    ensures PopN(Over(st, base), n) == Some((PopN(st, n).value.0, Over(PopN(st, n).value.1, base)))
  {
    if n != 0 { PopOver(st.below, n - 1, base); }
  }

  /** A step that succeeds does not look below the items it uses. */
  lemma MultisigOver(c: Context, instr: Instr, st: Stack, base: Stack)
    requires instr.CheckMultiSig? && Step(c, instr, st).Some?
    ensures Step(c, instr, Over(st, base)) == Some(Over(Step(c, instr, st).value, base))
  {
    PopOver(st, instr.keyCount, base);
    var below := PopN(st, instr.keyCount).value.1;
    PopOver(below.below, AsNum(below.top).value, base);
  }

  lemma StepOver(c: Context, instr: Instr, st: Stack, base: Stack)
    requires Step(c, instr, st).Some?
    ensures Step(c, instr, Over(st, base)) == Some(Over(Step(c, instr, st).value, base))
  {
    if instr.CheckMultiSig? {
      MultisigOver(c, instr, st, base);
    } else if !IsRead(instr) {
      assert Over(st, base).top == st.top && Over(st, base).below == Over(st.below, base);
      if st.below.Cons? { assert Over(st.below, base).below == Over(st.below.below, base); }
    }
  }

  lemma {:induction false} RunOver(c: Context, code: Code, st: Stack, base: Stack)
    requires Run(c, code, st).Some?
    ensures Run(c, code, Over(st, base)) == Some(Over(Run(c, code, st).value, base))
  {
    if code != [] {
      StepOver(c, code[0], st, base);
      RunOver(c, code[1..], Step(c, code[0], st).value, base);
    }
  }

  lemma {:induction false} OverEmpty(st: Stack)
    ensures Over(st, Empty) == st
  {
    if st.Cons? { OverEmpty(st.below); }
  }

  lemma {:induction false} OverPushed(items: seq<Bytes>, st: Stack, base: Stack)
    ensures Over(PushAll(st, items), base) == PushAll(Over(st, base), items)
    decreases items
  {
    if items != [] { OverPushed(items[1..], Cons(items[0], st), base); }
  }

  lemma {:induction false} OverHeight(st: Stack, base: Stack)
    ensures Height(Over(st, base)) == Height(st) + Height(base)
  {
    if st.Cons? { OverHeight(st.below, base); }
  }

  /** Splits a stack into its topmost `n` items and what lies below them. */
  lemma {:induction false} SplitStack(st: Stack, n: nat) returns (top: Stack, base: Stack)
    requires n <= Height(st)
    ensures st == Over(top, base) && Height(top) == n
  {
    if n == 0 {
      top, base := Empty, st;
    } else {
      var t;
      t, base := SplitStack(st.below, n - 1);
      top := Cons(st.top, t);
    }
  }

  function Filler(n: nat): Stack { if n == 0 then Empty else Cons([], Filler(n - 1)) }

  lemma {:induction false} FillerHeight(n: nat)
    ensures Height(Filler(n)) == n
  {
    if n != 0 { FillerHeight(n - 1); }
  }

  /** Code that, whenever it gets through, uses up exactly its topmost `n` items empties only stacks
      of height `n`. */
  lemma OnlyExactHeight(c: Context, code: Code, n: nat, st: Stack)
    requires forall top: Stack, base: Stack :: Height(top) == n && Run(c, code, Over(top, base)).Some? ==>
               Run(c, code, Over(top, base)).value == base
    requires Run(c, code, st) == Some(Empty)
    ensures Height(st) == n
  {
    if Height(st) < n {
      var pad := Filler(n - Height(st));
      FillerHeight(n - Height(st));
      OverHeight(st, pad);
      RunOver(c, code, st, pad);
      OverEmpty(Over(st, pad));
    } else {
      var top, base := SplitStack(st, n);
      OverHeight(top, base);
      assert Run(c, code, Over(top, base)).value == base;
    }
  }

  // ---- the compiler is correct ----

  predicate Distinct(args: seq<string>) {
    args == [] || (args[0] !in args[1..] && Distinct(args[1..]))
  }

  /** The argument values that a stack of witness items supplies. */
  function ArgMap(args: seq<string>, items: seq<Bytes>): (m: map<string, Bytes>)
    requires |args| == |items|
    ensures m.Keys == Names(args)
  {
    if args == [] then map[] else ArgMap(args[1..], items[1..])[args[0] := items[0]]
  }

  lemma {:induction false} ItemsOfArgMap(args: seq<string>, items: seq<Bytes>, more: map<string, Bytes>)
    requires |args| == |items| && Distinct(args)
    requires more.Keys >= Names(args)
    requires forall a :: a in args ==> more[a] == ArgMap(args, items)[a]
    ensures Items(args, more) == items
    decreases args
  {
    if args != [] {
      ItemsOfArgMap(args[1..], items[1..], more);
    }
  }

  /** A spend as it is deployed: its body, the order of its arguments, and its redeem code. */
  datatype Deployed = Deployed(body: seq<Stmt>, args: seq<string>, env: Env, code: Code)

  ghost predicate ValidDeployment(d: Deployed) {
    d.body != [] && RequireOnly(d.body) && Distinct(d.args)
    && LowerBody(d.body).Success? && ArgsLead(d.args, LowerBody(d.body).value)
    && Instantiate(Names(d.args), d.env, Elsewhere, LowerBody(d.body).value) == Some(d.code)
    && SpendOps(d.code).Success?
  }

  /** The world an unlocking stack creates: its items are the spend's arguments. */
  ghost function WorldOf(c: Context, d: Deployed, st: Stack): World
    requires Height(st) == |d.args|
  {
    World(c, WithWitness(d.env, ArgMap(d.args, StackItems(st))))
  }

  lemma DeployedRuns(c: Context, d: Deployed, top: Stack, base: Stack)
    requires ValidDeployment(d) && Height(top) == |d.args|
    ensures var w := WorldOf(c, d, top);
            Run(c, d.code, Over(top, base)) == if AllHold(w, d.body) && FaultFree(w, d.body) then Some(base) else None
  {
    var given := ArgMap(d.args, StackItems(top));
    var w := WorldOf(c, d, top);
    ItemsOfArgMap(d.args, StackItems(top), given);
    WitnessBinding(c, d.args, given, d.env, LowerBody(d.body).value, base);
    BodyRuns(w, d.body, base);
    StackOfItems(top);
    OverPushed(StackItems(top), Empty, base);
  }

  /** For every transaction and every unlocking stack, the compiled spend accepts exactly when the
      stack holds the spend's arguments, every requirement holds, and nothing aborts. */
  lemma SpendAccepts(c: Context, d: Deployed, st: Stack)
    requires ValidDeployment(d)
    ensures Accepts(c, Assemble(SpendOps(d.code).value), st) <==>
            Pushable(d.code) && Height(st) == |d.args|
            && AllHold(WorldOf(c, d, st), d.body) && FaultFree(WorldOf(c, d, st), d.body)
  {
    SpendScriptAccepts(c, d.code, st);
    OverEmpty(st);
    if Height(st) == |d.args| {
      DeployedRuns(c, d, st, Empty);
    } else if Run(c, d.code, st) == Some(Empty) {
      forall top: Stack, base: Stack | Height(top) == |d.args| && Run(c, d.code, Over(top, base)).Some?
        ensures Run(c, d.code, Over(top, base)).value == base
      {
        DeployedRuns(c, d, top, base);
      }
      OnlyExactHeight(c, d.code, |d.args|, st);
    }
  }

  /** Acceptance implies every requirement, wherever the lock tests stand. */
  lemma AcceptanceIsSound(c: Context, d: Deployed, st: Stack)
    requires ValidDeployment(d) && Accepts(c, Assemble(SpendOps(d.code).value), st)
    ensures Height(st) == |d.args| && AllHold(WorldOf(c, d, st), d.body)
  {
    SpendAccepts(c, d, st);
  }

  /** With lock tests only in conjunctions, `!=` only on numbers and no refused push, the compiled
      spend accepts if and only if every requirement holds. */
  lemma AcceptanceIsComplete(c: Context, d: Deployed, st: Stack)
    requires ValidDeployment(d) && AllLocksConjoined(d.body) && Pushable(d.code)
    requires Height(st) == |d.args| ==> ComparesNumbers(WorldOf(c, d, st), d.body)
    ensures Accepts(c, Assemble(SpendOps(d.code).value), st) <==>
            Height(st) == |d.args| && AllHold(WorldOf(c, d, st), d.body)
  {
    SpendAccepts(c, d, st);
    if Height(st) == |d.args| && AllHold(WorldOf(c, d, st), d.body) {
      var w := WorldOf(c, d, st);
      forall i | 0 <= i < |d.body|
        ensures Faults(w, Elsewhere, d.body[i].expr) == {}
      {
        assert Holds(w, d.body[i].expr) && LocksConjoined(d.body[i].expr);
        TrueConjunctionPassesLocks(w, Elsewhere, d.body[i].expr);
        NoOtherFault(Faults(w, Elsewhere, d.body[i].expr));
      }
    }
  }

  lemma NoOtherFault(f: set<Fault>)
    requires LockNotReached !in f && NotNumbers !in f
    ensures f == {}
  {
    if f != {} {
      var x :| x in f;
      match x
      case LockNotReached =>
      case NotNumbers =>
    }
  }
}
