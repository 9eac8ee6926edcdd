/** The escrow from its source text on: it parses, passes the checker, compiles for every target, and the
    script its code is joined to enforces the policy
    (contracts/buyer_seller_escrow.ks, compatibility/toccata-v2/src/escrow.rs). */
module EscrowSource {
  import opened Wrappers
  import opened ScriptNumbers
  import opened Syntax
  import opened Tokens
  import opened Instructions
  import opened Lowering
  import opened Script
  import opened Encoding
  import opened Engine
  import opened Evaluation
  import opened Spends
  import opened Traversal
  import opened Programs
  import opened Printer
  import opened EscrowContract
  import opened Escrow
  import opened Pipeline
  import opened Positions
  import Gates
  import G = Grammar
  import C = Checker

  // ---- the contract ----

  function Declare(name: string, ty: TypeName): Param { Param(Ident(name, NOWHERE), ty, NOWHERE) }

  const PARAMS: seq<Param> :=
    [Declare("buyer", KeyType), Declare("seller", KeyType), Declare("refund_daa_score", HeightType), Declare("max_fee", AmountType)]

  const RELEASE_SPEND: Spend :=
    Spend(Ident("release", NOWHERE), [Declare("buyer_sig", SignatureType), Declare("seller_sig", SignatureType)], RELEASE, NOWHERE)

  const REFUND_SPEND: Spend :=
    Spend(Ident("refund", NOWHERE), [Declare("buyer_sig", SignatureType)], REFUND, NOWHERE)

  const ESCROW: Contract :=
    Contract(Ident("BuyerSellerEscrow", NOWHERE), PARAMS, NoDepth, [RELEASE_SPEND, REFUND_SPEND], NOWHERE)

  /** The file holds this contract, wherever its tokens stand. */
  ghost predicate IsEscrowFile(t: seq<Token>) {
    ParsedFile(t).Success? && ProgramAlike(ParsedFile(t).value, [ESCROW])
  }

  /** The contract written out as tokens is such a file. */
  lemma WrittenEscrowIsFile(t: seq<Token>)
    requires Spells(t, PrintProgram([ESCROW]))
    ensures IsEscrowFile(t)
  {
    assert forall i :: 0 <= i < |PARAMS| ==> PARAMS[i].name.name != "finality_depth";
    ParsingUndoesPrintingPrograms(t, [ESCROW]);
  }

  // ---- the shape of the source ----

  /** A part that refers to nothing beyond the first input and output, and to no gated feature. */
  predicate Tame(p: Expr) {
    KipOf(p) in [None, Some(10)] && ContinuationName(p).None?
    && (IndexOf("input", p).Some? ==> IndexOf("input", p).value == 0)
    && (IndexOf("output", p).Some? ==> IndexOf("output", p).value == 0)
  }

  predicate AllTame(parts: seq<Expr>) { forall p :: p in parts ==> Tame(p) }

  lemma TameConcat(a: seq<Expr>, b: seq<Expr>)
    requires AllTame(a) && AllTame(b)
    ensures AllTame(a + b)
  {
  }

  lemma TameInfix(left: Expr, op: BinaryOp, right: Expr)
    requires AllTame(Parts(left)) && AllTame(Parts(right))
    ensures AllTame(Parts(Infix(left, op, right)))
  {
    TameConcat(Parts(left), Parts(right));
    TameConcat([Infix(left, op, right)], Parts(left) + Parts(right));
  }

  lemma TameId(name: string)
    requires name !in {"covenant_id", "zk_verify", "sequencing"}
    ensures AllTame(Parts(Id(name)))
  {
  }

  lemma TameLit(n: u64)
    ensures AllTame(Parts(Lit(n)))
  {
  }

  lemma TameCall(callee: Expr, args: seq<Expr>)
    requires AllTame(Parts(callee)) && AllTame(AllParts(args)) && Tame(Call(callee, args, NOWHERE))
    ensures AllTame(Parts(Call(callee, args, NOWHERE)))
  {
    TameConcat(Parts(callee), AllParts(args));
    TameConcat([Call(callee, args, NOWHERE)], Parts(callee) + AllParts(args));
  }

  lemma TameField(target: Expr, name: string)
    requires AllTame(Parts(target)) && name != "covenant_id"
    ensures AllTame(Parts(Field(target, Ident(name, NOWHERE), NOWHERE)))
  {
    TameConcat([Field(target, Ident(name, NOWHERE), NOWHERE)], Parts(target));
  }

  lemma TameOne(e: Expr)
    requires AllTame(Parts(e))
    ensures AllTame(AllParts([e]))
  {
    assert [e][1..] == [] && AllParts([e]) == Parts(e) + [];
  }

  lemma TameMore(e: Expr, es: seq<Expr>)
    requires AllTame(Parts(e)) && AllTame(AllParts(es))
    ensures AllTame(AllParts([e] + es))
  {
    assert ([e] + es)[1..] == es;
    TameConcat(Parts(e), AllParts(es));
  }

  lemma TameOf(root: string, field: string)
    requires root in {"input", "output"} && field in {"value", "script"}
    ensures AllTame(Parts(Of(root, field)))
  {
    TameId(root);
    TameLit(0);
    TameOne(Lit(0));
    TameCall(Id(root), [Lit(0)]);
    TameField(Call(Id(root), [Lit(0)], NOWHERE), field);
  }

  lemma TamePayment(payee: string)
    requires payee in {"buyer", "seller"}
    ensures AllTame(Parts(ONE_INPUT)) && AllTame(Parts(ONE_OUTPUT)) && AllTame(Parts(ABOVE_CAP))
    ensures AllTame(Parts(FEE_CAPPED)) && AllTame(Parts(Pays(payee)))
  {
    TameId("input_count");
    TameId("output_count");
    TameId("max_fee");
    TameId(payee);
    TameLit(1);
    TameOf("input", "value");
    TameOf("output", "value");
    TameOf("output", "script");
    TameInfix(Id("input_count"), BinaryOp.Equal, Lit(1));
    TameInfix(Id("output_count"), BinaryOp.Equal, Lit(1));
    TameInfix(Of("input", "value"), Greater, Id("max_fee"));
    TameInfix(Of("input", "value"), BinaryOp.Sub, Id("max_fee"));
    TameInfix(Of("output", "value"), GreaterEqual, Infix(Of("input", "value"), BinaryOp.Sub, Id("max_fee")));
    TameInfix(Of("output", "script"), BinaryOp.Equal, Id(payee));
  }

  lemma TamePair(a: string, b: string)
    requires a !in {"covenant_id", "zk_verify", "sequencing"} && b !in {"covenant_id", "zk_verify", "sequencing"}
    ensures AllTame(Parts(Array([Id(a), Id(b)], NOWHERE)))
  {
    TameId(a);
    TameId(b);
    TameOne(Id(b));
    TameMore(Id(a), [Id(b)]);
    assert [Id(a)] + [Id(b)] == [Id(a), Id(b)];
    TameConcat([Array([Id(a), Id(b)], NOWHERE)], AllParts([Id(a), Id(b)]));
  }

  lemma TameBothSign()
    ensures AllTame(Parts(BOTH_SIGN))
  {
    var keys, sigs := Array([Id("buyer"), Id("seller")], NOWHERE), Array([Id("buyer_sig"), Id("seller_sig")], NOWHERE);
    TameId("multisig");
    TameLit(2);
    TamePair("buyer", "seller");
    TamePair("buyer_sig", "seller_sig");
    TameOne(sigs);
    TameMore(keys, [sigs]);
    TameMore(Lit(2), [keys] + [sigs]);
    assert [Lit(2)] + ([keys] + [sigs]) == BOTH_SIGN.args;
    TameCall(Id("multisig"), BOTH_SIGN.args);
  }

  lemma TameRefund()
    ensures AllTame(Parts(BUYER_SIGNS)) && AllTame(Parts(DEADLINE))
  {
    TameId("buyer_sig");
    TameId("buyer");
    TameOne(Id("buyer"));
    TameField(Id("buyer_sig"), "verify");
    TameCall(Field(Id("buyer_sig"), Ident("verify", NOWHERE), NOWHERE), [Id("buyer")]);
    TameId("block");
    TameId("refund_daa_score");
    TameField(Id("block"), "height");
    TameInfix(Field(Id("block"), Ident("height", NOWHERE), NOWHERE), GreaterEqual, Id("refund_daa_score"));
  }

  /** Requirements of the source: each fixes a count to one or not at all. */
  predicate Modest(e: Expr) {
    AllTame(Parts(e)) && !(e.Binary? && e.op.And?) && (CountConstraint(e).Some? ==> CountConstraint(e).value.1 == 1)
  }

  predicate AllModest(body: seq<Stmt>) { forall i :: 0 <= i < |body| ==> body[i].Require? && Modest(body[i].expr) }

  lemma ModestConcat(a: seq<Stmt>, b: seq<Stmt>)
    requires AllModest(a) && AllModest(b)
    ensures AllModest(a + b)
  {
  }

  lemma PaymentIsModest(payee: string)
    requires payee in {"buyer", "seller"}
    ensures AllModest(SinglePayment(payee))
  {
    TamePayment(payee);
    assert Modest(ONE_INPUT) && Modest(ONE_OUTPUT) && Modest(ABOVE_CAP) && Modest(FEE_CAPPED) && Modest(Pays(payee));
  }

  lemma SourceIsModest(path: SpendPath)
    ensures AllModest(SourceBody(path))
  {
    TameBothSign();
    TameRefund();
    PaymentIsModest("seller");
    PaymentIsModest("buyer");
    assert AllModest([Must(BOTH_SIGN)]) && AllModest([Must(BUYER_SIGNS), Must(DEADLINE)]);
    ModestConcat([Must(BOTH_SIGN)], SinglePayment("seller"));
    ModestConcat([Must(BUYER_SIGNS), Must(DEADLINE)], SinglePayment("buyer"));
  }

  lemma {:induction false} TameIndexes(name: string, parts: seq<Expr>)
    requires name in {"input", "output"} && AllTame(parts)
    ensures forall v :: v in Indexes(name, parts) ==> v == 0
  {
    if parts != [] {
      assert Tame(parts[0]);
      TameIndexes(name, parts[1..]);
    }
  }

  lemma {:induction false} TameNames(parts: seq<Expr>)
    requires AllTame(parts)
    ensures ContinuationNames(parts) == []
  {
    if parts != [] {
      assert Tame(parts[0]);
      TameNames(parts[1..]);
    }
  }

  lemma {:induction false} ModestBody(body: seq<Stmt>)
    requires AllModest(body)
    ensures AllTame(AllParts(Requirements(body))) && |Requirements(body)| == |body|
    ensures forall subject: Subject, v :: v in AllCounts(subject, Requirements(body)) ==> v == 1
    ensures !C.SpendUsesName(body, "covenant_id") && forall kip: nat :: kip != 10 ==> !BodyUses(body, kip)
  {
    if body != [] {
      assert body[0].Require? && Modest(body[0].expr);
      ModestBody(body[1..]);
      TameConcat(Parts(body[0].expr), AllParts(Requirements(body[1..])));
      assert Requirements(body) == [body[0].expr] + Requirements(body[1..]);
      assert Requirements(body)[1..] == Requirements(body[1..]);
      assert body == [body[0]] + body[1..];
    }
  }

  lemma {:induction false} LargestOfZeros(largest: Option<u64>, values: seq<u64>)
    requires largest in [None, Some(0)] && forall v :: v in values ==> v == 0
    ensures C.Largest(largest, values) in [None, Some(0)]
    decreases values
  {
    if values != [] {
      assert values[0] in values;
      forall v | v in values[1..] ensures v == 0 { assert v in values; }
      LargestOfZeros(Some(0), values[1..]);
    }
  }

  lemma ModestShape(body: seq<Stmt>)
    requires AllModest(body)
    ensures C.ShapeOk(Requirements(body))
  {
    var es := Requirements(body);
    ModestBody(body);
    TameNames(AllParts(es));
    TameIndexes("input", AllParts(es));
    TameIndexes("output", AllParts(es));
    LargestOfZeros(None, Indexes("input", AllParts(es)));
    LargestOfZeros(None, Indexes("output", AllParts(es)));
    OnesAgree(AllCounts(CountOfInputs, es));
    OnesAgree(AllCounts(CountOfOutputs, es));
  }

  lemma OnesAgree(values: seq<u64>)
    requires forall v :: v in values ==> v == 1
    ensures C.ValuesAgree(None, values) && C.FirstValue(None, values) in [None, Some(1)]
  {
    if values != [] { assert values[0] in values; }
  }

  // ---- its types ----

  /** The names of the source have their declared types. */
  predicate EscrowTypes(s: C.Scope) {
    C.TypeOfName(s, "buyer") == Some(KeyType) && C.TypeOfName(s, "seller") == Some(KeyType)
    && C.TypeOfName(s, "refund_daa_score") == Some(HeightType) && C.TypeOfName(s, "max_fee") == Some(AmountType)
    && C.TypeOfName(s, "buyer_sig") == Some(SignatureType)
    && C.TypeOfName(s, "input_count") == Some(AmountType) && C.TypeOfName(s, "output_count") == Some(AmountType)
  }

  /** A requirement that is a truth value. */
  predicate Sound(s: C.Scope, e: Expr) { C.WellTyped(s, e) && C.TypeOf(s, e) == Some(BoolType) }

  lemma OfIsTyped(s: C.Scope, root: string, field: string)
    requires root in {"input", "output"} && field in {"value", "script"}
    ensures C.WellTyped(s, Of(root, field)) && C.TypeOf(s, Of(root, field)) == Some(if field == "value" then AmountType else BytesType)
  {
    var call := Call(Id(root), [Lit(0)], NOWHERE);
    assert C.CallWellTyped(s, call);
  }

  lemma PaymentIsTyped(s: C.Scope, payee: string)
    requires EscrowTypes(s) && payee in {"buyer", "seller"}
    ensures Sound(s, ONE_INPUT) && Sound(s, ONE_OUTPUT) && Sound(s, ABOVE_CAP) && Sound(s, FEE_CAPPED) && Sound(s, Pays(payee))
  {
    OfIsTyped(s, "input", "value");
    OfIsTyped(s, "output", "value");
    OfIsTyped(s, "output", "script");
    assert C.WellTyped(s, FEE_CAPPED.right);
  }

  lemma PairIsTyped(s: C.Scope, a: string, b: string)
    requires C.TypeOfName(s, a).Some? && C.TypeOfName(s, b).Some?
    ensures C.WellTyped(s, Array([Id(a), Id(b)], NOWHERE))
  {
    assert [Id(a), Id(b)][1..] == [Id(b)] && [Id(b)][1..] == [];
    assert C.AllWellTyped(s, [Id(b)]);
  }

  lemma BothSignIsTyped(s: C.Scope)
    requires EscrowTypes(s) && C.TypeOfName(s, "seller_sig") == Some(SignatureType)
    ensures Sound(s, BOTH_SIGN)
  {
    var args := BOTH_SIGN.args;
    PairIsTyped(s, "buyer", "seller");
    PairIsTyped(s, "buyer_sig", "seller_sig");
    assert args[1..][1..][1..] == [];
    assert C.AllWellTyped(s, args[1..][1..]);
    assert C.AllWellTyped(s, args[1..]);
    assert C.AllWellTyped(s, args) && C.MultisigShapeOk(args);
    assert C.CallWellTyped(s, BOTH_SIGN);
  }

  lemma RefundIsTyped(s: C.Scope)
    requires EscrowTypes(s)
    ensures Sound(s, BUYER_SIGNS) && Sound(s, DEADLINE)
  {
    assert C.CallWellTyped(s, BUYER_SIGNS);
    assert C.WellTyped(s, DEADLINE.left);
  }

  lemma {:induction false} SoundBodyOk(l: C.Locals, body: seq<Stmt>)
    requires forall i :: 0 <= i < |body| ==> body[i].Require? && Sound(l.scope, body[i].expr)
    ensures C.BodyOk(l, body)
    decreases body
  {
    if body != [] {
      assert body[0].Require? && Sound(l.scope, body[0].expr);
      SoundBodyOk(l, body[1..]);
    }
  }

  lemma SourceIsTyped(l: C.Locals, path: SpendPath)
    requires EscrowTypes(l.scope) && (path.Release? ==> C.TypeOfName(l.scope, "seller_sig") == Some(SignatureType))
    ensures C.BodyOk(l, SourceBody(path))
  {
    var s := l.scope;
    if path.Release? {
      BothSignIsTyped(s);
      PaymentIsTyped(s, "seller");
    } else {
      RefundIsTyped(s);
      PaymentIsTyped(s, "buyer");
    }
    SoundBodyOk(l, SourceBody(path));
  }

  // ---- the checker accepts it ----

  const OUTER: C.Scope :=
    C.Scope({"release", "refund"}, map["buyer" := KeyType, "seller" := KeyType, "refund_daa_score" := HeightType, "max_fee" := AmountType])

  lemma OuterOfEscrow()
    ensures C.OuterScope(ESCROW) == OUTER
  {
    var s := C.Scope(C.SpendNames(ESCROW.spends), map[]);
    assert C.SpendNames(ESCROW.spends) == {"release", "refund"} by {
      assert ESCROW.spends[0] in ESCROW.spends && ESCROW.spends[1] in ESCROW.spends;
    }
    assert PARAMS[1..][1..][1..][1..] == [];
    assert PARAMS[1..][0].name.name == "seller" && PARAMS[1..][1..][0].name.name == "refund_daa_score";
    assert PARAMS[1..][1..][1..][0].name.name == "max_fee";
    var s1 := s.Insert("buyer", KeyType);
    var s2 := s1.Insert("seller", KeyType);
    var s3 := s2.Insert("refund_daa_score", HeightType);
    var s4 := s3.Insert("max_fee", AmountType);
    assert C.ScopeOf(s3, PARAMS[1..][1..][1..]) == s4;
    assert C.ScopeOf(s2, PARAMS[1..][1..]) == s4;
    assert C.ScopeOf(s1, PARAMS[1..]) == s4;
    assert s4.types == OUTER.types;
  }

  function SpendOf(path: SpendPath): Spend { if path.Release? then RELEASE_SPEND else REFUND_SPEND }

  lemma OneParam(outer: C.Scope, l: C.Locals, p: Param)
    requires p.name.name !in outer.types && p.name.name !in l.names
    ensures C.AfterParams(l, [p]) == l.Declare(p.name.name, Some(p.ty)) && C.ParamsOk(outer, l, [p])
  {
    var l1 := l.Declare(p.name.name, Some(p.ty));
    assert [p][1..] == [];
    assert C.AfterParams(l1, []) == l1 && C.ParamsOk(outer, l1, []);
  }

  lemma TwoParams(outer: C.Scope, l: C.Locals, p: Param, q: Param)
    requires p.name.name !in outer.types && p.name.name !in l.names
    requires q.name.name !in outer.types && q.name.name !in l.names && p.name.name != q.name.name
    ensures C.AfterParams(l, [p, q]) == l.Declare(p.name.name, Some(p.ty)).Declare(q.name.name, Some(q.ty))
    ensures C.ParamsOk(outer, l, [p, q])
  {
    assert [p, q][1..] == [q];
    OneParam(outer, l.Declare(p.name.name, Some(p.ty)), q);
  }

  /** The locals of a path once its parameters are read. */
  function LocalsFrom(outer: C.Scope, path: SpendPath): C.Locals {
    var l := C.Locals(outer, {}).Declare("buyer_sig", Some(SignatureType));
    if path.Release? then l.Declare("seller_sig", Some(SignatureType)) else l
  }

  lemma LocalsOfEscrow(path: SpendPath)
    ensures C.AfterParams(C.Locals(OUTER, {}), SpendOf(path).params) == LocalsFrom(OUTER, path)
    ensures C.ParamsOk(OUTER, C.Locals(OUTER, {}), SpendOf(path).params)
  {
    match path
    case Release => TwoParams(OUTER, C.Locals(OUTER, {}), Declare("buyer_sig", SignatureType), Declare("seller_sig", SignatureType));
    case Refund => OneParam(OUTER, C.Locals(OUTER, {}), Declare("buyer_sig", SignatureType));
  }

  lemma InsertedType(s: C.Scope, name: string, ty: TypeName, other: string)
    requires name !in s.spends && C.BuiltinType(name).None? && other != name
    ensures C.TypeOfName(s.Insert(name, ty), name) == Some(ty)
    ensures C.TypeOfName(s.Insert(name, ty), other) == C.TypeOfName(s, other)
  {
  }

  lemma SignaturesKeep(s: C.Scope, path: SpendPath, name: string)
    requires s.spends == {"release", "refund"} && name !in {"buyer_sig", "seller_sig"}
    ensures C.TypeOfName(LocalsFrom(s, path).scope, name) == C.TypeOfName(s, name)
    ensures C.TypeOfName(LocalsFrom(s, path).scope, "buyer_sig") == Some(SignatureType)
    ensures path.Release? ==> C.TypeOfName(LocalsFrom(s, path).scope, "seller_sig") == Some(SignatureType)
  {
    InsertedType(s, "buyer_sig", SignatureType, name);
    var s1 := s.Insert("buyer_sig", SignatureType);
    InsertedType(s1, "seller_sig", SignatureType, name);
    InsertedType(s1, "seller_sig", SignatureType, "buyer_sig");
  }

  lemma OuterTypes()
    ensures C.TypeOfName(OUTER, "buyer") == Some(KeyType) && C.TypeOfName(OUTER, "seller") == Some(KeyType)
    ensures C.TypeOfName(OUTER, "refund_daa_score") == Some(HeightType) && C.TypeOfName(OUTER, "max_fee") == Some(AmountType)
    ensures C.TypeOfName(OUTER, "input_count") == Some(AmountType) && C.TypeOfName(OUTER, "output_count") == Some(AmountType)
  {
  }

  lemma TypesAt(path: SpendPath)
    ensures EscrowTypes(LocalsFrom(OUTER, path).scope)
    ensures path.Release? ==> C.TypeOfName(LocalsFrom(OUTER, path).scope, "seller_sig") == Some(SignatureType)
  {
    OuterTypes();
    SignaturesKeep(OUTER, path, "buyer");
    SignaturesKeep(OUTER, path, "seller");
    SignaturesKeep(OUTER, path, "refund_daa_score");
    SignaturesKeep(OUTER, path, "max_fee");
    SignaturesKeep(OUTER, path, "input_count");
    SignaturesKeep(OUTER, path, "output_count");
  }

  lemma SpendIsOk(path: SpendPath)
    ensures C.SpendOk(ESCROW, SpendOf(path), OUTER)
  {
    LocalsOfEscrow(path);
    TypesAt(path);
    SourceIsTyped(LocalsFrom(OUTER, path), path);
    SourceIsModest(path);
    ModestShape(SourceBody(path));
    ModestBody(SourceBody(path));
  }

  lemma NamesDiffer()
    ensures C.Unseen({}, C.ParamNames(PARAMS)) && C.Unseen({}, C.NamesOfSpends([RELEASE_SPEND, REFUND_SPEND]))
    ensures C.Unseen({}, C.NamesOfContracts([ESCROW]))
  {
    var names := C.ParamNames(PARAMS);
    assert names[0] == "buyer" && names[1] == "seller" && names[2] == "refund_daa_score" && names[3] == "max_fee";
    assert |names[0]| == 5 && |names[1]| == 6 && |names[2]| == 16 && |names[3]| == 7;
    var spends := C.NamesOfSpends([RELEASE_SPEND, REFUND_SPEND]);
    assert |spends[0]| == 7 && |spends[1]| == 6;
  }

  lemma ContractIsOk(c: Contract)
    requires c.finalityDepth == NoDepth && C.Unseen({}, C.ParamNames(c.params)) && C.Unseen({}, C.NamesOfSpends(c.spends))
    requires |c.spends| == 2 && C.SpendOk(c, c.spends[0], C.OuterScope(c)) && C.SpendOk(c, c.spends[1], C.OuterScope(c))
    ensures C.ContractOk(c)
  {
  }

  lemma ProgramOfOne(c: Contract)
    requires C.ContractOk(c) && C.Unseen({}, C.NamesOfContracts([c]))
    ensures C.FoundInProgram([c]) == []
  {
    C.NothingFoundInProgram([c]);
  }

  /** The checker finds nothing wrong with the escrow. */
  lemma EscrowIsChecked()
    ensures C.FoundInProgram([ESCROW]) == []
  {
    OuterOfEscrow();
    SpendIsOk(Release);
    SpendIsOk(Refund);
    NamesDiffer();
    ContractIsOk(ESCROW);
    ProgramOfOne(ESCROW);
  }

  // ---- it compiles for every target ----

  predicate AllEncode(code: Code) { forall i :: 0 <= i < |code| ==> InstrOps(code[i]).Success? }

  lemma EncodeConcat(a: Code, b: Code)
    requires AllEncode(a) && AllEncode(b)
    ensures AllEncode(a + b)
  {
  }

  lemma {:induction false} Utf8Bounded(text: string)
    ensures |Utf8(text)| <= 4 * |text|
  {
    if text != "" { Utf8Bounded(text[1..]); }
  }

  lemma SymEncodes(name: string)
    requires |name| <= 100
    ensures InstrOps(Sym(name)).Success?
  {
    Utf8Bounded(name);
  }

  lemma PaymentPartsEncode(payee: string)
    requires |payee| <= 100
    ensures AllEncode(PaysCode(Sym(payee))) && AllEncode(FeeCappedCode(Sym("max_fee"))) && AllEncode(AboveCapCode(Sym("max_fee")))
    ensures AllEncode(ONE_INPUT_CODE) && AllEncode(ONE_OUTPUT_CODE)
  {
    PushesReady();
    ReadsReady();
    ChecksReady();
    SymEncodes("max_fee");
    SymEncodes(payee);
  }

  lemma PaymentEncodes(payee: string)
    requires |payee| <= 100
    ensures AllEncode(PaymentCode(Sym("max_fee"), Sym(payee)))
  {
    PaymentPartsEncode(payee);
    var pays, capped, above := PaysCode(Sym(payee)), FeeCappedCode(Sym("max_fee")), AboveCapCode(Sym("max_fee"));
    EncodeConcat(capped, pays);
    EncodeConcat(above, capped + pays);
    EncodeConcat(ONE_OUTPUT_CODE, above + (capped + pays));
    EncodeConcat(ONE_INPUT_CODE, ONE_OUTPUT_CODE + (above + (capped + pays)));
  }

  lemma PushesEncode(args: seq<string>)
    requires forall i :: 0 <= i < |args| ==> |args[i]| <= 100
    ensures AllEncode(ArgPushes(args))
  {
    forall i | 0 <= i < |args| ensures InstrOps(ArgPushes(args)[i]).Success? { SymEncodes(args[i]); }
  }

  lemma ThreeEncode(a: Instr, b: Instr, c: Instr)
    requires InstrOps(a).Success? && InstrOps(b).Success? && InstrOps(c).Success?
    ensures AllEncode([a, b, c])
  {
  }

  lemma HeadsEncode()
    ensures AllEncode(BothSignCode(Sym("buyer"), Sym("seller"))) && AllEncode(BuyerSignsCode(Sym("buyer")))
    ensures AllEncode(DeadlineCode(Sym("refund_daa_score")))
  {
    var buyer, seller, deadline := Sym("buyer"), Sym("seller"), Sym("refund_daa_score");
    PushesReady();
    ChecksReady();
    SymEncodes("buyer");
    SymEncodes("seller");
    SymEncodes("refund_daa_score");
    ThreeEncode(buyer, CheckSig(0), Verify);
    ThreeEncode(deadline, CheckLockHeightFromStack, Verify);
    ThreeEncode(Push(IntegerValue(2)), buyer, seller);
    ThreeEncode(CheckMultiSig(2, 2), Verify, Verify);
    var front, back := [Push(IntegerValue(2)), buyer, seller], [CheckMultiSig(2, 2), Verify, Verify][..2];
    EncodeConcat(front, back);
    assert BothSignCode(buyer, seller) == front + back;
  }

  lemma SourceEncodes(path: SpendPath)
    ensures LowerBody(SourceBody(path)).Success? && AllEncode(LowerBody(SourceBody(path)).value)
  {
    HeadsEncode();
    PushesEncode(["buyer_sig", "seller_sig"]);
    PushesEncode(["buyer_sig"]);
    if path.Release? {
      ReleaseLowers();
      PaymentEncodes("seller");
      var pushes, sign, pay := ArgPushes(["buyer_sig", "seller_sig"]), BothSignCode(Sym("buyer"), Sym("seller")),
        PaymentCode(Sym("max_fee"), Sym("seller"));
      EncodeConcat(sign, pay);
      EncodeConcat(pushes, sign + pay);
    } else {
      RefundLowers();
      PaymentEncodes("buyer");
      var pushes, sign, wait, pay := ArgPushes(["buyer_sig"]), BuyerSignsCode(Sym("buyer")),
        DeadlineCode(Sym("refund_daa_score")), PaymentCode(Sym("max_fee"), Sym("buyer"));
      EncodeConcat(wait, pay);
      EncodeConcat(sign, wait + pay);
      EncodeConcat(pushes, sign + (wait + pay));
    }
  }

  /** Code that encodes passes every gate without a warning. */
  lemma {:induction false} EncodedPasses(code: Code, target: Gates.Target, warned: seq<string>)
    requires AllEncode(code)
    ensures Gates.AllPassed(Gates.CodeRecords(code), target, warned) == Success(warned) && CodeOps(code).Success?
    decreases code
  {
    if code != [] {
      Gates.RegistryMatchesEncoder(code[0]);
      assert Gates.CodeRecords(code)[1..] == Gates.CodeRecords(code[1..]);
      EncodedPasses(code[1..], target, warned);
    }
  }

  lemma {:induction false} SpendsPass(spends: seq<Code>, target: Gates.Target, so: Gates.Artifact)
    requires forall i :: 0 <= i < |spends| ==> AllEncode(spends[i])
    ensures Gates.SpendsCompiled(spends, target, so).Success? && Gates.SpendsCompiled(spends, target, so).value.warnings == so.warnings
    decreases spends
  {
    if spends != [] {
      EncodedPasses(spends[0], target, so.warnings);
      SpendsPass(spends[1..], target, Gates.SpendCompiled(spends[0], target, so).value);
    }
  }

  /** The code of the two paths, parameters still by name. */
  ghost function SourceCodes(): seq<Code> {
    SourceEncodes(Release);
    SourceEncodes(Refund);
    [LowerBody(RELEASE).value, LowerBody(REFUND).value]
  }

  lemma LowerTwo(a: seq<Stmt>, b: seq<Stmt>)
    requires LowerBody(a).Success? && LowerBody(b).Success?
    ensures LowerBodies([a, b]) == Success([LowerBody(a).value, LowerBody(b).value])
  {
    assert [a, b][1..] == [b] && [b][1..] == [];
    assert LowerBodies([b]) == Success([LowerBody(b).value] + []);
    assert [LowerBody(b).value] + [] == [LowerBody(b).value];
    assert [LowerBody(a).value] + [LowerBody(b).value] == [LowerBody(a).value, LowerBody(b).value];
  }

  lemma BodiesOfTwo(c: Contract, s: Spend, s1: Spend)
    requires c.spends == [s, s1]
    ensures Bodies([c]) == [s.body, s1.body]
  {
    assert [c][1..] == [] && [s, s1][1..] == [s1] && [s1][1..] == [];
    assert BodiesOf([s1]) == [s1.body] && BodiesOf([s, s1]) == [s.body] + [s1.body];
  }

  /** Bodies without gated features rely on introspection at most, which passes every gate. */
  lemma OnlyIntrospection(a: seq<Stmt>, b: seq<Stmt>, target: Gates.Target)
    requires AllModest(a) && AllModest(b)
    ensures Gates.AllPassed(Gates.KipRecords(Kips([a, b])), target, []) == Success([])
  {
    ModestBody(a);
    ModestBody(b);
    assert [a, b][1..] == [b] && [b][1..] == [];
    forall kip | kip != 10 ensures !Uses([a, b], kip) {
      assert !Uses([b], kip) && !BodyUses(a, kip);
    }
    var kips := if Uses([a, b], 10) then [10] else [];
    assert Kips([a, b]) == kips;
    KipTenPasses(kips, target);
  }

  lemma KipTenPasses(kips: seq<nat>, target: Gates.Target)
    requires kips in [[], [10]]
    ensures Gates.AllPassed(Gates.KipRecords(kips), target, []) == Success([])
  {
    if kips != [] {
      assert kips[1..] == [] && Gates.KipRecords(kips) == [Gates.Record("kip-10", Gates.Verified)] + [];
    }
  }

  lemma EscrowGenerates(target: Gates.Target)
    ensures Generated([ESCROW], target).Success? && Generated([ESCROW], target).value.codes == SourceCodes()
    ensures Generated([ESCROW], target).value.artifact.warnings == []
  {
    SourceEncodes(Release);
    SourceEncodes(Refund);
    BodiesOfTwo(ESCROW, RELEASE_SPEND, REFUND_SPEND);
    LowerTwo(RELEASE, REFUND);
    SourceIsModest(Release);
    SourceIsModest(Refund);
    OnlyIntrospection(RELEASE, REFUND, target);
    SpendsPass(SourceCodes(), target, Gates.Artifact([], []));
  }

  /** Every file that holds the escrow compiles for every target, without a warning, to the code of its
      two paths, wherever its tokens stand. */
  lemma EscrowFileCompiles(t: seq<Token>, target: Gates.Target)
    requires IsEscrowFile(t)
    ensures Compiling(t, target).Success? && Compiling(t, target).value.codes == SourceCodes()
    ensures Compiling(t, target).value.artifact.warnings == []
  {
    var contracts := ParsedFile(t).value;
    EscrowIsChecked();
    EscrowGenerates(target);
    CompileErased(contracts, target);
    CompileErased([ESCROW], target);
    assert Compiling(t, target) == FromParsed(contracts, target);
  }

  // ---- from the file to the lock ----

  /** A compiled path with the escrow's parameters in place, as a script. */
  ghost function BoundScript(terms: Terms, code: Code): Option<Bytes> {
    var bound :- Instantiate(ARGUMENTS, EscrowEnv(terms), Elsewhere, code);
    if SpendOps(bound).Success? then Some(Assemble(SpendOps(bound).value)) else None
  }

  /** From tokens to policy: whatever file holds the escrow, binding accepted terms into the two paths it
      compiles to and joining them gives a script that accepts exactly the transactions and unlocking
      stacks that meet the policy. */
  lemma EscrowFileEnforcesPolicy(t: seq<Token>, target: Gates.Target, terms: Terms, c: Context, st: Stack)
    requires IsEscrowFile(t) && ValidTerms(terms)
    ensures Compiling(t, target).Success? && |Compiling(t, target).value.codes| == 2
    ensures var codes := Compiling(t, target).value.codes;
            var (release, refund) := (BoundScript(terms, codes[0]), BoundScript(terms, codes[1]));
            release.Some? && refund.Some? && JoinScripts(release.value, refund.value) == RedeemScript(terms)
            && (Accepts(c, JoinScripts(release.value, refund.value), st) <==> PolicyMet(c, terms, st))
  {
    EscrowFileCompiles(t, target);
    BranchBinds(terms, Release, ARGUMENTS);
    BranchBinds(terms, Refund, ARGUMENTS);
    BranchesEncode(terms);
    RedeemEnforcesPolicy(c, terms, st);
  }
}
