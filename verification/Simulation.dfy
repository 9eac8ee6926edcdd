/** The meaning of stack code, and its agreement with the bytes it is encoded as. */
module Simulation {
  import opened Wrappers
  import opened ScriptNumbers
  import opened Syntax
  import opened Instructions
  import opened Script
  import opened Encoding
  import opened Engine

  /** The bytes a pushed value denotes. */
  function ValueBytes(value: Value): Option<Bytes> {
    match value
    case IntegerValue(n) => IntBytes(n)
    case BoolValue(b) => Some(BoolBytes(b))
    case BytesValue(bytes) => Some(bytes)
    case TextValue(text) => Some(Utf8(text))
    case SymbolValue(name) => Some(Utf8(name))
    case TypeValue(ty) => Some(Utf8(TypeText(ty)))
  }

  /** Whether the push emitted for a value executes: the encoder never uses the small-number
      opcodes for byte data, and the engine refuses any longer push of the same data. */
  predicate CanPush(value: Value) {
    value.IntegerValue? || value.BoolValue? || !HasSmallPush(ValueBytes(value).value)
  }

  predicate Pushable(code: Code) {
    forall i :: 0 <= i < |code| && code[i].Push? ==> CanPush(code[i].value)
  }

  function ArithmeticResult(instr: Instr, m: int, n: int): Option<Bytes> {
    match instr
    case NotEqual => Some(BoolBytes(m != n))
    case LessThan => Some(BoolBytes(m < n))
    case LessThanOrEqual => Some(BoolBytes(m <= n))
    case GreaterThan => Some(BoolBytes(m > n))
    case GreaterThanOrEqual => Some(BoolBytes(m >= n))
    case And => Some(BoolBytes(m != 0 && n != 0))
    case Or => Some(BoolBytes(m != 0 || n != 0))
    case Add => IntBytes(m + n)
    case Sub => IntBytes(m - n)
    case _ => None
  }

  /** The value an instruction without operands pushes. */
  function Read(c: Context, instr: Instr): Option<Bytes> {
    match instr
    case Push(value) => ValueBytes(value)
    case InputValue(i) => if c.HasInput(i) then IntBytes(c.tx.entries[i].amount) else None
    case InputScript(i) => if c.HasInput(i) then Some(SpkBytes(c.tx.entries[i].spk)) else None
    case OutputValue(i) => if c.HasOutput(i) then IntBytes(c.tx.outputs[i].value) else None
    case OutputScript(i) => if c.HasOutput(i) then Some(SpkBytes(c.tx.outputs[i].spk)) else None
    case InputCount => IntBytes(|c.tx.inputs|)
    case OutputCount => IntBytes(|c.tx.outputs|)
    case CheckLockHeight(v) => if v <= I64_MAX && c.LockReached(v) then Some([1]) else None
    case CheckLockTime(v) => if v <= I64_MAX && c.LockReached(v) then Some([1]) else None
    case _ => None
  }

  predicate IsRead(instr: Instr) {
    match instr
    case Push(_) | InputValue(_) | InputScript(_) | OutputValue(_) | OutputScript(_)
      | InputCount | OutputCount | CheckLockHeight(_) | CheckLockTime(_) => true
    case _ => false
  }

  /** The result of an instruction on one operand. */
  function Apply1(c: Context, instr: Instr, a: Bytes): Option<Bytes> {
    match instr
    case Sha256 => Some(c.chain.sha256(a))
    case Blake2b => Some(c.chain.blake2b(a))
    case Not =>
      var n :- AsNum(a);
      Some(BoolBytes(n == 0))
    case CheckLockHeightFromStack => if LockPassed(c, a) then Some([1]) else None
    case CheckLockTimeFromStack => if LockPassed(c, a) then Some([1]) else None
    case _ => None
  }

  /** The result of an instruction on two operands, the second one topmost. */
  function Apply2(c: Context, instr: Instr, a: Bytes, b: Bytes): Option<Bytes> {
    match instr
    case Equal => Some(BoolBytes(a == b))
    case CheckSig(_) => SingleSig(c, a, b)
    case _ =>
      var m :- AsNum(a);
      var n :- AsNum(b);
      ArithmeticResult(instr, m, n)
  }

  predicate TakesOne(instr: Instr) {
    instr.Sha256? || instr.Blake2b? || instr.Not?
    || instr.CheckLockHeightFromStack? || instr.CheckLockTimeFromStack?
  }

  function Step(c: Context, instr: Instr, st: Stack): Option<Stack> {
    if IsRead(instr) then
      var v :- Read(c, instr);
      Some(Cons(v, st))
    else if instr.CheckMultiSig? then CheckMulti(c, instr.keyCount, st)
    else if st.Empty? then None
    else if instr.Drop? then Some(st.below)
    else if instr.Dup? then Some(Cons(st.top, st))
    else if instr.Verify? then if AsBool(st.top) then Some(st.below) else None
    else if TakesOne(instr) then
      var r :- Apply1(c, instr, st.top);
      Some(Cons(r, st.below))
    else if st.below.Empty? then None
    else
      var r :- Apply2(c, instr, st.below.top, st.top);
      Some(Cons(r, st.below.below))
  }

  function Run(c: Context, code: Code, st: Stack): Option<Stack> {
    if code == [] then Some(st)
    else
      var next :- Step(c, code[0], st);
      Run(c, code[1..], next)
  }

  lemma {:induction false} RunConcat(c: Context, a: Code, b: Code, st: Stack)
    ensures Run(c, a + b, st) == match Run(c, a, st) case Some(mid) => Run(c, b, mid) case None => None
  {
    if a == [] {
      assert a + b == b;
    } else {
      assert (a + b)[0] == a[0] && (a + b)[1..] == a[1..] + b;
      var next := Step(c, a[0], st);
      if next.Some? { RunConcat(c, a[1..], b, next.value); }
    }
  }

  // ---- instructions and their operations ----

  lemma PerformOne(c: Context, op: Op, st: Stack)
    ensures PerformAll(c, [op], st) == Perform(c, op, st)
  {
    var next := Perform(c, op, st);
    if next.Some? { assert PerformAll(c, [op][1..], next.value) == next; }
  }

  /** A number reaches the stack as its encoding, whichever push the encoder chose for it. */
  lemma NumberPushes(c: Context, v: u64, st: Stack)
    requires v <= I64_MAX
    ensures NumberOps(v).Success? && |NumberOps(v).value| == 1
    ensures PerformAll(c, NumberOps(v).value, st) == Some(Cons(Num(v), st))
  {
    NumUnsigned(v);
    NumLength(v);
    PerformOne(c, NumberOps(v).value[0], st);
    if v > 16 {
      var data := Num(v);
      if |data| == 1 {
        assert data[1..] == [];
        assert FromLe(data) == data[0] as nat;
      }
    }
  }

  lemma NumberThen(c: Context, v: u64, opcodes: seq<Op>, st: Stack)
    requires v <= I64_MAX
    ensures Then(NumberOps(v), opcodes).Success?
    ensures PerformAll(c, Then(NumberOps(v), opcodes).value, st) == PerformAll(c, opcodes, Cons(Num(v), st))
  {
    NumberPushes(c, v, st);
    PerformConcat(c, NumberOps(v).value, opcodes, st);
  }

  lemma DataPushes(c: Context, data: Bytes, st: Stack)
    requires |data| <= U32_MAX
    ensures PerformAll(c, [DataOp(data)], st) == if HasSmallPush(data) then None else Some(Cons(data, st))
  {
    PerformOne(c, DataOp(data), st);
  }

  lemma PushSimulates(c: Context, value: Value, st: Stack)
    requires PushOps(value).Success?
    ensures PerformAll(c, PushOps(value).value, st) == if CanPush(value) then Step(c, Push(value), st) else None
  {
    match value
    case IntegerValue(n) => NumberPushes(c, n, st);
    case BoolValue(b) =>
      PerformOne(c, PushOps(value).value[0], st);
      BoolNum(b);
    case BytesValue(bytes) => DataPushes(c, bytes, st);
    case TextValue(text) => DataPushes(c, Utf8(text), st);
    case SymbolValue(name) => DataPushes(c, Utf8(name), st);
    case TypeValue(ty) => DataPushes(c, Utf8(TypeText(ty)), st);
  }

  lemma IndexSimulates(c: Context, index: u32, opcode: byte, st: Stack)
    requires opcode in {OP_TXINPUTAMOUNT, OP_TXINPUTSPK, OP_TXOUTPUTAMOUNT, OP_TXOUTPUTSPK}
    ensures Then(NumberOps(index), [PlainOp(opcode)]).Success?
    ensures PerformAll(c, Then(NumberOps(index), [PlainOp(opcode)]).value, st) ==
            match Introspect(c, opcode, index) case Some(r) => Some(Cons(r, st)) case None => None
  {
    NumberThen(c, index, [PlainOp(opcode)], st);
    PerformOne(c, PlainOp(opcode), Cons(Num(index), st));
    NumRoundTrip(index);
  }

  lemma LockSimulates(c: Context, st: Stack)
    ensures PerformAll(c, [PlainOp(OP_CHECKLOCKTIMEVERIFY), PlainOp(OP_1)], st) ==
            if st.Cons? && LockPassed(c, st.top) then Some(Cons([1], st.below)) else None
  {
    var ops := [PlainOp(OP_CHECKLOCKTIMEVERIFY), PlainOp(OP_1)];
    assert ops[1..] == [PlainOp(OP_1)];
    var next := Perform(c, ops[0], st);
    if next.Some? {
      PerformOne(c, PlainOp(OP_1), next.value);
      BoolNum(true);
    }
  }

  lemma LockNumber(c: Context, v: u64)
    requires v <= I64_MAX
    ensures LockPassed(c, Num(v)) <==> c.LockReached(v)
  {
    NumUnsigned(v);
    NumLength(v);
  }

  lemma IndexedReadSimulates(c: Context, instr: Instr, st: Stack)
    requires instr.InputValue? || instr.InputScript? || instr.OutputValue? || instr.OutputScript?
    ensures InstrOps(instr).Success?
    ensures PerformAll(c, InstrOps(instr).value, st) == Step(c, instr, st)
  {
    match instr
    case InputValue(i) => IndexSimulates(c, i, OP_TXINPUTAMOUNT, st);
    case InputScript(i) => IndexSimulates(c, i, OP_TXINPUTSPK, st);
    case OutputValue(i) => IndexSimulates(c, i, OP_TXOUTPUTAMOUNT, st);
    case OutputScript(i) => IndexSimulates(c, i, OP_TXOUTPUTSPK, st);
  }

  lemma LockTestSimulates(c: Context, instr: Instr, st: Stack)
    requires InstrOps(instr).Success?
    requires instr.CheckLockHeight? || instr.CheckLockTime?
             || instr.CheckLockHeightFromStack? || instr.CheckLockTimeFromStack?
    ensures PerformAll(c, InstrOps(instr).value, st) == Step(c, instr, st)
  {
    if instr.CheckLockHeight? || instr.CheckLockTime? {
      var v := if instr.CheckLockHeight? then instr.height else instr.time;
      NumberThen(c, v, [PlainOp(OP_CHECKLOCKTIMEVERIFY), PlainOp(OP_1)], st);
      LockSimulates(c, Cons(Num(v), st));
      LockNumber(c, v);
    } else {
      LockSimulates(c, st);
    }
  }

  lemma MultiSigSimulates(c: Context, instr: Instr, st: Stack)
    requires instr.CheckMultiSig?
    ensures InstrOps(instr).Success?
    ensures PerformAll(c, InstrOps(instr).value, st) == Step(c, instr, st)
  {
    NumberThen(c, instr.keyCount, [PlainOp(OP_CHECKMULTISIG)], st);
    PerformOne(c, PlainOp(OP_CHECKMULTISIG), Cons(Num(instr.keyCount), st));
    NumRoundTrip(instr.keyCount);
  }

  lemma StackOpSimulates(c: Context, instr: Instr, st: Stack)
    requires instr.Drop? || instr.Dup? || instr.Verify? || instr.InputCount? || instr.OutputCount?
             || instr.Sha256? || instr.Blake2b? || instr.Not? || instr.Equal? || instr.CheckSig?
    ensures InstrOps(instr).Success? && |InstrOps(instr).value| == 1
    ensures Perform(c, InstrOps(instr).value[0], st) == Step(c, instr, st)
  {
  }

  predicate IsArithmetic(instr: Instr) {
    match instr
    case NotEqual | LessThan | LessThanOrEqual | GreaterThan | GreaterThanOrEqual | And | Or | Add | Sub => true
    case _ => false
  }

  lemma ArithmeticAgrees(instr: Instr, m: int, n: int)
    requires IsArithmetic(instr)
    ensures InstrOps(instr).Success? && |InstrOps(instr).value| == 1
    ensures var opcode := InstrOps(instr).value[0].opcode;
            NumericResult(opcode, m, n) == ArithmeticResult(instr, m, n)
            && opcode in {OP_NUMNOTEQUAL, OP_LESSTHAN, OP_LESSTHANOREQUAL, OP_GREATERTHAN, OP_GREATERTHANOREQUAL,
                          OP_BOOLAND, OP_BOOLOR, OP_ADD, OP_SUB}
  {
  }

  /** The shared shape of two-operand arithmetic, with `result` for its outcome. */
  function Arithmetic(st: Stack, result: (int, int) -> Option<Bytes>): Option<Stack> {
    if st.Empty? || st.below.Empty? then None
    else
      var m :- AsNum(st.below.top);
      var n :- AsNum(st.top);
      var r :- result(m, n);
      Some(Cons(r, st.below.below))
  }

  lemma PlainArithmetic(c: Context, opcode: byte, st: Stack)
    requires opcode in {OP_NUMNOTEQUAL, OP_LESSTHAN, OP_LESSTHANOREQUAL, OP_GREATERTHAN, OP_GREATERTHANOREQUAL,
                        OP_BOOLAND, OP_BOOLOR, OP_ADD, OP_SUB}
    ensures ExecPlain(c, opcode, st) == Arithmetic(st, (m, n) => NumericResult(opcode, m, n))
  {
  }

  lemma StepArithmetic(c: Context, instr: Instr, st: Stack)
    requires IsArithmetic(instr)
    ensures Step(c, instr, st) == Arithmetic(st, (m, n) => ArithmeticResult(instr, m, n))
  {
  }

  lemma ArithmeticSimulates(c: Context, instr: Instr, st: Stack)
    requires IsArithmetic(instr)
    ensures InstrOps(instr).Success? && |InstrOps(instr).value| == 1
    ensures Perform(c, InstrOps(instr).value[0], st) == Step(c, instr, st)
  {
    ArithmeticAgrees(instr, 0, 0);
    var op := InstrOps(instr).value[0];
    StepArithmetic(c, instr, st);
    PlainArithmetic(c, op.opcode, st);
    if st.Cons? && st.below.Cons? {
      var m, n := AsNum(st.below.top), AsNum(st.top);
      if m.Some? && n.Some? { ArithmeticAgrees(instr, m.value, n.value); }
    }
  }

  /** Each instruction does what its operations do, unless it is a push the engine refuses. */
  lemma StepSimulates(c: Context, instr: Instr, st: Stack)
    requires InstrOps(instr).Success?
    ensures PerformAll(c, InstrOps(instr).value, st) == if Pushable([instr]) then Step(c, instr, st) else None
  {
    assert [instr][0] == instr;
    if instr.Push? {
      PushSimulates(c, instr.value, st);
    } else if instr.InputValue? || instr.InputScript? || instr.OutputValue? || instr.OutputScript? {
      IndexedReadSimulates(c, instr, st);
    } else if instr.CheckMultiSig? {
      MultiSigSimulates(c, instr, st);
    } else if instr.CheckLockHeight? || instr.CheckLockTime?
              || instr.CheckLockHeightFromStack? || instr.CheckLockTimeFromStack? {
      LockTestSimulates(c, instr, st);
    } else {
      PerformOne(c, InstrOps(instr).value[0], st);
      if IsArithmetic(instr) {
        ArithmeticSimulates(c, instr, st);
      } else {
        StackOpSimulates(c, instr, st);
      }
    }
  }

  lemma {:induction false} RunSimulates(c: Context, code: Code, st: Stack)
    requires CodeOps(code).Success?
    ensures PerformAll(c, CodeOps(code).value, st) == if Pushable(code) then Run(c, code, st) else None
  {
    if code != [] {
      StepSimulates(c, code[0], st);
      assert Pushable(code) <==> Pushable([code[0]]) && Pushable(code[1..]) by {
        assert code == [code[0]] + code[1..];
      }
      PerformConcat(c, InstrOps(code[0]).value, CodeOps(code[1..]).value, st);
      var next := Step(c, code[0], st);
      if next.Some? { RunSimulates(c, code[1..], next.value); }
    }
  }

  lemma {:induction false} CodeHasNoControl(code: Code)
    requires CodeOps(code).Success?
    ensures NoControl(CodeOps(code).value)
  {
    if code != [] {
      InstrHasNoControl(code[0]);
      CodeHasNoControl(code[1..]);
    }
  }

  lemma InstrHasNoControl(instr: Instr)
    requires InstrOps(instr).Success?
    ensures NoControl(InstrOps(instr).value)
  {
  }

  lemma SpendOpsRun(c: Context, code: Code, st: Stack)
    requires SpendOps(code).Success?
    ensures AllWellFormed(SpendOps(code).value) && NoControl(SpendOps(code).value)
    ensures PerformAll(c, SpendOps(code).value, st) ==
            match Run(c, code, st)
            case Some(end) => if Pushable(code) then Some(Cons([1], end)) else None
            case None => None
  {
    CodeOpsWellFormed(code);
    CodeHasNoControl(code);
    RunSimulates(c, code, st);
    PerformConcat(c, CodeOps(code).value, [PlainOp(OP_1)], st);
    var end := Run(c, code, st);
    if end.Some? && Pushable(code) {
      PerformOne(c, PlainOp(OP_1), end.value);
      BoolNum(true);
    }
  }

  /** Running the bytes of code is running the code, for every transaction and stack. */
  lemma BytesRunAsCode(c: Context, code: Code, st: Stack)
    requires CodeOps(code).Success?
    ensures RunScript(c, Assemble(CodeOps(code).value), st) == if Pushable(code) then Run(c, code, st) else None
  {
    CodeOpsWellFormed(code);
    CodeHasNoControl(code);
    RunSimulates(c, code, st);
    RunsAsOps(c, CodeOps(code).value, st);
  }

  /** A spend script accepts exactly when its code consumes the whole stack it starts from. */
  lemma SpendScriptAccepts(c: Context, code: Code, st: Stack)
    requires SpendOps(code).Success?
    ensures Accepts(c, Assemble(SpendOps(code).value), st) <==> Pushable(code) && Run(c, code, st) == Some(Empty)
  {
    SpendOpsRun(c, code, st);
    RunsAsOps(c, SpendOps(code).value, st);
    BoolNum(true);
  }
}
