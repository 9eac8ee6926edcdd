/** Encoding of stack code as transaction script bytes (compiler/codegen/src/backends/toccata.rs). */
module Encoding {
  import opened Wrappers
  import opened ScriptNumbers
  import opened Syntax
  import opened Instructions
  import opened Script

  datatype EncodeError = ValueTooLarge | NotSupported(instr: Instr) | EmptyBytecode

  type Intended = Result<seq<Op>, EncodeError>

  function Utf8Char(c: char): Bytes {
    var v := c as int;
    if v < 0x80 then [v as byte]
    else if v < 0x800 then [(0xC0 + v / 0x40) as byte, (0x80 + v % 0x40) as byte]
    else if v < 0x1_0000 then
      [(0xE0 + v / 0x1000) as byte, (0x80 + v / 0x40 % 0x40) as byte, (0x80 + v % 0x40) as byte]
    else
      [(0xF0 + v / 0x4_0000) as byte, (0x80 + v / 0x1000 % 0x40) as byte,
       (0x80 + v / 0x40 % 0x40) as byte, (0x80 + v % 0x40) as byte]
  }

  function Utf8(s: string): Bytes {
    if s == "" then [] else Utf8Char(s[0]) + Utf8(s[1..])
  }

  /** The code point a UTF-8 sequence starts with, and what follows it. */
  function ReadUtf8(s: Bytes): Option<(int, Bytes)> {
    if s == [] then None
    else
      var lead := s[0] as int;
      if lead < 0x80 then Some((lead, s[1..]))
      else if 0xC0 <= lead < 0xE0 && |s| >= 2 then Some(((lead - 0xC0) * 0x40 + (s[1] as int - 0x80), s[2..]))
      else if 0xE0 <= lead < 0xF0 && |s| >= 3 then
        Some(((lead - 0xE0) * 0x1000 + (s[1] as int - 0x80) * 0x40 + (s[2] as int - 0x80), s[3..]))
      else if 0xF0 <= lead && |s| >= 4 then
        Some(((lead - 0xF0) * 0x4_0000 + (s[1] as int - 0x80) * 0x1000 + (s[2] as int - 0x80) * 0x40 + (s[3] as int - 0x80), s[4..]))
      else None
  }

  /** The code points of a UTF-8 sequence. */
  function CodePoints(s: Bytes): Option<seq<int>>
    decreases |s|
  {
    if s == [] then Some([])
    else
      var (first, rest) :- ReadUtf8(s);
      var others :- CodePoints(rest);
      Some([first] + others)
  }

  function Codes(s: string): (codes: seq<int>)
    ensures |codes| == |s| && forall i :: 0 <= i < |s| ==> codes[i] == s[i] as int
  {
    if s == "" then [] else [s[0] as int] + Codes(s[1..])
  }

  lemma SixBits(v: nat)
    ensures v / 0x1000 == v / 0x40 / 0x40 && v / 0x4_0000 == v / 0x1000 / 0x40
    ensures v == v / 0x40 * 0x40 + v % 0x40 && v / 0x40 == v / 0x1000 * 0x40 + v / 0x40 % 0x40
    ensures v / 0x1000 == v / 0x4_0000 * 0x40 + v / 0x1000 % 0x40
  {
  }

  lemma Utf8CharReads(c: char, rest: Bytes)
    ensures ReadUtf8(Utf8Char(c) + rest) == Some((c as int, rest))
  {
    var v, bytes := c as int, Utf8Char(c);
    SixBits(v);
    assert (bytes + rest)[|bytes|..] == rest;
    if v >= 0x1_0000 {
      WideCharReads(v, bytes + rest, rest);
    }
  }

  lemma WideCharReads(v: nat, s: Bytes, rest: Bytes)
    requires 0x1_0000 <= v < 0x11_0000 && |s| >= 4 && s[4..] == rest
    requires s[0] as int == 0xF0 + v / 0x4_0000 && s[1] as int == 0x80 + v / 0x1000 % 0x40
    requires s[2] as int == 0x80 + v / 0x40 % 0x40 && s[3] as int == 0x80 + v % 0x40
    ensures ReadUtf8(s) == Some((v, rest))
  {
    SixBits(v);
  }

  /** The bytes of a text are read back as its characters. */
  lemma {:induction false} Utf8ReadsBack(s: string)
    ensures CodePoints(Utf8(s)) == Some(Codes(s))
  {
    if s != "" {
      Utf8CharReads(s[0], Utf8(s[1..]));
      Utf8ReadsBack(s[1..]);
    }
  }

  function TypeText(ty: TypeName): string {
    match ty
    case KeyType => "PublicKey"
    case SignatureType => "Signature"
    case HashType => "Hash"
    case HeightType => "BlockHeight"
    case AmountType => "Amount"
    case BoolType => "Bool"
    case BytesType => "Bytes"
    case CovenantIdType => "CovenantID"
    case ProofType => "ZKProof"
    case UtxoType => "UTXO"
    case OutputType => "Output"
    case InputType => "Input"
  }

  // ---- specification: the operations an instruction stands for ----

  function NumberOps(v: u64): Intended {
    if v > I64_MAX then Failure(ValueTooLarge)
    else if v == 0 then Success([PushOp(OP_0, [])])
    else if v <= 16 then Success([PlainOp(OP_1 + (v - 1) as byte)])
    else
      NumLength(v);
      Success([DataOp(Num(v))])
  }

  function DataOps(data: Bytes): Intended {
    if |data| <= U32_MAX then Success([DataOp(data)]) else Failure(ValueTooLarge)
  }

  function PushOps(value: Value): Intended {
    match value
    case IntegerValue(n) => NumberOps(n)
    case BoolValue(b) => Success([if b then PlainOp(OP_1) else PushOp(OP_0, [])])
    case BytesValue(bytes) => DataOps(bytes)
    case TextValue(text) => DataOps(Utf8(text))
    case SymbolValue(name) => DataOps(Utf8(name))
    case TypeValue(ty) => DataOps(Utf8(TypeText(ty)))
  }

  function Then(first: Intended, ops: seq<Op>): Intended {
    var o :- first;
    Success(o + ops)
  }

  function InstrOps(instr: Instr): Intended {
    match instr
    case Push(value) => PushOps(value)
    case Drop => Success([PlainOp(OP_DROP)])
    case Dup => Success([PlainOp(OP_DUP)])
    case InputValue(index) => Then(NumberOps(index), [PlainOp(OP_TXINPUTAMOUNT)])
    case InputScript(index) => Then(NumberOps(index), [PlainOp(OP_TXINPUTSPK)])
    case OutputValue(index) => Then(NumberOps(index), [PlainOp(OP_TXOUTPUTAMOUNT)])
    case OutputScript(index) => Then(NumberOps(index), [PlainOp(OP_TXOUTPUTSPK)])
    case OutputCount => Success([PlainOp(OP_TXOUTPUTCOUNT)])
    case InputCount => Success([PlainOp(OP_TXINPUTCOUNT)])
    case CheckSig(_) => Success([PlainOp(OP_CHECKSIG)])
    case CheckMultiSig(_, keyCount) => Then(NumberOps(keyCount), [PlainOp(OP_CHECKMULTISIG)])
    case CheckLockHeight(v) => Then(NumberOps(v), [PlainOp(OP_CHECKLOCKTIMEVERIFY), PlainOp(OP_1)])
    case CheckLockTime(v) => Then(NumberOps(v), [PlainOp(OP_CHECKLOCKTIMEVERIFY), PlainOp(OP_1)])
    case CheckLockHeightFromStack => Success([PlainOp(OP_CHECKLOCKTIMEVERIFY), PlainOp(OP_1)])
    case CheckLockTimeFromStack => Success([PlainOp(OP_CHECKLOCKTIMEVERIFY), PlainOp(OP_1)])
    case Sha256 => Success([PlainOp(OP_SHA256)])
    case Blake2b => Success([PlainOp(OP_BLAKE2B)])
    case Verify => Success([PlainOp(OP_VERIFY)])
    case Equal => Success([PlainOp(OP_EQUAL)])
    case NotEqual => Success([PlainOp(OP_NUMNOTEQUAL)])
    case GreaterThan => Success([PlainOp(OP_GREATERTHAN)])
    case GreaterThanOrEqual => Success([PlainOp(OP_GREATERTHANOREQUAL)])
    case LessThan => Success([PlainOp(OP_LESSTHAN)])
    case LessThanOrEqual => Success([PlainOp(OP_LESSTHANOREQUAL)])
    case And => Success([PlainOp(OP_BOOLAND)])
    case Or => Success([PlainOp(OP_BOOLOR)])
    case Not => Success([PlainOp(OP_NOT)])
    case Add => Success([PlainOp(OP_ADD)])
    case Sub => Success([PlainOp(OP_SUB)])
    case CovenantDepth | CovenantId | ZkVerifyGroth16 | ZkVerifyRiscZero | SequencingCommitment
      | Hash160 | CheckHashPreimage | Mul | Div | Mod => Failure(NotSupported(instr))
  }

  /** The opcode stream a code sequence stands for. */
  function CodeOps(code: Code): Intended {
    if code == [] then Success([])
    else
      Join(InstrOps(code[0]), CodeOps(code[1..]))
  }

  /** The redeem script of a spend: its code, then a final true. */
  function SpendOps(code: Code): Intended {
    if code == [] then Failure(EmptyBytecode) else Then(CodeOps(code), [PlainOp(OP_1)])
  }

  function Join(first: Intended, rest: Intended): Intended {
    var f :- first;
    var r :- rest;
    Success(f + r)
  }

  // ---- the encoders, appending bytes to a shared buffer ----

  /** What an encoder appends, given the operations its input stands for. */
  ghost predicate Emitted(spec: Intended, before: Bytes, after: Bytes, r: Outcome<EncodeError>) {
    match spec
    case Success(ops) => r.Pass? && after == before + Assemble(ops)
    case Failure(error) => r == Fail(error)
  }

  method EncodeData(data: Bytes, out: Vec<byte>) returns (r: Outcome<EncodeError>)
    modifies out
    ensures Emitted(DataOps(data), old(out.items), out.items, r)
  {
    assert |data| <= U32_MAX ==> Assemble([DataOp(data)]) == OpBytes(DataOp(data));
    assert LeBytes(|data|, 1) == [(|data| % 256) as byte];
    assert LeBytes(|data|, 0) == [];
    if |data| <= 75 {
      out.Push(|data| as byte);
    } else if |data| <= 0xFF {
      out.Push(OP_PUSHDATA1);
      out.Push(|data| as byte);
    } else if |data| <= 0xFFFF {
      out.Push(OP_PUSHDATA2);
      out.Extend(LeBytes(|data|, 2));
    } else {
      if |data| > U32_MAX { return Fail(ValueTooLarge); }
      out.Push(OP_PUSHDATA4);
      out.Extend(LeBytes(|data|, 4));
    }
    out.Extend(data);
    return Pass;
  }

  method EncodeU64(v: u64, out: Vec<byte>) returns (r: Outcome<EncodeError>)
    modifies out
    ensures Emitted(NumberOps(v), old(out.items), out.items, r)
  {
    if v > I64_MAX { return Fail(ValueTooLarge); }
    if v == 0 {
      out.Push(OP_0);
      assert OpBytes(PushOp(OP_0, [])) == [OP_0];
      return Pass;
    }
    if v <= 16 {
      out.Push(OP_1 + (v as byte - 1));
      assert Assemble([PlainOp(OP_1 + (v - 1) as byte)]) == [OP_1 + (v - 1) as byte];
      return Pass;
    }
    Pow256Values();
    TrimmedIsShortest(v, 8);
    LeRoundTrip(v);
    var encoded := TrimZeros(LeBytes(v, 8));
    if encoded != [] && encoded[|encoded| - 1] >= 128 {
      encoded := encoded + [0];
    }
    NumLength(v);
    r := EncodeData(encoded, out);
  }

  method EncodePush(value: Value, out: Vec<byte>) returns (r: Outcome<EncodeError>)
    modifies out
    ensures Emitted(PushOps(value), old(out.items), out.items, r)
  {
    match value
    case IntegerValue(n) => r := EncodeU64(n, out);
    case BoolValue(b) =>
      out.Push(if b then OP_1 else OP_0);
      assert OpBytes(PushOp(OP_0, [])) == [OP_0];
      return Pass;
    case BytesValue(bytes) => r := EncodeData(bytes, out);
    case TextValue(text) => r := EncodeData(Utf8(text), out);
    case SymbolValue(name) => r := EncodeData(Utf8(name), out);
    case TypeValue(ty) => r := EncodeData(Utf8(TypeText(ty)), out);
  }

  /** Appending plain opcodes to encoded operations appends their bytes. */
  lemma ThenBytes(first: Intended, opcodes: Bytes)
    requires first.Success?
    ensures Then(first, PlainOps(opcodes)).Success?
    ensures Assemble(Then(first, PlainOps(opcodes)).value) == Assemble(first.value) + opcodes
  {
    AssembleConcat(first.value, PlainOps(opcodes));
    AssemblePlain(opcodes);
  }

  function PlainOps(opcodes: Bytes): seq<Op> {
    if opcodes == [] then [] else [PlainOp(opcodes[0])] + PlainOps(opcodes[1..])
  }

  lemma {:induction false} AssemblePlain(opcodes: Bytes)
    ensures Assemble(PlainOps(opcodes)) == opcodes
  {
    if opcodes != [] {
      AssemblePlain(opcodes[1..]);
      HeadAndTail(opcodes);
    }
  }

  lemma PlainOpsShort(a: byte, b: byte)
    ensures PlainOps([a]) == [PlainOp(a)]
    ensures PlainOps([a, b]) == [PlainOp(a), PlainOp(b)]
  {
    assert [a, b][1..] == [b] && [b][1..] == [];
  }

  method EncodeIndexed(opcode: byte, index: u32, out: Vec<byte>) returns (r: Outcome<EncodeError>)
    modifies out
    ensures Emitted(Then(NumberOps(index), [PlainOp(opcode)]), old(out.items), out.items, r)
  {
    ghost var number := NumberOps(index);
    r := EncodeU64(index, out);
    if r.Fail? { return; }
    ThenBytes(number, [opcode]);
    PlainOpsShort(opcode, opcode);
    out.Push(opcode);
  }

  method EncodeLockTest(v: u64, out: Vec<byte>) returns (r: Outcome<EncodeError>)
    modifies out
    ensures Emitted(Then(NumberOps(v), [PlainOp(OP_CHECKLOCKTIMEVERIFY), PlainOp(OP_1)]), old(out.items), out.items, r)
  {
    ghost var number := NumberOps(v);
    r := EncodeU64(v, out);
    if r.Fail? { return; }
    ThenBytes(number, [OP_CHECKLOCKTIMEVERIFY, OP_1]);
    PlainOpsShort(OP_CHECKLOCKTIMEVERIFY, OP_1);
    out.Push(OP_CHECKLOCKTIMEVERIFY);
    out.Push(OP_1);
  }

  method EncodeOpcode(opcode: byte, out: Vec<byte>) returns (r: Outcome<EncodeError>)
    modifies out
    ensures Emitted(Success([PlainOp(opcode)]), old(out.items), out.items, r)
  {
    assert Assemble([PlainOp(opcode)]) == [opcode];
    out.Push(opcode);
    return Pass;
  }

  method EncodeStackLockTest(out: Vec<byte>) returns (r: Outcome<EncodeError>)
    modifies out
    ensures Emitted(Success([PlainOp(OP_CHECKLOCKTIMEVERIFY), PlainOp(OP_1)]), old(out.items), out.items, r)
  {
    AssemblePlain([OP_CHECKLOCKTIMEVERIFY, OP_1]);
    PlainOpsShort(OP_CHECKLOCKTIMEVERIFY, OP_1);
    out.Push(OP_CHECKLOCKTIMEVERIFY);
    out.Push(OP_1);
    return Pass;
  }

  method EncodeInstruction(instr: Instr, out: Vec<byte>) returns (r: Outcome<EncodeError>)
    modifies out
    ensures Emitted(InstrOps(instr), old(out.items), out.items, r)
  {
    match instr
    case Push(value) => r := EncodePush(value, out);
    case InputValue(index) => r := EncodeIndexed(OP_TXINPUTAMOUNT, index, out);
    case InputScript(index) => r := EncodeIndexed(OP_TXINPUTSPK, index, out);
    case OutputValue(index) => r := EncodeIndexed(OP_TXOUTPUTAMOUNT, index, out);
    case OutputScript(index) => r := EncodeIndexed(OP_TXOUTPUTSPK, index, out);
    case CheckMultiSig(_, keyCount) => r := EncodeIndexed(OP_CHECKMULTISIG, keyCount, out);
    case CheckLockHeight(v) => r := EncodeLockTest(v, out);
    case CheckLockTime(v) => r := EncodeLockTest(v, out);
    case CheckLockHeightFromStack => r := EncodeStackLockTest(out);
    case CheckLockTimeFromStack => r := EncodeStackLockTest(out);
    case Drop => r := EncodeOpcode(OP_DROP, out);
    case Dup => r := EncodeOpcode(OP_DUP, out);
    case OutputCount => r := EncodeOpcode(OP_TXOUTPUTCOUNT, out);
    case InputCount => r := EncodeOpcode(OP_TXINPUTCOUNT, out);
    case CheckSig(_) => r := EncodeOpcode(OP_CHECKSIG, out);
    case Sha256 => r := EncodeOpcode(OP_SHA256, out);
    case Blake2b => r := EncodeOpcode(OP_BLAKE2B, out);
    case Verify => r := EncodeOpcode(OP_VERIFY, out);
    case Equal => r := EncodeOpcode(OP_EQUAL, out);
    case NotEqual => r := EncodeOpcode(OP_NUMNOTEQUAL, out);
    case GreaterThan => r := EncodeOpcode(OP_GREATERTHAN, out);
    case GreaterThanOrEqual => r := EncodeOpcode(OP_GREATERTHANOREQUAL, out);
    case LessThan => r := EncodeOpcode(OP_LESSTHAN, out);
    case LessThanOrEqual => r := EncodeOpcode(OP_LESSTHANOREQUAL, out);
    case And => r := EncodeOpcode(OP_BOOLAND, out);
    case Or => r := EncodeOpcode(OP_BOOLOR, out);
    case Not => r := EncodeOpcode(OP_NOT, out);
    case Add => r := EncodeOpcode(OP_ADD, out);
    case Sub => r := EncodeOpcode(OP_SUB, out);
    case CovenantDepth | CovenantId | ZkVerifyGroth16 | ZkVerifyRiscZero | SequencingCommitment
      | Hash160 | CheckHashPreimage | Mul | Div | Mod => return Fail(NotSupported(instr));
  }

  /** A loop has emitted the bytes `now` after `before`; what is left stands for `todo`. */
  ghost predicate Pending(whole: Intended, before: Bytes, now: Bytes, todo: Intended) {
    if todo.Failure? then whole == todo
    else whole.Success? && before + Assemble(whole.value) == now + Assemble(todo.value)
  }

  lemma PendingStep(whole: Intended, before: Bytes, now: Bytes, first: Intended, rest: Intended)
    requires Pending(whole, before, now, Join(first, rest))
    ensures first.Failure? ==> whole == first
    ensures first.Success? ==> Pending(whole, before, now + Assemble(first.value), rest)
  {
    if first.Success? && rest.Success? {
      AssembleConcat(first.value, rest.value);
      ConcatAssociates(now, Assemble(first.value), Assemble(rest.value));
    }
  }

  method EncodeSequence(code: Code, out: Vec<byte>) returns (r: Outcome<EncodeError>)
    modifies out
    ensures Emitted(CodeOps(code), old(out.items), out.items, r)
  {
    assert code[0..] == code;
    for i := 0 to |code|
      invariant Pending(CodeOps(code), old(out.items), out.items, CodeOps(code[i..]))
    {
      assert code[i..][0] == code[i] && code[i..][1..] == code[i + 1..];
      PendingStep(CodeOps(code), old(out.items), out.items, InstrOps(code[i]), CodeOps(code[i + 1..]));
      r := EncodeInstruction(code[i], out);
      if r.Fail? { return; }
    }
    return Pass;
  }

  method CompileSpendScript(code: Code) returns (r: Result<Bytes, EncodeError>)
    ensures r == match SpendOps(code) case Success(ops) => Success(Assemble(ops)) case Failure(error) => Failure(error)
  {
    if code == [] { return Failure(EmptyBytecode); }
    var out := new Vec<byte>();
    var status := EncodeSequence(code, out);
    if status.Fail? { return Failure(status.error); }
    out.Push(OP_1);
    ThenBytes(CodeOps(code), [OP_1]);
    PlainOpsShort(OP_1, OP_1);
    assert [] + Assemble(CodeOps(code).value) == Assemble(CodeOps(code).value);
    return Success(out.items);
  }

  // ---- what the bytes decode to ----

  lemma InstrOpsWellFormed(instr: Instr)
    requires InstrOps(instr).Success?
    ensures AllWellFormed(InstrOps(instr).value)
  {
  }

  lemma {:induction false} CodeOpsWellFormed(code: Code)
    requires CodeOps(code).Success?
    ensures AllWellFormed(CodeOps(code).value)
  {
    if code != [] {
      InstrOpsWellFormed(code[0]);
      CodeOpsWellFormed(code[1..]);
    }
  }

  /** The bytes of a spend script decode to its intended opcodes, whatever data its pushes carry. */
  lemma SpendScriptDecodes(code: Code)
    requires SpendOps(code).Success?
    ensures Decode(Assemble(SpendOps(code).value)) == Some(SpendOps(code).value)
  {
    CodeOpsWellFormed(code);
    DecodeAssemble(SpendOps(code).value);
  }

  lemma JoinAssociates(a: Intended, b: Intended, c: Intended)
    ensures Join(a, Join(b, c)) == Join(Join(a, b), c)
  {
    if a.Success? && b.Success? && c.Success? { ConcatAssociates(a.value, b.value, c.value); }
  }

  lemma JoinEmpty(a: Intended)
    ensures Join(Success([]), a) == a
  {
    if a.Success? { assert [] + a.value == a.value; }
  }

  lemma {:induction false} CodeOpsConcat(a: Code, b: Code)
    ensures CodeOps(a + b) == Join(CodeOps(a), CodeOps(b))
  {
    if a == [] {
      assert a + b == b;
      JoinEmpty(CodeOps(b));
    } else {
      CodeOpsConcat(a[1..], b);
      assert (a + b)[0] == a[0] && (a + b)[1..] == a[1..] + b;
      JoinAssociates(InstrOps(a[0]), CodeOps(a[1..]), CodeOps(b));
    }
  }
}
