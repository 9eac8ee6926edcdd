/** Disassembly of script bytes (compiler/codegen/src/lib.rs). */
module Disassembly {
  import opened Wrappers
  import opened ScriptNumbers
  import opened Syntax
  import opened Script
  import opened Instructions
  import opened Encoding

  datatype AsmToken =
    | Zero
    | Data(bytes: Bytes)
    | PushData1(bytes: Bytes)
    | PushData2(bytes: Bytes)
    | PushData4(bytes: Bytes)
    | OneNegate
    | Small(n: byte)
    | Named(name: OpName)

  datatype AsmError = InvalidBytecode(offset: nat)

  /** The opcodes that have a printed name. */
  datatype OpName =
    | OpVerify
    | OpDrop
    | OpDup
    | OpEqual
    | OpNot
    | OpAdd
    | OpSub
    | OpBoolAnd
    | OpBoolOr
    | OpNumEqual
    | OpNumNotEqual
    | OpLessThan
    | OpGreaterThan
    | OpLessThanOrEqual
    | OpGreaterThanOrEqual
    | OpSha256
    | OpBlake2b
    | OpCheckSig
    | OpCheckMultiSig
    | OpCheckLockTimeVerify
    | OpCheckSequenceVerify
    | OpTxInputCount
    | OpTxOutputCount
    | OpTxInputIndex
    | OpTxInputAmount
    | OpTxInputSpk
    | OpTxOutputAmount
    | OpTxOutputSpk

  /** The disassembler's own table of opcode bytes. */
  function NameOfOpcode(opcode: byte): Option<OpName> {
    if opcode == 0x69 then Some(OpVerify)
    else if opcode == 0x75 then Some(OpDrop)
    else if opcode == 0x76 then Some(OpDup)
    else if opcode == 0x87 then Some(OpEqual)
    else if opcode == 0x91 then Some(OpNot)
    else if opcode == 0x93 then Some(OpAdd)
    else if opcode == 0x94 then Some(OpSub)
    else if opcode == 0x9a then Some(OpBoolAnd)
    else if opcode == 0x9b then Some(OpBoolOr)
    else if opcode == 0x9c then Some(OpNumEqual)
    else if opcode == 0x9e then Some(OpNumNotEqual)
    else if opcode == 0x9f then Some(OpLessThan)
    else if opcode == 0xa0 then Some(OpGreaterThan)
    else if opcode == 0xa1 then Some(OpLessThanOrEqual)
    else if opcode == 0xa2 then Some(OpGreaterThanOrEqual)
    else if opcode == 0xa8 then Some(OpSha256)
    else if opcode == 0xaa then Some(OpBlake2b)
    else if opcode == 0xac then Some(OpCheckSig)
    else if opcode == 0xae then Some(OpCheckMultiSig)
    else if opcode == 0xb0 then Some(OpCheckLockTimeVerify)
    else if opcode == 0xb1 then Some(OpCheckSequenceVerify)
    else if opcode == 0xb3 then Some(OpTxInputCount)
    else if opcode == 0xb4 then Some(OpTxOutputCount)
    else if opcode == 0xb9 then Some(OpTxInputIndex)
    else if opcode == 0xbe then Some(OpTxInputAmount)
    else if opcode == 0xbf then Some(OpTxInputSpk)
    else if opcode == 0xc2 then Some(OpTxOutputAmount)
    else if opcode == 0xc3 then Some(OpTxOutputSpk)
    else None
  }

  /** The printed text of a name. */
  function Text(name: OpName): string {
    match name
    case OpVerify => "OP_VERIFY"
    case OpDrop => "OP_DROP"
    case OpDup => "OP_DUP"
    case OpEqual => "OP_EQUAL"
    case OpNot => "OP_NOT"
    case OpAdd => "OP_ADD"
    case OpSub => "OP_SUB"
    case OpBoolAnd => "OP_BOOLAND"
    case OpBoolOr => "OP_BOOLOR"
    case OpNumEqual => "OP_NUMEQUAL"
    case OpNumNotEqual => "OP_NUMNOTEQUAL"
    case OpLessThan => "OP_LESSTHAN"
    case OpGreaterThan => "OP_GREATERTHAN"
    case OpLessThanOrEqual => "OP_LESSTHANOREQUAL"
    case OpGreaterThanOrEqual => "OP_GREATERTHANOREQUAL"
    case OpSha256 => "OP_SHA256"
    case OpBlake2b => "OP_BLAKE2B"
    case OpCheckSig => "OP_CHECKSIG"
    case OpCheckMultiSig => "OP_CHECKMULTISIG"
    case OpCheckLockTimeVerify => "OP_CHECKLOCKTIMEVERIFY"
    case OpCheckSequenceVerify => "OP_CHECKSEQUENCEVERIFY"
    case OpTxInputCount => "OP_TXINPUTCOUNT"
    case OpTxOutputCount => "OP_TXOUTPUTCOUNT"
    case OpTxInputIndex => "OP_TXINPUTINDEX"
    case OpTxInputAmount => "OP_TXINPUTAMOUNT"
    case OpTxInputSpk => "OP_TXINPUTSPK"
    case OpTxOutputAmount => "OP_TXOUTPUTAMOUNT"
    case OpTxOutputSpk => "OP_TXOUTPUTSPK"
  }

  /** The byte a name stands for. */
  function ByteOf(name: OpName): (opcode: byte)
    ensures NameOfOpcode(opcode) == Some(name)
  {
    match name
    case OpVerify => 0x69
    case OpDrop => 0x75
    case OpDup => 0x76
    case OpEqual => 0x87
    case OpNot => 0x91
    case OpAdd => 0x93
    case OpSub => 0x94
    case OpBoolAnd => 0x9a
    case OpBoolOr => 0x9b
    case OpNumEqual => 0x9c
    case OpNumNotEqual => 0x9e
    case OpLessThan => 0x9f
    case OpGreaterThan => 0xa0
    case OpLessThanOrEqual => 0xa1
    case OpGreaterThanOrEqual => 0xa2
    case OpSha256 => 0xa8
    case OpBlake2b => 0xaa
    case OpCheckSig => 0xac
    case OpCheckMultiSig => 0xae
    case OpCheckLockTimeVerify => 0xb0
    case OpCheckSequenceVerify => 0xb1
    case OpTxInputCount => 0xb3
    case OpTxOutputCount => 0xb4
    case OpTxInputIndex => 0xb9
    case OpTxInputAmount => 0xbe
    case OpTxInputSpk => 0xbf
    case OpTxOutputAmount => 0xc2
    case OpTxOutputSpk => 0xc3
  }

  function TokenOf(op: Op): Option<AsmToken> {
    match op
    case PushOp(opcode, data) =>
      Some(if opcode == OP_0 then Zero
           else if opcode == OP_PUSHDATA1 then PushData1(data)
           else if opcode == OP_PUSHDATA2 then PushData2(data)
           else if opcode == OP_PUSHDATA4 then PushData4(data)
           else Data(data))
    case PlainOp(opcode) =>
      if opcode == OP_1NEGATE then Some(OneNegate)
      else if OP_1 <= opcode <= OP_16 then Some(Small(opcode - 0x50))
      else
        var name :- NameOfOpcode(opcode);
        Some(Named(name))
  }

  /** The token list of a script, when every byte of it is understood. */
  function Asm(s: Bytes): Option<seq<AsmToken>>
    decreases |s|
  {
    if s == [] then Some([])
    else
      var (op, rest) :- ReadOp(s);
      var token :- TokenOf(op);
      var tokens :- Asm(rest);
      Some([token] + tokens)
  }

  /** How far reading the first operation of a script gets when it fails: unknown opcodes are reported
      where they stand, missing lengths after the opcode, missing data after the length. */
  function StopOf(s: Bytes): (n: nat)
    requires s != []
    ensures n <= |s|
  {
    var width := LengthWidth(s[0]);
    if OP_0 < s[0] < OP_PUSHDATA1 then 1
    else if width != 0 then if |s| - 1 < width then 1 else 1 + width
    else 0
  }

  /** Where a script that is not understood stops being understood. */
  function ErrorOffset(s: Bytes): (n: nat)
    ensures n <= |s|
    decreases |s|
  {
    if s == [] then 0
    else
      var first := ReadOp(s);
      if first.None? || TokenOf(first.value.0).None? then StopOf(s)
      else |s| - |first.value.1| + ErrorOffset(first.value.1)
  }

  /** The bytes a token stands for. */
  function TokenBytes(token: AsmToken): Bytes {
    match token
    case Zero => [OP_0]
    case Data(bytes) => [(|bytes| % 256) as byte] + bytes
    case PushData1(bytes) => [OP_PUSHDATA1] + LeBytes(|bytes|, 1) + bytes
    case PushData2(bytes) => [OP_PUSHDATA2] + LeBytes(|bytes|, 2) + bytes
    case PushData4(bytes) => [OP_PUSHDATA4] + LeBytes(|bytes|, 4) + bytes
    case OneNegate => [OP_1NEGATE]
    case Small(n) => if n <= 16 then [0x50 + n] else []
    case Named(name) => [ByteOf(name)]
  }

  function Reassemble(tokens: seq<AsmToken>): Bytes {
    if tokens == [] then [] else TokenBytes(tokens[0]) + Reassemble(tokens[1..])
  }

  // ---- the disassembler, moving an offset through the bytes ----

  method ReadPushData(s: Bytes, offset: nat, len: nat) returns (data: Option<Bytes>, end: nat)
    requires offset <= |s|
    ensures data.Some? <==> offset + len <= |s|
    ensures data.Some? ==> end == offset + len && data.value == s[offset..end]
    ensures data.None? ==> end == offset
  {
    end := offset + len;
    if end > |s| { return None, offset; }
    return Some(s[offset..end]), end;
  }

  /** Reads a little-endian push length of the given width. */
  method ReadLen(s: Bytes, offset: nat, width: nat) returns (len: Option<nat>, end: nat)
    requires offset <= |s|
    ensures len.Some? <==> offset + width <= |s|
    ensures len.Some? ==> end == offset + width && len.value == FromLe(s[offset..end])
  {
    if |s| - offset < width { return None, offset; }
    return Some(FromLe(s[offset..offset + width])), offset + width;
  }

  /** A push with `width` length bytes, starting after its opcode. */
  method ReadSizedPush(s: Bytes, offset: nat, width: nat) returns (data: Option<Bytes>, end: nat)
    requires 0 < offset <= |s| && width == LengthWidth(s[offset - 1]) && width != 0
    ensures data == match ReadOp(s[offset - 1..])
                    case Some((PushOp(_, d), _)) => Some(d)
                    case _ => None
    ensures data.Some? ==> offset <= end <= |s| && s[end..] == ReadOp(s[offset - 1..]).value.1
    ensures data.None? ==> end == offset - 1 + StopOf(s[offset - 1..])
  {
    ghost var here := s[offset - 1..];
    var len;
    len, end := ReadLen(s, offset, width);
    if len.None? { return None, offset; }
    assert here[1..1 + width] == s[offset..end];
    data, end := ReadPushData(s, end, len.value);
    if data.Some? {
      assert here[1 + width..1 + width + len.value] == data.value;
      assert here[1 + width + len.value..] == s[end..];
    }
  }

  /** The token at an offset and the offset after it; on failure, the offset to report. */
  method NextToken(s: Bytes, start: nat) returns (token: Option<AsmToken>, end: nat)
    requires start < |s|
    ensures start <= end <= |s|
    ensures var first := ReadOp(s[start..]);
            if token.Some? then
              start < end && first.Some? && TokenOf(first.value.0) == token && first.value.1 == s[end..]
            else
              (first.None? || TokenOf(first.value.0).None?) && end == start + StopOf(s[start..])
  {
    var opcode := s[start];
    ghost var here := s[start..];
    end := start + 1;
    assert here[1..] == s[end..];
    if opcode == 0x00 {
      assert here[1..1] == [];
      return Some(Zero), end;
    }
    if opcode <= 0x4b {
      var data, after := ReadPushData(s, end, opcode as nat);
      if data.None? { return None, end; }
      assert here[1..1 + opcode as nat] == data.value && here[1 + opcode as nat..] == s[after..];
      return Some(Data(data.value)), after;
    }
    if opcode <= 0x4e {
      var data, after := ReadSizedPush(s, end, LengthWidth(opcode));
      if data.None? { return None, after; }
      return Some(if opcode == 0x4c then PushData1(data.value)
                  else if opcode == 0x4d then PushData2(data.value)
                  else PushData4(data.value)), after;
    }
    if opcode == 0x4f { return Some(OneNegate), end; }
    if 0x51 <= opcode <= 0x60 { return Some(Small(opcode - 0x50)), end; }
    var name := NameOfOpcode(opcode);
    if name.None? { return None, start; }
    return Some(Named(name.value)), end;
  }

  /** A loop has produced `done`; the rest of the bytes would give `todo`. */
  ghost predicate Pending(whole: Option<seq<AsmToken>>, done: seq<AsmToken>, todo: Option<seq<AsmToken>>) {
    if todo.None? then whole.None? else whole.Some? && whole.value == done + todo.value
  }

  method Disassemble(s: Bytes) returns (r: Result<seq<AsmToken>, AsmError>)
    ensures r.Success? <==> Asm(s).Some?
    ensures r.Success? ==> r.value == Asm(s).value
    ensures r.Failure? ==> r.error == InvalidBytecode(ErrorOffset(s))
  {
    var offset: nat := 0;
    var asm: seq<AsmToken> := [];
    assert s[0..] == s;
    while offset < |s|
      invariant offset <= |s|
      invariant Pending(Asm(s), asm, Asm(s[offset..]))
      invariant Asm(s[offset..]).None? ==> ErrorOffset(s) == offset + ErrorOffset(s[offset..])
    {
      var token, end := NextToken(s, offset);
      if token.None? { return Failure(InvalidBytecode(end)); }
      offset := end;
      asm := asm + [token.value];
    }
    return Success(asm);
  }

  lemma TokenSpellsOp(op: Op)
    requires WellFormed(op) && TokenOf(op).Some?
    ensures TokenBytes(TokenOf(op).value) == OpBytes(op)
  {
    if op.PushOp? && LengthWidth(op.opcode) == 0 { assert LeBytes(|op.data|, 0) == []; }
  }

  /** A disassembled script is exactly the script its tokens spell. */
  lemma {:induction false} DisassemblyIsLossless(s: Bytes)
    requires Asm(s).Some?
    ensures Reassemble(Asm(s).value) == s
    decreases |s|
  {
    if s != [] {
      ReadIsLossless(s);
      var (op, rest) := ReadOp(s).value;
      DisassemblyIsLossless(rest);
      assert Asm(s).value[1..] == Asm(rest).value;
      TokenSpellsOp(op);
    }
  }

  /** Disassembly of two scripts in a row is one token list after the other. */
  lemma {:induction false} DisassemblyConcat(s: Bytes, t: Bytes)
    requires Asm(s).Some?
    ensures Asm(s + t) == if Asm(t).Some? then Some(Asm(s).value + Asm(t).value) else None
    decreases |s|
  {
    if s == [] {
      assert s + t == t;
      if Asm(t).Some? { assert [] + Asm(t).value == Asm(t).value; }
    } else {
      ReadIsLossless(s);
      var (op, rest) := ReadOp(s).value;
      ReadsBack(op, rest + t);
      assert s + t == OpBytes(op) + (rest + t);
      DisassemblyConcat(rest, t);
      if Asm(t).Some? { ConcatAssociates([TokenOf(op).value], Asm(rest).value, Asm(t).value); }
    }
  }

  // ---- what each instruction is written as ----

  /** A number as the disassembler shows it. */
  function NumberToken(n: nat): AsmToken { if n == 0 then Zero else if n <= 16 then Small(n as byte) else Data(Num(n)) }

  /** Data as the disassembler shows it. */
  function DataToken(data: Bytes): AsmToken {
    if data == [] then Zero
    else if |data| <= 75 then Data(data)
    else if |data| <= 255 then PushData1(data)
    else if |data| <= 65535 then PushData2(data)
    else PushData4(data)
  }

  function ValueToken(value: Value): AsmToken {
    match value
    case IntegerValue(n) => NumberToken(n)
    case BoolValue(b) => if b then Small(1) else Zero
    case BytesValue(bytes) => DataToken(bytes)
    case TextValue(text) => DataToken(Utf8(text))
    case SymbolValue(name) => DataToken(Utf8(name))
    case TypeValue(ty) => DataToken(Utf8(TypeText(ty)))
  }

  /** What an instruction the encoder writes shows as; nothing for the others. */
  function InstrTokens(instr: Instr): seq<AsmToken> {
    match instr
    case Push(value) => [ValueToken(value)]
    case Drop => [Named(OpDrop)]
    case Dup => [Named(OpDup)]
    case InputValue(index) => [NumberToken(index), Named(OpTxInputAmount)]
    case InputScript(index) => [NumberToken(index), Named(OpTxInputSpk)]
    case OutputValue(index) => [NumberToken(index), Named(OpTxOutputAmount)]
    case OutputScript(index) => [NumberToken(index), Named(OpTxOutputSpk)]
    case OutputCount => [Named(OpTxOutputCount)]
    case InputCount => [Named(OpTxInputCount)]
    case CheckSig(_) => [Named(OpCheckSig)]
    case CheckMultiSig(_, keyCount) => [NumberToken(keyCount), Named(OpCheckMultiSig)]
    case CheckLockHeight(v) => [NumberToken(v), Named(OpCheckLockTimeVerify), Small(1)]
    case CheckLockTime(v) => [NumberToken(v), Named(OpCheckLockTimeVerify), Small(1)]
    case CheckLockHeightFromStack => [Named(OpCheckLockTimeVerify), Small(1)]
    case CheckLockTimeFromStack => [Named(OpCheckLockTimeVerify), Small(1)]
    case Sha256 => [Named(OpSha256)]
    case Blake2b => [Named(OpBlake2b)]
    case Verify => [Named(OpVerify)]
    case Equal => [Named(OpEqual)]
    case NotEqual => [Named(OpNumNotEqual)]
    case GreaterThan => [Named(OpGreaterThan)]
    case GreaterThanOrEqual => [Named(OpGreaterThanOrEqual)]
    case LessThan => [Named(OpLessThan)]
    case LessThanOrEqual => [Named(OpLessThanOrEqual)]
    case And => [Named(OpBoolAnd)]
    case Or => [Named(OpBoolOr)]
    case Not => [Named(OpNot)]
    case Add => [Named(OpAdd)]
    case Sub => [Named(OpSub)]
    case _ => []
  }

  function CodeTokens(code: Code): seq<AsmToken> {
    if code == [] then [] else InstrTokens(code[0]) + CodeTokens(code[1..])
  }

  /** A script shows as the given tokens. */
  ghost predicate Shows(ops: seq<Op>, tokens: seq<AsmToken>) { Asm(Assemble(ops)) == Some(tokens) }

  lemma OneOpShows(op: Op, token: AsmToken)
    requires WellFormed(op) && TokenOf(op) == Some(token)
    ensures Shows([op], [token])
  {
    var bytes := OpBytes(op);
    assert [op][1..] == [] && Assemble([op]) == bytes + [] && bytes + [] == bytes;
    ReadsBack(op, []);
    assert [token] + [] == [token];
  }

  lemma NumberShows(n: u64)
    requires NumberOps(n).Success?
    ensures Shows(NumberOps(n).value, [NumberToken(n)])
  {
    if n > 16 { NumLength(n); }
    OneOpShows(NumberOps(n).value[0], NumberToken(n));
  }

  lemma DataShows(data: Bytes)
    requires DataOps(data).Success?
    ensures Shows(DataOps(data).value, [DataToken(data)])
  {
    OneOpShows(DataOp(data), DataToken(data));
  }

  lemma TwoShow(ops: seq<Op>, more: seq<Op>, tokens: seq<AsmToken>, others: seq<AsmToken>)
    requires Shows(ops, tokens) && Shows(more, others)
    ensures Shows(ops + more, tokens + others)
  {
    AssembleConcat(ops, more);
    DisassemblyConcat(Assemble(ops), Assemble(more));
  }

  lemma NumberAndMore(n: u64, more: seq<Op>, others: seq<AsmToken>, tokens: seq<AsmToken>)
    requires NumberOps(n).Success? && Shows(more, others) && tokens == [NumberToken(n)] + others
    ensures Shows(Then(NumberOps(n), more).value, tokens)
  {
    NumberShows(n);
    TwoShow(NumberOps(n).value, more, [NumberToken(n)], others);
  }

  lemma LockOpsShow()
    ensures Shows([PlainOp(OP_CHECKLOCKTIMEVERIFY), PlainOp(OP_1)], [Named(OpCheckLockTimeVerify), Small(1)])
  {
    OneOpShows(PlainOp(OP_CHECKLOCKTIMEVERIFY), Named(OpCheckLockTimeVerify));
    OneOpShows(PlainOp(OP_1), Small(1));
    TwoShow([PlainOp(OP_CHECKLOCKTIMEVERIFY)], [PlainOp(OP_1)], [Named(OpCheckLockTimeVerify)], [Small(1)]);
    assert [PlainOp(OP_CHECKLOCKTIMEVERIFY)] + [PlainOp(OP_1)] == [PlainOp(OP_CHECKLOCKTIMEVERIFY), PlainOp(OP_1)];
    assert [Named(OpCheckLockTimeVerify)] + [Small(1)] == [Named(OpCheckLockTimeVerify), Small(1)];
  }

  lemma PushShows(value: Value)
    requires PushOps(value).Success?
    ensures Shows(PushOps(value).value, [ValueToken(value)])
  {
    match value
    case IntegerValue(n) => NumberShows(n);
    case BoolValue(b) => OneOpShows(if b then PlainOp(OP_1) else PushOp(OP_0, []), if b then Small(1) else Zero);
    case BytesValue(bytes) => DataShows(bytes);
    case TextValue(text) => DataShows(Utf8(text));
    case SymbolValue(name) => DataShows(Utf8(name));
    case TypeValue(ty) => DataShows(Utf8(TypeText(ty)));
  }

  lemma ReadShows(index: u32, opcode: byte, name: OpName)
    requires opcode == ByteOf(name)
    ensures Shows(Then(NumberOps(index), [PlainOp(opcode)]).value, [NumberToken(index), Named(name)])
  {
    OneOpShows(PlainOp(opcode), Named(name));
    NumberAndMore(index, [PlainOp(opcode)], [Named(name)], [NumberToken(index), Named(name)]);
  }

  lemma LockShows(v: u64)
    requires NumberOps(v).Success?
    ensures Shows(Then(NumberOps(v), [PlainOp(OP_CHECKLOCKTIMEVERIFY), PlainOp(OP_1)]).value,
                  [NumberToken(v), Named(OpCheckLockTimeVerify), Small(1)])
  {
    LockOpsShow();
    NumberAndMore(v, [PlainOp(OP_CHECKLOCKTIMEVERIFY), PlainOp(OP_1)], [Named(OpCheckLockTimeVerify), Small(1)],
                  [NumberToken(v), Named(OpCheckLockTimeVerify), Small(1)]);
  }

  /** An instruction is written as one opcode that shows by the instruction's name. */
  ghost predicate ShowsAsOne(instr: Instr) {
    InstrOps(instr).Success? && |InstrOps(instr).value| == 1 && |InstrTokens(instr)| == 1
    && InstrOps(instr).value[0].PlainOp? && WellFormed(InstrOps(instr).value[0])
    && TokenOf(InstrOps(instr).value[0]) == Some(InstrTokens(instr)[0])
  }

  lemma ComparisonsShow(instr: Instr)
    requires instr.Equal? || instr.NotEqual? || instr.LessThan? || instr.LessThanOrEqual?
             || instr.GreaterThan? || instr.GreaterThanOrEqual?
    ensures ShowsAsOne(instr)
  {
  }

  lemma OperatorsShow(instr: Instr)
    requires instr.And? || instr.Or? || instr.Not? || instr.Add? || instr.Sub? || instr.Verify?
    ensures ShowsAsOne(instr)
  {
  }

  lemma StackOpsShow(instr: Instr)
    requires instr.Drop? || instr.Dup? || instr.OutputCount? || instr.InputCount? || instr.CheckSig? || instr.Sha256? || instr.Blake2b?
    ensures ShowsAsOne(instr)
  {
  }

  lemma OneOpInstructionShows(instr: Instr, ops: seq<Op>, tokens: seq<AsmToken>)
    requires ShowsAsOne(instr) && ops == InstrOps(instr).value && tokens == InstrTokens(instr)
    ensures Shows(ops, tokens)
  {
    OneOpShows(ops[0], tokens[0]);
    assert ops == [ops[0]] && tokens == [tokens[0]];
  }

  lemma ReadInstructionShows(instr: Instr)
    requires instr.InputValue? || instr.InputScript? || instr.OutputValue? || instr.OutputScript?
    ensures InstrOps(instr).Success? && Shows(InstrOps(instr).value, InstrTokens(instr))
  {
    match instr
    case InputValue(index) => ReadShows(index, OP_TXINPUTAMOUNT, OpTxInputAmount);
    case InputScript(index) => ReadShows(index, OP_TXINPUTSPK, OpTxInputSpk);
    case OutputValue(index) => ReadShows(index, OP_TXOUTPUTAMOUNT, OpTxOutputAmount);
    case OutputScript(index) => ReadShows(index, OP_TXOUTPUTSPK, OpTxOutputSpk);
  }

  lemma CheckInstructionShows(instr: Instr)
    requires instr.CheckMultiSig? || instr.CheckLockHeight? || instr.CheckLockTime?
             || instr.CheckLockHeightFromStack? || instr.CheckLockTimeFromStack?
    requires InstrOps(instr).Success?
    ensures Shows(InstrOps(instr).value, InstrTokens(instr))
  {
    match instr
    case CheckMultiSig(_, keyCount) => ReadShows(keyCount, OP_CHECKMULTISIG, OpCheckMultiSig);
    case CheckLockHeight(v) => LockShows(v);
    case CheckLockTime(v) => LockShows(v);
    case CheckLockHeightFromStack => LockOpsShow();
    case CheckLockTimeFromStack => LockOpsShow();
  }

  /** Every instruction the encoder writes shows as its own number and its own printed name. */
  lemma InstructionShows(instr: Instr, ops: seq<Op>, tokens: seq<AsmToken>)
    requires InstrOps(instr).Success? && Same(ops, InstrOps(instr).value) && Same(tokens, InstrTokens(instr))
    ensures Shows(ops, tokens)
  {
    if instr.Push? {
      PushShows(instr.value);
    } else if instr.InputValue? || instr.InputScript? || instr.OutputValue? || instr.OutputScript? {
      ReadInstructionShows(instr);
    } else if instr.CheckMultiSig? || instr.CheckLockHeight? || instr.CheckLockTime?
              || instr.CheckLockHeightFromStack? || instr.CheckLockTimeFromStack? {
      CheckInstructionShows(instr);
    } else {
      if instr.Equal? || instr.NotEqual? || instr.LessThan? || instr.LessThanOrEqual?
         || instr.GreaterThan? || instr.GreaterThanOrEqual? {
        ComparisonsShow(instr);
      } else if instr.And? || instr.Or? || instr.Not? || instr.Add? || instr.Sub? || instr.Verify? {
        OperatorsShow(instr);
      } else {
        StackOpsShow(instr);
      }
      OneOpInstructionShows(instr, ops, tokens);
    }
  }

  /** Compiled code shows as the numbers and printed names of its instructions, in order. */
  lemma {:induction false} CodeShows(code: Code)
    requires CodeOps(code).Success?
    ensures Shows(CodeOps(code).value, CodeTokens(code))
  {
    if code != [] {
      InstructionShows(code[0], InstrOps(code[0]).value, InstrTokens(code[0]));
      CodeShows(code[1..]);
      TwoShow(InstrOps(code[0]).value, CodeOps(code[1..]).value, InstrTokens(code[0]), CodeTokens(code[1..]));
    }
  }

  /** So does a spend script, with its final true. */
  lemma SpendScriptShows(code: Code)
    requires SpendOps(code).Success?
    ensures Shows(SpendOps(code).value, CodeTokens(code) + [Small(1)])
  {
    CodeShows(code);
    OneOpShows(PlainOp(OP_1), Small(1));
    TwoShow(CodeOps(code).value, [PlainOp(OP_1)], CodeTokens(code), [Small(1)]);
  }

  /** Everything the encoder emits disassembles. */
  lemma EncodedDisassembles(code: Code)
    requires CodeOps(code).Success?
    ensures Asm(Assemble(CodeOps(code).value)).Some?
  {
    CodeShows(code);
  }
}
